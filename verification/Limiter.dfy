/** The bootstrap login limiter (internal/httpapi/setup_handlers.go:37-89, 121-134): what a
    fixed window of failures per client bounds, with attempts interleaved and one by one. */
module Limiter {
  const MAX_FAILS := 10

  /** time.Minute, in nanoseconds. */
  const MINUTE := 60_000_000_000

  datatype Fails = Fails(count: nat, windowStart: int)

  type Table = map<string, Fails>

  predicate Live(t: Table, key: string, now: int) {
    key in t && now - t[key].windowStart <= MINUTE
  }

  predicate Allowed(t: Table, key: string, now: int) {
    Live(t, key, now) ==> t[key].count < MAX_FAILS
  }

  function Recorded(t: Table, key: string, now: int): Table {
    if Live(t, key, now) then t[key := Fails(t[key].count + 1, t[key].windowStart)]
    else t[key := Fails(1, now)]
  }

  datatype LoginResult = RateLimited | Unauthorized | LoggedIn

  class LoginLimiter {
    var fails: Table

    constructor ()
      ensures fails == map[]
    {
      fails := map[];
    }

    method Allow(key: string, now: int) returns (ok: bool)
      ensures ok == Allowed(fails, key, now)
      ensures ok <==> key !in fails || fails[key].windowStart + 60 * 1_000_000_000 < now || fails[key].count < 10
    {
      if key !in fails || now - fails[key].windowStart > MINUTE {
        return true;
      }
      return fails[key].count < MAX_FAILS;
    }

    method RecordFail(key: string, now: int)
      modifies this
      ensures fails == Recorded(old(fails), key, now)
      ensures fails == old(fails)[key :=
        if key in old(fails) && now <= old(fails)[key].windowStart + 60 * 1_000_000_000
        then Fails(old(fails)[key].count + 1, old(fails)[key].windowStart) else Fails(1, now)]
    {
      if key !in fails || now - fails[key].windowStart > MINUTE {
        fails := fails[key := Fails(1, now)];
        return;
      }
      fails := fails[key := fails[key].(count := fails[key].count + 1)];
    }

    method Reset(key: string)
      modifies this
      ensures fails == old(fails) - {key}
    {
      fails := fails - {key};
    }

    /** One login attempt with nothing in between: a wrong password is compared, and so
        counted, exactly when the limiter lets the attempt through. */
    method SetupLogin(key: string, expected: string, password: string, now: int) returns (r: LoginResult)
      modifies this
      ensures r == if !Allowed(old(fails), key, now) then RateLimited
                   else if password == expected then LoggedIn else Unauthorized
      ensures fails == if r == RateLimited then old(fails)
                       else if r == LoggedIn then old(fails) - {key} else Recorded(old(fails), key, now)
    {
      var ok := Allow(key, now);
      if !ok {
        return RateLimited;
      }
      if password != expected {
        RecordFail(key, now);
        return Unauthorized;
      }
      Reset(key);
      return LoggedIn;
    }
  }

  // ---------- Attempts interleaved ----------

  /** `flying` holds the attempts that `allow` let through and that neither recorded a
      failure nor reset yet. */
  datatype State = State(now: int, fails: Table, flying: map<nat, string>)

  datatype Step =
    | Enter(pid: nat, key: string)
    | Fail(pid: nat)
    | Succeed(pid: nat)
    | Tick(d: nat)

  function Next(s: State, step: Step): State {
    match step
    case Enter(pid, key) =>
      if pid !in s.flying && Allowed(s.fails, key, s.now) then s.(flying := s.flying[pid := key]) else s
    case Fail(pid) =>
      if pid in s.flying
      then s.(fails := Recorded(s.fails, s.flying[pid], s.now), flying := s.flying - {pid}) else s
    case Succeed(pid) =>
      if pid in s.flying then s.(fails := s.fails - {s.flying[pid]}, flying := s.flying - {pid}) else s
    case Tick(d) => s.(now := s.now + d)
  }

  function Exec(s: State, steps: seq<Step>): State {
    if steps == [] then s else Next(Exec(s, steps[..|steps| - 1]), steps[|steps| - 1])
  }

  predicate Initial(s: State) {
    s.fails == map[] && s.flying == map[]
  }

  function Flying(s: State, key: string): set<nat> {
    set pid | pid in s.flying && s.flying[pid] == key
  }

  function Count(s: State, key: string): nat {
    if key in s.fails then s.fails[key].count else 0
  }

  /** At no point of the run are more than `c` attempts for `key` in flight. */
  predicate AtMost(s: State, steps: seq<Step>, key: string, c: nat) {
    |Flying(Exec(s, steps), key)| <= c && (steps != [] ==> AtMost(s, steps[..|steps| - 1], key, c))
  }

  predicate Bounded(s: State, key: string, c: nat) {
    && Count(s, key) <= MAX_FAILS - 1 + c
    && (Live(s.fails, key, s.now) ==> Count(s, key) + |Flying(s, key)| <= MAX_FAILS - 1 + c)
  }

  lemma OneLess(s: State, pid: nat, key: string)
    requires pid in s.flying
    ensures var t := s.(flying := s.flying - {pid});
      |Flying(t, key)| == if s.flying[pid] == key then |Flying(s, key)| - 1 else |Flying(s, key)|
  {
    var t := s.(flying := s.flying - {pid});
    if s.flying[pid] == key {
      assert Flying(t, key) == Flying(s, key) - {pid};
    } else {
      assert Flying(t, key) == Flying(s, key);
    }
  }

  lemma FlyingOnly(s: State, t: State, key: string)
    requires s.flying == t.flying
    ensures Flying(s, key) == Flying(t, key)
  {
  }

  lemma NextBounded(s: State, step: Step, key: string, c: nat)
    requires Bounded(s, key, c) && |Flying(s, key)| <= c && |Flying(Next(s, step), key)| <= c
    ensures Bounded(Next(s, step), key, c)
  {
    hide Flying;
    var t := Next(s, step);
    match step
    case Enter(pid, k) =>
      if k != key {
        OtherEntry(s, step, key);
      }
    case Tick(d) => FlyingOnly(s, t, key);
    case _ =>
      if step.pid in s.flying {
        OneLess(s, step.pid, key);
        FlyingOnly(s.(flying := s.flying - {step.pid}), t, key);
      }
  }

  lemma OtherEntry(s: State, step: Step, key: string)
    requires step.Enter? && step.key != key
    ensures Flying(Next(s, step), key) == Flying(s, key)
  {
  }

  /** With at most `c` attempts between `allow` and `recordFail`, a client's count never
      exceeds nine plus `c`. */
  lemma {:induction false} CountBound(s: State, steps: seq<Step>, key: string, c: nat)
    requires Initial(s) && AtMost(s, steps, key, c)
    ensures Count(Exec(s, steps), key) <= 9 + c
    ensures Bounded(Exec(s, steps), key, c)
  {
    hide Next, Flying, Bounded;
    if steps == [] {
      StartBounded(s, key, c);
    } else {
      CountBound(s, steps[..|steps| - 1], key, c);
      NextBounded(Exec(s, steps[..|steps| - 1]), steps[|steps| - 1], key, c);
    }
    BoundedCount(Exec(s, steps), key, c);
  }

  lemma StartBounded(s: State, key: string, c: nat)
    requires Initial(s)
    ensures Bounded(s, key, c)
  {
  }

  lemma BoundedCount(s: State, key: string, c: nat)
    requires Bounded(s, key, c)
    ensures Count(s, key) <= MAX_FAILS - 1 + c
  {
  }

  // ---------- When a client is let in again ----------

  /** A client with ten failures is let through again exactly when more than a minute has passed
      since its window began. */
  lemma BlockedForTheMinute(s: State, pid: nat, key: string, d: nat)
    requires pid !in s.flying && key in s.fails && s.fails[key].count >= 10
    ensures pid in Next(Next(s, Tick(d)), Enter(pid, key)).flying <==>
      s.now + d > s.fails[key].windowStart + 60 * 1_000_000_000
  {
  }

  /** Or when another attempt of it succeeded. */
  lemma SuccessLetsIn(s: State, pid: nat, other: nat, key: string)
    requires pid !in s.flying && other in s.flying && s.flying[other] == key
    ensures pid in Next(Next(s, Succeed(other)), Enter(pid, key)).flying
  {
  }

  // ---------- The bound is reached ----------

  lemma {:induction false} ExecAppend(s: State, a: seq<Step>, b: seq<Step>)
    ensures Exec(s, a + b) == Exec(Exec(s, a), b)
    decreases |b|
  {
    hide Next;
    if b == [] {
      assert a + b == a;
    } else {
      ExecAppend(s, a, b[..|b| - 1]);
      assert (a + b)[..|a + b| - 1] == a + b[..|b| - 1];
    }
  }

  lemma {:induction false} AtMostAppend(s: State, a: seq<Step>, b: seq<Step>, key: string, c: nat)
    requires AtMost(s, a, key, c) && AtMost(Exec(s, a), b, key, c)
    ensures AtMost(s, a + b, key, c)
    decreases |b|
  {
    hide Next, Flying;
    ExecAppend(s, a, b);
    if b == [] {
      assert a + b == a;
    } else {
      AtMostAppend(s, a, b[..|b| - 1], key, c);
      assert (a + b)[..|a + b| - 1] == a + b[..|b| - 1];
    }
  }

  /** `n` attempts one after the other, each failing. */
  function Serial(key: string, n: nat): seq<Step> {
    if n == 0 then [] else Serial(key, n - 1) + [Enter(0, key), Fail(0)]
  }

  /** `n` attempts let through before any of them fails. */
  function Entering(key: string, n: nat): seq<Step> {
    if n == 0 then [] else Entering(key, n - 1) + [Enter(n - 1, key)]
  }

  function Failing(n: nat): seq<Step> {
    if n == 0 then [] else [Fail(n - 1)] + Failing(n - 1)
  }

  function Burst(key: string, n: nat): map<nat, string> {
    if n == 0 then map[] else Burst(key, n - 1)[n - 1 := key]
  }

  function At(s: State, key: string, count: nat, n: nat): State {
    State(s.now, if count == 0 then map[] else map[key := Fails(count, s.now)], Burst(key, n))
  }

  lemma {:induction false} BurstPids(key: string, n: nat, pid: nat)
    ensures pid in Burst(key, n) <==> pid < n
  {
    if n > 0 {
      BurstPids(key, n - 1, pid);
    }
  }

  lemma BurstFlying(s: State, key: string, count: nat, n: nat)
    ensures |Flying(At(s, key, count, n), key)| == n
    decreases n
  {
    var t := At(s, key, count, n);
    if n > 0 {
      BurstFlying(s, key, count, n - 1);
      BurstPids(key, n - 1, n - 1);
      assert Flying(t, key) == Flying(At(s, key, count, n - 1), key) + {n - 1};
    } else {
      assert Flying(t, key) == {};
    }
  }

  lemma EnterStep(s: State, key: string, count: nat, n: nat)
    requires count < MAX_FAILS
    ensures Next(At(s, key, count, n), Enter(n, key)) == At(s, key, count, n + 1)
  {
    BurstPids(key, n, n);
  }

  lemma FailStep(s: State, key: string, count: nat, n: nat)
    ensures Next(At(s, key, count, n + 1), Fail(n)) == At(s, key, count + 1, n)
  {
    BurstPids(key, n, n);
    assert Burst(key, n + 1) - {n} == Burst(key, n);
  }

  lemma AtMostOne(s: State, step: Step, key: string, c: nat)
    requires |Flying(s, key)| <= c && |Flying(Next(s, step), key)| <= c
    ensures AtMost(s, [step], key, c) && Exec(s, [step]) == Next(s, step)
  {
    hide Next, Flying;
    assert [step][..0] == [];
    assert Exec(s, []) == s;
    assert AtMost(s, [], key, c);
  }

  lemma {:induction false} SerialRuns(s: State, key: string, n: nat, c: nat)
    requires n <= MAX_FAILS && c > 0
    ensures Exec(At(s, key, 0, 0), Serial(key, n)) == At(s, key, n, 0)
    ensures AtMost(At(s, key, 0, 0), Serial(key, n), key, c)
  {
    hide Next, Flying, At;
    if n == 0 {
      BurstFlying(s, key, 0, 0);
    } else {
      SerialRuns(s, key, n - 1, c);
      var a := At(s, key, n - 1, 0);
      EnterStep(s, key, n - 1, 0);
      FailStep(s, key, n - 1, 0);
      BurstFlying(s, key, n - 1, 0);
      BurstFlying(s, key, n - 1, 1);
      BurstFlying(s, key, n, 0);
      AtMostOne(a, Enter(0, key), key, c);
      AtMostOne(At(s, key, n - 1, 1), Fail(0), key, c);
      AtMostAppend(a, [Enter(0, key)], [Fail(0)], key, c);
      ExecAppend(a, [Enter(0, key)], [Fail(0)]);
      assert [Enter(0, key)] + [Fail(0)] == [Enter(0, key), Fail(0)];
      AtMostAppend(At(s, key, 0, 0), Serial(key, n - 1), [Enter(0, key), Fail(0)], key, c);
      ExecAppend(At(s, key, 0, 0), Serial(key, n - 1), [Enter(0, key), Fail(0)]);
    }
  }

  lemma {:induction false} EnteringRuns(s: State, key: string, count: nat, n: nat, c: nat)
    requires count < MAX_FAILS && n <= c
    ensures Exec(At(s, key, count, 0), Entering(key, n)) == At(s, key, count, n)
    ensures AtMost(At(s, key, count, 0), Entering(key, n), key, c)
  {
    hide Next, Flying, At;
    BurstFlying(s, key, count, n);
    if n > 0 {
      EnteringRuns(s, key, count, n - 1, c);
      BurstFlying(s, key, count, n - 1);
      EnterStep(s, key, count, n - 1);
      AtMostOne(At(s, key, count, n - 1), Enter(n - 1, key), key, c);
      AtMostAppend(At(s, key, count, 0), Entering(key, n - 1), [Enter(n - 1, key)], key, c);
      ExecAppend(At(s, key, count, 0), Entering(key, n - 1), [Enter(n - 1, key)]);
    }
  }

  lemma {:induction false} FailingRuns(s: State, key: string, count: nat, n: nat, c: nat)
    requires n <= c
    ensures Exec(At(s, key, count, n), Failing(n)) == At(s, key, count + n, 0)
    ensures AtMost(At(s, key, count, n), Failing(n), key, c)
    decreases n
  {
    hide Next, Flying, At;
    BurstFlying(s, key, count, n);
    if n > 0 {
      FailStep(s, key, count, n - 1);
      BurstFlying(s, key, count + 1, n - 1);
      AtMostOne(At(s, key, count, n), Fail(n - 1), key, c);
      FailingRuns(s, key, count + 1, n - 1, c);
      AtMostAppend(At(s, key, count, n), [Fail(n - 1)], Failing(n - 1), key, c);
      ExecAppend(At(s, key, count, n), [Fail(n - 1)], Failing(n - 1));
    }
  }

  /** The bound is exact: for every `c` some run with at most `c` in flight reaches it. */
  lemma BoundIsReached(s: State, key: string, c: nat) returns (steps: seq<Step>)
    requires Initial(s) && c > 0
    ensures AtMost(s, steps, key, c)
    ensures Count(Exec(s, steps), key) == 9 + c
  {
    var n := MAX_FAILS - 1;
    assert s.flying == Burst(key, 0);
    assert s == At(s, key, 0, 0);
    SerialRuns(s, key, n, c);
    EnteringRuns(s, key, n, c, c);
    FailingRuns(s, key, n, c, c);
    steps := Serial(key, n) + Entering(key, c) + Failing(c);
    AtMostAppend(s, Serial(key, n), Entering(key, c), key, c);
    ExecAppend(s, Serial(key, n), Entering(key, c));
    AtMostAppend(s, Serial(key, n) + Entering(key, c), Failing(c), key, c);
    ExecAppend(s, Serial(key, n) + Entering(key, c), Failing(c));
  }

  // ---------- Attempts one at a time ----------

  /** A wrong password tried at a time by a client. */
  datatype Try = Try(key: string, at: int)

  function After(tries: seq<Try>): Table {
    if tries == [] then map[]
    else
      var t, last := After(tries[..|tries| - 1]), tries[|tries| - 1];
      if Allowed(t, last.key, last.at) then Recorded(t, last.key, last.at) else t
  }

  /** The times at which a password of this client was compared, and found wrong. */
  function Compared(tries: seq<Try>, key: string): seq<int> {
    if tries == [] then []
    else
      var init, last := tries[..|tries| - 1], tries[|tries| - 1];
      if last.key == key && Allowed(After(init), key, last.at) then Compared(init, key) + [last.at]
      else Compared(init, key)
  }

  predicate InOrder(tries: seq<Try>) {
    forall i, j :: 0 <= i < j < |tries| ==> tries[i].at <= tries[j].at
  }

  predicate Ascending(times: seq<int>) {
    forall i, j :: 0 <= i <= j < |times| ==> times[i] <= times[j]
  }

  /** Any twenty consecutive times span more than a minute. */
  predicate Spread(times: seq<int>) {
    forall i :: 0 <= i && i + 2 * MAX_FAILS - 1 < |times| ==> times[i + 2 * MAX_FAILS - 1] > times[i] + MINUTE
  }

  /** The window before the one that begins at index `k`. */
  ghost predicate NewWindow(times: seq<int>, k: nat) {
    k < |times| && (k > 0 ==> exists p :: 0 <= p < k <= p + MAX_FAILS && times[k] > times[p] + MINUTE)
  }

  /** The table entry describes the tail of the times compared. */
  ghost predicate Describes(t: Table, key: string, times: seq<int>) {
    if key !in t then times == []
    else
      var n := t[key].count;
      0 < n <= MAX_FAILS && n <= |times| && t[key].windowStart == times[|times| - n] && NewWindow(times, |times| - n)
  }

  lemma WindowKept(times: seq<int>, k: nat, at: int)
    requires NewWindow(times, k)
    ensures NewWindow(times + [at], k)
  {
    var l := times + [at];
    assert l[k] == times[k];
    if k > 0 {
      var p :| 0 <= p < k <= p + MAX_FAILS && times[k] > times[p] + MINUTE;
      assert l[p] == times[p];
    }
  }

  lemma OneMore(t: Table, key: string, times: seq<int>, at: int)
    requires Describes(t, key, times) && Allowed(t, key, at)
    requires Ascending(times) && Spread(times)
    requires forall i :: 0 <= i < |times| ==> times[i] <= at
    ensures Describes(Recorded(t, key, at), key, times + [at]) && Spread(times + [at])
  {
    var l, n := times + [at], |times|;
    if key !in t {
      assert l == [at];
    } else {
      var k := n - t[key].count;
      if Live(t, key, at) {
        WindowKept(times, k, at);
        if n >= 2 * MAX_FAILS - 1 {
          var p :| 0 <= p < k <= p + MAX_FAILS && times[k] > times[p] + MINUTE;
          assert times[n - (2 * MAX_FAILS - 1)] <= times[p];
        }
      } else {
        assert l[n] == at && l[k] == times[k] && at > times[k] + MINUTE;
        assert 0 <= k < n <= k + MAX_FAILS;
        assert NewWindow(l, n);
        if n >= 2 * MAX_FAILS - 1 {
          assert times[n - (2 * MAX_FAILS - 1)] <= times[k];
        }
      }
    }
  }

  lemma OtherKey(t: Table, key: string, other: string, at: int, times: seq<int>)
    requires Describes(t, key, times) && key != other
    ensures Describes(Recorded(t, other, at), key, times)
  {
    hide NewWindow;
  }

  lemma {:induction false} ComparedBefore(tries: seq<Try>, key: string, at: int)
    requires InOrder(tries) && (forall i :: 0 <= i < |tries| ==> tries[i].at <= at)
    ensures Ascending(Compared(tries, key))
    ensures forall i :: 0 <= i < |Compared(tries, key)| ==> Compared(tries, key)[i] <= at
  {
    hide Allowed, After;
    if tries != [] {
      ComparedBefore(tries[..|tries| - 1], key, tries[|tries| - 1].at);
    }
  }

  lemma {:induction false} WindowsHold(tries: seq<Try>, key: string)
    requires InOrder(tries)
    ensures Describes(After(tries), key, Compared(tries, key)) && Spread(Compared(tries, key))
  {
    hide Allowed, Recorded, Describes, Spread;
    if tries == [] {
      NothingYet(key);
    } else {
      var init, last := tries[..|tries| - 1], tries[|tries| - 1];
      WindowsHold(init, key);
      if Allowed(After(init), last.key, last.at) {
        if last.key == key {
          ComparedBefore(init, key, last.at);
          OneMore(After(init), key, Compared(init, key), last.at);
        } else {
          OtherKey(After(init), key, last.key, last.at, Compared(init, key));
        }
      }
    }
  }

  lemma NothingYet(key: string)
    ensures Describes(map[], key, []) && Spread([])
  {
  }

  /** Tried one at a time with no success in between, a client never has twenty passwords
      compared within a minute, whatever the other clients do. */
  lemma NineteenPerMinute(tries: seq<Try>, key: string, i: nat, j: nat)
    requires InOrder(tries)
    requires i <= j < |Compared(tries, key)| && Compared(tries, key)[j] - Compared(tries, key)[i] <= 60 * 1_000_000_000
    ensures j - i + 1 <= 19
  {
    WindowsHold(tries, key);
    if tries != [] {
      ComparedBefore(tries, key, tries[|tries| - 1].at);
    }
  }

  // ---------- Nineteen are possible ----------

  function Repeat(key: string, at: int, n: nat): seq<Try> {
    if n == 0 then [] else Repeat(key, at, n - 1) + [Try(key, at)]
  }

  function Times(at: int, n: nat): (r: seq<int>)
    ensures |r| == n
  {
    if n == 0 then [] else Times(at, n - 1) + [at]
  }

  /** Tries made while the window has room are all compared. */
  lemma {:induction false} RepeatRuns(tries: seq<Try>, key: string, at: int, n: nat)
    requires Live(After(tries), key, at) && After(tries)[key].count + n <= MAX_FAILS
    ensures After(tries + Repeat(key, at, n))
      == After(tries)[key := Fails(After(tries)[key].count + n, After(tries)[key].windowStart)]
    ensures Compared(tries + Repeat(key, at, n), key) == Compared(tries, key) + Times(at, n)
  {
    hide After, Compared;
    if n == 0 {
      assert tries + Repeat(key, at, n) == tries;
      assert Times(at, n) == [];
    } else {
      RepeatRuns(tries, key, at, n - 1);
      var init := tries + Repeat(key, at, n - 1);
      assert tries + Repeat(key, at, n) == init + [Try(key, at)];
      OneMoreRun(init, key, at);
    }
  }

  lemma OneTry(tries: seq<Try>, t: Try, key: string)
    ensures After(tries + [t]) ==
      if Allowed(After(tries), t.key, t.at) then Recorded(After(tries), t.key, t.at) else After(tries)
    ensures Compared(tries + [t], key) ==
      if t.key == key && Allowed(After(tries), key, t.at) then Compared(tries, key) + [t.at] else Compared(tries, key)
  {
    hide Allowed, Recorded;
    assert (tries + [t])[..|tries|] == tries;
  }

  lemma OneMoreRun(tries: seq<Try>, key: string, at: int)
    requires Live(After(tries), key, at) && After(tries)[key].count < MAX_FAILS
    ensures After(tries + [Try(key, at)])
      == After(tries)[key := Fails(After(tries)[key].count + 1, After(tries)[key].windowStart)]
    ensures Compared(tries + [Try(key, at)], key) == Compared(tries, key) + [at]
  {
    hide After, Compared;
    OneTry(tries, Try(key, at), key);
  }

  lemma OneRun(tries: seq<Try>, key: string, at: int)
    requires !Live(After(tries), key, at)
    ensures After(tries + [Try(key, at)]) == After(tries)[key := Fails(1, at)]
    ensures Compared(tries + [Try(key, at)], key) == Compared(tries, key) + [at]
  {
    hide After, Compared;
    OneTry(tries, Try(key, at), key);
  }

  /** Nine tries at the end of one window and ten at the start of the next: nineteen
      passwords compared within a nanosecond. */
  lemma NineteenAreReached(key: string) returns (tries: seq<Try>)
    ensures InOrder(tries)
    ensures |Compared(tries, key)| == 20
    ensures Compared(tries, key)[19] - Compared(tries, key)[1] == 1
  {
    hide After, Compared;
    NothingCompared(key);
    OneRun([], key, 0);
    var a := [] + [Try(key, 0)];
    RepeatRuns(a, key, MINUTE, MAX_FAILS - 1);
    var b := a + Repeat(key, MINUTE, MAX_FAILS - 1);
    OneRun(b, key, MINUTE + 1);
    var c := b + [Try(key, MINUTE + 1)];
    RepeatRuns(c, key, MINUTE + 1, MAX_FAILS - 1);
    tries := c + Repeat(key, MINUTE + 1, MAX_FAILS - 1);
    RepeatTries(key, MINUTE, MAX_FAILS - 1);
    RepeatTries(key, MINUTE + 1, MAX_FAILS - 1);
    TimesAt(MINUTE, MAX_FAILS - 1);
    TimesAt(MINUTE + 1, MAX_FAILS - 1);
  }

  lemma NothingCompared(key: string)
    ensures Compared([], key) == [] && After([]) == map[]
  {
  }

  lemma {:induction false} RepeatTries(key: string, at: int, n: nat)
    ensures |Repeat(key, at, n)| == n && forall i :: 0 <= i < n ==> Repeat(key, at, n)[i] == Try(key, at)
  {
    if n > 0 {
      RepeatTries(key, at, n - 1);
    }
  }

  lemma {:induction false} TimesAt(at: int, n: nat)
    ensures forall i :: 0 <= i < n ==> Times(at, n)[i] == at
  {
    if n > 0 {
      TimesAt(at, n - 1);
    }
  }
}
