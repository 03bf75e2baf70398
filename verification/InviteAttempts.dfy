/** When an accept changes the password or burns the token without completing, over every
    run, and the runs that show it (internal/httpapi/invite_handlers.go:167-236). */
module InviteAttempts {
  import opened Replies
  import opened Text
  import opened Invites
  import opened InviteSafety

  // ---------- Between the look and the redemption ----------

  /** After event `i` and before event `j` the invite was consumed, or its pair re-invited. */
  ghost predicate Disturbed(log: seq<Event>, i: nat, j: nat, id: string, org: string, user: string) {
    exists k :: i < k < j && k < |log| && Disturbs(log[k], id, org, user)
  }

  predicate Disturbs(e: Event, id: string, org: string, user: string) {
    (e.Consumed? && e.id == id) || e == Superseded(org, user)
  }

  lemma DisturbedIff(log: seq<Event>, i: nat, j: nat, id: string, org: string, user: string)
    requires i < j <= |log| && Created(id) in log[..i] && !log[i].Consumed? && !log[i].Superseded?
    requires !ConsumedIn(log[..i], id) && !SupersededIn(log[..i], id, org, user)
    ensures Disturbed(log, i, j, id, org, user) <==> ConsumedIn(log[..j], id) || SupersededIn(log[..j], id, org, user)
  {
    if Disturbed(log, i, j, id, org, user) {
      var k :| i < k < j && k < |log| && Disturbs(log[k], id, org, user);
      assert log[..j][k] == log[k];
      assert Created(id) in log[..j][..k] by {
        var c :| 0 <= c < i && log[..i][c] == Created(id);
        assert log[..j][..k][c] == Created(id);
      }
    }
    if ConsumedIn(log[..j], id) {
      var k :| 0 <= k < j && log[..j][k].Consumed? && log[..j][k].id == id;
      AfterLook(log, i, k, j, id, org, user);
    }
    if SupersededIn(log[..j], id, org, user) {
      var k :| 0 <= k < j && log[..j][k] == Superseded(org, user) && Created(id) in log[..j][..k];
      assert log[..j][..k] == log[..k];
      AfterLook(log, i, k, j, id, org, user);
    }
  }

  lemma BeforeLook(log: seq<Event>, i: nat, k: nat, id: string, org: string, user: string)
    requires k < i <= |log|
    requires Disturbs(log[k], id, org, user) && (log[k].Superseded? ==> Created(id) in log[..k])
    ensures ConsumedIn(log[..i], id) || SupersededIn(log[..i], id, org, user)
  {
    assert log[..i][k] == log[k] && log[..i][..k] == log[..k];
  }

  lemma AfterLook(log: seq<Event>, i: nat, k: nat, j: nat, id: string, org: string, user: string)
    requires i < j <= |log| && k < j && !log[i].Consumed? && !log[i].Superseded?
    requires !ConsumedIn(log[..i], id) && !SupersededIn(log[..i], id, org, user)
    requires Disturbs(log[k], id, org, user) && (log[k].Superseded? ==> Created(id) in log[..k])
    ensures Disturbed(log, i, j, id, org, user)
  {
    hide ConsumedIn, SupersededIn;
    if k < i {
      BeforeLook(log, i, k, id, org, user);
    }
  }

  /** In every run, an accept that reached its redemption had looked the invite up and set the
      password, and the redemption fails exactly when between the two the invite was consumed
      or its pair re-invited, or the invite had expired by then. */
  lemma RedemptionMissesIff(s: State, steps: seq<Step>, i: nat, j: nat, pid: string, id: string)
    requires Initial(s) && i < j < |Exec(s, steps).log|
    requires Exec(s, steps).log[i] == Looked(pid, id)
    requires var e := Exec(s, steps).log[j]; (e.Consumed? || e.Missed?) && e.pid == pid && e.id == id
    ensures var t := Exec(s, steps); var e := t.log[j];
      && id in t.invites && PasswordSet(pid, t.invites[id].user) in t.log[..j]
      && (e.Missed? <==>
            e.at >= t.invites[id].expires || Disturbed(t.log, i, j, id, t.invites[id].org, t.invites[id].user))
  {
    hide Exec, ConsumedIn, SupersededIn, Disturbed;
    RunKeepsInv(s, steps);
    var t := Exec(s, steps);
    assert EventOk(t.log[..j], t.invites, t.log[j]);
    assert EventOk(t.log[..i], t.invites, t.log[i]);
    DisturbedIff(t.log, i, j, id, t.invites[id].org, t.invites[id].user);
  }

  /** Every redemption, successful or not, was preceded by its own look. */
  lemma RedemptionWasLookedUp(s: State, steps: seq<Step>, j: nat) returns (i: nat)
    requires Initial(s) && j < |Exec(s, steps).log|
    requires Exec(s, steps).log[j].Consumed? || Exec(s, steps).log[j].Missed?
    ensures i < j && Exec(s, steps).log[i] == Looked(Exec(s, steps).log[j].pid, Exec(s, steps).log[j].id)
  {
    hide Exec, ConsumedIn, SupersededIn;
    RunKeepsInv(s, steps);
    var t := Exec(s, steps);
    assert EventOk(t.log[..j], t.invites, t.log[j]);
    i :| 0 <= i < j && t.log[..j][i] == Looked(t.log[j].pid, t.log[j].id);
  }

  // ---------- What becomes of an accept ----------

  /** This accept set a password; consumed its invite; missed it; wrote the membership; wrote
      it without an answer. */
  predicate Changed(log: seq<Event>, pid: string) {
    exists e :: e in log && e.PasswordSet? && e.pid == pid
  }

  predicate Burnt(log: seq<Event>, pid: string) {
    exists e :: e in log && e.Consumed? && e.pid == pid
  }

  predicate Missing(log: seq<Event>, pid: string) {
    exists e :: e in log && e.Missed? && e.pid == pid
  }

  predicate Joined(log: seq<Event>, pid: string) {
    exists e :: e in log && e.Granted? && e.via.Some? && e.pid == pid
  }

  predicate Unanswered(log: seq<Event>, pid: string) {
    exists e :: e in log && e.Granted? && e.via.Some? && e.pid == pid && !e.answered
  }

  datatype Flags = Flags(changed: bool, burnt: bool, missed: bool, joined: bool, unanswered: bool)

  const NOTHING := Flags(false, false, false, false, false)

  function FlagsOf(log: seq<Event>, pid: string): Flags {
    Flags(Changed(log, pid), Burnt(log, pid), Missing(log, pid), Joined(log, pid), Unanswered(log, pid))
  }

  /** What one event of the process adds. */
  function Add(f: Flags, v: Event): Flags {
    f.(changed := f.changed || v.PasswordSet?, burnt := f.burnt || v.Consumed?, missed := f.missed || v.Missed?,
       joined := f.joined || (v.Granted? && v.via.Some?),
       unanswered := f.unanswered || (v.Granted? && v.via.Some? && !v.answered))
  }

  /** What the stage of a process says about its events so far. */
  predicate Fate(p: Option<Proc>, f: Flags) {
    match p
    case None => f == NOTHING
    case Some(PasswordDone(_, _)) => f == NOTHING.(changed := true)
    case Some(Redeemed(_, _)) => f == NOTHING.(changed := true, burnt := true)
    case Some(Done(Ok)) => f.changed == f.burnt == f.joined && !f.missed && !f.unanswered
    case Some(Done(Conflict)) => f == NOTHING.(changed := f.changed, missed := f.changed)
    case Some(Done(Failed)) =>
      && f.joined == f.unanswered && (f.joined ==> f.burnt)
      && !(f.burnt && f.missed) && (f.burnt || f.missed ==> f.changed)
    case Some(_) => f == NOTHING
  }

  predicate FateOf(s: State, pid: string) {
    Fate(if pid in s.procs then Some(s.procs[pid]) else None, FlagsOf(s.log, pid))
  }

  ghost predicate Fates(s: State) {
    forall pid :: FateOf(s, pid)
  }

  predicate Mine(e: Event, pid: string) {
    e.PasswordSet? || e.Consumed? || e.Missed? || e.Granted? ==> e.pid == pid
  }

  lemma EventsOf(log: seq<Event>, e: Event, pid: string)
    ensures Mine(e, pid) ==> FlagsOf(log + [e], pid) == Add(FlagsOf(log, pid), e)
    ensures forall q :: Mine(e, pid) && q != pid ==> FlagsOf(log + [e], q) == FlagsOf(log, q)
  {
    assert forall x :: x in log + [e] <==> x in log || x == e;
    assert e in log + [e];
  }

  predicate FateWith(e: Option<Event>, pid: string, p: Proc, f: Flags) {
    if e.None? then Fate(Some(p), f) else Mine(e.value, pid) && Fate(Some(p), Add(f, e.value))
  }

  predicate Accepting(cmd: Command) {
    cmd.Look? || cmd.SetPassword? || cmd.Redeem? || cmd.Join?
  }

  /** The stage and the event of one command fit together. */
  lemma StageFate(s: State, pid: string, cmd: Command, f: Flags)
    requires Act(s, pid, cmd).Some?
    requires Fate(if pid in s.procs then Some(s.procs[pid]) else None, f)
    ensures var e := Act(s, pid, cmd).value; FateWith(e.event, pid, e.proc, f)
  {
    hide Act, Fate, FateWith;
    if Accepting(cmd) {
      AcceptFate(s, pid, cmd, f);
    } else {
      OtherFate(s, pid, cmd, f);
    }
  }

  lemma AcceptFate(s: State, pid: string, cmd: Command, f: Flags)
    requires Act(s, pid, cmd).Some? && Accepting(cmd)
    requires Fate(if pid in s.procs then Some(s.procs[pid]) else None, f)
    ensures var e := Act(s, pid, cmd).value; FateWith(e.event, pid, e.proc, f)
  {
    hide Burn, Consume, Consumable, DoStart, DoRequire, DoCheckOwner, DoGrant, DoCheckMember, DoExpire, DoInsert;
  }

  lemma OtherFate(s: State, pid: string, cmd: Command, f: Flags)
    requires Act(s, pid, cmd).Some? && !Accepting(cmd)
    requires Fate(if pid in s.procs then Some(s.procs[pid]) else None, f)
    ensures var e := Act(s, pid, cmd).value; FateWith(e.event, pid, e.proc, f)
  {
    hide Burn, MayAct, MayGrant, DoLook, DoSetPassword, DoRedeem, DoJoin;
  }

  lemma CommandFate(s: State, pid: string, cmd: Command)
    requires Act(s, pid, cmd).Some? && FateOf(s, pid)
    ensures var e := Act(s, pid, cmd).value; FateOf(Apply(s, pid, e), pid)
    ensures var e := Act(s, pid, cmd).value; e.event.Some? ==> Mine(e.event.value, pid)
  {
    hide FlagsOf, Act, Fate, Add;
    var e := Act(s, pid, cmd).value;
    StageFate(s, pid, cmd, FlagsOf(s.log, pid));
    if e.event.Some? {
      EventsOf(s.log, e.event.value, pid);
    }
  }

  lemma NextKeepsFates(s: State, step: Step)
    requires Fates(s)
    ensures Fates(Next(s, step))
  {
    hide FlagsOf, Fate, Act;
    var t := Next(s, step);
    forall q
      ensures FateOf(t, q)
    {
      assert FateOf(s, q);
      if step.Do? && Act(s, step.pid, step.cmd).Some? {
        var e := Act(s, step.pid, step.cmd).value;
        assert FateOf(s, step.pid);
        CommandFate(s, step.pid, step.cmd);
        if q != step.pid && e.event.Some? {
          EventsOf(s.log, e.event.value, step.pid);
        }
      }
    }
  }

  lemma {:induction false} RunKeepsFates(s: State, steps: seq<Step>)
    requires Initial(s)
    ensures Fates(Exec(s, steps))
  {
    hide Next, FateOf;
    if steps == [] {
      forall pid
        ensures FateOf(Exec(s, steps), pid)
      {
        NoFate(s, pid);
      }
    } else {
      RunKeepsFates(s, steps[..|steps| - 1]);
      NextKeepsFates(Exec(s, steps[..|steps| - 1]), steps[|steps| - 1]);
    }
  }

  lemma NoFate(s: State, pid: string)
    requires Initial(s)
    ensures FateOf(s, pid)
  {
  }

  /** In every run, an accept that changed the password and came to redeem, whatever became of
      it afterwards, fails to consume the invite exactly when, between its look at event `i` and
      its redemption at event `j`, the invite was consumed or its pair re-invited, or the invite
      had expired by then. */
  lemma FailsToConsumeIff(s: State, steps: seq<Step>, pid: string) returns (i: nat, j: nat, id: string)
    requires Initial(s) && (Burnt(Exec(s, steps).log, pid) || Missing(Exec(s, steps).log, pid))
    ensures var t := Exec(s, steps);
      && Changed(t.log, pid)
      && i < j < |t.log| && t.log[i] == Looked(pid, id) && id in t.invites
      && (t.log[j].Consumed? || t.log[j].Missed?) && t.log[j].pid == pid && t.log[j].id == id
      && (!Burnt(t.log, pid) <==>
            t.log[j].at >= t.invites[id].expires ||
            Disturbed(t.log, i, j, id, t.invites[id].org, t.invites[id].user))
  {
    hide Exec, Changed, Joined, Disturbed;
    RunKeepsFates(s, steps);
    var t := Exec(s, steps);
    assert FateOf(t, pid);
    j :| j < |t.log| && (t.log[j].Consumed? || t.log[j].Missed?) && t.log[j].pid == pid;
    i := RedemptionWasLookedUp(s, steps, j);
    id := t.log[j].id;
    RedemptionMissesIff(s, steps, i, j, pid, id);
    assert t.log[j] in t.log;
  }

  /** In every run, an accept that changed the password is about to redeem, or has consumed the
      invite, or has missed it, never both, or failed before its redemption took place. */
  lemma ChangedFate(s: State, steps: seq<Step>, pid: string)
    requires Initial(s) && Changed(Exec(s, steps).log, pid)
    ensures var t := Exec(s, steps);
      && pid in t.procs && !(Burnt(t.log, pid) && Missing(t.log, pid))
      && (!Burnt(t.log, pid) && !Missing(t.log, pid) ==> t.procs[pid].PasswordDone? || t.procs[pid] == Done(Failed))
      && (t.procs[pid] == Done(Conflict) ==> Missing(t.log, pid))
  {
    hide Exec, Changed, Burnt, Missing, Joined, Unanswered;
    RunKeepsFates(s, steps);
    assert FateOf(Exec(s, steps), pid);
  }

  /** In every run, a token burnt by an accept came with its membership exactly when the accept
      reported success or the answer to the membership write was lost; without it the
      membership is still to come or the request failed. Rejected and conflicting attempts burn
      nothing. */
  lemma BurntWithoutMembershipIff(s: State, steps: seq<Step>, pid: string)
    requires Initial(s)
    ensures var t := Exec(s, steps);
      && (Burnt(t.log, pid) ==> pid in t.procs && (t.procs[pid].Redeemed? || t.procs[pid] in {Done(Ok), Done(Failed)}))
      && (Burnt(t.log, pid) ==> (Joined(t.log, pid) <==> t.procs[pid] == Done(Ok) || Unanswered(t.log, pid)))
      && (Unanswered(t.log, pid) ==> pid in t.procs && t.procs[pid] == Done(Failed))
      && (pid in t.procs && t.procs[pid].Done? && t.procs[pid].outcome !in {Ok, Failed} ==> !Burnt(t.log, pid))
  {
    hide Exec, Changed, Burnt, Missing, Joined, Unanswered;
    RunKeepsFates(s, steps);
    assert FateOf(Exec(s, steps), pid);
  }

  /** The step with which an attempt fails although the token is burnt: any failing step after
      the consumption, or a consumption whose own answer is lost. */
  lemma FailureBurnsTokenIff(s: State, steps: seq<Step>, pid: string, cmd: Command)
    requires Initial(s) && Act(Exec(s, steps), pid, cmd).Some?
    requires var u := Next(Exec(s, steps), Do(pid, cmd)); u.procs[pid] == Done(Failed)
    ensures var t := Exec(s, steps); var u := Next(t, Do(pid, cmd));
      && (Burnt(u.log, pid) <==>
            (pid in t.procs && t.procs[pid].Redeemed?) ||
            (cmd.Redeem? && cmd.reply == Lost && Consumable(t.invites, t.procs[pid].id, t.now)))
      && (Joined(u.log, pid) <==> cmd.Join? && cmd.reply == Lost)
  {
    hide Exec, Changed, Burnt, Missing, Joined, Unanswered, Burn, Consume, Consumable;
    hide DoStart, DoRequire, DoCheckOwner, DoCheckMember, DoExpire, DoInsert, DoLook;
    var t := Exec(s, steps);
    RunKeepsFates(s, steps);
    assert FateOf(t, pid);
    var e := Act(t, pid, cmd).value;
    StageFate(t, pid, cmd, FlagsOf(t.log, pid));
    if e.event.Some? {
      EventsOf(t.log, e.event.value, pid);
    }
  }

  // ---------- The runs that show it ----------

  /** A create up to the point where it burns and inserts. */
  function Ask(pid: string, r: Request): seq<Step> {
    [Do(pid, Start(r)), Do(pid, Require(true)), Do(pid, CheckOwner(true)), Do(pid, CheckMember(true))]
  }

  /** A platform admin's invite of someone without a membership. */
  predicate Askable(s: State, pid: string, r: Request) {
    && pid !in s.procs && r.kind == ByInvite && r.actor in s.admins
    && (r.org, r.user) !in s.roles
  }

  lemma AskRuns(s: State, pid: string, r: Request)
    requires Askable(s, pid, r)
    ensures Exec(s, Ask(pid, r)) == s.(procs := s.procs[pid := Unaffiliated(r)], log := s.log + [SawAdmin(r.actor)])
  {
    hide Next, Exec;
    Exec4(s, Do(pid, Start(r)), Do(pid, Require(true)), Do(pid, CheckOwner(true)), Do(pid, CheckMember(true)));
    AdminAdmitted(s, pid, r);
    AdminCleared(s.(procs := s.procs[pid := Admitted(r, true)], log := s.log + [SawAdmin(r.actor)]), pid, r);
  }

  lemma AdminAdmitted(s: State, pid: string, r: Request)
    requires Askable(s, pid, r)
    ensures Next(Next(s, Do(pid, Start(r))), Do(pid, Require(true))) ==
      s.(procs := s.procs[pid := Admitted(r, true)], log := s.log + [SawAdmin(r.actor)])
  {
    hide Next;
    StartRuns(s, pid, r);
    var s1 := s.(procs := s.procs[pid := Started(r, true)], log := s.log + [SawAdmin(r.actor)]);
    RequireRuns(s1, pid, r, true, true);
    assert s1.procs[pid := Admitted(r, true)] == s.procs[pid := Admitted(r, true)];
  }

  lemma AdminCleared(s: State, pid: string, r: Request)
    requires pid in s.procs && s.procs[pid] == Admitted(r, true) && r.kind == ByInvite && (r.org, r.user) !in s.roles
    ensures Next(Next(s, Do(pid, CheckOwner(true))), Do(pid, CheckMember(true)))
      == s.(procs := s.procs[pid := Unaffiliated(r)])
  {
    hide Next;
    CheckOwnerRuns(s, pid, r, true, true);
    var s1 := s.(procs := s.procs[pid := Cleared(r)]);
    CheckMemberRuns(s1, pid, r, true);
    assert s1.procs[pid := Unaffiliated(r)] == s.procs[pid := Unaffiliated(r)];
  }

  predicate Pending(s: State, id: string, org: string, user: string) {
    id in s.invites && s.invites[id].org == org && s.invites[id].user == user && s.invites[id].accepted.None?
  }

  /** A create that runs burn and insert without another step between leaves exactly its own
      link pending for the pair. */
  lemma UninterruptedCreateSupersedes(s: State, pid: string, r: Request, id: string, ttl: nat)
    requires pid in s.procs && s.procs[pid] == Unaffiliated(r) && id !in s.invites
    ensures var t := Exec(s, [Do(pid, Expire(Applied)), Do(pid, Insert(id, ttl, Applied))]);
      forall x :: Pending(t, x, r.org, r.user) <==> x == id
  {
    hide Next, Exec;
    Exec2(s, Do(pid, Expire(Applied)), Do(pid, Insert(id, ttl, Applied)));
    ExpireRuns(s, pid, r, Applied);
    BurnKeys(s.invites, r.org, r.user, s.now);
    InsertRuns(Apply(s, pid, DoExpire(s, r, Applied)), pid, r, id, ttl, Applied);
  }

  function BothAsk(p: string, q: string, r: Request, a: string, b: string, ttl: nat): seq<Step> {
    Ask(p, r) + Ask(q, r) +
    [Do(p, Expire(Applied)), Do(q, Expire(Applied)), Do(p, Insert(a, ttl, Applied)), Do(q, Insert(b, ttl, Applied))]
  }

  /** From an initial state, two interleaved creates for one pair leave two pending links, so a
      re-invite does not always supersede the older one. */
  lemma InterleavedCreatesLeaveTwo(s: State, p: string, q: string, r: Request, a: string, b: string, ttl: nat)
    requires Initial(s) && p != q && a != b && Askable(s, p, r)
    ensures var t := Exec(s, BothAsk(p, q, r, a, b, ttl));
      Pending(t, a, r.org, r.user) && Pending(t, b, r.org, r.user)
  {
    hide Next, Exec;
    var rest :=
      [Do(p, Expire(Applied)), Do(q, Expire(Applied)), Do(p, Insert(a, ttl, Applied)), Do(q, Insert(b, ttl, Applied))];
    ExecAppend(s, Ask(p, r) + Ask(q, r), rest);
    ExecAppend(s, Ask(p, r), Ask(q, r));
    AskRuns(s, p, r);
    AskRuns(Exec(s, Ask(p, r)), q, r);
    TwoInserts(Exec(s, Ask(p, r) + Ask(q, r)), p, q, r, a, b, ttl);
  }

  lemma TwoInserts(s: State, p: string, q: string, r: Request, a: string, b: string, ttl: nat)
    requires p != q && a != b && s.invites == map[]
    requires p in s.procs && q in s.procs && s.procs[p] == Unaffiliated(r) && s.procs[q] == Unaffiliated(r)
    ensures var t := Exec(s, [Do(p, Expire(Applied)), Do(q, Expire(Applied)), Do(p, Insert(a, ttl, Applied)),
        Do(q, Insert(b, ttl, Applied))]);
      Pending(t, a, r.org, r.user) && Pending(t, b, r.org, r.user)
  {
    hide Next, Exec;
    Exec4(s, Do(p, Expire(Applied)), Do(q, Expire(Applied)), Do(p, Insert(a, ttl, Applied)),
      Do(q, Insert(b, ttl, Applied)));
    ExpireRuns(s, p, r, Applied);
    var s1 := Next(s, Do(p, Expire(Applied)));
    ExpireRuns(s1, q, r, Applied);
    var s2 := Next(s1, Do(q, Expire(Applied)));
    InsertRuns(s2, p, r, a, ttl, Applied);
    InsertRuns(Next(s2, Do(p, Insert(a, ttl, Applied))), q, r, b, ttl, Applied);
  }

  /** One invite, and two accepts that both find it before either redeems it. */
  function Race(c: string, r: Request, id: string, ttl: nat, p: string, q: string, wins: string,
      loses: string): seq<Step>
  {
    Ask(c, r) + [Do(c, Expire(Applied)), Do(c, Insert(id, ttl, Applied))] +
    [Do(p, Look(id, wins, true)), Do(q, Look(id, loses, true))] +
    [Do(p, SetPassword(Applied)), Do(q, SetPassword(Applied)), Do(p, Redeem(Applied)), Do(q, Redeem(Applied))]
  }

  /** From an initial state, an accept that loses the race for an invite has replaced the
      password: the winner consumes the invite, the loser's password stays in force. */
  lemma LosingAcceptSetsPassword(s: State, c: string, r: Request, id: string, ttl: nat,
      p: string, q: string, wins: string, loses: string)
    requires Initial(s) && Askable(s, c, r) && c != p && c != q && p != q
    requires ttl > 0 && |wins| >= 8 && |loses| >= 8
    ensures var t := Exec(s, Race(c, r, id, ttl, p, q, wins, loses));
      && id in t.invites && p in t.procs && t.procs[p] == Redeemed(id, t.invites[id])
      && q in t.procs && t.procs[q] == Done(Conflict)
      && r.user in t.passwords && t.passwords[r.user] == loses
  {
    hide Next, Exec;
    var create := [Do(c, Expire(Applied)), Do(c, Insert(id, ttl, Applied))];
    var looks := [Do(p, Look(id, wins, true)), Do(q, Look(id, loses, true))];
    var race :=
      [Do(p, SetPassword(Applied)), Do(q, SetPassword(Applied)), Do(p, Redeem(Applied)), Do(q, Redeem(Applied))];
    ExecAppend(s, Ask(c, r) + create + looks, race);
    ExecAppend(s, Ask(c, r) + create, looks);
    ExecAppend(s, Ask(c, r), create);
    AskRuns(s, c, r);
    var s1 := Exec(s, Ask(c, r));
    CreateRuns(s1, c, r, id, ttl);
    var s2, inv := Exec(s1, create), Invite(r.org, r.user, r.role, r.actor, s.now + ttl, None);
    LooksRun(s2, p, q, id, inv, wins, loses);
    RaceRuns(Exec(s2, looks), p, q, id, inv, wins, loses);
  }

  lemma CreateRuns(s: State, c: string, r: Request, id: string, ttl: nat)
    requires c in s.procs && s.procs[c] == Unaffiliated(r) && s.invites == map[]
    ensures var t := Exec(s, [Do(c, Expire(Applied)), Do(c, Insert(id, ttl, Applied))]);
      && t.invites == map[id := Invite(r.org, r.user, r.role, r.actor, s.now + ttl, None)]
      && t.now == s.now && t.procs == s.procs[c := Done(Ok)]
  {
    hide Next, Exec;
    Exec2(s, Do(c, Expire(Applied)), Do(c, Insert(id, ttl, Applied)));
    ExpireRuns(s, c, r, Applied);
    assert Burn(s.invites, r.org, r.user, s.now) == map[];
    InsertRuns(Apply(s, c, DoExpire(s, r, Applied)), c, r, id, ttl, Applied);
  }

  lemma LooksRun(s: State, p: string, q: string, id: string, inv: Invite, wins: string, loses: string)
    requires p != q && p !in s.procs && q !in s.procs
    requires Acceptable(s.invites, s.now, id, wins) && Acceptable(s.invites, s.now, id, loses) && s.invites[id] == inv
    ensures var t := Exec(s, [Do(p, Look(id, wins, true)), Do(q, Look(id, loses, true))]);
      && t.invites == s.invites && t.now == s.now
      && p in t.procs && q in t.procs && t.procs[p] == Found(id, inv, wins) && t.procs[q] == Found(id, inv, loses)
  {
    hide Next, Exec;
    Exec2(s, Do(p, Look(id, wins, true)), Do(q, Look(id, loses, true)));
    LookRuns(s, p, id, wins, true);
    LookRuns(Next(s, Do(p, Look(id, wins, true))), q, id, loses, true);
  }

  lemma RaceRuns(s: State, p: string, q: string, id: string, inv: Invite, wins: string, loses: string)
    requires p != q && p in s.procs && q in s.procs
    requires s.procs[p] == Found(id, inv, wins) && s.procs[q] == Found(id, inv, loses)
    requires Consumable(s.invites, id, s.now)
    ensures var t := Exec(s,
        [Do(p, SetPassword(Applied)), Do(q, SetPassword(Applied)), Do(p, Redeem(Applied)), Do(q, Redeem(Applied))]);
      && id in t.invites && p in t.procs && t.procs[p] == Redeemed(id, t.invites[id])
      && q in t.procs && t.procs[q] == Done(Conflict)
      && inv.user in t.passwords && t.passwords[inv.user] == loses
  {
    hide Next, Exec;
    Exec4(s, Do(p, SetPassword(Applied)), Do(q, SetPassword(Applied)), Do(p, Redeem(Applied)), Do(q, Redeem(Applied)));
    SetPasswordRuns(s, p, id, inv, wins, Applied);
    var s1 := Next(s, Do(p, SetPassword(Applied)));
    SetPasswordRuns(s1, q, id, inv, loses, Applied);
    var s2 := Next(s1, Do(q, SetPassword(Applied)));
    RedeemRuns(s2, p, id, inv, Applied);
    RedeemRuns(Next(s2, Do(p, Redeem(Applied))), q, id, inv, Applied);
  }
}
