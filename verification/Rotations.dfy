/** Provisioning and rotation statement by statement, interleaved
    (internal/provision/mail.go:47-109): which credentials of an identity are active, and
    whether the mail server's password is the one they record. */
module Rotations {
  import opened Text
  import opened Provision
  import opened Replies

  /** Where a request stands: provisioning above, rotation below. */
  datatype Proc =
    | Made(id: string, address: string)
    | Issuing(id: string, address: string, secret: string)
    | Marking(id: string, status: string)
    | Changed(id: string, secret: string)
    | Revoking(id: string, secret: string)
    | Done

  datatype Event =
    | Inserted(id: string, cred: string, fingerprint: string)
    | RevokedAll(id: string)
    | PasswordNow(user: string, now: Option<string>)

  datatype Command =
    | MakeIdentity(id: string, org: string, address: string, reply: Reply)
    | MakeCredential(cred: string, secret: string, reply: Reply)
    | AddUser(reply: Reply)
    | Mark(reply: Reply)
    | Change(id: string, secret: string, removed: bool, reply: Reply)
    | Revoke(reply: Reply)
    | Insert(cred: string, reply: Reply)

  datatype Step = Step(pid: string, cmd: Command)

  datatype System = System(tables: State, procs: map<string, Proc>, log: seq<Event>)

  datatype Effect = Effect(proc: Proc, tables: State, event: Option<Event>)

  function DoMakeIdentity(s: State, id: string, org: string, address: string, reply: Reply): Effect {
    if Taken(s, address) || reply == Refused then Effect(Done, s, None)
    else
      Effect(if reply == Applied then Made(id, address) else Done,
        s.(identities := s.identities[id := Identity(org, address, address, "requested")]), None)
  }

  /** A credential row, from either sequence. */
  function DoInsert(s: State, id: string, cred: string, fingerprint: string, reply: Reply, next: Proc): Effect {
    if reply == Refused then Effect(Done, s, None)
    else Effect(if reply == Applied then next else Done, Issued(s, id, cred, fingerprint),
           Some(Inserted(id, cred, fingerprint)))
  }

  function DoAddUser(s: State, id: string, address: string, secret: string, reply: Reply): Effect {
    var refused := address in s.users || reply == Refused;
    Effect(Marking(id, if !refused && reply == Applied then "active" else "deleted"),
      if refused then s else s.(users := s.users[address := secret]),
      if refused then None else Some(PasswordNow(address, Some(secret))))
  }

  /** What the password change does to the user, if anything. */
  function ChangeEvent(s: State, user: string, secret: string, removed: bool, reply: Reply): Option<Event> {
    if removed || (user !in s.users && reply != Refused)
    then Some(PasswordNow(user, if reply == Refused then None else Some(secret)))
    else None
  }

  function DoChange(s: State, id: string, secret: string, removed: bool, reply: Reply): Effect {
    if id !in s.identities then Effect(Done, s, None)
    else
      var user := s.identities[id].username;
      Effect(if ChangeReported(s, user, removed, reply) then Changed(id, secret) else Done,
        PasswordChanged(s, user, secret, removed, reply), ChangeEvent(s, user, secret, removed, reply))
  }

  function DoRevoke(s: State, id: string, secret: string, reply: Reply): Effect {
    if reply == Refused then Effect(Done, s, None)
    else Effect(if reply == Applied then Revoking(id, secret) else Done, Revoked(s, id), Some(RevokedAll(id)))
  }

  function Act(s: System, fp: string -> string, pid: string, cmd: Command): Option<Effect> {
    var t := s.tables;
    var p: Option<Proc> := if pid in s.procs then Some(s.procs[pid]) else None;
    match (cmd, p)
    case (MakeIdentity(id, org, address, reply), None) =>
      if id in t.identities then None else Some(DoMakeIdentity(t, id, org, address, reply))
    case (MakeCredential(cred, secret, reply), Some(Made(id, address))) =>
      if cred in t.credentials then None
      else Some(DoInsert(t, id, cred, fp(secret), reply, Issuing(id, address, secret)))
    case (AddUser(reply), Some(Issuing(id, address, secret))) => Some(DoAddUser(t, id, address, secret, reply))
    case (Mark(reply), Some(Marking(id, status))) => Some(Effect(Done, Marked(t, id, status, reply), None))
    case (Change(id, secret, removed, reply), None) => Some(DoChange(t, id, secret, removed, reply))
    case (Revoke(reply), Some(Changed(id, secret))) => Some(DoRevoke(t, id, secret, reply))
    case (Insert(cred, reply), Some(Revoking(id, secret))) =>
      if cred in t.credentials then None else Some(DoInsert(t, id, cred, fp(secret), reply, Done))
    case _ => None
  }

  function Apply(s: System, pid: string, e: Effect): System {
    System(e.tables, s.procs[pid := e.proc], if e.event.Some? then s.log + [e.event.value] else s.log)
  }

  function Next(s: System, fp: string -> string, step: Step): System {
    var e := Act(s, fp, step.pid, step.cmd);
    if e.Some? then Apply(s, step.pid, e.value) else s
  }

  function Exec(s: System, fp: string -> string, steps: seq<Step>): System {
    if steps == [] then s else Next(Exec(s, fp, steps[..|steps| - 1]), fp, steps[|steps| - 1])
  }

  /** No identity yet; the server may have any users. */
  predicate Initial(s: System) {
    s.tables.identities == map[] && s.tables.credentials == map[] && s.procs == map[] && s.log == []
  }

  // ---------- What the log says ----------

  predicate Insertion(e: Event, id: string, cred: string) {
    e.Inserted? && e.id == id && e.cred == cred
  }

  /** Inserted, and no revocation of the identity since. */
  ghost predicate Live(log: seq<Event>, id: string, cred: string) {
    exists i :: 0 <= i < |log| && Insertion(log[i], id, cred) && RevokedAll(id) !in log[i..]
  }

  lemma LiveSnoc(log: seq<Event>, e: Event, id: string, cred: string)
    ensures Live(log + [e], id, cred) <==> Insertion(e, id, cred) || (Live(log, id, cred) && e != RevokedAll(id))
  {
    var l := log + [e];
    if Insertion(e, id, cred) {
      assert l[|log|] == e && l[|log|..] == [e];
    }
    if Live(log, id, cred) && e != RevokedAll(id) {
      var i :| 0 <= i < |log| && Insertion(log[i], id, cred) && RevokedAll(id) !in log[i..];
      assert l[i] == log[i] && l[i..] == log[i..] + [e];
    }
    if Live(l, id, cred) && !Insertion(e, id, cred) {
      var i :| 0 <= i < |l| && Insertion(l[i], id, cred) && RevokedAll(id) !in l[i..];
      assert i < |log| && l[i] == log[i] && l[i..] == log[i..] + [e];
    }
  }

  predicate RowOf(s: State, e: Event) {
    e.Inserted? && e.cred in s.credentials && s.credentials[e.cred].fingerprint == e.fingerprint
  }

  /** The active credentials are the live ones, and every insert is in the table. */
  ghost predicate Inv(s: System) {
    && (forall c, id :: ActiveFor(s.tables, c, id) <==> Live(s.log, id, c))
    && (forall i :: 0 <= i < |s.log| && s.log[i].Inserted? ==> RowOf(s.tables, s.log[i]))
    && (forall i, j :: 0 <= i < j < |s.log| && s.log[i].Inserted? && s.log[j].Inserted? ==>
      s.log[i].cred != s.log[j].cred)
  }

  /** The effect either leaves the credentials alone, or inserts a new one, or revokes; and
      leaves the passwords alone, or sets or removes the one it names. */
  predicate Shape(s: State, e: Effect) {
    match e.event
    case None => e.tables.credentials == s.credentials && e.tables.users == s.users
    case Some(Inserted(id, cred, fingerprint)) =>
      cred !in s.credentials && e.tables.users == s.users
      && e.tables.credentials.Keys == s.credentials.Keys + {cred}
      && e.tables.credentials[cred] == Credential(id, fingerprint, true)
      && forall c :: c in s.credentials ==> e.tables.credentials[c] == s.credentials[c]
    case Some(RevokedAll(id)) => e.tables == Revoked(s, id)
    case Some(PasswordNow(user, now)) =>
      e.tables.credentials == s.credentials
      && e.tables.users == if now.Some? then s.users[user := now.value] else s.users - {user}
  }

  lemma CommandShape(s: System, fp: string -> string, pid: string, cmd: Command)
    requires Act(s, fp, pid, cmd).Some?
    ensures Shape(s.tables, Act(s, fp, pid, cmd).value)
  {
  }

  lemma ActiveAfter(s: State, e: Effect, c: string, id: string)
    requires Shape(s, e)
    ensures ActiveFor(e.tables, c, id) <==>
      ((e.event.Some? && Insertion(e.event.value, id, c)) || (ActiveFor(s, c, id) && e.event != Some(RevokedAll(id))))
  {
  }

  lemma ApplyKeepsInv(s: System, pid: string, e: Effect)
    requires Inv(s) && Shape(s.tables, e)
    ensures Inv(Apply(s, pid, e))
  {
    hide Live, ActiveFor;
    var t := Apply(s, pid, e);
    forall c, id
      ensures ActiveFor(t.tables, c, id) <==> Live(t.log, id, c)
    {
      ActiveAfter(s.tables, e, c, id);
      if e.event.Some? {
        LiveSnoc(s.log, e.event.value, id, c);
      }
    }
  }

  lemma {:induction false} RunKeepsInv(s: System, fp: string -> string, steps: seq<Step>)
    requires Initial(s)
    ensures Inv(Exec(s, fp, steps))
  {
    hide Act, Shape, Apply;
    if steps != [] {
      var init, last := steps[..|steps| - 1], steps[|steps| - 1];
      RunKeepsInv(s, fp, init);
      var t := Exec(s, fp, init);
      if Act(t, fp, last.pid, last.cmd).Some? {
        CommandShape(t, fp, last.pid, last.cmd);
        ApplyKeepsInv(t, last.pid, Act(t, fp, last.pid, last.cmd).value);
      }
    }
  }

  // ---------- Two active credentials ----------

  ghost predicate TwoActive(s: State, id: string) {
    exists c, d :: c != d && ActiveFor(s, c, id) && ActiveFor(s, d, id)
  }

  /** Events `i` and `j` insert for the identity, and nothing revokes from `i` up to `end`. */
  predicate Unbroken(log: seq<Event>, id: string, i: nat, j: nat, end: nat) {
    && i < j < end <= |log| && log[i].Inserted? && log[i].id == id && log[j].Inserted? && log[j].id == id
    && RevokedAll(id) !in log[i..end]
  }

  predicate Between(log: seq<Event>, id: string, i: nat, j: nat) {
    j < |log| && Unbroken(log, id, i, j, j + 1)
  }

  /** Two inserts with no revocation between them, and, for the first predicate, none since. */
  ghost predicate TwoSince(log: seq<Event>, id: string) {
    exists i: nat, j: nat :: Unbroken(log, id, i, j, |log|)
  }

  ghost predicate TwoBetween(log: seq<Event>, id: string) {
    exists i: nat, j: nat :: Between(log, id, i, j)
  }

  /** An identity has two active credentials exactly when two were inserted for it with no
      revocation between them or since. */
  lemma TwoActiveNowIff(s: System, fp: string -> string, steps: seq<Step>, id: string)
    requires Initial(s)
    ensures var t := Exec(s, fp, steps);
      TwoActive(t.tables, id) <==> TwoSince(t.log, id)
  {
    hide Exec, Live, ActiveFor;
    RunKeepsInv(s, fp, steps);
    var t := Exec(s, fp, steps);
    if TwoActive(t.tables, id) {
      var c, d :| c != d && ActiveFor(t.tables, c, id) && ActiveFor(t.tables, d, id);
      TwoLive(t.log, id, c, d);
    }
    if TwoSince(t.log, id) {
      var i: nat, j: nat :| Unbroken(t.log, id, i, j, |t.log|);
      UnbrokenLive(t.log, id, i, j);
      assert ActiveFor(t.tables, t.log[i].cred, id) && ActiveFor(t.tables, t.log[j].cred, id);
    }
  }

  lemma TwoLive(log: seq<Event>, id: string, c: string, d: string)
    requires c != d && Live(log, id, c) && Live(log, id, d)
    ensures TwoSince(log, id)
  {
    var i :| 0 <= i < |log| && Insertion(log[i], id, c) && RevokedAll(id) !in log[i..];
    var j :| 0 <= j < |log| && Insertion(log[j], id, d) && RevokedAll(id) !in log[j..];
    assert log[i..|log|] == log[i..] && log[j..|log|] == log[j..];
    if i < j {
      assert Unbroken(log, id, i, j, |log|);
    } else {
      assert Unbroken(log, id, j, i, |log|);
    }
  }

  lemma UnbrokenLive(log: seq<Event>, id: string, i: nat, j: nat)
    requires Unbroken(log, id, i, j, |log|)
    ensures Live(log, id, log[i].cred) && Live(log, id, log[j].cred)
  {
    assert log[i..|log|] == log[i..];
    forall e | e in log[j..]
      ensures e in log[i..]
    {
      var k :| 0 <= k < |log[j..]| && log[j..][k] == e;
      assert log[i..][k + j - i] == e;
    }
  }

  /** Some state of the run has two. */
  ghost predicate EverTwo(s: System, fp: string -> string, steps: seq<Step>, id: string) {
    exists k :: 0 <= k <= |steps| && TwoActive(Exec(s, fp, steps[..k]).tables, id)
  }

  lemma {:induction false} LogPrefix(s: System, fp: string -> string, steps: seq<Step>, k: nat)
    requires k <= |steps|
    ensures |Exec(s, fp, steps[..k]).log| <= |Exec(s, fp, steps).log|
    ensures Exec(s, fp, steps).log[..|Exec(s, fp, steps[..k]).log|] == Exec(s, fp, steps[..k]).log
    decreases |steps|
  {
    hide Act;
    if k < |steps| {
      var init := steps[..|steps| - 1];
      LogPrefix(s, fp, init, k);
      assert init[..k] == steps[..k];
    } else {
      assert steps[..k] == steps;
    }
  }

  /** The state just after event `n`. */
  lemma {:induction false} StateAfterEvent(s: System, fp: string -> string, steps: seq<Step>, n: nat) returns (k: nat)
    requires s.log == [] && n < |Exec(s, fp, steps).log|
    ensures k <= |steps| && |Exec(s, fp, steps[..k]).log| == n + 1
  {
    hide Act;
    var init := steps[..|steps| - 1];
    if n < |Exec(s, fp, init).log| {
      k := StateAfterEvent(s, fp, init, n);
      assert init[..k] == steps[..k];
    } else {
      k := |steps|;
      assert steps[..k] == steps;
    }
  }

  /** In every interleaving, an identity has two active credentials at some point exactly when
      two inserts for it have no revocation between them. */
  lemma EverTwoIff(s: System, fp: string -> string, steps: seq<Step>, id: string)
    requires Initial(s)
    ensures EverTwo(s, fp, steps, id) <==> TwoBetween(Exec(s, fp, steps).log, id)
  {
    hide Exec, TwoActive;
    var log := Exec(s, fp, steps).log;
    if EverTwo(s, fp, steps, id) {
      var k :| 0 <= k <= |steps| && TwoActive(Exec(s, fp, steps[..k]).tables, id);
      TwoActiveNowIff(s, fp, steps[..k], id);
      LogPrefix(s, fp, steps, k);
      var pre := Exec(s, fp, steps[..k]).log;
      var i: nat, j: nat :| Unbroken(pre, id, i, j, |pre|);
      UnbrokenPrefix(pre, log, id, i, j);
      assert Between(log, id, i, j);
    }
    if TwoBetween(log, id) {
      var i: nat, j: nat :| Between(log, id, i, j);
      var k := StateAfterEvent(s, fp, steps, j);
      LogPrefix(s, fp, steps, k);
      var pre := Exec(s, fp, steps[..k]).log;
      assert pre == log[..j + 1];
      UnbrokenHere(log, id, i, j);
      TwoActiveNowIff(s, fp, steps[..k], id);
    }
  }

  lemma UnbrokenPrefix(pre: seq<Event>, log: seq<Event>, id: string, i: nat, j: nat)
    requires |pre| <= |log| && log[..|pre|] == pre && Unbroken(pre, id, i, j, |pre|)
    ensures Unbroken(log, id, i, j, j + 1)
  {
    assert log[i] == pre[i] && log[j] == pre[j];
    forall e | e in log[i..j + 1]
      ensures e in pre[i..|pre|]
    {
      var k :| 0 <= k < |log[i..j + 1]| && log[i..j + 1][k] == e;
      assert pre[i..|pre|][k] == pre[i + k] == log[i + k] == e;
    }
  }

  lemma UnbrokenHere(log: seq<Event>, id: string, i: nat, j: nat)
    requires Unbroken(log, id, i, j, j + 1)
    ensures Unbroken(log[..j + 1], id, i, j, j + 1)
  {
    assert log[..j + 1][i..j + 1] == log[i..j + 1];
  }

  // ---------- Password and credentials ----------

  /** Nothing sets or removes the user's password from here on. */
  predicate Silent(log: seq<Event>, user: string, from: nat) {
    forall k :: from <= k < |log| ==> !(log[k].PasswordNow? && log[k].user == user)
  }

  predicate LastSet(log: seq<Event>, user: string, x: string, i: nat) {
    i < |log| && log[i] == PasswordNow(user, Some(x)) && Silent(log, user, i + 1)
  }

  /** The password that was set last, or else the one the server started with. */
  ghost predicate PasswordIs(log: seq<Event>, start: map<string, string>, user: string, x: string) {
    (exists i: nat :: LastSet(log, user, x, i)) || (user in start && start[user] == x && Silent(log, user, 0))
  }

  predicate Has(users: map<string, string>, user: string, x: string) {
    user in users && users[user] == x
  }

  ghost predicate PasswordInv(s: System, start: map<string, string>) {
    forall user, x :: Has(s.tables.users, user, x) <==> PasswordIs(s.log, start, user, x)
  }

  lemma SilentSnoc(log: seq<Event>, e: Event, user: string, from: nat)
    requires from <= |log|
    ensures Silent(log + [e], user, from) <==> Silent(log, user, from) && !(e.PasswordNow? && e.user == user)
  {
    var l := log + [e];
    assert l[|log|] == e;
    if Silent(l, user, from) {
      forall k | from <= k < |log|
        ensures !(log[k].PasswordNow? && log[k].user == user)
      {
        assert l[k] == log[k];
      }
    }
  }

  lemma PasswordSnoc(log: seq<Event>, e: Event, start: map<string, string>, user: string, x: string)
    ensures PasswordIs(log + [e], start, user, x) <==>
      e == PasswordNow(user, Some(x)) || (PasswordIs(log, start, user, x) && !(e.PasswordNow? && e.user == user))
  {
    hide Silent;
    var l := log + [e];
    SilentSnoc(log, e, user, 0);
    assert Silent(l, user, |l|) by {
      NothingAfter(l, user);
    }
    if e == PasswordNow(user, Some(x)) {
      assert LastSet(l, user, x, |log|);
    }
    if i: nat :| LastSet(log, user, x, i) {
      SilentSnoc(log, e, user, i + 1);
      if !(e.PasswordNow? && e.user == user) {
        assert l[i] == log[i] && LastSet(l, user, x, i);
      }
    }
    if i: nat :| LastSet(l, user, x, i) {
      if i < |log| {
        SilentSnoc(log, e, user, i + 1);
        assert l[i] == log[i] && LastSet(log, user, x, i);
      }
    }
  }

  lemma NothingAfter(log: seq<Event>, user: string)
    ensures Silent(log, user, |log|)
  {
  }

  lemma HasAfter(s: State, e: Effect, user: string, x: string)
    requires Shape(s, e)
    ensures Has(e.tables.users, user, x) <==>
      e.event == Some(PasswordNow(user, Some(x))) ||
      (Has(s.users, user, x) && !(e.event.Some? && e.event.value.PasswordNow? && e.event.value.user == user))
  {
  }

  lemma {:induction false} RunKeepsPasswords(s: System, fp: string -> string, steps: seq<Step>)
    requires Initial(s)
    ensures PasswordInv(Exec(s, fp, steps), s.tables.users)
  {
    hide Act, Shape, PasswordIs, Has;
    if steps == [] {
      forall user, x
        ensures Has(s.tables.users, user, x) <==> PasswordIs([], s.tables.users, user, x)
      {
        AtStart(s.tables.users, user, x);
      }
    } else {
      var init, last := steps[..|steps| - 1], steps[|steps| - 1];
      RunKeepsPasswords(s, fp, init);
      var t := Exec(s, fp, init);
      if Act(t, fp, last.pid, last.cmd).Some? {
        var e := Act(t, fp, last.pid, last.cmd).value;
        CommandShape(t, fp, last.pid, last.cmd);
        forall user, x
          ensures Has(e.tables.users, user, x) <==>
            PasswordIs(Apply(t, last.pid, e).log, s.tables.users, user, x)
        {
          HasAfter(t.tables, e, user, x);
          if e.event.Some? {
            PasswordSnoc(t.log, e.event.value, s.tables.users, user, x);
          }
        }
      }
    }
  }

  lemma AtStart(start: map<string, string>, user: string, x: string)
    ensures Has(start, user, x) <==> PasswordIs([], start, user, x)
  {
  }

  /** Event `i` inserted a credential with this fingerprint for the identity, and nothing
      revoked it since. */
  predicate LiveInsert(log: seq<Event>, id: string, fingerprint: string, i: nat) {
    && i < |log| && log[i].Inserted? && log[i].id == id && log[i].fingerprint == fingerprint
    && RevokedAll(id) !in log[i..]
  }

  ghost predicate Matching(log: seq<Event>, start: map<string, string>, user: string, id: string,
      fp: string -> string)
  {
    exists x, i: nat :: PasswordIs(log, start, user, x) && LiveInsert(log, id, fp(x), i)
  }

  /** In every interleaving, an identity agrees with the mail server exactly when the password
      set last for its user is one whose fingerprint was inserted for it with no revocation
      since. */
  lemma AgreesNowIff(s: System, fp: string -> string, steps: seq<Step>, id: string)
    requires Initial(s) && id in Exec(s, fp, steps).tables.identities
    ensures var t := Exec(s, fp, steps);
      Agrees(t.tables, fp, id) <==>
      Matching(t.log, s.tables.users, t.tables.identities[id].username, id, fp)
  {
    hide Exec, PasswordIs;
    RunKeepsInv(s, fp, steps);
    RunKeepsPasswords(s, fp, steps);
    var t, start := Exec(s, fp, steps), s.tables.users;
    var user := t.tables.identities[id].username;
    if Agrees(t.tables, fp, id) {
      var x := t.tables.users[user];
      var c :| ActiveFor(t.tables, c, id) && t.tables.credentials[c].fingerprint == fp(x);
      assert Has(t.tables.users, user, x) && PasswordIs(t.log, start, user, x);
      assert Live(t.log, id, c);
      var i :| 0 <= i < |t.log| && Insertion(t.log[i], id, c) && RevokedAll(id) !in t.log[i..];
      assert RowOf(t.tables, t.log[i]);
      assert LiveInsert(t.log, id, fp(x), i);
    }
    if Matching(t.log, start, user, id, fp) {
      var x, i: nat :| PasswordIs(t.log, start, user, x) && LiveInsert(t.log, id, fp(x), i);
      assert Has(t.tables.users, user, x);
      var c := t.log[i].cred;
      assert Insertion(t.log[i], id, c) && Live(t.log, id, c);
      assert ActiveFor(t.tables, c, id) && RowOf(t.tables, t.log[i]);
    }
  }

  // ---------- One request alone, and two at once ----------

  lemma Exec3(s: System, fp: string -> string, a: Step, b: Step, c: Step)
    ensures Exec(s, fp, [a, b, c]) == Next(Next(Next(s, fp, a), fp, b), fp, c)
  {
    hide Next;
    assert [a, b, c][..2] == [a, b] && [a, b][..1] == [a] && [a][..0] == [];
    assert Exec(s, fp, []) == s;
    assert Exec(s, fp, [a]) == Next(s, fp, a);
    assert Exec(s, fp, [a, b]) == Next(Next(s, fp, a), fp, b);
  }

  /** Uninterrupted, the three statements are the rotation proved of the handler. */
  lemma RotateAlone(s: System, fp: string -> string, pid: string, id: string, cred: string, secret: string,
      r: RotateReplies)
    requires pid !in s.procs && cred !in s.tables.credentials
    ensures Exec(s, fp, [Step(pid, Change(id, secret, r.removed, r.user)), Step(pid, Revoke(r.revoke)),
      Step(pid, Insert(cred, r.credential))]).tables == Rotated(s.tables, id, cred, secret, fp, r).0
  {
    hide Next, Exec;
    var change := Step(pid, Change(id, secret, r.removed, r.user));
    Exec3(s, fp, change, Step(pid, Revoke(r.revoke)), Step(pid, Insert(cred, r.credential)));
    ChangeRuns(s, fp, pid, id, secret, r.removed, r.user);
    RevokeAndInsert(Next(s, fp, change), fp, pid, id, cred, secret, r);
    ChangeKeeps(s.tables, id, secret, r.removed, r.user);
  }

  lemma ChangeRuns(s: System, fp: string -> string, pid: string, id: string, secret: string, removed: bool,
      reply: Reply)
    requires pid !in s.procs
    ensures Next(s, fp, Step(pid, Change(id, secret, removed, reply))) ==
      Apply(s, pid, DoChange(s.tables, id, secret, removed, reply))
  {
  }

  /** What follows the password change: nothing when it was not reported. */
  lemma RevokeAndInsert(s: System, fp: string -> string, pid: string, id: string, cred: string, secret: string,
      r: RotateReplies)
    requires pid in s.procs && (s.procs[pid] == Done || s.procs[pid] == Changed(id, secret))
    requires cred !in s.tables.credentials
    ensures var t := Next(Next(s, fp, Step(pid, Revoke(r.revoke))), fp, Step(pid, Insert(cred, r.credential))).tables;
      t == if s.procs[pid] == Done || r.revoke == Refused then s.tables
           else if r.revoke == Lost || r.credential == Refused then Revoked(s.tables, id)
           else Issued(Revoked(s.tables, id), id, cred, fp(secret))
  {
    hide Issued;
    var s1 := Next(s, fp, Step(pid, Revoke(r.revoke)));
    assert s1.tables.credentials.Keys == s.tables.credentials.Keys;
  }

  lemma ChangeKeeps(s: State, id: string, secret: string, removed: bool, reply: Reply)
    ensures DoChange(s, id, secret, removed, reply).tables.credentials == s.credentials
  {
  }

  /** Likewise the four of a provisioning. */
  lemma ProvisionAlone(s: System, fp: string -> string, pid: string, id: string, cred: string, org: string,
      address: string, secret: string, r: ProvisionReplies)
    requires pid !in s.procs && id !in s.tables.identities && cred !in s.tables.credentials
    ensures Exec(s, fp, [Step(pid, MakeIdentity(id, org, address, r.identity)),
      Step(pid, MakeCredential(cred, secret, r.credential)), Step(pid, AddUser(r.user)),
      Step(pid, Mark(r.mark))]).tables
      == Provisioned(s.tables, id, cred, org, address, secret, fp, r).0
  {
    hide Next, Exec, Provisioned;
    var a := Step(pid, MakeIdentity(id, org, address, r.identity));
    var b := Step(pid, MakeCredential(cred, secret, r.credential));
    var c, d := Step(pid, AddUser(r.user)), Step(pid, Mark(r.mark));
    ExecAppend(s, fp, [a, b, c], [d]);
    Exec3(s, fp, a, b, c);
    ExecOne(Exec(s, fp, [a, b, c]), fp, d);
    assert [a, b, c] + [d] == [a, b, c, d];
    FirstTwo(s, fp, pid, id, cred, org, address, secret, r);
    LastTwo(Next(Next(s, fp, a), fp, b), fp, pid, id, address, secret, r);
    ProvisionedIs(s.tables, id, cred, org, address, secret, fp, r);
  }

  lemma ExecOne(s: System, fp: string -> string, a: Step)
    ensures Exec(s, fp, [a]) == Next(s, fp, a)
  {
    hide Next;
    assert [a][..0] == [];
    assert Exec(s, fp, []) == s;
  }

  /** The tables after the identity and the credential. */
  function Registered(s: State, id: string, cred: string, org: string, address: string, fingerprint: string,
      r: ProvisionReplies): State
  {
    if Taken(s, address) || r.identity == Refused then s
    else
      var s1 := s.(identities := s.identities[id := Identity(org, address, address, "requested")]);
      if r.identity == Lost || r.credential == Refused then s1 else Issued(s1, id, cred, fingerprint)
  }

  predicate BothAnswered(s: State, address: string, r: ProvisionReplies) {
    !Taken(s, address) && r.identity == Applied && r.credential == Applied
  }

  lemma FirstTwo(s: System, fp: string -> string, pid: string, id: string, cred: string, org: string,
      address: string, secret: string, r: ProvisionReplies)
    requires pid !in s.procs && id !in s.tables.identities && cred !in s.tables.credentials
    ensures var t := Next(Next(s, fp, Step(pid, MakeIdentity(id, org, address, r.identity))), fp,
      Step(pid, MakeCredential(cred, secret, r.credential)));
      && t.tables == Registered(s.tables, id, cred, org, address, fp(secret), r)
      && pid in t.procs
      && t.procs[pid] == if BothAnswered(s.tables, address, r) then Issuing(id, address, secret) else Done
  {
    hide Taken, Issued;
    var s1 := Next(s, fp, Step(pid, MakeIdentity(id, org, address, r.identity)));
    assert s1.tables.credentials == s.tables.credentials && pid in s1.procs;
  }

  lemma LastTwo(s: System, fp: string -> string, pid: string, id: string, address: string, secret: string,
      r: ProvisionReplies)
    requires pid in s.procs && (s.procs[pid] == Done || s.procs[pid] == Issuing(id, address, secret))
    ensures var t := Next(Next(s, fp, Step(pid, AddUser(r.user))), fp, Step(pid, Mark(r.mark))).tables;
      t == if s.procs[pid] == Done then s.tables
           else if address in s.tables.users || r.user == Refused then Marked(s.tables, id, "deleted", r.mark)
           else
             var added := s.tables.(users := s.tables.users[address := secret]);
             Marked(added, id, if r.user == Applied then "active" else "deleted", r.mark)
  {
    hide Marked;
  }

  lemma ProvisionedIs(s: State, id: string, cred: string, org: string, address: string, secret: string,
      fp: string -> string, r: ProvisionReplies)
    ensures var t := Registered(s, id, cred, org, address, fp(secret), r);
      Provisioned(s, id, cred, org, address, secret, fp, r).0 ==
        if !BothAnswered(s, address, r) then t
        else if address in t.users || r.user == Refused then Marked(t, id, "deleted", r.mark)
        else
          var added := t.(users := t.users[address := secret]);
          Marked(added, id, if r.user == Applied then "active" else "deleted", r.mark)
  {
    hide Taken, Issued, Marked;
    var made := s.(identities := s.identities[id := Identity(org, address, address, "requested")]);
    IssuedUsers(made, id, cred, fp(secret));
  }

  lemma IssuedUsers(s: State, id: string, cred: string, fingerprint: string)
    ensures Issued(s, id, cred, fingerprint).users == s.users
  {
  }

  /** Two rotations that both change the password and revoke before either inserts. */
  function Crossed(p: string, q: string, id: string, c: string, d: string, x: string, y: string): seq<Step> {
    [Step(p, Change(id, x, true, Applied)), Step(q, Change(id, y, true, Applied)), Step(p, Revoke(Applied))] +
    [Step(q, Revoke(Applied)), Step(p, Insert(c, Applied)), Step(q, Insert(d, Applied))]
  }

  lemma {:induction false} ExecAppend(s: System, fp: string -> string, a: seq<Step>, b: seq<Step>)
    ensures Exec(s, fp, a + b) == Exec(Exec(s, fp, a), fp, b)
    decreases |b|
  {
    hide Next;
    if b == [] {
      assert a + b == a;
    } else {
      ExecAppend(s, fp, a, b[..|b| - 1]);
      assert (a + b)[..|a + b| - 1] == a + b[..|b| - 1];
    }
  }

  /** From an empty platform: an identity made, then two crossed rotations of it. */
  function CrossedRun(m: string, org: string, address: string, p: string, q: string, id: string, c: string, d: string,
      x: string, y: string): seq<Step>
  {
    [Step(m, MakeIdentity(id, org, address, Applied))] + Crossed(p, q, id, c, d, x, y)
  }

  /** The run ends with two active credentials for one identity. */
  lemma CrossedRotationsLeaveTwo(s: System, fp: string -> string, m: string, org: string, address: string,
      p: string, q: string, id: string, c: string, d: string, x: string, y: string)
    requires Initial(s) && p != q && m != p && m != q && c != d
    ensures var t := Exec(s, fp, CrossedRun(m, org, address, p, q, id, c, d, x, y));
      ActiveFor(t.tables, c, id) && ActiveFor(t.tables, d, id)
  {
    hide Exec, Next;
    var first := [Step(m, MakeIdentity(id, org, address, Applied))];
    ExecAppend(s, fp, first, Crossed(p, q, id, c, d, x, y));
    MadeRuns(s, fp, m, org, address, id);
    CrossedRuns(Exec(s, fp, first), fp, p, q, id, c, d, x, y);
  }

  lemma MadeRuns(s: System, fp: string -> string, m: string, org: string, address: string, id: string)
    requires Initial(s)
    ensures var t := Exec(s, fp, [Step(m, MakeIdentity(id, org, address, Applied))]);
      && t.tables == s.tables.(identities := map[id := Identity(org, address, address, "requested")])
      && t.procs == map[m := Made(id, address)]
  {
    assert [Step(m, MakeIdentity(id, org, address, Applied))][..0] == [];
    assert Exec(s, fp, []) == s;
  }

  lemma CrossedRuns(s: System, fp: string -> string, p: string, q: string, id: string, c: string, d: string,
      x: string, y: string)
    requires p != q && p !in s.procs && q !in s.procs && id in s.tables.identities
    requires c != d && s.tables.credentials == map[]
    ensures var t := Exec(s, fp, Crossed(p, q, id, c, d, x, y));
      ActiveFor(t.tables, c, id) && ActiveFor(t.tables, d, id)
  {
    hide Exec, Next;
    var a, b := [Step(p, Change(id, x, true, Applied)), Step(q, Change(id, y, true, Applied)),
      Step(p, Revoke(Applied))],
      [Step(q, Revoke(Applied)), Step(p, Insert(c, Applied)), Step(q, Insert(d, Applied))];
    ExecAppend(s, fp, a, b);
    Exec3(s, fp, Step(p, Change(id, x, true, Applied)), Step(q, Change(id, y, true, Applied)),
      Step(p, Revoke(Applied)));
    FirstHalf(s, fp, p, q, id, x, y);
    var s1 := Exec(s, fp, a);
    Exec3(s1, fp, Step(q, Revoke(Applied)), Step(p, Insert(c, Applied)), Step(q, Insert(d, Applied)));
    SecondHalf(s1, fp, p, q, id, c, d, x, y);
  }

  lemma FirstHalf(s: System, fp: string -> string, p: string, q: string, id: string, x: string, y: string)
    requires p != q && p !in s.procs && q !in s.procs && id in s.tables.identities && s.tables.credentials == map[]
    ensures var t := Next(Next(Next(s, fp, Step(p, Change(id, x, true, Applied))), fp,
      Step(q, Change(id, y, true, Applied))),
        fp, Step(p, Revoke(Applied)));
      && t.tables.credentials == map[]
      && p in t.procs && q in t.procs && t.procs[p] == Revoking(id, x) && t.procs[q] == Changed(id, y)
  {
    var s1 := Next(s, fp, Step(p, Change(id, x, true, Applied)));
    assert s1.procs == s.procs[p := Changed(id, x)] && s1.tables.identities == s.tables.identities;
    var s2 := Next(s1, fp, Step(q, Change(id, y, true, Applied)));
    assert s2.procs == s1.procs[q := Changed(id, y)];
  }

  lemma SecondHalf(s: System, fp: string -> string, p: string, q: string, id: string, c: string, d: string,
      x: string, y: string)
    requires p != q && p in s.procs && q in s.procs && s.procs[p] == Revoking(id, x) && s.procs[q] == Changed(id, y)
    requires c != d && s.tables.credentials == map[]
    ensures var t := Next(Next(Next(s, fp, Step(q, Revoke(Applied))), fp, Step(p, Insert(c, Applied))), fp,
      Step(q, Insert(d, Applied)));
      ActiveFor(t.tables, c, id) && ActiveFor(t.tables, d, id)
  {
    var s1 := Next(s, fp, Step(q, Revoke(Applied)));
    assert s1.procs == s.procs[q := Revoking(id, y)] && s1.tables.credentials == map[];
    var s2 := Next(s1, fp, Step(p, Insert(c, Applied)));
    assert s2.procs == s1.procs[p := Done] && s2.tables.credentials == map[c := Credential(id, fp(x), true)];
  }

  /** From an empty platform: an identity made; `p` changes the password, `q` rotates from
      beginning to end, then `p` revokes and inserts. */
  function OvertakenRun(m: string, org: string, address: string, p: string, q: string, id: string, c: string,
      d: string, x: string, y: string): seq<Step>
  {
    [Step(m, MakeIdentity(id, org, address, Applied))] + Overtaken(p, q, id, c, d, x, y)
  }

  function Overtaken(p: string, q: string, id: string, c: string, d: string, x: string, y: string): seq<Step> {
    [Step(p, Change(id, x, true, Applied)), Step(q, Change(id, y, true, Applied)), Step(q, Revoke(Applied))] +
    [Step(q, Insert(d, Applied)), Step(p, Revoke(Applied)), Step(p, Insert(c, Applied))]
  }

  /** Every call is applied and both rotations succeed, but the password is that of the one and
      the only active credential that of the other. */
  lemma OvertakenRotationDisagrees(s: System, fp: string -> string, m: string, org: string, address: string,
      p: string, q: string, id: string, c: string, d: string, x: string, y: string)
    requires Initial(s) && p != q && m != p && m != q && c != d && fp(x) != fp(y)
    ensures var t := Exec(s, fp, OvertakenRun(m, org, address, p, q, id, c, d, x, y));
      && t.tables.users == s.tables.users[address := y]
      && (forall e :: ActiveFor(t.tables, e, id) <==> e == c)
      && c in t.tables.credentials && t.tables.credentials[c].fingerprint == fp(x)
      && !Agrees(t.tables, fp, id)
  {
    hide Exec, Next;
    var first := [Step(m, MakeIdentity(id, org, address, Applied))];
    ExecAppend(s, fp, first, Overtaken(p, q, id, c, d, x, y));
    MadeRuns(s, fp, m, org, address, id);
    var s1 := Exec(s, fp, first);
    OvertakenRuns(s1, fp, p, q, id, c, d, x, y);
    assert s1.tables.users[address := x][address := y] == s.tables.users[address := y];
  }

  lemma OvertakenRuns(s: System, fp: string -> string, p: string, q: string, id: string, c: string, d: string,
      x: string, y: string)
    requires p != q && p !in s.procs && q !in s.procs && id in s.tables.identities
    requires c != d && s.tables.credentials == map[]
    ensures var t := Exec(s, fp, Overtaken(p, q, id, c, d, x, y));
      && t.tables.identities == s.tables.identities
      && t.tables.users == s.tables.users[s.tables.identities[id].username := y]
      && t.tables.credentials == map[d := Credential(id, fp(y), false), c := Credential(id, fp(x), true)]
  {
    hide Exec, Next;
    var a, b := [Step(p, Change(id, x, true, Applied)), Step(q, Change(id, y, true, Applied)),
      Step(q, Revoke(Applied))],
      [Step(q, Insert(d, Applied)), Step(p, Revoke(Applied)), Step(p, Insert(c, Applied))];
    ExecAppend(s, fp, a, b);
    Exec3(s, fp, Step(p, Change(id, x, true, Applied)), Step(q, Change(id, y, true, Applied)),
      Step(q, Revoke(Applied)));
    ChangesAndRevoke(s, fp, p, q, id, x, y);
    var s1 := Exec(s, fp, a);
    Exec3(s1, fp, Step(q, Insert(d, Applied)), Step(p, Revoke(Applied)), Step(p, Insert(c, Applied)));
    InsertThenOvertake(s1, fp, p, q, id, c, d, x, y);
  }

  lemma ChangesAndRevoke(s: System, fp: string -> string, p: string, q: string, id: string, x: string, y: string)
    requires p != q && p !in s.procs && q !in s.procs && id in s.tables.identities && s.tables.credentials == map[]
    ensures var t := Next(Next(Next(s, fp, Step(p, Change(id, x, true, Applied))), fp,
      Step(q, Change(id, y, true, Applied))),
        fp, Step(q, Revoke(Applied)));
      && t.tables.credentials == map[] && t.tables.identities == s.tables.identities
      && t.tables.users == s.tables.users[s.tables.identities[id].username := y]
      && p in t.procs && q in t.procs && t.procs[p] == Changed(id, x) && t.procs[q] == Revoking(id, y)
  {
    var user := s.tables.identities[id].username;
    var s1 := Next(s, fp, Step(p, Change(id, x, true, Applied)));
    assert s1.procs == s.procs[p := Changed(id, x)] && s1.tables.identities == s.tables.identities;
    assert s1.tables.users == (s.tables.users - {user})[user := x] == s.tables.users[user := x];
    var s2 := Next(s1, fp, Step(q, Change(id, y, true, Applied)));
    assert s2.procs == s1.procs[q := Changed(id, y)];
    assert s2.tables.users == (s1.tables.users - {user})[user := y] == s.tables.users[user := y];
  }

  lemma InsertThenOvertake(s: System, fp: string -> string, p: string, q: string, id: string, c: string, d: string,
      x: string, y: string)
    requires p != q && p in s.procs && q in s.procs && s.procs[p] == Changed(id, x) && s.procs[q] == Revoking(id, y)
    requires c != d && s.tables.credentials == map[]
    ensures var t := Next(Next(Next(s, fp, Step(q, Insert(d, Applied))), fp, Step(p, Revoke(Applied))), fp,
      Step(p, Insert(c, Applied)));
      && t.tables.identities == s.tables.identities && t.tables.users == s.tables.users
      && t.tables.credentials == map[d := Credential(id, fp(y), false), c := Credential(id, fp(x), true)]
  {
    var s1 := Next(s, fp, Step(q, Insert(d, Applied)));
    assert s1.procs == s.procs[q := Done] && s1.tables.credentials == map[d := Credential(id, fp(y), true)];
    var s2 := Next(s1, fp, Step(p, Revoke(Applied)));
    assert s2.procs == s1.procs[p := Revoking(id, x)];
    assert s2.tables.credentials == map[d := Credential(id, fp(y), false)];
  }
}
