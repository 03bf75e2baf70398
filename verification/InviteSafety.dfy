/** Single use, supersession and faithful redemption of invites, over every run. */
module InviteSafety {
  import opened Replies
  import opened Text
  import opened Invites

  // ---------- What the log says about an invite ----------

  ghost predicate ConsumedIn(log: seq<Event>, id: string) {
    exists j :: 0 <= j < |log| && log[j].Consumed? && log[j].id == id
  }

  /** The pair's invites were burnt after this one was created. */
  ghost predicate SupersededIn(log: seq<Event>, id: string, org: string, user: string) {
    exists j :: 0 <= j < |log| && log[j] == Superseded(org, user) && Created(id) in log[..j]
  }

  ghost predicate GrantedVia(log: seq<Event>, id: string) {
    exists j :: 0 <= j < |log| && log[j].Granted? && log[j].via == Some(id)
  }

  ghost predicate ConsumedBy(log: seq<Event>, pid: string, id: string) {
    exists j :: 0 <= j < |log| && log[j].Consumed? && log[j].pid == pid && log[j].id == id
  }

  lemma Snoc(log: seq<Event>, e: Event, id: string, org: string, user: string)
    ensures ConsumedIn(log + [e], id) <==> ConsumedIn(log, id) || (e.Consumed? && e.id == id)
    ensures SupersededIn(log + [e], id, org, user)
      <==> SupersededIn(log, id, org, user) || (e == Superseded(org, user) && Created(id) in log)
  {
    var l := log + [e];
    assert l[|log|] == e && l[..|log|] == log;
    if ConsumedIn(log, id) {
      var j :| 0 <= j < |log| && log[j].Consumed? && log[j].id == id;
      assert l[j] == log[j];
    }
    if SupersededIn(log, id, org, user) {
      var j :| 0 <= j < |log| && log[j] == Superseded(org, user) && Created(id) in log[..j];
      assert l[j] == log[j] && l[..j] == log[..j];
    }
    if SupersededIn(l, id, org, user) {
      var j :| 0 <= j < |l| && l[j] == Superseded(org, user) && Created(id) in l[..j];
      if j < |log| {
        assert l[j] == log[j] && l[..j] == log[..j];
      }
    }
  }

  lemma SnocBy(log: seq<Event>, e: Event, pid: string, id: string)
    ensures GrantedVia(log + [e], id) <==> GrantedVia(log, id) || (e.Granted? && e.via == Some(id))
    ensures ConsumedBy(log + [e], pid, id) <==> ConsumedBy(log, pid, id) || (e.Consumed? && e.pid == pid && e.id == id)
  {
    var l := log + [e];
    assert l[|log|] == e;
    if GrantedVia(log, id) {
      var j :| 0 <= j < |log| && log[j].Granted? && log[j].via == Some(id);
      assert l[j] == log[j];
    }
    if ConsumedBy(log, pid, id) {
      var j :| 0 <= j < |log| && log[j].Consumed? && log[j].pid == pid && log[j].id == id;
      assert l[j] == log[j];
    }
  }

  // ---------- The invariant ----------

  /** The same invite, up to acceptance. */
  predicate Same(a: Invite, b: Invite) {
    a.(accepted := b.accepted) == b
  }

  /** Rows never disappear, and change only from pending to accepted. */
  predicate RowsGrow(rows: map<string, Invite>, rows': map<string, Invite>) {
    forall id :: id in rows ==>
      id in rows' && Same(rows[id], rows'[id]) && (rows[id].accepted.Some? ==> rows'[id] == rows[id])
  }

  /** What holds of an event, given the events before it and the rows now. */
  ghost predicate EventOk(before: seq<Event>, rows: map<string, Invite>, e: Event) {
    match e
    case Looked(pid, id) =>
      && id in rows && Created(id) in before
      && !ConsumedIn(before, id) && !SupersededIn(before, id, rows[id].org, rows[id].user)
    case Missed(pid, id, at) =>
      && id in rows && Looked(pid, id) in before && PasswordSet(pid, rows[id].user) in before
      && (at >= rows[id].expires || ConsumedIn(before, id) || SupersededIn(before, id, rows[id].org, rows[id].user))
    case Consumed(pid, id, at) =>
      && id in rows && rows[id].accepted == Some(at) && at < rows[id].expires
      && Looked(pid, id) in before && PasswordSet(pid, rows[id].user) in before
      && !ConsumedIn(before, id) && !SupersededIn(before, id, rows[id].org, rows[id].user)
    case Granted(pid, actor, org, user, role, Some(id), _) =>
      && id in rows && (rows[id].invitedBy, rows[id].org, rows[id].user, rows[id].role) == (actor, org, user, role)
      && ConsumedBy(before, pid, id) && !GrantedVia(before, id)
    case Created(id) => id in rows
    case _ => true
  }

  /** A row is pending exactly when it was neither consumed nor superseded. */
  ghost predicate RowOk(log: seq<Event>, id: string, row: Invite) {
    && Created(id) in log
    && (row.accepted.None? <==> !ConsumedIn(log, id) && !SupersededIn(log, id, row.org, row.user))
  }

  ghost predicate ProcOk(log: seq<Event>, rows: map<string, Invite>, pid: string, p: Proc) {
    match p
    case Found(id, inv, _) => id in rows && Same(inv, rows[id]) && Looked(pid, id) in log
    case PasswordDone(id, inv) =>
      id in rows && Same(inv, rows[id]) && Looked(pid, id) in log && PasswordSet(pid, inv.user) in log
    case Redeemed(id, inv) => id in rows && Same(inv, rows[id]) && ConsumedBy(log, pid, id) && !GrantedVia(log, id)
    case _ => true
  }

  ghost predicate Inv(s: State) {
    && (forall j :: 0 <= j < |s.log| ==> EventOk(s.log[..j], s.invites, s.log[j]))
    && (forall id :: id in s.invites ==> RowOk(s.log, id, s.invites[id]))
    && (forall pid :: pid in s.procs ==> ProcOk(s.log, s.invites, pid, s.procs[pid]))
  }

  // ---------- One step ----------

  lemma EventsKept(log: seq<Event>, rows: map<string, Invite>, rows': map<string, Invite>, j: nat)
    requires j < |log| && EventOk(log[..j], rows, log[j]) && RowsGrow(rows, rows')
    ensures EventOk(log[..j], rows', log[j])
  {
  }

  function NewLog(s: State, e: Effect): seq<Event> {
    if e.event.Some? then s.log + [e.event.value] else s.log
  }

  /** Another process's stage survives an effect that does not grant via the same invite. */
  lemma ProcKept(s: State, e: Effect, pid: string, q: string)
    requires Inv(s) && q in s.procs && RowsGrow(s.invites, e.invites)
    requires e.event.Some? && e.event.value.Granted? && e.event.value.via.Some? ==>
      ConsumedBy(s.log, pid, e.event.value.via.value)
    requires q != pid
    ensures ProcOk(NewLog(s, e), e.invites, q, s.procs[q])
  {
    var p := s.procs[q];
    if e.event.Some? && (p.Redeemed? || p.PasswordDone?) {
      SnocBy(s.log, e.event.value, q, p.id);
      if p.Redeemed? && e.event.value.Granted? && e.event.value.via == Some(p.id) {
        OneConsumer(s, pid, q, p.id);
      }
    }
  }

  lemma EarlierConsumed(log: seq<Event>, i: nat, j: nat)
    requires i < |log| && j < |log| && log[i].Consumed?
    ensures i < j ==> ConsumedIn(log[..j], log[i].id)
  {
    if i < j {
      assert log[..j][i] == log[i];
    }
  }

  lemma NotConsumedBefore(s: State, j: nat)
    requires Inv(s) && j < |s.log| && s.log[j].Consumed?
    ensures !ConsumedIn(s.log[..j], s.log[j].id)
  {
    assert EventOk(s.log[..j], s.invites, s.log[j]);
  }

  lemma OneConsumption(s: State, i: nat, j: nat)
    requires Inv(s) && i < |s.log| && j < |s.log|
    requires s.log[i].Consumed? && s.log[j].Consumed? && s.log[i].id == s.log[j].id
    ensures i == j
  {
    hide ConsumedIn, Inv;
    NotConsumedBefore(s, i);
    NotConsumedBefore(s, j);
    EarlierConsumed(s.log, i, j);
    EarlierConsumed(s.log, j, i);
  }

  /** No invite is consumed by two processes. */
  lemma OneConsumer(s: State, a: string, b: string, id: string)
    requires Inv(s) && ConsumedBy(s.log, a, id) && ConsumedBy(s.log, b, id)
    ensures a == b
  {
    hide Inv;
    var i :| 0 <= i < |s.log| && s.log[i].Consumed? && s.log[i].pid == a && s.log[i].id == id;
    var j :| 0 <= j < |s.log| && s.log[j].Consumed? && s.log[j].pid == b && s.log[j].id == id;
    OneConsumption(s, i, j);
  }

  /** What an effect must establish to keep the invariant. */
  ghost predicate GoodEffect(s: State, pid: string, e: Effect) {
    && RowsGrow(s.invites, e.invites)
    && (e.event.Some? ==> EventOk(s.log, e.invites, e.event.value))
    && (e.event.Some? && e.event.value.Granted? && e.event.value.via.Some? ==>
         ConsumedBy(s.log, pid, e.event.value.via.value))
    && (forall id :: id in e.invites ==> RowOk(NewLog(s, e), id, e.invites[id]))
    && ProcOk(NewLog(s, e), e.invites, pid, e.proc)
  }

  lemma ApplyKeepsInv(s: State, pid: string, e: Effect)
    requires Inv(s) && GoodEffect(s, pid, e)
    ensures Inv(Apply(s, pid, e))
  {
    hide EventOk, RowOk, ProcOk, RowsGrow;
    var s' := Apply(s, pid, e);
    forall j | 0 <= j < |s'.log|
      ensures EventOk(s'.log[..j], s'.invites, s'.log[j])
    {
      if j < |s.log| {
        assert s'.log[..j] == s.log[..j];
        EventsKept(s.log, s.invites, s'.invites, j);
      } else {
        assert s'.log[..j] == s.log;
      }
    }
    forall q | q in s'.procs
      ensures ProcOk(s'.log, s'.invites, q, s'.procs[q])
    {
      if q != pid {
        ProcKept(s, e, pid, q);
      }
    }
  }

  // ---------- Every command ----------

  predicate Quiet(e: Effect) {
    e.event.Some? ==> !e.event.value.Created? && !e.event.value.Superseded? && !e.event.value.Consumed?
  }

  /** Effects that touch no row and record nothing about rows keep every row's account. */
  lemma QuietRows(s: State, e: Effect)
    requires Inv(s) && Quiet(e) && e.invites == s.invites
    ensures RowsGrow(s.invites, e.invites)
    ensures forall id :: id in e.invites ==> RowOk(NewLog(s, e), id, e.invites[id])
  {
    forall id | id in e.invites
      ensures RowOk(NewLog(s, e), id, e.invites[id])
    {
      assert RowOk(s.log, id, s.invites[id]);
      if e.event.Some? {
        Snoc(s.log, e.event.value, id, s.invites[id].org, s.invites[id].user);
      }
    }
  }

  lemma ExpireGood(s: State, pid: string, r: Request, reply: Reply)
    requires Inv(s)
    ensures GoodEffect(s, pid, DoExpire(s, r, reply))
  {
    var e := DoExpire(s, r, reply);
    forall id | id in e.invites
      ensures RowOk(NewLog(s, e), id, e.invites[id])
    {
      assert RowOk(s.log, id, s.invites[id]);
      Snoc(s.log, Superseded(r.org, r.user), id, s.invites[id].org, s.invites[id].user);
    }
  }

  /** Every id in an event about rows is a row. */
  lemma KnownIds(s: State, id: string)
    requires Inv(s)
    ensures Created(id) in s.log ==> id in s.invites
    ensures ConsumedIn(s.log, id) ==> id in s.invites
    ensures forall org, user :: SupersededIn(s.log, id, org, user) ==> id in s.invites
  {
    if Created(id) in s.log {
      var j :| 0 <= j < |s.log| && s.log[j] == Created(id);
      assert EventOk(s.log[..j], s.invites, s.log[j]);
    }
    if ConsumedIn(s.log, id) {
      var j :| 0 <= j < |s.log| && s.log[j].Consumed? && s.log[j].id == id;
      assert EventOk(s.log[..j], s.invites, s.log[j]);
    }
    forall org, user
      ensures SupersededIn(s.log, id, org, user) ==> Created(id) in s.log
    {
      if SupersededIn(s.log, id, org, user) {
        var j :| 0 <= j < |s.log| && s.log[j] == Superseded(org, user) && Created(id) in s.log[..j];
      }
    }
  }

  lemma InsertGood(s: State, pid: string, r: Request, id: string, ttl: nat, reply: Reply)
    requires Inv(s) && id !in s.invites
    ensures GoodEffect(s, pid, DoInsert(s, r, id, ttl, reply))
  {
    var e := DoInsert(s, r, id, ttl, reply);
    KnownIds(s, id);
    forall x | x in e.invites
      ensures RowOk(NewLog(s, e), x, e.invites[x])
    {
      Snoc(s.log, Created(id), x, e.invites[x].org, e.invites[x].user);
      if x != id {
        assert RowOk(s.log, x, s.invites[x]);
      }
    }
  }

  lemma GrantedWasConsumed(s: State, id: string)
    requires Inv(s)
    ensures GrantedVia(s.log, id) ==> ConsumedIn(s.log, id)
  {
    if GrantedVia(s.log, id) {
      var j :| 0 <= j < |s.log| && s.log[j].Granted? && s.log[j].via == Some(id);
      assert EventOk(s.log[..j], s.invites, s.log[j]);
      var i :| 0 <= i < j && s.log[i].Consumed? && s.log[i].id == id;
      assert ConsumedIn(s.log, id);
    }
  }

  lemma ConsumeRows(s: State, pid: string, id: string)
    requires Inv(s) && Consumable(s.invites, id, s.now)
    ensures var rows := Consume(s.invites, id, s.now);
      && RowsGrow(s.invites, rows)
      && forall x :: x in rows ==> RowOk(s.log + [Consumed(pid, id, s.now)], x, rows[x])
  {
    hide ConsumedIn, SupersededIn;
    var rows, ev := Consume(s.invites, id, s.now), Consumed(pid, id, s.now);
    forall x | x in rows
      ensures RowOk(s.log + [ev], x, rows[x])
    {
      assert RowOk(s.log, x, s.invites[x]);
      Snoc(s.log, ev, x, s.invites[x].org, s.invites[x].user);
    }
  }

  lemma LookGood(s: State, pid: string, id: string, password: string, answered: bool)
    requires Inv(s)
    ensures GoodEffect(s, pid, DoLook(s, pid, id, password, answered))
  {
    hide ConsumedIn, SupersededIn;
    var e := DoLook(s, pid, id, password, answered);
    QuietRows(s, e);
    if e.event.Some? {
      assert RowOk(s.log, id, s.invites[id]);
      assert Looked(pid, id) in s.log + [Looked(pid, id)];
    }
  }

  lemma MissGood(s: State, pid: string, id: string, inv: Invite, reply: Reply)
    requires Inv(s) && ProcOk(s.log, s.invites, pid, PasswordDone(id, inv))
    requires reply == Refused || !Consumable(s.invites, id, s.now)
    ensures GoodEffect(s, pid, DoRedeem(s, pid, id, reply))
  {
    hide RowsGrow, ConsumedIn, SupersededIn, ConsumedBy, GrantedVia;
    QuietRows(s, DoRedeem(s, pid, id, reply));
    assert RowOk(s.log, id, s.invites[id]);
  }

  lemma RedeemGood(s: State, pid: string, id: string, inv: Invite, reply: Reply)
    requires Inv(s) && ProcOk(s.log, s.invites, pid, PasswordDone(id, inv))
    ensures GoodEffect(s, pid, DoRedeem(s, pid, id, reply))
  {
    hide RowsGrow, ConsumedIn, SupersededIn, ConsumedBy, GrantedVia;
    if reply != Refused && Consumable(s.invites, id, s.now) {
      assert RowOk(s.log, id, s.invites[id]);
      ConsumeRows(s, pid, id);
      GrantedWasConsumed(s, id);
      SnocBy(s.log, Consumed(pid, id, s.now), pid, id);
    } else {
      hide GoodEffect, Inv, ProcOk;
      MissGood(s, pid, id, inv, reply);
    }
  }

  lemma JoinGood(s: State, pid: string, id: string, inv: Invite, reply: Reply)
    requires Inv(s) && ProcOk(s.log, s.invites, pid, Redeemed(id, inv))
    ensures GoodEffect(s, pid, DoJoin(s, pid, id, inv, reply))
  {
    QuietRows(s, DoJoin(s, pid, id, inv, reply));
  }

  lemma SetPasswordGood(s: State, pid: string, id: string, inv: Invite, password: string, reply: Reply)
    requires Inv(s) && ProcOk(s.log, s.invites, pid, Found(id, inv, password))
    ensures GoodEffect(s, pid, DoSetPassword(s, pid, id, inv, password, reply))
  {
    var e := DoSetPassword(s, pid, id, inv, password, reply);
    QuietRows(s, e);
    assert PasswordSet(pid, inv.user) in s.log + [PasswordSet(pid, inv.user)];
  }

  /** The remaining commands leave rows alone and reach stages that promise nothing. */
  lemma PlainGood(s: State, pid: string, e: Effect)
    requires Inv(s) && Quiet(e) && e.invites == s.invites
    requires e.event.Some? && e.event.value.Granted? ==> e.event.value.via.None?
    requires e.event.Some? ==> !e.event.value.Looked? && !e.event.value.Missed?
    requires !e.proc.Found? && !e.proc.PasswordDone? && !e.proc.Redeemed?
    ensures GoodEffect(s, pid, e)
  {
    QuietRows(s, e);
  }

  lemma CommandGood(s: State, pid: string, cmd: Command)
    requires Inv(s) && Act(s, pid, cmd).Some?
    ensures GoodEffect(s, pid, Act(s, pid, cmd).value)
  {
    hide GoodEffect, ProcOk, EventOk, RowOk, DoExpire, DoInsert, DoLook, DoRedeem, DoJoin, DoSetPassword;
    match cmd
    case Expire(reply) => ExpireGood(s, pid, s.procs[pid].req, reply);
    case Insert(id, ttl, reply) => InsertGood(s, pid, s.procs[pid].req, id, ttl, reply);
    case SetPassword(reply) =>
      SetPasswordGood(s, pid, s.procs[pid].id, s.procs[pid].inv, s.procs[pid].password, reply);
    case Look(id, password, answered) => LookGood(s, pid, id, password, answered);
    case Redeem(reply) => RedeemGood(s, pid, s.procs[pid].id, s.procs[pid].inv, reply);
    case Join(reply) => JoinGood(s, pid, s.procs[pid].id, s.procs[pid].inv, reply);
    case _ => PlainGood(s, pid, Act(s, pid, cmd).value);
  }

  lemma NextKeepsInv(s: State, step: Step)
    requires Inv(s)
    ensures Inv(Next(s, step))
    ensures RowsGrow(s.invites, Next(s, step).invites)
  {
    hide Act, Inv;
    match step
    case Do(pid, cmd) =>
      if Act(s, pid, cmd).Some? {
        CommandGood(s, pid, cmd);
        ApplyKeepsInv(s, pid, Act(s, pid, cmd).value);
      }
    case _ => TablesOnly(s, Next(s, step));
  }

  lemma TablesOnly(s: State, s': State)
    requires Inv(s) && s'.invites == s.invites && s'.procs == s.procs && s'.log == s.log
    ensures Inv(s')
  {
  }

  lemma {:induction false} RunKeepsInv(s: State, steps: seq<Step>)
    requires Initial(s)
    ensures Inv(Exec(s, steps))
  {
    hide Next;
    if steps != [] {
      RunKeepsInv(s, steps[..|steps| - 1]);
      NextKeepsInv(Exec(s, steps[..|steps| - 1]), steps[|steps| - 1]);
    }
  }

  // ---------- Safety over every run ----------

  lemma RowsGrowTransitive(a: map<string, Invite>, b: map<string, Invite>, c: map<string, Invite>)
    requires RowsGrow(a, b) && RowsGrow(b, c)
    ensures RowsGrow(a, c)
  {
    forall id | id in a
      ensures id in c && Same(a[id], c[id]) && (a[id].accepted.Some? ==> c[id] == a[id])
    {
      assert id in b;
    }
  }

  /** However a run goes on, an invite row never disappears or changes in anything but its
      acceptance, and an acceptance time once written is never written again. */
  lemma {:induction false} AcceptanceIsWriteOnce(s: State, steps: seq<Step>, more: seq<Step>)
    requires Initial(s)
    ensures RowsGrow(Exec(s, steps).invites, Exec(s, steps + more).invites)
  {
    hide Next, Inv;
    if more == [] {
      assert steps + more == steps;
    } else {
      var init, last := more[..|more| - 1], more[|more| - 1];
      var all := steps + more;
      assert all[..|all| - 1] == steps + init && all[|all| - 1] == last;
      AcceptanceIsWriteOnce(s, steps, init);
      RunKeepsInv(s, steps + init);
      NextKeepsInv(Exec(s, steps + init), last);
      RowsGrowTransitive(Exec(s, steps).invites, Exec(s, steps + init).invites, Exec(s, all).invites);
    }
  }

  /** Each invite is consumed at most once; when it is, the same accept had set the user's
      password before, the invite had not expired, and no re-invite of the pair had
      superseded it, whatever the accept had read earlier. */
  lemma ConsumptionIsSafe(s: State, steps: seq<Step>, j: nat)
    requires Initial(s) && j < |Exec(s, steps).log| && Exec(s, steps).log[j].Consumed?
    ensures var t := Exec(s, steps); var e := t.log[j];
      && e.id in t.invites
      && t.invites[e.id].accepted == Some(e.at) && e.at < t.invites[e.id].expires
      && PasswordSet(e.pid, t.invites[e.id].user) in t.log[..j]
      && !SupersededIn(t.log[..j], e.id, t.invites[e.id].org, t.invites[e.id].user)
      && forall i :: 0 <= i < |t.log| && t.log[i].Consumed? && t.log[i].id == e.id ==> i == j
  {
    hide Exec, SupersededIn;
    var t := Exec(s, steps);
    RunKeepsInv(s, steps);
    assert EventOk(t.log[..j], t.invites, t.log[j]);
    forall i | 0 <= i < |t.log| && t.log[i].Consumed? && t.log[i].id == t.log[j].id
      ensures i == j
    {
      OneConsumption(t, i, j);
    }
  }

  /** Every membership written by an accept is that of the one invite this accept consumed:
      its organization, user and role, and no other accept writes it. */
  lemma RedemptionIsFaithful(s: State, steps: seq<Step>, j: nat)
    requires Initial(s) && j < |Exec(s, steps).log|
    requires Exec(s, steps).log[j].Granted? && Exec(s, steps).log[j].via.Some?
    ensures var t := Exec(s, steps); var e := t.log[j]; var id := e.via.value;
      && id in t.invites
      && (e.org, e.user, e.role) == (t.invites[id].org, t.invites[id].user, t.invites[id].role)
      && ConsumedBy(t.log[..j], e.pid, id)
      && !GrantedVia(t.log[..j], id)
  {
    hide Exec;
    RunKeepsInv(s, steps);
    assert EventOk(Exec(s, steps).log[..j], Exec(s, steps).invites, Exec(s, steps).log[j]);
  }

  /** An invite is redeemable-but-for-time exactly when the history neither consumed it nor
      burnt its pair after it was created: in particular two creates whose burns both
      precede both inserts leave two pending links. */
  lemma PendingIff(s: State, steps: seq<Step>, id: string)
    requires Initial(s) && id in Exec(s, steps).invites
    ensures var t := Exec(s, steps); var row := t.invites[id];
      row.accepted.None? <==> !ConsumedIn(t.log, id) && !SupersededIn(t.log, id, row.org, row.user)
  {
    hide Exec;
    RunKeepsInv(s, steps);
    assert RowOk(Exec(s, steps).log, id, Exec(s, steps).invites[id]);
  }
}
