/** Who can write memberships and invites, over every run of the grant protocol: each of them
    goes back to a state in which its author held the role it takes. */
module GrantProvenance {
  import opened Replies
  import opened Text
  import opened Invites
  import OwnerProvenance

  // ---------- What the author was ----------

  /** A platform admin, or an owner or admin of the organization. */
  predicate Manages(s: State, actor: string, org: string) {
    actor in s.admins ||
    ((org, actor) in s.roles && (s.roles[(org, actor)] == Owner || s.roles[(org, actor)] == Admin))
  }

  /** A member of the organization, an owner to give away owner, an owner or admin to give away
      admin. */
  predicate HoldsFor(s: State, actor: string, org: string, given: Role) {
    (org, actor) in s.roles &&
    match given
    case Owner => s.roles[(org, actor)] == Owner
    case Admin => s.roles[(org, actor)] == Owner || s.roles[(org, actor)] == Admin
    case Member => true
  }

  function Managing(actor: string, org: string): State -> bool {
    (s: State) => Manages(s, actor, org)
  }

  function Holding(actor: string, org: string, given: Role): State -> bool {
    (s: State) => HoldsFor(s, actor, org, given)
  }

  function Administering(actor: string): State -> bool {
    (s: State) => actor in s.admins
  }

  /** It was so in some state of the run, before the log grew beyond `bound` events. */
  ghost predicate Was(s: State, steps: seq<Step>, q: State -> bool, bound: nat) {
    exists k :: 0 <= k <= |steps| && |Exec(s, steps[..k]).log| <= bound && q(Exec(s, steps[..k]))
  }

  lemma IsNow(s: State, steps: seq<Step>, q: State -> bool)
    requires q(Exec(s, steps))
    ensures Was(s, steps, q, |Exec(s, steps).log|)
  {
    assert steps[..|steps|] == steps;
  }

  lemma WasGrows(s: State, steps: seq<Step>, step: Step, q: State -> bool, bound: nat, later: nat)
    requires Was(s, steps, q, bound) && bound <= later
    ensures Was(s, steps + [step], q, later)
  {
    hide Exec;
    var k :| 0 <= k <= |steps| && |Exec(s, steps[..k]).log| <= bound && q(Exec(s, steps[..k]));
    assert (steps + [step])[..k] == steps[..k];
  }

  lemma AdminManages(s: State, steps: seq<Step>, actor: string, org: string, bound: nat)
    requires Was(s, steps, Administering(actor), bound)
    ensures Was(s, steps, Managing(actor, org), bound)
  {
    hide Exec;
    var k :| 0 <= k <= |steps| && |Exec(s, steps[..k]).log| <= bound
      && Administering(actor)(Exec(s, steps[..k]));
    assert Managing(actor, org)(Exec(s, steps[..k]));
  }

  // ---------- What stands behind a stage ----------

  /** A request that passed its checks. */
  ghost predicate Passed(s: State, steps: seq<Step>, r: Request, bound: nat) {
    && Was(s, steps, Managing(r.actor, r.org), bound)
    && (r.kind == ByAdd ==> Was(s, steps, Holding(r.actor, r.org, r.role), bound))
  }

  ghost predicate Issued(s: State, steps: seq<Step>, inv: Invite, bound: nat) {
    Was(s, steps, Managing(inv.invitedBy, inv.org), bound)
  }

  ghost predicate ProcBacked(s: State, steps: seq<Step>, p: Proc, bound: nat) {
    match p
    case Started(r, isAdmin) => isAdmin ==> Was(s, steps, Administering(r.actor), bound)
    case Admitted(r, isAdmin) => Was(s, steps, Managing(r.actor, r.org), bound)
    case Cleared(r) => Passed(s, steps, r, bound)
    case Unaffiliated(r) => Passed(s, steps, r, bound)
    case Burnt(r) => Passed(s, steps, r, bound)
    case Found(_, inv, _) => Issued(s, steps, inv, bound)
    case PasswordDone(_, inv) => Issued(s, steps, inv, bound)
    case Redeemed(_, inv) => Issued(s, steps, inv, bound)
    case Done(_) => true
  }

  ghost predicate RowsBacked(s: State, steps: seq<Step>, rows: map<string, Invite>, bound: nat) {
    forall id :: id in rows ==> Issued(s, steps, rows[id], bound)
  }

  ghost predicate EventBacked(s: State, steps: seq<Step>, rows: map<string, Invite>, e: Event, bound: nat) {
    && (e.Granted? ==> Was(s, steps, Managing(e.actor, e.org), bound))
    && (e.Created? ==> e.id in rows && Issued(s, steps, rows[e.id], bound))
  }

  ghost predicate Backed(s: State, steps: seq<Step>) {
    var t := Exec(s, steps);
    && (forall pid :: pid in t.procs ==> ProcBacked(s, steps, t.procs[pid], |t.log|))
    && RowsBacked(s, steps, t.invites, |t.log|)
    && (forall j :: 0 <= j < |t.log| ==> EventBacked(s, steps, t.invites, t.log[j], j))
  }

  // ---------- One command ----------

  /** What a command leaves, judged by the run before it. */
  ghost predicate EffectBacked(s: State, steps: seq<Step>, e: Effect) {
    var n := |Exec(s, steps).log|;
    && ProcBacked(s, steps, e.proc, n) && RowsBacked(s, steps, e.invites, n)
    && (e.event.Some? ==> EventBacked(s, steps, e.invites, e.event.value, n))
  }

  /** Rows already there keep their author and organization. */
  predicate RowsKept(rows: map<string, Invite>, rows': map<string, Invite>) {
    forall id :: id in rows ==>
      id in rows' && rows'[id].invitedBy == rows[id].invitedBy && rows'[id].org == rows[id].org
  }

  lemma CommandKeepsRows(s: State, pid: string, cmd: Command)
    requires Act(s, pid, cmd).Some?
    ensures RowsKept(s.invites, Act(s, pid, cmd).value.invites)
  {
  }

  lemma RequireBacked(s: State, steps: seq<Step>, r: Request, isAdmin: bool, answered: bool)
    requires ProcBacked(s, steps, Started(r, isAdmin), |Exec(s, steps).log|)
    ensures ProcBacked(s, steps, DoRequire(Exec(s, steps), r, isAdmin, answered).proc, |Exec(s, steps).log|)
  {
    hide Exec, Was;
    var t := Exec(s, steps);
    if isAdmin {
      AdminManages(s, steps, r.actor, r.org, |t.log|);
    } else if r.kind != ByAdmin && MayAct(t, r, isAdmin, answered) {
      assert Managing(r.actor, r.org)(t);
      IsNow(s, steps, Managing(r.actor, r.org));
    }
  }

  lemma StartBacked(s: State, steps: seq<Step>, r: Request)
    ensures ProcBacked(s, steps, DoStart(Exec(s, steps), r).proc, |Exec(s, steps).log|)
  {
    hide Exec, Was;
    if r.actor in Exec(s, steps).admins {
      assert Administering(r.actor)(Exec(s, steps));
      IsNow(s, steps, Administering(r.actor));
    }
  }

  lemma CheckOwnerBacked(s: State, steps: seq<Step>, r: Request, isAdmin: bool, answered: bool)
    requires ProcBacked(s, steps, Admitted(r, isAdmin), |Exec(s, steps).log|)
    ensures ProcBacked(s, steps, DoCheckOwner(Exec(s, steps), r, isAdmin, answered).proc, |Exec(s, steps).log|)
  {
    hide Exec, Was;
    var t := Exec(s, steps);
    if r.kind == ByAdd && MayGrant(t, r, isAdmin, answered) {
      assert Holding(r.actor, r.org, r.role)(t);
      IsNow(s, steps, Holding(r.actor, r.org, r.role));
    }
  }

  lemma CommandProc(s: State, steps: seq<Step>, pid: string, cmd: Command)
    requires Backed(s, steps) && Act(Exec(s, steps), pid, cmd).Some?
    ensures ProcBacked(s, steps, Act(Exec(s, steps), pid, cmd).value.proc, |Exec(s, steps).log|)
  {
    hide Exec, Was, EventBacked, Burn, DoStart, DoRequire, DoCheckOwner, Passed, Apply, Next;
    var t := Exec(s, steps);
    match cmd
    case Start(r) => StartBacked(s, steps, r);
    case Require(answered) => RequireBacked(s, steps, t.procs[pid].req, t.procs[pid].isAdmin, answered);
    case CheckOwner(answered) => CheckOwnerBacked(s, steps, t.procs[pid].req, t.procs[pid].isAdmin, answered);
    case _ =>
  }

  lemma CommandRows(s: State, steps: seq<Step>, pid: string, cmd: Command)
    requires Backed(s, steps) && Act(Exec(s, steps), pid, cmd).Some?
    ensures RowsBacked(s, steps, Act(Exec(s, steps), pid, cmd).value.invites, |Exec(s, steps).log|)
  {
    hide Exec, Was, EventBacked;
    var t := Exec(s, steps);
    if cmd.Insert? {
      assert ProcBacked(s, steps, t.procs[pid], |t.log|);
    } else {
      OwnerProvenance.CommandRows(t, pid, cmd);
    }
  }

  lemma CommandEvent(s: State, steps: seq<Step>, pid: string, cmd: Command)
    requires Backed(s, steps) && Act(Exec(s, steps), pid, cmd).Some?
    requires RowsBacked(s, steps, Act(Exec(s, steps), pid, cmd).value.invites, |Exec(s, steps).log|)
    ensures var e := Act(Exec(s, steps), pid, cmd).value;
      e.event.Some? ==> EventBacked(s, steps, e.invites, e.event.value, |Exec(s, steps).log|)
  {
    hide Exec, Was;
    var t := Exec(s, steps);
    if pid in t.procs {
      assert ProcBacked(s, steps, t.procs[pid], |t.log|);
    }
  }

  lemma CommandBacked(s: State, steps: seq<Step>, pid: string, cmd: Command)
    requires Backed(s, steps) && Act(Exec(s, steps), pid, cmd).Some?
    ensures EffectBacked(s, steps, Act(Exec(s, steps), pid, cmd).value)
  {
    hide Exec, Act, Backed, RowsBacked, ProcBacked, EventBacked;
    CommandProc(s, steps, pid, cmd);
    CommandRows(s, steps, pid, cmd);
    CommandEvent(s, steps, pid, cmd);
  }

  // ---------- Over runs ----------

  lemma ProcGrows(s: State, steps: seq<Step>, step: Step, p: Proc, bound: nat, later: nat)
    requires ProcBacked(s, steps, p, bound) && bound <= later
    ensures ProcBacked(s, steps + [step], p, later)
  {
    hide Was;
    match p
    case Started(r, isAdmin) =>
      if isAdmin {
        WasGrows(s, steps, step, Administering(r.actor), bound, later);
      }
    case Admitted(r, _) => WasGrows(s, steps, step, Managing(r.actor, r.org), bound, later);
    case Cleared(r) => PassedGrows(s, steps, step, r, bound, later);
    case Unaffiliated(r) => PassedGrows(s, steps, step, r, bound, later);
    case Burnt(r) => PassedGrows(s, steps, step, r, bound, later);
    case Found(_, inv, _) => WasGrows(s, steps, step, Managing(inv.invitedBy, inv.org), bound, later);
    case PasswordDone(_, inv) => WasGrows(s, steps, step, Managing(inv.invitedBy, inv.org), bound, later);
    case Redeemed(_, inv) => WasGrows(s, steps, step, Managing(inv.invitedBy, inv.org), bound, later);
    case Done(_) =>
  }

  lemma PassedGrows(s: State, steps: seq<Step>, step: Step, r: Request, bound: nat, later: nat)
    requires Passed(s, steps, r, bound) && bound <= later
    ensures Passed(s, steps + [step], r, later)
  {
    hide Was;
    WasGrows(s, steps, step, Managing(r.actor, r.org), bound, later);
    if r.kind == ByAdd {
      WasGrows(s, steps, step, Holding(r.actor, r.org, r.role), bound, later);
    }
  }

  lemma RowsGrow(s: State, steps: seq<Step>, step: Step, rows: map<string, Invite>, bound: nat, later: nat)
    requires RowsBacked(s, steps, rows, bound) && bound <= later
    ensures RowsBacked(s, steps + [step], rows, later)
  {
    hide Was;
    forall id | id in rows
      ensures Issued(s, steps + [step], rows[id], later)
    {
      assert Issued(s, steps, rows[id], bound);
      WasGrows(s, steps, step, Managing(rows[id].invitedBy, rows[id].org), bound, later);
    }
  }

  lemma EventGrows(s: State, steps: seq<Step>, step: Step, rows: map<string, Invite>, rows': map<string, Invite>,
      e: Event, bound: nat)
    requires EventBacked(s, steps, rows, e, bound) && RowsKept(rows, rows')
    ensures EventBacked(s, steps + [step], rows', e, bound)
  {
    hide Was;
    if e.Granted? {
      WasGrows(s, steps, step, Managing(e.actor, e.org), bound, bound);
    }
    if e.Created? {
      WasGrows(s, steps, step, Managing(rows[e.id].invitedBy, rows[e.id].org), bound, bound);
    }
  }

  /** A step that leaves stages, rows and log alone. */
  lemma QuietKeeps(s: State, steps: seq<Step>, step: Step)
    requires Backed(s, steps)
    requires var t, u := Exec(s, steps), Exec(s, steps + [step]);
      u.procs == t.procs && u.invites == t.invites && u.log == t.log
    ensures Backed(s, steps + [step])
  {
    hide Exec, ProcBacked, RowsBacked, EventBacked;
    var t := Exec(s, steps);
    var n := |t.log|;
    forall pid | pid in t.procs
      ensures ProcBacked(s, steps + [step], t.procs[pid], n)
    {
      ProcGrows(s, steps, step, t.procs[pid], n, n);
    }
    RowsGrow(s, steps, step, t.invites, n, n);
    forall j | 0 <= j < n
      ensures EventBacked(s, steps + [step], t.invites, t.log[j], j)
    {
      EventGrows(s, steps, step, t.invites, t.invites, t.log[j], j);
    }
  }

  lemma CommandKeeps(s: State, steps: seq<Step>, pid: string, cmd: Command)
    requires Backed(s, steps) && Act(Exec(s, steps), pid, cmd).Some?
    ensures Backed(s, steps + [Do(pid, cmd)])
  {
    hide Exec, Act, ProcBacked, RowsBacked, EventBacked, RowsKept;
    var t, step := Exec(s, steps), Do(pid, cmd);
    var e := Act(t, pid, cmd).value;
    ExecSnoc(s, steps, step);
    var u := Exec(s, steps + [step]);
    assert u == Apply(t, pid, e);
    CommandBacked(s, steps, pid, cmd);
    CommandKeepsRows(t, pid, cmd);
    var n, m := |t.log|, |u.log|;
    forall q | q in u.procs
      ensures ProcBacked(s, steps + [step], u.procs[q], m)
    {
      ProcGrows(s, steps, step, u.procs[q], n, m);
    }
    RowsGrow(s, steps, step, e.invites, n, m);
    SameRows(e.invites);
    forall j | 0 <= j < m
      ensures EventBacked(s, steps + [step], u.invites, u.log[j], j)
    {
      if j < n {
        EventGrows(s, steps, step, t.invites, e.invites, t.log[j], j);
      } else {
        EventGrows(s, steps, step, e.invites, e.invites, e.event.value, n);
      }
    }
  }

  lemma SameRows(rows: map<string, Invite>)
    ensures RowsKept(rows, rows)
  {
  }

  lemma NextKeeps(s: State, steps: seq<Step>, step: Step)
    requires Backed(s, steps)
    ensures Backed(s, steps + [step])
  {
    hide Exec, Act, Backed;
    ExecSnoc(s, steps, step);
    if step.Do? && Act(Exec(s, steps), step.pid, step.cmd).Some? {
      CommandKeeps(s, steps, step.pid, step.cmd);
    } else {
      QuietKeeps(s, steps, step);
    }
  }

  lemma {:induction false} RunIsBacked(s: State, steps: seq<Step>)
    requires Initial(s)
    ensures Backed(s, steps)
  {
    hide Next, ProcBacked, EventBacked;
    if steps != [] {
      var init, last := steps[..|steps| - 1], steps[|steps| - 1];
      RunIsBacked(s, init);
      NextKeeps(s, init, last);
      assert steps == init + [last];
    }
  }

  /** The process carries an invite request, not yet ended. */
  predicate Inviting(p: Proc) {
    match p
    case Started(r, _) => r.kind == ByInvite
    case Admitted(r, _) => r.kind == ByInvite
    case Cleared(r) => r.kind == ByInvite
    case Unaffiliated(r) => r.kind == ByInvite
    case Burnt(r) => r.kind == ByInvite
    case _ => false
  }

  /** Inviting writes no role, and ends or goes on as an invite request. */
  lemma InvitingWritesNoRole(s: State, pid: string, cmd: Command)
    requires pid in s.procs && Inviting(s.procs[pid])
    ensures var t := Next(s, Do(pid, cmd));
      t.roles == s.roles && pid in t.procs && (t.procs[pid].Done? || Inviting(t.procs[pid]))
  {
    hide Burn, MayAct, MayGrant;
  }

  // ---------- Who can give what ----------

  /** In every run every role written, by any handler and however much later an invite is
      redeemed, was preceded by a state in which its author, for an invite the user who issued
      it, was a platform admin or an owner or admin of that organization. */
  lemma EveryGrantWasManaged(s: State, steps: seq<Step>, j: nat)
    requires Initial(s) && j < |Exec(s, steps).log| && Exec(s, steps).log[j].Granted?
    ensures var e := Exec(s, steps).log[j]; Was(s, steps, Managing(e.actor, e.org), j)
  {
    hide Exec, Was;
    RunIsBacked(s, steps);
    assert EventBacked(s, steps, Exec(s, steps).invites, Exec(s, steps).log[j], j);
  }

  /** So was every invite. */
  lemma EveryInviteWasManaged(s: State, steps: seq<Step>, j: nat)
    requires Initial(s) && j < |Exec(s, steps).log| && Exec(s, steps).log[j].Created?
    ensures var t := Exec(s, steps); var id := t.log[j].id;
      id in t.invites && Was(s, steps, Managing(t.invites[id].invitedBy, t.invites[id].org), j)
  {
    hide Exec, Was;
    RunIsBacked(s, steps);
    assert EventBacked(s, steps, Exec(s, steps).invites, Exec(s, steps).log[j], j);
  }

  /** When a member-add comes to its write, its author was in an earlier state a member of the
      organization with at least the role given away; being a platform admin does not do. */
  lemma MemberAddGivesOwnRole(s: State, steps: seq<Step>, pid: string, r: Request)
    requires Initial(s) && pid in Exec(s, steps).procs && Exec(s, steps).procs[pid] == Cleared(r)
    requires r.kind == ByAdd
    ensures Was(s, steps, Holding(r.actor, r.org, r.role), |Exec(s, steps).log|)
  {
    hide Exec, Was;
    RunIsBacked(s, steps);
    assert ProcBacked(s, steps, Exec(s, steps).procs[pid], |Exec(s, steps).log|);
  }
}
