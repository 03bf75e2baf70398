/** Invitations and role grants as they interleave: every handler that writes a membership
    is a process taking one database statement or external call at a time
    (internal/httpapi/invite_handlers.go, identity_handlers.go, onboard_handlers.go,
    setup_handlers.go; internal/store/invites.go). */
module Invites {
  import opened Replies
  import opened Text

  // ---------- Roles ----------

  datatype Role = Owner | Admin | Member

  function Rank(r: Role): nat {
    match r
    case Owner => 3
    case Admin => 2
    case Member => 1
  }

  predicate CanManage(r: Role, required: Role) {
    Rank(r) >= Rank(required)
  }

  // ---------- Invite rows and their guarded updates ----------

  datatype Invite = Invite(
    org: string, user: string, role: Role, invitedBy: string, expires: int, accepted: Option<int>)

  /** Every unconsumed invite of the pair is burnt. */
  function Burn(rows: map<string, Invite>, org: string, user: string, now: int): map<string, Invite> {
    map id | id in rows ::
      if rows[id].org == org && rows[id].user == user && rows[id].accepted.None?
      then rows[id].(accepted := Some(now)) else rows[id]
  }

  /** The row a consumption would accept. */
  predicate Consumable(rows: map<string, Invite>, id: string, now: int) {
    id in rows && rows[id].accepted.None? && rows[id].expires > now
  }

  function Consume(rows: map<string, Invite>, id: string, now: int): map<string, Invite> {
    if Consumable(rows, id, now) then rows[id := rows[id].(accepted := Some(now))] else rows
  }

  // ---------- Processes ----------

  /** Which handler asks for the grant. `ByAdmin` covers user creation and the setup wizard. */
  datatype Kind = ByInvite | ByOnboard | ByAdd | ByAdmin

  datatype Request = Request(kind: Kind, actor: string, org: string, user: string, role: Role)

  datatype Outcome = Ok | Forbidden | Conflict | Invalid | Failed

  datatype Proc =
    | Started(req: Request, isAdmin: bool)
    | Admitted(req: Request, isAdmin: bool)
    | Cleared(req: Request)
    | Unaffiliated(req: Request)
    | Burnt(req: Request)
    | Found(id: string, inv: Invite, password: string)
    | PasswordDone(id: string, inv: Invite)
    | Redeemed(id: string, inv: Invite)
    | Done(outcome: Outcome)

  datatype Event =
    | SawAdmin(actor: string)
    | SawOwner(actor: string, org: string)
    | Created(id: string)
    | Superseded(org: string, user: string)
    | Looked(pid: string, id: string)
    | PasswordSet(pid: string, user: string)
    | Consumed(pid: string, id: string, at: int)
    | Missed(pid: string, id: string, at: int)
    | Granted(pid: string, actor: string, org: string, user: string, role: Role, via: Option<string>, answered: bool)

  datatype State = State(
    now: int,
    admins: set<string>,
    roles: map<(string, string), Role>,
    invites: map<string, Invite>,
    passwords: map<string, string>,
    procs: map<string, Proc>,
    log: seq<Event>)

  /** What a process does next, with everything the environment decides: whether a query was
      answered, how a statement ended. */
  datatype Command =
    | Start(req: Request)
    | Require(answered: bool)
    | CheckOwner(answered: bool)
    | Grant(reply: Reply)
    | CheckMember(answered: bool)
    | Expire(reply: Reply)
    | Insert(id: string, ttl: nat, reply: Reply)
    | Look(id: string, password: string, answered: bool)
    | SetPassword(reply: Reply)
    | Redeem(reply: Reply)
    | Join(reply: Reply)
    | Abort

  datatype Step =
    | Do(pid: string, cmd: Command)
    | Tick(d: nat)
    | SetAdmin(user: string, admin: bool)
    | RemoveMember(org: string, user: string)

  /** What one command leaves behind: the process's next stage, at most one event, and
      the tables. */
  datatype Effect = Effect(
    proc: Proc, event: Option<Event>,
    roles: map<(string, string), Role>, invites: map<string, Invite>, passwords: map<string, string>)

  function Stage(s: State, p: Proc): Effect {
    Effect(p, None, s.roles, s.invites, s.passwords)
  }

  function RoleOf(s: State, org: string, user: string): Option<Role> {
    if (org, user) in s.roles then Some(s.roles[(org, user)]) else None
  }

  /** The session is loaded: the platform-admin flag is read once, here. */
  function DoStart(s: State, req: Request): Effect {
    var isAdmin := req.actor in s.admins;
    Stage(s, Started(req, isAdmin)).(event := if isAdmin then Some(SawAdmin(req.actor)) else None)
  }

  /** What the role query says, when it is answered. */
  function Seen(s: State, req: Request, answered: bool): Option<Role> {
    if answered then RoleOf(s, req.org, req.actor) else None
  }

  /** Passes requireOrgRole(admin); a platform admin's role is not queried. */
  predicate MayAct(s: State, req: Request, isAdmin: bool, answered: bool) {
    isAdmin || (Seen(s, req, answered).Some? && CanManage(Seen(s, req, answered).value, Admin))
  }

  /** requireOrgRole(admin), and the platform-admin test of the admin-only handlers. */
  function DoRequire(s: State, req: Request, isAdmin: bool, answered: bool): Effect {
    if req.kind == ByAdmin then Stage(s, if isAdmin then Cleared(req) else Done(Forbidden))
    else if MayAct(s, req, isAdmin, answered) then Stage(s, Admitted(req, isAdmin))
    else Stage(s, Done(if answered then Forbidden else Failed))
  }

  /** Passes the owner rule. Adding a member always reads the actor's role and ignores the
      platform-admin flag; the other handlers read it only for an owner grant when the flag is
      off. */
  predicate MayGrant(s: State, req: Request, isAdmin: bool, answered: bool) {
    var role := Seen(s, req, answered);
    if req.kind == ByAdd then role.Some? && CanManage(role.value, req.role)
    else req.role != Owner || isAdmin || (role.Some? && CanManage(role.value, Owner))
  }

  function DoCheckOwner(s: State, req: Request, isAdmin: bool, answered: bool): Effect {
    var role := Seen(s, req, answered);
    if !MayGrant(s, req, isAdmin, answered) then
      Stage(s, Done(if req.kind == ByAdd && role.None? then Failed else Forbidden))
    else
      var read := req.kind == ByAdd || (req.role == Owner && !isAdmin);
      Stage(s, Cleared(req)).(
        event := if read && role == Some(Owner) then Some(SawOwner(req.actor, req.org)) else None)
  }

  function DoGrant(s: State, pid: string, r: Request, reply: Reply): Effect {
    if reply == Refused then Stage(s, Done(Failed))
    else
      Stage(s, Done(if reply == Applied then Ok else Failed)).(
        roles := s.roles[(r.org, r.user) := r.role],
        event := Some(Granted(pid, r.actor, r.org, r.user, r.role, None, reply == Applied)))
  }

  /** Any answer but a membership, an error included, is taken for none. */
  function DoCheckMember(s: State, r: Request, answered: bool): Effect {
    Stage(s, if answered && RoleOf(s, r.org, r.user).Some? then Done(Conflict) else Unaffiliated(r))
  }

  function DoExpire(s: State, r: Request, reply: Reply): Effect {
    if reply == Refused then Stage(s, Done(Failed))
    else
      Stage(s, if reply == Applied then Burnt(r) else Done(Failed)).(
        invites := Burn(s.invites, r.org, r.user, s.now), event := Some(Superseded(r.org, r.user)))
  }

  function DoInsert(s: State, r: Request, id: string, ttl: nat, reply: Reply): Effect {
    if reply == Refused then Stage(s, Done(Failed))
    else
      Stage(s, Done(if reply == Applied then Ok else Failed)).(
        invites := s.invites[id := Invite(r.org, r.user, r.role, r.actor, s.now + ttl, None)],
        event := Some(Created(id)))
  }

  /** What the accept handler demands of the request and of the invite it finds. */
  predicate Acceptable(rows: map<string, Invite>, now: int, id: string, password: string) {
    |password| >= 8 && id in rows && rows[id].accepted.None? && now <= rows[id].expires
  }

  function DoLook(s: State, pid: string, id: string, password: string, answered: bool): Effect {
    if |password| < 8 then Stage(s, Done(Invalid))
    else if !answered then Stage(s, Done(Failed))
    else if id !in s.invites || s.invites[id].accepted.Some? || s.invites[id].expires < s.now
    then Stage(s, Done(Invalid))
    else Stage(s, Found(id, s.invites[id], password)).(event := Some(Looked(pid, id)))
  }

  function DoSetPassword(s: State, pid: string, id: string, inv: Invite, password: string, reply: Reply): Effect {
    var changed := s.passwords[inv.user := password];
    match reply
    case Refused => Stage(s, Done(Failed))
    case Lost => Stage(s, Done(Failed)).(passwords := changed)
    case Applied => Stage(s, PasswordDone(id, inv)).(passwords := changed, event := Some(PasswordSet(pid, inv.user)))
  }

  function DoRedeem(s: State, pid: string, id: string, reply: Reply): Effect {
    if reply == Refused then Stage(s, Done(Failed))
    else if !Consumable(s.invites, id, s.now) then
      Stage(s, Done(if reply == Applied then Conflict else Failed)).(event := Some(Missed(pid, id, s.now)))
    else
      var rows := Consume(s.invites, id, s.now);
      Stage(s, if reply == Applied then Redeemed(id, rows[id]) else Done(Failed)).(
        invites := rows, event := Some(Consumed(pid, id, s.now)))
  }

  function DoJoin(s: State, pid: string, id: string, inv: Invite, reply: Reply): Effect {
    if reply == Refused then Stage(s, Done(Failed))
    else
      Stage(s, Done(if reply == Applied then Ok else Failed)).(
        roles := s.roles[(inv.org, inv.user) := inv.role],
        event := Some(Granted(pid, inv.invitedBy, inv.org, inv.user, inv.role, Some(id), reply == Applied)))
  }

  /** The effect of a command, or none when the process is not at that point. */
  function Act(s: State, pid: string, cmd: Command): Option<Effect> {
    var p: Option<Proc> := if pid in s.procs then Some(s.procs[pid]) else None;
    match (cmd, p)
    case (Start(req), None) => Some(DoStart(s, req))
    case (Look(id, password, answered), None) => Some(DoLook(s, pid, id, password, answered))
    case (Require(answered), Some(Started(req, isAdmin))) => Some(DoRequire(s, req, isAdmin, answered))
    case (CheckOwner(answered), Some(Admitted(req, isAdmin))) => Some(DoCheckOwner(s, req, isAdmin, answered))
    case (Grant(reply), Some(Cleared(req))) => if req.kind != ByInvite then Some(DoGrant(s, pid, req, reply)) else None
    case (CheckMember(answered), Some(Cleared(req))) =>
      if req.kind == ByInvite then Some(DoCheckMember(s, req, answered)) else None
    case (Expire(reply), Some(Unaffiliated(req))) => Some(DoExpire(s, req, reply))
    case (Insert(id, ttl, reply), Some(Burnt(req))) =>
      if id !in s.invites then Some(DoInsert(s, req, id, ttl, reply)) else None
    case (SetPassword(reply), Some(Found(id, inv, password))) => Some(DoSetPassword(s, pid, id, inv, password, reply))
    case (Redeem(reply), Some(PasswordDone(id, inv))) => Some(DoRedeem(s, pid, id, reply))
    case (Join(reply), Some(Redeemed(id, inv))) => Some(DoJoin(s, pid, id, inv, reply))
    case (Abort, Some(q)) => if q.Done? then None else Some(Stage(s, Done(Failed)))
    case _ => None
  }

  function Apply(s: State, pid: string, e: Effect): State {
    s.(procs := s.procs[pid := e.proc],
       log := if e.event.Some? then s.log + [e.event.value] else s.log,
       roles := e.roles, invites := e.invites, passwords := e.passwords)
  }

  /** One step. A command that is not possible now changes nothing, so every sequence of
      steps is a run, and every interleaving is such a sequence. */
  function Next(s: State, step: Step): State {
    match step
    case Do(pid, cmd) => var e := Act(s, pid, cmd); if e.Some? then Apply(s, pid, e.value) else s
    case Tick(d) => s.(now := s.now + d)
    case SetAdmin(user, admin) => s.(admins := if admin then s.admins + {user} else s.admins - {user})
    case RemoveMember(org, user) => s.(roles := s.roles - {(org, user)})
  }

  /** The state after a run. */
  function Exec(s: State, steps: seq<Step>): State {
    if steps == [] then s else Next(Exec(s, steps[..|steps| - 1]), steps[|steps| - 1])
  }

  /** No invite, process or event yet; roles, admins and passwords are arbitrary. */
  predicate Initial(s: State) {
    s.invites == map[] && s.procs == map[] && s.log == []
  }

  lemma ExecSnoc(s: State, steps: seq<Step>, step: Step)
    ensures Exec(s, steps + [step]) == Next(Exec(s, steps), step)
  {
    hide Next;
    assert (steps + [step])[..|steps|] == steps;
  }

  lemma Exec2(s: State, a: Step, b: Step)
    ensures Exec(s, [a, b]) == Next(Next(s, a), b)
  {
    hide Next;
    assert [a, b][..1] == [a] && [a][..0] == [];
    assert Exec(s, []) == s;
    assert Exec(s, [a]) == Next(s, a);
  }

  lemma Exec4(s: State, a: Step, b: Step, c: Step, d: Step)
    ensures Exec(s, [a, b, c, d]) == Next(Next(Next(Next(s, a), b), c), d)
  {
    hide Next, Exec;
    Exec2(s, a, b);
    ExecSnoc(s, [a, b], c);
    ExecSnoc(s, [a, b, c], d);
    assert [a, b] + [c] == [a, b, c] && [a, b, c] + [d] == [a, b, c, d];
  }

  lemma {:induction false} ExecAppend(s: State, a: seq<Step>, b: seq<Step>)
    ensures Exec(s, a + b) == Exec(Exec(s, a), b)
    decreases |b|
  {
    hide Next;
    if b == [] {
      assert a + b == a;
    } else {
      ExecAppend(s, a, b[..|b| - 1]);
      assert (a + b)[..|a + b| - 1] == a + b[..|b| - 1];
    }
  }

  /** A finished process does nothing more. */
  lemma Finished(s: State, pid: string, cmd: Command)
    requires pid in s.procs && s.procs[pid].Done?
    ensures Next(s, Do(pid, cmd)) == s
  {
  }

  lemma BurnKeys(rows: map<string, Invite>, org: string, user: string, now: int)
    ensures Burn(rows, org, user, now).Keys == rows.Keys
  {
  }

  lemma Exec6(s: State, a: Step, b: Step, c: Step, d: Step, e: Step, f: Step)
    ensures Exec(s, [a, b, c, d, e, f]) == Next(Next(Next(Next(Next(Next(s, a), b), c), d), e), f)
  {
    hide Next, Exec;
    Exec4(s, a, b, c, d);
    ExecSnoc(s, [a, b, c, d], e);
    ExecSnoc(s, [a, b, c, d, e], f);
    assert [a, b, c, d] + [e] == [a, b, c, d, e] && [a, b, c, d, e] + [f] == [a, b, c, d, e, f];
  }

  // ---------- One step of a process at a known stage ----------

  lemma StartRuns(s: State, pid: string, req: Request)
    requires pid !in s.procs
    ensures Next(s, Do(pid, Start(req))) == Apply(s, pid, DoStart(s, req))
  {
  }

  lemma RequireRuns(s: State, pid: string, req: Request, isAdmin: bool, answered: bool)
    requires pid in s.procs && s.procs[pid] == Started(req, isAdmin)
    ensures Next(s, Do(pid, Require(answered))) == Apply(s, pid, DoRequire(s, req, isAdmin, answered))
  {
  }

  lemma CheckOwnerRuns(s: State, pid: string, req: Request, isAdmin: bool, answered: bool)
    requires pid in s.procs && s.procs[pid] == Admitted(req, isAdmin)
    ensures Next(s, Do(pid, CheckOwner(answered))) == Apply(s, pid, DoCheckOwner(s, req, isAdmin, answered))
  {
  }

  lemma GrantRuns(s: State, pid: string, req: Request, reply: Reply)
    requires pid in s.procs && s.procs[pid] == Cleared(req) && req.kind != ByInvite
    ensures Next(s, Do(pid, Grant(reply))) == Apply(s, pid, DoGrant(s, pid, req, reply))
  {
  }

  lemma CheckMemberRuns(s: State, pid: string, req: Request, answered: bool)
    requires pid in s.procs && s.procs[pid] == Cleared(req) && req.kind == ByInvite
    ensures Next(s, Do(pid, CheckMember(answered))) == Apply(s, pid, DoCheckMember(s, req, answered))
  {
  }

  lemma ExpireRuns(s: State, pid: string, req: Request, reply: Reply)
    requires pid in s.procs && s.procs[pid] == Unaffiliated(req)
    ensures Next(s, Do(pid, Expire(reply))) == Apply(s, pid, DoExpire(s, req, reply))
  {
  }

  lemma InsertRuns(s: State, pid: string, req: Request, id: string, ttl: nat, reply: Reply)
    requires pid in s.procs && s.procs[pid] == Burnt(req) && id !in s.invites
    ensures Next(s, Do(pid, Insert(id, ttl, reply))) == Apply(s, pid, DoInsert(s, req, id, ttl, reply))
  {
  }

  lemma LookRuns(s: State, pid: string, id: string, password: string, answered: bool)
    requires pid !in s.procs
    ensures Next(s, Do(pid, Look(id, password, answered))) == Apply(s, pid, DoLook(s, pid, id, password, answered))
  {
  }

  lemma SetPasswordRuns(s: State, pid: string, id: string, inv: Invite, password: string, reply: Reply)
    requires pid in s.procs && s.procs[pid] == Found(id, inv, password)
    ensures Next(s, Do(pid, SetPassword(reply))) == Apply(s, pid, DoSetPassword(s, pid, id, inv, password, reply))
  {
  }

  lemma RedeemRuns(s: State, pid: string, id: string, inv: Invite, reply: Reply)
    requires pid in s.procs && s.procs[pid] == PasswordDone(id, inv)
    ensures Next(s, Do(pid, Redeem(reply))) == Apply(s, pid, DoRedeem(s, pid, id, reply))
  {
  }

  lemma JoinRuns(s: State, pid: string, id: string, inv: Invite, reply: Reply)
    requires pid in s.procs && s.procs[pid] == Redeemed(id, inv)
    ensures Next(s, Do(pid, Join(reply))) == Apply(s, pid, DoJoin(s, pid, id, inv, reply))
  {
  }

  lemma AbortRuns(s: State, pid: string)
    requires pid in s.procs && !s.procs[pid].Done?
    ensures Next(s, Do(pid, Abort)) == Apply(s, pid, Stage(s, Done(Failed)))
  {
  }
}
