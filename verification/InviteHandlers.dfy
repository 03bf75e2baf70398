/** The granting handlers run without interruption (internal/httpapi/invite_handlers.go:71-253,
    internal/httpapi/identity_handlers.go:82-122), with every query possibly unanswered and
    every statement possibly refused or its answer lost. */
module InviteHandlers {
  import opened Replies
  import opened Text
  import opened Invites

  // ---------- What an accept comes to ----------

  /** Whether the lookup answered; how the password change, the consumption and the membership
      write ended. */
  datatype AcceptReplies = AcceptReplies(look: bool, password: Reply, consume: Reply, join: Reply)

  /** The password call is made. */
  predicate Calls(rows: map<string, Invite>, now: int, id: string, password: string, r: AcceptReplies) {
    r.look && Acceptable(rows, now, id, password)
  }

  /** The invite is consumed: the look admits the moment of expiry, the consumption does not. */
  predicate Consumes(rows: map<string, Invite>, now: int, id: string, password: string, r: AcceptReplies) {
    Calls(rows, now, id, password, r) && r.password == Applied && r.consume != Refused && now < rows[id].expires
  }

  /** The membership is written. */
  predicate Joins(rows: map<string, Invite>, now: int, id: string, password: string, r: AcceptReplies) {
    Consumes(rows, now, id, password, r) && r.consume == Applied && r.join != Refused
  }

  function Verdict(rows: map<string, Invite>, now: int, id: string, password: string, r: AcceptReplies): Outcome {
    if |password| >= 8 && !r.look then Failed
    else if !Acceptable(rows, now, id, password) then Invalid
    else if r.password != Applied || r.consume != Applied then Failed
    else if now == rows[id].expires then Conflict
    else if r.join != Applied then Failed
    else Ok
  }

  /** An uninterrupted accept changes the password without consuming the invite exactly when
      the change took effect and either its answer was lost, or the consumption was refused,
      or the invite expires at this very moment. */
  lemma ChangesWithoutConsumingIff(rows: map<string, Invite>, now: int, id: string, password: string, r: AcceptReplies)
    requires Calls(rows, now, id, password, r)
    ensures r.password != Refused && !Consumes(rows, now, id, password, r) <==>
      r.password == Lost || (r.password == Applied && (r.consume == Refused || now == rows[id].expires))
  {
  }

  // ---------- What a create comes to ----------

  /** Answers to the role queries, the user upsert and the membership query; how the burn and
      the insert ended, and whether a token was generated between them. */
  datatype CreateReplies = CreateReplies(
    role: bool, owner: bool, user: bool, member: bool, burn: Reply, token: bool, insert: Reply)

  /** The session's user passes requireOrgRole and the owner rule. */
  predicate Permitted(s: State, req: Request, role: bool, owner: bool) {
    MayAct(s, req, req.actor in s.admins, role) && MayGrant(s, req, req.actor in s.admins, owner)
  }

  /** Who may give which role, by the role the actor holds in the organization and by whether the
      two role queries are answered. Adding a member asks twice, a platform admin once; the
      others ask the second time only to give owner. */
  predicate Table(req: Request, isAdmin: bool, held: Option<Role>, first: bool, second: bool) {
    var manager := isAdmin || (first && (held == Some(Owner) || held == Some(Admin)));
    match (req.kind, req.role)
    case (ByAdd, Owner) => manager && second && held == Some(Owner)
    case (ByAdd, Admin) => manager && second && (held == Some(Owner) || held == Some(Admin))
    case (ByAdd, Member) => manager && second && held != None
    case (_, Owner) => isAdmin || (first && second && held == Some(Owner))
    case (_, _) => manager
  }

  /** The role the actor holds in the organization. */
  function Held(s: State, req: Request): Option<Role> {
    if (req.org, req.actor) in s.roles then Some(s.roles[(req.org, req.actor)]) else None
  }

  /** The answer to a request that is not permitted: an error when a role could not be read that
      had to be, for a member-add also when the actor has none; else forbidden. */
  function Refusal(req: Request, isAdmin: bool, held: Option<Role>, first: bool, second: bool): Outcome {
    if !isAdmin && !first then Failed
    else if !isAdmin && (held == None || held == Some(Member)) then Forbidden
    else if req.kind == ByAdd && (!second || held == None) then Failed
    else Forbidden
  }

  lemma PermittedIff(s: State, req: Request, first: bool, second: bool)
    ensures Permitted(s, req, first, second) <==> Table(req, req.actor in s.admins, Held(s, req), first, second)
  {
  }

  /** The create comes to burning the pair's pending invites. */
  predicate Burns(s: State, req: Request, r: CreateReplies) {
    && Table(req, req.actor in s.admins, Held(s, req), r.role, r.owner) && r.user
    && !(r.member && (req.org, req.user) in s.roles) && r.burn != Refused
  }

  /** It comes to inserting the new one. */
  predicate Inserts(s: State, req: Request, r: CreateReplies) {
    Burns(s, req, r) && r.burn == Applied && r.token && r.insert != Refused
  }

  function InvitesAfter(s: State, req: Request, id: string, ttl: nat, r: CreateReplies): map<string, Invite> {
    if !Burns(s, req, r) then s.invites
    else
      var burnt := Burn(s.invites, req.org, req.user, s.now);
      if !Inserts(s, req, r) then burnt
      else burnt[id := Invite(req.org, req.user, req.role, req.actor, s.now + ttl, None)]
  }

  // ---------- The handlers ----------

  /** A command, or the end of the request where something before it fails. */
  function Try(ok: bool, cmd: Command): Command {
    if ok then cmd else Abort
  }

  /** The tables the handlers work on; process stages and the log are ghost. */
  class Platform {
    const admins: set<string>
    var now: int
    var roles: map<(string, string), Role>
    var invites: map<string, Invite>
    var passwords: map<string, string>
    ghost var procs: map<string, Proc>
    ghost var log: seq<Event>

    ghost function Snapshot(): State
      reads this
    {
      State(now, admins, roles, invites, passwords, procs, log)
    }

    method LookUp(ghost pid: string, id: string, password: string, answered: bool) returns (found: Option<Invite>)
      requires pid !in procs
      modifies this`procs, this`log
      ensures Snapshot() == Next(old(Snapshot()), Do(pid, Look(id, password, answered)))
      ensures found.Some? <==>
        answered && |password| >= 8 && id in invites && invites[id].accepted == None && now <= invites[id].expires
      ensures found.Some? ==> found.value == invites[id]
      ensures pid in procs && procs[pid] == if found.Some? then Found(id, found.value, password)
                                            else Done(if |password| >= 8 && !answered then Failed else Invalid)
    {
      LookRuns(Snapshot(), pid, id, password, answered);
      if |password| >= 8 && !answered {
        procs := procs[pid := Done(Failed)];
        return None;
      }
      if |password| < 8 || id !in invites || invites[id].accepted.Some? || now > invites[id].expires {
        procs := procs[pid := Done(Invalid)];
        return None;
      }
      procs, log := procs[pid := Found(id, invites[id], password)], log + [Looked(pid, id)];
      return Some(invites[id]);
    }

    method SetUserPassword(ghost pid: string, ghost id: string, inv: Invite, password: string, reply: Reply)
        returns (ok: bool)
      requires pid in procs && procs[pid] == Found(id, inv, password)
      modifies this`procs, this`passwords, this`log
      ensures Snapshot() == Next(old(Snapshot()), Do(pid, SetPassword(reply)))
      ensures ok <==> reply == Applied
      ensures passwords == if reply == Refused then old(passwords) else old(passwords)[inv.user := password]
      ensures pid in procs && procs[pid] == if ok then PasswordDone(id, inv) else Done(Failed)
    {
      SetPasswordRuns(Snapshot(), pid, id, inv, password, reply);
      if reply != Refused {
        passwords := passwords[inv.user := password];
      }
      ok := reply == Applied;
      if ok {
        procs, log := procs[pid := PasswordDone(id, inv)], log + [PasswordSet(pid, inv.user)];
      } else {
        procs := procs[pid := Done(Failed)];
      }
    }

    /** The guarded update; the row is returned when it matched and answered, a conflict when it
        answered that none did. */
    method ConsumeInvite(ghost pid: string, id: string, ghost inv: Invite, reply: Reply)
        returns (r: Option<Invite>, conflict: bool)
      requires pid in procs && procs[pid] == PasswordDone(id, inv)
      modifies this`procs, this`invites, this`log
      ensures Snapshot() == Next(old(Snapshot()), Do(pid, Redeem(reply)))
      ensures invites == if reply == Refused then old(invites) else Consume(old(invites), id, now)
      ensures r.Some? <==> reply == Applied && Consumable(old(invites), id, now)
      ensures conflict <==> reply == Applied && !Consumable(old(invites), id, now)
      ensures r.Some? ==> id in invites && r.value == invites[id]
      ensures pid in procs && procs[pid] == if r.Some? then Redeemed(id, r.value)
                                            else Done(if conflict then Conflict else Failed)
    {
      RedeemRuns(Snapshot(), pid, id, inv, reply);
      r, conflict := None, false;
      if reply == Refused {
        procs := procs[pid := Done(Failed)];
      } else if id in invites && invites[id].accepted.None? && invites[id].expires > now {
        invites := invites[id := invites[id].(accepted := Some(now))];
        log := log + [Consumed(pid, id, now)];
        procs := procs[pid := if reply == Applied then Redeemed(id, invites[id]) else Done(Failed)];
        if reply == Applied {
          r := Some(invites[id]);
        }
      } else {
        conflict := reply == Applied;
        procs, log := procs[pid := Done(if conflict then Conflict else Failed)], log + [Missed(pid, id, now)];
      }
    }

    method SetMembership(ghost pid: string, ghost id: string, inv: Invite, reply: Reply) returns (ok: bool)
      requires pid in procs && procs[pid] == Redeemed(id, inv)
      modifies this`procs, this`roles, this`log
      ensures Snapshot() == Next(old(Snapshot()), Do(pid, Join(reply)))
      ensures ok <==> reply == Applied
      ensures roles == if reply == Refused then old(roles) else old(roles)[(inv.org, inv.user) := inv.role]
      ensures pid in procs && procs[pid] == Done(if ok then Ok else Failed)
    {
      JoinRuns(Snapshot(), pid, id, inv, reply);
      ok := reply == Applied;
      if reply != Refused {
        roles := roles[(inv.org, inv.user) := inv.role];
        log := log + [Granted(pid, inv.invitedBy, inv.org, inv.user, inv.role, Some(id), ok)];
      }
      procs := procs[pid := Done(if ok then Ok else Failed)];
    }

    /** Redeems an invite found by its token: look it up, set the password upstream, consume it,
        write the membership; each failure ends the request. Uninterrupted, it is the run of its
        four steps, and leaves exactly this, however they end. */
    method AcceptInvite(ghost pid: string, id: string, password: string, r: AcceptReplies) returns (o: Outcome)
      requires pid !in procs
      modifies this
      ensures Snapshot() == Exec(old(Snapshot()), [Do(pid, Look(id, password, r.look)),
        Do(pid, SetPassword(r.password)),
        Do(pid, Redeem(r.consume)), Do(pid, Join(r.join))])
      ensures pid in procs && procs[pid] == Done(o)
      ensures o == Verdict(old(invites), now, id, password, r)
      ensures passwords == if Calls(old(invites), now, id, password, r) && r.password != Refused
                           then old(passwords)[old(invites)[id].user := password] else old(passwords)
      ensures invites == if Consumes(old(invites), now, id, password, r)
                         then Consume(old(invites), id, now) else old(invites)
      ensures roles == if Joins(old(invites), now, id, password, r)
                       then old(roles)[(old(invites)[id].org, old(invites)[id].user) := old(invites)[id].role]
                       else old(roles)
    {
      hide Next, Exec, Consumable, Consume, Calls, Consumes, Joins, Verdict;
      AcceptEnds(invites, now, id, password, r);
      Exec4(Snapshot(), Do(pid, Look(id, password, r.look)), Do(pid, SetPassword(r.password)),
        Do(pid, Redeem(r.consume)), Do(pid, Join(r.join)));
      var inv := LookUp(pid, id, password, r.look);
      if inv.None? {
        Finished(Snapshot(), pid, SetPassword(r.password));
        Finished(Snapshot(), pid, Redeem(r.consume));
        Finished(Snapshot(), pid, Join(r.join));
        return if |password| >= 8 && !r.look then Failed else Invalid;
      }
      var changed := SetUserPassword(pid, id, inv.value, password, r.password);
      if !changed {
        Finished(Snapshot(), pid, Redeem(r.consume));
        Finished(Snapshot(), pid, Join(r.join));
        return Failed;
      }
      o := RedeemAndJoin(pid, id, inv.value, r.consume, r.join);
    }

    /** The consumption and, when its row is returned, the membership. */
    method RedeemAndJoin(ghost pid: string, id: string, ghost inv: Invite, consume: Reply, join: Reply)
        returns (o: Outcome)
      requires pid in procs && procs[pid] == PasswordDone(id, inv)
      modifies this`procs, this`invites, this`roles, this`log
      ensures Snapshot() == Next(Next(old(Snapshot()), Do(pid, Redeem(consume))), Do(pid, Join(join)))
      ensures o == if consume != Applied then Failed else if !Consumable(old(invites), id, now) then Conflict
                   else if join != Applied then Failed else Ok
      ensures invites == if consume == Refused then old(invites) else Consume(old(invites), id, now)
      ensures roles == if consume == Applied && Consumable(old(invites), id, now) && join != Refused
                       then old(roles)[(old(invites)[id].org, old(invites)[id].user) := old(invites)[id].role]
                       else old(roles)
      ensures pid in procs && procs[pid] == Done(o)
    {
      hide Next;
      var consumed, conflict := ConsumeInvite(pid, id, inv, consume);
      if consumed.None? {
        Finished(Snapshot(), pid, Join(join));
        return if conflict then Conflict else Failed;
      }
      var joined := SetMembership(pid, id, consumed.value, join);
      return if joined then Ok else Failed;
    }

    method RequireOrgRole(ghost pid: string, req: Request, isAdmin: bool, answered: bool) returns (ok: bool)
      requires pid in procs && procs[pid] == Started(req, isAdmin) && req.kind != ByAdmin
      modifies this`procs
      ensures Snapshot() == Next(old(Snapshot()), Do(pid, Require(answered)))
      ensures ok <==> MayAct(old(Snapshot()), req, isAdmin, answered)
      ensures pid in procs
      ensures procs[pid] == if ok then Admitted(req, isAdmin) else Done(if answered then Forbidden else Failed)
    {
      RequireRuns(Snapshot(), pid, req, isAdmin, answered);
      ok := isAdmin;
      if !ok && answered && (req.org, req.actor) in roles {
        ok := CanManage(roles[(req.org, req.actor)], Admin);
      }
      procs := procs[pid := if ok then Admitted(req, isAdmin) else Done(if answered then Forbidden else Failed)];
    }

    method CheckOwnerRule(ghost pid: string, req: Request, isAdmin: bool, answered: bool) returns (ok: bool)
      requires pid in procs && procs[pid] == Admitted(req, isAdmin)
      modifies this`procs, this`log
      ensures Snapshot() == Next(old(Snapshot()), Do(pid, CheckOwner(answered)))
      ensures ok <==> MayGrant(old(Snapshot()), req, isAdmin, answered)
      ensures pid in procs
      ensures procs[pid] == if ok then Cleared(req)
        else Done(if req.kind == ByAdd && !(answered && (req.org, req.actor) in roles) then Failed else Forbidden)
    {
      CheckOwnerRuns(Snapshot(), pid, req, isAdmin, answered);
      if req.kind != ByAdd && (req.role != Owner || isAdmin) {
        procs := procs[pid := Cleared(req)];
        return true;
      }
      if !answered || (req.org, req.actor) !in roles {
        procs := procs[pid := Done(if req.kind == ByAdd then Failed else Forbidden)];
        return false;
      }
      var role := roles[(req.org, req.actor)];
      if !CanManage(role, if req.kind == ByAdd then req.role else Owner) {
        procs := procs[pid := Done(Forbidden)];
        return false;
      }
      procs := procs[pid := Cleared(req)];
      if role == Owner {
        log := log + [SawOwner(req.actor, req.org)];
      }
      return true;
    }

    /** The part the granting handlers share: the session, requireOrgRole, the owner rule. */
    method Authorize(ghost pid: string, req: Request, role: bool, owner: bool) returns (ok: bool)
      requires pid !in procs && req.kind != ByAdmin
      modifies this`procs, this`log
      ensures Snapshot() == Next(Next(Next(old(Snapshot()), Do(pid, Start(req))), Do(pid, Require(role))),
        Do(pid, CheckOwner(owner)))
      ensures ok <==> Permitted(old(Snapshot()), req, role, owner)
      ensures ok <==> Table(req, req.actor in admins, Held(old(Snapshot()), req), role, owner)
      ensures pid in procs
      ensures procs[pid] == if ok then Cleared(req)
                            else Done(Refusal(req, req.actor in admins, Held(old(Snapshot()), req), role, owner))
    {
      hide Next, MayGrant, Table;
      PermittedIff(Snapshot(), req, role, owner);
      var isAdmin := req.actor in admins;
      StartRuns(Snapshot(), pid, req);
      procs, log := procs[pid := Started(req, isAdmin)], if isAdmin then log + [SawAdmin(req.actor)] else log;
      SameRoles(old(Snapshot()), Snapshot(), req, isAdmin, role, owner);
      ok := RequireOrgRole(pid, req, isAdmin, role);
      if !ok {
        Finished(Snapshot(), pid, CheckOwner(owner));
        return;
      }
      SameRoles(old(Snapshot()), Snapshot(), req, isAdmin, role, owner);
      ok := CheckOwnerRule(pid, req, isAdmin, owner);
    }

    method GrantRole(ghost pid: string, req: Request, reply: Reply) returns (ok: bool)
      requires pid in procs && procs[pid] == Cleared(req) && req.kind == ByAdd
      modifies this`procs, this`log, this`roles
      ensures Snapshot() == Next(old(Snapshot()), Do(pid, Grant(reply)))
      ensures ok <==> reply == Applied
      ensures roles == if reply == Refused then old(roles) else old(roles)[(req.org, req.user) := req.role]
      ensures pid in procs && procs[pid] == Done(if ok then Ok else Failed)
    {
      hide Next;
      GrantRuns(Snapshot(), pid, req, reply);
      ok := reply == Applied;
      if reply != Refused {
        roles := roles[(req.org, req.user) := req.role];
        log := log + [Granted(pid, req.actor, req.org, req.user, req.role, None, ok)];
      }
      procs := procs[pid := Done(if ok then Ok else Failed)];
    }

    /** Adds a member, uninterrupted: the role is written when the actor is permitted and the
        write takes effect, and success is reported when it also answers. */
    method AddOrganizationMember(ghost pid: string, req: Request, role: bool, owner: bool, reply: Reply)
        returns (ok: bool)
      requires pid !in procs && req.kind == ByAdd
      modifies this`procs, this`log, this`roles
      ensures Snapshot() == Exec(old(Snapshot()), [Do(pid, Start(req)), Do(pid, Require(role)),
        Do(pid, CheckOwner(owner)), Do(pid, Grant(reply))])
      ensures ok <==> Table(req, req.actor in admins, Held(old(Snapshot()), req), role, owner) && reply == Applied
      ensures pid in procs && procs[pid] == Done(
        if ok then Ok
        else if Table(req, req.actor in admins, Held(old(Snapshot()), req), role, owner) then Failed
        else Refusal(req, req.actor in admins, Held(old(Snapshot()), req), role, owner))
      ensures roles == if Table(req, req.actor in admins, Held(old(Snapshot()), req), role, owner) && reply != Refused
                       then old(roles)[(req.org, req.user) := req.role] else old(roles)
    {
      hide Next, Exec, Permitted, Table, Held, Refusal;
      Exec4(Snapshot(), Do(pid, Start(req)), Do(pid, Require(role)), Do(pid, CheckOwner(owner)), Do(pid, Grant(reply)));
      ok := Authorize(pid, req, role, owner);
      if !ok {
        Finished(Snapshot(), pid, Grant(reply));
        return;
      }
      ok := GrantRole(pid, req, reply);
    }

    /** The upsert of the user, then the membership query: an error of the query is taken for no
        membership. */
    method CheckNotMember(ghost pid: string, req: Request, user: bool, member: bool) returns (ok: bool)
      requires pid in procs && procs[pid] == Cleared(req) && req.kind == ByInvite
      modifies this`procs
      ensures Snapshot() == Next(old(Snapshot()), Do(pid, Try(user, CheckMember(member))))
      ensures ok <==> user && !(member && (req.org, req.user) in roles)
      ensures pid in procs
      ensures procs[pid] == if ok then Unaffiliated(req) else Done(if user then Conflict else Failed)
    {
      hide Next;
      if !user {
        AbortRuns(Snapshot(), pid);
        procs := procs[pid := Done(Failed)];
        return false;
      }
      CheckMemberRuns(Snapshot(), pid, req, member);
      ok := !(member && (req.org, req.user) in roles);
      procs := procs[pid := if ok then Unaffiliated(req) else Done(Conflict)];
    }

    method ExpirePendingInvites(ghost pid: string, req: Request, reply: Reply) returns (ok: bool)
      requires pid in procs && procs[pid] == Unaffiliated(req)
      modifies this`procs, this`log, this`invites
      ensures Snapshot() == Next(old(Snapshot()), Do(pid, Expire(reply)))
      ensures ok <==> reply == Applied
      ensures invites == if reply == Refused then old(invites) else Burn(old(invites), req.org, req.user, now)
      ensures pid in procs && procs[pid] == if ok then Burnt(req) else Done(Failed)
    {
      hide Next, Burn;
      ExpireRuns(Snapshot(), pid, req, reply);
      ok := reply == Applied;
      if reply != Refused {
        invites := Burn(invites, req.org, req.user, now);
        log := log + [Superseded(req.org, req.user)];
      }
      procs := procs[pid := if ok then Burnt(req) else Done(Failed)];
    }

    /** The token, then the insert. */
    method InsertInvite(ghost pid: string, req: Request, id: string, ttl: nat, token: bool, reply: Reply)
        returns (ok: bool)
      requires pid in procs && procs[pid] == Burnt(req) && id !in invites
      modifies this`procs, this`log, this`invites
      ensures Snapshot() == Next(old(Snapshot()), Do(pid, Try(token, Insert(id, ttl, reply))))
      ensures ok <==> token && reply == Applied
      ensures invites == if !token || reply == Refused then old(invites)
        else old(invites)[id := Invite(req.org, req.user, req.role, req.actor, now + ttl, None)]
      ensures pid in procs && procs[pid] == Done(if ok then Ok else Failed)
    {
      hide Next;
      if !token {
        AbortRuns(Snapshot(), pid);
        procs := procs[pid := Done(Failed)];
        return false;
      }
      InsertRuns(Snapshot(), pid, req, id, ttl, reply);
      ok := reply == Applied;
      if reply != Refused {
        invites := invites[id := Invite(req.org, req.user, req.role, req.actor, now + ttl, None)];
        log := log + [Created(id)];
      }
      procs := procs[pid := Done(if ok then Ok else Failed)];
    }

    /** Creates an invite, uninterrupted: it is the run of its six steps, and leaves the invites
        exactly so, however they end; a failure after the burn leaves the pair without a link. */
    method CreateInvite(ghost pid: string, req: Request, id: string, ttl: nat, r: CreateReplies) returns (ok: bool)
      requires pid !in procs && req.kind == ByInvite && id !in invites
      modifies this`procs, this`log, this`invites
      ensures Snapshot() == Exec(old(Snapshot()), [Do(pid, Start(req)), Do(pid, Require(r.role)),
        Do(pid, CheckOwner(r.owner)), Do(pid, Try(r.user, CheckMember(r.member))), Do(pid, Expire(r.burn)),
        Do(pid, Try(r.token, Insert(id, ttl, r.insert)))])
      ensures ok <==> Inserts(old(Snapshot()), req, r) && r.insert == Applied
      ensures pid in procs && procs[pid] == Done(
        if ok then Ok
        else if !Table(req, req.actor in admins, Held(old(Snapshot()), req), r.role, r.owner)
        then Refusal(req, req.actor in admins, Held(old(Snapshot()), req), r.role, r.owner)
        else if r.user && r.member && (req.org, req.user) in roles then Conflict
        else Failed)
      ensures invites == InvitesAfter(old(Snapshot()), req, id, ttl, r)
    {
      hide Next, Exec, Burn, Permitted, Table, Held, Refusal, Try;
      ghost var member := Do(pid, Try(r.user, CheckMember(r.member)));
      ghost var burn, insert := Do(pid, Expire(r.burn)), Do(pid, Try(r.token, Insert(id, ttl, r.insert)));
      Exec6(Snapshot(), Do(pid, Start(req)), Do(pid, Require(r.role)), Do(pid, CheckOwner(r.owner)), member, burn,
        insert);
      ok := Authorize(pid, req, r.role, r.owner);
      if !ok {
        Finished(Snapshot(), pid, member.cmd);
        Finished(Snapshot(), pid, burn.cmd);
        Finished(Snapshot(), pid, insert.cmd);
        return;
      }
      ok := CheckNotMember(pid, req, r.user, r.member);
      if !ok {
        Finished(Snapshot(), pid, burn.cmd);
        Finished(Snapshot(), pid, insert.cmd);
        return;
      }
      ok := Replace(pid, req, id, ttl, r.burn, r.token, r.insert);
    }

    /** The burn and, when it answered, the token and the insert. */
    method Replace(ghost pid: string, req: Request, id: string, ttl: nat, burn: Reply, token: bool, insert: Reply)
        returns (ok: bool)
      requires pid in procs && procs[pid] == Unaffiliated(req) && id !in invites
      modifies this`procs, this`log, this`invites
      ensures Snapshot() == Next(Next(old(Snapshot()), Do(pid, Expire(burn))),
        Do(pid, Try(token, Insert(id, ttl, insert))))
      ensures ok <==> burn == Applied && token && insert == Applied
      ensures invites ==
        if burn == Refused then old(invites)
        else if burn == Lost || !token || insert == Refused then Burn(old(invites), req.org, req.user, now)
        else Burn(old(invites), req.org, req.user, now)[
          id := Invite(req.org, req.user, req.role, req.actor, now + ttl, None)]
      ensures pid in procs && procs[pid] == Done(if ok then Ok else Failed)
    {
      hide Next, Burn, Try;
      BurnKeys(invites, req.org, req.user, now);
      ok := ExpirePendingInvites(pid, req, burn);
      if !ok {
        Finished(Snapshot(), pid, Try(token, Insert(id, ttl, insert)));
        return;
      }
      ok := InsertInvite(pid, req, id, ttl, token, insert);
    }
  }

  /** How an accept ends, by how far it comes. */
  lemma AcceptEnds(rows: map<string, Invite>, now: int, id: string, password: string, r: AcceptReplies)
    ensures Calls(rows, now, id, password, r) <==> r.look && Acceptable(rows, now, id, password)
    ensures Consumes(rows, now, id, password, r) <==>
      Calls(rows, now, id, password, r) && r.password == Applied && r.consume != Refused && Consumable(rows, id, now)
    ensures Joins(rows, now, id, password, r) <==>
      Consumes(rows, now, id, password, r) && r.consume == Applied && r.join != Refused
    ensures Verdict(rows, now, id, password, r) ==
      if |password| >= 8 && !r.look then Failed
      else if !Calls(rows, now, id, password, r) then Invalid
      else if r.password != Applied || r.consume != Applied then Failed
      else if !Consumable(rows, id, now) then Conflict
      else if r.join != Applied then Failed
      else Ok
    ensures !Consumable(rows, id, now) ==> Consume(rows, id, now) == rows
  {
    if Acceptable(rows, now, id, password) {
      ConsumableIff(rows, now, id, password);
    }
  }

  lemma ConsumableIff(rows: map<string, Invite>, now: int, id: string, password: string)
    requires Acceptable(rows, now, id, password)
    ensures Consumable(rows, id, now) <==> now < rows[id].expires
    ensures !Consumable(rows, id, now) ==> Consume(rows, id, now) == rows
  {
  }

  lemma SameRoles(s: State, t: State, req: Request, isAdmin: bool, role: bool, owner: bool)
    requires s.roles == t.roles
    ensures MayAct(s, req, isAdmin, role) == MayAct(t, req, isAdmin, role)
    ensures MayGrant(s, req, isAdmin, owner) == MayGrant(t, req, isAdmin, owner)
  {
  }

  // ---------- The other direct grants ----------

  /** Creating a user, or an organization in the wizard, writes the role exactly for a platform
      admin. */
  lemma AdminGrantIff(s: State, pid: string, req: Request, answered: bool, reply: Reply)
    requires pid !in s.procs && req.kind == ByAdmin
    ensures var t := Next(Next(Next(s, Do(pid, Start(req))), Do(pid, Require(answered))), Do(pid, Grant(reply)));
      t.roles == if req.actor in s.admins && reply != Refused then s.roles[(req.org, req.user) := req.role] else s.roles
  {
    hide Next;
    var isAdmin := req.actor in s.admins;
    StartRuns(s, pid, req);
    var s1 := Next(s, Do(pid, Start(req)));
    RequireRuns(s1, pid, req, isAdmin, answered);
    var s2 := Next(s1, Do(pid, Require(answered)));
    if isAdmin {
      GrantRuns(s2, pid, req, reply);
    } else {
      Finished(s2, pid, Grant(reply));
    }
  }
}
