/** Where owner roles come from, over every run of the grant protocol. */
module OwnerProvenance {
  import opened Replies
  import opened Text
  import opened Invites

  // ---------- Owner provenance ----------

  /** Some check saw `actor` as a platform admin, or as an owner of `org`. */
  predicate Sanctioned(log: seq<Event>, actor: string, org: string) {
    SawAdmin(actor) in log || SawOwner(actor, org) in log
  }

  predicate ProcSanctioned(log: seq<Event>, p: Proc) {
    match p
    case Started(req, isAdmin) => isAdmin ==> SawAdmin(req.actor) in log
    case Admitted(req, isAdmin) => isAdmin ==> SawAdmin(req.actor) in log
    case Cleared(req) => req.role == Owner ==> Sanctioned(log, req.actor, req.org)
    case Unaffiliated(req) => req.role == Owner ==> Sanctioned(log, req.actor, req.org)
    case Burnt(req) => req.role == Owner ==> Sanctioned(log, req.actor, req.org)
    case Found(_, inv, _) => inv.role == Owner ==> Sanctioned(log, inv.invitedBy, inv.org)
    case PasswordDone(_, inv) => inv.role == Owner ==> Sanctioned(log, inv.invitedBy, inv.org)
    case Redeemed(_, inv) => inv.role == Owner ==> Sanctioned(log, inv.invitedBy, inv.org)
    case Done(_) => true
  }

  ghost predicate OwnerInv(s: State) {
    && (forall pid :: pid in s.procs ==> ProcSanctioned(s.log, s.procs[pid]))
    && (forall id :: id in s.invites && s.invites[id].role == Owner ==>
         Sanctioned(s.log, s.invites[id].invitedBy, s.invites[id].org))
    && (forall j :: 0 <= j < |s.log| && s.log[j].Granted? && s.log[j].role == Owner ==>
         Sanctioned(s.log[..j], s.log[j].actor, s.log[j].org))
  }

  lemma SanctionsKept(s: State, e: Effect)
    ensures forall ev :: ev in s.log ==> ev in Apply(s, "", e).log
    ensures e.event.Some? ==> e.event.value in Apply(s, "", e).log
  {
  }

  /** What an effect must establish to keep owner provenance. */
  ghost predicate GoodEffect(s: State, e: Effect) {
    var log := Apply(s, "", e).log;
    && ProcSanctioned(log, e.proc)
    && (e.event.Some? && e.event.value.Granted? && e.event.value.role == Owner ==>
         Sanctioned(s.log, e.event.value.actor, e.event.value.org))
    && (forall id :: id in e.invites && e.invites[id].role == Owner ==>
         Sanctioned(log, e.invites[id].invitedBy, e.invites[id].org))
  }

  lemma ApplyKeepsOwnerInv(s: State, pid: string, e: Effect)
    requires OwnerInv(s) && GoodEffect(s, e)
    ensures OwnerInv(Apply(s, pid, e))
  {
    var s' := Apply(s, pid, e);
    SanctionsKept(s, e);
    forall j | 0 <= j < |s'.log| && s'.log[j].Granted? && s'.log[j].role == Owner
      ensures Sanctioned(s'.log[..j], s'.log[j].actor, s'.log[j].org)
    {
      if j < |s.log| {
        assert s'.log[..j] == s.log[..j];
      } else {
        assert s'.log[..j] == s.log;
      }
    }
  }

  /** Rows that differ from known ones at most in acceptance. */
  predicate SameGrants(rows: map<string, Invite>, rows': map<string, Invite>) {
    forall id :: id in rows' ==> id in rows && rows'[id].(accepted := rows[id].accepted) == rows[id]
  }

  lemma OldInvitesGood(s: State, e: Effect)
    requires OwnerInv(s) && SameGrants(s.invites, e.invites)
    requires StageGood(s, e)
    ensures GoodEffect(s, e)
  {
    SanctionsKept(s, e);
  }

  lemma NewInviteGood(s: State, r: Request, id: string, ttl: nat, reply: Reply)
    requires OwnerInv(s) && (r.role == Owner ==> Sanctioned(s.log, r.actor, r.org))
    ensures GoodEffect(s, DoInsert(s, r, id, ttl, reply))
  {
    SanctionsKept(s, DoInsert(s, r, id, ttl, reply));
  }

  /** The new stage is sanctioned, and so is an owner grant. */
  predicate StageGood(s: State, e: Effect) {
    && ProcSanctioned(Apply(s, "", e).log, e.proc)
    && (e.event.Some? && e.event.value.Granted? && e.event.value.role == Owner ==>
         Sanctioned(s.log, e.event.value.actor, e.event.value.org))
  }

  /** Stages are judged by what is already in the log; adding an event keeps them. */
  lemma StageByLog(s: State, e: Effect)
    requires ProcSanctioned(s.log, e.proc)
      || (e.event.Some? && ProcSanctioned(s.log + [e.event.value], e.proc))
    requires e.event.Some? && e.event.value.Granted? && e.event.value.role == Owner ==>
      Sanctioned(s.log, e.event.value.actor, e.event.value.org)
    ensures StageGood(s, e)
  {
    SanctionsKept(s, e);
  }

  lemma StartStage(s: State, req: Request)
    ensures StageGood(s, DoStart(s, req))
  {
    assert SawAdmin(req.actor) in s.log + [SawAdmin(req.actor)];
    StageByLog(s, DoStart(s, req));
  }

  lemma CheckOwnerStage(s: State, req: Request, isAdmin: bool, answered: bool)
    requires isAdmin ==> SawAdmin(req.actor) in s.log
    ensures StageGood(s, DoCheckOwner(s, req, isAdmin, answered))
  {
    assert SawOwner(req.actor, req.org) in s.log + [SawOwner(req.actor, req.org)];
    StageByLog(s, DoCheckOwner(s, req, isAdmin, answered));
  }

  lemma LookStage(s: State, pid: string, id: string, password: string, answered: bool)
    requires OwnerInv(s)
    ensures StageGood(s, DoLook(s, pid, id, password, answered))
  {
    StageByLog(s, DoLook(s, pid, id, password, answered));
  }

  lemma RedeemStage(s: State, pid: string, id: string, reply: Reply)
    requires OwnerInv(s)
    ensures StageGood(s, DoRedeem(s, pid, id, reply))
  {
    StageByLog(s, DoRedeem(s, pid, id, reply));
  }

  lemma CommandStage(s: State, pid: string, cmd: Command)
    requires OwnerInv(s) && Act(s, pid, cmd).Some? && !cmd.Insert?
    ensures StageGood(s, Act(s, pid, cmd).value)
  {
    hide StageGood, OwnerInv;
    match cmd
    case Start(req) => StartStage(s, req);
    case Look(id, password, answered) => LookStage(s, pid, id, password, answered);
    case CheckOwner(answered) =>
      StageKnown(s, pid);
      CheckOwnerStage(s, s.procs[pid].req, s.procs[pid].isAdmin, answered);
    case Redeem(reply) => RedeemStage(s, pid, s.procs[pid].id, reply);
    case Insert(_, _, _) =>
    case _ => StageKnown(s, pid); StageByLog(s, Act(s, pid, cmd).value);
  }

  lemma StageKnown(s: State, pid: string)
    requires OwnerInv(s) && pid in s.procs
    ensures ProcSanctioned(s.log, s.procs[pid])
  {
  }

  lemma CommandRows(s: State, pid: string, cmd: Command)
    requires Act(s, pid, cmd).Some? && !cmd.Insert?
    ensures SameGrants(s.invites, Act(s, pid, cmd).value.invites)
  {
  }

  lemma CommandsSanctioned(s: State, pid: string, cmd: Command)
    requires OwnerInv(s) && Act(s, pid, cmd).Some?
    ensures GoodEffect(s, Act(s, pid, cmd).value)
  {
    hide GoodEffect, Apply, SameGrants, StageGood;
    if cmd.Insert? {
      NewInviteGood(s, s.procs[pid].req, cmd.id, cmd.ttl, cmd.reply);
    } else {
      CommandStage(s, pid, cmd);
      CommandRows(s, pid, cmd);
      OldInvitesGood(s, Act(s, pid, cmd).value);
    }
  }

  lemma NextKeepsOwnerInv(s: State, step: Step)
    requires OwnerInv(s)
    ensures OwnerInv(Next(s, step))
  {
    hide GoodEffect, Apply, Act;
    match step
    case Do(pid, cmd) =>
      if Act(s, pid, cmd).Some? {
        CommandsSanctioned(s, pid, cmd);
        ApplyKeepsOwnerInv(s, pid, Act(s, pid, cmd).value);
      }
    case _ =>
  }

  lemma {:induction false} RunKeepsOwnerInv(s: State, steps: seq<Step>)
    requires Initial(s)
    ensures OwnerInv(Exec(s, steps))
  {
    if steps != [] {
      RunKeepsOwnerInv(s, steps[..|steps| - 1]);
      NextKeepsOwnerInv(Exec(s, steps[..|steps| - 1]), steps[|steps| - 1]);
    }
  }

  /** In this state `actor` is a platform admin or an owner of `org`. */
  predicate Entitled(s: State, actor: string, org: string) {
    actor in s.admins || RoleOf(s, org, actor) == Some(Owner)
  }

  /** Some state of the run, before the log reached `bound` events, entitled the actor. */
  ghost predicate WasEntitled(s: State, steps: seq<Step>, actor: string, org: string, bound: nat) {
    exists k :: 0 <= k <= |steps| && |Exec(s, steps[..k]).log| <= bound && Entitled(Exec(s, steps[..k]), actor, org)
  }

  predicate Witness(e: Event, actor: string, org: string) {
    e == SawAdmin(actor) || e == SawOwner(actor, org)
  }

  lemma EffectWitness(s: State, pid: string, cmd: Command, actor: string, org: string)
    requires Act(s, pid, cmd).Some? && Act(s, pid, cmd).value.event.Some?
    requires Witness(Act(s, pid, cmd).value.event.value, actor, org)
    ensures Entitled(s, actor, org)
  {
    hide Burn, Consume, Consumable, Acceptable;
  }

  lemma NewWitness(s: State, step: Step, actor: string, org: string)
    requires |Next(s, step).log| == |s.log| + 1 && Witness(Next(s, step).log[|s.log|], actor, org)
    ensures Entitled(s, actor, org)
  {
    hide Act, Witness, Entitled;
    if step.Do? {
      EffectWitness(s, step.pid, step.cmd, actor, org);
    }
  }

  lemma LogGrows(s: State, step: Step)
    ensures Next(s, step).log == s.log
      || (|Next(s, step).log| == |s.log| + 1 && Next(s, step).log[..|s.log|] == s.log)
  {
    hide Act;
  }

  /** A recorded check was true when it was made. */
  lemma {:induction false} WitnessIsTrue(s: State, steps: seq<Step>, j: nat, actor: string, org: string)
    requires Initial(s) && j < |Exec(s, steps).log| && Witness(Exec(s, steps).log[j], actor, org)
    ensures WasEntitled(s, steps, actor, org, j)
  {
    hide Next, Entitled, Witness;
    var n := |steps| - 1;
    var init := steps[..n];
    var t := Exec(s, init);
    LogGrows(t, steps[n]);
    if j < |t.log| {
      WitnessIsTrue(s, init, j, actor, org);
      var k :| 0 <= k <= |init| && |Exec(s, init[..k]).log| <= j && Entitled(Exec(s, init[..k]), actor, org);
      assert init[..k] == steps[..k];
    } else {
      NewWitness(t, steps[n], actor, org);
    }
  }

  /** Owner provenance: in every run, every owner role written by adding a member, by
      onboarding, by an admin-only handler or by redeeming an invite (however much later)
      was preceded by a state in which the acting user, for an invite the user who issued
      it, was an owner of that organization or a platform admin. */
  lemma EveryOwnerGrantWasEntitled(s: State, steps: seq<Step>, j: nat)
    requires Initial(s) && j < |Exec(s, steps).log|
    requires Exec(s, steps).log[j].Granted? && Exec(s, steps).log[j].role == Owner
    ensures WasEntitled(s, steps, Exec(s, steps).log[j].actor, Exec(s, steps).log[j].org, j)
  {
    hide Next, Exec;
    var log := Exec(s, steps).log;
    RunKeepsOwnerInv(s, steps);
    assert Sanctioned(log[..j], log[j].actor, log[j].org);
    var e := if SawAdmin(log[j].actor) in log[..j] then SawAdmin(log[j].actor) else SawOwner(log[j].actor, log[j].org);
    var i :| 0 <= i < j && log[i] == e;
    WitnessIsTrue(s, steps, i, log[j].actor, log[j].org);
  }
}
