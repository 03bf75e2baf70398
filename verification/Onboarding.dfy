/** The one-shot onboarding of an installation: the wizard, the verify endpoint, the
    background poller and per-domain verification, interleaved one statement or external
    call at a time (internal/httpapi/verify_poll.go, setup_handlers.go, domain_handlers.go,
    internal/store/setup.go). */
module Onboarding {
  import opened Text
  import opened Replies

  // ---------- The singleton row ----------

  /** `settings` stands for the provider pair and its sealed configuration. */
  datatype Installation = Installation(primary: Option<string>, settings: string, onboardedAt: Option<int>)

  predicate Onboarded(i: Installation) {
    i.onboardedAt.Some?
  }

  // ---------- Processes ----------

  datatype Domain = Domain(token: string, verified: bool)

  /** Who runs a verification: the endpoint, the poller, or the per-domain endpoint. */
  datatype Caller = Endpoint | Poller | PerDomain

  /** `at` is the time the request read from the clock before it wrote anything. */
  datatype Proc =
    | WizardOpen
    | DomainMade(id: string)
    | ProviderSet(id: string)
    | Polling
    | Pending(caller: Caller, id: string)
    | Looking(caller: Caller, id: string, token: string)
    | Matched(caller: Caller, id: string, at: int)
    | Marked(caller: Caller, id: string, at: int)
    | Stopping
    | Done

  datatype Event =
    | DomainCreated(id: string, token: string)
    | MadePrimary(id: string)
    | LookupMatched(id: string, token: string)
    | MarkedVerified(id: string)
    | BecameOnboarded(id: string, at: int)
    | PollerStopped

  datatype State = State(
    now: int, inst: Installation, domains: map<string, Domain>, ids: set<string>,
    procs: map<string, Proc>, log: seq<Event>)

  /** A query carries whether it was answered, a statement how it ended. */
  datatype Command =
    | OpenWizard(answered: bool)
    | CreateDomain(id: string, token: string, reply: Reply)
    | RegisterDomain(id: string, token: string)
    | SetProvider(settings: string, reply: Reply)
    | SetPrimary(reply: Reply)
    | StartPoll(answered: bool)
    | StartVerify(caller: Caller, answered: bool)
    | StartDomainVerify(id: string)
    | ReadDomain(answered: bool)
    | Lookup(txts: Option<seq<string>>)
    | MarkVerified(reply: Reply)
    | FinishOnboarding(reply: Reply)
    | Stop
    | Abort

  datatype Step =
    | Do(pid: string, cmd: Command)
    | Tick(d: nat)
    | DeleteDomain(id: string)

  datatype Effect = Effect(
    proc: Proc, event: Option<Event>, inst: Installation, domains: map<string, Domain>, ids: set<string>)

  function Stage(s: State, p: Proc): Effect {
    Effect(p, None, s.inst, s.domains, s.ids)
  }

  /** A domain row with a fresh id and verification token, not yet verified. */
  function DoCreate(s: State, p: Proc, id: string, token: string): Effect {
    Stage(s, p).(domains := s.domains[id := Domain(token, false)], ids := s.ids + {id},
                 event := Some(DomainCreated(id, token)))
  }

  /** The read of the installation row with which a verification begins. */
  function DoStartVerify(s: State, caller: Caller, answered: bool): Effect {
    if !answered || Onboarded(s.inst) || s.inst.primary.None? then Stage(s, Done)
    else Stage(s, Pending(caller, s.inst.primary.value))
  }

  /** The poller's own read: onboarded, it will stop; no primary yet, it keeps watching. */
  function DoStartPoll(s: State, answered: bool): Effect {
    if !answered then Stage(s, Done)
    else if Onboarded(s.inst) then Stage(s, Stopping)
    else if s.inst.primary.None? then Stage(s, Done)
    else Stage(s, Polling)
  }

  /** An already verified primary goes straight to completion; the per-domain endpoint
      looks the record up whatever the status. */
  function DoReadDomain(s: State, caller: Caller, id: string, answered: bool): Effect {
    if !answered || id !in s.domains then Stage(s, Done)
    else if s.domains[id].verified && caller != PerDomain then Stage(s, Marked(caller, id, s.now))
    else Stage(s, Looking(caller, id, s.domains[id].token))
  }

  function DoLookup(s: State, caller: Caller, id: string, token: string, txts: Option<seq<string>>): Effect {
    if txts.Some? && token in txts.value
    then Stage(s, Matched(caller, id, s.now)).(event := Some(LookupMatched(id, token)))
    else Stage(s, Done)
  }

  function DoMarkVerified(s: State, caller: Caller, id: string, at: int, reply: Reply): Effect {
    if reply == Refused || id !in s.domains then Stage(s, Done)
    else
      Stage(s, if caller == PerDomain || reply == Lost then Done else Marked(caller, id, at)).(
        domains := s.domains[id := s.domains[id].(verified := true)], event := Some(MarkedVerified(id)))
  }

  /** The guarded completion. Whether or not a row matched it is reported as success, on
      which the poller goes on to stop. */
  function DoFinish(s: State, caller: Caller, id: string, at: int, reply: Reply): Effect {
    var next := Stage(s, if caller == Poller && reply == Applied then Stopping else Done);
    if reply == Refused || Onboarded(s.inst) then next
    else next.(inst := s.inst.(onboardedAt := Some(at)), event := Some(BecameOnboarded(id, at)))
  }

  function DoStop(s: State): Effect {
    Stage(s, Done).(event := Some(PollerStopped))
  }

  /** No row matches once the installation is onboarded, which is an error. */
  function DoSetProvider(s: State, id: string, settings: string, reply: Reply): Effect {
    if reply == Refused || Onboarded(s.inst) then Stage(s, Done)
    else Stage(s, if reply == Applied then ProviderSet(id) else Done).(inst := s.inst.(settings := settings))
  }

  function DoSetPrimary(s: State, id: string, reply: Reply): Effect {
    if reply == Refused || Onboarded(s.inst) || id !in s.domains then Stage(s, Done)
    else Stage(s, Done).(inst := s.inst.(primary := Some(id)), event := Some(MadePrimary(id)))
  }

  function Act(s: State, pid: string, cmd: Command): Option<Effect> {
    var p: Option<Proc> := if pid in s.procs then Some(s.procs[pid]) else None;
    match (cmd, p)
    case (OpenWizard(answered), None) =>
      Some(Stage(s, if !answered || Onboarded(s.inst) then Done else WizardOpen))
    case (CreateDomain(id, token, reply), Some(WizardOpen)) =>
      if id in s.ids then None
      else if reply == Refused then Some(Stage(s, Done))
      else Some(DoCreate(s, if reply == Applied then DomainMade(id) else Done, id, token))
    case (RegisterDomain(id, token), None) =>
      if id in s.ids then None else Some(DoCreate(s, Done, id, token))
    case (SetProvider(settings, reply), Some(DomainMade(id))) => Some(DoSetProvider(s, id, settings, reply))
    case (SetPrimary(reply), Some(ProviderSet(id))) => Some(DoSetPrimary(s, id, reply))
    case (StartPoll(answered), None) => Some(DoStartPoll(s, answered))
    case (StartVerify(_, answered), Some(Polling)) => Some(DoStartVerify(s, Poller, answered))
    case (StartVerify(caller, answered), None) =>
      if caller == Endpoint then Some(DoStartVerify(s, Endpoint, answered)) else None
    case (StartDomainVerify(id), None) => Some(Stage(s, Pending(PerDomain, id)))
    case (ReadDomain(answered), Some(Pending(caller, id))) => Some(DoReadDomain(s, caller, id, answered))
    case (Lookup(txts), Some(Looking(caller, id, token))) => Some(DoLookup(s, caller, id, token, txts))
    case (MarkVerified(reply), Some(Matched(caller, id, at))) => Some(DoMarkVerified(s, caller, id, at, reply))
    case (FinishOnboarding(reply), Some(Marked(caller, id, at))) => Some(DoFinish(s, caller, id, at, reply))
    case (Stop, Some(Stopping)) => Some(DoStop(s))
    case (Abort, Some(_)) => Some(Stage(s, Done))
    case _ => None
  }

  function Apply(s: State, pid: string, e: Effect): State {
    s.(procs := s.procs[pid := e.proc], inst := e.inst, domains := e.domains, ids := e.ids,
       log := if e.event.Some? then s.log + [e.event.value] else s.log)
  }

  /** Deleting a domain clears the primary-domain reference to it. */
  function Delete(s: State, id: string): State {
    s.(domains := s.domains - {id},
       inst := if s.inst.primary == Some(id) then s.inst.(primary := None) else s.inst)
  }

  function Next(s: State, step: Step): State {
    match step
    case Do(pid, cmd) => var e := Act(s, pid, cmd); if e.Some? then Apply(s, pid, e.value) else s
    case Tick(d) => s.(now := s.now + d)
    case DeleteDomain(id) => Delete(s, id)
  }

  function Exec(s: State, steps: seq<Step>): State {
    if steps == [] then s else Next(Exec(s, steps[..|steps| - 1]), steps[|steps| - 1])
  }

  /** A fresh installation: the migration's row, no domain yet. */
  predicate Initial(s: State) {
    && s.inst.primary.None? && s.inst.onboardedAt.None?
    && s.domains == map[] && s.ids == {} && s.procs == map[] && s.log == []
  }

  // ---------- Running several steps ----------

  lemma ExecNone(s: State)
    ensures Exec(s, []) == s
  {
  }

  lemma ExecSnoc(s: State, steps: seq<Step>, step: Step)
    ensures Exec(s, steps + [step]) == Next(Exec(s, steps), step)
  {
    hide Next;
    assert (steps + [step])[..|steps|] == steps;
  }

  lemma Exec2(s: State, a: Step, b: Step)
    ensures Exec(s, [a, b]) == Next(Next(s, a), b)
  {
    hide Next, Exec;
    ExecNone(s);
    ExecSnoc(s, [], a);
    ExecSnoc(s, [a], b);
    assert [] + [a] == [a] && [a] + [b] == [a, b];
  }

  lemma Exec4(s: State, a: Step, b: Step, c: Step, d: Step)
    ensures Exec(s, [a, b, c, d]) == Next(Next(Next(Next(s, a), b), c), d)
  {
    hide Next, Exec;
    Exec2(s, a, b);
    ExecSnoc(s, [a, b], c);
    ExecSnoc(s, [a, b, c], d);
    assert [a, b] + [c] == [a, b, c] && [a, b, c] + [d] == [a, b, c, d];
  }

  lemma Exec5(s: State, a: Step, b: Step, c: Step, d: Step, e: Step)
    ensures Exec(s, [a, b, c, d, e]) == Next(Next(Next(Next(Next(s, a), b), c), d), e)
  {
    hide Next, Exec;
    Exec4(s, a, b, c, d);
    ExecSnoc(s, [a, b, c, d], e);
    assert [a, b, c, d] + [e] == [a, b, c, d, e];
  }

  lemma {:induction false} ExecAppend(s: State, a: seq<Step>, b: seq<Step>)
    ensures Exec(s, a + b) == Exec(Exec(s, a), b)
    decreases |b|
  {
    hide Next;
    if b == [] {
      assert a + b == a;
    } else {
      ExecAppend(s, a, b[..|b| - 1]);
      assert (a + b)[..|a + b| - 1] == a + b[..|b| - 1];
    }
  }
}
