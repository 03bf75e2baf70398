/** What holds over every run of onboarding, and where the current primary domain can be
    one that was never verified. */
module OnboardingSafety {
  import opened Text
  import opened Replies
  import opened Onboarding

  // ---------- The history invariant ----------

  ghost predicate OnboardedIn(log: seq<Event>) {
    exists j :: 0 <= j < |log| && log[j].BecameOnboarded?
  }

  /** A lookup returned the token this domain was created with. */
  ghost predicate TokenSeen(log: seq<Event>, id: string) {
    exists token :: LookupMatched(id, token) in log && DomainCreated(id, token) in log
  }

  /** The domain was marked verified, after a lookup returned its token. */
  ghost predicate Proven(log: seq<Event>, id: string) {
    exists k :: 0 <= k < |log| && log[k] == MarkedVerified(id) && TokenSeen(log[..k], id)
  }

  ghost predicate EventOk(before: seq<Event>, inst: Installation, e: Event) {
    match e
    case LookupMatched(id, token) => DomainCreated(id, token) in before
    case MarkedVerified(id) => TokenSeen(before, id)
    case BecameOnboarded(id, at) =>
      MadePrimary(id) in before && Proven(before, id) && inst.onboardedAt == Some(at) && !OnboardedIn(before)
    case PollerStopped => OnboardedIn(before)
    case _ => true
  }

  ghost predicate ProcOk(log: seq<Event>, p: Proc) {
    match p
    case Pending(caller, id) => caller != PerDomain ==> MadePrimary(id) in log
    case Looking(caller, id, token) =>
      (caller != PerDomain ==> MadePrimary(id) in log) && DomainCreated(id, token) in log
    case Matched(caller, id, _) => (caller != PerDomain ==> MadePrimary(id) in log) && TokenSeen(log, id)
    case Marked(caller, id, _) => caller != PerDomain && MadePrimary(id) in log && Proven(log, id)
    case Stopping => OnboardedIn(log)
    case _ => true
  }

  ghost predicate DomainOk(log: seq<Event>, id: string, d: Domain) {
    DomainCreated(id, d.token) in log && (d.verified ==> Proven(log, id))
  }

  ghost predicate InstOk(log: seq<Event>, inst: Installation) {
    && (Onboarded(inst) <==> OnboardedIn(log))
    && (inst.primary.Some? ==> MadePrimary(inst.primary.value) in log)
  }

  ghost predicate Inv(s: State) {
    && (forall j :: 0 <= j < |s.log| ==> EventOk(s.log[..j], s.inst, s.log[j]))
    && (forall pid :: pid in s.procs ==> ProcOk(s.log, s.procs[pid]))
    && (forall id :: id in s.domains ==> DomainOk(s.log, id, s.domains[id]))
    && InstOk(s.log, s.inst)
  }

  // ---------- Growing the log ----------

  lemma TokenSeenGrows(log: seq<Event>, e: Event, id: string)
    requires TokenSeen(log, id)
    ensures TokenSeen(log + [e], id)
  {
    var token :| LookupMatched(id, token) in log && DomainCreated(id, token) in log;
    assert LookupMatched(id, token) in log + [e] && DomainCreated(id, token) in log + [e];
  }

  lemma ProvenGrows(log: seq<Event>, e: Event, id: string)
    requires Proven(log, id)
    ensures Proven(log + [e], id)
  {
    var k :| 0 <= k < |log| && log[k] == MarkedVerified(id) && TokenSeen(log[..k], id);
    assert (log + [e])[k] == log[k] && (log + [e])[..k] == log[..k];
  }

  lemma JustProven(log: seq<Event>, id: string)
    requires TokenSeen(log, id)
    ensures Proven(log + [MarkedVerified(id)], id)
  {
    var l := log + [MarkedVerified(id)];
    assert l[|log|] == MarkedVerified(id) && l[..|log|] == log;
  }

  lemma OnboardedInSnoc(log: seq<Event>, e: Event)
    ensures OnboardedIn(log + [e]) <==> OnboardedIn(log) || e.BecameOnboarded?
  {
    var l := log + [e];
    assert l[|log|] == e;
    if OnboardedIn(log) {
      var j :| 0 <= j < |log| && log[j].BecameOnboarded?;
      assert l[j] == log[j];
    }
  }

  lemma ProcGrows(log: seq<Event>, e: Event, p: Proc)
    requires ProcOk(log, p)
    ensures ProcOk(log + [e], p)
  {
    hide TokenSeen, Proven;
    match p
    case Matched(_, id, _) => TokenSeenGrows(log, e, id);
    case Marked(_, id, _) => ProvenGrows(log, e, id);
    case Stopping => OnboardedInSnoc(log, e);
    case _ =>
  }

  lemma DomainGrows(log: seq<Event>, e: Event, id: string, d: Domain)
    requires DomainOk(log, id, d)
    ensures DomainOk(log + [e], id, d)
  {
    hide Proven;
    if d.verified {
      ProvenGrows(log, e, id);
    }
  }

  function NewLog(s: State, e: Effect): seq<Event> {
    if e.event.Some? then s.log + [e.event.value] else s.log
  }

  /** The acceptance time, once written, is kept. */
  predicate TimeKept(a: Installation, b: Installation) {
    a.onboardedAt.Some? ==> b.onboardedAt == a.onboardedAt
  }

  ghost predicate GoodEffect(s: State, e: Effect) {
    && TimeKept(s.inst, e.inst)
    && (e.event.Some? ==> EventOk(s.log, e.inst, e.event.value))
    && ProcOk(NewLog(s, e), e.proc)
    && (forall id :: id in e.domains ==> DomainOk(NewLog(s, e), id, e.domains[id]))
    && InstOk(NewLog(s, e), e.inst)
  }

  lemma EventKept(before: seq<Event>, a: Installation, b: Installation, e: Event)
    requires EventOk(before, a, e) && TimeKept(a, b)
    ensures EventOk(before, b, e)
  {
  }

  lemma ApplyKeepsInv(s: State, pid: string, e: Effect)
    requires Inv(s) && GoodEffect(s, e)
    ensures Inv(Apply(s, pid, e))
  {
    hide EventOk, ProcOk, DomainOk, InstOk, TimeKept;
    var s' := Apply(s, pid, e);
    forall j | 0 <= j < |s'.log|
      ensures EventOk(s'.log[..j], s'.inst, s'.log[j])
    {
      if j < |s.log| {
        assert s'.log[..j] == s.log[..j];
        EventKept(s.log[..j], s.inst, s'.inst, s.log[j]);
      } else {
        assert s'.log[..j] == s.log;
      }
    }
    forall q | q in s'.procs
      ensures ProcOk(s'.log, s'.procs[q])
    {
      if q != pid && e.event.Some? {
        ProcGrows(s.log, e.event.value, s.procs[q]);
      }
    }
  }

  // ---------- Every command ----------

  /** Effects that touch neither domains nor the installation row. */
  lemma PlainGood(s: State, e: Effect)
    requires Inv(s) && e.inst == s.inst && e.domains == s.domains
    requires e.event.Some? ==> EventOk(s.log, s.inst, e.event.value) && !e.event.value.BecameOnboarded?
    requires ProcOk(NewLog(s, e), e.proc)
    ensures GoodEffect(s, e)
  {
    hide EventOk, ProcOk, DomainOk;
    if e.event.Some? {
      OnboardedInSnoc(s.log, e.event.value);
      forall id | id in e.domains
        ensures DomainOk(NewLog(s, e), id, e.domains[id])
      {
        DomainGrows(s.log, e.event.value, id, s.domains[id]);
      }
    }
  }

  lemma CreateGood(s: State, p: Proc, id: string, token: string)
    requires Inv(s) && (p == Done || p == DomainMade(id))
    ensures GoodEffect(s, DoCreate(s, p, id, token))
  {
    hide Proven;
    var e, ev := DoCreate(s, p, id, token), DomainCreated(id, token);
    OnboardedInSnoc(s.log, ev);
    forall x | x in e.domains
      ensures DomainOk(NewLog(s, e), x, e.domains[x])
    {
      if x != id {
        DomainGrows(s.log, ev, x, s.domains[x]);
      }
    }
  }

  lemma LookupGood(s: State, caller: Caller, id: string, token: string, txts: Option<seq<string>>)
    requires Inv(s) && ProcOk(s.log, Looking(caller, id, token))
    ensures GoodEffect(s, DoLookup(s, caller, id, token, txts))
  {
    var e := DoLookup(s, caller, id, token, txts);
    if e.event.Some? {
      var l := s.log + [LookupMatched(id, token)];
      assert LookupMatched(id, token) in l && DomainCreated(id, token) in l;
      assert TokenSeen(l, id);
    }
    PlainGood(s, e);
  }

  lemma MarkGood(s: State, caller: Caller, id: string, at: int, reply: Reply)
    requires Inv(s) && ProcOk(s.log, Matched(caller, id, at))
    ensures GoodEffect(s, DoMarkVerified(s, caller, id, at, reply))
  {
    hide Proven, TokenSeen;
    var e, ev := DoMarkVerified(s, caller, id, at, reply), MarkedVerified(id);
    if e.event.None? {
      PlainGood(s, e);
    } else {
      OnboardedInSnoc(s.log, ev);
      JustProven(s.log, id);
      assert DomainOk(s.log, id, s.domains[id]);
      forall x | x in e.domains
        ensures DomainOk(NewLog(s, e), x, e.domains[x])
      {
        if x != id {
          DomainGrows(s.log, ev, x, s.domains[x]);
        }
      }
    }
  }

  lemma FinishGood(s: State, caller: Caller, id: string, at: int, reply: Reply)
    requires Inv(s) && ProcOk(s.log, Marked(caller, id, at))
    ensures GoodEffect(s, DoFinish(s, caller, id, at, reply))
  {
    hide Proven, DomainOk;
    var ev := BecameOnboarded(id, at);
    if reply == Refused || Onboarded(s.inst) {
      PlainGood(s, DoFinish(s, caller, id, at, reply));
    } else {
      OnboardedInSnoc(s.log, ev);
      ProvenGrows(s.log, ev, id);
      forall x | x in s.domains
        ensures DomainOk(s.log + [ev], x, s.domains[x])
      {
        DomainGrows(s.log, ev, x, s.domains[x]);
      }
    }
  }

  lemma SetPrimaryGood(s: State, id: string, reply: Reply)
    requires Inv(s)
    ensures GoodEffect(s, DoSetPrimary(s, id, reply))
  {
    hide Proven, DomainOk;
    var e, ev := DoSetPrimary(s, id, reply), MadePrimary(id);
    if e.event.None? {
      PlainGood(s, e);
    } else {
      OnboardedInSnoc(s.log, ev);
      forall x | x in s.domains
        ensures DomainOk(s.log + [ev], x, s.domains[x])
      {
        DomainGrows(s.log, ev, x, s.domains[x]);
      }
    }
  }

  lemma SetProviderGood(s: State, id: string, settings: string, reply: Reply)
    requires Inv(s)
    ensures GoodEffect(s, DoSetProvider(s, id, settings, reply))
  {
    hide DomainOk;
  }

  lemma CommandGood(s: State, pid: string, cmd: Command)
    requires Inv(s) && Act(s, pid, cmd).Some?
    ensures GoodEffect(s, Act(s, pid, cmd).value)
  {
    hide GoodEffect, EventOk, DomainOk, DoCreate, DoLookup, DoMarkVerified, DoFinish, DoSetPrimary, DoSetProvider;
    match cmd
    case CreateDomain(id, token, reply) => CreateCase(s, id, token, reply);
    case RegisterDomain(id, token) => CreateGood(s, Done, id, token);
    case Lookup(txts) => LookupGood(s, s.procs[pid].caller, s.procs[pid].id, s.procs[pid].token, txts);
    case MarkVerified(reply) => MarkGood(s, s.procs[pid].caller, s.procs[pid].id, s.procs[pid].at, reply);
    case FinishOnboarding(reply) => FinishGood(s, s.procs[pid].caller, s.procs[pid].id, s.procs[pid].at, reply);
    case SetPrimary(reply) => SetPrimaryGood(s, s.procs[pid].id, reply);
    case SetProvider(settings, reply) => SetProviderGood(s, s.procs[pid].id, settings, reply);
    case ReadDomain(answered) => ReadGood(s, s.procs[pid].caller, s.procs[pid].id, answered);
    case StartPoll(answered) => StartPollGood(s, answered);
    case Stop => StopGood(s);
    case _ => PlainGood(s, Act(s, pid, cmd).value);
  }

  lemma CreateCase(s: State, id: string, token: string, reply: Reply)
    requires Inv(s)
    ensures GoodEffect(s, Stage(s, Done))
    ensures GoodEffect(s, DoCreate(s, if reply == Applied then DomainMade(id) else Done, id, token))
  {
    hide GoodEffect, DoCreate;
    PlainGood(s, Stage(s, Done));
    CreateGood(s, if reply == Applied then DomainMade(id) else Done, id, token);
  }

  lemma ReadGood(s: State, caller: Caller, id: string, answered: bool)
    requires Inv(s) && ProcOk(s.log, Pending(caller, id))
    ensures GoodEffect(s, DoReadDomain(s, caller, id, answered))
  {
    hide Proven;
    if id in s.domains {
      assert DomainOk(s.log, id, s.domains[id]);
    }
    PlainGood(s, DoReadDomain(s, caller, id, answered));
  }

  lemma StartPollGood(s: State, answered: bool)
    requires Inv(s)
    ensures GoodEffect(s, DoStartPoll(s, answered))
  {
    PlainGood(s, DoStartPoll(s, answered));
  }

  /** The stop itself looks at nothing: what it needs came with the stage. */
  lemma StopGood(s: State)
    requires Inv(s) && ProcOk(s.log, Stopping)
    ensures GoodEffect(s, DoStop(s))
  {
    PlainGood(s, DoStop(s));
  }

  lemma DeleteKeepsInv(s: State, id: string)
    requires Inv(s)
    ensures Inv(Delete(s, id))
  {
    hide ProcOk, DomainOk, Proven, TokenSeen, OnboardedIn;
    forall j | 0 <= j < |s.log|
      ensures EventOk(s.log[..j], Delete(s, id).inst, s.log[j])
    {
      EventKept(s.log[..j], s.inst, Delete(s, id).inst, s.log[j]);
    }
  }

  lemma TickKeepsInv(s: State, d: nat)
    requires Inv(s)
    ensures Inv(s.(now := s.now + d))
  {
    hide EventOk, ProcOk, DomainOk, InstOk;
  }

  lemma NextKeepsInv(s: State, step: Step)
    requires Inv(s)
    ensures Inv(Next(s, step))
  {
    hide Act, Inv, Delete, Apply;
    match step
    case Do(pid, cmd) =>
      if Act(s, pid, cmd).Some? {
        CommandGood(s, pid, cmd);
        ApplyKeepsInv(s, pid, Act(s, pid, cmd).value);
      }
    case Tick(d) => TickKeepsInv(s, d);
    case DeleteDomain(id) => DeleteKeepsInv(s, id);
  }

  lemma {:induction false} RunKeepsInv(s: State, steps: seq<Step>)
    requires Initial(s)
    ensures Inv(Exec(s, steps))
  {
    hide Next;
    if steps != [] {
      RunKeepsInv(s, steps[..|steps| - 1]);
      NextKeepsInv(Exec(s, steps[..|steps| - 1]), steps[|steps| - 1]);
    }
  }

  // ---------- History theorems ----------

  /** `onboarded_at` is set at most once in any run. */
  lemma OnboardedAtMostOnce(s: State, steps: seq<Step>, i: nat, j: nat)
    requires Initial(s)
    requires i < j < |Exec(s, steps).log|
    requires Exec(s, steps).log[i].BecameOnboarded?
    ensures !Exec(s, steps).log[j].BecameOnboarded?
  {
    hide Initial, Exec, Proven;
    RunKeepsInv(s, steps);
    var log := Exec(s, steps).log;
    assert log[..j][i] == log[i];
    assert EventOk(log[..j], Exec(s, steps).inst, log[j]);
  }

  /** An onboarded installation was onboarded by an event that carries the recorded time,
      for a domain that had been the primary and had been proven by a lookup of its token. */
  lemma OnboardedWasProven(s: State, steps: seq<Step>) returns (j: nat, id: string)
    requires Initial(s) && Onboarded(Exec(s, steps).inst)
    ensures j < |Exec(s, steps).log|
    ensures Exec(s, steps).log[j] == BecameOnboarded(id, Exec(s, steps).inst.onboardedAt.value)
    ensures MadePrimary(id) in Exec(s, steps).log[..j] && Proven(Exec(s, steps).log[..j], id)
  {
    hide Initial, Exec, Proven;
    RunKeepsInv(s, steps);
    var t := Exec(s, steps);
    assert OnboardedIn(t.log);
    j :| j < |t.log| && t.log[j].BecameOnboarded?;
    id := t.log[j].id;
    assert EventOk(t.log[..j], t.inst, t.log[j]);
  }

  /** Every mark as verified, by whichever caller, follows a lookup that returned the token
      the domain was created with. */
  lemma MarkedWasProven(s: State, steps: seq<Step>, j: nat)
    requires Initial(s)
    requires j < |Exec(s, steps).log| && Exec(s, steps).log[j].MarkedVerified?
    ensures TokenSeen(Exec(s, steps).log[..j], Exec(s, steps).log[j].id)
  {
    hide Initial, Exec, TokenSeen;
    RunKeepsInv(s, steps);
    var t := Exec(s, steps);
    assert EventOk(t.log[..j], t.inst, t.log[j]);
  }

  /** The poller stops on its own only after the installation was onboarded, and it still is. */
  lemma PollerStopsOnlyWhenOnboarded(s: State, steps: seq<Step>, j: nat)
    requires Initial(s)
    requires j < |Exec(s, steps).log| && Exec(s, steps).log[j].PollerStopped?
    ensures OnboardedIn(Exec(s, steps).log[..j]) && Onboarded(Exec(s, steps).inst)
  {
    hide Initial, Exec, Proven;
    RunKeepsInv(s, steps);
    var log := Exec(s, steps).log;
    assert EventOk(log[..j], Exec(s, steps).inst, log[j]);
    var i :| 0 <= i < j && log[..j][i].BecameOnboarded?;
    assert log[i].BecameOnboarded?;
  }

  // ---------- After onboarding ----------

  /** Whether the run deletes the domain. */
  predicate Deletes(steps: seq<Step>, id: Option<string>) {
    id.Some? && DeleteDomain(id.value) in steps
  }

  predicate Frozen(a: Installation, b: Installation, deleted: bool) {
    b == if deleted then a.(primary := None) else a
  }

  lemma NextFrozen(s: State, step: Step)
    requires Onboarded(s.inst)
    ensures Next(s, step).inst == if s.inst.primary.Some? && step == DeleteDomain(s.inst.primary.value)
      then s.inst.(primary := None) else s.inst
  {
    match step
    case Do(pid, cmd) => ActFrozen(s, pid, cmd);
    case _ =>
  }

  lemma ActFrozen(s: State, pid: string, cmd: Command)
    requires Onboarded(s.inst)
    ensures Act(s, pid, cmd).Some? ==> Act(s, pid, cmd).value.inst == s.inst
  {
  }

  /** From any onboarded state every run leaves the installation row as it is, except that
      the primary reference is cleared exactly when the run deletes that domain. */
  lemma {:induction false} FrozenOnceOnboarded(s: State, steps: seq<Step>)
    requires Onboarded(s.inst)
    ensures Frozen(s.inst, Exec(s, steps).inst, Deletes(steps, s.inst.primary))
  {
    hide Next;
    if steps != [] {
      var init, last := steps[..|steps| - 1], steps[|steps| - 1];
      FrozenOnceOnboarded(s, init);
      NextFrozen(Exec(s, init), last);
      assert steps == init + [last];
    }
  }

  // ---------- Is the current primary verified? ----------

  predicate Verified(s: State, id: string) {
    id in s.domains && s.domains[id].verified
  }

  predicate PrimaryVerified(s: State) {
    s.inst.primary.Some? ==> Verified(s, s.inst.primary.value)
  }

  /** A verification of the primary between its read of the row and its completion. */
  predicate InFlight(p: Proc) {
    (p.Pending? || p.Looking? || p.Matched? || p.Marked?) && p.caller != PerDomain
  }

  predicate KnownProc(s: State, p: Proc) {
    && (InFlight(p) ==> p.id in s.ids)
    && (p.Marked? ==> p.caller != PerDomain && p.id in s.ids && (p.id in s.domains ==> s.domains[p.id].verified))
  }

  ghost predicate Tables(s: State) {
    && (s.inst.primary.Some? ==> s.inst.primary.value in s.domains)
    && s.domains.Keys <= s.ids
    && (forall pid :: pid in s.procs ==> KnownProc(s, s.procs[pid]))
  }

  /** Domains of known ids only disappear or become verified. */
  predicate Grown(ids: set<string>, a: map<string, Domain>, b: map<string, Domain>) {
    forall id :: id in ids && id in b ==> id in a && (a[id].verified ==> b[id].verified)
  }

  lemma ActKeepsTables(s: State, pid: string, cmd: Command)
    requires Tables(s) && Act(s, pid, cmd).Some?
    ensures var e := Act(s, pid, cmd).value;
      && (e.inst.primary.Some? ==> e.inst.primary.value in e.domains)
      && e.domains.Keys <= e.ids && s.ids <= e.ids
      && KnownProc(Apply(s, pid, e), e.proc)
      && Grown(s.ids, s.domains, e.domains)
  {
  }

  lemma NextKeepsTables(s: State, step: Step)
    requires Tables(s)
    ensures Tables(Next(s, step))
  {
    hide Act, KnownProc;
    match step
    case Do(pid, cmd) =>
      if Act(s, pid, cmd).Some? {
        ActKeepsTables(s, pid, cmd);
        var e := Act(s, pid, cmd).value;
        forall q | q in Apply(s, pid, e).procs
          ensures KnownProc(Apply(s, pid, e), Apply(s, pid, e).procs[q])
        {
          if q != pid {
            KnownKept(s, Apply(s, pid, e), s.procs[q]);
          }
        }
      }
    case Tick(d) => KnownAll(s, s.(now := s.now + d));
    case DeleteDomain(id) => KnownAll(s, Delete(s, id));
  }

  lemma KnownKept(s: State, t: State, p: Proc)
    requires KnownProc(s, p) && s.ids <= t.ids
    requires Grown(s.ids, s.domains, t.domains)
    ensures KnownProc(t, p)
  {
  }

  lemma KnownAll(s: State, t: State)
    requires Tables(s) && s.ids == t.ids && s.procs == t.procs
    requires forall id :: id in t.domains ==> id in s.domains && t.domains[id] == s.domains[id]
    ensures forall pid :: pid in t.procs ==> KnownProc(t, t.procs[pid])
  {
    hide KnownProc;
    forall pid | pid in t.procs
      ensures KnownProc(t, t.procs[pid])
    {
      KnownKept(s, t, s.procs[pid]);
    }
  }

  lemma {:induction false} RunKeepsTables(s: State, steps: seq<Step>)
    requires Initial(s)
    ensures Tables(Exec(s, steps))
  {
    hide Next;
    if steps != [] {
      RunKeepsTables(s, steps[..|steps| - 1]);
      NextKeepsTables(Exec(s, steps[..|steps| - 1]), steps[|steps| - 1]);
    }
  }

  /** At the step that onboards, in any run: the primary of that moment is verified exactly
      when it is none, is still the domain this verification read, or was verified already. */
  lemma OnboardingVerifiesPrimaryIff(s: State, steps: seq<Step>, pid: string, reply: Reply)
    requires Initial(s) && reply != Refused
    requires pid in Exec(s, steps).procs && Exec(s, steps).procs[pid].Marked?
    requires !Onboarded(Exec(s, steps).inst)
    ensures var t := Exec(s, steps); var t' := Next(t, Do(pid, FinishOnboarding(reply)));
      && Onboarded(t'.inst)
      && (PrimaryVerified(t') <==>
          t.inst.primary == None || t.inst.primary == Some(t.procs[pid].id) || Verified(t, t.inst.primary.value))
  {
    RunKeepsTables(s, steps);
    var t := Exec(s, steps);
    assert KnownProc(t, t.procs[pid]);
    FinishStep(t, pid, reply);
  }

  lemma FinishStep(t: State, pid: string, reply: Reply)
    requires reply != Refused && pid in t.procs && t.procs[pid].Marked? && !Onboarded(t.inst)
    ensures var t' := Next(t, Do(pid, FinishOnboarding(reply)));
      t'.inst == t.inst.(onboardedAt := Some(t.procs[pid].at)) && t'.domains == t.domains
  {
  }

  /** The wizard never names a primary while a verification of the primary is in flight. */
  ghost predicate Calm(s: State, steps: seq<Step>) {
    steps == [] ||
    (Calm(s, steps[..|steps| - 1]) && CalmStep(Exec(s, steps[..|steps| - 1]), steps[|steps| - 1]))
  }

  ghost predicate CalmStep(s: State, step: Step) {
    step.Do? && step.cmd.SetPrimary? ==> forall pid :: pid in s.procs ==> !InFlight(s.procs[pid])
  }

  predicate OnTarget(inst: Installation, p: Proc) {
    InFlight(p) ==> inst.primary.None? || inst.primary == Some(p.id)
  }

  ghost predicate Settled(s: State) {
    && (forall pid :: pid in s.procs ==> OnTarget(s.inst, s.procs[pid]))
    && (Onboarded(s.inst) ==> PrimaryVerified(s))
  }

  lemma ActKeepsSettled(s: State, pid: string, cmd: Command)
    requires Tables(s) && Settled(s) && CalmStep(s, Do(pid, cmd)) && Act(s, pid, cmd).Some?
    ensures var e := Act(s, pid, cmd).value; var t := Apply(s, pid, e);
      && OnTarget(e.inst, e.proc)
      && (Onboarded(e.inst) ==> PrimaryVerified(t))
      && (e.inst.primary != s.inst.primary ==> cmd.SetPrimary?)
  {
    if pid in s.procs {
      assert KnownProc(s, s.procs[pid]) && OnTarget(s.inst, s.procs[pid]);
    }
  }

  lemma NextKeepsSettled(s: State, step: Step)
    requires Tables(s) && Settled(s) && CalmStep(s, step)
    ensures Settled(Next(s, step))
  {
    hide Act, Tables;
    match step
    case Do(pid, cmd) =>
      if Act(s, pid, cmd).Some? {
        ActKeepsSettled(s, pid, cmd);
      }
    case _ =>
  }

  /** In a run where no primary is named while a verification is in flight, an onboarded
      installation's current primary, if it still has one, is verified in every state. */
  lemma {:induction false} CalmRunsVerifyPrimary(s: State, steps: seq<Step>)
    requires Initial(s) && Calm(s, steps)
    ensures Settled(Exec(s, steps))
  {
    hide Next, Tables, CalmStep;
    if steps != [] {
      var init := steps[..|steps| - 1];
      CalmRunsVerifyPrimary(s, init);
      RunKeepsTables(s, init);
      NextKeepsSettled(Exec(s, init), steps[|steps| - 1]);
    }
  }

  /** A wizard up to the point where it will name its domain the primary. */
  function WizardSteps(w: string, id: string, token: string, settings: string): seq<Step> {
    [Do(w, OpenWizard(true)), Do(w, CreateDomain(id, token, Applied))] + [Do(w, SetProvider(settings, Applied))]
  }

  lemma WizardRuns(s: State, w: string, id: string, token: string, settings: string)
    requires w !in s.procs && id !in s.ids && !Onboarded(s.inst)
    ensures Exec(s, WizardSteps(w, id, token, settings)) == s.(
      procs := s.procs[w := ProviderSet(id)], inst := s.inst.(settings := settings),
      domains := s.domains[id := Domain(token, false)], ids := s.ids + {id},
      log := s.log + [DomainCreated(id, token)])
  {
    ExecAppend(s, [Do(w, OpenWizard(true)), Do(w, CreateDomain(id, token, Applied))],
      [Do(w, SetProvider(settings, Applied))]);
    Exec2(s, Do(w, OpenWizard(true)), Do(w, CreateDomain(id, token, Applied)));
    var s1 := Next(s, Do(w, OpenWizard(true)));
    assert s1 == s.(procs := s.procs[w := WizardOpen]);
    var s2 := Next(s1, Do(w, CreateDomain(id, token, Applied)));
    assert s2.procs == s.procs[w := DomainMade(id)];
    assert Next(s2, Do(w, SetProvider(settings, Applied))).procs == s.procs[w := ProviderSet(id)];
  }

  /** A verification from its read of the row to the point of completion. */
  function VerifySteps(v: string, txts: seq<string>): seq<Step> {
    [Do(v, StartVerify(Endpoint, true)), Do(v, ReadDomain(true))] +
    [Do(v, Lookup(Some(txts))), Do(v, MarkVerified(Applied))]
  }

  lemma VerifyRuns(s: State, v: string, id: string, txts: seq<string>)
    requires v !in s.procs && !Onboarded(s.inst) && s.inst.primary == Some(id)
    requires id in s.domains && !s.domains[id].verified && s.domains[id].token in txts
    ensures Exec(s, VerifySteps(v, txts)) == s.(
      procs := s.procs[v := Marked(Endpoint, id, s.now)],
      domains := s.domains[id := s.domains[id].(verified := true)],
      log := s.log + [LookupMatched(id, s.domains[id].token), MarkedVerified(id)])
  {
    hide Next, Exec, Onboarded;
    ExecAppend(s, [Do(v, StartVerify(Endpoint, true)), Do(v, ReadDomain(true))],
      [Do(v, Lookup(Some(txts))), Do(v, MarkVerified(Applied))]);
    Exec2(s, Do(v, StartVerify(Endpoint, true)), Do(v, ReadDomain(true)));
    ReadSteps(s, v, id);
    var s2 := s.(procs := s.procs[v := Looking(Endpoint, id, s.domains[id].token)]);
    Exec2(s2, Do(v, Lookup(Some(txts))), Do(v, MarkVerified(Applied)));
    LookSteps(s2, v, id, txts);
  }

  lemma ReadSteps(s: State, v: string, id: string)
    requires v !in s.procs && !Onboarded(s.inst) && s.inst.primary == Some(id)
    requires id in s.domains && !s.domains[id].verified
    ensures Next(Next(s, Do(v, StartVerify(Endpoint, true))), Do(v, ReadDomain(true)))
      == s.(procs := s.procs[v := Looking(Endpoint, id, s.domains[id].token)])
  {
    var s1 := s.(procs := s.procs[v := Pending(Endpoint, id)]);
    assert Next(s, Do(v, StartVerify(Endpoint, true))) == s1;
    assert s1.procs[v] == Pending(Endpoint, id);
    assert s1.procs[v := Looking(Endpoint, id, s.domains[id].token)] ==
      s.procs[v := Looking(Endpoint, id, s.domains[id].token)];
  }

  lemma LookSteps(s: State, v: string, id: string, txts: seq<string>)
    requires id in s.domains && s.domains[id].token in txts
    requires v in s.procs && s.procs[v] == Looking(Endpoint, id, s.domains[id].token)
    ensures Next(Next(s, Do(v, Lookup(Some(txts)))), Do(v, MarkVerified(Applied))) == s.(
      procs := s.procs[v := Marked(Endpoint, id, s.now)],
      domains := s.domains[id := s.domains[id].(verified := true)],
      log := s.log + [LookupMatched(id, s.domains[id].token), MarkedVerified(id)])
  {
    var s3 := s.(
      procs := s.procs[v := Matched(Endpoint, id, s.now)], log := s.log + [LookupMatched(id, s.domains[id].token)]);
    assert Next(s, Do(v, Lookup(Some(txts)))) == s3;
    assert s3.procs[v] == Matched(Endpoint, id, s.now);
    assert s3.procs[v := Marked(Endpoint, id, s.now)] == s.procs[v := Marked(Endpoint, id, s.now)];
  }

  /** Wizard `w` names domain `a`; wizard `x` registers `b`; verification `v` proves `a`;
      `x` names `b`; `v` completes. */
  function RacySteps(v: string, w: string, x: string, a: string, b: string, ta: string, tb: string,
      g: string): seq<Step> {
    WizardSteps(w, a, ta, g) + WizardSteps(x, b, tb, g) + [Do(w, SetPrimary(Applied))] +
    VerifySteps(v, [ta]) + [Do(x, SetPrimary(Applied)), Do(v, FinishOnboarding(Applied))]
  }

  /** Without calm: from a fresh installation a wizard can replace the primary between the
      read and the completion of a verification, and the installation ends onboarded with a
      primary nobody verified. */
  lemma ReplacedPrimaryIsUnverified(s: State, v: string, w: string, x: string, a: string, b: string,
      ta: string, tb: string, g: string)
    requires Initial(s) && v != w && v != x && w != x && a != b
    ensures var t := Exec(s, RacySteps(v, w, x, a, b, ta, tb, g));
      Onboarded(t.inst) && t.inst.primary == Some(b) && b in t.domains && !t.domains[b].verified
  {
    hide Exec, Next;
    var wa, wb, sp, vs, rest :=
      WizardSteps(w, a, ta, g), WizardSteps(x, b, tb, g), [Do(w, SetPrimary(Applied))], VerifySteps(v, [ta]),
      [Do(x, SetPrimary(Applied)), Do(v, FinishOnboarding(Applied))];
    ExecAppend(s, wa + wb + sp + vs, rest);
    ExecAppend(s, wa + wb + sp, vs);
    ExecAppend(s, wa + wb, sp);
    ExecAppend(s, wa, wb);
    WizardRuns(s, w, a, ta, g);
    var s1 := Exec(s, wa);
    WizardRuns(s1, x, b, tb, g);
    var s2 := Exec(s1, wb);
    NamePrimary(s2, w, a);
    var s3 := Exec(s2, sp);
    VerifyRuns(s3, v, a, [ta]);
    RaceEnds(Exec(s3, vs), v, x, a, b, s3.now);
  }

  lemma NamePrimary(s: State, w: string, id: string)
    requires w in s.procs && s.procs[w] == ProviderSet(id) && id in s.domains && !Onboarded(s.inst)
    ensures Exec(s, [Do(w, SetPrimary(Applied))]) == s.(
      procs := s.procs[w := Done], inst := s.inst.(primary := Some(id)), log := s.log + [MadePrimary(id)])
  {
    assert [Do(w, SetPrimary(Applied))][..0] == [];
    assert Exec(s, []) == s;
  }

  lemma RaceEnds(s: State, v: string, x: string, a: string, b: string, at: int)
    requires v != x && !Onboarded(s.inst) && b in s.domains && !s.domains[b].verified
    requires v in s.procs && s.procs[v] == Marked(Endpoint, a, at)
    requires x in s.procs && s.procs[x] == ProviderSet(b)
    ensures var t := Exec(s, [Do(x, SetPrimary(Applied)), Do(v, FinishOnboarding(Applied))]);
      Onboarded(t.inst) && t.inst.primary == Some(b) && b in t.domains && !t.domains[b].verified
  {
    Exec2(s, Do(x, SetPrimary(Applied)), Do(v, FinishOnboarding(Applied)));
    var t := Next(s, Do(x, SetPrimary(Applied)));
    assert t.procs == s.procs[x := Done];
    assert v in t.procs && t.procs[v] == Marked(Endpoint, a, at);
    FinishStep(t, v, Applied);
  }
}
