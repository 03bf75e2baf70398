/** The wizard and the verification handlers run without interruption
    (internal/httpapi/verify_poll.go:22-140, internal/httpapi/domain_handlers.go:86-140): each is
    the run of its machine steps, with every query possibly unanswered and every statement
    possibly refused or its answer lost. */
module VerifyHandlers {
  import opened Text
  import opened Replies
  import opened Onboarding

  // ---------- What a verification comes to ----------

  /** Whether the installation row and the domain were read; what the lookup returned, `None`
      for an error; how the mark and the completion ended. */
  datatype VerifyReplies = VerifyReplies(
    read: bool, domain: bool, txts: Option<seq<string>>, mark: Reply, finish: Reply)

  /** The token is among the records found. */
  predicate Shown(d: Domain, r: VerifyReplies) {
    r.txts.Some? && d.token in r.txts.value
  }

  /** Except for the per-domain endpoint no record is needed for a verified domain. */
  predicate Known(caller: Caller, d: Domain) {
    caller != PerDomain && d.verified
  }

  /** The domain's row is set verified. */
  predicate Marks(caller: Caller, domains: map<string, Domain>, id: string, r: VerifyReplies) {
    r.domain && id in domains && !Known(caller, domains[id]) && Shown(domains[id], r) && r.mark != Refused
  }

  /** The domain is verified as far as the request can tell. */
  predicate Passes(caller: Caller, domains: map<string, Domain>, id: string, r: VerifyReplies) {
    r.domain && id in domains &&
    (Known(caller, domains[id]) || (Shown(domains[id], r) && r.mark == Applied))
  }

  function DomainsAfter(caller: Caller, domains: map<string, Domain>, id: string, r: VerifyReplies)
      : map<string, Domain>
  {
    if Marks(caller, domains, id, r) then domains[id := domains[id].(verified := true)] else domains
  }

  /** A verification of the primary is under way. */
  predicate Attempts(inst: Installation, r: VerifyReplies) {
    r.read && !Onboarded(inst) && inst.primary.Some?
  }

  /** The onboarding time is written. */
  predicate Completes(inst: Installation, domains: map<string, Domain>, r: VerifyReplies) {
    Attempts(inst, r) && Passes(Endpoint, domains, inst.primary.value, r) && r.finish != Refused
  }

  /** The request answers that the installation is onboarded. */
  predicate Reports(inst: Installation, domains: map<string, Domain>, r: VerifyReplies) {
    Completes(inst, domains, r) && r.finish == Applied
  }

  /** An uninterrupted verification of the primary leaves a new mark or an onboarded
      installation behind without reporting it exactly when the answer to the completion was
      lost, or the record was found for a primary not yet verified and either the answer to
      the mark was lost or the completion after it failed. */
  lemma SilentIff(inst: Installation, domains: map<string, Domain>, r: VerifyReplies)
    requires Attempts(inst, r) && r.domain && inst.primary.value in domains
    ensures var d := domains[inst.primary.value];
      (Completes(inst, domains, r) || Marks(Endpoint, domains, inst.primary.value, r)) && !Reports(inst, domains, r)
      <==> if d.verified then r.finish == Lost
           else Shown(d, r) && (r.mark == Lost || (r.mark == Applied && r.finish != Applied))
  {
  }

  /** How the wizard's reads and statements ended. A failure before the domain is registered
      is the same as its refusal, one after it and before the provider the same as its loss. */
  datatype WizardReplies = WizardReplies(read: bool, domain: Reply, provider: Reply, primary: Reply)

  predicate Registers(inst: Installation, r: WizardReplies) {
    r.read && !Onboarded(inst) && r.domain != Refused
  }

  predicate Configures(inst: Installation, r: WizardReplies) {
    Registers(inst, r) && r.domain == Applied && r.provider != Refused
  }

  predicate Names(inst: Installation, r: WizardReplies) {
    Configures(inst, r) && r.provider == Applied && r.primary != Refused
  }

  // ---------- One step of a process at a known stage ----------

  /** Where a verification of the primary begins: a new request, or the poller's turn. */
  predicate MayStart(s: State, pid: string, caller: Caller) {
    if caller == Endpoint then pid !in s.procs
    else caller == Poller && pid in s.procs && s.procs[pid] == Polling
  }

  lemma StartRuns(s: State, pid: string, caller: Caller, answered: bool)
    requires MayStart(s, pid, caller)
    ensures Next(s, Do(pid, StartVerify(caller, answered))) == Apply(s, pid, DoStartVerify(s, caller, answered))
  {
  }

  lemma PollRuns(s: State, pid: string, answered: bool)
    requires pid !in s.procs
    ensures Next(s, Do(pid, StartPoll(answered))) == Apply(s, pid, DoStartPoll(s, answered))
  {
  }

  lemma StopRuns(s: State, pid: string)
    requires pid in s.procs && s.procs[pid] == Stopping
    ensures Next(s, Do(pid, Stop)) == Apply(s, pid, DoStop(s))
  {
  }

  lemma DomainRuns(s: State, pid: string, id: string)
    requires pid !in s.procs
    ensures Next(s, Do(pid, StartDomainVerify(id))) == Apply(s, pid, Stage(s, Pending(PerDomain, id)))
  {
  }

  lemma ReadRuns(s: State, pid: string, caller: Caller, id: string, answered: bool)
    requires pid in s.procs && s.procs[pid] == Pending(caller, id)
    ensures Next(s, Do(pid, ReadDomain(answered))) == Apply(s, pid, DoReadDomain(s, caller, id, answered))
  {
  }

  lemma LookupRuns(s: State, pid: string, caller: Caller, id: string, token: string, txts: Option<seq<string>>)
    requires pid in s.procs && s.procs[pid] == Looking(caller, id, token)
    ensures Next(s, Do(pid, Lookup(txts))) == Apply(s, pid, DoLookup(s, caller, id, token, txts))
  {
  }

  lemma MarkRuns(s: State, pid: string, caller: Caller, id: string, at: int, reply: Reply)
    requires pid in s.procs && s.procs[pid] == Matched(caller, id, at)
    ensures Next(s, Do(pid, MarkVerified(reply))) == Apply(s, pid, DoMarkVerified(s, caller, id, at, reply))
  {
  }

  lemma FinishRuns(s: State, pid: string, caller: Caller, id: string, at: int, reply: Reply)
    requires pid in s.procs && s.procs[pid] == Marked(caller, id, at)
    ensures Next(s, Do(pid, FinishOnboarding(reply))) == Apply(s, pid, DoFinish(s, caller, id, at, reply))
  {
  }

  lemma OpenRuns(s: State, pid: string, answered: bool)
    requires pid !in s.procs
    ensures Next(s, Do(pid, OpenWizard(answered)))
      == Apply(s, pid, Stage(s, if !answered || Onboarded(s.inst) then Done else WizardOpen))
  {
  }

  lemma CreateRuns(s: State, pid: string, id: string, token: string, reply: Reply)
    requires pid in s.procs && s.procs[pid] == WizardOpen && id !in s.ids
    ensures Next(s, Do(pid, CreateDomain(id, token, reply))) == Apply(s, pid,
      if reply == Refused then Stage(s, Done)
      else DoCreate(s, if reply == Applied then DomainMade(id) else Done, id, token))
  {
  }

  lemma ProviderRuns(s: State, pid: string, id: string, settings: string, reply: Reply)
    requires pid in s.procs && s.procs[pid] == DomainMade(id)
    ensures Next(s, Do(pid, SetProvider(settings, reply))) == Apply(s, pid, DoSetProvider(s, id, settings, reply))
  {
  }

  lemma PrimaryRuns(s: State, pid: string, id: string, reply: Reply)
    requires pid in s.procs && s.procs[pid] == ProviderSet(id)
    ensures Next(s, Do(pid, SetPrimary(reply))) == Apply(s, pid, DoSetPrimary(s, id, reply))
  {
  }

  /** Commands that a request past them, ended or about to stop does not take. */
  lemma Skips(s: State, pid: string, r: VerifyReplies)
    requires pid in s.procs && (s.procs[pid].Done? || s.procs[pid].Marked? || s.procs[pid].Stopping?)
    ensures Next(s, Do(pid, ReadDomain(r.domain))) == s
    ensures Next(s, Do(pid, Lookup(r.txts))) == s && Next(s, Do(pid, MarkVerified(r.mark))) == s
    ensures !s.procs[pid].Marked? ==> Next(s, Do(pid, FinishOnboarding(r.finish))) == s
    ensures !s.procs[pid].Marked? ==> Next(s, Do(pid, StartVerify(Poller, r.read))) == s
    ensures s.procs[pid].Done? ==> Next(s, Do(pid, Stop)) == s
  {
  }

  /** Likewise the wizard's. */
  lemma WizardSkips(s: State, pid: string, id: string, token: string, settings: string, r: WizardReplies)
    requires pid in s.procs && s.procs[pid].Done?
    ensures Next(s, Do(pid, CreateDomain(id, token, r.domain))) == s
    ensures Next(s, Do(pid, SetProvider(settings, r.provider))) == s
    ensures Next(s, Do(pid, SetPrimary(r.primary))) == s
  {
  }

  lemma AllSkipped(s: State, pid: string, r: VerifyReplies)
    requires pid in s.procs && s.procs[pid].Done?
    ensures Next(Next(Next(Next(Next(Next(s, Do(pid, StartVerify(Poller, r.read))), Do(pid, ReadDomain(r.domain))),
      Do(pid, Lookup(r.txts))), Do(pid, MarkVerified(r.mark))), Do(pid, FinishOnboarding(r.finish))), Do(pid, Stop))
      == s
  {
    hide Next;
    Skips(s, pid, r);
  }

  lemma Exec7(s: State, a: Step, b: Step, c: Step, d: Step, e: Step, f: Step, g: Step)
    ensures Exec(s, [a, b, c, d, e, f, g]) == Next(Next(Next(Next(Next(Next(Next(s, a), b), c), d), e), f), g)
  {
    hide Next, Exec;
    Exec5(s, a, b, c, d, e);
    ExecSnoc(s, [a, b, c, d, e], f);
    ExecSnoc(s, [a, b, c, d, e, f], g);
    assert [a, b, c, d, e] + [f] == [a, b, c, d, e, f] && [a, b, c, d, e, f] + [g] == [a, b, c, d, e, f, g];
  }

  // ---------- The handlers ----------

  /** The records are scanned in order for the expected value. */
  method HasRecord(txts: seq<string>, token: string) returns (found: bool)
    ensures found <==> token in txts
  {
    found := false;
    for i := 0 to |txts|
      invariant !found && token !in txts[..i]
    {
      if txts[i] == token {
        return true;
      }
    }
  }

  /** The rows a verification works on; its process stage and the log are ghost. */
  class Tables {
    var now: int
    var inst: Installation
    var domains: map<string, Domain>
    ghost var ids: set<string>
    ghost var procs: map<string, Proc>
    ghost var log: seq<Event>

    ghost function Snapshot(): State
      reads this
    {
      State(now, inst, domains, ids, procs, log)
    }

    /** The domain's row is read and, unless already verified, its record looked up. */
    method Prove(ghost pid: string, caller: Caller, id: string, r: VerifyReplies) returns (passed: bool)
      requires pid in procs && procs[pid] == Pending(caller, id)
      modifies this`domains, this`procs, this`log
      ensures Snapshot() == Next(Next(Next(old(Snapshot()),
        Do(pid, ReadDomain(r.domain))), Do(pid, Lookup(r.txts))), Do(pid, MarkVerified(r.mark)))
      ensures pid in procs && procs[pid] == if passed && caller != PerDomain then Marked(caller, id, now) else Done
      ensures passed <==> Passes(caller, old(domains), id, r)
      ensures domains == DomainsAfter(caller, old(domains), id, r)
    {
      hide Next;
      ReadRuns(Snapshot(), pid, caller, id, r.domain);
      if !r.domain || id !in domains {
        procs := procs[pid := Done];
        Skips(Snapshot(), pid, r);
        return false;
      }
      var d := domains[id];
      if d.verified && caller != PerDomain {
        procs := procs[pid := Marked(caller, id, now)];
        Skips(Snapshot(), pid, r);
        return true;
      }
      procs := procs[pid := Looking(caller, id, d.token)];
      var found := TXTLookup(pid, caller, id, d.token, r.txts);
      if !found {
        Skips(Snapshot(), pid, r);
        return false;
      }
      passed := SetDomainVerified(pid, caller, id, r.mark);
    }

    method TXTLookup(ghost pid: string, ghost caller: Caller, ghost id: string, token: string,
        txts: Option<seq<string>>) returns (found: bool)
      requires pid in procs && procs[pid] == Looking(caller, id, token)
      modifies this`procs, this`log
      ensures Snapshot() == Next(old(Snapshot()), Do(pid, Lookup(txts)))
      ensures found <==> txts.Some? && token in txts.value
      ensures pid in procs && procs[pid] == if found then Matched(caller, id, now) else Done
    {
      hide Next;
      LookupRuns(Snapshot(), pid, caller, id, token, txts);
      found := false;
      if txts.Some? {
        found := HasRecord(txts.value, token);
      }
      procs := procs[pid := if found then Matched(caller, id, now) else Done];
      if found {
        log := log + [LookupMatched(id, token)];
      }
    }

    method SetDomainVerified(ghost pid: string, ghost caller: Caller, id: string, reply: Reply) returns (ok: bool)
      requires pid in procs && procs[pid] == Matched(caller, id, now) && id in domains
      modifies this`domains, this`procs, this`log
      ensures Snapshot() == Next(old(Snapshot()), Do(pid, MarkVerified(reply)))
      ensures ok <==> reply == Applied
      ensures domains == if reply == Refused then old(domains)
                         else old(domains)[id := old(domains)[id].(verified := true)]
      ensures pid in procs && procs[pid] == if ok && caller != PerDomain then Marked(caller, id, now) else Done
    {
      hide Next;
      MarkRuns(Snapshot(), pid, caller, id, now, reply);
      if reply != Refused {
        domains, log := domains[id := domains[id].(verified := true)], log + [MarkedVerified(id)];
      }
      ok := reply == Applied;
      procs := procs[pid := if ok && caller != PerDomain then Marked(caller, id, now) else Done];
    }

    // The three guarded updates of the singleton row.

    method SetInstallationPrimaryDomain(ghost pid: string, id: string, reply: Reply) returns (ok: bool)
      requires pid in procs && procs[pid] == ProviderSet(id) && id in domains
      modifies this`inst, this`procs, this`log
      ensures Snapshot() == Next(old(Snapshot()), Do(pid, SetPrimary(reply)))
      ensures ok <==> !Onboarded(old(inst)) && reply == Applied
      ensures inst == if Onboarded(old(inst)) || reply == Refused then old(inst)
                      else old(inst).(primary := Some(id))
    {
      hide Next;
      PrimaryRuns(Snapshot(), pid, id, reply);
      procs := procs[pid := Done];
      ok := inst.onboardedAt.None? && reply == Applied;
      if inst.onboardedAt.None? && reply != Refused {
        inst, log := inst.(primary := Some(id)), log + [MadePrimary(id)];
      }
    }

    method SetInstallationProvider(ghost pid: string, ghost id: string, settings: string, reply: Reply)
        returns (ok: bool)
      requires pid in procs && procs[pid] == DomainMade(id)
      modifies this`inst, this`procs
      ensures Snapshot() == Next(old(Snapshot()), Do(pid, SetProvider(settings, reply)))
      ensures ok <==> !Onboarded(old(inst)) && reply == Applied
      ensures inst == if Onboarded(old(inst)) || reply == Refused then old(inst)
                      else old(inst).(settings := settings)
      ensures pid in procs && procs[pid] == if ok then ProviderSet(id) else Done
    {
      hide Next;
      ProviderRuns(Snapshot(), pid, id, settings, reply);
      ok := inst.onboardedAt.None? && reply == Applied;
      procs := procs[pid := if ok then ProviderSet(id) else Done];
      if inst.onboardedAt.None? && reply != Refused {
        inst := inst.(settings := settings);
      }
    }

    /** Not an error when the row is already onboarded: then nothing is written. */
    method SetInstallationOnboarded(ghost pid: string, ghost caller: Caller, ghost id: string, at: int, reply: Reply)
        returns (ok: bool)
      requires pid in procs && procs[pid] == Marked(caller, id, at)
      modifies this`inst, this`procs, this`log
      ensures Snapshot() == Next(old(Snapshot()), Do(pid, FinishOnboarding(reply)))
      ensures ok <==> reply == Applied
      ensures inst == if Onboarded(old(inst)) || reply == Refused then old(inst)
                      else old(inst).(onboardedAt := Some(at))
      ensures pid in procs && procs[pid] == if ok && caller == Poller then Stopping else Done
    {
      hide Next;
      FinishRuns(Snapshot(), pid, caller, id, at, reply);
      ok := reply == Applied;
      procs := procs[pid := if ok && caller == Poller then Stopping else Done];
      if inst.onboardedAt.None? && reply != Refused {
        inst, log := inst.(onboardedAt := Some(at)), log + [BecameOnboarded(id, at)];
      }
    }

    /** One attempt on the primary domain, for the endpoint or the poller. */
    method RunVerifySetup(ghost pid: string, caller: Caller, r: VerifyReplies) returns (onboarded: bool)
      requires MayStart(Snapshot(), pid, caller)
      modifies this`inst, this`domains, this`procs, this`log
      ensures Snapshot() == Next(Next(Next(Next(Next(old(Snapshot()), Do(pid, StartVerify(caller, r.read))),
        Do(pid, ReadDomain(r.domain))), Do(pid, Lookup(r.txts))), Do(pid, MarkVerified(r.mark))),
        Do(pid, FinishOnboarding(r.finish)))
      ensures onboarded <==> Reports(old(inst), old(domains), r)
      ensures inst == if Completes(old(inst), old(domains), r) then old(inst).(onboardedAt := Some(now)) else old(inst)
      ensures domains == if !Attempts(old(inst), r) then old(domains)
                         else DomainsAfter(Endpoint, old(domains), old(inst).primary.value, r)
      ensures pid in procs && procs[pid] == if onboarded && caller == Poller then Stopping else Done
    {
      hide Next;
      StartRuns(Snapshot(), pid, caller, r.read);
      if !r.read || inst.onboardedAt.Some? || inst.primary.None? {
        procs := procs[pid := Done];
        Skips(Snapshot(), pid, r);
        return false;
      }
      var id := inst.primary.value;
      procs := procs[pid := Pending(caller, id)];
      var passed := Prove(pid, caller, id, r);
      if !passed {
        Skips(Snapshot(), pid, r);
        return false;
      }
      onboarded := SetInstallationOnboarded(pid, caller, id, now, r.finish);
    }

    /** The wizard endpoint of a verification. Onboarded at its end, the installation has a
        verified primary. */
    method VerifySetup(ghost pid: string, r: VerifyReplies) returns (onboarded: bool)
      requires pid !in procs
      modifies this`inst, this`domains, this`procs, this`log
      ensures Snapshot() == Exec(old(Snapshot()), [Do(pid, StartVerify(Endpoint, r.read)),
        Do(pid, ReadDomain(r.domain)), Do(pid, Lookup(r.txts)), Do(pid, MarkVerified(r.mark)),
        Do(pid, FinishOnboarding(r.finish))])
      ensures onboarded <==> Reports(old(inst), old(domains), r)
      ensures inst == if Completes(old(inst), old(domains), r) then old(inst).(onboardedAt := Some(now)) else old(inst)
      ensures Onboarded(inst) && !Onboarded(old(inst)) ==>
        inst.primary.Some? && inst.primary.value in domains && domains[inst.primary.value].verified
    {
      hide Next, Exec;
      Exec5(Snapshot(), Do(pid, StartVerify(Endpoint, r.read)), Do(pid, ReadDomain(r.domain)),
        Do(pid, Lookup(r.txts)), Do(pid, MarkVerified(r.mark)), Do(pid, FinishOnboarding(r.finish)));
      onboarded := RunVerifySetup(pid, Endpoint, r);
    }

    /** One turn of the poller, whose own read of the installation may fail too.
        Uninterrupted, it stops the loop exactly when it read that the installation was
        onboarded before, or its attempt reports that it is so now; when the answer to the
        completion is lost it stops at a later turn. */
    method PollVerificationOnce(ghost pid: string, answered: bool, r: VerifyReplies) returns (stop: bool)
      requires pid !in procs
      modifies this`inst, this`domains, this`procs, this`log
      ensures Snapshot() == Exec(old(Snapshot()), [Do(pid, StartPoll(answered)), Do(pid, StartVerify(Poller, r.read)),
        Do(pid, ReadDomain(r.domain)), Do(pid, Lookup(r.txts)), Do(pid, MarkVerified(r.mark)),
        Do(pid, FinishOnboarding(r.finish)), Do(pid, Stop)])
      ensures stop <==> answered && (Onboarded(old(inst)) || Reports(old(inst), old(domains), r))
      ensures stop ==> log != [] && log[|log| - 1] == PollerStopped
      ensures inst == if answered && Completes(old(inst), old(domains), r)
                      then old(inst).(onboardedAt := Some(now)) else old(inst)
      ensures domains == if !(answered && Attempts(old(inst), r)) then old(domains)
                         else DomainsAfter(Endpoint, old(domains), old(inst).primary.value, r)
    {
      hide Next, Exec;
      Exec7(Snapshot(), Do(pid, StartPoll(answered)), Do(pid, StartVerify(Poller, r.read)),
        Do(pid, ReadDomain(r.domain)), Do(pid, Lookup(r.txts)), Do(pid, MarkVerified(r.mark)),
        Do(pid, FinishOnboarding(r.finish)), Do(pid, Stop));
      PollRuns(Snapshot(), pid, answered);
      if answered && inst.onboardedAt.Some? {
        procs := procs[pid := Stopping];
        Skips(Snapshot(), pid, r);
        LeaveLoop(pid);
        return true;
      }
      if !answered || inst.primary.None? {
        procs := procs[pid := Done];
        AllSkipped(Snapshot(), pid, r);
        return false;
      }
      procs := procs[pid := Polling];
      stop := RunVerifySetup(pid, Poller, r);
      if stop {
        LeaveLoop(pid);
      } else {
        Skips(Snapshot(), pid, r);
      }
    }

    ghost method LeaveLoop(pid: string)
      requires pid in procs && procs[pid] == Stopping
      modifies this`procs, this`log
      ensures Snapshot() == Next(old(Snapshot()), Do(pid, Stop))
      ensures log == old(log) + [PollerStopped] && inst == old(inst) && domains == old(domains)
    {
      hide Next;
      StopRuns(Snapshot(), pid);
      procs, log := procs[pid := Done], log + [PollerStopped];
    }

    /** The wizard: it registers the new domain, then stores the provider, then names the
        domain the primary; each write can be the last one made. */
    method CreateSetup(ghost pid: string, id: string, token: string, settings: string, r: WizardReplies)
        returns (ok: bool)
      requires pid !in procs && id !in ids
      modifies this
      ensures Snapshot() == Exec(old(Snapshot()), [Do(pid, OpenWizard(r.read)),
        Do(pid, CreateDomain(id, token, r.domain)), Do(pid, SetProvider(settings, r.provider)),
        Do(pid, SetPrimary(r.primary))])
      ensures ok <==> Names(old(inst), r) && r.primary == Applied
      ensures domains == if Registers(old(inst), r) then old(domains)[id := Domain(token, false)] else old(domains)
      ensures inst.settings == if Configures(old(inst), r) then settings else old(inst).settings
      ensures inst.primary == if Names(old(inst), r) then Some(id) else old(inst).primary
      ensures inst.onboardedAt == old(inst).onboardedAt
    {
      hide Next, Exec;
      Exec4(Snapshot(), Do(pid, OpenWizard(r.read)), Do(pid, CreateDomain(id, token, r.domain)),
        Do(pid, SetProvider(settings, r.provider)), Do(pid, SetPrimary(r.primary)));
      OpenRuns(Snapshot(), pid, r.read);
      if !r.read || inst.onboardedAt.Some? {
        procs := procs[pid := Done];
        WizardSkips(Snapshot(), pid, id, token, settings, r);
        return false;
      }
      procs := procs[pid := WizardOpen];
      ok := CreateDomainRow(pid, id, token, r.domain);
      if !ok {
        WizardSkips(Snapshot(), pid, id, token, settings, r);
        return false;
      }
      ok := SetInstallationProvider(pid, id, settings, r.provider);
      if !ok {
        WizardSkips(Snapshot(), pid, id, token, settings, r);
        return false;
      }
      ok := SetInstallationPrimaryDomain(pid, id, r.primary);
    }

    method CreateDomainRow(ghost pid: string, id: string, token: string, reply: Reply) returns (ok: bool)
      requires pid in procs && procs[pid] == WizardOpen && id !in ids
      modifies this`domains, this`ids, this`procs, this`log
      ensures Snapshot() == Next(old(Snapshot()), Do(pid, CreateDomain(id, token, reply)))
      ensures ok <==> reply == Applied
      ensures domains == if reply == Refused then old(domains) else old(domains)[id := Domain(token, false)]
      ensures pid in procs && procs[pid] == if ok then DomainMade(id) else Done
    {
      hide Next;
      CreateRuns(Snapshot(), pid, id, token, reply);
      ok := reply == Applied;
      procs := procs[pid := if ok then DomainMade(id) else Done];
      if reply != Refused {
        domains, ids := domains[id := Domain(token, false)], ids + {id};
        log := log + [DomainCreated(id, token)];
      }
    }

    /** Registers a domain for an organization. */
    method RegisterDomainRow(ghost pid: string, id: string, token: string)
      requires pid !in procs && id !in ids
      modifies this`domains, this`ids, this`procs, this`log
      ensures Snapshot() == Next(old(Snapshot()), Do(pid, RegisterDomain(id, token)))
      ensures domains == old(domains)[id := Domain(token, false)]
      ensures log == old(log) + [DomainCreated(id, token)]
    {
      domains, ids := domains[id := Domain(token, false)], ids + {id};
      procs, log := procs[pid := Done], log + [DomainCreated(id, token)];
    }

    /** Deletes a domain; the installation forgets it as its primary, and nothing else. */
    method DeleteDomainRow(id: string)
      modifies this`domains, this`inst
      ensures Snapshot() == Next(old(Snapshot()), DeleteDomain(id))
      ensures domains == old(domains) - {id}
      ensures inst == if old(inst).primary == Some(id) then old(inst).(primary := None) else old(inst)
    {
      domains := domains - {id};
      if inst.primary == Some(id) {
        inst := inst.(primary := None);
      }
    }

    /** The per-domain endpoint reports the domain verified exactly when its token is among the
        records found and the mark was applied; a mark whose answer is lost stays. */
    method VerifyDomain(ghost pid: string, id: string, r: VerifyReplies) returns (verified: bool)
      requires pid !in procs
      modifies this`domains, this`procs, this`log
      ensures Snapshot() == Exec(old(Snapshot()), [Do(pid, StartDomainVerify(id)), Do(pid, ReadDomain(r.domain)),
        Do(pid, Lookup(r.txts)), Do(pid, MarkVerified(r.mark))])
      ensures verified <==> r.domain && id in old(domains) && Shown(old(domains)[id], r) && r.mark == Applied
      ensures domains == if r.domain && id in old(domains) && Shown(old(domains)[id], r) && r.mark != Refused
                         then old(domains)[id := old(domains)[id].(verified := true)] else old(domains)
    {
      hide Next, Exec;
      Exec4(Snapshot(), Do(pid, StartDomainVerify(id)), Do(pid, ReadDomain(r.domain)), Do(pid, Lookup(r.txts)),
        Do(pid, MarkVerified(r.mark)));
      DomainRuns(Snapshot(), pid, id);
      procs := procs[pid := Pending(PerDomain, id)];
      verified := Prove(pid, PerDomain, id, r);
    }
  }
}
