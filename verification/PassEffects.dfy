/** What one reconciliation pass does under every pattern of failing calls, exactly, row by
    row and entry by entry (internal/recon/mail.go:37-112). */
module PassEffects {
  import opened Text
  import opened AliasFile
  import opened Reconcile
  import Convergence

  // ---------- Which aliases a pass visits ----------

  function AliasOf(rows: map<string, Alias>, domainId: string): string -> bool {
    id => id in rows && rows[id].domainId == domainId
  }

  function IdentityOf(rows: map<string, Identity>, domainId: string): string -> bool {
    id => id in rows && rows[id].domainId == domainId
  }

  lemma NoPositions(chosen: string -> bool)
    ensures Positions([], [], chosen)
  {
  }

  predicate TakenAt(taken: seq<string>, ids: seq<string>, at: seq<nat>) {
    |taken| == |at| && forall i :: 0 <= i < |at| ==> at[i] < |ids| && taken[i] == ids[at[i]]
  }

  /** A domain's aliases are listed in the order of the query, each where it stands. */
  lemma {:induction false} AliasesInOrder(rows: map<string, Alias>, ids: seq<string>, domainId: string)
      returns (at: seq<nat>)
    ensures Positions(at, ids, AliasOf(rows, domainId)) && TakenAt(AliasesOf(rows, ids, domainId), ids, at)
  {
    hide Positions;
    at := [];
    if ids == [] {
      NoPositions(AliasOf(rows, domainId));
    } else {
      var n := |ids| - 1;
      at := AliasesInOrder(rows, ids[..n], domainId);
      PositionsMore(at, ids, AliasOf(rows, domainId));
      if ids[n] in rows && rows[ids[n]].domainId == domainId {
        at := at + [n];
      }
    }
  }

  /** So are its identities. */
  lemma {:induction false} IdentitiesInOrder(rows: map<string, Identity>, ids: seq<string>, domainId: string)
      returns (at: seq<nat>)
    ensures Positions(at, ids, IdentityOf(rows, domainId)) && TakenAt(IdentitiesOf(rows, ids, domainId), ids, at)
  {
    hide Positions;
    at := [];
    if ids == [] {
      NoPositions(IdentityOf(rows, domainId));
    } else {
      var n := |ids| - 1;
      at := IdentitiesInOrder(rows, ids[..n], domainId);
      PositionsMore(at, ids, IdentityOf(rows, domainId));
      if ids[n] in rows && rows[ids[n]].domainId == domainId {
        at := at + [n];
      }
    }
  }

  // ---------- Identities ----------

  /** An identity is suspended exactly when both listings answer, it is an active one of the
      domain, its user check answers absent, and the update is applied; nothing else about
      identities changes. */
  lemma IdentitiesAfterPass(env: Env, calls: Calls, d: MailDomain, w: World)
    ensures var v := DomainPass(env, calls, d, w);
      && v.identities.Keys == w.identities.Keys
      && forall id :: id in w.identities ==>
           v.identities[id] ==
             if calls.listAliases && calls.listIdentities && id in env.identityIds && w.identities[id].domainId == d.id
               && w.identities[id].status == Active && calls.userExists(w.identities[id].address) == Absent
               && calls.setStatus(id)
             then w.identities[id].(status := Suspended) else w.identities[id]
  {
    hide AliasLoop;
    AliasesOfRows(w.aliases, env.aliasIds, d.id);
    if calls.listAliases {
      Convergence.AliasLoopIdentities(env, calls, d, w, AliasesOf(w.aliases, env.aliasIds, d.id));
    }
    IdentitiesOfRows(w.identities, env.identityIds, d.id);
    Convergence.IdentityLoopRows(calls, w.identities, IdentitiesOf(w.identities, env.identityIds, d.id));
  }

  /** The identity was active when listed, and its user check answers absent. */
  function FoundAbsent(calls: Calls, rows: map<string, Identity>): string -> bool {
    id => id in rows && rows[id].status == Active && calls.userExists(rows[id].address) == Absent
  }

  predicate ReportedAt(missing: seq<string>, rows: map<string, Identity>, ids: seq<string>, at: seq<nat>) {
    && |missing| == |at|
    && forall i :: 0 <= i < |at| ==> at[i] < |ids| && ids[at[i]] in rows && missing[i] == rows[ids[at[i]]].address
  }

  lemma {:induction false} MissingAt(calls: Calls, rows: map<string, Identity>, ids: seq<string>)
      returns (at: seq<nat>)
    requires forall id :: id in ids ==> id in rows
    ensures Positions(at, ids, FoundAbsent(calls, rows)) && ReportedAt(MissingUsers(calls, rows, ids), rows, ids, at)
  {
    hide Positions;
    at := [];
    if ids == [] {
      NoPositions(FoundAbsent(calls, rows));
    } else {
      var n := |ids| - 1;
      at := MissingAt(calls, rows, ids[..n]);
      PositionsMore(at, ids, FoundAbsent(calls, rows));
      if FoundAbsent(calls, rows)(ids[n]) {
        at := at + [n];
      }
    }
  }

  /** What is reported missing: of the domain's identities, in the order of the query, the
      addresses of those, whether or not their update is applied; nothing when a listing fails. */
  lemma MissingInOrder(env: Env, calls: Calls, d: MailDomain, w: World) returns (ids: seq<string>, at: seq<nat>)
    ensures var missing := PassResult(env, calls, d, w).missingUsers;
      if calls.listAliases && calls.listIdentities then
        && (exists from :: Positions(from, env.identityIds, IdentityOf(w.identities, d.id))
             && TakenAt(ids, env.identityIds, from))
        && Positions(at, ids, FoundAbsent(calls, w.identities)) && ReportedAt(missing, w.identities, ids, at)
      else missing == []
  {
    hide AliasLoop, Positions, ReportedAt, TakenAt;
    AliasesOfRows(w.aliases, env.aliasIds, d.id);
    ids := IdentitiesOf(w.identities, env.identityIds, d.id);
    IdentitiesOfRows(w.identities, env.identityIds, d.id);
    if calls.listAliases {
      Convergence.AliasLoopIdentities(env, calls, d, w, AliasesOf(w.aliases, env.aliasIds, d.id));
    }
    var from := IdentitiesInOrder(w.identities, env.identityIds, d.id);
    at := MissingAt(calls, w.identities, ids);
  }

  // ---------- Rows ----------

  /** The lookups a group alias needs are answered; without members there is no second one. */
  predicate LookedUp(env: Env, calls: Calls, id: string, a: Alias) {
    a.group.Some? ==>
      calls.members(id) &&
      ((a.group.value in env.members ==> env.members[a.group.value] == []) || calls.identitiesByUsers(id))
  }

  /** The row of an active group alias is updated. */
  predicate Updates(env: Env, calls: Calls, id: string, a: Alias) {
    a.active && a.group.Some? && LookedUp(env, calls, id, a) && calls.updateRow(id)
  }

  /** `new` is the old row, with what its group's members give when it is updated. */
  ghost predicate RowAfter(env: Env, calls: Calls, d: MailDomain, identities: map<string, Identity>, id: string,
      old_: Alias, new_: Alias)
  {
    if !Updates(env, calls, id, old_) then new_ == old_
    else
      && new_ == old_.(destinations := new_.destinations)
      && MemberAddresses(new_.destinations, identities, env.identityIds, d.org,
           if old_.group.value in env.members then env.members[old_.group.value] else [])
  }

  lemma StepRow(env: Env, calls: Calls, d: MailDomain, id: string, a: Alias, p: Progress, other: string)
    requires id in p.world.aliases && p.world.aliases[id].(destinations := a.destinations) == a
    requires other in p.world.aliases
    ensures var q := AliasStep(env, calls, d, id, a, p);
      && q.world.identities == p.world.identities && q.world.aliases.Keys == p.world.aliases.Keys
      && (other != id ==> q.world.aliases[other] == p.world.aliases[other])
      && (!Updates(env, calls, id, a) ==> q.world.aliases == p.world.aliases)
      && (Updates(env, calls, id, a) ==> RowAfter(env, calls, d, p.world.identities, id, a, q.world.aliases[id]))
  {
    hide EnsureAlias, ActiveAddresses, MemberAddresses;
    if a.group.Some? {
      ActiveAddressesAre(p.world.identities, env.identityIds, d.org, Members(env, a.group.value));
    }
  }

  lemma {:induction false} LoopRow(env: Env, calls: Calls, d: MailDomain, w: World, ids: seq<string>, id: string)
    requires (forall i :: i in ids ==> i in w.aliases) && id in w.aliases
    ensures var v := AliasLoop(env, calls, d, w.aliases, ids, Progress(w, 0, 0)).world;
      && v.identities == w.identities && v.aliases.Keys == w.aliases.Keys
      && (if id in ids then RowAfter(env, calls, d, w.identities, id, w.aliases[id], v.aliases[id])
          else v.aliases[id] == w.aliases[id])
  {
    hide AliasStep, MemberAddresses, Updates;
    if ids != [] {
      var init, last := ids[..|ids| - 1], ids[|ids| - 1];
      assert ids == init + [last];
      LoopRow(env, calls, d, w, init, id);
      LoopRow(env, calls, d, w, init, last);
      StepRow(env, calls, d, last, w.aliases[last], AliasLoop(env, calls, d, w.aliases, init, Progress(w, 0, 0)), id);
    }
  }

  /** An alias row changes exactly when the aliases are listed, it is an active group alias of
      the domain, its lookups answer and its update is applied, whatever becomes of the file;
      and then only in its destinations, which are its members' addresses. */
  lemma RowsAfterPass(env: Env, calls: Calls, d: MailDomain, w: World, id: string)
    requires id in w.aliases
    ensures var v := DomainPass(env, calls, d, w);
      && v.aliases.Keys == w.aliases.Keys
      && if calls.listAliases && id in env.aliasIds && w.aliases[id].domainId == d.id
         then RowAfter(env, calls, d, w.identities, id, w.aliases[id], v.aliases[id])
         else v.aliases[id] == w.aliases[id]
  {
    hide AliasLoop, IdentityLoop, RowAfter;
    AliasesOfRows(w.aliases, env.aliasIds, d.id);
    IdentitiesOfRows(w.identities, env.identityIds, d.id);
    if calls.listAliases {
      LoopRow(env, calls, d, w, AliasesOf(w.aliases, env.aliasIds, d.id), id);
    }
  }

  // ---------- Files ----------

  /** Its turn comes to a write of the file that takes effect, signalled or not. */
  predicate Writes(env: Env, calls: Calls, id: string, a: Alias) {
    a.active && LookedUp(env, calls, id, a) && calls.ensureAlias(id) != NotWritten
  }

  /** No write of these aliases replaces a file that the agent failed to read. */
  predicate AllRead(env: Env, calls: Calls, rows: map<string, Alias>, ids: seq<string>) {
    forall id :: id in ids && id in rows && Writes(env, calls, id, rows[id]) ==> calls.ensureAlias(id) != WrittenUnread
  }

  /** Well-formed aliases, no two of which have one key. */
  predicate OnePerKey(rows: map<string, Alias>, ids: seq<string>) {
    && (forall id :: id in ids ==> id in rows && GoodLocal(rows[id].local) && GoodDests(rows[id].destinations))
    && forall a, b :: a in ids && b in ids && a != b ==> Lower(rows[a].local) != Lower(rows[b].local)
  }

  /** What the file records under a key. */
  function Recorded(files: map<string, string>, fqdn: string, key: string): seq<seq<string>> {
    Entries(Lines(if fqdn in files then files[fqdn] else ""), key)
  }

  /** `found` is what is recorded for an alias whose turn wrote: its own destinations, or its
      members' addresses; nothing when there are none. */
  ghost predicate RecordsTurn(env: Env, d: MailDomain, identities: map<string, Identity>, a: Alias,
      found: seq<seq<string>>)
  {
    exists dests ::
      && found == (if dests == [] then [] else [dests])
      && match a.group
         case None => dests == a.destinations
         case Some(g) =>
           MemberAddresses(dests, identities, env.identityIds, d.org, if g in env.members then env.members[g] else [])
  }

  lemma StepFile(env: Env, calls: Calls, d: MailDomain, id: string, a: Alias, p: Progress, key: string)
    requires GoodLocal(a.local) && GoodDests(a.destinations)
    requires forall i :: i in p.world.identities ==> GoodDest(p.world.identities[i].address)
    requires Writes(env, calls, id, a) ==> calls.ensureAlias(id) != WrittenUnread
    ensures var q := AliasStep(env, calls, d, id, a, p);
      && (!Writes(env, calls, id, a) ==> q.world.files == p.world.files)
      && q.world.identities == p.world.identities && q.world.files - {d.fqdn} == p.world.files - {d.fqdn}
      && (key != Lower(a.local) ==> Recorded(q.world.files, d.fqdn, key) == Recorded(p.world.files, d.fqdn, key))
      && (Writes(env, calls, id, a) ==>
            RecordsTurn(env, d, p.world.identities, a, Recorded(q.world.files, d.fqdn, Lower(a.local))))
  {
    hide ActiveAddresses, MemberAddresses, Lines, Entries, SetAlias, GoodLocal, GoodDest, Lower;
    if Writes(env, calls, id, a) {
      var dests := Desired(env, p.world.identities, d, a);
      Convergence.DesiredIsGood(env, p.world.identities, d, a);
      SetAliasIsMapUpdate(TextOf(p.world.files, d.fqdn), Op(a.local, dests), key);
      SetAliasIsMapUpdate(TextOf(p.world.files, d.fqdn), Op(a.local, dests), Lower(a.local));
      if a.group.Some? {
        ActiveAddressesAre(p.world.identities, env.identityIds, d.org, Members(env, a.group.value));
      }
    }
  }

  /** What one key records after the loop. */
  ghost predicate RecordAfter(env: Env, calls: Calls, d: MailDomain, w: World, files: map<string, string>, id: string)
    requires id in w.aliases
  {
    var a := w.aliases[id];
    var found := Recorded(files, d.fqdn, Lower(a.local));
    if Writes(env, calls, id, a) then RecordsTurn(env, d, w.identities, a, found)
    else found == Recorded(w.files, d.fqdn, Lower(a.local))
  }

  lemma {:induction false} LoopFile(env: Env, calls: Calls, d: MailDomain, w: World, ids: seq<string>, key: string)
    requires OnePerKey(w.aliases, ids) && AllRead(env, calls, w.aliases, ids)
    requires forall i :: i in w.identities ==> GoodDest(w.identities[i].address)
    ensures var v := AliasLoop(env, calls, d, w.aliases, ids, Progress(w, 0, 0)).world;
      && v.identities == w.identities && v.files - {d.fqdn} == w.files - {d.fqdn}
      && (forall id :: id in ids ==> RecordAfter(env, calls, d, w, v.files, id))
      && ((forall id :: id in ids ==> key != Lower(w.aliases[id].local)) ==>
            Recorded(v.files, d.fqdn, key) == Recorded(w.files, d.fqdn, key))
  {
    hide AliasStep, Recorded, RecordsTurn, Writes, Lower, GoodLocal, GoodDest, GoodDests;
    if ids != [] {
      var init, last := ids[..|ids| - 1], ids[|ids| - 1];
      assert ids == init + [last];
      var a := w.aliases[last];
      var p := AliasLoop(env, calls, d, w.aliases, init, Progress(w, 0, 0));
      LoopFile(env, calls, d, w, init, key);
      LoopFile(env, calls, d, w, init, Lower(a.local));
      StepFile(env, calls, d, last, a, p, key);
      forall id | id in ids
        ensures RecordAfter(env, calls, d, w, AliasStep(env, calls, d, last, a, p).world.files, id)
      {
        StepFile(env, calls, d, last, a, p, Lower(w.aliases[id].local));
      }
    }
  }

  /** After a pass the file of the domain records each of its active aliases whose turn wrote,
      signalled or not and whether or not its row was updated, with exactly its destinations;
      every other key records what it did, and other files stay, unless the agent wrote over a
      file it failed to read. */
  lemma FilesAfterPass(env: Env, calls: Calls, d: MailDomain, w: World, key: string)
    requires OnePerKey(w.aliases, AliasesOf(w.aliases, env.aliasIds, d.id))
    requires AllRead(env, calls, w.aliases, AliasesOf(w.aliases, env.aliasIds, d.id))
    requires forall i :: i in w.identities ==> GoodDest(w.identities[i].address)
    ensures var v := DomainPass(env, calls, d, w);
      && v.files - {d.fqdn} == w.files - {d.fqdn}
      && (!calls.listAliases ==> v.files == w.files)
      && (forall id :: calls.listAliases && id in env.aliasIds && id in w.aliases && w.aliases[id].domainId == d.id ==>
            RecordAfter(env, calls, d, w, v.files, id))
      && ((forall id :: id in env.aliasIds && id in w.aliases && w.aliases[id].domainId == d.id ==>
             key != Lower(w.aliases[id].local)) ==>
            Recorded(v.files, d.fqdn, key) == Recorded(w.files, d.fqdn, key))
  {
    hide AliasLoop, IdentityLoop, RecordAfter, Recorded, Lower, OnePerKey, AllRead;
    AliasesOfRows(w.aliases, env.aliasIds, d.id);
    IdentitiesOfRows(w.identities, env.identityIds, d.id);
    if calls.listAliases {
      LoopFile(env, calls, d, w, AliasesOf(w.aliases, env.aliasIds, d.id), key);
    }
  }

  // ---------- Counters ----------

  /** A write that the agent carried out and signalled. */
  predicate Signalled(env: Env, calls: Calls, id: string, a: Alias) {
    Writes(env, calls, id, a) && calls.ensureAlias(id) != WrittenUnsignalled
  }

  /** The aliases with or without a group whose turn does so. */
  function Counted(env: Env, calls: Calls, rows: map<string, Alias>, grouped: bool): string -> bool {
    id => id in rows && rows[id].group.Some? == grouped && Signalled(env, calls, id, rows[id])
  }

  lemma {:induction false} LoopCounts(env: Env, calls: Calls, d: MailDomain, w: World, ids: seq<string>)
      returns (own: seq<nat>, grouped: seq<nat>)
    requires forall id :: id in ids ==> id in w.aliases
    ensures var p := AliasLoop(env, calls, d, w.aliases, ids, Progress(w, 0, 0));
      && Positions(own, ids, Counted(env, calls, w.aliases, false)) && p.restored == |own|
      && Positions(grouped, ids, Counted(env, calls, w.aliases, true)) && p.groupAliases == |grouped|
  {
    hide AliasStep, Signalled, Positions;
    own, grouped := [], [];
    if ids == [] {
      NoPositions(Counted(env, calls, w.aliases, false));
      NoPositions(Counted(env, calls, w.aliases, true));
    } else {
      var n := |ids| - 1;
      own, grouped := LoopCounts(env, calls, d, w, ids[..n]);
      var a, p := w.aliases[ids[n]], AliasLoop(env, calls, d, w.aliases, ids[..n], Progress(w, 0, 0));
      StepCounts(env, calls, d, ids[n], a, p);
      PositionsMore(own, ids, Counted(env, calls, w.aliases, false));
      PositionsMore(grouped, ids, Counted(env, calls, w.aliases, true));
      if Signalled(env, calls, ids[n], a) {
        if a.group.Some? {
          grouped := grouped + [n];
        } else {
          own := own + [n];
        }
      }
    }
  }

  lemma StepCounts(env: Env, calls: Calls, d: MailDomain, id: string, a: Alias, p: Progress)
    ensures var q := AliasStep(env, calls, d, id, a, p);
      && q.restored == p.restored + (if a.group.None? && Signalled(env, calls, id, a) then 1 else 0)
      && q.groupAliases == p.groupAliases + (if a.group.Some? && Signalled(env, calls, id, a) then 1 else 0)
  {
    hide EnsureAlias, Desired, SetDestinations;
  }

  /** The counters are the numbers of listed aliases, without a group and with one, whose turn
      wrote the file and signalled; zero when the listing fails. */
  lemma CountersAfterPass(env: Env, calls: Calls, d: MailDomain, w: World)
      returns (own: seq<nat>, grouped: seq<nat>)
    ensures var r, ids := PassResult(env, calls, d, w), AliasesOf(w.aliases, env.aliasIds, d.id);
      if !calls.listAliases then r.aliasesRestored == 0 && r.groupAliases == 0
      else
        && Positions(own, ids, Counted(env, calls, w.aliases, false)) && r.aliasesRestored == |own|
        && Positions(grouped, ids, Counted(env, calls, w.aliases, true)) && r.groupAliases == |grouped|
  {
    hide AliasLoop, Positions;
    AliasesOfRows(w.aliases, env.aliasIds, d.id);
    own, grouped := LoopCounts(env, calls, d, w, AliasesOf(w.aliases, env.aliasIds, d.id));
  }
}
