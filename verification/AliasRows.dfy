/** The constraints that hold of the alias and identity rows in every run: one local part per
    domain, one row per address. */
module AliasRows {
  import opened Text
  import opened AliasFile
  import opened Reconcile
  import opened MailRouting

  /** The two rows have one address: the same local part, of the same domain or of two domains
      with one name. */
  predicate SameAddress(ds: Domains, a: Alias, b: Alias) {
    a.local == b.local &&
    (a.domainId == b.domainId ||
     (a.domainId in ds && b.domainId in ds && ds[a.domainId].fqdn == ds[b.domainId].fqdn))
  }

  predicate OnePerAddress(ds: Domains, rows: map<string, Alias>) {
    forall a, b :: a in rows && b in rows && a != b ==> !SameAddress(ds, rows[a], rows[b])
  }

  /** The same rows up to destinations. */
  predicate SamePlaces(rows: map<string, Alias>, rows': map<string, Alias>) {
    rows'.Keys == rows.Keys &&
    forall id :: id in rows ==> rows'[id].local == rows[id].local && rows'[id].domainId == rows[id].domainId
  }

  lemma PlacesKept(ds: Domains, rows: map<string, Alias>, rows': map<string, Alias>)
    requires OnePerAddress(ds, rows) && SamePlaces(rows, rows')
    ensures OnePerAddress(ds, rows')
  {
    forall a, b | a in rows' && b in rows' && a != b
      ensures !SameAddress(ds, rows'[a], rows'[b])
    {
      assert !SameAddress(ds, rows[a], rows[b]);
    }
  }

  lemma InsertKeeps(s: State, ds: Domains, p: Proc, id: string)
    requires p.Filed? && KnownDomain(ds, p.d) && id !in s.world.aliases && OnePerAddress(ds, s.world.aliases)
    ensures OnePerAddress(ds, DoInsert(s, ds, p, id).aliases)
  {
  }

  lemma OtherCommandsKeep(s: State, ds: Domains, pid: string, cmd: Command)
    requires Act(s, ds, pid, cmd).Some? && !cmd.Insert?
    ensures SamePlaces(s.world.aliases, Act(s, ds, pid, cmd).value.aliases)
  {
  }

  lemma FiledDomain(s: State, ds: Domains, pid: string)
    requires Inv(s, ds) && pid in s.procs && s.procs[pid].Filed?
    ensures KnownDomain(ds, s.procs[pid].d)
  {
    assert ProcOk(s.world.identities, s.world.aliases, ds, s.procs[pid]);
  }

  lemma NextKeeps(s: State, ds: Domains, step: Step)
    requires Inv(s, ds) && OnePerAddress(ds, s.world.aliases)
    ensures OnePerAddress(ds, Next(s, ds, step).world.aliases)
  {
    hide OnePerAddress, Act, Inv, KnownDomain, DoInsert;
    if step.Do? && Act(s, ds, step.pid, step.cmd).Some? {
      if step.cmd.Insert? {
        InsertIs(s, ds, step.pid, step.cmd.id);
        FiledDomain(s, ds, step.pid);
        InsertKeeps(s, ds, s.procs[step.pid], step.cmd.id);
      } else {
        OtherCommandsKeep(s, ds, step.pid, step.cmd);
        PlacesKept(ds, s.world.aliases, Act(s, ds, step.pid, step.cmd).value.aliases);
      }
    }
  }

  lemma InsertIs(s: State, ds: Domains, pid: string, id: string)
    requires Act(s, ds, pid, Insert(id)).Some?
    ensures pid in s.procs && s.procs[pid].Filed? && id !in s.world.aliases
    ensures Act(s, ds, pid, Insert(id)).value == DoInsert(s, ds, s.procs[pid], id)
  {
    hide DoInsert;
  }

  /** In every interleaving of alias creations and reconciliation no two alias rows have one
      address. */
  lemma {:induction false} NoTwoRowsForOneAddress(s: State, ds: Domains, steps: seq<Step>)
    requires Initial(s) && Keyed(ds)
    ensures OnePerAddress(ds, Exec(s, ds, steps).world.aliases)
  {
    hide Next, Keyed, OnePerAddress, Inv;
    if steps == [] {
      NoRows(s, ds);
    } else {
      var init := steps[..|steps| - 1];
      NoTwoRowsForOneAddress(s, ds, init);
      RunKeepsInv(s, ds, init);
      NextKeeps(Exec(s, ds, init), ds, steps[|steps| - 1]);
    }
  }

  lemma NoRows(s: State, ds: Domains)
    requires Initial(s)
    ensures OnePerAddress(ds, s.world.aliases)
  {
  }

  lemma IdentitiesKeep(s: State, ds: Domains, step: Step)
    requires AddressUnique(s.world.identities)
    ensures AddressUnique(Next(s, ds, step).world.identities)
  {
    hide Act;
  }

  /** Nor do two identities. */
  lemma {:induction false} NoTwoIdentitiesForOneAddress(s: State, ds: Domains, steps: seq<Step>)
    requires Initial(s)
    ensures AddressUnique(Exec(s, ds, steps).world.identities)
  {
    hide Next;
    if steps != [] {
      NoTwoIdentitiesForOneAddress(s, ds, steps[..|steps| - 1]);
      IdentitiesKeep(Exec(s, ds, steps[..|steps| - 1]), ds, steps[|steps| - 1]);
    }
  }
}
