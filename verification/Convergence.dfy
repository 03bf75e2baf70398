/** What reconciliation reaches and what it never touches. */
module Convergence {
  import opened Text
  import opened AliasFile
  import opened Reconcile

  // ---------- Many operations on many files ----------

  /** An alias operation on the file of one domain name, issued for one alias row. */
  datatype FileOp = FileOp(id: string, fqdn: string, op: Op)

  function RunFiles(files: map<string, string>, fops: seq<FileOp>): map<string, string> {
    if fops == [] then files
    else
      var last := fops[|fops| - 1];
      EnsureAlias(RunFiles(files, fops[..|fops| - 1]), last.fqdn, last.op, Written)
  }

  /** The operations on one file, in order. */
  function OpsOn(fops: seq<FileOp>, fqdn: string): seq<Op> {
    if fops == [] then []
    else
      var last := fops[|fops| - 1];
      OpsOn(fops[..|fops| - 1], fqdn) + if last.fqdn == fqdn then [last.op] else []
  }

  predicate Separate(a: FileOp, b: FileOp) {
    a.fqdn == b.fqdn ==> Lower(a.op.local) != Lower(b.op.local)
  }

  predicate AllSeparate(fops: seq<FileOp>) {
    forall i, j :: 0 <= i < j < |fops| ==> Separate(fops[i], fops[j])
  }

  predicate AllGood(fops: seq<FileOp>) {
    forall f :: f in fops ==> GoodOp(f.op)
  }

  lemma {:induction false} OpsOnMembers(fops: seq<FileOp>, fqdn: string)
    ensures forall f :: f in fops && f.fqdn == fqdn ==> f.op in OpsOn(fops, fqdn)
    ensures forall op :: op in OpsOn(fops, fqdn) ==> exists f :: f in fops && f.fqdn == fqdn && f.op == op
  {
    if fops != [] {
      var init, last := fops[..|fops| - 1], fops[|fops| - 1];
      OpsOnMembers(init, fqdn);
      assert fops == init + [last];
      forall op | op in OpsOn(fops, fqdn)
        ensures exists f :: f in fops && f.fqdn == fqdn && f.op == op
      {
        if op in OpsOn(init, fqdn) {
          var f :| f in init && f.fqdn == fqdn && f.op == op;
          assert f in fops;
        } else {
          assert last in fops;
        }
      }
    }
  }

  lemma {:induction false} OpsOnDistinct(fops: seq<FileOp>, fqdn: string)
    requires AllGood(fops) && AllSeparate(fops)
    ensures GoodOps(OpsOn(fops, fqdn)) && DistinctKeys(OpsOn(fops, fqdn))
  {
    if fops != [] {
      var init, last := fops[..|fops| - 1], fops[|fops| - 1];
      assert last in fops;
      OpsOnDistinct(init, fqdn);
      OpsOnMembers(init, fqdn);
      if last.fqdn == fqdn {
        forall op | op in OpsOn(init, fqdn)
          ensures Lower(op.local) != Lower(last.op.local)
        {
          var f :| f in init && f.fqdn == fqdn && f.op == op;
          var i :| 0 <= i < |init| && init[i] == f;
          assert Separate(fops[i], fops[|fops| - 1]);
        }
      }
    }
  }

  lemma RunFilesSnoc(files: map<string, string>, fops: seq<FileOp>, f: FileOp)
    ensures RunFiles(files, fops + [f]) == EnsureAlias(RunFiles(files, fops), f.fqdn, f.op, Written)
  {
    assert (fops + [f])[..|fops + [f]| - 1] == fops;
  }

  lemma EnsureAliasAt(files: map<string, string>, f: FileOp, fqdn: string)
    ensures TextOf(EnsureAlias(files, f.fqdn, f.op, Written), fqdn)
         == if f.fqdn == fqdn then SetAlias(TextOf(files, fqdn), f.op) else TextOf(files, fqdn)
    ensures fqdn in EnsureAlias(files, f.fqdn, f.op, Written) <==> fqdn in files || f.fqdn == fqdn
  {
  }

  lemma {:induction false} RunFilesAt(files: map<string, string>, fops: seq<FileOp>, fqdn: string)
    ensures TextOf(RunFiles(files, fops), fqdn) == SetAll(TextOf(files, fqdn), OpsOn(fops, fqdn))
    ensures fqdn in RunFiles(files, fops) <==> fqdn in files || OpsOn(fops, fqdn) != []
  {
    if fops != [] {
      var init, last := fops[..|fops| - 1], fops[|fops| - 1];
      RunFilesAt(files, init, fqdn);
      EnsureAliasAt(RunFiles(files, init), last, fqdn);
      if last.fqdn == fqdn {
        SetAllSnoc(TextOf(files, fqdn), OpsOn(init, fqdn), last.op);
      } else {
        assert OpsOn(fops, fqdn) == OpsOn(init, fqdn);
      }
    }
  }

  /** Same aliases on every file, possibly with other destinations. */
  predicate SameAliases(a: seq<FileOp>, b: seq<FileOp>) {
    |a| == |b| && forall i :: 0 <= i < |a| ==> a[i].fqdn == b[i].fqdn && a[i].op.local == b[i].op.local
  }

  lemma {:induction false} SameAliasesOn(a: seq<FileOp>, b: seq<FileOp>, fqdn: string)
    requires SameAliases(a, b)
    ensures |OpsOn(a, fqdn)| == |OpsOn(b, fqdn)|
    ensures Keys(OpsOn(a, fqdn)) == Keys(OpsOn(b, fqdn))
  {
    if a != [] {
      var n := |a| - 1;
      SameAliasesOn(a[..n], b[..n], fqdn);
      if a[n].fqdn == fqdn {
        SetAllSnoc("", OpsOn(a[..n], fqdn), a[n].op);
        SetAllSnoc("", OpsOn(b[..n], fqdn), b[n].op);
      } else {
        assert OpsOn(a, fqdn) == OpsOn(a[..n], fqdn);
        assert OpsOn(b, fqdn) == OpsOn(b[..n], fqdn);
      }
    }
  }

  /** On all files at once, the later of two passes over the same aliases decides. */
  lemma LastCycleWins(files: map<string, string>, a: seq<FileOp>, b: seq<FileOp>)
    requires AllGood(a) && AllSeparate(a) && AllGood(b) && AllSeparate(b) && SameAliases(a, b)
    ensures RunFiles(RunFiles(files, a), b) == RunFiles(files, b)
  {
    hide RunFiles, OpsOn, SetAlias;
    var once, twice := RunFiles(files, b), RunFiles(RunFiles(files, a), b);
    forall f
      ensures f in once <==> f in twice
      ensures TextOf(once, f) == TextOf(twice, f)
    {
      RunFilesAt(files, a, f);
      RunFilesAt(files, b, f);
      RunFilesAt(RunFiles(files, a), b, f);
      SameAliasesOn(a, b, f);
      OpsOnDistinct(a, f);
      OpsOnDistinct(b, f);
      if OpsOn(b, f) != [] {
        LastPassWins(TextOf(files, f), OpsOn(a, f), OpsOn(b, f));
      }
    }
    forall f | f in once
      ensures once[f] == twice[f]
    {
      assert TextOf(once, f) == TextOf(twice, f);
    }
  }

  // ---------- A healthy alias loop ----------

  /** The operations of one domain: one per active alias, with its desired destinations. */
  function DomainOps(env: Env, idents: map<string, Identity>, d: MailDomain, rows: map<string, Alias>, ids: seq<string>)
    : seq<FileOp>
    requires forall id :: id in ids ==> id in rows
  {
    if ids == [] then []
    else
      var last := ids[|ids| - 1];
      DomainOps(env, idents, d, rows, ids[..|ids| - 1])
      + if rows[last].active
        then [FileOp(last, d.fqdn, Op(rows[last].local, Desired(env, idents, d, rows[last])))] else []
  }

  predicate Bound(a: Alias) {
    a.active && a.group.Some?
  }

  /** Rows with the active group aliases among `ids` refreshed. */
  function Refresh(env: Env, idents: map<string, Identity>, d: MailDomain, rows: map<string, Alias>, ids: seq<string>)
    : map<string, Alias>
  {
    map id | id in rows ::
      if id in ids && Bound(rows[id]) then rows[id].(destinations := Desired(env, idents, d, rows[id]))
      else rows[id]
  }

  lemma HealthyStep(env: Env, d: MailDomain, id: string, a: Alias, p: Progress)
    ensures AliasStep(env, Healthy(env), d, id, a, p).world
         == if !a.active then p.world
            else
              var dests := Desired(env, p.world.identities, d, a);
              World(if a.group.Some? then SetDestinations(p.world.aliases, id, dests) else p.world.aliases,
                    p.world.identities, EnsureAlias(p.world.files, d.fqdn, Op(a.local, dests), Written))
  {
  }

  lemma RefreshSnoc(env: Env, idents: map<string, Identity>, d: MailDomain, rows: map<string, Alias>,
      ids: seq<string>, id: string)
    requires id in rows
    ensures Refresh(env, idents, d, rows, ids + [id])
         == if Bound(rows[id])
            then SetDestinations(Refresh(env, idents, d, rows, ids), id, Desired(env, idents, d, rows[id]))
            else Refresh(env, idents, d, rows, ids)
  {
  }

  lemma {:induction false} HealthyAliasLoop(env: Env, d: MailDomain, w: World, ids: seq<string>)
    requires forall id :: id in ids ==> id in w.aliases
    ensures AliasLoop(env, Healthy(env), d, w.aliases, ids, Progress(w, 0, 0)).world
         == World(Refresh(env, w.identities, d, w.aliases, ids), w.identities,
                  RunFiles(w.files, DomainOps(env, w.identities, d, w.aliases, ids)))
  {
    if ids == [] {
      assert Refresh(env, w.identities, d, w.aliases, ids) == w.aliases;
    } else {
      var init, last := ids[..|ids| - 1], ids[|ids| - 1];
      var a := w.aliases[last];
      HealthyAliasLoop(env, d, w, init);
      HealthyStep(env, d, last, a, AliasLoop(env, Healthy(env), d, w.aliases, init, Progress(w, 0, 0)));
      RefreshSnoc(env, w.identities, d, w.aliases, init, last);
      assert ids == init + [last];
      var fops := DomainOps(env, w.identities, d, w.aliases, init);
      if a.active {
        RunFilesSnoc(w.files, fops, FileOp(last, d.fqdn, Op(a.local, Desired(env, w.identities, d, a))));
      } else {
        assert DomainOps(env, w.identities, d, w.aliases, ids) == fops;
      }
    }
  }

  // ---------- The identity loop ----------

  /** What the identity loop does to every row, under any answers. */
  lemma {:induction false} IdentityLoopRows(calls: Calls, rows: map<string, Identity>, ids: seq<string>)
    requires forall id :: id in ids ==> id in rows
    ensures IdentityLoop(calls, rows, ids).Keys == rows.Keys
    ensures forall id :: id in rows ==>
      IdentityLoop(calls, rows, ids)[id]
      == if id in ids && FoundMissing(calls, rows[id]) && calls.setStatus(id)
         then rows[id].(status := Suspended) else rows[id]
  {
    hide IdentitiesOf, Healthy;
    if ids != [] {
      IdentityLoopRows(calls, rows, ids[..|ids| - 1]);
      assert ids == ids[..|ids| - 1] + [ids[|ids| - 1]];
    }
  }

  // ---------- What the database guarantees ----------

  predicate Unrepeated<T(==)>(s: seq<T>) {
    forall i, j :: 0 <= i < j < |s| ==> s[i] != s[j]
  }

  /** Alias addresses are unique: no two rows share local part and domain name. */
  predicate UniqueAddresses(domains: seq<MailDomain>, rows: map<string, Alias>) {
    forall d, e, id, jd ::
      d in domains && e in domains && id in rows && jd in rows && id != jd
      && rows[id].domainId == d.id && rows[jd].domainId == e.id && d.fqdn == e.fqdn
      ==> Lower(rows[id].local) != Lower(rows[jd].local)
  }

  /** Keys and listings agree, addresses are unique, and every local part and address is
      one that address building produces from a trimmed local part. */
  ghost predicate WellFormed(env: Env, domains: seq<MailDomain>, w: World) {
    && Unrepeated(env.aliasIds)
    && (forall id :: id in w.aliases ==> id in env.aliasIds)
    && (forall id :: id in w.identities ==> id in env.identityIds)
    && (forall i, j :: 0 <= i < j < |domains| ==> domains[i].id != domains[j].id)
    && UniqueAddresses(domains, w.aliases)
    && (forall id :: id in w.aliases ==> GoodLocal(w.aliases[id].local) && GoodDests(w.aliases[id].destinations))
    && (forall id :: id in w.identities ==> GoodDest(w.identities[id].address))
  }

  /** The same rows, up to the destinations of active group aliases. */
  predicate Like(a: map<string, Alias>, b: map<string, Alias>) {
    && a.Keys == b.Keys
    && forall id :: id in a ==>
         a[id].(destinations := b[id].destinations) == b[id] && (Bound(a[id]) || a[id] == b[id])
  }

  /** The same identities, up to status. */
  predicate SameIdentities(a: map<string, Identity>, b: map<string, Identity>) {
    && a.Keys == b.Keys
    && forall id :: id in a ==> a[id].(status := b[id].status) == b[id]
  }

  /** Every active identity of a listed domain has a mail user. */
  predicate Settled(env: Env, domains: seq<MailDomain>, rows: map<string, Identity>) {
    forall id, d :: id in rows && d in domains && rows[id].domainId == d.id && rows[id].status == Active
      ==> rows[id].address in env.mailUsers
  }

  // ---------- One healthy pass ----------

  function PassOps(env: Env, d: MailDomain, w: World): seq<FileOp> {
    AliasesOfRows(w.aliases, env.aliasIds, d.id);
    DomainOps(env, w.identities, d, w.aliases, AliasesOf(w.aliases, env.aliasIds, d.id))
  }

  /** A healthy pass in closed form. */
  lemma HealthyPass(env: Env, d: MailDomain, w: World)
    ensures var w' := DomainPass(env, Healthy(env), d, w);
      && w'.aliases == Refresh(env, w.identities, d, w.aliases, AliasesOf(w.aliases, env.aliasIds, d.id))
      && w'.files == RunFiles(w.files, PassOps(env, d, w))
      && w'.identities.Keys == w.identities.Keys
      && forall id :: id in w.identities ==>
           w'.identities[id]
           == var i := w.identities[id];
              if id in env.identityIds && i.domainId == d.id && i.status == Active && i.address !in env.mailUsers
              then i.(status := Suspended) else i
  {
    AliasesOfRows(w.aliases, env.aliasIds, d.id);
    HealthyAliasLoop(env, d, w, AliasesOf(w.aliases, env.aliasIds, d.id));
    IdentitiesOfRows(w.identities, env.identityIds, d.id);
    IdentityLoopRows(Healthy(env), w.identities, IdentitiesOf(w.identities, env.identityIds, d.id));
  }

  lemma RefreshIsLike(env: Env, idents: map<string, Identity>, d: MailDomain, rows: map<string, Alias>,
      ids: seq<string>)
    ensures Like(rows, Refresh(env, idents, d, rows, ids))
  {
  }

  lemma LikeTransitive(a: map<string, Alias>, b: map<string, Alias>, c: map<string, Alias>)
    requires Like(a, b) && Like(b, c)
    ensures Like(a, c)
  {
    forall id | id in a
      ensures a[id].(destinations := c[id].destinations) == c[id] && (Bound(a[id]) || a[id] == c[id])
    {
      assert id in b;
    }
  }

  lemma {:induction false} AliasesOfLike(a: map<string, Alias>, b: map<string, Alias>, ids: seq<string>,
      domainId: string)
    requires Like(a, b)
    ensures AliasesOf(a, ids, domainId) == AliasesOf(b, ids, domainId)
  {
    if ids != [] {
      AliasesOfLike(a, b, ids[..|ids| - 1], domainId);
    }
  }

  /** Alike rows give operations on the same aliases, and equal ones under equal identities. */
  lemma {:induction false} DomainOpsLike(
      env: Env, i1: map<string, Identity>, i2: map<string, Identity>, d: MailDomain,
      a: map<string, Alias>, b: map<string, Alias>, ids: seq<string>)
    requires Like(a, b) && forall id :: id in ids ==> id in a && id in b
    ensures SameAliases(DomainOps(env, i1, d, a, ids), DomainOps(env, i2, d, b, ids))
    ensures i1 == i2 ==> DomainOps(env, i1, d, a, ids) == DomainOps(env, i2, d, b, ids)
  {
    if ids != [] {
      DomainOpsLike(env, i1, i2, d, a, b, ids[..|ids| - 1]);
      assert ids[|ids| - 1] in a;
    }
  }

  lemma {:induction false} ActiveAddressesKnown(rows: map<string, Identity>, ids: seq<string>, org: string,
      users: seq<string>)
    ensures forall x :: x in ActiveAddresses(rows, ids, org, users) ==>
      exists id :: id in rows && rows[id].address == x && rows[id].org == org && rows[id].status == Active
  {
    if ids != [] {
      ActiveAddressesKnown(rows, ids[..|ids| - 1], org, users);
    }
  }

  /** Where the operations of a domain come from. */
  lemma {:induction false} DomainOpsFrom(
      env: Env, idents: map<string, Identity>, d: MailDomain, rows: map<string, Alias>, ids: seq<string>)
    requires forall id :: id in ids ==> id in rows
    ensures forall f :: f in DomainOps(env, idents, d, rows, ids) ==>
      f.id in ids && f.fqdn == d.fqdn && rows[f.id].active
      && f.op == Op(rows[f.id].local, Desired(env, idents, d, rows[f.id]))
    ensures Unrepeated(ids) ==>
      forall i, j :: 0 <= i < j < |DomainOps(env, idents, d, rows, ids)| ==>
        DomainOps(env, idents, d, rows, ids)[i].id != DomainOps(env, idents, d, rows, ids)[j].id
    ensures forall id :: id in ids && rows[id].active ==>
      FileOp(id, d.fqdn, Op(rows[id].local, Desired(env, idents, d, rows[id]))) in DomainOps(env, idents, d, rows, ids)
  {
    if ids != [] {
      var init, last := ids[..|ids| - 1], ids[|ids| - 1];
      DomainOpsFrom(env, idents, d, rows, init);
      assert ids == init + [last];
      var ops, before := DomainOps(env, idents, d, rows, ids), DomainOps(env, idents, d, rows, init);
      if Unrepeated(ids) {
        assert last !in init;
        forall i, j | 0 <= i < j < |ops|
          ensures ops[i].id != ops[j].id
        {
          assert before == ops[..|before|];
          if j == |before| {
            assert before[i] in before;
          } else {
            assert before[i].id != before[j].id;
          }
        }
      }
    }
  }

  lemma {:induction false} AliasesOfUnrepeated(rows: map<string, Alias>, ids: seq<string>, domainId: string)
    requires Unrepeated(ids)
    ensures Unrepeated(AliasesOf(rows, ids, domainId))
  {
    if ids != [] {
      AliasesOfUnrepeated(rows, ids[..|ids| - 1], domainId);
      AliasesOfRows(rows, ids[..|ids| - 1], domainId);
    }
  }

  // ---------- A healthy cycle ----------

  function HealthyCycle(env: Env, domains: seq<MailDomain>, w: World): World {
    Cycle(env, _ => Healthy(env), domains, w)
  }

  lemma HealthyCycleSnoc(env: Env, domains: seq<MailDomain>, w: World)
    requires domains != []
    ensures HealthyCycle(env, domains, w)
         == DomainPass(env, Healthy(env), domains[|domains| - 1], HealthyCycle(env, domains[..|domains| - 1], w))
  {
  }

  /** All file operations of a healthy cycle, in order. */
  function CycleOps(env: Env, domains: seq<MailDomain>, w: World): seq<FileOp> {
    if domains == [] then []
    else
      var n := |domains| - 1;
      CycleOps(env, domains[..n], w) + PassOps(env, domains[n], HealthyCycle(env, domains[..n], w))
  }

  lemma {:induction false} RunFilesConcat(files: map<string, string>, a: seq<FileOp>, b: seq<FileOp>)
    ensures RunFiles(files, a + b) == RunFiles(RunFiles(files, a), b)
  {
    hide EnsureAlias;
    if b == [] {
      assert a + b == a;
    } else {
      var init, last := b[..|b| - 1], b[|b| - 1];
      RunFilesConcat(files, a, init);
      RunFilesSnoc(files, a + init, last);
      RunFilesSnoc(RunFiles(files, a), init, last);
      assert a + b == a + init + [last];
      assert b == init + [last];
    }
  }

  /** A healthy cycle keeps rows alike and identities but for their status, and acts on the
      files exactly as its list of operations does. */
  lemma {:induction false} CycleShape(env: Env, domains: seq<MailDomain>, w: World)
    ensures Like(w.aliases, HealthyCycle(env, domains, w).aliases)
    ensures SameIdentities(w.identities, HealthyCycle(env, domains, w).identities)
    ensures HealthyCycle(env, domains, w).files == RunFiles(w.files, CycleOps(env, domains, w))
  {
    if domains != [] {
      var n := |domains| - 1;
      var mid := HealthyCycle(env, domains[..n], w);
      CycleShape(env, domains[..n], w);
      HealthyCycleSnoc(env, domains, w);
      HealthyPass(env, domains[n], mid);
      RefreshIsLike(env, mid.identities, domains[n], mid.aliases, AliasesOf(mid.aliases, env.aliasIds, domains[n].id));
      LikeTransitive(w.aliases, mid.aliases, HealthyCycle(env, domains, w).aliases);
      RunFilesConcat(w.files, CycleOps(env, domains[..n], w), PassOps(env, domains[n], mid));
    }
  }

  /** After a cycle every active identity of a listed domain has a mail user. */
  lemma {:induction false} CycleSettles(env: Env, domains: seq<MailDomain>, w: World)
    requires forall id :: id in w.identities ==> id in env.identityIds
    ensures Settled(env, domains, HealthyCycle(env, domains, w).identities)
  {
    if domains != [] {
      var n := |domains| - 1;
      CycleSettles(env, domains[..n], w);
      CycleShape(env, domains[..n], w);
      HealthyCycleSnoc(env, domains, w);
      HealthyPass(env, domains[n], HealthyCycle(env, domains[..n], w));
    }
  }

  /** Settled identities stay as they are. */
  lemma {:induction false} SettledStays(env: Env, domains: seq<MailDomain>, w: World)
    requires Settled(env, domains, w.identities)
    ensures HealthyCycle(env, domains, w).identities == w.identities
  {
    if domains != [] {
      var n := |domains| - 1;
      SettledStays(env, domains[..n], w);
      HealthyCycleSnoc(env, domains, w);
      HealthyPass(env, domains[n], HealthyCycle(env, domains[..n], w));
    }
  }

  /** Cycles over alike rows operate on the same aliases; with the same settled identities
      they perform the same operations. */
  lemma {:induction false} CycleOpsLike(env: Env, domains: seq<MailDomain>, w: World, v: World)
    requires Like(w.aliases, v.aliases)
    ensures SameAliases(CycleOps(env, domains, w), CycleOps(env, domains, v))
    ensures w.identities == v.identities && Settled(env, domains, w.identities) ==>
      CycleOps(env, domains, w) == CycleOps(env, domains, v)
  {
    hide DomainPass, PassOps, AliasesOf, RunFiles, HealthyCycle, Like;
    if domains != [] {
      var n := |domains| - 1;
      var d := domains[n];
      CycleOpsLike(env, domains[..n], w, v);
      var w', v' := HealthyCycle(env, domains[..n], w), HealthyCycle(env, domains[..n], v);
      CycleShape(env, domains[..n], w);
      CycleShape(env, domains[..n], v);
      var ids := AliasesOf(w'.aliases, env.aliasIds, d.id);
      AliasesOfRows(w'.aliases, env.aliasIds, d.id);
      PassOpsLike(env, d, w, w');
      PassOpsLike(env, d, v, v');
      PassOpsLike(env, d, w, v);
      if w.identities == v.identities && Settled(env, domains, w.identities) {
        SettledStays(env, domains[..n], w);
        SettledStays(env, domains[..n], v);
      }
    }
  }

  lemma PassOpsLike(env: Env, d: MailDomain, w: World, v: World)
    requires Like(w.aliases, v.aliases)
    ensures SameAliases(PassOps(env, d, w), PassOps(env, d, v))
    ensures w.identities == v.identities ==> PassOps(env, d, w) == PassOps(env, d, v)
  {
    AliasesOfRows(w.aliases, env.aliasIds, d.id);
    AliasesOfRows(v.aliases, env.aliasIds, d.id);
    AliasesOfLike(w.aliases, v.aliases, env.aliasIds, d.id);
    DomainOpsLike(env, w.identities, v.identities, d, w.aliases, v.aliases,
      AliasesOf(w.aliases, env.aliasIds, d.id));
  }

  // ---------- The operations of a cycle are well formed and separate ----------

  /** `f` is well formed and was issued for a row of one of the first `n` domains. */
  ghost predicate From(domains: seq<MailDomain>, n: nat, rows: map<string, Alias>, f: FileOp)
    requires n <= |domains|
  {
    && GoodOp(f.op)
    && f.id in rows
    && f.op.local == rows[f.id].local
    && exists k :: 0 <= k < n && domains[k].id == rows[f.id].domainId && domains[k].fqdn == f.fqdn
  }

  lemma PassOpsFrom(env: Env, domains: seq<MailDomain>, k: nat, w: World, v: World)
    requires WellFormed(env, domains, w) && Later(w, v) && k < |domains|
    ensures forall f :: f in PassOps(env, domains[k], v) ==>
      From(domains, k + 1, w.aliases, f) && w.aliases[f.id].domainId == domains[k].id
    ensures forall i, j :: 0 <= i < j < |PassOps(env, domains[k], v)| ==>
      PassOps(env, domains[k], v)[i].id != PassOps(env, domains[k], v)[j].id
  {
    var d := domains[k];
    var ids := AliasesOf(v.aliases, env.aliasIds, d.id);
    AliasesOfRows(v.aliases, env.aliasIds, d.id);
    AliasesOfUnrepeated(v.aliases, env.aliasIds, d.id);
    DomainOpsFrom(env, v.identities, d, v.aliases, ids);
    forall f | f in PassOps(env, d, v)
      ensures From(domains, k + 1, w.aliases, f) && w.aliases[f.id].domainId == d.id
    {
      var a := v.aliases[f.id];
      assert f.id in w.aliases;
      if a.group.Some? {
        ActiveAddressesKnown(v.identities, env.identityIds, d.org, Members(env, a.group.value));
        forall x | x in f.op.dests
          ensures GoodDest(x)
        {
          var id :| id in v.identities && v.identities[id].address == x;
          assert id in w.identities;
        }
      }
    }
  }

  lemma SameTransitive(a: map<string, Identity>, b: map<string, Identity>, c: map<string, Identity>)
    requires SameIdentities(a, b) && SameIdentities(b, c)
    ensures SameIdentities(a, c)
  {
    forall id | id in a
      ensures a[id].(status := c[id].status) == c[id]
    {
      assert id in b;
    }
  }

  /** `v` came from the well-formed `w` by reconciliation steps. */
  ghost predicate Later(w: World, v: World) {
    Like(w.aliases, v.aliases) && SameIdentities(w.identities, v.identities)
  }

  lemma LaterCycle(env: Env, domains: seq<MailDomain>, w: World, v: World)
    requires Later(w, v)
    ensures Later(w, HealthyCycle(env, domains, v))
  {
    var v' := HealthyCycle(env, domains, v);
    CycleShape(env, domains, v);
    LikeTransitive(w.aliases, v.aliases, v'.aliases);
    SameTransitive(w.identities, v.identities, v'.identities);
  }

  /** The operations of the first `n` domains. */
  ghost predicate OpsOf(domains: seq<MailDomain>, n: nat, rows: map<string, Alias>, ops: seq<FileOp>)
    requires n <= |domains|
  {
    && (forall f :: f in ops ==> From(domains, n, rows, f))
    && (forall i, j :: 0 <= i < j < |ops| ==> ops[i].id != ops[j].id)
  }

  lemma OpsOfConcat(domains: seq<MailDomain>, n: nat, rows: map<string, Alias>, a: seq<FileOp>, b: seq<FileOp>)
    requires n < |domains| && forall i, j :: 0 <= i < j < |domains| ==> domains[i].id != domains[j].id
    requires OpsOf(domains, n, rows, a) && OpsOf(domains, n + 1, rows, b)
    requires forall f :: f in b ==> f.id in rows && rows[f.id].domainId == domains[n].id
    ensures OpsOf(domains, n + 1, rows, a + b)
  {
    var ops := a + b;
    forall i, j | 0 <= i < j < |ops|
      ensures ops[i].id != ops[j].id
    {
      if i < |a| <= j {
        assert a[i] in a && b[j - |a|] in b;
        assert From(domains, n, rows, a[i]);
      }
    }
    forall f | f in ops
      ensures From(domains, n + 1, rows, f)
    {
      if f in a {
        assert From(domains, n, rows, f);
      }
    }
  }

  lemma {:induction false} CycleOpsFrom(env: Env, domains: seq<MailDomain>, w: World, v: World, n: nat)
    requires WellFormed(env, domains, w) && Later(w, v) && n <= |domains|
    ensures OpsOf(domains, n, w.aliases, CycleOps(env, domains[..n], v))
  {
    hide HealthyCycle, PassOps, UniqueAddresses, GoodOp, GoodLocal, GoodDests, GoodDest, Like, SameIdentities;
    if n > 0 {
      var pre := domains[..n - 1];
      assert domains[..n][..n - 1] == pre;
      CycleOpsFrom(env, domains, w, v, n - 1);
      LaterCycle(env, pre, w, v);
      PassOpsFrom(env, domains, n - 1, w, HealthyCycle(env, pre, v));
      OpsOfConcat(domains, n - 1, w.aliases, CycleOps(env, pre, v),
        PassOps(env, domains[n - 1], HealthyCycle(env, pre, v)));
    }
  }

  lemma FromSeparate(domains: seq<MailDomain>, rows: map<string, Alias>, f: FileOp, g: FileOp)
    requires UniqueAddresses(domains, rows)
    requires From(domains, |domains|, rows, f) && From(domains, |domains|, rows, g) && f.id != g.id
    ensures Separate(f, g)
  {
    hide GoodOp, Lower;
    var k :| 0 <= k < |domains| && domains[k].id == rows[f.id].domainId && domains[k].fqdn == f.fqdn;
    var m :| 0 <= m < |domains| && domains[m].id == rows[g.id].domainId && domains[m].fqdn == g.fqdn;
    assert domains[k] in domains && domains[m] in domains;
  }

  /** Every operation of a cycle is well formed, and no two concern the same file entry. */
  lemma CycleOpsSeparate(env: Env, domains: seq<MailDomain>, w: World, v: World)
    requires WellFormed(env, domains, w) && Later(w, v)
    ensures AllGood(CycleOps(env, domains, v)) && AllSeparate(CycleOps(env, domains, v))
  {
    hide CycleOps, GoodOp, Separate, UniqueAddresses;
    CycleOpsFrom(env, domains, w, v, |domains|);
    assert domains[..|domains|] == domains;
    var ops := CycleOps(env, domains, v);
    forall i, j | 0 <= i < j < |ops|
      ensures Separate(ops[i], ops[j])
    {
      assert ops[i] in ops && ops[j] in ops;
      FromSeparate(domains, w.aliases, ops[i], ops[j]);
    }
    forall f | f in ops
      ensures GoodOp(f.op)
    {
      assert From(domains, |domains|, w.aliases, f);
    }
  }

  // ---------- The rows after a settled cycle ----------

  /** The active group aliases of the domains hold their desired destinations. */
  ghost predicate Fresh(env: Env, domains: seq<MailDomain>, w: World) {
    forall d, id :: d in domains && id in w.aliases && w.aliases[id].domainId == d.id && Bound(w.aliases[id])
      ==> w.aliases[id].destinations == Desired(env, w.identities, d, w.aliases[id])
  }

  lemma {:induction false} SettledCycleFreshens(env: Env, domains: seq<MailDomain>, w: World, n: nat)
    requires n <= |domains| && Settled(env, domains, w.identities)
    requires forall id :: id in w.aliases ==> id in env.aliasIds
    requires forall i, j :: 0 <= i < j < |domains| ==> domains[i].id != domains[j].id
    ensures Fresh(env, domains[..n], HealthyCycle(env, domains[..n], w))
  {
    hide DomainPass, RunFiles, PassOps, AliasesOf, ActiveAddresses;
    if n > 0 {
      var pre, d := domains[..n - 1], domains[n - 1];
      var mid := HealthyCycle(env, pre, w);
      assert domains[..n][..n - 1] == pre;
      SettledCycleFreshens(env, domains, w, n - 1);
      SettledStays(env, pre, w);
      SettledStays(env, domains[..n], w);
      CycleShape(env, pre, w);
      HealthyCycleSnoc(env, domains[..n], w);
      HealthyPass(env, d, mid);
      AliasesOfRows(mid.aliases, env.aliasIds, d.id);
    }
  }

  /** Fresh rows stay as they are. */
  lemma {:induction false} FreshStays(env: Env, domains: seq<MailDomain>, w: World)
    requires Settled(env, domains, w.identities) && Fresh(env, domains, w)
    ensures HealthyCycle(env, domains, w).aliases == w.aliases
  {
    hide DomainPass, RunFiles, PassOps, AliasesOf, ActiveAddresses;
    if domains != [] {
      var n := |domains| - 1;
      FreshStays(env, domains[..n], w);
      SettledStays(env, domains[..n], w);
      HealthyCycleSnoc(env, domains, w);
      HealthyPass(env, domains[n], HealthyCycle(env, domains[..n], w));
      AliasesOfRows(w.aliases, env.aliasIds, domains[n].id);
      assert Refresh(env, w.identities, domains[n], w.aliases,
        AliasesOf(w.aliases, env.aliasIds, domains[n].id)) == w.aliases;
    }
  }

  // ---------- Convergence ----------

  /** Two cycles suffice: with no call failing, a third changes no row and no byte of any
      file, and the files are those a single run of the final operations would have made
      of the original ones. */
  lemma TwoCyclesConverge(env: Env, domains: seq<MailDomain>, w: World)
    requires WellFormed(env, domains, w)
    ensures var w2 := HealthyCycle(env, domains, HealthyCycle(env, domains, w));
      && HealthyCycle(env, domains, w2) == w2
      && Settled(env, domains, w2.identities)
      && Fresh(env, domains, w2)
      && w2.files == RunFiles(w.files, CycleOps(env, domains, w2))
  {
    hide HealthyCycle, CycleOps, RunFiles;
    var w1 := HealthyCycle(env, domains, w);
    var w2 := HealthyCycle(env, domains, w1);
    CycleSettles(env, domains, w);
    CycleShape(env, domains, w);
    CycleShape(env, domains, w1);
    CycleShape(env, domains, w2);
    SettledStays(env, domains, w1);
    SettledStays(env, domains, w2);
    LaterCycle(env, domains, w, w);
    LaterCycle(env, domains, w, w1);
    assert domains[..|domains|] == domains;
    SettledCycleFreshens(env, domains, w1, |domains|);
    FreshStays(env, domains, w2);
    CycleOpsLike(env, domains, w1, w2);
    CycleOpsLike(env, domains, w, w1);
    CycleOpsSeparate(env, domains, w, w);
    CycleOpsSeparate(env, domains, w, w1);
    var ops, final := CycleOps(env, domains, w), CycleOps(env, domains, w1);
    LastCycleWins(w.files, ops, final);
    LastCycleWins(w1.files, final, final);
  }

  function OpFor(env: Env, idents: map<string, Identity>, d: MailDomain, id: string, a: Alias): FileOp {
    FileOp(id, d.fqdn, Op(a.local, Desired(env, idents, d, a)))
  }

  lemma PassOpIssued(env: Env, d: MailDomain, w: World, id: string)
    requires id in w.aliases && id in env.aliasIds && w.aliases[id].domainId == d.id && w.aliases[id].active
    ensures OpFor(env, w.identities, d, id, w.aliases[id]) in PassOps(env, d, w)
  {
    AliasesOfRows(w.aliases, env.aliasIds, d.id);
    DomainOpsFrom(env, w.identities, d, w.aliases, AliasesOf(w.aliases, env.aliasIds, d.id));
  }

  lemma CycleOpsSnoc(env: Env, domains: seq<MailDomain>, w: World, f: FileOp)
    requires domains != []
    ensures var n := |domains| - 1;
      f in CycleOps(env, domains, w) <==>
        f in CycleOps(env, domains[..n], w) || f in PassOps(env, domains[n], HealthyCycle(env, domains[..n], w))
  {
  }

  lemma SettledPassOps(env: Env, domains: seq<MailDomain>, w: World, d: MailDomain)
    requires Settled(env, domains, w.identities)
    ensures PassOps(env, d, HealthyCycle(env, domains, w)) == PassOps(env, d, w)
  {
    CycleShape(env, domains, w);
    SettledStays(env, domains, w);
    PassOpsLike(env, d, w, HealthyCycle(env, domains, w));
  }

  /** The operation for an active alias of a listed domain is among those of a settled cycle. */
  lemma {:induction false} OpIssued(env: Env, domains: seq<MailDomain>, w: World, k: nat, id: string)
    requires Settled(env, domains, w.identities) && k < |domains|
    requires id in w.aliases && id in env.aliasIds
    requires w.aliases[id].domainId == domains[k].id && w.aliases[id].active
    ensures OpFor(env, w.identities, domains[k], id, w.aliases[id]) in CycleOps(env, domains, w)
  {
    hide DomainPass, HealthyCycle, PassOps, CycleOps, Desired;
    var n := |domains| - 1;
    CycleOpsSnoc(env, domains, w, OpFor(env, w.identities, domains[k], id, w.aliases[id]));
    if k < n {
      OpIssued(env, domains[..n], w, k, id);
    } else {
      SettledPassOps(env, domains[..n], w, domains[n]);
      PassOpIssued(env, domains[n], w, id);
    }
  }

  /** After two cycles the file of every listed domain records each of its active aliases
      once, with exactly its desired destinations, and not at all when it has none. */
  lemma FileMatchesRows(env: Env, domains: seq<MailDomain>, w: World, k: nat, id: string)
    requires WellFormed(env, domains, w) && k < |domains|
    requires id in w.aliases && w.aliases[id].domainId == domains[k].id && w.aliases[id].active
    ensures var w2 := HealthyCycle(env, domains, HealthyCycle(env, domains, w));
      && id in w2.aliases
      && var dests := Desired(env, w2.identities, domains[k], w2.aliases[id]);
         Entries(Lines(TextOf(w2.files, domains[k].fqdn)), Lower(w.aliases[id].local))
         == if dests == [] then [] else [dests]
  {
    hide HealthyCycle, CycleOps, RunFiles, Desired, SetAll, Entries, Lines;
    var w1 := HealthyCycle(env, domains, w);
    var w2 := HealthyCycle(env, domains, w1);
    LaterCycle(env, domains, w, w);
    LaterCycle(env, domains, w, w1);
    TwoCyclesConverge(env, domains, w);
    var ops, fqdn := CycleOps(env, domains, w2), domains[k].fqdn;
    var op := Op(w2.aliases[id].local, Desired(env, w2.identities, domains[k], w2.aliases[id]));
    OpIssued(env, domains, w2, k, id);
    CycleOpsSeparate(env, domains, w, w2);
    RunFilesAt(w.files, ops, fqdn);
    OpsOnMembers(ops, fqdn);
    OpsOnDistinct(ops, fqdn);
    assert OpFor(env, w2.identities, domains[k], id, w2.aliases[id]).op in OpsOn(ops, fqdn);
    var i :| 0 <= i < |OpsOn(ops, fqdn)| && OpsOn(ops, fqdn)[i] == op;
    EntriesAfterPass(TextOf(w.files, fqdn), OpsOn(ops, fqdn), i);
  }

  /** After two cycles an active group alias routes to its group's members: row and file list,
      in query order, the addresses of their active identities of the domain's organization. */
  lemma GroupAliasFollowsMembers(env: Env, domains: seq<MailDomain>, w: World, k: nat, id: string, g: string)
    requires WellFormed(env, domains, w) && k < |domains|
    requires id in w.aliases && w.aliases[id].domainId == domains[k].id && w.aliases[id].active
    requires w.aliases[id].group == Some(g)
    ensures var w2 := HealthyCycle(env, domains, HealthyCycle(env, domains, w));
      && id in w2.aliases
      && var dests := w2.aliases[id].destinations;
      && MemberAddresses(dests, w2.identities, env.identityIds, domains[k].org, Members(env, g))
      && Entries(Lines(TextOf(w2.files, domains[k].fqdn)), Lower(w.aliases[id].local))
         == if dests == [] then [] else [dests]
  {
    hide HealthyCycle, CycleOps, RunFiles, SetAll, Entries, Lines, WellFormed, MemberAddresses;
    var w2 := HealthyCycle(env, domains, HealthyCycle(env, domains, w));
    FileMatchesRows(env, domains, w, k, id);
    TwoCyclesConverge(env, domains, w);
    TwoCyclesLike(env, domains, w);
    ActiveAddressesAre(w2.identities, env.identityIds, domains[k].org, Members(env, g));
  }

  lemma TwoCyclesLike(env: Env, domains: seq<MailDomain>, w: World)
    requires WellFormed(env, domains, w)
    ensures Like(w.aliases, HealthyCycle(env, domains, HealthyCycle(env, domains, w)).aliases)
  {
    hide HealthyCycle;
    CycleShape(env, domains, w);
    CycleShape(env, domains, HealthyCycle(env, domains, w));
  }

  /** After two cycles every touched file is, byte for byte, the foreign lines of the
      original file followed by the managed lines of the final state. */
  lemma FinalText(env: Env, domains: seq<MailDomain>, w: World, fqdn: string)
    requires WellFormed(env, domains, w)
    ensures var w2 := HealthyCycle(env, domains, HealthyCycle(env, domains, w));
      var ops := OpsOn(CycleOps(env, domains, w2), fqdn);
      TextOf(w2.files, fqdn)
      == if ops == [] then TextOf(w.files, fqdn)
         else Render(Drop(Lines(TextOf(w.files, fqdn)), Keys(ops)) + Managed(ops))
  {
    hide HealthyCycle, CycleOps, RunFiles, Render, Drop, Managed, Lines;
    var w1 := HealthyCycle(env, domains, w);
    var w2 := HealthyCycle(env, domains, w1);
    LaterCycle(env, domains, w, w);
    LaterCycle(env, domains, w, w1);
    TwoCyclesConverge(env, domains, w);
    CycleOpsSeparate(env, domains, w, w2);
    RunFilesAt(w.files, CycleOps(env, domains, w2), fqdn);
    OpsOnDistinct(CycleOps(env, domains, w2), fqdn);
    if OpsOn(CycleOps(env, domains, w2), fqdn) != [] {
      NormalForm(TextOf(w.files, fqdn), OpsOn(CycleOps(env, domains, w2), fqdn));
    }
  }

  /** A single domain with one active group alias, in one healthy cycle. */
  lemma SmallCycle(env: Env, d: MailDomain, id: string, w: World)
    requires id in w.aliases && id in env.aliasIds && w.aliases[id].domainId == d.id && Bound(w.aliases[id])
    ensures var w' := HealthyCycle(env, [d], w);
      && w'.aliases.Keys == w.aliases.Keys
      && w'.aliases[id] == w.aliases[id].(destinations := Desired(env, w.identities, d, w.aliases[id]))
      && w'.identities.Keys == w.identities.Keys
      && forall i :: i in w.identities && i in env.identityIds && w.identities[i].domainId == d.id
           && w.identities[i].status == Active && w.identities[i].address !in env.mailUsers
           ==> w'.identities[i] == w.identities[i].(status := Suspended)
  {
    HealthyCycleSnoc(env, [d], w);
    assert [d][..0] == [];
    assert HealthyCycle(env, [], w) == w;
    HealthyPass(env, d, w);
    AliasesOfRows(w.aliases, env.aliasIds, d.id);
  }

  lemma OneMember(rows: map<string, Identity>, i: string, org: string, user: string)
    requires i in rows && rows[i].org == org && rows[i].user == Some(user)
    ensures ActiveAddresses(rows, [i], org, [user]) == if rows[i].status == Active then [rows[i].address] else []
  {
    assert [i][..0] == [];
    assert ActiveAddresses(rows, [], org, [user]) == [];
    assert user in [user];
  }

  /** One domain whose only alias is bound to a group with one member, an active identity
      that has no mail user. */
  ghost predicate Orphaned(env: Env, d: MailDomain, w: World, a: string, i: string) {
    exists g, u, x, local ::
      && GoodLocal(local) && GoodDest(x)
      && env == Env([a], [i], map[g := [u]], {})
      && w.aliases == map[a := Alias(d.id, Some(g), local, [], true)]
      && w.identities == map[i := Identity(d.org, Some(u), d.id, x, Active)]
  }

  lemma OrphanedWellFormed(env: Env, d: MailDomain, w: World, a: string, i: string)
    requires Orphaned(env, d, w, a, i)
    ensures WellFormed(env, [d], w)
  {
    hide Lower;
  }

  lemma OrphanedDests(env: Env, d: MailDomain, w: World, v: World, a: string, i: string)
    requires Orphaned(env, d, w, a, i) && a in v.aliases && v.aliases[a].group == w.aliases[a].group
    requires i in v.identities && v.identities[i].(status := Active) == w.identities[i]
    ensures Desired(env, v.identities, d, v.aliases[a])
         == if v.identities[i].status == Active then [w.identities[i].address] else []
  {
    var g, u, x, local :|
      && GoodLocal(local) && GoodDest(x)
      && env == Env([a], [i], map[g := [u]], {})
      && w.aliases == map[a := Alias(d.id, Some(g), local, [], true)]
      && w.identities == map[i := Identity(d.org, Some(u), d.id, x, Active)];
    assert Members(env, g) == [u];
    OneMember(v.identities, i, d.org, u);
  }

  /** One cycle is not enough: whenever a group's only member is an active identity without
      mail user, the first cycle still routes the group's alias to it, and only the second
      cycle removes the route. */
  lemma OneCycleIsNotEnough(env: Env, d: MailDomain, w: World, a: string, i: string)
    requires Orphaned(env, d, w, a, i)
    ensures WellFormed(env, [d], w)
    ensures var w1 := HealthyCycle(env, [d], w);
      && a in w1.aliases && w1.aliases[a].destinations == [w.identities[i].address]
      && var w2 := HealthyCycle(env, [d], w1);
         a in w2.aliases && w2.aliases[a].destinations == []
  {
    OrphanedWellFormed(env, d, w, a, i);
    var w1 := HealthyCycle(env, [d], w);
    SmallCycle(env, d, a, w);
    OrphanedDests(env, d, w, w, a, i);
    assert w1.identities[i] == w.identities[i].(status := Suspended);
    SmallCycle(env, d, a, w1);
    OrphanedDests(env, d, w, w1, a, i);
  }

  // ---------- What no pass ever does ----------

  /** The keys of the active aliases of a domain. */
  function ActiveKeys(rows: map<string, Alias>, domainId: string): set<string> {
    set id | id in rows && rows[id].domainId == domainId && rows[id].active :: Lower(rows[id].local)
  }

  lemma DropMore(a: seq<string>, b: seq<string>, key: string, keys: set<string>)
    requires Drop(a, {key}) == Drop(b, {key}) && key in keys
    ensures Drop(a, keys) == Drop(b, keys)
  {
    DropTwice(a, {key}, keys);
    DropTwice(b, {key}, keys);
    assert {key} + keys == keys;
  }

  /** The lines of the domain's file outside `keys`. */
  function Foreign(d: MailDomain, keys: set<string>, w: World): seq<string> {
    Drop(Lines(TextOf(w.files, d.fqdn)), keys)
  }

  /** Between `w` and `v`: identities and other files untouched, rows alike, and in this
      domain's file every line outside `keys` kept, in order, or all of them lost. */
  ghost predicate Keeps(d: MailDomain, keys: set<string>, w: World, v: World, lost: bool) {
    && v.identities == w.identities
    && Like(w.aliases, v.aliases)
    && v.files - {d.fqdn} == w.files - {d.fqdn}
    && Foreign(d, keys, v) == if lost then [] else Foreign(d, keys, w)
  }

  lemma EnsureAliasKeeps(files: map<string, string>, fqdn: string, op: Op, o: WriteOutcome, keys: set<string>)
    requires GoodOp(op) && Lower(op.local) in keys
    ensures EnsureAlias(files, fqdn, op, o) - {fqdn} == files - {fqdn}
    ensures Drop(Lines(TextOf(EnsureAlias(files, fqdn, op, o), fqdn)), keys)
         == if o == WrittenUnread then [] else Drop(Lines(TextOf(files, fqdn)), keys)
  {
    hide Lines, SetAlias, Drop, GoodOp;
    if o != NotWritten {
      var text := if o == WrittenUnread then "" else TextOf(files, fqdn);
      KeepsForeign(text, op, keys);
      NoForeign(keys);
    }
  }

  lemma KeepsForeign(text: string, op: Op, keys: set<string>)
    requires GoodOp(op) && Lower(op.local) in keys
    ensures Drop(Lines(SetAlias(text, op)), keys) == Drop(Lines(text), keys)
  {
    SetAliasIsMapUpdate(text, op, "");
    DropMore(Lines(SetAlias(text, op)), Lines(text), Lower(op.local), keys);
  }

  lemma NoForeign(keys: set<string>)
    ensures Drop(Lines(""), keys) == []
  {
    NoLines();
  }

  lemma SetDestinationsLike(rows: map<string, Alias>, id: string, dests: seq<string>)
    requires id in rows ==> Bound(rows[id])
    ensures Like(rows, SetDestinations(rows, id, dests))
  {
  }

  /** The turn of this alias gets as far as writing. */
  predicate Attempts(env: Env, calls: Calls, id: string, a: Alias) {
    a.active && (a.group.Some? ==>
      calls.members(id) && (Members(env, a.group.value) == [] || calls.identitiesByUsers(id)))
  }

  /** It writes over a file the agent failed to read. */
  predicate Clobbers(env: Env, calls: Calls, id: string, a: Alias) {
    Attempts(env, calls, id, a) && calls.ensureAlias(id) == WrittenUnread
  }

  predicate AnyClobbers(env: Env, calls: Calls, rows: map<string, Alias>, ids: seq<string>) {
    exists id :: id in ids && id in rows && Clobbers(env, calls, id, rows[id])
  }

  /** The shapes one turn of the alias loop can take. */
  lemma AliasStepShape(env: Env, calls: Calls, d: MailDomain, id: string, a: Alias, p: Progress)
    ensures var q, dests := AliasStep(env, calls, d, id, a, p).world, Desired(env, p.world.identities, d, a);
      && q.identities == p.world.identities
      && (q.aliases == p.world.aliases || (Bound(a) && q.aliases == SetDestinations(p.world.aliases, id, dests)))
      && q.files == if Attempts(env, calls, id, a)
                    then EnsureAlias(p.world.files, d.fqdn, Op(a.local, dests), calls.ensureAlias(id))
                    else p.world.files
  {
    hide EnsureAlias, Desired;
  }

  lemma AliasStepKeeps(env: Env, calls: Calls, d: MailDomain, id: string, a: Alias, p: Progress, keys: set<string>)
    requires GoodLocal(a.local) && GoodDests(Desired(env, p.world.identities, d, a)) && Lower(a.local) in keys
    requires id in p.world.aliases ==> p.world.aliases[id].(destinations := a.destinations) == a
    ensures Keeps(d, keys, p.world, AliasStep(env, calls, d, id, a, p).world, Clobbers(env, calls, id, a))
  {
    hide AliasStep, EnsureAlias, Lines, Drop, Lower, GoodLocal, GoodDests;
    var dests := Desired(env, p.world.identities, d, a);
    AliasStepShape(env, calls, d, id, a, p);
    if Bound(a) {
      SetDestinationsLike(p.world.aliases, id, dests);
    }
    EnsureAliasKeeps(p.world.files, d.fqdn, Op(a.local, dests), calls.ensureAlias(id), keys);
  }

  lemma AnyClobbersSnoc(env: Env, calls: Calls, rows: map<string, Alias>, ids: seq<string>)
    requires ids != [] && ids[|ids| - 1] in rows
    ensures AnyClobbers(env, calls, rows, ids) <==>
      AnyClobbers(env, calls, rows, ids[..|ids| - 1]) || Clobbers(env, calls, ids[|ids| - 1], rows[ids[|ids| - 1]])
  {
    hide Clobbers;
    assert ids == ids[..|ids| - 1] + [ids[|ids| - 1]];
    assert ids[|ids| - 1] in ids;
  }

  lemma KeepsThen(d: MailDomain, keys: set<string>, w: World, v: World, u: World, first: bool, second: bool)
    requires Keeps(d, keys, w, v, first) && Keeps(d, keys, v, u, second)
    ensures Keeps(d, keys, w, u, first || second)
  {
    hide Foreign, Like;
    LikeTransitive(w.aliases, v.aliases, u.aliases);
  }

  lemma {:induction false} AliasLoopKeeps(env: Env, calls: Calls, d: MailDomain, w: World, ids: seq<string>,
      keys: set<string>)
    requires forall id :: id in ids ==> id in w.aliases
    requires forall id :: id in ids && w.aliases[id].active ==>
      && Lower(w.aliases[id].local) in keys && GoodLocal(w.aliases[id].local)
      && GoodDests(Desired(env, w.identities, d, w.aliases[id]))
    ensures Keeps(d, keys, w, AliasLoop(env, calls, d, w.aliases, ids, Progress(w, 0, 0)).world,
                  AnyClobbers(env, calls, w.aliases, ids))
  {
    hide AliasStep, Lines, Drop, Lower, GoodLocal, GoodDests, Desired, AnyClobbers, Foreign;
    if ids == [] {
      NoneClobbers(env, calls, w.aliases);
    } else {
      var init, last := ids[..|ids| - 1], ids[|ids| - 1];
      assert last in ids;
      AliasLoopKeeps(env, calls, d, w, init, keys);
      AnyClobbersSnoc(env, calls, w.aliases, ids);
      var p := AliasLoop(env, calls, d, w.aliases, init, Progress(w, 0, 0));
      if w.aliases[last].active {
        AliasStepKeeps(env, calls, d, last, w.aliases[last], p, keys);
        KeepsThen(d, keys, w, p.world, AliasStep(env, calls, d, last, w.aliases[last], p).world,
          AnyClobbers(env, calls, w.aliases, init), Clobbers(env, calls, last, w.aliases[last]));
      } else {
        InactiveTurn(env, calls, d, last, w.aliases[last], p);
      }
    }
  }

  lemma NoneClobbers(env: Env, calls: Calls, rows: map<string, Alias>)
    ensures !AnyClobbers(env, calls, rows, [])
  {
  }

  lemma InactiveTurn(env: Env, calls: Calls, d: MailDomain, id: string, a: Alias, p: Progress)
    requires !a.active
    ensures AliasStep(env, calls, d, id, a, p) == p && !Clobbers(env, calls, id, a)
  {
  }

  /** Under every pattern of failing calls a pass keeps all other files and, in its own,
      every line not under the key of an active alias of the domain, unless the agent wrote
      over a file it failed to read, when all of those lines are lost; it changes no row but
      the destinations of group aliases; and it moves an identity only from active to
      suspended, only in this domain, and only after the user check said the mail user is
      absent. */
  lemma PassIsConservative(env: Env, calls: Calls, d: MailDomain, w: World)
    requires forall id :: id in w.aliases ==> GoodLocal(w.aliases[id].local) && GoodDests(w.aliases[id].destinations)
    requires forall id :: id in w.identities ==> GoodDest(w.identities[id].address)
    ensures var v, keys := DomainPass(env, calls, d, w), ActiveKeys(w.aliases, d.id);
      && Like(w.aliases, v.aliases)
      && v.files - {d.fqdn} == w.files - {d.fqdn}
      && Foreign(d, keys, v) == (
           if calls.listAliases && AnyClobbers(env, calls, w.aliases, AliasesOf(w.aliases, env.aliasIds, d.id))
           then [] else Foreign(d, keys, w))
      && v.identities.Keys == w.identities.Keys
      && forall id :: id in w.identities ==>
           v.identities[id] == w.identities[id]
           || (w.identities[id].domainId == d.id && FoundMissing(calls, w.identities[id])
               && v.identities[id] == w.identities[id].(status := Suspended))
  {
    hide Foreign, AnyClobbers, Desired, GoodLocal, GoodDest;
    var keys := ActiveKeys(w.aliases, d.id);
    var ids := AliasesOf(w.aliases, env.aliasIds, d.id);
    AliasesOfRows(w.aliases, env.aliasIds, d.id);
    forall id | id in ids
      ensures GoodDests(Desired(env, w.identities, d, w.aliases[id]))
    {
      DesiredIsGood(env, w.identities, d, w.aliases[id]);
    }
    if calls.listAliases {
      AliasLoopKeeps(env, calls, d, w, ids, keys);
    }
    IdentitiesOfRows(w.identities, env.identityIds, d.id);
    IdentityLoopRows(calls, w.identities, IdentitiesOf(w.identities, env.identityIds, d.id));
    SameFiles(d, keys, DomainPass(env, calls, d, w), AliasPass(env, calls, d, w).world);
  }

  lemma SameFiles(d: MailDomain, keys: set<string>, v: World, u: World)
    requires v.files == u.files
    ensures Foreign(d, keys, v) == Foreign(d, keys, u)
  {
  }

  lemma DesiredIsGood(env: Env, rows: map<string, Identity>, d: MailDomain, a: Alias)
    requires GoodDests(a.destinations)
    requires forall id :: id in rows ==> GoodDest(rows[id].address)
    ensures GoodDests(Desired(env, rows, d, a))
  {
    if a.group.Some? {
      ActiveAddressesKnown(rows, env.identityIds, d.org, Members(env, a.group.value));
    }
  }

  // ---------- What a pass reports ----------

  /** The listed active aliases that are bound to a group, or that are not. */
  function CountActive(rows: map<string, Alias>, ids: seq<string>, bound: bool): nat {
    if ids == [] then 0
    else
      var last := ids[|ids| - 1];
      CountActive(rows, ids[..|ids| - 1], bound)
      + if last in rows && rows[last].active && Bound(rows[last]) == bound then 1 else 0
  }

  lemma {:induction false} HealthyCounts(env: Env, d: MailDomain, w: World, ids: seq<string>)
    requires forall id :: id in ids ==> id in w.aliases
    ensures var p := AliasLoop(env, Healthy(env), d, w.aliases, ids, Progress(w, 0, 0));
      p.restored == CountActive(w.aliases, ids, false) && p.groupAliases == CountActive(w.aliases, ids, true)
  {
    hide EnsureAlias, Desired, SetDestinations;
    if ids != [] {
      HealthyCounts(env, d, w, ids[..|ids| - 1]);
    }
  }

  /** With no call failing the counters are the numbers of active aliases of the domain, with
      a group and without. */
  lemma HealthyReport(env: Env, d: MailDomain, w: World)
    ensures var r, ids := PassResult(env, Healthy(env), d, w), AliasesOf(w.aliases, env.aliasIds, d.id);
      r.aliasesRestored == CountActive(w.aliases, ids, false) && r.groupAliases == CountActive(w.aliases, ids, true)
  {
    var ids := AliasesOf(w.aliases, env.aliasIds, d.id);
    AliasesOfRows(w.aliases, env.aliasIds, d.id);
    HealthyCounts(env, d, w, ids);
  }

  lemma {:induction false} MissingIn(calls: Calls, rows: map<string, Identity>, ids: seq<string>, address: string)
    requires forall id :: id in ids ==> id in rows
    ensures address in MissingUsers(calls, rows, ids)
      <==> exists id :: id in ids && rows[id].address == address && FoundMissing(calls, rows[id])
  {
    if ids != [] {
      var init, last := ids[..|ids| - 1], ids[|ids| - 1];
      assert ids == init + [last];
      MissingIn(calls, rows, init, address);
    }
  }

  /** The addresses reported missing are exactly those of the domain's listed identities that
      were active and for which the user check answered absent. */
  lemma MissingReport(env: Env, calls: Calls, d: MailDomain, w: World, address: string)
    requires calls.listAliases && calls.listIdentities
    ensures address in PassResult(env, calls, d, w).missingUsers <==>
      exists id :: id in env.identityIds && id in w.identities && w.identities[id].domainId == d.id
        && w.identities[id].address == address && FoundMissing(calls, w.identities[id])
  {
    var ids := AliasesOf(w.aliases, env.aliasIds, d.id);
    AliasesOfRows(w.aliases, env.aliasIds, d.id);
    AliasLoopIdentities(env, calls, d, w, ids);
    IdentitiesOfRows(w.identities, env.identityIds, d.id);
    MissingIn(calls, w.identities, IdentitiesOf(w.identities, env.identityIds, d.id), address);
  }

  lemma {:induction false} AliasLoopIdentities(env: Env, calls: Calls, d: MailDomain, w: World, ids: seq<string>)
    requires forall id :: id in ids ==> id in w.aliases
    ensures AliasLoop(env, calls, d, w.aliases, ids, Progress(w, 0, 0)).world.identities == w.identities
  {
    hide EnsureAlias, Desired, SetDestinations;
    if ids != [] {
      AliasLoopIdentities(env, calls, d, w, ids[..|ids| - 1]);
    }
  }
}
