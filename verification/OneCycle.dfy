/** Exactly when one worker cycle is enough (cmd/worker/main.go:99-121,
    internal/recon/mail.go:45-110): the alias loop of a domain runs before identities of that
    and the later domains are suspended. */
module OneCycle {
  import opened Text
  import opened AliasFile
  import opened Reconcile
  import opened Convergence

  /** The identity is active without a mail user. */
  predicate Orphan(env: Env, i: Identity) {
    i.status == Active && i.address !in env.mailUsers
  }

  /** It belongs to one of the first `n` domains. */
  ghost predicate Within(domains: seq<MailDomain>, n: nat, i: Identity)
    requires n <= |domains|
  {
    exists j :: 0 <= j < n && domains[j].id == i.domainId
  }

  function Suspend(i: Identity): Identity {
    i.(status := Suspended)
  }

  ghost predicate Distinct(domains: seq<MailDomain>) {
    forall i, j :: 0 <= i < j < |domains| ==> domains[i].id != domains[j].id
  }

  // ---------- Identities while a cycle runs ----------

  /** After the first `n` domains exactly their orphans are suspended. */
  lemma {:induction false} IdentitiesAt(env: Env, domains: seq<MailDomain>, w: World, n: nat)
    requires n <= |domains| && forall id :: id in w.identities ==> id in env.identityIds
    ensures var v := HealthyCycle(env, domains[..n], w);
      && v.identities.Keys == w.identities.Keys
      && forall id :: id in w.identities ==>
           v.identities[id] == if Orphan(env, w.identities[id]) && Within(domains, n, w.identities[id])
                               then Suspend(w.identities[id]) else w.identities[id]
  {
    hide DomainPass, PassOps, RunFiles, Refresh;
    if n == 0 {
      assert domains[..0] == [];
    } else {
      var pre := domains[..n - 1];
      assert domains[..n][..n - 1] == pre;
      IdentitiesAt(env, domains, w, n - 1);
      HealthyCycleSnoc(env, domains[..n], w);
      HealthyPass(env, domains[n - 1], HealthyCycle(env, pre, w));
      forall id | id in w.identities
        ensures Within(domains, n, w.identities[id]) <==>
          Within(domains, n - 1, w.identities[id]) || w.identities[id].domainId == domains[n - 1].id
      {
        WithinStep(domains, n, w.identities[id]);
      }
    }
  }

  lemma WithinStep(domains: seq<MailDomain>, n: nat, i: Identity)
    requires 0 < n <= |domains|
    ensures Within(domains, n, i) <==> Within(domains, n - 1, i) || i.domainId == domains[n - 1].id
  {
    if Within(domains, n - 1, i) {
      var j :| 0 <= j < n - 1 && domains[j].id == i.domainId;
      assert j < n;
    }
  }

  // ---------- Rows after a cycle ----------

  /** A group alias of domain `k` holds what its group had when that domain's turn came. */
  lemma {:induction false} RowsAt(env: Env, domains: seq<MailDomain>, w: World, n: nat, k: nat, a: string)
    requires k < n <= |domains| && Distinct(domains)
    requires a in w.aliases && a in env.aliasIds && w.aliases[a].domainId == domains[k].id && Bound(w.aliases[a])
    ensures var v := HealthyCycle(env, domains[..n], w);
      && a in v.aliases
      && v.aliases[a].destinations
         == Desired(env, HealthyCycle(env, domains[..k], w).identities, domains[k], w.aliases[a])
  {
    hide DomainPass, PassOps, RunFiles, ActiveAddresses;
    var pre, d := domains[..n - 1], domains[n - 1];
    var mid := HealthyCycle(env, pre, w);
    assert domains[..n][..n - 1] == pre;
    HealthyCycleSnoc(env, domains[..n], w);
    HealthyPass(env, d, mid);
    AliasesOfRows(mid.aliases, env.aliasIds, d.id);
    CycleShape(env, pre, w);
    if k < n - 1 {
      RowsAt(env, domains, w, n - 1, k, a);
    }
  }

  // ---------- Group addresses when members are suspended ----------

  /** `rows'` has the identities of `rows`, some of them suspended. */
  predicate Suspends(rows: map<string, Identity>, rows': map<string, Identity>) {
    rows.Keys == rows'.Keys && forall id :: id in rows ==> rows'[id] == rows[id] || rows'[id] == Suspend(rows[id])
  }

  predicate Counts(i: Identity, org: string, users: seq<string>) {
    i.org == org && i.status == Active && i.user.Some? && i.user.value in users
  }

  lemma {:induction false} AddressesShrink(rows: map<string, Identity>, rows': map<string, Identity>, ids: seq<string>,
      org: string, users: seq<string>)
    requires Suspends(rows, rows')
    ensures |ActiveAddresses(rows', ids, org, users)| <= |ActiveAddresses(rows, ids, org, users)|
    ensures (exists id :: id in ids && id in rows && Counts(rows[id], org, users) && !Counts(rows'[id], org, users)) ==>
      |ActiveAddresses(rows', ids, org, users)| < |ActiveAddresses(rows, ids, org, users)|
  {
    if ids != [] {
      var init, last := ids[..|ids| - 1], ids[|ids| - 1];
      AddressesShrink(rows, rows', init, org, users);
      assert ids == init + [last];
    }
  }

  lemma {:induction false} AddressesSame(rows: map<string, Identity>, rows': map<string, Identity>, ids: seq<string>,
      org: string, users: seq<string>)
    requires Suspends(rows, rows')
    requires forall id :: id in rows && Counts(rows[id], org, users) ==> rows'[id] == rows[id]
    ensures ActiveAddresses(rows', ids, org, users) == ActiveAddresses(rows, ids, org, users)
  {
    if ids != [] {
      AddressesSame(rows, rows', ids[..|ids| - 1], org, users);
    }
  }

  // ---------- The condition ----------

  /** The group of alias `a` of domain `k` has a member whose identity `i`, of that domain's
      organization and of domain `j`, is active without a mail user. */
  predicate Stranded(env: Env, domains: seq<MailDomain>, w: World, k: nat, j: nat, a: string, i: string) {
    && k <= j < |domains| && a in w.aliases && i in w.identities
    && w.aliases[a].domainId == domains[k].id && Bound(w.aliases[a])
    && Orphan(env, w.identities[i]) && w.identities[i].domainId == domains[j].id
    && Counts(w.identities[i], domains[k].org, Members(env, w.aliases[a].group.value))
  }

  ghost predicate Affected(env: Env, domains: seq<MailDomain>, w: World) {
    exists k: nat, j: nat, a, i :: Stranded(env, domains, w, k, j, a, i)
  }

  lemma NotYetWithin(domains: seq<MailDomain>, k: nat, j: nat, i: Identity)
    requires Distinct(domains) && k <= j < |domains| && i.domainId == domains[j].id
    ensures !Within(domains, k, i) && Within(domains, |domains|, i)
  {
  }

  /** Between the turn of domain `k` and the end of the cycle, only orphans of later domains,
      or of `k` itself, are suspended. */
  lemma LaterSuspensions(env: Env, domains: seq<MailDomain>, w: World, k: nat)
    requires k <= |domains| && Distinct(domains)
    requires forall id :: id in w.identities ==> id in env.identityIds
    ensures Suspends(HealthyCycle(env, domains[..k], w).identities, HealthyCycle(env, domains, w).identities)
  {
    hide HealthyCycle, Within;
    assert domains[..|domains|] == domains;
    IdentitiesAt(env, domains, w, k);
    IdentitiesAt(env, domains, w, |domains|);
    forall id | id in w.identities
      ensures Within(domains, k, w.identities[id]) ==> Within(domains, |domains|, w.identities[id])
    {
      if Within(domains, k, w.identities[id]) {
        WithinMore(domains, k, w.identities[id]);
      }
    }
  }

  lemma WithinMore(domains: seq<MailDomain>, k: nat, i: Identity)
    requires k <= |domains| && Within(domains, k, i)
    ensures Within(domains, |domains|, i)
  {
    var j :| 0 <= j < k && domains[j].id == i.domainId;
    assert j < |domains|;
  }

  // ---------- Affected: the second cycle changes a row ----------

  /** The second cycle takes at least one address off the alias. */
  lemma AffectedChanges(env: Env, domains: seq<MailDomain>, w: World, k: nat, j: nat, a: string, i: string)
    requires WellFormed(env, domains, w) && Stranded(env, domains, w, k, j, a, i)
    ensures var w1 := HealthyCycle(env, domains, w); var w2 := HealthyCycle(env, domains, w1);
      a in w1.aliases && a in w2.aliases && |w2.aliases[a].destinations| < |w1.aliases[a].destinations|
  {
    hide HealthyCycle, UniqueAddresses, Within, AliasFile.GoodLocal, AliasFile.GoodDests;
    var w1 := HealthyCycle(env, domains, w);
    var d, ids := domains[k], HealthyCycle(env, domains[..k], w).identities;
    assert domains[..|domains|] == domains;
    RowsAt(env, domains, w, |domains|, k, a);
    CycleShape(env, domains, w);
    RowsAt(env, domains, w1, |domains|, k, a);
    CycleSettles(env, domains, w);
    SettledBefore(env, domains, w1, k);
    LaterSuspensions(env, domains, w, k);
    IdentitiesAt(env, domains, w, k);
    IdentitiesAt(env, domains, w, |domains|);
    NotYetWithin(domains, k, j, w.identities[i]);
    var users := Members(env, w.aliases[a].group.value);
    assert Counts(ids[i], d.org, users) && !Counts(w1.identities[i], d.org, users);
    AddressesShrink(ids, w1.identities, env.identityIds, d.org, users);
  }

  /** A settled world keeps its identities through any part of a cycle. */
  lemma SettledBefore(env: Env, domains: seq<MailDomain>, w: World, k: nat)
    requires k <= |domains| && Settled(env, domains, w.identities)
    ensures HealthyCycle(env, domains[..k], w).identities == w.identities
  {
    SettledStays(env, domains[..k], w);
  }

  // ---------- Not affected: the second cycle changes nothing ----------

  lemma UnaffectedDesired(env: Env, domains: seq<MailDomain>, w: World, k: nat, a: string)
    requires WellFormed(env, domains, w) && !Affected(env, domains, w) && k < |domains|
    requires a in w.aliases && w.aliases[a].domainId == domains[k].id && Bound(w.aliases[a])
    ensures Desired(env, HealthyCycle(env, domains[..k], w).identities, domains[k], w.aliases[a])
         == Desired(env, HealthyCycle(env, domains, w).identities, domains[k], w.aliases[a])
  {
    hide HealthyCycle, UniqueAddresses, AliasFile.GoodLocal, AliasFile.GoodDests;
    var ids, ids' := HealthyCycle(env, domains[..k], w).identities, HealthyCycle(env, domains, w).identities;
    var users := Members(env, w.aliases[a].group.value);
    assert domains[..|domains|] == domains;
    LaterSuspensions(env, domains, w, k);
    IdentitiesAt(env, domains, w, k);
    IdentitiesAt(env, domains, w, |domains|);
    forall i | i in ids && Counts(ids[i], domains[k].org, users)
      ensures ids'[i] == ids[i]
    {
      if Orphan(env, w.identities[i]) && Within(domains, |domains|, w.identities[i]) {
        var j :| 0 <= j < |domains| && domains[j].id == w.identities[i].domainId;
        assert !Stranded(env, domains, w, k, j, a, i);
      }
    }
    AddressesSame(ids, ids', env.identityIds, domains[k].org, users);
  }

  lemma UnaffectedIsFresh(env: Env, domains: seq<MailDomain>, w: World)
    requires WellFormed(env, domains, w) && !Affected(env, domains, w)
    ensures Fresh(env, domains, HealthyCycle(env, domains, w))
  {
    hide HealthyCycle, Affected, UniqueAddresses, ActiveAddresses, AliasFile.GoodLocal, AliasFile.GoodDests;
    var w1 := HealthyCycle(env, domains, w);
    assert domains[..|domains|] == domains;
    CycleShape(env, domains, w);
    forall k, a | 0 <= k < |domains| && a in w1.aliases && w1.aliases[a].domainId == domains[k].id
                  && Bound(w1.aliases[a])
      ensures w1.aliases[a].destinations == Desired(env, w1.identities, domains[k], w1.aliases[a])
    {
      RowsAt(env, domains, w, |domains|, k, a);
      UnaffectedDesired(env, domains, w, k, a);
    }
  }

  lemma {:induction false} DomainOpsSame(env: Env, i1: map<string, Identity>, i2: map<string, Identity>, d: MailDomain,
      a: map<string, Alias>, b: map<string, Alias>, ids: seq<string>)
    requires Like(a, b) && forall id :: id in ids ==> id in a && id in b
    requires forall id :: id in ids && Bound(a[id]) ==> Desired(env, i1, d, a[id]) == Desired(env, i2, d, b[id])
    ensures DomainOps(env, i1, d, a, ids) == DomainOps(env, i2, d, b, ids)
  {
    if ids != [] {
      DomainOpsSame(env, i1, i2, d, a, b, ids[..|ids| - 1]);
      assert ids[|ids| - 1] in a;
    }
  }

  lemma PassOpsSame(env: Env, d: MailDomain, v: World, u: World)
    requires Like(v.aliases, u.aliases)
    requires forall id :: id in v.aliases && v.aliases[id].domainId == d.id && Bound(v.aliases[id]) ==>
      Desired(env, v.identities, d, v.aliases[id]) == Desired(env, u.identities, d, u.aliases[id])
    ensures PassOps(env, d, v) == PassOps(env, d, u)
  {
    AliasesOfRows(v.aliases, env.aliasIds, d.id);
    AliasesOfRows(u.aliases, env.aliasIds, d.id);
    AliasesOfLike(v.aliases, u.aliases, env.aliasIds, d.id);
    DomainOpsSame(env, v.identities, u.identities, d, v.aliases, u.aliases, AliasesOf(v.aliases, env.aliasIds, d.id));
  }

  lemma {:induction false} UnaffectedOps(env: Env, domains: seq<MailDomain>, w: World, n: nat)
    requires WellFormed(env, domains, w) && !Affected(env, domains, w) && n <= |domains|
    ensures CycleOps(env, domains[..n], w) == CycleOps(env, domains[..n], HealthyCycle(env, domains, w))
  {
    hide HealthyCycle, Affected, PassOps, UniqueAddresses, ActiveAddresses, AliasFile.GoodLocal, AliasFile.GoodDests;
    if n > 0 {
      var w1, pre, d := HealthyCycle(env, domains, w), domains[..n - 1], domains[n - 1];
      assert domains[..n][..n - 1] == pre;
      UnaffectedOps(env, domains, w, n - 1);
      var v, u := HealthyCycle(env, pre, w), HealthyCycle(env, pre, w1);
      CycleShape(env, pre, w);
      CycleShape(env, domains, w);
      CycleShape(env, pre, w1);
      CycleSettles(env, domains, w);
      SettledBefore(env, domains, w1, n - 1);
      LaterRows(env, domains, w, n - 1);
      forall id | id in v.aliases && v.aliases[id].domainId == d.id && Bound(v.aliases[id])
        ensures Desired(env, v.identities, d, v.aliases[id]) == Desired(env, u.identities, d, u.aliases[id])
      {
        UnaffectedDesired(env, domains, w, n - 1, id);
      }
      PassOpsSame(env, d, v, u);
    }
  }

  /** The rows part of the way through two successive cycles are alike. */
  lemma LaterRows(env: Env, domains: seq<MailDomain>, w: World, k: nat)
    requires k <= |domains|
    ensures Like(HealthyCycle(env, domains[..k], w).aliases,
      HealthyCycle(env, domains[..k], HealthyCycle(env, domains, w)).aliases)
  {
    hide HealthyCycle;
    var w1 := HealthyCycle(env, domains, w);
    CycleShape(env, domains[..k], w);
    CycleShape(env, domains, w);
    CycleShape(env, domains[..k], w1);
    LikeTransitive(w.aliases, w1.aliases, HealthyCycle(env, domains[..k], w1).aliases);
    LikeBoth(w.aliases, HealthyCycle(env, domains[..k], w).aliases, HealthyCycle(env, domains[..k], w1).aliases);
  }

  lemma LikeBoth(a: map<string, Alias>, b: map<string, Alias>, c: map<string, Alias>)
    requires Like(a, b) && Like(a, c)
    ensures Like(b, c)
  {
    forall id | id in b
      ensures b[id].(destinations := c[id].destinations) == c[id] && (Bound(b[id]) || b[id] == c[id])
    {
      assert id in a;
    }
  }

  lemma UnaffectedConverges(env: Env, domains: seq<MailDomain>, w: World)
    requires WellFormed(env, domains, w) && !Affected(env, domains, w)
    ensures var w1 := HealthyCycle(env, domains, w); HealthyCycle(env, domains, w1) == w1
  {
    hide HealthyCycle, CycleOps, RunFiles, Affected, WellFormed;
    var w1 := HealthyCycle(env, domains, w);
    AllListed(env, domains, w);
    CycleShape(env, domains, w);
    CycleShape(env, domains, w1);
    CycleSettles(env, domains, w);
    SettledStays(env, domains, w1);
    UnaffectedIsFresh(env, domains, w);
    FreshStays(env, domains, w1);
    assert domains[..|domains|] == domains;
    UnaffectedOps(env, domains, w, |domains|);
    SelfLike(w);
    CycleOpsSeparate(env, domains, w, w);
    LastCycleWins(w.files, CycleOps(env, domains, w), CycleOps(env, domains, w));
  }

  lemma AllListed(env: Env, domains: seq<MailDomain>, w: World)
    requires WellFormed(env, domains, w)
    ensures forall id :: id in w.identities ==> id in env.identityIds
  {
  }

  lemma SelfLike(w: World)
    ensures Later(w, w)
  {
  }

  /** One cycle is enough exactly when no active group alias has a stranded member: with no
      call failing, the second cycle changes something exactly when, for some k <= j, domain k
      has an active group alias, and some member of its group has an identity, of domain j and
      of the organization of domain k, that is active without a mail user. */
  lemma OneCycleIffUnaffected(env: Env, domains: seq<MailDomain>, w: World)
    requires WellFormed(env, domains, w)
    ensures var w1 := HealthyCycle(env, domains, w);
      HealthyCycle(env, domains, w1) == w1 <==> !Affected(env, domains, w)
  {
    hide HealthyCycle, WellFormed;
    if Affected(env, domains, w) {
      var k: nat, j: nat, a, i :| Stranded(env, domains, w, k, j, a, i);
      AffectedChanges(env, domains, w, k, j, a, i);
    } else {
      UnaffectedConverges(env, domains, w);
    }
  }
}
