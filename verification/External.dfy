/** The sync of external resources (internal/recon/external.go:37-70): every mapping of a
    provider is checked and its observed state recorded, applications through the provider
    row of the same platform objectId. */
module External {
  import opened Text

  const APPLICATION := "authentik_application"
  const PROVIDER := "authentik_provider"

  datatype Row = Row(
    kind: string, objectId: string, provider: string, externalId: string,
    status: string, observedHash: string, lastError: string)

  type Table = map<string, Row>

  datatype Answer = Present | Missing | Failed

  /** What the outside does during one pass: the answer about each resource, and the rows
      whose update fails, which the pass ignores. */
  datatype Outside = Outside(check: (string, string) -> Answer, hash: (string, string) -> string, refused: set<string>)

  // ---------- One row ----------

  function Target(siblings: map<string, string>, r: Row): (string, string) {
    if r.kind == APPLICATION && r.objectId in siblings then (PROVIDER, siblings[r.objectId]) else (r.kind, r.externalId)
  }

  function Observed(o: Outside, siblings: map<string, string>, r: Row): Row {
    var (kind, externalId) := Target(siblings, r);
    match o.check(kind, externalId)
    case Failed => r
    case Present => r.(status := "active", observedHash := o.hash(r.kind, r.externalId), lastError := "")
    case Missing =>
      r.(status := "failed", observedHash := o.hash(r.kind, r.externalId), lastError := "resource missing in provider")
  }

  // ---------- The two loops ----------

  /** The provider rows met so far, by platform object; a later one replaces an earlier. */
  function Siblings(t: Table, ids: seq<string>): map<string, string>
    requires forall id :: id in ids ==> id in t
  {
    if ids == [] then map[]
    else
      var rest, r := Siblings(t, ids[..|ids| - 1]), t[ids[|ids| - 1]];
      if r.kind == PROVIDER then rest[r.objectId := r.externalId] else rest
  }

  function SyncRows(o: Outside, siblings: map<string, string>, t: Table, ids: seq<string>): Table
    requires forall id :: id in ids ==> id in t
  {
    if ids == [] then t
    else
      var rest, id := SyncRows(o, siblings, t, ids[..|ids| - 1]), ids[|ids| - 1];
      if id in o.refused then rest else rest[id := Observed(o, siblings, t[id])]
  }

  class ExternalStore {
    var rows: Table

    /** `ids` is the order in which the query returns the rows of the provider. */
    method SyncExternal(o: Outside, ids: seq<string>)
      requires forall id :: id in ids ==> id in rows
      modifies this
      ensures rows == SyncRows(o, Siblings(old(rows), ids), old(rows), ids)
    {
      var read := rows;
      var providerByObject: map<string, string> := map[];
      for i := 0 to |ids|
        invariant rows == read
        invariant providerByObject == Siblings(read, ids[..i])
      {
        assert ids[..i + 1][..i] == ids[..i];
        var res := read[ids[i]];
        if res.kind == PROVIDER {
          providerByObject := providerByObject[res.objectId := res.externalId];
        }
      }
      assert ids[..|ids|] == ids;
      for i := 0 to |ids|
        invariant rows == SyncRows(o, providerByObject, read, ids[..i])
      {
        assert ids[..i + 1][..i] == ids[..i];
        var res := read[ids[i]];
        var checkKind, checkId := res.kind, res.externalId;
        if res.kind == APPLICATION && res.objectId in providerByObject {
          checkKind, checkId := PROVIDER, providerByObject[res.objectId];
        }
        var hash := o.hash(res.kind, res.externalId);
        var answer := o.check(checkKind, checkId);
        if answer == Failed {
          assert res == Observed(o, providerByObject, res);
          SyncedAt(o, providerByObject, read, ids[..i], ids[i]);
          continue;
        }
        if ids[i] !in o.refused {
          rows := rows[ids[i] := if answer == Present
            then res.(status := "active", observedHash := hash, lastError := "")
            else res.(status := "failed", observedHash := hash, lastError := "resource missing in provider")];
        }
      }
    }
  }

  // ---------- A pass is pointwise ----------

  /** The query's answer: each row of the provider once, in some order. */
  ghost predicate Listing(t: Table, provider: string, ids: seq<string>) {
    && (forall id :: id in ids <==> id in t && t[id].provider == provider)
    && (forall i, j :: 0 <= i < j < |ids| ==> ids[i] != ids[j])
  }

  /** The table's constraint: one row per kind and platform object. */
  ghost predicate Unique(t: Table) {
    forall a, b :: a in t && b in t && a != b ==> (t[a].kind, t[a].objectId) != (t[b].kind, t[b].objectId)
  }

  predicate IsSibling(t: Table, provider: string, id: string, objectId: string) {
    id in t && t[id].provider == provider && t[id].kind == PROVIDER && t[id].objectId == objectId
  }

  /** The final row as a function of the table and the answers alone. */
  ghost function Synced(o: Outside, t: Table, provider: string, id: string): Row
    requires id in t
  {
    var r := t[id];
    if r.provider != provider || id in o.refused then r
    else if r.kind == APPLICATION && exists p :: IsSibling(t, provider, p, r.objectId) then
      var p :| IsSibling(t, provider, p, r.objectId);
      Observed(o, map[r.objectId := t[p].externalId], r)
    else Observed(o, map[], r)
  }

  lemma {:induction false} SyncedAt(o: Outside, siblings: map<string, string>, t: Table, ids: seq<string>, id: string)
    requires id in t && forall i :: i in ids ==> i in t
    ensures SyncRows(o, siblings, t, ids).Keys == t.Keys
    ensures SyncRows(o, siblings, t, ids)[id] ==
      if id in ids && id !in o.refused then Observed(o, siblings, t[id]) else t[id]
  {
    hide Observed;
    if ids != [] {
      SyncedAt(o, siblings, t, ids[..|ids| - 1], id);
    }
  }

  lemma {:induction false} SiblingsAt(t: Table, provider: string, ids: seq<string>, objectId: string)
    requires forall i :: i in ids ==> i in t && t[i].provider == provider
    ensures objectId in Siblings(t, ids) <==> exists p :: p in ids && IsSibling(t, provider, p, objectId)
    ensures objectId in Siblings(t, ids) ==>
      exists p :: p in ids && IsSibling(t, provider, p, objectId) && t[p].externalId == Siblings(t, ids)[objectId]
  {
    if ids != [] {
      var init, last := ids[..|ids| - 1], ids[|ids| - 1];
      SiblingsAt(t, provider, init, objectId);
      assert ids == init + [last];
      assert IsSibling(t, provider, last, objectId) <==> t[last].kind == PROVIDER && t[last].objectId == objectId;
      if objectId in Siblings(t, init) {
        var p :| p in init && IsSibling(t, provider, p, objectId) && t[p].externalId == Siblings(t, init)[objectId];
        assert p in ids;
      }
      assert last in ids;
    }
  }

  lemma ObservedBySibling(o: Outside, siblings: map<string, string>, other: map<string, string>, r: Row)
    requires r.kind == APPLICATION ==>
      && (r.objectId in siblings <==> r.objectId in other)
      && (r.objectId in siblings ==> siblings[r.objectId] == other[r.objectId])
    ensures Observed(o, siblings, r) == Observed(o, other, r)
  {
  }

  /** The pass computes the pointwise result, whatever order the rows are returned in. */
  lemma SyncIsPointwise(o: Outside, t: Table, provider: string, ids: seq<string>, id: string)
    requires Listing(t, provider, ids) && Unique(t) && id in t
    ensures SyncRows(o, Siblings(t, ids), t, ids).Keys == t.Keys
    ensures SyncRows(o, Siblings(t, ids), t, ids)[id] == Synced(o, t, provider, id)
  {
    hide Observed, Siblings, SyncRows;
    var sib, r := Siblings(t, ids), t[id];
    SyncedAt(o, sib, t, ids, id);
    SiblingsAt(t, provider, ids, r.objectId);
    if r.provider == provider && id !in o.refused {
      if r.kind == APPLICATION && exists p :: IsSibling(t, provider, p, r.objectId) {
        var p :| IsSibling(t, provider, p, r.objectId);
        assert p in ids;
        var q :| q in ids && IsSibling(t, provider, q, r.objectId) && t[q].externalId == sib[r.objectId];
        forall x | IsSibling(t, provider, x, r.objectId)
          ensures x == q
        {
        }
        ObservedBySibling(o, sib, map[r.objectId := t[q].externalId], r);
      } else {
        ObservedBySibling(o, sib, map[], r);
      }
    }
  }

  function Pass(o: Outside, t: Table, ids: seq<string>): Table
    requires forall id :: id in ids ==> id in t
  {
    SyncRows(o, Siblings(t, ids), t, ids)
  }

  /** Two orders of the same listing give the same table. */
  lemma OrderIndependent(o: Outside, t: Table, provider: string, a: seq<string>, b: seq<string>)
    requires Listing(t, provider, a) && Listing(t, provider, b) && Unique(t)
    ensures Pass(o, t, a) == Pass(o, t, b)
  {
    hide Siblings, SyncRows, Synced, Unique;
    assert Pass(o, t, a).Keys == t.Keys && Pass(o, t, b).Keys == t.Keys by {
      KeysKept(o, t, a);
      KeysKept(o, t, b);
    }
    forall id | id in t
      ensures Pass(o, t, a)[id] == Pass(o, t, b)[id]
    {
      SyncIsPointwise(o, t, provider, a, id);
      SyncIsPointwise(o, t, provider, b, id);
    }
  }

  lemma {:induction false} SyncKeys(o: Outside, siblings: map<string, string>, t: Table, ids: seq<string>)
    requires forall i :: i in ids ==> i in t
    ensures SyncRows(o, siblings, t, ids).Keys == t.Keys
  {
    hide Observed;
    if ids != [] {
      SyncKeys(o, siblings, t, ids[..|ids| - 1]);
    }
  }

  /** No row is removed, and none appears. */
  lemma KeysKept(o: Outside, t: Table, ids: seq<string>)
    requires forall i :: i in ids ==> i in t
    ensures Pass(o, t, ids).Keys == t.Keys
  {
    SyncKeys(o, Siblings(t, ids), t, ids);
  }

  /** The columns that identify a resource. */
  predicate SameResource(a: Row, b: Row) {
    a.kind == b.kind && a.objectId == b.objectId && a.provider == b.provider && a.externalId == b.externalId
  }

  lemma PassKeepsResource(o: Outside, t: Table, ids: seq<string>, id: string)
    requires id in t && forall i :: i in ids ==> i in t
    ensures id in Pass(o, t, ids) && SameResource(t[id], Pass(o, t, ids)[id])
  {
    hide Siblings, SyncRows;
    KeysKept(o, t, ids);
    SyncedAt(o, Siblings(t, ids), t, ids, id);
  }

  lemma {:induction false} SiblingsKept(t: Table, u: Table, ids: seq<string>)
    requires forall i :: i in ids ==> i in t && i in u && SameResource(t[i], u[i])
    ensures Siblings(t, ids) == Siblings(u, ids)
  {
    if ids != [] {
      assert ids[|ids| - 1] in ids;
      SiblingsKept(t, u, ids[..|ids| - 1]);
    }
  }

  /** Only the last pass counts: a row it could check and update is as if no pass had been
      made before; a row it could not is as the earlier pass left it. */
  lemma LastPassWins(o: Outside, first: Outside, t: Table, ids: seq<string>, id: string)
    requires id in t && forall i :: i in ids ==> i in t
    requires o.hash == first.hash
    ensures forall i :: i in ids ==> i in Pass(first, t, ids)
    ensures id in Pass(o, t, ids) && id in Pass(first, t, ids) && id in Pass(o, Pass(first, t, ids), ids)
    ensures
      var (kind, externalId) := Target(Siblings(t, ids), t[id]);
      Pass(o, Pass(first, t, ids), ids)[id] ==
        if id in ids && id !in o.refused && o.check(kind, externalId) != Failed
        then Pass(o, t, ids)[id] else Pass(first, t, ids)[id]
  {
    hide Siblings, SyncRows;
    var u := Pass(first, t, ids);
    forall i | i in ids
      ensures i in u && SameResource(t[i], u[i])
    {
      PassKeepsResource(first, t, ids, i);
    }
    KeysKept(first, t, ids);
    KeysKept(o, t, ids);
    KeysKept(o, u, ids);
    SiblingsKept(t, u, ids);
    SyncedAt(first, Siblings(t, ids), t, ids, id);
    SyncedAt(o, Siblings(t, ids), t, ids, id);
    SyncedAt(o, Siblings(t, ids), u, ids, id);
  }

  /** With the same answers a second pass changes nothing. */
  lemma PassIdempotent(o: Outside, t: Table, ids: seq<string>)
    requires forall i :: i in ids ==> i in t
    ensures forall i :: i in ids ==> i in Pass(o, t, ids)
    ensures Pass(o, Pass(o, t, ids), ids) == Pass(o, t, ids)
  {
    hide Pass;
    KeysKept(o, t, ids);
    var u := Pass(o, t, ids);
    KeysKept(o, u, ids);
    forall id | id in u
      ensures Pass(o, u, ids)[id] == u[id]
    {
      LastPassWins(o, o, t, ids, id);
    }
  }

  /** Rows of other providers, rows whose check fails and rows whose update fails are left
      as they were; every other row is active exactly when its resource is present. */
  lemma StatusIff(o: Outside, t: Table, ids: seq<string>, id: string)
    requires id in t && forall i :: i in ids ==> i in t
    ensures id in Pass(o, t, ids)
    ensures
      var (kind, externalId) := Target(Siblings(t, ids), t[id]);
      if id !in ids || id in o.refused || o.check(kind, externalId) == Failed then Pass(o, t, ids)[id] == t[id]
      else
        var r := Pass(o, t, ids)[id];
        && r.status == (if o.check(kind, externalId) == Present then "active" else "failed")
        && r.lastError == (if o.check(kind, externalId) == Present then "" else "resource missing in provider")
        && r.observedHash == o.hash(t[id].kind, t[id].externalId) && SameResource(r, t[id])
  {
    hide Siblings, SyncRows;
    KeysKept(o, t, ids);
    SyncedAt(o, Siblings(t, ids), t, ids, id);
  }

  /** An application ends with the status of the provider row of its platform object. */
  lemma ApplicationFollowsProvider(o: Outside, t: Table, provider: string, ids: seq<string>, app: string, prov: string)
    requires Listing(t, provider, ids) && Unique(t)
    requires app in ids && t[app].kind == APPLICATION && IsSibling(t, provider, prov, t[app].objectId)
    requires app !in o.refused && prov !in o.refused && o.check(PROVIDER, t[prov].externalId) != Failed
    ensures app in Pass(o, t, ids) && prov in Pass(o, t, ids)
    ensures Pass(o, t, ids)[app].status == Pass(o, t, ids)[prov].status
  {
    hide Siblings, SyncRows, Pass, Observed;
    StatusIff(o, t, ids, app);
    StatusIff(o, t, ids, prov);
    SiblingsAt(t, provider, ids, t[app].objectId);
    assert prov in ids;
    var q :| q in ids && IsSibling(t, provider, q, t[app].objectId)
      && t[q].externalId == Siblings(t, ids)[t[app].objectId];
    assert q == prov;
  }
}
