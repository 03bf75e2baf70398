/** Host names bound to domains (internal/httpapi/domain_handlers.go:145-232,
    internal/store/domains.go:110-144): for a binding the domain is read, its status and the raw
    host name checked, and the normalized name inserted; for a deletion the host names are
    counted and the domain deleted, with any other request in between. */
module Hostnames {
  import opened Text
  import opened Replies
  import opened Names

  datatype Row = Row(fqdn: string, verified: bool)

  /** Host names by domain and name, each with the text it was given as. `reading` holds the rows
      that requests in progress have read, `counted` the domains that deletions in progress found
      without host names. Domain ids are never used again. */
  datatype State = State(
    domains: map<string, Row>, ids: set<string>, bound: map<(string, string), string>,
    reading: map<string, (string, Row)>, counted: map<string, string>)

  datatype Step =
    | Register(id: string, raw: string)
    | MarkVerified(id: string)
    | Read(pid: string, id: string, answered: bool)
    | Bind(pid: string, raw: string, reply: Reply)
    | Unbind(id: string, hostname: string)
    | Count(pid: string, id: string, answered: bool)
    | Drop(pid: string, reply: Reply)

  /** The checks of the handler on the row read and the host name as given. */
  function Admitted(toAscii: ToAscii, row: Row, raw: string): Option<string> {
    if raw == "" || !row.verified || !HostnameWithinDomain(raw, row.fqdn) then None
    else
      var n := Normalized(toAscii, raw);
      if n.Ok? then Some(n.name) else None
  }

  function DoRegister(s: State, toAscii: ToAscii, id: string, raw: string): State {
    var n := Normalized(toAscii, raw);
    if id in s.ids || n.Bad? then s
    else s.(domains := s.domains[id := Row(n.name, false)], ids := s.ids + {id})
  }

  function DoRead(s: State, pid: string, id: string, answered: bool): State {
    if !answered || pid in s.reading || id !in s.domains then s
    else s.(reading := s.reading[pid := (id, s.domains[id])])
  }

  /** The insert fails when the domain row is gone or the name is bound to it already. */
  function DoBind(s: State, toAscii: ToAscii, pid: string, raw: string, reply: Reply): State {
    if pid !in s.reading then s
    else
      var (id, row) := s.reading[pid];
      var h := Admitted(toAscii, row, raw);
      var done := s.(reading := s.reading - {pid});
      if h.None? || reply == Refused || id !in s.domains || (id, h.value) in s.bound then done
      else done.(bound := s.bound[(id, h.value) := raw])
  }

  predicate NoneBound(bound: map<(string, string), string>, id: string) {
    forall k :: k in bound ==> k.0 != id
  }

  function DoCount(s: State, pid: string, id: string, answered: bool): State {
    if !answered || pid in s.counted || !NoneBound(s.bound, id) then s else s.(counted := s.counted[pid := id])
  }

  /** Deleting the row takes with it whatever host names it has by now. */
  function DoDrop(s: State, pid: string, reply: Reply): State {
    if pid !in s.counted then s
    else
      var id := s.counted[pid];
      var done := s.(counted := s.counted - {pid});
      if reply == Refused then done
      else
        done.(domains := s.domains - {id}, bound := map k | k in s.bound && k.0 != id :: s.bound[k])
  }

  function Next(s: State, toAscii: ToAscii, step: Step): State {
    match step
    case Register(id, raw) => DoRegister(s, toAscii, id, raw)
    case MarkVerified(id) =>
      if id in s.domains then s.(domains := s.domains[id := s.domains[id].(verified := true)]) else s
    case Read(pid, id, answered) => DoRead(s, pid, id, answered)
    case Bind(pid, raw, reply) => DoBind(s, toAscii, pid, raw, reply)
    case Unbind(id, hostname) => s.(bound := s.bound - {(id, hostname)})
    case Count(pid, id, answered) => DoCount(s, pid, id, answered)
    case Drop(pid, reply) => DoDrop(s, pid, reply)
  }

  function Exec(toAscii: ToAscii, steps: seq<Step>): State {
    if steps == [] then State(map[], {}, map[], map[], map[])
    else Next(Exec(toAscii, steps[..|steps| - 1]), toAscii, steps[|steps| - 1])
  }

  // ---------- What is bound is covered ----------

  /** The row read is the row stored, up to a verification since, while it is stored. */
  predicate Recent(s: State, id: string, row: Row) {
    && id in s.ids
    && (id in s.domains ==> s.domains[id].fqdn == row.fqdn && (row.verified ==> s.domains[id].verified))
  }

  /** The host name is canonical and its domain verified; given in ASCII, it lies within. */
  predicate Covered(s: State, id: string, hostname: string, raw: string) {
    && id in s.domains && s.domains[id].verified && Canonical(hostname)
    && (IsAscii(raw) ==> HostnameWithinDomain(hostname, s.domains[id].fqdn))
  }

  ghost predicate Inv(s: State) {
    && s.domains.Keys <= s.ids
    && (forall id :: id in s.domains ==> Canonical(s.domains[id].fqdn))
    && (forall pid :: pid in s.reading ==> Recent(s, s.reading[pid].0, s.reading[pid].1))
    && (forall k :: k in s.bound ==> Covered(s, k.0, k.1, s.bound[k]))
  }

  /** What an admitted host name is: canonical, for a verified domain, and, when it was given
      in ASCII, within the domain. */
  lemma AdmittedIsWithin(toAscii: ToAscii, row: Row, raw: string)
    requires Stable(toAscii) && FoldsAscii(toAscii) && Admitted(toAscii, row, raw).Some?
    ensures var h := Admitted(toAscii, row, raw).value;
      Canonical(h) && row.verified && (IsAscii(raw) ==> HostnameWithinDomain(h, row.fqdn))
  {
    hide Normalized, Canonical, HostnameWithinDomain;
    NormalizedIsCanonical(toAscii, raw);
    if IsAscii(raw) {
      RawCheckTransfers(toAscii, raw, row.fqdn);
    }
  }

  /** Which ASCII host names are admitted, and as what: for a verified domain, those that
      normalize to a name whose last labels are the labels of the domain, the domain itself
      included. */
  lemma AdmittedIff(toAscii: ToAscii, row: Row, raw: string, h: string)
    requires Stable(toAscii) && FoldsAscii(toAscii) && IsAscii(raw) && Canonical(row.fqdn)
    ensures Admitted(toAscii, row, raw) == Some(h) <==>
      row.verified && Normalized(toAscii, raw) == Ok(h) && LabelSuffix(Split(row.fqdn, '.'), Split(h, '.'))
  {
    hide Normalized, Canonical, HostnameWithinDomain, LabelSuffix;
    if Normalized(toAscii, raw) == Ok(h) {
      NormalizedIsCanonical(toAscii, raw);
      RawCheckTransfers(toAscii, raw, row.fqdn);
      WithinIff(h, row.fqdn);
      NothingRefused(toAscii);
    }
  }

  lemma NothingRefused(toAscii: ToAscii)
    ensures Normalized(toAscii, "") == Bad(Required)
  {
  }

  lemma RegisterKeeps(s: State, toAscii: ToAscii, id: string, raw: string)
    requires Inv(s)
    ensures Inv(DoRegister(s, toAscii, id, raw))
  {
    hide Normalized, Canonical, HostnameWithinDomain, IsAscii;
    if Normalized(toAscii, raw).Ok? {
      NormalizedIsCanonical(toAscii, raw);
    }
  }

  lemma BindKeeps(s: State, toAscii: ToAscii, pid: string, raw: string, reply: Reply)
    requires Stable(toAscii) && FoldsAscii(toAscii) && Inv(s)
    ensures Inv(DoBind(s, toAscii, pid, raw, reply))
  {
    hide Normalized, Canonical, HostnameWithinDomain, Admitted, Stable, FoldsAscii, IsAscii;
    if pid in s.reading && Admitted(toAscii, s.reading[pid].1, raw).Some? {
      AdmittedIsWithin(toAscii, s.reading[pid].1, raw);
      assert Recent(s, s.reading[pid].0, s.reading[pid].1);
    }
  }

  lemma DropKeeps(s: State, pid: string, reply: Reply)
    requires Inv(s)
    ensures Inv(DoDrop(s, pid, reply))
  {
    hide Canonical, HostnameWithinDomain, IsAscii;
  }

  lemma NextKeepsInv(s: State, toAscii: ToAscii, step: Step)
    requires Stable(toAscii) && FoldsAscii(toAscii) && Inv(s)
    ensures Inv(Next(s, toAscii, step))
  {
    hide Canonical, HostnameWithinDomain, Stable, FoldsAscii, IsAscii, DoRegister, DoBind, DoDrop, NoneBound;
    match step
    case Register(id, raw) => RegisterKeeps(s, toAscii, id, raw);
    case Bind(pid, raw, reply) => BindKeeps(s, toAscii, pid, raw, reply);
    case Drop(pid, reply) => DropKeeps(s, pid, reply);
    case _ =>
  }

  /** In every interleaving each bound host name is canonical and its domain verified, and it
      lies within the domain when it was given in ASCII. */
  lemma {:induction false} BoundNamesAreCovered(toAscii: ToAscii, steps: seq<Step>)
    requires Stable(toAscii) && FoldsAscii(toAscii)
    ensures Inv(Exec(toAscii, steps))
    ensures var s := Exec(toAscii, steps); forall k :: k in s.bound ==> Covered(s, k.0, k.1, s.bound[k])
  {
    hide Next, Stable, FoldsAscii, Covered;
    if steps != [] {
      BoundNamesAreCovered(toAscii, steps[..|steps| - 1]);
      NextKeepsInv(Exec(toAscii, steps[..|steps| - 1]), toAscii, steps[|steps| - 1]);
    }
  }

  // ---------- What becomes of a binding ----------

  lemma CountedStep(s: State, toAscii: ToAscii, step: Step, pid: string)
    requires pid in Next(s, toAscii, step).counted
    ensures var id := Next(s, toAscii, step).counted[pid];
      if pid in s.counted then s.counted[pid] == id
      else step.Count? && step.pid == pid && step.id == id && NoneBound(s.bound, id)
  {
    hide NoneBound, Admitted, Normalized;
  }

  /** A deletion in progress counted when its domain had no host name. */
  lemma {:induction false} CountedWasEmpty(toAscii: ToAscii, steps: seq<Step>, pid: string) returns (i: nat)
    requires pid in Exec(toAscii, steps).counted
    ensures i < |steps| && steps[i].Count? && steps[i].pid == pid && steps[i].id == Exec(toAscii, steps).counted[pid]
    ensures NoneBound(Exec(toAscii, steps[..i]).bound, steps[i].id)
  {
    hide NoneBound, Next;
    CountedStep(Exec(toAscii, steps[..|steps| - 1]), toAscii, steps[|steps| - 1], pid);
    var n := |steps| - 1;
    var init := steps[..n];
    if pid in Exec(toAscii, init).counted {
      i := CountedWasEmpty(toAscii, init, pid);
      assert init[..i] == steps[..i];
    } else {
      i := n;
    }
  }

  /** In every run a binding disappears only when it is unbound, or by a deletion of its domain
      that had counted before the binding was there. */
  lemma BindingsStay(toAscii: ToAscii, steps: seq<Step>, step: Step, key: (string, string)) returns (i: nat)
    requires key in Exec(toAscii, steps).bound && key !in Next(Exec(toAscii, steps), toAscii, step).bound
    ensures step == Unbind(key.0, key.1) ||
      (step.Drop? && i < |steps| && steps[i].Count? && steps[i].pid == step.pid && steps[i].id == key.0 &&
       key !in Exec(toAscii, steps[..i]).bound)
  {
    hide Exec, Next, NoneBound;
    i := 0;
    var s := Exec(toAscii, steps);
    LosesOnly(s, toAscii, step, key);
    if step.Drop? {
      i := CountedWasEmpty(toAscii, steps, step.pid);
      NotAmong(Exec(toAscii, steps[..i]).bound, key);
    }
  }

  lemma LosesOnly(s: State, toAscii: ToAscii, step: Step, key: (string, string))
    requires key in s.bound && key !in Next(s, toAscii, step).bound
    ensures step == Unbind(key.0, key.1) || (step.Drop? && step.pid in s.counted && s.counted[step.pid] == key.0)
  {
    hide Admitted, Normalized;
  }

  lemma NotAmong(bound: map<(string, string), string>, key: (string, string))
    ensures NoneBound(bound, key.0) ==> key !in bound
  {
  }

  // ---------- The handlers, uninterrupted ----------

  /** The tables the handlers work on; what requests in progress have read is ghost. */
  class DomainTables {
    const toAscii: ToAscii
    var domains: map<string, Row>
    var bound: map<(string, string), string>
    ghost var ids: set<string>
    ghost var reading: map<string, (string, Row)>
    ghost var counted: map<string, string>

    ghost function Snapshot(): State
      reads this
    {
      State(domains, ids, bound, reading, counted)
    }

    /** The checks on the row and the host name. */
    method Check(row: Row, raw: string) returns (h: Option<string>)
      ensures h == Admitted(toAscii, row, raw)
    {
      if raw == "" || !row.verified || !HostnameWithinDomain(raw, row.fqdn) {
        return None;
      }
      var n := NormalizeDomain(toAscii, raw);
      return if n.Ok? then Some(n.name) else None;
    }

    /** Binds a host name. Uninterrupted, it is the run of its read and its insert, and it
        succeeds exactly when the domain is found, the name is admitted and not bound to it yet,
        and the insert is answered; the one binding is then added. */
    method AddHostname(ghost pid: string, id: string, raw: string, answered: bool, reply: Reply) returns (ok: bool)
      requires pid !in reading
      modifies this
      ensures Snapshot() ==
        Next(Next(old(Snapshot()), toAscii, Read(pid, id, answered)), toAscii, Bind(pid, raw, reply))
      ensures domains == old(domains) && ids == old(ids) && counted == old(counted) && pid !in reading
      ensures Adds(toAscii, old(domains), old(bound), id, raw, answered, reply) ==>
        bound == old(bound)[(id, Admitted(toAscii, domains[id], raw).value) := raw]
      ensures !Adds(toAscii, old(domains), old(bound), id, raw, answered, reply) ==> bound == old(bound)
      ensures ok <==> Adds(toAscii, old(domains), old(bound), id, raw, answered, reply) && reply == Applied
    {
      hide Normalized, HostnameWithinDomain, Admitted;
      if !answered || id !in domains {
        return false;
      }
      var row := domains[id];
      reading := reading[pid := (id, row)];
      var h := Check(row, raw);
      reading := reading - {pid};
      if h.None? || reply == Refused || (id, h.value) in bound {
        return false;
      }
      bound := bound[(id, h.value) := raw];
      return reply == Applied;
    }

    /** Removes one binding. */
    method RemoveHostname(id: string, hostname: string)
      modifies this`bound
      ensures Snapshot() == Next(old(Snapshot()), toAscii, Unbind(id, hostname))
      ensures bound == old(bound) - {(id, hostname)}
    {
      bound := bound - {(id, hostname)};
    }

    /** Deletes a domain. Uninterrupted, it is the run of its count and its delete; the domain
        goes exactly when it has no host name and the delete is not refused, and no binding is
        touched. */
    method DeleteDomain(ghost pid: string, id: string, answered: bool, reply: Reply) returns (ok: bool)
      requires pid !in counted
      modifies this
      ensures Snapshot() == Next(Next(old(Snapshot()), toAscii, Count(pid, id, answered)), toAscii, Drop(pid, reply))
      ensures bound == old(bound) && ids == old(ids) && reading == old(reading) && pid !in counted
      ensures domains == if answered && reply != Refused && (forall h :: (id, h) !in old(bound))
                         then old(domains) - {id} else old(domains)
      ensures ok <==> answered && reply == Applied && id in old(domains) && forall h :: (id, h) !in old(bound)
    {
      if !answered {
        return false;
      }
      if k :| k in bound && k.0 == id {
        assert (id, k.1) in bound;
        return false;
      }
      ghost var before := counted;
      counted := counted[pid := id];
      ok := id in domains && reply == Applied;
      if reply != Refused {
        domains := domains - {id};
      }
      assert bound == map k | k in bound && k.0 != id :: bound[k];
      counted := counted - {pid};
      assert counted == before;
    }
  }

  /** The insert adds a binding. */
  predicate Adds(toAscii: ToAscii, domains: map<string, Row>, bound: map<(string, string), string>, id: string,
      raw: string, answered: bool, reply: Reply)
  {
    && answered && id in domains && Admitted(toAscii, domains[id], raw).Some? && reply != Refused
    && (id, Admitted(toAscii, domains[id], raw).value) !in bound
  }

  // ---------- A binding that is lost ----------

  /** A deletion counts, a host name is bound, the deletion goes through. */
  function LateBinding(d: string, del: string, add: string, name: string, host: string): seq<Step> {
    [Register(d, name), MarkVerified(d), Count(del, d, true), Read(add, d, true), Bind(add, host, Applied)]
  }

  /** Although a domain with host names is not to be deleted, a binding reported as made goes
      with its domain when it came between the count and the delete. */
  lemma LateBindingIsLost(toAscii: ToAscii, d: string, del: string, add: string, name: string, host: string)
    requires Normalized(toAscii, name).Ok?
    requires Admitted(toAscii, Row(Normalized(toAscii, name).name, true), host).Some?
    ensures var h := Admitted(toAscii, Row(Normalized(toAscii, name).name, true), host).value;
      var s := Exec(toAscii, LateBinding(d, del, add, name, host));
      && (d, h) in s.bound && d in s.domains
      && var t := Next(s, toAscii, Drop(del, Applied)); (d, h) !in t.bound && d !in t.domains
  {
    hide Normalized, Admitted, DoDrop, Next, Exec;
    var row := Row(Normalized(toAscii, name).name, true);
    var none := State(map[], {}, map[], map[], map[]);
    Exec5(toAscii, Register(d, name), MarkVerified(d), Count(del, d, true), Read(add, d, true),
      Bind(add, host, Applied));
    var s1 := State(map[d := row.(verified := false)], {d}, map[], map[], map[]);
    RegisterRuns(none, toAscii, d, name);
    assert none.domains[d := row.(verified := false)] == s1.domains && none.ids + {d} == s1.ids;
    VerifyRuns(s1, toAscii, d);
    var s2 := State(map[d := row], {d}, map[], map[], map[]);
    assert s1.domains[d := row] == s2.domains;
    CountRuns(s2, toAscii, del, d);
    var s3 := State(map[d := row], {d}, map[], map[], map[del := d]);
    assert s2.counted[del := d] == s3.counted;
    ReadRuns(s3, toAscii, add, d);
    var s4 := State(map[d := row], {d}, map[], map[add := (d, row)], map[del := d]);
    assert s3.reading[add := (d, row)] == s4.reading;
    BindRuns(s4, toAscii, add, host);
    var s5 := Next(s4, toAscii, Bind(add, host, Applied));
    DropRuns(s5, toAscii, del);
    DropTakes(s5, del);
  }

  lemma Exec5(toAscii: ToAscii, a: Step, b: Step, c: Step, d: Step, e: Step)
    ensures Exec(toAscii, [a, b, c, d, e]) ==
      Next(Next(Next(Next(Next(State(map[], {}, map[], map[], map[]), toAscii, a), toAscii, b), toAscii, c),
        toAscii, d), toAscii, e)
  {
    hide Next;
    var none := State(map[], {}, map[], map[], map[]);
    assert Exec(toAscii, []) == none;
    assert [a][..0] == [] && [a, b][..1] == [a] && [a, b, c][..2] == [a, b];
    assert [a, b, c, d][..3] == [a, b, c] && [a, b, c, d, e][..4] == [a, b, c, d];
    assert Exec(toAscii, [a, b]) == Next(Next(none, toAscii, a), toAscii, b);
    assert Exec(toAscii, [a, b, c]) == Next(Exec(toAscii, [a, b]), toAscii, c);
    assert Exec(toAscii, [a, b, c, d]) == Next(Exec(toAscii, [a, b, c]), toAscii, d);
  }

  lemma RegisterRuns(s: State, toAscii: ToAscii, id: string, raw: string)
    requires id !in s.ids && Normalized(toAscii, raw).Ok?
    ensures Next(s, toAscii, Register(id, raw)) ==
      s.(domains := s.domains[id := Row(Normalized(toAscii, raw).name, false)], ids := s.ids + {id})
  {
    hide Normalized;
  }

  lemma VerifyRuns(s: State, toAscii: ToAscii, id: string)
    requires id in s.domains
    ensures Next(s, toAscii, MarkVerified(id)) == s.(domains := s.domains[id := s.domains[id].(verified := true)])
  {
  }

  lemma CountRuns(s: State, toAscii: ToAscii, pid: string, id: string)
    requires pid !in s.counted && s.bound == map[]
    ensures Next(s, toAscii, Count(pid, id, true)) == s.(counted := s.counted[pid := id])
  {
  }

  lemma ReadRuns(s: State, toAscii: ToAscii, pid: string, id: string)
    requires pid !in s.reading && id in s.domains
    ensures Next(s, toAscii, Read(pid, id, true)) == s.(reading := s.reading[pid := (id, s.domains[id])])
  {
  }

  lemma BindRuns(s: State, toAscii: ToAscii, pid: string, raw: string)
    requires pid in s.reading && Admitted(toAscii, s.reading[pid].1, raw).Some?
    requires s.reading[pid].0 in s.domains && s.bound == map[]
    ensures var (id, row) := s.reading[pid];
      Next(s, toAscii, Bind(pid, raw, Applied)) ==
        s.(reading := s.reading - {pid}, bound := map[(id, Admitted(toAscii, row, raw).value) := raw])
  {
    hide Admitted;
  }

  lemma DropRuns(s: State, toAscii: ToAscii, pid: string)
    ensures Next(s, toAscii, Drop(pid, Applied)) == DoDrop(s, pid, Applied)
  {
  }

  lemma DropTakes(s: State, pid: string)
    requires pid in s.counted
    ensures var t := DoDrop(s, pid, Applied);
      s.counted[pid] !in t.domains && forall k :: k in t.bound ==> k.0 != s.counted[pid]
  {
  }
}
