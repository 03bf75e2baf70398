/** Reconciliation of mail domains: database rows pushed into the alias files, and active
    identities checked against the mail server (internal/recon/mail.go, cmd/worker/main.go). */
module Reconcile {
  import opened Text
  import opened AliasFile

  // ---------- State ----------

  datatype Status = Requested | Provisioning | Active | Suspended | Deleted

  datatype Alias = Alias(
    domainId: string, group: Option<string>, local: string, destinations: seq<string>, active: bool)

  datatype Identity = Identity(
    org: string, user: Option<string>, domainId: string, address: string, status: Status)

  datatype MailDomain = MailDomain(id: string, fqdn: string, org: string)

  /** Rows by primary key, and the alias file of each domain name. */
  datatype World = World(
    aliases: map<string, Alias>, identities: map<string, Identity>, files: map<string, string>)

  /** What reconciliation only reads: row order by address, group members, mail server users. */
  datatype Env = Env(
    aliasIds: seq<string>, identityIds: seq<string>,
    members: map<string, seq<string>>, mailUsers: set<string>)

  // ---------- Calls that may fail ----------

  /** Writing an alias: done; done but the daemon could not be signalled; not done at all;
      or done over a file the agent failed to read. */
  datatype WriteOutcome = Written | WrittenUnsignalled | NotWritten | WrittenUnread

  datatype UserAnswer = Present | Absent | Unknown

  /** The answers of one pass, by row id (by address for the user check). */
  datatype Calls = Calls(
    listAliases: bool,
    members: string -> bool,
    identitiesByUsers: string -> bool,
    updateRow: string -> bool,
    ensureAlias: string -> WriteOutcome,
    listIdentities: bool,
    userExists: string -> UserAnswer,
    setStatus: string -> bool)

  /** No call fails, and the mail server tells the truth. */
  function Healthy(env: Env): Calls {
    Calls(true, _ => true, _ => true, _ => true, _ => Written, true,
          a => if a in env.mailUsers then Present else Absent, _ => true)
  }

  // ---------- Queries ----------

  function AliasesOf(rows: map<string, Alias>, ids: seq<string>, domainId: string): seq<string> {
    if ids == [] then []
    else
      var last := ids[|ids| - 1];
      AliasesOf(rows, ids[..|ids| - 1], domainId)
      + if last in rows && rows[last].domainId == domainId then [last] else []
  }

  function IdentitiesOf(rows: map<string, Identity>, ids: seq<string>, domainId: string): seq<string> {
    if ids == [] then []
    else
      var last := ids[|ids| - 1];
      IdentitiesOf(rows, ids[..|ids| - 1], domainId)
      + if last in rows && rows[last].domainId == domainId then [last] else []
  }

  /** The addresses of the active identities of `users` in an organization. */
  function ActiveAddresses(rows: map<string, Identity>, ids: seq<string>, org: string, users: seq<string>)
    : seq<string>
  {
    if ids == [] then []
    else
      var last := ids[|ids| - 1];
      ActiveAddresses(rows, ids[..|ids| - 1], org, users)
      + if last in rows && rows[last].org == org && rows[last].status == Active
           && rows[last].user.Some? && rows[last].user.value in users
        then [rows[last].address] else []
  }

  /** An active identity of the organization that belongs to one of `users`. */
  predicate Belongs(rows: map<string, Identity>, id: string, org: string, users: seq<string>) {
    id in rows && rows[id].org == org && rows[id].status.Active? && rows[id].user.Some? && rows[id].user.value in users
  }

  predicate Increasing(at: seq<nat>) {
    forall i, j :: 0 <= i < j < |at| ==> at[i] < at[j]
  }

  /** `at` are, in order, all positions of `ids` whose entry is chosen. */
  predicate Positions(at: seq<nat>, ids: seq<string>, chosen: string -> bool) {
    && Increasing(at) && (forall k :: k in at ==> k < |ids|)
    && forall k :: 0 <= k < |ids| ==> (k in at <==> chosen(ids[k]))
  }

  lemma PositionsMore(at: seq<nat>, ids: seq<string>, chosen: string -> bool)
    requires ids != [] && Positions(at, ids[..|ids| - 1], chosen)
    ensures Positions(if chosen(ids[|ids| - 1]) then at + [|ids| - 1] else at, ids, chosen)
  {
    var n := |ids| - 1;
    var more := if chosen(ids[n]) then at + [n] else at;
    assert forall i :: 0 <= i < |at| ==> at[i] in at;
    assert forall k :: k in more <==> k in at || (k == n && chosen(ids[n]));
    assert forall k :: 0 <= k < n ==> ids[..n][k] == ids[k];
  }

  function Belonging(rows: map<string, Identity>, org: string, users: seq<string>): string -> bool {
    id => Belongs(rows, id, org, users)
  }

  predicate AddressesAt(dests: seq<string>, rows: map<string, Identity>, ids: seq<string>, at: seq<nat>) {
    && |dests| == |at|
    && forall i :: 0 <= i < |at| ==> at[i] < |ids| && ids[at[i]] in rows && dests[i] == rows[ids[at[i]]].address
  }

  /** The list holds, in query order, each such identity's own address, and no other. */
  ghost predicate MemberAddresses(dests: seq<string>, rows: map<string, Identity>, ids: seq<string>, org: string,
      users: seq<string>)
  {
    exists at: seq<nat> :: Positions(at, ids, Belonging(rows, org, users)) && AddressesAt(dests, rows, ids, at)
  }

  lemma {:induction false} ActiveAddressesAt(rows: map<string, Identity>, ids: seq<string>, org: string,
      users: seq<string>) returns (at: seq<nat>)
    ensures Positions(at, ids, Belonging(rows, org, users))
    ensures AddressesAt(ActiveAddresses(rows, ids, org, users), rows, ids, at)
  {
    at := [];
    if ids != [] {
      var n := |ids| - 1;
      at := ActiveAddressesAt(rows, ids[..n], org, users);
      PositionsMore(at, ids, Belonging(rows, org, users));
      if Belongs(rows, ids[n], org, users) {
        at := at + [n];
      }
    }
  }

  lemma ActiveAddressesAre(rows: map<string, Identity>, ids: seq<string>, org: string, users: seq<string>)
    ensures MemberAddresses(ActiveAddresses(rows, ids, org, users), rows, ids, org, users)
  {
    var at := ActiveAddressesAt(rows, ids, org, users);
  }

  /** An address is listed exactly when some identity in the query's answer has it. */
  lemma MemberAddressesIff(dests: seq<string>, rows: map<string, Identity>, ids: seq<string>, org: string,
      users: seq<string>, x: string)
    requires MemberAddresses(dests, rows, ids, org, users)
    ensures x in dests <==> exists id :: id in ids && Belongs(rows, id, org, users) && rows[id].address == x
  {
    hide Belongs;
    var at: seq<nat> :| Positions(at, ids, Belonging(rows, org, users)) && AddressesAt(dests, rows, ids, at);
    if x in dests {
      var i :| 0 <= i < |dests| && dests[i] == x;
      assert at[i] in at && ids[at[i]] in ids;
      assert Belongs(rows, ids[at[i]], org, users);
    }
    if id :| id in ids && Belongs(rows, id, org, users) && id in rows && rows[id].address == x {
      var k :| 0 <= k < |ids| && ids[k] == id;
      assert k in at;
      var i :| 0 <= i < |at| && at[i] == k;
      assert dests[i] == x;
    }
  }

  lemma AllButLast(at: seq<nat>, k: nat)
    requires Increasing(at) && at != []
    ensures k in at[..|at| - 1] <==> k in at && k != at[|at| - 1]
  {
    assert at == at[..|at| - 1] + [at[|at| - 1]];
  }

  lemma {:induction false} SamePositions(a: seq<nat>, b: seq<nat>)
    requires Increasing(a) && Increasing(b) && forall k: nat :: k in a <==> k in b
    ensures a == b
  {
    assert a != [] ==> a[0] in b;
    assert b != [] ==> b[0] in a;
    if a != [] {
      var m, n := |a| - 1, |b| - 1;
      assert a[m] in b && b[n] in a;
      assert a[m] == b[n];
      forall k: nat
        ensures k in a[..m] <==> k in b[..n]
      {
        AllButLast(a, k);
        AllButLast(b, k);
      }
      SamePositions(a[..m], b[..n]);
      assert a == a[..m] + [a[m]] && b == b[..n] + [b[n]];
    }
  }

  /** There is only one such list. */
  lemma MemberAddressesUnique(x: seq<string>, y: seq<string>, rows: map<string, Identity>, ids: seq<string>,
      org: string, users: seq<string>)
    requires MemberAddresses(x, rows, ids, org, users) && MemberAddresses(y, rows, ids, org, users)
    ensures x == y
  {
    hide Belongs;
    var a: seq<nat> :| Positions(a, ids, Belonging(rows, org, users)) && AddressesAt(x, rows, ids, a);
    var b: seq<nat> :| Positions(b, ids, Belonging(rows, org, users)) && AddressesAt(y, rows, ids, b);
    SamePositions(a, b);
  }

  function Members(env: Env, group: string): seq<string> {
    if group in env.members then env.members[group] else []
  }

  /** The destinations an alias should have: its own, or its group's active addresses. */
  function Desired(env: Env, identities: map<string, Identity>, d: MailDomain, a: Alias): seq<string> {
    match a.group
    case None => a.destinations
    case Some(g) => ActiveAddresses(identities, env.identityIds, d.org, Members(env, g))
  }

  function TextOf(files: map<string, string>, fqdn: string): string {
    if fqdn in files then files[fqdn] else ""
  }

  // ---------- One domain pass ----------

  function EnsureAlias(files: map<string, string>, fqdn: string, op: Op, o: WriteOutcome): map<string, string> {
    match o
    case Written | WrittenUnsignalled => files[fqdn := SetAlias(TextOf(files, fqdn), op)]
    case WrittenUnread => files[fqdn := SetAlias("", op)]
    case NotWritten => files
  }

  predicate Succeeds(o: WriteOutcome) {
    o == Written || o == WrittenUnread
  }

  function SetDestinations(rows: map<string, Alias>, id: string, dests: seq<string>): map<string, Alias> {
    if id in rows then rows[id := rows[id].(destinations := dests)] else rows
  }

  datatype Progress = Progress(world: World, restored: nat, groupAliases: nat)

  /** One turn of the alias loop; `a` is the row as listed when the pass began. */
  function AliasStep(env: Env, calls: Calls, d: MailDomain, id: string, a: Alias, p: Progress): Progress {
    if !a.active then p
    else
      var w, dests, o := p.world, Desired(env, p.world.identities, d, a), calls.ensureAlias(id);
      match a.group
      case Some(g) =>
        if !calls.members(id) || (Members(env, g) != [] && !calls.identitiesByUsers(id)) then p
        else
          Progress(
            w.(aliases := if calls.updateRow(id) then SetDestinations(w.aliases, id, dests) else w.aliases,
               files := EnsureAlias(w.files, d.fqdn, Op(a.local, dests), o)),
            p.restored, if Succeeds(o) then p.groupAliases + 1 else p.groupAliases)
      case None =>
        Progress(
          w.(files := EnsureAlias(w.files, d.fqdn, Op(a.local, dests), o)),
          if Succeeds(o) then p.restored + 1 else p.restored, p.groupAliases)
  }

  function AliasLoop(env: Env, calls: Calls, d: MailDomain, listed: map<string, Alias>, ids: seq<string>, p: Progress)
    : Progress
    requires forall id :: id in ids ==> id in listed
  {
    if ids == [] then p
    else
      var last := ids[|ids| - 1];
      AliasStep(env, calls, d, last, listed[last], AliasLoop(env, calls, d, listed, ids[..|ids| - 1], p))
  }

  /** The user check found that an active identity has no mail user. */
  predicate FoundMissing(calls: Calls, i: Identity) {
    i.status == Active && calls.userExists(i.address) == Absent
  }

  function IdentityLoop(calls: Calls, listed: map<string, Identity>, ids: seq<string>): map<string, Identity>
    requires forall id :: id in ids ==> id in listed
  {
    if ids == [] then listed
    else
      var last := ids[|ids| - 1];
      var rows := IdentityLoop(calls, listed, ids[..|ids| - 1]);
      if FoundMissing(calls, listed[last]) && calls.setStatus(last) && last in rows
      then rows[last := rows[last].(status := Suspended)] else rows
  }

  /** The addresses reported missing, in listing order. */
  function MissingUsers(calls: Calls, listed: map<string, Identity>, ids: seq<string>): seq<string>
    requires forall id :: id in ids ==> id in listed
  {
    if ids == [] then []
    else
      var last := ids[|ids| - 1];
      MissingUsers(calls, listed, ids[..|ids| - 1])
      + if FoundMissing(calls, listed[last]) then [listed[last].address] else []
  }

  lemma {:induction false} AliasesOfRows(rows: map<string, Alias>, ids: seq<string>, domainId: string)
    ensures forall id ::
      id in AliasesOf(rows, ids, domainId) <==> id in ids && id in rows && rows[id].domainId == domainId
  {
    if ids != [] {
      AliasesOfRows(rows, ids[..|ids| - 1], domainId);
      assert ids == ids[..|ids| - 1] + [ids[|ids| - 1]];
    }
  }

  lemma {:induction false} IdentitiesOfRows(rows: map<string, Identity>, ids: seq<string>, domainId: string)
    ensures forall id ::
      id in IdentitiesOf(rows, ids, domainId) <==> id in ids && id in rows && rows[id].domainId == domainId
  {
    if ids != [] {
      IdentitiesOfRows(rows, ids[..|ids| - 1], domainId);
      assert ids == ids[..|ids| - 1] + [ids[|ids| - 1]];
    }
  }

  function AliasPass(env: Env, calls: Calls, d: MailDomain, w: World): Progress {
    AliasesOfRows(w.aliases, env.aliasIds, d.id);
    if calls.listAliases
    then AliasLoop(env, calls, d, w.aliases, AliasesOf(w.aliases, env.aliasIds, d.id), Progress(w, 0, 0))
    else Progress(w, 0, 0)
  }

  /** The world after one pass over a domain. */
  function DomainPass(env: Env, calls: Calls, d: MailDomain, w: World): World {
    var w' := AliasPass(env, calls, d, w).world;
    IdentitiesOfRows(w'.identities, env.identityIds, d.id);
    if calls.listAliases && calls.listIdentities
    then w'.(identities := IdentityLoop(calls, w'.identities, IdentitiesOf(w'.identities, env.identityIds, d.id)))
    else w'
  }

  datatype MailResult = MailResult(aliasesRestored: nat, groupAliases: nat, missingUsers: seq<string>)

  function PassResult(env: Env, calls: Calls, d: MailDomain, w: World): MailResult {
    var p := AliasPass(env, calls, d, w);
    IdentitiesOfRows(p.world.identities, env.identityIds, d.id);
    MailResult(p.restored, p.groupAliases,
      if calls.listAliases && calls.listIdentities
      then MissingUsers(calls, p.world.identities, IdentitiesOf(p.world.identities, env.identityIds, d.id))
      else [])
  }

  /** One worker cycle: every active mail domain in turn, whatever happened to the others. */
  function Cycle(env: Env, calls: nat -> Calls, domains: seq<MailDomain>, w: World): World {
    if domains == [] then w
    else
      var n := |domains| - 1;
      DomainPass(env, calls(n), domains[n], Cycle(env, calls, domains[..n], w))
  }

  // ---------- The reconciler ----------

  class MailReconciler {
    const env: Env
    var aliases: map<string, Alias>
    var identities: map<string, Identity>
    var files: map<string, string>

    ghost function State(): World
      reads this
    {
      World(aliases, identities, files)
    }

    constructor (env: Env, w: World)
      ensures this.env == env && State() == w
    {
      this.env := env;
      aliases, identities, files := w.aliases, w.identities, w.files;
    }

    method EnsureAliasFile(fqdn: string, op: Op, o: WriteOutcome) returns (ok: bool)
      modifies this`files
      ensures files == EnsureAlias(old(files), fqdn, op, o)
      ensures ok == Succeeds(o)
    {
      hide SetAlias;
      if o != NotWritten {
        var text := SetAliasText(
          if fqdn in files then Some(files[fqdn]) else None, o != WrittenUnread, op);
        files := files[fqdn := text];
      }
      ok := o == Written || o == WrittenUnread;
    }

    /** One pass over a domain: the alias loop, then the identity loop; errors of single
        calls skip that row, errors of the two listings end the pass. */
    method ReconcileDomain(d: MailDomain, calls: Calls) returns (res: MailResult, ok: bool)
      modifies this`aliases, this`identities, this`files
      ensures State() == DomainPass(env, calls, d, old(State()))
      ensures res == PassResult(env, calls, d, old(State()))
      ensures ok == (calls.listAliases && calls.listIdentities)
    {
      hide EnsureAlias, SetDestinations, ActiveAddresses, AliasesOf, IdentitiesOf, IdentityLoop, MissingUsers, Members;
      res := MailResult(0, 0, []);
      if !calls.listAliases {
        return res, false;
      }
      var listed := aliases;
      var ids := AliasesOf(listed, env.aliasIds, d.id);
      AliasesOfRows(listed, env.aliasIds, d.id);
      ghost var p0 := Progress(State(), 0, 0);
      for i := 0 to |ids|
        invariant identities == old(identities)
        invariant res.missingUsers == []
        invariant Progress(State(), res.aliasesRestored, res.groupAliases)
               == AliasLoop(env, calls, d, listed, ids[..i], p0)
      {
        var id := ids[i];
        var a := listed[id];
        assert ids[..i + 1][..i] == ids[..i];
        if !a.active {
          continue;
        }
        if a.group.Some? {
          var users := Members(env, a.group.value);
          if !calls.members(id) {
            continue;
          }
          if users != [] && !calls.identitiesByUsers(id) {
            continue;
          }
          var dests := ActiveAddresses(identities, env.identityIds, d.org, users);
          if calls.updateRow(id) {
            aliases := SetDestinations(aliases, id, dests);
          }
          var written := EnsureAliasFile(d.fqdn, Op(a.local, dests), calls.ensureAlias(id));
          if written {
            res := res.(groupAliases := res.groupAliases + 1);
          }
          continue;
        }
        var written := EnsureAliasFile(d.fqdn, Op(a.local, a.destinations), calls.ensureAlias(id));
        if written {
          res := res.(aliasesRestored := res.aliasesRestored + 1);
        }
      }
      assert ids[..|ids|] == ids;
      if !calls.listIdentities {
        return res, false;
      }
      var missing := SuspendMissing(d, calls);
      res := res.(missingUsers := missing);
      ok := true;
    }

    /** The worker cycle. `listed` is none when the domains could not be listed. */
    method ReconcileOnce(listed: Option<seq<MailDomain>>, calls: nat -> Calls, mailEnabled: bool) returns (ok: bool)
      modifies this`aliases, this`identities, this`files
      ensures ok == listed.Some?
      ensures State() == if ok && mailEnabled then Cycle(env, calls, listed.value, old(State())) else old(State())
    {
      if listed.None? {
        return false;
      }
      var domains := listed.value;
      for i := 0 to |domains|
        invariant State() == if mailEnabled then Cycle(env, calls, domains[..i], old(State())) else old(State())
      {
        assert domains[..i + 1][..i] == domains[..i];
        if !mailEnabled {
          break;
        }
        var _, _ := ReconcileDomain(domains[i], calls(i));
      }
      assert domains[..|domains|] == domains;
      ok := true;
    }

    /** The identity loop of a pass: active identities without a mail user are suspended. */
    method SuspendMissing(d: MailDomain, calls: Calls) returns (missing: seq<string>)
      modifies this`identities
      ensures (forall id :: id in IdentitiesOf(old(identities), env.identityIds, d.id) ==> id in old(identities))
        && identities == IdentityLoop(calls, old(identities), IdentitiesOf(old(identities), env.identityIds, d.id))
        && missing == MissingUsers(calls, old(identities), IdentitiesOf(old(identities), env.identityIds, d.id))
    {
      hide IdentitiesOf;
      var listed := identities;
      var ids := IdentitiesOf(listed, env.identityIds, d.id);
      IdentitiesOfRows(listed, env.identityIds, d.id);
      missing := [];
      for i := 0 to |ids|
        invariant identities == IdentityLoop(calls, listed, ids[..i])
        invariant missing == MissingUsers(calls, listed, ids[..i])
      {
        var id := ids[i];
        assert ids[..i + 1][..i] == ids[..i];
        if listed[id].status != Active {
          continue;
        }
        var answer := calls.userExists(listed[id].address);
        if answer == Unknown {
          continue;
        }
        if answer == Absent {
          missing := missing + [listed[id].address];
          if calls.setStatus(id) && id in identities {
            identities := identities[id := identities[id].(status := Suspended)];
          }
        }
      }
      assert ids[..|ids|] == ids;
    }
  }
}
