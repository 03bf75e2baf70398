/** Same-organization routing: whatever the platform writes as an alias destination, in the
    row or in the file, is the address of an identity of the alias's own organization
    (internal/httpapi/mail_handlers.go:316-396, internal/store/mail.go:124-138,
    internal/recon/mail.go:45-83). Alias creation and reconciliation are taken statement by
    statement, interleaved with each other and with everything that changes identities and
    groups. */
module MailRouting {
  import opened Text
  import opened AliasFile
  import opened Reconcile
  import Names

  // ---------- Validation ----------

  predicate HasAddress(rows: map<string, Identity>, org: string, address: string) {
    exists id :: id in rows && rows[id].org == org && rows[id].address == address
  }

  predicate InOrg(rows: map<string, Identity>, org: string, dests: seq<string>) {
    forall x :: x in dests ==> HasAddress(rows, org, x)
  }

  /** The row an address names; addresses are unique. */
  predicate AddressUnique(rows: map<string, Identity>) {
    forall a, b :: a in rows && b in rows && a != b ==> rows[a].address != rows[b].address
  }

  /** Although described as a check for active identities, validation accepts the same lists
      whatever statuses the identities have. */
  lemma ValidationIgnoresStatus(rows: map<string, Identity>, org: string, dests: seq<string>, id: string,
      status: Status)
    requires id in rows
    ensures InOrg(rows, org, dests) <==> InOrg(rows[id := rows[id].(status := status)], org, dests)
  {
    var rows' := rows[id := rows[id].(status := status)];
    forall x | x in dests
      ensures HasAddress(rows, org, x) <==> HasAddress(rows', org, x)
    {
      if HasAddress(rows, org, x) {
        var i :| i in rows && rows[i].org == org && rows[i].address == x;
        assert i in rows' && rows'[i].org == org && rows'[i].address == x;
      }
      if HasAddress(rows', org, x) {
        var i :| i in rows' && rows'[i].org == org && rows'[i].address == x;
        assert i in rows && rows[i].org == org && rows[i].address == x;
      }
    }
  }

  // ---------- The machine ----------

  datatype Group = Group(org: string, members: seq<string>)

  /** A turn of the alias loop: between its statements it holds what it has read. */
  datatype Turn =
    | Idle
    | HasMembers(id: string, users: seq<string>)
    | HasAddresses(id: string, dests: seq<string>)
    | ToWrite(id: string, dests: seq<string>)

  /** A request creating an alias, or a reconciliation pass holding the rows it listed. */
  datatype Proc =
    | GroupFound(d: MailDomain, group: string, local: string)
    | MembersRead(d: MailDomain, group: string, local: string, users: seq<string>)
    | Drafted(d: MailDomain, bound: Option<string>, local: string, dests: seq<string>)
    | Validated(d: MailDomain, bound: Option<string>, local: string, dests: seq<string>)
    | Filed(d: MailDomain, bound: Option<string>, local: string, dests: seq<string>)
    | Passing(d: MailDomain, listed: map<string, Alias>, turn: Turn)
    | Done

  datatype State = State(world: World, groups: map<string, Group>, procs: map<string, Proc>)

  datatype Command =
    | Open(domainId: string, bound: Option<string>, local: string, given: seq<string>)
    | ReadMembers
    | ReadIdentities(order: seq<string>)
    | Validate
    | WriteFile(outcome: WriteOutcome)
    | Insert(id: string)
    | BeginPass(domainId: string)
    | Pick(id: string)
    | UpdateRow(applied: bool)
    | Skip
    | End

  datatype Step =
    | Do(pid: string, cmd: Command)
    | CreateIdentity(id: string, row: Identity)
    | SetStatus(id: string, status: Status)
    | SetGroup(id: string, group: Group)

  type Domains = map<string, MailDomain>

  /** Domain rows by their own id. */
  predicate Keyed(ds: Domains) {
    forall id :: id in ds ==> ds[id].id == id
  }

  /** A domain name belongs to one organization. */
  predicate OneOrgPerFqdn(ds: Domains) {
    forall a, b :: a in ds && b in ds && ds[a].fqdn == ds[b].fqdn ==> ds[a].org == ds[b].org
  }

  /** What a step leaves behind. */
  datatype Effect = Effect(proc: Proc, aliases: map<string, Alias>, files: map<string, string>)

  function Stage(s: State, p: Proc): Effect {
    Effect(p, s.world.aliases, s.world.files)
  }

  /** The local part as address building leaves it: folded, with any padding. */
  function Stored(local: string): string {
    Lower(local)
  }

  predicate ValidLocal(local: string) {
    Names.DotAtom(Trim(local))
  }

  /** The group is looked up first; then something must be there to deliver to, and the local
      part must be valid. */
  function DoOpen(s: State, d: MailDomain, bound: Option<string>, local: string, given: seq<string>): Effect {
    match bound
    case Some(g) =>
      Stage(s, if g in s.groups && s.groups[g].org == d.org then GroupFound(d, g, local) else Done)
    case None =>
      Stage(s, if given == [] || !ValidLocal(local) then Done else Drafted(d, None, Stored(local), given))
  }

  function MembersOf(s: State, g: string): seq<string> {
    if g in s.groups then s.groups[g].members else []
  }

  /** The query of the members' active identities; no members, no query. */
  function AddressesOf(s: State, org: string, users: seq<string>, order: seq<string>): seq<string> {
    ActiveAddresses(s.world.identities, order, org, users)
  }

  /** The constraints on alias rows: one local part per domain, and one row per address. */
  predicate Conflicts(rows: map<string, Alias>, ds: Domains, d: MailDomain, local: string) {
    exists id :: id in rows && rows[id].local == local &&
      (rows[id].domainId == d.id || (rows[id].domainId in ds && ds[rows[id].domainId].fqdn == d.fqdn))
  }

  function DoWrite(s: State, d: MailDomain, op: Op, outcome: WriteOutcome, next: Proc): Effect {
    Effect(next, s.world.aliases, EnsureAlias(s.world.files, d.fqdn, op, outcome))
  }

  function DoInsert(s: State, ds: Domains, p: Proc, id: string): Effect
    requires p.Filed?
  {
    if Conflicts(s.world.aliases, ds, p.d, p.local) then Stage(s, Done)
    else Stage(s, Done).(aliases := s.world.aliases[id := Alias(p.d.id, p.bound, p.local, p.dests, true)])
  }

  /** The next alias of the loop: its own destinations, or the members of its group. */
  function DoPick(s: State, p: Proc, id: string): Option<Effect>
    requires p.Passing?
  {
    if id !in p.listed || p.listed[id].domainId != p.d.id || !p.listed[id].active then None
    else
      match p.listed[id].group
      case None => Some(Stage(s, p.(turn := ToWrite(id, p.listed[id].destinations))))
      case Some(g) => Some(Stage(s, p.(turn := HasMembers(id, MembersOf(s, g)))))
  }

  /** The row update of a group alias; its failure is only logged. */
  function DoUpdate(s: State, p: Proc, id: string, dests: seq<string>, applied: bool): Effect
    requires p.Passing?
  {
    Stage(s, p.(turn := ToWrite(id, dests))).(
      aliases := if applied then SetDestinations(s.world.aliases, id, dests) else s.world.aliases)
  }

  function Act(s: State, ds: Domains, pid: string, cmd: Command): Option<Effect> {
    var p: Option<Proc> := if pid in s.procs then Some(s.procs[pid]) else None;
    match (cmd, p)
    case (Open(domainId, bound, local, given), None) =>
      if domainId in ds then Some(DoOpen(s, ds[domainId], bound, local, given)) else None
    case (ReadMembers, Some(GroupFound(d, g, local))) => Some(Stage(s, MembersRead(d, g, local, MembersOf(s, g))))
    case (ReadIdentities(order), Some(MembersRead(d, g, local, users))) =>
      Some(Stage(s,
        if ValidLocal(local) then Drafted(d, Some(g), Stored(local), AddressesOf(s, d.org, users, order)) else Done))
    case (Validate, Some(Drafted(d, bound, local, dests))) =>
      Some(Stage(s, if InOrg(s.world.identities, d.org, dests) then Validated(d, bound, local, dests) else Done))
    case (WriteFile(outcome), Some(Validated(d, bound, local, dests))) =>
      Some(DoWrite(s, d, Op(local, dests), outcome, if Succeeds(outcome) then Filed(d, bound, local, dests) else Done))
    case (Insert(id), Some(Filed(_, _, _, _))) =>
      if id in s.world.aliases then None else Some(DoInsert(s, ds, p.value, id))
    case (BeginPass(domainId), None) =>
      if domainId in ds then Some(Stage(s, Passing(ds[domainId], s.world.aliases, Idle))) else None
    case (Pick(id), Some(Passing(_, _, Idle))) => DoPick(s, p.value, id)
    case (ReadIdentities(order), Some(Passing(d, _, HasMembers(id, users)))) =>
      Some(Stage(s, p.value.(turn := HasAddresses(id, AddressesOf(s, d.org, users, order)))))
    case (UpdateRow(applied), Some(Passing(_, _, HasAddresses(id, dests)))) =>
      Some(DoUpdate(s, p.value, id, dests, applied))
    case (WriteFile(outcome), Some(Passing(d, listed, ToWrite(id, dests)))) =>
      if id in listed
      then Some(DoWrite(s, d, Op(listed[id].local, dests), outcome, p.value.(turn := Idle))) else None
    case (Skip, Some(Passing(_, _, _))) => Some(Stage(s, p.value.(turn := Idle)))
    case (End, Some(_)) => Some(Stage(s, Done))
    case _ => None
  }

  function Apply(s: State, pid: string, e: Effect): State {
    State(World(e.aliases, s.world.identities, e.files), s.groups, s.procs[pid := e.proc])
  }

  function WithIdentities(s: State, rows: map<string, Identity>): State {
    s.(world := s.world.(identities := rows))
  }

  /** The address of a new identity is new. */
  function DoCreateIdentity(s: State, id: string, row: Identity): State {
    if id in s.world.identities ||
       exists i :: i in s.world.identities && s.world.identities[i].address == row.address then s
    else WithIdentities(s, s.world.identities[id := row])
  }

  function DoSetStatus(s: State, id: string, status: Status): State {
    if id !in s.world.identities then s
    else WithIdentities(s, s.world.identities[id := s.world.identities[id].(status := status)])
  }

  function Next(s: State, ds: Domains, step: Step): State {
    match step
    case Do(pid, cmd) => var e := Act(s, ds, pid, cmd); if e.Some? then Apply(s, pid, e.value) else s
    case CreateIdentity(id, row) => DoCreateIdentity(s, id, row)
    case SetStatus(id, status) => DoSetStatus(s, id, status)
    case SetGroup(id, group) => s.(groups := s.groups[id := group])
  }

  function Exec(s: State, ds: Domains, steps: seq<Step>): State {
    if steps == [] then s else Next(Exec(s, ds, steps[..|steps| - 1]), ds, steps[|steps| - 1])
  }

  /** No row yet; the files may hold anything. */
  predicate Initial(s: State) {
    s.world.aliases == map[] && s.world.identities == map[] && s.procs == map[]
  }

  // ---------- The invariant on rows ----------

  predicate RowOk(rows: map<string, Identity>, ds: Domains, a: Alias) {
    a.domainId in ds && ':' !in a.local && InOrg(rows, ds[a.domainId].org, a.destinations)
  }

  predicate KnownDomain(ds: Domains, d: MailDomain) {
    d.id in ds && ds[d.id] == d
  }

  /** A listed row is still stored, for the same domain. */
  predicate Tracks(aliases: map<string, Alias>, listed: map<string, Alias>) {
    forall id :: id in listed ==> id in aliases && aliases[id].domainId == listed[id].domainId
  }

  predicate TurnOk(rows: map<string, Identity>, d: MailDomain, listed: map<string, Alias>, turn: Turn) {
    match turn
    case Idle => true
    case HasMembers(id, _) => id in listed && listed[id].domainId == d.id
    case HasAddresses(id, dests) => id in listed && listed[id].domainId == d.id && InOrg(rows, d.org, dests)
    case ToWrite(id, dests) => id in listed && listed[id].domainId == d.id && InOrg(rows, d.org, dests)
  }

  predicate AllRowsOk(rows: map<string, Identity>, ds: Domains, aliases: map<string, Alias>) {
    forall id :: id in aliases ==> RowOk(rows, ds, aliases[id])
  }

  predicate ProcOk(rows: map<string, Identity>, aliases: map<string, Alias>, ds: Domains, p: Proc) {
    match p
    case GroupFound(d, _, _) => KnownDomain(ds, d)
    case MembersRead(d, _, _, _) => KnownDomain(ds, d)
    case Drafted(d, _, local, _) => KnownDomain(ds, d) && ':' !in local
    case Validated(d, _, local, dests) => KnownDomain(ds, d) && ':' !in local && InOrg(rows, d.org, dests)
    case Filed(d, _, local, dests) => KnownDomain(ds, d) && ':' !in local && InOrg(rows, d.org, dests)
    case Passing(d, listed, turn) =>
      KnownDomain(ds, d) && Tracks(aliases, listed) && AllRowsOk(rows, ds, listed) && TurnOk(rows, d, listed, turn)
    case Done => true
  }

  ghost predicate Inv(s: State, ds: Domains) {
    && AllRowsOk(s.world.identities, ds, s.world.aliases)
    && (forall pid :: pid in s.procs ==> ProcOk(s.world.identities, s.world.aliases, ds, s.procs[pid]))
  }

  // ---------- Identities only come, and keep their organization and address ----------

  predicate Grows(rows: map<string, Identity>, rows': map<string, Identity>) {
    forall id :: id in rows ==> id in rows' && rows'[id].org == rows[id].org && rows'[id].address == rows[id].address
  }

  lemma HasAddressGrows(rows: map<string, Identity>, rows': map<string, Identity>, org: string, x: string)
    requires Grows(rows, rows') && HasAddress(rows, org, x)
    ensures HasAddress(rows', org, x)
  {
    var id :| id in rows && rows[id].org == org && rows[id].address == x;
    assert id in rows' && rows'[id].org == org && rows'[id].address == x;
  }

  lemma InOrgGrows(rows: map<string, Identity>, rows': map<string, Identity>, org: string, dests: seq<string>)
    requires Grows(rows, rows') && InOrg(rows, org, dests)
    ensures InOrg(rows', org, dests)
  {
    hide HasAddress, Grows;
    forall x | x in dests
      ensures HasAddress(rows', org, x)
    {
      HasAddressGrows(rows, rows', org, x);
    }
  }

  lemma RowsGrow(rows: map<string, Identity>, rows': map<string, Identity>, ds: Domains, aliases: map<string, Alias>)
    requires Grows(rows, rows') && AllRowsOk(rows, ds, aliases)
    ensures AllRowsOk(rows', ds, aliases)
  {
    hide InOrg, Grows;
    forall id | id in aliases
      ensures RowOk(rows', ds, aliases[id])
    {
      assert RowOk(rows, ds, aliases[id]);
      InOrgGrows(rows, rows', ds[aliases[id].domainId].org, aliases[id].destinations);
    }
  }

  lemma ProcGrows(rows: map<string, Identity>, rows': map<string, Identity>, aliases: map<string, Alias>,
      ds: Domains, p: Proc)
    requires Grows(rows, rows') && ProcOk(rows, aliases, ds, p)
    ensures ProcOk(rows', aliases, ds, p)
  {
    hide InOrg, AllRowsOk, Grows, Tracks;
    match p
    case Validated(d, _, _, dests) => InOrgGrows(rows, rows', d.org, dests);
    case Filed(d, _, _, dests) => InOrgGrows(rows, rows', d.org, dests);
    case Passing(d, listed, turn) =>
      RowsGrow(rows, rows', ds, listed);
      if turn.HasAddresses? || turn.ToWrite? {
        InOrgGrows(rows, rows', d.org, turn.dests);
      }
    case _ =>
  }

  lemma IdentitiesKeepInv(s: State, ds: Domains, rows': map<string, Identity>)
    requires Inv(s, ds) && Grows(s.world.identities, rows')
    ensures Inv(WithIdentities(s, rows'), ds)
  {
    hide AllRowsOk, ProcOk, Grows;
    RowsGrow(s.world.identities, rows', ds, s.world.aliases);
    forall pid | pid in s.procs
      ensures ProcOk(rows', s.world.aliases, ds, s.procs[pid])
    {
      ProcGrows(s.world.identities, rows', s.world.aliases, ds, s.procs[pid]);
    }
  }

  // ---------- Every command ----------

  /** Alias rows are added, or keep their domain; all of them are in order. */
  predicate GoodEffect(s: State, ds: Domains, e: Effect) {
    && Tracks(e.aliases, s.world.aliases) && AllRowsOk(s.world.identities, ds, e.aliases)
    && ProcOk(s.world.identities, e.aliases, ds, e.proc)
  }

  lemma ProcKept(rows: map<string, Identity>, aliases: map<string, Alias>, aliases': map<string, Alias>,
      ds: Domains, p: Proc)
    requires ProcOk(rows, aliases, ds, p) && Tracks(aliases', aliases)
    ensures ProcOk(rows, aliases', ds, p)
  {
    hide AllRowsOk, InOrg, TurnOk;
  }

  lemma ApplyKeepsInv(s: State, ds: Domains, pid: string, e: Effect)
    requires Inv(s, ds) && GoodEffect(s, ds, e)
    ensures Inv(Apply(s, pid, e), ds)
  {
    hide AllRowsOk, ProcOk, Tracks;
    forall q | q in s.procs && q != pid
      ensures ProcOk(s.world.identities, e.aliases, ds, s.procs[q])
    {
      ProcKept(s.world.identities, s.world.aliases, e.aliases, ds, s.procs[q]);
    }
  }

  lemma SameRows(s: State, ds: Domains, e: Effect)
    requires Inv(s, ds) && e.aliases == s.world.aliases && ProcOk(s.world.identities, s.world.aliases, ds, e.proc)
    ensures GoodEffect(s, ds, e)
  {
    hide AllRowsOk, ProcOk;
  }

  lemma {:induction false} AddressesInOrg(rows: map<string, Identity>, order: seq<string>, org: string,
      users: seq<string>)
    ensures InOrg(rows, org, ActiveAddresses(rows, order, org, users))
  {
    if order != [] {
      AddressesInOrg(rows, order[..|order| - 1], org, users);
      var last := order[|order| - 1];
      if last in rows && rows[last].org == org {
        assert HasAddress(rows, org, rows[last].address);
      }
    }
  }

  /** A valid local part, padded or not, has no colon. */
  lemma StoredLocal(local: string)
    requires ValidLocal(local)
    ensures ':' !in Stored(local)
  {
    if ':' in Lower(local) {
      Names.LocalChars(local, ':');
    }
  }

  lemma OpenGood(s: State, ds: Domains, d: MailDomain, bound: Option<string>, local: string, given: seq<string>)
    requires Inv(s, ds) && KnownDomain(ds, d)
    ensures GoodEffect(s, ds, DoOpen(s, d, bound, local, given))
  {
    hide GoodEffect, ValidLocal, Stored, Inv;
    if ValidLocal(local) {
      StoredLocal(local);
    }
    SameRows(s, ds, DoOpen(s, d, bound, local, given));
  }

  lemma InsertGood(s: State, ds: Domains, p: Proc, id: string)
    requires Inv(s, ds) && p.Filed? && ProcOk(s.world.identities, s.world.aliases, ds, p) && id !in s.world.aliases
    ensures GoodEffect(s, ds, DoInsert(s, ds, p, id))
  {
    hide InOrg, Conflicts, ProcOk;
    if Conflicts(s.world.aliases, ds, p.d, p.local) {
      DoneIsOk(s.world.identities, s.world.aliases, ds);
      SameRows(s, ds, Stage(s, Done));
    } else {
      assert RowOk(s.world.identities, ds, Alias(p.d.id, p.bound, p.local, p.dests, true)) by {
        FiledRow(s, ds, p);
      }
      DoneIsOk(s.world.identities, s.world.aliases[id := Alias(p.d.id, p.bound, p.local, p.dests, true)], ds);
    }
  }

  lemma FiledRow(s: State, ds: Domains, p: Proc)
    requires p.Filed? && ProcOk(s.world.identities, s.world.aliases, ds, p)
    ensures RowOk(s.world.identities, ds, Alias(p.d.id, p.bound, p.local, p.dests, true))
  {
  }

  lemma DoneIsOk(rows: map<string, Identity>, aliases: map<string, Alias>, ds: Domains)
    ensures ProcOk(rows, aliases, ds, Done)
  {
  }

  lemma PickGood(s: State, ds: Domains, p: Proc, id: string)
    requires Inv(s, ds) && p.Passing? && ProcOk(s.world.identities, s.world.aliases, ds, p) && DoPick(s, p, id).Some?
    ensures GoodEffect(s, ds, DoPick(s, p, id).value)
  {
    hide GoodEffect, Inv, Tracks, InOrg;
    assert RowOk(s.world.identities, ds, p.listed[id]);
    SameRows(s, ds, DoPick(s, p, id).value);
  }

  lemma TurnReadGood(s: State, ds: Domains, p: Proc, order: seq<string>)
    requires Inv(s, ds) && p.Passing? && p.turn.HasMembers? && ProcOk(s.world.identities, s.world.aliases, ds, p)
    ensures var dests := AddressesOf(s, p.d.org, p.turn.users, order);
      GoodEffect(s, ds, Stage(s, p.(turn := HasAddresses(p.turn.id, dests))))
  {
    hide GoodEffect, Inv, Tracks, InOrg, AllRowsOk;
    AddressesInOrg(s.world.identities, order, p.d.org, p.turn.users);
    SameRows(s, ds, Stage(s, p.(turn := HasAddresses(p.turn.id, AddressesOf(s, p.d.org, p.turn.users, order)))));
  }

  lemma UpdateGood(s: State, ds: Domains, p: Proc, applied: bool)
    requires Inv(s, ds) && p.Passing? && p.turn.HasAddresses? && ProcOk(s.world.identities, s.world.aliases, ds, p)
    ensures GoodEffect(s, ds, DoUpdate(s, p, p.turn.id, p.turn.dests, applied))
  {
    hide InOrg;
    var e := DoUpdate(s, p, p.turn.id, p.turn.dests, applied);
    assert AllRowsOk(s.world.identities, ds, e.aliases) by {
      assert RowOk(s.world.identities, ds, s.world.aliases[p.turn.id]);
    }
  }

  lemma WriteGood(s: State, ds: Domains, d: MailDomain, op: Op, outcome: WriteOutcome, next: Proc)
    requires Inv(s, ds) && ProcOk(s.world.identities, s.world.aliases, ds, next)
    ensures GoodEffect(s, ds, DoWrite(s, d, op, outcome, next))
  {
    hide GoodEffect, Inv, ProcOk;
    SameRows(s, ds, DoWrite(s, d, op, outcome, next));
  }

  lemma ProcAt(s: State, ds: Domains, pid: string)
    requires Inv(s, ds) && pid in s.procs
    ensures ProcOk(s.world.identities, s.world.aliases, ds, s.procs[pid])
  {
  }

  lemma BeginGood(s: State, ds: Domains, domainId: string)
    requires Inv(s, ds) && Keyed(ds) && domainId in ds
    ensures GoodEffect(s, ds, Stage(s, Passing(ds[domainId], s.world.aliases, Idle)))
  {
    hide RowOk;
    SameRows(s, ds, Stage(s, Passing(ds[domainId], s.world.aliases, Idle)));
  }

  /** Commands of a request creating an alias. */
  lemma RequestGood(s: State, ds: Domains, pid: string, cmd: Command)
    requires Inv(s, ds) && pid in s.procs && !s.procs[pid].Passing? && Act(s, ds, pid, cmd).Some?
    ensures GoodEffect(s, ds, Act(s, ds, pid, cmd).value)
  {
    hide Inv, GoodEffect, ValidLocal, Stored, InOrg, DoInsert, DoWrite, KnownDomain, AddressesOf;
    ProcAt(s, ds, pid);
    var p := s.procs[pid];
    match cmd
    case Insert(id) => InsertGood(s, ds, p, id);
    case WriteFile(outcome) =>
      WriteGood(s, ds, p.d, Op(p.local, p.dests), outcome,
        if Succeeds(outcome) then Filed(p.d, p.bound, p.local, p.dests) else Done);
    case ReadIdentities(_) =>
      if ValidLocal(p.local) {
        StoredLocal(p.local);
      }
      SameRows(s, ds, Act(s, ds, pid, cmd).value);
    case ReadMembers => SameRows(s, ds, Act(s, ds, pid, cmd).value);
    case Validate => SameRows(s, ds, Act(s, ds, pid, cmd).value);
    case End => SameRows(s, ds, Act(s, ds, pid, cmd).value);
    case _ =>
  }

  /** Commands of a reconciliation pass. */
  lemma PassGood(s: State, ds: Domains, pid: string, cmd: Command)
    requires Inv(s, ds) && pid in s.procs && s.procs[pid].Passing? && Act(s, ds, pid, cmd).Some?
    ensures GoodEffect(s, ds, Act(s, ds, pid, cmd).value)
  {
    hide Inv, GoodEffect, InOrg, DoUpdate, DoWrite, DoPick, KnownDomain, AddressesOf, Tracks, AllRowsOk;
    ProcAt(s, ds, pid);
    var p := s.procs[pid];
    match cmd
    case Pick(id) => PickGood(s, ds, p, id);
    case ReadIdentities(order) => TurnReadGood(s, ds, p, order);
    case UpdateRow(applied) => UpdateGood(s, ds, p, applied);
    case WriteFile(outcome) =>
      WriteGood(s, ds, p.d, Op(p.listed[p.turn.id].local, p.turn.dests), outcome, p.(turn := Idle));
    case Skip => SameRows(s, ds, Act(s, ds, pid, cmd).value);
    case End => SameRows(s, ds, Act(s, ds, pid, cmd).value);
    case _ =>
  }

  lemma CommandGood(s: State, ds: Domains, pid: string, cmd: Command)
    requires Inv(s, ds) && Keyed(ds) && Act(s, ds, pid, cmd).Some?
    ensures GoodEffect(s, ds, Act(s, ds, pid, cmd).value)
  {
    hide Inv, GoodEffect, DoOpen;
    if pid !in s.procs {
      match cmd
      case Open(domainId, bound, local, given) => OpenGood(s, ds, ds[domainId], bound, local, given);
      case BeginPass(domainId) => BeginGood(s, ds, domainId);
      case _ =>
    } else if s.procs[pid].Passing? {
      PassGood(s, ds, pid, cmd);
    } else {
      RequestGood(s, ds, pid, cmd);
    }
  }

  lemma NextGrows(s: State, ds: Domains, step: Step)
    ensures Grows(s.world.identities, Next(s, ds, step).world.identities)
  {
    hide Act;
  }

  lemma NextKeepsInv(s: State, ds: Domains, step: Step)
    requires Inv(s, ds) && Keyed(ds)
    ensures Inv(Next(s, ds, step), ds)
  {
    hide Inv, Act, Apply, Grows;
    match step
    case Do(pid, cmd) =>
      if Act(s, ds, pid, cmd).Some? {
        CommandGood(s, ds, pid, cmd);
        ApplyKeepsInv(s, ds, pid, Act(s, ds, pid, cmd).value);
      }
    case SetGroup(id, group) => GroupsKeepInv(s, ds, s.groups[id := group]);
    case _ =>
      NextGrows(s, ds, step);
      IdentitiesKeepInv(s, ds, Next(s, ds, step).world.identities);
  }

  lemma GroupsKeepInv(s: State, ds: Domains, groups: map<string, Group>)
    requires Inv(s, ds)
    ensures Inv(s.(groups := groups), ds)
  {
    hide AllRowsOk, ProcOk;
  }

  lemma {:induction false} RunKeepsInv(s: State, ds: Domains, steps: seq<Step>)
    requires Initial(s) && Keyed(ds)
    ensures Inv(Exec(s, ds, steps), ds)
  {
    hide Next, Keyed;
    if steps != [] {
      RunKeepsInv(s, ds, steps[..|steps| - 1]);
      NextKeepsInv(Exec(s, ds, steps[..|steps| - 1]), ds, steps[|steps| - 1]);
    }
  }

  /** In every interleaving each destination stored in an alias row is the address of an
      identity of the organization that owns the alias's domain. */
  lemma RowsStayInOrganization(s: State, ds: Domains, steps: seq<Step>, id: string, x: string)
    requires Initial(s) && Keyed(ds)
    requires var t := Exec(s, ds, steps); id in t.world.aliases && x in t.world.aliases[id].destinations
    ensures var t := Exec(s, ds, steps); var a := t.world.aliases[id];
      a.domainId in ds && HasAddress(t.world.identities, ds[a.domainId].org, x)
  {
    hide Exec, ProcOk;
    RunKeepsInv(s, ds, steps);
    assert RowOk(Exec(s, ds, steps).world.identities, ds, Exec(s, ds, steps).world.aliases[id]);
  }

  // ---------- What a write leaves in a file ----------

  /** The destinations that a line records, read back. */
  function Recorded(line: string): seq<string> {
    match Cut(line, ':')
    case None => []
    case Some(p) => DestsOf(p.1)
  }

  /** Read back, the rendered lines and one more text are the lines and that text's lines. */
  lemma LinesThen(ls: seq<string>, raw: string)
    requires AllLines(ls)
    ensures Lines(Render(ls + [raw])) == ls + Clean(Split(raw, '\n'))
  {
    hide Split, Clean;
    var all := Join(ls + [raw], "\n");
    SplitConcat(all, '\n', "");
    assert Render(ls + [raw]) == all + ['\n'] + "";
    CleanConcat(Split(all, '\n'), Split("", '\n'));
    NoLines();
    assert Clean(Split("", '\n')) == [];
    if ls == [] {
      assert ls + [raw] == [raw] && all == raw;
    } else {
      Names.JoinConcat(ls, [raw], "\n");
      assert all == Join(ls, "\n") + ['\n'] + raw;
      SplitConcat(Join(ls, "\n"), '\n', raw);
      SplitJoin(ls, '\n');
      CleanConcat(ls, Split(raw, '\n'));
      CleanLines(ls);
    }
  }

  /** Text on one line extends the last piece. */
  lemma SplitExtended(text: string, more: string) returns (front: seq<string>, last: string)
    requires '\n' !in more
    ensures Split(text, '\n') == front + [last]
    ensures Split(text + more, '\n') == front + [last + more]
  {
    hide Split;
    var ps := Split(text, '\n');
    front, last := ps[..|ps| - 1], ps[|ps| - 1];
    assert ps == front + [last];
    JoinSplit(text, '\n');
    SplitPieces(text, '\n');
    assert last in ps;
    assert '\n' !in last + more;
    assert Split(last + more, '\n') == [last + more];
    if front == [] {
      assert ps == [last] && text == last;
    } else {
      Names.JoinConcat(front, [last], "\n");
      assert text + more == Join(front, "\n") + ['\n'] + (last + more);
      SplitConcat(Join(front, "\n"), '\n', last + more);
      SplitJoin(front, '\n');
    }
  }

  lemma {:induction false} CleanMembers(pieces: seq<string>, line: string)
    requires line in Clean(pieces)
    ensures exists p :: p in pieces && line == Trim(p)
  {
    if pieces != [] {
      assert pieces == [pieces[0]] + pieces[1..];
      if line in Clean(pieces[1..]) {
        CleanMembers(pieces[1..], line);
        var p :| p in pieces[1..] && line == Trim(p);
        assert p in pieces;
      } else {
        assert pieces[0] in pieces;
      }
    }
  }

  /** The lines that an alias leaves, whatever padding its local part has, record nothing or
      exactly its destinations. */
  lemma AliasLineReads(local: string, dests: seq<string>, line: string)
    requires ':' !in local && GoodDests(dests) && dests != []
    requires line in Clean(Split(AliasLine(local, dests), '\n'))
    ensures Recorded(line) == [] || Recorded(line) == dests
  {
    hide Split, Clean, Trim, TrimLeft, Cut, DestsOf;
    var j := Join(dests, ", ");
    JoinEnds(dests);
    var front, last := SplitExtended(local, ": " + j);
    assert AliasLine(local, dests) == local + (": " + j);
    CleanMembers(front + [last + (": " + j)], line);
    var p :| p in front + [last + (": " + j)] && line == Trim(p);
    SplitChars(local, '\n', ':');
    assert forall q :: q in front + [last] ==> q in Split(local, '\n');
    assert last in front + [last];
    if p in front {
      assert p in front + [last];
      if ':' in Trim(p) {
        TrimChars(p, ':');
      }
      CutParts(line, ':');
    } else {
      assert p == last + ": " + j;
      TrimAliasLine(last, j);
      if ':' in TrimLeft(last) {
        TrimLeftChars(last, ':');
      }
      CutConcat(TrimLeft(last), ':', " " + j);
      assert line == TrimLeft(last) + [':'] + (" " + j);
      DestsSplit(dests);
    }
  }

  /** The lines after a write: lines that were there, and lines that record the destinations. */
  lemma WrittenLines(text: string, op: Op, line: string)
    requires ':' !in op.local && GoodDests(op.dests) && line in Lines(SetAlias(text, op))
    ensures line in Lines(text) || Recorded(line) == [] || Recorded(line) == op.dests
  {
    hide Lines, Render, Drop, Recorded, Split, Clean;
    var kept := Drop(Lines(text), {Lower(op.local)});
    LinesAreLines(text);
    DropMembers(Lines(text), {Lower(op.local)});
    if op.dests == [] {
      assert SetLines(Lines(text), op) == kept;
      LinesRender(kept);
    } else {
      assert SetLines(Lines(text), op) == kept + [AliasLine(op.local, op.dests)];
      LinesThen(kept, AliasLine(op.local, op.dests));
      if line !in kept {
        AliasLineReads(op.local, op.dests, line);
      }
    }
  }

  // ---------- The invariant on files ----------

  /** Every destination the line records belongs to the organization. */
  predicate RoutedLine(rows: map<string, Identity>, org: string, line: string) {
    InOrg(rows, org, Recorded(line))
  }

  /** A line not there from the start routes to some organization that registered the name. */
  ghost predicate LineOk(rows: map<string, Identity>, ds: Domains, before: map<string, string>, fqdn: string,
      line: string)
  {
    line in Lines(TextOf(before, fqdn)) ||
    exists id :: id in ds && ds[id].fqdn == fqdn && RoutedLine(rows, ds[id].org, line)
  }

  ghost predicate FileOk(rows: map<string, Identity>, ds: Domains, before: map<string, string>,
      files: map<string, string>, fqdn: string)
  {
    forall l :: l in Lines(TextOf(files, fqdn)) ==> LineOk(rows, ds, before, fqdn, l)
  }

  ghost predicate FilesOk(s: State, ds: Domains, before: map<string, string>) {
    forall fqdn :: FileOk(s.world.identities, ds, before, s.world.files, fqdn)
  }

  /** Addresses as address building yields them for unpadded local parts. */
  predicate PlainAddresses(rows: map<string, Identity>) {
    forall id :: id in rows ==> GoodDest(rows[id].address)
  }

  lemma LineGrows(rows: map<string, Identity>, rows': map<string, Identity>, ds: Domains, before: map<string, string>,
      fqdn: string, line: string)
    requires Grows(rows, rows') && LineOk(rows, ds, before, fqdn, line)
    ensures LineOk(rows', ds, before, fqdn, line)
  {
    hide InOrg, Grows, TextOf, Lines, Recorded;
    if line !in Lines(TextOf(before, fqdn)) {
      var id :| id in ds && ds[id].fqdn == fqdn && RoutedLine(rows, ds[id].org, line);
      InOrgGrows(rows, rows', ds[id].org, Recorded(line));
      assert RoutedLine(rows', ds[id].org, line);
    }
  }

  lemma IdentitiesKeepFiles(s: State, ds: Domains, before: map<string, string>, rows': map<string, Identity>)
    requires FilesOk(s, ds, before) && Grows(s.world.identities, rows')
    ensures FilesOk(WithIdentities(s, rows'), ds, before)
  {
    hide LineOk, Grows, Lines, TextOf;
    forall fqdn
      ensures FileOk(rows', ds, before, s.world.files, fqdn)
    {
      assert FileOk(s.world.identities, ds, before, s.world.files, fqdn);
      forall l | l in Lines(TextOf(s.world.files, fqdn))
        ensures LineOk(rows', ds, before, fqdn, l)
      {
        LineGrows(s.world.identities, rows', ds, before, fqdn, l);
      }
    }
  }

  lemma PlainDests(rows: map<string, Identity>, org: string, dests: seq<string>)
    requires InOrg(rows, org, dests) && PlainAddresses(rows)
    ensures GoodDests(dests)
  {
    hide GoodDest;
    forall x | x in dests
      ensures GoodDest(x)
    {
      assert HasAddress(rows, org, x);
    }
  }

  lemma WriteKeepsFile(rows: map<string, Identity>, ds: Domains, before: map<string, string>,
      files: map<string, string>, d: MailDomain, op: Op, outcome: WriteOutcome, fqdn: string)
    requires KnownDomain(ds, d) && ':' !in op.local && InOrg(rows, d.org, op.dests) && PlainAddresses(rows)
    requires FileOk(rows, ds, before, files, fqdn)
    ensures FileOk(rows, ds, before, EnsureAlias(files, d.fqdn, op, outcome), fqdn)
  {
    hide InOrg, Lines, SetAlias, GoodDests, PlainAddresses, Recorded;
    var files' := EnsureAlias(files, d.fqdn, op, outcome);
    if fqdn == d.fqdn && outcome != NotWritten {
      PlainDests(rows, d.org, op.dests);
      var text := if outcome == WrittenUnread then "" else TextOf(files, fqdn);
      assert TextOf(files', fqdn) == SetAlias(text, op);
      forall l | l in Lines(TextOf(files', fqdn))
        ensures LineOk(rows, ds, before, fqdn, l)
      {
        WrittenLines(text, op, l);
        NoLines();
        if l !in Lines(text) {
          NoDests(rows, d.org);
          assert RoutedLine(rows, d.org, l);
        }
      }
    } else {
      assert TextOf(files', fqdn) == TextOf(files, fqdn);
    }
  }

  lemma NoDests(rows: map<string, Identity>, org: string)
    ensures InOrg(rows, org, [])
  {
  }

  /** The only commands that touch a file write validated destinations. */
  lemma CommandFiles(s: State, ds: Domains, pid: string, cmd: Command, fqdn: string, before: map<string, string>)
    requires Inv(s, ds) && PlainAddresses(s.world.identities) && Act(s, ds, pid, cmd).Some?
    requires FileOk(s.world.identities, ds, before, s.world.files, fqdn)
    ensures FileOk(s.world.identities, ds, before, Act(s, ds, pid, cmd).value.files, fqdn)
  {
    hide Inv, InOrg, FileOk, EnsureAlias, PlainAddresses, KnownDomain, Tracks, ValidLocal, Conflicts, AddressesOf;
    if cmd.WriteFile? {
      ProcAt(s, ds, pid);
      var p := s.procs[pid];
      if p.Passing? {
        assert RowOk(s.world.identities, ds, p.listed[p.turn.id]);
        WriteKeepsFile(s.world.identities, ds, before, s.world.files, p.d,
          Op(p.listed[p.turn.id].local, p.turn.dests), cmd.outcome, fqdn);
      } else {
        WriteKeepsFile(s.world.identities, ds, before, s.world.files, p.d, Op(p.local, p.dests), cmd.outcome, fqdn);
      }
    }
  }

  lemma NextKeepsFiles(s: State, ds: Domains, before: map<string, string>, step: Step)
    requires Inv(s, ds) && PlainAddresses(s.world.identities) && FilesOk(s, ds, before)
    requires step.CreateIdentity? ==> GoodDest(step.row.address)
    ensures PlainAddresses(Next(s, ds, step).world.identities) && FilesOk(Next(s, ds, step), ds, before)
  {
    hide Inv, Act, FileOk, Grows, GoodDest;
    match step
    case Do(pid, cmd) =>
      if Act(s, ds, pid, cmd).Some? {
        forall fqdn
          ensures FileOk(s.world.identities, ds, before, Act(s, ds, pid, cmd).value.files, fqdn)
        {
          assert FileOk(s.world.identities, ds, before, s.world.files, fqdn);
          CommandFiles(s, ds, pid, cmd, fqdn, before);
        }
      }
    case SetGroup(_, _) =>
    case _ =>
      NextGrows(s, ds, step);
      IdentitiesKeepFiles(s, ds, before, Next(s, ds, step).world.identities);
  }

  /** Identities are created with unpadded local parts. */
  predicate Unpadded(steps: seq<Step>) {
    forall i :: 0 <= i < |steps| && steps[i].CreateIdentity? ==> GoodDest(steps[i].row.address)
  }

  lemma {:induction false} RunKeepsFiles(s: State, ds: Domains, steps: seq<Step>)
    requires Initial(s) && Keyed(ds) && Unpadded(steps)
    ensures PlainAddresses(Exec(s, ds, steps).world.identities) && FilesOk(Exec(s, ds, steps), ds, s.world.files)
  {
    hide Next, Keyed, GoodDest, PlainAddresses;
    if steps == [] {
      StartFiles(s, ds);
    } else {
      var init, last := steps[..|steps| - 1], steps[|steps| - 1];
      RunKeepsFiles(s, ds, init);
      RunKeepsInv(s, ds, init);
      assert steps[|steps| - 1] == last;
      NextKeepsFiles(Exec(s, ds, init), ds, s.world.files, last);
    }
  }

  lemma StartFiles(s: State, ds: Domains)
    requires Initial(s)
    ensures PlainAddresses(s.world.identities) && FilesOk(s, ds, s.world.files)
  {
    hide Lines;
  }

  // ---------- Same-organization routing in the files ----------

  /** In every interleaving, a line of a domain name's alias file that was not there from the
      start records destinations of one organization that has registered the name, even when
      the row insertion that should have followed the write ended in a conflict. */
  lemma FilesStayWithRegistrants(s: State, ds: Domains, steps: seq<Step>, fqdn: string,
      line: string) returns (id: string)
    requires Initial(s) && Keyed(ds) && Unpadded(steps)
    requires line in Lines(TextOf(Exec(s, ds, steps).world.files, fqdn)) && line !in Lines(TextOf(s.world.files, fqdn))
    ensures id in ds && ds[id].fqdn == fqdn
    ensures forall x :: x in Recorded(line) ==> HasAddress(Exec(s, ds, steps).world.identities, ds[id].org, x)
  {
    hide Exec, Lines, Recorded, PlainAddresses;
    RunKeepsFiles(s, ds, steps);
    var rows := Exec(s, ds, steps).world.identities;
    assert FileOk(rows, ds, s.world.files, Exec(s, ds, steps).world.files, fqdn);
    assert LineOk(rows, ds, s.world.files, fqdn, line);
    id :| id in ds && ds[id].fqdn == fqdn && RoutedLine(rows, ds[id].org, line);
  }

  /** In this run a line was added to the file of the domain's name that records an address of
      no identity of the domain's organization. */
  ghost predicate Strays(s: State, ds: Domains, steps: seq<Step>, domainId: string, line: string, x: string) {
    && Initial(s) && Unpadded(steps) && domainId in ds
    && line in Lines(TextOf(Exec(s, ds, steps).world.files, ds[domainId].fqdn))
    && line !in Lines(TextOf(s.world.files, ds[domainId].fqdn))
    && x in Recorded(line) && !HasAddress(Exec(s, ds, steps).world.identities, ds[domainId].org, x)
  }

  ghost predicate FilesStayInOrganization(ds: Domains) {
    forall s, steps, domainId, line, x :: !Strays(s, ds, steps, domainId, line, x)
  }

  /** In every run the files of the domains stay within the domains' own organizations exactly
      when every domain name belongs to one organization. The schema allows two. */
  lemma FilesStayInOrganizationIff(ds: Domains)
    requires Keyed(ds)
    ensures FilesStayInOrganization(ds) <==> OneOrgPerFqdn(ds)
  {
    hide Exec, Lines, Recorded, Unpadded;
    if OneOrgPerFqdn(ds) {
      forall s, steps, domainId, line, x
        ensures !Strays(s, ds, steps, domainId, line, x)
      {
        if Strays(s, ds, steps, domainId, line, x) {
          var id := FilesStayWithRegistrants(s, ds, steps, ds[domainId].fqdn, line);
        }
      }
    } else {
      var a, b :| a in ds && b in ds && ds[a].fqdn == ds[b].fqdn && ds[a].org != ds[b].org;
      var s, steps, line := SharedNameMixesOrganizations(ds, a, b);
    }
  }

  // ---------- Running several steps ----------

  lemma ExecSnoc(s: State, ds: Domains, steps: seq<Step>, step: Step)
    ensures Exec(s, ds, steps + [step]) == Next(Exec(s, ds, steps), ds, step)
  {
    hide Next;
    assert (steps + [step])[..|steps|] == steps;
  }

  lemma Exec4(s: State, ds: Domains, a: Step, b: Step, c: Step, d: Step)
    ensures Exec(s, ds, [a, b, c, d]) == Next(Next(Next(Next(s, ds, a), ds, b), ds, c), ds, d)
  {
    hide Next, Exec;
    ExecSnoc(s, ds, [], a);
    ExecSnoc(s, ds, [a], b);
    ExecSnoc(s, ds, [a, b], c);
    ExecSnoc(s, ds, [a, b, c], d);
    assert [] + [a] == [a] && [a] + [b] == [a, b] && [a, b] + [c] == [a, b, c] && [a, b, c] + [d] == [a, b, c, d];
    ExecNone(s, ds);
  }

  lemma ExecNone(s: State, ds: Domains)
    ensures Exec(s, ds, []) == s
  {
  }

  lemma Exec6(s: State, ds: Domains, a: Step, b: Step, c: Step, d: Step, e: Step, f: Step)
    ensures Exec(s, ds, [a, b, c, d, e, f]) ==
      Next(Next(Next(Next(Next(Next(s, ds, a), ds, b), ds, c), ds, d), ds, e), ds, f)
  {
    hide Next, Exec;
    Exec4(s, ds, a, b, c, d);
    ExecSnoc(s, ds, [a, b, c, d], e);
    ExecSnoc(s, ds, [a, b, c, d, e], f);
    assert [a, b, c, d] + [e] == [a, b, c, d, e] && [a, b, c, d, e] + [f] == [a, b, c, d, e, f];
  }

  // ---------- A name shared by two organizations ----------

  const MAILBOX := "m@x"

  function SharedSteps(d: MailDomain, domainId: string): seq<Step> {
    [CreateIdentity("i", Identity(d.org, None, d.id, MAILBOX, Requested)),
      Do("p", Open(domainId, None, "a", [MAILBOX])),
     Do("p", Validate), Do("p", WriteFile(Written))]
  }

  /** When two organizations have registered one name, a run from an empty platform writes an
      alias of the first into the file that the domain of the second uses. */
  lemma SharedNameMixesOrganizations(ds: Domains, a: string, b: string) returns (s: State, steps: seq<Step>,
      line: string)
    requires a in ds && b in ds && ds[a].fqdn == ds[b].fqdn && ds[a].org != ds[b].org
    ensures Strays(s, ds, steps, b, line, MAILBOX)
  {
    hide Exec, Lines, Recorded, EnsureAlias, GoodDest;
    var d := ds[a];
    s := State(World(map[], map[], map[]), map[], map[]);
    steps := SharedSteps(d, a);
    var op := Op("a", [MAILBOX]);
    line := AliasLine("a", [MAILBOX]);
    SharedRun(s, ds, a);
    PlainMailbox();
    NoLines();
    SharedLine(op, line);
    var t := Exec(s, ds, steps);
    assert t.world.files == EnsureAlias(map[], d.fqdn, op, Written);
    EnsuredText(d.fqdn, op);
    assert !HasAddress(t.world.identities, ds[b].org, MAILBOX);
  }

  lemma EnsuredText(fqdn: string, op: Op)
    ensures TextOf(EnsureAlias(map[], fqdn, op, Written), fqdn) == SetAlias("", op) && TextOf(map[], fqdn) == ""
  {
  }

  lemma PlainMailbox()
    ensures GoodDest(MAILBOX) && ValidLocal("a") && Stored("a") == "a"
  {
    assert Trim("a") == "a";
    assert Lower("a") == "a";
  }

  lemma SharedLine(op: Op, line: string)
    requires op == Op("a", [MAILBOX]) && line == AliasLine("a", [MAILBOX])
    ensures line in Lines(SetAlias("", op)) && Recorded(line) == [MAILBOX]
  {
    PlainMailbox();
    assert GoodOp(op);
    NoLines();
    LinesAreLines("");
    SetLinesAreLines(Lines(""), op);
    assert Added(op) == [line] && line in SetLines(Lines(""), op);
    AliasLineKey("a", [MAILBOX]);
    DestsSplit([MAILBOX]);
  }

  lemma SharedRun(s: State, ds: Domains, a: string)
    requires a in ds && s == State(World(map[], map[], map[]), map[], map[])
    ensures var t := Exec(s, ds, SharedSteps(ds[a], a));
      && t.world.files == EnsureAlias(map[], ds[a].fqdn, Op("a", [MAILBOX]), Written)
      && t.world.identities == map["i" := Identity(ds[a].org, None, ds[a].id, MAILBOX, Requested)]
  {
    hide Exec, EnsureAlias, ValidLocal, Stored;
    var d := ds[a];
    var row := Identity(d.org, None, d.id, MAILBOX, Requested);
    PlainMailbox();
    Exec4(s, ds, CreateIdentity("i", row), Do("p", Open(a, None, "a", [MAILBOX])), Do("p", Validate),
      Do("p", WriteFile(Written)));
    var s1 := WithIdentities(s, map["i" := row]);
    assert Next(s, ds, CreateIdentity("i", row)) == s1;
    var s2 := s1.(procs := map["p" := Drafted(d, None, "a", [MAILBOX])]);
    assert Next(s1, ds, Do("p", Open(a, None, "a", [MAILBOX]))) == s2;
    assert HasAddress(s2.world.identities, d.org, MAILBOX);
    var s3 := s1.(procs := map["p" := Validated(d, None, "a", [MAILBOX])]);
    assert Next(s2, ds, Do("p", Validate)) == s3;
  }

  // ---------- A turn of the loop, uninterrupted ----------

  function EnvOf(s: State, order: seq<string>): Env {
    Env([], order, map g | g in s.groups :: s.groups[g].members, {})
  }

  /** Uninterrupted and with its queries answered, the statements of a turn are the turn of the
      reconciliation loop. */
  lemma TurnAlone(s: State, ds: Domains, pid: string, d: MailDomain, listed: map<string, Alias>, id: string,
      order: seq<string>, calls: Calls)
    requires pid in s.procs && s.procs[pid] == Passing(d, listed, Idle)
    requires id in listed && listed[id].domainId == d.id && listed[id].active
    requires calls.members(id) && calls.identitiesByUsers(id)
    ensures Exec(s, ds, [Do(pid, Pick(id)), Do(pid, ReadIdentities(order)), Do(pid, UpdateRow(calls.updateRow(id))),
        Do(pid, WriteFile(calls.ensureAlias(id)))]).world
      == AliasStep(EnvOf(s, order), calls, d, id, listed[id], Progress(s.world, 0, 0)).world
  {
    hide Exec, EnsureAlias, ActiveAddresses;
    Exec4(s, ds, Do(pid, Pick(id)), Do(pid, ReadIdentities(order)), Do(pid, UpdateRow(calls.updateRow(id))),
      Do(pid, WriteFile(calls.ensureAlias(id))));
    var a := listed[id];
    if a.group.None? {
      var s1 := s.(procs := s.procs[pid := Passing(d, listed, ToWrite(id, a.destinations))]);
      assert Next(s, ds, Do(pid, Pick(id))) == s1;
      assert Next(s1, ds, Do(pid, ReadIdentities(order))) == s1;
      assert Next(s1, ds, Do(pid, UpdateRow(calls.updateRow(id)))) == s1;
    } else {
      var users := MembersOf(s, a.group.value);
      var s1 := s.(procs := s.procs[pid := Passing(d, listed, HasMembers(id, users))]);
      assert Next(s, ds, Do(pid, Pick(id))) == s1;
      BoundTurn(s1, ds, pid, d, listed, id, users, order, calls);
      assert users == Members(EnvOf(s, order), a.group.value);
    }
  }

  predicate AtWrite(p: Proc) {
    p.Passing? && p.turn.ToWrite? && p.turn.id in p.listed
  }

  /** A pass begins by listing the rows of the moment, and a turn ends with its write, or where
      a lookup fails. */
  lemma PassesBeginAndTurnsEnd(s: State, ds: Domains, pid: string, domainId: string, outcome: WriteOutcome)
    ensures pid !in s.procs && domainId in ds ==>
      Next(s, ds, Do(pid, BeginPass(domainId))) ==
        s.(procs := s.procs[pid := Passing(ds[domainId], s.world.aliases, Idle)])
    ensures pid in s.procs && s.procs[pid].Passing? ==>
      Next(s, ds, Do(pid, Skip)) == s.(procs := s.procs[pid := s.procs[pid].(turn := Idle)])
    ensures pid in s.procs && AtWrite(s.procs[pid]) ==>
      Next(s, ds, Do(pid, WriteFile(outcome))).procs == s.procs[pid := s.procs[pid].(turn := Idle)]
  {
    hide EnsureAlias;
  }

  predicate IsNew(rows: map<string, Identity>, address: string) {
    forall i :: i in rows ==> rows[i].address != address
  }

  /** What other requests change in between: an identity comes with a new address, statuses and
      groups change. */
  lemma OthersChange(s: State, ds: Domains, id: string, row: Identity, status: Status, group: Group)
    ensures id !in s.world.identities && IsNew(s.world.identities, row.address) ==>
      Next(s, ds, CreateIdentity(id, row)).world.identities == s.world.identities[id := row]
    ensures id in s.world.identities ==>
      Next(s, ds, SetStatus(id, status)).world.identities ==
        s.world.identities[id := s.world.identities[id].(status := status)]
    ensures Next(s, ds, SetGroup(id, group)).groups == s.groups[id := group]
  {
  }

  /** Aliases that are not active, and those of other domains, have no turn. */
  lemma OthersHaveNoTurn(s: State, ds: Domains, pid: string, d: MailDomain, listed: map<string, Alias>, id: string)
    requires pid in s.procs && s.procs[pid] == Passing(d, listed, Idle)
    requires id in listed ==> !listed[id].active || listed[id].domainId != d.id
    ensures Next(s, ds, Do(pid, Pick(id))) == s
  {
  }

  lemma BoundTurn(s: State, ds: Domains, pid: string, d: MailDomain, listed: map<string, Alias>, id: string,
      users: seq<string>, order: seq<string>, calls: Calls)
    requires pid in s.procs && s.procs[pid] == Passing(d, listed, HasMembers(id, users)) && id in listed
    ensures var dests := AddressesOf(s, d.org, users, order);
      Next(Next(Next(s, ds, Do(pid, ReadIdentities(order))), ds, Do(pid, UpdateRow(calls.updateRow(id)))), ds,
        Do(pid, WriteFile(calls.ensureAlias(id)))).world
      == World(if calls.updateRow(id) then SetDestinations(s.world.aliases, id, dests) else s.world.aliases,
           s.world.identities, EnsureAlias(s.world.files, d.fqdn, Op(listed[id].local, dests), calls.ensureAlias(id)))
  {
    hide EnsureAlias, ActiveAddresses, AddressesOf, SetDestinations;
    var dests := AddressesOf(s, d.org, users, order);
    var s1 := s.(procs := s.procs[pid := Passing(d, listed, HasAddresses(id, dests))]);
    assert Next(s, ds, Do(pid, ReadIdentities(order))) == s1;
    var e := DoUpdate(s1, s1.procs[pid], id, dests, calls.updateRow(id));
    var s2 := Apply(s1, pid, e);
    assert Next(s1, ds, Do(pid, UpdateRow(calls.updateRow(id)))) == s2;
    assert s2.procs[pid] == Passing(d, listed, ToWrite(id, dests));
  }

  // ---------- The handler, uninterrupted ----------

  /** A request that ended, or that needs no group, takes no such step. */
  lemma Skips(s: State, ds: Domains, pid: string, order: seq<string>, outcome: WriteOutcome, id: string)
    requires pid in s.procs && (s.procs[pid].Done? || s.procs[pid].Drafted?)
    ensures Next(s, ds, Do(pid, ReadMembers)) == s
    ensures Next(s, ds, Do(pid, ReadIdentities(order))) == s
    ensures s.procs[pid].Done? ==> Next(s, ds, Do(pid, Validate)) == s
    ensures s.procs[pid].Done? ==> Next(s, ds, Do(pid, WriteFile(outcome))) == s
    ensures s.procs[pid].Done? ==> Next(s, ds, Do(pid, Insert(id))) == s
  {
  }

  lemma StepRuns(s: State, ds: Domains, pid: string, cmd: Command)
    requires Act(s, ds, pid, cmd).Some?
    ensures Next(s, ds, Do(pid, cmd)) == Apply(s, pid, Act(s, ds, pid, cmd).value)
  {
  }

  predicate GroupFits(s: State, d: MailDomain, bound: Option<string>) {
    bound.Some? ==> bound.value in s.groups && s.groups[bound.value].org == d.org
  }

  /** The destinations of a request: given, or derived from its group. */
  function Destinations(s: State, d: MailDomain, bound: Option<string>, given: seq<string>,
      order: seq<string>): seq<string>
  {
    match bound
    case None => given
    case Some(g) => AddressesOf(s, d.org, MembersOf(s, g), order)
  }

  /** Every statement of the request succeeds. */
  predicate Creates(s: State, ds: Domains, d: MailDomain, bound: Option<string>, local: string, given: seq<string>,
      order: seq<string>, outcome: WriteOutcome)
  {
    && Names.DotAtom(Trim(local)) && GroupFits(s, d, bound) && (bound.Some? || given != [])
    && InOrg(s.world.identities, d.org, Destinations(s, d, bound, given, order))
    && (outcome == Written || outcome == WrittenUnread) && AddressFree(s.world.aliases, ds, d, local)
  }

  /** No row has this local part in lower case, in this domain or one of the same name. */
  predicate AddressFree(rows: map<string, Alias>, ds: Domains, d: MailDomain, local: string) {
    forall id :: id in rows && rows[id].local == Lower(local) ==>
      rows[id].domainId != d.id && (rows[id].domainId in ds ==> ds[rows[id].domainId].fqdn != d.fqdn)
  }

  lemma FreeIff(rows: map<string, Alias>, ds: Domains, d: MailDomain, local: string)
    ensures AddressFree(rows, ds, d, local) <==> !Conflicts(rows, ds, d, Stored(local))
  {
  }

  /** One active row was added, for this domain and group, under the local part in lower case. */
  predicate RowCreated(rows: map<string, Alias>, rows': map<string, Alias>, id: string, d: MailDomain,
      bound: Option<string>, local: string)
  {
    && rows'.Keys == rows.Keys + {id} && (forall i :: i in rows && i != id ==> rows'[i] == rows[i])
    && rows'[id].domainId == d.id && rows'[id].group == bound && rows'[id].active
    && EqualFold(rows'[id].local, local) && forall c :: c in rows'[id].local ==> !('A' <= c <= 'Z')
  }

  /** Given destinations are taken as they are; a group of the organization is asked for the
      addresses of its members. */
  ghost predicate Routes(dests: seq<string>, rows: map<string, Identity>, groups: map<string, Group>, d: MailDomain,
      bound: Option<string>, given: seq<string>, order: seq<string>)
  {
    match bound
    case None => dests == given
    case Some(g) =>
      g in groups && groups[g].org == d.org && MemberAddresses(dests, rows, order, d.org, groups[g].members)
  }

  /** The tables an alias request works on; its stage is ghost. */
  class AliasHandler {
    const ds: Domains
    var world: World
    var groups: map<string, Group>
    ghost var procs: map<string, Proc>

    ghost function Snapshot(): State
      reads this
    {
      State(world, groups, procs)
    }

    /** The addresses of the group members' active identities, in query order. */
    method GroupDestinations(order: seq<string>, org: string, users: seq<string>) returns (dests: seq<string>)
      ensures dests == ActiveAddresses(world.identities, order, org, users)
      ensures MemberAddresses(dests, world.identities, order, org, users)
    {
      dests := [];
      for i := 0 to |order|
        invariant dests == ActiveAddresses(world.identities, order[..i], org, users)
      {
        assert order[..i + 1][..i] == order[..i];
        var id := order[i];
        if id in world.identities && world.identities[id].org == org && world.identities[id].status == Active
           && world.identities[id].user.Some? && world.identities[id].user.value in users {
          dests := dests + [world.identities[id].address];
        }
      }
      assert order[..|order|] == order;
      ActiveAddressesAre(world.identities, order, org, users);
    }

    /** The row of an address, if any. */
    method GetMailIdentityByAddress(order: seq<string>, address: string) returns (r: Option<Identity>)
      requires forall id :: id in order <==> id in world.identities
      requires AddressUnique(world.identities)
      ensures r.Some? ==>
        exists id :: id in world.identities && world.identities[id] == r.value && r.value.address == address
      ensures r.None? ==> forall id :: id in world.identities ==> world.identities[id].address != address
    {
      for i := 0 to |order|
        invariant forall j :: 0 <= j < i ==> world.identities[order[j]].address != address
      {
        if world.identities[order[i]].address == address {
          return Some(world.identities[order[i]]);
        }
      }
      return None;
    }

    /** Accepts exactly the lists of which every destination is the address of an identity
        of the organization; the status of the identity does not matter. */
    method ValidateAliasDestinations(order: seq<string>, org: string, dests: seq<string>) returns (ok: bool)
      requires forall id :: id in order <==> id in world.identities
      requires AddressUnique(world.identities)
      ensures ok <==> InOrg(world.identities, org, dests)
    {
      for i := 0 to |dests|
        invariant InOrg(world.identities, org, dests[..i])
      {
        var found := GetMailIdentityByAddress(order, dests[i]);
        assert dests[i] in dests;
        if found.None? || found.value.org != org {
          return false;
        }
        assert dests[..i + 1] == dests[..i] + [dests[i]];
      }
      assert dests[..|dests|] == dests;
      return true;
    }

    /** The destinations, given or read from the group. */
    method TakeDestinations(ghost pid: string, domainId: string, bound: Option<string>, local: string,
        given: seq<string>, order: seq<string>) returns (dests: Option<seq<string>>)
      requires pid !in procs && domainId in ds
      modifies this`procs
      ensures Snapshot() == Next(Next(Next(old(Snapshot()), ds, Do(pid, Open(domainId, bound, local, given))), ds,
        Do(pid, ReadMembers)), ds, Do(pid, ReadIdentities(order)))
      ensures dests.Some? <==>
        ValidLocal(local) && GroupFits(old(Snapshot()), ds[domainId], bound) && (bound.Some? || given != [])
      ensures dests.Some? ==> dests.value == Destinations(old(Snapshot()), ds[domainId], bound, given, order)
      ensures dests.Some? ==> Routes(dests.value, world.identities, groups, ds[domainId], bound, given, order)
      ensures pid in procs
      ensures procs[pid] == if dests.Some? then Drafted(ds[domainId], bound, Stored(local), dests.value) else Done
    {
      hide Next, Act, Conflicts, ValidLocal, Stored, ActiveAddresses, MemberAddresses;
      var d := ds[domainId];
      OpenRuns(Snapshot(), ds, pid, domainId, bound, local, given);
      if bound.None? {
        var ok := given != [] && ValidLocal(local);
        procs := procs[pid := if ok then Drafted(d, None, Stored(local), given) else Done];
        Skips(Snapshot(), ds, pid, order, Written, "");
        return if ok then Some(given) else None;
      }
      var g := bound.value;
      if g !in groups || groups[g].org != d.org {
        procs := procs[pid := Done];
        Skips(Snapshot(), ds, pid, order, Written, "");
        return None;
      }
      procs := procs[pid := GroupFound(d, g, local)];
      var users := groups[g].members;
      GroupRuns(Snapshot(), ds, pid, d, g, local, order);
      var list := GroupDestinations(order, d.org, users);
      procs := procs[pid := if ValidLocal(local) then Drafted(d, bound, Stored(local), list) else Done];
      return if ValidLocal(local) then Some(list) else None;
    }

    method Check(ghost pid: string, d: MailDomain, ghost bound: Option<string>, ghost local: string, dests: seq<string>,
        order: seq<string>) returns (ok: bool)
      requires pid in procs && procs[pid] == Drafted(d, bound, local, dests)
      requires AddressUnique(world.identities) && forall i :: i in order <==> i in world.identities
      modifies this`procs
      ensures Snapshot() == Next(old(Snapshot()), ds, Do(pid, Validate))
      ensures ok <==> InOrg(world.identities, d.org, dests)
      ensures pid in procs && procs[pid] == if ok then Validated(d, bound, local, dests) else Done
    {
      hide Next, InOrg;
      StepRuns(Snapshot(), ds, pid, Validate);
      ok := ValidateAliasDestinations(order, d.org, dests);
      procs := procs[pid := if ok then Validated(d, bound, local, dests) else Done];
    }

    method Write(ghost pid: string, d: MailDomain, ghost bound: Option<string>, local: string, dests: seq<string>,
        outcome: WriteOutcome) returns (ok: bool)
      requires pid in procs && procs[pid] == Validated(d, bound, local, dests)
      modifies this`procs, this`world
      ensures Snapshot() == Next(old(Snapshot()), ds, Do(pid, WriteFile(outcome)))
      ensures ok <==> Succeeds(outcome)
      ensures world.aliases == old(world).aliases && world.identities == old(world).identities
      ensures groups == old(groups)
      ensures pid in procs && procs[pid] == if ok then Filed(d, bound, local, dests) else Done
    {
      hide Next, EnsureAlias;
      StepRuns(Snapshot(), ds, pid, WriteFile(outcome));
      world := world.(files := EnsureAlias(world.files, d.fqdn, Op(local, dests), outcome));
      ok := outcome == Written || outcome == WrittenUnread;
      procs := procs[pid := if ok then Filed(d, bound, local, dests) else Done];
    }

    method InsertRow(ghost pid: string, d: MailDomain, bound: Option<string>, local: string, dests: seq<string>,
        id: string)
        returns (ok: bool)
      requires pid in procs && procs[pid] == Filed(d, bound, local, dests) && id !in world.aliases
      modifies this`procs, this`world
      ensures Snapshot() == Next(old(Snapshot()), ds, Do(pid, Insert(id)))
      ensures ok <==> !Conflicts(old(world).aliases, ds, d, local)
      ensures world.aliases == if ok then old(world).aliases[id := Alias(d.id, bound, local, dests, true)]
                               else old(world).aliases
      ensures world.identities == old(world).identities && world.files == old(world).files
    {
      hide Next, Conflicts;
      StepRuns(Snapshot(), ds, pid, Insert(id));
      procs := procs[pid := Done];
      ok := !Conflicts(world.aliases, ds, d, local);
      if ok {
        world := world.(aliases := world.aliases[id := Alias(d.id, bound, local, dests, true)]);
      }
    }

    /** Creates an alias: take or derive the destinations, validate them, write the file, then
        insert the row. Uninterrupted, it is the run of its statements, and it succeeds exactly
        when every one of them does. */
    method CreateMailAlias(ghost pid: string, domainId: string, bound: Option<string>, local: string,
        given: seq<string>, order: seq<string>, id: string, outcome: WriteOutcome) returns (created: bool)
      requires pid !in procs && domainId in ds && id !in world.aliases
      requires AddressUnique(world.identities) && forall i :: i in order <==> i in world.identities
      modifies this
      ensures Snapshot() == Exec(old(Snapshot()), ds,
        [Do(pid, Open(domainId, bound, local, given)), Do(pid, ReadMembers),
        Do(pid, ReadIdentities(order)), Do(pid, Validate), Do(pid, WriteFile(outcome)), Do(pid, Insert(id))])
      ensures created <==> Creates(old(Snapshot()), ds, ds[domainId], bound, local, given, order, outcome)
      ensures world.identities == old(world).identities && groups == old(groups)
      ensures !created ==> world.aliases == old(world).aliases
      ensures created ==> RowCreated(old(world).aliases, world.aliases, id, ds[domainId], bound, local)
      ensures created ==>
        Routes(world.aliases[id].destinations, world.identities, groups, ds[domainId], bound, given, order)
    {
      hide Routes, RowCreated, AddressFree;
      FreeIff(world.aliases, ds, ds[domainId], local);
      ValidIs(local);
      hide Next, Exec, InOrg, ValidLocal, Stored, AddressUnique, Conflicts, Destinations, GroupFits;
      Exec6(Snapshot(), ds, Do(pid, Open(domainId, bound, local, given)), Do(pid, ReadMembers),
        Do(pid, ReadIdentities(order)), Do(pid, Validate), Do(pid, WriteFile(outcome)), Do(pid, Insert(id)));
      var d := ds[domainId];
      var dests := TakeDestinations(pid, domainId, bound, local, given, order);
      if dests.None? {
        Skips(Snapshot(), ds, pid, order, outcome, id);
        return false;
      }
      var valid := Check(pid, d, bound, Stored(local), dests.value, order);
      if !valid {
        Skips(Snapshot(), ds, pid, order, outcome, id);
        return false;
      }
      var written := Write(pid, d, bound, Stored(local), dests.value, outcome);
      if !written {
        Skips(Snapshot(), ds, pid, order, outcome, id);
        return false;
      }
      created := InsertRow(pid, d, bound, Stored(local), dests.value, id);
      if created {
        RowInserted(old(world).aliases, id, d, bound, local, dests.value);
      }
    }
  }

  lemma ValidIs(local: string)
    ensures ValidLocal(local) <==> Names.DotAtom(Trim(local))
  {
  }

  lemma RowInserted(rows: map<string, Alias>, id: string, d: MailDomain, bound: Option<string>, local: string,
      dests: seq<string>)
    ensures RowCreated(rows, rows[id := Alias(d.id, bound, Stored(local), dests, true)], id, d, bound, local)
  {
    LowerIs(local);
  }

  lemma OpenRuns(s: State, ds: Domains, pid: string, domainId: string, bound: Option<string>, local: string,
      given: seq<string>)
    requires pid !in s.procs && domainId in ds
    ensures Next(s, ds, Do(pid, Open(domainId, bound, local, given))) ==
      s.(procs := s.procs[pid := DoOpen(s, ds[domainId], bound, local, given).proc])
  {
    hide ValidLocal, Stored;
  }

  lemma GroupRuns(s: State, ds: Domains, pid: string, d: MailDomain, g: string, local: string, order: seq<string>)
    requires pid in s.procs && s.procs[pid] == GroupFound(d, g, local)
    ensures Next(Next(s, ds, Do(pid, ReadMembers)), ds, Do(pid, ReadIdentities(order))) == s.(procs := s.procs[pid :=
      if ValidLocal(local)
      then Drafted(d, Some(g), Stored(local), AddressesOf(s, d.org, MembersOf(s, g), order)) else Done])
  {
    hide ValidLocal, Stored, ActiveAddresses;
    var s1 := s.(procs := s.procs[pid := MembersRead(d, g, local, MembersOf(s, g))]);
    assert Next(s, ds, Do(pid, ReadMembers)) == s1;
  }
}
