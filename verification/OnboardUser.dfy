/** The composite onboarding call (internal/httpapi/onboard_handlers.go:44-253): user,
    membership, optional group and optional mailbox in one request, meant to be repeatable.
    Every lookup can fail to answer and every write be refused or its answer lost. */
module OnboardUser {
  import opened Text
  import opened Names
  import opened Invites
  import Provision
  import opened Replies

  datatype Group = Group(org: string, members: set<string>)

  /** A domain of an organization; `mail` is the status of its mail domain, if any. */
  datatype OrgDomain = OrgDomain(id: string, fqdn: string, verified: bool, mail: Option<string>)

  /** Users by email; roles by organization and user; an organization's domains in the order
      the store lists them; the mail tables and server. */
  datatype World = World(
    users: map<string, string>, roles: map<(string, string), Role>, groups: map<string, Group>,
    domains: map<string, seq<OrgDomain>>, mail: Provision.State)

  /** The request; `role` is as sent, where empty means member. */
  datatype Request = Request(
    actor: string, isAdmin: bool, org: string, email: string, role: string, group: string,
    mailbox: bool, local: string)

  /** Which lookups were answered: the actor's role, asked twice; the organization's domains
      and, by position in their list, their mail domains; the address; the user; the group. */
  datatype Lookups = Lookups(
    role: bool, owner: bool, domains: bool, mailDomains: set<nat>, address: bool, user: bool, group: bool)

  /** Fresh identifiers and secret, the replies of the calls, and the deployment. */
  datatype Env = Env(
    lookups: Lookups,
    userId: string, identityId: string, credentialId: string, secret: string,
    user: Reply, membership: Reply, member: Reply, mail: Provision.ProvisionReplies,
    mailConfigured: bool, toAscii: ToAscii, hasPort: PortSplit, fingerprint: string -> string)

  datatype Response = Rejected | Onboarded(user: string, secret: Option<string>)

  // ---------- Reading the request ----------

  function ParseRole(role: string): Option<Role> {
    if role == "" || role == "member" then Some(Member)
    else if role == "admin" then Some(Admin)
    else if role == "owner" then Some(Owner)
    else None
  }

  function RoleOf(w: World, org: string, user: string): Option<Role> {
    if (org, user) in w.roles then Some(w.roles[(org, user)]) else None
  }

  /** The actor may act in the organization, and grant this role. */
  predicate Authorized(w: World, r: Request, role: Role, asked: Lookups) {
    r.isAdmin ||
    (asked.role && RoleOf(w, r.org, r.actor).Some? && CanManage(RoleOf(w, r.org, r.actor).value, Admin) &&
     (role == Owner ==> asked.owner && CanManage(RoleOf(w, r.org, r.actor).value, Owner)))
  }

  predicate Usable(d: OrgDomain) {
    d.verified && d.mail == Some("active")
  }

  /** The position of the first verified domain with active mail among those whose mail
      domain lookup is answered; one that is not answered is passed over. */
  function FirstUsable(ds: seq<OrgDomain>, answered: set<nat>, from: nat): Option<nat>
    requires from <= |ds|
    decreases |ds| - from
  {
    if from == |ds| then None
    else if from in answered && Usable(ds[from]) then Some(from)
    else FirstUsable(ds, answered, from + 1)
  }

  method ActiveOrgMailDomain(ds: seq<OrgDomain>, answered: set<nat>) returns (found: Option<nat>)
    ensures found == FirstUsable(ds, answered, 0)
    ensures found.None? <==> forall i :: 0 <= i < |ds| ==> !(i in answered && Usable(ds[i]))
    ensures found.Some? ==> found.value < |ds| && found.value in answered && Usable(ds[found.value])
    ensures found.Some? ==> forall i :: 0 <= i < found.value ==> !(i in answered && Usable(ds[i]))
  {
    for i := 0 to |ds|
      invariant FirstUsable(ds, answered, 0) == FirstUsable(ds, answered, i)
      invariant forall j :: 0 <= j < i ==> !(j in answered && Usable(ds[j]))
    {
      if !ds[i].verified {
        continue;
      }
      if i !in answered || ds[i].mail != Some("active") {
        continue;
      }
      return Some(i);
    }
    return None;
  }

  function Email(r: Request): string {
    Lower(Trim(r.email))
  }

  function LocalPart(r: Request): string {
    if r.local != "" then r.local
    else
      var p := Cut(Email(r), '@');
      if p.Some? then p.value.0 else Email(r)
  }

  function DomainsOf(w: World, org: string): seq<OrgDomain> {
    if org in w.domains then w.domains[org] else []
  }

  /** The domain the search stops at; none when the list itself was not answered. */
  function Selected(w: World, org: string, asked: Lookups): Option<nat> {
    if !asked.domains then None else FirstUsable(DomainsOf(w, org), asked.mailDomains, 0)
  }

  lemma {:induction false} FirstUsableInRange(ds: seq<OrgDomain>, answered: set<nat>, from: nat)
    requires from <= |ds|
    ensures var i := FirstUsable(ds, answered, from);
      i.Some? ==> from <= i.value < |ds| && i.value in answered && Usable(ds[i.value])
    decreases |ds| - from
  {
    if from < |ds| {
      FirstUsableInRange(ds, answered, from + 1);
    }
  }

  /** The address at the domain in this position. */
  function AddressAt(w: World, r: Request, e: Env, i: nat): Option<string> {
    if i < |DomainsOf(w, r.org)| then BuildAddress(e.toAscii, e.hasPort, LocalPart(r), DomainsOf(w, r.org)[i].fqdn)
    else None
  }

  /** The mailbox address, when a usable domain is found and mail is set up. */
  function Target(w: World, r: Request, e: Env): Option<string> {
    var i := Selected(w, r.org, e.lookups);
    if i.None? || !e.mailConfigured then None else AddressAt(w, r, e, i.value)
  }

  /** What is decided before anything is written: the role, and the address if one is asked for. */
  function Plan(w: World, r: Request, e: Env): Option<(Role, string)> {
    var role := ParseRole(r.role);
    if Email(r) == "" || role.None? || !Authorized(w, r, role.value, e.lookups) then None
    else if !r.mailbox then Some((role.value, ""))
    else if Target(w, r, e).None? then None
    else Some((role.value, Target(w, r, e).value))
  }

  // ---------- The writes ----------

  function WithUser(w: World, r: Request, e: Env): (World, bool) {
    if !e.lookups.user then (w, false)
    else if Email(r) in w.users then (w, true)
    else if e.user == Refused then (w, false)
    else (w.(users := w.users[Email(r) := e.userId]), e.user == Applied)
  }

  function WithRole(w: World, org: string, user: string, role: Role, reply: Reply): (World, bool) {
    if reply == Refused then (w, false)
    else (w.(roles := w.roles[(org, user) := role]), reply == Applied)
  }

  function WithGroup(w: World, r: Request, user: string, answered: bool, reply: Reply): (World, bool) {
    if r.group == "" then (w, true)
    else if !answered || r.group !in w.groups || w.groups[r.group].org != r.org || reply == Refused then (w, false)
    else
      var g := w.groups[r.group];
      (w.(groups := w.groups[r.group := g.(members := g.members + {user})]), reply == Applied)
  }

  /** An identity is known to have the address; a lookup that fails counts as none. */
  predicate Existed(w: World, e: Env, address: string) {
    e.lookups.address && Provision.Taken(w.mail, address)
  }

  /** The mailbox: an identity known to exist when the request began is taken as it is. */
  function WithMailbox(w: World, r: Request, e: Env, address: string, existed: bool): (World, Option<Option<string>>) {
    if !r.mailbox || existed then (w, Some(None))
    else
      var (mail, ok) := Provision.Provisioned(
        w.mail, e.identityId, e.credentialId, r.org, address, e.secret, e.fingerprint, e.mail);
      (w.(mail := mail), if ok then Some(Some(e.secret)) else None)
  }

  /** User, role and group in turn; the user, when all of them are reported as done. */
  function Enroll(w: World, r: Request, e: Env, role: Role): (World, Option<string>) {
    var (w1, ok1) := WithUser(w, r, e);
    if !ok1 then (w1, None)
    else
      var user := w1.users[Email(r)];
      var (w2, ok2) := WithRole(w1, r.org, user, role, e.membership);
      if !ok2 then (w2, None)
      else
        var (w3, ok3) := WithGroup(w2, r, user, e.lookups.group, e.member);
        (w3, if ok3 then Some(user) else None)
  }

  function Onboard(w: World, r: Request, e: Env): (World, Response) {
    var plan := Plan(w, r, e);
    if plan.None? then (w, Rejected)
    else
      var (role, address) := plan.value;
      var (x, user) := Enroll(w, r, e, role);
      if user.None? then (x, Rejected)
      else
        var (t, secret) := WithMailbox(x, r, e, address, Existed(w, e, address));
        (t, if secret.Some? then Onboarded(user.value, secret.value) else Rejected)
  }

  class Handler {
    var w: World

    method OnboardUser(r: Request, e: Env) returns (response: Response)
      modifies this
      ensures (w, response) == Onboard(old(w), r, e)
    {
      var email := Email(r);
      var role := ParseRole(r.role);
      if email == "" || role.None? || !Authorized(w, r, role.value, e.lookups) {
        return Rejected;
      }
      var address, existed := "", false;
      if r.mailbox {
        var d: Option<nat> := None;
        if e.lookups.domains {
          d := ActiveOrgMailDomain(DomainsOf(w, r.org), e.lookups.mailDomains);
        }
        if d.None? || !e.mailConfigured {
          return Rejected;
        }
        var built := BuildAddress(e.toAscii, e.hasPort, LocalPart(r), DomainsOf(w, r.org)[d.value].fqdn);
        if built.None? {
          return Rejected;
        }
        address := built.value;
        existed := Existed(w, e, address);
      }
      if !e.lookups.user {
        return Rejected;
      }
      if email !in w.users {
        if e.user != Refused {
          w := w.(users := w.users[email := e.userId]);
        }
        if e.user != Applied {
          return Rejected;
        }
      }
      var user := w.users[email];
      if e.membership != Refused {
        w := w.(roles := w.roles[(r.org, user) := role.value]);
      }
      if e.membership != Applied {
        return Rejected;
      }
      if r.group != "" {
        if !e.lookups.group || r.group !in w.groups || w.groups[r.group].org != r.org {
          return Rejected;
        }
        if e.member != Refused {
          w := w.(groups := w.groups[r.group := w.groups[r.group].(members := w.groups[r.group].members + {user})]);
        }
        if e.member != Applied {
          return Rejected;
        }
      }
      if r.mailbox && !existed {
        var (mail, ok) := Provision.Provisioned(
          w.mail, e.identityId, e.credentialId, r.org, address, e.secret, e.fingerprint, e.mail);
        w := w.(mail := mail);
        if !ok {
          return Rejected;
        }
        return Onboarded(user, Some(e.secret));
      }
      return Onboarded(user, None);
    }
  }

  // ---------- What a success leaves ----------

  /** The user, its role and its place in the group are there. */
  predicate Enrolled(w: World, r: Request, user: string, role: Role) {
    && Email(r) in w.users && w.users[Email(r)] == user
    && RoleOf(w, r.org, user) == Some(role)
    && (r.group != "" ==> r.group in w.groups && w.groups[r.group].org == r.org && user in w.groups[r.group].members)
  }

  /** Everything the request asks for is there. */
  predicate Holds(w: World, r: Request, user: string, role: Role, address: string) {
    Enrolled(w, r, user, role) && (r.mailbox ==> Provision.Taken(w.mail, address))
  }

  lemma MailboxTaken(s: Provision.State, e: Env, org: string, address: string)
    requires var (t, ok) := Provision.Provisioned(s, e.identityId, e.credentialId, org, address, e.secret,
      e.fingerprint, e.mail); ok
    ensures var (t, ok) := Provision.Provisioned(s, e.identityId, e.credentialId, org, address, e.secret,
      e.fingerprint, e.mail);
      Provision.Taken(t, address)
  {
    var t := Provision.Provisioned(s, e.identityId, e.credentialId, org, address, e.secret, e.fingerprint, e.mail).0;
    assert e.identityId in t.identities && t.identities[e.identityId].address == address;
  }

  lemma SuccessIs(w: World, r: Request, e: Env)
    requires Onboard(w, r, e).1.Onboarded?
    ensures var (t, response) := Onboard(w, r, e);
      && Plan(w, r, e).Some?
      && var (role, address) := Plan(w, r, e).value;
         var made := WithMailbox(Enroll(w, r, e, role).0, r, e, address, Existed(w, e, address));
      t == made.0 && made.1 == Some(response.secret)
  {
    hide Plan, Email, WithMailbox, Existed;
  }

  lemma EnrolledPlatform(w: World, r: Request, e: Env)
    requires Onboard(w, r, e).1.Onboarded?
    ensures var response := Onboard(w, r, e).1;
      && Plan(w, r, e).Some?
      && var x := Enroll(w, r, e, Plan(w, r, e).value.0).0;
      && x.mail == w.mail && x.domains == w.domains
      && Enrolled(x, r, response.user, Plan(w, r, e).value.0)
  {
    hide Plan, Email, WithMailbox, Existed;
  }

  /** A successful call leaves everything it was asked for in place. */
  lemma SuccessHolds(w: World, r: Request, e: Env)
    requires Onboard(w, r, e).1.Onboarded?
    ensures var (t, response) := Onboard(w, r, e);
      && Plan(w, r, e).Some?
      && Holds(t, r, response.user, Plan(w, r, e).value.0, Plan(w, r, e).value.1)
      && t.domains == w.domains
  {
    hide Onboard, Plan, Email, Enroll, Provision.Provisioned, Provision.Taken;
    SuccessIs(w, r, e);
    EnrolledPlatform(w, r, e);
    var (role, address) := Plan(w, r, e).value;
    if r.mailbox && !Existed(w, e, address) {
      MailboxTaken(w.mail, e, r.org, address);
    }
  }

  // ---------- What is asked for, and who may ask ----------

  /** The role a request text stands for. */
  predicate StandsFor(text: string, role: Role) {
    match role
    case Owner => text == "owner"
    case Admin => text == "admin"
    case Member => text == "" || text == "member"
  }

  /** On a success exactly the role sent is written, for the user answered and in the
      organization; a text that stands for no role is rejected with nothing changed. */
  lemma RoleIsAsSent(w: World, r: Request, e: Env, role: Role)
    ensures var (t, response) := Onboard(w, r, e);
      && (response.Onboarded? && StandsFor(r.role, role) ==> t.roles == w.roles[(r.org, response.user) := role])
      && (r.role !in {"", "member", "admin", "owner"} ==> t == w && response == Rejected)
  {
    hide Email, Target, Authorized, WithUser, WithGroup, WithMailbox, Existed;
    if Onboard(w, r, e).1.Onboarded? {
      RolesAfter(w, r, e);
    }
  }

  /** The actor may give this role: a platform admin any, an owner any, an admin all but owner. */
  predicate MayGive(w: World, r: Request) {
    || r.isAdmin
    || ((r.org, r.actor) in w.roles && w.roles[(r.org, r.actor)] == Owner)
    || ((r.org, r.actor) in w.roles && w.roles[(r.org, r.actor)] == Admin && r.role != "owner")
  }

  /** Anyone else is rejected with nothing changed; and so is a request whose actor's role could
      not be read when it had to be. */
  lemma OnlyThoseWhoMay(w: World, r: Request, e: Env)
    ensures !MayGive(w, r) ==> Onboard(w, r, e) == (w, Rejected)
    ensures !r.isAdmin && !(e.lookups.role && (r.role == "owner" ==> e.lookups.owner)) ==>
      Onboard(w, r, e) == (w, Rejected)
  {
    hide Email, Target;
  }

  /** The first usable domain among those whose lookup answers is at this position. */
  predicate FirstAnswered(ds: seq<OrgDomain>, answered: set<nat>, i: nat) {
    && i < |ds| && i in answered && ds[i].verified && ds[i].mail == Some("active")
    && forall j :: 0 <= j < i ==> !(j in answered && ds[j].verified && ds[j].mail == Some("active"))
  }

  /** Conversely a mailbox has that address whenever the domains are answered, mail is set up
      and the address can be built; and none without such a domain. */
  lemma TargetIs(w: World, r: Request, e: Env, i: nat)
    requires r.org in w.domains
    ensures FirstAnswered(w.domains[r.org], e.lookups.mailDomains, i) ==>
      Target(w, r, e) == if e.lookups.domains && e.mailConfigured
        then BuildAddress(e.toAscii, e.hasPort, LocalPart(r), w.domains[r.org][i].fqdn) else None
    ensures Target(w, r, e).Some? ==>
      exists k :: FirstAnswered(w.domains[r.org], e.lookups.mailDomains, k)
  {
    hide BuildAddress, LocalPart;
    var ds, answered := w.domains[r.org], e.lookups.mailDomains;
    FirstUsableInRange(ds, answered, 0);
    FirstUsableFirst(ds, answered, 0);
    if Target(w, r, e).Some? {
      assert FirstAnswered(ds, answered, FirstUsable(ds, answered, 0).value);
    }
    if FirstAnswered(ds, answered, i) {
      FirstIsUsable(ds, answered, 0, i);
    }
  }

  lemma {:induction false} FirstIsUsable(ds: seq<OrgDomain>, answered: set<nat>, from: nat, i: nat)
    requires FirstAnswered(ds, answered, i) && from <= i
    ensures FirstUsable(ds, answered, from) == Some(i)
    decreases i - from
  {
    if from < i {
      FirstIsUsable(ds, answered, from + 1, i);
    }
  }

  /** A request comes to its first write exactly when it has an email and a role, its author may
      give that role and is read to, and a mailbox asked for has an address. */
  lemma AcceptedIff(w: World, r: Request, e: Env)
    ensures Plan(w, r, e).Some? <==>
      && Trim(r.email) != "" && r.role in {"", "member", "admin", "owner"} && MayGive(w, r)
      && (r.isAdmin || (e.lookups.role && (r.role == "owner" ==> e.lookups.owner)))
      && (r.mailbox ==> Target(w, r, e).Some?)
  {
    hide Target;
  }

  /** The address of a mailbox asked for: at the first usable domain whose lookup answers, and
      with the local part sent, or else what stands before the first at-sign of the email. */
  lemma AddressAskedFor(w: World, r: Request, e: Env) returns (i: nat, local: string)
    requires r.mailbox && Plan(w, r, e).Some?
    ensures r.org in w.domains && i < |w.domains[r.org]|
    ensures var ds := w.domains[r.org];
      && e.lookups.domains && i in e.lookups.mailDomains && ds[i].verified && ds[i].mail == Some("active")
      && (forall j :: 0 <= j < i ==> !(j in e.lookups.mailDomains && ds[j].verified && ds[j].mail == Some("active")))
      && BuildAddress(e.toAscii, e.hasPort, local, ds[i].fqdn) == Some(Plan(w, r, e).value.1)
    ensures r.local != "" ==> local == r.local
    ensures r.local == "" ==>
      '@' !in local && (Email(r) == local || exists rest :: Email(r) == local + "@" + rest)
  {
    hide BuildAddress, Authorized, Email;
    i, local := Selected(w, r.org, e.lookups).value, LocalPart(r);
    FirstUsableInRange(DomainsOf(w, r.org), e.lookups.mailDomains, 0);
    FirstUsableFirst(DomainsOf(w, r.org), e.lookups.mailDomains, 0);
    CutParts(Email(r), '@');
    if r.local == "" && '@' in Email(r) {
      assert Email(r) == local + "@" + Cut(Email(r), '@').value.1;
    }
  }

  lemma {:induction false} FirstUsableFirst(ds: seq<OrgDomain>, answered: set<nat>, from: nat)
    requires from <= |ds|
    ensures var i := FirstUsable(ds, answered, from);
      && (i.Some? ==> i.value < |ds|)
      && forall j :: from <= j < (if i.Some? then i.value else |ds|) ==> !(j in answered && Usable(ds[j]))
    decreases |ds| - from
  {
    if from < |ds| {
      FirstUsableFirst(ds, answered, from + 1);
    }
  }

  /** The email under which the user is kept: trimmed, and in lower case. */
  lemma EmailIs(r: Request)
    ensures EqualFold(Trim(r.email), Email(r)) && forall c :: c in Email(r) ==> !('A' <= c <= 'Z')
  {
    LowerIs(Trim(r.email));
  }

  // ---------- What is written, reported or not ----------

  predicate UserKnown(w: World, r: Request, e: Env) {
    e.lookups.user && (Email(r) in w.users || e.user == Applied)
  }

  predicate GroupReady(w: World, r: Request, e: Env) {
    UserKnown(w, r, e) && e.membership == Applied &&
    r.group in w.groups && w.groups[r.group].org == r.org && e.lookups.group
  }

  /** Whatever the calls reply: the user is new only when unknown, the role is written once the
      user is known, the membership of the group once the role is. */
  lemma CallWrites(w: World, r: Request, e: Env)
    requires Plan(w, r, e).Some?
    ensures var t := Onboard(w, r, e).0; var email := Email(r);
      && t.domains == w.domains
      && t.users == (if email !in w.users && e.lookups.user && e.user != Refused
                     then w.users[email := e.userId] else w.users)
      && t.roles == (if UserKnown(w, r, e) && e.membership != Refused && email in t.users
                     then w.roles[(r.org, t.users[email]) := Plan(w, r, e).value.0] else w.roles)
      && t.groups == if r.group != "" && GroupReady(w, r, e) && e.member != Refused && email in t.users
                     then w.groups[r.group := Group(r.org, w.groups[r.group].members + {t.users[email]})]
                     else w.groups
  {
    hide Plan, Email, Existed, Enroll, WithMailbox;
    var (role, address) := Plan(w, r, e).value;
    EnrollWrites(w, r, e, role);
    MailboxOnly(Enroll(w, r, e, role).0, r, e, address, Existed(w, e, address));
  }

  lemma EnrollWrites(w: World, r: Request, e: Env, role: Role)
    ensures var t := Enroll(w, r, e, role).0; var email := Email(r);
      && t.domains == w.domains && t.mail == w.mail
      && t.users == (if email !in w.users && e.lookups.user && e.user != Refused
                     then w.users[email := e.userId] else w.users)
      && t.roles == (if UserKnown(w, r, e) && e.membership != Refused && email in t.users
                     then w.roles[(r.org, t.users[email]) := role] else w.roles)
      && t.groups == if r.group != "" && GroupReady(w, r, e) && e.member != Refused && email in t.users
                     then w.groups[r.group := Group(r.org, w.groups[r.group].members + {t.users[email]})]
                     else w.groups
  {
    hide Email, WithUser, WithRole, WithGroup;
    UserWritten(w, r, e);
    var w1 := WithUser(w, r, e).0;
    if UserKnown(w, r, e) {
      RoleWritten(w1, r.org, w1.users[Email(r)], role, e.membership);
      GroupWritten(WithRole(w1, r.org, w1.users[Email(r)], role, e.membership).0, r, w1.users[Email(r)],
        e.lookups.group, e.member);
    }
  }

  lemma UserWritten(w: World, r: Request, e: Env)
    ensures var t := WithUser(w, r, e).0;
      t == w.(users := t.users) &&
      t.users == if Email(r) !in w.users && e.lookups.user && e.user != Refused
                 then w.users[Email(r) := e.userId] else w.users
    ensures WithUser(w, r, e).1 <==> UserKnown(w, r, e)
    ensures UserKnown(w, r, e) ==> Email(r) in WithUser(w, r, e).0.users
  {
    hide Email;
  }

  lemma RoleWritten(w: World, org: string, user: string, role: Role, reply: Reply)
    ensures var t := WithRole(w, org, user, role, reply).0;
      t == w.(roles := t.roles) && t.roles == if reply == Refused then w.roles else w.roles[(org, user) := role]
    ensures WithRole(w, org, user, role, reply).1 <==> reply == Applied
  {
  }

  lemma GroupWritten(w: World, r: Request, user: string, answered: bool, reply: Reply)
    ensures var t := WithGroup(w, r, user, answered, reply).0;
      t == w.(groups := t.groups) &&
      t.groups == if r.group != "" && answered && r.group in w.groups && w.groups[r.group].org == r.org
                     && reply != Refused
                  then w.groups[r.group := Group(r.org, w.groups[r.group].members + {user})] else w.groups
    ensures WithGroup(w, r, user, answered, reply).1 <==>
      r.group == "" ||
      (answered && r.group in w.groups && w.groups[r.group].org == r.org && reply == Applied)
  {
  }

  lemma MailboxOnly(w: World, r: Request, e: Env, address: string, existed: bool)
    ensures var t := WithMailbox(w, r, e, address, existed).0;
      t.users == w.users && t.roles == w.roles && t.groups == w.groups && t.domains == w.domains
  {
    hide Provision.Provisioned;
  }

  // ---------- Repeating a request ----------

  /** The same deployment: conversion, port check and configuration do not change. */
  ghost predicate SameDeployment(a: Env, b: Env) {
    a.mailConfigured == b.mailConfigured && a.toAscii == b.toAscii && a.hasPort == b.hasPort
  }

  /** The lookups and writes before the mailbox are answered and applied. */
  predicate CallsApplied(r: Request, e: Env) {
    e.lookups.user && e.membership == Applied && (r.group != "" ==> e.lookups.group && e.member == Applied)
  }

  /** With user, role and group in place, only the mailbox is left to do. */
  lemma RepeatIs(w: World, r: Request, e: Env, user: string, role: Role)
    requires Enrolled(w, r, user, role) && (Plan(w, r, e).Some? ==> Plan(w, r, e).value.0 == role)
    ensures Onboard(w, r, e) ==
      if Plan(w, r, e).None? || !CallsApplied(r, e) then (w, Rejected)
      else
        var address := Plan(w, r, e).value.1;
        var (t, secret) := WithMailbox(w, r, e, address, Existed(w, e, address));
        (t, if secret.Some? then Onboarded(user, secret.value) else Rejected)
  {
    hide Plan, Email, WithMailbox, Existed;
    assert w.roles[(r.org, user) := role] == w.roles;
    var g := r.group;
    if g != "" {
      assert w.groups[g].members + {user} == w.groups[g].members;
      assert w.groups[g := w.groups[g].(members := w.groups[g].members + {user})] == w.groups;
    }
  }

  lemma SameRole(w: World, t: World, r: Request, a: Env, b: Env)
    requires Plan(w, r, a).Some? && Plan(t, r, b).Some?
    ensures Plan(w, r, a).value.0 == Plan(t, r, b).value.0
  {
    hide Target, Authorized, Email;
  }

  /** The request comes to inserting an identity at an address that has none. */
  predicate InsertsMailbox(w: World, r: Request, e: Env) {
    r.mailbox && Plan(w, r, e).Some? && CallsApplied(r, e) &&
    !Provision.Taken(w.mail, Plan(w, r, e).value.1) && e.mail.identity != Refused
  }

  /** The mailbox step changes something exactly when it inserts an identity. */
  lemma MailboxChangesIff(w: World, r: Request, e: Env, address: string)
    ensures WithMailbox(w, r, e, address, Existed(w, e, address)).0 != w <==>
      r.mailbox && !Provision.Taken(w.mail, address) && e.mail.identity != Refused
  {
    var (mail, ok) := Provision.Provisioned(
      w.mail, e.identityId, e.credentialId, r.org, address, e.secret, e.fingerprint, e.mail);
    if !Provision.Taken(w.mail, address) && e.mail.identity != Refused {
      ProvisionTakes(w.mail, e, r.org, address);
    }
  }

  lemma ProvisionTakes(s: Provision.State, e: Env, org: string, address: string)
    requires !Provision.Taken(s, address) && e.mail.identity != Refused
    ensures Provision.Taken(Provision.Provisioned(
      s, e.identityId, e.credentialId, org, address, e.secret, e.fingerprint, e.mail).0, address)
  {
    var t := Provision.Provisioned(s, e.identityId, e.credentialId, org, address, e.secret, e.fingerprint, e.mail).0;
    assert e.identityId in t.identities && t.identities[e.identityId].address == address;
  }

  /** After a successful call the same request, with no other step in between, leaves users,
      roles and groups as they are and answers the same user whatever its calls reply; it
      changes something, and can show a secret, exactly when its own search for a domain leads
      to an address that has no identity and it gets as far as inserting one. */
  lemma RepeatChangesIff(w: World, r: Request, a: Env, b: Env)
    requires Onboard(w, r, a).1.Onboarded?
    ensures var (t, first) := Onboard(w, r, a);
      var (u, second) := Onboard(t, r, b);
      && u == t.(mail := u.mail)
      && (u != t <==> InsertsMailbox(t, r, b))
      && (second.Onboarded? ==> second.user == first.user)
      && (second.Onboarded? && second.secret.Some? ==> u != t)
  {
    hide Onboard, Plan, Email, Enrolled, Existed, Provision.Provisioned, Provision.Taken;
    SuccessHolds(w, r, a);
    var (t, first) := Onboard(w, r, a);
    var role := Plan(w, r, a).value.0;
    if Plan(t, r, b).Some? {
      SameRole(w, t, r, a, b);
      MailboxChangesIff(t, r, b, Plan(t, r, b).value.1);
    }
    RepeatIs(t, r, b, first.user, role);
    if Onboard(t, r, b).1.Onboarded? && Onboard(t, r, b).1.secret.Some? {
      MailboxSecret(t, r, b, Plan(t, r, b).value.1);
    }
  }

  lemma MailboxSecret(w: World, r: Request, e: Env, address: string)
    requires WithMailbox(w, r, e, address, Existed(w, e, address)).1 != Some(None)
    requires WithMailbox(w, r, e, address, Existed(w, e, address)).1.Some?
    ensures WithMailbox(w, r, e, address, Existed(w, e, address)).0 != w
  {
    MailboxChangesIff(w, r, e, address);
  }

  /** When both searches stop at the same domain, or the repeated one at none, the repetition
      changes nothing whatever its calls reply, and shows no secret. */
  lemma SameDomainIdempotent(w: World, r: Request, a: Env, b: Env)
    requires SameDeployment(a, b) && Onboard(w, r, a).1.Onboarded?
    requires r.mailbox ==> Selected(w, r.org, b.lookups) in {None, Selected(w, r.org, a.lookups)}
    ensures var (t, first) := Onboard(w, r, a);
      var (u, second) := Onboard(t, r, b);
      u == t && (second.Onboarded? ==> second == Onboarded(first.user, None))
  {
    hide Onboard, Email, Enrolled, Provision.Taken;
    SuccessHolds(w, r, a);
    RepeatChangesIff(w, r, a, b);
    var t := Onboard(w, r, a).0;
    assert Plan(t, r, b).Some? && r.mailbox ==> Target(t, r, b) == Target(w, r, a);
    assert !InsertsMailbox(t, r, b);
    var second := Onboard(t, r, b).1;
    assert second.Onboarded? ==> second.secret == None;
  }

  lemma {:induction false} OneUsable(ds: seq<OrgDomain>, x: set<nat>, y: set<nat>, from: nat)
    requires from <= |ds|
    requires forall i, j :: 0 <= i < |ds| && 0 <= j < |ds| && Usable(ds[i]) && Usable(ds[j]) ==> i == j
    requires FirstUsable(ds, x, from).Some? && FirstUsable(ds, y, from).Some?
    ensures FirstUsable(ds, x, from) == FirstUsable(ds, y, from)
  {
    FirstUsableInRange(ds, x, from);
    FirstUsableInRange(ds, y, from);
  }

  /** In particular when the organization has at most one usable domain. */
  lemma OneDomainIdempotent(w: World, r: Request, a: Env, b: Env)
    requires SameDeployment(a, b) && Onboard(w, r, a).1.Onboarded?
    requires var ds := DomainsOf(w, r.org);
      forall i, j :: 0 <= i < |ds| && 0 <= j < |ds| && Usable(ds[i]) && Usable(ds[j]) ==> i == j
    ensures var (t, first) := Onboard(w, r, a);
      var (u, second) := Onboard(t, r, b);
      u == t && (second.Onboarded? ==> second == Onboarded(first.user, None))
  {
    hide Onboard, Email, Enrolled, Provision.Taken, FirstUsable;
    SuccessHolds(w, r, a);
    if Selected(w, r.org, a.lookups).Some? && Selected(w, r.org, b.lookups).Some? {
      OneUsable(DomainsOf(w, r.org), a.lookups.mailDomains, b.lookups.mailDomains, 0);
    }
    SameDomainIdempotent(w, r, a, b);
  }

  /** Every usable domain leads to an address that has an identity, or to none at all. */
  predicate AllAddressesTaken(w: World, r: Request, e: Env) {
    forall i :: 0 <= i < |DomainsOf(w, r.org)| && Usable(DomainsOf(w, r.org)[i]) && AddressAt(w, r, e, i).Some?
      ==> Provision.Taken(w.mail, AddressAt(w, r, e, i).value)
  }

  function AllAsked(i: nat): Lookups {
    Lookups(true, true, true, {i}, true, true, true)
  }

  /** A repetition whose search is answered for one domain only, all its calls applied. */
  function Only(a: Env, i: nat): Env {
    a.(lookups := AllAsked(i), user := Applied, membership := Applied, member := Applied,
       mail := Provision.ProvisionReplies(Applied, Applied, Applied, Applied))
  }

  lemma {:induction false} OnlyAnswered(ds: seq<OrgDomain>, i: nat, from: nat)
    requires from <= i < |ds| && Usable(ds[i])
    ensures FirstUsable(ds, {i}, from) == Some(i)
    decreases i - from
  {
    if from < i {
      OnlyAnswered(ds, i, from + 1);
    }
  }

  /** Onboarding is idempotent under every pattern of answers exactly when no mailbox is asked
      for, the first call cost the actor the role it needs, or every usable domain of the
      organization leads to an address that is taken or cannot be built. */
  lemma IdempotentIff(w: World, r: Request, a: Env)
    requires Onboard(w, r, a).1.Onboarded?
    ensures var (t, first) := Onboard(w, r, a);
      (forall b :: SameDeployment(a, b) ==> Onboard(t, r, b).0 == t) <==>
      !r.mailbox || KeptOut(r, first.user) || AllAddressesTaken(t, r, a)
  {
    hide Onboard, Plan, KeptOut, AllAddressesTaken, InsertsMailbox, SameDeployment;
    var t := Onboard(w, r, a).0;
    if !r.mailbox || KeptOut(r, Onboard(w, r, a).1.user) || AllAddressesTaken(t, r, a) {
      forall b | SameDeployment(a, b)
        ensures Onboard(t, r, b).0 == t
      {
        RepeatChangesIff(w, r, a, b);
        InsertsSomewhere(w, r, a, b);
      }
    } else {
      var i := SomewhereToInsert(w, r, a);
      RepeatChangesIff(w, r, a, Only(a, i));
    }
  }

  /** The first call lowered the actor's own role below what the request needs. */
  predicate KeptOut(r: Request, user: string) {
    !r.isAdmin && user == r.actor && ParseRole(r.role) == Some(Member)
  }

  lemma InsertsSomewhere(w: World, r: Request, a: Env, b: Env)
    requires Onboard(w, r, a).1.Onboarded? && SameDeployment(a, b)
    ensures var (t, first) := Onboard(w, r, a);
      InsertsMailbox(t, r, b) ==>
        r.mailbox && !KeptOut(r, first.user) && !AllAddressesTaken(t, r, a)
  {
    hide Onboard, Email, Provision.Taken, BuildAddress, LocalPart, FirstUsable, CallsApplied;
    var t := Onboard(w, r, a).0;
    ActorRole(w, r, a, b.lookups);
    FirstUsableInRange(DomainsOf(t, r.org), b.lookups.mailDomains, 0);
  }

  lemma SomewhereToInsert(w: World, r: Request, a: Env) returns (i: nat)
    requires Onboard(w, r, a).1.Onboarded? && r.mailbox
    requires !KeptOut(r, Onboard(w, r, a).1.user)
    requires !AllAddressesTaken(Onboard(w, r, a).0, r, a)
    ensures SameDeployment(a, Only(a, i)) && InsertsMailbox(Onboard(w, r, a).0, r, Only(a, i))
  {
    hide Onboard, Email, Provision.Taken, BuildAddress, LocalPart, FirstUsable, Enrolled;
    var t := Onboard(w, r, a).0;
    SuccessHolds(w, r, a);
    i :| 0 <= i < |DomainsOf(t, r.org)| && Usable(DomainsOf(t, r.org)[i]) && AddressAt(t, r, a, i).Some? &&
      !Provision.Taken(t.mail, AddressAt(t, r, a, i).value);
    OnlyAnswered(DomainsOf(t, r.org), i, 0);
    ActorRole(w, r, a, AllAsked(i));
  }

  /** With every call applied, and the search stopping where the first one did, the repetition
      is answered the same user exactly when the first call did not cost the actor the role
      the request needs. */
  lemma RepeatSucceedsIff(w: World, r: Request, a: Env, b: Env)
    requires SameDeployment(a, b) && Onboard(w, r, a).1.Onboarded?
    requires b.lookups.role && b.lookups.owner && (r.mailbox ==> b.lookups.address) && CallsApplied(r, b)
    requires r.mailbox ==> Selected(w, r.org, b.lookups) == Selected(w, r.org, a.lookups)
    ensures var (t, first) := Onboard(w, r, a);
      Onboard(t, r, b).1.Onboarded? <==> !KeptOut(r, first.user)
  {
    hide Onboard, Enrolled, Authorized, Email, Provision.Provisioned, Provision.Taken, CallsApplied, KeptOut;
    SuccessHolds(w, r, a);
    var (t, first) := Onboard(w, r, a);
    RepeatIs(t, r, b, first.user, Plan(w, r, a).value.0);
    ActorRole(w, r, a, b.lookups);
  }

  /** Whether the actor is still authorized after the call. */
  lemma ActorRole(w: World, r: Request, a: Env, asked: Lookups)
    requires Onboard(w, r, a).1.Onboarded?
    ensures var (t, first) := Onboard(w, r, a);
      && Plan(w, r, a).Some?
      && var role := Plan(w, r, a).value.0;
      && (Authorized(t, r, role, asked) ==> !KeptOut(r, first.user))
      && (asked.role && asked.owner && !KeptOut(r, first.user) ==> Authorized(t, r, role, asked))
  {
    hide Onboard, Email, Target;
    RolesAfter(w, r, a);
  }

  lemma RolesAfter(w: World, r: Request, a: Env)
    requires Onboard(w, r, a).1.Onboarded?
    ensures Plan(w, r, a).Some?
    ensures Onboard(w, r, a).0.roles == w.roles[(r.org, Onboard(w, r, a).1.user) := Plan(w, r, a).value.0]
  {
    hide Plan, Email, Existed, Provision.Provisioned;
  }

  // ---------- Secrets and mail users ----------

  /** A mailbox asked for at an address nobody holds is answered with a secret that agrees
      with the mail server; at an address already taken, by anyone, with none. */
  lemma SecretIff(w: World, r: Request, e: Env)
    requires Onboard(w, r, e).1.Onboarded?
    ensures var (t, response) := Onboard(w, r, e); var address := Plan(w, r, e).value.1;
      && (response.secret.Some? <==> r.mailbox && !Provision.Taken(w.mail, address))
      && (response.secret.None? ==> t.mail == w.mail)
      && (response.secret.Some? ==> response.secret.value == e.secret)
      && (response.secret.Some? ==> Provision.Agrees(t.mail, e.fingerprint, e.identityId))
  {
    hide Plan, Email, Provision.Provisioned, Provision.Taken, Provision.Agrees;
    var address := Plan(w, r, e).value.1;
    Provision.ProvisionSucceedsIff(
      w.mail, e.identityId, e.credentialId, r.org, address, e.secret, e.fingerprint, e.mail);
  }

  /** An address that is taken is accepted only when its lookup answered: otherwise the insert
      conflicts. */
  lemma TakenNeedsLookup(w: World, r: Request, e: Env)
    requires Onboard(w, r, e).1.Onboarded? && r.mailbox && !e.lookups.address
    ensures !Provision.Taken(w.mail, Plan(w, r, e).value.1)
  {
    hide Onboard, Plan, Email, Enroll, Provision.Taken;
    SuccessIs(w, r, e);
    EnrolledPlatform(w, r, e);
  }

  /** After a success with a mailbox, the server has a user for the address exactly when a
      secret was shown or it had one before. */
  lemma MailboxHasUserIff(w: World, r: Request, e: Env)
    requires Onboard(w, r, e).1.Onboarded? && r.mailbox
    ensures var (t, response) := Onboard(w, r, e); var address := Plan(w, r, e).value.1;
      address in t.mail.users <==> response.secret.Some? || address in w.mail.users
  {
    hide Onboard, Plan, Email, Existed;
    SuccessIs(w, r, e);
    EnrolledPlatform(w, r, e);
  }

  /** The writes before the mailbox are all reported as done. */
  predicate Reached(w: World, r: Request, e: Env, role: Role) {
    Enroll(w, r, e, role).1.Some?
  }

  /** The call that adds the mail user was made and took effect. */
  predicate UserAdded(e: Env) {
    Provision.ReachesServer(e.mail) && e.mail.user != Refused
  }

  function MailAfter(w: World, r: Request, e: Env, address: string): Provision.State {
    Provision.Provisioned(w.mail, e.identityId, e.credentialId, r.org, address, e.secret, e.fingerprint, e.mail).0
  }

  /** What a call does to the mail tables and server when the address is free. */
  lemma MailOfCall(w: World, r: Request, e: Env)
    requires Plan(w, r, e).Some? && r.mailbox && !Provision.Taken(w.mail, Plan(w, r, e).value.1)
    ensures var (t, response) := Onboard(w, r, e); var (role, address) := Plan(w, r, e).value;
      && t.domains == w.domains
      && t.mail == (if Reached(w, r, e, role) then MailAfter(w, r, e, address) else w.mail)
      && (response == Rejected && Reached(w, r, e, role) ==>
           !Provision.Provisioned(w.mail, e.identityId, e.credentialId, r.org, address, e.secret, e.fingerprint,
             e.mail).1)
  {
    hide Onboard, Plan, Email, Reached, Provision.Provisioned, Provision.Taken;
    CallIs(w, r, e);
  }

  lemma CallIs(w: World, r: Request, e: Env)
    requires Plan(w, r, e).Some?
    ensures var (t, response) := Onboard(w, r, e); var (role, address) := Plan(w, r, e).value;
      if Reached(w, r, e, role) then
        var x := Enroll(w, r, e, role).0;
        var (mailed, secret) := WithMailbox(x, r, e, address, Existed(w, e, address));
        && x.mail == w.mail && x.domains == w.domains && t == mailed
        && (response.Onboarded? <==> secret.Some?)
      else response == Rejected && t.mail == w.mail && t.domains == w.domains
  {
    hide Plan, Email, WithMailbox, Existed;
  }

  /** What a rejected call left at an address: an identity row, a user of the server. */
  predicate LeftRow(w: World, r: Request, a: Env, address: string)
    requires Plan(w, r, a).Some?
  {
    var (role, tried) := Plan(w, r, a).value;
    address == tried && Reached(w, r, a, role) && a.mail.identity != Refused
  }

  predicate LeftUser(w: World, r: Request, a: Env, address: string)
    requires Plan(w, r, a).Some?
  {
    LeftRow(w, r, a, address) && UserAdded(a)
  }

  lemma RejectedLeaves(w: World, r: Request, a: Env, address: string)
    requires Plan(w, r, a).Some? && r.mailbox && Onboard(w, r, a).1 == Rejected
    requires a.identityId !in w.mail.identities && a.credentialId !in w.mail.credentials
    requires var tried := Plan(w, r, a).value.1; !Provision.Taken(w.mail, tried) && tried !in w.mail.users
    ensures var t := Onboard(w, r, a).0;
      && (Provision.Taken(t.mail, address) <==> Provision.Taken(w.mail, address) || LeftRow(w, r, a, address))
      && (address in t.mail.users <==> address in w.mail.users || LeftUser(w, r, a, address))
  {
    hide Onboard, Plan, Email, Reached, Provision.Taken, Provision.Provisioned;
    var (role, tried) := Plan(w, r, a).value;
    MailOfCall(w, r, a);
    if Reached(w, r, a, role) {
      if address == tried {
        Provision.FailedProvisionLeaves(
          w.mail, a.identityId, a.credentialId, r.org, tried, a.secret, a.fingerprint, a.mail);
      } else {
        Provision.ProvisionElsewhere(
          w.mail, a.identityId, a.credentialId, r.org, tried, a.secret, a.fingerprint, a.mail, address);
      }
    }
  }

  /** A rejected call at an address that neither a row nor the server has, repeated with
      success, at that address or at another domain's: the server then has a user for it
      exactly when the repetition showed a secret, or had one before, or the first call added
      the user and only the answer was lost. The repetition shows a secret exactly when no row
      was there and the first call did not get as far as leaving one; a row left behind makes
      it report success for a mailbox that does not exist. */
  lemma RetryIsHollowIff(w: World, r: Request, a: Env, b: Env)
    requires Plan(w, r, a).Some? && r.mailbox
    requires a.identityId !in w.mail.identities && a.credentialId !in w.mail.credentials
    requires var tried := Plan(w, r, a).value.1; !Provision.Taken(w.mail, tried) && tried !in w.mail.users
    requires Onboard(w, r, a).1 == Rejected && Onboard(Onboard(w, r, a).0, r, b).1.Onboarded?
    ensures var (t, first) := Onboard(w, r, a); var (u, second) := Onboard(t, r, b);
      && Plan(t, r, b).Some?
      && var address := Plan(t, r, b).value.1;
      && (second.secret.Some? <==> !(Provision.Taken(w.mail, address) || LeftRow(w, r, a, address)))
      && (address in u.mail.users <==>
            second.secret.Some? || address in w.mail.users || LeftUser(w, r, a, address))
  {
    hide Onboard, Plan, LeftRow, LeftUser, Provision.Taken;
    var t := Onboard(w, r, a).0;
    PlannedAgain(t, r, b);
    RejectedLeaves(w, r, a, Plan(t, r, b).value.1);
    SecretIff(t, r, b);
    MailboxHasUserIff(t, r, b);
  }

  lemma PlannedAgain(t: World, r: Request, b: Env)
    requires Onboard(t, r, b).1.Onboarded?
    ensures Plan(t, r, b).Some?
  {
    hide Plan;
  }

  // ---------- A second mailbox ----------

  /** Two usable domains, whose addresses are free: the first call finds the first domain; on
      the repetition the lookup of its mail domain fails. */
  predicate TwoFreeDomains(w: World, r: Request, a: Env, x: string, y: string) {
    && r.isAdmin && r.mailbox && r.group == "" && Email(r) != "" && ParseRole(r.role).Some? && a.mailConfigured
    && |DomainsOf(w, r.org)| == 2 && Usable(DomainsOf(w, r.org)[0]) && Usable(DomainsOf(w, r.org)[1])
    && AddressAt(w, r, a, 0) == Some(x) && AddressAt(w, r, a, 1) == Some(y) && x != y
    && !Provision.Taken(w.mail, x) && !Provision.Taken(w.mail, y) && x !in w.mail.users && y !in w.mail.users
  }

  /** Both calls report success, the second with a secret of its own, and the user has two
      mailboxes: the repetition was not idempotent. */
  lemma SecondDomainSecondMailbox(w: World, r: Request, e: Env, x: string, y: string, id: string, cred: string)
    requires TwoFreeDomains(w, r, e, x, y)
    requires e.identityId !in w.mail.identities && id !in w.mail.identities && id != e.identityId
    ensures var (t, first) := Onboard(w, r, Only(e, 0));
      var (u, second) := Onboard(t, r, Only(e, 1).(identityId := id, credentialId := cred));
      && first.Onboarded? && second == first && first.secret == Some(e.secret)
      && Provision.Taken(u.mail, x) && Provision.Taken(u.mail, y) && x in u.mail.users && y in u.mail.users
  {
    hide Onboard, Plan, Email, Provision.Taken, BuildAddress, LocalPart, Provision.Provisioned;
    var a, b := Only(e, 0), Only(e, 1).(identityId := id, credentialId := cred);
    OnlyPlan(w, r, e, 0);
    Provisions(w, r, a, x);
    var (t, first) := Onboard(w, r, a);
    Provision.ProvisionElsewhere(
      w.mail, a.identityId, a.credentialId, r.org, x, a.secret, a.fingerprint, a.mail, y);
    Provision.OtherRow(
      w.mail, a.identityId, a.credentialId, r.org, x, a.secret, a.fingerprint, a.mail, id);
    OnlyPlan(t, r, e, 1);
    PlanReads(t, r, b, Only(e, 1));
    Provisions(t, r, b, y);
    RepeatChangesIff(w, r, a, b);
    Provision.ProvisionElsewhere(
      t.mail, b.identityId, b.credentialId, r.org, y, b.secret, b.fingerprint, b.mail, x);
  }

  lemma PlanReads(w: World, r: Request, a: Env, b: Env)
    requires SameDeployment(a, b) && a.lookups == b.lookups
    ensures Plan(w, r, a) == Plan(w, r, b)
  {
    hide Email, BuildAddress, LocalPart, Selected, Authorized;
  }

  lemma OnlyPlan(w: World, r: Request, e: Env, i: nat)
    requires r.isAdmin && r.mailbox && Email(r) != "" && ParseRole(r.role).Some? && e.mailConfigured
    requires i < |DomainsOf(w, r.org)| && Usable(DomainsOf(w, r.org)[i]) && AddressAt(w, r, e, i).Some?
    ensures Plan(w, r, Only(e, i)) == Some((ParseRole(r.role).value, AddressAt(w, r, e, i).value))
  {
    hide Email, BuildAddress, LocalPart, FirstUsable;
    OnlyAnswered(DomainsOf(w, r.org), i, 0);
  }

  /** Every call applied at a free address: a success with the secret. */
  lemma Provisions(w: World, r: Request, e: Env, address: string)
    requires r.mailbox && r.group == "" && e.lookups.user && e.user == Applied && e.membership == Applied
    requires e.mail == Provision.ProvisionReplies(Applied, Applied, Applied, Applied)
    requires Plan(w, r, e).Some? && Plan(w, r, e).value.1 == address
    requires !Provision.Taken(w.mail, address) && address !in w.mail.users
    ensures var (t, response) := Onboard(w, r, e);
      && response.Onboarded? && response.secret == Some(e.secret) && t.domains == w.domains
      && t.mail == MailAfter(w, r, e, address) && Provision.Taken(t.mail, address) && address in t.mail.users
  {
    hide Onboard, Plan, Email, Provision.Taken, Provision.Provisioned;
    MailOfCall(w, r, e);
    Provision.ProvisionSucceedsIff(
      w.mail, e.identityId, e.credentialId, r.org, address, e.secret, e.fingerprint, e.mail);
    assert Onboard(w, r, e).1.Onboarded?;
    SecretIff(w, r, e);
    MailboxHasUserIff(w, r, e);
    SuccessHolds(w, r, e);
  }
}
