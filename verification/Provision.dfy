/** Mailbox provisioning and credential rotation (internal/provision/mail.go) over the store
    and the mail server, where any call may be refused, or take effect and still be reported
    as failed. Names of mail server users are the addresses, as at every call site. */
module Provision {
  import opened Replies
  import opened Text

  datatype Identity = Identity(org: string, address: string, username: string, status: string)

  datatype Credential = Credential(identity: string, fingerprint: string, active: bool)

  /** The two tables, and the mail server's users with their passwords. */
  datatype State = State(
    identities: map<string, Identity>, credentials: map<string, Credential>, users: map<string, string>)

  // ---------- The calls ----------

  predicate Taken(s: State, address: string) {
    exists id :: id in s.identities && s.identities[id].address == address
  }

  /** RevokeCredentialsByIdentity. */
  function Revoked(s: State, id: string): State {
    s.(credentials := map c | c in s.credentials ::
         if s.credentials[c].identity == id then s.credentials[c].(active := false) else s.credentials[c])
  }

  function Issued(s: State, id: string, cred: string, fingerprint: string): State {
    s.(credentials := s.credentials[cred := Credential(id, fingerprint, true)])
  }

  function WithStatus(s: State, id: string, status: string): State {
    if id in s.identities then s.(identities := s.identities[id := s.identities[id].(status := status)]) else s
  }

  /** The agent's password change: remove the user, whatever comes of it, then add it. The
      server refuses to add a user that exists. */
  function PasswordChanged(s: State, user: string, password: string, removed: bool, reply: Reply): State {
    var left := if removed then s.users - {user} else s.users;
    s.(users := if user in left || reply == Refused then left else left[user := password])
  }

  predicate ChangeReported(s: State, user: string, removed: bool, reply: Reply) {
    (removed || user !in s.users) && reply == Applied
  }

  // ---------- The two sequences ----------

  datatype ProvisionReplies = ProvisionReplies(identity: Reply, credential: Reply, user: Reply, mark: Reply)

  datatype RotateReplies = RotateReplies(removed: bool, user: Reply, revoke: Reply, credential: Reply)

  function Marked(s: State, id: string, status: string, reply: Reply): State {
    if reply == Refused then s else WithStatus(s, id, status)
  }

  function Provisioned(s: State, id: string, cred: string, org: string, address: string,
      secret: string, fp: string -> string, r: ProvisionReplies): (State, bool)
  {
    if Taken(s, address) || r.identity == Refused then (s, false)
    else
      var s1 := s.(identities := s.identities[id := Identity(org, address, address, "requested")]);
      if r.identity == Lost || r.credential == Refused then (s1, false)
      else
        var s2 := Issued(s1, id, cred, fp(secret));
        if r.credential == Lost then (s2, false)
        else if address in s.users || r.user == Refused then (Marked(s2, id, "deleted", r.mark), false)
        else
          var s3 := s2.(users := s.users[address := secret]);
          if r.user == Lost then (Marked(s3, id, "deleted", r.mark), false)
          else (Marked(s3, id, "active", r.mark), true)
  }

  function Rotated(s: State, id: string, cred: string, secret: string, fp: string -> string,
      r: RotateReplies): (State, bool)
  {
    if id !in s.identities then (s, false)
    else
      var user := s.identities[id].username;
      var s1 := PasswordChanged(s, user, secret, r.removed, r.user);
      if !ChangeReported(s, user, r.removed, r.user) || r.revoke == Refused then (s1, false)
      else
        var s2 := Revoked(s1, id);
        if r.revoke == Lost || r.credential == Refused then (s2, false)
        else (Issued(s2, id, cred, fp(secret)), r.credential == Applied)
  }

  class MailPlatform {
    const fp: string -> string
    var identities: map<string, Identity>
    var credentials: map<string, Credential>
    var users: map<string, string>

    ghost function Snapshot(): State
      reads this
    {
      State(identities, credentials, users)
    }

    method SetMailIdentityStatus(id: string, status: string, reply: Reply)
      modifies this`identities
      ensures Snapshot() == Marked(old(Snapshot()), id, status, reply)
    {
      if reply != Refused && id in identities {
        identities := identities[id := identities[id].(status := status)];
      }
    }

    method CreateMailIdentity(id: string, org: string, address: string, reply: Reply) returns (ok: bool)
      modifies this`identities
      ensures ok <==> !Taken(old(Snapshot()), address) && reply == Applied
      ensures identities == if Taken(old(Snapshot()), address) || reply == Refused then old(identities)
                            else old(identities)[id := Identity(org, address, address, "requested")]
    {
      if reply == Refused || exists i :: i in identities && identities[i].address == address {
        return false;
      }
      identities := identities[id := Identity(org, address, address, "requested")];
      return reply == Applied;
    }

    method CreateMailCredential(id: string, cred: string, fingerprint: string, reply: Reply) returns (ok: bool)
      modifies this`credentials
      ensures ok <==> reply == Applied
      ensures Snapshot() == if reply == Refused then old(Snapshot()) else Issued(old(Snapshot()), id, cred, fingerprint)
    {
      if reply != Refused {
        credentials := credentials[cred := Credential(id, fingerprint, true)];
      }
      return reply == Applied;
    }

    method RevokeCredentialsByIdentity(id: string, reply: Reply) returns (ok: bool)
      modifies this`credentials
      ensures ok <==> reply == Applied
      ensures Snapshot() == if reply == Refused then old(Snapshot()) else Revoked(old(Snapshot()), id)
    {
      if reply != Refused {
        credentials := map c | c in credentials ::
          if credentials[c].identity == id then credentials[c].(active := false) else credentials[c];
      }
      return reply == Applied;
    }

    method AddUser(address: string, password: string, reply: Reply) returns (ok: bool)
      modifies this`users
      ensures ok <==> address !in old(users) && reply == Applied
      ensures users == if address in old(users) || reply == Refused then old(users) else old(users)[address := password]
    {
      if address in users || reply == Refused {
        return false;
      }
      users := users[address := password];
      return reply == Applied;
    }

    method ChangePassword(address: string, password: string, removed: bool, reply: Reply) returns (ok: bool)
      modifies this`users
      ensures ok <==> ChangeReported(old(Snapshot()), address, removed, reply)
      ensures Snapshot() == PasswordChanged(old(Snapshot()), address, password, removed, reply)
    {
      if removed {
        users := users - {address};
      }
      ok := AddUser(address, password, reply);
    }

    method Provisioner(id: string, cred: string, org: string, address: string, secret: string, r: ProvisionReplies)
        returns (ok: bool)
      modifies this
      ensures (Snapshot(), ok) == Provisioned(old(Snapshot()), id, cred, org, address, secret, fp, r)
    {
      var created := CreateMailIdentity(id, org, address, r.identity);
      if !created {
        return false;
      }
      var issued := CreateMailCredential(id, cred, fp(secret), r.credential);
      if !issued {
        return false;
      }
      var added := AddUser(address, secret, r.user);
      if !added {
        SetMailIdentityStatus(id, "deleted", r.mark);
        return false;
      }
      SetMailIdentityStatus(id, "active", r.mark);
      return true;
    }

    /** `id` names the identity row the handler has just read. */
    method Rotate(id: string, cred: string, secret: string, r: RotateReplies) returns (ok: bool)
      requires id in identities
      modifies this`credentials, this`users
      ensures (Snapshot(), ok) == Rotated(old(Snapshot()), id, cred, secret, fp, r)
    {
      var changed := ChangePassword(identities[id].username, secret, r.removed, r.user);
      if !changed {
        return false;
      }
      var revoked := RevokeCredentialsByIdentity(id, r.revoke);
      if !revoked {
        return false;
      }
      ok := CreateMailCredential(id, cred, fp(secret), r.credential);
    }
  }

  // ---------- Agreement ----------

  predicate ActiveFor(s: State, cred: string, id: string) {
    cred in s.credentials && s.credentials[cred].identity == id && s.credentials[cred].active
  }

  predicate Rivals(s: State, c: string, d: string) {
    c in s.credentials && d in s.credentials && c != d && s.credentials[c].active && s.credentials[d].active
  }

  /** At most one active credential per identity. */
  ghost predicate AtMostOne(s: State) {
    forall c, d :: Rivals(s, c, d) ==> s.credentials[c].identity != s.credentials[d].identity
  }

  /** The mail server knows the identity's user, and its password has the fingerprint of an
      active credential of the identity. */
  ghost predicate Agrees(s: State, fp: string -> string, id: string) {
    && id in s.identities && s.identities[id].username in s.users
    && exists c :: ActiveFor(s, c, id) && s.credentials[c].fingerprint == fp(s.users[s.identities[id].username])
  }

  ghost predicate Inv(s: State) {
    && AtMostOne(s)
    && (forall c :: c in s.credentials ==> s.credentials[c].identity in s.identities)
    && (forall id :: id in s.identities ==> s.identities[id].username == s.identities[id].address)
    && (forall a, b :: a in s.identities && b in s.identities && a != b ==>
      s.identities[a].address != s.identities[b].address)
  }

  predicate NameKept(s: State, t: State, id: string) {
    id in s.identities ==> id in t.identities && t.identities[id].username == s.identities[id].username
  }

  predicate PasswordKept(s: State, t: State, user: string) {
    user in s.users ==> user in t.users && t.users[user] == s.users[user]
  }

  predicate CredentialKept(s: State, t: State, c: string) {
    c in s.credentials ==> c in t.credentials && t.credentials[c] == s.credentials[c]
  }

  /** A stored identity keeps its user name, the server its password, the table its
      credentials. */
  ghost predicate Untouched(s: State, t: State, id: string) {
    id in s.identities ==>
      && NameKept(s, t, id) && PasswordKept(s, t, s.identities[id].username)
      && forall c :: c in s.credentials && s.credentials[c].identity == id ==> CredentialKept(s, t, c)
  }

  lemma AgreementKept(s: State, t: State, fp: string -> string, id: string)
    requires Agrees(s, fp, id) && Untouched(s, t, id)
    ensures Agrees(t, fp, id)
  {
    var c :| ActiveFor(s, c, id) && s.credentials[c].fingerprint == fp(s.users[s.identities[id].username]);
    assert CredentialKept(s, t, c);
    assert ActiveFor(t, c, id);
  }

  // ---------- Provisioning ----------

  lemma IssuedKeeps(s: State, id: string, cred: string, fingerprint: string)
    requires Inv(s) && id in s.identities && cred !in s.credentials
    requires forall c :: c in s.credentials && s.credentials[c].identity == id ==> !s.credentials[c].active
    ensures Inv(Issued(s, id, cred, fingerprint))
  {
  }

  lemma NewIdentityKeeps(s: State, id: string, org: string, address: string)
    requires Inv(s) && id !in s.identities && !Taken(s, address)
    ensures Inv(s.(identities := s.identities[id := Identity(org, address, address, "requested")]))
  {
  }

  lemma MarkedKeeps(s: State, id: string, status: string, reply: Reply)
    requires Inv(s)
    ensures Inv(Marked(s, id, status, reply))
  {
  }

  lemma UsersKeep(s: State, users: map<string, string>)
    requires Inv(s)
    ensures Inv(s.(users := users))
  {
  }

  lemma ProvisionKeepsInv(s: State, id: string, cred: string, org: string, address: string,
      secret: string, fp: string -> string, r: ProvisionReplies)
    requires Inv(s) && id !in s.identities && cred !in s.credentials
    ensures Inv(Provisioned(s, id, cred, org, address, secret, fp, r).0)
  {
    hide Inv, Marked;
    if !Taken(s, address) && r.identity != Refused {
      NoneFor(s, id);
      NewIdentityKeeps(s, id, org, address);
      var s1 := s.(identities := s.identities[id := Identity(org, address, address, "requested")]);
      IssuedKeeps(s1, id, cred, fp(secret));
      var s2 := Issued(s1, id, cred, fp(secret));
      UsersKeep(s2, s.users[address := secret]);
      MarkedKeeps(s2, id, "deleted", r.mark);
      var s3 := s2.(users := s.users[address := secret]);
      MarkedKeeps(s3, id, "deleted", r.mark);
      MarkedKeeps(s3, id, "active", r.mark);
    }
  }

  lemma NoneFor(s: State, id: string)
    requires Inv(s) && id !in s.identities
    ensures forall c :: c in s.credentials ==> s.credentials[c].identity != id
  {
  }

  predicate FatalApplied(r: ProvisionReplies) {
    r.identity == Applied && r.credential == Applied && r.user == Applied
  }

  /** Success is reported exactly when the address was free in the table and on the server
      and every fatal call was applied; then the new identity agrees. */
  lemma ProvisionSucceedsIff(s: State, id: string, cred: string, org: string, address: string,
      secret: string, fp: string -> string, r: ProvisionReplies)
    ensures var (t, ok) := Provisioned(s, id, cred, org, address, secret, fp, r);
      && (ok <==> !Taken(s, address) && address !in s.users && FatalApplied(r))
      && (ok ==> Agrees(t, fp, id) && ActiveFor(t, cred, id))
  {
    var (t, ok) := Provisioned(s, id, cred, org, address, secret, fp, r);
    if ok {
      assert ActiveFor(t, cred, id);
    }
  }

  /** What a successful provisioning leaves, exactly: the identity with this organization,
      address and user name, active if and only if the last update took effect; its active
      credential; the mail user. Nothing else changes. */
  lemma SuccessfulProvisionLeaves(s: State, id: string, cred: string, org: string, address: string,
      secret: string, fp: string -> string, r: ProvisionReplies)
    requires Provisioned(s, id, cred, org, address, secret, fp, r).1
    ensures var t := Provisioned(s, id, cred, org, address, secret, fp, r).0;
      && id in t.identities && t.identities[id].org == org
      && t.identities[id].address == address && t.identities[id].username == address
      && t.identities[id].status == (if r.mark != Refused then "active" else "requested")
      && t.identities == s.identities[id := t.identities[id]]
      && t.credentials == s.credentials[cred := Credential(id, fp(secret), true)]
      && t.users == s.users[address := secret]
  {
    hide Taken;
  }

  lemma ProvisionLeavesOthers(s: State, id: string, cred: string, org: string, address: string,
      secret: string, fp: string -> string, r: ProvisionReplies, other: string)
    requires id !in s.identities && cred !in s.credentials
    ensures Untouched(s, Provisioned(s, id, cred, org, address, secret, fp, r).0, other)
  {
    hide Provisioned, NameKept, PasswordKept, CredentialKept;
    ProvisionOnlyAdds(s, id, cred, org, address, secret, fp, r);
  }

  lemma ProvisionOnlyAdds(s: State, id: string, cred: string, org: string, address: string,
      secret: string, fp: string -> string, r: ProvisionReplies)
    requires id !in s.identities && cred !in s.credentials
    ensures forall i :: NameKept(s, Provisioned(s, id, cred, org, address, secret, fp, r).0, i)
    ensures forall u :: PasswordKept(s, Provisioned(s, id, cred, org, address, secret, fp, r).0, u)
    ensures forall c :: CredentialKept(s, Provisioned(s, id, cred, org, address, secret, fp, r).0, c)
  {
    hide Taken;
  }

  /** What a failed provisioning of a free address leaves behind, exactly: nothing is undone
      but the status. The credential stays active when its insert took effect; the address
      stays taken when the identity's did; the server has a new user when the call took effect
      and only its answer was lost. */
  lemma FailedProvisionLeaves(s: State, id: string, cred: string, org: string, address: string,
      secret: string, fp: string -> string, r: ProvisionReplies)
    requires id !in s.identities && cred !in s.credentials && !Taken(s, address)
    requires !Provisioned(s, id, cred, org, address, secret, fp, r).1
    ensures var t := Provisioned(s, id, cred, org, address, secret, fp, r).0;
      && (ActiveFor(t, cred, id) <==> r.identity == Applied && r.credential != Refused)
      && (Taken(t, address) <==> r.identity != Refused)
      && (address in t.users <==> address in s.users || (ReachesServer(r) && r.user != Refused))
      && (id in t.identities <==> r.identity != Refused)
      && (id in t.identities ==>
            t.identities[id].status == if ReachesServer(r) && r.mark != Refused then "deleted" else "requested")
  {
    hide Marked, Issued;
    var t := Provisioned(s, id, cred, org, address, secret, fp, r).0;
    if r.identity != Refused {
      FailedRows(s, id, cred, org, address, secret, fp, r);
      assert id in t.identities && t.identities[id].address == address;
    }
  }

  /** Provisioning one address leaves every other one, and every other row, as it is. */
  lemma ProvisionElsewhere(s: State, id: string, cred: string, org: string, address: string,
      secret: string, fp: string -> string, r: ProvisionReplies, other: string)
    requires id !in s.identities && other != address
    ensures var t := Provisioned(s, id, cred, org, address, secret, fp, r).0;
      (Taken(t, other) <==> Taken(s, other)) && (other in t.users <==> other in s.users)
  {
    hide Provisioned;
    var t := Provisioned(s, id, cred, org, address, secret, fp, r).0;
    OtherUser(s, id, cred, org, address, secret, fp, r, other);
    if Taken(s, other) {
      var i :| i in s.identities && s.identities[i].address == other;
      OtherRow(s, id, cred, org, address, secret, fp, r, i);
      assert i in t.identities && t.identities[i].address == other;
    }
    if Taken(t, other) {
      var i :| i in t.identities && t.identities[i].address == other;
      OwnRow(s, id, cred, org, address, secret, fp, r);
      OtherRow(s, id, cred, org, address, secret, fp, r, i);
      assert i in s.identities && s.identities[i].address == other;
    }
  }

  lemma OtherRow(s: State, id: string, cred: string, org: string, address: string,
      secret: string, fp: string -> string, r: ProvisionReplies, i: string)
    requires i != id
    ensures var t := Provisioned(s, id, cred, org, address, secret, fp, r).0;
      (i in t.identities <==> i in s.identities) && (i in t.identities ==> t.identities[i] == s.identities[i])
  {
    hide Taken;
  }

  lemma OwnRow(s: State, id: string, cred: string, org: string, address: string,
      secret: string, fp: string -> string, r: ProvisionReplies)
    requires id !in s.identities
    ensures var t := Provisioned(s, id, cred, org, address, secret, fp, r).0;
      id in t.identities ==> t.identities[id].address == address
  {
    hide Taken;
  }

  lemma OtherUser(s: State, id: string, cred: string, org: string, address: string,
      secret: string, fp: string -> string, r: ProvisionReplies, other: string)
    requires other != address
    ensures other in Provisioned(s, id, cred, org, address, secret, fp, r).0.users <==> other in s.users
  {
    hide Taken;
  }

  predicate ReachesServer(r: ProvisionReplies) {
    r.identity == Applied && r.credential == Applied
  }

  lemma FailedRows(s: State, id: string, cred: string, org: string, address: string,
      secret: string, fp: string -> string, r: ProvisionReplies)
    requires id !in s.identities && cred !in s.credentials && !Taken(s, address) && r.identity != Refused
    requires !Provisioned(s, id, cred, org, address, secret, fp, r).1
    ensures var t := Provisioned(s, id, cred, org, address, secret, fp, r).0;
      && (cred in t.credentials <==> r.identity == Applied && r.credential != Refused)
      && (cred in t.credentials ==> t.credentials[cred] == Credential(id, fp(secret), true))
      && id in t.identities
      && t.identities[id] == Identity(org, address, address,
           if ReachesServer(r) && r.mark != Refused then "deleted" else "requested")
      && t.users == if ReachesServer(r) && r.user != Refused && address !in s.users
                    then s.users[address := secret] else s.users
  {
  }

  // ---------- Rotation ----------

  lemma RevokedKeeps(s: State, id: string)
    requires Inv(s)
    ensures Inv(Revoked(s, id))
    ensures forall c :: c in Revoked(s, id).credentials && Revoked(s, id).credentials[c].identity == id
              ==> !Revoked(s, id).credentials[c].active
  {
  }

  lemma RotateKeepsInv(s: State, id: string, cred: string, secret: string, fp: string -> string, r: RotateReplies)
    requires Inv(s) && cred !in s.credentials
    ensures Inv(Rotated(s, id, cred, secret, fp, r).0)
  {
    hide Inv;
    if id in s.identities {
      var s1 := PasswordChanged(s, s.identities[id].username, secret, r.removed, r.user);
      UsersKeep(s, s1.users);
      assert s1 == s.(users := s1.users);
      RevokedKeeps(s1, id);
      IssuedKeeps(Revoked(s1, id), id, cred, fp(secret));
    }
  }

  predicate AllApplied(r: RotateReplies) {
    r.user == Applied && r.revoke == Applied && r.credential == Applied
  }

  /** Success is reported exactly when the user was removed or absent and every later call
      was applied; then the identity agrees, whatever the state was before. */
  lemma RotateSucceedsIff(s: State, id: string, cred: string, secret: string, fp: string -> string, r: RotateReplies)
    ensures var (t, ok) := Rotated(s, id, cred, secret, fp, r);
      && (ok <==> id in s.identities && (r.removed || s.identities[id].username !in s.users) && AllApplied(r))
      && (ok ==> Agrees(t, fp, id) && ActiveFor(t, cred, id))
  {
    var (t, ok) := Rotated(s, id, cred, secret, fp, r);
    if ok {
      assert ActiveFor(t, cred, id);
    }
  }

  /** The mail server changed the password: it removed the user or had none, and added it. */
  predicate PasswordReplaced(s: State, user: string, r: RotateReplies) {
    (r.removed || user !in s.users) && r.user == Applied
  }

  /** What a rotation leaves, exactly, whatever its calls reply: the user has the new secret
      unless it was kept or the add was refused; once the password was replaced the old
      credentials are revoked unless that is refused, and once that is answered the new one is
      there unless its insert is refused. */
  lemma RotationLeaves(s: State, id: string, cred: string, secret: string, fp: string -> string, r: RotateReplies)
    requires id in s.identities && cred !in s.credentials
    ensures var t := Rotated(s, id, cred, secret, fp, r).0; var user := s.identities[id].username;
      && t.identities == s.identities
      && t.users == (if !r.removed && user in s.users then s.users
                     else if r.user == Refused then s.users - {user} else s.users[user := secret])
      && t.credentials.Keys == s.credentials.Keys +
           (if PasswordReplaced(s, user, r) && r.revoke == Applied && r.credential != Refused then {cred} else {})
      && (cred in t.credentials ==> t.credentials[cred] == Credential(id, fp(secret), true))
      && forall c :: c in s.credentials ==>
           t.credentials[c] == if s.credentials[c].identity == id && PasswordReplaced(s, user, r) && r.revoke != Refused
                               then s.credentials[c].(active := false) else s.credentials[c]
  {
  }

  /** A rotation of an agreeing identity leaves it agreeing exactly when the server never
      removed the user, or everything after the removal was applied, the last insert even if
      its answer was lost. */
  lemma RotateAgreesIff(s: State, id: string, cred: string, secret: string, fp: string -> string, r: RotateReplies)
    requires Inv(s) && Agrees(s, fp, id) && cred !in s.credentials
    requires fp(secret) != fp(s.users[s.identities[id].username])
    ensures Agrees(Rotated(s, id, cred, secret, fp, r).0, fp, id) <==>
      !r.removed || (r.user == Applied && r.revoke == Applied && r.credential != Refused)
  {
    var t, u := Rotated(s, id, cred, secret, fp, r).0, s.identities[id].username;
    if !r.removed {
      assert t == s;
    } else if r.user == Applied && r.revoke == Applied && r.credential != Refused {
      assert ActiveFor(t, cred, id);
    } else if r.user == Applied && r.revoke != Refused {
      NoneActive(s, t, id);
    } else if r.user != Refused {
      assert t.credentials == s.credentials && t.users[u] == secret;
      SoleFingerprint(s, fp, id);
    }
  }

  lemma NoneActive(s: State, t: State, id: string)
    requires t.credentials == Revoked(s, id).credentials
    ensures forall c :: !ActiveFor(t, c, id)
  {
  }

  lemma SoleFingerprint(s: State, fp: string -> string, id: string)
    requires Inv(s) && Agrees(s, fp, id)
    ensures forall c :: ActiveFor(s, c, id) ==> s.credentials[c].fingerprint == fp(s.users[s.identities[id].username])
  {
    var d :| ActiveFor(s, d, id) && s.credentials[d].fingerprint == fp(s.users[s.identities[id].username]);
  }

  lemma RotateLeavesOthers(s: State, id: string, cred: string, secret: string, fp: string -> string,
      r: RotateReplies, other: string)
    requires Inv(s) && cred !in s.credentials && other != id
    ensures Untouched(s, Rotated(s, id, cred, secret, fp, r).0, other)
  {
    if id in s.identities && other in s.identities {
      hide Rotated, NameKept, PasswordKept, CredentialKept;
      assert s.identities[id].username != s.identities[other].username;
      RotateTouches(s, id, cred, secret, fp, r);
    }
  }

  lemma RotateTouches(s: State, id: string, cred: string, secret: string, fp: string -> string, r: RotateReplies)
    requires id in s.identities && cred !in s.credentials
    ensures forall i :: NameKept(s, Rotated(s, id, cred, secret, fp, r).0, i)
    ensures forall u :: u != s.identities[id].username ==> PasswordKept(s, Rotated(s, id, cred, secret, fp, r).0, u)
    ensures forall c :: c in s.credentials && s.credentials[c].identity != id
              ==> CredentialKept(s, Rotated(s, id, cred, secret, fp, r).0, c)
  {
  }

  // ---------- Runs ----------

  /** Fresh identifiers come with each call; reconciliation also changes statuses. */
  datatype Op =
    | DoProvision(id: string, cred: string, org: string, address: string, secret: string, pr: ProvisionReplies)
    | DoRotate(id: string, cred: string, secret: string, rr: RotateReplies)
    | DoStatus(id: string, status: string)

  predicate Fresh(s: State, op: Op) {
    match op
    case DoProvision(id, cred, _, _, _, _) => id !in s.identities && cred !in s.credentials
    case DoRotate(_, cred, _, _) => cred !in s.credentials
    case DoStatus(_, _) => true
  }

  function Outcome(s: State, fp: string -> string, op: Op): (State, bool) {
    match op
    case DoProvision(id, cred, org, address, secret, r) => Provisioned(s, id, cred, org, address, secret, fp, r)
    case DoRotate(id, cred, secret, r) => Rotated(s, id, cred, secret, fp, r)
    case DoStatus(id, status) => (WithStatus(s, id, status), true)
  }

  function Exec(fp: string -> string, ops: seq<Op>): State {
    if ops == [] then State(map[], map[], map[])
    else
      var s, op := Exec(fp, ops[..|ops| - 1]), ops[|ops| - 1];
      if Fresh(s, op) then Outcome(s, fp, op).0 else s
  }

  /** The last provisioning or rotation of this identity reported success. */
  predicate LastCallSucceeded(fp: string -> string, ops: seq<Op>, id: string) {
    ops != [] &&
    var init, op := ops[..|ops| - 1], ops[|ops| - 1];
    if Fresh(Exec(fp, init), op) && !op.DoStatus? && op.id == id then Outcome(Exec(fp, init), fp, op).1
    else LastCallSucceeded(fp, init, id)
  }

  /** A call with fresh identifiers takes effect in the run; and a status change always does. */
  lemma CallsTakeEffect(fp: string -> string, ops: seq<Op>, op: Op)
    requires op.DoProvision? ==> op.id !in Exec(fp, ops).identities
    requires !op.DoStatus? ==> op.cred !in Exec(fp, ops).credentials
    ensures Exec(fp, ops + [op]) == Outcome(Exec(fp, ops), fp, op).0
    ensures op.DoStatus? && op.id in Exec(fp, ops).identities ==>
      op.id in Exec(fp, ops + [op]).identities && Exec(fp, ops + [op]).identities[op.id].status == op.status
  {
    hide Provisioned, Rotated;
    assert (ops + [op])[..|ops|] == ops;
  }

  lemma OpKeepsInv(s: State, fp: string -> string, op: Op)
    requires Inv(s) && Fresh(s, op)
    ensures Inv(Outcome(s, fp, op).0)
  {
    hide Inv, Provisioned, Rotated;
    match op
    case DoProvision(id, cred, org, address, secret, r) => ProvisionKeepsInv(s, id, cred, org, address, secret, fp, r);
    case DoRotate(id, cred, secret, r) => RotateKeepsInv(s, id, cred, secret, fp, r);
    case DoStatus(id, status) => MarkedKeeps(s, id, status, Applied);
  }

  lemma OpLeavesOthers(s: State, fp: string -> string, op: Op, other: string)
    requires Inv(s) && Fresh(s, op) && (op.DoStatus? || op.id != other)
    ensures Untouched(s, Outcome(s, fp, op).0, other)
  {
    hide Inv, Provisioned, Rotated;
    match op
    case DoProvision(id, cred, org, address, secret, r) => ProvisionLeavesOthers(s, id, cred, org, address, secret,
      fp, r, other);
    case DoRotate(id, cred, secret, r) => RotateLeavesOthers(s, id, cred, secret, fp, r, other);
    case DoStatus(id, status) =>
  }

  lemma SuccessAgrees(s: State, fp: string -> string, op: Op)
    requires Outcome(s, fp, op).1 && !op.DoStatus?
    ensures Agrees(Outcome(s, fp, op).0, fp, op.id)
  {
    hide Agrees, Provisioned, Rotated;
    match op
    case DoProvision(id, cred, org, address, secret, r) => ProvisionSucceedsIff(s, id, cred, org, address, secret,
      fp, r);
    case DoRotate(id, cred, secret, r) => RotateSucceedsIff(s, id, cred, secret, fp, r);
    case DoStatus(_, _) =>
  }

  /** In every run, with failures anywhere, an identity has at most one active credential. */
  lemma {:induction false} OneActiveCredential(fp: string -> string, ops: seq<Op>)
    ensures Inv(Exec(fp, ops)) && AtMostOne(Exec(fp, ops))
  {
    hide Outcome, Fresh, AtMostOne;
    if ops != [] {
      OneActiveCredential(fp, ops[..|ops| - 1]);
      var s, op := Exec(fp, ops[..|ops| - 1]), ops[|ops| - 1];
      if Fresh(s, op) {
        OpKeepsInv(s, fp, op);
      }
    } else {
      NothingYet();
    }
  }

  lemma NothingYet()
    ensures Inv(State(map[], map[], map[]))
  {
  }

  /** In every run, an identity whose last call reported success agrees with the server: the
      password's fingerprint is that of its sole active credential. */
  lemma {:induction false} SuccessfulCallsAgree(fp: string -> string, ops: seq<Op>, id: string)
    requires LastCallSucceeded(fp, ops, id)
    ensures Agrees(Exec(fp, ops), fp, id)
    ensures var s := Exec(fp, ops);
      forall c :: ActiveFor(s, c, id) ==> s.credentials[c].fingerprint == fp(s.users[s.identities[id].username])
  {
    hide Outcome, Fresh, AtMostOne, Inv;
    OneActiveCredential(fp, ops);
    var init, op := ops[..|ops| - 1], ops[|ops| - 1];
    var s := Exec(fp, init);
    if Fresh(s, op) && !op.DoStatus? && op.id == id {
      SuccessAgrees(s, fp, op);
    } else {
      SuccessfulCallsAgree(fp, init, id);
      OneActiveCredential(fp, init);
      if Fresh(s, op) {
        OpLeavesOthers(s, fp, op, id);
        AgreementKept(s, Outcome(s, fp, op).0, fp, id);
      }
    }
    SoleFingerprint(Exec(fp, ops), fp, id);
  }

  lemma OpKeepsTaken(s: State, fp: string -> string, op: Op, address: string)
    requires Fresh(s, op) && Taken(s, address)
    ensures Taken(Outcome(s, fp, op).0, address)
  {
    var id :| id in s.identities && s.identities[id].address == address;
    var t := Outcome(s, fp, op).0;
    assert id in t.identities && t.identities[id].address == address;
  }

  /** An address once taken, by a failed provisioning too, can never be provisioned again. */
  lemma {:induction false} AddressStaysTaken(fp: string -> string, ops: seq<Op>, more: seq<Op>, address: string)
    requires Taken(Exec(fp, ops), address)
    ensures Taken(Exec(fp, ops + more), address)
    ensures forall op: Op :: op.DoProvision? && op.address == address ==> !Outcome(Exec(fp, ops + more), fp, op).1
  {
    hide Fresh, Taken, Outcome;
    if more == [] {
      assert ops + more == ops;
    } else {
      AddressStaysTaken(fp, ops, more[..|more| - 1], address);
      assert (ops + more)[..|ops + more| - 1] == ops + more[..|more| - 1];
      var s, op := Exec(fp, ops + more[..|more| - 1]), more[|more| - 1];
      if Fresh(s, op) {
        OpKeepsTaken(s, fp, op, address);
      }
    }
    forall op: Op | op.DoProvision? && op.address == address
      ensures !Outcome(Exec(fp, ops + more), fp, op).1
    {
      TakenFails(Exec(fp, ops + more), fp, op);
    }
  }

  lemma TakenFails(s: State, fp: string -> string, op: Op)
    requires op.DoProvision? && Taken(s, op.address)
    ensures !Outcome(s, fp, op).1
  {
  }
}
