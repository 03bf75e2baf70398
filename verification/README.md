# selfu: models and proofs

selfu keeps the desired state of organizations, domains, mailboxes and aliases in PostgreSQL
and pushes it into a mail server (through a small agent beside it) and an identity provider.
This project models the places where rows and the outside world have to agree although calls
fail, requests interleave and files are rewritten as text, and proves what holds in every run.

How the models are built:

- An object or handler that updates state is a class; each of its methods is proved equal to a
  function on values, and the theorems are about that function.
- A protocol of several requests is a state machine. A `Step` carries everything the
  environment decides (replies, lost replies, fresh identifiers, time); a step that is not
  possible changes nothing, so every `seq<Step>` is a run and every interleaving is such a
  sequence. Each SQL statement is one atomic guarded update, each external call one step.
- An uninterrupted handler is proved to be the run of its own steps. Its queries may go
  unanswered; each of its statements and calls is applied, refused, or applied with the answer
  lost.
- Texts are sequences of ASCII characters; hashes, IDNA, DNS answers and the identity provider
  are parameters.

| file | what it models |
|---|---|
| `Text.dfy`, `Replies.dfy` | trimming, case folding, cutting, splitting, joining; how a call can end |
| `AliasFile.dfy`, `PaddedAliases.dfy` | the agent's alias operation on the text of an alias file; passes with padded local parts |
| `Reconcile.dfy`, `PassEffects.dfy`, `Convergence.dfy`, `OneCycle.dfy` | reconciliation of mail domains; what one pass does under any failures, what it reaches and when, what it never touches |
| `MailRouting.dfy`, `AliasRows.dfy` | alias creation interleaved with reconciliation; same-organization routing; one row per address |
| `Invites.dfy`, `InviteHandlers.dfy`, `InviteSafety.dfy`, `InviteAttempts.dfy`, `OwnerProvenance.dfy`, `GrantProvenance.dfy` | invitations and role grants: the steps, the handlers, what holds as they interleave |
| `Onboarding.dfy`, `OnboardingSafety.dfy`, `VerifyHandlers.dfy` | the setup wizard, verification endpoints and poller |
| `Limiter.dfy` | the bootstrap login limiter |
| `Provision.dfy`, `Rotations.dfy`, `OnboardUser.dfy`, `SenderPolicy.dfy` | mailbox credentials, the composite onboarding call, sender authorization |
| `Names.dfy`, `Hostnames.dfy`, `Slug.dfy` | domain names, addresses, host names, slugs |
| `External.dfy` | the sync of external resources |

Where the code and its own comments or names disagree, the model follows the code, and a lemma
gives the exact condition or a run that shows the difference:

- An unreadable alias file is treated as an empty one and overwritten
  (`AliasFile.ForeignLinesKeptIff`, and the `lost` case of `Convergence.PassIsConservative`).
- `ValidateLocalPart` trims only its own copy, so a padded local part passes, and its alias
  line is then duplicated on every write (`AliasFile.RepeatIsIdempotentIff`,
  `PaddedAliases.SecondPassIsIdentityIff`, `Names.LocalIsValidIff`).
- The 253-character check precedes the conversion to ASCII (`Names.NormalizeIdempotentIff`).
- `ValidateAliasDestinations` speaks of active identities but ignores the status
  (`MailRouting.ValidationIgnoresStatus`).
- Two interleaved invites of one pair both stay redeemable
  (`InviteAttempts.InterleavedCreatesLeaveTwo`); and an accept changes the password before it
  consumes the invite, so it can do the one without the other, or burn the token without the
  membership (`InviteAttempts.FailsToConsumeIff`, `InviteAttempts.FailureBurnsTokenIff`,
  `InviteHandlers.ChangesWithoutConsumingIff`, `InviteHandlers.Platform.AcceptInvite`).
- An error of the membership query is taken for no membership, so a member can be invited
  (`InviteHandlers.Platform.CreateInvite`).
- The onboarding call is described as idempotent. A lookup of a mail domain that fails makes it
  choose another domain, where a repetition provisions a second mailbox
  (`OnboardUser.SecondDomainSecondMailbox`); it is idempotent under every pattern of answers
  exactly when that cannot happen (`OnboardUser.IdempotentIff`).
- A rotation overtaken by another one reports success although the password is the other's
  (`Rotations.OvertakenRotationDisagrees`, with the exact condition in `Rotations.AgreesNowIff`).
- The wizard can replace the primary domain while a verification is in flight
  (`OnboardingSafety.ReplacedPrimaryIsUnverified`).
- A failed provisioning undoes nothing but the status, and repeating the onboarding call then
  reports success for a mailbox that need not exist (`Provision.FailedProvisionLeaves`,
  `Provision.AddressStaysTaken`, `OnboardUser.RetryIsHollowIff`).
- A domain with host names is not to be deleted, but they are counted before the delete: a host
  name bound in between goes with its domain (`Hostnames.LateBindingIsLost`).
- With no policy file the post-data hook refuses every sender, the user's own address included
  (`SenderPolicy.MissingPolicyRefusesAll`).
- The hook hands MAIL FROM to grep without a `--`, so a sender with a hyphen in front is read
  as options and not decided by membership (`SenderPolicy.MembershipIff`,
  `SenderPolicy.OptionSendersAreAccepted`).
- One reconciliation pass is described as idempotent; a second cycle can still change
  something (`OneCycle.OneCycleIffUnaffected`, with an instance in
  `Convergence.OneCycleIsNotEnough`).
- Aliases are described as routed within one organization; the files are, exactly when domain
  names are not shared (`MailRouting.FilesStayInOrganizationIff`).

## Model

| member | source | states |
|---|---|---|
| Text.LowerIff | cmd/chasquid-agent/main.go:385-388 | Two texts have one lower-case form exactly when they have one length and each pair of characters is equal or the two cases of one ASCII letter. |
| Text.TrimIs | cmd/chasquid-agent/main.go:380-384 | Trimming takes the six blank characters off both ends, all of them and nothing else. |
| AliasFile.KeptLines | cmd/chasquid-agent/main.go:378-392 | The filtering loop keeps exactly the non-blank trimmed lines whose case-folded key is not the alias's, in order. |
| AliasFile.SetAliasText | cmd/chasquid-agent/main.go:376-398 | The text that overwrites the file is the specified one, for a missing, unreadable or readable file, with and without destinations. |
| AliasFile.LinesRender | cmd/chasquid-agent/main.go:379-397 | What the agent writes it reads back as the same lines. |
| AliasFile.AliasLineKey | cmd/chasquid-agent/main.go:385-396 | The line written for a well-formed alias is one line that is found again under exactly that alias's key. |
| AliasFile.SetAliasIsMapUpdate | cmd/chasquid-agent/main.go:376-398 | Parsed again, the file is the old case-insensitive map with this key set to the new destinations, or removed when there are none; duplicates of the key collapse; all other lines keep content and order. |
| AliasFile.SetAliasAnySpelling | cmd/chasquid-agent/main.go:385-396 | A line whose text before the colon is the local part up to blanks and ASCII case is gone, unless it is the line written; every other line is kept. |
| AliasFile.RenderIs | cmd/chasquid-agent/main.go:397 | Each line is ended by a newline; a file without lines is one newline. |
| AliasFile.SetAliasCommutes | cmd/chasquid-agent/main.go:376-398 | Updates of case-insensitively distinct keys commute as maps. |
| AliasFile.NormalForm | cmd/chasquid-agent/main.go:376-398 | A pass over distinct aliases turns any file, byte for byte, into its foreign lines in order followed by the managed lines in alias order. |
| AliasFile.LastPassWins | cmd/chasquid-agent/main.go:376-398 | A later pass over the same aliases gives the text it would have given on the original file, whatever the earlier pass wrote. |
| AliasFile.SecondPassIsIdentity | cmd/chasquid-agent/main.go:376-398 | Repeating a pass returns exactly the same text although each operation moves its line to the end. |
| AliasFile.EntriesAfterPass | internal/recon/mail.go:45-83 | After a pass each alias is recorded once with its destinations, or not at all when it has none. |
| AliasFile.ForeignLinesKeptIff | cmd/chasquid-agent/main.go:379-392 | Other lines survive exactly when the file could be read or held none. |
| AliasFile.RepeatIsIdempotentIff | cmd/chasquid-agent/main.go:385-388 | Setting an alias twice equals setting it once exactly when its local part is trimmed. |
| PaddedAliases.SecondPassIsIdentityIff | cmd/chasquid-agent/main.go:376-398 | For any aliases, padded or not, repeating a pass changes nothing exactly when each one with destinations has, once trimmed, the key of an unpadded alias of the pass; otherwise the file grows. |
| PaddedAliases.ResetAllIsRead | cmd/chasquid-agent/main.go:379-397 | The lines read back after a pass, padded local parts included. |
| Reconcile.MailReconciler.ReconcileDomain | internal/recon/mail.go:37-112 | Under any pattern of failing calls the loops leave the specified world and counters. |
| Reconcile.MailReconciler.ReconcileOnce | cmd/worker/main.go:99-121 | A cycle is the specified sequence of domain passes. |
| Reconcile.MailReconciler.SuspendMissing | internal/recon/mail.go:86-110 | The identity loop suspends, and reports, exactly the active identities whose user check answered absent. |
| Reconcile.ActiveAddressesAre | internal/store/mail.go:194-211 | The query lists, in its order, the address of each active identity of the organization whose user is among those asked for, and no other. |
| Reconcile.MemberAddressesIff | internal/store/mail.go:343-347 | An address is listed exactly when some such identity has it. |
| Reconcile.MemberAddressesUnique | internal/store/mail.go:343-347 | There is only one such list. |
| PassEffects.AliasesInOrder | internal/recon/mail.go:41-45 | A pass visits exactly the domain's aliases, in the order of the query. |
| PassEffects.RowsAfterPass | internal/recon/mail.go:45-76 | Under every pattern of failures an alias row changes exactly when it is an active group alias of the domain whose lookups answer and whose update is applied, whatever becomes of the file, and then only to its members' addresses. |
| PassEffects.FilesAfterPass | internal/recon/mail.go:64-83 | Under every pattern of failures that reads what it overwrites, the file records each active alias whose turn wrote, signalled or not and whether or not its row was updated, with exactly its destinations; all other keys record what they did. |
| PassEffects.IdentitiesAfterPass | internal/recon/mail.go:86-100 | An identity is suspended exactly when both listings answer, it is an active one of the domain, its check answers absent and the update is applied. |
| PassEffects.MissingInOrder | internal/recon/mail.go:90-99 | The addresses reported are those of the domain's active identities found absent, in the order of the query, updated or not. |
| PassEffects.CountersAfterPass | internal/recon/mail.go:71-82 | The counters are the numbers of active aliases, with a group and without, whose file was written and the daemon signalled. |
| Convergence.LastCycleWins | cmd/worker/main.go:99-121 | On all files at once the later of two passes over the same aliases decides. |
| Convergence.TwoCyclesConverge | cmd/worker/main.go:99-121 | With no call failing a third cycle changes no row and no byte; every identity left active has a mail user; the files are those one run of the final operations makes of the original ones. |
| Convergence.FileMatchesRows | internal/recon/mail.go:45-83 | After two cycles each active alias's file entry is exactly its desired destinations, absent when empty. |
| Convergence.GroupAliasFollowsMembers | internal/recon/mail.go:49-76 | After two cycles an active group alias has, in its row and in the file, exactly the addresses of its members' active identities of the organization, in query order. |
| Convergence.FinalText | internal/recon/mail.go:45-83 | After two cycles each touched file is, byte for byte, the original foreign lines followed by the managed lines. |
| OneCycle.OneCycleIffUnaffected | cmd/worker/main.go:99-121 | With no call failing, the second cycle changes nothing exactly when no domain `k` has an active group alias with a member whose identity, of a domain `j >= k` and of the organization of `k`, is active without a mail user. |
| OneCycle.AffectedChanges | internal/recon/mail.go:49-100 | Otherwise the second cycle takes at least one destination off such an alias. |
| Convergence.PassIsConservative | internal/recon/mail.go:37-112 | Under every pattern of failures a pass keeps all other files, all foreign lines of its own (all lost exactly when an attempted write replaced an unreadable file), all rows but group destinations, and moves identities only from active to suspended and only after an answer of absent. |
| Convergence.HealthyReport | internal/recon/mail.go:71-82 | With no call failing the two counters are the numbers of the domain's active aliases with and without a group. |
| Convergence.MissingReport | internal/recon/mail.go:90-99 | The addresses reported missing are exactly those of the domain's active identities for which the user check answered absent. |
| MailRouting.AliasHandler.GetMailIdentityByAddress | internal/store/mail.go:88-95 | The row of an address is found exactly when there is one. |
| MailRouting.AliasHandler.ValidateAliasDestinations | internal/store/mail.go:127-138 | A list is accepted exactly when every destination is the address of an identity of the organization. |
| MailRouting.AliasHandler.GroupDestinations | internal/httpapi/mail_handlers.go:343-355 | The loop collects, in query order, each own address of the members' active identities in the organization, and no other. |
| MailRouting.AliasHandler.CreateMailAlias | internal/httpapi/mail_handlers.go:316-396 | Uninterrupted, the handler is the run of its statements, and creates the alias exactly when the group belongs to the organization, the local part is valid (padded or not), there is something to deliver to, every destination validates, the file is written, and neither the local part nor the address is taken; the one row added is active, of this domain and group, under the local part in lower case, with the destinations given or its members' addresses. |
| MailRouting.TurnAlone | internal/recon/mail.go:45-83 | Uninterrupted, the statements of a turn of the alias loop are the turn of the reconciler. |
| MailRouting.ValidationIgnoresStatus | internal/store/mail.go:124-138 | Changing an identity's status changes no verdict of the validation. |
| MailRouting.RowsStayInOrganization | internal/httpapi/mail_handlers.go:366-388 | In every interleaving of the statements of alias creation and reconciliation each stored alias destination is the address of an identity of the alias's own organization. |
| AliasRows.NoTwoRowsForOneAddress | internal/httpapi/mail_handlers.go:381-393 | In every interleaving no two alias rows have one local part in one domain, or in two domains of one name. |
| AliasRows.NoTwoIdentitiesForOneAddress | internal/store/mail.go:60-73 | Nor do two identities have one address. |
| MailRouting.AliasLineReads | cmd/chasquid-agent/main.go:379-397 | Whatever padding a local part has, each line it leaves in the file reads back as no destination or exactly the alias's destinations. |
| MailRouting.FilesStayWithRegistrants | internal/httpapi/mail_handlers.go:366-396 | In every interleaving each line of an alias file that was not there from the start reads back as destinations of one organization that registered the domain name, also when the row insertion ends in a conflict after the write. |
| MailRouting.FilesStayInOrganizationIff | internal/httpapi/mail_handlers.go:366-396 | In every run the files of all domains stay within the domains' own organizations exactly when every domain name belongs to one organization. |
| MailRouting.SharedNameMixesOrganizations | internal/store/migrations/00003_domains.sql:20 | The schema allows one name for two organizations; then a run from an empty platform writes an alias of one into the file the other's domain uses. |
| InviteHandlers.Platform.ConsumeInvite | internal/store/invites.go:83-102 | Unless refused, writes the acceptance of an unconsumed, unexpired row, and only of such a row; returns it when answered. |
| InviteHandlers.Platform.AcceptInvite | internal/httpapi/invite_handlers.go:176-253 | Uninterrupted, the handler is the run of its four steps; however its lookup, password change, consumption and membership write end, its outcome, the passwords, the invites and the roles are stated exactly. |
| InviteHandlers.ChangesWithoutConsumingIff | internal/httpapi/invite_handlers.go:215-229 | Such an accept changes the password without consuming the invite exactly when the change took effect and its answer was lost, or the consumption was refused, or the invite expires at that very moment. |
| InviteHandlers.Platform.SetMembership | internal/httpapi/invite_handlers.go:232-236 | The membership of an accept is written unless the write is refused; the accept succeeds exactly when it also answers. |
| InviteHandlers.Platform.CreateInvite | internal/httpapi/invite_handlers.go:71-166 | Uninterrupted, the handler is the run of its six steps; however they end, its answer and the invites are stated exactly, with who may invite to which role spelled out by the role the actor holds; a failure after the burn leaves the pair's links burnt without a new one, or with one nobody was sent. |
| InviteHandlers.Platform.ExpirePendingInvites | internal/store/invites.go:52-63 | Burns every unaccepted invite of the pair, unless refused. |
| InviteHandlers.Platform.AddOrganizationMember | internal/httpapi/identity_handlers.go:82-122 | Uninterrupted, the handler is the run of its four steps; the role is written exactly when the role the actor holds covers it, by the table, and the write is not refused, and success reported exactly when it also answers; every other answer is stated. |
| InviteHandlers.Platform.Authorize | internal/httpapi/identity_handlers.go:489-508 | The shared checks are the run of session, requireOrgRole and the owner rule, and pass exactly for a platform admin, or an owner or admin of the organization whose role query answers, who may give the role; a member-add needs the role itself. |
| InviteHandlers.AdminGrantIff | internal/httpapi/setup_handlers.go:313 | The admin-only handlers write a role exactly for a platform admin. |
| InviteSafety.AcceptanceIsWriteOnce | internal/store/invites.go:52-102 | However a run goes on, an invite row never changes but in its acceptance, which is written at most once. |
| InviteSafety.ConsumptionIsSafe | internal/httpapi/invite_handlers.go:190-230 | In every interleaving an invite is consumed at most once, only after the same accept set the password, unexpired, and never after a re-invite superseded it, even if the accept had read it before. |
| InviteSafety.RedemptionIsFaithful | internal/httpapi/invite_handlers.go:222-236 | Every membership written by an accept has the organization, user and role of the one invite that accept consumed. |
| InviteSafety.PendingIff | internal/store/invites.go:52-63 | An invite is unaccepted exactly when the history neither consumed it nor burnt its pair after it was created. |
| InviteAttempts.FailsToConsumeIff | internal/httpapi/invite_handlers.go:190-228 | In every run an accept whose consumption was carried out, answered or not, and whatever became of it afterwards, had changed the password, and fails to consume the invite exactly when, between its look and its redemption, the invite was consumed or its pair re-invited, or the invite had expired by then. |
| InviteAttempts.RedemptionMissesIff | internal/store/invites.go:83-102 | The same for each redemption event: it misses exactly under that condition, and the password had been set. |
| InviteAttempts.ChangedFate | internal/httpapi/invite_handlers.go:215-236 | In every run an accept that changed the password never both consumes and misses the invite; when it did neither it is about to redeem or failed before, and one that ended in a conflict missed it. |
| InviteAttempts.BurntWithoutMembershipIff | internal/httpapi/invite_handlers.go:172-175 | In every run a token burnt by an accept came with its membership exactly when the accept reported success or the answer to the membership write was lost; invalid and conflicting attempts burn nothing. |
| InviteAttempts.FailureBurnsTokenIff | internal/httpapi/invite_handlers.go:222-236 | A step that fails an attempt leaves its token burnt exactly when the attempt had consumed it, or the step is the consumption of a redeemable invite and its answer is lost; it leaves the membership written exactly when it is the membership write and its answer is lost. |
| InviteAttempts.UninterruptedCreateSupersedes | internal/httpapi/invite_handlers.go:117-136 | Burn and insert without a step between leave exactly the new link pending for the pair. |
| InviteAttempts.InterleavedCreatesLeaveTwo | internal/httpapi/invite_handlers.go:117-136 | A run from an initial state in which two interleaved creates leave two pending links for one pair. |
| InviteAttempts.LosingAcceptSetsPassword | internal/httpapi/invite_handlers.go:215-228 | A run from an initial state in which an accept that loses the race leaves its password in force. |
| OwnerProvenance.EveryOwnerGrantWasEntitled | internal/httpapi/invite_handlers.go:97-103 | In every run every owner role written, by any of the granting handlers and however much later an invite is redeemed, was preceded by a state in which the acting (for an invite, the inviting) user was an owner of that organization or a platform admin. |
| OwnerProvenance.WitnessIsTrue | internal/httpapi/identity_handlers.go:92-109 | A check that saw an owner or an admin happened in a state where that was so. |
| GrantProvenance.EveryGrantWasManaged | internal/httpapi/identity_handlers.go:489-508 | In every run every role written, by whichever handler and however late an invite is redeemed, was preceded by a state in which its author was a platform admin or an owner or admin of that organization. |
| GrantProvenance.EveryInviteWasManaged | internal/httpapi/invite_handlers.go:71-103 | So was every invite. |
| GrantProvenance.MemberAddGivesOwnRole | internal/httpapi/identity_handlers.go:95-109 | A member-add comes to its write only if its author was, in an earlier state, a member of the organization with at least the role given. |
| GrantProvenance.InvitingWritesNoRole | internal/httpapi/invite_handlers.go:67-70 | No step of an invite request writes a role. |
| VerifyHandlers.Tables.SetInstallationPrimaryDomain | internal/store/setup.go:35-46 | Writes the primary exactly while the installation is not onboarded, unless refused; reports it when answered. |
| VerifyHandlers.Tables.SetInstallationProvider | internal/store/setup.go:48-59 | Writes the provider settings exactly while the installation is not onboarded, unless refused; reports it when answered. |
| VerifyHandlers.Tables.SetInstallationOnboarded | internal/store/setup.go:73-79 | Writes the time given once, unless refused; a second call changes nothing and is no error. |
| VerifyHandlers.Tables.CreateSetup | internal/httpapi/setup_handlers.go:215-358 | Uninterrupted, the wizard is the run of its four steps; however they end, the domain, the settings and the primary are stated exactly, each written only after the one before was answered, and success means all three were. |
| OnboardingSafety.OnboardedAtMostOnce | internal/store/setup.go:100-102 | In every interleaving `onboarded_at` is set at most once. |
| OnboardingSafety.OnboardedWasProven | internal/httpapi/verify_poll.go:22-91 | An onboarded installation was onboarded, at the recorded time, for a domain that had been primary and had been marked verified after a lookup returned its token. |
| OnboardingSafety.MarkedWasProven | internal/httpapi/domain_handlers.go:112-121 | Every mark as verified, by endpoint, poller or per-domain verify, follows a lookup that returned the token the domain was created with. |
| OnboardingSafety.PollerStopsOnlyWhenOnboarded | internal/httpapi/verify_poll.go:97-140 | The stop looks at nothing; still, in every interleaving the poller stops on its own only after the installation was onboarded, and it stays so. |
| OnboardingSafety.FrozenOnceOnboarded | internal/store/setup.go:91-102 | From any onboarded state every run leaves the row as it is, except that the primary reference is cleared exactly when the run deletes that domain. |
| OnboardingSafety.OnboardingVerifiesPrimaryIff | internal/httpapi/verify_poll.go:22-91 | At the onboarding step the current primary is verified exactly when it is none, is the domain this verification read, or was verified already. |
| OnboardingSafety.CalmRunsVerifyPrimary | internal/httpapi/setup_handlers.go:351-358 | If no primary is named while a verification is in flight, an onboarded installation's primary is verified in every state. |
| OnboardingSafety.ReplacedPrimaryIsUnverified | internal/httpapi/setup_handlers.go:355-358 | From a fresh installation a run with two wizards and one verification ends onboarded with an unverified primary. |
| VerifyHandlers.HasRecord | internal/httpapi/verify_poll.go:54-60 | The scan finds the expected record exactly when it is among those returned. |
| VerifyHandlers.Tables.Prove | internal/httpapi/verify_poll.go:32-75 | Read, lookup and mark are the run of their three steps; the row is marked exactly when it was read, needs its record, the record is found and the mark is not refused; the request goes on exactly when the row needs no record or the mark was answered. |
| VerifyHandlers.Tables.RunVerifySetup | internal/httpapi/verify_poll.go:22-91 | Uninterrupted, for endpoint and poller and however its calls end, the mark and the onboarding time are stated exactly; onboarded is reported exactly when the time was written with an answer. |
| VerifyHandlers.SilentIff | internal/httpapi/verify_poll.go:71-78 | Such an attempt leaves a mark or an onboarded installation behind without reporting it exactly when the answer to the mark or to the completion was lost, or the completion failed after the mark. |
| VerifyHandlers.Tables.VerifySetup | internal/httpapi/setup_handlers.go:382-390 | The wizard's endpoint is the run of its five steps with that outcome; an installation it onboarded, reported or not, has a verified primary. |
| VerifyHandlers.Tables.PollVerificationOnce | internal/httpapi/verify_poll.go:116-140 | Uninterrupted, a turn of the poller stops the loop exactly when its own read answers and either says onboarded or the attempt then reports it; rows are stated exactly, and with the answer to the completion lost the loop goes on although the installation is onboarded. |
| VerifyHandlers.Tables.VerifyDomain | internal/httpapi/domain_handlers.go:86-140 | Uninterrupted, the per-domain endpoint marks exactly when the record is found and the mark is not refused, and reports it exactly when that is answered. |
| VerifyHandlers.Tables.DeleteDomainRow | internal/store/domains.go:232 | A deleted domain is forgotten as the primary, and nothing else changes. |
| Limiter.LoginLimiter.Allow | internal/httpapi/setup_handlers.go:64-72 | Lets an attempt through exactly when the client has no window of the last sixty seconds or fewer than ten failures in it. |
| Limiter.LoginLimiter.RecordFail | internal/httpapi/setup_handlers.go:74-83 | Counts in a live window, otherwise starts one now. |
| Limiter.LoginLimiter.SetupLogin | internal/httpapi/setup_handlers.go:121-134 | A wrong password is compared and counted exactly when the limiter lets the attempt through; success resets. |
| Limiter.CountBound | internal/httpapi/setup_handlers.go:64-89 | In every run with at most `c` attempts between `allow` and `recordFail` a client's count never exceeds 9 + c. |
| Limiter.BoundIsReached | internal/httpapi/setup_handlers.go:64-89 | For every positive `c` some such run reaches exactly 9 + c. |
| Limiter.NineteenPerMinute | internal/httpapi/setup_handlers.go:64-83 | Tried one at a time with no success in between, at most nineteen passwords of a client are compared in any closed minute, whatever other clients do. |
| Limiter.NineteenAreReached | internal/httpapi/setup_handlers.go:64-83 | Nineteen are possible, even within a nanosecond. |
| Limiter.BlockedForTheMinute | internal/httpapi/setup_handlers.go:64-72 | A client with ten failures is let through again exactly when more than sixty seconds have passed since its window began. |
| Limiter.SuccessLetsIn | internal/httpapi/setup_handlers.go:85-89 | Or after a success of its own. |
| Provision.MailPlatform.Provisioner | internal/provision/mail.go:47-86 | For every reply of every call the sequence leaves the specified tables, users and verdict. |
| Provision.MailPlatform.Rotate | internal/provision/mail.go:90-109 | For every reply of every call the rotation leaves the specified tables, users and verdict. |
| Provision.MailPlatform.ChangePassword | cmd/chasquid-agent/main.go:163-177 | Remove, whatever comes of it, then add, which the server refuses for an existing user. |
| Provision.MailPlatform.RevokeCredentialsByIdentity | internal/store/mail.go:154-161 | Exactly the identity's active credentials become revoked. |
| Provision.ProvisionSucceedsIff | internal/provision/mail.go:47-86 | Success is reported exactly when the address was free in table and server and every fatal call was applied; then the password's fingerprint is that of the new active credential. |
| Provision.SuccessfulProvisionLeaves | internal/provision/mail.go:58-85 | A success leaves the identity with this organization, address and user name, active exactly when the last update took effect, its one credential and the mail user, and nothing else changed. |
| Provision.ProvisionElsewhere | internal/provision/mail.go:47-86 | Whatever the replies, provisioning one address leaves every other address as it is. |
| Provision.FailedProvisionLeaves | internal/provision/mail.go:55-72 | What a failed provisioning of a free address leaves, exactly: the credential is active iff the identity was created and the credential's insert took effect; the address is taken iff the identity's insert took effect; the server has a new user iff the call took effect and its answer was lost; and the status. |
| Provision.RotateSucceedsIff | internal/provision/mail.go:90-109 | Success is reported exactly when the user was removed or absent and every later call applied; then password and credential agree whatever the state was. |
| Provision.RotationLeaves | internal/provision/mail.go:90-109 | What a rotation leaves under every pattern of replies: user, old credentials and the new one, exactly. |
| Provision.RotateAgreesIff | internal/provision/mail.go:90-109 | A rotation, failed or not, leaves an agreeing identity agreeing exactly when the user was never removed or everything after the removal was applied. |
| Provision.OneActiveCredential | internal/store/mail.go:320-326 | In every sequential run with failures anywhere an identity has at most one active credential. |
| Provision.SuccessfulCallsAgree | internal/provision/mail.go:47-109 | In every such run an identity whose last call reported success has a server password whose fingerprint is that of its sole active credential. |
| Provision.AddressStaysTaken | internal/provision/mail.go:69-72 | An address once taken, by a failed provisioning too, is never provisioned again. |
| Rotations.EverTwoIff | internal/provision/mail.go:90-109 | In every interleaving of the statements of provisionings and rotations an identity has two active credentials at some point exactly when two inserts for it have no revocation between them. |
| Rotations.TwoActiveNowIff | internal/store/mail.go:320-326 | It has two now exactly when none came since either. |
| Rotations.RotateAlone | internal/provision/mail.go:90-109 | Uninterrupted, the three statements are the rotation proved of the handler. |
| Rotations.ProvisionAlone | internal/provision/mail.go:47-86 | Uninterrupted, the four statements are the provisioning proved of the handler. |
| Rotations.CrossedRotationsLeaveTwo | internal/provision/mail.go:95-104 | A run from an empty platform in which two crossed rotations leave two active credentials. |
| Rotations.AgreesNowIff | internal/provision/mail.go:62-104 | In every interleaving password and credentials of an identity agree exactly when the password set last for its user has a fingerprint that was inserted for it with no revocation since. |
| Rotations.OvertakenRotationDisagrees | internal/provision/mail.go:95-104 | A run from an empty platform in which one rotation runs between the password change and the revocation of another: every call is applied, and the only active credential is not that of the password. |
| OnboardUser.ActiveOrgMailDomain | internal/httpapi/onboard_handlers.go:236-253 | The search stops at the first verified domain with active mail among those whose mail domain lookup is answered, and finds none exactly when there is none. |
| OnboardUser.Handler.OnboardUser | internal/httpapi/onboard_handlers.go:44-232 | The handler leaves the specified world and response whichever of its lookups answer and for every reply of its calls. |
| OnboardUser.RoleIsAsSent | internal/httpapi/onboard_handlers.go:60-67 | A success writes exactly the role sent, member for none; any other text is rejected with nothing changed. |
| OnboardUser.OnlyThoseWhoMay | internal/httpapi/onboard_handlers.go:47-76 | Who is not a platform admin, an owner, or an admin asking for less than owner is rejected with nothing changed, and so is one whose role could not be read. |
| OnboardUser.AcceptedIff | internal/httpapi/onboard_handlers.go:44-108 | A request comes to its first write exactly when it has an email and a known role, its author may give it and is read to, and a mailbox asked for has an address. |
| OnboardUser.AddressAskedFor | internal/httpapi/onboard_handlers.go:85-108 | That address is built at the first usable domain whose lookup answers, from the local part sent or what precedes the first at-sign of the email. |
| OnboardUser.TargetIs | internal/httpapi/onboard_handlers.go:86-107 | A mailbox has that address whenever there is such a domain, the list is answered and mail is set up, and none otherwise. |
| OnboardUser.CallWrites | internal/httpapi/onboard_handlers.go:114-173 | Whatever the calls reply, users, roles and groups after the call, exactly. |
| OnboardUser.SuccessHolds | internal/httpapi/onboard_handlers.go:113-208 | After a success user, role, group membership and mailbox row are all there. |
| OnboardUser.RepeatChangesIff | internal/httpapi/onboard_handlers.go:44-208 | Repeating a successful request at once keeps users, roles and groups and answers the same user, whatever answers and replies it gets; it changes something, and can show a secret, exactly when its own search leads to a free address and the identity's insert is made and takes effect. |
| OnboardUser.IdempotentIff | internal/httpapi/onboard_handlers.go:40-43 | The repetition changes nothing under every pattern of answers and replies exactly when no mailbox is asked for, the first call cost the actor the role it needs, or every usable domain of the organization leads to an address that is taken or cannot be built. |
| OnboardUser.SameDomainIdempotent | internal/httpapi/onboard_handlers.go:234-253 | When both searches stop at the same domain, or the second at none, nothing changes and no secret is shown whatever the calls reply. |
| OnboardUser.OneDomainIdempotent | internal/httpapi/onboard_handlers.go:234-253 | The same for an organization with at most one usable domain, whatever lookups answer. |
| OnboardUser.SecondDomainSecondMailbox | internal/httpapi/onboard_handlers.go:245-248 | With two usable domains and a lookup that fails on the repetition, both calls succeed with a secret and the user ends with two mailboxes. |
| OnboardUser.RepeatSucceedsIff | internal/httpapi/onboard_handlers.go:44-76 | With everything answered and applied and the same domain found, the repetition succeeds exactly when the first call did not lower the actor's own role to member. |
| OnboardUser.SecretIff | internal/httpapi/onboard_handlers.go:179-208 | A secret is shown exactly when a mailbox was asked for at a free address, and it agrees with the mail server. |
| OnboardUser.TakenNeedsLookup | internal/httpapi/onboard_handlers.go:109-111 | A taken address is accepted only if its lookup answered. |
| OnboardUser.MailboxHasUserIff | internal/httpapi/onboard_handlers.go:179-208 | After a success with a mailbox the server has a user for the address exactly when a secret was shown or it had one before. |
| OnboardUser.RetryIsHollowIff | internal/httpapi/onboard_handlers.go:109-111 | A successful repetition of a rejected call, at the same domain or another, shows a secret exactly when its address had no identity and the first call left no row for it; the server then has the user exactly when a secret was shown, it had one before, or the first call added it and only its answer was lost. |
| SenderPolicy.PolicyDir.EnsureSenderPolicy | cmd/chasquid-agent/main.go:207-226 | The file written for an address holds one allowed sender per line. |
| SenderPolicy.PolicyLines | cmd/chasquid-agent/main.go:217-221 | Read line by line the file is the list that was printed. |
| SenderPolicy.HookIsMembership | cmd/chasquid-agent/main.go:326-342 | An authenticated sender that grep does not read as options passes exactly when MAIL FROM, or an at-sign and what follows its last at-sign, is in the list written. |
| SenderPolicy.MembershipIff | cmd/chasquid-agent/main.go:331 | For all lists and all behaviour of grep on other options, the hook decides by membership exactly for senders without a hyphen in front, and a hyphen alone. |
| SenderPolicy.HookIsVerdict | cmd/chasquid-agent/main.go:326-342 | The hook's verdict on every sender, with the search that `-e` and `-v` at its front ask for. |
| SenderPolicy.ReadOptionsIff | cmd/chasquid-agent/main.go:331 | A sender is read as a search exactly when options that change nothing or invert are ended by an `e` with the pattern behind it. |
| SenderPolicy.AfterLastAtIs | cmd/chasquid-agent/main.go:335 | The domain is what follows the last at-sign, or the whole sender without one. |
| SenderPolicy.UnauthenticatedPasses | cmd/chasquid-agent/main.go:329 | Mail without an authenticated user passes whatever the policies. |
| SenderPolicy.DomainPolicyAdmitsDomain | cmd/chasquid-agent/main.go:335-338 | A line that names a domain admits every sender of it. |
| SenderPolicy.ProvisionedPolicyVerdict | internal/provision/mail.go:73-77 | Among senders not read as options the policy installed with a mailbox admits exactly the mailbox's own address; of the others, those whose options search for the address, or for anything else inverted. |
| SenderPolicy.OptionSendersAreAccepted | cmd/chasquid-agent/main.go:331 | `-ve` before any other text than the address is accepted for the mailbox, and so is `-e` before the address. |
| SenderPolicy.MissingPolicyRefusesAll | cmd/chasquid-agent/main.go:329-341 | Without a policy every authenticated sender is refused; with an empty one, every one not read as options. |
| Names.NormalizeDomain | internal/domain/domains.go:49-84 | The nested loops report the specified first error, or the name. |
| Names.NormalizedIsCanonical | internal/domain/domains.go:60-84 | Whatever the conversion to ASCII does, an accepted name consists of lower-case letter-digit-hyphen labels of 1 to 63 characters. |
| Names.FixedPointIff | internal/domain/domains.go:49-84 | The names returned unchanged are exactly the canonical ones of at most 253 characters that the conversion leaves alone. |
| Names.NormalizeIdempotentIff | internal/domain/domains.go:55-58 | Normalizing again changes nothing exactly when the result has at most 253 characters. |
| Names.NormalizeAscii | internal/domain/domains.go:49-84 | For ASCII input the result is canonical, at most 253 characters long, the input up to case, padding and a trailing dot, and normalizing is idempotent. |
| Names.NormalizedAsciiIff | internal/domain/domains.go:49-84 | Exactly these ASCII texts are accepted, and with this result: a canonical name of at most 253 characters in any case, with blanks around it and perhaps a dot behind, that the conversion takes. |
| Names.RefusedBecause | internal/domain/domains.go:49-84 | The error is that of the first check that fails: the text, then its first bad label, then the label's first bad character. |
| Names.WithinIff | internal/domain/domains.go:108-118 | On canonical names containment is exactly suffix of the label lists. |
| Names.WithinFoldedIff | internal/domain/domains.go:104-118 | On all texts containment is suffix of the labels of the folded names, which must not be empty. |
| Names.WithinPartialOrder | internal/domain/domains.go:104-118 | Containment is reflexive, antisymmetric and transitive. |
| Names.WithinIsTreeOrder | internal/domain/domains.go:104-118 | Two names that contain a third are comparable. |
| Names.RawCheckTransfers | internal/httpapi/domain_handlers.go:204-216 | For ASCII input the containment check on the raw host name is the check on the normalized one stored. |
| Names.ValidateLocalPart | internal/domain/mail.go:44-66 | The loop accepts exactly the texts whose trimmed form is a dot-atom of at most 64 allowed characters. |
| Names.DotAtomIff | internal/domain/mail.go:44-66 | These are the texts of at most 64 characters whose pieces between dots are non-empty runs of letters, digits, underscores, hyphens and plus signs. |
| Names.AddressIsBuiltIff | internal/domain/mail.go:70-83 | An address is built exactly when both parts are valid: the port check never fires. |
| Names.AddressParts | internal/domain/mail.go:78 | Splitting a built address at the at-sign recovers its two parts. |
| Names.AddressInjective | internal/domain/mail.go:70-83 | Two addresses are equal exactly when the local parts agree up to case and the normalized domains agree. |
| Names.LocalIsValidIff | internal/domain/mail.go:44-78 | The recovered local part is a valid one of at most 64 characters exactly when the one given carried no padding. |
| Names.AddressSuitsAliasFile | internal/httpapi/mail_handlers.go:376-388 | The local part of a built address is found again in the alias file exactly when it carried no padding; the address survives as a destination. |
| Hostnames.AdmittedIsWithin | internal/httpapi/domain_handlers.go:199-216 | A host name that passes the handler's checks is canonical and for a verified domain, and within the domain when it was given in ASCII. |
| Hostnames.AdmittedIff | internal/httpapi/domain_handlers.go:195-216 | In ASCII exactly those are admitted, for a verified domain, that normalize to a name ending in the labels of the domain, the domain itself included. |
| Hostnames.DomainTables.AddHostname | internal/httpapi/domain_handlers.go:180-232 | Uninterrupted, the handler is the run of its read and insert, and adds the one binding exactly when the domain is found, the name admitted and not yet bound to it, and the insert not refused. |
| Hostnames.DomainTables.DeleteDomain | internal/store/domains.go:110-126 | Uninterrupted, it is the run of count and delete; the domain goes exactly when it has no host name, and no binding is touched. |
| Hostnames.BindingsStay | internal/store/domains.go:110-126 | In every run a binding disappears only when it is unbound, or by a deletion that counted before it was there. |
| Hostnames.LateBindingIsLost | internal/store/domains.go:111-118 | A run in which a binding reported as made goes with its domain. |
| Hostnames.BoundNamesAreCovered | internal/httpapi/domain_handlers.go:180-232 | In every interleaving each bound host name is canonical and its domain verified, and it lies within the domain when it was given in ASCII. |
| Slug.Slugify | internal/domain/identity.go:75-96 | The builder loop yields the text's words joined by single hyphens, or `org`. |
| Slug.SlugShape | internal/domain/identity.go:75-96 | Every slug is non-empty and consists of runs of letters and digits joined by single hyphens. |
| Slug.SlugKeepsRuns | internal/domain/identity.go:75-96 | A slug is the text's runs of ASCII letters and digits, all of them, in order and in lower case, joined by single hyphens, or `org`. |
| Slug.SlugFixedPointIff | internal/domain/identity.go:75-96 | The texts returned unchanged are exactly the slugs. |
| Slug.SlugifyIdempotent | internal/domain/identity.go:75-96 | Slugifying twice is slugifying once, for every text. |
| External.ExternalStore.SyncExternal | internal/recon/external.go:37-70 | The two loops leave the specified rows for every answer and every failing update. |
| External.SyncIsPointwise | internal/recon/external.go:42-68 | Each final row is a function of the table and the answers alone. |
| External.OrderIndependent | internal/recon/external.go:42-68 | The order in which rows are listed does not matter. |
| External.PassIdempotent | internal/recon/external.go:37-70 | With the same answers a second pass changes nothing. |
| External.LastPassWins | internal/recon/external.go:48-68 | A row the last pass could check and update is as if no earlier pass had been made; any other is as the earlier pass left it. |
| External.StatusIff | internal/recon/external.go:49-67 | Rows not listed, not answered or not updated are untouched; every other is active exactly when its resource is present, with the error text and the hash to match. |
| External.ApplicationFollowsProvider | internal/recon/external.go:42-54 | An application ends with the status of the provider row of its platform object. |
| External.KeysKept | internal/recon/external.go:30-32 | No row is removed and none appears. |

## Left out

- HTTP routing, JSON decoding, sessions, templates and audit events: input and output.
- Authentik, Cloudflare, Route 53 and DNS clients: their answers are parameters of the steps.
- Tokens, password hashing, sealing of provider settings, SHA-256 and IDNA tables: parameters; invites and tokens are named by their row or value, not by a hash.
- Unicode case folding and Unicode white space: texts are ASCII; length checks count characters.
- Partial writes of a file: an overwrite happens entirely or not at all.
- PassEffects.FilesAfterPass: passes in which a write replaces a file the agent failed to read are left to `Convergence.PassIsConservative`, which says what is then lost.
- The mail server's own file formats: an unreadable users file is answered by the agent as an absent user, and shows up here only as the answer of the user check.
- The agent's `setAlias` (cmd/chasquid-agent/main.go:376-398) reads, modifies and writes the file without a lock; every model takes it as one atomic step, so lines lost between concurrent requests to the agent are not modelled.
- `Convergence.TwoCyclesConverge` and its companions take rows, group memberships and the mail server's users as otherwise fixed, and local parts as address building yields them for unpadded input; for padded ones `PaddedAliases.SecondPassIsIdentityIff` says when a pass settles.
- The database clock and the application clock are one clock.
- Cascades of deleting organizations, groups and users; deletion of alias rows: row deletion other than that of domains is not part of any run.
- MailRouting.FilesStayInOrganizationIff: as for the lemma it rests on, identities are created with unpadded local parts.
- MailRouting.FilesStayWithRegistrants: identities are created with unpadded local parts; a padded address does not survive as a destination in the file. Alias local parts may be padded.
- MailRouting.AliasHandler.ValidateAliasDestinations: one step of the machine; as identities only come, a loop that accepted each destination in turn would accept the list at its end.
- Provision.SuccessfulCallsAgree: calls run one after another; what interleaved ones do is in `Rotations.EverTwoIff` and `Rotations.AgreesNowIff`.
- SenderPolicy.HookIsVerdict: MAIL FROM is one line; options other than `-F`, `-x`, `-q`, `-v` and `-e` are answered by an arbitrary function.
- Hostnames.BoundNamesAreCovered: for a host name given outside ASCII the containment check folds case by Unicode rules, which are not modelled, so containment is claimed for ASCII input only.
- VerifyHandlers.Tables.CreateSetup: the organization and the owner's membership the wizard creates before the domain are not part of its state; a failure there counts as a refused registration.
- OnboardUser.IdempotentIff: no other request comes between the two; the external identity provider's own user and the mapping row written beside a new platform user are not part of the world.
- The client key of the login limiter (forwarded header or peer address): the limiter is modelled for any key.
- Submission policy rows: written beside each credential and never read by the code modelled here.
- Catalog, reverse proxy labels, Compose rendering, configuration, diagnostics, migrations and seeding: no state of their own that the properties above depend on.
- "At least one platform admin remains" and "a disabled user has no membership": the code does not maintain them over all runs, so neither is stated.
