# rumahl platform, verified model

A Dafny model of the parts of the rumahl platform where a crash, a race or a
replay could do lasting harm: installing and removing apps, restoring backups,
signing in to apps, personal files, password throttling, packages, encrypted
columns and shell preferences. `dafny verify dfyconfig.toml` checks it.

## How it is modelled

Code that changes things step by step is modelled as classes and methods; code
that only computes is modelled as functions. Two devices recur.

- **Crashes.** A method that writes durable state may stop, by crash or by an
  input/output error, between any two writes (`if * { return Interrupted; }`),
  and a write may have landed although its caller is told it failed. A
  postcondition over all exits therefore speaks of every crash point. On a
  `steady` machine nothing is interrupted, so the same postconditions also say
  what must succeed. In `Signing.dfy` where a call is cut off is an argument.
- **Runs.** Protocols are machines whose turns are single durable writes or
  single database transactions. Theorems quantify over every run, that is, every
  interleaving and every place to stop.

| file | what it models |
|---|---|
| `Operations.dfy`, `Journal.dfy` | the durable operation, its transitions, the journal, racing runners |
| `Databases.dfy` | per-installation databases as staging, active and retained directories |
| `Saga.dfy`, `SagaInstall.dfy`, `SagaUninstall.dfy` | install, compensation and uninstall over the whole durable world, while other operations change other apps |
| `Registrar.dfy` | registering an app's client, from whatever an interrupted call left |
| `Runner.dfy` | the operation runner, as a class, proved to be runs of that machine |
| `Installs.dfy` | which apps may stand together, what an install leaves, installing one after another |
| `Progress.dfy` | that every state any run stops in can still be finished, and how each state that cannot comes about |
| `Pass.dfy` | one recovery pass over every unfinished operation |
| `Overlap.dfy` | several operations sharing one snapshot and one in-memory state |
| `Recovery.dfy` | backup verification, restore, offline redo, boot |
| `Tokens.dfy`, `TokenRuns.dfy`, `Sessions.dfy`, `Scopes.dfy` | sign-in codes, access tokens, refresh families, revocation of installations and of sessions |
| `Frames.dfy`, `SignIns.dfy` | what a revocation or a replay leaves alone; that what may go through does |
| `Packages.dfy`, `Signing.dfy`, `Resigning.dfy` | walking, listing, signing, verifying and publishing app packages; signing again after a crash |
| `Files.dfy`, `Throttle.dfy`, `Envelope.dfy`, `Preferences.dfy` | as named |

What is assumed: an SQLite immediate transaction and a rename within one
filesystem are atomic; digests and signatures are collision-free and cannot be
forged; a random value is not drawn twice; the runtime and secret-delivery
services do what their calls say or nothing, and may be called again; the effects
of one operation on its resources are made by one runner at a time; and another
operation's snapshot write leaves this app's own entries alone, which is what
`Overlap.NoChangeIsLost` proves of careful callers. Clock readings are arbitrary
unless a lemma says otherwise.

## Results worth knowing

- Recovery of an interrupted operation ends exactly where an uninterrupted one
  would have, whatever other apps came and went meanwhile, or is refused. It is
  refused exactly when one of these holds (`Runner.Runner.Recover`,
  `Runner.Blocked`):
  - an install whose app id or a contribution id another installation in memory
    holds, or whose installation id another app holds;
  - an install that still has to register a client whose display name has a
    control character, which the app manifest lets pass and the client record does
    not; or whose address cannot be resolved, or differs from the one an
    interrupted registration stored;
  - an uninstall older than the client it must revoke, because the clock went
    backwards;
  - a compensation begun while a crash had left its databases staged, which
    retaining refuses;
  - an uninstall or a compensation while another installation of the same app is
    in memory and its own is not.

  `Progress` has a run into each of these, but for a stale state in memory that
  holds another app under the same installation id. With two unfinished installs
  of one app, once the first is finished the second can be neither finished nor
  taken back (`Progress.SecondInstallIsBlocked`). Three blocks are for good: an
  operation can still end in the direction it travels if and only if its name is
  usable, its client is not from the future and no databases are left staged
  (`Progress.FinishesExactly`).
- A recovery pass stops at the first blocked operation, and those behind it stay as
  they were (`Pass.RecoverIncomplete`). One that is blocked for good therefore
  keeps every later one waiting.
- If an operation that stored its snapshot fails before committing and the same
  in-memory state is used for the next operation, the stored snapshot loses the
  first app and recovery still commits it (`Overlap.StaleStateLosesAnApp`). A
  write makes exactly its own change if and only if the state in memory agreed,
  but for the app at hand, with the stored snapshot when the operation was started
  or taken up (`Overlap.BeginDecides`, `Overlap.ResumeDecides`). Reloading the
  state first, as `platform-service/src/install.rs:360-369` does, and running one
  operation at a time is enough over every run (`Overlap.NoChangeIsLost`).
- Apps can be installed one after another, on a steady machine, exactly when no two
  of all that then stand share an app id or a contribution id
  (`Installs.InstallAll`, `Installs.AdmitsExactly`).
- Revoking an installation is final if and only if it had a client row
  (`TokenRuns.RevocationIsFinal`, `TokenRuns.RevocationNeedsARow`), and changes no
  answer about any other installation (`Frames.InstallationFrame`).
- Revoking a session stops everything it has, but a token of it can still appear
  and resolve in the store if and only if an exchange had consumed a code of it
  and its client is active (`Sessions.SessionOutlivesRevocation`, with a run in
  `Sessions.RevokedSessionOutlives`). The liveness check at
  `oidc-provider/src/protocol.rs:201` narrows that window and does not close it;
  the user-info call checks the session again.
- A round of password attempts can be bought in three ways only: it is the first,
  a lock-out ran out, or a password was accepted or replaced
  (`Throttle.GuessesAreBounded`). That any window of one attempt more than a round
  spans a lock-out needs clock readings that never fall; without that it holds
  only under a policy of one attempt, or one whose lock never fits
  (`Throttle.SpansForAllReadings`).
- Signing writes each document through a temporary file in the package root, and a
  crash or a failed write leaves that file there. A package that verified is then
  refused (`Resigning.AcceptedThenCutOff`), and signing again lists the stray file
  and signs it into the package (`Resigning.LeftoverIsSigned`). A later signing
  comes to what one uninterrupted call would have if and only if it finds no such
  file (`Resigning.SigningAgain`); removing them by name first is enough
  (`Resigning.SweepingConverges`).

## Model

| member | source | states |
|---|---|---|
| Operations.PhaseMatchesSteps | core/src/app_operations/operation.rs:454-534 | the one-pass scan accepts a step list exactly when ranks never fall and at most one step is in flight |
| Operations.ShapeMeans | core/src/app_operations/operation.rs:454-534 | such a list is, written out for each phase, applied steps, one in flight at most and pending ones, or marked, one in flight, undone and untouched ones, in that order |
| Operations.ApplyKeepsValid | core/src/app_operations/operation.rs:307-426 | every legal transition leads from a valid operation to one that is valid and decodes, with the revision number its steps account for |
| Operations.ApplyAdvances | core/src/app_operations/operation.rs:572-584 | a transition adds one revision, never goes back in time, keeps identity and plan, and is impossible on a terminal operation |
| Operations.RevisionBound | core/src/app_operations/operation.rs:572-584 | no run of a plan can exhaust the revision counter |
| Operations.ValidDecodes | core/src/app_operations/operation.rs:216-255 | a valid operation is accepted by the decoder unchanged |
| Journal.Repository.Create | persistence-sqlite/src/app_operation_repository.rs:334-384 | inserts exactly new, storable operations at revision zero |
| Journal.Repository.StoreTransition | persistence-sqlite/src/app_operation_repository.rs:386-432 | updates exactly when the stored row is the same operation one revision earlier, else changes nothing |
| Journal.Repository.ListIncomplete | persistence-sqlite/src/app_operation_repository.rs:440-468 | lists exactly the operations that are not terminal, each once, by start time and then id |
| Journal.RacingRunnersStayLinear | persistence-sqlite/src/app_operation_repository.rs:386-432 | for any interleaving, crash and lost acknowledgement of any number of runners: revisions form one chain of single legal transitions, times never fall, live state belongs to the stored terminal operation, a committed n-step operation has revision 2n+1 |
| Journal.LegalIsStored | persistence-sqlite/src/app_operation_repository.rs:386-432 | every legal transition of the stored operation is one the repository stores |
| Journal.LoneRunnerCommits | persistence-sqlite/src/app_operation_repository.rs:386-432 | one runner, left alone with a new operation of any plan, commits it and publishes it |
| Databases.Provider.InstallationState | persistence-sqlite/src/app_database_provider.rs:59-94 | an error exactly when two directories exist, else the one state |
| Databases.Provider.VerifyActiveBindings | persistence-sqlite/src/app_database_provider.rs:96-140 | accepts exactly the declared databases plus companions of them |
| Databases.Provider.ValidateBindings | persistence-sqlite/src/app_database_provider.rs:155-175 | refuses exactly mixed owners and duplicate names |
| Databases.Provider.ProvisionInstallation | persistence-sqlite/src/app_database_provider.rs:186-224 | at every crash point nothing, a staging directory, or exactly the declared databases; once done each declared database, and no other, can be opened, and a new directory has as many files as databases were declared; success and refusal characterised; other installations untouched |
| Databases.Provider.Access | persistence-sqlite/src/app_database_provider.rs:233-245 | opens exactly a file named after the binding in its owner's active directory |
| Databases.OneFileEach | persistence-sqlite/src/app_database_provider.rs:54-57 | the files of a list of bindings are exactly the ids with the suffix written out; different ids never share one, so there are as many files as bindings |
| Databases.MatchingServes | persistence-sqlite/src/app_database_provider.rs:96-140 | whatever the check of active bindings accepts lets exactly the declared databases be opened; companion files are never taken for one |
| Databases.Provider.RetainInstallation | persistence-sqlite/src/app_database_provider.rs:247-263 | moves active data aside unchanged or not at all; refused exactly on conflict or staged data |
| Databases.Provider.RestoreInstallation | persistence-sqlite/src/app_database_provider.rs:265-281 | moves retained data back unchanged or not at all; refused exactly on conflict or staged data |
| Databases.DataSurvives | persistence-sqlite/src/app_database_provider.rs:186-281 | over any run of interrupted calls at most one directory exists and data once active or retained is never deleted or changed |
| Databases.ProvisionReplays | persistence-sqlite/src/app_database_provider.rs:186-224 | however often an interrupted provision is replayed, it is never refused, and once databases are there they are exactly the declared ones, all new |
| SagaInstall.RunKeepsInv | app-operations/src/runner.rs:289-340 | every run of an install, forward and back, keeps each resource in step with the journal |
| SagaInstall.SecretBeforeCode | app-operations/src/runner.rs:304-330 | in every reachable state of install and compensation, running app code has its declared secret delivered, and removing is never possible while code runs |
| SagaInstall.VisibleMeansComplete | app-operations/src/runner.rs:289-340 | whenever the stored snapshot names the app all its other resources are in place, and every stored revision has the documented shape and decodes |
| SagaInstall.InstallConverges | app-operations/src/runner.rs:204-256 | whatever crashes, replays and other operations came between, a committed install leaves the literal world of one uninterrupted install: one client, one secret whose digest it holds, exactly the declared databases; alone, it leaves the rest of the snapshot as it was |
| Installs.RegisteredHas | oidc-provider/src/registrar.rs:226-268 | in every reachable world with a registered client its app id, display name, kind, scopes and address are the app's own, field by field, and its digest is of the stored secret |
| Installs.InstalledHas | app-operations/src/runner.rs:289-340 | what a finished install leaves, said of the app's own fields: its entry, its runtime, one file for each declared database under its own name, its client, and the secret delivered under that client |
| SagaInstall.CompensationCompletes | app-operations/src/runner.rs:403-464 | a finished compensation leaves no active database, runtime, delivery, live client, secret or snapshot entry, and a step never begun never had an effect |
| SagaInstall.StagedCompensationNeverFinishes | persistence-sqlite/src/app_database_provider.rs:247-263 | a compensation begun over staged databases stays unfinished in every run |
| SagaUninstall.RunKeepsInv | app-operations/src/runner.rs:342-401 | every run of an uninstall keeps each resource in step with the journal |
| SagaUninstall.UninstallIsSafe | app-operations/src/runner.rs:358-390 | at every point running code still has its secret, removal never meets running code, and the data is where it was or kept aside unchanged |
| SagaUninstall.UninstallConverges | app-operations/src/runner.rs:342-401 | a committed uninstall leaves the literal world of one uninterrupted uninstall; alone, it leaves the rest of the snapshot as it was |
| SagaUninstall.FutureClientBlocksUninstall | persistence-sqlite/src/oidc_schema.rs:9-24 | an uninstall older than the live client it must revoke never commits, in any run |
| Saga.With | app-operations/src/runner.rs:258-287 | the staged snapshot of an install has the app and is otherwise the one before |
| Saga.Without | app-operations/src/runner.rs:466-508 | the staged snapshot of a removal has neither the app nor its grants, and all of every other app |
| Saga.OwnIs | app-operations/src/runner.rs:466-508 | what another operation must leave alone is exactly this installation's entry and the grants it holds |
| Runner.Runner.Record | app-operations/src/runner.rs:765-768 | one transition is stored with a time never before the last, or nothing is |
| Runner.Runner.RegisterOrRecover | oidc-provider/src/registrar.rs:79-202 | from any interrupted registration: success means the literal client of the app under the address resolved now, holding the digest of the one stored secret; refused exactly for an unusable display name, no address, or a client stored under another address |
| Registrar.Register | oidc-provider/src/registrar.rs:79-202 | from any stored client and any stored secret: success means the literal client the app declares; refused exactly when a stored row is revoked, differs in a field, or does not go with the stored secret, or when nothing can be made, each said field by field; at every stop, what may have been stored |
| Registrar.NameableIs | oidc-provider/src/client.rs:60-72 | a display name is usable exactly when it has no control character, by code point |
| Runner.Runner.DeliverSecret | app-operations/src/runner.rs:543-561 | delivers the stored secret under the stored client, never a different one |
| Runner.Runner.ApplyResource | app-operations/src/runner.rs:510-573 | success establishes the step's resource; every exit is a run of the machine; other installations' databases untouched |
| Runner.Runner.RemoveOidcMaterial | app-operations/src/runner.rs:639-655 | delivery, client, secret in that order; refused only by the revocation-time constraint |
| Runner.Runner.RemoveResource | app-operations/src/runner.rs:575-637 | success clears the step's resource; both refusals characterised |
| Runner.Runner.ApplyInstall | app-operations/src/runner.rs:289-340 | every exit is a run of the machine; live state changes only once the commit is stored; unless interrupted, refused exactly when the client still to be registered cannot be |
| Runner.Runner.ApplyUninstall | app-operations/src/runner.rs:342-401 | every exit is a run of the machine; live state changes only once the commit is stored; refused only when the client is newer than the operation |
| Runner.Runner.CompensateInstallOperation | app-operations/src/runner.rs:403-464 | takes steps back last first; unless interrupted, refused exactly when databases are staged or the live state cannot release the app |
| Runner.Runner.StageInstallTarget | app-operations/src/runner.rs:258-287 | from any live state: the state with the app and otherwise as it was, or nothing exactly when an id is taken, which `Installs.AdmitsExactly` pins |
| Installs.AdmitsExactly | core/src/apps/lifecycle.rs:84-92 | on a platform where no two installations share an app id or a contribution id, an app is let on if and only if that still holds with it |
| Installs.AdmitsOnlyItself | app-operations/src/runner.rs:258-287 | an installation that is there is taken up, or let go, only as the very app it is |
| Installs.ReleasesExactly | app-operations/src/runner.rs:466-508 | an app that is not there is let go exactly when no other installation has its app id |
| Runner.Runner.StageWithoutTarget | app-operations/src/runner.rs:466-508 | from any live state: the state without the app and its grants, or nothing exactly when another app or another installation of it stands in the way |
| Runner.Runner.CompensateInstall | app-operations/src/runner.rs:172-202 | success withdraws everything; unless interrupted, refused exactly for another kind, a terminal operation, staged databases or a live state that cannot release the app |
| Runner.Runner.Recover | app-operations/src/runner.rs:204-256 | from every reachable state and any live state: success ends in the uninterrupted world and leaves other apps alone; unless interrupted, refused exactly when blocked; recovery never creates a block |
| Runner.Runner.InstallApp | app-operations/src/runner.rs:117-139 | over any live state, stale or not: unless interrupted, installs, or is refused exactly for an id taken or a client that cannot be registered; live state only changes with a stored commit |
| Installs.InstallAll | app-operations/src/runner.rs:117-139 | on a steady machine a list of new apps whose clients can be registered is installed one after another, all of them if and only if no two of all that then stand share an id; live state and snapshot are those with exactly the installed ones added |
| Runner.Runner.UninstallApp | app-operations/src/runner.rs:141-170 | over any live state, stale or not: success is the uninterrupted uninstall; refusals are an unknown installation or a client newer than the operation |
| Runner.RoundTrip | app-operations/src/runner.rs:117-170 | install then uninstall, each interrupted any number of times with no other operation between, gives back the platform there was, with data kept aside and no live client |
| Runner.InstalledIsEstablished | app-operations/src/runner.rs:117-170 | what an install leaves is what an uninstall may start from |
| Progress.FinishesExactly | app-operations/src/runner.rs:204-256 | from every state any run may stop in, some run ends the operation in the direction it travels if and only if it is not stuck for one of three reasons |
| Progress.CanFinish | app-operations/src/runner.rs:204-256 | such a run, ending where an uninterrupted operation ends |
| Progress.UnusableNameNeverCommits | oidc-provider/src/client.rs:60-72 | an install that declares a client under a name with a control character never commits, in any run |
| Progress.UnblockedIsFree | app-operations/src/runner.rs:204-256 | what recovery does not refuse is never stuck |
| Progress.StagedCompensationHappens | persistence-sqlite/src/app_database_provider.rs:247-263 | any install with databases can be stopped and turned round into a compensation that never ends |
| Progress.FutureClientHappens | persistence-sqlite/src/oidc_schema.rs:9-24 | any app installed with a client can meet an uninstall that never ends, if the clock goes back |
| Progress.UnusableNameHappens | oidc-provider/src/client.rs:60-72 | an app with a control character inside its name and a declared client is blocked from the start |
| Progress.SecondInstallIsBlocked | core/src/apps/installed_registry.rs:24-31 | of two unfinished installs of one app, once the first is finished the second can be neither finished nor taken back, whatever address is resolved |
| Progress.MovedAddressBlocks | oidc-provider/src/registrar.rs:79-202 | a registration interrupted after its client was stored is blocked by every other address, though not for ever |
| Progress.MovedAddressHappens | oidc-provider/src/registrar.rs:79-202 | installs pass through such a state |
| Progress.RivalBlocksInstall | core/src/apps/registrar.rs:41-67 | an install is blocked by an app with one of its contribution ids, installed meanwhile |
| Progress.TwinBlocksUninstall | app-operations/src/runner.rs:466-508 | an uninstall that stored its snapshot and did not commit is blocked once the app is installed again |
| Progress.LateWriteUndoesCompensation | app-operations/src/runner.rs:510-573 | a runner that stalls before a write while another compensates brings the runtime back afterwards: why one runner at a time is assumed |
| Pass.RecoverIncomplete | app-operations/src/runner.rs:204-256 | operations are finished in order over what the earlier ones left; the pass stops at exactly the first one blocked, those before it are finished and stay so, those after it are untouched; on a steady machine nothing else stops it |
| Overlap.BeginDecides | app-operations/src/runner.rs:117-170 | a new operation's snapshot write makes exactly its own change if and only if the state it was handed agreed with the snapshot but for its app |
| Overlap.ResumeDecides | app-operations/src/runner.rs:204-256 | the same for an operation taken up again, forward or turned round, after a crash between write and record |
| Overlap.NoChangeIsLost | app-operations/src/runner.rs:289-340 | in every run of callers that start or resume one operation at a time over an up-to-date state, however operations fail, write twice, recover or turn round: an app is in the snapshot exactly when it was added last, or was there and never changed |
| Overlap.CommittedIsThere | app-operations/src/runner.rs:289-340 | in such runs a committed install is in the snapshot unless its app was taken out |
| Overlap.WriteSettles | app-operations/src/runner.rs:289-340 | in such runs a write puts its app in exactly when an install that was not turned round wrote, and takes it out otherwise; every other app stays |
| Overlap.CommitSettles | app-operations/src/runner.rs:289-340 | in such runs a commit settles the app in memory the same way, beside the stored state of every other, and leaves nothing running |
| Overlap.RestartIsEnough | platform-service/src/install.rs:360-369 | after a restart from the snapshot any operation may be started or taken up |
| Overlap.StaleStateLosesAnApp | app-operations/src/runner.rs:117-139 | a concrete run in which a reused in-memory state loses a committed app |
| Recovery.CheckArchive | platform-buildroot/recovery/host.py:105-128 | accepts exactly archives with no escaping, repeated, reserved or special member and no member under a link |
| Recovery.CollectLinks | platform-buildroot/recovery/host.py:111-125 | one pass: accepts exactly sane, distinct members and collects exactly the links |
| Recovery.UnderAny | platform-buildroot/recovery/host.py:126-128 | finds a member under a link exactly when there is one |
| Recovery.StagingNamesBanned | platform-buildroot/recovery/host.py:113-115 | no accepted archive unpacks to the restore's own names |
| Recovery.SafeMeans | platform-buildroot/recovery/host.py:105-128 | what an accepted archive is, member by member, with the reserved names, kinds and link rules written out |
| Recovery.Verify | platform-buildroot/recovery/host.py:131-143 | accepts exactly complete, unchanged, safe backups of this device and build |
| Recovery.SoundMeans | platform-buildroot/recovery/host.py:169-186 | which state volumes can be restored: both databases there, every file ending in ".sqlite" a sound database, the settings a file |
| Recovery.RestoredForgets | platform-buildroot/recovery/host.py:169-186 | restored state has no session or token row, every other row and entry of the backup, and safe-mode settings |
| Recovery.RestoredIsSignedOut | platform-buildroot/recovery/host.py:169-186 | in every file whose name ends in ".sqlite", so in accounts.sqlite and platform.sqlite, the seven session and token tables, by name, are empty after a restore; every other table and every entry with another name is the backup's |
| Recovery.RestoredRest | platform-buildroot/recovery/host.py:189-230 | all five volumes are restored, four of them as they are in the backup |
| Recovery.Volume.InvalidateSessions | platform-buildroot/recovery/host.py:169-186 | clears exactly the token tables of every staged database; refused exactly when a database is missing or unsound |
| Recovery.Volume.Unpack | platform-buildroot/recovery/host.py:195-204 | adds at most a staging directory beside the live entries |
| Recovery.Volume.Swap | platform-buildroot/recovery/host.py:212-222 | at every crash point each original entry is at the root or set aside; done means target plus everything set aside; every rename's target is free |
| Recovery.Host.StageAll | platform-buildroot/recovery/host.py:194-205 | stages every archive beside its volume's content; refused exactly by a missing volume or leftover staging |
| Recovery.Host.SwapAll | platform-buildroot/recovery/host.py:212-222 | no original entry is lost while volumes are swapped one by one |
| Recovery.Host.RestoreSnapshot | platform-buildroot/recovery/host.py:189-230 | at every crash point: without the marker all volumes are old or all are restored and safe mode is set; with it, nothing is lost until every volume is swapped; success and refusal exact; done, nobody is signed in and the rest is the backup's |
| Recovery.Host.PersistMode | platform-buildroot/recovery/host.py:233-251 | changes only the settings entry and the safe-mode marker, and leaves a freshly restored volume as it is |
| Recovery.Host.SweepAll | platform-buildroot/recovery/host.py:568-575 | removes only the restore's own leftovers; refused exactly when one is not a directory |
| Recovery.Host.OfflineRestore | platform-buildroot/recovery/host.py:561-579 | from any state, unless interrupted, ends with exactly the backup and no marker, or is refused for stated reasons that no interrupted restore can cause; a steady machine is not interrupted; done, nobody is signed in and the rest is the backup's |
| Recovery.Host.RestoreJob | platform-buildroot/recovery/host.py:386-455 | writers are started again only without the marker, over volumes that are all old or all restored; on a steady machine succeeds exactly for a verified backup over clear volumes |
| Recovery.Host.RestoreAndBoot | platform-buildroot/deployment/stage.py:60-63 | after any number of restores of any backups, each stopped anywhere and followed by a boot, with writers writing whenever they run: writers are started only over one generation, what was last there with no restore pending, or exactly one of the backups restored since, in safe mode |
| Tokens.Store.Rotate | persistence-sqlite/src/oidc_refresh_token_store.rs:90-162 | turns the family whose current token is shown whenever it can be turned, or kills the family of a spent one, or changes nothing, each exactly under its condition |
| Tokens.Store.ApproveTransaction | persistence-sqlite/src/oidc_authorization_store.rs:108-241 | four tables change together exactly when the request is open, unexpired and this login's, within consent and registration |
| TokenRuns.CodesAreUsedOnce | oidc-provider/src/protocol.rs:127-213 | over every interleaving a request yields one code and a code one token at most, issued for the approving person, session, client and installation with the approved scopes, within consent and registration, never offline access |
| TokenRuns.ExchangeIsBound | oidc-provider/src/authorization.rs:341-366 | a code is exchanged only by its client, at its redirect address, with the verifier of the challenge it began with, and approved only by the login that began it |
| TokenRuns.NothingIsUsedLate | oidc-provider/src/authorization.rs:173-227 | over every run requests and codes are used only before they expire |
| TokenRuns.CodesLiveOneMinute | oidc-provider/src/authorization.rs:204-225 | a code is exchanged, if at all, less than sixty seconds after its approval |
| TokenRuns.SubjectsAreStable | persistence-sqlite/src/oidc_authorization_store.rs:181-198 | the subject an app sees for a person never changes, and no two pairs of person and installation share one |
| TokenRuns.RefreshTokensTurnOnce | persistence-sqlite/src/oidc_refresh_token_store.rs:90-162 | over every run a refresh token turns once at most, generation counts spent tokens, current and spent tokens stay apart |
| TokenRuns.SpentIsReplay | persistence-sqlite/src/oidc_refresh_token_store.rs:139-160 | showing a spent token is always recognised and kills its family |
| TokenRuns.ReplayIsFinal | persistence-sqlite/src/oidc_access_token_store.rs:99-132 | from a replay on, in every continuation, the family never turns and no access token it backs resolves |
| TokenRuns.RevocationIsFinal | persistence-sqlite/src/oidc_client_repository.rs:167-207 | after an installation with a client is revoked, in every continuation nothing is approved, exchanged, rotated, issued, resolved or registered for it |
| TokenRuns.RevocationNeedsARow | persistence-sqlite/src/oidc_schema.rs:9-24 | a client can still be registered after revocation exactly when there was no client row |
| Frames.InstallationFrame | persistence-sqlite/src/oidc_client_repository.rs:167-207 | in every reachable state, after an installation is revoked every approval, exchange, issue, resolution and refresh of another installation is answered as it was before |
| Frames.SessionFrame | persistence-sqlite/src/oidc_refresh_token_store.rs:164-190 | after a session is revoked every answer about another session is as before |
| Frames.ReplayFrame | persistence-sqlite/src/oidc_refresh_token_store.rs:139-160 | after a replay every answer about another family, and about tokens no family backs, is as before |
| Frames.TokenFrame | persistence-sqlite/src/oidc_access_token_store.rs:134-150 | revoking one access token stops that one for good and changes no other answer |
| Frames.InstallationStamps | persistence-sqlite/src/oidc_client_repository.rs:167-207 | revoking an installation stamps exactly its open rows in all six tables with that time |
| Frames.SessionStamps | persistence-sqlite/src/oidc_refresh_token_store.rs:164-190 | revoking a session stamps exactly its open rows |
| Frames.ReplayStamps | persistence-sqlite/src/oidc_refresh_token_store.rs:139-160 | a replay stamps exactly its family and the tokens it backs |
| Frames.RevocationGoesThrough | persistence-sqlite/src/oidc_schema.rs:9-24 | an installation can be revoked at any time not before its clients were made |
| Frames.ResolvesExactly | persistence-sqlite/src/oidc_access_token_store.rs:99-132 | a token resolves exactly while it, its client, its subject and the family it names are in order, and as its own row |
| Frames.CurrentsDiffer | persistence-sqlite/src/oidc_refresh_token_store.rs:90-162 | in every reachable state a refresh token is current for one family at most, which rotation relies on |
| SignIns.ApprovesExactly | persistence-sqlite/src/oidc_authorization_store.rs:108-241 | when a request is approved, with every condition written out |
| SignIns.ExchangesExactly | oidc-provider/src/authorization.rs:341-366 | when a code is exchanged, with every condition written out |
| Frames.TokensLiveFifteenMinutes | persistence-sqlite/src/oidc_access_token_store.rs:99-132 | over every run a token resolves only within 900 seconds of its issue, and as what it was issued as |
| SignIns.RequestGoesThrough | oidc-provider/src/protocol.rs:127-163 | whoever asks for what the client may ask has a request stored, open for 300 seconds |
| SignIns.ApprovalGoesThrough | persistence-sqlite/src/oidc_authorization_store.rs:108-241 | an open request can be approved by its login, with the literal code for 60 seconds, consent and subject rows that leaves |
| SignIns.ExchangeGoesThrough | oidc-provider/src/authorization.rs:341-366 | a usable code is exchanged by its client with the verifier, and only marked used |
| SignIns.TokenGoesThrough | oidc-provider/src/protocol.rs:185-213 | the token carries what was approved and resolves exactly for 900 seconds |
| SignIns.SignInGoesThrough | oidc-provider/src/protocol.rs:127-213 | a sign-in that keeps to the rules and the time limits is a run that ends with a token for exactly what was asked |
| SignIns.RefreshesGoOn | persistence-sqlite/src/oidc_refresh_token_store.rs:90-162 | a client that keeps the newest refresh token can go on refreshing, any number of times |
| Sessions.SessionRevocationIsFinal | persistence-sqlite/src/oidc_refresh_token_store.rs:164-190 | every request, code, access token and family a session had when it was revoked is refused in every continuation |
| Sessions.SessionStaysClosed | persistence-sqlite/src/oidc_refresh_token_store.rs:164-190 | with nothing new started for the session, no request of it is approved, no code exchanged and no refresh token turned |
| Sessions.SessionOutlivesRevocation | oidc-provider/src/protocol.rs:185-213 | then a token of the session can still come to resolve if and only if an exchange had consumed a code of it and its client is active |
| Sessions.RevokedSessionOutlives | oidc-provider/src/protocol.rs:185-213 | a concrete run in which it does |
| TokenRuns.LookupStaysKnown | persistence-sqlite/src/oidc_client_repository.rs:153-165 | a client record read earlier still matches its row but for revocation |
| Files.Store.Create | persistence-sqlite/src/personal_files.rs:143-181 | adds one entry or nothing, each error exactly when its condition holds; everyone's tree, names and quota stay valid |
| Files.Store.Relocate | persistence-sqlite/src/personal_files.rs:208-244 | moves one entry or nothing; with name, parent and siblings in order, invalid exactly when the destination lies in the moved subtree |
| Files.Store.MeetsAncestor | persistence-sqlite/src/personal_files.rs:218-233 | the walk ends and decides subtree membership; its step limit never fires |
| Files.Store.Delete | persistence-sqlite/src/personal_files.rs:245-271 | removes exactly an existing entry without children |
| Files.Store.Usage | persistence-sqlite/src/personal_files.rs:158-168 | counts entries and sums sizes |
| Files.MoveExact | persistence-sqlite/src/personal_files.rs:208-244 | a move keeps the tree if and only if the destination is outside the moved subtree |
| Files.InsertKeeps | persistence-sqlite/src/personal_files.rs:143-181 | an admitted entry keeps tree, sibling names and quota |
| Files.DeleteKeeps | persistence-sqlite/src/personal_files.rs:245-271 | removing a childless entry keeps tree, sibling names and quota |
| Files.NameRules | persistence-sqlite/src/personal_files.rs:100-107 | the names accepted, with the rules written out |
| Files.ParentsAreDirectories | persistence-sqlite/src/personal_files.rs:108-121 | nothing ever hangs below a file or below an entry that is not there |
| Files.ListIsComplete | persistence-sqlite/src/personal_files.rs:126-142 | the listing limit never truncates |
| Throttle.Repository.BeginAttempt | persistence-sqlite/src/password_credential_repository.rs:92-183 | each outcome exactly when its condition holds; the attempt is counted before the password is checked |
| Throttle.GuessesAreBounded | persistence-sqlite/src/password_credential_repository.rs:64-204 | over any events in order of time, at most one round of attempts is let through, and one more for every success, new password or full lock-out |
| Throttle.WindowHasLockout | persistence-sqlite/src/password_credential_repository.rs:92-183 | among one attempt more than the policy allows, two that follow each other are a lock-out apart, whatever clock readings they come with |
| Throttle.WindowSpansLockout | persistence-sqlite/src/password_credential_repository.rs:92-183 | with clock readings that never fall, any window of one attempt more than the policy allows spans a lock-out, from any stored state |
| Throttle.SpansForAllReadings | persistence-sqlite/src/password_credential_repository.rs:92-183 | windows span a lock-out for all clock readings if and only if the policy allows one attempt or its lock does not fit the clock |
| Throttle.FallsBack | persistence-sqlite/src/password_credential_repository.rs:92-183 | under every other policy a round, an attempt after its lock and one with an earlier reading are all let through |
| Throttle.GuessingIsBounded | account-auth/src/password_authentication.rs:151-172 | with clock readings that never fall, n attempts let through without a success span at least floor((n-1)/m) lock-outs |
| Throttle.LockLifts | persistence-sqlite/src/password_credential_repository.rs:138-152 | once a lock has run out a full round of attempts is let through |
| Throttle.SuccessGivesARound | persistence-sqlite/src/password_credential_repository.rs:185-204 | after an accepted password a full round is let through, from any row, and the credential is kept |
| Throttle.CredentialKept | persistence-sqlite/src/password_credential_repository.rs:64-204 | over any events the stored hash and time are those of the last new password |
| Packages.CollectPayloadFiles | app-packages/src/verifier.rs:249-313 | the recursive walk returns exactly the payload files with joined paths, or fails exactly on a link, special entry or too many files |
| Packages.JoinInjective | app-packages/src/verifier.rs:266-273 | different ways through a tree never join to the same path |
| Packages.PathsDistinct | app-packages/src/verifier.rs:249-313 | no two payload files of a tree share a path |
| Packages.JoinSplits | core/src/runtime/package_path.rs:21-60 | splitting a joined path gives back the way through the tree |
| Packages.ListablePaths | core/src/runtime/package_path.rs:21-60 | a payload file has a well-formed path exactly under the rules written out for its length and its parts |
| Packages.VerifyPayload | app-packages/src/verifier.rs:137-189 | accepts exactly trees whose payload corresponds to the list by path, size and digest |
| Packages.CheckFiles | app-packages/src/manifest.rs:238-270 | accepts exactly lists of well-formed paths within all limits without duplicates; the running total never saturates |
| Signing.Root.Sign | app-packages/src/sign.rs:101-148 | succeeds exactly on trees within the limits whose documents can be written, with unused temporary names and no cut-off; every other exit leaves the root untouched, with the new manifest, signed, or with one of the first two and a temporary file beside |
| Signing.Root.WriteAtomic | app-packages/src/sign.rs:382-409 | creating and renaming a temporary file comes to the document in place, to nothing, or to the temporary file left in the root |
| Signing.Root.ListFiles | app-packages/src/sign.rs:113-135 | lists every file with size and digest, or fails exactly on a file or a sum over its limit |
| Signing.ListFits | app-packages/src/manifest.rs:238-270 | the generated manifest can be read back exactly when every payload file has a well-formed path and files and their sum are within the limits |
| Signing.Verify | app-packages/src/verifier.rs:93-135 | accepts exactly trees whose manifest a trusted key of its publisher signed and whose payload is its list |
| Signing.AcceptsMeans | app-packages/src/verifier.rs:93-189 | what an accepted tree is, with the document names, the size limits and the key id rules written out |
| Signing.SignThenVerify | app-packages/src/sign.rs:101-148 | what was signed is accepted, while unchanged, exactly under trust stores with that key for that publisher |
| Signing.OneSignatureOnePackage | app-packages/src/verifier.rs:93-189 | trees accepted with one signature have the same manifest and the same payload, byte for byte |
| Signing.HalfSignedIsOldSignature | app-packages/src/sign.rs:137-147 | a root with the new manifest and the old signature is accepted only if that signature covers the very text just written |
| Resigning.AcceptedExits | app-packages/src/sign.rs:101-148 | however a call on an accepted tree ends, what is then accepted is the tree as it was, the new manifest under an old signature of this very text, or the tree signed anew |
| Resigning.AcceptedThenCutOff | app-packages/src/sign.rs:382-409 | an accepted tree is refused, under every trust store, once signing it again was cut off inside the manifest |
| Resigning.HalfSignedThenCutOff | app-packages/src/sign.rs:382-409 | a tree whose signing was cut off inside the signature is refused, whatever stood there before |
| Resigning.LeftoverIsSigned | app-packages/src/sign.rs:101-148 | a call cut off inside the manifest leaves a file that the next call lists and signs into an accepted package |
| Resigning.SigningAgain | app-packages/src/sign.rs:101-148 | after any number of calls cut off anywhere, a call that succeeds leaves the root one uninterrupted call would have left if and only if it found no leftover |
| Resigning.SweepingConverges | app-packages/src/sign.rs:101-148 | once leftovers are removed by name, signing comes to what it would have come to at first |
| Signing.SigningIgnoresOrder | app-packages/src/sign.rs:110-111 | the text signed depends on the payload only, not on the order in which directories are read |
| Signing.ListIsOrdered | app-packages/src/sign.rs:110-111 | the list names every payload file once, each path before the next in the order of their characters |
| Signing.KeyIdsAre | app-packages/src/signature.rs:209-215 | the key ids accepted, with the rules written out |
| Packages.Publisher.Publish | app-packages/src/publish.rs:93-256 | a target appears only complete and matching, at every crash point and whatever is read; existing targets stay; a failure leaves nothing behind; the byte total is the true sum |
| Packages.PublishedIsVerified | app-packages/src/publish.rs:171-256 | a published directory holds byte for byte the verified payload |
| Envelope.DecodeEncode | persistence-sqlite/src/field_cipher.rs:134-176 | every valid envelope decodes to itself |
| Envelope.EncodeDecode | persistence-sqlite/src/field_cipher.rs:147-176 | every accepted byte string is the encoding of a valid envelope |
| Envelope.EncodedLayout | persistence-sqlite/src/field_cipher.rs:134-145 | the bytes of an envelope, place by place |
| Envelope.DecodesExactly | persistence-sqlite/src/field_cipher.rs:147-176 | which byte strings are accepted, place by place |
| Envelope.KeyIdBytesAre | persistence-sqlite/src/field_cipher.rs:147-176 | the bytes a key id may have |
| Envelope.ContextInjective | persistence-sqlite/src/field_cipher.rs:178-184 | different contexts give different associated data even with the length cut to four bytes |
| Envelope.FieldsInjective | persistence-sqlite/src/secret_store.rs:445-449 | any two different runs of length-prefixed fields differ |
| Envelope.AssociatedDataInjective | persistence-sqlite/src/secret_store.rs:426-443 | no two bindings of the eight fields have the same associated data |
| Envelope.AssociatedLayout | persistence-sqlite/src/secret_store.rs:426-443 | the eight bound parts in their order, each after its length |
| Preferences.Store.Save | persistence-sqlite/src/shell_preferences.rs:90-171 | saves exactly at the current revision within limits; each error exactly when its condition holds; other people untouched |
| Preferences.SaveKeepsBounded | persistence-sqlite/src/shell_preferences.rs:114-122 | no accepted save goes past 128 override devices or 256 rows, though rows are counted and only for new devices |
| Preferences.SavesAreSerial | persistence-sqlite/src/shell_preferences.rs:90-171 | however saves interleave, accepted ones carry successive revisions and the state is their fold in that order |
| Preferences.SettingsReadBack | persistence-sqlite/src/shell_preferences.rs:90-171 | however saves interleave, every setting reads back what its last accepted save asked for, and is what it was if there was none |
| Preferences.Workspaces.Save | persistence-sqlite/src/shell_preferences.rs:186-237 | saves or deletes exactly at the current revision within size and room; each error exactly when its condition holds; other people untouched |
| Preferences.KeepStaysBounded | persistence-sqlite/src/shell_preferences.rs:213-224 | no accepted save goes past 129 workspaces, though the one saved is not counted, and there is no room exactly for a new one beside 129 |
| Preferences.WorkspacesAreSerial | persistence-sqlite/src/shell_preferences.rs:186-237 | however saves interleave, accepted ones carry successive revisions, every profile holds what its last accepted save left, and the limits hold |

## Left out

- Pass.RecoverIncomplete: takes operations on different installations whose own entries agree in memory and in the snapshot, as after a start from the snapshot.
- Racing runners' effects on resources: `Journal.RacingRunnersStayLinear` covers the journal; the operation machine takes one runner at a time, and `Progress.LateWriteUndoesCompensation` shows that it has to.
- Recovery.Host.PersistMode: a stop can also leave `recovery-settings.new`, the temporary file of the settings, in the state volume.
- Recovery.Host.RestoreJob: the job also writes a `lifecycle` file into the state volume before it stops the writers.
- Recovery.Host.RestoreAndBoot: is exact but for those two files.
- Recovery.RestoredForgets: the write-ahead log beside a database is taken as part of it; clearing the tables also truncates that log.
- Update operations: the runner rejects them.
- The runtime supervisor, the secret-delivery service and the Docker engine: only the effect of each runner call on one installation.
- Session liveness and client authentication in the sign-in protocol: they only refuse further calls, so the runs proved safe include those they would stop. Liveness is read in a step of its own, so it does not close the window of `Sessions.RevokedSessionOutlives`.
- The signed identity token, the user-info document, discovery and key documents: field copying around a signature.
- The text encoding of scope lists, timestamps and identifiers in tables.
- Refresh tokens at the protocol level: the protocol issues none yet; the store is modelled.
- Cryptography: digests, signatures and sealing are ideal; parsing a trust store is a map from publisher and key id to a key.
- The text of package manifests and signatures: a text carries what it parses to, and an app description passes its own checks or does not.
- Making a backup, backup pruning and scheduling, file-system checks, and the reset and reinstall jobs, which the marker does not protect.
- Symbolic links, permissions, ownership and sparse files inside volumes beyond what decides acceptance; an archive is assumed to unpack to the tree it lists.
- Listing order of personal files, sealing of their content, and the size backfill on opening the store.
- Removing a password credential, and the password policy itself.
- The operating-mode preference: the same compare-and-set over a single override table.
- File and directory names that are not valid text in packages; a payload file swapped between reading its size and its digest while signing.
- Databases.Provider.StageAndPublish: opening and configuring the SQLite files is a single write each.
