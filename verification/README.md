# KEEL, modelled and proved in Dafny

This project models the parts of the KEEL repository that have to keep a promise over every run, every
interleaving or every input, and proves the promise. `dafny verify dfyconfig.toml` checks all of it.

- `Migrations` - the migration runner. SQL files are opaque schema transformers; every statement and every
  commit may fail and the process may vanish between any two. Proved: exactly-once over any sequence of runs,
  the recorded history as a prefix of the sorted listing, staged upgrades equal to a fresh one, the empty rerun.
  The runner's class methods are proved equal to the specification the lemmas are about.
- `WebhookBinding` - concurrent webhook deliveries of one event: row versions, row locks, commit and rollback,
  and the connection's own tenant field, which survives rollback. What is committed and what the field says are
  kept apart, and it is proved when they may differ.
- `ProcessOwnership`, `CommandLock`, `ServiceCommands`, `ServiceRuns` - starting and stopping recorded processes
  on a machine where processes die, ids are reused and reboots happen between any two statements; the lock file
  that keeps commands apart; both together, for any number of commands; and careful runs that show what is left
  open, and so also that what is proved of careful runs is not empty.
- `VaultRotation` - the `check` and `rewrap` commands and the documented key rotation with saves going on.
- `ImageServer` - one image at a time behind a try-lock, with counters whose update is a read and a later write.
- `ImportAudit` and `Totals` - attributing memory growth over arbitrary trees of nested imports.
- `HelperWorklist` - the worklist that follows a handler's calls through the helpers of its file.
- `PortAllocation` - the first free port from each preference on.
- `SalesGeneration`, `Grouping`, `SalesExport`, `DecimalText` - the demo sales generator, splitting by period,
  the three totals, the windowed sum of `verify.py`, and printing decimals.
- `Calendar` - month arithmetic by days against month arithmetic on (year, month) pairs.
- `AlertRanking` and `Percentile` - two stable sorts and a cut; the nearest-rank percentile and the target check.
- `Common`, `Sorting`, `TextOrder` - small shared types, stable sorting and Python's order of texts.

Where the source works in place, the model is a class or a method with a loop, proved against a specification
function or predicate; concurrent behaviour is a step machine over all interleavings. Methods that stand for the
outside world (`Machine.Meanwhile`, the random draws of the generator) make arbitrary choices. `ProcessOwnership`
has one command as methods with loops; `ServiceCommands` has the same statements as steps, built on the same
checks, so that they can be interleaved. What a start and a stop promise is written once, as `StartPromise` and
`StopPromise`: the methods ensure it, and it is proved of the steps in every interleaving.

## Where the code and its documentation disagree

The models follow the code. Each point below is proved by the members named.

- The import audit says its column sums to the total. It does exactly when memory does not change, in sum, between
  the outermost tracked imports (`ImportAudit.ColumnSumsToTotalExactlyWhenNothingElseGrows`, `ColumnMayMissTotal`).
- A second rewrap moves nothing exactly with the local key backend; under AWS KMS everything is wrapped anew
  (`VaultRotation.SecondRewrapMovesNothingExactlyWhenLocal`, `SecondRewrapMayMove`). And one unreadable credential
  does not stop a rewrap when its data key is on the current key already
  (`VaultRotation.UnreadableStopsExactlyUnlessCurrent`, `UnreadableMayPass`).
- Stopping looks a process up a second time after checking it. What is signalled is the recorded process exactly
  when the one found was there already at the check (`ProcessOwnership.TargetIsRecordedExactlyWhenNotNew`); a run
  in which another process is signalled is `ServiceRuns.StrangerMayBeSignalled`.
- A service has two live recorded processes exactly when one of them was dropped from the ledger alive: by a start
  that found its program or command line changed or could not read them, or by a stop that sent it SIGKILL and did
  not wait (`ServiceCommands.TwoLiveExactlyWhenDropped`; runs: `ServiceRuns.TwoMayLive`,
  `ServiceRuns.UnreadableMayLeaveTwo`, `ServiceRuns.StoppedMayLive`).
- The documented second check, all on the current key, decides whether previous keys may go with the local backend
  (`VaultRotation.AllCurrentExactlyWhenPreviousKeysAreUseless`); under AWS KMS `check` never counts a credential as
  on the current key (`VaultRotation.AwsCountsNoneCurrent`).
- The image server's `images made` and `failed` are exact unless a request raises between two updates that belong
  together, and then off by exactly what was lost there (`ImageServer.CountersAreExact`).
- A run interrupted by something `except Exception` does not see leaves its transaction open. A second run on the
  same connection commits a wrong history exactly when the interrupt fell on the INSERT of a file's row and the
  second run gets past its first commit (`Migrations.ReuseIsFaithfulExactlyUnlessAtRow`,
  `Migrations.InterruptedThenReusedAppliesTwice`). Separate connections are safe (`Migrations.ExactlyOnce`).
- A webhook connection's field can come to contradict the committed receipt exactly when that connection rolled its
  own binding back (`WebhookBinding.ContradictionReachableExactlyWhenUndone`, `FieldMayContradictReceipt`).
- Printing a whole number of more than 28 significant digits changes its value unless the digits past the 28th are
  zero (`DecimalText.RoundTripExactlyWhen`, `DecimalText.LongIntegerIsRounded`).
- Allocating ports always ends, with an OverflowError past port 65535 when none is left
  (`PortAllocation.AllocatePorts`).
- The generator raises OverflowError, after all its lines, when the last day asked for is the last of the calendar
  (`SalesGeneration.GenerateSales`).

## Model

| member | source | states |
|---|---|---|
| Migrations.ExactlyOnce | backend/scripts/apply_migrations.py:154-218 | Over any sequence of runs with failures and crashes at any step, the committed schema is what the recorded history builds, every recorded file's effect is in it exactly once, no unrecorded file's is, and the base schema at most once |
| Migrations.RunKeepsInv | backend/scripts/apply_migrations.py:154-218 | Every committed state one run can leave behind names exactly the files whose effects are in the schema |
| Migrations.ApplyOneShape | backend/scripts/apply_migrations.py:181-192 | A file's turn commits nothing or its effect together with its row, and fails only for a cause |
| Migrations.LoopShape | backend/scripts/apply_migrations.py:176-192 | However the loop ends, what is committed is the first p files still to do; a failure names the file at which it stopped |
| Migrations.HistoryIsPrefix | backend/scripts/apply_migrations.py:173-192 | If new files always sort after recorded ones, the committed history is always a prefix of the latest sorted listing |
| Migrations.OnlyLaterIsPrefix | backend/scripts/apply_migrations.py:173-179 | For a sorted history and listing, new files sorting last makes the history a prefix of the listing |
| Migrations.PrefixIsOnlyLater | backend/scripts/apply_migrations.py:173-179 | And the converse: a history that is a prefix of a sorted listing leaves only later files |
| Migrations.FailureLeavesPredecessors | backend/scripts/apply_migrations.py:189-192 | A failing file leaves exactly its predecessors applied, unless its own commit went through and only the acknowledgement failed |
| Migrations.StagedEqualsFresh | backend/scripts/apply_migrations.py:9-15 | Upgrading in any number of stages, failures included, gives the schema, history and ledger of one fresh run over the last listing, and that fresh run can fail only from outside |
| Migrations.SortedExactlyWhenLater | backend/scripts/apply_migrations.py:176-179 | A run that returns leaves the sorted listing as the history exactly when new files sorted last |
| Migrations.RerunIsEmpty | backend/scripts/apply_migrations.py:9-15 | Running again at once changes nothing and, unless something outside fails, returns the empty list |
| Migrations.ReturnsExactlyWhen | backend/scripts/apply_migrations.py:154-218 | On any database, whatever is recorded, a run returns exactly when every step it takes works, the base schema is there or accepted, and the SQL of each listed file not recorded is accepted in turn; it returns those names in listing order |
| Migrations.RunWithoutFault | backend/scripts/apply_migrations.py:173-215 | A run without faults applies the unrecorded files in listing order up to the first whose SQL is rejected, fails at that one or returns them all, and commits exactly the effects and rows before it; it fails otherwise only on a rejected base schema, committing nothing |
| Migrations.FirstFaultDecides | backend/scripts/apply_migrations.py:154-192 | The first fault, when no SQL before it is rejected, decides the outcome: an interrupt at its step, a failure of the file whose turn it is, or else a plain failure |
| Migrations.InterruptLeavesUnfaithfulExactlyAtRow | backend/scripts/apply_migrations.py:154-192 | An interrupted run leaves a pending state that contradicts the history exactly when the interrupt fell on the INSERT of a file's row |
| Migrations.ReuseIsFaithfulExactlyUnlessAtRow | backend/scripts/apply_migrations.py:154-192 | A second run on that connection commits a wrong history exactly then, provided its own first statement and commit work |
| Migrations.InterruptedThenReusedAppliesTwice | backend/scripts/apply_migrations.py:181-192 | An exit between a file's SQL and its row, then a run on the same connection, puts its effect in twice |
| Migrations.Connection.ApplyFile | backend/scripts/apply_migrations.py:181-192 | The loop body does to the connection what the specification says |
| Migrations.Connection.ApplyPending | backend/scripts/apply_migrations.py:176-192 | The loop over the sorted files does what the specification says |
| Migrations.Connection.RunMigrations | backend/scripts/apply_migrations.py:154-218 | The whole run ends in the specified state with the specified outcome, so it returns, fails and is interrupted exactly as the lemmas above say |
| WebhookBinding.CommittedTenantIsForever | backend/src/ai/db.py:223-235 | At any two moments of any interleaving, a committed tenant once set is the same later, and so is a completion |
| WebhookBinding.FieldNeverSwitches | backend/src/ai/db.py:223-235 | A connection's field leaves the zero actor at most once and never changes again, across its own rollbacks |
| WebhookBinding.BoundThenCommitted | backend/src/ai/db.py:223-235 | A committed binding is what the receipt says from then on, in every continuation |
| WebhookBinding.DisagreementIsUndone | backend/src/ai/db.py:214-235 | Field and committed receipt differ only on a connection whose own binding was rolled back |
| WebhookBinding.ContradictionReachableExactlyWhenUndone | backend/src/ai/db.py:223-235 | While a receipt is free, other deliveries can bring it to contradict a connection's field exactly when that connection rolled its own binding back |
| WebhookBinding.FinishedIsNeverPending | backend/src/ai/billing/store.py:554-580 | An event whose completion is committed is never again reported as still to be processed |
| WebhookBinding.UnwatchedFinishKeepsTenantExactlyWhen | backend/src/ai/billing/store.py:583-592 | For a role the guard trigger does not watch, finishing keeps a bound tenant exactly when it names that one, or names none and its transaction has not changed it |
| WebhookBinding.StaleFieldNeverWrites | backend/src/ai/db.py:223-235 | Such a stale field gets no binding and no completion through |
| WebhookBinding.BindSucceedsExactlyWhen | backend/src/ai/db.py:223-235 | A binding goes through exactly when the field is the zero actor or that company, the transaction may write, and the visible receipt is there, uncompleted, and names no company or that one |
| WebhookBinding.BindChanges | backend/src/ai/db.py:223-235 | Then field, context and receipt name the company, the completion and everything else stay; otherwise nothing changes |
| WebhookBinding.BindingAgainSucceeds | backend/src/ai/billing/webhooks.py:345-346 | Binding the same company again goes through, in the same transaction and right after its commit |
| WebhookBinding.BoundTenantIsAccepted | backend/src/ai/db.py:223-235 | After a committed binding and any further steps, that company is accepted on any connection for the uncompleted event that may write and whose field is free or agrees, and another company is not |
| WebhookBinding.FinishSucceedsExactlyWhen | backend/src/ai/billing/store.py:583-592 | With the restricted role finishing goes through exactly when the transaction may write and neither a set company nor a set completion would change |
| WebhookBinding.FinishIsRecorded | backend/src/ai/billing/store.py:583-592 | A committed finish leaves the given completion and the given company, else the one there was, and in every continuation both stay once set |
| WebhookBinding.ClaimSucceedsExactlyWhen | backend/src/ai/billing/store.py:554-580 | A claim goes through exactly when the transaction may write; the receipt is there then, new and free or as it was, also after the commit |
| WebhookBinding.EndPublishes | backend/src/infrastructure/db_pool.py:181-187 | A commit publishes exactly this connection's version of its row, unless a statement failed; a rollback publishes nothing; no other row or version changes |
| WebhookBinding.FieldMayContradictReceipt | backend/src/infrastructure/db_pool.py:181-187 | A six-step interleaving after which field and committed receipt name different tenants |
| WebhookBinding.WebhookConnection.BindTenant | backend/src/ai/db.py:223-235 | The method does to field, context and row what the specified step does, with the same refusals |
| WebhookBinding.WebhookConnection.ClaimEvent | backend/src/ai/billing/store.py:554-580 | The method inserts or locks the receipt as the specified step does, and returns whether the event still needs processing |
| WebhookBinding.WebhookConnection.End | backend/src/infrastructure/db_pool.py:181-187 | Commit and rollback end the transaction, keep the field and apply the context again |
| ProcessOwnership.OwnedIsRecorded | tools/dev/dev.py:331-338 | Where processes sharing an id differ in creation time by the tolerance, an owned record's process is the recorded one |
| ProcessOwnership.TargetIsRecordedExactlyWhenNotNew | tools/dev/dev.py:654-661 | A turn is on the recorded process exactly when the process found by the second lookup was there already at the ownership check |
| ProcessOwnership.TwoLiveExactlyWhenOrphaned | tools/dev/dev.py:341-364 | A service has two live recorded processes exactly when one that the ledger no longer names is alive, and another one |
| ProcessOwnership.Machine.StopProcesses | tools/dev/dev.py:648-681 | On return each selected recorded process is dead unless this call sent it SIGKILL, each selected record was plainly gone or the process found under its id was sent SIGTERM, the other records are unchanged, and exactly the selected processes still alive are orphaned. Otherwise no record changes, and the answer has its reason: it refuses only over a selected record that failed the check and whose id was then in use and not from before the boot; it ends with a lost process only when a record that passed the check has lost its process; it crashes exactly when the command was cut short. All signals go to families of targets of selected records, and if no process took a selected id during the call those targets are the recorded processes |
| ProcessOwnership.Machine.StopOne | tools/dev/dev.py:650-679 | When a record's turn ends well its process is dead unless this turn sent it SIGKILL, and it was plainly gone or its target was sent SIGTERM; a refusal and a lost process have their reasons; only its target's family is signalled |
| ProcessOwnership.Machine.SignalFamily | tools/dev/dev.py:664-679 | The parent is asked first and killed if it outlives the wait, then the descendants are asked, then those alive killed, none unasked; at the end each is dead or was sent SIGKILL |
| ProcessOwnership.Machine.StartProcess | tools/dev/dev.py:341-364 | Starts only when the check, read or unreadable, finds no owned process; a record is written exactly when the new process was seen alive, and describes it as started with the given program and command line; it orphans exactly the recorded process that had not passed the check, its program or command line changed or unreadable, and is alive still; it fails only when the command was cut short or the new process is gone |
| ProcessOwnership.UnchangedIsOwned | tools/dev/dev.py:331-363 | A process that still runs the program and command line it was described with passes the ownership check on that record |
| CommandLock.OneInsideAndNoLostUpdate | tools/dev/dev.py:790-804 | For any commands, interleaving and deaths: at most one command is inside, it made the lock file, and the ledger is every update applied in turn |
| CommandLock.EntersExactlyWhenFree | tools/dev/dev.py:790-804 | A command that tries to enter gets in exactly when there is no lock file, and makes it; otherwise it ends |
| CommandLock.UndisturbedCommandUpdates | tools/dev/dev.py:790-804 | A command alone gets in, applies its update to the ledger, leaves, and frees the lock |
| CommandLock.CrashedLockStays | tools/dev/dev.py:790-804 | A dead command's file lets nobody in until it is deleted |
| CommandLock.RemovalLetsTwoInExactlyWhenActive | tools/dev/dev.py:796-797 | After the file is deleted two commands can come to be inside exactly when one was inside at the time |
| CommandLock.RemovingActiveLockLetsAnotherIn | tools/dev/dev.py:796-804 | Deleting an active lock lets a second command in, and the first one's exit then deletes the second one's file |
| ServiceCommands.StepKeepsInv | tools/dev/dev.py:341-364 | Every step of every command, of the operating system and of a careful operator keeps lock, ledger, workers and signals consistent |
| ServiceCommands.NoRewritingIsLost | tools/dev/dev.py:790-844 | One command at a time is inside, and processes.json is every rewriting by every command applied in turn |
| ServiceCommands.OrphansAriseExactly | tools/dev/dev.py:341-364 | At each step of any command or of the system, an orphan is an earlier one still alive, or is dropped by one of the two writes in the stated way |
| ServiceCommands.OrphanExactlyWhenDropped | tools/dev/dev.py:341-364 | Over every interleaving a process is an orphan exactly when it is alive and one of the two writes dropped it along the way |
| ServiceCommands.TwoLiveExactlyWhenDropped | tools/dev/dev.py:790-844 | For any number of commands, any interleaving and anything the system does, a service has two live recorded processes exactly when a live one was dropped: by a start whose check it did not pass, changed or unreadable, or by a stop that killed it and did not wait |
| ServiceCommands.OneLiveProcessPerName | tools/dev/dev.py:790-844 | Where no write drops a live process, no service ever has two |
| ServiceCommands.StartStepMeetsPromise | tools/dev/dev.py:341-364 | In every interleaving the step that writes a start keeps the promise the method StartProcess is proved to keep |
| ServiceCommands.StopStepMeetsPromise | tools/dev/dev.py:648-681 | And the step that writes a stop keeps that of StopProcesses |
| ServiceCommands.StoppedAreDeadUnlessKilled | tools/dev/dev.py:648-681 | At the write ending a stop, in every interleaving, each selected recorded process is dead unless this job sent it SIGKILL |
| ServiceCommands.SurvivesExactlyWhenAlive | tools/dev/dev.py:664-681 | Once the last turn of a stop is past its parent, some continuation ends that stop with the parent alive exactly when it is alive then |
| ServiceCommands.StopEndsExactlyWhenNoneReused | tools/dev/dev.py:648-681 | A stop left to itself, on a machine that stays as it is, can come to its write exactly when no selected record fails the check with its id in use and not from before the boot; then the selected records are gone, and otherwise the ledger never changes |
| ServiceCommands.StartLeftToItself | tools/dev/dev.py:341-364 | A start left to itself records the new process as it was started when the check finds no owned one; when it finds one it changes nothing, and goes on or leaves by the revision |
| ServiceCommands.SignalsAreAccountedFor | tools/dev/dev.py:654-679 | Every signal any command sends goes to a sound target of a recorded process or its descendants, and that target is the recorded process exactly when it was there at the check |
| ServiceCommands.KilledWereAsked | tools/dev/dev.py:664-679 | In every interleaving a process is sent SIGKILL only after the same command, in the same turn, has sent it SIGTERM |
| ServiceRuns.TwoMayLive | tools/dev/dev.py:341-364 | A run of two starts with a change of command line between them that leaves two live recorded processes |
| ServiceRuns.UnreadableMayLeaveTwo | tools/dev/dev.py:331-364 | And a run of two starts, the second unable to read the unchanged first process, that leaves two |
| ServiceRuns.StrangerMayBeSignalled | tools/dev/dev.py:654-664 | A run of a start and a stop in which another process takes the id between check and lookup and is signalled |
| ServiceRuns.StoppedMayLive | tools/dev/dev.py:664-681 | A run of a start and a stop after which the process has been sent SIGKILL, is not in the ledger, and is alive |
| PortAllocation.AllocatePorts | tools/dev/dev.py:101-108 | Terminates; each name in order gets the least port from its preference on that is free and not chosen; fails exactly when some preference finds every port up to 65535 taken |
| PortAllocation.ServedPortsAreDistinct | tools/dev/dev.py:101-108 | No two names get the same port |
| PortAllocation.ServesUnique | tools/dev/dev.py:101-108 | The preferences and the free ports determine the answer |
| PortAllocation.EnoughPortsSuffice | tools/dev/dev.py:92-108 | As many free ports from each preference on as there are names is enough |
| VaultRotation.Check | backend/scripts/vault_key.py:46-66 | The counts are the numbers of rows that are no envelope, that are an envelope which does not open, that open under the current key of the local backend, and that open otherwise; they add up to the rows stored; the listed ids are those of the rows that do not open, in row order |
| VaultRotation.EncryptedOpensExactlyWhen | backend/src/market_scraper/credential_vault.py:192-247 | What one configuration encrypts another opens, to the same text, exactly when it has the backend and accepts the wrapping key |
| VaultRotation.RewrapDecides | backend/src/market_scraper/credential_vault.py:276-294 | Which stored values are left, moved, refused or raise a bad token, and that moving changes the wrapping key only |
| VaultRotation.AllCurrentExactlyWhenPreviousKeysAreUseless | backend/scripts/vault_key.py:14-20 | With the local backend, a report that counts all on the current key means exactly that all open without the previous keys |
| VaultRotation.AwsCountsNoneCurrent | backend/scripts/vault_key.py:46-66 | Under AWS KMS no report counts a row as on the current key |
| VaultRotation.MovedKeepsPlaintext | backend/src/market_scraper/credential_vault.py:276-294 | A moved credential opens to what it did before, also without previous keys |
| VaultRotation.DataSources.Rewrap | backend/scripts/vault_key.py:69-87 | Moves every stale row and counts them, or changes nothing; finishes exactly when no row raises, and otherwise names the first row that does |
| VaultRotation.SecondRewrapMovesNothingExactlyWhenLocal | backend/scripts/vault_key.py:69-87 | A second rewrap succeeds and keeps every plaintext; with the local backend it changes nothing; it reports zero moved exactly with the local backend or no rows |
| VaultRotation.SecondRewrapMayMove | backend/src/market_scraper/credential_vault.py:288-293 | One AWS KMS row that a second rewrap moves again |
| VaultRotation.UnreadableStopsExactlyUnlessCurrent | backend/src/market_scraper/credential_vault.py:282-291 | An unreadable credential stops a rewrap unless its data key is on the current key of the local backend |
| VaultRotation.UnreadableMayPass | backend/src/market_scraper/credential_vault.py:282-291 | One unreadable credential that does not stop a rewrap |
| VaultRotation.EveryCredentialOpens | backend/scripts/vault_key.py:14-20 | Along any number of documented rotations with saves at every moment, each credential opens to the plaintext last saved under every switched component's keys, also after the old key is removed |
| VaultRotation.RewrapAlwaysFinishes | backend/scripts/vault_key.py:69-87 | In every reachable state no row raises, so a rewrap finishes |
| VaultRotation.RotationCanComplete | backend/scripts/vault_key.py:14-20 | However far a documented rotation has come, documented steps complete it: the old key removed everywhere, every credential on the new key and opening to the text last saved |
| VaultRotation.UnswitchedWriterLoses | backend/scripts/vault_key.py:16-17 | A writer left on the old key loses what it saves once the old key is gone elsewhere |
| ImageServer.OneAtATime | backend/image_server/server.py:191-214 | For any interleaving and any exception at any point under the lock, at most one request is between acquire and release, and releases match admissions one for one |
| ImageServer.CountersAreExact | backend/image_server/server.py:196-213 | Whenever the lock is free, `recent` is the last fifty times in completion order; `made` is the images of all successful requests exactly when nothing raised between its write and the recording of the time; `failed` is the pipeline failures exactly when nothing raised before one was counted; otherwise each is off by exactly what was lost so |
| ImageServer.AdmittedExactlyWhen | backend/image_server/server.py:179-193 | An accepted request gets the lock exactly when the model is loaded, memory suffices and nobody holds it; else it ends with the first reason that applies |
| ImageServer.UndisturbedIsHandled | backend/image_server/server.py:172-214 | On any state, the steps of an undisturbed request give the reply, counters and history the handler is proved to give, and leave the lock and all other requests as they were |
| ImageServer.UnlockedUpdatesAreLost | backend/image_server/server.py:207-208 | Without the lock the same two steps of two requests lose an update |
| ImageServer.Handler.Generate | backend/image_server/server.py:172-214 | The handler's refusals in order, then reply, counters, history and released lock for every outcome of every image |
| ImportAudit.Track | backend/scripts/import_memory_audit.py:34-51 | Every import leaves the stack as it found it, recharged at most at the top, every root on it with an entry |
| ImportAudit.EachRootOnceAndBlamed | backend/scripts/import_memory_audit.py:9-14 | For every tree of imports the packages measured, each once, are exactly the roots of the absolute imports of packages not loaded yet; each is given its growth less that of the nearest imports below it that bring something in, and is blamed on the nearest enclosing importer named `src.`, else on the outermost |
| ImportAudit.BlameIsNearest | backend/scripts/import_memory_audit.py:40-42 | The blamed importer is on the chain, is ours or the outermost, and no later one is ours |
| ImportAudit.TrackAllKeepsInv | backend/scripts/import_memory_audit.py:34-51 | Entries and measurements once made are never changed |
| ImportAudit.ColumnSumsToOutermostGrowth | backend/scripts/import_memory_audit.py:9-14 | For every tree and all readings, the column sums exactly to the growth of the outermost imports that bring something in |
| ImportAudit.ColumnSumsToTotalExactlyWhenNothingElseGrows | backend/scripts/import_memory_audit.py:9-14 | The column sums to the total exactly when growth between those imports is zero |
| ImportAudit.ColumnMayMissTotal | backend/scripts/import_memory_audit.py:9-14 | A tree and readings whose column is not the total |
| ImportAudit.TotalsByModule | backend/scripts/import_memory_audit.py:64-66 | The per-module table is the column grouped by blamed module and has the same sum |
| ImportAudit.ImportTracker.TrackingImport | backend/scripts/import_memory_audit.py:34-51 | The wrapped import changes stack, own and via as specified, however imports nest |
| HelperWorklist.HelperChecks | backend/scripts/entitlement_verification.py:85-97 | Whatever entry is popped each time, it terminates; visited is exactly the same-file functions reachable from the direct calls, and the checks exactly the `usage.` and `credits.` calls in their bodies |
| HelperWorklist.ClosedAndReachedIsExact | backend/scripts/entitlement_verification.py:85-97 | Any reachable and closed set is that set, so the pop order cannot matter |
| Calendar.MonthBounds | backend/scripts/assistant_regression.py:121-126 | The loop returns the first of the month `back` months earlier and the first of the next one, or overflows exactly when one is not in the calendar |
| Calendar.BoundsExistExactlyWhen | backend/scripts/assistant_regression.py:121-126 | There are no bounds exactly when the month is before the calendar's first or is its last; else they are the firsts of that month and of the next |
| Calendar.InBoundsExactlyWhenThatMonth | backend/scripts/assistant_regression.py:121-126 | A date is within the bounds exactly when its month is that many months back |
| Calendar.BoundsMeet | backend/scripts/assistant_regression.py:121-126 | Successive bounds meet without gap or overlap |
| Calendar.DayStepIsPairStep | backend/scripts/demo_companies/generate.py:320 | Adding 32 days and going to the first agrees with the successor on (year, month), for every month |
| Calendar.LastQuarterIsThreeMonths | backend/scripts/assistant_regression.py:288-290 | The last-quarter formulas give the three whole months before the current quarter |
| Calendar.LastQuarterFailsExactlyWhen | backend/scripts/assistant_regression.py:287-290 | The formulas fail exactly in the first quarter of year 1 |
| Calendar.AddDaysMovesOrdinal | backend/scripts/assistant_regression.py:124-125 | Adding days to a date is addition on day numbers and fails exactly outside years 1 to 9999 |
| Calendar.YearStart | backend/scripts/assistant_regression.py:121-126 | Day numbers follow the Gregorian 4, 100 and 400 rules |
| SalesGeneration.GenerateSales | backend/scripts/demo_companies/generate.py:103-171 | Whatever is drawn: lines are in date order and in range, each of an active product (or the monthly fee) at that day's price with its rounded total; order numbers never fall along the lines, and none is left out where receipts have at least one line; every day with fees due has exactly three fee invoices, numbered consecutively, and no other day any; no product is twice on an order, except that the restaurant's summary repeats a name its list repeats; the two errors occur exactly when stated |
| SalesGeneration.OneReceipt | backend/scripts/demo_companies/generate.py:147-170 | A receipt has one order number and exactly the products drawn for it, in order, without those whose name was drawn before |
| SalesGeneration.FirstDrawnAre | backend/scripts/demo_companies/generate.py:152-158 | These are products drawn, of exactly the names drawn, each name once |
| SalesGeneration.MoneyRoundsTiesUp | backend/scripts/demo_companies/generate.py:33-35 | An amount half a minor unit above a whole number of them is rounded up |
| SalesGeneration.Fees | backend/scripts/demo_companies/generate.py:132-138 | Exactly three retainer invoices of one unit at the fee's price, with the three next numbers |
| SalesGeneration.Summaries | backend/scripts/demo_companies/generate.py:109-124 | One summary row for each active product drawn with a positive quantity, in product order, and no other row |
| SalesGeneration.SummaryLinesAre | backend/scripts/demo_companies/generate.py:109-124 | A line is among those rows exactly when it is the summary of some active product with the positive quantity drawn for it |
| SalesGeneration.CurrentPrice | backend/scripts/demo_companies/generate.py:59-64 | The loop returns the last listed price in force by the day, or the first one |
| SalesExport.KeysRiseWithDates | backend/scripts/demo_companies/generate.py:189-190 | An earlier date never has a later period key, as texts, for quarters and months |
| SalesExport.KeyNamesOnePeriod | backend/scripts/demo_companies/generate.py:189-190 | Two dates share a key exactly when they are in the same quarter or month of the same year |
| SalesExport.WriteExports | backend/scripts/demo_companies/generate.py:198-257 | One file per period in key order, each holding that period's lines in order; an unknown format fails exactly when there is a line |
| SalesExport.FilesAreDistinct | backend/scripts/demo_companies/generate.py:203-256 | No two files have the same name |
| SalesExport.FileNamesOnePeriod | backend/scripts/demo_companies/generate.py:189-245 | Two dates go to the same file name exactly when they are in the same quarter or month of the same year |
| SalesExport.FilesRestoreTheLines | backend/scripts/demo_companies/generate.py:198-201 | Reading the files in order gives any date-ordered list back |
| SalesExport.GeneratedFilesRestore | backend/scripts/demo_companies/generate.py:103-201 | Whatever was generated splits into files that read back as generated |
| Grouping.JoiningRestoresExactlyWhen | backend/scripts/demo_companies/generate.py:199-203 | Groups joined in sorted key order are the original list exactly when its keys never fall |
| Grouping.GroupBy | backend/scripts/demo_companies/generate.py:199-201 | The dictionary of lists holds, per key, the items of that key in order, keys in order of first appearance |
| SalesExport.ThreeTotalsAgree | backend/scripts/demo_companies/generate.py:348-361 | Per-product revenue, per-day revenue and the grand total are the same sum for any list of lines |
| SalesExport.RoundingIsBounded | backend/scripts/demo_companies/generate.py:33-35 | Rounding each line moves the revenue from the unrounded sum by at most half a minor unit per line |
| SalesExport.Daily | backend/scripts/demo_companies/generate.py:368-372 | The loop builds the totals grouped by ISO date |
| SalesExport.WindowIsDirect | backend/scripts/demo_companies/verify.py:27-32 | The windowed sum over the daily index is the direct sum over the lines dated in the window, for every window and moment |
| SalesExport.WindowExistsExactlyWhen | backend/scripts/demo_companies/verify.py:27-32 | The sum exists exactly when the day that many days before today is in the calendar |
| SalesExport.WindowDays | backend/scripts/demo_companies/verify.py:27-32 | A window of n days is today and the n - 1 days before, and one day more exactly at midnight |
| SalesExport.IsoReads | backend/scripts/demo_companies/verify.py:31-32 | Reading an ISO date text gives the date back |
| Totals.GroupedSum | backend/scripts/demo_companies/generate.py:348-352 | Group totals add up to the items |
| Totals.SelectedSum | backend/scripts/demo_companies/verify.py:31-32 | Selecting entries of a grouped, listed dictionary sums as selecting the items it was built from |
| DecimalText.RoundTripExactlyWhen | backend/scripts/demo_companies/generate.py:193-195 | For every decimal and either mark, parsing the printed text gives the value back exactly when it is not whole or its digits past the 28th are zero |
| DecimalText.RoundTripBelowPrecision | backend/scripts/demo_companies/generate.py:193-195 | Every value below ten to the 28th survives |
| DecimalText.LongIntegerIsRounded | backend/scripts/demo_companies/generate.py:194 | Ten to the 29th plus one, a thirty-digit number, does not survive |
| DecimalText.EqualValuesPrintAlike | backend/scripts/demo_companies/generate.py:193-195 | Equal values print identically whatever their stored exponent |
| DecimalText.NumIsCanonical | backend/scripts/demo_companies/generate.py:193-195 | Only digits and at most one mark between digits; no trailing zero after the mark, no superfluous leading zero |
| AlertRanking.TwoSortsAreOne | backend/src/ai/alerts.py:141-143 | The two stable sorts are one sort by severity, then newest first, then the order of construction |
| AlertRanking.OutranksExactlyWhen | backend/src/ai/alerts.py:141-143 | Ranking first is being danger before warning before info, or as severe and newer, or equal in both and built earlier |
| AlertRanking.SortInOrder | backend/src/ai/alerts.py:142-143 | A stable sort puts its key in front of the order the list already had |
| AlertRanking.StableSortIsUnique | backend/src/ai/alerts.py:142-143 | Only one arrangement of the same alerts is in that order |
| AlertRanking.ShownAreTheFirst | backend/src/ai/alerts.py:144 | The first min(30, n) are shown, at distinct positions, each outranking the next |
| AlertRanking.NothingCutOutranksAnythingShown | backend/src/ai/alerts.py:144 | Everything shown outranks everything cut off, and never the other way round |
| AlertRanking.AlertList.Rank | backend/src/ai/alerts.py:141-144 | Sorting the list twice in place and slicing gives the first thirty of the one sort |
| Percentile.NearestExactlyWhenPercentile | backend/scripts/benchmark_image_providers.py:62-68 | For 0 < pct <= 100 the result is v exactly when v is an observed value with at least pct percent at or below it and fewer strictly below it |
| Percentile.OrderDoesNotMatter | backend/scripts/benchmark_image_providers.py:62-68 | The percentile is the same for every arrangement of the runs |
| Percentile.BetweenExtremes | backend/scripts/benchmark_image_providers.py:62-68 | The percentile lies between any bounds of the values |
| Percentile.FailsExactlyAboveHundred | backend/scripts/benchmark_image_providers.py:66-68 | IndexError exactly when the share asked for exceeds the runs; the least value for pct at or below zero |
| Percentile.NinetyFifthRankAllowsRounding | backend/scripts/benchmark_image_providers.py:67 | At 95 percent, a product rounded by less than a twentieth and not past the next whole number gives the exact rank |
| Percentile.TargetMetExactlyWhen | backend/scripts/benchmark_image_providers.py:71-84 | The target is met exactly when runs were made, none failed, and at least 95% of them were faster than it |
| Percentile.SummaryDescribesRuns | backend/scripts/benchmark_image_providers.py:71-84 | The counts of the summary, and a 95th percentile that is absent without successful runs, never an error, and else the value the definition allows |

## Left out

- WebhookBinding.WebhookConnection.ClaimEvent: the receipt's error text, which it clears and finishing sets, is not modelled.
- SalesGeneration.GenerateSales: an empty discount list or an empty line range makes Python's random functions raise; the model draws no discount and any count instead.
- SalesExport.WindowIsDirect: keys of the daily index that are not ISO dates, which the program would reject, do not occur.
- Percentile.NearestExactlyWhenPercentile: the rank is computed over exact reals, not floats; likewise money, quantities and memory readings are exact reals.
- Migrations: the role and password helpers, loading and installing the plan catalogue and the catalogue reconciliation around the loop; a listing is assumed sorted as Python sorts it.
- Migrations: two runners at the same time.
- WebhookBinding: row-level security, the event-wide advisory lock in the webhook handler, and connection URLs and the pool.
- ProcessOwnership: log files, environment variables, the frontend and worker launch arguments, and Windows specifics.
- CommandLock: the id written into the lock file and the commands that run without the lock (they only read).
- ServiceCommands: commands other than starts and stops, which do not touch processes.json.
- VaultRotation: cryptography is symbolic; JSON and base64 encoding of envelopes is not modelled.
- ImageServer: seeds, image encoding, memory probing and HTTP; a pipeline call returns or raises.
- SalesGeneration: distributions of the random draws, expected units, the Poisson sampler, and reviews except their month step.
- SalesExport: CSV and workbook cells other than the printed decimals, and units per product.
- DecimalText: negative and non-finite decimals, and exponents beyond the decimal context's limits.
- AlertRanking: how the alerts are built from the database.
- Docker, browsers, live providers, PDF building, demo profiles and the web frontend: I/O, fixtures or user interface.
