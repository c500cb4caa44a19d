# Crash-safe protocols of the agent fleet: a verified model

The fleet's control programs keep their promises through protocols made of durable steps: write
an intent, rename, write a receipt, append a ledger line. A process may stop after any of them
and its work must then be finished safely, under the same identity, by whoever calls next. This
project models eight of these protocols and proves what each step, each crash and each restart
keeps.

`dafny verify dfyconfig.toml` checks all of it.

## How the model is built

- **Durable state** is a record of maps (paths, names or identifiers to contents). A class such
  as `Handoff.Store` or `AuditLedger.SignedLedger` holds the fields the program updates in
  place; each of its methods equals a step function on the record, and the theorems are about
  that function: `Handoff.Commit`, `CloneGuard.Cleanup`, `CloneTree.RemoveContents`,
  `AuditLedger.Append`, `Assurance.Apply`, `Dispatch.Next`, `EventStream.Parse`.
- **A crash** is a run that stops before a durable step. `budget` is the number of durable steps
  a run still has; a theorem for every budget is a theorem for every crash point, and a list of
  attempts with their own budgets is a history of crashes and restarts.
- **Hashing, signing and canonical encoding** are arbitrary functions collected in an `Env`,
  `Codec` or `Keys` record. `Injective` and the decode-after-encode law are required only by the
  lemmas that need them.
- **Time** is an integer. Clock readings, fresh identifiers, object-store replies and whatever
  the wrapper process did are arguments of the call.

| module | protocol |
|---|---|
| `Handoff` | assurance handoff: prepare, two-phase move of eight files, receipt |
| `CloneTree`, `CloneGuard` | checked recursive removal; staging, tombstone and retirement of snapshot clones |
| `Assurance` | the assurance controller's ledger state machine |
| `AuditLedger`, `AuditClient` | signed audit ledger; offline verification and the stored verification receipt |
| `Dispatch` | assured dispatch, interleaved with other actions, crashes, renewals and finalizations |
| `Admission` | admission batches and credit accounting |
| `ArchiveTree` | Git tree identifier recomputed from tar members |
| `Archive` | archive builder against archive verifier |
| `Responses`, `EventStream` | validator of a response stream; event-stream printer and reader (section 9.2 of the WHATWG HTML Living Standard) |
| `StableSort`, `ByteOrder`, `Common` | Python's stable list sort, byte order, shared types |

## Where a promise holds only under a condition

Each of these has a lemma with the exact condition, and a witness where the code misses it.

1. A handoff receipt minted while the clock is behind the ledger head is written without
   complaint and never validates afterwards. For a commit that completes, later validation
   succeeds exactly when the clock was not behind the head and the source tree held no stray
   file (`Handoff.MintedReceiptValidates`, `ClockBehindHeadIsNotNoticed`, `ClockBehindHeadHappens`).
2. A snapshot holding a directory its owner cannot list passes snapshot validation and the
   retirement preflight, but can never be retired (`CloneGuard.ListingDecides`,
   `UnlistableSnapshotsAreKept`).
3. The expiry event uses the predictable key `system:deadline:<id>`. A caller may use that key
   for a command of its own; from the deadline on every command, even `show`, then raises
   (`Assurance.ExpiryDecides`, `TakenKeyBlocksEverything`, `ExpiryKeyCanBeTaken`).
4. An audit payload carrying `event_sha256` or `control_signature` is recorded, and the ledger
   refuses every later append (`AuditLedger.WrittenLedgerVerifies`, `DigestInPayloadBreaksLedger`).
5. A payload that disagrees with a key the ledger sets itself (a `sequence`, say) is recorded
   once and its replay is then refused (`AgreementIsOnControlKeys`, `CompletedReplayDecides`,
   `SequenceInPayloadBreaksReplay`). `AuditLedger.append` takes payloads as in 4 and 5 from any
   caller; the audit service's own callers (scripts/fleet_audit_control.py, lines 941 to 1088)
   build payloads with fixed keys that do not include these.
6. An object-lock put answered with an unusable version fails; its retry finds the object,
   checks only its digest and retention, and records that version, which offline verification
   then refuses (`UnusableVersionIsRecordedOnRetry`, `AuditClient.SoundAnchor`).
7. A retried append that finds its object under lock succeeds only while the retention has not
   run out (`CrashedAppendConverges`, `ExpiredRetentionBlocksRetry`).
8. A retry gets past the pending entry of a crashed append exactly when no other append came
   between and its payload is unchanged. The service stamps the current time into every control
   event, so its own retries of such an event fail, however often they are made, and the store
   never becomes quiescent (`PendingDecides`, `RestampedRetriesFail`).
9. A reserved or committed admission that no process holds can be released by retries exactly
   when its action is not completed, the approval it was reserved under is still the Mission's
   and the retry makes the same request (`Dispatch.ReleaseDecides`). Whether the approval can be
   outrun is settled when the reservation is made: it can exactly when the call had read an
   approval that was no longer current (`ReservationDecides`); the reserving code does not
   compare. A begin, a renewal, a reservation and a crash do it (`StrandingHappens`). While the
   admission stands there is no renewal, and its recipient gets no other admission, the next
   attempt of the same action included (`StrandedForever`).
10. The wrapper is launched again for a run that already has a lifecycle row only if an earlier
    wrapper of that run outlived its call (`Dispatch.OneLaunchIdentity`); for an authorized run
    without a row this can happen exactly when one is left behind (`RelaunchDecides`,
    `RelaunchHappens`). It is the same run each time.
11. The builder's size limit counts neither index nor receipt, and the verifier's does. An
    archive of collected files verifies exactly when the two still fit; one at the limit is put
    in place and refused (`Archive.CollectedArchiveVerifies`, `FullArchiveIsRefused`).

The digest of an admission batch depends on the order of requests that share a key
(`Admission.BatchDigestsAgree`, `DuplicateKeysSplitTheDigest`). Such a batch is refused when it
is built, so every batch that is reserved has an order-free digest.

## Model

| member | source | states |
|---|---|---|
| `Handoff.CommitConserves` | scripts/fleet_assurance_handoff.py:937-1046 | from any disk, with any ledger and clock, stopping after any durable step: every kind of file keeps its content, at its source or its destination, and every other path is untouched |
| `Handoff.MoveAllConserves` | scripts/fleet_assurance_handoff.py:864-922 | the item loop loses, duplicates and changes nothing, leaves intent and receipt alone, and never reports completion or a transient failure itself |
| `Handoff.MoveAllPlaces` | scripts/fleet_assurance_handoff.py:411-463 | once the loop has finished, every listed item is where layout validation demands it, with its recorded digest and size, and absent from its source |
| `Handoff.ManifestGoesLast` | scripts/fleet_assurance_handoff.py:937-1046 | the order in which items are moved is the inventory order, whose last member is the manifest |
| `Handoff.ShiftContents` | scripts/fleet_assurance_handoff.py:864-922 | what is at every path after the first `m` files have moved, for any starting tree with an empty destination |
| `Handoff.MoveFrom` | scripts/fleet_assurance_handoff.py:864-922 | the loop restarted over a half-moved tree ends after some number of further moves, finishes when it has one step per file left, and never refuses its own half-done work |
| `Handoff.CrashStatesAreRecoverable` | scripts/fleet_assurance_handoff.py:864-1046 | in every crash state each present item is at exactly one of source and destination with its recorded digest, each absent item at neither; the manifest is at its destination only after all others; files have moved only under a committing intent |
| `Handoff.AttemptKeepsReach` | scripts/fleet_assurance_handoff.py:937-1046 | one commit attempt from a reachable disk, stopped anywhere, leaves a reachable disk; under a live approval with enough steps it completes |
| `Handoff.RetriesKeepReach` | scripts/fleet_assurance_handoff.py:937-1046 | the same over any list of crashed attempts with approval renewals between them; a last live attempt finishes |
| `Handoff.CrashesConverge` | scripts/fleet_assurance_handoff.py:937-1046 | any history of crashes and renewals ending in a live attempt yields the same files as one uninterrupted run, each source's contents at its destination, and a receipt that validates |
| `Handoff.RenewalsKeepMission` | scripts/fleet_assurance_handoff.py:217-263 | ledgers that differ by renewals derive the same Mission except for approval and head |
| `Handoff.BindingSurvives` | scripts/fleet_assurance_handoff.py:511-561 | a recorded approval binding holds of a renewed ledger exactly when it held of the earlier one |
| `Handoff.CurrentBinding` | scripts/fleet_assurance_handoff.py:511-561 | binding to the current head and approval is valid exactly when a completion time, if any, lies between the head's timestamp and the expiry |
| `Handoff.MintedReceiptValidates` | scripts/fleet_assurance_handoff.py:466-561 | the receipt and intent of a completed commit pass receipt, pair and layout validation under every later renewal exactly when the clock was not behind the ledger head and no stray file lay there |
| `Handoff.ClockBehindHeadIsNotNoticed` | scripts/fleet_assurance_handoff.py:1012-1046 | with the clock behind the head a live commit completes, and its receipt is never accepted |
| `Handoff.ClockBehindHeadHappens` | scripts/fleet_assurance_handoff.py:1012-1046 | a concrete run of that kind |
| `Handoff.PreparedIntentStartsCommit` | scripts/fleet_assurance_handoff.py:762-798 | preparing moves no file, and its intent is a valid starting point for the commit over the quiesced tree, also after renewals |
| `Handoff.ValidateItems` | scripts/fleet_assurance_handoff.py:333-368 | the loop accepts exactly the well-formed inventories |
| `Handoff.SnapshotItems` | scripts/fleet_assurance_handoff.py:801-831 | fails exactly when a required file is missing, and otherwise describes every file in inventory order |
| `Handoff.Store.WriteIntent` | scripts/fleet_assurance_handoff.py:743-759 | one durable step that replaces the intent and nothing else |
| `Handoff.Store.Move` | scripts/fleet_assurance_handoff.py:864-922 | the store after moving one item is that of the step function |
| `Handoff.Store.MoveEach` | scripts/fleet_assurance_handoff.py:983-1011 | the loop with its counter is the step function over the whole list, stopping where that stops |
| `Handoff.Store.Publish` | scripts/fleet_assurance_handoff.py:1012-1046 | layout check, expiry check and the durable receipt |
| `Handoff.Store.BeginLocked` | scripts/fleet_assurance_handoff.py:955-1011 | inventory and committing intent when prepared, then the move and the receipt |
| `Handoff.Store.CommitLocked` | scripts/fleet_assurance_handoff.py:937-1046 | the whole call, replay of a finished handoff included, equals the step function the theorems are about |
| `Handoff.Store.PrepareLocked` | scripts/fleet_assurance_handoff.py:762-798 | the prepare call equals its step function and touches only the intent |
| `CloneTree.RemoveEntry` | scripts/fleet_clone_guard.py:1138-1202 | one entry, by kind, stopped anywhere |
| `CloneTree.RemoveListed` | scripts/fleet_clone_guard.py:1138-1202 | the loop over a directory's names equals the recursive walk, with its `removed` counter |
| `CloneTree.RemoveDirectoryContents` | scripts/fleet_clone_guard.py:1138-1202 | chmod, listing and loop equal the recursive walk; terminates on every finite tree |
| `CloneTree.RemovalPrunes` | scripts/fleet_clone_guard.py:1138-1202 | whatever stops it, what remains is a pruning of the original, removed plus remaining is the original count, and success means nothing remains |
| `CloneTree.DirRemovalPrunes` | scripts/fleet_clone_guard.py:1138-1202 | the same for one directory, its root kept |
| `CloneTree.RemovalDecides` | scripts/fleet_clone_guard.py:1138-1202 | it refuses only a tree that is not removable and completes only one that is; enough steps rule out a stop, and the cost is bounded |
| `CloneTree.DirRemovalDecides` | scripts/fleet_clone_guard.py:1138-1202 | the same for one directory |
| `CloneTree.ProtectedSurvives` | scripts/fleet_clone_guard.py:1138-1202 | a node on another device, of another owner, of a special kind or with a second hard link is still there however the removal ends |
| `CloneTree.PrunedStaysRemovable` | scripts/fleet_clone_guard.py:1138-1202 | what a crash leaves of a removable tree is removable |
| `CloneTree.PrunedStaysValid` | scripts/fleet_clone_guard.py:1015-1034 | what a crash leaves of a valid tree still passes the tombstone's tree check |
| `CloneTree.SnapshotIsRemovable` | scripts/fleet_assurance_controller.py:590-666 | a validated snapshot that is listable throughout on one device is removable |
| `CloneGuard.RemovalIsBound` | scripts/fleet_clone_guard.py:1037-1135 | from any store, a removal that changes anything acts on a directory whose device and inode its tombstone records, only prunes it, requires the source to be gone, and spares protected nodes |
| `CloneGuard.PreflightAcceptsEveryPhase` | scripts/fleet_assurance_controller.py:2829-2898 | every crash state of stage, tombstone, remove and clear passes the retirement preflight |
| `CloneGuard.StageAdvances` | scripts/fleet_clone_guard.py:842-990 | staging from any of its crash states, stopped anywhere, moves only forward, never refuses, and with five steps is done |
| `CloneGuard.EnsureAdvances` | scripts/fleet_clone_guard.py:1037-1135 | the same for writing the tombstone |
| `CloneGuard.StageAndBuryAdvances` | scripts/fleet_assurance_controller.py:2901-3005 | staging followed by its tombstone, from any phase up to staged |
| `CloneGuard.RemoveAdvances` | scripts/fleet_clone_guard.py:1037-1135 | the removal resumes at any pruning of the clone and empties it |
| `CloneGuard.ClearStageAdvances` | scripts/fleet_clone_guard.py:1205-1223 | the stage intent is cleared once, and clearing again is harmless |
| `CloneGuard.ClearTombstoneAdvances` | scripts/fleet_clone_guard.py:1037-1135 | clearing the tombstone ends the retirement |
| `CloneGuard.BuryAdvances` | scripts/fleet_assurance_controller.py:2901-3005 | require, remove, clear stage, clear tombstone from any later phase |
| `CloneGuard.RetireAdvances` | scripts/fleet_assurance_controller.py:2901-3005 | one clone's retirement from every phase, within a stated number of steps |
| `CloneGuard.ListingDecides` | scripts/fleet_clone_guard.py:217-239 | a validated snapshot passes the preflight, and retires exactly when every directory in it can be listed on its own device |
| `CloneGuard.SnapshotsAreRetired` | scripts/fleet_assurance_controller.py:2901-3005 | a concrete snapshot that meets what these theorems ask, and its retirement |
| `CloneGuard.UnlistableSnapshotsAreKept` | scripts/fleet_clone_guard.py:217-239 | the same snapshot with an unreadable directory: validated, accepted by the preflight, not retired with any number of steps beyond the stated cost |
| `CloneGuard.RetireTouches` | scripts/fleet_assurance_controller.py:2901-3005 | retiring a clone changes only that clone's own names |
| `CloneGuard.CleanupTouchesOnlyItsClones` | scripts/fleet_assurance_controller.py:2901-3005 | from any store, a cleanup changes no name outside those of the clones it is given |
| `CloneGuard.CleanupAdvances` | scripts/fleet_assurance_controller.py:2901-3005 | from any mixture of crash states a cleanup never refuses, leaves crash states, and with enough steps retires all |
| `CloneGuard.RestartsStayWithin` | scripts/fleet_assurance_controller.py:2901-3005 | any number of stopped cleanups leaves only crash states |
| `CloneGuard.RestartedCleanupConverges` | scripts/fleet_assurance_controller.py:2829-3005 | after any number of stopped cleanups one undisturbed run leaves every source, staged clone and both intents absent |
| `CloneGuard.Worktrees.OpenStagingRoot` | scripts/fleet_clone_guard.py:262-278 | creates the staging root at most once and checks owner and mode |
| `CloneGuard.Worktrees.Restore` | scripts/fleet_clone_guard.py:842-990 | restoring the recorded root mode |
| `CloneGuard.Worktrees.MoveIn` | scripts/fleet_clone_guard.py:842-990 | temporary owner write, rename, restored mode, stopped at any of them |
| `CloneGuard.Worktrees.StageBound` | scripts/fleet_clone_guard.py:842-990 | all states a durable stage intent can be found with |
| `CloneGuard.Worktrees.Stage` | scripts/fleet_clone_guard.py:842-990 | the whole staging call |
| `CloneGuard.Worktrees.Ensure` | scripts/fleet_clone_guard.py:1037-1135 | the tombstone call in its `ensure` mode |
| `CloneGuard.Worktrees.Require` | scripts/fleet_clone_guard.py:1037-1135 | the `require` mode, which changes nothing |
| `CloneGuard.Worktrees.Remove` | scripts/fleet_clone_guard.py:1037-1135 | the `remove` mode; a completed removal reports the number of entries there were |
| `CloneGuard.Worktrees.ClearStage` | scripts/fleet_clone_guard.py:1205-1223 | clearing the stage intent |
| `CloneGuard.Worktrees.Clear` | scripts/fleet_clone_guard.py:1037-1135 | the `clear` mode |
| `CloneGuard.Worktrees.RetireSnapshot` | scripts/fleet_assurance_controller.py:2901-3005 | one turn of the driver, decided by what was seen before any clone was touched |
| `CloneGuard.Worktrees.CleanupSnapshots` | scripts/fleet_assurance_controller.py:2901-3005 | preflight of all clones, then one turn each; removed and already absent add up to the clones |
| `Assurance.CheckAdjudications` | scripts/fleet_assurance_controller.py:1375-1422 | accepts exactly the adjudications that name every finding once and nothing else, and reports whether one was sustained |
| `Assurance.CheckVerification` | scripts/fleet_assurance_controller.py:1375-1422 | accepts exactly the payloads whose verdict agrees with their adjudications and new findings |
| `Assurance.LoadEvents` | scripts/fleet_assurance_controller.py:305-371 | accepts exactly the ledgers that are chained, in sequence, well formed and free of repeated ids and keys |
| `Assurance.AppendKeepsLoads` | scripts/fleet_assurance_controller.py:429-472 | an append to a ledger that loads gives one that loads, whatever is asked of it |
| `Assurance.RunMoves` | scripts/fleet_assurance_controller.py:1751-1861 | ingesting a run takes the one allowed step, to a message bound to that run and payload, or gives up |
| `Assurance.MessageMoves` | scripts/fleet_assurance_controller.py:1864-1937 | ingesting a message takes the one allowed step, binding it, or gives up |
| `Assurance.PhaseMoves` | scripts/fleet_assurance_controller.py:1940-1991 | the phase change takes the one allowed step or gives up |
| `Assurance.ExpirySettles` | scripts/fleet_assurance_controller.py:483-508 | after an expiry check that did not raise, no active assurance is past its deadline |
| `Assurance.ApplyKeeps` | scripts/fleet_assurance_controller.py:1994-2114 | every command, whatever it finds, leaves a ledger that loads and follows the protocol |
| `Assurance.ReachableLedgers` | scripts/fleet_assurance_controller.py:1994-2114 | so does every script of commands |
| `Assurance.TrailShape` | scripts/fleet_assurance_controller.py:254-302 | event `i` of a ledger on the protocol has the `i`-th active status or is the last; at most six events; fixed fields repeat; only expiry is timed at or after the deadline |
| `Assurance.LedgersAreShort` | scripts/fleet_assurance_controller.py:1994-2114 | every reachable ledger has at most six events, a terminal one only last, and an event is an expiry exactly when timed at or after the deadline |
| `Assurance.VerifiedIsEarned` | scripts/fleet_assurance_controller.py:1751-1991 | a reachable `verified` ledger passed the five active stages in order, and holds the digest of a verification that adjudicates each finding of the bound challenge exactly once, dismisses all, and adds none |
| `Assurance.TerminalIsFinal` | scripts/fleet_assurance_controller.py:1994-2114 | no command changes a ledger after a terminal event |
| `Assurance.ApplyAppendsAtMostOne` | scripts/fleet_assurance_controller.py:429-472 | a command only appends, and at most one event |
| `Assurance.RepeatsAreIdempotent` | scripts/fleet_assurance_controller.py:414-426 | repeating a recorded command under its key returns the recorded event and appends nothing of its own |
| `Assurance.ExpiryDecides` | scripts/fleet_assurance_controller.py:483-508 | an overdue expiry check raises exactly when its key is already in the ledger, and otherwise settles it as indeterminate |
| `Assurance.TakenKeyBlocksEverything` | scripts/fleet_assurance_controller.py:483-508 | with that key taken, every command after the deadline raises and changes nothing |
| `Assurance.ExpiryKeyCanBeTaken` | scripts/fleet_assurance_controller.py:1518-1680 | a concrete history in which it is taken by the first command |
| `Assurance.PublicationIsNeverRejected` | scripts/fleet_assurance_controller.py:1803-1937 | under an unchanged manifest, a message matching what a run's ingestion recorded is never rejected for its contract |
| `Assurance.PublicationFollowsIngestion` | scripts/fleet_assurance_controller.py:1994-2063 | the same between any recorded run step and the message step after it |
| `Assurance.RunsAreDistinct` | scripts/fleet_assurance_controller.py:1683-1694 | in every reachable ledger no run is bound twice |
| `Assurance.ArtifactExpectations` | scripts/fleet_assurance_controller.py:2221-2261 | accepts exactly the ledgers binding one digest per prompt and one context, and returns each stage's digest |
| `Assurance.ReachableArtifacts` | scripts/fleet_assurance_controller.py:2221-2261 | every reachable ledger meets its artifact expectations |
| `Assurance.Controller.AppendEvent` | scripts/fleet_assurance_controller.py:429-472 | replay, conflict, refusal or one appended event, as the step function says |
| `Assurance.Controller.ExpireLocked` | scripts/fleet_assurance_controller.py:483-508 | the expiry check as a change of the ledger |
| `Assurance.Controller.Handle` | scripts/fleet_assurance_controller.py:1994-2114 | start, step, abandon and show as changes of the ledger |
| `AuditLedger.LoadAndVerify` | scripts/fleet_audit_control.py:771-810 | accepts exactly the ledgers whose digests, signatures and chain agree |
| `AuditLedger.NewEventField` | scripts/fleet_audit_control.py:819-895 | every key of a new event: the ledger's own keys override the payload, other keys are the payload's |
| `AuditLedger.WrittenLedgerVerifies` | scripts/fleet_audit_control.py:771-895 | a verified ledger extended by an append verifies exactly when the payload has no digest and no signature key |
| `AuditLedger.AnchorAdvances` | scripts/fleet_audit_control.py:566-649 | put-if-absent from any phase, stopped anywhere: exactly when it is timely does it give the event's receipt |
| `AuditLedger.RecordAdvances` | scripts/fleet_audit_control.py:819-895 | pending, anchor, receipt and line from any phase, stopped anywhere, move only forward; with enough steps it completes exactly when the anchor is timely |
| `AuditLedger.ReplayAdvances` | scripts/fleet_audit_control.py:724-754 | the same for a replayed call, the completion of a pending entry included |
| `AuditLedger.CrashedAppendConverges` | scripts/fleet_audit_control.py:819-895 | after any crashed attempts of one request a replay succeeds exactly when the line is written or the anchor is timely, and then leaves the original event, its receipt and its line once |
| `AuditLedger.CrashesLeaveNoTrace` | scripts/fleet_audit_control.py:819-895 | without an object lock the recovered store equals the crash-free one |
| `AuditLedger.SameAppendSameEvent` | scripts/fleet_audit_control.py:819-895 | two calls for one id make the same event exactly when run, ledger length, last digest and the payload outside the ledger's own keys agree |
| `AuditLedger.PendingDecides` | scripts/fleet_audit_control.py:702-722 | a retry that meets the pending entry of a crashed append gets past it exactly when it makes the same event, and otherwise fails and changes nothing |
| `AuditLedger.RestampedRetriesFail` | scripts/fleet_audit_control.py:976-1019 | after a crash behind the pending entry, every retry with another time stamp fails and the store stays as it is |
| `AuditLedger.DigestInPayloadBreaksLedger` | scripts/fleet_audit_control.py:819-895 | a concrete payload with a digest of its own is recorded, and every append after it fails |
| `AuditLedger.ExpiredRetentionBlocksRetry` | scripts/fleet_audit_control.py:566-649 | a concrete append that stops after its put and is retried past the retention fails and records nothing |
| `AuditLedger.AgreementIsOnControlKeys` | scripts/fleet_audit_control.py:724-754 | an event agrees with its own payload exactly when the payload agrees on every key the ledger sets |
| `AuditLedger.CompletedReplayDecides` | scripts/fleet_audit_control.py:819-895 | replaying a finished append changes nothing, and returns the event exactly when it agrees with the payload |
| `AuditLedger.SequenceInPayloadBreaksReplay` | scripts/fleet_audit_control.py:819-895 | a family of payloads that append once and whose replay fails |
| `AuditLedger.UnusableVersionIsRecordedOnRetry` | scripts/fleet_audit_control.py:566-649 | a put refused for its version is accepted, with that version, on retry |
| `AuditLedger.AppendKeepsSound` | scripts/fleet_audit_control.py:819-895 | any append, stopped anywhere, keeps a store in which every ledger line has its matching receipt and a unique id; the ledger only grows and receipts stay |
| `AuditLedger.SignedLedger.Persist` | scripts/fleet_audit_control.py:702-722 | persisting the pending entry, or finding the same one |
| `AuditLedger.SignedLedger.Receive` | scripts/fleet_audit_control.py:676-695 | writing the receipt, or finding the same one |
| `AuditLedger.SignedLedger.PutAnchor` | scripts/fleet_audit_control.py:566-649 | the three sinks as put-if-absent |
| `AuditLedger.SignedLedger.CompleteExisting` | scripts/fleet_audit_control.py:724-754 | finishing an event already in the ledger |
| `AuditLedger.SignedLedger.RecordNew` | scripts/fleet_audit_control.py:819-895 | the four durable steps of a new event in order |
| `AuditLedger.SignedLedger.AppendEvent` | scripts/fleet_audit_control.py:819-895 | the whole call equals the step function the theorems are about |
| `AuditClient.ReadChain` | scripts/fleet_audit_client.py:271-309 | accepts exactly the non-empty chains whose digests and links agree |
| `AuditClient.SoundAnchor` | scripts/fleet_audit_client.py:371-509 | the anchor of a stored event verifies exactly when its object, if under lock, has a usable version |
| `AuditClient.QuiescentStoreVerifies` | scripts/fleet_audit_client.py:371-509 | a freshly minted receipt over a reachable store verifies offline exactly when nothing is pending, ids are canonical UUIDs and lock versions are usable |
| `AuditClient.MintedIsPrior` | scripts/fleet_audit_client.py:512-555 | a freshly minted receipt validates as a prior one |
| `AuditClient.PriorSurvives` | scripts/fleet_audit_client.py:512-555 | a valid stored receipt stays valid as a prefix of every later reachable ledger |
| `AuditClient.StepKeepsValid` | scripts/fleet_audit_client.py:855-967 | an append or a verify keeps the stored receipt valid, never lowers its record count, and a verify keeps it or covers the whole ledger |
| `AuditClient.HistoryKeepsValid` | scripts/fleet_audit_client.py:855-967 | the same over every interleaving of appends, crashes and verifications |
| `AuditClient.VerifySucceeds` | scripts/fleet_audit_client.py:855-967 | over a quiescent, well-named reachable store `verify` succeeds, whatever earlier receipt is kept |
| `Dispatch.SelectAttempt` | scripts/fleet_assured_runner.py:343-360 | the attempt loop terminates and returns the least attempt whose admission is not aborted |
| `Dispatch.AttemptIds` | scripts/fleet_assured_runner.py:343-360 | attempts known to be spent are that many distinct admissions, which bounds the loop |
| `Dispatch.SetPhaseKeepsSound` | scripts/fleet_mission_state.py:2909-3210 | every phase change the ledger allows keeps at most one authorized admission per action, and all else the invariant says |
| `Dispatch.NoRival` | scripts/fleet_mission_state.py:1936-1954 | while a process holds a committed admission under the current approval, no admission of its action has ever been authorized |
| `Dispatch.InvokeKeepsSound` | scripts/fleet_assured_runner.py:587-806 | the wrapper's rows concern its own run only, so every other process keeps what it has checked |
| `Dispatch.RenewKeepsSound` | scripts/fleet-approve.py:318-340 | a renewal, refused while an admission is active, keeps the invariant |
| `Dispatch.FinalizeKeepsSound` | scripts/fleet_assured_runner.py:517-551 | a finalization, only after dispatch, keeps the invariant |
| `Dispatch.NextKeepsSound` | scripts/fleet_assured_runner.py:587-806 | every step of every process and of the environment keeps the invariant |
| `Dispatch.ExecutionsStaySound` | scripts/fleet_assured_runner.py:587-806 | so does every interleaving |
| `Dispatch.OneLaunchIdentity` | scripts/fleet_assured_runner.py:432-806 | over every interleaving of processes, crashes, retries and renewals: at most one authorized admission per action, one run over all wrapper invocations, one after a lifecycle row exists only if an earlier wrapper of the run outlived its call, and completion names that run |
| `Dispatch.CompletionsStay` | scripts/fleet_assured_runner.py:270-319 | a recorded completion never changes |
| `Dispatch.EffectIsRecovered` | scripts/fleet_assured_runner.py:247-268 | a crash after the wrapper wrote its row is finished by one retry of the same request, without a second launch and under the same admission |
| `Dispatch.RelaunchIsKnown` | scripts/fleet_assured_runner.py:587-806 | while the wrapper of an authorized run is left behind without a row, a retry can launch the run again after the row |
| `Dispatch.RelaunchDecides` | scripts/fleet_assured_runner.py:587-806 | such a launch can come without any further wrapper being left behind exactly when one is left behind already |
| `Dispatch.RelaunchHappens` | scripts/fleet_assured_runner.py:587-806 | a killed call and its retry, from a fresh Mission, launch one run twice, the second time after its row |
| `Dispatch.StrandedStays` | scripts/fleet-approve.py:318-340 | a waiting admission whose approval is outrun, whose action is completed or whose request is no longer made stays as it is under every step but its withdrawal, which also blocks renewals |
| `Dispatch.StrandedForever` | scripts/fleet_mission_state.py:2025-2234 | under every script without its withdrawal it stays, the approval is not renewed, and its recipient gets no further admission, nor does a second writer |
| `Dispatch.RetryReleases` | scripts/fleet_assured_runner.py:432-462 | one retry of the same request under the same approval aborts it and changes nothing else |
| `Dispatch.ReleaseDecides` | scripts/fleet_assured_runner.py:321-462 | a waiting admission no process holds can be released without withdrawal exactly when its action is not completed, its approval is the Mission's and, for callers who repeat one request, the request is the reserved one |
| `Dispatch.UpToDateForever` | scripts/fleet-approve.py:318-340 | an admission under the current approval never outlives it while active |
| `Dispatch.ReservationDecides` | scripts/fleet_assured_runner.py:587-630 | a reservation can ever be outdated exactly when the approval its call read was not current when it was made; then a crash right after strands it |
| `Dispatch.StrandingHappens` | scripts/fleet_assured_runner.py:321-430 | a begin, a renewal, a reservation and a crash are enough |
| `Dispatch.AssuredRunner.ReserveEffect` | scripts/fleet_assured_runner.py:321-430 | attempt loop, replay of an equal request only, the busy recipient and writer guards and the reservation are one step of the state machine |
| `Dispatch.AssuredRunner.AbortPrelaunch` | scripts/fleet_assured_runner.py:432-462 | the abort reaches only reserved and committed admissions |
| `Dispatch.AssuredRunner.CommitEffect` | scripts/fleet_assured_runner.py:587-806 | commit, then on, to the abort, or out |
| `Dispatch.AssuredRunner.ReconcileRun` | scripts/fleet_assured_runner.py:247-268 | the lifecycle rows decide between start, relaunch and authorization |
| `Dispatch.AssuredRunner.AuthorizeLaunch` | scripts/fleet_assured_runner.py:587-806 | the durable authorization, or the abort |
| `Dispatch.AssuredRunner.InvokeWrapper` | scripts/fleet_assured_runner.py:587-806 | the invocation and what is believed of its report |
| `Dispatch.AssuredRunner.StartEffect` | scripts/fleet_assured_runner.py:480-515 | marking the admission started, if it is not |
| `Dispatch.AssuredRunner.RecordCompletion` | scripts/fleet_assured_runner.py:587-806 | recording the completion with the admission's run, once |
| `Dispatch.AssuredRunner.Proceed` | scripts/fleet_assured_runner.py:587-806 | from the held admission to the end, as an execution of the state machine |
| `Dispatch.AssuredRunner.GiveUp` | scripts/fleet_assured_runner.py:464-478 | the abort path, as an execution of the state machine |
| `Dispatch.AssuredRunner.Effect` | scripts/fleet_assured_runner.py:587-806 | authorize if need be, then launch |
| `Dispatch.AssuredRunner.LaunchEffect` | scripts/fleet_assured_runner.py:587-806 | the wrapper is the next effect after the durable authorization |
| `Dispatch.AssuredRunner.Finish` | scripts/fleet_assured_runner.py:480-585 | start and complete |
| `Dispatch.AssuredRunner.DispatchPromptLocked` | scripts/fleet_assured_runner.py:587-806 | the whole call is an execution of the state machine, beside any other processes; a returned run is the recorded one |
| `Admission.BuildAdmissions` | scripts/fleet_admission.py:178-266 | the two passes accept and yield what the specification does, sorted by admission id |
| `Admission.BatchOrderIsIrrelevant` | scripts/fleet_admission.py:178-266 | any permutation of a batch is accepted alike and yields the same admissions |
| `Admission.BatchDigestsAgree` | scripts/fleet_admission.py:269-276 | two batches have one digest exactly when they list the requests of each key in the same order |
| `Admission.BatchDigestIsOrderFree` | scripts/fleet_admission.py:269-276 | every ordering of a batch with distinct keys has the same digest |
| `Admission.DuplicateKeysSplitTheDigest` | scripts/fleet_admission.py:269-276 | two requests under one key have two digests in their two orders |
| `Admission.BuiltAdmissionsArePriced` | scripts/fleet_admission.py:178-266 | whatever the batch, a Lead costs nothing and a specialist's whole cost, one plus its budget, is charged to one of the two debits |
| `Admission.ReserveKeepsPool` | scripts/fleet_mission_state.py:2025-2234 | a reserved batch keeps credits conserved: specialists plus unspent budget equal the global debits, within the ceiling |
| `Admission.SpecialistsWithinCredits` | scripts/fleet_admission.py:279-363 | over every sequence of batches the specialists ever admitted are at most the sum of global debits |
| `StableSort.SortsAlike` | scripts/fleet_admission.py:269-276 | two lists sort to the same list exactly when they list each key's elements in the same order |
| `StableSort.PermutationsSortAlike` | scripts/fleet_admission.py:178-266 | a list with distinct keys sorts alike in every order |
| `ArchiveTree.TreeHashFromTar` | scripts/fleet_archive_tree.py:84-171 | accepts exactly the acceptable archives, and then returns the recursive Git hash of the represented tree |
| `ArchiveTree.AddAncestors` | scripts/fleet_archive_tree.py:91-140 | after a member exactly its proper ancestors are added, rows already collected kept |
| `ArchiveTree.CollectMember` | scripts/fleet_archive_tree.py:91-140 | one member is taken exactly when it stands for a leaf or a directory marker, and the table then describes one member more |
| `ArchiveTree.CollectMembers` | scripts/fleet_archive_tree.py:91-140 | the first pass succeeds exactly on distinct, individually acceptable members, and tabulates them |
| `ArchiveTree.EncodeRows` | scripts/fleet_archive_tree.py:141-171 | a directory's names encode exactly when all have byte forms and none repeats |
| `ArchiveTree.AddSubtrees` | scripts/fleet_archive_tree.py:141-171 | a directory's rows are its leaves and its child directories with their tree hashes |
| `ArchiveTree.SubtreeRows` | scripts/fleet_archive_tree.py:141-171 | one row per child directory, with a hash that is already there |
| `ArchiveTree.Deepest` | scripts/fleet_archive_tree.py:141-171 | the deepest remaining directory, so that no child is hashed after its parent |
| `ArchiveTree.HashDirectory` | scripts/fleet_archive_tree.py:141-171 | given its children's hashes, a directory hashes exactly when it is well formed, to the recursive hash |
| `ArchiveTree.HashAll` | scripts/fleet_archive_tree.py:141-171 | the depth-ordered loop reaches the root with the recursive hash, and never lacks a child's |
| `ArchiveTree.AcceptedRepresentsTree` | scripts/fleet_archive_tree.py:84-171 | an accepted archive represents a tree |
| `ArchiveTree.RepresentedTreeIsUnique` | scripts/fleet_archive_tree.py:84-171 | and only one |
| `ArchiveTree.HashOfRepresentedTree` | scripts/fleet_archive_tree.py:84-171 | so the returned hash is that of any tree the archive represents |
| `ArchiveTree.NothingBelowLeaf` | scripts/fleet_archive_tree.py:91-171 | in an accepted archive no leaf's path is a proper prefix of a member's |
| `ArchiveTree.OrderIsIrrelevant` | scripts/fleet_archive_tree.py:84-171 | permuting the members changes neither acceptance nor hash |
| `ArchiveTree.SortKeepsDistinct` | scripts/fleet_archive_tree.py:141-171 | sorting entries with distinct Git keys gives a strictly ordered list |
| `ArchiveTree.ListingIsUnique` | scripts/fleet_archive_tree.py:141-171 | a set of entries has one listing in Git order |
| `ArchiveTree.SortedListing` | scripts/fleet_archive_tree.py:141-171 | sorting distinctly named entries gives that listing, though keys append a slash to directories |
| `ArchiveTree.KeyDeterminesName` | scripts/fleet_archive_tree.py:141-171 | the sort key of a slash-free name determines it |
| `Responses.Events` | scripts/fleet_codex_responses.py:122-222 | the one-pass validator accepts exactly the well-formed streams, a definition by prefixes that knows no accumulators |
| `Responses.TakeText` | scripts/fleet_codex_responses.py:122-222 | the text accumulator after one event is what the stream so far says |
| `Responses.TakeArguments` | scripts/fleet_codex_responses.py:122-222 | the same for call arguments |
| `Responses.TakeItem` | scripts/fleet_codex_responses.py:122-222 | the same for announced and finished items, their ids and call ids |
| `Responses.PartsMatch` | scripts/fleet_codex_responses.py:122-222 | a finished message agrees with what was streamed exactly when every part does |
| `Responses.StreamedTextIsFinal` | scripts/fleet_codex_responses.py:122-222 | in an accepted stream the finished text of a part is its opening followed by all its deltas |
| `Responses.StreamedArgumentsAreFinal` | scripts/fleet_codex_responses.py:122-222 | the same for call arguments |
| `Responses.DeltasMakeTheFinalText` | scripts/fleet_codex_responses.py:122-222 | for a part whose first event is a delta, the finished text is the concatenation of its deltas |
| `Responses.DeltasMakeTheFinalArguments` | scripts/fleet_codex_responses.py:122-222 | the same for call arguments |
| `Responses.OutputIsSound` | scripts/fleet_codex_responses.py:122-222 | the terminal output is the finished items in order, not empty, with unique ids and call ids, every call naming a declared tool |
| `Responses.AnnouncedItemIsFinished` | scripts/fleet_codex_responses.py:122-222 | an announced item is finished later under the same identity |
| `Responses.ToolDeclarations` | scripts/fleet_codex_responses.py:29-48 | accepts exactly the tool lists without a repeated key and tabulates them |
| `Responses.Declare` | scripts/fleet_codex_responses.py:29-48 | one tool or namespace more |
| `Responses.AddTool` | scripts/fleet_codex_responses.py:29-48 | one declaration is added exactly when it is sound beside the earlier ones |
| `Responses.AddNamespace` | scripts/fleet_codex_responses.py:29-48 | a namespace's members are added exactly when all are sound |
| `EventStream.ReadStream` | scripts/fleet_chatgpt_provider.py:153-189 | the reading loop terminates and equals the parser the theorems are about |
| `EventStream.ReadLine` | scripts/fleet_chatgpt_provider.py:153-189 | one line: bounds and secret, blank lines, comments, fields |
| `EventStream.DeliverEvent` | scripts/fleet_chatgpt_provider.py:153-189 | decoding a gathered event, and closing the stream on completion |
| `EventStream.FrameReadsBack` | scripts/fleet_codex_responses.py:225-226 | one printed event within the bounds is gathered back as exactly its name and data |
| `EventStream.PrintedEventDelivers` | scripts/fleet_chatgpt_provider.py:153-189 | delivering it adds the event, or closes an accepted stream with its canonical bytes |
| `EventStream.RoundTrip` | scripts/fleet_codex_responses.py:225-226 | for every accepted stream within the line, size and secret bounds, reading its print, whatever follows, gives its canonical bytes and token count |
| `EventStream.DeliveredIsAccepted` | scripts/fleet_chatgpt_provider.py:153-189 | whatever bytes arrive, a delivered bundle decodes to an accepted stream, is free of the secret and within bounds |
| `Archive.ArchiveBuilder.AddBytes` | scripts/fleet_archive.py:468-522 | the builder's fields after an addition are those of the step function, which fails exactly when the method does |
| `Archive.VerifyEntries` | scripts/fleet_archive.py:1031-1066 | the entry loop accepts exactly the indexes with distinct, correctly hashed entries, and returns the physical set and the non-audit entries |
| `Archive.AdditionsStayConsistent` | scripts/fleet_archive.py:468-522 | any accepted sequence of additions under one policy keeps distinct paths and entries that match the stored files |
| `Archive.RootIgnoresIndexOrder` | scripts/fleet_archive.py:876-927 | the content root is the same from sorted and unsorted entries |
| `Archive.CreatedArchiveVerifies` | scripts/fleet_archive.py:855-1138 | an archive that leaves the two reserved names alone passes the size, physical-set, hash, omission and root checks exactly when standard items lie outside `audit/`, audit items inside, and index and receipt fit the limits |
| `Archive.CollectedArchiveVerifies` | scripts/fleet_archive.py:834-927 | for what the collectors pass, under every content policy, exactly when index and receipt fit |
| `Archive.FullArchiveIsRefused` | scripts/fleet_archive.py:241-277 | sixteen files of the largest size are archived and the archive is refused |

## Left out

- Real file systems: descriptor pinning, `flock`, `fsync`, path races and aliasing. A durable step is one atomic change of the modelled store, and one ledger line is appended atomically.
- Directory trees below a clone are values handed through the removal, not heap objects, so aliasing inside one tree is not modelled.
- `Handoff.CrashesConverge`: supposes the clock is not behind the ledger head in any attempt, because without that the receipt does not validate (`Handoff.ClockBehindHeadIsNotNoticed`).
- `Handoff.RenewalsKeepMission`: the later events are approval renewals; of the other Mission transitions only that they advance the state somehow is modelled.
- The handoff's read-only preflight probe and its hold command are not modelled.
- `CloneGuard.RetireAdvances`: clones have pairwise distinct names, as the controller derives them, and nothing else changes the worktrees meanwhile.
- The cleanup driver's gate on a terminal assurance, its lookup of the recorded snapshot identities and its check of the worktrees root: a clone's recorded device and inode are part of its binding here.
- Clone creation intents, publication intents and the boot lock of the clone guard; they follow the same intent pattern without a removal.
- `Assurance.VerifiedIsEarned`: speaks of digests; with a hash that is not injective another payload with the same digest could be meant. Gathering the context and cloning the snapshot at the start are one answer, accepted or not.
- Prompt rendering, evidence lookup in the worktree and the text of findings are functions of the environment.
- `AuditLedger.CrashedAppendConverges`: one run per store and an explicit event id, and retries of one unchanged request; `AuditLedger.PendingDecides` says what other retries do. A partially written file is not modelled.
- The audit ledger without a receipt root, the audit service, its socket, peer credentials and hooks.
- SHA-256, HMAC, Ed25519, Object Lock requests, DNS and TLS are abstract functions or answers.
- `Dispatch.OneLaunchIdentity`: what a wrapper itself does with a run that has a row is not modelled; it writes its row within the call, at some later time, both, or never.
- `Dispatch.SetPhaseKeepsSound`: of the Mission ledger the phase order, the approval, renewal, recipient and writer guards and the binding of a replayed request are modelled; whether a reservation is otherwise accepted (deadline, decisions, credits), and which started Lead it finds, are free answers.
- Wait, publish, phase and synthesis loops of the assured runner, and its second workflow.
- `Admission.SpecialistsWithinCredits`: that children never debit more than their parent's budget is the ledger's acceptance rule, modelled as such.
- Tar decoding and the structural check of empty archives; object formats are distinguished only by the abstract hash.
- `request_tools`, the provider's worker and the HTTP side of the response bridge; JSON null is treated as an absent field.
- `EventStream.RoundTrip`: the line, size and secret bounds are the reader's own; a stream outside them is refused.
- `Archive.CreatedArchiveVerifies`: leaves out directories colliding with files, and the checks on archived Git, Mission and audit receipts; a redaction placeholder, which holds one path and one digest, is taken to be smaller than the per-file limit. Approvals and acceptance are not modelled.
- Risk, budget, artifact, decision, compiled-workflow and certification modules: mostly checks of one record's form.
