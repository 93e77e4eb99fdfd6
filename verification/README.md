# Verification of the release kit's process and Store protocols

A Dafny model of the parts of this repository in which a wrong step is expensive: the chain of
processes that runs an owned command, the reconciler that prepares an Apple production release and
the guard that allows each resource one POST, the capture that authorises an upload, and the Play
track edit with its journal. `dafny verify dfyconfig.toml` checks the whole project.

## What is modelled

**The owned-command chain** (`src/mobile_release/_command_process.py`). Four processes O, C, A and W
hand one frozen command along private FIFO pipes.

- `Manifests`, `Records`, `Decoders`, `Chunker`: the 154-byte manifest, the length-prefixed record of
  a command, its cut into 64 KiB chunks, and the resumable decoder. SHA-256 is a function parameter
  about which only the type is known. `Drive` is the meaning of a whole stream; the class
  `NativeRecordDecoder` feeds it piece by piece.
- `FenceTraces`, `FenceSchedules`, `FenceWriters`: the fence observation of a 69-byte head and an operand, the
  decoder that admits one event at a time, the thirteen-step schedule stated without that decoder, and the writer
  whose every effect may fail.
- `Wires`, `Pipes`, `WireEnds`, `Transports`: framing with a ledger, one-shot routes, partial writes
  and reads, and one sender, pipe and reader under every interleaving.
- `Chains` and the `Chain...` modules: the four roles as state machines over six links. One action is
  one step of one role or of the operating system; a failure, a lost peer or a deadline may strike at
  any step, and a disabled action does nothing, so a list of actions is an interleaving. `ChainResults` holds what
  every run guarantees, `ChainWitnesses` (over `ChainPaths` and `ChainLegs`) that every frozen command can finish.

**Apple production** (`fastlane/apple_production.rb`, `fastlane/apple_create_retry.rb`).

- `CreateGuards`, `CreateDispatches`: the inventory worklist and the guard that consumes creates.
- `Screenshots`, `Productions`: one screenshot set, `classify` and `progress!` over a whole readback.
- `ProductionGoals`, `ProductionRuns`, `ProductionLoops`: goals that accepted readbacks never reopen,
  the measure they give, and the reconciler's own loops, with the Store as an adversary that answers
  every readback.
- `ProductionPlans`, `ProductionInventories`: which resources are missing, and the list of creates built from
  them stage by stage.
- `ProductionGuards`, `ProductionExecs`: the armed execution, and why the guard never denies a create the
  reconciler later chooses.

**The upload capture** (`fastlane/native_upload_process.rb`, `fastlane/native_upload_validation.rb`).
`Uploads` and the `Upload...` modules hold O, C, K and V with four framed links; `UploadResults` and
`UploadOrders` hold the theorems, and `UploadRuns` a run that ends in an authorised upload.

**Custody** (`src/mobile_release/_native_process.py`, `fastlane/native_process_spawn.rb`).
`Descriptors` and `Children` put the lease and the child of one process into a world where other code
opens, closes, spawns and reaps, and where the system reuses every number as soon as it is free.

**Play** (`fastlane/play_store.rb`). `PlayTracks` is the canonical form of a track, `PlayGuards` the
checks around one edit, `Journals` the bounded journal.

Roles of the two process protocols are records stepped by functions, because the theorems quantify
over interleavings. Objects used from one thread at a time are classes whose methods are proved
against those functions.

## Findings

- The custodian of a journalled command that fails before its fence writer exists sends a final frame
  without the fence field, and O refuses exactly those frames (`_command_process.py:2950-2992` against
  `3142-3169`); see `FinalFramesPass` and `AnEarlyFailureIsRefused`.
- C's FINAL frame with an unresolved validator is refused by O exactly when O never began to write RUN
  (`native_upload_process.rb:1964-2042` against `native_upload_validation.rb:861-863`); the frame is a
  failed one in any case. See `HonestFinalsPass`, and `AnUngrantedFinalIsRefused` for a run that reaches it.
- `_Wire.flush` after a write that failed with n bytes gone keeps the stream what was queued exactly when
  the bytes it repeats are the ones due n bytes later, and a MANIFEST or DATA frame refused after
  `_shape` leaves a ledger that no longer tells what was queued (`_command_process.py:1407-1483`).
  `InvExactly` gives the exact condition for every step, `FlushAfterFailure` that of the flush;
  `FlushAfterFailureRepeats` and `LateManifestMisleads` are the failing inputs. Callers never flush after a
  failure, never queue a late manifest and give routes to grants alone, which `HabitsAreCareful` shows to be enough.
- A replacement permitted for another identity than the resolved one lets an identity change twice
  (`apple_create_retry.rb:126-135`); the reconciler always passes the resolved one.

## Model

| member | source | states |
|---|---|---|
| Manifests.DecodeEncode | src/mobile_release/_command_process.py:112-142 | decoding the encoding of a valid manifest returns that manifest |
| Manifests.EncodeDecode | src/mobile_release/_command_process.py:112-142 | every content that decodes is the encoding of what it decodes to, so the codec is a bijection on valid manifests |
| Records.RecordLength | src/mobile_release/_command_process.py:154-171 | the printed record has exactly the size computed up front from counts and payload sums |
| Records.FreezeRefusal | src/mobile_release/_command_process.py:188-248 | for an admissible command, freezing succeeds if and only if six limits hold; every other clause of the manifest check is then already met |
| Chunker.Chunks | src/mobile_release/_command_process.py:173-185 | the one-buffer loop emits exactly the 64 KiB cut of the flattened pieces, whatever the pieces are |
| Chunker.CutSizes | src/mobile_release/_command_process.py:1419-1430 | each chunk has the one size the wire demands after the chunks before it |
| Chunker.RecordChunks | src/mobile_release/_command_process.py:173-185 | the chunks sent for a command join to its record, each nonempty and of the demanded size |
| Decoders.DriveAppend | src/mobile_release/_command_process.py:307-333 | stopping after one piece and resuming with the next equals reading both at once |
| Decoders.AnySplitDecodes | src/mobile_release/_command_process.py:307-340 | every split of a frozen record into nonempty pieces of at most 64 KiB ends complete with exactly the frozen command |
| Decoders.OnlyTheRecordCompletes | src/mobile_release/_command_process.py:307-340 | a stream that completes is byte for byte the record of the command it decoded to, and that command is frozen under the manifest |
| Decoders.FieldsForceLength | src/mobile_release/_command_process.py:267-305 | the field checks alone force the stream's length to 32+8n+14m+8d plus the four payload sums |
| Decoders.RecordsAreUnambiguous | src/mobile_release/_command_process.py:154-171 | two frozen commands with one manifest and one record are the same command |
| Decoders.NativeRecordDecoder.constructor | src/mobile_release/_command_process.py:251-265 | a new decoder is live, has read nothing and expects the first field |
| Decoders.NativeRecordDecoder.Feed | src/mobile_release/_command_process.py:307-333 | the buffered in-place loop ends in the state of the whole-stream meaning, and terminates on zero-length fields |
| Decoders.NativeRecordDecoder.Finish | src/mobile_release/_command_process.py:335-340 | finishing is accepted only when the record is complete with nothing left over; otherwise the decoder is poisoned |
| FenceTraces.EncodeDecode | src/mobile_release/_command_process.py:385-431 | whatever decodes as an observation is encodable and re-encodes to the content received |
| FenceTraces.DecodeEncode | src/mobile_release/_command_process.py:385-431 | every encodable observation decodes to itself |
| FenceTraces.FenceObservationDecoder.constructor | src/mobile_release/_command_process.py:442-451 | a new decoder has accepted nothing and is not poisoned |
| FenceTraces.FenceObservationDecoder.Accept | src/mobile_release/_command_process.py:453-506 | an event is accepted exactly when the stream extended by it is accepted; any refusal poisons the decoder for good |
| FenceSchedules.AcceptsExactlyTheSchedule | src/mobile_release/_command_process.py:453-506 | the decoder accepts a stream if and only if it is a prefix of the thirteen-step schedule, cut at most by one failed AFTER event, with constant identity and monotone facts |
| FenceSchedules.CompletionIsTotal | src/mobile_release/_command_process.py:453-506 | a stream completes exactly when all thirteen events succeeded, and then every byte is written, both syncs are done and one identity runs through |
| FenceSchedules.FactsGrow | src/mobile_release/_command_process.py:453-506 | written bytes and sync facts never go back along an accepted stream |
| FenceWriters.LawfulPrefix | src/mobile_release/_command_process.py:453-506 | every prefix of an accepted stream is accepted |
| FenceWriters.FenceWriter.constructor | src/mobile_release/_command_process.py:2001-2023 | a new writer has written, reported and attempted nothing |
| FenceWriters.FenceWriter.Checkpoint | src/mobile_release/_command_process.py:1953-1998 | a checkpoint adds at most the one next event, a lost observer stays lost, and only a passed deadline makes it fail |
| FenceWriters.FenceWriter.Perform | src/mobile_release/_command_process.py:2116-2130 | one operation announces, acts and reports; its failure leaves a stream cut by one failed event |
| FenceWriters.FenceWriter.Publish | src/mobile_release/_command_process.py:2132-2205 | whatever effect fails, the events emitted are accepted by the decoder; it succeeds exactly when nothing failed, and then everything is written, both syncs are done and, if observed, the whole schedule is out |
| Wires.HeaderSize | src/mobile_release/_command_process.py:1435-1450 | the announced size of a queued frame is the size of its body |
| WireEnds.Wire.constructor | src/mobile_release/_command_process.py:1384-1405 | a new wire has blank ledgers, nothing pending and an open writer |
| WireEnds.Wire.ShapeOutgoing | src/mobile_release/_command_process.py:1407-1433 | a frame is refused, or counted in the outgoing ledger, exactly as the shape rules say |
| WireEnds.Wire.Queue | src/mobile_release/_command_process.py:1435-1450 | queueing changes the sending half as specified and leaves the receiving half alone |
| WireEnds.Wire.Flush | src/mobile_release/_command_process.py:1452-1483 | one flush moves exactly the answered number of bytes, and nothing once the route is retired |
| WireEnds.Wire.Read | src/mobile_release/_command_process.py:1485-1532 | one read call takes at most two arrivals and yields at most one frame |
| WireEnds.Wire.CloseWriter | src/mobile_release/_command_process.py:1553-1559 | closing drops the pending frame and closes only the sending half |
| WireEnds.PositiveSize | src/mobile_release/_command_process.py:1407-1433 | no admitted header announces an empty body or one over 64 KiB |
| Pipes.ReadsAPrefix | src/mobile_release/_command_process.py:1384-1559 | under every interleaving of partial writes, failed writes and reads whose steps are careful, the frames read are a prefix of the frames queued, and an honest stream poisons its reader only by ending inside a frame the writer abandoned |
| Pipes.DrainedIsComplete | src/mobile_release/_command_process.py:1452-1532 | when a healthy writer is idle and the pipe is drained, every queued frame has been read |
| Pipes.LedgerTells | src/mobile_release/_command_process.py:1407-1433 | the ledger always equals the manifest seen and the payload bytes passed |
| Pipes.NoScalarInsideRecord | src/mobile_release/_command_process.py:1407-1433 | after the manifest a frame is DATA exactly while the record is unfinished, of the one size due |
| Pipes.RetiredIsSilent | src/mobile_release/_command_process.py:1012-1029 | a retired route contributes no further byte, whatever is called afterwards |
| Pipes.AbandonedIsLast | src/mobile_release/_command_process.py:1452-1483 | after a close, or a failed write that is not flushed again, nothing more is written, whatever else is called |
| Pipes.PartialIsLast | src/mobile_release/_command_process.py:1452-1483 | a stream that is not whole frames with nothing pending never grows again |
| Pipes.InvExactly | src/mobile_release/_command_process.py:1435-1483 | a step keeps stream and ledger true of what was queued if and only if a flush resumes with the bytes due and no MANIFEST or DATA frame is refused after the ledger moved |
| Pipes.HabitsAreCareful | src/mobile_release/_command_process.py:1565-1578 | unrouted MANIFEST and DATA within the scalar budget and no flush after a failure are careful steps |
| Pipes.PushExactly | src/mobile_release/_command_process.py:1452-1483 | a flush keeps the bytes written a prefix of the stream queued exactly when it resumes where the pipe stands |
| Pipes.RefusalMisleads | src/mobile_release/_command_process.py:1435-1450 | a MANIFEST or DATA frame refused after the shape check leaves a ledger that differs from that of the frames queued |
| Pipes.FlushAfterFailure | src/mobile_release/_command_process.py:1452-1483 | after a write that broke off with n bytes gone, flushing k bytes keeps the prefix if and only if those k bytes equal the k bytes n further on; n = 0 is harmless |
| Pipes.FlushAfterFailureRepeats | src/mobile_release/_command_process.py:1452-1483 | repeating the first byte of any frame leaves the queued stream |
| Pipes.LateManifestMisleads | src/mobile_release/_command_process.py:1407-1450 | a manifest refused as one scalar too many still opens the record, and the next DATA frame poisons the reader |
| Transports.ChunksPass | src/mobile_release/_command_process.py:1407-1433 | after any lawful beginning the manifest and any first chunks of its record's 64 KiB cut are lawful, and the ledger counts exactly their bytes |
| Transports.RecordPasses | src/mobile_release/_command_process.py:1407-1433 | after any lawful beginning the manifest and the 64 KiB chunks of its frozen record are admitted one by one, and then the record is complete |
| Transports.OnlyTheCutPasses | src/mobile_release/_command_process.py:1407-1433 | no other cut is admitted: lawful DATA frames that carry a beginning of a record of the announced size are its first chunks |
| Transports.RecordCrosses | src/mobile_release/_command_process.py:2308-2340 | if only chunks of the frozen record are queued, then once as many DATA frames arrived they decode to exactly the frozen command |
| ChainResults.ExecutionIsAuthorised | src/mobile_release/_command_process.py:2308-2374 | a worker in its exec loop holds exactly O's frozen command, and O had consumed its permit, granted the create, received READY and granted the execution |
| ChainResults.GrantsAreOrdered | src/mobile_release/_command_process.py:3241-3299 | no worker exists before the create permit is consumed; READY means the whole command was decoded; the second grant needs READY |
| ChainResults.FinalityMeansSettled | src/mobile_release/_command_process.py:3350-3365 | O's finality implies that C, A and W were each reaped by the wait of their own parent, which holds that receipt (never by the adoption of an orphan), the group is empty and was seen absent, the outputs ended, and O's report about W is W's own receipt |
| ChainResults.FinalityIsOver | src/mobile_release/_command_process.py:3350-3365 | finality implies the part of the state that nothing can undo |
| ChainResults.SilenceAfterFinality | src/mobile_release/_command_process.py:3310-3365 | after finality no step adds a byte to a link towards a child, and no process of the chain lives again |
| ChainResults.FinalityIsForever | src/mobile_release/_command_process.py:3310-3365 | from any run that ends in finality, every continuation adds nothing to a link towards a child and revives no process |
| ChainResults.NoSignalAfterWait | src/mobile_release/_command_process.py:1733-1770 | once C has begun to wait for A, neither group probe nor signal nor direct kill is possible |
| ChainResults.AbsenceIsOlder | src/mobile_release/_command_process.py:2858-2926 | whether the group was seen absent is settled before the first wait for A |
| ChainResults.FinalFramesPass | src/mobile_release/_command_process.py:2950-2992 | of the final frames an honest C can send, O's cross-checks refuse exactly those of a journalled command without the fence field; every producer frame passes, and a true result forces the execution, a receipt and a finished fence |
| ChainResults.AnEarlyFailureIsRefused | src/mobile_release/_command_process.py:3142-3169 | the refused family is reachable: C fails before its writer exists |
| ChainWitnesses.EveryCommandCanFinish | src/mobile_release/_command_process.py:3241-3365 | finality is reachable for every frozen command of any size, journalled or not: a run of honest steps in which the worker reads exactly its record, executes it and is reaped, and O accepts a successful final frame |
| CreateGuards.BuildInventory | fastlane/apple_create_retry.rb:67-90 | the worklist accepts exactly the node lists of at most 2000 distinct keys that have a topological order |
| CreateGuards.RankedIsOrderable | fastlane/apple_create_retry.rb:67-90 | distinct keys with closed, rank-decreasing dependencies always have a topological order |
| CreateDispatches.DispatchedOnce | fastlane/apple_create_retry.rb:117-170 | over any sequence of guard calls no logical key is dispatched twice, replacements included |
| CreateDispatches.IdentityChangesOnce | fastlane/apple_create_retry.rb:117-170 | if replacements name the resolved identity, each identity changes at most once, from that one to a single successor |
| CreateDispatches.GuardedRun | fastlane/apple_create_retry.rb:92-170 | both results for a fresh guard, with the identity history of each key spelled out |
| CreateDispatches.UnfaithfulPermitChangesTwice | fastlane/apple_create_retry.rb:126-135 | naming another identity in a replacement lets an identity change twice |
| CreateDispatches.AppleCreateRetry.constructor | fastlane/apple_create_retry.rb:18-29 | a new guard is unarmed and has granted nothing |
| CreateDispatches.AppleCreateRetry.Arm | fastlane/apple_create_retry.rb:92-109 | the inventory is bound before the confirmation is looked at, so a refused arming cannot be repeated |
| CreateDispatches.AppleCreateRetry.Resolve | fastlane/apple_create_retry.rb:117-124 | resolving binds one identity per key and refuses a second one |
| CreateDispatches.AppleCreateRetry.ResolveAutomatic | fastlane/apple_create_retry.rb:158-164 | the automatic app info is bound once |
| CreateDispatches.AppleCreateRetry.PermitReplacement | fastlane/apple_create_retry.rb:126-135 | a replacement is admitted once per screenshot key that was not dispatched |
| CreateDispatches.AppleCreateRetry.Consume | fastlane/apple_create_retry.rb:137-156 | a granted POST is recorded as used before it can be sent; denial changes nothing |
| CreateDispatches.AppleCreateRetry.Observe | fastlane/apple_create_retry.rb:166-170 | an observed identity resolves its key and completes a used one |
| Screenshots.AcceptedShape | fastlane/apple_production.rb:399-461 | an accepted set is the kept list intact, then an in-order prefix of the additions, at most ten in all; final means all additions are there and complete |
| Screenshots.EveryTargetIsShown | fastlane/apple_production.rb:399-461 | a target is an addition exactly when no kept screenshot shows it |
| Screenshots.CapIsSettledEarly | fastlane/apple_production.rb:355-461 | the check made before the version exists settles the ten-image cap for an empty as well as a cloned version |
| ProductionGoals.GoalsStayClosed | fastlane/apple_production.rb:591-648 | while nothing is being removed, an accepted readback reopens no goal |
| ProductionGoals.OpenGoalsShrink | fastlane/apple_production.rb:502-648 | the open goals of two successive accepted readbacks shrink |
| ProductionRuns.NameIsAbsent | fastlane/apple_production.rb:399-461 | the name of an addition without a reservation is shown nowhere in its set, so a poll by name cannot succeed early |
| ProductionRuns.CommitClosed | fastlane/apple_production.rb:897-919 | a committed reservation keeps identity and place, so its completed poll closes its goal |
| ProductionRuns.RoundDrops | fastlane/apple_production.rb:780-805 | unused replacements first, open goals second: the measure never grows in a round and drops with every completed mutation |
| ProductionRuns.DispatchesAreBounded | fastlane/apple_production.rb:989-1052 | whatever the Store answers, completed mutations are bounded by the first accepted readback, hence by the snapshot |
| ProductionLoops.AppleProduction.constructor | fastlane/apple_production.rb:56-64 | nothing read, written, replaced or being removed yet |
| ProductionLoops.AppleProduction.ValidatedRead | fastlane/apple_production.rb:650-662 | only a readback that classifies and progresses becomes the previous one |
| ProductionLoops.AppleProduction.Act | fastlane/apple_production.rb:780-805 | an action is dispatched exactly when a fresh readback is accepted and equals the one it was chosen from; it ends only when seen completed, and then the measure paid for the dispatch |
| ProductionLoops.AppleProduction.Execute | fastlane/apple_production.rb:989-1052 | the loop dispatches at most the weight of its first readback, plus one mutation never seen completed |
| ProductionInventories.ListIsInventory | fastlane/apple_production.rb:677-735 | the list built stage by stage holds exactly the missing resources with the parents and dependencies they need, and no key twice |
| ProductionInventories.InventoryIsOrderable | fastlane/apple_production.rb:677-735 | that list always has distinct keys, a closed and acyclic dependency relation, and a topological order |
| ProductionInventories.ListBound | fastlane/apple_production.rb:677-735 | the ten-image cap bounds the list by the number of locales and places |
| ProductionInventories.EveryTargetIsEnumerable | fastlane/apple_production.rb:677-735 | every target has an order of its locales and places that lists each once, so the theorems about the list hold for all targets |
| ProductionGuards.ChosenIsCreatable | fastlane/apple_production.rb:921-987 | whatever create the reconciler chooses is missing in that readback and its prerequisites are present |
| ProductionGuards.CompletedIsShown | fastlane/apple_production.rb:780-987 | once the poll of a create is satisfied, the resource it created is shown with an identity, private details included |
| ProductionGuards.RemovedIsLast | fastlane/apple_production.rb:849-895 | a removed reservation is the last of its set in every accepted pair of readbacks |
| ProductionGuards.RemovalPersists | fastlane/apple_production.rb:591-648 | everything before the removed reservation keeps place and identity, and additions only shrink |
| ProductionExecs.IdentityPersists | fastlane/apple_production.rb:591-648 | an accepted readback keeps the identity of everything that is not being removed |
| ProductionExecs.MissingShrinks | fastlane/apple_production.rb:677-735 | what is missing in a later accepted readback was missing before, except what is being replaced |
| ProductionExecs.ChosenIsGranted | fastlane/apple_production.rb:737-776 | while nothing is being removed every creatable resource, other than one whose create is still being polled for, is one the guard grants |
| ProductionExecs.AbandonKeeps | fastlane/apple_production.rb:780-805 | a replacement given up because the fresh readback differs leaves the execution as sound as before it |
| ProductionExecs.ArmingSucceeds | fastlane/apple_production.rb:1021-1022 | the list of an accepted start is armed unless it is too long, misfits the target or lacks the operator's confirmation, and then the execution may begin |
| ProductionExecs.DeletedIsRemoved | fastlane/apple_production.rb:849-895 | once the poll of a deletion is satisfied, the replacement it began may end, because the removed identity is no longer shown for its key |
| ProductionExecs.NeverDenied | fastlane/apple_production.rb:737-987 | after arming, in every interleaving of accepted readbacks, creates, lost responses, finished and abandoned replacements, each chosen create is granted |
| ProductionExecs.AFirstReleaseRuns | fastlane/apple_production.rb:989-1052 | such executions exist: a first release with a locale and a screenshot is accepted, armed, and its first create chosen and granted |
| UploadResults.UploadIsEarned | fastlane/native_upload_validation.rb:1004-1009 | an upload is authorised only if V ran O's own configuration after RUN, V, K and C were each reaped by their parent with exit 0, the group was seen absent and is empty, COMMIT followed STATUS, both output ends and the stdin close, and all numbers in FINAL are the real ones |
| UploadRuns.AnUploadIsAuthorised | fastlane/native_upload_validation.rb:1004-1009 | authorisation is reachable: with any four distinct process numbers a run of O, C, K and V ends in an authorised upload |
| UploadResults.CleanupIsReal | fastlane/native_upload_validation.rb:205-211 | confirmed cleanup, whatever the outcome, means that no process of the capture is left and every record is true |
| UploadResults.GrantsComeFirst | fastlane/native_upload_validation.rb:655-672 | no keeper before ADMIT, no validator before RUN, and COMMIT is never begun before the validator was reaped with exit 0 and O saw it all |
| UploadResults.FinalFramesAreGood | fastlane/native_upload_process.rb:1964-2042 | every FINAL frame C can build, normal or cut off, meets the encoder's and decoder's demands |
| UploadOrders.HonestFinalsPass | fastlane/native_upload_validation.rb:847-901 | of an honest C's FINAL frames on a trusted stream, O refuses exactly those with an unresolved validator while RUN was never begun; every confirmed one passes |
| UploadOrders.AnUngrantedFinalIsRefused | fastlane/native_upload_validation.rb:847-901 | the refused family is reachable on a trusted stream: C is cut off while it creates K, before RUN was asked for |
| Descriptors.FdLease.constructor | src/mobile_release/_native_process.py:850-862 | a new lease owns no number |
| Descriptors.FdLease.Published | src/mobile_release/_native_process.py:904-914 | a number is published at most once |
| Descriptors.FdLease.BorrowFor | src/mobile_release/_native_process.py:948-956 | only an open, validated lease lends its number |
| Descriptors.FdLease.ReleaseFor | src/mobile_release/_native_process.py:958-960 | a release removes that borrower only |
| Descriptors.FdLease.Close | src/mobile_release/_native_process.py:962-979 | the number leaves the lease before the one close call; an unconfirmed close stays unknown and is never repeated |
| Descriptors.EveryCloseIsOwn | fastlane/native_process_spawn.rb:441-470 | whatever other code opens and closes, every close call hits the entry its own lease obtained, with no borrower, and no lease makes two |
| Descriptors.BorrowedIsLive | fastlane/native_process_spawn.rb:528-547 | a borrowed number denotes the lease's own entry, which cannot be closed meanwhile, and belongs to no other lease |
| Descriptors.ClosedIsGone | src/mobile_release/_native_process.py:962-979 | a lease that says closed has left no entry open |
| Descriptors.RetryWouldHitOthers | src/mobile_release/_native_process.py:962-979 | after an unconfirmed close the number may already belong to other code |
| Children.Child.constructor | src/mobile_release/_native_process.py:982-993 | a new child has no number, waiter or receipt |
| Children.Child.Published | src/mobile_release/_native_process.py:1284-1330 | publication makes the child owned under its number |
| Children.Child.RetireNumeric | src/mobile_release/_native_process.py:1014-1015 | retiring the number changes nothing else |
| Children.Child.PollWait | src/mobile_release/_native_process.py:1017-1068 | the number is retired before the call; only a genuine idle return allows another wait, by the same thread; only a genuine status becomes a receipt |
| Children.CallsHitTheOriginal | src/mobile_release/_command_process.py:1733-1770 | with numbers reused freely, every signal, probe and wait reaches the original child |
| Children.WaitsAreFinal | fastlane/native_process_spawn.rb:1231-1264 | after the first wait no signal; one waiting thread; after the reaping wait no wait at all |
| Children.ReceiptsAreGenuine | src/mobile_release/_native_process.py:1017-1068 | a receipt is the status the kernel handed over for that child |
| Children.SignalRouteIsPinned | fastlane/native_upload_process.rb:982-1016 | while a group request is possible its number still denotes the original child, and no wait was ever made |
| PlayTracks.SortForgetsOrder | fastlane/play_store.rb:382-398 | canonical sorting identifies exactly the reorderings of a list |
| PlayTracks.NormalFormForgetsOrder | fastlane/play_store.rb:400-444 | reordering codes, notes, countries or keys, or spelling unset fields differently, does not change a release's normal form |
| PlayTracks.StatesAgree | fastlane/play_store.rb:382-398 | two readings of a track are equal exactly when they hold the same normalized releases with multiplicity |
| PlayTracks.TrackForgetsOrder | fastlane/play_store.rb:382-444 | raw release lists that match release by release in some order are read as the same track, or both refused |
| PlayGuards.PreservedExactly | fastlane/play_store.rb:1122-1147 | the destination check passes exactly when the track is the state before plus one singleton release with a new code that agrees with the first observation |
| PlayGuards.SourceMoveExactly | fastlane/play_store.rb:1149-1175 | the source check passes exactly when the source is untouched and was never seen deactivated, or lost exactly the promoted release |
| PlayGuards.DeactivationIsUnique | fastlane/play_store.rb:1149-1175 | a deactivation has a single possible outcome |
| PlayGuards.Prepare | fastlane/play_store.rb:1040-1093 | an edit is refused exactly when the code is already in the destination or the source release is not promotable |
| PlayGuards.PlayGuard.constructor | fastlane/play_store.rb:1053-1090 | a new guard knows the states before the edit and nothing else |
| PlayGuards.PlayGuard.VerifySource | fastlane/play_store.rb:1149-1175 | a source seen deactivated is never accepted as retained again |
| PlayGuards.PlayGuard.VerifyInitial | fastlane/play_store.rb:1095-1109 | the first observed target becomes the baseline exactly when both checks pass |
| PlayGuards.PlayGuard.VerifyBeforeCommit | fastlane/play_store.rb:1111-1120 | the expected state is fixed exactly when the edit still preserves everything but the target's notes |
| PlayGuards.PlayGuard.VerifyCommitted | fastlane/play_store.rb:1285-1308 | success means that a baseline was recorded, and: the state before plus one singleton target that differs from it only in notes, and a source untouched or short of exactly the promoted release |
| Journals.CompactBound | fastlane/play_store.rb:491-499 | a compacted history has at most 256 rows |
| Journals.JournalIsFaithful | fastlane/play_store.rb:491-499 | after any appends and compactions the journal is an order-preserving part of the log with its last 254 rows and the first row of each dispatch phase |
| Journals.DispatchIsRemembered | fastlane/play_store.rb:491-499 | a dispatch is in the journal exactly when it was ever recorded |
| Journals.PlayJournal.Persist | fastlane/play_store.rb:1484-1511 | a row is appended and compacted only onto the history that was read back, and only when written |

## Left out

- FFI, errno tables, ABI layouts, gem origin checks: spawn, wait, close, kill and pipe are abstract steps with any result.
- JSON text, UTF-8, regular expressions, digests: values are datatypes, SHA-256 and canonical JSON are function parameters (canonical JSON injective), private commitments are equality.
- Clocks and deadlines: a deadline is a failure that may strike at any step; nothing is claimed about time.
- The Store and its client libraries: an adversary that answers readbacks; writes are dispatches whose effect is only seen in later readbacks.
- File identity, namespaces and races of the fence writer and the journal file: each effect succeeds or fails.
- Thread publication, interrupt masking and raw-fork copies: one thread of control per role, with failure possible at every step.
- Helper exit codes: O's and C's theorems rest on 0 and 2 being returned only by a helper's own last line, as its code does; any other death may have any other code.
- Process numbers: each creation gets a number that no live process of the chain has; reuse is modelled in `Children` and `Descriptors` only.
- Byte-level framing of the upload protocol: its pipes carry whole frames, with begun and fully written frames kept apart; the same-edge order of its decoder follows from the receivers' own checks and is not repeated.
- Upload standard output: its ends are observed by O at any time, and its bytes are not modelled.
- `next_action`: the order among locales and among screenshot sets is left open, so the theorems hold for every order.
- Screenshot part uploads: only the commit that follows them is a mutation here.
- `retry_evidence`, the waits for app info and for delayed creates before arming: reads only.
- Screenshot identities are taken not to be reused by the Store, and identities within one set to be distinct, as the readback is keyed by them.
- Logical keys stand for their digests, which are taken to be injective.
- A JSON object where a Play release should hold a list is kept as one item.
- ReadsAPrefix: assumes careful steps; each step that is not careful breaks what the theorem rests on (`InvExactly`), and no caller makes one.
- Routes of MANIFEST and DATA frames: the source gives routes to CREATE_W and RUN_TOOL only (`_command_process.py:2386`, `2637`, `3084`); the model allows usable routes on any frame.
- Children: the guard check and the system call of a signal, probe or wait are one action, so nothing is claimed about a thread interrupted between the two.
- The order of locales and places in the target: any order that lists each once.
- Execute: takes the verdict of `classify` with `progress!` and the result of `next_action` as functions known only by their specification; the latter may answer differently at every moment.
- UploadIsEarned: does not model the capture's thread joins and the identity of its output buffer, which `successful_offer?` also asks for.
