# Verified model of the control plane's reconciliation and protocol logic

The repository is an IoT control plane: a server hands desired state to edges, an edge runs plugins in
supervised processes, and applications react to devices. This project models the logic of that in Dafny
and proves what it keeps, over all inputs, all runs and all interleavings.

| module | models |
|---|---|
| `PluginHost` | which supervised process serves which plugin instance: the manager, as a class, with supervisors interfering |
| `PluginControl` | convergence of state files and manager to a desired snapshot |
| `Sync` | revision-gated snapshots, replays and restarts, on top of `PluginControl` |
| `WsClient` | the send queue, offline buffer and doubt window of the connection to the server |
| `Application`, `EffectRouting` | greedy capability matching against an independent validator, and authorization and routing of effects |
| `Execution`, `EventSequence` | at-most-once effects, and events from dispatcher to plugin |
| `RecordUpdates` | what repeated updates of one record come to, given how effects are keyed |
| `Announcements` | under which keys the effects of the application below are executed, and so which are |
| `ScheduledCompartment` | the daily window state machine |
| `Schema`, `SchemaKeywords` | the depth-limited JSON Schema evaluator, and what each keyword decides |
| `Supervisor` | the supervisor's run loop |
| `Release`, `RateLimit`, `Handshake` | release precedence, sliding-window limiting, the handshake line |
| `Text`, `Wrappers` | strings as Go treats them, options |

Code that changes state is a class whose methods are proved against functions on an abstract state; what
the source promises is then proved of those functions, over runs. Where goroutines interleave, a section
under a lock is one step, and methods call `Interfere` wherever they let go of the lock. Results of remote
calls, processes, files and timers are arbitrary.

## What the proofs found

Where the code does not do what its comments or callers suggest, the code is kept, the failure is a lemma,
and the exact condition is proved.

- A manager can stay ahead of the store after a failed save: an instance that neither the store nor the
  next snapshot mentions keeps running (`OrphanReached`, `OrphanSurvives`, `RunsExactlyTheSnapshot`).
- A snapshot that leaves an instance out erases its local configuration path (`LastSnapshotWins`).
- A save of the applied cache that fails lets one revision be applied with two digests after a restart
  (`UnsavedRevisionIsReused`, `SafeNextIffCovered`, `RestartSafeIffSaved`). A repeated instance identity hides
  a failed entry, which does no harm (`DuplicateHidesFailure`, `AppliedIffEndedWell`).
- Messages buffered in the middle of reconnect flushes take the offline buffer to any size
  (`InterleavedFlushOverflows`, `OverflowsIff`, `BufferBounded`).
- Numbering and queueing an event are two steps, so a queued event can be lost (`OvertakenEventIsLost`,
  `ExactlyOnceIffInOrder`).
- A command key of 505 to 512 characters is valid as a payload and not as an effect (`LongKeyRefused`,
  `BoundedUnlessLongKey`).
- An update of a record is known by a digest of its content, so going back to an earlier content is taken
  for a repetition and not written (`RevertedContentIsLost`, `ConvergesIff`); a slash in a record type can
  confuse two records (`RecordsConfused`, `RecordsApart`).
- The text of a missed-window notification does not name the day, so later misses of the same window are
  duplicates to the executor (`LaterMissesGoUnannounced`, `AnnouncedUnlessSameText`); after 30 days a completed window can be reported
  missed (`LateDeadlineContradicts`).
- A restart delay can be shorter than the millisecond the code falls back to (`ShortestDelay`,
  `BackoffBelowMillisecond`), and three kinds of state change are outside of the documented table
  (`StatesFollowTheTable`, `InTableIff`).
- A delay of 2^62 nanoseconds or more is followed by a millisecond (`OverflowFallsBack`, `DelaysDouble`).
- Pre-release identifiers like "-1" count as numbers, against Semantic Versioning (`SemverDiffers`,
  `ReadAsNumber`, `SemverOrder`).
- The limiter's eviction uses the empty string for "nobody", so the empty key can make it outgrow its bound
  (`EmptyKeyEscapes`, `BoundBroken`).
- Trailing space before build metadata spoils a release tag (`BuildMetadataIgnored`).
- A schema that forbids itself is accepted or rejected by its distance from the depth limit
  (`SelfNegation`).

## Model

| member | source | states |
|---|---|---|
| `PluginHost.EnabledIsServed` | internal/pluginhost/manager.go:719-757 | In every state between operations an enabled instance resolves, under the key it is entitled to, to a process built for its own plugin and version that is neither cancelled nor retiring |
| `PluginHost.NoProcessIsLost` | internal/pluginhost/manager.go:543-588 | A launched process is cancelled exactly when it is not current under its own key; a cancelled one is gone, still waited for, or abandoned by a removal; none that serves an enabled instance is cancelled |
| `PluginHost.ConfiguredAgrees` | internal/pluginhost/manager.go:672-710 | A record that claims the session of its process knows exactly what the plugin last accepted there, for every non-empty configuration |
| `PluginHost.SupervisorStepKeeps` | internal/pluginhost/manager.go:1049-1095 | Every step of a supervisor (session lost, state moved, restore begun, committed, published) keeps the whole invariant during any operation and moves no binding |
| `PluginHost.BeginRestoreReplays` | internal/pluginhost/manager.go:1049-1095 | A session being restored has accepted the recorded configuration of each of its targets |
| `PluginHost.CommitRestoreKeeps` | internal/pluginhost/manager.go:1049-1095 | Only records that are still the ones replayed are moved to the restored session, so records and accepted configurations agree |
| `PluginHost.RestartReplays` | internal/pluginhost/manager.go:1049-1095 | After a process restarts, every enabled instance that is to run on it and was ever configured, shared or not, is configured on the new session, which runs exactly its recorded configuration before anybody can see it; no other record changes |
| `PluginHost.DetachTracked` | internal/pluginhost/manager.go:521-538 | A group taken out of the process table because no enabled instance resolves to it is in hand, to be stopped |
| `PluginHost.DetachBound` | internal/pluginhost/manager.go:521-538 | Taking out an unused group leaves every enabled instance bound to a group built for it |
| `PluginHost.SwitchBindingOwns` | internal/pluginhost/manager.go:500-512 | Publishing a binding and dropping what it replaces leaves every enabled instance bound and every launched group current, cancelled or in hand |
| `PluginHost.SwitchBindingKeeps` | internal/pluginhost/manager.go:500-512 | The switch of a reconcile keeps the whole invariant, with exactly the detached groups left in hand |
| `PluginHost.SwitchBindingUndisturbed` | internal/pluginhost/manager.go:500-512 | A switch leaves the definition, the enabled flag and the process of every other instance alone |
| `PluginHost.SwitchOffKeeps` | internal/pluginhost/manager.go:391-399 | Turning a definition off keeps the whole invariant |
| `PluginHost.OwnProcessUnused` | internal/pluginhost/manager.go:1232-1237 | A per-instance process is used by its owner only |
| `PluginHost.EntitledProcess` | internal/pluginhost/manager.go:1232-1237 | An enabled instance is served by its own process if it is isolated, and otherwise by the one of its plugin and version |
| `PluginHost.SharingIff` | internal/pluginhost/manager.go:1232-1237 | Two enabled instances share a process exactly if both are to share and are of the same plugin and version |
| `PluginHost.PublishBindingTracked` | internal/pluginhost/manager.go:500-512 | A group overwritten in the process table is in hand and used by no enabled instance |
| `PluginHost.DeliverKeeps` | internal/pluginhost/manager.go:672-710 | A configure call affects its own instance on its own session only |
| `PluginHost.NothingToSend` | internal/pluginhost/manager.go:440-459 | When no configure call is needed the session already runs exactly the requested configuration |
| `PluginHost.NothingToldTwice` | internal/pluginhost/manager.go:440-459 | No configure call is made for a session that was told the same entries already, the local path aside |
| `PluginHost.RunsMeans` | internal/pluginhost/manager.go:672-710 | What a session runs is the configuration of the instance entry by entry, without the local path |
| `PluginHost.DoubtElsewhere` | internal/pluginhost/manager.go:468-499 | A rejected candidate on a fresh process leaves no record in doubt |
| `PluginHost.CancelKeeps` | internal/pluginhost/manager.go:570-588 | Cancelling a retiring group keeps the invariant and takes it out of hand |
| `PluginHost.ConfirmKeeps` | internal/pluginhost/manager.go:543-568 | Only a group confirmed gone is dropped from the retiring table |
| `PluginHost.EnableKeeps` | internal/pluginhost/manager.go:719-757 | Enabling an instance on the process of its key, running or new, keeps the invariant |
| `PluginHost.RemoveKeeps` | internal/pluginhost/manager.go:808-863 | Removing an instance keeps the invariant and disturbs nobody else |
| `PluginHost.RemoveOwns` | internal/pluginhost/manager.go:808-863 | A removal takes the process away, or an enabled instance still shares it |
| `PluginHost.Manager.Interfere` | internal/pluginhost/manager.go:1049-1095 | Any number of supervisor steps at any point of an operation keep the invariant and move no binding |
| `PluginHost.Manager.StopProcGroup` | internal/pluginhost/manager.go:570-588 | Cancels one retiring group and reports whether it is gone |
| `PluginHost.Manager.RetireProcGroups` | internal/pluginhost/manager.go:543-568 | Reports success only when nothing of the owner is left in the retiring table; what is in hand is handed over to it |
| `PluginHost.Manager.LaunchGroup` | internal/pluginhost/manager.go:1002-1041 | Adds one new, uncancelled group for the key and installation of the instance |
| `PluginHost.Manager.PickGroup` | internal/pluginhost/manager.go:404-423 | Reuses the group of the key only if it was built for the same installation and is not a disabled leftover |
| `PluginHost.Manager.ConfigureInstance` | internal/pluginhost/manager.go:672-710 | On success the session runs the requested configuration; on failure it may or may not |
| `PluginHost.Manager.AwaitSession` | internal/pluginhost/manager.go:596-658 | Yields a published session of the group or none |
| `PluginHost.Manager.TryCandidate` | internal/pluginhost/manager.go:435-467 | A candidate that passes has a live session running the requested configuration; no binding moves |
| `PluginHost.Manager.Rollback` | internal/pluginhost/manager.go:468-499 | After a rejected candidate no record is in doubt: the old configuration is back or the record no longer claims a session; bindings are as before |
| `PluginHost.Manager.Restore` | internal/pluginhost/manager.go:468-499 | Sends the recorded configuration again and forgets the session if that fails |
| `PluginHost.Manager.Switch` | internal/pluginhost/manager.go:500-512 | Publishes the record and its group, detaches what is unused and disturbs nobody else |
| `PluginHost.Manager.DetachUnused` | internal/pluginhost/manager.go:530-538 | Equals the specification of taking out an unused group |
| `PluginHost.Manager.Adopt` | internal/pluginhost/manager.go:500-512 | A candidate that passed becomes the binding; success only after every predecessor is confirmed gone |
| `PluginHost.Manager.ReconcileEnabled` | internal/pluginhost/manager.go:404-512 | Rejection leaves all bindings as they were; otherwise exactly the given definition took effect |
| `PluginHost.Manager.TurnOff` | internal/pluginhost/manager.go:391-399 | Replaces a definition by a disabled one and leaves its unused process in hand |
| `PluginHost.Manager.ReconcileInstance` | internal/pluginhost/manager.go:360-512 | Keeps the invariant; before its commit point it changes no binding; otherwise exactly this definition changed and nobody else is disturbed; the process it had is no longer current unless somebody enabled shares it; success means nothing of it is left retiring; refused as not installed only when it is not |
| `PluginHost.Manager.RegisterInstallation` | internal/pluginhost/manager.go:303-315 | Adds an installation once and rejects an empty plugin, version or path |
| `PluginHost.Manager.CreateInstance` | internal/pluginhost/manager.go:319-353 | Adds a stopped instance of an installed version under a new identity, or changes nothing |
| `PluginHost.Manager.EnableInstance` | internal/pluginhost/manager.go:719-757 | Succeeds exactly for a known instance that is enabled or whose version is installed; then it is enabled and nobody else is disturbed |
| `PluginHost.Manager.Disable` | internal/pluginhost/manager.go:761-804 | Succeeds exactly for a known instance, which is then disabled with its definition kept |
| `PluginHost.Manager.ProbeOutcome` | internal/pluginhost/manager.go:1135-1227 | A probe changes bindings only by disabling the probed instance after enough failures in a row, and only if it is still the one probed |
| `PluginHost.ThresholdActs` | internal/pluginhost/manager.go:1183-1200 | Exactly the bad probe in a row that reaches the threshold acts, by a restart or by disabling, and starts the count anew |
| `PluginHost.Manager.Remove` | internal/pluginhost/manager.go:808-863 | Succeeds exactly for a known instance, which is then unknown; nobody else is disturbed |
| `PluginHost.FirstInstance` | internal/pluginhost/manager.go:404-512 | The steps of an operation and of a supervisor lead from an empty manager to one that serves an instance |
| `PluginHost.BoundAloneKeeps` | internal/pluginhost/manager.go:404-512 | That state keeps the whole invariant, and exactly this instance is new in it |
| `PluginControl.SettledIsTheSnapshot` | internal/plugincontrol/applier.go:38-61 | After a fully applied snapshot the tenant's states are exactly the last entry per instance with the local configuration path inherited; other tenants' states are untouched |
| `PluginControl.SettledAgain` | internal/plugincontrol/applier.go:33-61 | Applying the same snapshot again changes no state file |
| `PluginControl.SettledForgetsHistory` | internal/plugincontrol/applier.go:33-61 | Two stores with the same local configuration paths agree on the tenant after the same snapshot, whatever they held before |
| `PluginControl.LastSnapshotWins` | internal/plugincontrol/applier.go:118-124 | An intermediate snapshot leaves no trace on an instance, exactly unless it left out an instance that had a local configuration path |
| `PluginControl.RecordedStep` | internal/plugincontrol/applier.go:103-136 | Recording the entries one after the other is the same as recording the last entry of each instance |
| `PluginControl.ConvergedOne` | internal/plugincontrol/applier.go:38-177 | After full success an instance runs exactly if the snapshot enables it or it was running unknown to store and snapshot |
| `PluginControl.RunsExactlyTheSnapshot` | internal/plugincontrol/applier.go:38-177 | The running set of the tenant is exactly what the snapshot enables if and only if the manager was not ahead of the store on an instance the snapshot leaves out |
| `PluginControl.OrphanSurvives` | internal/plugincontrol/applier.go:131-177 | What a failed save leaves behind runs on after every later snapshot that leaves the instance out is applied completely, unnoticed by the store |
| `PluginControl.OrphanReached` | internal/plugincontrol/applier.go:131-136 | Every acceptable enabled entry can end like this: the state is reached from an empty manager by the steps of a successful reconcile |
| `PluginControl.ConvergedAgain` | internal/plugincontrol/applier.go:33-61 | A second application of the same snapshot changes no definition and no enabled flag |
| `PluginControl.SpecAsAsked` | internal/plugincontrol/host.go:275-287 | What the manager is given has exactly the entries of the configuration asked for, plus a stored local path that is not blank, and its own process exactly if the trimmed isolation says per-instance |
| `PluginControl.ServesAsAsked` | internal/plugincontrol/applier.go:103-136 | An applied entry runs exactly as it was asked for |
| `PluginControl.ConvergedAsAsked` | internal/plugincontrol/applier.go:38-177 | After full success each instance runs, and is stored, exactly as the last entry for it asks |
| `PluginControl.HalfwayStep` | internal/plugincontrol/applier.go:54-61 | One more entry, applied or failed: what it applies is recorded and served, earlier entries of other instances stay as they came out, and local paths survive |
| `PluginControl.LastAppliedIff` | internal/plugincontrol/applier.go:54-61 | An instance ended well exactly if the last entry for it was applied |
| `PluginControl.BackedStep` | internal/plugincontrol/applier.go:103-136 | A state is saved only after the manager accepted it, so what it enables is installed |
| `PluginControl.StateStore.Load` | internal/plugincontrol/state.go:150-170 | A found state is the stored one; missing and unreadable are told apart |
| `PluginControl.StateStore.Save` | internal/plugincontrol/state.go:173-190 | Stores valid states only, with the default isolation filled in, or changes nothing |
| `PluginControl.StateStore.Delete` | internal/plugincontrol/state.go:193-203 | Removes one state or, on failure, none; a missing one is not an error |
| `PluginControl.StateStore.List` | internal/plugincontrol/state.go:206-265 | Lists every state of one tenant, or of all, exactly once and in order of tenant and identity, or fails as a whole |
| `PluginControl.Host.RegisterInstallations` | internal/plugincontrol/host.go:155-180 | Success means exactly the listed installations were added, and how many were new is counted; nothing else of the manager changes |
| `PluginControl.Host.CheckEntry` | internal/plugincontrol/applier.go:65-126 | An entry that passes is acceptable, its secrets can be resolved, and its state inherits the stored configuration path; one that does not is unacceptable, binds secrets, or could not be read |
| `PluginControl.Host.ApplyOne` | internal/plugincontrol/applier.go:64-141 | An applied entry is recorded and served exactly as it says, configuration entry by entry and isolation included, and is installed if enabled; a failed one leaves the store alone and says how far the manager got; no other instance is disturbed |
| `PluginControl.Host.ApplyEntries` | internal/plugincontrol/applier.go:53-61 | Applies the entries in order, each of which comes out as its result says, keeping every enabled state backed by an installation |
| `PluginControl.Host.Retire` | internal/plugincontrol/applier.go:157-171 | Success means the instance is unknown to the manager and its file is gone; no other instance is disturbed |
| `PluginControl.Host.RetireAbsent` | internal/plugincontrol/applier.go:144-177 | Success means exactly the absent instances of the tenant are gone from store and manager; failure removes only some of them |
| `PluginControl.Host.ApplySnapshot` | internal/plugincontrol/applier.go:38-61 | If every instance ended well, store and manager have converged to the snapshot, each instance configured as its last entry asks, entry by entry; in any case every entry comes out as its result says, other tenants are untouched and enabled states stay backed by installations |
| `PluginControl.Host.Load` | internal/plugincontrol/host.go:182-220 | Success means every enabled state of the scope is served and counted; refused as not installed only if a state asks for more than is installed |
| `PluginControl.Host.Restart` | internal/plugincontrol/host.go:100-110 | A new process over the same files never fails for a missing installation if the lock file still lists what was installed |
| `Sync.NormalizeResults` | internal/plugincontrol/sync.go:282-303 | One result per desired instance: the last one reported for it, a failure if none or without status |
| `Sync.FirstFailure` | internal/plugincontrol/sync.go:320-330 | Reports a failure exactly if some result is not applied |
| `Sync.ReceiveOutcome` | internal/plugincontrol/sync.go:179-237 | What one message does to the cache and what its acknowledgement says: a non-applied one leaves the cache unchanged, an applied one has its revision and digest, a fresh one has one applied result per desired instance, rejection exactly for what is neither replay nor admitted |
| `Sync.MessageDecides` | internal/plugincontrol/sync.go:179-237 | Rejected exactly without a digest, below the applied revision, or at it under another digest; at it under the same digest acknowledged again; every other message is applied exactly if the applier answers and the last report for each of its instances says so |
| `Sync.AppliedReport` | internal/plugincontrol/sync.go:282-303 | The last report for an instance counts |
| `Sync.NormalizedComplete` | internal/plugincontrol/sync.go:282-330 | No failure exactly if every desired instance has an applied result in order |
| `Sync.ReplayNeedsNoApplier` | internal/plugincontrol/sync.go:190-205 | What is not admitted does not depend on any answer of the applier |
| `Sync.RevisionSafety` | internal/plugincontrol/sync.go:179-237 | Over every run of one process the applied revision never decreases and no revision is acknowledged as applied with two digests |
| `Sync.FreshOnce` | internal/plugincontrol/sync.go:179-237 | Over every run of one process, from any cache, complete applications have strictly increasing revisions |
| `Sync.RestartsAreInvisible` | internal/plugincontrol/sync.go:60-79 | With durable saves and readable files the same holds across restarts |
| `Sync.RestartSafeIffSaved` | internal/plugincontrol/sync.go:125-150 | After any run of one process the cache file covers what was acknowledged, so that a restart is safe, exactly if it holds the cache |
| `Sync.SafeNextIffCovered` | internal/plugincontrol/sync.go:179-237 | After any run with any restarts and lost saves: no next message can give a revision two digests exactly if the cache covers what was acknowledged, consistently |
| `Sync.UnsavedRevisionIsReused` | internal/plugincontrol/sync.go:225-231 | After one failed save a restart lets the same revision be applied with another digest |
| `Sync.AppliedIffLastApplied` | internal/plugincontrol/sync.go:209-218 | The acknowledgement says applied exactly if no identity needs trimming and the last entry of every identity was applied |
| `Sync.AppliedIffEndedWell` | internal/plugincontrol/sync.go:209-218 | That is, if every instance of the snapshot ended well, whatever happened to earlier entries for it |
| `Sync.AppliedMeansAllApplied` | internal/plugincontrol/sync.go:209-218 | With distinct identities the acknowledgement says applied exactly when the host applied every entry under an identity that needed no trimming |
| `Sync.DuplicateHidesFailure` | internal/plugincontrol/sync.go:282-303 | An applied acknowledgement hides a failed entry exactly if a later entry with the same identity was applied |
| `Sync.HiddenFailureHappens` | internal/plugincontrol/sync.go:282-303 | Any snapshot that names an instance twice can hide a failure |
| `Sync.Syncer.HandleDesired` | internal/plugincontrol/sync.go:179-237 | One step of a run, for the answer of the host; a message not admitted has no effect on plugins, files or cache file; a fresh applied acknowledgement means that store and manager have converged to the snapshot |
| `Sync.Syncer.Report` | internal/plugincontrol/sync.go:257-278 | Reports the applied revision under the next sequence number |
| `WsClient.StepConserves` | internal/edge/wsclient.go:174-216 | No step of any thread loses or duplicates a copy of a message |
| `WsClient.StepKeeps` | internal/edge/wsclient.go:265-437 | Conservation, message kinds, timers and phases are kept by every step |
| `WsClient.RequeueConserves` | internal/edge/wsclient.go:301-316 | Requeueing moves exactly one message and counts exactly what the full buffer gives up |
| `WsClient.BufferHoldsTheLast` | internal/edge/wsclient.go:399-412 | After any number of messages, buffered one after the other into a buffer within its bound, it holds the last 512 of all in order, and exactly the ones before them were given up and counted |
| `WsClient.LostAreBufferedInOrder` | internal/edge/wsclient.go:214-230 | The acknowledgements in doubt when a session ends are buffered in the order in which they were written, to the same effect |
| `WsClient.BufferedLast` | internal/edge/wsclient.go:399-412 | One more message comes last, and a full buffer gives up and counts exactly its oldest one |
| `WsClient.ExpiryConserves` | internal/edge/wsclient.go:351-368 | An acknowledgement that outlives its window of doubt is delivered once |
| `WsClient.RunKeeps` | internal/edge/wsclient.go:174-216 | The invariant holds after every interleaving |
| `WsClient.AcknowledgementsAreConserved` | internal/edge/wsclient.go:174-437 | Over every interleaving each copy of an acknowledgement is queued, in hand, buffered, in doubt, confirmed or pushed out, and the counter equals what was pushed out |
| `WsClient.QueueIsInOrder` | internal/edge/wsclient.go:174-290 | Over every interleaving the pump takes the messages in the order in which they were queued, and what it has not taken is still in the queue |
| `WsClient.FlushAtOnceIsARun` | internal/edge/wsclient.go:416-437 | An undisturbed flush is a run of its own steps |
| `WsClient.BufferBounded` | internal/edge/wsclient.go:399-437 | Over every run in which nothing is buffered while a flush holds messages, and after each of its prefixes, the buffer holds at most 512 |
| `WsClient.ExceedsIffPutBack` | internal/edge/wsclient.go:301-437 | The only step that takes the buffer past 512 is putting back what does not fit beside what was buffered meanwhile |
| `WsClient.OverflowsIff` | internal/edge/wsclient.go:399-437 | Over every run the buffer holds more than 512 at some time exactly if at some time a flush puts back more than fits beside what was buffered meanwhile |
| `WsClient.InterleavedFlushOverflows` | internal/edge/wsclient.go:416-437 | For every n a complete run from the start after which the buffer holds 512 n messages |
| `WsClient.Client.BufferMessage` | internal/edge/wsclient.go:399-412 | The buffer afterwards is the old one with the message at its end, without its oldest one if it was full, which alone is given up and counted |
| `WsClient.Client.RequeueMessage` | internal/edge/wsclient.go:301-316 | Keeps events and acknowledgements, drops reports |
| `WsClient.Client.Enqueue` | internal/edge/wsclient.go:265-290 | Queued exactly if the client was online and the queue had room when it was looked at, otherwise buffered; the whole is a run of others' steps ended by that one step |
| `WsClient.Client.FlushPending` | internal/edge/wsclient.go:416-437 | Takes exactly the steps of a flush among any steps of other threads: queues a prefix in order, and puts the rest in front of what was buffered meanwhile only when the queue is full |
| `WsClient.Client.PumpOne` | internal/edge/wsclient.go:181-206 | Takes exactly the steps of the pump for one message: failed and buffered again, or written, and then put in doubt exactly if it is an acknowledgement |
| `WsClient.Client.TrackWritten` | internal/edge/wsclient.go:351-368 | Puts a written acknowledgement in doubt, or back into the buffer on a dead session |
| `WsClient.Client.DoubtExpired` | internal/edge/wsclient.go:360-367 | Confirms one copy unless the session has died |
| `WsClient.Client.RemoveFirst` | internal/edge/wsclient.go:389-396 | Removes exactly the first equal message |
| `WsClient.Client.GiveBack` | internal/edge/wsclient.go:223-226 | Buffers the first lost acknowledgement again |
| `WsClient.Client.Interfere` | internal/edge/wsclient.go:174-216 | What other threads do at any point is a run of steps in which this thread takes none, and its own bookkeeping is left alone |
| `WsClient.Client.EndSession` | internal/edge/wsclient.go:214-230 | Takes exactly the steps of the end of a session: each acknowledgement in doubt is buffered again before the client is offline |
| `Application.CandidateProvides` | internal/application/capability.go:72-89 | None exactly if some capability is compatible; otherwise the version is blamed exactly if a capability has the base asked for |
| `Application.OlderVersionsAreProvided` | internal/application/capability.go:41-65 | What satisfies a requirement satisfies every lower version of it |
| `Application.VersionDecides` | internal/application/capability.go:20-65 | On texts: base@m provides base@n exactly if n is 0 or at most m, the bare base always, and no other base ever |
| `Application.BareDecides` | internal/application/capability.go:20-65 | A capability without a version counts as version 0 |
| `Application.CapabilitiesByThemselves` | internal/application/capability.go:72-89 | A candidate provides exactly what one of its capabilities provides by itself |
| `Application.ProvidesItself` | internal/application/capability.go:41-65 | A capability that parses satisfies itself, and one that does not satisfies nothing |
| `Application.DeclaredIsLast` | internal/application/validate.go:32-38 | An identity refers to its last declaration |
| `Application.KeysTellApart` | internal/application/match.go:169-174 | Providers are told apart by device and entity unless an entity identity holds the separator |
| `Application.CountIsPlaces` | internal/application/validate.go:76-86 | The count of a requirement is how many bindings name it |
| `Application.FulfilsMeans` | internal/application/validate.go:40-75 | A binding fulfils its requirement exactly if it names a declared requirement and an entity to which a single candidate answers, of the tenant and providing what is asked |
| `Application.SharingMeans` | internal/application/validate.go:116-133 | A provider may be occupied exactly if not by two bindings, or by one whose requirement allows reuse |
| `Application.CandidateForBinding` | internal/application/validate.go:145-161 | The first match and the exact number of matches |
| `Application.DeclareAll` | internal/application/validate.go:32-38 | The last declaration of an identity counts; issues exactly for invalid requirements |
| `Application.CheckBindings` | internal/application/validate.go:40-86 | Issues exactly if some binding does not fulfil its requirement, with the first fault of each; the tables then hold counts, occupants and devices |
| `Application.TabulatedStep` | internal/application/validate.go:76-86 | One more sound binding is tabulated correctly |
| `Application.CheckCounts` | internal/application/validate.go:88-114 | Issues exactly if some count is outside its cardinality |
| `Application.CheckOccupants` | internal/application/validate.go:116-133 | Issues exactly if a provider is shared and no occupant allows reuse |
| `Application.CheckDevices` | internal/application/validate.go:134-143 | Issues exactly if one entity identity stands for two devices |
| `Application.Validate` | internal/application/validate.go:29-143 | Finds no issue exactly for acceptable bindings, and reports the fault of every faulty binding |
| `Application.FirstUnused` | internal/application/match.go:127-137 | The first provider that is free, or with reuse the first one |
| `Application.PickUpTo` | internal/application/match.go:141-167 | Up to n distinct providers in order, free ones first |
| `Application.MatchOneSound` | internal/application/match.go:62-108 | One requirement picks as many as it accepts, all providing, no provider twice, occupied ones only with reuse |
| `Application.MatchesTheFirst` | internal/application/match.go:62-90 | A requirement for one picks the first candidate whose provider is free, or with reuse the first of all; otherwise nobody provides it or all who do are taken, and the code says which |
| `Application.MatchesEnough` | internal/application/match.go:91-103 | A requirement for several picks exactly as many as it needs, free providers before taken ones, and fails exactly if there are fewer usable providers |
| `Application.MatchAllSound` | internal/application/match.go:15-40 | All picks provide what is required, counts are right, and a provider is picked again only by a requirement that allows reuse |
| `Application.MatchedIsAcceptable` | internal/application/match.go:15-57 | What was picked passes the independent validator if and only if it is unambiguous: non-empty identities, one candidate per binding, one device per identity |
| `Application.GreedyMeetsValidator` | internal/application/match.go:15-57 | With distinct non-empty entity identities everything picked is acceptable, so a match can only fail requirement by requirement |
| `Application.MatchRequirement` | internal/application/match.go:62-108 | Equals the specification of one greedy step, including its error codes |
| `Application.ValidateRequirementList` | internal/application/validate.go:13-27 | Accepts exactly lists of valid requirements with distinct identities |
| `Application.Match` | internal/application/match.go:15-57 | Reports the first requirement that cannot be matched, or bindings acceptable to the validator; with identified candidates the final validation never fails |
| `EffectRouting.CommandBinding` | internal/appruntime/effect.go:299-319 | A binding is found exactly if the entity is bound and not on two devices |
| `EffectRouting.BindingInTenant` | internal/appruntime/effect.go:321-331 | True exactly if a candidate of the tenant answers to the binding |
| `EffectRouting.EffectFromSDK` | internal/appruntime/effect.go:139-206 | Equals the specified authorization for every kind of wish: own instance, known kind, routable entity of a command, bounded payload and key; tenant and device come from the source, never from the plugin, and the payload carries every field that was asked for |
| `EffectRouting.NewEffect` | internal/appruntime/effect.go:333-358 | Stamps key and tenant and accepts exactly bounded payloads under bounded keys |
| `EffectRouting.BoundOnce` | internal/application/validate.go:116-143 | Without reuse accepted bindings name each entity once |
| `EffectRouting.RoutingFollowsBinding` | internal/appruntime/effect.go:165-182 | A command is routable exactly if its entity is bound, and is routed to the candidate the validator matched, within the tenant |
| `EffectRouting.BoundedUnlessLongKey` | internal/appruntime/effect.go:208-285 | An authorized wish with a bounded payload becomes an effect, except for exactly the commands whose key has 505 to 512 characters |
| `EffectRouting.KeyLengths` | internal/appruntime/effect.go:139-206 | Keys of bounded payloads are bounded, except exactly those of commands with a key longer than 504 |
| `EffectRouting.LongKeyRefused` | internal/appruntime/effect.go:218-220 | Every routable entity can be sent such a command: bounded as a payload, refused as an effect |
| `EffectRouting.SameKeyIff` | internal/appruntime/effect.go:139-206 | Two effects have one key exactly if they are of one kind and agree in what the key names: identity and digest of a record, key of a command, schedule, digest of a notification |
| `EffectRouting.RecordsApart` | internal/appruntime/effect.go:154-163 | Two contents of one record, and records with types without a slash, have one key exactly if identity and digest agree |
| `EffectRouting.RecordsConfused` | internal/appruntime/effect.go:162-163 | With a slash in the type two different records have one key |
| `RecordUpdates.KeysAreKnown` | internal/appruntime/execution.go:51-75 | After a sequence of updates of a record the executor knows exactly their keys |
| `RecordUpdates.ExecutedIffNew` | internal/appruntime/effect.go:154-164 | An update is executed exactly if no earlier one had a content of the same digest |
| `RecordUpdates.HoldsTheLastNew` | internal/appruntime/effect.go:154-164 | The record holds the update whose content came up for the first time last |
| `RecordUpdates.ConvergesIff` | internal/appruntime/effect.go:154-164 | The record ends with the content asked for last exactly if no other content came up for the first time after that one did |
| `RecordUpdates.RevertedContentIsLost` | internal/appruntime/effect.go:154-164 | A content that is replaced and then asked for again is not written again |
| `Execution.AtMostOnce` | internal/appruntime/execution.go:51-75 | Under any interleaving a key has at most one execution in progress and at most one that ever succeeds |
| `Execution.FailureCanBeRetried` | internal/appruntime/execution.go:67-74 | A settled key can be claimed again exactly if its execution failed |
| `Execution.ExecutedForGood` | internal/appruntime/execution.go:59-62 | An executed key stays executed |
| `Execution.Instance.ExecuteOnce` | internal/appruntime/execution.go:51-75 | Refused exactly for a foreign tenant or an invalid effect, a duplicate exactly if the key is known; otherwise a run that begins with claiming the key and ends with the only settlement of it, after which the key is known exactly on success |
| `Execution.Instance.ExecuteEffects` | internal/appruntime/execution.go:28-49 | Takes up exactly a prefix that ends at the first error, one turn each with other callers in between; each result says how its turn came out |
| `Announcements.AnnouncementKeys` | internal/appruntime/effect.go:368-377 | The key of an announcement is that of exactly the announcements with the same text |
| `Announcements.KeysNameTheDay` | examples/scheduled-compartment/service.go:706-734 | Keys of reminders, tasks and cancellations tell occurrences apart |
| `Announcements.SameOccurrence` | examples/scheduled-compartment/service.go:876-876 | Window and date can be read off the identity of an occurrence, whatever the window is called |
| `Announcements.SettingExists` | examples/scheduled-compartment/service.go:876-926 | Every application with up to 64 windows has a setting as the results here require it, with digests of the real lengths |
| `Announcements.KnownIff` | internal/appruntime/execution.go:51-75 | A key is known to the executor exactly if an earlier effect under it was executed well |
| `Announcements.ExecutedIsARun` | internal/appruntime/execution.go:51-75 | Executing a log of effects in order is a run of claims and settlements |
| `Announcements.AnnouncedUnlessSameText` | examples/scheduled-compartment/service.go:920-926 | Over every sequence of effects an announcement reaches the executor exactly if none with the same text, for whatever day, was executed well before |
| `Announcements.DuplicateIffSameText` | internal/appruntime/execution.go:59-64 | In whatever state of the executor an announcement is a duplicate exactly if one with the same text was executed or is in flight |
| `Announcements.RemindersAndTasksAreTheirOwn` | examples/scheduled-compartment/service.go:706-734 | Reminders and tasks are held back only by the same one for the same occurrence |
| `Announcements.LaterMissesGoUnannounced` | examples/scheduled-compartment/service.go:920-926 | A complete run over two days: the window is missed and announced on both, and the second announcement is a duplicate exactly if the first was executed well |
| `EventSequence.ExactlyOnceIffInOrder` | internal/appruntime/runtime.go:362-394 | Over every run, the plugin acts on exactly the queued events in order if and only if they were queued in the order of their numbers |
| `EventSequence.ExactlyOnce` | internal/appruntime/runtime.go:362-394 | With numbering and queueing in one step every queued event is acted on exactly once, whatever is dropped or delivered again |
| `EventSequence.GapsDoNotBlock` | examples/scheduled-compartment/service.go:252-258 | Over every run the next event is acted on exactly if its number is higher than all delivered before, however many were dropped in between |
| `EventSequence.RedeliveryIsIgnored` | examples/scheduled-compartment/service.go:252-258 | Over every run an event that was delivered before changes nothing when it is delivered again |
| `EventSequence.OvertakenEventIsLost` | internal/appruntime/runtime.go:371-391 | In two steps a queued event can be lost: the later number overtakes |
| `EventSequence.Stream.DispatchEvent` | internal/appruntime/runtime.go:362-394 | A run that begins with taking the next number and ends with queueing or dropping it, whatever others do in between; reported as full only when the queue is |
| `EventSequence.Stream.Receive` | examples/scheduled-compartment/service.go:244-258 | The plugin acts on an event exactly if its number is higher than all before |
| `ScheduledCompartment.OccurrenceSafety` | examples/scheduled-compartment/service.go:434-661 | Over every run, until its tombstone may expire, an occurrence is never both completed and missed, each at most once; opened, reminded of and armed at most once; a miss is announced exactly once and not before the end; a completion is timed within the window |
| `ScheduledCompartment.Absorbing` | examples/scheduled-compartment/service.go:293-328 | Completed and missed are final as long as the tombstone is kept |
| `ScheduledCompartment.TombstoneKept` | examples/scheduled-compartment/service.go:461-477 | The minute job forgets a tombstone, of a completion or of a miss, exactly when its retention is over |
| `ScheduledCompartment.LateDeadlineContradicts` | examples/scheduled-compartment/service.go:461-477 | Past retention a completion can be followed by a miss: a complete run |
| `ScheduledCompartment.ActionKeeps` | examples/scheduled-compartment/service.go:293-661 | Every minute job, deadline job and key press keeps every occurrence safe |
| `ScheduledCompartment.OpenKeeps` | examples/scheduled-compartment/service.go:493-521 | An occurrence that is opened never was before |
| `ScheduledCompartment.CloseKeeps` | examples/scheduled-compartment/service.go:523-534 | An opened occurrence is missed at most once |
| `ScheduledCompartment.CompleteKeeps` | examples/scheduled-compartment/service.go:306-327 | An occurrence is completed at most once and not after it was missed |
| `ScheduledCompartment.PruneKeeps` | examples/scheduled-compartment/service.go:461-477 | Forgetting opened occurrences of other days lets none be opened twice |
| `ScheduledCompartment.Instance.HandleEvent` | examples/scheduled-compartment/service.go:244-275 | An event is handled exactly if it has no number or a new one, and then equals the specified key press or changes nothing; a duplicate changes nothing |
| `ScheduledCompartment.Instance.OnKeyEvent` | examples/scheduled-compartment/service.go:293-328 | Equals the specified key press at the time of the event, for the compartment the key is bound to |
| `ScheduledCompartment.Instance.KeyToCompartment` | examples/scheduled-compartment/service.go:819-834 | Equals the specified lookup |
| `ScheduledCompartment.FirstBindingCounts` | examples/scheduled-compartment/service.go:819-834 | The first position of a key decides which compartment it is bound to, and one without a compartment binds it to none |
| `ScheduledCompartment.MinuteJobDecides` | examples/scheduled-compartment/service.go:434-547 | The minute job decides about each occurrence by itself: about those of today as one visit of its window would, whatever else is configured and in whatever order, and about no other day |
| `ScheduledCompartment.OpensInTime` | examples/scheduled-compartment/service.go:493-521 | An occurrence is opened exactly within its window unless known, and armed and reminded of exactly within its first minute |
| `ScheduledCompartment.MissesInTime` | examples/scheduled-compartment/service.go:523-547 | The minute job misses exactly the occurrences of today that are open, that no deadline job owns and whose end has passed: each is then recorded, cancelled and announced once; other open ones of today stay open, and those of other days are forgotten |
| `ScheduledCompartment.AnswersTheMissed` | examples/scheduled-compartment/service.go:434-460 | Its answer lists exactly the windows newly missed, each once and in order |
| `ScheduledCompartment.PressDecides` | examples/scheduled-compartment/service.go:293-328 | A press completes exactly the occurrence whose window its time falls into unless that was missed, recording that and cancelling its deadline job once, and changes no other |
| `ScheduledCompartment.DeadlineDecides` | examples/scheduled-compartment/service.go:626-649 | A deadline job after the end leaves its occurrence completed if it was and missed otherwise, recording and announcing a miss once |
| `ScheduledCompartment.Instance.PruneWindows` | examples/scheduled-compartment/service.go:461-477 | Keeps exactly what is worth keeping |
| `ScheduledCompartment.Instance.VisitWindow` | examples/scheduled-compartment/service.go:480-534 | Opens, misses or leaves one window as specified and lists its effects; missed exactly if open, unowned and past its end, and then with the three effects of a miss |
| `ScheduledCompartment.Instance.RunWindowCheck` | examples/scheduled-compartment/service.go:434-547 | Equals the specified minute job, in state and answer, which lists exactly the windows newly missed; a repeated key is answered as before and decides nothing |
| `ScheduledCompartment.Instance.RunWindowMiss` | examples/scheduled-compartment/service.go:554-661 | Equals the specified deadline job, in state and answer; an unknown window or a foreign job identity is an error without effect |
| `ScheduledCompartment.Instance.Conclude` | examples/scheduled-compartment/service.go:626-649 | A passed deadline misses an occurrence unless it is closed, and cancels its task again if it was completed |
| `ScheduledCompartment.Instance.Flush` | examples/scheduled-compartment/service.go:338-367 | Attempts a prefix of the effects, each at most once, all of them on success and none once closed |
| `Schema.ValidateValue` | internal/registry/schema.go:48-280 | The recursive evaluator with its counting loops terminates and equals the specified verdict at every depth |
| `Schema.Validate` | internal/registry/schema.go:41-46 | Whenever no branch runs into the limit the verdict is the meaning of the schema |
| `Schema.ValidateCombination` | internal/registry/schema.go:233-271 | Counting matches decides allOf, anyOf and oneOf |
| `Schema.CountOne` | internal/registry/schema.go:246-270 | Counting one match is finding a match and no other |
| `Schema.RulesMonotone` | internal/registry/schema.go:48-280 | The rules look at nothing but the sub-evaluations, and accept more when more of them hold positively and fewer may hold negatively |
| `Schema.LookingDeeper` | internal/registry/schema.go:48-280 | Looking deeper only settles more |
| `Schema.VerdictBetween` | internal/registry/schema.go:48-54 | The limited evaluator accepts what is surely accepted and nothing that is surely rejected within its levels |
| `Schema.MeaningConsistent` | internal/registry/schema.go:48-280 | No schema both accepts and rejects a value |
| `Schema.LimitedEvaluatorIsRight` | internal/registry/schema.go:48-54 | Whenever the levels within the limit settle the matter, the verdict is the meaning without a limit |
| `Schema.WithinTheLimit` | internal/registry/schema.go:48-54 | If no branch runs into the limit, acceptance and rejection are those of the meaning |
| `Schema.AcceptedAbove` | internal/registry/schema.go:48-280 | Without not and oneOf, what is accepted at one depth is accepted one level higher |
| `Schema.AcceptedEverywhereAbove` | internal/registry/schema.go:48-280 | Without not and oneOf, acceptance at one depth implies acceptance at every smaller depth |
| `Schema.PureCycle` | internal/registry/schema.go:56-69 | A reference to itself has no meaning and is always rejected |
| `Schema.SelfNegation` | internal/registry/schema.go:273-277 | A schema that forbids itself has no meaning, and at every depth its verdict is decided by the distance from the limit |
| `SchemaKeywords.ReferencesLead` | internal/registry/schema.go:282-306 | A reference leads where its names lead from object to object, unescaped as in section 3 of RFC 6901; any other but the root leads nowhere |
| `SchemaKeywords.EscapeUnescapes` | internal/registry/schema.go:291-291 | Unescaping undoes the escape, for every name |
| `SchemaKeywords.TypeDecides` | internal/registry/schema.go:308-347 | type alone accepts exactly the values of that kind, and everything for a name that is not known |
| `SchemaKeywords.RequiredDecides` | internal/registry/schema.go:76-87 | required alone accepts exactly objects with all of the properties |
| `SchemaKeywords.ConstDecides` | internal/registry/schema.go:132-136 | const alone accepts exactly the same value, numbers by value |
| `SchemaKeywords.EnumDecides` | internal/registry/schema.go:138-153 | enum alone accepts exactly one of the values |
| `SchemaKeywords.ItemCountDecides` | internal/registry/schema.go:171-181 | minItems and maxItems alone bound the number of items of arrays, both included |
| `SchemaKeywords.UniqueDecides` | internal/registry/schema.go:182-190 | uniqueItems alone accepts exactly arrays without two equal items, and what is no array |
| `SchemaKeywords.LengthDecides` | internal/registry/schema.go:193-204 | minLength and maxLength alone bound the length of strings, both included |
| `SchemaKeywords.PatternDecides` | internal/registry/schema.go:205-217 | pattern alone accepts exactly strings that match, and what is no string; a malformed one matches nothing |
| `SchemaKeywords.RangeDecides` | internal/registry/schema.go:220-231 | minimum and maximum alone bound numbers, both included |
| `SchemaKeywords.NotDecides` | internal/registry/schema.go:273-277 | not accepts exactly what its schema rejects, and rejects what it accepts |
| `SchemaKeywords.ReferenceDecides` | internal/registry/schema.go:56-68 | A reference accepts and rejects what its target does, and rejects everything without one |
| `SchemaKeywords.ItemsDecide` | internal/registry/schema.go:155-169 | items accepts exactly arrays all of whose items are accepted |
| `SchemaKeywords.PropertiesDecide` | internal/registry/schema.go:89-130 | properties and additionalProperties accept exactly what has acceptable declared properties, and others only as allowed |
| `SchemaKeywords.AllOfDecides` | internal/registry/schema.go:233-259 | allOf accepts exactly what all of its schemas accept |
| `SchemaKeywords.AnyOfDecides` | internal/registry/schema.go:233-263 | anyOf accepts exactly what one of its schemas accepts |
| `SchemaKeywords.OneOfDecides` | internal/registry/schema.go:233-268 | oneOf accepts exactly what one of its schemas accepts while all others reject it, and rejects what all reject or two accept |
| `SchemaKeywords.KeywordsDecideAlone` | internal/registry/schema.go:48-280 | A schema accepts exactly what each of its keywords accepts by itself, and rejects what one of them rejects |
| `Supervisor.CrashBudget` | internal/pluginhost/supervisor.go:204-279 | Over every run without an unnoticed re-enabling: restarts <= crashes <= budget + 1 and restarts <= budget |
| `Supervisor.NoEnableNoRace` | internal/pluginhost/supervisor.go:714-722 | Without Enable there is no such re-enabling |
| `Supervisor.StatesFollowTheTable` | internal/pluginhost/state.go:46-92 | Every state change of every run is in the table or one of three exceptions: a crash after a failed restore, and an immediate start after an Enable that the loop did not notice |
| `Supervisor.InTableIff` | internal/pluginhost/state.go:46-92 | A run keeps to the table exactly if no restore fails and nothing is launched while disabled or crashed |
| `Supervisor.NeverStrays` | internal/pluginhost/state.go:46-92 | Without Enable and without a failed restore every run keeps to the table |
| `Supervisor.RestoreFailureLeavesTheTable` | internal/pluginhost/supervisor.go:502-515 | The first exception happens |
| `Supervisor.EnableRaceLeavesTheTable` | internal/pluginhost/supervisor.go:222-235 | The second exception happens: an Enable that the loop does not notice lets a disabled plugin start at once |
| `Supervisor.EnableAfterBudgetLeavesTheTable` | internal/pluginhost/supervisor.go:246-261 | The third exception happens: the same after the crash that exhausts the budget |
| `Supervisor.BackoffBounds` | internal/pluginhost/supervisor.go:281-303 | A delay is positive and at most the maximum (or a millisecond), also when doubling overflows |
| `Supervisor.BackoffBelowMillisecond` | internal/pluginhost/supervisor.go:292-302 | Exactly when a delay is below a millisecond, also when doubling overflows: only one that jitter or overflow takes down to nothing is raised |
| `Supervisor.DelaysAtLeastMillisecond` | internal/pluginhost/supervisor.go:262-303 | Over every run without jitter and with a base of at least a millisecond no delay is shorter than that |
| `Supervisor.ShortestDelay` | internal/pluginhost/supervisor.go:292-302 | With jitter the first delay of a run can be a nanosecond, whatever is configured |
| `Supervisor.DelaysAreBounded` | internal/pluginhost/supervisor.go:262-275 | Over every run all delays are bounded, and the k-th in a row by the base doubled k - 1 times |
| `Supervisor.DelaysDouble` | internal/pluginhost/supervisor.go:262-303 | Over every run without jitter the k-th delay in a row is the base doubled k - 1 times, capped at the maximum, as long as twice the maximum fits 64 bits |
| `Supervisor.OverflowFallsBack` | internal/pluginhost/supervisor.go:283-302 | Beyond that a delay of 2^62 nanoseconds or more is followed by a millisecond |
| `Supervisor.JitterTakesAway` | internal/pluginhost/supervisor.go:289-302 | Jitter shortens the delay by at most itself; what is left of nothing is a millisecond |
| `Supervisor.BudgetIsUsed` | internal/pluginhost/supervisor.go:204-279 | A plugin that crashes at every launch is launched again after exactly as many crashes as the budget allows, each time with a delay, and disabled at the next |
| `Supervisor.StepBudget` | internal/pluginhost/supervisor.go:204-279 | Every step keeps the budget and the bounds of the delays |
| `Supervisor.StepExplained` | internal/pluginhost/supervisor.go:741-754 | Every step changes the state as the table or an exception says |
| `Supervisor.Process.Supervise` | internal/pluginhost/supervisor.go:204-279 | The loop, for any number of turns and any interference, is a run of the steps above in which every turn took at least one step of its own, so budget, table and delay bounds hold of it |
| `Supervisor.Process.RunOnce` | internal/pluginhost/supervisor.go:362-522 | Each outcome of one launch is a run of steps to the place of the loop that goes with it |
| `Supervisor.Process.Monitor` | internal/pluginhost/supervisor.go:527-577 | Each outcome of serving and watching a process is a run of steps to the place of the loop that goes with it |
| `Supervisor.Process.NextDelay` | internal/pluginhost/supervisor.go:281-303 | Computes the specified delay step by step |
| `Supervisor.Process.Crash` | internal/pluginhost/supervisor.go:246-265 | Counts a crash by the one step for it: disabled over budget, otherwise the next delay is recorded |
| `Supervisor.Process.Wait` | internal/pluginhost/supervisor.go:222-237 | Backing off ends in a launch, in being disabled, or in cancellation, each by its own steps |
| `Supervisor.Process.Turn` | internal/pluginhost/supervisor.go:218-278 | One turn of the loop is a run of at least one step back to its top or to its end |
| `Release.Parse` | internal/registry/catalog_github.go:148-204 | A parsed version has valid, non-empty pre-release identifiers |
| `Release.RoundTrip` | internal/registry/catalog_github.go:148-204 | A version is read back as it is written, with or without a leading v: three numbers and the identifiers in order |
| `Release.BuildMetadataIgnored` | internal/registry/catalog_github.go:148-204 | For every text: what follows the first plus sign changes nothing, except that trailing space before the first plus sign spoils the version |
| `Release.CompareVersions` | internal/registry/catalog_github.go:206-266 | The loop computes the recursive comparison |
| `Release.CompareIsPrecedence` | internal/registry/catalog_github.go:206-266 | The comparison is exactly a precedence in the shape of section 11 of Semantic Versioning 2.0.0, in both directions |
| `Release.CompareIsPreorder` | internal/registry/catalog_github.go:206-266 | Reflexive, transitive and antisymmetric in sign |
| `Release.EqualIff` | internal/registry/catalog_github.go:206-266 | Two versions compare equal exactly if their numbers agree and their pre-release identifiers are pairwise the same text or numbers of the same value |
| `Release.SameIdentifiers` | internal/registry/catalog_github.go:236-246 | Identifiers compare equal exactly if they are the same text or numbers of the same value |
| `Release.ReadAsNumber` | internal/registry/catalog_github.go:233-235 | Which identifiers count as numbers: digits that fit 64 bits, and a dash before such digits |
| `Release.SemverOrder` | internal/registry/catalog_github.go:232-258 | All other identifiers are ordered as section 11 of Semantic Versioning 2.0.0 says |
| `Release.SemverDiffers` | internal/registry/catalog_github.go:232-258 | A dash before digits ranks below every number and digits beyond 64 bits as text, unlike that section |
| `Release.SelectPrefixedRelease` | internal/registry/catalog_github.go:115-146 | The earliest release with a maximal version among those that are not drafts and whose tag parses, or none exactly if there is none |
| `RateLimit.KeptIsSuffix` | internal/auth/ratelimit.go:43-49 | The hits kept are the last ones, and exactly those within the window |
| `RateLimit.AllowKeeps` | internal/auth/ratelimit.go:36-63 | Stored hits stay sorted, non-empty, at most per many and not in the future |
| `RateLimit.GrantSpaced` | internal/auth/ratelimit.go:50-62 | A grant keeps every per+1 consecutive grants at least a window apart |
| `RateLimit.WindowBound` | internal/auth/ratelimit.go:36-63 | Spaced grants mean at most per of them in any half-open interval of the length of the window |
| `RateLimit.AtMostPerWindow` | internal/auth/ratelimit.go:36-63 | A key that was not evicted gets at most per grants in any half-open interval of the length of the window |
| `RateLimit.RetryIsGranted` | internal/auth/ratelimit.go:50-57 | A denied key that comes back after the delay it was told, without calls in between, is granted |
| `RateLimit.KeysBounded` | internal/auth/ratelimit.go:89-106 | Without the empty key the number of keys never exceeds the maximum |
| `RateLimit.OnlyTheOldestIsGivenUp` | internal/auth/ratelimit.go:36-106 | Nobody hit within the window is given up while there is room; at capacity a new key costs exactly one, hit first of all |
| `RateLimit.GrantedIff` | internal/auth/ratelimit.go:36-63 | A key is granted exactly if the per-th last of its hits is out of the window, and else told to wait until it is, but a second at least |
| `RateLimit.BoundBroken` | internal/auth/ratelimit.go:36-106 | Exactly when a call can take the number of keys past the maximum: at capacity, for a new key, with the empty key in use and strictly oldest |
| `RateLimit.EmptyKeyEscapes` | internal/auth/ratelimit.go:93-105 | Eviction can give up nobody exactly when the empty key is in use and strictly older than all others |
| `RateLimit.RateLimiter.Prune` | internal/auth/ratelimit.go:73-86 | Drops exactly the keys without a recent hit |
| `RateLimit.RateLimiter.Filter` | internal/auth/ratelimit.go:43-49 | Keeps exactly the recent hits in order |
| `RateLimit.RateLimiter.EvictIfNeeded` | internal/auth/ratelimit.go:89-106 | Gives up the victim of some order of looking at the keys, and only at capacity |
| `RateLimit.RateLimiter.AllowHit` | internal/auth/ratelimit.go:36-63 | Equals the specified decision and records exactly the grant; no grant of any key is forgotten except of an evicted one; the number of keys stays bounded unless the empty key is used |
| `Handshake.RoundTrip` | internal/pluginhost/handshake.go:48-123 | Parsing the printed form of a well-formed handshake gives it back with the marker filled in |
| `Handshake.ReprintsUnlessZeros` | internal/pluginhost/handshake.go:74-123 | An accepted line is well formed and reprints to its trimmed self exactly if its version has no leading zero |
| `Handshake.ProtocolRoundTrip` | internal/pluginhost/handshake.go:125-140 | Protocol and version survive printing and parsing |

## Left out

- PluginHost.Manager: process groups, sessions and records are values in tables indexed by identity, not heap objects of their own; that two bindings share a process is equality of identities, and a change through a pointer is a change of the table.
- PluginHost.Manager.ReconcileInstance: `Close`, health grades, metrics and last-healthy times are not modelled; revisions do not wrap at 32 bits; map keys joined with NUL are datatypes.
- PluginHost.ConfiguredAgrees: empty configurations are exempt, as a disable resets the revision and the next empty one is not sent.
- PluginHost.NoProcessIsLost: `Remove` forgets a process that does not exit in time instead of keeping it in the retiring table; such processes are the set `abandoned`.
- PluginHost.EnabledIsServed: that a process reused right after a Disable is not about to stop by itself is not claimed; its supervisor may still be reacting to the Disable.
- PluginControl.Host.ApplySnapshot: details of results and observation of actual state are not modelled; resolving secrets and every file operation may fail arbitrarily.
- PluginControl.Host.Load: the cached answer of a second call on the same host is not modelled.
- Sync.Syncer: one method call is one message under the lock; boot identities and redaction are not modelled.
- WsClient.Client: dialing, reconnect delays and real time are not modelled; any timer may fire at any moment of a live session. That buffered messages are eventually delivered is not claimed.
- Application.Match: greedy matching is not complete, and completeness is not claimed; texts of issues are not modelled.
- EffectRouting.EffectFromSDK: digests are parameters of fixed length; lengths count characters; effect identities (hashes) are not modelled.
- Announcements.LaterMissesGoUnannounced: the texts of records, deadlines and job arguments are parameters; dates are told apart, and the digest tells apart the texts that can be announced.
- Execution.Instance: one record of a running instance; the persistence of executed keys is not part of the original.
- ScheduledCompartment.Instance: time zones are a fixed offset and window times are minutes; reconfiguring while occurrences are open is excluded, and so are dates that do not parse.
- ScheduledCompartment.OccurrenceSafety: holds until the end plus 30 days; what happens afterwards is ScheduledCompartment.LateDeadlineContradicts.
- Schema.ValidateValue: regular expressions and number parsing are parameters; error texts and paths are not modelled.
- Supervisor.Process: sections between two points where another goroutine can be noticed are single steps; processes, sockets and handshakes are arbitrary outcomes.
- RecordUpdates.ConvergesIff: updates of one record that are executed well, one after the other; failed ones are tried again under Execution.FailureCanBeRetried.
- Release.SelectPrefixedRelease: listing releases over the network and the comparison with the manifest version are not modelled.
- Handshake.RoundTrip: whether a text is a host and a port is a parameter.
- AppHost scheduling, exclusive actuators, lock file trust, core version constraints, redaction, UI contributions, views, audit, command line flags and the web interface: wrappers, or rules without interplay.
