# Strict mode, verified

A Dafny model of the parts of the FlClashX sources whose correctness is hard to see
by reading: the strict-policy protocol between Agent, Core and the privileged Broker,
the Core's lifetime protocols, its UDP framing, and a few smaller state machines. `dafny verify dfyconfig.toml` checks all of it.

**Strict policies.** The Broker engine (`BrokerSpec`, `BrokerEngine`) is modelled over
a world of fallible calls: a script decides for each backend, store or verifier call
whether it works, fails, or takes effect and still reports failure, and a script that
runs out is a crash. `BrokerInvariant`, `BrokerSafety` and `BrokerRuns` prove the crash
invariant and what follows from it over every run; `BrokerSuccess` proves exactly what
each command does when nothing fails, `BrokerFailures` how far it gets when something
does, `BrokerReplies` that it answers with the truth, and `BrokerWedge` what failures can
leave behind for good. `BrokerDispatch` adds the forwarding probe, `DispatchReplies` what
leaves the Broker, and `ForwardingRuns` the runs of both. On the
Agent's side `StrictController`, `CoreIngress`, `OrchestratorSpec` and
`StrictPolicyOrchestrator` model the controller, the ingress coordinator and the phase
machine; `OrchestratorRuns`, `OrchestratorHistory` and `OrchestratorConvergence` prove
agreement, ordering and convergence, `StrictVerdicts` and `OrchestratorMoves` exactly which
proof and which answer leads where, `DriveAction` the runtime's handling of failures, and
`ArmedSoundness` joins both sides under arbitrary delivery. `TargetGroups` and `CoreSide`
prove the three-way agreement on target groups, and `StrictConvergence` and `StrictDisable`
let the three components answer each other until both sides are armed, or all are empty.

**The Core.** `Catalog` and `DelayTasks` model the proxy catalogs and the delay tests as
one step per critical section, in any interleaving; `CatalogTable` and `DelayTaskTable`
are the same sections as methods on mutable tables. `CatalogEffects` says what each section
changes and leaves alone, `DelayResponses` and `DelayCancels` why each test answers what it
answers and what cancelled it. `CoreOutput` and `OutputDelivery` do the same for the output
queue. `ReplayWindow`, `DomainNames`, `UdpFrame`, `UdpAssociations`, `UdpDelivery` and
`UdpEndpoints` cover the UDP relay between the Mac endpoint and the Core.

**Smaller machines.** `MenuOwnership`, `TrayMenu` and `TrayShows` (native menus), `ReplayJournal`,
`JournalStaging`, `JournalReplays` and `AgentJournal` (the Agent's replay journal),
`LineFraming` and `LineOutcomes` (bounded lines and log lines).

Most class methods are proved equal to a function of their old state, and the run theorems
are proved about those functions; the Broker engine, the dispatcher and the orchestrator
state the invariants of those runs on the objects too.

## Findings

The code does not meet five statements one might expect of it; each is proved as it is,
with the exact condition and a run that shows it.

- *Forwarding without an armed policy.* A deactivation that fails without effect is reported,
  but the engine still leaves the armed phase, so forwarding stays admitted until the next
  effective deactivation, a commit that arms, or a restart
  (`ForwardingRuns.ForwardingOnlyWhileArmed`, exactly when: `StepForwards`; a run: `LeakHappens`).
  The probe's interface lets a deactivation fail that way.
- *A wedge.* Recovery with a disabling marker refuses, guards untouched, exactly when the guards
  carry another revision (`BrokerRuns.DisablingRecovery`). A migration whose guards cannot be
  installed, followed by a disable, gets there (`BrokerWedge.WedgeHappens`), and then nothing
  changes guards or store any more (`WedgeIsPermanent`) but the next finding. The Windows
  service runs a recovery when it starts and stops if that fails
  (services/strict-broker/src/windows_host.rs:269-272).
- *A forgotten marker.* Prepare is meant to refuse while an unrecovered marker is stored. A
  recovery that loads the store and then cannot read the filters counts the store as read, and
  a later prepare overwrites the marker and the guards (`BrokerWedge.PrepareOverwritesExactly`,
  `RecoveryForgetsExactly`; a run: `ForgottenMarkerIsReplaced`). The engine allows it; the
  service above stops first.
- *A stranding migration.* The orchestrator goes idle before it tries the new policy, so it
  strands exactly when that policy cannot begin (`OrchestratorRuns.MigrationStrandsExactlyWhenRefused`;
  a run: `MigrationStrands`). The runtime checks first.
- *A lost association.* The Core silently drops UDP frames whose random association identifier
  happens to be all zeros, so the frame round trip holds exactly for the others
  (`UdpFrame.OutboundRoundTrip`; `ZeroAssociationIsLost`).

## Model

| member | source | states |
|---|---|---|
| BrokerRuns.CrashSafety | services/strict-broker/src/lib.rs:521-752 | At every instant of every run of commands, failing calls, half-done calls and crashes: redirects stand only with guards, and a filter stands only with a valid stored recovery marker. |
| BrokerRuns.FiltersAreVerified | services/strict-broker/src/lib.rs:437-447 | Filters are only ever bound to the executables verified for their own policy. |
| BrokerRuns.RecoveryNeverOrphaned | services/strict-broker/src/lib.rs:764-790 | An image without a marker never makes recovery meet filters it would have to refuse as orphaned. |
| BrokerRuns.RevisionsAreUnique | services/strict-broker/src/lib.rs:530-598 | The stored watermark never drops and bounds the marker and every installed revision; no revision is ever installed for two policies, across restarts and disables. |
| BrokerRuns.RecoverConverges | services/strict-broker/src/lib.rs:764-826 | From any consistent durable state with a live marker, a failure-free recovery ends with the guards of exactly the marker's policy, no redirects and the settled phase stored. |
| BrokerRuns.RecoveryConverges | services/strict-broker/src/lib.rs:764-826 | The same from every crash image of every run, by a new engine. |
| BrokerRuns.SecondRecoveryChangesNothing | services/strict-broker/src/lib.rs:764-826 | A second failure-free recovery changes nothing but the filter generation. |
| BrokerRuns.DisablingRecovery | services/strict-broker/src/lib.rs:853-874 | With a disabling marker, recovery finishes the removal if and only if the guards are absent or carry the marker's revision; otherwise it refuses and leaves guards and store alone. |
| BrokerWedge.WedgeHappens | services/strict-broker/src/lib.rs:710-726 | For every valid migration: one whose guard installation fails, then a disable of the new revision, ends with the old policy's guards under the new policy's disabling marker. |
| BrokerWedge.CommandWedged | services/strict-broker/src/lib.rs:521-888 | In that state every command under every script, unless it prepares over a forgotten marker, leaves guards and store as they are, and all but a status reading fail. |
| BrokerWedge.WedgeIsPermanent | services/strict-broker/src/lib.rs:521-888 | No later commands, failures or restarts ever change the guards or the store, unless a recovery loads the store and then cannot read the filters. |
| BrokerWedge.WedgeLasts | services/strict-broker/src/lib.rs:521-888 | They stay unchanged if and only if no later prepare overwrites a marker the engine never adopted. |
| BrokerWedge.PrepareOverwritesExactly | services/strict-broker/src/lib.rs:521-549 | With a stored marker that the engine has not adopted, prepare puts its own policy in the marker's place if and only if the store counts as read, the policy is valid and above the known watermark, and verification and storing go through; otherwise it fails and touches nothing. |
| BrokerWedge.RecoveryForgetsExactly | services/strict-broker/src/lib.rs:764-790 | A recovery takes the store for read without adopting its marker if and only if the marker could be loaded, or had been before, and the filters could not be read. |
| BrokerWedge.ForgottenMarkerIsReplaced | services/strict-broker/src/lib.rs:828-839 | After any run that stored a marker: a restart, such a recovery and a prepare put the guards of any valid policy above the watermark in place of what stood, related or not. |
| BrokerRuns.MigrationNeverUncovers | services/strict-broker/src/lib.rs:576-607 | While an identity migration runs, whatever fails or crashes, every executable guarded before stays guarded. |
| BrokerRuns.ExecuteKeeps | services/strict-broker/src/lib.rs:521-888 | Every command keeps the engine invariant and answers only with a sound proof, under any script of failures. |
| BrokerSafety.PrepareKeeps | services/strict-broker/src/lib.rs:521-574 | Prepare keeps the crash invariant at every point between two backend or store calls. |
| BrokerSafety.CommitKeeps | services/strict-broker/src/lib.rs:609-673 | Commit keeps it, including its rollback paths. |
| BrokerSafety.MigrateKeeps | services/strict-broker/src/lib.rs:576-607 | So does an identity migration. |
| BrokerSafety.ForceBlockingKeeps | services/strict-broker/src/lib.rs:728-755 | So does forced blocking. |
| BrokerSafety.DisableKeeps | services/strict-broker/src/lib.rs:710-726 | So does disable. |
| BrokerSafety.RecoverKeeps | services/strict-broker/src/lib.rs:764-826 | So does recovery, even though it adopts the watermark before it looks at the snapshot and the marker. |
| BrokerSafety.RollbackKeeps | services/strict-broker/src/lib.rs:876-888 | So does rolling back redirects, whether or not the rollback itself works. |
| BrokerInvariant.StatusSound | services/strict-broker/src/lib.rs:890-931 | A proof with the full proxy capability set attests to guards and redirects of its own revision and digest under a stored marker. |
| BrokerInvariant.MatchIdentifiesPolicy | services/strict-broker/src/lib.rs:949-975 | A snapshot that matches the marker's revision and digest identifies the installed policy itself. |
| BrokerSuccess.PrepareSucceedsExactly | services/strict-broker/src/lib.rs:521-574 | With nothing failing, a first prepare succeeds if and only if the policy is valid, above every revision ever used, the store was read, and no redirects are left over; then exactly its guards stand. |
| BrokerSuccess.CommitSucceedsExactly | services/strict-broker/src/lib.rs:609-673 | With nothing failing, commit arms if and only if revision, digest, phase, forwarding health and attested capabilities all fit; a refusal touches nothing and a late failure leaves the policy blocked without redirects. |
| BrokerSuccess.ForceBlockingSucceedsExactly | services/strict-broker/src/lib.rs:728-755 | With nothing failing, forced blocking succeeds if and only if the live revision's guards are installed, and always takes its redirects down. |
| BrokerSuccess.DisableSucceedsExactly | services/strict-broker/src/lib.rs:710-726 | With nothing failing, disable succeeds if and only if no foreign guards stand in for the live revision, and leaves nothing but the watermark. |
| BrokerSuccess.MigrationSucceedsExactly | services/strict-broker/src/lib.rs:576-607 | With nothing failing, a migration succeeds if and only if the successor is a valid one above the watermark and the live policy is guarded; the successor then stands, blocked. |
| BrokerReplies.EveryReplyIsTrue | services/strict-broker/src/lib.rs:890-931 | Whatever fails on the way, a command that answers at all tells the truth, field by field, about the engine and the filters it leaves: revision, digest, generation, capabilities, guards, marker and the three health flags. |
| BrokerReplies.StatusAnswersExactly | services/strict-broker/src/lib.rs:705-762 | A status, and a teardown without a live policy, is answered if and only if the filters can be read, and changes nothing. |
| BrokerReplies.EmptyStoreRecovers | services/strict-broker/src/lib.rs:764-785 | Recovery of a store without a marker comes up disabled, under the stored watermark and with the empty proof, if and only if store and filters can be read; nothing durable changes. |
| BrokerReplies.EmptyCrashImageRecovers | services/strict-broker/src/lib.rs:764-785 | So a new Broker starts from every crash image of every run whose store holds no marker: the blank one, and that of every completed disable. |
| BrokerReplies.UnfinishedDisableRefuses | services/strict-broker/src/lib.rs:521-549 | While a disable is unfinished no policy is prepared, its own neither, and nothing changes. |
| BrokerReplies.DisableProvesNothingLeft | services/strict-broker/src/lib.rs:853-874 | A disable that succeeds leaves no filter and no marker, and its proof says so; only the generation and the capabilities are the backend's own. |
| BrokerFailures.PrepareStops | services/strict-broker/src/lib.rs:533-574 | How far a first preparation got, from which of its calls failed: what the engine then remembers and that it answers only if none did. |
| BrokerFailures.MigrationStops | services/strict-broker/src/lib.rs:576-607 | The same for a migration: the old policy stays live until the new marker is stored. |
| BrokerFailures.CommitStops | services/strict-broker/src/lib.rs:609-673 | The same for a commit: if installing or storing fails the redirects are rolled back; if reading back fails they stay as they are, and the engine stays blocking. |
| BrokerFailures.RollbackUndoes | services/strict-broker/src/lib.rs:876-888 | A rollback blocks at once and drops the health; with its calls working no redirect is left. |
| BrokerFailures.ForceBlockingStops | services/strict-broker/src/lib.rs:728-755 | The same for forced blocking: the engine leaves the armed phase once the filters are read back, and adopts the marker only once it is stored. |
| BrokerFailures.DisableStops | services/strict-broker/src/lib.rs:710-726 | The same for a disable: it is remembered from the moment it is stored until the store is cleared. |
| BrokerFailures.RecoveryStops | services/strict-broker/src/lib.rs:764-826 | The same for a recovery: the stored marker is adopted as soon as the filters can be read, and Recovering is left only at the very end. |
| BrokerFailures.RecoveryRemovesFirst | services/strict-broker/src/lib.rs:796-802 | With redirects standing, recovery takes them down and reads back before anything else. |
| StrictContract.MigrationCovers | services/strict-contract/src/lib.rs:1153-1186 | A valid migration guards every executable guarded before and drops no proxying. |
| BrokerEngineModule.Host.InstallGuards | services/strict-broker/src/lib.rs:421-426 | On success these guards stand, labelled with the executables they were verified for; on failure the old or the new ones do, never a mixture at any instant. Redirects and store stay, and the attempt is remembered either way. |
| BrokerEngineModule.Host.InstallDataPlane | services/strict-broker/src/lib.rs:427-432 | The same for the redirects, which leaves guards and store alone. |
| BrokerEngineModule.Host.RemoveDataPlane | services/strict-broker/src/lib.rs:433 | On success no redirect stands; on failure all of the old ones or none. Guards and store stay. |
| BrokerEngineModule.Host.RemoveGuards | services/strict-broker/src/lib.rs:434 | On success no guard stands; on failure all of the old ones or none. Redirects and store stay. |
| BrokerEngineModule.Host.Persist | services/strict-broker/src/lib.rs:402-403 | On success the marker is stored; otherwise the old record or all of the new one. The watermark never drops, covers the stored marker on success, and the filters stay. |
| BrokerEngineModule.Host.ClearMarker | services/strict-broker/src/lib.rs:405-406 | On success no marker is stored; otherwise the old one or none. The watermark and the filters stay. |
| BrokerEngineModule.Host.TakeSnapshot | services/strict-broker/src/lib.rs:409-417 | May fail; otherwise says truthfully which filters stand, under which generation, revision and digest, and changes nothing. |
| BrokerEngineModule.Host.Load | services/strict-broker/src/lib.rs:399-400 | May fail; otherwise returns exactly the stored record, and changes nothing. |
| BrokerEngineModule.Host.Verify | services/strict-broker/src/lib.rs:437-447 | May fail, and changes nothing durable either way. |
| BrokerEngineModule.BrokerEngine.Prepare | services/strict-broker/src/lib.rs:521-574 | The object's prepare, for every script of failures and crashes: keeps the crash invariant at every instant, answers only with a sound proof, and equals the step of the run theorems. |
| BrokerEngineModule.BrokerEngine.Commit | services/strict-broker/src/lib.rs:609-673 | The object's commit, for every script of failures and crashes: keeps the crash invariant at every instant, answers only with a sound proof, and equals the step of the run theorems. |
| BrokerEngineModule.BrokerEngine.Status | services/strict-broker/src/lib.rs:705-708 | The object's status, for every script of failures and crashes: keeps the crash invariant at every instant, answers only with a sound proof, and equals the step of the run theorems. |
| BrokerEngineModule.BrokerEngine.Disable | services/strict-broker/src/lib.rs:710-726 | The object's disable, for every script of failures and crashes: keeps the crash invariant at every instant, answers only with a sound proof, and equals the step of the run theorems. |
| BrokerEngineModule.BrokerEngine.ForceBlocking | services/strict-broker/src/lib.rs:728-755 | The object's forced blocking, for every script of failures and crashes: keeps the crash invariant at every instant, answers only with a sound proof, and equals the step of the run theorems. |
| BrokerEngineModule.BrokerEngine.ForceBlockingIfActive | services/strict-broker/src/lib.rs:757-762 | The object's forced blocking of whatever is active, for every script of failures and crashes: keeps the crash invariant at every instant, answers only with a sound proof, and equals the step of the run theorems. |
| BrokerEngineModule.BrokerEngine.MigrateIdentity | services/strict-broker/src/lib.rs:576-607 | The object's migration keeps the crash invariant, answers only with a sound proof, and keeps every executable guarded before guarded at every instant. |
| BrokerEngineModule.BrokerEngine.Recover | services/strict-broker/src/lib.rs:764-826 | The object's recovery keeps the crash invariant, answers only with a sound proof, and without failures ends fail-closed for exactly the stored policy, or disabled with the empty proof if the store holds none (EmptyStoreRecovers). |
| BrokerEngineModule.BrokerEngine.PrepareFresh | services/strict-broker/src/lib.rs:533-574 | The object's fields, the world's trace and the reply after a first preparation are those of the specification the invariant is proved about. |
| BrokerEngineModule.BrokerEngine.InstallSuccessor | services/strict-broker/src/lib.rs:590-607 | The object's fields, the world's trace and the reply after the second half of a migration are those of the specification the invariant is proved about. |
| BrokerEngineModule.BrokerEngine.RecoverMarked | services/strict-broker/src/lib.rs:786-826 | The object's fields, the world's trace and the reply after recovery from a marker are those of the specification the invariant is proved about. |
| BrokerEngineModule.BrokerEngine.LoadStoreOnce | services/strict-broker/src/lib.rs:828-839 | The object's fields, the world's trace and the reply after the first reading of the store are those of the specification the invariant is proved about. |
| BrokerEngineModule.BrokerEngine.CompleteDisable | services/strict-broker/src/lib.rs:853-874 | The object's fields, the world's trace and the reply after the removal of all filters are those of the specification the invariant is proved about. |
| BrokerEngineModule.BrokerEngine.RollbackRedirects | services/strict-broker/src/lib.rs:876-888 | The object's fields, the world's trace and the reply after the removal of redirects are those of the specification the invariant is proved about. |
| BrokerDispatch.BrokerDispatcher.Handle | services/strict-broker/src/dispatch.rs:74-140 | Engine, probe and response after one request; the engine stays safe, and a proof that answers a stopping command leaves the object with forwarding off and no redirect installed. |
| BrokerDispatch.BrokerDispatcher.MeasureForwarding | services/strict-broker/src/dispatch.rs:14-23 | A measurement that succeeds has admitted forwarding, and none ever revokes it; it may admit and still fail. |
| BrokerDispatch.BrokerDispatcher.DeactivateForwarding | services/strict-broker/src/dispatch.rs:30-36 | A deactivation that succeeds has revoked forwarding, and none ever admits it; it may fail before or after taking effect. |
| ForwardingRuns.ForwardingOnlyWhileArmed | services/strict-broker/src/dispatch.rs:74-163 | Over every run of requests, teardowns and restarts, whatever probe and engine answer: forwarding is admitted without an armed proxy policy if and only if some event leaked it and no later event ended that. |
| ForwardingRuns.StepForwards | services/strict-broker/src/dispatch.rs:74-163 | One event leaks if and only if its deactivation fails without effect while forwarding is admitted and the engine leaves the armed phase; a leak lasts exactly until an effective deactivation, a commit that arms, or a restart; a leaking request is refused. |
| ForwardingRuns.RequestForwards | services/strict-broker/src/dispatch.rs:74-140 | The same for one request, from its probe and engine answers and the state before, with the crash invariant kept. |
| ForwardingRuns.CloseForwards | services/strict-broker/src/windows_host.rs:384-396 | The same for a fail-closed teardown. |
| ForwardingRuns.ForceBlockingDisarms | services/strict-broker/src/lib.rs:728-755 | Forced blocking takes a proxy policy out of Armed exactly when it is the live one, its redirects go and the filters can be read; it never puts one into Armed. |
| ForwardingRuns.DeactivationEnds | services/strict-broker/src/dispatch.rs:142-163 | An effective deactivation ends forwarding, whatever the engine does and whatever leaked before. |
| ForwardingRuns.LeakHappens | services/strict-broker/src/dispatch.rs:121-127 | For every proxy policy: prepare, commit, then force blocking with a deactivation that fails leaves forwarding admitted while the engine is blocking and no redirect stands. |
| BrokerDispatch.StoppingReplyIsTrue | services/strict-broker/src/dispatch.rs:142-163 | A proof answering prepare, force-blocking or disable is sent only once forwarding is off and no redirect is installed. |
| DispatchReplies.EngineEffectExactly | services/strict-broker/src/dispatch.rs:74-140 | What reaches the engine has exactly the engine's effect, even if a deactivation failed; what does not has none. |
| DispatchReplies.RepliesExactly | services/strict-broker/src/dispatch.rs:74-181 | A request is answered with a proof if and only if it reaches the engine, no deactivation it depends on failed, the engine succeeds and the proof may leave; it is then the engine's. Otherwise the code says why. |
| DispatchReplies.ProofsAreTrue | services/strict-broker/src/dispatch.rs:165-181 | Every proof that leaves the Broker is true, field by field, of the state it leaves. |
| DispatchReplies.ProofsMayLeaveExactly | services/strict-contract/src/lib.rs:838-874 | What may leave: for no policy only the empty proof; for a policy one that names its marker, has a generation for its guards, and claims persistence only with guards. |
| BrokerDispatch.IngressAgreement | services/strict-broker/src/lib.rs:675-703 | The Broker accepts a well-formed ingress set if and only if it names exactly the groups of the prepared policy. |
| BrokerDispatch.PrepareOutcome | services/strict-broker/src/lib.rs:521-574 | A prepare that succeeds leaves no redirect installed. |
| StrictControllerModule.StrictController.BeginIntent | services/agent/src/strict.rs:37-60 | The controller's five fields and the answer after starting an intent. |
| StrictControllerModule.StrictController.ApplyBrokerProof | services/agent/src/strict.rs:62-93 | The controller's five fields and the answer after a Broker proof. |
| StrictControllerModule.StrictController.LoseBackend | services/agent/src/strict.rs:95-103 | The controller's five fields and the answer after a lost backend. |
| StrictControllerModule.StrictController.StartRecovery | services/agent/src/strict.rs:105-110 | The controller's five fields and the answer after the start of a recovery. |
| StrictControllerModule.StrictController.AskDisable | services/agent/src/strict.rs:112-118 | The controller's five fields and the answer after a request to disable. |
| StrictControllerModule.StrictController.Confirm | services/agent/src/strict.rs:120-138 | The controller's five fields and the answer after the confirmation of a disable. |
| StrictControllerModule.StrictController.Block | services/agent/src/strict.rs:140-145 | The controller's five fields and the answer after blocking. |
| StrictVerdicts.ProofDecidesExactly | services/agent/src/strict.rs:62-93 | A proof is heard if and only if it is about the desired revision and digest; it arms if and only if nothing is missing, and otherwise blocks with the first complaint. |
| StrictVerdicts.IntentsExactly | services/strict-contract/src/lib.rs:129-165 | Which policies count as an intent, and what they then require. |
| StrictVerdicts.SpellingsCountAlike | services/strict-contract/src/lib.rs:129-165 | Two spellings of one digest count as the same intent. |
| StrictVerdicts.IntentsBeginExactly | services/agent/src/strict.rs:37-60 | An intent is taken up if and only if nothing is being disabled and it is the first, the same again, or of a higher revision; it starts from nothing proved. |
| StrictVerdicts.OtherEventsExactly | services/agent/src/strict.rs:95-138 | What a lost backend, a recovery, a request to disable and its confirmation each change, and when they are refused. |
| StrictVerdicts.ArmedByTheLastWord | services/agent/src/strict.rs:37-145 | Over every run of events the controller is armed if and only if some proof armed it and no later event has changed it. |
| CoreIngress.StrictIngressCoordinator.BeginTransition | services/agent/src/core_ingress.rs:174-258 | Either nothing to do, or one new pending request with the sorted distinct groups under the next generation. |
| CoreIngress.StrictIngressCoordinator.Revoke | services/agent/src/core_ingress.rs:260-291 | An explicit empty generation; the old pending request is dropped even when none can be emitted. |
| CoreIngress.StrictIngressCoordinator.Accept | services/agent/src/core_ingress.rs:293-354 | The pending request is consumed, and the descriptor changes if and only if the response matches it group by group on distinct loopback endpoints; its entries are those of AcceptedHoldsWhatWasAsked. |
| CoreIngress.CollectTargets | services/agent/src/core_ingress.rs:174-205 | All targets, if and only if each is well formed and there are at most 128. |
| CoreIngress.BrokerIngressSet | services/agent/src/core_ingress.rs:149-170 | A set reaches the Broker if and only if the descriptor is not empty, of a generation above 0, with valid credentials, strictly ascending groups and distinct loopback endpoints; it then carries exactly the descriptor. |
| CoreIngress.LateAnswersAreRefused | services/agent/src/core_ingress.rs:293-364 | Once the request of a generation is no longer pending - answered, aborted, revoked or lost with the Core - no later sequence of calls makes the coordinator accept an answer of that generation. |
| CoreIngress.TransitionExactly | services/agent/src/core_ingress.rs:174-258 | A transition is refused while one is pending or for a bad target list, not needed if the groups are served, and otherwise asks for the sorted distinct groups with fresh tokens under the next generation, while there is one. |
| CoreIngress.RevokeExactly | services/agent/src/core_ingress.rs:260-291 | A revoke asks for nothing under the next generation, while there is one; what was pending is dropped in any case. |
| CoreIngress.AnswersExactly | services/agent/src/core_ingress.rs:293-354 | An answer is accepted if and only if it is a well-formed success of this very request that binds each group, in order, to its own loopback endpoint, with a UDP endpoint exactly when there are groups. |
| CoreIngress.AcceptedHoldsWhatWasAsked | services/agent/src/core_ingress.rs:330-352 | Entry by entry an accepted descriptor holds the group, user name and password that were asked for and the endpoint that was answered, under the generation asked for. |
| CoreIngress.AbortedAndLost | services/agent/src/core_ingress.rs:356-363 | After an abort what is served counts as before; after the Core is lost nothing does, so the same groups are asked for again; neither takes back a generation. |
| CoreIngress.StrictIngressCoordinator.Abort | services/agent/src/core_ingress.rs:356-358 | Drops the pending request only. |
| CoreIngress.StrictIngressCoordinator.CoreLost | services/agent/src/core_ingress.rs:360-363 | Drops the pending request and the active descriptor; the generation stays. |
| StrictPolicyOrchestratorModule.StrictPolicyOrchestrator.Begin | services/agent/src/strict_flow.rs:69-103 | Phase, controller, coordinator and next action after begin: the step the run theorems are about. |
| StrictPolicyOrchestratorModule.StrictPolicyOrchestrator.RestoreDisable | services/agent/src/strict_flow.rs:105-111 | Phase, controller, coordinator and next action after restoring an interrupted disable: the step the run theorems are about. |
| StrictPolicyOrchestratorModule.StrictPolicyOrchestrator.BeginMigration | services/agent/src/strict_flow.rs:117-123 | Phase, controller, coordinator and next action after a migration: the step the run theorems are about. |
| StrictPolicyOrchestratorModule.StrictPolicyOrchestrator.AcceptBrokerProof | services/agent/src/strict_flow.rs:125-321 | Phase, controller, coordinator and next action after a Broker proof in every phase, the disable among them (EmptyProofConfirmsExactly): the step the run theorems are about. |
| StrictPolicyOrchestratorModule.StrictPolicyOrchestrator.AcceptPrepared | services/agent/src/strict_flow.rs:131-222 | Phase, controller, coordinator and next action after the proof that answers a prepare: the step the run theorems are about. |
| StrictPolicyOrchestratorModule.StrictPolicyOrchestrator.AcceptWhileActive | services/agent/src/strict_flow.rs:240-286 | Phase, controller, coordinator and next action after a proof received while active: the step the run theorems are about. |
| StrictPolicyOrchestratorModule.StrictPolicyOrchestrator.AcceptCoreResponse | services/agent/src/strict_flow.rs:323-384 | Phase, controller, coordinator and next action after a Core response in every phase: the step the run theorems are about. |
| StrictPolicyOrchestratorModule.StrictPolicyOrchestrator.ForceBlockingNow | services/agent/src/strict_flow.rs:386-401 | Phase, controller, coordinator and next action after forced blocking: the step the run theorems are about. |
| StrictPolicyOrchestratorModule.StrictPolicyOrchestrator.Disable | services/agent/src/strict_flow.rs:403-416 | Phase, controller, coordinator and next action after disable: the step the run theorems are about. |
| StrictPolicyOrchestratorModule.StrictPolicyOrchestrator.BrokerLost | services/agent/src/strict_flow.rs:418-425 | Phase, controller, coordinator and next action after a lost Broker: the step the run theorems are about. |
| StrictPolicyOrchestratorModule.StrictPolicyOrchestrator.Recover | services/agent/src/strict_flow.rs:427-444 | Phase, controller, coordinator and next action after recover: the step the run theorems are about. |
| StrictPolicyOrchestratorModule.StrictPolicyOrchestrator.RetryCoreRevoke | services/agent/src/strict_flow.rs:446-461 | Phase, controller, coordinator and next action after a repeated Core revoke: the step the run theorems are about. |
| OrchestratorRuns.PhaseAndControllerAgree | services/agent/src/strict_flow.rs:125-461 | Over all permitted runs, an armed proxy policy is active and the disabling flag is up exactly in the two disable phases. |
| OrchestratorRuns.OnlyDisableReachesIdle | services/agent/src/strict_flow.rs:125-384 | No proof and no Core response, however wrong, leads to Idle, except the response that completes a requested disable. |
| OrchestratorRuns.MigrationStrandsExactlyWhenRefused | services/agent/src/strict_flow.rs:117-123 | A migration leaves the orchestrator idle if and only if the new policy cannot begin: it goes Idle before it tries. |
| OrchestratorRuns.MigrationStrands | services/agent/src/strict_flow.rs:117-123 | For every block-only policy: begin, its proof, then a migration to an older policy leave the phase idle while the controller is still armed. |
| OrchestratorRuns.StepAgrees | services/agent/src/strict_flow.rs:69-461 | Every call keeps phase and controller in agreement. |
| OrchestratorRuns.ArmedProvesGuard | services/agent/src/strict_flow.rs:463-475 | Whatever proof arms the controller also proves the persistent guard. |
| OrchestratorMoves.BeginExactly | services/agent/src/strict_flow.rs:69-103 | A policy begins if and only if the phase is idle and the policy is valid, counts as an intent and may be taken up; it is then to be prepared. |
| OrchestratorMoves.RestoreExactly | services/agent/src/strict_flow.rs:105-111 | An interrupted disable is taken up again exactly where its policy could begin. |
| OrchestratorMoves.PreparedProofExactly | services/agent/src/strict_flow.rs:131-222 | Where each proof that answers a prepare leads, by what it says and by whether the policy has proxies and its groups are served already. |
| OrchestratorMoves.CommitProofExactly | services/agent/src/strict_flow.rs:223-239 | The same for a proof that answers a commit. |
| OrchestratorMoves.ActiveProofExactly | services/agent/src/strict_flow.rs:240-286 | The same while active: an armed proof keeps it so, a guarded one without forwarding leads to a new commit of the active set, any other heard one back to blocking. |
| OrchestratorMoves.BlockingProofExactly | services/agent/src/strict_flow.rs:287-312 | The same while blocking is awaited: on with the Core's revoke if and only if the guards stand, forwarding is off and a generation is left. |
| OrchestratorMoves.IngressAnswerExactly | services/agent/src/strict_flow.rs:329-356 | A Core answer leads to the commit of exactly the set it makes, if it makes one, and otherwise back to blocking. |
| OrchestratorMoves.RevokeAnswerExactly | services/agent/src/strict_flow.rs:357-364 | A Core answer to a revoke leaves the policy blocked if and only if it correlates. |
| OrchestratorMoves.CallsExactly | services/agent/src/strict_flow.rs:386-416 | In exactly which phases blocking can be forced, a disable asked for and a migration started, and what each then asks for. |
| OrchestratorMoves.LossExactly | services/agent/src/strict_flow.rs:418-425 | A lost Broker blocks the controller and, except while a prepare or a disable is under way, has blocking awaited. |
| OrchestratorMoves.RecoverExactly | services/agent/src/strict_flow.rs:427-461 | What recovery asks for in each phase. |
| StrictDisable.EmptyProofConfirmsExactly | services/agent/src/strict_flow.rs:292-315 | While a disable is awaited and a generation can be drawn, a proof confirms it if and only if its revision, digest, generation, capabilities, guard, marker and three health fields are all zero, empty or false; the Core is then asked for nothing. Any other proof changes nothing. |
| StrictDisable.RevokeSettlesExactly | services/agent/src/strict_flow.rs:365-383 | The Core's answer settles the disable if and only if it correlates with that request. |
| StrictDisable.DisableSettles | services/agent/src/strict_flow.rs:292-383 | After any permitted run that awaits the end of a disable, an empty proof and a correlated answer end idle and disabled within two pairs. |
| StrictDisable.DisableAnswersExactly | services/strict-broker/src/dispatch.rs:121-134 | With nothing failing, the Broker answers a disable with a proof if and only if it may disable that revision and the backend reports clean; it is then the empty proof, nothing is left and forwarding is off. |
| StrictDisable.StatusConfirmsExactly | services/agent/src/runtime.rs:818-850 | If only the answer to a disable was lost, a status confirms it just as well. |
| StrictDisable.DisableCompletes | services/agent/src/strict_flow.rs:403-416 | Agent, Broker and Core together: after any permitted run that left a policy active or blocked, any Broker that may disable it and whatever the Core serves, the disable and the components' own answers end with all three empty. |
| OrchestratorHistory.CommitsFollowGuards | services/agent/src/strict_flow.rs:125-238 | Every commit follows an accepted, not yet armed guard proof for its own revision and digest, with no Broker command in between. |
| OrchestratorHistory.RevokesFollowStop | services/agent/src/strict_flow.rs:287-321 | Every Core revoke follows a proof, accepted after the last commit, that forwarding is off. |
| OrchestratorHistory.CommitsAfterBlockingAreFresh | services/agent/src/strict_flow.rs:386-461 | Once the phase was AwaitBlocking, the next commit carries an ingress generation above every one issued before. |
| OrchestratorConvergence.PairProgress | services/agent/src/strict_flow.rs:427-460 | Every honestly answered request/reply pair lowers the phase's rank until the policy is active and armed. |
| OrchestratorConvergence.PairsSettle | services/agent/src/strict_flow.rs:427-460 | From rank n, at most n pairs lead to Active and Armed. |
| OrchestratorConvergence.RecoveryReachesArmed | services/agent/src/strict_flow.rs:427-460 | After any permitted run that left a proxy policy live and not being disabled, one recover and honest answers reach Active and Armed within five pairs. |
| StrictConvergence.RecoveryArmsBothSides | services/agent/src/strict_flow.rs:427-460 | Agent, Broker and Core together: after any permitted run of the Agent that left a proxy policy live, any run of the Broker that left it holding that policy, and whatever the Core still serves, one recover and the components' own failure-free answers end within five exchanges with the Agent active and armed, the Broker enforcing the policy with guards, redirects and a stored armed marker, and the Core serving the Agent's groups on their endpoints with its credentials. |
| StrictConvergence.TurnProgress | services/agent/src/strict_flow.rs:125-384 | Every exchange in which nothing fails lowers the rank on the way there. |
| StrictConvergence.AnswersAreHonest | services/strict-broker/src/dispatch.rs:74-140 | The Broker's own reply and the Core's own answer to each of the Agent's requests are the honest ones. |
| StrictConvergence.DispatchAnswers | services/strict-broker/src/dispatch.rs:74-140 | A Broker that holds the policy answers forced blocking, prepare and a proper commit with a proof the Agent takes, and ends blocked or armed accordingly. |
| StrictConvergence.RestartedBrokerHolds | services/strict-broker/src/lib.rs:764-826 | A restarted Broker that recovers without failure holds the stored policy, after every run that stored it and is not disabling it. |
| DriveAction.DriveStrictAction | services/agent/src/runtime.rs:759-894 | Which failures report a lost Broker, and where the drive ends, for every script of answers. |
| DriveAction.DriveEndsSafely | services/agent/src/runtime.rs:759-894 | However a drive ends, phase and controller agree on the live policy; a failed one leaves the Agent blocking, a finished one has nothing left for the Broker. |
| DriveAction.FailedDriveIsRecoverable | services/agent/src/runtime.rs:785-890 | After a failed drive, recover always has a next action while generations last. |
| DriveAction.DriveFollowsAnswers | services/agent/src/runtime.rs:759-894 | Every drive follows accepted answers as far as they go: it ends where the Broker's word is missing or refused, with what is settled, or with a Core request, which counts as sent if and only if the Core took it; every failure reports a lost Broker. |
| StrictConvergence.TurnAdvances | services/agent/src/strict_flow.rs:125-384 | One exchange in which nothing fails keeps Agent, Broker and Core matched: what is to be committed is what the Core serves. |
| ArmedSoundness.ArmedIsSound | services/agent/src/strict.rs:62-93 | Under any failures, crashes, lost, delayed and repeated replies: when the Agent is armed for a proxy policy, the proof that armed it was sent while the backend held guards and redirects of that revision and digest under a stored marker. |
| ArmedSoundness.ArmingProofIsEnforced | services/agent/src/strict.rs:62-93 | A proof that arms a proxy intent was sound when sent. |
| ArmedSoundness.OtherCallsNeverArm | services/agent/src/strict_flow.rs:323-461 | No call but an accepted proof leaves the Agent newly armed. |
| TargetGroups.AgentAndBrokerAgree | services/agent/src/core_ingress.rs:188-205 | The Agent's sort-and-dedup and the Broker's ordered set list the same groups in the same order. |
| TargetGroups.AscendingUnique | services/strict-broker/src/lib.rs:675-703 | A set of groups has only one strictly ascending listing. |
| TargetGroups.SortKeepsAscending | core/strict_ingress.go:265-272 | The Core's unstable sort leaves an ascending request as it is. |
| CoreSide.CoreKeepsAgentOrder | core/strict_ingress.go:265-272 | The Core's canonical order is the Agent's. |
| CoreSide.CoreAnswers | core/strict_ingress.go:850-948 | A healthy Core answers a buildable request for a newer generation with one endpoint per group in that order. |
| CoreSide.AgentAccepts | services/agent/src/core_ingress.rs:293-354 | The Agent accepts that answer and turns it into a valid Broker set: the same groups, each with the credentials of the session the Core serves and the endpoint it bound. |
| CoreSide.GroupsAgree | core/strict_ingress.go:265-334 | For every valid proxy policy the whole exchange succeeds and ends in the Broker's own ordered set of groups, with the user names, passwords and endpoints the Core's session serves. |
| CoreSide.AcceptedExactlyWhenServed | services/agent/src/core_ingress.rs:293-354 | Whatever request the Core answered, the Agent accepts the answer if and only if the Core now serves, for the pending generation, the pending groups in their order on distinct endpoints, and then holds those endpoints with the credentials asked for; otherwise only the pending request is dropped. |
| CoreSide.AnswersAreServed | core/strict_ingress.go:850-948 | Whatever the Core is asked, it answers with the session it then serves, groups in the stored order, or with nothing served. |
| CoreSide.ConfigureExactly | core/strict_ingress.go:850-948 | Every answer of the Core, by what it finds: refused without an effect, everything taken down, the same answer again, or a new session with one endpoint per group. |
| CoreSide.AcceptedIsServed | services/agent/src/core_ingress.rs:330-352 | If the request served is the one the Agent waits for, what it accepts is what is served, credentials included. |
| Catalog.CatalogLifetime | core/catalog.go:280-586 | For every interleaving: each entry's proxies are closed at most once, only when retired, built and unreferenced, never while a test holds them; the resource count equals the entries not yet released and stays at most 3; nothing is mapped while strict-blocked or stopped; closed owners have no entry; an idle built entry always has its expiry armed; and once no close is outstanding, exactly the unused entries are closed and released. |
| Catalog.StepKeeps | core/catalog.go:280-586 | Every critical section keeps the catalog invariant. |
| Catalog.RunIsLater | core/catalog.go:302-312 | An entry stays retired and an owner closed, over every run. |
| Catalog.ClosedOwnerStaysOut | core/catalog.go:465-479 | After an owner is closed no run gives it an entry again, and its preparations are refused. |
| Catalog.UncontendedPrepareStarts | core/catalog.go:354-397 | A preparation nobody races starts at its second attempt at the latest: its victim is closed and released before it tries again. |
| CatalogEffects.PrepareRefusesExactly | core/catalog.go:354-367 | A preparation is refused for a closed session or a stopping Core, then in strict mode, if and only if that is so; a refusal changes nothing. |
| CatalogEffects.PrepareDecidesExactly | core/catalog.go:368-397 | Otherwise it is overloaded if and only if its own entry is building or in use, or the key is new, three are reserved and no mapped entry is idle; it evicts its own idle entry, or at capacity one used least recently, and starts exactly for a new key with a reservation left. |
| CatalogEffects.LonePreparationStarts | core/catalog.go:354-397 | A preparation nobody races and nothing refuses has started by its second attempt, its victim closed and released in between. |
| CatalogEffects.BuildKeepsExactly | core/catalog.go:408-428 | A build is kept if and only if nothing blocked, closed or retired it meanwhile. |
| CatalogEffects.BuildRefusalRetires | core/catalog.go:408-428 | One that is not kept is retired and handed out to be closed; nothing else changes. |
| CatalogEffects.ExpiryRetiresExactly | core/catalog.go:314-322 | An expiry retires its entry if and only if that is mapped, unused and 600 seconds old. |
| CatalogEffects.ReleaseRetiresExactly | core/catalog.go:441-451 | A release retires exactly the entry of its key. |
| CatalogEffects.OwnerGoneRetiresExactly | core/catalog.go:465-479 | Closing an owner retires exactly its live entries and remembers it. |
| CatalogEffects.ClearRetiresExactly | core/catalog.go:483-495 | Clearing retires every live entry, and stops new ones only when shutting down. |
| CatalogEffects.ResumeRetiresNothing | core/catalog.go:497-498 | Resuming only lifts the stop. |
| CatalogEffects.StrictBlockRetiresExactly | core/catalog.go:501-513 | Entering strict mode retires every live entry; leaving it only lifts the block. |
| CatalogEffects.LookupFindsExactly | core/catalog.go:558-574 | A test gets a live entry and one reference on it, unless strict mode blocks, the entry is retired or its context has ended, in this order. |
| CatalogEffects.ReturnGivesExactly | core/catalog.go:575-585 | A reference given back makes the entry used now; the last one arms its expiry or hands a retired entry out to be closed. |
| CatalogEffects.CloseReleasesExactly | core/catalog.go:280-292 | Closing the proxies and then releasing the reservation each do that and no more. |
| CatalogTableModule.CatalogTable.RetireLocked | core/catalog.go:302-312 | The whole table after retiring one entry: exactly the step the lifetime theorem is about. |
| CatalogTableModule.CatalogTable.RetireMatching | core/catalog.go:471-475 | The whole table after retiring every matching entry, in a loop over the map: exactly the step the lifetime theorem is about. |
| CatalogTableModule.CatalogTable.TryPrepare | core/catalog.go:358-397 | The whole table after one attempt of a preparation, eviction included (PrepareDecidesExactly): exactly the step the lifetime theorem is about. |
| CatalogTableModule.CatalogTable.FinishBuild | core/catalog.go:408-428 | The whole table after the end of a build: exactly the step the lifetime theorem is about. |
| CatalogTableModule.CatalogTable.ExpireEntry | core/catalog.go:314-322 | The whole table after an expiry: exactly the step the lifetime theorem is about. |
| CatalogTableModule.CatalogTable.ReleaseCatalog | core/catalog.go:441-451 | The whole table after a release: exactly the step the lifetime theorem is about. |
| CatalogTableModule.CatalogTable.CloseCatalogOwner | core/catalog.go:465-479 | The whole table after closing an owner: exactly the step the lifetime theorem is about. |
| CatalogTableModule.CatalogTable.ClearCatalogs | core/catalog.go:483-495 | The whole table after clearing: exactly the step the lifetime theorem is about. |
| CatalogTableModule.CatalogTable.SetBlocked | core/catalog.go:501-513 | The whole table after a strict-block change: exactly the step the lifetime theorem is about. |
| CatalogTableModule.CatalogTable.LookUp | core/catalog.go:558-574 | The whole table after a test's lookup: exactly the step the lifetime theorem is about. |
| CatalogTableModule.CatalogTable.ReturnReference | core/catalog.go:575-585 | The whole table after giving a reference back: exactly the step the lifetime theorem is about. |
| CatalogTableModule.CatalogTable.FindVictim | core/catalog.go:375-385 | Finds a least recently used entry that is neither building nor in use, if and only if there is one. |
| DelayTasks.DelayTaskSafety | core/delay_tasks.go:120-224 | For every interleaving: one response per finished request and none before, slots counted exactly and at most 150, never both history-committed and cancelled, a cancelled one answers with its reason; when all are done no slot, table entry or catalog reference is left. |
| DelayTasks.StepKeeps | core/delay_tasks.go:26-224 | Every critical section keeps the invariants of the test table and the catalogs together. |
| DelayTasks.CancelDecidesTheResponse | core/delay_tasks.go:54-66 | If cancel says true, over every later run the response is -1 with the first reason ever given. |
| DelayTasks.CommitDecidesTheResponse | core/delay_tasks.go:26-33 | After a history commit cancel says false for good, and the measured answer is the response even if the deadline passes meanwhile. |
| DelayTasks.EndingIsComplete | core/delay_tasks.go:152-176 | After an owner is closed or a catalog released, cleared or strict-blocked: whenever the catalog lock is free every registered test it ends is cancelled or committed, and no later one can register. |
| DelayTasks.EndingIsQueued | core/catalog.go:441-513 | Whatever a catalog step ends, it still has to cancel before it lets go of the lock. |
| DelayTasks.RequestsProgress | core/delay_tasks.go:180-223 | With the catalog lock free every unfinished request can take a step of its own that brings it closer to its response. |
| DelayTasks.SomeStepProgresses | core/delay_tasks.go:82-223 | Some step brings every unfinished request closer to its response even while the catalog lock is held. |
| DelayTasks.RequestsFinish | core/delay_tasks.go:82-223 | From every reachable state every request can reach its response within the outstanding cancellations and its own steps, without any other request moving. |
| DelayResponses.EveryResponseIsExplained | core/delay_tasks.go:136-223 | Over every run a finished request has exactly one response and its own steps explain it: no slot, a refused registration with the catalogs' reason, or the decision, which puts the first cancellation first, then a passed deadline unless history was committed, and otherwise what was found: the measured delay, testFailed for none, or why the proxy was missing. |
| DelayCancels.EveryCancelHasItsCause | core/delay_tasks.go:54-94 | Over every run a request is cancelled only by a step that names its key, cancels all, or carries out what an earlier change of the catalogs asked for its owner or entry, with that reason, while it was registered and uncommitted; its context has ended otherwise only by its deadline. |
| DelayCancels.CancelKeyExactly | core/delay_tasks.go:54-66 | A cancel says true if and only if a test of that key is registered and uncommitted, and then cancels that one and no other. |
| DelayCancels.CancelAllExactly | core/delay_tasks.go:68-70 | Cancelling all hits exactly the registered uncommitted tests. |
| DelayCancels.CancelMatchingExactly | core/delay_tasks.go:72-94 | Cancelling by owner or catalog hits exactly those of that owner or catalog. |
| DelayCancels.CommitsExactly | core/delay_tasks.go:26-33 | The history is committed if and only if the test is not cancelled and its context has not ended. |
| DelayTaskTableModule.DelayTaskTable.TryAdmit | core/delay_tasks.go:136-142 | The whole table of tests after admission: exactly the step the run theorems are about. |
| DelayTaskTableModule.DelayTaskTable.RegisterTask | core/delay_tasks.go:152-176 | The whole table of tests after registration: exactly the step the run theorems are about. |
| DelayTaskTableModule.DelayTaskTable.BeginHistoryCommit | core/delay_tasks.go:26-33 | The whole table of tests after a history commit: exactly the step the run theorems are about. |
| DelayTaskTableModule.DelayTaskTable.Complete | core/delay_tasks.go:207-214 | The whole table of tests after the completion decision, which EveryResponseIsExplained is about: exactly the step the run theorems are about. |
| DelayTaskTableModule.DelayTaskTable.CancelOwned | core/delay_tasks.go:54-66 | The whole table of tests after cancelling one request: exactly the step the run theorems are about. |
| DelayTaskTableModule.DelayTaskTable.CancelMatchingTasks | core/delay_tasks.go:82-94 | The whole table of tests after cancelling every matching request, in a loop over the table: exactly the step the run theorems are about. |
| ReplayWindow.BothDecideAlike | core/strict_ingress.go:677-706 | After any history of 64-bit numbers, Go and Swift accept the same next number: exactly a positive one never accepted before that is above the highest or less than 64 below it; and bit i is set if and only if highest-i was accepted. |
| ReplayWindow.StepsAgree | macos/StrictProxy/StrictSOCKSConnection.swift:265-280 | One step of both implementations is the same step on the set of accepted numbers. |
| ReplayWindow.NeverTwice | core/strict_ingress.go:677-706 | An accepted number is never accepted again, whatever comes between. |
| ReplayWindow.CountingIsAccepted | macos/StrictProxy/StrictSOCKSConnection.swift:259-264 | Numbers counted up by the sender are all accepted, whatever was lost. |
| ReplayWindow.StrictUdpReplayWindow.Accept | core/strict_ingress.go:677-706 | Accepts exactly what the set of accepted numbers allows and then stands for the larger set. |
| ReplayWindow.SwiftSequences.AcceptUdpSequence | macos/StrictProxy/StrictSOCKSConnection.swift:265-280 | The same for the Swift window. |
| ReplayWindow.SwiftSequences.NextUdpSequence | macos/StrictProxy/StrictSOCKSConnection.swift:259-264 | Counts up from 1 and stops at the largest 64-bit number instead of wrapping. |
| UdpFrame.OutboundRoundTrip | core/strict_ingress.go:502-623 | The Core takes a frame the Mac endpoint sent if and only if it forwards to that destination and the association is not all zeros, and then sees the same lower-cased name or address, port and payload. |
| UdpFrame.OnlyOneFrame | core/strict_ingress.go:508-562 | A frame taken for an address is byte for byte the one the Mac endpoint builds for that datagram. |
| UdpFrame.InboundRoundTrip | macos/StrictProxy/StrictSOCKSConnection.swift:194-218 | Every answer the Core frames is genuine to its endpoint and decodes to the same source, port and payload. |
| UdpFrame.DirectionsDiffer | core/strict_ingress.go:508-514 | Even under one shared key no frame the Mac endpoint builds is genuine to any endpoint, and no answer the Core builds parses at any service. |
| UdpFrame.ZeroAssociationIsLost | core/strict_ingress.go:533-540 | For every datagram the Core forwards: it arrives under any other association identifier and is lost under the all-zero one. |
| UdpFrame.ReadWritten | macos/StrictProxy/StrictSOCKSConnection.swift:169-180 | Reading the 80-byte header gives back every field written. |
| UdpFrame.WrittenRead | core/strict_ingress.go:508-545 | Writing the fields read gives back the header's bytes. |
| Bytes.NumberOfBigEndian | macos/StrictProxy/StrictSOCKSConnection.swift:253-258 | A number survives being written and read in as many bytes as it fits. |
| Bytes.Put | macos/StrictProxy/StrictSOCKSConnection.swift:253-255 | Writes the low bytes of a number highest first and nothing else. |
| DomainNames.ValidStrictUdpDomain | core/strict_ingress.go:628-641 | Accepts exactly the names of section 2.3.4 of RFC 1035 cut to letters, digits and hyphens, at most 253 bytes, labels of 1 to 63 not edged by hyphens, not all numeric - stated without splitting. |
| DomainNames.UdpDomain | macos/StrictProxy/StrictSOCKSConnection.swift:232-252 | Accepts exactly the same names and lower-cases them. |
| DomainNames.LabelsDescribe | core/strict_ingress.go:632-640 | Checking label by label is the same as checking the name as a whole. |
| UdpEndpoints.ParseFrame | core/strict_ingress.go:502-563 | The checks in the Core's order amount to the specified parse. |
| UdpEndpoints.StrictUdpIngressService.HandleDataFrame | core/strict_ingress.go:502-623 | Table and delivery after one frame: parsed, bound to its association, replay-checked, and delivered if a slot is free. |
| UdpEndpoints.StrictUdpIngressService.SweepAssociations | core/strict_ingress.go:708-716 | Drops exactly the associations idle for 90 seconds. |
| UdpEndpoints.StrictUdpIngressService.WriteBack | core/strict_ingress.go:722-764 | Frames an answer exactly for an open service, a live association and a safe source, under the next response number; the number is spent even if the socket fails, the association counts as used only if it does not, and the number that would wrap closes it. |
| UdpEndpoints.StrictSocksConnection.SendDatagram | macos/StrictProxy/StrictSOCKSConnection.swift:153-184 | Sends exactly the specified frame, filled in place, and spends a sequence number only on what it sends. |
| UdpEndpoints.StrictSocksConnection.ReadDatagram | macos/StrictProxy/StrictSOCKSConnection.swift:185-219 | Delivers exactly genuine frames with an acceptable number and a decodable source; the number is spent before the source is looked at. |
| UdpAssociations.DeliveredOnce | core/strict_ingress.go:564-593 | While an association lives no sequence number of it is delivered twice, and only the key and source that opened it are delivered from. |
| UdpAssociations.TableIsBounded | core/strict_ingress.go:565-571 | The table never exceeds 1024 associations. |
| UdpDelivery.SentIsDelivered | core/strict_ingress.go:502-623 | From the Mac endpoint's call to the Core's tunnel, a datagram arrives unchanged if and only if its association takes the number, the Core forwards to the destination and a packet slot is free. |
| UdpDelivery.AdmitsExactly | core/strict_ingress.go:564-593 | Which datagrams an association takes, and the table afterwards: only a new association at a full table drops the idle ones; an admitted datagram spends its number and makes its association used now. |
| UdpDelivery.HandlesExactly | core/strict_ingress.go:502-623 | The same from the bytes of a frame; without a free slot the number is spent but nothing delivered. |
| UdpDelivery.InUseStays | core/strict_ingress.go:708-716 | An association used stays listed for 90 seconds, whatever arrives meanwhile. |
| UdpDelivery.SweepDropsExactly | core/strict_ingress.go:708-716 | A sweep drops exactly what was idle for longer. |
| UdpDelivery.SeriesIsDelivered | core/strict_ingress.go:564-623 | A whole series on a living association is delivered, each datagram once and in the order of arrival, even if the network reordered it by up to 63 places. |
| UdpDelivery.FramesStartExactly | macos/StrictProxy/StrictSOCKSConnection.swift:160-184 | Frames of either direction are 112 bytes longer than what they carry, start with FCXD, a version that tells names from addresses and the direction, and say at byte 56 what kind of address follows; an answer's source is an IPv4 address even in IPv6 clothing. |
| UdpDelivery.NameFramesAreSigned | core/strict_ingress.go:508-562 | A frame the Core takes for a name carries that name in some spelling and its key's tag over every byte. |
| UdpDelivery.OnlyOneAnswer | macos/StrictProxy/StrictSOCKSConnection.swift:185-219 | An answer the Mac endpoint takes is byte for byte the frame of that answer under its own key, generation and association. |
| CoreOutput.BytesAreConserved | core/server_output.go:42-174 | Under any interleaving of senders, writer and close, the byte count is what is reserved, queued or being written, stays within 4 MiB, and is 0 when the writer has finished. |
| CoreOutput.WireIsWholeFramesInOrder | core/server_output.go:133-174 | The connection carries whole queued frames in order, each one line of at most 1 MiB, then at most a piece of the next. |
| CoreOutput.NothingAfterTheEnd | core/server_output.go:135-145 | Once the writer has stopped, not a byte more reaches the connection. |
| CoreOutput.SendersLeave | core/server_output.go:86-131 | After a close every sender gets to leave, so the writer gets to drain. |
| CoreOutput.StepKeeps | core/server_output.go:42-174 | Every atomic step keeps conservation, order, bounds and shutdown order. |
| CoreOutput.WriteFrame | core/server_output.go:150-166 | Writes until nothing remains or a write fails or takes nothing: the whole frame if and only if the connection takes all of it, else what it took and a failure. |
| OutputDelivery.EntryExactly | core/server_output.go:56-107 | A send gets in while the output is open; a stream message is dropped if and only if fewer than 33 queue places are left. |
| OutputDelivery.ReservationExactly | core/server_output.go:66-131 | A frame is reserved if and only if it has at most 1 MiB and the output then holds at most 4 MiB; else a stream message is dropped and a reliable one has the connection closed. |
| OutputDelivery.EndOfSendExactly | core/server_output.go:86-131 | A reserved frame joins the queue's end or gives its bytes back. |
| OutputDelivery.QueueReachesTheWire | core/server_output.go:133-174 | From every reachable state with the writer alive, everything queued can reach the wire. |
| OutputDelivery.MessageReachesTheWire | core/server_output.go:86-174 | From every reachable open state with room, a message can reach the wire whole, with its newline, after everything queued before it. |
| MenuOwnership.BuildMenu | plugins/tray_manager/windows/tray_menu.h:67-99 | Builds exactly the described tree as one new live menu, or, on any failing create or append at any depth, leaves the platform's menus as they were; it fails only with a call that failed, at the first one, and reports its kind and error. |
| MenuOwnership.AddSubmenu | plugins/tray_manager/windows/tray_menu.h:78-96 | One submenu more, or everything undone: the parent first, then the child it never got. |
| MenuOwnership.OwnedMenu.TakeFrom | plugins/tray_manager/windows/tray_menu.h:32-38 | Move assignment destroys what was owned and takes over what the other owned. |
| MenuOwnership.OwnedMenu.Reset | plugins/tray_manager/windows/tray_menu.h:47-52 | Destroys what is owned, once. |
| TrayMenu.EveryMenuHasOneEnd | plugins/tray_manager/windows/tray_menu.h:101-153 | Over any run every menu handed in is either destroyed exactly once or still owned. |
| TrayMenu.TrackedMenuStays | plugins/tray_manager/windows/tray_menu.h:117-128 | From BeginTracking to EndTracking the tracked menu stays current and is not destroyed. |
| TrayMenu.NothingOutlives | plugins/tray_manager/windows/tray_menu.h:26-28 | From construction to destruction every menu handed in is destroyed exactly once. |
| TrayMenu.DisposedShowsNothing | plugins/tray_manager/windows/tray_menu.h:139-153 | From Dispose on nothing is shown but a menu that was being tracked, until its tracking ends; whatever is handed in later is never shown. |
| TrayShows.ShowsTheLatest | plugins/tray_manager/windows/tray_menu.h:101-153 | Over every run the menu last handed in is shown, or none once cleared or disposed: at once, or as soon as tracking ends. |
| TrayShows.TracksExactly | plugins/tray_manager/windows/tray_menu.h:117-128 | A menu is tracked if and only if some BeginTracking found one to show and no EndTracking came since. |
| TrayMenu.MenuLifetime.DestroyMenus | plugins/tray_manager/windows/tray_menu.h:130-147 | The destructor destroys the pending menu and then the one on show, and nothing else. |
| TrayMenu.MenuLifetime.SwapMenu | plugins/tray_manager/windows/tray_menu.h:107-115 | State, destroyed handles and live menus after a replacement or a clear. |
| TrayMenu.MenuLifetime.ReplaceMenu | plugins/tray_manager/windows/tray_menu.h:148-152 | State, destroyed handles and live menus after a replacement, which a disposed lifetime refuses. |
| TrayMenu.MenuLifetime.DisposeMenus | plugins/tray_manager/windows/tray_menu.h:144-147 | State, destroyed handles and live menus after a dispose. |
| TrayMenu.MenuLifetime.BeginTrackingMenu | plugins/tray_manager/windows/tray_menu.h:117-121 | State, destroyed handles and live menus after the start of tracking. |
| TrayMenu.MenuLifetime.EndTrackingMenu | plugins/tray_manager/windows/tray_menu.h:122-128 | State, destroyed handles and live menus after the end of tracking. |
| ReplayJournal.JournalIsTheHistory | services/agent/src/journal.rs:16-86 | Over any run the journal holds, of the accepted lines, the latest per key, less only the least recently recorded groups and only when 128 others fill it; the group order is exactly the retained groups without repeats, at most six keys are not groups, and pending lines and their order agree and stay within 128. |
| ReplayJournal.StoreRefines | services/agent/src/journal.rs:64-86 | One record keeps that. |
| ReplayJournal.StepKeepsPending | services/agent/src/journal.rs:16-62 | Staging, committing and discarding keep the waiting lines and their order in agreement. |
| ReplayJournal.ReplayOrderIsUnique | services/agent/src/journal.rs:88-105 | There is only one replay order of the same keys. |
| ReplayJournal.RunKeepsKeys | services/agent/src/journal.rs:64-86 | Every retained line parses to an action of its own key, so none is lost at replay. |
| ReplayJournal.ReplayIdsDiffer | services/agent/src/journal.rs:97-104 | No two replayed lines share an identifier. |
| AgentJournal.ReplayJournal.StageLine | services/agent/src/journal.rs:16-36 | The maps and queues after staging a request. |
| AgentJournal.ReplayJournal.CommitLine | services/agent/src/journal.rs:38-57 | The maps and queues after a response. |
| AgentJournal.ReplayJournal.DiscardStaged | services/agent/src/journal.rs:59-62 | The maps and queues after a discard. |
| AgentJournal.ReplayJournal.RecordText | services/agent/src/journal.rs:64-86 | The maps and queues after a record. |
| AgentJournal.ReplayJournal.ReplayLines | services/agent/src/journal.rs:88-105 | Lists every retained entry once, in rank order, each under a new identifier. |
| JournalStaging.StageExactly | services/agent/src/journal.rs:16-36 | A staged line waits under its identifier in place of an older one; only when 128 others wait is the one that waited longest dropped. |
| JournalStaging.ConfirmedIsRecorded | services/agent/src/journal.rs:38-57 | A staged action whose response comes before 128 more are staged, with nothing else under its identifier meanwhile, is recorded by that response if and only if the response confirms it. |
| JournalStaging.RecordedWasConfirmed | services/agent/src/journal.rs:38-57 | After any run a response records nothing but a line staged under the identifier it answers, not answered, restaged or discarded since, that it confirms. |
| JournalStaging.ConfirmsExactly | services/agent/src/journal.rs:129-145 | What confirms: success of the same method, for a configuration with an empty text or true, for the listener with true. |
| JournalReplays.ReplayableExactly | services/agent/src/journal.rs:147-173 | Which lines are replayable at all. |
| JournalReplays.ReplacesExactly | services/agent/src/journal.rs:147-173 | A later line replaces an earlier one if and only if their methods share a place and, for proxy choices, they name the same group. |
| JournalReplays.ReplayFollowsPlaces | services/agent/src/journal.rs:175-186 | What is replayed earlier has the lower place; proxy choices follow their groups. |
| JournalReplays.ReplayKeepsAction | services/agent/src/journal.rs:97-104 | A replayed line is the retained action under its new identifier, with the same key. |
| JournalReplays.RestoredReplaysTheSame | services/agent/src/mac_strict_replay.rs:58-96 | A replay that is stored and recorded line by line into a new journal rebuilds it - the same keys, each with its action - and that journal replays the very same lines. |
| JournalReplays.ListenerIsTheLatest | services/agent/src/journal.rs:115-123 | Over every run the journal says of the listener what its latest accepted action said. |
| LineFraming.ReadLineBytewise | services/agent/src/runtime.rs:2301-2321 | The first line of the stream of at most the bound, or the same failure as the buffered reader. |
| LineFraming.ReadBoundedLine | services/agent/src/runtime.rs:2323-2348 | The same for the buffered reader, whatever the chunks. |
| LineFraming.LinesAreFirstAndWhole | services/agent/src/runtime.rs:2301-2348 | A line is read if and only if it is the first of the stream, whole, valid text and within the bound. |
| LineOutcomes.BoundedRefusesExactly | services/agent/src/runtime.rs:2301-2348 | When a bounded read answers too long, broken, ended or cut off: each by the bytes and the end of the stream alone. |
| LineOutcomes.BoundedNotTextExactly | services/agent/src/runtime.rs:2301-2348 | A line that is whole and short enough is refused if and only if it is no text. |
| LineFraming.ConsumeIsChunkIndependent | services/shared/core_output.rs:22-35 | Cutting a line differently changes nothing: its first 16384 bytes are kept and it counts as truncated exactly when it was longer. |
| LineFraming.LogLine.Consume | services/shared/core_output.rs:22-35 | Consumes up to the first newline and keeps what fits. |
| LineFraming.LogLine.Finish | services/shared/core_output.rs:37-52 | The kept bytes without a final carriage return; nothing if nothing was seen. |
| LineFraming.ReadCoreOutputLine | services/agent/src/runtime.rs:2101-2109 | The next log line, the end, or the error, as the bytes alone decide. |
| LineFraming.LogCoreOutput | services/agent/src/runtime.rs:2081-2099 | The log lists exactly the stream's lines. |
| LineFraming.LogShowsEveryLine | services/shared/core_output.rs:20-52 | Every line appears with at most its first 16384 bytes, marked truncated exactly when it was longer. |
| LineOutcomes.EntryExactly | services/shared/core_output.rs:20-52 | What is logged of a line: its first 16384 bytes, less a carriage return at their end. |
| LineOutcomes.LastLineExactly | services/shared/core_output.rs:20-52 | Of the bytes after the last newline the log shows a line if and only if there are any and the stream was closed, not broken. |
| LineOutcomes.WholeLineIsLogged | services/agent/src/runtime.rs:2101-2109 | A line its newline ends is logged however the stream goes on or ends. |

## Left out

- Windows Filtering Platform, driver, Keychain, DPAPI, code signing and Network Extension calls: foreign; the Broker's three traits are modelled by their documented contracts.
- The recovery file's own format and atomic replacement (services/strict-broker/src/recovery_file.rs): the store is atomic, as its trait demands.
- The endpoint lease that a fail-closed teardown revokes before it deactivates (services/strict-broker/src/windows_host.rs:386-393): a second gate of the driver, not part of this model.
- JSON, HMAC-SHA-256, SHA-256 digests and text decoding: functions given as parameters; the message code is any function of key and message, and policy digests any function of the policy. Lossy text decoding of log lines is not modelled; they are compared as bytes.
- Identity well-formedness and the spelling of target groups: one abstract predicate each, shared by Agent, Core and Broker. That the three spelling rules coincide is not part of this model.
- Fixed UDP and TCP ports and restored ingress intents on macOS (core/strict_ingress.go:959-977): not part of this model; the Core binds whatever endpoints it is given.
- Message size bounds of ingress requests: a flag of the draw says whether the encoded line fits.
- Timeouts and clocks: a timeout is a lost reply, a failed call or a deadline step that may come at any time; times are numbers passed in.
- Network reads and the Core's proxy construction, URL tests, listeners and DNS resolution: opaque; a test ends with any delay, a listener binds any endpoint or none.
- Health and DNS frames of the UDP service (core/strict_ingress.go:436-500): a smaller copy of the data frame's checks.
- The error codes of the Windows forwarding canary (services/strict-broker/src/dispatch.rs:184-192): a failed measurement is reported as on every other build.
- The stream broadcast of legacy delay results and the log texts: output without effect on the state.
- Aliasing of catalog entries, delay tasks and associations: the sources hold pointers, the model numbers them; a late answer on a replaced association is told apart by its serial number.
- Between two catalog steps that retire several entries, the model retires all at once and then cancels one by one while the lock is held; the source alternates. No other step can see the difference, since all that look at the catalogs need the same lock.
- Limits of the Go and C++ integer types other than the 64-bit sequence numbers and generations: counters that stay small by proof are unbounded numbers.
- `core/retired_resource.go`, `core/context_mutex.go`, `services/agent/src/strict_retry.rs`: smaller versions of what is proved here.
- User interface, runners, release scripts and Flutter plugins other than the tray menu's ownership.
- ReplayWindow.BothDecideAlike: states one association's lifetime; a swept association that comes back starts with an empty window, in the source as in the model.
