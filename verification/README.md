# Verified model of the BrainRouter desktop runtime

BrainRouter's desktop application runs several agent sessions in one host process, dials providers
from the user's own network on the server's behalf, and keeps a few caches in step with files and a
server. This project models the parts of it whose correctness depends on interleavings, on exact
arithmetic, or on a fast form agreeing with a simple one, and proves what they promise.

`dafny verify dfyconfig.toml` checks everything.

## What is modelled

**The session host** (`HostModel`, `HostInvariants`, `HostSteps`, `HostConversations`, `HostQueue`,
`HostInputs`, `HostCheckpoints`, `HostRuns`, `HostFence`, `HostTasks`, `HostOrigins`, `HostDelivery`,
`HostResume`, `HostLifecycle`, `HostExamples`, `HostCore`, `DrainRegistry`, `HostDrains`). The code between
two awaits runs to completion, so each such stretch is one step of a transition system; every promise
the host waits for is an event that may arrive in any order and at any time. Theorems about runs range
over all finite event sequences. `HostCore.SessionHost` is the host as an object with the source's own
variables; its methods update the fields in place and are proved to take exactly the steps of the
transition system, so the theorems are about it. `DrainRegistry` models the three registries of
session-end checkpoints and the loop that waits for them; `HostDrains` shows that the one set of pending
checkpoints in the host model is what those registries hold.

**The edge dial guard** (`BitWords`, `AddressText`, `Ipv4Blocks`, `Ipv6Text`, `EdgeDialGuard`). The
signed 32-bit operators of JavaScript are written out on integers. The IPv6 parser is compared with the
text forms of section 2.2 of RFC 4291, the CIDR test with integer intervals (section 3.1 of RFC 4632),
and the embedded addresses with section 2.5.5 of RFC 4291 and section 2.1 of RFC 6052.

**One edge dial** (`EgressDial`, `EdgeDialHandler`). A four-state protocol over racing socket, timer and
vetting events, and the loop that cuts provider chunks into relay frames.

**Fast forms against simple ones** (`WorkspaceListing`, `ExtractionCache`, `DashboardQueries`,
`ThreadMerge`, `HostPoolPolicy`). The bounded worklist against recursive descent, incremental against
fresh extraction, the stale-while-revalidate cache, the thread merge, and the reaping of idle hosts over
timed histories.

Indices stand for object identities: a runtime and its agent share one index in an append-only sequence,
and so do continuations, cache entries and fetches. A spawned or replaced agent is a new index with an
empty history. A reviewed launch is identified by the continuation that awaited its issuer, and a running
turn records which transcript was loaded for it.

## Findings

Some promises do not hold in every interleaving. Each is stated with the exact condition under which
the code does keep it.

1. A runtime that is reused for another session keeps its input queue, so a follow-up accepted for one
   session can run as a prompt of another (`HostExamples.PromptRunsAbroad`). A step does this exactly
   when it retargets a runtime that still holds inputs (`HostInputs.StepAddressedExactly`,
   `HostRuns.AtHomeExactly`).
2. The input queue holds 100 entries and throws when it is full. The loop over leftover steers at turn
   end then stops: the remaining steers are lost and the rest of the turn's end is skipped, exactly when
   the queue cannot hold them all (`HostInputs.RouteCompletes`, `HostInputs.OverflowSkipsTheRest`).
3. A resumed session's history is loaded at its first turn. When its transcript is gone by then, the turn
   starts from whatever the reused agent still remembers (`HostExamples.ConversationLeaks`), and only then:
   `HostRuns.TurnStartsOwnExactly` says it of each turn and `HostRuns.MemoriesApartExactly` of whole runs.
4. The viewed session loses its runtime in exactly two failures: restoring the target's model throws after
   the runtime left the pool, or no replacement agent can be built (`HostQueue.StepViewed`,
   `HostRuns.ViewedExactly`).
5. The fence check after the latch is taken can never fail (`HostFence.SecondFenceHolds`).
6. A dial whose `tcpConnect` throws stays in its dialing phase with no timer and no reply until the relay
   ends (`EgressDial.ThrowingConnectStrands`); a socket that merely closes before connecting is torn down
   without a reply (`EgressDial.SilentCloseExactly`).
7. A workspace with exactly as many files as the limit is reported as truncated although nothing is
   missing (`WorkspaceListing.ListWorkspaceFiles`).
8. A workspace with the empty root never gets its idle clock started when it is left, so its time to live
   runs from its last activation and not from its last view (`HostPoolPolicy.EmptyRootReapedEarly`,
   `HostPoolPolicy.ReapsExactly`).
9. An extension result published while a tenant switch has emptied the pool is not delivered to the
   replacement, and still waits once that is pooled and viewed (`HostExamples.ResultLeftWaiting`). This is
   the only way a pooled session can have a result waiting
   (`HostLifecycle.StepDeliversExactly`, `HostLifecycle.DeliveredExactly`).

## Model

| member | source | states |
|---|---|---|
| HostFence.FenceInEveryRun | brainrouter-desktop/electron/hostCore.ts:712-784 | From any freshly created host and in any order of events before and after: `runTurn` gets an execution intent only if the sole authority event since its capture is the launch's own reservation; no mutation was outstanding at any moment in between, and the viewed session and its agent are the captured ones in every intermediate state, so an A-B-A switch is excluded |
| HostOrigins.EveryIntentIsFenced | brainrouter-desktop/electron/hostCore.ts:712-784 | In every run of a freshly created host every running turn that carries an intent runs the very prompt that was reviewed: one review captured exactly its intent, after that its issuer returned a handle and an allowed policy check called it; in between nobody interrupted, revoked or submitted a mutation, only the launch's own reservation touched the authority, and at every point the viewed session kept its agent |
| HostOrigins.RefusedIntentNeverRuns | brainrouter-desktop/electron/hostCore.ts:755-776 | Over every run: once the issuer of a review refused, no continuation carries that review's launch, whatever follows |
| HostOrigins.EveryReviewIsCarriedOnce | brainrouter-desktop/electron/hostCore.ts:757-784 | Over every run at most one continuation carries a review, so a reviewed launch runs at most once at a time |
| HostOrigins.EveryLaunchWasIssued | brainrouter-desktop/electron/hostCore.ts:755-784 | Over every run a launch carried past its issuer was captured by some `startReviewedExecution` of that run with its own prompt, and its issuer returned a handle after that |
| HostOrigins.EveryReviewWasCaptured | brainrouter-desktop/electron/hostCore.ts:712-755 | Over every run a review that awaits its issuer was captured by an event of that run, with that event's prompt for the session viewed then |
| HostOrigins.StepOrigin | brainrouter-desktop/electron/hostCore.ts:481-524 | A step awaits no review but those awaited before and the one it captures, and carries none past its issuer but those carried before and the one whose handle it brings |
| HostFence.CapturesExactly | brainrouter-desktop/electron/hostCore.ts:712-755 | A review is captured exactly if no mutation is outstanding, the host is open and the viewed session is pooled and free; otherwise nothing changes |
| HostFence.IssuedStartsExactly | brainrouter-desktop/electron/hostCore.ts:755-784 | With no mutation outstanding a returned handle reserves its turn exactly if its session is free and its capture still current |
| HostFence.ReviewedFence | brainrouter-desktop/electron/hostCore.ts:392-405 | The same from any owned state in which the origin was captured, for every prefix of the events that follow |
| HostFence.SecondFenceHolds | brainrouter-desktop/electron/hostCore.ts:511-525 | The fence check repeated after the `running` latch was taken can never fail: nothing runs between it and the first one |
| HostFence.StepKeepsLaunched | brainrouter-desktop/electron/hostCore.ts:481-524 | No step lets a turn hold an intent unless its reservation directly follows its capture; authority events are only ever added |
| HostFence.StepSteady | brainrouter-desktop/electron/hostCore.ts:300-322 | A step without a queued mutation changes neither the viewed session nor its agent when none is outstanding |
| HostFence.CaptureIsClean | brainrouter-desktop/electron/hostCore.ts:712-755 | A reviewed launch captures agent and generation only with no mutation outstanding and a pooled viewed session |
| HostExamples.ReviewedLaunchRuns | brainrouter-desktop/electron/hostCore.ts:712-784 | A reachable run of a fresh host in which an undisturbed reviewed launch does reach `runTurn` with its intent |
| HostInvariants.StepKeepsOwned | brainrouter-desktop/electron/hostCore.ts:293-1190 | Every step keeps: pooled agents carry their pool key; a turn in flight holds the latch of a runtime pooled under its own session; latches belong to turns in flight; only the oldest mutation has begun; the rebinding flag is up exactly while a tenant switch runs; a pending checkpoint belongs to its agent's present session |
| HostInvariants.LatchOf | brainrouter-desktop/electron/hostCore.ts:498-542 | A turn in flight, including one still in its policy check, runs on the runtime pooled under its key, whose latch it holds and whose agent carries that key |
| HostTasks.StepAdmits | brainrouter-desktop/electron/hostCore.ts:481-524 | Over any step a turn takes its latch only in a free pooled session of an open host, and at once only with no mutation outstanding; a start that waits waits for exactly the mutations outstanding when it was asked for |
| HostTasks.TurnsWaitForMutations | brainrouter-desktop/electron/hostCore.ts:481-497 | Over every run a start that had to wait takes its latch only when every mutation submitted before it was asked for has settled |
| HostTasks.WaitingStartExactly | brainrouter-desktop/electron/hostCore.ts:481-512 | A waiting start goes on exactly when its mutations have settled, and then takes the latch exactly if the session can take a turn |
| HostTasks.CallExactly | brainrouter-desktop/electron/hostCore.ts:546-594 | An allowed turn is called with its own text on its own session, and the call clears the parked key, records what was loaded, and changes nothing else |
| HostLifecycle.ShutdownIsFinal | brainrouter-desktop/electron/hostCore.ts:1310-1330 | Over every run: after a shutdown the host stays shut down and no new turn ever takes a latch |
| HostLifecycle.StepShutdown | brainrouter-desktop/electron/hostCore.ts:1310-1330 | A host shuts down by the shutdown command alone, which also drops a deferred switch |
| HostRuns.TurnsExclude | brainrouter-desktop/electron/hostCore.ts:498-510 | Over every run: two turns in flight with the same session or the same runtime are the same turn |
| HostRuns.PoolIsInjective | brainrouter-desktop/electron/hostCore.ts:293-295 | Over every run: no agent is pooled under two sessions, and a pooled agent's key is its pool key |
| HostRuns.RetargetOnlyAtRest | brainrouter-desktop/electron/hostCore.ts:962-1000 | Over every run: an agent's session key changes only while it is out of the pool, runs no turn, and no checkpoint of it or of the target session is pending |
| HostRuns.KeyChangesOnlyAtInstall | brainrouter-desktop/electron/hostCore.ts:998-1000 | The only step that changes an agent's session key is the installation of a reused runtime after its awaited checkpoints settled, and no event but the binding mutation's changes a learning binding |
| HostRuns.ReplacementBetweenTurns | brainrouter-desktop/electron/hostCore.ts:1084-1130 | Over every run: `createReplacement` is requested only with no turn in flight anywhere, no checkpoint pending and the pool emptied |
| HostRuns.BindingChangesOnlyBetweenTurns | brainrouter-desktop/electron/hostCore.ts:1169-1190 | Over every run and whatever the event: a learning binding that changes does so with no turn in flight anywhere, by the binding mutation at the head of the queue, and then every pooled agent has the binding that mutation asked for |
| HostRuns.LearningBetweenTurns | brainrouter-desktop/electron/hostCore.ts:1174-1187 | The binding mutation changes nothing while a turn is in flight, and otherwise binds the whole pool at once |
| HostRuns.ParkedInEveryRun | brainrouter-desktop/electron/hostCore.ts:998-1020 | Over every run, lost transcripts included: a pooled runtime has its own session's history parked or none, and a running one has none |
| HostRuns.TurnStartsOwnExactly | brainrouter-desktop/electron/hostCore.ts:546-550 | Over every run: the history a turn starts from is its own session's if and only if a parked transcript is on disk at that moment or the agent remembered nothing foreign |
| HostRuns.MemoriesApartExactly | brainrouter-desktop/electron/hostCore.ts:546-594 | For every run: at each of its points every pooled agent with nothing parked remembers its own session only, if and only if no turn of the run is called with its parked transcript gone and a foreign memory |
| HostRuns.ConversationsStayApart | brainrouter-desktop/electron/hostCore.ts:546-594 | Over every such run a running turn's agent remembers its own session only |
| HostRuns.KeptTranscriptsNeverLeak | brainrouter-desktop/electron/hostCore.ts:546-550 | A run that deletes no transcript somebody still has to load has no such turn |
| HostConversations.StepKeepsParked | brainrouter-desktop/electron/hostCore.ts:962-1082 | Every event keeps a parked history the runtime's own session |
| HostConversations.StepIsolatedExactly | brainrouter-desktop/electron/hostCore.ts:546-550 | A step keeps memories apart if and only if it does not call a turn whose parked transcript is gone on an agent with a foreign memory |
| HostConversations.StepConversationsExactly | brainrouter-desktop/electron/hostCore.ts:962-1082 | A step keeps parked histories at home, memories apart and everything parked or pending readable if and only if it does not lose a transcript somebody still has to load |
| HostConversations.RunningTurnIsIsolated | brainrouter-desktop/electron/hostCore.ts:546-594 | While memories are apart a running turn's agent carries and remembers the turn's session |
| HostResume.ResumedSessionLoads | brainrouter-desktop/electron/hostCore.ts:546-550 | Over every run: once a resume, on a reused or a spawned runtime, or a replacement with a transcript installed its session, the transcript stays parked on that runtime until the session leaves the pool or a turn of it is called; that first turn loads it exactly if it can still be read, and then remembers nothing else |
| HostResume.KeptTranscriptIsParked | brainrouter-desktop/electron/hostCore.ts:1035-1060 | Over every run a session whose transcript was on disk all along is installed with that transcript parked |
| HostResume.InstalledExactly | brainrouter-desktop/electron/hostCore.ts:998-1062 | A session enters the pool only by the end of its switch or as a tenant's replacement; its transcript is parked exactly for a resume or a replacement that has one, and without one the agent remembers nothing |
| HostResume.InstallExactly | brainrouter-desktop/electron/hostCore.ts:998-1032 | The end of a switch waits for the awaited checkpoints, and then pools and views the target on the reused or the spawned runtime, parked exactly for a resume, unless spawning or restoring the model failed |
| HostResume.ReplacementExactly | brainrouter-desktop/electron/hostCore.ts:1126-1165 | The replacement is pooled alone and viewed with an empty memory, its transcript parked exactly when there is one; the ban on turns is lifted in any case |
| HostResume.EverySwitchWasDecided | brainrouter-desktop/electron/hostCore.ts:1035-1082 | Over every run each pending switch was decided when its mutation began: to resume exactly if the session had a transcript then, and otherwise to start fresh, which needs an unsaved new key |
| HostResume.SwitchBeginsExactly | brainrouter-desktop/electron/hostCore.ts:962-996 | A switch takes over the viewed runtime, with its checkpoint started, exactly if that is idle with no steer and no wake pending; otherwise it spawns, or defers itself on a host that cannot |
| HostLifecycle.SpawningNeverDefers | brainrouter-desktop/electron/hostCore.ts:972-976 | Over every run a host that can spawn runtimes never defers a switch |
| HostExamples.ConversationLeaks | brainrouter-desktop/electron/hostCore.ts:546-550 | A reachable run of a fresh host in which a turn of one session starts from another session's history because the transcript vanished after the resume |
| HostRuns.MutationsRunInOrder | brainrouter-desktop/electron/hostCore.ts:309-322 | Over every run: whichever mutation has begun is the oldest unsettled submission, and the queue length counts the unsettled ones, failures included |
| HostQueue.StepKeepsFifo | brainrouter-desktop/electron/hostCore.ts:309-322 | A step settles at most one mutation, the oldest, and never reorders or drops a submission |
| HostQueue.StepQueue | brainrouter-desktop/electron/hostCore.ts:309-322 | Only the head of the mutation queue moves or returns; every other event adds at most one mutation at the end |
| HostQueue.StepViewed | brainrouter-desktop/electron/hostCore.ts:962-1032 | From a state whose viewed session is pooled unless a mutation detached it, a step keeps that if and only if it is not one of the two stranding failures |
| HostRuns.ViewedExactly | brainrouter-desktop/electron/hostCore.ts:962-1032 | For every run: at each of its points the viewed session is pooled unless a begun mutation holds its runtime, if and only if the run has neither stranding failure |
| HostRuns.ViewedStaysPooled | brainrouter-desktop/electron/hostCore.ts:376-380 | Over every run without those two failures the viewed session is pooled whenever no mutation is outstanding |
| HostQueue.MintsFirstUnused | brainrouter-desktop/electron/hostCore.ts:1064-1082 | A new session gets the first of eight candidates that is neither pooled nor has a transcript, and fails exactly when all are used |
| HostQueue.MintedKeyIsUnsavedNew | brainrouter-desktop/electron/hostCore.ts:124-127 | A minted key keeps the workspace prefix and is recognised as an unsaved new session |
| HostCheckpoints.NoSessionLeavesUncheckpointed | brainrouter-desktop/electron/hostCore.ts:676-688 | At every step no session leaves the pool before its session-end checkpoint was started, and a started checkpoint stays pending until it settles; only the tenant switch empties the pool, once every checkpoint has settled |
| HostCheckpoints.TenantSwitchCheckpointsAll | brainrouter-desktop/electron/hostCore.ts:1117-1121 | A tenant switch starts the checkpoint of every pooled session, with no turn in flight, before it drains |
| HostCheckpoints.TenantSwitchDrains | brainrouter-desktop/electron/hostCore.ts:1119-1121 | With no turn in flight it starts exactly the checkpoints of the whole pool and waits for them |
| HostCheckpoints.TurnEndEvicts | brainrouter-desktop/electron/hostCore.ts:674-688 | When a turn ends and its steers fit, its session leaves the pool and its checkpoint is started if and only if it is not viewed, the host spawns, and the host is closing or no input is left; otherwise pool and checkpoints stay |
| HostCheckpoints.TurnEndSwitches | brainrouter-desktop/electron/hostCore.ts:689-692 | A deferred switch joins the mutation queue at the end of a turn, unless the host shuts down, which drops it |
| HostCheckpoints.TurnEndClosing | brainrouter-desktop/electron/hostCore.ts:615-674 | On a closing host the leftover steers are gone, the queue stays and nothing follows |
| HostCheckpoints.AbandonEvicts | brainrouter-desktop/electron/hostCore.ts:430-448 | An abandoned launch gives its latch back and drops its session with a checkpoint if and only if that is in the background of a host that spawns, with no input, no steer and no wake pending |
| HostCheckpoints.AbandonGoesOn | brainrouter-desktop/electron/hostCore.ts:430-459 | It schedules the oldest input of an open host and queues a deferred switch |
| HostCheckpoints.TurnEndConserves | brainrouter-desktop/electron/hostCore.ts:610-704 | With room for the leftover steers the end of a turn conserves all inputs: the old queue followed by the user and extension steers is the next input and the new queue |
| HostCheckpoints.TurnEndWakes | brainrouter-desktop/electron/hostCore.ts:627-659 | A wake is scheduled at turn end if and only if peer steers went back to the agent |
| HostRuns.PeerTextIsNeverAPrompt | brainrouter-desktop/electron/hostCore.ts:461-479 | Over every run no peer text is in any input queue, and none is the prompt of any continuation, scheduled, reserved or running |
| HostDelivery.EveryTextWasGiven | brainrouter-desktop/electron/hostCore.ts:786-955 | Over every run each text in a queue, a steering queue or the inbox, and each prompt scheduled, waiting, reserved or running, was given by an event of the run, word for word, with that event's origin and address |
| HostDelivery.InputsAreKept | brainrouter-desktop/electron/hostCore.ts:461-1112 | Over any step an input joins its queue at the end and leaves it only from the front, scheduled as the next prompt, or by the tenant switch that empties the pool's queues; a steer joins at the end and leaves from the front by admission, or when its turn ends |
| HostDelivery.DeliveredToBusy | brainrouter-desktop/electron/hostCore.ts:800-822 | A user's input for a busy session joins the end of the queue it was sent to; with that full, or sent for immediate start, it changes nothing |
| HostDelivery.PeerDelivered | brainrouter-desktop/electron/hostCore.ts:824-858 | An accepted peer message joins the end of the target's steering queue and schedules a wake exactly if the target is idle; a closing host, an unloaded target and a full queue take none |
| HostDelivery.ExternalDelivered | brainrouter-desktop/electron/hostCore.ts:892-953 | All extension results that fit join the end of a running session's steering queue or an idle one's queue, whose oldest input is then scheduled if all fit |
| HostLifecycle.PublishedExactly | brainrouter-desktop/electron/hostCore.ts:886-955 | A published result waits in the inbox exactly if it is accepted for a session that is not pooled |
| HostLifecycle.StepDeliversExactly | brainrouter-desktop/electron/hostCore.ts:1123-1165 | A step leaves pooled sessions without waiting results if and only if it does not install a tenant's replacement for a session that has some |
| HostLifecycle.DeliveredExactly | brainrouter-desktop/electron/hostCore.ts:1123-1165 | For every run: at each of its points no pooled session has a waiting result if and only if no such replacement is installed |
| HostExamples.ResultLeftWaiting | brainrouter-desktop/electron/hostCore.ts:1123-1165 | A reachable run of a fresh host in which a result published during a tenant switch is still waiting after the replacement for its session was installed |
| HostRuns.AtHomeExactly | brainrouter-desktop/electron/hostCore.ts:962-1020 | For every run: at each of its points every queued, steered or scheduled input sits with the session it was addressed to, if and only if no step hands a runtime with leftover inputs to another session |
| HostRuns.PromptsStayHome | brainrouter-desktop/electron/hostCore.ts:786-822 | Over every such run every prompt runs in the session it was addressed to |
| HostInputs.StepAddressedExactly | brainrouter-desktop/electron/hostCore.ts:962-1020 | A step keeps all inputs with their own session if and only if it does not retarget a runtime that still holds inputs |
| HostInputs.CarriedInputIsMisaddressed | brainrouter-desktop/electron/hostCore.ts:962-1020 | Right after a step that carries leftovers over, some input sits in a session it was not addressed to |
| HostExamples.PromptRunsAbroad | brainrouter-desktop/electron/hostCore.ts:527-542 | A reachable run of a fresh host in which a follow-up queued for one session is run as a prompt of another |
| HostInputs.RouteFates | brainrouter-desktop/electron/hostCore.ts:615-673 | Each steer left at turn end that the loop reaches meets exactly one fate, in order: cancelled, given back, or queued |
| HostInputs.RouteCompletes | brainrouter-desktop/electron/hostCore.ts:615-673 | The loop reaches the last steer if and only if the host is closing or the input queue has room for every user and extension steer |
| HostInputs.RouteExactly | brainrouter-desktop/electron/hostCore.ts:615-673 | With room: user and extension steers are appended to the queue, peer steers with a known device go back to the agent, each once and in order; a closing host does neither |
| HostInputs.RouteTakes | brainrouter-desktop/electron/hostCore.ts:615-673 | Also when the queue overflows: the steers reached went where their fates say, in order, and the first one not reached is a user's or an extension's that found the queue full |
| HostInputs.OverflowSkipsTheRest | brainrouter-desktop/electron/hostCore.ts:661-704 | Without room the end of the turn stops there: the first steer that found the queue full and those after it are lost, nothing is scheduled, no deferred switch runs, a background runtime stays pooled |
| HostInputs.StepKeepsClean | brainrouter-desktop/electron/hostCore.ts:461-960 | Every step keeps peer text out of queues and prompts and labels steers as peer exactly when their text is |
| HostCore.SessionHost.Handle | brainrouter-desktop/electron/hostCore.ts:1193-1330 | The host object takes exactly the step of the transition system for every event and keeps its invariant |
| HostCore.SessionHost.HandleAll | brainrouter-desktop/electron/hostCore.ts:1193-1330 | A whole run of the object is the run all the theorems are about |
| HostCore.SessionHost.RoutePendingSteers | brainrouter-desktop/electron/hostCore.ts:615-673 | The loop over leftover steers computes the routing the lemmas describe, stopping where the queue is full |
| HostCore.SessionHost.DeliverExternalSteering | brainrouter-desktop/electron/hostCore.ts:892-953 | Extension results steer a running session or queue for an idle one, in order, up to the depth |
| HostCore.SessionHost.MintKey | brainrouter-desktop/electron/hostCore.ts:1064-1076 | The loop over eight candidates finds the first unused one |
| HostCore.SessionHost.ClearPooledQueues | brainrouter-desktop/electron/hostCore.ts:1098-1112 | Empties the queue of exactly the pooled runtimes |
| HostCore.SessionHost.SetPooledBindings | brainrouter-desktop/electron/hostCore.ts:1180-1187 | Sets the binding on exactly the pooled agents |
| DrainRegistry.Registry.TrackSessionDrain | brainrouter-desktop/electron/hostCore.ts:333-361 | One `endSession` per agent and session in flight: a second call joins the first; all three registries gain the same entry |
| DrainRegistry.Registry.Settled | brainrouter-desktop/electron/hostCore.ts:343-353 | A settled checkpoint leaves all three registries, and nothing else does |
| DrainRegistry.Registry.SessionSnapshot | brainrouter-desktop/electron/hostCore.ts:363-366 | The snapshot for a session is exactly its pending checkpoints |
| DrainRegistry.WaitEndsExactly | brainrouter-desktop/electron/hostCore.ts:368-370 | For every order of starts, settlings and resumptions: `awaitAllDrains` has returned if and only if at some look of its loop every checkpoint started by then, those started during the wait included, had settled |
| DrainRegistry.PendingExactly | brainrouter-desktop/electron/hostCore.ts:333-361 | Over every run a checkpoint is pending if and only if it was started and has not settled |
| DrainRegistry.Registry.PerformAll | brainrouter-desktop/electron/hostCore.ts:324-370 | The three registries and the waiting loop follow every such run |
| DrainRegistry.Registry.AwaitAllDrainsResumes | brainrouter-desktop/electron/hostCore.ts:368-370 | A resumed wait is over if and only if nothing is pending, whatever was registered meanwhile |
| HostDrains.HostDrainsAreTracked | brainrouter-desktop/electron/hostCore.ts:324-370 | For every run of the host a run of the registry, event by event, holds exactly the host's pending checkpoints, starting them only for agents under their own session and dropping them only when they settle |
| HostDrains.ReplacementAwaitsAll | brainrouter-desktop/electron/hostCore.ts:1117-1123 | The tenant switch goes on exactly when a look of `awaitAllDrains` finds nothing pending |
| DrainRegistry.RegistriesAgree | brainrouter-desktop/electron/hostCore.ts:329-331 | The registry by agent, the pending set and the registry by session describe the same checkpoints |
| DrainRegistry.OnePerAgentAndSession | brainrouter-desktop/electron/hostCore.ts:333-337 | Two pending checkpoints of one agent and session are the same |
| Ipv4Blocks.Ipv4ToInt | brainrouter-desktop/electron/edgeDialGuard.ts:46-57 | The signed 32-bit shift/or loop returns the positional value of every well-formed quad and nothing for any other text |
| Ipv4Blocks.ShiftInOctet | brainrouter-desktop/electron/edgeDialGuard.ts:54-54 | On signed 32-bit words, shifting left by eight and or-ing an octet in appends the octet |
| Ipv4Blocks.CidrIsInterval | brainrouter-desktop/electron/edgeDialGuard.ts:59-64 | For every 32-bit address and every prefix length from 0 to 32 the mask test holds if and only if the address lies in the network's interval |
| Ipv4Blocks.MaskIs | brainrouter-desktop/electron/edgeDialGuard.ts:62-62 | The mask expression is 2^32 - 2^(32 - bits) for every prefix length |
| Ipv4Blocks.BlockedIffInIntervals | brainrouter-desktop/electron/edgeDialGuard.ts:66-88 | A text is blocked if and only if it is no quad or lies in the union of the fifteen intervals |
| BitWords.SameUnderMask | brainrouter-desktop/electron/edgeDialGuard.ts:62-63 | Two words agree under a prefix mask if and only if they agree above its low bits |
| BitWords.OrBelow | brainrouter-desktop/electron/edgeDialGuard.ts:54-54 | An or with bits below a shifted word is an addition |
| Ipv6Text.ParsesExactlyForms | brainrouter-desktop/electron/edgeDialGuard.ts:91-132 | A text parses to groups if and only if, without zone and in lower case, it is the text of a well-formed form denoting them: hex groups, at most one `::` standing for at least one group, optionally a dotted-quad tail |
| Ipv6Text.FormsParse | brainrouter-desktop/electron/edgeDialGuard.ts:91-132 | Every well-formed text, in any letter case and with any zone, parses to what it denotes |
| Ipv6Text.PrintedParses | brainrouter-desktop/electron/edgeDialGuard.ts:91-132 | Round trip: for all eight groups the full text, the text with any one zero run as `::`, and either with a quad tail parse back to the groups |
| Ipv6Text.ZoneIgnored | brainrouter-desktop/electron/edgeDialGuard.ts:92-92 | A zone changes nothing |
| Ipv6Text.ExpandBackward | brainrouter-desktop/electron/edgeDialGuard.ts:94-101 | Whatever the rewriting of a dotted tail accepts is the text of a form with that quad |
| AddressText.SplitJoin | brainrouter-desktop/electron/edgeDialGuard.ts:102-107 | Splitting joined separator-free parts gives the parts |
| EdgeDialGuard.Ipv6ToBytes | brainrouter-desktop/electron/edgeDialGuard.ts:91-132 | The parser with its loops and bit operations returns the sixteen bytes of the groups, or null exactly when the text is no address |
| EdgeDialGuard.AllZero | brainrouter-desktop/electron/edgeDialGuard.ts:134-137 | True if and only if every byte of the range is zero |
| EdgeDialGuard.EmbeddedReparses | brainrouter-desktop/electron/edgeDialGuard.ts:139-141 | The printed last four bytes parse back to their big-endian value |
| EdgeDialGuard.IsBlockedIpv6 | brainrouter-desktop/electron/edgeDialGuard.ts:143-164 | True if and only if the text is no address or its 128-bit value is blocked: embedded prefixes by their IPv4 address, every other value by the listed prefixes |
| EdgeDialGuard.EmbeddingsAgree | brainrouter-desktop/electron/edgeDialGuard.ts:146-156 | For every IPv4 address each text of its mapped, NAT64 or compatible form is judged as the dotted address is |
| EdgeDialGuard.ByteTestsArePrefixes | brainrouter-desktop/electron/edgeDialGuard.ts:157-163 | The byte tests hold if and only if the 128-bit value has one of the listed prefixes |
| EdgeDialGuard.TopIsInterval | brainrouter-desktop/electron/edgeDialGuard.ts:157-163 | A prefix condition is an interval of 128-bit values |
| EdgeDialGuard.VetDialTarget | brainrouter-desktop/electron/edgeDialGuard.ts:174-203 | Pins a target if and only if host, port and allowlist admit it and neither the literal nor any resolved address is blocked; the pinned address is the literal or the first answer, and never blocked; each refusal is given exactly in its own case, the earlier guards first |
| EgressDial.DialIsSafe | brainrouter-desktop/electron/egressDialHandler.ts:97-248 | In every order of events: at most one reply, no data before a positive one; at most one socket, and that to the instruction's literal host or to the first address of a lookup of the run in which no address is blocked, at the instruction's port; closed means relay closed, socket destroyed, no timer |
| EgressDial.BytesPassUnchanged | brainrouter-desktop/electron/egressDialHandler.ts:196-240 | Over every run the data sent to the relay is the concatenation of the chunks whose events came while splicing, and what was written to the socket is the sequence of the writable binary frames that came while splicing |
| EgressDial.SendsExactly | brainrouter-desktop/electron/egressDialHandler.ts:97-248 | A negative reply is sent by exactly the refusing events, a positive one by the connect, a ticket by an enrolled open, and data by chunks while splicing |
| EgressDial.AdvancesExactly | brainrouter-desktop/electron/egressDialHandler.ts:97-248 | When a dial closes, splices, awaits its vetting and gets its socket, in terms of the event and what came before |
| EgressDial.SocketOrigin | brainrouter-desktop/electron/egressDialHandler.ts:156-172 | A socket comes from a vetting event of the run that admitted the instruction's own target, and keeps that target |
| EgressDial.StepKeeps | brainrouter-desktop/electron/egressDialHandler.ts:97-248 | Every event keeps the invariant of each phase; phases only advance; sent frames are never taken back |
| EgressDial.ClosedIsFinal | brainrouter-desktop/electron/egressDialHandler.ts:109-138 | After the close nothing is sent and no socket is opened, whatever still happens |
| EgressDial.SilentCloseExactly | brainrouter-desktop/electron/egressDialHandler.ts:97-248 | In every run, a dial that ends before it replied, attaching or dialing, is silent if and only if the socket merely closed, the relay ended or the device is not enrolled; every other end replies exactly one refusal |
| EgressDial.ThrowingConnectStrands | brainrouter-desktop/electron/egressDialHandler.ts:171-180 | In every run, when `tcpConnect` throws, the dial waits without socket, timer or reply exactly until the relay ends or opens for a device that is not enrolled, whatever else happens |
| EgressDial.FramesAreFaithful | brainrouter-desktop/electron/egressDialHandler.ts:198-206 | Cutting a chunk loses, adds and reorders nothing; every frame is non-empty and at most 131072 bytes |
| EdgeDialHandler.DialSession.OnSocketData | brainrouter-desktop/electron/egressDialHandler.ts:198-206 | The offset loop sends exactly those frames |
| EdgeDialHandler.DialSession.OnVetted | brainrouter-desktop/electron/egressDialHandler.ts:156-180 | Vets the instruction's target with the guard, and opens the socket or refuses, unless the dial was closed meanwhile |
| EdgeDialHandler.DialSession.Fire | brainrouter-desktop/electron/egressDialHandler.ts:97-248 | The handler's variables and listeners take exactly the step of the protocol for every event |
| EdgeDialHandler.DialSession.FireAll | brainrouter-desktop/electron/egressDialHandler.ts:97-248 | A whole run of the handler is the run the theorems about a dial are about |
| EdgeDialHandler.Handle | brainrouter-desktop/electron/egressDialHandler.ts:97-105 | An expired or unreadable ticket opens nothing at all |
| WorkspaceListing.ListWorkspaceFiles | brainrouter-desktop/electron/fsRead.ts:105-144 | The files are the first ones of the breadth-first order, as many as the recursive descent has up to the limit, all of them when not truncated; truncated if and only if it has at least `limit`; the worklist terminates |
| WorkspaceListing.ListedIffChain | brainrouter-desktop/electron/fsRead.ts:121-135 | A file is in the descent if and only if a chain of entered directories leads to it: never through a symbolic link, an ignored, packed, unreadable or too deep directory |
| WorkspaceListing.DescendOnce | brainrouter-desktop/electron/fsRead.ts:121-135 | The descent lists no path twice |
| WorkspaceListing.ListsShallowFirst | brainrouter-desktop/electron/fsRead.ts:113-135 | The breadth-first order has exactly the files of the descent, every file before all those that lie deeper |
| WorkspaceListing.ListsNoPathTwice | brainrouter-desktop/electron/fsRead.ts:105-144 | Neither does the listing, however early it stops |
| ExtractionCache.FullIsFresh | brainrouter-desktop/electron/browserHost.ts:297-323 | After any calls, with files and modes changing in between, a full extraction equals extracting every walked file from scratch when no hashes collide |
| ExtractionCache.FullIsFreshExactly | brainrouter-desktop/electron/browserHost.ts:297-323 | With collisions it does if and only if no walked file is kept under an equal hash of a text with other sites |
| ExtractionCache.ScopedTouchesSelectedOnly | brainrouter-desktop/electron/browserHost.ts:297-313 | A scoped extraction in the same mode refreshes the selected files and changes nothing else |
| ExtractionCache.ModeChangeForgets | brainrouter-desktop/electron/browserHost.ts:299-301 | A scoped extraction in the other mode leaves only the selected files |
| ExtractionCache.BrowserHost.Extract | brainrouter-desktop/electron/browserHost.ts:297-323 | The two maps always have the same keys and hold the sites and hashes of the texts they were parsed from; the new state is the specified one |
| ExtractionCache.BrowserHost.Prune | brainrouter-desktop/electron/browserHost.ts:314-323 | Exactly the files that were not walked are forgotten |
| DashboardQueries.AnswersAreCurrent | brainrouter-dashboard/lib/dashboardQuery.ts:17-45 | Over every run an answer comes from a fetch for the same key that began after every invalidation covering the key |
| DashboardQueries.AnswerIsWhatWasFetched | brainrouter-dashboard/lib/dashboardQuery.ts:23-41 | Over every run a value that answers at once is what the fetch it came from brought, by an event of the run at which that fetch was still awaited; the entry's time is that event's, and no later fetch of the entry brought anything |
| DashboardQueries.FreshValueIsReused | brainrouter-dashboard/lib/dashboardQuery.ts:35-40 | Over every run a value brought for a key serves every query of it within the time to live without a new fetch, unless the key was invalidated or another value came meanwhile |
| DashboardQueries.AwaitsPending | brainrouter-dashboard/lib/dashboardQuery.ts:23-33 | A query that has to wait waits for a fetch that is not over |
| DashboardQueries.AnswersMatchKey | brainrouter-dashboard/lib/dashboardQuery.ts:17-41 | An answer never comes from another key's fetch |
| DashboardQueries.OneFetchBetweenInvalidations | brainrouter-dashboard/lib/dashboardQuery.ts:23-33 | Over every run two fetches of one key in flight are separated by an invalidation of the key |
| DashboardQueries.RefreshesExactlyWhenNeeded | brainrouter-dashboard/lib/dashboardQuery.ts:23-40 | A fetch is begun if and only if no fresh value serves the query and none is in flight; a value is held back only under force or when there is none |
| DashboardQueries.StepKeeps | brainrouter-dashboard/lib/dashboardQuery.ts:17-49 | Every query, completion, failure and invalidation keeps entries, fetches and generations consistent, also for entries already removed from the map |
| DashboardQueries.QueryCache.Handle | brainrouter-dashboard/lib/dashboardQuery.ts:17-49 | The cache object takes exactly those steps and gives those answers |
| DashboardQueries.QueryCache.InvalidateDashboardQueries | brainrouter-dashboard/lib/dashboardQuery.ts:43-45 | The loop removes exactly the keys with the prefix |
| ThreadMerge.MergeIsIdempotent | brainrouter-dashboard/lib/chatThreads.ts:207-248 | Merging again with the same thread list returns the same list, whatever the time and scope are by then |
| ThreadMerge.MergeHasEachIdOnce | brainrouter-dashboard/lib/chatThreads.ts:207-248 | For unique ids the result has exactly the local and the server ids, each once, newest first |
| ThreadMerge.MergeExactly | brainrouter-dashboard/lib/chatThreads.ts:207-248 | For unique local ids the result holds exactly the local-only sessions and what each server thread becomes: its cached session with the server's title and model and the newer stamp, or an empty skeleton in the current scope with the thread's stamp |
| ThreadMerge.MergeKeepsCached | brainrouter-dashboard/lib/chatThreads.ts:215-236 | A cached session keeps messages, scope and category and takes the server's title and model and the newer stamp; a local-only one is untouched |
| ThreadMerge.UnsyncedExactly | brainrouter-dashboard/lib/chatThreads.ts:238-243 | `unsynced` is exactly the local-only sessions of the current organization with messages |
| ThreadMerge.SortSorts | brainrouter-dashboard/lib/chatThreads.ts:246-246 | The sort is a permutation, newest first |
| ThreadMerge.SortStable | brainrouter-dashboard/lib/chatThreads.ts:246-246 | Sessions of equal stamp keep their order |
| ThreadMerge.SortedByStamps | brainrouter-dashboard/lib/chatThreads.ts:246-246 | A sorted list is determined by its parts of equal stamp |
| ThreadMerge.MergeServerThreads | brainrouter-dashboard/lib/chatThreads.ts:207-248 | The two loops and the sort compute the specified lists |
| HostPoolPolicy.ReapsExactly | brainrouter-desktop/electron/hostPoolPolicy.ts:52-115 | Over every chronological history an activation reaps a workspace if and only if it is pooled, neither entered nor left, has reported no turn in flight since its last end, and was last viewed (the empty root: last activated) longer than the time to live ago |
| HostPoolPolicy.PoolIsSound | brainrouter-desktop/electron/hostPoolPolicy.ts:52-120 | After every chronological history roots are unique and the viewed root, if any, is pooled |
| HostPoolPolicy.ActivateExactly | brainrouter-desktop/electron/hostPoolPolicy.ts:52-93 | Activation removes exactly the reaped roots and adds the activated one |
| HostPoolPolicy.ActivatedFrom | brainrouter-desktop/electron/hostPoolPolicy.ts:72-93 | What becomes of each entry's running flag and idle clock |
| HostPoolPolicy.EmptyRootReapedEarly | brainrouter-desktop/electron/hostPoolPolicy.ts:78-83 | For the empty root the idle clock is not started: it can be reaped one millisecond after it was viewed |

## Left out

- Event stamping, sequence numbers, titles, activity notices and every other message to the renderer.
- The guards of `handle` itself: commands dropped during shutdown or waiting for the mutation queue. The
  model lets every command come at any time, so its theorems cover more orders than the code allows.
- Timers as real time: a scheduled continuation, a wake, the resume timer and every deadline may fire at
  any moment after it was set; the 1.5 s, 5 s, 25 ms, 750 ms and 8 s delays are not modelled.
- Models and providers: `set-model` is modelled by its authority revocation only, and restoring a
  session's model by whether it throws.
- The agent itself: a turn is called and returns; what it does, and its interrupt flag, are outside. That
  it admits steers from the front of its steering queue, and only while it runs, is assumed.
- Permission dialogs (`InteractionBroker`), queries, and the shutdown deadline of 750 ms.
- `loadTranscript` of an existing transcript is taken to be non-empty, `loadHistory` to replace the history
  and `clearHistory` to empty it.
- HostCore.SessionHost.Handle: runtimes are values in a sequence held by the host, not objects of their
  own, so aliasing of one runtime from two places is excluded by construction and not by proof.
- HostRuns.ConversationsStayApart: is stated for runs without a leaking turn; `MemoriesApartExactly` shows
  that memories stay apart in no other run.
- HostRuns.PromptsStayHome: is stated for runs without carried leftovers; `AtHomeExactly` shows that inputs
  stay with their session in no other run.
- DrainRegistry.WaitEndsExactly: follows one caller of `awaitAllDrains`; callers read the registries and do
  not change them, so several of them do not affect each other.
- Letters outside ASCII: lower-casing is modelled on `A` to `Z` only. No other character becomes a hex
  digit, a dot or a colon, so address parsing is not affected; directory names with such letters are.
- `isIP`, DNS and the allowlist predicate are parameters of `VetDialTarget`; ports are integers.
- The injected `deps.vet` of the dial handler, which replaces the guard when a caller provides it: the model
  vets with `vetDialTarget`.
- JSON encoding of dial frames: the decoded instruction is a parameter. A `relay.send` that throws is not
  modelled; the code drops such a frame silently and goes on.
- Directory entries are taken in the order the source sorts them; `localeCompare` itself, NaN and infinite
  limits are not modelled.
- A dashboard fetcher that throws before it returns its promise; it counts as a query that was not made.
- Parsing of source files, the manifest built from the cache and the order of its entries: `hashContent`
  and `extractFile` are arbitrary functions.
- Chat sessions carry readable time stamps; only a server thread's stamp may be unreadable. Stamps are
  compared as instants. The code compares their texts, which agrees with the instants only for UTC texts in
  the form `toISOString` writes; a local-only session whose stamp has another offset or lacks the
  milliseconds can be sorted differently.
- React components, IPC wiring, Electron windows, the mobile app and the benchmark: UI and plumbing.
