# Keeping stale work away from the devices

This project models the part of the VRChat agent that decides which work may still reach the avatar's devices,
and proves what it guarantees under preemption, halts, reconnects and late threads.

The agent runs on two machines. The Mac side decides actions and streams poses and speech; the Windows side is
the only process that writes devices. Stale work is kept away by layers, each with its own files here:

- Lease fencing. `ControlClaims` and `ControlResources` issue tokens; `Supervisor*` and `Director*` acquire, fence
  and preempt; `Transport*` and `MacOutputTransport` carry commands and match acknowledgements; `Gateway*` and
  `DeviceGateway` accept or drop. `OutputSystem` puts both machines and an adversarial network together, and
  `SupervisorSystem` adds the supervisor, whose calls block on their acknowledgements;
  `SupervisorSilence` proves what a cancelled lease can still do, `SupervisorWitness` shows when that is not nothing.
- The pose stream. `PoseModel`, `Session*` and `AnchoredMotion` serve idle, clips, walks and generated motion under
  prompt revisions; `CueModel` and `MotionCue` are the cue on top.
- The device side. `Tracker*` is the two-lock tracker writer at lock granularity; `Calibration*` takes the gateway
  exclusively, beside the connection loop that shares it.
- Arithmetic and streams. `Vectors` and `LowerBody*` are the clamped retargeting, `Vad*` and `EnergyVad` the voice
  segmenter, `AudioIngest` the chunks in front of it, `Follow*` the follow controller with its pausable search clock.
- Turns and messages. `Turn*`, `DialogueTurns`, `Pipeline*` and `AudioPipeline` fence dialogue turns; `StreamCodec*`,
  `Base64*` and `Trimming` are the bridge messages.

Four kinds of module recur. A `...Model` module gives the state as a datatype and each lock-held section as a
function. A `...Runs`, `...System`, `...Playback`, `...Silence` or `...Laws` module proves what stays true over every
run or interleaving of those sections: mostly, what never happens. A `...Course`, `...Newest`, `...Leases`,
`...Prompts`, `...Status`, `...Motion`, `...Targets`, `...Waits`, `...Wire` or `...Grammar` module proves that what is asked for is
what is done: which action, prompt, frame or pose is served, when, and exactly when it is not. A module named like the
program's class holds that class, its fields updated in place; each method is proved to do to the abstract value
exactly what the function says.

Locks are modelled by atomicity: one section is one step, and steps of different threads interleave freely. What
the environment does is an input: clock readings, whether a call raises, what an executor, a recognizer, a planner
or a generator returns. Executors are adversaries that may send any envelope at any time. A data frame that Windows
rejects ends the connection (vrc_ardy_agent/windows_output_controller.py:46-54), so a session may close at any step.

Assumptions: session ids and message ids are never reused (they are random in the program), and calibration tokens
are not session ids of the bridge. `ReusedSessionRevivesLease` shows what a reused session id would do. The
connection loop is one thread, so it polls the gateway's time to live only while its own session is open
(vrc_ardy_agent/windows_bridge_client.py:252-271); calibration relies on that.

Where the code does less than one would expect, it is kept as it is. `neutralize_pose` returns early when the writer
is not running, without waiting for the I/O lock; then a flush in flight may still write an older frame
(`EarlyReturnIsSafeIff`, `StaleEarlyReturnIsReachable`). Utterances of jobs that end as plans, or that die without an
outcome, appear in none of the published counters (`CountersAddUp`, `PlannedUtteranceIsForgotten`,
`DeadUtteranceIsForgotten`). A cancel signal is set even when the neutralize before it raised; then the cancelled lease
may still be written (`CancelIsUnfencedIffNeutralizeRaised`, `UnfencedLeaseIsWritten`).

## Model

| member | source | states |
|---|---|---|
| `GatewayRuns.WrittenEnvelopesIncrease` | vrc_ardy_agent/device_gateway.py:143-240 | within one session, whatever is delivered in whatever order, envelopes written to one resource strictly increase in (lease token, sequence) and one token never carries two action ids |
| `GatewayRuns.NeutralizeFences` | vrc_ardy_agent/device_gateway.py:169-194 | processing a neutralize in its own session raises the fence even when the device sink raises, and is acknowledged exactly when the sink worked and the token is not old |
| `GatewayRuns.FencedForever` | vrc_ardy_agent/device_gateway.py:196-265 | a fence survives every later authorize, data, neutralize and expiry step, and nothing at or below it is written |
| `GatewayRuns.NeutralizedNeverRevived` | vrc_ardy_agent/device_gateway.py:169-240 | a neutralized token is never written under again |
| `GatewayRuns.ExpiredNeverRevived` | vrc_ardy_agent/device_gateway.py:242-265 | a token whose owner missed its time to live is never written under again |
| `GatewayRuns.AuthorizeNeutralizeRace` | vrc_ardy_agent/device_gateway.py:143-194 | an authorization and the neutralize of a higher token, in either order and with any traffic around them, leave the gateway token at least as high as the fence and the lease silent |
| `GatewayLeases.SilentOwnerIsRevoked` | vrc_ardy_agent/device_gateway.py:196-265 | an envelope with a time to live of t ms was written at some moment and nothing was written for its resource, taken over or neutralized since: a poll at t/1000 seconds after it, or later, revokes the owner, and nothing under its token is ever written again |
| `GatewayLeases.PunctualOwnerIsKept` | vrc_ardy_agent/device_gateway.py:242-265 | before that moment no poll revokes it |
| `GatewayLeases.DeliveredIff` | vrc_ardy_agent/device_gateway.py:196-240 | while a lease is neither taken over nor overdue, an envelope is written exactly when it carries this lease and action, is well formed and in time, numbered above all written under it, and the sink takes it |
| `GatewayLeases.RepeatedAuthorizationIsAccepted` | vrc_ardy_agent/device_gateway.py:143-167 | authorizing the owner again is accepted and changes nothing |
| `GatewayLeases.AuthorizedIff` | vrc_ardy_agent/device_gateway.py:143-167 | a lease is accepted exactly when it is valid, of the open session, and above the current token or the current lease itself; it is the current one then, and a refusal names its reason |
| `GatewayLeases.DropsAreCounted` | vrc_ardy_agent/device_gateway.py:143-240 | over every run each message turned away is counted once, under its reason |
| `GatewayLeases.SessionlessGatewayOwnsNothing` | vrc_ardy_agent/device_gateway.py:96-141 | in every run a gateway without a session owns no output, and exclusive use belongs to the open session alone |
| `GatewayLeases.NewSessionStartsOver` | vrc_ardy_agent/device_gateway.py:96-118 | a session opened anew can authorize any positive token |
| `GatewayLeases.ClosedSessionIsSilent` | vrc_ardy_agent/device_gateway.py:130-141 | after a close nothing is written until another session is opened |
| `DeviceGateway.DeviceGateway.OpenSession` | vrc_ardy_agent/device_gateway.py:96-110 | a new session resets every token; calibration turns other sessions away; the open session reopens unchanged |
| `DeviceGateway.DeviceGateway.ClaimExclusive` | vrc_ardy_agent/device_gateway.py:112-118 | only idle devices can be claimed exclusively |
| `DeviceGateway.DeviceGateway.ReleaseExclusive` | vrc_ardy_agent/device_gateway.py:120-128 | exclusive ownership ends only for its holder and only when no output is owned |
| `DeviceGateway.DeviceGateway.CloseSession` | vrc_ardy_agent/device_gateway.py:130-141 | closing disowns every output and keeps the tokens |
| `DeviceGateway.DeviceGateway.Authorize` | vrc_ardy_agent/device_gateway.py:143-167 | repeats are accepted, higher tokens take over, others are dropped with the reason the code gives |
| `DeviceGateway.DeviceGateway.Neutralize` | vrc_ardy_agent/device_gateway.py:169-194 | the new token, owner and sequence, and the decision, for every input |
| `DeviceGateway.DeviceGateway.ApplyEnvelope` | vrc_ardy_agent/device_gateway.py:196-240 | the checks in the code's order: session, validity, lease, sequence, expiry, sink; what is written and the expiry it renews (the lemmas of `GatewayLeases` say what that expiry does) |
| `DeviceGateway.DeviceGateway.PollExpired` | vrc_ardy_agent/device_gateway.py:242-265 | exactly the overdue owners are revoked, by a loop over the resources |
| `ControlClaims.LostLeaseStaysLost` | vrc_ardy_agent/control_resources.py:26-68 | once a lease stops being current no later acquire or invalidate makes it current again |
| `ControlClaims.OwnerKeepsItsLease` | vrc_ardy_agent/control_resources.py:26-52 | an owned resource is taken by nobody, whatever is asked, until it is invalidated for its owner or for anyone |
| `ControlClaims.TokensCountTheChanges` | vrc_ardy_agent/control_resources.py:26-52 | each change of ownership raises the token by exactly one; a free resource is always acquired, and an owned one always released |
| `ControlResources.ControlResourceManager.Acquire` | vrc_ardy_agent/control_resources.py:26-35 | a busy resource or an empty id changes nothing; otherwise a fresh higher token |
| `ControlResources.ControlResourceManager.Invalidate` | vrc_ardy_agent/control_resources.py:37-52 | the token rises exactly when an owner was removed; a foreign owner is refused |
| `ControlResources.ControlResourceManager.Current` | vrc_ardy_agent/control_resources.py:54-60 | the lease as it stands |
| `SupervisorRuns.OwnerIsTheLiveAction` | vrc_ardy_agent/character_supervisor.py:202-439 | in every reachable state the owner is the current action exactly while it is preparing or running, a pending action waits only behind a stopping one, and the resource manager never had to refuse the supervisor |
| `SupervisorRuns.AcceptedOnceHeldOnce` | vrc_ardy_agent/character_supervisor.py:155-231 | every accepted action id is in exactly one place: current, pending, or one terminal record |
| `SupervisorRuns.RecordsAreTruthful` | vrc_ardy_agent/character_supervisor.py:382-460 | a record says completed exactly when the executor returned normally and was never cancelled, cancelled exactly when it returned normally after the signal or never started, failed exactly when it raised or was refused |
| `SupervisorRuns.FencingPrecedesCancel` | vrc_ardy_agent/character_supervisor.py:424-439 | every cancel signal comes directly after a neutralize of a token above the cancelled lease |
| `SupervisorRuns.NothingStartsAfterHalt` | vrc_ardy_agent/character_supervisor.py:202-231 | after a halt nothing is authorized and no executor starts until the next bundle |
| `SupervisorRuns.HaltIsQuiet` | vrc_ardy_agent/character_supervisor.py:202-231 | a halt leaves no pending action and at most a stopping one |
| `SupervisorRuns.RunKeepsInvariant` | vrc_ardy_agent/character_supervisor.py:155-460 | ownership, order of effects and accounting hold after every run; each id is held as often as it was accepted |
| `SupervisorNewest.NewestIsServed` | vrc_ardy_agent/character_supervisor.py:287-302 | in every reachable state the action accepted last, unless a halt came after it, waits behind a stopping one, or is the live one, or was launched and then completed or failed; after a halt nothing is pending or live |
| `SupervisorNewest.WantedIsLast` | vrc_ardy_agent/character_supervisor.py:155-231 | that action was accepted at some step, with no bundle and no halt since |
| `SupervisorNewest.OnlyTheSupersededAreNeverStarted` | vrc_ardy_agent/character_supervisor.py:287-302 | an action recorded without ever being launched is cancelled, and a later bundle or halt came after it was accepted |
| `SupervisorNewest.EndStartsTheNewest` | vrc_ardy_agent/character_supervisor.py:382-422 | when a stopping action ends, it is recorded and the one accepted last is authorized under a fresh token and becomes current exactly if that succeeds |
| `SupervisorNewest.ExecutorsStartWhereAuthorized` | vrc_ardy_agent/character_supervisor.py:304-357 | in every run executors start directly after, and only after, a successful authorization; a refused one is fenced next |
| `SupervisorNewest.EveryEndIsFenced` | vrc_ardy_agent/character_supervisor.py:382-422 | in every run the lease of an executor that came back is fenced before anything else happens, unless it was fenced with its cancel signal |
| `SupervisorNewest.CallsAreAsAnswered` | vrc_ardy_agent/character_supervisor.py:304-451 | what is recorded of each authorize and neutralize is what the output answered |
| `SupervisorNewest.HaltFencesEveryLease` | vrc_ardy_agent/character_supervisor.py:202-231 | a halt neutralizes above every lease ever authorized, unless an action is already stopping |
| `SupervisorNewest.RunningIffReported` | vrc_ardy_agent/character_supervisor.py:371-380 | a live action is running exactly from its own executor's first report on |
| `CharacterSupervisor.CharacterSupervisor.ApplyBundle` | vrc_ardy_agent/character_supervisor.py:155-200 | each resource the bundle names gets its own action scheduled and every other resource is untouched; a malformed bundle changes nothing |
| `CharacterSupervisor.CharacterSupervisor.HaltAll` | vrc_ardy_agent/character_supervisor.py:202-231 | every managed resource is halted, unmanaged ones are untouched |
| `CharacterSupervisor.CharacterSupervisor.ScheduleLocked` | vrc_ardy_agent/character_supervisor.py:287-302 | start when idle, otherwise the new action takes the pending place, the one before is recorded as cancelled, and what is live is cancelled |
| `CharacterSupervisor.CharacterSupervisor.StartLocked` | vrc_ardy_agent/character_supervisor.py:304-357 | acquire, authorize, then start; a refused authorization is rolled back and fenced |
| `CharacterSupervisor.CharacterSupervisor.MarkRunning` | vrc_ardy_agent/character_supervisor.py:371-380 | only the current, preparing action becomes running |
| `CharacterSupervisor.CharacterSupervisor.FinishHandle` | vrc_ardy_agent/character_supervisor.py:382-422 | release, record, then start what is pending; a stale handle changes nothing |
| `CharacterSupervisor.CharacterSupervisor.CancelCurrentLocked` | vrc_ardy_agent/character_supervisor.py:424-439 | fence and neutralize before the signal is set |
| `SupervisorSilence.CancelledLeaseIsSilent` | vrc_ardy_agent/character_supervisor.py:424-439 | with supervisor, network, gateway and executors interleaved: from the moment a cancel signal is visible, after a neutralize that did not raise, nothing is ever written under the cancelled lease, in any session, though its executor may still be sending |
| `SupervisorSilence.SignalledLeaseIsSilenced` | vrc_ardy_agent/character_supervisor.py:424-439 | the neutralize remembered with the signal has returned; from the signal on nothing up to its token is written in the session it was sent in |
| `SupervisorSilence.CancelIsUnfencedIffNeutralizeRaised` | vrc_ardy_agent/character_supervisor.py:424-451 | every visible cancel signal is left without that protection if and only if the neutralize just before it raised |
| `SupervisorSilence.SignalKeepsItsMoment` | vrc_ardy_agent/character_supervisor.py:424-439 | a lease is signalled once, and what is remembered of the signal is the moment at which it became visible |
| `SupervisorWitness.UnfencedLeaseIsWritten` | vrc_ardy_agent/character_supervisor.py:424-451 | an interleaving for either output in which the neutralize raises and the cancelled lease is written after its signal is visible |
| `SupervisorSilence.TraceKeepsPlaced` | vrc_ardy_agent/character_supervisor.py:304-357 | each lease token was sent for authorization in one session, opened by Windows before the call returned; a fence covers every lease launched before it |
| `SupervisorSystem.TraceKeepsInvariant` | vrc_ardy_agent/character_supervisor.py:287-439 | the combined invariant holds in every state of every interleaving |
| `TransportModel.ReturnedMeansAcknowledged` | vrc_ardy_agent/mac_output_transport.py:298-325 | a control call that returns was accepted by an acknowledgement for this very message, received while it waited |
| `TransportModel.SpeechEndsOnItsOwnCompletion` | vrc_ardy_agent/mac_output_transport.py:188-249 | speech that was not cancelled ends normally only on the completion of its own session and lease |
| `TransportWaits.CallReturnsIff` | vrc_ardy_agent/mac_output_transport.py:298-325 | over any traffic a control call returns exactly when it did not time out, the session was not lost meanwhile, and the last answer to this very message was accepting |
| `TransportWaits.SpeechReturnsIff` | vrc_ardy_agent/mac_output_transport.py:188-249 | speech ends without raising exactly when the session was not lost and its own completion says so, or it was cancelled and nothing but a cancellation came back |
| `TransportWaits.SecondPlaybackIsRefused` | vrc_ardy_agent/mac_output_transport.py:188-224 | a second playback of the same session and lease is refused while the first waits |
| `TransportWaits.SessionIsTheOpenOne` | vrc_ardy_agent/mac_output_transport.py:95-132 | over any run the session is the one opened last and not closed; a second open, an empty id and a foreign close change nothing |
| `TransportWaits.LateAnswersAreStale` | vrc_ardy_agent/mac_output_transport.py:251-283 | what arrives after its wait has ended is counted as stale and changes nothing else |
| `MacOutputTransport.MacOutputTransport.CloseSession` | vrc_ardy_agent/mac_output_transport.py:113-132 | losing the session fails every wait, by loops over both tables |
| `MacOutputTransport.MacOutputTransport.ReceiveAck` | vrc_ardy_agent/mac_output_transport.py:251-263 | an acknowledgement reaches only its own pending call; others count as stale |
| `MacOutputTransport.MacOutputTransport.ControlOutcome` | vrc_ardy_agent/mac_output_transport.py:298-325 | returns only on an accepting answer in time on a live session |
| `MacOutputTransport.MacOutputTransport.ReceiveCompletion` | vrc_ardy_agent/mac_output_transport.py:264-283 | a completion reaches only the playback of its session and lease |
| `MacOutputTransport.MacOutputTransport.PlaybackOutcome` | vrc_ardy_agent/mac_output_transport.py:225-244 | how a playback ends for every combination of completion, failure and cancellation at the end of its wait; what arrives before the table entry is cleared comes too late |
| `OutputSystem.NothingStaleAfterNeutralize` | vrc_ardy_agent/mac_output_transport.py:298-325 | end to end: once neutralize has returned without raising, no envelope with a token up to the fence is ever written in that session again, under any delay, reordering, repetition or loss |
| `OutputSystem.EveryWriteWasAuthorized` | vrc_ardy_agent/device_gateway.py:143-240 | end to end: whatever is written was authorized by a message sent in that very session for that token and action |
| `OutputSystem.FenceOutlives` | vrc_ardy_agent/device_gateway.py:169-222 | a fence with its mark holds through every later step of both machines |
| `OutputSystem.ReusedSessionRevivesLease` | vrc_ardy_agent/device_gateway.py:96-110 | a concrete run: reopening a closed session id accepts a fenced lease again, so session ids must be fresh |
| `DirectorRuns.StateAndCueAgree` | vrc_ardy_agent/motion_director_lifecycle.py:85-125 | in every reachable state idle means no cue, cue means it is playing, returning means it is returning |
| `DirectorRuns.SupersededEventIsIgnored` | vrc_ardy_agent/motion_director_lifecycle.py:203-247 | a late playback event for a superseded revision changes neither cue nor state |
| `DirectorRuns.LeasesAreFencedOnce` | vrc_ardy_agent/motion_director.py:190-240 | tokens strictly increase over the whole run; a stream lease is fenced at most once, from above |
| `DirectorRuns.HaltFencesTheStream` | vrc_ardy_agent/motion_director.py:190-240 | a halt or a failure leaves no stream lease unfenced, and a fenced stream is never reported active again |
| `DirectorRuns.NothingBeginsAfterHalt` | vrc_ardy_agent/motion_director.py:190-371 | after a halt or a failure no token is issued and no playback begins until the next cue, whatever the manager, the session and a start under way do; what still plays is fenced and asked to stop |
| `DirectorRuns.FenceWinsTheRace` | vrc_ardy_agent/motion_director.py:440-489 | for every fence ever issued, whichever of authorize and neutralize the gateway processes first, nothing of that stream is written after both |
| `DirectorRuns.RunKeepsInvariant` | vrc_ardy_agent/motion_director.py:258-371 | agreement of state, cue, lease and tokens after every run |
| `DirectorPrompts.BoundMeansGiven` | vrc_ardy_agent/motion_director_lifecycle.py:69-130 | in every reachable state a cue bound to a revision is the prompt the session was given under that revision, and a return, or idle, is the idle prompt: CUE is reported only while that very prompt plays |
| `DirectorPrompts.StatusFollowsThePrompt` | vrc_ardy_agent/motion_director_lifecycle.py:203-247 | a playback event turns the status to CUE or IDLE only when it reports the revision of that cue's prompt, or of the idle prompt |
| `DirectorCourse.StartReachesIdle` | vrc_ardy_agent/motion_director_lifecycle.py:26-130 | without a cue a start plays the idle prompt under a fresh lease and reports IDLE |
| `DirectorCourse.OvertakenStartAppliesTheCue` | vrc_ardy_agent/motion_director_lifecycle.py:69-130 | a cue submitted while the stream is opening is given to the session before playback begins, and bound to the revision it is given under |
| `DirectorCourse.CueRunsItsCourse` | vrc_ardy_agent/motion_director.py:258-371 | in every reachable stream a new cue is prompted, reported when its prompt plays, sent back to idle when its duration or its clip is over, and idle is reported when the idle prompt plays |
| `DirectorCourse.CueEndsOnTime` | vrc_ardy_agent/motion_director.py:258-371 | in every reachable state a pass returns a playing cue to idle exactly when it is over, and otherwise changes nothing |
| `DirectorCourse.UnshownCueFails` | vrc_ardy_agent/motion_director.py:265-282 | a pass finds a prompted cue overdue exactly from the timeout after its submission on; failing the stream then fences it and drops the cue |
| `DirectorCourse.UnshownIdleFails` | vrc_ardy_agent/motion_director.py:265-312 | the same for the return to idle, and for one the session does not take |
| `DirectorCourse.BarredDirectorStartsNothing` | vrc_ardy_agent/motion_director.py:126-187 | after a shutdown, or without an output session, no lease is issued and no playback begins, whatever is submitted and however far a start had come |
| `DirectorCourse.LeavingAsksToStop` | vrc_ardy_agent/motion_director.py:151-187 | detaching the attached session drops the cue and asks its stream to stop; so does a shutdown |
| `DirectorCourse.HaltedDirectorRestarts` | vrc_ardy_agent/motion_director.py:373-433 | a halted stream that has ended leaves a halted director, and the next cue starts one under a higher token |
| `DirectorCourse.UnexpectedEndFails` | vrc_ardy_agent/motion_director.py:373-433 | a stream that ends unasked leaves the director failed and disabled |
| `DirectorCourse.FailedStartRests` | vrc_ardy_agent/motion_director_lifecycle.py:131-181 | a failed start leaves it failed without a lease, and nothing is issued or played until the next cue |
| `DirectorCourse.ShutdownExits` | vrc_ardy_agent/motion_director.py:258-268 | a shut-down director whose stream has ended exits, and only then reports STOPPED |
| `DirectorCourse.IdleCueYields` | vrc_ardy_agent/motion_director_actions.py:10-16 | an idle cue changes nothing unless the director reports IDLE, enabled and attached, without a cue |
| `DirectorCourse.IdleCueBegins` | vrc_ardy_agent/motion_director_actions.py:10-113 | there it is taken like any other |
| `DirectorStatus.StatusIsTruthful` | vrc_ardy_agent/motion_director.py:126-489 | in every reachable state HALTED and FAILED mean that no stream is wanted, WAITING_OUTPUT, STARTING and the active states that one is, STARTING that there is a session, the active ones that an unfenced stream plays, and STOPPING while one is wanted that the old lease is still owned |
| `DirectorStatus.OneSessionAtATime` | vrc_ardy_agent/motion_director.py:126-187 | a second session is refused while one is attached, and only the attached one is detached |
| `DirectorStatus.LeavingIsReported` | vrc_ardy_agent/motion_director.py:151-240 | what a halt and a detach report, by whether a stream lease is owned |
| `DirectorStatus.ReplacedSessionGetsItsStream` | vrc_ardy_agent/motion_director.py:126-187 | after the session was replaced, the ended stream is followed by one for the new session under the next token |
| `DirectorStatus.FirstReasonStays` | vrc_ardy_agent/motion_director.py:373-438 | over any run the first reason for which a stream was asked to stop is the one it ends for |
| `DirectorStatus.FailureIsReported` | vrc_ardy_agent/motion_director.py:373-489 | a failed stream leaves a failed director at rest |
| `DirectorStatus.HaltOutlivesFailure` | vrc_ardy_agent/motion_director.py:373-489 | one that was halted before it failed leaves a halted director at rest |
| `DirectorStatus.StartReachesTheCue` | vrc_ardy_agent/motion_director_lifecycle.py:26-130 | a cue submitted before the start is the only prompt the session is given, under revision 1 |
| `DirectorStatus.OvertakenStartIsGivenUp` | vrc_ardy_agent/motion_director_lifecycle.py:26-53 | a halt or a detach while the lease is being authorized gives the start up, however the authorization ends |
| `DirectorStatus.OvertakenSessionIsAborted` | vrc_ardy_agent/motion_director_lifecycle.py:69-201 | the same once the session is open: playback never begins and the lease is given back |
| `DirectorStatus.RefusedReapplicationFails` | vrc_ardy_agent/motion_director_lifecycle.py:85-181 | a prompt the opening session refuses ends the start as failed |
| `MotionDirector.MotionDirector.AttachOutputSession` | vrc_ardy_agent/motion_director.py:126-149 | one output session at a time |
| `MotionDirector.MotionDirector.DetachOutputSession` | vrc_ardy_agent/motion_director.py:151-187 | detaching drops the cue and stops the stream; a foreign session is ignored |
| `MotionDirector.MotionDirector.HaltLocked` | vrc_ardy_agent/motion_director.py:190-240 | which token to neutralize, if any, and the whole new state |
| `MotionDirector.MotionDirector.FailStreamLocked` | vrc_ardy_agent/motion_director.py:440-489 | a failure disables the director and fences its stream once |
| `MotionDirector.MotionDirector.ManagerPass` | vrc_ardy_agent/motion_director.py:258-371 | one pass: reap, time out, return to idle, issue a lease; whether the stream has to be failed next |
| `MotionDirector.MotionDirector.FinishStreamIfDoneLocked` | vrc_ardy_agent/motion_director.py:373-433 | why a finished stream ended decides the next state |
| `MotionDirector.MotionDirector.StreamAuthorized` | vrc_ardy_agent/motion_director_lifecycle.py:26-53 | a lease overtaken while it was being authorized is given up |
| `MotionDirector.MotionDirector.ReconcileStream` | vrc_ardy_agent/motion_director_lifecycle.py:69-130 | playback begins only with the wanted prompt and cue under a current lease; otherwise the wanted prompt is applied first, or the start is given up |
| `MotionDirector.MotionDirector.StreamStartFailed` | vrc_ardy_agent/motion_director_lifecycle.py:131-181 | a failed start gives the lease back |
| `MotionDirector.MotionDirector.StreamAborted` | vrc_ardy_agent/motion_director_lifecycle.py:182-201 | an aborted start gives the lease back |
| `MotionDirector.MotionDirector.SubmitCue` | vrc_ardy_agent/motion_director_actions.py:43-113 | a new cue replaces the old one and is bound to the revision its prompt got, if a stream can take it |
| `MotionDirector.MotionDirector.OnPromptPlaybackStarted` | vrc_ardy_agent/motion_director_lifecycle.py:203-247 | only the revision the cue waits for moves it |
| `CueModel.NextDeadlineIsWhenSomethingHappens` | vrc_ardy_agent/motion_cue.py:103-133 | the manager's sleep ends exactly when there is something to do |
| `MotionCue.MotionCue.BindPromptRevision` | vrc_ardy_agent/motion_cue.py:47-63 | rebinding restarts the cue; an invalid revision or timeout is refused |
| `MotionCue.MotionCue.BeginReturnToIdle` | vrc_ardy_agent/motion_cue.py:65-79 | only a playing cue returns to idle |
| `MotionCue.MotionCue.ObservePlayback` | vrc_ardy_agent/motion_cue.py:81-101 | which event starts the cue, ends it, or is ignored |
| `SessionPlayback.ClipPlaysExactlyOnce` | vrc_ardy_agent/anchored_motion.py:134-172 | whatever is generated, fails for other requests or is refused meanwhile, an unreplaced clip is sent as no entry blend or exactly n-1 of them, then each frame once in order, then the last one held; its playback is reported with the first clip frame alone |
| `SessionPlayback.ClipCompletesOnItsLastFrame` | vrc_ardy_agent/anchored_motion.py:174-198 | under the same interference, the revision counts as completed exactly from the send of the final clip frame on |
| `SessionPlayback.ReturnToIdleTakesExactlyN` | vrc_ardy_agent/anchored_motion.py:123-133 | under the same interference, a return to idle takes exactly n sends, lands exactly on idle and only then reports its revision |
| `SessionPlayback.ReturnWeightsRise` | vrc_ardy_agent/pose_transition.py:50-61 | the blend weights of a return rise strictly in (0, 1] |
| `SessionMotion.TextPlaysInOrder` | vrc_ardy_agent/anchored_motion.py:134-172 | under the same interference, an unreplaced generated request holds the last frame while nothing new is buffered, blends its first frames into the first generated one, then shows every generated frame once in commit order; its playback is reported with the first of them alone |
| `SessionMotion.GeneratedFramesAreConserved` | vrc_ardy_agent/anchored_motion.py:88-155 | the generated frames shown, followed by those buffered, are exactly the frames committed for the request, grounded |
| `SessionMotion.WalkShowsIdleMoving` | vrc_ardy_agent/anchored_motion.py:134-172 | an unreplaced walk blends into idle without moving and from then on shows idle, body and face, moving at its own velocity |
| `SessionMotion.RefusedFirstPromptStarts` | vrc_ardy_agent/anchored_motion.py:38-47 | begun on a refused prompt a session has started: it cannot begin again, sending fails, and the next good prompt is served under the next revision |
| `SessionMotion.StopIsFinal` | vrc_ardy_agent/anchored_motion.py:174-198 | after a stop nothing is shown, whatever is asked |
| `SessionMotion.FailedGenerationShowsNothing` | vrc_ardy_agent/anchored_motion.py:102-133 | once generating the newest request has failed nothing is shown until another prompt is accepted |
| `SessionMotion.RevisionsCountThePrompts` | vrc_ardy_agent/live_session.py:156-174 | the newest request is the prompt accepted last, and revisions count the accepted prompts |
| `SessionMotion.ShownIsRemembered` | vrc_ardy_agent/anchored_motion.py:174-198 | the session remembers the last frame a write took and the revision whose playback began last; a raising write leaves both |
| `PoseModel.WeightRises` | vrc_ardy_agent/pose_transition.py:57-61 | the smoothstep weight is strictly increasing from 0 to 1 |
| `PoseModel.BlendOfStillIsStill` | vrc_ardy_agent/pose_transition.py:69-83 | between frames without world movement no blend moves |
| `PoseModel.LerpIsProportional` | vrc_ardy_agent/pose_transition.py:69-83 | a component of the movement goes from one end to the other in proportion to the weight |
| `PoseModel.WeightEases` | vrc_ardy_agent/pose_transition.py:57-61 | the ease is symmetric: below the straight line in the first half and as much above it in the second |
| `SessionRuns.OnlyWalksMove` | vrc_ardy_agent/anchored_motion.py:123-172 | in every run a sent frame moves through the world only for a walk past its entry, and then at the walk's velocity |
| `SessionRuns.BeganRevisionsIncrease` | vrc_ardy_agent/anchored_motion.py:174-198 | the revisions whose playback begins strictly increase over the whole run |
| `SessionRuns.PoppedFrameIsNewest` | vrc_ardy_agent/anchored_motion.py:49-109 | a generated frame is popped only for the newest request, however late its chunk arrived |
| `AnchoredMotion.AnchoredMotionSession.Start` | vrc_ardy_agent/anchored_motion.py:38-47 | a session starts once; a bad first prompt leaves it started without a request |
| `AnchoredMotion.AnchoredMotionSession.SetPrompt` | vrc_ardy_agent/live_session.py:156-174 | an accepted prompt gets the next revision and discards queued and in-flight generation |
| `AnchoredMotion.AnchoredMotionSession.CommitChunk` | vrc_ardy_agent/anchored_motion.py:88-101 | a chunk is appended, grounded, only if its request is still the requested one |
| `AnchoredMotion.AnchoredMotionSession.FailGeneration` | vrc_ardy_agent/anchored_motion.py:102-105 | a failure of an old request is dropped |
| `AnchoredMotion.AnchoredMotionSession.SelectLocked` | vrc_ardy_agent/anchored_motion.py:111-155 | the frame, the request it counts for and whether the clip advances, for every kind of request |
| `AnchoredMotion.AnchoredMotionSession.EnterLocked` | vrc_ardy_agent/anchored_motion.py:157-172 | one step of the entry blend, or the frame itself |
| `AnchoredMotion.AnchoredMotionSession.SendNext` | vrc_ardy_agent/anchored_motion.py:174-198 | one output step: selection, write, accounting; what a failed write leaves behind |
| `TrackerRuns.NeutralizeIsALinearizationPoint` | vrc_ardy_agent/tracker_device_controller.py:132-155 | in every interleaving at lock granularity: a neutralize_pose that saw the writer running makes every frame written after its second section the safe frame, until somebody sends again |
| `TrackerRuns.EarlyReturnIsSafeIff` | vrc_ardy_agent/tracker_device_controller.py:146-147 | when it returns early, without a second section, the same promise holds if and only if no flush in flight still carries another frame |
| `TrackerRuns.StaleEarlyReturnIsReachable` | vrc_ardy_agent/tracker_device_controller.py:132-155 | a concrete interleaving in which the early return does meet such a flush |
| `TrackerRuns.RunExtends` | vrc_ardy_agent/tracker_device_controller.py:235-256 | the applied revision never decreases and never passes the target revision; writes and targets are only added |
| `TrackerRuns.FlushReportsItsOwnWrite` | vrc_ardy_agent/tracker_device_controller.py:235-256 | the revision a flush reports is that of the frame it wrote last |
| `TrackerTargets.TargetsAreTheRequests` | vrc_ardy_agent/tracker_device_controller.py:113-147 | in every interleaving the targets are exactly the accepted sends and neutralizations, in order, and each raises the target revision by one |
| `TrackerTargets.SentFrameReachesTheDevice` | vrc_ardy_agent/tracker_device_controller.py:113-126 | a running writer that is sent a frame and asked nothing more writes that frame with every later flush, and reports its revision as applied; a raising write stops it |
| `TrackerTargets.NeutralizationReachesTheDevice` | vrc_ardy_agent/tracker_device_controller.py:148-155 | a neutralization that waited for the I/O lock writes the safe frame at once |
| `TrackerTargets.TakenStays` | vrc_ardy_agent/tracker_device_controller.py:235-256 | while a flush holds the I/O lock nothing else is written and no close reaches the sink |
| `TrackerTargets.NothingAppliedUnflushed` | vrc_ardy_agent/tracker_device_controller.py:35-35 | no revision is reported as applied before a flush is over |
| `TrackerTargets.ModeIsTheLastSet` | vrc_ardy_agent/tracker_device_controller.py:97-147 | the mode is ACTION exactly when a frame was accepted and no neutralization or start came after it |
| `TrackerTargets.FirstFrameIsSafe` | vrc_ardy_agent/tracker_device_controller.py:85-111 | in every reachable state the status is STREAMING exactly while the writer runs, and the first frame ever written is the safe one |
| `TrackerTargets.StartRuns` | vrc_ardy_agent/tracker_device_controller.py:85-111 | an undisturbed start that no write refuses leaves the writer running in SAFE mode with the safe frame written |
| `TrackerTargets.RefusedStartFails` | vrc_ardy_agent/tracker_device_controller.py:85-111 | a raising first write leaves it failed and not running |
| `TrackerTargets.ClosedTakesNothing` | vrc_ardy_agent/tracker_device_controller.py:160-198 | a closed writer takes no frame, flush, neutralization or start |
| `TrackerDeviceController.TrackerDeviceController.Send` | vrc_ardy_agent/tracker_device_controller.py:113-126 | a running controller takes the target, any other refuses |
| `TrackerDeviceController.TrackerDeviceController.NeutralizeTarget` | vrc_ardy_agent/tracker_device_controller.py:132-147 | the first section of neutralize_pose and whether a second one follows |
| `TrackerDeviceController.TrackerDeviceController.NeutralizeWrite` | vrc_ardy_agent/tracker_device_controller.py:148-155 | the safe frame is written under the I/O lock |
| `TrackerDeviceController.TrackerDeviceController.FlushTake` | vrc_ardy_agent/tracker_device_controller.py:242-247 | the target is read under the I/O lock |
| `TrackerDeviceController.TrackerDeviceController.FlushWrite` | vrc_ardy_agent/tracker_device_controller.py:248-252 | the taken frame is what is written |
| `TrackerDeviceController.TrackerDeviceController.FlushFinish` | vrc_ardy_agent/tracker_device_controller.py:248-256 | the applied revision is the one taken; a raising write stops the controller |
| `TrackerDeviceController.TrackerDeviceController.StartFinish` | vrc_ardy_agent/tracker_device_controller.py:97-111 | the controller runs in SAFE mode after its first write |
| `TrackerDeviceController.TrackerDeviceController.CloseRecord` | vrc_ardy_agent/tracker_device_controller.py:180-198 | a closed controller is stopped, or failed if its sink was |
| `CalibrationRuns.CalibrationIsExclusive` | vrc_ardy_agent/calibration_session.py:40-64 | in every reachable state, while a record is active or unrestored, session and exclusive session both equal its token and no bridge can open |
| `CalibrationRuns.ReachableApplyIsNeverDropped` | vrc_ardy_agent/calibration_session.py:71-77 | no frame of an active calibration is dropped for session, lease or sequence |
| `CalibrationRuns.ApplyIsNeverDroppedForOwnership` | vrc_ardy_agent/calibration_session.py:71-77 | exactly when such a frame is rejected: a backward clock, more than six seconds between two readings, or a raising sink |
| `CalibrationRuns.RestoredIffSafeObserved` | vrc_ardy_agent/calibration_session.py:110-123 | restored if and only if neutralizing worked and SAFE output was observed; then the gateway is free, otherwise ownership is kept |
| `CalibrationRuns.FailedRestorationIsNeverHidden` | vrc_ardy_agent/calibration_session.py:110-123 | after a failed restoration no later run gives the output to anybody else |
| `CalibrationRuns.BridgeIsNotDisplaced` | vrc_ardy_agent/calibration_session.py:40-64 | no calibration operation touches the gateway while a bridge is connected |
| `CalibrationRuns.PollKeepsOwnership` | vrc_ardy_agent/calibration_session.py:134-137 | a poll past the deadline leaves no active calibration |
| `CalibrationRuns.RunKeepsSound` | vrc_ardy_agent/windows_bridge_client.py:222-302 | ownership and the connection loop agree after every run |
| `CalibrationCourse.ActiveUntilItsDeadline` | vrc_ardy_agent/calibration_session.py:134-137 | a calibration before its deadline is left exactly as it is by every poll, by every operation addressed elsewhere and by the bridge |
| `CalibrationCourse.StartIsGranted` | vrc_ardy_agent/calibration_session.py:46-64 | on an idle desk a new request with a safe tracker and working output is granted: its pose is the first frame driven, and it lives five seconds from then; asking again finds the same calibration |
| `CalibrationCourse.UpdateDrivesThePose` | vrc_ardy_agent/calibration_session.py:79-89 | in time and with the right revision the new pose is driven under the next one |
| `CalibrationCourse.HeartbeatDrivesAgain` | vrc_ardy_agent/calibration_session.py:91-97 | a heartbeat in time drives the same pose again and renews the deadline |
| `CalibrationCourse.UndrivenFrameEnds` | vrc_ardy_agent/calibration_session.py:71-77 | a frame that is rejected, or whose flush fails, ends the calibration as failed |
| `CalibrationCourse.StartIsRefused` | vrc_ardy_agent/calibration_session.py:46-64 | why a start is refused, the first reason counting; a refused start changes nothing |
| `CalibrationCourse.MisdirectedIsRefused` | vrc_ardy_agent/calibration_session.py:79-108 | what is addressed elsewhere or carries another revision is refused and changes nothing |
| `CalibrationCourse.EndedStaysEnded` | vrc_ardy_agent/calibration_session.py:79-108 | an ended calibration takes nothing; finishing it again reports it again |
| `CalibrationCourse.FinishReportsItsEnd` | vrc_ardy_agent/calibration_session.py:99-123 | a verified finish confirms and any other cancels, in both cases only once SAFE output was observed |
| `CalibrationCourse.OtherEndsReportThemselves` | vrc_ardy_agent/calibration_session.py:134-147 | a poll past the deadline ends it as expired, closing as canceled |
| `CalibrationCourse.ConfirmedWasVerified` | vrc_ardy_agent/calibration_session.py:99-108 | in every run a calibration that is confirmed at the end was finished by a verified finish of its own token |
| `CalibrationSession.CalibrationSession.Start` | vrc_ardy_agent/calibration_session.py:46-64 | every refusal in order, then claim, authorize and first pose |
| `CalibrationSession.CalibrationSession.Apply` | vrc_ardy_agent/calibration_session.py:71-77 | one more envelope; the deadline is renewed after the flush |
| `CalibrationSession.CalibrationSession.Update` | vrc_ardy_agent/calibration_session.py:79-89 | a stale revision is refused, an accepted pose raises it |
| `CalibrationSession.CalibrationSession.Heartbeat` | vrc_ardy_agent/calibration_session.py:91-97 | the current pose is driven again |
| `CalibrationSession.CalibrationSession.Finish` | vrc_ardy_agent/calibration_session.py:99-108 | ending twice reports the record again |
| `CalibrationSession.CalibrationSession.Restore` | vrc_ardy_agent/calibration_session.py:110-123 | what is released, and what is kept when something fails |
| `CalibrationSession.CalibrationSession.Poll` | vrc_ardy_agent/calibration_session.py:134-137 | an overdue calibration is restored as expired |
| `CalibrationSession.CalibrationSession.Close` | vrc_ardy_agent/calibration_session.py:142-147 | closing cancels an active calibration |
| `LowerBodyRuns.EveryOutputIsSafe` | vrc_ardy_agent/lower_body_retargeting.py:240-345 | after any run of poses and resets: hips in their workspace ball and within one speed step of the last output, each foot within leg reach of the hips and not below its floor unless the hips are |
| `LowerBodyRuns.HipsStayInside` | vrc_ardy_agent/lower_body_retargeting.py:267-289 | applying the speed clamp after the workspace clamp cannot leave the workspace |
| `LowerBodyRuns.StepIsBounded` | vrc_ardy_agent/lower_body_retargeting.py:275-289 | every joint's speed bound, before the floor and leg clamps |
| `LowerBodyRuns.FootIsReachable` | vrc_ardy_agent/lower_body_retargeting.py:299-317 | reach and floor after both foot clamps |
| `LowerBodyRuns.ReachCoversRest` | vrc_ardy_agent/lower_body_retargeting.py:382-394 | the derived leg reach covers the rest pose |
| `LowerBodyRuns.FirstFrameIsTheRestPose` | vrc_ardy_agent/lower_body_retargeting.py:248-345 | the first frame after a start or reset is exactly the calibrated rest pose |
| `LowerBodyRuns.FollowScalesTheDisplacement` | vrc_ardy_agent/lower_body_retargeting.py:256-261 | a joint is displaced by the body scale times the source's displacement; mirroring keeps lengths |
| `LowerBodyTargets.ReferenceIsTheFirstPose` | vrc_ardy_agent/lower_body_retargeting.py:240-261 | over any run displacements are measured from the first complete pose since the start or the last reset, joint by joint |
| `LowerBodyTargets.FreeJointsFollowExactly` | vrc_ardy_agent/lower_body_retargeting.py:255-345 | where no limit is in the way each joint of the output is exactly the rest pose displaced by its own source joint: scaled, x mirrored, left with left |
| `LowerBodyTargets.FirstPlaceIsTight` | vrc_ardy_agent/lower_body_retargeting.py:267-274 | at the start a joint follows its target up to its workspace limit and stops exactly there |
| `LowerBodyTargets.NextPlaceIsTight` | vrc_ardy_agent/lower_body_retargeting.py:267-289 | later it goes up to one step from its last output towards that, and stops exactly there |
| `LowerBodyTargets.FootIsTight` | vrc_ardy_agent/lower_body_retargeting.py:299-317 | a foot is raised to its floor and no higher, and pulled to the leg's reach and no further |
| `LowerBodyTargets.HipsAreBounded` | vrc_ardy_agent/lower_body_retargeting.py:267-289 | the hips' workspace and step after any run, with the limits written out |
| `Vectors.ClampIsTight` | vrc_ardy_agent/lower_body_retargeting.py:397-406 | a clamp never does more than it must |
| `Vectors.ClampReaches` | vrc_ardy_agent/lower_body_retargeting.py:397-406 | a clamped point is within the limit, or within the 1e-12 guard |
| `Vectors.ClampStaysOnSegment` | vrc_ardy_agent/lower_body_retargeting.py:397-406 | a clamped point lies between origin and value |
| `Vectors.BallIsConvex` | vrc_ardy_agent/lower_body_retargeting.py:397-406 | a point between two points of a ball is in it |
| `LowerBodyRetargeter.LowerBodyRetargeter.Retarget` | vrc_ardy_agent/lower_body_retargeting.py:240-345 | the dictionaries and loops compute exactly the specified pose; too few joints are refused |
| `LowerBodyRetargeter.LowerBodyRetargeter.PlaceAll` | vrc_ardy_agent/lower_body_retargeting.py:255-289 | the loop over tracked joints with both clamps |
| `LowerBodyRetargeter.LowerBodyRetargeter.SettleFeet` | vrc_ardy_agent/lower_body_retargeting.py:299-317 | the floor loop and the leg loop |
| `LowerBodyRetargeter.LowerBodyRetargeter.Reset` | vrc_ardy_agent/lower_body_retargeting.py:229-233 | a reset forgets reference and previous output |
| `VadRuns.EveryUtteranceIsGood` | vrc_ardy_agent/energy_vad.py:80-172 | what an emitted utterance is: at most the pre-roll of earlier frames in order, then every frame from the first trigger frame to the current one, with the minimum of speech, within the maximum length, ended by silence or by length |
| `VadRuns.RunsAreDisjoint` | vrc_ardy_agent/energy_vad.py:131-182 | the runs of two utterances never overlap |
| `VadCourse.UtteranceEndsIff` | vrc_ardy_agent/energy_vad.py:149-172 | an utterance under way ends exactly when its trailing silence or its length has reached the limit, is emitted then exactly when it holds enough speech, and silence leaves its newest frames as the next pre-roll |
| `VadCourse.BeginningTakesThePreRoll` | vrc_ardy_agent/energy_vad.py:131-147 | an utterance begins exactly when enough voiced frames have followed each other, with the pre-roll before them |
| `VadCourse.VoicedFramesBegin` | vrc_ardy_agent/energy_vad.py:131-147 | enough voiced frames in a row always begin one |
| `VadCourse.PreRollIsTheNewestSilence` | vrc_ardy_agent/energy_vad.py:131-147 | while none is under way the pre-roll is the newest unvoiced frames pushed, as many as fit, in order |
| `VadCourse.VoicedFramesAddUp` | vrc_ardy_agent/energy_vad.py:149-157 | voiced frames are counted one by one, so a run is all voiced exactly when the count is its length |
| `VadCourse.SilenceIsTrailing` | vrc_ardy_agent/energy_vad.py:149-157 | trailing silence is exactly the unvoiced frames after the last voiced one |
| `VadCourse.ResetForgets` | vrc_ardy_agent/energy_vad.py:108-116 | a reset drops the utterance under way, the candidate and the pre-roll |
| `VadModel.VoicedIffEnergetic` | vrc_ardy_agent/energy_vad.py:184-188 | the truncating RMS gate is exactly: sum of squares at least 320 times the squared threshold |
| `EnergyVad.EnergyVadSegmenter.Push` | vrc_ardy_agent/energy_vad.py:80-106 | buffers and counters compute exactly the specified segmentation; a wrong frame length is refused |
| `EnergyVad.EnergyVadSegmenter.PushInactive` | vrc_ardy_agent/energy_vad.py:131-147 | pre-roll, candidate and trigger |
| `EnergyVad.EnergyVadSegmenter.PushActive` | vrc_ardy_agent/energy_vad.py:149-157 | voiced, duration and silence counters |
| `EnergyVad.EnergyVadSegmenter.Finish` | vrc_ardy_agent/energy_vad.py:159-172 | what is emitted and which tail becomes the next pre-roll |
| `EnergyVad.EnergyVadSegmenter.RmsOf` | vrc_ardy_agent/energy_vad.py:184-188 | the summing loop computes the RMS |
| `EnergyVad.EnergyVadSegmenter.Reset` | vrc_ardy_agent/energy_vad.py:108-116 | a reset forgets all audio |
| `AudioIngest.UtterancesAreNeverSpliced` | vrc_ardy_agent/audio_interaction_pipeline.py:84-114 | whatever chunks arrive, all frames of one utterance come from one session and lie as far apart in its sequence as in the stream |
| `AudioIngest.OnlyInterruptionsReset` | vrc_ardy_agent/audio_interaction_pipeline.py:84-114 | over any run the segmenter is reset before a chunk exactly when that chunk does not continue the session and sequence of the one before |
| `AudioIngest.AudioInput.AcceptAudio` | vrc_ardy_agent/audio_interaction_pipeline.py:84-114 | a new session or a gap resets the segmenter before the chunk goes in |
| `FollowRuns.SearchFollowsTheClock` | vrc_ardy_agent/follow_control.py:231-335 | for every run with a clock that never runs back, the search phase is read at the sum of the gaps since the loss whose earlier tick was not an identity scan |
| `FollowRuns.SearchClockNeverRunsBack` | vrc_ardy_agent/follow_control.py:231-257 | the search clock never decreases and stands still across a scan |
| `FollowRuns.EveryDecisionIsInRange` | vrc_ardy_agent/follow_control.py:65-79 | no decision of any run is out of range |
| `FollowRuns.InsideABandNothingChanges` | vrc_ardy_agent/follow_control.py:177-218 | hysteresis: inside a band the last behaviour goes on; it turns only towards the target and never advances on a near one |
| `FollowRuns.SmoothingStaysBetween` | vrc_ardy_agent/follow_control.py:156-170 | smoothing stays between the latest observation and the value before it |
| `FollowRuns.SameObservationIsCountedOnce` | vrc_ardy_agent/follow_control.py:156-170 | the same observation is not weighed twice |
| `FollowCourse.NothingShownIsNothing` | vrc_ardy_agent/follow_control.py:117-155 | an absent, stale, invisible or incomplete observation is treated exactly like none |
| `FollowCourse.ShownTargetIsAnswered` | vrc_ardy_agent/follow_control.py:117-229 | a fresh complete observation is answered by turning, approaching or holding, an identity scan by standing still |
| `FollowCourse.FirstObservationIsTaken` | vrc_ardy_agent/follow_control.py:156-170 | the first observation after a loss, or ever, is taken as it is |
| `FollowCourse.SmoothingIsProportional` | vrc_ardy_agent/follow_control.py:156-170 | a further one moves both smoothed values by the same fraction of the way towards it |
| `FollowCourse.SteeringOutsideTheBands` | vrc_ardy_agent/follow_control.py:177-218 | beyond the band it turns in proportion to the error up to full turn; inside it approaches a far target in proportion to the missing height up to full speed and holds before a near one; in between it goes on with what it did |
| `FollowCourse.SearchTimeline` | vrc_ardy_agent/follow_control.py:258-305 | at time t of the search: wait, then in each cycle sweep to one side, keep turning and advance, every other cycle to the other side |
| `FollowCourse.SearchStartsWhereLastSeen` | vrc_ardy_agent/follow_control.py:153-305 | a search first turns to the side on which the target was last seen |
| `FollowControl.FollowController.Step` | vrc_ardy_agent/follow_control.py:117-229 | the whole decision and the whole new state for every observation |
| `FollowControl.FollowController.LoseTarget` | vrc_ardy_agent/follow_control.py:231-305 | the incremental timeline gives the specified search decision |
| `FollowControl.FollowController.ObserveIdentityScan` | vrc_ardy_agent/follow_control.py:307-321 | a scan pauses the timeline |
| `TurnRuns.EffectRunsIffTurnIsAlive` | vrc_ardy_agent/dialogue_turns.py:63-77 | a side effect runs if and only if its turn was begun and nothing newer, no invalidation and no decision has ended it |
| `TurnRuns.EffectsIncrease` | vrc_ardy_agent/dialogue_turns.py:37-89 | the turns whose effect ran have strictly increasing versions, so each runs at most once |
| `TurnRuns.VersionsIncrease` | vrc_ardy_agent/dialogue_turns.py:37-48 | every new turn's version is above all before it |
| `TurnRuns.VersionCountsAdvances` | vrc_ardy_agent/dialogue_turns.py:37-89 | the version counts exactly the turns begun and the invalidations that ended one |
| `DialogueTurns.DialogueTurnManager.BeginTurn` | vrc_ardy_agent/dialogue_turns.py:37-48 | a new turn supersedes the pending one |
| `DialogueTurns.DialogueTurnManager.ClaimCurrent` | vrc_ardy_agent/dialogue_turns.py:54-61 | one claim per current turn |
| `DialogueTurns.DialogueTurnManager.ApplyIfCurrent` | vrc_ardy_agent/dialogue_turns.py:63-77 | the effect and the end of its turn are one section |
| `DialogueTurns.DialogueTurnManager.InvalidatePending` | vrc_ardy_agent/dialogue_turns.py:79-89 | the version rises exactly when a turn was pending |
| `PipelineRuns.CountersAddUp` | vrc_ardy_agent/audio_interaction_pipeline.py:152-260 | detected utterances equal active plus completed plus failed plus superseded if and only if no step of the run removed a job that ended as a plan or without an outcome; so always outside record-only mode when no job dies |
| `PipelineRuns.UtterancesAreConserved` | vrc_ardy_agent/audio_interaction_pipeline.py:152-260 | in every state of every run the same sum plus the number of jobs removed that way |
| `PipelineRuns.PlannedUtteranceIsForgotten` | vrc_ardy_agent/audio_interaction_pipeline.py:215-260 | a record-only run after which one utterance was detected and no counter knows it |
| `PipelineRuns.DeadUtteranceIsForgotten` | vrc_ardy_agent/audio_interaction_pipeline.py:215-260 | the same for a job that dies without an outcome, in either mode |
| `PipelineRuns.StaleJobsNeverAct` | vrc_ardy_agent/interaction_runtime.py:338-394 | over all interleavings a job's section runs at most its own turn's effect, none once a newer turn or a halt came, and a completed job has acted |
| `PipelineCourse.CountersCountTheirOutcomes` | vrc_ardy_agent/audio_interaction_pipeline.py:215-260 | over every run each counter counts exactly the jobs removed with its outcomes, and detected counts the utterances |
| `PipelineCourse.UndisturbedJobEnds` | vrc_ardy_agent/interaction_runtime.py:202-394 | the newest job, left undisturbed, ends with the outcome its recognizer, planner and devices call for, has used its turn exactly as far as that story goes, and leaves everything else unchanged |
| `PipelineCourse.LaunchStands` | vrc_ardy_agent/audio_interaction_pipeline.py:152-171 | a new utterance makes its job the newest one with its turn current |
| `PipelineCourse.OvertakenJobEndsSuperseded` | vrc_ardy_agent/interaction_runtime.py:213-394 | once its turn is not current, a job's next check or action ends it as superseded without an effect |
| `PipelineCourse.OlderUtteranceIsNotAdmitted` | vrc_ardy_agent/audio_interaction_pipeline.py:262-266 | an older utterance, and a turn already handled, end as superseded at once |
| `PipelineCourse.HandlingIsExclusive` | vrc_ardy_agent/interaction_runtime.py:202-212 | in every run each turn is handled by at most one job and marked exactly while it is |
| `AudioPipeline.AudioInteractionPipeline.Launch` | vrc_ardy_agent/audio_interaction_pipeline.py:152-171 | the turn is reserved with the job |
| `AudioPipeline.AudioInteractionPipeline.AdmitTranscript` | vrc_ardy_agent/audio_interaction_pipeline.py:262-266 | only the newest job is admitted |
| `AudioPipeline.AudioInteractionPipeline.Finish` | vrc_ardy_agent/audio_interaction_pipeline.py:215-260 | each outcome goes to its counter |
| `AudioPipeline.InteractionRuntime.BeginHandling` | vrc_ardy_agent/interaction_runtime.py:202-212 | a turn that is being handled is reported as superseded and stays handled; any other enters, as the first section of its job does |
| `AudioPipeline.InteractionRuntime.FailReserved` | vrc_ardy_agent/interaction_runtime.py:304-317 | a failure of a superseded turn is superseded |
| `AudioPipeline.InteractionRuntime.DispatchBundle` | vrc_ardy_agent/interaction_runtime.py:338-387 | applied, planned, failed or superseded, with the effect inside the turn's section |
| `AudioPipeline.InteractionRuntime.FastStop` | vrc_ardy_agent/interaction_runtime.py:246-261 | the halt is the effect of its turn |
| `StreamCodecLaws.RoundTrip` | vrc_ardy_agent/stream_protocol.py:120-481 | for every message of the eleven kinds the encoder accepts, decoding gives it with identifiers and texts trimmed, and encoding that gives the same wire object |
| `StreamCodecLaws.DecodeEncode` | vrc_ardy_agent/stream_protocol.py:120-481 | decoding what was encoded succeeds |
| `StreamCodecLaws.TrimEncodesTheSame` | vrc_ardy_agent/stream_protocol.py:497-514 | trimming changes nothing on the wire |
| `StreamCodecLaws.WireDeterminesTheMessage` | vrc_ardy_agent/stream_protocol.py:120-267 | two accepted messages with one wire object differ in surrounding white space alone |
| `StreamCodecLaws.DecodedMessageIsStable` | vrc_ardy_agent/stream_protocol.py:270-481 | whatever the decoder accepts is trimmed, would be accepted by the encoder and decodes to itself again |
| `StreamCodecGrammar.DecodesIff` | vrc_ardy_agent/stream_protocol.py:270-576 | an object is decoded to a message exactly when it has protocol version 2, the message's type, exactly its fields and no others, each saying that message's value, within sixteen mebibytes: the decoder against a relational grammar, for all eleven kinds |
| `StreamCodecWire.EncodesIff` | vrc_ardy_agent/stream_protocol.py:120-267 | a message is encoded exactly when every field is well formed, each limit written out, and the object has at most sixteen mebibytes |
| `StreamCodecWire.FieldsOnTheWire` | vrc_ardy_agent/stream_protocol.py:120-267 | every value stands in the field of its own name, trimmed |
| `StreamCodecWire.NamesOnTheWire` | vrc_ardy_agent/stream_protocol.py:120-267 | the eleven types and the two resources by their names |
| `Base64.DecodeEncode` | vrc_ardy_agent/stream_protocol.py:550-556 | every byte string survives base64 |
| `Base64Grammar.DecodesIff` | vrc_ardy_agent/stream_protocol.py:550-556 | the decoder takes exactly the texts that stand for some bytes group by group, with padding in the last group alone, and gives those bytes |
| `Base64.GroupsAreNumbers` | vrc_ardy_agent/stream_protocol.py:550-556 | four letters are the number their three bytes are, shorter groups are padded |
| `Base64.LettersAreTheAlphabet` | vrc_ardy_agent/stream_protocol.py:550-556 | the digits are the letters of table 1 of RFC 4648 |
| `Trimming.StripIsIdempotent` | vrc_ardy_agent/stream_protocol.py:497-514 | stripping twice is stripping once |
| `Trimming.OnlySpaceIsStripped` | vrc_ardy_agent/stream_protocol.py:497-514 | what is stripped is white space on both sides, and what is left begins and ends with something else |
| `Trimming.SpacesOfAscii` | vrc_ardy_agent/stream_protocol.py:497-514 | which ASCII characters are white space |

## Left out

- Sockets, processes, capture, OSC packing, command lines, configuration, avatar packages, benchmark reports and the TypeScript wizard: plumbing around the modelled core.
- ARDY inference, speech recognition, planning, OCR and vision: opaque, their results are inputs.
- Rotations, face channels and joint mapping of poses: bodies and faces are abstract and their blend is any function, so only movement, blend weights and the choice of frames are stated; the retargeter models positions only.
- Floating point: numbers are real, and the Euclidean norm of the retargeter is any function with the defining property of a norm.
- Liveness, timeouts and scheduling: what is proved is safety over steps; deadlines are compared with clock inputs.
- Heartbeats, status snapshots, error texts, frame counters and bounded histories: observability; terminal records and logs are kept unbounded.
- CharacterSupervisor: action kinds and payloads, turn ids and timestamps are not modelled; resources share nothing but the lock, so runs are stated for one resource.
- SupervisorSystem: the supervisor drives one resource there; control messages for other resources come from the environment.
- MotionDirector: building and stopping the pose session outside the lock is one step with an outcome, and any failure context may be followed by FailStream, which allows more runs than the program has.
- AnchoredMotion: the play loop around send_next, its pacing and its callback threads; joining the producer before the sink is closed.
- DeviceGateway: what the sink does to a device when it neutralizes, the expiry counter and the touch of the heartbeat.
- TrackerDeviceController: waiting for the writer thread on close; a caller other than the writer loop may also record a failed flush a second time, which changes nothing.
- CalibrationSession: shape checks of request payloads, the avatar rig hash and the head origin, which come before the lock and change nothing.
- LowerBodyRuns: no workspace or speed bound is stated for a foot after the floor and leg clamps, because the code does not keep one there.
- EnergyVad: unpacking little-endian bytes into samples and joining frames into bytes; frames are sequences of samples.
- AudioPipeline: autonomy ticks and latency figures; the observation loop between planner requests may report a superseded turn at any time.
- StreamCodec: JSON text and UTF-8, whose byte size is a parameter; payload objects have string field names and JSON values, so coercions of other keys and values by the serializer are outside; every protocol violation is one error, including those the program raises as a type error.
- Wav and pose payload encoding, screenshots beyond their envelope, and the input transport: easy members beside the codec.
