# go-socket: resumable sessions, hub membership and wire codecs

go-socket is a WebSocket and long-polling server. This project is a Dafny model of its core and proofs
about it.

**Session recovery.** A session outlives its connections. It numbers every reliable frame, keeps a bounded
replay buffer, and lets a reconnecting peer resume from the last number it saw. The central theorem,
`EndToEnd.PeersHandleExactPrefix`, says that in every run a peer following the documented client algorithm
has handled exactly the first `lastSeq` frames of its session's commit log, each once, in order and with the
original bytes, whatever mix of full queues, drops, acknowledgements, oversize frames, evictions, lost
connections, displacements and resumes happened. `EndToEnd.ReturningPeerAlwaysLearns` adds that a returning
peer learns from its first frame whether it was resumed, and if not, why, and
`ReplayWindows.ResumableExactlyWithinWindow` how far back it can resume: exactly as far as the replay limits
reach. The results rest on four layers:

1. `ReplayBuffers`, `KeyWindows`: the slices with a head offset and in-place compaction, and what they mean.
2. `SessionSpec`, `StoreSpec`: one session and the session store as values; the resume verdict, re-attachment,
   parking, eviction and sweeping. `Sessions` and `SessionStores` are the objects that are updated in place and
   shared by reference, each operation tied to these functions.
3. `ClientSpec`, `ServerModel`, `ServerSteps`, `ServerRuns`: store, hub and connections as one state machine
   with an invariant that every step keeps. `ReplayWindows`, `Broadcasts`, `Stalls`, `Kicks` and `Outcomes`
   draw consequences; `Scenario` exhibits runs.
4. `Peers`, `EndToEnd`: any number of peers against an otherwise arbitrary server environment.

**Hub membership.** `Hubs` models clients and rooms, as values and as maps updated in place.

**Codecs.** `NativeWS` (RFC 6455, sections 5.2 to 5.5), `SocketIO` (Socket.IO packet encoding), `EngineIO` and
`Polling` (Engine.IO packets, batches and the long-polling outbox), `Frames` (the sequence number spliced into
JSON frames), `Bytes` (decimal numerals, exclusive or).

## Assumptions

- Each critical section is one step. The clock is read inside it and does not go back; the source samples it
  just before taking the lock. `StoreSpec.SweepExactIffNoYoungBeforeOld` says what the sweep needs from this.
- Opening a session, transferring rooms and closing a displaced connection are one step.
  `Hubs.ReorderedHandoversLoseRooms` shows what two interleaved handovers would do.
- A session id can be drawn. The branch of `Open` for the case that it cannot is modelled, but with the Go
  version that `go.mod` requires (1.26) reading random bytes does not return an error.
  `Peers.ConnectTellsPeerIff` says that this branch is the only way in which a returning peer stays untold.
- Client handles and drawn session ids are fresh. Sequence numbers do not reach 2^64.
- Rooms are joined by registered clients only. `Hubs.JoinKeepsInvIff` says that the membership invariant needs
  exactly this.
- Frames handed to the server are marshalled message structs, that is JSON objects whose first field is not
  `seq`; this is the precondition of `stamp`. `Peers.OneFrameArrivesIffObject` and
  `Frames.StampNumbersExactlyObjects` say that reliable delivery needs exactly this.

## Where the code differs from its documentation

- `internal/socketio/packet.go` says Encode is the inverse of Decode for every packet Decode produces, and the
  fuzz test asserts a stable canonical form. `2/,/x` is a counterexample (`SocketIO.UnstableInputExists`); the
  exact condition is `SocketIO.CanonicalFormStableIff`, on the packet and on the bytes.
- `writeFrame` writes only the low four bytes of a length, so the field is right exactly for payloads shorter
  than 2^32 bytes (`NativeWS.WrittenLengthCorrectIff`).
- `ReadMessage` refuses a leading continuation frame only when it is final or exceeds the limit
  (`NativeWS.LeadingContinuationRefusedIff`); otherwise it spoils the next message unless its payload is empty
  (`NativeWS.MessageBehindContinuationIff`).
- `docs/RECOVERY.md` says that a client never gets silent partial state. A resume request that an attached
  session cannot serve discards that session and leaves its connection open; every later send to that connection
  succeeds and goes nowhere. `Stalls.AttachedSessionCutOffIff` says exactly when, `Stalls.CutOffForGood` that it
  lasts, `Scenario.CutOffHappens` gives a run.
- `docs/RECOVERY.md` says that a kicked peer cannot resume. A kick takes effect only when the connection retires,
  and then if and only if the connection still holds its session (`Kicks.KickEndsSessionIff`). A connection that
  has been displaced or parked never holds it again (`Kicks.MissedForGood`), so a peer that resumes first keeps
  the session (`Scenario.KickedPeerResumes`).

## Model

| member | source | states |
|---|---|---|
| EndToEnd.PeersHandleExactPrefix | docs/RECOVERY.md:69-84 | in every run of server and peers, a peer with a session has handled exactly the first `lastSeq` frames of its log, once, in order, with original bytes; a peer without one has handled nothing |
| EndToEnd.RunAllKeepsInv | internal/session.go:127-176 | the server invariant and every peer's position in its connection's stream hold throughout every run, the environment being otherwise arbitrary |
| EndToEnd.CaughtUpPeerHasWholeLog | internal/session.go:130-160 | a peer that has read everything on the live connection of a session that has not stalled has handled the whole log: nothing is withheld |
| Peers.ReadEvent | docs/RECOVERY.md:78-81 | the next event frame is a best-effort one, a duplicate from a lagging resume that is skipped, or exactly the next frame of the log |
| Peers.ReadHello | docs/RECOVERY.md:73-77 | after the control frame the peer is at its own position of the resumed session, or at zero of a new one |
| Peers.ConnectKeepsPeerInv | recovery.go:210-220 | connecting, with any lag in the reported position and whether resumed, refused or served without a session, puts the peer in step with the new connection: resumed at its position, or about to be told a reason and a session of its own |
| Peers.ReturningPeerIsTold | internal/session.go:422-481 | every returning peer's pre-queue starts with a control frame: resumed at the reported position, or with a reason and a session unknown before |
| Peers.ConnectTellsPeerIff | internal/session.go:456-461 | that no session id can be drawn is the only way to stay untold: the control frame is there if and only if the resume is granted or an id is drawn; otherwise the connection has no session |
| Peers.UntoldForGood | internal/session.go:456-461 | a connection served without a session never carries a control frame, in any run |
| EndToEnd.ReturningPeerAlwaysLearns | docs/RECOVERY.md:17-19 | in every run in which session ids can be drawn, the first frame a returning peer reads on a new connection resumes its own session and position, or gives a reason and restarts it at the beginning of another session |
| EndToEnd.FirstFrameTellsPeer | docs/RECOVERY.md:73-77 | the same for any state and any connection with a session; on a connection without one the first frame is a best-effort one |
| Peers.OneFrameArrivesIffObject | internal/session.go:204-215 | a delivered and read reliable frame brings an up-to-date peer up to date again if and only if the frame is a JSON object |
| Frames.StampRoundTrip | internal/session.go:204-215 | a stamped object carries exactly its number and, without it, the original bytes |
| Frames.StampedExamples | internal/session.go:204-215 | `{}` becomes `{"seq":7}` and `{"a":1}` becomes `{"seq":12,"a":1}` |
| Frames.StampNumbersExactlyObjects | internal/session.go:204-207 | a frame without a number of its own gets one if and only if it is a JSON object, and its content never changes |
| ServerRuns.RunKeepsInv | internal/session.go:422-599 | every run keeps store, hub and connections in agreement; logs only grow, closed sessions stay closed, connections keep their session and only gain frames, releases are permanent |
| ServerRuns.StepKeepsInv | internal/hub.go:95-117 | each single step does so |
| ServerRuns.RegistriesAgree | internal/client.go:227-240 | the registered clients that have a session are exactly the members of the stored sessions, each of its own, and show as parked exactly when the session is |
| ServerRuns.StreamShape | internal/client.go:346-368 | every connection's stream is the control frame, then frames numbered consecutively from one above the resume position (or from 1) with their logged bytes, unnumbered frames in between |
| ServerRuns.ClosedSessionsNeverResume | internal/session.go:427-436 | a released or terminated session stays closed through every run and a request for it is answered with "unknown session" |
| ServerRuns.OnlyOwnersResume | internal/session.go:189-191 | in every run, a connection that is given a session has asked for it in the name of the owner the session was created for |
| ServerRuns.ResumeNeedsOwner | internal/session.go:427-446 | a connection that is given an existing session has asked for it by id, as its owner, in time, and at a position from which everything is still buffered |
| ServerRuns.QueuesStayBounded | internal/client.go:145-157 | in every run a queue stays within its capacity and a closed connection stays closed |
| ClientSpec.PumpKeepsStream | internal/client.go:346-368 | one frame is written if there is one and the stream as a whole stays as it is |
| Outcomes.SendArrives | internal/client.go:167-182 | a frame sent through any handle of a session whose connection is open and has room is the next one on that connection's stream, with the next number unless it is a best-effort one |
| Outcomes.EveryFrameIsAccounted | internal/session.go:140-175 | a frame handed to an attached session is counted exactly once: in the log, on the stream as a best-effort frame, or in the drop counter of the session or of its client |
| Outcomes.AckFrees | internal/session.go:107-113 | an acknowledgement within the log frees exactly the frames it confirms and changes nothing else; one beyond the log changes nothing |
| Outcomes.ResumeMeans | recovery.go:210-220 | a granted resume: the new connection holds the session, which has not stalled; its stream is the control frame, the missing frames and what was queued; it takes over registration and rooms; the connection that held the session is closed; nobody else changes and nothing is released |
| Outcomes.NewSessionMeans | internal/session.go:456-481 | a new session: its owner, its connection and its control frame with the reason; nobody else's connection changes; a session is released and its member unregistered exactly when the request's own session can no longer be resumed |
| Outcomes.OpenedMeans | internal/session.go:404-417 | what `Open` reports is what happens: resumed, the previous member that leaves the hub, the connection that is closed, the session that is released |
| Outcomes.RetireMeans | internal/client.go:227-240 | a client whose session is gone, or that has none, is unregistered; one whose session has parked stays registered and shows as parked; a displaced one changes nothing |
| Kicks.KickEndsSessionIff | internal/session.go:525-547 | the retirement of a kicked connection ends its session if and only if the connection still holds the session at that moment, and otherwise changes nothing |
| Kicks.KickedPeerStaysOut | docs/RECOVERY.md:137 | when it does, every later request of the kicked peer is answered with "unknown session", in every run |
| Kicks.MissedForGood | internal/session.go:535-538 | a connection that has been displaced or parked never holds its session again, in any run |
| ServerRuns.RunConservesSessions | internal/session.go:647-651 | in every reachable state sessions created = stored + released + terminated, and no session is released twice |
| ServerModel.OpenSessionRunsOpen | recovery.go:210-220 | the composite connect step leaves the store and the client's pre-queue as `Open` prescribes |
| ServerModel.RetireRunsLeave | internal/client.go:229-240 | the composite retire step leaves the store as `Leave` prescribes |
| ServerModel.SweepNowRunsSweep | recovery.go:172-176 | the composite sweep step leaves the store as `Sweep` prescribes |
| ServerModel.DeliverKeepsStream | internal/session.go:151-175 | a delivery keeps the live connection's stream an unbroken run of the log, and complete unless the session stalls |
| ServerSteps.TrySendKeepsCore | internal/client.go:167-182 | sending by any handle and policy keeps the invariant and moves no session or client |
| ServerSteps.ReleaseKeepsCore | recovery.go:172-176 | discarding a session, for expiry, eviction or replacement, keeps the two registries in step |
| ServerSteps.BindResumeKeepsCore | internal/session.go:484-511 | a granted resume keeps the invariant: the new connection's stream continues the log without a hole and takes over the membership |
| ServerSteps.BindFreshKeepsCore | internal/session.go:456-477 | so does binding a connection to a new session |
| ServerSteps.ParkKeepsCore | internal/session.go:549-555 | so does parking: the member stays registered and shows as parked |
| ServerSteps.EndSessionKeepsCore | internal/session.go:540-546 | so does a terminal leave, which also unregisters the client |
| ServerSteps.ConnectKeepsCore | internal/hub.go:119-123 | so does registering a new connection |
| Broadcasts.StepKeepsSessionRooms | internal/hub.go:204-216 | the rooms of a stored session after any step: only its own joins and leaves change them; parking, resuming, displacing, sweeping and evicting others do not |
| Broadcasts.RunKeepsSessionRooms | internal/hub.go:204-216 | the rooms of a session still stored after any run are its rooms before, changed by its own joins and leaves and by what its new connections had joined, and by nothing else |
| Broadcasts.RoomsSurviveRuns | internal/hub.go:204-216 | in a run without leaves a session that stays stored never loses a room |
| Broadcasts.EmitReachesEachOnce | internal/hub.go:149-202 | an emit to everybody, to one client or to a room is committed exactly once to every session it is for that takes it, attached or parked, and to no other |
| Broadcasts.TargetsAreAddressed | internal/hub.go:168-202 | the targets are the registered clients the job is for: everybody or a room's members without the excluded client, or the one client |
| Broadcasts.EmitReachesPlainClients | internal/hub.go:149-158 | an emit is offered exactly once to every registered client without a session that it is for and changes nothing for the others |
| Broadcasts.PlainSend | internal/client.go:171-182 | a frame for a client without a session is queued exactly when there is room; a disconnect is asked for exactly when the connection is closed or a reliable frame finds no room |
| Broadcasts.RoomBroadcastReachesEachOnce | internal/hub.go:149-159 | a room broadcast is committed exactly once to every session joined to the room that takes it, attached or parked, except the excluded client's, and to no other; under the disconnect policy all take it, under the drop policy exactly those away, stalled or with room in the queue, under the volatile policy none |
| Broadcasts.SendAllCommitsOnce | internal/hub.go:151-158 | a frame sent to a duplicate-free list of registered clients is committed once per listed member's session that takes it, wherever in the list it comes, and to no other session |
| Stalls.StallIsFinal | internal/session.go:161-175 | once a session has stalled on a connection, that connection's stream never grows again, in any run |
| Stalls.DisconnectAtMostOncePerAttachment | internal/session.go:127-130 | over any run, counting direct sends and every position of every broadcast, a session asks for at most one disconnect while attached to a connection, and for none once the connection is quiet |
| Stalls.StallsExactlyWhenAsked | internal/session.go:161-175 | over any run that leaves a session attached to an open connection, it asks for a disconnect exactly once if it has stalled meanwhile and not at all otherwise |
| Stalls.StepStallsIff | internal/session.go:161-175 | a session attached to an open connection stalls exactly in a step that asks for the disconnect |
| Stalls.BroadcastRefusesOnce | internal/hub.go:149-158 | one broadcast asks for at most one disconnect of a connection, and if it does the connection is quiet afterwards |
| Stalls.AttachedSessionCutOffIff | internal/session.go:185-200 | a request for an attached session closes its connection when granted; it discards the session and leaves the connection open, out of the hub and unreachable, if and only if the owner matches and the position is beyond the log or a later frame is gone |
| Stalls.CutOffForGood | internal/session.go:133-136 | a connection cut off this way never receives another frame, in any run |
| Scenario.RecoveryHappens | internal/session.go:484-511 | within any limits, a run exists in which a session is opened, loses its connection, commits a frame while parked and is resumed by a second connection, whose stream is the control frame announcing one replayed frame and that frame numbered 1 |
| Scenario.CutOffHappens | internal/session.go:447-451 | within any limits, a run exists in which a request for a position ahead of the log cuts off the open connection of an attached session |
| Scenario.KickedPeerResumes | internal/client.go:229-240 | within any limits, a run exists in which a kicked peer resumes before its old connection retires and keeps its session |
| SessionSpec.GrantReplaysExactlyMissing | internal/session.go:484-510 | a granted resume primes exactly the frames after the requested position, with their numbers and bytes, and announces their count |
| SessionSpec.GrantIff | internal/session.go:185-200 | for every session and request, a resume is granted if and only if the session is open, the owner matches, it is not parked beyond the TTL, the position lies in the log and every later frame is still buffered |
| SessionSpec.RefusalMeans | internal/session.go:185-200 | each reason is given exactly when its condition is the first to fail, in the order closed, owner, time, position, buffer; the session is discarded exactly when it is open and the request comes from its owner |
| SessionSpec.GrantIffNothingLost | internal/session.go:185-200 | for the right owner and in time, a resume is granted if and only if the position lies in the log and every later frame is still buffered |
| SessionSpec.ResumeGrantedIffWindowFits | internal/session.go:233-283 | whatever deliveries, losses, resumes and acknowledgements of handled frames a session has seen since its creation, a resume by the owner and in time is granted if and only if the frames after the position fit both replay limits |
| SessionSpec.AttachMeans | internal/session.go:484-511 | a resumed session is held by the new connection, has not stalled and buffers exactly the frames after the position |
| ReplayWindows.ResumableExactlyWithinWindow | internal/session.go:422-511 | the same over every run of the server from the creation of the session on, the peer claiming no more than the position |
| SessionSpec.AckCostsResumeIff | internal/session.go:107-113 | an acknowledgement turns a granted resume into a refused one if and only if it lies past the position, within the log, while something is missing; at or beyond `next` it changes nothing |
| SessionSpec.HonestAcksAreFree | internal/session.go:274-283 | however acknowledgements of handled frames interleave with deliveries, evictions, resets, losses and resumes, a request at the peer's position gets the verdict it would have got without them |
| SessionSpec.DeliverKeepsValid | internal/session.go:178-181 | every delivery keeps numbering, buffer and limits consistent and commits the frame once at the end of the log or not at all |
| SessionSpec.DeliverAccountsForFrame | internal/session.go:140-175 | each frame handed to an open session is committed, sent unnumbered or counted as dropped, exactly once; under the disconnect policy always committed |
| SessionSpec.DeliverCommitsIff | internal/session.go:140-175 | a frame handed to an open session is committed if and only if the policy is disconnect, or drop with the session offline or room in the queue |
| SessionSpec.DeliverAsksIff | internal/session.go:127-175 | a delivery asks for a disconnect if and only if the session is open and not offline, the policy is disconnect and the queue is full; a closed queue asks for nothing |
| SessionSpec.DeliverGoes | internal/session.go:140-175 | what is queued and under which number, which counter advances, and when the session stalls, for every policy and queue |
| SessionSpec.DeliverStaysPut | internal/session.go:134-175 | a closed session ignores deliveries, a stalled one queues nothing and asks for nothing, one that asks for a disconnect has stalled |
| StoreSpec.OpenKeepsInv | internal/session.go:422-481 | opening keeps the store invariant: stored iff not closed, listed once iff parked, live iff attached, list ordered by park time and bounded, releases unique |
| StoreSpec.LeaveKeepsInv | internal/session.go:527-572 | so does leaving |
| StoreSpec.SweepKeepsInv | internal/session.go:575-599 | so does sweeping |
| StoreSpec.UpdateKeepsInv | internal/session.go:107-113 | so does any replacement of one session that keeps its place |
| StoreSpec.DeliveryKeepsInv | internal/session.go:130-176 | so does a delivery |
| StoreSpec.AckKeepsInv | internal/session.go:107-113 | so does an acknowledgement |
| StoreSpec.LeaveEvictsLongestParked | internal/session.go:554-571 | parking evicts nobody while there is room, otherwise exactly the longest parked session and never the one just parked |
| StoreSpec.LeaveReports | internal/session.go:527-572 | gone exactly when the session is closed afterwards, displaced exactly when an open session is held by another connection or none, parked exactly when the leaving connection holds it and may resume |
| StoreSpec.DecideMeans | internal/session.go:427-454 | resumed exactly when the session is stored and grants it; the reason for every other request, none for one that asked for nothing; a session is discarded exactly for its owner's expired, out-of-range or unservable request |
| StoreSpec.ParkedLivesForTtl | internal/session.go:575-594 | a session parked at a time is closed by a later sweep, and its owner told that it has expired, exactly when more than the TTL has passed |
| StoreSpec.SweepClosesExactlyExpired | internal/session.go:575-594 | the walk that stops at the first young session closes exactly the parked sessions older than the TTL, keeps the others' order, touches nothing else |
| StoreSpec.SweepExactIffNoYoungBeforeOld | internal/session.go:580-590 | without the ordering the walk is exact if and only if no young session sits in front of an old one |
| StoreSpec.SessionsConserved | internal/session.go:639-651 | sessions created = stored + released + terminated |
| StoreSpec.MemoryBounded | internal/session.go:351-353 | stored sessions buffer at most (live sessions + MaxParked) x ReplayBytes |
| Sessions.Session.DeliverFrame | internal/session.go:130-176 | the in-place delivery does to session and live queue what `Deliver` says, branch by branch |
| Sessions.Session.Commit | internal/session.go:178-181 | advances the number and pushes the frame as `Commit` says |
| Sessions.Session.AckTo | internal/session.go:107-113 | trims the buffer as `Ack` says |
| Sessions.Session.Verdict | internal/session.go:185-200 | decides as `Judge` says, with every refusal reason and kill flag |
| Sessions.Session.AttachTo | internal/session.go:484-511 | rebinds the session and primes the pre-queue as `Attach` and `Replay` say; returns the previous member and the displaced connection |
| Sessions.Session.ClaimKey | internal/session.go:117-125 | a key is granted if and only if it is not among the last `max` granted; nothing else of the session changes |
| Sessions.Session.constructor | internal/session.go:463-472 | a fresh attached session with number 1 next, an empty buffer and an empty key window |
| Sessions.Client.Enqueue | internal/client.go:145-157 | accepted, full or shut, and the queue grows only when accepted |
| Sessions.Client.TrySendPolicy | internal/client.go:167-182 | goes through the session if there is one, otherwise queues, drops with a count, or asks for a disconnect |
| Sessions.Client.PumpOnce | internal/client.go:346-368 | the pre-queue is written before the queue and the stream as a whole stays as it was |
| Sessions.Client.Shutdown | internal/client.go:186-202 | closes the queue; a terminal shutdown also forbids resuming |
| SessionStores.SessionStore.Open | internal/session.go:422-481 | store, result and the client's session and pre-queue are those of `StoreSpec.Open`, for every request, refusal and the case without entropy; the store invariant is kept |
| SessionStores.SessionStore.TryResume | internal/session.go:427-454 | resumes, refuses or refuses and discards as `StoreSpec.Decide` says, on the shared objects |
| SessionStores.SessionStore.AttachLocked | internal/session.go:484-511 | rebinding one shared session object through `AttachTo` makes of the whole store what `StoreSpec.Resume` says, and of the client's pre-queue what `Replay` says |
| SessionStores.SessionStore.Leave | internal/session.go:527-572 | store and result are those of `StoreSpec.Leave`; the client's parked flag is set exactly when the session parks; the evicted sessions are those returned for release; the store invariant is kept |
| SessionStores.SessionStore.DeliverThrough | internal/session.go:130-176 | a delivery on one shared session object changes that session's value as `Deliver` says and nothing else of the store; the store invariant is kept |
| SessionStores.SessionStore.AckThrough | internal/session.go:107-113 | so does an acknowledgement, as `Ack` says; the store invariant is kept |
| SessionStores.SessionStore.EvictLongestParked | internal/session.go:557-565 | the eviction loop ends in `StoreSpec.Evict` |
| SessionStores.SessionStore.Sweep | internal/session.go:575-599 | the sweep loop ends in `StoreSpec.Sweep`; the expired sessions are those returned for release; the store invariant is kept |
| SessionStores.SessionStore.constructor | internal/session.go:367-391 | non-positive options fall back to the defaults; the store is empty, which satisfies the store invariant at any time |
| ReplayBuffers.TrimIsLongestFittingSuffix | internal/session.go:244-246 | eviction keeps the longest suffix within both limits |
| ReplayBuffers.PushKeepsNewest | internal/session.go:235-247 | the newest frame survives its own push unless it is oversize, which empties the buffer |
| ReplayBuffers.PushKeepsLongestSuffix | internal/session.go:233-247 | a push keeps the longest suffix of the old entries and the new one that fits both limits |
| ReplayBuffers.PushOntoLongest | internal/session.go:233-247 | pushing one by one keeps what trimming the whole log at once would keep |
| ReplayBuffers.LongestCoversIff | internal/session.go:280-283 | such a buffer covers a position exactly when everything after it fits both limits |
| ReplayBuffers.PushKeepsLogSuffix | internal/session.go:223-247 | a push keeps the buffer a contiguous suffix of the log and within both limits |
| ReplayBuffers.AckedOnLogSuffix | internal/session.go:274-278 | an acknowledgement leaves exactly the frames numbered above it |
| ReplayBuffers.CoversMeansNothingMissing | internal/session.go:280-283 | looking at the oldest entry alone decides whether every later frame is buffered |
| ReplayBuffers.ReplayIsMissing | internal/session.go:285-293 | what is replayed after a covered position is exactly the missing frames |
| ReplayBuffers.ReplayBuffer.Push | internal/session.go:233-247 | the slice holds `Pushed` of what it held, which is the longest fitting suffix |
| ReplayBuffers.ReplayBuffer.DropOldest | internal/session.go:256-272 | one entry goes; compaction changes nothing else and is paid for by earlier drops |
| ReplayBuffers.ReplayBuffer.AckUpTo | internal/session.go:274-278 | the slice holds `Acked` of what it held |
| ReplayBuffers.ReplayBuffer.EntriesAfter | internal/session.go:285-293 | the entries numbered above a position, in order |
| ReplayBuffers.ReplayBuffer.CoversAfter | internal/session.go:281-283 | decides `Covers` |
| ReplayBuffers.ReplayBuffer.Bounded | internal/session.go:223-231 | the backing slice has at most maxMsgs + max(63, maxMsgs - 1) slots, released slots hold no bytes, and compaction never moved more elements than were dropped |
| KeyWindows.AcceptancesAreFarApart | internal/session.go:303-327 | two acceptances of one key have at least `max` other acceptances between them, over any sequence of claims |
| KeyWindows.ClaimAcceptedIffOutsideWindow | internal/session.go:303-314 | a claim is accepted if and only if the key is not among the last `max` accepted |
| KeyWindows.KeyWindow.Claim | internal/session.go:303-327 | the set and the order slice decide exactly that for the whole history of claims, through eviction and compaction |
| KeyWindows.KeyWindow.GrantsAreFarApart | internal/session.go:303-327 | two grants of one key by this window have at least `max` other grants between them |
| KeyWindows.KeyWindow.EvictOldest | internal/session.go:315-325 | set and live part of the order keep the same distinct keys |
| KeyWindows.KeyWindow.Bounded | internal/session.go:295-301 | the set has at most `max` keys, the slice a constant factor of it, and compaction is amortised |
| Hubs.JoinKeepsInvIff | internal/hub.go:125-135 | a join keeps room members registered if and only if the joiner is; it adds the room, records the time for a new one and keeps an existing creation time |
| Hubs.LeaveRoomKeepsInv | internal/hub.go:137-147 | a leave removes exactly that room and never leaves an empty room |
| Hubs.TransferMovesRooms | internal/hub.go:206-216 | a transfer gives the new client the rooms of both, the old one none, empties no room and keeps creation times |
| Hubs.TransferKeepsOtherRooms | internal/hub.go:210-215 | nobody else's rooms change in a transfer |
| Hubs.UnregisterKeepsInv | internal/hub.go:218-230 | a removed client is in no room and empty rooms are gone |
| Hubs.OthersKeepRooms | internal/hub.go:125-230 | joins, leaves and removals change nobody else's rooms |
| Hubs.ReorderedHandoversLoseRooms | recovery.go:210-216 | two handovers of one session applied in the wrong order leave its rooms with a client that is gone |
| Hubs.Registry.JoinRoom | internal/hub.go:125-135 | the maps change as `Join` says |
| Hubs.Registry.LeaveRoomOf | internal/hub.go:137-147 | the maps change as `LeaveRoom` says |
| Hubs.Registry.TransferMembership | internal/hub.go:206-216 | the loop over all rooms ends in `Transfer` |
| Hubs.Registry.RemoveClientMaps | internal/hub.go:218-230 | the loop that deletes while it walks ends in `Unregister` |
| Hubs.Registry.CollectTargets | internal/hub.go:168-202 | exactly the targets of the job, each once; `Broadcasts.TargetsAreAddressed` says who they are |
| Hubs.Registry.RoomSize | internal/hub.go:329-340 | the number of members whose parked flag is not set |
| NativeWS.MessageReassembled | internal/nativews/conn.go:137-182 | a well-formed run of masked fragments with interleaved pings and pongs yields the first opcode and the concatenated payload, answers every ping in order, consumes exactly its bytes |
| NativeWS.ServerFrameReadsBackIff | internal/nativews/conn.go:259-287 | what the server writes reads back as the same final flag, opcode and payload, with exactly the following bytes left, if and only if the payload is shorter than 2^32 bytes |
| NativeWS.RepliesReadBack | internal/nativews/conn.go:151-155 | the replies to a well-formed run read back as one final pong per ping with its payload, in order |
| NativeWS.CloseAnswered | internal/nativews/conn.go:161-163 | a close frame is answered with an empty close frame and ends reading |
| NativeWS.InterleavedDataRefused | internal/nativews/conn.go:168-170 | a data frame that does not continue an incomplete message is refused |
| NativeWS.SingleFrameReadIff | internal/nativews/conn.go:175-180 | a single final frame is read as a message exactly when its opcode is 1 or 2 |
| NativeWS.UnmaskedRefused | internal/nativews/conn.go:241-243 | an unmasked frame is refused |
| NativeWS.HugeLengthRefused | internal/nativews/conn.go:230-251 | a frame that announces 2^63 bytes or more is refused before its payload is read |
| NativeWS.TruncatedIsEof | internal/nativews/conn.go:209-251 | a frame that breaks off anywhere is an end of input |
| NativeWS.WrittenExamples | internal/nativews/conn.go:22-31 | the unmasked examples of section 5.7 of RFC 6455, byte by byte |
| NativeWS.MaskedExamples | internal/nativews/conn.go:209-257 | the masked examples of section 5.7 of RFC 6455, byte by byte |
| NativeWS.MaskedIsBitwise | internal/nativews/conn.go:252-254 | every bit of byte i is flipped exactly when the bit of key byte i modulo 4 is set |
| NativeWS.OversizeRefused | internal/nativews/conn.go:171-174 | a message above a positive limit is refused wherever in the run the limit is crossed |
| NativeWS.LeadingContinuationRefusedIff | internal/nativews/conn.go:166-180 | a leading continuation frame is refused at once if and only if it is final or exceeds the limit; otherwise its payload is put in front of what is read next |
| NativeWS.MessageBehindContinuationIff | internal/nativews/conn.go:166-180 | a well-formed message behind a leading continuation frame is read as it was sent if and only if that frame is not final and carries no payload |
| NativeWS.ParseClientFrame | internal/nativews/conn.go:209-257 | reading a masked frame gives it back and leaves exactly the bytes after it |
| NativeWS.WrittenLengthCorrectIff | internal/nativews/conn.go:267-277 | the written length field denotes the payload length if and only if it is below 2^32 |
| NativeWS.WrittenLengthIsShortest | internal/nativews/conn.go:267-277 | no length field for the same length is shorter |
| NativeWS.MaskedTwice | internal/nativews/conn.go:252-254 | masking is its own inverse |
| NativeWS.Conn.ReadMessage | internal/nativews/conn.go:137-182 | for every input: result, replies, pongs handed on and bytes left are those of `ReadFrom` |
| NativeWS.Conn.ReadFrame | internal/nativews/conn.go:209-257 | for every input the frame or error of `ParseFrame`, and exactly the input left over after it |
| NativeWS.Conn.Unmask | internal/nativews/conn.go:252-254 | the buffer is unmasked in place |
| NativeWS.Conn.Accumulate | internal/nativews/conn.go:235-238 | the accumulated length is the big-endian value |
| NativeWS.Conn.WriteFrame | internal/nativews/conn.go:259-287 | header and payload are appended to the output |
| SocketIO.RoundTripIff | internal/socketio/packet.go:104-212 | for every packet Encode accepts, Decode gives it back if and only if its wire form is unambiguous |
| SocketIO.CanonicalFormStableIff | internal/socketio/packet.go:144-212 | decode, encode, decode is stable if and only if the input did not combine an explicit default namespace, no ack id and a payload starting with a slash; on the bytes, if and only if `/,/` does not follow the type and attachment header |
| SocketIO.UnstableInputExists | internal/socketio/packet.go:176-188 | `2/,/x` is not stable |
| SocketIO.WireExample | internal/socketio/packet.go:9-14 | `51-/a,9[]` is the wire form of a binary event with one attachment, namespace, ack id and payload, in both directions |
| SocketIO.DecodedShape | internal/socketio/packet.go:155-211 | every decoded packet is encodable, with a comma-free namespace starting with a slash, non-negative numbers and a payload not starting with a digit |
| SocketIO.EncodeMeans | internal/socketio/packet.go:106-131 | encoding fails exactly for an invalid type, misplaced or negative attachments or a namespace without a slash; an absent namespace is written like the default one |
| SocketIO.DecodeMeans | internal/socketio/packet.go:146-204 | decoding succeeds exactly for a valid type digit, a complete attachment header on binary packets and numbers that fit an `int` |
| SocketIO.Encode | internal/socketio/packet.go:106-142 | the built bytes, or an error, for every packet |
| SocketIO.Decode | internal/socketio/packet.go:146-212 | the packet, or an error, for every input |
| SocketIO.ScanDigits | internal/socketio/packet.go:159-162 | stops after the longest run of digits |
| EngineIO.BatchRoundTripIff | internal/engineio/batch.go:12-48 | decoding inverts encoding for a batch if and only if no payload contains the record separator |
| EngineIO.PacketRoundTrip | internal/engineio/packet.go:82-105 | Encode and Decode are inverse to each other; Encode succeeds exactly on valid types |
| EngineIO.UnbatchMeans | internal/engineio/batch.go:31-48 | for every body, decoding succeeds exactly when each segment that is not empty starts with a type digit, and then yields those segments in order |
| EngineIO.WireExamples | internal/engineio/packet.go:3-11 | `4hello`, `1`, and a message and a ping in one body with byte 30 between them |
| EngineIO.JoinedSplit | internal/engineio/batch.go:35 | joining the split parts gives the body back |
| EngineIO.EncodeBatch | internal/engineio/batch.go:12-28 | the joined packets, or an error if one has an invalid type |
| EngineIO.DecodeBatch | internal/engineio/batch.go:31-48 | the packets of the non-empty segments, or an error if one is malformed |
| Polling.OutboxIsLosslessFifo | internal/polling_transport.go:199-253 | in every run, whichever ready branch each poll takes, the packets decoded from successive bodies followed by those queued are the accepted ones in order |
| Polling.FreshTransportIsLossless | internal/polling_transport.go:199-253 | from a new transport on, what the client has decoded is a prefix of what was accepted and the rest is exactly what is queued |
| Polling.PushAcceptedIff | internal/polling_transport.go:199-210 | a packet is accepted exactly while the transport is open and fewer than 64 are queued, and can then be polled at once |
| Polling.OutboxIsBounded | internal/polling_transport.go:199-210 | the outbox never holds more than 64 packets, in any run |
| Polling.IdlePollPings | internal/polling_transport.go:225-230 | an idle poll takes nothing and answers with `2`, which decodes as a ping |
| Polling.EmptyPolls | internal/polling_transport.go:215-239 | a closed transport answers every poll with the end of the stream and queues nothing; a wake-up without data answers with nothing |
| Polling.TakeKeepsLossless | internal/polling_transport.go:215-239 | a poll that takes data brings the client fully up to date |
| Polling.PollingTransport.Poll | internal/polling_transport.go:215-239 | queue and answer for each ready branch, including the idle ping and the spurious wake-up |
| Polling.PollingTransport.CollectBatch | internal/polling_transport.go:241-253 | drains the queue into one body |
| Polling.PollingTransport.EnqueueOutbound | internal/polling_transport.go:199-210 | sent, closed or full, and the queue grows only when sent |
| Polling.PollingTransport.Write | internal/polling_transport.go:91-100 | queues the payload as a message packet |
| Polling.PollingTransport.Ping | internal/polling_transport.go:102-111 | queues a ping packet |
| Polling.PollingTransport.SendClose | internal/polling_transport.go:113-122 | queues a close packet; nothing to do when closed |
| Bytes.DecimalRoundTrip | internal/session.go:210 | a decimal numeral reads back |
| Bytes.XorInvolution | internal/nativews/conn.go:253 | exclusive or with the same byte twice restores it |
| Bytes.XorIsBitwise | internal/nativews/conn.go:253 | every bit is set exactly when the two bits differ |

## Left out

- NativeWS.Conn.ReadFrame: a length that fits an `int` but exceeds what can be allocated makes the source panic
  before it reads the payload; the model reads on or reports the end of the input.
- NativeWS.Conn.ReadMessage: the same holds for a message that contains such a frame.
- The list element pointer of a parked session: being in the list stands for having one.
- Malformed control frames (fragmented or longer than 125 bytes) have no theorem of their own;
  `NativeWS.Conn.ReadMessage` says what the code does with them.
- The glue in `recovery.go` and `retire` is modelled as functions on the server state, not as methods that call
  the store and hub objects.
- HTTP handlers, upgrade handshakes, hijacking and the gorilla adapter: I/O and foreign code.
- Write errors of the transport, deadlines, timers and goroutine scheduling; a write that fails is a connection
  whose remaining stream the peer never reads.
- Hub shutdown and the bounded emit queue of the hub: jobs refused there never reach a session.
- The `$session` body as JSON, hashing of long idempotency keys, random ids: opaque values or parameters.
- The switch from polling to WebSocket: only monotone flags, and queued polling data is not carried over.
- The inbound side of the polling transport, middleware, rate limiting, acknowledgement ids, statistics, logging.
