# Verified model of the handoff protocol

`handoff` replaces a running stateful process without losing its listeners or its data. A
supervisor S talks to the running incumbent O and to a freshly spawned successor N. O
drains, seals its data directory and gives up the directory's flock; N takes the flock,
opens the data and reports ready; S then tells O to exit, or kills N and tells O to resume.

The project models the parts of the library that decide whether this is safe, and proves
the properties it exists for:

- **The three roles and their composition.** `HandoffSupervisor`, `IncumbentSession` and
  `SuccessorBoot` are automata over the externally visible effects of the code.
  `SupervisorCode` and `IncumbentCode` are the code itself, with loops and mutable fields;
  every effect they perform is checked to be a step of the automaton. `HandoffScript` is a
  second description of `perform_handoff`, as a numbered script with the ways of leaving it,
  and the proof that every run follows it. `System` composes any
  number of processes and handoffs with one kernel flock, FIFO connections that can close,
  a journal and a data directory, and lets any process or supervisor die between any two
  steps. `SystemProofs` carries the invariant, `SystemTheorems` the results about the
  handoff, `SingleWriter` those about the data, and `SystemRun` whole runs: a handoff that
  commits, one that aborts, and the runs behind the findings below.
- **Framing and the wire.** `Framing` proves the resumable reader equal to the simple one;
  `Wire` composes encoding, partial sends, the heartbeat thread and the reader.
- **Descriptors and listeners.** `FdShuffle` is the in-place three-stage shuffle after
  fork; `Listeners` carries names and sockets from the supervisor's list to the successor's
  map.
- **Lock, journal, timeouts.** `DataDirLock` is the pidfile discipline under arbitrary
  interleavings, `Journal` the journal file under power failures, `Timeouts` the two-tier
  waits and the time one handoff can take.

## What the proofs found

Where a property promised by the documentation does not hold of the code as it stands, the
model keeps the code, shows the failing run, and proves the exact condition under which the
property holds.

- `Incumbent::serve`, `announce_and_bind` and `bind_cold_start` take the lock guard by value.
  A fatal accept error, a failed `Ready` write or a failed bind returns an error and drops
  the flock while the process goes on with its writer open. Single-writer safety holds if
  and only if none of these happens (`SingleWriterIffGuardsKept`); each admits a second
  writer (`DropAdmitsSecondWriter`, `TwoWritersAfterAccept`, `TwoWritersAfterReady`). The
  other results about the handoff hold in those runs too.
- A `SealRequest` that reaches an already sealed session, with a failing seal hook, resumes
  the consumer without the flock (`ResealResumesWithoutLock`). S never sends one.
- A drain episode is resumed twice if and only if a resume hook fails in the seal-failed
  arm or in the drained-rollback arm (`ServeLoopRecovers`; `DoubledReachable` is such a run).
- The `Drainable` documentation promises a resume whenever `drain` ran. Over whole runs the
  serve loop is never back in accept without it if and only if no drain hook failed in a
  session that had not been drained before (`DrainsResumedIff`); a run in which one did fail
  is `SkippedReachable`.
- A heartbeat whose send fails part-way ends only the heartbeat thread; the main thread then
  writes into the middle of that frame (`CutHeartbeatDerails`). The stream is well framed if
  and only if nothing is sent after a frame was cut short (`WellFramedIff`).
- `StateJournal::delete` does not sync the directory, so a deleted journal can come back
  after a power failure (`DeletedMayReappear`); and `write_atomic` does not sync the parent
  of a directory it had to create, so a returned write is durable if and only if the
  directory was already there (`ReturnedIff`).
- The documentation of `SpawnSpec::deadline` bounds the overrun by one second. A ready wait
  keeps to that, but for one last recv of `MIN_READ_TIMEOUT`, if and only if it is entered
  while at least `MIN_READ_TIMEOUT` of the budget is left, so that the floor in
  `remaining_until` does not bite (`ReadyInTimeIff`). For every
  choice of budgets some handoff overruns by more than two seconds; the exact maximum is
  `LatestEnd` (`HandoffEndsInTime`, `LatestEndIsReached`).
- `Phase::Committed` is documented as "Commit sent", but the code journals it even when that
  write failed (`CommittedWithoutCommit`). Commit was sent if and only if its one write did
  not fail (`CommittedSentIff`); what the phase always implies is an accepted `Ready`.
- The supervisor does not clear an inherited `LISTEN_PID`, and accepts descriptors that are
  no sockets and names that contain a colon or repeat. The hand-over works if and only if
  none of these gets in the way (`HandOverIff`).
- A read on O's side that fails while the connection is up sends O into recovery behind S's
  back: it can meet N holding the flock (`FaultMeetsSuccessor`) or take the flock from under
  an N that was told to begin (`FaultBeatsSuccessor`). The two theorems about that window
  therefore exclude it, and only there.
- A closed source descriptor is an error in the FD shuffle, unless the duplicate of an
  earlier source was given its number (`InstallInheritedFds`).

## Modelling decisions

- Hooks, sockets, spawn, journal writes and the flock answer nondeterministically. The
  hooks' contracts are taken from their documentation: a successful drain or seal has
  fsynced every acknowledged write, seal closes the writer and resume re-opens it.
- A process that exits or is killed loses its flock with its life; an error that only drops
  the lock guard leaves it running.
- A failed write delivers no complete frame, except that a failed frame to N may still
  reach it. A read on O's side that fails although the connection is up is allowed; theorems
  that need its absence say so (`fault`), and it cannot have happened to an O that is
  executing ResumeAfterAbort.
- Timeouts are nondeterministic in `System` and timed in `Timeouts`. Overlapping handoffs
  are allowed, which includes every behaviour of the in-flight mutex. `resume_from_journal`
  is the `ClearStale` action together with a handoff that connects and closes.
- In `Timeouts` the time on a chunk is the moment a waiting recv would return it, so it
  includes the network, the kernel and any time S is not scheduled. The journal writes and
  frames between two waits are the gaps of a `Plan`.
- In `Journal` any subset, in order, of the directory updates since the last directory sync
  can survive a power failure, a rename is atomic, and unsynced data turns into garbage.

## Model

| member | source | states |
|---|---|---|
| Protocol.NegotiateVersion | crates/handoff/src/protocol.rs:164-182 | the greatest version both ranges contain; an error exactly when they share none |
| IncumbentSession.StepKeepsInvIffSafe | crates/handoff/src/incumbent.rs:288-652 | one step from a good state keeps lock, session state and consumer in agreement if and only if it is not one of the two unsafe transitions |
| IncumbentSession.RunGoodIffSafe | crates/handoff/src/incumbent.rs:445-652 | over every run of messages, hook results and I/O failures: all states are good (active iff drained, sealed implies drained, lock absent iff sealed at each loop head) if and only if no unsafe transition occurs |
| IncumbentSession.CarefulIsSafe | crates/handoff/src/incumbent.rs:521-535 | a peer that sends no SealRequest while sealed never causes an unsafe transition |
| IncumbentSession.FrameFailsIff | crates/handoff/src/incumbent.rs:480-651 | at the loop head a frame ends the session with an error, and changes nothing else, if and only if it is not a Heartbeat, a PrepareHandoff that fits the active id, or a SealRequest, Abort, ResumeAfterAbort or (once sealed) Commit with exactly that id; the expected frames are obeyed |
| IncumbentSession.AckAcceptedIff | crates/handoff/src/incumbent.rs:408-423 | O goes on with an answer to its Hello if and only if it is a HelloAck with a version O speaks |
| IncumbentSession.SealedHeadReachable | crates/handoff/src/incumbent.rs:480-555 | for any connection and id a run reaches a sealed loop head |
| IncumbentSession.ResealResumesWithoutLock | crates/handoff/src/incumbent.rs:521-576 | the run in which a second SealRequest with a failing hook leaves the consumer writing without the flock |
| IncumbentSession.FlagsAreBacked | crates/handoff/src/incumbent.rs:239-246 | the session flags are backed by a PrepareHandoff, a successful drain and a successful seal, in that order, in the same session and since the last resume |
| IncumbentSession.CommitImpliesDrainedAndSealed | crates/handoff/src/incumbent.rs:579-591 | an accepted Commit(id) follows PrepareHandoff(id), drain and seal in this session with no resume since |
| IncumbentSession.BooksAgree | crates/handoff/src/incumbent.rs:425-442 | an independent ledger of drain episodes agrees with the consumer's state, and an episode is or will be resumed twice exactly when the run is not gentle |
| IncumbentSession.ServeLoopRecovers | crates/handoff/src/incumbent.rs:320-357 | back in accept, O holds the flock and every uncommitted drain episode was resumed; never twice if and only if no resume hook failed in the two named arms; a committed exit is not resumed |
| IncumbentSession.DoubledReachable | crates/handoff/src/incumbent.rs:593-639 | for any connection and id the run from a fresh incumbent in which a drained rollback with a failing resume hook resumes the episode twice |
| IncumbentSession.DrainsResumedIff | crates/handoff/src/drainable.rs:46-53 | over every safe run of sessions that is back in accept: every drain call, failed ones included, was followed by a resume before the loop next reached accept, if and only if no drain hook failed in a session not drained before |
| IncumbentSession.SkippedReachable | crates/handoff/src/incumbent.rs:504-505 | for any connection and id the run from a fresh incumbent in which a failed drain is back in accept without a resume |
| IncumbentCode.Incumbent.OnPrepare | crates/handoff/src/incumbent.rs:480-520 | the PrepareHandoff arm is a path of the automaton and keeps the code's session state equal to the automaton's |
| IncumbentCode.Incumbent.OnSealRequest | crates/handoff/src/incumbent.rs:521-577 | the SealRequest arm, with release before SealComplete and resume after SealFailed, is a path of the automaton |
| IncumbentCode.Incumbent.OnRollback | crates/handoff/src/incumbent.rs:593-639 | the ResumeAfterAbort and Abort arms are paths of the automaton: acquire before resume when sealed, resume alone when only drained |
| IncumbentCode.Incumbent.RunSessionLoop | crates/handoff/src/incumbent.rs:445-652 | every execution of the session loop is a run of the automaton and ends with the outcome the automaton is in |
| IncumbentCode.Incumbent.HandleSession | crates/handoff/src/incumbent.rs:378-443 | every execution of one session, handshake and cleanup included, is a run of the automaton with no resume left owing |
| IncumbentCode.Incumbent.AcquireWithShortRetry | crates/handoff/src/incumbent.rs:172-184 | tries again exactly while the lock is held and two seconds have not passed, at most 81 times, reports the last answer and changes nothing else |
| IncumbentCode.Incumbent.ServeLoop | crates/handoff/src/incumbent.rs:288-359 | every execution of the accept loop is a run of the automaton; serve returns only without the lock, and goes on as long as there is input |
| IncumbentCode.Incumbent.Serve | crates/handoff/src/incumbent.rs:288-359 | on every return of a safe run the consumer is not writing, and Ok leaves the last drain episode to the successor |
| HandoffSupervisor.StepKeepsInv | crates/handoff/src/supervisor.rs:237-609 | every step keeps S's invariant: the script sent to O, what each observation presupposes, and who owns the child; only a kill reaps, only a matching Ready marks ready |
| HandoffSupervisor.StepObserves | crates/handoff/src/supervisor.rs:237-609 | every recorded observation and every frame on a stream comes from the one event that justifies it |
| HandoffSupervisor.RunIsTallied | crates/handoff/src/supervisor.rs:147-195 | over every run the kills, the acceptances of Ready and the leftover journal are what the state records |
| HandoffSupervisor.ChildOwnership | crates/handoff/src/supervisor.rs:237-609 | on every return: committed if and only if a matching Ready was accepted, then N was never killed; otherwise a spawned N was killed and reaped exactly once; Ok without a failed delete means the run cleared what it journaled |
| HandoffSupervisor.NeverKilledAfterReady | crates/handoff/src/supervisor.rs:527-563 | once Ready was accepted N is never killed, whatever fails later |
| HandoffSupervisor.KilledBeforeOLearns | crates/handoff/src/supervisor.rs:584-600 | when ResumeAfterAbort is written or a return closes O's stream, N was reaped, never spawned, or handed over |
| HandoffSupervisor.CommitOutcome | crates/handoff/src/supervisor.rs:546-563 | Commit is tried at most once and reaches O exactly when that write succeeded; the Committed phase is journaled only after the try |
| HandoffSupervisor.JournaledAfterWrite | crates/handoff/src/supervisor.rs:477-600 | AwaitingReady is journaled only after Begin was written to N without an error, ResumingAfterAbort only after ResumeAfterAbort was written to O |
| HandoffScript.HandoffFollowsScript | crates/handoff/src/supervisor.rs:237-609 | every complete run is the documented script of twenty effects up to one that went otherwise, and is then left in one of the documented ways: an error return at once, or Abort, kill and reap, followed by journal clear, or by ResumeAfterAbort, its phase and journal clear |
| HandoffScript.ResultIff | crates/handoff/src/supervisor.rs:437-608 | committed if and only if this handoff's Ready followed AwaitingReady; aborted with Ok if and only if O refused to seal or the resume was sent and journaled; an error otherwise |
| HandoffScript.FramesAreRight | crates/handoff/src/supervisor.rs:663-716 | at every point of every run each HelloAck answers the Hello read just before it, with this handoff's id and the greatest version both sides speak, and PrepareHandoff names the spawned child |
| SupervisorCode.Supervisor.FromO | crates/handoff/src/supervisor.rs:374-436 | the waits on O take in progress frames only, end with what the last receive answered or at the deadline, and take the automaton's branch for it |
| SupervisorCode.Supervisor.Negotiate | crates/handoff/src/supervisor.rs:663-716 | connect, both hello exchanges with the negotiated version, and the spawn are a path of the automaton with every early return |
| SupervisorCode.Supervisor.Prepare | crates/handoff/src/supervisor.rs:292-364 | journal, PrepareHandoff with the child's pid, the budget left and the drain grace, Drained, journal, SealRequest in this order with every early return |
| SupervisorCode.Supervisor.AwaitSealOutcome | crates/handoff/src/supervisor.rs:373-459 | seal timeout and SealFailed abort N, kill and reap it and clear the journal before returning; other failures return at once |
| SupervisorCode.Supervisor.Decide | crates/handoff/src/supervisor.rs:467-608 | a matching Ready leads to commit, everything else to abort, kill and resume, in the automaton's order |
| SupervisorCode.Supervisor.DropLocals | crates/handoff/src/supervisor.rs:184-195 | on return exactly those of N's stream, the child guard and O's stream that are left are dropped, in this order |
| SupervisorCode.Supervisor.PerformHandoff | crates/handoff/src/supervisor.rs:237-609 | committed iff a matching Ready was accepted; then the child was never killed; otherwise a spawned child was killed and reaped exactly once; the effects follow the script, and the acknowledgements and the PrepareHandoff written are the right frames |
| SuccessorBoot.WaitForBegin | crates/handoff/src/role.rs:396-420 | goes on exactly when the first frame that is not a heartbeat is Begin with the negotiated id; Abort, a foreign id and the end of the stream each give their own error |
| SuccessorBoot.BeginIffDecisive | crates/handoff/src/role.rs:396-420 | the automaton proceeds, goes on waiting or refuses, each exactly when the loop does |
| SuccessorBoot.HandshakeIff | crates/handoff/src/role.rs:355-379 | N waits for exactly the id in the HelloAck it read and accepts nothing else as one |
| SystemProofs.ApplyKeepsInv | crates/handoff/src/incumbent.rs:288-652 | every action of any process, supervisor, crash, error, write or flush keeps the invariant of the composed system |
| SystemProofs.ExecKeepsInv | crates/handoff/src/supervisor.rs:237-609 | the invariant holds after every run |
| SingleWriter.SingleWriterIffGuardsKept | crates/handoff/src/lock.rs:78-105 | in every world of a run whoever may acknowledge writes holds the flock, if and only if no fatal accept, failed Ready write or failed bind dropped a guard |
| SingleWriter.DropUnlocksWriter | crates/handoff/src/role.rs:492-500 | each such error leaves the consumer accepting writes with the flock free |
| SingleWriter.DropAdmitsSecondWriter | crates/handoff/src/incumbent.rs:288-319 | after it any cold start becomes a second process accepting writes |
| SingleWriter.LogStep | crates/handoff/src/drainable.rs:26-53 | each step either appends one acknowledged entry to the one log, or drops an unsynced suffix when its writer dies, or leaves the log alone |
| SingleWriter.AcknowledgedWritesSurvive | crates/handoff/src/drainable.rs:26-53 | over whole runs the log is the initial one plus every acknowledged write in order, if no process died on unsynced writes |
| SingleWriter.LogIsSubsequence | crates/handoff/src/drainable.rs:26-53 | even with such deaths no entry is reordered, duplicated or invented |
| SingleWriter.DiskGrows | crates/handoff/src/drainable.rs:26-53 | no step takes anything off the disk |
| SingleWriter.SyncedSurvives | crates/handoff/src/drainable.rs:26-53 | what is on disk at some point of a run is a prefix of the log at every later point, whoever died in between |
| SingleWriter.TenureLog | crates/handoff/src/drainable.rs:26-53 | while one process has the writer open the log grows by exactly the entries acknowledged |
| SingleWriter.SavedIsSynced | crates/handoff/src/drainable.rs:26-44 | a drain, a seal or a death on synced writes leaves the whole log on disk |
| SingleWriter.HolderWritesSurvive | crates/handoff/src/drainable.rs:26-53 | every write of a holder that drained, sealed or did not die on unsynced writes is in the log and in every holder's view at every later point, whichever other process died on whatever |
| SingleWriter.OpenSeesTheLog | crates/handoff/src/drainable.rs:46-53 | a process that opens the data directory starts from exactly that log |
| SingleWriter.ResumeSeesTheLog | crates/handoff/src/drainable.rs:46-53 | so does an incumbent that resumes after its seal |
| SystemTheorems.KillBeforeReacquire | crates/handoff/src/incumbent.rs:593-605 | when a sealed O goes for the flock after ResumeAfterAbort, or in recovery while S neither crashed nor accepted Ready and no read failed on a live connection, N does not hold it; with no third contender the first attempt succeeds |
| SystemTheorems.SuccessorDeadBeforeOLearns | crates/handoff/src/supervisor.rs:584-589 | before O can read ResumeAfterAbort, and before an uncrashed S closes O's stream, N is dead |
| SystemTheorems.BeginExclusive | crates/handoff/src/supervisor.rs:374-477 | from SealComplete until S speaks to O or closes, O has sealed, has no flock and cannot take it; with no third contender N's acquire succeeds |
| SystemTheorems.BeginOnlyAfterRelease | crates/handoff/src/supervisor.rs:466-485 | Begin is written or in flight only after O drained, sealed, released and said so |
| SystemTheorems.CommitSafety | crates/handoff/src/supervisor.rs:504-563 | O leaves serve with Ok only if for the same handoff O drained and sealed, S saw SealComplete and sent Begin, N took the flock and sent Ready, and S gave up its right to kill N before Commit |
| SystemTheorems.HandshakeSucceeds | crates/handoff/src/supervisor.rs:663-716 | over every run the Hello S reads from O or N is one it acknowledges, and the acknowledgement waiting for O is one O accepts |
| SystemTheorems.AckIsAccepted | crates/handoff/src/incumbent.rs:384-423 | an O that said Hello goes on to the session loop with whatever answer it reads |
| SystemTheorems.JournalNeverAhead | crates/handoff/src/state.rs:25-40 | at every point of every run the journal names a handoff that has got that far, phase by phase: drained, sealed, Begin written, Ready accepted, N dead and ResumeAfterAbort written |
| SystemTheorems.ProjectsToRun | crates/handoff/src/supervisor.rs:237-609 | inside every run of the system S's part of a handoff is a run of its automaton, possibly cut short by a crash |
| SystemTheorems.CommittedSentIff | crates/handoff/src/supervisor.rs:546-563 | with Committed in the journal, Commit was written to O if and only if that write did not fail |
| SystemTheorems.OkLeavesNoJournal | crates/handoff/src/supervisor.rs:761-771 | after an Ok return the journal file is not this handoff's unless one of its deletes failed |
| SystemRun.HandoffCanCommit | crates/handoff-tests/src/bin/primitive.rs:63-107 | for any log, processes, id and entries there is a run in which O acknowledges a write, hands over and exits with Ok, and N serves on from the same log |
| SystemRun.HandoffCanAbort | crates/handoff/src/supervisor.rs:572-608 | and a run in which S gives up on a successor that holds the flock: N is dead, O holds the flock again and serves on from the same log |
| SystemRun.CommittedWithoutCommit | crates/handoff/src/supervisor.rs:546-563 | a run whose journal says Committed and in which Commit was never written |
| SystemRun.FaultMeetsSuccessor | crates/handoff/src/incumbent.rs:320-357 | a run with nobody else contending in which a failed read makes O go for the flock while N holds it and S waits for Ready |
| SystemRun.FaultBeatsSuccessor | crates/handoff/src/incumbent.rs:320-357 | a run in which after a failed read O takes the flock back and the N that was told to begin cannot acquire it |
| SystemRun.TwoWritersAfterAccept | crates/handoff/src/incumbent.rs:288-319 | a run from a fresh machine in which a fatal accept and a cold start end with two writers |
| SystemRun.TwoWritersAfterReady | crates/handoff/src/role.rs:492-500 | the same after a failed Ready write |
| Framing.Encode | crates/handoff/src/frame.rs:31-44 | succeeds exactly when the codec does and the frame fits the cap |
| Framing.FrameLayout | crates/handoff/src/frame.rs:31-44 | the bytes of a frame: little-endian length, little-endian version, payload, at most 1 MiB |
| Framing.ReadMessage | crates/handoff/src/frame.rs:74-95 | takes exactly the first frame off the stream, bad frames included, and nothing after it |
| Framing.AnyFrameRead | crates/handoff/src/frame.rs:74-95 | any frame of legal length is read whole and yields its version and message, or a decode error |
| Framing.ReadAllAppend | crates/handoff/src/frame.rs:74-95 | repeated reading is incremental: more bytes continue from the unfinished frame |
| Framing.FrameAccumulator.Fill | crates/handoff/src/frame.rs:144-165 | fills the buffer to its target, or stops at the first read that neither brought bytes nor was interrupted and reports exactly which: timeout, end or failure |
| Framing.FrameAccumulator.PollRead | crates/handoff/src/frame.rs:139-187 | a result means buffer and new bytes are exactly one frame; otherwise everything is retained, and it is pending iff the last read timed out, at the end iff that read found the end, failed iff it failed |
| Framing.PollMany | crates/handoff/src/frame.rs:112-193 | for every stream and schedule, repeated poll_read returns what repeated read_message returns on the bytes consumed and keeps the rest; it reports the end iff a read found it, and then has the whole stream; a fair schedule gets there |
| Wire.Socket.SendAll | crates/handoff/src/sock.rs:407-437 | success puts the whole buffer on the wire, failure a proper prefix of it; it fails exactly on a failed send or one that takes nothing, and goes on after an interrupt |
| Wire.FrameRoundTrip | crates/handoff/src/frame.rs:31-44 | an encoded frame is read back as its version and message |
| Wire.PartialFrame | crates/handoff/src/frame.rs:139-187 | a proper prefix of a frame yields nothing yet |
| Wire.FramesRoundTrip | crates/handoff/src/frame.rs:74-95 | a concatenation of frames is read back as exactly its messages with nothing left |
| Wire.ExecIsGood | crates/handoff/src/incumbent.rs:90-144 | over every interleaving of main and heartbeat thread and every failed send, at most one frame is in flight, and the bookkeeping of cut frames is that of the moves |
| Wire.WellFramedIff | crates/handoff/src/incumbent.rs:105-119 | the wire is the frames completely sent followed by one unfinished frame, if and only if nothing was sent after a frame was cut short |
| Wire.WireRoundTrip | crates/handoff/src/incumbent.rs:90-144 | then the simple reader recovers exactly the messages completely sent, in order |
| Wire.CutHeartbeatDerails | crates/handoff/src/incumbent.rs:114-117 | the run in which a heartbeat cut after its length prefix makes the next, completely sent message unreadable |
| Wire.Receive | crates/handoff/src/frame.rs:139-187 | under any chunking and timeouts the resumable reader returns a prefix of what the simple reader finds, so of the messages completely sent when the wire is well framed, and all of them once the end is reported |
| Wire.WriteFrame | crates/handoff/src/frame.rs:67-70 | encode and send_all are moves of the channel: success completes exactly this message, failure completes none and sends nothing after the cut; it fails only for an unencodable message or a send that failed |
| Wire.SendAndReceive | crates/handoff/src/frame.rs:139-187 | end to end, for every list of messages, plan of sends and schedule of reads: the receiver has a prefix of the messages whose write succeeded, all of them once it sees the end, and every message with a reliable sender and a fair schedule |
| FdShuffle.InstalledIsUnique | crates/handoff/src/fd.rs:79-82 | what the child must see determines the whole descriptor table |
| FdShuffle.StageAll | crates/handoff/src/fd.rs:93-102 | lifts every source to the next spare descriptor above the targets; fails exactly when spares run out or a source is closed and no earlier duplicate took its number |
| FdShuffle.SettleAll | crates/handoff/src/fd.rs:107-114 | every slot gets its source's description with close-on-exec clear, nothing else changes, no dup2 has equal arguments |
| FdShuffle.CloseAll | crates/handoff/src/fd.rs:119-123 | exactly the staging duplicates are closed |
| FdShuffle.InstallInheritedFds | crates/handoff/src/fd.rs:83-126 | for any sources, repeated, closed or inside the target range: succeeds iff each can be staged, for open sources iff enough spares exist; then slot 3+i is source i, everything outside the targets is as before; failure disturbs nothing that was open |
| Listeners.SplitJoin | crates/handoff/src/role.rs:324-327 | splitting undoes joining for colon-free names |
| Listeners.ParsesIff | crates/handoff/src/role.rs:301-304 | the number parser accepts exactly an optional plus, zeros and the decimal digits of a number up to the bound |
| Listeners.TrimmedIff | crates/handoff/src/role.rs:313 | trim and parse read exactly such a number with white space around it |
| Listeners.PaddedPid | crates/handoff/src/role.rs:311-322 | a padded decimal LISTEN_PID is accepted if and only if it is our pid |
| Listeners.PassListenerFds | crates/handoff/src/fd.rs:50-63 | the environment and the slot order, control socket last |
| Listeners.ReadInheritedListeners | crates/handoff/src/role.rs:300-348 | for any environment: nothing without a readable count or with a LISTEN_PID that does not read as our pid; otherwise exactly the sockets among the counted slots from 3 on, each under its name or index, the last of a repeated name |
| Listeners.HandOverIff | crates/handoff/src/role.rs:300-348 | with no LISTEN_PID, or one that reads as the successor's pid, every registered name and no other leads the successor to the registered description if and only if the descriptors are sockets and the names colon-free and unambiguous; with any other LISTEN_PID, and for an empty list, nothing is handed over |
| Listeners.ControlSocketFound | crates/handoff/src/supervisor.rs:718-735 | the count and HANDOFF_SOCK_FD parse back, and that slot is the control socket |
| Listeners.SpawnAndDetect | crates/handoff/src/supervisor.rs:718-739 | end to end through the shuffle for any registered descriptors: the spawn succeeds exactly when the shuffle can stage them; for open ones listener i is at 3 + i, the control socket after them, everything else untouched, and the hand-over works under exactly that condition |
| Listeners.Inherited.TakeValidated | crates/handoff/src/role.rs:145-172 | an entry leaves the map exactly when it is handed out as a listening socket of an accepted family |
| DataDirLock.Caller.WritePidAtomic | crates/handoff/src/lock.rs:160-196 | write, rename, directory sync in this order, stopping at the first failure |
| DataDirLock.Caller.Acquire | crates/handoff/src/lock.rs:78-105 | Ok means flock and pidfile; every error path has released the flock; the result is the one its events call for |
| DataDirLock.Caller.AcquireOrBreakStale | crates/handoff/src/lock.rs:123-144 | the result is the one its events call for: a dead or unnamed holder is retried on the same lock, a live one refused; never LockHeld |
| DataDirLock.RetriesIffStale | crates/handoff/src/lock.rs:123-144 | a finished acquire_or_break_stale made a second attempt if and only if the first was refused by a holder that is not named or not alive |
| DataDirLock.BreakStaleIff | crates/handoff/src/lock.rs:123-144 | from its events alone: it ends with the guard iff one of its attempts took the flock and wrote the pidfile, refuses iff the named holder is alive or the second attempt was refused too, fails iff one of them failed |
| DataDirLock.AcquireIff | crates/handoff/src/lock.rs:78-105 | plain acquire reports the lock held iff its attempt was refused, with the pid it read |
| DataDirLock.Caller.Drop | crates/handoff/src/lock.rs:147-154 | the pidfile is removed before the flock is released |
| DataDirLock.ExecKeepsInv | crates/handoff/src/lock.rs:78-154 | over any interleaving of any number of callers and crashes: in the critical section iff holding the flock, and the pidfile names the holder from rename to drop |
| DataDirLock.GuardIsUniqueAndNamed | crates/handoff/src/lock.rs:123-144 | a live guard holds the flock, the pidfile names its process, and no other caller is past flock, however stale the directory was |
| DataDirLock.OnlyHolderTouchesPidfile | crates/handoff/src/lock.rs:147-196 | whoever replaces or removes the pidfile holds the flock before and after |
| DataDirLock.FlockDecides | crates/handoff/src/lock.rs:90-97 | an attempt takes the flock exactly when nobody holds it, whatever the pidfile says |
| DataDirLock.FreeLockIsReclaimed | crates/handoff/src/lock.rs:123-144 | in every reachable world an attempt made while nobody holds the flock ends with the guard once its pidfile writes succeed, whatever was left in the directory |
| DataDirLock.CallProjects | crates/handoff/src/lock.rs:78-154 | inside every interleaving a call that was not killed is where its own events lead |
| Journal.StepEffect | crates/handoff/src/state.rs:62-114 | exactly which values each system call adds to or removes from what a power failure can leave |
| Journal.RecoveryIff | crates/handoff/src/state.rs:85-91 | a value is such a candidate if and only if some power failure leaves it |
| Journal.WholeOrNothing | crates/handoff/src/state.rs:62-100 | over every sequence of writes, deletes, failures, deaths and power failures recovery yields the initial value, a completely written one, or none after a delete |
| Journal.OldOrNew | crates/handoff/src/state.rs:62-82 | a failure anywhere inside write_atomic recovers the old or the new value |
| Journal.ReturnedStays | crates/handoff/src/state.rs:62-82 | after it returned, with the directory itself on disk, every read and recovery yields exactly that value until the next write or delete |
| Journal.ReturnedIff | crates/handoff/src/state.rs:63-65 | a returned write is durable if and only if the directory was already on disk |
| Journal.DeletedMayReappear | crates/handoff/src/state.rs:94-100 | after a delete exactly "none" and everything recoverable before can be recovered, the deleted value included |
| Journal.RecoveryDecodes | crates/handoff/src/state.rs:85-91 | with a lawful codec recovery never reads a corrupt journal, and what it reads was written |
| Journal.StateJournal.WriteAtomic | crates/handoff/src/state.rs:62-82 | Ok iff all six calls succeeded, in order, and an error right after the first that failed; Ok makes the value readable and the only recoverable one (or none if the directory is new); an error adds at most the new value |
| Journal.StateJournal.Delete | crates/handoff/src/state.rs:94-100 | Ok hides the journal and adds "none" to what can be recovered |
| Timeouts.PollRead | crates/handoff/src/frame.rs:139-187 | the recv loop equals the clocked reference, a fresh timer for each recv |
| Timeouts.ReadUntil | crates/handoff/src/supervisor.rs:857-906 | the loop equals the clocked wait with the floored budget, and its outcome is the one the stream calls for |
| Timeouts.SealWait | crates/handoff/src/supervisor.rs:373-436 | the seal loop equals the clocked wait to the overall deadline plus slack; it accepts exactly SealComplete and SealFailed with this id |
| Timeouts.WaitIsSound | crates/handoff/src/supervisor.rs:857-906 | from the stream alone: a wait is decided by the first frame that is no sign of life, accepted iff wanted and unexpected iff not, failed iff it is broken; a timeout skipped no such frame |
| Timeouts.TimedOutWhy | crates/handoff/src/supervisor.rs:867-905 | a wait times out only at its deadline, or after ten seconds of silence between two frames; never in the middle of a frame before the deadline |
| Timeouts.DeadPeerIsNoticed | crates/handoff/src/supervisor.rs:415-430 | when a peer falls silent after a whole frame the wait times out within ten seconds of its last byte |
| Timeouts.TimesOutOnlyAtBudget | crates/handoff/src/supervisor.rs:867-905 | a peer never silent for LIVENESS_TIMEOUT is timed out only at the wall-clock budget |
| Timeouts.AcceptsInTime | crates/handoff/src/supervisor.rs:867-905 | a reply that is whole before the deadline, after keep-alive traffic only, is accepted |
| Timeouts.Prepare | crates/handoff/src/supervisor.rs:300-323 | the PrepareHandoff frame carries the budget left, at least 100 ms, and the whole drain grace, in whole milliseconds |
| Timeouts.DrainBudget | crates/handoff/src/incumbent.rs:492-493 | O gives its drain hook exactly the smaller of the two budgets in the frame |
| Timeouts.DrainedIsAccepted | crates/handoff/src/incumbent.rs:492-504 | an O that drains inside the deadline it computes, with transit and processing under WIRE_SLACK, has its Drained accepted |
| Timeouts.WaitEnds | crates/handoff/src/supervisor.rs:867-879 | if each poll_read returns within its armed timeout a wait ends before its deadline plus MIN_READ_TIMEOUT |
| Timeouts.WholeFramesArePrompt | crates/handoff/src/frame.rs:139-187 | that assumption holds whenever frames arrive in one piece |
| Timeouts.TrickleOutlasts | crates/handoff/src/frame.rs:144-165 | without it no bound exists: a trickled frame outlasts every deadline |
| Timeouts.HandoffWaits | crates/handoff/src/supervisor.rs:336-491 | the drain, seal and ready waits in order on one clock: each later one is entered only after Drained, then SealComplete with this id, arrived, and all end by the latest end if all polls are prompt |
| Timeouts.HandoffEndsInTime | crates/handoff/src/supervisor.rs:336-491 | the explicit latest end of the three waits in drain_grace, deadline, WIRE_SLACK, MIN_READ_TIMEOUT and the time between the waits |
| Timeouts.LatestEndIsReached | crates/handoff/src/supervisor.rs:89-102 | for every start and every choice of budgets and gaps that end is reached, more than two seconds past the deadline |
| Timeouts.ReadyInTimeIff | crates/handoff/src/supervisor.rs:956-961 | every prompt ready wait keeps within the documented second of the deadline and one last minimal recv if and only if it is entered with at least MIN_READ_TIMEOUT left |

## Left out

- Socket calls, peer credentials, descriptor flags and the EINVAL handling of timeouts: thin system-call wrappers; their outcome is an oracle where it matters.
- Ownership of the control-socket path across aborts: binding follows the write of Ready, so no invariant holds without timing assumptions.
- Postcard's encoding and UUID generation: external libraries; decode-after-encode and fresh ids are assumed.
- Accept-error classification and backoff: a table and a doubling; only "fatal or not" is modelled.
- The supervisor binary's configuration, trigger socket and command line; metrics, tracing, crash points and error texts.
- Message fields no role inspects: build ids, revisions, fingerprints, reasons, timestamps, readiness snapshots; and the pid and time fields of the journal.
- Liveness under arbitrary scheduling, such as some incumbent always surviving a supervisor crash: O gives up after two seconds, so only safety is claimed.
- Signals that interrupt a timed recv: they restart its timer and are left out of the clocked model; the untimed reader has them.
- The hello exchanges' five-second waits are not part of the wall-clock bound, which starts with the wait for Drained.
- Concurrent writers of one journal: the supervisor's in-flight mutex rules them out.
- Listeners.SpawnAndDetect: for a closed source whose number an earlier duplicate took, only success is stated here; which description its slot gets is stated by `FdShuffle.InstallInheritedFds`.
- SupervisorCode.Supervisor.FromO: any receive may answer with a timeout; when one does is the subject of `Timeouts.SealWait` and `Timeouts.ReadUntil`.
