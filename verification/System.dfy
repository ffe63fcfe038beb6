/** The composition: any number of primitive processes, any number of `perform_handoff`
    runs (in sequence, after supervisor crashes, or overlapping), one kernel flock, FIFO
    control connections, one journal file and one data directory. Any process and any
    supervisor may die between any two steps. */
module System {
  import opened Protocol
  import S = HandoffSupervisor
  import I = IncumbentSession
  import B = SuccessorBoot

  type Entry = nat

  datatype Stage = Booting(b: B.Boot) | Serving(i: I.Inc) | Dead

  /** `origin` is the run that spawned the process. `writer` says its consumer has the
      data directory's writer open; `view` is the log that writer acknowledges against. */
  datatype Proc = Proc(stage: Stage, origin: Option<HandoffId>, writer: bool, view: seq<Entry>)

  /** One `perform_handoff` and its two connections. O has read the first `got` frames of
      `s.sentO`; the queues hold frames in flight. The flags are history: O drained, O
      sealed and released, O's SealComplete was written, a read on O's side failed with
      the connection up, N took the flock, N wrote Ready. */
  datatype Run = Run(s: S.Sup, o: Option<Pid>, accepted: bool, got: nat,
                     fromO: seq<Message>, toN: seq<Message>, fromN: seq<Message>,
                     drained: bool, sealed: bool, told: bool, fault: bool, locked: bool, announced: bool)

  const NEW_RUN := Run(S.START, None, false, 0, [], [], [], false, false, false, false, false, false)

  /** `lock` is the kernel's view of the flock; `disk` is the durable log. `kept` is
      history: no process has yet dropped its lock guard and gone on with its writer open. */
  datatype World = World(lock: Option<Pid>, disk: seq<Entry>, procs: map<Pid, Proc>,
                         runs: map<HandoffId, Run>, journal: Option<(HandoffId, Phase)>, kept: bool)

  datatype Action =
    | Launch(p: Pid)                              // cold start of a primitive
    | StartRun(h: HandoffId)                      // perform_handoff is called, fresh id
    | SupDo(h: HandoffId, se: S.Event, o: Pid, leak: bool, keep: nat)
    | SupCrash(h: HandoffId)
    | BootDo(p: Pid, be: B.Event)
    | IncDo(p: Pid, ie: I.Event)
    | Die(p: Pid, keep: nat)                      // crash, kill or exit
    | Ack(p: Pid, w: Entry)                       // the consumer acknowledges a write
    | Flush(p: Pid, keep: nat)                    // part of the view reaches the disk
    | ClearStale                                  // resume_from_journal

  // ---------------------------------------------------------------- connections

  predicate Connected(pc: I.Pc) {
    !pc.Accepting? && !pc.Recovering? && !pc.ResumeRecovered? && !pc.Exited?
  }

  /** O's end of the run's connection can still take bytes. */
  predicate OUp(g: World, h: HandoffId, r: Run) {
    && r.o.Some? && r.o.value in g.procs && g.procs[r.o.value].stage.Serving?
    && var i := g.procs[r.o.value].stage.i;
       if r.accepted then i.session == Some(h) && Connected(i.pc) else !i.pc.Exited?
  }

  predicate NUp(g: World, r: Run) {
    && r.s.n.Some? && r.s.n.value in g.procs && g.procs[r.s.n.value].stage.Booting?
    && !g.procs[r.s.n.value].stage.b.Bind? && !g.procs[r.s.n.value].stage.b.Stranded?
  }

  // ---------------------------------------------------------------- process death

  /** What is on disk after a process died: the durable log and some of what its writer
      had acknowledged beyond it. */
  function Survives(g: World, q: Proc, keep: nat): seq<Entry> {
    if q.writer && |g.disk| <= keep <= |q.view| then q.view[..keep] else g.disk
  }

  function Kill(g: World, p: Pid, keep: nat): World
    requires p in g.procs
  {
    g.(procs := g.procs[p := g.procs[p].(stage := Dead, writer := false)],
       lock := if g.lock == Some(p) then None else g.lock,
       disk := Survives(g, g.procs[p], keep))
  }

  // ---------------------------------------------------------------- supervisor steps

  function SetRun(g: World, h: HandoffId, r: Run): World {
    g.(runs := g.runs[h := r])
  }

  function SetProc(g: World, p: Pid, q: Proc): World {
    g.(procs := g.procs[p := q])
  }

  /** What the other end and the kernel must offer for S's event to happen. */
  predicate SupGuard(g: World, h: HandoffId, r: Run, e: S.Event, o: Pid) {
    match e
    case ConnectO(ok) => ok ==> o in g.procs && g.procs[o].stage.Serving? && !g.procs[o].stage.i.pc.Exited?
    case RecvO(m) => r.fromO != [] && r.fromO[0] == m
    case SendO(_, ok) => ok ==> OUp(g, h, r)
    case Spawn(p, ok) => ok ==> p !in g.procs
    case RecvN(m) => r.fromN != [] && r.fromN[0] == m
    case SendN(_, ok) => ok ==> NUp(g, r)
    case KillReap => r.s.n.Some? && r.s.n.value in g.procs
    case _ => true
  }

  /** The run after S's event. A failed write to N may still have reached it (the Abort that
      follows can complete it). */
  function SupRun(r: Run, e: S.Event, t: S.Sup, o: Pid, leak: bool): Run {
    r.(s := t,
       o := if e == S.ConnectO(true) then Some(o) else r.o,
       fromO := if e.RecvO? && r.fromO != [] then r.fromO[1..] else r.fromO,
       fromN := if e.RecvN? && r.fromN != [] then r.fromN[1..] else r.fromN,
       toN := if e.SendN? && (e.ok || leak) then r.toN + [e.m] else r.toN)
  }

  /** The journal after S's event. A failed write may still have replaced the file. */
  function SupJournal(g: World, h: HandoffId, e: S.Event, leak: bool): Option<(HandoffId, Phase)> {
    if e.JournalSet? && (e.ok || leak) then Some((h, e.phase)) else if e == S.JournalClear(true) then None
    else g.journal
  }

  function SupDone(g: World, h: HandoffId, r: Run, t: S.Sup, e: S.Event, o: Pid, leak: bool, keep: nat): Option<World> {
    if !SupGuard(g, h, r, e, o) then None
    else
      var g' := if e.KillReap? then Kill(g, r.s.n.value, keep)
                else if e.Spawn? && e.ok then SetProc(g, e.pid, Proc(Booting(B.Greet), Some(h), false, []))
                else g;
      Some(SetRun(g', h, SupRun(r, e, t, o, leak)).(journal := SupJournal(g, h, e, leak)))
  }

  function SupAct(g: World, h: HandoffId, e: S.Event, o: Pid, leak: bool, keep: nat): Option<World> {
    if h !in g.runs || S.Step(g.runs[h].s, h, e).None? then None
    else SupDone(g, h, g.runs[h], S.Step(g.runs[h].s, h, e).value, e, o, leak, keep)
  }

  // ---------------------------------------------------------------- booting steps

  /** Process `p` and run `h` changed, with a new flock and disk. */
  function Moved(g: World, p: Pid, q: Proc, h: HandoffId, r: Run, lock: Option<Pid>, disk: seq<Entry>): World {
    g.(lock := lock, disk := disk, procs := g.procs[p := q], runs := g.runs[h := r])
  }

  /** The process goes on as `q` without the flock it held. */
  function Strand(g: World, p: Pid, q: Proc): World {
    SetProc(g, p, q).(lock := if g.lock == Some(p) then None else g.lock, kept := false)
  }

  /** What S's end of the connection must offer for the event of its successor. */
  predicate BootGuard(r: Run, e: B.Event) {
    match e
    case WroteHello => r.s.nOpen
    case Got(m) => r.toN != [] && r.toN[0] == m
    case Beat => r.s.nOpen
    case WroteReady => r.s.nOpen
    case _ => true
  }

  function BootRunAfter(p: Pid, b: B.Boot, r: Run, e: B.Event): Run {
    r.(fromN := if e.WroteHello? then r.fromN + [Hello(SuccessorSide, p, PROTO_MIN, PROTO_MAX)]
                else if e.Beat? then r.fromN + [Heartbeat]
                else if e.WroteReady? && b.Announce? then r.fromN + [Ready(b.id)]
                else r.fromN,
       toN := if e.Got? && r.toN != [] then r.toN[1..] else r.toN,
       announced := r.announced || (e.WroteReady? && b.Announce?),
       locked := r.locked || e.Acquired?)
  }

  function BootProcAfter(g: World, q: Proc, b: B.Boot, e: B.Event): Proc {
    q.(stage := if e.Bound? then Serving(I.START) else if B.Next(b, e).Some? then Booting(B.Next(b, e).value)
       else q.stage,
       writer := q.writer || e.Opened?,
       view := if e.Opened? then g.disk else q.view)
  }

  function BootAct(g: World, p: Pid, e: B.Event): Option<World> {
    if p !in g.procs || !g.procs[p].stage.Booting? then None
    else
      var q := g.procs[p];
      var b := q.stage.b;
      if !(if e.Bound? then b.Bind? || b == B.ColdBind else B.Next(b, e).Some?) ||
          (e.Acquired? && g.lock != None) then None
      // announce_and_bind and bind_cold_start return Err and drop the guard they were given
      else if e.AnnounceFailed? || e.BindFailed? then Some(Strand(g, p, q.(stage := Booting(B.Stranded))))
      else BootMove(g, p, q, b, e, if e.Acquired? then Some(p) else g.lock)
  }

  function BootMove(g: World, p: Pid, q: Proc, b: B.Boot, e: B.Event, lock: Option<Pid>): Option<World> {
    if q.origin.None? then Some(SetProc(g, p, BootProcAfter(g, q, b, e)).(lock := lock))
    else if q.origin.value !in g.runs || !BootGuard(g.runs[q.origin.value], e) then None
    else Some(Moved(g, p, BootProcAfter(g, q, b, e), q.origin.value, BootRunAfter(p, b, g.runs[q.origin.value], e),
                    lock, g.disk))
  }

  // ---------------------------------------------------------------- incumbent steps

  /** What S's end of the connection and the kernel must offer for O's event. */
  predicate IncGuard(g: World, r: Run, e: I.Event) {
    match e
    case Write(_, ok) => ok ==> r.s.oOpen
    case Read(m) => r.got < |r.s.sentO| && r.s.sentO[r.got] == m
    case ReadEof => r.got == |r.s.sentO| && !r.s.oOpen
    case Acquire(ok) => ok ==> g.lock == None
    case _ => true
  }

  /** The run O's session belongs to, after the step. */
  function RunAfter(i: I.Inc, r: Run, e: I.Event): Run {
    r.(fromO := if e.Write? && e.ok then r.fromO + [e.m] else r.fromO,
       told := r.told || (e.Write? && e.ok && e.m.SealComplete?),
       got := if e.Read? then r.got + 1 else r.got,
       fault := r.fault || (e.ReadFail? && i.pc == I.LoopHead),
       drained := r.drained || e == I.Drain(true),
       sealed := r.sealed || e.Release?)
  }

  function LockAfter(g: World, p: Pid, e: I.Event): Option<Pid> {
    if e.Release? then (if g.lock == Some(p) then None else g.lock) else if e == I.Acquire(true) then Some(p)
    else g.lock
  }

  /** drain and seal fsync before they return, so no acknowledged write is left in memory. */
  function DiskAfter(g: World, q: Proc, e: I.Event): seq<Entry> {
    if (e == I.Drain(true) || e == I.Seal(true)) && q.writer then q.view else g.disk
  }

  /** seal closes the writer and resume re-opens it. */
  function ProcAfter(g: World, q: Proc, e: I.Event, j: I.Inc): Proc {
    q.(stage := Serving(j),
       writer := (q.writer && e != I.Seal(true)) || e.Resume?,
       view := if e.Resume? && !q.writer then g.disk else q.view)
  }

  function IncAct(g: World, p: Pid, e: I.Event): Option<World> {
    if p !in g.procs || !g.procs[p].stage.Serving? || I.Step(g.procs[p].stage.i, e).None? then None
    else IncDone(g, p, g.procs[p], g.procs[p].stage.i, e, I.Step(g.procs[p].stage.i, e).value)
  }

  function IncDone(g: World, p: Pid, q: Proc, i: I.Inc, e: I.Event, j: I.Inc): Option<World> {
    if e.Accept? then
      if e.conn !in g.runs || g.runs[e.conn].o != Some(p) || g.runs[e.conn].accepted then None
      else Some(Moved(g, p, q.(stage := Serving(j)), e.conn, g.runs[e.conn].(accepted := true), g.lock, g.disk))
    // serve returns and drops the lock guard; the consumer goes on
    else if e.AcceptFatal? then Some(Strand(g, p, q.(stage := Serving(j))))
    else if i.session.None? || i.session.value !in g.runs || !IncGuard(g, g.runs[i.session.value], e) then None
    else Some(Moved(g, p, ProcAfter(g, q, e, j), i.session.value, RunAfter(i, g.runs[i.session.value], e),
                    LockAfter(g, p, e), DiskAfter(g, q, e)))
  }

  // ---------------------------------------------------------------- all steps

  /** The consumer may acknowledge writes. */
  predicate Accepts(q: Proc) {
    match q.stage
    case Booting(b) => q.writer && B.Writing(b)
    case Serving(i) => q.writer && i.mayWrite
    case Dead => false
  }

  function Apply(g: World, a: Action): Option<World> {
    match a
    case Launch(p) =>
      if p in g.procs then None else Some(SetProc(g, p, Proc(Booting(B.ColdAcquire), None, false, [])))
    case StartRun(h) => if h in g.runs then None else Some(SetRun(g, h, NEW_RUN))
    case SupDo(h, e, o, leak, keep) => SupAct(g, h, e, o, leak, keep)
    case SupCrash(h) => if h !in g.runs then None else Some(SetRun(g, h, g.runs[h].(s := S.Crash(g.runs[h].s))))
    case BootDo(p, e) => BootAct(g, p, e)
    case IncDo(p, e) => IncAct(g, p, e)
    case Die(p, keep) => if p !in g.procs then None else Some(Kill(g, p, keep))
    case Ack(p, w) =>
      if p in g.procs && Accepts(g.procs[p]) then Some(SetProc(g, p, g.procs[p].(view := g.procs[p].view + [w])))
      else None
    case Flush(p, keep) =>
      if p in g.procs && g.procs[p].writer && |g.disk| <= keep <= |g.procs[p].view|
      then Some(g.(disk := g.procs[p].view[..keep])) else None
    case ClearStale => Some(g.(journal := None))
  }

  /** A machine with a data directory on disk and nothing running. */
  function Boot(disk: seq<Entry>): World {
    World(None, disk, map[], map[], None, true)
  }

  /** The world after a whole run of actions from a fresh machine. */
  function Exec(disk: seq<Entry>, acts: seq<Action>): Option<World> {
    if acts == [] then Some(Boot(disk))
    else
      var g := Exec(disk, acts[..|acts| - 1]);
      if g.None? then None else Apply(g.value, acts[|acts| - 1])
  }

  /** The action returns an error to a caller that handed its lock guard over: a fatal
      accept in `serve`, or a failed Ready write or bind in `announce_and_bind` or
      `bind_cold_start`. */
  predicate DropsGuard(a: Action) {
    || (a.IncDo? && a.ie.AcceptFatal?)
    || (a.BootDo? && (a.be.AnnounceFailed? || a.be.BindFailed?))
  }

  predicate GuardsKept(acts: seq<Action>) {
    forall k :: 0 <= k < |acts| ==> !DropsGuard(acts[k])
  }

  // ---------------------------------------------------------------- invariant

  /** What a frame from O vouches for; before S has spoken it is O's Hello. */
  predicate OTruth(m: Message, h: HandoffId, r: Run) {
    && (m.Drained? ==> r.drained) && (m.SealComplete? ==> m.id == h && r.told) && (m.SealFailed? ==> m.id == h)
    && (r.s.sentO == [] ==> I.IsHello(m))
  }

  predicate ToNTruth(m: Message, h: HandoffId, r: Run) {
    (m.HelloAck? ==> m.id == h) && (m.Begin? ==> m.id == h && r.s.began)
  }

  predicate FromNTruth(m: Message, h: HandoffId, r: Run) {
    && (m.Ready? ==> m.id == h && r.announced)
    && (r.s.pc == S.HelloN ==> r.s.n.Some? && m == Hello(SuccessorSide, r.s.n.value, PROTO_MIN, PROTO_MAX))
  }

  predicate RunOk(h: HandoffId, r: Run) {
    && S.Inv(r.s, h)
    && (r.s == S.START ==> r.o.None?)
    && r.got <= |r.s.sentO| && (r.got > 0 || r.fault ==> r.accepted) && (r.accepted ==> r.o.Some?)
    && (forall m :: m in r.fromO ==> OTruth(m, h, r))
    && (forall m :: m in r.toN ==> ToNTruth(m, h, r))
    && (forall m :: m in r.fromN ==> FromNTruth(m, h, r)) && (r.s.n.None? ==> r.fromN == [])
    && (r.told ==> r.sealed && r.got >= 3) && (r.sealed ==> r.drained)
    && (r.s.sawDrained ==> r.drained) && (r.s.sawSealed ==> r.told)
    && (r.s.ready ==> r.announced) && (r.announced ==> r.locked) && (r.locked ==> r.s.began)
  }

  predicate Mid(i: I.Inc, h: HandoffId, sealed: bool) {
    i.st == I.SessionState(Some(h), sealed, true)
  }

  /** Why a session of this run may be over without a commit although O gave the flock
      away and said so. */
  predicate Excused(r: Run)
    requires r.got <= |r.s.sentO|
  {
    r.told ==> r.fault || !r.s.oOpen || (r.got == 4 && r.s.sentO[3].ResumeAfterAbort?)
  }

  /** The session has not ended. */
  predicate Underway(pc: I.Pc) {
    !pc.Cleanup? && !pc.Leaving? && !pc.Recovering? && !pc.ResumeRecovered? && !pc.Exited? && !pc.Accepting?
  }

  /** Where O is in the session, given how much of S's script it has read. A failed read
      ends the session. */
  predicate Session(i: I.Inc, h: HandoffId, r: Run)
    requires r.got <= |r.s.sentO|
  {
    && (Underway(i.pc) ==> !r.fault)
    && match i.pc
    case Greeting => r.got == 0 && !r.told
    case AwaitingAck => r.got == 0 && !r.told
    case LoopHead =>
      || (r.got == 1 && i.st == I.FRESH && !r.told)
      || (r.got == 2 && Mid(i, h, false) && r.drained && !r.told)
      || (r.got == 3 && if r.told then Mid(i, h, true) else i.st == I.FRESH)
      || (r.got == 4 && i.st == I.FRESH)
    case InDrain => r.got == 2 && i.st == I.SessionState(Some(h), false, false) && !r.told
    case TellDrained => r.got == 2 && Mid(i, h, false) && r.drained && !r.told
    case InSeal => r.got == 3 && Mid(i, h, false) && r.drained && !r.told
    case Releasing => r.got == 3 && Mid(i, h, false) && r.drained && !r.told
    case TellSealFailed => r.got == 3 && Mid(i, h, false) && !r.told
    case ResumeAfterSealFailed => r.got == 3 && Mid(i, h, false) && !r.told
    case TellSealed => r.got == 3 && Mid(i, h, true) && r.sealed && !r.told
    case Reacquiring => r.got == 4 && Mid(i, h, true) && r.s.sentO[3].ResumeAfterAbort?
    case ResumeSealed => r.got == 4 && Mid(i, h, true)
    case ResumeDrained => false
    case Echoing => false
    case Cleanup(CommitSeen) => r.got == 4 && r.s.sentO[3].Commit?
    case Exited(true) => r.got == 4 && r.s.sentO[3].Commit?
    case _ => !i.lock ==> Excused(r)
  }

  /** Between O's SealComplete and S's next word to O, O sits sealed at the loop head. */
  predicate Window(q: Proc, h: HandoffId, r: Run) {
    r.told && !r.fault && r.s.oOpen && |r.s.sentO| == 3 ==>
      || q.stage.Dead?
      || (q.stage.Serving? && q.stage.i.session == Some(h) && q.stage.i.pc == I.LoopHead && q.stage.i.st.sealed)
  }

  predicate LinkO(g: World, h: HandoffId, r: Run)
    requires RunOk(h, r)
  {
    r.o.Some? ==>
      && r.o.value in g.procs
      && var q := g.procs[r.o.value];
         && !q.stage.Booting?
         && (q.stage.Serving? && q.stage.i.session == Some(h) ==> Session(q.stage.i, h, r))
         && Window(q, h, r)
  }

  predicate NStage(q: Proc, h: HandoffId, r: Run) {
    match q.stage
    case Dead => true
    case Serving(_) => r.announced
    case Booting(b) =>
      match b
      case Greet => true
      case AwaitAck => true
      case AwaitBegin(id) => id == h
      case Acquire(id) => id == h && r.s.began
      case Open(id) => id == h && r.locked
      case Announce(id) => id == h && r.locked
      case Bind(id) => r.announced
      case Stranded => r.locked
      case _ => false
  }

  predicate LinkN(g: World, h: HandoffId, r: Run) {
    r.s.n.Some? ==>
      && r.s.n.value in g.procs
      && var q := g.procs[r.s.n.value];
         && q.origin == Some(h) && NStage(q, h, r)
         && (r.s.child == S.Reaped ==> q.stage.Dead?)
  }

  /** The process dropped its guard and went on. */
  predicate IsStranded(q: Proc) {
    match q.stage
    case Booting(b) => b.Stranded?
    case Serving(i) => i.pc == I.Exited(false) && i.mayWrite
    case Dead => false
  }

  /** Flock, writer and connection bookkeeping of one process. What it says about data
      holds as long as every guard was kept. */
  predicate ProcOk(g: World, p: Pid, q: Proc) {
    && (q.origin.Some? ==> q.origin.value in g.runs && g.runs[q.origin.value].s.n == Some(p))
    && if IsStranded(q) then !g.kept && g.lock != Some(p) && (q.stage.Serving? ==> q.stage.i.session.None?)
       else InLine(g, p, q)
  }

  predicate InLine(g: World, p: Pid, q: Proc) {
    && (q.writer ==> g.lock == Some(p) && (g.kept ==> g.disk <= q.view))
    && match q.stage
       case Dead => g.lock != Some(p) && !q.writer
       case Booting(b) => (B.Holds(b) <==> g.lock == Some(p)) && (B.Writing(b) <==> q.writer)
       case Serving(i) =>
         && I.Inv(i) && (i.lock <==> g.lock == Some(p))
         && (i.mayWrite ==> q.writer) && (i.pc == I.Releasing ==> !q.writer)
         && (g.kept && q.writer && !i.mayWrite ==> q.view == g.disk)
         && (i.pc == I.Accepting <==> i.session.None?)
         && (i.session.Some? ==>
               i.session.value in g.runs && g.runs[i.session.value].o == Some(p) && g.runs[i.session.value].accepted)
  }

  /** What the journal entry on disk vouches for. */
  predicate JournalTruth(r: Run, ph: Phase) {
    match ph
    case Negotiating => |r.s.sentO| >= 1
    case Draining => r.drained
    case Sealing => r.sealed
    case AwaitingReady => r.s.began
    case Committed => r.s.ready
    case ResumingAfterAbort => r.s.child == S.Reaped
  }

  ghost predicate Inv(g: World) {
    && (g.lock.Some? ==> g.lock.value in g.procs)
    && (forall h :: h in g.runs ==> RunOk(h, g.runs[h]))
    && (forall h :: h in g.runs ==> LinkO(g, h, g.runs[h]))
    && (forall h :: h in g.runs ==> LinkN(g, h, g.runs[h]))
    && (forall p :: p in g.procs ==> ProcOk(g, p, g.procs[p]))
    && (g.journal.Some? ==>
          && g.journal.value.0 in g.runs && JournalTruth(g.runs[g.journal.value.0], g.journal.value.1)
          && g.runs[g.journal.value.0].s.dirty)
  }
}
