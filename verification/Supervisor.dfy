/** The supervisor `S`: `perform_handoff` as an automaton over its externally visible
    effects, with Rust's reverse-order drop of `n_stream`, `child_guard` and `o_stream`
    as the `Returning` state. */
module HandoffSupervisor {
  import opened Protocol

  /** The state of `ChildGuard`. */
  datatype Child = NotSpawned | Armed | Disarmed | Reaped

  datatype Result = CommittedOk | AbortedOk | FailedErr

  /** Which of the three explicit abort paths is running. */
  datatype AbortKind = SealTimeout | SealRefused | NotReady

  datatype Pc =
    | Connecting | HelloO | AckO(chosen: ProtoVersion) | Spawning | HelloN | AckN(chosen: ProtoVersion)
    | JournalNegotiating | SendPrepare | AwaitDrained
    | JournalDraining | SendSeal | AwaitSeal
    | JournalSealing | SendBegin | JournalAwaiting | AwaitReady
    | Disarming | SendCommit | JournalCommitted
    | AbortN(kind: AbortKind) | Killing(kind: AbortKind)
    | SendResume | JournalResuming
    | Clearing(res: Result)
    | Returning(res: Result)
    | Done(res: Result)
    | Crashed

  /** `sentO` is every frame written to O. The flags record what `perform_handoff`
      has observed, except that `began` says the write of `Begin` was tried: a write that
      failed may still reach N. `dirty` says this run may have left a journal behind. */
  datatype Sup = Sup(pc: Pc, child: Child, n: Option<Pid>, oOpen: bool, nOpen: bool, sentO: seq<Message>,
                     sawDrained: bool, sawSealed: bool, began: bool, ready: bool, dirty: bool)

  datatype Event =
    | ConnectO(ok: bool)
    | RecvO(m: Message) | TimeoutO | ErrorO
    | SendO(m: Message, ok: bool)
    | Spawn(pid: Pid, ok: bool)
    | RecvN(m: Message) | FailN
    | SendN(m: Message, ok: bool)
    | JournalSet(phase: Phase, ok: bool)
    | JournalClear(ok: bool)
    | KillReap | Disarm | CloseN | CloseO | Finish

  const START := Sup(Connecting, NotSpawned, None, false, false, [], false, false, false, false, false)

  const FAIL: Option<Pc> := Some(Returning(FailedErr))

  /** The version S chooses for a peer that says `m`; `None` if `m` is no Hello from `side`
      or shares no version. */
  function Chosen(m: Message, side: Side): (v: Option<ProtoVersion>)
    ensures v.Some? ==> Speaks(PROTO_MIN, PROTO_MAX, v.value)
  {
    if m.Hello? && m.role == side then NegotiateVersion(PROTO_MIN, PROTO_MAX, m.protoMin, m.protoMax) else None
  }

  function OnRecvO(pc: Pc, h: HandoffId, m: Message): Option<Pc> {
    match pc
    case HelloO => var v := Chosen(m, IncumbentSide); if v.Some? then Some(AckO(v.value)) else FAIL
    case AwaitDrained => if Progress(m) then Some(pc) else if m.Drained? then Some(JournalDraining) else FAIL
    case AwaitSeal =>
      if Progress(m) then Some(pc)
      else if m == SealComplete(h) then Some(JournalSealing)
      else if m == SealFailed(h) then Some(AbortN(SealRefused)) else FAIL
    case _ => None
  }

  function OnRecvN(pc: Pc, n: Option<Pid>, h: HandoffId, m: Message): Option<Pc> {
    match pc
    case HelloN =>
      var v := Chosen(m, SuccessorSide);
      if v.Some? && n == Some(m.pid) then Some(AckN(v.value)) else FAIL
    case AwaitReady =>
      if Progress(m) then Some(pc) else if m == Ready(h) then Some(Disarming) else Some(AbortN(NotReady))
    case _ => None
  }

  /** The frame each program point writes to O, and where it goes next. */
  function OnSendO(pc: Pc, n: Option<Pid>, h: HandoffId, m: Message, ok: bool): Option<Pc> {
    match pc
    case AckO(v) => if m != HelloAck(v, h) then None else if ok then Some(Spawning) else FAIL
    case SendPrepare =>
      if !m.PrepareHandoff? || m.id != h || n != Some(m.successorPid) then None
      else if ok then Some(AwaitDrained) else FAIL
    case SendSeal => if m != SealRequest(h) then None else if ok then Some(AwaitSeal) else FAIL
    case SendCommit => if m != Commit(h) then None else Some(JournalCommitted)
    case SendResume => if m != ResumeAfterAbort(h) then None else if ok then Some(JournalResuming) else FAIL
    case _ => None
  }

  function OnSendN(pc: Pc, h: HandoffId, m: Message, ok: bool): Option<Pc> {
    match pc
    case AckN(v) => if m != HelloAck(v, h) then None else if ok then Some(JournalNegotiating) else FAIL
    case SendBegin => if m != Begin(h) then None else Some(if ok then JournalAwaiting else AbortN(NotReady))
    case AbortN(k) => if m != Abort(h) then None else Some(Killing(k))
    case _ => None
  }

  function OnJournal(pc: Pc, p: Phase, ok: bool): Option<Pc> {
    match pc
    case JournalNegotiating => if p != Negotiating then None else if ok then Some(SendPrepare) else FAIL
    case JournalDraining => if p != Draining then None else if ok then Some(SendSeal) else FAIL
    case JournalSealing => if p != Sealing then None else if ok then Some(SendBegin) else FAIL
    case JournalAwaiting => if p != AwaitingReady then None else if ok then Some(AwaitReady) else FAIL
    case JournalCommitted => if p != Committed then None else Some(Clearing(CommittedOk))
    case JournalResuming => if p != ResumingAfterAbort then None else if ok then Some(Clearing(AbortedOk)) else FAIL
    case _ => None
  }

  function OnKill(s: Sup): Option<Pc> {
    match s.pc
    case Killing(SealTimeout) => Some(Clearing(FailedErr))
    case Killing(SealRefused) => Some(Clearing(AbortedOk))
    case Killing(NotReady) => Some(SendResume)
    case Returning(_) => if !s.nOpen && s.child == Armed then Some(s.pc) else None   // guard drop
    case _ => None
  }

  function NextPc(s: Sup, h: HandoffId, e: Event): Option<Pc> {
    match e
    case ConnectO(ok) => if s.pc != Connecting then None else if ok then Some(HelloO) else FAIL
    case RecvO(m) => OnRecvO(s.pc, h, m)
    case TimeoutO =>
      if s.pc == HelloO || s.pc == AwaitDrained then FAIL
      else if s.pc == AwaitSeal then Some(AbortN(SealTimeout)) else None
    case ErrorO => if s.pc == HelloO || s.pc == AwaitDrained || s.pc == AwaitSeal then FAIL else None
    case SendO(m, ok) => OnSendO(s.pc, s.n, h, m, ok)
    case Spawn(p, ok) => if s.pc != Spawning then None else if ok then Some(HelloN) else FAIL
    case RecvN(m) => OnRecvN(s.pc, s.n, h, m)
    case FailN => if s.pc == HelloN then FAIL else if s.pc == AwaitReady then Some(AbortN(NotReady)) else None
    case SendN(m, ok) => OnSendN(s.pc, h, m, ok)
    case JournalSet(p, ok) => OnJournal(s.pc, p, ok)
    case JournalClear(ok) => if s.pc.Clearing? then Some(Returning(s.pc.res)) else None
    case KillReap => OnKill(s)
    case Disarm => if s.pc == Disarming then Some(SendCommit) else None
    // Drop order on every return: n_stream, then child_guard, then o_stream.
    case CloseN => if s.pc.Returning? && s.nOpen then Some(s.pc) else None
    case CloseO => if s.pc.Returning? && !s.nOpen && s.child != Armed && s.oOpen then Some(s.pc) else None
    case Finish => if s.pc.Returning? && !s.nOpen && s.child != Armed && !s.oOpen then Some(Done(s.pc.res)) else None
  }

  /** What the event does to everything but the program counter. */
  function Effect(s: Sup, e: Event, pc: Pc): Sup {
    s.(pc := pc,
       child := if e.Spawn? && e.ok then Armed else if e.KillReap? then Reaped else if e.Disarm? then Disarmed
           else s.child,
       n := if e.Spawn? && e.ok then Some(e.pid) else s.n,
       oOpen := if e.ConnectO? then e.ok else s.oOpen && !e.CloseO?,
       nOpen := (s.nOpen || (e.Spawn? && e.ok)) && !e.CloseN?,
       sentO := if e.SendO? && e.ok then s.sentO + [e.m] else s.sentO,
       sawDrained := s.sawDrained || (e.RecvO? && pc == JournalDraining),
       sawSealed := s.sawSealed || (e.RecvO? && pc == JournalSealing),
       began := s.began || (e.SendN? && e.m.Begin?),
       ready := s.ready || (e.RecvN? && pc == Disarming),
       dirty := e.JournalSet? || (s.dirty && e != JournalClear(true)))
  }

  function Step(s: Sup, h: HandoffId, e: Event): Option<Sup> {
    var pc := NextPc(s, h, e);
    if pc.None? then None else Some(Effect(s, e, pc.value))
  }

  lemma PollSteps(s: Sup, h: HandoffId)
    ensures forall m :: OnRecvO(s.pc, h, m).Some? ==>
              && Step(s, h, RecvO(m)).Some? && var t := Step(s, h, RecvO(m)).value;
              && Some(t.pc) == OnRecvO(s.pc, h, m) && t.child == s.child && t.n == s.n && t.oOpen == s.oOpen &&
                 t.nOpen == s.nOpen
    ensures forall m :: OnRecvN(s.pc, s.n, h, m).Some? ==>
              && Step(s, h, RecvN(m)).Some? && var t := Step(s, h, RecvN(m)).value;
              && Some(t.pc) == OnRecvN(s.pc, s.n, h, m) && t.child == s.child && t.n == s.n && t.oOpen == s.oOpen &&
                 t.nOpen == s.nOpen
  {
    hide OnRecvO, OnRecvN;
  }

  lemma QuitSteps(s: Sup, h: HandoffId)
    ensures s.pc == HelloO || s.pc == AwaitDrained ==> Step(s, h, TimeoutO) == Some(s.(pc := Returning(FailedErr)))
    ensures s.pc == AwaitSeal ==> Step(s, h, TimeoutO) == Some(s.(pc := AbortN(SealTimeout)))
    ensures s.pc == HelloO || s.pc == AwaitDrained || s.pc == AwaitSeal ==>
            Step(s, h, ErrorO) == Some(s.(pc := Returning(FailedErr)))
    ensures s.pc == HelloN ==> Step(s, h, FailN) == Some(s.(pc := Returning(FailedErr)))
    ensures s.pc == AwaitReady ==> Step(s, h, FailN) == Some(s.(pc := AbortN(NotReady)))
  {
  }

  lemma ConnectStep(s: Sup, h: HandoffId, ok: bool)
    requires s.pc == Connecting
    ensures Step(s, h, ConnectO(ok)) == Some(s.(pc := if ok then HelloO else Returning(FailedErr), oOpen := ok))
  {
  }

  lemma SpawnStep(s: Sup, h: HandoffId, p: Pid, ok: bool)
    requires s.pc == Spawning
    ensures Step(s, h, Spawn(p, ok)) ==
            Some(if ok then s.(pc := HelloN, child := Armed, n := Some(p), nOpen := true)
                 else s.(pc := Returning(FailedErr)))
  {
  }

  lemma SendOStep(s: Sup, h: HandoffId, m: Message, ok: bool)
    requires OnSendO(s.pc, s.n, h, m, ok).Some?
    ensures Step(s, h, SendO(m, ok)) ==
            Some(s.(pc := OnSendO(s.pc, s.n, h, m, ok).value, sentO := if ok then s.sentO + [m] else s.sentO))
  {
  }

  lemma ReturnSteps(s: Sup, h: HandoffId)
    requires s.pc.Returning?
    ensures s.nOpen ==> Step(s, h, CloseN) == Some(s.(nOpen := false))
    ensures !s.nOpen && s.child != Armed && s.oOpen ==> Step(s, h, CloseO) == Some(s.(oOpen := false))
    ensures !s.nOpen && s.child != Armed && !s.oOpen ==> Step(s, h, Finish) == Some(s.(pc := Done(s.pc.res)))
  {
  }

  /** A crash closes the streams but neither kills nor reaps the child. */
  function Crash(s: Sup): Sup {
    s.(pc := Crashed, oOpen := false, nOpen := false)
  }

  // ---------------------------------------------------------------- invariant

  /** O is only ever sent a prefix of HelloAck, PrepareHandoff, SealRequest, and then
      one of Commit and ResumeAfterAbort, all with this handoff's id. */
  predicate ScriptOk(ms: seq<Message>, h: HandoffId) {
    && |ms| <= 4
    && (|ms| > 0 ==> ms[0].HelloAck? && ms[0].id == h && Speaks(PROTO_MIN, PROTO_MAX, ms[0].chosen))
    && (|ms| > 1 ==> ms[1].PrepareHandoff? && ms[1].id == h)
    && (|ms| > 2 ==> ms[2] == SealRequest(h))
    && (|ms| > 3 ==> ms[3] == Commit(h) || ms[3] == ResumeAfterAbort(h))
  }

  /** Facts that hold at every program point and survive a crash: what each
      observation and each frame to O presupposes, and who owns the child. */
  predicate Facts(s: Sup, h: HandoffId) {
    && ScriptOk(s.sentO, h)
    && (s.child == NotSpawned <==> s.n.None?)
    && (s.child == NotSpawned ==> |s.sentO| <= 1)
    && (|s.sentO| > 1 ==> s.n == Some(s.sentO[1].successorPid))
    && (s.sawDrained ==> |s.sentO| >= 2)
    && (|s.sentO| >= 3 ==> s.sawDrained)
    && (s.sawSealed ==> |s.sentO| >= 3)
    && (s.began ==> s.sawSealed)
    && (s.ready ==> s.began && s.child != Reaped)
    && (s.child == Disarmed ==> s.ready)
    && (|s.sentO| == 4 ==> s.began && s.child == if s.sentO[3].Commit? then Disarmed else Reaped)
  }

  /** The exact observations at a program point of the straight-line part. */
  predicate Shape(s: Sup, sent: nat, child: Child, drained: bool, sealed: bool, began: bool, ready: bool) {
    && |s.sentO| == sent && s.child == child && s.oOpen
    && s.sawDrained == drained && s.sawSealed == sealed && s.began == began && s.ready == ready
  }

  predicate Local(s: Sup) {
    match s.pc
    case Connecting => s == START
    case HelloO => Shape(s, 0, NotSpawned, false, false, false, false) && !s.nOpen
    case AckO(v) =>
      Shape(s, 0, NotSpawned, false, false, false, false) && !s.nOpen && Speaks(PROTO_MIN, PROTO_MAX, v)
    case Spawning => Shape(s, 1, NotSpawned, false, false, false, false) && !s.nOpen
    case HelloN => Shape(s, 1, Armed, false, false, false, false)
    case AckN(_) => Shape(s, 1, Armed, false, false, false, false)
    case JournalNegotiating => Shape(s, 1, Armed, false, false, false, false)
    case SendPrepare => Shape(s, 1, Armed, false, false, false, false)
    case AwaitDrained => Shape(s, 2, Armed, false, false, false, false)
    case JournalDraining => Shape(s, 2, Armed, true, false, false, false)
    case SendSeal => Shape(s, 2, Armed, true, false, false, false)
    case AwaitSeal => Shape(s, 3, Armed, true, false, false, false)
    case JournalSealing => Shape(s, 3, Armed, true, true, false, false)
    case SendBegin => Shape(s, 3, Armed, true, true, false, false)
    case JournalAwaiting => Shape(s, 3, Armed, true, true, true, false)
    case AwaitReady => Shape(s, 3, Armed, true, true, true, false)
    case Disarming => Shape(s, 3, Armed, true, true, true, true)
    case SendCommit => Shape(s, 3, Disarmed, true, true, true, true)
    case JournalCommitted => s.child == Disarmed
    case AbortN(k) => Shape(s, 3, Armed, true, k == NotReady, k == NotReady, false)
    case Killing(k) => Shape(s, 3, Armed, true, k == NotReady, k == NotReady, false)
    case SendResume => Shape(s, 3, Reaped, true, true, true, false)
    case JournalResuming => s.child == Reaped
    case Clearing(res) => s.child == if res == CommittedOk then Disarmed else Reaped
    case Returning(res) => Owned(s, res) && (s.child == Armed ==> s.oOpen)
    case Done(res) => Owned(s, res) && s.child != Armed && !s.oOpen && !s.nOpen && (res != FailedErr ==> s.n.Some?)
    case Crashed => !s.oOpen && !s.nOpen
  }

  /** Who owns the child on the way out with result `res`. */
  predicate Owned(s: Sup, res: Result) {
    match res
    case CommittedOk => s.child == Disarmed
    case AbortedOk => s.child == Reaped
    case FailedErr => !s.ready
  }

  predicate Inv(s: Sup, h: HandoffId) {
    Facts(s, h) && Local(s)
  }

  /** The step kept the invariant and, unless it is one of the named events, left the
      child and the acceptance of `Ready` alone and did not end in `Ok`. */
  predicate Kept(s: Sup, h: HandoffId, e: Event, t: Sup) {
    && Inv(t, h)
    && (if e.KillReap? then s.child == Armed && t.child == Reaped else t.child == Reaped <==> s.child == Reaped)
    && (t.ready <==> s.ready || (s.pc == AwaitReady && e == RecvN(Ready(h))))
    && (!e.JournalClear? && (t.pc.Returning? || t.pc.Done?) && t.pc.res != FailedErr ==>
          (s.pc.Returning? || s.pc.Done?) && s.pc.res == t.pc.res && t.dirty == s.dirty)
  }

  lemma KeptRecvO(s: Sup, h: HandoffId, m: Message, pc: Pc)
    requires Inv(s, h) && OnRecvO(s.pc, h, m) == Some(pc)
    ensures Kept(s, h, RecvO(m), Effect(s, RecvO(m), pc))
  {
    hide Chosen, ScriptOk;
  }

  lemma KeptRecvN(s: Sup, h: HandoffId, m: Message, pc: Pc)
    requires Inv(s, h) && OnRecvN(s.pc, s.n, h, m) == Some(pc)
    ensures Kept(s, h, RecvN(m), Effect(s, RecvN(m), pc))
  {
    hide Chosen, ScriptOk;
  }

  lemma SendOFacts(s: Sup, h: HandoffId, m: Message, ok: bool, pc: Pc)
    requires Inv(s, h) && OnSendO(s.pc, s.n, h, m, ok) == Some(pc)
    ensures Facts(Effect(s, SendO(m, ok), pc), h)
  {
  }

  lemma SendOLocal(s: Sup, h: HandoffId, m: Message, ok: bool, pc: Pc)
    requires Inv(s, h) && OnSendO(s.pc, s.n, h, m, ok) == Some(pc)
    ensures Local(Effect(s, SendO(m, ok), pc)) && pc != Returning(CommittedOk) && pc != Returning(AbortedOk) &&
            !pc.Done?
  {
    hide Facts;
  }

  lemma KeptSendO(s: Sup, h: HandoffId, m: Message, ok: bool, pc: Pc)
    requires Inv(s, h) && OnSendO(s.pc, s.n, h, m, ok) == Some(pc)
    ensures Kept(s, h, SendO(m, ok), Effect(s, SendO(m, ok), pc))
  {
    hide Facts, Local;
    SendOFacts(s, h, m, ok, pc);
    SendOLocal(s, h, m, ok, pc);
  }

  lemma KeptSendN(s: Sup, h: HandoffId, m: Message, ok: bool, pc: Pc)
    requires Inv(s, h) && OnSendN(s.pc, h, m, ok) == Some(pc)
    ensures Kept(s, h, SendN(m, ok), Effect(s, SendN(m, ok), pc))
  {
    hide ScriptOk;
  }

  lemma KeptJournal(s: Sup, h: HandoffId, p: Phase, ok: bool, pc: Pc)
    requires Inv(s, h) && OnJournal(s.pc, p, ok) == Some(pc)
    ensures Kept(s, h, JournalSet(p, ok), Effect(s, JournalSet(p, ok), pc))
  {
    hide ScriptOk;
    var t := Effect(s, JournalSet(p, ok), pc);
    assert t == s.(pc := pc, dirty := true);
    assert Facts(t, h);
  }

  lemma KeptKill(s: Sup, h: HandoffId, pc: Pc)
    requires Inv(s, h) && OnKill(s) == Some(pc)
    ensures Kept(s, h, KillReap, Effect(s, KillReap, pc))
  {
    hide ScriptOk;
  }

  lemma KeptPlain(s: Sup, h: HandoffId, e: Event, pc: Pc)
    requires Inv(s, h) && NextPc(s, h, e) == Some(pc)
    requires e.TimeoutO? || e.ErrorO? || e.FailN?
    ensures Kept(s, h, e, Effect(s, e, pc))
  {
    hide OnRecvO, OnRecvN, OnSendO, OnSendN, OnJournal, OnKill, ScriptOk;
    assert Effect(s, e, pc) == s.(pc := pc);
  }

  lemma KeptOpen(s: Sup, h: HandoffId, e: Event, pc: Pc)
    requires Inv(s, h) && NextPc(s, h, e) == Some(pc) && (e.ConnectO? || e.Spawn?)
    ensures Kept(s, h, e, Effect(s, e, pc))
  {
    hide OnRecvO, OnRecvN, OnSendO, OnSendN, OnJournal, OnKill, ScriptOk;
    EffectSent(s, e, pc);
  }

  lemma KeptClear(s: Sup, h: HandoffId, ok: bool, pc: Pc)
    requires Inv(s, h) && s.pc.Clearing? && pc == Returning(s.pc.res)
    ensures Kept(s, h, JournalClear(ok), Effect(s, JournalClear(ok), pc))
  {
    hide ScriptOk;
    assert Effect(s, JournalClear(ok), pc) == s.(pc := pc, dirty := s.dirty && !ok);
  }

  lemma KeptReturn(s: Sup, h: HandoffId, e: Event, pc: Pc)
    requires Inv(s, h) && NextPc(s, h, e) == Some(pc)
    requires e.Disarm? || e.CloseN? || e.CloseO? || e.Finish?
    ensures Kept(s, h, e, Effect(s, e, pc))
  {
    hide OnRecvO, OnRecvN, OnSendO, OnSendN, OnJournal, OnKill, ScriptOk;
  }

  lemma StepKeepsInv(s: Sup, h: HandoffId, e: Event)
    requires Inv(s, h) && Step(s, h, e).Some?
    ensures Kept(s, h, e, Step(s, h, e).value)
  {
    hide Inv, Kept, OnRecvO, OnRecvN, OnSendO, OnSendN, OnJournal, OnKill;
    var pc := NextPc(s, h, e).value;
    match e
    case RecvO(m) => KeptRecvO(s, h, m, pc);
    case RecvN(m) => KeptRecvN(s, h, m, pc);
    case SendO(m, ok) => KeptSendO(s, h, m, ok, pc);
    case SendN(m, ok) => KeptSendN(s, h, m, ok, pc);
    case JournalSet(p, ok) => KeptJournal(s, h, p, ok, pc);
    case KillReap => KeptKill(s, h, pc);
    case ConnectO(_) => KeptOpen(s, h, e, pc);
    case TimeoutO => KeptPlain(s, h, e, pc);
    case ErrorO => KeptPlain(s, h, e, pc);
    case Spawn(_, _) => KeptOpen(s, h, e, pc);
    case FailN => KeptPlain(s, h, e, pc);
    case JournalClear(ok) => KeptClear(s, h, ok, pc);
    case _ => KeptReturn(s, h, e, pc);
  }

  /** What a step can change, and which event each observation comes from. */
  predicate Observes(s: Sup, h: HandoffId, e: Event, t: Sup) {
    && (s.n.Some? ==> t.n == s.n) && (s.child == Reaped ==> t.child == Reaped)
    && (t.n != s.n ==> e.Spawn? && e.ok && t.n == Some(e.pid) && t.child == Armed)
    && (t.child == Reaped && s.child != Reaped ==> e.KillReap?)
    && (e.KillReap? ==> s.n.Some?)
    && t.sentO == (if e.SendO? && e.ok then s.sentO + [e.m] else s.sentO)
    && (t.oOpen && !s.oOpen ==> s == START && e == ConnectO(true))
    && (e.ConnectO? ==> s == START) && t.pc != Connecting
    && (t.sawDrained <==> s.sawDrained || (e.RecvO? && e.m.Drained? && s.pc == AwaitDrained))
    && (t.sawSealed <==> s.sawSealed || (s.pc == AwaitSeal && e == RecvO(SealComplete(h))))
    && (t.began <==> s.began || (s.pc == SendBegin && e.SendN?))
    && (t.ready <==> s.ready || (s.pc == AwaitReady && e == RecvN(Ready(h))))
    && (t.dirty <==> e.JournalSet? || (s.dirty && e != JournalClear(true)))
    && (e.SendN? ==> (e.m.HelloAck? ==> e.m.id == h) && (e.m.Begin? ==> e.m == Begin(h) && t.began))
  }

  lemma ObservesRecv(s: Sup, h: HandoffId, m: Message, pc: Pc)
    requires Inv(s, h)
    ensures OnRecvO(s.pc, h, m) == Some(pc) ==> Observes(s, h, RecvO(m), Effect(s, RecvO(m), pc))
    ensures OnRecvN(s.pc, s.n, h, m) == Some(pc) ==> Observes(s, h, RecvN(m), Effect(s, RecvN(m), pc))
  {
    hide Chosen, Facts;
  }

  lemma ObservesSend(s: Sup, h: HandoffId, m: Message, ok: bool, pc: Pc)
    requires Inv(s, h)
    ensures OnSendO(s.pc, s.n, h, m, ok) == Some(pc) ==> Observes(s, h, SendO(m, ok), Effect(s, SendO(m, ok), pc))
    ensures OnSendN(s.pc, h, m, ok) == Some(pc) ==> Observes(s, h, SendN(m, ok), Effect(s, SendN(m, ok), pc))
  {
    hide Facts;
  }

  lemma ObservesJournal(s: Sup, h: HandoffId, p: Phase, ok: bool, pc: Pc)
    requires Inv(s, h) && OnJournal(s.pc, p, ok) == Some(pc)
    ensures Observes(s, h, JournalSet(p, ok), Effect(s, JournalSet(p, ok), pc))
  {
    hide Facts, Local;
    assert Effect(s, JournalSet(p, ok), pc) == s.(pc := pc, dirty := true);
    JournalNotConnecting(s.pc, p, ok);
  }

  lemma JournalNotConnecting(pc: Pc, p: Phase, ok: bool)
    ensures OnJournal(pc, p, ok) != Some(Connecting)
  {
  }

  lemma ObservesKill(s: Sup, h: HandoffId, pc: Pc)
    requires Inv(s, h) && OnKill(s) == Some(pc)
    ensures Observes(s, h, KillReap, Effect(s, KillReap, pc))
  {
    hide ScriptOk;
  }

  lemma StepObserves(s: Sup, h: HandoffId, e: Event)
    requires Inv(s, h) && Step(s, h, e).Some?
    ensures Observes(s, h, e, Step(s, h, e).value)
  {
    hide OnRecvO, OnRecvN, OnSendO, OnSendN, OnJournal, OnKill, ScriptOk;
    var pc := NextPc(s, h, e).value;
    match e
    case JournalSet(p, ok) => ObservesJournal(s, h, p, ok, pc);
    case KillReap => ObservesKill(s, h, pc);
    case RecvO(m) => ObservesRecv(s, h, m, pc);
    case RecvN(m) => ObservesRecv(s, h, m, pc);
    case SendO(m, ok) => ObservesSend(s, h, m, ok, pc);
    case SendN(m, ok) => ObservesSend(s, h, m, ok, pc);
    case _ =>
  }

  // ---------------------------------------------------------------- whole runs

  function After(h: HandoffId, es: seq<Event>): Option<Sup> {
    if es == [] then Some(START)
    else
      var s := After(h, Front(es));
      if s.None? then None else Step(s.value, h, Last(es))
  }

  lemma Push(h: HandoffId, es: seq<Event>, s: Sup, e: Event, t: Sup)
    requires After(h, es) == Some(s) && Step(s, h, e) == Some(t)
    ensures After(h, es + [e]) == Some(t)
  {
    assert Front(es + [e]) == es;
  }

  /** How often the run killed and reaped the successor. */
  function Kills(es: seq<Event>): nat {
    if es == [] then 0 else Kills(Front(es)) + if Last(es).KillReap? then 1 else 0
  }

  /** A `Ready` carrying this handoff's id was read while waiting for it. */
  predicate ReadyAccepted(h: HandoffId, es: seq<Event>) {
    es != [] &&
    (ReadyAccepted(h, Front(es)) ||
     (After(h, Front(es)).Some? && After(h, Front(es)).value.pc == AwaitReady && Last(es) == RecvN(Ready(h))))
  }

  /** The run's kills and acceptances are exactly what the state records. */
  predicate Tallied(h: HandoffId, es: seq<Event>, s: Sup) {
    && Inv(s, h)
    && Kills(es) == (if s.child == Reaped then 1 else 0)
    && (ReadyAccepted(h, es) <==> s.ready)
    && ((s.pc.Returning? || s.pc.Done?) && s.pc.res != FailedErr && s.dirty ==> JournalClear(false) in es)
  }

  lemma {:induction false} RunIsTallied(h: HandoffId, es: seq<Event>)
    requires After(h, es).Some?
    ensures Tallied(h, es, After(h, es).value)
  {
    hide NextPc, Facts, Local;
    if es == [] {
      StartTallied(h);
    } else {
      RunIsTallied(h, Front(es));
      StepKeepsInv(After(h, Front(es)).value, h, Last(es));
      assert es == Front(es) + [Last(es)];
    }
  }

  lemma StartTallied(h: HandoffId)
    ensures Inv(START, h)
  {
  }

  /** Every exit of `perform_handoff`: the outcome is committed exactly when a matching
      `Ready` was accepted, and then the successor was never killed and is handed to the
      caller; on any other exit a spawned successor was killed and reaped exactly once
      before the streams were closed. An `Ok` return leaves no journal of this run unless
      the final delete failed. */
  lemma ChildOwnership(h: HandoffId, es: seq<Event>)
    requires After(h, es).Some? && After(h, es).value.pc.Done?
    ensures var s := After(h, es).value;
            && (s.pc.res == CommittedOk <==> ReadyAccepted(h, es))
            && (s.pc.res == CommittedOk ==> s.child == Disarmed && Kills(es) == 0)
            && (s.pc.res != CommittedOk && s.n.Some? ==> s.child == Reaped && Kills(es) == 1)
            && (s.pc.res != FailedErr && JournalClear(false) !in es ==> !s.dirty)
  {
    hide Step;
    RunIsTallied(h, es);
  }

  /** Once `Ready` has been accepted the successor is never killed, whatever fails later. */
  lemma {:induction false} NeverKilledAfterReady(h: HandoffId, es: seq<Event>, k: nat)
    requires k <= |es| && After(h, es).Some? && ReadyAccepted(h, es[..k])
    ensures Kills(es) == 0
  {
    hide Step, Inv;
    ReadyPersists(h, es, k);
    RunIsTallied(h, es);
    ReadyNotReaped(After(h, es).value, h);
  }

  lemma ReadyNotReaped(s: Sup, h: HandoffId)
    requires Inv(s, h) && s.ready
    ensures s.child != Reaped
  {
  }

  lemma {:induction false} ReadyPersists(h: HandoffId, es: seq<Event>, k: nat)
    requires k <= |es| && ReadyAccepted(h, es[..k])
    ensures ReadyAccepted(h, es)
  {
    hide After;
    if k == |es| {
      assert es[..k] == es;
    } else {
      assert Front(es)[..k] == es[..k];
      ReadyPersists(h, Front(es), k);
    }
  }

  lemma NotAtMercy(s: Sup, h: HandoffId, e: Event)
    requires Inv(s, h) && Step(s, h, e).Some?
    ensures e.CloseO? ==> s.child != Armed
    ensures e.SendO? && e.m.ResumeAfterAbort? ==> s.child == Reaped
  {
  }

  /** The order that recovery relies on: when `ResumeAfterAbort` is written to O, or O's
      stream is closed by a return, the successor is no longer at S's mercy: never
      spawned, already reaped, or handed over. */
  lemma KilledBeforeOLearns(h: HandoffId, es: seq<Event>)
    requires es != [] && After(h, es).Some?
    requires Last(es).CloseO? || (Last(es).SendO? && Last(es).m.ResumeAfterAbort?)
    ensures ReadyAccepted(h, Front(es)) || Kills(Front(es)) == 1 || After(h, Front(es)).value.n.None?
    ensures Last(es).SendO? ==> Kills(Front(es)) == 1
  {
    hide Step, Local;
    RunIsTallied(h, Front(es));
    NotAtMercy(After(h, Front(es)).value, h, Last(es));
  }

  /** The Commit write has been tried. */
  predicate PastCommit(pc: Pc) {
    pc == JournalCommitted || pc == Clearing(CommittedOk) || pc == Returning(CommittedOk) || pc == Done(CommittedOk)
  }

  lemma PastRecv(pc: Pc, n: Option<Pid>, h: HandoffId, m: Message)
    ensures OnRecvO(pc, h, m).Some? ==> !PastCommit(pc) && !PastCommit(OnRecvO(pc, h, m).value)
    ensures OnRecvN(pc, n, h, m).Some? ==> !PastCommit(pc) && !PastCommit(OnRecvN(pc, n, h, m).value)
  {
    hide Chosen;
  }

  lemma PastSend(pc: Pc, n: Option<Pid>, h: HandoffId, m: Message, ok: bool)
    ensures OnSendO(pc, n, h, m, ok).Some? ==>
            !PastCommit(pc) && (PastCommit(OnSendO(pc, n, h, m, ok).value) <==> m == Commit(h))
    ensures OnSendN(pc, h, m, ok).Some? ==> !PastCommit(pc) && !PastCommit(OnSendN(pc, h, m, ok).value)
  {
  }

  lemma PastJournal(s: Sup, p: Phase, ok: bool)
    ensures OnJournal(s.pc, p, ok).Some? ==>
            (PastCommit(OnJournal(s.pc, p, ok).value) <==> PastCommit(s.pc)) && (PastCommit(s.pc) <==> p == Committed)
    ensures OnKill(s).Some? ==> (PastCommit(OnKill(s).value) <==> PastCommit(s.pc))
  {
  }

  lemma PastStep(s: Sup, h: HandoffId, e: Event)
    requires NextPc(s, h, e).Some?
    ensures PastCommit(NextPc(s, h, e).value) <==> PastCommit(s.pc) || (e.SendO? && e.m == Commit(h))
    ensures e.SendO? && e.m == Commit(h) ==> !PastCommit(s.pc)
    ensures e.JournalSet? && e.phase == Committed ==> PastCommit(s.pc)
  {
    hide OnRecvO, OnRecvN, OnSendO, OnSendN, OnJournal, OnKill;
    match e
    case RecvO(m) => PastRecv(s.pc, s.n, h, m);
    case RecvN(m) => PastRecv(s.pc, s.n, h, m);
    case SendO(m, ok) => PastSend(s.pc, s.n, h, m, ok);
    case SendN(m, ok) => PastSend(s.pc, s.n, h, m, ok);
    case JournalSet(p, ok) => PastJournal(s, p, ok);
    case KillReap => PastJournal(s, Committed, true);
    case _ =>
  }

  lemma CommitStep(s: Sup, h: HandoffId, e: Event)
    requires Step(s, h, e).Some?
    ensures var t := Step(s, h, e).value;
            && (PastCommit(t.pc) <==> PastCommit(s.pc) || (e.SendO? && e.m == Commit(h)))
            && (e.SendO? && e.m == Commit(h) ==> !PastCommit(s.pc))
            && (e.JournalSet? && e.phase == Committed ==> PastCommit(s.pc))
            && (Commit(h) in t.sentO <==> Commit(h) in s.sentO || e == SendO(Commit(h), true))
  {
    hide NextPc, PastCommit, Effect;
    PastStep(s, h, e);
    EffectSent(s, e, NextPc(s, h, e).value);
  }

  lemma EffectSent(s: Sup, e: Event, pc: Pc)
    ensures Effect(s, e, pc).pc == pc && Effect(s, e, pc).sentO == if e.SendO? && e.ok then s.sentO + [e.m] else s.sentO
  {
  }

  /** Commit reaches O exactly when its one write succeeded; the Committed phase is
      journaled after that write, whichever way it went. */
  lemma {:induction false} CommitOutcome(h: HandoffId, es: seq<Event>)
    requires After(h, es).Some?
    ensures var s := After(h, es).value;
            && (Commit(h) in s.sentO <==> SendO(Commit(h), true) in es)
            && (PastCommit(s.pc) <==> SendO(Commit(h), true) in es || SendO(Commit(h), false) in es)
            && !(SendO(Commit(h), true) in es && SendO(Commit(h), false) in es)
            && (JournalSet(Committed, true) in es || JournalSet(Committed, false) in es ==> PastCommit(s.pc))
  {
    hide Step, Inv;
    if es != [] {
      CommitOutcome(h, Front(es));
      CommitStep(After(h, Front(es)).value, h, Last(es));
      assert es == Front(es) + [Last(es)];
    }
  }

  lemma JournaledStep(s: Sup, h: HandoffId, e: Event)
    requires NextPc(s, h, e).Some?
    ensures NextPc(s, h, e) == Some(JournalAwaiting) ==> e == SendN(Begin(h), true)
    ensures NextPc(s, h, e) == Some(JournalResuming) ==> e == SendO(ResumeAfterAbort(h), true)
    ensures e.JournalSet? && e.phase == AwaitingReady ==> s.pc == JournalAwaiting
    ensures e.JournalSet? && e.phase == ResumingAfterAbort ==> s.pc == JournalResuming
  {
    hide Chosen;
  }

  /** The two phases that follow a write are journaled only after that write succeeded. */
  lemma {:induction false} JournaledAfterWrite(h: HandoffId, es: seq<Event>)
    requires After(h, es).Some?
    ensures var pc := After(h, es).value.pc;
            && (pc == JournalAwaiting || JournalSet(AwaitingReady, true) in es ||
                JournalSet(AwaitingReady, false) in es ==>
                  SendN(Begin(h), true) in es)
            && (pc == JournalResuming || JournalSet(ResumingAfterAbort, true) in es ||
                JournalSet(ResumingAfterAbort, false) in es ==>
                  SendO(ResumeAfterAbort(h), true) in es)
  {
    hide NextPc, Effect;
    if es != [] {
      JournaledAfterWrite(h, Front(es));
      JournaledStep(After(h, Front(es)).value, h, Last(es));
      EffectSent(After(h, Front(es)).value, Last(es), NextPc(After(h, Front(es)).value, h, Last(es)).value);
      assert es == Front(es) + [Last(es)];
    }
  }

  /** Every frame in `sentO` was written successfully, and the other way round. */
  lemma {:induction false} SentIff(h: HandoffId, es: seq<Event>, m: Message)
    requires After(h, es).Some?
    ensures m in After(h, es).value.sentO <==> SendO(m, true) in es
  {
    hide NextPc, Effect;
    if es != [] {
      SentIff(h, Front(es), m);
      EffectSent(After(h, Front(es)).value, Last(es), NextPc(After(h, Front(es)).value, h, Last(es)).value);
      assert es == Front(es) + [Last(es)];
    }
  }
}
