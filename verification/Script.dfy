/** The order `perform_handoff` documents, as a script of twenty effects and the ways it may
    be left, and the proof that every run of the supervisor follows it. The script does not
    mention program counters: it is a second, independent description of the same code. */
module HandoffScript {
  import opened Protocol
  import opened HandoffSupervisor

  /** `ack` answers `hello`: it carries this handoff's id and the greatest version that both
      sides speak. */
  ghost predicate Answers(hello: Message, side: Side, ack: Message, h: HandoffId) {
    && hello.Hello? && hello.role == side && ack.HelloAck? && ack.id == h
    && Speaks(PROTO_MIN, PROTO_MAX, ack.chosen) && Speaks(hello.protoMin, hello.protoMax, ack.chosen)
    && forall v: ProtoVersion ::
         Speaks(PROTO_MIN, PROTO_MAX, v) && Speaks(hello.protoMin, hello.protoMax, v) ==> v <= ack.chosen
  }

  /** A Hello from `side` that shares a version with us. */
  ghost predicate Welcome(hello: Message, side: Side) {
    && hello.Hello? && hello.role == side
    && exists v: ProtoVersion :: Speaks(PROTO_MIN, PROTO_MAX, v) && Speaks(hello.protoMin, hello.protoMax, v)
  }

  /** Effect `k` of the script, with success `ok`. */
  ghost predicate Does(g: seq<Event>, k: nat, h: HandoffId, ok: bool) {
    && k < |g|
    && match k
       case 0 => g[0] == ConnectO(ok)
       case 1 => ok && g[1].RecvO? && Welcome(g[1].m, IncumbentSide)
       case 2 => g[1].RecvO? && g[2].SendO? && g[2].ok == ok && Answers(g[1].m, IncumbentSide, g[2].m, h)
       case 3 => g[3].Spawn? && g[3].ok == ok
       case 4 => g[3].Spawn? && ok && g[4].RecvN? && Welcome(g[4].m, SuccessorSide) && g[4].m.pid == g[3].pid
       case 5 => g[4].RecvN? && g[5].SendN? && g[5].ok == ok && Answers(g[4].m, SuccessorSide, g[5].m, h)
       case 6 => g[6] == JournalSet(Negotiating, ok)
       case 7 => g[3].Spawn? && g[7].SendO? && g[7].ok == ok && Asks(g[7].m, h, g[3].pid)
       case 8 => ok && g[8] == RecvO(Drained)
       case 9 => g[9] == JournalSet(Draining, ok)
       case 10 => g[10] == SendO(SealRequest(h), ok)
       case 11 => ok && g[11] == RecvO(SealComplete(h))
       case 12 => g[12] == JournalSet(Sealing, ok)
       case 13 => g[13] == SendN(Begin(h), ok)
       case 14 => g[14] == JournalSet(AwaitingReady, ok)
       case 15 => ok && g[15] == RecvN(Ready(h))
       case 16 => ok && g[16] == Disarm
       case 17 => g[17] == SendO(Commit(h), true) || g[17] == SendO(Commit(h), false)
       case 18 => g[18] == JournalSet(Committed, true) || g[18] == JournalSet(Committed, false)
       case 19 => g[19].JournalClear?
       case _ => false
  }

  predicate Asks(m: Message, h: HandoffId, n: Pid) {
    m.PrepareHandoff? && m.id == h && m.successorPid == n
  }

  /** The first `k` effects succeeded. */
  ghost predicate Main(g: seq<Event>, k: nat, h: HandoffId) {
    k <= |g| && forall j :: 0 <= j < k ==> Does(g, j, h, true)
  }

  /** Effect `k` went wrong in a way that returns an error at once. */
  ghost predicate Fails(g: seq<Event>, k: nat, h: HandoffId) {
    && k < |g|
    && match k
       case 1 => g[1] == TimeoutO || g[1] == ErrorO || (g[1].RecvO? && !Welcome(g[1].m, IncumbentSide))
       case 4 =>
         && g[3].Spawn?
         && (g[4] == FailN || (g[4].RecvN? && !(Welcome(g[4].m, SuccessorSide) && g[4].m.pid == g[3].pid)))
       case 8 => g[8] == TimeoutO || g[8] == ErrorO || (g[8].RecvO? && !g[8].m.Drained?)
       case 11 =>
         g[11] == ErrorO || (g[11].RecvO? && g[11].m != SealComplete(h) && g[11].m != SealFailed(h))
       case 13 => false
       case 15 => false
       case 17 => false
       case 18 => false
       case 19 => false
       case _ => Does(g, k, h, false)
  }

  /** Effect `k` went wrong in a way that first aborts N. */
  ghost predicate Aborts(g: seq<Event>, k: nat, h: HandoffId, kind: AbortKind) {
    && k < |g|
    && match kind
       case SealTimeout => k == 11 && g[11] == TimeoutO
       case SealRefused => k == 11 && g[11] == RecvO(SealFailed(h))
       case NotReady =>
         || (k == 13 && g[13] == SendN(Begin(h), false))
         || (k == 15 && (g[15] == FailN || (g[15].RecvN? && g[15].m != Ready(h))))
  }

  /** The main line broke at `k`, and N was told, then killed and reaped. */
  ghost predicate Killed(g: seq<Event>, k: nat, h: HandoffId, kind: AbortKind) {
    && Main(g, k, h) && Aborts(g, k, h, kind)
    && k + 2 < |g| && g[k + 1].SendN? && g[k + 1].m == Abort(h) && g[k + 2] == KillReap
  }

  /** What the drops at the end of the function do. */
  predicate IsDrop(e: Event) { e == CloseN || e == KillReap || e == CloseO || e == Finish }

  /** A complete body of `perform_handoff` with result `res`: it left the main line at `k`, and
      from `d` on only drops follow. */
  ghost predicate Ends(res: Result, g: seq<Event>, k: nat, d: nat, h: HandoffId) {
    && d <= |g| && (forall j :: d <= j < |g| ==> IsDrop(g[j]))
    && match res
       case CommittedOk => k == d == 20 && Main(g, 20, h)
       case AbortedOk =>
         || (Killed(g, k, h, SealRefused) && d == k + 4 && g[k + 3].JournalClear?)
         || (Killed(g, k, h, NotReady) && d == k + 6 && g[k + 3] == SendO(ResumeAfterAbort(h), true)
             && g[k + 4] == JournalSet(ResumingAfterAbort, true) && g[k + 5].JournalClear?)
       case FailedErr =>
         || (Main(g, k, h) && Fails(g, k, h) && d == k + 1)
         || (Killed(g, k, h, SealTimeout) && d == k + 4 && g[k + 3].JournalClear?)
         || (Killed(g, k, h, NotReady) && d == k + 4 && g[k + 3] == SendO(ResumeAfterAbort(h), false))
         || (Killed(g, k, h, NotReady) && d == k + 5 && g[k + 3] == SendO(ResumeAfterAbort(h), true)
             && g[k + 4] == JournalSet(ResumingAfterAbort, false))
  }

  /** The effects of a run: its events without the signs of life read while waiting. */
  function Gist(es: seq<Event>): seq<Event> {
    if es == [] then []
    else
      var g := Gist(Front(es));
      if |g| > 5 && IsBeat(Last(es)) then g else g + [Last(es)]
  }

  predicate IsBeat(e: Event) { (e.RecvO? || e.RecvN?) && Progress(e.m) }

  // ---------------------------------------------------------------- the proof

  /** Where on the main line a program counter is. */
  function Pos(pc: Pc): Option<nat> {
    match pc
    case Connecting => Some(0)
    case HelloO => Some(1)
    case AckO(_) => Some(2)
    case Spawning => Some(3)
    case HelloN => Some(4)
    case AckN(_) => Some(5)
    case JournalNegotiating => Some(6)
    case SendPrepare => Some(7)
    case AwaitDrained => Some(8)
    case JournalDraining => Some(9)
    case SendSeal => Some(10)
    case AwaitSeal => Some(11)
    case JournalSealing => Some(12)
    case SendBegin => Some(13)
    case JournalAwaiting => Some(14)
    case AwaitReady => Some(15)
    case Disarming => Some(16)
    case SendCommit => Some(17)
    case JournalCommitted => Some(18)
    case Clearing(CommittedOk) => Some(19)
    case _ => None
  }

  ghost predicate At(pc: Pc, g: seq<Event>, k: nat, d: nat, h: HandoffId) {
    match pc
    case AbortN(kind) => |g| == k + 1 && Main(g, k, h) && Aborts(g, k, h, kind)
    case Killing(kind) =>
      |g| == k + 2 && Main(g, k, h) && Aborts(g, k, h, kind) && g[k + 1].SendN? && g[k + 1].m == Abort(h)
    case SendResume => |g| == k + 3 && Killed(g, k, h, NotReady)
    case JournalResuming => |g| == k + 4 && Killed(g, k, h, NotReady) && g[k + 3] == SendO(ResumeAfterAbort(h), true)
    case Clearing(AbortedOk) =>
      || (|g| == k + 3 && Killed(g, k, h, SealRefused))
      || (|g| == k + 5 && Killed(g, k, h, NotReady) && g[k + 3] == SendO(ResumeAfterAbort(h), true)
          && g[k + 4] == JournalSet(ResumingAfterAbort, true))
    case Clearing(FailedErr) => |g| == k + 3 && Killed(g, k, h, SealTimeout)
    case Returning(res) => Ends(res, g, k, d, h)
    case Done(res) => Ends(res, g, k, d, h)
    case Crashed => false
    case _ => Pos(pc) == Some(k) && |g| == k && Main(g, k, h)
  }

  /** What the state still knows of the effects. */
  predicate Knows(s: Sup, g: seq<Event>) {
    && (s.n.Some? ==> |g| > 3 && g[3].Spawn? && s.n == Some(g[3].pid))
    && (s.pc.AckO? ==> |g| == 2 && g[1].RecvO? && Chosen(g[1].m, IncumbentSide) == Some(s.pc.chosen))
    && (s.pc.AckN? ==> |g| == 5 && g[4].RecvN? && Chosen(g[4].m, SuccessorSide) == Some(s.pc.chosen))
  }

  lemma ChosenAnswers(hello: Message, side: Side, h: HandoffId)
    ensures Chosen(hello, side).Some? <==> Welcome(hello, side)
    ensures Chosen(hello, side).Some? ==> Answers(hello, side, HelloAck(Chosen(hello, side).value, h), h)
  {
    var v := Chosen(hello, side);
    if v.Some? { assert Speaks(PROTO_MIN, PROTO_MAX, v.value) && Speaks(hello.protoMin, hello.protoMax, v.value); }
  }

  lemma DoesPrefix(g: seq<Event>, e: Event, j: nat, h: HandoffId, ok: bool)
    requires j < |g|
    ensures Does(g + [e], j, h, ok) <==> Does(g, j, h, ok)
  {
    hide Answers, Welcome;
  }

  lemma MainPrefix(g: seq<Event>, e: Event, k: nat, h: HandoffId)
    requires Main(g, k, h)
    ensures Main(g + [e], k, h)
    ensures k == |g| && Does(g + [e], k, h, true) ==> Main(g + [e], k + 1, h)
  {
    hide Does;
    forall j | 0 <= j < k ensures Does(g + [e], j, h, true) { DoesPrefix(g, e, j, h, true); }
  }

  lemma AbortsPrefix(g: seq<Event>, e: Event, k: nat, h: HandoffId, kind: AbortKind)
    requires Main(g, k, h) && Aborts(g, k, h, kind)
    ensures Main(g + [e], k, h) && Aborts(g + [e], k, h, kind)
    ensures Killed(g, k, h, kind) ==> Killed(g + [e], k, h, kind)
  {
    hide Does;
    MainPrefix(g, e, k, h);
  }

  lemma FailsPrefix(g: seq<Event>, e: Event, k: nat, h: HandoffId)
    requires Fails(g, k, h)
    ensures Fails(g + [e], k, h)
  {
    hide Does, Welcome;
    DoesPrefix(g, e, k, h, false);
  }

  lemma KilledPrefix(g: seq<Event>, e: Event, k: nat, h: HandoffId)
    ensures forall kind :: Killed(g, k, h, kind) ==> Killed(g + [e], k, h, kind)
  {
    hide Main, Aborts;
    forall kind | Killed(g, k, h, kind) ensures Killed(g + [e], k, h, kind) { AbortsPrefix(g, e, k, h, kind); }
  }

  lemma EndsPrefix(res: Result, g: seq<Event>, e: Event, k: nat, d: nat, h: HandoffId)
    requires Ends(res, g, k, d, h) && IsDrop(e)
    ensures Ends(res, g + [e], k, d, h)
  {
    hide Main, Fails, Killed;
    KilledPrefix(g, e, k, h);
    if Main(g, k, h) { MainPrefix(g, e, k, h); }
    if Fails(g, k, h) { FailsPrefix(g, e, k, h); }
  }

  /** The next effect of the main line succeeds, or fails and ends the function. */
  lemma Advance(g: seq<Event>, e: Event, k: nat, h: HandoffId)
    requires Main(g, k, h) && |g| == k
    ensures Main(g + [e], k, h)
    ensures Does(g + [e], k, h, true) ==> Main(g + [e], k + 1, h)
    ensures Fails(g + [e], k, h) ==> Ends(FailedErr, g + [e], k, k + 1, h)
  {
    hide Does, Fails;
    MainPrefix(g, e, k, h);
  }

  ghost predicate Leads(pc: Pc, g: seq<Event>, h: HandoffId) {
    exists k, d :: At(pc, g, k, d, h)
  }

  lemma OnMain(pc: Pc, g: seq<Event>, k: nat, d: nat, h: HandoffId)
    requires At(pc, g, k, d, h) && Pos(pc).Some?
    ensures Pos(pc) == Some(k) && |g| == k && Main(g, k, h)
  {
    hide Main, Ends, Killed, Aborts;
  }

  /** On the main line: effect `k` was done, or it failed, or N must be aborted. */
  ghost predicate Took(pc: Pc, g: seq<Event>, k: nat, h: HandoffId) {
    match pc
    case AbortN(kind) => Aborts(g, k, h, kind)
    case Returning(res) => res == FailedErr && Fails(g, k, h)
    case _ => Pos(pc) == Some(k + 1) && Does(g, k, h, true)
  }

  lemma MainMoves(pc: Pc, g: seq<Event>, e: Event, k: nat, h: HandoffId)
    requires Main(g, k, h) && |g| == k && Took(pc, g + [e], k, h)
    ensures Leads(pc, g + [e], h)
  {
    Advance(g, e, k, h);
    hide Main, Ends, Does, Fails, Aborts, Killed;
    assert At(pc, g + [e], k, k + 1, h) || At(pc, g + [e], k + 1, 0, h);
  }

  lemma RecvOMoves(s: Sup, m: Message, g: seq<Event>, k: nat, d: nat, h: HandoffId, pc: Pc)
    requires At(s.pc, g, k, d, h) && OnRecvO(s.pc, h, m) == Some(pc) && !(|g| > 5 && Progress(m))
    ensures Leads(pc, g + [RecvO(m)], h)
  {
    OnMain(s.pc, g, k, d, h);
    ChosenAnswers(m, IncumbentSide, h);
    hide At, Main, Welcome, Chosen, Leads;
    assert (g + [RecvO(m)])[k] == RecvO(m);
    MainMoves(pc, g, RecvO(m), k, h);
  }

  lemma RecvNMoves(s: Sup, m: Message, g: seq<Event>, k: nat, d: nat, h: HandoffId, pc: Pc)
    requires At(s.pc, g, k, d, h) && Knows(s, g) && OnRecvN(s.pc, s.n, h, m) == Some(pc) && s.n.Some?
    requires !(|g| > 5 && Progress(m))
    ensures Leads(pc, g + [RecvN(m)], h)
  {
    OnMain(s.pc, g, k, d, h);
    ChosenAnswers(m, SuccessorSide, h);
    hide At, Main, Welcome, Chosen, Leads;
    assert (g + [RecvN(m)])[k] == RecvN(m) && (g + [RecvN(m)])[3] == g[3];
    MainMoves(pc, g, RecvN(m), k, h);
  }

  lemma SendOTook(s: Sup, m: Message, ok: bool, g: seq<Event>, h: HandoffId, pc: Pc)
    requires Pos(s.pc) == Some(|g|) && Knows(s, g) && OnSendO(s.pc, s.n, h, m, ok) == Some(pc)
    ensures Took(pc, g + [SendO(m, ok)], |g|, h)
  {
    if s.pc.AckO? { ChosenAnswers(g[1].m, IncumbentSide, h); }
    hide Chosen, Answers, Welcome;
    var g' := g + [SendO(m, ok)];
    assert g'[|g|] == SendO(m, ok) && (|g| > 1 ==> g'[1] == g[1]) && (|g| > 3 ==> g'[3] == g[3]);
  }

  lemma SendOMoves(s: Sup, m: Message, ok: bool, g: seq<Event>, k: nat, d: nat, h: HandoffId, pc: Pc)
    requires At(s.pc, g, k, d, h) && Knows(s, g) && OnSendO(s.pc, s.n, h, m, ok) == Some(pc)
    ensures Leads(pc, g + [SendO(m, ok)], h)
  {
    var e := SendO(m, ok);
    if s.pc == SendResume {
      KilledPrefix(g, e, k, h);
      hide Killed;
      assert At(pc, g + [e], k, k + 4, h);
    } else {
      assert Pos(s.pc).Some?;
      hide *;
      OnMain(s.pc, g, k, d, h);
      SendOTook(s, m, ok, g, h, pc);
      MainMoves(pc, g, e, k, h);
    }
  }

  lemma SendNMoves(s: Sup, m: Message, ok: bool, g: seq<Event>, k: nat, d: nat, h: HandoffId, pc: Pc)
    requires At(s.pc, g, k, d, h) && Knows(s, g) && OnSendN(s.pc, h, m, ok) == Some(pc)
    ensures Leads(pc, g + [SendN(m, ok)], h)
  {
    var e := SendN(m, ok);
    if s.pc.AbortN? {
      AbortsPrefix(g, e, k, h, s.pc.kind);
      hide Main, Aborts;
      assert At(pc, g + [e], k, 0, h);
    } else {
      OnMain(s.pc, g, k, d, h);
      if s.pc.AckN? { ChosenAnswers(g[4].m, SuccessorSide, h); }
      hide At, Main, Chosen, Answers, Welcome, Leads;
      assert (g + [e])[k] == e && (k > 4 ==> (g + [e])[4] == g[4]);
      MainMoves(pc, g, e, k, h);
    }
  }

  lemma JournalTook(pc: Pc, p: Phase, ok: bool, g: seq<Event>, h: HandoffId, pc': Pc)
    requires Pos(pc) == Some(|g|) && OnJournal(pc, p, ok) == Some(pc')
    ensures Took(pc', g + [JournalSet(p, ok)], |g|, h)
  {
    hide Answers, Welcome, Aborts;
    assert (g + [JournalSet(p, ok)])[|g|] == JournalSet(p, ok);
    assert |g| == 6 || |g| == 9 || |g| == 12 || |g| == 14 || |g| == 18;
  }

  lemma JournalMoves(s: Sup, p: Phase, ok: bool, g: seq<Event>, k: nat, d: nat, h: HandoffId, pc: Pc)
    requires At(s.pc, g, k, d, h) && OnJournal(s.pc, p, ok) == Some(pc)
    ensures Leads(pc, g + [JournalSet(p, ok)], h)
  {
    var e := JournalSet(p, ok);
    if s.pc == JournalResuming {
      KilledPrefix(g, e, k, h);
      hide Killed;
      assert At(pc, g + [e], k, k + 5, h);
    } else {
      assert Pos(s.pc).Some?;
      hide *;
      OnMain(s.pc, g, k, d, h);
      JournalTook(s.pc, p, ok, g, h, pc);
      MainMoves(pc, g, e, k, h);
    }
  }

  lemma ClearMoves(s: Sup, ok: bool, g: seq<Event>, k: nat, d: nat, h: HandoffId)
    requires At(s.pc, g, k, d, h) && s.pc.Clearing?
    ensures Leads(Returning(s.pc.res), g + [JournalClear(ok)], h)
  {
    var e := JournalClear(ok);
    var g' := g + [e];
    KilledPrefix(g, e, k, h);
    if s.pc.res == CommittedOk {
      Advance(g, e, k, h);
      assert Does(g', 19, h, true);
      hide Main;
      assert At(Returning(CommittedOk), g', 20, 20, h);
    } else {
      hide Killed, Main;
      assert At(Returning(s.pc.res), g', k, k + 4, h) || At(Returning(s.pc.res), g', k, k + 6, h);
    }
  }

  lemma KillMoves(s: Sup, g: seq<Event>, k: nat, d: nat, h: HandoffId, pc: Pc)
    requires At(s.pc, g, k, d, h) && OnKill(s) == Some(pc)
    ensures Leads(pc, g + [KillReap], h)
  {
    var g' := g + [KillReap];
    if s.pc.Killing? {
      AbortsPrefix(g, KillReap, k, h, s.pc.kind);
      hide Main, Aborts;
      assert Killed(g', k, h, s.pc.kind);
      assert At(pc, g', k, 0, h);
    } else {
      EndsPrefix(s.pc.res, g, KillReap, k, d, h);
      hide Ends;
      assert At(pc, g', k, d, h);
    }
  }

  lemma OtherMoves(s: Sup, e: Event, g: seq<Event>, k: nat, d: nat, h: HandoffId, pc: Pc)
    requires At(s.pc, g, k, d, h) && NextPc(s, h, e) == Some(pc)
    requires e.ConnectO? || e.TimeoutO? || e.ErrorO? || e.Spawn? || e.FailN? || e.Disarm?
    requires s.pc == HelloN ==> |g| > 3 && g[3].Spawn?
    ensures Leads(pc, g + [e], h)
  {
    hide OnRecvO, OnRecvN, OnSendO, OnSendN, OnJournal, OnKill;
    OnMain(s.pc, g, k, d, h);
    hide At, Main, Leads;
    assert (g + [e])[k] == e && (k > 3 ==> (g + [e])[3] == g[3]);
    MainMoves(pc, g, e, k, h);
  }

  lemma DropMoves(s: Sup, e: Event, g: seq<Event>, k: nat, d: nat, h: HandoffId, pc: Pc)
    requires At(s.pc, g, k, d, h) && NextPc(s, h, e) == Some(pc) && (e.CloseN? || e.CloseO? || e.Finish?)
    ensures Leads(pc, g + [e], h)
  {
    hide OnRecvO, OnRecvN, OnSendO, OnSendN, OnJournal, OnKill;
    EndsPrefix(s.pc.res, g, e, k, d, h);
    hide Ends;
    assert At(pc, g + [e], k, d, h);
  }

  lemma StepLeads(s: Sup, h: HandoffId, e: Event, g: seq<Event>)
    requires Leads(s.pc, g, h) && Knows(s, g) && NextPc(s, h, e).Some? && !(|g| > 5 && IsBeat(e))
    requires s.pc == HelloN || s.pc == AwaitReady ==> s.n.Some?
    ensures Leads(NextPc(s, h, e).value, g + [e], h)
  {
    var k: nat, d: nat :| At(s.pc, g, k, d, h);
    var pc := NextPc(s, h, e).value;
    if e.RecvN? { RecvNWhere(s, h, e.m); }
    hide At, Leads, OnRecvO, OnRecvN, OnSendO, OnSendN, OnJournal, OnKill;
    match e
    case RecvO(m) => RecvOMoves(s, m, g, k, d, h, pc);
    case RecvN(m) => RecvNMoves(s, m, g, k, d, h, pc);
    case SendO(m, ok) => SendOMoves(s, m, ok, g, k, d, h, pc);
    case SendN(m, ok) => SendNMoves(s, m, ok, g, k, d, h, pc);
    case JournalSet(p, ok) => JournalMoves(s, p, ok, g, k, d, h, pc);
    case JournalClear(ok) => ClearMoves(s, ok, g, k, d, h);
    case KillReap => KillMoves(s, g, k, d, h, pc);
    case CloseN => DropMoves(s, e, g, k, d, h, pc);
    case CloseO => DropMoves(s, e, g, k, d, h, pc);
    case Finish => DropMoves(s, e, g, k, d, h, pc);
    case _ => OtherMoves(s, e, g, k, d, h, pc);
  }

  lemma RecvNWhere(s: Sup, h: HandoffId, m: Message)
    requires NextPc(s, h, RecvN(m)).Some?
    ensures s.pc == HelloN || s.pc == AwaitReady
  {
  }

  lemma SpawnedByThen(s: Sup, h: HandoffId)
    requires Inv(s, h) && (s.pc == HelloN || s.pc == AwaitReady)
    ensures s.n.Some?
  {
    hide ScriptOk;
  }

  /** Only the Hello of a peer leads to its acknowledgement, and only a spawn sets the pid. */
  lemma KnowsSource(s: Sup, h: HandoffId, e: Event, pc: Pc)
    requires NextPc(s, h, e) == Some(pc)
    ensures pc.AckO? ==> s.pc == HelloO && e.RecvO? && Chosen(e.m, IncumbentSide) == Some(pc.chosen)
    ensures pc.AckN? ==> s.pc == HelloN && e.RecvN? && Chosen(e.m, SuccessorSide) == Some(pc.chosen)
    ensures e.Spawn? ==> s.pc == Spawning
  {
    hide Chosen;
  }

  lemma EffectPid(s: Sup, e: Event, pc: Pc)
    ensures Effect(s, e, pc).pc == pc && Effect(s, e, pc).n == if e.Spawn? && e.ok then Some(e.pid) else s.n
  {
  }

  lemma KnowsStep(s: Sup, h: HandoffId, e: Event, g: seq<Event>)
    requires Leads(s.pc, g, h) && Knows(s, g) && Step(s, h, e).Some?
    ensures Knows(Step(s, h, e).value, g + [e])
  {
    hide NextPc, Effect, Chosen;
    var pc := NextPc(s, h, e).value;
    KnowsSource(s, h, e, pc);
    EffectPid(s, e, pc);
    var k: nat, d: nat :| At(s.pc, g, k, d, h);
    if Pos(s.pc).Some? { OnMain(s.pc, g, k, d, h); }
    hide At;
  }

  /** A sign of life read while waiting changes nothing. */
  lemma BeatIsIdle(s: Sup, h: HandoffId, e: Event, g: seq<Event>)
    requires Leads(s.pc, g, h) && NextPc(s, h, e).Some? && |g| > 5 && IsBeat(e)
    ensures Step(s, h, e) == Some(s)
  {
    hide Chosen;
    var k: nat, d: nat :| At(s.pc, g, k, d, h);
    if Pos(s.pc).Some? { OnMain(s.pc, g, k, d, h); }
  }

  lemma {:induction false} RunLeads(h: HandoffId, es: seq<Event>)
    requires After(h, es).Some?
    ensures Leads(After(h, es).value.pc, Gist(es), h) && Knows(After(h, es).value, Gist(es))
  {
    hide NextPc, Effect, Leads, Knows, Inv;
    if es == [] {
      Opening(h);
    } else {
      var s, g, e := After(h, Front(es)).value, Gist(Front(es)), Last(es);
      RunLeads(h, Front(es));
      if |g| > 5 && IsBeat(e) {
        BeatIsIdle(s, h, e, g);
      } else {
        RunIsTallied(h, Front(es));
        if s.pc == HelloN || s.pc == AwaitReady { SpawnedByThen(s, h); }
        StepLeads(s, h, e, g);
        KnowsStep(s, h, e, g);
        EffectPid(s, e, NextPc(s, h, e).value);
      }
    }
  }

  lemma Opening(h: HandoffId)
    ensures Leads(START.pc, [], h) && Knows(START, [])
  {
    assert At(START.pc, [], 0, 0, h);
  }

  // ---------------------------------------------------------------- results

  /** Every complete run of `perform_handoff`: the script is followed without a gap up to the
      effect `k` that went otherwise, and left only in one of the documented ways, in their
      order: an error return, or Abort, kill and reap, and then what its result requires. */
  lemma HandoffFollowsScript(h: HandoffId, es: seq<Event>) returns (k: nat, d: nat)
    requires After(h, es).Some? && After(h, es).value.pc.Done?
    ensures Ends(After(h, es).value.pc.res, Gist(es), k, d, h)
  {
    hide After, Ends;
    RunLeads(h, es);
    k, d :| At(After(h, es).value.pc, Gist(es), k, d, h);
  }

  /** What the result of `perform_handoff` says: committed if and only if the effect after
      AwaitingReady is this handoff's Ready; aborted with Ok if and only if O refused to seal,
      or the resume was sent to O and journaled; an error in every other case. */
  lemma ResultIff(h: HandoffId, es: seq<Event>)
    requires After(h, es).Some? && After(h, es).value.pc.Done?
    ensures var g, res := Gist(es), After(h, es).value.pc.res;
            && (res == CommittedOk <==> |g| > 15 && g[15] == RecvN(Ready(h)))
            && (res == AbortedOk <==>
                (|g| > 11 && g[11] == RecvO(SealFailed(h))) || JournalSet(ResumingAfterAbort, true) in g)
  {
    var g, res := Gist(es), After(h, es).value.pc.res;
    var k, d := HandoffFollowsScript(h, es);
    hide After;
    EndsTell(res, g, k, d, h);
  }

  lemma EndsTell(res: Result, g: seq<Event>, k: nat, d: nat, h: HandoffId)
    requires Ends(res, g, k, d, h)
    ensures res == CommittedOk <==> |g| > 15 && g[15] == RecvN(Ready(h))
    ensures res == AbortedOk <==>
            (|g| > 11 && g[11] == RecvO(SealFailed(h))) || JournalSet(ResumingAfterAbort, true) in g
  {
    hide Welcome, Answers;
    assert k > 15 && Main(g, k, h) ==> Does(g, 15, h, true);
    assert k > 11 && Main(g, k, h) ==> Does(g, 11, h, true);
    if JournalSet(ResumingAfterAbort, true) in g {
      var j :| 0 <= j < |g| && g[j] == JournalSet(ResumingAfterAbort, true);
      assert j < k && Main(g, k, h) ==> Does(g, j, h, true);
    }
  }

  /** The frames whose payload a peer relies on, at every point of every run: an
      acknowledgement answers the Hello read just before it, and PrepareHandoff names the
      child that was spawned. */
  ghost predicate Right(h: HandoffId, es: seq<Event>) {
    && (forall k :: 0 <= k < |es| && es[k].SendO? && es[k].m.HelloAck? ==>
          k > 0 && es[k - 1].RecvO? && Answers(es[k - 1].m, IncumbentSide, es[k].m, h))
    && (forall k :: 0 <= k < |es| && es[k].SendN? && es[k].m.HelloAck? ==>
          k > 0 && es[k - 1].RecvN? && Answers(es[k - 1].m, SuccessorSide, es[k].m, h))
    && (forall k :: 0 <= k < |es| && es[k].SendO? && es[k].m.PrepareHandoff? ==>
          es[k].m.id == h && Spawn(es[k].m.successorPid, true) in es)
  }

  lemma SendSource(s: Sup, h: HandoffId, e: Event)
    requires NextPc(s, h, e).Some?
    ensures e.SendO? && e.m.HelloAck? ==> s.pc.AckO? && e.m == HelloAck(s.pc.chosen, h)
    ensures e.SendN? && e.m.HelloAck? ==> s.pc.AckN? && e.m == HelloAck(s.pc.chosen, h)
    ensures e.SendO? && e.m.PrepareHandoff? ==> e.m.id == h && s.n == Some(e.m.successorPid)
  {
  }

  /** What the last event left in the state. */
  predicate Fresh(s: Sup, es: seq<Event>) {
    && (s.pc.AckO? ==> es != [] && Last(es).RecvO? && Chosen(Last(es).m, IncumbentSide) == Some(s.pc.chosen))
    && (s.pc.AckN? ==> es != [] && Last(es).RecvN? && Chosen(Last(es).m, SuccessorSide) == Some(s.pc.chosen))
    && (s.n.Some? ==> Spawn(s.n.value, true) in es)
  }

  lemma RightSnoc(h: HandoffId, es: seq<Event>, e: Event)
    requires Right(h, es)
    requires e.SendO? && e.m.HelloAck? ==>
               es != [] && Last(es).RecvO? && Answers(Last(es).m, IncumbentSide, e.m, h)
    requires e.SendN? && e.m.HelloAck? ==>
               es != [] && Last(es).RecvN? && Answers(Last(es).m, SuccessorSide, e.m, h)
    requires e.SendO? && e.m.PrepareHandoff? ==> e.m.id == h && Spawn(e.m.successorPid, true) in es
    ensures Right(h, es + [e])
  {
    hide Answers;
    var es' := es + [e];
    assert forall k :: 0 <= k < |es| ==> es'[k] == es[k];
    assert forall x :: x in es ==> x in es';
  }

  lemma FreshStep(s: Sup, h: HandoffId, es: seq<Event>, e: Event)
    requires Fresh(s, es) && Step(s, h, e).Some?
    ensures Fresh(Step(s, h, e).value, es + [e])
  {
    hide NextPc, Effect, Chosen;
    KnowsSource(s, h, e, NextPc(s, h, e).value);
    EffectPid(s, e, NextPc(s, h, e).value);
  }

  lemma RightStep(s: Sup, h: HandoffId, es: seq<Event>, e: Event)
    requires Right(h, es) && Fresh(s, es) && NextPc(s, h, e).Some?
    ensures Right(h, es + [e])
  {
    hide NextPc, Effect, Chosen, Answers, Right;
    SendSource(s, h, e);
    if s.pc.AckO? { ChosenAnswers(Last(es).m, IncumbentSide, h); }
    if s.pc.AckN? { ChosenAnswers(Last(es).m, SuccessorSide, h); }
    RightSnoc(h, es, e);
  }

  lemma {:induction false} FramesAreRight(h: HandoffId, es: seq<Event>)
    requires After(h, es).Some?
    ensures Right(h, es) && Fresh(After(h, es).value, es)
  {
    if es != [] {
      var s, e := After(h, Front(es)).value, Last(es);
      assert Step(s, h, e) == After(h, es) && NextPc(s, h, e).Some?;
      FramesAreRight(h, Front(es));
      assert es == Front(es) + [e];
      hide *;
      RightStep(s, h, Front(es), e);
      FreshStep(s, h, Front(es), e);
    }
  }
}
