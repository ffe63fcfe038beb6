/** The incumbent `O`: `Incumbent::serve`, `handle_session` and `run_session_loop`.

    `Step` is the serve loop as an automaton whose transitions are the externally
    visible effects of the code (socket reads and writes, hook calls, flock
    operations). The class in module IncumbentCode is the code itself; every effect it
    performs is checked to be a transition of the automaton. */
module IncumbentSession {
  import opened Protocol

  /** `SessionState` of `run_session_loop`. */
  datatype SessionState = SessionState(active: Option<HandoffId>, sealed: bool, drained: bool)

  const FRESH := SessionState(None, false, false)

  datatype Outcome = CommitSeen | Closed | Failed

  datatype Pc =
    | Accepting                  // blocked in accept()
    | Greeting                   // about to write Hello
    | AwaitingAck                // about to read HelloAck
    | LoopHead                   // top of run_session_loop
    | InDrain                    // inside Drainable::drain
    | TellDrained                // about to write Drained
    | InSeal                     // inside Drainable::seal
    | Releasing                  // seal succeeded, about to drop the lock guard
    | TellSealed                 // about to write SealComplete
    | TellSealFailed             // about to write SealFailed
    | ResumeAfterSealFailed      // about to call resume_after_abort in the SealFailed arm
    | Reacquiring                // rollback while sealed: about to acquire
    | ResumeSealed               // rollback while sealed: acquired, about to resume
    | ResumeDrained              // rollback while only drained: about to resume
    | Echoing                    // about to echo a Heartbeat
    | Cleanup(out: Outcome)      // tail of handle_session
    | Leaving(out: Outcome)      // about to drop the stream and return to serve
    | Recovering                 // serve: session error without the lock
    | ResumeRecovered            // serve: re-acquired, about to resume
    | Exited(committed: bool)    // serve returned

  /** `lock` is `self.lock.is_some()`. `mayWrite` is an upper bound on the consumer:
      false exactly from a successful drain to the next resume call. */
  datatype Inc = Inc(pc: Pc, lock: bool, st: SessionState, mayWrite: bool, session: Option<HandoffId>)

  datatype Event =
    | Accept(conn: HandoffId)
    | AcceptFatal
    | Write(m: Message, ok: bool)
    | Read(m: Message)
    | ReadEof
    | ReadFail
    | Drain(ok: bool)
    | Seal(ok: bool)
    | Release
    | Acquire(ok: bool)
    | GiveUp
    | Resume(ok: bool)
    | Leave

  const START := Inc(Accepting, true, FRESH, true, None)

  function Fail(i: Inc): Inc {
    i.(pc := Cleanup(Failed))
  }

  function Rollback(i: Inc): Inc {
    if i.st.sealed then i.(pc := Reacquiring)
    else if i.st.drained then i.(pc := ResumeDrained)
    else i.(st := i.st.(active := None))
  }

  /** The `match msg` of the session loop. */
  function OnMessage(i: Inc, m: Message): Inc {
    match m
    case PrepareHandoff(id, _, _, _) =>
      if i.st.active.Some? && i.st.active.value != id then Fail(i)
      else i.(pc := InDrain, st := i.st.(active := Some(id)))
    case SealRequest(id) =>
      if i.st.active != Some(id) then Fail(i) else i.(pc := InSeal)
    case Commit(id) =>
      if i.st.active != Some(id) || !i.st.sealed then Fail(i) else i.(pc := Cleanup(CommitSeen))
    case ResumeAfterAbort(id) =>
      if i.st.active != Some(id) then Fail(i) else Rollback(i)
    case Abort(id) =>
      if i.st.active != Some(id) then Fail(i) else Rollback(i)
    case Heartbeat => i.(pc := Echoing)
    case _ => Fail(i)
  }

  predicate GoodAck(m: Message) {
    m.HelloAck? && NegotiateVersion(PROTO_MIN, PROTO_MAX, m.chosen, m.chosen).Some?
  }

  predicate IsHello(m: Message) {
    m.Hello? && m.role == IncumbentSide && m.protoMin == PROTO_MIN && m.protoMax == PROTO_MAX
  }

  /** The handle_session tail calls resume exactly under this guard. */
  predicate OwesResume(i: Inc) {
    i.pc.Cleanup? && i.st.drained && !i.st.sealed && i.pc.out != CommitSeen
  }

  function AfterLeave(i: Inc, out: Outcome): Inc {
    match out
    case CommitSeen => i.(pc := Exited(true), lock := false)
    case Closed => i.(pc := Accepting, session := None)
    case Failed => if i.lock then i.(pc := Accepting, session := None) else i.(pc := Recovering)
  }

  function Wrote(i: Inc, m: Message, ok: bool): Option<Inc> {
    match i.pc
    case Greeting => if !IsHello(m) then None
                     else Some(i.(pc := if ok then AwaitingAck else Leaving(Failed)))
    case TellDrained => if m != Drained then None else Some(if ok then i.(pc := LoopHead) else Fail(i))
    case TellSealed => if !i.st.active.Some? || m != SealComplete(i.st.active.value) then None
                       else Some(if ok then i.(pc := LoopHead) else Fail(i))
    case TellSealFailed => if !i.st.active.Some? || m != SealFailed(i.st.active.value) then None
                           else Some(if ok then i.(pc := ResumeAfterSealFailed) else Fail(i))
    case Echoing => if m != Heartbeat then None else Some(if ok then i.(pc := LoopHead) else Fail(i))
    case InDrain => if m != Heartbeat then None else Some(i)   // heartbeat thread
    case InSeal => if m != Heartbeat then None else Some(i)    // heartbeat thread
    case _ => None
  }

  function Resumed(i: Inc, ok: bool): Option<Inc> {
    var j := i.(mayWrite := true);
    match i.pc
    case ResumeAfterSealFailed =>
      Some(if ok then j.(pc := LoopHead, st := i.st.(drained := false, active := None)) else Fail(j))
    case ResumeSealed => Some(if ok then j.(pc := LoopHead, st := FRESH) else Fail(j))
    case ResumeDrained =>
      Some(if ok then j.(pc := LoopHead, st := i.st.(drained := false, active := None)) else Fail(j))
    case Cleanup(out) => if OwesResume(i) then Some(j.(pc := Leaving(out))) else None
    case ResumeRecovered => Some(j.(pc := Accepting, session := None))
    case _ => None
  }

  function Step(i: Inc, e: Event): Option<Inc> {
    match e
    case Accept(c) => if i.pc == Accepting then Some(i.(pc := Greeting, st := FRESH, session := Some(c))) else None
    // serve consumes `self`: returning drops the guard, and with it the flock.
    case AcceptFatal => if i.pc == Accepting then Some(i.(pc := Exited(false), lock := false)) else None
    case Write(m, ok) => Wrote(i, m, ok)
    case Read(m) =>
      if i.pc == AwaitingAck then Some(i.(pc := if GoodAck(m) then LoopHead else Leaving(Failed)))
      else if i.pc == LoopHead then Some(OnMessage(i, m))
      else None
    case ReadEof =>
      if i.pc == AwaitingAck then Some(i.(pc := Leaving(Failed)))
      else if i.pc == LoopHead then Some(if i.st.sealed then Fail(i) else i.(pc := Cleanup(Closed)))
      else None
    case ReadFail =>
      if i.pc == AwaitingAck then Some(i.(pc := Leaving(Failed)))
      else if i.pc == LoopHead then Some(Fail(i)) else None
    case Drain(ok) =>
      if i.pc != InDrain then None
      else Some(if ok then i.(pc := TellDrained, st := i.st.(drained := true), mayWrite := false) else Fail(i))
    case Seal(ok) =>
      if i.pc != InSeal then None else Some(i.(pc := if ok then Releasing else TellSealFailed))
    case Release =>
      if i.pc != Releasing then None else Some(i.(pc := TellSealed, lock := false, st := i.st.(sealed := true)))
    case Acquire(ok) =>
      if i.pc == Reacquiring then Some(if ok then i.(pc := ResumeSealed, lock := true) else Fail(i))
      else if i.pc == Recovering then Some(if ok then i.(pc := ResumeRecovered, lock := true) else i)
      else None
    case GiveUp => if i.pc == Recovering then Some(i.(pc := Exited(false))) else None
    case Resume(ok) => Resumed(i, ok)
    case Leave =>
      match i.pc
      case Leaving(out) => Some(AfterLeave(i, out))
      case Cleanup(out) => if OwesResume(i) then None else Some(AfterLeave(i, out))
      case _ => None
  }

  /** The frames the session loop expects with its state `st`; every other frame, and every
      frame with a foreign id, is a protocol error. */
  predicate Expected(st: SessionState, m: Message) {
    || m == Heartbeat
    || (m.PrepareHandoff? && (st.active == None || st.active == Some(m.id)))
    || ((m.SealRequest? || m.ResumeAfterAbort? || m.Abort?) && st.active == Some(m.id))
    || (m.Commit? && st.active == Some(m.id) && st.sealed)
  }

  /** What a frame asks of O. */
  predicate Obeyed(i: Inc, m: Message, j: Inc) {
    match m
    case PrepareHandoff(id, _, _, _) => j == i.(pc := InDrain, st := SessionState(Some(id), i.st.sealed, i.st.drained))
    case SealRequest(_) => j == i.(pc := InSeal)
    case Commit(_) => j == i.(pc := Cleanup(CommitSeen))
    case Heartbeat => j == i.(pc := Echoing)
    case _ =>
      if i.st.sealed then j == i.(pc := Reacquiring)
      else if i.st.drained then j == i.(pc := ResumeDrained)
      else j == i.(st := SessionState(None, false, false))
  }

  /** The session fails on a frame if and only if it is not one of these, and then nothing
      else has changed; an expected frame is obeyed. */
  lemma FrameFailsIff(i: Inc, m: Message)
    requires i.pc == LoopHead
    ensures Step(i, Read(m)).Some?
    ensures var j := Step(i, Read(m)).value;
            && (j.pc == Cleanup(Failed) <==> !Expected(i.st, m))
            && (if Expected(i.st, m) then Obeyed(i, m, j) else j == i.(pc := Cleanup(Failed)))
  {
  }

  /** O goes on with an acknowledgement if and only if it names a version O speaks. */
  lemma AckAcceptedIff(i: Inc, m: Message)
    requires i.pc == AwaitingAck
    ensures Step(i, Read(m)) == Some(i.(pc := LoopHead)) <==> m.HelloAck? && Speaks(PROTO_MIN, PROTO_MAX, m.chosen)
    ensures Step(i, Read(m)) != Some(i.(pc := LoopHead)) ==> Step(i, Read(m)) == Some(i.(pc := Leaving(Failed)))
  {
    if m.HelloAck? { assert Speaks(m.chosen, m.chosen, m.chosen); }
  }

  lemma AcceptSteps(i: Inc)
    requires i.pc == Accepting
    ensures forall c :: Step(i, Accept(c)) == Some(i.(pc := Greeting, st := FRESH, session := Some(c)))
    ensures Step(i, AcceptFatal) == Some(i.(pc := Exited(false), lock := false))
  {
  }

  lemma LeaveSteps(i: Inc, out: Outcome)
    requires i.pc == Leaving(out) || (i.pc == Cleanup(out) && !OwesResume(i))
    ensures Step(i, Leave) == Some(AfterLeave(i, out))
  {
  }

  lemma HeadSteps(i: Inc)
    requires i.pc == LoopHead
    ensures forall m :: Step(i, Read(m)) == Some(OnMessage(i, m))
    ensures Step(i, ReadEof) == Some(i.(pc := Cleanup(if i.st.sealed then Failed else Closed))) &&
            Step(i, ReadFail) == Some(Fail(i))
    ensures forall ok :: Step(i.(pc := Echoing), Write(Heartbeat, ok)) == Some(if ok then i else Fail(i))
  {
    hide OnMessage;
  }

  lemma SealArmSteps(i: Inc, id: HandoffId)
    requires i.pc == InSeal && i.st.active == Some(id)
    ensures forall ok :: Step(i, Seal(ok)) == Some(i.(pc := if ok then Releasing else TellSealFailed))
    ensures var j := i.(pc := TellSealed, lock := false, st := i.st.(sealed := true));
            Step(i.(pc := Releasing), Release) == Some(j) &&
            forall ok :: Step(j, Write(SealComplete(id), ok)) == Some(if ok then j.(pc := LoopHead) else Fail(j))
    ensures forall ok ::
              Step(i.(pc := TellSealFailed), Write(SealFailed(id), ok)) ==
              Some(if ok then i.(pc := ResumeAfterSealFailed) else Fail(i))
    ensures var j := i.(mayWrite := true);
            forall ok ::
              Step(i.(pc := ResumeAfterSealFailed), Resume(ok)) ==
              Some(if ok then j.(pc := LoopHead, st := i.st.(drained := false, active := None)) else Fail(j))
  {
  }

  lemma GreetSteps(i: Inc, pid: Pid)
    requires i.pc == Greeting
    ensures forall ok ::
              Step(i, Write(Hello(IncumbentSide, pid, PROTO_MIN, PROTO_MAX), ok)) ==
              Some(i.(pc := if ok then AwaitingAck else Leaving(Failed)))
    ensures forall m ::
              Step(i.(pc := AwaitingAck), Read(m)) ==
              Some(i.(pc := if GoodAck(m) then LoopHead else Leaving(Failed)))
    ensures Step(i.(pc := AwaitingAck), ReadEof) == Some(i.(pc := Leaving(Failed))) ==
            Step(i.(pc := AwaitingAck), ReadFail)
  {
    hide GoodAck;
  }

  lemma CleanupSteps(i: Inc)
    requires OwesResume(i)
    ensures forall ok :: Step(i, Resume(ok)) == Some(i.(mayWrite := true, pc := Leaving(i.pc.out)))
  {
  }

  lemma RecoverSteps(i: Inc)
    requires i.pc == ResumeRecovered
    ensures forall ok :: Step(i, Resume(ok)) == Some(i.(mayWrite := true, pc := Accepting, session := None))
  {
  }

  // ---------------------------------------------------------------- invariant

  /** What holds at every head of the session loop. */
  predicate Head(i: Inc) {
    && (i.st.active.Some? <==> i.st.drained)
    && (i.st.sealed ==> i.st.drained)
    && (i.lock <==> !i.st.sealed)
    && (i.mayWrite <==> !i.st.drained)
  }

  predicate Inv(i: Inc) {
    && (i.mayWrite ==> i.lock)
    && match i.pc
       case Accepting => i.mayWrite
       case Greeting => i.mayWrite && i.st == FRESH
       case AwaitingAck => i.mayWrite && i.st == FRESH
       case LoopHead => Head(i)
       case Echoing => Head(i)
       case InDrain => Head(i.(st := i.st.(active := if i.st.drained then i.st.active else None))) && i.st.active.Some?
       case TellDrained => Head(i) && i.st.drained
       case InSeal => Head(i) && i.st.drained
       case Releasing => Head(i) && i.st.drained
       case TellSealed => Head(i) && i.st.sealed
       case TellSealFailed => Head(i) && i.st.drained
       case ResumeAfterSealFailed => Head(i) && i.st.drained && !i.st.sealed
       case Reacquiring => Head(i) && i.st.sealed
       case ResumeSealed => i.lock && !i.mayWrite && i.st.sealed
       case ResumeDrained => Head(i) && i.st.drained && !i.st.sealed
       case Cleanup(CommitSeen) => Head(i) && i.st.sealed
       case Cleanup(Closed) => !i.st.sealed && i.lock && (i.mayWrite <==> !i.st.drained)
       case Cleanup(Failed) =>
         && (!i.lock ==> i.st.sealed)
         && (i.lock && !i.mayWrite ==> i.st.drained && !i.st.sealed)
       case Leaving(out) => out != CommitSeen && (out == Closed ==> i.lock) && (i.lock <==> i.mayWrite)
       case Recovering => !i.lock
       case ResumeRecovered => i.lock && !i.mayWrite
       case Exited(_) => !i.mayWrite && !i.lock
  }

  /** The two transitions that break the invariant: telling the supervisor about a
      failed seal when an earlier seal had already given the flock away, and a fatal
      accept error. */
  predicate Safe(i: Inc, e: Event) {
    && !(i.pc == TellSealFailed && i.st.sealed && e.Write? && e.ok)
    && e != AcceptFatal
  }

  /** One step from a good state reaches a good state if and only if it is not one
      of the two unsafe transitions. */
  lemma StepKeepsInvIffSafe(i: Inc, e: Event)
    requires Inv(i) && Step(i, e).Some?
    ensures Inv(Step(i, e).value) <==> Safe(i, e)
  {
  }

  // ---------------------------------------------------------------- whole runs

  /** The state after a whole run from startup; `None` if it is not a run. */
  function After(es: seq<Event>): Option<Inc> {
    if es == [] then Some(START)
    else
      var i := After(Front(es));
      if i.None? then None else Step(i.value, Last(es))
  }

  /** No step of the run is one of the two unsafe transitions. */
  predicate AllSafe(es: seq<Event>) {
    es == [] || (AllSafe(Front(es)) && (After(Front(es)).Some? ==> Safe(After(Front(es)).value, Last(es))))
  }

  /** Every state the run passes through is good. */
  predicate AllGood(es: seq<Event>)
    requires After(es).Some?
  {
    es == [] || (AllGood(Front(es)) && Inv(After(es).value))
  }

  /** For every run over arbitrary messages and hook outcomes: the incumbent keeps
      its invariant throughout exactly when no unsafe transition occurs. */
  lemma {:induction false} RunGoodIffSafe(es: seq<Event>)
    requires After(es).Some?
    ensures AllGood(es) <==> AllSafe(es)
    ensures AllSafe(es) ==> Inv(After(es).value)
  {
    if es != [] {
      RunGoodIffSafe(Front(es));
      if AllSafe(Front(es)) {
        StepKeepsInvIffSafe(After(Front(es)).value, Last(es));
      }
    }
  }

  /** What a peer can promise: never a `SealRequest` while the session is sealed. */
  predicate Careful(es: seq<Event>) {
    es != [] ==>
    && Careful(Front(es))
    && Last(es) != AcceptFatal
    && (After(Front(es)).Some? && Last(es).Read? && Last(es).m.SealRequest? ==>
          !(After(Front(es)).value.pc == LoopHead && After(Front(es)).value.st.sealed))
  }

  predicate SealsOnce(i: Inc) {
    i.pc in {InSeal, Releasing, TellSealFailed} ==> !i.st.sealed
  }

  lemma SealsOnceStep(i: Inc, e: Event)
    requires SealsOnce(i) && Step(i, e).Some?
    requires !(i.pc == LoopHead && i.st.sealed && e.Read? && e.m.SealRequest?)
    ensures SealsOnce(Step(i, e).value)
  {
  }

  /** A careful peer never triggers an unsafe transition. */
  lemma {:induction false} CarefulIsSafe(es: seq<Event>)
    requires After(es).Some? && Careful(es)
    ensures AllSafe(es) && SealsOnce(After(es).value)
  {
    if es != [] {
      CarefulIsSafe(Front(es));
      SealsOnceStep(After(Front(es)).value, Last(es));
    }
  }

  lemma Push(es: seq<Event>, i: Inc, e: Event, j: Inc)
    requires After(es) == Some(i) && Step(i, e) == Some(j)
    ensures After(es + [e]) == Some(j)
  {
    assert Front(es + [e]) == es;
  }

  lemma GreetedHeadReachable(c: HandoffId, id: HandoffId) returns (es: seq<Event>)
    ensures Reaches(es, START.(pc := LoopHead, session := Some(c)), Ledger(false, false), Account(false, false))
  {
    es := [];
    hide OnMessage, Resumed, AfterLeave;
    var i := START.(pc := Greeting, session := Some(c));
    es := Go(es, START, Accept(c), i);
    es := Go(es, i, Write(Hello(IncumbentSide, 0, PROTO_MIN, PROTO_MAX), true), i.(pc := AwaitingAck));
    assert Speaks(PROTO_MIN, PROTO_MAX, 1) && Speaks(1, 1, 1);
    assert GoodAck(HelloAck(1, id));
    es := Go(es, i.(pc := AwaitingAck), Read(HelloAck(1, id)), i.(pc := LoopHead));
  }

  /** From there into the drain hook. */
  lemma InDrainReachable(c: HandoffId, id: HandoffId) returns (es: seq<Event>)
    ensures Reaches(es, Inc(InDrain, true, SessionState(Some(id), false, false), true, Some(c)), Ledger(false, false),
                    Account(false, false))
  {
    hide Resumed, AfterLeave, Wrote;
    es := GreetedHeadReachable(c, id);
    var i := START.(pc := LoopHead, session := Some(c));
    es := Go(es, i, Read(PrepareHandoff(id, 0, 0, 0)), i.(pc := InDrain, st := SessionState(Some(id), false, false)));
  }

  /** And to the loop head with the drain done. */
  lemma DrainedHeadReachable(c: HandoffId, id: HandoffId) returns (es: seq<Event>)
    ensures Reaches(es, Inc(LoopHead, true, SessionState(Some(id), false, true), false, Some(c)), Ledger(true, false),
                    Account(true, false))
  {
    hide Resumed, AfterLeave, OnMessage;
    es := InDrainReachable(c, id);
    var i := Inc(InDrain, true, SessionState(Some(id), false, false), true, Some(c));
    var j := Inc(TellDrained, true, SessionState(Some(id), false, true), false, Some(c));
    es := Go(es, i, Drain(true), j);
    es := Go(es, j, Write(Drained, true), j.(pc := LoopHead));
  }

  /** Every sealed loop head is reachable, for any connection and handoff id. */
  lemma SealedHeadReachable(c: HandoffId, id: HandoffId) returns (es: seq<Event>)
    ensures After(es) == Some(Inc(LoopHead, false, SessionState(Some(id), true, true), false, Some(c)))
    ensures es != []
  {
    es := DrainedHeadReachable(c, id);
    es := SealOnce(es, Inc(LoopHead, true, SessionState(Some(id), false, true), false, Some(c)), id);
  }

  lemma SealOnce(fs: seq<Event>, i: Inc, id: HandoffId) returns (es: seq<Event>)
    requires After(fs) == Some(i) && i.pc == LoopHead && i.st == SessionState(Some(id), false, true)
    ensures After(es) == Some(i.(lock := false, st := SessionState(Some(id), true, true)))
  {
    Push(fs, i, Read(SealRequest(id)), i.(pc := InSeal));
    es := fs + [Read(SealRequest(id))];
    Push(es, i.(pc := InSeal), Seal(true), i.(pc := Releasing));
    es := es + [Seal(true)];
    var j := i.(lock := false, st := SessionState(Some(id), true, true));
    Push(es, i.(pc := Releasing), Release, j.(pc := TellSealed));
    es := es + [Release];
    Push(es, j.(pc := TellSealed), Write(SealComplete(id), true), j);
    es := es + [Write(SealComplete(id), true)];
  }

  /** The concrete failure behind `Safe`: a second `SealRequest` whose seal hook fails
      makes the incumbent resume its consumer without holding the flock. */
  lemma ResealResumesWithoutLock(c: HandoffId, id: HandoffId) returns (es: seq<Event>)
    ensures After(es).Some? && After(es).value.mayWrite && !After(es).value.lock && |es| > 4
    ensures es[|es| - 4..] == [Read(SealRequest(id)), Seal(false), Write(SealFailed(id), true), Resume(true)]
  {
    es := SealedHeadReachable(c, id);
    var i := Inc(LoopHead, false, SessionState(Some(id), true, true), false, Some(c));
    Push(es, i, Read(SealRequest(id)), i.(pc := InSeal));
    es := es + [Read(SealRequest(id))];
    Push(es, i.(pc := InSeal), Seal(false), i.(pc := TellSealFailed));
    es := es + [Seal(false)];
    Push(es, i.(pc := TellSealFailed), Write(SealFailed(id), true), i.(pc := ResumeAfterSealFailed));
    es := es + [Write(SealFailed(id), true)];
    Push(es, i.(pc := ResumeAfterSealFailed), Resume(true),
         i.(st := SessionState(None, true, false), mayWrite := true));
    es := es + [Resume(true)];
  }

  // ---------------------------------------------------------------- commit provenance

  /** From `a` on, the run neither changed session nor resumed the consumer. */
  predicate SameEpisode(es: seq<Event>, a: nat) {
    forall k :: a <= k < |es| ==> !es[k].Accept? && !es[k].Resume?
  }

  predicate PreparedAt(es: seq<Event>, id: HandoffId, a: nat) {
    && a < |es| && SameEpisode(es, a)
    && es[a].Read? && es[a].m.PrepareHandoff? && es[a].m.id == id
  }

  predicate DrainedAt(es: seq<Event>, id: HandoffId, a: nat, b: nat) {
    PreparedAt(es, id, a) && a < b < |es| && es[b] == Drain(true)
  }

  predicate SealedAt(es: seq<Event>, id: HandoffId, a: nat, b: nat, c: nat) {
    DrainedAt(es, id, a, b) && b < c < |es| && es[c] == Seal(true)
  }

  ghost predicate Prepared(es: seq<Event>, id: HandoffId) { exists a :: PreparedAt(es, id, a) }
  ghost predicate DrainDone(es: seq<Event>, id: HandoffId) { exists a, b :: DrainedAt(es, id, a, b) }
  ghost predicate SealDone(es: seq<Event>, id: HandoffId) { exists a, b, c :: SealedAt(es, id, a, b, c) }

  predicate InSession(pc: Pc) {
    pc in {LoopHead, Echoing, InDrain, TellDrained, InSeal, Releasing, TellSealed, TellSealFailed,
           ResumeAfterSealFailed, Reacquiring, ResumeDrained, Cleanup(CommitSeen)}
  }

  /** The flags of the session state are backed by events of the run. */
  ghost predicate Backed(es: seq<Event>, i: Inc) {
    InSession(i.pc) && i.st.active.Some? ==>
      && Prepared(es, i.st.active.value)
      && (i.st.drained ==> DrainDone(es, i.st.active.value))
      && (i.st.sealed || i.pc == Releasing ==> SealDone(es, i.st.active.value))
  }

  lemma ExtendEpisode(es: seq<Event>, e: Event, id: HandoffId)
    requires !e.Accept? && !e.Resume?
    ensures Prepared(es, id) ==> Prepared(es + [e], id)
    ensures DrainDone(es, id) ==> DrainDone(es + [e], id)
    ensures SealDone(es, id) ==> SealDone(es + [e], id)
    ensures e.Read? && e.m.PrepareHandoff? && e.m.id == id ==> Prepared(es + [e], id)
    ensures e == Drain(true) && Prepared(es, id) ==> DrainDone(es + [e], id)
    ensures e == Seal(true) && DrainDone(es, id) ==> SealDone(es + [e], id)
  {
    var fs := es + [e];
    if e.Read? && e.m.PrepareHandoff? && e.m.id == id { assert PreparedAt(fs, id, |es|); }
    if a :| PreparedAt(es, id, a) {
      assert PreparedAt(fs, id, a);
      if e == Drain(true) { assert DrainedAt(fs, id, a, |es|); }
    }
    if a, b :| DrainedAt(es, id, a, b) {
      assert DrainedAt(fs, id, a, b);
      if e == Seal(true) { assert SealedAt(fs, id, a, b, |es|); }
    }
    if a, b, c :| SealedAt(es, id, a, b, c) { assert SealedAt(fs, id, a, b, c); }
  }

  lemma BackedStep(es: seq<Event>, i: Inc, e: Event, j: Inc)
    requires Inv(i) && Step(i, e) == Some(j) && Backed(es, i)
    ensures Backed(es + [e], j)
  {
    if InSession(j.pc) && j.st.active.Some? && !e.Accept? && !e.Resume? {
      ExtendEpisode(es, e, j.st.active.value);
    }
  }

  lemma {:induction false} FlagsAreBacked(es: seq<Event>)
    requires After(es).Some? && AllSafe(es)
    ensures Backed(es, After(es).value)
  {
    if es != [] {
      assert es == Front(es) + [Last(es)];
      FlagsAreBacked(Front(es));
      RunGoodIffSafe(Front(es));
      BackedStep(Front(es), After(Front(es)).value, Last(es), After(es).value);
    }
  }

  /** `serve` sees a commit for `id` only if, earlier in the same session, the same id
      was prepared, the drain hook succeeded and then the seal hook succeeded, with no
      resume since. */
  lemma CommitImpliesDrainedAndSealed(es: seq<Event>, id: HandoffId)
    requires After(es).Some? && AllSafe(es)
    requires es != [] && Last(es) == Read(Commit(id)) && After(es).value.pc == Cleanup(CommitSeen)
    ensures SealDone(Front(es), id)
  {
    hide Step, Inv, SealDone, DrainDone, Prepared;
    FlagsAreBacked(Front(es));
    CommitGuard(After(Front(es)).value, id);
  }

  lemma CommitGuard(i: Inc, id: HandoffId)
    requires Step(i, Read(Commit(id))).Some? && Step(i, Read(Commit(id))).value.pc == Cleanup(CommitSeen)
    ensures i.pc == LoopHead && i.st.active == Some(id) && i.st.sealed
  {
  }

  // ---------------------------------------------------------------- recovery

  /** An independent account of drain episodes: `open` while a completed drain awaits
      its resume, `doubled` once a resume was called with no episode open. */
  datatype Ledger = Ledger(open: bool, doubled: bool)

  function Books(es: seq<Event>): Ledger {
    if es == [] then Ledger(false, false) else Entry(Books(Front(es)), Last(es))
  }

  /** No resume hook failed in one of the two arms after which `handle_session`
      calls it again. */
  predicate Gentle(es: seq<Event>) {
    es != [] ==>
    && Gentle(Front(es))
    && (After(Front(es)).Some? && Last(es) == Resume(false) ==>
          After(Front(es)).value.pc !in {ResumeAfterSealFailed, ResumeDrained})
  }

  /** A second resume call is still to come. */
  predicate AboutToDouble(i: Inc) {
    OwesResume(i) && i.mayWrite
  }

  function Entry(l: Ledger, e: Event): Ledger {
    match e
    case Drain(true) => l.(open := true)
    case Resume(_) => Ledger(false, l.doubled || !l.open)
    case _ => l
  }

  lemma EntryAgrees(l: Ledger, i: Inc, e: Event, j: Inc)
    requires Inv(i) && Step(i, e) == Some(j) && Safe(i, e) && (l.open <==> !i.mayWrite)
    ensures Entry(l, e).open <==> !j.mayWrite
    ensures Entry(l, e).doubled || AboutToDouble(j) <==>
            l.doubled || AboutToDouble(i) || (e == Resume(false) && i.pc in {ResumeAfterSealFailed, ResumeDrained})
  {
  }

  lemma {:induction false} BooksAgree(es: seq<Event>)
    requires After(es).Some? && AllSafe(es)
    ensures var i := After(es).value;
            && (Books(es).open <==> !i.mayWrite)
            && (Books(es).doubled || AboutToDouble(i) <==> !Gentle(es))
  {
    if es != [] {
      BooksAgree(Front(es));
      RunGoodIffSafe(Front(es));
      EntryAgrees(Books(Front(es)), After(Front(es)).value, Last(es), After(es).value);
    }
  }

  /** Over every sequence of sessions and every way a session ends: whenever `serve`
      is back in `accept` it holds the flock and no drain episode is left without its
      resume; and no episode was resumed twice, exactly when no resume hook failed in
      the seal-failed or drained-rollback arm. A committed exit leaves its episode
      open: the consumer is never resumed. */
  lemma ServeLoopRecovers(es: seq<Event>)
    requires After(es).Some? && AllSafe(es)
    ensures var i := After(es).value;
            && (i.pc == Accepting ==> i.lock && !Books(es).open && (Books(es).doubled <==> !Gentle(es)))
            && (i.pc == Exited(true) ==> Books(es).open)
  {
    BooksAgree(es);
    RunGoodIffSafe(es);
  }

  /** The run in which an episode is resumed twice: a rollback of a drained session whose
      resume hook fails, for any connection and id. */
  lemma DoubledReachable(c: HandoffId, id: HandoffId) returns (es: seq<Event>)
    ensures After(es).Some? && AllSafe(es) && After(es).value.pc == Accepting && Books(es).doubled
  {
    es := DrainedHeadReachable(c, id);
    var i := Inc(LoopHead, true, SessionState(Some(id), false, true), false, Some(c));
    hide Wrote, GoodAck, After, AllSafe, Books, Accounts;
    es := Go(es, i, Read(Abort(id)), i.(pc := ResumeDrained));
    var j := i.(pc := Cleanup(Failed), mayWrite := true);
    es := Go(es, i.(pc := ResumeDrained), Resume(false), j);
    es := Go(es, j, Resume(true), j.(pc := Leaving(Failed)));
    es := Go(es, j.(pc := Leaving(Failed)), Leave, j.(pc := Accepting, session := None));
  }

  // ---------------------------------------------------------------- every drain that ran

  /** A second account, of every call of the drain hook: `due` from the call to the next
      resume, `skipped` once the serve loop was back in accept with a resume due. */
  datatype Account = Account(due: bool, skipped: bool)

  function Charge(a: Account, e: Event, j: Inc): Account {
    var due := e.Drain? || (a.due && !e.Resume?);
    Account(due, a.skipped || (due && j.pc == Accepting))
  }

  function Accounts(es: seq<Event>): Account
    requires After(es).Some?
  {
    if es == [] then Account(false, false) else Charge(Accounts(Front(es)), Last(es), After(es).value)
  }

  /** No drain hook failed in a session that had not been drained before. */
  predicate NoFirstDrainFails(es: seq<Event>) {
    es != [] ==>
    && NoFirstDrainFails(Front(es))
    && (After(Front(es)).Some? && Last(es) == Drain(false) ==> After(Front(es)).value.st.drained)
  }

  /** A skipped resume is already certain: the session is ending and owes nothing. */
  predicate AboutToSkip(i: Inc) {
    i.pc == Cleanup(Failed) && i.lock && i.mayWrite && !OwesResume(i)
  }

  predicate Settled(a: Account, i: Inc, failed: bool) {
    if failed then a.skipped || (a.due && AboutToSkip(i)) else !a.skipped && (a.due <==> !i.mayWrite)
  }

  lemma ChargeAgrees(a: Account, i: Inc, e: Event, j: Inc, failed: bool)
    requires Inv(i) && Step(i, e) == Some(j) && Safe(i, e) && Settled(a, i, failed)
    ensures Settled(Charge(a, e, j), j, failed || (e == Drain(false) && !i.st.drained))
  {
  }

  lemma {:induction false} AccountsAgree(es: seq<Event>)
    requires After(es).Some? && AllSafe(es)
    ensures Settled(Accounts(es), After(es).value, !NoFirstDrainFails(es))
  {
    if es != [] {
      AccountsAgree(Front(es));
      RunGoodIffSafe(Front(es));
      hide Step, Inv, Settled, Safe, Charge;
      ChargeAgrees(Accounts(Front(es)), After(Front(es)).value, Last(es), After(es).value,
                   !NoFirstDrainFails(Front(es)));
    }
  }

  /** When every drain that ran is resumed, exactly: over every sequence of sessions, the
      serve loop is never back in accept with a resume due if and only if no drain hook
      failed in a session that had not been drained before. */
  lemma DrainsResumedIff(es: seq<Event>)
    requires After(es).Some? && AllSafe(es) && After(es).value.pc == Accepting
    ensures !Accounts(es).skipped <==> NoFirstDrainFails(es)
    ensures NoFirstDrainFails(es) ==> !Accounts(es).due
  {
    hide Step, Accounts, NoFirstDrainFails;
    AccountsAgree(es);
    RunGoodIffSafe(es);
  }

  /** The run in which a drain that failed is never resumed, for any connection and id. */
  lemma SkippedReachable(c: HandoffId, id: HandoffId) returns (es: seq<Event>)
    ensures After(es).Some? && AllSafe(es) && After(es).value.pc == Accepting && Accounts(es).skipped
  {
    hide Wrote, GoodAck, OnMessage;
    es := InDrainReachable(c, id);
    var i := Inc(InDrain, true, SessionState(Some(id), false, false), true, Some(c));
    es := Go(es, i, Drain(false), i.(pc := Cleanup(Failed)));
    es := Go(es, i.(pc := Cleanup(Failed)), Leave, i.(pc := Accepting, session := None));
  }

  // ---------------------------------------------------------------- building runs

  /** A safe run with its end and both accounts. */
  predicate Reaches(es: seq<Event>, i: Inc, books: Ledger, account: Account) {
    After(es) == Some(i) && AllSafe(es) && Books(es) == books && Accounts(es) == account
  }

  lemma Go(es: seq<Event>, i: Inc, e: Event, j: Inc) returns (fs: seq<Event>)
    requires After(es) == Some(i) && AllSafe(es) && Step(i, e) == Some(j) && Safe(i, e)
    ensures fs == es + [e] && Reaches(fs, j, Entry(Books(es), e), Charge(Accounts(es), e, j))
  {
    hide Step, Safe;
    fs := es + [e];
    assert Front(fs) == es;
  }
}
