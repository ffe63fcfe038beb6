/** `perform_handoff` as code. Effect methods may only be called when the automaton of
    `HandoffSupervisor` allows the event, so verifying the method proves that each of
    its executions, early returns and drops included, is one of the automaton's runs. */
module SupervisorCode {
  import opened Protocol
  import opened HandoffSupervisor
  import HandoffScript
  import T = Timeouts

  datatype Received = Frame(m: Message) | TimedOut | Broken

  /** The event by which the automaton sees the end of a receive on O's stream. */
  function SeenO(r: Received): Event {
    match r
    case Frame(m) => RecvO(m)
    case TimedOut => TimeoutO
    case Broken => ErrorO
  }

  function SeenN(r: Received): Event {
    if r.Frame? then RecvN(r.m) else FailN
  }

  /** A wait reports what its last receive answered, unless its deadline passed first; every
      receive before that brought a sign of life. */
  ghost predicate Heard(before: seq<Received>, r: Received, late: bool, after: seq<Received>) {
    && before <= after && (late ==> r == TimedOut) && (!late ==> |before| < |after| && Last(after) == r)
    && forall k | |before| <= k < (if late then |after| else |after| - 1) :: after[k].Frame? && Progress(after[k].m)
  }

  /** What a wait adds to the trace: progress frames only, then the event that ended it. */
  ghost predicate Waited(before: seq<Event>, end: Event, after: seq<Event>) {
    after != [] && Last(after) == end && Beats(before, Front(after))
  }

  ghost predicate Beats(before: seq<Event>, after: seq<Event>) {
    && before <= after
    && forall k | |before| <= k < |after| :: (after[k].RecvO? || after[k].RecvN?) && Progress(after[k].m)
  }

  lemma WaitStarts(trace: seq<Event>, heard: seq<Received>)
    ensures Beats(trace, trace) && Heard(heard, TimedOut, true, heard)
  {
  }

  lemma WaitGoesOn(before: seq<Event>, trace: seq<Event>, e: Event, earlier: seq<Received>, heard: seq<Received>,
                   r: Received)
    requires Beats(before, trace) && Heard(earlier, TimedOut, true, heard)
    ensures Waited(before, e, trace + [e]) && Heard(earlier, r, false, heard + [r])
    ensures r.Frame? && Progress(r.m) ==> Heard(earlier, TimedOut, true, heard + [r])
    ensures (e.RecvO? || e.RecvN?) && Progress(e.m) ==> Beats(before, trace + [e])
  {
    assert Front(trace + [e]) == trace;
  }

  class Supervisor {
    const id: HandoffId
    /** The configured budgets in nanoseconds, and S's clock, counted from the start of the
        handoff, when it builds PrepareHandoff. */
    const deadline: nat
    const drainGrace: nat
    const preparedAt: nat
    /** Droppable locals: the two control streams and the child guard's inner child. */
    var oStream: bool
    var nStream: bool
    var childGuard: bool
    /** Receive attempts left before a wall-clock deadline expires. */
    var patience: nat
    ghost var model: Sup
    ghost var trace: seq<Event>
    /** What the receive calls answered. */
    ghost var heard: seq<Received>

    ghost predicate Valid()
      reads this
    {
      && After(id, trace) == Some(model)
      && oStream == model.oOpen && nStream == model.nOpen && (childGuard <==> model.child == Armed)
      && OnBudget(trace)
    }

    /** Every PrepareHandoff written is the frame for these budgets. */
    ghost predicate OnBudget(es: seq<Event>) {
      forall e :: e in es && e.SendO? && e.m.PrepareHandoff? ==>
        e.m == T.Prepare(id, e.m.successorPid, deadline, drainGrace, preparedAt)
    }

    constructor (id: HandoffId, patience: nat, deadline: nat, drainGrace: nat, preparedAt: nat)
      ensures Valid() && model == START && trace == [] && this.id == id
      ensures this.deadline == deadline && this.drainGrace == drainGrace && this.preparedAt == preparedAt
    {
      this.id, this.patience := id, patience;
      this.deadline, this.drainGrace, this.preparedAt := deadline, drainGrace, preparedAt;
      oStream, nStream, childGuard := false, false, false;
      model, trace, heard := START, [], [];
    }

    ghost method Did(e: Event)
      requires After(id, trace) == Some(model) && Step(model, id, e).Some? && OnBudget(trace)
      requires e.SendO? && e.m.PrepareHandoff? ==>
                 e.m == T.Prepare(id, e.m.successorPid, deadline, drainGrace, preparedAt)
      modifies this`model, this`trace
      ensures Some(model) == Step(old(model), id, e) && trace == old(trace) + [e] && After(id, trace) == Some(model)
      ensures OnBudget(trace)
    {
      Push(id, trace, model, e, Step(model, id, e).value);
      model, trace := Step(model, id, e).value, trace + [e];
    }

    // ---- effects

    method ToO(m: Message) returns (ok: bool)
      requires Valid()
      requires OnSendO(model.pc, model.n, id, m, true).Some? && OnSendO(model.pc, model.n, id, m, false).Some?
      requires m.PrepareHandoff? ==> m == T.Prepare(id, m.successorPid, deadline, drainGrace, preparedAt)
      modifies this`model, this`trace
      ensures Valid() && Some(model.pc) == OnSendO(old(model.pc), model.n, id, m, ok) && model.n == old(model.n)
      ensures trace == old(trace) + [SendO(m, ok)]
    {
      hide After, Step, OnRecvO, OnRecvN, OnSendO, OnSendN, OnJournal, OnKill;
      ok := *;
      SendOStep(model, id, m, ok);
      Did(SendO(m, ok));
    }

    method ToN(m: Message) returns (ok: bool)
      requires Valid() && OnSendN(model.pc, id, m, true).Some? && OnSendN(model.pc, id, m, false).Some?
      modifies this`model, this`trace
      ensures Valid() && Some(model.pc) == OnSendN(old(model.pc), id, m, ok) && model.n == old(model.n)
    {
      hide After, OnRecvO, OnRecvN, OnSendO, OnSendN, OnJournal, OnKill;
      ok := *;
      Did(SendN(m, ok));
    }

    method ConnectToO() returns (ok: bool)
      requires Valid() && model.pc == Connecting
      modifies this`model, this`trace, this`oStream
      ensures Valid() && model.pc == if ok then HelloO else Returning(FailedErr)
    {
      hide After, Step, OnRecvO, OnRecvN, OnSendO, OnSendN, OnJournal, OnKill;
      ok := *;
      ConnectStep(model, id, ok);
      Did(ConnectO(ok));
      oStream := ok;
    }

    method SpawnSuccessor() returns (pid: Option<Pid>)
      requires Valid() && model.pc == Spawning
      modifies this`model, this`trace, this`childGuard, this`nStream
      ensures Valid() && model.pc == if pid.Some? then HelloN else Returning(FailedErr)
      ensures pid.Some? ==> model.n == pid
    {
      hide After, Step, OnRecvO, OnRecvN, OnSendO, OnSendN, OnJournal, OnKill;
      var p: nat, ok: bool := *, *;
      SpawnStep(model, id, p, ok);
      Did(Spawn(p, ok));
      pid := if ok then Some(p) else None;
      if pid.Some? { childGuard, nStream := true, true; }
    }

    /** One receive on O's stream. */
    method PollO() returns (r: Received)
      requires Valid() && (model.pc == HelloO || model.pc == AwaitDrained || model.pc == AwaitSeal)
      modifies this`model, this`trace, this`heard
      ensures heard == old(heard) + [r]
      ensures Valid() && trace == old(trace) + [SeenO(r)]
      ensures r.Frame? ==> Some(model.pc) == OnRecvO(old(model.pc), id, r.m)
      ensures r.TimedOut? ==> model.pc == if old(model.pc) == AwaitSeal then AbortN(SealTimeout)
              else Returning(FailedErr)
      ensures r.Broken? ==> model.pc == Returning(FailedErr)
    {
      hide After, Chosen, Step;
      PollSteps(model, id);
      QuitSteps(model, id);
      r := *;
      heard := heard + [r];
      match r {
        case TimedOut => Did(TimeoutO);
        case Broken => Did(ErrorO);
        case Frame(m) => Did(RecvO(m));
      }
    }

    /** `read_until` and the seal wait: progress frames are skipped, the deadline bounds
        the wait. */
    method FromO() returns (r: Received, ghost late: bool)
      requires Valid() && (model.pc == AwaitDrained || model.pc == AwaitSeal)
      modifies this`model, this`trace, this`patience, this`heard
      ensures Heard(old(heard), r, late, heard) && (late ==> patience == 0)
      ensures Valid() && Waited(old(trace), SeenO(r), trace)
      ensures r.Frame? ==> Some(model.pc) == OnRecvO(old(model.pc), id, r.m) && !Progress(r.m)
      ensures r.TimedOut? ==> model.pc == if old(model.pc) == AwaitSeal then AbortN(SealTimeout)
              else Returning(FailedErr)
      ensures r.Broken? ==> model.pc == Returning(FailedErr)
    {
      hide After, Chosen, Step, OnBudget, Beats, Waited, Heard;
      WaitStarts(trace, heard);
      while true
        invariant Valid() && model.pc == old(model.pc)
        invariant Heard(old(heard), TimedOut, true, heard) && Beats(old(trace), trace)
        decreases patience
      {
        ghost var before, earlier := trace, heard;
        if patience == 0 {
          QuitSteps(model, id);
          WaitGoesOn(old(trace), trace, TimeoutO, old(heard), heard, TimedOut);
          Did(TimeoutO);
          return TimedOut, true;
        }
        patience := patience - 1;
        r := PollO();
        late := false;
        WaitGoesOn(old(trace), before, SeenO(r), old(heard), earlier, r);
        if !r.Frame? || !Progress(r.m) { return; }
      }
    }

    method PollN() returns (r: Received)
      requires Valid() && (model.pc == HelloN || model.pc == AwaitReady)
      modifies this`model, this`trace, this`heard
      ensures heard == old(heard) + [r]
      ensures Valid() && model.n == old(model.n) && trace == old(trace) + [SeenN(r)]
      ensures r.Frame? ==> Some(model.pc) == OnRecvN(old(model.pc), old(model.n), id, r.m)
      ensures !r.Frame? ==> model.pc == if old(model.pc) == AwaitReady then AbortN(NotReady) else Returning(FailedErr)
    {
      hide After, Chosen, Step;
      PollSteps(model, id);
      QuitSteps(model, id);
      r := *;
      heard := heard + [r];
      match r {
        case Frame(m) => Did(RecvN(m));
        case _ => Did(FailN);
      }
    }

    method FromN() returns (r: Received, ghost late: bool)
      requires Valid() && model.pc == AwaitReady
      modifies this`model, this`trace, this`patience, this`heard
      ensures Heard(old(heard), r, late, heard) && (late ==> patience == 0)
      ensures Valid() && Waited(old(trace), SeenN(r), trace)
      ensures r.Frame? ==> Some(model.pc) == OnRecvN(old(model.pc), old(model.n), id, r.m) && !Progress(r.m)
      ensures !r.Frame? ==> model.pc == if old(model.pc) == AwaitReady then AbortN(NotReady) else Returning(FailedErr)
    {
      hide After, Chosen, Step, OnBudget, Beats, Waited, Heard;
      WaitStarts(trace, heard);
      while true
        invariant Valid() && model.pc == old(model.pc) && model.n == old(model.n)
        invariant Heard(old(heard), TimedOut, true, heard) && Beats(old(trace), trace)
        decreases patience
      {
        ghost var before, earlier := trace, heard;
        if patience == 0 {
          QuitSteps(model, id);
          WaitGoesOn(old(trace), trace, FailN, old(heard), heard, TimedOut);
          Did(FailN);
          return TimedOut, true;
        }
        patience := patience - 1;
        r := PollN();
        late := false;
        WaitGoesOn(old(trace), before, SeenN(r), old(heard), earlier, r);
        if !r.Frame? || !Progress(r.m) { return; }
      }
    }

    method JournalPhase(p: Phase) returns (ok: bool)
      requires Valid() && OnJournal(model.pc, p, true).Some? && OnJournal(model.pc, p, false).Some?
      modifies this`model, this`trace
      ensures Valid() && Some(model.pc) == OnJournal(old(model.pc), p, ok) && model.n == old(model.n)
    {
      hide After, OnRecvO, OnRecvN, OnSendO, OnSendN, OnJournal, OnKill;
      ok := *;
      Did(JournalSet(p, ok));
    }

    method ClearJournal()
      requires Valid() && model.pc.Clearing?
      modifies this`model, this`trace
      ensures Valid() && model.pc == Returning(old(model.pc.res))
    {
      hide After, OnRecvO, OnRecvN, OnSendO, OnSendN, OnJournal, OnKill;
      var ok: bool := *;
      Did(JournalClear(ok));
    }

    method KillAndReap()
      requires Valid() && OnKill(model).Some?
      modifies this`model, this`trace, this`childGuard
      ensures Valid() && Some(model.pc) == OnKill(old(model)) && !childGuard && trace == old(trace) + [KillReap]
      ensures model.nOpen == old(model.nOpen) && model.oOpen == old(model.oOpen)
    {
      hide After, OnRecvO, OnRecvN, OnSendO, OnSendN, OnJournal, OnKill;
      Did(KillReap);
      childGuard := false;
    }

    // ---- perform_handoff, phase by phase; a false result means an early `?` return

    /** Steps 1 to 4: connect, greet O, spawn N, greet N. */
    method Negotiate() returns (ok: bool, pid: Pid)
      requires Valid() && model.pc == Connecting
      modifies this
      ensures Valid() && model.pc == if ok then JournalNegotiating else Returning(FailedErr)
      ensures ok ==> model.n == Some(pid)
    {
      hide OnBudget, After, Step, NextPc, Effect, NegotiateVersion, Inv;
      pid := 0;
      ok := ConnectToO();
      if !ok { return; }
      var r := PollO();
      if !r.Frame? || !r.m.Hello? || r.m.role != IncumbentSide { return false, pid; }
      var chosen := NegotiateVersion(PROTO_MIN, PROTO_MAX, r.m.protoMin, r.m.protoMax);
      if chosen.None? { return false, pid; }
      ok := ToO(HelloAck(chosen.value, id));
      if !ok { return; }
      ok, pid := SpawnAndGreet();
    }

    method SpawnAndGreet() returns (ok: bool, pid: Pid)
      requires Valid() && model.pc == Spawning
      modifies this
      ensures Valid() && model.pc == if ok then JournalNegotiating else Returning(FailedErr)
      ensures ok ==> model.n == Some(pid)
    {
      hide OnBudget, After, Step, NextPc, Effect, NegotiateVersion, Inv;
      pid := 0;
      var child := SpawnSuccessor();
      if child.None? { return false, pid; }
      pid := child.value;
      var r := PollN();
      if !r.Frame? || !r.m.Hello? || r.m.role != SuccessorSide || r.m.pid != pid { return false, pid; }
      var chosen := NegotiateVersion(PROTO_MIN, PROTO_MAX, r.m.protoMin, r.m.protoMax);
      if chosen.None? { return false, pid; }
      ok := ToN(HelloAck(chosen.value, id));
    }

    /** Step 5: journal, `PrepareHandoff` with N's pid and the two budgets, wait for
        `Drained`, journal, `SealRequest`. */
    method Prepare(successorPid: Pid) returns (ok: bool)
      requires Valid() && model.pc == JournalNegotiating && model.n == Some(successorPid)
      modifies this
      ensures Valid() && model.pc == if ok then AwaitSeal else Returning(FailedErr)
    {
      hide Heard, Waited, SeenO, After, Step, NextPc, Effect, Chosen, Inv, OnRecvN, OnSendN, OnKill;
      ok := JournalPhase(Negotiating);
      if !ok { return; }
      var deadlineMs := T.RemainingUntil(deadline, preparedAt) / 1_000_000;
      var drainGraceMs := drainGrace / 1_000_000;
      ok := ToO(PrepareHandoff(id, successorPid, deadlineMs, drainGraceMs));
      if !ok { return; }
      var r, _ := FromO();
      if !r.Frame? || !r.m.Drained? { return false; }
      ok := RequestSeal();
    }

    method RequestSeal() returns (ok: bool)
      requires Valid() && model.pc == JournalDraining
      modifies this
      ensures Valid() && model.pc == if ok then AwaitSeal else Returning(FailedErr)
    {
      hide OnBudget, After, Step, NextPc, Effect, Chosen, Inv, OnRecvO, OnRecvN, OnSendN, OnKill;
      ok := JournalPhase(Draining);
      if !ok { return; }
      ok := ToO(SealRequest(id));
    }

    /** Step 6: the seal wait. `None` means the seal completed. */
    method AwaitSealOutcome() returns (abort: Option<Result>)
      requires Valid() && model.pc == AwaitSeal
      modifies this
      ensures Valid() && model.pc == if abort.None? then JournalSealing else Returning(abort.value)
    {
      hide Heard, Waited, SeenO, After, Step, NextPc, Effect, Chosen, Inv, OnRecvN, OnSendO, OnJournal;
      var r, _ := FromO();
      match r {
        case Broken => return Some(FailedErr);
        case TimedOut =>
          var _ := ToN(Abort(id));
          KillAndReap();
          ClearJournal();
          return Some(FailedErr);
        case Frame(m) =>
          if m == SealComplete(id) { return None; }
          if m != SealFailed(id) { return Some(FailedErr); }
          var _ := ToN(Abort(id));
          KillAndReap();
          ClearJournal();
          return Some(AbortedOk);
      }
    }

    /** Step 7: `Begin`, wait for `Ready`, then commit or abort and resume O. */
    method Decide() returns (res: Result)
      requires Valid() && model.pc == JournalSealing
      modifies this
      ensures Valid() && model.pc == Returning(res)
    {
      hide OnBudget, After, Step, NextPc, Effect, Chosen, Inv, OnRecvO, OnRecvN, OnSendO, OnSendN, OnKill;
      var ok := JournalPhase(Sealing);
      if !ok { return FailedErr; }
      var ready := BeginN();
      match ready {
        case None => res := FailedErr;
        case Some(true) => res := CommitO();
        case Some(false) => res := AbortAndResume();
      }
    }

    /** `Begin` and the ready wait; `None` means the journal write failed. */
    method BeginN() returns (ready: Option<bool>)
      requires Valid() && model.pc == SendBegin
      modifies this
      ensures Valid()
      ensures model.pc == if ready.None? then Returning(FailedErr)
                          else if ready.value then Disarming else AbortN(NotReady)
    {
      hide Heard, Waited, SeenN, After, Step, NextPc, Effect, Chosen, Inv, OnRecvO, OnSendO, OnKill;
      var ok := ToN(Begin(id));
      if !ok { return Some(false); }
      ok := JournalPhase(AwaitingReady);
      if !ok { return None; }
      var r, _ := FromN();
      return Some(r.Frame? && r.m == Ready(id));
    }

    method CommitO() returns (res: Result)
      requires Valid() && model.pc == Disarming
      modifies this
      ensures Valid() && model.pc == Returning(res) && res == CommittedOk
    {
      hide After, Chosen, Inv;
      Did(Disarm);
      childGuard := false;
      var _ := ToO(Commit(id));
      var _ := JournalPhase(Committed);
      ClearJournal();
      return CommittedOk;
    }

    method AbortAndResume() returns (res: Result)
      requires Valid() && model.pc == AbortN(NotReady)
      modifies this
      ensures Valid() && model.pc == Returning(res) && res != CommittedOk
    {
      hide OnBudget, After, Step, NextPc, Effect, Chosen, Inv, OnRecvO, OnRecvN;
      var _ := ToN(Abort(id));
      KillAndReap();
      res := ResumeO();
    }

    method ResumeO() returns (res: Result)
      requires Valid() && model.pc == SendResume
      modifies this
      ensures Valid() && model.pc == Returning(res) && res != CommittedOk
    {
      hide OnBudget, After, Step, NextPc, Effect, Chosen, Inv, OnRecvO, OnRecvN, OnSendN, OnKill;
      var ok := ToO(ResumeAfterAbort(id));
      if !ok { return FailedErr; }
      ok := JournalPhase(ResumingAfterAbort);
      if !ok { return FailedErr; }
      ClearJournal();
      return AbortedOk;
    }

    method Body() returns (res: Result)
      requires Valid() && model.pc == Connecting
      modifies this
      ensures Valid() && model.pc == Returning(res)
    {
      hide *;
      var ok, pid := Negotiate();
      if !ok { return FailedErr; }
      ok := Prepare(pid);
      if !ok { return FailedErr; }
      var abort := AwaitSealOutcome();
      if abort.Some? { return abort.value; }
      res := Decide();
    }

    method DropNStream()
      requires Valid() && model.pc.Returning?
      modifies this`model, this`trace, this`nStream
      ensures Valid() && model == old(model).(nOpen := false)
      ensures trace == old(trace) + if old(model.nOpen) then [CloseN] else []
    {
      hide After, Step, OnBudget;
      ReturnSteps(model, id);
      if nStream { Did(CloseN); nStream := false; }
    }

    method DropChildGuard()
      requires Valid() && model.pc.Returning? && !model.nOpen
      modifies this`model, this`trace, this`childGuard
      ensures Valid() && model.pc == old(model.pc) && !model.nOpen && model.child != Armed
      ensures model.oOpen == old(model.oOpen)
      ensures trace == old(trace) + if old(model.child) == Armed then [KillReap] else []
    {
      hide After, Step, OnBudget;
      if childGuard { KillAndReap(); }
    }

    method DropOStream()
      requires Valid() && model.pc.Returning? && !model.nOpen && model.child != Armed
      modifies this`model, this`trace, this`oStream
      ensures Valid() && model == old(model).(oOpen := false)
      ensures trace == old(trace) + if old(model.oOpen) then [CloseO] else []
    {
      hide After, Step, OnBudget;
      ReturnSteps(model, id);
      if oStream { Did(CloseO); oStream := false; }
    }

    /** The locals dropped in reverse order of declaration, each if it is still there. */
    method DropLocals()
      requires Valid() && model.pc.Returning?
      modifies this
      ensures After(id, trace) == Some(model) && model.pc == Done(old(model.pc.res)) && OnBudget(trace)
      ensures trace == old(trace) + (if old(model.nOpen) then [CloseN] else [])
                                  + (if old(model.child) == Armed then [KillReap] else [])
                                  + (if old(model.oOpen) then [CloseO] else []) + [Finish]
    {
      hide After, Step, OnBudget;
      DropNStream();
      DropChildGuard();
      DropOStream();
      ReturnSteps(model, id);
      Did(Finish);
    }

    /** On every return: committed exactly when a matching `Ready` was accepted, and then
        the child was never killed; otherwise a spawned child was killed and reaped once. The
        effects are those of the script, left at `k` and unwound from `d` on; every
        acknowledgement answers its Hello with the greatest common version, and the
        PrepareHandoff written carries the spawned child and both budgets. */
    method PerformHandoff() returns (res: Result, ghost k: nat, ghost d: nat)
      requires Valid() && model == START && trace == []
      modifies this
      ensures After(id, trace) == Some(model) && model.pc == Done(res)
      ensures res == CommittedOk <==> ReadyAccepted(id, trace)
      ensures res == CommittedOk ==> Kills(trace) == 0 && model.child == Disarmed
      ensures res != CommittedOk && model.n.Some? ==> Kills(trace) == 1 && model.child == Reaped
      ensures res != FailedErr && JournalClear(false) !in trace ==> !model.dirty
      ensures HandoffScript.Ends(res, HandoffScript.Gist(trace), k, d, id) && HandoffScript.Right(id, trace)
      ensures forall e :: e in trace && e.SendO? && e.m.PrepareHandoff? ==>
                e.m == T.Prepare(id, e.m.successorPid, deadline, drainGrace, preparedAt)
    {
      hide After, Step, Inv, HandoffScript.Ends, HandoffScript.Right;
      res := Body();
      DropLocals();
      ChildOwnership(id, trace);
      HandoffScript.FramesAreRight(id, trace);
      k, d := HandoffScript.HandoffFollowsScript(id, trace);
    }
  }
}
