/** The incumbent's serve loop as code. Every socket, flock and hook operation is an
    effect method that can only be called when the automaton of `IncumbentSession`
    allows it, so verifying the methods proves that every execution is one of its runs. */
module IncumbentCode {
  import opened Protocol
  import opened IncumbentSession

  datatype ReadResult = Frame(m: Message) | Eof | IoError | Pending

  datatype AcceptResult = Connected(conn: HandoffId) | Fatal | NoPeer

  /** Milliseconds. */
  const RESUME_FLOCK_TIMEOUT: nat := 2000
  const RETRY_INTERVAL: nat := 25

  datatype Attempt = Acquired | Held | OtherError

  class Incumbent {
    const pid: Pid
    var lock: bool
    var state: SessionState
    /** How many more frames or connections the environment delivers; a read after
        that blocks for good. */
    var inputs: nat
    var clock: nat
    ghost var model: Inc
    ghost var trace: seq<Event>
    /** What the acquire calls answered. */
    ghost var attempts: seq<Attempt>

    ghost predicate Valid()
      reads this
    {
      After(trace) == Some(model) && lock == model.lock
    }

    /** Inside `run_session_loop` the code's session state is the automaton's. */
    ghost predicate InLoop()
      reads this
    {
      Valid() && state == model.st
    }

    constructor (pid: Pid, inputs: nat)
      ensures Valid() && model == START && this.inputs == inputs
    {
      this.pid, this.inputs, clock := pid, inputs, 0;
      lock, state := true, FRESH;
      model, trace, attempts := START, [], [];
    }

    ghost method Did(e: Event)
      requires After(trace) == Some(model) && Step(model, e).Some?
      modifies this`model, this`trace
      ensures Some(model) == Step(old(model), e) && trace == old(trace) + [e] && After(trace) == Some(model)
    {
      Push(trace, model, e, Step(model, e).value);
      model, trace := Step(model, e).value, trace + [e];
    }

    // ---- effects

    method WriteFrame(m: Message) returns (ok: bool)
      requires After(trace) == Some(model) && Step(model, Write(m, true)).Some? && Step(model, Write(m, false)).Some?
      modifies this`model, this`trace
      ensures Some(model) == Step(old(model), Write(m, ok)) && trace == old(trace) + [Write(m, ok)] &&
              After(trace) == Some(model)
    {
      ok := *;
      Did(Write(m, ok));
    }

    method PollRead() returns (r: ReadResult)
      requires After(trace) == Some(model) && model.pc in {AwaitingAck, LoopHead}
      modifies this`model, this`trace, this`inputs
      ensures After(trace) == Some(model)
      ensures r.Pending? ==> model == old(model) && inputs == old(inputs) == 0
      ensures r.Frame? ==> Some(model) == Step(old(model), Read(r.m))
      ensures r.Eof? ==> Some(model) == Step(old(model), ReadEof)
      ensures r.IoError? ==> Some(model) == Step(old(model), ReadFail)
      ensures !r.Pending? ==> inputs < old(inputs)
    {
      if inputs == 0 { return Pending; }
      inputs := inputs - 1;
      r := *;
      match r {
        case Frame(m) => Did(Read(m));
        case Eof => Did(ReadEof);
        case IoError => Did(ReadFail);
        case Pending => r := IoError; Did(ReadFail);
      }
    }

    method CallDrain() returns (ok: bool)
      requires After(trace) == Some(model) && model.pc == InDrain
      modifies this`model, this`trace
      ensures Some(model) == Step(old(model), Drain(ok)) && After(trace) == Some(model)
    {
      ok := *;
      Did(Drain(ok));
    }

    method CallSeal() returns (ok: bool)
      requires After(trace) == Some(model) && model.pc == InSeal
      modifies this`model, this`trace
      ensures Some(model) == Step(old(model), Seal(ok)) && After(trace) == Some(model)
    {
      ok := *;
      Did(Seal(ok));
    }

    method CallResume() returns (ok: bool)
      requires After(trace) == Some(model) && Step(model, Resume(true)).Some? && Step(model, Resume(false)).Some?
      modifies this`model, this`trace
      ensures Some(model) == Step(old(model), Resume(ok)) && After(trace) == Some(model)
    {
      ok := *;
      Did(Resume(ok));
    }

    method AcquireLock() returns (r: Attempt)
      requires After(trace) == Some(model) && model.pc in {Reacquiring, Recovering}
      modifies this`model, this`trace, this`clock, this`attempts
      ensures Some(model) == Step(old(model), Acquire(r == Acquired)) && After(trace) == Some(model)
      ensures clock >= old(clock) && attempts == old(attempts) + [r]
    {
      hide After, OnMessage, Wrote, Resumed, AfterLeave;
      var spent: nat :| true;
      r := *;
      clock := clock + spent;
      attempts := attempts + [r];
      Did(Acquire(r == Acquired));
    }

    /** Sleeps at least that long. */
    method Sleep(ms: nat)
      modifies this`clock
      ensures clock >= old(clock) + ms
    {
      var more: nat :| true;
      clock := clock + ms + more;
    }

    method AcceptConnection() returns (r: AcceptResult)
      requires After(trace) == Some(model) && model.pc == Accepting
      modifies this`model, this`trace, this`inputs
      ensures After(trace) == Some(model)
      ensures r.NoPeer? ==> model == old(model) && inputs == old(inputs) == 0
      ensures r.Connected? ==> Some(model) == Step(old(model), Accept(r.conn))
      ensures r.Fatal? ==> Some(model) == Step(old(model), AcceptFatal)
      ensures !r.NoPeer? ==> inputs < old(inputs)
    {
      if inputs == 0 { return NoPeer; }
      inputs := inputs - 1;
      r := *;
      match r {
        case Connected(c) => Did(Accept(c));
        case Fatal => Did(AcceptFatal);
        case NoPeer => r := Fatal; Did(AcceptFatal);
      }
    }

    // ---- run_session_loop

    /** The PrepareHandoff arm; false means the loop returns an error. */
    method OnPrepare(id: HandoffId) returns (ok: bool)
      requires After(trace) == Some(model) && lock == model.lock
      requires state.active.Some? ==> state.active.value == id
      requires model.pc == InDrain && model.st == state.(active := Some(id))
      modifies this`model, this`trace, this`state
      ensures InLoop() && model.pc == if ok then LoopHead else Cleanup(Failed)
    {
      hide After;
      state := state.(active := Some(id));
      ok := CallDrain();
      if !ok { return; }
      state := state.(drained := true);
      ok := WriteFrame(Drained);
    }

    method OnSealRequest(id: HandoffId) returns (ok: bool)
      requires InLoop() && model.pc == InSeal && state.active == Some(id)
      modifies this`model, this`trace, this`state, this`lock
      ensures InLoop() && model.pc == if ok then LoopHead else Cleanup(Failed)
    {
      hide After, Step;
      SealArmSteps(model, id);
      ok := CallSeal();
      if ok {
        Did(Release);
        lock := false;
        state := state.(sealed := true);
        ok := WriteFrame(SealComplete(id));
      } else {
        ok := WriteFrame(SealFailed(id));
        if !ok { return; }
        ok := CallResume();
        if !ok { return; }
        state := state.(drained := false, active := None);
      }
    }

    /** The shared body of the ResumeAfterAbort and Abort arms. */
    method OnRollback(ghost i: Inc) returns (ok: bool)
      requires After(trace) == Some(model) && lock == model.lock == i.lock && state == i.st
      requires i.pc == LoopHead && model == Rollback(i)
      modifies this`model, this`trace, this`state, this`lock, this`clock, this`attempts
      ensures InLoop() && model.pc == if ok then LoopHead else Cleanup(Failed)
    {
      hide After;
      ok := true;
      if state.sealed {
        var attempt := AcquireLock();
        if attempt != Acquired { return false; }
        lock := true;
        ok := CallResume();
        if !ok { return; }
        state := state.(sealed := false, drained := false);
      } else if state.drained {
        ok := CallResume();
        if !ok { return; }
        state := state.(drained := false);
      }
      state := state.(active := None);
    }

    method RunSessionLoop() returns (out: Option<Outcome>)
      requires InLoop() && model.pc == LoopHead
      modifies this`model, this`trace, this`state, this`lock, this`inputs, this`clock, this`attempts
      ensures InLoop() && inputs <= old(inputs)
      ensures out.Some? ==> model.pc == Cleanup(out.value)
      ensures out.None? ==> model.pc == LoopHead && inputs == 0
    {
      hide After, Step;
      while true
        invariant InLoop() && model.pc == LoopHead && inputs <= old(inputs)
        decreases inputs
      {
        ghost var i := model;
        HeadSteps(i);
        var r := PollRead();
        match r {
          case Pending => return None;
          case Eof => return Some(if state.sealed then Failed else Closed);
          case IoError => return Some(Failed);
          case Frame(msg) =>
            var ok: bool;
            match msg {
              case PrepareHandoff(id, _, _, _) =>
                if state.active.Some? && state.active.value != id { return Some(Failed); }
                ok := OnPrepare(id);
              case SealRequest(id) =>
                if state.active != Some(id) { return Some(Failed); }
                ok := OnSealRequest(id);
              case Commit(id) =>
                if state.active != Some(id) || !state.sealed { return Some(Failed); }
                return Some(CommitSeen);
              case ResumeAfterAbort(id) =>
                if state.active != Some(id) { return Some(Failed); }
                ok := OnRollback(i);
              case Abort(id) =>
                if state.active != Some(id) { return Some(Failed); }
                ok := OnRollback(i);
              case Heartbeat => ok := WriteFrame(Heartbeat);
              case _ => return Some(Failed);
            }
            if !ok { return Some(Failed); }
        }
      }
    }

    // ---- handle_session and serve

    method HandleSession() returns (out: Option<Outcome>)
      requires Valid() && model.pc == Greeting && model.st == FRESH
      modifies this`model, this`trace, this`state, this`lock, this`inputs, this`clock, this`attempts
      ensures Valid() && inputs <= old(inputs)
      ensures out.Some? ==> model.pc == Leaving(out.value) || (model.pc == Cleanup(out.value) && !OwesResume(model))
      ensures out.None? ==> inputs == 0
    {
      hide After, Step, GoodAck;
      GreetSteps(model, pid);
      var ok := WriteFrame(Hello(IncumbentSide, pid, PROTO_MIN, PROTO_MAX));
      if !ok { return Some(Failed); }
      var r := PollRead();
      match r {
        case Pending => return None;
        case Eof => return Some(Failed);
        case IoError => return Some(Failed);
        case Frame(ack) =>
          if !GoodAck(ack) { return Some(Failed); }
      }
      state := FRESH;
      out := RunSessionLoop();
      if out.Some? && state.drained && !state.sealed && out.value != CommitSeen {
        CleanupSteps(model);
        var _ := CallResume();
      }
    }

    /** The accept loop; `None` when the environment stops delivering input. */
    method ServeLoop() returns (r: Option<bool>)
      requires Valid() && model.pc == Accepting
      modifies this`model, this`trace, this`state, this`lock, this`inputs, this`clock, this`attempts
      ensures After(trace) == Some(model)
      ensures if r.Some? then model.pc == Exited(r.value) && !lock else inputs == 0
    {
      hide After, Step;
      while true
        invariant Valid() && model.pc == Accepting
        decreases inputs
      {
        AcceptSteps(model);
        var c := AcceptConnection();
        match c {
          case NoPeer => return None;
          case Fatal => lock := false; return Some(false);   // `self` is dropped
          case Connected(_) =>
        }
        var out := HandleSession();
        if out.None? { return None; }
        LeaveSteps(model, out.value);
        Did(Leave);
        if out.value == CommitSeen { lock := false; return Some(true); }
        if out.value == Failed && !lock {
          var attempt, _ := AcquireWithShortRetry();
          if attempt != Acquired { return Some(false); }
          RecoverSteps(model);
          var _ := CallResume();
        }
      }
    }

    /** Whatever the peers send, as long as no unsafe transition occurred: on every
        return the consumer is not writing and the flock is not held, and `Ok` leaves
        the last drain episode unresumed for the successor. */
    method Serve() returns (r: Option<bool>)
      requires Valid() && model == START
      modifies this`model, this`trace, this`state, this`lock, this`inputs, this`clock, this`attempts
      ensures After(trace) == Some(model)
      ensures if r.Some? then model.pc == Exited(r.value) && !lock else inputs == 0
      ensures r.Some? && AllSafe(trace) ==> !model.mayWrite && (r.value ==> Books(trace).open)
    {
      r := ServeLoop();
      if AllSafe(trace) {
        RunGoodIffSafe(trace);
        ServeLoopRecovers(trace);
      }
    }

    /** The bounded retry of the recovery path: it tries again exactly while the lock is held
        and two seconds have not passed, so at most 81 times, and reports the last answer. */
    method AcquireWithShortRetry() returns (r: Attempt, ghost tries: nat)
      requires Valid() && model.pc == Recovering
      modifies this`model, this`trace, this`lock, this`clock, this`attempts
      ensures Valid()
      ensures model == old(model).(pc := if r == Acquired then ResumeRecovered else Exited(false),
                                   lock := if r == Acquired then true else old(model).lock)
      ensures r == Held ==> clock >= old(clock) + 2000
      ensures tries <= 80 && attempts == old(attempts) + seq(tries, _ => Held) + [r]
    {
      hide After;
      var deadline := clock + RESUME_FLOCK_TIMEOUT;
      tries := 0;
      while true
        invariant Valid() && model == old(model) && attempts == old(attempts) + seq(tries, _ => Held)
        invariant 0 <= tries <= 80 && clock >= old(clock) + RETRY_INTERVAL * tries
        decreases 81 - tries
      {
        r := AcquireLock();
        if r == Acquired { lock := true; return; }
        if r != Held || clock >= deadline { Did(GiveUp); return; }
        Sleep(RETRY_INTERVAL);
        tries := tries + 1;
      }
    }
  }
}
