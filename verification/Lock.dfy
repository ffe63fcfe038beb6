/** `DataDirLock`: the flock and its pidfile, over any number of concurrent `acquire`,
    `acquire_or_break_stale` and drop calls in any number of processes, with crashes. */
module DataDirLock {
  import opened Protocol

  /** One call of acquire or acquire_or_break_stale and, if it succeeds, the guard it
      returns. */
  type Agent = nat

  /** `Plain` is acquire; the other two are the attempts of acquire_or_break_stale. */
  datatype Mode = Plain | FirstTry | Retry

  datatype Outcome = LockHeld(holder: Pid) | BreakRefused | IoError | Dropped

  datatype Acquired = Ok | Err(outcome: Outcome)

  datatype Pc =
    | Start(mode: Mode)            // about to flock(LOCK_EX | LOCK_NB)
    | Blocked(mode: Mode)          // EWOULDBLOCK, about to read the pidfile
    | Checking(holder: Pid)        // about to kill(holder, 0)
    | Locked                       // flock held, about to write the temporary file
    | TmpWritten                   // about to rename it over the pidfile
    | Renamed                      // about to fsync the directory
    | Undo                         // writing the pidfile failed; about to drop the flock
    | Guard                        // acquire returned Ok
    | Removed                      // drop removed the pidfile, flock still held
    | Done(outcome: Outcome)
    | Dead

  datatype Event =
    | TryLock(ok: bool) | LockError
    | ReadPid(seen: Option<Pid>)
    | Alive(yes: bool)
    | WriteTmp(ok: bool, garbage: Pid)
    | Rename(ok: bool, cleaned: bool)
    | SyncDir(ok: bool)
    | RemovePid(ok: bool)
    | Release

  function OnBlocked(mode: Mode, seen: Option<Pid>): Pc {
    var holder := if seen.Some? then seen.value else 0;
    match mode
    case Plain => Done(LockHeld(holder))
    case FirstTry => if holder == 0 then Start(Retry) else Checking(holder)
    case Retry => Done(BreakRefused)
  }

  function Next(pc: Pc, e: Event): Option<Pc> {
    match e
    case TryLock(ok) => if pc.Start? then Some(if ok then Locked else Blocked(pc.mode)) else None
    case LockError => if pc.Start? then Some(Done(IoError)) else None
    case ReadPid(seen) => if pc.Blocked? then Some(OnBlocked(pc.mode, seen)) else None
    case Alive(yes) => if pc.Checking? then Some(if yes then Done(BreakRefused) else Start(Retry)) else None
    case WriteTmp(ok, _) => if pc == Locked then Some(if ok then TmpWritten else Undo) else None
    case Rename(ok, _) => if pc == TmpWritten then Some(if ok then Renamed else Undo) else None
    case SyncDir(ok) => if pc == Renamed then Some(if ok then Guard else Undo) else None
    case RemovePid(_) => if pc == Guard then Some(Removed) else None
    case Release => if pc == Undo then Some(Done(IoError)) else if pc == Removed then Some(Done(Dropped)) else None
  }

  // ---------------------------------------------------------------- one call, from its events

  /** Where a call that began in mode `mode` is after `es`. */
  function After(mode: Mode, es: seq<Event>): Option<Pc> {
    if es == [] then Some(Start(mode))
    else
      var pc := After(mode, Front(es));
      if pc.None? then None else Next(pc.value, Last(es))
  }

  /** The pid `LockHeld` carries: what the pidfile said, or 0. */
  function Holder(e: Event): Pid {
    if e.ReadPid? && e.seen.Some? then e.seen.value else 0
  }

  /** The attempt was refused and the pidfile read. */
  predicate Refused(es: seq<Event>) {
    |es| == 2 && es[0] == TryLock(false) && es[1].ReadPid?
  }

  /** The flock was taken and the pidfile replaced durably. */
  predicate Took(es: seq<Event>) {
    |es| == 4 && es[0] == TryLock(true) && Wrote(es[1], true) && Moved(es[2], true) && es[3] == SyncDir(true)
  }

  /** The attempt failed otherwise; whatever was taken was released again. */
  predicate Failed(es: seq<Event>) {
    || es == [LockError]
    || (|es| == 3 && es[0] == TryLock(true) && Wrote(es[1], false) && es[2] == Release)
    || (|es| == 4 && es[0] == TryLock(true) && Wrote(es[1], true) && Moved(es[2], false) && es[3] == Release)
    || (|es| == 5 && es[0] == TryLock(true) && Wrote(es[1], true) && Moved(es[2], true) && es[3] == SyncDir(false)
        && es[4] == Release)
  }

  predicate Wrote(e: Event, ok: bool) { e.WriteTmp? && e.ok == ok }

  predicate Moved(e: Event, ok: bool) { e.Rename? && e.ok == ok }

  /** The first attempt was refused by a holder that is not named or not alive. */
  predicate Stale(es: seq<Event>) {
    |es| >= 2 && Refused(es[..2]) && (Holder(es[1]) == 0 || (|es| >= 3 && es[2] == Alive(false)))
  }

  /** Where the second attempt begins. */
  function Second(es: seq<Event>): nat
    requires Stale(es)
  {
    if Holder(es[1]) == 0 then 2 else 3
  }

  /** The whole of `acquire_or_break_stale`, by its result. */
  predicate Told(r: Acquired, es: seq<Event>) {
    match r
    case Ok => Took(es) || (Stale(es) && Took(es[Second(es)..]))
    case Err(IoError) => Failed(es) || (Stale(es) && Failed(es[Second(es)..]))
    case Err(BreakRefused) =>
      || (|es| == 3 && Refused(es[..2]) && Holder(es[1]) != 0 && es[2] == Alive(true))
      || (Stale(es) && Refused(es[Second(es)..]))
    case _ => false
  }

  /** A call at `pc` of its first or its second attempt, in terms of the attempt's events. */
  predicate Within(pc: Pc, mode: Mode, es: seq<Event>) {
    match pc
    case Start(m) => m == mode && es == []
    case Blocked(m) => m == mode && es == [TryLock(false)]
    case Locked => es == [TryLock(true)]
    case TmpWritten => |es| == 2 && es[0] == TryLock(true) && Wrote(es[1], true)
    case Renamed => |es| == 3 && es[0] == TryLock(true) && Wrote(es[1], true) && Moved(es[2], true)
    case Undo => Failed(es + [Release])
    case Guard => Took(es)
    case Removed => |es| == 5 && Took(es[..4]) && es[4].RemovePid?
    case Done(Dropped) => |es| == 6 && Took(es[..4]) && es[4].RemovePid? && es[5] == Release
    case Done(IoError) => Failed(es)
    case _ => false
  }

  predicate Shaped(pc: Pc, es: seq<Event>) {
    || Within(pc, FirstTry, es)
    || (Stale(es) && Within(pc, Retry, es[Second(es)..]))
    || (pc.Checking? && Refused(es) && Holder(es[1]) == pc.holder != 0)
    || (pc == Done(BreakRefused) && Told(Err(BreakRefused), es))
  }

  lemma WithinStep(pc: Pc, mode: Mode, es: seq<Event>, e: Event, pc': Pc)
    requires Within(pc, mode, es) && Next(pc, e) == Some(pc') && !pc.Blocked?
    ensures Within(pc', mode, es + [e])
  {
    assert pc == Guard || pc == Removed ==> (es + [e])[..4] == es[..4];
  }

  lemma ShapedStep(pc: Pc, es: seq<Event>, e: Event, pc': Pc)
    requires Shaped(pc, es) && Next(pc, e) == Some(pc')
    ensures Shaped(pc', es + [e])
  {
    var es' := es + [e];
    if Within(pc, FirstTry, es) {
      if pc.Blocked? {
        assert es' == [TryLock(false), e] && es'[..2] == es';
        assert Stale(es') ==> es'[Second(es')..] == [];
      } else {
        WithinStep(pc, FirstTry, es, e, pc');
      }
    } else if Stale(es) && Within(pc, Retry, es[Second(es)..]) {
      assert es'[..2] == es[..2] && Second(es') == Second(es) && es'[Second(es)..] == es[Second(es)..] + [e];
      if !pc.Blocked? { WithinStep(pc, Retry, es[Second(es)..], e, pc'); }
    } else {
      assert es'[..2] == es;
      assert Stale(es') ==> es'[Second(es')..] == [];
    }
  }

  lemma {:induction false} CallIsShaped(es: seq<Event>)
    requires After(FirstTry, es).Some?
    ensures Shaped(After(FirstTry, es).value, es)
  {
    hide Next;
    if es != [] {
      CallIsShaped(Front(es));
      ShapedStep(After(FirstTry, Front(es)).value, Front(es), Last(es), After(FirstTry, es).value);
      assert es == Front(es) + [Last(es)];
    }
  }

  /** A second attempt is made if and only if the first was refused by a holder that is not
      named or not alive. */
  lemma RetriesIffStale(es: seq<Event>)
    requires After(FirstTry, es).Some?
    requires After(FirstTry, es).value.Done? || After(FirstTry, es).value.Guard?
    ensures (exists k :: 0 < k < |es| && (es[k].TryLock? || es[k].LockError?)) <==> Stale(es)
  {
    hide After;
    CallIsShaped(es);
    if Stale(es) {
      var k := Second(es);
      assert es[k] == es[k..][0];
    }
  }

  /** The call ends with a guard, an I/O error or a refusal if and only if its events say so.
      In particular it refuses if and only if the named holder is alive or the second attempt
      was refused as well. */
  lemma BreakStaleIff(es: seq<Event>)
    requires After(FirstTry, es).Some?
    ensures var pc := After(FirstTry, es).value;
            && (pc == Guard <==> Told(Ok, es))
            && (pc == Done(IoError) <==> Told(Err(IoError), es))
            && (pc == Done(BreakRefused) <==> Told(Err(BreakRefused), es))
  {
    hide After;
    CallIsShaped(es);
  }

  /** Plain `acquire` reports the lock held exactly when its one attempt was refused, with
      the pid it read. */
  lemma {:induction false} AcquireIff(es: seq<Event>)
    requires After(Plain, es).Some?
    ensures var pc := After(Plain, es).value;
            if Refused(es) then pc == Done(LockHeld(Holder(es[1]))) else Within(pc, Plain, es)
  {
    hide Next;
    if es != [] {
      AcquireIff(Front(es));
      assert es == Front(es) + [Last(es)];
      hide Within;
      PlainStep(After(Plain, Front(es)).value, Front(es), Last(es), After(Plain, es).value);
    }
  }

  lemma PlainStep(pc: Pc, es: seq<Event>, e: Event, pc': Pc)
    requires if Refused(es) then pc == Done(LockHeld(Holder(es[1]))) else Within(pc, Plain, es)
    requires Next(pc, e) == Some(pc')
    ensures if Refused(es + [e]) then pc' == Done(LockHeld(Holder(e))) else Within(pc', Plain, es + [e])
  {
    if !pc.Blocked? { WithinStep(pc, Plain, es, e, pc'); }
  }

  // ---------------------------------------------------------------- the code

  /** One caller. Its effects are checked against `Next`; what the kernel answers is free. */
  class Caller {
    ghost const first: Mode
    ghost var pc: Pc
    ghost var trace: seq<Event>

    ghost predicate Valid()
      reads this
    {
      After(first, trace) == Some(pc)
    }

    constructor (mode: Mode)
      ensures Valid() && first == mode && pc == Start(mode) && trace == []
    {
      first, pc, trace := mode, Start(mode), [];
    }

    ghost method Did(e: Event)
      requires Valid() && Next(pc, e).Some?
      modifies this
      ensures Valid() && Some(pc) == Next(old(pc), e) && trace == old(trace) + [e]
    {
      assert Front(trace + [e]) == trace;
      pc, trace := Next(pc, e).value, trace + [e];
    }

    /** `write_pid_atomic`. */
    method WritePidAtomic() returns (ok: bool, ghost more: seq<Event>)
      requires Valid() && pc == Locked
      modifies this
      ensures Valid() && pc == (if ok then Guard else Undo) && trace == old(trace) + more
      ensures if ok then Took([TryLock(true)] + more) else Failed([TryLock(true)] + more + [Release])
    {
      ok := *;
      more := [WriteTmp(ok, 0)];
      Did(WriteTmp(ok, 0));
      if !ok { return; }
      var cleaned: bool;
      ok, cleaned := *, *;
      more := more + [Rename(ok, cleaned)];
      Did(Rename(ok, cleaned));
      if !ok { return; }
      ok := *;
      more := more + [SyncDir(ok)];
      Did(SyncDir(ok));
    }

    /** `acquire`, as an attempt in mode `mode`. */
    method Acquire(mode: Mode) returns (r: Acquired, ghost more: seq<Event>)
      requires Valid() && pc == Start(mode)
      modifies this
      ensures Valid() && trace == old(trace) + more
      ensures match r
              case Ok => pc == Guard && Took(more)
              case Err(IoError) => pc == Done(IoError) && Failed(more)
              case Err(LockHeld(holder)) =>
                Refused(more) && holder == Holder(more[1]) && pc == OnBlocked(mode, more[1].seen)
              case _ => false
    {
      var locked, error: bool := *, *;
      if error {
        Did(LockError);
        return Err(IoError), [LockError];
      }
      Did(TryLock(locked));
      if !locked {
        var seen: Option<Pid> := None;
        var readable: bool, content: nat := *, *;
        if readable { seen := Some(content); }
        Did(ReadPid(seen));
        return Err(LockHeld(if seen.Some? then seen.value else 0)), [TryLock(false), ReadPid(seen)];
      }
      var ok, rest := WritePidAtomic();
      more := [TryLock(true)] + rest;
      if !ok {
        Did(Release);
        return Err(IoError), more + [Release];
      }
      return Ok, more;
    }

    /** `acquire_or_break_stale`. */
    method AcquireOrBreakStale() returns (r: Acquired)
      requires Valid() && first == FirstTry && pc == Start(FirstTry) && trace == []
      modifies this
      ensures Valid() && pc == (if r.Ok? then Guard else Done(r.outcome))
      ensures Told(r, trace)
    {
      hide After, Took, Failed;
      ghost var more;
      r, more := Acquire(FirstTry);
      assert trace == more;
      if r.Ok? || !r.outcome.LockHeld? { return; }
      assert more[..2] == more;
      if r.outcome.holder != 0 {
        var alive: bool := *;
        Did(Alive(alive));
        assert trace[..2] == more;
        if alive { return Err(BreakRefused); }
      }
      ghost var earlier := trace;
      r, more := Acquire(Retry);
      assert trace[..2] == earlier[..2] && Second(trace) == |earlier| && trace[|earlier|..] == more;
      if r.Err? && r.outcome.LockHeld? { r := Err(BreakRefused); }
    }

    /** Dropping the guard. */
    method Drop()
      requires Valid() && pc == Guard
      modifies this
      ensures Valid() && pc == Done(Dropped)
      ensures exists ok :: trace == old(trace) + [RemovePid(ok), Release]
    {
      var ok: bool := *;
      Did(RemovePid(ok));
      Did(Release);
      assert trace == old(trace) + [RemovePid(ok), Release];
    }
  }

  // ---------------------------------------------------------------- all callers together

  /** `holder` is the kernel's flock owner; `tmp` the per-pid temporary files. */
  datatype World = World(holder: Option<Agent>, pidfile: Option<Pid>, tmp: map<Pid, Pid>, pids: map<Agent, Pid>,
                         pcs: map<Agent, Pc>)

  datatype Action = Enter(a: Agent, pid: Pid, mode: Mode) | Do(a: Agent, e: Event) | Crash(pid: Pid)

  function Take(w: World, a: Agent, e: Event): Option<World> {
    if a !in w.pcs || a !in w.pids || Next(w.pcs[a], e).None? then None
    else
      var pid := w.pids[a];
      var w' := w.(pcs := w.pcs[a := Next(w.pcs[a], e).value]);
      match e
      case TryLock(ok) => if ok != w.holder.None? then None else Some(if ok then w'.(holder := Some(a)) else w')
      case ReadPid(seen) => if seen.Some? && seen != w.pidfile then None else Some(w')
      case WriteTmp(ok, garbage) => Some(w'.(tmp := w.tmp[pid := if ok then pid else garbage]))
      case Rename(ok, cleaned) =>
        if !ok then Some(if cleaned then w'.(tmp := w.tmp - {pid}) else w')
        else if pid !in w.tmp then None
        else Some(w'.(pidfile := Some(w.tmp[pid]), tmp := w.tmp - {pid}))
      case RemovePid(ok) => Some(if ok then w'.(pidfile := None) else w')
      case Release => Some(w'.(holder := if w.holder == Some(a) then None else w.holder))
      case _ => Some(w')
  }

  /** A process dies: its calls end, the kernel drops its flock, the pidfile stays. */
  function Crashed(w: World, pid: Pid): World {
    w.(pcs := map a | a in w.pcs :: if a in w.pids && w.pids[a] == pid then Dead else w.pcs[a],
       holder := if w.holder.Some? && w.holder.value in w.pids && w.pids[w.holder.value] == pid then None else w.holder)
  }

  function Apply(w: World, act: Action): Option<World> {
    match act
    case Enter(a, pid, mode) =>
      if a in w.pcs || mode == Retry then None else Some(w.(pcs := w.pcs[a := Start(mode)], pids := w.pids[a := pid]))
    case Do(a, e) => Take(w, a, e)
    case Crash(pid) => Some(Crashed(w, pid))
  }

  /** A directory that may hold a stale pidfile and stale temporary files. */
  function Fresh(pidfile: Option<Pid>, tmp: map<Pid, Pid>): World {
    World(None, pidfile, tmp, map[], map[])
  }

  function Exec(pidfile: Option<Pid>, tmp: map<Pid, Pid>, acts: seq<Action>): Option<World> {
    if acts == [] then Some(Fresh(pidfile, tmp))
    else
      var w := Exec(pidfile, tmp, acts[..|acts| - 1]);
      if w.None? then None else Apply(w.value, acts[|acts| - 1])
  }

  predicate HoldsFlock(pc: Pc) {
    pc == Locked || pc == TmpWritten || pc == Renamed || pc == Undo || pc == Guard || pc == Removed
  }

  predicate AgentOk(w: World, a: Agent, pid: Pid, pc: Pc) {
    && (HoldsFlock(pc) <==> w.holder == Some(a))
    && (pc == TmpWritten ==> pid in w.tmp && w.tmp[pid] == pid)
    && (pc == Renamed || pc == Guard ==> w.pidfile == Some(pid))
  }

  ghost predicate Inv(w: World) {
    && w.pcs.Keys == w.pids.Keys && (w.holder.Some? ==> w.holder.value in w.pcs)
    && forall a :: a in w.pcs ==> AgentOk(w, a, w.pids[a], w.pcs[a])
  }

  /** What a step of `a` does to its own entry. */
  lemma TakeKeepsSelf(w: World, a: Agent, e: Event)
    requires Inv(w) && Take(w, a, e).Some?
    ensures var w' := Take(w, a, e).value; a in w'.pids && a in w'.pcs && AgentOk(w', a, w'.pids[a], w'.pcs[a])
  {
    assert AgentOk(w, a, w.pids[a], w.pcs[a]);
  }

  /** A step of `a` leaves every other caller's view intact: only the holder touches what
      the holder relies on. */
  lemma TakeKeepsOther(w: World, a: Agent, e: Event, b: Agent)
    requires Inv(w) && Take(w, a, e).Some? && b in w.pcs && b != a
    ensures var w' := Take(w, a, e).value; b in w'.pids && b in w'.pcs && AgentOk(w', b, w'.pids[b], w'.pcs[b])
  {
    assert AgentOk(w, a, w.pids[a], w.pcs[a]);
    assert AgentOk(w, b, w.pids[b], w.pcs[b]);
  }

  lemma TakeKeepsInv(w: World, a: Agent, e: Event)
    requires Inv(w) && Take(w, a, e).Some?
    ensures Inv(Take(w, a, e).value)
  {
    var w' := Take(w, a, e).value;
    assert w'.pcs.Keys == w.pcs.Keys && w'.pids == w.pids && (w'.holder.Some? ==> w'.holder.value in w'.pcs);
    hide Take, AgentOk;
    TakeKeepsSelf(w, a, e);
    forall b | b in w'.pcs && b != a ensures AgentOk(w', b, w'.pids[b], w'.pcs[b]) { TakeKeepsOther(w, a, e, b); }
  }

  lemma CrashKeepsInv(w: World, pid: Pid)
    requires Inv(w)
    ensures Inv(Crashed(w, pid))
  {
    var w' := Crashed(w, pid);
    forall a | a in w'.pcs ensures AgentOk(w', a, w'.pids[a], w'.pcs[a]) { assert AgentOk(w, a, w.pids[a], w.pcs[a]); }
  }

  lemma ApplyKeepsInv(w: World, act: Action)
    requires Inv(w) && Apply(w, act).Some?
    ensures Inv(Apply(w, act).value)
  {
    hide Take, Crashed;
    match act
    case Enter(a, pid, mode) =>
      var w' := Apply(w, act).value;
      forall b | b in w'.pcs ensures AgentOk(w', b, w'.pids[b], w'.pcs[b]) {
        if b != a { assert AgentOk(w, b, w.pids[b], w.pcs[b]); }
      }
    case Do(a, e) => TakeKeepsInv(w, a, e);
    case Crash(pid) => CrashKeepsInv(w, pid);
  }

  lemma {:induction false} ExecKeepsInv(pidfile: Option<Pid>, tmp: map<Pid, Pid>, acts: seq<Action>)
    requires Exec(pidfile, tmp, acts).Some?
    ensures Inv(Exec(pidfile, tmp, acts).value)
  {
    hide Apply;
    if acts != [] {
      ExecKeepsInv(pidfile, tmp, acts[..|acts| - 1]);
      ApplyKeepsInv(Exec(pidfile, tmp, acts[..|acts| - 1]).value, acts[|acts| - 1]);
    }
  }

  /** From the return of acquire to the start of drop the pidfile names the holder, and
      there is at most one such guard, however stale the directory was and whichever of
      acquire and acquire_or_break_stale produced it. */
  lemma GuardIsUniqueAndNamed(pidfile: Option<Pid>, tmp: map<Pid, Pid>, acts: seq<Action>, a: Agent)
    requires Exec(pidfile, tmp, acts).Some?
    requires var w := Exec(pidfile, tmp, acts).value; a in w.pcs && w.pcs[a] == Guard
    ensures var w := Exec(pidfile, tmp, acts).value;
            && w.holder == Some(a) && a in w.pids && w.pidfile == Some(w.pids[a])
            && forall b :: b in w.pcs && HoldsFlock(w.pcs[b]) ==> b == a
  {
    hide Exec;
    ExecKeepsInv(pidfile, tmp, acts);
    var w := Exec(pidfile, tmp, acts).value;
    assert AgentOk(w, a, w.pids[a], w.pcs[a]);
    forall b | b in w.pcs && HoldsFlock(w.pcs[b]) ensures b == a { assert AgentOk(w, b, w.pids[b], w.pcs[b]); }
  }

  /** Only the current flock holder ever replaces or removes the pidfile, and it still
      holds the flock when it has done so. */
  lemma OnlyHolderTouchesPidfile(pidfile: Option<Pid>, tmp: map<Pid, Pid>, acts: seq<Action>, act: Action)
    requires Exec(pidfile, tmp, acts).Some? && Apply(Exec(pidfile, tmp, acts).value, act).Some?
    requires Apply(Exec(pidfile, tmp, acts).value, act).value.pidfile != Exec(pidfile, tmp, acts).value.pidfile
    ensures act.Do? && Exec(pidfile, tmp, acts).value.holder == Some(act.a)
    ensures Apply(Exec(pidfile, tmp, acts).value, act).value.holder == Some(act.a)
  {
    hide Exec;
    ExecKeepsInv(pidfile, tmp, acts);
    var w := Exec(pidfile, tmp, acts).value;
    assert act.Do? && AgentOk(w, act.a, w.pids[act.a], w.pcs[act.a]);
  }

  /** Stale or not, an attempt takes the flock exactly when nobody holds it; the pidfile
      only decides whether a refused attempt is made again. */
  lemma FlockDecides(pidfile: Option<Pid>, tmp: map<Pid, Pid>, acts: seq<Action>, a: Agent)
    requires Exec(pidfile, tmp, acts).Some?
    requires var w := Exec(pidfile, tmp, acts).value; a in w.pcs && w.pcs[a].Start?
    ensures var w := Exec(pidfile, tmp, acts).value;
            && (Take(w, a, TryLock(true)).Some? <==> forall b :: b in w.pcs ==> !HoldsFlock(w.pcs[b]))
            && (Take(w, a, TryLock(true)).Some? <==> Take(w, a, TryLock(false)).None?)
  {
    hide Exec;
    ExecKeepsInv(pidfile, tmp, acts);
    var w := Exec(pidfile, tmp, acts).value;
    forall b | b in w.pcs ensures HoldsFlock(w.pcs[b]) <==> w.holder == Some(b) {
      assert AgentOk(w, b, w.pids[b], w.pcs[b]);
    }
  }

  lemma ExecSnoc(pidfile: Option<Pid>, tmp: map<Pid, Pid>, acts: seq<Action>, act: Action)
    requires Exec(pidfile, tmp, acts).Some?
    ensures Exec(pidfile, tmp, acts + [act]) == Apply(Exec(pidfile, tmp, acts).value, act)
  {
    assert (acts + [act])[..|acts|] == acts;
  }

  /** Whatever is left in the directory, an attempt made while nobody holds the flock ends
      with the guard once its pidfile writes succeed: the first one as well as the second. */
  lemma FreeLockIsReclaimed(pidfile: Option<Pid>, tmp: map<Pid, Pid>, acts: seq<Action>, a: Agent, cleaned: bool)
    requires Exec(pidfile, tmp, acts).Some?
    requires var w := Exec(pidfile, tmp, acts).value;
             a in w.pcs && w.pcs[a].Start? && forall b :: b in w.pcs ==> !HoldsFlock(w.pcs[b])
    ensures var more := [TryLock(true), WriteTmp(true, 0), Rename(true, cleaned), SyncDir(true)];
            var w := Exec(pidfile, tmp, acts + [Do(a, more[0]), Do(a, more[1]), Do(a, more[2]), Do(a, more[3])]);
            && w.Some? && a in w.value.pcs && w.value.pcs[a] == Guard && w.value.holder == Some(a)
            && a in w.value.pids && w.value.pidfile == Some(w.value.pids[a])
  {
    var w := Exec(pidfile, tmp, acts).value;
    FlockDecides(pidfile, tmp, acts, a);
    ExecKeepsInv(pidfile, tmp, acts);
    assert AgentOk(w, a, w.pids[a], w.pcs[a]);
    FourSteps(w, a, cleaned);
    hide Apply;
    var e1, e2 := Do(a, TryLock(true)), Do(a, WriteTmp(true, 0));
    var e3, e4 := Do(a, Rename(true, cleaned)), Do(a, SyncDir(true));
    ExecSnoc(pidfile, tmp, acts, e1);
    ExecSnoc(pidfile, tmp, acts + [e1], e2);
    ExecSnoc(pidfile, tmp, acts + [e1] + [e2], e3);
    ExecSnoc(pidfile, tmp, acts + [e1] + [e2] + [e3], e4);
    assert acts + [e1] + [e2] + [e3] + [e4] == acts + [e1, e2, e3, e4];
  }

  lemma FourSteps(w: World, a: Agent, cleaned: bool)
    requires a in w.pcs && a in w.pids && w.pcs[a].Start? && w.holder == None
    ensures var w1 := Apply(w, Do(a, TryLock(true)));
            w1.Some? && var w2 := Apply(w1.value, Do(a, WriteTmp(true, 0)));
            w2.Some? && var w3 := Apply(w2.value, Do(a, Rename(true, cleaned)));
            w3.Some? && var w4 := Apply(w3.value, Do(a, SyncDir(true)));
            && w4.Some? && a in w4.value.pcs && w4.value.pcs[a] == Guard && w4.value.holder == Some(a)
            && w4.value.pids == w.pids && w4.value.pidfile == Some(w.pids[a])
  {
  }

  /** The events of one caller inside a run of all of them, and how it began. */
  function EventsOf(a: Agent, acts: seq<Action>): seq<Event> {
    if acts == [] then []
    else
      var es := EventsOf(a, Front(acts));
      if Last(acts).Do? && Last(acts).a == a then es + [Last(acts).e] else es
  }

  function ModeOf(a: Agent, acts: seq<Action>): Mode {
    if acts == [] then Plain
    else if Last(acts).Enter? && Last(acts).a == a then Last(acts).mode else ModeOf(a, Front(acts))
  }

  lemma ApplyMoves(w: World, act: Action, a: Agent)
    requires Apply(w, act).Some?
    ensures var w' := Apply(w, act).value;
            if act.Do? && act.a == a then a in w.pcs && w.pcs[a] != Dead && Next(w.pcs[a], act.e).Some?
                                          && a in w'.pcs && w'.pcs[a] == Next(w.pcs[a], act.e).value
            else if act.Enter? && act.a == a then a !in w.pcs && a in w'.pcs && w'.pcs[a] == Start(act.mode)
            else (a in w'.pcs <==> a in w.pcs) && (a in w.pcs ==> w'.pcs[a] == w.pcs[a] || w'.pcs[a] == Dead)
  {
  }

  /** Inside every interleaving, a call that was not killed has gone where its own events
      lead, so what is said about one call holds of all of them. */
  lemma {:induction false} CallProjects(pidfile: Option<Pid>, tmp: map<Pid, Pid>, acts: seq<Action>, a: Agent)
    requires Exec(pidfile, tmp, acts).Some?
    ensures var w := Exec(pidfile, tmp, acts).value;
            if a !in w.pcs then EventsOf(a, acts) == []
            else w.pcs[a] == Dead || After(ModeOf(a, acts), EventsOf(a, acts)) == Some(w.pcs[a])
  {
    hide Next, Apply;
    if acts != [] {
      CallProjects(pidfile, tmp, Front(acts), a);
      ApplyMoves(Exec(pidfile, tmp, Front(acts)).value, Last(acts), a);
      var es := EventsOf(a, Front(acts));
      if Last(acts).Do? && Last(acts).a == a { assert Front(es + [Last(acts).e]) == es; }
    }
  }
}
