/** What the composed system guarantees about the handoff itself, over every run: any number
    of processes and handoffs, with crashes of any process and any supervisor between any
    two steps, and whether or not lock guards were kept. */
module SystemTheorems {
  import opened Protocol
  import opened System
  import opened SystemProofs
  import S = HandoffSupervisor
  import I = IncumbentSession
  import B = SuccessorBoot

  // ---------------------------------------------------------------- kill before re-acquire

  /** S neither crashed nor accepted `Ready`, and no read on O's side failed by itself. */
  predicate Undisturbed(r: Run) {
    !r.s.pc.Crashed? && !r.s.ready && !r.fault
  }

  /** Nobody outside this handoff holds the flock. */
  predicate OnlyContenders(g: World, r: Run) {
    g.lock.Some? ==> g.lock == r.o || g.lock == r.s.n
  }

  /** S returned or is returning: the successor is no longer armed. */
  lemma ClosedMeansNotArmed(s: S.Sup, h: HandoffId)
    requires S.Inv(s, h) && !s.oOpen && !s.pc.Crashed?
    ensures s.child != S.Armed
  {
  }

  /** A successor that S reaped, or that was never told to begin, does not hold the flock. */
  lemma IdleSuccessorHasNoLock(g: World, h: HandoffId)
    requires Inv(g) && h in g.runs && g.runs[h].s.n.Some?
    requires g.runs[h].s.child == S.Reaped || !g.runs[h].s.began
    ensures g.lock != g.runs[h].s.n
    ensures g.runs[h].s.child == S.Reaped ==> g.runs[h].s.n.value in g.procs && g.procs[g.runs[h].s.n.value].stage.Dead?
  {
    hide S.Inv, I.Inv, Session;
    var r := g.runs[h];
    assert RunOk(h, r) && LinkN(g, h, r);
    assert ProcOk(g, r.s.n.value, g.procs[r.s.n.value]);
  }

  /** O is about to re-acquire: in the session after ResumeAfterAbort, or in the serve
      loop's recovery. */
  predicate AboutToReacquire(g: World, p: Pid) {
    && p in g.procs && g.procs[p].stage.Serving?
    && (g.procs[p].stage.i.pc == I.Reacquiring || g.procs[p].stage.i.pc == I.Recovering)
  }

  lemma ReacquireWhy(g: World, p: Pid, h: HandoffId)
    requires Inv(g) && AboutToReacquire(g, p) && g.procs[p].stage.i.session == Some(h)
    ensures h in g.runs && g.runs[h].o == Some(p) && g.runs[h].got <= |g.runs[h].s.sentO| && g.lock != Some(p)
    ensures Excused(g.runs[h])
    ensures g.procs[p].stage.i.pc == I.Reacquiring ==>
              !g.runs[h].fault && g.runs[h].got == 4 && g.runs[h].s.sentO[3].ResumeAfterAbort?
  {
    hide RunOk;
    EnterSession(g, p);
    GotAccepted(h, g.runs[h]);
  }

  /** Kill before re-acquire, over every run: when a sealed O goes for the flock again, the
      successor does not hold it (S has reaped it, or never told it to begin); so with no
      third contender the very first attempt succeeds. After ResumeAfterAbort this needs
      nothing of S; in the serve loop's recovery S must be undisturbed. */
  lemma KillBeforeReacquire(disk: seq<Entry>, acts: seq<Action>, p: Pid, h: HandoffId)
    requires Exec(disk, acts).Some?
    requires var g := Exec(disk, acts).value;
             && AboutToReacquire(g, p) && g.procs[p].stage.i.session == Some(h) && h in g.runs
             && (g.procs[p].stage.i.pc == I.Recovering ==> Undisturbed(g.runs[h]))
    ensures var g := Exec(disk, acts).value;
            && (g.runs[h].s.n.Some? ==> g.lock != g.runs[h].s.n)
            && (OnlyContenders(g, g.runs[h]) ==> g.lock == None && IncAct(g, p, I.Acquire(true)).Some?)
  {
    hide Apply, Inv, RunOk, Excused, Exec;
    var g := Exec(disk, acts).value;
    ExecKeepsInv(disk, acts);
    ReacquireWhy(g, p, h);
    if g.runs[h].s.n.Some? {
      ExcusedIsHarmless(g, h);
      IdleSuccessorHasNoLock(g, h);
    }
  }

  /** If O's session is over without a commit, S reaped the successor or never began it. */
  lemma ExcusedIsHarmless(g: World, h: HandoffId)
    requires Inv(g) && h in g.runs && g.runs[h].s.n.Some? && g.runs[h].got <= |g.runs[h].s.sentO| && Excused(g.runs[h])
    requires Undisturbed(g.runs[h]) || (g.runs[h].got == 4 && g.runs[h].s.sentO[3].ResumeAfterAbort?)
    ensures g.runs[h].s.child == S.Reaped || !g.runs[h].s.began
  {
    hide S.Local, LinkO, LinkN, ProcOk;
    var r := g.runs[h];
    assert RunOk(h, r);
    if !r.s.oOpen && !r.s.pc.Crashed? { ClosedMeansNotArmed(r.s, h); }
  }

  /** Before O can read `ResumeAfterAbort`, and before an undisturbed S closes O's
      connection, the successor is dead (or was never spawned). */
  lemma SuccessorDeadBeforeOLearns(disk: seq<Entry>, acts: seq<Action>, h: HandoffId)
    requires Exec(disk, acts).Some? && h in Exec(disk, acts).value.runs
    requires var r := Exec(disk, acts).value.runs[h];
             ResumeAfterAbort(h) in r.s.sentO || (!r.s.oOpen && !r.s.pc.Crashed? && !r.s.ready)
    ensures var g := Exec(disk, acts).value;
            g.runs[h].s.n.Some? ==> g.runs[h].s.n.value in g.procs && g.procs[g.runs[h].s.n.value].stage.Dead?
  {
    hide Apply, S.Local, LinkO, LinkN, ProcOk, Exec;
    var g := Exec(disk, acts).value;
    ExecKeepsInv(disk, acts);
    var r := g.runs[h];
    assert RunOk(h, r);
    if r.s.n.Some? {
      if !r.s.oOpen && !r.s.pc.Crashed? { ClosedMeansNotArmed(r.s, h); }
      assert r.s.child == S.Reaped;
      IdleSuccessorHasNoLock(g, h);
    }
  }

  // ---------------------------------------------------------------- begin exclusivity

  /** S has seen SealComplete and has not yet said anything more to O nor closed. */
  predicate HandoverWindow(r: Run) {
    r.s.sawSealed && r.s.oOpen && |r.s.sentO| == 3 && !r.fault
  }

  /** Throughout the handover window O has sealed, does not hold the flock and cannot take
      it; so with no third contender the flock is free or the successor's, and a successor
      at its acquire gets it. */
  lemma BeginExclusive(disk: seq<Entry>, acts: seq<Action>, h: HandoffId)
    requires Exec(disk, acts).Some? && h in Exec(disk, acts).value.runs
    requires HandoverWindow(Exec(disk, acts).value.runs[h])
    ensures var g := Exec(disk, acts).value;
            var r := g.runs[h];
            && r.o.Some? && r.drained && r.sealed && g.lock != r.o
            && IncAct(g, r.o.value, I.Acquire(true)).None?
            && (OnlyContenders(g, r) ==> g.lock == None || g.lock == r.s.n)
            && (OnlyContenders(g, r) && r.s.n.Some? && r.s.n.value in g.procs &&
                g.procs[r.s.n.value].stage == Booting(B.Acquire(h)) ==>
                  g.lock == None && BootAct(g, r.s.n.value, B.Acquired).Some?)
  {
    hide Apply, Exec, Inv;
    ExecKeepsInv(disk, acts);
    WindowExcludesO(Exec(disk, acts).value, h);
    AcquireNeedsFreeLock(Exec(disk, acts).value, h);
  }

  lemma WindowExcludesO(g: World, h: HandoffId)
    requires Inv(g) && h in g.runs && HandoverWindow(g.runs[h])
    ensures var r := g.runs[h];
            r.o.Some? && r.drained && r.sealed && g.lock != r.o && IncAct(g, r.o.value, I.Acquire(true)).None?
  {
    hide S.Local, Session, LinkN, IncDone;
    var r := g.runs[h];
    assert RunOk(h, r) && LinkO(g, h, r);
    assert ProcOk(g, r.o.value, g.procs[r.o.value]);
  }

  /** A successor that is about to acquire does not hold the flock, and gets it if free. */
  lemma AcquireNeedsFreeLock(g: World, h: HandoffId)
    requires Inv(g) && h in g.runs
    ensures var r := g.runs[h];
            r.s.n.Some? && r.s.n.value in g.procs && g.procs[r.s.n.value].stage == Booting(B.Acquire(h)) ==>
              g.lock != r.s.n && (g.lock == None ==> BootAct(g, r.s.n.value, B.Acquired).Some?)
  {
    hide RunOk, LinkO, I.Inv;
    var r := g.runs[h];
    if r.s.n.Some? {
      assert LinkN(g, h, r);
      assert ProcOk(g, r.s.n.value, g.procs[r.s.n.value]);
    }
  }

  /** `Begin` is written, or delivered, only after O sealed and released the flock. */
  lemma BeginOnlyAfterRelease(disk: seq<Entry>, acts: seq<Action>, h: HandoffId)
    requires Exec(disk, acts).Some? && h in Exec(disk, acts).value.runs
    requires var r := Exec(disk, acts).value.runs[h]; r.s.pc == S.SendBegin || r.s.began || Begin(h) in r.toN
    ensures var r := Exec(disk, acts).value.runs[h]; r.drained && r.sealed && r.told
    ensures Exec(disk, acts).value.runs[h].s.pc == S.SendBegin ==> Exec(disk, acts).value.runs[h].s.oOpen
  {
    hide Apply, LinkO, LinkN, ProcOk, Exec;
    ExecKeepsInv(disk, acts);
    var r := Exec(disk, acts).value.runs[h];
    assert RunOk(h, r);
    if Begin(h) in r.toN { assert ToNTruth(Begin(h), h, r); }
  }

  // ---------------------------------------------------------------- commit safety

  /** O leaves `serve` with `Ok` only if, in the one handoff its last session belongs to,
      O drained, sealed and released; S saw the SealComplete and sent `Begin`; N took the
      flock and announced `Ready`; and S accepted it and gave up its right to kill N. */
  lemma CommitSafety(disk: seq<Entry>, acts: seq<Action>, p: Pid)
    requires Exec(disk, acts).Some?
    requires var g := Exec(disk, acts).value;
             p in g.procs && g.procs[p].stage.Serving? && g.procs[p].stage.i.pc == I.Exited(true)
    ensures var g := Exec(disk, acts).value;
            g.procs[p].stage.i.session.Some? &&
            var h := g.procs[p].stage.i.session.value;
            h in g.runs &&
            var r := g.runs[h];
            && r.o == Some(p) && r.drained && r.sealed && r.told
            && r.s.sawSealed && r.s.began && r.locked && r.announced
            && r.s.ready && r.s.child == S.Disarmed && Commit(h) in r.s.sentO
  {
    hide Apply, S.Local, LinkO, LinkN, Exec;
    var g := Exec(disk, acts).value;
    ExecKeepsInv(disk, acts);
    assert ProcOk(g, p, g.procs[p]);
    EnterSession(g, p);
    var h := g.procs[p].stage.i.session.value;
    var r := g.runs[h];
    assert r.s.sentO[3] == Commit(h);
  }

  // ---------------------------------------------------------------- one run of S inside the system

  /** What S did in handoff `h`. */
  function EventsOf(h: HandoffId, acts: seq<Action>): seq<S.Event> {
    if acts == [] then []
    else
      var a := acts[|acts| - 1];
      EventsOf(h, acts[..|acts| - 1]) + if a.SupDo? && a.h == h then [a.se] else []
  }

  /** The step is not S's. */
  ghost predicate SameSups(g: World, g': World) {
    g'.runs.Keys == g.runs.Keys && g'.journal == g.journal && forall h :: h in g.runs ==> g'.runs[h].s == g.runs[h].s
  }

  lemma IncSups(g: World, p: Pid, e: I.Event)
    requires IncAct(g, p, e).Some?
    ensures SameSups(g, IncAct(g, p, e).value)
  {
    hide I.Step;
  }

  lemma BootSups(g: World, p: Pid, e: B.Event)
    requires BootAct(g, p, e).Some?
    ensures SameSups(g, BootAct(g, p, e).value)
  {
    hide B.Next, BootProcAfter, BootRunAfter;
    var q := g.procs[p];
    if q.origin.Some? && q.origin.value in g.runs { BootRunGrows(p, q.stage.b, g.runs[q.origin.value], e); }
  }

  lemma SupSups(g: World, x: HandoffId, e: S.Event, o: Pid, leak: bool, keep: nat, h: HandoffId)
    requires SupAct(g, x, e, o, leak, keep).Some?
    ensures x in g.runs &&
            var g' := SupAct(g, x, e, o, leak, keep).value;
            && g'.runs.Keys == g.runs.Keys
            && (h in g.runs ==> if h == x then S.Step(g.runs[h].s, h, e) == Some(g'.runs[h].s)
                else g'.runs[h].s == g.runs[h].s)
            && (g'.journal == g.journal || g'.journal == None || (e.JournalSet? && g'.journal == Some((x, e.phase))))
  {
    hide S.Step, SupDone;
    SupDoneRuns(g, x, g.runs[x], S.Step(g.runs[x].s, x, e).value, e, o, leak, keep);
  }

  lemma SupDoneRuns(g: World, x: HandoffId, r: Run, t: S.Sup, e: S.Event, o: Pid, leak: bool, keep: nat)
    requires x in g.runs && g.runs[x] == r && SupDone(g, x, r, t, e, o, leak, keep).Some?
    ensures var g' := SupDone(g, x, r, t, e, o, leak, keep).value;
            && x in g'.runs && g'.runs == g.runs[x := g'.runs[x]] && g'.runs[x].s == t
            && (g'.journal == g.journal || g'.journal == None || (e.JournalSet? && g'.journal == Some((x, e.phase))))
  {
    hide OUp, NUp, Survives;
  }

  lemma SupSteps(g: World, a: Action, h: HandoffId)
    requires Apply(g, a).Some?
    ensures var g' := Apply(g, a).value;
            && (h in g'.runs <==> h in g.runs || a == StartRun(h)) && (a.SupDo? && a.h == h ==> h in g.runs)
            && (h !in g.runs && h in g'.runs ==> g'.runs[h].s == S.START)
            && (h in g.runs ==>
                  var s, s' := g.runs[h].s, g'.runs[h].s;
                  if a.SupDo? && a.h == h then S.Step(s, h, a.se) == Some(s')
                  else s' == if a == SupCrash(h) then S.Crash(s) else s)
            && (g'.journal.Some? ==>
                g'.journal == g.journal || (a.SupDo? && a.se.JournalSet? && g'.journal == Some((a.h, a.se.phase))))
  {
    hide S.Step, S.Crash, SupAct, BootAct, IncAct, Accepts;
    match a
    case SupDo(x, e, o, leak, keep) => SupSups(g, x, e, o, leak, keep, h);
    case BootDo(p, e) => BootSups(g, p, e);
    case IncDo(p, e) => IncSups(g, p, e);
    case _ =>
  }

  lemma CrashedIsFinal(s: S.Sup, h: HandoffId, e: S.Event)
    ensures S.Step(S.Crash(s), h, e).None?
  {
  }

  /** `s` is where the automaton is after `es`, or where a crash left it. */
  ghost predicate Follows(h: HandoffId, es: seq<S.Event>, s: S.Sup) {
    S.After(h, es).Some? && (s == S.After(h, es).value || s == S.Crash(S.After(h, es).value))
  }

  lemma FollowsStep(h: HandoffId, es: seq<S.Event>, s: S.Sup, e: S.Event, s': S.Sup)
    requires Follows(h, es, s) && S.Step(s, h, e) == Some(s')
    ensures Follows(h, es + [e], s')
  {
    hide S.Step, S.After;
    CrashedIsFinal(S.After(h, es).value, h, e);
    S.Push(h, es, s, e, s');
  }

  lemma FollowsCrash(h: HandoffId, es: seq<S.Event>, s: S.Sup)
    requires Follows(h, es, s)
    ensures Follows(h, es, S.Crash(s))
  {
    hide S.After;
  }

  /** Inside every run of the system, S's part is a run of its automaton, possibly cut
      short by a crash. */
  lemma {:induction false} ProjectsToRun(disk: seq<Entry>, acts: seq<Action>, h: HandoffId)
    requires Exec(disk, acts).Some?
    ensures h !in Exec(disk, acts).value.runs ==> EventsOf(h, acts) == []
    ensures h in Exec(disk, acts).value.runs ==> Follows(h, EventsOf(h, acts), Exec(disk, acts).value.runs[h].s)
  {
    assert Follows(h, [], S.START);
    hide Apply, S.Step, Follows, S.Crash;
    if acts != [] {
      var front, a := acts[..|acts| - 1], acts[|acts| - 1];
      var g, g' := Exec(disk, front).value, Exec(disk, acts).value;
      ProjectsToRun(disk, front, h);
      SupSteps(g, a, h);
      assert EventsOf(h, acts) == if a.SupDo? && a.h == h then EventsOf(h, front) + [a.se] else EventsOf(h, front);
      if h in g.runs {
        if a.SupDo? && a.h == h { FollowsStep(h, EventsOf(h, front), g.runs[h].s, a.se, g'.runs[h].s); }
        if a == SupCrash(h) { FollowsCrash(h, EventsOf(h, front), g.runs[h].s); }
      }
    }
  }

  /** A phase on disk was journaled by the handoff it names. */
  lemma {:induction false} JournalHasWriter(disk: seq<Entry>, acts: seq<Action>, h: HandoffId, ph: Phase)
    requires Exec(disk, acts).Some? && Exec(disk, acts).value.journal == Some((h, ph))
    ensures S.JournalSet(ph, true) in EventsOf(h, acts) || S.JournalSet(ph, false) in EventsOf(h, acts)
  {
    hide Apply;
    if acts != [] {
      var front, a := acts[..|acts| - 1], acts[|acts| - 1];
      SupSteps(Exec(disk, front).value, a, h);
      if Exec(disk, front).value.journal == Some((h, ph)) { JournalHasWriter(disk, front, h, ph); }
    }
  }

  /** A journal that says Committed: Commit was written to O if and only if that write did
      not fail. */
  lemma CommittedSentIff(disk: seq<Entry>, acts: seq<Action>, h: HandoffId)
    requires Exec(disk, acts).Some? && Exec(disk, acts).value.journal == Some((h, Committed))
    ensures h in Exec(disk, acts).value.runs
    ensures Commit(h) in Exec(disk, acts).value.runs[h].s.sentO <==> S.SendO(Commit(h), false) !in EventsOf(h, acts)
  {
    hide Apply, S.Step, Inv;
    ExecKeepsInv(disk, acts);
    JournalIsKnown(Exec(disk, acts).value);
    JournalHasWriter(disk, acts, h, Committed);
    ProjectsToRun(disk, acts, h);
    S.CommitOutcome(h, EventsOf(h, acts));
  }

  lemma JournalIsKnown(g: World)
    requires Inv(g) && g.journal.Some?
    ensures g.journal.value.0 in g.runs && g.runs[g.journal.value.0].s.dirty
  {
  }

  /** Once perform_handoff has returned Ok, the journal on disk is not this handoff's,
      unless one of its own deletes failed. */
  lemma OkLeavesNoJournal(disk: seq<Entry>, acts: seq<Action>, h: HandoffId)
    requires Exec(disk, acts).Some? && h in Exec(disk, acts).value.runs
    requires var s := Exec(disk, acts).value.runs[h].s; s.pc.Done? && s.pc.res != S.FailedErr
    requires S.JournalClear(false) !in EventsOf(h, acts)
    ensures Exec(disk, acts).value.journal.Some? ==> Exec(disk, acts).value.journal.value.0 != h
  {
    hide Apply, S.Step, Inv;
    ExecKeepsInv(disk, acts);
    if Exec(disk, acts).value.journal.Some? { JournalIsKnown(Exec(disk, acts).value); }
    ProjectsToRun(disk, acts, h);
    S.RunIsTallied(h, EventsOf(h, acts));
  }

  // ---------------------------------------------------------------- handshake

  /** The version handshake cannot fail between peers of this library, over every run: the
      Hello that S reads from O or from N is one it answers, and the answer that O reads is
      one it accepts. Only timeouts, deaths and failed reads or writes end it. */
  lemma HandshakeSucceeds(disk: seq<Entry>, acts: seq<Action>, h: HandoffId)
    requires Exec(disk, acts).Some? && h in Exec(disk, acts).value.runs
    ensures var r := Exec(disk, acts).value.runs[h];
            && (r.s.pc == S.HelloO && r.fromO != [] ==>
                  S.OnRecvO(S.HelloO, h, r.fromO[0]) == Some(S.AckO(PROTO_MAX)))
            && (r.s.pc == S.HelloN && r.fromN != [] ==>
                  S.OnRecvN(S.HelloN, r.s.n, h, r.fromN[0]) == Some(S.AckN(PROTO_MAX)))
            && (r.got == 0 && |r.s.sentO| > 0 ==> I.GoodAck(r.s.sentO[0]))
  {
    hide Apply, S.Local, LinkO, LinkN, ProcOk, Exec;
    ExecKeepsInv(disk, acts);
    var r := Exec(disk, acts).value.runs[h];
    assert RunOk(h, r);
    if r.s.pc == S.HelloO && r.fromO != [] {
      assert OTruth(r.fromO[0], h, r) && r.s.sentO == [] by { NothingSaid(h, r); }
    }
    if r.s.pc == S.HelloN && r.fromN != [] { assert FromNTruth(r.fromN[0], h, r); }
  }

  lemma NothingSaid(h: HandoffId, r: Run)
    requires RunOk(h, r) && r.s.pc == S.HelloO
    ensures r.s.sentO == []
  {
    hide S.Facts;
  }

  /** An O that said Hello goes on to the session loop with whatever answer it reads. */
  lemma AckIsAccepted(disk: seq<Entry>, acts: seq<Action>, p: Pid, m: Message)
    requires Exec(disk, acts).Some? && IncAct(Exec(disk, acts).value, p, I.Read(m)).Some?
    requires Exec(disk, acts).value.procs[p].stage.i.pc == I.AwaitingAck
    ensures var g' := IncAct(Exec(disk, acts).value, p, I.Read(m)).value;
            p in g'.procs && g'.procs[p].stage.Serving? && g'.procs[p].stage.i.pc == I.LoopHead
  {
    hide Apply, Exec, Inv, RunOk, I.GoodAck, I.OnMessage;
    var g := Exec(disk, acts).value;
    ExecKeepsInv(disk, acts);
    EnterSession(g, p);
    HandshakeSucceeds(disk, acts, g.procs[p].stage.i.session.value);
  }

  // ---------------------------------------------------------------- journal

  /** At every point of every run, whatever crashed, the journal on disk names a handoff
      that has really got that far. */
  lemma JournalNeverAhead(disk: seq<Entry>, acts: seq<Action>)
    requires Exec(disk, acts).Some? && Exec(disk, acts).value.journal.Some?
    ensures var g := Exec(disk, acts).value;
            var (h, phase) := g.journal.value;
            h in g.runs &&
            var r := g.runs[h];
            && (phase == Draining ==> r.drained)
            && (phase == Sealing ==> r.drained && r.sealed)
            && (phase == AwaitingReady ==> r.sealed && S.SendN(Begin(h), true) in EventsOf(h, acts))
            && (phase == Committed ==> r.s.ready && r.announced && r.locked)
            && (phase == ResumingAfterAbort ==>
                  ResumeAfterAbort(h) in r.s.sentO && r.s.n.Some? && r.s.n.value in g.procs &&
                  g.procs[r.s.n.value].stage.Dead? && g.lock != r.s.n)
  {
    hide Apply, S.Local, LinkO, LinkN, ProcOk, Exec;
    var g := Exec(disk, acts).value;
    ExecKeepsInv(disk, acts);
    var (h, phase) := g.journal.value;
    var r := g.runs[h];
    assert RunOk(h, r);
    if phase == ResumingAfterAbort { IdleSuccessorHasNoLock(g, h); }
    hide Inv, RunOk;
    JournaledWrites(disk, acts, h, phase);
  }

  /** The phases that follow a write: the write succeeded. */
  lemma JournaledWrites(disk: seq<Entry>, acts: seq<Action>, h: HandoffId, phase: Phase)
    requires Exec(disk, acts).Some? && Exec(disk, acts).value.journal == Some((h, phase)) &&
             h in Exec(disk, acts).value.runs
    ensures phase == AwaitingReady ==> S.SendN(Begin(h), true) in EventsOf(h, acts)
    ensures phase == ResumingAfterAbort ==> ResumeAfterAbort(h) in Exec(disk, acts).value.runs[h].s.sentO
  {
    hide Exec, S.Step, S.After;
    JournalHasWriter(disk, acts, h, phase);
    ProjectsToRun(disk, acts, h);
    S.JournaledAfterWrite(h, EventsOf(h, acts));
    S.SentIff(h, EventsOf(h, acts), ResumeAfterAbort(h));
  }
}
