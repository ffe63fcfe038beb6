/** Every action of the composed system keeps the invariant. */
module SystemProofs {
  import opened Protocol
  import opened System
  import S = HandoffSupervisor
  import I = IncumbentSession
  import B = SuccessorBoot

  // ---------------------------------------------------------------- framing

  /** History only grows and connections are never re-pointed. */
  predicate Grows(r: Run, r': Run) {
    && (r.o.Some? ==> r'.o == r.o) && (r.accepted ==> r'.accepted) && (r.s.n.Some? ==> r'.s.n == r.s.n)
    && |r.s.sentO| <= |r'.s.sentO|
    && (r.drained ==> r'.drained) && (r.sealed ==> r'.sealed) && (r.told ==> r'.told)
    && (r.locked ==> r'.locked) && (r.announced ==> r'.announced)
    && (r.s.began ==> r'.s.began) && (r.s.ready ==> r'.s.ready)
    && (r.s.child == S.Reaped ==> r'.s.child == S.Reaped)
  }

  /** The flock changed hands at most between `p` and nobody. */
  predicate OnlyMine(g: World, p: Pid, lock: Option<Pid>) {
    lock == g.lock || ((lock == None || lock == Some(p)) && (g.lock == None || g.lock == Some(p)))
  }

  /** As long as guards are kept, only the flock's holder changes the disk. */
  predicate DataIsMine(g: World, p: Pid, g': World) {
    (g'.kept ==> g.kept) && (g'.kept && g'.disk != g.disk ==> g.lock == Some(p))
  }

  /** The runs of `g'` are those of `g`, grown. */
  ghost predicate RunsGrow(g: World, g': World) {
    forall h :: h in g.runs ==> h in g'.runs && Grows(g.runs[h], g'.runs[h])
  }

  /** A process other than the one that moved. */
  lemma ProcStays(g: World, g': World, p: Pid, x: Pid, q: Proc)
    requires ProcOk(g, x, q) && x != p
    requires OnlyMine(g, p, g'.lock) && DataIsMine(g, p, g') && RunsGrow(g, g')
    ensures ProcOk(g', x, q)
  {
    hide I.Inv, B.Holds, B.Writing;
  }

  lemma ProcsStay(g: World, g': World, p: Pid)
    requires Inv(g) && (forall x :: x in g'.procs && x != p ==> x in g.procs && g'.procs[x] == g.procs[x])
    requires OnlyMine(g, p, g'.lock) && DataIsMine(g, p, g') && RunsGrow(g, g')
    ensures forall x :: x in g'.procs && x != p ==> ProcOk(g', x, g'.procs[x])
  {
    hide ProcOk, RunOk, LinkO, LinkN, Grows;
    forall x | x in g'.procs && x != p ensures ProcOk(g', x, g'.procs[x]) {
      ProcStays(g, g', p, x, g.procs[x]);
    }
  }

  lemma LinksReadProcs(g: World, g': World, h: HandoffId, r: Run)
    requires g'.procs == g.procs && RunOk(h, r)
    ensures LinkO(g', h, r) <==> LinkO(g, h, r)
    ensures LinkN(g', h, r) <==> LinkN(g, h, r)
  {
    hide RunOk, Session, NStage;
  }

  /** A step that changes one run and possibly the journal. */
  lemma FrameRun(g: World, h: HandoffId, r': Run, journal: Option<(HandoffId, Phase)>)
    requires Inv(g) && h in g.runs && Grows(g.runs[h], r')
    requires RunOk(h, r') && LinkO(g, h, r') && LinkN(g, h, r')
    requires journal == g.journal || journal == None || (journal.value.0 == h && JournalTruth(r', journal.value.1))
    requires journal.Some? && journal.value.0 == h ==>
             (journal == g.journal && r'.s.dirty == g.runs[h].s.dirty) || r'.s.dirty
    ensures Inv(SetRun(g, h, r').(journal := journal))
  {
    hide RunOk, LinkO, LinkN, ProcOk, Grows, JournalTruth;
    var g' := SetRun(g, h, r').(journal := journal);
    forall x | x in g'.runs ensures RunOk(x, g'.runs[x]) && LinkO(g', x, g'.runs[x]) && LinkN(g', x, g'.runs[x]) {
      LinksReadProcs(g, g', x, g'.runs[x]);
    }
    assert RunsGrow(g, g') by { forall x: Run ensures Grows(x, x) { GrowsRefl(x); } }
    forall x | x in g'.procs ensures ProcOk(g', x, g'.procs[x]) {
      ProcStays(g, g', x + 1, x, g.procs[x]);
    }
    if g.journal.Some? && g.journal.value.0 == h { TruthGrows(g.runs[h], r', g.journal.value.1); }
  }

  lemma KillKeepsInv(g: World, p: Pid, keep: nat)
    requires Inv(g) && p in g.procs
    ensures Inv(Kill(g, p, keep))
  {
    hide RunOk, Session, I.Inv, S.Inv, B.Holds, B.Writing;
    var g' := Kill(g, p, keep);
    assert ProcOk(g, p, g.procs[p]);
    ProcsStay(g, g', p);
    forall h | h in g'.runs ensures LinkO(g', h, g'.runs[h]) && LinkN(g', h, g'.runs[h]) {
      assert LinkO(g, h, g.runs[h]) && LinkN(g, h, g.runs[h]);
    }
  }

  predicate SessionIs(q: Proc, h: HandoffId) {
    q.stage.Serving? && (q.stage.i.session == None || q.stage.i.session == Some(h))
  }

  /** Another run, seen after `p` moved within run `h`'s session. */
  lemma LinkStays(g: World, g': World, p: Pid, q: Proc, q': Proc, h: HandoffId, x: HandoffId, r: Run)
    requires x != h && RunOk(x, r) && LinkO(g, x, r) && LinkN(g, x, r)
    requires p in g.procs && g.procs[p] == q && g'.procs == g.procs[p := q']
    requires SessionIs(q, h) && SessionIs(q', h) && q'.origin == q.origin
    ensures LinkO(g', x, r) && LinkN(g', x, r)
  {
    hide RunOk, Session;
  }

  lemma FrameServing(g: World, p: Pid, q': Proc, h: HandoffId, r': Run, lock: Option<Pid>, disk: seq<Entry>)
    requires Inv(g) && p in g.procs && h in g.runs
    requires SessionIs(g.procs[p], h) && SessionIs(q', h) && q'.origin == g.procs[p].origin
    requires g.runs[h].o == Some(p) && r'.s == g.runs[h].s && Grows(g.runs[h], r')
    requires OnlyMine(g, p, lock) && (g.kept && disk != g.disk ==> g.lock == Some(p))
    requires var g' := Moved(g, p, q', h, r', lock, disk);
             RunOk(h, r') && LinkO(g', h, r') && ProcOk(g', p, q')
    ensures Inv(Moved(g, p, q', h, r', lock, disk))
  {
    hide RunOk, LinkO, ProcOk, Grows;
    var g' := Moved(g, p, q', h, r', lock, disk);
    assert RunsGrow(g, g') by { forall x: Run ensures Grows(x, x) { GrowsRefl(x); } }
    ProcsStay(g, g', p);
    LinkNServing(g, g', p, q', h, r');
    forall x | x in g'.runs && x != h
        ensures RunOk(x, g'.runs[x]) && LinkO(g', x, g'.runs[x]) && LinkN(g', x, g'.runs[x]) {
      LinkStays(g, g', p, g.procs[p], q', h, x, g.runs[x]);
    }
    if g.journal.Some? && g.journal.value.0 == h { TruthGrows(g.runs[h], r', g.journal.value.1); }
  }

  lemma GrowsRefl(r: Run)
    ensures Grows(r, r)
  {
  }

  lemma TruthGrows(r: Run, r': Run, ph: Phase)
    requires Grows(r, r') && JournalTruth(r, ph)
    ensures JournalTruth(r', ph)
  {
  }

  lemma LinkNServing(g: World, g': World, p: Pid, q': Proc, h: HandoffId, r': Run)
    requires p in g.procs && h in g.runs && LinkN(g, h, g.runs[h]) && r'.s == g.runs[h].s && Grows(g.runs[h], r')
    requires g'.procs == g.procs[p := q'] && SessionIs(g.procs[p], h) && SessionIs(q', h) &&
             q'.origin == g.procs[p].origin
    ensures LinkN(g', h, r')
  {
  }

  /** A step of a booting process and the run that spawned it. */
  lemma FrameBoot(g: World, p: Pid, q': Proc, h: HandoffId, r': Run, lock: Option<Pid>)
    requires Inv(g) && p in g.procs && h in g.runs
    requires g.procs[p].stage.Booting? && !q'.stage.Dead? && g.procs[p].origin == q'.origin == Some(h)
    requires r'.s == g.runs[h].s && r'.o == g.runs[h].o && Grows(g.runs[h], r')
    requires q'.stage.Serving? ==> q'.stage.i.session == None
    requires OnlyMine(g, p, lock)
    requires var g' := Moved(g, p, q', h, r', lock, g.disk);
             RunOk(h, r') && LinkO(g, h, r') && LinkN(g', h, r') && ProcOk(g', p, q')
    ensures Inv(Moved(g, p, q', h, r', lock, g.disk))
  {
    hide RunOk, ProcOk, Grows, LinkO, LinkN;
    var g' := Moved(g, p, q', h, r', lock, g.disk);
    assert RunsGrow(g, g') by { forall x: Run ensures Grows(x, x) { GrowsRefl(x); } }
    ProcsStay(g, g', p);
    BootLinkStays(g, g', p, h, h, r');
    forall x | x in g'.runs && x != h
        ensures RunOk(x, g'.runs[x]) && LinkO(g', x, g'.runs[x]) && LinkN(g', x, g'.runs[x]) {
      BootLinkStays(g, g', p, h, x, g.runs[x]);
    }
    if g.journal.Some? && g.journal.value.0 == h { TruthGrows(g.runs[h], r', g.journal.value.1); }
  }

  /** A booting process is nobody's O, and only its own run's N. */
  lemma BootLinkStays(g: World, g': World, p: Pid, h: HandoffId, x: HandoffId, r: Run)
    requires RunOk(x, r) && LinkO(g, x, r) && p in g.procs && g.procs[p].stage.Booting? && g.procs[p].origin == Some(h)
    requires p in g'.procs && g'.procs == g.procs[p := g'.procs[p]]
    ensures LinkO(g', x, r) && (x != h && LinkN(g, x, r) ==> LinkN(g', x, r))
  {
    hide RunOk, Session, NStage, Window;
  }

  /** A step of a cold-starting process. */
  lemma FrameCold(g: World, p: Pid, q': Proc, lock: Option<Pid>)
    requires Inv(g) && (p in g.procs ==> g.procs[p].stage.Booting? && g.procs[p].origin.None?)
    requires !q'.stage.Dead? && q'.origin.None?
    requires q'.stage.Serving? ==> q'.stage.i.session == None
    requires OnlyMine(g, p, lock)
    requires ProcOk(SetProc(g, p, q').(lock := lock), p, q')
    ensures Inv(SetProc(g, p, q').(lock := lock))
  {
    hide RunOk, ProcOk, Session, NStage;
    var g' := SetProc(g, p, q').(lock := lock);
    ProcsStay(g, g', p);
    forall x | x in g'.runs ensures LinkO(g', x, g'.runs[x]) && LinkN(g', x, g'.runs[x]) {
      assert LinkO(g, x, g.runs[x]) && LinkN(g, x, g.runs[x]);
    }
  }

  // ---------------------------------------------------------------- supervisor steps

  /** `r'` is `r` after S took `e`: only S's state and the queues differ. */
  predicate SupMoves(h: HandoffId, r: Run, e: S.Event, r': Run) {
    && S.Step(r.s, h, e) == Some(r'.s)
    && r' == r.(s := r'.s, fromO := r'.fromO, toN := r'.toN, fromN := r'.fromN)
    && (if e.RecvO? then r.fromO != [] && r.fromO[0] == e.m && r'.fromO == r.fromO[1..] else r'.fromO == r.fromO)
    && (if e.RecvN? then r.fromN != [] && r.fromN[0] == e.m && r'.fromN == r.fromN[1..] else r'.fromN == r.fromN)
    && (r'.toN == r.toN || (e.SendN? && r'.toN == r.toN + [e.m]))
  }

  /** S begins to wait for N's Hello when it spawned N, and not later. */
  lemma HelloNFirst(s: S.Sup, h: HandoffId, e: S.Event)
    requires S.Inv(s, h) && S.Step(s, h, e).Some?
    ensures S.Step(s, h, e).value.pc == S.HelloN ==> s.n.None?
  {
    hide S.ScriptOk, S.Chosen;
  }

  lemma SupRunOk(h: HandoffId, r: Run, e: S.Event, r': Run)
    requires RunOk(h, r) && SupMoves(h, r, e, r')
    ensures RunOk(h, r') && Grows(r, r') && S.Observes(r.s, h, e, r'.s)
  {
    hide S.Step, S.Inv;
    S.StepKeepsInv(r.s, h, e);
    S.StepObserves(r.s, h, e);
    HelloNFirst(r.s, h, e);
    if e.RecvO? { assert e.m in r.fromO; assert OTruth(e.m, h, r); }
    if e.RecvN? { assert e.m in r.fromN; assert FromNTruth(e.m, h, r); }
    assert forall m :: m in r'.fromO ==> m in r.fromO;
    assert forall m :: m in r'.fromN ==> m in r.fromN;
    assert forall m :: m in r'.toN ==> m in r.toN || (e.SendN? && m == e.m);
    forall m | m in r'.fromO ensures OTruth(m, h, r') { assert OTruth(m, h, r); }
    forall m | m in r'.fromN ensures FromNTruth(m, h, r') { assert FromNTruth(m, h, r); }
    forall m | m in r'.toN ensures ToNTruth(m, h, r') { assert m in r.toN ==> ToNTruth(m, h, r); }
  }

  /** O's place in the session is not disturbed by what S does. */
  lemma SupKeepsSession(q: Proc, h: HandoffId, r: Run, e: S.Event, r': Run)
    requires RunOk(h, r) && RunOk(h, r') && SupMoves(h, r, e, r') && S.Observes(r.s, h, e, r'.s)
    requires Window(q, h, r) && (q.stage.Serving? && q.stage.i.session == Some(h) ==> Session(q.stage.i, h, r))
    ensures Window(q, h, r') && (q.stage.Serving? && q.stage.i.session == Some(h) ==> Session(q.stage.i, h, r'))
  {
    hide S.Step, S.Inv;
    assert r.got > 3 ==> r'.s.sentO[3] == r.s.sentO[3];
    assert r.s == S.START ==> r.got == 0;
  }

  lemma SupKeepsLinks(g: World, h: HandoffId, r: Run, e: S.Event, r': Run)
    requires RunOk(h, r) && RunOk(h, r') && SupMoves(h, r, e, r') && S.Observes(r.s, h, e, r'.s)
    requires LinkO(g, h, r) && LinkN(g, h, r) && r'.s.n == r.s.n && (r'.s.child == S.Reaped ==> r.s.child == S.Reaped)
    ensures LinkO(g, h, r') && LinkN(g, h, r')
  {
    hide S.Step, S.Inv, Session, Window, RunOk, SupMoves;
    SupMovesO(h, r, e, r');
    if r.o.Some? { SupKeepsSession(g.procs[r.o.value], h, r, e, r'); }
  }

  lemma SupMovesO(h: HandoffId, r: Run, e: S.Event, r': Run)
    requires SupMoves(h, r, e, r') && S.Observes(r.s, h, e, r'.s)
    ensures r'.o == r.o && r'.locked == r.locked && r'.announced == r.announced && (r.s.began ==> r'.s.began)
  {
    hide S.Step;
  }

  lemma JournalIsTrue(h: HandoffId, r: Run, ph: Phase, ok: bool)
    requires RunOk(h, r) && S.OnJournal(r.s.pc, ph, ok).Some?
    ensures JournalTruth(r, ph)
  {
  }

  /** A supervisor step that leaves the processes alone. */
  lemma SupPlain(g: World, h: HandoffId, e: S.Event, r': Run, journal: Option<(HandoffId, Phase)>)
    requires Inv(g) && h in g.runs && SupMoves(h, g.runs[h], e, r') && r'.s.n == g.runs[h].s.n && !e.KillReap?
    requires journal == None || (e != S.JournalClear(true) && journal == g.journal) ||
             (e.JournalSet? && journal == Some((h, e.phase)))
    ensures Inv(SetRun(g, h, r').(journal := journal))
  {
    hide RunOk, LinkO, LinkN, ProcOk, SupMoves, JournalTruth;
    SupRunOk(h, g.runs[h], e, r');
    SupKeepsLinks(g, h, g.runs[h], e, r');
    if e.JournalSet? {
      assert S.OnJournal(g.runs[h].s.pc, e.phase, e.ok).Some? by { JournalSteps(h, g.runs[h], e, r'); }
      JournalIsTrue(h, g.runs[h], e.phase, e.ok);
      TruthGrows(g.runs[h], r', e.phase);
    }
    FrameRun(g, h, r', journal);
  }

  lemma JournalSteps(h: HandoffId, r: Run, e: S.Event, r': Run)
    requires SupMoves(h, r, e, r') && e.JournalSet?
    ensures S.OnJournal(r.s.pc, e.phase, e.ok).Some?
  {
    hide S.OnJournal, S.Effect;
  }

  lemma ConnectKeepsInv(g: World, h: HandoffId, o: Pid, t: S.Sup)
    requires Inv(g) && h in g.runs && S.Step(g.runs[h].s, h, S.ConnectO(true)) == Some(t)
    requires o in g.procs && g.procs[o].stage.Serving?
    ensures Inv(SetRun(g, h, g.runs[h].(s := t, o := Some(o))))
  {
    hide S.Step, S.Inv, I.Inv;
    var r := g.runs[h];
    var r1 := r.(s := t);
    var r2 := r1.(o := Some(o));
    assert RunOk(h, r) && LinkO(g, h, r) && LinkN(g, h, r);
    SupRunOk(h, r, S.ConnectO(true), r1);
    assert r.s == S.START && r.got == 0 && r.o.None?;
    assert ProcOk(g, o, g.procs[o]);
    FrameRun(g, h, r2, g.journal);
  }

  lemma SpawnKeepsInv(g: World, h: HandoffId, n: Pid, t: S.Sup)
    requires Inv(g) && h in g.runs && S.Step(g.runs[h].s, h, S.Spawn(n, true)) == Some(t) && n !in g.procs
    ensures Inv(SetRun(g, h, g.runs[h].(s := t)).(procs := g.procs[n := Proc(Booting(B.Greet), Some(h), false, [])]))
  {
    hide RunOk, LinkO, LinkN, ProcOk, S.Step, S.Inv, Grows;
    var r := g.runs[h];
    var r' := r.(s := t);
    var q := Proc(Booting(B.Greet), Some(h), false, []);
    var g' := SetRun(g, h, r').(procs := g.procs[n := q]);
    SupRunOk(h, r, S.Spawn(n, true), r');
    SpawnFacts(h, r, n, t);
    assert RunsGrow(g, g') by { forall x: Run ensures Grows(x, x) { GrowsRefl(x); } }
    ProcsStay(g, g', n);
    assert ProcOk(g', n, q) by { NewProcOk(g', h, n); }
    forall x | x in g'.runs ensures LinkO(g', x, g'.runs[x]) && LinkN(g', x, g'.runs[x]) {
      if x != h { LinksAddProc(g, g', n, q, x, g.runs[x]); } else { SpawnLinks(g, g', h, n, q, t); }
    }
    if g.journal.Some? && g.journal.value.0 == h { TruthGrows(r, r', g.journal.value.1); }
  }

  lemma SpawnFacts(h: HandoffId, r: Run, n: Pid, t: S.Sup)
    requires RunOk(h, r) && S.Step(r.s, h, S.Spawn(n, true)) == Some(t)
    ensures r.s.n.None? && t.n == Some(n) && t.child == S.Armed
  {
    hide S.Effect;
    S.SpawnStep(r.s, h, n, true);
  }

  lemma NewProcOk(g: World, h: HandoffId, n: Pid)
    requires h in g.runs && g.runs[h].s.n == Some(n) && g.lock != Some(n)
    ensures ProcOk(g, n, Proc(Booting(B.Greet), Some(h), false, []))
  {
  }

  lemma LinksAddProc(g: World, g': World, n: Pid, q: Proc, x: HandoffId, r: Run)
    requires n !in g.procs && g'.procs == g.procs[n := q] && RunOk(x, r) && LinkO(g, x, r) && LinkN(g, x, r)
    ensures LinkO(g', x, r) && LinkN(g', x, r)
  {
    hide RunOk, Session, NStage;
  }

  lemma SpawnLinks(g: World, g': World, h: HandoffId, n: Pid, q: Proc, t: S.Sup)
    requires h in g.runs && RunOk(h, g.runs[h]) && LinkO(g, h, g.runs[h]) && n !in g.procs &&
             g'.procs == g.procs[n := q]
    requires S.Step(g.runs[h].s, h, S.Spawn(n, true)) == Some(t) && q == Proc(Booting(B.Greet), Some(h), false, [])
    requires RunOk(h, g.runs[h].(s := t))
    ensures LinkO(g', h, g.runs[h].(s := t)) && LinkN(g', h, g.runs[h].(s := t))
  {
    hide RunOk, S.Step, S.Inv, Session, Window;
    var r := g.runs[h];
    SpawnFacts(h, r, n, t);
    if r.o.Some? {
      SupRunOk(h, r, S.Spawn(n, true), r.(s := t));
      SupKeepsSession(g.procs[r.o.value], h, r, S.Spawn(n, true), r.(s := t));
    }
  }

  lemma KillReapKeepsInv(g: World, h: HandoffId, keep: nat, t: S.Sup)
    requires Inv(g) && h in g.runs && S.Step(g.runs[h].s, h, S.KillReap) == Some(t)
    requires g.runs[h].s.n.Some? && g.runs[h].s.n.value in g.procs
    ensures Inv(SetRun(Kill(g, g.runs[h].s.n.value, keep), h, g.runs[h].(s := t)))
  {
    hide RunOk, ProcOk, S.Step, S.Inv, Session, Window, Grows, JournalTruth;
    var r := g.runs[h];
    var r' := r.(s := t);
    var n := r.s.n.value;
    var g1 := Kill(g, n, keep);
    KillKeepsInv(g, n, keep);
    SupRunOk(h, r, S.KillReap, r');
    assert LinkO(g1, h, r) && LinkN(g1, h, r);
    assert g1.procs[n].stage.Dead?;
    if r.o.Some? { SupKeepsSession(g1.procs[r.o.value], h, r, S.KillReap, r'); }
    FrameRun(g1, h, r', g1.journal);
    assert SetRun(g1, h, r').(journal := g1.journal) == SetRun(g1, h, r');
  }

  /** The events that change no process. */
  predicate IsPlain(e: S.Event) {
    !(e.ConnectO? && e.ok) && !(e.Spawn? && e.ok) && !e.KillReap?
  }

  lemma PlainIsMove(g: World, h: HandoffId, r: Run, t: S.Sup, e: S.Event, o: Pid, leak: bool, keep: nat)
    requires h in g.runs && g.runs[h] == r && SupDone(g, h, r, t, e, o, leak, keep).Some? && IsPlain(e)
    ensures SupDone(g, h, r, t, e, o, leak, keep).value ==
            SetRun(g, h, SupRun(r, e, t, o, leak)).(journal := SupJournal(g, h, e, leak))
    ensures e.RecvO? ==> r.fromO != [] && r.fromO[0] == e.m
    ensures e.RecvN? ==> r.fromN != [] && r.fromN[0] == e.m
  {
    hide OUp, NUp, Kill;
  }

  lemma PlainMoves(h: HandoffId, r: Run, t: S.Sup, e: S.Event, o: Pid, leak: bool)
    requires S.Step(r.s, h, e) == Some(t) && IsPlain(e) && (e.RecvO? ==> r.fromO != [] && r.fromO[0] == e.m) &&
             (e.RecvN? ==> r.fromN != [] && r.fromN[0] == e.m)
    ensures SupMoves(h, r, e, SupRun(r, e, t, o, leak)) && SupRun(r, e, t, o, leak).s == t
  {
    hide S.Step;
  }

  lemma PlainKeepsInv(g: World, h: HandoffId, t: S.Sup, e: S.Event, o: Pid, leak: bool, keep: nat)
    requires Inv(g) && h in g.runs && S.Step(g.runs[h].s, h, e) == Some(t) && IsPlain(e)
    requires SupDone(g, h, g.runs[h], t, e, o, leak, keep).Some?
    ensures Inv(SupDone(g, h, g.runs[h], t, e, o, leak, keep).value)
  {
    var r := g.runs[h];
    assert RunOk(h, r);
    RunOkS(h, r);
    hide Inv, S.Step, S.Inv, SupDone, SupMoves, SupRun, RunOk;
    S.StepObserves(r.s, h, e);
    PlainIsMove(g, h, r, t, e, o, leak, keep);
    PlainMoves(h, r, t, e, o, leak);
    SupPlain(g, h, e, SupRun(r, e, t, o, leak), SupJournal(g, h, e, leak));
  }

  lemma SupActKeepsInv(g: World, h: HandoffId, e: S.Event, o: Pid, leak: bool, keep: nat)
    requires Inv(g) && SupAct(g, h, e, o, leak, keep).Some?
    ensures Inv(SupAct(g, h, e, o, leak, keep).value)
  {
    hide Inv, S.Step, OUp, NUp, Survives;
    var t := S.Step(g.runs[h].s, h, e).value;
    if IsPlain(e) {
      PlainKeepsInv(g, h, t, e, o, leak, keep);
    } else if e.ConnectO? {
      ConnectKeepsInv(g, h, o, t);
    } else if e.Spawn? {
      SpawnKeepsInv(g, h, e.pid, t);
    } else {
      KillReapKeepsInv(g, h, keep, t);
    }
  }

  lemma RunOkS(h: HandoffId, r: Run)
    requires RunOk(h, r)
    ensures S.Inv(r.s, h)
  {
  }

  lemma CrashKeepsInv(g: World, h: HandoffId)
    requires Inv(g) && h in g.runs
    ensures Inv(SetRun(g, h, g.runs[h].(s := S.Crash(g.runs[h].s))))
  {
    hide RunOk, LinkO, LinkN, ProcOk, Grows;
    var r := g.runs[h];
    var r' := r.(s := S.Crash(r.s));
    CrashedRunOk(h, r);
    CrashLinks(g, h, r, r');
    FrameRun(g, h, r', g.journal);
    assert SetRun(g, h, r').(journal := g.journal) == SetRun(g, h, r');
  }

  lemma CrashedRunOk(h: HandoffId, r: Run)
    requires RunOk(h, r)
    ensures var r' := r.(s := S.Crash(r.s)); RunOk(h, r') && Grows(r, r')
  {
    var r' := r.(s := S.Crash(r.s));
    forall m | m in r'.toN ensures ToNTruth(m, h, r') { assert ToNTruth(m, h, r); }
    forall m | m in r'.fromO ensures OTruth(m, h, r') { assert OTruth(m, h, r); }
    forall m | m in r'.fromN ensures FromNTruth(m, h, r') { assert FromNTruth(m, h, r); }
  }

  lemma CrashLinks(g: World, h: HandoffId, r: Run, r': Run)
    requires RunOk(h, r) && RunOk(h, r') && r' == r.(s := S.Crash(r.s)) && LinkO(g, h, r) && LinkN(g, h, r)
    ensures LinkO(g, h, r') && LinkN(g, h, r')
  {
    hide RunOk, S.Inv;
  }

  // ---------------------------------------------------------------- incumbent steps

  /** What one step of O within run `h` must leave behind. */
  predicate SessionMoves(j: I.Inc, h: HandoffId, r: Run, r': Run) {
    && RunOk(h, r') && Grows(r, r') && r'.s == r.s
    && (j.session == Some(h) ==> Session(j, h, r'))
    && (r'.told && !r'.fault && r'.s.oOpen && |r'.s.sentO| == 3 ==>
          j.session == Some(h) && j.pc == I.LoopHead && j.st.sealed)
  }

  /** O is inside run `h`'s session. */
  predicate InSession(i: I.Inc, h: HandoffId, r: Run) {
    && i.session == Some(h) && I.Inv(i) && RunOk(h, r) && Session(i, h, r)
    && (r.told && !r.fault && r.s.oOpen && |r.s.sentO| == 3 ==> i.pc == I.LoopHead && i.st.sealed)
  }

  lemma SendsKeepTruth(h: HandoffId, r: Run, r': Run, m: Message)
    requires RunOk(h, r) && r' == r.(fromO := r.fromO + [m], told := r'.told)
    requires (r.told ==> r'.told) && (r'.told ==> r.sealed && r.got >= 3) && OTruth(m, h, r')
    ensures RunOk(h, r')
  {
    hide S.Inv;
    forall x | x in r'.fromO ensures OTruth(x, h, r') { assert x in r.fromO ==> OTruth(x, h, r); }
    forall x | x in r'.toN ensures ToNTruth(x, h, r') { assert ToNTruth(x, h, r); }
    forall x | x in r'.fromN ensures FromNTruth(x, h, r') { assert FromNTruth(x, h, r); }
  }

  /** Steps that change none of the queues keep their truths. */
  lemma FlagsKeepTruth(h: HandoffId, r: Run, r': Run)
    requires RunOk(h, r) &&
             r' == r.(got := r'.got, accepted := r'.accepted, drained := r'.drained, sealed := r'.sealed,
                      fault := r'.fault)
    requires Grows(r, r') && r.got <= r'.got <= |r.s.sentO| && (r'.got > 0 || r'.fault ==> r'.accepted) &&
             (r'.accepted ==> r.o.Some?)
    requires r'.sealed ==> r'.drained
    ensures RunOk(h, r')
  {
    hide S.Inv;
    forall x | x in r'.fromO ensures OTruth(x, h, r') { assert OTruth(x, h, r); }
    forall x | x in r'.toN ensures ToNTruth(x, h, r') { assert ToNTruth(x, h, r); }
    forall x | x in r'.fromN ensures FromNTruth(x, h, r') { assert FromNTruth(x, h, r); }
  }

  lemma WriteMoves(i: I.Inc, h: HandoffId, r: Run, m: Message, ok: bool, j: I.Inc)
    requires InSession(i, h, r) && I.Step(i, I.Write(m, ok)) == Some(j)
    ensures SessionMoves(j, h, r, if ok then r.(fromO := r.fromO + [m], told := r.told || m.SealComplete?) else r)
  {
    hide S.Inv, RunOk, OTruth;
    if ok {
      var r' := r.(fromO := r.fromO + [m], told := r.told || m.SealComplete?);
      WrittenIsTrue(i, h, r, m, j);
      SendsKeepTruth(h, r, r', m);
    }
  }

  lemma WrittenIsTrue(i: I.Inc, h: HandoffId, r: Run, m: Message, j: I.Inc)
    requires InSession(i, h, r) && I.Step(i, I.Write(m, true)) == Some(j)
    ensures OTruth(m, h, r.(fromO := r.fromO + [m], told := r.told || m.SealComplete?))
    ensures r.told || m.SealComplete? ==> r.sealed && r.got >= 3
  {
    hide S.Inv;
  }

  lemma ReadMoves(i: I.Inc, h: HandoffId, r: Run, m: Message, j: I.Inc)
    requires InSession(i, h, r) && I.Step(i, I.Read(m)) == Some(j)
    requires r.got < |r.s.sentO| && r.s.sentO[r.got] == m && r.accepted
    ensures SessionMoves(j, h, r, r.(got := r.got + 1))
  {
    hide S.Local, I.GoodAck, RunOk;
    FlagsKeepTruth(h, r, r.(got := r.got + 1)) by { assert RunOk(h, r); ReadBound(h, r); }
    Script(h, r);
  }

  lemma ReadBound(h: HandoffId, r: Run)
    requires RunOk(h, r)
    ensures (r.accepted ==> r.o.Some?) && (r.sealed ==> r.drained)
  {
  }

  /** S's script, and what its last frame presupposes of the session. */
  lemma Script(h: HandoffId, r: Run)
    requires RunOk(h, r)
    ensures S.ScriptOk(r.s.sentO, h) && (|r.s.sentO| == 4 ==> r.told)
  {
  }

  lemma EndReadMoves(i: I.Inc, h: HandoffId, r: Run, e: I.Event, j: I.Inc)
    requires InSession(i, h, r) && I.Step(i, e) == Some(j)
    requires (e.ReadEof? && !r.s.oOpen) || e.ReadFail?
    ensures SessionMoves(j, h, r, if e.ReadFail? then r.(fault := r.fault || i.pc == I.LoopHead) else r)
  {
    hide S.Inv, RunOk;
    if e.ReadFail? {
      FlagsKeepTruth(h, r, r.(fault := r.fault || i.pc == I.LoopHead)) by { ReadBound(h, r); GotAccepted(h, r); }
    }
  }

  lemma GotAccepted(h: HandoffId, r: Run)
    requires RunOk(h, r)
    ensures r.got <= |r.s.sentO| && (r.got > 0 || r.fault ==> r.accepted)
  {
  }

  lemma HookMoves(i: I.Inc, h: HandoffId, r: Run, e: I.Event, j: I.Inc)
    requires InSession(i, h, r) && I.Step(i, e) == Some(j) && (e.Drain? || e.Release? || e.Seal?)
    ensures SessionMoves(j, h, r,
                         if e == I.Drain(true) then r.(drained := true) else if e.Release? then r.(sealed := true)
                         else r)
  {
    hide S.Inv, RunOk;
    var r' := if e == I.Drain(true) then r.(drained := true) else if e.Release? then r.(sealed := true) else r;
    FlagsKeepTruth(h, r, r') by { ReadBound(h, r); GotAccepted(h, r); }
  }

  lemma QuietMoves(i: I.Inc, h: HandoffId, r: Run, e: I.Event, j: I.Inc)
    requires InSession(i, h, r) && I.Step(i, e) == Some(j) && (e.Acquire? || e.GiveUp? || e.Leave?)
    ensures SessionMoves(j, h, r, r)
  {
    hide S.Inv, RunOk;
    GotAccepted(h, r);
  }

  lemma ResumeMoves(i: I.Inc, h: HandoffId, r: Run, ok: bool, j: I.Inc)
    requires InSession(i, h, r) && I.Step(i, I.Resume(ok)) == Some(j)
    ensures SessionMoves(j, h, r, r)
  {
    hide S.Inv, RunOk;
    GotAccepted(h, r);
  }

  /** Flock and writer bookkeeping of O's own step. */
  lemma OwnStep(g: World, p: Pid, q: Proc, i: I.Inc, e: I.Event, j: I.Inc)
    requires q.stage == Serving(i) && I.Inv(i) && I.Inv(j) && I.Step(i, e) == Some(j) && e != I.AcceptFatal
    requires (i.lock <==> g.lock == Some(p)) && (q.writer ==> g.lock == Some(p) && (g.kept ==> g.disk <= q.view))
    requires (i.mayWrite ==> q.writer) && (i.pc == I.Releasing ==> !q.writer) &&
             (g.kept && q.writer && !i.mayWrite ==> q.view == g.disk)
    requires e == I.Acquire(true) ==> g.lock == None
    ensures var q' := ProcAfter(g, q, e, j);
            && (j.lock <==> LockAfter(g, p, e) == Some(p))
            && (q'.writer ==> LockAfter(g, p, e) == Some(p) && (g.kept ==> DiskAfter(g, q, e) <= q'.view))
            && (j.mayWrite ==> q'.writer) && (j.pc == I.Releasing ==> !q'.writer)
            && (g.kept && q'.writer && !j.mayWrite ==> q'.view == DiskAfter(g, q, e))
  {
    hide I.OnMessage, I.AfterLeave, I.Wrote;
    if e.Read? { ReadKeepsLock(i, e.m); }
    if e.Leave? { LeaveKeepsLock(i); }
    if e.Write? { WriteKeepsLock(i, e.m, e.ok); }
  }

  lemma ReadKeepsLock(i: I.Inc, m: Message)
    ensures var j := I.OnMessage(i, m); j.lock == i.lock && j.mayWrite == i.mayWrite && j.session == i.session
    ensures I.OnMessage(i, m).pc != I.Releasing || i.pc == I.Releasing
    ensures i.pc == I.LoopHead ==> I.OnMessage(i, m).pc != I.Accepting
  {
  }

  lemma WriteKeepsLock(i: I.Inc, m: Message, ok: bool)
    requires I.Wrote(i, m, ok).Some?
    ensures var j := I.Wrote(i, m, ok).value;
            j.lock == i.lock && j.mayWrite == i.mayWrite && j.session == i.session && j.pc != I.Releasing &&
            j.pc != I.Accepting
  {
  }

  lemma LeaveKeepsLock(i: I.Inc)
    requires I.Inv(i) && I.Step(i, I.Leave).Some?
    ensures var j := I.Step(i, I.Leave).value; j.lock == i.lock && j.mayWrite == i.mayWrite && j.pc != I.Releasing
  {
  }

  /** The session field moves only on accept and on the way back to accept. */
  lemma SessionField(i: I.Inc, e: I.Event, j: I.Inc)
    requires I.Step(i, e) == Some(j) && !e.Accept?
    requires i.pc != I.Accepting
    ensures (j.session == i.session && j.pc != I.Accepting) || (j.session == None && j.pc == I.Accepting)
  {
    hide I.OnMessage, I.Wrote;
    if e.Read? { ReadKeepsLock(i, e.m); }
    if e.Write? { WriteKeepsLock(i, e.m, e.ok); }
  }

  /** In every session of this system the incumbent's transitions are safe: S never asks
      a sealed O to seal again. */
  lemma SessionIsSafe(i: I.Inc, h: HandoffId, r: Run, e: I.Event)
    requires InSession(i, h, r) && e != I.AcceptFatal
    ensures I.Safe(i, e)
  {
    hide RunOk, I.Inv;
  }

  lemma GoodIsInLine(i: I.Inc)
    requires I.Inv(i)
    ensures !(i.pc == I.Exited(false) && i.mayWrite)
  {
  }

  /** O's own bookkeeping and its place in the session after the step. */
  lemma OwnStepOk(g: World, p: Pid, e: I.Event, j: I.Inc, h: HandoffId, r: Run, r': Run)
    requires p in g.procs && h in g.runs && g.runs[h] == r && r.o == Some(p) && g.procs[p].stage.Serving?
    requires ProcOk(g, p, g.procs[p]) && InSession(g.procs[p].stage.i, h, r)
    requires I.Step(g.procs[p].stage.i, e) == Some(j) && !e.Accept? && e != I.AcceptFatal
    requires e == I.Acquire(true) ==> g.lock == None
    requires SessionMoves(j, h, r, r')
    ensures var q' := ProcAfter(g, g.procs[p], e, j);
            var g' := Moved(g, p, q', h, r', LockAfter(g, p, e), DiskAfter(g, g.procs[p], e));
            && ProcOk(g', p, q') && LinkO(g', h, r') && SessionIs(q', h) && SessionIs(g.procs[p], h)
            && (DiskAfter(g, g.procs[p], e) != g.disk ==> g.lock == Some(p))
  {
    hide RunOk, LinkO, I.Step, S.Inv, Session, I.Inv, I.Safe;
    var q := g.procs[p];
    var i := q.stage.i;
    SessionIsSafe(i, h, r, e);
    I.StepKeepsInvIffSafe(i, e);
    SessionField(i, e, j);
    GoodIsInLine(i);
    GoodIsInLine(j);
    OwnStep(g, p, q, i, e, j);
    var q' := ProcAfter(g, q, e, j);
    var g' := Moved(g, p, q', h, r', LockAfter(g, p, e), DiskAfter(g, q, e));
    AfterSameProc(g, q, e, j);
    hide ProcAfter;
    OwnProc(g, g', p, q, q', j, h, r, r');
    OwnLink(g', p, q', j, h, r, r');
  }

  lemma AfterSameProc(g: World, q: Proc, e: I.Event, j: I.Inc)
    ensures var q' := ProcAfter(g, q, e, j); q'.stage == Serving(j) && q'.origin == q.origin
  {
  }

  lemma OwnProc(g: World, g': World, p: Pid, q: Proc, q': Proc, j: I.Inc, h: HandoffId, r: Run, r': Run)
    requires ProcOk(g, p, q) && q'.stage == Serving(j) && q'.origin == q.origin && g'.kept == g.kept
    requires h in g.runs && g.runs[h] == r && g'.runs == g.runs[h := r'] && SessionMoves(j, h, r, r') &&
             r.o == Some(p) && r.accepted
    requires I.Inv(j) && !(j.pc == I.Exited(false) && j.mayWrite)
    requires (j.session == Some(h) && j.pc != I.Accepting) || (j.session == None && j.pc == I.Accepting)
    requires (j.lock <==> g'.lock == Some(p)) && (q'.writer ==> g'.lock == Some(p) && (g'.kept ==> g'.disk <= q'.view))
    requires (j.mayWrite ==> q'.writer) && (j.pc == I.Releasing ==> !q'.writer) &&
             (g'.kept && q'.writer && !j.mayWrite ==> q'.view == g'.disk)
    ensures ProcOk(g', p, q')
  {
    hide RunOk, Session, I.Inv;
  }

  lemma OwnLink(g': World, p: Pid, q': Proc, j: I.Inc, h: HandoffId, r: Run, r': Run)
    requires p in g'.procs && g'.procs[p] == q' && q'.stage == Serving(j) && r.o == Some(p) && SessionMoves(j, h, r, r')
    ensures LinkO(g', h, r')
  {
    hide RunOk, Session;
  }

  /** Assembling one step of O inside a session. */
  lemma SessionStepKeepsInv(g: World, p: Pid, e: I.Event, j: I.Inc, r': Run)
    requires Inv(g) && p in g.procs && g.procs[p].stage.Serving? && g.procs[p].stage.i.session.Some?
    requires I.Step(g.procs[p].stage.i, e) == Some(j) && !e.Accept? && e != I.AcceptFatal
    requires e == I.Acquire(true) ==> g.lock == None
    requires var h := g.procs[p].stage.i.session.value; h in g.runs && SessionMoves(j, h, g.runs[h], r')
    ensures Inv(Moved(g, p, ProcAfter(g, g.procs[p], e, j), g.procs[p].stage.i.session.value, r', LockAfter(g, p, e),
                      DiskAfter(g, g.procs[p], e)))
  {
    hide RunOk, I.Step, S.Inv, Session, I.Inv, ProcOk, LinkO, LinkN;
    var h := g.procs[p].stage.i.session.value;
    EnterSession(g, p);
    OwnStepOk(g, p, e, j, h, g.runs[h], r');
    FrameServing(g, p, ProcAfter(g, g.procs[p], e, j), h, r', LockAfter(g, p, e), DiskAfter(g, g.procs[p], e)) by {
      assert OnlyMine(g, p, LockAfter(g, p, e));
    }
  }

  lemma EnterSession(g: World, p: Pid)
    requires Inv(g) && p in g.procs && g.procs[p].stage.Serving? && g.procs[p].stage.i.session.Some?
    ensures var i := g.procs[p].stage.i;
            && ProcOk(g, p, g.procs[p])
            && i.session.value in g.runs && g.runs[i.session.value].o == Some(p) && g.runs[i.session.value].accepted
            && InSession(i, i.session.value, g.runs[i.session.value])
  {
    hide RunOk, Session, I.Inv;
    assert ProcOk(g, p, g.procs[p]);
    var h := g.procs[p].stage.i.session.value;
    assert RunOk(h, g.runs[h]) && LinkO(g, h, g.runs[h]);
  }

  lemma AcceptKeepsInv(g: World, p: Pid, c: HandoffId, j: I.Inc)
    requires Inv(g) && p in g.procs && g.procs[p].stage.Serving? && I.Step(g.procs[p].stage.i, I.Accept(c)) == Some(j)
    requires c in g.runs && g.runs[c].o == Some(p) && !g.runs[c].accepted
    ensures Inv(Moved(g, p, g.procs[p].(stage := Serving(j)), c, g.runs[c].(accepted := true), g.lock, g.disk))
  {
    hide RunOk, LinkO, LinkN, ProcOk, I.Step, Grows;
    var q := g.procs[p];
    var r' := g.runs[c].(accepted := true);
    var q' := q.(stage := Serving(j));
    AcceptOk(g, Moved(g, p, q', c, r', g.lock, g.disk), p, q, c, g.runs[c], j);
    FrameServing(g, p, q', c, r', g.lock, g.disk);
  }

  /** The accepting process and the run it accepts. */
  lemma AcceptOk(g: World, g': World, p: Pid, q: Proc, c: HandoffId, r: Run, j: I.Inc)
    requires ProcOk(g, p, q) && RunOk(c, r) && LinkO(g, c, r) && r.o == Some(p) && !r.accepted
    requires p in g.procs && g.procs[p] == q && q.stage.Serving? && I.Step(q.stage.i, I.Accept(c)) == Some(j)
    requires c in g.runs && g.runs[c] == r &&
             g' == Moved(g, p, q.(stage := Serving(j)), c, r.(accepted := true), g.lock, g.disk)
    ensures RunOk(c, r.(accepted := true)) && Grows(r, r.(accepted := true))
    ensures LinkO(g', c, r.(accepted := true)) && ProcOk(g', p, q.(stage := Serving(j)))
    ensures SessionIs(q, c) && SessionIs(q.(stage := Serving(j)), c)
  {
    hide S.Inv;
    FlagsKeepTruth(c, r, r.(accepted := true));
  }

  lemma StepMoves(i: I.Inc, h: HandoffId, r: Run, e: I.Event, j: I.Inc)
    requires InSession(i, h, r) && I.Step(i, e) == Some(j) && !e.Accept? && e != I.AcceptFatal
    requires e.Read? ==> r.got < |r.s.sentO| && r.s.sentO[r.got] == e.m && r.accepted
    requires e.ReadEof? ==> !r.s.oOpen
    ensures SessionMoves(j, h, r, RunAfter(i, r, e))
  {
    hide InSession, SessionMoves, I.Step;
    match e
    case Write(m, ok) => WriteMoves(i, h, r, m, ok, j);
    case Read(m) => ReadMoves(i, h, r, m, j);
    case ReadEof => EndReadMoves(i, h, r, e, j);
    case ReadFail => EndReadMoves(i, h, r, e, j);
    case Drain(_) => HookMoves(i, h, r, e, j);
    case Seal(_) => HookMoves(i, h, r, e, j);
    case Release => HookMoves(i, h, r, e, j);
    case Resume(ok) => ResumeMoves(i, h, r, ok, j);
    case _ => QuietMoves(i, h, r, e, j);
  }

  /** `IncAct` is the move described by the functions above. */
  lemma IncActIsMove(g: World, p: Pid, e: I.Event, h: HandoffId)
    requires IncAct(g, p, e).Some? && !e.Accept? && e != I.AcceptFatal
    requires g.procs[p].stage.i.session == Some(h) && h in g.runs
    ensures var q := g.procs[p];
            var j := I.Step(q.stage.i, e).value;
            && IncAct(g, p, e).value ==
               Moved(g, p, ProcAfter(g, q, e, j), h, RunAfter(q.stage.i, g.runs[h], e), LockAfter(g, p, e),
                     DiskAfter(g, q, e))
            && (e.Read? ==> g.runs[h].got < |g.runs[h].s.sentO| && g.runs[h].s.sentO[g.runs[h].got] == e.m)
            && (e.ReadEof? ==> !g.runs[h].s.oOpen) && (e == I.Acquire(true) ==> g.lock == None)
  {
    hide I.Step;
    assert g.runs[h := g.runs[h]] == g.runs;
  }

  /** A process that left `serve` does nothing more there. */
  lemma ExitedIsFinal(i: I.Inc, e: I.Event)
    requires I.Step(i, e).Some?
    ensures !i.pc.Exited?
  {
  }

  /** A process drops its guard and goes on. */
  lemma StrandKeepsInv(g: World, p: Pid, q': Proc)
    requires Inv(g) && p in g.procs && IsStranded(q') && q' == g.procs[p].(stage := q'.stage)
    requires match g.procs[p].stage
             case Booting(b) => q'.stage.Booting? && (b.Announce? || b.Bind? || b == B.ColdBind)
             case Serving(i) => q'.stage.Serving? && i.pc == I.Accepting && q'.stage.i.session == i.session
             case Dead => false
    ensures Inv(Strand(g, p, q'))
  {
    hide RunOk, LinkO, LinkN, I.Inv, Grows;
    var g' := Strand(g, p, q');
    var q := g.procs[p];
    assert ProcOk(g, p, q);
    assert ProcOk(g', p, q');
    assert q.stage.Serving? ==> q.stage.i.session.None?;
    hide ProcOk;
    assert RunsGrow(g, g') by { forall x: Run ensures Grows(x, x) { GrowsRefl(x); } }
    ProcsStay(g, g', p);
    forall h | h in g'.runs ensures LinkO(g', h, g'.runs[h]) && LinkN(g', h, g'.runs[h]) {
      AnnouncedIsLocked(h, g.runs[h]);
      StrandLinks(g, g', p, q, q', h, g.runs[h]);
    }
  }

  lemma StrandLinks(g: World, g': World, p: Pid, q: Proc, q': Proc, h: HandoffId, r: Run)
    requires RunOk(h, r) && LinkO(g, h, r) && LinkN(g, h, r) && (r.announced ==> r.locked)
    requires p in g.procs && g.procs[p] == q && g'.procs == g.procs[p := q'] && q' == q.(stage := q'.stage)
    requires match q.stage
             case Booting(b) => q'.stage == Booting(B.Stranded) && (b.Announce? || b.Bind? || b == B.ColdBind)
             case Serving(i) => q'.stage.Serving? && i.session.None? && q'.stage.i.session.None?
             case Dead => false
    ensures LinkO(g', h, r) && LinkN(g', h, r)
  {
    hide RunOk, Session;
  }

  lemma AnnouncedIsLocked(h: HandoffId, r: Run)
    requires RunOk(h, r)
    ensures r.announced ==> r.locked
  {
  }

  lemma IncActKeepsInv(g: World, p: Pid, e: I.Event)
    requires Inv(g) && IncAct(g, p, e).Some?
    ensures Inv(IncAct(g, p, e).value)
  {
    hide RunOk, LinkO, LinkN, I.Inv, Session, I.OnMessage, I.Wrote, I.Resumed, I.AfterLeave;
    if e == I.AcceptFatal {
      assert ProcOk(g, p, g.procs[p]);
      AcceptingWrites(g.procs[p].stage.i, e);
      StrandKeepsInv(g, p, g.procs[p].(stage := Serving(I.Step(g.procs[p].stage.i, e).value)));
    } else {
      IncStepKeepsInv(g, p, e);
    }
  }

  lemma AcceptingWrites(i: I.Inc, e: I.Event)
    requires I.Inv(i) && i.pc == I.Accepting
    ensures i.mayWrite
  {
  }

  lemma IncStepKeepsInv(g: World, p: Pid, e: I.Event)
    requires Inv(g) && IncAct(g, p, e).Some? && e != I.AcceptFatal
    ensures Inv(IncAct(g, p, e).value)
  {
    hide RunOk, LinkO, LinkN, I.Step, I.Inv, Session;
    var q := g.procs[p];
    var i, j := q.stage.i, I.Step(q.stage.i, e).value;
    assert ProcOk(g, p, q);
    ExitedIsFinal(i, e);
    if e.Accept? {
      AcceptKeepsInv(g, p, e.conn, j);
      assert IncAct(g, p, e).value ==
             Moved(g, p, q.(stage := Serving(j)), e.conn, g.runs[e.conn].(accepted := true), g.lock, g.disk);
    } else {
      EnterSession(g, p);
      var h := i.session.value;
      IncActIsMove(g, p, e, h);
      StepMoves(i, h, g.runs[h], e, j);
      SessionStepKeepsInv(g, p, e, j, RunAfter(i, g.runs[h], e));
    }
  }

  // ---------------------------------------------------------------- booting steps

  lemma BootRunGrows(p: Pid, b: B.Boot, r: Run, e: B.Event)
    ensures var r' := BootRunAfter(p, b, r, e); Grows(r, r') && r'.s == r.s && r'.o == r.o
  {
  }

  /** N takes the flock only after Begin, and announces only with the flock. */
  lemma BootHasFlock(q: Proc, h: HandoffId, r: Run, e: B.Event)
    requires q.stage.Booting? && NStage(q, h, r) && B.Next(q.stage.b, e).Some? && (e.WroteReady? || e.Acquired?)
    ensures e.Acquired? ==> r.s.began
    ensures e.WroteReady? ==> r.locked && q.stage.b == B.Announce(h)
  {
  }

  /** Whatever N writes while S waits for its Hello is that Hello. */
  lemma BootSpeaks(h: HandoffId, q: Proc, r: Run, e: B.Event)
    requires RunOk(h, r) && q.stage.Booting? && NStage(q, h, r) && B.Next(q.stage.b, e).Some?
    requires e.Beat? || e.WroteReady?
    ensures r.s.pc != S.HelloN
  {
    hide S.Facts;
  }

  /** The run's truths after a step of its successor. */
  lemma BootRunOk(h: HandoffId, p: Pid, q: Proc, r: Run, e: B.Event)
    requires RunOk(h, r) && q.stage.Booting? && NStage(q, h, r) && r.s.n == Some(p)
    requires (B.Next(q.stage.b, e).Some? && !e.AnnounceFailed? && !e.BindFailed?) || e.Bound?
    ensures var r' := BootRunAfter(p, q.stage.b, r, e); RunOk(h, r') && Grows(r, r') && r'.s == r.s && r'.o == r.o
  {
    hide S.Inv, Grows, B.Next;
    var r' := BootRunAfter(p, q.stage.b, r, e);
    BootRunGrows(p, q.stage.b, r, e);
    if e.WroteReady? || e.Acquired? { BootHasFlock(q, h, r, e); }
    if e.WroteReady? || e.Beat? { BootSpeaks(h, q, r, e); }
    assert forall m :: m in r'.toN ==> m in r.toN;
    forall m | m in r'.toN ensures ToNTruth(m, h, r') { assert ToNTruth(m, h, r); }
    forall m | m in r'.fromO ensures OTruth(m, h, r') { assert OTruth(m, h, r); }
    forall m | m in r'.fromN ensures FromNTruth(m, h, r') { assert m in r.fromN ==> FromNTruth(m, h, r); }
  }

  /** The successor's own place in the run after its step. */
  lemma BootStage(g: World, h: HandoffId, p: Pid, q: Proc, r: Run, e: B.Event)
    requires RunOk(h, r) && q.stage.Booting? && NStage(q, h, r)
    requires (B.Next(q.stage.b, e).Some? && !e.AnnounceFailed? && !e.BindFailed?) ||
             (e.Bound? && (q.stage.b.Bind? || q.stage.b == B.ColdBind))
    requires e.Got? ==> r.toN != [] && r.toN[0] == e.m
    ensures NStage(BootProcAfter(g, q, q.stage.b, e), h, BootRunAfter(p, q.stage.b, r, e))
  {
    hide S.Inv;
    if e.Got? { assert e.m in r.toN; assert ToNTruth(e.m, h, r); }
  }

  /** Flock and writer bookkeeping of a booting process. */
  lemma BootProcOk(g: World, g': World, p: Pid, q: Proc, e: B.Event)
    requires ProcOk(g, p, q) && q.stage.Booting?
    requires (B.Next(q.stage.b, e).Some? && !e.AnnounceFailed? && !e.BindFailed?) ||
             (e.Bound? && (q.stage.b.Bind? || q.stage.b == B.ColdBind))
    requires g'.disk == g.disk && g'.kept == g.kept && g'.lock == (if e.Acquired? then Some(p) else g.lock) &&
             (e.Acquired? ==> g.lock == None)
    requires q.origin.Some? ==> q.origin.value in g'.runs && g'.runs[q.origin.value].s.n == Some(p)
    ensures ProcOk(g', p, BootProcAfter(g, q, q.stage.b, e))
  {
  }

  lemma SpawnedStepKeepsInv(g: World, p: Pid, e: B.Event, h: HandoffId)
    requires Inv(g) && p in g.procs && g.procs[p].stage.Booting? && g.procs[p].origin == Some(h) && h in g.runs
    requires var b := g.procs[p].stage.b;
             (B.Next(b, e).Some? && !e.AnnounceFailed? && !e.BindFailed?) || (e.Bound? && (b.Bind? || b == B.ColdBind))
    requires e.Acquired? ==> g.lock == None
    requires e.Got? ==> g.runs[h].toN != [] && g.runs[h].toN[0] == e.m
    ensures var q := g.procs[p];
            Inv(Moved(g, p, BootProcAfter(g, q, q.stage.b, e), h, BootRunAfter(p, q.stage.b, g.runs[h], e),
                      if e.Acquired? then Some(p) else g.lock, g.disk))
  {
    hide RunOk, Session, NStage, ProcOk, Grows, B.Next, BootRunAfter;
    var q := g.procs[p];
    var r := g.runs[h];
    var r' := BootRunAfter(p, q.stage.b, r, e);
    var q' := BootProcAfter(g, q, q.stage.b, e);
    var lock := if e.Acquired? then Some(p) else g.lock;
    var g' := Moved(g, p, q', h, r', lock, g.disk);
    OriginLinks(g, p, h);
    BootRunOk(h, p, q, r, e);
    BootStage(g, h, p, q, r, e);
    BootProcOk(g, g', p, q, e);
    BootLinkO(g, h, p, q, r, e);
    FrameBoot(g, p, q', h, r', lock);
  }

  lemma OriginLinks(g: World, p: Pid, h: HandoffId)
    requires Inv(g) && p in g.procs && g.procs[p].origin == Some(h) && h in g.runs && g.procs[p].stage.Booting?
    ensures RunOk(h, g.runs[h]) && LinkO(g, h, g.runs[h]) && LinkN(g, h, g.runs[h]) && ProcOk(g, p, g.procs[p])
    ensures g.runs[h].s.n == Some(p) && NStage(g.procs[p], h, g.runs[h]) && g.runs[h].s.child != S.Reaped
  {
    hide RunOk, Session, NStage;
    assert ProcOk(g, p, g.procs[p]) && LinkN(g, h, g.runs[h]);
  }

  lemma BootLinkO(g: World, h: HandoffId, p: Pid, q: Proc, r: Run, e: B.Event)
    requires RunOk(h, r) && LinkO(g, h, r) && q.stage.Booting?
    requires RunOk(h, BootRunAfter(p, q.stage.b, r, e))
    ensures LinkO(g, h, BootRunAfter(p, q.stage.b, r, e))
  {
    hide RunOk;
  }

  lemma ColdStepKeepsInv(g: World, p: Pid, e: B.Event)
    requires Inv(g) && p in g.procs && g.procs[p].stage.Booting? && g.procs[p].origin.None?
    requires var b := g.procs[p].stage.b;
             (B.Next(b, e).Some? && !e.AnnounceFailed? && !e.BindFailed?) || (e.Bound? && (b.Bind? || b == B.ColdBind))
    requires e.Acquired? ==> g.lock == None
    ensures Inv(SetProc(g, p,
                        BootProcAfter(g, g.procs[p], g.procs[p].stage.b,
                                      e)).(lock := if e.Acquired? then Some(p) else g.lock))
  {
    hide RunOk, LinkO, LinkN, ProcOk, B.Next;
    var q := g.procs[p];
    var lock := if e.Acquired? then Some(p) else g.lock;
    BootProcOk(g, SetProc(g, p, BootProcAfter(g, q, q.stage.b, e)).(lock := lock), p, q, e);
    FrameCold(g, p, BootProcAfter(g, q, q.stage.b, e), lock);
  }

  lemma BootActKeepsInv(g: World, p: Pid, e: B.Event)
    requires Inv(g) && BootAct(g, p, e).Some?
    ensures Inv(BootAct(g, p, e).value)
  {
    hide RunOk, LinkO, LinkN, ProcOk;
    if e.AnnounceFailed? || e.BindFailed? {
      StrandKeepsInv(g, p, g.procs[p].(stage := Booting(B.Stranded)));
    } else {
      BootStepKeepsInv(g, p, e);
    }
  }

  /** `BootAct` of a spawned process is the move described by the functions above. */
  lemma BootActIsMove(g: World, p: Pid, e: B.Event, h: HandoffId)
    requires BootAct(g, p, e).Some? && g.procs[p].origin == Some(h) && h in g.runs && !e.AnnounceFailed? &&
             !e.BindFailed?
    ensures var q := g.procs[p];
            BootAct(g, p, e).value ==
                Moved(g, p, BootProcAfter(g, q, q.stage.b, e), h, BootRunAfter(p, q.stage.b, g.runs[h], e),
                      if e.Acquired? then Some(p) else g.lock, g.disk)
  {
    hide B.Next;
    assert g.runs[h := g.runs[h]] == g.runs;
  }

  lemma BootStepKeepsInv(g: World, p: Pid, e: B.Event)
    requires Inv(g) && BootAct(g, p, e).Some? && !e.AnnounceFailed? && !e.BindFailed?
    ensures Inv(BootAct(g, p, e).value)
  {
    hide RunOk, LinkO, LinkN, B.Next;
    var q := g.procs[p];
    assert ProcOk(g, p, q);
    if q.origin.Some? {
      BootActIsMove(g, p, e, q.origin.value);
      SpawnedStepKeepsInv(g, p, e, q.origin.value);
    } else {
      ColdStepKeepsInv(g, p, e);
    }
  }

  // ---------------------------------------------------------------- data and environment steps

  lemma ViewLinks(g: World, g': World, p: Pid, h: HandoffId, r: Run)
    requires RunOk(h, r) && LinkO(g, h, r) && LinkN(g, h, r) && p in g.procs && p in g'.procs
    requires g'.procs == g.procs[p := g.procs[p].(view := g'.procs[p].view)]
    ensures LinkO(g', h, r) && LinkN(g', h, r)
  {
    hide RunOk, Session;
  }

  lemma DataStepKeepsInv(g: World, a: Action)
    requires Inv(g) && Apply(g, a).Some? && (a.Ack? || a.Flush?)
    ensures Inv(Apply(g, a).value)
  {
    hide RunOk, LinkO, LinkN, I.Inv, SupAct, IncAct, BootAct, Kill;
    var g' := Apply(g, a).value;
    assert ProcOk(g, a.p, g.procs[a.p]);
    assert DataIsMine(g, a.p, g') && ProcOk(g', a.p, g'.procs[a.p]);
    hide ProcOk, Accepts;
    assert g'.procs == g.procs[a.p := g.procs[a.p].(view := g'.procs[a.p].view)];
    ProcsStay(g, g', a.p);
    forall h | h in g'.runs ensures LinkO(g', h, g'.runs[h]) && LinkN(g', h, g'.runs[h]) {
      ViewLinks(g, g', a.p, h, g.runs[h]);
    }
  }

  lemma NewRunOk(g: World, h: HandoffId)
    ensures RunOk(h, NEW_RUN) && LinkO(g, h, NEW_RUN) && LinkN(g, h, NEW_RUN)
  {
  }

  lemma StartKeepsInv(g: World, h: HandoffId)
    requires Inv(g) && h !in g.runs
    ensures Inv(SetRun(g, h, NEW_RUN))
  {
    hide RunOk, LinkO, LinkN, ProcOk, Grows;
    var g' := SetRun(g, h, NEW_RUN);
    NewRunOk(g, h);
    forall x | x in g'.runs ensures RunOk(x, g'.runs[x]) && LinkO(g', x, g'.runs[x]) && LinkN(g', x, g'.runs[x]) {
      LinksReadProcs(g, g', x, g'.runs[x]);
    }
    assert RunsGrow(g, g') by { forall x: Run ensures Grows(x, x) { GrowsRefl(x); } }
    forall x | x in g'.procs ensures ProcOk(g', x, g'.procs[x]) { ProcStays(g, g', x + 1, x, g.procs[x]); }
  }

  /** Every action keeps the invariant. */
  lemma ApplyKeepsInv(g: World, a: Action)
    requires Inv(g) && Apply(g, a).Some?
    ensures Inv(Apply(g, a).value)
  {
    hide Inv, SupAct, IncAct, BootAct, Kill, Accepts;
    match a
    case Launch(p) => LaunchKeepsInv(g, p);
    case StartRun(h) => StartKeepsInv(g, h);
    case SupDo(h, e, o, leak, keep) => SupActKeepsInv(g, h, e, o, leak, keep);
    case SupCrash(h) => CrashKeepsInv(g, h);
    case BootDo(p, e) => BootActKeepsInv(g, p, e);
    case IncDo(p, e) => IncActKeepsInv(g, p, e);
    case Die(p, keep) => KillKeepsInv(g, p, keep);
    case Ack(_, _) => DataStepKeepsInv(g, a);
    case Flush(_, _) => DataStepKeepsInv(g, a);
    case ClearStale => ClearKeepsInv(g);
  }

  lemma LaunchKeepsInv(g: World, p: Pid)
    requires Inv(g) && p !in g.procs
    ensures Inv(SetProc(g, p, Proc(Booting(B.ColdAcquire), None, false, [])))
  {
    hide RunOk, LinkO, LinkN;
    var q := Proc(Booting(B.ColdAcquire), None, false, []);
    FrameCold(g, p, q, g.lock);
    assert SetProc(g, p, q).(lock := g.lock) == SetProc(g, p, q);
  }

  lemma ClearKeepsInv(g: World)
    requires Inv(g)
    ensures Inv(g.(journal := None))
  {
    hide RunOk, Session, NStage, I.Inv;
    var g' := g.(journal := None);
    forall h | h in g'.runs ensures LinkO(g', h, g'.runs[h]) && LinkN(g', h, g'.runs[h]) {
      assert LinkO(g, h, g.runs[h]) && LinkN(g, h, g.runs[h]);
    }
    forall x | x in g'.procs ensures ProcOk(g', x, g'.procs[x]) { assert ProcOk(g, x, g.procs[x]); }
  }

  lemma {:induction false} ExecKeepsInv(disk: seq<Entry>, acts: seq<Action>)
    requires Exec(disk, acts).Some?
    ensures Inv(Exec(disk, acts).value)
  {
    hide Apply, RunOk, LinkO, LinkN, ProcOk;
    if acts != [] {
      ExecKeepsInv(disk, acts[..|acts| - 1]);
      ApplyKeepsInv(Exec(disk, acts[..|acts| - 1]).value, acts[|acts| - 1]);
    }
  }
}
