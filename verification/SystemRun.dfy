/** Complete runs of the composed system from a fresh machine: a handoff that commits, one
    that aborts after the successor took the flock, one that is journaled as committed
    although Commit was never delivered, two in which a failed read makes O and N contend
    for the flock, and two that end with two writers. */
module SystemRun {
  import opened Protocol
  import opened System
  import opened SystemProofs
  import opened SingleWriter
  import opened SystemTheorems
  import S = HandoffSupervisor
  import I = IncumbentSession
  import B = SuccessorBoot

  /** Handoff `h` from `o` to `n`, on a machine that starts with the log `base` on disk. */
  datatype Setting = Setting(o: Pid, n: Pid, h: HandoffId, base: seq<Entry>)

  type Case = c: Setting | c.o != c.n witness Setting(0, 1, 0, [])

  /** A world that holds nothing but the parties of one handoff. */
  datatype Snapshot = Snapshot(lock: Option<Pid>, disk: seq<Entry>, qo: Proc, qn: Option<Proc>, r: Run,
                               journal: Option<(HandoffId, Phase)>)

  function Of(c: Case, x: Snapshot): World {
    World(x.lock, x.disk, if x.qn.Some? then map[c.o := x.qo, c.n := x.qn.value] else map[c.o := x.qo], map[c.h := x.r],
          x.journal, true)
  }

  /** A run, where it ends, and what it acknowledged. */
  datatype Path = Path(acts: seq<Action>, now: Snapshot, acked: seq<Entry>)

  ghost predicate Reached(c: Case, t: Path) {
    Exec(c.base, t.acts) == Some(Of(c, t.now)) && GuardsKept(t.acts) && Acked(t.acts) == t.acked
  }

  // ---------------------------------------------------------------- single steps

  lemma Go(c: Case, t: Path, a: Action, now: Snapshot) returns (t': Path)
    requires Reached(c, t) && Apply(Of(c, t.now), a) == Some(Of(c, now)) && !DropsGuard(a)
    ensures Reached(c, t') && t'.now == now && t'.acked == if a.Ack? then t.acked + [a.w] else t.acked
  {
    hide Apply, Of, DropsGuard;
    t' := Path(t.acts + [a], now, if a.Ack? then t.acked + [a.w] else t.acked);
    assert t'.acts[..|t.acts|] == t.acts;
  }

  lemma OfMoved(c: Case, x: Snapshot)
    ensures forall q, r, lock, disk ::
              Moved(Of(c, x), c.o, q, c.h, r, lock, disk) ==
              Of(c, x.(qo := q, r := r, lock := lock, disk := disk))
    ensures forall q, r, lock, disk ::
              Moved(Of(c, x), c.n, q, c.h, r, lock, disk) ==
              Of(c, x.(qn := Some(q), r := r, lock := lock, disk := disk))
    ensures c.o in Of(c, x).procs && Of(c, x).procs[c.o] == x.qo && c.h in Of(c, x).runs && Of(c, x).runs[c.h] == x.r
    ensures if x.qn.Some? then c.n in Of(c, x).procs && Of(c, x).procs[c.n] == x.qn.value else c.n !in Of(c, x).procs
  {
    var g := Of(c, x);
    forall q, r, lock, disk
        ensures Moved(g, c.o, q, c.h, r, lock, disk) == Of(c, x.(qo := q, r := r, lock := lock, disk := disk)) {
      assert g.procs[c.o := q] == Of(c, x.(qo := q)).procs && g.runs[c.h := r] == map[c.h := r];
    }
    forall q, r, lock, disk
        ensures Moved(g, c.n, q, c.h, r, lock, disk) == Of(c, x.(qn := Some(q), r := r, lock := lock, disk := disk)) {
      assert g.procs[c.n := q] == Of(c, x.(qn := Some(q))).procs && g.runs[c.h := r] == map[c.h := r];
    }
  }

  predicate SupCan(c: Case, x: Snapshot, e: S.Event) {
    match e
    case RecvO(m) => x.r.fromO == [m]
    case RecvN(m) => x.r.fromN == [m]
    case SendO(_, ok) => ok ==>
        x.r.o == Some(c.o) && x.r.accepted && x.qo.stage.Serving? && x.qo.stage.i.session == Some(c.h) &&
        Connected(x.qo.stage.i.pc)
    case SendN(_, ok) => ok ==>
        x.r.s.n == Some(c.n) && x.qn.Some? && x.qn.value.stage.Booting? && !x.qn.value.stage.b.Bind? &&
        !x.qn.value.stage.b.Stranded?
    case _ => true
  }

  lemma SupGo(c: Case, t: Path, e: S.Event, s: S.Sup) returns (t': Path)
    requires Reached(c, t) && S.Step(t.now.r.s, c.h, e) == Some(s) && SupCan(c, t.now, e) && IsPlain(e)
    ensures Reached(c, t') && t'.acked == t.acked
    ensures t'.now == t.now.(r := SupRun(t.now.r, e, s, 0, false), journal := SupJournal(Of(c, t.now), c.h, e, false))
    ensures (e.RecvO? ==> t'.now.r.fromO == []) && (e.RecvN? ==> t'.now.r.fromN == [])
  {
    hide S.Step, Reached, Kill;
    var g := Of(c, t.now);
    OfMoved(c, t.now);
    var now := t.now.(r := SupRun(t.now.r, e, s, 0, false), journal := SupJournal(g, c.h, e, false));
    assert SupDone(g, c.h, t.now.r, s, e, 0, false, 0).Some?;
    PlainIsMove(g, c.h, t.now.r, s, e, 0, false, 0);
    assert g.runs[c.h := now.r] == map[c.h := now.r];
    t' := Go(c, t, SupDo(c.h, e, 0, false, 0), now);
  }

  predicate IncCan(x: Snapshot, e: I.Event) {
    match e
    case Accept(_) => false
    case AcceptFatal => false
    case Write(_, ok) => ok ==> x.r.s.oOpen
    case Read(m) => x.r.got < |x.r.s.sentO| && x.r.s.sentO[x.r.got] == m
    case ReadEof => false
    case Acquire(ok) => ok ==> x.lock == None
    case _ => true
  }

  lemma IncGo(c: Case, t: Path, e: I.Event, j: I.Inc) returns (t': Path)
    requires Reached(c, t) && t.now.qo.stage.Serving? && t.now.qo.stage.i.session == Some(c.h)
    requires I.Step(t.now.qo.stage.i, e) == Some(j) && IncCan(t.now, e)
    ensures Reached(c, t') && t'.acked == t.acked
    ensures var x, g := t.now, Of(c, t.now);
            t'.now == x.(qo := ProcAfter(g, x.qo, e, j), r := RunAfter(x.qo.stage.i, x.r, e),
                         lock := LockAfter(g, c.o, e), disk := DiskAfter(g, x.qo, e))
  {
    hide I.Step, Reached;
    var x, g := t.now, Of(c, t.now);
    OfMoved(c, x);
    IncActIsMove(g, c.o, e, c.h);
    t' := Go(c, t, IncDo(c.o, e),
             x.(qo := ProcAfter(g, x.qo, e, j), r := RunAfter(x.qo.stage.i, x.r, e), lock := LockAfter(g, c.o, e),
                disk := DiskAfter(g, x.qo, e)));
  }

  predicate BootCan(c: Case, x: Snapshot, e: B.Event) {
    && x.qn.Some? && x.qn.value.stage.Booting? && x.qn.value.origin == Some(c.h)
    && match e
       case WroteHello => x.r.s.nOpen
       case Got(m) => x.r.toN == [m]
       case Acquired => x.lock == None
       case Opened => true
       case WroteReady => x.r.s.nOpen
       case Bound => x.qn.value.stage.b.Bind?
       case _ => false
  }

  lemma BootGo(c: Case, t: Path, e: B.Event) returns (t': Path)
    requires Reached(c, t) && BootCan(c, t.now, e) && (e.Bound? || B.Next(t.now.qn.value.stage.b, e).Some?)
    ensures Reached(c, t') && t'.acked == t.acked
    ensures var x, g := t.now, Of(c, t.now);
            t'.now == x.(qn := Some(BootProcAfter(g, x.qn.value, x.qn.value.stage.b, e)),
                         r := BootRunAfter(c.n, x.qn.value.stage.b, x.r, e), lock := if e.Acquired? then Some(c.n)
                         else x.lock)
    ensures e.Got? ==> t'.now.r.toN == []
  {
    hide B.Next, Reached;
    var x, g := t.now, Of(c, t.now);
    OfMoved(c, x);
    if e.WroteReady? { ReadyAtAnnounce(x.qn.value.stage.b); }
    BootActIsMove(g, c.n, e, c.h);
    t' := Go(c, t, BootDo(c.n, e),
             x.(qn := Some(BootProcAfter(g, x.qn.value, x.qn.value.stage.b, e)),
                r := BootRunAfter(c.n, x.qn.value.stage.b, x.r, e), lock := if e.Acquired? then Some(c.n) else x.lock));
  }

  lemma ReadyAtAnnounce(b: B.Boot)
    requires B.Next(b, B.WroteReady).Some?
    ensures b.Announce?
  {
  }

  lemma AckGo(c: Case, t: Path, p: Pid, w: Entry) returns (t': Path)
    requires Reached(c, t) && (p == c.o || (p == c.n && t.now.qn.Some?)) &&
             Accepts(if p == c.o then t.now.qo else t.now.qn.value)
    ensures Reached(c, t') && t'.acked == t.acked + [w]
    ensures t'.now == if p == c.o then t.now.(qo := t.now.qo.(view := t.now.qo.view + [w]))
                      else t.now.(qn := Some(t.now.qn.value.(view := t.now.qn.value.view + [w])))
  {
    hide Reached, Accepts;
    var x, g := t.now, Of(c, t.now);
    OfMoved(c, x);
    var q := g.procs[p].(view := g.procs[p].view + [w]);
    assert Moved(g, p, q, c.h, x.r, x.lock, x.disk) == SetProc(g, p, q);
    t' := Go(c, t, Ack(p, w), if p == c.o then x.(qo := q) else x.(qn := Some(q)));
  }

  // ---------------------------------------------------------------- milestones of a handoff

  /** The frames S writes to O in a handoff that commits. */
  function Line(c: Case, k: nat): Message {
    if k == 0 then HelloAck(1, c.h) else if k == 1 then PrepareHandoff(c.h, c.n, 0, 0)
    else if k == 2 then SealRequest(c.h) else Commit(c.h)
  }

  function Script(c: Case, k: nat): (ms: seq<Message>)
    ensures |ms| == k && forall i :: 0 <= i < k ==> ms[i] == Line(c, i)
  {
    if k == 0 then [] else Script(c, k - 1) + [Line(c, k - 1)]
  }

  /** S at `pc`: frames sent to O, the child, and how many of Drained, SealComplete, Begin
      and Ready are behind it. */
  function Sup(c: Case, pc: S.Pc, sent: nat, child: S.Child, seen: nat, dirty: bool): S.Sup {
    S.Sup(pc, child, if child == S.NotSpawned then None else Some(c.n), true, child != S.NotSpawned, Script(c, sent),
          seen >= 1, seen >= 2, seen >= 3, seen >= 4, dirty)
  }

  /** O inside the session. */
  function O(c: Case, pc: I.Pc, lock: bool, sealed: bool, drained: bool, mayWrite: bool): I.Inc {
    I.Inc(pc, lock, I.SessionState(if drained || pc == I.InDrain then Some(c.h) else None, sealed, drained), mayWrite,
          Some(c.h))
  }

  function OProc(i: I.Inc, writer: bool, view: seq<Entry>): Proc {
    Proc(Serving(i), None, writer, view)
  }

  function NProc(c: Case, b: B.Boot, writer: bool, view: seq<Entry>): Option<Proc> {
    Some(Proc(Booting(b), Some(c.h), writer, view))
  }

  /** O serves and S has been called. */
  function Started(c: Case, view: seq<Entry>): Snapshot {
    Snapshot(Some(c.o), c.base, Proc(Serving(I.START), None, true, view), None, NEW_RUN, None)
  }

  /** O and S have shaken hands. */
  function Greeted(c: Case, view: seq<Entry>): Snapshot {
    Started(c, view).(qo := OProc(O(c, I.LoopHead, true, false, false, true), true, view),
                      r := NEW_RUN.(s := Sup(c, S.Spawning, 1, S.NotSpawned, 0, false), o := Some(c.o),
                                    accepted := true, got := 1))
  }

  /** N waits for Begin. */
  function Spawned(c: Case, view: seq<Entry>): Snapshot {
    var x := Greeted(c, view);
    x.(qn := NProc(c, B.AwaitBegin(c.h), false, []), r := x.r.(s := Sup(c, S.JournalNegotiating, 1, S.Armed, 0, false)))
  }

  /** S is about to ask for the seal. */
  function DrainHeard(c: Case, view: seq<Entry>): Snapshot {
    var x := Spawned(c, view);
    x.(disk := view, qo := OProc(O(c, I.LoopHead, true, false, true, false), true, view),
       r := x.r.(s := Sup(c, S.SendSeal, 2, S.Armed, 1, true), got := 2, drained := true),
       journal := Some((c.h, Draining)))
  }

  /** O's seal hook has returned. */
  function Flushed(c: Case, view: seq<Entry>): Snapshot {
    var x := DrainHeard(c, view);
    x.(qo := OProc(O(c, I.Releasing, true, false, true, false), false, view),
       r := x.r.(s := Sup(c, S.AwaitSeal, 3, S.Armed, 1, true), got := 3))
  }

  /** O has sealed; S is about to write Begin. */
  function SealHeard(c: Case, view: seq<Entry>): Snapshot {
    var x := DrainHeard(c, view);
    x.(lock := None, qo := OProc(O(c, I.LoopHead, false, true, true, false), false, view),
       r := x.r.(s := Sup(c, S.SendBegin, 3, S.Armed, 2, true), got := 3, sealed := true, told := true),
       journal := Some((c.h, Sealing)))
  }

  /** N has been told to begin and has not acquired. */
  function BeginSeen(c: Case, view: seq<Entry>): Snapshot {
    var x := SealHeard(c, view);
    x.(qn := NProc(c, B.Acquire(c.h), false, []), journal := Some((c.h, AwaitingReady)),
       r := x.r.(s := Sup(c, S.AwaitReady, 3, S.Armed, 3, true)))
  }

  /** N holds the flock and has not opened the data. */
  function Begun(c: Case, view: seq<Entry>): Snapshot {
    var x := BeginSeen(c, view);
    x.(lock := Some(c.n), qn := NProc(c, B.Open(c.h), false, []), r := x.r.(locked := true))
  }

  /** S has accepted Ready and given up its right to kill N. */
  function Disarmed(c: Case, view: seq<Entry>): Snapshot {
    var x := Begun(c, view);
    x.(qn := NProc(c, B.Bind(c.h), true, view),
       r := x.r.(s := Sup(c, S.SendCommit, 3, S.Disarmed, 4, true), announced := true))
  }

  /** S aborted N and is about to kill it. */
  function Aborted(c: Case, view: seq<Entry>): Snapshot {
    var x := Begun(c, view);
    x.(r := x.r.(s := Sup(c, S.Killing(S.NotReady), 3, S.Armed, 3, true), toN := [Abort(c.h)]))
  }

  /** S killed N and told O to resume; O has not read it yet. */
  function ResumeSent(c: Case, view: seq<Entry>): Snapshot {
    var x := Aborted(c, view);
    x.(lock := None, qn := Some(Proc(Dead, Some(c.h), false, [])),
       r := x.r.(s := Sup(c, S.JournalResuming, 3, S.Reaped, 3,
                          true).(sentO := Script(c, 3) + [ResumeAfterAbort(c.h)])))
  }

  // ---------------------------------------------------------------- from one to the next

  lemma Extend(disk: seq<Entry>, acts: seq<Action>, g: World, a: Action, g': World) returns (acts': seq<Action>)
    requires Exec(disk, acts) == Some(g) && Apply(g, a) == Some(g') && GuardsKept(acts) && Acked(acts) == [] &&
             !DropsGuard(a) && !a.Ack?
    ensures Exec(disk, acts') == Some(g') && GuardsKept(acts') && Acked(acts') == []
  {
    hide Apply, DropsGuard;
    acts' := acts + [a];
    assert acts'[..|acts|] == acts;
  }

  lemma ColdStart(c: Case) returns (t: Path)
    ensures Reached(c, t) && t.now == Started(c, c.base) && t.acked == []
  {
    var g0 := SetRun(Boot(c.base), c.h, NEW_RUN);
    var g4 := Of(c, Started(c, c.base));
    assert Apply(Boot(c.base), StartRun(c.h)) == Some(g0);
    var g3 := ColdStartFrom(g0, c.o);
    assert Apply(g3, BootDo(c.o, B.Bound)) == Some(g4) by { BindSolo(c, g3); }
    hide Apply, SetRun, Of;
    var g1 := Apply(g0, Launch(c.o)).value;
    var g2 := Apply(g1, BootDo(c.o, B.Acquired)).value;
    var acts := Extend(c.base, [], Boot(c.base), StartRun(c.h), g0);
    acts := Extend(c.base, acts, g0, Launch(c.o), g1);
    acts := Extend(c.base, acts, g1, BootDo(c.o, B.Acquired), g2);
    acts := Extend(c.base, acts, g2, BootDo(c.o, B.Opened), g3);
    acts := Extend(c.base, acts, g3, BootDo(c.o, B.Bound), g4);
    t := Path(acts, Started(c, c.base), []);
  }

  lemma BindSolo(c: Case, g: World)
    requires g == World(Some(c.o), c.base, map[c.o := Proc(Booting(B.ColdBind), None, true, c.base)],
                        map[c.h := NEW_RUN], None, true)
    ensures Apply(g, BootDo(c.o, B.Bound)) == Some(Of(c, Started(c, c.base)))
  {
    var q := Proc(Serving(I.START), None, true, c.base);
    assert g.procs[c.o := q] == map[c.o := q];
  }

  lemma Connect(c: Case, t: Path, view: seq<Entry>) returns (t': Path)
    requires Reached(c, t) && t.now == Started(c, view)
    ensures Reached(c, t') && t'.acked == t.acked
    ensures t'.now == t.now.(r := NEW_RUN.(s := Sup(c, S.HelloO, 0, S.NotSpawned, 0, false), o := Some(c.o)))
  {
    hide Reached, S.Step, Kill;
    S.ConnectStep(S.START, c.h, true);
    OfMoved(c, t.now);
    var x := t.now.(r := NEW_RUN.(s := Sup(c, S.HelloO, 0, S.NotSpawned, 0, false), o := Some(c.o)));
    assert Of(c, t.now).runs[c.h := x.r] == map[c.h := x.r];
    t' := Go(c, t, SupDo(c.h, S.ConnectO(true), c.o, false, 0), x);
  }

  lemma Accept(c: Case, t: Path, q: Proc) returns (t': Path)
    requires Reached(c, t) && t.now.r.o == Some(c.o) && !t.now.r.accepted
    requires t.now.qo.stage.Serving? && t.now.qo.stage.i.pc == I.Accepting
    requires q == t.now.qo.(stage := Serving(t.now.qo.stage.i.(pc := I.Greeting, st := I.FRESH, session := Some(c.h))))
    ensures Reached(c, t') && t'.acked == t.acked && t'.now == t.now.(qo := q, r := t.now.r.(accepted := true))
  {
    hide Reached, I.Step;
    var x := t.now;
    OfMoved(c, x);
    I.AcceptSteps(x.qo.stage.i);
    assert Moved(Of(c, x), c.o, q, c.h, x.r.(accepted := true), x.lock, x.disk) ==
           Of(c, x.(qo := q, r := x.r.(accepted := true)));
    t' := Go(c, t, IncDo(c.o, I.Accept(c.h)), x.(qo := q, r := x.r.(accepted := true)));
  }

  predicate SupStep(c: Case, s: S.Sup, e: S.Event, s': S.Sup) { S.Step(s, c.h, e) == Some(s') }

  predicate IncStep(i: I.Inc, e: I.Event, j: I.Inc) { I.Step(i, e) == Some(j) }

  lemma GreetSteps(c: Case)
    ensures var hello := Hello(IncumbentSide, c.o, PROTO_MIN, PROTO_MAX);
            && IncStep(O(c, I.Greeting, true, false, false, true), I.Write(hello, true),
                       O(c, I.AwaitingAck, true, false, false, true))
            && IncStep(O(c, I.AwaitingAck, true, false, false, true), I.Read(HelloAck(1, c.h)),
                       O(c, I.LoopHead, true, false, false, true))
            && SupStep(c, Sup(c, S.HelloO, 0, S.NotSpawned, 0, false), S.RecvO(hello),
                       Sup(c, S.AckO(1), 0, S.NotSpawned, 0, false))
            && SupStep(c, Sup(c, S.AckO(1), 0, S.NotSpawned, 0, false), S.SendO(HelloAck(1, c.h), true),
                       Sup(c, S.Spawning, 1, S.NotSpawned, 0, false))
  {
    assert Speaks(PROTO_MIN, PROTO_MAX, 1) && Speaks(1, 1, 1);
  }

  lemma Greet(c: Case, t: Path, view: seq<Entry>) returns (t': Path)
    requires Reached(c, t) && t.now == Started(c, view)
    ensures Reached(c, t') && t'.acked == t.acked && t'.now == Greeted(c, view)
  {
    hide Reached, S.Step, I.Step;
    GreetSteps(c);
    var hello := Hello(IncumbentSide, c.o, PROTO_MIN, PROTO_MAX);
    t' := Connect(c, t, view);
    t' := Accept(c, t', OProc(O(c, I.Greeting, true, false, false, true), true, view));
    t' := IncGo(c, t', I.Write(hello, true), O(c, I.AwaitingAck, true, false, false, true));
    t' := SupGo(c, t', S.RecvO(hello), Sup(c, S.AckO(1), 0, S.NotSpawned, 0, false));
    t' := SupGo(c, t', S.SendO(HelloAck(1, c.h), true), Sup(c, S.Spawning, 1, S.NotSpawned, 0, false));
    t' := IncGo(c, t', I.Read(HelloAck(1, c.h)), O(c, I.LoopHead, true, false, false, true));
  }

  lemma Spawn(c: Case, t: Path, view: seq<Entry>) returns (t': Path)
    requires Reached(c, t) && t.now == Greeted(c, view)
    ensures Reached(c, t') && t'.acked == t.acked
    ensures t'.now == t.now.(qn := NProc(c, B.Greet, false, []),
                             r := t.now.r.(s := Sup(c, S.HelloN, 1, S.Armed, 0, false)))
  {
    hide Reached, S.Step;
    var x := t.now.(qn := NProc(c, B.Greet, false, []), r := t.now.r.(s := Sup(c, S.HelloN, 1, S.Armed, 0, false)));
    S.SpawnStep(t.now.r.s, c.h, c.n, true);
    OfMoved(c, t.now);
    assert Moved(Of(c, t.now), c.n, x.qn.value, c.h, x.r, x.lock, x.disk) == Of(c, x);
    t' := Go(c, t, SupDo(c.h, S.Spawn(c.n, true), 0, false, 0), x);
  }

  lemma GreetNSteps(c: Case)
    ensures var hello := Hello(SuccessorSide, c.n, PROTO_MIN, PROTO_MAX);
            && SupStep(c, Sup(c, S.HelloN, 1, S.Armed, 0, false), S.RecvN(hello),
                       Sup(c, S.AckN(1), 1, S.Armed, 0, false))
            && SupStep(c, Sup(c, S.AckN(1), 1, S.Armed, 0, false), S.SendN(HelloAck(1, c.h), true),
                       Sup(c, S.JournalNegotiating, 1, S.Armed, 0, false))
  {
    assert Speaks(PROTO_MIN, PROTO_MAX, 1);
  }

  lemma GreetN(c: Case, t: Path, view: seq<Entry>) returns (t': Path)
    requires Reached(c, t) && t.now == Greeted(c, view)
    ensures Reached(c, t') && t'.acked == t.acked && t'.now == Spawned(c, view)
  {
    hide Reached, S.Step, Script;
    GreetNSteps(c);
    t' := Spawn(c, t, view);
    t' := BootGo(c, t', B.WroteHello);
    t' := SupGo(c, t', S.RecvN(Hello(SuccessorSide, c.n, PROTO_MIN, PROTO_MAX)),
                Sup(c, S.AckN(1), 1, S.Armed, 0, false));
    t' := SupGo(c, t', S.SendN(HelloAck(1, c.h), true), Sup(c, S.JournalNegotiating, 1, S.Armed, 0, false));
    t' := BootGo(c, t', B.Got(HelloAck(1, c.h)));
  }

  lemma DrainSteps(c: Case)
    ensures && SupStep(c, Sup(c, S.JournalNegotiating, 1, S.Armed, 0, false), S.JournalSet(Negotiating, true),
                       Sup(c, S.SendPrepare, 1, S.Armed, 0, true))
            && SupStep(c, Sup(c, S.SendPrepare, 1, S.Armed, 0, true), S.SendO(Line(c, 1), true),
                       Sup(c, S.AwaitDrained, 2, S.Armed, 0, true))
            && SupStep(c, Sup(c, S.AwaitDrained, 2, S.Armed, 0, true), S.RecvO(Drained),
                       Sup(c, S.JournalDraining, 2, S.Armed, 1, true))
            && SupStep(c, Sup(c, S.JournalDraining, 2, S.Armed, 1, true), S.JournalSet(Draining, true),
                       Sup(c, S.SendSeal, 2, S.Armed, 1, true))
  {
  }

  lemma DrainIncSteps(c: Case)
    ensures && IncStep(O(c, I.LoopHead, true, false, false, true), I.Read(Line(c, 1)),
                       O(c, I.InDrain, true, false, false, true))
            && IncStep(O(c, I.InDrain, true, false, false, true), I.Drain(true),
                       O(c, I.TellDrained, true, false, true, false))
            && IncStep(O(c, I.TellDrained, true, false, true, false), I.Write(Drained, true),
                       O(c, I.LoopHead, true, false, true, false))
  {
  }

  lemma DrainO(c: Case, t: Path, view: seq<Entry>) returns (t': Path)
    requires Reached(c, t) && t.now == Spawned(c, view)
    ensures Reached(c, t') && t'.acked == t.acked && t'.now == DrainHeard(c, view)
  {
    hide Reached, S.Step, I.Step, Script, Line;
    DrainSteps(c);
    DrainIncSteps(c);
    t' := SupGo(c, t, S.JournalSet(Negotiating, true), Sup(c, S.SendPrepare, 1, S.Armed, 0, true));
    t' := SupGo(c, t', S.SendO(Line(c, 1), true), Sup(c, S.AwaitDrained, 2, S.Armed, 0, true));
    t' := IncGo(c, t', I.Read(Line(c, 1)), O(c, I.InDrain, true, false, false, true));
    t' := IncGo(c, t', I.Drain(true), O(c, I.TellDrained, true, false, true, false));
    t' := IncGo(c, t', I.Write(Drained, true), O(c, I.LoopHead, true, false, true, false));
    t' := SupGo(c, t', S.RecvO(Drained), Sup(c, S.JournalDraining, 2, S.Armed, 1, true));
    t' := SupGo(c, t', S.JournalSet(Draining, true), Sup(c, S.SendSeal, 2, S.Armed, 1, true));
  }

  lemma SealSteps(c: Case)
    ensures && SupStep(c, Sup(c, S.SendSeal, 2, S.Armed, 1, true), S.SendO(Line(c, 2), true),
                       Sup(c, S.AwaitSeal, 3, S.Armed, 1, true))
            && SupStep(c, Sup(c, S.AwaitSeal, 3, S.Armed, 1, true), S.RecvO(SealComplete(c.h)),
                       Sup(c, S.JournalSealing, 3, S.Armed, 2, true))
            && SupStep(c, Sup(c, S.JournalSealing, 3, S.Armed, 2, true), S.JournalSet(Sealing, true),
                       Sup(c, S.SendBegin, 3, S.Armed, 2, true))
  {
  }

  lemma SealIncSteps(c: Case)
    ensures && IncStep(O(c, I.LoopHead, true, false, true, false), I.Read(Line(c, 2)),
                       O(c, I.InSeal, true, false, true, false))
            && IncStep(O(c, I.InSeal, true, false, true, false), I.Seal(true),
                       O(c, I.Releasing, true, false, true, false))
            && IncStep(O(c, I.Releasing, true, false, true, false), I.Release,
                       O(c, I.TellSealed, false, true, true, false))
            && IncStep(O(c, I.TellSealed, false, true, true, false), I.Write(SealComplete(c.h), true),
                       O(c, I.LoopHead, false, true, true, false))
  {
  }

  lemma SealO(c: Case, t: Path, view: seq<Entry>) returns (t': Path)
    requires Reached(c, t) && t.now == DrainHeard(c, view)
    ensures Reached(c, t') && t'.acked == t.acked && t'.now == Flushed(c, view)
  {
    hide Reached, S.Step, I.Step, Script, Line;
    SealSteps(c);
    SealIncSteps(c);
    t' := SupGo(c, t, S.SendO(Line(c, 2), true), Sup(c, S.AwaitSeal, 3, S.Armed, 1, true));
    t' := IncGo(c, t', I.Read(Line(c, 2)), O(c, I.InSeal, true, false, true, false));
    t' := IncGo(c, t', I.Seal(true), O(c, I.Releasing, true, false, true, false));
  }

  lemma ReleaseO(c: Case, t: Path, view: seq<Entry>) returns (t': Path)
    requires Reached(c, t) && t.now == Flushed(c, view)
    ensures Reached(c, t') && t'.acked == t.acked && t'.now == SealHeard(c, view)
  {
    hide Reached, S.Step, I.Step, Script, Line;
    SealSteps(c);
    SealIncSteps(c);
    t' := IncGo(c, t, I.Release, O(c, I.TellSealed, false, true, true, false));
    t' := IncGo(c, t', I.Write(SealComplete(c.h), true), O(c, I.LoopHead, false, true, true, false));
    t' := SupGo(c, t', S.RecvO(SealComplete(c.h)), Sup(c, S.JournalSealing, 3, S.Armed, 2, true));
    t' := SupGo(c, t', S.JournalSet(Sealing, true), Sup(c, S.SendBegin, 3, S.Armed, 2, true));
  }

  lemma BeginN(c: Case, t: Path, view: seq<Entry>) returns (t': Path)
    requires Reached(c, t) && t.now == SealHeard(c, view)
    ensures Reached(c, t') && t'.acked == t.acked && t'.now == BeginSeen(c, view)
  {
    hide Reached;
    t' := SupGo(c, t, S.SendN(Begin(c.h), true), Sup(c, S.JournalAwaiting, 3, S.Armed, 3, true));
    t' := SupGo(c, t', S.JournalSet(AwaitingReady, true), Sup(c, S.AwaitReady, 3, S.Armed, 3, true));
    t' := BootGo(c, t', B.Got(Begin(c.h)));
  }

  lemma ReadyN(c: Case, t: Path, view: seq<Entry>) returns (t': Path)
    requires Reached(c, t) && t.now == Begun(c, view)
    ensures Reached(c, t') && t'.acked == t.acked && t'.now == Disarmed(c, view)
  {
    hide Reached;
    t' := BootGo(c, t, B.Opened);
    t' := BootGo(c, t', B.WroteReady);
    t' := SupGo(c, t', S.RecvN(Ready(c.h)), Sup(c, S.Disarming, 3, S.Armed, 4, true));
    t' := SupGo(c, t', S.Disarm, Sup(c, S.SendCommit, 3, S.Disarmed, 4, true));
  }

  /** The common part: `o` acknowledges `w` and seals, and `n` is told to begin. */
  lemma ToBegin(c: Case, w: Entry) returns (t: Path)
    ensures Reached(c, t) && t.acked == [w] && t.now == BeginSeen(c, c.base + [w])
  {
    var view := c.base + [w];
    t := ColdStart(c);
    t := AckGo(c, t, c.o, w);
    assert t.acked == [w] && t.now == Started(c, view);
    hide *;
    t := Greet(c, t, view);
    t := GreetN(c, t, view);
    t := DrainO(c, t, view);
    t := SealO(c, t, view);
    t := ReleaseO(c, t, view);
    t := BeginN(c, t, view);
  }

  /** And takes the flock. */
  lemma HandOver(c: Case, w: Entry) returns (t: Path)
    ensures Reached(c, t) && t.acked == [w] && t.now == Begun(c, c.base + [w])
  {
    hide Reached;
    t := ToBegin(c, w);
    t := BootGo(c, t, B.Acquired);
  }

  // ---------------------------------------------------------------- whole runs

  lemma CommitSteps(c: Case)
    ensures SupStep(c, Sup(c, S.SendCommit, 3, S.Disarmed, 4, true), S.SendO(Line(c, 3), true),
                    Sup(c, S.JournalCommitted, 4, S.Disarmed, 4, true))
    ensures IncStep(O(c, I.LoopHead, false, true, true, false), I.Read(Line(c, 3)),
                    O(c, I.Cleanup(I.CommitSeen), false, true, true, false))
    ensures IncStep(O(c, I.Cleanup(I.CommitSeen), false, true, true, false), I.Leave,
                    O(c, I.Exited(true), false, true, true, false))
  {
  }

  lemma CommitO(c: Case, t: Path, view: seq<Entry>) returns (t': Path)
    requires Reached(c, t) && t.now == Disarmed(c, view)
    ensures Reached(c, t') && t'.acked == t.acked
    ensures t'.now.lock == Some(c.n) && t'.now.qn == NProc(c, B.Bind(c.h), true, view)
    ensures t'.now.qo.stage.Serving? && t'.now.qo.stage.i.pc == I.Exited(true)
  {
    hide Reached, S.Step, I.Step, Script, Line;
    CommitSteps(c);
    t' := SupGo(c, t, S.SendO(Line(c, 3), true), Sup(c, S.JournalCommitted, 4, S.Disarmed, 4, true));
    t' := IncGo(c, t', I.Read(Line(c, 3)), O(c, I.Cleanup(I.CommitSeen), false, true, true, false));
    t' := IncGo(c, t', I.Leave, O(c, I.Exited(true), false, true, true, false));
  }

  /** For any initial log, processes, id and entries: a run in which `o` acknowledges `w`
      and hands over, leaves `serve` with Ok, and `n` goes on from the same log. */
  lemma HandoffCanCommit(c: Case, w: Entry, v: Entry) returns (acts: seq<Action>)
    ensures Exec(c.base, acts).Some? && GuardsKept(acts) && Acked(acts) == [w, v]
    ensures var g := Exec(c.base, acts).value;
            && c.o in g.procs && g.procs[c.o].stage.Serving? && g.procs[c.o].stage.i.pc == I.Exited(true)
            && c.n in g.procs && Accepts(g.procs[c.n]) && g.lock == Some(c.n) && Log(g) == c.base + [w, v]
  {
    var view := c.base + [w];
    var t := HandOver(c, w);
    t := ReadyN(c, t, view);
    t := CommitO(c, t, view);
    t := TakeOver(c, t, view, v);
    acts := t.acts;
    hide Exec, BootProcAfter;
    assert [w] + [v] == [w, v] && view + [v] == c.base + [w, v];
  }

  /** N binds the control socket and acknowledges a write. */
  lemma TakeOver(c: Case, t: Path, view: seq<Entry>, v: Entry) returns (t': Path)
    requires Reached(c, t) && t.now.qn == NProc(c, B.Bind(c.h), true, view)
    ensures Reached(c, t') && t'.acked == t.acked + [v] && t'.now.lock == t.now.lock && t'.now.qo == t.now.qo
    ensures t'.now.qn == Some(Proc(Serving(I.START), Some(c.h), true, view + [v]))
  {
    hide Reached, B.Next;
    t' := BootGo(c, t, B.Bound);
    t' := AckGo(c, t', c.n, v);
  }

  lemma KillSteps(c: Case)
    ensures SupStep(c, Sup(c, S.Killing(S.NotReady), 3, S.Armed, 3, true), S.KillReap,
                    Sup(c, S.SendResume, 3, S.Reaped, 3, true))
    ensures SupStep(c, Sup(c, S.SendResume, 3, S.Reaped, 3, true), S.SendO(ResumeAfterAbort(c.h), true),
                    Sup(c, S.JournalResuming, 3, S.Reaped, 3, true).(sentO := Script(c, 3) + [ResumeAfterAbort(c.h)]))
  {
  }

  lemma KillN(c: Case, t: Path, view: seq<Entry>) returns (t': Path)
    requires Reached(c, t) && t.now == Aborted(c, view)
    ensures Reached(c, t') && t'.acked == t.acked && t'.now == ResumeSent(c, view)
  {
    KillSteps(c);
    hide Reached, S.Step, Script;
    OfMoved(c, t.now);
    var s := Sup(c, S.SendResume, 3, S.Reaped, 3, true);
    var x := t.now.(lock := None, qn := Some(Proc(Dead, Some(c.h), false, [])), r := t.now.r.(s := s));
    assert Moved(Of(c, t.now), c.n, x.qn.value, c.h, x.r, None, x.disk) == Of(c, x);
    t' := Go(c, t, SupDo(c.h, S.KillReap, 0, false, 0), x);
    t' := SupGo(c, t', S.SendO(ResumeAfterAbort(c.h), true),
                Sup(c, S.JournalResuming, 3, S.Reaped, 3, true).(sentO := Script(c, 3) + [ResumeAfterAbort(c.h)]));
  }

  lemma AbortN(c: Case, t: Path, view: seq<Entry>) returns (t': Path)
    requires Reached(c, t) && t.now == Begun(c, view)
    ensures Reached(c, t') && t'.acked == t.acked && t'.now == Aborted(c, view)
  {
    hide Reached;
    t' := SupGo(c, t, S.FailN, Sup(c, S.AbortN(S.NotReady), 3, S.Armed, 3, true));
    t' := SupGo(c, t', S.SendN(Abort(c.h), true), Sup(c, S.Killing(S.NotReady), 3, S.Armed, 3, true));
    assert [] + [Abort(c.h)] == [Abort(c.h)];
  }

  lemma ResumeO(c: Case, t: Path, view: seq<Entry>) returns (t': Path)
    requires Reached(c, t) && t.now == ResumeSent(c, view)
    ensures Reached(c, t') && t'.acked == t.acked
    ensures t'.now == t.now.(lock := Some(c.o), qo := OProc(O(c, I.LoopHead, true, false, false, true), true, view),
                             r := t.now.r.(got := 4))
  {
    hide Reached, S.Step;
    var i := I.Inc(I.Reacquiring, false, I.SessionState(Some(c.h), true, true), false, Some(c.h));
    t' := IncGo(c, t, I.Read(ResumeAfterAbort(c.h)), i);
    t' := IncGo(c, t', I.Acquire(true), i.(pc := I.ResumeSealed, lock := true));
    t' := IncGo(c, t', I.Resume(true), I.START.(pc := I.LoopHead, session := Some(c.h)));
  }

  /** A run in which S gives up on a successor that already took the flock: it is dead, and
      `o` is back with the flock, accepting writes to the same log. */
  lemma HandoffCanAbort(c: Case, w: Entry, v: Entry) returns (acts: seq<Action>)
    ensures Exec(c.base, acts).Some? && GuardsKept(acts) && Acked(acts) == [w, v]
    ensures var g := Exec(c.base, acts).value;
            && c.n in g.procs && g.procs[c.n].stage.Dead? && c.h in g.runs && g.runs[c.h].locked
            && c.o in g.procs && Accepts(g.procs[c.o]) && g.lock == Some(c.o) && Log(g) == c.base + [w, v]
  {
    var view := c.base + [w];
    var t := HandOver(c, w);
    t := AbortN(c, t, view);
    t := KillN(c, t, view);
    t := ResumeO(c, t, view);
    t := AckGo(c, t, c.o, v);
    acts := t.acts;
    hide Exec;
    assert [w] + [v] == [w, v] && view + [v] == c.base + [w, v];
  }

  /** A run whose journal says Committed although Commit was never written to O. */
  lemma CommittedWithoutCommit(c: Case) returns (acts: seq<Action>)
    ensures Exec(c.base, acts).Some? && GuardsKept(acts)
    ensures var g := Exec(c.base, acts).value;
            g.journal == Some((c.h, Committed)) && c.h in g.runs && Commit(c.h) !in g.runs[c.h].s.sentO
  {
    var view := c.base + [0];
    var t := HandOver(c, 0);
    t := ReadyN(c, t, view);
    t := CommitLost(c, t, view);
    acts := t.acts;
    hide Exec;
  }

  lemma CommitLost(c: Case, t: Path, view: seq<Entry>) returns (t': Path)
    requires Reached(c, t) && t.now == Disarmed(c, view)
    ensures Reached(c, t') && t'.now.journal == Some((c.h, Committed)) && Commit(c.h) !in t'.now.r.s.sentO
  {
    hide Reached;
    t' := SupGo(c, t, S.SendO(Commit(c.h), false), Sup(c, S.JournalCommitted, 3, S.Disarmed, 4, true));
    t' := SupGo(c, t', S.JournalSet(Committed, true), Sup(c, S.Clearing(S.CommittedOk), 3, S.Disarmed, 4, true));
  }

  lemma FaultSteps(c: Case)
    ensures IncStep(O(c, I.LoopHead, false, true, true, false), I.ReadFail,
                    O(c, I.Cleanup(I.Failed), false, true, true, false))
    ensures IncStep(O(c, I.Cleanup(I.Failed), false, true, true, false), I.Leave,
                    O(c, I.Recovering, false, true, true, false))
    ensures IncStep(O(c, I.Recovering, false, true, true, false), I.Acquire(true),
                    O(c, I.ResumeRecovered, true, true, true, false))
  {
  }

  /** A read on the sealed O's side fails with the connection up. */
  lemma FaultO(c: Case, t: Path) returns (t': Path)
    requires Reached(c, t) && t.now.qo.stage == Serving(O(c, I.LoopHead, false, true, true, false))
    ensures Reached(c, t')
    ensures t'.now == t.now.(qo := t.now.qo.(stage := Serving(O(c, I.Recovering, false, true, true, false))),
                             r := t.now.r.(fault := true))
  {
    hide Reached, I.Step;
    FaultSteps(c);
    t' := IncGo(c, t, I.ReadFail, O(c, I.Cleanup(I.Failed), false, true, true, false));
    t' := IncGo(c, t', I.Leave, O(c, I.Recovering, false, true, true, false));
  }

  /** Why kill-before-re-acquire asks for no failed read: O's first attempt finds the flock
      with N, although S is at work and nobody else contends. */
  lemma FaultMeetsSuccessor(c: Case) returns (acts: seq<Action>)
    ensures Exec(c.base, acts).Some? && GuardsKept(acts)
    ensures var g := Exec(c.base, acts).value;
            && AboutToReacquire(g, c.o) && g.procs[c.o].stage.i.session == Some(c.h) && c.h in g.runs
            && !g.runs[c.h].s.pc.Crashed? && !g.runs[c.h].s.ready && OnlyContenders(g, g.runs[c.h])
            && g.lock == Some(c.n) == g.runs[c.h].s.n && IncAct(g, c.o, I.Acquire(true)).None?
  {
    var t := HandOver(c, 0);
    t := FaultO(c, t);
    acts := t.acts;
    OfMoved(c, t.now);
    hide Exec, I.Step;
  }

  /** Why begin exclusivity asks for the same: O takes the flock back before N, which was
      told to begin and now cannot acquire. */
  lemma FaultBeatsSuccessor(c: Case) returns (acts: seq<Action>)
    ensures Exec(c.base, acts).Some? && GuardsKept(acts)
    ensures var g := Exec(c.base, acts).value;
            c.h in g.runs &&
            var r := g.runs[c.h];
            && r.s.sawSealed && r.s.oOpen && |r.s.sentO| == 3 && OnlyContenders(g, r) && r.o == Some(c.o) == g.lock
            && c.n in g.procs && g.procs[c.n].stage == Booting(B.Acquire(c.h)) && BootAct(g, c.n, B.Acquired).None?
  {
    var t := ToBegin(c, 0);
    t := FaultO(c, t);
    t := TakeBack(c, t);
    acts := t.acts;
    OfMoved(c, t.now);
    hide Exec, B.Next;
  }

  lemma TakeBack(c: Case, t: Path) returns (t': Path)
    requires Reached(c, t) && t.now.lock == None &&
             t.now.qo.stage == Serving(O(c, I.Recovering, false, true, true, false))
    ensures Reached(c, t') && t'.now.r == t.now.r && t'.now.qn == t.now.qn && t'.now.lock == Some(c.o)
  {
    hide Reached, I.Step;
    FaultSteps(c);
    t' := IncGo(c, t, I.Acquire(true), O(c, I.ResumeRecovered, true, true, true, false));
  }

  /** A dropped guard and a cold start, at the end of any run that gets there. */
  lemma SecondWriter(c: Case, t: Path, drop: Action, x: Pid) returns (acts: seq<Action>)
    requires Reached(c, t) && DropsGuard(drop) && Apply(Of(c, t.now), drop).Some? && x !in Of(c, t.now).procs
    ensures Exec(c.base, acts).Some? && t.acts < acts && acts[|t.acts|] == drop
    ensures var g := Exec(c.base, acts).value;
            drop.p in g.procs && x in g.procs && drop.p != x && Accepts(g.procs[drop.p]) && Accepts(g.procs[x])
  {
    hide Apply, Inv, Of, DropsGuard;
    ExecKeepsInv(c.base, t.acts);
    var g' := DropAdmitsSecondWriter(Of(c, t.now), drop, x);
    acts := t.acts + [drop] + [Launch(x)] + [BootDo(x, B.Acquired)] + [BootDo(x, B.Opened)];
    ExecSteps(c.base, t.acts, drop, Launch(x), BootDo(x, B.Acquired), BootDo(x, B.Opened));
  }

  /** From a fresh machine: a fatal accept and a cold start end with two writers. */
  lemma TwoWritersAfterAccept(c: Case) returns (acts: seq<Action>)
    ensures Exec(c.base, acts).Some? && IncDo(c.o, I.AcceptFatal) in acts
    ensures var g := Exec(c.base, acts).value;
            c.o in g.procs && c.n in g.procs && Accepts(g.procs[c.o]) && Accepts(g.procs[c.n])
  {
    var t := ColdStart(c);
    acts := SecondWriter(c, t, IncDo(c.o, I.AcceptFatal), c.n);
    hide Exec;
  }

  /** So do a successor whose Ready write fails, and a cold start. */
  lemma TwoWritersAfterReady(c: Case, x: Pid) returns (acts: seq<Action>)
    requires x != c.o && x != c.n
    ensures Exec(c.base, acts).Some? && BootDo(c.n, B.AnnounceFailed) in acts
    ensures var g := Exec(c.base, acts).value;
            c.n in g.procs && x in g.procs && Accepts(g.procs[c.n]) && Accepts(g.procs[x])
  {
    var t := HandOver(c, 0);
    t := BootGo(c, t, B.Opened);
    acts := SecondWriter(c, t, BootDo(c.n, B.AnnounceFailed), x);
    hide Exec;
  }

  lemma ExecSteps(disk: seq<Entry>, acts: seq<Action>, a: Action, b: Action, d: Action, e: Action)
    requires Exec(disk, acts).Some? && Apply(Exec(disk, acts).value, a).Some?
    requires var g1 := Apply(Exec(disk, acts).value, a).value;
             Apply(g1, b).Some? && Apply(Apply(g1, b).value, d).Some? &&
             Apply(Apply(Apply(g1, b).value, d).value, e).Some?
    ensures var g1 := Apply(Exec(disk, acts).value, a).value;
            Exec(disk, acts + [a] + [b] + [d] + [e]) == Apply(Apply(Apply(g1, b).value, d).value, e)
  {
    hide Apply;
    var a1 := acts + [a];
    var a2 := a1 + [b];
    var a3 := a2 + [d];
    assert a1[..|a1| - 1] == acts && a2[..|a2| - 1] == a1 && a3[..|a3| - 1] == a2 && (a3 + [e])[..|a3|] == a3;
    assert Exec(disk, a1) == Apply(Exec(disk, acts).value, a);
    assert Exec(disk, a2) == Apply(Exec(disk, a1).value, b);
    assert Exec(disk, a3) == Apply(Exec(disk, a2).value, d);
  }
}
