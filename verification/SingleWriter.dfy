/** One writer, one log: what the composed system guarantees about the data directory over
    every run. */
module SingleWriter {
  import opened Protocol
  import opened System
  import opened SystemProofs
  import S = HandoffSupervisor
  import I = IncumbentSession
  import B = SuccessorBoot

  // ---------------------------------------------------------------- single writer

  /** Every process whose consumer may acknowledge writes holds the flock. */
  ghost predicate WritersLocked(g: World) {
    forall p :: p in g.procs && Accepts(g.procs[p]) ==> g.lock == Some(p)
  }

  lemma InvLocksWriters(g: World)
    requires Inv(g) && g.kept
    ensures WritersLocked(g)
  {
    hide RunOk, LinkO, LinkN, I.Inv;
    forall p | p in g.procs && Accepts(g.procs[p]) ensures g.lock == Some(p) {
      assert ProcOk(g, p, g.procs[p]);
    }
  }

  /** The history flag is about the run's actions. */
  lemma KeptStep(g: World, a: Action)
    requires Apply(g, a).Some?
    ensures Apply(g, a).value.kept <==> g.kept && !DropsGuard(a)
  {
    hide S.Step, I.Step, B.Next, OUp, NUp, Accepts;
  }

  lemma {:induction false} KeptIff(disk: seq<Entry>, acts: seq<Action>)
    requires Exec(disk, acts).Some?
    ensures Exec(disk, acts).value.kept <==> GuardsKept(acts)
  {
    hide Apply, DropsGuard;
    if acts != [] {
      KeptIff(disk, acts[..|acts| - 1]);
      KeptStep(Exec(disk, acts[..|acts| - 1]).value, acts[|acts| - 1]);
    }
  }

  /** An error that drops the guard frees the flock while the consumer goes on. */
  lemma DropUnlocksWriter(g: World, a: Action)
    requires Inv(g) && DropsGuard(a) && Apply(g, a).Some?
    ensures var g' := Apply(g, a).value;
            a.p in g'.procs && Accepts(g'.procs[a.p]) && g'.lock == None && g'.procs.Keys == g.procs.Keys
  {
    hide RunOk, LinkO, LinkN, SupAct, Kill;
    assert ProcOk(g, a.p, g.procs[a.p]);
  }

  /** In every world of the run, writers hold the flock. */
  ghost predicate AlwaysLocked(disk: seq<Entry>, acts: seq<Action>)
    requires Exec(disk, acts).Some?
  {
    && (acts != [] ==> AlwaysLocked(disk, acts[..|acts| - 1]))
    && WritersLocked(Exec(disk, acts).value)
  }

  /** Single writer, exactly: over every run, whoever acknowledges writes holds the one
      flock at all times if and only if no process was handed an error together with the
      loss of its lock guard. */
  lemma {:induction false} SingleWriterIffGuardsKept(disk: seq<Entry>, acts: seq<Action>)
    requires Exec(disk, acts).Some?
    ensures AlwaysLocked(disk, acts) <==> GuardsKept(acts)
  {
    hide Apply, WritersLocked, Inv, DropsGuard;
    ExecKeepsInv(disk, acts);
    KeptIff(disk, acts);
    if acts == [] {
      InvLocksWriters(Exec(disk, acts).value);
    } else {
      var front, a := acts[..|acts| - 1], acts[|acts| - 1];
      SingleWriterIffGuardsKept(disk, front);
      ExecKeepsInv(disk, front);
      KeptIff(disk, front);
      DropOrFine(Exec(disk, front).value, a);
      assert GuardsKept(acts) <==> GuardsKept(front) && !DropsGuard(a);
    }
  }

  lemma DropOrFine(g: World, a: Action)
    requires Inv(g) && Apply(g, a).Some?
    ensures g.kept ==> (WritersLocked(Apply(g, a).value) <==> !DropsGuard(a))
  {
    hide Inv, Apply, DropsGuard, Accepts;
    ApplyKeepsInv(g, a);
    KeptStep(g, a);
    if DropsGuard(a) { DropUnlocksWriter(g, a); } else if g.kept { InvLocksWriters(Apply(g, a).value); }
  }

  /** What the dropped guard costs: from any reachable world, the error at `a.p` and a
      cold start of any new process end with two processes acknowledging writes. */
  lemma DropAdmitsSecondWriter(g: World, a: Action, x: Pid) returns (g': World)
    requires Inv(g) && DropsGuard(a) && Apply(g, a).Some? && x !in g.procs
    ensures var g2 := Apply(Apply(g, a).value, Launch(x));
            g2.Some? &&
            var g3 := Apply(g2.value, BootDo(x, B.Acquired));
            g3.Some? && Apply(g3.value, BootDo(x, B.Opened)) == Some(g')
    ensures x != a.p && x in g'.procs && a.p in g'.procs && Accepts(g'.procs[x]) && Accepts(g'.procs[a.p])
  {
    DropUnlocksWriter(g, a);
    var g1 := Apply(g, a).value;
    assert x !in g1.procs && x != a.p;
    hide Inv, DropsGuard, SupAct, IncAct;
    g' := ColdStartFrom(g1, x);
  }

  /** A cold start on a free flock. */
  lemma ColdStartFrom(g: World, x: Pid) returns (g': World)
    requires g.lock == None && x !in g.procs
    ensures var g2 := Apply(g, Launch(x));
            g2.Some? &&
            var g3 := Apply(g2.value, BootDo(x, B.Acquired));
            g3.Some? && Apply(g3.value, BootDo(x, B.Opened)) == Some(g')
    ensures g' == g.(lock := Some(x), procs := g.procs[x := Proc(Booting(B.ColdBind), None, true, g.disk)])
  {
    hide SupAct, IncAct, Accepts;
    var g2 := SetProc(g, x, Proc(Booting(B.ColdAcquire), None, false, []));
    var g3 := SetProc(g2, x, Proc(Booting(B.ColdOpen), None, false, [])).(lock := Some(x));
    g' := SetProc(g3, x, Proc(Booting(B.ColdBind), None, true, g3.disk));
  }

  // ---------------------------------------------------------------- one log

  /** The one log all acknowledgements go to: the view of whoever has the writer open,
      the disk when nobody has. */
  function Log(g: World): seq<Entry> {
    if g.lock.Some? && g.lock.value in g.procs && g.procs[g.lock.value].writer then g.procs[g.lock.value].view
    else g.disk
  }

  /** The process that dies in this action, if any. */
  function Victim(g: World, a: Action): Option<Pid> {
    match a
    case Die(p, _) => Some(p)
    case SupDo(h, KillReap, _, _, _) => if h in g.runs then g.runs[h].s.n else None
    case _ => None
  }

  /** The action kills a process that has acknowledged writes it has not yet fsynced. */
  predicate Lossy(g: World, a: Action) {
    && Victim(g, a).Some? && Victim(g, a).value in g.procs
    && var q := g.procs[Victim(g, a).value]; q.writer && q.view != g.disk
  }

  lemma WriterIsHolder(g: World, p: Pid)
    requires Inv(g) && g.kept && p in g.procs && g.procs[p].writer
    ensures g.lock == Some(p) && Log(g) == g.procs[p].view && g.disk <= Log(g)
  {
    hide RunOk, LinkO, LinkN;
    assert ProcOk(g, p, g.procs[p]);
  }

  lemma LogExtendsDisk(g: World)
    requires Inv(g) && g.kept
    ensures g.disk <= Log(g)
  {
    hide RunOk, LinkO, LinkN, ProcOk;
    if g.lock.Some? && g.procs[g.lock.value].writer { WriterIsHolder(g, g.lock.value); }
  }

  lemma KillLog(g: World, p: Pid, keep: nat)
    requires Inv(g) && g.kept && p in g.procs
    ensures g.disk <= Log(Kill(g, p, keep)) <= Log(g)
    ensures !(g.procs[p].writer && g.procs[p].view != g.disk) ==> Log(Kill(g, p, keep)) == Log(g)
  {
    hide RunOk, LinkO, LinkN, ProcOk;
    LogExtendsDisk(g);
    if g.procs[p].writer { WriterIsHolder(g, p); }
    assert !g.procs[p].writer && g.lock == Some(p) ==> Log(g) == g.disk;
  }

  lemma SupLog(g: World, h: HandoffId, e: S.Event, o: Pid, leak: bool, keep: nat)
    requires Inv(g) && g.kept && SupAct(g, h, e, o, leak, keep).Some? && !e.KillReap?
    ensures Log(SupAct(g, h, e, o, leak, keep).value) == Log(g)
  {
    hide RunOk, LinkO, LinkN, ProcOk, S.Step, OUp, NUp;
  }

  lemma BootLog(g: World, p: Pid, e: B.Event)
    requires Inv(g) && g.kept && BootAct(g, p, e).Some? && !e.AnnounceFailed? && !e.BindFailed?
    ensures Log(BootAct(g, p, e).value) == Log(g)
  {
    hide RunOk, LinkO, LinkN;
    assert ProcOk(g, p, g.procs[p]);
  }

  lemma IncLog(g: World, p: Pid, e: I.Event)
    requires Inv(g) && g.kept && IncAct(g, p, e).Some? && e != I.AcceptFatal
    ensures Log(IncAct(g, p, e).value) == Log(g)
  {
    hide RunOk, LinkO, LinkN, I.Step, I.Inv, Session;
    var q := g.procs[p];
    assert ProcOk(g, p, q);
    if !e.Accept? {
      EnterSession(g, p);
      IncActIsMove(g, p, e, q.stage.i.session.value);
      OwnLog(g, p, q, e);
    }
  }

  /** The writer's own step moves data between its view and the disk, never in or out. */
  lemma OwnLog(g: World, p: Pid, q: Proc, e: I.Event)
    requires g.kept && p in g.procs && g.procs[p] == q && ProcOk(g, p, q) && q.stage.Serving? &&
             I.Step(q.stage.i, e).Some?
    requires e != I.AcceptFatal && !e.Accept? && (e == I.Acquire(true) ==> g.lock == None)
    ensures var q' := ProcAfter(g, q, e, I.Step(q.stage.i, e).value);
            Log(g.(procs := g.procs[p := q'], lock := LockAfter(g, p, e), disk := DiskAfter(g, q, e))) == Log(g)
  {
    hide I.Step;
    if e.Resume? { ResumeNeedsLock(q.stage.i, e.ok); }
    if e.Release? { ReleaseIsAfterSeal(q.stage.i); }
  }

  lemma ReleaseIsAfterSeal(i: I.Inc)
    requires I.Step(i, I.Release).Some?
    ensures i.pc == I.Releasing
  {
  }

  lemma ResumeNeedsLock(i: I.Inc, ok: bool)
    requires I.Inv(i) && I.Step(i, I.Resume(ok)).Some?
    ensures i.lock
  {
  }

  /** Refinement of a single append-only log, step by step: an acknowledgement appends
      its entry; a death may drop a suffix that was acknowledged but never fsynced, and
      only if there was one; nothing else changes the log. */
  lemma LogStep(g: World, a: Action)
    requires Inv(g) && g.kept && Apply(g, a).Some? && !DropsGuard(a)
    ensures var l, l' := Log(g), Log(Apply(g, a).value);
            && (a.Ack? ==> l' == l + [a.w])
            && (!a.Ack? ==> g.disk <= l' <= l)
            && (!a.Ack? && !Lossy(g, a) ==> l' == l)
  {
    hide RunOk, LinkO, LinkN, ProcOk, SupAct, BootAct, IncAct, Kill;
    LogExtendsDisk(g);
    match a
    case SupDo(h, e, o, leak, keep) =>
      if e.KillReap? { ReapLog(g, h, o, leak, keep); } else { SupLog(g, h, e, o, leak, keep); }
    case BootDo(p, e) => BootLog(g, p, e);
    case IncDo(p, e) => IncLog(g, p, e);
    case Die(p, keep) => KillLog(g, p, keep);
    case Ack(p, w) => WriterIsHolder(g, p);
    case Flush(p, keep) => WriterIsHolder(g, p);
    case _ =>
  }

  lemma ReapLog(g: World, h: HandoffId, o: Pid, leak: bool, keep: nat)
    requires Inv(g) && g.kept && SupAct(g, h, S.KillReap, o, leak, keep).Some?
    ensures var g' := SupAct(g, h, S.KillReap, o, leak, keep).value;
            && g.disk <= Log(g') <= Log(g)
            && (!Lossy(g, SupDo(h, S.KillReap, o, leak, keep)) ==> Log(g') == Log(g))
  {
    hide RunOk, LinkO, LinkN, ProcOk, S.Step, Inv;
    KillLog(g, g.runs[h].s.n.value, keep);
  }

  /** The entries acknowledged in a run, in order. */
  function Acked(acts: seq<Action>): seq<Entry> {
    if acts == [] then []
    else Acked(acts[..|acts| - 1]) + if acts[|acts| - 1].Ack? then [acts[|acts| - 1].w] else []
  }

  /** No process died with acknowledged writes it had not fsynced. */
  predicate NoLoss(disk: seq<Entry>, acts: seq<Action>) {
    acts != [] ==>
      && NoLoss(disk, acts[..|acts| - 1])
      && (Exec(disk, acts[..|acts| - 1]).Some? ==> !Lossy(Exec(disk, acts[..|acts| - 1]).value, acts[|acts| - 1]))
  }

  /** Conservation over whole runs: however many handoffs, aborts, resumes and supervisor
      crashes happened, the log is the initial one plus every acknowledged write in order,
      unless some process died on unsynced acknowledgements. */
  lemma {:induction false} AcknowledgedWritesSurvive(disk: seq<Entry>, acts: seq<Action>)
    requires Exec(disk, acts).Some? && GuardsKept(acts) && NoLoss(disk, acts)
    ensures Log(Exec(disk, acts).value) == disk + Acked(acts)
  {
    hide RunOk, LinkO, LinkN, ProcOk, Apply, Inv, Lossy, Log;
    if acts == [] {
      assert Log(Boot(disk)) == disk by { BootLogIsDisk(disk); }
    } else {
      var front, a := acts[..|acts| - 1], acts[|acts| - 1];
      AcknowledgedWritesSurvive(disk, front);
      ExecKeepsInv(disk, front);
      KeptIff(disk, front);
      LogStep(Exec(disk, front).value, a);
      assert Acked(acts) == Acked(front) + if a.Ack? then [a.w] else [];
    }
  }

  lemma BootLogIsDisk(disk: seq<Entry>)
    ensures Log(Boot(disk)) == disk
  {
  }

  /** `a` can be obtained from `b` by deleting entries. */
  predicate Subsequence(a: seq<Entry>, b: seq<Entry>) {
    if a == [] then true
    else if b == [] then false
    else if a[|a| - 1] == b[|b| - 1] && Subsequence(a[..|a| - 1], b[..|b| - 1]) then true
    else Subsequence(a, b[..|b| - 1])
  }

  lemma {:induction false} SubsequencePrefix(a: seq<Entry>, b: seq<Entry>, k: nat)
    requires Subsequence(a, b) && k <= |a|
    ensures Subsequence(a[..k], b)
    decreases |b|
  {
    if k == |a| {
      assert a[..k] == a;
    } else if k > 0 {
      var b' := b[..|b| - 1];
      if Subsequence(a, b') {
        SubsequencePrefix(a, b', k);
        SubsequenceGrow(a[..k], b', b[|b| - 1]);
      } else {
        assert a[..|a| - 1][..k] == a[..k];
        SubsequencePrefix(a[..|a| - 1], b', k);
        SubsequenceGrow(a[..k], b', b[|b| - 1]);
      }
      assert b' + [b[|b| - 1]] == b;
    }
  }

  lemma SubsequenceGrow(a: seq<Entry>, b: seq<Entry>, x: Entry)
    requires Subsequence(a, b)
    ensures Subsequence(a, b + [x]) && Subsequence(a + [x], b + [x])
  {
    assert (b + [x])[..|b|] == b && (a + [x])[..|a|] == a;
  }

  /** Even with losses the surviving log never reorders, duplicates or invents an entry. */
  lemma {:induction false} LogIsSubsequence(disk: seq<Entry>, acts: seq<Action>)
    requires Exec(disk, acts).Some? && GuardsKept(acts)
    ensures Subsequence(Log(Exec(disk, acts).value), disk + Acked(acts))
  {
    hide RunOk, LinkO, LinkN, ProcOk, Apply, Inv, Lossy, Log, Subsequence;
    if acts == [] {
      BootLogIsDisk(disk);
      assert disk + [] == disk;
      SubsequenceRefl(disk);
    } else {
      var front, a := acts[..|acts| - 1], acts[|acts| - 1];
      LogIsSubsequence(disk, front);
      ExecKeepsInv(disk, front);
      KeptIff(disk, front);
      var g := Exec(disk, front).value;
      LogStep(g, a);
      assert front + [a] == acts;
      SubsequenceStep(disk, front, a, Log(g), Log(Exec(disk, acts).value));
      assert Acked(front + [a]) == Acked(acts);
    }
  }

  lemma SubsequenceStep(disk: seq<Entry>, front: seq<Action>, a: Action, l: seq<Entry>, l': seq<Entry>)
    requires Subsequence(l, disk + Acked(front)) && if a.Ack? then l' == l + [a.w] else l' <= l
    ensures Subsequence(l', disk + Acked(front + [a]))
  {
    hide Subsequence;
    assert (front + [a])[..|front|] == front;
    if a.Ack? {
      SubsequenceGrow(l, disk + Acked(front), a.w);
      assert disk + Acked(front + [a]) == disk + Acked(front) + [a.w];
    } else {
      assert Acked(front + [a]) == Acked(front) && l' == l[..|l'|];
      SubsequencePrefix(l, disk + Acked(front), |l'|);
    }
  }

  lemma {:induction false} SubsequenceRefl(a: seq<Entry>)
    ensures Subsequence(a, a)
  {
    if a != [] { SubsequenceRefl(a[..|a| - 1]); }
  }

  /** A booting process that opens the data directory starts from exactly the log. */
  lemma OpenSeesTheLog(g: World, p: Pid)
    requires Inv(g) && g.kept && BootAct(g, p, B.Opened).Some?
    ensures p in g.procs && BootAct(g, p, B.Opened).value.procs[p].view == Log(g)
  {
    hide RunOk, LinkO, LinkN, I.Inv;
    assert ProcOk(g, p, g.procs[p]);
  }

  /** So does an incumbent that resumes after a seal closed its writer. */
  lemma ResumeSeesTheLog(g: World, p: Pid, ok: bool)
    requires Inv(g) && g.kept && IncAct(g, p, I.Resume(ok)).Some? && p in g.procs && !g.procs[p].writer
    ensures IncAct(g, p, I.Resume(ok)).value.procs[p].view == Log(g)
  {
    hide RunOk, LinkO, LinkN, I.Step, I.Inv;
    assert ProcOk(g, p, g.procs[p]);
    ExitedIsFinal(g.procs[p].stage.i, I.Resume(ok));
    ResumeNeedsLock(g.procs[p].stage.i, ok);
  }

  // ---------------------------------------------------------------- what losses cannot touch

  lemma HookHoldsLock(i: I.Inc, h: HandoffId, r: Run, e: I.Event)
    requires InSession(i, h, r) && I.Step(i, e).Some? && (e.Drain? || e.Seal?)
    ensures i.lock
  {
    hide RunOk;
  }

  lemma IncDisk(g: World, p: Pid, e: I.Event)
    requires Inv(g) && g.kept && IncAct(g, p, e).Some? && e != I.AcceptFatal
    ensures g.disk <= IncAct(g, p, e).value.disk
    ensures e == I.Drain(true) || e == I.Seal(true) ==> IncAct(g, p, e).value.disk == Log(g)
  {
    hide RunOk, LinkO, LinkN, I.Step, I.Inv, Session, InSession;
    var q := g.procs[p];
    assert ProcOk(g, p, q);
    if q.writer { WriterIsHolder(g, p); }
    if e.Drain? || e.Seal? {
      HookIsInSession(q.stage.i, e);
      EnterSession(g, p);
      HookHoldsLock(q.stage.i, q.stage.i.session.value, g.runs[q.stage.i.session.value], e);
    }
  }

  lemma HookIsInSession(i: I.Inc, e: I.Event)
    requires I.Step(i, e).Some? && (e.Drain? || e.Seal?)
    ensures i.pc != I.Accepting && !i.pc.Exited?
  {
  }

  /** Nothing ever leaves the disk. */
  lemma DiskGrows(g: World, a: Action)
    requires Inv(g) && g.kept && Apply(g, a).Some? && !DropsGuard(a)
    ensures g.disk <= Apply(g, a).value.disk
  {
    hide RunOk, LinkO, LinkN, ProcOk, SupAct, BootAct, IncAct, Kill;
    match a
    case SupDo(h, e, o, leak, keep) =>
      if e.KillReap? { ReapDisk(g, h, o, leak, keep); } else { SupDisk(g, h, e, o, leak, keep); }
    case BootDo(p, e) => BootDisk(g, p, e);
    case IncDo(p, e) => IncDisk(g, p, e);
    case Die(p, keep) => KillDisk(g, p, keep);
    case Flush(p, keep) => WriterIsHolder(g, p);
    case _ =>
  }

  lemma KillDisk(g: World, p: Pid, keep: nat)
    requires Inv(g) && g.kept && p in g.procs
    ensures g.disk <= Kill(g, p, keep).disk
  {
    hide RunOk, LinkO, LinkN, ProcOk;
    if g.procs[p].writer { WriterIsHolder(g, p); }
  }

  lemma ReapDisk(g: World, h: HandoffId, o: Pid, leak: bool, keep: nat)
    requires Inv(g) && g.kept && SupAct(g, h, S.KillReap, o, leak, keep).Some?
    ensures g.disk <= SupAct(g, h, S.KillReap, o, leak, keep).value.disk
  {
    hide RunOk, LinkO, LinkN, ProcOk, S.Step, Inv;
    KillDisk(g, g.runs[h].s.n.value, keep);
  }

  lemma SupDisk(g: World, h: HandoffId, e: S.Event, o: Pid, leak: bool, keep: nat)
    requires SupAct(g, h, e, o, leak, keep).Some? && !e.KillReap?
    ensures SupAct(g, h, e, o, leak, keep).value.disk == g.disk
  {
    hide S.Step, OUp, NUp;
  }

  lemma BootDisk(g: World, p: Pid, e: B.Event)
    requires BootAct(g, p, e).Some?
    ensures BootAct(g, p, e).value.disk == g.disk
  {
    hide B.Next;
  }

  lemma {:induction false} ExecPrefix(disk: seq<Entry>, acts: seq<Action>, k: nat)
    requires k <= |acts| && Exec(disk, acts).Some?
    ensures Exec(disk, acts[..k]).Some?
  {
    hide Apply;
    if k < |acts| {
      assert acts[..|acts| - 1][..k] == acts[..k];
      ExecPrefix(disk, acts[..|acts| - 1], k);
    } else {
      assert acts[..k] == acts;
    }
  }

  /** Whatever was on disk at some point of a run is a prefix of the disk, and so of the
      log, at every later point, whoever died in between. */
  lemma {:induction false} SyncedSurvives(disk: seq<Entry>, acts: seq<Action>, k: nat)
    requires k <= |acts| && Exec(disk, acts).Some? && GuardsKept(acts)
    ensures Exec(disk, acts[..k]).Some?
    ensures Exec(disk, acts[..k]).value.disk <= Exec(disk, acts).value.disk <= Log(Exec(disk, acts).value)
  {
    hide Apply, Inv, DropsGuard;
    ExecPrefix(disk, acts, k);
    ExecKeepsInv(disk, acts);
    KeptIff(disk, acts);
    LogExtendsDisk(Exec(disk, acts).value);
    if k < |acts| {
      var front, a := acts[..|acts| - 1], acts[|acts| - 1];
      assert front[..k] == acts[..k];
      SyncedSurvives(disk, front, k);
      ExecKeepsInv(disk, front);
      KeptIff(disk, front);
      DiskGrows(Exec(disk, front).value, a);
    } else {
      assert acts[..k] == acts;
    }
  }

  predicate HasWriter(g: World, p: Pid) { p in g.procs && g.procs[p].writer }

  /** `p` has the writer open at every point from `i` to `k`. */
  predicate Tenure(disk: seq<Entry>, acts: seq<Action>, p: Pid, i: nat, k: nat)
    requires i <= k <= |acts|
  {
    forall j :: i <= j <= k ==> Exec(disk, acts[..j]).Some? && HasWriter(Exec(disk, acts[..j]).value, p)
  }

  /** While one process has the writer open and lives, nothing is lossy. */
  lemma TenureStep(g: World, a: Action, p: Pid)
    requires Inv(g) && g.kept && Apply(g, a).Some? && !DropsGuard(a) && HasWriter(g, p) &&
             HasWriter(Apply(g, a).value, p)
    ensures Log(Apply(g, a).value) == Log(g) + if a.Ack? then [a.w] else []
  {
    hide Inv, Apply, DropsGuard;
    LogStep(g, a);
    if Lossy(g, a) {
      WriterIsHolder(g, p);
      WriterIsHolder(g, Victim(g, a).value);
      VictimDies(g, a);
    }
  }

  lemma VictimDies(g: World, a: Action)
    requires Apply(g, a).Some? && Victim(g, a).Some? && Victim(g, a).value in g.procs
    ensures !HasWriter(Apply(g, a).value, Victim(g, a).value)
  {
    hide S.Step, IncAct, BootAct;
  }

  /** During a tenure the log grows by exactly the entries acknowledged. */
  lemma {:induction false} TenureLog(disk: seq<Entry>, acts: seq<Action>, p: Pid, i: nat, k: nat)
    requires i <= k <= |acts| && GuardsKept(acts) && Tenure(disk, acts, p, i, k)
    ensures Log(Exec(disk, acts[..k]).value) == Log(Exec(disk, acts[..i]).value) + Acked(acts[i..k])
  {
    hide Apply, Inv, DropsGuard, HasWriter, Log;
    if i == k {
      assert acts[i..k] == [];
    } else {
      TenureLog(disk, acts, p, i, k - 1);
      var front, a := acts[..k - 1], acts[k - 1];
      assert acts[..k][..k - 1] == front && acts[i..k][..k - 1 - i] == acts[i..k - 1];
      ExecKeepsInv(disk, front);
      KeptIff(disk, front);
      assert Exec(disk, acts[..k]) == Apply(Exec(disk, front).value, a);
      TenureStep(Exec(disk, front).value, a, p);
    }
  }

  /** The ways a process stops writing: by a drain or a seal, or by a death that loses
      nothing. In each, all it acknowledged is on disk at that moment. */
  predicate Saves(g: World, a: Action, p: Pid) {
    || (a.IncDo? && a.p == p && (a.ie == I.Drain(true) || a.ie == I.Seal(true)))
    || (Victim(g, a) == Some(p) && !Lossy(g, a))
  }

  lemma SavedIsSynced(g: World, a: Action, p: Pid)
    requires Inv(g) && g.kept && Apply(g, a).Some? && !DropsGuard(a) && HasWriter(g, p) && Saves(g, a, p)
    ensures Log(g) == Apply(g, a).value.disk
  {
    hide RunOk, LinkO, LinkN, ProcOk, SupAct, BootAct, IncAct, Kill;
    WriterIsHolder(g, p);
    if a.IncDo? {
      IncDisk(g, p, a.ie);
    } else {
      DiskGrows(g, a);
      LogStep(g, a);
      ApplyKeepsInv(g, a) by { assert Inv(g); }
      KeptStep(g, a);
      LogExtendsDisk(Apply(g, a).value);
    }
  }

  /** Every write acknowledged by a holder that drained, sealed, or did not die on unsynced
      writes is in the log at every later point, in place, whichever other process died on
      whatever; and so in every view a later holder opens. */
  lemma HolderWritesSurvive(disk: seq<Entry>, acts: seq<Action>, p: Pid, i: nat, k: nat)
    requires i <= k < |acts| && Exec(disk, acts).Some? && GuardsKept(acts)
    requires Tenure(disk, acts, p, i, k) && Saves(Exec(disk, acts[..k]).value, acts[k], p)
    ensures var saved, g := Log(Exec(disk, acts[..i]).value) + Acked(acts[i..k]), Exec(disk, acts).value;
            saved <= Log(g) && forall x :: HasWriter(g, x) ==> saved <= g.procs[x].view
  {
    TenureEnds(disk, acts, p, i, k);
    hide *;
    SavedSurvives(disk, acts, p, k);
    HolderViews(disk, acts);
  }

  lemma TenureEnds(disk: seq<Entry>, acts: seq<Action>, p: Pid, i: nat, k: nat)
    requires i <= k < |acts| && GuardsKept(acts) && Tenure(disk, acts, p, i, k)
    ensures Exec(disk, acts[..i]).Some? && Exec(disk, acts[..k]).Some? && HasWriter(Exec(disk, acts[..k]).value, p)
    ensures Log(Exec(disk, acts[..k]).value) == Log(Exec(disk, acts[..i]).value) + Acked(acts[i..k])
  {
    hide Exec, Acked, HasWriter, Log;
    TenureLog(disk, acts, p, i, k);
  }

  /** The log at the moment it is saved is a prefix of every later one. */
  lemma SavedSurvives(disk: seq<Entry>, acts: seq<Action>, p: Pid, k: nat)
    requires k < |acts| && Exec(disk, acts).Some? && GuardsKept(acts)
    requires Exec(disk, acts[..k]).Some? && HasWriter(Exec(disk, acts[..k]).value, p) &&
             Saves(Exec(disk, acts[..k]).value, acts[k], p)
    ensures Log(Exec(disk, acts[..k]).value) <= Log(Exec(disk, acts).value)
  {
    assert GuardsKept(acts[..k]) && !DropsGuard(acts[k]);
    hide *;
    ExecSnoc(disk, acts, k);
    ExecKeepsInv(disk, acts[..k]);
    KeptIff(disk, acts[..k]);
    SavedIsSynced(Exec(disk, acts[..k]).value, acts[k], p);
    SyncedSurvives(disk, acts, k + 1);
  }

  lemma ExecSnoc(disk: seq<Entry>, acts: seq<Action>, k: nat)
    requires k < |acts| && Exec(disk, acts).Some?
    ensures Exec(disk, acts[..k]).Some? && Exec(disk, acts[..k + 1]) == Apply(Exec(disk, acts[..k]).value, acts[k])
    ensures Exec(disk, acts[..k + 1]).Some?
  {
    hide Apply;
    ExecPrefix(disk, acts, k + 1);
    assert acts[..k + 1][..k] == acts[..k];
  }

  lemma HolderViews(disk: seq<Entry>, acts: seq<Action>)
    requires Exec(disk, acts).Some? && GuardsKept(acts)
    ensures var g := Exec(disk, acts).value; forall x :: HasWriter(g, x) ==> x in g.procs && g.procs[x].view == Log(g)
  {
    hide Exec, Inv, HasWriter, Log;
    ExecKeepsInv(disk, acts);
    KeptIff(disk, acts);
    var g := Exec(disk, acts).value;
    forall x | HasWriter(g, x) ensures x in g.procs && g.procs[x].view == Log(g) { HolderView(g, x); }
  }

  lemma HolderView(g: World, x: Pid)
    requires Inv(g) && g.kept && HasWriter(g, x)
    ensures x in g.procs && g.procs[x].view == Log(g)
  {
    hide Inv;
    WriterIsHolder(g, x);
  }
}
