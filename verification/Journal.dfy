/** `StateJournal` on a file system that can lose power: file data is stable only once
    synced, and of the directory updates since the last directory sync any subset, in
    order, may have reached the disk. */
module Journal {
  import opened Protocol
  import Framing

  type Bytes = seq<Framing.Byte>

  datatype Inode = Inode(data: Bytes, synced: bool)

  /** What `state.bin` and `state.bin.tmp` name. */
  datatype Dir = Dir(journal: Option<nat>, tmp: Option<nat>)

  datatype DirOp = Create(inode: nat) | Rename(inode: nat) | Unlink

  /** The directory itself: absent, created since the last power failure, or on disk. */
  datatype Home = Missing | Young | Settled

  datatype Fs = Fs(home: Home, inodes: seq<Inode>, durable: Dir, pending: seq<DirOp>)

  const EMPTY := Dir(None, None)

  // ---------------------------------------------------------------- directories

  function Play(d: Dir, op: DirOp): Dir {
    match op
    case Create(i) => d.(tmp := Some(i))
    case Rename(i) => Dir(Some(i), None)
    case Unlink => d.(journal := None)
  }

  /** The directory after those updates that `mask` selects. */
  function Replay(d: Dir, ops: seq<DirOp>, mask: seq<bool>): Dir
    requires |mask| == |ops|
  {
    if ops == [] then d
    else
      var k := |ops| - 1;
      var before := Replay(d, ops[..k], mask[..k]);
      if mask[k] then Play(before, ops[k]) else before
  }

  function AllOf(n: nat): (mask: seq<bool>)
    ensures |mask| == n && forall i :: 0 <= i < n ==> mask[i]
  {
    seq(n, i => true)
  }

  /** The directory as running programs see it. */
  function Now(fs: Fs): Dir {
    Replay(fs.durable, fs.pending, AllOf(|fs.pending|))
  }

  function Value(inodes: seq<Inode>, at: Option<nat>): Option<Bytes> {
    if at.Some? && at.value < |inodes| then Some(inodes[at.value].data) else None
  }

  /** What `StateJournal::read` finds, before decoding. */
  function Read(fs: Fs): Option<Bytes> {
    Value(fs.inodes, Now(fs).journal)
  }

  lemma NowAfter(fs: Fs, op: DirOp)
    ensures Now(fs.(pending := fs.pending + [op])) == Play(Now(fs), op)
  {
    var ops := fs.pending + [op];
    var k := |fs.pending|;
    assert ops[..k] == fs.pending && AllOf(k + 1)[..k] == AllOf(k);
  }

  // ---------------------------------------------------------------- write_atomic, delete

  /** Where the one writer stands; `i` is the inode behind its open temporary file. */
  datatype Pc =
    | Idle
    | Opening(b: Bytes)
    | Opened(b: Bytes, i: nat)
    | Filled(b: Bytes, i: nat)
    | Synced(b: Bytes, i: nat)
    | Moved(b: Bytes)

  datatype St = St(fs: Fs, pc: Pc)

  datatype Event =
    | MkDirs(b: Bytes, ok: bool)
    | OpenTmp(ok: bool)
    | WriteAll(n: nat, ok: bool)
    | SyncFile(ok: bool)
    | RenameTmp(ok: bool)
    | SyncDir(ok: bool)
    | Remove(ok: bool)
    | Die
    | Power(mask: seq<bool>, garbage: seq<Bytes>, lost: bool)

  function AfterMkDirs(fs: Fs): Fs {
    if fs.home == Missing then fs.(home := Young) else fs
  }

  /** Open with create and truncate. */
  function AfterOpen(fs: Fs): (Fs, nat) {
    var at := Now(fs).tmp;
    if at.Some? && at.value < |fs.inodes| then (fs.(inodes := fs.inodes[at.value := Inode([], false)]), at.value)
    else (fs.(inodes := fs.inodes + [Inode([], false)], pending := fs.pending + [Create(|fs.inodes|)]), |fs.inodes|)
  }

  /** The disk after a power failure: unsynced data is garbage, and a directory that is
      not settled may be gone. */
  function AfterPower(fs: Fs, mask: seq<bool>, garbage: seq<Bytes>, lost: bool): Fs
    requires |mask| == |fs.pending| && |garbage| == |fs.inodes|
  {
    var inodes := seq(|fs.inodes|,
                      i requires 0 <= i < |fs.inodes| => if fs.inodes[i].synced then fs.inodes[i]
                      else Inode(garbage[i], true));
    if lost || fs.home == Missing then Fs(Missing, inodes, EMPTY, [])
    else Fs(Settled, inodes, Replay(fs.durable, fs.pending, mask), [])
  }

  function Step(st: St, e: Event): Option<St> {
    var fs, pc := st.fs, st.pc;
    match e
    case MkDirs(b, ok) => if !pc.Idle? then None else Some(if ok then St(AfterMkDirs(fs), Opening(b)) else st)
    case OpenTmp(ok) =>
      if !pc.Opening? then None
      else if !ok then Some(St(fs, Idle))
      else var (fs', i) := AfterOpen(fs); Some(St(fs', Opened(pc.b, i)))
    case WriteAll(n, ok) =>
      if !pc.Opened? || n > |pc.b| || (ok && n < |pc.b|) || pc.i >= |fs.inodes| then None
      else Some(St(fs.(inodes := fs.inodes[pc.i := Inode(pc.b[..n], false)]), if ok then Filled(pc.b, pc.i) else Idle))
    case SyncFile(ok) =>
      if !pc.Filled? || pc.i >= |fs.inodes| then None
      else if !ok then Some(St(fs, Idle))
      else Some(St(fs.(inodes := fs.inodes[pc.i := fs.inodes[pc.i].(synced := true)]), Synced(pc.b, pc.i)))
    case RenameTmp(ok) =>
      if !pc.Synced? || Now(fs).tmp.None? then None
      else if !ok then Some(St(fs, Idle))
      else Some(St(fs.(pending := fs.pending + [Rename(Now(fs).tmp.value)]), Moved(pc.b)))
    case SyncDir(ok) =>
      if !pc.Moved? then None
      else Some(St(if ok then fs.(durable := Now(fs), pending := []) else fs, Idle))
    case Remove(ok) =>
      if !pc.Idle? then None
      else Some(if ok && Now(fs).journal.Some? then St(fs.(pending := fs.pending + [Unlink]), Idle) else st)
    case Die => Some(St(fs, Idle))
    case Power(mask, garbage, lost) =>
      if |mask| != |fs.pending| || |garbage| != |fs.inodes| || (lost && fs.home == Settled) then None
      else Some(St(AfterPower(fs, mask, garbage, lost), Idle))
  }

  // ---------------------------------------------------------------- what a power failure can leave

  /** The journal entry of the stable directory, or one that some pending update sets. */
  predicate Target(d: Dir, ops: seq<DirOp>, at: Option<nat>) {
    || at == d.journal
    || (at.Some? && Rename(at.value) in ops)
    || (at.None? && Unlink in ops)
  }

  /** The values a power failure now can leave in the journal. */
  ghost predicate Candidate(fs: Fs, v: Option<Bytes>) {
    || (exists at :: Target(fs.durable, fs.pending, at) && Value(fs.inodes, at) == v)
    || (v == None && fs.home == Young)
  }

  lemma {:induction false} ReplayHitsTarget(d: Dir, ops: seq<DirOp>, mask: seq<bool>)
    requires |mask| == |ops|
    ensures Target(d, ops, Replay(d, ops, mask).journal)
  {
    if ops != [] {
      var k := |ops| - 1;
      ReplayHitsTarget(d, ops[..k], mask[..k]);
      assert ops[k] in ops && forall op :: op in ops[..k] ==> op in ops;
    }
  }

  function NoneOf(n: nat): (mask: seq<bool>)
    ensures |mask| == n && forall i :: 0 <= i < n ==> !mask[i]
  {
    seq(n, i => false)
  }

  lemma {:induction false} ReplayNone(d: Dir, ops: seq<DirOp>, mask: seq<bool>)
    requires |mask| == |ops| && forall i :: 0 <= i < |mask| ==> !mask[i]
    ensures Replay(d, ops, mask) == d
  {
    if ops != [] { ReplayNone(d, ops[..|ops| - 1], mask[..|ops| - 1]); }
  }

  lemma {:induction false} ReplayOne(d: Dir, ops: seq<DirOp>, mask: seq<bool>, k: nat)
    requires |mask| == |ops| && k < |ops| && forall i :: 0 <= i < |mask| ==> (mask[i] <==> i == k)
    ensures Replay(d, ops, mask) == Play(d, ops[k])
  {
    var last := |ops| - 1;
    if k == last { ReplayNone(d, ops[..last], mask[..last]); } else { ReplayOne(d, ops[..last], mask[..last], k); }
  }

  /** Every target is left by some power failure. */
  lemma TargetIsHit(d: Dir, ops: seq<DirOp>, at: Option<nat>) returns (mask: seq<bool>)
    requires Target(d, ops, at)
    ensures |mask| == |ops| && Replay(d, ops, mask).journal == at
  {
    if at == d.journal {
      mask := NoneOf(|ops|);
      ReplayNone(d, ops, mask);
    } else {
      var op := if at.Some? then Rename(at.value) else Unlink;
      var k :| 0 <= k < |ops| && ops[k] == op;
      mask := NoneOf(|ops|)[k := true];
      ReplayOne(d, ops, mask, k);
    }
  }

  // ---------------------------------------------------------------- the invariant

  /** All inodes named so far are below `bound`. */
  ghost predicate Below(d: Dir, ops: seq<DirOp>, bound: nat) {
    && (d.journal.Some? ==> d.journal.value < bound) && (d.tmp.Some? ==> d.tmp.value < bound)
    && (forall k :: 0 <= k < |ops| && !ops[k].Unlink? ==> ops[k].inode < bound)
  }

  predicate Distinct(d: Dir) { d.tmp.Some? ==> d.tmp != d.journal }

  /** The stable directory's two names differ, and new files get new inodes. */
  ghost predicate Ordered(d: Dir, ops: seq<DirOp>) {
    && Distinct(d)
    && forall k :: 0 <= k < |ops| && ops[k].Create? ==> Below(d, ops[..k], ops[k].inode)
  }

  ghost predicate FsOk(fs: Fs) {
    && Ordered(fs.durable, fs.pending) && Below(fs.durable, fs.pending, |fs.inodes|)
    && (forall i: nat :: Target(fs.durable, fs.pending, Some(i)) ==> i < |fs.inodes| && fs.inodes[i].synced)
    && (Now(fs).tmp.Some? ==> Now(fs).tmp.value < |fs.inodes| && !Target(fs.durable, fs.pending, Now(fs).tmp))
    && (fs.home == Missing ==> fs.durable == EMPTY && fs.pending == [])
  }

  ghost predicate PcOk(fs: Fs, pc: Pc) {
    && (!pc.Idle? ==> fs.home != Missing)
    && (pc.Opened? || pc.Filled? || pc.Synced? ==> Now(fs).tmp == Some(pc.i) && pc.i < |fs.inodes|)
    && (pc.Filled? || pc.Synced? ==> pc.i < |fs.inodes| && fs.inodes[pc.i].data == pc.b)
    && (pc.Synced? ==> fs.inodes[pc.i].synced)
    && (pc.Moved? ==> Read(fs) == Some(pc.b))
  }

  ghost predicate Inv(st: St) { FsOk(st.fs) && PcOk(st.fs, st.pc) }

  /** Whatever reaches the disk, the two names never share an inode: no later truncation
      of the temporary file can reach the journal. */
  lemma {:induction false} ReplayDistinct(d: Dir, ops: seq<DirOp>, mask: seq<bool>)
    requires |mask| == |ops| && Ordered(d, ops)
    ensures Distinct(Replay(d, ops, mask))
    ensures forall bound :: Below(d, ops, bound) ==> Below(Replay(d, ops, mask), [], bound)
  {
    if ops != [] {
      var k := |ops| - 1;
      var front := ops[..k];
      forall j | 0 <= j < k && front[j].Create? ensures Below(d, front[..j], front[j].inode) {
        assert front[..j] == ops[..j] && front[j] == ops[j];
      }
      ReplayDistinct(d, front, mask[..k]);
      var before := Replay(d, front, mask[..k]);
      forall bound | Below(d, ops, bound) ensures Below(Replay(d, ops, mask), [], bound) {
        assert Below(d, front, bound) && Below(before, [], bound);
        assert !ops[k].Unlink? ==> ops[k].inode < bound;
      }
      if ops[k].Create? {
        assert Below(before, [], ops[k].inode);
      }
    }
  }

  lemma NowIsTarget(fs: Fs)
    ensures Target(fs.durable, fs.pending, Now(fs).journal)
  {
    ReplayHitsTarget(fs.durable, fs.pending, AllOf(|fs.pending|));
  }

  // ---------------------------------------------------------------- preservation

  /** Writing to an inode that is no target changes no candidate. */
  lemma OffTarget(fs: Fs, i: nat, x: Inode)
    requires FsOk(fs) && i < |fs.inodes| && !Target(fs.durable, fs.pending, Some(i))
    ensures var fs' := fs.(inodes := fs.inodes[i := x]); FsOk(fs') && Read(fs') == Read(fs) && Now(fs') == Now(fs)
    ensures forall v :: Candidate(fs.(inodes := fs.inodes[i := x]), v) <==> Candidate(fs, v)
  {
    var fs' := fs.(inodes := fs.inodes[i := x]);
    NowIsTarget(fs);
    forall at | Target(fs.durable, fs.pending, at) ensures Value(fs'.inodes, at) == Value(fs.inodes, at) {
      assert at != Some(i);
    }
  }

  lemma OrderedAppend(d: Dir, ops: seq<DirOp>, op: DirOp, bound: nat)
    requires Ordered(d, ops) && Below(d, ops, bound) && (op.Create? ==> op.inode == bound)
    ensures Ordered(d, ops + [op])
  {
    var ops' := ops + [op];
    forall k | 0 <= k < |ops'| && ops'[k].Create? ensures Below(d, ops'[..k], ops'[k].inode) {
      if k < |ops| { assert ops'[..k] == ops[..k]; } else { assert ops'[..k] == ops; }
    }
  }

  /** A new temporary file. */
  lemma CreateOk(fs: Fs)
    requires FsOk(fs) && Now(fs).tmp.None? && fs.home != Missing
    ensures var fs' := AfterOpen(fs).0; FsOk(fs') && Read(fs') == Read(fs) && Now(fs').tmp == Some(|fs.inodes|)
    ensures forall v :: Candidate(AfterOpen(fs).0, v) <==> Candidate(fs, v)
  {
    var n := |fs.inodes|;
    var fs' := AfterOpen(fs).0;
    OrderedAppend(fs.durable, fs.pending, Create(n), n);
    NowAfter(fs, Create(n));
    assert Now(fs') == Play(Now(fs), Create(n));
    forall at: Option<nat> ensures Target(fs.durable, fs'.pending, at) <==> Target(fs.durable, fs.pending, at) {
      assert forall op :: op in fs'.pending <==> op in fs.pending || op == Create(n);
    }
    NowIsTarget(fs);
    forall at: Option<nat> | Target(fs.durable, fs.pending, at) ensures Value(fs'.inodes, at) == Value(fs.inodes, at) {
      if at.Some? { assert at.value < n; }
    }
    assert !Target(fs.durable, fs.pending, Some(n));
  }

  /** Publishing a synced temporary file adds its content to the candidates. */
  lemma RenameOk(fs: Fs, i: nat)
    requires FsOk(fs) && Now(fs).tmp == Some(i) && fs.inodes[i].synced && fs.home != Missing
    ensures var fs' := fs.(pending := fs.pending + [Rename(i)]); FsOk(fs') && Read(fs') == Some(fs.inodes[i].data)
    ensures forall v ::
              Candidate(fs.(pending := fs.pending + [Rename(i)]), v) <==>
              Candidate(fs, v) || v == Some(fs.inodes[i].data)
  {
    var fs' := fs.(pending := fs.pending + [Rename(i)]);
    OrderedAppend(fs.durable, fs.pending, Rename(i), |fs.inodes|);
    NowAfter(fs, Rename(i));
    forall at: Option<nat> ensures Target(fs.durable, fs'.pending, at) <==>
        Target(fs.durable, fs.pending, at) || at == Some(i) {
      assert forall op :: op in fs'.pending <==> op in fs.pending || op == Rename(i);
    }
    assert Target(fs'.durable, fs'.pending, Some(i));
  }

  /** Removing the journal adds "no journal" to the candidates and takes none away. */
  lemma UnlinkOk(fs: Fs)
    requires FsOk(fs) && fs.home != Missing
    ensures var fs' := fs.(pending := fs.pending + [Unlink]);
            FsOk(fs') && Read(fs') == None && Now(fs').tmp == Now(fs).tmp
    ensures forall v :: Candidate(fs.(pending := fs.pending + [Unlink]), v) <==> Candidate(fs, v) || v == None
  {
    var fs' := fs.(pending := fs.pending + [Unlink]);
    OrderedAppend(fs.durable, fs.pending, Unlink, |fs.inodes|);
    NowAfter(fs, Unlink);
    forall at: Option<nat> ensures Target(fs.durable, fs'.pending, at) <==>
        Target(fs.durable, fs.pending, at) || at == None {
      assert forall op :: op in fs'.pending <==> op in fs.pending || op == Unlink;
    }
    assert Target(fs'.durable, fs'.pending, None);
  }

  /** Syncing the directory leaves exactly the current value. */
  lemma SyncDirOk(fs: Fs)
    requires FsOk(fs) && fs.home != Missing
    ensures var fs' := fs.(durable := Now(fs), pending := []); FsOk(fs') && Now(fs') == Now(fs) && Read(fs') == Read(fs)
    ensures forall v ::
              Candidate(fs.(durable := Now(fs), pending := []), v) <==>
              v == Read(fs) || (v == None && fs.home == Young)
  {
    var fs' := fs.(durable := Now(fs), pending := []);
    ReplayDistinct(fs.durable, fs.pending, AllOf(|fs.pending|));
    assert Below(Now(fs), [], |fs.inodes|);
    NowIsTarget(fs);
    assert Target(fs'.durable, fs'.pending, Now(fs).journal);
  }

  /** A power failure leaves a candidate, and nothing else can be left later. */
  lemma PowerOk(fs: Fs, mask: seq<bool>, garbage: seq<Bytes>, lost: bool)
    requires FsOk(fs) && |mask| == |fs.pending| && |garbage| == |fs.inodes| && (lost ==> fs.home != Settled)
    ensures var fs' := AfterPower(fs, mask, garbage, lost); FsOk(fs') && Candidate(fs, Read(fs'))
    ensures forall v ::
              Candidate(AfterPower(fs, mask, garbage, lost), v) <==>
              v == Read(AfterPower(fs, mask, garbage, lost))
  {
    var fs' := AfterPower(fs, mask, garbage, lost);
    ReplayDistinct(fs.durable, fs.pending, mask);
    ReplayHitsTarget(fs.durable, fs.pending, mask);
    var d := Replay(fs.durable, fs.pending, mask);
    assert Below(d, [], |fs.inodes|);
    assert Value(fs'.inodes, d.journal) == Value(fs.inodes, d.journal);
    assert Target(fs'.durable, fs'.pending, fs'.durable.journal);
    if fs.home == Missing { assert Target(fs.durable, fs.pending, None); }
  }

  /** Every candidate is left by some power failure. */
  lemma CandidateIsLeft(fs: Fs, v: Option<Bytes>) returns (mask: seq<bool>, garbage: seq<Bytes>, lost: bool)
    requires FsOk(fs) && Candidate(fs, v)
    ensures |mask| == |fs.pending| && |garbage| == |fs.inodes| && (lost ==> fs.home != Settled)
    ensures Read(AfterPower(fs, mask, garbage, lost)) == v
  {
    garbage := seq(|fs.inodes|, i => []);
    mask := NoneOf(|fs.pending|);
    lost := v == None && fs.home != Settled;
    if !lost {
      var at :| Target(fs.durable, fs.pending, at) && Value(fs.inodes, at) == v;
      mask := TargetIsHit(fs.durable, fs.pending, at);
    }
  }

  // ---------------------------------------------------------------- every step

  /** The value that a step other than a directory sync or a power failure adds to what
      can be recovered. */
  predicate Gained(st: St, e: Event, v: Option<Bytes>) {
    || (e == RenameTmp(true) && st.pc.Synced? && v == Some(st.pc.b))
    || (e == Remove(true) && Now(st.fs).journal.Some? && v == None)
  }

  lemma OpenEffect(st: St)
    requires Inv(st) && st.pc.Opening?
    ensures Inv(Step(st, OpenTmp(true)).value)
    ensures forall v :: Candidate(Step(st, OpenTmp(true)).value.fs, v) <==> Candidate(st.fs, v)
  {
    var at := Now(st.fs).tmp;
    if at.Some? { OffTarget(st.fs, at.value, Inode([], false)); } else { CreateOk(st.fs); }
  }

  lemma DataEffect(st: St, e: Event)
    requires Inv(st) && (e.WriteAll? || e.SyncFile?) && Step(st, e).Some?
    ensures Inv(Step(st, e).value)
    ensures forall v :: Candidate(Step(st, e).value.fs, v) <==> Candidate(st.fs, v)
  {
    var x := if e.WriteAll? then Inode(st.pc.b[..e.n], false) else st.fs.inodes[st.pc.i].(synced := true);
    OffTarget(st.fs, st.pc.i, x);
  }

  lemma MkDirsEffect(st: St, b: Bytes)
    requires Inv(st) && st.pc.Idle?
    ensures Inv(Step(st, MkDirs(b, true)).value)
    ensures forall v :: Candidate(AfterMkDirs(st.fs), v) <==> Candidate(st.fs, v)
  {
    var fs' := AfterMkDirs(st.fs);
    assert Now(fs') == Now(st.fs);
    if st.fs.home == Missing {
      assert Target(st.fs.durable, st.fs.pending, None);
      assert forall at :: Target(st.fs.durable, st.fs.pending, at) ==> at == None;
    }
  }

  /** What can be recovered after a step, exactly. */
  lemma StepEffect(st: St, e: Event)
    requires Inv(st) && Step(st, e).Some?
    ensures Inv(Step(st, e).value)
    ensures !e.Power? && e != SyncDir(true) ==> forall v ::
              Candidate(Step(st, e).value.fs, v) <==>
              Candidate(st.fs, v) || Gained(st, e, v)
    ensures e == SyncDir(true) ==> forall v ::
              Candidate(Step(st, e).value.fs, v) <==>
              v == Some(st.pc.b) || (v == None && st.fs.home == Young)
    ensures e.Power? ==> Candidate(st.fs, Read(Step(st, e).value.fs))
    ensures e.Power? ==> forall v :: Candidate(Step(st, e).value.fs, v) <==> v == Read(Step(st, e).value.fs)
  {
    hide Candidate, FsOk;
    match e
    case MkDirs(b, ok) => if ok { MkDirsEffect(st, b); }
    case OpenTmp(ok) => if ok { OpenEffect(st); }
    case WriteAll(n, ok) => DataEffect(st, e);
    case SyncFile(ok) => DataEffect(st, e);
    case RenameTmp(ok) => if ok { RenameOk(st.fs, st.pc.i); }
    case SyncDir(ok) => if ok { SyncDirOk(st.fs); }
    case Remove(ok) => if ok && Now(st.fs).journal.Some? { HomeOfJournal(st.fs); UnlinkOk(st.fs); }
    case Die =>
    case Power(mask, garbage, lost) => PowerOk(st.fs, mask, garbage, lost);
  }

  lemma HomeOfJournal(fs: Fs)
    requires FsOk(fs) && Now(fs).journal.Some?
    ensures fs.home != Missing
  {
  }

  /** The values a power failure can leave are exactly the candidates. */
  lemma RecoveryIff(st: St, v: Option<Bytes>)
    requires Inv(st)
    ensures Candidate(st.fs, v) <==>
            exists mask, garbage, lost :: Step(st, Power(mask, garbage, lost)).Some? &&
                Read(Step(st, Power(mask, garbage, lost)).value.fs) == v
  {
    if Candidate(st.fs, v) {
      var mask, garbage, lost := CandidateIsLeft(st.fs, v);
      assert Step(st, Power(mask, garbage, lost)).Some?;
    }
    forall mask, garbage, lost | Step(st, Power(mask, garbage, lost)).Some?
      ensures Candidate(st.fs, Read(Step(st, Power(mask, garbage, lost)).value.fs))
    {
      PowerOk(st.fs, mask, garbage, lost);
    }
  }

  // ---------------------------------------------------------------- every run

  function Exec(st: St, es: seq<Event>): Option<St> {
    if es == [] then Some(st)
    else
      var before := Exec(st, es[..|es| - 1]);
      if before.None? then None else Step(before.value, es[|es| - 1])
  }

  predicate Begun(es: seq<Event>, b: Bytes) { MkDirs(b, true) in es }

  lemma PcStep(st: St, e: Event)
    requires Step(st, e).Some?
    ensures var pc := Step(st, e).value.pc; !pc.Idle? ==> e == MkDirs(pc.b, true) || (!st.pc.Idle? && st.pc.b == pc.b)
  {
  }

  lemma {:induction false} ExecKeepsInv(st: St, es: seq<Event>)
    requires Inv(st) && st.pc.Idle? && Exec(st, es).Some?
    ensures Inv(Exec(st, es).value)
    ensures !Exec(st, es).value.pc.Idle? ==> Begun(es, Exec(st, es).value.pc.b)
  {
    hide Inv, Step, Candidate;
    if es != [] {
      var k := |es| - 1;
      ExecKeepsInv(st, es[..k]);
      var before := Exec(st, es[..k]).value;
      StepEffect(before, es[k]);
      PcStep(before, es[k]);
      assert es[k] in es && forall e :: e in es[..k] ==> e in es;
    }
  }

  /** Over every sequence of writes, deletes, failures, process deaths and power failures,
      what a power failure can leave was there at the start, or is a value handed to
      write_atomic, whole, or is nothing after a delete. */
  lemma {:induction false} WholeOrNothing(st: St, es: seq<Event>, v: Option<Bytes>)
    requires Inv(st) && st.pc.Idle? && Exec(st, es).Some?
    requires Candidate(Exec(st, es).value.fs, v)
    ensures Candidate(st.fs, v) || (v.Some? && Begun(es, v.value)) || (v == None && Remove(true) in es)
  {
    if es != [] {
      var k := |es| - 1;
      var before := Exec(st, es[..k]).value;
      ExecKeepsInv(st, es[..k]);
      StepEffect(before, es[k]);
      hide Candidate, Inv, FsOk;
      assert es[k] in es && forall e :: e in es[..k] ==> e in es;
      if es[k] == SyncDir(true) {
        SyncedBefore(before, v);
      }
      if Candidate(before.fs, v) { WholeOrNothing(st, es[..k], v); }
    }
  }

  /** What a directory sync leaves could be recovered before it. */
  lemma SyncedBefore(st: St, v: Option<Bytes>)
    requires Inv(st) && st.pc.Moved? && (v == Some(st.pc.b) || (v == None && st.fs.home == Young))
    ensures Candidate(st.fs, v)
  {
    NowIsTarget(st.fs);
  }

  /** A failure anywhere inside one write_atomic recovers the old value or the new one. */
  lemma OldOrNew(st: St, es: seq<Event>, previous: Option<Bytes>, b: Bytes, v: Option<Bytes>)
    requires Inv(st) && st.pc.Idle? && (forall u :: Candidate(st.fs, u) ==> u == previous)
    requires forall e :: e in es ==> !e.Remove? && (e.MkDirs? ==> e.b == b)
    requires Exec(st, es).Some? && Candidate(Exec(st, es).value.fs, v)
    ensures v == previous || v == Some(b)
  {
    hide Candidate, Inv, Exec;
    WholeOrNothing(st, es, v);
  }

  predicate Quiet(e: Event) { e.Die? || e.Power? || (e.MkDirs? && !e.ok) || e == Remove(false) }

  /** After write_atomic returned, with the directory itself on disk, every later read and
      every recovery yields exactly that value until the next write or delete. */
  lemma {:induction false} ReturnedStays(st: St, b: Bytes, es: seq<Event>)
    requires Inv(st) && st.pc == Moved(b) && st.fs.home == Settled
    requires forall e :: e in es ==> Quiet(e)
    requires Exec(Step(st, SyncDir(true)).value, es).Some?
    ensures var st' := Exec(Step(st, SyncDir(true)).value, es).value;
            && Inv(st') && st'.pc.Idle? && Read(st'.fs) == Some(b)
            && forall v :: Candidate(st'.fs, v) <==> v == Some(b)
  {
    var done := Step(st, SyncDir(true)).value;
    StepEffect(st, SyncDir(true));
    if es == [] {
      SyncDirOk(st.fs);
    } else {
      var k := |es| - 1;
      ReturnedStays(st, b, es[..k]);
      StepEffect(Exec(done, es[..k]).value, es[k]);
      assert es[k] in es;
      hide Candidate, Inv;
      assert Quiet(es[k]);
    }
  }

  /** If the directory was made by this write instead, the journal can still vanish with
      it: a returned write is durable exactly when the directory was there before. */
  lemma ReturnedIff(st: St)
    requires Inv(st) && st.pc.Moved?
    ensures (forall v :: Candidate(Step(st, SyncDir(true)).value.fs, v) <==> v == Some(st.pc.b)) <==>
            st.fs.home == Settled
  {
    StepEffect(st, SyncDir(true));
    hide Candidate;
    var st' := Step(st, SyncDir(true)).value;
    assert Candidate(st'.fs, None) <==> st.fs.home == Young;
  }

  /** A deleted journal can come back: delete does not sync the directory. Every value
      that could be recovered before the delete still can. */
  lemma DeletedMayReappear(st: St, v: Option<Bytes>)
    requires Inv(st) && st.pc.Idle? && Read(st.fs).Some?
    ensures var st' := Step(st, Remove(true)).value;
            Read(st'.fs) == None && (Candidate(st'.fs, v) <==> v == None || Candidate(st.fs, v))
    ensures Candidate(Step(st, Remove(true)).value.fs, Read(st.fs))
  {
    StepEffect(st, Remove(true));
    NowIsTarget(st.fs);
    HomeOfJournal(st.fs);
    UnlinkOk(st.fs);
  }

  // ---------------------------------------------------------------- decoding

  datatype Loaded<J> = NoJournal | Journal(j: J) | Corrupt

  function Load<J>(c: Framing.Codec<J>, v: Option<Bytes>): Loaded<J> {
    if v.None? then NoJournal
    else match c.dec(v.value) case None => Corrupt case Some(j) => Journal(j)
  }

  const BLANK := St(Fs(Missing, [], EMPTY, []), Idle)

  lemma BlankIsFine()
    ensures Inv(BLANK) && forall v :: Candidate(BLANK.fs, v) ==> v == None
  {
  }

  /** From a blank disk, with bytes that come from the codec, recovery never reads a
      corrupt journal, and a journal it reads was passed to write_atomic. */
  lemma RecoveryDecodes<J(!new)>(c: Framing.Codec<J>, es: seq<Event>, power: Event)
    requires Framing.Lawful(c) && power.Power?
    requires forall b :: Begun(es, b) ==> exists j :: c.enc(j) == Some(b)
    requires Exec(BLANK, es).Some? && Step(Exec(BLANK, es).value, power).Some?
    ensures var r := Load(c, Read(Step(Exec(BLANK, es).value, power).value.fs));
            r.NoJournal? || (r.Journal? && c.enc(r.j).Some? && Begun(es, c.enc(r.j).value))
  {
    hide Exec, Step, Candidate;
    BlankIsFine();
    ExecKeepsInv(BLANK, es);
    var st := Exec(BLANK, es).value;
    StepEffect(st, power);
    var v := Read(Step(st, power).value.fs);
    WholeOrNothing(BLANK, es, v);
    if v.Some? {
      var j :| c.enc(j) == Some(v.value);
      assert c.dec(c.enc(j).value) == Some(j);
    }
  }

  // ---------------------------------------------------------------- the code

  /** System call `k` of `write_atomic` on `b`, with success `ok`. */
  predicate Call(e: Event, k: nat, b: Bytes, ok: bool) {
    match k
    case 0 => e == MkDirs(b, ok)
    case 1 => e == OpenTmp(ok)
    case 2 => e.WriteAll? && e.ok == ok && (ok ==> e.n == |b|)
    case 3 => e == SyncFile(ok)
    case 4 => e == RenameTmp(ok)
    case 5 => e == SyncDir(ok)
    case _ => false
  }

  /** The calls from `i` on: each succeeded but the last, which succeeded exactly if `ok`, and
      then it is the one before `end`. */
  predicate Calls(es: seq<Event>, i: nat, end: nat, b: Bytes, ok: bool) {
    && 0 < |es| <= end - i && (ok ==> |es| == end - i)
    && (forall k :: 0 <= k < |es| - 1 ==> Call(es[k], i + k, b, true)) && Call(Last(es), i + |es| - 1, b, ok)
  }

  lemma CallsJoin(es: seq<Event>, i: nat, mid: nat, b: Bytes, more: seq<Event>, end: nat, ok: bool)
    requires Calls(es, i, mid, b, true) && Calls(more, mid, end, b, ok)
    ensures Calls(es + more, i, end, b, ok)
  {
    hide Call;
    var all := es + more;
    forall k | 0 <= k < |all| - 1 ensures Call(all[k], i + k, b, true) {
      if k >= |es| { assert all[k] == more[k - |es|] && i + k == mid + (k - |es|); }
    }
    assert i + |all| - 1 == mid + |more| - 1;
  }

  class StateJournal {
    var st: St
    ghost var trace: seq<Event>

    constructor (disk: Fs)
      ensures st == St(disk, Idle) && trace == []
    {
      st, trace := St(disk, Idle), [];
    }

    method Sys(e: Event)
      requires Step(st, e).Some?
      modifies this
      ensures Some(st) == Step(old(st), e) && trace == old(trace) + [e]
    {
      st, trace := Step(st, e).value, trace + [e];
    }

    /** `write_atomic`; `encoded` is None when the codec refuses the value, which counts as a
        failed open. It returns Ok exactly when all six calls succeeded, in order, and right
        after the first that failed otherwise. */
    method WriteAtomic(encoded: Option<Bytes>) returns (ok: bool, ghost more: seq<Event>)
      requires Inv(st) && st.pc.Idle?
      modifies this
      ensures Inv(st) && st.pc.Idle? && trace == old(trace) + more
      ensures if encoded.Some? then Calls(more, 0, 6, encoded.value, ok) else !ok && Calls(more, 0, 2, [], false)
      ensures ok ==> Read(st.fs) == encoded
      ensures ok ==> forall v :: Candidate(st.fs, v) <==> v == encoded || (v == None && st.fs.home == Young)
      ensures !ok ==> forall v ::
                (Candidate(old(st.fs), v) ==> Candidate(st.fs, v)) &&
                (Candidate(st.fs, v) ==> Candidate(old(st.fs), v) || v == encoded)
      ensures old(st.fs.home) == Settled ==> st.fs.home == Settled
    {
      hide Candidate, Inv, Calls;
      ok, more := FillTmp(encoded);
      if encoded.Some? { WidenCalls(more, encoded.value, ok); }
      if ok {
        ghost var rest;
        ok, rest := Publish(encoded.value);
        CallsJoin(more, 0, 4, encoded.value, rest, 6, ok);
        more := more + rest;
      }
    }

    /** Up to the synced temporary file: nothing changes about what can be recovered. */
    method FillTmp(encoded: Option<Bytes>) returns (ok: bool, ghost more: seq<Event>)
      requires Inv(st) && st.pc.Idle?
      modifies this
      ensures Inv(st) && trace == old(trace) + more
      ensures if encoded.Some? then Calls(more, 0, 4, encoded.value, ok) else !ok && Calls(more, 0, 2, [], false)
      ensures if ok then st.pc.Synced? && Some(st.pc.b) == encoded else st.pc.Idle?
      ensures forall v :: Candidate(old(st.fs), v) <==> Candidate(st.fs, v)
      ensures old(st.fs.home) == Settled ==> st.fs.home == Settled
    {
      hide Candidate, Inv;
      var b := if encoded.Some? then encoded.value else [];
      ok := *;
      more := [MkDirs(b, ok)];
      StepEffect(st, MkDirs(b, ok));
      Sys(MkDirs(b, ok));
      if !ok { return; }
      ok := *;
      if encoded.None? { ok := false; }
      more := more + [OpenTmp(ok)];
      StepEffect(st, OpenTmp(ok));
      Sys(OpenTmp(ok));
      if !ok { return; }
      ghost var rest;
      ok, rest := FillOpened(b);
      CallsJoin(more, 0, 2, b, rest, 4, ok);
      more := more + rest;
    }

    method FillOpened(b: Bytes) returns (ok: bool, ghost more: seq<Event>)
      requires Inv(st) && st.pc.Opened? && st.pc.b == b
      modifies this
      ensures Inv(st) && if ok then st.pc.Synced? && st.pc.b == b else st.pc.Idle?
      ensures trace == old(trace) + more && Calls(more, 2, 4, b, ok)
      ensures forall v :: Candidate(old(st.fs), v) <==> Candidate(st.fs, v)
      ensures old(st.fs.home) == st.fs.home
    {
      hide Candidate;
      var n: nat;
      ok, n := *, *;
      n := if ok || n > |b| then |b| else n;
      more := [WriteAll(n, ok)];
      StepEffect(st, WriteAll(n, ok));
      Sys(WriteAll(n, ok));
      if !ok { return; }
      ok := *;
      more := more + [SyncFile(ok)];
      StepEffect(st, SyncFile(ok));
      Sys(SyncFile(ok));
    }

    /** Rename and directory sync. */
    method Publish(b: Bytes) returns (ok: bool, ghost more: seq<Event>)
      requires Inv(st) && st.pc.Synced? && st.pc.b == b
      modifies this
      ensures Inv(st) && st.pc.Idle? && st.fs.home == old(st.fs.home)
      ensures trace == old(trace) + more && Calls(more, 4, 6, b, ok)
      ensures ok ==> Read(st.fs) == Some(b) && forall v ::
                Candidate(st.fs, v) <==>
                v == Some(b) || (v == None && st.fs.home == Young)
      ensures !ok ==> forall v ::
                (Candidate(old(st.fs), v) ==> Candidate(st.fs, v)) &&
                (Candidate(st.fs, v) ==> Candidate(old(st.fs), v) || v == Some(b))
    {
      hide Candidate;
      ok := *;
      more := [RenameTmp(ok)];
      StepEffect(st, RenameTmp(ok));
      Sys(RenameTmp(ok));
      if !ok { return; }
      ok := *;
      more := more + [SyncDir(ok)];
      StepEffect(st, SyncDir(ok));
      if ok { SyncDirOk(st.fs); }
      Sys(SyncDir(ok));
    }

    /** `delete`. */
    method Delete() returns (ok: bool)
      requires Inv(st) && st.pc.Idle?
      modifies this
      ensures Inv(st) && st.pc.Idle? && trace == old(trace) + [Remove(ok)]
      ensures Read(st.fs) == if ok then None else old(Read(st.fs))
      ensures forall v :: Candidate(st.fs, v) <==> Candidate(old(st.fs), v) || (ok && v == None)
    {
      ok := *;
      NowIsTarget(st.fs);
      StepEffect(st, Remove(ok));
      if ok && Now(st.fs).journal.Some? { HomeOfJournal(st.fs); UnlinkOk(st.fs); }
      Sys(Remove(ok));
    }
  }

  /** A failure among the first four calls is a failure of the six. */
  lemma WidenCalls(es: seq<Event>, b: Bytes, ok: bool)
    requires Calls(es, 0, 4, b, ok)
    ensures !ok ==> Calls(es, 0, 6, b, ok)
  {
    hide Call;
  }
}
