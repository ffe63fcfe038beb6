/** `install_inherited_fds`: the post-fork shuffle that places the sources at descriptors
    `3 .. 3 + n`, over the descriptor-table semantics of `fcntl(F_DUPFD)`, `dup2` and
    `close` in POSIX.1-2017. */
module FdShuffle {
  /** An open descriptor: the file description it refers to and its close-on-exec flag. */
  datatype Entry = Entry(desc: nat, cloexec: bool)

  type Table = map<int, Entry>

  const FIRST := 3

  /** The lowest free descriptor at or above `lo`, if there is one below `limit`. */
  function LowestFree(t: Table, lo: int, limit: int): (r: int)
    ensures lo <= r && (r < limit ==> r !in t) && (lo <= limit ==> r <= limit)
    ensures forall k :: lo <= k < r ==> k in t || k >= limit
    decreases limit - lo
  {
    if lo >= limit || lo !in t then lo else LowestFree(t, lo + 1, limit)
  }

  /** The process's descriptor table, with its resource limit. */
  class FdTable {
    var open: Table
    const limit: int
    /** Whether some `dup2` was called with equal arguments, which would have left
        close-on-exec set. */
    ghost var selfDup: bool

    constructor (open: Table, limit: int)
      ensures this.open == open && this.limit == limit && !selfDup
    {
      this.open, this.limit, this.selfDup := open, limit, false;
    }

    /** `fcntl(fd, F_DUPFD, lo)`. */
    method DupFd(fd: int, lo: int) returns (r: int)
      modifies this`open
      ensures fd in old(open) && LowestFree(old(open), lo, limit) < limit ==>
                r == LowestFree(old(open), lo, limit) && open == old(open)[r := Entry(old(open)[fd].desc, false)]
      ensures !(fd in old(open) && LowestFree(old(open), lo, limit) < limit) ==> r == -1 && open == old(open)
    {
      if fd !in open { return -1; }
      r := LowestFree(open, lo, limit);
      if r >= limit { return -1; }
      open := open[r := Entry(open[fd].desc, false)];
    }

    /** `dup2(src, dst)`. */
    method Dup2(src: int, dst: int) returns (ok: bool)
      modifies this
      ensures ok <==> src in old(open) && 0 <= dst < limit
      ensures open == if !ok || src == dst then old(open) else old(open)[dst := Entry(old(open)[src].desc, false)]
      ensures selfDup <==> old(selfDup) || src == dst
    {
      if src == dst { selfDup := true; }
      if src !in open || !(0 <= dst < limit) { return false; }
      ok := true;
      if src != dst { open := open[dst := Entry(open[src].desc, false)]; }
    }

    method Close(fd: int)
      modifies this`open
      ensures open == old(open) - {fd}
    {
      open := open - {fd};
    }
  }

  // ---------------------------------------------------------------- specification

  predicate AllOpen(t: Table, sources: seq<int>) {
    forall k :: 0 <= k < |sources| ==> sources[k] in t
  }

  /** The free descriptors in `[lo, limit)`. */
  function Free(t: Table, lo: int, limit: int): set<int> {
    set k: int | lo <= k < limit && k !in t
  }

  /** What the child must see: slot `3 + i` refers to the description that was behind
      `sources[i]`, close-on-exec clear, and every other descriptor is as it was. */
  ghost predicate Installed(t: Table, sources: seq<int>, u: Table)
    requires AllOpen(t, sources)
  {
    && (forall i :: 0 <= i < |sources| ==> Holds(u, FIRST + i, t[sources[i]].desc))
    && SameOutside(t, |sources|, u)
  }

  /** The specification leaves no freedom: it determines the whole table. */
  lemma InstalledIsUnique(t: Table, sources: seq<int>, u: Table, v: Table)
    requires AllOpen(t, sources) && Installed(t, sources, u) && Installed(t, sources, v)
    ensures u == v
  {
    forall fd ensures fd in u <==> fd in v {
      if FIRST <= fd < FIRST + |sources| {
        assert Holds(u, FIRST + (fd - FIRST), t[sources[fd - FIRST]].desc);
        assert Holds(v, FIRST + (fd - FIRST), t[sources[fd - FIRST]].desc);
      }
    }
    forall fd | fd in u ensures u[fd] == v[fd] {
      if FIRST <= fd < FIRST + |sources| {
        assert Holds(u, FIRST + (fd - FIRST), t[sources[fd - FIRST]].desc);
        assert Holds(v, FIRST + (fd - FIRST), t[sources[fd - FIRST]].desc);
      }
    }
  }

  /** `fd` is open on that description and survives `execve`. */
  predicate Holds(u: Table, fd: int, desc: nat) {
    fd in u && u[fd] == Entry(desc, false)
  }

  ghost predicate SameOutside(t: Table, n: nat, u: Table) {
    forall fd :: !(FIRST <= fd < FIRST + n) ==> (fd in u <==> fd in t) && (fd in t ==> u[fd] == t[fd])
  }

  /** The `k`-th descriptor at or above `lo` that is not open. */
  function Spare(t: Table, lo: int, limit: int, k: nat): (r: int)
    ensures lo <= r && (r < limit ==> r !in t)
  {
    if k == 0 then LowestFree(t, lo, limit) else LowestFree(t, Spare(t, lo, limit, k - 1) + 1, limit)
  }

  /** `fd` is one of the first `k` spares. */
  ghost predicate IsSpare(t: Table, lo: int, limit: int, k: nat, fd: int) {
    exists i: nat :: i < k && Spare(t, lo, limit, i) == fd
  }

  /** Whether every source can be staged: a spare for each, and each source open, if not
      from the start then as the duplicate of an earlier one. */
  ghost predicate CanStage(t: Table, sources: seq<int>, limit: int) {
    forall j: nat :: j < |sources| ==> Stages(t, sources, limit, j)
  }

  ghost predicate Stages(t: Table, sources: seq<int>, limit: int, j: nat)
    requires j < |sources|
  {
    var lo := FIRST + |sources|;
    Spare(t, lo, limit, j) < limit && (sources[j] in t || IsSpare(t, lo, limit, j, sources[j]))
  }

  lemma {:induction false} SparesFill(t: Table, lo: int, limit: int, k: nat, x: int)
    requires lo <= x < Spare(t, lo, limit, k) && x < limit
    ensures x in t || IsSpare(t, lo, limit, k, x)
  {
    if k > 0 {
      var last := Spare(t, lo, limit, k - 1);
      if x < last { SparesFill(t, lo, limit, k - 1, x); } else if x == last { assert IsSpare(t, lo, limit, k, x); }
    }
  }

  lemma {:induction false} SparesRise(t: Table, lo: int, limit: int, i: nat, k: nat)
    requires i < k
    ensures Spare(t, lo, limit, i) < Spare(t, lo, limit, k)
  {
    if i < k - 1 { SparesRise(t, lo, limit, i, k - 1); }
  }

  /** The next `F_DUPFD` returns the next spare. */
  lemma NextSpare(t: Table, u: Table, lo: int, limit: int, k: nat)
    requires forall fd :: fd in u <==> fd in t || IsSpare(t, lo, limit, k, fd)
    ensures var r, s := LowestFree(u, lo, limit), Spare(t, lo, limit, k); r == s || (r >= limit && s >= limit)
  {
    hide Spare, LowestFree;
    var r, s := LowestFree(u, lo, limit), Spare(t, lo, limit, k);
    if r < s && r < limit {
      SparesFill(t, lo, limit, k, r);
    } else if s < r && s < limit {
      assert s in u && IsSpare(t, lo, limit, k, s);
      var i: nat :| i < k && Spare(t, lo, limit, i) == s;
      SparesRise(t, lo, limit, i, k);
    }
  }

  /** The description a staged source stands for: its own, or that of the earlier source
      whose duplicate took its number. */
  predicate Resolved(t: Table, sources: seq<int>, w: seq<int>, descs: seq<nat>, j: nat)
    requires j < |descs| <= |w| == |sources|
  {
    if sources[j] in t then descs[j] == t[sources[j]].desc
    else exists i :: 0 <= i < j && w[i] == sources[j] && descs[i] == descs[j]
  }

  ghost predicate StagedAt(t: Table, sources: seq<int>, w: seq<int>, descs: seq<nat>, u: Table, limit: int, j: nat)
    requires j < |descs| <= |w| == |sources|
  {
    w[j] == Spare(t, FIRST + |sources|, limit, j) && Holds(u, w[j], descs[j]) && Resolved(t, sources, w, descs, j)
  }

  /** After staging the first `|descs|` sources: the old table plus their duplicates at the
      spare descriptors above the target range. */
  ghost predicate StagedOk(t: Table, sources: seq<int>, w: seq<int>, descs: seq<nat>, staged: set<int>, u: Table,
                           limit: int)
    requires |descs| <= |w| == |sources|
  {
    var k, lo := |descs|, FIRST + |sources|;
    && |staged| == k && staged <= Free(t, lo, limit)
    && (forall j: nat :: j < k ==> StagedAt(t, sources, w, descs, u, limit, j))
    && (forall j :: k <= j < |w| ==> w[j] == sources[j])
    && (forall fd :: fd in u <==> fd in t || fd in staged)
    && (forall fd :: fd in staged <==> IsSpare(t, lo, limit, k, fd))
    && (forall fd :: fd in t ==> u[fd] == t[fd])
  }

  /** A failed `F_DUPFD` means the spare descriptors have run out. */
  lemma OutOfSpares(t: Table, staged: set<int>, u: Table, lo: int, limit: int)
    requires staged <= Free(t, lo, limit) && (forall fd :: fd in u <==> fd in t || fd in staged)
    requires LowestFree(u, lo, limit) >= limit
    ensures |Free(t, lo, limit)| == |staged|
  {
    forall k | k in Free(t, lo, limit) ensures k in staged { }
    assert Free(t, lo, limit) == staged;
  }

  lemma {:induction false} SubsetSize<T>(a: set<T>, b: set<T>)
    requires a <= b
    ensures |a| <= |b|
  {
    if a != {} {
      var x :| x in a;
      SubsetSize(a - {x}, b - {x});
    }
  }

  // ---------------------------------------------------------------- the shuffle

  /** Stage 1: lift every source above the destination range. */
  method StageAll(working: array<int>, t: FdTable) returns (ok: bool, ghost staged: set<int>, ghost descs: seq<nat>)
    modifies working, t`open
    ensures ok <==> CanStage(old(t.open), old(working[..]), t.limit)
    ensures ok ==>
            |descs| == working.Length &&
            StagedOk(old(t.open), old(working[..]), working[..], descs, staged, t.open, t.limit)
    ensures AllOpen(old(t.open), old(working[..])) ==>
            (ok <==> |Free(old(t.open), FIRST + working.Length, t.limit)| >= working.Length)
    ensures !ok ==> forall fd :: fd in old(t.open) ==> fd in t.open && t.open[fd] == old(t.open)[fd]
  {
    hide StagedOk, Stages, Spare, IsSpare, Free, LowestFree;
    var n := working.Length;
    var lo := FIRST + n;
    staged, descs := {}, [];
    ghost var src, t0 := working[..], t.open;
    StageNone(t0, src, t.limit);
    var k := 0;
    while k < n
      invariant 0 <= k <= n == |src| && |descs| == k && StagedOk(t0, src, working[..], descs, staged, t.open, t.limit)
      invariant forall j: nat :: j < k ==> Stages(t0, src, t.limit, j)
    {
      ghost var before, w := t.open, working[..];
      StageFacts(t0, src, w, descs, staged, before, t.limit);
      assert working[k] == w[k];
      var newFd := t.DupFd(working[k], lo);
      if newFd == -1 {
        if AllOpen(t0, src) { OutOfSpares(t0, staged, before, lo, t.limit); }
        return false, staged, descs;
      }
      StageOne(t0, src, w, descs, staged, before, t.limit, newFd);
      working[k] := newFd;
      assert working[..] == w[k := newFd];
      staged, descs := staged + {newFd}, descs + [before[src[k]].desc];
      k := k + 1;
    }
    StageDone(t0, src, working[..], descs, staged, t.open, t.limit);
    return true, staged, descs;
  }

  lemma StageNone(t: Table, src: seq<int>, limit: int)
    ensures StagedOk(t, src, src, [], {}, t, limit)
  {
  }

  lemma StageDone(t: Table, src: seq<int>, w: seq<int>, descs: seq<nat>, staged: set<int>, u: Table, limit: int)
    requires |descs| == |w| == |src| && StagedOk(t, src, w, descs, staged, u, limit)
    ensures |Free(t, FIRST + |src|, limit)| >= |src|
  {
    hide StagedAt, Spare;
    SubsetSize(staged, Free(t, FIRST + |src|, limit));
  }

  /** Where staging stands before the next source, and that the next source can be staged
      exactly when it is open by now and a spare is left. */
  lemma StageFacts(t: Table, src: seq<int>, w: seq<int>, descs: seq<nat>, staged: set<int>, u: Table, limit: int)
    requires |descs| < |w| == |src| && StagedOk(t, src, w, descs, staged, u, limit)
    ensures |staged| == |descs| && staged <= Free(t, FIRST + |src|, limit) && w[|descs|] == src[|descs|]
    ensures (forall fd :: fd in u <==> fd in t || fd in staged) && (forall fd :: fd in t ==> u[fd] == t[fd])
    ensures var r, s := LowestFree(u, FIRST + |src|, limit), Spare(t, FIRST + |src|, limit, |descs|);
            r == s || (r >= limit && s >= limit)
    ensures Stages(t, src, limit, |descs|) <==> src[|descs|] in u && LowestFree(u, FIRST + |src|, limit) < limit
  {
    hide Spare, StagedAt, LowestFree;
    NextSpare(t, u, FIRST + |src|, limit, |descs|);
  }

  lemma StageOne(t: Table, src: seq<int>, w: seq<int>, descs: seq<nat>, staged: set<int>, u: Table, limit: int, r: int)
    requires |descs| < |w| == |src| && StagedOk(t, src, w, descs, staged, u, limit) && src[|descs|] in u
    requires r == Spare(t, FIRST + |src|, limit, |descs|) < limit && r !in u
    ensures StagedOk(t, src, w[|descs| := r], descs + [u[src[|descs|]].desc], staged + {r},
                     u[r := Entry(u[src[|descs|]].desc, false)], limit)
  {
    hide Spare, StagedAt, IsSpare;
    var k, lo := |descs|, FIRST + |src|;
    var w', descs', u' := w[k := r], descs + [u[src[k]].desc], u[r := Entry(u[src[k]].desc, false)];
    assert r in Free(t, lo, limit);
    forall fd ensures fd in staged + {r} <==> IsSpare(t, lo, limit, k + 1, fd) { SpareSnoc(t, lo, limit, k, fd); }
    forall j: nat | j < k + 1 ensures StagedAt(t, src, w', descs', u', limit, j) {
      if j < k {
        StagedEarlier(t, src, w, descs, u, limit, j, r);
      } else {
        StagedNow(t, src, w, descs, staged, u, limit, r);
      }
    }
  }

  lemma SpareSnoc(t: Table, lo: int, limit: int, k: nat, fd: int)
    ensures IsSpare(t, lo, limit, k + 1, fd) <==> IsSpare(t, lo, limit, k, fd) || Spare(t, lo, limit, k) == fd
  {
    hide Spare;
    if i: nat :| i < k + 1 && Spare(t, lo, limit, i) == fd { assert i < k ==> IsSpare(t, lo, limit, k, fd); }
    if i: nat :| i < k && Spare(t, lo, limit, i) == fd { assert IsSpare(t, lo, limit, k + 1, fd); }
  }

  lemma StagedEarlier(t: Table, src: seq<int>, w: seq<int>, descs: seq<nat>, u: Table, limit: int, j: nat, r: int)
    requires j < |descs| < |w| == |src| && StagedAt(t, src, w, descs, u, limit, j) && src[|descs|] in u && r !in u
    ensures StagedAt(t, src, w[|descs| := r], descs + [u[src[|descs|]].desc],
                     u[r := Entry(u[src[|descs|]].desc, false)], limit, j)
  {
    hide Spare;
    var w', descs' := w[|descs| := r], descs + [u[src[|descs|]].desc];
    if src[j] !in t {
      var i :| 0 <= i < j && w[i] == src[j] && descs[i] == descs[j];
      assert w'[i] == src[j] && descs'[i] == descs'[j];
    }
  }

  lemma StagedNow(t: Table, src: seq<int>, w: seq<int>, descs: seq<nat>, staged: set<int>, u: Table, limit: int, r: int)
    requires |descs| < |w| == |src| && StagedOk(t, src, w, descs, staged, u, limit) && src[|descs|] in u
    requires r == Spare(t, FIRST + |src|, limit, |descs|)
    ensures StagedAt(t, src, w[|descs| := r], descs + [u[src[|descs|]].desc],
                     u[r := Entry(u[src[|descs|]].desc, false)], limit, |descs|)
  {
    hide Spare;
    var k := |descs|;
    var w', descs' := w[k := r], descs + [u[src[k]].desc];
    if src[k] !in t {
      assert IsSpare(t, FIRST + |src|, limit, k, src[k]);
      var i: nat :| i < k && Spare(t, FIRST + |src|, limit, i) == src[k];
      assert StagedAt(t, src, w, descs, u, limit, i);
      assert w'[i] == src[k] && descs'[i] == descs'[k];
    }
  }

  /** Stage 2: settle each staged descriptor at its slot. */
  method SettleAll(working: array<int>, t: FdTable, ghost t0: Table, ghost src: seq<int>, ghost descs: seq<nat>,
                   ghost staged: set<int>)
      returns (ok: bool)
    requires |src| == |descs| == working.Length
    requires StagedOk(t0, src, working[..], descs, staged, t.open, t.limit)
    modifies t
    ensures ok && t.selfDup == old(t.selfDup)
    ensures forall i :: 0 <= i < |src| ==> Holds(t.open, FIRST + i, descs[i])
    ensures SameOutside(old(t.open), |src|, t.open)
  {
    hide StagedOk;
    ghost var w := working[..];
    StagedSlots(t0, src, w, descs, staged, t.open, t.limit);
    var i := 0;
    while i < working.Length
      invariant 0 <= i <= working.Length && t.selfDup == old(t.selfDup)
      invariant forall j :: 0 <= j < i ==> Holds(t.open, FIRST + j, descs[j])
      invariant SameOutside(old(t.open), |src|, t.open)
    {
      assert w[i] == working[i];
      ok := t.Dup2(working[i], FIRST + i);
      if !ok { return; }
      i := i + 1;
    }
    return true;
  }

  lemma StagedSlots(t: Table, src: seq<int>, w: seq<int>, descs: seq<nat>, staged: set<int>, u: Table, limit: int)
    requires |descs| == |w| == |src| && StagedOk(t, src, w, descs, staged, u, limit)
    ensures forall j :: 0 <= j < |w| ==> w[j] in staged && FIRST + |src| <= w[j] < limit && Holds(u, w[j], descs[j])
    ensures |staged| == |w| && forall i, j :: 0 <= i < j < |w| ==> w[i] != w[j]
  {
    hide Spare;
    forall j: nat | j < |w| ensures w[j] in staged && FIRST + |src| <= w[j] < limit && Holds(u, w[j], descs[j]) {
      assert StagedAt(t, src, w, descs, u, limit, j);
      assert IsSpare(t, FIRST + |src|, limit, |w|, w[j]);
      assert w[j] in Free(t, FIRST + |src|, limit);
    }
    forall i: nat, j: nat | i < j < |w| ensures w[i] != w[j] {
      assert StagedAt(t, src, w, descs, u, limit, i) && StagedAt(t, src, w, descs, u, limit, j);
      SparesRise(t, FIRST + |src|, limit, i, j);
    }
  }

  /** Stage 3: close the staging duplicates. */
  method CloseAll(working: array<int>, t: FdTable, ghost n: nat, ghost staged: set<int>)
    requires n == working.Length && (forall i :: 0 <= i < n ==> working[i] in staged)
    requires forall fd :: fd in staged ==> exists i :: 0 <= i < n && working[i] == fd
    modifies t`open
    ensures t.open == old(t.open) - staged
  {
    var i := 0;
    ghost var closed: set<int> := {};
    while i < working.Length
      invariant 0 <= i <= working.Length && closed <= staged && t.open == old(t.open) - closed
      invariant forall j :: 0 <= j < i ==> working[j] in closed
    {
      t.Close(working[i]);
      closed := closed + {working[i]};
      i := i + 1;
    }
    forall fd | fd in staged ensures fd in closed {
      var j :| 0 <= j < n && working[j] == fd;
    }
    assert closed == staged;
  }

  /** `install_inherited_fds`, for any sources, repeats and sources inside the target range
      included. It succeeds exactly when every source can be staged; for open sources that
      is when enough descriptors are spare above the target range. Then every slot whose
      source was open refers to it, and every descriptor outside the targets is as before;
      a source that was closed got through only if the duplicate of an earlier one took its
      number, and its slot refers to that one. On failure nothing that was open has been
      disturbed. No `dup2` has equal arguments. */
  method InstallInheritedFds(working: array<int>, t: FdTable) returns (ok: bool)
    modifies working, t
    ensures ok <==> CanStage(old(t.open), old(working[..]), t.limit)
    ensures AllOpen(old(t.open), old(working[..])) ==>
            (ok <==> |Free(old(t.open), FIRST + working.Length, t.limit)| >= working.Length)
    ensures ok && AllOpen(old(t.open), old(working[..])) ==> Installed(old(t.open), old(working[..]), t.open)
    ensures ok ==> SameOutside(old(t.open), working.Length, t.open)
    ensures ok ==> forall j: nat :: j < working.Length ==> Settled(old(t.open), old(working[..]), t.limit, t.open, j)
    ensures !ok ==> forall fd :: fd in old(t.open) ==> fd in t.open && t.open[fd] == old(t.open)[fd]
    ensures t.selfDup == old(t.selfDup)
  {
    hide StagedOk, Stages, Spare, Free, Settled;
    if working.Length == 0 { return true; }
    ghost var t0, src := t.open, working[..];
    ghost var staged, descs;
    ok, staged, descs := StageAll(working, t);
    if !ok { return; }
    ghost var before, w := t.open, working[..];
    ok := SettleAll(working, t, t0, src, descs, staged);
    StagedSlots(t0, src, w, descs, staged, before, t.limit);
    StagedIsRange(w, staged);
    forall fd | fd in staged ensures exists i :: 0 <= i < |src| && working[i] == fd {
      var i :| 0 <= i < |src| && w[i] == fd;
      assert working[i] == fd;
    }
    ghost var settled := t.open;
    CloseAll(working, t, |src|, staged);
    AfterClose(t0, src, w, descs, staged, before, settled, t.open, t.limit);
  }

  /** Slot `j` after the shuffle. */
  ghost predicate Settled(t: Table, sources: seq<int>, limit: int, u: Table, j: nat)
    requires j < |sources|
  {
    if sources[j] in t then Holds(u, FIRST + j, t[sources[j]].desc)
    else exists i: nat :: i < j && Spare(t, FIRST + |sources|, limit, i) == sources[j] && SlotsAgree(u, i, j)
  }

  predicate SlotsAgree(u: Table, i: nat, j: nat) {
    FIRST + i in u && FIRST + j in u && u[FIRST + i] == u[FIRST + j]
  }

  lemma AfterClose(t0: Table, src: seq<int>, w: seq<int>, descs: seq<nat>, staged: set<int>, before: Table,
                   settled: Table, u: Table, limit: int)
    requires |src| == |descs| == |w| && StagedOk(t0, src, w, descs, staged, before, limit)
    requires (forall i :: 0 <= i < |src| ==> Holds(settled, FIRST + i, descs[i])) &&
             SameOutside(before, |src|, settled) && u == settled - staged
    ensures SameOutside(t0, |src|, u)
    ensures forall j: nat :: j < |src| ==> Settled(t0, src, limit, u, j)
    ensures AllOpen(t0, src) ==> Installed(t0, src, u)
  {
    forall i | 0 <= i < |src| ensures Holds(u, FIRST + i, descs[i]) {
      assert Holds(settled, FIRST + i, descs[i]);
      assert FIRST + i !in Free(t0, FIRST + |src|, limit);
    }
    forall j: nat | j < |src| ensures Settled(t0, src, limit, u, j) {
      assert StagedAt(t0, src, w, descs, before, limit, j);
      if src[j] !in t0 {
        var i: nat :| i < j && w[i] == src[j] && descs[i] == descs[j];
        assert Holds(u, FIRST + i, descs[i]) && Holds(u, FIRST + j, descs[j]) &&
               StagedAt(t0, src, w, descs, before, limit, i);
        assert SlotsAgree(u, i, j);
        assert Spare(t0, FIRST + |src|, limit, i) == src[j];
      }
    }
    if AllOpen(t0, src) {
      forall i: nat | i < |src| ensures Holds(u, FIRST + i, t0[src[i]].desc) { assert Settled(t0, src, limit, u, i); }
    }
  }

  lemma StagedIsRange(w: seq<int>, staged: set<int>)
    requires |staged| == |w|
    requires forall j :: 0 <= j < |w| ==> w[j] in staged
    requires forall i, j :: 0 <= i < j < |w| ==> w[i] != w[j]
    ensures forall fd :: fd in staged ==> exists i :: 0 <= i < |w| && w[i] == fd
  {
    var range := set i | 0 <= i < |w| :: w[i];
    RangeSize(w);
    assert range <= staged;
    assert range == staged by { EqualBySize(range, staged); }
  }

  lemma {:induction false} RangeSize(w: seq<int>)
    requires forall i, j :: 0 <= i < j < |w| ==> w[i] != w[j]
    ensures |set i | 0 <= i < |w| :: w[i]| == |w|
  {
    if w != [] {
      var f := w[..|w| - 1];
      RangeSize(f);
      assert (set i | 0 <= i < |w| :: w[i]) == (set i | 0 <= i < |f| :: f[i]) + {w[|w| - 1]};
    }
  }

  lemma EqualBySize<T>(a: set<T>, b: set<T>)
    requires a <= b && |a| == |b|
    ensures a == b
  {
    if x :| x in b && x !in a {
      SubsetSize(a, b - {x});
    } else {
      assert a == b;
    }
  }
}
