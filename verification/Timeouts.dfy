/** The supervisor's two-tier timeouts: `read_until`, the seal-wait loop, and the time the
    three waits of one handoff can take together. Times are nanoseconds. */
module Timeouts {
  import opened Protocol

  const MILLI: nat := 1_000_000
  const MIN_READ_TIMEOUT: nat := 100 * MILLI
  const LIVENESS_TIMEOUT: nat := 10_000 * MILLI
  const WIRE_SLACK: nat := 1_000 * MILLI

  function Max(a: int, b: int): int { if a < b then b else a }

  function Min(a: int, b: int): int { if a < b then a else b }

  // ---------------------------------------------------------------- one stream

  datatype Frame = Good(m: Message) | Broken

  /** Bytes of one frame that a waiting recv would return at time `at`; `frame` is set on
      the chunk that completes it. A frame error or the end of the stream is `Broken`. */
  datatype Chunk = Chunk(at: nat, frame: Option<Frame>)

  /** How far the reader is in the stream, the clock, and whether the accumulator holds
      part of a frame. */
  datatype Cursor = Cursor(i: nat, now: nat, partial: bool)

  predicate Sorted(s: seq<Chunk>) { forall i, j :: 0 <= i < j < |s| ==> s[i].at <= s[j].at }

  /** `poll_read` with a per-recv timeout: each recv starts a fresh timer. */
  function Poll(s: seq<Chunk>, c: Cursor, timeout: nat): (r: (Option<Frame>, Cursor))
    requires c.i <= |s|
    ensures c.i <= r.1.i <= |s| && c.now <= r.1.now && (r.0.Some? ==> c.i < r.1.i && !r.1.partial)
    ensures r.0.None? ==> c.now + timeout <= r.1.now
    decreases |s| - c.i
  {
    if c.i == |s| || s[c.i].at > c.now + timeout then (None, c.(now := c.now + timeout))
    else
      var now := Max(c.now, s[c.i].at);
      if s[c.i].frame.Some? then (s[c.i].frame, Cursor(c.i + 1, now, false))
      else Poll(s, Cursor(c.i + 1, now, true), timeout)
  }

  datatype Outcome = Accepted(m: Message) | Unexpected(m: Message) | Failed | TimedOut

  predicate IsDrained(m: Message) { m.Drained? }

  function RecvTimeout(now: nat, deadline: nat): (t: nat)
    requires now < deadline
    ensures MIN_READ_TIMEOUT <= t <= LIVENESS_TIMEOUT && (t < LIVENESS_TIMEOUT ==> deadline <= now + t)
    ensures now + t < deadline + MIN_READ_TIMEOUT
  {
    Max(Min(LIVENESS_TIMEOUT, deadline - now), MIN_READ_TIMEOUT)
  }

  /** Both wait loops: read frames until a wanted one, a stray one, or a timeout. */
  function Wait(s: seq<Chunk>, c: Cursor, deadline: nat, want: Message -> bool): (r: (Outcome, Cursor))
    requires c.i <= |s|
    ensures c.i <= r.1.i <= |s| && c.now <= r.1.now
    decreases |s| - c.i, Max(0, deadline - c.now)
  {
    if c.now >= deadline then (TimedOut, c)
    else
      var (got, c') := Poll(s, c, RecvTimeout(c.now, deadline));
      match got
      case None => if c'.partial then Wait(s, c', deadline, want) else (TimedOut, c')
      case Some(Broken) => (Failed, c')
      case Some(Good(m)) =>
        if Progress(m) then Wait(s, c', deadline, want)
        else if want(m) then (Accepted(m), c')
        else (Unexpected(m), c')
  }

  // ---------------------------------------------------------------- what a wait returns

  /** Of the frames completed in `s[i..j]` none decides a wait. */
  predicate Undecided(s: seq<Chunk>, i: nat, j: nat)
    requires j <= |s|
  {
    forall k :: i <= k < j && s[k].frame.Some? ==> s[k].frame.value.Good? && Progress(s[k].frame.value.m)
  }

  /** Reading from `i` on, the chunk before `j` completes the first frame that decides, and
      that frame is `f`. */
  predicate Decides(s: seq<Chunk>, i: nat, j: nat, f: Frame) {
    && i < j <= |s| && s[j - 1].frame == Some(f) && Undecided(s, i, j - 1)
    && (f.Good? ==> !Progress(f.m))
  }

  /** The outcome of a wait that read from `i` to `j`, in terms of the stream alone. */
  predicate Sound(s: seq<Chunk>, i: nat, want: Message -> bool, out: Outcome, j: nat) {
    match out
    case Accepted(m) => want(m) && Decides(s, i, j, Good(m))
    case Unexpected(m) => !want(m) && Decides(s, i, j, Good(m))
    case Failed => Decides(s, i, j, Broken)
    case TimedOut => i <= j <= |s| && Undecided(s, i, j)
  }

  lemma {:induction false} PollReads(s: seq<Chunk>, c: Cursor, timeout: nat)
    requires c.i <= |s|
    ensures var (got, c') := Poll(s, c, timeout);
            var end := if got.Some? then c'.i - 1 else c'.i;
            && (got.Some? ==> s[end].frame == got)
            && forall k :: c.i <= k < end ==> s[k].frame.None?
    decreases |s| - c.i
  {
    if c.i < |s| && s[c.i].at <= c.now + timeout && s[c.i].frame.None? {
      PollReads(s, Cursor(c.i + 1, Max(c.now, s[c.i].at), true), timeout);
    }
  }

  /** A wait is decided by the first frame that is not a sign of life, and by nothing else:
      accepted exactly when it is wanted, never skipped, never invented. */
  lemma {:induction false} WaitIsSound(s: seq<Chunk>, c: Cursor, deadline: nat, want: Message -> bool)
    requires c.i <= |s|
    ensures Sound(s, c.i, want, Wait(s, c, deadline, want).0, Wait(s, c, deadline, want).1.i)
    decreases |s| - c.i, Max(0, deadline - c.now)
  {
    if c.now < deadline {
      var t := RecvTimeout(c.now, deadline);
      PollReads(s, c, t);
      var (got, c') := Poll(s, c, t);
      if (got.None? && c'.partial) || (got.Some? && got.value.Good? && Progress(got.value.m)) {
        WaitIsSound(s, c', deadline, want);
      }
    }
  }

  lemma {:induction false} PollKeepsTime(s: seq<Chunk>, c: Cursor, timeout: nat)
    requires c.i <= |s|
    ensures var (got, c') := Poll(s, c, timeout);
            && (c.i < c'.i ==> s[c'.i - 1].at <= c'.now)
            && (got.None? ==> (c.i < c'.i ==> s[c'.i - 1].at + timeout <= c'.now))
            && (got.None? && c'.i < |s| ==> s[c'.i].at > c'.now)
    decreases |s| - c.i
  {
    if c.i < |s| && s[c.i].at <= c.now + timeout && s[c.i].frame.None? {
      PollKeepsTime(s, Cursor(c.i + 1, Max(c.now, s[c.i].at), true), timeout);
    }
  }

  /** Why a wait timed out: its deadline has passed, or the peer has been silent between two
      frames for ten seconds. A frame that is under way is never given up before that. */
  lemma {:induction false} TimedOutWhy(s: seq<Chunk>, c: Cursor, deadline: nat, want: Message -> bool)
    requires c.i <= |s| && Wait(s, c, deadline, want).0 == TimedOut
    ensures var c' := Wait(s, c, deadline, want).1;
            || c'.now >= deadline
            || (&& !c'.partial && c.now + 10_000_000_000 <= c'.now && (c'.i < |s| ==> s[c'.i].at > c'.now)
                && (c.i < c'.i ==> s[c'.i - 1].at + 10_000_000_000 <= c'.now))
    decreases |s| - c.i, Max(0, deadline - c.now)
  {
    if c.now < deadline {
      var t := RecvTimeout(c.now, deadline);
      PollKeepsTime(s, c, t);
      var (got, c') := Poll(s, c, t);
      if (got.None? && c'.partial) || got.Some? { TimedOutWhy(s, c', deadline, want); }
    }
  }

  /** A dead peer is noticed: when only signs of life are left and the last frame is whole,
      the wait times out ten seconds after the last of them at the latest. */
  lemma {:induction false} DeadPeerIsNoticed(s: seq<Chunk>, c: Cursor, deadline: nat, want: Message -> bool, last: nat)
    requires c.i <= |s| && Undecided(s, c.i, |s|) && (if c.i == |s| then !c.partial else s[|s| - 1].frame.Some?)
    requires c.now <= last && forall k :: c.i <= k < |s| ==> s[k].at <= last
    ensures Wait(s, c, deadline, want).0 == TimedOut
    ensures Wait(s, c, deadline, want).1.now <= last + 10_000_000_000
    decreases |s| - c.i, Max(0, deadline - c.now)
  {
    if c.now < deadline {
      var t := RecvTimeout(c.now, deadline);
      PollReads(s, c, t);
      PollStopsAtLast(s, c, t, last);
      var (got, c') := Poll(s, c, t);
      if (got.None? && c'.partial) || got.Some? { DeadPeerIsNoticed(s, c', deadline, want, last); }
    }
  }

  lemma {:induction false} PollStopsAtLast(s: seq<Chunk>, c: Cursor, timeout: nat, last: nat)
    requires c.i <= |s| && c.now <= last && forall k :: c.i <= k < |s| ==> s[k].at <= last
    requires if c.i == |s| then !c.partial else s[|s| - 1].frame.Some?
    ensures var (got, c') := Poll(s, c, timeout);
            && (got.None? && c'.partial ==> c'.i < |s| && c'.now <= last)
            && (got.None? ==> c'.now <= last + timeout)
            && (got.Some? ==> c'.now <= last)
    decreases |s| - c.i
  {
    if c.i < |s| && s[c.i].at <= c.now + timeout && s[c.i].frame.None? {
      PollStopsAtLast(s, Cursor(c.i + 1, Max(c.now, s[c.i].at), true), timeout, last);
    }
  }

  // ---------------------------------------------------------------- the loops

  /** One receive: the recv calls of `poll_read`. */
  method PollRead(s: seq<Chunk>, c: Cursor, timeout: nat) returns (got: Option<Frame>, c': Cursor)
    requires c.i <= |s|
    ensures (got, c') == Poll(s, c, timeout)
  {
    c' := c;
    while c'.i < |s| && s[c'.i].at <= c'.now + timeout
      invariant c'.i <= |s| && Poll(s, c', timeout) == Poll(s, c, timeout)
      decreases |s| - c'.i
    {
      var now := Max(c'.now, s[c'.i].at);
      if s[c'.i].frame.Some? { return s[c'.i].frame, Cursor(c'.i + 1, now, false); }
      c' := Cursor(c'.i + 1, now, true);
    }
    return None, c'.(now := c'.now + timeout);
  }

  method ReadUntil(s: seq<Chunk>, c: Cursor, timeout: nat, want: Message -> bool) returns (r: Outcome, c': Cursor)
    requires c.i <= |s|
    ensures (r, c') == Wait(s, c, c.now + Max(timeout, MIN_READ_TIMEOUT), want)
    ensures Sound(s, c.i, want, r, c'.i)
  {
    var deadline := c.now + Max(timeout, MIN_READ_TIMEOUT);
    WaitIsSound(s, c, deadline, want);
    c' := c;
    while c'.now < deadline
      invariant c'.i <= |s| && Wait(s, c', deadline, want) == Wait(s, c, deadline, want)
      decreases |s| - c'.i, Max(0, deadline - c'.now)
    {
      var got;
      got, c' := PollRead(s, c', RecvTimeout(c'.now, deadline));
      match got
      case None => if !c'.partial { return TimedOut, c'; }
      case Some(Broken) => return Failed, c';
      case Some(Good(m)) =>
        if !Progress(m) {
          if want(m) { return Accepted(m), c'; }
          return Unexpected(m), c';
        }
    }
    r := TimedOut;
  }

  predicate SealReply(id: HandoffId, m: Message) { m == SealComplete(id) || m == SealFailed(id) }

  /** The seal-wait loop of perform_handoff; it counts to an absolute deadline. */
  method SealWait(s: seq<Chunk>, c: Cursor, totalDeadline: nat, id: HandoffId) returns (r: Outcome, c': Cursor)
    requires c.i <= |s|
    ensures (r, c') == Wait(s, c, totalDeadline + WIRE_SLACK, m => SealReply(id, m))
    ensures Sound(s, c.i, m => m == SealComplete(id) || m == SealFailed(id), r, c'.i)
  {
    var deadline := totalDeadline + WIRE_SLACK;
    ghost var want := m => SealReply(id, m);
    WaitIsSound(s, c, deadline, want);
    c' := c;
    while true
      invariant c'.i <= |s| && Wait(s, c', deadline, want) == Wait(s, c, deadline, want)
      decreases |s| - c'.i, Max(0, deadline - c'.now)
    {
      if c'.now >= deadline { return TimedOut, c'; }
      var got;
      got, c' := PollRead(s, c', RecvTimeout(c'.now, deadline));
      match got
      case None => if !c'.partial { return TimedOut, c'; }
      case Some(Broken) => return Failed, c';
      case Some(Good(m)) =>
        if m.SealProgress? || m.Heartbeat? { continue; }
        if m == SealComplete(id) || m == SealFailed(id) { return Accepted(m), c'; }
        return Unexpected(m), c';
    }
  }

  // ---------------------------------------------------------------- liveness

  /** From time `since` on, no silence reaches LIVENESS_TIMEOUT before `until`. */
  predicate Lively(s: seq<Chunk>, i: nat, since: nat, until: nat)
    requires i <= |s|
    decreases |s| - i
  {
    if since + LIVENESS_TIMEOUT > until then true
    else i < |s| && s[i].at < since + LIVENESS_TIMEOUT && Lively(s, i + 1, Max(since, s[i].at), until)
  }

  lemma {:induction false} PollKeepsLively(s: seq<Chunk>, c: Cursor, timeout: nat, until: nat)
    requires c.i <= |s| && Lively(s, c.i, c.now, until)
    ensures var (got, c') := Poll(s, c, timeout);
            if got.Some? then Lively(s, c'.i, c'.now, until) else timeout < LIVENESS_TIMEOUT || c'.now > until
    decreases |s| - c.i
  {
    if c.i < |s| && s[c.i].at <= c.now + timeout {
      assert Lively(s, c.i + 1, Max(c.now, s[c.i].at), until);
      if s[c.i].frame.None? { PollKeepsLively(s, Cursor(c.i + 1, Max(c.now, s[c.i].at), true), timeout, until); }
    }
  }

  /** A peer that never goes silent for LIVENESS_TIMEOUT is timed out only at the
      wall-clock budget. */
  lemma {:induction false} TimesOutOnlyAtBudget(s: seq<Chunk>, c: Cursor, deadline: nat, want: Message -> bool)
    requires c.i <= |s| && Lively(s, c.i, c.now, deadline)
    ensures Wait(s, c, deadline, want).0 == TimedOut ==> Wait(s, c, deadline, want).1.now >= deadline
    decreases |s| - c.i, Max(0, deadline - c.now)
  {
    if c.now < deadline {
      var t := RecvTimeout(c.now, deadline);
      PollKeepsLively(s, c, t, deadline);
      var (got, c') := Poll(s, c, t);
      if got.Some? && got.value.Good? && Progress(got.value.m) { TimesOutOnlyAtBudget(s, c', deadline, want); }
    }
  }

  /** Everything from `i` up to chunk `w` is keep-alive traffic without a LIVENESS_TIMEOUT
      gap, and chunk `w` completes the frame `m`. */
  ghost predicate Delivers(s: seq<Chunk>, i: nat, since: nat, w: nat, m: Message)
    requires i <= |s|
    decreases |s| - i
  {
    && i <= w < |s| && s[i].at < since + LIVENESS_TIMEOUT
    && if i == w then s[w].frame == Some(Good(m))
       else
         && (s[i].frame.Some? ==> s[i].frame.value.Good? && Progress(s[i].frame.value.m))
         && Delivers(s, i + 1, Max(since, s[i].at), w, m)
  }

  lemma {:induction false} PollDelivers(s: seq<Chunk>, c: Cursor, timeout: nat, w: nat, m: Message)
    requires c.i <= |s| && Sorted(s) && Delivers(s, c.i, c.now, w, m) &&
             (timeout < LIVENESS_TIMEOUT ==> s[w].at <= c.now + timeout)
    ensures var (got, c') := Poll(s, c, timeout);
            && got.Some? && got.value.Good? && c'.i <= w + 1 && c'.now <= Max(c.now, s[w].at)
            && if c'.i == w + 1 then got.value.m == m else Progress(got.value.m) && Delivers(s, c'.i, c'.now, w, m)
    decreases |s| - c.i
  {
    assert s[c.i].at <= s[w].at;
    if s[c.i].frame.None? { PollDelivers(s, Cursor(c.i + 1, Max(c.now, s[c.i].at), true), timeout, w, m); }
  }

  /** A reply that is whole before the deadline, after keep-alive traffic only, is
      accepted. */
  lemma {:induction false} AcceptsInTime(s: seq<Chunk>, c: Cursor, deadline: nat, want: Message -> bool, w: nat,
                                         m: Message)
    requires c.i <= |s| && Sorted(s) && Delivers(s, c.i, c.now, w, m) && want(m) && !Progress(m)
    requires c.now < deadline && s[w].at < deadline
    ensures Wait(s, c, deadline, want) == (Accepted(m), Wait(s, c, deadline, want).1)
    ensures Wait(s, c, deadline, want).1.now <= Max(c.now, s[w].at)
    decreases |s| - c.i
  {
    var t := RecvTimeout(c.now, deadline);
    PollDelivers(s, c, t, w, m);
    var (got, c') := Poll(s, c, t);
    if c'.i != w + 1 { AcceptsInTime(s, c', deadline, want, w, m); }
  }

  /** `remaining_until`. */
  function RemainingUntil(deadline: nat, now: nat): nat { Max(deadline - now, MIN_READ_TIMEOUT) }

  /** The PrepareHandoff frame that S builds at time `now`: the budget that is left, at least
      100 ms of it, and the whole drain grace, both in milliseconds. */
  function Prepare(id: HandoffId, n: Pid, totalDeadline: nat, drainGrace: nat, now: nat): (m: Message)
    ensures m.PrepareHandoff? && m.id == id && m.successorPid == n
    ensures m.deadlineMs * 1_000_000 <= Max(totalDeadline - now, 100_000_000) < (m.deadlineMs + 1) * 1_000_000
    ensures m.drainGraceMs * 1_000_000 <= drainGrace < (m.drainGraceMs + 1) * 1_000_000
  {
    PrepareHandoff(id, n, RemainingUntil(totalDeadline, now) / MILLI, drainGrace / MILLI)
  }

  /** The time O gives its drain hook, from the fields of PrepareHandoff. */
  function DrainBudget(m: Message): (t: nat)
    requires m.PrepareHandoff?
    ensures t <= m.drainGraceMs * 1_000_000 && t <= m.deadlineMs * 1_000_000
    ensures t == m.drainGraceMs * 1_000_000 || t == m.deadlineMs * 1_000_000
  {
    Min(m.drainGraceMs, m.deadlineMs) * MILLI
  }

  /** An O that drains inside the deadline it computes is heard: `request` and `reply` are
      the delays from sending PrepareHandoff to O's clock reading and from the end of the
      drain to S having the whole Drained frame. */
  lemma DrainedIsAccepted(s: seq<Chunk>, c: Cursor, id: HandoffId, n: Pid, drainGrace: nat, totalDeadline: nat,
                          sentAt: nat, request: nat, drain: nat, reply: nat, w: nat)
    requires c.i <= |s| && Sorted(s) && Delivers(s, c.i, c.now, w, Drained) && sentAt <= c.now
    requires drain <= DrainBudget(Prepare(id, n, totalDeadline, drainGrace, sentAt))
    requires s[w].at == sentAt + request + drain + reply && request + reply < WIRE_SLACK
    ensures Wait(s, c, c.now + Max(drainGrace + WIRE_SLACK, MIN_READ_TIMEOUT), IsDrained).0 == Accepted(Drained)
  {
    hide Wait, Sorted;
    var m := Prepare(id, n, totalDeadline, drainGrace, sentAt);
    AcceptsInTime(s, c, c.now + Max(drainGrace + WIRE_SLACK, MIN_READ_TIMEOUT), IsDrained, w, Drained);
  }

  // ---------------------------------------------------------------- wall clock

  /** Every poll_read of this wait returns within the timeout it was armed with. */
  ghost predicate Prompt(s: seq<Chunk>, c: Cursor, deadline: nat, want: Message -> bool)
    requires c.i <= |s|
    decreases |s| - c.i, Max(0, deadline - c.now)
  {
    c.now < deadline ==>
      var t := RecvTimeout(c.now, deadline);
      var (got, c') := Poll(s, c, t);
      c'.now <= c.now + t && ((got.None? && c'.partial) || (got.Some? && got.value.Good? && Progress(got.value.m)) ==>
                              Prompt(s, c', deadline, want))
  }

  /** A wait ends before its deadline plus MIN_READ_TIMEOUT. */
  lemma {:induction false} WaitEnds(s: seq<Chunk>, c: Cursor, deadline: nat, want: Message -> bool)
    requires c.i <= |s| && Prompt(s, c, deadline, want)
    ensures Wait(s, c, deadline, want).1.now < Max(c.now + 1, deadline + MIN_READ_TIMEOUT)
    decreases |s| - c.i, Max(0, deadline - c.now)
  {
    if c.now < deadline {
      var (got, c') := Poll(s, c, RecvTimeout(c.now, deadline));
      if (got.None? && c'.partial) || (got.Some? && got.value.Good? && Progress(got.value.m)) {
        WaitEnds(s, c', deadline, want);
      }
    }
  }

  /** When every frame arrives in one piece, every poll_read is prompt. */
  lemma {:induction false} WholeFramesArePrompt(s: seq<Chunk>, c: Cursor, deadline: nat, want: Message -> bool)
    requires c.i <= |s| && forall j :: 0 <= j < |s| ==> s[j].frame.Some?
    ensures Prompt(s, c, deadline, want)
    decreases |s| - c.i, Max(0, deadline - c.now)
  {
    if c.now < deadline {
      var (got, c') := Poll(s, c, RecvTimeout(c.now, deadline));
      WholeFramesArePrompt(s, c', deadline, want);
    }
  }

  /** `n` single chunks of one frame, MIN_READ_TIMEOUT apart. */
  function Trickle(n: nat): (s: seq<Chunk>)
    ensures |s| == n && forall j :: 0 <= j < n ==> s[j] == Chunk(j * MIN_READ_TIMEOUT, None)
  {
    seq(n, (j: nat) => Chunk(j * MIN_READ_TIMEOUT, None))
  }

  lemma {:induction false} TrickledPoll(n: nat, c: Cursor, timeout: nat)
    requires c.i <= n && timeout >= MIN_READ_TIMEOUT && c.now >= (c.i - 1) * MIN_READ_TIMEOUT
    ensures Poll(Trickle(n), c, timeout).1.now >= n * MIN_READ_TIMEOUT
    decreases n - c.i
  {
    if c.i < n {
      var now := Max(c.now, Trickle(n)[c.i].at);
      TrickledPoll(n, Cursor(c.i + 1, now, true), timeout);
    }
  }

  /** Without that assumption there is no bound: poll_read does not look at the clock
      between partial reads, so a trickling peer outlasts every deadline. */
  lemma TrickleOutlasts(deadline: nat, n: nat, want: Message -> bool)
    requires deadline > 0
    ensures Wait(Trickle(n), Cursor(0, 0, false), deadline, want).1.now >= n * MIN_READ_TIMEOUT
  {
    TrickledPoll(n, Cursor(0, 0, false), RecvTimeout(0, deadline));
  }

  // ---------------------------------------------------------------- one handoff

  function DrainDeadline(now: nat, drainGrace: nat): nat { now + Max(drainGrace + WIRE_SLACK, MIN_READ_TIMEOUT) }

  function ReadyDeadline(now: nat, totalDeadline: nat): nat {
    now + Max(RemainingUntil(totalDeadline, now) + WIRE_SLACK, MIN_READ_TIMEOUT)
  }

  predicate IsReady(m: Message) { m.Ready? }

  /** The configured budgets, and the time S spends between two waits: journal writes and
      the frame that asks for the next step. */
  datatype Plan = Plan(drainGrace: nat, totalDeadline: nat, id: HandoffId, sealGap: nat, readyGap: nat)

  /** The last wait that was entered, with its outcome and end. */
  datatype Timeline = Timeline(stage: Phase, outcome: Outcome, end: nat)

  /** The drain, seal and ready waits of one handoff; `o` and `n` are what the two peers
      send, read from `oc` and `nc` on, and the drain wait starts at `oc.now`. */
  function Waits(o: seq<Chunk>, oc: Cursor, n: seq<Chunk>, nc: Cursor, p: Plan): Timeline
    requires oc.i <= |o| && nc.i <= |n|
  {
    var (d, dc) := Wait(o, oc, DrainDeadline(oc.now, p.drainGrace), IsDrained);
    if !d.Accepted? then Timeline(Draining, d, dc.now)
    else
      var (s, sc) := Wait(o, dc.(now := dc.now + p.sealGap), p.totalDeadline + WIRE_SLACK, m => SealReply(p.id, m));
      if !s.Accepted? || s.m.SealFailed? then Timeline(Sealing, s, sc.now)
      else
        var start := sc.now + p.readyGap;
        var (r, rc) := Wait(n, nc.(now := start), ReadyDeadline(start, p.totalDeadline), IsReady);
        Timeline(AwaitingReady, r, rc.now)
  }

  /** Each wait that `Waits` can enter is prompt. */
  ghost predicate AllPrompt(o: seq<Chunk>, oc: Cursor, n: seq<Chunk>, nc: Cursor, p: Plan)
    requires oc.i <= |o| && nc.i <= |n|
  {
    var (d, dc) := Wait(o, oc, DrainDeadline(oc.now, p.drainGrace), IsDrained);
    var dc' := dc.(now := dc.now + p.sealGap);
    var (s, sc) := Wait(o, dc', p.totalDeadline + WIRE_SLACK, m => SealReply(p.id, m));
    var start := sc.now + p.readyGap;
    && Prompt(o, oc, DrainDeadline(oc.now, p.drainGrace), IsDrained)
    && Prompt(o, dc', p.totalDeadline + WIRE_SLACK, m => SealReply(p.id, m))
    && Prompt(n, nc.(now := start), ReadyDeadline(start, p.totalDeadline), IsReady)
  }

  /** The latest end the code allows. The drain wait alone may outlive the overall deadline;
      if the seal wait is entered before its own deadline, the seal and ready waits can each
      spend a slack of their own. */
  function LatestEnd(start: nat, p: Plan): nat {
    var late := start + p.drainGrace + WIRE_SLACK + MIN_READ_TIMEOUT - 1 + p.sealGap;
    if start + p.sealGap < p.totalDeadline + WIRE_SLACK
    then Max(late, p.totalDeadline + 2 * WIRE_SLACK + 3 * MIN_READ_TIMEOUT - 2 + p.readyGap)
    else late
  }

  lemma LateIsTimedOut(s: seq<Chunk>, c: Cursor, deadline: nat, want: Message -> bool)
    requires c.i <= |s| && c.now >= deadline
    ensures Wait(s, c, deadline, want) == (TimedOut, c)
  {
  }

  /** No handoff with prompt polls outlives `LatestEnd`. */
  lemma HandoffEndsInTime(o: seq<Chunk>, oc: Cursor, n: seq<Chunk>, nc: Cursor, p: Plan)
    requires oc.i <= |o| && nc.i <= |n| && AllPrompt(o, oc, n, nc, p)
    ensures Waits(o, oc, n, nc, p).end <= LatestEnd(oc.now, p)
  {
    hide Prompt, Wait;
    var (d, dc) := Wait(o, oc, DrainDeadline(oc.now, p.drainGrace), IsDrained);
    WaitEnds(o, oc, DrainDeadline(oc.now, p.drainGrace), IsDrained);
    if d.Accepted? {
      var dc' := dc.(now := dc.now + p.sealGap);
      var (s, sc) := Wait(o, dc', p.totalDeadline + WIRE_SLACK, m => SealReply(p.id, m));
      WaitEnds(o, dc', p.totalDeadline + WIRE_SLACK, m => SealReply(p.id, m));
      if s.Accepted? {
        if dc'.now >= p.totalDeadline + WIRE_SLACK {
          LateIsTimedOut(o, dc', p.totalDeadline + WIRE_SLACK, m => SealReply(p.id, m));
        }
        var start := sc.now + p.readyGap;
        WaitEnds(n, nc.(now := start), ReadyDeadline(start, p.totalDeadline), IsReady);
      }
    }
  }

  ghost predicate EndsDrain(o: seq<Chunk>, i: nat, out: Outcome, j: nat) {
    Sound(o, i, m => m == Drained, out, j)
  }

  ghost predicate EndsSeal(o: seq<Chunk>, i: nat, id: HandoffId, out: Outcome, j: nat) {
    Sound(o, i, m => m == SealComplete(id) || m == SealFailed(id), out, j)
  }

  ghost predicate EndsReady(n: seq<Chunk>, i: nat, out: Outcome, j: nat) {
    Sound(n, i, (m: Message) => m.Ready?, out, j)
  }

  /** How far the waits of one handoff got, in terms of what the peers sent. */
  ghost predicate Followed(o: seq<Chunk>, i: nat, n: seq<Chunk>, k: nat, id: HandoffId, t: Timeline) {
    match t.stage
    case Draining => !t.outcome.Accepted? && exists j :: EndsDrain(o, i, t.outcome, j)
    case Sealing =>
      && t.outcome != Accepted(SealComplete(id))
      && exists d, j :: Decides(o, i, d, Good(Drained)) && EndsSeal(o, d, id, t.outcome, j)
    case AwaitingReady =>
      exists d, e, j ::
        && Decides(o, i, d, Good(Drained)) && Decides(o, d, e, Good(SealComplete(id)))
        && EndsReady(n, k, t.outcome, j)
    case _ => false
  }

  /** The waits of perform_handoff in order, on one clock. */
  method HandoffWaits(o: seq<Chunk>, oc: Cursor, n: seq<Chunk>, nc: Cursor, p: Plan) returns (t: Timeline)
    requires oc.i <= |o| && nc.i <= |n|
    ensures t == Waits(o, oc, n, nc, p)
    ensures Followed(o, oc.i, n, nc.i, p.id, t)
    ensures AllPrompt(o, oc, n, nc, p) ==> t.end <= LatestEnd(oc.now, p)
  {
    hide Waits, AllPrompt, LatestEnd, Followed;
    t := WaitInOrder(o, oc, n, nc, p);
    if AllPrompt(o, oc, n, nc, p) { HandoffEndsInTime(o, oc, n, nc, p); }
  }

  method WaitInOrder(o: seq<Chunk>, oc: Cursor, n: seq<Chunk>, nc: Cursor, p: Plan) returns (t: Timeline)
    requires oc.i <= |o| && nc.i <= |n|
    ensures t == Waits(o, oc, n, nc, p) && Followed(o, oc.i, n, nc.i, p.id, t)
  {
    hide Wait, Decides, Undecided;
    var d, dc := ReadUntil(o, oc, p.drainGrace + WIRE_SLACK, IsDrained);
    assert EndsDrain(o, oc.i, d, dc.i);
    if !d.Accepted? { return Timeline(Draining, d, dc.now); }
    var s, sc := SealWait(o, dc.(now := dc.now + p.sealGap), p.totalDeadline, p.id);
    assert EndsSeal(o, dc.i, p.id, s, sc.i);
    if !s.Accepted? || s.m.SealFailed? { return Timeline(Sealing, s, sc.now); }
    var start := sc.now + p.readyGap;
    var r, rc := ReadUntil(n, nc.(now := start), RemainingUntil(p.totalDeadline, start) + WIRE_SLACK, IsReady);
    assert EndsReady(n, nc.i, r, rc.i);
    return Timeline(AwaitingReady, r, rc.now);
  }

  // ---------------------------------------------------------------- the bound is exact

  const BEAT: Option<Frame> := Some(Good(Heartbeat))

  /** Heartbeats that keep a wait alive from `now` to the last instant before its deadline. */
  function Pulse(now: nat, deadline: nat): (s: seq<Chunk>)
    requires now < deadline
    ensures |s| >= 1 && forall j :: 0 <= j < |s| ==> s[j].frame == BEAT
    decreases deadline - now
  {
    if deadline - now <= LIVENESS_TIMEOUT then [Chunk(deadline - 1, BEAT)]
    else [Chunk(now + LIVENESS_TIMEOUT, BEAT)] + Pulse(now + LIVENESS_TIMEOUT, deadline)
  }

  lemma BeatStep(s: seq<Chunk>, i: nat, now: nat, deadline: nat, want: Message -> bool)
    requires i < |s| && now < deadline && s[i].frame == BEAT && now <= s[i].at <= now + RecvTimeout(now, deadline)
    ensures Wait(s, Cursor(i, now, false), deadline, want) == Wait(s, Cursor(i + 1, s[i].at, false), deadline, want)
  {
    assert Poll(s, Cursor(i, now, false), RecvTimeout(now, deadline)) == (BEAT, Cursor(i + 1, s[i].at, false));
  }

  lemma {:induction false} PulseWait(pre: seq<Chunk>, now: nat, deadline: nat, post: seq<Chunk>, want: Message -> bool)
    requires now < deadline
    ensures var pulse := Pulse(now, deadline); var s := pre + pulse + post;
            Wait(s, Cursor(|pre|, now, false), deadline, want) ==
                Wait(s, Cursor(|pre| + |pulse|, deadline - 1, false), deadline, want)
    decreases deadline - now
  {
    hide Wait;
    var pulse := Pulse(now, deadline);
    var s := pre + pulse + post;
    assert s[|pre|] == pulse[0];
    BeatStep(s, |pre|, now, deadline, want);
    if deadline - now > LIVENESS_TIMEOUT {
      var pre' := pre + [pulse[0]];
      assert s == pre' + Pulse(now + LIVENESS_TIMEOUT, deadline) + post;
      PulseWait(pre', now + LIVENESS_TIMEOUT, deadline, post, want);
    }
  }

  /** After the last heartbeat there is one more minimal recv, in which a frame is still
      accepted. */
  lemma LastMoment(s: seq<Chunk>, i: nat, deadline: nat, want: Message -> bool)
    requires i <= |s| && deadline > 0
    ensures var c := Cursor(i, deadline - 1, false); var end := deadline - 1 + MIN_READ_TIMEOUT;
            && (i == |s| ==> Wait(s, c, deadline, want) == (TimedOut, Cursor(i, end, false)))
            && (i < |s| && s[i].at == end && s[i].frame.Some? && s[i].frame.value.Good? &&
                !Progress(s[i].frame.value.m) && want(s[i].frame.value.m) ==>
                  Wait(s, c, deadline, want) == (Accepted(s[i].frame.value.m), Cursor(i + 1, end, false)))
  {
  }

  /** O's frames when only the drain is late. */
  function LateDrain(start: nat, p: Plan): seq<Chunk> {
    var deadline := DrainDeadline(start, p.drainGrace);
    Pulse(start, deadline) + [Chunk(deadline - 1 + MIN_READ_TIMEOUT, Some(Good(Drained)))]
  }

  lemma LateDrainEnds(start: nat, p: Plan)
    requires LatestEnd(start, p) == start + p.drainGrace + WIRE_SLACK + MIN_READ_TIMEOUT - 1 + p.sealGap
    ensures Waits(LateDrain(start, p), Cursor(0, start, false), [], Cursor(0, 0, false), p) ==
            Timeline(Sealing, TimedOut, LatestEnd(start, p))
  {
    var deadline := DrainDeadline(start, p.drainGrace);
    var o := LateDrain(start, p);
    var reply := Chunk(deadline - 1 + MIN_READ_TIMEOUT, Some(Good(Drained)));
    assert o == [] + Pulse(start, deadline) + [reply];
    PulseWait([], start, deadline, [reply], IsDrained);
    LastMoment(o, |o| - 1, deadline, IsDrained);
    assert o[|o| - 1] == reply;
  }

  /** O's frames when the seal spends its slack. */
  function LateSeal(start: nat, p: Plan): seq<Chunk>
    requires start + p.sealGap < p.totalDeadline + WIRE_SLACK
  {
    var deadline := p.totalDeadline + WIRE_SLACK;
    [Chunk(start, Some(Good(Drained)))] + Pulse(start + p.sealGap, deadline) +
        [Chunk(deadline - 1 + MIN_READ_TIMEOUT, Some(Good(SealComplete(p.id))))]
  }

  /** N's single heartbeat. */
  function LateReady(p: Plan): seq<Chunk> {
    var start := p.totalDeadline + WIRE_SLACK - 1 + MIN_READ_TIMEOUT + p.readyGap;
    [Chunk(start + MIN_READ_TIMEOUT + WIRE_SLACK - 1, BEAT)]
  }

  lemma ReadyWaitIsLate(start: nat, totalDeadline: nat)
    requires start + MIN_READ_TIMEOUT > totalDeadline
    ensures var n := [Chunk(start + MIN_READ_TIMEOUT + WIRE_SLACK - 1, BEAT)];
            Wait(n, Cursor(0, start, false), ReadyDeadline(start, totalDeadline), IsReady) ==
                (TimedOut, Cursor(1, start + 2 * MIN_READ_TIMEOUT + WIRE_SLACK - 1, false))
  {
    hide Wait;
    var n := [Chunk(start + MIN_READ_TIMEOUT + WIRE_SLACK - 1, BEAT)];
    BeatStep(n, 0, start, ReadyDeadline(start, totalDeadline), IsReady);
    LastMoment(n, 1, ReadyDeadline(start, totalDeadline), IsReady);
  }

  lemma LateSealWaits(start: nat, p: Plan)
    requires start + p.sealGap < p.totalDeadline + WIRE_SLACK
    ensures var o, deadline := LateSeal(start, p), p.totalDeadline + WIRE_SLACK;
            && Wait(o, Cursor(0, start, false), DrainDeadline(start, p.drainGrace), IsDrained) ==
               (Accepted(Drained), Cursor(1, start, false))
            && Wait(o, Cursor(1, start + p.sealGap, false), deadline, m => SealReply(p.id, m)) ==
               (Accepted(SealComplete(p.id)), Cursor(|o|, deadline - 1 + MIN_READ_TIMEOUT, false))
  {
    var o, deadline := LateSeal(start, p), p.totalDeadline + WIRE_SLACK;
    var first := Chunk(start, Some(Good(Drained)));
    var reply := Chunk(deadline - 1 + MIN_READ_TIMEOUT, Some(Good(SealComplete(p.id))));
    assert o[0] == first && o[|o| - 1] == reply;
    hide Wait;
    PulseWait([first], start + p.sealGap, deadline, [reply], m => SealReply(p.id, m));
    LastMoment(o, |o| - 1, deadline, m => SealReply(p.id, m));
    FirstFrameAccepted(o, start, DrainDeadline(start, p.drainGrace));
  }

  lemma FirstFrameAccepted(o: seq<Chunk>, start: nat, deadline: nat)
    requires |o| > 0 && o[0] == Chunk(start, Some(Good(Drained))) && start < deadline
    ensures Wait(o, Cursor(0, start, false), deadline, IsDrained) == (Accepted(Drained), Cursor(1, start, false))
  {
    assert Poll(o, Cursor(0, start, false), RecvTimeout(start, deadline)) ==
           (Some(Good(Drained)), Cursor(1, start, false));
  }

  lemma LateSealEnds(start: nat, p: Plan)
    requires start + p.sealGap < p.totalDeadline + WIRE_SLACK
    ensures Waits(LateSeal(start, p), Cursor(0, start, false), LateReady(p), Cursor(0, 0, false), p)
            == Timeline(AwaitingReady, TimedOut,
                        p.totalDeadline + 2 * WIRE_SLACK + 3 * MIN_READ_TIMEOUT - 2 + p.readyGap)
  {
    hide Wait, LateSeal;
    LateSealWaits(start, p);
    ReadyWaitIsLate(p.totalDeadline + WIRE_SLACK - 1 + MIN_READ_TIMEOUT + p.readyGap, p.totalDeadline);
  }

  /** For every start and every plan some handoff, all of whose polls are prompt, ends at
      exactly `LatestEnd`, which is more than two seconds past the overall deadline;
      `SpawnSpec::deadline` documents an overrun of at most one. */
  lemma LatestEndIsReached(start: nat, p: Plan) returns (o: seq<Chunk>, n: seq<Chunk>)
    ensures AllPrompt(o, Cursor(0, start, false), n, Cursor(0, 0, false), p)
    ensures Waits(o, Cursor(0, start, false), n, Cursor(0, 0, false), p).end ==
            LatestEnd(start, p) > p.totalDeadline + 2_000_000_000
  {
    hide Wait, Prompt, Pulse;
    if LatestEnd(start, p) == start + p.drainGrace + WIRE_SLACK + MIN_READ_TIMEOUT - 1 + p.sealGap {
      LateDrainEnds(start, p);
      o, n := LateDrain(start, p), [];
    } else {
      LateSealEnds(start, p);
      o, n := LateSeal(start, p), LateReady(p);
    }
    AllWhole(o, Cursor(0, start, false), n, Cursor(0, 0, false), p);
  }

  lemma AllWhole(o: seq<Chunk>, oc: Cursor, n: seq<Chunk>, nc: Cursor, p: Plan)
    requires oc.i <= |o| && nc.i <= |n|
    requires (forall j :: 0 <= j < |o| ==> o[j].frame.Some?) && (forall j :: 0 <= j < |n| ==> n[j].frame.Some?)
    ensures AllPrompt(o, oc, n, nc, p)
  {
    hide Wait, Prompt;
    var (d, dc) := Wait(o, oc, DrainDeadline(oc.now, p.drainGrace), IsDrained);
    var dc' := dc.(now := dc.now + p.sealGap);
    var (s, sc) := Wait(o, dc', p.totalDeadline + WIRE_SLACK, m => SealReply(p.id, m));
    var start := sc.now + p.readyGap;
    WholeFramesArePrompt(o, oc, DrainDeadline(oc.now, p.drainGrace), IsDrained);
    WholeFramesArePrompt(o, dc', p.totalDeadline + WIRE_SLACK, m => SealReply(p.id, m));
    WholeFramesArePrompt(n, nc.(now := start), ReadyDeadline(start, p.totalDeadline), IsReady);
  }

  /** Every prompt ready wait entered at `start` ends within the documented second (and the
      last minimal recv) of the overall deadline. */
  ghost predicate ReadyInTime(start: nat, totalDeadline: nat) {
    forall n: seq<Chunk>, nc: Cursor ::
      nc.i <= |n| && nc.now == start && Prompt(n, nc, ReadyDeadline(start, totalDeadline), IsReady) ==>
      Wait(n, nc, ReadyDeadline(start, totalDeadline), IsReady).1.now < totalDeadline + WIRE_SLACK + MIN_READ_TIMEOUT
  }

  /** When the documented overrun holds, exactly: if and only if the ready wait is entered
      while the floor of `remaining_until` does not bite. */
  lemma ReadyInTimeIff(start: nat, totalDeadline: nat)
    ensures ReadyInTime(start, totalDeadline) <==> start + MIN_READ_TIMEOUT <= totalDeadline
  {
    hide Wait, Prompt;
    var deadline := ReadyDeadline(start, totalDeadline);
    if start + MIN_READ_TIMEOUT <= totalDeadline {
      forall n: seq<Chunk>, nc: Cursor | nc.i <= |n| && nc.now == start && Prompt(n, nc, deadline, IsReady)
        ensures Wait(n, nc, deadline, IsReady).1.now < totalDeadline + WIRE_SLACK + MIN_READ_TIMEOUT
      {
        WaitEnds(n, nc, deadline, IsReady);
      }
    } else {
      var n := [Chunk(start + MIN_READ_TIMEOUT + WIRE_SLACK - 1, BEAT)];
      ReadyWaitIsLate(start, totalDeadline);
      WholeFramesArePrompt(n, Cursor(0, start, false), deadline, IsReady);
    }
  }
}
