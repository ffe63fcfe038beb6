/** The sending half: `send_all`, and the discipline that keeps the incumbent's main
    thread and its heartbeat thread from interleaving bytes. */
module Wire {
  import opened Protocol
  import opened Framing

  // ---------------------------------------------------------------- send_all

  /** What one `send(2)` of a non-empty buffer may do. */
  datatype SendEvent = Sent(n: nat) | Interrupted | Failed

  function Sum(ns: seq<nat>): nat {
    if ns == [] then 0 else Sum(Front(ns)) + Last(ns)
  }

  predicate Positive(ns: seq<nat>) { forall k :: 0 <= k < |ns| ==> ns[k] > 0 }

  /** Every send takes something or is interrupted, and there are enough for `n` bytes. */
  predicate Reliable(plan: seq<SendEvent>, n: nat)
    decreases |plan|
  {
    n == 0 || (plan != [] && match plan[0]
      case Sent(k) => k > 0 && Reliable(plan[1..], n - 1)
      case Interrupted => Reliable(plan[1..], n)
      case Failed => false)
  }

  lemma {:induction false} ReliableFewer(plan: seq<SendEvent>, n: nat, m: nat)
    requires Reliable(plan, n) && m <= n
    ensures Reliable(plan, m)
    decreases |plan|
  {
    if m > 0 { if plan[0].Sent? { ReliableFewer(plan[1..], n - 1, m - 1); } else { ReliableFewer(plan[1..], n, m); } }
  }

  /** The sends that follow `before` in the log: each but the last took something or was
      interrupted, and so did the last unless the call gave up on it. */
  ghost predicate Sends(before: seq<SendEvent>, ok: bool, after: seq<SendEvent>) {
    && before <= after && (!ok ==> |before| < |after| && (Last(after).Failed? || Last(after) == Sent(0)))
    && forall k :: |before| <= k < (if ok then |after| else |after| - 1) ==>
         after[k].Interrupted? || (after[k].Sent? && after[k].n > 0)
  }

  lemma SendsNone(log: seq<SendEvent>)
    ensures Sends(log, true, log)
  {
  }

  lemma SendsMore(before: seq<SendEvent>, log: seq<SendEvent>, e: SendEvent)
    requires Sends(before, true, log)
    ensures Sends(before, e.Interrupted? || (e.Sent? && e.n > 0), log + [e])
  {
  }

  /** `log` is what the sends returned. */
  class Socket {
    var wire: seq<Byte>
    var plan: seq<SendEvent>
    ghost var log: seq<SendEvent>

    constructor (plan: seq<SendEvent>)
      ensures wire == [] && this.plan == plan && log == []
    {
      wire, this.plan, log := [], plan, [];
    }

    /** Takes some prefix of `buf`; an exhausted plan fails. `left` is what the plan must
        still carry. */
    method Send(buf: seq<Byte>, ghost left: nat) returns (e: SendEvent)
      requires buf != []
      modifies this
      ensures e.Sent? ==> e.n <= |buf| && wire == old(wire) + buf[..e.n]
      ensures !e.Sent? ==> wire == old(wire)
      ensures |plan| <= |old(plan)| && (!e.Failed? ==> |plan| < |old(plan)|)
      ensures log == old(log) + [e]
      ensures |buf| <= left && Reliable(old(plan), left) ==>
              (e.Interrupted? && Reliable(plan, left)) || (e.Sent? && e.n > 0 && Reliable(plan, left - e.n))
    {
      e := if plan == [] then SendEvent.Failed else plan[0];
      plan := if plan == [] then [] else plan[1..];
      if e.Sent? {
        e := Sent(if e.n > |buf| then |buf| else e.n);
        wire := wire + buf[..e.n];
      }
      log := log + [e];
      if |buf| <= left && Reliable(old(plan), left) && e.Sent? { ReliableFewer(plan, left - 1, left - e.n); }
    }

    /** Either the whole buffer is on the wire, or a proper prefix of it and an error.
        `sizes` are the bytes each successful `send(2)` took; `rest` is what a reliable plan
        can carry after this buffer. */
    method SendAll(buf: seq<Byte>, ghost rest: nat) returns (ok: bool, ghost sizes: seq<nat>)
      modifies this
      ensures Positive(sizes) && Sum(sizes) <= |buf| && wire == old(wire) + buf[..Sum(sizes)]
      ensures ok <==> Sum(sizes) == |buf|
      ensures Sends(old(log), ok, log)
      ensures Reliable(old(plan), |buf| + rest) ==> ok && Reliable(plan, rest)
    {
      hide Reliable, Sends;
      var done := 0;
      sizes := [];
      SendsNone(log);
      while done < |buf|
        invariant 0 <= done <= |buf| && wire == old(wire) + buf[..done] && Positive(sizes) && Sum(sizes) == done
        invariant Sends(old(log), true, log)
        invariant Reliable(old(plan), |buf| + rest) ==> Reliable(plan, |buf| + rest - done)
        decreases |plan|
      {
        ghost var before := log;
        var e := Send(buf[done..], |buf| + rest - done);
        SendsMore(old(log), before, e);
        match e {
          case Interrupted =>
          case Failed => return false, sizes;
          case Sent(n) =>
            if n == 0 { return false, sizes; }
            assert buf[..done] + buf[done..][..n] == buf[..done + n];
            assert (sizes + [n])[..|sizes|] == sizes;
            done, sizes := done + n, sizes + [n];
        }
      }
      return true, sizes;
    }
  }

  // ---------------------------------------------------------------- frames on the wire

  predicate Encodable<M>(c: Codec<M>, v: nat, ms: seq<M>)
    requires v < 65536
  {
    forall k :: 0 <= k < |ms| ==> Encode(c, v, ms[k]).Some?
  }

  /** The concatenation of the frames of `ms`. */
  function Frames<M>(c: Codec<M>, v: nat, ms: seq<M>): seq<Byte>
    requires v < 65536 && Encodable(c, v, ms)
  {
    if ms == [] then [] else Frames(c, v, ms[..|ms| - 1]) + Encode(c, v, ms[|ms| - 1]).value
  }

  function Items<M>(v: nat, ms: seq<M>): (r: seq<Item<M>>) {
    seq(|ms|, k requires 0 <= k < |ms| => Item.Message(v, ms[k]))
  }

  /** A frame is read back as the message it carries. */
  lemma FrameRoundTrip<M(!new)>(c: Codec<M>, v: nat, m: M)
    requires v < 65536 && Lawful(c) && Encode(c, v, m).Some?
    ensures var f := Encode(c, v, m).value; FirstFrame(c, f) == Some((|f|, Item.Message(v, m)))
  {
    AnyFrameRead(c, v, c.enc(m).value);
  }

  /** A proper prefix of a frame yields nothing yet. */
  lemma PartialFrame<M>(c: Codec<M>, v: nat, m: M, k: nat)
    requires v < 65536 && Encode(c, v, m).Some? && k < |Encode(c, v, m).value|
    ensures FirstFrame(c, Encode(c, v, m).value[..k]).None?
  {
    var f := Encode(c, v, m).value;
    if k >= 4 { assert f[..k][..4] == ToLe32(VERSION_FIELD + |c.enc(m).value|); }
  }

  /** Whole frames are read back as exactly the messages sent, with nothing left over. */
  lemma {:induction false} FramesRoundTrip<M(!new)>(c: Codec<M>, v: nat, ms: seq<M>)
    requires v < 65536 && Lawful(c) && Encodable(c, v, ms)
    ensures ReadAll(c, Frames(c, v, ms)) == Items(v, ms) && Leftover(c, Frames(c, v, ms)) == []
  {
    hide FirstFrame, Encode;
    if ms == [] {
      Empty(c);
    } else {
      var front, m := ms[..|ms| - 1], ms[|ms| - 1];
      FramesRoundTrip(c, v, front);
      FrameRoundTrip(c, v, m);
      var f := Encode(c, v, m).value;
      assert [] + f == f;
      OneFrame(c, Frames(c, v, front), f, Item.Message(v, m));
      assert Items(v, ms) == Items(v, front) + [Item.Message(v, m)];
    }
  }

  // ---------------------------------------------------------------- two writers, one stream

  /** A frame being sent: the message and how many of its bytes are already out. */
  datatype InFlight<M> = Idle | Sending(m: M, sent: nat)

  /** `run_with_heartbeats` around a hook: while `hook` holds, the main thread is inside the
      consumer's code and the heartbeat thread exists, until `beatDown`. `done` is every
      message completely sent, in order. `cut` is a frame whose sending failed part-way, as
      long as nothing was sent after it; `stray` says something was. `closed`: the main
      thread's own send failed and the session is over. */
  datatype Channel<M> = Channel(wire: seq<Byte>, done: seq<M>, main: InFlight<M>, beat: InFlight<M>,
                                hook: bool, beatDown: bool, closed: bool, cut: InFlight<M>, stray: bool)

  datatype Move<M> =
    | MainWrite(m: M)          // write_frame starts on the main thread
    | MainSends(n: nat)        // one partial send of it
    | MainFails                // its send fails
    | EnterHook                // heartbeat thread spawned
    | BeatWrite(m: M)          // heartbeat thread starts a frame
    | BeatSends(n: nat)
    | BeatFails                // its send fails and the thread ends
    | LeaveHook                // stop signal and join: waits for a frame in flight

  /** The frame in flight, if any. */
  function Current<M>(s: Channel<M>): InFlight<M> {
    if s.main.Sending? then s.main else s.beat
  }

  /** `n` more bytes of the frame in flight. */
  function Send<M>(c: Codec<M>, v: nat, s: Channel<M>, n: nat): Option<Channel<M>>
    requires v < 65536
  {
    var f := Current(s);
    if f.Idle? || Encode(c, v, f.m).None? || n == 0 || f.sent + n > |Encode(c, v, f.m).value| then None
    else
      var frame := Encode(c, v, f.m).value;
      var whole := f.sent + n == |frame|;
      var f' := if whole then Idle else Sending(f.m, f.sent + n);
      Some(s.(wire := s.wire + frame[f.sent..f.sent + n],
              done := if whole then s.done + [f.m] else s.done,
              main := if s.main.Sending? then f' else s.main,
              beat := if s.main.Sending? then s.beat else f',
              stray := s.stray || s.cut.Sending?,
              cut := Idle))
  }

  /** The send of the frame in flight fails. */
  function Fail<M>(s: Channel<M>): Channel<M> {
    var f := Current(s);
    s.(main := Idle, beat := if s.main.Sending? then s.beat else Idle,
       cut := if f.Sending? && f.sent > 0 then f else s.cut)
  }

  function Step<M>(c: Codec<M>, v: nat, s: Channel<M>, a: Move<M>): Option<Channel<M>>
    requires v < 65536
  {
    match a
    case MainWrite(m) =>
      if s.hook || s.closed || !s.main.Idle? || Encode(c, v, m).None? then None else Some(s.(main := Sending(m, 0)))
    case MainSends(n) => if s.main.Idle? then None else Send(c, v, s, n)
    case MainFails => if s.main.Idle? then None else Some(Fail(s).(closed := true))
    case EnterHook => if s.hook || s.closed || !s.main.Idle? then None else Some(s.(hook := true, beatDown := false))
    case BeatWrite(m) =>
      if !s.hook || s.beatDown || !s.beat.Idle? || Encode(c, v, m).None? then None else Some(s.(beat := Sending(m, 0)))
    case BeatSends(n) => if s.beat.Idle? || s.main.Sending? then None else Send(c, v, s, n)
    case BeatFails => if s.beat.Idle? || s.main.Sending? then None else Some(Fail(s).(beatDown := true))
    case LeaveHook => if !s.hook || !s.beat.Idle? then None else Some(s.(hook := false))
  }

  function Open<M>(): Channel<M> { Channel([], [], Idle, Idle, false, false, false, Idle, false) }

  function Exec<M>(c: Codec<M>, v: nat, moves: seq<Move<M>>): Option<Channel<M>>
    requires v < 65536
  {
    if moves == [] then Some(Open())
    else
      var s := Exec(c, v, moves[..|moves| - 1]);
      if s.None? then None else Step(c, v, s.value, moves[|moves| - 1])
  }

  function BytesOut<M>(c: Codec<M>, v: nat, f: InFlight<M>): seq<Byte>
    requires v < 65536
  {
    if f.Idle? || Encode(c, v, f.m).None? || f.sent > |Encode(c, v, f.m).value| then []
    else Encode(c, v, f.m).value[..f.sent]
  }

  /** The unfinished frame at the end of the wire: the one in flight, or the one cut last. */
  function Tail<M>(c: Codec<M>, v: nat, s: Channel<M>): seq<Byte>
    requires v < 65536
  {
    if s.cut.Sending? then BytesOut(c, v, s.cut) else BytesOut(c, v, Current(s))
  }

  /** The frame is encodable and not all out. */
  predicate Unfinished<M>(c: Codec<M>, v: nat, f: InFlight<M>)
    requires v < 65536
  {
    f.Sending? ==> Encode(c, v, f.m).Some? && f.sent < |Encode(c, v, f.m).value|
  }

  /** At most one thread sends, and the wire is the whole frames of `done` and then the
      unfinished one, with nothing in between unless bytes went astray. */
  predicate Good<M>(c: Codec<M>, v: nat, s: Channel<M>)
    requires v < 65536
  {
    && Encodable(c, v, s.done)
    && (s.main.Sending? ==> !s.hook && s.beat.Idle?) && (s.beat.Sending? ==> s.hook)
    && Unfinished(c, v, s.main) && Unfinished(c, v, s.beat) && Unfinished(c, v, s.cut)
    && (s.cut.Sending? ==> s.cut.sent > 0 && (Current(s).Sending? ==> Current(s).sent == 0))
    && if s.stray then |s.wire| > |Frames(c, v, s.done)| + |Tail(c, v, s)|
       else s.wire == Frames(c, v, s.done) + Tail(c, v, s)
  }

  lemma FramesSnoc<M>(c: Codec<M>, v: nat, ms: seq<M>, m: M)
    requires v < 65536 && Encodable(c, v, ms) && Encode(c, v, m).Some?
    ensures Encodable(c, v, ms + [m]) && Frames(c, v, ms + [m]) == Frames(c, v, ms) + Encode(c, v, m).value
  {
    assert (ms + [m])[..|ms|] == ms;
  }

  lemma Joined(front: seq<Byte>, frame: seq<Byte>, sent: nat, n: nat)
    requires sent + n <= |frame|
    ensures front + frame[..sent] + frame[sent..sent + n] == front + frame[..sent + n]
    ensures sent + n == |frame| ==> frame[..sent + n] == frame
  {
  }

  lemma SendKeepsGood<M>(c: Codec<M>, v: nat, s: Channel<M>, n: nat)
    requires v < 65536 && Good(c, v, s) && Send(c, v, s, n).Some?
    ensures Good(c, v, Send(c, v, s, n).value)
  {
    hide Encode, Frames, Encodable;
    var f := Current(s);
    var frame := Encode(c, v, f.m).value;
    var front := Frames(c, v, s.done);
    FramesSnoc(c, v, s.done, f.m);
    Joined(front, frame, f.sent, n);
    var s' := Send(c, v, s, n).value;
    assert |s'.wire| == |s.wire| + n;
    if f.sent + n == |frame| { assert Tail(c, v, s') == []; } else { assert Tail(c, v, s') == frame[..f.sent + n]; }
    if s.cut.Idle? {
      assert Tail(c, v, s) == frame[..f.sent];
    } else {
      assert |Tail(c, v, s)| == s.cut.sent && f.sent == 0;
    }
  }

  lemma FrameNotEmpty<M>(c: Codec<M>, v: nat, m: M)
    requires v < 65536 && Encode(c, v, m).Some?
    ensures |Encode(c, v, m).value| >= 6
  {
  }

  lemma StepKeepsGood<M>(c: Codec<M>, v: nat, s: Channel<M>, a: Move<M>)
    requires v < 65536 && Good(c, v, s) && Step(c, v, s, a).Some?
    ensures Good(c, v, Step(c, v, s, a).value)
  {
    hide Encode, Frames, Encodable, Send;
    match a
    case MainSends(n) => SendKeepsGood(c, v, s, n);
    case BeatSends(n) => SendKeepsGood(c, v, s, n);
    case MainWrite(m) => FrameNotEmpty(c, v, m);
    case BeatWrite(m) => FrameNotEmpty(c, v, m);
    case _ =>
  }

  /** Some frame was cut short with bytes of it already out. */
  predicate Cuts<M>(c: Codec<M>, v: nat, moves: seq<Move<M>>)
    requires v < 65536
  {
    moves != [] &&
    var front, a := moves[..|moves| - 1], moves[|moves| - 1];
    || Cuts(c, v, front)
    || ((a.MainFails? || a.BeatFails?) && Exec(c, v, front).Some? && Current(Exec(c, v, front).value).Sending? &&
        Current(Exec(c, v, front).value).sent > 0)
  }

  /** Something was sent after that. */
  predicate SendsAfterCut<M>(c: Codec<M>, v: nat, moves: seq<Move<M>>)
    requires v < 65536
  {
    moves != [] &&
    var front, a := moves[..|moves| - 1], moves[|moves| - 1];
    SendsAfterCut(c, v, front) || ((a.MainSends? || a.BeatSends?) && Cuts(c, v, front))
  }

  lemma CutStep<M>(c: Codec<M>, v: nat, s: Channel<M>, a: Move<M>)
    requires v < 65536 && Step(c, v, s, a).Some?
    ensures var s' := Step(c, v, s, a).value;
            && (s'.stray <==> s.stray || ((a.MainSends? || a.BeatSends?) && s.cut.Sending?))
            && (s'.cut.Sending? || s'.stray <==>
                  s.cut.Sending? || s.stray ||
                  ((a.MainFails? || a.BeatFails?) && Current(s).Sending? && Current(s).sent > 0))
  {
    hide Encode;
  }

  lemma {:induction false} ExecIsGood<M>(c: Codec<M>, v: nat, moves: seq<Move<M>>)
    requires v < 65536 && Exec(c, v, moves).Some?
    ensures var s := Exec(c, v, moves).value;
            && Good(c, v, s) && (s.stray <==> SendsAfterCut(c, v, moves)) &&
               (s.cut.Sending? || s.stray <==> Cuts(c, v, moves))
  {
    hide Step, Encode;
    if moves != [] {
      var front, a := moves[..|moves| - 1], moves[|moves| - 1];
      ExecIsGood(c, v, front);
      StepKeepsGood(c, v, Exec(c, v, front).value, a);
      CutStep(c, v, Exec(c, v, front).value, a);
    }
  }

  /** Over every interleaving of the two threads, every split into partial sends and every
      failure: the wire is the frames of the messages completely sent, followed by the
      unfinished one, if and only if nothing was sent after a frame was cut short. */
  lemma WellFramedIff<M>(c: Codec<M>, v: nat, moves: seq<Move<M>>)
    requires v < 65536 && Exec(c, v, moves).Some?
    ensures var s := Exec(c, v, moves).value;
            Encodable(c, v, s.done) && (s.wire == Frames(c, v, s.done) + Tail(c, v, s) <==> !SendsAfterCut(c, v, moves))
  {
    hide Exec, Encode, Frames, Tail, SendsAfterCut, Cuts;
    ExecIsGood(c, v, moves);
  }

  /** When that holds, the receiver reads exactly the messages completely sent, in order. */
  lemma WireRoundTrip<M(!new)>(c: Codec<M>, v: nat, moves: seq<Move<M>>)
    requires v < 65536 && Lawful(c) && Exec(c, v, moves).Some? && !SendsAfterCut(c, v, moves)
    ensures var s := Exec(c, v, moves).value;
            && ReadAll(c, s.wire) == Items(v, s.done)
            && (Current(s).Idle? && s.cut.Idle? ==> Leftover(c, s.wire) == [])
  {
    hide FirstFrame, Encode, Exec, SendsAfterCut, Cuts, Frames, Encodable;
    var s := Exec(c, v, moves).value;
    ExecIsGood(c, v, moves);
    FramesRoundTrip(c, v, s.done);
    var f := if s.cut.Sending? then s.cut else Current(s);
    var front := Frames(c, v, s.done);
    if f.Sending? {
      var part := Encode(c, v, f.m).value[..f.sent];
      PartialFrame(c, v, f.m, f.sent);
      assert [] + part == part;
      NoFrame(c, front, part);
    } else {
      assert front + [] == front;
    }
  }

  /** The failure behind the condition: a heartbeat cut off after its length prefix, then a
      frame of the main thread. That frame is completely sent and not what is read. */
  lemma CutHeartbeatDerails<M(!new)>(c: Codec<M>, v: nat, beat: M, m: M) returns (moves: seq<Move<M>>)
    requires v < 65536 && Encode(c, v, beat).Some? && Encode(c, v, m).Some?
    requires |c.enc(beat).value| <= |c.enc(m).value| + 4 && (VERSION_FIELD + |c.enc(m).value|) % 65536 != v
    ensures Exec(c, v, moves).Some? && Exec(c, v, moves).value.done == [m]
    ensures ReadAll(c, Exec(c, v, moves).value.wire) != Items(v, [m])
  {
    moves := [EnterHook, BeatWrite(beat), BeatSends(4), BeatFails, LeaveHook, MainWrite(m),
              MainSends(|Encode(c, v, m).value|)];
    DerailedWire(c, v, beat, m, moves);
    DerailedRead(c, v, beat, m);
  }

  lemma DerailedWire<M>(c: Codec<M>, v: nat, beat: M, m: M, moves: seq<Move<M>>)
    requires v < 65536 && Encode(c, v, beat).Some? && Encode(c, v, m).Some?
    requires moves == [EnterHook, BeatWrite(beat), BeatSends(4), BeatFails, LeaveHook, MainWrite(m),
                       MainSends(|Encode(c, v, m).value|)]
    ensures Exec(c, v, moves).Some? && Exec(c, v, moves).value.done == [m]
    ensures Exec(c, v, moves).value.wire == Encode(c, v, beat).value[..4] + Encode(c, v, m).value
  {
    FrameNotEmpty(c, v, beat);
    FrameNotEmpty(c, v, m);
    hide Encode, Exec;
    var b, f := Encode(c, v, beat).value, Encode(c, v, m).value;
    Start(c, v);
    var s1 := Open<M>().(hook := true);
    Then(c, v, [], Open(), EnterHook, s1);
    Then(c, v, [] + [EnterHook], s1, BeatWrite(beat), s1.(beat := Sending(beat, 0)));
    var s3 := s1.(beat := Sending(beat, 4), wire := [] + b[0..4]);
    Then(c, v, [] + [EnterHook] + [BeatWrite(beat)], s1.(beat := Sending(beat, 0)), BeatSends(4), s3);
    var s4 := s3.(beat := Idle, cut := Sending(beat, 4), beatDown := true);
    Then(c, v, [] + [EnterHook] + [BeatWrite(beat)] + [BeatSends(4)], s3, BeatFails, s4);
    var so := [] + [EnterHook] + [BeatWrite(beat)] + [BeatSends(4)] + [BeatFails];
    Then(c, v, so, s4, LeaveHook, s4.(hook := false));
    var s6 := s4.(hook := false, main := Sending(m, 0));
    Then(c, v, so + [LeaveHook], s4.(hook := false), MainWrite(m), s6);
    assert f[0..|f|] == f && [] + b[0..4] == b[..4] && [] + [m] == [m];
    Then(c, v, so + [LeaveHook] + [MainWrite(m)], s6, MainSends(|f|),
         s6.(main := Idle, wire := b[..4] + f, done := [m], stray := true, cut := Idle));
    assert moves == so + [LeaveHook] + [MainWrite(m)] + [MainSends(|f|)];
  }

  lemma Start<M>(c: Codec<M>, v: nat)
    requires v < 65536
    ensures Exec(c, v, []) == Some(Open())
  {
  }

  lemma Then<M>(c: Codec<M>, v: nat, moves: seq<Move<M>>, s: Channel<M>, a: Move<M>, s': Channel<M>)
    requires v < 65536 && Exec(c, v, moves) == Some(s) && Step(c, v, s, a) == Some(s')
    ensures Exec(c, v, moves + [a]) == Some(s')
  {
    hide Step;
    assert (moves + [a])[..|moves|] == moves;
  }

  lemma Low16(n: nat)
    requires n < 0x1_0000_0000
    ensures Le16(ToLe32(n)[..2]) == n % 65536
  {
    var q1 := n / 256;
    var q2 := q1 / 256;
    var low := n % 256 + 256 * (q1 % 256);
    assert n == 65536 * q2 + low && 0 <= low < 65536;
    assert Le16(ToLe32(n)[..2]) == low;
    hide Le16, ToLe32;
    RemainderIs(n, q2, low);
  }

  lemma RemainderIs(n: nat, q: nat, low: nat)
    requires n == 65536 * q + low && low < 65536
    ensures n % 65536 == low
  {
  }

  lemma DerailedRead<M(!new)>(c: Codec<M>, v: nat, beat: M, m: M)
    requires v < 65536 && Encode(c, v, beat).Some? && Encode(c, v, m).Some?
    requires |c.enc(beat).value| <= |c.enc(m).value| + 4 && (VERSION_FIELD + |c.enc(m).value|) % 65536 != v
    ensures ReadAll(c, Encode(c, v, beat).value[..4] + Encode(c, v, m).value) != Items(v, [m])
  {
    var b, f := Encode(c, v, beat).value, Encode(c, v, m).value;
    var s := b[..4] + f;
    var len := VERSION_FIELD + |c.enc(m).value|;
    assert s[..4] == ToLe32(VERSION_FIELD + |c.enc(beat).value|);
    assert s[4..6] == ToLe32(len)[..2];
    Low16(len);
    assert FirstFrame(c, s).Some? && (FirstFrame(c, s).value.1.Message? ==> FirstFrame(c, s).value.1.version != v);
    hide FirstFrame, Encode, Le32, Le16;
    assert ReadAll(c, s)[0] == FirstFrame(c, s).value.1;
    assert Items(v, [m])[0] == Item.Message(v, m);
  }

  /** End to end: what a peer has read so far, under any schedule of partial reads,
      interrupts and timeouts, is a prefix of what the simple reader finds on the wire; with
      nothing sent after a cut, of the messages completely sent; and all of them once the
      end of the stream is reported, which a fair schedule brings about. */
  method Receive<M(!new)>(acc: FrameAccumulator<M>, r: Reader, polls: nat, v: nat, ghost moves: seq<Move<M>>)
      returns (items: seq<Item<M>>, end: Option<Poll<M>>)
    requires v < 65536 && Lawful(acc.codec) && Exec(acc.codec, v, moves).Some?
    requires acc.Valid() && acc.buf == [] && r.consumed == [] && r.log == []
    requires r.stream == Exec(acc.codec, v, moves).value.wire
    modifies acc, r
    ensures items <= ReadAll(acc.codec, Exec(acc.codec, v, moves).value.wire)
    ensures !SendsAfterCut(acc.codec, v, moves) ==>
              items <= Items(v, Exec(acc.codec, v, moves).value.done) &&
              (end == Some(EndOfStream) ==> items == Items(v, Exec(acc.codec, v, moves).value.done))
    ensures (end == Some(EndOfStream) <==> Eof in r.log) && (end == Some(IoFailed) <==> ReadResult.Failed in r.log)
    ensures Fair(old(r.schedule), |old(r.stream)|) && polls > |old(r.stream)| ==> end == Some(EndOfStream)
  {
    hide FirstFrame, Encode, Exec, SendsAfterCut, Fair;
    if !SendsAfterCut(acc.codec, v, moves) { WireRoundTrip(acc.codec, v, moves); }
    items, end := PollMany(acc, r, polls);
    ReadAllAppend(acc.codec, r.consumed, r.stream);
  }

  // ---------------------------------------------------------------- send_all inside the channel

  /** The main thread may start a frame. */
  predicate Ready<M>(s: Channel<M>) {
    s.main.Idle? && s.beat.Idle? && !s.hook && !s.closed
  }

  /** Nothing has been cut short. */
  predicate Clean<M>(s: Channel<M>) {
    s.cut.Idle? && !s.stray
  }

  /** `frame[..sent]` of `m` went out from `s`. */
  ghost predicate HasSent<M>(c: Codec<M>, v: nat, s: Channel<M>, m: M, sent: nat, t: Channel<M>)
    requires v < 65536
  {
    && Encode(c, v, m).Some? && sent <= |Encode(c, v, m).value|
    && t.wire == s.wire + Encode(c, v, m).value[..sent]
    && (if sent == |Encode(c, v, m).value| then t.main == Idle && t.done == s.done + [m]
        else t.main == Sending(m, sent) && t.done == s.done)
    && t.beat == s.beat && t.hook == s.hook && t.closed == s.closed && (Clean(s) ==> Clean(t))
  }

  lemma SendMore<M>(c: Codec<M>, v: nat, s: Channel<M>, m: M, before: nat, n: nat, t: Channel<M>)
    requires v < 65536 && Encode(c, v, m).Some? && n > 0 && before + n <= |Encode(c, v, m).value| &&
             HasSent(c, v, s, m, before, t)
    ensures t.main.Sending? && Send(c, v, t, n).Some? && HasSent(c, v, s, m, before + n, Send(c, v, t, n).value)
  {
    hide Encode;
    Joined(s.wire, Encode(c, v, m).value, before, n);
  }

  lemma {:induction false} SendsAre<M>(c: Codec<M>, v: nat, moves: seq<Move<M>>, s: Channel<M>, m: M, sizes: seq<nat>)
      returns (moves': seq<Move<M>>, t: Channel<M>)
    requires v < 65536 && Encode(c, v, m).Some? && Ready(s) && Exec(c, v, moves) == Some(s.(main := Sending(m, 0)))
    requires Positive(sizes) && Sum(sizes) <= |Encode(c, v, m).value|
    ensures Exec(c, v, moves') == Some(t) && HasSent(c, v, s, m, Sum(sizes), t)
    decreases |sizes|
  {
    FrameNotEmpty(c, v, m);
    hide Encode, Exec;
    var frame := Encode(c, v, m).value;
    if sizes == [] {
      assert s.wire + frame[..0] == s.wire;
      moves', t := moves, s.(main := Sending(m, 0));
    } else {
      var n, before := Last(sizes), Sum(Front(sizes));
      var moves1, s1 := SendsAre(c, v, moves, s, m, Front(sizes));
      SendMore(c, v, s, m, before, n, s1);
      hide Send, HasSent;
      t := Send(c, v, s1, n).value;
      Then(c, v, moves1, s1, MainSends(n), t);
      moves' := moves1 + [MainSends(n)];
    }
  }

  lemma NotStray<M>(s: Channel<M>)
    requires Clean(s)
    ensures !s.stray
  {
  }

  /** The moves of the channel that put the first `Sum(sizes)` bytes of a frame on the wire,
      with a failure at the end if these are not all. */
  lemma FrameMoves<M>(c: Codec<M>, v: nat, moves: seq<Move<M>>, s: Channel<M>, m: M, sizes: seq<nat>)
      returns (moves': seq<Move<M>>, t: Channel<M>)
    requires v < 65536 && Exec(c, v, moves) == Some(s) && Ready(s) && Clean(s) && Encode(c, v, m).Some?
    requires Positive(sizes) && Sum(sizes) <= |Encode(c, v, m).value|
    ensures Exec(c, v, moves') == Some(t) && t.wire == s.wire + Encode(c, v, m).value[..Sum(sizes)] && !t.stray
    ensures if Sum(sizes) == |Encode(c, v, m).value| then Ready(t) && Clean(t) && t.done == s.done + [m]
            else t.done == s.done
  {
    hide Encode, Exec;
    Then(c, v, moves, s, MainWrite(m), s.(main := Sending(m, 0)));
    moves', t := SendsAre(c, v, moves + [MainWrite(m)], s, m, sizes);
    if Sum(sizes) != |Encode(c, v, m).value| {
      Then(c, v, moves', t, MainFails, Fail(t).(closed := true));
      moves', t := moves' + [MainFails], Fail(t).(closed := true);
    }
  }

  /** `write_frame`: encode, then `send_all`. Its bytes are those of main-thread moves of the
      channel, ending with the frame complete or with a failed send. */
  method WriteFrame<M>(sock: Socket, c: Codec<M>, v: nat, m: M, ghost rest: nat, ghost moves: seq<Move<M>>,
                       ghost s: Channel<M>)
      returns (ok: bool, ghost moves': seq<Move<M>>, ghost t: Channel<M>)
    requires v < 65536 && Exec(c, v, moves) == Some(s) && sock.wire == s.wire && Ready(s) && Clean(s)
    modifies sock
    ensures Exec(c, v, moves') == Some(t) && sock.wire == t.wire && !t.stray
    ensures if ok then Ready(t) && Clean(t) && t.done == s.done + [m] else t.done == s.done
    ensures if Encode(c, v, m).None? then !ok && sock.log == old(sock.log) else Sends(old(sock.log), ok, sock.log)
    ensures Encode(c, v, m).Some? && Reliable(old(sock.plan), |Encode(c, v, m).value| + rest) ==>
            ok && Reliable(sock.plan, rest)
  {
    hide *;
    var frame := Encode(c, v, m);
    if frame.None? {
      assert !s.stray by { assert Clean(s); NotStray(s); }
      return false, moves, s;
    }
    ghost var sizes;
    ok, sizes := sock.SendAll(frame.value, rest);
    moves', t := FrameMoves(c, v, moves, s, m, sizes);
  }

  /** The bytes of the frames from `k` on. */
  ghost function BytesFrom<M>(c: Codec<M>, v: nat, ms: seq<M>, k: nat): nat
    requires v < 65536 && Encodable(c, v, ms) && k <= |ms|
    decreases |ms| - k
  {
    if k == |ms| then 0 else |Encode(c, v, ms[k]).value| + BytesFrom(c, v, ms, k + 1)
  }

  lemma {:induction false} FramesLength<M>(c: Codec<M>, v: nat, ms: seq<M>, k: nat)
    requires v < 65536 && Encodable(c, v, ms) && k <= |ms|
    ensures |Frames(c, v, ms[..k])| + BytesFrom(c, v, ms, k) == |Frames(c, v, ms)|
    decreases |ms| - k
  {
    hide Encode;
    if k == |ms| {
      assert ms[..k] == ms;
    } else {
      FramesLength(c, v, ms, k + 1);
      assert ms[..k + 1] == ms[..k] + [ms[k]];
      FramesSnoc(c, v, ms[..k], ms[k]);
    }
  }

  /** Nothing was sent because the message has no frame, or the last send failed or took
      nothing. */
  ghost predicate Refused<M>(c: Codec<M>, v: nat, m: M, log: seq<SendEvent>)
    requires v < 65536
  {
    Encode(c, v, m).None? || (log != [] && (Last(log).Failed? || Last(log) == Sent(0)))
  }

  lemma WhyRefused<M>(c: Codec<M>, v: nat, m: M, before: seq<SendEvent>, log: seq<SendEvent>)
    requires v < 65536 && (Encode(c, v, m).Some? ==> Sends(before, false, log))
    ensures Refused(c, v, m, log)
  {
    hide Encode;
  }

  lemma NextFrame<M>(c: Codec<M>, v: nat, ms: seq<M>, k: nat)
    requires v < 65536 && Encodable(c, v, ms) && k < |ms|
    ensures Encode(c, v, ms[k]).Some?
    ensures BytesFrom(c, v, ms, k) == |Encode(c, v, ms[k]).value| + BytesFrom(c, v, ms, k + 1)
  {
    hide Encode;
  }

  lemma OpenChannel<M>(c: Codec<M>, v: nat, ms: seq<M>)
    requires v < 65536
    ensures var s := Open<M>();
            Exec(c, v, []) == Some(s) && s.wire == [] && s.done == ms[..0] && Ready(s) && Clean(s) && !s.stray
    ensures Encodable(c, v, ms) ==> BytesFrom(c, v, ms, 0) == |Frames(c, v, ms)|
  {
    hide Encode;
    Start(c, v);
    if Encodable(c, v, ms) {
      FramesLength(c, v, ms, 0);
      assert ms[..0] == [];
    }
  }

  /** `write_frame` on each message in turn, until one fails. */
  method WriteFrames<M>(sock: Socket, c: Codec<M>, v: nat, ms: seq<M>)
      returns (sent: nat, ghost moves: seq<Move<M>>, ghost s: Channel<M>)
    requires v < 65536 && sock.wire == []
    modifies sock
    ensures sent <= |ms| && Exec(c, v, moves) == Some(s) && sock.wire == s.wire && s.done == ms[..sent] && !s.stray
    ensures if sent < |ms| then Refused(c, v, ms[sent], sock.log) else Ready(s) && Clean(s)
    ensures Encodable(c, v, ms) && Reliable(old(sock.plan), |Frames(c, v, ms)|) ==> sent == |ms|
  {
    hide *;
    OpenChannel(c, v, ms);
    moves, s, sent := [], Open<M>(), 0;
    ghost var all := Encodable(c, v, ms) && Reliable(sock.plan, BytesFrom(c, v, ms, 0));
    var ok := true;
    while ok && sent < |ms|
      invariant 0 <= sent <= |ms| && Exec(c, v, moves) == Some(s) && sock.wire == s.wire && s.done == ms[..sent] &&
                !s.stray
      invariant ok ==> Ready(s) && Clean(s)
      invariant !ok ==> sent < |ms| && Refused(c, v, ms[sent], sock.log)
      invariant all ==> ok && Reliable(sock.plan, BytesFrom(c, v, ms, sent))
      decreases |ms| - sent, ok
    {
      ghost var rest := if all then BytesFrom(c, v, ms, sent + 1) else 0;
      ghost var log := sock.log;
      if all { NextFrame(c, v, ms, sent); }
      ok, moves, s := WriteFrame(sock, c, v, ms[sent], rest, moves, s);
      if ok {
        assert ms[..sent] + [ms[sent]] == ms[..sent + 1];
        sent := sent + 1;
      } else {
        WhyRefused(c, v, ms[sent], log, sock.log);
      }
    }
  }

  /** A list of messages through `send_all` under any plan of partial sends, then through the
      resumable reader under any schedule: the receiver has a prefix of the messages whose
      `write_frame` succeeded, and all of them once it sees the end of the stream. With a
      reliable sender and a fair schedule every message arrives. */
  method SendAndReceive<M(!new)>(c: Codec<M>, v: nat, ms: seq<M>, plan: seq<SendEvent>, schedule: seq<ReadEvent>,
                                 polls: nat)
      returns (sent: nat, items: seq<Item<M>>, ended: bool)
    requires v < 65536 && Lawful(c)
    ensures sent <= |ms| && items <= Items(v, ms[..sent])
    ensures ended ==> items == Items(v, ms[..sent])
    ensures Encodable(c, v, ms) && Reliable(plan, |Frames(c, v, ms)|) ==> sent == |ms|
    ensures Encodable(c, v, ms) && Reliable(plan, |Frames(c, v, ms)|) && Fair(schedule, |Frames(c, v, ms)|) &&
            polls > |Frames(c, v, ms)| ==>
              items == Items(v, ms)
  {
    hide Exec, Cuts, SendsAfterCut, FirstFrame, ReadAll, Leftover, Lawful, Reliable, Fair, Encode;
    var sock := new Socket(plan);
    ghost var moves, s;
    sent, moves, s := WriteFrames(sock, c, v, ms);
    ExecIsGood(c, v, moves);
    assert sent == |ms| && Encodable(c, v, ms) ==> ms[..sent] == ms && sock.wire == Frames(c, v, ms);
    var r := new Reader(sock.wire, schedule);
    var acc := new FrameAccumulator<M>(c);
    var end;
    items, end := Receive(acc, r, polls, v, moves);
    ended := end == Some(EndOfStream);
  }
}
