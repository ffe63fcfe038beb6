/** Length-prefixed framing: `encode`, `read_message` and the resumable
    `FrameAccumulator`. The payload codec is a parameter. */
module Framing {
  import opened Protocol

  newtype Byte = x: int | 0 <= x < 256

  const MAX_FRAME_BYTES: nat := 1048576
  const LEN_PREFIX: nat := 4
  const VERSION_FIELD: nat := 2

  /** postcard, as a partial pair of functions. */
  datatype Codec<!M> = Codec(enc: M -> Option<seq<Byte>>, dec: seq<Byte> -> Option<M>)

  /** Decoding undoes encoding. */
  ghost predicate Lawful<M(!new)>(c: Codec<M>) {
    forall m :: c.enc(m).Some? ==> c.dec(c.enc(m).value) == Some(m)
  }

  datatype FrameError = FrameMalformed(len: nat) | FrameTooLarge(len: nat) | Decode

  /** One item of the frame stream: a message with its version, or a frame error. */
  datatype Item<M> = Message(version: nat, m: M) | Bad(error: FrameError)

  // ---------------------------------------------------------------- integers

  function Le32(b: seq<Byte>): (n: nat)
    requires |b| == 4
    ensures n < 0x1_0000_0000
  {
    b[0] as nat + 256 * (b[1] as nat) + 65536 * (b[2] as nat) + 16777216 * (b[3] as nat)
  }

  function Le16(b: seq<Byte>): (n: nat)
    requires |b| == 2
    ensures n < 65536
  {
    b[0] as nat + 256 * (b[1] as nat)
  }

  function ToLe32(n: nat): (b: seq<Byte>)
    requires n < 0x1_0000_0000
    ensures |b| == 4 && Le32(b) == n
    ensures b[0] as int == n % 256 && b[1] as int == n / 256 % 256
    ensures b[2] as int == n / 65536 % 256 && b[3] as int == n / 16777216 % 256
  {
    var q1 := n / 256;
    var q2 := q1 / 256;
    var q3 := q2 / 256;
    assert n == n % 256 + 256 * q1 && q1 == q1 % 256 + 256 * q2 && q2 == q2 % 256 + 256 * q3;
    [(n % 256) as Byte, (q1 % 256) as Byte, (q2 % 256) as Byte, q3 as Byte]
  }

  function ToLe16(n: nat): (b: seq<Byte>)
    requires n < 65536
    ensures |b| == 2 && Le16(b) == n && b[0] as int == n % 256 && b[1] as int == n / 256 % 256
  {
    [(n % 256) as Byte, (n / 256) as Byte]
  }

  // ---------------------------------------------------------------- encode

  /** `None` when the codec fails or the frame exceeds the cap. */
  function Encode<M>(c: Codec<M>, version: nat, m: M): (r: Option<seq<Byte>>)
    requires version < 65536
    ensures r.Some? <==> c.enc(m).Some? && VERSION_FIELD + |c.enc(m).value| <= MAX_FRAME_BYTES
  {
    var payload := c.enc(m);
    if payload.None? || VERSION_FIELD + |payload.value| > MAX_FRAME_BYTES then None
    else Some(ToLe32(VERSION_FIELD + |payload.value|) + ToLe16(version) + payload.value)
  }

  /** The bytes of a frame: the little-endian length of all that follows the prefix, the
      little-endian version, the payload. */
  lemma FrameLayout<M>(c: Codec<M>, version: nat, m: M)
    requires version < 65536 && Encode(c, version, m).Some?
    ensures var f, payload := Encode(c, version, m).value, c.enc(m).value;
            var len := |payload| + 2;
            && len <= 1_048_576 && |f| == len + 4 && f[6..] == payload
            && f[0] as int == len % 256 && f[1] as int == len / 256 % 256
            && f[2] as int == len / 65536 % 256 && f[3] as int == 0
            && f[4] as int == version % 256 && f[5] as int == version / 256
  {
    var payload := c.enc(m).value;
    var f := Encode(c, version, m).value;
    assert f[..4] == ToLe32(|payload| + 2) && f[4..6] == ToLe16(version) && f[6..] == payload;
    assert f[0] == f[..4][0] && f[1] == f[..4][1] && f[2] == f[..4][2] && f[3] == f[..4][3];
    assert f[4] == f[4..6][0] && f[5] == f[4..6][1];
  }

  // ---------------------------------------------------------------- the simple reader

  /** How many bytes the first frame takes and what it yields; `None` if the stream ends
      first. This is `read_message`: a bad length is reported after four bytes. */
  function FirstFrame<M>(c: Codec<M>, s: seq<Byte>): (r: Option<(nat, Item<M>)>)
    ensures r.Some? ==> LEN_PREFIX <= r.value.0 <= |s|
  {
    if |s| < LEN_PREFIX then None
    else
      var len := Le32(s[..4]);
      if len < VERSION_FIELD then Some((LEN_PREFIX, Bad(FrameMalformed(len))))
      else if len > MAX_FRAME_BYTES then Some((LEN_PREFIX, Bad(FrameTooLarge(len))))
      else if |s| < LEN_PREFIX + len then None
      else
        var d := c.dec(s[6..4 + len]);
        Some((LEN_PREFIX + len, if d.Some? then Item.Message(Le16(s[4..6]), d.value) else Bad(Decode)))
  }

  /** Any frame of legal length is read whole, and yields its version and message, or a decode
      error if the payload is not one. */
  lemma AnyFrameRead<M>(c: Codec<M>, version: nat, payload: seq<Byte>)
    requires version < 65536 && |payload| + 2 <= 1_048_576
    ensures var f := ToLe32(|payload| + 2) + ToLe16(version) + payload;
            FirstFrame(c, f) ==
            Some((|payload| + 6,
                  if c.dec(payload).Some? then Item.Message(version, c.dec(payload).value) else Bad(Decode)))
  {
    var f := ToLe32(|payload| + 2) + ToLe16(version) + payload;
    assert f[..4] == ToLe32(|payload| + 2) && f[4..6] == ToLe16(version) && f[6..4 + (|payload| + 2)] == payload;
  }

  /** Repeated `read_message` over a byte stream. */
  function ReadAll<M>(c: Codec<M>, s: seq<Byte>): seq<Item<M>>
    decreases |s|
  {
    var f := FirstFrame(c, s);
    if f.None? then [] else [f.value.1] + ReadAll(c, s[f.value.0..])
  }

  /** The bytes after the last complete frame. */
  function Leftover<M>(c: Codec<M>, s: seq<Byte>): (r: seq<Byte>)
    ensures FirstFrame(c, r).None?
    decreases |s|
  {
    var f := FirstFrame(c, s);
    if f.None? then s else Leftover(c, s[f.value.0..])
  }

  lemma FirstFramePrefix<M>(c: Codec<M>, s: seq<Byte>, t: seq<Byte>)
    requires FirstFrame(c, s).Some?
    ensures FirstFrame(c, s + t) == FirstFrame(c, s)
  {
    assert (s + t)[..4] == s[..4];
    var len := Le32(s[..4]);
    if VERSION_FIELD <= len <= MAX_FRAME_BYTES {
      assert (s + t)[6..4 + len] == s[6..4 + len] && (s + t)[4..6] == s[4..6];
    }
  }

  /** Reading is incremental: more bytes only continue from the leftover. */
  lemma {:induction false} ReadAllAppend<M>(c: Codec<M>, s: seq<Byte>, t: seq<Byte>)
    ensures ReadAll(c, s + t) == ReadAll(c, s) + ReadAll(c, Leftover(c, s) + t)
    ensures Leftover(c, s + t) == Leftover(c, Leftover(c, s) + t)
    decreases |s|
  {
    hide FirstFrame;
    var f := FirstFrame(c, s);
    if f.Some? {
      FirstFramePrefix(c, s, t);
      var k := f.value.0;
      assert (s + t)[k..] == s[k..] + t;
      ReadAllAppend(c, s[k..], t);
    }
  }

  /** `read_exact`: the next `n` bytes, or nothing if the stream ends first. */
  function ReadExact(s: seq<Byte>, n: nat): Option<(seq<Byte>, seq<Byte>)> {
    if |s| < n then None else Some((s[..n], s[n..]))
  }

  /** `read_message` as the code reads it, in three exact reads. It takes the first frame
      off the stream, and nothing after it. */
  method ReadMessage<M>(c: Codec<M>, s: seq<Byte>) returns (r: Option<(Item<M>, seq<Byte>)>)
    ensures r.None? <==> FirstFrame(c, s).None?
    ensures r.Some? ==> r.value.0 == FirstFrame(c, s).value.1 && r.value.1 == s[FirstFrame(c, s).value.0..]
  {
    var lenBuf := ReadExact(s, LEN_PREFIX);
    if lenBuf.None? { return None; }
    var frameLen := Le32(lenBuf.value.0);
    if frameLen < VERSION_FIELD { return Some((Bad(FrameMalformed(frameLen)), lenBuf.value.1)); }
    if frameLen > MAX_FRAME_BYTES { return Some((Bad(FrameTooLarge(frameLen)), lenBuf.value.1)); }
    var verBuf := ReadExact(lenBuf.value.1, VERSION_FIELD);
    if verBuf.None? { return None; }
    var payload := ReadExact(verBuf.value.1, frameLen - VERSION_FIELD);
    if payload.None? { return None; }
    assert verBuf.value.0 == s[4..6] && payload.value.0 == s[6..4 + frameLen] && payload.value.1 == s[4 + frameLen..];
    var decoded := c.dec(payload.value.0);
    return Some((if decoded.Some? then Item.Message(Le16(verBuf.value.0), decoded.value)
                 else Bad(Decode), payload.value.1));
  }

  // ---------------------------------------------------------------- the resumable reader

  /** What the kernel may do with one `read(2)`: deliver up to `n` bytes (at least one, if
      any are left), or stop it. */
  datatype ReadEvent = Give(n: nat) | Interrupt | Expire | Break

  /** What the read returns. */
  datatype ReadResult = Bytes(data: seq<Byte>) | Eof | Interrupted | TimedOut | Failed

  /** Nothing but deliveries and interrupts, and enough of them for `n` bytes and the end. */
  predicate Fair(plan: seq<ReadEvent>, n: nat)
    decreases |plan|
  {
    plan != [] && match plan[0]
      case Give(_) => n == 0 || Fair(plan[1..], n - 1)
      case Interrupt => Fair(plan[1..], n)
      case _ => false
  }

  lemma {:induction false} FairFewer(plan: seq<ReadEvent>, n: nat, m: nat)
    requires Fair(plan, n) && m <= n
    ensures Fair(plan, m)
    decreases |plan|
  {
    if plan[0].Interrupt? { FairFewer(plan[1..], n, m); } else if m > 0 { FairFewer(plan[1..], n - 1, m - 1); }
  }

  /** A byte source under an adversarial schedule. `log` is what its reads returned. */
  class Reader {
    var stream: seq<Byte>
    var schedule: seq<ReadEvent>
    ghost var consumed: seq<Byte>
    ghost var log: seq<ReadResult>

    constructor (stream: seq<Byte>, schedule: seq<ReadEvent>)
      ensures this.stream == stream && this.schedule == schedule && consumed == [] && log == []
    {
      this.stream, this.schedule, this.consumed, this.log := stream, schedule, [], [];
    }

    /** One read of at most `room` bytes. An exhausted schedule times out; the end is seen
        only once every byte was taken. */
    method Read(room: nat) returns (e: ReadResult)
      requires room > 0
      modifies this
      ensures log == old(log) + [e]
      ensures var got := if e.Bytes? then e.data else [];
              consumed == old(consumed) + got && got + stream == old(stream)
      ensures (e.Bytes? ==> 0 < |e.data| <= room) && (e.Eof? ==> stream == [])
      ensures |schedule| <= |old(schedule)| && (e.Bytes? || e.Interrupted? ==> |schedule| < |old(schedule)|)
      ensures Fair(old(schedule), |old(stream)|) ==> e.Eof? || (GoesOn(e) && Fair(schedule, |stream|))
    {
      var plan := if schedule == [] then Expire else schedule[0];
      schedule := if schedule == [] then [] else schedule[1..];
      match plan {
        case Interrupt => e := Interrupted;
        case Expire => e := TimedOut;
        case Break => e := Failed;
        case Give(k) =>
          var n := if k == 0 then 1 else k;
          n := if n > room then room else n;
          n := if n > |stream| then |stream| else n;
          if n == 0 {
            e := Eof;
          } else {
            e := Bytes(stream[..n]);
            if Fair(old(schedule), |stream|) { FairFewer(schedule, |stream| - 1, |stream| - n); }
            consumed := consumed + stream[..n];
            stream := stream[n..];
          }
      }
      log := log + [e];
    }
  }

  /** The read does not end a fill: it brought bytes, or it is tried again. */
  predicate GoesOn(e: ReadResult) {
    e.Bytes? || e.Interrupted?
  }

  /** The log grew by reads of which at most the last one stopped: with `last` that one, and
      with `None` none at all. */
  ghost predicate Grew(before: seq<ReadResult>, last: Option<ReadResult>, after: seq<ReadResult>) {
    && before <= after && (last.Some? ==> |before| < |after| && Last(after) == last.value)
    && forall k :: |before| <= k < (if last.Some? then |after| - 1 else |after|) ==> GoesOn(after[k])
  }

  /** `taken` went from the stream to the consumed bytes. */
  ghost predicate Took(stream: seq<Byte>, consumed: seq<Byte>, taken: seq<Byte>, stream': seq<Byte>,
                       consumed': seq<Byte>) {
    taken + stream' == stream && consumed' == consumed + taken
  }

  lemma TookMore(s0: seq<Byte>, c0: seq<Byte>, a: seq<Byte>, s1: seq<Byte>, c1: seq<Byte>, b: seq<Byte>,
                 s2: seq<Byte>, c2: seq<Byte>)
    requires Took(s0, c0, a, s1, c1) && Took(s1, c1, b, s2, c2)
    ensures Took(s0, c0, a + b, s2, c2)
  {
    assert a + b + s2 == a + (b + s2) && c0 + a + b == c0 + (a + b);
  }

  lemma TookNone(s: seq<Byte>, c: seq<Byte>)
    ensures Took(s, c, [], s, c)
  {
  }

  lemma Still(a: seq<ReadResult>)
    ensures Grew(a, None, a)
  {
  }

  lemma GrewMore(a: seq<ReadResult>, b: seq<ReadResult>, last: Option<ReadResult>, c: seq<ReadResult>)
    requires Grew(a, None, b) && Grew(b, last, c)
    ensures Grew(a, last, c)
  {
  }

  /** A poll result and the read that ended it: `Ok(None)` exactly after a timeout, the
      `UnexpectedEof` error exactly at the end of the stream, and an I/O error exactly after
      a failed read. */
  predicate Answers<M>(p: Poll<M>, last: ReadResult) {
    && (p.Pending? <==> last.TimedOut?)
    && (p.EndOfStream? <==> last.Eof?)
    && (p.IoFailed? <==> last.Failed?)
  }

  datatype Poll<M> = Got(item: Item<M>) | Pending | EndOfStream | IoFailed

  /** The length prefix is in the buffer and asks for `want` bytes in all. */
  predicate BodyTarget(buf: seq<Byte>, want: nat) {
    |buf| >= LEN_PREFIX && want == LEN_PREFIX + Le32(buf[..4]) && VERSION_FIELD <= Le32(buf[..4]) <= MAX_FRAME_BYTES
  }

  /** Short of its target a buffer holds no complete frame, and its target stands. */
  lemma Unfinished<M>(c: Codec<M>, before: seq<Byte>, buf: seq<Byte>, want: nat)
    requires before <= buf && |buf| < want && (want == LEN_PREFIX || BodyTarget(before, want))
    ensures FirstFrame(c, buf).None? && (want == LEN_PREFIX || BodyTarget(buf, want))
  {
    if want != LEN_PREFIX { assert buf[..4] == before[..4]; }
  }

  lemma TargetStands(before: seq<Byte>, buf: seq<Byte>, want: nat)
    requires before <= buf && BodyTarget(before, want)
    ensures BodyTarget(buf, want)
  {
    assert buf[..4] == before[..4];
  }

  function Decoded<M>(c: Codec<M>, buf: seq<Byte>): Item<M>
    requires |buf| >= 6
  {
    var d := c.dec(buf[6..]);
    if d.Some? then Item.Message(Le16(buf[4..6]), d.value) else Bad(Decode)
  }

  /** At its target a buffer is exactly one frame. */
  lemma WholeFrame<M>(c: Codec<M>, buf: seq<Byte>)
    requires BodyTarget(buf, |buf|)
    ensures FirstFrame(c, buf) == Some((|buf|, Decoded(c, buf)))
  {
    assert buf[6..|buf|] == buf[6..];
  }

  /** What four bytes already decide. */
  lemma PrefixDecides<M>(c: Codec<M>, buf: seq<Byte>)
    requires |buf| == LEN_PREFIX
    ensures var len := Le32(buf);
            && (len < VERSION_FIELD ==> FirstFrame(c, buf) == Some((4, Bad(FrameMalformed(len)))))
            && (len > MAX_FRAME_BYTES ==> FirstFrame(c, buf) == Some((4, Bad(FrameTooLarge(len)))))
            && (VERSION_FIELD <= len <= MAX_FRAME_BYTES ==> FirstFrame(c, buf).None? && BodyTarget(buf, 4 + len))
  {
    assert buf[..4] == buf;
  }

  class FrameAccumulator<M> {
    const codec: Codec<M>
    var buf: seq<Byte>
    var want: nat

    /** `want` is the target of the frame in progress: the prefix alone (zero stands for
        that in a default-constructed value), or prefix and body once the length is known. */
    ghost predicate Valid()
      reads this
    {
      && |buf| <= want <= LEN_PREFIX + MAX_FRAME_BYTES
      && (want == 0 || want == LEN_PREFIX || BodyTarget(buf, want))
    }

    constructor (codec: Codec<M>)
      ensures Valid() && buf == [] && this.codec == codec
    {
      this.codec, this.buf, this.want := codec, [], LEN_PREFIX;
    }

    method Reset()
      modifies this
      ensures Valid() && buf == [] && FirstFrame(codec, buf).None?
    {
      buf, want := [], LEN_PREFIX;
    }

    /** Fill `buf` up to `want`; anything but `Got` is the reason it stopped early, and
        `last` is the read that did. */
    method Fill(r: Reader) returns (stop: Option<Poll<M>>, ghost taken: seq<Byte>, ghost last: Option<ReadResult>)
      requires |buf| <= want
      modifies this`buf, r
      ensures buf == old(buf) + taken && |buf| <= want
      ensures Took(old(r.stream), old(r.consumed), taken, r.stream, r.consumed)
      ensures (stop.None? <==> |buf| == want) && (stop.Some? ==> !stop.value.Got?)
      ensures Grew(old(r.log), last, r.log) && (last.Some? <==> stop.Some?)
      ensures stop.Some? ==> Answers(stop.value, last.value) && (last.value.Eof? ==> r.stream == [])
      ensures Fair(old(r.schedule), |old(r.stream)|) ==>
              stop == Some(EndOfStream) || (stop.None? && Fair(r.schedule, |r.stream|))
    {
      stop, taken, last := None, [], None;
      while |buf| < want
        invariant |buf| <= want && buf == old(buf) + taken
        invariant taken + r.stream == old(r.stream) && r.consumed == old(r.consumed) + taken
        invariant Grew(old(r.log), None, r.log)
        invariant Fair(old(r.schedule), |old(r.stream)|) ==> Fair(r.schedule, |r.stream|)
        decreases |r.schedule|
      {
        var e := r.Read(want - |buf|);
        match e {
          case Bytes(data) => buf, taken := buf + data, taken + data;
          case Interrupted =>
          case TimedOut => return Some(Pending), taken, Some(e);
          case Eof => return Some(EndOfStream), taken, Some(e);
          case Failed => return Some(IoFailed), taken, Some(e);
        }
      }
    }

    /** One `poll_read`. With a frame, the old buffer plus what was read is exactly that
        frame, so no byte past it is ever consumed; without one, everything is retained. */
    method PollRead(r: Reader) returns (p: Poll<M>, ghost taken: seq<Byte>, ghost last: Option<ReadResult>)
      requires Valid() && FirstFrame(codec, buf).None?
      modifies this, r
      ensures Valid() && FirstFrame(codec, buf).None?
      ensures Took(old(r.stream), old(r.consumed), taken, r.stream, r.consumed)
      ensures p.Got? ==> buf == [] && FirstFrame(codec, old(buf) + taken) == Some((|old(buf) + taken|, p.item))
      ensures !p.Got? ==> buf == old(buf) + taken
      ensures Grew(old(r.log), last, r.log) && (last.Some? <==> !p.Got?)
      ensures !p.Got? ==> Answers(p, last.value) && (last.value.Eof? ==> r.stream == [])
      ensures Fair(old(r.schedule), |old(r.stream)|) ==>
              p.EndOfStream? || (p.Got? && Fair(r.schedule, |r.stream|))
    {
      hide FirstFrame, Le32, Le16, Grew, Answers, Fair, Took, BodyTarget;
      assert Grew(old(r.log), None, r.log) by { Still(r.log); }
      TookNone(r.stream, r.consumed);
      if want == 0 { want := LEN_PREFIX; }
      taken := [];
      while true
        invariant Valid() && want != 0 && FirstFrame(codec, buf).None? && buf == old(buf) + taken
        invariant Took(old(r.stream), old(r.consumed), taken, r.stream, r.consumed)
        invariant Grew(old(r.log), None, r.log)
        invariant Fair(old(r.schedule), |old(r.stream)|) ==> Fair(r.schedule, |r.stream|)
        decreases if want == LEN_PREFIX then 1 else 0
      {
        ghost var before, log, stream, consumed := buf, r.log, r.stream, r.consumed;
        var stop, more, why := Fill(r);
        TookMore(old(r.stream), old(r.consumed), taken, stream, consumed, more, r.stream, r.consumed);
        taken, last := taken + more, why;
        GrewMore(old(r.log), log, last, r.log);
        assert buf == old(buf) + taken;
        if stop.Some? {
          Unfinished(codec, before, buf, want);
          return stop.value, taken, last;
        }
        if want == LEN_PREFIX {
          var bad := CheckPrefix();
          if bad.Some? { return Got(bad.value), taken, None; }
        } else {
          TargetStands(before, buf, want);
          var item := TakeFrame();
          return Got(item), taken, None;
        }
      }
    }

    /** The length prefix is complete: report a bad length, or aim for the whole frame. */
    method CheckPrefix() returns (bad: Option<Item<M>>)
      requires |buf| == want == LEN_PREFIX
      modifies this
      ensures Valid() && FirstFrame(codec, buf).None?
      ensures bad.Some? ==> buf == [] && FirstFrame(codec, old(buf)) == Some((LEN_PREFIX, bad.value))
      ensures bad.None? ==> buf == old(buf) && want > LEN_PREFIX
    {
      hide FirstFrame, Le32, Le16;
      PrefixDecides(codec, buf);
      var frameLen := Le32(buf);
      if frameLen < VERSION_FIELD {
        Reset();
        return Some(Bad(FrameMalformed(frameLen)));
      }
      if frameLen > MAX_FRAME_BYTES {
        Reset();
        return Some(Bad(FrameTooLarge(frameLen)));
      }
      want := LEN_PREFIX + frameLen;
      return None;
    }

    /** The frame is complete: decode it and start over. */
    method TakeFrame() returns (item: Item<M>)
      requires |buf| == want && BodyTarget(buf, want)
      modifies this
      ensures Valid() && buf == [] && FirstFrame(codec, buf).None? &&
              FirstFrame(codec, old(buf)) == Some((|old(buf)|, item))
    {
      hide FirstFrame;
      WholeFrame(codec, buf);
      item := Decoded(codec, buf);
      Reset();
    }
  }

  lemma OneFrame<M>(c: Codec<M>, seen: seq<Byte>, taken: seq<Byte>, item: Item<M>)
    requires FirstFrame(c, Leftover(c, seen) + taken) == Some((|Leftover(c, seen) + taken|, item))
    ensures ReadAll(c, seen + taken) == ReadAll(c, seen) + [item] && Leftover(c, seen + taken) == []
  {
    hide FirstFrame;
    ReadAllAppend(c, seen, taken);
    var frame := Leftover(c, seen) + taken;
    assert frame[|frame|..] == [];
    assert FirstFrame(c, []).None? by { Empty(c); }
    assert ReadAll(c, frame) == [item] + ReadAll(c, []);
  }

  lemma Empty<M>(c: Codec<M>)
    ensures FirstFrame(c, []).None? && ReadAll(c, []) == [] && Leftover(c, []) == []
  {
  }

  lemma NoFrame<M>(c: Codec<M>, seen: seq<Byte>, taken: seq<Byte>)
    requires FirstFrame(c, Leftover(c, seen) + taken).None?
    ensures ReadAll(c, seen + taken) == ReadAll(c, seen) && Leftover(c, seen + taken) == Leftover(c, seen) + taken
  {
    hide FirstFrame;
    ReadAllAppend(c, seen, taken);
  }

  lemma Marks(before: seq<ReadResult>, last: Option<ReadResult>, after: seq<ReadResult>)
    requires Grew(before, last, after)
    ensures forall e :: e in after && !GoesOn(e) ==> e in before || last == Some(e)
    ensures (forall e :: e in before ==> e in after) && (last.Some? ==> last.value in after)
  {
    assert forall k :: 0 <= k < |before| ==> before[k] == after[k];
  }

  /** The fast reader refines the simple one: for every byte stream and every schedule of
      partial reads, interrupts and timeouts, the results of repeated `poll_read` are those
      of repeated `read_message` on the bytes consumed so far, bad frames included, and the
      accumulator holds exactly the bytes of the unfinished frame. */
  method PollMany<M>(acc: FrameAccumulator<M>, r: Reader, polls: nat)
      returns (items: seq<Item<M>>, end: Option<Poll<M>>)
    requires acc.Valid() && acc.buf == [] && r.consumed == [] && r.log == []
    modifies acc, r
    ensures acc.Valid() && r.consumed + r.stream == old(r.stream)
    ensures items == ReadAll(acc.codec, r.consumed)
    ensures acc.buf == Leftover(acc.codec, r.consumed)
    ensures end.None? || end == Some(EndOfStream) || end == Some(IoFailed)
    ensures (end == Some(EndOfStream) <==> Eof in r.log) && (end == Some(IoFailed) <==> Failed in r.log)
    ensures end == Some(EndOfStream) ==> items == ReadAll(acc.codec, old(r.stream))
    ensures Fair(old(r.schedule), |old(r.stream)|) && polls > |old(r.stream)| ==> end == Some(EndOfStream)
  {
    hide FirstFrame, ReadAll, Leftover, Grew, Fair;
    items, end := [], None;
    Empty(acc.codec);
    var k := 0;
    while k < polls && end.None?
      invariant acc.Valid() && r.consumed + r.stream == old(r.stream)
      invariant items == ReadAll(acc.codec, r.consumed) && acc.buf == Leftover(acc.codec, r.consumed)
      invariant end.None? || end == Some(EndOfStream) || end == Some(IoFailed)
      invariant (end == Some(EndOfStream) <==> Eof in r.log) && (end == Some(IoFailed) <==> Failed in r.log)
      invariant end == Some(EndOfStream) ==> r.stream == []
      invariant Fair(old(r.schedule), |old(r.stream)|) ==>
                end == Some(EndOfStream) || (end.None? && Fair(r.schedule, |r.stream|) && 0 <= k <= |r.consumed|)
      decreases polls - k
    {
      ghost var seen, log := r.consumed, r.log;
      var p, taken, last := acc.PollRead(r);
      Marks(log, last, r.log);
      assert r.consumed + r.stream == seen + (taken + r.stream);
      if p.Got? {
        OneFrame(acc.codec, seen, taken, p.item);
        assert Leftover(acc.codec, seen) + [] == Leftover(acc.codec, seen);
        assert taken != [];
        items := items + [p.item];
      } else {
        NoFrame(acc.codec, seen, taken);
        end := if p.Pending? then None else Some(p);
      }
      k := k + 1;
    }
    assert r.stream == [] ==> r.consumed == r.consumed + r.stream;
  }
}
