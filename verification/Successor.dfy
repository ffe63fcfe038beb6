/** The successor `N`: the typestate chain `Successor` -> `HandshookSuccessor` ->
    `BegunSuccessor` -> `Incumbent`, in the call order the reference primitive uses, and
    the cold-start path. An error before the flock is handed to `announce_and_bind` or
    `bind_cold_start` is an exit of the process; those two take the guard by value, so
    their errors drop the flock and leave the process running. */
module SuccessorBoot {
  import opened Protocol

  datatype Boot =
    | Greet                        // Successor: about to write Hello
    | AwaitAck                     // Successor: reading HelloAck
    | AwaitBegin(id: HandoffId)    // HandshookSuccessor
    | Acquire(id: HandoffId)       // BegunSuccessor, no flock yet
    | Open(id: HandoffId)          // flock held, opening state
    | Announce(id: HandoffId)      // serving, about to write Ready
    | Bind(id: HandoffId)          // Ready written, control stream dropped
    | ColdAcquire | ColdOpen | ColdBind
    | Stranded                     // announce or bind failed: guard dropped, writer open

  datatype Event = WroteHello | Got(m: Message) | Beat | Acquired | Opened | WroteReady | Bound | AnnounceFailed
      | BindFailed

  /** `Bound` leaves the boot phase and is handled by the caller. */
  function Next(b: Boot, e: Event): Option<Boot> {
    match e
    case WroteHello => if b == Greet then Some(AwaitAck) else None
    case Got(m) =>
      if b == AwaitAck && m.HelloAck? then Some(AwaitBegin(m.id))
      else if b.AwaitBegin? && m == Begin(b.id) then Some(Acquire(b.id))
      else if b.AwaitBegin? && m.Heartbeat? then Some(b)
      else None
    case Beat => if b.Acquire? || b.Open? || b.Announce? then Some(b) else None
    case Acquired =>
      if b.Acquire? then Some(Open(b.id)) else if b == ColdAcquire then Some(ColdOpen) else None
    case Opened =>
      if b.Open? then Some(Announce(b.id)) else if b == ColdOpen then Some(ColdBind) else None
    case WroteReady => if b.Announce? then Some(Bind(b.id)) else None
    case Bound => None
    case AnnounceFailed => if b.Announce? then Some(Stranded) else None
    case BindFailed => if b.Bind? || b == ColdBind then Some(Stranded) else None
  }

  /** The process holds the flock. */
  predicate Holds(b: Boot) {
    b.Open? || b.Announce? || b.Bind? || b.ColdOpen? || b.ColdBind?
  }

  /** The consumer's writer is open. */
  predicate Writing(b: Boot) {
    b.Announce? || b.Bind? || b.ColdBind? || b.Stranded?
  }

  datatype BeginResult = Begun | WrongId | Aborted | Unexpected | Eof

  /** The first frame that is not a heartbeat, if any. */
  function Decisive(ms: seq<Message>): Option<Message> {
    if ms == [] then None else if ms[0].Heartbeat? then Decisive(ms[1..]) else Some(ms[0])
  }

  /** `wait_for_begin` over the frames the supervisor sends: it proceeds exactly when the
      first frame that is not a heartbeat is a `Begin` with the negotiated id. */
  method WaitForBegin(expected: HandoffId, ms: seq<Message>) returns (r: BeginResult)
    ensures r == Begun <==> Decisive(ms) == Some(Begin(expected))
    ensures r == Aborted <==> Decisive(ms).Some? && Decisive(ms).value.Abort?
    ensures r == WrongId <==> Decisive(ms).Some? && Decisive(ms).value.Begin? && Decisive(ms).value.id != expected
    ensures r == Eof <==> Decisive(ms).None?
  {
    var i := 0;
    while i < |ms|
      invariant 0 <= i <= |ms|
      invariant Decisive(ms) == Decisive(ms[i..])
    {
      match ms[i] {
        case Begin(id) => return if id == expected then Begun else WrongId;
        case Abort(_) => return Aborted;
        case Heartbeat =>
        case _ => return Unexpected;
      }
      i := i + 1;
    }
    return Eof;
  }

  /** Where the automaton gets with the frames `ms` while it waits for `Begin`; `None` when it
      refuses one. */
  function Fed(id: HandoffId, ms: seq<Message>): Option<Boot> {
    if ms == [] then Some(AwaitBegin(id))
    else
      var b := Next(AwaitBegin(id), Got(ms[0]));
      if b == Some(AwaitBegin(id)) then Fed(id, ms[1..]) else b
  }

  /** The automaton and the loop agree: it goes on with `Begin` of this id as the first
      decisive frame, waits while there is none, and refuses every other. */
  lemma {:induction false} BeginIffDecisive(id: HandoffId, ms: seq<Message>)
    ensures Fed(id, ms) == Some(Acquire(id)) <==> Decisive(ms) == Some(Begin(id))
    ensures Fed(id, ms) == Some(AwaitBegin(id)) <==> Decisive(ms) == None
    ensures Fed(id, ms) == None <==> Decisive(ms).Some? && Decisive(ms).value != Begin(id)
  {
    if ms != [] && ms[0].Heartbeat? { BeginIffDecisive(id, ms[1..]); }
  }

  /** The id N waits for is the one in the acknowledgement, and nothing else is accepted as
      one. */
  lemma HandshakeIff(m: Message, id: HandoffId)
    ensures Next(AwaitAck, Got(m)) == Some(AwaitBegin(id)) <==> m.HelloAck? && m.id == id
    ensures !m.HelloAck? ==> Next(AwaitAck, Got(m)) == None
  {
  }
}
