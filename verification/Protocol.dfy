/** The control-channel vocabulary shared by supervisor, incumbent and successor. */
module Protocol {

  datatype Option<+T> = None | Some(value: T)

  /** Handoff ids are fresh per `perform_handoff`; only their equality matters. */
  type HandoffId = nat
  type Pid = nat
  type ProtoVersion = nat

  const PROTO_MIN: ProtoVersion := 1
  const PROTO_MAX: ProtoVersion := 1

  datatype Side = IncumbentSide | SuccessorSide

  /** Payload fields that no role inspects (build ids, revisions, fingerprints,
      reasons, timestamps) are not carried. */
  datatype Message =
    | Hello(role: Side, pid: Pid, protoMin: ProtoVersion, protoMax: ProtoVersion)
    | HelloAck(chosen: ProtoVersion, id: HandoffId)
    | PrepareHandoff(id: HandoffId, successorPid: Pid, deadlineMs: nat, drainGraceMs: nat)
    | Drained
    | SealRequest(id: HandoffId)
    | SealProgress
    | SealComplete(id: HandoffId)
    | SealFailed(id: HandoffId)
    | Begin(id: HandoffId)
    | Ready(id: HandoffId)
    | Commit(id: HandoffId)
    | Abort(id: HandoffId)
    | ResumeAfterAbort(id: HandoffId)
    | Heartbeat

  /** The journal phases, in the order `perform_handoff` writes them. */
  datatype Phase = Negotiating | Draining | Sealing | AwaitingReady | Committed | ResumingAfterAbort

  predicate Speaks(lo: ProtoVersion, hi: ProtoVersion, v: ProtoVersion) {
    lo <= v <= hi
  }

  /** The greatest version both ranges speak; `None` exactly when there is none. */
  function NegotiateVersion(ourMin: ProtoVersion, ourMax: ProtoVersion,
                            theirMin: ProtoVersion, theirMax: ProtoVersion): (r: Option<ProtoVersion>)
    ensures r.None? <==> forall v: ProtoVersion :: !(Speaks(ourMin, ourMax, v) && Speaks(theirMin, theirMax, v))
    ensures r.Some? ==> Speaks(ourMin, ourMax, r.value) && Speaks(theirMin, theirMax, r.value)
    ensures r.Some? ==> forall v: ProtoVersion :: Speaks(ourMin, ourMax, v) && Speaks(theirMin, theirMax, v) ==>
            v <= r.value
  {
    var lo := if ourMin < theirMin then theirMin else ourMin;
    var hi := if ourMax < theirMax then ourMax else theirMax;
    assert lo <= hi ==> Speaks(ourMin, ourMax, hi) && Speaks(theirMin, theirMax, hi);
    if lo > hi then None else Some(hi)
  }

  /** The frames that only say the peer is alive. */
  predicate Progress(m: Message) {
    m.Heartbeat? || m.SealProgress?
  }

  function Front<T>(es: seq<T>): (r: seq<T>)
    requires es != []
  {
    es[..|es| - 1]
  }

  function Last<T>(es: seq<T>): T
    requires es != []
  {
    es[|es| - 1]
  }
}
