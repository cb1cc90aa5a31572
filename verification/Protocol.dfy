/** The two-party signing protocol: two nodes, each with its own durable record of
    one channel, exchange proposals over a network that loses requests and
    replies, and either may crash between any two durable writes. */
module Protocol {
  import opened Common
  import opened Symbols
  import opened ChannelState

  datatype Proposal = Proposal(intent: Term, tr: Transition, state: State)

  /** What one node keeps on disk about the channel. A crash loses nothing else. */
  datatype Node = Node(
    latest: State,
    applied: map<Term, nat>,
    signed: map<nat, State>,
    pending: Option<Proposal>,
    conflict: bool)

  datatype Clock = Clock(now: int, skew: int, minLockWindow: int)

  datatype Code =
    | LocksMalformed
    | LockExpired
    | LockNotExpired
    | TransitionMismatch
    | AlreadySignedNonce
    | ChannelConflicted

  datatype LocalError =
    | Conflicted
    | OtherProposalPending
    | Invalid(why: Refusal)
    | TooLate
    | AlreadySigned

  datatype Reply = Accepted(state: State) | Rejected(code: Code) | Current(state: State)

  /** Entries a node can never sign again are dropped from its ledger. */
  function Prune(signed: map<nat, State>, nonce: nat): map<nat, State> {
    map k | k in signed && k > nonce :: signed[k]
  }

  predicate SettleTooLate(expiry: int, c: Clock) {
    expiry <= c.now + c.skew
  }

  predicate RefundTooEarly(expiry: int, c: Clock) {
    expiry > c.now - c.skew
  }

  /** The timing rules, which need a clock; skew works against whoever acts. */
  function TimingRefusal(s: State, t: Transition, c: Clock): Option<Code> {
    match t
    case Pay(_) => None
    case LockAdd(_, _, _, expiry) =>
      if expiry < c.now + c.minLockWindow then Some(LocksMalformed) else None
    case LockSettle(id, _) =>
      if id !in s.pending then Some(TransitionMismatch)
      else if SettleTooLate(s.pending[id].expiry, c) then Some(LockExpired)
      else None
    case LockRefund(id) =>
      if id !in s.pending then Some(TransitionMismatch)
      else if RefundTooEarly(s.pending[id].expiry, c) then Some(LockNotExpired)
      else None
  }

  /** The proposer signs and records a proposal before anything is sent. */
  function Propose(n: Node, isA: bool, intent: Term, t: Transition, c: Clock): Result<Node, LocalError> {
    if n.conflict then Err(Conflicted)
    else if n.pending.Some? then
      if n.pending.value.intent == intent then Ok(n) else Err(OtherProposalPending)
    else
      var next := Apply(n.latest, t, isA);
      if next.Err? then Err(Invalid(next.error))
      else if t.LockSettle? && TimingRefusal(n.latest, t, c).Some? then Err(TooLate)
      else
        var k := next.value.nonce;
        if k in n.signed && n.signed[k] != next.value then Err(AlreadySigned)
        else Ok(n.(pending := Some(Proposal(intent, t, next.value)),
                   signed := Prune(n.signed[k := next.value], n.latest.nonce)))
  }

  /** The other party checks a proposal and counter-signs it, or refuses. */
  function HandlePropose(n: Node, isA: bool, p: Proposal, c: Clock): (Node, Reply) {
    if n.conflict then (n, Rejected(ChannelConflicted))
    else if p.intent in n.applied then
      (n, if n.latest.nonce == n.applied[p.intent] then Accepted(n.latest) else Current(n.latest))
    else
      var want := Apply(n.latest, p.tr, !isA);
      if want.Err? || want.value != p.state then (n, Rejected(TransitionMismatch))
      else
        var late := TimingRefusal(n.latest, p.tr, c);
        if late.Some? then (n, Rejected(late.value))
        else if p.state.nonce in n.signed && n.signed[p.state.nonce] != p.state then
          (n, Rejected(AlreadySignedNonce))
        else
          (n.(latest := p.state,
              applied := n.applied[p.intent := p.state.nonce],
              signed := Prune(n.signed, p.state.nonce)),
           Accepted(p.state))
  }

  /** The proposer completes its proposal with a counter-signature over `state`.
      False when the signature does not complete what is pending. */
  function HandleAccept(n: Node, intent: Term, state: State): (Node, bool) {
    if n.pending.None? then (n, intent in n.applied)
    else
      var p := n.pending.value;
      if p.intent != intent || p.state != state || p.state.nonce <= n.latest.nonce then (n, false)
      else (n.(latest := p.state,
               applied := n.applied[p.intent := p.state.nonce],
               signed := Prune(n.signed, p.state.nonce),
               pending := None), true)
  }

  function HandleReject(n: Node, intent: Term): Node {
    if n.pending.Some? && n.pending.value.intent == intent then n.(pending := None) else n
  }

  /** A node told of its peer's latest state adopts it only when it is newer, and
      stops for good on two different states at one nonce. */
  function HandleResponse(n: Node, theirs: State): Node {
    if theirs.nonce > n.latest.nonce then
      var covered := n.pending.Some? && n.pending.value.state.nonce <= theirs.nonce;
      n.(latest := theirs,
         signed := Prune(n.signed, theirs.nonce),
         applied := if covered then n.applied[n.pending.value.intent := n.pending.value.state.nonce] else n.applied,
         pending := if covered then None else n.pending)
    else if theirs.nonce < n.latest.nonce || theirs == n.latest then n
    else n.(conflict := true, pending := None)
  }

  // ---- one channel: two nodes ------------------------------------------------------

  datatype Link = Link(a: Node, b: Node)

  function NodeOf(l: Link, isA: bool): Node {
    if isA then l.a else l.b
  }

  function WithNode(l: Link, isA: bool, n: Node): (l': Link)
    ensures NodeOf(l', isA) == n && NodeOf(l', !isA) == NodeOf(l, !isA)
  {
    if isA then l.(a := n) else l.(b := n)
  }

  /** How far one exchange with the peer gets; a crash of the caller at any point
      of the exchange looks like one of the first two. */
  datatype Delivery = RequestLost | ReplyLost | Answered

  datatype PayResult = Done | Refused(code: Code) | LocalRefusal(why: LocalError) | NoAnswer | BadAnswer | NotDone

  /** Coordinator.Pay: answer from the record, or propose, exchange and conclude. */
  function PayOn(l: Link, isA: bool, intent: Term, t: Transition, d: Delivery, mine: Clock, theirs: Clock)
    : (Link, PayResult)
  {
    var n := NodeOf(l, isA);
    if n.conflict then (l, LocalRefusal(Conflicted))
    else if intent in n.applied then (l, Done)
    else
      var proposed := Propose(n, isA, intent, t, mine);
      if proposed.Err? then (l, LocalRefusal(proposed.error))
      else
        var sent := WithNode(l, isA, proposed.value);
        if d == RequestLost then (sent, NoAnswer)
        else
          var (peer, reply) := HandlePropose(NodeOf(sent, !isA), !isA, proposed.value.pending.value, theirs);
          var handled := WithNode(sent, !isA, peer);
          if d == ReplyLost then (handled, NoAnswer)
          else
            match reply
            case Accepted(s) =>
              var (n', ok) := HandleAccept(NodeOf(handled, isA), intent, s);
              (WithNode(handled, isA, n'), if ok then Done else BadAnswer)
            case Rejected(code) =>
              (WithNode(handled, isA, HandleReject(NodeOf(handled, isA), intent)), Refused(code))
            case Current(s) =>
              var n' := HandleResponse(NodeOf(handled, isA), s);
              (WithNode(handled, isA, n'), if intent in n'.applied then Done else NotDone)
  }

  /** Coordinator.Recover: a node with an outstanding proposal asks for the peer's state. */
  function RecoverOn(l: Link, isA: bool): Link {
    var n := NodeOf(l, isA);
    if n.conflict || n.pending.None? then l
    else WithNode(l, isA, HandleResponse(n, NodeOf(l, !isA).latest))
  }

  /** A proposal still outstanding reaches the peer after its sender gave up waiting. */
  function LateOn(l: Link, isA: bool, theirs: Clock): Link {
    var n := NodeOf(l, isA);
    if n.pending.None? then l
    else WithNode(l, !isA, HandlePropose(NodeOf(l, !isA), !isA, n.pending.value, theirs).0)
  }
}
