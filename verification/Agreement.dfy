/** Runs of the two-party protocol, and what every reachable pair of records has in
    common: one co-signed history, of which each node holds all but at most the
    last state. */
module Agreement {
  import opened Common
  import opened Symbols
  import opened ChannelState
  import opened Protocol

  /** One co-signed transition. The history is a reader's notion: no node keeps it. */
  datatype Entry = Entry(intent: Term, tr: Transition, byA: bool, state: State)

  datatype World = World(link: Link, log: seq<Entry>)

  datatype Step =
    | PayStep(isA: bool, intent: Term, tr: Transition, delivery: Delivery, mine: Clock, theirs: Clock)
    | RecoverStep(isA: bool)
    | LateStep(isA: bool, theirs: Clock)

  function StepLink(l: Link, s: Step): Link {
    match s
    case PayStep(isA, intent, t, d, mine, theirs) => PayOn(l, isA, intent, t, d, mine, theirs).0
    case RecoverStep(isA) => RecoverOn(l, isA)
    case LateStep(isA, theirs) => LateOn(l, isA, theirs)
  }

  function Run(l: Link, steps: seq<Step>): Link {
    if steps == [] then l else StepLink(Run(l, steps[..|steps| - 1]), steps[|steps| - 1])
  }

  /** A channel as the chain opened it: the deposits, nothing signed. */
  predicate Fresh(s: State) {
    s.nonce == 0 && s.pending == map[] && s.balanceA >= 0 && s.balanceB >= 0
  }

  function OpenNode(origin: State): Node {
    Node(origin, map[], map[], None, false)
  }

  function Open(origin: State): Link {
    Link(OpenNode(origin), OpenNode(origin))
  }

  // ---- the invariant ---------------------------------------------------------------

  function At(origin: State, log: seq<Entry>, k: nat): State
    requires k <= |log|
  {
    if k == 0 then origin else log[k - 1].state
  }

  ghost predicate ValidLog(origin: State, log: seq<Entry>) {
    && origin.nonce == 0
    && forall k :: 0 <= k < |log| ==>
         && log[k].state.nonce == k + 1
         && Apply(At(origin, log, k), log[k].tr, log[k].byA) == Ok(log[k].state)
  }

  ghost predicate NodeInv(origin: State, log: seq<Entry>, n: Node, other: Node, isA: bool) {
    var m := |log|;
    && !n.conflict
    && n.latest.nonce <= m <= n.latest.nonce + 1
    && n.latest == At(origin, log, n.latest.nonce)
    && (forall k :: k in n.signed ==> k == n.latest.nonce + 1)
    && (forall x :: x in n.applied ==> 1 <= n.applied[x] <= n.latest.nonce)
    && (n.pending.Some? ==>
          var p := n.pending.value;
          && 1 <= p.state.nonce <= n.latest.nonce + 1
          && Apply(At(origin, log, p.state.nonce - 1), p.tr, isA) == Ok(p.state)
          && (p.state.nonce == n.latest.nonce + 1 ==>
                p.state.nonce in n.signed && n.signed[p.state.nonce] == p.state && p.intent !in n.applied))
    && (n.latest.nonce < m ==>
          && n.pending.Some?
          && log[m - 1] == Entry(n.pending.value.intent, n.pending.value.tr, isA, n.pending.value.state)
          && n.pending.value.intent in other.applied
          && other.applied[n.pending.value.intent] == m)
  }

  /** Two nodes seen from the one that is party A or not. */
  ghost predicate PairInv(origin: State, log: seq<Entry>, n: Node, other: Node, isA: bool) {
    && ValidLog(origin, log)
    && NodeInv(origin, log, n, other, isA)
    && NodeInv(origin, log, other, n, !isA)
    && (n.latest.nonce == |log| || other.latest.nonce == |log|)
  }

  ghost predicate Inv(origin: State, w: World) {
    PairInv(origin, w.log, w.link.a, w.link.b, true)
  }

  lemma OpenInv(origin: State)
    requires origin.nonce == 0
    ensures Inv(origin, World(Open(origin), []))
  {
  }

  // ---- the steps inside an exchange --------------------------------------------------

  /** Proposing changes nothing that is co-signed. */
  lemma ProposeInv(origin: State, log: seq<Entry>, n: Node, other: Node, isA: bool,
                   intent: Term, t: Transition, c: Clock)
    requires PairInv(origin, log, n, other, isA)
    requires intent !in n.applied
    requires Propose(n, isA, intent, t, c).Ok?
    ensures PairInv(origin, log, Propose(n, isA, intent, t, c).value, other, isA)
  {
    hide Apply, Propose, ValidLog, NodeInv;
    ProposedIs(n, isA, intent, t, c);
    if n.pending.None? {
      ProposedNode(origin, log, n, other, isA, intent, t);
      SameRecord(origin, log, other, n, Propose(n, isA, intent, t, c).value, !isA);
    }
  }

  /** A new proposal is the next state, written into the ledger with it. */
  function Proposing(n: Node, isA: bool, intent: Term, t: Transition): Node
    requires Apply(n.latest, t, isA).Ok?
  {
    var next := Apply(n.latest, t, isA).value;
    n.(pending := Some(Proposal(intent, t, next)), signed := Prune(n.signed[next.nonce := next], n.latest.nonce))
  }

  lemma ProposedIs(n: Node, isA: bool, intent: Term, t: Transition, c: Clock)
    requires Propose(n, isA, intent, t, c).Ok?
    ensures n.pending.Some? ==> Propose(n, isA, intent, t, c).value == n
    ensures n.pending.None? ==>
              Apply(n.latest, t, isA).Ok? && Propose(n, isA, intent, t, c).value == Proposing(n, isA, intent, t)
  {
    hide Apply;
  }

  lemma ProposedNode(origin: State, log: seq<Entry>, n: Node, other: Node, isA: bool, intent: Term, t: Transition)
    requires NodeInv(origin, log, n, other, isA) && n.pending.None? && intent !in n.applied && Apply(n.latest, t, isA).Ok?
    ensures NodeInv(origin, log, Proposing(n, isA, intent, t), other, isA)
  {
    ApplyNonce(n.latest, t, isA);
    hide Apply;
  }

  /** Of the other node only the record of what it applied matters, and that only to a node
      that is behind. */
  lemma SameRecord(origin: State, log: seq<Entry>, n: Node, other: Node, o': Node, isA: bool)
    requires NodeInv(origin, log, n, other, isA) && (n.latest.nonce == |log| || o'.applied == other.applied)
    ensures NodeInv(origin, log, n, o', isA)
  {
    hide Apply;
  }

  lemma ApplyNonce(s: State, t: Transition, isA: bool)
    requires Apply(s, t, isA).Ok?
    ensures Apply(s, t, isA).value.nonce == s.nonce + 1
  {
  }

  /** The co-signed history after `other` handled the outstanding proposal of `n`. */
  ghost function Extended(log: seq<Entry>, p: Proposal, isA: bool, peer: Node): seq<Entry> {
    if peer.latest.nonce > |log| then log + [Entry(p.intent, p.tr, isA, p.state)] else log
  }

  /** A node records a peer's proposal entirely or leaves its record alone. */
  lemma HandleEffect(n: Node, isA: bool, p: Proposal, c: Clock)
    ensures var n' := HandlePropose(n, isA, p, c).0;
            n' == n
            || (&& n' == n.(latest := p.state, applied := n.applied[p.intent := p.state.nonce],
                            signed := Prune(n.signed, p.state.nonce))
                && p.intent !in n.applied
                && p.state.nonce == n.latest.nonce + 1
                && (p.state.nonce in n.signed ==> n.signed[p.state.nonce] == p.state))
  {
    hide Apply;
    if Apply(n.latest, p.tr, !isA).Ok? {
      ApplyNonce(n.latest, p.tr, !isA);
    }
  }

  lemma HandledInv(origin: State, log: seq<Entry>, n: Node, other: Node, isA: bool, c: Clock)
    requires PairInv(origin, log, n, other, isA)
    requires n.pending.Some?
    ensures var peer := HandlePropose(other, !isA, n.pending.value, c).0;
            PairInv(origin, Extended(log, n.pending.value, isA, peer), n, peer, isA)
  {
    hide Apply, HandlePropose;
    var p := n.pending.value;
    var peer := HandlePropose(other, !isA, p, c).0;
    HandleEffect(other, !isA, p, c);
    if peer == other {
      assert Extended(log, p, isA, peer) == log;
    } else if other.latest.nonce == |log| {
      GrowInv(origin, log, n, other, isA, peer);
    } else {
      CatchUpInv(origin, log, n, other, isA, peer);
      assert Extended(log, p, isA, peer) == log;
    }
  }

  /** A peer one state behind can only sign the state it is missing. */
  lemma CatchUpInv(origin: State, log: seq<Entry>, n: Node, other: Node, isA: bool, peer: Node)
    requires PairInv(origin, log, n, other, isA)
    requires n.pending.Some?
    requires var p := n.pending.value;
             && peer == other.(latest := p.state, applied := other.applied[p.intent := p.state.nonce],
                               signed := Prune(other.signed, p.state.nonce))
             && p.intent !in other.applied
             && p.state.nonce == other.latest.nonce + 1
             && (p.state.nonce in other.signed ==> other.signed[p.state.nonce] == p.state)
    requires other.latest.nonce < |log|
    ensures PairInv(origin, log, n, peer, isA)
  {
    BehindPeer(origin, log, n, other, isA);
    hide Apply, ValidLog, NodeInv, Prune;
    SameRecord(origin, log, n, other, peer, isA);
    CaughtUpNode(origin, log, n, other, isA, peer);
  }

  lemma BehindPeer(origin: State, log: seq<Entry>, n: Node, other: Node, isA: bool)
    requires PairInv(origin, log, n, other, isA) && n.pending.Some?
    requires other.latest.nonce < |log| && n.pending.value.state.nonce == other.latest.nonce + 1
    ensures n.latest.nonce == |log| == other.latest.nonce + 1
    ensures (|log| in other.signed ==> other.signed[|log|] == n.pending.value.state) ==>
              n.pending.value.state == At(origin, log, |log|)
  {
    hide Apply, ValidLog;
  }

  lemma CaughtUpNode(origin: State, log: seq<Entry>, n: Node, other: Node, isA: bool, peer: Node)
    requires NodeInv(origin, log, other, n, !isA) && n.pending.Some? && other.latest.nonce + 1 == |log|
    requires var p := n.pending.value;
             && p.state == At(origin, log, |log|) && p.state.nonce == |log| && p.intent !in other.applied
             && peer == other.(latest := p.state, applied := other.applied[p.intent := p.state.nonce],
                               signed := Prune(other.signed, p.state.nonce))
    ensures NodeInv(origin, log, peer, n, !isA)
  {
    hide Apply;
  }

  /** A proposal accepted by a peer that held the whole history extends it. */
  lemma GrowInv(origin: State, log: seq<Entry>, n: Node, other: Node, isA: bool, peer: Node)
    requires PairInv(origin, log, n, other, isA)
    requires n.pending.Some? && n.pending.value.intent !in other.applied
    requires other.latest.nonce == |log| && n.pending.value.state.nonce == |log| + 1
    requires peer == other.(latest := n.pending.value.state,
                            applied := other.applied[n.pending.value.intent := n.pending.value.state.nonce],
                            signed := Prune(other.signed, n.pending.value.state.nonce))
    ensures PairInv(origin, Extended(log, n.pending.value, isA, peer), n, peer, isA)
  {
    hide Apply;
    var p := n.pending.value;
    var e := Entry(p.intent, p.tr, isA, p.state);
    GrowLog(origin, log, e);
    assert NodeInv(origin, log + [e], n, peer, isA) by {
      assert At(origin, log + [e], n.latest.nonce) == At(origin, log, n.latest.nonce);
      assert At(origin, log + [e], p.state.nonce - 1) == At(origin, log, p.state.nonce - 1);
    }
    GrownPeerInv(origin, log, e, n, other, peer, !isA);
  }

  lemma GrownPeerInv(origin: State, log: seq<Entry>, e: Entry, n: Node, other: Node, peer: Node, isA: bool)
    requires NodeInv(origin, log, other, n, isA)
    requires other.latest.nonce == |log| && e.state.nonce == |log| + 1
    requires e.intent !in other.applied
    requires peer == other.(latest := e.state, applied := other.applied[e.intent := e.state.nonce],
                            signed := Prune(other.signed, e.state.nonce))
    ensures NodeInv(origin, log + [e], peer, n, isA)
  {
    hide Apply;
    if other.pending.Some? {
      var k := other.pending.value.state.nonce - 1;
      assert At(origin, log + [e], k) == At(origin, log, k);
    }
  }

  lemma GrowLog(origin: State, log: seq<Entry>, e: Entry)
    requires ValidLog(origin, log)
    requires e.state.nonce == |log| + 1
    requires Apply(At(origin, log, |log|), e.tr, e.byA) == Ok(e.state)
    ensures ValidLog(origin, log + [e])
  {
    hide Apply;
    var log' := log + [e];
    forall k | 0 <= k < |log'|
      ensures log'[k].state.nonce == k + 1
      ensures Apply(At(origin, log', k), log'[k].tr, log'[k].byA) == Ok(log'[k].state)
    {
      assert At(origin, log', k) == At(origin, log, k);
    }
  }

  /** Acting on the peer's counter-signature keeps the invariant. */
  lemma AcceptInv(origin: State, log: seq<Entry>, n: Node, other: Node, isA: bool, intent: Term)
    requires PairInv(origin, log, n, other, isA)
    ensures PairInv(origin, log, HandleAccept(n, intent, other.latest).0, other, isA)
  {
  }

  /** So does dropping a proposal the peer has not applied. */
  lemma RejectInv(origin: State, log: seq<Entry>, n: Node, other: Node, isA: bool, intent: Term)
    requires PairInv(origin, log, n, other, isA)
    requires intent !in other.applied
    ensures PairInv(origin, log, HandleReject(n, intent), other, isA)
  {
    var n' := HandleReject(n, intent);
    assert NodeInv(origin, log, n', other, isA);
    assert NodeInv(origin, log, other, n', !isA);
  }

  /** So does adopting the peer's state: between honest nodes it never conflicts. */
  lemma ResponseInv(origin: State, log: seq<Entry>, n: Node, other: Node, isA: bool)
    requires PairInv(origin, log, n, other, isA)
    ensures PairInv(origin, log, HandleResponse(n, other.latest), other, isA)
  {
    var n' := HandleResponse(n, other.latest);
    assert NodeInv(origin, log, n', other, isA);
    assert NodeInv(origin, log, other, n', !isA);
  }

  // ---- whole steps and runs ------------------------------------------------------------

  /** The co-signed history after a step. */
  ghost function StepLog(w: World, s: Step): seq<Entry> {
    match s
    case PayStep(isA, intent, t, d, mine, theirs) =>
      var n := NodeOf(w.link, isA);
      var proposed := Propose(n, isA, intent, t, mine);
      if n.conflict || intent in n.applied || proposed.Err? || d == RequestLost then w.log
      else
        var p := proposed.value.pending.value;
        Extended(w.log, p, isA, HandlePropose(NodeOf(w.link, !isA), !isA, p, theirs).0)
    case RecoverStep(_) => w.log
    case LateStep(isA, theirs) =>
      var n := NodeOf(w.link, isA);
      if n.pending.None? then w.log
      else Extended(w.log, n.pending.value, isA, HandlePropose(NodeOf(w.link, !isA), !isA, n.pending.value, theirs).0)
  }

  ghost function StepWorld(w: World, s: Step): World {
    World(StepLink(w.link, s), StepLog(w, s))
  }

  ghost function RunWorld(w: World, steps: seq<Step>): World {
    if steps == [] then w else StepWorld(RunWorld(w, steps[..|steps| - 1]), steps[|steps| - 1])
  }

  /** The history is only watched: dropping it gives the run of the two records. */
  lemma {:induction false} RunWorldIsRun(w: World, steps: seq<Step>)
    ensures RunWorld(w, steps).link == Run(w.link, steps)
  {
    if steps != [] {
      RunWorldIsRun(w, steps[..|steps| - 1]);
    }
  }

  /** Seen from either party, the invariant is the same one. */
  lemma InvFrom(origin: State, w: World, isA: bool)
    ensures Inv(origin, w) <==> PairInv(origin, w.log, NodeOf(w.link, isA), NodeOf(w.link, !isA), isA)
  {
  }

  lemma NoConflict(origin: State, log: seq<Entry>, n: Node, other: Node, isA: bool)
    requires PairInv(origin, log, n, other, isA)
    ensures !n.conflict && !other.conflict
  {
    hide Apply;
  }

  lemma PayInv(origin: State, w: World, s: Step)
    requires Inv(origin, w) && s.PayStep?
    ensures Inv(origin, StepWorld(w, s))
  {
    hide Apply, PairInv, Propose, HandlePropose, HandleAccept, HandleReject, HandleResponse;
    var PayStep(isA, intent, t, d, mine, theirs) := s;
    var n, other := NodeOf(w.link, isA), NodeOf(w.link, !isA);
    InvFrom(origin, w, isA);
    InvFrom(origin, StepWorld(w, s), isA);
    var proposed := Propose(n, isA, intent, t, mine);
    if !n.conflict && intent !in n.applied && proposed.Ok? {
      ProposeInv(origin, w.log, n, other, isA, intent, t, mine);
      ProposePending(n, isA, intent, t, mine);
      var n1 := proposed.value;
      if d != RequestLost {
        HandledInv(origin, w.log, n1, other, isA, theirs);
        var (peer, reply) := HandlePropose(other, !isA, n1.pending.value, theirs);
        var log1 := Extended(w.log, n1.pending.value, isA, peer);
        NoConflict(origin, w.log, n, other, isA);
        HandleReply(other, !isA, n1.pending.value, theirs);
        if d == Answered {
          AcceptInv(origin, log1, n1, peer, isA, intent);
          if intent !in peer.applied { RejectInv(origin, log1, n1, peer, isA, intent); }
          ResponseInv(origin, log1, n1, peer, isA);
        }
      }
    }
  }

  lemma ProposePending(n: Node, isA: bool, intent: Term, t: Transition, c: Clock)
    requires Propose(n, isA, intent, t, c).Ok?
    ensures Propose(n, isA, intent, t, c).value.pending.Some?
    ensures Propose(n, isA, intent, t, c).value.pending.value.intent == intent
    ensures n.pending.None? ==> Propose(n, isA, intent, t, c).value.pending.value.tr == t
    ensures n.pending.Some? ==> Propose(n, isA, intent, t, c).value == n
    ensures Propose(n, isA, intent, t, c).value.applied == n.applied
    ensures Propose(n, isA, intent, t, c).value.latest == n.latest
  {
    hide Apply;
  }

  /** What a reply says about the node that sent it. */
  lemma HandleReply(n: Node, isA: bool, p: Proposal, c: Clock)
    requires !n.conflict
    ensures var (n', reply) := HandlePropose(n, isA, p, c);
            && (reply.Accepted? ==> reply.state == n'.latest && p.intent in n'.applied)
            && (reply.Rejected? ==> n' == n && p.intent !in n.applied)
            && (reply.Current? ==> reply.state == n'.latest && n' == n)
  {
    hide Apply;
  }

  /** One step of any kind, by either party, with any clocks and any loss. */
  lemma StepInv(origin: State, w: World, s: Step)
    requires Inv(origin, w)
    ensures Inv(origin, StepWorld(w, s))
  {
    if s.PayStep? {
      PayInv(origin, w, s);
    } else {
      hide Apply, PairInv, HandlePropose, HandleResponse;
      var n, other := NodeOf(w.link, s.isA), NodeOf(w.link, !s.isA);
      InvFrom(origin, w, s.isA);
      InvFrom(origin, StepWorld(w, s), s.isA);
      if n.pending.Some? {
        if s.LateStep? { HandledInv(origin, w.log, n, other, s.isA, s.theirs); }
        ResponseInv(origin, w.log, n, other, s.isA);
      }
    }
  }

  lemma {:induction false} RunInv(origin: State, steps: seq<Step>)
    requires origin.nonce == 0
    ensures Inv(origin, RunWorld(World(Open(origin), []), steps))
  {
    if steps == [] {
      OpenInv(origin);
    } else {
      RunInv(origin, steps[..|steps| - 1]);
      StepInv(origin, RunWorld(World(Open(origin), []), steps[..|steps| - 1]), steps[|steps| - 1]);
    }
  }

  lemma LogStep(origin: State, log: seq<Entry>, k: nat)
    requires ValidLog(origin, log) && k < |log|
    ensures Apply(At(origin, log, k), log[k].tr, log[k].byA) == Ok(At(origin, log, k + 1))
  {
    hide Apply;
  }

  lemma FreshWellFormed(origin: State)
    requires Fresh(origin)
    ensures WellFormed(origin, origin.balanceA + origin.balanceB)
  {
    hide Apply;
  }

  lemma {:induction false} LogWellFormed(origin: State, log: seq<Entry>, k: nat)
    requires Fresh(origin) && ValidLog(origin, log) && k <= |log|
    ensures WellFormed(At(origin, log, k), origin.balanceA + origin.balanceB)
  {
    hide Apply, WellFormed, ValidLog;
    if k == 0 {
      FreshWellFormed(origin);
    } else {
      LogWellFormed(origin, log, k - 1);
      LogStep(origin, log, k - 1);
      ApplyKeepsWellFormed(At(origin, log, k - 1), log[k - 1].tr, log[k - 1].byA, origin.balanceA + origin.balanceB);
    }
  }

  /** One node's record against the other's, read off the invariant. */
  ghost predicate Follows(n: Node, other: Node, isA: bool) {
    && !n.conflict
    && (n.latest.nonce == other.latest.nonce ==> n.latest == other.latest)
    && (n.latest.nonce < other.latest.nonce ==>
          && n.pending.Some?
          && Apply(n.latest, n.pending.value.tr, isA) == Ok(other.latest)
          && n.pending.value.intent in other.applied)
  }

  lemma InvFollows(origin: State, log: seq<Entry>, n: Node, other: Node, isA: bool)
    requires PairInv(origin, log, n, other, isA)
    ensures Follows(n, other, isA)
  {
    hide Apply;
  }

  /** In every run of two honest nodes over one channel, whatever is lost, late or
      interrupted: no conflict arises, both records conserve the deposits, and they
      are the same state, or one is ahead of the other by exactly the transition the
      other has signed and is still waiting to hear about. */
  lemma HonestNodesAgree(origin: State, steps: seq<Step>)
    requires Fresh(origin)
    ensures var l := Run(Open(origin), steps);
            && Follows(l.a, l.b, true)
            && Follows(l.b, l.a, false)
            && WellFormed(l.a.latest, origin.balanceA + origin.balanceB)
            && WellFormed(l.b.latest, origin.balanceA + origin.balanceB)
  {
    hide Apply, WellFormed, Follows;
    var w := World(Open(origin), []);
    RunWorldIsRun(w, steps);
    RunInv(origin, steps);
    var w' := RunWorld(w, steps);
    InvFollows(origin, w'.log, w'.link.a, w'.link.b, true);
    InvFollows(origin, w'.log, w'.link.b, w'.link.a, false);
    LogWellFormed(origin, w'.log, w'.link.a.latest.nonce);
    LogWellFormed(origin, w'.log, w'.link.b.latest.nonce);
  }

  /** In every run no co-signed state leaves a party that did not propose it with less than
      it had. */
  lemma NobodyPaysUnasked(origin: State, steps: seq<Step>, k: nat)
    requires Fresh(origin) && k < |RunWorld(World(Open(origin), []), steps).log|
    ensures var log := RunWorld(World(Open(origin), []), steps).log;
            var s, s' := At(origin, log, k), At(origin, log, k + 1);
            && (log[k].byA ==> s'.balanceB >= s.balanceB)
            && (!log[k].byA ==> s'.balanceA >= s.balanceA)
  {
    hide Apply, WellFormed, RunWorld, NodeInv;
    var w := RunWorld(World(Open(origin), []), steps);
    RunInv(origin, steps);
    LogWellFormed(origin, w.log, k);
    LogStep(origin, w.log, k);
    OnlyTheProposerPays(At(origin, w.log, k), w.log[k].tr, w.log[k].byA, origin.balanceA + origin.balanceB);
  }

  /** What a party puts up with one of its own proposals. */
  function Outlay(e: Entry, isA: bool): int {
    if e.byA != isA then 0
    else
      match e.tr
      case Pay(amount) => amount
      case LockAdd(_, _, amount, _) => amount
      case _ => 0
  }

  ghost function Outlays(log: seq<Entry>, isA: bool): int {
    if log == [] then 0 else Outlays(log[..|log| - 1], isA) + Outlay(log[|log| - 1], isA)
  }

  lemma OutlayCovers(s: State, e: Entry, deposits: int)
    requires WellFormed(s, deposits) && Apply(s, e.tr, e.byA) == Ok(e.state)
    ensures e.state.balanceA >= s.balanceA - Outlay(e, true)
    ensures e.state.balanceB >= s.balanceB - Outlay(e, false)
  {
    OnlyTheProposerPays(s, e.tr, e.byA, deposits);
    match e.tr
    case Pay(amount) => ProposerPays(s, amount, e.byA);
    case LockAdd(id, hash, amount, expiry) => ProposerLocks(s, id, hash, amount, expiry, e.byA);
    case LockSettle(id, preimage) => ResolvedToItsParty(s, id, preimage, e.byA);
    case LockRefund(id) => ResolvedToItsParty(s, id, Keccak(id), e.byA);
    hide Apply;
  }

  /** So at every point of a run a party still has its deposit less what it paid or locked
      under its own proposals. */
  lemma {:induction false} SpendsOnlyItsOwn(origin: State, log: seq<Entry>, k: nat)
    requires Fresh(origin) && ValidLog(origin, log) && k <= |log|
    ensures At(origin, log, k).balanceA >= origin.balanceA - Outlays(log[..k], true)
    ensures At(origin, log, k).balanceB >= origin.balanceB - Outlays(log[..k], false)
  {
    hide Apply, WellFormed, ValidLog, Outlay;
    if k > 0 {
      SpendsOnlyItsOwn(origin, log, k - 1);
      LogWellFormed(origin, log, k - 1);
      LogStep(origin, log, k - 1);
      OutlayCovers(At(origin, log, k - 1), log[k - 1], origin.balanceA + origin.balanceB);
      assert log[..k][..k - 1] == log[..k - 1];
    }
  }

  // ---- a node that has stopped --------------------------------------------------------------

  /** A node stops on its peer's state exactly when that differs from its own at the same
      nonce; then nothing of its record changes but what it waited for, which it drops. */
  lemma StopsExactly(n: Node, theirs: State)
    requires !n.conflict
    ensures HandleResponse(n, theirs).conflict <==> theirs.nonce == n.latest.nonce && theirs != n.latest
    ensures HandleResponse(n, theirs).conflict ==>
              HandleResponse(n, theirs) == Node(n.latest, n.applied, n.signed, None, true)
    ensures theirs.nonce < n.latest.nonce || theirs == n.latest ==> HandleResponse(n, theirs) == n
    ensures theirs.nonce > n.latest.nonce ==> HandleResponse(n, theirs).latest == theirs
  {
  }

  /** A refusal drops the proposal it is about, and no other. */
  lemma RejectsItsOwn(n: Node, intent: Term)
    ensures n.pending.Some? && n.pending.value.intent == intent ==> HandleReject(n, intent) == n.(pending := None)
    ensures n.pending.None? || n.pending.value.intent != intent ==> HandleReject(n, intent) == n
  {
  }

  ghost predicate Stopped(n: Node) {
    n.conflict && n.pending.None?
  }

  /** A stopped node refuses to propose, and refuses what is proposed to it. */
  lemma StoppedRefuses(l: Link, isA: bool, x: Term, t: Transition, d: Delivery, mine: Clock, theirs: Clock)
    requires Stopped(NodeOf(l, isA))
    ensures PayOn(l, isA, x, t, d, mine, theirs) == (l, LocalRefusal(Conflicted))
    ensures Propose(NodeOf(l, isA), isA, x, t, mine) == Err(Conflicted)
    ensures forall p :: HandlePropose(NodeOf(l, isA), isA, p, theirs) == (NodeOf(l, isA), Rejected(ChannelConflicted))
    ensures var n := NodeOf(l, !isA);
            !n.conflict && x !in n.applied && Propose(n, !isA, x, t, mine).Ok? ==>
              PayOn(l, !isA, x, t, Answered, mine, theirs).1 == Refused(ChannelConflicted)
  {
    hide Apply, TimingRefusal;
  }

  lemma StoppedStep(l: Link, isA: bool, s: Step)
    requires Stopped(NodeOf(l, isA))
    ensures NodeOf(StepLink(l, s), isA) == NodeOf(l, isA)
  {
    hide Apply, TimingRefusal, Propose, HandleAccept, HandleReject, HandleResponse;
  }

  /** Whatever either party does from then on, the record of a stopped node never changes. */
  lemma {:induction false} StoppedForGood(l: Link, isA: bool, steps: seq<Step>)
    requires Stopped(NodeOf(l, isA))
    ensures NodeOf(Run(l, steps), isA) == NodeOf(l, isA)
  {
    if steps != [] {
      hide StepLink;
      StoppedForGood(l, isA, steps[..|steps| - 1]);
      StoppedStep(Run(l, steps[..|steps| - 1]), isA, steps[|steps| - 1]);
    }
  }

  /** So a node that asks its peer, which holds another state at its nonce, is finished with
      the channel: the two records stay apart whatever is tried. */
  lemma ForkEndsTheChannel(l: Link, isA: bool, steps: seq<Step>)
    requires var n, o := NodeOf(l, isA), NodeOf(l, !isA);
             !n.conflict && n.pending.Some? && n.latest.nonce == o.latest.nonce && n.latest != o.latest
    ensures var n, n' := NodeOf(l, isA), NodeOf(Run(StepLink(l, RecoverStep(isA)), steps), isA);
            Stopped(n') && n'.latest == n.latest && n'.applied == n.applied && n'.signed == n.signed
  {
    StopsExactly(NodeOf(l, isA), NodeOf(l, !isA).latest);
    StoppedForGood(StepLink(l, RecoverStep(isA)), isA, steps);
    hide HandleResponse, Run;
  }
}
