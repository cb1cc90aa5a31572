/** How a single exchange moves a channel on, and when driving a payment again
    after a crash finishes it. */
module MultipathProgress {
  import opened Common
  import opened Symbols
  import opened ChannelState
  import opened Protocol
  import opened Agreement
  import opened MultipathPayment
  import opened MultipathSafety
  import opened MultipathOutcome

  // ---- the three shapes a payer-driven channel can be left in ---------------------------

  /** Both parties hold the same state and nothing is outstanding. */
  ghost predicate Clean(l: Link, isA: bool) {
    var n, o := NodeOf(l, isA), NodeOf(l, !isA);
    && !n.conflict && !o.conflict
    && n.latest == o.latest
    && n.pending.None? && o.pending.None?
    && n.signed == map[] && o.signed == map[]
  }

  /** What the payer's record looks like once it has signed `t` under `x`. */
  ghost predicate Signed(n: Node, isA: bool, x: Term, t: Transition) {
    && Apply(n.latest, t, isA).Ok?
    && n.pending.Some? && n.pending.value.intent == x
    && n.pending.value.state == Apply(n.latest, t, isA).value
    && Apply(n.latest, n.pending.value.tr, isA) == Apply(n.latest, t, isA)
    && (n.pending.value.tr == t || (t.LockSettle? && n.pending.value.tr.LockSettle? && n.pending.value.tr.id == t.id))
    && n.signed == map[n.latest.nonce + 1 := n.pending.value.state]
  }

  /** The payer signed a proposal its peer never saw. */
  ghost predicate Outstanding(l: Link, isA: bool, x: Term, t: Transition) {
    var n, o := NodeOf(l, isA), NodeOf(l, !isA);
    && !n.conflict && !o.conflict
    && n.latest == o.latest && Signed(n, isA, x, t)
    && o.pending.None? && o.signed == map[]
    && x !in o.applied
  }

  /** The peer co-signed, but the payer has not heard. */
  ghost predicate Unheard(l: Link, isA: bool, x: Term, t: Transition) {
    var n, o := NodeOf(l, isA), NodeOf(l, !isA);
    && !n.conflict && !o.conflict
    && Signed(n, isA, x, t)
    && o.latest == n.pending.value.state
    && o.pending.None? && o.signed == map[]
    && x in o.applied && o.applied[x] == o.latest.nonce
  }

  /** Nothing is outstanding. The payer has signed nothing beyond the shared state, except
      that it may have signed this very transition before and been refused. */
  ghost predicate Idle(l: Link, isA: bool, x: Term, t: Transition) {
    var n, o := NodeOf(l, isA), NodeOf(l, !isA);
    && !n.conflict && !o.conflict
    && n.latest == o.latest && Apply(n.latest, t, isA).Ok?
    && n.pending.None? && o.pending.None?
    && (n.signed == map[] || n.signed == map[n.latest.nonce + 1 := Apply(n.latest, t, isA).value])
    && o.signed == map[] && x !in o.applied
  }

  ghost predicate InExchange(l: Link, isA: bool, x: Term, t: Transition) {
    Idle(l, isA, x, t) || Outstanding(l, isA, x, t) || Unheard(l, isA, x, t)
  }

  /** The payer's own clock lets the proposal go out; one already signed goes out again. */
  predicate Sendable(n: Node, t: Transition, mine: Clock) {
    n.pending.Some? || (t.LockSettle? ==> TimingRefusal(n.latest, t, mine).None?)
  }

  /** The peer's clock lets it sign; what it has signed already it only repeats. */
  predicate Welcome(o: Node, s: State, x: Term, t: Transition, theirs: Clock) {
    x in o.applied || TimingRefusal(s, t, theirs).None?
  }

  /** One more attempt never loses ground. It completes the transition for both parties
      exactly when it is answered and the clocks that are still asked allow it; otherwise
      the channel stays in the same exchange, whatever was lost or refused. */
  lemma ExchangeMoves(l: Link, isA: bool, x: Term, t: Transition, d: Delivery, mine: Clock, theirs: Clock)
    requires InExchange(l, isA, x, t)
    requires x !in NodeOf(l, isA).applied
    ensures var n, o, next := NodeOf(l, isA), NodeOf(l, !isA), Apply(NodeOf(l, isA).latest, t, isA).value;
            var (l', r) := PayOn(l, isA, x, t, d, mine, theirs);
            var n', o' := NodeOf(l', isA), NodeOf(l', !isA);
            var sent, welcome := Sendable(n, t, mine), Welcome(o, n.latest, x, t, theirs);
            && (r == Done <==> d == Answered && sent && welcome)
            && (r == Done ==> Clean(l', isA) && n'.latest == next
                              && n'.applied == n.applied[x := next.nonce]
                              && o'.applied == o.applied[x := next.nonce])
            && (r != Done ==> InExchange(l', isA, x, t) && n'.latest == n.latest && n'.applied == n.applied
                              && (o'.applied == o.applied || o'.applied == o.applied[x := next.nonce]))
            && (!sent ==> l' == l && r == LocalRefusal(TooLate))
            && (sent && d != Answered ==> r == NoAnswer && n'.pending.Some?)
            && (sent && d == Answered && !welcome ==> r.Refused? && n'.pending.None? && n'.signed != map[])
  {
    ExchangeApplies(l, isA, x, t);
    hide Apply, Propose, HandlePropose, HandleAccept, TimingRefusal, PayOn, InExchange, Clean, Sendable, Welcome;
    var n, o := NodeOf(l, isA), NodeOf(l, !isA);
    var next := Apply(n.latest, t, isA).value;
    if !Sendable(n, t, mine) {
      NotSent(l, isA, x, t, d, mine, theirs);
    } else {
      ExchangeResult(l, isA, x, t, d, mine, theirs);
      var n1 := Propose(n, isA, x, t, mine).value;
      var o1 := o.(latest := next, applied := o.applied[x := next.nonce]);
      StillOutstanding(l, isA, x, t, n1);
      NowUnheard(l, isA, x, t, n1, o1);
      NowDone(l, isA, x, t, n1, o1);
      if !Welcome(o, n.latest, x, t, theirs) {
        NotWelcome(o, n.latest, x, t, theirs);
        NowRefused(l, isA, x, t, n1);
      }
    }
  }

  lemma ExchangeApplies(l: Link, isA: bool, x: Term, t: Transition)
    requires InExchange(l, isA, x, t)
    ensures Apply(NodeOf(l, isA).latest, t, isA).Ok?
  {
    hide Apply;
  }

  lemma NotWelcome(o: Node, s: State, x: Term, t: Transition, theirs: Clock)
    requires !Welcome(o, s, x, t, theirs)
    ensures x !in o.applied
  {
    hide TimingRefusal;
  }

  lemma StillOutstanding(l: Link, isA: bool, x: Term, t: Transition, n1: Node)
    requires InExchange(l, isA, x, t) && Signed(n1, isA, x, t)
    requires n1 == NodeOf(l, isA).(pending := n1.pending, signed := n1.signed)
    ensures InExchange(WithNode(l, isA, n1), isA, x, t)
  {
    ExchangePeer(l, isA, x, t);
    hide Apply;
  }

  lemma NowRefused(l: Link, isA: bool, x: Term, t: Transition, n1: Node)
    requires InExchange(l, isA, x, t) && Signed(n1, isA, x, t) && x !in NodeOf(l, !isA).applied
    requires n1 == NodeOf(l, isA).(pending := n1.pending, signed := n1.signed)
    ensures InExchange(WithNode(l, isA, n1.(pending := None)), isA, x, t) && n1.signed != map[]
  {
    ExchangePeer(l, isA, x, t);
    hide Apply;
    assert n1.latest.nonce + 1 in n1.signed;
  }

  lemma NowUnheard(l: Link, isA: bool, x: Term, t: Transition, n1: Node, o1: Node)
    requires InExchange(l, isA, x, t) && Signed(n1, isA, x, t)
    requires n1 == NodeOf(l, isA).(pending := n1.pending, signed := n1.signed)
    requires var next := Apply(NodeOf(l, isA).latest, t, isA).value;
             o1 == NodeOf(l, !isA).(latest := next, applied := NodeOf(l, !isA).applied[x := next.nonce])
    ensures InExchange(WithNode(WithNode(l, isA, n1), !isA, o1), isA, x, t)
  {
    ExchangePeer(l, isA, x, t);
    hide Apply;
  }

  lemma NowDone(l: Link, isA: bool, x: Term, t: Transition, n1: Node, o1: Node)
    requires InExchange(l, isA, x, t) && Signed(n1, isA, x, t)
    requires n1 == NodeOf(l, isA).(pending := n1.pending, signed := n1.signed)
    requires var next := Apply(NodeOf(l, isA).latest, t, isA).value;
             o1 == NodeOf(l, !isA).(latest := next, applied := NodeOf(l, !isA).applied[x := next.nonce])
    ensures var l' := WithNode(WithNode(l, !isA, o1), isA, HandleAccept(n1, x, o1.latest).0);
            && Clean(l', isA) && NodeOf(l', isA).latest == o1.latest
            && NodeOf(l', isA).applied == n1.applied[x := o1.latest.nonce]
  {
    ExchangePeer(l, isA, x, t);
    PayerHears(n1, isA, x, t);
    hide Apply, HandleAccept;
  }

  /** The link and the result of an attempt that was sent, by how far it got. */
  lemma ExchangeResult(l: Link, isA: bool, x: Term, t: Transition, d: Delivery, mine: Clock, theirs: Clock)
    requires InExchange(l, isA, x, t) && x !in NodeOf(l, isA).applied && Sendable(NodeOf(l, isA), t, mine)
    ensures var n, o, next := NodeOf(l, isA), NodeOf(l, !isA), Apply(NodeOf(l, isA).latest, t, isA).value;
            var r := Propose(n, isA, x, t, mine);
            var o1 := o.(latest := next, applied := o.applied[x := next.nonce]);
            && r.Ok? && Signed(r.value, isA, x, t)
            && r.value == n.(pending := r.value.pending, signed := r.value.signed)
            && (d == RequestLost ==> PayOn(l, isA, x, t, d, mine, theirs) == (WithNode(l, isA, r.value), NoAnswer))
            && (Welcome(o, n.latest, x, t, theirs) && d == ReplyLost ==>
                  PayOn(l, isA, x, t, d, mine, theirs) == (WithNode(WithNode(l, isA, r.value), !isA, o1), NoAnswer))
            && (Welcome(o, n.latest, x, t, theirs) && d == Answered ==>
                  PayOn(l, isA, x, t, d, mine, theirs)
                  == (WithNode(WithNode(l, !isA, o1), isA, HandleAccept(r.value, x, next).0), Done))
            && (!Welcome(o, n.latest, x, t, theirs) && d == ReplyLost ==>
                  PayOn(l, isA, x, t, d, mine, theirs) == (WithNode(l, isA, r.value), NoAnswer))
            && (!Welcome(o, n.latest, x, t, theirs) && d == Answered ==>
                  PayOn(l, isA, x, t, d, mine, theirs)
                  == (WithNode(l, isA, r.value.(pending := None)), Refused(TimingRefusal(n.latest, t, theirs).value)))
  {
    ExchangeApplies(l, isA, x, t);
    var n, o := NodeOf(l, isA), NodeOf(l, !isA);
    var next := Apply(n.latest, t, isA).value;
    ApplyNonce(n.latest, t, isA);
    ExchangePeer(l, isA, x, t);
    ReadyToSign(l, isA, x, t);
    SignedAgain(n, isA, x, t, mine);
    hide Apply, Propose, HandlePropose, HandleAccept, HandleReject, TimingRefusal, InExchange, HandleResponse, PayOn, Signed;
    var n1 := Propose(n, isA, x, t, mine).value;
    PayerHears(n1, isA, x, t);
    SignedParts(n1, isA, x, t);
    PayUnfolds(l, isA, x, t, d, mine, theirs, n1);
    if Welcome(o, n.latest, x, t, theirs) {
      PeerSigns(o, !isA, n1.pending.value, theirs, n.latest, t, next);
    } else {
      PeerRefuses(o, !isA, n1.pending.value, theirs, n.latest, t, next);
      PayerDrops(n1, x);
    }
  }

  lemma SignedParts(n: Node, isA: bool, x: Term, t: Transition)
    requires Signed(n, isA, x, t)
    ensures n.pending.Some? && Apply(n.latest, t, isA).Ok?
    ensures var p, next := n.pending.value, Apply(n.latest, t, isA).value;
            && p.intent == x && p.state == next && Apply(n.latest, p.tr, isA) == Ok(next)
            && (p.tr == t || (t.LockSettle? && p.tr.LockSettle? && p.tr.id == t.id))
  {
    hide Apply;
  }

  lemma PayerDrops(n: Node, x: Term)
    requires n.pending.Some? && n.pending.value.intent == x
    ensures HandleReject(n, x) == n.(pending := None)
  {
  }

  /** An attempt, by how far it gets and what the peer replies. */
  lemma PayUnfolds(l: Link, isA: bool, x: Term, t: Transition, d: Delivery, mine: Clock, theirs: Clock, n1: Node)
    requires !NodeOf(l, isA).conflict && x !in NodeOf(l, isA).applied
    requires Propose(NodeOf(l, isA), isA, x, t, mine) == Ok(n1) && n1.pending.Some?
    ensures var (o1, reply) := HandlePropose(NodeOf(l, !isA), !isA, n1.pending.value, theirs);
            var r := PayOn(l, isA, x, t, d, mine, theirs);
            && (d == RequestLost ==> r == (WithNode(l, isA, n1), NoAnswer))
            && (d == ReplyLost ==> r == (WithNode(WithNode(l, isA, n1), !isA, o1), NoAnswer))
            && (d == Answered && reply.Accepted? ==>
                  r == (WithNode(WithNode(l, !isA, o1), isA, HandleAccept(n1, x, reply.state).0),
                        if HandleAccept(n1, x, reply.state).1 then Done else BadAnswer))
            && (d == Answered && reply.Rejected? ==>
                  r == (WithNode(WithNode(l, !isA, o1), isA, HandleReject(n1, x)), Refused(reply.code)))
  {
    hide Apply, Propose, HandlePropose, HandleAccept, HandleReject, HandleResponse, TimingRefusal;
  }

  lemma ReadyToSign(l: Link, isA: bool, x: Term, t: Transition)
    requires InExchange(l, isA, x, t)
    ensures var n := NodeOf(l, isA);
            && Apply(n.latest, t, isA).Ok?
            && (Signed(n, isA, x, t)
                || (n.pending.None?
                    && (n.signed == map[] || n.signed == map[n.latest.nonce + 1 := Apply(n.latest, t, isA).value])))
  {
    hide Apply;
  }

  lemma NotSent(l: Link, isA: bool, x: Term, t: Transition, d: Delivery, mine: Clock, theirs: Clock)
    requires InExchange(l, isA, x, t) && x !in NodeOf(l, isA).applied && !Sendable(NodeOf(l, isA), t, mine)
    ensures PayOn(l, isA, x, t, d, mine, theirs) == (l, LocalRefusal(TooLate))
  {
    hide Apply, TimingRefusal, HandlePropose, HandleAccept, HandleResponse;
  }

  /** The peer's record at any point of an exchange. */
  lemma ExchangePeer(l: Link, isA: bool, x: Term, t: Transition)
    requires InExchange(l, isA, x, t)
    ensures var n, o, next := NodeOf(l, isA), NodeOf(l, !isA), Apply(NodeOf(l, isA).latest, t, isA).value;
            && !n.conflict && !o.conflict && o.pending.None? && o.signed == map[]
            && ((o.latest == n.latest && x !in o.applied)
                || (o.latest == next && x in o.applied && o.applied[x] == next.nonce && Signed(n, isA, x, t)))
  {
    hide Apply;
  }

  lemma PayerHears(n: Node, isA: bool, x: Term, t: Transition)
    requires Signed(n, isA, x, t)
    ensures var next := Apply(n.latest, t, isA).value;
            HandleAccept(n, x, next)
            == (n.(latest := next, applied := n.applied[x := next.nonce], signed := map[], pending := None), true)
  {
    ApplyNonce(n.latest, t, isA);
    hide Apply;
    assert Prune(n.signed, n.latest.nonce + 1) == map[];
  }

  lemma SignedAgain(n: Node, isA: bool, x: Term, t: Transition, mine: Clock)
    requires !n.conflict && Apply(n.latest, t, isA).Ok? && Sendable(n, t, mine)
    requires (n.pending.None?
              && (n.signed == map[] || n.signed == map[n.latest.nonce + 1 := Apply(n.latest, t, isA).value]))
             || Signed(n, isA, x, t)
    ensures var r := Propose(n, isA, x, t, mine);
            r.Ok? && Signed(r.value, isA, x, t) && r.value == n.(pending := r.value.pending, signed := r.value.signed)
  {
    ApplyNonce(n.latest, t, isA);
    hide Apply, TimingRefusal;
    if n.pending.None? {
      var next := Apply(n.latest, t, isA).value;
      assert n.signed[next.nonce := next] == map[next.nonce := next];
      assert Prune(map[next.nonce := next], n.latest.nonce) == map[next.nonce := next];
    }
  }

  /** A proposal that comes too early or too late leaves the peer as it was. */
  lemma PeerRefuses(o: Node, isA: bool, p: Proposal, theirs: Clock, base: State, t: Transition, next: State)
    requires !o.conflict && o.latest == base && p.intent !in o.applied
    requires p.state == next && Apply(base, p.tr, !isA) == Ok(next)
    requires p.tr == t || (t.LockSettle? && p.tr.LockSettle? && p.tr.id == t.id)
    requires TimingRefusal(base, t, theirs).Some?
    ensures HandlePropose(o, isA, p, theirs) == (o, Rejected(TimingRefusal(base, t, theirs).value))
  {
    hide Apply;
  }

  lemma PeerSigns(o: Node, isA: bool, p: Proposal, theirs: Clock, base: State, t: Transition, next: State)
    requires !o.conflict && o.pending.None? && o.signed == map[]
    requires p.state == next && Apply(base, p.tr, !isA) == Ok(next) && next.nonce == base.nonce + 1
    requires p.tr == t || (t.LockSettle? && p.tr.LockSettle? && p.tr.id == t.id)
    requires (o.latest == base && p.intent !in o.applied && TimingRefusal(base, t, theirs).None?)
             || (o.latest == next && p.intent in o.applied && o.applied[p.intent] == next.nonce)
    ensures HandlePropose(o, isA, p, theirs)
            == (o.(latest := next, applied := o.applied[p.intent := next.nonce]), Accepted(next))
  {
    hide Apply;
    assert Prune(o.signed, next.nonce) == map[];
    if o.latest == next {
      assert o.applied[p.intent := next.nonce] == o.applied;
    }
  }

  // ---- one fragment's attempts -----------------------------------------------------------

  /** A channel as the payer's coordinator sees it, with the peer it belongs to. */
  datatype Member = Member(ownIsA: bool, link: Link)

  /** Whether a peer can be found for a channel, and how far the exchange with it gets. */
  datatype Net = NoPeer | Reach(delivery: Delivery, mine: Clock, theirs: Clock)

  function LockTr(leg: Leg): Transition {
    LockAdd(leg.lockId, leg.hash, leg.amount, leg.expiry)
  }

  function SettleTr(leg: Leg, secret: Term): Transition {
    LockSettle(leg.lockId, FragmentPreimage(secret, leg.intent))
  }

  function PayVia(m: Member, intent: Term, t: Transition, net: Net): (Member, Option<PayResult>) {
    if net.NoPeer? then (m, None)
    else
      var (l, r) := PayOn(m.link, m.ownIsA, intent, t, net.delivery, net.mine, net.theirs);
      (m.(link := l), Some(r))
  }

  function PayerRecord(m: Member): Node {
    NodeOf(m.link, m.ownIsA)
  }

  function LockLeg(m: Member, leg: Leg, net: Net): (Member, Option<PayResult>) {
    PayVia(m, leg.intent, LockTr(leg), net)
  }

  /** Settling and refunding first ask the channel whether there is anything left to resolve. */
  function SettleLeg(m: Member, leg: Leg, secret: Term, net: Net): (Member, Option<PayResult>) {
    var st := StatusOf(PayerRecord(m), leg);
    if !st.locked || Terminal(st) then (m, Some(Done))
    else PayVia(m, SettleIntent(leg.intent), SettleTr(leg, secret), net)
  }

  function RefundLeg(m: Member, leg: Leg, net: Net): (Member, Option<PayResult>) {
    var st := StatusOf(PayerRecord(m), leg);
    if !st.locked || Terminal(st) then (m, Some(Done))
    else PayVia(m, RefundIntent(leg.intent), LockRefund(leg.lockId), net)
  }

  ghost predicate Expired(leg: Leg, net: Net) {
    net.Reach? ==> leg.expiry <= net.theirs.now - net.theirs.skew
  }

  predicate Answers(net: Net) {
    net.Reach? && net.delivery == Answered
  }

  // ---- where a fragment can be after any interrupted attempt to drive it forward ----------------

  ghost predicate Unresolved(m: Member, leg: Leg) {
    var n, o := PayerRecord(m), NodeOf(m.link, !m.ownIsA);
    && SettleIntent(leg.intent) !in n.applied && RefundIntent(leg.intent) !in n.applied
    && RefundIntent(leg.intent) !in o.applied
  }

  /** Not yet locked, but nothing stands in the way of locking it. */
  ghost predicate Locking(m: Member, leg: Leg) {
    && Unresolved(m, leg)
    && leg.intent !in PayerRecord(m).applied
    && SettleIntent(leg.intent) !in NodeOf(m.link, !m.ownIsA).applied
    && leg.lockId !in PayerRecord(m).latest.pending
    && leg.amount > 0 && leg.expiry > 0
    && BalanceOf(PayerRecord(m).latest, m.ownIsA) >= leg.amount
    && InExchange(m.link, m.ownIsA, leg.intent, LockTr(leg))
  }

  /** Locked, with at most its own settlement under way. */
  ghost predicate Holding(m: Member, leg: Leg, secret: Term) {
    && Unresolved(m, leg)
    && leg.intent in PayerRecord(m).applied
    && leg.lockId in PayerRecord(m).latest.pending
    && PayerRecord(m).latest.pending[leg.lockId] == Lock(leg.hash, leg.amount, leg.expiry, m.ownIsA)
    && InExchange(m.link, m.ownIsA, SettleIntent(leg.intent), SettleTr(leg, secret))
  }

  ghost predicate SettledLeg(m: Member, leg: Leg) {
    && leg.intent in PayerRecord(m).applied
    && SettleIntent(leg.intent) in PayerRecord(m).applied
    && RefundIntent(leg.intent) !in PayerRecord(m).applied
    && Clean(m.link, m.ownIsA)
  }

  ghost predicate Drivable(m: Member, leg: Leg, secret: Term) {
    Locking(m, leg) || Holding(m, leg, secret) || SettledLeg(m, leg)
  }

  ghost predicate GoodLeg(leg: Leg, secret: Term) {
    && leg.hash == FragmentHash(secret, leg.intent)
    && leg.intent != SettleIntent(leg.intent) && leg.intent != RefundIntent(leg.intent)
    && SettleIntent(leg.intent) != RefundIntent(leg.intent)
  }

  /** An attempt to lock gets through: the peer answers, and it has signed the lock before
      or still has time to watch it. */
  predicate CanPlace(m: Member, leg: Leg, net: Net) {
    && Answers(net)
    && (leg.intent in NodeOf(m.link, !m.ownIsA).applied || leg.expiry >= net.theirs.now + net.theirs.minLockWindow)
  }

  /** An attempt to settle gets through: the peer answers, and whoever has not signed the
      settlement yet has the expiry far enough ahead. */
  predicate CanSettle(m: Member, leg: Leg, net: Net) {
    && Answers(net)
    && (PayerRecord(m).pending.Some? || !SettleTooLate(leg.expiry, net.mine))
    && (SettleIntent(leg.intent) in NodeOf(m.link, !m.ownIsA).applied || !SettleTooLate(leg.expiry, net.theirs))
  }

  lemma LockingMoves(m: Member, leg: Leg, secret: Term, net: Net)
    requires Locking(m, leg) && GoodLeg(leg, secret)
    ensures var (m', r) := LockLeg(m, leg, net);
            && (CanPlace(m, leg, net) ==> Holding(m', leg, secret) && Clean(m'.link, m.ownIsA) && r == Some(Done)
                                          && SettleIntent(leg.intent) !in NodeOf(m'.link, !m.ownIsA).applied)
            && (!CanPlace(m, leg, net) ==> Locking(m', leg) && r != Some(Done))
    ensures SettleLeg(m, leg, secret, net).0 == m
  {
    hide SettleIntent, RefundIntent, FragmentPreimage, PayOn, InExchange, Clean;
    if net.Reach? {
      ExchangeMoves(m.link, m.ownIsA, leg.intent, LockTr(leg), net.delivery, net.mine, net.theirs);
      var l' := PayOn(m.link, m.ownIsA, leg.intent, LockTr(leg), net.delivery, net.mine, net.theirs).0;
      if CanPlace(m, leg, net) {
        CleanCanExchange(l', m.ownIsA, SettleIntent(leg.intent), SettleTr(leg, secret));
      }
    }
  }

  lemma CleanCanExchange(l: Link, isA: bool, x: Term, t: Transition)
    requires Clean(l, isA) && Apply(NodeOf(l, isA).latest, t, isA).Ok? && x !in NodeOf(l, !isA).applied
    ensures InExchange(l, isA, x, t)
  {
    hide Apply, Outstanding, Unheard;
  }

  lemma HoldingMoves(m: Member, leg: Leg, secret: Term, net: Net)
    requires Holding(m, leg, secret) && GoodLeg(leg, secret)
    ensures LockLeg(m, leg, net).0 == m
    ensures var (m', r) := SettleLeg(m, leg, secret, net);
            && (CanSettle(m, leg, net) ==> SettledLeg(m', leg) && r == Some(Done))
            && (!CanSettle(m, leg, net) ==> Holding(m', leg, secret) && r != Some(Done))
  {
    NoConflictInExchange(m.link, m.ownIsA, SettleIntent(leg.intent), SettleTr(leg, secret));
    hide SettleIntent, RefundIntent, FragmentPreimage, PayOn, InExchange, Clean;
    if net.Reach? {
      var t := SettleTr(leg, secret);
      ExchangeMoves(m.link, m.ownIsA, SettleIntent(leg.intent), t, net.delivery, net.mine, net.theirs);
    }
    AppliedAnswers(m, leg, net);
  }

  lemma NoConflictInExchange(l: Link, isA: bool, x: Term, t: Transition)
    requires InExchange(l, isA, x, t)
    ensures !NodeOf(l, isA).conflict && !NodeOf(l, !isA).conflict
  {
    hide Apply;
  }

  /** Locking a fragment whose lock is already on record touches nothing. */
  lemma AppliedAnswers(m: Member, leg: Leg, net: Net)
    requires leg.intent in PayerRecord(m).applied && !PayerRecord(m).conflict
    ensures LockLeg(m, leg, net).0 == m
  {
    hide Propose;
  }

  lemma SettledStays(m: Member, leg: Leg, secret: Term, net: Net)
    requires SettledLeg(m, leg)
    ensures LockLeg(m, leg, net).0 == m && SettleLeg(m, leg, secret, net).0 == m && RefundLeg(m, leg, net).0 == m
  {
    hide PayOn;
    AppliedAnswers(m, leg, net);
  }

  // ---- any interrupted history, then one answered attempt -------------------------------------------

  /** Besides attempts, the payer may ask where the channel stands, and a proposal it has
      given up waiting for may still arrive. */
  datatype Attempt = TryLock(net: Net) | TrySettle(net: Net) | Ask | Arrives(theirs: Clock)

  function AttemptLeg(m: Member, leg: Leg, secret: Term, a: Attempt): Member {
    match a
    case TryLock(net) => LockLeg(m, leg, net).0
    case TrySettle(net) => SettleLeg(m, leg, secret, net).0
    case Ask => m.(link := RecoverOn(m.link, m.ownIsA))
    case Arrives(theirs) => m.(link := LateOn(m.link, m.ownIsA, theirs))
  }

  /** Asking completes an exchange the peer has completed, and changes nothing otherwise. */
  lemma ExchangeAsks(l: Link, isA: bool, x: Term, t: Transition)
    requires InExchange(l, isA, x, t) && x !in NodeOf(l, isA).applied
    ensures var n, l' := NodeOf(l, isA), RecoverOn(l, isA);
            var next := Apply(n.latest, t, isA).value;
            if Unheard(l, isA, x, t)
            then Clean(l', isA) && NodeOf(l', isA).latest == next && NodeOf(l', isA).applied == n.applied[x := next.nonce]
                 && NodeOf(l', !isA) == NodeOf(l, !isA)
            else l' == l
  {
    ExchangeApplies(l, isA, x, t);
    ApplyNonce(NodeOf(l, isA).latest, t, isA);
    hide Apply;
    var next := Apply(NodeOf(l, isA).latest, t, isA).value;
    if Unheard(l, isA, x, t) {
      assert Prune(NodeOf(l, isA).signed, next.nonce) == map[];
    }
  }

  /** A proposal that arrives late leaves the channel in the same exchange. */
  lemma ExchangeArrives(l: Link, isA: bool, x: Term, t: Transition, theirs: Clock)
    requires InExchange(l, isA, x, t)
    ensures var l' := LateOn(l, isA, theirs);
            && InExchange(l', isA, x, t) && NodeOf(l', isA) == NodeOf(l, isA)
            && (NodeOf(l', !isA).applied == NodeOf(l, !isA).applied
                || NodeOf(l', !isA).applied.Keys == NodeOf(l, !isA).applied.Keys + {x})
  {
    var n, o := NodeOf(l, isA), NodeOf(l, !isA);
    if n.pending.Some? {
      PendingIsSigned(l, isA, x, t);
      ExchangeApplies(l, isA, x, t);
      ExchangePeer(l, isA, x, t);
      SignedParts(n, isA, x, t);
      ApplyNonce(n.latest, t, isA);
      var next := Apply(n.latest, t, isA).value;
      hide Apply, HandlePropose, TimingRefusal, InExchange, Signed;
      if Welcome(o, n.latest, x, t, theirs) {
        PeerSigns(o, !isA, n.pending.value, theirs, n.latest, t, next);
        NowUnheard(l, isA, x, t, n, o.(latest := next, applied := o.applied[x := next.nonce]));
      } else {
        PeerRefuses(o, !isA, n.pending.value, theirs, n.latest, t, next);
      }
    }
  }

  lemma PendingIsSigned(l: Link, isA: bool, x: Term, t: Transition)
    requires InExchange(l, isA, x, t) && NodeOf(l, isA).pending.Some?
    ensures Signed(NodeOf(l, isA), isA, x, t)
  {
    hide Apply;
  }

  /** The lock is on both records. */
  lemma LockHeard(m: Member, leg: Leg, secret: Term, m': Member)
    requires Locking(m, leg) && GoodLeg(leg, secret) && m'.ownIsA == m.ownIsA && Clean(m'.link, m.ownIsA)
    requires var n, n', next := PayerRecord(m), PayerRecord(m'), Apply(PayerRecord(m).latest, LockTr(leg), m.ownIsA);
             next.Ok? && n'.latest == next.value && n'.applied == n.applied[leg.intent := next.value.nonce]
    requires NodeOf(m'.link, !m.ownIsA).applied == NodeOf(m.link, !m.ownIsA).applied
    ensures Holding(m', leg, secret)
  {
    hide SettleIntent, RefundIntent, FragmentPreimage, InExchange;
    CleanCanExchange(m'.link, m.ownIsA, SettleIntent(leg.intent), SettleTr(leg, secret));
  }

  lemma AskMoves(m: Member, leg: Leg, secret: Term)
    requires Drivable(m, leg, secret) && GoodLeg(leg, secret)
    ensures Drivable(AttemptLeg(m, leg, secret, Ask), leg, secret)
  {
    var m' := AttemptLeg(m, leg, secret, Ask);
    if Locking(m, leg) {
      ExchangeApplies(m.link, m.ownIsA, leg.intent, LockTr(leg));
      ExchangeAsks(m.link, m.ownIsA, leg.intent, LockTr(leg));
      hide RecoverOn, Apply, Clean, Unheard, InExchange;
      if Unheard(m.link, m.ownIsA, leg.intent, LockTr(leg)) { LockHeard(m, leg, secret, m'); }
    } else if Holding(m, leg, secret) {
      ExchangeAsks(m.link, m.ownIsA, SettleIntent(leg.intent), SettleTr(leg, secret));
      hide RecoverOn, Apply, Clean, Unheard, InExchange, SettleIntent, RefundIntent, FragmentPreimage;
    } else {
      hide Apply, HandleResponse;
    }
  }

  lemma ArrivesMoves(m: Member, leg: Leg, secret: Term, theirs: Clock)
    requires Drivable(m, leg, secret) && GoodLeg(leg, secret)
    ensures Drivable(AttemptLeg(m, leg, secret, Arrives(theirs)), leg, secret)
  {
    if Locking(m, leg) {
      ExchangeArrives(m.link, m.ownIsA, leg.intent, LockTr(leg), theirs);
      hide LateOn, Apply, Clean, InExchange, SettleIntent, RefundIntent;
    } else if Holding(m, leg, secret) {
      ExchangeArrives(m.link, m.ownIsA, SettleIntent(leg.intent), SettleTr(leg, secret), theirs);
      hide LateOn, Apply, Clean, InExchange, SettleIntent, RefundIntent, FragmentPreimage;
    } else {
      hide Apply, HandlePropose;
    }
  }

  function AttemptAll(m: Member, leg: Leg, secret: Term, attempts: seq<Attempt>): Member {
    if attempts == [] then m
    else AttemptLeg(AttemptAll(m, leg, secret, attempts[..|attempts| - 1]), leg, secret, attempts[|attempts| - 1])
  }

  lemma AttemptMoves(m: Member, leg: Leg, secret: Term, a: Attempt)
    requires Drivable(m, leg, secret) && GoodLeg(leg, secret)
    ensures Drivable(AttemptLeg(m, leg, secret, a), leg, secret)
  {
    if a.Ask? {
      AskMoves(m, leg, secret);
    } else if a.Arrives? {
      ArrivesMoves(m, leg, secret, a.theirs);
    } else {
      TryMoves(m, leg, secret, a);
    }
  }

  lemma TryMoves(m: Member, leg: Leg, secret: Term, a: Attempt)
    requires Drivable(m, leg, secret) && GoodLeg(leg, secret) && (a.TryLock? || a.TrySettle?)
    ensures Drivable(AttemptLeg(m, leg, secret, a), leg, secret)
  {
    hide Locking, Holding, SettledLeg, GoodLeg, CanPlace, CanSettle;
    if Locking(m, leg) {
      LockingMoves(m, leg, secret, a.net);
    } else if Holding(m, leg, secret) {
      HoldingMoves(m, leg, secret, a.net);
    } else {
      SettledStays(m, leg, secret, a.net);
    }
  }

  /** However many attempts were made, in whatever order and at whatever time, with
      whatever losses, refusals, late arrivals or crashes inside them, a payment that could
      be driven can still be driven. */
  lemma {:induction false} AnyCrashPoint(m: Member, leg: Leg, secret: Term, attempts: seq<Attempt>)
    requires Drivable(m, leg, secret) && GoodLeg(leg, secret)
    ensures Drivable(AttemptAll(m, leg, secret, attempts), leg, secret)
  {
    hide Drivable, GoodLeg;
    if attempts != [] {
      var k := |attempts| - 1;
      AnyCrashPoint(m, leg, secret, attempts[..k]);
      AttemptMoves(AttemptAll(m, leg, secret, attempts[..k]), leg, secret, attempts[k]);
    }
  }

  /** A channel just opened with enough capacity can be driven. */
  lemma OpenDrivable(origin: State, payerIsA: bool, leg: Leg, secret: Term)
    requires origin.pending == map[] && BalanceOf(origin, payerIsA) >= leg.amount > 0 && leg.expiry > 0
    ensures Drivable(Member(payerIsA, Link(Node(origin, map[], map[], None, false), Node(origin, map[], map[], None, false))),
                     leg, secret)
  {
    hide SettleIntent, RefundIntent;
  }

  /** Neither party has recorded the end of the fragment, and both or neither its lock. */
  ghost predicate SameRecordOf(m: Member, leg: Leg) {
    var n, o := PayerRecord(m), NodeOf(m.link, !m.ownIsA);
    && Unresolved(m, leg) && SettleIntent(leg.intent) !in o.applied
    && (leg.intent in n.applied <==> leg.intent in o.applied)
  }

  /** A channel at rest, whatever traffic brought it there, can be driven exactly when the
      fragment's lock is pending on it or could be added to it. */
  lemma RestDrivable(m: Member, leg: Leg, secret: Term)
    requires Clean(m.link, m.ownIsA) && GoodLeg(leg, secret) && SameRecordOf(m, leg)
    requires leg.amount > 0 && leg.expiry > 0
    ensures var n := PayerRecord(m);
            Drivable(m, leg, secret) <==>
              if leg.intent in n.applied
              then leg.lockId in n.latest.pending
                   && n.latest.pending[leg.lockId] == Lock(leg.hash, leg.amount, leg.expiry, m.ownIsA)
              else leg.lockId !in n.latest.pending && BalanceOf(n.latest, m.ownIsA) >= leg.amount
  {
    hide SettleIntent, RefundIntent, FragmentPreimage;
  }

  /** Resuming a fragment with the secret: lock it if it is not locked, then settle. */
  function ResumeLeg(m: Member, leg: Leg, secret: Term, net: Net): Member {
    SettleLeg(LockLeg(m, leg, net).0, leg, secret, net).0
  }

  /** What one resume needs of the network and the clocks to settle a fragment: the lock's
      window only if the lock still has to be placed, and each party's skew only if that
      party still has to sign the settlement. */
  predicate Finishable(m: Member, leg: Leg, net: Net) {
    if leg.intent in PayerRecord(m).applied then CanSettle(m, leg, net)
    else CanPlace(m, leg, net) && !SettleTooLate(leg.expiry, net.mine) && !SettleTooLate(leg.expiry, net.theirs)
  }

  /** From any such point one resume settles the fragment exactly when the network and
      the clocks allow it, and otherwise it can be resumed again. Once it is settled a
      further one, whatever the network does, changes nothing. */
  lemma ResumeSettles(m: Member, leg: Leg, secret: Term, net: Net, again: Net)
    requires Drivable(m, leg, secret) && GoodLeg(leg, secret)
    ensures var m' := ResumeLeg(m, leg, secret, net);
            && Drivable(m', leg, secret)
            && (SettledLeg(m', leg) <==> SettledLeg(m, leg) || Finishable(m, leg, net))
            && (SettledLeg(m', leg) ==> ResumeLeg(m', leg, secret, again) == m')
  {
    Disjoint(m, leg, secret);
    Disjoint(ResumeLeg(m, leg, secret, net), leg, secret);
    var m1 := LockLeg(m, leg, net).0;
    SameOwner(m, leg, net);
    hide Locking, Holding, SettledLeg, GoodLeg, LockLeg, SettleLeg, Clean, SettleTooLate;
    if Locking(m, leg) {
      LockingMoves(m, leg, secret, net);
      if CanPlace(m, leg, net) {
        HoldingMoves(m1, leg, secret, net);
        JustLocked(m1, leg, net);
      } else {
        LockingMoves(m1, leg, secret, net);
      }
    } else if Holding(m, leg, secret) {
      HoldingMoves(m, leg, secret, net);
    } else {
      SettledStays(m, leg, secret, net);
    }
    if SettledLeg(ResumeLeg(m, leg, secret, net), leg) {
      SettledStays(ResumeLeg(m, leg, secret, net), leg, secret, again);
    }
  }

  lemma SameOwner(m: Member, leg: Leg, net: Net)
    ensures LockLeg(m, leg, net).0.ownIsA == m.ownIsA
  {
  }

  /** The three places a fragment can be in exclude one another. */
  lemma Disjoint(m: Member, leg: Leg, secret: Term)
    ensures Locking(m, leg) ==> leg.intent !in PayerRecord(m).applied && !SettledLeg(m, leg)
    ensures Holding(m, leg, secret) ==> leg.intent in PayerRecord(m).applied && !SettledLeg(m, leg)
    ensures Drivable(m, leg, secret) ==> (StatusOf(PayerRecord(m), leg).settled <==> SettledLeg(m, leg))
  {
    hide InExchange, SettleIntent, RefundIntent, Clean;
  }

  lemma JustLocked(m: Member, leg: Leg, net: Net)
    requires Clean(m.link, m.ownIsA) && SettleIntent(leg.intent) !in NodeOf(m.link, !m.ownIsA).applied
    ensures CanSettle(m, leg, net) <==>
              Answers(net) && !SettleTooLate(leg.expiry, net.mine) && !SettleTooLate(leg.expiry, net.theirs)
  {
    hide SettleIntent;
  }

  // ---- unwinding -------------------------------------------------------------------------------------

  /** Both parties hold the same state with the fragment's lock pending, and neither has
      recorded its refund. What each of them has signed beyond that state is free. */
  ghost predicate InStep(m: Member, leg: Leg) {
    var n, o := PayerRecord(m), NodeOf(m.link, !m.ownIsA);
    && !n.conflict && !o.conflict && n.latest == o.latest
    && leg.intent in n.applied && SettleIntent(leg.intent) !in n.applied
    && RefundIntent(leg.intent) !in n.applied && RefundIntent(leg.intent) !in o.applied
    && leg.lockId in n.latest.pending
    && n.latest.pending[leg.lockId] == Lock(leg.hash, leg.amount, leg.expiry, m.ownIsA)
    && (n.pending.Some? && n.pending.value.intent == RefundIntent(leg.intent) ==>
          n.pending.value.tr == LockRefund(leg.lockId))
  }

  /** The state the refund leads to. */
  function RefundedState(m: Member, leg: Leg): State
    requires leg.lockId in PayerRecord(m).latest.pending
  {
    Apply(PayerRecord(m).latest, LockRefund(leg.lockId), m.ownIsA).value
  }

  /** Nothing a node has signed beyond the shared state stands beside `next`. */
  predicate SignedNothingBeside(n: Node, next: State) {
    next.nonce in n.signed ==> n.signed[next.nonce] == next
  }

  /** The refund is what the payer may send: nothing is outstanding and nothing else is
      signed at that nonce, or the refund itself is outstanding. */
  predicate RefundFree(m: Member, leg: Leg)
    requires leg.lockId in PayerRecord(m).latest.pending
  {
    var n, back := PayerRecord(m), RefundedState(m, leg);
    if n.pending.None? then SignedNothingBeside(n, back)
    else n.pending.value == Proposal(RefundIntent(leg.intent), LockRefund(leg.lockId), back)
  }

  /** What a node with that record may propose as `t` under `x`: it, if nothing is outstanding
      and nothing else is signed, or it again. */
  predicate FreeFor(n: Node, x: Term, t: Transition, next: State, mine: Clock) {
    if n.pending.None? then SignedNothingBeside(n, next) && (t.LockSettle? ==> TimingRefusal(n.latest, t, mine).None?)
    else n.pending.value == Proposal(x, t, next)
  }

  lemma ProposesFree(n: Node, isA: bool, x: Term, t: Transition, mine: Clock)
    requires !n.conflict && Apply(n.latest, t, isA).Ok?
    requires n.pending.Some? && n.pending.value.intent == x ==> n.pending.value.tr == t
    ensures var next := Apply(n.latest, t, isA).value;
            var r := Propose(n, isA, x, t, mine);
            && next.nonce == n.latest.nonce + 1
            && (r.Ok? <==> if n.pending.Some? then n.pending.value.intent == x else FreeFor(n, x, t, next, mine))
            && (r.Ok? ==> r.value.latest == n.latest && r.value.applied == n.applied && !r.value.conflict
                          && r.value.pending.Some? && r.value.pending.value.intent == x && r.value.pending.value.tr == t
                          && (r.value.pending.value.state == next <==> FreeFor(n, x, t, next, mine)))
            && (n.pending.Some? && n.pending.value.intent != x ==> r == Err(OtherProposalPending))
            && (n.pending.None? && !SignedNothingBeside(n, next) && !t.LockSettle? ==> r == Err(AlreadySigned))
  {
    ApplyNonce(n.latest, t, isA);
    hide Apply, TimingRefusal;
  }

  lemma HandlesFree(o: Node, isA: bool, p: Proposal, theirs: Clock)
    requires !o.conflict && p.intent !in o.applied && Apply(o.latest, p.tr, isA).Ok?
    ensures var next := Apply(o.latest, p.tr, isA).value;
            var (o', reply) := HandlePropose(o, !isA, p, theirs);
            if p.state == next && SignedNothingBeside(o, next) && TimingRefusal(o.latest, p.tr, theirs).None?
            then reply == Accepted(next) && o'.latest == next
            else reply.Rejected? && o' == o
  {
    hide Apply, TimingRefusal;
  }

  /** On a channel in step, an answered payment goes through exactly when neither party has
      signed anything else for the next nonce and the clocks allow it. */
  lemma AnsweredExact(l: Link, isA: bool, x: Term, t: Transition, mine: Clock, theirs: Clock)
    requires !NodeOf(l, isA).conflict && !NodeOf(l, !isA).conflict && NodeOf(l, isA).latest == NodeOf(l, !isA).latest
    requires x !in NodeOf(l, isA).applied && x !in NodeOf(l, !isA).applied && Apply(NodeOf(l, isA).latest, t, isA).Ok?
    requires var n := NodeOf(l, isA); n.pending.Some? && n.pending.value.intent == x ==> n.pending.value.tr == t
    ensures var n, o := NodeOf(l, isA), NodeOf(l, !isA);
            var next := Apply(n.latest, t, isA).value;
            var (l', r) := PayOn(l, isA, x, t, Answered, mine, theirs);
            && (r == Done <==> FreeFor(n, x, t, next, mine) && SignedNothingBeside(o, next)
                               && TimingRefusal(n.latest, t, theirs).None?)
            && (r == Done ==> NodeOf(l', isA).latest == NodeOf(l', !isA).latest == next
                              && NodeOf(l', isA).applied.Keys == n.applied.Keys + {x})
            && (r != Done ==> NodeOf(l', isA).applied == n.applied)
            && (n.pending.Some? && n.pending.value.intent != x ==> l' == l && r == LocalRefusal(OtherProposalPending))
            && (n.pending.None? && !SignedNothingBeside(n, next) && !t.LockSettle? ==>
                  l' == l && r == LocalRefusal(AlreadySigned))
  {
    var n, o := NodeOf(l, isA), NodeOf(l, !isA);
    ProposesFree(n, isA, x, t, mine);
    hide Apply, TimingRefusal, Propose, HandlePropose, FreeFor, SignedNothingBeside, HandleAccept, HandleReject, HandleResponse;
    if Propose(n, isA, x, t, mine).Ok? {
      var n1 := Propose(n, isA, x, t, mine).value;
      HandlesFree(o, isA, n1.pending.value, theirs);
      ConcludesFree(n1, x, Apply(n.latest, t, isA).value);
    }
  }

  lemma ConcludesFree(n: Node, x: Term, next: State)
    requires n.pending.Some? && n.pending.value.intent == x && next.nonce > n.latest.nonce
    ensures n.pending.value.state == next ==>
              var (n', ok) := HandleAccept(n, x, next);
              ok && n'.latest == next && n'.applied.Keys == n.applied.Keys + {x}
    ensures HandleReject(n, x).applied == n.applied
  {
    hide Prune;
  }

  /** Once the lock has expired, refunding a locked fragment succeeds exactly when neither
      party has signed anything else for the next nonce. */
  lemma UnwindExact(m: Member, leg: Leg, net: Net)
    requires InStep(m, leg) && Answers(net) && Expired(leg, net)
    ensures var (m', r) := RefundLeg(m, leg, net);
            && (StatusOf(PayerRecord(m'), leg).refunded <==>
                  RefundFree(m, leg) && SignedNothingBeside(NodeOf(m.link, !m.ownIsA), RefundedState(m, leg)))
            && (StatusOf(PayerRecord(m'), leg).refunded <==> r == Some(Done))
            && (r == Some(Done) ==> PayerRecord(m').latest == NodeOf(m'.link, !m.ownIsA).latest == RefundedState(m, leg))
            && (PayerRecord(m).pending.None? && !RefundFree(m, leg) ==>
                  m' == m && r == Some(LocalRefusal(AlreadySigned)))
            && (PayerRecord(m).pending.Some? && PayerRecord(m).pending.value.intent != RefundIntent(leg.intent) ==>
                  m' == m && r == Some(LocalRefusal(OtherProposalPending)))
  {
    RefundOpen(m, leg, net);
    AnsweredExact(m.link, m.ownIsA, RefundIntent(leg.intent), LockRefund(leg.lockId), net.mine, net.theirs);
    hide SettleIntent, RefundIntent, PayOn, Apply;
  }

  lemma RefundOpen(m: Member, leg: Leg, net: Net)
    requires InStep(m, leg) && Answers(net) && Expired(leg, net)
    ensures Apply(PayerRecord(m).latest, LockRefund(leg.lockId), m.ownIsA).Ok?
    ensures TimingRefusal(PayerRecord(m).latest, LockRefund(leg.lockId), net.theirs).None?
  {
    hide SettleIntent, RefundIntent;
  }

  /** The settlement is what the payer may send, and its own clock allows it. */
  predicate SettleFree(m: Member, leg: Leg, secret: Term, mine: Clock)
    requires leg.lockId in PayerRecord(m).latest.pending && Apply(PayerRecord(m).latest, SettleTr(leg, secret), m.ownIsA).Ok?
  {
    var n, paid := PayerRecord(m), Apply(PayerRecord(m).latest, SettleTr(leg, secret), m.ownIsA).value;
    if n.pending.None? then SignedNothingBeside(n, paid) && !SettleTooLate(leg.expiry, mine)
    else n.pending.value == Proposal(SettleIntent(leg.intent), SettleTr(leg, secret), paid)
  }

  /** Settling a locked fragment succeeds, with a peer that answers, exactly when neither
      party has signed anything else for the next nonce and the expiry is far enough ahead
      of whoever still has to sign. */
  lemma SettleExact(m: Member, leg: Leg, secret: Term, net: Net)
    requires InStep(m, leg) && GoodLeg(leg, secret) && Answers(net)
    requires SettleIntent(leg.intent) !in NodeOf(m.link, !m.ownIsA).applied
    requires var n := PayerRecord(m);
             n.pending.Some? && n.pending.value.intent == SettleIntent(leg.intent) ==> n.pending.value.tr == SettleTr(leg, secret)
    ensures Apply(PayerRecord(m).latest, SettleTr(leg, secret), m.ownIsA).Ok?
    ensures var (m', r) := SettleLeg(m, leg, secret, net);
            var paid := Apply(PayerRecord(m).latest, SettleTr(leg, secret), m.ownIsA).value;
            && (StatusOf(PayerRecord(m'), leg).settled <==>
                  && SettleFree(m, leg, secret, net.mine)
                  && SignedNothingBeside(NodeOf(m.link, !m.ownIsA), paid) && !SettleTooLate(leg.expiry, net.theirs))
            && (StatusOf(PayerRecord(m'), leg).settled <==> r == Some(Done))
            && (r == Some(Done) ==> PayerRecord(m').latest == NodeOf(m'.link, !m.ownIsA).latest == paid)
  {
    SettleOpen(m, leg, secret, net);
    AnsweredExact(m.link, m.ownIsA, SettleIntent(leg.intent), SettleTr(leg, secret), net.mine, net.theirs);
    hide SettleIntent, RefundIntent, PayOn, Apply, TimingRefusal;
  }

  lemma SettleOpen(m: Member, leg: Leg, secret: Term, net: Net)
    requires InStep(m, leg) && GoodLeg(leg, secret) && Answers(net)
    ensures Apply(PayerRecord(m).latest, SettleTr(leg, secret), m.ownIsA).Ok?
    ensures TimingRefusal(PayerRecord(m).latest, SettleTr(leg, secret), net.theirs).None? <==> !SettleTooLate(leg.expiry, net.theirs)
    ensures TimingRefusal(PayerRecord(m).latest, SettleTr(leg, secret), net.mine).None? <==> !SettleTooLate(leg.expiry, net.mine)
  {
    hide SettleIntent, RefundIntent;
  }

  /** Of a fragment that only its own attempts have touched, this leaves two obstacles,
      both of them a signature of the settlement: one sent and not heard of, and one that
      was refused for being late. */
  lemma UnwindHolding(m: Member, leg: Leg, secret: Term, net: Net)
    requires Holding(m, leg, secret) && GoodLeg(leg, secret) && leg.amount > 0
    requires Answers(net) && Expired(leg, net)
    ensures var (m', r) := RefundLeg(m, leg, net);
            var n := PayerRecord(m);
            && (StatusOf(PayerRecord(m'), leg).refunded <==> n.pending.None? && n.signed == map[])
            && (n.pending.None? && n.signed == map[] ==> r == Some(Done) && Clean(m'.link, m.ownIsA))
            && (n.pending.Some? ==> m' == m && r == Some(LocalRefusal(OtherProposalPending)))
            && (n.pending.None? && n.signed != map[] ==> m' == m && r == Some(LocalRefusal(AlreadySigned)))
  {
    hide SettleIntent, RefundIntent, FragmentPreimage, InExchange, PayOn, Holding, StatusOf, Apply, Clean;
    if PayerRecord(m).pending.Some? {
      UnwindPending(m, leg, secret, net);
    } else if PayerRecord(m).signed == map[] {
      UnwindUnsigned(m, leg, secret, net);
    } else {
      UnwindSigned(m, leg, secret, net);
    }
  }

  lemma UnwindPending(m: Member, leg: Leg, secret: Term, net: Net)
    requires Holding(m, leg, secret) && Answers(net) && PayerRecord(m).pending.Some? && GoodLeg(leg, secret)
    ensures RefundLeg(m, leg, net) == (m, Some(LocalRefusal(OtherProposalPending)))
    ensures !StatusOf(PayerRecord(m), leg).refunded
  {
    HoldingPending(m, leg, secret);
    hide SettleIntent, RefundIntent, FragmentPreimage, InExchange, Apply;
  }

  lemma UnwindUnsigned(m: Member, leg: Leg, secret: Term, net: Net)
    requires Holding(m, leg, secret) && GoodLeg(leg, secret) && Answers(net) && Expired(leg, net)
    requires PayerRecord(m).pending.None? && PayerRecord(m).signed == map[]
    ensures var (m', r) := RefundLeg(m, leg, net);
            StatusOf(PayerRecord(m'), leg).refunded && r == Some(Done) && Clean(m'.link, m.ownIsA)
  {
    HoldingIdle(m, leg, secret);
    RefundOpen(m, leg, net);
    hide SettleIntent, RefundIntent, FragmentPreimage, InExchange, PayOn, Apply, Clean, TimingRefusal;
    IdleAnyIntent(m.link, m.ownIsA, SettleIntent(leg.intent), SettleTr(leg, secret), RefundIntent(leg.intent), LockRefund(leg.lockId));
    ExchangeMoves(m.link, m.ownIsA, RefundIntent(leg.intent), LockRefund(leg.lockId), net.delivery, net.mine, net.theirs);
  }

  lemma UnwindSigned(m: Member, leg: Leg, secret: Term, net: Net)
    requires Holding(m, leg, secret) && GoodLeg(leg, secret) && leg.amount > 0 && Answers(net) && Expired(leg, net)
    requires PayerRecord(m).pending.None? && PayerRecord(m).signed != map[]
    ensures RefundLeg(m, leg, net) == (m, Some(LocalRefusal(AlreadySigned)))
    ensures !StatusOf(PayerRecord(m), leg).refunded
  {
    HoldingIdle(m, leg, secret);
    RefundOpen(m, leg, net);
    SignedIsPaid(m, leg, secret);
    hide SettleIntent, RefundIntent, FragmentPreimage, InExchange, PayOn, Holding, Apply;
    UnwindExact(m, leg, net);
  }

  lemma SignedIsPaid(m: Member, leg: Leg, secret: Term)
    requires Holding(m, leg, secret) && GoodLeg(leg, secret) && leg.amount > 0
    requires PayerRecord(m).pending.None? && PayerRecord(m).signed != map[]
    ensures leg.lockId in PayerRecord(m).latest.pending && !RefundFree(m, leg)
  {
    SettleIsNotRefund(PayerRecord(m).latest, SettleTr(leg, secret), m.ownIsA, LockRefund(leg.lockId), m.ownIsA);
    ApplyNonce(PayerRecord(m).latest, SettleTr(leg, secret), m.ownIsA);
    hide SettleIntent, RefundIntent, FragmentPreimage;
  }

  lemma HoldingIdle(m: Member, leg: Leg, secret: Term)
    requires Holding(m, leg, secret) && PayerRecord(m).pending.None?
    ensures Idle(m.link, m.ownIsA, SettleIntent(leg.intent), SettleTr(leg, secret))
    ensures InStep(m, leg)
  {
    hide Apply, SettleIntent, RefundIntent;
  }

  lemma HoldingPending(m: Member, leg: Leg, secret: Term)
    requires Holding(m, leg, secret) && PayerRecord(m).pending.Some?
    ensures PayerRecord(m).pending.value.intent == SettleIntent(leg.intent) && !PayerRecord(m).conflict
  {
    hide Apply, SettleIntent, RefundIntent;
  }

  lemma IdleAnyIntent(l: Link, isA: bool, x: Term, t: Transition, y: Term, u: Transition)
    requires Idle(l, isA, x, t) && NodeOf(l, isA).signed == map[]
    requires Apply(NodeOf(l, isA).latest, u, isA).Ok? && y !in NodeOf(l, !isA).applied
    ensures InExchange(l, isA, y, u)
  {
    hide Apply, Outstanding, Unheard;
  }

  /** A settlement that was lost, retried after the expiry and refused leaves nothing
      outstanding, yet its signature keeps the payer from ever signing the refund there. */
  lemma LateSettlementBlocksRefund(m: Member, leg: Leg, secret: Term, net: Net, later: Net)
    requires Holding(m, leg, secret) && GoodLeg(leg, secret) && leg.amount > 0
    requires PayerRecord(m).pending.Some? && SettleIntent(leg.intent) !in NodeOf(m.link, !m.ownIsA).applied
    requires Answers(net) && SettleTooLate(leg.expiry, net.theirs)
    requires Answers(later) && Expired(leg, later)
    ensures var m' := SettleLeg(m, leg, secret, net).0;
            && PayerRecord(m').pending.None?
            && RefundLeg(m', leg, later) == (m', Some(LocalRefusal(AlreadySigned)))
  {
    var t := SettleTr(leg, secret);
    HoldingMoves(m, leg, secret, net);
    ExchangeMoves(m.link, m.ownIsA, SettleIntent(leg.intent), t, net.delivery, net.mine, net.theirs);
    hide SettleIntent, RefundIntent, FragmentPreimage, InExchange, PayOn, Holding, Clean;
    UnwindHolding(SettleLeg(m, leg, secret, net).0, leg, secret, later);
  }

  /** A fragment that was never locked, or is already settled, is not touched by an unwind. */
  lemma UnwindLeavesOthers(m: Member, leg: Leg, net: Net)
    requires Locking(m, leg) || SettledLeg(m, leg)
    ensures RefundLeg(m, leg, net).0 == m
  {
    hide PayOn, InExchange;
  }

  /** A refund asked for too early is refused, but it was signed: from then on this
      node can sign no settlement of that lock at the same nonce, whatever answers. */
  lemma PrematureRefundBlocksSettlement(m: Member, leg: Leg, secret: Term, net: Net, later: Net)
    requires Holding(m, leg, secret) && GoodLeg(leg, secret)
    requires PayerRecord(m).pending.None? && PayerRecord(m).signed == map[]
    requires leg.amount > 0
    requires Answers(net) && leg.expiry > net.theirs.now - net.theirs.skew
    requires later.Reach? && leg.expiry > later.mine.now + later.mine.skew
    ensures var (m', r) := RefundLeg(m, leg, net);
            && r == Some(Refused(LockNotExpired))
            && SettleLeg(m', leg, secret, later) == (m', Some(LocalRefusal(AlreadySigned)))
  {
    HoldingIdle(m, leg, secret);
    hide SettleIntent, RefundIntent, FragmentPreimage, InExchange;
    var n := PayerRecord(m);
    var refund := LockRefund(leg.lockId);
    var back := Apply(n.latest, refund, m.ownIsA).value;
    assert Prune(map[back.nonce := back], n.latest.nonce) == map[back.nonce := back];
    var n' := n.(signed := map[back.nonce := back]);
    assert PayerRecord(RefundLeg(m, leg, net).0) == n';
    SettleIsNotRefund(n.latest, SettleTr(leg, secret), m.ownIsA, refund, m.ownIsA);
  }

  // ---- proposals that cross ------------------------------------------------------------------------------

  /** From the side of `n`: both hold the same state, and each has signed something else next. */
  ghost predicate CrossedNode(n: Node, o: Node) {
    var k := n.latest.nonce + 1;
    && !n.conflict && n.latest == o.latest
    && k in n.signed && k in o.signed && n.signed[k] != o.signed[k] && n.signed[k].nonce == k
    && (n.pending.Some? ==> n.pending.value.state == n.signed[k])
  }

  ghost predicate Crossed(l: Link) {
    CrossedNode(l.a, l.b) && CrossedNode(l.b, l.a)
  }

  lemma CrossedFrom(l: Link, isA: bool)
    ensures Crossed(l) <==> CrossedNode(NodeOf(l, isA), NodeOf(l, !isA)) && CrossedNode(NodeOf(l, !isA), NodeOf(l, isA))
  {
  }

  lemma CrossedProposes(n: Node, o: Node, isA: bool, x: Term, t: Transition, c: Clock)
    requires CrossedNode(n, o) && CrossedNode(o, n) && Propose(n, isA, x, t, c).Ok?
    ensures var n1 := Propose(n, isA, x, t, c).value;
            && CrossedNode(n1, o) && CrossedNode(o, n1) && n1.pending.Some?
            && n1.latest == n.latest && n1.applied == n.applied
  {
    ProposedIs(n, isA, x, t, c);
    if n.pending.None? {
      ApplyNonce(n.latest, t, isA);
      CrossedSame(n, isA, x, t, c);
    }
    hide Apply, Propose, TimingRefusal;
  }

  lemma CrossedSame(n: Node, isA: bool, x: Term, t: Transition, c: Clock)
    requires n.pending.None? && Propose(n, isA, x, t, c).Ok? && n.latest.nonce + 1 in n.signed
    ensures Apply(n.latest, t, isA).value == n.signed[n.latest.nonce + 1]
  {
    ApplyNonce(n.latest, t, isA);
    hide Apply, TimingRefusal;
  }

  /** The other node refuses it, or repeats where it stands. */
  lemma CrossedHandles(n: Node, o: Node, isA: bool, c: Clock)
    requires CrossedNode(n, o) && CrossedNode(o, n) && n.pending.Some?
    ensures var (o', reply) := HandlePropose(o, isA, n.pending.value, c);
            && o' == o
            && (reply.Accepted? || reply.Current? ==> reply.state == o.latest)
  {
    hide Apply, TimingRefusal;
  }

  lemma CrossedHears(n: Node, o: Node, intent: Term)
    requires CrossedNode(n, o) && CrossedNode(o, n)
    ensures HandleResponse(n, o.latest) == n
    ensures n.pending.Some? ==> HandleAccept(n, intent, o.latest).0 == n
    ensures var n' := HandleReject(n, intent);
            CrossedNode(n', o) && CrossedNode(o, n') && n'.latest == n.latest && n'.applied == n.applied
  {
  }

  /** What the acting node's record may become, the other's staying as it is. */
  ghost predicate StillCrossed(l: Link, l': Link, isA: bool) {
    var n, o, n' := NodeOf(l, isA), NodeOf(l, !isA), NodeOf(l', isA);
    && NodeOf(l', !isA) == o && CrossedNode(n', o) && CrossedNode(o, n')
    && n'.latest == n.latest && n'.applied == n.applied
  }

  lemma CrossedPays(l: Link, isA: bool, x: Term, t: Transition, d: Delivery, mine: Clock, theirs: Clock)
    requires CrossedNode(NodeOf(l, isA), NodeOf(l, !isA)) && CrossedNode(NodeOf(l, !isA), NodeOf(l, isA))
    ensures StillCrossed(l, PayOn(l, isA, x, t, d, mine, theirs).0, isA)
  {
    hide Apply, TimingRefusal, Propose, HandlePropose, HandleAccept, HandleReject, HandleResponse, CrossedNode;
    var n, o := NodeOf(l, isA), NodeOf(l, !isA);
    if !n.conflict && x !in n.applied && Propose(n, isA, x, t, mine).Ok? {
      CrossedProposes(n, o, isA, x, t, mine);
      var n1 := Propose(n, isA, x, t, mine).value;
      CrossedHandles(n1, o, !isA, theirs);
      CrossedHears(n1, o, x);
      var sent := WithNode(l, isA, n1);
      assert WithNode(sent, !isA, o) == sent && NodeOf(sent, !isA) == o;
      var l' := PayOn(l, isA, x, t, d, mine, theirs).0;
      var reply := HandlePropose(o, !isA, n1.pending.value, theirs).1;
      assert d != Answered ==> l' == sent;
      assert d == Answered && reply.Rejected? ==> l' == WithNode(sent, isA, HandleReject(n1, x));
      assert d == Answered && !reply.Rejected? ==> l' == WithNode(sent, isA, n1);
    }
  }

  lemma CrossedActs(l: Link, s: Step)
    requires CrossedNode(NodeOf(l, s.isA), NodeOf(l, !s.isA)) && CrossedNode(NodeOf(l, !s.isA), NodeOf(l, s.isA))
    ensures StillCrossed(l, StepLink(l, s), s.isA)
  {
    hide Apply, TimingRefusal, PayOn, HandlePropose, HandleResponse, CrossedNode;
    var n, o := NodeOf(l, s.isA), NodeOf(l, !s.isA);
    match s
    case PayStep(isA, x, t, d, mine, theirs) => CrossedPays(l, isA, x, t, d, mine, theirs);
    case RecoverStep(isA) => CrossedHears(n, o, Raw([]));
    case LateStep(isA, theirs) =>
      if n.pending.Some? {
        CrossedHandles(n, o, !isA, theirs);
      }
  }

  /** Two proposals that crossed block the channel for good: whatever either party tries, and
      whatever is lost or late, no state is co-signed any more. */
  lemma CrossedStep(l: Link, s: Step)
    requires Crossed(l)
    ensures var l' := StepLink(l, s);
            && Crossed(l') && l'.a.latest == l.a.latest && l'.b.latest == l.b.latest
            && l'.a.applied == l.a.applied && l'.b.applied == l.b.applied
  {
    CrossedActs(l, s);
    hide StepLink, CrossedNode;
  }

  lemma LostRequest(l: Link, isA: bool, x: Term, t: Transition, mine: Clock, theirs: Clock)
    requires !NodeOf(l, isA).conflict && NodeOf(l, isA).pending.None? && x !in NodeOf(l, isA).applied
    requires Propose(NodeOf(l, isA), isA, x, t, mine).Ok?
    ensures Apply(NodeOf(l, isA).latest, t, isA).Ok?
    ensures StepLink(l, PayStep(isA, x, t, RequestLost, mine, theirs))
            == WithNode(l, isA, Proposing(NodeOf(l, isA), isA, x, t))
  {
    ProposedIs(NodeOf(l, isA), isA, x, t, mine);
    hide Apply, Propose, TimingRefusal;
  }

  lemma CrossedRequests(n: Node, o: Node, isA: bool, x: Term, t: Transition, y: Term, u: Transition)
    requires n.pending.None? && n.signed == map[] && o.signed == map[] && n.latest == o.latest && !n.conflict
    requires Apply(n.latest, t, isA).Ok? && Apply(o.latest, u, !isA).Ok?
    ensures CrossedNode(Proposing(n, isA, x, t), Proposing(o, !isA, y, u))
            <==> Apply(n.latest, t, isA) != Apply(n.latest, u, !isA)
  {
    ApplyNonce(n.latest, t, isA);
    ApplyNonce(o.latest, u, !isA);
    hide Apply;
  }

  /** Two requests lost on a channel at rest, one from either party, cross exactly when the
      two parties signed different states. */
  lemma ProposalsCross(l: Link, isA: bool, x: Term, t: Transition, y: Term, u: Transition, mine: Clock, theirs: Clock)
    requires Clean(l, isA)
    requires x !in NodeOf(l, isA).applied && y !in NodeOf(l, !isA).applied
    requires Propose(NodeOf(l, isA), isA, x, t, mine).Ok? && Propose(NodeOf(l, !isA), !isA, y, u, theirs).Ok?
    ensures var first := StepLink(l, PayStep(isA, x, t, RequestLost, mine, theirs));
            var l' := StepLink(first, PayStep(!isA, y, u, RequestLost, theirs, mine));
            Crossed(l') <==> Apply(NodeOf(l, isA).latest, t, isA) != Apply(NodeOf(l, isA).latest, u, !isA)
  {
    var n, o := NodeOf(l, isA), NodeOf(l, !isA);
    LostRequest(l, isA, x, t, mine, theirs);
    var first := WithNode(l, isA, Proposing(n, isA, x, t));
    LostRequest(first, !isA, y, u, theirs, mine);
    CrossedRequests(n, o, isA, x, t, y, u);
    CrossedRequests(o, n, !isA, y, u, x, t);
    CrossedFrom(WithNode(first, !isA, Proposing(o, !isA, y, u)), isA);
    hide Apply, Propose, TimingRefusal, StepLink, CrossedNode, Crossed, Proposing;
  }

  lemma {:induction false} CrossedForGood(l: Link, steps: seq<Step>)
    requires Crossed(l)
    ensures var l' := Run(l, steps);
            && Crossed(l') && l'.a.latest == l.a.latest && l'.b.latest == l.b.latest
            && l'.a.applied == l.a.applied && l'.b.applied == l.b.applied
  {
    if steps != [] {
      hide Crossed, StepLink;
      CrossedForGood(l, steps[..|steps| - 1]);
      CrossedStep(Run(l, steps[..|steps| - 1]), steps[|steps| - 1]);
    }
  }
}
