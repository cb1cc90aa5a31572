/** What one fragment can do to its channel over any run: its lock is added at most
    once and resolved at most once, and the payer's own record never says otherwise. */
module MultipathSafety {
  import opened Common
  import opened Bytes
  import opened Symbols
  import opened ChannelState
  import opened Protocol
  import opened Agreement
  import opened MultipathPayment

  predicate Settles(leg: Leg, t: Transition) {
    t.LockSettle? && t.id == leg.lockId
  }

  /** The proposals the executor makes for one fragment. */
  ghost predicate ProposedFor(leg: Leg, intent: Term, t: Transition) {
    || (intent == leg.intent && t == LockAdd(leg.lockId, leg.hash, leg.amount, leg.expiry))
    || (intent == SettleIntent(leg.intent) && Settles(leg, t))
    || (intent == RefundIntent(leg.intent) && t == LockRefund(leg.lockId))
  }

  /** Under which intents the lock is settled in a run: any, the fragment's settling intent
      only, or never that one. `Missed` allows any, and is said of a run from the moment on
      when the payer's record has taken the settlement in under another intent. */
  datatype Via = Anyhow | OwnIntent | OtherIntent | Missed

  ghost predicate Allows(via: Via, leg: Leg, intent: Term) {
    (via.OwnIntent? ==> intent == SettleIntent(leg.intent)) && (via.OtherIntent? ==> intent != SettleIntent(leg.intent))
  }

  /** A step of the run respects a fragment when its intents and its lock are used by the
      payer, for their own purpose, or when the step settles the lock: with the preimage
      that opens it either party may do that, under the settling intent or one of its own,
      as far as `via` allows it. Everything else, by either party, is free. */
  ghost predicate Kept(leg: Leg, payerIsA: bool, via: Via, isA: bool, intent: Term, t: Transition) {
    intent == leg.intent || intent == SettleIntent(leg.intent) || intent == RefundIntent(leg.intent)
    || LockOf(t) == Some(leg.lockId)
    ==>
      && (|| (isA == payerIsA && ProposedFor(leg, intent, t))
          || (Settles(leg, t) && intent != leg.intent && intent != RefundIntent(leg.intent)))
      && (Settles(leg, t) ==> Allows(via, leg, intent))
  }

  ghost predicate StepKept(leg: Leg, payerIsA: bool, via: Via, s: Step) {
    s.PayStep? ==> Kept(leg, payerIsA, via, s.isA, s.intent, s.tr)
  }

  /** How often an intent was co-signed. */
  ghost function Count(log: seq<Entry>, intent: Term): nat {
    if log == [] then 0
    else Count(log[..|log| - 1], intent) + (if log[|log| - 1].intent == intent then 1 else 0)
  }

  lemma CountAppend(log: seq<Entry>, e: Entry, intent: Term)
    ensures Count(log + [e], intent) == Count(log, intent) + (if e.intent == intent then 1 else 0)
  {
    assert (log + [e])[..|log|] == log;
  }

  /** How often the lock was settled, by whom and under which intent does not matter. */
  ghost function Settlements(log: seq<Entry>, leg: Leg): nat {
    if log == [] then 0
    else Settlements(log[..|log| - 1], leg) + (if Settles(leg, log[|log| - 1].tr) then 1 else 0)
  }

  lemma SettlementsAppend(log: seq<Entry>, e: Entry, leg: Leg)
    ensures Settlements(log + [e], leg) == Settlements(log, leg) + (if Settles(leg, e.tr) then 1 else 0)
  {
    assert (log + [e])[..|log|] == log;
  }

  ghost predicate OwnIntents(leg: Leg) {
    && leg.intent != SettleIntent(leg.intent)
    && leg.intent != RefundIntent(leg.intent)
    && SettleIntent(leg.intent) != RefundIntent(leg.intent)
  }

  ghost predicate PendingKept(leg: Leg, payerIsA: bool, via: Via, n: Node, isA: bool) {
    n.pending.Some? ==> Kept(leg, payerIsA, via, isA, n.pending.value.intent, n.pending.value.tr)
  }

  ghost predicate LogKept(leg: Leg, payerIsA: bool, via: Via, log: seq<Entry>) {
    forall i :: 0 <= i < |log| ==> Kept(leg, payerIsA, via, log[i].byA, log[i].intent, log[i].tr)
  }

  /** What a record whose owner has applied exactly the history `log` says of a fragment:
      its locking and refunding intents are recorded exactly when they were co-signed, and
      its settling intent only when the lock was settled. How it was settled decides whether
      the settling intent is then recorded. */
  ghost predicate Knows(leg: Leg, via: Via, log: seq<Entry>, applied: set<Term>) {
    && (leg.intent in applied <==> Count(log, leg.intent) >= 1)
    && (RefundIntent(leg.intent) in applied <==> Count(log, RefundIntent(leg.intent)) >= 1)
    && (SettleIntent(leg.intent) in applied ==> Settlements(log, leg) >= 1 && !via.OtherIntent? && !via.Missed?)
    && (via.OwnIntent? && Settlements(log, leg) >= 1 ==> SettleIntent(leg.intent) in applied)
    && (via.Missed? ==> Settlements(log, leg) >= 1)
  }

  /** The payer `n` knows the part of the history it has applied, and the lock went on at
      most once. */
  ghost predicate LegInv(leg: Leg, payerIsA: bool, via: Via, log: seq<Entry>, n: Node, other: Node) {
    && OwnIntents(leg)
    && LogKept(leg, payerIsA, via, log)
    && PendingKept(leg, payerIsA, via, n, payerIsA)
    && PendingKept(leg, payerIsA, via, other, !payerIsA)
    && n.latest.nonce <= |log|
    && Knows(leg, via, log[..n.latest.nonce], n.applied.Keys)
    && Count(log, leg.intent) <= 1
  }

  lemma LogKeptAppend(leg: Leg, payerIsA: bool, via: Via, log: seq<Entry>, e: Entry)
    requires LogKept(leg, payerIsA, via, log) && Kept(leg, payerIsA, via, e.byA, e.intent, e.tr)
    ensures LogKept(leg, payerIsA, via, log + [e])
  {
    hide Kept;
  }

  lemma KeptByOther(leg: Leg, payerIsA: bool, via: Via, isA: bool, intent: Term, t: Transition)
    requires Kept(leg, payerIsA, via, isA, intent, t) && isA != payerIsA
    ensures intent != leg.intent && intent != RefundIntent(leg.intent)
    ensures intent == SettleIntent(leg.intent) ==> Settles(leg, t)
    ensures LockOf(t) == Some(leg.lockId) ==> Settles(leg, t)
    ensures Settles(leg, t) ==> Allows(via, leg, intent)
  {
    hide SettleIntent, RefundIntent;
  }

  lemma KeptTouches(leg: Leg, payerIsA: bool, via: Via, isA: bool, intent: Term, t: Transition)
    requires Kept(leg, payerIsA, via, isA, intent, t) && OwnIntents(leg)
    ensures intent == leg.intent || intent == SettleIntent(leg.intent) || intent == RefundIntent(leg.intent) ==>
              LockOf(t) == Some(leg.lockId)
    ensures LockOf(t) == Some(leg.lockId) ==> (t.LockAdd? <==> intent == leg.intent)
                                              && (t.LockRefund? <==> intent == RefundIntent(leg.intent))
                                              && (t.LockSettle? <==> Settles(leg, t))
    ensures Settles(leg, t) ==> LockOf(t) == Some(leg.lockId)
  {
    hide SettleIntent, RefundIntent;
  }

  /** A proposal for a state already in the history follows from the state before it. */
  lemma ProposalFollows(origin: State, log: seq<Entry>, n: Node, other: Node, isA: bool)
    requires PairInv(origin, log, n, other, isA)
    requires |log| > 0 && other.pending.Some? && other.pending.value.state == At(origin, log, |log|)
    ensures Apply(At(origin, log, |log| - 1), other.pending.value.tr, !isA) == Ok(At(origin, log, |log|))
    ensures Apply(At(origin, log, |log| - 1), log[|log| - 1].tr, log[|log| - 1].byA) == Ok(At(origin, log, |log|))
  {
    hide Apply;
    assert other.pending.value.state.nonce == |log|;
  }

  /** Settling a lock and refunding it never lead to the same state. */
  lemma SettleIsNotRefund(s: State, t: Transition, byT: bool, u: Transition, byU: bool)
    requires t.LockSettle? && u.LockRefund? && t.id == u.id && t.id in s.pending && s.pending[t.id].amount > 0
    requires Apply(s, t, byT).Ok? && Apply(s, u, byU).Ok?
    ensures Apply(s, t, byT) != Apply(s, u, byU)
  {
    var payer := s.pending[t.id].payerIsA;
    assert BalanceOf(Apply(s, t, byT).value, payer) != BalanceOf(Apply(s, u, byU).value, payer);
  }

  /** Two transitions by different parties that lead from one state to one and the same
      either both settle the fragment's lock or both leave it via. */
  lemma SameEffect(before: State, leg: Leg, payerIsA: bool, via: Via, q: Proposal, e: Entry, deposits: int)
    requires Apply(before, q.tr, !payerIsA) == Ok(e.state) && Apply(before, e.tr, e.byA) == Ok(e.state)
    requires Kept(leg, payerIsA, via, !payerIsA, q.intent, q.tr) && Kept(leg, payerIsA, via, e.byA, e.intent, e.tr)
    requires OwnIntents(leg) && WellFormed(before, deposits)
    ensures e.intent != leg.intent && e.intent != RefundIntent(leg.intent)
    ensures Settles(leg, q.tr) <==> Settles(leg, e.tr)
  {
    KeptByOther(leg, payerIsA, via, !payerIsA, q.intent, q.tr);
    KeptTouches(leg, payerIsA, via, !payerIsA, q.intent, q.tr);
    KeptTouches(leg, payerIsA, via, e.byA, e.intent, e.tr);
    ApplyTouchesOwnLock(before, q.tr, !payerIsA, leg.lockId);
    ApplyTouchesOwnLock(before, e.tr, e.byA, leg.lockId);
    SettledWasPending(before, q.tr, !payerIsA);
    PositiveLock(before, deposits, leg.lockId);
    AddNeedsNoLock(before, e.tr, e.byA);
    hide Kept, Apply, OwnIntents, SettleIntent, RefundIntent, WellFormed;
    if LockOf(q.tr) == Some(leg.lockId) && e.tr.LockRefund? {
      SettleIsNotRefund(before, q.tr, !payerIsA, e.tr, e.byA);
    }
  }

  lemma SettledWasPending(s: State, t: Transition, byA: bool)
    requires Apply(s, t, byA).Ok?
    ensures t.LockSettle? ==> t.id in s.pending && t.id !in Apply(s, t, byA).value.pending
  {
  }

  lemma AddNeedsNoLock(s: State, t: Transition, byA: bool)
    requires Apply(s, t, byA).Ok?
    ensures t.LockAdd? ==> t.id !in s.pending
  {
  }

  lemma PositiveLock(s: State, deposits: int, id: Term)
    requires WellFormed(s, deposits)
    ensures id in s.pending ==> s.pending[id].amount > 0
  {
  }

  /** The state a lagging payer is missing came from its own proposal. If its peer now
      proposes the very same state, both settled the fragment's lock or neither touched it. */
  lemma SameState(origin: State, leg: Leg, payerIsA: bool, via: Via, log: seq<Entry>, n: Node, other: Node)
    requires Fresh(origin)
    requires PairInv(origin, log, n, other, payerIsA) && LegInv(leg, payerIsA, via, log, n, other)
    requires n.latest.nonce < |log| && other.pending.Some? && other.pending.value.state == At(origin, log, |log|)
    ensures var q, e := other.pending.value, log[|log| - 1];
            && q.intent != leg.intent && q.intent != RefundIntent(leg.intent)
            && e.intent != leg.intent && e.intent != RefundIntent(leg.intent)
            && (Settles(leg, q.tr) <==> Settles(leg, e.tr))
            && (q.intent == SettleIntent(leg.intent) ==> Settles(leg, e.tr))
            && (Settles(leg, e.tr) ==> Allows(via, leg, q.intent))
  {
    hide Apply, Kept, PairInv, LegInv, ValidLog, OwnIntents, SettleIntent, RefundIntent, WellFormed, LogKept,
         PendingKept, Settles, Knows, Count, At, LockOf;
    var q, e := other.pending.value, log[|log| - 1];
    ProposalFollows(origin, log, n, other, payerIsA);
    ValidHistory(origin, log, n, other, payerIsA);
    LegParts(leg, payerIsA, via, log, n, other);
    LogEntryKept(leg, payerIsA, via, log, |log| - 1);
    PendingIsKept(leg, payerIsA, via, other, !payerIsA);
    LogWellFormed(origin, log, |log| - 1);
    LastState(origin, log);
    SameEffect(At(origin, log, |log| - 1), leg, payerIsA, via, q, e, origin.balanceA + origin.balanceB);
    KeptByOther(leg, payerIsA, via, !payerIsA, q.intent, q.tr);
    SettleTouches(leg, q.tr);
  }

  lemma LastState(origin: State, log: seq<Entry>)
    requires log != []
    ensures At(origin, log, |log|) == log[|log| - 1].state
  {
  }

  lemma SettleTouches(leg: Leg, t: Transition)
    ensures Settles(leg, t) ==> LockOf(t) == Some(leg.lockId)
  {
  }

  lemma ValidHistory(origin: State, log: seq<Entry>, n: Node, other: Node, isA: bool)
    requires PairInv(origin, log, n, other, isA)
    ensures ValidLog(origin, log)
  {
    hide ValidLog, NodeInv;
  }

  lemma LogEntryKept(leg: Leg, payerIsA: bool, via: Via, log: seq<Entry>, i: nat)
    requires LogKept(leg, payerIsA, via, log) && i < |log|
    ensures Kept(leg, payerIsA, via, log[i].byA, log[i].intent, log[i].tr)
  {
    hide Kept;
  }

  lemma PendingIsKept(leg: Leg, payerIsA: bool, via: Via, n: Node, isA: bool)
    requires PendingKept(leg, payerIsA, via, n, isA) && n.pending.Some?
    ensures Kept(leg, payerIsA, via, isA, n.pending.value.intent, n.pending.value.tr)
  {
    hide Kept;
  }

  /** A record that takes in one more co-signed entry, under the intent it was signed
      under or under another for the same effect, knows one entry more. */
  lemma KnowsMore(leg: Leg, payerIsA: bool, via: Via, log: seq<Entry>, e: Entry, applied: set<Term>, x: Term)
    requires OwnIntents(leg) && Knows(leg, via, log, applied)
    requires Kept(leg, payerIsA, via, e.byA, e.intent, e.tr)
    requires x == e.intent
             || (&& x != leg.intent && x != RefundIntent(leg.intent)
                 && e.intent != leg.intent && e.intent != RefundIntent(leg.intent)
                 && (x == SettleIntent(leg.intent) ==> Settles(leg, e.tr))
                 && (Settles(leg, e.tr) ==> Allows(via, leg, x)))
    requires via.Missed? ==> !Settles(leg, e.tr)
    ensures Knows(leg, via, log + [e], applied + {x})
  {
    hide Count, Settlements, SettleIntent, RefundIntent;
    CountAppend(log, e, leg.intent);
    CountAppend(log, e, RefundIntent(leg.intent));
    SettlementsAppend(log, e, leg);
  }

  /** The lock went on once, so it comes off once: no entry settles it after another did. */
  lemma SettledBefore(origin: State, leg: Leg, payerIsA: bool, via: Via, log: seq<Entry>)
    requires Fresh(origin) && OwnIntents(leg) && ValidLog(origin, log) && LogKept(leg, payerIsA, via, log)
    requires Count(log, leg.intent) <= 1
    ensures Settlements(log, leg) <= 1
    ensures Settlements(log, leg) == 1 ==> leg.lockId !in At(origin, log, |log|).pending
  {
    hide ValidLog, LogKept, OwnIntents, Count, Settlements, At, SettleIntent, RefundIntent;
    LockLedger(origin, leg, payerIsA, via, log);
  }

  lemma LastNotSettling(origin: State, leg: Leg, payerIsA: bool, via: Via, log: seq<Entry>, n: Node, other: Node)
    requires Fresh(origin) && PairInv(origin, log, n, other, payerIsA) && LegInv(leg, payerIsA, via, log, n, other)
    requires n.latest.nonce + 1 == |log|
    ensures via.Missed? ==> !Settles(leg, log[|log| - 1].tr)
  {
    hide PairInv, LegInv, ValidLog, LogKept, OwnIntents, Count, Settlements, PendingKept, Settles, SettleIntent, RefundIntent, At;
    LegParts(leg, payerIsA, via, log, n, other);
    ValidHistory(origin, log, n, other, payerIsA);
    SettledBefore(origin, leg, payerIsA, via, log);
    var m := |log|;
    assert log[..m - 1] + [log[m - 1]] == log;
    SettlementsAppend(log[..m - 1], log[m - 1], leg);
  }

  lemma NextNotSettling(origin: State, leg: Leg, payerIsA: bool, via: Via, log: seq<Entry>, n: Node, other: Node, t: Transition)
    requires Fresh(origin) && PairInv(origin, log, n, other, payerIsA) && LegInv(leg, payerIsA, via, log, n, other)
    requires n.latest.nonce == |log| && Apply(n.latest, t, !payerIsA).Ok?
    ensures via.Missed? ==> !Settles(leg, t)
  {
    hide PairInv, LegInv, ValidLog, LogKept, OwnIntents, Count, Settlements, PendingKept, SettleIntent, RefundIntent, At, Apply;
    LegParts(leg, payerIsA, via, log, n, other);
    ValidHistory(origin, log, n, other, payerIsA);
    SettledBefore(origin, leg, payerIsA, via, log);
    assert log[..|log|] == log;
    LatestInLog(origin, log, n, other, payerIsA);
    SettledWasPending(n.latest, t, !payerIsA);
  }

  lemma LatestInLog(origin: State, log: seq<Entry>, n: Node, other: Node, isA: bool)
    requires PairInv(origin, log, n, other, isA)
    ensures n.latest.nonce <= |log| && n.latest == At(origin, log, n.latest.nonce)
  {
    hide Apply, ValidLog;
  }

  // ---- one exchange ------------------------------------------------------------------

  /** A proposal for a state beyond the history is the payer's next, under an intent it
      has not recorded. */
  lemma PendingFresh(origin: State, log: seq<Entry>, n: Node, other: Node, isA: bool)
    requires PairInv(origin, log, n, other, isA)
    requires n.pending.Some? && n.pending.value.state.nonce > |log|
    ensures n.latest.nonce == |log| && n.pending.value.intent !in n.applied
  {
    hide Apply;
  }

  lemma PeerEntry(leg: Leg, payerIsA: bool, via: Via, log: seq<Entry>, n: Node, other: Node, peer: Node)
    requires LegInv(leg, payerIsA, via, log, n, other)
    requires n.latest.nonce == |log| && n.pending.Some? && n.pending.value.intent !in n.applied
    requires peer.pending == other.pending
    ensures var p := n.pending.value;
            LegInv(leg, payerIsA, via, log + [Entry(p.intent, p.tr, payerIsA, p.state)], n, peer)
  {
    hide Kept, LogKept, Count, Settlements, OwnIntents, SettleIntent, RefundIntent;
    var p := n.pending.value;
    var e := Entry(p.intent, p.tr, payerIsA, p.state);
    assert log[..|log|] == log && (log + [e])[..|log|] == log;
    LogKeptAppend(leg, payerIsA, via, log, e);
    CountAppend(log, e, leg.intent);
  }

  lemma SamePendingKept(leg: Leg, payerIsA: bool, via: Via, log: seq<Entry>, n: Node, other: Node, peer: Node)
    requires LegInv(leg, payerIsA, via, log, n, other) && peer.pending == other.pending
    ensures LegInv(leg, payerIsA, via, log, n, peer)
  {
    hide Kept, LogKept, Count, Knows, OwnIntents;
  }

  /** The payer's proposal reaches its peer. */
  lemma PeerHandles(origin: State, leg: Leg, payerIsA: bool, via: Via, log: seq<Entry>, n: Node, other: Node, c: Clock)
    requires PairInv(origin, log, n, other, payerIsA) && LegInv(leg, payerIsA, via, log, n, other)
    requires n.pending.Some?
    ensures var peer := HandlePropose(other, !payerIsA, n.pending.value, c).0;
            LegInv(leg, payerIsA, via, Extended(log, n.pending.value, payerIsA, peer), n, peer)
  {
    hide HandlePropose, LegInv, PairInv;
    var p := n.pending.value;
    var peer := HandlePropose(other, !payerIsA, p, c).0;
    HandleEffect(other, !payerIsA, p, c);
    NonceRange(origin, log, n, other, payerIsA);
    if peer.latest.nonce > |log| {
      PendingFresh(origin, log, n, other, payerIsA);
      PeerEntry(leg, payerIsA, via, log, n, other, peer);
    } else {
      SamePendingKept(leg, payerIsA, via, log, n, other, peer);
    }
  }

  /** The peer's proposal reaches the payer. */
  lemma PayerHandles(origin: State, leg: Leg, payerIsA: bool, via: Via, log: seq<Entry>, n: Node, other: Node, c: Clock)
    requires Fresh(origin)
    requires PairInv(origin, log, n, other, payerIsA) && LegInv(leg, payerIsA, via, log, n, other)
    requires other.pending.Some?
    ensures var payer := HandlePropose(n, payerIsA, other.pending.value, c).0;
            LegInv(leg, payerIsA, via, Extended(log, other.pending.value, !payerIsA, payer), payer, other)
  {
    NonceRange(origin, log, n, other, payerIsA);
    hide Apply, HandlePropose, PairInv, LegInv;
    var q := other.pending.value;
    var payer := HandlePropose(n, payerIsA, q, c).0;
    HandleEffect(n, payerIsA, q, c);
    HandledApplies(n, payerIsA, q, c);
    if payer != n {
      if n.latest.nonce == |log| {
        NextNotSettling(origin, leg, payerIsA, via, log, n, other, q.tr);
        OtherEntry(leg, payerIsA, via, log, n, other, payer);
      } else {
        LagFilled(origin, leg, payerIsA, via, log, n, other, payer);
      }
    }
  }

  lemma HandledApplies(n: Node, isA: bool, p: Proposal, c: Clock)
    ensures HandlePropose(n, isA, p, c).0 != n ==> Apply(n.latest, p.tr, !isA).Ok?
  {
    hide Apply;
  }

  lemma NonceRange(origin: State, log: seq<Entry>, n: Node, other: Node, isA: bool)
    requires PairInv(origin, log, n, other, isA)
    ensures n.latest.nonce <= |log| <= n.latest.nonce + 1
    ensures other.latest.nonce <= |log| <= other.latest.nonce + 1
  {
    hide Apply;
  }

  lemma OtherEntry(leg: Leg, payerIsA: bool, via: Via, log: seq<Entry>, n: Node, other: Node, payer: Node)
    requires LegInv(leg, payerIsA, via, log, n, other)
    requires n.latest.nonce == |log| && other.pending.Some?
    requires via.Missed? ==> !Settles(leg, other.pending.value.tr)
    requires var q := other.pending.value;
             && payer == n.(latest := q.state, applied := n.applied[q.intent := q.state.nonce],
                            signed := Prune(n.signed, q.state.nonce))
             && q.state.nonce == |log| + 1
    ensures LegInv(leg, payerIsA, via, Extended(log, other.pending.value, !payerIsA, payer), payer, other)
  {
    hide LogKept, Kept, LegInv, Knows, Count, PendingKept, OwnIntents, Prune, Settles, SettleIntent, RefundIntent;
    var q := other.pending.value;
    var e := Entry(q.intent, q.tr, !payerIsA, q.state);
    LegParts(leg, payerIsA, via, log, n, other);
    PendingIsKept(leg, payerIsA, via, other, !payerIsA);
    OwnPendingKept(leg, payerIsA, via, log, n, other, payer);
    assert (log + [e])[..|log| + 1] == log + [e] && log[..|log|] == log;
    KeptByOther(leg, payerIsA, via, !payerIsA, q.intent, q.tr);
    CountAppend(log, e, leg.intent);
    LogKeptAppend(leg, payerIsA, via, log, e);
    KnowsMore(leg, payerIsA, via, log, e, n.applied.Keys, q.intent);
    assert payer.applied.Keys == n.applied.Keys + {q.intent};
    LegWhole(leg, payerIsA, via, log + [e], payer, other);
  }

  /** What a lagging payer signed at the missing nonce is the state it is missing. */
  lemma LagState(origin: State, log: seq<Entry>, n: Node, other: Node, isA: bool)
    requires PairInv(origin, log, n, other, isA) && n.latest.nonce < |log|
    ensures n.latest.nonce + 1 == |log| && |log| in n.signed && n.signed[|log|] == At(origin, log, |log|)
  {
    hide Apply;
  }

  lemma LagFilled(origin: State, leg: Leg, payerIsA: bool, via: Via, log: seq<Entry>, n: Node, other: Node, payer: Node)
    requires Fresh(origin)
    requires PairInv(origin, log, n, other, payerIsA) && LegInv(leg, payerIsA, via, log, n, other)
    requires n.latest.nonce < |log| && other.pending.Some?
    requires var q := other.pending.value;
             && payer == n.(latest := q.state, applied := n.applied[q.intent := q.state.nonce],
                            signed := Prune(n.signed, q.state.nonce))
             && q.state.nonce == n.latest.nonce + 1
             && (q.state.nonce in n.signed ==> n.signed[q.state.nonce] == q.state)
    ensures LegInv(leg, payerIsA, via, log, payer, other)
  {
    hide PairInv, LogKept, LegInv, Count, Prune, PendingKept, Knows, Kept, OwnIntents, SettleIntent, RefundIntent, Settles;
    var m := |log|;
    LagState(origin, log, n, other, payerIsA);
    SameState(origin, leg, payerIsA, via, log, n, other);
    LastNotSettling(origin, leg, payerIsA, via, log, n, other);
    LegParts(leg, payerIsA, via, log, n, other);
    OwnPendingKept(leg, payerIsA, via, log, n, other, payer);
    LogEntryKept(leg, payerIsA, via, log, m - 1);
    assert log[..m] == log && log[..m - 1] + [log[m - 1]] == log;
    var q := other.pending.value;
    KnowsMore(leg, payerIsA, via, log[..m - 1], log[m - 1], n.applied.Keys, q.intent);
    assert payer.applied.Keys == n.applied.Keys + {q.intent};
    LegWhole(leg, payerIsA, via, log, payer, other);
  }

  lemma OwnPendingKept(leg: Leg, payerIsA: bool, via: Via, log: seq<Entry>, n: Node, other: Node, n': Node)
    requires LegInv(leg, payerIsA, via, log, n, other) && n'.pending == n.pending
    ensures PendingKept(leg, payerIsA, via, n', payerIsA)
  {
    hide Kept;
  }

  /** Proposing records nothing about the history. */
  lemma Proposes(leg: Leg, payerIsA: bool, via: Via, log: seq<Entry>, n: Node, other: Node,
                 isA: bool, intent: Term, t: Transition, c: Clock)
    requires LegInv(leg, payerIsA, via, log, n, other)
    requires Kept(leg, payerIsA, via, isA, intent, t)
    requires Propose(if isA == payerIsA then n else other, isA, intent, t, c).Ok?
    ensures isA == payerIsA ==> LegInv(leg, payerIsA, via, log, Propose(n, isA, intent, t, c).value, other)
    ensures isA != payerIsA ==> LegInv(leg, payerIsA, via, log, n, Propose(other, isA, intent, t, c).value)
  {
    ProposePending(if isA == payerIsA then n else other, isA, intent, t, c);
    hide Apply, Propose, Kept, Knows, OwnIntents, Count, LogKept;
  }

  /** The payer learns of the last co-signed state through the proposal it holds. */
  lemma CaughtUp(origin: State, leg: Leg, payerIsA: bool, via: Via, log: seq<Entry>, n: Node, other: Node, n': Node)
    requires Fresh(origin)
    requires PairInv(origin, log, n, other, payerIsA) && LegInv(leg, payerIsA, via, log, n, other)
    requires Caught(log, n, n')
    ensures LegInv(leg, payerIsA, via, log, n', other)
  {
    hide PairInv, LogKept, Count, LegInv, PendingKept, Knows, Kept, OwnIntents, SettleIntent, RefundIntent, Settles;
    NonceRange(origin, log, n, other, payerIsA);
    LastNotSettling(origin, leg, payerIsA, via, log, n, other);
    LegParts(leg, payerIsA, via, log, n, other);
    NothingPendingKept(leg, payerIsA, via, n', payerIsA);
    var m := |log|;
    LogEntryKept(leg, payerIsA, via, log, m - 1);
    assert log[..m] == log && log[..m - 1] + [log[m - 1]] == log;
    KnowsMore(leg, payerIsA, via, log[..m - 1], log[m - 1], n.applied.Keys, log[m - 1].intent);
    assert n'.applied.Keys == n.applied.Keys + {log[m - 1].intent};
    LegWhole(leg, payerIsA, via, log, n', other);
  }

  lemma LegParts(leg: Leg, payerIsA: bool, via: Via, log: seq<Entry>, n: Node, other: Node)
    requires LegInv(leg, payerIsA, via, log, n, other)
    ensures OwnIntents(leg) && LogKept(leg, payerIsA, via, log)
    ensures PendingKept(leg, payerIsA, via, n, payerIsA) && PendingKept(leg, payerIsA, via, other, !payerIsA)
    ensures n.latest.nonce <= |log| && Count(log, leg.intent) <= 1
    ensures Knows(leg, via, log[..n.latest.nonce], n.applied.Keys)
  {
    hide LogKept, PendingKept, Count, Knows, OwnIntents;
  }

  lemma LegWhole(leg: Leg, payerIsA: bool, via: Via, log: seq<Entry>, n: Node, other: Node)
    requires OwnIntents(leg) && LogKept(leg, payerIsA, via, log)
    requires PendingKept(leg, payerIsA, via, n, payerIsA) && PendingKept(leg, payerIsA, via, other, !payerIsA)
    requires n.latest.nonce <= |log| && Count(log, leg.intent) <= 1
    requires Knows(leg, via, log[..n.latest.nonce], n.applied.Keys)
    ensures LegInv(leg, payerIsA, via, log, n, other)
  {
    hide LogKept, PendingKept, Count, Knows, OwnIntents;
  }

  lemma NothingPendingKept(leg: Leg, payerIsA: bool, via: Via, n: Node, isA: bool)
    requires n.pending.None?
    ensures PendingKept(leg, payerIsA, via, n, isA)
  {
    hide Kept;
  }

  /** The record moved on to the end of the history. */
  ghost predicate Caught(log: seq<Entry>, n: Node, n': Node) {
    && n.latest.nonce < |log| && n'.latest.nonce == |log| && n'.pending == None
    && n'.applied == n.applied[log[|log| - 1].intent := |log|]
  }

  /** A lagging node's peer is at the end of the history, where its own proposal led. */
  lemma Lagging(origin: State, log: seq<Entry>, n: Node, other: Node, isA: bool)
    requires PairInv(origin, log, n, other, isA)
    ensures other.latest.nonce <= |log| && n.latest.nonce <= |log| <= n.latest.nonce + 1
    ensures n.latest.nonce < |log| ==>
              && n.pending.Some? && n.pending.value.intent == log[|log| - 1].intent
              && n.pending.value.state.nonce == |log| == other.latest.nonce
    ensures n.latest.nonce == other.latest.nonce ==> n.latest == other.latest
  {
    hide Apply;
  }

  /** What a node's record can turn into when it hears from its peer. */
  lemma HearingEffect(origin: State, log: seq<Entry>, n: Node, other: Node, isA: bool, intent: Term)
    requires PairInv(origin, log, n, other, isA)
    ensures var n' := HandleAccept(n, intent, other.latest).0; n' == n || Caught(log, n, n')
    ensures var n' := HandleResponse(n, other.latest); n' == n || Caught(log, n, n')
  {
    hide PairInv, Prune;
    Lagging(origin, log, n, other, isA);
  }

  /** Hearing from the peer keeps the fragment's record true, whoever hears. */
  lemma Hears(origin: State, leg: Leg, payerIsA: bool, via: Via, log: seq<Entry>, n: Node, other: Node, isA: bool, intent: Term)
    requires Fresh(origin)
    requires PairInv(origin, log, n, other, payerIsA) && LegInv(leg, payerIsA, via, log, n, other)
    ensures isA == payerIsA ==>
              && LegInv(leg, payerIsA, via, log, HandleAccept(n, intent, other.latest).0, other)
              && LegInv(leg, payerIsA, via, log, HandleReject(n, intent), other)
              && LegInv(leg, payerIsA, via, log, HandleResponse(n, other.latest), other)
    ensures isA != payerIsA ==>
              && LegInv(leg, payerIsA, via, log, n, HandleAccept(other, intent, n.latest).0)
              && LegInv(leg, payerIsA, via, log, n, HandleReject(other, intent))
              && LegInv(leg, payerIsA, via, log, n, HandleResponse(other, n.latest))
  {
    PairInvSwap(origin, log, n, other, payerIsA);
    HearingEffect(origin, log, n, other, payerIsA, intent);
    HearingEffect(origin, log, other, n, !payerIsA, intent);
    RejectEffect(n, intent);
    RejectEffect(other, intent);
    hide Apply, HandleAccept, HandleReject, HandleResponse, PairInv, LegInv;
    if isA == payerIsA {
      var n1 := HandleAccept(n, intent, other.latest).0;
      if n1 != n { CaughtUp(origin, leg, payerIsA, via, log, n, other, n1); }
      var n2 := HandleResponse(n, other.latest);
      if n2 != n { CaughtUp(origin, leg, payerIsA, via, log, n, other, n2); }
      DropsPending(leg, payerIsA, via, log, n, other, HandleReject(n, intent));
    } else {
      OtherDrops(leg, payerIsA, via, log, n, other, HandleAccept(other, intent, n.latest).0);
      OtherDrops(leg, payerIsA, via, log, n, other, HandleResponse(other, n.latest));
      OtherDrops(leg, payerIsA, via, log, n, other, HandleReject(other, intent));
    }
  }

  lemma RejectEffect(n: Node, intent: Term)
    ensures HandleReject(n, intent) == n || HandleReject(n, intent) == n.(pending := None)
  {
  }

  lemma DropsPending(leg: Leg, payerIsA: bool, via: Via, log: seq<Entry>, n: Node, other: Node, n': Node)
    requires LegInv(leg, payerIsA, via, log, n, other) && (n' == n || n' == n.(pending := None))
    ensures LegInv(leg, payerIsA, via, log, n', other)
  {
    hide Kept, LogKept, Count, Knows, OwnIntents;
  }

  lemma OtherDrops(leg: Leg, payerIsA: bool, via: Via, log: seq<Entry>, n: Node, other: Node, o': Node)
    requires LegInv(leg, payerIsA, via, log, n, other) && (o'.pending == other.pending || o'.pending == None)
    ensures LegInv(leg, payerIsA, via, log, n, o')
  {
    hide Kept, LogKept, Count, Knows, OwnIntents;
  }

  lemma PairInvSwap(origin: State, log: seq<Entry>, n: Node, other: Node, isA: bool)
    requires PairInv(origin, log, n, other, isA)
    ensures PairInv(origin, log, other, n, !isA)
  {
    hide Apply;
  }

  // ---- runs -----------------------------------------------------------------------------

  ghost predicate LegWorldInv(leg: Leg, payerIsA: bool, via: Via, w: World) {
    LegInv(leg, payerIsA, via, w.log, NodeOf(w.link, payerIsA), NodeOf(w.link, !payerIsA))
  }

  /** The proposal of `isA` reaches the other node, whichever of them is the payer. */
  lemma Delivered(origin: State, leg: Leg, payerIsA: bool, via: Via, log: seq<Entry>, l: Link, isA: bool, c: Clock)
    requires Fresh(origin)
    requires PairInv(origin, log, NodeOf(l, isA), NodeOf(l, !isA), isA)
    requires LegWorldInv(leg, payerIsA, via, World(l, log))
    requires NodeOf(l, isA).pending.Some?
    ensures var p := NodeOf(l, isA).pending.value;
            var peer := HandlePropose(NodeOf(l, !isA), !isA, p, c).0;
            LegWorldInv(leg, payerIsA, via, World(WithNode(l, !isA, peer), Extended(log, p, isA, peer)))
  {
    hide Apply, Kept, HandlePropose, LegInv;
    if isA == payerIsA {
      PeerHandles(origin, leg, payerIsA, via, log, NodeOf(l, isA), NodeOf(l, !isA), c);
    } else {
      PairInvSwap(origin, log, NodeOf(l, isA), NodeOf(l, !isA), isA);
      hide PairInv;
      PayerHandles(origin, leg, payerIsA, via, log, NodeOf(l, !isA), NodeOf(l, isA), c);
    }
  }

  lemma HearsOn(origin: State, leg: Leg, payerIsA: bool, via: Via, log: seq<Entry>, l: Link, isA: bool, intent: Term)
    requires Fresh(origin)
    requires PairInv(origin, log, NodeOf(l, isA), NodeOf(l, !isA), isA)
    requires LegWorldInv(leg, payerIsA, via, World(l, log))
    ensures var n, other := NodeOf(l, isA), NodeOf(l, !isA);
            && LegWorldInv(leg, payerIsA, via, World(WithNode(l, isA, HandleAccept(n, intent, other.latest).0), log))
            && LegWorldInv(leg, payerIsA, via, World(WithNode(l, isA, HandleReject(n, intent)), log))
            && LegWorldInv(leg, payerIsA, via, World(WithNode(l, isA, HandleResponse(n, other.latest)), log))
  {
    hide Apply, Kept, HandleAccept, HandleReject, HandleResponse, LegInv;
    if isA != payerIsA {
      PairInvSwap(origin, log, NodeOf(l, isA), NodeOf(l, !isA), isA);
    }
    hide PairInv;
    Hears(origin, leg, payerIsA, via, log, NodeOf(l, payerIsA), NodeOf(l, !payerIsA), isA, intent);
  }

  lemma PayStepLeg(origin: State, leg: Leg, payerIsA: bool, via: Via, w: World, s: Step)
    requires Fresh(origin)
    requires Inv(origin, w) && LegWorldInv(leg, payerIsA, via, w)
    requires s.PayStep? && StepKept(leg, payerIsA, via, s)
    ensures LegWorldInv(leg, payerIsA, via, StepWorld(w, s))
  {
    hide Apply, PairInv, LegInv, Kept, Propose, HandlePropose, HandleAccept, HandleReject, HandleResponse;
    var PayStep(isA, intent, t, d, mine, theirs) := s;
    var n, other := NodeOf(w.link, isA), NodeOf(w.link, !isA);
    InvFrom(origin, w, isA);
    var proposed := Propose(n, isA, intent, t, mine);
    if !n.conflict && intent !in n.applied && proposed.Ok? {
      var sent := WithNode(w.link, isA, proposed.value);
      ProposeInv(origin, w.log, n, other, isA, intent, t, mine);
      ProposePending(n, isA, intent, t, mine);
      Proposes(leg, payerIsA, via, w.log, NodeOf(w.link, payerIsA), NodeOf(w.link, !payerIsA), isA, intent, t, mine);
      if d != RequestLost {
        var p := proposed.value.pending.value;
        HandledInv(origin, w.log, proposed.value, other, isA, theirs);
        Delivered(origin, leg, payerIsA, via, w.log, sent, isA, theirs);
        NoConflict(origin, w.log, n, other, isA);
        HandleReply(other, !isA, p, theirs);
        var peer := HandlePropose(other, !isA, p, theirs).0;
        HearsOn(origin, leg, payerIsA, via, Extended(w.log, p, isA, peer), WithNode(sent, !isA, peer), isA, intent);
      }
    }
  }

  lemma StepLeg(origin: State, leg: Leg, payerIsA: bool, via: Via, w: World, s: Step)
    requires Fresh(origin)
    requires Inv(origin, w) && LegWorldInv(leg, payerIsA, via, w)
    requires StepKept(leg, payerIsA, via, s)
    ensures LegWorldInv(leg, payerIsA, via, StepWorld(w, s))
  {
    if s.PayStep? {
      PayStepLeg(origin, leg, payerIsA, via, w, s);
    } else {
      hide Apply, PairInv, LegInv, HandlePropose, HandleAccept, HandleReject, HandleResponse;
      InvFrom(origin, w, s.isA);
      if NodeOf(w.link, s.isA).pending.Some? {
        if s.LateStep? { Delivered(origin, leg, payerIsA, via, w.log, w.link, s.isA, s.theirs); }
        HearsOn(origin, leg, payerIsA, via, w.log, w.link, s.isA, leg.intent);
      }
    }
  }

  ghost predicate StepsKept(leg: Leg, payerIsA: bool, via: Via, steps: seq<Step>) {
    forall i :: 0 <= i < |steps| ==> StepKept(leg, payerIsA, via, steps[i])
  }

  /** From any point of a run on, what the payer's record knows of the fragment stays true. */
  lemma {:induction false} RunLegFrom(origin: State, leg: Leg, payerIsA: bool, via: Via, w: World, steps: seq<Step>)
    requires Fresh(origin) && Inv(origin, w) && LegWorldInv(leg, payerIsA, via, w) && StepsKept(leg, payerIsA, via, steps)
    ensures Inv(origin, RunWorld(w, steps)) && LegWorldInv(leg, payerIsA, via, RunWorld(w, steps))
  {
    if steps != [] {
      hide Apply, StepKept, StepWorld, LegWorldInv, Inv;
      var before := RunWorld(w, steps[..|steps| - 1]);
      RunLegFrom(origin, leg, payerIsA, via, w, steps[..|steps| - 1]);
      StepInv(origin, before, steps[|steps| - 1]);
      StepLeg(origin, leg, payerIsA, via, before, steps[|steps| - 1]);
    }
  }

  lemma RunLeg(origin: State, leg: Leg, payerIsA: bool, via: Via, steps: seq<Step>)
    requires Fresh(origin) && OwnIntents(leg) && StepsKept(leg, payerIsA, via, steps) && !via.Missed?
    ensures LegWorldInv(leg, payerIsA, via, RunWorld(World(Open(origin), []), steps))
  {
    OpenInv(origin);
    OpenLeg(origin, leg, payerIsA, via);
    hide StepKept, LegWorldInv, Inv, RunWorld, OwnIntents;
    RunLegFrom(origin, leg, payerIsA, via, World(Open(origin), []), steps);
  }

  lemma OpenLeg(origin: State, leg: Leg, payerIsA: bool, via: Via)
    requires Fresh(origin) && OwnIntents(leg) && !via.Missed?
    ensures LegWorldInv(leg, payerIsA, via, World(Open(origin), []))
  {
    hide Kept, SettleIntent, RefundIntent;
  }

  /** A payer whose record has taken the settlement in, and does not count it, has missed it. */
  lemma NowMissed(leg: Leg, payerIsA: bool, w: World)
    requires LegWorldInv(leg, payerIsA, Anyhow, w)
    requires var n := NodeOf(w.link, payerIsA);
             Settlements(w.log[..n.latest.nonce], leg) >= 1 && SettleIntent(leg.intent) !in n.applied
    ensures LegWorldInv(leg, payerIsA, Missed, w)
  {
    hide Count, Settlements, SettleIntent, RefundIntent;
  }

  // ---- what the co-signed history means for the money --------------------------------------

  lemma ValidPrefix(origin: State, log: seq<Entry>, k: nat)
    requires ValidLog(origin, log) && k <= |log|
    ensures ValidLog(origin, log[..k])
    ensures At(origin, log[..k], k) == At(origin, log, k)
  {
    hide Apply;
    var pre := log[..k];
    forall i | 0 <= i < k
      ensures pre[i].state.nonce == i + 1
      ensures Apply(At(origin, pre, i), pre[i].tr, pre[i].byA) == Ok(pre[i].state)
    {
      assert At(origin, pre, i) == At(origin, log, i);
    }
  }

  /** What the recipient's balance gained from the co-signed settlements of a fragment. */
  ghost function Received(origin: State, log: seq<Entry>, leg: Leg, payerIsA: bool): int {
    if log == [] then 0
    else
      var m := |log|;
      Received(origin, log[..m - 1], leg, payerIsA)
      + if Settles(leg, log[m - 1].tr)
        then BalanceOf(log[m - 1].state, !payerIsA) - BalanceOf(At(origin, log, m - 1), !payerIsA)
        else 0
  }

  /** The lock is pending exactly while it has been added and not resolved, with the
      fragment's own terms; and every settlement hands the recipient its amount. */
  lemma {:induction false} LockLedger(origin: State, leg: Leg, payerIsA: bool, via: Via, log: seq<Entry>)
    requires ValidLog(origin, log) && LogKept(leg, payerIsA, via, log)
    requires OwnIntents(leg) && leg.lockId !in origin.pending
    ensures var live := At(origin, log, |log|).pending;
            && Count(log, leg.intent) - Settlements(log, leg) - Count(log, RefundIntent(leg.intent))
               == (if leg.lockId in live then 1 else 0)
            && (leg.lockId in live ==> live[leg.lockId] == Lock(leg.hash, leg.amount, leg.expiry, payerIsA))
            && Received(origin, log, leg, payerIsA) == Settlements(log, leg) * leg.amount
  {
    hide Apply, Kept, ValidLog, BalanceOf, SettleIntent, RefundIntent, Count, Settlements, Settles, Received, LogKept, OwnIntents;
    if log == [] {
      LedgerStart(origin, leg, payerIsA);
    } else {
      var m := |log|;
      var pre, e := log[..m - 1], log[m - 1];
      ValidPrefix(origin, log, m - 1);
      KeptPrefix(leg, payerIsA, via, log);
      LockLedger(origin, leg, payerIsA, via, pre);
      LogStep(origin, log, m - 1);
      LedgerStep(At(origin, log, m - 1), leg, payerIsA, via, e);
      LedgerUnfold(origin, log, leg, payerIsA);
      var c := Settlements(pre, leg);
      assert (c + 1) * leg.amount == c * leg.amount + leg.amount;
    }
  }

  lemma LedgerStart(origin: State, leg: Leg, payerIsA: bool)
    ensures Received(origin, [], leg, payerIsA) == 0 && Settlements([], leg) == 0 && forall x :: Count([], x) == 0
    ensures At(origin, [], 0) == origin
  {
  }

  lemma KeptPrefix(leg: Leg, payerIsA: bool, via: Via, log: seq<Entry>)
    requires LogKept(leg, payerIsA, via, log) && log != []
    ensures LogKept(leg, payerIsA, via, log[..|log| - 1])
    ensures var e := log[|log| - 1]; Kept(leg, payerIsA, via, e.byA, e.intent, e.tr)
  {
    hide Kept;
  }

  lemma LedgerUnfold(origin: State, log: seq<Entry>, leg: Leg, payerIsA: bool)
    requires log != []
    ensures var pre, e := log[..|log| - 1], log[|log| - 1];
            && (forall x :: Count(log, x) == Count(pre, x) + (if e.intent == x then 1 else 0))
            && Settlements(log, leg) == Settlements(pre, leg) + (if Settles(leg, e.tr) then 1 else 0)
            && Received(origin, log, leg, payerIsA)
               == Received(origin, pre, leg, payerIsA)
                  + (if Settles(leg, e.tr)
                     then BalanceOf(e.state, !payerIsA) - BalanceOf(At(origin, log, |log| - 1), !payerIsA) else 0)
  {
    hide BalanceOf, Settles;
  }

  lemma LedgerStep(before: State, leg: Leg, payerIsA: bool, via: Via, e: Entry)
    requires Apply(before, e.tr, e.byA) == Ok(e.state)
    requires Kept(leg, payerIsA, via, e.byA, e.intent, e.tr) && OwnIntents(leg)
    requires leg.lockId in before.pending ==>
               before.pending[leg.lockId] == Lock(leg.hash, leg.amount, leg.expiry, payerIsA)
    ensures leg.lockId in e.state.pending ==>
              e.state.pending[leg.lockId] == Lock(leg.hash, leg.amount, leg.expiry, payerIsA)
    ensures e.intent == leg.intent ==>
              leg.lockId !in before.pending && leg.lockId in e.state.pending && !Settles(leg, e.tr)
    ensures Settles(leg, e.tr) ==>
              && leg.lockId in before.pending && leg.lockId !in e.state.pending
              && e.intent != RefundIntent(leg.intent)
              && BalanceOf(e.state, !payerIsA) == BalanceOf(before, !payerIsA) + leg.amount
    ensures e.intent == RefundIntent(leg.intent) ==>
              leg.lockId in before.pending && leg.lockId !in e.state.pending && e.intent != leg.intent
    ensures e.intent != leg.intent && e.intent != RefundIntent(leg.intent) && !Settles(leg, e.tr) ==>
              ((leg.lockId in e.state.pending) == (leg.lockId in before.pending))
  {
    hide SettleIntent, RefundIntent;
    ApplyTouchesOwnLock(before, e.tr, e.byA, leg.lockId);
  }

  // ---- the executor's own proposals respect every fragment --------------------------------------

  lemma OwnProposalsKept(leg: Leg, payerIsA: bool, via: Via, intent: Term, t: Transition)
    requires ProposedFor(leg, intent, t)
    requires intent == SettleIntent(leg.intent) ==> !via.OtherIntent?
    ensures Kept(leg, payerIsA, via, payerIsA, intent, t)
  {
    hide SettleIntent, RefundIntent;
  }

  /** Two fragments that differ in payment, position, channel or amount never touch
      each other: whoever drives one, on whichever side, respects the other. */
  lemma OtherFragmentKept(s1: Term, p1: Term, i1: nat, c1: Term, a1: int, e1: int,
                          s2: Term, p2: Term, i2: nat, c2: Term, a2: int, e2: int,
                          payerIsA: bool, via: Via, isA: bool, intent: Term, t: Transition)
    requires a1 > 0 && a2 > 0 && i1 < Pow256(32) && i2 < Pow256(32)
    requires (p1, i1, c1, a1) != (p2, i2, c2, a2)
    requires ProposedFor(LegOf(p1, s1, i1, c1, a1, e1), intent, t)
    ensures Kept(LegOf(p2, s2, i2, c2, a2, e2), payerIsA, via, isA, intent, t)
  {
    hide FragmentIntent, SettleIntent, RefundIntent, LockIdOf, FragmentHash, Kept, ProposedFor, Pow256;
    var x1, x2 := FragmentIntent(p1, i1, c1, a1), FragmentIntent(p2, i2, c2, a2);
    if x1 == x2 {
      FragmentIntentIdentifies(p1, i1, c1, a1, p2, i2, c2, a2);
    }
    PurposesDistinct(x1, x2);
    FragmentDomain(p1, i1, c1, a1, x2);
    FragmentDomain(p2, i2, c2, a2, x1);
    ApartKept(LegOf(p1, s1, i1, c1, a1, e1), LegOf(p2, s2, i2, c2, a2, e2), payerIsA, via, isA, intent, t);
  }

  /** Fragments without an intent or a lock in common never touch each other. */
  lemma ApartKept(l1: Leg, l2: Leg, payerIsA: bool, via: Via, isA: bool, intent: Term, t: Transition)
    requires {l1.intent, SettleIntent(l1.intent), RefundIntent(l1.intent)} !! {l2.intent, SettleIntent(l2.intent), RefundIntent(l2.intent)}
    requires l1.lockId != l2.lockId && ProposedFor(l1, intent, t)
    ensures Kept(l2, payerIsA, via, isA, intent, t)
  {
    hide SettleIntent, RefundIntent, Allows;
    var ours := {l1.intent, SettleIntent(l1.intent), RefundIntent(l1.intent)};
    assert intent in ours;
  }

  lemma PurposesDistinct(x1: Term, x2: Term)
    ensures SettleIntent(x1) != RefundIntent(x2) && RefundIntent(x1) != SettleIntent(x2)
    ensures x1 != x2 ==> && SettleIntent(x1) != SettleIntent(x2) && RefundIntent(x1) != RefundIntent(x2)
                         && LockIdOf(x1) != LockIdOf(x2)
  {
    assert "rabbiit/multipath/settle/v1"[18] != "rabbiit/multipath/refund/v1"[18];
    assert [x1][0] == x1 && [x2][0] == x2;
  }

  lemma FragmentDomain(p: Term, i: nat, c: Term, a: int, x: Term)
    ensures FragmentIntent(p, i, c, a) != SettleIntent(x) && FragmentIntent(p, i, c, a) != RefundIntent(x)
  {
    assert "rabbiit/multipath/intent/v1"[18] != "rabbiit/multipath/settle/v1"[18];
    assert "rabbiit/multipath/intent/v1"[18] != "rabbiit/multipath/refund/v1"[18];
  }
}
