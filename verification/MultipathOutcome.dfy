/** What the executor reports about a payment, and what really happened to it. */
module MultipathOutcome {
  import opened Common
  import opened Symbols
  import opened ChannelState
  import opened Protocol
  import opened Agreement
  import opened MultipathPayment
  import opened MultipathSafety

  datatype LegState = LegState(index: nat, locked: bool, settled: bool, refunded: bool)

  predicate Terminal(s: LegState) {
    s.settled || s.refunded
  }

  /** Nothing is stored: the payer's record of the channel is asked about three intents. */
  function StatusOf(n: Node, leg: Leg): LegState {
    LegState(leg.index, leg.intent in n.applied,
             SettleIntent(leg.intent) in n.applied,
             RefundIntent(leg.intent) in n.applied)
  }

  datatype Outcome = Outcome(locked: nat, settled: nat, refunded: nat, pending: nat,
                             settledAmount: int, legs: seq<LegState>)

  /** The value of the fragments the payer's records confirm settled. */
  function ConfirmedAmount(legs: seq<Leg>, payers: seq<Node>): int
    requires |legs| == |payers|
  {
    if legs == [] then 0
    else
      var k := |legs| - 1;
      ConfirmedAmount(legs[..k], payers[..k])
      + if StatusOf(payers[k], legs[k]).settled then legs[k].amount else 0
  }

  /** How many legs of a report are in a given place: settled, refunded, locked only, or none. */
  datatype Place = InSettled | InRefunded | InLocked | InPending

  function PlaceOf(s: LegState): Place {
    if s.settled then InSettled else if s.refunded then InRefunded else if s.locked then InLocked else InPending
  }

  function Tally(legs: seq<LegState>, p: Place): nat {
    if legs == [] then 0 else Tally(legs[..|legs| - 1], p) + if PlaceOf(legs[|legs| - 1]) == p then 1 else 0
  }

  method Summarise(legs: seq<Leg>, payers: seq<Node>) returns (o: Outcome)
    requires |legs| == |payers|
    ensures o.legs == seq(|legs|, i requires 0 <= i < |legs| => StatusOf(payers[i], legs[i]))
    ensures o.settledAmount == ConfirmedAmount(legs, payers)
    ensures o.settled == Tally(o.legs, InSettled) && o.refunded == Tally(o.legs, InRefunded)
    ensures o.locked == Tally(o.legs, InLocked) && o.pending == Tally(o.legs, InPending)
    ensures o.locked + o.settled + o.refunded + o.pending == |legs|
    ensures o.settled == |legs| <==> forall i :: 0 <= i < |legs| ==> StatusOf(payers[i], legs[i]).settled
  {
    hide StatusOf, Tally, ConfirmedAmount, PlaceOf;
    var statuses: seq<LegState> := [];
    var locked, settled, refunded, pending, amount := 0, 0, 0, 0, 0;
    NothingYet();
    for i := 0 to |legs|
      invariant |statuses| == i
      invariant forall j :: 0 <= j < i ==> statuses[j] == StatusOf(payers[j], legs[j])
      invariant amount == ConfirmedAmount(legs[..i], payers[..i])
      invariant settled == Tally(statuses, InSettled) && refunded == Tally(statuses, InRefunded)
      invariant locked == Tally(statuses, InLocked) && pending == Tally(statuses, InPending)
      invariant locked + settled + refunded + pending == i
    {
      var st := StatusOf(payers[i], legs[i]);
      TallyMore(statuses, st);
      AmountMore(legs, payers, i);
      statuses := statuses + [st];
      if st.settled {
        settled := settled + 1;
        amount := amount + legs[i].amount;
      } else if st.refunded {
        refunded := refunded + 1;
      } else if st.locked {
        locked := locked + 1;
      } else {
        pending := pending + 1;
      }
    }
    assert legs[..|legs|] == legs && payers[..|legs|] == payers;
    AllSettledTally(statuses);
    return Outcome(locked, settled, refunded, pending, amount, statuses);
  }

  lemma NothingYet()
    ensures ConfirmedAmount([], []) == 0 && forall p :: Tally([], p) == 0
  {
  }

  lemma TallyMore(legs: seq<LegState>, s: LegState)
    ensures forall p :: Tally(legs + [s], p) == Tally(legs, p) + if PlaceOf(s) == p then 1 else 0
    ensures PlaceOf(s) == if s.settled then InSettled else if s.refunded then InRefunded else if s.locked then InLocked else InPending
  {
    assert (legs + [s])[..|legs|] == legs;
  }

  lemma AmountMore(legs: seq<Leg>, payers: seq<Node>, i: nat)
    requires i < |legs| == |payers|
    ensures ConfirmedAmount(legs[..i + 1], payers[..i + 1])
            == ConfirmedAmount(legs[..i], payers[..i]) + if StatusOf(payers[i], legs[i]).settled then legs[i].amount else 0
  {
    assert legs[..i + 1][..i] == legs[..i] && payers[..i + 1][..i] == payers[..i];
  }

  lemma {:induction false} AllSettledTally(legs: seq<LegState>)
    ensures Tally(legs, InSettled) <= |legs|
    ensures Tally(legs, InSettled) == |legs| <==> forall i :: 0 <= i < |legs| ==> legs[i].settled
  {
    if legs != [] {
      AllSettledTally(legs[..|legs| - 1]);
    }
  }

  predicate Complete(o: Outcome, pay: Payment) {
    o.settled == |pay.legs| && o.settledAmount == pay.total
  }

  // ---- one fragment, over any run -----------------------------------------------------

  /** A channel, the payer's side of it, and everything that ever happened on it. */
  datatype Trace = Trace(origin: State, payerIsA: bool, steps: seq<Step>)

  ghost function WorldOf(t: Trace): World {
    RunWorld(World(Open(t.origin), []), t.steps)
  }

  ghost function PayerOf(t: Trace): Node {
    NodeOf(WorldOf(t).link, t.payerIsA)
  }

  /** The run of one channel leaves the fragment to the payer, except that anyone may
      settle its lock with the preimage that opens it. */
  ghost predicate Carries(t: Trace, leg: Leg) {
    Fresh(t.origin) && OwnIntents(leg) && StepsKept(leg, t.payerIsA, Anyhow, t.steps)
  }

  /** Whoever proposes to settle the fragment's lock does so under its settling intent. */
  ghost predicate UnderOwnIntent(t: Trace, leg: Leg) {
    StepsKept(leg, t.payerIsA, OwnIntent, t.steps)
  }

  /** Nobody proposes to settle the lock under that intent. */
  ghost predicate UnderOthers(t: Trace, leg: Leg) {
    StepsKept(leg, t.payerIsA, OtherIntent, t.steps)
  }

  ghost predicate UpToDate(t: Trace) {
    PayerOf(t).latest.nonce == |WorldOf(t).log|
  }

  ghost function Added(t: Trace, leg: Leg): nat {
    Count(WorldOf(t).log, leg.intent)
  }

  ghost function Settled(t: Trace, leg: Leg): nat {
    Settlements(WorldOf(t).log, leg)
  }

  ghost function Refunded(t: Trace, leg: Leg): nat {
    Count(WorldOf(t).log, RefundIntent(leg.intent))
  }

  ghost function ReceivedOn(t: Trace, leg: Leg): int {
    Received(t.origin, WorldOf(t).log, leg, t.payerIsA)
  }

  lemma CountMonotone(log: seq<Entry>, k: nat, x: Term)
    requires k <= |log|
    ensures Count(log[..k], x) <= Count(log, x)
    decreases |log|
  {
    if k < |log| {
      var pre := log[..|log| - 1];
      assert log[..k] == pre[..k];
      CountMonotone(pre, k, x);
    } else {
      assert log[..k] == log;
    }
  }

  lemma SettlementsMonotone(log: seq<Entry>, k: nat, leg: Leg)
    requires k <= |log|
    ensures Settlements(log[..k], leg) <= Settlements(log, leg)
    decreases |log|
  {
    if k < |log| {
      var pre := log[..|log| - 1];
      assert log[..k] == pre[..k];
      SettlementsMonotone(pre, k, leg);
    } else {
      assert log[..k] == log;
    }
  }

  /** The payer's record answers for the part of the history it knows. */
  lemma StatusMeans(leg: Leg, payerIsA: bool, via: Via, log: seq<Entry>, n: Node, other: Node)
    requires LegInv(leg, payerIsA, via, log, n, other)
    ensures Count(log, leg.intent) <= 1
    ensures var st, known := StatusOf(n, leg), log[..n.latest.nonce];
            && (st.locked <==> Count(known, leg.intent) >= 1)
            && (st.refunded <==> Count(known, RefundIntent(leg.intent)) >= 1)
            && (st.settled ==> Settlements(known, leg) >= 1 && !via.OtherIntent? && !via.Missed?)
            && (via.OwnIntent? && Settlements(known, leg) >= 1 ==> st.settled)
  {
    hide Kept, LogKept, SettleIntent, RefundIntent, Count, Settlements, OwnIntents;
  }

  /** Over every run: the lock is placed at most once and resolved at most once, the
      recipient gains the amount exactly when it is settled, and the payer's record
      confirms only what was co-signed. Once that record is up to date it knows whether
      the lock was placed, refunded or is still pending. */
  lemma LegSafety(t: Trace, leg: Leg)
    requires Carries(t, leg)
    ensures Added(t, leg) <= 1
    ensures Settled(t, leg) + Refunded(t, leg) <= Added(t, leg)
    ensures ReceivedOn(t, leg) == (if Settled(t, leg) == 1 then leg.amount else 0)
    ensures var st := StatusOf(PayerOf(t), leg);
            && (st.locked ==> Added(t, leg) == 1)
            && (st.settled ==> Settled(t, leg) == 1)
            && (st.refunded ==> Refunded(t, leg) == 1)
            && (UpToDate(t) ==>
                  && (Added(t, leg) == 1 ==> st.locked)
                  && (Refunded(t, leg) == 1 ==> st.refunded)
                  && (leg.lockId in PayerOf(t).latest.pending <==>
                        Added(t, leg) == 1 && Settled(t, leg) == 0 && Refunded(t, leg) == 0))
  {
    hide Apply, StepsKept, Received, RunWorld, NodeInv, StatusOf, Count, Settlements, SettleIntent, RefundIntent,
         LegInv, ValidLog, LogKept, OwnIntents;
    var w := WorldOf(t);
    RunInv(t.origin, t.steps);
    RunLeg(t.origin, leg, t.payerIsA, Anyhow, t.steps);
    LegLog(leg, t.payerIsA, Anyhow, w);
    LockLedger(t.origin, leg, t.payerIsA, Anyhow, w.log);
    StatusMeans(leg, t.payerIsA, Anyhow, w.log, PayerOf(t), NodeOf(w.link, !t.payerIsA));
    var k := PayerOf(t).latest.nonce;
    InvFrom(t.origin, w, t.payerIsA);
    NonceRange(t.origin, w.log, PayerOf(t), NodeOf(w.link, !t.payerIsA), t.payerIsA);
    assert w.log[..|w.log|] == w.log;
    CountMonotone(w.log, k, leg.intent);
    SettlementsMonotone(w.log, k, leg);
    CountMonotone(w.log, k, RefundIntent(leg.intent));
    if k == |w.log| {
      LatestIsLast(t.origin, w, t.payerIsA);
    }
  }

  /** Settled under its own settling intent, by whichever party, a fragment counts as settled
      once the payer's record is up to date. Settled under any other, it does not count at
      any point of any run. */
  lemma CountedByIntent(t: Trace, leg: Leg)
    requires Carries(t, leg)
    ensures UnderOwnIntent(t, leg) && UpToDate(t) && Settled(t, leg) == 1 ==> StatusOf(PayerOf(t), leg).settled
    ensures UnderOthers(t, leg) ==> !StatusOf(PayerOf(t), leg).settled
  {
    hide Apply, StepsKept, RunWorld, StatusOf, Settlements, SettleIntent, RefundIntent, LegInv, LogKept, OwnIntents;
    var w := WorldOf(t);
    assert w.log[..|w.log|] == w.log;
    if UnderOwnIntent(t, leg) {
      RunLeg(t.origin, leg, t.payerIsA, OwnIntent, t.steps);
      StatusMeans(leg, t.payerIsA, OwnIntent, w.log, PayerOf(t), NodeOf(w.link, !t.payerIsA));
    }
    if UnderOthers(t, leg) {
      RunLeg(t.origin, leg, t.payerIsA, OtherIntent, t.steps);
      StatusMeans(leg, t.payerIsA, OtherIntent, w.log, PayerOf(t), NodeOf(w.link, !t.payerIsA));
    }
  }

  // ---- a settlement the payer does not count -------------------------------------------------

  /** The payer's own record shows it: the lock went on, was not refunded, is gone from its
      latest state, and does not count as settled. */
  predicate Overlooked(n: Node, leg: Leg) {
    var st := StatusOf(n, leg);
    st.locked && !st.refunded && !st.settled && leg.lockId !in n.latest.pending
  }

  lemma {:induction false} RunWorldSplit(w: World, a: seq<Step>, b: seq<Step>)
    ensures RunWorld(w, a + b) == RunWorld(RunWorld(w, a), b)
    decreases |b|
  {
    if b == [] {
      assert a + b == a;
    } else {
      hide StepWorld;
      assert (a + b)[..|a + b| - 1] == a + b[..|b| - 1];
      RunWorldSplit(w, a, b[..|b| - 1]);
    }
  }

  ghost function Later(t: Trace, more: seq<Step>): Trace {
    t.(steps := t.steps + more)
  }

  lemma KnownLog(origin: State, w: World, isA: bool)
    requires Inv(origin, w)
    ensures var n := NodeOf(w.link, isA);
            && n.latest.nonce <= |w.log| && ValidLog(origin, w.log)
            && n.latest == At(origin, w.log, n.latest.nonce)
  {
    hide Apply, ValidLog;
  }

  lemma LogKeptPrefix(leg: Leg, payerIsA: bool, via: Via, log: seq<Entry>, k: nat)
    requires LogKept(leg, payerIsA, via, log) && k <= |log|
    ensures LogKept(leg, payerIsA, via, log[..k])
  {
    hide Kept;
  }

  /** A record that shows this has taken the settlement in. */
  lemma OverlookedWasSettled(t: Trace, leg: Leg)
    requires Carries(t, leg) && Overlooked(PayerOf(t), leg)
    ensures LegWorldInv(leg, t.payerIsA, Missed, WorldOf(t)) && Inv(t.origin, WorldOf(t))
    ensures Settled(t, leg) == 1
  {
    hide Apply, StepsKept, RunWorld, NodeInv, Count, Settlements, SettleIntent, RefundIntent, LegInv, ValidLog, LogKept,
         OwnIntents, Received, Inv;
    var w := WorldOf(t);
    var n := PayerOf(t);
    RunInv(t.origin, t.steps);
    RunLeg(t.origin, leg, t.payerIsA, Anyhow, t.steps);
    LegLog(leg, t.payerIsA, Anyhow, w);
    KnownLog(t.origin, w, t.payerIsA);
    var k := n.latest.nonce;
    ValidPrefix(t.origin, w.log, k);
    LogKeptPrefix(leg, t.payerIsA, Anyhow, w.log, k);
    LockLedger(t.origin, leg, t.payerIsA, Anyhow, w.log[..k]);
    StatusMeans(leg, t.payerIsA, Anyhow, w.log, n, NodeOf(w.link, !t.payerIsA));
    NowMissed(leg, t.payerIsA, w);
    LegSafety(t, leg);
    SettlementsMonotone(w.log, k, leg);
  }

  lemma MissedKept(leg: Leg, payerIsA: bool, steps: seq<Step>)
    requires StepsKept(leg, payerIsA, Anyhow, steps)
    ensures StepsKept(leg, payerIsA, Missed, steps)
  {
    hide ProposedFor;
    forall i | 0 <= i < |steps| ensures StepKept(leg, payerIsA, Missed, steps[i]) {
      assert StepKept(leg, payerIsA, Anyhow, steps[i]);
    }
  }

  /** From then on, whatever either party does, it never counts as settled. */
  lemma OverlookedForGood(t: Trace, leg: Leg, more: seq<Step>)
    requires Carries(t, leg) && Overlooked(PayerOf(t), leg)
    requires StepsKept(leg, t.payerIsA, Anyhow, more)
    ensures !StatusOf(PayerOf(Later(t, more)), leg).settled
  {
    hide Apply, StepsKept, RunWorld, NodeInv, Count, Settlements, SettleIntent, RefundIntent, LegInv, ValidLog, LogKept,
         OwnIntents, Inv, StatusOf;
    OverlookedWasSettled(t, leg);
    MissedKept(leg, t.payerIsA, more);
    RunLegFrom(t.origin, leg, t.payerIsA, Missed, WorldOf(t), more);
    RunWorldSplit(World(Open(t.origin), []), t.steps, more);
    var w := WorldOf(Later(t, more));
    StatusMeans(leg, t.payerIsA, Missed, w.log, NodeOf(w.link, t.payerIsA), NodeOf(w.link, !t.payerIsA));
  }

  lemma LatestIsLast(origin: State, w: World, isA: bool)
    requires Inv(origin, w) && NodeOf(w.link, isA).latest.nonce == |w.log|
    ensures NodeOf(w.link, isA).latest == At(origin, w.log, |w.log|)
  {
    hide Apply, ValidLog;
  }

  lemma LegLog(leg: Leg, payerIsA: bool, via: Via, w: World)
    requires LegWorldInv(leg, payerIsA, via, w)
    ensures LogKept(leg, payerIsA, via, w.log)
  {
    hide Kept;
  }

  /** Two records with the same contents and nothing outstanding. */
  function Both(s: State, applied: map<Term, nat>): Link {
    Link(Node(s, applied, map[], None, false), Node(s, applied, map[], None, false))
  }

  /** On such a channel an answered proposal is co-signed by both and recorded under its intent. */
  lemma AnsweredOnBoth(w: World, s: State, applied: map<Term, nat>, isA: bool, x: Term, t: Transition, c: Clock)
    requires w.link == Both(s, applied) && |w.log| == s.nonce && x !in applied
    requires Apply(s, t, isA).Ok? && TimingRefusal(s, t, c).None?
    ensures var next := Apply(s, t, isA).value;
            && next.nonce == s.nonce + 1
            && StepWorld(w, PayStep(isA, x, t, Answered, c, c))
               == World(Both(next, applied[x := next.nonce]), w.log + [Entry(x, t, isA, next)])
  {
    ApplyNonce(s, t, isA);
    hide Apply, TimingRefusal;
    var next := Apply(s, t, isA).value;
    assert Prune(map[next.nonce := next], s.nonce) == map[next.nonce := next];
    assert Prune(map[next.nonce := next], next.nonce) == map[];
    assert Prune(map[], next.nonce) == map[];
  }

  /** The recipient settles under an intent of its own, as a hub's claim sweep does: it is
      paid and the payer's record is up to date. Settling the fragment under its own intent
      is refused, and whatever is tried later, it never counts as settled. */
  lemma SettledElsewhere(origin: State, leg: Leg, payerIsA: bool, x: Term, secret: Term, c: Clock, d: Delivery,
                         more: seq<Step>)
    requires Fresh(origin) && OwnIntents(leg) && 0 < leg.amount <= BalanceOf(origin, payerIsA)
    requires leg.hash == Keccak(secret) && 0 < leg.expiry && c.now + c.minLockWindow <= leg.expiry
    requires !SettleTooLate(leg.expiry, c)
    requires x != leg.intent && x != SettleIntent(leg.intent) && x != RefundIntent(leg.intent)
    requires StepsKept(leg, payerIsA, Anyhow, more)
    ensures var claim := LockSettle(leg.lockId, secret);
            var t := Trace(origin, payerIsA,
                           [PayStep(payerIsA, leg.intent, LockAdd(leg.lockId, leg.hash, leg.amount, leg.expiry), Answered, c, c),
                            PayStep(!payerIsA, x, claim, Answered, c, c)]);
            && Carries(t, leg) && UpToDate(t)
            && ReceivedOn(t, leg) == leg.amount && Overlooked(PayerOf(t), leg)
            && PayOn(WorldOf(t).link, payerIsA, SettleIntent(leg.intent), claim, d, c, c)
               == (WorldOf(t).link, LocalRefusal(Invalid(NoSuchLock)))
            && !StatusOf(PayerOf(Later(t, more)), leg).settled
  {
    hide SettleIntent, RefundIntent, StepWorld, Received, StatusOf;
    var add, claim := LockAdd(leg.lockId, leg.hash, leg.amount, leg.expiry), LockSettle(leg.lockId, secret);
    var first, second := PayStep(payerIsA, leg.intent, add, Answered, c, c), PayStep(!payerIsA, x, claim, Answered, c, c);
    var t := Trace(origin, payerIsA, [first, second]);
    var s1 := Apply(origin, add, payerIsA).value;
    var s2 := Apply(s1, claim, !payerIsA).value;
    var w0 := World(Open(origin), []);
    var w1, w2 := StepWorld(w0, first), StepWorld(StepWorld(w0, first), second);
    AnsweredOnBoth(w0, origin, map[], payerIsA, leg.intent, add, c);
    AnsweredOnBoth(w1, s1, map[leg.intent := 1], !payerIsA, x, claim, c);
    assert [first, second][..1] == [first] && [first][..0] == [];
    assert RunWorld(w0, [first]) == StepWorld(RunWorld(w0, []), first);
    assert WorldOf(t) == w2;
    assert w2.log == [Entry(leg.intent, add, payerIsA, s1), Entry(x, claim, !payerIsA, s2)];
    assert Settled(t, leg) >= 1 by { SettlementsAppend(w1.log, Entry(x, claim, !payerIsA, s2), leg); }
    LegSafety(t, leg);
    assert Overlooked(PayerOf(t), leg) by { StatusParts(PayerOf(t), leg); }
    OverlookedForGood(t, leg, more);
  }

  lemma StatusParts(n: Node, leg: Leg)
    ensures StatusOf(n, leg).locked <==> leg.intent in n.applied
    ensures StatusOf(n, leg).settled <==> SettleIntent(leg.intent) in n.applied
    ensures StatusOf(n, leg).refunded <==> RefundIntent(leg.intent) in n.applied
  {
    hide SettleIntent, RefundIntent;
  }

  // ---- the whole payment ------------------------------------------------------------

  ghost function TotalReceived(traces: seq<Trace>, legs: seq<Leg>): int
    requires |traces| == |legs|
  {
    if legs == [] then 0
    else
      var k := |legs| - 1;
      TotalReceived(traces[..k], legs[..k]) + ReceivedOn(traces[k], legs[k])
  }

  ghost function TotalAmount(legs: seq<Leg>): int {
    if legs == [] then 0 else TotalAmount(legs[..|legs| - 1]) + legs[|legs| - 1].amount
  }

  /** Each fragment travels its own channel, over any run of that channel. */
  ghost predicate AllCarry(traces: seq<Trace>, legs: seq<Leg>) {
    && |traces| == |legs|
    && forall i :: 0 <= i < |legs| ==> Carries(traces[i], legs[i]) && legs[i].amount > 0
  }

  ghost predicate AllSettled(traces: seq<Trace>, legs: seq<Leg>)
    requires |traces| == |legs|
  {
    forall i :: 0 <= i < |legs| ==> Settled(traces[i], legs[i]) == 1
  }

  /** Every settlement that was co-signed has reached the payer's own record. */
  ghost predicate NothingUnheard(traces: seq<Trace>, legs: seq<Leg>)
    requires |traces| == |legs|
  {
    forall i :: 0 <= i < |legs| && Settled(traces[i], legs[i]) == 1 ==> StatusOf(PayerOf(traces[i]), legs[i]).settled
  }

  /** Every payer's record is up to date, and every fragment is settled either under its
      own settling intent only or never under it. */
  ghost predicate AllHeard(traces: seq<Trace>, legs: seq<Leg>)
    requires |traces| == |legs|
  {
    forall i :: 0 <= i < |legs| ==>
      UpToDate(traces[i]) && (UnderOwnIntent(traces[i], legs[i]) || UnderOthers(traces[i], legs[i]))
  }

  ghost predicate AllOwn(traces: seq<Trace>, legs: seq<Leg>)
    requires |traces| == |legs|
  {
    forall i :: 0 <= i < |legs| ==> UnderOwnIntent(traces[i], legs[i])
  }

  /** Settlements under the fragments' own intents, by whichever party, have all been heard
      of once the payer's records are up to date. */
  lemma OwnSettlementsHeard(traces: seq<Trace>, legs: seq<Leg>)
    requires AllCarry(traces, legs) && AllOwn(traces, legs)
    requires forall i :: 0 <= i < |legs| ==> UpToDate(traces[i])
    ensures NothingUnheard(traces, legs)
  {
    hide Carries, UnderOwnIntent, UnderOthers, UpToDate, Settled, StatusOf, PayerOf;
    forall i | 0 <= i < |legs| && Settled(traces[i], legs[i]) == 1
      ensures StatusOf(PayerOf(traces[i]), legs[i]).settled
    {
      CountedByIntent(traces[i], legs[i]);
    }
  }

  ghost function Payers(traces: seq<Trace>): (ns: seq<Node>)
    ensures |ns| == |traces|
    ensures forall i :: 0 <= i < |traces| ==> ns[i] == PayerOf(traces[i])
  {
    seq(|traces|, i requires 0 <= i < |traces| => PayerOf(traces[i]))
  }

  lemma LegMoney(t: Trace, leg: Leg)
    requires Carries(t, leg) && leg.amount > 0
    ensures var confirmed := if StatusOf(PayerOf(t), leg).settled then leg.amount else 0;
            && 0 <= confirmed <= ReceivedOn(t, leg) <= leg.amount
            && (ReceivedOn(t, leg) == leg.amount <==> Settled(t, leg) == 1)
            && (confirmed == ReceivedOn(t, leg) <==> (Settled(t, leg) == 1 ==> StatusOf(PayerOf(t), leg).settled))
  {
    hide Carries, ReceivedOn, StatusOf, Settled, Refunded, Added, PayerOf;
    LegSafety(t, leg);
  }

  lemma SplitLast(traces: seq<Trace>, legs: seq<Leg>)
    requires |traces| == |legs| > 0
    ensures var k := |legs| - 1;
            && Payers(traces)[..k] == Payers(traces[..k])
            && (AllSettled(traces, legs) <==> AllSettled(traces[..k], legs[..k]) && Settled(traces[k], legs[k]) == 1)
            && (NothingUnheard(traces, legs) <==>
                  NothingUnheard(traces[..k], legs[..k])
                  && (Settled(traces[k], legs[k]) == 1 ==> StatusOf(PayerOf(traces[k]), legs[k]).settled))
            && (AllCarry(traces, legs) ==>
                  AllCarry(traces[..k], legs[..k]) && Carries(traces[k], legs[k]) && legs[k].amount > 0)
  {
    hide Carries, StatusOf, Settled, PayerOf;
  }

  lemma {:induction false} Totals(traces: seq<Trace>, legs: seq<Leg>)
    requires AllCarry(traces, legs)
    ensures 0 <= ConfirmedAmount(legs, Payers(traces)) <= TotalReceived(traces, legs) <= TotalAmount(legs)
    ensures TotalReceived(traces, legs) == TotalAmount(legs) <==> AllSettled(traces, legs)
    ensures ConfirmedAmount(legs, Payers(traces)) == TotalReceived(traces, legs) <==> NothingUnheard(traces, legs)
  {
    if legs == [] {
      hide Carries, Settled, PayerOf;
    } else {
      hide Carries, ReceivedOn, StatusOf, Settled, PayerOf, AllSettled, NothingUnheard;
      var k := |legs| - 1;
      SplitLast(traces, legs);
      Totals(traces[..k], legs[..k]);
      LegMoney(traces[k], legs[k]);
      var c, c' := ConfirmedAmount(legs, Payers(traces)), ConfirmedAmount(legs[..k], Payers(traces[..k]));
      var r, r' := TotalReceived(traces, legs), TotalReceived(traces[..k], legs[..k]);
      var a, a' := TotalAmount(legs), TotalAmount(legs[..k]);
      assert r == r' + ReceivedOn(traces[k], legs[k]) && a == a' + legs[k].amount;
      assert c == c' + if StatusOf(PayerOf(traces[k]), legs[k]).settled then legs[k].amount else 0;
    }
  }

  /** Over every run of every channel the recipient never gets more than the total.
      The report never claims more than was received, and it calls the payment
      complete exactly when the recipient has all of it and the payer has heard so. */
  lemma PaymentSafety(pay: Payment, traces: seq<Trace>, o: Outcome)
    requires AllCarry(traces, pay.legs) && TotalAmount(pay.legs) == pay.total
    requires o.settledAmount == ConfirmedAmount(pay.legs, Payers(traces))
    requires o.settled == |pay.legs| <==>
               forall i :: 0 <= i < |pay.legs| ==> StatusOf(Payers(traces)[i], pay.legs[i]).settled
    ensures 0 <= o.settledAmount <= TotalReceived(traces, pay.legs) <= pay.total
    ensures Complete(o, pay) <==>
              TotalReceived(traces, pay.legs) == pay.total && NothingUnheard(traces, pay.legs)
  {
    hide Carries, StatusOf, Settled, PayerOf, Payers;
    Totals(traces, pay.legs);
    if Complete(o, pay) {
      assert ConfirmedAmount(pay.legs, Payers(traces)) == TotalReceived(traces, pay.legs);
    } else if TotalReceived(traces, pay.legs) == pay.total && NothingUnheard(traces, pay.legs) {
      forall i | 0 <= i < |pay.legs| ensures StatusOf(Payers(traces)[i], pay.legs[i]).settled {
        assert Settled(traces[i], pay.legs[i]) == 1;
        assert Payers(traces)[i] == PayerOf(traces[i]);
      }
    }
  }

  /** Whatever was tried under which intents: with records that are up to date the report calls
      the payment complete exactly when the recipient has all of it and no record shows a
      lock that is gone without being counted. */
  lemma CompleteUnlessOverlooked(pay: Payment, traces: seq<Trace>, o: Outcome)
    requires AllCarry(traces, pay.legs) && TotalAmount(pay.legs) == pay.total
    requires forall i :: 0 <= i < |pay.legs| ==> UpToDate(traces[i])
    requires o.settledAmount == ConfirmedAmount(pay.legs, Payers(traces))
    requires o.settled == |pay.legs| <==>
               forall i :: 0 <= i < |pay.legs| ==> StatusOf(Payers(traces)[i], pay.legs[i]).settled
    ensures Complete(o, pay) <==>
              && TotalReceived(traces, pay.legs) == pay.total
              && forall i :: 0 <= i < |pay.legs| ==> !Overlooked(PayerOf(traces[i]), pay.legs[i])
  {
    hide Carries, UpToDate, StatusOf, Settled, PayerOf, Payers, ReceivedOn, Refunded, Added;
    PaymentSafety(pay, traces, o);
    Totals(traces, pay.legs);
    forall i | 0 <= i < |pay.legs|
      ensures Settled(traces[i], pay.legs[i]) == 1 ==>
                (StatusOf(PayerOf(traces[i]), pay.legs[i]).settled <==> !Overlooked(PayerOf(traces[i]), pay.legs[i]))
    {
      LegSafety(traces[i], pay.legs[i]);
    }
  }

  /** So with records that are up to date the report calls the payment complete exactly when
      the recipient has all of it and every fragment was settled under its own intent. */
  lemma CompleteExactly(pay: Payment, traces: seq<Trace>, o: Outcome)
    requires AllCarry(traces, pay.legs) && TotalAmount(pay.legs) == pay.total && AllHeard(traces, pay.legs)
    requires o.settledAmount == ConfirmedAmount(pay.legs, Payers(traces))
    requires o.settled == |pay.legs| <==>
               forall i :: 0 <= i < |pay.legs| ==> StatusOf(Payers(traces)[i], pay.legs[i]).settled
    ensures Complete(o, pay) <==> TotalReceived(traces, pay.legs) == pay.total && AllOwn(traces, pay.legs)
  {
    hide Carries, UnderOwnIntent, UnderOthers, UpToDate, StatusOf, Settled, PayerOf, Payers;
    PaymentSafety(pay, traces, o);
    if Complete(o, pay) {
      forall i | 0 <= i < |pay.legs| ensures UnderOwnIntent(traces[i], pay.legs[i]) {
        CountedByIntent(traces[i], pay.legs[i]);
        assert Payers(traces)[i] == PayerOf(traces[i]);
      }
    } else if AllOwn(traces, pay.legs) {
      OwnSettlementsHeard(traces, pay.legs);
    }
  }
}
