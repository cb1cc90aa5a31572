/** The hub's two sweeps over its channels: claiming what it can open, and taking back
    what nobody claimed. */
module Sweeps {
  import opened Common
  import opened Bytes
  import opened Symbols
  import opened ChannelState
  import opened Protocol
  import opened Agreement
  import opened Vault
  import opened MultipathProgress

  /** A channel id, and the lock the sweep read off that channel's latest state. */
  datatype Incoming = Incoming(channel: Term, id: Term, lock: Lock)

  function Word64(n: int): seq<Byte> {
    BigEndian(n % 0x1_0000_0000_0000_0000, 32)
  }

  /** Identifies one lock instance; module Derivation proves the real bytes do. */
  function ClaimIntent(x: Incoming): Term {
    Derived("rabbiit/routing/claim-upstream/v2",
            [x.channel, x.id, x.lock.hash,
             Raw(Minimal(Magnitude(x.lock.amount))),
             Raw(Word64(x.lock.expiry))])
  }

  /** Identifies a lock id only. */
  function RefundExpiredIntent(id: Term): Term {
    Keccak(Derived("refund-expired", [id]))
  }

  // ---- what one payment attempt does to the caller's record ------------------------------

  ghost predicate Sound(l: Link) {
    exists origin, log :: Inv(origin, World(l, log))
  }

  /** The record moved on by exactly one transition signed under `intent`. */
  ghost predicate MovedBy(n: Node, n': Node, isA: bool, intent: Term, t: Transition) {
    && Apply(n.latest, t, isA) == Ok(n'.latest)
    && n'.applied == n.applied[intent := n'.latest.nonce]
  }

  /** Nothing co-signed moved, and nothing new is outstanding but under `intent`. */
  ghost predicate LeftAsItWas(n: Node, n': Node, intent: Term) {
    && n'.latest == n.latest && n'.applied == n.applied
    && (n'.pending.None? || n'.pending == n.pending || n'.pending.value.intent == intent)
  }

  /** The transition a retry would send: the one already signed under this intent, if any. */
  function Outgoing(n: Node, intent: Term, t: Transition): Transition {
    if n.pending.Some? && n.pending.value.intent == intent then n.pending.value.tr else t
  }

  lemma PayEffect(l: Link, isA: bool, intent: Term, t: Transition, d: Delivery, mine: Clock, theirs: Clock)
    requires Sound(l)
    ensures var n := NodeOf(l, isA);
            var (l', r) := PayOn(l, isA, intent, t, d, mine, theirs);
            var n' := NodeOf(l', isA);
            && Sound(l')
            && ((n'.latest == n.latest && n'.applied == n.applied)
                || MovedBy(n, n', isA, intent, Outgoing(n, intent, t)))
            && (r == Done && intent !in n.applied ==>
                  MovedBy(n, n', isA, intent, Outgoing(n, intent, t)) && n'.pending.None?)
            && (r != Done ==> LeftAsItWas(n, n', intent))
  {
    var origin, log :| Inv(origin, World(l, log));
    InvFrom(origin, World(l, log), isA);
    SoundStep(origin, log, l, PayStep(isA, intent, t, d, mine, theirs));
    hide Inv, PairInv, Sound, MovedBy, PayOn;
    PayMoves(origin, log, l, isA, intent, t, d, mine, theirs);
  }

  lemma SoundStep(origin: State, log: seq<Entry>, l: Link, s: Step)
    requires Inv(origin, World(l, log))
    ensures Sound(StepLink(l, s))
  {
    hide Inv, StepLink, StepLog;
    StepInv(origin, World(l, log), s);
    assert Inv(origin, World(StepLink(l, s), StepLog(World(l, log), s)));
  }

  lemma PayMoves(origin: State, log: seq<Entry>, l: Link, isA: bool, intent: Term, t: Transition,
                 d: Delivery, mine: Clock, theirs: Clock)
    requires PairInv(origin, log, NodeOf(l, isA), NodeOf(l, !isA), isA)
    ensures var n := NodeOf(l, isA);
            var (l', r) := PayOn(l, isA, intent, t, d, mine, theirs);
            var n' := NodeOf(l', isA);
            && ((n'.latest == n.latest && n'.applied == n.applied)
                || MovedBy(n, n', isA, intent, Outgoing(n, intent, t)))
            && (r == Done && intent !in n.applied ==>
                  MovedBy(n, n', isA, intent, Outgoing(n, intent, t)) && n'.pending.None?)
            && (r != Done ==> LeftAsItWas(n, n', intent))
  {
    hide Apply, PairInv, Propose, HandlePropose, HandleAccept, HandleReject, HandleResponse;
    var n, other := NodeOf(l, isA), NodeOf(l, !isA);
    var proposed := Propose(n, isA, intent, t, mine);
    ProposedKeeps(n, isA, intent, t, mine);
    if !n.conflict && intent !in n.applied && proposed.Ok? && d == Answered {
      ProposeInv(origin, log, n, other, isA, intent, t, mine);
      ProposePending(n, isA, intent, t, mine);
      var n1 := proposed.value;
      HandledInv(origin, log, n1, other, isA, theirs);
      var peer := HandlePropose(other, !isA, n1.pending.value, theirs).0;
      NoConflict(origin, log, n, other, isA);
      HandleReply(other, !isA, n1.pending.value, theirs);
      Hearing(origin, Extended(log, n1.pending.value, isA, peer), n1, peer, isA);
      RejectKeeps(n1, intent);
      PendingTransition(n, isA, intent, t, mine);
    }
  }

  lemma PendingTransition(n: Node, isA: bool, intent: Term, t: Transition, c: Clock)
    requires Propose(n, isA, intent, t, c).Ok?
    ensures Propose(n, isA, intent, t, c).value.pending.Some?
    ensures Propose(n, isA, intent, t, c).value.pending.value.tr == Outgoing(n, intent, t)
  {
    hide Apply;
  }

  lemma ProposedKeeps(n: Node, isA: bool, intent: Term, t: Transition, c: Clock)
    ensures Propose(n, isA, intent, t, c).Ok? ==>
              && Propose(n, isA, intent, t, c).value.latest == n.latest
              && Propose(n, isA, intent, t, c).value.applied == n.applied
              && Propose(n, isA, intent, t, c).value.pending.Some?
              && Propose(n, isA, intent, t, c).value.pending.value.intent == intent
  {
    hide Apply;
  }

  lemma RejectKeeps(n: Node, intent: Term)
    ensures HandleReject(n, intent).latest == n.latest && HandleReject(n, intent).applied == n.applied
    ensures HandleReject(n, intent).pending.None? || HandleReject(n, intent).pending == n.pending
  {
  }

  /** Hearing from the peer completes what is pending, or changes nothing co-signed. */
  lemma Hearing(origin: State, log: seq<Entry>, n: Node, peer: Node, isA: bool)
    requires PairInv(origin, log, n, peer, isA)
    requires n.pending.Some?
    ensures var p := n.pending.value;
            var (n1, ok) := HandleAccept(n, p.intent, peer.latest);
            var n2 := HandleResponse(n, peer.latest);
            && (n1 == n || MovedBy(n, n1, isA, p.intent, p.tr))
            && (ok ==> MovedBy(n, n1, isA, p.intent, p.tr) && n1.pending.None?)
            && (!ok ==> n1 == n)
            && (n2 == n || (MovedBy(n, n2, isA, p.intent, p.tr) && n2.pending.None?))
            && (p.intent !in n.applied && p.intent in n2.applied ==> n2 != n)
  {
    hide Apply, ValidLog, Prune;
  }

  // ---- driving a list of lock resolutions ------------------------------------------------------

  /** One lock to resolve in this node's favour, and the intent to do it under. */
  datatype Task = Task(channel: Term, id: Term, lock: Lock, intent: Term, tr: Transition)

  datatype Problem = NoPeerFor(channel: Term) | NotResolved(id: Term, result: PayResult)

  type Channels = map<Term, Member>

  /** The lock is pending, and resolving it this way pays this node. */
  ghost predicate Resolves(m: Member, x: Task) {
    var s := PayerRecord(m).latest;
    && x.id in s.pending && s.pending[x.id] == x.lock
    && LockOf(x.tr) == Some(x.id)
    && (x.tr.LockSettle? || x.tr.LockRefund?)
    && (x.tr.LockSettle? <==> x.lock.payerIsA != m.ownIsA)
  }

  /** A proposal already signed under the task's intent resolves the same lock the same way. */
  ghost predicate RetriesAgree(m: Member, x: Task) {
    var t := Outgoing(PayerRecord(m), x.intent, x.tr);
    LockOf(t) == Some(x.id) && (t.LockSettle? <==> x.tr.LockSettle?) && (t.LockRefund? <==> x.tr.LockRefund?)
  }

  ghost predicate Ready(m: Member, x: Task) {
    Sound(m.link) && Resolves(m, x) && RetriesAgree(m, x)
  }

  predicate Spent(m: Member, intent: Term) {
    intent in PayerRecord(m).applied
  }

  /** What carrying out one task did to this node's record of the channel: nothing when
      its intent had been used before, and otherwise exactly one resolution. */
  ghost predicate CarriedOut(m: Member, m': Member, x: Task) {
    var n, n' := PayerRecord(m), PayerRecord(m');
    if Spent(m, x.intent) then m' == m
    else
      && m'.ownIsA == m.ownIsA
      && n'.latest.pending == n.latest.pending - {x.id}
      && BalanceOf(n'.latest, m.ownIsA) == BalanceOf(n.latest, m.ownIsA) + x.lock.amount
      && n'.applied.Keys == n.applied.Keys + {x.intent}
      && n'.pending.None?
  }

  lemma DoneResolves(m: Member, x: Task, net: Net)
    requires Ready(m, x)
    ensures PayVia(m, x.intent, x.tr, net).1 == Some(Done) ==> CarriedOut(m, PayVia(m, x.intent, x.tr, net).0, x)
  {
    hide Sound, PayOn;
    if net.Reach? && Spent(m, x.intent) {
      SpentChangesNothing(m.link, m.ownIsA, x.intent, x.tr, net.delivery, net.mine, net.theirs);
    } else if net.Reach? {
      PayEffect(m.link, m.ownIsA, x.intent, x.tr, net.delivery, net.mine, net.theirs);
      var n := PayerRecord(m);
      var l' := PayOn(m.link, m.ownIsA, x.intent, x.tr, net.delivery, net.mine, net.theirs).0;
      var n' := NodeOf(l', m.ownIsA);
      if MovedBy(n, n', m.ownIsA, x.intent, Outgoing(n, x.intent, x.tr)) {
        assert n'.applied.Keys == n.applied.Keys + {x.intent};
      }
    }
  }

  /** A spent intent is answered from the record: reported done, and nothing moves. */
  lemma SpentChangesNothing(l: Link, isA: bool, intent: Term, t: Transition, d: Delivery, mine: Clock, theirs: Clock)
    requires intent in NodeOf(l, isA).applied
    ensures PayOn(l, isA, intent, t, d, mine, theirs).0 == l
    ensures PayOn(l, isA, intent, t, d, mine, theirs).1 == Done <==> !NodeOf(l, isA).conflict
  {
    hide Propose, HandlePropose, HandleAccept, HandleReject, HandleResponse;
  }

  lemma StaysSound(m: Member, x: Task, net: Net)
    requires Sound(m.link)
    ensures PayVia(m, x.intent, x.tr, net).0.ownIsA == m.ownIsA && Sound(PayVia(m, x.intent, x.tr, net).0.link)
  {
    hide Sound, PayOn;
    if net.Reach? {
      PayEffect(m.link, m.ownIsA, x.intent, x.tr, net.delivery, net.mine, net.theirs);
    }
  }

  /** An attempt that does not end done resolves nothing. */
  lemma NotDoneLeaves(m: Member, x: Task, net: Net)
    requires Sound(m.link) && PayVia(m, x.intent, x.tr, net).1 != Some(Done)
    ensures var m' := PayVia(m, x.intent, x.tr, net).0;
            m'.ownIsA == m.ownIsA && LeftAsItWas(PayerRecord(m), PayerRecord(m'), x.intent)
  {
    hide Sound, PayOn;
    if net.Reach? {
      PayEffect(m.link, m.ownIsA, x.intent, x.tr, net.delivery, net.mine, net.theirs);
    }
  }

  lemma OthersStayReady(m: Member, m': Member, x: Task, y: Task)
    requires CarriedOut(m, m', x) || (m'.ownIsA == m.ownIsA && LeftAsItWas(PayerRecord(m), PayerRecord(m'), x.intent))
    requires Ready(m, y) && Sound(m'.link)
    requires x.id != y.id && x.intent != y.intent
    requires LockOf(y.tr) == Some(y.id)
    ensures Ready(m', y) && (Spent(m', y.intent) <==> Spent(m, y.intent))
  {
    hide Sound;
  }

  // ---- a whole sweep ---------------------------------------------------------------------------------

  ghost predicate AllSound(channels: Channels) {
    forall c :: c in channels ==> Sound(channels[c].link)
  }

  ghost predicate SeparateTasks(tasks: seq<Task>) {
    forall i, j :: 0 <= i < j < |tasks| && tasks[i].channel == tasks[j].channel ==>
      tasks[i].id != tasks[j].id && tasks[i].intent != tasks[j].intent
  }

  /** Every task of channel `c` from `from` on can be carried out on it, and none of them was
      since it was `m`. */
  ghost predicate ReadyOn(m: Member, now: Member, tasks: seq<Task>, c: Term, from: nat) {
    forall i :: from <= i < |tasks| && tasks[i].channel == c ==>
      Ready(now, tasks[i]) && (Spent(now, tasks[i].intent) <==> Spent(m, tasks[i].intent))
  }

  ghost predicate AllReady(channels: Channels, tasks: seq<Task>) {
    forall c :: c in channels ==> ReadyOn(channels[c], channels[c], tasks, c, 0)
  }

  /** One channel after the first `k` tasks, with nothing but its own driven. */
  ghost function Alone(m: Member, tasks: seq<Task>, net: Task -> Net, c: Term, k: nat): Member
    requires k <= |tasks|
  {
    if k == 0 then m
    else
      var before := Alone(m, tasks, net, c, k - 1);
      if tasks[k - 1].channel != c then before else Attempt(before, tasks[k - 1], net).0
  }

  function Attempt(m: Member, x: Task, net: Task -> Net): (Member, Option<PayResult>) {
    PayVia(m, x.intent, x.tr, net(x))
  }

  /** How task `i` ends on its own channel, whatever the others do. */
  ghost function EndOf(m: Member, tasks: seq<Task>, net: Task -> Net, i: nat): Option<PayResult>
    requires i < |tasks|
  {
    Attempt(Alone(m, tasks, net, tasks[i].channel, i), tasks[i], net).1
  }

  /** The locks of one channel among the first `k` tasks under an unspent intent, all of them
      or those whose task ends done. */
  ghost function Resolvable(m: Member, tasks: seq<Task>, c: Term, k: nat): set<Term>
    requires k <= |tasks|
  {
    set i | 0 <= i < k && tasks[i].channel == c && !Spent(m, tasks[i].intent) :: tasks[i].id
  }

  ghost function Resolved(m: Member, tasks: seq<Task>, net: Task -> Net, c: Term, k: nat): set<Term>
    requires k <= |tasks|
  {
    set i | 0 <= i < k && tasks[i].channel == c && !Spent(m, tasks[i].intent) && EndOf(m, tasks, net, i) == Some(Done) ::
      tasks[i].id
  }

  function Restrict(pending: map<Term, Lock>, ids: set<Term>): map<Term, Lock> {
    map id | id in pending && id in ids :: pending[id]
  }

  /** One channel lost exactly the locks `ids`, and this node gained exactly their value. */
  ghost predicate Collected(m: Member, m': Member, ids: set<Term>) {
    var s, s' := PayerRecord(m).latest, PayerRecord(m').latest;
    && m'.ownIsA == m.ownIsA
    && s'.pending == s.pending - ids
    && BalanceOf(s', m.ownIsA) == BalanceOf(s, m.ownIsA) + Locked(Restrict(s.pending, ids))
  }

  lemma ReadyOwnLock(m: Member, x: Task)
    requires Ready(m, x)
    ensures LockOf(x.tr) == Some(x.id)
    ensures x.id in PayerRecord(m).latest.pending && PayerRecord(m).latest.pending[x.id] == x.lock
  {
    hide Sound, RetriesAgree;
  }

  lemma CollectedMore(m: Member, m1: Member, m2: Member, ids: set<Term>, x: Task)
    requires Collected(m, m1, ids) && CarriedOut(m1, m2, x) && !Spent(m1, x.intent)
    requires x.id in PayerRecord(m1).latest.pending && PayerRecord(m1).latest.pending[x.id] == x.lock
    ensures Collected(m, m2, ids + {x.id})
  {
    var pending := PayerRecord(m).latest.pending;
    var more := Restrict(pending, ids + {x.id});
    assert more == Restrict(pending, ids)[x.id := x.lock];
    LockedAdd(Restrict(pending, ids), x.id, x.lock);
    assert pending - ids - {x.id} == pending - (ids + {x.id});
  }

  lemma ResolvedStep(m: Member, tasks: seq<Task>, net: Task -> Net, c: Term, k: nat)
    requires k < |tasks|
    ensures var x := tasks[k];
            var more := x.channel == c && !Spent(m, x.intent) && EndOf(m, tasks, net, k) == Some(Done);
            Resolved(m, tasks, net, c, k + 1) == Resolved(m, tasks, net, c, k) + if more then {x.id} else {}
  {
    hide Spent, EndOf;
  }

  lemma ReadyStep(m: Member, now: Member, next: Member, tasks: seq<Task>, c: Term, k: nat)
    requires SeparateTasks(tasks) && ReadyOn(m, now, tasks, c, k) && k < |tasks| && tasks[k].channel == c
    requires Sound(next.link)
    requires CarriedOut(now, next, tasks[k])
             || (next.ownIsA == now.ownIsA && LeftAsItWas(PayerRecord(now), PayerRecord(next), tasks[k].intent))
    ensures ReadyOn(m, next, tasks, c, k + 1)
  {
    hide Sound, Ready, CarriedOut, LeftAsItWas, Spent;
    forall i | k + 1 <= i < |tasks| && tasks[i].channel == c
      ensures Ready(next, tasks[i]) && (Spent(next, tasks[i].intent) <==> Spent(m, tasks[i].intent))
    {
      ReadyOwnLock(now, tasks[i]);
      OthersStayReady(now, next, tasks[k], tasks[i]);
    }
  }

  /** Every task that ends done is carried out, whatever became of the tasks before it, and the
      others resolve nothing. */
  lemma {:induction false} AloneCollects(m: Member, tasks: seq<Task>, net: Task -> Net, c: Term, k: nat)
    requires k <= |tasks| && SeparateTasks(tasks) && Sound(m.link) && ReadyOn(m, m, tasks, c, 0)
    ensures var now := Alone(m, tasks, net, c, k);
            Sound(now.link) && ReadyOn(m, now, tasks, c, k) && Collected(m, now, Resolved(m, tasks, net, c, k))
  {
    hide Sound, Ready, CarriedOut, LeftAsItWas, Spent, Collected, Resolved, PayVia;
    if k == 0 {
      CollectedNone(m, tasks, net, c);
    } else {
      var x, now := tasks[k - 1], Alone(m, tasks, net, c, k - 1);
      AloneCollects(m, tasks, net, c, k - 1);
      ResolvedStep(m, tasks, net, c, k - 1);
      var ids := Resolved(m, tasks, net, c, k - 1);
      assert ids + {} == ids;
      if x.channel == c {
        StaysSound(now, x, net(x));
        TaskCollects(m, now, ids, x, net(x));
        TaskLeaves(now, x, net(x));
        ReadyStep(m, now, Attempt(now, x, net).0, tasks, c, k - 1);
      }
    }
  }

  lemma TaskLeaves(now: Member, x: Task, net: Net)
    requires Ready(now, x)
    ensures var next := PayVia(now, x.intent, x.tr, net).0;
            CarriedOut(now, next, x)
            || (next.ownIsA == now.ownIsA && LeftAsItWas(PayerRecord(now), PayerRecord(next), x.intent))
  {
    hide Sound, PayVia, CarriedOut, LeftAsItWas, Resolves, RetriesAgree;
    if PayVia(now, x.intent, x.tr, net).1 == Some(Done) {
      DoneResolves(now, x, net);
    } else {
      NotDoneLeaves(now, x, net);
    }
  }

  lemma TaskCollects(m: Member, now: Member, ids: set<Term>, x: Task, net: Net)
    requires Collected(m, now, ids) && Ready(now, x) && (Spent(now, x.intent) <==> Spent(m, x.intent))
    ensures var (next, r) := PayVia(now, x.intent, x.tr, net);
            Collected(m, next, ids + if !Spent(m, x.intent) && r == Some(Done) then {x.id} else {})
  {
    hide Sound, PayVia, CarriedOut, LeftAsItWas, Spent, Collected, Resolves, RetriesAgree, Ready;
    var (next, r) := PayVia(now, x.intent, x.tr, net);
    assert ids + {} == ids;
    ReadyOwnLock(now, x);
    if r != Some(Done) {
      ReadySound(now, x);
      NotDoneLeaves(now, x, net);
      SameCollected(m, now, next, ids, x.intent);
    } else {
      DoneResolves(now, x, net);
      if Spent(now, x.intent) {
        SpentStays(now, next, x);
      } else {
        CollectedMore(m, now, next, ids, x);
      }
    }
  }

  lemma ReadySound(m: Member, x: Task)
    requires Ready(m, x)
    ensures Sound(m.link)
  {
  }

  lemma SameCollected(m: Member, now: Member, next: Member, ids: set<Term>, intent: Term)
    requires Collected(m, now, ids) && next.ownIsA == now.ownIsA
    requires LeftAsItWas(PayerRecord(now), PayerRecord(next), intent)
    ensures Collected(m, next, ids)
  {
  }

  lemma SpentStays(m: Member, m': Member, x: Task)
    requires CarriedOut(m, m', x) && Spent(m, x.intent)
    ensures m' == m
  {
  }

  lemma CollectedNone(m: Member, tasks: seq<Task>, net: Task -> Net, c: Term)
    ensures Collected(m, m, Resolved(m, tasks, net, c, 0))
  {
    var s := PayerRecord(m).latest;
    assert Resolved(m, tasks, net, c, 0) == {};
    assert Restrict(s.pending, {}) == map[];
    assert s.pending - {} == s.pending;
  }

  // ---- channels at rest --------------------------------------------------------------------------

  /** An exchange over a channel at rest. */
  lemma PaysAtRest(l: Link, isA: bool, x: Term, t: Transition, net: Net)
    requires Clean(l, isA) && net.Reach? && forall side :: x !in NodeOf(l, side).applied
    ensures PayOn(l, isA, x, t, net.delivery, net.mine, net.theirs).1 == Done
            <==> && Answers(net) && Apply(NodeOf(l, isA).latest, t, isA).Ok?
                 && (t.LockSettle? ==> TimingRefusal(NodeOf(l, isA).latest, t, net.mine).None?)
                 && TimingRefusal(NodeOf(l, isA).latest, t, net.theirs).None?
    ensures var l' := PayOn(l, isA, x, t, net.delivery, net.mine, net.theirs).0;
            PayOn(l, isA, x, t, net.delivery, net.mine, net.theirs).1 == Done ==>
              && Clean(l', isA) && Apply(NodeOf(l, isA).latest, t, isA) == Ok(NodeOf(l', isA).latest)
              && forall side :: NodeOf(l', side).applied.Keys == NodeOf(l, side).applied.Keys + {x}
  {
    if Apply(NodeOf(l, isA).latest, t, isA).Ok? {
      CleanCanExchange(l, isA, x, t);
      ExchangeMoves(l, isA, x, t, net.delivery, net.mine, net.theirs);
      AtRest(l, isA);
      hide PayOn, Apply, TimingRefusal, Clean, InExchange;
    } else {
      AtRest(l, isA);
      hide Apply, TimingRefusal, Clean, HandlePropose, HandleAccept, HandleReject, HandleResponse;
    }
  }

  lemma AtRest(l: Link, isA: bool)
    requires Clean(l, isA)
    ensures NodeOf(l, isA).pending.None? && !NodeOf(l, isA).conflict
  {
  }

  /** The peer answers, and the lock can be resolved by both clocks. */
  predicate InTime(x: Task, net: Net) {
    && Answers(net)
    && match x.tr
       case LockSettle(_, preimage) =>
         && x.lock.hash == Keccak(preimage)
         && x.lock.expiry > net.mine.now + net.mine.skew && x.lock.expiry > net.theirs.now + net.theirs.skew
       case LockRefund(_) => x.lock.expiry <= net.theirs.now - net.theirs.skew
       case _ => false
  }

  /** From a channel at rest, a resolution under an intent neither party has used ends done
      exactly when that holds. */
  lemma RestExactly(m: Member, x: Task, net: Net)
    requires Clean(m.link, m.ownIsA) && Resolves(m, x) && forall side :: x.intent !in NodeOf(m.link, side).applied
    ensures PayVia(m, x.intent, x.tr, net).1 == Some(Done) <==> InTime(x, net)
    ensures var m' := PayVia(m, x.intent, x.tr, net).0;
            InTime(x, net) ==>
              && m'.ownIsA == m.ownIsA && Clean(m'.link, m.ownIsA)
              && PayerRecord(m').latest.pending == PayerRecord(m).latest.pending - {x.id}
              && forall side :: NodeOf(m'.link, side).applied.Keys == NodeOf(m.link, side).applied.Keys + {x.intent}
  {
    if net.Reach? {
      PaysAtRest(m.link, m.ownIsA, x.intent, x.tr, net);
      match x.tr {
        case LockSettle(id, preimage) => ResolvedToItsParty(PayerRecord(m).latest, id, preimage, m.ownIsA);
        case LockRefund(id) => ResolvedToItsParty(PayerRecord(m).latest, id, Keccak(id), m.ownIsA);
        case _ =>
      }
    }
    hide PayOn, Apply, Clean;
  }

  /** Every task of channel `c` from `from` on can be resolved in time. */
  ghost predicate Restful(m: Member, tasks: seq<Task>, net: Task -> Net, c: Term, from: nat) {
    && Clean(m.link, m.ownIsA)
    && forall i :: from <= i < |tasks| && tasks[i].channel == c ==>
         Resolves(m, tasks[i]) && InTime(tasks[i], net(tasks[i]))
         && forall side :: tasks[i].intent !in NodeOf(m.link, side).applied
  }

  /** Then all of them are, one after the other, and the channel is at rest again. */
  lemma {:induction false} RestResolvesAll(m: Member, tasks: seq<Task>, net: Task -> Net, c: Term, k: nat)
    requires k <= |tasks| && SeparateTasks(tasks) && Restful(m, tasks, net, c, 0)
    ensures Restful(Alone(m, tasks, net, c, k), tasks, net, c, k)
    ensures forall i :: 0 <= i < k && tasks[i].channel == c ==> EndOf(m, tasks, net, i) == Some(Done)
  {
    hide Clean, Resolves, InTime, PayVia;
    if k > 0 {
      RestResolvesAll(m, tasks, net, c, k - 1);
      var now, x := Alone(m, tasks, net, c, k - 1), tasks[k - 1];
      if x.channel == c {
        RestExactly(now, x, net(x));
        RestStep(now, Attempt(now, x, net).0, tasks, net, c, k - 1);
      }
    }
  }

  lemma RestStep(now: Member, next: Member, tasks: seq<Task>, net: Task -> Net, c: Term, k: nat)
    requires k < |tasks| && SeparateTasks(tasks) && Restful(now, tasks, net, c, k) && tasks[k].channel == c
    requires next.ownIsA == now.ownIsA && Clean(next.link, next.ownIsA)
    requires PayerRecord(next).latest.pending == PayerRecord(now).latest.pending - {tasks[k].id}
    requires forall side :: NodeOf(next.link, side).applied.Keys == NodeOf(now.link, side).applied.Keys + {tasks[k].intent}
    ensures Restful(next, tasks, net, c, k + 1)
  {
    hide Clean, InTime;
  }

  /** What a task that does not end done is reported as. */
  predicate Tells(p: Problem, x: Task, r: Option<PayResult>) {
    match r
    case None => p == NoPeerFor(x.channel)
    case Some(result) => p == NotResolved(x.id, result)
  }

  /** Exactly one problem, in order, for each of the first `k` tasks that does not end done:
      `at` says which. */
  ghost predicate Reports(channels: Channels, tasks: seq<Task>, net: Task -> Net, problems: seq<Problem>, at: seq<nat>, k: nat)
    requires k <= |tasks| && forall i :: 0 <= i < |tasks| ==> tasks[i].channel in channels
  {
    && |at| == |problems|
    && (forall j :: 0 <= j < |at| ==>
          && at[j] < k && EndOf(channels[tasks[at[j]].channel], tasks, net, at[j]) != Some(Done)
          && Tells(problems[j], tasks[at[j]], EndOf(channels[tasks[at[j]].channel], tasks, net, at[j])))
    && (forall i, j :: 0 <= i < j < |at| ==> at[i] < at[j])
    && (forall i :: 0 <= i < k && EndOf(channels[tasks[i].channel], tasks, net, i) != Some(Done) ==> i in at)
  }

  /** What driving the tasks comes to: every channel is left as its own tasks leave it, and
      the problems are exactly those of the tasks not done. */
  ghost predicate Driven(channels: Channels, tasks: seq<Task>, net: Task -> Net, after: Channels, problems: seq<Problem>)
    requires forall i :: 0 <= i < |tasks| ==> tasks[i].channel in channels
  {
    && after.Keys == channels.Keys
    && (forall c :: c in channels ==> after[c] == Alone(channels[c], tasks, net, c, |tasks|))
    && exists at :: Reports(channels, tasks, net, problems, at, |tasks|)
  }

  /** Carries out the tasks in order, goes on after a failure, and collects a problem for each
      one not done. It has resolved exactly those that ended done under an unspent intent. */
  method DriveAll(channels: Channels, tasks: seq<Task>, net: Task -> Net)
    returns (after: Channels, problems: seq<Problem>)
    requires SeparateTasks(tasks)
    requires forall i :: 0 <= i < |tasks| ==> tasks[i].channel in channels
    requires AllSound(channels)
    ensures Driven(channels, tasks, net, after, problems)
    ensures AllSound(after)
    ensures AllReady(channels, tasks) ==>
              forall c :: c in channels ==> Collected(channels[c], after[c], Resolved(channels[c], tasks, net, c, |tasks|))
    ensures problems == [] ==>
              forall c :: c in channels ==>
                Resolved(channels[c], tasks, net, c, |tasks|) == Resolvable(channels[c], tasks, c, |tasks|)
    ensures forall c :: c in channels && Restful(channels[c], tasks, net, c, 0) ==>
              Resolved(channels[c], tasks, net, c, |tasks|) == Resolvable(channels[c], tasks, c, |tasks|)
  {
    hide Restful, Ready, Sound, Collected, PayVia, CarriedOut, AllSound, ReadyOn, EndOf, Spent, Reports, Resolved, Resolvable;
    after, problems := channels, [];
    ghost var at: seq<nat> := [];
    ReportsNone(channels, tasks, net);
    for i := 0 to |tasks|
      invariant after.Keys == channels.Keys && AllSound(after)
      invariant forall c :: c in channels ==> after[c] == Alone(channels[c], tasks, net, c, i)
      invariant Reports(channels, tasks, net, problems, at, i)
    {
      var x := tasks[i];
      var (m, r) := PayVia(after[x.channel], x.intent, x.tr, net(x));
      SoundStays(after, x, net(x));
      EndsSo(channels[x.channel], tasks, net, i);
      after := after[x.channel := m];
      if r.None? {
        ReportsMore(channels, tasks, net, problems, at, i, NoPeerFor(x.channel));
        problems, at := problems + [NoPeerFor(x.channel)], at + [i];
      } else if r.value != Done {
        ReportsMore(channels, tasks, net, problems, at, i, NotResolved(x.id, r.value));
        problems, at := problems + [NotResolved(x.id, r.value)], at + [i];
      } else {
        ReportsNoMore(channels, tasks, net, problems, at, i);
      }
    }
    if AllReady(channels, tasks) {
      forall c | c in channels ensures Collected(channels[c], after[c], Resolved(channels[c], tasks, net, c, |tasks|)) {
        SoundOne(channels, c);
        AloneCollects(channels[c], tasks, net, c, |tasks|);
      }
    }
    if problems == [] {
      forall c | c in channels
        ensures Resolved(channels[c], tasks, net, c, |tasks|) == Resolvable(channels[c], tasks, c, |tasks|)
      {
        NothingReported(channels, tasks, net, problems, at, c);
      }
    }
    forall c | c in channels && Restful(channels[c], tasks, net, c, 0)
      ensures Resolved(channels[c], tasks, net, c, |tasks|) == Resolvable(channels[c], tasks, c, |tasks|)
    {
      RestResolvesAll(channels[c], tasks, net, c, |tasks|);
      AllDone(channels[c], tasks, net, c);
    }
  }

  lemma AllDone(m: Member, tasks: seq<Task>, net: Task -> Net, c: Term)
    requires forall i :: 0 <= i < |tasks| && tasks[i].channel == c ==> EndOf(m, tasks, net, i) == Some(Done)
    ensures Resolved(m, tasks, net, c, |tasks|) == Resolvable(m, tasks, c, |tasks|)
  {
    hide EndOf, Spent;
  }

  lemma ReportsNone(channels: Channels, tasks: seq<Task>, net: Task -> Net)
    requires forall i :: 0 <= i < |tasks| ==> tasks[i].channel in channels
    ensures Reports(channels, tasks, net, [], [], 0)
  {
  }

  lemma ReportsMore(channels: Channels, tasks: seq<Task>, net: Task -> Net, problems: seq<Problem>, at: seq<nat>, k: nat,
                    p: Problem)
    requires k < |tasks| && forall i :: 0 <= i < |tasks| ==> tasks[i].channel in channels
    requires Reports(channels, tasks, net, problems, at, k)
    requires var r := EndOf(channels[tasks[k].channel], tasks, net, k); r != Some(Done) && Tells(p, tasks[k], r)
    ensures Reports(channels, tasks, net, problems + [p], at + [k], k + 1)
  {
    hide EndOf;
    var more := at + [k];
    forall i | 0 <= i < k + 1 && EndOf(channels[tasks[i].channel], tasks, net, i) != Some(Done) ensures i in more {
      assert i in at || more[|at|] == i;
    }
  }

  lemma ReportsNoMore(channels: Channels, tasks: seq<Task>, net: Task -> Net, problems: seq<Problem>, at: seq<nat>, k: nat)
    requires k < |tasks| && forall i :: 0 <= i < |tasks| ==> tasks[i].channel in channels
    requires Reports(channels, tasks, net, problems, at, k)
    requires EndOf(channels[tasks[k].channel], tasks, net, k) == Some(Done)
    ensures Reports(channels, tasks, net, problems, at, k + 1)
  {
    hide EndOf;
  }

  lemma NothingReported(channels: Channels, tasks: seq<Task>, net: Task -> Net, problems: seq<Problem>, at: seq<nat>, c: Term)
    requires c in channels && forall i :: 0 <= i < |tasks| ==> tasks[i].channel in channels
    requires Reports(channels, tasks, net, problems, at, |tasks|) && problems == []
    ensures Resolved(channels[c], tasks, net, c, |tasks|) == Resolvable(channels[c], tasks, c, |tasks|)
  {
    hide EndOf, Spent;
    AllDone(channels[c], tasks, net, c);
  }

  lemma EndsSo(m: Member, tasks: seq<Task>, net: Task -> Net, i: nat)
    requires i < |tasks|
    ensures var x := tasks[i];
            EndOf(m, tasks, net, i) == PayVia(Alone(m, tasks, net, x.channel, i), x.intent, x.tr, net(x)).1
  {
    hide PayVia;
  }

  lemma SoundOne(channels: Channels, c: Term)
    requires AllSound(channels) && c in channels
    ensures Sound(channels[c].link)
  {
    hide Sound;
  }

  lemma SoundStays(channels: Channels, x: Task, net: Net)
    requires AllSound(channels) && x.channel in channels
    ensures var m := PayVia(channels[x.channel], x.intent, x.tr, net).0;
            Sound(m.link) && AllSound(channels[x.channel := m])
  {
    StaysSound(channels[x.channel], x, net);
    hide Sound, PayVia;
  }

  // ---- listing what to resolve ----------------------------------------------------------------------

  /** The task for one pending lock, when the sweep takes it up at all. */
  type Pick = (Term, Member, Term) --> Option<Task>

  /** Value offered to this node that it holds the secret for. */
  function Claim(c: Term, m: Member, id: Term, vault: Secrets): Option<Task>
    requires id in PayerRecord(m).latest.pending
  {
    var lock := PayerRecord(m).latest.pending[id];
    if lock.payerIsA == m.ownIsA || lock.hash !in vault then None
    else Some(Task(c, id, lock, ClaimIntent(Incoming(c, id, lock)), LockSettle(id, vault[lock.hash])))
  }

  const REFUND_SKEW_MARGIN := 120

  /** Value this node put up, past its expiry by the margin, that it cannot open. */
  function Refund(c: Term, m: Member, id: Term, vault: Secrets, now: int): Option<Task>
    requires id in PayerRecord(m).latest.pending
  {
    var lock := PayerRecord(m).latest.pending[id];
    if lock.payerIsA != m.ownIsA then None
    else if lock.expiry > now - REFUND_SKEW_MARGIN then None
    else if lock.hash in vault then None
    else Some(Task(c, id, lock, RefundExpiredIntent(id), LockRefund(id)))
  }

  function ClaimPick(vault: Secrets): Pick {
    (c, m: Member, id) requires id in PayerRecord(m).latest.pending => Claim(c, m, id, vault)
  }

  function RefundPick(vault: Secrets, now: int): Pick {
    (c, m: Member, id) requires id in PayerRecord(m).latest.pending => Refund(c, m, id, vault, now)
  }

  ghost predicate Picks(pick: Pick) {
    forall c, m: Member, id :: id in PayerRecord(m).latest.pending ==>
      && pick.requires(c, m, id)
      && (pick(c, m, id).Some? ==> pick(c, m, id).value.channel == c && pick(c, m, id).value.id == id)
  }

  ghost predicate Picked(channels: Channels, pick: Pick, c: Term, id: Term)
    requires Picks(pick)
  {
    c in channels && id in PayerRecord(channels[c]).latest.pending && pick(c, channels[c], id).Some?
  }

  /** `tasks` names the picked ones among the locks seen, each of them once. */
  ghost predicate Lists(channels: Channels, pick: Pick, tasks: seq<Task>, seen: set<(Term, Term)>)
    requires Picks(pick)
  {
    && (forall i :: 0 <= i < |tasks| ==>
          && Picked(channels, pick, tasks[i].channel, tasks[i].id)
          && tasks[i] == pick(tasks[i].channel, channels[tasks[i].channel], tasks[i].id).value
          && (tasks[i].channel, tasks[i].id) in seen)
    && (forall c, id :: Picked(channels, pick, c, id) && (c, id) in seen ==>
          exists i :: 0 <= i < |tasks| && tasks[i].channel == c && tasks[i].id == id)
    && (forall i, j :: 0 <= i < j < |tasks| && tasks[i].channel == tasks[j].channel ==> tasks[i].id != tasks[j].id)
  }

  ghost predicate SeenAll(channels: Channels, seen: set<(Term, Term)>) {
    forall c, id :: c in channels && id in PayerRecord(channels[c]).latest.pending ==> (c, id) in seen
  }

  ghost predicate ListsAll(channels: Channels, pick: Pick, tasks: seq<Task>)
    requires Picks(pick)
  {
    exists seen :: SeenAll(channels, seen) && Lists(channels, pick, tasks, seen)
  }

  /** Walks every channel, and every lock pending on it. */
  method ListTasks(channels: Channels, pick: Pick) returns (tasks: seq<Task>)
    requires Picks(pick)
    ensures ListsAll(channels, pick, tasks)
  {
    hide Lists, Picked, PayerRecord;
    tasks := [];
    ghost var seen: set<(Term, Term)> := {};
    ListsNone(channels, pick);
    var left := channels.Keys;
    while left != {}
      invariant left <= channels.Keys
      invariant Lists(channels, pick, tasks, seen)
      invariant forall c, id :: c in channels.Keys - left && id in PayerRecord(channels[c]).latest.pending ==> (c, id) in seen
      invariant forall c, id :: (c, id) in seen ==> c in channels.Keys - left
      decreases |left|
    {
      var c :| c in left;
      var pending := PayerRecord(channels[c]).latest.pending;
      var rest := pending.Keys;
      ghost var before := seen;
      while rest != {}
        invariant rest <= pending.Keys
        invariant Lists(channels, pick, tasks, seen)
        invariant seen == before + set id | id in pending.Keys - rest :: (c, id)
        decreases |rest|
      {
        var id :| id in rest;
        var task := pick(c, channels[c], id);
        ListsOneMore(channels, pick, tasks, seen, c, id);
        if task.Some? {
          tasks := tasks + [task.value];
        }
        rest := rest - {id};
        seen := seen + {(c, id)};
      }
      left := left - {c};
    }
    assert SeenAll(channels, seen);
  }

  lemma ListsNone(channels: Channels, pick: Pick)
    requires Picks(pick)
    ensures Lists(channels, pick, [], {})
  {
  }

  lemma ListsOneMore(channels: Channels, pick: Pick, tasks: seq<Task>, seen: set<(Term, Term)>, c: Term, id: Term)
    requires Picks(pick) && Lists(channels, pick, tasks, seen)
    requires c in channels && id in PayerRecord(channels[c]).latest.pending && (c, id) !in seen
    ensures var task := pick(c, channels[c], id);
            Lists(channels, pick, if task.Some? then tasks + [task.value] else tasks, seen + {(c, id)})
  {
    hide PayerRecord;
    var task := pick(c, channels[c], id);
    var more := if task.Some? then tasks + [task.value] else tasks;
    forall d, x | Picked(channels, pick, d, x) && (d, x) in seen + {(c, id)}
      ensures exists i :: 0 <= i < |more| && more[i].channel == d && more[i].id == x
    {
      if d == c && x == id {
        assert more[|tasks|] == task.value;
      } else {
        var i :| 0 <= i < |tasks| && tasks[i].channel == d && tasks[i].id == x;
        assert more[i] == tasks[i];
      }
    }
  }

  /** The locks of one channel that a sweep takes up under an intent not used before. */
  ghost function Due(channels: Channels, pick: Pick, c: Term): set<Term>
    requires Picks(pick) && c in channels
  {
    set id | id in PayerRecord(channels[c]).latest.pending
             && pick(c, channels[c], id).Some? && !Spent(channels[c], pick(c, channels[c], id).value.intent)
  }

  /** Every task picked pays this node, under an intent that no other lock of the channel shares. */
  ghost predicate PaysOwn(channels: Channels, pick: Pick)
    requires Picks(pick)
  {
    && (forall c, id :: Picked(channels, pick, c, id) ==> Resolves(channels[c], pick(c, channels[c], id).value))
    && (forall c, id1, id2 :: Picked(channels, pick, c, id1) && Picked(channels, pick, c, id2) && id1 != id2 ==>
          pick(c, channels[c], id1).value.intent != pick(c, channels[c], id2).value.intent)
  }

  /** No proposal signed earlier under an intent of this sweep resolves some other lock. */
  ghost predicate NoCrossedRetry(channels: Channels, pick: Pick)
    requires Picks(pick)
  {
    forall c, id :: Picked(channels, pick, c, id) ==> RetriesAgree(channels[c], pick(c, channels[c], id).value)
  }

  lemma ListedSeparate(channels: Channels, pick: Pick, tasks: seq<Task>)
    requires Picks(pick) && ListsAll(channels, pick, tasks) && PaysOwn(channels, pick)
    ensures SeparateTasks(tasks)
    ensures forall i :: 0 <= i < |tasks| ==> tasks[i].channel in channels
  {
    hide SeenAll, PayerRecord, Resolves;
  }

  lemma ListedReady(channels: Channels, pick: Pick, tasks: seq<Task>)
    requires Picks(pick) && ListsAll(channels, pick, tasks) && PaysOwn(channels, pick)
    requires AllSound(channels) && NoCrossedRetry(channels, pick)
    ensures AllReady(channels, tasks)
  {
    hide SeenAll, PayerRecord, Resolves, RetriesAgree, Sound, Spent;
  }

  lemma ListedDue(channels: Channels, pick: Pick, tasks: seq<Task>, c: Term)
    requires Picks(pick) && ListsAll(channels, pick, tasks) && c in channels
    ensures Resolvable(channels[c], tasks, c, |tasks|) == Due(channels, pick, c)
  {
    hide Spent;
    var seen :| SeenAll(channels, seen) && Lists(channels, pick, tasks, seen);
    forall id | id in Due(channels, pick, c) ensures id in Resolvable(channels[c], tasks, c, |tasks|) {
      assert Picked(channels, pick, c, id);
      var i :| 0 <= i < |tasks| && tasks[i].channel == c && tasks[i].id == id;
    }
  }

  /** The result of driving some listing of exactly the picked locks. */
  ghost predicate Swept(channels: Channels, pick: Pick, net: Task -> Net, after: Channels, problems: seq<Problem>)
    requires Picks(pick)
  {
    exists tasks: seq<Task> ::
      && ListsAll(channels, pick, tasks)
      && (forall i :: 0 <= i < |tasks| ==> tasks[i].channel in channels)
      && Driven(channels, tasks, net, after, problems)
  }

  predicate Noted(problems: seq<Problem>, c: Term, id: Term) {
    exists j :: 0 <= j < |problems| &&
      match problems[j]
      case NoPeerFor(d) => d == c
      case NotResolved(x, _) => x == id
  }

  /** One channel after a sweep that may report problems: of the locks due it lost those it is
      paid for, every other one is noted as a problem, and nothing else went. */
  ghost predicate SweptOf(c: Term, m: Member, m': Member, due: set<Term>, problems: seq<Problem>) {
    var lost := PayerRecord(m).latest.pending.Keys - PayerRecord(m').latest.pending.Keys;
    && lost <= due && Collected(m, m', lost)
    && forall id :: id in due - lost ==> Noted(problems, c, id)
  }

  lemma SweptChannel(channels: Channels, pick: Pick, tasks: seq<Task>, net: Task -> Net, after: Channels,
                     problems: seq<Problem>, at: seq<nat>, c: Term)
    requires Picks(pick) && ListsAll(channels, pick, tasks) && c in channels && c in after
    requires forall i :: 0 <= i < |tasks| ==> tasks[i].channel in channels
    requires Reports(channels, tasks, net, problems, at, |tasks|)
    requires Collected(channels[c], after[c], Resolved(channels[c], tasks, net, c, |tasks|))
    ensures SweptOf(c, channels[c], after[c], Due(channels, pick, c), problems)
  {
    hide Spent, EndOf, ListsAll, Due;
    ListedDue(channels, pick, tasks, c);
    var m := channels[c];
    var ids := Resolved(m, tasks, net, c, |tasks|);
    DueArePending(channels, pick, c);
    CollectedLost(m, after[c], ids);
    forall id | id in Due(channels, pick, c) - ids ensures Noted(problems, c, id) {
      var i :| 0 <= i < |tasks| && tasks[i].channel == c && tasks[i].id == id && !Spent(m, tasks[i].intent);
      assert EndOf(m, tasks, net, i) != Some(Done);
      assert i in at;
      var j :| 0 <= j < |at| && at[j] == i;
      assert Tells(problems[j], tasks[i], EndOf(m, tasks, net, i));
    }
  }

  lemma DueArePending(channels: Channels, pick: Pick, c: Term)
    requires Picks(pick) && c in channels
    ensures Due(channels, pick, c) <= PayerRecord(channels[c]).latest.pending.Keys
  {
  }

  lemma CollectedLost(m: Member, m': Member, ids: set<Term>)
    requires Collected(m, m', ids) && ids <= PayerRecord(m).latest.pending.Keys
    ensures PayerRecord(m).latest.pending.Keys - PayerRecord(m').latest.pending.Keys == ids
  {
  }

  /** The channel is at rest, and everything the sweep takes up on it can be resolved in time
      under an intent neither party has used. */
  ghost predicate AllInTime(channels: Channels, pick: Pick, net: Task -> Net, c: Term)
    requires Picks(pick) && c in channels
  {
    && Clean(channels[c].link, channels[c].ownIsA)
    && forall id :: Picked(channels, pick, c, id) ==>
         var x := pick(c, channels[c], id).value;
         InTime(x, net(x)) && forall side :: x.intent !in NodeOf(channels[c].link, side).applied
  }

  lemma ListedRestful(channels: Channels, pick: Pick, tasks: seq<Task>, net: Task -> Net, c: Term)
    requires Picks(pick) && ListsAll(channels, pick, tasks) && PaysOwn(channels, pick) && c in channels
    requires AllInTime(channels, pick, net, c)
    ensures Restful(channels[c], tasks, net, c, 0)
  {
    hide SeenAll, Resolves, Clean, InTime, PayerRecord;
    forall i | 0 <= i < |tasks| && tasks[i].channel == c
      ensures Resolves(channels[c], tasks[i]) && InTime(tasks[i], net(tasks[i]))
      ensures forall side :: tasks[i].intent !in NodeOf(channels[c].link, side).applied
    {
      assert Picked(channels, pick, c, tasks[i].id);
    }
  }

  /** Lists the picked locks and drives them. */
  method Sweep(channels: Channels, pick: Pick, net: Task -> Net) returns (after: Channels, problems: seq<Problem>)
    requires Picks(pick) && PaysOwn(channels, pick) && AllSound(channels)
    ensures Swept(channels, pick, net, after, problems)
    ensures after.Keys == channels.Keys && AllSound(after)
    ensures NoCrossedRetry(channels, pick) ==>
              forall c :: c in channels ==> SweptOf(c, channels[c], after[c], Due(channels, pick, c), problems)
    ensures problems == [] && NoCrossedRetry(channels, pick) ==>
              forall c :: c in channels ==> Collected(channels[c], after[c], Due(channels, pick, c))
    ensures NoCrossedRetry(channels, pick) ==>
              forall c :: c in channels && AllInTime(channels, pick, net, c) ==>
                Collected(channels[c], after[c], Due(channels, pick, c))
  {
    hide AllInTime, Restful, PaysOwn, NoCrossedRetry, ListsAll, AllReady, AllSound, Collected, Due, Resolvable, Resolved, SeparateTasks, SweptOf,
         Reports;
    var tasks := ListTasks(channels, pick);
    ListedSeparate(channels, pick, tasks);
    after, problems := DriveAll(channels, tasks, net);
    if NoCrossedRetry(channels, pick) {
      ListedReady(channels, pick, tasks);
      ghost var at :| Reports(channels, tasks, net, problems, at, |tasks|);
      forall c | c in channels
        ensures SweptOf(c, channels[c], after[c], Due(channels, pick, c), problems)
        ensures problems == [] || AllInTime(channels, pick, net, c) ==>
                  Collected(channels[c], after[c], Due(channels, pick, c))
      {
        if AllInTime(channels, pick, net, c) {
          ListedRestful(channels, pick, tasks, net, c);
        }
        SweptChannel(channels, pick, tasks, net, after, problems, at, c);
        ListedDue(channels, pick, tasks, c);
      }
    }
  }

  // ---- the two sweeps ----------------------------------------------------------------------------

  /** Locks offered to this node whose secret it holds and whose instance it never claimed. */
  ghost function Claimable(c: Term, m: Member, vault: Secrets): set<Term> {
    var s := PayerRecord(m).latest;
    set id | id in s.pending && s.pending[id].payerIsA != m.ownIsA && s.pending[id].hash in vault
             && !Spent(m, ClaimIntent(Incoming(c, id, s.pending[id])))
  }

  /** Long-expired locks of its own that this node cannot open, under an id it never refunded. */
  ghost function Refundable(m: Member, vault: Secrets, now: int): set<Term> {
    var s := PayerRecord(m).latest;
    set id | id in s.pending && s.pending[id].payerIsA == m.ownIsA && s.pending[id].hash !in vault
             && s.pending[id].expiry <= now - REFUND_SKEW_MARGIN
             && !Spent(m, RefundExpiredIntent(id))
  }

  /** Anything outstanding under the intent a claim would use is a settlement of that lock. */
  ghost predicate ClaimsRetryOwn(m: Member, c: Term) {
    var n := PayerRecord(m);
    n.pending.Some? ==>
      forall id ::
        id in n.latest.pending && n.pending.value.intent == ClaimIntent(Incoming(c, id, n.latest.pending[id])) ==>
          n.pending.value.tr.LockSettle? && n.pending.value.tr.id == id
  }

  /** Anything outstanding under a refund intent is a refund of that lock. */
  ghost predicate RefundsRetryOwn(m: Member) {
    var n := PayerRecord(m);
    n.pending.Some? ==>
      forall id :: n.pending.value.intent == RefundExpiredIntent(id) ==>
        n.pending.value.tr.LockRefund? && n.pending.value.tr.id == id
  }

  lemma ClaimsPick(vault: Secrets)
    ensures Picks(ClaimPick(vault))
  {
    hide PayerRecord;
  }

  lemma RefundsPick(vault: Secrets, now: int)
    ensures Picks(RefundPick(vault, now))
  {
    hide PayerRecord;
  }

  lemma ClaimsPayOwn(channels: Channels, vault: Secrets, pick: Pick)
    requires pick == ClaimPick(vault) && Picks(pick)
    ensures PaysOwn(channels, pick)
    ensures (forall c :: c in channels ==> ClaimsRetryOwn(channels[c], c)) ==> NoCrossedRetry(channels, pick)
    ensures forall c :: c in channels ==> Due(channels, pick, c) == Claimable(c, channels[c], vault)
  {
    hide PayerRecord, Minimal, Word64;
  }

  /** A channel at rest whose peer answers any attempt while the offered lock has time left by
      both clocks; the secrets open what they are kept for, and no claim was made before. */
  ghost predicate ClaimsInTime(c: Term, m: Member, vault: Secrets, net: Task -> Net) {
    var s := PayerRecord(m).latest;
    && Clean(m.link, m.ownIsA) && Opens(vault)
    && (forall id, tr :: id in s.pending && s.pending[id].payerIsA != m.ownIsA ==>
          var e := net(Task(c, id, s.pending[id], ClaimIntent(Incoming(c, id, s.pending[id])), tr));
          && Answers(e) && s.pending[id].expiry > e.mine.now + e.mine.skew && s.pending[id].expiry > e.theirs.now + e.theirs.skew)
    && forall id, side :: id in s.pending && s.pending[id].payerIsA != m.ownIsA ==>
         ClaimIntent(Incoming(c, id, s.pending[id])) !in NodeOf(m.link, side).applied
  }

  lemma ClaimsRest(channels: Channels, vault: Secrets, pick: Pick, net: Task -> Net, c: Term)
    requires pick == ClaimPick(vault) && Picks(pick) && c in channels && ClaimsInTime(c, channels[c], vault, net)
    ensures AllInTime(channels, pick, net, c)
  {
    hide Clean, ClaimIntent;
    var s := PayerRecord(channels[c]).latest;
    forall id | Picked(channels, pick, c, id)
      ensures var x := pick(c, channels[c], id).value;
              InTime(x, net(x)) && forall side :: x.intent !in NodeOf(channels[c].link, side).applied
    {
      var x := pick(c, channels[c], id).value;
      assert x == Task(c, id, s.pending[id], ClaimIntent(Incoming(c, id, s.pending[id])), x.tr);
    }
  }

  /** The same for the locks this node put up, once they are past their expiry. */
  ghost predicate RefundsInTime(c: Term, m: Member, net: Task -> Net, now: int) {
    var s := PayerRecord(m).latest;
    && Clean(m.link, m.ownIsA)
    && (forall id, tr :: id in s.pending && s.pending[id].payerIsA == m.ownIsA && s.pending[id].expiry <= now - 120 ==>
          var e := net(Task(c, id, s.pending[id], RefundExpiredIntent(id), tr));
          Answers(e) && s.pending[id].expiry <= e.theirs.now - e.theirs.skew)
    && forall id, side :: id in s.pending && s.pending[id].payerIsA == m.ownIsA ==>
         RefundExpiredIntent(id) !in NodeOf(m.link, side).applied
  }

  lemma RefundsRest(channels: Channels, vault: Secrets, now: int, pick: Pick, net: Task -> Net, c: Term)
    requires pick == RefundPick(vault, now) && Picks(pick) && c in channels && RefundsInTime(c, channels[c], net, now)
    ensures AllInTime(channels, pick, net, c)
  {
    hide Clean, RefundExpiredIntent;
    var s := PayerRecord(channels[c]).latest;
    forall id | Picked(channels, pick, c, id)
      ensures var x := pick(c, channels[c], id).value;
              InTime(x, net(x)) && forall side :: x.intent !in NodeOf(channels[c].link, side).applied
    {
      var x := pick(c, channels[c], id).value;
      assert x == Task(c, id, s.pending[id], RefundExpiredIntent(id), x.tr);
    }
  }

  /** The claim sweep is honest: with no problem reported, each channel has lost exactly
      the claimable locks, and this node holds exactly their value more. When no lock
      instance was claimed before, that is every offered lock with a known secret. */
  method SweepClaimable(channels: Channels, vault: Secrets, net: Task -> Net)
    returns (after: Channels, problems: seq<Problem>)
    requires AllSound(channels)
    ensures Picks(ClaimPick(vault)) && Swept(channels, ClaimPick(vault), net, after, problems)
    ensures after.Keys == channels.Keys && AllSound(after)
    ensures (forall c :: c in channels ==> ClaimsRetryOwn(channels[c], c)) ==>
              forall c :: c in channels ==> SweptOf(c, channels[c], after[c], Claimable(c, channels[c], vault), problems)
    ensures (forall c :: c in channels ==> ClaimsRetryOwn(channels[c], c)) ==>
              forall c :: c in channels && ClaimsInTime(c, channels[c], vault, net) ==>
                Collected(channels[c], after[c], Claimable(c, channels[c], vault))
    ensures problems == [] && (forall c :: c in channels ==> ClaimsRetryOwn(channels[c], c)) ==>
              forall c :: c in channels ==> Collected(channels[c], after[c], Claimable(c, channels[c], vault))
  {
    hide ClaimsInTime, PayerRecord, ClaimsRetryOwn, Claimable, AllSound, Collected, PaysOwn, NoCrossedRetry, Due, ClaimIntent, Swept, SweptOf, AllInTime, ClaimPick, Picks;
    ClaimsPick(vault);
    var pick := ClaimPick(vault);
    ClaimsPayOwn(channels, vault, pick);
    forall c | c in channels && ClaimsInTime(c, channels[c], vault, net) ensures AllInTime(channels, pick, net, c) {
      ClaimsRest(channels, vault, pick, net, c);
    }
    after, problems := Sweep(channels, pick, net);
  }

  lemma RefundsPayOwn(channels: Channels, vault: Secrets, now: int, pick: Pick)
    requires pick == RefundPick(vault, now) && Picks(pick)
    ensures PaysOwn(channels, pick)
    ensures (forall c :: c in channels ==> RefundsRetryOwn(channels[c])) ==> NoCrossedRetry(channels, pick)
    ensures forall c :: c in channels ==> Due(channels, pick, c) == Refundable(channels[c], vault, now)
  {
    hide PayerRecord;
  }

  /** With no problem reported, the refund sweep has taken back exactly the refundable locks:
      an expired lock is left pending precisely when some lock of that id was refunded before. */
  method RefundExpired(channels: Channels, vault: Secrets, now: int, net: Task -> Net)
    returns (after: Channels, problems: seq<Problem>)
    requires AllSound(channels)
    ensures Picks(RefundPick(vault, now)) && Swept(channels, RefundPick(vault, now), net, after, problems)
    ensures after.Keys == channels.Keys && AllSound(after)
    ensures (forall c :: c in channels ==> RefundsRetryOwn(channels[c])) ==>
              forall c :: c in channels ==> SweptOf(c, channels[c], after[c], Refundable(channels[c], vault, now), problems)
    ensures (forall c :: c in channels ==> RefundsRetryOwn(channels[c])) ==>
              forall c :: c in channels && RefundsInTime(c, channels[c], net, now) ==>
                Collected(channels[c], after[c], Refundable(channels[c], vault, now))
    ensures problems == [] && (forall c :: c in channels ==> RefundsRetryOwn(channels[c])) ==>
              forall c :: c in channels ==> Collected(channels[c], after[c], Refundable(channels[c], vault, now))
  {
    hide RefundsInTime, PayerRecord, RefundsRetryOwn, Refundable, AllSound, Collected, PaysOwn, NoCrossedRetry, Due, RefundExpiredIntent, Swept, SweptOf, AllInTime, RefundPick, Picks;
    RefundsPick(vault, now);
    var pick := RefundPick(vault, now);
    RefundsPayOwn(channels, vault, now, pick);
    forall c | c in channels && RefundsInTime(c, channels[c], net, now) ensures AllInTime(channels, pick, net, c) {
      RefundsRest(channels, vault, now, pick, net, c);
    }
    after, problems := Sweep(channels, pick, net);
  }

  // ---- one lock instance against one lock id --------------------------------------------------------

  lemma Word64Injective(a: int, b: int)
    requires Int64(a) && Int64(b) && Word64(a) == Word64(b)
    ensures a == b
  {
    hide BigEndian, Pow256;
    Word64Fits(a % 0x1_0000_0000_0000_0000, b % 0x1_0000_0000_0000_0000, 32);
  }

  lemma Word64Fits(a: nat, b: nat, k: nat)
    requires a < 0x1_0000_0000_0000_0000 && b < 0x1_0000_0000_0000_0000 && k >= 8
    requires BigEndian(a, k) == BigEndian(b, k)
    ensures a == b
  {
    hide BigEndian;
    Pow256Monotone(8, k);
    assert Pow256(8) == 0x1_0000_0000_0000_0000;
    BigEndianInjective(a, b, k);
  }

  /** Two offered locks share a claim intent only when they are the same instance,
      whoever of the two parties put them up. */
  lemma ClaimIntentIsOneInstance(x: Incoming, y: Incoming)
    requires x.lock.amount > 0 && y.lock.amount > 0 && Int64(x.lock.expiry) && Int64(y.lock.expiry)
    ensures ClaimIntent(x) == ClaimIntent(y) <==>
              x.channel == y.channel && x.id == y.id && x.lock.(payerIsA := y.lock.payerIsA) == y.lock
  {
    if ClaimIntent(x) == ClaimIntent(y) {
      var p, q := ClaimIntent(x).parts, ClaimIntent(y).parts;
      assert p[0] == q[0] && p[1] == q[1] && p[2] == q[2] && p[3] == q[3] && p[4] == q[4];
      MinimalInjective(x.lock.amount, y.lock.amount);
      Word64Injective(x.lock.expiry, y.lock.expiry);
    }
  }

  ghost predicate Timely(s: State, t: Transition, mine: Clock, theirs: Clock) {
    (t.LockSettle? ==> TimingRefusal(s, t, mine).None?) && TimingRefusal(s, t, theirs).None?
  }

  /** One answered exchange in which nothing stands in the way. */
  ghost predicate Smooth(l: Link, isA: bool, intent: Term, t: Transition, mine: Clock, theirs: Clock) {
    && Clean(l, isA) && Apply(NodeOf(l, isA).latest, t, isA).Ok?
    && intent !in NodeOf(l, isA).applied && intent !in NodeOf(l, !isA).applied
    && Timely(NodeOf(l, isA).latest, t, mine, theirs)
  }

  lemma SmoothMoves(l: Link, isA: bool, intent: Term, t: Transition, mine: Clock, theirs: Clock)
    requires Smooth(l, isA, intent, t, mine, theirs)
    ensures var l' := PayOn(l, isA, intent, t, Answered, mine, theirs).0;
            && Clean(l', isA)
            && Ok(NodeOf(l', isA).latest) == Apply(NodeOf(l, isA).latest, t, isA)
            && NodeOf(l', isA).applied.Keys == NodeOf(l, isA).applied.Keys + {intent}
            && NodeOf(l', !isA).applied.Keys == NodeOf(l, !isA).applied.Keys + {intent}
  {
    ExchangeMoves(l, isA, intent, t, Answered, mine, theirs);
    hide PayOn, Apply, Clean;
  }

  /** A lock one side offers, and when it does so and takes it back. */
  datatype Offer = Offer(intent: Term, hash: Term, amount: int, expiry: int, placed: Clock, swept: Clock)

  ghost predicate CanOffer(s: State, isA: bool, o: Offer) {
    && o.amount > 0 && o.expiry > 0 && BalanceOf(s, isA) >= o.amount
    && o.expiry >= o.placed.now + o.placed.minLockWindow
  }

  ghost predicate Placeable(s: State, isA: bool, o: Offer) {
    CanOffer(s, isA, o) && !RefundTooEarly(o.expiry, o.swept)
  }

  /** The refund intent names only the lock id, which is free again once its lock is gone.
      A hub whose lock was swept back, and which then puts up a second lock under the
      same id, is told that the sweep of the second one succeeded; the lock stays. */
  lemma RefundSweepMissesReusedId(l: Link, isA: bool, id: Term, o1: Offer, o2: Offer)
    requires Clean(l, isA) && id !in NodeOf(l, isA).latest.pending
    requires Placeable(NodeOf(l, isA).latest, isA, o1) && Placeable(NodeOf(l, isA).latest, isA, o2)
    requires o1.intent != o2.intent && RefundExpiredIntent(id) != o1.intent && RefundExpiredIntent(id) != o2.intent
    requires forall side :: NodeOf(l, side).applied.Keys !! {o1.intent, o2.intent, RefundExpiredIntent(id)}
    ensures var x, refund := RefundExpiredIntent(id), LockRefund(id);
            var l1 := PayOn(l, isA, o1.intent, AddOf(id, o1), Answered, o1.placed, o1.placed).0;
            var l2 := PayOn(l1, isA, x, refund, Answered, o1.swept, o1.swept).0;
            var l3 := PayOn(l2, isA, o2.intent, AddOf(id, o2), Answered, o2.placed, o2.placed).0;
            var (l4, r) := PayOn(l3, isA, x, refund, Answered, o2.swept, o2.swept);
            && id !in NodeOf(l2, isA).latest.pending
            && id in NodeOf(l3, isA).latest.pending
            && r == Done && l4 == l3
  {
    hide PayOn, Apply, Clean, TimingRefusal, Timely;
    var x, refund := RefundExpiredIntent(id), LockRefund(id);
    AddApplies(NodeOf(l, isA).latest, isA, id, o1);
    SmoothMoves(l, isA, o1.intent, AddOf(id, o1), o1.placed, o1.placed);
    var l1 := PayOn(l, isA, o1.intent, AddOf(id, o1), Answered, o1.placed, o1.placed).0;
    RefundApplies(NodeOf(l1, isA).latest, isA, id, o1.amount, o1.swept);
    SmoothMoves(l1, isA, x, refund, o1.swept, o1.swept);
    var l2 := PayOn(l1, isA, x, refund, Answered, o1.swept, o1.swept).0;
    AddApplies(NodeOf(l2, isA).latest, isA, id, o2);
    SmoothMoves(l2, isA, o2.intent, AddOf(id, o2), o2.placed, o2.placed);
    var l3 := PayOn(l2, isA, o2.intent, AddOf(id, o2), Answered, o2.placed, o2.placed).0;
    SpentChangesNothing(l3, isA, x, refund, Answered, o2.swept, o2.swept);
    CleanAgrees(l3, isA);
  }

  lemma SettleApplies(s: State, isA: bool, id: Term, preimage: Term, c: Clock)
    requires id in s.pending && s.pending[id].payerIsA != isA && Matches(s.pending[id], preimage)
    requires !SettleTooLate(s.pending[id].expiry, c)
    ensures var t := LockSettle(id, preimage);
            && Apply(s, t, isA).Ok? && Timely(s, t, c, c)
            && Apply(s, t, isA).value.pending == s.pending - {id}
            && BalanceOf(Apply(s, t, isA).value, !isA) == BalanceOf(s, !isA)
  {
  }

  /** The claim intent names one lock instance, and a peer may offer the identical lock a
      second time once the first is gone. The hub that claimed the first is told that
      the sweep of the second one succeeded; that lock stays. */
  lemma ClaimSweepMissesReofferedLock(l: Link, isA: bool, channel: Term, id: Term, preimage: Term, o: Offer, again: Term)
    requires Clean(l, !isA) && id !in NodeOf(l, !isA).latest.pending
    requires CanOffer(NodeOf(l, !isA).latest, !isA, o) && BalanceOf(NodeOf(l, !isA).latest, !isA) >= 2 * o.amount
    requires o.hash == Keccak(preimage) && !SettleTooLate(o.expiry, o.swept)
    requires var x := ClaimIntent(Incoming(channel, id, Lock(o.hash, o.amount, o.expiry, !isA)));
             && o.intent != again && x != o.intent && x != again
             && forall side :: NodeOf(l, side).applied.Keys !! {o.intent, again, x}
    ensures var x := ClaimIntent(Incoming(channel, id, Lock(o.hash, o.amount, o.expiry, !isA)));
            var settle := LockSettle(id, preimage);
            var l1 := PayOn(l, !isA, o.intent, AddOf(id, o), Answered, o.placed, o.placed).0;
            var l2 := PayOn(l1, isA, x, settle, Answered, o.swept, o.swept).0;
            var l3 := PayOn(l2, !isA, again, AddOf(id, o), Answered, o.placed, o.placed).0;
            var (l4, r) := PayOn(l3, isA, x, settle, Answered, o.swept, o.swept);
            && id !in NodeOf(l2, isA).latest.pending
            && id in NodeOf(l3, isA).latest.pending
            && NodeOf(l3, isA).latest.pending[id] == NodeOf(l1, isA).latest.pending[id]
            && r == Done && l4 == l3
  {
    hide PayOn, Apply, Clean, TimingRefusal, Timely, ClaimIntent;
    var x, settle := ClaimIntent(Incoming(channel, id, Lock(o.hash, o.amount, o.expiry, !isA))), LockSettle(id, preimage);
    AddApplies(NodeOf(l, !isA).latest, !isA, id, o);
    SmoothMoves(l, !isA, o.intent, AddOf(id, o), o.placed, o.placed);
    var l1 := PayOn(l, !isA, o.intent, AddOf(id, o), Answered, o.placed, o.placed).0;
    CleanBoth(l1, !isA);
    SettleApplies(NodeOf(l1, isA).latest, isA, id, preimage, o.swept);
    SmoothMoves(l1, isA, x, settle, o.swept, o.swept);
    var l2 := PayOn(l1, isA, x, settle, Answered, o.swept, o.swept).0;
    CleanBoth(l2, isA);
    AddApplies(NodeOf(l2, !isA).latest, !isA, id, o);
    SmoothMoves(l2, !isA, again, AddOf(id, o), o.placed, o.placed);
    var l3 := PayOn(l2, !isA, again, AddOf(id, o), Answered, o.placed, o.placed).0;
    CleanBoth(l3, !isA);
    SpentChangesNothing(l3, isA, x, settle, Answered, o.swept, o.swept);
    CleanAgrees(l3, isA);
  }

  lemma CleanBoth(l: Link, isA: bool)
    requires Clean(l, isA)
    ensures Clean(l, !isA) && NodeOf(l, isA).latest == NodeOf(l, !isA).latest
  {
  }

  function AddOf(id: Term, o: Offer): Transition {
    LockAdd(id, o.hash, o.amount, o.expiry)
  }

  lemma CleanAgrees(l: Link, isA: bool)
    requires Clean(l, isA)
    ensures !NodeOf(l, isA).conflict
  {
  }

  lemma AddApplies(s: State, isA: bool, id: Term, o: Offer)
    requires CanOffer(s, isA, o) && id !in s.pending
    ensures var t := AddOf(id, o);
            && Apply(s, t, isA).Ok? && Timely(s, t, o.placed, o.placed)
            && Apply(s, t, isA).value.pending == s.pending[id := Lock(o.hash, o.amount, o.expiry, isA)]
            && BalanceOf(Apply(s, t, isA).value, isA) == BalanceOf(s, isA) - o.amount
  {
  }

  lemma RefundApplies(s: State, isA: bool, id: Term, amount: int, c: Clock)
    requires id in s.pending && s.pending[id].payerIsA == isA && s.pending[id].amount == amount
    requires !RefundTooEarly(s.pending[id].expiry, c)
    ensures var t := LockRefund(id);
            && Apply(s, t, isA).Ok? && Timely(s, t, c, c)
            && Apply(s, t, isA).value.pending == s.pending - {id}
            && BalanceOf(Apply(s, t, isA).value, isA) == BalanceOf(s, isA) + amount
  {
  }
}
