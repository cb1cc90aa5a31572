/** Offering a lock onwards and claiming one upstream, on real channels: what a hub's two
    single-payment calls do to its records. */
module Forwarder {
  import opened Common
  import opened Symbols
  import opened ChannelState
  import opened Protocol
  import opened Agreement
  import opened Vault
  import opened MultipathProgress
  import opened Sweeps

  datatype Outcome =
    | NotAdopted
    | NotTheForwarder
    | NoSuchIncoming
    | NoMargin
    | SecretUnknown
    | Attempted(result: Option<PayResult>)

  /** The lock a hub writes downstream: same id, hash and amount, expiring earlier. */
  function Onward(x: Incoming, margin: int): Transition {
    LockAdd(x.id, x.lock.hash, x.lock.amount, x.lock.expiry - margin)
  }

  /** The incoming lock is described by the caller; of the channel's own record only the
      presence of its id is checked. */
  function Forward(channels: Channels, x: Incoming, out: Term, intent: Term, net: Net, now: int, margin: int)
    : (Channels, Outcome)
  {
    if x.channel !in channels then (channels, NotAdopted)
    else if x.lock.payerIsA == channels[x.channel].ownIsA then (channels, NotTheForwarder)
    else if x.id !in PayerRecord(channels[x.channel]).latest.pending then (channels, NoSuchIncoming)
    else if x.lock.expiry - margin <= now then (channels, NoMargin)
    else if out !in channels then (channels, NotAdopted)
    else
      var (m, r) := PayVia(channels[out], intent, Onward(x, margin), net);
      (channels[out := m], Attempted(r))
  }

  function ClaimUpstream(channels: Channels, x: Incoming, intent: Term, net: Net, vault: Secrets): (Channels, Outcome) {
    if x.lock.hash !in vault then (channels, SecretUnknown)
    else if x.channel !in channels then (channels, NotAdopted)
    else
      var (m, r) := PayVia(channels[x.channel], intent, LockSettle(x.id, vault[x.lock.hash]), net);
      (channels[x.channel := m], Attempted(r))
  }

  /** Nothing is outstanding that would be sent in place of `t`. */
  ghost predicate SendsOwn(m: Member, intent: Term, t: Transition) {
    Outgoing(PayerRecord(m), intent, t) == t
  }

  lemma PayDone(m: Member, intent: Term, t: Transition, net: Net)
    requires Sound(m.link) && !Spent(m, intent) && SendsOwn(m, intent, t)
    requires PayVia(m, intent, t, net).1 == Some(Done)
    ensures var m' := PayVia(m, intent, t, net).0;
            m'.ownIsA == m.ownIsA && Apply(PayerRecord(m).latest, t, m.ownIsA) == Ok(PayerRecord(m').latest)
  {
    hide Sound, PayOn, Apply;
    PayEffect(m.link, m.ownIsA, intent, t, net.delivery, net.mine, net.theirs);
  }

  /** A forward under a fresh intent that reports done has put exactly one lock on the
      outgoing channel, paid for by the hub, that expires the margin before the incoming
      one was said to and not before now; no other channel moves. */
  lemma ForwardPlacesOneLock(channels: Channels, x: Incoming, out: Term, intent: Term, net: Net, now: int, margin: int)
    requires out in channels && Sound(channels[out].link)
    requires !Spent(channels[out], intent) && SendsOwn(channels[out], intent, Onward(x, margin))
    ensures var (after, r) := Forward(channels, x, out, intent, net, now, margin);
            var s, s' := PayerRecord(channels[out]).latest, PayerRecord(after[out]).latest;
            && (forall c :: c in channels && c != out ==> after[c] == channels[c])
            && (r == Attempted(Some(Done)) ==>
                  && x.id !in s.pending
                  && s'.pending == s.pending[x.id := Lock(x.lock.hash, x.lock.amount, x.lock.expiry - margin, channels[out].ownIsA)]
                  && BalanceOf(s', channels[out].ownIsA) == BalanceOf(s, channels[out].ownIsA) - x.lock.amount
                  && now < x.lock.expiry - margin)
            && (r != Attempted(Some(Done)) && !r.Attempted? ==> after == channels)
  {
    hide Sound, PayVia, Spent, SendsOwn;
    if Forward(channels, x, out, intent, net, now, margin).1 == Attempted(Some(Done)) {
      PayDone(channels[out], intent, Onward(x, margin), net);
    }
  }

  /** The outgoing lock mirrors the one really pending upstream exactly when the caller
      described that one: a description that is off is carried downstream as it is. */
  lemma MirrorsWhatWasDescribed(channels: Channels, x: Incoming, out: Term, intent: Term, net: Net, now: int, margin: int)
    requires out in channels && Sound(channels[out].link) && x.channel in channels && out != x.channel
    requires !Spent(channels[out], intent) && SendsOwn(channels[out], intent, Onward(x, margin))
    requires Forward(channels, x, out, intent, net, now, margin).1 == Attempted(Some(Done))
    ensures var after := Forward(channels, x, out, intent, net, now, margin).0;
            && x.channel in after && x.id in PayerRecord(after[x.channel]).latest.pending
            && out in after && x.id in PayerRecord(after[out]).latest.pending
            && var up := PayerRecord(after[x.channel]).latest.pending[x.id];
            var down := PayerRecord(after[out]).latest.pending[x.id];
            (down.hash == up.hash && down.amount == up.amount && down.expiry == up.expiry - margin)
            <==> x.lock.(payerIsA := up.payerIsA) == up
  {
    hide Sound, PayVia, Spent, SendsOwn, Forward, PayerRecord;
    ForwardGuards(channels, x, out, intent, net, now, margin);
    ForwardPlacesOneLock(channels, x, out, intent, net, now, margin);
    SameTerms(PayerRecord(channels[x.channel]).latest.pending[x.id], x.lock,
              Lock(x.lock.hash, x.lock.amount, x.lock.expiry - margin, channels[out].ownIsA), margin);
  }

  lemma ForwardGuards(channels: Channels, x: Incoming, out: Term, intent: Term, net: Net, now: int, margin: int)
    requires Forward(channels, x, out, intent, net, now, margin).1.Attempted?
    ensures x.channel in channels && x.id in PayerRecord(channels[x.channel]).latest.pending
    ensures Forward(channels, x, out, intent, net, now, margin).0.Keys == channels.Keys
  {
    hide PayVia;
  }

  lemma SameTerms(up: Lock, described: Lock, down: Lock, margin: int)
    requires down.hash == described.hash && down.amount == described.amount && down.expiry == described.expiry - margin
    ensures (down.hash == up.hash && down.amount == up.amount && down.expiry == up.expiry - margin)
            <==> described.(payerIsA := up.payerIsA) == up
  {
  }

  /** What the hub may forward against: an adopted channel's pending lock, said to be put up by
      the other party, that leaves the margin, onto another adopted channel. */
  predicate Forwardable(channels: Channels, x: Incoming, out: Term, now: int, margin: int) {
    && x.channel in channels && out in channels
    && x.lock.payerIsA == !channels[x.channel].ownIsA
    && x.id in NodeOf(channels[x.channel].link, channels[x.channel].ownIsA).latest.pending
    && now + margin < x.lock.expiry
  }

  /** An attempt is made exactly then, and it offers the same id, hash and amount, the margin
      earlier; each refusal has its own cause, and none of them moves anything. */
  lemma ForwardsExactly(channels: Channels, x: Incoming, out: Term, intent: Term, net: Net, now: int, margin: int)
    ensures var (after, r) := Forward(channels, x, out, intent, net, now, margin);
            var adopted := x.channel in channels;
            var offered := adopted && x.lock.payerIsA == !channels[x.channel].ownIsA;
            var held := offered && x.id in NodeOf(channels[x.channel].link, channels[x.channel].ownIsA).latest.pending;
            && (r.Attempted? <==> Forwardable(channels, x, out, now, margin))
            && (r == NotAdopted <==> !adopted || (held && now + margin < x.lock.expiry && out !in channels))
            && (r == NotTheForwarder <==> adopted && !offered)
            && (r == NoSuchIncoming <==> offered && !held)
            && (r == NoMargin <==> held && x.lock.expiry <= now + margin)
            && (r.Attempted? ==>
                  var t := LockAdd(x.id, x.lock.hash, x.lock.amount, x.lock.expiry - margin);
                  var (m, p) := PayVia(channels[out], intent, t, net);
                  after == channels[out := m] && r.result == p)
            && (!r.Attempted? ==> after == channels)
  {
    hide PayVia;
  }

  /** The lock the hub attempts to forward against was put up by the other party exactly when
      the caller described it so truthfully: of the record only the id is read. */
  lemma OwnLockExactly(channels: Channels, x: Incoming, out: Term, intent: Term, net: Net, now: int, margin: int)
    requires Forward(channels, x, out, intent, net, now, margin).1.Attempted?
    ensures Forwardable(channels, x, out, now, margin)
    ensures var m := channels[x.channel];
            var up := NodeOf(m.link, m.ownIsA).latest.pending[x.id];
            up.payerIsA == m.ownIsA <==> up.payerIsA != x.lock.payerIsA
  {
    ForwardsExactly(channels, x, out, intent, net, now, margin);
    hide Forward, PayVia;
  }

  /** What the peer of a channel at rest still has to find in order. */
  predicate RoomFor(s: State, isA: bool, x: Incoming, margin: int, theirs: Clock) {
    && x.lock.amount > 0 && x.lock.expiry - margin > 0
    && (if isA then s.balanceA else s.balanceB) >= x.lock.amount && x.id !in s.pending
    && x.lock.expiry - margin >= theirs.now + theirs.minLockWindow
  }

  /** Over a channel at rest and under an intent neither party has used, a forward ends done
      exactly when it may be attempted, the peer answers, and there is room. */
  lemma ForwardEndsDone(channels: Channels, x: Incoming, out: Term, intent: Term, net: Net, now: int, margin: int)
    requires out in channels && Clean(channels[out].link, channels[out].ownIsA)
    requires forall side :: intent !in NodeOf(channels[out].link, side).applied
    ensures var m := channels[out];
            Forward(channels, x, out, intent, net, now, margin).1 == Attempted(Some(Done))
            <==> && Forwardable(channels, x, out, now, margin) && Answers(net)
                 && RoomFor(NodeOf(m.link, m.ownIsA).latest, m.ownIsA, x, margin, net.theirs)
  {
    ForwardsExactly(channels, x, out, intent, net, now, margin);
    if Forwardable(channels, x, out, now, margin) && net.Reach? {
      PaysAtRest(channels[out].link, channels[out].ownIsA, intent, Onward(x, margin), net);
      ProposerLocks(NodeOf(channels[out].link, channels[out].ownIsA).latest, x.id, x.lock.hash, x.lock.amount,
                    x.lock.expiry - margin, channels[out].ownIsA);
    }
    hide Forward, Clean, PayOn, Apply;
  }

  /** A claim is attempted exactly with a secret for the hash and over an adopted channel, and
      it settles that lock id with that secret. */
  lemma ClaimsExactly(channels: Channels, x: Incoming, intent: Term, net: Net, vault: Secrets)
    ensures var (after, r) := ClaimUpstream(channels, x, intent, net, vault);
            && (r == SecretUnknown <==> x.lock.hash !in vault)
            && (r == NotAdopted <==> x.lock.hash in vault && x.channel !in channels)
            && (r.Attempted? <==> x.lock.hash in vault && x.channel in channels)
            && (r.Attempted? ==>
                  var (m, p) := PayVia(channels[x.channel], intent, LockSettle(x.id, vault[x.lock.hash]), net);
                  after == channels[x.channel := m] && r.result == p)
            && (!r.Attempted? ==> after == channels)
  {
    hide PayVia;
  }

  /** Over a channel at rest it ends done exactly when, besides, the peer answers, the lock is
      pending, the secret opens it, and its expiry is far enough ahead of both clocks. */
  lemma ClaimEndsDone(channels: Channels, x: Incoming, intent: Term, net: Net, vault: Secrets)
    requires x.channel in channels && Clean(channels[x.channel].link, channels[x.channel].ownIsA)
    requires forall side :: intent !in NodeOf(channels[x.channel].link, side).applied
    ensures var s := NodeOf(channels[x.channel].link, channels[x.channel].ownIsA).latest;
            ClaimUpstream(channels, x, intent, net, vault).1 == Attempted(Some(Done))
            <==> && x.lock.hash in vault && Answers(net) && x.id in s.pending
                 && s.pending[x.id].hash == Keccak(vault[x.lock.hash])
                 && s.pending[x.id].expiry > net.mine.now + net.mine.skew
                 && s.pending[x.id].expiry > net.theirs.now + net.theirs.skew
  {
    ClaimsExactly(channels, x, intent, net, vault);
    if x.lock.hash in vault && net.Reach? {
      var m := channels[x.channel];
      PaysAtRest(m.link, m.ownIsA, intent, LockSettle(x.id, vault[x.lock.hash]), net);
      ResolvedToItsParty(NodeOf(m.link, m.ownIsA).latest, x.id, vault[x.lock.hash], m.ownIsA);
    }
    hide ClaimUpstream, Clean, PayOn, Apply;
  }

  /** A claim under a fresh intent that reports done has taken the lock off the incoming
      channel and paid the hub its amount; the secret it used opens the lock. */
  lemma ClaimCollects(channels: Channels, x: Incoming, intent: Term, net: Net, vault: Secrets)
    requires x.channel in channels && Sound(channels[x.channel].link)
    requires !Spent(channels[x.channel], intent)
    requires x.lock.hash in vault ==> SendsOwn(channels[x.channel], intent, LockSettle(x.id, vault[x.lock.hash]))
    requires ClaimUpstream(channels, x, intent, net, vault).1 == Attempted(Some(Done))
    ensures var after := ClaimUpstream(channels, x, intent, net, vault).0;
            var s, s' := PayerRecord(channels[x.channel]).latest, PayerRecord(after[x.channel]).latest;
            && x.id in s.pending && Matches(s.pending[x.id], vault[x.lock.hash])
            && s'.pending == s.pending - {x.id}
            && BalanceOf(s', !s.pending[x.id].payerIsA) == BalanceOf(s, !s.pending[x.id].payerIsA) + s.pending[x.id].amount
  {
    hide Sound, PayVia, Spent, SendsOwn;
    PayDone(channels[x.channel], intent, LockSettle(x.id, vault[x.lock.hash]), net);
  }

  /** A caller that says the hub's own lock was offered to it gets it forwarded: the hub then
      pays the same lock twice. */
  lemma OwnLockCanBeForwarded(hash: Term, id: Term, intent: Term)
    ensures var own := Lock(hash, 5, 10000, false);
            var rest := OpenNode(State(0, 100, 100, map[]));
            var holding := OpenNode(State(0, 100, 95, map[id := own]));
            var channels := map[Raw([0]) := Member(false, Link(holding, holding)), Raw([1]) := Member(false, Link(rest, rest))];
            var c := Clock(0, 0, 0);
            var told := Incoming(Raw([0]), id, own.(payerIsA := true));
            && Forward(channels, Incoming(Raw([0]), id, own), Raw([1]), intent, Reach(Answered, c, c), 0, 600).1 == NotTheForwarder
            && Forward(channels, told, Raw([1]), intent, Reach(Answered, c, c), 0, 600).1 == Attempted(Some(Done))
  {
    var own := Lock(hash, 5, 10000, false);
    var rest := OpenNode(State(0, 100, 100, map[]));
    var holding := OpenNode(State(0, 100, 95, map[id := own]));
    var channels := map[Raw([0]) := Member(false, Link(holding, holding)), Raw([1]) := Member(false, Link(rest, rest))];
    var c := Clock(0, 0, 0);
    assert [0] != [1];
    ForwardsExactly(channels, Incoming(Raw([0]), id, own), Raw([1]), intent, Reach(Answered, c, c), 0, 600);
    ForwardEndsDone(channels, Incoming(Raw([0]), id, own.(payerIsA := true)), Raw([1]), intent, Reach(Answered, c, c), 0, 600);
    hide Forward;
  }
}
