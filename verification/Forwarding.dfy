/** A hub between an incoming and an outgoing lock on the same hash: what it can have
    paid, what it can still collect, over every run with crashes. */
module Forwarding {
  import opened Symbols
  import opened Disk
  import opened Vault
  import opened Protocol
  import ChannelState
  import Sweeps

  /** The hop margin, the skew each party's rules allow for, and how far the clocks of
      the peers and of the chain may really run from the hub's. */
  datatype Policy = Policy(margin: int, skew: int, drift: int)

  ghost predicate Sensible(p: Policy) {
    p.margin >= 0 && 0 <= p.drift <= p.skew
  }

  datatype Upstream = Held | Collected | Lapsed(at: int)

  /** An outgoing lock is settled by the peer, claimed by it on chain, or returned. */
  datatype Outgoing = Offered | Paid(at: int) | OnChain(at: int) | Returned

  /** An outgoing lock, with the expiry it was given. */
  datatype Down = Down(expiry: int, state: Outgoing)

  /** A lock offered to the hub on one of its channels, and the locks the hub wrote against it. */
  datatype Hop = Hop(channel: Term, id: Term, hash: Term, amount: int, expiry: int, up: Upstream, downs: seq<Down>)

  /** `claimed` holds the claim intents on the hub's channel records, which a crash keeps. */
  datatype Hub = Hub(now: int, hops: seq<Hop>, file: File<Secrets>, known: Secrets, claimed: set<Term>)

  /** The intent the claim sweep derives for an incoming lock. */
  function Instance(hop: Hop): Term {
    Sweeps.ClaimIntent(Sweeps.Incoming(hop.channel, hop.id, ChannelState.Lock(hop.hash, hop.amount, hop.expiry, true)))
  }

  datatype Event =
    | Wait(seconds: nat)
    | Offer(channel: Term, id: Term, hash: Term, amount: int, expiry: int)
    | Forward(i: nat)
    /** The downstream peer proposes to settle; the secret is stored, then the hub signs,
        unless it dies in between. */
    | Pay(i: nat, j: nat, preimage: Term, fault: Fault, signs: bool)
    /** The downstream peer closes the channel and claims the lock on chain. The secret is
        public, and nothing tells the vault. The chain's clock reads `chain`. */
    | ClaimOnChain(i: nat, j: nat, preimage: Term, chain: int)
    | Return(i: nat, j: nat)
    /** The hub's sweep claims upstream; the peer's clock reads `theirs`. */
    | Collect(i: nat, theirs: int)
    /** The upstream lock goes back to its payer, agreed or on chain. */
    | Lapse(i: nat)
    /** The process or the machine dies and comes back with what the disk kept. */
    | Crash(left: File<Secrets>)

  function At(now: int, p: Policy): Clock {
    Clock(now, p.skew, 0)
  }

  function WithHop(h: Hub, i: nat, hop: Hop): Hub
    requires i < |h.hops|
  {
    h.(hops := h.hops[i := hop])
  }

  function PayDown(h: Hub, i: nat, j: nat, preimage: Term, fault: Fault, signs: bool): Hub
    requires i < |h.hops| && j < |h.hops[i].downs|
  {
    var hash := Keccak(preimage);
    var remembered := hash in h.known && h.known[hash] == preimage;
    var next := h.known[hash := preimage];
    var written := Replace(h.file, next, fault);
    if !remembered && !written.1 then h.(file := written.0)
    else
      var h' := if remembered then h else h.(file := written.0, known := next);
      if !signs then h'
      else
        var hop := h.hops[i];
        WithHop(h', i, hop.(downs := hop.downs[j := hop.downs[j].(state := Paid(h.now))]))
  }

  /** A lock id is taken on a channel as long as a lock of that id is pending there. */
  ghost predicate IsPending(h: Hub, channel: Term, id: Term) {
    exists k :: 0 <= k < |h.hops| && h.hops[k].up.Held? && h.hops[k].channel == channel && h.hops[k].id == id
  }

  /** An event whose guard fails leaves the hub as it is. For a claim whose intent is spent
      that is what the sweep does, reporting success. */
  ghost function Next(h: Hub, e: Event, p: Policy): Hub {
    match e
    case Wait(s) => h.(now := h.now + s)
    case Offer(channel, id, hash, amount, expiry) =>
      if amount > 0 && !IsPending(h, channel, id)
      then h.(hops := h.hops + [Hop(channel, id, hash, amount, expiry, Held, [])]) else h
    case Forward(i) =>
      if i < |h.hops| && h.hops[i].up.Held? && h.hops[i].expiry - p.margin > h.now then
        WithHop(h, i, h.hops[i].(downs := h.hops[i].downs + [Down(h.hops[i].expiry - p.margin, Offered)]))
      else h
    case Pay(i, j, preimage, fault, signs) =>
      if i < |h.hops| && j < |h.hops[i].downs| && h.hops[i].downs[j].state.Offered?
         && h.hops[i].hash == Keccak(preimage)
         && !SettleTooLate(h.hops[i].downs[j].expiry, At(h.now, p))
      then PayDown(h, i, j, preimage, fault, signs) else h
    case ClaimOnChain(i, j, preimage, chain) =>
      if i < |h.hops| && j < |h.hops[i].downs| && h.hops[i].downs[j].state.Offered?
         && h.hops[i].hash == Keccak(preimage)
         && h.hops[i].downs[j].expiry > chain && chain >= h.now - p.drift
      then WithHop(h, i, h.hops[i].(downs := h.hops[i].downs[j := h.hops[i].downs[j].(state := OnChain(h.now))])) else h
    case Return(i, j) =>
      if i < |h.hops| && j < |h.hops[i].downs| && h.hops[i].downs[j].state.Offered?
         && !RefundTooEarly(h.hops[i].downs[j].expiry, At(h.now, p))
      then WithHop(h, i, h.hops[i].(downs := h.hops[i].downs[j := h.hops[i].downs[j].(state := Returned)])) else h
    case Collect(i, theirs) =>
      if i < |h.hops| && h.hops[i].up.Held? && h.hops[i].hash in h.known
         && Instance(h.hops[i]) !in h.claimed
         && theirs <= h.now + p.drift
         && !SettleTooLate(h.hops[i].expiry, At(h.now, p)) && !SettleTooLate(h.hops[i].expiry, At(theirs, p))
      then WithHop(h, i, h.hops[i].(up := Collected)).(claimed := h.claimed + {Instance(h.hops[i])}) else h
    case Lapse(i) =>
      if i < |h.hops| && h.hops[i].up.Held? && h.hops[i].expiry <= h.now + p.drift
      then WithHop(h, i, h.hops[i].(up := Lapsed(h.now))) else h
    case Crash(left) =>
      if AfterCrash(h.file, left) then h.(file := left, known := left.visible) else h
  }

  ghost function Run(h: Hub, events: seq<Event>, p: Policy): Hub {
    if events == [] then h else Next(Run(h, events[..|events| - 1], p), events[|events| - 1], p)
  }

  function Start(now: int): Hub {
    Hub(now, [], File(map[], iset{map[]}), map[], {})
  }

  /** When the clocks let an outgoing lock go where: settled with the skew to spare, claimed on
      chain before its expiry by the chain's clock, returned once it is past by the skew. */
  lemma DownMovesExactly(h: Hub, i: nat, j: nat, preimage: Term, chain: int, p: Policy)
    requires i < |h.hops| && j < |h.hops[i].downs| && h.hops[i].downs[j].state.Offered?
    ensures var d, opens := h.hops[i].downs[j], h.hops[i].hash == Keccak(preimage);
            && (Next(h, Pay(i, j, preimage, NoFault, true), p).hops[i].downs[j].state.Paid? <==>
                  opens && d.expiry > h.now + p.skew)
            && (Next(h, ClaimOnChain(i, j, preimage, chain), p).hops[i].downs[j].state.OnChain? <==>
                  opens && d.expiry > chain && chain + p.drift >= h.now)
            && (Next(h, Return(i, j), p).hops[i].downs[j].state.Returned? <==> d.expiry <= h.now - p.skew)
  {
    PaysExactly(h, i, j, preimage, p);
    hide Instance, PayDown;
  }

  lemma PaysExactly(h: Hub, i: nat, j: nat, preimage: Term, p: Policy)
    requires i < |h.hops| && j < |h.hops[i].downs| && h.hops[i].downs[j].state.Offered?
    ensures Next(h, Pay(i, j, preimage, NoFault, true), p).hops[i].downs[j].state.Paid? <==>
              h.hops[i].hash == Keccak(preimage) && h.hops[i].downs[j].expiry > h.now + p.skew
  {
    hide Instance;
  }

  /** And an incoming one: forwarded while more than the margin is left, collected with the skew
      to spare by both clocks, gone back to its payer once it may have expired. */
  lemma UpMovesExactly(h: Hub, i: nat, theirs: int, p: Policy)
    requires i < |h.hops| && h.hops[i].up.Held?
    ensures var hop := h.hops[i];
            && (|Next(h, Forward(i), p).hops[i].downs| > |hop.downs| <==> h.now + p.margin < hop.expiry)
            && (Next(h, Collect(i, theirs), p).hops[i].up.Collected? <==>
                  && hop.hash in h.known && Instance(hop) !in h.claimed && theirs <= h.now + p.drift
                  && hop.expiry > h.now + p.skew && hop.expiry > theirs + p.skew)
            && (Next(h, Lapse(i), p).hops[i].up.Lapsed? <==> hop.expiry <= h.now + p.drift)
  {
    hide Instance;
  }

  /** A lock is offered exactly with a positive amount and under an id that is free on its
      channel. */
  lemma OffersExactly(h: Hub, channel: Term, id: Term, hash: Term, amount: int, expiry: int, p: Policy)
    ensures var h' := Next(h, Offer(channel, id, hash, amount, expiry), p);
            var free := forall k :: 0 <= k < |h.hops| && h.hops[k].up.Held? ==> h.hops[k].channel != channel || h.hops[k].id != id;
            && (|h'.hops| == |h.hops| + 1 <==> amount > 0 && free)
            && (h' == h || h'.hops == h.hops + [Hop(channel, id, hash, amount, expiry, Held, [])])
  {
  }

  // ---- the invariant -----------------------------------------------------------------

  ghost predicate VaultInv(h: Hub) {
    && Disk.Sound(h.file) && h.known in h.file.survivors
    && AllOpen(h.file)
    && (forall x :: x in h.known ==> Durable(h.file, x))
  }

  /** Whatever the hub settled downstream can be collected upstream: the secret survives any
      crash, and the incoming lock was, at the moment of paying, collected or good for
      more than the margin. Of a lock claimed on chain only the margin is certain. */
  ghost predicate Covered(h: Hub, hop: Hop, d: Down, p: Policy) {
    && d.expiry == hop.expiry - p.margin
    && (d.state.Paid? ==>
          && d.state.at <= h.now
          && Durable(h.file, hop.hash) && hop.hash in h.known
          && hop.expiry > d.state.at + p.margin + p.skew
          && (hop.up.Lapsed? ==> hop.up.at > d.state.at + p.margin))
    && (d.state.OnChain? ==>
          && d.state.at <= h.now
          && hop.expiry > d.state.at + p.margin - p.drift
          && (hop.up.Lapsed? ==> hop.up.at > d.state.at + p.margin - 2 * p.drift))
  }

  ghost predicate HopInv(h: Hub, hop: Hop, p: Policy) {
    && hop.amount > 0
    && (hop.up.Lapsed? ==> hop.expiry <= hop.up.at + p.drift && hop.up.at <= h.now)
    && forall j :: 0 <= j < |hop.downs| ==> Covered(h, hop, hop.downs[j], p)
  }

  ghost predicate Inv(h: Hub, p: Policy) {
    VaultInv(h) && forall i :: 0 <= i < |h.hops| ==> HopInv(h, h.hops[i], p)
  }

  lemma PayDownInv(h: Hub, i: nat, j: nat, preimage: Term, fault: Fault, signs: bool, p: Policy)
    requires Sensible(p) && Inv(h, p)
    requires i < |h.hops| && j < |h.hops[i].downs| && h.hops[i].downs[j].state.Offered?
    requires h.hops[i].hash == Keccak(preimage)
    requires !SettleTooLate(h.hops[i].downs[j].expiry, At(h.now, p))
    ensures Inv(PayDown(h, i, j, preimage, fault, signs), p)
  {
    var h' := PayDown(h, i, j, preimage, fault, signs);
    assert VaultInv(h');
    forall x | Durable(h.file, x) && x in h.known ensures Durable(h'.file, x) && x in h'.known {}
    var hop := h.hops[i];
    assert Covered(h, hop, hop.downs[j], p);
    forall k | 0 <= k < |h'.hops| ensures HopInv(h', h'.hops[k], p) {
      assert HopInv(h, h.hops[k], p);
      forall m | 0 <= m < |h'.hops[k].downs| ensures Covered(h', h'.hops[k], h'.hops[k].downs[m], p) {
        assert Covered(h, h.hops[k], h.hops[k].downs[m], p);
      }
    }
  }

  /** A crash keeps every durable secret, and the vault stays trustworthy exactly when the
      restart takes nothing for stored that a power loss could still take away. */
  lemma CrashExact(h: Hub, left: File<Secrets>)
    requires VaultInv(h) && AfterCrash(h.file, left)
    ensures var h' := h.(file := left, known := left.visible);
            && (VaultInv(h') <==> AllDurable(left))
            && forall x :: Durable(h.file, x) ==> Durable(left, x) && x in h'.known
  {
  }

  ghost predicate SafeRestart(e: Event) {
    e.Crash? ==> AllDurable(e.left)
  }

  /** A restart that finds the vault's directory entry flushed is one of these. */
  lemma FlushedIsSafe(left: File<Secrets>)
    requires Flushed(left)
    ensures AllDurable(left)
  {
  }

  lemma NextInv(h: Hub, e: Event, p: Policy)
    requires Sensible(p) && Inv(h, p) && SafeRestart(e)
    ensures Inv(Next(h, e, p), p)
  {
    var h' := Next(h, e, p);
    if h' != h {
      if e.Pay? {
        PayDownInv(h, e.i, e.j, e.preimage, e.fault, e.signs, p);
      } else {
        hide PayDown;
        if e.Crash? { CrashExact(h, e.left); }
        forall k | 0 <= k < |h'.hops| ensures HopInv(h', h'.hops[k], p) {
          if k < |h.hops| {
            assert HopInv(h, h.hops[k], p);
            forall m | 0 <= m < |h'.hops[k].downs| ensures Covered(h', h'.hops[k], h'.hops[k].downs[m], p) {
              if m < |h.hops[k].downs| {
                assert Covered(h, h.hops[k], h.hops[k].downs[m], p);
              }
            }
          }
        }
      }
    }
  }

  ghost predicate SafeRestarts(events: seq<Event>) {
    forall i :: 0 <= i < |events| ==> SafeRestart(events[i])
  }

  /** In every reachable state, after any crashes whose restart reads back only secrets
      that are safe on disk, a hub that settled a lock still holds its secret there and
      can have lost the claim only by waiting longer than the margin. */
  lemma {:induction false} NeverPaidForNothing(now: int, events: seq<Event>, p: Policy)
    requires Sensible(p) && SafeRestarts(events)
    ensures Inv(Run(Start(now), events, p), p)
  {
    if events != [] {
      hide Next, Inv, SafeRestart;
      NeverPaidForNothing(now, events[..|events| - 1], p);
      NextInv(Run(Start(now), events[..|events| - 1], p), events[|events| - 1], p);
    } else {
      hide Next;
    }
  }

  // ---- the hub's books -----------------------------------------------------------------

  predicate GaveAway(d: Down) {
    d.state.Paid? || d.state.OnChain?
  }

  function PaidOut(downs: seq<Down>): nat {
    if downs == [] then 0
    else PaidOut(downs[..|downs| - 1]) + (if GaveAway(downs[|downs| - 1]) then 1 else 0)
  }

  /** What one forwarded lock has added to the hub's wealth. */
  function Gain(hop: Hop): int {
    (if hop.up.Collected? then hop.amount else 0) - PaidOut(hop.downs) * hop.amount
  }

  /** A claim intent is spent exactly when a lock of that instance was collected. */
  ghost predicate ClaimsRecorded(h: Hub) {
    && (forall k :: 0 <= k < |h.hops| && h.hops[k].up.Collected? ==> Instance(h.hops[k]) in h.claimed)
    && forall x :: x in h.claimed ==> exists k :: 0 <= k < |h.hops| && h.hops[k].up.Collected? && Instance(h.hops[k]) == x
  }

  lemma NextRecorded(h: Hub, e: Event, p: Policy)
    requires ClaimsRecorded(h)
    ensures ClaimsRecorded(Next(h, e, p))
  {
    hide Instance;
    var h' := Next(h, e, p);
    SameLocks(h, e, p);
    hide Next;
    forall x | x in h'.claimed
      ensures exists k :: 0 <= k < |h'.hops| && h'.hops[k].up.Collected? && Instance(h'.hops[k]) == x
    {
      if x in h.claimed {
        var k :| 0 <= k < |h.hops| && h.hops[k].up.Collected? && Instance(h.hops[k]) == x;
        assert h'.hops[k].up.Collected? && Instance(h'.hops[k]) == x;
      } else {
        assert h'.hops[e.i].up.Collected? && Instance(h'.hops[e.i]) == x;
      }
    }
  }

  /** No event changes which lock a hop is about; only the sweep collects one, and only
      under an intent not spent before. */
  lemma SameLocks(h: Hub, e: Event, p: Policy)
    ensures var h' := Next(h, e, p);
            && |h.hops| <= |h'.hops|
            && (forall k :: 0 <= k < |h.hops| ==>
                  Instance(h'.hops[k]) == Instance(h.hops[k]) && (h.hops[k].up.Collected? ==> h'.hops[k].up.Collected?))
            && (forall k :: |h.hops| <= k < |h'.hops| ==> h'.hops[k].up.Held?)
            && (h'.claimed == h.claimed ==>
                  forall k :: 0 <= k < |h.hops| && h'.hops[k].up.Collected? ==>
                    h.hops[k].up.Collected? || Instance(h.hops[k]) in h.claimed)
            && (h'.claimed != h.claimed ==>
                  && e.Collect? && e.i < |h.hops| && h'.hops[e.i].up.Collected?
                  && h'.claimed == h.claimed + {Instance(h.hops[e.i])}
                  && forall k :: 0 <= k < |h.hops| && k != e.i ==> h'.hops[k] == h.hops[k])
  {
    hide IsPending;
    SameInstance();
    hide Instance;
  }

  lemma SameInstance()
    ensures forall g: Hop, u: Upstream :: Instance(g.(up := u)) == Instance(g)
    ensures forall g: Hop, ds: seq<Down> :: Instance(g.(downs := ds)) == Instance(g)
  {
  }

  lemma {:induction false} RunRecorded(now: int, events: seq<Event>, p: Policy)
    ensures ClaimsRecorded(Run(Start(now), events, p))
  {
    hide Next, ClaimsRecorded;
    if events != [] {
      RunRecorded(now, events[..|events| - 1], p);
      NextRecorded(Run(Start(now), events[..|events| - 1], p), events[|events| - 1], p);
    } else {
      NothingRecorded(now);
    }
  }

  lemma NothingRecorded(now: int)
    ensures ClaimsRecorded(Start(now))
  {
  }

  /** The incoming lock is pending, but a lock of the same instance was collected before. */
  ghost predicate Reoffered(h: Hub, i: nat)
    requires i < |h.hops|
  {
    && h.hops[i].up.Held?
    && exists k :: 0 <= k < |h.hops| && h.hops[k].up.Collected? && Instance(h.hops[k]) == Instance(h.hops[i])
  }

  /** The hub settled an outgoing lock at some moment, perhaps after others came back, and
      sweeps before the margin has run down, even straight after a crash. An answering
      peer then leaves the incoming lock collected exactly when it was not offered again
      after being claimed; and the hub is whole exactly when, besides, it gave the value
      away once. */
  lemma SweepMakesWhole(now: int, events: seq<Event>, p: Policy, i: nat, j: nat, theirs: int)
    requires Sensible(p) && SafeRestarts(events)
    requires var h := Run(Start(now), events, p);
             && i < |h.hops| && j < |h.hops[i].downs| && h.hops[i].downs[j].state.Paid?
             && h.now + p.drift <= h.hops[i].downs[j].state.at + p.margin
             && theirs <= h.now + p.drift
    ensures var h := Run(Start(now), events, p);
            var h' := Next(h, Collect(i, theirs), p);
            && (h'.hops[i].up == Collected <==> !Reoffered(h, i))
            && (Reoffered(h, i) <==> h.hops[i].up.Held? && Instance(h.hops[i]) in h.claimed)
            && (Gain(h'.hops[i]) == 0 <==> !Reoffered(h, i) && PaidOut(h.hops[i].downs) == 1)
  {
    var h := Run(Start(now), events, p);
    NeverPaidForNothing(now, events, p);
    RunRecorded(now, events, p);
    hide Run, Instance, PaidOut, Inv, HopInv, Covered, VaultInv, SettleTooLate, At;
    var hop := h.hops[i];
    PaidInTime(h, i, j, p, theirs);
    CollectHeld(h, i, theirs, p);
    SomePaid(hop.downs, j);
    WholeOnce(hop.amount, PaidOut(hop.downs));
  }

  /** What the invariant says of a lock paid not longer ago than the margin. */
  lemma PaidInTime(h: Hub, i: nat, j: nat, p: Policy, theirs: int)
    requires Sensible(p) && Inv(h, p) && i < |h.hops| && j < |h.hops[i].downs| && h.hops[i].downs[j].state.Paid?
    requires h.now + p.drift <= h.hops[i].downs[j].state.at + p.margin && theirs <= h.now + p.drift
    ensures var hop := h.hops[i];
            && hop.amount > 0 && !hop.up.Lapsed? && hop.hash in h.known
            && !SettleTooLate(hop.expiry, At(h.now, p)) && !SettleTooLate(hop.expiry, At(theirs, p))
  {
    var hop := h.hops[i];
    assert HopInv(h, hop, p);
    assert Covered(h, hop, hop.downs[j], p);
  }

  /** A sweep in time collects a held lock exactly when its intent is unspent. */
  lemma CollectHeld(h: Hub, i: nat, theirs: int, p: Policy)
    requires i < |h.hops| && h.hops[i].hash in h.known && theirs <= h.now + p.drift
    requires !SettleTooLate(h.hops[i].expiry, At(h.now, p)) && !SettleTooLate(h.hops[i].expiry, At(theirs, p))
    ensures var hop, h' := h.hops[i], Next(h, Collect(i, theirs), p);
            && |h'.hops| == |h.hops|
            && h'.hops[i] == if hop.up.Held? && Instance(hop) !in h.claimed then hop.(up := Collected) else hop
  {
    hide Instance, SettleTooLate;
  }

  lemma WholeOnce(amount: int, times: nat)
    requires amount > 0 && times > 0
    ensures amount - times * amount == 0 <==> times == 1
    ensures times * amount > 0
  {
    if times > 1 {
      assert times * amount == amount + (times - 1) * amount;
    }
  }

  lemma {:induction false} SomePaid(downs: seq<Down>, j: nat)
    requires j < |downs| && GaveAway(downs[j])
    ensures PaidOut(downs) >= 1
  {
    if j < |downs| - 1 {
      SomePaid(downs[..|downs| - 1], j);
    }
  }

  /** A lock claimed on chain leaves the hub the margin, less skew and drift, to sweep; but the
      sweep collects only if the hub learned the secret in some other way. */
  lemma SweepAfterChainClaim(now: int, events: seq<Event>, p: Policy, i: nat, j: nat, theirs: int)
    requires Sensible(p) && SafeRestarts(events)
    requires var h := Run(Start(now), events, p);
             && i < |h.hops| && j < |h.hops[i].downs| && h.hops[i].downs[j].state.OnChain?
             && h.now + 2 * p.drift + p.skew <= h.hops[i].downs[j].state.at + p.margin
             && theirs <= h.now + p.drift
    ensures var h := Run(Start(now), events, p);
            Next(h, Collect(i, theirs), p).hops[i].up == Collected
            <==> h.hops[i].up.Collected? || (h.hops[i].hash in h.known && !Reoffered(h, i))
  {
    var h := Run(Start(now), events, p);
    NeverPaidForNothing(now, events, p);
    RunRecorded(now, events, p);
    hide Run, Instance, PaidOut;
    var hop := h.hops[i];
    assert HopInv(h, hop, p);
    assert Covered(h, hop, hop.downs[j], p);
  }

  lemma RunSix(h: Hub, e0: Event, e1: Event, e2: Event, e3: Event, e4: Event, e5: Event, p: Policy)
    ensures Run(h, [e0, e1, e2, e3, e4, e5], p)
            == Next(Next(Next(Next(Next(Next(h, e0, p), e1, p), e2, p), e3, p), e4, p), e5, p)
  {
    hide Next;
    var s1, s2, s3, s4, s5 := [e0], [e0, e1], [e0, e1, e2], [e0, e1, e2, e3], [e0, e1, e2, e3, e4];
    assert s1[..0] == [] && Run(h, s1, p) == Next(h, e0, p);
    assert s2[..1] == s1 && Run(h, s2, p) == Next(Run(h, s1, p), e1, p);
    assert s3[..2] == s2 && Run(h, s3, p) == Next(Run(h, s2, p), e2, p);
    assert s4[..3] == s3 && Run(h, s4, p) == Next(Run(h, s3, p), e3, p);
    assert s5[..4] == s4 && Run(h, s5, p) == Next(Run(h, s4, p), e4, p);
    assert [e0, e1, e2, e3, e4, e5][..5] == s5;
  }

  lemma OneOffer(h: Hub, channel: Term, id: Term, hash: Term, amount: int, expiry: int, p: Policy)
    requires amount > 0 && !IsPending(h, channel, id)
    ensures Next(h, Offer(channel, id, hash, amount, expiry), p)
            == h.(hops := h.hops + [Hop(channel, id, hash, amount, expiry, Held, [])])
  {
    hide IsPending;
  }

  lemma OneForward(h: Hub, i: nat, hop: Hop, p: Policy)
    requires i < |h.hops| && h.hops[i] == hop && hop.up.Held? && hop.expiry - p.margin > h.now
    ensures Next(h, Forward(i), p)
            == h.(hops := h.hops[i := hop.(downs := hop.downs + [Down(hop.expiry - p.margin, Offered)])])
  {
  }

  lemma OnePay(h: Hub, i: nat, hop: Hop, j: nat, preimage: Term, fault: Fault, p: Policy)
    requires i < |h.hops| && h.hops[i] == hop && hop.hash == Keccak(preimage)
    requires j < |hop.downs| && hop.downs[j].state.Offered? && hop.downs[j].expiry > h.now + p.skew
    ensures var h' := Next(h, Pay(i, j, preimage, fault, true), p);
            var paid := h.hops[i := hop.(downs := hop.downs[j := hop.downs[j].(state := Paid(h.now))])];
            var next := h.known[hop.hash := preimage];
            && (hop.hash in h.known && h.known[hop.hash] == preimage ==> h' == h.(hops := paid))
            && (!(hop.hash in h.known && h.known[hop.hash] == preimage) ==>
                  && (fault == NoFault ==> h' == h.(hops := paid, file := File(next, iset{next}), known := next))
                  && (fault == AfterRename ==> h' == h.(file := File(next, h.file.survivors + iset{next}))))
  {
  }

  lemma OneCollect(h: Hub, i: nat, hop: Hop, p: Policy)
    requires i < |h.hops| && h.hops[i] == hop && hop.up.Held? && hop.hash in h.known && Instance(hop) !in h.claimed
    requires 0 <= h.now + p.drift && hop.expiry > h.now + p.skew && hop.expiry > p.skew
    ensures Next(h, Collect(i, 0), p)
            == h.(hops := h.hops[i := hop.(up := Collected)], claimed := h.claimed + {Instance(hop)})
  {
    hide Instance;
  }

  /** Nothing in the forwarding rule itself keeps a hub from writing two locks against
      one incoming lock. If both are paid, collecting upstream covers only one. */
  lemma TwoForwardsLose(channel: Term, id: Term, preimage: Term, amount: int, p: Policy)
    requires Sensible(p) && amount > 0
    ensures var events := [Offer(channel, id, Keccak(preimage), amount, 2 * p.margin + p.skew + 2), Forward(0), Forward(0),
                           Pay(0, 0, preimage, NoFault, true), Pay(0, 1, preimage, NoFault, true), Collect(0, 0)];
            var h := Run(Start(0), events, p);
            |h.hops| == 1 && h.hops[0].up == Collected && Gain(h.hops[0]) == -amount
  {
    hide Run, Gain, Next, Instance;
    var hash, e := Keccak(preimage), 2 * p.margin + p.skew + 2;
    var e0, e3, e4 := Offer(channel, id, hash, amount, e), Pay(0, 0, preimage, NoFault, true), Pay(0, 1, preimage, NoFault, true);
    RunSix(Start(0), e0, Forward(0), Forward(0), e3, e4, Collect(0, 0), p);
    var open, paid := Down(e - p.margin, Offered), Down(e - p.margin, Paid(0));
    var hop1 := Hop(channel, id, hash, amount, e, Held, []);
    OneOffer(Start(0), channel, id, hash, amount, e, p);
    var h1 := Next(Start(0), e0, p);
    OneForward(h1, 0, hop1, p);
    assert [] + [open] == [open] && [open] + [open] == [open, open];
    var h2 := Next(h1, Forward(0), p);
    OneForward(h2, 0, hop1.(downs := [open]), p);
    var h3 := Next(h2, Forward(0), p);
    OnePay(h3, 0, hop1.(downs := [open, open]), 0, preimage, NoFault, p);
    assert [open, open][0 := paid] == [paid, open] && [paid, open][1 := paid] == [paid, paid];
    var h4 := Next(h3, e3, p);
    OnePay(h4, 0, hop1.(downs := [paid, open]), 1, preimage, NoFault, p);
    var h5 := Next(h4, e4, p);
    OneCollect(h5, 0, hop1.(downs := [paid, paid]), p);
    PaidTwice(Next(h5, Collect(0, 0), p).hops[0], paid);
  }

  /** A lock is offered, forwarded, paid and collected, and its payer offers the identical
      lock again. The hub forwards and pays a second time; its sweep finds the intent
      spent, and the second lock is never collected. */
  lemma ReofferedLockLoses(channel: Term, id: Term, preimage: Term, amount: int, p: Policy, theirs: int)
    requires Sensible(p) && amount > 0
    ensures var offer := Offer(channel, id, Keccak(preimage), amount, p.margin + p.skew + 1);
            var first := [offer, Forward(0), Pay(0, 0, preimage, NoFault, true), Collect(0, 0)];
            var second := [offer, Forward(1), Pay(1, 0, preimage, NoFault, true), Collect(1, theirs)];
            var h := Run(Start(0), first + second, p);
            && |h.hops| == 2 && h.hops[0].up == Collected && Gain(h.hops[0]) == 0
            && h.hops[1].up == Held && Gain(h.hops[1]) == -amount && Reoffered(h, 1)
  {
    hide Run, Gain, Next, Instance, PaidOut;
    var hash, e := Keccak(preimage), p.margin + p.skew + 1;
    var offer, e2, e3 := Offer(channel, id, hash, amount, e), Pay(0, 0, preimage, NoFault, true), Pay(1, 0, preimage, NoFault, true);
    var first, second := [offer, Forward(0), e2, Collect(0, 0)], [offer, Forward(1), e3, Collect(1, theirs)];
    RunSplit(Start(0), first, second, p);
    RunFour(Start(0), offer, Forward(0), e2, Collect(0, 0), p);
    var open, paid := Down(e - p.margin, Offered), Down(e - p.margin, Paid(0));
    var hop := Hop(channel, id, hash, amount, e, Held, []);
    OneOffer(Start(0), channel, id, hash, amount, e, p);
    var h1 := Next(Start(0), offer, p);
    OneForward(h1, 0, hop, p);
    assert [] + [open] == [open] && [open][0 := paid] == [paid];
    var h2 := Next(h1, Forward(0), p);
    OnePay(h2, 0, hop.(downs := [open]), 0, preimage, NoFault, p);
    var h3 := Next(h2, e2, p);
    OneCollect(h3, 0, hop.(downs := [paid]), p);
    var h4 := Next(h3, Collect(0, 0), p);
    var done := hop.(up := Collected, downs := [paid]);
    SameInstance();
    assert h4.hops == [done] && Instance(hop) in h4.claimed;
    RunFour(h4, offer, Forward(1), e3, Collect(1, theirs), p);
    assert !IsPending(h4, channel, id);
    OneOffer(h4, channel, id, hash, amount, e, p);
    var h5 := Next(h4, offer, p);
    OneForward(h5, 1, hop, p);
    var h6 := Next(h5, Forward(1), p);
    OnePay(h6, 1, hop.(downs := [open]), 0, preimage, NoFault, p);
    var h7 := Next(h6, e3, p);
    assert h7.hops == [done, hop.(downs := [paid])];
    assert Instance(h7.hops[1]) == Instance(hop);
    SpentCollect(h7, 1, theirs, p);
    PaidOnce(done, paid);
    PaidOnce(h7.hops[1], paid);
    assert h7.hops[0].up.Collected? && Instance(h7.hops[0]) == Instance(h7.hops[1]);
  }

  lemma SpentCollect(h: Hub, i: nat, theirs: int, p: Policy)
    requires i < |h.hops| && Instance(h.hops[i]) in h.claimed
    ensures Next(h, Collect(i, theirs), p) == h
  {
    hide Instance;
  }

  lemma PaidOnce(hop: Hop, d: Down)
    requires hop.downs == [d] && d.state.Paid?
    ensures Gain(hop) == (if hop.up.Collected? then 0 else -hop.amount)
  {
    assert [d][..0] == [];
    assert PaidOut([d]) == PaidOut([]) + 1;
  }

  lemma {:induction false} RunSplit(h: Hub, a: seq<Event>, b: seq<Event>, p: Policy)
    ensures Run(h, a + b, p) == Run(Run(h, a, p), b, p)
    decreases |b|
  {
    if b == [] {
      assert a + b == a;
    } else {
      hide Next;
      assert (a + b)[..|a + b| - 1] == a + b[..|b| - 1];
      RunSplit(h, a, b[..|b| - 1], p);
    }
  }

  lemma RunFour(h: Hub, e0: Event, e1: Event, e2: Event, e3: Event, p: Policy)
    ensures Run(h, [e0, e1, e2, e3], p) == Next(Next(Next(Next(h, e0, p), e1, p), e2, p), e3, p)
  {
    hide Next;
    var s1, s2, s3 := [e0], [e0, e1], [e0, e1, e2];
    assert s1[..0] == [] && Run(h, s1, p) == Next(h, e0, p);
    assert s2[..1] == s1 && Run(h, s2, p) == Next(Run(h, s1, p), e1, p);
    assert s3[..2] == s2 && Run(h, s3, p) == Next(Run(h, s2, p), e2, p);
    assert [e0, e1, e2, e3][..3] == s3;
  }

  /** The downstream peer takes its money on chain. The vault never hears of the secret,
      and no sweep collects what the hub is owed. */
  lemma ChainClaimIsNotLearned(channel: Term, id: Term, preimage: Term, amount: int, p: Policy, theirs: int)
    requires Sensible(p) && amount > 0
    ensures var offer := Offer(channel, id, Keccak(preimage), amount, p.margin + p.skew + 1);
            var h := Run(Start(0), [offer, Forward(0), ClaimOnChain(0, 0, preimage, 0), Collect(0, theirs)], p);
            && |h.hops| == 1 && |h.hops[0].downs| == 1 && h.hops[0].downs[0].state == OnChain(0)
            && h.hops[0].up == Held && h.hops[0].hash !in h.known
  {
    hide Run, Next, Instance;
    var hash, e := Keccak(preimage), p.margin + p.skew + 1;
    var offer, e2 := Offer(channel, id, hash, amount, e), ClaimOnChain(0, 0, preimage, 0);
    RunFour(Start(0), offer, Forward(0), e2, Collect(0, theirs), p);
    var open := Down(e - p.margin, Offered);
    var hop := Hop(channel, id, hash, amount, e, Held, []);
    OneOffer(Start(0), channel, id, hash, amount, e, p);
    var h1 := Next(Start(0), offer, p);
    OneForward(h1, 0, hop, p);
    assert [] + [open] == [open];
    var h2 := Next(h1, Forward(0), p);
    OneChainClaim(h2, hop.(downs := [open]), preimage, p);
    UnknownCollect(Next(h2, e2, p), 0, theirs, p);
  }

  lemma OneChainClaim(h: Hub, hop: Hop, preimage: Term, p: Policy)
    requires h.hops == [hop] && |hop.downs| == 1 && hop.downs[0].state.Offered?
    requires hop.hash == Keccak(preimage) && hop.downs[0].expiry > 0 && 0 >= h.now - p.drift
    ensures Next(h, ClaimOnChain(0, 0, preimage, 0), p)
            == h.(hops := [hop.(downs := [hop.downs[0].(state := OnChain(h.now))])])
  {
    assert hop.downs[0 := hop.downs[0].(state := OnChain(h.now))] == [hop.downs[0].(state := OnChain(h.now))];
    var hop' := hop.(downs := [hop.downs[0].(state := OnChain(h.now))]);
    assert h.hops[0 := hop'] == [hop'];
  }

  lemma UnknownCollect(h: Hub, i: nat, theirs: int, p: Policy)
    requires i < |h.hops| && h.hops[i].hash !in h.known
    ensures Next(h, Collect(i, theirs), p) == h
  {
    hide Instance;
  }

  lemma PaidTwice(hop: Hop, d: Down)
    requires hop.downs == [d, d] && d.state.Paid? && hop.up.Collected?
    ensures Gain(hop) == -hop.amount
  {
    assert [d, d][..1] == [d] && [d][..0] == [];
    assert PaidOut([d]) == PaidOut([]) + 1;
    assert PaidOut([d, d]) == PaidOut([d]) + 1;
  }

  /** A store that fails after its rename is read back by a restarted process, which
      then takes the secret for stored; a power loss after paying still forgets it. */
  lemma HalfStoredSecretIsLost(channel: Term, id: Term, preimage: Term, p: Policy)
    requires Sensible(p)
    ensures var half := File(map[Keccak(preimage) := preimage], iset{map[], map[Keccak(preimage) := preimage]});
            var lost: File<Secrets> := File(map[], iset{map[]});
            var events := [Offer(channel, id, Keccak(preimage), 1, 2 * p.margin + p.skew + 2), Forward(0),
                           Pay(0, 0, preimage, AfterRename, true), Crash(half),
                           Pay(0, 0, preimage, NoFault, true), Crash(lost)];
            var h := Run(Start(0), events, p);
            && |h.hops| == 1 && |h.hops[0].downs| == 1 && h.hops[0].downs[0].state == Paid(0)
            && Keccak(preimage) !in h.known && !SafeRestart(events[3])
  {
    hide Run, Next;
    var hash, e := Keccak(preimage), 2 * p.margin + p.skew + 2;
    var some: Secrets, none: Secrets := map[hash := preimage], map[];
    var half, lost := File(some, iset{none, some}), File(none, iset{none});
    var e0, e2, e4 := Offer(channel, id, hash, 1, e), Pay(0, 0, preimage, AfterRename, true), Pay(0, 0, preimage, NoFault, true);
    RunSix(Start(0), e0, Forward(0), e2, Crash(half), e4, Crash(lost), p);
    var open := Down(e - p.margin, Offered);
    var hop1 := Hop(channel, id, hash, 1, e, Held, []);
    OneOffer(Start(0), channel, id, hash, 1, e, p);
    var h1 := Next(Start(0), e0, p);
    OneForward(h1, 0, hop1, p);
    assert [] + [open] == [open];
    var h2 := Next(h1, Forward(0), p);
    OnePay(h2, 0, hop1.(downs := [open]), 0, preimage, AfterRename, p);
    assert none[hash := preimage] == some && iset{none} + iset{some} == iset{none, some};
    var h3 := Next(h2, e2, p);
    var h4 := Next(h3, Crash(half), p);
    OneRestart(h3, half, p);
    assert none in half.survivors && hash !in none;
    OnePay(h4, 0, hop1.(downs := [open]), 0, preimage, NoFault, p);
    var h5 := Next(h4, e4, p);
    OneRestart(h5, lost, p);
  }

  lemma OneRestart(h: Hub, left: File<Secrets>, p: Policy)
    requires AfterCrash(h.file, left)
    ensures Next(h, Crash(left), p) == h.(file := left, known := left.visible)
  {
  }
}
