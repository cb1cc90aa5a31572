/** The event-driven cache in front of the chain: channels named by no authenticated
    event since they were read are answered from memory. */
module EventReader {
  import opened Common

  type Id = nat
  /** The contract's record of one channel. */
  datatype OnChain = OnChain(closing: bool, nonce: nat, balanceA: nat, balanceB: nat)

  /** What the contract holds for each channel as of each finalised block, and the
      channels each block's authenticated logs name. Finalised blocks never change. */
  datatype Chain = Chain(state: (nat, Id) -> OnChain, logs: nat -> seq<Id>)

  /** The contract invariant the cache rests on: a block that changes a channel names it. */
  ghost predicate Emits(c: Chain) {
    forall k, id :: k > 0 && c.state(k, id) != c.state(k - 1, id) ==> id in c.logs(k)
  }

  /** No block after `from` up to `to` names the channel. */
  ghost predicate Quiet(c: Chain, id: Id, from: nat, to: nat) {
    forall k :: from < k <= to ==> id !in c.logs(k)
  }

  lemma {:induction false} QuietMeansUnchanged(c: Chain, id: Id, from: nat, to: nat)
    requires Emits(c) && from <= to && Quiet(c, id, from, to)
    ensures c.state(from, id) == c.state(to, id)
  {
    if from < to {
      QuietMeansUnchanged(c, id, from, to - 1);
      assert id !in c.logs(to);
    }
  }

  /** The value is the contract's for that channel at some block not before `since`. */
  ghost predicate Current(c: Chain, id: Id, occ: OnChain, since: nat) {
    exists b: nat :: b >= since && c.state(b, id) == occ
  }

  lemma CurrentEarlier(c: Chain, id: Id, occ: OnChain, since: nat, before: nat)
    requires Current(c, id, occ, since) && before <= since
    ensures Current(c, id, occ, before)
  {
    var b: nat :| b >= since && c.state(b, id) == occ;
    assert b >= before;
  }

  lemma CurrentLater(c: Chain, id: Id, occ: OnChain, from: nat, to: nat)
    requires Emits(c) && Current(c, id, occ, from) && from <= to && Quiet(c, id, from, to)
    ensures Current(c, id, occ, to)
  {
    var b: nat :| b >= from && c.state(b, id) == occ;
    if b < to {
      QuietMeansUnchanged(c, id, b, to);
    }
  }

  // ---- the follower ---------------------------------------------------------------------

  /** The channels named by the blocks after `from` up to `to`, in order. */
  function Named(c: Chain, from: nat, to: nat): seq<Id>
    decreases (to)
  {
    if from >= to then [] else Named(c, from, to - 1) + c.logs(to)
  }

  lemma {:induction false} NamedIsNotQuiet(c: Chain, id: Id, from: nat, to: nat)
    ensures id in Named(c, from, to) <==> !Quiet(c, id, from, to)
    decreases (to)
  {
    if from < to {
      NamedIsNotQuiet(c, id, from, to - 1);
    }
  }

  datatype Outcome = Advanced(touched: seq<Id>, to: nat) | Failed

  /** What one advance hands over and where it leaves the follower, given the finalised
      head and the block whose processing fails, if any. */
  function Walk(c: Chain, position: nat, finalised: nat, stop: Option<nat>): (r: (Outcome, nat))
    ensures r.1 >= position
    ensures r.0.Advanced? ==> r.0.to == r.1
  {
    if finalised < position then (Failed, position)
    else if stop.Some? && position < stop.value <= finalised then (Failed, stop.value - 1)
    else (Advanced(Named(c, position, finalised), finalised), finalised)
  }

  /** Processes blocks oldest first and saves its position after each one, so a failure
      part way leaves the position past the blocks already handed over. */
  class ChainFollower {
    var position: nat

    constructor (start: nat)
      ensures position == start
    {
      position := start;
    }

    method Advance(c: Chain, head: nat, stop: Option<nat>) returns (o: Outcome)
      modifies this
      ensures (o, position) == Walk(c, old(position), head, stop)
    {
      if head < position {
        return Failed;
      }
      var touched := [];
      while position < head
        invariant old(position) <= position <= head
        invariant touched == Named(c, old(position), position)
        invariant stop.Some? && old(position) < stop.value ==> position < stop.value
      {
        if stop == Some(position + 1) {
          return Failed;
        }
        touched := touched + c.logs(position + 1);
        position := position + 1;
      }
      return Advanced(touched, head);
    }
  }

  // ---- the reader ---------------------------------------------------------------------------

  datatype Cached = Cached(occ: OnChain, validAt: nat)

  datatype Reader = Reader(cache: map<Id, Cached>, head: nat, started: bool, failed: bool)

  /** What the reader's memory becomes when it applies the outcome of an advance. */
  function Applied(r: Reader, o: Outcome): Reader {
    match o
    case Failed => r.(started := true, failed := true)
    case Advanced(touched, to) =>
      var head := Max(r.head, to);
      Reader(map id | id in r.cache && id !in touched :: Cached(r.cache[id].occ, head), head, true, false)
  }

  /** A finished read is kept only when no advance landed since it was issued. */
  function Stored(r: Reader, id: Id, occ: OnChain, captured: nat): Reader {
    if r.head == captured then r.(cache := r.cache[id := Cached(occ, captured)]) else r
  }

  predicate Hit(r: Reader, id: Id) {
    id in r.cache && r.cache[id].validAt == r.head
  }

  class EventChainReader {
    var cache: map<Id, Cached>
    var head: nat
    var started: bool
    var failed: bool

    constructor ()
      ensures Contents() == Reader(map[], 0, false, false)
    {
      cache, head, started, failed := map[], 0, false, false;
    }

    function Contents(): Reader
      reads this
    {
      Reader(cache, head, started, failed)
    }

    /** The second critical section of ensureCurrent: drop what was touched, move the
        head forward, and stamp everything left with it. */
    method Apply(o: Outcome)
      modifies this
      ensures Contents() == Applied(old(Contents()), o)
    {
      started := true;
      if o.Failed? {
        failed := true;
        return;
      }
      failed := false;
      DropTouched(o.touched);
      if o.to > head {
        head := o.to;
      }
      Restamp();
    }

    method DropTouched(touched: seq<Id>)
      modifies this`cache
      ensures cache == map id | id in old(cache) && id !in touched :: old(cache)[id]
    {
      for i := 0 to |touched|
        invariant cache == map id | id in old(cache) && id !in touched[..i] :: old(cache)[id]
      {
        assert touched[..i + 1] == touched[..i] + [touched[i]];
        cache := cache - {touched[i]};
      }
      assert touched[..|touched|] == touched;
    }

    method Restamp()
      modifies this`cache
      ensures cache == map id | id in old(cache) :: Cached(old(cache)[id].occ, head)
    {
      var left := cache.Keys;
      while left != {}
        invariant left <= cache.Keys == old(cache).Keys
        invariant forall id :: id in left ==> cache[id] == old(cache)[id]
        invariant forall id :: id in cache && id !in left ==> cache[id] == Cached(old(cache)[id].occ, head)
        decreases |left|
      {
        var id :| id in left;
        cache := cache[id := cache[id].(validAt := head)];
        left := left - {id};
      }
    }

    method Store(id: Id, occ: OnChain, captured: nat)
      modifies this
      ensures Contents() == Stored(old(Contents()), id, occ, captured)
    {
      if head == captured {
        cache := cache[id := Cached(occ, captured)];
      }
    }

    /** One whole read with nothing else running: `due` says whether the refresh interval
        has passed, `inner` is what the verifying reader answers and `at` the block its
        answer belongs to. */
    method ReadChannel(c: Chain, follower: ChainFollower, id: Id, due: bool, finalised: nat, stop: Option<nat>,
                       inner: Option<OnChain>, ghost at: nat)
      returns (answer: Option<OnChain>)
      requires Emits(c)
      requires Coherent(c, Contents(), follower.position)
      requires inner.Some? ==> at >= head && at >= finalised && inner.value == c.state(at, id)
      modifies this, follower
      ensures var run := Walk(c, old(follower.position), finalised, stop);
              var advanced := !old(started) || due;
              var now := if advanced then Applied(old(Contents()), run.0) else old(Contents());
              && follower.position == (if advanced then run.1 else old(follower.position))
              && answer == (if now.failed then None else if Hit(now, id) then Some(now.cache[id].occ) else inner)
              && Contents() == if !now.failed && !Hit(now, id) && inner.Some? then Stored(now, id, inner.value, now.head) else now
      ensures follower.position >= old(follower.position) && head >= old(head)
      ensures answer.Some? ==> !failed && Current(c, id, answer.value, head)
      ensures answer.Some? ==> id in cache && cache[id] == Cached(answer.value, head)
      ensures old(started && failed) && !due ==> answer.None? && Contents() == old(Contents())
      ensures failed ==> answer.None?
      ensures (failed ==> forall x :: x in old(cache) ==> Quiet(c, x, old(follower.position), follower.position)) ==>
                Coherent(c, Contents(), follower.position)
    {
      if !started || due {
        ghost var before := follower.position;
        var outcome := follower.Advance(c, finalised, stop);
        AdvanceKeepsCoherent(c, Contents(), outcome, before, follower.position);
        Apply(outcome);
      }
      if failed {
        return None;
      }
      if id in cache && cache[id].validAt == head {
        return Some(cache[id].occ);
      }
      if inner.None? {
        return None;
      }
      assert Current(c, id, inner.value, head);
      Store(id, inner.value, head);
      return inner;
    }
  }

  /** Every cached value is current as of the head, and no block between the head and the
      follower's position names a cached channel. */
  ghost predicate Coherent(c: Chain, r: Reader, position: nat) {
    && r.head <= position
    && (!r.failed && r.started ==> r.head == position)
    && (!r.started ==> !r.failed && r.cache == map[])
    && forall id :: id in r.cache ==>
         && r.cache[id].validAt == r.head
         && Current(c, id, r.cache[id].occ, r.head)
         && Quiet(c, id, r.head, position)
  }

  lemma AdvanceKeepsCoherent(c: Chain, r: Reader, o: Outcome, before: nat, position: nat)
    requires Emits(c) && Coherent(c, r, before) && before <= position
    requires o.Advanced? ==> o.to == position && o.touched == Named(c, before, position)
    ensures (o.Failed? ==> forall id :: id in r.cache ==> Quiet(c, id, before, position)) ==>
              Coherent(c, Applied(r, o), position)
  {
    if o.Advanced? {
      forall id | id in r.cache && id !in o.touched
        ensures Current(c, id, r.cache[id].occ, position)
      {
        NamedIsNotQuiet(c, id, before, position);
        assert Quiet(c, id, r.head, position);
        CurrentLater(c, id, r.cache[id].occ, r.head, position);
      }
    }
  }
}
