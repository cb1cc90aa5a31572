/** Point locks: one lock per hop, each opened only with the scalar that opened the next. */
module PointLocks {
  import opened Common
  import opened Bytes

  const MAX_HOPS: nat := 3

  /** A cyclic group of order `order`, seen through its generator: `base(k)` is the
      generator taken k times. */
  datatype Group<!P(!new, ==)> = Group(order: nat, base: nat -> P, add: (P, P) -> P)

  ghost predicate Lawful<P(!new)>(g: Group<P>) {
    && g.order > 1
    && (forall a: nat, b: nat :: a < g.order && b < g.order ==> g.add(g.base(a), g.base(b)) == g.base(Mod(a + b, g.order)))
    && (forall a: nat, b: nat :: a < g.order && b < g.order && g.base(a) == g.base(b) ==> a == b)
  }

  datatype Failure = TooManyLocks | BadScalar | PointMismatch

  datatype LockChain<!P(==)> = LockChain(locks: seq<P>, blindings: seq<nat>)

  function Sum(b: seq<nat>): nat {
    if b == [] then 0 else b[0] + Sum(b[1..])
  }

  // ---- arithmetic modulo the order -----------------------------------------------------------

  /** Go's Mod on big integers is Euclidean, as Dafny's % is. */
  function Mod(a: int, n: nat): (r: nat)
    requires n > 0
    ensures r < n
  {
    a % n
  }

  lemma ModAdd(a: int, b: int, n: nat)
    requires n > 0
    ensures Mod(Mod(a, n) + b, n) == Mod(a + b, n)
  {
    var q := a / n;
    assert a == n * q + a % n;
    var r, s := (a % n + b) % n, (a % n + b) / n;
    assert a % n + b == n * s + r;
    assert a + b == n * q + (n * s + r);
    assert n * q + n * s == n * (q + s);
    DivModUnique(a + b, n, q + s, r);
  }

  /** Two numbers agree modulo the order exactly when it divides their difference. */
  lemma ModDifference(a: int, b: int, n: nat)
    requires n > 0
    ensures Mod(a + b, n) == Mod(a, n) <==> Mod(b, n) == 0
  {
    ModAdd(b, a, n);
    assert b + a == a + b;
    ModAdd(a + b, -a, n);
    ModAdd(a, -a, n);
    assert a + b + -a == b;
  }

  // ---- building and unwinding --------------------------------------------------------------------

  /** A drawn blinding of zero is replaced by one. */
  function Blinding(drawn: nat): nat {
    if drawn == 0 then 1 else drawn
  }

  /** What every lock of a chain for the recipient point `base(z)` is. */
  ghost predicate ChainFor<P(!new)>(g: Group<P>, chain: LockChain<P>, z: int)
    requires g.order > 0
  {
    && |chain.locks| == |chain.blindings|
    && (forall i :: 0 <= i < |chain.blindings| ==> 0 < chain.blindings[i] < g.order)
    && LocksCover(g, z, chain.locks, chain.blindings)
  }

  lemma SumNone(n: nat)
    requires n > 0
    ensures Mod(Sum([]), n) == 0
  {
  }

  lemma SumMore(b: nat, rest: seq<nat>, n: nat)
    requires n > 0
    ensures Sum([b] + rest) == b + Sum(rest)
    ensures Mod(Mod(Sum(rest), n) + b, n) == Mod(Sum([b] + rest), n)
  {
    hide Mod;
    assert ([b] + rest)[1..] == rest;
    ModAdd(Sum(rest), b, n);
  }

  /** Adding the accumulated blinding to the recipient's point. */
  lemma LockIs<P(!new)>(g: Group<P>, z: int, blindings: seq<nat>)
    requires Lawful(g)
    ensures g.add(g.base(Mod(z, g.order)), g.base(Mod(Sum(blindings), g.order))) == g.base(Mod(z + Sum(blindings), g.order))
  {
    hide Mod, Sum;
    var n, s := g.order, Sum(blindings);
    ModAdd(z, Mod(s, n), n);
    ModAdd(s, z, n);
  }

  /** Each lock holds the blindings from its own hop to the exit. */
  ghost predicate LocksCover<P(!new)>(g: Group<P>, z: int, locks: seq<P>, blindings: seq<nat>)
    requires g.order > 0
  {
    |locks| == |blindings|
    && forall k :: 0 <= k < |locks| ==> locks[k] == g.base(Mod(z + Sum(blindings[k..]), g.order))
  }

  lemma CoverNone<P(!new)>(g: Group<P>, z: int)
    requires g.order > 0
    ensures LocksCover(g, z, [], [])
  {
  }

  lemma CoverMore<P(!new)>(g: Group<P>, z: int, locks: seq<P>, blindings: seq<nat>, lock: P, b: nat)
    requires g.order > 0 && LocksCover(g, z, locks, blindings)
    requires lock == g.base(Mod(z + Sum([b] + blindings), g.order))
    ensures LocksCover(g, z, [lock] + locks, [b] + blindings)
  {
    hide Mod, Sum;
    forall k | 0 <= k < |locks| + 1
      ensures ([lock] + locks)[k] == g.base(Mod(z + Sum(([b] + blindings)[k..]), g.order))
    {
      if k == 0 {
        assert ([b] + blindings)[0..] == [b] + blindings;
      } else {
        assert ([b] + blindings)[k..] == blindings[k - 1..];
      }
    }
  }

  method BuildLocks<P(!new, ==)>(g: Group<P>, recipient: P, draws: seq<nat>, hops: int, ghost z: int)
    returns (r: Result<LockChain<P>, Failure>)
    requires Lawful(g) && recipient == g.base(Mod(z, g.order))
    requires hops > 0 ==> |draws| >= hops
    requires forall i :: 0 <= i < |draws| ==> draws[i] < g.order
    ensures r.Err? <==> hops <= 0 || hops > MAX_HOPS
    ensures r.Ok? ==> ChainFor(g, r.value, z) && |r.value.locks| == hops
    ensures r.Ok? ==> forall i :: 0 <= i < hops ==> r.value.blindings[i] == Blinding(draws[i])
  {
    hide Mod, Sum, LocksCover;
    if hops <= 0 || hops > MAX_HOPS {
      return Err(TooManyLocks);
    }
    var n := g.order;
    assert Mod(Sum([]), n) == 0 by {
      SumNone(n);
    }
    CoverNone(g, z);
    var locks: seq<P> := [];
    var blindings: seq<nat> := [];
    var accumulated := 0;
    var i := hops;
    while i > 0
      invariant 0 <= i <= hops && |locks| == |blindings| == hops - i
      invariant accumulated == Mod(Sum(blindings), n)
      invariant forall k :: 0 <= k < |blindings| ==> blindings[k] == Blinding(draws[i + k])
      invariant LocksCover(g, z, locks, blindings)
    {
      i := i - 1;
      var b := Blinding(draws[i]);
      var sum := Mod(accumulated + b, n);
      var lock := g.add(recipient, g.base(sum));
      SumMore(b, blindings, n);
      LockIs(g, z, [b] + blindings);
      CoverMore(g, z, locks, blindings, lock, b);
      accumulated := sum;
      locks, blindings := [lock] + locks, [b] + blindings;
    }
    return Ok(LockChain(locks, blindings));
  }

  function Unwind(n: nat, downstream: int, blinding: nat): nat
    requires n > 0
  {
    Mod(downstream + blinding, n)
  }

  function Satisfies<P(!new, ==)>(g: Group<P>, lock: P, scalar: int): Option<Failure> {
    if scalar < 0 || scalar >= g.order then Some(BadScalar)
    else if g.base(scalar) != lock then Some(PointMismatch)
    else None
  }

  /** The scalar hop `i` uses when the recipient reveals `z`. */
  ghost predicate ScalarsFor(n: nat, blindings: seq<nat>, z: int, scalars: seq<nat>)
    requires n > 0
  {
    |scalars| == |blindings|
    && forall i :: 0 <= i < |scalars| ==> scalars[i] == Mod(z + Sum(blindings[i..]), n)
  }

  /** From the exit back to the entry, each hop adding its own blinding. */
  method SettleRoute<P(!new, ==)>(g: Group<P>, chain: LockChain<P>, z: int) returns (r: Result<seq<nat>, Failure>)
    requires Lawful(g) && |chain.locks| == |chain.blindings|
    ensures r.Err? <==> |chain.locks| == 0
    ensures r.Ok? ==> ScalarsFor(g.order, chain.blindings, z, r.value)
  {
    hide Mod, Sum, Unwind;
    if |chain.locks| == 0 {
      return Err(TooManyLocks);
    }
    var n := g.order;
    var scalars: seq<nat> := [];
    var current: int := z;
    var i := |chain.locks|;
    assert Mod(current, n) == Mod(z + Sum(chain.blindings[i..]), n) by {
      assert chain.blindings[i..] == [];
      EmptySum();
    }
    while i > 0
      invariant 0 <= i <= |chain.locks| && |scalars| == |chain.locks| - i
      invariant Mod(current, n) == Mod(z + Sum(chain.blindings[i..]), n)
      invariant forall k :: 0 <= k < |scalars| ==> scalars[k] == Mod(z + Sum(chain.blindings[i + k..]), n)
    {
      i := i - 1;
      UnwindAdds(n, current, chain.blindings, z, i);
      current := Unwind(n, current, chain.blindings[i]);
      scalars := [current] + scalars;
    }
    return Ok(scalars);
  }

  lemma EmptySum()
    ensures Sum([]) == 0
  {
  }

  lemma UnwindAdds(n: nat, current: int, blindings: seq<nat>, z: int, i: nat)
    requires n > 0 && i < |blindings|
    requires Mod(current, n) == Mod(z + Sum(blindings[i + 1..]), n)
    ensures var next := Unwind(n, current, blindings[i]);
            next == Mod(z + Sum(blindings[i..]), n) && Mod(next, n) == next
  {
    hide Mod;
    var b, rest := blindings[i], Sum(blindings[i + 1..]);
    assert blindings[i..][1..] == blindings[i + 1..];
    ModAdd(current, b, n);
    ModAdd(z + rest, b, n);
    ModSame(Mod(current + b, n), n);
  }

  lemma ModSame(a: int, n: nat)
    requires 0 <= a < n
    ensures Mod(a, n) == a
  {
  }

  // ---- what the locks guarantee --------------------------------------------------------------------

  /** Each scalar of the unwind opens its own hop's lock, nothing else opens it, and an
      unwind from any other secret opens no lock at all. */
  lemma UnwindOpensEachLock<P(!new)>(g: Group<P>, chain: LockChain<P>, z: int, z': int, scalars: seq<nat>, i: nat)
    requires Lawful(g) && ChainFor(g, chain, z) && ScalarsFor(g.order, chain.blindings, z', scalars)
    requires i < |chain.locks|
    ensures Satisfies(g, chain.locks[i], scalars[i]).None? <==> Mod(z' - z, g.order) == 0
    ensures forall s :: Satisfies(g, chain.locks[i], s).None? <==> s == Mod(z + Sum(chain.blindings[i..]), g.order)
  {
    hide Sum, Mod;
    var n, rest := g.order, Sum(chain.blindings[i..]);
    ModDifference(z + rest, z' - z, n);
    assert z + rest + (z' - z) == z' + rest;
  }

  lemma {:induction false} SumSplit(b: seq<nat>, i: nat, k: nat)
    requires i <= k <= |b|
    ensures Sum(b[i..]) == Sum(b[i..k]) + Sum(b[k..])
    decreases k - i
  {
    if i == k {
      assert b[i..k] == [];
    } else {
      SumSplit(b, i + 1, k);
      assert b[i..][1..] == b[i + 1..];
      assert b[i..k][1..] == b[i + 1..k];
    }
  }

  /** Two hops hold the same lock point exactly when the blindings between them sum to a
      multiple of the group order. */
  lemma SameLock<P(!new)>(g: Group<P>, chain: LockChain<P>, z: int, i: nat, k: nat)
    requires Lawful(g) && ChainFor(g, chain, z) && i < k < |chain.locks|
    ensures chain.locks[i] == chain.locks[k] <==> Mod(Sum(chain.blindings[i..k]), g.order) == 0
  {
    hide Sum, Mod;
    SumSplit(chain.blindings, i, k);
    var n := g.order;
    var rest, between := Sum(chain.blindings[k..]), Sum(chain.blindings[i..k]);
    ModDifference(z + rest, between, n);
    assert z + rest + between == z + Sum(chain.blindings[i..]);
  }

  /** Neighbouring hops never hold the same lock point. */
  lemma NeighboursDiffer<P(!new)>(g: Group<P>, chain: LockChain<P>, z: int, i: nat)
    requires Lawful(g) && ChainFor(g, chain, z) && i + 1 < |chain.locks|
    ensures chain.locks[i] != chain.locks[i + 1]
  {
    SameLock(g, chain, z, i, i + 1);
    assert chain.blindings[i..i + 1] == [chain.blindings[i]];
    assert Sum([chain.blindings[i]]) == chain.blindings[i];
    ModSame(chain.blindings[i], g.order);
  }

  /** Hops further apart can: a middle blinding that undoes the entry's makes the entry
      and the exit hold one and the same point. */
  lemma EntryAndExitCanCoincide<P(!new)>(g: Group<P>, chain: LockChain<P>, z: int)
    requires Lawful(g) && ChainFor(g, chain, z) && |chain.locks| == 3
    ensures chain.locks[0] == chain.locks[2] <==> chain.blindings[0] + chain.blindings[1] == g.order
  {
    SameLock(g, chain, z, 0, 2);
    var b := chain.blindings;
    assert b[0..2][1..] == [b[1]] && [b[1]][1..] == [];
    assert Sum([b[1]]) == b[1] + Sum([]);
    var n, s := g.order, b[0] + b[1];
    if s < n {
      ModSame(s, n);
    } else {
      DivModUnique(s, n, 1, s - n);
    }
  }
}
