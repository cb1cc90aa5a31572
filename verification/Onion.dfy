/** The fixed-size layered packet: one encrypted instruction per hop, in slots whose
    order says nothing about the route. */
module Onion {
  import opened Common
  import opened Bytes
  import opened Symbols

  const MAX_HOPS: nat := 3
  const SLOT_SIZE: nat := 1024
  /** What AES-GCM adds: a 12-byte nonce in front and a 16-byte tag behind. */
  const SEAL_OVERHEAD: nat := 28

  datatype Instruction = Instruction(nextHop: string, blindedEndpoint: string, outgoing: Bytes32, fee: Bytes32,
                                     expiry: nat, guard: Term)

  /** Ideal authenticated encryption: only the sealing key opens a slot, and random
      filler opens under none. */
  datatype Slot = Sealed(key: Term, plain: seq<Byte>) | Filler(length: nat)

  function SlotLength(s: Slot): nat {
    if s.Sealed? then |s.plain| + SEAL_OVERHEAD else s.length
  }

  function OpenSlot(key: Term, s: Slot): Option<seq<Byte>> {
    if s.Sealed? && s.key == key then Some(s.plain) else None
  }

  datatype Packet = Packet(ephemeral: Bytes32, slots: seq<Slot>)

  datatype Failure = NotForUs | TooManyHops | HopTooLarge | ExpiryOrdering | BadPacket

  /** How an instruction is written into bytes; any lossless encoding will do. */
  datatype Codec = Codec(write: Instruction -> seq<Byte>, read: seq<Byte> -> Option<Instruction>)

  ghost predicate Lossless(c: Codec) {
    forall h :: c.read(c.write(h)) == Some(h)
  }

  function HopKey(shared: Bytes32): Term {
    Derived("rabbiit/onion/hopkey/v1", [Raw(shared)])
  }

  function GuardFor(shared: Bytes32, ephemeral: Bytes32): Term {
    Derived("rabbiit/onion/replay/v1", [Raw(shared), Raw(ephemeral)])
  }

  lemma HopKeysDiffer(a: Bytes32, b: Bytes32)
    ensures HopKey(a) == HopKey(b) <==> a == b
  {
    if HopKey(a) == HopKey(b) {
      assert HopKey(a).parts[0] == HopKey(b).parts[0];
    }
  }

  // ---- slot assignment --------------------------------------------------------------------

  /** The hash stream behind the shuffle. */
  type Stream = seq<Byte> -> Bytes32

  function Identity(n: nat): seq<nat> {
    seq(n, i => i)
  }

  function Swapped(order: seq<nat>, i: nat, j: nat): seq<nat>
    requires i < |order| && j < |order|
  {
    order[i := order[j]][j := order[i]]
  }

  /** The stream in use when slot `i` is drawn, and the index drawn from it. */
  function NextStream(derive: Stream, stream: Bytes32, i: nat): Bytes32 {
    if i % 8 == 0 then derive(stream) else stream
  }

  function Drawn(stream: Bytes32, i: nat): (j: nat)
    ensures j <= i
  {
    Value(stream[(i % 8) * 4..(i % 8) * 4 + 4]) % (i + 1)
  }

  /** Swapping every position from `i` down to 1 with one drawn at or below it. */
  function ShuffleDown(derive: Stream, order: seq<nat>, stream: Bytes32, i: nat): seq<nat>
    requires i < |order| || i == 0
    decreases i
  {
    if i == 0 then order
    else
      var s := NextStream(derive, stream, i);
      ShuffleDown(derive, Swapped(order, i, Drawn(s, i)), s, i - 1)
  }

  function Permutation(derive: Stream, ephemeral: Bytes32, n: nat): seq<nat> {
    if n == 0 then [] else ShuffleDown(derive, Identity(n), derive(ephemeral), n - 1)
  }

  /** Every slot from 0 to n - 1 exactly once. */
  ghost predicate Bijective(order: seq<nat>, n: nat) {
    && |order| == n
    && (forall i :: 0 <= i < n ==> order[i] < n)
    && (forall i, j :: 0 <= i < j < n ==> order[i] != order[j])
  }

  lemma SwapLength(order: seq<nat>, i: nat, j: nat)
    requires i < |order| && j < |order|
    ensures |Swapped(order, i, j)| == |order|
  {
  }

  lemma SwapKeepsBijective(order: seq<nat>, n: nat, i: nat, j: nat)
    requires Bijective(order, n) && i < n && j < n
    ensures Bijective(Swapped(order, i, j), n)
  {
  }

  lemma {:induction false} ShuffleBijective(derive: Stream, order: seq<nat>, stream: Bytes32, i: nat)
    requires Bijective(order, |order|) && (i < |order| || i == 0)
    ensures Bijective(ShuffleDown(derive, order, stream, i), |order|)
    decreases i
  {
    hide Drawn, NextStream, Bijective, Swapped;
    if i > 0 {
      var s := NextStream(derive, stream, i);
      SwapLength(order, i, Drawn(s, i));
      SwapKeepsBijective(order, |order|, i, Drawn(s, i));
      ShuffleBijective(derive, Swapped(order, i, Drawn(s, i)), s, i - 1);
    }
  }

  /** For every key and every number of hops the shuffle is one-to-one onto the slots. */
  lemma PermutationBijective(derive: Stream, ephemeral: Bytes32, n: nat)
    ensures Bijective(Permutation(derive, ephemeral, n), n)
  {
    if n > 0 {
      ShuffleBijective(derive, Identity(n), derive(ephemeral), n - 1);
    }
  }

  // ---- which order is drawn ------------------------------------------------------------------

  /** The hash applied `k` times over. */
  function Hashed(derive: Stream, start: seq<Byte>, k: nat): seq<Byte> {
    if k == 0 then start else derive(Hashed(derive, start, k - 1))
  }

  /** How many whole groups of eight slots lie between slot `i` and the last of `n`. */
  function Groups(n: nat, i: nat): nat
    requires i < n
  {
    (n - 1) / 8 - i / 8
  }

  /** The block that slot `i` of `n` is drawn from: one more hash for every whole group of eight
      slots above it. */
  function BlockOf(derive: Stream, ephemeral: Bytes32, n: nat, i: nat): Bytes32
    requires 0 < i < n
  {
    derive(Hashed(derive, ephemeral, Groups(n, i - 1)))
  }

  /** Every slot's draw: four bytes of its block of its own, brought into range. */
  function Draws(derive: Stream, ephemeral: Bytes32, n: nat): (d: seq<nat>)
    ensures |d| == n && forall i :: 0 <= i < n ==> d[i] <= i
  {
    seq(n, i requires 0 <= i < n =>
      if i == 0 then 0 else Value(BlockOf(derive, ephemeral, n, i)[4 * (i % 8)..4 * (i % 8) + 4]) % (i + 1))
  }

  ghost predicate InRange(draws: seq<nat>) {
    forall i :: 0 <= i < |draws| ==> draws[i] <= i
  }

  /** Exchanging position `i` with the drawn one, from the top down. */
  function Exchanged(order: seq<nat>, draws: seq<nat>, i: nat): seq<nat>
    requires (i < |order| || i == 0) && |draws| == |order| && InRange(draws)
    decreases i
  {
    if i == 0 then order
    else Exchanged(order[i := order[draws[i]]][draws[i] := order[i]], draws, i - 1)
  }

  lemma {:induction false} ShuffleDraws(derive: Stream, ephemeral: Bytes32, order: seq<nat>, i: nat)
    requires i < |order|
    ensures var n := |order|;
            ShuffleDown(derive, order, derive(Hashed(derive, ephemeral, Groups(n, i))), i)
            == Exchanged(order, Draws(derive, ephemeral, n), i)
    decreases i
  {
    if i > 0 {
      hide Hashed, Drawn, Draws, BlockOf, NextStream, Groups;
      var n := |order|;
      SlotDraws(derive, ephemeral, n, i);
      var j := Draws(derive, ephemeral, n)[i];
      assert Swapped(order, i, j) == order[i := order[j]][j := order[i]];
      ShuffleDraws(derive, ephemeral, Swapped(order, i, j), i - 1);
    }
  }

  lemma SlotDraws(derive: Stream, ephemeral: Bytes32, n: nat, i: nat)
    requires 0 < i < n
    ensures var s := NextStream(derive, derive(Hashed(derive, ephemeral, Groups(n, i))), i);
            && s == derive(Hashed(derive, ephemeral, Groups(n, i - 1)))
            && Drawn(s, i) == Draws(derive, ephemeral, n)[i]
  {
    hide Hashed, Value;
    OneMoreHash(derive, ephemeral, n, i);
  }

  lemma OneMoreHash(derive: Stream, ephemeral: Bytes32, n: nat, i: nat)
    requires 0 < i < n
    ensures var k := Groups(n, i);
            Hashed(derive, ephemeral, Groups(n, i - 1))
            == if i % 8 == 0 then derive(Hashed(derive, ephemeral, k)) else Hashed(derive, ephemeral, k)
  {
    GroupOf(i);
  }

  lemma GroupOf(i: nat)
    requires i > 0
    ensures (i - 1) / 8 == if i % 8 == 0 then i / 8 - 1 else i / 8
  {
  }

  /** The running stream comes to this: the order is that of the slots' own draws. */
  lemma PermutationIsDrawn(derive: Stream, ephemeral: Bytes32, n: nat)
    requires n > 0
    ensures Permutation(derive, ephemeral, n) == Exchanged(Identity(n), Draws(derive, ephemeral, n), n - 1)
  {
    hide ShuffleDown, Exchanged;
    ShuffleDraws(derive, ephemeral, Identity(n), n - 1);
    assert Hashed(derive, ephemeral, 0) == ephemeral;
  }

  function Numbers(n: nat): (s: set<nat>)
    ensures |s| == n && forall v: nat :: v in s <==> v < n
  {
    if n == 0 then {} else Numbers(n - 1) + {n - 1}
  }

  ghost function Values(order: seq<nat>, k: nat): set<nat>
    requires k <= |order|
  {
    set i | 0 <= i < k :: order[i]
  }

  lemma {:induction false} ValuesSize(order: seq<nat>, k: nat)
    requires k <= |order| && forall i, j :: 0 <= i < j < |order| ==> order[i] != order[j]
    ensures |Values(order, k)| == k
  {
    if k > 0 {
      ValuesSize(order, k - 1);
      assert Values(order, k) == Values(order, k - 1) + {order[k - 1]};
    } else {
      assert Values(order, 0) == {};
    }
  }

  /** A one-to-one order leaves no slot out. */
  lemma BijectiveOnto(order: seq<nat>, n: nat, v: nat)
    requires Bijective(order, n) && v < n
    ensures exists i :: 0 <= i < n && order[i] == v
  {
    ValuesSize(order, n);
    assert Values(order, n) <= Numbers(n);
    SubsetOfSameSize(Values(order, n), Numbers(n));
    assert v in Values(order, n);
  }

  lemma SubsetOfSameSize(a: set<nat>, b: set<nat>)
    requires a <= b && |a| == |b|
    ensures a == b
  {
    assert |b - a| == |b| - |a|;
  }

  /** The positions above `i` are final. */
  lemma {:induction false} AboveStays(order: seq<nat>, draws: seq<nat>, i: nat, k: nat)
    requires i < k < |order| && |draws| == |order| && InRange(draws)
    ensures |Exchanged(order, draws, i)| == |order| && Exchanged(order, draws, i)[k] == order[k]
    decreases i
  {
    if i > 0 {
      AboveStays(order[i := order[draws[i]]][draws[i] := order[i]], draws, i - 1, k);
    }
  }

  /** What is wanted at position `i` stands at or below it. */
  lemma WantedAt(order: seq<nat>, target: seq<nat>, i: nat) returns (j: nat)
    requires i < |order| && Bijective(order, |order|) && Bijective(target, |order|)
    requires forall k :: i < k < |order| ==> order[k] == target[k]
    ensures j <= i && order[j] == target[i]
  {
    BijectiveOnto(order, |order|, target[i]);
    j :| 0 <= j < |order| && order[j] == target[i];
  }

  /** Draws that lead from `order` to any order agreeing with it above `i`. */
  lemma {:induction false} DrawsFor(order: seq<nat>, target: seq<nat>, i: nat) returns (draws: seq<nat>)
    requires i < |order| && Bijective(order, |order|) && Bijective(target, |order|)
    requires forall k :: i < k < |order| ==> order[k] == target[k]
    ensures |draws| == |order| && InRange(draws) && Exchanged(order, draws, i) == target
    decreases i
  {
    var n := |order|;
    var j := WantedAt(order, target, i);
    if i == 0 {
      draws := seq(n, k => 0);
      assert order == target;
    } else {
      hide Bijective;
      var next := order[i := order[j]][j := order[i]];
      assert next == Swapped(order, i, j);
      SwapKeepsBijective(order, n, i, j);
      var rest := DrawsFor(next, target, i - 1);
      draws := rest[i := j];
      SameBelow(next, rest, draws, i - 1);
    }
  }

  lemma {:induction false} SameBelow(order: seq<nat>, d: seq<nat>, e: seq<nat>, i: nat)
    requires (i < |order| || i == 0) && |d| == |e| == |order| && InRange(d) && InRange(e)
    requires forall k :: 0 < k <= i && k < |d| ==> d[k] == e[k]
    ensures Exchanged(order, d, i) == Exchanged(order, e, i)
    decreases i
  {
    if i > 0 {
      SameBelow(order[i := order[d[i]]][d[i] := order[i]], d, e, i - 1);
    }
  }

  lemma NeverTwice(order: seq<nat>, a: nat, b: nat)
    requires Bijective(order, |order|) && a < |order| && b < |order|
    ensures order[a] == order[b] <==> a == b
  {
  }

  /** Different draws lead to different orders, so every order comes of exactly one choice of
      draws: none is favoured by the exchanging. */
  lemma {:induction false} DrawsAreUnique(order: seq<nat>, d: seq<nat>, e: seq<nat>, i: nat)
    requires i < |order| && Bijective(order, |order|) && |d| == |e| == |order| && InRange(d) && InRange(e)
    ensures Exchanged(order, d, i) == Exchanged(order, e, i) <==> forall k :: 0 < k <= i ==> d[k] == e[k]
    decreases i
  {
    if i > 0 {
      NeverTwice(order, d[i], e[i]);
      hide Bijective;
      var od, oe := order[i := order[d[i]]][d[i] := order[i]], order[i := order[e[i]]][e[i] := order[i]];
      AboveStays(od, d, i - 1, i);
      AboveStays(oe, e, i - 1, i);
      if d[i] == e[i] {
        assert od == Swapped(order, i, d[i]);
        SwapKeepsBijective(order, |order|, i, d[i]);
        DrawsAreUnique(od, d, e, i - 1);
      } else {
        assert od[i] == order[d[i]] && oe[i] == order[e[i]];
      }
    }
  }

  /** Every assignment of hops to slots is drawn by some hash stream. */
  lemma EveryOrderIsDrawn(target: seq<nat>, ephemeral: Bytes32, n: nat)
    requires 0 < n <= 8 && Bijective(target, n)
    ensures exists block: Bytes32 :: Permutation(Always(block), ephemeral, n) == target
  {
    hide Exchanged, Value, Permutation, Draws;
    assert Bijective(Identity(n), n);
    var draws := DrawsFor(Identity(n), target, n - 1);
    var block := BlockFor(draws);
    PermutationIsDrawn(Always(block), ephemeral, n);
    forall i | 0 < i < n ensures Draws(Always(block), ephemeral, n)[i] == draws[i] {
      AlwaysDraws(block, ephemeral, n, i);
    }
    SameBelow(Identity(n), Draws(Always(block), ephemeral, n), draws, n - 1);
  }

  /** A block from which each slot draws what is wanted. */
  lemma BlockFor(draws: seq<nat>) returns (block: Bytes32)
    requires |draws| <= 8 && InRange(draws)
    ensures forall i :: 0 < i < |draws| ==> Value(block[4 * (i % 8)..4 * (i % 8) + 4]) % (i + 1) == draws[i]
  {
    hide Value;
    block := seq(32, k requires 0 <= k < 32 => if k % 4 == 3 && k / 4 < |draws| then draws[k / 4] else 0);
    forall i | 0 < i < |draws| ensures Value(block[4 * (i % 8)..4 * (i % 8) + 4]) % (i + 1) == draws[i] {
      assert i % 8 == i;
      assert block[4 * i..4 * i + 4] == [0, 0, 0, draws[i]];
      LastByte(draws[i]);
    }
  }

  /** A hash that answers the same block to everything. */
  function Always(block: Bytes32): Stream {
    _ => block
  }

  lemma AlwaysDraws(block: Bytes32, ephemeral: Bytes32, n: nat, i: nat)
    requires 0 < i < n
    ensures Draws(Always(block), ephemeral, n)[i] == Value(block[4 * (i % 8)..4 * (i % 8) + 4]) % (i + 1)
  {
    hide Value;
  }

  lemma LastByte(d: Byte)
    ensures Value([0, 0, 0, d]) == d
  {
    assert [0, 0, 0, d][..3] == [0, 0, 0] && [0, 0, 0][..2] == [0, 0] && [0, 0][..1] == [0] && [0][..0] == [];
    assert Value([0]) == 0 && Value([0, 0]) == 0 && Value([0, 0, 0]) == 0;
  }

  /** The in-place shuffle. */
  method Permute(derive: Stream, ephemeral: Bytes32, n: nat) returns (order: array<nat>)
    ensures fresh(order) && order[..] == Permutation(derive, ephemeral, n)
  {
    hide ShuffleDown, Drawn, Permutation;
    order := new nat[n](i => i);
    ShuffleStart(derive, ephemeral, n);
    if n == 0 {
      assert order[..] == [];
      return;
    }
    var stream := derive(ephemeral);
    var i := n - 1;
    assert order[..] == Identity(n);
    while i > 0
      invariant 0 <= i < n
      invariant ShuffleDown(derive, order[..], stream, i) == Permutation(derive, ephemeral, n)
    {
      ghost var before := order[..];
      ShuffleStep(derive, before, stream, i);
      if i % 8 == 0 {
        stream := derive(stream);
      }
      var j := Drawn(stream, i);
      order[i], order[j] := order[j], order[i];
      assert order[..] == Swapped(before, i, j);
      i := i - 1;
    }
    ShuffleEnd(derive, order[..], stream);
  }

  lemma ShuffleStart(derive: Stream, ephemeral: Bytes32, n: nat)
    ensures Permutation(derive, ephemeral, n)
            == if n == 0 then [] else ShuffleDown(derive, Identity(n), derive(ephemeral), n - 1)
  {
  }

  lemma ShuffleStep(derive: Stream, order: seq<nat>, stream: Bytes32, i: nat)
    requires 0 < i < |order|
    ensures var s := NextStream(derive, stream, i);
            ShuffleDown(derive, order, stream, i) == ShuffleDown(derive, Swapped(order, i, Drawn(s, i)), s, i - 1)
  {
    hide Drawn;
  }

  lemma ShuffleEnd(derive: Stream, order: seq<nat>, stream: Bytes32)
    ensures ShuffleDown(derive, order, stream, 0) == order
  {
  }

  // ---- padding ---------------------------------------------------------------------------------

  function PadTo(data: seq<Byte>, size: nat): Result<seq<Byte>, Failure> {
    if |data| + 4 > size then Err(HopTooLarge) else Ok(BigEndian(|data|, 4) + data + Zeros(size - 4 - |data|))
  }

  function Unpad(padded: seq<Byte>): Result<seq<Byte>, Failure> {
    if |padded| < 4 then Err(BadPacket)
    else
      var n := Value(padded[..4]);
      if n > |padded| - 4 then Err(BadPacket) else Ok(padded[4..4 + n])
  }

  /** Padding takes exactly what fits, gives everything the same length, and loses nothing. */
  lemma UnpadPadded(data: seq<Byte>, size: nat)
    requires size < 0x1_0000_0000
    ensures PadTo(data, size).Ok? <==> |data| + 4 <= size
    ensures PadTo(data, size).Ok? ==> |PadTo(data, size).value| == size && Unpad(PadTo(data, size).value) == Ok(data)
  {
    hide BigEndian, Value;
    if |data| + 4 <= size {
      var p := PadTo(data, size).value;
      assert p[..4] == BigEndian(|data|, 4);
      ValueOfBigEndian(|data|, 4);
      assert Pow256(4) == 0x1_0000_0000;
      DivModUnique(|data|, Pow256(4), 0, |data|);
      assert p[4..4 + |data|] == data;
    }
  }

  // ---- building -----------------------------------------------------------------------------------

  /** What hop `i` is meant to find. */
  function Own(hops: seq<Instruction>, secrets: seq<Bytes32>, ephemeral: Bytes32, i: nat): Instruction
    requires i < |hops| == |secrets|
  {
    hops[i].(guard := GuardFor(secrets[i], ephemeral))
  }

  predicate Strict(hops: seq<Instruction>) {
    forall i :: 0 < i < |hops| ==> hops[i].expiry < hops[i - 1].expiry
  }

  predicate Fitting(c: Codec, hops: seq<Instruction>, secrets: seq<Bytes32>, ephemeral: Bytes32, k: nat)
    requires k <= |hops| == |secrets|
  {
    forall i :: 0 <= i < k ==> |c.write(Own(hops, secrets, ephemeral, i))| + 4 <= SLOT_SIZE
  }

  function Refusal(c: Codec, ephemeral: Bytes32, hops: seq<Instruction>, secrets: seq<Bytes32>): Option<Failure> {
    if |hops| > MAX_HOPS || |hops| != |secrets| then Some(TooManyHops)
    else if |hops| == 0 then Some(BadPacket)
    else if !Strict(hops) then Some(ExpiryOrdering)
    else if !Fitting(c, hops, secrets, ephemeral, |hops|) then Some(HopTooLarge)
    else None
  }

  /** A packet is built exactly for one to three hops with a secret each, whose expiries fall
      strictly along the whole route and whose instructions fit a slot; each refusal has its
      own cause, in that order. */
  lemma BuildsExactly(c: Codec, ephemeral: Bytes32, hops: seq<Instruction>, secrets: seq<Bytes32>)
    ensures var r := Refusal(c, ephemeral, hops, secrets);
            var matched := |hops| <= 3 && |hops| == |secrets|;
            var falling := forall i, j :: 0 <= i < j < |hops| ==> hops[j].expiry < hops[i].expiry;
            && (r == Some(TooManyHops) <==> !matched)
            && (r == Some(BadPacket) <==> matched && |hops| == 0)
            && (r == Some(ExpiryOrdering) <==> matched && |hops| > 0 && !falling)
            && (r.None? <==> matched && |hops| > 0 && falling
                             && forall i :: 0 <= i < |hops| ==>
                                  |c.write(hops[i].(guard := GuardFor(secrets[i], ephemeral)))| <= 1020)
  {
    if |hops| <= 3 && |hops| == |secrets| {
      StrictIsFalling(hops);
      FittingIs(c, hops, secrets, ephemeral);
    }
    hide Strict, Fitting, GuardFor;
  }

  lemma FittingIs(c: Codec, hops: seq<Instruction>, secrets: seq<Bytes32>, ephemeral: Bytes32)
    requires |hops| == |secrets|
    ensures Fitting(c, hops, secrets, ephemeral, |hops|) <==>
            forall i :: 0 <= i < |hops| ==> |c.write(hops[i].(guard := GuardFor(secrets[i], ephemeral)))| <= 1020
  {
    hide GuardFor;
    forall i | 0 <= i < |hops| ensures Own(hops, secrets, ephemeral, i) == hops[i].(guard := GuardFor(secrets[i], ephemeral)) {
    }
  }

  lemma StrictIsFalling(hops: seq<Instruction>)
    requires |hops| <= 3
    ensures Strict(hops) <==> forall i, j :: 0 <= i < j < |hops| ==> hops[j].expiry < hops[i].expiry
  {
    if Strict(hops) {
      if |hops| == 3 {
        assert hops[1].expiry < hops[0].expiry && hops[2].expiry < hops[1].expiry;
      }
    }
  }

  function SealedFor(c: Codec, hops: seq<Instruction>, secrets: seq<Bytes32>, ephemeral: Bytes32, i: nat): Slot
    requires i < |hops| == |secrets|
    requires |c.write(Own(hops, secrets, ephemeral, i))| + 4 <= SLOT_SIZE
  {
    Sealed(HopKey(secrets[i]), PadTo(c.write(Own(hops, secrets, ephemeral, i)), SLOT_SIZE).value)
  }

  /** Every hop's slot holds its instruction, and filler of the same length fills the rest. */
  ghost predicate Assembled(c: Codec, p: Packet, derive: Stream, ephemeral: Bytes32, hops: seq<Instruction>,
                            secrets: seq<Bytes32>)
    requires Refusal(c, ephemeral, hops, secrets).None?
  {
    var order := Permutation(derive, ephemeral, MAX_HOPS);
    && |order| == MAX_HOPS
    && p.ephemeral == ephemeral && |p.slots| == MAX_HOPS
    && (forall i :: 0 <= i < |hops| ==>
          order[i] < MAX_HOPS && p.slots[order[i]] == SealedFor(c, hops, secrets, ephemeral, i))
    && (forall s :: 0 <= s < MAX_HOPS && (forall i :: 0 <= i < |hops| ==> order[i] != s) ==>
          p.slots[s] == Filler(SLOT_SIZE + SEAL_OVERHEAD))
  }

  method Build(c: Codec, derive: Stream, ephemeral: Bytes32, hops: seq<Instruction>, secrets: seq<Bytes32>)
    returns (r: Result<Packet, Failure>)
    ensures r.Err? <==> Refusal(c, ephemeral, hops, secrets).Some?
    ensures r.Err? ==> Refusal(c, ephemeral, hops, secrets) == Some(r.error)
    ensures r.Ok? ==> Assembled(c, r.value, derive, ephemeral, hops, secrets)
  {
    hide PadTo, Permutation, HopKey, GuardFor;
    if |hops| > MAX_HOPS || |hops| != |secrets| {
      return Err(TooManyHops);
    }
    if |hops| == 0 {
      return Err(BadPacket);
    }
    for i := 1 to |hops|
      invariant forall k :: 0 < k < i ==> hops[k].expiry < hops[k - 1].expiry
    {
      if hops[i].expiry >= hops[i - 1].expiry {
        return Err(ExpiryOrdering);
      }
    }
    var arranged := Permute(derive, ephemeral, MAX_HOPS);
    PermutationBijective(derive, ephemeral, MAX_HOPS);
    var order := arranged[..];
    var slots: seq<Option<Slot>> := seq(MAX_HOPS, i => None);
    for i := 0 to |hops|
      invariant |slots| == MAX_HOPS
      invariant Fitting(c, hops, secrets, ephemeral, i)
      invariant forall k :: 0 <= k < i ==> slots[order[k]] == Some(SealedFor(c, hops, secrets, ephemeral, k))
      invariant forall s :: 0 <= s < MAX_HOPS && (forall k :: 0 <= k < i ==> order[k] != s) ==> slots[s].None?
    {
      var encoded := c.write(Own(hops, secrets, ephemeral, i));
      UnpadPadded(encoded, SLOT_SIZE);
      var padded := PadTo(encoded, SLOT_SIZE);
      if padded.Err? {
        PadError(encoded, SLOT_SIZE);
        return Err(padded.error);
      }
      slots := slots[order[i] := Some(Sealed(HopKey(secrets[i]), padded.value))];
    }
    UnpadPadded(c.write(Own(hops, secrets, ephemeral, 0)), SLOT_SIZE);
    var filler := SlotLength(slots[order[0]].value);
    assert filler == SLOT_SIZE + SEAL_OVERHEAD;
    var filled := [];
    for s := 0 to MAX_HOPS
      invariant |filled| == s
      invariant forall k :: 0 <= k < s ==> filled[k] == if slots[k].Some? then slots[k].value else Filler(filler)
    {
      filled := filled + [if slots[s].Some? then slots[s].value else Filler(filler)];
    }
    return Ok(Packet(ephemeral, filled));
  }

  lemma PadError(data: seq<Byte>, size: nat)
    ensures PadTo(data, size).Err? ==> PadTo(data, size).error == HopTooLarge
  {
  }

  // ---- peeling ------------------------------------------------------------------------------------

  /** What a slot that opened yields. */
  function Checked(c: Codec, plain: seq<Byte>, shared: Bytes32, ephemeral: Bytes32): Result<Instruction, Failure> {
    var encoded := Unpad(plain);
    if encoded.Err? then Err(encoded.error)
    else
      var hop := c.read(encoded.value);
      if hop.None? || hop.value.guard != GuardFor(shared, ephemeral) then Err(BadPacket) else Ok(hop.value)
  }

  function PeelFrom(c: Codec, p: Packet, shared: Bytes32, k: nat): Result<Instruction, Failure>
    requires k <= |p.slots|
    decreases |p.slots| - k
  {
    if k == |p.slots| then Err(NotForUs)
    else
      var plain := OpenSlot(HopKey(shared), p.slots[k]);
      if plain.Some? then Checked(c, plain.value, shared, p.ephemeral) else PeelFrom(c, p, shared, k + 1)
  }

  function PeelResult(c: Codec, p: Packet, shared: Bytes32): Result<Instruction, Failure> {
    if |p.slots| == 0 then Err(BadPacket) else PeelFrom(c, p, shared, 0)
  }

  method Peel(c: Codec, p: Packet, shared: Bytes32) returns (r: Result<Instruction, Failure>)
    ensures r == PeelResult(c, p, shared)
  {
    if |p.slots| == 0 {
      return Err(BadPacket);
    }
    for k := 0 to |p.slots|
      invariant PeelFrom(c, p, shared, k) == PeelResult(c, p, shared)
    {
      var plain := OpenSlot(HopKey(shared), p.slots[k]);
      if plain.Some? {
        return Checked(c, plain.value, shared, p.ephemeral);
      }
    }
    return Err(NotForUs);
  }

  lemma {:induction false} PeelSkips(c: Codec, p: Packet, shared: Bytes32, k: nat, at: nat)
    requires k <= at <= |p.slots|
    requires forall s :: k <= s < at ==> OpenSlot(HopKey(shared), p.slots[s]).None?
    ensures PeelFrom(c, p, shared, k) == PeelFrom(c, p, shared, at)
    decreases at - k
  {
    if k < at {
      PeelSkips(c, p, shared, k + 1, at);
    }
  }

  lemma OwnChecks(c: Codec, hops: seq<Instruction>, secrets: seq<Bytes32>, ephemeral: Bytes32, i: nat)
    requires Lossless(c) && i < |hops| == |secrets|
    requires |c.write(Own(hops, secrets, ephemeral, i))| + 4 <= SLOT_SIZE
    ensures Checked(c, SealedFor(c, hops, secrets, ephemeral, i).plain, secrets[i], ephemeral)
            == Ok(Own(hops, secrets, ephemeral, i))
  {
    hide PadTo, Unpad;
    UnpadPadded(c.write(Own(hops, secrets, ephemeral, i)), SLOT_SIZE);
  }

  /** Which slot of a built packet opens for a secret: exactly those of the hops holding it. */
  lemma OpensForHolders(c: Codec, p: Packet, derive: Stream, ephemeral: Bytes32, hops: seq<Instruction>,
                        secrets: seq<Bytes32>, shared: Bytes32, s: nat)
    requires Refusal(c, ephemeral, hops, secrets).None? && Assembled(c, p, derive, ephemeral, hops, secrets)
    requires s < MAX_HOPS
    ensures OpenSlot(HopKey(shared), p.slots[s]).Some? <==>
            exists i :: 0 <= i < |hops| && Permutation(derive, ephemeral, MAX_HOPS)[i] == s && secrets[i] == shared
  {
    hide Permutation, PadTo;
    PermutationBijective(derive, ephemeral, MAX_HOPS);
    var order := Permutation(derive, ephemeral, MAX_HOPS);
    if i :| 0 <= i < |hops| && order[i] == s {
      HopKeysDiffer(secrets[i], shared);
    }
  }

  /** A key of no hop on the route opens nothing. */
  lemma StrangersAreRefused(c: Codec, p: Packet, derive: Stream, ephemeral: Bytes32, hops: seq<Instruction>,
                            secrets: seq<Bytes32>, shared: Bytes32)
    requires Refusal(c, ephemeral, hops, secrets).None? && Assembled(c, p, derive, ephemeral, hops, secrets)
    requires shared !in secrets
    ensures PeelResult(c, p, shared) == Err(NotForUs)
  {
    hide Permutation, PadTo, OpenSlot;
    forall s | 0 <= s < MAX_HOPS ensures OpenSlot(HopKey(shared), p.slots[s]).None? {
      OpensForHolders(c, p, derive, ephemeral, hops, secrets, shared, s);
    }
    PeelSkips(c, p, shared, 0, MAX_HOPS);
  }

  ghost predicate Holder(derive: Stream, ephemeral: Bytes32, secrets: seq<Bytes32>, shared: Bytes32, first: nat)
    requires |secrets| <= |Permutation(derive, ephemeral, MAX_HOPS)|
  {
    var order := Permutation(derive, ephemeral, MAX_HOPS);
    && first < |secrets| && secrets[first] == shared
    && forall j :: 0 <= j < |secrets| && secrets[j] == shared ==> order[first] <= order[j]
  }

  /** Whoever holds a secret gets the instruction of the holder whose slot comes first. */
  lemma HolderGetsFirst(c: Codec, p: Packet, derive: Stream, ephemeral: Bytes32, hops: seq<Instruction>,
                        secrets: seq<Bytes32>, first: nat)
    requires Lossless(c)
    requires Refusal(c, ephemeral, hops, secrets).None? && Assembled(c, p, derive, ephemeral, hops, secrets)
    requires first < |secrets| && Holder(derive, ephemeral, secrets, secrets[first], first)
    ensures PeelResult(c, p, secrets[first]) == Ok(Own(hops, secrets, ephemeral, first))
  {
    hide Permutation, PadTo, Checked, HopKey;
    PermutationBijective(derive, ephemeral, MAX_HOPS);
    var order := Permutation(derive, ephemeral, MAX_HOPS);
    var at := order[first];
    forall s | 0 <= s < at ensures OpenSlot(HopKey(secrets[first]), p.slots[s]).None? {
      OpensForHolders(c, p, derive, ephemeral, hops, secrets, secrets[first], s);
    }
    PeelSkips(c, p, secrets[first], 0, at);
    OwnChecks(c, hops, secrets, ephemeral, first);
    assert OpenSlot(HopKey(secrets[first]), p.slots[at]) == Some(SealedFor(c, hops, secrets, ephemeral, first).plain);
  }

  lemma {:induction false} FirstHolder(derive: Stream, ephemeral: Bytes32, secrets: seq<Bytes32>, shared: Bytes32, k: nat)
    returns (first: nat)
    requires |secrets| <= |Permutation(derive, ephemeral, MAX_HOPS)| && k <= |secrets|
    requires shared in secrets[..k]
    ensures Holder(derive, ephemeral, secrets[..k], shared, first)
  {
    hide Permutation;
    var order := Permutation(derive, ephemeral, MAX_HOPS);
    if shared in secrets[..k - 1] {
      first := FirstHolder(derive, ephemeral, secrets, shared, k - 1);
      if secrets[k - 1] == shared && order[k - 1] < order[first] {
        first := k - 1;
      }
    } else {
      first := k - 1;
    }
  }

  lemma {:induction false} ExpiriesFall(hops: seq<Instruction>, i: nat, j: nat)
    requires Strict(hops) && i < j < |hops|
    ensures hops[j].expiry < hops[i].expiry
  {
    if i + 1 < j {
      ExpiriesFall(hops, i, j - 1);
    }
  }

  /** Build and Peel are inverse for every hop of the route exactly when the secrets of
      the hops are pairwise distinct. */
  lemma EveryHopPeelsItsOwn(c: Codec, p: Packet, derive: Stream, ephemeral: Bytes32, hops: seq<Instruction>,
                            secrets: seq<Bytes32>)
    requires Lossless(c)
    requires Refusal(c, ephemeral, hops, secrets).None? && Assembled(c, p, derive, ephemeral, hops, secrets)
    ensures Distinct(secrets) <==>
            forall i :: 0 <= i < |hops| ==> PeelResult(c, p, secrets[i]) == Ok(Own(hops, secrets, ephemeral, i))
  {
    hide Permutation, PadTo, PeelResult, Assembled;
    AssembledOrder(c, p, derive, ephemeral, hops, secrets);
    if Distinct(secrets) {
      forall i | 0 <= i < |hops| ensures PeelResult(c, p, secrets[i]) == Ok(Own(hops, secrets, ephemeral, i)) {
        HolderGetsFirst(c, p, derive, ephemeral, hops, secrets, i);
      }
    } else {
      var i, j :| 0 <= i < j < |secrets| && secrets[i] == secrets[j];
      ExpiriesFall(hops, i, j);
      assert Own(hops, secrets, ephemeral, i) != Own(hops, secrets, ephemeral, j);
    }
  }

  lemma AssembledOrder(c: Codec, p: Packet, derive: Stream, ephemeral: Bytes32, hops: seq<Instruction>,
                       secrets: seq<Bytes32>)
    requires Refusal(c, ephemeral, hops, secrets).None? && Assembled(c, p, derive, ephemeral, hops, secrets)
    ensures |hops| == |secrets| <= |Permutation(derive, ephemeral, MAX_HOPS)|
  {
    hide Permutation;
  }

  /** With secrets repeated or not, peeling a built packet always yields the instruction
      of some hop that holds the secret. */
  lemma PeelYieldsAHolder(c: Codec, p: Packet, derive: Stream, ephemeral: Bytes32, hops: seq<Instruction>,
                          secrets: seq<Bytes32>, shared: Bytes32) returns (i: nat)
    requires Lossless(c) && shared in secrets
    requires Refusal(c, ephemeral, hops, secrets).None? && Assembled(c, p, derive, ephemeral, hops, secrets)
    ensures i < |hops| == |secrets| && secrets[i] == shared
    ensures PeelResult(c, p, shared) == Ok(Own(hops, secrets, ephemeral, i))
  {
    hide Permutation, PadTo, PeelResult, Assembled;
    AssembledOrder(c, p, derive, ephemeral, hops, secrets);
    assert secrets[..|secrets|] == secrets;
    i := FirstHolder(derive, ephemeral, secrets, shared, |secrets|);
    HolderGetsFirst(c, p, derive, ephemeral, hops, secrets, i);
  }

  lemma GuardsDiffer(shared: Bytes32, e1: Bytes32, e2: Bytes32)
    requires GuardFor(shared, e1) == GuardFor(shared, e2)
    ensures e1 == e2
  {
    assert GuardFor(shared, e1).parts[1] == GuardFor(shared, e2).parts[1];
  }

  lemma {:induction false} NewKeyChangesChecks(c: Codec, p: Packet, q: Packet, shared: Bytes32, k: nat)
    requires q.slots == p.slots && q.ephemeral != p.ephemeral && k <= |p.slots|
    requires PeelFrom(c, p, shared, k).Ok?
    ensures PeelFrom(c, q, shared, k) == Err(BadPacket)
    decreases |p.slots| - k
  {
    hide Unpad, OpenSlot, GuardFor;
    if OpenSlot(HopKey(shared), p.slots[k]).Some? {
      if GuardFor(shared, p.ephemeral) == GuardFor(shared, q.ephemeral) {
        GuardsDiffer(shared, p.ephemeral, q.ephemeral);
      }
    } else {
      NewKeyChangesChecks(c, p, q, shared, k + 1);
    }
  }

  /** Slots replayed under another ephemeral key are refused by every hop that accepts
      them under their own, whoever built them. */
  lemma ReplayUnderNewKeyRefused(c: Codec, p: Packet, q: Packet, shared: Bytes32)
    requires q.slots == p.slots && q.ephemeral != p.ephemeral
    requires PeelResult(c, p, shared).Ok?
    ensures PeelResult(c, q, shared) == Err(BadPacket)
  {
    NewKeyChangesChecks(c, p, q, shared, 0);
  }

  // ---- size -----------------------------------------------------------------------------------

  function SlotBytes(slots: seq<Slot>): nat {
    if slots == [] then 0 else SlotLength(slots[0]) + SlotBytes(slots[1..])
  }

  /** Ephemeral key, commitment, proof reference and expiry, then the slots. */
  function Size(p: Packet): nat {
    32 + 32 + 32 + 8 + SlotBytes(p.slots)
  }

  /** Every built packet has the same size, whatever the length of its route. */
  lemma SizeSaysNothing(c: Codec, p: Packet, derive: Stream, ephemeral: Bytes32, hops: seq<Instruction>,
                        secrets: seq<Bytes32>)
    requires Refusal(c, ephemeral, hops, secrets).None? && Assembled(c, p, derive, ephemeral, hops, secrets)
    ensures Size(p) == 104 + 3 * (SLOT_SIZE + SEAL_OVERHEAD)
    ensures forall s :: 0 <= s < MAX_HOPS ==> SlotLength(p.slots[s]) == SLOT_SIZE + SEAL_OVERHEAD
  {
    hide Permutation, PadTo;
    forall s | 0 <= s < MAX_HOPS ensures SlotLength(p.slots[s]) == SLOT_SIZE + SEAL_OVERHEAD {
      if i :| 0 <= i < |hops| && Permutation(derive, ephemeral, MAX_HOPS)[i] == s {
        UnpadPadded(c.write(Own(hops, secrets, ephemeral, i)), SLOT_SIZE);
      }
    }
    var t := p.slots;
    assert t[1..][1..] == t[2..] && t[2..][1..] == t[3..] == [];
    assert SlotBytes(t[2..]) == SlotLength(t[2]) + SlotBytes(t[3..]);
    assert SlotBytes(t[1..]) == SlotLength(t[1]) + SlotBytes(t[2..]);
  }
}
