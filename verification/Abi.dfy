/** The argument encoding of the Solidity Contract ABI Specification, section "Formal
    Specification of the Encoding", for the argument types the channel contract takes,
    with a decoder that follows offsets wherever they point. */
module Abi {
  import opened Common
  import opened Bytes

  /** One element of the contract's lock array: five static members. */
  datatype LockArg = LockArg(id: Bytes32, hash: Bytes32, amount: nat, expiry: nat, payerIsA: bool)

  /** A static argument is its 32-byte word; the others are dynamic. */
  datatype Arg = Static(word: Bytes32) | Blob(data: seq<Byte>) | Locks(locks: seq<LockArg>)

  datatype Kind = StaticKind | BlobKind | LocksKind

  function KindOf(a: Arg): Kind {
    match a
    case Static(_) => StaticKind
    case Blob(_) => BlobKind
    case Locks(_) => LocksKind
  }

  function Kinds(args: seq<Arg>): (ks: seq<Kind>)
    ensures |ks| == |args|
  {
    seq(|args|, i requires 0 <= i < |args| => KindOf(args[i]))
  }

  function Num(n: nat): Bytes32 {
    BigEndian(n, 32)
  }

  // ---- encoding ------------------------------------------------------------------------

  function Padding(n: nat): nat {
    (n + 31) / 32 * 32 - n
  }

  function EncodeLock(l: LockArg): (s: seq<Byte>)
    ensures |s| == 160
  {
    l.id + l.hash + Num(l.amount) + Num(l.expiry) + Num(if l.payerIsA then 1 else 0)
  }

  function EncodeLockList(ls: seq<LockArg>): (s: seq<Byte>)
    ensures |s| == 160 * |ls|
  {
    if ls == [] then [] else EncodeLockList(ls[..|ls| - 1]) + EncodeLock(ls[|ls| - 1])
  }

  function BlobTail(b: seq<Byte>): seq<Byte> {
    Num(|b|) + b + Zeros(Padding(|b|))
  }

  function LocksTail(ls: seq<LockArg>): seq<Byte> {
    Num(|ls|) + EncodeLockList(ls)
  }

  function TailOf(a: Arg): seq<Byte> {
    match a
    case Static(_) => []
    case Blob(b) => BlobTail(b)
    case Locks(ls) => LocksTail(ls)
  }

  /** The tails of the first `k` arguments. */
  function Tails(args: seq<Arg>, k: nat): seq<Byte>
    requires k <= |args|
  {
    if k == 0 then [] else Tails(args, k - 1) + TailOf(args[k - 1])
  }

  /** Where the tail of argument `i` begins. */
  function Offset(args: seq<Arg>, i: nat): nat
    requires i < |args|
  {
    32 * |args| + |Tails(args, i)|
  }

  function HeadWord(args: seq<Arg>, i: nat): Bytes32
    requires i < |args|
  {
    if args[i].Static? then args[i].word else Num(Offset(args, i))
  }

  function Heads(args: seq<Arg>, k: nat): (s: seq<Byte>)
    requires k <= |args|
    ensures |s| == 32 * k
  {
    if k == 0 then [] else Heads(args, k - 1) + HeadWord(args, k - 1)
  }

  function Encode(args: seq<Arg>): seq<Byte> {
    Heads(args, |args|) + Tails(args, |args|)
  }

  // ---- decoding ------------------------------------------------------------------------

  function WordAt(data: seq<Byte>, at: nat): Option<Bytes32> {
    if at + 32 <= |data| then Some(data[at..at + 32]) else None
  }

  function NumAt(data: seq<Byte>, at: nat): Option<nat> {
    var w := WordAt(data, at);
    if w.None? then None else Some(Value(w.value))
  }

  function BlobAt(data: seq<Byte>, at: nat): Option<seq<Byte>> {
    var n := NumAt(data, at);
    if n.None? || at + 32 + n.value > |data| then None else Some(data[at + 32..at + 32 + n.value])
  }

  function LockAt(data: seq<Byte>, at: nat): Option<LockArg> {
    if at + 160 > |data| then None
    else
      var flag := Value(data[at + 128..at + 160]);
      if flag > 1 then None
      else Some(LockArg(data[at..at + 32], data[at + 32..at + 64],
                        Value(data[at + 64..at + 96]), Value(data[at + 96..at + 128]), flag == 1))
  }

  /** The first `n` locks of an array whose members start at `at`. */
  function LockListAt(data: seq<Byte>, at: nat, n: nat): Option<seq<LockArg>> {
    if n == 0 then Some([])
    else
      var front := LockListAt(data, at, n - 1);
      var last := LockAt(data, at + 160 * (n - 1));
      if front.None? || last.None? then None else Some(front.value + [last.value])
  }

  function LocksAt(data: seq<Byte>, at: nat): Option<seq<LockArg>> {
    var n := NumAt(data, at);
    if n.None? || at + 32 + 160 * n.value > |data| then None else LockListAt(data, at + 32, n.value)
  }

  function ArgAt(data: seq<Byte>, kind: Kind, i: nat): Option<Arg> {
    match kind
    case StaticKind =>
      var w := WordAt(data, 32 * i);
      if w.None? then None else Some(Static(w.value))
    case BlobKind =>
      var at := NumAt(data, 32 * i);
      var b := if at.None? then None else BlobAt(data, at.value);
      if b.None? then None else Some(Blob(b.value))
    case LocksKind =>
      var at := NumAt(data, 32 * i);
      var ls := if at.None? then None else LocksAt(data, at.value);
      if ls.None? then None else Some(Locks(ls.value))
  }

  /** The first `k` arguments of the given kinds. */
  function DecodeFirst(data: seq<Byte>, kinds: seq<Kind>, k: nat): Option<seq<Arg>>
    requires k <= |kinds|
  {
    if k == 0 then Some([])
    else
      var front := DecodeFirst(data, kinds, k - 1);
      var last := ArgAt(data, kinds[k - 1], k - 1);
      if front.None? || last.None? then None else Some(front.value + [last.value])
  }

  function Decode(data: seq<Byte>, kinds: seq<Kind>): Option<seq<Arg>> {
    DecodeFirst(data, kinds, |kinds|)
  }

  // ---- where the parts of an encoding lie -------------------------------------------------

  lemma {:induction false} HeadsAt(args: seq<Arg>, k: nat, i: nat)
    requires i < k <= |args|
    ensures Heads(args, k)[32 * i..32 * i + 32] == HeadWord(args, i)
  {
    if i < k - 1 {
      HeadsAt(args, k - 1, i);
      assert Heads(args, k)[32 * i..32 * i + 32] == Heads(args, k - 1)[32 * i..32 * i + 32];
    }
  }

  lemma {:induction false} TailsAt(args: seq<Arg>, k: nat, i: nat)
    requires i < k <= |args|
    ensures var at := |Tails(args, i)|;
            && at + |TailOf(args[i])| <= |Tails(args, k)|
            && Tails(args, k)[at..at + |TailOf(args[i])|] == TailOf(args[i])
  {
    hide TailOf;
    if i < k - 1 {
      TailsAt(args, k - 1, i);
      var at, n := |Tails(args, i)|, |TailOf(args[i])|;
      assert Tails(args, k)[at..at + n] == Tails(args, k - 1)[at..at + n];
    }
  }

  lemma PaddedAligned(n: nat)
    ensures (n + Padding(n)) % 32 == 0
  {
  }

  lemma LocksAligned(n: nat)
    ensures (160 * n) % 32 == 0
  {
    assert 160 * n == 32 * (5 * n);
  }

  lemma TailAligned(a: Arg)
    ensures |TailOf(a)| % 32 == 0
  {
    hide Num, EncodeLockList, Padding;
    match a
    case Static(_) =>
    case Blob(b) =>
      PaddedAligned(|b|);
      SumAligned(32, |b| + Padding(|b|));
      assert |TailOf(a)| == 32 + (|b| + Padding(|b|));
    case Locks(ls) =>
      LocksAligned(|ls|);
      SumAligned(32, 160 * |ls|);
  }

  lemma SumAligned(a: nat, b: nat)
    requires a % 32 == 0 && b % 32 == 0
    ensures (a + b) % 32 == 0
  {
  }

  lemma {:induction false} TailsAligned(args: seq<Arg>, k: nat)
    requires k <= |args|
    ensures |Tails(args, k)| % 32 == 0
  {
    hide TailOf;
    if k > 0 {
      TailsAligned(args, k - 1);
      TailAligned(args[k - 1]);
      SumAligned(|Tails(args, k - 1)|, |TailOf(args[k - 1])|);
    }
  }

  lemma {:induction false} TailsOrdered(args: seq<Arg>, i: nat, j: nat)
    requires i <= j <= |args|
    ensures |Tails(args, i)| <= |Tails(args, j)|
  {
    hide TailOf;
    if i < j {
      TailsOrdered(args, i, j - 1);
    }
  }

  lemma InFirst(s: seq<Byte>, t: seq<Byte>, i: nat, j: nat)
    requires i <= j <= |s|
    ensures (s + t)[i..j] == s[i..j]
  {
  }

  lemma InSecond(s: seq<Byte>, t: seq<Byte>, i: nat, j: nat)
    requires i <= j <= |t|
    ensures (s + t)[|s| + i..|s| + j] == t[i..j]
  {
    forall k | 0 <= k < j - i ensures (s + t)[|s| + i..|s| + j][k] == t[i..j][k] {
    }
  }

  /** The tail of argument `i` lies where its head points. */
  lemma EncodeAt(args: seq<Arg>, i: nat)
    requires i < |args|
    ensures 32 * i + 32 <= |Encode(args)| && Encode(args)[32 * i..32 * i + 32] == HeadWord(args, i)
    ensures Offset(args, i) + |TailOf(args[i])| <= |Encode(args)|
    ensures Encode(args)[Offset(args, i)..Offset(args, i) + |TailOf(args[i])|] == TailOf(args[i])
  {
    hide TailOf, HeadWord, Heads, Tails;
    HeadsAt(args, |args|, i);
    TailsAt(args, |args|, i);
    var h, t := Heads(args, |args|), Tails(args, |args|);
    var at, n := |Tails(args, i)|, |TailOf(args[i])|;
    InFirst(h, t, 32 * i, 32 * i + 32);
    InSecond(h, t, at, at + n);
  }

  /** Every offset is a multiple of 32, lies past the heads and inside the encoding, and
      the region it points at ends before the region of any later argument begins. */
  lemma OffsetsAligned(args: seq<Arg>, i: nat, j: nat)
    requires i < j < |args|
    ensures Offset(args, i) % 32 == 0 && Offset(args, j) % 32 == 0
    ensures 32 * |args| <= Offset(args, i)
    ensures Offset(args, i) + |TailOf(args[i])| <= Offset(args, j)
    ensures Offset(args, j) + |TailOf(args[j])| <= |Encode(args)|
  {
    hide TailOf, Encode;
    EncodeAt(args, j);
    TailsAligned(args, i);
    TailsAligned(args, j);
    SumAligned(32 * |args|, |Tails(args, i)|);
    SumAligned(32 * |args|, |Tails(args, j)|);
    TailsOrdered(args, i + 1, j);
  }

  // ---- the round trip ------------------------------------------------------------------------

  /** A lock as the contract reads it back: numbers reduced to 256 bits. */
  function Reduced(l: LockArg): LockArg {
    l.(amount := l.amount % Pow256(32), expiry := l.expiry % Pow256(32))
  }

  function ReducedAll(ls: seq<LockArg>): (r: seq<LockArg>)
    ensures |r| == |ls|
  {
    seq(|ls|, i requires 0 <= i < |ls| => Reduced(ls[i]))
  }

  function ReadBack(a: Arg): Arg {
    if a.Locks? then Locks(ReducedAll(a.locks)) else a
  }

  function ReadBackAll(args: seq<Arg>): (r: seq<Arg>)
    ensures |r| == |args|
  {
    seq(|args|, i requires 0 <= i < |args| => ReadBack(args[i]))
  }

  lemma SmallNum(n: nat)
    requires n < Pow256(32)
    ensures Value(Num(n)) == n
  {
    hide Pow256, BigEndian;
    ValueOfBigEndian(n, 32);
    DivModUnique(n, Pow256(32), 0, n);
  }

  lemma FlagReadsBack(b: bool)
    ensures Value(Num(if b then 1 else 0)) == if b then 1 else 0
  {
    hide BigEndian, Value;
    assert Pow256(32) > 1 by {
      Pow256Monotone(1, 32);
      hide Pow256;
      PowOne();
    }
    hide Pow256;
    SmallNum(if b then 1 else 0);
  }

  lemma PowOne()
    ensures Pow256(1) == 256
  {
  }

  lemma Inside(data: seq<Byte>, lo: nat, hi: nat, i: nat, j: nat)
    requires lo <= hi <= |data| && i <= j <= hi - lo
    ensures data[lo..hi][i..j] == data[lo + i..lo + j]
  {
    forall k | 0 <= k < j - i ensures data[lo..hi][i..j][k] == data[lo + i..lo + j][k] {
    }
  }

  lemma LockReadsBack(data: seq<Byte>, at: nat, l: LockArg)
    requires at + 160 <= |data| && data[at..at + 160] == EncodeLock(l)
    ensures LockAt(data, at) == Some(Reduced(l))
  {
    hide BigEndian, Value, Pow256;
    var s := EncodeLock(l);
    Inside(data, at, at + 160, 0, 32);
    Inside(data, at, at + 160, 32, 64);
    Inside(data, at, at + 160, 64, 96);
    Inside(data, at, at + 160, 96, 128);
    Inside(data, at, at + 160, 128, 160);
    assert s[0..32] == l.id;
    assert s[32..64] == l.hash;
    assert s[64..96] == Num(l.amount);
    assert s[96..128] == Num(l.expiry);
    assert s[128..160] == Num(if l.payerIsA then 1 else 0);
    FlagReadsBack(l.payerIsA);
    ValueOfBigEndian(l.amount, 32);
    ValueOfBigEndian(l.expiry, 32);
  }

  lemma {:induction false} LockListReadsBack(data: seq<Byte>, at: nat, ls: seq<LockArg>)
    requires at + 160 * |ls| <= |data| && data[at..at + 160 * |ls|] == EncodeLockList(ls)
    ensures LockListAt(data, at, |ls|) == Some(ReducedAll(ls))
  {
    hide EncodeLock, LockAt, Reduced;
    if ls != [] {
      var n := |ls| - 1;
      var s := EncodeLockList(ls);
      assert data[at..at + 160 * n] == s[..160 * n] == EncodeLockList(ls[..n]);
      LockListReadsBack(data, at, ls[..n]);
      assert data[at + 160 * n..at + 160 * n + 160] == s[160 * n..] == EncodeLock(ls[n]);
      LockReadsBack(data, at + 160 * n, ls[n]);
      assert ReducedAll(ls) == ReducedAll(ls[..n]) + [Reduced(ls[n])];
    }
  }

  lemma BlobReadsBack(data: seq<Byte>, at: nat, b: seq<Byte>)
    requires |data| < Pow256(32)
    requires at + |BlobTail(b)| <= |data| && data[at..at + |BlobTail(b)|] == BlobTail(b)
    ensures BlobAt(data, at) == Some(b)
  {
    hide BigEndian, Value, Pow256;
    var s := BlobTail(b);
    Inside(data, at, at + |s|, 0, 32);
    Inside(data, at, at + |s|, 32, 32 + |b|);
    assert s[0..32] == Num(|b|);
    assert s[32..32 + |b|] == b;
    SmallNum(|b|);
  }

  lemma LocksReadBack(data: seq<Byte>, at: nat, ls: seq<LockArg>)
    requires |data| < Pow256(32)
    requires at + |LocksTail(ls)| <= |data| && data[at..at + |LocksTail(ls)|] == LocksTail(ls)
    ensures LocksAt(data, at) == Some(ReducedAll(ls))
  {
    hide BigEndian, Value, Pow256, EncodeLockList, ReducedAll;
    var s := LocksTail(ls);
    assert data[at..at + 32] == s[..32] == Num(|ls|);
    SmallNum(|ls|);
    assert data[at + 32..at + 32 + 160 * |ls|] == s[32..] == EncodeLockList(ls);
    LockListReadsBack(data, at + 32, ls);
  }

  lemma ArgReadsBack(args: seq<Arg>, i: nat)
    requires |Encode(args)| < Pow256(32) && i < |args|
    ensures ArgAt(Encode(args), KindOf(args[i]), i) == Some(ReadBack(args[i]))
  {
    hide Encode, BlobAt, LocksAt, Tails, Pow256, BigEndian, Value, BlobTail, LocksTail, ReducedAll;
    EncodeAt(args, i);
    var data := Encode(args);
    if !args[i].Static? {
      SmallNum(Offset(args, i));
      match args[i]
      case Blob(b) => BlobReadsBack(data, Offset(args, i), b);
      case Locks(ls) => LocksReadBack(data, Offset(args, i), ls);
    }
  }

  lemma {:induction false} FirstReadBack(args: seq<Arg>, k: nat)
    requires |Encode(args)| < Pow256(32) && k <= |args|
    ensures DecodeFirst(Encode(args), Kinds(args), k) == Some(ReadBackAll(args)[..k])
  {
    hide Encode, ArgAt, ReadBack, KindOf, Pow256;
    if k > 0 {
      FirstReadBack(args, k - 1);
      ArgReadsBack(args, k - 1);
      assert ReadBackAll(args)[..k] == ReadBackAll(args)[..k - 1] + [ReadBack(args[k - 1])];
    }
  }

  /** Decoding an encoding gives back every argument in order, with nothing changed but
      lock amounts and expiries reduced modulo 2^256. */
  lemma DecodeEncode(args: seq<Arg>)
    requires |Encode(args)| < Pow256(32)
    ensures Decode(Encode(args), Kinds(args)) == Some(ReadBackAll(args))
  {
    hide Encode, DecodeFirst, Pow256, ReadBack, KindOf;
    FirstReadBack(args, |args|);
    assert ReadBackAll(args)[..|args|] == ReadBackAll(args);
  }

  ghost predicate InRange(l: LockArg) {
    l.amount < Pow256(32) && l.expiry < Pow256(32)
  }

  /** Exactly the lists whose numbers fit in 256 bits survive the round trip. */
  lemma ReducedIsSame(ls: seq<LockArg>)
    ensures ReducedAll(ls) == ls <==> forall i :: 0 <= i < |ls| ==> InRange(ls[i])
  {
    hide Pow256;
    forall i | 0 <= i < |ls| ensures Reduced(ls[i]) == ls[i] <==> InRange(ls[i]) {
      ReducedOneIsSame(ls[i]);
    }
    if ReducedAll(ls) == ls {
      forall i | 0 <= i < |ls| ensures InRange(ls[i]) {
        assert ReducedAll(ls)[i] == Reduced(ls[i]);
      }
    }
  }

  lemma ReducedOneIsSame(l: LockArg)
    ensures Reduced(l) == l <==> InRange(l)
  {
    hide Pow256;
    var m := Pow256(32);
    if l.amount < m { DivModUnique(l.amount, m, 0, l.amount); }
    if l.expiry < m { DivModUnique(l.expiry, m, 0, l.expiry); }
    ModSmaller(l.amount, m);
    ModSmaller(l.expiry, m);
  }

  lemma ModSmaller(n: nat, m: nat)
    requires m > 0
    ensures n % m < m
  {
  }
}
