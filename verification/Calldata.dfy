/** The encoder that builds contract calls one word at a time, and the calls it builds. */
module Calldata {
  import opened Common
  import opened Bytes
  import opened Abi
  import Scpp

  function Flat(words: seq<Bytes32>): (s: seq<Byte>)
    ensures |s| == 32 * |words|
  {
    if words == [] then [] else Flat(words[..|words| - 1]) + words[|words| - 1]
  }

  lemma FlatAppend(words: seq<Bytes32>, w: Bytes32)
    ensures Flat(words + [w]) == Flat(words) + w
  {
    assert (words + [w])[..|words|] == words;
  }

  lemma {:induction false} FlatUpdate(words: seq<Bytes32>, i: nat, w: Bytes32)
    requires i < |words|
    ensures Flat(words)[..32 * i] + w + Flat(words)[32 * i + 32..] == Flat(words[i := w])
  {
    var n := |words| - 1;
    assert words == words[..n] + [words[n]];
    if i < n {
      FlatUpdate(words[..n], i, w);
      assert words[i := w][..n] == words[..n][i := w];
      assert Flat(words)[..32 * i] == Flat(words[..n])[..32 * i];
      assert Flat(words)[32 * i + 32..] == Flat(words[..n])[32 * i + 32..] + words[n];
    } else {
      assert words[i := w][..n] == words[..n];
      assert Flat(words)[..32 * i] == Flat(words[..n]);
    }
  }

  lemma {:induction false} FlatHeads(words: seq<Bytes32>, args: seq<Arg>, k: nat)
    requires k <= |args| && |words| == k && forall i :: 0 <= i < k ==> words[i] == HeadWord(args, i)
    ensures Flat(words) == Heads(args, k)
  {
    hide HeadWord;
    if k > 0 {
      FlatHeads(words[..k - 1], args, k - 1);
    }
  }

  /** A pending lock as the signed state lists it. */
  type Htlc = Scpp.Htlc

  function LockArgOf(l: Htlc): LockArg {
    LockArg(l.id, l.hash, Magnitude(l.amount), Magnitude(l.expiry), l.payerIsA)
  }

  function LockArgs(ls: seq<Htlc>): (r: seq<LockArg>)
    ensures |r| == |ls|
  {
    seq(|ls|, i requires 0 <= i < |ls| => LockArgOf(ls[i]))
  }

  /** Fixed-size words grow the head; dynamic values grow the tail, and the head slots
      reserved for them are filled in once their place is known. */
  class AbiEncoder {
    var head: seq<Byte>
    var tail: seq<Byte>
    ghost var words: seq<Bytes32>

    ghost predicate Valid()
      reads this
    {
      head == Flat(words)
    }

    constructor ()
      ensures Valid() && words == [] && tail == []
    {
      head, tail, words := [], [], [];
    }

    method Fixed(b: Bytes32)
      requires Valid()
      modifies this`head, this`words
      ensures Valid() && words == old(words) + [b]
    {
      FlatAppend(words, b);
      head := head + b;
      words := words + [b];
    }

    method U256(n: int)
      requires Valid()
      modifies this`head, this`words
      ensures Valid() && words == old(words) + [Num(Magnitude(n))]
    {
      Fixed(Num(Magnitude(n)));
    }

    method U64(n: nat)
      requires Valid()
      modifies this`head, this`words
      ensures Valid() && words == old(words) + [Num(n)]
    {
      U256(n);
    }

    /** Reserves a head word for a dynamic value. */
    method Offset() returns (slot: nat)
      requires Valid()
      modifies this`head, this`words
      ensures Valid() && words == old(words) + [Zeros(32)] && slot == |old(words)|
    {
      Fixed(Zeros(32));
      slot := |head| / 32 - 1;
    }

    method Patch(slot: nat, tailPos: nat)
      requires Valid() && slot < |words|
      modifies this`head, this`words
      ensures Valid() && words == old(words)[slot := Num(32 * |old(words)| + tailPos)]
    {
      var w := Num(|head| + tailPos);
      FlatUpdate(words, slot, w);
      head := head[..slot * 32] + w + head[(slot + 1) * 32..];
      words := words[slot := w];
    }

    method EncodeBytes(b: seq<Byte>) returns (pos: nat)
      modifies this`tail
      ensures pos == |old(tail)| && tail == old(tail) + BlobTail(b)
    {
      pos := |tail|;
      tail := tail + Num(|b|);
      var padded := b + Zeros((|b| + 31) / 32 * 32 - |b|);
      tail := tail + padded;
      assert old(tail) + Num(|b|) + padded == old(tail) + BlobTail(b);
    }

    method EncodeLocks(locks: seq<Htlc>) returns (pos: nat)
      modifies this`tail
      ensures pos == |old(tail)| && tail == old(tail) + LocksTail(LockArgs(locks))
    {
      hide BigEndian, LockArgOf;
      pos := |tail|;
      ghost var start := tail + Num(|locks|);
      tail := tail + Num(|locks|);
      for i := 0 to |locks|
        invariant tail == start + EncodeLockList(LockArgs(locks[..i]))
      {
        ghost var before := tail;
        tail := tail + locks[i].id;
        tail := tail + locks[i].hash;
        tail := tail + Num(Magnitude(locks[i].amount));
        tail := tail + Num(Magnitude(locks[i].expiry));
        tail := tail + Num(if locks[i].payerIsA then 1 else 0);
        LockAppended(before, tail, locks[i]);
        ListAppended(locks, i);
        Associate(start, EncodeLockList(LockArgs(locks[..i])), EncodeLock(LockArgOf(locks[i])));
      }
      assert locks[..|locks|] == locks;
      Associate(old(tail), Num(|locks|), EncodeLockList(LockArgs(locks)));
    }

    method Bytes() returns (data: seq<Byte>)
      requires Valid()
      ensures data == Flat(words) + tail
    {
      data := head + tail;
    }
  }

  lemma Associate(a: seq<Byte>, b: seq<Byte>, c: seq<Byte>)
    ensures a + b + c == a + (b + c)
  {
  }

  lemma LockAppended(before: seq<Byte>, after: seq<Byte>, l: Htlc)
    requires after == before + l.id + l.hash + Num(Magnitude(l.amount)) + Num(Magnitude(l.expiry))
                    + Num(if l.payerIsA then 1 else 0)
    ensures after == before + EncodeLock(LockArgOf(l))
  {
    hide BigEndian;
  }

  lemma ListAppended(locks: seq<Htlc>, i: nat)
    requires i < |locks|
    ensures EncodeLockList(LockArgs(locks[..i + 1])) == EncodeLockList(LockArgs(locks[..i])) + EncodeLock(LockArgOf(locks[i]))
  {
    hide LockArgOf, EncodeLock;
    assert LockArgs(locks[..i + 1])[..i] == LockArgs(locks[..i]);
  }

  lemma Assembled(words: seq<Bytes32>, tail: seq<Byte>, args: seq<Arg>)
    requires |words| == |args| && forall i :: 0 <= i < |args| ==> words[i] == HeadWord(args, i)
    requires tail == Tails(args, |args|)
    ensures Flat(words) + tail == Encode(args)
  {
    FlatHeads(words, args, |args|);
  }

  lemma {:induction false} StaticTails(args: seq<Arg>, k: nat)
    requires k <= |args| && forall i :: 0 <= i < k ==> args[i].Static?
    ensures Tails(args, k) == []
  {
    if k > 0 {
      StaticTails(args, k - 1);
    }
  }

  lemma NextTail(args: seq<Arg>, k: nat)
    requires k < |args|
    ensures Tails(args, k + 1) == Tails(args, k) + TailOf(args[k])
  {
  }

  // ---- the calls --------------------------------------------------------------------------

  type Selector = s: seq<Byte> | |s| == 4 witness Zeros(4)

  /** A state with both signatures, as the settlement code reads it. */
  datatype Signed = Signed(channel: Bytes32, nonce: nat, balanceA: int, balanceB: int, withdrawA: int, withdrawB: int,
                           pending: seq<Htlc>, sigA: seq<Byte>, sigB: seq<Byte>)

  datatype CallError = NothingToSubmit | LocksUnresolved | CarriesWithdrawal

  predicate Complete(s: Signed) {
    |s.sigA| == 65 && |s.sigB| == 65
  }

  function CheckpointArgs(s: Signed): (args: seq<Arg>)
    ensures |args| == 9
  {
    [Static(s.channel), Static(Num(s.nonce)), Static(Num(Magnitude(s.balanceA))), Static(Num(Magnitude(s.balanceB))),
     Static(Num(Magnitude(s.withdrawA))), Static(Num(Magnitude(s.withdrawB))),
     Locks(LockArgs(s.pending)), Blob(s.sigA), Blob(s.sigB)]
  }

  function CooperativeArgs(s: Signed): (args: seq<Arg>)
    ensures |args| == 6
  {
    [Static(s.channel), Static(Num(s.nonce)), Static(Num(Magnitude(s.balanceA))), Static(Num(Magnitude(s.balanceB))),
     Blob(s.sigA), Blob(s.sigB)]
  }

  function DisputeArgs(s: Signed): (args: seq<Arg>)
    ensures |args| == 7
  {
    [Static(s.channel), Static(Num(s.nonce)), Static(Num(Magnitude(s.balanceA))), Static(Num(Magnitude(s.balanceB))),
     Locks(LockArgs(s.pending)), Blob(s.sigA), Blob(s.sigB)]
  }

  function ClaimArgs(id: Bytes32, locks: seq<Htlc>, index: int, preimage: Bytes32): (args: seq<Arg>)
    ensures |args| == 4
  {
    [Static(id), Locks(LockArgs(locks)), Static(Num(Magnitude(index))), Static(preimage)]
  }

  function ExpireArgs(id: Bytes32, locks: seq<Htlc>, index: int): (args: seq<Arg>)
    ensures |args| == 3
  {
    [Static(id), Locks(LockArgs(locks)), Static(Num(Magnitude(index)))]
  }

  lemma ThreeTails(args: seq<Arg>, n: nat)
    requires |args| == n + 3 && forall i :: 0 <= i < n ==> args[i].Static?
    ensures var t0, t1, t2 := TailOf(args[n]), TailOf(args[n + 1]), TailOf(args[n + 2]);
            && Tails(args, n) == [] && Tails(args, n + 1) == t0
            && Tails(args, n + 2) == t0 + t1 && Tails(args, n + 3) == t0 + t1 + t2
  {
    hide TailOf, Tails;
    StaticTails(args, n);
    NextTail(args, n);
    assert Tails(args, n + 1) == TailOf(args[n]);
    NextTail(args, n + 1);
    NextTail(args, n + 2);
  }

  lemma TwoTails(args: seq<Arg>, n: nat)
    requires |args| == n + 2 && forall i :: 0 <= i < n ==> args[i].Static?
    ensures var t0, t1 := TailOf(args[n]), TailOf(args[n + 1]);
            Tails(args, n) == [] && Tails(args, n + 1) == t0 && Tails(args, n + 2) == t0 + t1
  {
    hide TailOf, Tails;
    StaticTails(args, n);
    NextTail(args, n);
    assert Tails(args, n + 1) == TailOf(args[n]);
    NextTail(args, n + 1);
  }

  /** Static arguments first, dynamic ones from `n` on, each head word where it belongs. */
  lemma StaticThenDynamic(args: seq<Arg>, n: nat, words: seq<Bytes32>, tail: seq<Byte>)
    requires n <= |args| == |words|
    requires forall i :: 0 <= i < n ==> args[i].Static? && words[i] == args[i].word
    requires forall i :: n <= i < |args| ==> !args[i].Static? && words[i] == Num(32 * |args| + |Tails(args, i)|)
    requires tail == Tails(args, |args|)
    ensures Flat(words) + tail == Encode(args)
  {
    hide Encode, Tails, Flat, Num;
    Assembled(words, tail, args);
  }

  /** One dynamic argument, second in line, with static ones around it. */
  lemma SecondTail(args: seq<Arg>, words: seq<Bytes32>, tail: seq<Byte>)
    requires |args| == |words| >= 2 && !args[1].Static? && tail == TailOf(args[1])
    requires forall i :: 0 <= i < |args| && i != 1 ==> args[i].Static? && words[i] == args[i].word
    requires words[1] == Num(32 * |args|)
    ensures Flat(words) + tail == Encode(args)
  {
    hide Encode, BigEndian, Tails;
    StaticTails(args, 1);
    NextTail(args, 1);
    TailStays(args, |args|);
    Assembled(words, tail, args);
  }

  lemma {:induction false} TailStays(args: seq<Arg>, k: nat)
    requires 2 <= k <= |args| && forall i :: 2 <= i < |args| ==> args[i].Static?
    ensures Tails(args, k) == Tails(args, 2)
  {
    if k > 2 {
      TailStays(args, k - 1);
    }
  }

  /** What a checkpoint and a dispute have in common after their static fields. */
  method AppendLocksAndSignatures(e: AbiEncoder, s: Signed)
    requires e.Valid() && e.tail == []
    modifies e
    ensures e.Valid()
    ensures var n, t0, t1 := 32 * (|old(e.words)| + 3), LocksTail(LockArgs(s.pending)), BlobTail(s.sigA);
            && e.words == old(e.words) + [Num(n), Num(n + |t0|), Num(n + |t0 + t1|)]
            && e.tail == t0 + t1 + BlobTail(s.sigB)
  {
    hide Num, Flat, LocksTail, BlobTail, LockArgs;
    var locksSlot := e.Offset();
    var sigASlot := e.Offset();
    var sigBSlot := e.Offset();
    var locksPos := e.EncodeLocks(s.pending);
    var sigAPos := e.EncodeBytes(s.sigA);
    var sigBPos := e.EncodeBytes(s.sigB);
    e.Patch(locksSlot, locksPos);
    e.Patch(sigASlot, sigAPos);
    e.Patch(sigBSlot, sigBPos);
  }

  method CheckpointCalldata(selector: Selector, s: Signed) returns (r: Result<seq<Byte>, CallError>)
    ensures r == if Complete(s) then Ok(selector + Encode(CheckpointArgs(s))) else Err(NothingToSubmit)
    ensures r == Err(NothingToSubmit) <==> |s.sigA| != 65 || |s.sigB| != 65
  {
    hide Encode, Num, Flat, LocksTail, BlobTail, LockArgs, Magnitude, Tails;
    if !Complete(s) {
      return Err(NothingToSubmit);
    }
    var e := new AbiEncoder();
    e.Fixed(s.channel);
    e.U64(s.nonce);
    e.U256(s.balanceA);
    e.U256(s.balanceB);
    e.U256(s.withdrawA);
    e.U256(s.withdrawB);
    AppendLocksAndSignatures(e, s);
    ThreeTails(CheckpointArgs(s), 6);
    StaticThenDynamic(CheckpointArgs(s), 6, e.words, e.tail);
    var data := e.Bytes();
    return Ok(selector + data);
  }

  method CloseCooperativeCalldata(selector: Selector, s: Signed) returns (r: Result<seq<Byte>, CallError>)
    ensures r == if !Complete(s) then Err(NothingToSubmit)
                 else if s.pending != [] then Err(LocksUnresolved)
                 else Ok(selector + Encode(CooperativeArgs(s)))
    ensures r == Err(NothingToSubmit) <==> |s.sigA| != 65 || |s.sigB| != 65
  {
    hide Encode, Num, Flat, BlobTail, Magnitude, Tails;
    if !Complete(s) {
      return Err(NothingToSubmit);
    }
    if |s.pending| > 0 {
      return Err(LocksUnresolved);
    }
    var e := new AbiEncoder();
    e.Fixed(s.channel);
    e.U64(s.nonce);
    e.U256(s.balanceA);
    e.U256(s.balanceB);
    var sigASlot := e.Offset();
    var sigBSlot := e.Offset();
    var sigAPos := e.EncodeBytes(s.sigA);
    var sigBPos := e.EncodeBytes(s.sigB);
    e.Patch(sigASlot, sigAPos);
    e.Patch(sigBSlot, sigBPos);
    var data := e.Bytes();
    TwoTails(CooperativeArgs(s), 4);
    StaticThenDynamic(CooperativeArgs(s), 4, e.words, e.tail);
    return Ok(selector + data);
  }

  /** The argument list closeUnilateral and challenge share. */
  method DisputeCalldata(selector: Selector, s: Signed) returns (r: Result<seq<Byte>, CallError>)
    ensures r == if !Complete(s) then Err(NothingToSubmit)
                 else if s.withdrawA != 0 || s.withdrawB != 0 then Err(CarriesWithdrawal)
                 else Ok(selector + Encode(DisputeArgs(s)))
    ensures r == Err(NothingToSubmit) <==> |s.sigA| != 65 || |s.sigB| != 65
  {
    hide Encode, Num, Flat, LocksTail, BlobTail, LockArgs, Magnitude, Tails;
    if !Complete(s) {
      return Err(NothingToSubmit);
    }
    if s.withdrawA != 0 || s.withdrawB != 0 {
      return Err(CarriesWithdrawal);
    }
    var e := new AbiEncoder();
    e.Fixed(s.channel);
    e.U64(s.nonce);
    e.U256(s.balanceA);
    e.U256(s.balanceB);
    AppendLocksAndSignatures(e, s);
    ThreeTails(DisputeArgs(s), 4);
    StaticThenDynamic(DisputeArgs(s), 4, e.words, e.tail);
    var data := e.Bytes();
    return Ok(selector + data);
  }

  method ClaimLockCalldata(selector: Selector, id: Bytes32, locks: seq<Htlc>, index: int, preimage: Bytes32)
    returns (data: seq<Byte>)
    ensures data == selector + Encode(ClaimArgs(id, locks, index, preimage))
  {
    hide Encode, BigEndian, Flat, LocksTail, LockArgs;
    var e := new AbiEncoder();
    e.Fixed(id);
    var locksSlot := e.Offset();
    e.U256(index);
    e.Fixed(preimage);
    var locksPos := e.EncodeLocks(locks);
    e.Patch(locksSlot, locksPos);
    data := e.Bytes();
    SecondTail(ClaimArgs(id, locks, index, preimage), e.words, e.tail);
    data := selector + data;
  }

  method ExpireLockCalldata(selector: Selector, id: Bytes32, locks: seq<Htlc>, index: int) returns (data: seq<Byte>)
    ensures data == selector + Encode(ExpireArgs(id, locks, index))
  {
    hide Encode, BigEndian, Flat, LocksTail, LockArgs;
    var e := new AbiEncoder();
    e.Fixed(id);
    var locksSlot := e.Offset();
    e.U256(index);
    var locksPos := e.EncodeLocks(locks);
    e.Patch(locksSlot, locksPos);
    data := e.Bytes();
    SecondTail(ExpireArgs(id, locks, index), e.words, e.tail);
    data := selector + data;
  }

  // ---- what the contract reads ---------------------------------------------------------------

  ghost predicate Uint256(n: int) {
    0 <= n < Pow256(32)
  }

  ghost predicate HtlcFits(l: Htlc) {
    Uint256(l.amount) && Uint256(l.expiry)
  }

  function HtlcOf(l: LockArg): Htlc {
    Scpp.Htlc(l.id, l.hash, l.amount, l.expiry, l.payerIsA)
  }

  function HtlcsOf(ls: seq<LockArg>): (r: seq<Htlc>)
    ensures |r| == |ls|
  {
    seq(|ls|, i requires 0 <= i < |ls| => HtlcOf(ls[i]))
  }

  function ReadNum(a: Arg): nat
    requires a.Static?
  {
    Value(a.word)
  }

  predicate Shaped(args: seq<Arg>, kinds: seq<Kind>) {
    |args| == |kinds| && forall i :: 0 <= i < |args| ==> KindOf(args[i]) == kinds[i]
  }

  const CHECKPOINT_KINDS := [StaticKind, StaticKind, StaticKind, StaticKind, StaticKind, StaticKind, LocksKind, BlobKind, BlobKind]
  const DISPUTE_KINDS := [StaticKind, StaticKind, StaticKind, StaticKind, LocksKind, BlobKind, BlobKind]
  const COOPERATIVE_KINDS := [StaticKind, StaticKind, StaticKind, StaticKind, BlobKind, BlobKind]

  function ReadCheckpoint(args: seq<Arg>): Signed
    requires Shaped(args, CHECKPOINT_KINDS)
  {
    Signed(args[0].word, ReadNum(args[1]), ReadNum(args[2]), ReadNum(args[3]), ReadNum(args[4]), ReadNum(args[5]),
           HtlcsOf(args[6].locks), args[7].data, args[8].data)
  }

  function ReadDispute(args: seq<Arg>): Signed
    requires Shaped(args, DISPUTE_KINDS)
  {
    Signed(args[0].word, ReadNum(args[1]), ReadNum(args[2]), ReadNum(args[3]), 0, 0,
           HtlcsOf(args[4].locks), args[5].data, args[6].data)
  }

  function ReadCooperative(args: seq<Arg>): Signed
    requires Shaped(args, COOPERATIVE_KINDS)
  {
    Signed(args[0].word, ReadNum(args[1]), ReadNum(args[2]), ReadNum(args[3]), 0, 0, [], args[4].data, args[5].data)
  }

  ghost predicate Fits(s: Signed) {
    && Uint256(s.nonce) && Uint256(s.balanceA) && Uint256(s.balanceB) && Uint256(s.withdrawA) && Uint256(s.withdrawB)
    && forall i :: 0 <= i < |s.pending| ==> HtlcFits(s.pending[i])
  }

  lemma NumReadsBack(n: int)
    ensures Value(Num(Magnitude(n))) == Magnitude(n) % Pow256(32)
    ensures Value(Num(Magnitude(n))) == n <==> Uint256(n)
  {
    hide BigEndian, Value, Pow256;
    ValueOfBigEndian(Magnitude(n), 32);
    ModSmaller(Magnitude(n), Pow256(32));
    if Uint256(n) {
      DivModUnique(n, Pow256(32), 0, n);
    }
  }

  lemma HtlcReadsBack(l: Htlc)
    ensures HtlcOf(Reduced(LockArgOf(l))) == l <==> HtlcFits(l)
  {
    hide Pow256;
    var m := Pow256(32);
    ModSmaller(Magnitude(l.amount), m);
    ModSmaller(Magnitude(l.expiry), m);
    if HtlcFits(l) {
      DivModUnique(l.amount, m, 0, l.amount);
      DivModUnique(l.expiry, m, 0, l.expiry);
    }
  }

  lemma HtlcsReadBack(ls: seq<Htlc>)
    ensures HtlcsOf(ReducedAll(LockArgs(ls))) == ls <==> forall i :: 0 <= i < |ls| ==> HtlcFits(ls[i])
  {
    hide Reduced, HtlcOf, LockArgOf, HtlcFits;
    var r := HtlcsOf(ReducedAll(LockArgs(ls)));
    forall i | 0 <= i < |ls| ensures r[i] == ls[i] <==> HtlcFits(ls[i]) {
      HtlcReadsBack(ls[i]);
    }
  }

  /** The contract reads a checkpoint call back as the state it was built from exactly
      when every number of the state is a 256-bit natural. */
  lemma CheckpointRoundTrip(s: Signed)
    requires |Encode(CheckpointArgs(s))| < Pow256(32)
    ensures var r := Decode(Encode(CheckpointArgs(s)), CHECKPOINT_KINDS);
            r.Some? && Shaped(r.value, CHECKPOINT_KINDS) && (ReadCheckpoint(r.value) == s <==> Fits(s))
  {
    hide Encode, Decode, BigEndian, Value, Pow256, LockArgs, HtlcsOf, ReducedAll, HtlcFits, Uint256;
    DecodeEncode(CheckpointArgs(s));
    assert Kinds(CheckpointArgs(s)) == CHECKPOINT_KINDS;
    NumReadsBack(s.nonce);
    NumReadsBack(s.balanceA);
    NumReadsBack(s.balanceB);
    NumReadsBack(s.withdrawA);
    NumReadsBack(s.withdrawB);
    HtlcsReadBack(s.pending);
  }

  lemma DisputeRoundTrip(s: Signed)
    requires |Encode(DisputeArgs(s))| < Pow256(32) && s.withdrawA == 0 && s.withdrawB == 0
    ensures var r := Decode(Encode(DisputeArgs(s)), DISPUTE_KINDS);
            r.Some? && Shaped(r.value, DISPUTE_KINDS) && (ReadDispute(r.value) == s <==> Fits(s))
  {
    hide Encode, Decode, BigEndian, Value, Pow256, LockArgs, HtlcsOf, ReducedAll, HtlcFits, Uint256;
    DecodeEncode(DisputeArgs(s));
    assert Kinds(DisputeArgs(s)) == DISPUTE_KINDS;
    NumReadsBack(s.nonce);
    NumReadsBack(s.balanceA);
    NumReadsBack(s.balanceB);
    NumReadsBack(0);
    ZeroFits();
    HtlcsReadBack(s.pending);
  }

  lemma ZeroFits()
    ensures Uint256(0)
  {
    hide Pow256;
  }

  /** The agreed close carries no withdrawal; everything else of a state without locks
      comes back. */
  lemma CooperativeRoundTrip(s: Signed)
    requires |Encode(CooperativeArgs(s))| < Pow256(32) && s.pending == []
    ensures var r := Decode(Encode(CooperativeArgs(s)), COOPERATIVE_KINDS);
            r.Some? && Shaped(r.value, COOPERATIVE_KINDS)
            && (ReadCooperative(r.value) == s.(withdrawA := 0, withdrawB := 0) <==> Fits(s.(withdrawA := 0, withdrawB := 0)))
  {
    hide Encode, Decode, BigEndian, Value, Pow256, HtlcFits, Uint256;
    DecodeEncode(CooperativeArgs(s));
    assert Kinds(CooperativeArgs(s)) == COOPERATIVE_KINDS;
    NumReadsBack(s.nonce);
    NumReadsBack(s.balanceA);
    NumReadsBack(s.balanceB);
    ZeroFits();
  }

  /** A claim or expiry names the same channel, locks, index and secret to the contract
      exactly when its numbers are 256-bit naturals. */
  lemma ClaimRoundTrip(id: Bytes32, locks: seq<Htlc>, index: int, preimage: Bytes32)
    requires |Encode(ClaimArgs(id, locks, index, preimage))| < Pow256(32)
    ensures var r := Decode(Encode(ClaimArgs(id, locks, index, preimage)), [StaticKind, LocksKind, StaticKind, StaticKind]);
            && r.Some? && Shaped(r.value, [StaticKind, LocksKind, StaticKind, StaticKind])
            && r.value[0].word == id && r.value[3].word == preimage
            && (ReadNum(r.value[2]) == index <==> Uint256(index))
            && (HtlcsOf(r.value[1].locks) == locks <==> forall i :: 0 <= i < |locks| ==> HtlcFits(locks[i]))
  {
    hide Encode, Decode, BigEndian, Value, Pow256, LockArgs, HtlcsOf, ReducedAll, HtlcFits, Uint256;
    DecodeEncode(ClaimArgs(id, locks, index, preimage));
    assert Kinds(ClaimArgs(id, locks, index, preimage)) == [StaticKind, LocksKind, StaticKind, StaticKind];
    NumReadsBack(index);
    HtlcsReadBack(locks);
  }

  lemma ExpireRoundTrip(id: Bytes32, locks: seq<Htlc>, index: int)
    requires |Encode(ExpireArgs(id, locks, index))| < Pow256(32)
    ensures var r := Decode(Encode(ExpireArgs(id, locks, index)), [StaticKind, LocksKind, StaticKind]);
            && r.Some? && Shaped(r.value, [StaticKind, LocksKind, StaticKind])
            && r.value[0].word == id
            && (ReadNum(r.value[2]) == index <==> Uint256(index))
            && (HtlcsOf(r.value[1].locks) == locks <==> forall i :: 0 <= i < |locks| ==> HtlcFits(locks[i]))
  {
    hide Encode, Decode, BigEndian, Value, Pow256, LockArgs, HtlcsOf, ReducedAll, HtlcFits, Uint256;
    DecodeEncode(ExpireArgs(id, locks, index));
    assert Kinds(ExpireArgs(id, locks, index)) == [StaticKind, LocksKind, StaticKind];
    NumReadsBack(index);
    HtlcsReadBack(locks);
  }
}
