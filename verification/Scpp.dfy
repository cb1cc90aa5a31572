/** The channel protocol's wire forms: states, transitions, and length-framed messages. */
module Scpp {
  import opened Common
  import opened Bytes
  import opened Text

  datatype Htlc = Htlc(id: Bytes32, hash: Bytes32, amount: int, expiry: int, payerIsA: bool)

  /** An amount that is absent in memory is zero here. */
  datatype State = State(channel: Bytes32, nonce: nat, balanceA: int, balanceB: int, withdrawA: int, withdrawB: int,
                         op: nat, pending: seq<Htlc>)

  const OP_STATE: nat := 1
  const OP_COOP_CLOSE: nat := 2
  const OP_CHECKPOINT: nat := 3

  datatype WireHtlc = WireHtlc(id: string, hash: string, amount: string, expiry: int, payerIsA: bool)

  /** Empty strings and a zero op are what an absent field reads as. */
  datatype WireState = WireState(channel: string, nonce: nat, balanceA: string, balanceB: string,
                                 withdrawA: string, withdrawB: string, op: nat, pending: seq<WireHtlc>)

  datatype Failure =
    | NotHex
    | NotDecimal
    | NegativeWithdrawal
    | UnknownOp
    | LocksUnsorted
    | FrameTooLarge
    | UnexpectedEnd
    | Malformed
    | BadVersion

  // ---- lock order --------------------------------------------------------------------

  /** Byte by byte, most significant first. */
  predicate LessId(a: seq<Byte>, b: seq<Byte>)
    requires |a| == |b|
  {
    if a == [] then false
    else if a[0] != b[0] then a[0] < b[0]
    else LessId(a[1..], b[1..])
  }

  lemma {:induction false} LessOrders(a: seq<Byte>, b: seq<Byte>)
    requires |a| == |b|
    ensures LessId(a, b) || LessId(b, a) || a == b
    ensures !(LessId(a, b) && LessId(b, a))
    ensures !LessId(a, a)
  {
    if a != [] {
      LessOrders(a[1..], b[1..]);
      LessOrders(a[1..], a[1..]);
      assert a == [a[0]] + a[1..] && b == [b[0]] + b[1..];
    }
  }

  lemma {:induction false} LessTransitive(a: seq<Byte>, b: seq<Byte>, c: seq<Byte>)
    requires |a| == |b| == |c| && LessId(a, b) && LessId(b, c)
    ensures LessId(a, c)
  {
    if a[0] == b[0] == c[0] {
      LessTransitive(a[1..], b[1..], c[1..]);
    }
  }

  /** A string's first byte counts for all that follow it. */
  lemma {:induction false} ValueFromFront(s: seq<Byte>)
    requires s != []
    ensures Value(s) == s[0] * Pow256(|s| - 1) + Value(s[1..])
  {
    if |s| > 1 {
      var n := |s| - 1;
      ValueFromFront(s[..n]);
      assert s[..n][1..] == s[1..][..n - 1];
      FrontStep(s[0], Pow256(n - 1), Value(s[..n][1..]), s[n]);
    } else {
      assert s[1..] == [] && s[..0] == [];
    }
  }

  lemma FrontStep(a: int, p: int, v: int, last: int)
    ensures 256 * (a * p + v) + last == a * (256 * p) + (256 * v + last)
  {
  }

  /** So one id comes before another exactly when it is the smaller number. */
  lemma {:induction false} LessIsNumeric(a: seq<Byte>, b: seq<Byte>)
    requires |a| == |b|
    ensures LessId(a, b) <==> Value(a) < Value(b)
  {
    if a != [] {
      hide Value, Pow256;
      ValueFromFront(a);
      ValueFromFront(b);
      ValueBound(a[1..]);
      ValueBound(b[1..]);
      LessIsNumeric(a[1..], b[1..]);
      FirstDecides(a[0], b[0], Pow256(|a| - 1), Value(a[1..]), Value(b[1..]));
    }
  }

  lemma FirstDecides(a: int, b: int, p: int, v: int, w: int)
    requires 0 <= v < p && 0 <= w < p
    ensures a < b ==> a * p + v < b * p + w
    ensures a > b ==> a * p + v > b * p + w
    ensures a == b ==> (a * p + v < b * p + w <==> v < w)
  {
    if a < b {
      Scaled(b - a, p);
      assert b * p == a * p + (b - a) * p;
    } else if a > b {
      Scaled(a - b, p);
      assert a * p == b * p + (a - b) * p;
    }
  }

  lemma Scaled(k: int, p: int)
    requires k >= 1 && p >= 0
    ensures k * p >= p
  {
  }

  /** Each lock's id is greater than the one before it. */
  predicate Sorted(ls: seq<Htlc>) {
    forall i :: 0 < i < |ls| ==> LessId(ls[i - 1].id, ls[i].id)
  }

  lemma {:induction false} SortedAll(ls: seq<Htlc>, i: nat, j: nat)
    requires Sorted(ls) && i < j < |ls|
    ensures LessId(ls[i].id, ls[j].id)
  {
    if i + 1 < j {
      SortedAll(ls, i, j - 1);
      LessTransitive(ls[i].id, ls[j - 1].id, ls[j].id);
    }
  }

  ghost predicate SameLocks(p: seq<Htlc>, q: seq<Htlc>) {
    forall l :: l in p <==> l in q
  }

  /** In a sorted list the first lock is below every other one. */
  lemma FirstIsLeast(ls: seq<Htlc>, l: Htlc)
    requires Sorted(ls) && l in ls
    ensures l == ls[0] || LessId(ls[0].id, l.id)
  {
    var i :| 0 <= i < |ls| && ls[i] == l;
    if i > 0 {
      SortedAll(ls, 0, i);
    }
  }

  lemma HeadIn(ls: seq<Htlc>)
    ensures ls == [] || ls[0] in ls
  {
  }

  /** Two accepted states with the same locks list them identically. */
  lemma {:induction false} SortedUnique(p: seq<Htlc>, q: seq<Htlc>)
    requires Sorted(p) && Sorted(q) && SameLocks(p, q)
    ensures p == q
  {
    hide LessId;
    HeadIn(p);
    HeadIn(q);
    if p == [] || q == [] {
      assert p == q;
    } else {
      assert p[0] in q && q[0] in p;
      FirstIsLeast(p, q[0]);
      FirstIsLeast(q, p[0]);
      LessOrders(p[0].id, q[0].id);
      assert p[0] == q[0];
      TailSorted(p);
      TailSorted(q);
      TailLocks(p, q);
      SortedUnique(p[1..], q[1..]);
      assert p == [p[0]] + p[1..] && q == [q[0]] + q[1..];
    }
  }

  lemma TailSorted(ls: seq<Htlc>)
    requires Sorted(ls) && |ls| > 0
    ensures Sorted(ls[1..])
    ensures ls[0] !in ls[1..]
  {
    hide LessId;
    var t := ls[1..];
    forall i | 0 < i < |t| ensures LessId(t[i - 1].id, t[i].id) {
      assert t[i - 1] == ls[i] && t[i] == ls[i + 1];
    }
    if ls[0] in t {
      var i :| 0 <= i < |t| && t[i] == ls[0];
      SortedAll(ls, 0, i + 1);
      LessOrders(ls[0].id, ls[0].id);
    }
  }

  lemma TailLocks(p: seq<Htlc>, q: seq<Htlc>)
    requires |p| > 0 && |q| > 0 && p[0] == q[0] && SameLocks(p, q)
    requires p[0] !in p[1..] && q[0] !in q[1..]
    ensures SameLocks(p[1..], q[1..])
  {
    forall l ensures l in p[1..] <==> l in q[1..] {
      assert l in p <==> l == p[0] || l in p[1..];
      assert l in q <==> l == q[0] || l in q[1..];
    }
  }

  // ---- states ------------------------------------------------------------------------------

  function EncodeHtlc(h: Htlc): WireHtlc {
    WireHtlc(Hex(h.id), Hex(h.hash), DecimalInt(h.amount), h.expiry, h.payerIsA)
  }

  function EncodeHtlcs(hs: seq<Htlc>): (w: seq<WireHtlc>)
    ensures |w| == |hs|
  {
    seq(|hs|, i requires 0 <= i < |hs| => EncodeHtlc(hs[i]))
  }

  function EncodeState(s: State): WireState {
    WireState(Hex(s.channel), s.nonce, DecimalInt(s.balanceA), DecimalInt(s.balanceB),
              if s.withdrawA > 0 then DecimalInt(s.withdrawA) else "",
              if s.withdrawB > 0 then DecimalInt(s.withdrawB) else "",
              if s.op != 0 && s.op != OP_STATE then s.op else 0,
              EncodeHtlcs(s.pending))
  }

  function ParseWithdrawal(s: string): Result<int, Failure> {
    var n := ParseInt(s);
    if n.None? then Err(NotDecimal) else if n.value < 0 then Err(NegativeWithdrawal) else Ok(n.value)
  }

  function DecodeHtlc(w: WireHtlc): Result<Htlc, Failure> {
    var id, hash, amount := ParseBytes32(w.id), ParseBytes32(w.hash), ParseInt(w.amount);
    if id.None? || hash.None? then Err(NotHex)
    else if amount.None? then Err(NotDecimal)
    else Ok(Htlc(id.value, hash.value, amount.value, w.expiry, w.payerIsA))
  }

  /** What the decoder accepts: every field parses, the operation is known, no withdrawal
      is negative, and the locks are strictly sorted by id. */
  predicate Acceptable(w: WireState) {
    && ParseBytes32(w.channel).Some? && ParseInt(w.balanceA).Some? && ParseInt(w.balanceB).Some?
    && ParseWithdrawal(w.withdrawA).Ok? && ParseWithdrawal(w.withdrawB).Ok?
    && w.op <= OP_CHECKPOINT
    && (forall i :: 0 <= i < |w.pending| ==> DecodeHtlc(w.pending[i]).Ok?)
    && (forall i :: 0 < i < |w.pending| ==>
          LessId(DecodeHtlc(w.pending[i - 1]).value.id, DecodeHtlc(w.pending[i]).value.id))
  }

  /** The error of the first field at fault. */
  function FieldError(w: WireState): Option<Failure> {
    if ParseBytes32(w.channel).None? then Some(NotHex)
    else if ParseInt(w.balanceA).None? || ParseInt(w.balanceB).None? then Some(NotDecimal)
    else if ParseWithdrawal(w.withdrawA).Err? then Some(ParseWithdrawal(w.withdrawA).error)
    else if ParseWithdrawal(w.withdrawB).Err? then Some(ParseWithdrawal(w.withdrawB).error)
    else if w.op > OP_CHECKPOINT then Some(UnknownOp)
    else None
  }

  /** What is wrong with lock `i`, the ids before it being readable: its order is looked at
      as soon as its id is read. */
  function LockError(w: WireState, i: nat): Option<Failure>
    requires i < |w.pending|
  {
    var id := ParseBytes32(w.pending[i].id);
    var previous := if i == 0 then None else ParseBytes32(w.pending[i - 1].id);
    if id.None? then Some(NotHex)
    else if previous.Some? && !LessId(previous.value, id.value) then Some(LocksUnsorted)
    else if DecodeHtlc(w.pending[i]).Err? then Some(DecodeHtlc(w.pending[i]).error)
    else None
  }

  method DecodeState(w: WireState) returns (r: Result<State, Failure>)
    ensures r.Err? ==>
              || FieldError(w) == Some(r.error)
              || (FieldError(w).None?
                  && exists i :: 0 <= i < |w.pending| && LockError(w, i) == Some(r.error)
                                 && forall k :: 0 <= k < i ==> LockError(w, k).None?)
    ensures r.Ok? <==> Acceptable(w)
    ensures r.Ok? ==> r.value.withdrawA >= 0 && r.value.withdrawB >= 0 && 1 <= r.value.op <= 3
    ensures r.Ok? ==> Sorted(r.value.pending) && Decoded(w, r.value)
  {
    hide ParseBytes32, ParseInt, LessId;
    var channel := ParseBytes32(w.channel);
    if channel.None? {
      return Err(NotHex);
    }
    var balanceA, balanceB := ParseInt(w.balanceA), ParseInt(w.balanceB);
    if balanceA.None? || balanceB.None? {
      return Err(NotDecimal);
    }
    var withdrawA := ParseWithdrawal(w.withdrawA);
    if withdrawA.Err? {
      return Err(withdrawA.error);
    }
    var withdrawB := ParseWithdrawal(w.withdrawB);
    if withdrawB.Err? {
      return Err(withdrawB.error);
    }
    var op := if w.op == 0 then OP_STATE else w.op;
    if op != OP_STATE && op != OP_COOP_CLOSE && op != OP_CHECKPOINT {
      return Err(UnknownOp);
    }
    var pending: seq<Htlc> := [];
    for i := 0 to |w.pending|
      invariant |pending| == i && Sorted(pending)
      invariant forall k :: 0 <= k < i ==> DecodeHtlc(w.pending[k]) == Ok(pending[k])
      invariant forall k :: 0 <= k < i ==> LockError(w, k).None?
    {
      var id := ParseBytes32(w.pending[i].id);
      assert i > 0 ==> DecodeHtlc(w.pending[i - 1]) == Ok(pending[i - 1]);
      if id.None? {
        assert LockError(w, i) == Some(NotHex);
        assert DecodeHtlc(w.pending[i]).Err?;
        return Err(NotHex);
      }
      var lock := DecodeHtlc(w.pending[i]);
      if i > 0 && !LessId(pending[i - 1].id, id.value) {
        assert LockError(w, i) == Some(LocksUnsorted);
        return Err(LocksUnsorted);
      }
      if lock.Err? {
        assert LockError(w, i) == Some(lock.error);
        return Err(lock.error);
      }
      pending := pending + [lock.value];
    }
    return Ok(State(channel.value, w.nonce, balanceA.value, balanceB.value, withdrawA.value, withdrawB.value, op, pending));
  }

  /** What an accepted wire form stands for. */
  ghost predicate Decoded(w: WireState, s: State) {
    && ParseBytes32(w.channel) == Some(s.channel) && s.nonce == w.nonce
    && ParseInt(w.balanceA) == Some(s.balanceA) && ParseInt(w.balanceB) == Some(s.balanceB)
    && ParseWithdrawal(w.withdrawA) == Ok(s.withdrawA) && ParseWithdrawal(w.withdrawB) == Ok(s.withdrawB)
    && s.op == (if w.op == 0 then OP_STATE else w.op)
    && |s.pending| == |w.pending|
    && forall i :: 0 <= i < |w.pending| ==> DecodeHtlc(w.pending[i]) == Ok(s.pending[i])
  }

  /** The wire form stands for one state at most. */
  lemma DecodedUnique(w: WireState, s: State, t: State)
    requires Decoded(w, s) && Decoded(w, t)
    ensures s == t
  {
    hide ParseBytes32, ParseInt, ParseWithdrawal, DecodeHtlc;
    forall i | 0 <= i < |s.pending| ensures s.pending[i] == t.pending[i] {
      assert DecodeHtlc(w.pending[i]) == Ok(s.pending[i]);
    }
    assert s.pending == t.pending;
  }

  /** The state a round trip yields: an unset op is the ordinary one, and a withdrawal
      that is not positive is none. */
  function Canonical(s: State): State {
    s.(op := if s.op == 0 then OP_STATE else s.op,
       withdrawA := if s.withdrawA > 0 then s.withdrawA else 0,
       withdrawB := if s.withdrawB > 0 then s.withdrawB else 0)
  }

  lemma HtlcRoundTrip(h: Htlc)
    ensures DecodeHtlc(EncodeHtlc(h)) == Ok(h)
  {
    hide ParseBytes32, ParseInt, Hex, DecimalInt;
    ParseBytes32Hex(h.id);
    ParseBytes32Hex(h.hash);
    ParseDecimalInt(h.amount);
  }

  lemma WithdrawalRoundTrip(n: int)
    ensures ParseWithdrawal(if n > 0 then DecimalInt(n) else "") == Ok(if n > 0 then n else 0)
  {
    hide DecimalInt;
    ParseDecimalInt(n);
  }

  /** What an encoded state decodes to. */
  lemma EncodedStandsFor(s: State)
    ensures Decoded(EncodeState(s), Canonical(s))
  {
    hide ParseBytes32, ParseInt, Hex, DecimalInt, ParseWithdrawal, DecodeHtlc, EncodeHtlc;
    ParseBytes32Hex(s.channel);
    ParseDecimalInt(s.balanceA);
    ParseDecimalInt(s.balanceB);
    WithdrawalRoundTrip(s.withdrawA);
    WithdrawalRoundTrip(s.withdrawB);
    forall i | 0 <= i < |s.pending| ensures DecodeHtlc(EncodeState(s).pending[i]) == Ok(s.pending[i]) {
      HtlcRoundTrip(s.pending[i]);
    }
  }

  /** An encoded state is accepted exactly when its locks are sorted and its operation
      is known, and then decodes to its canonical form; that is the state itself exactly
      when the operation is set and no withdrawal is negative. */
  lemma StateRoundTrip(s: State)
    ensures Acceptable(EncodeState(s)) <==> Sorted(s.pending) && s.op <= OP_CHECKPOINT
    ensures forall t :: Decoded(EncodeState(s), t) <==> t == Canonical(s)
    ensures Canonical(s) == s <==> s.op >= OP_STATE && s.withdrawA >= 0 && s.withdrawB >= 0
  {
    hide ParseBytes32, ParseInt, Hex, DecimalInt, ParseWithdrawal, DecodeHtlc, EncodeHtlc, LessId;
    EncodedStandsFor(s);
    var w := EncodeState(s);
    assert forall i :: 0 <= i < |s.pending| ==> DecodeHtlc(w.pending[i]) == Ok(s.pending[i]);
    forall t | Decoded(w, t) ensures t == Canonical(s) {
      DecodedUnique(w, t, Canonical(s));
    }
  }

  // ---- transitions -----------------------------------------------------------------------------

  datatype Transition = Transition(kind: string, amount: int, lockId: Bytes32, hash: Bytes32, expiry: int, preimage: Bytes32)

  datatype WireTransition = WireTransition(kind: string, amount: string, lockId: string, hash: string, expiry: int, preimage: string)

  function Optional32(b: Bytes32): string {
    if b == Zeros(32) then "" else Hex(b)
  }

  function ParseOptional32(s: string): Option<Bytes32> {
    if s == "" then Some(Zeros(32)) else ParseBytes32(s)
  }

  function EncodeTransition(t: Transition): WireTransition {
    WireTransition(t.kind, if t.amount != 0 then DecimalInt(t.amount) else "",
                   Optional32(t.lockId), Optional32(t.hash), t.expiry, Optional32(t.preimage))
  }

  function DecodeTransition(w: WireTransition): Result<Transition, Failure> {
    var amount := if w.amount != "" then ParseInt(w.amount) else Some(0);
    var lockId, hash, preimage := ParseOptional32(w.lockId), ParseOptional32(w.hash), ParseOptional32(w.preimage);
    if amount.None? then Err(NotDecimal)
    else if lockId.None? || hash.None? || preimage.None? then Err(NotHex)
    else Ok(Transition(w.kind, amount.value, lockId.value, hash.value, w.expiry, preimage.value))
  }

  lemma OptionalRoundTrip(b: Bytes32)
    ensures ParseOptional32(Optional32(b)) == Some(b)
  {
    hide ParseBytes32, Hex;
    ParseBytes32Hex(b);
  }

  /** Every transition survives the wire, absent fields included. */
  lemma TransitionRoundTrip(t: Transition)
    ensures DecodeTransition(EncodeTransition(t)) == Ok(t)
  {
    hide ParseOptional32, Optional32, ParseInt, DecimalInt;
    OptionalRoundTrip(t.lockId);
    OptionalRoundTrip(t.hash);
    OptionalRoundTrip(t.preimage);
    ParseDecimalInt(t.amount);
  }

  // ---- frames -------------------------------------------------------------------------------------

  const MAX_FRAME_BYTES: nat := 1048576
  const VERSION: int := 1

  datatype Envelope = Envelope(version: int, kind: string, channel: string, body: seq<Byte>)

  /** How an envelope is written as bytes; any lossless encoding will do. */
  datatype Codec = Codec(write: Envelope -> seq<Byte>, read: seq<Byte> -> Option<Envelope>)

  ghost predicate Lossless(c: Codec) {
    forall e :: c.read(c.write(e)) == Some(e)
  }

  function Versioned(e: Envelope): Envelope {
    if e.version == 0 then e.(version := VERSION) else e
  }

  function FrameOf(c: Codec, e: Envelope): Result<seq<Byte>, Failure> {
    var raw := c.write(Versioned(e));
    if |raw| > MAX_FRAME_BYTES then Err(FrameTooLarge) else Ok(BigEndian(|raw|, 4) + raw)
  }

  /** Reading one frame off the front: what it holds, and what is left to read. */
  function TakeFrame(c: Codec, data: seq<Byte>): (Result<Envelope, Failure>, seq<Byte>) {
    if |data| < 4 then (Err(UnexpectedEnd), [])
    else
      var size := Value(data[..4]);
      if size > MAX_FRAME_BYTES then (Err(FrameTooLarge), data[4..])
      else if |data| < 4 + size then (Err(UnexpectedEnd), [])
      else
        var e := c.read(data[4..4 + size]);
        (if e.None? then Err(Malformed) else if e.value.version != VERSION then Err(BadVersion) else Ok(e.value),
         data[4 + size..])
  }

  class Stream {
    var data: seq<Byte>

    constructor ()
      ensures data == []
    {
      data := [];
    }

    method WriteFrame(c: Codec, e: Envelope) returns (r: Option<Failure>)
      modifies this
      ensures r.None? <==> FrameOf(c, e).Ok?
      ensures r.None? <==> |c.write(if e.version == 0 then e.(version := 1) else e)| <= 1048576
      ensures data == if FrameOf(c, e).Ok? then old(data) + FrameOf(c, e).value else old(data)
    {
      hide BigEndian;
      var msg := if e.version == 0 then e.(version := VERSION) else e;
      var raw := c.write(msg);
      if |raw| > MAX_FRAME_BYTES {
        return Some(FrameTooLarge);
      }
      data := data + BigEndian(|raw|, 4);
      data := data + raw;
      assert data == old(data) + (BigEndian(|raw|, 4) + raw);
      return None;
    }

    method ReadFrame(c: Codec) returns (r: Result<Envelope, Failure>)
      modifies this
      ensures (r, data) == TakeFrame(c, old(data))
    {
      hide Value;
      if |data| < 4 {
        data := [];
        return Err(UnexpectedEnd);
      }
      var size := Value(data[..4]);
      data := data[4..];
      if size > MAX_FRAME_BYTES {
        return Err(FrameTooLarge);
      }
      if |data| < size {
        data := [];
        return Err(UnexpectedEnd);
      }
      var raw := data[..size];
      assert raw == old(data)[4..4 + size] && data[size..] == old(data)[4 + size..];
      data := data[size..];
      var msg := c.read(raw);
      if msg.None? {
        return Err(Malformed);
      }
      if msg.value.version != VERSION {
        return Err(BadVersion);
      }
      return Ok(msg.value);
    }
  }

  lemma HeaderReadsBack(n: nat)
    requires n <= MAX_FRAME_BYTES
    ensures Value(BigEndian(n, 4)) == n
  {
    ValueOfBigEndian(n, 4);
    assert Pow256(4) == 0x1_0000_0000;
  }

  /** A frame is read back as its message, and reading it takes exactly its bytes. */
  lemma FrameReadsBack(c: Codec, e: Envelope, rest: seq<Byte>)
    requires Lossless(c) && FrameOf(c, e).Ok?
    ensures TakeFrame(c, FrameOf(c, e).value + rest)
            == (if Versioned(e).version == VERSION then Ok(Versioned(e)) else Err(BadVersion), rest)
  {
    hide BigEndian, Value;
    var raw := c.write(Versioned(e));
    var data := FrameOf(c, e).value + rest;
    HeaderReadsBack(|raw|);
    assert data[..4] == BigEndian(|raw|, 4);
    assert data[4..4 + |raw|] == raw;
    assert data[4 + |raw|..] == rest;
    assert c.read(raw) == Some(Versioned(e));
  }

  function Frames(c: Codec, es: seq<Envelope>): seq<Byte>
    requires forall i :: 0 <= i < |es| ==> FrameOf(c, es[i]).Ok?
  {
    if es == [] then [] else FrameOf(c, es[0]).value + Frames(c, es[1..])
  }

  /** Reads `n` messages off the front, or None when one of them fails. */
  function TakeMany(c: Codec, data: seq<Byte>, n: nat): (Option<seq<Envelope>>, seq<Byte>)
    decreases n
  {
    if n == 0 then (Some([]), data)
    else
      var (e, rest) := TakeFrame(c, data);
      var (es, left) := TakeMany(c, rest, n - 1);
      (if e.Err? || es.None? then None else Some([e.value] + es.value), left)
  }

  function AllVersioned(es: seq<Envelope>): (r: seq<Envelope>)
    ensures |r| == |es|
  {
    seq(|es|, i requires 0 <= i < |es| => Versioned(es[i]))
  }

  /** Any sequence of written messages is read back in order, and reading it consumes
      exactly the bytes written. */
  lemma {:induction false} FramesReadBack(c: Codec, es: seq<Envelope>, rest: seq<Byte>)
    requires Lossless(c)
    requires forall i :: 0 <= i < |es| ==> FrameOf(c, es[i]).Ok? && Versioned(es[i]).version == VERSION
    ensures TakeMany(c, Frames(c, es) + rest, |es|) == (Some(AllVersioned(es)), rest)
  {
    hide FrameOf, TakeFrame, Versioned;
    if es == [] {
      assert Frames(c, es) + rest == rest;
    } else {
      assert Frames(c, es) + rest == FrameOf(c, es[0]).value + (Frames(c, es[1..]) + rest);
      FrameReadsBack(c, es[0], Frames(c, es[1..]) + rest);
      FramesReadBack(c, es[1..], rest);
      assert AllVersioned(es) == [Versioned(es[0])] + AllVersioned(es[1..]);
    }
  }

  /** A frame cut short anywhere is never taken for a message. */
  lemma TruncatedFrameIsRefused(c: Codec, e: Envelope, k: nat)
    requires FrameOf(c, e).Ok? && k < |FrameOf(c, e).value|
    ensures TakeFrame(c, FrameOf(c, e).value[..k]) == (Err(UnexpectedEnd), [])
  {
    hide BigEndian, Value;
    var raw := c.write(Versioned(e));
    var cut := FrameOf(c, e).value[..k];
    HeaderReadsBack(|raw|);
    if k >= 4 {
      assert cut[..4] == BigEndian(|raw|, 4);
    }
  }
}
