/** The one hashing primitive of the engine and the identities derived with it. */
module Derivation {
  import opened Bytes

  /** A keyed hash: the domain is the key, the absorbed message the input. */
  type Mac = (seq<Byte>, seq<Byte>) -> Bytes32

  // ---- the message `derive` feeds to its MAC ----------------------------------

  /** Every part behind its own 8-byte big-endian length. */
  function Message(parts: seq<seq<Byte>>): seq<Byte> {
    if parts == [] then [] else BigEndian(|parts[0]|, 8) + parts[0] + Message(parts[1..])
  }

  lemma {:induction false} MessageAppend(parts: seq<seq<Byte>>, p: seq<Byte>)
    ensures Message(parts + [p]) == Message(parts) + (BigEndian(|p|, 8) + p)
  {
    if parts == [] {
      assert (parts + [p])[1..] == [];
    } else {
      MessageAppend(parts[1..], p);
      assert (parts + [p])[1..] == parts[1..] + [p];
    }
  }

  /** Absorbs the parts one after another, as the MAC is written to. */
  method Derive(mac: Mac, domain: seq<Byte>, parts: seq<seq<Byte>>) returns (out: Bytes32)
    ensures out == mac(domain, Message(parts))
  {
    var written := [];
    for i := 0 to |parts|
      invariant written == Message(parts[..i])
    {
      MessageAppend(parts[..i], parts[i]);
      assert parts[..i] + [parts[i]] == parts[..i + 1];
      written := written + (BigEndian(|parts[i]|, 8) + parts[i]);
    }
    assert parts[..|parts|] == parts;
    return mac(domain, written);
  }

  /** Go cannot hold a byte slice whose length does not fit in 8 bytes. */
  ghost predicate Sized(parts: seq<seq<Byte>>) {
    forall i :: 0 <= i < |parts| ==> |parts[i]| < Pow256(8)
  }

  /** No two lists of parts feed the MAC the same bytes. */
  lemma {:induction false} MessageInjective(p: seq<seq<Byte>>, q: seq<seq<Byte>>)
    requires Sized(p) && Sized(q)
    requires Message(p) == Message(q)
    ensures p == q
  {
    if p == [] || q == [] {
      assert p == [] && q == [];
    } else {
      var m := Message(p);
      assert m[..8] == BigEndian(|p[0]|, 8) && m[..8] == BigEndian(|q[0]|, 8);
      BigEndianInjective(|p[0]|, |q[0]|, 8);
      var n := 8 + |p[0]|;
      assert m[8..n] == p[0] && m[8..n] == q[0];
      assert m[n..] == Message(p[1..]) && m[n..] == Message(q[1..]);
      MessageInjective(p[1..], q[1..]);
      assert p == [p[0]] + p[1..] && q == [q[0]] + q[1..];
    }
  }

  /** Two different inputs the keyed hash does not tell apart. */
  ghost predicate Collides(mac: Mac, k1: seq<Byte>, m1: seq<Byte>, k2: seq<Byte>, m2: seq<Byte>) {
    (k1, m1) != (k2, m2) && mac(k1, m1) == mac(k2, m2)
  }

  /** Equal derivations come from equal domains and equal parts, or exhibit a
      collision of the keyed hash itself: the encoding adds none. */
  lemma DeriveSeparates(mac: Mac, d1: seq<Byte>, p1: seq<seq<Byte>>, d2: seq<Byte>, p2: seq<seq<Byte>>)
    requires Sized(p1) && Sized(p2)
    requires mac(d1, Message(p1)) == mac(d2, Message(p2))
    ensures (d1 == d2 && p1 == p2) || Collides(mac, d1, Message(p1), d2, Message(p2))
  {
    if d1 == d2 && Message(p1) == Message(p2) {
      MessageInjective(p1, p2);
    }
  }

  // ---- the identity of one lock instance --------------------------------------

  /** Go's conversion of an int64 to uint64. */
  function Unsigned64(n: int): (u: nat)
    requires Int64(n)
  {
    if n >= 0 then n else n + 0x1_0000_0000_0000_0000
  }

  /** A lock offered on a channel, as the claim sweep reads it off the state. */
  datatype Instance = Instance(channel: Bytes32, id: Bytes32, hash: Bytes32, amount: int, expiry: int)

  /** The parts of the claim intent. A big integer contributes its magnitude only. */
  function ClaimParts(l: Instance): (parts: seq<seq<Byte>>)
    requires Int64(l.expiry)
    ensures |parts| == 5
  {
    [l.channel, l.id, l.hash, Minimal(Magnitude(l.amount)), BigEndian(Unsigned64(l.expiry), 32)]
  }

  function ClaimMessage(l: Instance): seq<Byte>
    requires Int64(l.expiry)
  {
    Message(ClaimParts(l))
  }

  /** The message, field by field: each of the 32-byte fields and the amount's own bytes behind
      its length, channel, id and hash first and the expiry last. */
  lemma ClaimMessageLayout(l: Instance)
    requires Int64(l.expiry)
    ensures var word, amount := BigEndian(32, 8), Minimal(Magnitude(l.amount));
            var expiry := BigEndian(if l.expiry >= 0 then l.expiry else l.expiry + 0x1_0000_0000_0000_0000, 32);
            ClaimMessage(l) == word + l.channel + (word + l.id + (word + l.hash
                               + (BigEndian(|amount|, 8) + amount + (word + expiry))))
  {
    hide BigEndian, Minimal;
    var p := ClaimParts(l);
    var t1, t2, t3, t4: seq<seq<Byte>> := [l.id, l.hash, p[3], p[4]], [l.hash, p[3], p[4]], [p[3], p[4]], [p[4]];
    assert p[1..] == t1 && t1[1..] == t2 && t2[1..] == t3 && t3[1..] == t4 && t4[1..] == [];
    var m4 := BigEndian(32, 8) + p[4];
    assert Message(t4) == m4 + [] == m4;
    var m3 := BigEndian(|p[3]|, 8) + p[3] + m4;
    var m2 := BigEndian(32, 8) + l.hash + m3;
    var m1 := BigEndian(32, 8) + l.id + m2;
    assert Message(t3) == m3 && Message(t2) == m2 && Message(t1) == m1;
  }

  ghost predicate SameInstance(a: Instance, b: Instance) {
    && a.channel == b.channel && a.id == b.id && a.hash == b.hash
    && Magnitude(a.amount) == Magnitude(b.amount) && a.expiry == b.expiry
  }

  /** Two lock instances feed the MAC the same bytes exactly when they agree on
      the channel, id, hash, expiry and size of the amount. */
  lemma ClaimMessageIdentifies(a: Instance, b: Instance)
    requires Int64(a.expiry) && Int64(b.expiry)
    requires Sized(ClaimParts(a)) && Sized(ClaimParts(b))
    ensures ClaimMessage(a) == ClaimMessage(b) <==> SameInstance(a, b)
  {
    if ClaimMessage(a) == ClaimMessage(b) {
      MessageInjective(ClaimParts(a), ClaimParts(b));
      var p, q := ClaimParts(a), ClaimParts(b);
      assert p[0] == q[0] && p[1] == q[1] && p[2] == q[2] && p[3] == q[3] && p[4] == q[4];
      MinimalInjective(Magnitude(a.amount), Magnitude(b.amount));
      Pow256Monotone(8, 32);
      assert Pow256(8) == 0x1_0000_0000_0000_0000;
      BigEndianInjective(Unsigned64(a.expiry), Unsigned64(b.expiry), 32);
    }
  }

  /** Two instances that differ in any field get different claim intents, unless
      their two messages are a collision of the MAC; the amounts of live locks are
      positive, so their size is all of them. */
  lemma ClaimIntentsDiffer(mac: Mac, domain: seq<Byte>, a: Instance, b: Instance)
    requires Int64(a.expiry) && Int64(b.expiry)
    requires Sized(ClaimParts(a)) && Sized(ClaimParts(b))
    requires a.amount > 0 && b.amount > 0 && a != b
    ensures mac(domain, ClaimMessage(a)) != mac(domain, ClaimMessage(b))
            || Collides(mac, domain, ClaimMessage(a), domain, ClaimMessage(b))
  {
    ClaimMessageIdentifies(a, b);
  }
}
