/** Byte strings, the big-endian numbers written into them, and the
    length-prefixed message that every derivation in the channel engine hashes. */
module Bytes {

  type Byte = b: int | 0 <= b < 256

  type Bytes32 = s: seq<Byte> | |s| == 32 witness Zeros(32)

  /** What the bytes of a big integer hold: its size without its sign. */
  function Magnitude(n: int): nat {
    if n < 0 then -n else n
  }

  /** The value fits in a signed 64-bit word. */
  ghost predicate Int64(n: int) {
    -0x8000_0000_0000_0000 <= n < 0x8000_0000_0000_0000
  }

  function Pow256(k: nat): (p: nat)
    ensures p >= 1
  {
    if k == 0 then 1 else 256 * Pow256(k - 1)
  }

  /** The number a big-endian byte string denotes. */
  function Value(s: seq<Byte>): nat {
    if s == [] then 0 else 256 * Value(s[..|s| - 1]) + s[|s| - 1]
  }

  /** The low `k` bytes of `n`, most significant first: what copying the tail of
      a longer byte string into a fixed-width field leaves there. */
  function BigEndian(n: nat, k: nat): (s: seq<Byte>)
    ensures |s| == k
  {
    if k == 0 then [] else BigEndian(n / 256, k - 1) + [n % 256]
  }

  /** The shortest big-endian string for `n`, empty for zero. */
  function Minimal(n: nat): seq<Byte> {
    if n == 0 then [] else Minimal(n / 256) + [n % 256]
  }

  /** `k` zero bytes. */
  function Zeros(k: nat): (s: seq<Byte>)
    ensures |s| == k
    ensures forall i :: 0 <= i < k ==> s[i] == 0
  {
    seq(k, i => 0)
  }

  lemma {:induction false} ModPow256(n: nat, k: nat)
    requires k > 0
    ensures n % Pow256(k) == 256 * ((n / 256) % Pow256(k - 1)) + n % 256
  {
    var p := Pow256(k - 1);
    var q, r := (n / 256) / p, (n / 256) % p;
    assert n / 256 == p * q + r;
    assert n == 256 * (n / 256) + n % 256;
    assert n == (256 * p) * q + (256 * r + n % 256) by {
      assert 256 * (p * q) == (256 * p) * q;
    }
    assert 0 <= 256 * r + n % 256 < 256 * p;
    DivModUnique(n, 256 * p, q, 256 * r + n % 256);
  }

  lemma {:induction false} AtLeastOnce(d: int, x: int)
    requires d > 0 && x >= 1
    ensures d * x >= d
    decreases x
  {
    if x > 1 {
      AtLeastOnce(d, x - 1);
      assert d * x == d * (x - 1) + d;
    }
  }

  lemma MultipleApart(d: int, x: int)
    requires d > 0 && x != 0
    ensures d * x >= d || d * x <= -d
  {
    if x > 0 {
      AtLeastOnce(d, x);
    } else {
      AtLeastOnce(d, -x);
      assert d * -x == -(d * x);
    }
  }

  lemma DivModUnique(n: int, d: int, q: int, r: int)
    requires d > 0 && 0 <= r < d && n == d * q + r
    ensures n / d == q && n % d == r
  {
    var q', r' := n / d, n % d;
    assert n == d * q' + r';
    assert d * (q - q') == d * q - d * q';
    if q != q' {
      MultipleApart(d, q - q');
    }
  }

  /** Writing a number into `k` bytes and reading it back reduces it modulo 256^k. */
  lemma {:induction false} ValueOfBigEndian(n: nat, k: nat)
    ensures Value(BigEndian(n, k)) == n % Pow256(k)
  {
    if k > 0 {
      ValueOfBigEndian(n / 256, k - 1);
      var s := BigEndian(n, k);
      assert s[..|s| - 1] == BigEndian(n / 256, k - 1);
      ModPow256(n, k);
    }
  }

  lemma {:induction false} ValueOfMinimal(n: nat)
    ensures Value(Minimal(n)) == n
  {
    if n > 0 {
      ValueOfMinimal(n / 256);
      var s := Minimal(n);
      assert s[..|s| - 1] == Minimal(n / 256);
    }
  }

  lemma BigEndianInjective(a: nat, b: nat, k: nat)
    requires a < Pow256(k) && b < Pow256(k)
    requires BigEndian(a, k) == BigEndian(b, k)
    ensures a == b
  {
    ValueOfBigEndian(a, k);
    ValueOfBigEndian(b, k);
    DivModUnique(a, Pow256(k), 0, a);
    DivModUnique(b, Pow256(k), 0, b);
  }

  lemma MinimalInjective(a: nat, b: nat)
    requires Minimal(a) == Minimal(b)
    ensures a == b
  {
    ValueOfMinimal(a);
    ValueOfMinimal(b);
  }

  lemma {:induction false} ValueBound(s: seq<Byte>)
    ensures Value(s) < Pow256(|s|)
  {
    if s != [] {
      ValueBound(s[..|s| - 1]);
    }
  }

  lemma {:induction false} Pow256Monotone(a: nat, b: nat)
    requires a <= b
    ensures Pow256(a) <= Pow256(b)
  {
    if a < b {
      Pow256Monotone(a, b - 1);
    }
  }
}
