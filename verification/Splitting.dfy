/** Dividing a payment over independent routes, in 64-bit arithmetic. */
module Splitting {
  import opened Common
  import M = MultipathPayment

  const MIN_FRAGMENT: int := 1000
  const MAX_FRAGMENTS: nat := 4
  const MAX_HOPS: nat := 3
  const TWO63: int := 0x8000_0000_0000_0000
  const TWO64: int := 0x1_0000_0000_0000_0000

  /** What an int64 holds after an operation whose exact result is `n`. */
  function Wrap(n: int): (w: int)
    ensures -TWO63 <= w < TWO63
  {
    (n + TWO63) % TWO64 - TWO63
  }

  predicate Fits64(n: int) {
    -TWO63 <= n < TWO63
  }

  lemma WrapFits(n: int)
    requires Fits64(n)
    ensures Wrap(n) == n
  {
  }

  /** Go divides toward zero. */
  function Quotient(a: int, b: int): int
    requires b > 0
  {
    if a >= 0 then a / b else -(-a / b)
  }

  /** What is left has the sign of what was divided, and is smaller than the divisor. */
  lemma QuotientTruncates(a: int, b: int)
    requires b > 0
    ensures a >= 0 ==> 0 <= a - b * Quotient(a, b) < b
    ensures a < 0 ==> -b < a - b * Quotient(a, b) <= 0
  {
    if a < 0 {
      DivBounds(-a, b);
      assert b * -(-a / b) == -(b * (-a / b));
    } else {
      DivBounds(a, b);
    }
  }

  function Sum(s: seq<int>): int {
    M.Sum(s)
  }

  lemma SumAppend(s: seq<int>, x: int)
    ensures Sum(s + [x]) == Sum(s) + x
  {
    assert (s + [x])[..|s|] == s;
  }

  lemma {:induction false} SumUpdate(s: seq<int>, i: nat, x: int)
    requires i < |s|
    ensures Sum(s[i := x]) == Sum(s) - s[i] + x
  {
    var n := |s| - 1;
    if i < n {
      SumUpdate(s[..n], i, x);
      assert s[i := x][..n] == s[..n][i := x];
    } else {
      assert s[i := x][..n] == s[..n];
    }
  }

  lemma {:induction false} SumAtLeast(s: seq<int>, low: int)
    requires forall i :: 0 <= i < |s| ==> s[i] >= low
    ensures Sum(s) >= low * |s|
  {
    if s != [] {
      SumAtLeast(s[..|s| - 1], low);
    }
  }

  // ---- the shares -------------------------------------------------------------------------------

  /** One fragment's share of what is left above the floors, as int64 computes it. */
  function Share(spare: int, weight: int, sum: int): int
    requires sum > 0
  {
    Quotient(Wrap(spare * weight), sum)
  }

  ghost predicate Weights(w: seq<int>) {
    |w| >= 2 && forall i :: 0 <= i < |w| ==> 1 <= w[i] <= 1000
  }

  function ExactShare(spare: int, weight: int, sum: int): int
    requires sum > 0
  {
    spare * weight / sum
  }

  lemma ProductFits(spare: int, weight: int)
    requires 0 <= spare && spare * 1000 < TWO63 && 1 <= weight <= 1000
    ensures 0 <= spare * weight < TWO63
  {
    ScaleUp(spare, weight, 1000);
  }

  lemma ScaleUp(a: int, b: int, c: int)
    requires a >= 0 && 0 <= b <= c
    ensures 0 <= a * b <= a * c
  {
    assert a * c == a * b + a * (c - b);
  }

  lemma MulMono(a: int, b: int, c: int)
    requires a >= 0 && b <= c
    ensures a * b <= a * c
  {
    assert a * c == a * b + a * (c - b);
  }

  lemma ShareExact(spare: int, weight: int, sum: int)
    requires 0 <= spare && spare * 1000 < TWO63 && 1 <= weight <= 1000 && sum > 0
    ensures Share(spare, weight, sum) == ExactShare(spare, weight, sum) >= 0
  {
    ProductFits(spare, weight);
    WrapFits(spare * weight);
  }

  ghost function Shares(spare: int, w: seq<int>, sum: int, k: nat): int
    requires sum > 0 && k <= |w|
  {
    if k == 0 then 0 else Shares(spare, w, sum, k - 1) + ExactShare(spare, w[k - 1], sum)
  }

  lemma DivBounds(a: int, d: int)
    requires d > 0
    ensures d * (a / d) <= a < d * (a / d) + d
  {
    assert a == d * (a / d) + a % d;
  }

  /** Each division loses less than one unit, so all of them together lose fewer units
      than there are fragments. */
  lemma {:induction false} SharesClose(spare: int, w: seq<int>, sum: int, k: nat)
    requires sum > 0 && k <= |w| && spare >= 0 && forall i :: 0 <= i < |w| ==> w[i] >= 1
    ensures sum * Shares(spare, w, sum, k) <= spare * Sum(w[..k]) <= sum * Shares(spare, w, sum, k) + k * (sum - 1)
  {
    if k > 0 {
      SharesClose(spare, w, sum, k - 1);
      assert w[..k][..k - 1] == w[..k - 1];
      ShareStep(spare, sum, Shares(spare, w, sum, k - 1), Sum(w[..k - 1]), w[k - 1], k - 1);
    }
  }

  lemma ShareStep(spare: int, sum: int, shares: int, weight: int, next: int, k: nat)
    requires sum > 0 && sum * shares <= spare * weight <= sum * shares + k * (sum - 1)
    ensures var s := ExactShare(spare, next, sum);
            sum * (shares + s) <= spare * (weight + next) <= sum * (shares + s) + (k + 1) * (sum - 1)
  {
    var s := ExactShare(spare, next, sum);
    DivBounds(spare * next, sum);
    Distribute(spare, weight, next);
    Distribute(sum, shares, s);
    Distribute(sum - 1, k, 1);
  }

  lemma Distribute(a: int, b: int, c: int)
    ensures a * (b + c) == a * b + a * c
  {
  }

  /** The rounding remainder is never negative and smaller than the number of fragments. */
  lemma RemainderSmall(spare: int, w: seq<int>)
    requires spare >= 0 && Weights(w) && Sum(w) > 0
    ensures 0 <= spare - Shares(spare, w, Sum(w), |w|) < |w|
  {
    var sum, n := Sum(w), |w|;
    SharesClose(spare, w, sum, n);
    assert w[..n] == w;
    var left := spare - Shares(spare, w, sum, n);
    assert sum * left == sum * spare - sum * Shares(spare, w, sum, n);
    assert spare * sum == sum * spare;
    CancelFactor(sum, left, n);
  }

  lemma CancelFactor(sum: int, left: int, n: nat)
    requires sum > 0 && 0 <= sum * left <= n * (sum - 1) && n > 0
    ensures 0 <= left < n
  {
    assert n * (sum - 1) == sum * n - n;
    if left < 0 {
      MulMono(sum, left, -1);
    } else if left >= n {
      MulMono(sum, n, left);
    }
  }

  // ---- the split -----------------------------------------------------------------------------------

  datatype Failure = TooSmall | NotEnoughRoutes | BadSum | TooManyLocks

  /** Every fragment is at least the floor, and together they are exactly the total. */
  ghost predicate SplitRight(total: int, n: nat, out: seq<int>) {
    |out| == n && Sum(out) == total && forall i :: 0 <= i < n ==> out[i] >= MIN_FRAGMENT
  }

  /** Index of the first of the largest among the first `k`. */
  function LargestOf(out: seq<int>, k: nat): (l: nat)
    requires 0 < k <= |out|
    ensures l < k && forall i :: 0 <= i < k ==> out[i] <= out[l]
  {
    if k == 1 then 0
    else
      var l := LargestOf(out, k - 1);
      if out[k - 1] > out[l] then k - 1 else l
  }

  /** The running sum an int64 accumulator holds. */
  function Total64(s: seq<int>): int {
    if s == [] then 0 else Wrap(Total64(s[..|s| - 1]) + s[|s| - 1])
  }

  function Parts(spare: int, w: seq<int>, sum: int): (p: seq<int>)
    requires sum > 0
    ensures |p| == |w|
  {
    seq(|w|, i requires 0 <= i < |w| => Wrap(MIN_FRAGMENT + Share(spare, w[i], sum)))
  }

  /** The fragments that the weights `w` divide `total` into. */
  function SplitBy(total: int, w: seq<int>): (out: seq<int>)
    requires |w| > 0 && Sum(w) > 0
    ensures |out| == |w|
  {
    var parts := Parts(total - MIN_FRAGMENT * |w|, w, Sum(w));
    var remainder := Wrap(total - Total64(parts));
    if remainder == 0 then parts
    else
      var l := LargestOf(parts, |parts|);
      parts[l := Wrap(parts[l] + remainder)]
  }

  function WeightsOf(draws: seq<nat>, n: nat): (w: seq<int>)
    requires n <= |draws|
    ensures |w| == n
  {
    seq(n, i requires 0 <= i < n => draws[i] + 1)
  }

  lemma WeightsSum(draws: seq<nat>, n: nat)
    requires 2 <= n <= |draws| && forall i :: 0 <= i < |draws| ==> draws[i] < 1000
    ensures Weights(WeightsOf(draws, n)) && Sum(WeightsOf(draws, n)) > 0
  {
    SumAtLeast(WeightsOf(draws, n), 1);
  }

  /** Splits by random weights, each drawn from 0 to 999 and raised by one. */
  method UnevenSplit(total: int, n: nat, draws: seq<nat>) returns (r: Result<seq<int>, Failure>)
    requires Fits64(total) && n <= |draws|
    requires forall i :: 0 <= i < |draws| ==> draws[i] < 1000
    ensures r.Err? <==> n < 2 || MIN_FRAGMENT * n > total
    ensures r.Err? ==> r.error == TooSmall
    ensures n >= 2 ==> Sum(WeightsOf(draws, n)) > 0 && (r.Ok? ==> r.value == SplitBy(total, WeightsOf(draws, n)))
  {
    hide Share, Wrap, Sum, Parts, Total64, LargestOf, WeightsOf;
    if n < 2 {
      return Err(TooSmall);
    }
    WeightsSum(draws, n);
    var reserved := MIN_FRAGMENT * n;
    if reserved > total {
      return Err(TooSmall);
    }
    var spare := total - reserved;
    var weights: seq<int> := [];
    var sum := 0;
    SumNone();
    NoWeights(draws);
    for i := 0 to n
      invariant weights == WeightsOf(draws, i) && sum == Sum(weights)
    {
      WeightsMore(draws, i);
      SumAppend(weights, draws[i] + 1);
      weights := weights + [draws[i] + 1];
      sum := sum + (draws[i] + 1);
    }
    ghost var parts := Parts(spare, weights, sum);
    var out: seq<int> := [];
    var handedOut := 0;
    Total64None();
    for i := 0 to n
      invariant |out| == i && out == parts[..i] && handedOut == Total64(out)
    {
      var part := Wrap(MIN_FRAGMENT + Share(spare, weights[i], sum));
      PartIs(spare, weights, sum, i);
      Total64More(out, part);
      out := out + [part];
      handedOut := Wrap(handedOut + part);
    }
    assert out == parts;
    var remainder := Wrap(total - handedOut);
    if remainder != 0 {
      var largest := 0;
      for i := 0 to n
        invariant largest < n && largest == if i == 0 then 0 else LargestOf(out, i)
      {
        LargestMore(out, i);
        if out[i] > out[largest] {
          largest := i;
        }
      }
      out := out[largest := Wrap(out[largest] + remainder)];
    }
    return Ok(out);
  }

  lemma NoWeights(draws: seq<nat>)
    ensures WeightsOf(draws, 0) == []
  {
  }

  lemma WeightsMore(draws: seq<nat>, i: nat)
    requires i < |draws|
    ensures WeightsOf(draws, i + 1) == WeightsOf(draws, i) + [draws[i] + 1]
  {
  }

  lemma PartIs(spare: int, w: seq<int>, sum: int, i: nat)
    requires sum > 0 && i < |w|
    ensures Parts(spare, w, sum)[i] == Wrap(MIN_FRAGMENT + Share(spare, w[i], sum))
  {
    hide Wrap, Share;
  }

  lemma Total64None()
    ensures Total64([]) == 0
  {
  }

  lemma Total64More(s: seq<int>, x: int)
    ensures Total64(s + [x]) == Wrap(Total64(s) + x)
  {
    hide Wrap;
    assert (s + [x])[..|s|] == s;
  }

  lemma LargestMore(out: seq<int>, k: nat)
    requires k < |out|
    ensures LargestOf(out, k + 1)
            == if k == 0 then 0 else if out[k] > out[LargestOf(out, k)] then k else LargestOf(out, k)
  {
  }

  lemma SumNone()
    ensures Sum([]) == 0
  {
  }

  // ---- when the split is right ----------------------------------------------------------------------

  lemma {:induction false} SharesGrow(spare: int, w: seq<int>, sum: int, j: nat, k: nat)
    requires sum > 0 && spare >= 0 && j <= k <= |w| && forall i :: 0 <= i < |w| ==> w[i] >= 1
    ensures 0 <= Shares(spare, w, sum, j) <= Shares(spare, w, sum, k)
    decreases k
  {
    if j < k {
      SharesGrow(spare, w, sum, j, k - 1);
      ShareSign(spare, w[k - 1], sum);
    } else if k > 0 {
      SharesGrow(spare, w, sum, k - 1, k - 1);
      ShareSign(spare, w[k - 1], sum);
    }
  }

  lemma ShareSign(spare: int, weight: int, sum: int)
    requires spare >= 0 && weight >= 1 && sum > 0
    ensures ExactShare(spare, weight, sum) >= 0
  {
    ScaleUp(spare, 1, weight);
  }

  lemma PartExact(spare: int, w: seq<int>, i: nat)
    requires Weights(w) && Sum(w) > 0 && 0 <= spare && spare * 1000 < TWO63 && i < |w|
    requires MIN_FRAGMENT * |w| + spare < TWO63
    ensures Parts(spare, w, Sum(w))[i] == MIN_FRAGMENT + ExactShare(spare, w[i], Sum(w)) >= MIN_FRAGMENT
  {
    hide Share, ExactShare, Sum;
    var sum := Sum(w);
    ShareExact(spare, w[i], sum);
    ShareBelow(spare, w, i);
    WrapFits(MIN_FRAGMENT + ExactShare(spare, w[i], sum));
  }

  lemma ShareBelow(spare: int, w: seq<int>, i: nat)
    requires Weights(w) && Sum(w) > 0 && 0 <= spare && i < |w|
    ensures ExactShare(spare, w[i], Sum(w)) <= spare
  {
    hide ExactShare, Sum;
    SharesGrow(spare, w, Sum(w), i + 1, |w|);
    SharesGrow(spare, w, Sum(w), i, i);
    RemainderSmall(spare, w);
  }

  lemma {:induction false} PartsTotal(spare: int, w: seq<int>, k: nat)
    requires Weights(w) && Sum(w) > 0 && 0 <= spare && spare * 1000 < TWO63 && k <= |w|
    requires MIN_FRAGMENT * |w| + spare < TWO63
    ensures var p := Parts(spare, w, Sum(w))[..k];
            Total64(p) == Sum(p) == MIN_FRAGMENT * k + Shares(spare, w, Sum(w), k)
  {
    hide Share, ExactShare, Parts, Wrap;
    var parts := Parts(spare, w, Sum(w));
    if k > 0 {
      PartsTotal(spare, w, k - 1);
      PartExact(spare, w, k - 1);
      assert parts[..k][..k - 1] == parts[..k - 1];
      SharesGrow(spare, w, Sum(w), k, |w|);
      RemainderSmall(spare, w);
      WrapFits(MIN_FRAGMENT * k + Shares(spare, w, Sum(w), k));
    }
  }

  /** When a thousand times the part above the floors fits in an int64, the split is right
      for every draw of the weights. */
  lemma SplitIsRight(total: int, w: seq<int>)
    requires Weights(w) && Sum(w) > 0 && Fits64(total) && MIN_FRAGMENT * |w| <= total
    requires (total - MIN_FRAGMENT * |w|) * 1000 < TWO63
    ensures SplitRight(total, |w|, SplitBy(total, w))
  {
    hide Share, ExactShare, Parts, Wrap, Total64, Sum, Shares;
    var n := |w|;
    var spare := total - MIN_FRAGMENT * n;
    var parts := Parts(spare, w, Sum(w));
    PartsTotal(spare, w, n);
    assert parts[..n] == parts;
    RemainderSmall(spare, w);
    var remainder := total - Total64(parts);
    WrapFits(remainder);
    forall i | 0 <= i < n ensures MIN_FRAGMENT <= parts[i] <= total - remainder {
      PartExact(spare, w, i);
      SharesGrow(spare, w, Sum(w), n, n);
      PartWithin(spare, w, i);
    }
    var l := LargestOf(parts, n);
    WrapFits(parts[l] + remainder);
    SumUpdate(parts, l, parts[l] + remainder);
  }

  lemma PartWithin(spare: int, w: seq<int>, i: nat)
    requires Weights(w) && Sum(w) > 0 && spare >= 0 && i < |w|
    ensures MIN_FRAGMENT + ExactShare(spare, w[i], Sum(w)) <= MIN_FRAGMENT * |w| + Shares(spare, w, Sum(w), |w|)
  {
    hide ExactShare, Sum;
    SharesGrow(spare, w, Sum(w), i + 1, |w|);
    SharesGrow(spare, w, Sum(w), i, i);
  }

  /** The smallest weight whose product with `spare` no longer fits. */
  function TippingWeight(spare: int): int
    requires spare > 0
  {
    (TWO63 + spare - 1) / spare
  }

  lemma TippingProduct(spare: int)
    requires 0 < spare < TWO63 - 2000 && spare * 1000 >= TWO63
    ensures var w := TippingWeight(spare); 2 <= w <= 1000 && TWO63 <= spare * w <= TWO64 - 2000
  {
    var w := TippingWeight(spare);
    DivBounds(TWO63 + spare - 1, spare);
    assert spare * w == spare * (w - 1) + spare;
    if w > 1000 {
      ScaleUp(spare, 1000, w - 1);
      assert false;
    }
    if w < 2 {
      MulMono(spare, w, 1);
      assert false;
    }
    if w >= 3 {
      ScaleUp(spare, 2, w - 1);
    }
  }

  function OnesAfter(first: int, n: nat): (w: seq<int>)
    requires n > 0
    ensures |w| == n
  {
    [first] + seq(n - 1, i => 1)
  }

  lemma {:induction false} OnesSum(first: int, n: nat)
    requires n > 0
    ensures Sum(OnesAfter(first, n)) == first + n - 1
  {
    if n == 1 {
      assert OnesAfter(first, 1) == [] + [first];
      SumAppend([], first);
    } else {
      OnesSum(first, n - 1);
      assert OnesAfter(first, n) == OnesAfter(first, n - 1) + [1];
      SumAppend(OnesAfter(first, n - 1), 1);
    }
  }

  lemma WrapHigh(n: int)
    requires TWO63 <= n < TWO64
    ensures Wrap(n) == n - TWO64
  {
  }

  lemma TippedShare(spare: int, n: nat)
    requires 2 <= n <= MAX_FRAGMENTS && 0 < spare < TWO63 - 1000 * n && spare * 1000 >= TWO63
    ensures var w := TippingWeight(spare);
            && Share(spare, w, w + n - 1) < 0
            && Wrap(MIN_FRAGMENT + Share(spare, w, w + n - 1)) < MIN_FRAGMENT
  {
    TippingProduct(spare);
    var w := TippingWeight(spare);
    var sum := w + n - 1;
    var wrapped := Wrap(spare * w);
    WrapHigh(spare * w);
    DivBounds(-wrapped, sum);
    assert sum <= 1003 && -wrapped >= 2000;
    var q := -wrapped / sum;
    if q <= 0 {
      MulMono(sum, q, 0);
      assert false;
    }
    if q > -wrapped {
      MulMono(q, 1, sum);
      assert false;
    }
  }

  /** As soon as it does not fit, some draw of the weights leaves a fragment below the
      floor: the smallest weight that tips the product over, and ones after it. */
  lemma SplitCanBeWrong(total: int, n: nat) returns (w: seq<int>)
    requires 2 <= n <= MAX_FRAGMENTS && Fits64(total) && MIN_FRAGMENT * n <= total
    requires (total - MIN_FRAGMENT * n) * 1000 >= TWO63
    ensures |w| == n && Weights(w) && Sum(w) > 0 && SplitBy(total, w)[0] < MIN_FRAGMENT
    ensures !SplitRight(total, n, SplitBy(total, w))
  {
    var spare := total - MIN_FRAGMENT * n;
    TippingProduct(spare);
    TippedShare(spare, n);
    var tip := TippingWeight(spare);
    w := OnesAfter(tip, n);
    OnesSum(tip, n);
    hide Share, Sum, TippingWeight, Total64;
    var parts := Parts(spare, w, Sum(w));
    assert parts[0] == Wrap(MIN_FRAGMENT + Share(spare, tip, tip + n - 1));
    OneShare(spare, tip + n - 1);
    assert w[1] == 1;
    assert parts[1] >= MIN_FRAGMENT;
  }

  lemma OneShare(spare: int, sum: int)
    requires 0 <= spare < TWO63 - 2000 && sum > 0
    ensures Wrap(MIN_FRAGMENT + Share(spare, 1, sum)) >= MIN_FRAGMENT
  {
    WrapFits(spare);
    assert spare * 1 == spare;
    DivBounds(spare, sum);
    var q := spare / sum;
    if q < 0 {
      MulMono(sum, q, -1);
      assert false;
    }
    if q > spare {
      MulMono(q, 1, sum);
      assert false;
    }
    WrapFits(MIN_FRAGMENT + q);
  }
}
