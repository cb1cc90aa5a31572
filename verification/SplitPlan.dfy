/** A payment divided over routes that share no operator, and the settlement legs made
    of it. */
module SplitPlan {
  import opened Common
  import opened Bytes
  import opened Symbols
  import opened RouteSelection
  import opened Splitting
  import M = MultipathPayment

  datatype Fragment = Fragment(amount: int, route: seq<Candidate>)

  datatype Plan = Plan(total: int, fragments: seq<Fragment>)

  function OperatorList(route: seq<Candidate>): (ops: seq<string>)
    ensures |ops| == |route|
  {
    seq(|route|, i requires 0 <= i < |route| => route[i].operator)
  }

  /** Every hop's operator, fragment after fragment. */
  function AllOperators(fs: seq<Fragment>): seq<string> {
    if fs == [] then [] else AllOperators(fs[..|fs| - 1]) + OperatorList(fs[|fs| - 1].route)
  }

  function Amounts(fs: seq<Fragment>): (a: seq<int>)
    ensures |a| == |fs|
  {
    seq(|fs|, i requires 0 <= i < |fs| => fs[i].amount)
  }

  /** What Verify demands: two fragments or more, none below the floor, no operator twice
      anywhere, and amounts that add up. */
  ghost predicate Verified(p: Plan) {
    && |p.fragments| >= 2
    && (forall i :: 0 <= i < |p.fragments| ==> p.fragments[i].amount >= MIN_FRAGMENT)
    && Distinct(AllOperators(p.fragments))
    && Total64(Amounts(p.fragments)) == p.total
  }

  lemma DistinctAppend(s: seq<string>, x: string)
    ensures Distinct(s + [x]) <==> Distinct(s) && x !in s
  {
    var t := s + [x];
    if Distinct(t) {
      forall i, j | 0 <= i < j < |s| ensures s[i] != s[j] {
        assert t[i] == s[i] && t[j] == s[j];
      }
      forall i | 0 <= i < |s| ensures s[i] != x {
        assert t[i] == s[i] && t[|s|] == x;
      }
    }
  }

  lemma DistinctPrefix(s: seq<string>, t: seq<string>)
    requires Distinct(s + t)
    ensures Distinct(s)
  {
    forall i, j | 0 <= i < j < |s| ensures s[i] != s[j] {
      assert (s + t)[i] == s[i] && (s + t)[j] == s[j];
    }
  }

  lemma {:induction false} OperatorsPrefix(fs: seq<Fragment>, k: nat)
    requires k <= |fs| && Distinct(AllOperators(fs))
    ensures Distinct(AllOperators(fs[..k]))
  {
    if k < |fs| {
      var n := |fs| - 1;
      DistinctPrefix(AllOperators(fs[..n]), OperatorList(fs[n].route));
      OperatorsPrefix(fs[..n], k);
      assert fs[..n][..k] == fs[..k];
    } else {
      assert fs[..k] == fs;
    }
  }

  method Verify(p: Plan) returns (r: Option<Failure>)
    ensures r.None? <==> Verified(p)
    ensures r == Some(BadSum) <==>
              |p.fragments| >= 2 && (forall i :: 0 <= i < |p.fragments| ==> p.fragments[i].amount >= MIN_FRAGMENT)
              && Distinct(AllOperators(p.fragments)) && Total64(Amounts(p.fragments)) != p.total
  {
    hide Distinct, Total64, Wrap;
    var fs := p.fragments;
    if |fs| < 2 {
      return Some(NotEnoughRoutes);
    }
    var sum := 0;
    var seen: set<string> := {};
    VerifyStart(fs);
    for i := 0 to |fs|
      invariant sum == Total64(Amounts(fs[..i]))
      invariant forall k :: 0 <= k < i ==> fs[k].amount >= MIN_FRAGMENT
      invariant Distinct(AllOperators(fs[..i]))
      invariant forall o :: o in seen <==> o in AllOperators(fs[..i])
    {
      if fs[i].amount < MIN_FRAGMENT {
        return Some(TooSmall);
      }
      AmountsMore(fs, i);
      OperatorsMore(fs, i);
      sum := Wrap(sum + fs[i].amount);
      ghost var before := AllOperators(fs[..i]);
      var ops := OperatorList(fs[i].route);
      assert before + ops[..0] == before;
      for h := 0 to |ops|
        invariant Distinct(before + ops[..h])
        invariant forall o :: o in seen <==> o in before + ops[..h]
      {
        assert before + ops[..h + 1] == before + ops[..h] + [ops[h]];
        DistinctAppend(before + ops[..h], ops[h]);
        if ops[h] in seen {
          NotDistinctEver(fs, i, h);
          return Some(NotEnoughRoutes);
        }
        seen := seen + {ops[h]};
      }
      assert ops[..|ops|] == ops;
    }
    assert fs[..|fs|] == fs;
    if sum != p.total {
      return Some(BadSum);
    }
    return None;
  }

  lemma VerifyStart(fs: seq<Fragment>)
    ensures Amounts(fs[..0]) == [] && AllOperators(fs[..0]) == []
    ensures Total64([]) == 0 && Distinct<string>([])
  {
  }

  lemma AmountsMore(fs: seq<Fragment>, i: nat)
    requires i < |fs|
    ensures Total64(Amounts(fs[..i + 1])) == Wrap(Total64(Amounts(fs[..i])) + fs[i].amount)
  {
    hide Wrap, Total64;
    assert Amounts(fs[..i + 1]) == Amounts(fs[..i]) + [fs[i].amount];
    Total64More(Amounts(fs[..i]), fs[i].amount);
  }

  lemma OperatorsMore(fs: seq<Fragment>, i: nat)
    requires i < |fs|
    ensures AllOperators(fs[..i + 1]) == AllOperators(fs[..i]) + OperatorList(fs[i].route)
  {
    assert fs[..i + 1][..i] == fs[..i];
  }

  lemma NotDistinctEver(fs: seq<Fragment>, i: nat, h: nat)
    requires i < |fs| && h < |fs[i].route|
    requires !Distinct(AllOperators(fs[..i]) + OperatorList(fs[i].route)[..h] + [OperatorList(fs[i].route)[h]])
    ensures !Distinct(AllOperators(fs))
  {
    hide Distinct;
    if Distinct(AllOperators(fs)) {
      OperatorsPrefix(fs, i + 1);
      OperatorsMore(fs, i);
      var ops := OperatorList(fs[i].route);
      var upTo := AllOperators(fs[..i]) + ops[..h] + [ops[h]];
      assert upTo + ops[h + 1..] == AllOperators(fs[..i + 1]);
      DistinctPrefix(upTo, ops[h + 1..]);
    }
  }

  // ---- routes that share no operator ----------------------------------------------------------

  /** The route has an unlabelled hop, or one whose operator is taken. */
  predicate Unfit(route: seq<Candidate>, used: set<string>) {
    exists i :: 0 <= i < |route| && (route[i].operator == "" || route[i].operator in used)
  }

  function UsedBy(routes: seq<seq<Candidate>>): set<string> {
    if routes == [] then {} else UsedBy(routes[..|routes| - 1]) + Operators(routes[|routes| - 1])
  }

  /** Routes in order, skipping any that is unfit given those kept before it. */
  function Kept(routes: seq<seq<Candidate>>): (kept: seq<seq<Candidate>>)
    ensures |kept| <= |routes|
  {
    if routes == [] then []
    else
      var before := Kept(routes[..|routes| - 1]);
      var last := routes[|routes| - 1];
      if Unfit(last, UsedBy(before)) then before else before + [last]
  }

  method IndependentRoutes(routes: seq<seq<Candidate>>) returns (kept: seq<seq<Candidate>>)
    ensures kept == Kept(routes)
  {
    kept := [];
    var used: set<string> := {};
    for i := 0 to |routes|
      invariant kept == Kept(routes[..i]) && used == UsedBy(kept)
    {
      var route := routes[i];
      var clash := false;
      for h := 0 to |route|
        invariant !clash
        invariant forall k :: 0 <= k < h ==> route[k].operator != "" && route[k].operator !in used
      {
        if route[h].operator == "" || route[h].operator in used {
          clash := true;
          break;
        }
      }
      assert clash <==> Unfit(route, used);
      assert routes[..i + 1][..i] == routes[..i];
      if !clash {
        assert (kept + [route])[..|kept|] == kept;
        used := used + Operators(route);
        kept := kept + [route];
      }
    }
    assert routes[..|routes|] == routes;
  }

  lemma {:induction false} UsedHas(routes: seq<seq<Candidate>>, i: nat, h: nat)
    requires i < |routes| && h < |routes[i]|
    ensures routes[i][h].operator in UsedBy(routes)
  {
    var n := |routes| - 1;
    if i < n {
      UsedHas(routes[..n], i, h);
    } else {
      assert routes[n][h].operator in Operators(routes[n]);
    }
  }

  ghost predicate Labelled(route: seq<Candidate>) {
    forall h :: 0 <= h < |route| ==> route[h].operator != ""
  }

  ghost predicate Apart(r1: seq<Candidate>, r2: seq<Candidate>) {
    forall g, h :: 0 <= g < |r1| && 0 <= h < |r2| ==> r1[g].operator != r2[h].operator
  }

  lemma FitIsApart(last: seq<Candidate>, kept: seq<seq<Candidate>>, i: nat)
    requires !Unfit(last, UsedBy(kept)) && i < |kept|
    ensures Apart(kept[i], last)
  {
    hide UsedBy;
    forall g, h | 0 <= g < |kept[i]| && 0 <= h < |last| ensures kept[i][g].operator != last[h].operator {
      UsedHas(kept, i, g);
    }
  }

  /** Routes of the list, labelled throughout, no two with an operator in common. */
  ghost predicate Independent(kept: seq<seq<Candidate>>, routes: seq<seq<Candidate>>) {
    && (forall i :: 0 <= i < |kept| ==> Labelled(kept[i]))
    && (forall i :: 0 <= i < |kept| ==> kept[i] in routes)
    && (forall i, j :: 0 <= i < j < |kept| ==> Apart(kept[i], kept[j]))
  }

  lemma Joined(before: seq<seq<Candidate>>, last: seq<Candidate>, routes: seq<seq<Candidate>>)
    requires Independent(before, routes) && !Unfit(last, UsedBy(before))
    ensures Independent(before + [last], routes + [last])
  {
    assert Labelled(last);
    forall i | 0 <= i < |before| ensures Apart(before[i], last) {
      FitIsApart(last, before, i);
    }
    hide Apart, Labelled;
  }

  lemma {:induction false} KeptAreIndependent(routes: seq<seq<Candidate>>)
    ensures Independent(Kept(routes), routes)
  {
    hide Independent;
    if routes != [] {
      var n := |routes| - 1;
      var before, last := Kept(routes[..n]), routes[n];
      KeptAreIndependent(routes[..n]);
      assert routes == routes[..n] + [last];
      if Unfit(last, UsedBy(before)) {
        IndependentOfMore(before, routes[..n], last);
      } else {
        Joined(before, last, routes[..n]);
      }
    } else {
      NoneIndependent();
    }
  }

  lemma NoneIndependent()
    ensures Independent([], [])
  {
  }

  lemma IndependentOfMore(kept: seq<seq<Candidate>>, routes: seq<seq<Candidate>>, last: seq<Candidate>)
    requires Independent(kept, routes)
    ensures Independent(kept, routes + [last])
  {
    hide Apart, Labelled;
  }

  lemma {:induction false} UsedGrows(routes: seq<seq<Candidate>>, k: nat)
    requires k <= |routes|
    ensures UsedBy(Kept(routes[..k])) <= UsedBy(Kept(routes))
  {
    var n := |routes| - 1;
    if k <= n {
      UsedGrows(routes[..n], k);
      assert routes[..n][..k] == routes[..k];
      var before, kept := Kept(routes[..n]), Kept(routes);
      if kept != before {
        assert kept[..|before|] == before;
      }
    } else {
      assert routes[..k] == routes;
    }
  }

  /** None that was skipped could be added: it is unlabelled somewhere or shares an operator
      with a kept route. */
  lemma {:induction false} KeptIsMaximal(routes: seq<seq<Candidate>>, i: nat)
    requires i < |routes|
    ensures routes[i] in Kept(routes) || Unfit(routes[i], UsedBy(Kept(routes)))
  {
    var n := |routes| - 1;
    if i < n {
      KeptIsMaximal(routes[..n], i);
      UsedGrows(routes, n);
    } else {
      UsedGrows(routes, n);
    }
  }

  // ---- the plan ----------------------------------------------------------------------------------

  function Usable(routes: seq<seq<Candidate>>): seq<seq<Candidate>> {
    Kept(if |routes| > MAX_FRAGMENTS then routes[..MAX_FRAGMENTS] else routes)
  }

  /** How many fragments the amount and the routes allow. */
  function Count(total: int, routes: seq<seq<Candidate>>): int {
    Min(|Usable(routes)|, total / MIN_FRAGMENT)
  }

  /** The plan carries the first usable routes in order, one fragment on each, and is
      verified; every route is one a lock chain can be built for. */
  ghost predicate PlanFor(p: Plan, total: int, routes: seq<seq<Candidate>>) {
    && p.total == total && Verified(p)
    && 2 <= |p.fragments| == Count(total, routes) <= MAX_FRAGMENTS
    && |p.fragments| <= |Usable(routes)|
    && forall i :: 0 <= i < |p.fragments| ==>
         p.fragments[i].route == Usable(routes)[i] && 0 < |p.fragments[i].route| <= MAX_HOPS
  }

  function RouteOperators(routes: seq<seq<Candidate>>): seq<string> {
    if routes == [] then [] else RouteOperators(routes[..|routes| - 1]) + OperatorList(routes[|routes| - 1])
  }

  /** Enough money and independent routes for two fragments, and every route to be used is
      one a lock chain can be built for, without an operator twice. */
  ghost predicate Splittable(total: int, routes: seq<seq<Candidate>>) {
    && total >= 2 * MIN_FRAGMENT && |routes| >= 2
    && 2 <= Count(total, routes)
    && (forall i :: 0 <= i < Count(total, routes) ==> 0 < |Usable(routes)[i]| <= MAX_HOPS)
    && Distinct(RouteOperators(Usable(routes)[..Count(total, routes)]))
  }

  lemma {:induction false} OperatorsOfRoutes(fs: seq<Fragment>, routes: seq<seq<Candidate>>)
    requires |fs| == |routes| && forall i :: 0 <= i < |fs| ==> fs[i].route == routes[i]
    ensures AllOperators(fs) == RouteOperators(routes)
  {
    if fs != [] {
      OperatorsOfRoutes(fs[..|fs| - 1], routes[..|routes| - 1]);
    }
  }

  method Split(total: int, routes: seq<seq<Candidate>>, draws: seq<nat>) returns (r: Result<Plan, Failure>)
    requires Fits64(total)
    requires |draws| >= MAX_FRAGMENTS && forall i :: 0 <= i < |draws| ==> draws[i] < 1000
    ensures r.Ok? ==> PlanFor(r.value, total, routes)
    ensures total < 2 * MIN_FRAGMENT || |routes| < 2 ==> r == Err(TooSmall)
    ensures r.Ok? <==> Splittable(total, routes) && ReachFloor(total, Count(total, routes), draws)
    ensures Splittable(total, routes) && (total - MIN_FRAGMENT * Count(total, routes)) * 1000 < TWO63 ==> r.Ok?
    ensures r.Ok? ==> SplitRight(total, |r.value.fragments|, Amounts(r.value.fragments))
  {
    hide Kept, SplitBy, Verified, Sum, Total64, SplitRight, Distinct, RouteOperators, AllOperators, WeightsOf, ReachFloor;
    if total < 2 * MIN_FRAGMENT || |routes| < 2 {
      return Err(TooSmall);
    }
    var usable := IndependentRoutes(if |routes| > MAX_FRAGMENTS then routes[..MAX_FRAGMENTS] else routes);
    if |usable| < 2 {
      return Err(NotEnoughRoutes);
    }
    var n := Min(|usable|, total / MIN_FRAGMENT);
    FloorFits(total, n);
    if n < 2 {
      return Err(TooSmall);
    }
    var amounts := UnevenSplit(total, n, draws);
    if amounts.Err? {
      return Err(TooSmall);
    }
    WeightsSum(draws, n);
    var fragments: seq<Fragment> := [];
    for i := 0 to n
      invariant |fragments| == i && Amounts(fragments) == amounts.value[..i]
      invariant forall k :: 0 <= k < i ==> fragments[k].route == usable[k] && 0 < |usable[k]| <= MAX_HOPS
    {
      if |usable[i]| <= 0 || |usable[i]| > MAX_HOPS {
        return Err(TooManyLocks);
      }
      assert amounts.value[..i + 1] == amounts.value[..i] + [amounts.value[i]];
      assert Amounts(fragments + [Fragment(amounts.value[i], usable[i])]) == Amounts(fragments) + [amounts.value[i]];
      fragments := fragments + [Fragment(amounts.value[i], usable[i])];
    }
    assert amounts.value[..n] == amounts.value;
    var plan := Plan(total, fragments);
    assert usable == Usable(routes) && n == Count(total, routes);
    OperatorsOfRoutes(fragments, usable[..n]);
    ReachFloorExact(plan, draws);
    if (total - MIN_FRAGMENT * n) * 1000 < TWO63 {
      RightReachesFloor(total, n, draws);
    }
    var bad := Verify(plan);
    if bad.Some? {
      return Err(bad.value);
    }
    return Ok(plan);
  }

  /** The drawn weights leave every fragment at the floor or above. */
  ghost predicate ReachFloor(total: int, n: int, draws: seq<nat>) {
    && 0 < n <= |draws| && Sum(WeightsOf(draws, n)) > 0
    && forall i :: 0 <= i < n ==> SplitBy(total, WeightsOf(draws, n))[i] >= MIN_FRAGMENT
  }

  lemma RightReachesFloor(total: int, n: int, draws: seq<nat>)
    requires 2 <= n <= |draws| && forall i :: 0 <= i < |draws| ==> draws[i] < 1000
    requires Fits64(total) && MIN_FRAGMENT * n <= total && (total - MIN_FRAGMENT * n) * 1000 < TWO63
    ensures ReachFloor(total, n, draws)
  {
    hide SplitBy, WeightsOf, Sum;
    WeightsSum(draws, n);
    SplitIsRight(total, WeightsOf(draws, n));
  }

  /** A plan with the amounts of a split is verified exactly when its routes share no operator
      and every fragment reaches the floor; and then the amounts are exactly its total. */
  lemma ReachFloorExact(p: Plan, draws: seq<nat>)
    requires var n := |p.fragments|;
             && 2 <= n <= MAX_FRAGMENTS && n <= |draws| && (forall i :: 0 <= i < |draws| ==> draws[i] < 1000)
             && Fits64(p.total) && MIN_FRAGMENT * n <= p.total
             && Sum(WeightsOf(draws, n)) > 0 && Amounts(p.fragments) == SplitBy(p.total, WeightsOf(draws, n))
    ensures Verified(p) <==> Distinct(AllOperators(p.fragments)) && ReachFloor(p.total, |p.fragments|, draws)
    ensures Verified(p) ==> SplitRight(p.total, |p.fragments|, Amounts(p.fragments))
  {
    hide Distinct, AllOperators, Total64, Sum, SplitBy, WeightsOf;
    var w := WeightsOf(draws, |p.fragments|);
    WeightsSum(draws, |p.fragments|);
    SplitKeepsTotal64(p.total, w);
    forall i | 0 <= i < |p.fragments| ensures p.fragments[i].amount == SplitBy(p.total, w)[i] {
      assert Amounts(p.fragments)[i] == p.fragments[i].amount;
    }
    if ReachFloor(p.total, |p.fragments|, draws) {
      FloorsAreRight(p.total, w);
    }
  }

  lemma FloorFits(total: int, n: int)
    requires n <= total / MIN_FRAGMENT && total >= 0
    ensures MIN_FRAGMENT * n <= total
  {
    DivBounds(total, MIN_FRAGMENT);
    MulMono(MIN_FRAGMENT, n, total / MIN_FRAGMENT);
  }

  // ---- from a plan to settlement legs ---------------------------------------------------------------

  lemma WrapWrap(a: int, b: int)
    ensures Wrap(Wrap(a) + b) == Wrap(a + b)
  {
    var x := a + TWO63;
    DivBounds(x, TWO64);
    ModShift(x % TWO64 + b, x / TWO64);
    assert x % TWO64 + b + TWO64 * (x / TWO64) == a + b + TWO63;
  }

  lemma ModShift(n: int, q: int)
    ensures (n + TWO64 * q) % TWO64 == n % TWO64
  {
    var d, r := n / TWO64, n % TWO64;
    assert n + TWO64 * q == TWO64 * (d + q) + r;
    DivModUnique(n + TWO64 * q, TWO64, d + q, r);
  }

  /** The 64-bit running sum is the exact sum brought into range. */
  lemma {:induction false} Total64IsWrapped(s: seq<int>)
    ensures Total64(s) == Wrap(Sum(s))
  {
    hide Wrap;
    if s == [] {
      WrapFits(0);
    } else {
      Total64IsWrapped(s[..|s| - 1]);
      WrapWrap(Sum(s[..|s| - 1]), s[|s| - 1]);
    }
  }

  // ---- a split at or above the floors is exact -------------------------------------------------------

  lemma WrapAgain(a: int, b: int)
    ensures Wrap(a + Wrap(b)) == Wrap(a + b)
  {
    hide Wrap;
    WrapWrap(b, a);
  }

  lemma WrapZero(n: int)
    requires -TWO64 < n < TWO64 && Wrap(n) == 0
    ensures n == 0
  {
  }

  /** The remainder makes the 64-bit sum of a split its total, whatever was drawn. */
  lemma SplitKeepsTotal64(total: int, w: seq<int>)
    requires |w| > 0 && Sum(w) > 0 && Fits64(total)
    ensures Total64(SplitBy(total, w)) == total
  {
    hide Wrap, Sum, Total64, Parts, LargestOf;
    var parts := Parts(total - MIN_FRAGMENT * |w|, w, Sum(w));
    var sum := Sum(parts);
    Total64IsWrapped(parts);
    var remainder := Wrap(total - Wrap(sum));
    if remainder == 0 {
      WrapZero(total - Wrap(sum));
    } else {
      var l := LargestOf(parts, |parts|);
      var out := parts[l := Wrap(parts[l] + remainder)];
      Total64IsWrapped(out);
      SumUpdate(parts, l, Wrap(parts[l] + remainder));
      WrapAgain(sum - parts[l], parts[l] + remainder);
      WrapAgain(sum, total - Wrap(sum));
      WrapWrap(sum, total - Wrap(sum));
      WrapFits(total);
    }
  }

  lemma {:induction false} SumAtMost(s: seq<int>, high: int)
    requires forall i :: 0 <= i < |s| ==> s[i] <= high
    ensures Sum(s) <= high * |s|
  {
    if s != [] {
      SumAtMost(s[..|s| - 1], high);
    }
  }

  /** However the product wrapped, a share is at most its part of 2^63. */
  lemma ShareAtMost(spare: int, weight: int, sum: int, n: nat)
    requires sum >= n >= 2
    ensures -TWO63 <= Share(spare, weight, sum) <= TWO63 / n
  {
    var a := Wrap(spare * weight);
    hide Wrap;
    DivBounds(TWO63, n);
    if a >= 0 {
      var q := a / sum;
      DivBounds(a, sum);
      DivSmaller(a, sum, n, TWO63);
    } else {
      NegativeQuotient(-a, sum);
    }
  }

  lemma NegativeQuotient(a: int, b: int)
    requires 0 < a <= TWO63 && b > 0
    ensures 0 <= a / b <= TWO63
  {
    DivSmaller(a, b, 1, TWO63);
  }

  /** Of the multiples of `d` up to `top`, the one at `m` is the last. */
  lemma LastMultiple(d: int, m: int, q: int, top: int)
    requires d > 0 && d * q <= top < d * m + d
    ensures q <= m
  {
    if q > m {
      MulMono(d, m + 1, q);
      Distribute(d, m, 1);
    }
  }

  lemma DivSmaller(a: int, sum: int, n: nat, top: int)
    requires 0 <= a <= top && sum >= n > 0
    ensures 0 <= a / sum <= top / n
  {
    DivBounds(a, sum);
    DivBounds(top, n);
    MultiplesApart(a, sum, n, top, a / sum, top / n);
  }

  lemma MultiplesApart(a: int, sum: int, n: nat, top: int, q: int, m: int)
    requires 0 <= a <= top && sum >= n > 0
    requires sum * q <= a < sum * q + sum && n * m <= top < n * m + n
    ensures 0 <= q <= m
  {
    LastMultiple(sum, q, 0, a);
    ScaleUp(q, n, sum);
    assert q * n == n * q && q * sum == sum * q;
    LastMultiple(n, m, q, top);
  }

  lemma PartAtMost(spare: int, w: seq<int>, i: nat)
    requires |w| >= 2 && Sum(w) >= |w| && i < |w|
    ensures Parts(spare, w, Sum(w))[i] <= MIN_FRAGMENT + TWO63 / |w|
  {
    hide Share, Sum, Wrap;
    ShareAtMost(spare, w[i], Sum(w), |w|);
    var s := Share(spare, w[i], Sum(w));
    DivSmaller(TWO63, |w|, 2, TWO63);
    WrapFits(MIN_FRAGMENT + s);
  }

  lemma PartsAtMost(spare: int, w: seq<int>)
    requires |w| >= 2 && Sum(w) >= |w|
    ensures forall i :: 0 <= i < |w| ==> Parts(spare, w, Sum(w))[i] <= MIN_FRAGMENT + TWO63 / |w|
  {
    hide Parts, Sum;
    forall i | 0 <= i < |w| ensures Parts(spare, w, Sum(w))[i] <= MIN_FRAGMENT + TWO63 / |w| {
      PartAtMost(spare, w, i);
    }
  }

  /** The exact sum of a split is less than a whole turn above the total. */
  lemma SplitBelowATurn(total: int, w: seq<int>)
    requires |w| >= 2 && Sum(w) >= |w| && Fits64(total) && MIN_FRAGMENT * |w| <= total
    ensures Sum(SplitBy(total, w)) < total + TWO64
  {
    hide Wrap, Sum, Total64, Parts, LargestOf;
    var n := |w|;
    var parts := Parts(total - MIN_FRAGMENT * n, w, Sum(w));
    var high := MIN_FRAGMENT + TWO63 / n;
    PartsAtMost(total - MIN_FRAGMENT * n, w);
    DivBounds(TWO63, n);
    assert high * n == MIN_FRAGMENT * n + n * (TWO63 / n);
    SumAtMost(parts, high);
    var out := SplitBy(total, w);
    if out != parts {
      var l := LargestOf(parts, n);
      SumAtMost(parts[l := 0], high);
      SumUpdate(parts, l, 0);
      SumUpdate(parts, l, out[l]);
    }
  }

  /** So when every fragment reaches the floor, a split is right: its exact sum is the total. */
  lemma FloorsAreRight(total: int, w: seq<int>)
    requires Weights(w) && Sum(w) > 0 && Fits64(total) && MIN_FRAGMENT * |w| <= total
    requires forall i :: 0 <= i < |w| ==> SplitBy(total, w)[i] >= MIN_FRAGMENT
    ensures SplitRight(total, |w|, SplitBy(total, w))
  {
    hide SplitBy, Sum, Total64;
    SumAtLeast(w, 1);
    SplitBelowATurn(total, w);
    SplitKeepsTotal64(total, w);
    var out := SplitBy(total, w);
    SumAtLeast(out, MIN_FRAGMENT);
    Total64IsWrapped(out);
    SameTurn(Sum(out), total);
  }

  lemma SameTurn(n: int, total: int)
    requires Wrap(n) == total && 0 <= n && 0 <= total && n < total + TWO64
    ensures n == total
  {
  }

  // ---- expiries and legs ---------------------------------------------------------------------------------

  /** A window per hop and one more for the recipient. */
  function ExpiryOf(f: Fragment, now: int, perHop: int): int {
    Wrap(now + Wrap(perHop * (|f.route| + 1)))
  }

  /** In exact arithmetic that is a window for every hop and one more, whatever wrapped on the
      way, as long as the result fits. */
  lemma ExpiryExact(f: Fragment, now: int, perHop: int)
    requires Fits64(now + perHop * (|f.route| + 1))
    ensures ExpiryOf(f, now, perHop) == now + perHop * (|f.route| + 1)
  {
    WrapTwice(now, perHop * (|f.route| + 1));
    WrapFits(now + perHop * (|f.route| + 1));
  }

  /** A leg expires a window for every hop and one more after `now`, when that fits. */
  predicate WindowPerHop(expiry: int, f: Fragment, now: int, perHop: int) {
    Fits64(now + perHop * (|f.route| + 1)) ==> expiry == now + perHop * (|f.route| + 1)
  }

  lemma ExpiriesExact(fs: seq<Fragment>, now: int, perHop: int)
    ensures forall i :: 0 <= i < |fs| ==> WindowPerHop(ExpiryOf(fs[i], now, perHop), fs[i], now, perHop)
  {
    hide ExpiryOf;
    forall i | 0 <= i < |fs| && Fits64(now + perHop * (|fs[i].route| + 1))
      ensures ExpiryOf(fs[i], now, perHop) == now + perHop * (|fs[i].route| + 1)
    {
      ExpiryExact(fs[i], now, perHop);
    }
  }

  lemma WrapTwice(a: int, b: int)
    ensures Wrap(a + Wrap(b)) == Wrap(a + b)
  {
    var q := (b + TWO63) / TWO64;
    assert Wrap(b) == b - TWO64 * q;
    WrapTurns(a + b, -q);
  }

  lemma WrapTurns(n: int, k: int)
    ensures Wrap(n + TWO64 * k) == Wrap(n)
  {
  }

  function Expiries(fs: seq<Fragment>, now: int, perHop: int): (e: seq<int>)
    ensures |e| == |fs|
  {
    seq(|fs|, i requires 0 <= i < |fs| => ExpiryOf(fs[i], now, perHop))
  }

  datatype PlanError = Unverified(why: Failure) | ChannelMismatch | UnsafeExpiry | NotBuilt(error: M.BuildError)

  /** Turns a plan into a payment whose legs carry the plan's amounts in order, each
      expiring at or before the deadline. */
  method PaymentFromPlan(p: Plan, id: Term, secret: Term, channels: seq<Term>, now: int, perHop: int, deadline: int)
    returns (r: Result<M.Payment, PlanError>)
    ensures r.Ok? <==>
              && Verified(p) && |channels| == |p.fragments| && perHop > 0
              && (forall i :: 0 <= i < |p.fragments| ==> p.fragments[i].route != [])
              && M.GoodFragments(channels, Amounts(p.fragments), Expiries(p.fragments, now, perHop), deadline)
    ensures r.Ok? ==>
              && r.value.id == id && |r.value.legs| == |p.fragments| && r.value.deadline == deadline
              && (forall i :: 0 <= i < |p.fragments| ==>
                    && r.value.legs[i] == M.LegOf(id, secret, i, channels[i], p.fragments[i].amount,
                                                  ExpiryOf(p.fragments[i], now, perHop))
                    && 0 < r.value.legs[i].expiry <= deadline)
              && r.value.total == Sum(Amounts(p.fragments))
              && (forall i :: 0 <= i < |p.fragments| ==>
                    var leg, f := r.value.legs[i], p.fragments[i];
                    leg.channel == channels[i] && leg.amount == f.amount && WindowPerHop(leg.expiry, f, now, perHop))
              && (r.value.total == p.total <==> Fits64(r.value.total))
              && (SplitRight(p.total, |p.fragments|, Amounts(p.fragments)) ==> r.value.total == p.total)
  {
    hide Verified, Wrap, Total64, ExpiryOf, WindowPerHop, SplitRight;
    var bad := Verify(p);
    if bad.Some? {
      return Err(Unverified(bad.value));
    }
    if |channels| != |p.fragments| {
      return Err(ChannelMismatch);
    }
    if perHop <= 0 {
      return Err(UnsafeExpiry);
    }
    var fs := p.fragments;
    var amounts: seq<int> := [];
    var expiries: seq<int> := [];
    var total := 0;
    SumNone();
    for i := 0 to |fs|
      invariant amounts == Amounts(fs[..i]) && expiries == Expiries(fs[..i], now, perHop) && total == Sum(amounts)
      invariant forall k :: 0 <= k < i ==> fs[k].route != []
    {
      SumAppend(amounts, fs[i].amount);
      amounts := amounts + [fs[i].amount];
      total := total + fs[i].amount;
      if |fs[i].route| == 0 {
        return Err(ChannelMismatch);
      }
      expiries := expiries + [ExpiryOf(fs[i], now, perHop)];
    }
    assert fs[..|fs|] == fs;
    TotalFits(p);
    ExpiriesExact(fs, now, perHop);
    var payment := M.BuildPayment(id, secret, total, deadline, channels, amounts, expiries);
    if payment.Err? {
      return Err(NotBuilt(payment.error));
    }
    return Ok(payment.value);
  }

  lemma TotalFits(p: Plan)
    requires Verified(p)
    ensures Sum(Amounts(p.fragments)) == p.total <==> Fits64(Sum(Amounts(p.fragments)))
    ensures SplitRight(p.total, |p.fragments|, Amounts(p.fragments)) ==> Sum(Amounts(p.fragments)) == p.total
  {
    Total64IsWrapped(Amounts(p.fragments));
    if Fits64(Sum(Amounts(p.fragments))) {
      WrapFits(Sum(Amounts(p.fragments)));
    }
  }

  function OneHop(operator: string): seq<Candidate> {
    [Candidate(operator, operator, "", 0, 1.0, 0, 0)]
  }

  /** A plan not made by Split can pass Verify with amounts that exceed its total by a
      whole turn of the 64-bit counter. */
  lemma VerifyMissesAWholeTurn()
    ensures var most := TWO63 - 1;
            var p := Plan(1000, [Fragment(most, OneHop("a")), Fragment(most, OneHop("b")), Fragment(1002, OneHop("c"))]);
            Verified(p) && Sum(Amounts(p.fragments)) == p.total + TWO64
  {
    var most := TWO63 - 1;
    var f1, f2, f3 := Fragment(most, OneHop("a")), Fragment(most, OneHop("b")), Fragment(1002, OneHop("c"));
    var fs := [f1, f2, f3];
    ThreeFragments(f1, f2, f3);
    assert OperatorList(f1.route) == ["a"] && OperatorList(f2.route) == ["b"] && OperatorList(f3.route) == ["c"];
    assert AllOperators(fs) == ["a", "b", "c"];
    Total64IsWrapped(Amounts(fs));
    hide Total64;
    assert Wrap(TWO64 + 1000) == 1000;
  }

  lemma ThreeFragments(f1: Fragment, f2: Fragment, f3: Fragment)
    ensures var fs := [f1, f2, f3];
            && Amounts(fs) == [f1.amount, f2.amount, f3.amount]
            && Sum(Amounts(fs)) == f1.amount + f2.amount + f3.amount
            && AllOperators(fs) == OperatorList(f1.route) + OperatorList(f2.route) + OperatorList(f3.route)
  {
    hide OperatorList;
    SumNone();
    SumAppend([], f1.amount);
    SumAppend([f1.amount], f2.amount);
    SumAppend([f1.amount, f2.amount], f3.amount);
    assert [f1, f2, f3][..2] == [f1, f2] && [f1, f2][..1] == [f1] && [f1][..0] == [];
    assert [] + [f1.amount] == [f1.amount] && [f1.amount] + [f2.amount] == [f1.amount, f2.amount];
    assert [f1.amount, f2.amount] + [f3.amount] == [f1.amount, f2.amount, f3.amount];
    assert AllOperators([f1]) == OperatorList(f1.route);
    assert AllOperators([f1, f2]) == OperatorList(f1.route) + OperatorList(f2.route);
  }
}
