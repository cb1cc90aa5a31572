/** Drawing a route: filter, rank, then pick greedily under the diversity rules. */
module RouteSelection {
  import opened Common

  const DEFAULT_HOPS: nat := 3

  datatype Candidate = Candidate(nodeId: string, operator: string, faultDomain: string, capacity: int,
                                 successRate: real, latency: int, privacyVersion: nat)

  datatype Request = Request(hops: int, minCapacity: int, minSuccess: real, privacyVersion: nat,
                             avoid: set<string>, distinctDomains: bool)

  datatype Refusal =
    | TooFewOperators(found: nat, needed: nat, before: nat, after: nat)
    | TooFewDomains(found: nat, needed: nat, before: nat, after: nat)

  predicate Usable(c: Candidate, r: Request) {
    && c.nodeId != "" && c.operator != ""
    && c.nodeId !in r.avoid
    && c.capacity >= r.minCapacity
    && c.successRate >= r.minSuccess
    && (r.privacyVersion == 0 || c.privacyVersion == r.privacyVersion)
  }

  function Filtered(cs: seq<Candidate>, r: Request): seq<Candidate> {
    if cs == [] then []
    else Filtered(cs[..|cs| - 1], r) + if Usable(cs[|cs| - 1], r) then [cs[|cs| - 1]] else []
  }

  function Operators(cs: seq<Candidate>): set<string> {
    set i | 0 <= i < |cs| :: cs[i].operator
  }

  function Domains(cs: seq<Candidate>): set<string> {
    set i | 0 <= i < |cs| && cs[i].faultDomain != "" :: cs[i].faultDomain
  }

  /** The candidate cannot join what has been chosen so far. */
  predicate Clashes(c: Candidate, chosen: seq<Candidate>, r: Request) {
    || c.operator in Operators(chosen)
    || (r.distinctDomains && c.faultDomain != "" && c.faultDomain in Domains(chosen))
  }

  /** Scores only ever order the candidates; any way of ordering them will do. */
  type Ranking = seq<Candidate> -> seq<Candidate>

  ghost predicate Reorders(rank: Ranking) {
    forall cs :: multiset(rank(cs)) == multiset(cs)
  }

  function HopsOf(r: Request): nat {
    if r.hops <= 0 then DEFAULT_HOPS else r.hops
  }

  // ---- what a route promises ------------------------------------------------------------------

  ghost predicate Diverse(route: seq<Candidate>, r: Request) {
    forall i, j :: 0 <= i < j < |route| ==>
      && route[i].operator != route[j].operator
      && (r.distinctDomains && route[i].faultDomain != "" ==> route[i].faultDomain != route[j].faultDomain)
  }

  /** `route` holds candidates of the request, as many as asked for, diverse as asked for. */
  ghost predicate ValidRoute(route: seq<Candidate>, cs: seq<Candidate>, r: Request) {
    && |route| == HopsOf(r)
    && (forall i :: 0 <= i < |route| ==> route[i] in cs && Usable(route[i], r))
    && Diverse(route, r)
  }

  /** Nothing ranked ahead of a pick could have been picked in its place. */
  ghost predicate Greedy(route: seq<Candidate>, ranked: seq<Candidate>, r: Request) {
    exists at: seq<nat> ::
      && |at| == |route|
      && (forall k :: 0 <= k < |at| ==> at[k] < |ranked| && ranked[at[k]] == route[k])
      && (forall k, m :: 0 <= k < |at| && 0 <= m < at[k] ==> Clashes(ranked[m], route[..k], r) || ranked[m] in route[..k])
  }

  // ---- the selection --------------------------------------------------------------------------

  lemma {:induction false} FilteredExactly(cs: seq<Candidate>, r: Request, c: Candidate)
    ensures c in Filtered(cs, r) <==> c in cs && Usable(c, r)
  {
    hide Usable;
    if cs != [] {
      FilteredExactly(cs[..|cs| - 1], r, c);
      assert cs == cs[..|cs| - 1] + [cs[|cs| - 1]];
    }
  }

  /** What filtering keeps: the named candidates of a named operator that are not avoided, have
      the capacity and the success rate asked for, and speak the version asked for, if any. */
  lemma KeepsExactly(cs: seq<Candidate>, r: Request, c: Candidate)
    ensures c in Filtered(cs, r) <==>
              && c in cs && c.nodeId != "" && c.operator != "" && c.nodeId !in r.avoid
              && r.minCapacity <= c.capacity && r.minSuccess <= c.successRate
              && (r.privacyVersion != 0 ==> c.privacyVersion == r.privacyVersion)
  {
    FilteredExactly(cs, r, c);
    hide Filtered;
  }

  lemma RankedSame(rank: Ranking, cs: seq<Candidate>, c: Candidate)
    requires Reorders(rank)
    ensures c in rank(cs) <==> c in cs
  {
    assert c in multiset(rank(cs)) <==> c in multiset(cs);
  }

  method Filter(cs: seq<Candidate>, r: Request) returns (usable: seq<Candidate>)
    ensures usable == Filtered(cs, r)
  {
    hide Usable;
    usable := [];
    for i := 0 to |cs|
      invariant usable == Filtered(cs[..i], r)
    {
      assert cs[..i + 1][..i] == cs[..i];
      if Usable(cs[i], r) {
        usable := usable + [cs[i]];
      }
    }
    assert cs[..|cs|] == cs;
  }

  /** What the picking loop has established after the first `n` candidates. */
  ghost predicate Picked(chosen: seq<Candidate>, at: seq<nat>, ranked: seq<Candidate>, n: nat, r: Request)
    requires n <= |ranked|
  {
    && |at| == |chosen|
    && Diverse(chosen, r)
    && (forall k :: 0 <= k < |at| ==> at[k] < n && ranked[at[k]] == chosen[k])
    && (forall k, m :: 0 <= k < |at| && 0 <= m < at[k] ==> Clashes(ranked[m], chosen[..k], r) || ranked[m] in chosen[..k])
    && (forall m :: 0 <= m < n ==> Clashes(ranked[m], chosen, r) || ranked[m] in chosen)
  }

  lemma PickedStays(chosen: seq<Candidate>, at: seq<nat>, ranked: seq<Candidate>, n: nat, r: Request)
    requires n < |ranked| && Picked(chosen, at, ranked, n, r) && Clashes(ranked[n], chosen, r)
    ensures Picked(chosen, at, ranked, n + 1, r)
  {
    hide Clashes, Diverse;
  }

  lemma ClashGrows(c: Candidate, chosen: seq<Candidate>, more: Candidate, r: Request)
    requires Clashes(c, chosen, r)
    ensures Clashes(c, chosen + [more], r)
  {
    var longer := chosen + [more];
    if c.operator in Operators(chosen) {
      var i :| 0 <= i < |chosen| && chosen[i].operator == c.operator;
      assert longer[i].operator == c.operator;
    } else {
      var i :| 0 <= i < |chosen| && chosen[i].faultDomain != "" && chosen[i].faultDomain == c.faultDomain;
      assert longer[i].faultDomain == c.faultDomain;
    }
  }

  lemma DiverseGrows(chosen: seq<Candidate>, more: Candidate, r: Request)
    requires Diverse(chosen, r) && !Clashes(more, chosen, r)
    ensures Diverse(chosen + [more], r)
  {
    var longer := chosen + [more];
    forall i | 0 <= i < |chosen|
      ensures longer[i].operator != more.operator
      ensures r.distinctDomains && longer[i].faultDomain != "" ==> longer[i].faultDomain != more.faultDomain
    {
      assert chosen[i].operator in Operators(chosen);
      assert chosen[i].faultDomain != "" ==> chosen[i].faultDomain in Domains(chosen);
    }
  }

  lemma PickedGrows(chosen: seq<Candidate>, at: seq<nat>, ranked: seq<Candidate>, n: nat, r: Request)
    requires n < |ranked| && Picked(chosen, at, ranked, n, r) && !Clashes(ranked[n], chosen, r)
    ensures Picked(chosen + [ranked[n]], at + [n], ranked, n + 1, r)
  {
    DiverseGrows(chosen, ranked[n], r);
    hide Clashes, Diverse;
    var chosen', at' := chosen + [ranked[n]], at + [n];
    forall m | 0 <= m < n + 1 ensures Clashes(ranked[m], chosen', r) || ranked[m] in chosen' {
      if m < n && Clashes(ranked[m], chosen, r) {
        ClashGrows(ranked[m], chosen, ranked[n], r);
      }
    }
    forall k | 0 <= k <= |chosen| ensures chosen'[..k] == chosen[..k] {
    }
  }

  /** The fault-domain rule asks for nothing more: no domain is shared between operators. */
  ghost predicate OneOperatorPerDomain(cs: seq<Candidate>) {
    forall c, d :: c in cs && d in cs && c.faultDomain == d.faultDomain != "" ==> c.operator == d.operator
  }

  lemma PickedOperators(chosen: seq<Candidate>, at: seq<nat>, ranked: seq<Candidate>, r: Request)
    requires Picked(chosen, at, ranked, |ranked|, r) && (r.distinctDomains ==> OneOperatorPerDomain(ranked))
    ensures Operators(chosen) == Operators(ranked)
  {
    forall i | 0 <= i < |chosen| ensures chosen[i] in ranked {
      assert ranked[at[i]] == chosen[i];
    }
    forall m | 0 <= m < |ranked| ensures ranked[m].operator in Operators(chosen) {
      if ranked[m] in chosen {
        var i :| 0 <= i < |chosen| && chosen[i] == ranked[m];
      } else if r.distinctDomains && ranked[m].faultDomain in Domains(chosen) {
        var i :| 0 <= i < |chosen| && chosen[i].faultDomain != "" && chosen[i].faultDomain == ranked[m].faultDomain;
        assert chosen[i].operator == ranked[m].operator;
      }
    }
  }

  lemma RankedDomains(rank: Ranking, cs: seq<Candidate>)
    requires Reorders(rank) && OneOperatorPerDomain(cs)
    ensures OneOperatorPerDomain(rank(cs))
  {
    forall c ensures c in rank(cs) <==> c in cs {
      RankedSame(rank, cs, c);
    }
  }

  lemma {:induction false} DiverseCounts(route: seq<Candidate>, r: Request)
    requires Diverse(route, r)
    ensures |Operators(route)| == |route|
  {
    if route != [] {
      var init := route[..|route| - 1];
      DiverseCounts(init, r);
      var last := route[|route| - 1].operator;
      assert Operators(route) == Operators(init) + {last};
      assert last !in Operators(init);
    } else {
      assert Operators(route) == {};
    }
  }

  lemma SameOperators(rank: Ranking, cs: seq<Candidate>)
    requires Reorders(rank)
    ensures Operators(rank(cs)) == Operators(cs)
  {
    forall i | 0 <= i < |cs| ensures cs[i].operator in Operators(rank(cs)) {
      RankedSame(rank, cs, cs[i]);
      var j :| 0 <= j < |rank(cs)| && rank(cs)[j] == cs[i];
    }
    forall i | 0 <= i < |rank(cs)| ensures rank(cs)[i].operator in Operators(cs) {
      RankedSame(rank, cs, rank(cs)[i]);
      var j :| 0 <= j < |cs| && cs[j] == rank(cs)[i];
    }
  }

  lemma PickedIsRoute(chosen: seq<Candidate>, at: seq<nat>, ranked: seq<Candidate>, n: nat, cs: seq<Candidate>,
                      r: Request, rank: Ranking)
    requires Reorders(rank) && ranked == rank(Filtered(cs, r)) && n <= |ranked|
    requires Picked(chosen, at, ranked, n, r) && |chosen| == HopsOf(r)
    ensures ValidRoute(chosen, cs, r) && Greedy(chosen, ranked, r)
  {
    hide Clashes, Diverse, Usable, Filtered;
    forall i | 0 <= i < |chosen| ensures chosen[i] in cs && Usable(chosen[i], r) {
      assert ranked[at[i]] in ranked;
      RankedSame(rank, Filtered(cs, r), chosen[i]);
      FilteredExactly(cs, r, chosen[i]);
    }
  }

  /** Every route returned is valid and is the greedy one for its ranking. A request
      without the fault-domain rule is refused only when no valid route exists, and so is
      one with it as long as no usable candidates of two operators share a domain. */
  method SelectRoute(cs: seq<Candidate>, r: Request, rank: Ranking) returns (route: Result<seq<Candidate>, Refusal>)
    requires Reorders(rank)
    ensures route.Ok? ==> ValidRoute(route.value, cs, r) && Greedy(route.value, rank(Filtered(cs, r)), r)
    ensures route.Ok? ==> |route.value| == (if r.hops > 0 then r.hops else 3)
    ensures route.Err? <==> FallsShort(rank(Filtered(cs, r)), r)
    ensures var found := |Operators(Filtered(cs, r))|;
            && (route.Err? && route.error.TooFewOperators? <==> found < HopsOf(r))
            && (!r.distinctDomains || OneOperatorPerDomain(Filtered(cs, r)) ==> (route.Err? <==> found < HopsOf(r)))
            && (route.Err? ==> route.error.found == found && route.error.needed == HopsOf(r)
                               && route.error.before == |cs| && route.error.after == |Filtered(cs, r)|)
  {
    hide ValidRoute, Greedy, Picked, Clashes, Filtered, Operators, Diverse, OneOperatorPerDomain, FallsShort;
    var hops := HopsOf(r);
    var usable := Filter(cs, r);
    var distinct := |Operators(usable)|;
    if distinct < hops {
      TooFewFallsShort(rank, usable, r);
      return Err(TooFewOperators(distinct, hops, |cs|, |usable|));
    }
    var ranked := rank(usable);
    var chosen: seq<Candidate> := [];
    ghost var at: seq<nat> := [];
    PickedNone(ranked, r);
    for n := 0 to |ranked|
      invariant Picked(chosen, at, ranked, n, r) && |chosen| < hops
    {
      if Clashes(ranked[n], chosen, r) {
        PickedStays(chosen, at, ranked, n, r);
      } else {
        PickedGrows(chosen, at, ranked, n, r);
        chosen, at := chosen + [ranked[n]], at + [n];
        if |chosen| == hops {
          PickedIsRoute(chosen, at, ranked, n + 1, cs, r, rank);
          EnoughPicked(chosen, at, ranked, n + 1, r);
          return Ok(chosen);
        }
      }
    }
    if !r.distinctDomains || OneOperatorPerDomain(usable) {
      if r.distinctDomains { RankedDomains(rank, usable); }
      PickedOperators(chosen, at, ranked, r);
      SameOperators(rank, usable);
      PickedDiverse(chosen, at, ranked, |ranked|, r);
      DiverseCounts(chosen, r);
      assert false;
    }
    PickedShort(chosen, at, ranked, r);
    return Err(TooFewDomains(distinct, hops, |cs|, |usable|));
  }

  /** Picking greedily through the whole ranking gives fewer candidates than asked for. */
  ghost predicate FallsShort(ranked: seq<Candidate>, r: Request) {
    exists chosen, at :: Picked(chosen, at, ranked, |ranked|, r) && |chosen| < HopsOf(r)
  }

  lemma PickedShort(chosen: seq<Candidate>, at: seq<nat>, ranked: seq<Candidate>, r: Request)
    requires Picked(chosen, at, ranked, |ranked|, r) && |chosen| < HopsOf(r)
    ensures FallsShort(ranked, r)
  {
    hide Picked;
  }

  lemma TooFewFallsShort(rank: Ranking, usable: seq<Candidate>, r: Request)
    requires Reorders(rank) && |Operators(usable)| < HopsOf(r)
    ensures FallsShort(rank(usable), r)
  {
    hide Picked, HopsOf;
    SameOperators(rank, usable);
    var chosen, at := PickAll(rank(usable), |rank(usable)|, r);
    PickedOnlyRanked(chosen, at, rank(usable), r);
  }

  /** Picking on never gives fewer. */
  lemma {:induction false} PickRest(chosen: seq<Candidate>, at: seq<nat>, ranked: seq<Candidate>, n: nat, r: Request)
    returns (chosen': seq<Candidate>, at': seq<nat>)
    requires n <= |ranked| && Picked(chosen, at, ranked, n, r)
    ensures Picked(chosen', at', ranked, |ranked|, r) && |chosen'| >= |chosen|
    decreases |ranked| - n
  {
    hide Picked, Clashes;
    if n == |ranked| {
      chosen', at' := chosen, at;
    } else if Clashes(ranked[n], chosen, r) {
      PickedStays(chosen, at, ranked, n, r);
      chosen', at' := PickRest(chosen, at, ranked, n + 1, r);
    } else {
      PickedGrows(chosen, at, ranked, n, r);
      chosen', at' := PickRest(chosen + [ranked[n]], at + [n], ranked, n + 1, r);
    }
  }

  /** Each pick is the first candidate that could join those before it. */
  lemma PickOrder(c1: seq<Candidate>, a1: seq<nat>, c2: seq<Candidate>, a2: seq<nat>, ranked: seq<Candidate>, r: Request, k: nat)
    requires Picked(c1, a1, ranked, |ranked|, r) && Picked(c2, a2, ranked, |ranked|, r)
    requires k < |c1| && k < |c2| && c1[..k] == c2[..k]
    ensures a1[k] >= a2[k]
  {
    DiverseApart(c1, r, k);
    hide Clashes, Diverse;
    if a1[k] < a2[k] {
      if ranked[a1[k]] in c2[..k] {
        MemberClashes(ranked[a1[k]], c2[..k], r);
      }
    }
  }

  lemma SamePick(c1: seq<Candidate>, a1: seq<nat>, c2: seq<Candidate>, a2: seq<nat>, ranked: seq<Candidate>, r: Request, k: nat)
    requires Picked(c1, a1, ranked, |ranked|, r) && Picked(c2, a2, ranked, |ranked|, r)
    requires k < |c1| && k < |c2| && c1[..k] == c2[..k]
    ensures c1[k] == c2[k]
  {
    PickOrder(c1, a1, c2, a2, ranked, r, k);
    PickOrder(c2, a2, c1, a1, ranked, r, k);
    hide Clashes, Diverse;
    assert ranked[a1[k]] == c1[k] && ranked[a2[k]] == c2[k];
  }

  lemma PickLength(c1: seq<Candidate>, a1: seq<nat>, c2: seq<Candidate>, a2: seq<nat>, ranked: seq<Candidate>, r: Request)
    requires Picked(c1, a1, ranked, |ranked|, r) && Picked(c2, a2, ranked, |ranked|, r)
    requires |c1| <= |c2| && c2[..|c1|] == c1
    ensures |c1| == |c2|
  {
    hide Clashes, Diverse;
    if |c1| < |c2| {
      NextPickFits(c2, a2, ranked, r, |c1|);
      var m := a2[|c1|];
      if ranked[m] in c1 {
        MemberClashes(ranked[m], c1, r);
      }
    }
  }

  lemma NextPickFits(chosen: seq<Candidate>, at: seq<nat>, ranked: seq<Candidate>, r: Request, k: nat)
    requires Picked(chosen, at, ranked, |ranked|, r) && k < |chosen|
    ensures !Clashes(chosen[k], chosen[..k], r)
  {
    DiverseApart(chosen, r, k);
  }

  lemma {:induction false} SamePrefix(c1: seq<Candidate>, a1: seq<nat>, c2: seq<Candidate>, a2: seq<nat>,
                                      ranked: seq<Candidate>, r: Request, k: nat)
    requires Picked(c1, a1, ranked, |ranked|, r) && Picked(c2, a2, ranked, |ranked|, r)
    requires k <= |c1| && k <= |c2|
    ensures c1[..k] == c2[..k]
  {
    hide Picked;
    if k > 0 {
      SamePrefix(c1, a1, c2, a2, ranked, r, k - 1);
      SamePick(c1, a1, c2, a2, ranked, r, k - 1);
      assert c1[..k] == c1[..k - 1] + [c1[k - 1]] && c2[..k] == c2[..k - 1] + [c2[k - 1]];
    }
  }

  /** A ranking has one greedy pick. */
  lemma PickedUnique(c1: seq<Candidate>, a1: seq<nat>, c2: seq<Candidate>, a2: seq<nat>, ranked: seq<Candidate>, r: Request)
    requires Picked(c1, a1, ranked, |ranked|, r) && Picked(c2, a2, ranked, |ranked|, r)
    ensures c1 == c2
  {
    hide Picked;
    SamePrefix(c1, a1, c2, a2, ranked, r, Min(|c1|, |c2|));
    if |c1| <= |c2| {
      assert c1[..|c1|] == c1;
      PickLength(c1, a1, c2, a2, ranked, r);
      assert c2[..|c2|] == c2;
    } else {
      assert c2[..|c2|] == c2;
      PickLength(c2, a2, c1, a1, ranked, r);
    }
  }

  lemma EnoughPicked(chosen: seq<Candidate>, at: seq<nat>, ranked: seq<Candidate>, n: nat, r: Request)
    requires n <= |ranked| && Picked(chosen, at, ranked, n, r) && |chosen| >= HopsOf(r)
    ensures !FallsShort(ranked, r)
  {
    hide Picked, HopsOf;
    var more, places := PickRest(chosen, at, ranked, n, r);
    forall other, elsewhere | Picked(other, elsewhere, ranked, |ranked|, r) ensures other == more {
      PickedUnique(other, elsewhere, more, places, ranked, r);
    }
  }

  /** Greedy picking always has a result. */
  lemma {:induction false} PickAll(ranked: seq<Candidate>, n: nat, r: Request) returns (chosen: seq<Candidate>, at: seq<nat>)
    requires n <= |ranked|
    ensures Picked(chosen, at, ranked, n, r)
  {
    hide Picked, Clashes;
    if n == 0 {
      PickedNone(ranked, r);
      chosen, at := [], [];
    } else {
      chosen, at := PickAll(ranked, n - 1, r);
      if Clashes(ranked[n - 1], chosen, r) {
        PickedStays(chosen, at, ranked, n - 1, r);
      } else {
        PickedGrows(chosen, at, ranked, n - 1, r);
        chosen, at := chosen + [ranked[n - 1]], at + [n - 1];
      }
    }
  }

  lemma PickedOnlyRanked(chosen: seq<Candidate>, at: seq<nat>, ranked: seq<Candidate>, r: Request)
    requires Picked(chosen, at, ranked, |ranked|, r)
    ensures |chosen| <= |Operators(ranked)|
  {
    PickedDiverse(chosen, at, ranked, |ranked|, r);
    DiverseCounts(chosen, r);
    forall i | 0 <= i < |chosen| ensures chosen[i].operator in Operators(ranked) {
      assert ranked[at[i]] == chosen[i];
    }
    SubsetSize(Operators(chosen), Operators(ranked));
  }

  lemma PickedNone(ranked: seq<Candidate>, r: Request)
    ensures Picked([], [], ranked, 0, r)
  {
  }

  lemma PickedDiverse(chosen: seq<Candidate>, at: seq<nat>, ranked: seq<Candidate>, n: nat, r: Request)
    requires n <= |ranked| && Picked(chosen, at, ranked, n, r)
    ensures Diverse(chosen, r)
  {
  }

  // ---- when there is a route at all --------------------------------------------------------------

  /** Too few operators among the usable candidates really means that no valid route
      exists, with the fault-domain rule or without. */
  lemma TooFewMeansNone(cs: seq<Candidate>, r: Request, route: seq<Candidate>)
    requires ValidRoute(route, cs, r)
    ensures |Operators(Filtered(cs, r))| >= HopsOf(r)
  {
    hide Filtered, Usable;
    DiverseCounts(route, r);
    forall i | 0 <= i < |route| ensures route[i].operator in Operators(Filtered(cs, r)) {
      FilteredExactly(cs, r, route[i]);
      var j :| 0 <= j < |Filtered(cs, r)| && Filtered(cs, r)[j] == route[i];
    }
    SubsetSize(Operators(route), Operators(Filtered(cs, r)));
  }

  lemma {:induction false} SubsetSize(a: set<string>, b: set<string>)
    requires a <= b
    ensures |a| <= |b|
    decreases a
  {
    if a != {} {
      var x :| x in a;
      SubsetSize(a - {x}, b - {x});
    }
  }

  /** With the fault-domain rule the greedy pick can refuse although a valid route exists:
      the best candidate takes both the operator and the domain the others needed. That
      takes a domain shared between two operators. */
  lemma GreedyCanMissARoute(best: Candidate, second: Candidate, third: Candidate, r: Request)
    requires Usable(best, r) && Usable(second, r) && Usable(third, r)
    requires HopsOf(r) == 2 && r.distinctDomains
    requires best.operator == second.operator != third.operator
    requires best.faultDomain == third.faultDomain != "" && second.faultDomain != third.faultDomain
    ensures ValidRoute([second, third], [best, second, third], r)
    ensures Operators([best, second, third]) == {best.operator, third.operator}
    ensures forall chosen, at :: Picked(chosen, at, [best, second, third], 3, r) ==> chosen == [best]
  {
    var ranked := [best, second, third];
    forall chosen, at | Picked(chosen, at, ranked, 3, r) ensures chosen == [best] {
      OnlyBest(best, second, third, r, chosen, at);
    }
    assert ranked[0] == best && ranked[1] == second && ranked[2] == third;
    forall x | x in {best.operator, third.operator} ensures x in Operators(ranked) {
      assert ranked[0].operator == best.operator && ranked[2].operator == third.operator;
    }
  }

  lemma OnlyBest(best: Candidate, second: Candidate, third: Candidate, r: Request, chosen: seq<Candidate>, at: seq<nat>)
    requires r.distinctDomains
    requires best.operator == second.operator != third.operator
    requires best.faultDomain == third.faultDomain != "" && second.faultDomain != third.faultDomain
    requires Picked(chosen, at, [best, second, third], 3, r)
    ensures chosen == [best]
  {
    var ranked := [best, second, third];
    assert ranked[0] == best && ranked[1] == second && ranked[2] == third;
    assert !Clashes(best, [], r);
    assert chosen[..0] == [];
    if chosen == [] {
      assert false;
    }
    if at[0] > 0 {
      assert false;
    }
    LastIsFirst(chosen, ranked, r, |chosen| - 1);
  }

  lemma LastIsFirst(chosen: seq<Candidate>, ranked: seq<Candidate>, r: Request, k: nat)
    requires r.distinctDomains && Diverse(chosen, r) && k < |chosen|
    requires chosen[k] in ranked && chosen[0].faultDomain != ""
    requires forall c :: c in ranked ==> c.operator == chosen[0].operator || c.faultDomain == chosen[0].faultDomain
    ensures k == 0
  {
  }

  // ---- when every ranking finds a route -----------------------------------------------------------

  /** A diverse selection that no usable candidate could join. */
  ghost predicate Maximal(chosen: seq<Candidate>, usable: seq<Candidate>, r: Request) {
    && Diverse(chosen, r)
    && (forall i :: 0 <= i < |chosen| ==> chosen[i] in usable)
    && forall i :: 0 <= i < |usable| ==> Clashes(usable[i], chosen, r) || usable[i] in chosen
  }

  ghost predicate SameCandidates(a: seq<Candidate>, b: seq<Candidate>) {
    multiset(a) == multiset(b)
  }

  lemma SameMembers(a: seq<Candidate>, b: seq<Candidate>, c: Candidate)
    requires SameCandidates(a, b)
    ensures c in a <==> c in b
  {
    assert c in multiset(a) <==> c in multiset(b);
  }

  lemma PickedIsMaximal(chosen: seq<Candidate>, at: seq<nat>, ranked: seq<Candidate>, usable: seq<Candidate>, r: Request)
    requires SameCandidates(ranked, usable) && Picked(chosen, at, ranked, |ranked|, r)
    ensures Maximal(chosen, usable, r)
  {
    hide Clashes, Diverse, SameCandidates;
    forall i | 0 <= i < |chosen| ensures chosen[i] in usable {
      assert ranked[at[i]] in ranked;
      SameMembers(ranked, usable, chosen[i]);
    }
    forall i | 0 <= i < |usable| ensures Clashes(usable[i], chosen, r) || usable[i] in chosen {
      SameMembers(ranked, usable, usable[i]);
      var m :| 0 <= m < |ranked| && ranked[m] == usable[i];
      assert Clashes(ranked[m], chosen, r) || ranked[m] in chosen;
    }
  }

  /** The candidates in another order, with `first` in front. */
  lemma {:induction false} InFront(first: seq<Candidate>, usable: seq<Candidate>) returns (rest: seq<Candidate>)
    requires (forall i :: 0 <= i < |first| ==> first[i] in usable) && forall i, j :: 0 <= i < j < |first| ==> first[i] != first[j]
    ensures SameCandidates(first + rest, usable)
  {
    if first == [] {
      rest := usable;
      assert first + rest == usable;
    } else {
      var n := |first| - 1;
      var before := InFront(first[..n], usable);
      SameMembers(first[..n] + before, usable, first[n]);
      var k :| 0 <= k < |before| && before[k] == first[n];
      rest := before[..k] + before[k + 1..];
      assert before == before[..k] + [before[k]] + before[k + 1..];
      assert first == first[..n] + [first[n]];
      assert multiset(first + rest) == multiset(first[..n]) + multiset{first[n]} + multiset(before[..k]) + multiset(before[k + 1..]);
    }
  }

  lemma DiverseApart(chosen: seq<Candidate>, r: Request, k: nat)
    requires Diverse(chosen, r) && k < |chosen|
    ensures !Clashes(chosen[k], chosen[..k], r) && Diverse(chosen[..k], r)
  {
  }

  lemma {:induction false} PicksFront(chosen: seq<Candidate>, ranked: seq<Candidate>, r: Request, k: nat) returns (at: seq<nat>)
    requires Diverse(chosen, r) && k <= |chosen| <= |ranked| && ranked[..|chosen|] == chosen
    ensures Picked(chosen[..k], at, ranked, k, r)
  {
    hide Picked, Clashes, Diverse;
    if k == 0 {
      PickedNone(ranked, r);
      at := [];
    } else {
      at := PicksFront(chosen, ranked, r, k - 1);
      DiverseApart(chosen, r, k - 1);
      assert ranked[k - 1] == chosen[k - 1] && chosen[..k - 1] + [chosen[k - 1]] == chosen[..k];
      PickedGrows(chosen[..k - 1], at, ranked, k - 1, r);
      at := at + [k - 1];
    }
  }

  lemma {:induction false} PicksNoMore(chosen: seq<Candidate>, at: seq<nat>, ranked: seq<Candidate>, n: nat, r: Request)
    requires |chosen| <= n <= |ranked| && Picked(chosen, at, ranked, |chosen|, r)
    requires forall m :: |chosen| <= m < n ==> Clashes(ranked[m], chosen, r)
    ensures Picked(chosen, at, ranked, n, r)
  {
    hide Picked, Clashes;
    if |chosen| < n {
      PicksNoMore(chosen, at, ranked, n - 1, r);
      PickedStays(chosen, at, ranked, n - 1, r);
    }
  }

  lemma MemberClashes(c: Candidate, chosen: seq<Candidate>, r: Request)
    requires c in chosen
    ensures Clashes(c, chosen, r)
  {
    var i :| 0 <= i < |chosen| && chosen[i] == c;
    assert chosen[i].operator in Operators(chosen);
  }

  /** A maximal selection is what the ranking with its members in front picks. */
  lemma MaximalIsPicked(chosen: seq<Candidate>, usable: seq<Candidate>, r: Request)
    returns (ranked: seq<Candidate>, at: seq<nat>)
    requires Maximal(chosen, usable, r)
    ensures SameCandidates(ranked, usable) && Picked(chosen, at, ranked, |ranked|, r)
  {
    var rest := InFront(chosen, usable);
    ranked := chosen + rest;
    hide Picked, Clashes, Diverse, SameCandidates;
    at := PicksFront(chosen, ranked, r, |chosen|);
    assert chosen[..|chosen|] == chosen;
    forall m | |chosen| <= m < |ranked| ensures Clashes(ranked[m], chosen, r) {
      assert ranked[m] in ranked;
      SameMembers(ranked, usable, ranked[m]);
      var i :| 0 <= i < |usable| && usable[i] == ranked[m];
      if ranked[m] in chosen {
        MemberClashes(ranked[m], chosen, r);
      }
    }
    PicksNoMore(chosen, at, ranked, |ranked|, r);
  }

  /** Every ranking finds a route exactly when every diverse selection that cannot be
      extended has at least as many candidates as asked for. */
  lemma EveryRankingFinds(usable: seq<Candidate>, r: Request)
    ensures (forall ranked :: SameCandidates(ranked, usable) ==> !FallsShort(ranked, r))
            <==> (forall chosen :: Maximal(chosen, usable, r) ==> |chosen| >= HopsOf(r))
  {
    hide Picked, Maximal, SameCandidates, HopsOf;
    forall ranked, chosen, at | SameCandidates(ranked, usable) && Picked(chosen, at, ranked, |ranked|, r)
      ensures Maximal(chosen, usable, r)
    {
      PickedIsMaximal(chosen, at, ranked, usable, r);
    }
    forall chosen | Maximal(chosen, usable, r) && |chosen| < HopsOf(r)
      ensures exists ranked :: SameCandidates(ranked, usable) && FallsShort(ranked, r)
    {
      var ranked, at := MaximalIsPicked(chosen, usable, r);
      assert FallsShort(ranked, r);
    }
  }
}
