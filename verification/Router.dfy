/** One forwarding hop: replay guards, the in-flight limit and the expiry margin. */
module Router {
  import opened Common

  type Guard = nat
  type Thread = nat

  const NANOS: nat := 1_000_000_000

  const MIN_INT64: int := -0x8000_0000_0000_0000
  const MAX_INT64: int := 0x7fff_ffff_ffff_ffff

  /** What 64-bit signed arithmetic keeps of a number. */
  function Wrap64(n: int): (w: int)
    ensures MIN_INT64 <= w <= MAX_INT64
    ensures MIN_INT64 <= n <= MAX_INT64 ==> w == n
  {
    var low := n % 0x1_0000_0000_0000_0000;
    if low <= MAX_INT64 then low else low - 0x1_0000_0000_0000_0000
  }

  /** Seconds from the start of year 1, from which Go counts inside a time, to 1970. */
  const UNIX_TO_INTERNAL: int := 62135596800

  /** The Unix second of the time that Go makes of an expiry. Converting the uint64 and
      moving to the inner count both wrap. */
  function Instant(expiry: nat): (i: int)
    ensures expiry <= MAX_INT64 - UNIX_TO_INTERNAL ==> i == expiry
  {
    Wrap64(expiry + UNIX_TO_INTERNAL) - UNIX_TO_INTERNAL
  }

  /** Go's difference of two whole-second times in nanoseconds: it wraps in the seconds,
      and saturates when they do not fit a duration. */
  function Elapsed(t: int, u: int): int {
    var d := Wrap64(t - u) * NANOS;
    if MIN_INT64 <= d <= MAX_INT64 then d else if t < u then MIN_INT64 else MAX_INT64
  }

  datatype Policy = Policy(marginNanos: int, maxInFlight: int, maxValue: int)

  /** Unset limits fall back to ten minutes and twenty payments. */
  function Effective(p: Policy): Policy {
    p.(marginNanos := if p.marginNanos <= 0 then 600 * NANOS else p.marginNanos,
       maxInFlight := if p.maxInFlight <= 0 then 20 else p.maxInFlight)
  }

  /** What the router learned by peeling its layer. */
  datatype Hop = Hop(guard: Guard, outgoingExpiry: nat)

  datatype Failure = NotPeeled | Replayed | TooManyInFlight | ExpiredHop | ExpiryTooTight | NoLiquidity

  /** The check that consults state. */
  function StateRefusal(p: Policy, inFlight: map<Guard, int>, seen: set<Guard>, guard: Guard): Option<Failure> {
    if guard in seen then Some(Replayed)
    else if |inFlight| >= p.maxInFlight then Some(TooManyInFlight)
    else None
  }

  /** The checks that consult only the packet, the clock and the balance. Expiries are
      whole seconds, so of the clock only the second it is in matters. */
  function HopRefusal(p: Policy, hop: Hop, packetExpiry: nat, outbound: int, now: int): Option<Failure> {
    if Instant(hop.outgoingExpiry) <= now then Some(ExpiredHop)
    else if Elapsed(Instant(packetExpiry), Instant(hop.outgoingExpiry)) < p.marginNanos then Some(ExpiryTooTight)
    else if p.maxValue > 0 && outbound < p.maxValue && outbound <= 0 then Some(NoLiquidity)
    else if outbound <= 0 then Some(NoLiquidity)
    else None
  }

  /** Whether a second fits the time arithmetic without wrapping. */
  predicate Ordinary(expiry: nat) {
    expiry <= MAX_INT64 - UNIX_TO_INTERNAL
  }

  /** Between ordinary expiries a hop is taken exactly when it has not expired, the packet
      outlives it by the margin or more, and there is liquidity towards the next hop; each
      refusal has its own cause. */
  lemma HopsExactly(p: Policy, hop: Hop, packetExpiry: nat, outbound: int, now: int)
    requires Ordinary(hop.outgoingExpiry) && Ordinary(packetExpiry) && 0 < p.marginNanos <= MAX_INT64
    ensures var r := HopRefusal(p, hop, packetExpiry, outbound, now);
            var alive := now < hop.outgoingExpiry;
            var roomy := (packetExpiry - hop.outgoingExpiry) * 1_000_000_000 >= p.marginNanos;
            && (r.None? <==> alive && roomy && outbound > 0)
            && (r == Some(ExpiredHop) <==> !alive)
            && (r == Some(ExpiryTooTight) <==> alive && !roomy)
            && (r == Some(NoLiquidity) <==> alive && roomy && outbound <= 0)
  {
    ElapsedSaturates(packetExpiry, hop.outgoingExpiry);
  }

  lemma ElapsedSaturates(t: int, u: int)
    requires 0 <= t <= MAX_INT64 && 0 <= u <= MAX_INT64
    ensures var exact := (t - u) * NANOS;
            && (MIN_INT64 <= exact <= MAX_INT64 ==> Elapsed(t, u) == exact)
            && (exact > MAX_INT64 ==> Elapsed(t, u) == MAX_INT64)
            && (exact < MIN_INT64 ==> Elapsed(t, u) == MIN_INT64)
  {
  }

  /** Without a hop that is refused, a guard is taken exactly when it is new and a place is
      free. */
  lemma GuardsExactly(p: Policy, inFlight: map<Guard, int>, seen: set<Guard>, guard: Guard)
    ensures var r := StateRefusal(p, inFlight, seen, guard);
            && (r.None? <==> guard !in seen && |inFlight| < p.maxInFlight)
            && (r == Some(Replayed) <==> guard in seen)
            && (r == Some(TooManyInFlight) <==> guard !in seen && |inFlight| >= p.maxInFlight)
  {
  }

  /** The configured maximum never changes an outcome: its test is implied by the next one. */
  lemma MaxValueNeverMatters(p: Policy, maxValue: int, hop: Hop, packetExpiry: nat, outbound: int, now: int)
    ensures HopRefusal(p.(maxValue := maxValue), hop, packetExpiry, outbound, now)
            == HopRefusal(p, hop, packetExpiry, outbound, now)
  {
  }

  function Without(inFlight: map<Guard, int>, now: int): map<Guard, int> {
    map g | g in inFlight && inFlight[g] > now :: inFlight[g]
  }

  class Forwarder {
    const policy: Policy
    var inFlight: map<Guard, int>
    var seen: set<Guard>
    var forwarded: nat
    var refused: nat

    constructor (p: Policy)
      ensures policy == Effective(p) && policy.marginNanos > 0 && policy.maxInFlight > 0
      ensures policy.marginNanos == if p.marginNanos > 0 then p.marginNanos else 600_000_000_000
      ensures policy.maxInFlight == if p.maxInFlight > 0 then p.maxInFlight else 20
      ensures inFlight == map[] && seen == {} && forwarded == 0 && refused == 0
    {
      policy := Effective(p);
      inFlight, seen, forwarded, refused := map[], {}, 0, 0;
    }

    /** One call with no other running. Onward, the packet expires when the hop's own
        lock does. */
    method Forward(hop: Option<Hop>, packetExpiry: nat, outbound: int, now: int) returns (r: Result<nat, Failure>)
      modifies this
      ensures r.Ok? <==> hop.Some? && StateRefusal(policy, old(inFlight), old(seen), hop.value.guard).None?
                         && HopRefusal(policy, hop.value, packetExpiry, outbound, now).None?
      ensures r.Ok? ==> r.value == hop.value.outgoingExpiry
                        && inFlight == old(inFlight)[hop.value.guard := Instant(hop.value.outgoingExpiry)]
                        && seen == old(seen) + {hop.value.guard}
                        && forwarded == old(forwarded) + 1 && refused == old(refused)
      ensures r.Err? ==> inFlight == old(inFlight) && seen == old(seen)
                         && forwarded == old(forwarded) && refused == old(refused) + 1
      ensures r == Err(NotPeeled) <==> hop.None?
      ensures hop.Some? && old(hop.value.guard in seen) ==> r == Err(Replayed)
      ensures hop.Some? && old(hop.value.guard !in seen && |inFlight| >= policy.maxInFlight) ==> r == Err(TooManyInFlight)
      ensures hop.Some? && old(hop.value.guard !in seen && |inFlight| < policy.maxInFlight)
                && HopRefusal(policy, hop.value, packetExpiry, outbound, now).Some? ==>
                r == Err(HopRefusal(policy, hop.value, packetExpiry, outbound, now).value)
      ensures old(inFlight.Keys <= seen && |inFlight| <= policy.maxInFlight)
              ==> inFlight.Keys <= seen && |inFlight| <= policy.maxInFlight
    {
      if hop.None? {
        refused := refused + 1;
        return Err(NotPeeled);
      }
      var late := StateRefusal(policy, inFlight, seen, hop.value.guard);
      if late.Some? {
        refused := refused + 1;
        return Err(late.value);
      }
      var unfit := HopRefusal(policy, hop.value, packetExpiry, outbound, now);
      if unfit.Some? {
        refused := refused + 1;
        return Err(unfit.value);
      }
      SizeAfter(inFlight, hop.value.guard, Instant(hop.value.outgoingExpiry));
      inFlight := inFlight[hop.value.guard := Instant(hop.value.outgoingExpiry)];
      seen := seen + {hop.value.guard};
      forwarded := forwarded + 1;
      return Ok(hop.value.outgoingExpiry);
    }

    /** The lock goes, the guard stays. */
    method Resolve(guard: Guard)
      modifies this`inFlight
      ensures inFlight == old(inFlight) - {guard}
    {
      inFlight := inFlight - {guard};
    }

    method ExpireStale(now: int) returns (n: nat)
      modifies this`inFlight
      ensures inFlight == Without(old(inFlight), now)
      ensures forall g :: g in inFlight <==> g in old(inFlight) && old(inFlight)[g] > now
      ensures n == |old(inFlight)| - |inFlight|
    {
      n := 0;
      var left := inFlight.Keys;
      ghost var dropped: set<Guard> := {};
      while left != {}
        invariant left <= inFlight.Keys
        invariant inFlight == old(inFlight) - dropped && dropped <= old(inFlight).Keys && n == |dropped|
        invariant forall g :: g in old(inFlight) && g !in left ==> (g in dropped <==> old(inFlight)[g] <= now)
        invariant forall g :: g in left ==> g !in dropped
        decreases |left|
      {
        var g :| g in left;
        if inFlight[g] <= now {
          inFlight := inFlight - {g};
          dropped := dropped + {g};
          n := n + 1;
        }
        left := left - {g};
      }
      SizeWithout(old(inFlight), dropped);
    }
  }

  lemma SizeAfter(m: map<Guard, int>, g: Guard, e: int)
    ensures |m[g := e]| == if g in m then |m| else |m| + 1
  {
    assert m[g := e].Keys == m.Keys + {g};
    assert |m| == |m.Keys| && |m[g := e]| == |m[g := e].Keys|;
  }

  lemma SizeWithout(m: map<Guard, int>, dropped: set<Guard>)
    requires dropped <= m.Keys
    ensures |m - dropped| == |m| - |dropped|
  {
    assert (m - dropped).Keys == m.Keys - dropped;
    assert |m| == |m.Keys| && |m - dropped| == |(m - dropped).Keys|;
  }

  lemma SizeShrinks(m: map<Guard, int>, m': map<Guard, int>)
    requires m'.Keys <= m.Keys
    ensures |m'| <= |m|
  {
    SizeWithout(m, m.Keys - m'.Keys);
    assert (m - (m.Keys - m'.Keys)).Keys == m'.Keys;
    assert |m'| == |m'.Keys| && |m - (m.Keys - m'.Keys)| == |(m - (m.Keys - m'.Keys)).Keys|;
  }

  // ---- overlapping calls, one critical section at a time -------------------------------------

  /** `pending` holds the calls that passed the state check and have not recorded their
      lock yet; `accepted` is every guard ever forwarded, in order. */
  datatype Shared = Shared(inFlight: map<Guard, int>, seen: set<Guard>, pending: map<Thread, Hop>, accepted: seq<Guard>)

  datatype Step =
    | Check(t: Thread, hop: Hop, packetExpiry: nat, outbound: int, now: int)
    | Record(t: Thread)
    | Resolve(guard: Guard)
    | ExpireStale(now: int)

  const START := Shared(map[], {}, map[], [])

  function Next(p: Policy, s: Shared, step: Step): Shared {
    match step
    case Check(t, hop, packetExpiry, outbound, now) =>
      if t in s.pending || StateRefusal(p, s.inFlight, s.seen, hop.guard).Some?
         || HopRefusal(p, hop, packetExpiry, outbound, now).Some?
      then s
      else s.(pending := s.pending[t := hop])
    case Record(t) =>
      if t !in s.pending then s
      else
        var hop := s.pending[t];
        Shared(s.inFlight[hop.guard := Instant(hop.outgoingExpiry)], s.seen + {hop.guard},
               s.pending - {t}, s.accepted + [hop.guard])
    case Resolve(guard) => s.(inFlight := s.inFlight - {guard})
    case ExpireStale(now) => s.(inFlight := Without(s.inFlight, now))
  }

  function Run(p: Policy, steps: seq<Step>): Shared {
    if steps == [] then START else Next(p, Run(p, steps[..|steps| - 1]), steps[|steps| - 1])
  }

  lemma RunPrefix(p: Policy, steps: seq<Step>, i: nat)
    requires i < |steps|
    ensures Run(p, steps[..i + 1]) == Next(p, Run(p, steps[..i]), steps[i])
  {
    assert steps[..i + 1][..i] == steps[..i];
  }

  /** At most `k` calls are past their check and before their record at any time. */
  ghost predicate AtMost(p: Policy, steps: seq<Step>, k: nat) {
    forall i :: 0 <= i <= |steps| ==> |Run(p, steps[..i]).pending| <= k
  }

  ghost predicate Bounded(p: Policy, s: Shared, k: nat) {
    && s.inFlight.Keys <= s.seen
    && (|s.inFlight| + |s.pending| <= p.maxInFlight - 1 + k)
  }

  lemma PendingSizes(m: map<Thread, Hop>, t: Thread, hop: Hop)
    ensures t !in m ==> |m[t := hop]| == |m| + 1
    ensures t in m ==> |m - {t}| == |m| - 1
  {
    assert m[t := hop].Keys == m.Keys + {t};
    assert (m - {t}).Keys == m.Keys - {t};
    assert |m| == |m.Keys| && |m[t := hop]| == |m[t := hop].Keys| && |m - {t}| == |(m - {t}).Keys|;
  }

  lemma NextBounded(p: Policy, s: Shared, step: Step, k: nat)
    requires p.maxInFlight > 0 && Bounded(p, s, k) && |Next(p, s, step).pending| <= k
    ensures Bounded(p, Next(p, s, step), k)
  {
    hide HopRefusal, Instant, Without;
    match step
    case Check(t, hop, _, _, _) => PendingSizes(s.pending, t, hop);
    case Record(t) =>
      if t in s.pending {
        RecordBounded(p, s, t, k);
      }
    case Resolve(guard) => SizeShrinks(s.inFlight, s.inFlight - {guard});
    case ExpireStale(now) =>
      WithoutShrinks(s.inFlight, now);
      SizeShrinks(s.inFlight, Without(s.inFlight, now));
  }

  lemma WithoutShrinks(m: map<Guard, int>, now: int)
    ensures Without(m, now).Keys <= m.Keys
  {
  }

  lemma RecordBounded(p: Policy, s: Shared, t: Thread, k: nat)
    requires Bounded(p, s, k) && t in s.pending
    ensures Bounded(p, Next(p, s, Record(t)), k)
  {
    hide HopRefusal, Instant, Without, StateRefusal;
    PendingSizes(s.pending, t, s.pending[t]);
    SizeAfter(s.inFlight, s.pending[t].guard, Instant(s.pending[t].outgoingExpiry));
  }

  /** With at most `k` overlapping calls, no run ever holds more than MaxInFlight + k - 1
      locks, and a guard in flight has always been seen. */
  lemma {:induction false} InFlightBound(p: Policy, steps: seq<Step>, k: nat)
    requires p.maxInFlight > 0 && AtMost(p, steps, k)
    ensures Bounded(p, Run(p, steps), k)
  {
    if steps != [] {
      hide Bounded, Next;
      var init := steps[..|steps| - 1];
      forall i | 0 <= i <= |init| ensures |Run(p, init[..i]).pending| <= k {
        assert init[..i] == steps[..i];
      }
      InFlightBound(p, init, k);
      RunPrefix(p, steps, |init|);
      assert steps[..|steps|] == steps;
      NextBounded(p, Run(p, init), steps[|steps| - 1], k);
    } else {
      assert steps[..0] == [];
    }
  }

  // ---- accepted at most once --------------------------------------------------------------------

  /** No call for a guard starts while another for the same guard is between its check
      and its record. Calls that do not overlap at all satisfy this. */
  ghost predicate Apart(s: Shared, step: Step) {
    step.Check? ==> forall t :: t in s.pending ==> s.pending[t].guard != step.hop.guard
  }

  ghost predicate ApartRun(p: Policy, steps: seq<Step>) {
    forall i :: 0 <= i < |steps| ==> Apart(Run(p, steps[..i]), steps[i])
  }

  ghost predicate Once(s: Shared) {
    && (forall g :: g in s.accepted <==> g in s.seen)
    && (forall i, j :: 0 <= i < j < |s.accepted| ==> s.accepted[i] != s.accepted[j])
    && (forall t :: t in s.pending ==> s.pending[t].guard !in s.seen)
    && (forall t, u :: t in s.pending && u in s.pending && t != u ==> s.pending[t].guard != s.pending[u].guard)
  }

  lemma NextOnce(p: Policy, s: Shared, step: Step)
    requires Once(s) && Apart(s, step)
    ensures Once(Next(p, s, step))
  {
    hide HopRefusal;
  }

  /** Then every guard is accepted at most once ever, whatever was resolved or expired. */
  lemma {:induction false} AcceptedOnce(p: Policy, steps: seq<Step>)
    requires ApartRun(p, steps)
    ensures var s := Run(p, steps);
            && (forall i, j :: 0 <= i < j < |s.accepted| ==> s.accepted[i] != s.accepted[j])
            && (forall g :: g in s.accepted <==> g in s.seen)
            && Once(s)
  {
    if steps != [] {
      hide Once, Next, Apart;
      var init := steps[..|steps| - 1];
      forall i | 0 <= i < |init| ensures Apart(Run(p, init[..i]), init[i]) {
        assert init[..i] == steps[..i];
      }
      AcceptedOnce(p, init);
      NextOnce(p, Run(p, init), steps[|steps| - 1]);
    }
    OnceParts(Run(p, steps));
  }

  lemma OnceParts(s: Shared)
    requires Once(s)
    ensures forall i, j :: 0 <= i < j < |s.accepted| ==> s.accepted[i] != s.accepted[j]
    ensures forall g :: g in s.accepted <==> g in s.seen
  {
  }

  lemma RunMore(p: Policy, steps: seq<Step>, e: Step)
    ensures Run(p, steps + [e]) == Next(p, Run(p, steps), e)
  {
    hide Next;
    assert (steps + [e])[..|steps + [e]| - 1] == steps;
  }

  /** Two overlapping calls with one guard are both accepted: neither check sees the
      other's record. The condition above therefore cannot be dropped. */
  lemma OverlappingCallsBothAccepted(p: Policy, steps: seq<Step>, t: Thread, u: Thread, hop: Hop, expiry: nat, outbound: int, now: int)
    requires var s := Run(p, steps);
             && t != u && t !in s.pending && u !in s.pending
             && StateRefusal(p, s.inFlight, s.seen, hop.guard).None?
    requires HopRefusal(p, hop, expiry, outbound, now).None?
    ensures var check1, check2 := Check(t, hop, expiry, outbound, now), Check(u, hop, expiry, outbound, now);
            var s := Run(p, steps);
            var s' := Run(p, steps + [check1] + [check2] + [Record(t)] + [Record(u)]);
            s'.accepted == s.accepted + [hop.guard] + [hop.guard]
  {
    hide HopRefusal, StateRefusal, Run;
    var check1, check2 := Check(t, hop, expiry, outbound, now), Check(u, hop, expiry, outbound, now);
    RunMore(p, steps, check1);
    RunMore(p, steps + [check1], check2);
    RunMore(p, steps + [check1] + [check2], Record(t));
    RunMore(p, steps + [check1] + [check2] + [Record(t)], Record(u));
  }

  // ---- a route of routers --------------------------------------------------------------------------

  /** One router's acceptance of a packet: its policy, and the expiry it sends on. */
  datatype Accept = Accept(policy: Policy, hop: Hop, outbound: int, now: int)

  /** Each router accepts the packet as the previous one sent it on. */
  ghost predicate AcceptedAlong(route: seq<Accept>, expiry: nat) {
    route == [] ||
    (HopRefusal(route[0].policy, route[0].hop, expiry, route[0].outbound, route[0].now).None?
     && AcceptedAlong(route[1..], route[0].hop.outgoingExpiry))
  }

  function FinalExpiry(route: seq<Accept>, expiry: nat): nat {
    if route == [] then expiry else FinalExpiry(route[1..], route[0].hop.outgoingExpiry)
  }

  function Margins(route: seq<Accept>): int {
    if route == [] then 0 else route[0].policy.marginNanos + Margins(route[1..])
  }

  /** A policy as a router uses it: a positive duration. */
  predicate Deployed(p: Policy) {
    0 < p.marginNanos <= MAX_INT64
  }

  ghost predicate AllDeployed(route: seq<Accept>) {
    forall i :: 0 <= i < |route| ==> Deployed(route[i].policy) && route[i].now >= 0
  }

  lemma ElapsedExact(t: int, u: int, margin: int)
    requires MIN_INT64 <= t - u <= MAX_INT64 && 0 < margin <= MAX_INT64
    ensures Elapsed(t, u) >= margin <==> (t - u) * NANOS >= margin
  {
  }

  /** A packet that a router accepts after 1970 leaves it earlier by the margin, exactly
      when the expiry it came with is not one that wrapped to before 1970. */
  lemma AcceptedFalls(a: Accept, expiry: nat)
    requires HopRefusal(a.policy, a.hop, expiry, a.outbound, a.now).None? && Deployed(a.policy) && a.now >= 0
    ensures Instant(a.hop.outgoingExpiry) > 0
    ensures Instant(a.hop.outgoingExpiry) * NANOS + a.policy.marginNanos <= Instant(expiry) * NANOS <==> Instant(expiry) >= 0
  {
    if Instant(expiry) >= 0 {
      InstantBounds(expiry);
      InstantBounds(a.hop.outgoingExpiry);
      hide Instant, Elapsed;
      ElapsedExact(Instant(expiry), Instant(a.hop.outgoingExpiry), a.policy.marginNanos);
    }
  }

  lemma InstantBounds(expiry: nat)
    ensures MIN_INT64 - UNIX_TO_INTERNAL <= Instant(expiry) <= MAX_INT64 - UNIX_TO_INTERNAL
  {
  }

  lemma {:induction false} MarginsPositive(route: seq<Accept>)
    requires AllDeployed(route)
    ensures Margins(route) >= 0
  {
    if route != [] {
      MarginsPositive(route[1..]);
    }
  }

  /** Along any number of accepting routers the expiry falls by at least the sum of their
      margins, exactly when the first of them did not read a wrapped one. */
  lemma {:induction false} ExpiryFalls(route: seq<Accept>, expiry: nat)
    requires AcceptedAlong(route, expiry) && AllDeployed(route)
    ensures route == [] || Instant(FinalExpiry(route, expiry)) > 0
    ensures Instant(FinalExpiry(route, expiry)) * NANOS <= Instant(expiry) * NANOS - Margins(route)
            <==> route == [] || Instant(expiry) >= 0
  {
    hide Instant, HopRefusal;
    if route != [] {
      AcceptedFalls(route[0], expiry);
      ExpiryFalls(route[1..], route[0].hop.outgoingExpiry);
      MarginsPositive(route);
    }
  }

  /** A packet expiry within 62135596800 seconds of 2^63 wraps to the distant past, and the
      wrapped difference to an outgoing lock that never expires passes the margin check. */
  lemma WrappedExpiryIsAccepted(p: Policy, guard: Guard, outbound: int, now: int)
    requires p.marginNanos <= 600 * NANOS && outbound > 0
    requires now < MAX_INT64 - UNIX_TO_INTERNAL - 600
    ensures var out, expiry := MAX_INT64 - UNIX_TO_INTERNAL - 600, MAX_INT64 - UNIX_TO_INTERNAL + 1;
            && HopRefusal(p, Hop(guard, out), expiry, outbound, now).None?
            && Instant(expiry) < 0 < Instant(out)
  {
    var out, expiry := MAX_INT64 - UNIX_TO_INTERNAL - 600, MAX_INT64 - UNIX_TO_INTERNAL + 1;
    assert Instant(expiry) == MIN_INT64 - UNIX_TO_INTERNAL;
    assert Wrap64(Instant(expiry) - Instant(out)) == 601;
  }
}
