/** One payment split into fragments, each bound to its own channel, lock and secret. */
module MultipathPayment {
  import opened Common
  import opened Bytes
  import opened Symbols

  datatype Leg = Leg(index: nat, channel: Term, amount: int, expiry: int, intent: Term, hash: Term, lockId: Term)

  datatype Payment = Payment(id: Term, total: int, deadline: int, legs: seq<Leg>)

  datatype BuildError = NoFragments | NotPositive | DuplicateChannel | ExpiryUnsafe | NotConserving

  function FragmentIntent(payment: Term, index: nat, channel: Term, amount: int): Term {
    Derived("rabbiit/multipath/intent/v1",
            [payment, Raw(BigEndian(index, 32)), channel, Raw(Minimal(Magnitude(amount)))])
  }

  function FragmentPreimage(secret: Term, intent: Term): Term {
    Derived("rabbiit/multipath/preimage/v2", [secret, intent])
  }

  function FragmentHash(secret: Term, intent: Term): Term {
    Keccak(FragmentPreimage(secret, intent))
  }

  function LockIdOf(intent: Term): Term {
    Derived("rabbiit/multipath/lock/v1", [intent])
  }

  function SettleIntent(intent: Term): Term {
    Derived("rabbiit/multipath/settle/v1", [intent])
  }

  function RefundIntent(intent: Term): Term {
    Derived("rabbiit/multipath/refund/v1", [intent])
  }

  function LegOf(id: Term, secret: Term, index: nat, channel: Term, amount: int, expiry: int): Leg {
    var intent := FragmentIntent(id, index, channel, amount);
    Leg(index, channel, amount, expiry, intent, FragmentHash(secret, intent), LockIdOf(intent))
  }

  function Sum(amounts: seq<int>): int {
    if amounts == [] then 0 else Sum(amounts[..|amounts| - 1]) + amounts[|amounts| - 1]
  }

  ghost predicate GoodFragments(channels: seq<Term>, amounts: seq<int>, expiries: seq<int>, deadline: int) {
    && |channels| >= 2 && |channels| == |amounts| == |expiries|
    && (forall i :: 0 <= i < |amounts| ==> amounts[i] > 0)
    && Distinct(channels)
    && (forall i :: 0 <= i < |expiries| ==> 0 < expiries[i] <= deadline)
  }

  /** Builds a payment exactly when every fragment is positive, expires in time and
      has its own channel, and the fragments add up to the total. */
  method BuildPayment(id: Term, secret: Term, total: int, deadline: int,
                      channels: seq<Term>, amounts: seq<int>, expiries: seq<int>)
    returns (r: Result<Payment, BuildError>)
    ensures r.Ok? <==> GoodFragments(channels, amounts, expiries, deadline) && Sum(amounts) == total
    ensures r == Err(NotConserving) <==>
              GoodFragments(channels, amounts, expiries, deadline) && Sum(amounts) != total
    ensures r == Err(NoFragments) <==> |channels| < 2 || |channels| != |amounts| || |channels| != |expiries|
    ensures r.Ok? ==>
              && r.value.id == id && r.value.total == total && r.value.deadline == deadline
              && |r.value.legs| == |channels|
              && forall i :: 0 <= i < |channels| ==>
                   r.value.legs[i] == LegOf(id, secret, i, channels[i], amounts[i], expiries[i])
    ensures r.Ok? ==>
              forall i :: 0 <= i < |channels| ==>
                var leg := r.value.legs[i];
                && leg.index == i && leg.channel == channels[i] && leg.amount == amounts[i] && leg.expiry == expiries[i]
                && leg.intent == FragmentIntent(id, i, channels[i], amounts[i])
                && leg.hash == Keccak(FragmentPreimage(secret, leg.intent)) && leg.lockId == LockIdOf(leg.intent)
  {
    hide FragmentIntent, FragmentPreimage, LockIdOf;
    if |channels| < 2 || |channels| != |amounts| || |channels| != |expiries| {
      return Err(NoFragments);
    }
    var seen := {};
    var sum := 0;
    var legs := [];
    for i := 0 to |channels|
      invariant forall c :: c in seen <==> exists j :: 0 <= j < i && channels[j] == c
      invariant forall j, k :: 0 <= j < k < i ==> channels[j] != channels[k]
      invariant forall j :: 0 <= j < i ==> amounts[j] > 0 && 0 < expiries[j] <= deadline
      invariant sum == Sum(amounts[..i])
      invariant |legs| == i
      invariant forall j :: 0 <= j < i ==> legs[j] == LegOf(id, secret, j, channels[j], amounts[j], expiries[j])
    {
      if amounts[i] <= 0 {
        return Err(NotPositive);
      }
      if channels[i] in seen {
        var j :| 0 <= j < i && channels[j] == channels[i];
        return Err(DuplicateChannel);
      }
      seen := seen + {channels[i]};
      if expiries[i] <= 0 || expiries[i] > deadline {
        return Err(ExpiryUnsafe);
      }
      legs := legs + [LegOf(id, secret, i, channels[i], amounts[i], expiries[i])];
      assert amounts[..i + 1][..i] == amounts[..i];
      sum := sum + amounts[i];
    }
    assert channels[..|channels|] == channels && amounts[..|amounts|] == amounts;
    if sum != total {
      return Err(NotConserving);
    }
    return Ok(Payment(id, total, deadline, legs));
  }

  /** A fragment's lock opens with one preimage only, and that preimage belongs to
      one secret, payment, position, channel and amount: neither another payment nor
      another split of the same payment can open it. */
  lemma FragmentHashIdentifies(s1: Term, p1: Term, i1: nat, c1: Term, a1: int,
                               s2: Term, p2: Term, i2: nat, c2: Term, a2: int)
    requires a1 > 0 && a2 > 0 && i1 < Pow256(32) && i2 < Pow256(32)
    ensures FragmentHash(s1, FragmentIntent(p1, i1, c1, a1)) == Keccak(FragmentPreimage(s2, FragmentIntent(p2, i2, c2, a2)))
            <==> s1 == s2 && p1 == p2 && i1 == i2 && c1 == c2 && a1 == a2
  {
    var x1, x2 := FragmentIntent(p1, i1, c1, a1), FragmentIntent(p2, i2, c2, a2);
    if FragmentHash(s1, x1) == FragmentHash(s2, x2) {
      assert [s1, x1][0] == [s2, x2][0] && [s1, x1][1] == [s2, x2][1];
      FragmentIntentIdentifies(p1, i1, c1, a1, p2, i2, c2, a2);
    }
  }

  lemma FragmentIntentIdentifies(p1: Term, i1: nat, c1: Term, a1: int, p2: Term, i2: nat, c2: Term, a2: int)
    requires a1 > 0 && a2 > 0 && i1 < Pow256(32) && i2 < Pow256(32)
    requires FragmentIntent(p1, i1, c1, a1) == FragmentIntent(p2, i2, c2, a2)
    ensures p1 == p2 && i1 == i2 && c1 == c2 && a1 == a2
  {
    var q1 := [p1, Raw(BigEndian(i1, 32)), c1, Raw(Minimal(a1))];
    var q2 := [p2, Raw(BigEndian(i2, 32)), c2, Raw(Minimal(a2))];
    assert q1[0] == q2[0] && q1[1] == q2[1] && q1[2] == q2[2] && q1[3] == q2[3];
    BigEndianInjective(i1, i2, 32);
    MinimalInjective(a1, a2);
  }

  /** Locking, settling and refunding a fragment never share an intent. */
  lemma LegIntentsDistinct(p: Term, i: nat, c: Term, a: int)
    ensures var x := FragmentIntent(p, i, c, a);
            x != SettleIntent(x) && x != RefundIntent(x) && SettleIntent(x) != RefundIntent(x)
  {
    assert "rabbiit/multipath/intent/v1"[18] != "rabbiit/multipath/settle/v1"[18];
    assert "rabbiit/multipath/intent/v1"[18] != "rabbiit/multipath/refund/v1"[18];
    assert "rabbiit/multipath/settle/v1"[18] != "rabbiit/multipath/refund/v1"[18];
  }
}
