/** The state both parties of a channel sign, and the pure rule that produces the
    next one from a payment intent. */
module ChannelState {
  import opened Common
  import opened Symbols

  /** A conditional payment in flight; its id is its key in the pending set. */
  datatype Lock = Lock(hash: Term, amount: int, expiry: int, payerIsA: bool)

  /** The pending set is kept in id order without duplicates, which makes it a map. */
  datatype State = State(nonce: nat, balanceA: int, balanceB: int, pending: map<Term, Lock>)

  datatype Transition =
    | Pay(amount: int)
    | LockAdd(id: Term, hash: Term, amount: int, expiry: int)
    | LockSettle(id: Term, preimage: Term)
    | LockRefund(id: Term)

  datatype Refusal =
    | AmountNotPositive
    | ExpiryPast
    | LockExists
    | NoSuchLock
    | PreimageBad
    | Insufficient

  predicate Matches(lock: Lock, preimage: Term) {
    lock.hash == Keccak(preimage)
  }

  function BalanceOf(s: State, isA: bool): int {
    if isA then s.balanceA else s.balanceB
  }

  function Give(s: State, toA: bool, amount: int): State {
    if toA then s.(balanceA := s.balanceA + amount) else s.(balanceB := s.balanceB + amount)
  }

  function Take(s: State, fromA: bool, amount: int): Result<State, Refusal> {
    if BalanceOf(s, fromA) < amount then Err(Insufficient) else Ok(Give(s, fromA, -amount))
  }

  /** The state that follows `prev` when the party `byA` proposes `t`. */
  function Apply(prev: State, t: Transition, byA: bool): Result<State, Refusal> {
    var next := prev.(nonce := prev.nonce + 1);
    match t
    case Pay(amount) =>
      if amount <= 0 then Err(AmountNotPositive)
      else
        var taken := Take(next, byA, amount);
        if taken.Err? then taken else Ok(Give(taken.value, !byA, amount))
    case LockAdd(id, hash, amount, expiry) =>
      if amount <= 0 then Err(AmountNotPositive)
      else if expiry <= 0 then Err(ExpiryPast)
      else if id in next.pending then Err(LockExists)
      else
        var taken := Take(next, byA, amount);
        if taken.Err? then taken
        else Ok(taken.value.(pending := next.pending[id := Lock(hash, amount, expiry, byA)]))
    case LockSettle(id, preimage) =>
      if id !in next.pending then Err(NoSuchLock)
      else if !Matches(next.pending[id], preimage) then Err(PreimageBad)
      else
        var lock := next.pending[id];
        Ok(Give(next, !lock.payerIsA, lock.amount).(pending := next.pending - {id}))
    case LockRefund(id) =>
      if id !in next.pending then Err(NoSuchLock)
      else
        var lock := next.pending[id];
        Ok(Give(next, lock.payerIsA, lock.amount).(pending := next.pending - {id}))
  }

  // ---- value --------------------------------------------------------------------

  ghost function SomeKey(pending: map<Term, Lock>): (id: Term)
    requires pending != map[]
    ensures id in pending
  {
    var id :| id in pending;
    id
  }

  /** Value committed to pending locks: in neither balance. */
  ghost function Locked(pending: map<Term, Lock>): int
    decreases |pending|
  {
    if pending == map[] then 0
    else
      var id := SomeKey(pending);
      pending[id].amount + Locked(pending - {id})
  }

  lemma {:induction false} LockedTake(pending: map<Term, Lock>, id: Term)
    requires id in pending
    ensures Locked(pending) == pending[id].amount + Locked(pending - {id})
    decreases |pending|
  {
    var first := SomeKey(pending);
    if first != id {
      var both := pending - {first} - {id};
      assert both == pending - {id} - {first};
      LockedTake(pending - {first}, id);
      LockedTake(pending - {id}, first);
    }
  }

  lemma LockedAdd(pending: map<Term, Lock>, id: Term, lock: Lock)
    requires id !in pending
    ensures Locked(pending[id := lock]) == lock.amount + Locked(pending)
  {
    var more := pending[id := lock];
    LockedTake(more, id);
    assert more - {id} == pending;
  }

  ghost function Total(s: State): int {
    s.balanceA + s.balanceB + Locked(s.pending)
  }

  /** What Channel.Accept demands of a state apart from its nonce and signatures. */
  ghost predicate WellFormed(s: State, deposits: int) {
    && s.balanceA >= 0 && s.balanceB >= 0
    && (forall id :: id in s.pending ==> s.pending[id].amount > 0 && s.pending[id].expiry > 0)
    && Total(s) == deposits
  }

  /** Every transition the rule allows leads from an acceptable state to an
      acceptable one: no value is created, destroyed or made negative, so an
      honest proposal never fails the acceptance checks. */
  lemma ApplyKeepsWellFormed(s: State, t: Transition, byA: bool, deposits: int)
    requires WellFormed(s, deposits)
    requires Apply(s, t, byA).Ok?
    ensures WellFormed(Apply(s, t, byA).value, deposits)
    ensures Apply(s, t, byA).value.nonce == s.nonce + 1
  {
    match t
    case Pay(_) =>
    case LockAdd(id, hash, amount, expiry) => LockedAdd(s.pending, id, Lock(hash, amount, expiry, byA));
    case LockSettle(id, _) => LockedTake(s.pending, id);
    case LockRefund(id) => LockedTake(s.pending, id);
  }

  /** The lock a transition adds or removes. */
  function LockOf(t: Transition): Option<Term> {
    match t
    case Pay(_) => None
    case LockAdd(id, _, _, _) => Some(id)
    case LockSettle(id, _) => Some(id)
    case LockRefund(id) => Some(id)
  }

  /** A transition flips the presence of its own lock and leaves every other one alone. */
  lemma ApplyTouchesOwnLock(s: State, t: Transition, byA: bool, id: Term)
    requires Apply(s, t, byA).Ok?
    ensures LockOf(t) == Some(id) ==> ((id in Apply(s, t, byA).value.pending) != (id in s.pending))
    ensures LockOf(t) != Some(id) ==>
              && ((id in Apply(s, t, byA).value.pending) == (id in s.pending))
              && (id in s.pending ==> Apply(s, t, byA).value.pending[id] == s.pending[id])
  {
  }

  // ---- who pays whom ---------------------------------------------------------------

  /** A plain payment is allowed exactly when it is positive and covered by the proposer's
      balance, and it takes the amount from the proposer and gives it to the other party. */
  lemma ProposerPays(s: State, amount: int, byA: bool)
    ensures Apply(s, Pay(amount), byA).Ok? <==> 0 < amount <= if byA then s.balanceA else s.balanceB
    ensures amount <= 0 ==> Apply(s, Pay(amount), byA) == Err(AmountNotPositive)
    ensures Apply(s, Pay(amount), byA).Ok? ==>
              var s' := Apply(s, Pay(amount), byA).value;
              && s'.pending == s.pending && s'.nonce == s.nonce + 1
              && (byA ==> s'.balanceA == s.balanceA - amount && s'.balanceB == s.balanceB + amount)
              && (!byA ==> s'.balanceB == s.balanceB - amount && s'.balanceA == s.balanceA + amount)
  {
  }

  /** A lock is put up by its proposer alone, under a free id. */
  lemma ProposerLocks(s: State, id: Term, hash: Term, amount: int, expiry: int, byA: bool)
    ensures Apply(s, LockAdd(id, hash, amount, expiry), byA).Ok? <==>
              0 < amount <= (if byA then s.balanceA else s.balanceB) && expiry > 0 && id !in s.pending
    ensures Apply(s, LockAdd(id, hash, amount, expiry), byA).Ok? ==>
              var s' := Apply(s, LockAdd(id, hash, amount, expiry), byA).value;
              && s'.pending == s.pending[id := Lock(hash, amount, expiry, byA)] && s'.nonce == s.nonce + 1
              && s'.balanceA == (if byA then s.balanceA - amount else s.balanceA)
              && s'.balanceB == (if byA then s.balanceB else s.balanceB - amount)
  {
  }

  /** A settlement needs the preimage and pays whoever did not put the lock up; a refund
      pays whoever did. Who proposes it makes no difference. */
  lemma ResolvedToItsParty(s: State, id: Term, preimage: Term, byA: bool)
    ensures Apply(s, LockSettle(id, preimage), byA).Ok? <==> id in s.pending && s.pending[id].hash == Keccak(preimage)
    ensures Apply(s, LockSettle(id, preimage), byA).Ok? ==>
              var s', lock := Apply(s, LockSettle(id, preimage), byA).value, s.pending[id];
              && s'.pending == s.pending - {id} && s'.nonce == s.nonce + 1
              && s'.balanceA == (if lock.payerIsA then s.balanceA else s.balanceA + lock.amount)
              && s'.balanceB == (if lock.payerIsA then s.balanceB + lock.amount else s.balanceB)
    ensures Apply(s, LockRefund(id), byA).Ok? <==> id in s.pending
    ensures Apply(s, LockRefund(id), byA).Ok? ==>
              var s', lock := Apply(s, LockRefund(id), byA).value, s.pending[id];
              && s'.pending == s.pending - {id} && s'.nonce == s.nonce + 1
              && s'.balanceA == (if lock.payerIsA then s.balanceA + lock.amount else s.balanceA)
              && s'.balanceB == (if lock.payerIsA then s.balanceB else s.balanceB + lock.amount)
  {
  }

  /** So a transition never lowers the balance of a party that did not propose it. */
  lemma OnlyTheProposerPays(s: State, t: Transition, byA: bool, deposits: int)
    requires WellFormed(s, deposits) && Apply(s, t, byA).Ok?
    ensures byA ==> Apply(s, t, byA).value.balanceB >= s.balanceB
    ensures !byA ==> Apply(s, t, byA).value.balanceA >= s.balanceA
  {
    match t
    case Pay(amount) => ProposerPays(s, amount, byA);
    case LockAdd(id, hash, amount, expiry) => ProposerLocks(s, id, hash, amount, expiry, byA);
    case LockSettle(id, preimage) => ResolvedToItsParty(s, id, preimage, byA);
    case LockRefund(id) => ResolvedToItsParty(s, id, Keccak(id), byA);
    hide Apply;
  }
}
