/** The hub's books: what readers may still spend, what it may still pay recipients,
    and what is reserved in flight between the two. */
module HubLedger {
  import opened Common
  import opened Symbols
  import Bytes

  type NodeId = string

  datatype Reservation = Reservation(reader: NodeId, recipient: NodeId, amount: int)

  datatype Failure =
    | Insufficient
    | UnknownReader
    | ReaderShort
    | NoOutbound
    | HubExhausted
    | DoubleSpend
    | PointMismatch
    | NotReserved

  /** The hub's maps, and the history they are measured against: everything deposited by
      a reader, committed toward a recipient, or delivered. */
  datatype Books = Books(
    readers: map<NodeId, int>,
    recipients: map<NodeId, int>,
    reserved: map<Term, Reservation>,
    deposits: map<NodeId, int>,
    funding: map<NodeId, int>,
    delivered: seq<Reservation>)

  function At(m: map<NodeId, int>, id: NodeId): int {
    if id in m then m[id] else 0
  }

  function Add(m: map<NodeId, int>, id: NodeId, amount: int): map<NodeId, int> {
    m[id := At(m, id) + amount]
  }

  function ConditionOf(secret: Term): Term {
    Derived("rabbiit/hub/condition/v1", [secret])
  }

  // ---- the operations -------------------------------------------------------------------------

  datatype Op =
    | OpenReader(reader: NodeId, deposit: int)
    | FundRecipient(recipient: NodeId, outbound: int)
    | Reserve(reader: NodeId, recipient: NodeId, amount: int, condition: Term)
    | Deliver(condition: Term, secret: Term)
    | Cancel(condition: Term)

  function Refusal(b: Books, op: Op): Option<Failure> {
    match op
    case OpenReader(_, deposit) => if deposit <= 0 then Some(Insufficient) else None
    case FundRecipient(_, _) => None
    case Reserve(reader, recipient, amount, condition) =>
      if amount <= 0 then Some(Insufficient)
      else if reader !in b.readers then Some(UnknownReader)
      else if b.readers[reader] < amount then Some(ReaderShort)
      else if recipient !in b.recipients then Some(NoOutbound)
      else if b.recipients[recipient] < amount then Some(HubExhausted)
      else if condition in b.reserved then Some(DoubleSpend)
      else None
    case Deliver(condition, secret) =>
      if ConditionOf(secret) != condition then Some(PointMismatch)
      else if condition !in b.reserved then Some(NotReserved)
      else None
    case Cancel(condition) => if condition !in b.reserved then Some(NotReserved) else None
  }

  function Next(b: Books, op: Op): Books {
    if Refusal(b, op).Some? then b
    else
      match op
      case OpenReader(reader, deposit) =>
        b.(readers := Add(b.readers, reader, deposit), deposits := Add(b.deposits, reader, deposit))
      case FundRecipient(recipient, outbound) =>
        b.(recipients := Add(b.recipients, recipient, outbound), funding := Add(b.funding, recipient, outbound))
      case Reserve(reader, recipient, amount, condition) =>
        b.(readers := Add(b.readers, reader, -amount), recipients := Add(b.recipients, recipient, -amount),
           reserved := b.reserved[condition := Reservation(reader, recipient, amount)])
      case Deliver(condition, _) =>
        b.(reserved := b.reserved - {condition}, delivered := b.delivered + [b.reserved[condition]])
      case Cancel(condition) =>
        var res := b.reserved[condition];
        b.(readers := Add(b.readers, res.reader, res.amount),
           recipients := if res.recipient in b.recipients then Add(b.recipients, res.recipient, res.amount) else b.recipients,
           reserved := b.reserved - {condition})
  }

  class Hub {
    var readers: map<NodeId, int>
    var recipients: map<NodeId, int>
    var reserved: map<Term, Reservation>
    var delivered: nat
    var failed: nat
    ghost var deposits: map<NodeId, int>
    ghost var funding: map<NodeId, int>
    ghost var history: seq<Reservation>

    ghost function Contents(): Books
      reads this
    {
      Books(readers, recipients, reserved, deposits, funding, history)
    }

    constructor ()
      ensures Contents() == EMPTY && delivered == 0 && failed == 0
    {
      readers, recipients, reserved, delivered, failed := map[], map[], map[], 0, 0;
      deposits, funding, history := map[], map[], [];
    }

    method OpenReader(reader: NodeId, deposit: int) returns (r: Option<Failure>)
      modifies this
      ensures r == Refusal(old(Contents()), Op.OpenReader(reader, deposit))
      ensures Contents() == Next(old(Contents()), Op.OpenReader(reader, deposit))
      ensures delivered == old(delivered) && failed == old(failed)
    {
      if deposit <= 0 {
        return Some(Insufficient);
      }
      readers := readers[reader := (if reader in readers then readers[reader] else 0) + deposit];
      deposits := Add(deposits, reader, deposit);
      return None;
    }

    method FundRecipient(id: NodeId, outbound: int)
      modifies this
      ensures Contents() == Next(old(Contents()), Op.FundRecipient(id, outbound))
      ensures delivered == old(delivered) && failed == old(failed)
    {
      if id in recipients {
        recipients := recipients[id := recipients[id] + outbound];
      } else {
        recipients := recipients[id := outbound];
      }
      funding := Add(funding, id, outbound);
    }

    method Reserve(reader: NodeId, recipient: NodeId, amount: int, condition: Term) returns (r: Result<Reservation, Failure>)
      modifies this
      ensures var op := Op.Reserve(reader, recipient, amount, condition);
              && r == (if Refusal(old(Contents()), op).Some? then Err(Refusal(old(Contents()), op).value)
                       else Ok(Reservation(reader, recipient, amount)))
              && Contents() == Next(old(Contents()), op)
      ensures delivered == old(delivered)
      ensures failed == old(failed) + if r == Err(HubExhausted) then 1 else 0
    {
      if amount <= 0 {
        return Err(Insufficient);
      }
      if reader !in readers {
        return Err(UnknownReader);
      }
      var available := readers[reader];
      if available < amount {
        return Err(ReaderShort);
      }
      if recipient !in recipients {
        return Err(NoOutbound);
      }
      if recipients[recipient] < amount {
        failed := failed + 1;
        return Err(HubExhausted);
      }
      if condition in reserved {
        return Err(DoubleSpend);
      }
      readers := readers[reader := available - amount];
      recipients := recipients[recipient := recipients[recipient] - amount];
      var res := Reservation(reader, recipient, amount);
      reserved := reserved[condition := res];
      return Ok(res);
    }

    method Deliver(condition: Term, secret: Term) returns (r: Option<Failure>)
      modifies this
      ensures r == Refusal(old(Contents()), Op.Deliver(condition, secret))
      ensures Contents() == Next(old(Contents()), Op.Deliver(condition, secret))
      ensures delivered == old(delivered) + (if r.None? then 1 else 0) && failed == old(failed)
    {
      if ConditionOf(secret) != condition {
        return Some(PointMismatch);
      }
      if condition !in reserved {
        return Some(NotReserved);
      }
      history := history + [reserved[condition]];
      reserved := reserved - {condition};
      delivered := delivered + 1;
      return None;
    }

    method Cancel(condition: Term) returns (r: Option<Failure>)
      modifies this
      ensures r == Refusal(old(Contents()), Op.Cancel(condition))
      ensures Contents() == Next(old(Contents()), Op.Cancel(condition))
      ensures delivered == old(delivered) && failed == old(failed) + if r.None? then 1 else 0
    {
      if condition !in reserved {
        return Some(NotReserved);
      }
      var res := reserved[condition];
      readers := readers[res.reader := (if res.reader in readers then readers[res.reader] else 0) + res.amount];
      if res.recipient in recipients {
        recipients := recipients[res.recipient := recipients[res.recipient] + res.amount];
      }
      reserved := reserved - {condition};
      failed := failed + 1;
      return None;
    }

    /** The total value locked, summed reservation by reservation. */
    method InFlight() returns (total: int)
      ensures total == SumOf(reserved, Everyone)
    {
      total := 0;
      var left := reserved;
      while left != map[]
        invariant total + SumOf(left, Everyone) == SumOf(reserved, Everyone)
        decreases |left|
      {
        var c :| c in left;
        SumTake(left, c, Everyone);
        total := total + left[c].amount;
        left := left - {c};
      }
    }
  }

  // ---- sums over reservations -------------------------------------------------------------------

  /** Whose reservations a sum counts. */
  datatype Party = Everyone | Reader(id: NodeId) | Recipient(id: NodeId)

  predicate Counts(p: Party, r: Reservation) {
    match p
    case Everyone => true
    case Reader(id) => r.reader == id
    case Recipient(id) => r.recipient == id
  }

  function Worth(p: Party, r: Reservation): int {
    if Counts(p, r) then r.amount else 0
  }

  ghost function SomeKey(m: map<Term, Reservation>): (c: Term)
    requires m != map[]
    ensures c in m
  {
    var c :| c in m;
    c
  }

  ghost function SumOf(m: map<Term, Reservation>, p: Party): int
    decreases |m|
  {
    if m == map[] then 0
    else
      var c := SomeKey(m);
      Worth(p, m[c]) + SumOf(m - {c}, p)
  }

  lemma {:induction false} SumTake(m: map<Term, Reservation>, c: Term, p: Party)
    requires c in m
    ensures SumOf(m, p) == Worth(p, m[c]) + SumOf(m - {c}, p)
    decreases |m|
  {
    hide Worth;
    var first := SomeKey(m);
    if first != c {
      assert m - {first} - {c} == m - {c} - {first};
      SumTake(m - {first}, c, p);
      SumTake(m - {c}, first, p);
    }
  }

  lemma SumPut(m: map<Term, Reservation>, c: Term, r: Reservation, p: Party)
    requires c !in m
    ensures SumOf(m[c := r], p) == Worth(p, r) + SumOf(m, p)
  {
    SumTake(m[c := r], c, p);
    assert m[c := r] - {c} == m;
  }

  function SumSeq(s: seq<Reservation>, p: Party): int {
    if s == [] then 0 else SumSeq(s[..|s| - 1], p) + Worth(p, s[|s| - 1])
  }

  // ---- conservation over every run ---------------------------------------------------------------

  const EMPTY := Books(map[], map[], map[], map[], map[], [])

  function Run(ops: seq<Op>): Books {
    if ops == [] then EMPTY else Next(Run(ops[..|ops| - 1]), ops[|ops| - 1])
  }

  /** Everything a reader deposited is still spendable, reserved, or delivered. */
  ghost predicate ReaderBalances(b: Books, id: NodeId) {
    At(b.deposits, id) == At(b.readers, id) + SumOf(b.reserved, Reader(id)) + SumSeq(b.delivered, Reader(id))
  }

  /** Everything committed toward a recipient is still outbound, reserved, or delivered. */
  ghost predicate RecipientBalances(b: Books, id: NodeId) {
    At(b.funding, id) == At(b.recipients, id) + SumOf(b.reserved, Recipient(id)) + SumSeq(b.delivered, Recipient(id))
  }

  ghost predicate Sane(b: Books) {
    && (forall c :: c in b.reserved ==>
          b.reserved[c].amount > 0 && b.reserved[c].reader in b.readers && b.reserved[c].recipient in b.recipients)
    && (forall i :: 0 <= i < |b.delivered| ==> b.delivered[i].amount > 0)
    && (forall id :: id in b.readers ==> b.readers[id] >= 0)
  }

  lemma NextSane(b: Books, op: Op)
    requires Sane(b)
    ensures Sane(Next(b, op))
  {
  }

  lemma NextBalances(b: Books, op: Op, id: NodeId)
    requires Sane(b) && ReaderBalances(b, id) && RecipientBalances(b, id)
    ensures ReaderBalances(Next(b, op), id) && RecipientBalances(Next(b, op), id)
  {
    hide SumOf;
    if Refusal(b, op).None? {
      match op
      case Reserve(reader, recipient, amount, condition) =>
        SumPut(b.reserved, condition, Reservation(reader, recipient, amount), Reader(id));
        SumPut(b.reserved, condition, Reservation(reader, recipient, amount), Recipient(id));
      case Deliver(condition, _) =>
        SumTake(b.reserved, condition, Reader(id));
        SumTake(b.reserved, condition, Recipient(id));
        assert (b.delivered + [b.reserved[condition]])[..|b.delivered|] == b.delivered;
      case Cancel(condition) =>
        SumTake(b.reserved, condition, Reader(id));
        SumTake(b.reserved, condition, Recipient(id));
      case _ =>
    }
  }

  /** After any operations at all, every reader's and every recipient's books balance, no
      reader is overdrawn, and every reservation is a positive amount between two known
      parties: nothing is left over for the hub. */
  lemma {:induction false} BooksBalance(ops: seq<Op>)
    ensures Sane(Run(ops))
    ensures forall id :: ReaderBalances(Run(ops), id) && RecipientBalances(Run(ops), id)
  {
    if ops == [] {
      EmptyBalances();
    } else {
      hide Next, Sane, ReaderBalances, RecipientBalances;
      var init := ops[..|ops| - 1];
      BooksBalance(init);
      NextSane(Run(init), ops[|ops| - 1]);
      forall id ensures ReaderBalances(Run(ops), id) && RecipientBalances(Run(ops), id) {
        NextBalances(Run(init), ops[|ops| - 1], id);
      }
    }
  }

  lemma EmptyBalances()
    ensures Sane(EMPTY)
    ensures forall id :: ReaderBalances(EMPTY, id) && RecipientBalances(EMPTY, id)
  {
  }

  ghost predicate Solvent(b: Books) {
    forall id :: id in b.recipients ==> b.recipients[id] >= 0
  }

  /** The hub's own capital stays non-negative exactly when no single funding call takes
      away more than is there: the call itself does not check. */
  lemma StaysSolvent(b: Books, op: Op)
    requires Sane(b) && Solvent(b)
    ensures Solvent(Next(b, op)) <==> (op.FundRecipient? ==> At(b.recipients, op.recipient) + op.outbound >= 0)
  {
    if op.FundRecipient? {
      assert Next(b, op).recipients[op.recipient] == At(b.recipients, op.recipient) + op.outbound;
    }
  }

  /** How often a condition was reserved, and how often a reservation under it was delivered
      or cancelled. */
  function Reserved(ops: seq<Op>, condition: Term): nat {
    if ops == [] then 0
    else
      var n := |ops| - 1;
      Reserved(ops[..n], condition)
      + if ops[n].Reserve? && ops[n].condition == condition && Refusal(Run(ops[..n]), ops[n]).None? then 1 else 0
  }

  function Resolved(ops: seq<Op>, condition: Term): nat {
    if ops == [] then 0
    else
      var n := |ops| - 1;
      Resolved(ops[..n], condition)
      + if (ops[n].Deliver? || ops[n].Cancel?) && ops[n].condition == condition && Refusal(Run(ops[..n]), ops[n]).None?
        then 1 else 0
  }

  /** Over every run each reservation is delivered or cancelled at most once, and one that
      was not is still held. */
  lemma {:induction false} ResolvedOnce(ops: seq<Op>, condition: Term)
    ensures Reserved(ops, condition) == Resolved(ops, condition) + if condition in Run(ops).reserved then 1 else 0
  {
    if ops != [] {
      ResolvedOnce(ops[..|ops| - 1], condition);
    }
  }

  // ---- delivery needs the secret ------------------------------------------------------------------

  /** What a delivery does: with the secret that opens a held reservation's condition it hands
      that reservation over and touches no balance, and with anything else it does nothing. */
  lemma DeliversExactly(b: Books, condition: Term, secret: Term)
    ensures var n, opens := Next(b, Deliver(condition, secret)), condition == ConditionOf(secret);
            && (Refusal(b, Deliver(condition, secret)).None? <==> opens && condition in b.reserved)
            && (Refusal(b, Deliver(condition, secret)) == Some(PointMismatch) <==> !opens)
            && (opens && condition in b.reserved ==>
                  n == b.(reserved := b.reserved - {condition}, delivered := b.delivered + [b.reserved[condition]]))
            && (!opens || condition !in b.reserved ==> n == b)
    ensures forall other :: ConditionOf(other) == ConditionOf(secret) ==> other == secret
  {
  }

  /** No operation of the run brings a secret that opens the condition. */
  predicate NeverOpened(ops: seq<Op>, condition: Term) {
    forall i :: 0 <= i < |ops| && ops[i].Deliver? && ops[i].condition == condition ==>
      ConditionOf(ops[i].secret) != condition
  }

  function Deliveries(ops: seq<Op>, condition: Term): nat {
    if ops == [] then 0
    else
      var n := |ops| - 1;
      Deliveries(ops[..n], condition)
      + if ops[n].Deliver? && ops[n].condition == condition && Refusal(Run(ops[..n]), ops[n]).None? then 1 else 0
  }

  /** Over every run in which no secret opened it, nothing reserved under a condition is ever
      delivered. */
  lemma {:induction false} NeverDelivered(ops: seq<Op>, condition: Term)
    requires NeverOpened(ops, condition)
    ensures Deliveries(ops, condition) == 0
  {
    if ops != [] {
      var n := |ops| - 1;
      NeverDelivered(ops[..n], condition);
      if ops[n].Deliver? {
        DeliversExactly(Run(ops[..n]), ops[n].condition, ops[n].secret);
      }
      hide Refusal, Run;
    }
  }

  /** And a reservation held at some point is held, for the same parties and amount, at every
      later one, unless it was cancelled. */
  lemma {:induction false} HeldUntilOpened(ops: seq<Op>, more: seq<Op>, condition: Term)
    requires condition in Run(ops).reserved && NeverOpened(more, condition)
    requires forall i :: 0 <= i < |more| && more[i].Cancel? ==> more[i].condition != condition
    ensures condition in Run(ops + more).reserved
    ensures Run(ops + more).reserved[condition] == Run(ops).reserved[condition]
    decreases |more|
  {
    if more == [] {
      assert ops + more == ops;
    } else {
      hide Next;
      var n := |more| - 1;
      HeldUntilOpened(ops, more[..n], condition);
      assert ops + more == ops + more[..n] + [more[n]];
      RunMore(ops + more[..n], more[n]);
      hide Run;
      HeldStep(Run(ops + more[..n]), more[n], condition);
    }
  }

  lemma HeldStep(b: Books, op: Op, condition: Term)
    requires condition in b.reserved
    requires op.Deliver? && op.condition == condition ==> ConditionOf(op.secret) != condition
    requires op.Cancel? ==> op.condition != condition
    ensures condition in Next(b, op).reserved && Next(b, op).reserved[condition] == b.reserved[condition]
  {
  }

  /** A deposit is taken exactly when it is positive, and raises that reader's balance and no
      other; a commitment is always taken, whatever its sign. */
  lemma FundsExactly(b: Books, id: NodeId, amount: int)
    ensures var n := Next(b, OpenReader(id, amount));
            && (Refusal(b, OpenReader(id, amount)) == if amount > 0 then None else Some(Insufficient))
            && (amount > 0 ==> At(n.readers, id) == At(b.readers, id) + amount)
            && (amount <= 0 ==> n == b)
            && (forall x :: x != id ==> At(n.readers, x) == At(b.readers, x))
            && n.recipients == b.recipients && n.reserved == b.reserved
    ensures var n := Next(b, FundRecipient(id, amount));
            && Refusal(b, FundRecipient(id, amount)).None?
            && At(n.recipients, id) == At(b.recipients, id) + amount
            && (forall x :: x != id ==> At(n.recipients, x) == At(b.recipients, x))
            && n.readers == b.readers && n.reserved == b.reserved
  {
  }

  /** What a reservation takes, and when it is refused: it takes the amount from the reader's
      balance and the recipient's capacity together, both of which cover it. */
  lemma ReservesExactly(b: Books, reader: NodeId, recipient: NodeId, amount: int, condition: Term)
    ensures var n, r := Next(b, Reserve(reader, recipient, amount, condition)), Refusal(b, Reserve(reader, recipient, amount, condition));
            && (r.None? <==>
                  && 0 < amount <= At(b.readers, reader) && amount <= At(b.recipients, recipient)
                  && condition !in b.reserved)
            && (r.None? ==>
                  && At(n.readers, reader) == At(b.readers, reader) - amount
                  && At(n.recipients, recipient) == At(b.recipients, recipient) - amount
                  && n.reserved == b.reserved[condition := Reservation(reader, recipient, amount)]
                  && (forall id :: id != reader ==> At(n.readers, id) == At(b.readers, id))
                  && (forall id :: id != recipient ==> At(n.recipients, id) == At(b.recipients, id)))
            && (r.Some? ==> n == b)
  {
  }

  /** Each refusal of a reservation has its own cause, in the order they are looked at. */
  lemma RefusalsOfReserve(b: Books, reader: NodeId, recipient: NodeId, amount: int, condition: Term)
    ensures var r := Refusal(b, Reserve(reader, recipient, amount, condition));
            var covered := reader in b.readers && amount <= b.readers[reader];
            && (r == Some(Insufficient) <==> amount <= 0)
            && (r == Some(UnknownReader) <==> amount > 0 && reader !in b.readers)
            && (r == Some(ReaderShort) <==> amount > 0 && reader in b.readers && b.readers[reader] < amount)
            && (r == Some(NoOutbound) <==> amount > 0 && covered && recipient !in b.recipients)
            && (r == Some(HubExhausted) <==>
                  amount > 0 && covered && recipient in b.recipients && b.recipients[recipient] < amount)
            && (r == Some(DoubleSpend) <==>
                  && amount > 0 && covered && recipient in b.recipients && amount <= b.recipients[recipient]
                  && condition in b.reserved)
  {
  }

  /** Cancelling right after reserving gives both sides back what was taken. */
  lemma CancelUndoesReserve(b: Books, reader: NodeId, recipient: NodeId, amount: int, condition: Term)
    requires Refusal(b, Reserve(reader, recipient, amount, condition)).None?
    ensures Next(Next(b, Reserve(reader, recipient, amount, condition)), Cancel(condition)) == b
  {
    var n := Next(b, Reserve(reader, recipient, amount, condition));
    assert n.reserved - {condition} == b.reserved;
  }

  // ---- in 64 bits -------------------------------------------------------------------------------

  const TWO64 := 0x1_0000_0000_0000_0000

  /** What an int64 holds after an addition. */
  function Wrap(n: int): (w: int)
    ensures Bytes.Int64(n) ==> w == n
  {
    (n + TWO64 / 2) % TWO64 - TWO64 / 2
  }

  function Add64(m: map<NodeId, int>, id: NodeId, amount: int): map<NodeId, int> {
    m[id := Wrap(At(m, id) + amount)]
  }

  /** The same operation on balances kept in int64. */
  function Next64(b: Books, op: Op): Books {
    if Refusal(b, op).Some? then b
    else
      match op
      case OpenReader(reader, deposit) =>
        b.(readers := Add64(b.readers, reader, deposit), deposits := Add(b.deposits, reader, deposit))
      case FundRecipient(recipient, outbound) =>
        b.(recipients := Add64(b.recipients, recipient, outbound), funding := Add(b.funding, recipient, outbound))
      case Reserve(reader, recipient, amount, condition) =>
        b.(readers := Add64(b.readers, reader, -amount), recipients := Add64(b.recipients, recipient, -amount),
           reserved := b.reserved[condition := Reservation(reader, recipient, amount)])
      case Deliver(condition, _) =>
        b.(reserved := b.reserved - {condition}, delivered := b.delivered + [b.reserved[condition]])
      case Cancel(condition) =>
        var res := b.reserved[condition];
        b.(readers := Add64(b.readers, res.reader, res.amount),
           recipients := if res.recipient in b.recipients then Add64(b.recipients, res.recipient, res.amount) else b.recipients,
           reserved := b.reserved - {condition})
  }

  function Run64(ops: seq<Op>): Books {
    if ops == [] then Run([]) else Next64(Run64(ops[..|ops| - 1]), ops[|ops| - 1])
  }

  /** All that any one reader has deposited, and all that any one recipient has been funded
      with, fits in an int64, and no funding took away more capacity than was there. */
  ghost predicate FitsIn(b: Books) {
    Solvent(b) && forall id :: Bytes.Int64(At(b.deposits, id)) && Bytes.Int64(At(b.funding, id))
  }

  ghost predicate Fits(ops: seq<Op>) {
    forall i :: 0 <= i <= |ops| ==> FitsIn(Run(ops[..i]))
  }

  lemma {:induction false} SumNonNegative(m: map<Term, Reservation>, p: Party)
    requires forall c :: c in m ==> m[c].amount > 0
    ensures SumOf(m, p) >= 0
    decreases |m|
  {
    if m != map[] {
      var c := SomeKey(m);
      SumNonNegative(m - {c}, p);
    }
  }

  lemma {:induction false} SeqNonNegative(s: seq<Reservation>, p: Party)
    requires forall i :: 0 <= i < |s| ==> s[i].amount > 0
    ensures SumSeq(s, p) >= 0
  {
    if s != [] {
      SeqNonNegative(s[..|s| - 1], p);
    }
  }

  /** Then every balance is an int64, because it is no larger than what went in. */
  lemma InRange(b: Books, id: NodeId)
    requires Sane(b) && ReaderBalances(b, id) && RecipientBalances(b, id) && FitsIn(b)
    ensures Bytes.Int64(At(b.readers, id)) && Bytes.Int64(At(b.recipients, id))
  {
    hide SumOf, SumSeq;
    SumNonNegative(b.reserved, Reader(id));
    SumNonNegative(b.reserved, Recipient(id));
    SeqNonNegative(b.delivered, Reader(id));
    SeqNonNegative(b.delivered, Recipient(id));
  }

  lemma NextFits(b: Books, op: Op)
    requires forall id :: Bytes.Int64(At(Next(b, op).readers, id)) && Bytes.Int64(At(Next(b, op).recipients, id))
    ensures Next64(b, op) == Next(b, op)
  {
    hide Refusal, Wrap;
    var n := Next(b, op);
    if Refusal(b, op).None? {
      match op
      case OpenReader(reader, _) => assert Bytes.Int64(At(n.readers, reader));
      case FundRecipient(recipient, _) => assert Bytes.Int64(At(n.recipients, recipient));
      case Reserve(reader, recipient, _, _) =>
        assert Bytes.Int64(At(n.readers, reader)) && Bytes.Int64(At(n.recipients, recipient));
      case Deliver(_, _) =>
      case Cancel(condition) => CancelFits(b, condition);
    }
  }

  lemma CancelFits(b: Books, condition: Term)
    requires var n := Next(b, Cancel(condition));
             forall id :: Bytes.Int64(At(n.readers, id)) && Bytes.Int64(At(n.recipients, id))
    ensures Next64(b, Cancel(condition)) == Next(b, Cancel(condition))
  {
    hide Wrap;
    if condition in b.reserved {
      var n, res := Next(b, Cancel(condition)), b.reserved[condition];
      assert Bytes.Int64(At(n.readers, res.reader)) && Bytes.Int64(At(n.recipients, res.recipient));
    }
  }

  /** As long as that holds, the books kept in 64 bits are the exact ones. */
  lemma {:induction false} BooksFit(ops: seq<Op>)
    requires Fits(ops)
    ensures Run64(ops) == Run(ops)
  {
    if ops != [] {
      hide Next, Next64, Sane, ReaderBalances, RecipientBalances, FitsIn;
      var n := |ops| - 1;
      forall i | 0 <= i <= n ensures FitsIn(Run(ops[..n][..i])) {
        assert ops[..n][..i] == ops[..i];
      }
      BooksFit(ops[..n]);
      assert ops[..|ops|] == ops;
      BooksBalance(ops);
      forall id ensures Bytes.Int64(At(Run(ops).readers, id)) && Bytes.Int64(At(Run(ops).recipients, id)) {
        InRange(Run(ops), id);
      }
      NextFits(Run(ops[..n]), ops[n]);
    }
  }

  /** One deposit more, and a reader's balance is negative. */
  lemma DepositsWrap(reader: NodeId)
    ensures var most := TWO64 / 2 - 1;
            var ops := [OpenReader(reader, most), OpenReader(reader, 1)];
            At(Run64(ops).readers, reader) == -(TWO64 / 2) && At(Run(ops).readers, reader) == TWO64 / 2
  {
    var most := TWO64 / 2 - 1;
    var e1, e2 := OpenReader(reader, most), OpenReader(reader, 1);
    RunMore([], e1);
    RunMore([e1], e2);
    assert [] + [e1] == [e1] && [e1] + [e2] == [e1, e2];
    assert Wrap(TWO64 / 2) == -(TWO64 / 2);
  }

  lemma RunMore(ops: seq<Op>, op: Op)
    ensures Run(ops + [op]) == Next(Run(ops), op) && Run64(ops + [op]) == Next64(Run64(ops), op)
  {
    hide Next, Next64;
    assert (ops + [op])[..|ops + [op]| - 1] == ops;
  }
}
