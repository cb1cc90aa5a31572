/** Concurrent reads of the event-driven cache, one critical section at a time. */
module EventReaderRuns {
  import opened Common
  import opened EventReader

  type Thread = nat

  /** A read past its ensureCurrent, with the head it saw there; then one waiting for
      the inner reader, with the head it captured. */
  datatype Call =
    | Passed(id: Id, seen: nat)
    | Reading(id: Id, seen: nat, captured: nat)

  /** An advance that has finished and is not applied yet. */
  datatype Flight = Flight(t: Thread, id: Id, outcome: Outcome, from: nat, upTo: nat)

  /** The flights are listed in the order in which they walked. */
  datatype Shared = Shared(position: nat, reader: Reader, flights: seq<Flight>, calls: map<Thread, Call>)

  function FlightOf(flights: seq<Flight>, t: Thread): Option<Flight> {
    if flights == [] then None else if flights[0].t == t then Some(flights[0]) else FlightOf(flights[1..], t)
  }

  function Without(flights: seq<Flight>, t: Thread): seq<Flight> {
    if flights == [] then [] else if flights[0].t == t then flights[1..] else [flights[0]] + Without(flights[1..], t)
  }

  datatype Step =
    | Enter(t: Thread, id: Id)
    | Advance(t: Thread, id: Id, finalised: nat, stop: Option<nat>)
    | Apply(t: Thread)
    | Peek(t: Thread)
    | Finish(t: Thread, at: Option<nat>)

  function Init(start: nat): Shared {
    Shared(start, Reader(map[], 0, false, false), [], map[])
  }

  predicate Free(s: Shared, t: Thread) {
    FlightOf(s.flights, t).None? && t !in s.calls
  }

  /** One critical section of one thread; a step its thread cannot take changes nothing. */
  function Next(c: Chain, s: Shared, step: Step): Shared {
    match step
    case Enter(t, id) =>
      if Free(s, t) && s.reader.started && !s.reader.failed then s.(calls := s.calls[t := Passed(id, s.reader.head)]) else s
    case Advance(t, id, finalised, stop) =>
      if !Free(s, t) then s
      else
        var (o, position) := Walk(c, s.position, finalised, stop);
        s.(position := position, flights := s.flights + [Flight(t, id, o, s.position, position)])
    case Apply(t) =>
      if FlightOf(s.flights, t).None? then s
      else
        var f := FlightOf(s.flights, t).value;
        var reader := Applied(s.reader, f.outcome);
        s.(reader := reader, flights := Without(s.flights, t),
           calls := if f.outcome.Failed? then s.calls else s.calls[t := Passed(f.id, reader.head)])
    case Peek(t) =>
      if t !in s.calls || s.calls[t].Reading? then s
      else if Hit(s.reader, s.calls[t].id) then s.(calls := s.calls - {t})
      else s.(calls := s.calls[t := Reading(s.calls[t].id, s.calls[t].seen, s.reader.head)])
    case Finish(t, at) =>
      if t !in s.calls || s.calls[t].Passed? then s
      else
        var call := s.calls[t];
        s.(calls := s.calls - {t},
           reader := if at.None? then s.reader else Stored(s.reader, call.id, c.state(at.value, call.id), call.captured))
  }

  datatype Answer = Answer(id: Id, occ: OnChain, seen: nat)

  /** What the step returns to its caller. */
  function Answered(c: Chain, s: Shared, step: Step): Option<Answer> {
    match step
    case Peek(t) =>
      if t in s.calls && s.calls[t].Passed? && Hit(s.reader, s.calls[t].id)
      then Some(Answer(s.calls[t].id, s.reader.cache[s.calls[t].id].occ, s.calls[t].seen))
      else None
    case Finish(t, at) =>
      if t in s.calls && s.calls[t].Reading? && at.Some?
      then Some(Answer(s.calls[t].id, c.state(at.value, s.calls[t].id), s.calls[t].seen))
      else None
    case _ => None
  }

  function Run(c: Chain, s: Shared, steps: seq<Step>): Shared {
    if steps == [] then s else Next(c, Run(c, s, steps[..|steps| - 1]), steps[|steps| - 1])
  }

  // ---- when the cache may be trusted ---------------------------------------------------------

  /** Nobody holds, or is about to hold, an answer about the channel. */
  ghost predicate Unwatched(s: Shared, id: Id) {
    id !in s.reader.cache && forall t :: t in s.calls ==> s.calls[t].id != id
  }

  /** Overlapping advances are applied in the order in which they walked; one that failed
      got past no block naming a channel that is cached or being read; the inner reader
      is no older than the head it was asked at. */
  ghost predicate Orderly(s: Shared, c: Chain, step: Step) {
    match step
    case Apply(t) =>
      FlightOf(s.flights, t).Some? ==>
        && s.flights[0].t == t
        && (s.flights[0].outcome.Failed? ==>
              forall id :: !Unwatched(s, id) ==> Quiet(c, id, s.flights[0].from, s.flights[0].upTo))
    case Finish(t, at) => t in s.calls && s.calls[t].Reading? && at.Some? ==> at.value >= s.calls[t].captured
    case _ => true
  }

  ghost predicate OrderlyRun(c: Chain, s: Shared, steps: seq<Step>) {
    forall i :: 0 <= i < |steps| ==> Orderly(Run(c, s, steps[..i]), c, steps[i])
  }

  /** How far the reader's knowledge reaches: advances not applied yet are not part of it.
      Each of them starts where the one before it ended. */
  function Base(s: Shared): nat {
    if s.flights == [] then s.position else s.flights[0].from
  }

  ghost predicate FlightTrue(c: Chain, f: Flight) {
    && f.from <= f.upTo
    && (f.outcome.Advanced? ==> f.outcome == Advanced(Named(c, f.from, f.upTo), f.upTo))
  }

  ghost predicate FlightsTrue(c: Chain, s: Shared) {
    && (forall i :: 0 <= i < |s.flights| ==> FlightTrue(c, s.flights[i]) && s.flights[i].t !in s.calls)
    && (forall i, j :: 0 <= i < j < |s.flights| ==> s.flights[i].t != s.flights[j].t)
    && (forall i :: 0 < i < |s.flights| ==> s.flights[i].from == s.flights[i - 1].upTo)
    && (s.flights != [] ==> s.flights[|s.flights| - 1].upTo == s.position)
  }

  ghost predicate CallTrue(c: Chain, s: Shared, call: Call, base: nat) {
    && call.seen <= s.reader.head
    && (call.Reading? ==> call.seen <= call.captured <= s.reader.head)
    && (call.Passed? || call.captured == s.reader.head ==> Quiet(c, call.id, s.reader.head, base))
  }

  ghost predicate Inv(c: Chain, s: Shared) {
    && FlightsTrue(c, s)
    && Coherent(c, s.reader, Base(s))
    && (!s.reader.started ==> s.calls == map[])
    && forall t :: t in s.calls ==> CallTrue(c, s, s.calls[t], Base(s))
  }

  lemma InitInv(c: Chain, start: nat)
    ensures Inv(c, Init(start))
  {
  }

  lemma {:induction false} NotFlying(flights: seq<Flight>, t: Thread)
    requires FlightOf(flights, t).None?
    ensures forall i :: 0 <= i < |flights| ==> flights[i].t != t
  {
    if flights != [] {
      NotFlying(flights[1..], t);
      assert forall i :: 0 < i < |flights| ==> flights[i] == flights[1..][i - 1];
    }
  }

  lemma EnterInv(c: Chain, s: Shared, t: Thread, id: Id)
    requires Inv(c, s)
    ensures Inv(c, Next(c, s, Enter(t, id)))
  {
    if Free(s, t) { NotFlying(s.flights, t); }
    hide FlightTrue;
  }

  lemma AdvanceInv(c: Chain, s: Shared, t: Thread, id: Id, finalised: nat, stop: Option<nat>)
    requires Inv(c, s)
    ensures Inv(c, Next(c, s, Advance(t, id, finalised, stop)))
  {
    hide Coherent, CallTrue;
    var s' := Next(c, s, Advance(t, id, finalised, stop));
    if Free(s, t) {
      NotFlying(s.flights, t);
      assert Base(s') == Base(s);
      forall u | u in s'.calls ensures CallTrue(c, s', s'.calls[u], Base(s)) {
        CallUnmoved(c, s, s', s.calls[u], Base(s));
      }
    }
  }

  lemma CallUnmoved(c: Chain, s: Shared, s': Shared, call: Call, base: nat)
    requires CallTrue(c, s, call, base) && s'.reader.head == s.reader.head
    ensures CallTrue(c, s', call, base)
  {
  }

  lemma ApplyInv(c: Chain, s: Shared, t: Thread)
    requires Emits(c) && Inv(c, s) && Orderly(s, c, Apply(t)) && FlightOf(s.flights, t).Some?
    ensures Inv(c, Next(c, s, Apply(t)))
  {
    hide Applied, Coherent;
    var s' := Next(c, s, Apply(t));
    var f := s.flights[0];
    assert s'.flights == s.flights[1..];
    assert Base(s') == f.upTo && Base(s) == f.from;
    AdvanceKeepsCoherent(c, s.reader, f.outcome, f.from, f.upTo);
    FailedIsQuiet(c, s, f);
    AppliedShape(s.reader, f.outcome);
    CoherentBounds(c, s.reader, f.from);
    CoherentBounds(c, s'.reader, f.upTo);
    forall u | u in s'.calls ensures CallTrue(c, s', s'.calls[u], f.upTo) {
      if f.outcome.Failed? {
        assert !Unwatched(s, s.calls[u].id);
      }
    }
  }

  lemma FailedIsQuiet(c: Chain, s: Shared, f: Flight)
    requires f.outcome.Failed? ==> forall id :: !Unwatched(s, id) ==> Quiet(c, id, f.from, f.upTo)
    ensures f.outcome.Failed? ==> forall id :: id in s.reader.cache ==> Quiet(c, id, f.from, f.upTo)
  {
    hide Quiet;
    if f.outcome.Failed? {
      forall id | id in s.reader.cache ensures Quiet(c, id, f.from, f.upTo) {
        assert !Unwatched(s, id);
      }
    }
  }

  lemma AppliedShape(r: Reader, o: Outcome)
    ensures o.Failed? ==> Applied(r, o).head == r.head && Applied(r, o).failed
    ensures o.Advanced? ==> Applied(r, o).head == Max(r.head, o.to) && !Applied(r, o).failed
    ensures Applied(r, o).started
  {
  }

  lemma CoherentBounds(c: Chain, r: Reader, base: nat)
    requires Coherent(c, r, base)
    ensures r.head <= base && (r.started && !r.failed ==> r.head == base)
  {
  }

  lemma PeekInv(c: Chain, s: Shared, t: Thread)
    requires Inv(c, s)
    ensures Inv(c, Next(c, s, Peek(t)))
  {
    hide Coherent, FlightTrue;
  }

  lemma FinishInv(c: Chain, s: Shared, t: Thread, at: Option<nat>)
    requires Inv(c, s) && Orderly(s, c, Finish(t, at))
    ensures Inv(c, Next(c, s, Finish(t, at)))
  {
    hide FlightTrue;
    if t in s.calls && s.calls[t].Reading? && at.Some? {
      assert c.state(at.value, s.calls[t].id) == c.state(at.value, s.calls[t].id);
      assert s.calls[t].captured == s.reader.head ==>
          Current(c, s.calls[t].id, c.state(at.value, s.calls[t].id), s.reader.head);
    }
  }

  lemma {:induction false} RunInv(c: Chain, start: nat, steps: seq<Step>)
    requires Emits(c) && OrderlyRun(c, Init(start), steps)
    ensures Inv(c, Run(c, Init(start), steps))
  {
    hide Inv, Orderly, Next;
    if steps == [] {
      InitInv(c, start);
    } else {
      var init := steps[..|steps| - 1];
      forall i | 0 <= i < |init| ensures Orderly(Run(c, Init(start), init[..i]), c, init[i]) {
        assert steps[..i] == init[..i];
      }
      RunInv(c, start, init);
      StepInv(c, Run(c, Init(start), init), steps[|steps| - 1]);
    }
  }

  lemma StepInv(c: Chain, s: Shared, step: Step)
    requires Emits(c) && Inv(c, s) && Orderly(s, c, step)
    ensures Inv(c, Next(c, s, step))
  {
    match step
    case Enter(t, id) => EnterInv(c, s, t, id);
    case Advance(t, id, finalised, stop) => AdvanceInv(c, s, t, id, finalised, stop);
    case Apply(t) =>
      if FlightOf(s.flights, t).Some? {
        ApplyInv(c, s, t);
      }
    case Peek(t) => PeekInv(c, s, t);
    case Finish(t, at) => FinishInv(c, s, t, at);
  }

  /** Whatever an orderly run answers is what the contract held at some block not before
      the head the asking call found when it passed ensureCurrent; and every entry left in
      the cache is stamped with the head and current as of it. */
  lemma AnswersAreCurrent(c: Chain, start: nat, steps: seq<Step>, step: Step)
    requires Emits(c) && OrderlyRun(c, Init(start), steps) && Orderly(Run(c, Init(start), steps), c, step)
    ensures var s := Run(c, Init(start), steps);
            && (forall id :: id in s.reader.cache ==>
                  s.reader.cache[id].validAt == s.reader.head && Current(c, id, s.reader.cache[id].occ, s.reader.head))
            && match Answered(c, s, step)
               case None => true
               case Some(a) => Current(c, a.id, a.occ, a.seen)
  {
    var s := Run(c, Init(start), steps);
    RunInv(c, start, steps);
    hide Run;
    AnswerCurrent(c, s, step);
  }

  lemma AnswerCurrent(c: Chain, s: Shared, step: Step)
    requires Inv(c, s) && Orderly(s, c, step)
    ensures match Answered(c, s, step)
            case None => true
            case Some(a) => Current(c, a.id, a.occ, a.seen)
  {
    match step
    case Peek(t) =>
      if t in s.calls && Hit(s.reader, s.calls[t].id) {
        var id := s.calls[t].id;
        CurrentEarlier(c, id, s.reader.cache[id].occ, s.reader.head, s.calls[t].seen);
      }
    case _ =>
  }

  // ---- failing closed --------------------------------------------------------------------------

  predicate Succeeds(s: Shared, step: Step) {
    step.Apply? && FlightOf(s.flights, step.t).Some? && FlightOf(s.flights, step.t).value.outcome.Advanced?
  }

  /** After a failed advance no further call gets past ensureCurrent until one succeeds,
      so only calls already past it can still be answered. */
  lemma {:induction false} ClosedAfterFailure(c: Chain, s: Shared, steps: seq<Step>)
    requires s.reader.started && s.reader.failed
    requires forall i :: 0 <= i < |steps| ==> !Succeeds(Run(c, s, steps[..i]), steps[i])
    ensures var s' := Run(c, s, steps);
            && s'.reader.started && s'.reader.failed
            && s'.calls.Keys <= s.calls.Keys
            && (forall t :: t in s'.calls ==> s'.calls[t].id == s.calls[t].id)
  {
    if steps != [] {
      var init := steps[..|steps| - 1];
      forall i | 0 <= i < |init| ensures !Succeeds(Run(c, s, init[..i]), init[i]) {
        assert steps[..i] == init[..i];
      }
      ClosedAfterFailure(c, s, init);
      hide Run;
      ClosedStep(c, Run(c, s, init), steps[|steps| - 1]);
    }
  }

  lemma ClosedStep(c: Chain, s: Shared, step: Step)
    requires s.reader.started && s.reader.failed && !Succeeds(s, step)
    ensures var s' := Next(c, s, step);
            && s'.reader.started && s'.reader.failed
            && s'.calls.Keys <= s.calls.Keys
            && (forall t :: t in s'.calls ==> s'.calls[t].id == s.calls[t].id)
  {
  }

  // ---- what stays in the cache ------------------------------------------------------------------

  /** A finished read that no advance overtook is remembered, and one that was overtaken is not. */
  lemma ReadIsRemembered(c: Chain, s: Shared, t: Thread, at: nat)
    requires t in s.calls && s.calls[t].Reading?
    ensures var call, s' := s.calls[t], Next(c, s, Finish(t, Some(at)));
            && (call.captured == s.reader.head ==>
                  s'.reader.cache == s.reader.cache[call.id := Cached(c.state(at, call.id), s.reader.head)])
            && (call.captured != s.reader.head ==> s'.reader == s.reader)
            && (call.captured == s.reader.head ==> Hit(s'.reader, call.id))
  {
  }

  /** An entry outlives an advance exactly when no block of it names its channel, and it is
      answered from the cache again as of the new head; one that failed drops nothing. */
  lemma EntryOutlives(r: Reader, o: Outcome, id: Id)
    requires Hit(r, id)
    ensures var r' := Applied(r, o);
            && (o.Advanced? ==> (id in r'.cache <==> id !in o.touched) && (id in r'.cache ==> Hit(r', id)))
            && (o.Failed? ==> id in r'.cache && Hit(r', id))
            && (id in r'.cache ==> r'.cache[id].occ == r.cache[id].occ)
  {
  }

  // ---- what goes wrong otherwise -------------------------------------------------------------------

  /** An advance that fails after block `k` has moved the follower past the blocks up to
      `k` and forgotten which channels they named. The next success restamps a channel
      cached before unless a later block names it again, and then serves the old value. */
  lemma FailedAdvanceForgets(c: Chain, s: Shared, t: Thread, id: Id, k: nat, finalised: nat)
    requires s.flights == [] && Free(s, t) && Hit(s.reader, id)
    requires s.position <= k < finalised && s.reader.head <= s.position
    ensures var steps := [Advance(t, id, finalised, Some(k + 1)), Apply(t), Advance(t, id, finalised, None), Apply(t)];
            var s' := Run(c, s, steps);
            && s'.reader.head == finalised && s'.calls == s.calls[t := Passed(id, finalised)]
            && (Answered(c, s', Peek(t)) == Some(Answer(id, s.reader.cache[id].occ, finalised))
                <==> Quiet(c, id, k, finalised))
            && (Answered(c, s', Peek(t)).None? <==> !Quiet(c, id, k, finalised))
  {
    hide Run, Named, Quiet;
    var e1, e2, e3, e4 := Advance(t, id, finalised, Some(k + 1)), Apply(t), Advance(t, id, finalised, None), Apply(t);
    RunFour(c, s, e1, e2, e3, e4);
    var s1 := Next(c, s, e1);
    assert s1.flights == [Flight(t, id, Failed, s.position, k)];
    var s2 := Next(c, s1, e2);
    assert s2.flights == [] && s2.calls == s.calls && s2.reader == s.reader.(started := true, failed := true);
    var s3 := Next(c, s2, e3);
    assert s3.flights == [Flight(t, id, Advanced(Named(c, k, finalised), finalised), k, finalised)];
    NamedIsNotQuiet(c, id, k, finalised);
  }

  lemma RunFour(c: Chain, s: Shared, e1: Step, e2: Step, e3: Step, e4: Step)
    ensures Run(c, s, [e1, e2, e3, e4]) == Next(c, Next(c, Next(c, Next(c, s, e1), e2), e3), e4)
  {
    hide Next, Run;
    RunThree(c, s, e1, e2, e3);
    RunMore(c, s, [e1, e2, e3], e4);
    assert [e1, e2, e3] + [e4] == [e1, e2, e3, e4];
  }

  /** The value so served is stale whenever the contract changed the channel for good. */
  lemma ServedStale(c: Chain, id: Id, occ: OnChain, finalised: nat)
    requires forall b: nat :: b >= finalised ==> c.state(b, id) != occ
    ensures !Current(c, id, occ, finalised)
  {
  }

  /** Two overlapping advances, the later one applied first. A channel cached before is then
      answered from the cache exactly when the later one did not name it; and that answer
      is what the contract holds at the head exactly when the blocks of the earlier one,
      whose outcome still waits, left the channel as it was. */
  lemma OutOfOrderExact(c: Chain, s: Shared, t: Thread, u: Thread, id: Id, mid: nat, finalised: nat)
    requires Emits(c) && s.flights == [] && Free(s, t) && Free(s, u) && t != u && Hit(s.reader, id)
    requires s.position <= mid <= finalised && s.reader.head <= s.position
    ensures var s' := Run(c, s, [Advance(t, id, mid, None), Advance(u, id, finalised, None), Apply(u)]);
            var occ := s.reader.cache[id].occ;
            && s'.reader.head == finalised
            && (Answered(c, s', Peek(u)) == Some(Answer(id, occ, finalised)) <==> Quiet(c, id, mid, finalised))
            && (Answered(c, s', Peek(u)).None? <==> !Quiet(c, id, mid, finalised))
            && (Quiet(c, id, mid, finalised) ==> (occ == c.state(finalised, id) <==> occ == c.state(mid, id)))
    ensures !Orderly(Run(c, s, [Advance(t, id, mid, None), Advance(u, id, finalised, None)]), c, Apply(u))
  {
    hide Run, Named;
    var e1, e2, e3 := Advance(t, id, mid, None), Advance(u, id, finalised, None), Apply(u);
    RunThree(c, s, e1, e2, e3);
    RunTwo(c, s, e1, e2);
    var s1 := Next(c, s, e1);
    var first := Flight(t, id, Advanced(Named(c, s.position, mid), mid), s.position, mid);
    var second := Flight(u, id, Advanced(Named(c, mid, finalised), finalised), mid, finalised);
    assert s1.flights == [first] && [first][1..] == [];
    var s2 := Next(c, s1, e2);
    assert s2.flights == [first, second] && [first, second][1..] == [second];
    assert FlightOf([second], u) == Some(second) && FlightOf(s2.flights, u) == Some(second);
    var s3 := Next(c, s2, e3);
    NamedIsNotQuiet(c, id, mid, finalised);
    assert s3.reader == Applied(s.reader, second.outcome);
    if Quiet(c, id, mid, finalised) {
      QuietMeansUnchanged(c, id, mid, finalised);
    }
  }

  /** So when the earlier one's blocks changed the channel for good, its old value is served
      as an answer that the contract never holds again. */
  lemma OverlappingAdvancesServeOld(c: Chain, s: Shared, t: Thread, u: Thread, id: Id, mid: nat, finalised: nat)
    requires Emits(c) && s.flights == [] && Free(s, t) && Free(s, u) && t != u && Hit(s.reader, id)
    requires s.position <= mid <= finalised && s.reader.head <= s.position
    requires Current(c, id, s.reader.cache[id].occ, s.position)
    requires forall b: nat :: b >= mid ==> c.state(b, id) != s.reader.cache[id].occ
    requires Quiet(c, id, mid, finalised)
    ensures var steps := [Advance(t, id, mid, None), Advance(u, id, finalised, None), Apply(u)];
            var s' := Run(c, s, steps);
            && !Orderly(Run(c, s, steps[..2]), c, Apply(u))
            && s'.reader.head == finalised && !Quiet(c, id, s.position, mid)
            && Answered(c, s', Peek(u)) == Some(Answer(id, s.reader.cache[id].occ, finalised))
            && !Current(c, id, s.reader.cache[id].occ, finalised)
  {
    hide Run, Orderly, Answered;
    var e1, e2, e3 := Advance(t, id, mid, None), Advance(u, id, finalised, None), Apply(u);
    var occ := s.reader.cache[id].occ;
    OutOfOrderExact(c, s, t, u, id, mid, finalised);
    assert [e1, e2, e3][..2] == [e1, e2];
    ServedStale(c, id, occ, finalised);
    ServedStale(c, id, occ, mid);
    if Quiet(c, id, s.position, mid) {
      CurrentLater(c, id, occ, s.position, mid);
    }
  }

  lemma RunTwo(c: Chain, s: Shared, e1: Step, e2: Step)
    ensures Run(c, s, [e1, e2]) == Next(c, Next(c, s, e1), e2)
  {
    hide Next;
    RunMore(c, s, [], e1);
    RunMore(c, s, [e1], e2);
    assert [] + [e1] == [e1] && [e1] + [e2] == [e1, e2];
  }

  lemma RunThree(c: Chain, s: Shared, e1: Step, e2: Step, e3: Step)
    ensures Run(c, s, [e1, e2, e3]) == Next(c, Next(c, Next(c, s, e1), e2), e3)
  {
    hide Next;
    RunTwo(c, s, e1, e2);
    RunMore(c, s, [e1, e2], e3);
    assert [e1, e2] + [e3] == [e1, e2, e3];
  }

  lemma RunMore(c: Chain, s: Shared, steps: seq<Step>, e: Step)
    ensures Run(c, s, steps + [e]) == Next(c, Run(c, s, steps), e)
  {
    hide Next;
    assert (steps + [e])[..|steps + [e]| - 1] == steps;
  }
}
