/** Coming back from a backup: every loaded channel is quarantined until the highest state
    this node ever signed has been looked for. */
module Reconcile {
  import opened Common
  import opened Bytes
  import opened Disk
  import opened Scpp

  type Id = Bytes32
  type Address = nat

  /** An ideal signature: it recovers to its signer only over the state it was made for. */
  datatype Signature = Signature(signer: Address, over: State)

  datatype Signed = Signed(state: State, sigA: Option<Signature>, sigB: Option<Signature>)

  /** A channel as stored: collateral from the chain, the newest state from the parties. */
  datatype Record = Record(id: Id, partyA: Address, partyB: Address, deposits: int, isOpen: bool, latest: Signed)

  predicate Complete(s: Signed) {
    s.sigA.Some? && s.sigB.Some?
  }

  predicate Recovers(sig: Option<Signature>, over: State, who: Address) {
    sig.Some? && sig.value.over == over && sig.value.signer == who
  }

  predicate BothParties(s: Signed, r: Record) {
    Recovers(s.sigA, s.state, r.partyA) && Recovers(s.sigB, s.state, r.partyB)
  }

  function Locked(ls: seq<Htlc>): int {
    if ls == [] then 0 else Locked(ls[..|ls| - 1]) + ls[|ls| - 1].amount
  }

  predicate Conserved(s: State, deposits: int) {
    s.balanceA + s.balanceB + Locked(s.pending) + s.withdrawA + s.withdrawB == deposits
  }

  /** A state this node may adopt: it conserves the deposits, both parties signed it, and
      one of the signatures is this node's own. */
  predicate Usable(r: Record, self: Address, c: Signed) {
    && Conserved(c.state, r.deposits)
    && BothParties(c, r)
    && Recovers(if r.partyB == self then c.sigB else c.sigA, c.state, self)
  }

  /** The check of this node's own signature adds nothing for a party of the channel, and
      shuts out everyone else. */
  lemma UsableForParties(r: Record, self: Address, c: Signed)
    ensures Usable(r, self, c) <==>
              Conserved(c.state, r.deposits) && BothParties(c, r) && (self == r.partyA || self == r.partyB)
  {
  }

  /** The one door through which a state becomes the latest. */
  predicate MayBecomeLatest(r: Record, c: Signed) {
    && r.isOpen && c.state.channel == r.id
    && (c.state.nonce > r.latest.state.nonce || (r.latest.state.nonce == 0 && !Complete(r.latest)))
    && c.state.balanceA >= 0 && c.state.balanceB >= 0
    && (forall i :: 0 <= i < |c.state.pending| ==> c.state.pending[i].amount > 0 && c.state.pending[i].expiry > 0)
    && (forall i, j :: 0 <= i < j < |c.state.pending| ==> c.state.pending[i].id != c.state.pending[j].id)
    && Conserved(c.state, r.deposits)
    && Complete(c) && BothParties(c, r)
  }

  /** The better of what is held so far and one more answer. */
  function Better(r: Record, self: Address, best: Signed, answer: Option<Signed>): Signed {
    if answer.None? || !Complete(answer.value) then best
    else if Complete(best) && answer.value.state.nonce <= best.state.nonce then best
    else if !Usable(r, self, answer.value) then best
    else answer.value
  }

  function Best(r: Record, self: Address, answers: seq<Option<Signed>>): Signed {
    if answers == [] then r.latest
    else Better(r, self, Best(r, self, answers[..|answers| - 1]), answers[|answers| - 1])
  }

  ghost predicate Offered(r: Record, self: Address, answers: seq<Option<Signed>>, c: Signed) {
    Some(c) in answers && Complete(c) && Usable(r, self, c)
  }

  /** What is held is kept against answers of its own nonce, and an earlier answer against later
      ones. */
  ghost predicate FirstOfItsNonce(r: Record, self: Address, answers: seq<Option<Signed>>, best: Signed) {
    || best == r.latest
    || ((Complete(r.latest) ==> best.state.nonce > r.latest.state.nonce)
        && exists i :: 0 <= i < |answers| && answers[i] == Some(best)
                       && forall j :: 0 <= j < i && answers[j].Some? && Offered(r, self, answers, answers[j].value) ==>
                            answers[j].value.state.nonce < best.state.nonce)
  }

  /** The best answer is no lower than anything usable that any source offered, and is
      either what was held already or one of those offers. */
  lemma {:induction false} BestIsHighest(r: Record, self: Address, answers: seq<Option<Signed>>)
    ensures var best := Best(r, self, answers);
            && (best == r.latest || Offered(r, self, answers, best))
            && (Complete(r.latest) ==> Complete(best) && best.state.nonce >= r.latest.state.nonce)
            && (forall c :: Offered(r, self, answers, c) ==> Complete(best) && best.state.nonce >= c.state.nonce)
    ensures FirstOfItsNonce(r, self, answers, Best(r, self, answers))
  {
    hide Usable;
    if answers != [] {
      var n := |answers| - 1;
      BestIsHighest(r, self, answers[..n]);
      assert answers == answers[..n] + [answers[n]];
      FirstStays(r, self, answers);
    }
  }

  lemma FirstStays(r: Record, self: Address, answers: seq<Option<Signed>>)
    requires answers != []
    requires var init := answers[..|answers| - 1];
             && FirstOfItsNonce(r, self, init, Best(r, self, init))
             && forall c :: Offered(r, self, init, c) ==>
                  Complete(Best(r, self, init)) && Best(r, self, init).state.nonce >= c.state.nonce
    requires var init := answers[..|answers| - 1];
             Complete(r.latest) ==> Complete(Best(r, self, init)) && Best(r, self, init).state.nonce >= r.latest.state.nonce
    ensures FirstOfItsNonce(r, self, answers, Best(r, self, answers))
  {
    hide Usable;
    var n := |answers| - 1;
    var init, best := answers[..n], Best(r, self, answers);
    if best == Best(r, self, init) {
      if best != r.latest {
        var i :| 0 <= i < |init| && init[i] == Some(best)
                 && forall j :: 0 <= j < i && init[j].Some? && Offered(r, self, init, init[j].value) ==>
                      init[j].value.state.nonce < best.state.nonce;
        assert answers[i] == Some(best);
        forall j | 0 <= j < i && answers[j].Some? && Offered(r, self, answers, answers[j].value)
          ensures answers[j].value.state.nonce < best.state.nonce
        {
          assert init[j] == answers[j];
        }
      }
    } else {
      assert answers[n] == Some(best);
      forall j | 0 <= j < n && answers[j].Some? && Offered(r, self, answers, answers[j].value)
        ensures answers[j].value.state.nonce < best.state.nonce
      {
        assert init[j] == answers[j];
        assert Offered(r, self, init, init[j].value);
      }
    }
  }

  // ---- the store -----------------------------------------------------------------------------

  type Files = map<Id, File<Record>>

  /** Memory and disk; `floor` is history only: the highest nonce each channel was let go
      or stored with. */
  datatype World = World(channels: map<Id, Record>, quarantined: set<Id>, files: Files, marker: bool, floor: map<Id, nat>)

  predicate Newer(r: Record, best: Signed) {
    Complete(best) && (!Complete(r.latest) || best.state.nonce > r.latest.state.nonce)
  }

  /** Removing a channel from quarantine, and the marker with the last of them. */
  function Released(w: World, id: Id, markerStuck: bool): World {
    var left := w.quarantined - {id};
    w.(quarantined := left, marker := if left == {} && !markerStuck then false else w.marker)
  }

  /** Answers are what each source says when asked for this channel. */
  ghost function ReconcileOn(w: World, id: Id, self: Address, answers: seq<Option<Signed>>, fault: Fault, markerStuck: bool)
    : (World, bool)
  {
    if id !in w.quarantined then (w, true)
    else if id !in w.channels || id !in w.files then (w, false)
    else
      var r := w.channels[id];
      var best := Best(r, self, answers);
      if !Newer(r, best) then
        (Released(w.(floor := w.floor[id := r.latest.state.nonce]), id, markerStuck),
         w.quarantined - {id} != {} || !markerStuck)
      else if !MayBecomeLatest(r, best) then (w, false)
      else
        var next := r.(latest := best);
        var (f, ok) := Replace(w.files[id], next, fault);
        var written := w.(files := w.files[id := f]);
        if !ok then (written, false)
        else (Released(written.(channels := w.channels[id := next], floor := w.floor[id := best.state.nonce]), id, markerStuck),
              w.quarantined - {id} != {} || !markerStuck)
  }

  /** What a start reads: everything on disk, quarantined when the marker is there. */
  function Opened(files: Files, marker: bool, floor: map<Id, nat>): World {
    var channels := map id | id in files :: files[id].visible;
    World(channels, if marker then files.Keys else {}, files, marker && files.Keys != {}, floor)
  }

  class Store {
    var channels: map<Id, Record>
    var unreconciled: set<Id>
    ghost var files: Files
    var marker: bool
    ghost var floor: map<Id, nat>

    ghost function Contents(): World
      reads this
    {
      World(channels, unreconciled, files, marker, floor)
    }

    constructor Open(stored: map<Id, Record>, ghost files: Files, marker: bool, ghost floor: map<Id, nat>)
      requires stored.Keys == files.Keys && forall id :: id in files ==> stored[id] == files[id].visible
      ensures Contents() == Opened(files, marker, floor)
    {
      this.floor := floor;
      this.files, this.marker := files, marker && stored.Keys != {};
      this.channels := stored;
      this.unreconciled := if marker then stored.Keys else {};
    }

    /** Asks every source, adopts the best state that was really signed here, and only
        then lets the channel go. */
    method Reconcile(id: Id, self: Address, answers: seq<Option<Signed>>, fault: Fault, markerStuck: bool)
      returns (ok: bool)
      requires channels.Keys == files.Keys
      modifies this
      ensures (Contents(), ok) == ReconcileOn(old(Contents()), id, self, answers, fault, markerStuck)
    {
      if id !in unreconciled {
        return true;
      }
      if id !in channels {
        return false;
      }
      var r := channels[id];
      var best := r.latest;
      for i := 0 to |answers|
        invariant best == Best(r, self, answers[..i])
      {
        assert answers[..i + 1][..i] == answers[..i];
        if answers[i].Some? && Complete(answers[i].value) {
          var candidate := answers[i].value;
          if !(Complete(best) && candidate.state.nonce <= best.state.nonce) && Usable(r, self, candidate) {
            best := candidate;
          }
        }
      }
      assert answers[..|answers|] == answers;
      if !Newer(r, best) {
        floor := floor[id := r.latest.state.nonce];
      } else {
        if !MayBecomeLatest(r, best) {
          return false;
        }
        var next := r.(latest := best);
        files := files[id := Replace(files[id], next, fault).0];
        if fault != NoFault {
          return false;
        }
        channels, floor := channels[id := next], floor[id := best.state.nonce];
      }
      ok := ClearReconcile(id, markerStuck);
    }

    method ClearReconcile(id: Id, markerStuck: bool) returns (ok: bool)
      modifies this`unreconciled, this`marker
      ensures Contents() == Released(old(Contents()), id, markerStuck)
      ensures ok <==> unreconciled != {} || !markerStuck
    {
      unreconciled := unreconciled - {id};
      if unreconciled != {} {
        return true;
      }
      if markerStuck {
        return false;
      }
      marker := false;
      return true;
    }
  }

  // ---- every run ----------------------------------------------------------------------------------

  datatype Step =
    | Ask(id: Id, self: Address, answers: seq<Option<Signed>>, fault: Fault, markerStuck: bool)
    | Track(id: Id, record: Record)
    | Accept(id: Id, state: Signed, fault: Fault)
    | Restart(left: Files)

  /** A restart finds of every file something a crash could leave. */
  ghost predicate Possible(w: World, s: Step) {
    s.Restart? ==>
      s.left.Keys == w.files.Keys && forall id :: id in w.files ==> AfterCrash(w.files[id], s.left[id])
  }

  ghost predicate NoLower(f: File<Record>, nonce: nat) {
    forall r :: r in f.survivors ==> r.latest.state.nonce >= nonce
  }

  /** Asking about a channel is safe when it writes what it adopts, or finds nothing on
      disk that is lower than what was loaded. */
  ghost predicate Safe(w: World, s: Step) {
    s.Ask? && s.id in w.quarantined && s.id in w.channels && s.id in w.files
    && !Newer(w.channels[s.id], Best(w.channels[s.id], s.self, s.answers))
    ==> NoLower(w.files[s.id], w.channels[s.id].latest.state.nonce)
  }

  /** After a write that was reported, or a restart that finds the directory entry
      flushed, asking is safe. */
  lemma FlushedIsSafe(w: World, s: Step)
    requires s.Ask? && s.id in w.files && s.id in w.channels && w.files[s.id].visible == w.channels[s.id]
    requires Flushed(w.files[s.id])
    ensures Safe(w, s)
  {
  }

  /** Quarantine keeps a channel from signing; a newer state that both have signed it still
      accepts. */
  ghost function Next(w: World, s: Step): World {
    match s
    case Ask(id, self, answers, fault, markerStuck) => ReconcileOn(w, id, self, answers, fault, markerStuck).0
    case Track(id, record) =>
      if id in w.files then w
      else w.(channels := w.channels[id := record], files := w.files[id := File(record, iset{record})],
              floor := w.floor[id := record.latest.state.nonce])
    case Accept(id, state, fault) =>
      if id !in w.channels || id !in w.files || !MayBecomeLatest(w.channels[id], state) then w
      else
        var next := w.channels[id].(latest := state);
        var (f, ok) := Replace(w.files[id], next, fault);
        var written := w.(files := w.files[id := f]);
        if !ok then written
        else written.(channels := w.channels[id := next], floor := w.floor[id := state.state.nonce])
    case Restart(left) => Opened(left, w.marker, w.floor)
  }

  ghost function Run(files: Files, marker: bool, steps: seq<Step>): World {
    if steps == [] then Opened(files, marker, map[])
    else Next(Run(files, marker, steps[..|steps| - 1]), steps[|steps| - 1])
  }

  ghost predicate PossibleRun(files: Files, marker: bool, steps: seq<Step>) {
    forall i :: 0 <= i < |steps| ==> Possible(Run(files, marker, steps[..i]), steps[i])
  }

  ghost predicate SafeRun(files: Files, marker: bool, steps: seq<Step>) {
    && PossibleRun(files, marker, steps)
    && forall i :: 0 <= i < |steps| ==> Safe(Run(files, marker, steps[..i]), steps[i])
  }

  /** Nothing a crash can leave of the channel's file is below the floor. */
  ghost predicate Kept(w: World, id: Id) {
    id in w.files ==>
      && Sound(w.files[id]) && id in w.channels && w.channels[id] in w.files[id].survivors
      && forall r :: r in w.files[id].survivors && id in w.floor ==> r.latest.state.nonce >= w.floor[id]
  }

  ghost predicate Inv(w: World) {
    && w.channels.Keys == w.files.Keys && w.floor.Keys <= w.files.Keys
    && w.quarantined <= w.channels.Keys
    && (w.quarantined != {} ==> w.marker)
    && forall id {:trigger Kept(w, id)} :: Kept(w, id)
  }

  ghost predicate FloorRises(w: World, w': World) {
    forall id :: id in w.floor ==> id in w'.floor && w'.floor[id] >= w.floor[id]
  }

  lemma RisesOrStays(r: Record, c: Signed)
    ensures MayBecomeLatest(r, c) ==> c.state.nonce >= r.latest.state.nonce
  {
  }

  /** Of the channel asked about: nothing on disk is below the floor exactly when asking is safe. */
  lemma AskedKept(w: World, s: Step)
    requires Inv(w) && s.Ask? && s.id in w.quarantined && s.id in w.files
    ensures Kept(Next(w, s), s.id) <==> Safe(w, s)
  {
    hide Best, Usable, MayBecomeLatest;
    assert Kept(w, s.id);
    RisesOrStays(w.channels[s.id], Best(w.channels[s.id], s.self, s.answers));
  }

  /** Asking about one channel leaves the others, and the books around them, in order. */
  lemma AskedOnly(w: World, s: Step)
    requires Inv(w) && s.Ask?
    ensures var w' := Next(w, s);
            && w'.channels.Keys == w'.files.Keys && w'.floor.Keys <= w'.files.Keys
            && w'.quarantined <= w'.channels.Keys && (w'.quarantined != {} ==> w'.marker)
            && (forall x :: x != s.id ==>
                  && (x in w'.files <==> x in w.files) && (x in w.files ==> w'.files[x] == w.files[x])
                  && (x in w'.channels <==> x in w.channels) && (x in w.channels ==> w'.channels[x] == w.channels[x])
                  && (x in w'.floor <==> x in w.floor) && (x in w.floor ==> w'.floor[x] == w.floor[x]))
            && (s.id !in w.quarantined ==> w' == w)
  {
    AskedShape(w, s);
    hide Best, Usable, MayBecomeLatest, Kept, Next, ReconcileOn;
  }

  lemma AskedShape(w: World, s: Step)
    requires s.Ask? && w.channels.Keys == w.files.Keys && w.quarantined <= w.channels.Keys
    ensures var w' := Next(w, s);
            && (s.id !in w.quarantined ==> w' == w)
            && w'.channels - {s.id} == w.channels - {s.id} && w'.files - {s.id} == w.files - {s.id}
            && w'.floor - {s.id} == w.floor - {s.id}
            && w'.channels.Keys == w.channels.Keys && w'.files.Keys == w.files.Keys
            && w'.floor.Keys <= w.floor.Keys + {s.id}
            && w'.quarantined <= w.quarantined && (w'.marker == w.marker || w'.quarantined == {})
  {
    hide Best, Usable, MayBecomeLatest, Newer, Replace;
  }

  lemma AskedFloor(w: World, s: Step)
    requires Inv(w) && s.Ask? && s.id in w.floor
    ensures s.id in Next(w, s).floor && Next(w, s).floor[s.id] >= w.floor[s.id]
  {
    hide Best, Usable, MayBecomeLatest;
    assert Kept(w, s.id);
    RisesOrStays(w.channels[s.id], Best(w.channels[s.id], s.self, s.answers));
  }

  /** Asking keeps what every crash can leave at the floor exactly when it is safe. */
  lemma AskExact(w: World, s: Step)
    requires Inv(w) && s.Ask?
    ensures Inv(Next(w, s)) <==> Safe(w, s)
    ensures FloorRises(w, Next(w, s))
  {
    var w' := Next(w, s);
    AskedOnly(w, s);
    if s.id in w.floor { AskedFloor(w, s); }
    if s.id in w.quarantined {
      AskedKept(w, s);
      hide Next, Safe;
      forall x | x != s.id ensures Kept(w', x) {
        assert Kept(w, x);
      }
      if Safe(w, s) {
        assert forall x {:trigger Kept(w', x)} :: Kept(w', x);
      } else {
        assert !Kept(w', s.id);
      }
    } else {
      hide Next;
    }
  }

  lemma AcceptKeeps(w: World, id: Id, c: Signed, fault: Fault)
    requires Inv(w)
    ensures Inv(Next(w, Accept(id, c, fault))) && FloorRises(w, Next(w, Accept(id, c, fault)))
  {
    hide MayBecomeLatest;
    assert Kept(w, id);
    if id in w.channels {
      RisesOrStays(w.channels[id], c);
    }
    forall x ensures Kept(Next(w, Accept(id, c, fault)), x) {
      assert Kept(w, x);
    }
  }

  lemma TrackKeeps(w: World, id: Id, record: Record)
    requires Inv(w)
    ensures Inv(Next(w, Track(id, record))) && FloorRises(w, Next(w, Track(id, record)))
  {
    forall x ensures Kept(Next(w, Track(id, record)), x) {
      assert Kept(w, x);
    }
  }

  lemma RestartKeeps(w: World, left: Files)
    requires Inv(w) && Possible(w, Restart(left))
    ensures Inv(Next(w, Restart(left))) && FloorRises(w, Next(w, Restart(left)))
  {
    forall x ensures Kept(Next(w, Restart(left)), x) {
      assert Kept(w, x);
      assert x in w.files ==> AfterCrash(w.files[x], left[x]);
    }
  }

  lemma NextKeeps(w: World, s: Step)
    requires Inv(w) && Possible(w, s) && Safe(w, s)
    ensures Inv(Next(w, s)) && FloorRises(w, Next(w, s))
  {
    hide Inv, Next, Possible, Safe;
    match s
    case Ask(_, _, _, _, _) => AskExact(w, s);
    case Track(id, record) => TrackKeeps(w, id, record);
    case Accept(id, state, fault) => AcceptKeeps(w, id, state, fault);
    case Restart(left) => RestartKeeps(w, left);
  }

  lemma SafePrefix(files: Files, marker: bool, steps: seq<Step>, n: nat)
    requires SafeRun(files, marker, steps) && n <= |steps|
    ensures SafeRun(files, marker, steps[..n])
  {
    hide Possible, Safe, Run;
    forall i | 0 <= i < n
      ensures Possible(Run(files, marker, steps[..n][..i]), steps[i]) && Safe(Run(files, marker, steps[..n][..i]), steps[i])
    {
      assert steps[..n][..i] == steps[..i];
    }
  }

  lemma {:induction false} RunKeeps(files: Files, marker: bool, steps: seq<Step>)
    requires forall id :: id in files ==> Sound(files[id])
    requires SafeRun(files, marker, steps)
    ensures Inv(Run(files, marker, steps))
  {
    hide Inv, Next, Possible, Safe;
    if steps == [] {
      OpenedKept(files, marker);
    } else {
      var init := steps[..|steps| - 1];
      SafePrefix(files, marker, steps, |steps| - 1);
      RunKeeps(files, marker, init);
      NextKeeps(Run(files, marker, init), steps[|steps| - 1]);
    }
  }

  lemma OpenedKept(files: Files, marker: bool)
    requires forall id :: id in files ==> Sound(files[id])
    ensures Inv(Opened(files, marker, map[]))
  {
  }

  lemma {:induction false} FloorNeverFalls(files: Files, marker: bool, steps: seq<Step>, i: nat)
    requires forall id :: id in files ==> Sound(files[id])
    requires SafeRun(files, marker, steps) && i <= |steps|
    ensures FloorRises(Run(files, marker, steps[..i]), Run(files, marker, steps))
  {
    hide Inv, Next, Possible, Safe;
    if i < |steps| {
      var init := steps[..|steps| - 1];
      SafePrefix(files, marker, steps, |steps| - 1);
      assert init[..i] == steps[..i];
      FloorNeverFalls(files, marker, init, i);
      RunKeeps(files, marker, init);
      NextKeeps(Run(files, marker, init), steps[|steps| - 1]);
    } else {
      assert steps[..i] == steps;
    }
  }

  // ---- leaving quarantine ---------------------------------------------------------------------------

  /** A channel leaves quarantine within one life of the node only by being asked about,
      and then its nonce is no lower than that of anything usable any source offered. */
  lemma LeavesOnlyReconciled(w: World, s: Step, id: Id, c: Signed)
    requires Inv(w) && !s.Restart?
    requires id in w.quarantined && id !in Next(w, s).quarantined
    ensures s.Ask? && s.id == id
    ensures Offered(w.channels[id], s.self, s.answers, c) ==> Next(w, s).floor[id] >= c.state.nonce
    ensures Next(w, s).channels[id].latest.state.nonce == Next(w, s).floor[id]
    ensures Next(w, s).channels[id].latest == w.channels[id].latest
            || Offered(w.channels[id], s.self, s.answers, Next(w, s).channels[id].latest)
  {
    hide Best, Usable, MayBecomeLatest, Offered;
    if s.Ask? {
      BestIsHighest(w.channels[id], s.self, s.answers);
    }
  }

  /** And from then on, through any crash and restart, whatever is stored for it stays at
      least that high. */
  lemma ReconciledForGood(files: Files, marker: bool, steps: seq<Step>, i: nat, id: Id, c: Signed)
    requires forall x :: x in files ==> Sound(files[x])
    requires SafeRun(files, marker, steps) && i < |steps| && !steps[i].Restart?
    requires var w := Run(files, marker, steps[..i]);
             id in w.quarantined && id !in Next(w, steps[i]).quarantined
    requires var w := Run(files, marker, steps[..i]);
             id in w.channels && steps[i].Ask? && Offered(w.channels[id], steps[i].self, steps[i].answers, c)
    ensures var w := Run(files, marker, steps);
            id in w.channels && w.channels[id].latest.state.nonce >= c.state.nonce
  {
    hide Inv, Next, Possible, Safe, Offered, Run;
    var before := steps[..i];
    SafePrefix(files, marker, steps, i);
    RunKeeps(files, marker, before);
    LeavesOnlyReconciled(Run(files, marker, before), steps[i], id, c);
    RunStep(files, marker, steps, i);
    ReleasedHasFloor(Run(files, marker, before), steps[i], id);
    FloorNeverFalls(files, marker, steps, i + 1);
    RunKeeps(files, marker, steps);
    AboveFloor(Run(files, marker, steps), id);
  }

  lemma ReleasedHasFloor(w: World, s: Step, id: Id)
    requires Inv(w) && s.Ask? && id in w.quarantined && id !in Next(w, s).quarantined
    ensures id in Next(w, s).floor
  {
    hide Best, Usable, MayBecomeLatest;
  }

  lemma RunStep(files: Files, marker: bool, steps: seq<Step>, i: nat)
    requires i < |steps|
    ensures Run(files, marker, steps[..i + 1]) == Next(Run(files, marker, steps[..i]), steps[i])
  {
    hide Next;
    assert steps[..i + 1][..i] == steps[..i];
  }

  lemma AboveFloor(w: World, id: Id)
    requires Inv(w) && id in w.floor
    ensures id in w.channels && w.channels[id].latest.state.nonce >= w.floor[id]
  {
    assert Kept(w, id);
  }

  /** As long as anything is held, the marker is on disk. */
  ghost predicate Marked(w: World) {
    && w.channels.Keys == w.files.Keys && w.quarantined <= w.channels.Keys
    && (w.quarantined != {} ==> w.marker)
  }

  lemma NextMarked(w: World, s: Step)
    requires Marked(w) && Possible(w, s)
    ensures Marked(Next(w, s))
  {
    hide Best, Usable, MayBecomeLatest;
  }

  lemma {:induction false} RunMarked(files: Files, marker: bool, steps: seq<Step>)
    requires PossibleRun(files, marker, steps)
    ensures Marked(Run(files, marker, steps))
  {
    hide Next, Possible;
    if steps != [] {
      var init := steps[..|steps| - 1];
      forall i | 0 <= i < |init| ensures Possible(Run(files, marker, init[..i]), init[i]) {
        assert init[..i] == steps[..i];
      }
      RunMarked(files, marker, init);
      NextMarked(Run(files, marker, init), steps[|steps| - 1]);
    }
  }

  /** The marker outlives the quarantine: while any channel is still held, a restart holds
      every stored channel again, whatever failed or crashed in between. */
  lemma MarkerOutlivesQuarantine(files: Files, marker: bool, steps: seq<Step>, left: Files)
    requires PossibleRun(files, marker, steps)
    requires Run(files, marker, steps).quarantined != {} && Possible(Run(files, marker, steps), Restart(left))
    ensures Next(Run(files, marker, steps), Restart(left)).quarantined == Run(files, marker, steps).files.Keys
  {
    RunMarked(files, marker, steps);
    hide Run;
  }

  // ---- what is ever adopted -----------------------------------------------------------------------------

  /** A state of this channel that both parties signed as it stands, which shares out exactly
      the deposits, owes nobody less than nothing, and lists distinct live locks. */
  ghost predicate SoundState(r: Record, c: Signed) {
    && c.state.channel == r.id
    && c.sigA == Some(Signature(r.partyA, c.state)) && c.sigB == Some(Signature(r.partyB, c.state))
    && c.state.balanceA >= 0 && c.state.balanceB >= 0
    && r.deposits == c.state.balanceA + c.state.balanceB + c.state.withdrawA + c.state.withdrawB + Locked(c.state.pending)
    && (forall l :: l in c.state.pending ==> l.amount > 0 && l.expiry > 0)
    && forall i, j :: 0 <= i < |c.state.pending| && 0 <= j < |c.state.pending| && i != j ==>
         c.state.pending[i].id != c.state.pending[j].id
  }

  lemma LockedMore(ls: seq<Htlc>, l: Htlc)
    ensures Locked([]) == 0 && Locked(ls + [l]) == Locked(ls) + l.amount
  {
    assert (ls + [l])[..|ls|] == ls;
  }

  /** What may become the latest state is exactly a sound one, on a channel that is open, with a
      higher nonce than the one held or where none was signed yet. */
  lemma AcceptsExactly(r: Record, c: Signed)
    ensures MayBecomeLatest(r, c) <==>
              && r.isOpen && SoundState(r, c)
              && (c.state.nonce > r.latest.state.nonce
                  || (r.latest.state.nonce == 0 && (r.latest.sigA.None? || r.latest.sigB.None?)))
  {
  }

  /** The record holds a sound state, or none that both signed. */
  ghost predicate Right(r: Record) {
    Complete(r.latest) ==> SoundState(r, r.latest)
  }

  ghost predicate AllRight(w: World) {
    && (forall id :: id in w.channels ==> Right(w.channels[id]))
    && forall id :: id in w.files ==> Sound(w.files[id]) && forall r :: r in w.files[id].survivors ==> Right(r)
  }

  ghost predicate TracksRight(s: Step) {
    s.Track? ==> Right(s.record)
  }

  lemma NextRight(w: World, s: Step)
    requires AllRight(w) && Possible(w, s) && TracksRight(s)
    ensures AllRight(Next(w, s))
  {
    hide Next, AllRight;
    match s
    case Ask(_, _, _, _, _) => AskRight(w, s);
    case Accept(id, c, fault) => AcceptRight(w, id, c, fault);
    case Track(id, record) => TrackRight(w, id, record);
    case Restart(left) => RestartRight(w, left);
  }

  lemma TrackRight(w: World, id: Id, record: Record)
    requires AllRight(w) && Right(record)
    ensures AllRight(Next(w, Track(id, record)))
  {
    hide Right;
  }

  lemma RestartRight(w: World, left: Files)
    requires AllRight(w) && Possible(w, Restart(left))
    ensures AllRight(Next(w, Restart(left)))
  {
    hide Right;
    forall id | id in left ensures Sound(left[id]) && Right(left[id].visible) && forall r :: r in left[id].survivors ==> Right(r) {
      assert AfterCrash(w.files[id], left[id]);
    }
  }

  lemma AdoptedRight(r: Record, c: Signed)
    requires MayBecomeLatest(r, c)
    ensures Right(r.(latest := c))
  {
    AcceptsExactly(r, c);
    SameSound(r, c);
    hide MayBecomeLatest, SoundState;
  }

  lemma WrittenRight(w: World, id: Id, next: Record, fault: Fault)
    requires AllRight(w) && id in w.files && Right(next)
    ensures AllRight(w.(files := w.files[id := Replace(w.files[id], next, fault).0]))
    ensures AllRight(w.(files := w.files[id := Replace(w.files[id], next, fault).0], channels := w.channels[id := next]))
  {
    hide Right;
  }

  lemma AcceptRight(w: World, id: Id, c: Signed, fault: Fault)
    requires AllRight(w)
    ensures AllRight(Next(w, Accept(id, c, fault)))
  {
    if id in w.channels && id in w.files && MayBecomeLatest(w.channels[id], c) {
      AdoptedRight(w.channels[id], c);
      WrittenRight(w, id, w.channels[id].(latest := c), fault);
    }
    hide MayBecomeLatest, Right, Sound;
  }

  lemma AskRight(w: World, s: Step)
    requires AllRight(w) && s.Ask?
    ensures AllRight(Next(w, s))
  {
    if s.id in w.channels && s.id in w.files {
      var r := w.channels[s.id];
      var best := Best(r, s.self, s.answers);
      if MayBecomeLatest(r, best) {
        AdoptedRight(r, best);
        WrittenRight(w, s.id, r.(latest := best), s.fault);
      }
    }
    hide MayBecomeLatest, Right, Sound, Best, Newer;
  }

  lemma SameSound(r: Record, c: Signed)
    ensures SoundState(r.(latest := c), c) <==> SoundState(r, c)
  {
  }

  /** Over every run, whatever is offered, forged, lost or read back: the latest state of every
      channel, in memory and on disk, is sound or not signed by both. */
  lemma {:induction false} LatestIsAlwaysSound(files: Files, marker: bool, steps: seq<Step>)
    requires AllRight(Opened(files, marker, map[]))
    requires PossibleRun(files, marker, steps) && forall i :: 0 <= i < |steps| ==> TracksRight(steps[i])
    ensures AllRight(Run(files, marker, steps))
  {
    hide Next, Possible, AllRight;
    if steps != [] {
      var init := steps[..|steps| - 1];
      forall i | 0 <= i < |init| ensures Possible(Run(files, marker, init[..i]), init[i]) {
        assert init[..i] == steps[..i];
      }
      LatestIsAlwaysSound(files, marker, init);
      NextRight(Run(files, marker, init), steps[|steps| - 1]);
    }
  }

  /** A held channel that is asked about is let go exactly when nothing usable that was offered
      is newer than what it holds, or the best of it may become the latest state and is written;
      an adopted state is the best one. */
  lemma ReleasedExactly(w: World, s: Step)
    requires s.Ask? && s.id in w.quarantined && s.id in w.channels && s.id in w.files
    ensures var r, w' := w.channels[s.id], Next(w, s);
            var best := Best(r, s.self, s.answers);
            var nothingNewer := forall c :: Offered(r, s.self, s.answers, c) ==>
                                  Complete(r.latest) && c.state.nonce <= r.latest.state.nonce;
            && (s.id !in w'.quarantined <==> nothingNewer || (MayBecomeLatest(r, best) && s.fault == NoFault))
            && (s.id !in w'.quarantined ==> w'.channels[s.id].latest == if nothingNewer then r.latest else best)
            && (s.id in w'.quarantined ==> w'.channels == w.channels)
  {
    var r := w.channels[s.id];
    var best := Best(r, s.self, s.answers);
    BestIsHighest(r, s.self, s.answers);
    if Newer(r, best) {
      assert Offered(r, s.self, s.answers, best);
    }
    hide Best, Usable, SoundState, MayBecomeLatest, FirstOfItsNonce;
  }

  // ---- what the quarantine does not cover ----------------------------------------------------------------

  /** Only channels that were in the backup are held: one tracked afterwards from the
      chain starts at its first nonce and is free to sign at once. */
  lemma TrackedAfterwardsIsFree(w: World, id: Id, record: Record)
    requires id !in w.files && id !in w.quarantined
    ensures var w' := Next(w, Track(id, record));
            id !in w'.quarantined && id in w'.channels && w'.channels[id] == record
  {
  }

  /** Letting a channel go without writing trusts what was loaded. A first attempt adopts
      what a source offers, but the write fails after its rename; the restarted node reads
      the new state back and asks again, finds nothing newer and lets the channel go; and
      a power failure then leaves the old state, with the marker gone. */
  lemma UnflushedReleaseCanBeLost(id: Id, self: Address, stale: Record, c: Signed)
    requires Complete(stale.latest) && stale.latest.state.nonce < c.state.nonce
    requires Complete(c) && Usable(stale, self, c) && MayBecomeLatest(stale, c)
    ensures var raised := stale.(latest := c);
            var files := map[id := File(stale, iset{stale})];
            var ask := Ask(id, self, [Some(c)], NoFault, false);
            var steps := [Ask(id, self, [Some(c)], AfterRename, false),
                          Restart(map[id := File(raised, iset{stale, raised})]), ask,
                          Restart(map[id := File(stale, iset{stale})])];
            var w := Run(files, true, steps);
            && PossibleRun(files, true, steps) && !Safe(Run(files, true, steps[..2]), ask)
            && w.quarantined == {} && !w.marker && w.channels[id].latest.state.nonce < c.state.nonce
  {
    hide Usable, MayBecomeLatest;
    var raised := stale.(latest := c);
    var files := map[id := File(stale, iset{stale})];
    var e0, e2 := Ask(id, self, [Some(c)], AfterRename, false), Ask(id, self, [Some(c)], NoFault, false);
    var half, lost: Files := map[id := File(raised, iset{stale, raised})], map[id := File(stale, iset{stale})];
    var steps := [e0, Restart(half), e2, Restart(lost)];
    OneAnswer(stale, self, c);
    OneAnswer(raised, self, c);
    hide Best;
    assert steps[..0] == [] && steps[..1] == [e0] && steps[..2] == [e0, Restart(half)];
    assert steps[..3] == [e0, Restart(half), e2];
    assert [e0][..0] == [] && [e0, Restart(half)][..1] == [e0] && [e0, Restart(half), e2][..2] == [e0, Restart(half)];
    var w0 := Run(files, true, []);
    var w1 := Run(files, true, [e0]);
    assert w1 == Next(w0, e0);
    assert iset{stale} + iset{raised} == iset{stale, raised};
    assert w0.channels[id] == stale && Newer(stale, c);
    assert w1.files[id] == half[id];
    assert w1.files == half;
    var w2 := Run(files, true, [e0, Restart(half)]);
    assert w2 == Next(w1, Restart(half));
    assert stale in w2.files[id].survivors;
    var w3 := Run(files, true, [e0, Restart(half), e2]);
    assert w3 == Next(w2, e2);
    assert w3.quarantined == {} && !w3.marker;
  }

  lemma OneAnswer(r: Record, self: Address, c: Signed)
    requires Complete(c) && Complete(r.latest) && c.state.nonce >= r.latest.state.nonce
    ensures c.state.nonce > r.latest.state.nonce && Usable(r, self, c) ==> Best(r, self, [Some(c)]) == c
    ensures c == r.latest ==> Best(r, self, [Some(c)]) == c
  {
    hide Usable;
    assert [Some(c)][..0] == [];
  }
}
