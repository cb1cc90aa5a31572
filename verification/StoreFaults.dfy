/** The two-party protocol when writes to the channel store can fail, and nodes restart
    with whatever the disk kept. */
module StoreFaults {
  import opened Common
  import opened Disk
  import opened Symbols
  import opened ChannelState
  import opened Protocol
  import opened Agreement

  /** A node's record in memory, and the file it is kept in. */
  datatype Cell = Cell(mem: Node, disk: File<Node>)

  datatype Pair = Pair(a: Cell, b: Cell)

  function CellOf(w: Pair, isA: bool): Cell {
    if isA then w.a else w.b
  }

  function WithCell(w: Pair, isA: bool, c: Cell): (w': Pair)
    ensures CellOf(w', isA) == c && CellOf(w', !isA) == CellOf(w, !isA)
  {
    if isA then w.(a := c) else w.(b := c)
  }

  /** A change is written first and taken into memory only when the write was reported. */
  function Commit(c: Cell, next: Node, fault: Fault): (Cell, bool) {
    var (f, ok) := Replace(c.disk, next, fault);
    (Cell(if ok then next else c.mem, f), ok)
  }

  function Change(c: Cell, next: Node, fault: Fault): Cell {
    if next == c.mem then c else Commit(c, next, fault).0
  }

  /** A proposal goes out only from a record that was written, or that was loaded. */
  function ProposeOn(c: Cell, isA: bool, intent: Term, t: Transition, mine: Clock, fault: Fault): (Cell, bool) {
    var r := Propose(c.mem, isA, intent, t, mine);
    if r.Err? then (c, false)
    else if c.mem.pending.Some? then (c, true)
    else Commit(c, r.value, fault)
  }

  /** A counter-signature that cannot be written is answered as a refusal. */
  function HandleOn(c: Cell, isA: bool, p: Proposal, theirs: Clock, fault: Fault): (Cell, Reply) {
    var (n, reply) := HandlePropose(c.mem, isA, p, theirs);
    if n == c.mem then (c, reply)
    else
      var (c', ok) := Commit(c, n, fault);
      (c', if ok then reply else Rejected(TransitionMismatch))
  }

  function ConcludeOn(c: Cell, intent: Term, reply: Reply, fault: Fault): Cell {
    match reply
    case Accepted(s) => Change(c, HandleAccept(c.mem, intent, s).0, fault)
    case Rejected(_) => Commit(c, HandleReject(c.mem, intent), fault).0
    case Current(s) => Change(c, HandleResponse(c.mem, s), fault)
  }

  /** How the proposer's write, the peer's write and the concluding write end. */
  datatype Faults = Faults(propose: Fault, handle: Fault, conclude: Fault)

  datatype Step =
    | Exchange(isA: bool, intent: Term, tr: Transition, delivery: Delivery, mine: Clock, theirs: Clock, faults: Faults)
    | Recover(isA: bool, fault: Fault)
    | Late(isA: bool, theirs: Clock, fault: Fault)
    /** The network delivers a proposal again that was sent before and refused or given up. */
    | Duplicate(isA: bool, p: Proposal, theirs: Clock, fault: Fault)
    | Restart(isA: bool, left: File<Node>)

  /** The node may have signed this proposal: at its next nonce its ledger says so, and
      earlier ones are no longer in it. */
  predicate MaySend(n: Node, p: Proposal) {
    && p.state.nonce <= n.latest.nonce + 1
    && (p.state.nonce == n.latest.nonce + 1 ==> p.state.nonce in n.signed && n.signed[p.state.nonce] == p.state)
  }

  function Next(w: Pair, s: Step): Pair {
    match s
    case Exchange(isA, intent, t, d, mine, theirs, f) =>
      var c := CellOf(w, isA);
      if c.mem.conflict || intent in c.mem.applied then w
      else
        var (c1, sent) := ProposeOn(c, isA, intent, t, mine, f.propose);
        var w1 := WithCell(w, isA, c1);
        if !sent || d == RequestLost || c1.mem.pending.None? then w1
        else
          var (o, reply) := HandleOn(CellOf(w1, !isA), !isA, c1.mem.pending.value, theirs, f.handle);
          var w2 := WithCell(w1, !isA, o);
          if d == ReplyLost then w2 else WithCell(w2, isA, ConcludeOn(c1, intent, reply, f.conclude))
    case Recover(isA, fault) =>
      var c := CellOf(w, isA);
      if c.mem.conflict || c.mem.pending.None? then w
      else WithCell(w, isA, Change(c, HandleResponse(c.mem, CellOf(w, !isA).mem.latest), fault))
    case Late(isA, theirs, fault) =>
      var c := CellOf(w, isA);
      if c.mem.pending.None? then w
      else WithCell(w, !isA, HandleOn(CellOf(w, !isA), !isA, c.mem.pending.value, theirs, fault).0)
    case Duplicate(isA, p, theirs, fault) =>
      if !MaySend(CellOf(w, isA).mem, p) then w
      else WithCell(w, !isA, HandleOn(CellOf(w, !isA), !isA, p, theirs, fault).0)
    case Restart(isA, left) => WithCell(w, isA, Cell(left.visible, left))
  }

  function RunOn(w: Pair, steps: seq<Step>): Pair {
    if steps == [] then w else Next(RunOn(w, steps[..|steps| - 1]), steps[|steps| - 1])
  }

  function Stored(n: Node): Cell {
    Cell(n, File(n, iset{n}))
  }

  function OpenPair(origin: State): Pair {
    Pair(Stored(OpenNode(origin)), Stored(OpenNode(origin)))
  }

  // ---- without faults this is the protocol -----------------------------------------------

  predicate Faultless(s: Step) {
    match s
    case Exchange(_, _, _, _, _, _, f) => f == Faults(NoFault, NoFault, NoFault)
    case Recover(_, fault) => fault == NoFault
    case Late(_, _, fault) => fault == NoFault
    case Duplicate(_, _, _, _) => false
    case Restart(_, _) => false
  }

  function Plain(s: Step): Agreement.Step
    requires Faultless(s)
  {
    match s
    case Exchange(isA, intent, t, d, mine, theirs, _) => PayStep(isA, intent, t, d, mine, theirs)
    case Recover(isA, _) => RecoverStep(isA)
    case Late(isA, theirs, _) => LateStep(isA, theirs)
  }

  function Memory(w: Pair): Link {
    Link(w.a.mem, w.b.mem)
  }

  /** A step in which every write succeeds is a step of the protocol. */
  lemma FaultlessIsProtocol(w: Pair, s: Step)
    requires Faultless(s)
    ensures Memory(Next(w, s)) == StepLink(Memory(w), Plain(s))
  {
    hide HandlePropose, HandleAccept, HandleReject, HandleResponse, Apply, TimingRefusal;
    match s
    case Exchange(isA, intent, t, d, mine, theirs, f) =>
      ProposalPending(CellOf(w, isA).mem, isA, intent, t, mine);
      hide Propose;
    case _ =>
  }

  function PlainRun(steps: seq<Step>): (plain: seq<Agreement.Step>)
    requires forall i :: 0 <= i < |steps| ==> Faultless(steps[i])
    ensures |plain| == |steps|
  {
    if steps == [] then [] else PlainRun(steps[..|steps| - 1]) + [Plain(steps[|steps| - 1])]
  }

  /** A run in which every write succeeds is a run of the protocol. */
  lemma {:induction false} FaultlessRun(origin: State, steps: seq<Step>)
    requires forall i :: 0 <= i < |steps| ==> Faultless(steps[i])
    ensures Memory(RunOn(OpenPair(origin), steps)) == Run(Open(origin), PlainRun(steps))
  {
    if steps != [] {
      hide Next, StepLink;
      var init := steps[..|steps| - 1];
      FaultlessRun(origin, init);
      FaultlessIsProtocol(RunOn(OpenPair(origin), init), steps[|steps| - 1]);
      var plain := PlainRun(steps);
      assert plain[..|plain| - 1] == PlainRun(init);
    }
  }

  lemma ProposalPending(n: Node, isA: bool, intent: Term, t: Transition, c: Clock)
    ensures var r := Propose(n, isA, intent, t, c);
            r.Ok? ==> r.value.pending.Some? && (n.pending.Some? ==> r.value == n)
  {
    hide Apply;
  }

  // ---- what every record on either disk has in common -------------------------------------------

  ghost predicate Reaches(s: State, isA: bool, next: State) {
    exists t :: Apply(s, t, isA) == Ok(next)
  }

  ghost predicate GoodNode(deposits: int, n: Node, isA: bool) {
    && !n.conflict && WellFormed(n.latest, deposits)
    && (forall k :: k in n.signed ==> k == n.latest.nonce + 1 && Reaches(n.latest, isA, n.signed[k]))
    && (n.pending.Some? ==>
          var p := n.pending.value;
          && p.state.nonce <= n.latest.nonce + 1
          && (p.state.nonce == n.latest.nonce + 1 ==>
                && Apply(n.latest, p.tr, isA) == Ok(p.state)
                && p.state.nonce in n.signed && n.signed[p.state.nonce] == p.state))
  }

  /** Coming back as `u` a node has lost nothing it answered for as `m`: it is no further
      behind, and has forgotten none of the signatures it may have given. */
  ghost predicate Keeps(m: Node, u: Node) {
    && u.latest.nonce >= m.latest.nonce
    && (u.latest.nonce == m.latest.nonce ==>
          u.latest == m.latest && forall k :: k in m.signed ==> k in u.signed && u.signed[k] == m.signed[k])
  }

  ghost predicate CellInv(deposits: int, c: Cell, isA: bool) {
    && Sound(c.disk) && c.mem in c.disk.survivors
    && forall u :: u in c.disk.survivors ==> GoodNode(deposits, u, isA) && Keeps(c.mem, u)
  }

  /** `v` is ahead of `u` by one state, and `u` has signed it. */
  ghost predicate Behind(u: Node, v: Node) {
    && v.latest.nonce == u.latest.nonce + 1
    && v.latest.nonce in u.signed && u.signed[v.latest.nonce] == v.latest
  }

  ghost predicate Fits(u: Node, v: Node) {
    u.latest == v.latest || Behind(u, v) || Behind(v, u)
  }

  /** Whatever either party may come back with, the two records fit together. */
  ghost predicate AllFit(c: Cell, o: Cell) {
    forall u, v :: u in c.disk.survivors && v in o.disk.survivors ==> Fits(u, v)
  }

  ghost predicate Inv(deposits: int, w: Pair) {
    CellInv(deposits, w.a, true) && CellInv(deposits, w.b, false) && AllFit(w.a, w.b)
  }

  ghost predicate InvOf(deposits: int, c: Cell, o: Cell, isA: bool) {
    CellInv(deposits, c, isA) && CellInv(deposits, o, !isA) && AllFit(c, o)
  }

  lemma InvFrom(deposits: int, w: Pair, isA: bool)
    ensures Inv(deposits, w) <==> InvOf(deposits, CellOf(w, isA), CellOf(w, !isA), isA)
  {
    hide CellInv;
  }

  lemma InvSwap(deposits: int, c: Cell, o: Cell, isA: bool)
    requires InvOf(deposits, c, o, isA)
    ensures InvOf(deposits, o, c, !isA)
  {
    hide CellInv;
  }

  /** What a change of one node's record must meet for any outcome of its write to be safe. */
  ghost predicate SafeChange(deposits: int, c: Cell, o: Cell, isA: bool, next: Node) {
    && GoodNode(deposits, next, isA) && Keeps(c.mem, next)
    && forall v :: v in o.disk.survivors ==> Fits(next, v)
  }

  lemma CommitInv(deposits: int, c: Cell, o: Cell, isA: bool, next: Node, fault: Fault)
    requires InvOf(deposits, c, o, isA) && SafeChange(deposits, c, o, isA, next)
    ensures InvOf(deposits, Commit(c, next, fault).0, o, isA)
    ensures InvOf(deposits, Change(c, next, fault), o, isA)
  {
    hide GoodNode, Fits;
    KeepsItself(next);
    hide Keeps;
  }

  lemma KeepsItself(n: Node)
    ensures Keeps(n, n)
  {
  }

  /** The node's own record in memory is one of those on disk. */
  lemma MemoryFits(deposits: int, c: Cell, o: Cell, isA: bool)
    requires InvOf(deposits, c, o, isA)
    ensures GoodNode(deposits, c.mem, isA) && GoodNode(deposits, o.mem, !isA) && Fits(c.mem, o.mem)
    ensures forall v :: v in o.disk.survivors ==> Fits(c.mem, v) && Keeps(o.mem, v)
    ensures forall u :: u in c.disk.survivors ==> Fits(u, o.mem) && Keeps(c.mem, u)
  {
    hide GoodNode, Fits, Keeps;
  }

  lemma ProposeSafe(deposits: int, c: Cell, o: Cell, isA: bool, intent: Term, t: Transition, mine: Clock)
    requires InvOf(deposits, c, o, isA)
    requires c.mem.pending.None? && Propose(c.mem, isA, intent, t, mine).Ok?
    ensures SafeChange(deposits, c, o, isA, Propose(c.mem, isA, intent, t, mine).value)
  {
    MemoryFits(deposits, c, o, isA);
    ProposedIs(c.mem, isA, intent, t, mine);
    ApplyNonce(c.mem.latest, t, isA);
    hide Apply, TimingRefusal, WellFormed, InvOf, Propose;
    var next := Apply(c.mem.latest, t, isA).value;
    assert Reaches(c.mem.latest, isA, next);
  }

  /** What the other node makes of a proposal that `c` may have sent. */
  lemma HandleSafe(deposits: int, c: Cell, o: Cell, isA: bool, p: Proposal, theirs: Clock)
    requires InvOf(deposits, c, o, isA) && MaySend(c.mem, p)
    ensures SafeChange(deposits, o, c, !isA, HandlePropose(o.mem, !isA, p, theirs).0)
  {
    MemoryFits(deposits, c, o, isA);
    var n' := HandlePropose(o.mem, !isA, p, theirs).0;
    HandleEffect(o.mem, !isA, p, theirs);
    KeepsItself(o.mem);
    if n' != o.mem {
      HandledApply(o.mem, !isA, p, theirs);
      ApplyKeepsWellFormed(o.mem.latest, p.tr, isA, deposits);
      hide Apply, TimingRefusal, WellFormed, InvOf, HandlePropose;
      forall u | u in c.disk.survivors ensures Fits(n', u) {
        assert Fits(u, o.mem) && Keeps(c.mem, u);
      }
    } else {
      hide Apply, TimingRefusal, WellFormed, InvOf, HandlePropose, GoodNode;
    }
  }

  lemma HandledApply(n: Node, isA: bool, p: Proposal, c: Clock)
    ensures HandlePropose(n, isA, p, c).0 != n ==> Apply(n.latest, p.tr, !isA) == Ok(p.state)
  {
    hide Apply;
  }

  lemma AcceptSafe(deposits: int, c: Cell, o: Cell, isA: bool, intent: Term)
    requires InvOf(deposits, c, o, isA)
    ensures SafeChange(deposits, c, o, isA, HandleAccept(c.mem, intent, o.mem.latest).0)
  {
    MemoryFits(deposits, c, o, isA);
    KeepsItself(c.mem);
    var n' := HandleAccept(c.mem, intent, o.mem.latest).0;
    if n' != c.mem {
      var p := c.mem.pending.value;
      ApplyKeepsWellFormed(c.mem.latest, p.tr, isA, deposits);
      hide Apply, WellFormed, InvOf;
      forall v | v in o.disk.survivors ensures Fits(n', v) {
        assert Fits(c.mem, v) && Keeps(o.mem, v);
      }
    } else {
      hide Apply, WellFormed, InvOf, GoodNode;
    }
  }

  lemma RejectSafe(deposits: int, c: Cell, o: Cell, isA: bool, intent: Term)
    requires InvOf(deposits, c, o, isA)
    ensures SafeChange(deposits, c, o, isA, HandleReject(c.mem, intent))
  {
    MemoryFits(deposits, c, o, isA);
    hide Apply, WellFormed, InvOf, Reaches;
  }

  lemma ResponseSafe(deposits: int, c: Cell, o: Cell, isA: bool)
    requires InvOf(deposits, c, o, isA)
    ensures SafeChange(deposits, c, o, isA, HandleResponse(c.mem, o.mem.latest))
  {
    MemoryFits(deposits, c, o, isA);
    KeepsItself(c.mem);
    hide Apply, WellFormed, InvOf, Reaches;
    var n' := HandleResponse(c.mem, o.mem.latest);
    forall v | v in o.disk.survivors ensures Fits(n', v) {
      assert Fits(c.mem, v) && Keeps(o.mem, v);
    }
  }

  // ---- steps and runs --------------------------------------------------------------------------------

  lemma ProposeInv(deposits: int, c: Cell, o: Cell, isA: bool, intent: Term, t: Transition, mine: Clock, fault: Fault)
    requires InvOf(deposits, c, o, isA)
    ensures InvOf(deposits, ProposeOn(c, isA, intent, t, mine, fault).0, o, isA)
  {
    if c.mem.pending.None? && Propose(c.mem, isA, intent, t, mine).Ok? {
      ProposeSafe(deposits, c, o, isA, intent, t, mine);
      hide Propose, InvOf, SafeChange;
      CommitInv(deposits, c, o, isA, Propose(c.mem, isA, intent, t, mine).value, fault);
    }
  }

  /** The reply speaks for the record in memory. */
  lemma HandleInv(deposits: int, c: Cell, o: Cell, isA: bool, p: Proposal, theirs: Clock, fault: Fault)
    requires InvOf(deposits, c, o, isA) && MaySend(c.mem, p)
    ensures var (o', reply) := HandleOn(o, !isA, p, theirs, fault);
            && InvOf(deposits, c, o', isA)
            && (reply.Accepted? ==> reply.state == o'.mem.latest)
            && (reply.Current? ==> reply.state == o'.mem.latest)
  {
    HandleSafe(deposits, c, o, isA, p, theirs);
    InvSwap(deposits, c, o, isA);
    NoConflictOn(deposits, o, c, !isA);
    HandleReply(o.mem, !isA, p, theirs);
    hide HandlePropose, InvOf, SafeChange;
    var n := HandlePropose(o.mem, !isA, p, theirs).0;
    CommitInv(deposits, o, c, !isA, n, fault);
    InvSwap(deposits, Commit(o, n, fault).0, c, !isA);
  }

  lemma PendingMaySend(deposits: int, c: Cell, o: Cell, isA: bool)
    requires InvOf(deposits, c, o, isA) && c.mem.pending.Some?
    ensures MaySend(c.mem, c.mem.pending.value)
  {
    hide WellFormed, Reaches, Apply;
  }

  lemma NoConflictOn(deposits: int, c: Cell, o: Cell, isA: bool)
    requires InvOf(deposits, c, o, isA)
    ensures !c.mem.conflict
  {
    hide WellFormed, Reaches;
  }

  lemma ConcludeInv(deposits: int, c: Cell, o: Cell, isA: bool, intent: Term, reply: Reply, fault: Fault)
    requires InvOf(deposits, c, o, isA)
    requires (reply.Accepted? || reply.Current?) ==> reply.state == o.mem.latest
    ensures InvOf(deposits, ConcludeOn(c, intent, reply, fault), o, isA)
  {
    AcceptSafe(deposits, c, o, isA, intent);
    RejectSafe(deposits, c, o, isA, intent);
    ResponseSafe(deposits, c, o, isA);
    hide InvOf, SafeChange, HandleAccept, HandleReject, HandleResponse, Commit, Change;
    match reply
    case Accepted(s) => CommitInv(deposits, c, o, isA, HandleAccept(c.mem, intent, s).0, fault);
    case Rejected(_) => CommitInv(deposits, c, o, isA, HandleReject(c.mem, intent), fault);
    case Current(s) => CommitInv(deposits, c, o, isA, HandleResponse(c.mem, s), fault);
  }

  /** Coming back, a node reads a record from which nothing that may still be lost departs. */
  ghost predicate Steady(left: File<Node>) {
    forall u :: u in left.survivors ==> Keeps(left.visible, u)
  }

  /** A restart that finds the directory entry flushed is steady. */
  lemma FlushedIsSteady(left: File<Node>)
    requires Flushed(left)
    ensures Steady(left)
  {
    KeepsItself(left.visible);
  }

  /** After any crash the invariant holds again exactly when the restart is steady. */
  lemma CrashExact(deposits: int, c: Cell, o: Cell, isA: bool, left: File<Node>)
    requires InvOf(deposits, c, o, isA) && AfterCrash(c.disk, left)
    ensures InvOf(deposits, Cell(left.visible, left), o, isA) <==> Steady(left)
  {
    hide GoodNode, Keeps, Fits;
  }

  /** A restart finds what a crash could leave of the file. */
  ghost predicate Possible(w: Pair, s: Step) {
    s.Restart? ==> AfterCrash(CellOf(w, s.isA).disk, s.left)
  }

  ghost predicate SteadyStep(w: Pair, s: Step) {
    Possible(w, s) && (s.Restart? ==> Steady(s.left))
  }

  lemma NextInv(deposits: int, w: Pair, s: Step)
    requires Inv(deposits, w) && SteadyStep(w, s)
    ensures Inv(deposits, Next(w, s))
  {
    hide Inv, InvOf, ProposeOn, HandleOn, ConcludeOn, Change, Steady, HandleResponse;
    InvFrom(deposits, w, s.isA);
    InvFrom(deposits, Next(w, s), s.isA);
    var c, o := CellOf(w, s.isA), CellOf(w, !s.isA);
    match s
    case Exchange(isA, intent, t, d, mine, theirs, f) =>
      ProposeInv(deposits, c, o, isA, intent, t, mine, f.propose);
      var c1 := ProposeOn(c, isA, intent, t, mine, f.propose).0;
      if c1.mem.pending.Some? {
        PendingMaySend(deposits, c1, o, isA);
        HandleInv(deposits, c1, o, isA, c1.mem.pending.value, theirs, f.handle);
        var (o1, reply) := HandleOn(o, !isA, c1.mem.pending.value, theirs, f.handle);
        ConcludeInv(deposits, c1, o1, isA, intent, reply, f.conclude);
      }
    case Recover(isA, fault) =>
      ResponseSafe(deposits, c, o, isA);
      CommitInv(deposits, c, o, isA, HandleResponse(c.mem, o.mem.latest), fault);
    case Late(isA, theirs, fault) =>
      if c.mem.pending.Some? {
        PendingMaySend(deposits, c, o, isA);
        HandleInv(deposits, c, o, isA, c.mem.pending.value, theirs, fault);
      }
    case Duplicate(isA, p, theirs, fault) =>
      if MaySend(c.mem, p) {
        HandleInv(deposits, c, o, isA, p, theirs, fault);
      }
    case Restart(isA, left) => CrashExact(deposits, c, o, isA, left);
  }

  ghost predicate SteadyRun(w: Pair, steps: seq<Step>) {
    forall i :: 0 <= i < |steps| ==> SteadyStep(RunOn(w, steps[..i]), steps[i])
  }

  lemma {:induction false} RunInv(deposits: int, w: Pair, steps: seq<Step>)
    requires Inv(deposits, w) && SteadyRun(w, steps)
    ensures Inv(deposits, RunOn(w, steps))
  {
    if steps != [] {
      hide Inv, Next, SteadyStep;
      var init := steps[..|steps| - 1];
      forall i | 0 <= i < |init| ensures SteadyStep(RunOn(w, init[..i]), init[i]) {
        assert init[..i] == steps[..i];
      }
      RunInv(deposits, w, init);
      NextInv(deposits, RunOn(w, init), steps[|steps| - 1]);
    }
  }

  lemma OpenInv(origin: State)
    requires Fresh(origin)
    ensures Inv(origin.balanceA + origin.balanceB, OpenPair(origin))
  {
    FreshWellFormed(origin);
    hide WellFormed, Reaches;
  }

  /** One node's record against the other's: the same state, or one behind it, with the
      missing state signed by the node that is behind. Unlike without faults, it need not
      be waiting to hear about it. */
  ghost predicate Agrees(n: Node, other: Node, isA: bool) {
    && !n.conflict
    && (n.latest.nonce == other.latest.nonce ==> n.latest == other.latest)
    && (n.latest.nonce < other.latest.nonce ==>
          && other.latest.nonce == n.latest.nonce + 1
          && other.latest.nonce in n.signed && n.signed[other.latest.nonce] == other.latest
          && Reaches(n.latest, isA, other.latest))
  }

  lemma InvAgrees(deposits: int, c: Cell, o: Cell, isA: bool)
    requires InvOf(deposits, c, o, isA)
    ensures Agrees(c.mem, o.mem, isA) && WellFormed(c.mem.latest, deposits)
  {
    MemoryFits(deposits, c, o, isA);
    hide Apply, WellFormed, InvOf, Reaches;
  }

  /** In every run of two honest nodes whose store writes may fail at any point, whose
      network repeats old proposals, and whose restarts are steady: no conflict arises, both records conserve the deposits, and
      they are one co-signed state apart at most, signed by the one that is behind. */
  lemma FaultyNodesAgree(origin: State, steps: seq<Step>)
    requires Fresh(origin) && SteadyRun(OpenPair(origin), steps)
    ensures var w := RunOn(OpenPair(origin), steps);
            && Agrees(w.a.mem, w.b.mem, true)
            && Agrees(w.b.mem, w.a.mem, false)
            && WellFormed(w.a.mem.latest, origin.balanceA + origin.balanceB)
            && WellFormed(w.b.mem.latest, origin.balanceA + origin.balanceB)
  {
    var deposits := origin.balanceA + origin.balanceB;
    hide WellFormed, Agrees, Inv, InvOf, RunOn, SteadyRun;
    OpenInv(origin);
    RunInv(deposits, OpenPair(origin), steps);
    var w := RunOn(OpenPair(origin), steps);
    InvFrom(deposits, w, true);
    InvFrom(deposits, w, false);
    InvAgrees(deposits, w.a, w.b, true);
    InvAgrees(deposits, w.b, w.a, false);
  }

  // ---- one acceptance that is not written ----------------------------------------------------------------

  const NO_FAULTS := Faults(NoFault, NoFault, NoFault)

  /** A record with nothing outstanding and nothing signed beyond its state. */
  function Level(s: State, applied: map<Term, nat>): Node {
    Node(s, applied, map[], None, false)
  }

  /** The same record with `t` signed under `x` and outstanding. */
  function Waiting(s: State, applied: map<Term, nat>, x: Term, t: Transition, next: State): Node {
    Node(s, applied, map[next.nonce := next], Some(Proposal(x, t, next)), false)
  }

  /** Both records are level with the same state, and one exchange over `t` can succeed. */
  ghost predicate Ready(w: Pair, s: State, ap: map<Term, nat>, bp: map<Term, nat>, isA: bool, x: Term, t: Transition, c: Clock) {
    && CellOf(w, isA) == Stored(Level(s, ap)) && CellOf(w, !isA) == Stored(Level(s, bp))
    && x !in ap && x !in bp
    && Apply(s, t, isA).Ok? && TimingRefusal(s, t, c).None?
  }

  /** Proposing from a level record, and hearing back. */
  lemma ProposeLevel(s: State, ap: map<Term, nat>, isA: bool, x: Term, t: Transition, c: Clock)
    requires Apply(s, t, isA).Ok? && TimingRefusal(s, t, c).None?
    ensures var next := Apply(s, t, isA).value;
            && next.nonce == s.nonce + 1
            && Propose(Level(s, ap), isA, x, t, c) == Ok(Waiting(s, ap, x, t, next))
            && HandleAccept(Waiting(s, ap, x, t, next), x, next) == (Level(next, ap[x := next.nonce]), true)
            && HandleReject(Waiting(s, ap, x, t, next), x) == Level(s, ap).(signed := map[next.nonce := next])
            && Propose(Level(s, ap).(signed := map[next.nonce := next]), isA, x, t, c) == Ok(Waiting(s, ap, x, t, next))
  {
    ApplyNonce(s, t, isA);
    hide Apply, TimingRefusal;
    var next := Apply(s, t, isA).value;
    assert map[][next.nonce := next] == map[next.nonce := next];
    assert map[next.nonce := next][next.nonce := next] == map[next.nonce := next];
    assert Prune(map[next.nonce := next], s.nonce) == map[next.nonce := next];
    assert Prune(map[next.nonce := next], next.nonce) == map[];
  }

  /** The peer of a level record signs, and from then on only repeats itself. */
  lemma HandleLevel(s: State, bp: map<Term, nat>, isA: bool, x: Term, t: Transition, c: Clock)
    requires x !in bp && Apply(s, t, isA).Ok? && TimingRefusal(s, t, c).None?
    ensures var next := Apply(s, t, isA).value;
            var signed := Level(next, bp[x := next.nonce]);
            && HandlePropose(Level(s, bp), !isA, Proposal(x, t, next), c) == (signed, Accepted(next))
            && HandlePropose(signed, !isA, Proposal(x, t, next), c) == (signed, Accepted(next))
  {
    hide Apply, TimingRefusal;
    assert Prune(map[], Apply(s, t, isA).value.nonce) == map[];
  }

  /** The exchange, by how far it got and how the peer's write ended. */
  lemma ExchangeLevel(w: Pair, s: State, ap: map<Term, nat>, bp: map<Term, nat>, isA: bool, x: Term, t: Transition,
                      d: Delivery, c: Clock, fault: Fault)
    requires Ready(w, s, ap, bp, isA, x, t, c)
    ensures var next := Apply(s, t, isA).value;
            var before, after := Level(s, bp), Level(next, bp[x := next.nonce]);
            var w' := Next(w, Exchange(isA, x, t, d, c, c, Faults(NoFault, fault, NoFault)));
            && CellOf(w', !isA) == (if d == RequestLost || fault == BeforeRename then Stored(before)
                                    else if fault == NoFault then Stored(after)
                                    else Cell(before, File(after, iset{before, after})))
            && CellOf(w', isA) == (if d != Answered then Stored(Waiting(s, ap, x, t, next))
                                   else if fault == NoFault then Stored(Level(next, ap[x := next.nonce]))
                                   else Stored(Level(s, ap).(signed := map[next.nonce := next])))
  {
    ProposeLevel(s, ap, isA, x, t, c);
    HandleLevel(s, bp, isA, x, t, c);
    hide Apply, TimingRefusal, Propose, HandlePropose, HandleAccept, HandleReject, HandleResponse;
    var next := Apply(s, t, isA).value;
    var before, after := Level(s, bp), Level(next, bp[x := next.nonce]);
    assert iset{before} + iset{after} == iset{before, after};
  }

  /** Between two level records, one exchange and then a crash of the peer: the payer still
      waits to hear about what the peer has, exactly unless the peer answered with a
      refusal because its write failed after the rename, and came back with the new record. */
  lemma FollowsExactly(w: Pair, s: State, ap: map<Term, nat>, bp: map<Term, nat>, isA: bool, x: Term, t: Transition,
                       d: Delivery, c: Clock, fault: Fault, left: File<Node>)
    requires Ready(w, s, ap, bp, isA, x, t, c)
    requires AfterCrash(CellOf(Next(w, Exchange(isA, x, t, d, c, c, Faults(NoFault, fault, NoFault))), !isA).disk, left)
    ensures var w' := Next(Next(w, Exchange(isA, x, t, d, c, c, Faults(NoFault, fault, NoFault))), Restart(!isA, left));
            var n, o := CellOf(w', isA).mem, CellOf(w', !isA).mem;
            && (Follows(n, o, isA) <==> !(d == Answered && fault == AfterRename && o.latest != s))
            && Follows(o, n, !isA)
  {
    ApplyNonce(s, t, isA);
    ExchangeLevel(w, s, ap, bp, isA, x, t, d, c, fault);
    hide Apply, TimingRefusal, Next;
    var w1 := Next(w, Exchange(isA, x, t, d, c, c, Faults(NoFault, fault, NoFault)));
    RestartCell(w1, !isA, left);
    assert left.visible in CellOf(w1, !isA).disk.survivors;
  }

  lemma RestartCell(w: Pair, isA: bool, left: File<Node>)
    ensures CellOf(Next(w, Restart(isA, left)), isA) == Cell(left.visible, left)
    ensures CellOf(Next(w, Restart(isA, left)), !isA) == CellOf(w, !isA)
  {
  }

  /** What is left then heals by the same payment tried again, and by no other: the payer
      has signed that state and refuses to sign another one beside it. */
  lemma OnlyTheSamePaymentHeals(w: Pair, s: State, ap: map<Term, nat>, bp: map<Term, nat>, isA: bool, x: Term, t: Transition,
                                c: Clock, left: File<Node>, y: Term, u: Transition, d: Delivery, mine: Clock, f: Faults)
    requires Ready(w, s, ap, bp, isA, x, t, c)
    requires var w1 := Next(w, Exchange(isA, x, t, Answered, c, c, Faults(NoFault, AfterRename, NoFault)));
             AfterCrash(CellOf(w1, !isA).disk, left) && left.visible.latest != s
    requires y !in ap && Apply(s, u, isA).Ok? && Apply(s, u, isA) != Apply(s, t, isA)
    requires u.LockSettle? ==> TimingRefusal(s, u, mine).None?
    ensures var w1 := Next(w, Exchange(isA, x, t, Answered, c, c, Faults(NoFault, AfterRename, NoFault)));
            var w2 := Next(w1, Restart(!isA, left));
            var healed := Next(w2, Exchange(isA, x, t, Answered, c, c, NO_FAULTS));
            && Next(w2, Exchange(isA, y, u, d, mine, c, f)) == w2
            && CellOf(healed, isA).mem.latest == CellOf(healed, !isA).mem.latest == Apply(s, t, isA).value
            && CellOf(healed, isA).mem.pending.None?
  {
    ProposeLevel(s, ap, isA, x, t, c);
    HandleLevel(s, bp, isA, x, t, c);
    ExchangeLevel(w, s, ap, bp, isA, x, t, Answered, c, AfterRename);
    var next := Apply(s, t, isA).value;
    var w1 := Next(w, Exchange(isA, x, t, Answered, c, c, Faults(NoFault, AfterRename, NoFault)));
    RestartCell(w1, !isA, left);
    assert left.visible in CellOf(w1, !isA).disk.survivors;
    var w2 := Next(w1, Restart(!isA, left));
    SignedBeside(s, ap, isA, next, y, u, mine);
    RetryLevel(w2, s, ap, isA, x, t, c, Level(next, bp[x := next.nonce]));
    hide Apply, TimingRefusal, Propose, HandlePropose, HandleAccept, HandleReject, HandleResponse;
  }

  lemma SignedBeside(s: State, ap: map<Term, nat>, isA: bool, next: State, y: Term, u: Transition, mine: Clock)
    requires Apply(s, u, isA).Ok? && Apply(s, u, isA).value != next && next.nonce == s.nonce + 1
    requires u.LockSettle? ==> TimingRefusal(s, u, mine).None?
    ensures Propose(Level(s, ap).(signed := map[next.nonce := next]), isA, y, u, mine) == Err(AlreadySigned)
  {
    ApplyNonce(s, u, isA);
    hide Apply, TimingRefusal;
  }

  /** A payer that signed `next` and was refused tries the same payment again with a peer
      that already has it. */
  lemma RetryLevel(w: Pair, s: State, ap: map<Term, nat>, isA: bool, x: Term, t: Transition, c: Clock, o: Node)
    requires Apply(s, t, isA).Ok? && TimingRefusal(s, t, c).None? && x !in ap
    requires var next := Apply(s, t, isA).value;
             && CellOf(w, isA) == Stored(Level(s, ap).(signed := map[next.nonce := next]))
             && CellOf(w, !isA).mem == o
             && HandlePropose(o, !isA, Proposal(x, t, next), c) == (o, Accepted(next))
    ensures var next := Apply(s, t, isA).value;
            var w' := Next(w, Exchange(isA, x, t, Answered, c, c, NO_FAULTS));
            && CellOf(w', isA) == Stored(Level(next, ap[x := next.nonce]))
            && CellOf(w', !isA) == CellOf(w, !isA)
  {
    ProposeLevel(s, ap, isA, x, t, c);
    hide Apply, TimingRefusal, Propose, HandlePropose, HandleAccept, HandleReject, HandleResponse;
  }

  // ---- an unsteady restart ---------------------------------------------------------------------------------

  /** The peer's write of its acceptance fails after the rename and it refuses; it restarts,
      reads the acceptance back, and now answers the same payment from its record. Then a
      power failure takes that record. The peer has forgotten a state it signed and the
      payer holds; the next payment it tries itself never happens, and asking the payer
      where the channel stands makes it record that payment as done. */
  lemma UnflushedAcceptanceIsLost(w: Pair, s: State, ap: map<Term, nat>, bp: map<Term, nat>, isA: bool, x: Term, t: Transition,
                                  c: Clock, y: Term, u: Transition)
    requires Ready(w, s, ap, bp, isA, x, t, c)
    requires y != x && y !in ap && y !in bp && Apply(s, u, !isA).Ok? && TimingRefusal(s, u, c).None?
    requires Apply(s, u, !isA).value != Apply(s, t, isA).value
    ensures var before, next := Level(s, bp), Apply(s, t, isA).value;
            var half := File(Level(next, bp[x := next.nonce]), iset{before, Level(next, bp[x := next.nonce])});
            var w1 := Next(w, Exchange(isA, x, t, Answered, c, c, Faults(NoFault, AfterRename, NoFault)));
            var w2 := Next(w1, Restart(!isA, half));
            var w3 := Next(w2, Exchange(isA, x, t, Answered, c, c, NO_FAULTS));
            var w4 := Next(w3, Restart(!isA, File(before, iset{before})));
            var w6 := Next(Next(w4, Exchange(!isA, y, u, ReplyLost, c, c, NO_FAULTS)), Recover(!isA, NoFault));
            && AfterCrash(CellOf(w1, !isA).disk, half) && !Steady(half)
            && AfterCrash(CellOf(w3, !isA).disk, File(before, iset{before}))
            && x in CellOf(w4, isA).mem.applied && CellOf(w4, isA).mem.latest == next
            && !Agrees(CellOf(w4, !isA).mem, CellOf(w4, isA).mem, !isA)
            && y in CellOf(w6, !isA).mem.applied && y !in CellOf(w6, isA).mem.applied
            && CellOf(w6, !isA).mem.latest == CellOf(w6, isA).mem.latest == next
  {
    var before, next := Level(s, bp), Apply(s, t, isA).value;
    var after := Level(next, bp[x := next.nonce]);
    var half := File(after, iset{before, after});
    ApplyNonce(s, t, isA);
    ExchangeLevel(w, s, ap, bp, isA, x, t, Answered, c, AfterRename);
    HandleLevel(s, bp, isA, x, t, c);
    var w1 := Next(w, Exchange(isA, x, t, Answered, c, c, Faults(NoFault, AfterRename, NoFault)));
    RestartCell(w1, !isA, half);
    var w2 := Next(w1, Restart(!isA, half));
    RetryLevel(w2, s, ap, isA, x, t, c, after);
    var w3 := Next(w2, Exchange(isA, x, t, Answered, c, c, NO_FAULTS));
    RestartCell(w3, !isA, File(before, iset{before}));
    var w4 := Next(w3, Restart(!isA, File(before, iset{before})));
    PhantomPayment(w4, s, bp, ap[x := next.nonce], isA, next, y, u, c);
    hide Apply, TimingRefusal, Next, Reaches;
    assert before in half.survivors && !Keeps(half.visible, before);
    assert AfterCrash(CellOf(w3, !isA).disk, File(before, iset{before}));
  }

  /** A node that is behind without having signed what it lacks adopts that state under
      the name of its own outstanding payment. */
  lemma PhantomPayment(w: Pair, s: State, bp: map<Term, nat>, ap: map<Term, nat>, isA: bool, ahead: State,
                       y: Term, u: Transition, c: Clock)
    requires CellOf(w, !isA) == Stored(Level(s, bp)) && CellOf(w, isA) == Stored(Level(ahead, ap))
    requires ahead.nonce == s.nonce + 1 && y !in ap && y !in bp
    requires Apply(s, u, !isA).Ok? && TimingRefusal(s, u, c).None?
    ensures var w' := Next(Next(w, Exchange(!isA, y, u, ReplyLost, c, c, NO_FAULTS)), Recover(!isA, NoFault));
            && CellOf(w', isA) == CellOf(w, isA)
            && y in CellOf(w', !isA).mem.applied && CellOf(w', !isA).mem.latest == ahead
  {
    ProposeLevel(s, bp, !isA, y, u, c);
    var next := Apply(s, u, !isA).value;
    AheadRefuses(ahead, ap, isA, Proposal(y, u, next), c);
    hide Apply, TimingRefusal, Propose, HandlePropose, HandleAccept, HandleReject;
    var w1 := Next(w, Exchange(!isA, y, u, ReplyLost, c, c, NO_FAULTS));
    assert CellOf(w1, !isA) == Stored(Waiting(s, bp, y, u, next));
    assert CellOf(w1, isA) == CellOf(w, isA);
  }

  lemma AheadRefuses(ahead: State, ap: map<Term, nat>, isA: bool, p: Proposal, c: Clock)
    requires p.state.nonce <= ahead.nonce && p.intent !in ap
    ensures HandlePropose(Level(ahead, ap), isA, p, c) == (Level(ahead, ap), Rejected(TransitionMismatch))
  {
    if Apply(ahead, p.tr, !isA).Ok? {
      ApplyNonce(ahead, p.tr, !isA);
    }
    hide Apply, TimingRefusal;
  }
}
