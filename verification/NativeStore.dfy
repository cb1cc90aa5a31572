/** The local channel backend: balances signed only after they are on disk, and a
    nullifier file that is only ever appended to. */
module NativeStore {
  import opened Common
  import opened Bytes
  import opened Disk

  /** "ch-<peer>-<number>". */
  datatype Id = Id(peer: string, number: nat)

  datatype Channel = Channel(deposit: int, outbound: int, inbound: int, nonce: nat, closed: bool)

  datatype Proof = Proof(id: Id, nonce: nat, outbound: int, inbound: int)

  datatype Failure = ChannelUnknown | ChannelClosed | Insufficient | NotPersisted | DoubleSpend

  type Files = map<Id, File<Option<Channel>>>

  /** A temporary file that a failed write may have left behind, complete. */
  datatype Temp = Temp(id: Id, channel: Channel)

  /** Memory, disk with what may be left beside it, and the highest nonce of any proof
      handed out for a channel. */
  datatype Ledger = Ledger(states: map<Id, Channel>, files: Files, temps: set<Temp>, issued: map<Id, nat>)

  function FileOf(files: Files, id: Id): File<Option<Channel>> {
    if id in files then files[id] else File(None, iset{None})
  }

  /** Write to a temporary file, flush it, rename it, flush the directory. */
  function Persist(files: Files, id: Id, c: Channel, fault: Fault): (r: (Files, bool)) {
    var (f, ok) := Replace(FileOf(files, id), Some(c), fault);
    (if fault == BeforeRename then files else files[id := f], ok)
  }

  /** A write that gets through takes its temporary file with it; one that fails, or
      whose rename can still be lost, may leave it. */
  function TempsAfter(temps: set<Temp>, id: Id, c: Channel, fault: Fault): set<Temp> {
    if fault == NoFault then set t | t in temps && t.id != id else temps + {Temp(id, c)}
  }

  function OpenOn(l: Ledger, peer: string, deposit: int, fault: Fault): (Ledger, Result<Id, Failure>) {
    if deposit <= 0 then (l, Err(Insufficient))
    else
      var id := Id(peer, |l.states| + 1);
      var created := Channel(deposit, deposit, 0, 0, false);
      var (files, ok) := Persist(l.files, id, created, fault);
      var temps := TempsAfter(l.temps, id, created, fault);
      if ok then (l.(states := l.states[id := created], files := files, temps := temps), Ok(id))
      else (l.(states := l.states - {id}, files := files, temps := temps), Err(NotPersisted))
  }

  function PayOn(l: Ledger, id: Id, amount: int, fault: Fault): (Ledger, Result<Proof, Failure>) {
    if id !in l.states then (l, Err(ChannelUnknown))
    else
      var c := l.states[id];
      if c.closed then (l, Err(ChannelClosed))
      else if amount <= 0 || amount > c.outbound then (l, Err(Insufficient))
      else
        var next := c.(outbound := c.outbound - amount, inbound := c.inbound + amount, nonce := c.nonce + 1);
        var (files, ok) := Persist(l.files, id, next, fault);
        var temps := TempsAfter(l.temps, id, next, fault);
        if !ok then (l.(files := files, temps := temps), Err(NotPersisted))
        else (Ledger(l.states[id := next], files, temps, l.issued[id := next.nonce]),
              Ok(Proof(id, next.nonce, next.outbound, next.inbound)))
  }

  /** Closing takes hold in memory even when writing it down fails. */
  function CloseOn(l: Ledger, id: Id, fault: Fault): (Ledger, Option<Failure>) {
    if id !in l.states then (l, Some(ChannelUnknown))
    else
      var c := l.states[id].(closed := true);
      var (files, ok) := Persist(l.files, id, c, fault);
      (l.(states := l.states[id := c], files := files, temps := TempsAfter(l.temps, id, c, fault)), if ok then None else Some(NotPersisted))
  }

  /** What a restart reads back. Every name in the directory is read, temporary ones first;
      a file it cannot read is skipped. */
  function Loaded(files: Files, unreadable: set<Id>, found: map<Id, Channel>): map<Id, Channel> {
    found + map id | id in files && files[id].visible.Some? && id !in unreadable :: files[id].visible.value
  }

  ghost predicate Crashed(files: Files, files': Files) {
    files'.Keys == files.Keys && forall id :: id in files ==> AfterCrash(files[id], files'[id])
  }

  class Native {
    var states: map<Id, Channel>
    ghost var files: Files
    ghost var temps: set<Temp>
    ghost var issued: map<Id, nat>
    var spent: set<Bytes32>
    ghost var nullifiers: File<seq<Byte>>

    ghost function Book(): Ledger
      reads this
    {
      Ledger(states, files, temps, issued)
    }

    method Open(peer: string, deposit: int, fault: Fault) returns (r: Result<Id, Failure>)
      modifies this`states, this`files, this`temps
      ensures (Book(), r) == OpenOn(old(Book()), peer, deposit, fault)
    {
      if deposit <= 0 {
        return Err(Insufficient);
      }
      var id := Id(peer, |states| + 1);
      var created := Channel(deposit, deposit, 0, 0, false);
      ghost var before := states;
      states := states[id := created];
      files, temps := Persist(files, id, created, fault).0, TempsAfter(temps, id, created, fault);
      if fault != NoFault {
        states := states - {id};
        assert states == before - {id};
        return Err(NotPersisted);
      }
      return Ok(id);
    }

    method Pay(id: Id, amount: int, fault: Fault) returns (r: Result<Proof, Failure>)
      modifies this`states, this`files, this`temps, this`issued
      ensures (Book(), r) == PayOn(old(Book()), id, amount, fault)
    {
      if id !in states {
        return Err(ChannelUnknown);
      }
      var c := states[id];
      if c.closed {
        return Err(ChannelClosed);
      }
      if amount <= 0 {
        return Err(Insufficient);
      }
      if amount > c.outbound {
        return Err(Insufficient);
      }
      var next := c.(outbound := c.outbound - amount, inbound := c.inbound + amount, nonce := c.nonce + 1);
      files, temps := Persist(files, id, next, fault).0, TempsAfter(temps, id, next, fault);
      if fault != NoFault {
        return Err(NotPersisted);
      }
      states := states[id := next];
      issued := issued[id := next.nonce];
      return Ok(Proof(id, next.nonce, next.outbound, next.inbound));
    }

    method Close(id: Id, fault: Fault) returns (r: Option<Failure>)
      modifies this`states, this`files, this`temps
      ensures (Book(), r) == CloseOn(old(Book()), id, fault)
    {
      if id !in states {
        return Some(ChannelUnknown);
      }
      states := states[id := states[id].(closed := true)];
      files, temps := Persist(files, id, states[id], fault).0, TempsAfter(temps, id, states[id], fault);
      return if fault == NoFault then None else Some(NotPersisted);
    }

    /** Returns None only once the nullifier is flushed. */
    method Spend(nf: Bytes32, w: Append) returns (r: Option<Failure>)
      modifies this`spent, this`nullifiers
      ensures (spent, nullifiers, r) == SpendOn(old(spent), old(nullifiers), nf, w)
    {
      if nf in spent {
        return Some(DoubleSpend);
      }
      nullifiers := Appended(nullifiers, nf, w);
      if w != Whole {
        return Some(NotPersisted);
      }
      spent := spent + {nf};
      return None;
    }
  }

  // ---- channels: every run -----------------------------------------------------------------------

  datatype Step =
    | Open(peer: string, deposit: int, fault: Fault)
    | Pay(id: Id, amount: int, fault: Fault)
    | Close(id: Id, fault: Fault)
    | Restart(left: Files, unreadable: set<Id>, found: map<Id, Channel>)

  /** The id the next channel with this peer will get. */
  function NextId(l: Ledger, peer: string): Id {
    Id(peer, |l.states| + 1)
  }

  ghost predicate LeftBehind(temps: set<Temp>, found: map<Id, Channel>) {
    forall id :: id in found ==> Temp(id, found[id]) in temps
  }

  /** A restart finds, of every file, something a crash could leave, and of the temporary
      files some that were left; and a new channel does not get the id of one that proofs were handed out for. */
  ghost predicate Possible(l: Ledger, s: Step) {
    match s
    case Open(peer, _, _) => NextId(l, peer) !in l.issued
    case Restart(left, _, found) => Crashed(l.files, left) && LeftBehind(l.temps, found)
    case _ => true
  }

  function Next(l: Ledger, s: Step): Ledger {
    match s
    case Open(peer, deposit, fault) => OpenOn(l, peer, deposit, fault).0
    case Pay(id, amount, fault) => PayOn(l, id, amount, fault).0
    case Close(id, fault) => CloseOn(l, id, fault).0
    case Restart(left, unreadable, found) => l.(states := Loaded(left, unreadable, found), files := left)
  }

  function Returned(l: Ledger, s: Step): Option<Proof> {
    if s.Pay? && PayOn(l, s.id, s.amount, s.fault).1.Ok? then Some(PayOn(l, s.id, s.amount, s.fault).1.value) else None
  }

  function Run(steps: seq<Step>): Ledger {
    if steps == [] then Ledger(map[], map[], {}, map[]) else Next(Run(steps[..|steps| - 1]), steps[|steps| - 1])
  }

  ghost predicate PossibleRun(steps: seq<Step>) {
    forall i :: 0 <= i < |steps| ==> Possible(Run(steps[..i]), steps[i])
  }

  ghost predicate Conserved(c: Channel) {
    c.outbound >= 0 && c.inbound >= 0 && c.outbound + c.inbound == c.deposit
  }

  /** No crash can leave this channel's file unbalanced, or absent or behind once a proof
      was handed out. */
  ghost predicate Kept(l: Ledger, id: Id) {
    forall v :: v in FileOf(l.files, id).survivors ==>
      && (id in l.issued ==> v.Some?)
      && (v.Some? ==> Conserved(v.value) && (id in l.issued ==> v.value.nonce >= l.issued[id]))
  }

  /** No temporary file is unbalanced, or behind a proof that was handed out. */
  ghost predicate TempKept(l: Ledger, t: Temp) {
    Conserved(t.channel) && (t.id in l.issued ==> t.channel.nonce >= l.issued[t.id])
  }

  ghost predicate InMemory(l: Ledger, id: Id) {
    id in l.states ==> Conserved(l.states[id]) && (id in l.issued ==> l.states[id].nonce >= l.issued[id])
  }

  ghost predicate Inv(l: Ledger) {
    && (forall id :: id in l.files ==> Sound(l.files[id]))
    && (forall t :: t in l.temps ==> TempKept(l, t))
    && forall id :: Kept(l, id) && InMemory(l, id)
  }

  lemma TempsStay(l: Ledger, l': Ledger, id: Id, c: Channel, fault: Fault)
    requires forall t :: t in l.temps ==> TempKept(l, t)
    requires l'.temps == TempsAfter(l.temps, id, c, fault) && l'.issued == l.issued
    requires TempKept(l, Temp(id, c))
    ensures forall t :: t in l'.temps ==> TempKept(l', t)
  {
  }

  lemma OpenInv(l: Ledger, peer: string, deposit: int, fault: Fault)
    requires Inv(l) && NextId(l, peer) !in l.issued
    ensures Inv(OpenOn(l, peer, deposit, fault).0)
  {
    var l' := OpenOn(l, peer, deposit, fault).0;
    if deposit > 0 {
      var id, c := NextId(l, peer), Channel(deposit, deposit, 0, 0, false);
      TempsStay(l, l', id, c, fault);
      assert Kept(l, id) && InMemory(l, id);
      OpenedKept(l, peer, deposit, fault);
      OpenedFiles(l, peer, deposit, fault);
      hide TempsAfter, TempKept, Kept, InMemory, OpenOn, FileOf, Sound;
      forall x ensures Kept(l', x) && InMemory(l', x) {
        assert Kept(l, x) && InMemory(l, x);
        if x != id { SameFile(l, l', x); }
      }
    }
  }

  /** Opening touches the file and the record of the new id only. */
  lemma OpenedFiles(l: Ledger, peer: string, deposit: int, fault: Fault)
    requires forall x :: x in l.files ==> Sound(l.files[x])
    ensures var l', id := OpenOn(l, peer, deposit, fault).0, NextId(l, peer);
            && l'.issued == l.issued
            && (forall x :: x in l'.files ==> Sound(l'.files[x]))
            && forall x :: x != id ==>
                 && FileOf(l'.files, x) == FileOf(l.files, x)
                 && (x in l'.states <==> x in l.states) && (x in l.states ==> l'.states[x] == l.states[x])
  {
    PersistOthers(l.files, NextId(l, peer), Channel(deposit, deposit, 0, 0, false), fault);
    hide Persist, TempsAfter, FileOf, Sound;
  }

  lemma PersistOthers(files: Files, id: Id, c: Channel, fault: Fault)
    requires forall x :: x in files ==> Sound(files[x])
    ensures var files' := Persist(files, id, c, fault).0;
            && (forall x :: x in files' ==> Sound(files'[x]))
            && forall x :: x != id ==> FileOf(files', x) == FileOf(files, x)
  {
  }

  lemma OpenedKept(l: Ledger, peer: string, deposit: int, fault: Fault)
    requires deposit > 0 && NextId(l, peer) !in l.issued && Kept(l, NextId(l, peer))
    ensures var l' := OpenOn(l, peer, deposit, fault).0; Kept(l', NextId(l, peer)) && InMemory(l', NextId(l, peer))
  {
  }

  /** A channel whose file, state and proofs did not change is kept as it was. */
  lemma SameFile(l: Ledger, l': Ledger, x: Id)
    requires Kept(l, x) && InMemory(l, x)
    requires FileOf(l'.files, x) == FileOf(l.files, x) && l'.issued == l.issued
    requires (x in l'.states <==> x in l.states) && (x in l.states ==> l'.states[x] == l.states[x])
    ensures Kept(l', x) && InMemory(l', x)
  {
  }

  lemma PayInv(l: Ledger, id: Id, amount: int, fault: Fault)
    requires Inv(l)
    ensures Inv(PayOn(l, id, amount, fault).0)
  {
    var l' := PayOn(l, id, amount, fault).0;
    assert Kept(l, id) && InMemory(l, id);
    forall x ensures Kept(l', x) && InMemory(l', x) {
      assert Kept(l, x) && InMemory(l, x);
    }
  }

  lemma CloseInv(l: Ledger, id: Id, fault: Fault)
    requires Inv(l)
    ensures Inv(CloseOn(l, id, fault).0)
  {
    var l' := CloseOn(l, id, fault).0;
    assert Kept(l, id) && InMemory(l, id);
    forall x ensures Kept(l', x) && InMemory(l', x) {
      assert Kept(l, x) && InMemory(l, x);
    }
  }

  lemma RestartInv(l: Ledger, left: Files, unreadable: set<Id>, found: map<Id, Channel>)
    requires Inv(l) && Crashed(l.files, left) && LeftBehind(l.temps, found)
    ensures Inv(l.(states := Loaded(left, unreadable, found), files := left))
  {
    var l' := l.(states := Loaded(left, unreadable, found), files := left);
    forall t | t in l'.temps ensures TempKept(l', t) {
      assert TempKept(l, t);
    }
    forall x ensures Kept(l', x) && InMemory(l', x) {
      assert Kept(l, x) && InMemory(l, x);
      if x in left {
        assert AfterCrash(l.files[x], left[x]);
      }
      if x in found {
        assert TempKept(l, Temp(x, found[x]));
      }
    }
  }

  lemma NextInv(l: Ledger, s: Step)
    requires Inv(l) && Possible(l, s)
    ensures Inv(Next(l, s))
  {
    hide Inv;
    match s
    case Open(peer, deposit, fault) => OpenInv(l, peer, deposit, fault);
    case Pay(id, amount, fault) => PayInv(l, id, amount, fault);
    case Close(id, fault) => CloseInv(l, id, fault);
    case Restart(left, unreadable, found) => RestartInv(l, left, unreadable, found);
  }

  lemma {:induction false} RunInv(steps: seq<Step>)
    requires PossibleRun(steps)
    ensures Inv(Run(steps))
  {
    if steps != [] {
      hide Inv, Next, Possible;
      var init := steps[..|steps| - 1];
      forall i | 0 <= i < |init| ensures Possible(Run(init[..i]), init[i]) {
        assert init[..i] == steps[..i];
      }
      RunInv(init);
      NextInv(Run(init), steps[|steps| - 1]);
    }
  }

  lemma IssuedGrows(l: Ledger, s: Step, id: Id)
    requires Inv(l)
    ensures id in l.issued ==> id in Next(l, s).issued && Next(l, s).issued[id] >= l.issued[id]
    ensures var p := Returned(l, s);
            p.Some? ==> Next(l, s).issued[p.value.id] == p.value.nonce
                        && (p.value.id in l.issued ==> p.value.nonce > l.issued[p.value.id])
  {
    if s.Pay? {
      assert InMemory(l, s.id);
    }
  }

  /** Nothing that has been handed out is ever forgotten. */
  lemma {:induction false} ProofIssued(steps: seq<Step>, i: nat)
    requires PossibleRun(steps) && i < |steps|
    requires Returned(Run(steps[..i]), steps[i]).Some?
    ensures var p := Returned(Run(steps[..i]), steps[i]).value;
            p.id in Run(steps).issued && Run(steps).issued[p.id] >= p.nonce
  {
    hide Inv, Next, Possible, Returned;
    var init := steps[..|steps| - 1];
    forall k | 0 <= k < |init| ensures Possible(Run(init[..k]), init[k]) {
      assert init[..k] == steps[..k];
    }
    RunInv(init);
    var p := Returned(Run(steps[..i]), steps[i]).value;
    IssuedGrows(Run(init), steps[|steps| - 1], p.id);
    if i < |init| {
      assert init[..i] == steps[..i];
      ProofIssued(init, i);
    } else {
      assert init == steps[..i];
      ReturnedIssued(Run(init), steps[i]);
    }
  }

  lemma ReturnedIssued(l: Ledger, s: Step)
    requires Returned(l, s).Some?
    ensures Returned(l, s).value.id in Next(l, s).issued
  {
  }

  /** Whatever crashes and failures happen in between, a later proof for a channel has a
      higher nonce than every earlier one. */
  lemma NoncesIncrease(steps: seq<Step>, i: nat, j: nat)
    requires PossibleRun(steps) && i < j < |steps|
    requires Returned(Run(steps[..i]), steps[i]).Some? && Returned(Run(steps[..j]), steps[j]).Some?
    requires Returned(Run(steps[..i]), steps[i]).value.id == Returned(Run(steps[..j]), steps[j]).value.id
    ensures Returned(Run(steps[..i]), steps[i]).value.nonce < Returned(Run(steps[..j]), steps[j]).value.nonce
  {
    hide Inv, Next, Possible, Returned, Run;
    var before := steps[..j];
    forall k | 0 <= k < |before| ensures Possible(Run(before[..k]), before[k]) {
      assert before[..k] == steps[..k];
    }
    assert before[..i] == steps[..i];
    ProofIssued(before, i);
    RunInv(before);
    var p := Returned(Run(steps[..j]), steps[j]).value;
    IssuedGrows(Run(before), steps[j], p.id);
  }

  /** At every moment, whatever a crash would leave of a channel carries a nonce no lower
      than any proof handed out for it, and its two balances still add up to its deposit. */
  lemma DurableCoversProofs(steps: seq<Step>, i: nat, left: Files, found: map<Id, Channel>)
    requires PossibleRun(steps) && i < |steps|
    requires Returned(Run(steps[..i]), steps[i]).Some? && Crashed(Run(steps).files, left)
    ensures var p := Returned(Run(steps[..i]), steps[i]).value;
            var now := Loaded(left, {}, found);
            p.id in now && now[p.id].nonce >= p.nonce && Conserved(now[p.id])
  {
    hide Inv, Next, Returned, Run, Possible, Crashed, Loaded, Conserved;
    ProofIssued(steps, i);
    RunInv(steps);
    CrashKeepsIssued(Run(steps), left, found, Returned(Run(steps[..i]), steps[i]).value.id);
  }

  lemma CrashKeepsIssued(l: Ledger, left: Files, found: map<Id, Channel>, id: Id)
    requires Inv(l) && id in l.issued && Crashed(l.files, left)
    ensures var now := Loaded(left, {}, found); id in now && now[id].nonce >= l.issued[id] && Conserved(now[id])
  {
    hide Inv;
    InvAt(l, id);
    assert id in l.files by {
      assert id !in l.files ==> None in FileOf(l.files, id).survivors;
    }
    assert AfterCrash(l.files[id], left[id]);
  }

  lemma InvAt(l: Ledger, id: Id)
    requires Inv(l)
    ensures Kept(l, id) && InMemory(l, id) && (id in l.files ==> Sound(l.files[id]))
  {
    hide Kept, InMemory, Sound;
  }

  /** The condition on new ids is exact: opening over an id with proofs handed out makes
      the very next proof for it repeat or undercut one of them. */
  lemma ReusedIdRepeatsNonces(l: Ledger, peer: string, deposit: int, amount: int)
    requires 0 < amount <= deposit
    ensures var (l1, created) := OpenOn(l, peer, deposit, NoFault);
            var (l2, paid) := PayOn(l1, NextId(l, peer), amount, NoFault);
            && created == Ok(NextId(l, peer))
            && paid == Ok(Proof(NextId(l, peer), 1, deposit - amount, amount))
            && (NextId(l, peer) in l.issued && l.issued[NextId(l, peer)] >= 1 ==> paid.value.nonce <= l.issued[NextId(l, peer)])
  {
  }

  /** One file skipped on loading is enough: the count of channels, and with it the next
      id, falls back to that channel's. */
  lemma SkippedFileIsReused(l: Ledger, peer: string)
    requires l.files.Keys == {Id(peer, 1)} && l.files[Id(peer, 1)].visible.Some?
    ensures NextId(Next(l, Restart(l.files, {Id(peer, 1)}, map[])), peer) == Id(peer, 1)
    ensures NextId(Next(l, Restart(l.files, {}, map[])), peer) == Id(peer, 2)
  {
    assert Loaded(l.files, {Id(peer, 1)}, map[]) == map[];
    assert Loaded(l.files, {}, map[]).Keys == {Id(peer, 1)};
    assert |Loaded(l.files, {}, map[])| == |Loaded(l.files, {}, map[]).Keys|;
  }

  /** An open that failed before its rename was reported as a failure, and its channel is
      forgotten; but the temporary file it left is read on the next start, which brings
      the channel back, ready to pay. */
  lemma FailedOpenComesBack(l: Ledger, peer: string, deposit: int, amount: int)
    requires 0 < amount <= deposit && NextId(l, peer) !in l.states && NextId(l, peer) !in l.files
    ensures var id, created := NextId(l, peer), Channel(deposit, deposit, 0, 0, false);
            var (l1, r) := OpenOn(l, peer, deposit, BeforeRename);
            var again := Restart(l.files, {}, map[id := created]);
            && r == Err(NotPersisted) && id !in l1.states
            && Possible(l1, again) && id in Next(l1, again).states
            && PayOn(Next(l1, again), id, amount, NoFault).1.Ok?
  {
    hide Crashed, LeftBehind, Loaded;
    var id, created := NextId(l, peer), Channel(deposit, deposit, 0, 0, false);
    var l1 := OpenOn(l, peer, deposit, BeforeRename).0;
    assert l1.files == l.files && Temp(id, created) in l1.temps && id !in l1.states;
    OneLeft(l1.temps, id, created);
    NothingLost(l.files);
    TempIsLoaded(l.files, id, created);
  }

  lemma OneLeft(temps: set<Temp>, id: Id, c: Channel)
    requires Temp(id, c) in temps
    ensures LeftBehind(temps, map[id := c])
  {
  }

  lemma NothingLost(files: Files)
    ensures Crashed(files, files)
  {
  }

  lemma TempIsLoaded(files: Files, id: Id, c: Channel)
    requires id !in files
    ensures var now := Loaded(files, {}, map[id := c]); id in now && now[id] == c
  {
  }

  /** Channel numbers stay within the count of channels, and no crash loses a channel. */
  ghost predicate Numbered(l: Ledger) {
    && l.files.Keys == l.states.Keys
    && (forall id :: id in l.issued ==> id in l.states)
    && (forall t :: t in l.temps ==> t.id in l.files)
    && (forall id :: id in l.states ==> id.number <= |l.states|)
    && forall id :: id in l.files ==> Sound(l.files[id]) && forall v :: v in l.files[id].survivors ==> v.Some?
  }

  /** Files are never skipped, and no write that opens a channel fails. */
  ghost predicate Tidy(s: Step) {
    (s.Restart? ==> s.unreadable == {}) && (s.Open? ==> s.fault == NoFault)
  }

  lemma SameSize(a: map<Id, Channel>, b: map<Id, Channel>)
    requires a.Keys == b.Keys
    ensures |a| == |b|
  {
    assert |a| == |a.Keys| && |b| == |b.Keys|;
  }

  lemma MapGrows(m: map<Id, Channel>, id: Id, c: Channel)
    requires id !in m
    ensures |m[id := c]| == |m| + 1
  {
    assert m[id := c].Keys == m.Keys + {id};
    assert |m| == |m.Keys| && |m[id := c]| == |m[id := c].Keys|;
  }

  lemma OpenNumbered(l: Ledger, peer: string, deposit: int, fault: Fault)
    requires Numbered(l) && fault == NoFault
    ensures Numbered(OpenOn(l, peer, deposit, fault).0)
  {
    var id, c := NextId(l, peer), Channel(deposit, deposit, 0, 0, false);
    assert id !in l.states;
    if deposit > 0 {
      MapGrows(l.states, id, c);
      AddNumbered(l, id, c);
    }
  }

  lemma AddNumbered(l: Ledger, id: Id, c: Channel)
    requires Numbered(l) && id !in l.states && id.number == |l.states| + 1 == |l.states[id := c]|
    ensures Numbered(l.(states := l.states[id := c], files := l.files[id := File(Some(c), iset{Some(c)})],
                        temps := TempsAfter(l.temps, id, c, NoFault)))
  {
  }

  /** Writing a channel that is there keeps the directory in order. */
  lemma RewriteNumbered(l: Ledger, id: Id, c: Channel, fault: Fault)
    requires Numbered(l) && id in l.states
    ensures var files := Persist(l.files, id, c, fault).0;
            && files.Keys == l.files.Keys
            && (forall x :: x in files ==> Sound(files[x]) && forall v :: v in files[x].survivors ==> v.Some?)
            && forall t :: t in TempsAfter(l.temps, id, c, fault) ==> t.id in files
  {
  }

  lemma PayNumbered(l: Ledger, id: Id, amount: int, fault: Fault)
    requires Numbered(l)
    ensures Numbered(PayOn(l, id, amount, fault).0)
  {
    hide Persist, TempsAfter;
    var l' := PayOn(l, id, amount, fault).0;
    if id in l.states {
      var c := l.states[id];
      RewriteNumbered(l, id, c.(outbound := c.outbound - amount, inbound := c.inbound + amount, nonce := c.nonce + 1), fault);
      assert l'.states.Keys == l.states.Keys;
      SameSize(l'.states, l.states);
    }
  }

  lemma CloseNumbered(l: Ledger, id: Id, fault: Fault)
    requires Numbered(l)
    ensures Numbered(CloseOn(l, id, fault).0)
  {
    hide Persist, TempsAfter;
    var l' := CloseOn(l, id, fault).0;
    if id in l.states {
      RewriteNumbered(l, id, l.states[id].(closed := true), fault);
      assert l'.states.Keys == l.states.Keys;
      SameSize(l'.states, l.states);
    }
  }

  lemma RestartNumbered(l: Ledger, left: Files, found: map<Id, Channel>)
    requires Numbered(l) && Crashed(l.files, left) && LeftBehind(l.temps, found)
    ensures Numbered(Next(l, Restart(left, {}, found)))
  {
    var l' := Next(l, Restart(left, {}, found));
    forall id | id in left ensures id in l'.states && Sound(left[id]) && forall v :: v in left[id].survivors ==> v.Some? {
      assert AfterCrash(l.files[id], left[id]);
    }
    LoadedKeys(l, left, found);
    SameSize(l'.states, l.states);
  }

  lemma LoadedKeys(l: Ledger, left: Files, found: map<Id, Channel>)
    requires Numbered(l) && Crashed(l.files, left) && LeftBehind(l.temps, found)
    ensures Loaded(left, {}, found).Keys == l.states.Keys
  {
    forall id | id in found ensures id in l.files {
      assert Temp(id, found[id]) in l.temps;
    }
    forall id | id in left ensures left[id].visible.Some? {
      assert AfterCrash(l.files[id], left[id]);
    }
  }

  /** Every restart finds what a crash could leave. */
  ghost predicate HonestRestarts(steps: seq<Step>) {
    forall i :: 0 <= i < |steps| && steps[i].Restart? ==>
      Crashed(Run(steps[..i]).files, steps[i].left) && LeftBehind(Run(steps[..i]).temps, steps[i].found)
  }

  lemma HonestPrefix(steps: seq<Step>, n: nat)
    requires HonestRestarts(steps) && n <= |steps|
    ensures HonestRestarts(steps[..n])
  {
    hide Crashed, LeftBehind, Run;
    forall i | 0 <= i < n && steps[..n][i].Restart?
      ensures Crashed(Run(steps[..n][..i]).files, steps[i].left) && LeftBehind(Run(steps[..n][..i]).temps, steps[i].found)
    {
      assert steps[..n][..i] == steps[..i];
    }
  }

  lemma {:induction false} TidyNumbered(steps: seq<Step>)
    requires (forall i :: 0 <= i < |steps| ==> Tidy(steps[i])) && HonestRestarts(steps)
    ensures Numbered(Run(steps))
  {
    if steps != [] {
      hide Numbered, Next, Crashed, LeftBehind;
      var init := steps[..|steps| - 1];
      HonestPrefix(steps, |init|);
      TidyNumbered(init);
      TidyStep(Run(init), steps[|steps| - 1]);
    } else {
      NumberedStart();
    }
  }

  lemma NumberedStart()
    ensures Numbered(Ledger(map[], map[], {}, map[]))
  {
  }

  lemma TidyStep(l: Ledger, s: Step)
    requires Numbered(l) && Tidy(s) && (s.Restart? ==> Crashed(l.files, s.left) && LeftBehind(l.temps, s.found))
    ensures Numbered(Next(l, s))
  {
    hide Numbered, Crashed, LeftBehind;
    match s
    case Open(peer, deposit, fault) => OpenNumbered(l, peer, deposit, fault);
    case Pay(id, amount, fault) => PayNumbered(l, id, amount, fault);
    case Close(id, fault) => CloseNumbered(l, id, fault);
    case Restart(left, _, found) => RestartNumbered(l, left, found);
  }

  /** In such runs no id is ever given out twice, so all of the above holds of them. */
  lemma TidyRunsArePossible(steps: seq<Step>)
    requires (forall i :: 0 <= i < |steps| ==> Tidy(steps[i])) && HonestRestarts(steps)
    ensures PossibleRun(steps)
  {
    hide Crashed, Run, LeftBehind;
    forall i | 0 <= i < |steps| ensures Possible(Run(steps[..i]), steps[i]) {
      HonestPrefix(steps, i);
      TidyNumbered(steps[..i]);
    }
  }

  // ---- a closed channel ------------------------------------------------------------------------------

  /** A payment goes through exactly on a known, open channel with a positive amount it covers,
      and when it was written; then the amount moves over and the proof says so under the next
      nonce. Each refusal has its own cause and leaves memory alone. */
  lemma PaysExactly(l: Ledger, id: Id, amount: int, fault: Fault)
    ensures var (l', r) := PayOn(l, id, amount, fault);
            var known := id in l.states;
            var open := known && !l.states[id].closed;
            var covered := open && 0 < amount <= l.states[id].outbound;
            && (r.Ok? <==> covered && fault == NoFault)
            && (r == Err(ChannelUnknown) <==> !known)
            && (r == Err(ChannelClosed) <==> known && !open)
            && (r == Err(Insufficient) <==> open && !covered)
            && (r == Err(NotPersisted) <==> covered && fault != NoFault)
            && (r.Ok? ==>
                  var c, c' := l.states[id], l'.states[id];
                  && r.value == Proof(id, c.nonce + 1, c.outbound - amount, c.inbound + amount)
                  && l'.states == l.states[id := c']
                  && c' == Channel(c.deposit, c.outbound - amount, c.inbound + amount, c.nonce + 1, false))
            && (r.Err? ==> l'.states == l.states && l'.issued == l.issued)
  {
  }

  /** A closed channel is closed in memory, and in whatever a crash may leave of its file. */
  ghost predicate ShutAt(l: Ledger, id: Id) {
    && (id in l.states ==> l.states[id].closed)
    && id in l.files && Sound(l.files[id])
    && forall v :: v in l.files[id].survivors ==> v.Some? && v.value.closed
  }

  /** Its file is not skipped on loading, and its number not given out again. */
  ghost predicate Leaves(l: Ledger, s: Step, id: Id) {
    match s
    case Open(peer, _, _) => NextId(l, peer) != id
    case Restart(left, unreadable, _) => Crashed(l.files, left) && id !in unreadable
    case _ => true
  }

  lemma NextShut(l: Ledger, s: Step, id: Id)
    requires ShutAt(l, id) && Leaves(l, s, id)
    ensures ShutAt(Next(l, s), id)
    ensures s.Pay? && s.id == id ==> Returned(l, s).None?
  {
    if s.Restart? {
      assert AfterCrash(l.files[id], s.left[id]);
    }
    hide Conserved, TempsAfter;
  }

  /** From a close that was reported on, through crashes and restarts, no payment on the channel
      is ever proven again. */
  lemma {:induction false} ClosedForGood(l: Ledger, id: Id, steps: seq<Step>)
    requires id in l.states
    requires forall i :: 0 <= i < |steps| ==> Leaves(RunFrom(CloseOn(l, id, NoFault).0, steps[..i]), steps[i], id)
    ensures CloseOn(l, id, NoFault).1.None?
    ensures ShutAt(RunFrom(CloseOn(l, id, NoFault).0, steps), id)
    ensures forall amount, fault :: PayOn(RunFrom(CloseOn(l, id, NoFault).0, steps), id, amount, fault).1.Err?
  {
    hide Next, Leaves;
    var closed := CloseOn(l, id, NoFault).0;
    if steps != [] {
      var init := steps[..|steps| - 1];
      forall i | 0 <= i < |init| ensures Leaves(RunFrom(closed, init[..i]), init[i], id) {
        assert init[..i] == steps[..i];
      }
      ClosedForGood(l, id, init);
      NextShut(RunFrom(closed, init), steps[|steps| - 1], id);
    }
  }

  function RunFrom(l: Ledger, steps: seq<Step>): Ledger {
    if steps == [] then l else Next(RunFrom(l, steps[..|steps| - 1]), steps[|steps| - 1])
  }

  /** A close that could not be written holds until the restart: afterwards the channel is
      closed exactly when what the disk kept is. */
  lemma UnwrittenCloseIsForgotten(l: Ledger, id: Id, fault: Fault, left: Files)
    requires id in l.states && id in left && left[id].visible.Some?
    ensures var l1 := CloseOn(l, id, fault).0;
            var l2 := Next(l1, Restart(left, {}, map[]));
            && (forall amount, f :: PayOn(l1, id, amount, f).1 == Err(ChannelClosed))
            && id in l2.states && l2.states[id].closed == left[id].visible.value.closed
  {
    hide Persist, TempsAfter;
  }

  // ---- nullifiers ---------------------------------------------------------------------------------

  /** How an append of one record can end: flushed whole, or given up after some bytes,
      of which a crash may keep any beginning. */
  datatype Append = Whole | GaveUp(written: nat)

  function Appended(f: File<seq<Byte>>, nf: Bytes32, w: Append): File<seq<Byte>> {
    match w
    case Whole => File(f.visible + nf, iset{f.visible + nf})
    case GaveUp(n) =>
      var k := if n < 32 then n else 32;
      File(f.visible + nf[..k], f.survivors + iset j: nat | j <= k :: f.visible + nf[..j])
  }

  function SpendOn(spent: set<Bytes32>, f: File<seq<Byte>>, nf: Bytes32, w: Append)
    : (set<Bytes32>, File<seq<Byte>>, Option<Failure>)
  {
    if nf in spent then (spent, f, Some(DoubleSpend))
    else if w == Whole then (spent + {nf}, Appended(f, nf, w), None)
    else (spent, Appended(f, nf, w), Some(NotPersisted))
  }

  /** A nullifier is refused exactly when it was reported spent; it is reported spent exactly when
      it was not yet and its record was flushed whole, and until then it can be tried again. */
  lemma SpendsExactly(spent: set<Bytes32>, f: File<seq<Byte>>, nf: Bytes32, w: Append)
    ensures var (spent', f', r) := SpendOn(spent, f, nf, w);
            && (r == Some(DoubleSpend) <==> nf in spent)
            && (r.None? <==> nf !in spent && w == Whole)
            && (r.None? ==> spent' == spent + {nf} && f'.visible == f.visible + nf && f'.survivors == iset{f'.visible})
            && (r.Some? ==> spent' == spent)
            && (nf in spent ==> f' == f)
  {
  }

  /** The loader takes whole records from the front and ignores what is left over. */
  function Records(raw: seq<Byte>): (spent: set<Bytes32>)
    decreases |raw|
  {
    if |raw| < 32 then {} else {raw[..32]} + Records(raw[32..])
  }

  lemma {:induction false} RecordsAligned(raw: seq<Byte>, more: seq<Byte>)
    requires |raw| % 32 == 0
    ensures Records(raw + more) == Records(raw) + Records(more)
    decreases |raw|
  {
    if |raw| == 0 {
      assert raw + more == more;
    } else {
      assert (raw + more)[..32] == raw[..32];
      assert (raw + more)[32..] == raw[32..] + more;
      RecordsAligned(raw[32..], more);
    }
  }

  lemma OneRecord(nf: Bytes32)
    ensures Records(nf) == {nf}
  {
    assert nf[..32] == nf;
    assert nf[32..] == [];
  }

  /** What the loader finds after one more whole record: exactly that record when the file
      ended on a record boundary, and otherwise one that straddles it. */
  lemma {:induction false} RecordsAfterAppend(raw: seq<Byte>, nf: Bytes32)
    ensures var r := |raw| % 32;
            Records(raw + nf) == Records(raw) + {raw[|raw| - r..] + nf[..32 - r]}
    decreases |raw|
  {
    if |raw| < 32 {
      ShortAppend(raw, nf);
    } else {
      var r := |raw| % 32;
      DropKeepsRemainder(|raw|);
      RecordsAfterAppend(raw[32..], nf);
      FirstRecord(raw, []);
      FirstRecord(raw, nf);
      assert raw + [] == raw;
      assert raw[32..] + [] == raw[32..];
      assert raw[32..][|raw[32..]| - r..] == raw[|raw| - r..];
    }
  }

  lemma DropKeepsRemainder(n: nat)
    requires n >= 32
    ensures (n - 32) % 32 == n % 32
  {
  }

  lemma FirstRecord(raw: seq<Byte>, more: seq<Byte>)
    requires |raw| >= 32
    ensures Records(raw + more) == {raw[..32]} + Records(raw[32..] + more)
  {
    assert (raw + more)[..32] == raw[..32];
    assert (raw + more)[32..] == raw[32..] + more;
  }

  lemma ShortAppend(raw: seq<Byte>, nf: Bytes32)
    requires |raw| < 32
    ensures Records(raw) == {}
    ensures Records(raw + nf) == {raw[|raw| - |raw| % 32..] + nf[..32 - |raw| % 32]}
  {
    var r := |raw|;
    assert r % 32 == r;
    assert (raw + nf)[..32] == raw + nf[..32 - r];
    assert raw[r - r..] == raw;
    assert (raw + nf)[32..] == nf[32 - r..];
    assert Records(nf[32 - r..]) == {};
  }

  /** A nullifier reported spent is found again after a restart exactly when it was on
      file already, the file ended on a record boundary, or the bytes left over happen to
      complete it. */
  lemma SpentIsFoundAgain(raw: seq<Byte>, nf: Bytes32)
    ensures var r := |raw| % 32;
            nf in Records(raw + nf) <==> nf in Records(raw) || r == 0 || nf == raw[|raw| - r..] + nf[..32 - r]
  {
    RecordsAfterAppend(raw, nf);
    if |raw| % 32 == 0 {
      assert raw[|raw|..] + nf[..32] == nf;
    }
  }

  /** After a write that stopped part way through one record, the next nullifier is
      reported spent, and a restart has never heard of it. */
  lemma TornRecordForgets(raw: seq<Byte>, torn: Bytes32, k: nat, nf: Bytes32)
    requires |raw| % 32 == 0 && 0 < k < 32 && nf !in Records(raw) && torn[0] != nf[0]
    ensures nf !in Records(raw + torn[..k] + nf)
  {
    hide Records;
    var left := raw + torn[..k];
    RecordsAligned(raw, torn[..k]);
    LeftOver(raw, torn, k);
    SpentIsFoundAgain(left, nf);
    assert (torn[..k] + nf[..32 - k])[0] == torn[0];
  }

  lemma LeftOver(raw: seq<Byte>, torn: Bytes32, k: nat)
    requires |raw| % 32 == 0 && 0 < k < 32
    ensures Records(torn[..k]) == {}
    ensures var left := raw + torn[..k]; |left| % 32 == k && left[|left| - k..] == torn[..k]
  {
  }

  datatype NoteStep = Spend(nf: Bytes32, w: Append) | Reload(left: File<seq<Byte>>)

  /** Memory, disk, and every nullifier reported spent so far. */
  datatype Notes = Notes(spent: set<Bytes32>, file: File<seq<Byte>>, reported: set<Bytes32>)

  function NoteNext(n: Notes, s: NoteStep): Notes {
    match s
    case Spend(nf, w) =>
      var (spent, f, r) := SpendOn(n.spent, n.file, nf, w);
      Notes(spent, f, if r.None? then n.reported + {nf} else n.reported)
    case Reload(left) => Notes(Records(left.visible), left, n.reported)
  }

  /** Failed appends leave all of their record or none of it, and so does a crash. */
  ghost predicate WholeRecords(n: Notes, s: NoteStep) {
    match s
    case Spend(_, w) => w.GaveUp? ==> w.written == 0 || w.written >= 32
    case Reload(left) => AfterCrash(n.file, left) && |left.visible| % 32 == 0
  }

  function NoteRun(steps: seq<NoteStep>): Notes {
    if steps == [] then Notes({}, File([], iset{[]}), {}) else NoteNext(NoteRun(steps[..|steps| - 1]), steps[|steps| - 1])
  }

  ghost predicate WholeRun(steps: seq<NoteStep>) {
    forall i :: 0 <= i < |steps| ==> WholeRecords(NoteRun(steps[..i]), steps[i])
  }

  ghost predicate NotesKept(n: Notes) {
    && Sound(n.file) && |n.file.visible| % 32 == 0
    && n.reported <= n.spent
    && forall raw :: raw in n.file.survivors ==> n.reported <= Records(raw)
  }

  lemma SpendKept(n: Notes, nf: Bytes32, w: Append)
    requires NotesKept(n) && nf !in n.spent && (w.GaveUp? ==> w.written == 0 || w.written >= 32)
    ensures NotesKept(NoteNext(n, Spend(nf, w)))
  {
    var raw := n.file.visible;
    if w == Whole {
      RecordsAligned(raw, nf);
      OneRecord(nf);
    } else {
      assert nf[..32] == nf && raw + nf[..0] == raw;
      forall j: nat | j <= 32 ensures n.reported <= Records(raw + nf[..j]) {
        RecordsAligned(raw, nf[..j]);
      }
    }
  }

  lemma NoteNextKept(n: Notes, s: NoteStep)
    requires NotesKept(n) && WholeRecords(n, s)
    ensures NotesKept(NoteNext(n, s)) && n.reported <= NoteNext(n, s).reported
  {
    if s.Spend? && s.nf !in n.spent {
      SpendKept(n, s.nf, s.w);
    }
  }

  lemma {:induction false} NoteRunKept(steps: seq<NoteStep>)
    requires WholeRun(steps)
    ensures NotesKept(NoteRun(steps))
  {
    if steps != [] {
      hide NotesKept, NoteNext, WholeRecords;
      var init := steps[..|steps| - 1];
      forall i | 0 <= i < |init| ensures WholeRecords(NoteRun(init[..i]), init[i]) {
        assert init[..i] == steps[..i];
      }
      NoteRunKept(init);
      NoteNextKept(NoteRun(init), steps[|steps| - 1]);
    } else {
      StartKept();
    }
  }

  lemma StartKept()
    ensures NotesKept(Notes({}, File([], iset{[]}), {}))
  {
  }

  lemma {:induction false} ReportedGrows(steps: seq<NoteStep>, i: nat)
    requires WholeRun(steps) && i <= |steps|
    ensures NoteRun(steps[..i]).reported <= NoteRun(steps).reported
  {
    if i < |steps| {
      hide NotesKept, NoteNext, WholeRecords;
      var init := steps[..|steps| - 1];
      forall k | 0 <= k < |init| ensures WholeRecords(NoteRun(init[..k]), init[k]) {
        assert init[..k] == steps[..k];
      }
      assert init[..i] == steps[..i];
      ReportedGrows(init, i);
      NoteRunKept(init);
      NoteNextKept(NoteRun(init), steps[|steps| - 1]);
    } else {
      assert steps[..i] == steps;
    }
  }

  /** As long as records are written whole, a nullifier once reported spent is refused
      ever after, across any failures and restarts. */
  lemma SpentStaysSpent(steps: seq<NoteStep>, i: nat, nf: Bytes32, w: Append)
    requires WholeRun(steps) && i < |steps| && steps[i] == Spend(nf, Whole) && nf !in NoteRun(steps[..i]).spent
    ensures var n := NoteRun(steps);
            SpendOn(n.spent, n.file, nf, w) == (n.spent, n.file, Some(DoubleSpend))
  {
    var upTo := steps[..i + 1];
    assert upTo[..i] == steps[..i];
    assert NoteRun(upTo) == NoteNext(NoteRun(steps[..i]), steps[i]);
    ReportedGrows(steps, i + 1);
    NoteRunKept(steps);
  }
}
