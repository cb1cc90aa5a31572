/** The executor itself: a journal of what was attempted, and loops that drive every
    fragment of a payment over its own channel. */
module MultipathExecutor {
  import opened Common
  import opened Disk
  import opened Symbols
  import opened Protocol
  import opened MultipathPayment
  import opened MultipathSafety
  import opened MultipathOutcome
  import opened MultipathProgress

  datatype ExecError = JournalFailed | NoJournal

  type LegResults = seq<Option<PayResult>>

  // ---- the journal -------------------------------------------------------------------------

  /** What is found under a payment's name: nothing, a file that does not parse, or the
      payment that was attempted. */
  datatype Content = Absent | Garbled | Kept(pay: Payment)

  type Journal = map<Term, File<Content>>

  function FileOf(j: Journal, id: Term): File<Content> {
    if id in j then j[id] else File(Absent, iset{Absent})
  }

  function Found(j: Journal, id: Term): Content {
    if id in j then j[id].visible else Absent
  }

  /** The journal is written beside its place and renamed, and never flushed: a process
      that restarts reads it, but a power loss may leave what was there before, or a
      file whose contents never reached the disk. */
  function Written(f: File<Content>, pay: Payment): File<Content> {
    File(Kept(pay), f.survivors + iset{Garbled, Kept(pay)})
  }

  /** Under this name no other payment was ever journalled. */
  ghost predicate OnlyThis(f: File<Content>, pay: Payment) {
    && (f.visible.Kept? ==> f.visible.pay == pay)
    && forall c :: c in f.survivors && c.Kept? ==> c.pay == pay
  }

  /** Without a directory nothing is ever written, and that is no error. */
  ghost function Journalled(j: Journal, dir: bool, pay: Payment): Journal {
    if dir then j[pay.id := Written(FileOf(j, pay.id), pay)] else j
  }

  /** The journal a process finds after `crash`: the file of `id` as any crash of the
      process or of the machine may leave it. */
  ghost predicate Reopened(j: Journal, id: Term, j': Journal) {
    && id in j'
    && AfterCrash(FileOf(j, id), j'[id])
    && forall other :: other in j && other != id ==> other in j' && j'[other] == j[other]
  }

  /** No journal is safe from a power loss: beside the payment there is always a survivor
      from which nobody can resume. Only a process that dies alone surely leaves it. */
  lemma JournalCanBeLost(j: Journal, pay: Payment)
    ensures exists g :: AfterCrash(FileOf(Journalled(j, true, pay), pay.id), g) && !g.visible.Kept?
    ensures FileOf(j, pay.id).survivors <= iset{Absent} ==>
              forall g :: AfterCrash(FileOf(Journalled(j, true, pay), pay.id), g) ==>
                g.visible == Kept(pay) || g.visible == Garbled || g.visible == Absent
  {
    var lost: File<Content> := File(Garbled, iset{Garbled});
    assert AfterCrash(FileOf(Journalled(j, true, pay), pay.id), lost);
  }

  ghost predicate OwnChannels(legs: seq<Leg>, channels: map<Term, Member>) {
    && (forall i :: 0 <= i < |legs| ==> legs[i].channel in channels)
    && forall i, j :: 0 <= i < j < |legs| ==> legs[i].channel != legs[j].channel
  }

  /** The store after `f` was applied to the channels of the first `k` fragments. */
  ghost predicate Driven(before: map<Term, Member>, after: map<Term, Member>, legs: seq<Leg>, k: nat,
                         f: (Member, Leg) -> Member)
    requires k <= |legs| && OwnChannels(legs, before)
  {
    && after.Keys == before.Keys
    && (forall i :: 0 <= i < k ==> after[legs[i].channel] == f(before[legs[i].channel], legs[i]))
    && (forall c :: c in before && (forall i :: 0 <= i < k ==> legs[i].channel != c) ==> after[c] == before[c])
  }

  function LockVia(net: Term -> Net): (Member, Leg) -> Member {
    (m: Member, l: Leg) => LockLeg(m, l, net(l.channel)).0
  }

  function SettleVia(secret: Term, net: Term -> Net): (Member, Leg) -> Member {
    (m: Member, l: Leg) => SettleLeg(m, l, secret, net(l.channel)).0
  }

  function RefundVia(net: Term -> Net): (Member, Leg) -> Member {
    (m: Member, l: Leg) => RefundLeg(m, l, net(l.channel)).0
  }

  function ResumeVia(secret: Term, net: Term -> Net): (Member, Leg) -> Member {
    (m: Member, l: Leg) => ResumeLeg(m, l, secret, net(l.channel))
  }

  lemma NotDriven(channels: map<Term, Member>, legs: seq<Leg>, f: (Member, Leg) -> Member)
    requires OwnChannels(legs, channels)
    ensures Driven(channels, channels, legs, 0, f)
  {
  }

  lemma DrivenStep(before: map<Term, Member>, after: map<Term, Member>, legs: seq<Leg>, k: nat,
                   f: (Member, Leg) -> Member)
    requires k < |legs| && OwnChannels(legs, before) && Driven(before, after, legs, k, f)
    ensures legs[k].channel in after && after[legs[k].channel] == before[legs[k].channel]
    ensures Driven(before, after[legs[k].channel := f(before[legs[k].channel], legs[k])], legs, k + 1, f)
  {
  }

  /** Locking every fragment and then settling every fragment resumes each of them. */
  lemma DrivenTwice(before: map<Term, Member>, mid: map<Term, Member>, after: map<Term, Member>,
                    legs: seq<Leg>, secret: Term, net: Term -> Net)
    requires OwnChannels(legs, before)
    requires Driven(before, mid, legs, |legs|, LockVia(net))
    requires Driven(mid, after, legs, |legs|, SettleVia(secret, net))
    ensures Driven(before, after, legs, |legs|, ResumeVia(secret, net))
  {
    hide LockLeg, SettleLeg;
  }

  ghost predicate AllLegs(channels: map<Term, Member>, legs: seq<Leg>, p: (Member, Leg) -> bool)
    requires OwnChannels(legs, channels)
  {
    forall i :: 0 <= i < |legs| ==> p(channels[legs[i].channel], legs[i])
  }

  function Records(channels: map<Term, Member>, legs: seq<Leg>): (ns: seq<Node>)
    requires forall i :: 0 <= i < |legs| ==> legs[i].channel in channels
    ensures |ns| == |legs|
    ensures forall i :: 0 <= i < |legs| ==> ns[i] == PayerRecord(channels[legs[i].channel])
  {
    seq(|legs|, i requires 0 <= i < |legs| => PayerRecord(channels[legs[i].channel]))
  }

  class Executor {
    /** The coordinator's store, each channel with the peer it belongs to. */
    var channels: map<Term, Member>
    /** Where attempts are journalled, if a directory was given at all. */
    const dir: bool
    /** Written before the first fragment moves and never updated with outcomes. */
    var journal: Journal

    constructor (channels: map<Term, Member>, dir: bool, journal: Journal)
      ensures this.channels == channels && this.dir == dir && this.journal == journal
    {
      this.channels, this.dir, this.journal := channels, dir, journal;
    }

    /** Writes the attempt down, unless no directory was given or the disk refuses. */
    method WriteJournal(pay: Payment, disk: bool) returns (ok: bool)
      modifies this`journal
      ensures ok <==> !dir || disk
      ensures journal == if ok then Journalled(old(journal), dir, pay) else old(journal)
    {
      if !dir {
        return true;
      }
      if disk {
        journal := journal[pay.id := Written(FileOf(journal, pay.id), pay)];
      }
      return disk;
    }

    /** Places the locks of the first `reach` fragments; a process that dies part of
        the way through the payment is a smaller `reach`. */
    method Lock(pay: Payment, net: Term -> Net, disk: bool, reach: nat)
      returns (r: Result<LegResults, ExecError>)
      requires OwnChannels(pay.legs, channels) && reach <= |pay.legs|
      modifies this
      ensures dir && !disk ==> r == Err(JournalFailed) && channels == old(channels) && journal == old(journal)
      ensures !dir || disk ==>
                && journal == Journalled(old(journal), dir, pay)
                && Driven(old(channels), channels, pay.legs, reach, LockVia(net))
                && r.Ok? && |r.value| == reach
                && forall i :: 0 <= i < reach ==>
                     r.value[i] == LockLeg(old(channels)[pay.legs[i].channel], pay.legs[i], net(pay.legs[i].channel)).1
      ensures dir && channels != old(channels) ==> Found(journal, pay.id) == Kept(pay)
      ensures !dir ==> journal == old(journal)
    {
      var written := WriteJournal(pay, disk);
      if !written {
        return Err(JournalFailed);
      }
      hide LockLeg, Driven;
      NotDriven(channels, pay.legs, LockVia(net));
      ghost var kept := journal;
      var results: LegResults := [];
      for i := 0 to reach
        invariant journal == kept
        invariant Driven(old(channels), channels, pay.legs, i, LockVia(net))
        invariant |results| == i
        invariant forall j :: 0 <= j < i ==>
          results[j] == LockLeg(old(channels)[pay.legs[j].channel], pay.legs[j], net(pay.legs[j].channel)).1
      {
        DrivenStep(old(channels), channels, pay.legs, i, LockVia(net));
        var leg := pay.legs[i];
        var (m, result) := LockLeg(channels[leg.channel], leg, net(leg.channel));
        channels := channels[leg.channel := m];
        results := results + [result];
      }
      return Ok(results);
    }

    method Settle(pay: Payment, secret: Term, net: Term -> Net) returns (results: LegResults)
      requires OwnChannels(pay.legs, channels)
      modifies this`channels
      ensures Driven(old(channels), channels, pay.legs, |pay.legs|,
                     SettleVia(secret, net))
      ensures |results| == |pay.legs|
      ensures forall i :: 0 <= i < |pay.legs| ==>
                results[i] == SettleLeg(old(channels)[pay.legs[i].channel], pay.legs[i], secret, net(pay.legs[i].channel)).1
    {
      hide SettleLeg, Driven;
      NotDriven(channels, pay.legs, SettleVia(secret, net));
      results := [];
      for i := 0 to |pay.legs|
        invariant Driven(old(channels), channels, pay.legs, i,
                         SettleVia(secret, net))
        invariant |results| == i
        invariant forall j :: 0 <= j < i ==>
          results[j] == SettleLeg(old(channels)[pay.legs[j].channel], pay.legs[j], secret, net(pay.legs[j].channel)).1
      {
        DrivenStep(old(channels), channels, pay.legs, i, SettleVia(secret, net));
        var leg := pay.legs[i];
        var (m, result) := SettleLeg(channels[leg.channel], leg, secret, net(leg.channel));
        channels := channels[leg.channel := m];
        results := results + [result];
      }
    }

    method Refund(pay: Payment, net: Term -> Net) returns (results: LegResults)
      requires OwnChannels(pay.legs, channels)
      modifies this`channels
      ensures Driven(old(channels), channels, pay.legs, |pay.legs|,
                     RefundVia(net))
      ensures |results| == |pay.legs|
      ensures forall i :: 0 <= i < |pay.legs| ==>
                results[i] == RefundLeg(old(channels)[pay.legs[i].channel], pay.legs[i], net(pay.legs[i].channel)).1
    {
      hide RefundLeg, Driven;
      NotDriven(channels, pay.legs, RefundVia(net));
      results := [];
      for i := 0 to |pay.legs|
        invariant Driven(old(channels), channels, pay.legs, i,
                         RefundVia(net))
        invariant |results| == i
        invariant forall j :: 0 <= j < i ==>
          results[j] == RefundLeg(old(channels)[pay.legs[j].channel], pay.legs[j], net(pay.legs[j].channel)).1
      {
        DrivenStep(old(channels), channels, pay.legs, i, RefundVia(net));
        var leg := pay.legs[i];
        var (m, result) := RefundLeg(channels[leg.channel], leg, net(leg.channel));
        channels := channels[leg.channel := m];
        results := results + [result];
      }
    }

    /** Re-drives the payment whose journal was found. Forward with the secret: every
        fragment that can be driven ends settled and the report says complete.
        Backward without it: a fragment's channel changes only by its own refund. */
    method Resume(id: Term, secret: Option<Term>, net: Term -> Net, disk: bool)
      returns (r: Result<Outcome, ExecError>)
      requires Found(journal, id).Kept? ==>
                 Found(journal, id).pay.id == id && OwnChannels(Found(journal, id).pay.legs, channels)
      modifies this
      ensures !Found(old(journal), id).Kept? ==>
                r == Err(NoJournal) && channels == old(channels) && journal == old(journal)
      ensures Found(journal, id) == Found(old(journal), id)
      ensures secret.None? ==> journal == old(journal)
      ensures Found(old(journal), id).Kept? && secret.Some? && dir && !disk ==>
                r == Err(JournalFailed) && channels == old(channels)
      ensures Found(old(journal), id).Kept? && secret.Some? && (!dir || disk) ==>
                && r.Ok?
                && Driven(old(channels), channels, Found(journal, id).pay.legs, |Found(journal, id).pay.legs|,
                          ResumeVia(secret.value, net))
      ensures Found(old(journal), id).Kept? && secret.None? ==>
                && r.Ok?
                && Driven(old(channels), channels, Found(journal, id).pay.legs, |Found(journal, id).pay.legs|,
                          RefundVia(net))
      ensures Found(old(journal), id).Kept? && r.Ok? ==>
                var legs := Found(journal, id).pay.legs;
                && OwnChannels(legs, channels)
                && r.value.settledAmount == ConfirmedAmount(legs, Records(channels, legs))
                && (r.value.settled == |legs| <==> AllLegs(channels, legs, (m, l: Leg) => StatusOf(PayerRecord(m), l).settled))
    {
      var content := Found(journal, id);
      if !content.Kept? {
        return Err(NoJournal);
      }
      hide LockLeg, SettleLeg, RefundLeg, StatusOf;
      var pay := content.pay;
      ghost var before := channels;
      if secret.Some? {
        var locked := Lock(pay, net, disk, |pay.legs|);
        if locked.Err? {
          return Err(locked.error);
        }
        ghost var mid := channels;
        var _ := Settle(pay, secret.value, net);
        DrivenTwice(before, mid, channels, pay.legs, secret.value, net);
      } else {
        var _ := Refund(pay, net);
      }
      var o := Summarise(pay.legs, Records(channels, pay.legs));
      return Ok(o);
    }
  }

  /** Every fragment is at a point that interrupted attempts can reach. */
  ghost predicate AllDrivable(channels: map<Term, Member>, legs: seq<Leg>, secret: Term)
    requires OwnChannels(legs, channels)
  {
    forall i :: 0 <= i < |legs| ==>
      GoodLeg(legs[i], secret) && legs[i].amount > 0 && Drivable(channels[legs[i].channel], legs[i], secret)
  }

  /** One resume over `net` is enough for a fragment. */
  ghost predicate Ready(m: Member, leg: Leg, net: Net) {
    SettledLeg(m, leg) || Finishable(m, leg, net)
  }

  ghost predicate AllReady(channels: map<Term, Member>, legs: seq<Leg>, net: Term -> Net)
    requires OwnChannels(legs, channels)
  {
    forall i :: 0 <= i < |legs| ==> Ready(channels[legs[i].channel], legs[i], net(legs[i].channel))
  }

  /** Driving every fragment with `ResumeLeg` from any point that interrupted attempts can
      reach confirms the whole amount exactly when every fragment is ready for it. */
  lemma ResumeConfirms(before: map<Term, Member>, after: map<Term, Member>, pay: Payment, secret: Term, net: Term -> Net)
    requires OwnChannels(pay.legs, before) && AllDrivable(before, pay.legs, secret)
    requires Driven(before, after, pay.legs, |pay.legs|, ResumeVia(secret, net))
    ensures AllDrivable(after, pay.legs, secret)
    ensures AllLegs(after, pay.legs, (m, l: Leg) => StatusOf(PayerRecord(m), l).settled) <==> AllReady(before, pay.legs, net)
    ensures AllReady(before, pay.legs, net) ==> ConfirmedAmount(pay.legs, Records(after, pay.legs)) == TotalAmount(pay.legs)
  {
    hide ResumeLeg, Drivable, GoodLeg, SettledLeg, Finishable, StatusOf;
    forall i | 0 <= i < |pay.legs|
      ensures var l, m := pay.legs[i], after[pay.legs[i].channel];
              && Drivable(m, l, secret)
              && (StatusOf(PayerRecord(m), l).settled <==> Ready(before[l.channel], l, net(l.channel)))
    {
      var l := pay.legs[i];
      ResumeSettles(before[l.channel], l, secret, net(l.channel), NoPeer);
      Disjoint(after[l.channel], l, secret);
    }
    if AllReady(before, pay.legs, net) {
      AllConfirmed(pay.legs, Records(after, pay.legs));
    }
  }

  /** Resuming a completed payment again, over any network, leaves every channel as it is. */
  lemma ResumeTwice(before: map<Term, Member>, after: map<Term, Member>, again: map<Term, Member>,
                    pay: Payment, secret: Term, net: Term -> Net, net2: Term -> Net)
    requires OwnChannels(pay.legs, before) && AllDrivable(before, pay.legs, secret) && AllReady(before, pay.legs, net)
    requires Driven(before, after, pay.legs, |pay.legs|, ResumeVia(secret, net))
    requires Driven(after, again, pay.legs, |pay.legs|, ResumeVia(secret, net2))
    ensures again == after
  {
    hide ResumeLeg, Drivable, GoodLeg, SettledLeg, Finishable;
    forall c | c in after ensures again[c] == after[c] {
      if exists i :: 0 <= i < |pay.legs| && pay.legs[i].channel == c {
        var i :| 0 <= i < |pay.legs| && pay.legs[i].channel == c;
        assert Ready(before[c], pay.legs[i], net(c));
        ResumeSettles(before[c], pay.legs[i], secret, net(c), net2(c));
      }
    }
  }

  /** A locked fragment of which no settlement was ever signed, or one that needs no refund. */
  ghost predicate Unwindable(m: Member, leg: Leg, secret: Term) {
    Holding(m, leg, secret) ==> PayerRecord(m).pending.None? && PayerRecord(m).signed == map[]
  }

  /** Resuming without the secret, after every expiry and with answering peers, refunds
      exactly the locked fragments of which no settlement was signed; every other fragment
      stays as it is. So no lock is left behind exactly when every fragment can be unwound. */
  lemma UnwindConfirms(before: map<Term, Member>, after: map<Term, Member>, pay: Payment, secret: Term, net: Term -> Net)
    requires OwnChannels(pay.legs, before) && AllDrivable(before, pay.legs, secret)
    requires forall i :: 0 <= i < |pay.legs| ==>
               Answers(net(pay.legs[i].channel)) && Expired(pay.legs[i], net(pay.legs[i].channel))
    requires Driven(before, after, pay.legs, |pay.legs|, RefundVia(net))
    ensures forall i :: 0 <= i < |pay.legs| ==>
              var l, m, m' := pay.legs[i], before[pay.legs[i].channel], after[pay.legs[i].channel];
              if Holding(m, l, secret) && Unwindable(m, l, secret) then StatusOf(PayerRecord(m'), l).refunded else m' == m
    ensures AllLegs(after, pay.legs, (m, l: Leg) => StatusOf(PayerRecord(m), l).locked ==> Terminal(StatusOf(PayerRecord(m), l)))
            <==> AllLegs(before, pay.legs, (m, l: Leg) => Unwindable(m, l, secret))
  {
    hide RefundLeg, Drivable, GoodLeg, Holding, StatusOf, Expired, Answers, Terminal, Unwindable;
    forall i | 0 <= i < |pay.legs|
      ensures var l, m, m' := pay.legs[i], before[pay.legs[i].channel], after[pay.legs[i].channel];
              && (if Holding(m, l, secret) && Unwindable(m, l, secret) then StatusOf(PayerRecord(m'), l).refunded else m' == m)
              && ((StatusOf(PayerRecord(m'), l).locked ==> Terminal(StatusOf(PayerRecord(m'), l))) <==> Unwindable(m, l, secret))
    {
      var l := pay.legs[i];
      UnwindOne(before[l.channel], l, secret, net(l.channel));
    }
  }

  lemma UnwindOne(m: Member, leg: Leg, secret: Term, net: Net)
    requires Drivable(m, leg, secret) && GoodLeg(leg, secret) && leg.amount > 0
    requires Answers(net) && Expired(leg, net)
    ensures var m' := RefundLeg(m, leg, net).0;
            && (if Holding(m, leg, secret) && Unwindable(m, leg, secret) then StatusOf(PayerRecord(m'), leg).refunded else m' == m)
            && ((StatusOf(PayerRecord(m'), leg).locked ==> Terminal(StatusOf(PayerRecord(m'), leg))) <==> Unwindable(m, leg, secret))
  {
    UnwoundStatus(m, leg, secret);
    UnwoundStatus(RefundLeg(m, leg, net).0, leg, secret);
    hide Locking, Holding, SettledLeg, GoodLeg, RefundLeg, StatusOf, Expired, Answers;
    if Holding(m, leg, secret) {
      UnwindHolding(m, leg, secret, net);
    } else {
      UnwindLeavesOthers(m, leg, net);
    }
  }

  lemma UnwoundStatus(m: Member, leg: Leg, secret: Term)
    ensures Holding(m, leg, secret) ==> StatusOf(PayerRecord(m), leg).locked && !Terminal(StatusOf(PayerRecord(m), leg))
    ensures Locking(m, leg) ==> !StatusOf(PayerRecord(m), leg).locked
    ensures SettledLeg(m, leg) ==> Terminal(StatusOf(PayerRecord(m), leg))
    ensures StatusOf(PayerRecord(m), leg).refunded ==> Terminal(StatusOf(PayerRecord(m), leg))
  {
    hide InExchange, SettleIntent, RefundIntent, Clean;
  }

  lemma {:induction false} AllConfirmed(legs: seq<Leg>, ns: seq<Node>)
    requires |legs| == |ns|
    requires forall i :: 0 <= i < |legs| ==> StatusOf(ns[i], legs[i]).settled
    ensures ConfirmedAmount(legs, ns) == TotalAmount(legs)
  {
    hide StatusOf;
    if legs != [] {
      var k := |legs| - 1;
      AllConfirmed(legs[..k], ns[..k]);
    }
  }

  lemma {:induction false} AmountsAddUp(legs: seq<Leg>, amounts: seq<int>)
    requires |legs| == |amounts| && forall i :: 0 <= i < |legs| ==> legs[i].amount == amounts[i]
    ensures TotalAmount(legs) == Sum(amounts)
  {
    if legs != [] {
      AmountsAddUp(legs[..|legs| - 1], amounts[..|legs| - 1]);
    }
  }

  /** What BuildPayment accepts is what the results on safety and on resuming ask for:
      fragments with their own channels, locks, secrets and intents, adding up to the total. */
  lemma BuiltPaymentIsGood(pay: Payment, secret: Term, channels: seq<Term>, amounts: seq<int>, expiries: seq<int>)
    requires GoodFragments(channels, amounts, expiries, pay.deadline) && Sum(amounts) == pay.total
    requires |pay.legs| == |channels|
    requires forall i :: 0 <= i < |channels| ==> pay.legs[i] == LegOf(pay.id, secret, i, channels[i], amounts[i], expiries[i])
    ensures TotalAmount(pay.legs) == pay.total
    ensures forall i :: 0 <= i < |pay.legs| ==>
              GoodLeg(pay.legs[i], secret) && OwnIntents(pay.legs[i]) && pay.legs[i].amount > 0 && pay.legs[i].expiry > 0
    ensures forall i, j :: 0 <= i < j < |pay.legs| ==> pay.legs[i].channel != pay.legs[j].channel
  {
    hide FragmentIntent, FragmentHash, SettleIntent, RefundIntent, LockIdOf;
    AmountsAddUp(pay.legs, amounts);
    forall i | 0 <= i < |pay.legs| ensures GoodLeg(pay.legs[i], secret) && OwnIntents(pay.legs[i]) {
      LegIntentsDistinct(pay.id, i, channels[i], amounts[i]);
    }
  }

  /** A process locks only the first `reach` fragments over a network that may lose
      anything, and is gone. `found` is what is then read under the payment's name: the
      journal, if only the process died, or any survivor of a power loss. Whoever resumes
      completes the payment exactly when the journal is what is found and every fragment
      is ready; when it is not found, nothing moves, and what was locked stays locked. */
  method CrashThenResume(ex: Executor, pay: Payment, secret: Term, first: Term -> Net, reach: nat,
                         found: Journal, second: Term -> Net)
    returns (r: Result<Outcome, ExecError>, ghost crashed: map<Term, Member>)
    requires OwnChannels(pay.legs, ex.channels) && reach <= |pay.legs|
    requires TotalAmount(pay.legs) == pay.total && AllDrivable(ex.channels, pay.legs, secret)
    requires Reopened(Journalled(ex.journal, ex.dir, pay), pay.id, found)
    requires OnlyThis(FileOf(ex.journal, pay.id), pay)
    modifies ex
    ensures Driven(old(ex.channels), crashed, pay.legs, reach, LockVia(first)) && AllDrivable(crashed, pay.legs, secret)
    ensures found[pay.id].visible.Kept? <==> r.Ok?
    ensures r.Ok? ==> (Complete(r.value, pay) <==> AllReady(crashed, pay.legs, second))
    ensures r.Err? ==> r == Err(NoJournal) && ex.channels == crashed
    ensures !ex.dir && pay.id !in old(ex.journal) ==> r == Err(NoJournal)
  {
    hide Driven, AllDrivable, AllReady, Reopened, OnlyThis, StatusOf, LockLeg, Journalled;
    FoundIsThis(ex.journal, ex.dir, pay, found);
    ghost var before := ex.channels;
    var locked := ex.Lock(pay, first, true, reach);
    crashed := ex.channels;
    LockedDrivable(before, crashed, pay.legs, secret, reach, first);
    ex.journal := found;
    r := ex.Resume(pay.id, Some(secret), second, true);
    if r.Ok? {
      ResumeConfirms(crashed, ex.channels, pay, secret, second);
    }
  }

  lemma FoundIsThis(j: Journal, dir: bool, pay: Payment, found: Journal)
    requires OnlyThis(FileOf(j, pay.id), pay) && Reopened(Journalled(j, dir, pay), pay.id, found)
    ensures pay.id in found && (found[pay.id].visible.Kept? ==> found[pay.id].visible.pay == pay)
    ensures !dir && pay.id !in j ==> found[pay.id].visible == Absent
  {
  }

  /** Attempts to lock leave every fragment at a point it can be driven from. */
  lemma LockedDrivable(before: map<Term, Member>, after: map<Term, Member>, legs: seq<Leg>, secret: Term, reach: nat,
                       net: Term -> Net)
    requires OwnChannels(legs, before) && AllDrivable(before, legs, secret) && reach <= |legs|
    requires Driven(before, after, legs, reach, LockVia(net))
    ensures OwnChannels(legs, after) && AllDrivable(after, legs, secret)
  {
    hide Drivable, GoodLeg, LockLeg;
    forall i | 0 <= i < |legs| ensures Drivable(after[legs[i].channel], legs[i], secret) {
      var l := legs[i];
      if i < reach {
        LockAttempt(before[l.channel], l, secret, net(l.channel));
      } else {
        assert forall j :: 0 <= j < reach ==> legs[j].channel != l.channel;
      }
    }
  }

  /** The journal of a first attempt is lost with the power. Its locks are in place, and
      resuming, with the secret or without it, finds nothing and resolves none of them. */
  method LockedAndForgotten(ex: Executor, pay: Payment, secret: Term, first: Term -> Net, lost: Journal,
                            withSecret: Option<Term>, second: Term -> Net)
    returns (r: Result<Outcome, ExecError>)
    requires OwnChannels(pay.legs, ex.channels) && FileOf(ex.journal, pay.id) == File(Absent, iset{Absent})
    requires forall i :: 0 <= i < |pay.legs| ==>
               var l, m := pay.legs[i], ex.channels[pay.legs[i].channel];
               GoodLeg(l, secret) && Locking(m, l) && CanPlace(m, l, first(l.channel))
    requires lost == ex.journal[pay.id := File(Absent, iset{Absent})]
    modifies ex
    ensures Reopened(Journalled(old(ex.journal), ex.dir, pay), pay.id, lost)
    ensures r == Err(NoJournal)
    ensures OwnChannels(pay.legs, ex.channels)
    ensures AllLegs(ex.channels, pay.legs,
                    (m, l: Leg) => StatusOf(PayerRecord(m), l).locked && !Terminal(StatusOf(PayerRecord(m), l))
                                   && l.lockId in PayerRecord(m).latest.pending)
  {
    hide GoodLeg, LockLeg, Locking, CanPlace, Holding;
    ghost var before := ex.channels;
    var locked := ex.Lock(pay, first, true, |pay.legs|);
    forall i | 0 <= i < |pay.legs|
      ensures var m, l := ex.channels[pay.legs[i].channel], pay.legs[i];
              && StatusOf(PayerRecord(m), l).locked && !Terminal(StatusOf(PayerRecord(m), l))
              && l.lockId in PayerRecord(m).latest.pending
    {
      var l := pay.legs[i];
      LockingMoves(before[l.channel], l, secret, first(l.channel));
      HoldingStatus(ex.channels[l.channel], l, secret);
    }
    ex.journal := lost;
    r := ex.Resume(pay.id, withSecret, second, true);
  }

  lemma HoldingStatus(m: Member, leg: Leg, secret: Term)
    requires Holding(m, leg, secret)
    ensures StatusOf(PayerRecord(m), leg).locked && !Terminal(StatusOf(PayerRecord(m), leg))
    ensures leg.lockId in PayerRecord(m).latest.pending
  {
    hide InExchange, SettleIntent, RefundIntent;
  }

  lemma LockAttempt(m: Member, leg: Leg, secret: Term, net: Net)
    requires Drivable(m, leg, secret) && GoodLeg(leg, secret)
    ensures Drivable(LockLeg(m, leg, net).0, leg, secret)
  {
    hide LockLeg, Drivable, GoodLeg;
    AttemptMoves(m, leg, secret, TryLock(net));
  }
}
