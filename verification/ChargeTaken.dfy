/**
 Both sides of the books: what the settled batches say was collected, and what the market
 contract took on a branch. `took` is the contract's side: the charges that it executed in a block.
 */
module ChargeTaken {
  import opened Prelude
  import opened Chain
  import opened ChargeTypes
  import opened ChargeSteps
  import opened ChargeLedger
  import opened ChargeCheckpoint
  import opened ChargeHonesty

  type Executed = Hash -> seq<ChargeEvent>

  /** All charges of a branch, oldest first. */
  function Charges(took: Executed, tip: Hash): seq<ChargeEvent> {
    (if tip.Child? then Charges(took, tip.parent) else []) + took(tip)
  }

  /** The contract executes a charge id at most once on a branch. */
  predicate OncePerBranch(events: seq<ChargeEvent>) {
    forall i, j :: 0 <= i < j < |events| ==> events[i].chargeId != events[j].chargeId
  }

  /** The node reports events where they happened. */
  predicate TrueEvents(log: seq<Step>, took: Executed) {
    forall k :: 0 <= k < |log| && log[k].Settle? ==> log[k].event in took(log[k].hash)
  }

  /** Settled by an event of the contract; neither given up nor without debt. */
  predicate Collected(b: Batch) {
    (b.status.Confirmed? || b.status.Partial?) && b.receiptHash.Some? && b.charged.Some?
  }

  predicate CollectedOn(b: Batch, tip: Hash) { Collected(b) && On(b.receiptHash.value, tip) }

  predicate Accounts(b: Batch, event: ChargeEvent) {
    b.charged.Some? && event.chargeId == b.chargeId && event.charged == b.charged.value
  }

  /** The event behind a settled batch is in the block that its receipt names. */
  predicate EventBehind(b: Batch, took: Executed) {
    Collected(b) ==> exists event :: event in took(b.receiptHash.value) && Accounts(b, event)
  }

  // ---- every settled batch has its event ------------------------------------------------------

  predicate SameCollection(a: Batch, b: Batch) {
    Collected(a) && a.chargeId == b.chargeId && a.charged == b.charged && a.receiptHash == b.receiptHash
  }

  /** A batch is collected after a step because it was before, or because the step settled it. */
  lemma CollectedBySettling(s: System, e: Step, tips: seq<Hash>, i: nat)
    requires LedgerInv(s) && Enabled(s, e, tips) && StepFits(s, e)
    requires i < |Next(s, e).batches| && Collected(Next(s, e).batches[i])
    ensures if e.Settle? && e.batch == i
            then Accounts(Next(s, e).batches[i], e.event) && Next(s, e).batches[i].receiptHash == Some(e.hash)
            else i < |s.batches| && SameCollection(s.batches[i], Next(s, e).batches[i])
  {
    hide AddGroups, SettleClicks, Mark, RefreshedRun, TakenOver, CanSave, CanReserve, CanWriteClick, CanSign,
         SeenInPass, WalletFree, LatestNonce, CanPublish, AfterMove, EvidenceOk, LedgerInv;
    if e.Reserve? {
      CollectedBeforeReserve(s, e, i);
      hide Next;
    }
  }

  lemma CollectedBeforeReserve(s: System, e: Step, i: nat)
    requires e.Reserve? && StepFits(s, e) && i < |Next(s, e).batches| && Collected(Next(s, e).batches[i])
    ensures i < |s.batches| && SameCollection(s.batches[i], Next(s, e).batches[i])
  {
    hide AddGroups;
    var m := s.(batches := TakeOver(s, e.run), runs := s.runs[e.run := StartedRun(s.runs[e.run], e.cutoff)]);
    AddGroupsSeen(m, e.run, e.groups, e.chargeIds);
  }

  lemma {:induction false} EventsAreBehind(confirmations: nat, log: seq<Step>, tips: seq<Hash>, took: Executed, i: nat)
    requires Legal(confirmations, log, tips) && TrueEvents(log, took)
    requires i < |After(confirmations, log).batches|
    ensures EventBehind(After(confirmations, log).batches[i], took)
  {
    hide Next, StepFits, Enabled, LedgerInv, Collected;
    if log != [] && Collected(After(confirmations, log).batches[i]) {
      var n := |log| - 1;
      var before, e := log[..n], log[n];
      var s := After(confirmations, before);
      LedgerAlwaysHolds(confirmations, before, tips);
      StepKeepsLedger(s, e, tips);
      CollectedBySettling(s, e, tips, i);
      assert TrueEvents(before, took) by {
        assert forall k :: 0 <= k < n ==> before[k] == log[k];
      }
      if !(e.Settle? && e.batch == i) {
        EventsAreBehind(confirmations, before, tips, took, i);
      }
    }
  }

  // ---- sums -------------------------------------------------------------------------------------

  /** What the tables say was collected by events of the branch. */
  function TotalCollected(batches: seq<Batch>, tip: Hash): nat {
    if batches == [] then 0
    else
      var b := batches[|batches| - 1];
      TotalCollected(batches[..|batches| - 1], tip) + if CollectedOn(b, tip) then b.charged.value else 0
  }

  function CollectedIds(batches: seq<Batch>, tip: Hash): set<nat> {
    set b | b in batches && CollectedOn(b, tip) :: b.chargeId
  }

  /** What the contract took for some charge ids. */
  function TotalTakenFor(events: seq<ChargeEvent>, ids: set<nat>): int {
    if events == [] then 0
    else
      var e := events[|events| - 1];
      TotalTakenFor(events[..|events| - 1], ids) + if e.chargeId in ids then e.charged else 0
  }

  lemma {:induction false} NothingTakenFor(events: seq<ChargeEvent>, ids: set<nat>)
    requires forall e :: e in events ==> e.chargeId !in ids
    ensures TotalTakenFor(events, ids) == 0
  {
    if events != [] {
      assert events[|events| - 1] in events;
      NothingTakenFor(events[..|events| - 1], ids);
    }
  }

  /** A charge id more adds what its one event took. */
  lemma {:induction false} OneIdMore(events: seq<ChargeEvent>, ids: set<nat>, event: ChargeEvent)
    requires OncePerBranch(events) && event in events && event.chargeId !in ids
    ensures TotalTakenFor(events, ids + {event.chargeId}) == TotalTakenFor(events, ids) + event.charged
  {
    var n := |events| - 1;
    var before := events[..n];
    if events[n] == event {
      assert forall e :: e in before ==> e.chargeId != event.chargeId;
      SameIds(before, ids, event.chargeId);
    } else {
      assert events == before + [events[n]];
      OneIdMore(before, ids, event);
    }
  }

  lemma {:induction false} SameIds(events: seq<ChargeEvent>, ids: set<nat>, id: nat)
    requires forall e :: e in events ==> e.chargeId != id
    ensures TotalTakenFor(events, ids + {id}) == TotalTakenFor(events, ids)
  {
    if events != [] {
      assert events[|events| - 1] in events;
      SameIds(events[..|events| - 1], ids, id);
    }
  }

  lemma {:induction false} OnBranch(took: Executed, b: Hash, tip: Hash, event: ChargeEvent)
    requires On(b, tip) && event in took(b)
    ensures event in Charges(took, tip)
  {
    if b != tip {
      OnBranch(took, b, tip.parent, event);
    }
  }

  lemma {:induction false} SumsAgree(batches: seq<Batch>, took: Executed, tip: Hash)
    requires forall b :: b in batches ==> EventBehind(b, took)
    requires forall i, j :: 0 <= i < j < |batches| ==> batches[i].chargeId != batches[j].chargeId
    requires OncePerBranch(Charges(took, tip))
    ensures TotalCollected(batches, tip) == TotalTakenFor(Charges(took, tip), CollectedIds(batches, tip))
  {
    hide Charges, On, OncePerBranch;
    if batches == [] {
      NothingTakenFor(Charges(took, tip), CollectedIds(batches, tip));
    } else {
      var n := |batches| - 1;
      var rest, b := batches[..n], batches[n];
      assert batches == rest + [b] && b in batches;
      SumsAgree(rest, took, tip);
      if CollectedOn(b, tip) {
        var event :| event in took(b.receiptHash.value) && Accounts(b, event);
        OnBranch(took, b.receiptHash.value, tip, event);
        OneIdMore(Charges(took, tip), CollectedIds(rest, tip), event);
        assert CollectedIds(batches, tip) == CollectedIds(rest, tip) + {b.chargeId};
      } else {
        assert CollectedIds(batches, tip) == CollectedIds(rest, tip);
      }
    }
  }

  /**
   After any run, with any crashes, retries and reorganizations behind it: what the batches
   with a receipt on a branch say was collected is, to the unit, what the contract took for them
   on that branch.
   */
  lemma CollectedIsTaken(confirmations: nat, log: seq<Step>, tips: seq<Hash>, took: Executed, tip: Hash)
    requires Legal(confirmations, log, tips) && TrueEvents(log, took) && OncePerBranch(Charges(took, tip))
    ensures var batches := After(confirmations, log).batches;
      TotalCollected(batches, tip) == TotalTakenFor(Charges(took, tip), CollectedIds(batches, tip))
  {
    LedgerAlwaysHolds(confirmations, log, tips);
    var s := After(confirmations, log);
    hide After, Legal, Charges, EventBehind;
    forall b | b in s.batches ensures EventBehind(b, took) {
      var i :| 0 <= i < |s.batches| && s.batches[i] == b;
      EventsAreBehind(confirmations, log, tips, took, i);
    }
    SumsAgree(s.batches, took, tip);
  }

  /** Without reorganizations every settled receipt is on the branch, so that holds for all collected batches. */
  lemma CollectedStays(confirmations: nat, log: seq<Step>, tips: seq<Hash>, i: nat)
    requires Legal(confirmations, log, tips) && OnlyGrows(tips)
    requires i < |After(confirmations, log).batches| && Collected(After(confirmations, log).batches[i])
    ensures |tips| > 0
    ensures CollectedOn(After(confirmations, log).batches[i], tips[|tips| - 1])
  {
    var s := After(confirmations, log);
    ClocksArePast(confirmations, log, tips);
    LedgerAlwaysHolds(confirmations, log, tips);
    GrowingRevivesNothing(tips);
    SeenAlwaysHolds(confirmations, log, tips);
    assert BatchOk(s.clicks, s.batches[i], i);
    assert Witnessed(s, tips, i, s.savedAt);
    GrowingKeeps(tips, s.batches[i].receiptHash.value, s.seen[i], |tips| - 1);
  }
}
