/**
 The charge worker itself: the tables it reassigns row by row and the code that decides which
 step happens next. `Valid()` says that everything done so far is a legal run of the protocol,
 so each theorem about runs holds at every point where the worker can crash.
 */
module ChargeWorkerJob {
  import opened Prelude
  import opened Chain
  import opened ChargeTypes
  import opened ChargeSteps
  import opened ChargeLedger
  import opened ChargeCheckpoint
  import opened ChargeWallet
  import opened ChargeHonesty
  import opened ChargeChainView
  import opened ChargeOutcome
  import Allocation
  import Grouping
  import ChargeReservation

  /** Everything the environment answers during one job, and the settings it reads. */
  datatype JobInput = JobInput(
    now: int,
    priced: bool,                       // whether pricing (module Pricing) did not throw
    head: Rpc<nat>,
    reconcile: nat -> Answers,          // by position in the scan
    operator: Option<Code>,             // why signing is not possible, if so
    signer: Address,
    automaticEnabled: bool,
    stillAutomatic: nat -> bool,        // the setting as read again before each batch
    intervalMinutes: nat,
    clickThreshold: nat,
    random: (nat, nat) -> nat,
    prepare: nat -> PrepareAnswers)     // by batch

  lemma NoReceiptUndecided(s: System, look: Lookup, tips: seq<Hash>)
    requires look.NotFound? && s.passStart <= look.at < |tips|
    ensures Undecided(s, look, tips)
  {
  }

  lemma UndecidedStays(s: System, t: System, look: Lookup, tips: seq<Hash>, more: seq<Hash>)
    requires Undecided(s, look, tips) && tips <= more
    requires t.passStart == s.passStart && t.head == s.head && t.confirmations == s.confirmations
    ensures Undecided(t, look, more)
  {
    UndecidedGrows(s, look, tips, more);
    if look.Found? && look.reverted && Final(t, look.number) {
      var other: Hash, at: nat :| SeenInPass(s, more, look.number, other, at) && other != look.hash;
      assert SeenInPass(t, more, look.number, other, at);
    }
  }

  /** What the receipt answer says, and when it was given. */
  function LookOf(receipt: Option<Receipt>, at: nat): Lookup {
    if receipt.None? then NotFound(at)
    else Found(receipt.value.number, receipt.value.hash, receipt.value.reverted, at)
  }

  class ChargeWorker {
    var clicks: map<ClickId, Click>
    var batches: seq<Batch>
    var runs: seq<Run>
    var publications: seq<Publication>
    ghost var held: Option<nat>
    var checkpoint: Option<Checkpoint>
    var head: nat
    const confirmations: nat
    const chain: ChargeChain

    ghost var passStart: nat
    ghost var reverted: map<nat, Evidence>
    ghost var seen: map<nat, nat>
    ghost var savedAt: nat
    ghost var log: seq<Step>
    /** How often bytes were submitted and how often a batch was given up. */
    ghost var sends: nat
    ghost var giveUps: nat

    ghost function State(): System
      reads this
    {
      System(clicks, batches, runs, publications, held, checkpoint, confirmations, head, passStart, reverted, seen,
        savedAt)
    }

    /** The same tables without the bookkeeping of the proof. */
    function Tables(): System
      reads this
    {
      System(clicks, batches, runs, publications, None, checkpoint, confirmations, head, 0, map[], map[], 0)
    }

    /** What the pass has read by now. */
    ghost function Reading(): View
      reads this, chain
    {
      View(chain.blockHashes, head, confirmations)
    }

    ghost predicate Valid()
      reads this, chain
    {
      && chain.Ok()
      && State() == After(confirmations, log)
      && Legal(confirmations, log, chain.tips) && Timely(log)
      && (forall i :: i in seen ==> seen[i] < |chain.tips|)
    }

    /** The latest time at which this job read something that its log rests on. */
    ghost function Clock(): nat
      reads this
    {
      ChargeClock(log)
    }

    /** A pass is under way: its client answers only with hashes read since the pass began. */
    ghost predicate InPass()
      reads this, chain
    {
      Valid() && passStart == chain.since
    }

    constructor (confirmations: nat, genesis: Hash)
      ensures Valid() && log == [] && fresh(chain)
    {
      this.confirmations := confirmations;
      clicks, batches, runs, publications, checkpoint, head := map[], [], [], [], None, 0;
      held := None;
      passStart, reverted, seen, savedAt, log, sends, giveUps := 0, map[], map[], 0, [], 0, 0;
      chain := new ChargeChain(genesis);
    }

    lemma Holds()
      requires Valid()
      ensures LedgerInv(State()) && SeenInv(State(), chain.tips)
    {
      LedgerAlwaysHolds(confirmations, log, chain.tips);
      SeenAlwaysHolds(confirmations, log, chain.tips);
    }

    lemma Row(i: nat)
      requires Valid() && i < |batches|
      ensures BatchOk(clicks, batches[i], i) && batches[i].runId < |runs|
    {
      Holds();
      assert BatchOk(State().clicks, State().batches[i], i);
    }

    /** An enabled step finds the rows that it names. */
    lemma Fits(e: Step)
      requires Valid() && Enabled(State(), e, chain.tips)
      ensures StepFits(State(), e)
    {
      Holds();
      StepKeepsLedger(State(), e, chain.tips);
    }

    /** Doing an enabled step, and nothing else, keeps the run legal. */
    twostate lemma Took(e: Step)
      requires old(Valid()) && unchanged(chain)
      requires Enabled(old(State()), e, chain.tips) && (IsTimed(e) ==> OnTime(old(log), e))
      requires StepFits(old(State()), e) && State() == Next(old(State()), e) && log == old(log) + [e]
      requires forall i :: i in seen ==> (i in old(seen) && seen[i] == old(seen)[i]) || seen[i] < |chain.tips|
      ensures Valid()
    {
      hide Legal, Timely, Next, Enabled, StepFits, OnTime;
      Extend(confirmations, old(log), e, chain.tips);
      TimelyOneMore(old(log), e);
    }

    lemma NowInPass()
      requires InPass()
      ensures passStart < |chain.tips| && Clock() < |chain.tips| && PubClock(log) < |chain.tips|
    {
      ClocksArePast(confirmations, log, chain.tips);
    }

    // ---- frames -------------------------------------------------------------------------

    /** Everything but the row, evidence and witness of batch `i` and the status of its clicks. */
    twostate predicate OnlyBatch(i: nat)
      reads this
    {
      old(log) <= log && |batches| == |old(batches)| && OnlyRow(old(State()), State(), i)
    }

    twostate predicate SamePass()
      reads this
    {
      && |runs| == |old(runs)| && (forall q :: 0 <= q < |runs| ==> runs[q].trigger == old(runs[q].trigger))
      && passStart == old(passStart) && savedAt == old(savedAt) && head == old(head)
      && checkpoint == old(checkpoint)
    }

    /** The evidence of clicks that have a batch never changes. */
    twostate predicate ProofsKept()
      reads this
    {
      KeptProofs(old(clicks), clicks)
    }

    /** Clicks that have a batch are written by this job alone. */
    twostate predicate BatchedKept()
      reads this
    {
      forall c :: c in old(clicks) && old(clicks)[c].batch.Some? ==> c in clicks && clicks[c] == old(clicks)[c]
    }

    // ---- the environment ------------------------------------------------------------------

    /**
     Other jobs run whenever the worker waits for an answer: clicks are captured and priced,
     and the price publisher works on its journal under the same wallet lock. The readings of
     this job are not theirs.
     */
    method OthersRun()
      requires Valid()
      modifies this`clicks, this`publications, this`held, this`log
      ensures Valid() && old(log) <= log && Clock() == old(Clock())
      ensures BatchedKept()
    {
    }

    /** One read of a canonical hash. */
    method Hash(n: nat) returns (hash: Rpc<Hash>, ghost at: nat)
      requires InPass()
      modifies this`clicks, this`publications, this`held, this`log, chain
      ensures InPass() && old(log) <= log && chain.MovedOn()
      ensures hash.Got? ==> SeenInPass(State(), chain.tips, n, hash.value, at)
      ensures if n in chain.blockHashes then hash == Got(chain.blockHashes[n]) else hash.Lost?
      ensures OthersWrote(old(State()), State()) && BatchedKept() && Clock() == old(Clock())
    {
      OthersRun();
      ghost var tips := chain.tips;
      hash, at := chain.BlockHash(n);
      LegalGrows(confirmations, log, tips, chain.tips);
    }

    // ---- transactions on one batch -----------------------------------------------------------

    method Update(i: nat, ghost e: Step, row: Batch)
      requires Valid() && RowStep(e) && e.batch == i && i < |batches|
      requires Enabled(State(), e, chain.tips) && (IsTimed(e) ==> OnTime(log, e)) && row == RowAfter(batches[i], e)
      modifies this`batches, this`reverted, this`log
      ensures Valid() && log == old(log) + [e] && batches == old(batches)[i := row]
      ensures reverted == Next(old(State()), e).reverted
    {
      Fits(e);
      ghost var after := Next(State(), e);
      batches := batches[i := row];
      reverted := after.reverted;
      log := log + [e];
      Took(e);
    }

    method Await(i: nat, code: Code, ghost look: Lookup)
      requires Valid() && i < |batches| && Live(batches[i]) && Undecided(State(), look, chain.tips)
      requires look.at >= Clock()
      modifies this`batches, this`reverted, this`log
      ensures Valid() && OnlyBatch(i)
      ensures batches[i] == old(batches[i]).(status := Reconciling, error := Some(code))
      ensures reverted == Forget(old(reverted), i)
    {
      Update(i, Step.Await(i, code, look), batches[i].(status := Reconciling, error := Some(code)));
    }

    method Rollback(i: nat, ghost at: nat)
      requires Valid() && i < |batches| && Enabled(State(), Step.Rollback(i, at), chain.tips)
      modifies this`batches, this`clicks, this`runs, this`log
      ensures Valid() && OnlyBatch(i) && log == old(log) + [Step.Rollback(i, at)]
      ensures batches[i] == Reopened(old(batches[i]))
      ensures MarkedAs(old(clicks), clicks, old(batches[i]).members, ClickStatus.Reserved, Some(ReorgDetected))
      ensures old(batches[i]).runId < |old(runs)|
      ensures var q := old(batches[i]).runId;
        runs == old(runs)[q := old(runs)[q].(status := Running, finishedAt := None, error := Some(ReorgDetected))]
    {
      hide Legal, After, Timely, ChargeClock, LedgerInv, SeenInv, Mark, CanonicalAt, AmountsOk, BooksOk, BytesOk,
           Enabled, NoRevival, MarkedAs, EvidenceOk, CanPublish, CanSave;
      ghost var e := Step.Rollback(i, at);
      Row(i);
      Fits(e);
      var b := batches[i];
      MarkKeepsProofs(clicks, b.members, ClickStatus.Reserved, Some(ReorgDetected));
      MarkMarks(clicks, b.members, ClickStatus.Reserved, Some(ReorgDetected));
      batches := batches[i := b.(status := if b.tx.Some? then Reconciling else Prepared,
                                 charged := None, shortfall := None,
                                 receiptNumber := None, receiptHash := None, error := Some(ReorgDetected))];
      clicks := Mark(clicks, b.members, ClickStatus.Reserved, Some(ReorgDetected));
      runs := runs[b.runId := runs[b.runId].(status := Running, finishedAt := None, error := Some(ReorgDetected))];
      log := log + [e];
      Took(e);
    }

    /** Splits the clicks oldest first and marks both parts. */
    method MarkSettled(rows: map<ClickId, Click>, ids: seq<ClickId>, charged: nat) returns (marked: map<ClickId, Click>)
      requires Known(rows, ids) && forall j, k :: 0 <= j < k < |ids| ==> ids[j] != ids[k]
      ensures marked == SettleClicks(rows, ids, charged)
    {
      hide SettleClicks, Mark;
      var settled, unpaid := Allocation.Allocate(ids, Amounts(rows, ids), charged);
      SplitIsSettlement(rows, ids, charged, settled, unpaid);
      marked := Mark(rows, settled, ClickStatus.Settled, None);
      marked := Mark(marked, unpaid, ClickStatus.Uncollectable, Some(InsufficientStake));
    }

    /** The settlement transaction: the batch row, then its clicks oldest first. */
    method RecordSettlement(i: nat, event: ChargeEvent, number: nat, hash: Hash, ghost at: nat)
      requires InPass() && i < |batches| && at < |chain.tips|
      requires Enabled(State(), Settle(i, event, number, hash, at), chain.tips)
      modifies this`batches, this`clicks, this`seen, this`reverted, this`log
      ensures InPass() && log == old(log) + [Settle(i, event, number, hash, at)]
      ensures StepFits(old(State()), Settle(i, event, number, hash, at))
      ensures State() == Apply(old(State()), Settle(i, event, number, hash, at))
      ensures State() == SettledState(old(State()), i, event, number, hash, at) && ProofsKept()
      ensures PaidFor(old(clicks), clicks, old(batches[i]).members, event.charged)
    {
      hide Enabled, LedgerInv, Legal, After, Next, StepFits, SettleClicks, Mark, CanonicalAt, NoRevival, On, Height,
           EvidenceSeen, EvidenceOk, AmountsOk, BooksOk, BytesOk, Before, WalletFree, LatestNonce, CanPublish,
           CanWriteClick, CanReserve, Timely, ChargeClock, SameProofs;
      ghost var e := Settle(i, event, number, hash, at);
      Row(i);
      Fits(e);
      NextSettles(State(), i, event, number, hash, at);
      var b := batches[i];
      DistinctMembers(clicks, b.members);
      SettleKeepsProofs(clicks, b.members, event.charged);
      SettleClicksPays(clicks, b.members, event.charged);
      batches := batches[i := SettledBatch(b, event, number, hash)];
      clicks := MarkSettled(clicks, b.members, event.charged);
      seen, reverted := seen[i := at], Forget(reverted, i);
      log := log + [e];
      assert State() == SettledState(old(State()), i, event, number, hash, at);
      Took(e);
    }

    /** Checks the acknowledgement, then settles the batch. */
    method SettleChargeReceipt(i: nat, event: ChargeEvent, number: nat, hash: Hash, ghost at: nat) returns (ok: bool)
      requires InPass() && i < |batches| && Live(batches[i])
      requires SeenInPass(State(), chain.tips, number, hash, at) && Final(State(), number)
      modifies this`batches, this`clicks, this`seen, this`reverted, this`log
      ensures InPass() && OnlyBatch(i)
      ensures ok <==> Matches(old(batches[i]), event)
      ensures !ok ==> batches == old(batches) && seen == old(seen) && reverted == old(reverted) && log == old(log)
      ensures ok ==> SettledBy(old(batches[i]), batches[i], event, number, hash) && i in seen && passStart <= seen[i]
      ensures ok ==> PaidFor(old(clicks), clicks, old(batches[i]).members, event.charged)
      ensures ok ==> Terminal(batches[i].status) && batches[i].tx == old(batches[i].tx)
      ensures ok ==> log == old(log) + [Settle(i, event, number, hash, at)]
    {
      hide Legal, After, Timely, ChargeClock, LedgerInv, SeenInv, SettleClicks, NoRevival, Mark, AddGroups,
           RefreshedRun, TakeOver, Valid, Apply, PaidFor, Next, BooksOk, AmountsOk;
      var b := batches[i];
      if !(event.keywordId == b.key.keywordId && event.staker == b.key.staker && event.chargeId == b.chargeId
           && event.requested == b.requested && 0 <= event.charged <= b.requested) {
        return false;
      }
      Row(i);
      RecordSettlement(i, event, number, hash, at);
      SettledBatchIsSettled(b, event, number, hash);
      return true;
    }

    /** The transaction that gives a batch up: its row and all its clicks. */
    method RecordGiveUp(i: nat, code: Code, number: nat, hash: Hash, ghost at: nat)
      requires InPass() && i < |batches| && at < |chain.tips|
      requires Enabled(State(), GiveUp(i, code, number, hash, at), chain.tips)
      modifies this`batches, this`clicks, this`seen, this`reverted, this`log, this`giveUps
      ensures InPass() && log == old(log) + [GiveUp(i, code, number, hash, at)] && giveUps == old(giveUps) + 1
      ensures State() == GivenUpState(old(State()), i, code, number, hash, at) && ProofsKept()
      ensures MarkedAs(old(clicks), clicks, old(batches[i]).members, ClickStatus.Uncollectable, Some(code))
    {
      hide Legal, After, Timely, ChargeClock, LedgerInv, SeenInv, Mark, Next, StepFits, Enabled, Valid, AmountsOk,
           BooksOk, BytesOk;
      ghost var e := GiveUp(i, code, number, hash, at);
      Row(i);
      Fits(e);
      NextGivesUp(State(), i, code, number, hash, at);
      var b := batches[i];
      batches := batches[i := GivenUpBatch(b, code, number, hash)];
      MarkKeepsProofs(clicks, b.members, ClickStatus.Uncollectable, Some(code));
      MarkMarks(clicks, b.members, ClickStatus.Uncollectable, Some(code));
      clicks := Mark(clicks, b.members, ClickStatus.Uncollectable, Some(code));
      seen, reverted := seen[i := at], Forget(reverted, i);
      log, giveUps := log + [e], giveUps + 1;
      assert State() == GivenUpState(old(State()), i, code, number, hash, at);
      Took(e);
    }

    method Uncollectable(i: nat, code: Code, number: nat, hash: Hash, ghost at: nat)
      requires InPass() && i < |batches| && (batches[i].status.Prepared? || batches[i].status.Failed?)
      requires SeenInPass(State(), chain.tips, number, hash, at)
      modifies this`batches, this`clicks, this`seen, this`reverted, this`log, this`giveUps
      ensures InPass() && OnlyBatch(i)
      ensures i in seen && passStart <= seen[i]
      ensures var b := old(batches[i]);
        batches[i] == b.(status := GivenUp, charged := Some(0), shortfall := Some(b.due),
                         receiptNumber := Some(number), receiptHash := Some(hash), error := Some(code))
    {
      hide Legal, After, Timely, ChargeClock, LedgerInv, SeenInv, Mark, Next, StepFits, Enabled, Valid;
      MayGiveUp(State(), i, code, number, hash, at, chain.tips);
      RecordGiveUp(i, code, number, hash, at);
    }

    // ---- reconciliation ----------------------------------------------------------------------

    /** The effect of any part of the reconciliation of batch `i`. */
    twostate predicate Reconciled(i: nat, r: Outcome)
      reads this
    {
      && OnlyBatch(i) && i < |batches| && batches[i].tx == old(batches[i].tx)
      && (r.Idle? ==> !InFlight(batches[i].status))
      && (r.Waiting? ==> InFlight(batches[i].status))
      && (!r.Threw? ==> HandledIn(State(), i))
      && (batches[i].status.Failed? ==> i in reverted || (i < |old(batches)| && old(batches[i].status).Failed?))
    }

    /** The receipt of a settled batch is still canonical: remembered, nothing written. */
    ghost method Observe(i: nat, at: nat)
      requires InPass() && i < |batches| && Enabled(State(), Confirm(i, at), chain.tips) && at < |chain.tips|
      modifies this`seen, this`log
      ensures InPass() && OnlyBatch(i) && seen == old(seen)[i := at] && log == old(log) + [Confirm(i, at)]
    {
      Fits(Confirm(i, at));
      seen := seen[i := at];
      log := log + [Confirm(i, at)];
      Took(Confirm(i, at));
    }

    method CheckSettled(i: nat) returns (canonical: bool, error: Option<Code>)
      requires InPass() && i < |batches| && HasReceipt(batches[i])
      requires i in seen && seen[i] <= passStart
      modifies this`batches, this`clicks, this`runs, this`publications, this`held, this`seen, this`log, chain
      ensures InPass() && OnlyBatch(i) && chain.MovedOn()
      ensures var n, known := old(batches[i]).receiptNumber.value, chain.blockHashes;
        && (error.Some? ==> n !in known && error == Some(RpcUnavailable) && batches[i] == old(batches[i]))
        && (error.None? ==> n in known && (canonical <==> known[n] == old(batches[i]).receiptHash.value))
      ensures error.None? ==> batches[i] == if canonical then old(batches[i]) else Reopened(old(batches[i]))
      ensures canonical ==> error.None? && i in seen && passStart <= seen[i]
    {
      hide Legal, After, Timely, ChargeClock, LedgerInv, CanSave, CanReserve, CanSign, Matches, Valid, OnlyRow,
           OthersWrote;
      canonical, error := false, None;
      ghost var number := batches[i].receiptNumber.value;
      var stored := batches[i].receiptHash.value;
      Holds();
      assert Witnessed(State(), chain.tips, i, savedAt);
      var hash, at := Hash(batches[i].receiptNumber.value);
      ghost var mid := State();
      OthersWroteNoRow(old(State()), mid, i);
      if hash.Lost? {
        error := Some(RpcUnavailable);
      } else if hash.value == stored {
        Observe(i, at);
        OnlyRowAgain(old(State()), mid, State(), i);
        canonical := true;
      } else {
        OtherHashIsOrphaned(hash.value, stored, chain.tips, at);
        Rollback(i, at);
        OnlyRowAgain(old(State()), mid, State(), i);
      }
    }

    /** The evidence of every click of the batch is final and canonical, or the reason why not. */
    method AssertBatchCapture(i: nat) returns (error: Option<Code>)
      requires InPass() && i < |batches|
      modifies this`clicks, this`publications, this`held, this`log, chain
      ensures InPass() && OnlyBatch(i) && chain.MovedOn()
      ensures Clock() == old(Clock()) && BatchedKept()
      ensures error.None? ==> EvidenceOk(State(), i, chain.tips)
      ensures var unproved := Unproved(Reading(), old(clicks), batches[i].members);
        if error.None? then unproved == {} else error.value in unproved
    {
      hide Legal, After, Timely, ChargeClock, Enabled, LedgerInv, SeenInv, Valid, EvidenceSeen, Next, StepFits,
           CanonicalAt, AmountsOk, BooksOk, BytesOk, OthersWrote, OnlyRow, CaptureError, On, Height, ProofSeen;
      Row(i);
      NothingWritten(State());
      var rows, members := clicks, batches[i].members;
      ghost var finalized := FinalBlock(Tables());
      var n := 0;
      while n < |members|
        invariant n <= |members| && InPass() && OthersWrote(old(State()), State()) && old(log) <= log
        invariant Clock() == old(Clock())
        invariant chain.MovedOn()
        invariant forall k :: 0 <= k < n ==> EvidenceSeen(chain.tips, passStart, finalized, rows[members[k]])
        invariant forall k :: 0 <= k < n ==> CaptureError(Reading(), rows[members[k]]).None?
      {
        assert members[n] in members;
        ghost var tips, before, mid := chain.tips, Reading(), State();
        error := CheckClick(rows[members[n]]);
        OthersWroteAgain(old(State()), mid, State());
        if error.Some? {
          OthersWroteNoRow(old(State()), State(), i);
          return;
        }
        forall k | 0 <= k < n ensures CaptureError(Reading(), rows[members[k]]).None? {
          StaysProved(before, Reading(), rows[members[k]]);
        }
        forall k | 0 <= k < n ensures EvidenceSeen(chain.tips, passStart, finalized, rows[members[k]]) {
          EvidenceGrows(tips, chain.tips, passStart, finalized, rows[members[k]]);
        }
        n := n + 1;
      }
      OthersWroteNoRow(old(State()), State(), i);
      return None;
    }

    /** The bid proof of a click, and its price proof if it has one. */
    method CheckClick(click: Click) returns (error: Option<Code>)
      requires InPass()
      modifies this`clicks, this`publications, this`held, this`log, chain
      ensures InPass() && old(log) <= log && chain.MovedOn() &&
        BatchedKept() && Clock() == old(Clock())
      ensures error.None? ==> EvidenceSeen(chain.tips, passStart, FinalBlock(Tables()), click)
      ensures error == CaptureError(Reading(), click) && OthersWrote(old(State()), State())
    {
      hide Legal, After, Timely, ChargeClock, Enabled, LedgerInv, SeenInv, Valid, CanonicalAt, Next, StepFits,
           ProofSeen;
      NothingWritten(State());
      var finalized := FinalBlock(Tables());
      if click.bidNumber.None? || click.bidHash.None? {
        return Some(CaptureFailed);
      }
      error := CheckProof(click.bidNumber.value, click.bidHash.value, finalized);
      if error.Some? {
        return;
      }
      if click.priceNumber.Some? {
        if click.priceHash.None? {
          return Some(CaptureFailed);
        }
        ghost var between, mid := chain.tips, State();
        error := CheckProof(click.priceNumber.value, click.priceHash.value, finalized);
        OthersWroteAgain(old(State()), mid, State());
        if error.Some? {
          return;
        }
        ProofGrows(between, chain.tips, passStart, finalized, click.bidNumber, click.bidHash);
      }
      return None;
    }

    method CheckProof(number: nat, hash: Hash, finalized: nat) returns (error: Option<Code>)
      requires InPass() && finalized == FinalBlock(Tables())
      modifies this`clicks, this`publications, this`held, this`log, chain
      ensures InPass() && old(log) <= log && chain.MovedOn() &&
        BatchedKept() && Clock() == old(Clock())
      ensures error.None? ==> ProofSeen(chain.tips, passStart, finalized, Some(number), Some(hash))
      ensures error == ProofError(Reading(), number, hash) && OthersWrote(old(State()), State())
    {
      hide Legal, After, Timely, ChargeClock;
      if number > finalized {
        return Some(WaitingConfirmation);
      }
      var read, at := Hash(number);
      if read.Lost? {
        return Some(RpcUnavailable);
      }
      return if read.value == hash then None else Some(CaptureProofOrphaned);
    }

    method SettleIndexedCharge(i: nat, indexed: Option<IndexedCharge>) returns (settled: bool, error: Option<Code>)
      requires InPass() && i < |batches| && Live(batches[i])
      modifies this`batches, this`clicks, this`publications, this`held, this`seen, this`reverted, this`log, chain
      ensures InPass() && OnlyBatch(i) && chain.MovedOn()
      ensures settled ==> error.None? && Terminal(batches[i].status) && i in seen && passStart <= seen[i]
      ensures batches[i].tx == old(batches[i].tx)
      ensures settled <==>
        && indexed.Some? && Stands(Reading(), indexed.value.number, indexed.value.hash)
        && indexed.value.payload.Some? && Matches(old(batches[i]), indexed.value.payload.value)
      ensures settled ==>
        SettledBy(old(batches[i]), batches[i], indexed.value.payload.value, indexed.value.number, indexed.value.hash)
      ensures error.Some? ==> indexed.Some? && IsFinal(Reading(), indexed.value.number)
      ensures error == Some(RpcUnavailable) <==>
        indexed.Some? && IsFinal(Reading(), indexed.value.number) && indexed.value.number !in chain.blockHashes
      ensures error.Some? && error != Some(RpcUnavailable) ==> error == Some(TransactionUnknown)
      ensures error == Some(TransactionUnknown) <==>
        && indexed.Some? && Stands(Reading(), indexed.value.number, indexed.value.hash)
        && !(indexed.value.payload.Some? && Matches(old(batches[i]), indexed.value.payload.value))
      ensures !settled ==> batches == old(batches) && reverted == old(reverted) && Clock() == old(Clock())
    {
      hide Legal, After, Timely, ChargeClock, LedgerInv, SeenInv, Valid, OnlyRow, OthersWrote, SettledBy, Matches;
      settled, error := false, None;
      SameRows(State(), i);
      if indexed.None? || head < indexed.value.number + confirmations {
        return;
      }
      var row := indexed.value;
      var hash, at := Hash(row.number);
      ghost var mid := State();
      OthersWroteNoRow(old(State()), mid, i);
      if hash.Lost? {
        error := Some(RpcUnavailable);
      } else if hash.value == row.hash {
        if row.payload.None? {
          error := Some(TransactionUnknown);
        } else {
          settled := SettleChargeReceipt(i, row.payload.value, row.number, row.hash, at);
          OnlyRowAgain(old(State()), mid, State(), i);
          error := if settled then None else Some(TransactionUnknown);
        }
      }
    }

    method FindSettlement(i: nat, indexed: Option<IndexedCharge>, ghost look: Lookup) returns (r: Outcome)
      requires InPass() && i < |batches| && Live(batches[i]) && Undecided(State(), look, chain.tips)
      requires look.at >= Clock()
      modifies this`batches, this`clicks, this`publications, this`held, this`seen, this`reverted, this`log, chain
      ensures InPass() && Reconciled(i, r) && chain.MovedOn()
      ensures ByIndex(Reading(), old(batches[i]), batches[i], r, indexed)
    {
      hide Legal, After, Timely, ChargeClock, Enabled, LedgerInv, SeenInv, Undecided, Unproved, SettledBy, Fails,
           ByReceipt, Resends, ByBytes, ReconcilesSigned, Reconciles, Sends, CaptureError, GivesUp, Prepares,
           PreparesChargeable, Signs, ByIndex, Stands, Valid, OnlyRow, Matches;
      ghost var before, tips := State(), chain.tips;
      var settled, error := SettleIndexedCharge(i, indexed);
      if error.Some? {
        IndexDecides(Reading(), old(batches[i]), batches[i], Threw(error.value), indexed, settled, error);
        return Threw(error.value);
      }
      if settled {
        IndexDecides(Reading(), old(batches[i]), batches[i], Idle, indexed, settled, error);
        return Idle;
      }
      UndecidedStays(before, State(), look, tips, chain.tips);
      ghost var mid := State();
      Await(i, TransactionUnknown, look);
      OnlyRowAgain(old(State()), mid, State(), i);
      IndexDecides(Reading(), old(batches[i]), batches[i], Outcome.Waiting, indexed, settled, error);
      return Outcome.Waiting;
    }

    ghost method LogStillFailed(i: nat, number: nat, hash: Hash, at: nat)
      requires InPass() && i < |batches| && Enabled(State(), StillFailed(i, number, hash, at), chain.tips)
      modifies this`reverted, this`log
      ensures InPass() && log == old(log) + [StillFailed(i, number, hash, at)]
      ensures batches[i].tx.Some? && reverted == old(reverted)[i := Evidence(batches[i].tx.value, number, hash, at)]
    {
      hide Legal, After, Timely, ChargeClock, LedgerInv, SeenInv, Valid;
      ghost var e := StillFailed(i, number, hash, at);
      Fits(e);
      reverted := reverted[i := Evidence(batches[i].tx.value, number, hash, at)];
      log := log + [e];
      Took(e);
    }

    method MarkFailed(i: nat, receipt: Receipt, now: int, ghost at: nat)
      requires InPass() && i < |batches| && Live(batches[i]) && at < |chain.tips|
      requires SeenInPass(State(), chain.tips, receipt.number, receipt.hash, at) && Final(State(), receipt.number)
      modifies this`batches, this`reverted, this`log
      ensures InPass() && OnlyBatch(i) && i in reverted
      ensures batches[i] == old(batches[i]).(status := Failed, receiptNumber := Some(receipt.number),
        receiptHash := Some(receipt.hash), error := Some(TransactionFailed), nextAttemptAt := Some(now + 60000))
    {
      hide Legal, After, Timely, ChargeClock, LedgerInv, SeenInv, Mark, AddGroups, SettleClicks, RefreshedRun,
           TakeOver, CanSave, CanReserve, CanSign, Matches, Valid, OnTime;
      Update(i, Fail(i, receipt.number, receipt.hash, at, now),
             batches[i].(status := Failed, receiptNumber := Some(receipt.number), receiptHash := Some(receipt.hash),
                         error := Some(TransactionFailed), nextAttemptAt := Some(now + 60000)));
    }

    /** The saved bytes were mined and reverted in a final canonical block. */
    method RecordRevert(i: nat, row: Batch, receipt: Receipt, now: int, ghost at: nat)
      requires InPass() && i < |batches| && Live(batches[i]) && at < |chain.tips|
      requires row.status.Failed? ==> batches[i] == row
      requires SeenInPass(State(), chain.tips, receipt.number, receipt.hash, at) && Final(State(), receipt.number)
      modifies this`batches, this`reverted, this`log
      ensures InPass() && Reconciled(i, Idle)
      ensures Fails(old(batches[i]), row, batches[i], Idle, receipt, now)
    {
      hide Legal, After, Timely, ChargeClock, LedgerInv, SeenInv, Mark, AddGroups, SettleClicks, RefreshedRun,
           TakeOver, CanSave, CanReserve, CanSign, Matches, Valid, OnTime, SeenInPass;
      if row.status.Failed? && row.receiptHash == Some(receipt.hash) {
        LogStillFailed(i, receipt.number, receipt.hash, at);
      } else {
        MarkFailed(i, receipt, now, at);
      }
    }

    /** A final canonical receipt: reverted, acknowledged by its event, or by the index. */
    method Acknowledge(i: nat, row: Batch, receipt: Receipt, indexed: Option<IndexedCharge>, now: int, ghost at: nat,
                       ghost look: Lookup)
      returns (r: Outcome)
      requires InPass() && i < |batches| && Live(batches[i]) && at < |chain.tips|
      requires row.status.Failed? ==> batches[i] == row
      requires SeenInPass(State(), chain.tips, receipt.number, receipt.hash, at) && Final(State(), receipt.number)
      requires Stands(Reading(), receipt.number, receipt.hash)
      requires look == Found(receipt.number, receipt.hash, receipt.reverted, look.at) &&
        passStart <= look.at < |chain.tips| && look.at >= Clock()
      modifies this`batches, this`clicks, this`publications, this`held, this`seen, this`reverted, this`log, chain
      ensures InPass() && Reconciled(i, r) && chain.MovedOn()
      ensures ByReceipt(Reading(), old(batches[i]), row, batches[i], r, receipt, indexed, now)
    {
      hide Legal, After, Timely, ChargeClock, Enabled, LedgerInv, Unproved, SettledBy, Fails, ByIndex, Resends,
           ByBytes, ReconcilesSigned, Reconciles, Sends, CaptureError, GivesUp, Prepares, PreparesChargeable, Signs,
           OnlyRow;
      if receipt.reverted {
        RecordRevert(i, row, receipt, now, at);
        r := Idle;
      } else if receipt.event.None? {
        r := FindSettlement(i, indexed, look);
      } else {
        var ok := SettleChargeReceipt(i, receipt.event.value, receipt.number, receipt.hash, at);
        r := if ok then Idle else Threw(TransactionUnknown);
      }
    }

    method AwaitReceipt(i: nat, code: Code, ghost look: Lookup) returns (r: Outcome)
      requires InPass() && i < |batches| && Live(batches[i]) && Undecided(State(), look, chain.tips)
      requires look.at >= Clock()
      modifies this`batches, this`reverted, this`log
      ensures InPass() && Reconciled(i, Outcome.Waiting) && Waits(old(batches[i]), batches[i], r, code)
    {
      Await(i, code, look);
      return Outcome.Waiting;
    }

    method ReceiptFound(i: nat, row: Batch, receipt: Receipt, indexed: Option<IndexedCharge>, now: int,
                        ghost look: Lookup) returns (r: Outcome)
      requires InPass() && i < |batches| && Live(batches[i])
      requires look == Found(receipt.number, receipt.hash, receipt.reverted, look.at) &&
        passStart <= look.at < |chain.tips| && look.at >= Clock()
      requires row.status.Failed? ==> batches[i] == row
      modifies this`batches, this`clicks, this`publications, this`held, this`seen, this`reverted, this`log, chain
      ensures InPass() && Reconciled(i, r) && chain.MovedOn()
      ensures ByReceipt(Reading(), old(batches[i]), row, batches[i], r, receipt, indexed, now)
    {
      hide Legal, After, Timely, ChargeClock, Enabled, LedgerInv, Unproved, SettledBy, Fails, ByIndex, Resends,
           ByBytes, ReconcilesSigned, Reconciles, Sends, CaptureError, GivesUp, Prepares, PreparesChargeable, Signs,
           OnlyRow, OthersWrote, SeenInv, Valid;
      SameRows(State(), i);
      if head < receipt.number + confirmations {
        r := AwaitReceipt(i, WaitingConfirmation, look);
        return;
      }
      var hash, at := Hash(receipt.number);
      ghost var mid := State();
      OthersWroteNoRow(old(State()), mid, i);
      if hash.Lost? {
        return Threw(RpcUnavailable);
      }
      if hash.value != receipt.hash {
        r := AwaitReceipt(i, WaitingConfirmation, look);
      } else {
        r := Acknowledge(i, row, receipt, indexed, now, at, look);
      }
      OnlyRowAgain(old(State()), mid, State(), i);
    }

    method MarkSubmitted(i: nat, ghost look: Lookup)
      requires InPass() && i < |batches| && Live(batches[i]) && look.NotFound? && Undecided(State(), look, chain.tips)
      requires look.at >= Clock()
      modifies this`batches, this`reverted, this`log
      ensures InPass() && Reconciled(i, Outcome.Waiting)
      ensures batches[i] == old(batches[i]).(status := Submitted, error := Some(WaitingConfirmation))
      ensures log == old(log) + [Submit(i, look)]
    {
      Update(i, Submit(i, look), batches[i].(status := Submitted, error := Some(WaitingConfirmation)));
    }

    /** Submits the saved bytes, and only those. */
    method SendBytes(i: nat, sent: Sent, ghost look: Lookup) returns (r: Outcome)
      requires look.NotFound? && passStart <= look.at < |chain.tips| && look.at >= Clock()
      requires InPass() && i < |batches| && Live(batches[i]) && EvidenceOk(State(), i, chain.tips)
      modifies this`batches, this`reverted, this`log, this`sends
      ensures InPass() && Reconciled(i, r) && sends == old(sends) + 1
      ensures Sends(old(batches[i]), batches[i], r, sent)
      ensures |old(log)| < |log| && log[|old(log)|] == Send(i)
    {
      hide Legal, After, Timely, ChargeClock, LedgerInv, Enabled, Valid, EvidenceOk, Unproved, SettledBy, Fails,
           ByIndex, ByReceipt, Resends, ByBytes, ReconcilesSigned, Reconciles, CaptureError, GivesUp, Prepares,
           PreparesChargeable, Signs, OnlyRow;
      LogSend(i);
      ghost var mid := State();
      SameRows(mid, i);
      match sent {
        case Accepted(true) =>
          MarkSubmitted(i, look);
          r := Outcome.Waiting;
        case NoGas =>
          Await(i, InsufficientGas, look);
          r := Threw(InsufficientGas);
        case _ =>
          Await(i, TransactionUnknown, look);
          r := Outcome.Waiting;
      }
    }

    /** The evidence behind a signed batch is checked before its bytes are sent again. */
    method ResendChecked(i: nat, sent: Sent, ghost look: Lookup) returns (r: Outcome)
      requires InPass() && i < |batches| && Live(batches[i]) && look.NotFound? && passStart <= look.at < |chain.tips|
      requires look.at >= Clock()
      modifies this`batches, this`clicks, this`publications, this`held, this`reverted, this`log, this`sends, chain
      ensures InPass() && Reconciled(i, r) && chain.MovedOn()
      ensures var unproved := Unproved(Reading(), old(clicks), old(batches[i]).members);
        && Resends(old(batches[i]), batches[i], r, sent, unproved)
        && sends == old(sends) + if unproved == {} then 1 else 0
    {
      hide Legal, After, Timely, ChargeClock, LedgerInv, Enabled, Valid, CanonicalAt, Unproved, SettledBy, Fails,
           ByIndex, ByReceipt, ByBytes, ReconcilesSigned, Reconciles, Sends, CaptureError, GivesUp, Prepares,
           PreparesChargeable, Signs, OnlyRow;
      var error := AssertBatchCapture(i);
      ghost var mid := State();
      if error.Some? {
        Await(i, error.value, look);
        r := if error.value == WaitingConfirmation then Outcome.Waiting else Threw(error.value);
      } else {
        r := SendBytes(i, sent, look);
      }
      OnlyRowAgain(old(State()), mid, State(), i);
    }

    method Rebroadcast(i: nat, a: Answers, ghost look: Lookup) returns (r: Outcome)
      requires InPass() && i < |batches| && Live(batches[i]) && look.NotFound? && passStart <= look.at < |chain.tips|
      requires look.at >= Clock()
      modifies this`batches, this`clicks, this`publications, this`held, this`reverted, this`log, this`sends, chain
      ensures InPass() && Reconciled(i, r) && chain.MovedOn()
      ensures var unproved := Unproved(Reading(), old(clicks), old(batches[i]).members);
        && ByBytes(old(batches[i]), batches[i], r, a, unproved,
                   Ahead(old(batches), i, old(batches[i].tx).value.signer, a))
        && sends == old(sends) +
             if a.pendingNonce.Got? && a.pendingNonce.value >= old(batches[i].tx).value.nonce && unproved == {}
             then 1 else 0
    {
      hide Legal, After, Timely, ChargeClock, LedgerInv, Enabled, Unproved, SettledBy, Fails, ByIndex, ByReceipt,
           Resends, ReconcilesSigned, Reconciles, Sends, CaptureError, GivesUp, Prepares, PreparesChargeable, Signs,
           OnlyRow;
      SameRows(State(), i);
      if a.pendingNonce.Lost? {
        r := Threw(RpcUnavailable);
      } else if a.pendingNonce.value < batches[i].tx.value.nonce {
        var waits := HasPredecessor(batches, i, batches[i].tx.value.signer, a.pendingNonce.value);
        Await(i, if waits then WaitingConfirmation else NonceGap, look);
        r := if waits then Outcome.Waiting else Threw(NonceGap);
      } else {
        r := ResendChecked(i, a.sent, look);
      }
    }

    ghost method LogSend(i: nat)
      requires InPass() && i < |batches| && Live(batches[i]) && EvidenceOk(State(), i, chain.tips)
      modifies this`log, this`sends
      ensures InPass() && log == old(log) + [Send(i)] && sends == old(sends) + 1 && Clock() == old(Clock())
    {
      Fits(Send(i));
      ClockGrows(log, Send(i));
      log, sends := log + [Send(i)], sends + 1;
      Took(Send(i));
    }

    /** A batch with bytes: its receipt, the index, or the bytes once more. */
    method ReconcileSigned(i: nat, row: Batch, a: Answers, now: int) returns (r: Outcome)
      requires InPass() && i < |batches| && Live(batches[i])
      requires row.status.Failed? ==> batches[i] == row
      modifies this`batches, this`clicks, this`publications, this`held, this`seen, this`reverted, this`log, this`sends,
        chain
      ensures InPass() && Reconciled(i, r) && chain.MovedOn()
      ensures var unproved := Unproved(Reading(), old(clicks), old(batches[i]).members);
        && ReconcilesSigned(Reading(), old(batches[i]), row, batches[i], r, a, now, unproved,
                            Ahead(old(batches), i, old(batches[i].tx).value.signer, a))
        && sends == old(sends) +
             if && a.receipt == Got(None) && a.processed == Got(false) && unproved == {}
                && a.pendingNonce.Got? && a.pendingNonce.value >= old(batches[i].tx).value.nonce
             then 1 else 0
    {
      hide Legal, After, Timely, ChargeClock, Enabled, LedgerInv, Valid, Undecided, HandledIn, Unproved, SettledBy,
           Fails, ByIndex, ByReceipt, Resends, ByBytes, Reconciles, Sends, CaptureError, GivesUp, Prepares,
           PreparesChargeable, Signs, OnlyRow;
      SameRows(State(), i);
      if a.receipt.Lost? {
        return Threw(RpcUnavailable);
      }
      NowInPass();
      ghost var look := LookOf(a.receipt.value, |chain.tips| - 1);
      if a.receipt.value.Some? {
        r := ReceiptFound(i, row, a.receipt.value.value, a.indexed, now, look);
      } else if a.processed.Lost? {
        return Threw(RpcUnavailable);
      } else if a.processed.value {
        NoReceiptUndecided(State(), look, chain.tips);
        r := FindSettlement(i, a.indexed, look);
      } else {
        r := Rebroadcast(i, a, look);
      }
    }

    /** The row and the outcome are what the answers call for. */
    twostate predicate Decided(i: nat, a: Answers, now: int, r: Outcome)
      requires i < |old(batches)| && i < |batches|
      reads this, chain
    {
      var b := old(batches[i]);
      Reconciles(Reading(), b, batches[i], r, a, now, Unproved(Reading(), old(clicks), b.members),
                 b.tx.Some? && Ahead(old(batches), i, old(batches[i].tx).value.signer, a))
    }

    /**
     Decides what became of one batch: nothing to do, rolled back, settled, failed, or still
     waiting with its bytes sent again.
     */
    method ReconcileChargeBatch(i: nat, a: Answers, now: int) returns (r: Outcome)
      requires InPass() && i < |batches|
      requires HasReceipt(batches[i]) ==> i in seen && seen[i] <= passStart
      modifies this`batches, this`clicks, this`runs, this`publications, this`held, this`seen, this`reverted, this`log,
        this`sends, chain
      ensures InPass() && Reconciled(i, r) && chain.MovedOn()
      ensures Decided(i, a, now, r)
      ensures sends == old(sends) +
        if Reaches(Reading(), old(batches[i]), a, Unproved(Reading(), old(clicks), old(batches[i]).members))
        then 1 else 0
    {
      hide Legal, After, Timely, ChargeClock, Enabled, LedgerInv, Valid, SeenInv, NoRevival, Unproved, SettledBy,
           Fails, ByIndex, ByReceipt, Resends, ByBytes, ReconcilesSigned, Sends, CaptureError, GivesUp, Prepares,
           PreparesChargeable, Signs, OnlyRow, Reconciles, GoesOn, Ahead, KeptProofs;
      var row := batches[i];
      Row(i);
      SameRows(State(), i);
      if Terminal(row.status) && row.receiptNumber.Some? && row.receiptHash.Some? {
        r := ReconcileSettled(i, a, now);
        return;
      }
      ghost var ahead := row.tx.Some? && Ahead(old(batches), i, row.tx.value.signer, a);
      if row.tx.None? {
        UnsettledDecides(Reading(), row, row, Idle, a, now, Unproved(Reading(), old(clicks), row.members), ahead);
        return Idle;
      }
      r := ReconcileSigned(i, row, a, now);
      UnsettledDecides(Reading(), row, batches[i], r, a, now, Unproved(Reading(), old(clicks), row.members), ahead);
    }

    /** A settled batch: nothing to do while its receipt is canonical; otherwise it starts over. */
    method ReconcileSettled(i: nat, a: Answers, now: int) returns (r: Outcome)
      requires InPass() && i < |batches| && HasReceipt(batches[i])
      requires i in seen && seen[i] <= passStart
      modifies this`batches, this`clicks, this`runs, this`publications, this`held, this`seen, this`reverted, this`log,
        this`sends, chain
      ensures InPass() && Reconciled(i, r) && chain.MovedOn()
      ensures Decided(i, a, now, r)
      ensures sends == old(sends) +
        if Reaches(Reading(), old(batches[i]), a, Unproved(Reading(), old(clicks), old(batches[i]).members))
        then 1 else 0
    {
      hide Legal, After, Timely, ChargeClock, Enabled, LedgerInv, Valid, SeenInv, NoRevival, Unproved, SettledBy,
           Fails, ByIndex, ByReceipt, Resends, ByBytes, ReconcilesSigned, Sends, CaptureError, GivesUp, Prepares,
           PreparesChargeable, Signs, OnlyRow, Reconciles, Ahead, KeptProofs, GoesOn;
      var row := batches[i];
      MembersAreBatched(i);
      var canonical, error := CheckSettled(i);
      ghost var ahead := row.tx.Some? && Ahead(old(batches), i, row.tx.value.signer, a);
      if error.Some? || canonical {
        r := if error.Some? then Threw(error.value) else Idle;
        SettledDecides(Reading(), row, row, r, a, now, Unproved(Reading(), old(clicks), row.members), ahead);
        return;
      }
      if row.tx.None? {
        ReopenedDecides(Reading(), row, Reopened(row), Idle, a, now, Unproved(Reading(), old(clicks), row.members),
                        ahead);
        return Idle;
      }
      ghost var mid := State();
      KeptByOnlyRow(old(State()), mid, i);
      SameAhead(old(State()), mid, i, row.tx.value.signer, a);
      r := ReconcileSigned(i, row, a, now);
      OnlyRowAgain(old(State()), mid, State(), i);
      KeepsUnproved(Reading(), old(clicks), mid.clicks, row.members);
      ReopenedDecides(Reading(), row, batches[i], r, a, now, Unproved(Reading(), old(clicks), row.members), ahead);
    }

    lemma MembersAreBatched(i: nat)
      requires Valid() && i < |batches|
      ensures forall c :: c in batches[i].members ==> c in clicks && clicks[c].batch.Some?
    {
      hide Legal, After, Timely, LedgerInv;
      Row(i);
    }

    // ---- preparation -------------------------------------------------------------------------

    /** The first query on each journal: a row in flight for the wallet, other than the caller's own. */
    method FindPendingRow(signer: Address, own: nat) returns (pending: bool)
      ensures pending <==>
        || (exists i :: 0 <= i < |batches| && i != own && ChargeInFlight(State(), signer, i))
        || (exists p :: 0 <= p < |publications| && PublicationInFlight(State(), signer, p))
    {
      for i := 0 to |batches|
        invariant forall k :: 0 <= k < i && k != own ==> !ChargeInFlight(State(), signer, k)
      {
        if i != own && batches[i].tx.Some? && batches[i].tx.value.signer == signer && InFlight(batches[i].status) {
          assert ChargeInFlight(State(), signer, i);
          return true;
        }
      }
      for p := 0 to |publications|
        invariant forall k :: 0 <= k < p ==> !PublicationInFlight(State(), signer, k)
      {
        if publications[p].signer == Some(signer) && PubInFlight(publications[p].status) {
          assert PublicationInFlight(State(), signer, p);
          return true;
        }
      }
      return false;
    }

    method GreatestChargeNonce(signer: Address) returns (latest: Option<nat>)
      ensures latest.Some? ==> exists i :: 0 <= i < |batches| && ChargeNonce(batches[i], signer, latest.value)
      ensures forall i :: 0 <= i < |batches| && batches[i].tx.Some? && batches[i].tx.value.signer == signer ==>
        latest.Some? && batches[i].tx.value.nonce <= latest.value
    {
      latest := None;
      for i := 0 to |batches|
        invariant latest.Some? ==> exists k :: 0 <= k < i && ChargeNonce(batches[k], signer, latest.value)
        invariant forall k :: 0 <= k < i && batches[k].tx.Some? && batches[k].tx.value.signer == signer ==>
          latest.Some? && batches[k].tx.value.nonce <= latest.value
      {
        if batches[i].tx.Some? && batches[i].tx.value.signer == signer &&
           (latest.None? || batches[i].tx.value.nonce > latest.value)
        {
          latest := Some(batches[i].tx.value.nonce);
          assert ChargeNonce(batches[i], signer, latest.value);
        }
      }
    }

    method GreatestPublicationNonce(signer: Address) returns (latest: Option<nat>)
      ensures latest.Some? ==> exists p :: 0 <= p < |publications| && PubNonce(publications[p], signer, latest.value)
      ensures forall p ::
        0 <= p < |publications| && publications[p].signer == Some(signer) && publications[p].nonce.Some? ==>
        latest.Some? && publications[p].nonce.value <= latest.value
    {
      latest := None;
      for p := 0 to |publications|
        invariant latest.Some? ==> exists k :: 0 <= k < p && PubNonce(publications[k], signer, latest.value)
        invariant forall k :: 0 <= k < p && publications[k].signer == Some(signer) && publications[k].nonce.Some? ==>
          latest.Some? && publications[k].nonce.value <= latest.value
      {
        if publications[p].signer == Some(signer) && publications[p].nonce.Some? &&
           (latest.None? || publications[p].nonce.value > latest.value)
        {
          latest := publications[p].nonce;
          assert PubNonce(publications[p], signer, latest.value);
        }
      }
    }

    /**
     Reads both journals while the transaction holds the wallet lock: whether another row is in
     flight, and the greatest nonce that the wallet has in either journal.
     */
    method ReadWalletReservation(signer: Address, own: nat) returns (pending: bool, latestNonce: Option<nat>)
      ensures !pending <==> WalletFree(State(), signer, Some(own), None)
      ensures latestNonce.Some? ==> InJournals(State(), signer, latestNonce.value)
      ensures forall n: nat :: InJournals(State(), signer, n) ==> latestNonce.Some? && n <= latestNonce.value
    {
      pending := FindPendingRow(signer, own);
      var charge := GreatestChargeNonce(signer);
      var publication := GreatestPublicationNonce(signer);
      latestNonce :=
        if charge.None? then publication
        else if publication.None? || charge.value > publication.value then charge
        else publication;
    }

    method GiveUpAtFinal(i: nat, code: Code) returns (r: Outcome)
      requires InPass() && i < |batches| && (batches[i].status.Prepared? || batches[i].status.Failed?)
      modifies this`batches, this`clicks, this`publications, this`held, this`seen, this`reverted, this`log,
        this`giveUps, chain
      ensures InPass() && Reconciled(i, r) && chain.MovedOn() &&
        !r.Waiting?
      ensures r.Threw? ==> batches == old(batches) && reverted == old(reverted)
      ensures GivesUp(Reading(), old(batches[i]), batches[i], r, code)
    {
      hide Valid, Apply, CanonicalAt, ProofSeen, Enabled, NoRevival, Unproved, SettledBy, Fails, ByIndex, ByReceipt,
           Resends, ByBytes, ReconcilesSigned, Reconciles, Sends, CaptureError, Prepares, PreparesChargeable, Signs,
           OnlyRow, OthersWrote;
      var hash, at := Hash(FinalBlock(Tables()));
      ghost var mid := State();
      OthersWroteNoRow(old(State()), mid, i);
      if hash.Lost? {
        return Threw(RpcUnavailable);
      }
      Uncollectable(i, code, FinalBlock(Tables()), hash.value, at);
      OnlyRowAgain(old(State()), mid, State(), i);
      return Idle;
    }

    /** Under the wallet lock: the next free nonce and the bytes that use it, or the reason why not. */
    method ReserveNonce(i: nat, p: PrepareAnswers, signer: Address) returns (tx: Option<SignedTx>, error: Code)
      requires i < |batches| && (batches[i].status.Prepared? || batches[i].status.Failed?)
      requires batches[i].tx.Some? ==> i in reverted
      ensures tx.Some? ==> CanSign(State(), i, tx.value) && Refusal(State(), i, p, signer).None?
      ensures tx.Some? ==>
        && p.pendingNonce.Got? && p.signature.Bytes?
        && tx.value == SignedTx(signer, p.pendingNonce.value, batches[i].chargeId, batches[i].key, batches[i].requested,
                                p.signature.fees)
      ensures tx.None? ==> Refusal(State(), i, p, signer) == Some(error)
    {
      hide LatestNonce, WalletFree, InJournals;
      LatestNonceIsGreatest(State(), signer);
      tx, error := None, WaitingConfirmation;
      var pending, latestNonce := ReadWalletReservation(signer, i);
      if pending {
        return;
      }
      if p.pendingNonce.Lost? {
        return None, RpcUnavailable;
      }
      if latestNonce.Some? && p.pendingNonce.value <= latestNonce.value {
        return None, NonceGap;
      }
      if p.signature.Refused? {
        return None, p.signature.code;
      }
      var b := batches[i];
      tx := Some(SignedTx(signer, p.pendingNonce.value, b.chargeId, b.key, b.requested, p.signature.fees));
    }

    /** The evidence of a batch stays what it was while only others work. */
    twostate lemma EvidenceStays(i: nat)
      requires old(Valid()) && i < |old(batches)| && batches == old(batches) && BatchedKept()
      requires passStart == old(passStart) && head == old(head) && chain.tips == old(chain.tips)
      requires EvidenceOk(old(State()), i, chain.tips)
      ensures EvidenceOk(State(), i, chain.tips)
    {
      hide Legal, After, Timely, ChargeClock, LedgerInv, SeenInv, EvidenceSeen;
      OldRow(i);
    }

    twostate lemma OldRow(i: nat)
      requires old(Valid()) && i < |old(batches)|
      ensures BatchOk(old(clicks), old(batches)[i], i)
    {
      LedgerAlwaysHolds(confirmations, old(log), old(chain.tips));
      assert BatchOk(old(State()).clicks, old(State()).batches[i], i);
    }

    /** Reserves the next nonce of the wallet and commits the signed bytes. */
    method SignBatch(i: nat, p: PrepareAnswers, signer: Address) returns (error: Option<Code>)
      requires InPass() && i < |batches| && (batches[i].status.Prepared? || batches[i].status.Failed?)
      requires (batches[i].status.Failed? ==> i in reverted) && EvidenceOk(State(), i, chain.tips)
      modifies this`batches, this`clicks, this`publications, this`held, this`reverted, this`log
      ensures InPass() && OnlyBatch(i)
      ensures error.Some? ==>
        batches == old(batches) && reverted == old(reverted) && error == Refusal(State(), i, p, signer)
      ensures error.None? ==>
        p.pendingNonce.Got? && p.signature.Bytes? && batches[i] == SignedRow(old(batches[i]), p, signer)
      ensures chain.blockHashes == old(chain.blockHashes) && head == old(head)
    {
      hide Legal, After, Timely, ChargeClock, LedgerInv, SeenInv, Next, StepFits, CanSign, EvidenceOk, Valid, Unproved,
           SettledBy, Fails, ByIndex, ByReceipt, Resends, ByBytes, ReconcilesSigned, Reconciles, Sends, CaptureError,
           GivesUp, Prepares, PreparesChargeable, Signs, OnlyRow;
      OthersRun();
      ghost var mid := State();
      OthersWroteNoRow(old(State()), mid, i);
      EvidenceStays(i);
      Row(i);
      var tx, code := ReserveNonce(i, p, signer);
      if tx.None? {
        return Some(code);
      }
      NowInPass();
      CommitSigned(i, tx.value, |chain.tips| - 1);
      OnlyRowAgain(old(State()), mid, State(), i);
      return None;
    }

    method CommitSigned(i: nat, tx: SignedTx, ghost at: nat)
      requires Max(Clock(), PubClock(log)) <= at < |chain.tips|
      requires InPass() && i < |batches| && CanSign(State(), i, tx) && EvidenceOk(State(), i, chain.tips)
      modifies this`batches, this`reverted, this`log
      ensures InPass() && OnlyBatch(i) && log == old(log) + [Sign(i, tx, at)]
      ensures var b := old(batches[i]);
        batches[i] == b.(status := Signed, tx := Some(tx), error := None, attempts := b.attempts + 1,
                         nextAttemptAt := None, receiptNumber := None, receiptHash := None)
    {
      hide Legal, After, Timely, ChargeClock, LedgerInv, SeenInv, LatestNonce, WalletFree, EvidenceOk;
      var b := batches[i];
      Update(i, Sign(i, tx, at),
             b.(status := Signed, tx := Some(tx), error := None, attempts := b.attempts + 1,
                nextAttemptAt := None, receiptNumber := None, receiptHash := None));
    }

    method PrepareBatch(i: nat, p: PrepareAnswers, signer: Address, now: int)
      returns (r: Outcome, ghost refusal: Option<Code>)
      requires InPass() && i < |batches| && (batches[i].status.Prepared? || batches[i].status.Failed?)
      requires batches[i].status.Failed? ==> i in reverted
      modifies this`batches, this`clicks, this`runs, this`publications, this`held, this`seen, this`reverted, this`log,
        this`sends, this`giveUps, chain
      ensures InPass() && OnlyBatch(i) && chain.MovedOn()
      ensures batches[i].status.Failed? ==> i in reverted
      ensures r.Waiting? ==> InFlight(batches[i].status)
      ensures giveUps > old(giveUps) ==>
        p.finalized.Got? && (p.finalized.value.version != old(batches[i]).key.version || p.finalized.value.amount == 0)
      ensures Prepares(Reading(), old(batches[i]), batches[i], r, p, signer, now, refusal,
                       Unproved(Reading(), old(clicks), old(batches[i]).members),
                       Ahead(old(batches), i, signer, p.afterwards))
      ensures refusal.Some? ==> refusal == Refusal(State(), i, p, signer)
      ensures batches[i].tx != old(batches[i].tx) ==>
        && Chargeable(p.finalized, old(batches[i]).key.version) && Chargeable(p.current, old(batches[i]).key.version)
        && p.processed == Got(false) && batches[i].tx.Some? && batches[i].tx.value.signer == signer
    {
      hide Legal, After, Timely, ChargeClock, Enabled, LedgerInv, SeenInv, Valid, EvidenceOk, CanonicalAt, Unproved,
           SettledBy, Fails, ByIndex, ByReceipt, Resends, ByBytes, ReconcilesSigned, Reconciles, Sends, CaptureError,
           GivesUp, PreparesChargeable, Signs, OnlyRow, Ahead, KeptProofs;
      refusal := None;
      MembersAreBatched(i);
      var error := AssertBatchCapture(i);
      ghost var proved, mid := Reading(), State();
      if error.Some? {
        return Threw(error.value), refusal;
      }
      if p.finalized.Lost? {
        return Threw(RpcUnavailable), refusal;
      }
      if p.finalized.value.version != batches[i].key.version {
        r := GiveUpAtFinal(i, PositionVersionMismatch);
        OnlyRowAgain(old(State()), mid, State(), i);
        StayProved(proved, Reading(), old(clicks), old(batches[i]).members);
        return;
      }
      if p.finalized.value.amount == 0 {
        r := GiveUpAtFinal(i, PositionMissing);
        OnlyRowAgain(old(State()), mid, State(), i);
        StayProved(proved, Reading(), old(clicks), old(batches[i]).members);
        return;
      }
      KeptByOnlyRow(old(State()), mid, i);
      r, refusal := PrepareChargeable(i, p, signer, now);
      KeepsUnproved(Reading(), old(clicks), mid.clicks, old(batches[i]).members);
      OnlyRowAgain(old(State()), mid, State(), i);
      StayProved(proved, Reading(), old(clicks), old(batches[i]).members);
    }

    /** The stake was there at the final block: whether it still is, and then the bytes. */
    method PrepareChargeable(i: nat, p: PrepareAnswers, signer: Address, now: int)
      returns (r: Outcome, ghost refusal: Option<Code>)
      requires InPass() && i < |batches| && (batches[i].status.Prepared? || batches[i].status.Failed?)
      requires (batches[i].status.Failed? ==> i in reverted) && EvidenceOk(State(), i, chain.tips)
      requires Chargeable(p.finalized, batches[i].key.version)
      modifies this`batches, this`clicks, this`runs, this`publications, this`held, this`seen, this`reverted, this`log,
        this`sends, chain
      ensures InPass() && OnlyBatch(i) && chain.MovedOn()
      ensures batches[i].status.Failed? ==> i in reverted
      ensures r.Waiting? ==> InFlight(batches[i].status)
      ensures PreparesChargeable(Reading(), old(batches[i]), batches[i], r, p, signer, now, refusal,
                                 Unproved(Reading(), old(clicks), old(batches[i]).members),
                                 Ahead(old(batches), i, signer, p.afterwards))
      ensures refusal.Some? ==> refusal == Refusal(State(), i, p, signer)
      ensures batches[i].tx != old(batches[i].tx) ==>
        && Chargeable(p.current, old(batches[i]).key.version)
        && p.processed == Got(false) && batches[i].tx.Some? && batches[i].tx.value.signer == signer
    {
      hide Legal, After, Timely, ChargeClock, Enabled, LedgerInv, SeenInv, Valid, EvidenceOk, CanonicalAt, Unproved,
           SettledBy, Fails, ByIndex, ByReceipt, Resends, ByBytes, ReconcilesSigned, Reconciles, Sends, CaptureError,
           GivesUp, Prepares, OnlyRow, Ahead, KeptProofs, Reaches, GoesOn, HasPredecessor;
      refusal := None;
      SameRows(State(), i);
      MembersAreBatched(i);
      if p.current.Lost? {
        return Threw(RpcUnavailable), refusal;
      }
      if p.current.value.version != batches[i].key.version || p.current.value.amount == 0 {
        return Threw(WaitingConfirmation), refusal;
      }
      if p.processed.Lost? || p.processed.value {
        return Threw(if p.processed.Lost? then RpcUnavailable else TransactionUnknown), refusal;
      }
      var error := SignBatch(i, p, signer);
      if error.Some? {
        return Threw(error.value), error;
      }
      ghost var mid := State();
      KeptByOnlyRow(old(State()), mid, i);
      SameAhead(old(State()), mid, i, signer, p.afterwards);
      r := ReconcileChargeBatch(i, p.afterwards, now);
      KeepsUnproved(Reading(), old(clicks), mid.clicks, old(batches[i]).members);
      SignedIsReconciled(Reading(), SignedRow(old(batches[i]), p, signer), batches[i], r, p.afterwards, now,
                         Unproved(Reading(), old(clicks), old(batches[i]).members),
                         Ahead(old(batches), i, signer, p.afterwards));
      OnlyRowAgain(old(State()), mid, State(), i);
    }

    // ---- runs --------------------------------------------------------------------------------

    method OpenRun(trigger: Trigger)
      requires Valid()
      modifies this`runs, this`log
      ensures Valid() && log == old(log) + [Step.OpenRun(trigger)]
      ensures runs == old(runs) + [Run(trigger, Queued, None, None, None)]
    {
      Fits(Step.OpenRun(trigger));
      runs := runs + [Run(trigger, Queued, None, None, None)];
      log := log + [Step.OpenRun(trigger)];
      Took(Step.OpenRun(trigger));
    }

    /** What the batches of a run say: one is open, one is unpaid, and the first error among them. */
    method ReadBatches(q: nat) returns (open: bool, unpaid: bool, error: Option<Code>)
      ensures open <==> HasOpenBatch(batches, q)
      ensures unpaid <==> HasUnpaidBatch(batches, q)
      ensures error == FirstError(batches, q)
    {
      open, unpaid, error := false, false, None;
      for i := 0 to |batches|
        invariant open <==> exists k :: 0 <= k < i && batches[k].runId == q && !Terminal(batches[k].status)
        invariant unpaid <==>
          exists k :: 0 <= k < i && batches[k].runId == q && (batches[k].status.Partial? || batches[k].status.GivenUp?)
        invariant FirstError(batches, q) == if error.Some? then error else FirstError(batches[i..], q)
      {
        if batches[i].runId == q {
          open := open || !Terminal(batches[i].status);
          unpaid := unpaid || batches[i].status.Partial? || batches[i].status.GivenUp?;
          if error.None? {
            error := batches[i].error;
          }
        }
      }
    }

    /** Some click in the reach of a manual run waits for its batch, and whether one waits for its price. */
    method ReadAwaited(q: nat) returns (clicksWait: bool, priceWaits: bool)
      requires q < |runs|
      ensures clicksWait <==> AwaitsClicks(State(), q)
      ensures priceWaits <==> AwaitsPrices(State(), q)
    {
      clicksWait, priceWaits := false, false;
      if runs[q].trigger.Manual? && runs[q].startedAt.Some? {
        var startedAt := runs[q].startedAt.value;
        clicksWait := exists c :: c in clicks && AwaitedClick(clicks[c], startedAt);
        priceWaits := exists c :: c in clicks && AwaitedClick(clicks[c], startedAt) && clicks[c].status.PricePending?;
      }
    }

    /** Nothing of the run is open, no click in its reach waits, and nothing failed. */
    ghost predicate Finished(q: nat, failure: Option<Code>)
      requires q < |runs|
      reads this
    {
      failure.None? && !AwaitsClicks(State(), q) && AllTerminal(batches, q)
    }

    /**
     The run is finished when nothing of it is open, and paid when no batch of it was given up or
     paid in part; otherwise it runs, or is blocked by a failure or a missing price.
     */
    method RefreshRun(q: nat, now: int, failure: Option<Code>)
      requires Valid() && q < |runs|
      modifies this`runs, this`log
      ensures Valid() && log == old(log) + [Refresh(q, now, failure)]
      ensures |runs| == |old(runs)| && forall k :: 0 <= k < |runs| && k != q ==> runs[k] == old(runs[k])
      ensures runs[q].trigger == old(runs[q].trigger)
      ensures runs[q].finishedAt == if old(Finished(q, failure)) then Some(now) else None
      ensures old(Finished(q, failure)) ==>
        runs[q].status == if AllPaid(batches, q) then RunCompleted else RunPartial
      ensures !old(Finished(q, failure)) ==>
        var stuck := (failure.Some? && failure != Some(WaitingConfirmation))
          || (failure.None? && old(AwaitsPrices(State(), q)));
        runs[q].status == if stuck then Blocked else Running
      ensures runs[q].error ==
        if runs[q].status.RunCompleted? then None
        else if failure.Some? then failure
        else if old(AwaitsPrices(State(), q)) then Some(PriceUnavailable)
        else FirstError(batches, q)
    {
      hide Legal, After, Timely, ChargeClock, LedgerInv, SeenInv, AwaitedClick, FirstError, Before, Enabled, Valid,
           AllPaid, AllTerminal, HasOpenBatch, HasUnpaidBatch;
      var clicksWait, priceWaits := ReadAwaited(q);
      var open, unpaid, error := ReadBatches(q);
      PaidUnlessUnpaid(batches, q);
      var reported := if failure.None? && priceWaits then Some(PriceUnavailable) else failure;
      error := if reported.Some? then reported else error;
      var unfinished := clicksWait || open || reported.Some?;
      var status := if unfinished then
                      if reported.Some? && reported.value != WaitingConfirmation then Blocked else Running
                    else if unpaid then RunPartial else RunCompleted;
      PutRun(q, runs[q].(status := status, error := if unfinished || unpaid then error else None,
                         finishedAt := if unfinished then None else Some(now)), now, failure);
    }

    method PutRun(q: nat, row: Run, now: int, ghost failure: Option<Code>)
      requires Valid() && q < |runs| && row == RefreshedRun(State(), q, now, failure)
      modifies this`runs, this`log
      ensures Valid() && log == old(log) + [Refresh(q, now, failure)] && runs == old(runs)[q := row]
    {
      hide Legal, After, Timely, ChargeClock, LedgerInv, SeenInv, Valid, RefreshedRun;
      Fits(Refresh(q, now, failure));
      runs := runs[q := row];
      log := log + [Refresh(q, now, failure)];
      Took(Refresh(q, now, failure));
    }

    method BlockRun(q: nat, code: Code)
      requires Valid() && q < |runs|
      modifies this`runs, this`log
      ensures Valid() && log == old(log) + [Step.BlockRun(q, code)]
      ensures runs == old(runs)[q := old(runs)[q].(status := Blocked, error := Some(code))]
    {
      Fits(Step.BlockRun(q, code));
      runs := runs[q := runs[q].(status := Blocked, error := Some(code))];
      log := log + [Step.BlockRun(q, code)];
      Took(Step.BlockRun(q, code));
    }

    method NoteError(i: nat, code: Code)
      requires Valid() && i < |batches|
      modifies this`batches, this`reverted, this`log
      ensures Valid() && log == old(log) + [Note(i, code)]
      ensures batches == old(batches)[i := old(batches[i]).(error := Some(code))] && reverted == old(reverted)
      ensures OnlyBatch(i)
    {
      Update(i, Note(i, code), batches[i].(error := Some(code)));
    }

    predicate Eligible(c: Click, cutoff: int) reads this {
      && c.status.Pending? && c.batch.None? && c.clickedAt <= cutoff
      && c.bidNumber.Some? && c.bidNumber.value <= FinalBlock(Tables())
    }

    /** The debt a run may reserve, oldest first. */
    method FindPending(cutoff: int) returns (ids: seq<ClickId>)
      requires Valid()
      ensures forall c :: c in ids <==> c in clicks && Eligible(clicks[c], cutoff)
      ensures Known(clicks, ids) && Ordered(clicks, ids)
      ensures forall c :: c in ids ==> clicks[c].status.Pending? && clicks[c].batch.None? && clicks[c].amount.Some?
    {
      Holds();
      assert forall c :: c in clicks ==> ClickOk(State(), c);
      ids := Grouping.FindOrdered(clicks, set c | c in clicks && Eligible(clicks[c], cutoff));
    }

    /** Nothing but the run and new rows. */
    twostate predicate OnlyReserved()
      reads this
    {
      && ReservedRows(old(batches), batches)
      && |runs| == |old(runs)| && (forall k :: 0 <= k < |runs| ==> runs[k].trigger == old(runs[k].trigger))
    }

    /** The tables of the reservation before its groups are added. */
    ghost function Taken(q: nat, cutoff: int): System
      requires q < |runs|
      reads this
    {
      State().(batches := TakeOver(State(), q), runs := runs[q := StartedRun(runs[q], cutoff)])
    }

    /** One group on the working copies: its batch, and its clicks reserved for it. */
    method ClaimGroup(q: nat, group: seq<ClickId>, chargeId: nat, rows: seq<Batch>, work: map<ClickId, Click>,
                      ghost base: System, ghost chosen: seq<seq<ClickId>>, ghost chargeIds: seq<nat>)
      returns (newRows: seq<Batch>, newWork: map<ClickId, Click>)
      requires Claimed(base, q, chosen, chargeIds, rows, work) && NoCollision(batches, chargeIds, rows)
      requires |group| > 0 && Known(base.clicks, group) && !HasId(rows, chargeId)
      ensures Claimed(base, q, chosen + [group], chargeIds + [chargeId], newRows, newWork)
      ensures NoCollision(batches, chargeIds + [chargeId], newRows)
      ensures |newRows| == |rows| + 1 && newRows[..|rows|] == rows && newRows[|rows|].chargeId == chargeId
    {
      hide AddGroup, AddGroups, TakeOver, NewBatch, ClaimClicks, FreshIds;
      ClaimedStep(base, q, chosen, chargeIds, rows, work, group, chargeId);
      var batch := NewBatch(work, q, group, chargeId);
      NewIdTaken(batches, chargeIds, rows, work, q, group, chargeId);
      newWork := ClaimClicks(work, group, |rows|, batch.due);
      newRows := rows + [batch];
    }

    /**
     The loop of the reservation: one batch for each due group, built on working copies that
     are dropped when a random charge id is already taken.
     */
    method ClaimGroups(q: nat, groups: seq<seq<ClickId>>, intervalMinutes: nat, clickThreshold: nat, now: int,
                       random: nat -> nat, ghost cutoff: int)
      returns (rows: seq<Batch>, work: map<ClickId, Click>, ghost chosen: seq<seq<ClickId>>, ghost chargeIds: seq<nat>,
        ok: bool)
      requires q < |runs|
      requires forall k :: 0 <= k < |groups| ==> Reservable(clicks, groups[k])
      requires forall g :: g in groups ==> Known(clicks, g)
      requires forall j, k, c :: 0 <= j < k < |groups| && c in groups[j] ==> c !in groups[k]
      ensures !ok ==> Repeats(batches, random, |groups|)
      ensures ok ==> CanReserve(State(), q, chosen, chargeIds)
      ensures ok ==> StepFits(State(), Reserve(q, cutoff, chosen, chargeIds))
      ensures ok ==> rows == AddGroups(Taken(q, cutoff), q, chosen, chargeIds).batches
                     && work == AddGroups(Taken(q, cutoff), q, chosen, chargeIds).clicks
      ensures ok ==> chosen == Chosen(clicks, groups, runs[q].trigger.Manual?, intervalMinutes, clickThreshold, now)
    {
      hide AddGroup, AddGroups, Before, Known, Reservable, TakeOver, NewBatch, ClaimClicks, Chosen, CanReserve,
           StepFits, Grouping.ChargeGroupDue, Claimed, NoCollision, HasId, Taken;
      NothingChosen(clicks, runs[q].trigger.Manual?, intervalMinutes, clickThreshold, now);
      rows, work, chosen, chargeIds, ok := TakeOver(Tables(), q), clicks, [], [], true;
      ghost var base := Taken(q, cutoff);
      NothingClaimed(q, cutoff);
      var n := 0;
      while n < |groups|
        invariant n <= |groups| && |chosen| == |chargeIds|
        invariant Claimed(base, q, chosen, chargeIds, rows, work)
        invariant NoCollision(batches, chargeIds, rows) && Drawn(batches, rows, random, n)
        invariant forall g :: g in groups[..n] ==> g in groups && Known(clicks, g)
        invariant chosen == Chosen(clicks, groups[..n], runs[q].trigger.Manual?, intervalMinutes, clickThreshold, now)
      {
        var group := groups[n];
        assert forall g :: g in groups[..n] || g in groups[..n + 1] ==> g in groups;
        ChosenOneMore(clicks, groups, n, runs[q].trigger.Manual?, intervalMinutes, clickThreshold, now);
        ReservableIsKnown(clicks, group);
        if runs[q].trigger.Manual? || Grouping.ChargeGroupDue(clicks, group, intervalMinutes, clickThreshold, now) {
          var chargeId := random(n);
          if HasId(rows, chargeId) {
            DrawnAgain(batches, rows, random, n);
            ok := false;
            return;
          }
          ghost var few := rows;
          rows, work := ClaimGroup(q, group, chargeId, rows, work, base, chosen, chargeIds);
          DrawnOneMore(batches, few, rows, random, n);
          chosen, chargeIds := chosen + [group], chargeIds + [chargeId];
        }
        n := n + 1;
      }
      assert groups[..n] == groups;
      ChosenIsPart(clicks, groups, runs[q].trigger.Manual?, intervalMinutes, clickThreshold, now);
      ClaimsFit(q, cutoff, groups, chosen, chargeIds, rows, work);
    }

    lemma NothingClaimed(q: nat, cutoff: int)
      requires q < |runs|
      ensures Claimed(Taken(q, cutoff), q, [], [], TakeOver(Tables(), q), clicks)
      ensures NoCollision(batches, [], TakeOver(Tables(), q))
      ensures forall random :: Drawn(batches, TakeOver(Tables(), q), random, 0)
      ensures Taken(q, cutoff).clicks == clicks
    {
      var rows := TakeOver(Tables(), q);
      assert rows == TakeOver(State(), q);
      forall i | 0 <= i < |batches| ensures HasId(rows, batches[i].chargeId) {
        assert rows[i].chargeId == batches[i].chargeId;
      }
    }

    lemma ClaimsFit(q: nat, cutoff: int, groups: seq<seq<ClickId>>, chosen: seq<seq<ClickId>>, chargeIds: seq<nat>,
                    rows: seq<Batch>, work: map<ClickId, Click>)
      requires q < |runs| && |chosen| == |chargeIds|
      requires Claimed(Taken(q, cutoff), q, chosen, chargeIds, rows, work) && NoCollision(batches, chargeIds, rows)
      requires forall k :: 0 <= k < |groups| ==> Reservable(clicks, groups[k])
      requires forall g :: g in chosen ==> g in groups
      requires forall j, k, c :: 0 <= j < k < |chosen| && c in chosen[j] ==> c !in chosen[k]
      ensures CanReserve(State(), q, chosen, chargeIds) && StepFits(State(), Reserve(q, cutoff, chosen, chargeIds))
      ensures forall g :: g in chosen ==> |g| > 0 && Known(Taken(q, cutoff).clicks, g)
      ensures rows == AddGroups(Taken(q, cutoff), q, chosen, chargeIds).batches
              && work == AddGroups(Taken(q, cutoff), q, chosen, chargeIds).clicks
    {
      hide AddGroups, Reservable, Before;
      ReservableAreKnown(clicks, groups);
    }

    /**
     The reservation transaction. A charge id that is already taken violates the unique index
     and undoes everything.
     */
    method ReserveRun(q: nat, intervalMinutes: nat, clickThreshold: nat, now: int, random: nat -> nat)
      returns (error: Option<Code>, ghost ids: seq<ClickId>, ghost groups: seq<seq<ClickId>>, ghost chargeIds: seq<nat>)
      requires Valid() && q < |runs|
      modifies this`clicks, this`batches, this`runs, this`log
      ensures Valid() && old(log) <= log && OnlyReserved()
      ensures error.Some? ==> log == old(log) && batches == old(batches) && clicks == old(clicks) && runs == old(runs)
      ensures forall c :: c in ids <==> c in old(clicks) && old(Eligible(clicks[c], Cutoff(q, now)))
      ensures Known(old(clicks), ids) && Ordered(old(clicks), ids) && Grouping.IsGrouping(old(clicks), ids, groups)
      ensures forall g :: g in groups ==> Known(old(clicks), g)
      ensures error.None? ==>
        var chosen := Chosen(old(clicks), groups, old(runs[q].trigger.Manual?), intervalMinutes, clickThreshold, now);
        var e := Reserve(q, old(Cutoff(q, now)), chosen, chargeIds);
        log == old(log) + [e] && StepFits(old(State()), e) && State() == Next(old(State()), e)
      ensures error.None? ==>
        ChargeReservation.Reserves(old(State()), State(), q, old(Cutoff(q, now)),
          Chosen(old(clicks), groups, old(runs[q].trigger.Manual?), intervalMinutes, clickThreshold, now), chargeIds)
      ensures forall g ::
        g in Chosen(old(clicks), groups, old(runs[q].trigger.Manual?), intervalMinutes, clickThreshold, now) <==>
        && g in groups
        && (old(runs[q].trigger.Manual?)
            || Grouping.ChargeGroupDue(old(clicks), g, intervalMinutes, clickThreshold, now))
      ensures error.Some? ==> Repeats(old(batches), random, |groups|)
      ensures error.None? && old(runs[q].trigger).Manual? ==>
        forall c :: c in ids ==> c in clicks && clicks[c].batch.Some?
    {
      hide Legal, After, Timely, ChargeClock, LedgerInv, Next, StepFits, Chosen;
      var cutoff := Cutoff(q, now);
      var found := FindPending(cutoff);
      var grouped := Grouping.Groups(clicks, found);
      Grouping.GroupsAreReservable(clicks, found, grouped);
      ids, groups := found, grouped;
      ChosenIsPart(clicks, groups, runs[q].trigger.Manual?, intervalMinutes, clickThreshold, now);
      ghost var chosen;
      var rows, work, ok;
      rows, work, chosen, chargeIds, ok :=
        ClaimGroups(q, grouped, intervalMinutes, clickThreshold, now, random, cutoff);
      if !ok {
        return Some(OtherCode), ids, groups, chargeIds;
      }
      CommitReserve(q, cutoff, rows, work, chosen, chargeIds);
      if old(runs[q].trigger).Manual? {
        ManualChoosesAll(old(clicks), groups, intervalMinutes, clickThreshold, now);
        forall c | c in ids ensures c in clicks && clicks[c].batch.Some? {
          EveryClickHasAGroup(old(clicks), ids, groups, c);
          AddGroupsClaim(old(Taken(q, cutoff)), q, groups, chargeIds, c);
        }
      }
      error := None;
    }

    function Cutoff(q: nat, now: int): int
      requires q < |runs|
      reads this
    {
      if runs[q].startedAt.Some? then runs[q].startedAt.value else now
    }

    method CommitReserve(q: nat, cutoff: int, rows: seq<Batch>, work: map<ClickId, Click>,
                         ghost chosen: seq<seq<ClickId>>, ghost chargeIds: seq<nat>)
      requires Valid() && CanReserve(State(), q, chosen, chargeIds)
      requires StepFits(State(), Reserve(q, cutoff, chosen, chargeIds))
      requires rows == AddGroups(Taken(q, cutoff), q, chosen, chargeIds).batches
      requires work == AddGroups(Taken(q, cutoff), q, chosen, chargeIds).clicks
      modifies this`clicks, this`batches, this`runs, this`log
      ensures Valid() && log == old(log) + [Reserve(q, cutoff, chosen, chargeIds)] && OnlyReserved()
      ensures clicks == work
      ensures StepFits(old(State()), Reserve(q, cutoff, chosen, chargeIds))
              && State() == Next(old(State()), Reserve(q, cutoff, chosen, chargeIds))
      ensures ChargeReservation.Reserves(old(State()), State(), q, cutoff, chosen, chargeIds)
    {
      hide Legal, After, Timely, ChargeClock, LedgerInv, SeenInv, AddGroups, TakeOver, ReservedRows, CanReserve;
      ghost var e := Reserve(q, cutoff, chosen, chargeIds);
      Fits(e);
      ClaimedRows(State(), Taken(q, cutoff), q, chosen, chargeIds);
      hide AddGroups, TakeOver, ReservedRows;
      batches, clicks := rows, work;
      runs := runs[q := StartedRun(runs[q], cutoff)];
      log := log + [e];
      Took(e);
      ChargeReservation.ReservationReserves(old(State()), q, cutoff, chosen, chargeIds);
    }

    // ---- the job -----------------------------------------------------------------------------

    /** Opens the pass: its final hash is the first thing it reads. */
    method BeginPass(newHead: nat) returns (hash: Rpc<Hash>)
      requires Valid()
      modifies this`head, this`passStart, this`reverted, this`log, chain
      ensures Valid() && old(log) <= log && old(chain.tips) <= chain.tips
      ensures hash.Lost? ==> head == old(head) && reverted == old(reverted)
      ensures hash.Got? ==>
        && InPass() && head == newHead && reverted == map[]
        && CanonicalAt(hash.value, chain.tips, passStart) && Height(hash.value) == FinalBlock(Tables())
        && (forall i :: i in seen ==> seen[i] <= passStart)
      ensures var v := View(chain.blockHashes, newHead, confirmations);
        if NewestFinal(v) in v.known then hash == Got(v.known[NewestFinal(v)]) else hash.Lost?
    {
      hide Legal, After, Timely, ChargeClock, LedgerInv, BatchOk, NoRevival;
      var finalized := if newHead >= confirmations then newHead - confirmations else 0;
      Holds();
      ClocksArePast(confirmations, log, chain.tips);
      ghost var tips := chain.tips;
      hash := chain.Open(finalized);
      LegalGrows(confirmations, log, tips, chain.tips);
      if hash.Got? {
        StartPass(newHead);
      }
    }

    method StartPass(newHead: nat)
      requires Valid() && Enabled(State(), Step.BeginPass(newHead, chain.since), chain.tips) && chain.since >= Clock()
      modifies this`head, this`passStart, this`reverted, this`log
      ensures InPass() && log == old(log) + [Step.BeginPass(newHead, chain.since)]
      ensures head == newHead && passStart == chain.since && reverted == map[]
    {
      hide Legal, After, Timely, ChargeClock, LedgerInv, SeenInv, Valid, Enabled;
      ghost var e := Step.BeginPass(newHead, chain.since);
      Fits(e);
      head, passStart, reverted := newHead, chain.since, map[];
      log := log + [e];
      Took(e);
    }

    /** The positions of the batches that the pass looks at. */
    method FindScan(previousCanonical: bool) returns (ids: seq<nat>)
      requires previousCanonical ==> checkpoint.Some?
      ensures forall k :: 0 <= k < |ids| ==> ids[k] < |batches|
      ensures forall i, j :: 0 <= i < j < |ids| ==> ids[i] < ids[j]
      ensures forall i :: 0 <= i < |batches| ==>
        (i in ids <==> if previousCanonical then InIncrementalScan(State(), i) else InFullScan(batches[i]))
    {
      ids := [];
      var n := 0;
      while n < |batches|
        invariant n <= |batches|
        invariant forall k :: 0 <= k < |ids| ==> ids[k] < n
        invariant forall i, j :: 0 <= i < j < |ids| ==> ids[i] < ids[j]
        invariant forall i :: 0 <= i < n ==>
          (i in ids <==> if previousCanonical then InIncrementalScan(State(), i) else InFullScan(batches[i]))
      {
        var b := batches[n];
        if InFlight(b.status) || b.status.Failed? ||
           (Terminal(b.status) &&
            (!previousCanonical || b.receiptNumber.None? || b.receiptNumber.value > checkpoint.value.number))
        {
          ids := ids + [n];
        }
        n := n + 1;
      }
    }

    twostate predicate BytesKept()
      reads this
    {
      |batches| == |old(batches)| && forall i :: 0 <= i < |batches| ==> batches[i].tx == old(batches[i].tx)
    }

    /** One turn of the reconciliation loop. */
    method ReconcileNext(i: nat, a: Answers, now: int, ghost start: System, ghost done: seq<nat>)
      returns (r: Outcome, runId: nat, ghost turn: Turn)
      requires InPass() && i < |batches| && i !in done && Passed(start, State(), done)
      requires forall j :: j in start.seen ==> start.seen[j] <= start.passStart
      modifies this`batches, this`clicks, this`runs, this`publications, this`held, this`seen, this`reverted, this`log,
        this`sends, chain
      ensures InPass() && old(log) <= log && chain.MovedOn()
      ensures Passed(start, State(), done + [i]) && |batches| == |old(batches)| && runId < |runs|
      ensures runId == old(batches[i]).runId && turn.outcome == r
      ensures ReconcileTurn(old(batches[i]), batches[i], a, now, turn)
      ensures turn.view == Reading() && turn.unproved == Unproved(Reading(), old(clicks), old(batches[i]).members)
      ensures forall j :: 0 <= j < |batches| && j != i ==> batches[j] == old(batches[j])
      ensures !r.Threw? ==> HandledIn(State(), i)
      ensures forall j :: j in done && HandledIn(old(State()), j) ==> HandledIn(State(), j)
    {
      hide Legal, After, Timely, ChargeClock, LedgerInv, Enabled, SeenInv, Valid, Unproved, Ahead, Reconciles, OnlyRow,
           Passed, KeptProofs;
      SeenBeforePass(i);
      NotYetSeen(start, State(), done, i);
      Row(i);
      runId := batches[i].runId;
      ghost var before := State();
      r := ReconcileChargeBatch(i, a, now);
      turn := Turn(Reading(), Unproved(Reading(), old(clicks), old(batches[i]).members),
                   old(batches[i]).tx.Some? && Ahead(old(batches), i, old(batches[i]).tx.value.signer, a), None,
                   batches[i], r);
      RowsBesides(before, State(), i);
      PassedByRow(before, State(), i);
      PassedOneMore(start, before, State(), done, i);
    }

    /** The reconciliation loop; an exception ends it. */
    method ReconcileAll(ids: seq<nat>, answers: nat -> Answers, now: int)
      returns (blocked: Option<Code>, waiting: bool, ranIds: seq<nat>, ghost turns: seq<Turn>)
      requires InPass()
      requires forall k :: 0 <= k < |ids| ==> ids[k] < |batches|
      requires forall i, j :: 0 <= i < j < |ids| ==> ids[i] < ids[j]
      requires forall i :: i in seen ==> seen[i] <= passStart
      modifies this`batches, this`clicks, this`runs, this`publications, this`held, this`seen, this`reverted, this`log,
        this`sends, chain
      ensures InPass() && old(log) <= log && chain.MovedOn()
      ensures exists n :: 0 <= n <= |ids| && Passed(old(State()), State(), ids[..n])
      ensures blocked.None? ==> Passed(old(State()), State(), ids) && forall k :: 0 <= k < |ids| ==>
        HandledIn(State(), ids[k])
      ensures forall q :: q in ranIds ==> q < |runs|
      ensures ReconciledAll(old(batches), batches, ids, answers, now, turns)
      ensures forall i :: 0 <= i < |batches| && i !in ids ==> batches[i] == old(batches[i])
      ensures StopsAtException(ids, turns, blocked) && (waiting <==> SomeWaits(turns))
      ensures |turns| <= |ids| && RunsOf(old(batches), ids, turns, ranIds)
    {
      hide Legal, After, Timely, ChargeClock, LedgerInv, Enabled, SeenInv, Valid, Passed, HandledIn, ReconciledAll,
           SomeWaits, NoneThrew, Unproved, ReconcileTurn, RunsOf, SoFar, StopsAtException, OnlyRow;
      blocked, waiting, ranIds, turns := None, false, [], [];
      ghost var start := State();
      NothingPassed(start);
      NothingReconciled(batches, ids, answers, now);
      var n := 0;
      while n < |ids|
        invariant n <= |ids| && InPass() && old(log) <= log && |batches| == |old(batches)|
        invariant chain.MovedOn()
        invariant Passed(start, State(), ids[..n])
        invariant forall k :: 0 <= k < n ==> HandledIn(State(), ids[k])
        invariant |runs| == |start.runs| && forall q :: q in ranIds ==> q < |runs|
        invariant |turns| == n && NoneThrew(turns)
        invariant SoFar(old(batches), batches, ids, answers, now, turns, waiting, ranIds)
      {
        assert ids[..n + 1] == ids[..n] + [ids[n]] && ids[n] !in ids[..n];
        assert forall k :: 0 <= k < n ==> ids[k] in ids[..n];
        ghost var rows := batches;
        ghost var turn;
        var r, runId;
        NotYetTurned(old(batches), batches, ids, answers, now, turns, waiting, ranIds);
        r, runId, turn := ReconcileNext(ids[n], answers(n), now, start, ids[..n]);
        PassedSize(start, State(), ids[..n + 1]);
        TurnReconciled(old(batches), rows, batches, ids, answers, now, turns, turn, waiting, ranIds);
        turns := turns + [turn];
        if r.Threw? {
          blocked := Some(r.code);
          SoFarSays(old(batches), batches, ids, answers, now, turns, waiting, ranIds);
          return;
        }
        waiting := r.Waiting? || waiting;
        ranIds := if runId in ranIds then ranIds else ranIds + [runId];
        n := n + 1;
      }
      assert ids[..n] == ids;
      SoFarSays(old(batches), batches, ids, answers, now, turns, waiting, ranIds);
      AllThrough(ids, turns);
    }

    lemma SeenBeforePass(i: nat)
      requires Valid() && i < |batches|
      ensures HasReceipt(batches[i]) ==> i in seen
    {
      Holds();
      if HasReceipt(batches[i]) {
        assert Witnessed(State(), chain.tips, i, savedAt);
      }
    }

    method SaveCheckpoint(number: nat, hash: Hash, ghost previousAt: Option<nat>)
      requires InPass() && CanSave(State(), chain.tips, number, hash, previousAt)
      modifies this`checkpoint, this`seen, this`savedAt, this`log
      ensures InPass() && log == old(log) + [Step.SaveCheckpoint(number, hash, previousAt)]
      ensures checkpoint == Some(Checkpoint(number, hash))
    {
      hide Legal, After, Timely, ChargeClock, LedgerInv, SeenInv, CanSave;
      ghost var e := Step.SaveCheckpoint(number, hash, previousAt);
      Fits(e);
      ghost var after := Next(State(), e);
      SaveKeepsTimes(State(), number, hash, previousAt, chain.tips);
      checkpoint := Some(Checkpoint(number, hash));
      seen, savedAt := after.seen, after.savedAt;
      log := log + [e];
      Took(e);
    }

    /** The saved checkpoint is final and still canonical. */
    method CheckPrevious() returns (canonical: Rpc<bool>, ghost at: nat)
      requires InPass()
      modifies this`clicks, this`publications, this`held, this`log, chain
      ensures InPass() && old(log) <= log && chain.MovedOn()
      ensures canonical == Got(true) ==>
        checkpoint.Some? && passStart <= at && CanonicalAt(checkpoint.value.hash, chain.tips, at)
      ensures canonical.Got? ==> canonical.value == PreviousStands(Reading(), checkpoint)
      ensures canonical.Lost? <==>
        && checkpoint.Some? && checkpoint.value.number <= NewestFinal(Reading())
        && checkpoint.value.number !in chain.blockHashes
    {
      at := passStart;
      if checkpoint.None? || checkpoint.value.number > FinalBlock(Tables()) {
        return Got(false), at;
      }
      var hash;
      hash, at := Hash(checkpoint.value.number);
      return if hash.Lost? then Lost else Got(hash.value == checkpoint.value.hash), at;
    }

    /** Each failed batch was found reverted in this pass, so it may be signed again. */
    ghost predicate FailuresSeen()
      reads this
    {
      AllFailuresSeen(State())
    }

    /**
     The first half of the job. When nothing throws, every settled receipt was either looked at
     or lies behind the old checkpoint, and the new checkpoint is saved.
     */
    method ReconcilePass(input: JobInput)
      returns (blocked: Option<Code>, waiting: bool, ranIds: seq<nat>, ghost scan: Scan)
      requires Valid()
      modifies this, chain
      ensures Valid() && old(log) <= log && BytesKept() && |runs| == |old(runs)|
      ensures forall q :: q in ranIds ==> q < |runs|
      ensures blocked.None? ==>
        && InPass() && FailuresSeen()
        && checkpoint.Some? && checkpoint.value.number == FinalBlock(Tables())
        && CanonicalAt(checkpoint.value.hash, chain.tips, passStart)
      ensures blocked.Some? ==> checkpoint == old(checkpoint)
      ensures scan.NotBegun? ==> blocked == Some(RpcUnavailable) && batches == old(batches) && !waiting
      ensures scan.NotBegun? <==>
        input.head.Lost? || CannotBegin(View(chain.blockHashes, input.head.value, confirmations), old(checkpoint))
      ensures scan.Begun? ==> head == input.head.value && scan.canonical == PreviousStands(Reading(), old(checkpoint))
      ensures scan.Begun? ==> Scanned(old(State()), batches, input, scan, blocked, waiting)
      ensures blocked.None? <==> scan.Begun? && NoneThrew(scan.turns)
      ensures if scan.Begun? then |scan.turns| <= |scan.ids| && RunsOf(old(batches), scan.ids, scan.turns, ranIds)
              else ranIds == []
    {
      hide Legal, After, Timely, ChargeClock, LedgerInv, Enabled, SeenInv, Valid, BatchOk, HandledIn, InFullScan,
           InIncrementalScan, NoRevival, Scanned, NoneThrew, RunsOf;
      blocked, waiting, ranIds, scan := Some(RpcUnavailable), false, [], NotBegun;
      if input.head.Lost? {
        return;
      }
      var hash := BeginPass(input.head.value);
      if hash.Lost? {
        return;
      }
      var canonical, at := CheckPrevious();
      if canonical.Lost? {
        return;
      }
      ghost var mid := State();
      blocked, waiting, ranIds, scan := ScanAndSave(canonical.value, at, hash.value, input);
      SameScan(mid, old(State()), batches, input, scan, blocked, waiting);
    }

    /** The scan, and the new checkpoint when nothing throws. */
    method ScanAndSave(canonical: bool, ghost at: nat, hash: Hash, input: JobInput)
      returns (blocked: Option<Code>, waiting: bool, ranIds: seq<nat>, ghost scan: Scan)
      requires InPass() && (forall i :: i in seen ==> seen[i] <= passStart)
      requires canonical ==>
        checkpoint.Some? && passStart <= at && CanonicalAt(checkpoint.value.hash, chain.tips, at)
      requires CanonicalAt(hash, chain.tips, passStart) && Height(hash) == FinalBlock(Tables())
      modifies this`batches, this`clicks, this`runs, this`publications, this`held, this`seen, this`reverted, this`log,
        this`sends, this`checkpoint, this`savedAt, chain
      ensures InPass() && old(log) <= log && BytesKept() && |runs| == |old(runs)|
      ensures chain.MovedOn() && passStart == old(passStart) && head == old(head)
      ensures scan.Begun? && scan.canonical == canonical
      ensures Scanned(old(State()), batches, input, scan, blocked, waiting)
      ensures blocked.None? <==> NoneThrew(scan.turns)
      ensures forall q :: q in ranIds ==> q < |runs|
      ensures |scan.turns| <= |scan.ids| && RunsOf(old(batches), scan.ids, scan.turns, ranIds)
      ensures blocked.None? ==> FailuresSeen() && checkpoint == Some(Checkpoint(FinalBlock(Tables()), hash))
      ensures blocked.Some? ==> checkpoint == old(checkpoint)
    {
      hide Legal, After, Timely, ChargeClock, LedgerInv, Enabled, SeenInv, Valid, BatchOk, HandledIn, InFullScan,
           InIncrementalScan, NoRevival, ReconciledAll, StopsAtException, SomeWaits, NoneThrew, RunsOf;
      var ids := FindScan(canonical);
      ghost var s := State();
      ghost var turns;
      blocked, waiting, ranIds, turns := ReconcileAll(ids, input.reconcile, input.now);
      scan := Begun(canonical, ids, turns);
      StopsIffThrew(ids, turns, blocked);
      if blocked.None? {
        AllAccountedFor(s, State(), ids, canonical);
        ghost var previousAt := if canonical then Some(at) else None;
        ReceiptsAreWhole();
        SaveCheckpoint(FinalBlock(Tables()), hash, previousAt);
      }
    }

    lemma ReceiptsAreWhole()
      requires Valid()
      ensures forall i :: 0 <= i < |batches| && Terminal(batches[i].status) && batches[i].receiptHash.Some? ==>
        HasReceipt(batches[i])
    {
      forall i | 0 <= i < |batches| ensures batches[i].receiptHash.Some? == batches[i].receiptNumber.Some? {
        Row(i);
      }
    }

    // ---- preparing and sending ---------------------------------------------------------------

    predicate Unsent(i: nat, q: nat)
      requires i < |batches|
      reads this
    {
      batches[i].runId == q && (batches[i].status.Prepared? || batches[i].status.Failed?)
    }

    method FindUnsent(q: nat) returns (ids: seq<nat>)
      ensures forall k :: 0 <= k < |ids| ==> ids[k] < |batches| && Unsent(ids[k], q)
      ensures forall i :: 0 <= i < |batches| && Unsent(i, q) ==> i in ids
      ensures forall i, j :: 0 <= i < j < |ids| ==> ids[i] < ids[j]
    {
      ids := [];
      var n := 0;
      while n < |batches|
        invariant n <= |batches|
        invariant forall k :: 0 <= k < |ids| ==> ids[k] < n && Unsent(ids[k], q)
        invariant forall i :: 0 <= i < n && Unsent(i, q) ==> i in ids
        invariant forall i, j :: 0 <= i < j < |ids| ==> ids[i] < ids[j]
      {
        if Unsent(n, q) {
          ids := ids + [n];
        }
        n := n + 1;
      }
    }

    /** Prepares one batch; an exception is noted on its row. */
    method PrepareNext(i: nat, input: JobInput) returns (r: Outcome, ghost turn: Turn)
      requires InPass() && FailuresSeen() && i < |batches| && (batches[i].status.Prepared? || batches[i].status.Failed?)
      modifies this`batches, this`clicks, this`runs, this`publications, this`held, this`seen, this`reverted, this`log,
        this`sends, this`giveUps, chain
      ensures InPass() && FailuresSeen() && OnlyBatch(i) && turn.outcome == r
      ensures PrepareTurn(old(batches[i]), batches[i], input.prepare(i), input.signer, input.now, turn)
      ensures turn.view == Reading() && turn.unproved == Unproved(Reading(), old(clicks), old(batches[i]).members)
    {
      hide Legal, After, Timely, ChargeClock, LedgerInv, Enabled, SeenInv, Valid, Unproved, Prepares, OnlyRow,
           AllFailuresSeen, Ahead, ReconcilesSigned;
      SeenFailure(State(), i);
      ghost var refusal;
      r, refusal := PrepareBatch(i, input.prepare(i), input.signer, input.now);
      ghost var mid := State();
      turn := Turn(Reading(), Unproved(Reading(), old(clicks), old(batches[i]).members),
                   Ahead(old(batches), i, input.signer, input.prepare(i).afterwards), refusal, batches[i], r);
      SameRows(mid, i);
      if r.Threw? {
        NoteError(i, r.code);
      }
      OnlyRowAgain(old(State()), mid, State(), i);
      FailuresKept(old(State()), State(), i);
    }

    /** Signs and sends the unsent batches of a run until one has to be waited for. */
    method PrepareAll(q: nat, ids: seq<nat>, input: JobInput, alreadyWaiting: bool)
      returns (waiting: bool, failure: Option<Code>, ghost turns: seq<Turn>, ghost reached: nat)
      requires InPass() && FailuresSeen() && q < |runs|
      requires forall k :: 0 <= k < |ids| ==> ids[k] < |batches| && Unsent(ids[k], q)
      requires forall i, j :: 0 <= i < j < |ids| ==> ids[i] < ids[j]
      modifies this`batches, this`clicks, this`runs, this`publications, this`held, this`seen, this`reverted, this`log,
        this`sends, this`giveUps, chain
      ensures InPass() && FailuresSeen() && old(log) <= log && SamePass() && |batches| == |old(batches)|
      ensures PreparedInOrder(old(batches), batches, ids, reached, turns, input, alreadyWaiting, waiting, failure)
      ensures EndsWhenItMust(ids, reached, turns, input, old(runs[q].trigger), alreadyWaiting)
      ensures StillWanted(old(batches), ids, reached, input, old(runs[q].trigger))
    {
      hide Legal, After, Timely, ChargeClock, LedgerInv, Enabled, SeenInv, Valid, AllFailuresSeen, OnlyRow,
           PrepareTurn, PreparedInOrder, NoneEnds, SomeWaits, LastCode, KeptProofs, Unproved, EndsWhenItMust, Ends,
           StillWanted;
      waiting, failure, turns, reached := alreadyWaiting, None, [], 0;
      var n := 0;
      NothingPrepared(batches, ids, input, alreadyWaiting);
      NoneWanted(batches, ids, input, runs[q].trigger);
      while n < |ids|
        invariant n == reached <= |ids| && InPass() && FailuresSeen() && old(log) <= log && SamePass()
        invariant |batches| == |old(batches)|
        invariant forall k :: n <= k < |ids| ==> batches[ids[k]] == old(batches)[ids[k]]
        invariant PreparedInOrder(old(batches), batches, ids, n, turns, input, alreadyWaiting, waiting, failure)
        invariant NoneEnds(turns, alreadyWaiting)
        invariant StillWanted(old(batches), ids, n, input, runs[q].trigger)
      {
        var i := ids[n];
        if batches[i].nextAttemptAt.Some? && batches[i].nextAttemptAt.value > input.now {
          NotDueYet(old(batches), batches, ids, n, turns, input, alreadyWaiting, waiting, failure);
          WantedToo(old(batches), ids, n, input, runs[q].trigger);
          n, reached := n + 1, reached + 1;
          continue;
        }
        if runs[q].trigger.Auto? && !input.stillAutomatic(n + 1) {
          LoopLeft(ids, n, turns, input, runs[q].trigger, alreadyWaiting);
          return;
        }
        WantedToo(old(batches), ids, n, input, runs[q].trigger);
        ghost var mid := State();
        ghost var turn;
        var r;
        r, turn := PrepareNext(i, input);
        RowsBesides(mid, State(), i);
        TurnTaken(old(batches), mid.batches, batches, ids, n, turns, input, alreadyWaiting, waiting, failure, turn);
        TurnEnds(ids, n + 1, turns, turn, input, old(runs[q].trigger), alreadyWaiting);
        NoWaiting(old(batches), mid.batches, ids, n, turns, input, alreadyWaiting, waiting, failure);
        n, reached, turns := n + 1, reached + 1, turns + [turn];
        if r.Threw? {
          failure := Some(r.code);
          if r.code != CaptureProofOrphaned {
            return;
          }
        } else {
          waiting := r.Waiting? || waiting;
          if waiting {
            return;
          }
        }
      }
      LoopLeft(ids, n, turns, input, runs[q].trigger, alreadyWaiting);
    }

    /** The automatic runs whose unsent batches a manual run takes. */
    method FindTransferred(q: nat) returns (autos: seq<nat>)
      requires q < |runs|
      ensures forall k: nat :: k in autos <==>
        k < |runs| && runs[q].trigger.Manual? && runs[k].trigger.Auto? && Recoverable(runs[k].status)
    {
      autos := [];
      var n := 0;
      while n < |runs|
        invariant n <= |runs|
        invariant forall k: nat :: k in autos <==>
          k < n && runs[q].trigger.Manual? && runs[k].trigger.Auto? && Recoverable(runs[k].status)
      {
        if runs[q].trigger.Manual? && runs[n].trigger.Auto? && Recoverable(runs[n].status) {
          autos := autos + [n];
        }
        n := n + 1;
      }
    }

    method RefreshRuns(ids: seq<nat>, now: int)
      requires Valid() && forall q :: q in ids ==> q < |runs|
      modifies this`runs, this`log
      ensures Valid() && log == old(log) + Refreshes(ids, now)
      ensures |runs| == |old(runs)| && forall k :: 0 <= k < |runs| ==> runs[k].trigger == old(runs[k].trigger)
    {
      hide Legal, After, Timely, ChargeClock, LedgerInv, Enabled;
      var n := 0;
      while n < |ids|
        invariant n <= |ids| && Valid() && log == old(log) + Refreshes(ids, now)[..n]
        invariant |runs| == |old(runs)| && forall k :: 0 <= k < |runs| ==> runs[k].trigger == old(runs[k].trigger)
      {
        assert ids[n] in ids;
        assert Refreshes(ids, now)[..n + 1] == Refreshes(ids, now)[..n] + [Refresh(ids[n], now, None)];
        RefreshRun(ids[n], now, None);
        n := n + 1;
      }
    }

    /** The reservation of a run, after which the runs that lost batches to it are refreshed. */
    method Claim(q: nat, input: JobInput) returns (crashed: bool, ghost e: Step, ghost autos: seq<nat>)
      requires InPass() && FailuresSeen() && q < |runs|
      modifies this`clicks, this`batches, this`runs, this`log
      ensures InPass() && FailuresSeen()
      ensures |runs| == |old(runs)| && forall k :: 0 <= k < |runs| ==> runs[k].trigger == old(runs[k].trigger)
      ensures crashed ==> batches == old(batches) && log == old(log) && Collides(old(batches), Draws(input, q))
      ensures !crashed ==>
        && log == old(log) + [e] + Refreshes(autos, input.now) && LoseTo(old(State()), q, autos)
        && StepFits(old(State()), e) && batches == Next(old(State()), e).batches && ReservedRows(old(batches), batches)
        && exists pending, groups :: DueReservation(old(State()), e, q, input, pending, groups)
    {
      hide Legal, After, Timely, ChargeClock, LedgerInv, Enabled, Valid, SeenInv, ReservedRows, AllFailuresSeen, Next,
           StepFits, Repeats, Chosen, ChargeReservation.Reserves, Recoverable, Ordered, Grouping.IsGrouping,
           Grouping.ChargeGroupDue, Known;
      crashed, e, autos := false, Step.OpenRun(Auto), [];
      var losing := FindTransferred(q);
      var error, pending, groups, drawn :=
        ReserveRun(q, input.intervalMinutes, input.clickThreshold, input.now, Draws(input, q));
      if error.Some? {
        return true, e, autos;
      }
      e, autos := log[|old(log)|], losing;
      assert DueReservation(old(State()), e, q, input, pending, groups);
      RefreshRuns(losing, input.now);
      ReservedFailuresSeen(old(State()), State());
    }

    /** One run of the second half; an exception of the reservation ends the job. */
    method ProcessRun(q: nat, input: JobInput, alreadyWaiting: bool)
      returns (waiting: bool, failure: Option<Code>, crashed: bool)
      requires InPass() && FailuresSeen() && q < |runs|
      modifies this`batches, this`clicks, this`runs, this`publications, this`held, this`seen, this`reverted, this`log,
        this`sends, this`giveUps, chain
      ensures InPass() && FailuresSeen() && old(log) <= log
      ensures |runs| == |old(runs)| && forall k :: 0 <= k < |runs| ==> runs[k].trigger == old(runs[k].trigger)
      ensures alreadyWaiting ==> waiting
      ensures crashed ==> batches == old(batches) && log == old(log) && waiting == alreadyWaiting
      ensures crashed ==> Collides(old(batches), Draws(input, q))
      ensures !crashed ==>
        ServedBy(old(State()), State(), log[|old(log)|..], q, input, alreadyWaiting, waiting, failure)
    {
      hide Legal, After, Timely, ChargeClock, LedgerInv, Enabled, Valid, SeenInv, PreparedInOrder, EndsWhenItMust,
           ReservedRows, AllFailuresSeen, ServedBy, Next, StepFits, Collides, DueReservation, LoseTo, Refreshes;
      waiting, failure, crashed := alreadyWaiting, None, false;
      ghost var e, autos;
      crashed, e, autos := Claim(q, input);
      if crashed {
        return;
      }
      ghost var begun, rows := log, batches;
      var ids := FindUnsent(q);
      ghost var turns, n;
      waiting, failure, turns, n := PrepareAll(q, ids, input, waiting);
      WaitsOn(rows, batches, ids, n, turns, input, alreadyWaiting, waiting, failure);
      ghost var mid := State();
      RefreshRun(q, input.now, failure);
      FailuresStay(mid, State());
      ghost var steps := log[|old(log)|..];
      assert [e] + Refreshes(autos, input.now) == begun[|old(log)|..];
      assert steps[..|begun| - |old(log)|] == begun[|old(log)|..];
      RunIsServed(old(State()), State(), steps, autos, rows, ids, turns, n, q, input, alreadyWaiting, waiting, failure);
    }

    /** The runs the job works on, in creation order. */
    method FindRuns(runId: Option<nat>) returns (ids: seq<nat>)
      ensures forall q: nat :: q in ids <==>
        q < |runs| && Recoverable(runs[q].status) && (runId.None? || runId == Some(q))
      ensures forall i, j :: 0 <= i < j < |ids| ==> ids[i] < ids[j]
    {
      ids := [];
      var n := 0;
      while n < |runs|
        invariant n <= |runs|
        invariant forall q: nat :: q in ids <==>
          q < n && Recoverable(runs[q].status) && (runId.None? || runId == Some(q))
        invariant forall i :: 0 <= i < |ids| ==> ids[i] < n
        invariant forall i, j :: 0 <= i < j < |ids| ==> ids[i] < ids[j]
      {
        if Recoverable(runs[n].status) && (runId.None? || runId == Some(n)) {
          ids := ids + [n];
        }
        n := n + 1;
      }
    }

    /** Some group of pending debt, final or not, is due. */
    method SomeGroupDue(input: JobInput) returns (due: bool)
      requires Valid()
      ensures SomeStakeIs(due, clicks, input)
    {
      var ids := Grouping.FindOrdered(clicks, set c | c in clicks && clicks[c].status.Pending? &&
                                      clicks[c].batch.None?);
      var groups := Grouping.Groups(clicks, ids);
      assert PendingDebt(clicks, ids, groups);
      due := exists g ::
        g in groups && Grouping.ChargeGroupDue(clicks, g, input.intervalMinutes, input.clickThreshold, input.now);
    }

    /** What the job does about one run: nothing, or stop it, or serve it. */
    method ActOn(q: nat, input: JobInput, stop: Option<Code>, alreadyWaiting: bool)
      returns (blocked: Option<Code>, waiting: bool, crashed: bool, ghost act: Act)
      requires Valid() && (stop.None? ==> InPass() && FailuresSeen()) && q < |runs|
      modifies this`batches, this`clicks, this`runs, this`publications, this`held, this`seen, this`reverted, this`log,
        this`sends, this`giveUps, chain
      ensures Valid() && (blocked.None? ==> InPass() && FailuresSeen()) && old(log) <= log
      ensures |runs| == |old(runs)| && forall k :: 0 <= k < |runs| ==> runs[k].trigger == old(runs[k].trigger)
      ensures Acted(confirmations, log, |old(log)|, q, runs[q].trigger, input, act) && (crashed <==> act.Crashed?)
      ensures blocked == (if FailedHard(act) then act.failure else stop)
      ensures waiting == if act.Ran? then act.waiting else alreadyWaiting
      ensures act.Skipped? <==> runs[q].trigger.Auto? && !input.automaticEnabled
      ensures act.Stopped? ==> stop == Some(act.code)
      ensures act.Ran? || act.Crashed? ==> stop.None?
      ensures act.Ran? ==> act.already == alreadyWaiting && (alreadyWaiting ==> act.waiting)
      ensures stop.Some? ==> batches == old(batches)
      ensures stop.Some? ==>
        runs == if act.Skipped? then old(runs) else old(runs)[q := old(runs[q]).(status := Blocked, error := stop)]
    {
      hide Legal, After, Timely, ChargeClock, LedgerInv, Enabled, SeenInv, ServedBy, AllFailuresSeen, Collides, Valid;
      blocked, waiting, crashed, act := stop, alreadyWaiting, false, Skipped;
      ghost var before, from := State(), |log|;
      if runs[q].trigger.Auto? && !input.automaticEnabled {
        return;
      }
      if blocked.Some? {
        BlockRun(q, blocked.value);
        act := Stopped(blocked.value, from);
        return;
      }
      Now();
      var failure;
      waiting, failure, crashed := ProcessRun(q, input, waiting);
      act := if crashed then Act.Crashed(from) else Ran(alreadyWaiting, waiting, failure, from, |log|);
      Now();
      assert log[..|log|] == log && log[..from] == old(log);
      if !crashed && failure.Some? && failure.value != WaitingConfirmation && failure.value != CaptureProofOrphaned {
        blocked := failure;
      }
    }

    lemma Now()
      requires Valid()
      ensures State() == After(confirmations, log)
    {
    }

    /** The second half: reserve, sign and send, run by run. */
    method ProcessRuns(ids: seq<nat>, input: JobInput, alreadyBlocked: Option<Code>, alreadyWaiting: bool)
      returns (blocked: Option<Code>, waiting: bool, ghost acts: seq<Act>)
      requires Valid() && (alreadyBlocked.None? ==> InPass() && FailuresSeen())
      requires forall q :: q in ids ==> q < |runs|
      modifies this`batches, this`clicks, this`runs, this`publications, this`held, this`seen, this`reverted, this`log,
        this`sends, this`giveUps, chain
      ensures Valid() && old(log) <= log
      ensures |runs| == |old(runs)| && forall k :: 0 <= k < |runs| ==> runs[k].trigger == old(runs[k].trigger)
      ensures alreadyBlocked.Some? ==> batches == old(batches) && blocked == alreadyBlocked
      ensures alreadyBlocked.Some? ==> AllBlocked(ids, old(runs), runs, input.automaticEnabled, alreadyBlocked.value)
      ensures AllActed(confirmations, log, |old(log)|, ids, runs, input, acts)
      ensures |acts| < |ids| ==> acts != [] && acts[|acts| - 1].Crashed?
      ensures InTurn(acts, alreadyBlocked, alreadyWaiting, blocked, waiting)
    {
      hide Legal, After, Timely, ChargeClock, LedgerInv, Enabled, SeenInv, InTurn, ServedBy, AllFailuresSeen, Collides,
           Valid, AllActed, Acted, AllBlocked, NewBatch, TakeOver, TakenOver, StartedRun, RefreshedRun, ClaimClicks,
           AfterMove, MoveFits, Served, Draws, DueReservation, LoseTo, StoppedBy, AnyWaits, Follows, Refreshes,
           Repeats;
      blocked, waiting, acts := alreadyBlocked, alreadyWaiting, [];
      NobodyActed(confirmations, log, ids, runs, input, alreadyBlocked, alreadyWaiting);
      var n := 0;
      while n < |ids|
        invariant n <= |ids| && Valid() && old(log) <= log
        invariant |runs| == |old(runs)| && forall k :: 0 <= k < |runs| ==> runs[k].trigger == old(runs[k].trigger)
        invariant blocked.None? ==> InPass() && FailuresSeen()
        invariant alreadyBlocked.Some? ==> batches == old(batches) && blocked == alreadyBlocked
        invariant alreadyBlocked.Some? ==>
          AllBlocked(ids[..n], old(runs), runs, input.automaticEnabled, alreadyBlocked.value)
        invariant |acts| == n && AllActed(confirmations, log, |old(log)|, ids, runs, input, acts)
        invariant InTurn(acts, alreadyBlocked, alreadyWaiting, blocked, waiting)
        invariant acts != [] ==> !acts[|acts| - 1].Crashed?
      {
        assert ids[n] in ids && ids[..n + 1] == ids[..n] + [ids[n]];
        ghost var before, rows, stop, was, act := log, runs, blocked, waiting, Skipped;
        var crashed;
        blocked, waiting, crashed, act := ActOn(ids[n], input, blocked, waiting);
        OneActMore(confirmations, before, log, |old(log)|, ids, rows, runs, input, acts, act);
        OneActInTurn(acts, act, alreadyBlocked, alreadyWaiting, stop, was);
        if alreadyBlocked.Some? {
          OneBlockedMore(ids, n, old(runs), rows, runs, input.automaticEnabled, alreadyBlocked.value, act);
        }
        acts, n := acts + [act], n + 1;
        if crashed {
          return;
        }
      }
      assert ids[..n] == ids;
    }

    /** The runs to work on; a new automatic one is opened when none can be used and some debt is due. */
    method ChooseRuns(runId: Option<nat>, input: JobInput, stop: Option<Code>)
      returns (ids: seq<nat>, newRun: bool)
      requires Valid()
      modifies this`runs, this`log
      ensures Valid() && log == old(log) + if newRun then [Step.OpenRun(Auto)] else []
      ensures runs == old(runs) + if newRun then [Run(Auto, Queued, None, None, None)] else []
      ensures RunsChosen(old(State()), runId, input, stop, newRun, ids)
      ensures forall q :: q in ids ==> q < |runs|
      ensures stop.Some? ==> forall q: nat :: q in ids <==>
        q < |runs| && Recoverable(runs[q].status) && (runId.None? || runId == Some(q))
    {
      hide Valid, SomeStakeIs, SomeUsable, Apply, CanonicalAt, NoRevival, Height;
      newRun := false;
      assert runs + [] == runs && log + [] == log;
      ids := FindRuns(runId);
      if runId.None? && input.automaticEnabled && stop.None? {
        var usable := exists k :: 0 <= k < |ids| && ids[k] < |runs|
                        && runs[ids[k]].trigger.Auto? && runs[ids[k]].error != Some(CaptureProofOrphaned);
        UsableIsListed(runs, ids);
        if !usable {
          newRun := SomeGroupDue(input);
        }
      }
      ghost var open := runId.None? && input.automaticEnabled && stop.None? &&
        !SomeUsable(runs);
      assert forall i :: 0 <= i < |ids| ==> ids[i] in ids && ids[i] < |runs|;
      assert newRun ==> open;
      assert open ==> SomeStakeIs(newRun, clicks, input);
      if newRun {
        OpenRun(Auto);
        ids := ids + [|runs| - 1];
      }
      assert forall i, j :: 0 <= i < j < |ids| ==> ids[i] < ids[j];
    }

    /** The second half of the job, with what stops it already. */
    method WorkOnRuns(runId: Option<nat>, input: JobInput, stop: Option<Code>, alreadyWaiting: bool)
      returns (blocked: Option<Code>, waiting: bool, ghost newRun: bool, ghost ids: seq<nat>, ghost acts: seq<Act>)
      requires Valid() && (stop.None? ==> InPass() && FailuresSeen())
      modifies this`batches, this`clicks, this`runs, this`publications, this`held, this`seen, this`reverted, this`log,
        this`sends, this`giveUps, chain
      ensures Valid() && old(log) <= log
      ensures stop.Some? ==> batches == old(batches) && blocked == stop
      ensures stop.Some? ==> forall q: nat :: q < |runs| && IsSelected(runs[q], q, runId, input.automaticEnabled) ==>
        runs[q].status.Blocked? && runs[q].error == stop
      ensures RunsChosen(old(State()), runId, input, stop, newRun, ids)
      ensures newRun ==> |log| > |old(log)| && log[|old(log)|] == Step.OpenRun(Auto)
      ensures AllActed(confirmations, log, |old(log)|, ids, runs, input, acts)
      ensures |acts| < |ids| ==> acts != [] && acts[|acts| - 1].Crashed?
      ensures InTurn(acts, stop, alreadyWaiting, blocked, waiting)
    {
      hide Valid, RunsChosen, AllActed, InTurn, AllFailuresSeen;
      var chosen;
      chosen, newRun := ChooseRuns(runId, input, stop);
      ids := chosen;
      if stop.None? {
        FailuresStay(old(State()), State());
      }
      ghost var start := |log|;
      blocked, waiting, acts := ProcessRuns(chosen, input, stop, alreadyWaiting);
      ActedSince(confirmations, log, |old(log)|, start, ids, runs, input, acts);
    }

    /**
     One job. Whatever the node answers and wherever it stops, what was done is a legal run of
     the protocol. `early` tells that it was blocked before it reserved or signed anything: by
     pricing, by an exception of the reconciliation, or by an unusable wallet. Then no bytes
     change, and each run that the job works on says that it is blocked.
     */
    method ProcessAdChargeJob(runId: Option<nat>, input: JobInput)
      returns (blocked: Option<Code>, waiting: bool, ghost early: bool, ghost scan: Scan, ghost work: Work)
      requires Valid()
      modifies this, chain
      ensures Valid() && old(log) <= log
      ensures early <==> !input.priced || input.operator.Some? || scan.NotBegun? || !NoneThrew(scan.turns)
      ensures input.head.Lost? ==> scan.NotBegun?
      ensures early ==> BytesKept() && blocked.Some?
      ensures early && input.priced ==>
        forall q: nat :: q < |runs| && IsSelected(runs[q], q, runId, input.automaticEnabled) ==>
          runs[q].status.Blocked? && runs[q].error == blocked
      ensures input.priced ==>
        && ScanStops(scan, input.operator, work.stop)
        && RefreshedAfter(scan, old(batches), log, work, input.now)
        && RunsChosen(After(confirmations, log[..work.from]), runId, input, work.stop, work.newRun, work.ids)
        && (work.newRun ==> |log| > work.from && log[work.from] == Step.OpenRun(Auto))
        && AllActed(confirmations, log, work.from, work.ids, runs, input, work.acts)
        && (|work.acts| < |work.ids| ==> work.acts != [] && work.acts[|work.acts| - 1].Crashed?)
        && InTurn(work.acts, work.stop, scan.Begun? && SomeWaits(scan.turns), blocked, waiting)
    {
      hide Legal, After, Timely, ChargeClock, LedgerInv, Enabled, Valid, Scanned, CannotBegin, PreviousStands,
           NewestFinal, NoneThrew, SomeWaits, InTurn, RunsOf, AllActed, RunsChosen, AllFailuresSeen;
      OthersRun();
      ghost var before := State();
      work := Work(0, [], None, false, [], []);
      if !input.priced {
        return Some(OtherCode), false, true, NotBegun, work;
      }
      var ranIds;
      blocked, waiting, ranIds, scan := ReconcilePass(input);
      if scan.Begun? {
        ScanSays(before, batches, input, scan, blocked, waiting);
      }
      if blocked.None? {
        blocked := input.operator;
      }
      early := blocked.Some?;
      ghost var mid := State();
      RefreshRuns(ranIds, input.now);
      if blocked.None? {
        FailuresStay(mid, State());
      }
      Now();
      ghost var done, stop := log, blocked;
      ghost var newRun, ids, acts;
      blocked, waiting, newRun, ids, acts := WorkOnRuns(runId, input, blocked, waiting);
      assert log[..|done|] == done;
      work := Work(|done|, ranIds, stop, newRun, ids, acts);
    }
  }

  /** Everything but the row, evidence and witness of batch `i` and the status of its clicks. */
  ghost predicate OnlyRow(s: System, t: System, i: nat) {
    && |t.batches| == |s.batches|
    && (forall j :: 0 <= j < |s.batches| && j != i ==> t.batches[j] == s.batches[j])
    && (forall j: nat :: j != i ==> SameWitness(s, t, j))
    && SameFrame(s, t) && KeptProofs(s.clicks, t.clicks)
  }

  predicate KeptProofs(clicks: map<ClickId, Click>, after: map<ClickId, Click>) {
    forall c :: c in clicks && clicks[c].batch.Some? ==> c in after && SameProofs(clicks[c], after[c])
  }

  lemma SameRows(s: System, i: nat)
    ensures OnlyRow(s, s, i)
  {
  }

  lemma OnlyRowAgain(s: System, t: System, u: System, i: nat)
    requires OnlyRow(s, t, i) && OnlyRow(t, u, i)
    ensures OnlyRow(s, u, i)
  {
    forall j: nat | j != i ensures SameWitness(s, u, j) {
      assert SameWitness(s, t, j) && SameWitness(t, u, j);
    }
  }

  lemma SameAhead(s: System, t: System, i: nat, signer: Address, a: Answers)
    requires OnlyRow(s, t, i)
    ensures Ahead(t.batches, i, signer, a) == Ahead(s.batches, i, signer, a)
  {
    hide KeptProofs;
  }

  lemma KeptByOnlyRow(s: System, t: System, i: nat)
    requires OnlyRow(s, t, i)
    ensures KeptProofs(s.clicks, t.clicks) && |t.batches| == |s.batches|
    ensures t.head == s.head && t.passStart == s.passStart
  {
  }

  /** Others write neither the rows of the job nor clicks that have a batch. */
  predicate OthersWrote(s: System, t: System) {
    && t == s.(clicks := t.clicks, publications := t.publications, held := t.held)
    && forall c :: c in s.clicks && s.clicks[c].batch.Some? ==> c in t.clicks && t.clicks[c] == s.clicks[c]
  }

  lemma NothingWritten(s: System)
    ensures OthersWrote(s, s)
  {
  }

  lemma OthersWroteAgain(s: System, t: System, u: System)
    requires OthersWrote(s, t) && OthersWrote(t, u)
    ensures OthersWrote(s, u)
  {
  }

  lemma OthersWroteNoRow(s: System, t: System, i: nat)
    requires OthersWrote(s, t)
    ensures OnlyRow(s, t, i)
    ensures forall c :: c in s.clicks && s.clicks[c].batch.Some? ==> c in t.clicks && t.clicks[c] == s.clicks[c]
  {
  }

  predicate SameProofs(a: Click, b: Click) {
    && a.batch == b.batch && a.bidNumber == b.bidNumber && a.bidHash == b.bidHash
    && a.priceNumber == b.priceNumber && a.priceHash == b.priceHash
  }

  lemma MarkKeepsProofs(clicks: map<ClickId, Click>, ids: seq<ClickId>, status: ClickStatus, error: Option<Code>)
    ensures forall c :: c in clicks ==>
      c in Mark(clicks, ids, status, error) && SameProofs(clicks[c], Mark(clicks, ids, status, error)[c])
  {
  }

  lemma SettleKeepsProofs(clicks: map<ClickId, Click>, ids: seq<ClickId>, charged: nat)
    requires Known(clicks, ids)
    ensures forall c :: c in clicks ==>
      c in SettleClicks(clicks, ids, charged) && SameProofs(clicks[c], SettleClicks(clicks, ids, charged)[c])
  {
    hide PaidIds;
  }

  ghost predicate AllFailuresSeen(s: System) {
    forall i :: 0 <= i < |s.batches| && s.batches[i].status.Failed? ==> i in s.reverted
  }

  lemma RowsBesides(s: System, t: System, i: nat)
    requires OnlyRow(s, t, i)
    ensures |t.batches| == |s.batches| && forall j :: 0 <= j < |s.batches| && j != i ==> t.batches[j] == s.batches[j]
    ensures SameFrame(s, t)
  {
  }

  lemma ReservedFailuresSeen(s: System, t: System)
    requires AllFailuresSeen(s) && ReservedRows(s.batches, t.batches) && t.reverted == s.reverted
    ensures AllFailuresSeen(t)
  {
  }

  lemma FailuresStay(s: System, t: System)
    requires AllFailuresSeen(s) && t.batches == s.batches && t.reverted == s.reverted
    ensures AllFailuresSeen(t)
  {
  }

  lemma SeenFailure(s: System, i: nat)
    requires AllFailuresSeen(s) && i < |s.batches|
    ensures s.batches[i].status.Failed? ==> i in s.reverted
  {
  }

  lemma FailuresKept(s: System, t: System, i: nat)
    requires AllFailuresSeen(s) && OnlyRow(s, t, i) && i < |t.batches|
    requires t.batches[i].status.Failed? ==> i in t.reverted
    ensures AllFailuresSeen(t)
  {
    forall j | 0 <= j < |t.batches| && t.batches[j].status.Failed? ensures j in t.reverted {
      assert j != i ==> SameWitness(s, t, j);
    }
  }

  /** The members of a batch lack the same proofs as before. */
  lemma KeepsUnproved(v: View, clicks: map<ClickId, Click>, after: map<ClickId, Click>, members: seq<ClickId>)
    requires KeptProofs(clicks, after)
    requires forall c :: c in members ==> c in clicks && clicks[c].batch.Some?
    ensures Unproved(v, after, members) == Unproved(v, clicks, members)
  {
    hide Unproved;
    SameUnproved(v, clicks, after, members);
  }

  /** The same proofs lack the same. */
  lemma SameUnproved(v: View, clicks: map<ClickId, Click>, after: map<ClickId, Click>, members: seq<ClickId>)
    requires forall c :: c in members ==> c in clicks && c in after && SameProofs(clicks[c], after[c])
    ensures Unproved(v, after, members) == Unproved(v, clicks, members)
  {
    assert forall c :: c in members ==> CaptureError(v, after[c]) == CaptureError(v, clicks[c]);
  }

  lemma StayProved(v: View, w: View, clicks: map<ClickId, Click>, members: seq<ClickId>)
    requires w.head == v.head && w.confirmations == v.confirmations
    requires forall n :: n in v.known ==> n in w.known && w.known[n] == v.known[n]
    requires Unproved(v, clicks, members) == {}
    ensures Unproved(w, clicks, members) == {}
  {
    MissingIsListed(v, clicks, members);
    forall c | c in members && c in clicks ensures CaptureError(w, clicks[c]).None? {
      StaysProved(v, w, clicks[c]);
    }
  }

  lemma MissingIsListed(v: View, clicks: map<ClickId, Click>, members: seq<ClickId>)
    ensures forall c :: c in members && c in clicks && CaptureError(v, clicks[c]).Some? ==>
      CaptureError(v, clicks[c]).value in Unproved(v, clicks, members)
  {
  }

  /** What was proved stays so as more is read. */
  lemma StaysProved(v: View, w: View, c: Click)
    requires w.head == v.head && w.confirmations == v.confirmations
    requires forall n :: n in v.known ==> n in w.known && w.known[n] == v.known[n]
    requires CaptureError(v, c).None?
    ensures CaptureError(w, c).None?
  {
  }

  // ---- loops over batches --------------------------------------------------------------------

  predicate IsDue(b: Batch, now: int) { b.nextAttemptAt.None? || b.nextAttemptAt.value <= now }

  /** Those of the batches that may be tried now, in order. */
  function DueFirst(batches: seq<Batch>, ids: seq<nat>, now: int): (due: seq<nat>)
    requires forall k :: 0 <= k < |ids| ==> ids[k] < |batches|
    ensures forall i :: i in due ==> i in ids
  {
    if ids == [] then []
    else
      var n := |ids| - 1;
      assert forall k :: 0 <= k < n ==> ids[..n][k] == ids[k];
      DueFirst(batches, ids[..n], now) + if IsDue(batches[ids[n]], now) then [ids[n]] else []
  }

  lemma NothingDue(batches: seq<Batch>, now: int)
    ensures DueFirst(batches, [], now) == []
  {
  }

  lemma DueOneMore(batches: seq<Batch>, ids: seq<nat>, n: nat, now: int)
    requires n < |ids| && forall k :: 0 <= k < |ids| ==> ids[k] < |batches|
    ensures DueFirst(batches, ids[..n + 1], now)
      == DueFirst(batches, ids[..n], now) + if IsDue(batches[ids[n]], now) then [ids[n]] else []
  {
    assert ids[..n + 1][..n] == ids[..n];
  }

  lemma NotYetDone(batches: seq<Batch>, ids: seq<nat>, n: nat, now: int)
    requires n < |ids| && forall k :: 0 <= k < |ids| ==> ids[k] < |batches|
    requires forall i, j :: 0 <= i < j < |ids| ==> ids[i] < ids[j]
    ensures ids[n] !in DueFirst(batches, ids[..n], now)
  {
    assert forall k :: 0 <= k < n ==> ids[..n][k] < ids[n];
  }

  /** Each of the batches `done` was prepared by a turn of its own. */
  predicate PreparedAll(before: seq<Batch>, after: seq<Batch>, done: seq<nat>, input: JobInput, turns: seq<Turn>) {
    && |turns| == |done|
    && forall k :: 0 <= k < |done| ==>
         && done[k] < |before| && done[k] < |after|
         && PrepareTurn(before[done[k]], after[done[k]], input.prepare(done[k]), input.signer, input.now, turns[k])
  }

  /** The first `n` batches are dealt with: those that may be tried were prepared in order, the others left alone. */
  predicate PreparedInOrder(before: seq<Batch>, after: seq<Batch>, ids: seq<nat>, n: nat, turns: seq<Turn>,
                            input: JobInput, alreadyWaiting: bool, waiting: bool, failure: Option<Code>)
  {
    && |after| == |before| && n <= |ids|
    && (forall k :: 0 <= k < |ids| ==> ids[k] < |before|)
    && var done := DueFirst(before, ids[..n], input.now);
       && PreparedAll(before, after, done, input, turns)
       && (forall i :: 0 <= i < |before| && i !in done ==> after[i] == before[i])
       && (waiting <==> alreadyWaiting || SomeWaits(turns)) && failure == LastCode(turns)
  }

  lemma NothingPrepared(batches: seq<Batch>, ids: seq<nat>, input: JobInput, waiting: bool)
    requires forall k :: 0 <= k < |ids| ==> ids[k] < |batches|
    ensures PreparedInOrder(batches, batches, ids, 0, [], input, waiting, waiting, None) && NoneEnds([], waiting)
  {
    assert ids[..0] == [];
  }

  lemma NotDueYet(before: seq<Batch>, after: seq<Batch>, ids: seq<nat>, n: nat, turns: seq<Turn>, input: JobInput,
                  alreadyWaiting: bool, waiting: bool, failure: Option<Code>)
    requires PreparedInOrder(before, after, ids, n, turns, input, alreadyWaiting, waiting, failure) && n < |ids|
    requires !IsDue(before[ids[n]], input.now)
    ensures PreparedInOrder(before, after, ids, n + 1, turns, input, alreadyWaiting, waiting, failure)
  {
    DueOneMore(before, ids, n, input.now);
    hide DueFirst, PreparedAll, SomeWaits, LastCode;
  }

  lemma TurnTaken(before: seq<Batch>, rows: seq<Batch>, after: seq<Batch>, ids: seq<nat>, n: nat, turns: seq<Turn>,
                  input: JobInput, alreadyWaiting: bool, waiting: bool, failure: Option<Code>, turn: Turn)
    requires PreparedInOrder(before, rows, ids, n, turns, input, alreadyWaiting, waiting, failure) && n < |ids|
    requires forall i, j :: 0 <= i < j < |ids| ==> ids[i] < ids[j]
    requires IsDue(before[ids[n]], input.now) && |after| == |rows|
    requires rows[ids[n]] == before[ids[n]] && forall j :: 0 <= j < |rows| && j != ids[n] ==> after[j] == rows[j]
    requires PrepareTurn(rows[ids[n]], after[ids[n]], input.prepare(ids[n]), input.signer, input.now, turn)
    ensures PreparedInOrder(before, after, ids, n + 1, turns + [turn], input, alreadyWaiting,
                            waiting || turn.outcome.Waiting?,
                            if turn.outcome.Threw? then Some(turn.outcome.code) else failure)
  {
    hide DueFirst, SomeWaits, LastCode, PrepareTurn, NoneEnds, NoneThrew, PreparedAll;
    DueOneMore(before, ids, n, input.now);
    NotYetDone(before, ids, n, input.now);
    OneTurnMore(turns, turn, alreadyWaiting);
    OnePreparedMore(before, rows, after, DueFirst(before, ids[..n], input.now), ids[n], input, turns, turn);
  }

  lemma OnePreparedMore(before: seq<Batch>, rows: seq<Batch>, after: seq<Batch>, done: seq<nat>, i: nat,
                        input: JobInput, turns: seq<Turn>, turn: Turn)
    requires PreparedAll(before, rows, done, input, turns) && i !in done && i < |before| == |rows| == |after|
    requires rows[i] == before[i] && forall j :: 0 <= j < |rows| && j != i ==> after[j] == rows[j]
    requires PrepareTurn(rows[i], after[i], input.prepare(i), input.signer, input.now, turn)
    ensures PreparedAll(before, after, done + [i], input, turns + [turn])
  {
    hide PrepareTurn;
    forall k | 0 <= k < |done| ensures after[done[k]] == rows[done[k]] {
      assert done[k] in done;
    }
  }

  lemma NoWaiting(before: seq<Batch>, after: seq<Batch>, ids: seq<nat>, n: nat, turns: seq<Turn>, input: JobInput,
                  alreadyWaiting: bool, waiting: bool, failure: Option<Code>)
    requires PreparedInOrder(before, after, ids, n, turns, input, alreadyWaiting, waiting, failure)
    requires NoneEnds(turns, alreadyWaiting)
    ensures waiting <==> alreadyWaiting
  {
    EndOfTurns(turns, alreadyWaiting);
    hide DueFirst, PreparedAll;
  }

  /** No turn but the last ended the loop; and if nothing ended it before all were reached, the setting did. */
  predicate EndsWhenItMust(ids: seq<nat>, n: nat, turns: seq<Turn>, input: JobInput, trigger: Trigger,
                           alreadyWaiting: bool)
  {
    && (turns != [] ==> NoneEnds(turns[..|turns| - 1], alreadyWaiting))
    && (n < |ids| && (turns == [] || !Ends(turns[|turns| - 1], alreadyWaiting)) ==>
          trigger.Auto? && !input.stillAutomatic(n + 1))
  }

  /** An automatic run tries a batch only if the setting, read again just before, allows it. */
  predicate StillWanted(before: seq<Batch>, ids: seq<nat>, n: nat, input: JobInput, trigger: Trigger) {
    n <= |ids| && forall k :: 0 <= k < n ==>
      ids[k] < |before| && (trigger.Auto? && IsDue(before[ids[k]], input.now) ==> input.stillAutomatic(k + 1))
  }

  lemma NoneWanted(before: seq<Batch>, ids: seq<nat>, input: JobInput, trigger: Trigger)
    ensures StillWanted(before, ids, 0, input, trigger)
  {
  }

  lemma WantedToo(before: seq<Batch>, ids: seq<nat>, n: nat, input: JobInput, trigger: Trigger)
    requires StillWanted(before, ids, n, input, trigger) && n < |ids| && ids[n] < |before|
    requires trigger.Auto? && IsDue(before[ids[n]], input.now) ==> input.stillAutomatic(n + 1)
    ensures StillWanted(before, ids, n + 1, input, trigger)
  {
  }

  /**
   A run was served: from its rows after the reservation, the batches that may be tried now are
   prepared in order until one of them ends it or the setting is withdrawn.
   */
  ghost predicate Served(before: seq<Batch>, rows: seq<Batch>, after: seq<Batch>, q: nat, trigger: Trigger,
                         ids: seq<nat>, turns: seq<Turn>, n: nat, input: JobInput, alreadyWaiting: bool,
                         waiting: bool, failure: Option<Code>)
  {
    && ReservedRows(before, rows)
    && (forall i: nat :: i in ids <==>
          i < |rows| && rows[i].runId == q && (rows[i].status.Prepared? || rows[i].status.Failed?))
    && (forall i, j :: 0 <= i < j < |ids| ==> ids[i] < ids[j])
    && PreparedInOrder(rows, after, ids, n, turns, input, alreadyWaiting, waiting, failure)
    && EndsWhenItMust(ids, n, turns, input, trigger, alreadyWaiting) && StillWanted(rows, ids, n, input, trigger)
  }

  /** Each of the batches was reconciled by a turn of its own. */
  predicate ReconciledAll(before: seq<Batch>, after: seq<Batch>, ids: seq<nat>, answers: nat -> Answers, now: int,
                          turns: seq<Turn>)
  {
    && |turns| <= |ids|
    && forall k :: 0 <= k < |turns| ==>
         && ids[k] < |before| && ids[k] < |after|
         && ReconcileTurn(before[ids[k]], after[ids[k]], answers(k), now, turns[k])
  }

  /** The runs of the batches whose reconciliation did not throw. */
  predicate RunsOf(before: seq<Batch>, ids: seq<nat>, turns: seq<Turn>, ranIds: seq<nat>)
    requires |turns| <= |ids|
  {
    && (forall k :: 0 <= k < |ids| ==> ids[k] < |before|)
    && (forall q :: q in ranIds ==>
          exists k :: 0 <= k < |turns| && !turns[k].outcome.Threw? && before[ids[k]].runId == q)
    && (forall k :: 0 <= k < |turns| && !turns[k].outcome.Threw? ==> before[ids[k]].runId in ranIds)
  }

  lemma OneRunMore(before: seq<Batch>, ids: seq<nat>, turns: seq<Turn>, turn: Turn, ranIds: seq<nat>)
    requires |turns| < |ids| && RunsOf(before, ids, turns, ranIds)
    ensures turn.outcome.Threw? ==> RunsOf(before, ids, turns + [turn], ranIds)
    ensures !turn.outcome.Threw? ==>
      var q := before[ids[|turns|]].runId;
      RunsOf(before, ids, turns + [turn], if q in ranIds then ranIds else ranIds + [q])
  {
    var more := turns + [turn];
    assert forall k :: 0 <= k < |turns| ==> more[k] == turns[k];
    assert more[|turns|] == turn;
  }

  /** The turns so far, what they came to, and that the other batches are as they were. */
  predicate SoFar(before: seq<Batch>, after: seq<Batch>, ids: seq<nat>, answers: nat -> Answers, now: int,
                  turns: seq<Turn>, waiting: bool, ranIds: seq<nat>)
  {
    && |turns| <= |ids| && |after| == |before| && (forall k :: 0 <= k < |ids| ==> ids[k] < |before|)
    && ReconciledAll(before, after, ids, answers, now, turns)
    && RunsOf(before, ids, turns, ranIds) && (waiting <==> SomeWaits(turns))
    && (forall k :: |turns| <= k < |ids| ==> after[ids[k]] == before[ids[k]])
    && (forall i :: 0 <= i < |after| && i !in ids ==> after[i] == before[i])
  }

  lemma NotYetTurned(before: seq<Batch>, after: seq<Batch>, ids: seq<nat>, answers: nat -> Answers, now: int,
                     turns: seq<Turn>, waiting: bool, ranIds: seq<nat>)
    requires SoFar(before, after, ids, answers, now, turns, waiting, ranIds) && |turns| < |ids|
    ensures ids[|turns|] < |before| == |after| && after[ids[|turns|]] == before[ids[|turns|]]
  {
  }

  lemma SoFarSays(before: seq<Batch>, after: seq<Batch>, ids: seq<nat>, answers: nat -> Answers, now: int,
                  turns: seq<Turn>, waiting: bool, ranIds: seq<nat>)
    requires SoFar(before, after, ids, answers, now, turns, waiting, ranIds)
    ensures |turns| <= |ids| && |after| == |before| && ReconciledAll(before, after, ids, answers, now, turns)
    ensures RunsOf(before, ids, turns, ranIds) && (waiting <==> SomeWaits(turns))
    ensures forall i :: 0 <= i < |after| && i !in ids ==> after[i] == before[i]
  {
  }

  lemma AllThrough(ids: seq<nat>, turns: seq<Turn>)
    requires |turns| == |ids| && NoneThrew(turns)
    ensures StopsAtException(ids, turns, None)
  {
  }

  lemma TurnReconciled(before: seq<Batch>, rows: seq<Batch>, after: seq<Batch>, ids: seq<nat>, answers: nat -> Answers,
                       now: int, turns: seq<Turn>, turn: Turn, waiting: bool, ranIds: seq<nat>)
    requires SoFar(before, rows, ids, answers, now, turns, waiting, ranIds) && |turns| < |ids| && NoneThrew(turns)
    requires forall i, j :: 0 <= i < j < |ids| ==> ids[i] < ids[j]
    requires |after| == |rows| && ids[|turns|] < |rows|
    requires forall j :: 0 <= j < |rows| && j != ids[|turns|] ==> after[j] == rows[j]
    requires ReconcileTurn(rows[ids[|turns|]], after[ids[|turns|]], answers(|turns|), now, turn)
    ensures var q, more := before[ids[|turns|]].runId, turns + [turn];
      && SoFar(before, after, ids, answers, now, more, turn.outcome.Waiting? || waiting,
               if turn.outcome.Threw? || q in ranIds then ranIds else ranIds + [q])
      && (if turn.outcome.Threw? then StopsAtException(ids, more, Some(turn.outcome.code)) else NoneThrew(more))
  {
    hide ReconcileTurn, RunsOf, SomeWaits, NoneThrew, ReconciledAll;
    OneTurnMore(turns, turn, false);
    OneRunMore(before, ids, turns, turn, ranIds);
    OneReconciledMore(before, rows, after, ids, answers, now, turns, turn);
    assert (turns + [turn])[..|turns|] == turns;
  }

  lemma OneReconciledMore(before: seq<Batch>, rows: seq<Batch>, after: seq<Batch>, ids: seq<nat>,
                          answers: nat -> Answers, now: int, turns: seq<Turn>, turn: Turn)
    requires ReconciledAll(before, rows, ids, answers, now, turns) && |turns| < |ids|
    requires forall i, j :: 0 <= i < j < |ids| ==> ids[i] < ids[j]
    requires ids[|turns|] < |before| == |rows| == |after| && rows[ids[|turns|]] == before[ids[|turns|]]
    requires forall j :: 0 <= j < |rows| && j != ids[|turns|] ==> after[j] == rows[j]
    requires ReconcileTurn(rows[ids[|turns|]], after[ids[|turns|]], answers(|turns|), now, turn)
    ensures ReconciledAll(before, after, ids, answers, now, turns + [turn])
  {
    hide ReconcileTurn;
  }

  lemma NothingReconciled(batches: seq<Batch>, ids: seq<nat>, answers: nat -> Answers, now: int)
    requires forall k :: 0 <= k < |ids| ==> ids[k] < |batches|
    ensures SoFar(batches, batches, ids, answers, now, [], false, []) && NoneThrew([])
  {
  }

  /** The loop is through unless its last turn threw, and then it is blocked by that. */
  predicate StopsAtException(ids: seq<nat>, turns: seq<Turn>, blocked: Option<Code>) {
    if blocked.None? then |turns| == |ids| && NoneThrew(turns)
    else turns != [] && turns[|turns| - 1].outcome == Threw(blocked.value) && NoneThrew(turns[..|turns| - 1])
  }

  /** What a pass looked at: nothing, or the batches of the incremental or the full scan. */
  datatype Scan = NotBegun | Begun(canonical: bool, ids: seq<nat>, turns: seq<Turn>)

  /** The final hash or that of the saved checkpoint could not be read. */
  predicate CannotBegin(v: View, checkpoint: Option<Checkpoint>) {
    || NewestFinal(v) !in v.known
    || (checkpoint.Some? && checkpoint.value.number <= NewestFinal(v) && checkpoint.value.number !in v.known)
  }

  predicate PreviousStands(v: View, checkpoint: Option<Checkpoint>) {
    && checkpoint.Some? && checkpoint.value.number <= NewestFinal(v) && checkpoint.value.number in v.known
    && v.known[checkpoint.value.number] == checkpoint.value.hash
  }

  /** Exactly the batches of the scan were reconciled, in order, until one of them threw. */
  predicate Scanned(s: System, after: seq<Batch>, input: JobInput, scan: Scan, blocked: Option<Code>, waiting: bool)
    requires scan.Begun?
  {
    && |after| == |s.batches|
    && (forall i, j :: 0 <= i < j < |scan.ids| ==> scan.ids[i] < scan.ids[j])
    && (forall k :: 0 <= k < |scan.ids| ==> scan.ids[k] < |s.batches|)
    && (forall i :: 0 <= i < |s.batches| ==>
          (i in scan.ids <==> if scan.canonical then InIncrementalScan(s, i) else InFullScan(s.batches[i])))
    && ReconciledAll(s.batches, after, scan.ids, input.reconcile, input.now, scan.turns)
    && StopsAtException(scan.ids, scan.turns, blocked) && (waiting <==> SomeWaits(scan.turns))
    && forall i :: 0 <= i < |after| && i !in scan.ids ==> after[i] == s.batches[i]
  }

  lemma SameScan(s: System, t: System, after: seq<Batch>, input: JobInput, scan: Scan, blocked: Option<Code>,
                 waiting: bool)
    requires t.batches == s.batches && t.checkpoint == s.checkpoint && scan.Begun?
    requires Scanned(s, after, input, scan, blocked, waiting)
    ensures Scanned(t, after, input, scan, blocked, waiting)
  {
    hide ReconciledAll, StopsAtException, SomeWaits;
  }

  lemma StopsIffThrew(ids: seq<nat>, turns: seq<Turn>, blocked: Option<Code>)
    requires StopsAtException(ids, turns, blocked)
    ensures blocked.None? <==> NoneThrew(turns)
  {
  }

  lemma LoopLeft(ids: seq<nat>, n: nat, turns: seq<Turn>, input: JobInput, trigger: Trigger, alreadyWaiting: bool)
    requires NoneEnds(turns, alreadyWaiting) && n <= |ids|
    requires n < |ids| ==> trigger.Auto? && !input.stillAutomatic(n + 1)
    ensures EndsWhenItMust(ids, n, turns, input, trigger, alreadyWaiting)
  {
    EndOfTurns(turns, alreadyWaiting);
  }

  lemma TurnEnds(ids: seq<nat>, n: nat, turns: seq<Turn>, turn: Turn, input: JobInput, trigger: Trigger,
                 alreadyWaiting: bool)
    requires NoneEnds(turns, alreadyWaiting) && n <= |ids|
    ensures var r := turn.outcome;
      if (if r.Threw? then r.code != CaptureProofOrphaned else alreadyWaiting || r.Waiting?)
      then EndsWhenItMust(ids, n, turns + [turn], input, trigger, alreadyWaiting)
      else NoneEnds(turns + [turn], alreadyWaiting)
  {
    OneTurnMore(turns, turn, alreadyWaiting);
    assert (turns + [turn])[..|turns|] == turns;
  }

  lemma EndOfTurns(turns: seq<Turn>, waiting: bool)
    requires NoneEnds(turns, waiting)
    ensures turns != [] ==> NoneEnds(turns[..|turns| - 1], waiting)
    ensures !SomeWaits(turns)
  {
  }

  /** What a reconciliation that looked at the batches `done` may have changed. */
  ghost predicate Passed(s: System, t: System, done: seq<nat>) {
    && |t.batches| == |s.batches|
    && (forall i :: 0 <= i < |s.batches| ==> t.batches[i].tx == s.batches[i].tx)
    && (forall i :: 0 <= i < |s.batches| && i !in done ==> t.batches[i] == s.batches[i])
    && (forall i: nat :: i !in done ==> SameWitness(s, t, i))
    && SameFrame(s, t)
  }

  ghost predicate SameWitness(s: System, t: System, i: nat) {
    && (i in t.seen <==> i in s.seen) && (i in t.seen ==> t.seen[i] == s.seen[i])
    && (i in t.reverted <==> i in s.reverted)
  }

  predicate SameFrame(s: System, t: System) {
    && |t.runs| == |s.runs| && (forall q :: 0 <= q < |s.runs| ==> t.runs[q].trigger == s.runs[q].trigger)
    && t.passStart == s.passStart && t.savedAt == s.savedAt && t.head == s.head && t.confirmations == s.confirmations
    && t.checkpoint == s.checkpoint
  }

  /** What the pass needs to know about a batch after looking at it. */
  ghost predicate HandledIn(s: System, i: nat) {
    && i < |s.batches|
    && (HasReceipt(s.batches[i]) ==> i in s.seen && s.passStart <= s.seen[i])
    && (s.batches[i].status.Failed? ==> i in s.reverted)
  }

  lemma NothingPassed(s: System)
    ensures Passed(s, s, [])
  {
  }

  lemma NotYetSeen(s: System, t: System, done: seq<nat>, i: nat)
    requires Passed(s, t, done) && i !in done && forall j :: j in s.seen ==> s.seen[j] <= s.passStart
    ensures i in t.seen ==> t.seen[i] <= t.passStart
  {
    assert SameWitness(s, t, i);
  }

  lemma PassedByRow(s: System, t: System, i: nat)
    requires OnlyRow(s, t, i) && i < |s.batches| && t.batches[i].tx == s.batches[i].tx
    ensures Passed(s, t, [i])
    ensures forall j :: j != i && HandledIn(s, j) ==> HandledIn(t, j)
  {
    forall j | j != i && HandledIn(s, j) ensures HandledIn(t, j) {
      assert SameWitness(s, t, j);
    }
  }

  lemma PassedSize(s: System, t: System, done: seq<nat>)
    requires Passed(s, t, done)
    ensures |t.batches| == |s.batches| && |t.runs| == |s.runs| && t.checkpoint == s.checkpoint
  {
  }

  lemma PassedOneMore(s: System, t: System, u: System, done: seq<nat>, i: nat)
    requires Passed(s, t, done) && Passed(t, u, [i])
    ensures Passed(s, u, done + [i])
    ensures forall j :: j in done && j != i && HandledIn(t, j) ==> HandledIn(u, j)
  {
    forall j: nat | j !in done + [i] ensures SameWitness(s, u, j) {
      assert SameWitness(s, t, j) && SameWitness(t, u, j);
    }
    forall j | j in done && j != i && HandledIn(t, j) ensures HandledIn(u, j) {
      assert SameWitness(t, u, j);
    }
  }

  lemma SaveKeepsTimes(s: System, number: nat, hash: Hash, previousAt: Option<nat>, tips: seq<Hash>)
    requires CanSave(s, tips, number, hash, previousAt)
    requires forall i :: i in s.seen ==> s.seen[i] < |tips|
    ensures var t := Next(s, Step.SaveCheckpoint(number, hash, previousAt));
      (forall i :: i in t.seen ==> t.seen[i] < |tips|) && t.savedAt == s.passStart
  {
  }

  // ---- the second half of the job ---------------------------------------------------------------

  function Draws(input: JobInput, q: nat): nat -> nat {
    n => input.random(q, n)
  }

  ghost predicate Collides(before: seq<Batch>, random: nat -> nat) {
    exists n :: Repeats(before, random, n)
  }

  /** The step reserves, for run `q`, the due groups of the debt that is old and final enough. */
  ghost predicate DueReservation(s: System, e: Step, q: nat, input: JobInput, pending: seq<ClickId>,
                                 groups: seq<seq<ClickId>>)
    requires q < |s.runs|
  {
    && e.Reserve? && e.run == q
    && e.cutoff == (if s.runs[q].startedAt.Some? then s.runs[q].startedAt.value else input.now)
    && (forall c :: c in pending <==>
          && c in s.clicks && s.clicks[c].status.Pending? && s.clicks[c].batch.None?
          && s.clicks[c].clickedAt <= e.cutoff
          && s.clicks[c].bidNumber.Some? && s.clicks[c].bidNumber.value <= FinalBlock(s))
    && Known(s.clicks, pending) && Ordered(s.clicks, pending) && Grouping.IsGrouping(s.clicks, pending, groups)
    && (forall g :: g in groups ==> Known(s.clicks, g))
    && e.groups == Chosen(s.clicks, groups, s.runs[q].trigger.Manual?, input.intervalMinutes, input.clickThreshold,
                          input.now)
  }

  /** The automatic runs that lose batches to run `q`. */
  ghost predicate LoseTo(s: System, q: nat, autos: seq<nat>)
    requires q < |s.runs|
  {
    forall k: nat :: k in autos <==>
      k < |s.runs| && s.runs[q].trigger.Manual? && s.runs[k].trigger.Auto? && Recoverable(s.runs[k].status)
  }

  /** The steps serve run `q`: its reservation, the runs that lost batches to it, its batches, and the run itself. */
  ghost predicate ServedBy(s: System, t: System, steps: seq<Step>, q: nat, input: JobInput, alreadyWaiting: bool,
                           waiting: bool, failure: Option<Code>)
  {
    && q < |s.runs| && |steps| >= 2 && StepFits(s, steps[0])
    && (exists pending, groups :: DueReservation(s, steps[0], q, input, pending, groups))
    && (exists autos :: LoseTo(s, q, autos) && [steps[0]] + Refreshes(autos, input.now) <= steps)
    && (exists ids: seq<nat>, turns: seq<Turn>, n: nat ::
          Served(s.batches, Next(s, steps[0]).batches, t.batches, q, s.runs[q].trigger, ids, turns, n, input,
            alreadyWaiting, waiting, failure))
    && steps[|steps| - 1] == Refresh(q, input.now, failure)
  }

  lemma WaitsOn(before: seq<Batch>, after: seq<Batch>, ids: seq<nat>, n: nat, turns: seq<Turn>, input: JobInput,
                alreadyWaiting: bool, waiting: bool, failure: Option<Code>)
    requires PreparedInOrder(before, after, ids, n, turns, input, alreadyWaiting, waiting, failure)
    ensures alreadyWaiting ==> waiting
  {
    hide DueFirst, PreparedAll, SomeWaits, LastCode;
  }

  lemma ScanSays(s: System, after: seq<Batch>, input: JobInput, scan: Scan, blocked: Option<Code>, waiting: bool)
    requires scan.Begun? && Scanned(s, after, input, scan, blocked, waiting)
    ensures waiting <==> SomeWaits(scan.turns)
    ensures blocked.None? <==> NoneThrew(scan.turns)
    ensures blocked.Some? ==> scan.turns != [] && scan.turns[|scan.turns| - 1].outcome == Threw(blocked.value)
  {
    hide ReconciledAll, SomeWaits;
    StopsIffThrew(scan.ids, scan.turns, blocked);
  }

  lemma RunIsServed(s: System, t: System, steps: seq<Step>, autos: seq<nat>, rows: seq<Batch>, ids: seq<nat>,
                    turns: seq<Turn>, n: nat, q: nat, input: JobInput, alreadyWaiting: bool, waiting: bool,
                    failure: Option<Code>)
    requires q < |s.runs| && |steps| >= 2 && StepFits(s, steps[0]) && rows == Next(s, steps[0]).batches
    requires exists pending, groups :: DueReservation(s, steps[0], q, input, pending, groups)
    requires LoseTo(s, q, autos) && [steps[0]] + Refreshes(autos, input.now) <= steps
    requires Served(s.batches, rows, t.batches, q, s.runs[q].trigger, ids, turns, n, input, alreadyWaiting, waiting,
                    failure)
    requires steps[|steps| - 1] == Refresh(q, input.now, failure)
    ensures ServedBy(s, t, steps, q, input, alreadyWaiting, waiting, failure)
  {
    hide DueReservation, LoseTo, Served, StepFits, Next;
  }

  /** What the job did about a run that it works on; the numbers are positions in the log. */
  datatype Act =
    | Skipped
    | Stopped(code: Code, at: nat)
    | Crashed(at: nat)
    | Ran(already: bool, waiting: bool, failure: Option<Code>, from: nat, to: nat)

  ghost predicate Acted(confirmations: nat, log: seq<Step>, start: nat, q: nat, trigger: Trigger, input: JobInput,
                        act: Act)
  {
    && (act.Skipped? <==> trigger.Auto? && !input.automaticEnabled)
    && match act
       case Skipped => true
       case Stopped(code, at) => start <= at < |log| && log[at] == Step.BlockRun(q, code)
       case Crashed(at) => start <= at <= |log| && Collides(After(confirmations, log[..at]).batches, Draws(input, q))
       case Ran(already, waiting, failure, from, to) =>
         && start <= from <= to <= |log|
         && ServedBy(After(confirmations, log[..from]), After(confirmations, log[..to]), log[from..to], q, input,
              already, waiting, failure)
  }

  ghost predicate AllActed(confirmations: nat, log: seq<Step>, start: nat, ids: seq<nat>, runs: seq<Run>,
                           input: JobInput, acts: seq<Act>)
  {
    && |acts| <= |ids|
    && forall k :: 0 <= k < |acts| ==>
         ids[k] < |runs| && Acted(confirmations, log, start, ids[k], runs[ids[k]].trigger, input, acts[k])
  }

  lemma OneBlockedMore(ids: seq<nat>, n: nat, start: seq<Run>, before: seq<Run>, after: seq<Run>,
                       automaticEnabled: bool, code: Code, act: Act)
    requires n < |ids| && AllBlocked(ids[..n], start, before, automaticEnabled, code) && ids[n] < |start|
    requires act.Skipped? <==> start[ids[n]].trigger.Auto? && !automaticEnabled
    requires after == if act.Skipped? then before
      else before[ids[n] := before[ids[n]].(status := Blocked, error := Some(code))]
    ensures AllBlocked(ids[..n + 1], start, after, automaticEnabled, code)
  {
    assert ids[..n + 1] == ids[..n] + [ids[n]];
  }

  lemma OneActMore(confirmations: nat, log: seq<Step>, more: seq<Step>, start: nat, ids: seq<nat>, before: seq<Run>,
                   runs: seq<Run>, input: JobInput, acts: seq<Act>, act: Act)
    requires AllActed(confirmations, log, start, ids, before, input, acts) && |acts| < |ids| && log <= more
    requires |runs| == |before| && forall k :: 0 <= k < |runs| ==> runs[k].trigger == before[k].trigger
    requires ids[|acts|] < |runs| && start <= |log|
    requires Acted(confirmations, more, |log|, ids[|acts|], runs[ids[|acts|]].trigger, input, act)
    ensures AllActed(confirmations, more, start, ids, runs, input, acts + [act])
  {
    forall k | 0 <= k < |acts|
      ensures Acted(confirmations, more, start, ids[k], runs[ids[k]].trigger, input, acts[k])
    {
      ActedStays(confirmations, log, more, start, start, ids[k], runs[ids[k]].trigger, input, acts[k]);
    }
    ActedStays(confirmations, more, more, start, |log|, ids[|acts|], runs[ids[|acts|]].trigger, input, act);
  }

  lemma ActedSince(confirmations: nat, log: seq<Step>, start: nat, from: nat, ids: seq<nat>, runs: seq<Run>,
                   input: JobInput, acts: seq<Act>)
    requires AllActed(confirmations, log, from, ids, runs, input, acts) && start <= from
    ensures AllActed(confirmations, log, start, ids, runs, input, acts)
  {
    forall k | 0 <= k < |acts|
      ensures Acted(confirmations, log, start, ids[k], runs[ids[k]].trigger, input, acts[k])
    {
      ActedStays(confirmations, log, log, start, from, ids[k], runs[ids[k]].trigger, input, acts[k]);
    }
  }

  lemma ActedStays(confirmations: nat, log: seq<Step>, more: seq<Step>, start: nat, from: nat, q: nat,
                   trigger: Trigger, input: JobInput, act: Act)
    requires Acted(confirmations, log, from, q, trigger, input, act) && log <= more && start <= from
    ensures Acted(confirmations, more, start, q, trigger, input, act)
  {
    hide ServedBy, Collides, After;
    match act
    case Crashed(at) => assert more[..at] == log[..at];
    case Ran(_, _, _, first, to) =>
      assert more[..first] == log[..first] && more[..to] == log[..to] && more[first..to] == log[first..to];
    case _ =>
  }

  predicate FailedHard(a: Act) {
    a.Ran? && a.failure.Some? && a.failure.value != WaitingConfirmation && a.failure.value != CaptureProofOrphaned
  }

  ghost predicate FirstHard(acts: seq<Act>, k: nat) {
    k < |acts| && FailedHard(acts[k]) && forall j :: 0 <= j < k ==> !FailedHard(acts[j])
  }

  /** What blocks the runs that follow: what blocked the job before, or the first hard failure. */
  function StoppedBy(acts: seq<Act>, already: Option<Code>): (code: Option<Code>)
    ensures already.Some? ==> code == already
    ensures already.None? && code.None? ==> forall k :: 0 <= k < |acts| ==> !FailedHard(acts[k])
    ensures already.None? && code.Some? ==>
      exists k: nat :: FirstHard(acts, k) && acts[k].failure == code
  {
    if already.Some? || acts == [] then already
    else
      var n := |acts| - 1;
      var before := StoppedBy(acts[..n], already);
      assert forall k: nat :: FirstHard(acts[..n], k) ==> FirstHard(acts, k);
      assert before.None? && FailedHard(acts[n]) ==> FirstHard(acts, n);
      if before.Some? then before else if FailedHard(acts[n]) then acts[n].failure else None
  }

  predicate AnyWaits(acts: seq<Act>) {
    exists k :: 0 <= k < |acts| && acts[k].Ran? && acts[k].waiting
  }

  /** A run is stopped exactly when something blocks by then, and served with what waits by then. */
  ghost predicate Follows(before: seq<Act>, act: Act, stop: Option<Code>, alreadyWaiting: bool) {
    && (act.Stopped? ==> StoppedBy(before, stop) == Some(act.code))
    && (act.Ran? || act.Crashed? ==> StoppedBy(before, stop).None?)
    && (act.Ran? ==> (act.already <==> alreadyWaiting || AnyWaits(before)))
  }

  /** Runs are served until one fails hard; the others are stopped with its code. */
  ghost predicate InTurn(acts: seq<Act>, stop: Option<Code>, alreadyWaiting: bool, blocked: Option<Code>,
                         waiting: bool)
  {
    && (forall k :: 0 <= k < |acts| ==> Follows(acts[..k], acts[k], stop, alreadyWaiting))
    && (forall k :: 0 <= k < |acts| - 1 ==> !acts[k].Crashed?)
    && blocked == StoppedBy(acts, stop) && (waiting <==> alreadyWaiting || AnyWaits(acts))
  }

  lemma NobodyActed(confirmations: nat, log: seq<Step>, ids: seq<nat>, runs: seq<Run>, input: JobInput,
                    stop: Option<Code>, alreadyWaiting: bool)
    ensures AllActed(confirmations, log, |log|, ids, runs, input, [])
    ensures forall enabled, code :: AllBlocked(ids[..0], runs, runs, enabled, code)
    ensures InTurn([], stop, alreadyWaiting, stop, alreadyWaiting)
  {
  }

  lemma OneActInTurn(acts: seq<Act>, act: Act, stop: Option<Code>, alreadyWaiting: bool, blocked: Option<Code>,
                     waiting: bool)
    requires InTurn(acts, stop, alreadyWaiting, blocked, waiting) && (acts != [] ==> !acts[|acts| - 1].Crashed?)
    requires act.Stopped? ==> blocked == Some(act.code)
    requires act.Ran? || act.Crashed? ==> blocked.None?
    requires act.Ran? ==> act.already == waiting && (waiting ==> act.waiting)
    ensures InTurn(acts + [act], stop, alreadyWaiting, if FailedHard(act) then act.failure else blocked,
                   if act.Ran? then act.waiting else waiting)
  {
    var more := acts + [act];
    assert more[..|acts|] == acts && acts[..|acts|] == acts;
    assert Follows(acts, act, stop, alreadyWaiting);
    assert AnyWaits(more) <==> AnyWaits(acts) || (act.Ran? && act.waiting) by {
      assert more[|acts|] == act && forall k :: 0 <= k < |acts| ==> more[k] == acts[k];
    }
    hide Follows, AnyWaits;
    forall k | 0 <= k < |acts| ensures Follows(more[..k], more[k], stop, alreadyWaiting) {
      assert more[..k] == acts[..k];
    }
  }

  /** The debt of the stakes that wait, final or not. */
  ghost predicate PendingDebt(clicks: map<ClickId, Click>, ids: seq<ClickId>, groups: seq<seq<ClickId>>) {
    && Known(clicks, ids) && Ordered(clicks, ids) && Grouping.IsGrouping(clicks, ids, groups)
    && (forall g :: g in groups ==> Known(clicks, g))
    && forall c :: c in ids <==> c in clicks && clicks[c].status.Pending? && clicks[c].batch.None?
  }

  ghost predicate SomeStakeIs(due: bool, clicks: map<ClickId, Click>, input: JobInput) {
    exists ids, groups ::
      && PendingDebt(clicks, ids, groups)
      && (due <==> exists g ::
            g in groups && Grouping.ChargeGroupDue(clicks, g, input.intervalMinutes, input.clickThreshold, input.now))
  }

  /**
   The second half of a job: from position `from` of its log, after the runs of the reconciled
   batches were refreshed, it deals with the runs `ids`, unless `stop` blocks them all.
   */
  datatype Work = Work(from: nat, refreshed: seq<nat>, stop: Option<Code>, newRun: bool, ids: seq<nat>,
                       acts: seq<Act>)

  predicate ScanStops(scan: Scan, operator: Option<Code>, stop: Option<Code>) {
    if scan.NotBegun? then stop == Some(RpcUnavailable)
    else if NoneThrew(scan.turns) then stop == operator
    else
      scan.turns != [] && scan.turns[|scan.turns| - 1].outcome.Threw? &&
      stop == Some(scan.turns[|scan.turns| - 1].outcome.code)
  }

  /** Just before, the runs of the reconciled batches were refreshed. */
  predicate RefreshedAfter(scan: Scan, batches: seq<Batch>, log: seq<Step>, work: Work, now: int) {
    && (if scan.Begun? then |scan.turns| <= |scan.ids| && RunsOf(batches, scan.ids, scan.turns, work.refreshed)
        else work.refreshed == [])
    && |work.refreshed| <= work.from <= |log|
    && log[work.from - |work.refreshed|..work.from] == Refreshes(work.refreshed, now)
  }

  /** An unfinished automatic run that no orphaned proof holds up. */
  predicate SomeUsable(runs: seq<Run>) {
    exists q :: 0 <= q < |runs| && runs[q].trigger.Auto? && Recoverable(runs[q].status)
                && runs[q].error != Some(CaptureProofOrphaned)
  }

  lemma UsableIsListed(runs: seq<Run>, ids: seq<nat>)
    requires forall q: nat :: q in ids <==> q < |runs| && Recoverable(runs[q].status)
    ensures SomeUsable(runs) <==>
      exists k :: 0 <= k < |ids| && ids[k] < |runs|
        && runs[ids[k]].trigger.Auto? && runs[ids[k]].error != Some(CaptureProofOrphaned)
  {
    forall k | 0 <= k < |ids| ensures ids[k] < |runs| && Recoverable(runs[ids[k]].status) {
      assert ids[k] in ids;
    }
    if SomeUsable(runs) {
      var q :| 0 <= q < |runs| && runs[q].trigger.Auto? && Recoverable(runs[q].status)
        && runs[q].error != Some(CaptureProofOrphaned);
      assert q in ids;
    }
  }

  /** The unfinished runs, or the one asked for; and a new automatic one if none is usable and some debt is due. */
  ghost predicate RunsChosen(s: System, runId: Option<nat>, input: JobInput, stop: Option<Code>, newRun: bool,
                             ids: seq<nat>)
  {
    && (forall q: nat :: q in ids <==>
          || (q < |s.runs| && Recoverable(s.runs[q].status) && (runId.None? || runId == Some(q)))
          || (newRun && q == |s.runs|))
    && (forall i, j :: 0 <= i < j < |ids| ==> ids[i] < ids[j])
    && var open := runId.None? && input.automaticEnabled && stop.None? &&
                   !SomeUsable(s.runs);
       && (newRun ==> open)
       && (open ==> SomeStakeIs(newRun, s.clicks, input))
  }

  function Refreshes(ids: seq<nat>, now: int): (steps: seq<Step>)
    ensures |steps| == |ids| && forall k :: 0 <= k < |ids| ==> steps[k] == Refresh(ids[k], now, None)
  {
    seq(|ids|, k requires 0 <= k < |ids| => Refresh(ids[k], now, None))
  }

  predicate AllPaid(batches: seq<Batch>, q: nat) {
    forall i :: 0 <= i < |batches| && batches[i].runId == q ==> batches[i].status.Confirmed?
  }

  predicate AllTerminal(batches: seq<Batch>, q: nat) {
    forall i :: 0 <= i < |batches| && batches[i].runId == q ==> Terminal(batches[i].status)
  }

  lemma PaidUnlessUnpaid(batches: seq<Batch>, q: nat)
    ensures HasOpenBatch(batches, q) <==> !AllTerminal(batches, q)
    ensures AllTerminal(batches, q) ==> (HasUnpaidBatch(batches, q) <==> !AllPaid(batches, q))
  {
  }

  /** The job works on this run. */
  predicate IsSelected(r: Run, q: nat, runId: Option<nat>, automaticEnabled: bool) {
    (runId.None? || runId == Some(q)) && Recoverable(r.status) && (r.trigger.Manual? || automaticEnabled)
  }

  /** Each of the runs that is worked on shows why it is blocked; the others are as they were. */
  predicate AllBlocked(ids: seq<nat>, before: seq<Run>, after: seq<Run>, automaticEnabled: bool, code: Code) {
    && |after| == |before|
    && forall q :: 0 <= q < |before| ==>
         after[q] == if q in ids && (before[q].trigger.Manual? || automaticEnabled)
                     then before[q].(status := Blocked, error := Some(code)) else before[q]
  }

  /** A batch that the scan leaves out is unsent, or its receipt lies behind the checkpoint. */
  lemma NotScanned(s: System, i: nat, previousCanonical: bool)
    requires i < |s.batches|
    requires if previousCanonical then s.checkpoint.Some? && !InIncrementalScan(s, i) else !InFullScan(s.batches[i])
    ensures !s.batches[i].status.Failed?
    ensures HasReceipt(s.batches[i]) ==> previousCanonical && Covered(s, i, s.checkpoint.value)
  {
  }

  /** After a pass over its scan each receipt was seen, or lies behind the old checkpoint. */
  lemma AllAccountedFor(s: System, t: System, ids: seq<nat>, previousCanonical: bool)
    requires Passed(s, t, ids) && forall k :: 0 <= k < |ids| ==> HandledIn(t, ids[k])
    requires previousCanonical ==> s.checkpoint.Some?
    requires forall i :: 0 <= i < |s.batches| ==>
      (i in ids <==> if previousCanonical then InIncrementalScan(s, i) else InFullScan(s.batches[i]))
    ensures forall i :: 0 <= i < |t.batches| && HasReceipt(t.batches[i]) ==>
      (i in t.seen && t.passStart <= t.seen[i]) || (previousCanonical && Covered(t, i, t.checkpoint.value))
    ensures forall i :: 0 <= i < |t.batches| && t.batches[i].status.Failed? ==> i in t.reverted
  {
    forall i | 0 <= i < |t.batches|
      ensures HasReceipt(t.batches[i]) ==>
        (i in t.seen && t.passStart <= t.seen[i]) || (previousCanonical && Covered(t, i, t.checkpoint.value))
      ensures t.batches[i].status.Failed? ==> i in t.reverted
    {
      if i in ids {
        var k :| 0 <= k < |ids| && ids[k] == i;
        assert HandledIn(t, ids[k]);
      } else {
        assert SameWitness(s, t, i);
        NotScanned(s, i, previousCanonical);
      }
    }
  }

  /** The groups that a run reserves: all of them, or those that are due. */
  function Chosen(clicks: map<ClickId, Click>, groups: seq<seq<ClickId>>, manual: bool, intervalMinutes: nat,
                  clickThreshold: nat, now: int)
    : (chosen: seq<seq<ClickId>>)
    requires forall g :: g in groups ==> Known(clicks, g)
  {
    if groups == [] then []
    else
      var last := groups[|groups| - 1];
      assert groups == groups[..|groups| - 1] + [last];
      Chosen(clicks, groups[..|groups| - 1], manual, intervalMinutes, clickThreshold, now)
      + if manual || Grouping.ChargeGroupDue(clicks, last, intervalMinutes, clickThreshold, now) then [last] else []
  }

  lemma NothingChosen(clicks: map<ClickId, Click>, manual: bool, intervalMinutes: nat, clickThreshold: nat, now: int)
    ensures Chosen(clicks, [], manual, intervalMinutes, clickThreshold, now) == []
  {
  }

  lemma ChosenOneMore(clicks: map<ClickId, Click>, groups: seq<seq<ClickId>>, n: nat, manual: bool,
                      intervalMinutes: nat, clickThreshold: nat, now: int)
    requires n < |groups| && forall k :: 0 <= k < |groups| ==> Known(clicks, groups[k])
    ensures forall g :: g in groups[..n] || g in groups[..n + 1] ==> Known(clicks, g)
    ensures Chosen(clicks, groups[..n + 1], manual, intervalMinutes, clickThreshold, now)
      == Chosen(clicks, groups[..n], manual, intervalMinutes, clickThreshold, now)
         + if manual || Grouping.ChargeGroupDue(clicks, groups[n], intervalMinutes, clickThreshold, now)
           then [groups[n]] else []
  {
    assert groups[..n + 1][..n] == groups[..n];
  }

  /** The chosen groups are some of all groups, each click still in one of them at most. */
  lemma {:induction false} ChosenIsPart(clicks: map<ClickId, Click>, groups: seq<seq<ClickId>>, manual: bool,
                                        intervalMinutes: nat, clickThreshold: nat, now: int)
    requires forall g :: g in groups ==> Known(clicks, g)
    requires forall j, k, c :: 0 <= j < k < |groups| && c in groups[j] ==> c !in groups[k]
    ensures var chosen := Chosen(clicks, groups, manual, intervalMinutes, clickThreshold, now);
      && (forall g :: g in chosen <==>
            g in groups && (manual || Grouping.ChargeGroupDue(clicks, g, intervalMinutes, clickThreshold, now)))
      && (forall j, k, c :: 0 <= j < k < |chosen| && c in chosen[j] ==> c !in chosen[k])
  {
    hide Known, Grouping.ChargeGroupDue;
    if groups != [] {
      var n := |groups| - 1;
      assert groups == groups[..n] + [groups[n]];
      ChosenIsPart(clicks, groups[..n], manual, intervalMinutes, clickThreshold, now);
      var rest := Chosen(clicks, groups[..n], manual, intervalMinutes, clickThreshold, now);
      forall j, c | 0 <= j < |rest| && c in rest[j] ensures c !in groups[n] {
        assert rest[j] in groups[..n];
      }
    }
  }

  lemma {:induction false} ManualChoosesAll(clicks: map<ClickId, Click>, groups: seq<seq<ClickId>>,
                                            intervalMinutes: nat, clickThreshold: nat, now: int)
    requires forall g :: g in groups ==> Known(clicks, g)
    ensures Chosen(clicks, groups, true, intervalMinutes, clickThreshold, now) == groups
  {
    if groups != [] {
      assert groups == groups[..|groups| - 1] + [groups[|groups| - 1]];
      ManualChoosesAll(clicks, groups[..|groups| - 1], intervalMinutes, clickThreshold, now);
    }
  }

  /** Earlier batches keep all fields but their run; new ones wait, or owe nothing. */
  predicate ReservedRows(before: seq<Batch>, after: seq<Batch>) {
    && |before| <= |after|
    && (forall i :: 0 <= i < |before| ==> after[i] == before[i].(runId := after[i].runId))
    && (forall i :: |before| <= i < |after| ==>
          after[i].receiptHash.None? && (after[i].status.Prepared? || after[i].status.Confirmed?))
  }

  lemma ClaimedRows(s: System, base: System, q: nat, chosen: seq<seq<ClickId>>, chargeIds: seq<nat>)
    requires q < |s.runs| && |chosen| == |chargeIds| && base.batches == TakeOver(s, q)
    requires forall g :: g in chosen ==> |g| > 0 && Known(base.clicks, g)
    ensures ReservedRows(s.batches, AddGroups(base, q, chosen, chargeIds).batches)
    ensures var t := AddGroups(base, q, chosen, chargeIds); t == base.(clicks := t.clicks, batches := t.batches)
  {
    AddGroupsSeen(base, q, chosen, chargeIds);
  }

  /** The working copies are the tables after the groups chosen so far. */
  ghost predicate Claimed(base: System, q: nat, chosen: seq<seq<ClickId>>, chargeIds: seq<nat>, rows: seq<Batch>,
                          work: map<ClickId, Click>)
  {
    && |chosen| == |chargeIds|
    && (forall g :: g in chosen ==> |g| > 0 && Known(base.clicks, g))
    && rows == AddGroups(base, q, chosen, chargeIds).batches
    && work == AddGroups(base, q, chosen, chargeIds).clicks
  }

  /** Drawn ids are new and distinct, and the working copy holds them and the earlier ids. */
  ghost predicate NoCollision(before: seq<Batch>, chargeIds: seq<nat>, rows: seq<Batch>) {
    && FreshIds(before, chargeIds)
    && (forall k :: 0 <= k < |chargeIds| ==> HasId(rows, chargeIds[k]))
    && (forall i :: 0 <= i < |before| ==> HasId(rows, before[i].chargeId))
  }

  predicate HasId(rows: seq<Batch>, chargeId: nat) {
    exists i :: 0 <= i < |rows| && rows[i].chargeId == chargeId
  }

  /** Each row of the working copy is an earlier one or carries an id drawn for one of the first groups. */
  ghost predicate Drawn(before: seq<Batch>, rows: seq<Batch>, random: nat -> nat, n: nat) {
    forall i :: 0 <= i < |rows| ==>
      || (i < |before| && rows[i].chargeId == before[i].chargeId)
      || exists m :: 0 <= m < n && random(m) == rows[i].chargeId
  }

  /** Some drawn id belongs to an earlier batch or was drawn before. */
  ghost predicate Repeats(before: seq<Batch>, random: nat -> nat, n: nat) {
    exists k :: 0 <= k < n && (HasId(before, random(k)) || exists m :: 0 <= m < k && random(m) == random(k))
  }

  lemma DrawnAgain(before: seq<Batch>, rows: seq<Batch>, random: nat -> nat, n: nat)
    requires Drawn(before, rows, random, n) && HasId(rows, random(n))
    ensures forall k :: k > n ==> Repeats(before, random, k)
  {
    var i :| 0 <= i < |rows| && rows[i].chargeId == random(n);
    if i < |before| && rows[i].chargeId == before[i].chargeId {
      assert HasId(before, random(n));
    }
  }

  lemma DrawnOneMore(before: seq<Batch>, few: seq<Batch>, rows: seq<Batch>, random: nat -> nat, n: nat)
    requires Drawn(before, few, random, n) && |rows| == |few| + 1 && rows[..|few|] == few
    requires rows[|few|].chargeId == random(n)
    ensures Drawn(before, rows, random, n + 1)
  {
    forall i | 0 <= i < |few| ensures rows[i] == few[i] {
      assert rows[..|few|][i] == few[i];
    }
  }

  lemma ReservableIsKnown(clicks: map<ClickId, Click>, group: seq<ClickId>)
    requires Reservable(clicks, group)
    ensures |group| > 0 && Known(clicks, group)
  {
  }

  lemma ClaimedStep(base: System, q: nat, chosen: seq<seq<ClickId>>, chargeIds: seq<nat>, rows: seq<Batch>,
                    work: map<ClickId, Click>, group: seq<ClickId>, chargeId: nat)
    requires Claimed(base, q, chosen, chargeIds, rows, work) && |group| > 0 && Known(base.clicks, group)
    ensures Known(work, group) && NewBatch(work, q, group, chargeId).chargeId == chargeId
    ensures var b := NewBatch(work, q, group, chargeId);
      Claimed(base, q, chosen + [group], chargeIds + [chargeId], rows + [b], ClaimClicks(work, group, |rows|, b.due))
  {
    AddGroupsSnoc(base, q, chosen, chargeIds, group, chargeId);
    AddGroupRows(AddGroups(base, q, chosen, chargeIds), q, group, chargeId);
  }

  lemma HasIdGrows(rows: seq<Batch>, b: Batch, chargeId: nat)
    requires HasId(rows, chargeId)
    ensures HasId(rows + [b], chargeId)
  {
    var i :| 0 <= i < |rows| && rows[i].chargeId == chargeId;
    assert (rows + [b])[i].chargeId == chargeId;
  }

  lemma NewIdTaken(before: seq<Batch>, chargeIds: seq<nat>, rows: seq<Batch>, work: map<ClickId, Click>, q: nat,
                   group: seq<ClickId>, chargeId: nat)
    requires NoCollision(before, chargeIds, rows) && !HasId(rows, chargeId)
    requires |group| > 0 && Known(work, group)
    ensures NoCollision(before, chargeIds + [chargeId], rows + [NewBatch(work, q, group, chargeId)])
  {
    var b := NewBatch(work, q, group, chargeId);
    var more := chargeIds + [chargeId];
    assert (rows + [b])[|rows|].chargeId == chargeId;
    forall k | 0 <= k < |more| ensures HasId(rows + [b], more[k]) {
      if k < |chargeIds| {
        HasIdGrows(rows, b, chargeIds[k]);
      }
    }
    forall i | 0 <= i < |before| ensures HasId(rows + [b], before[i].chargeId) && before[i].chargeId != chargeId {
      HasIdGrows(rows, b, before[i].chargeId);
    }
  }

  lemma ReservableAreKnown(clicks: map<ClickId, Click>, groups: seq<seq<ClickId>>)
    requires forall k :: 0 <= k < |groups| ==> Reservable(clicks, groups[k])
    ensures forall g :: g in groups ==> Reservable(clicks, g) && |g| > 0 && Known(clicks, g)
  {
  }

  lemma AddGroupRows(s: System, run: nat, group: seq<ClickId>, chargeId: nat)
    requires |group| > 0 && Known(s.clicks, group)
    ensures var t := AddGroup(s, run, group, chargeId);
      && t.batches == s.batches + [NewBatch(s.clicks, run, group, chargeId)]
      && t.clicks == ClaimClicks(s.clicks, group, |s.batches|, NewBatch(s.clicks, run, group, chargeId).due)
  {
  }

  lemma EveryClickHasAGroup(clicks: map<ClickId, Click>, ids: seq<ClickId>, groups: seq<seq<ClickId>>, c: ClickId)
    requires Known(clicks, ids) && Grouping.IsGrouping(clicks, ids, groups) && c in ids
    ensures exists k :: 0 <= k < |groups| && c in groups[k]
  {
    var keys := Grouping.Keys(clicks, ids);
    assert clicks[c].key in keys;
    var k :| 0 <= k < |keys| && keys[k] == clicks[c].key;
    assert c in groups[k];
  }

  lemma {:induction false} AddGroupsClaim(s: System, run: nat, groups: seq<seq<ClickId>>, chargeIds: seq<nat>,
                                          c: ClickId)
    requires |groups| == |chargeIds| && (forall g :: g in groups ==> |g| > 0 && Known(s.clicks, g))
    requires c in s.clicks && (s.clicks[c].batch.Some? || exists k :: 0 <= k < |groups| && c in groups[k])
    ensures c in AddGroups(s, run, groups, chargeIds).clicks
    ensures AddGroups(s, run, groups, chargeIds).clicks[c].batch.Some?
    decreases |groups|
  {
    if groups != [] {
      var t := AddGroup(s, run, groups[0], chargeIds[0]);
      assert forall g :: g in groups[1..] ==> g in groups && |g| > 0 && Known(s.clicks, g);
      assert forall g :: g in groups[1..] ==> Known(t.clicks, g);
      if t.clicks[c].batch.None? {
        var k :| 0 <= k < |groups| && c in groups[k];
        assert groups[1..][k - 1] == groups[k];
      }
      AddGroupsClaim(t, run, groups[1..], chargeIds[1..], c);
    }
  }

  ghost function SettledState(s: System, i: nat, event: ChargeEvent, number: nat, hash: Hash, at: nat): System
    requires StepFits(s, Settle(i, event, number, hash, at))
  {
    s.(batches := s.batches[i := SettledBatch(s.batches[i], event, number, hash)],
       clicks := SettleClicks(s.clicks, s.batches[i].members, event.charged),
       seen := s.seen[i := at], reverted := Forget(s.reverted, i))
  }

  function GivenUpBatch(b: Batch, code: Code, number: nat, hash: Hash): Batch {
    b.(status := GivenUp, charged := Some(0), shortfall := Some(b.due),
       receiptNumber := Some(number), receiptHash := Some(hash), error := Some(code))
  }

  lemma SettledBatchIsSettled(b: Batch, event: ChargeEvent, number: nat, hash: Hash)
    requires 0 <= event.charged <= b.due
    ensures SettledBy(b, SettledBatch(b, event, number, hash), event, number, hash)
    ensures Terminal(SettledBatch(b, event, number, hash).status)
  {
  }

  lemma MayGiveUp(s: System, i: nat, code: Code, number: nat, hash: Hash, at: nat, tips: seq<Hash>)
    requires AtBatch(s, i) && (s.batches[i].status.Prepared? || s.batches[i].status.Failed?) &&
      SeenInPass(s, tips, number, hash, at)
    ensures Enabled(s, GiveUp(i, code, number, hash, at), tips)
  {
  }

  ghost function GivenUpState(s: System, i: nat, code: Code, number: nat, hash: Hash, at: nat): System
    requires AtBatch(s, i)
  {
    s.(batches := s.batches[i := GivenUpBatch(s.batches[i], code, number, hash)],
       clicks := Mark(s.clicks, s.batches[i].members, ClickStatus.Uncollectable, Some(code)),
       seen := s.seen[i := at], reverted := Forget(s.reverted, i))
  }

  lemma NextGivesUp(s: System, i: nat, code: Code, number: nat, hash: Hash, at: nat)
    requires StepFits(s, GiveUp(i, code, number, hash, at)) && AtBatch(s, i)
    ensures Next(s, GiveUp(i, code, number, hash, at)) == GivenUpState(s, i, code, number, hash, at)
  {
  }

  lemma NextSettles(s: System, i: nat, event: ChargeEvent, number: nat, hash: Hash, at: nat)
    requires StepFits(s, Settle(i, event, number, hash, at))
    ensures Next(s, Settle(i, event, number, hash, at)) == SettledState(s, i, event, number, hash, at)
  {
  }

  /** Marking the two lists of the settlement loop is the settlement of the ledger. */
  lemma SplitIsSettlement(clicks: map<ClickId, Click>, ids: seq<ClickId>, charged: nat, settled: seq<nat>,
                          unpaid: seq<nat>)
    requires Known(clicks, ids) && (forall i, j :: 0 <= i < j < |ids| ==> ids[i] != ids[j])
    requires forall k :: 0 <= k < |ids| ==>
      (ids[k] in settled <==> Allocation.Settles(Amounts(clicks, ids), k, charged))
    requires forall k :: 0 <= k < |ids| ==>
      (ids[k] in unpaid <==> !Allocation.Settles(Amounts(clicks, ids), k, charged))
    requires forall id :: id in settled || id in unpaid ==> id in ids
    ensures Mark(Mark(clicks, settled, ClickStatus.Settled, None), unpaid, ClickStatus.Uncollectable,
      Some(InsufficientStake))
         == SettleClicks(clicks, ids, charged)
  {
    var paid := PaidIds(clicks, ids, charged);
    forall c | c in ids ensures (c in settled <==> c in paid) && (c in unpaid <==> c !in paid) {
      var k :| 0 <= k < |ids| && ids[k] == c;
      if c in paid {
        var j :| 0 <= j < |ids| && Allocation.Settles(Amounts(clicks, ids), j, charged) && ids[j] == c;
        assert j == k;
      }
    }
  }
}
