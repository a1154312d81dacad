/**
 The reconciliation checkpoint. A pass that finds its saved checkpoint still canonical skips
 the settled batches whose receipts lie at or below it; this module proves that the skipped
 batches are ones the full scan would have left alone.
 */
module ChargeCheckpoint {
  import opened Prelude
  import opened Chain
  import opened ChargeTypes
  import opened ChargeSteps
  import opened ChargeLedger

  predicate HasReceipt(b: Batch) { Terminal(b.status) && b.receiptHash.Some? && b.receiptNumber.Some? }

  /** The receipt of batch `i` was canonical when it was last seen, not before `since`. */
  ghost predicate Witnessed(s: System, tips: seq<Hash>, i: nat, since: nat)
    requires i < |s.batches| && HasReceipt(s.batches[i])
  {
    && i in s.seen && since <= s.seen[i]
    && CanonicalAt(s.batches[i].receiptHash.value, tips, s.seen[i])
    && Height(s.batches[i].receiptHash.value) == s.batches[i].receiptNumber.value
  }

  ghost predicate CheckpointOk(s: System, tips: seq<Hash>) {
    s.checkpoint.Some? ==>
      CanonicalAt(s.checkpoint.value.hash, tips, s.savedAt)
      && Height(s.checkpoint.value.hash) == s.checkpoint.value.number
  }

  ghost predicate SeenInv(s: System, tips: seq<Hash>) {
    && s.savedAt <= s.passStart < |tips|
    && (forall i :: i in s.seen ==> s.seen[i] < |tips|)
    && (forall i :: 0 <= i < |s.batches| && HasReceipt(s.batches[i]) ==> Witnessed(s, tips, i, s.savedAt))
    && CheckpointOk(s, tips)
  }

  /** A receipt that the checkpoint covers is canonical whenever the checkpoint still is. */
  lemma CoveredReceiptIsCanonical(s: System, tips: seq<Hash>, i: nat, time: nat)
    requires SeenInv(s, tips) && NoRevival(tips)
    requires i < |s.batches| && HasReceipt(s.batches[i])
    requires s.checkpoint.Some? && Covered(s, i, s.checkpoint.value)
    requires CanonicalAt(s.checkpoint.value.hash, tips, time)
    requires s.seen[i] <= time
    ensures CanonicalAt(s.batches[i].receiptHash.value, tips, time)
    ensures On(s.batches[i].receiptHash.value, s.checkpoint.value.hash)
  {
    var receipt, saved := s.batches[i].receiptHash.value, s.checkpoint.value.hash;
    assert Witnessed(s, tips, i, s.savedAt);
    CanonicalBetween(saved, tips, s.savedAt, s.seen[i], time);
    OneBranch(receipt, saved, tips[s.seen[i]]);
    OnTransitive(receipt, saved, tips[time]);
  }

  // ---- the invariant over steps ---------------------------------------------------------

  lemma SaveKeepsSeen(s: System, tips: seq<Hash>, number: nat, hash: Hash, previousAt: Option<nat>)
    requires SeenInv(s, tips) && NoRevival(tips) && CanSave(s, tips, number, hash, previousAt)
    ensures SeenInv(Next(s, SaveCheckpoint(number, hash, previousAt)), tips)
  {
    var t := Next(s, SaveCheckpoint(number, hash, previousAt));
    forall i | 0 <= i < |t.batches| && HasReceipt(t.batches[i]) ensures Witnessed(t, tips, i, t.savedAt) {
      assert Witnessed(s, tips, i, s.savedAt);
      if s.seen[i] < s.passStart {
        CoveredReceiptIsCanonical(s, tips, i, previousAt.value);
      }
    }
  }

  /** A step on one batch that leaves its receipt fields and status alone, or drops the receipt. */
  lemma OtherStepKeepsSeen(s: System, t: System, tips: seq<Hash>)
    requires SeenInv(s, tips)
    requires t.seen == s.seen && t.savedAt == s.savedAt && t.passStart == s.passStart && t.checkpoint == s.checkpoint
    requires |s.batches| <= |t.batches|
    requires forall i :: 0 <= i < |s.batches| && HasReceipt(t.batches[i]) ==>
      HasReceipt(s.batches[i]) && t.batches[i].receiptHash == s.batches[i].receiptHash
      && t.batches[i].receiptNumber == s.batches[i].receiptNumber
    requires forall i :: |s.batches| <= i < |t.batches| ==> !HasReceipt(t.batches[i])
    ensures SeenInv(t, tips)
  {
    forall i | 0 <= i < |t.batches| && HasReceipt(t.batches[i]) ensures Witnessed(t, tips, i, t.savedAt) {
      assert Witnessed(s, tips, i, s.savedAt);
    }
  }

  lemma {:induction false} AddGroupsSeen(s: System, run: nat, groups: seq<seq<ClickId>>, chargeIds: seq<nat>)
    requires |groups| == |chargeIds| && (forall g :: g in groups ==> |g| > 0 && Known(s.clicks, g))
    ensures var t := AddGroups(s, run, groups, chargeIds);
      && t == s.(clicks := t.clicks, batches := t.batches)
      && |s.batches| <= |t.batches|
      && (forall i :: 0 <= i < |s.batches| ==> t.batches[i] == s.batches[i])
      && (forall i :: |s.batches| <= i < |t.batches| ==>
            t.batches[i].receiptHash.None? && t.batches[i].tx.None?
            && (t.batches[i].status.Prepared? || t.batches[i].status.Confirmed?))
    decreases |groups|
  {
    if groups != [] {
      var t := AddGroup(s, run, groups[0], chargeIds[0]);
      assert forall g :: g in groups[1..] ==> g in groups && |g| > 0 && Known(s.clicks, g);
      assert forall g :: g in groups[1..] ==> Known(t.clicks, g);
      AddGroupsSeen(t, run, groups[1..], chargeIds[1..]);
    }
  }

  lemma ReserveKeepsSeen(s: System, e: Step, tips: seq<Hash>)
    requires SeenInv(s, tips) && e.Reserve? && StepFits(s, e)
    ensures SeenInv(Next(s, e), tips)
  {
    var m := s.(batches := TakeOver(s, e.run), runs := s.runs[e.run := StartedRun(s.runs[e.run], e.cutoff)]);
    AddGroupsSeen(m, e.run, e.groups, e.chargeIds);
    OtherStepKeepsSeen(s, Next(s, e), tips);
  }

  lemma FreshReceiptKeepsSeen(s: System, e: Step, tips: seq<Hash>)
    requires SeenInv(s, tips) && Enabled(s, e, tips) && StepFits(s, e)
    requires e.Settle? || e.GiveUp? || e.Confirm?
    ensures SeenInv(Next(s, e), tips)
  {
    var t := Next(s, e);
    forall j | 0 <= j < |t.batches| && HasReceipt(t.batches[j]) ensures Witnessed(t, tips, j, t.savedAt) {
      if j != e.batch {
        assert Witnessed(s, tips, j, s.savedAt);
      } else if e.Confirm? && HasReceipt(s.batches[j]) {
        assert Witnessed(s, tips, j, s.savedAt);
      }
    }
  }

  lemma RowKeepsSeen(s: System, e: Step, tips: seq<Hash>)
    requires LedgerInv(s) && SeenInv(s, tips) && RowStep(e) && Enabled(s, e, tips) && StepFits(s, e)
    ensures SeenInv(Next(s, e), tips)
  {
    RowStepChangesRow(s, e);
    RowKeepsReceipt(s.batches[e.batch], e);
    hide Enabled, LedgerInv, RowAfter, HasReceipt, SeenInv, Next;
    OtherStepKeepsSeen(s, Next(s, e), tips);
  }

  lemma RowKeepsReceipt(b: Batch, e: Step)
    requires RowStep(e)
    ensures HasReceipt(RowAfter(b, e)) ==>
      HasReceipt(b) && RowAfter(b, e).receiptHash == b.receiptHash && RowAfter(b, e).receiptNumber == b.receiptNumber
  {
  }

  lemma BeginKeepsSeen(s: System, e: Step, tips: seq<Hash>)
    requires SeenInv(s, tips) && e.BeginPass? && Enabled(s, e, tips) && StepFits(s, e)
    ensures SeenInv(Next(s, e), tips)
  {
    var t := Next(s, e);
    forall j | 0 <= j < |t.batches| && HasReceipt(t.batches[j]) ensures Witnessed(t, tips, j, t.savedAt) {
      assert Witnessed(s, tips, j, s.savedAt);
    }
  }

  lemma RollbackKeepsSeen(s: System, e: Step, tips: seq<Hash>)
    requires SeenInv(s, tips) && e.Rollback? && Enabled(s, e, tips) && StepFits(s, e)
    ensures SeenInv(Next(s, e), tips)
  {
    hide Mark;
    OtherStepKeepsSeen(s, Next(s, e), tips);
  }

  lemma StepKeepsSeen(s: System, e: Step, tips: seq<Hash>)
    requires LedgerInv(s) && SeenInv(s, tips) && NoRevival(tips) && Enabled(s, e, tips) && StepFits(s, e)
    ensures SeenInv(Next(s, e), tips)
  {
    hide AddGroups, SettleClicks, Mark, RefreshedRun, TakenOver, CanReserve, CanSave, WalletFree, LatestNonce, StepFits,
         LedgerInv;
    if RowStep(e) {
      RowKeepsSeen(s, e, tips);
    } else if e.Settle? || e.GiveUp? || e.Confirm? {
      FreshReceiptKeepsSeen(s, e, tips);
    } else if e.Reserve? {
      ReserveKeepsSeen(s, e, tips);
    } else if e.SaveCheckpoint? {
      SaveKeepsSeen(s, tips, e.number, e.hash, e.previousAt);
    } else if e.BeginPass? {
      BeginKeepsSeen(s, e, tips);
    } else if e.Rollback? {
      RollbackKeepsSeen(s, e, tips);
    } else {
      OtherStepKeepsSeen(s, Next(s, e), tips);
    }
  }

  /**
   Through blocked passes, crashes and reorganizations in the middle of a pass, every settled
   receipt has been seen canonical at or after the time the checkpoint was read.
   */
  lemma {:induction false} SeenAlwaysHolds(confirmations: nat, log: seq<Step>, tips: seq<Hash>)
    requires Legal(confirmations, log, tips) && NoRevival(tips)
    ensures SeenInv(After(confirmations, log), tips)
  {
    if log != [] {
      var before := log[..|log| - 1];
      SeenAlwaysHolds(confirmations, before, tips);
      LedgerAlwaysHolds(confirmations, before, tips);
      StepKeepsLedger(After(confirmations, before), log[|log| - 1], tips);
      StepKeepsSeen(After(confirmations, before), log[|log| - 1], tips);
    }
  }

  // ---- the incremental query ------------------------------------------------------------

  /** What the pass reconciles when its checkpoint is canonical: everything it might change. */
  predicate InIncrementalScan(s: System, i: nat)
    requires i < |s.batches|
  {
    InFlight(s.batches[i].status) || s.batches[i].status.Failed? ||
    (Terminal(s.batches[i].status) &&
     (s.batches[i].receiptNumber.None? ||
      (s.checkpoint.Some? && s.batches[i].receiptNumber.value > s.checkpoint.value.number)))
  }

  predicate InFullScan(b: Batch) {
    InFlight(b.status) || b.status.Failed? || Terminal(b.status)
  }

  /** The full scan changes a settled batch only when its receipt is no longer canonical. */
  ghost predicate ScanWouldAct(b: Batch, tip: Hash) {
    InFlight(b.status) || b.status.Failed? ||
    (HasReceipt(b) && !On(b.receiptHash.value, tip))
  }

  /**
   Refinement: at any time at which the saved checkpoint is canonical, each batch on which
   the full scan would act is in the incremental scan.
   */
  lemma IncrementalScanMissesNothing(confirmations: nat, log: seq<Step>, tips: seq<Hash>, time: nat, i: nat)
    requires Legal(confirmations, log, tips) && NoRevival(tips) && time < |tips|
    requires var s := After(confirmations, log);
      && i < |s.batches|
      && s.checkpoint.Some? && On(s.checkpoint.value.hash, tips[time])
      && (i in s.seen ==> s.seen[i] <= time)
      && ScanWouldAct(s.batches[i], tips[time])
    ensures InIncrementalScan(After(confirmations, log), i)
  {
    var s := After(confirmations, log);
    SeenAlwaysHolds(confirmations, log, tips);
    if HasReceipt(s.batches[i]) {
      assert Witnessed(s, tips, i, s.savedAt);
      if Covered(s, i, s.checkpoint.value) {
        CoveredReceiptIsCanonical(s, tips, i, time);
      }
    }
  }
}
