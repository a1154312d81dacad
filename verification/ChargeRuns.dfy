/** What the status of a run says about its batches. */
module ChargeRuns {
  import opened ChargeTypes
  import opened ChargeSteps
  import opened ChargeLedger

  predicate Done(r: Run) { r.status.RunCompleted? || r.status.RunPartial? }

  /** A finished run has only settled batches, and its status says whether all were paid. */
  predicate RunOk(s: System, q: nat)
    requires q < |s.runs|
  {
    Done(s.runs[q]) ==>
      && s.runs[q].finishedAt.Some?
      && !HasOpenBatch(s.batches, q)
      && (s.runs[q].status.RunPartial? <==> HasUnpaidBatch(s.batches, q))
  }

  predicate RunsInv(s: System) {
    forall q :: 0 <= q < |s.runs| ==> RunOk(s, q)
  }

  /** The batches of run `q` are the same rows with the same status in both tables. */
  predicate SameBatchesOf(a: seq<Batch>, b: seq<Batch>, q: nat) {
    && |a| <= |b|
    && (forall i :: 0 <= i < |a| ==> (a[i].runId == q <==> b[i].runId == q))
    && (forall i :: 0 <= i < |a| && a[i].runId == q ==> a[i].status == b[i].status)
    && (forall i :: |a| <= i < |b| ==> b[i].runId != q)
  }

  lemma SameBatchesSameVerdict(a: seq<Batch>, b: seq<Batch>, q: nat)
    requires SameBatchesOf(a, b, q)
    ensures HasOpenBatch(a, q) == HasOpenBatch(b, q)
    ensures HasUnpaidBatch(a, q) == HasUnpaidBatch(b, q)
  {
    if HasOpenBatch(a, q) {
      var i :| 0 <= i < |a| && a[i].runId == q && !Terminal(a[i].status);
      assert b[i].runId == q && !Terminal(b[i].status);
    }
    if HasUnpaidBatch(a, q) {
      var i :| 0 <= i < |a| && a[i].runId == q && (a[i].status.Partial? || a[i].status.GivenUp?);
      assert b[i].runId == q && (b[i].status.Partial? || b[i].status.GivenUp?);
    }
  }

  /** Work on an unsettled batch cannot disturb a finished run: its own run is not finished. */
  lemma OpenBatchWork(s: System, t: System, i: nat)
    requires RunsInv(s) && i < |s.batches|
    requires |t.batches| == |s.batches| && t.batches == s.batches[i := t.batches[i]] && t.runs == s.runs
    requires t.batches[i].runId == s.batches[i].runId
    requires !Terminal(s.batches[i].status) || s.batches[i].status == t.batches[i].status
    ensures RunsInv(t)
  {
    forall q | 0 <= q < |t.runs| ensures RunOk(t, q) {
      assert RunOk(s, q);
      if Done(s.runs[q]) {
        if s.batches[i].runId == q {
          assert Terminal(s.batches[i].status);
        }
        SameBatchesSameVerdict(s.batches, t.batches, q);
      }
    }
  }

  lemma {:induction false} AddGroupsRuns(s: System, run: nat, groups: seq<seq<ClickId>>, chargeIds: seq<nat>, q: nat)
    requires |groups| == |chargeIds| && (forall g :: g in groups ==> |g| > 0 && Known(s.clicks, g))
    requires q != run
    ensures AddGroups(s, run, groups, chargeIds).runs == s.runs
    ensures SameBatchesOf(s.batches, AddGroups(s, run, groups, chargeIds).batches, q)
    decreases |groups|
  {
    if groups != [] {
      var t := AddGroup(s, run, groups[0], chargeIds[0]);
      assert forall g :: g in groups[1..] ==> g in groups && |g| > 0 && Known(s.clicks, g);
      assert forall g :: g in groups[1..] ==> Known(t.clicks, g);
      AddGroupsRuns(t, run, groups[1..], chargeIds[1..], q);
    }
  }

  lemma {:induction false} AddGroupsKeepsRunRows(s: System, run: nat, groups: seq<seq<ClickId>>, chargeIds: seq<nat>)
    requires |groups| == |chargeIds| && (forall g :: g in groups ==> |g| > 0 && Known(s.clicks, g))
    ensures AddGroups(s, run, groups, chargeIds).runs == s.runs
  {
    AddGroupsRuns(s, run, groups, chargeIds, run + 1);
  }

  lemma ReserveKeepsRuns(s: System, run: nat, cutoff: int, groups: seq<seq<ClickId>>, chargeIds: seq<nat>)
    requires LedgerInv(s) && RunsInv(s) && CanReserve(s, run, groups, chargeIds)
    requires StepFits(s, Reserve(run, cutoff, groups, chargeIds))
    ensures RunsInv(Next(s, Reserve(run, cutoff, groups, chargeIds)))
  {
    var m := s.(batches := TakeOver(s, run), runs := s.runs[run := StartedRun(s.runs[run], cutoff)]);
    var t := AddGroups(m, run, groups, chargeIds);
    AddGroupsKeepsRunRows(m, run, groups, chargeIds);
    forall q | 0 <= q < |t.runs| ensures RunOk(t, q) {
      if q != run && Done(s.runs[q]) {
        assert RunOk(s, q);
        AddGroupsRuns(m, run, groups, chargeIds, q);
        SameBatchesSameVerdict(s.batches, m.batches, q);
        SameBatchesSameVerdict(m.batches, t.batches, q);
      }
    }
  }

  lemma RollbackKeepsRuns(s: System, i: nat, at: nat)
    requires LedgerInv(s) && RunsInv(s) && AtBatch(s, i)
    ensures RunsInv(Next(s, Rollback(i, at)))
  {
    var t := Next(s, Rollback(i, at));
    forall q | 0 <= q < |t.runs| ensures RunOk(t, q) {
      assert RunOk(s, q);
      if q != s.batches[i].runId {
        SameBatchesSameVerdict(s.batches, t.batches, q);
      }
    }
  }

  lemma OtherRowsOnly(s: System, t: System)
    requires RunsInv(s) && t.runs == s.runs && t.batches == s.batches
    ensures RunsInv(t)
  {
    forall q | 0 <= q < |t.runs| ensures RunOk(t, q) {
      assert RunOk(s, q);
    }
  }

  /** A step on one batch that does not reopen its run. */
  lemma BatchRowKeepsRuns(s: System, e: Step, tips: seq<Hash>)
    requires RunsInv(s) && Enabled(s, e, tips) && StepFits(s, e) && (RowStep(e) || e.Settle? || e.GiveUp?)
    ensures RunsInv(Next(s, e))
  {
    hide SettleClicks, Mark, SeenInPass, WalletFree, LatestNonce, Undecided, EvidenceOk, RunsInv, Matches;
    OpenBatchWork(s, Next(s, e), e.batch);
  }

  /** A step that opens, refreshes or blocks a run. */
  lemma RunRowKeepsRuns(s: System, e: Step)
    requires RunsInv(s) && StepFits(s, e) && (e.OpenRun? || e.Refresh? || e.BlockRun?)
    ensures RunsInv(Next(s, e))
  {
    var t := Next(s, e);
    forall q | 0 <= q < |t.runs| ensures RunOk(t, q) {
      assert q < |s.runs| ==> RunOk(s, q);
    }
  }

  lemma StepKeepsRuns(s: System, e: Step, tips: seq<Hash>)
    requires LedgerInv(s) && RunsInv(s) && Enabled(s, e, tips) && StepFits(s, e)
    ensures RunsInv(Next(s, e))
  {
    hide AddGroups, SettleClicks, Mark, TakenOver, CanSave, SeenInPass, WalletFree, LatestNonce, AfterMove, CanPublish,
         Undecided, EvidenceOk, RefreshedRun, RunsInv;
    if RowStep(e) || e.Settle? || e.GiveUp? {
      BatchRowKeepsRuns(s, e, tips);
    } else if e.Reserve? {
      ReserveKeepsRuns(s, e.run, e.cutoff, e.groups, e.chargeIds);
    } else if e.Rollback? {
      RollbackKeepsRuns(s, e.batch, e.at);
    } else if e.OpenRun? || e.Refresh? || e.BlockRun? {
      RunRowKeepsRuns(s, e);
    } else {
      OtherRowsOnly(s, Next(s, e));
    }
  }

  /** A finished run stays truthful through takeover, retry, rollback and crash. */
  lemma {:induction false} RunsAlwaysTruthful(confirmations: nat, log: seq<Step>, tips: seq<Hash>)
    requires Legal(confirmations, log, tips)
    ensures RunsInv(After(confirmations, log))
  {
    if log != [] {
      var before := log[..|log| - 1];
      RunsAlwaysTruthful(confirmations, before, tips);
      LedgerAlwaysHolds(confirmations, before, tips);
      StepKeepsLedger(After(confirmations, before), log[|log| - 1], tips);
      StepKeepsRuns(After(confirmations, before), log[|log| - 1], tips);
    }
  }

  // ---- the finish time ----------------------------------------------------------------

  /** A run has a finish time exactly when it is finished. */
  predicate FinishTimesMatch(s: System) {
    forall q :: 0 <= q < |s.runs| ==> (s.runs[q].finishedAt.Some? <==> Done(s.runs[q]))
  }

  /**
   A write that moves a run back to RUNNING or BLOCKED without looking at its row, although
   the row already has a finish time. The worker does this to an automatic run that it listed
   before a manual run of the same pass took its batches and closed it.
   */
  predicate Stale(s: System, e: Step) {
    (e.Reserve? || e.BlockRun?) && e.run < |s.runs| && s.runs[e.run].finishedAt.Some?
  }

  lemma FinishTimesMatchIffNotStale(s: System, e: Step, tips: seq<Hash>)
    requires LedgerInv(s) && FinishTimesMatch(s) && Enabled(s, e, tips) && StepFits(s, e)
    ensures FinishTimesMatch(Next(s, e)) <==> !Stale(s, e)
  {
    hide AddGroups, SettleClicks, Mark, TakenOver, CanSave, CanReserve, CanSign, SeenInPass, WalletFree, LatestNonce;
    var t := Next(s, e);
    if e.Reserve? {
      var m := s.(batches := TakeOver(s, e.run), runs := s.runs[e.run := StartedRun(s.runs[e.run], e.cutoff)]);
      AddGroupsKeepsRunRows(m, e.run, e.groups, e.chargeIds);
      assert t.runs[e.run].finishedAt == s.runs[e.run].finishedAt && !Done(t.runs[e.run]);
    } else if e.BlockRun? {
      assert t.runs[e.run].finishedAt == s.runs[e.run].finishedAt && !Done(t.runs[e.run]);
    } else if e.Refresh? || e.Rollback? || e.OpenRun? {
    } else {
      assert t.runs == s.runs;
    }
  }

  /** Finish times match after every prefix of the log. */
  predicate AlwaysMatched(confirmations: nat, log: seq<Step>) {
    && FinishTimesMatch(After(confirmations, log))
    && (log != [] ==> AlwaysMatched(confirmations, log[..|log| - 1]))
  }

  predicate NeverStale(confirmations: nat, log: seq<Step>) {
    log != [] ==>
      && !Stale(After(confirmations, log[..|log| - 1]), log[|log| - 1])
      && NeverStale(confirmations, log[..|log| - 1])
  }

  /** Over whole runs: finish times match in every state iff no write was stale. */
  lemma {:induction false} MatchedIffNeverStale(confirmations: nat, log: seq<Step>, tips: seq<Hash>)
    requires Legal(confirmations, log, tips)
    ensures AlwaysMatched(confirmations, log) <==> NeverStale(confirmations, log)
  {
    if log != [] {
      var before := log[..|log| - 1];
      MatchedIffNeverStale(confirmations, before, tips);
      var s := After(confirmations, before);
      LedgerAlwaysHolds(confirmations, before, tips);
      StepKeepsLedger(s, log[|log| - 1], tips);
      if FinishTimesMatch(s) {
        FinishTimesMatchIffNotStale(s, log[|log| - 1], tips);
      }
    }
  }
}
