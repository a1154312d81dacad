/** What the reservation transaction leaves behind, row by row. */
module ChargeReservation {
  import opened Prelude
  import opened ChargeTypes
  import opened ChargeSteps
  import Allocation

  /** A new batch owes the sum of its clicks and is unsent; one that owes nothing is settled from the start. */
  predicate ReservedBatch(clicks: map<ClickId, Click>, b: Batch, run: nat, group: seq<ClickId>, chargeId: nat) {
    && Known(clicks, group) && |group| > 0
    && b.runId == run && b.chargeId == chargeId && b.members == group
    && (forall c :: c in group ==> b.key == clicks[c].key)
    && b.due == Allocation.Sum(Amounts(clicks, group))
    && b.requested == (if b.due <= MAX_UINT256 then b.due else MAX_UINT256)
    && (if b.due == 0 then b.status.Confirmed? && b.charged == Some(0) && b.shortfall == Some(0)
        else b.status.Prepared? && b.charged.None? && b.shortfall.None?)
    && b.tx.None? && b.receiptNumber.None? && b.receiptHash.None? && b.error.None?
    && b.attempts == 0 && b.nextAttemptAt.None?
  }

  /** A manual run moves the unsent batches of automatic runs that are not finished. */
  predicate Moves(s: System, i: nat, run: nat)
    requires i < |s.batches| && run < |s.runs|
  {
    var b := s.batches[i];
    && s.runs[run].trigger.Manual? && (b.status.Prepared? || b.status.Failed?)
    && b.runId < |s.runs| && s.runs[b.runId].trigger.Auto?
    && (s.runs[b.runId].status.Queued? || s.runs[b.runId].status.Running? || s.runs[b.runId].status.Blocked?)
  }

  predicate ClaimedFor(c: Click, d: Click, i: nat, due: nat) {
    && d == c.(batch := Some(i), status := d.status)
    && if due == 0 then d.status == ClickStatus.Settled else d.status.Reserved?
  }

  predicate InGroups(groups: seq<seq<ClickId>>, c: ClickId) { exists k :: 0 <= k < |groups| && c in groups[k] }

  /** The clicks of each group are reserved for its batch. */
  ghost predicate ClicksClaimed(before: map<ClickId, Click>, n: nat, t: System, groups: seq<seq<ClickId>>)
    requires |t.batches| == n + |groups|
  {
    forall k, c :: 0 <= k < |groups| && c in groups[k] ==>
      c in before && c in t.clicks && ClaimedFor(before[c], t.clicks[c], n + k, t.batches[n + k].due)
  }

  ghost predicate OthersKept(before: map<ClickId, Click>, after: map<ClickId, Click>, groups: seq<seq<ClickId>>) {
    && after.Keys == before.Keys
    && forall c :: c in before && !InGroups(groups, c) ==> after[c] == before[c]
  }

  /** Each group has its batch, and its clicks are reserved for it; all other clicks are left alone. */
  ghost predicate GroupsClaimed(before: map<ClickId, Click>, n: nat, t: System, run: nat, groups: seq<seq<ClickId>>,
                                chargeIds: seq<nat>)
  {
    && |t.batches| == n + |groups| && |chargeIds| == |groups|
    && (forall k :: 0 <= k < |groups| ==> ReservedBatch(before, t.batches[n + k], run, groups[k], chargeIds[k]))
    && ClicksClaimed(before, n, t, groups)
    && OthersKept(before, t.clicks, groups)
  }

  ghost predicate Reserves(s: System, t: System, run: nat, cutoff: int, groups: seq<seq<ClickId>>, chargeIds: seq<nat>)
    requires run < |s.runs|
  {
    && GroupsClaimed(s.clicks, |s.batches|, t, run, groups, chargeIds)
    && (forall i :: 0 <= i < |s.batches| ==>
          t.batches[i] == s.batches[i].(runId := if Moves(s, i, run) then run else s.batches[i].runId))
    && |t.runs| == |s.runs| && (forall q :: 0 <= q < |s.runs| && q != run ==> t.runs[q] == s.runs[q])
    && t.runs[run] == s.runs[run].(status := Running, startedAt := Some(cutoff), error := None)
  }

  predicate Disjoint(groups: seq<seq<ClickId>>) {
    forall j, k, c :: 0 <= j < k < |groups| && c in groups[j] ==> c !in groups[k]
  }

  predicate OneStake(clicks: map<ClickId, Click>, group: seq<ClickId>) {
    && |group| > 0 && Known(clicks, group)
    && forall k :: 0 <= k < |group| ==> clicks[group[k]].key == clicks[group[0]].key
  }

  lemma ReservableHasOneStake(clicks: map<ClickId, Click>, groups: seq<seq<ClickId>>)
    requires forall g :: g in groups ==> Reservable(clicks, g)
    ensures forall k :: 0 <= k < |groups| ==> OneStake(clicks, groups[k])
  {
    forall k | 0 <= k < |groups| ensures OneStake(clicks, groups[k]) {
      assert groups[k] in groups;
    }
  }

  /** One group has its batch behind the others. */
  ghost predicate GroupClaimed(s: System, m: System, run: nat, group: seq<ClickId>, chargeId: nat) {
    && m == s.(batches := m.batches, clicks := m.clicks) && m.clicks.Keys == s.clicks.Keys
    && |m.batches| == |s.batches| + 1 && m.batches[..|s.batches|] == s.batches
    && ReservedBatch(s.clicks, m.batches[|s.batches|], run, group, chargeId)
    && (forall c :: c in group ==> ClaimedFor(s.clicks[c], m.clicks[c], |s.batches|, m.batches[|s.batches|].due))
    && (forall c :: c in s.clicks && c !in group ==> m.clicks[c] == s.clicks[c])
  }

  lemma FirstClaimed(s: System, run: nat, group: seq<ClickId>, chargeId: nat)
    requires OneStake(s.clicks, group)
    ensures GroupClaimed(s, AddGroup(s, run, group, chargeId), run, group, chargeId)
  {
    forall c | c in group ensures s.clicks[c].key == s.clicks[group[0]].key {
      var k :| 0 <= k < |group| && group[k] == c;
    }
  }

  lemma {:induction false} AddGroupsClaimed(s: System, run: nat, groups: seq<seq<ClickId>>, chargeIds: seq<nat>)
    requires |groups| == |chargeIds| && Disjoint(groups)
    requires forall k :: 0 <= k < |groups| ==> OneStake(s.clicks, groups[k])
    ensures forall g :: g in groups ==> |g| > 0 && Known(s.clicks, g)
    ensures var t := AddGroups(s, run, groups, chargeIds);
      && t == s.(batches := t.batches, clicks := t.clicks)
      && |t.batches| >= |s.batches| && t.batches[..|s.batches|] == s.batches
      && GroupsClaimed(s.clicks, |s.batches|, t, run, groups, chargeIds)
    decreases |groups|
  {
    hide ReservedBatch, ClaimedFor, AddGroup;
    if groups != [] {
      assert OneStake(s.clicks, groups[0]);
      FirstClaimed(s, run, groups[0], chargeIds[0]);
      var m, rest, ids := AddGroup(s, run, groups[0], chargeIds[0]), groups[1..], chargeIds[1..];
      forall k | 0 <= k < |rest| ensures OneStake(m.clicks, rest[k]) {
        OtherGroupKept(s, m, groups, k + 1);
      }
      assert Disjoint(rest) by {
        assert forall k :: 0 <= k < |rest| ==> rest[k] == groups[k + 1];
      }
      hide GroupsClaimed, OneStake, Disjoint, ClicksClaimed, OthersKept;
      AddGroupsClaimed(m, run, rest, ids);
      var t := AddGroups(m, run, rest, ids);
      assert t.batches[|s.batches|] == t.batches[..|m.batches|][|s.batches|];
      assert t.batches[..|s.batches|] == t.batches[..|m.batches|][..|s.batches|];
      assert s.batches == t.batches[..|s.batches|];
      RestClaimed(s, m, t, run, groups, chargeIds);
    }
  }

  lemma OtherGroupKept(s: System, m: System, groups: seq<seq<ClickId>>, k: nat)
    requires 0 < k < |groups| && Disjoint(groups) && OneStake(s.clicks, groups[k]) && m.clicks.Keys == s.clicks.Keys
    requires forall c :: c in s.clicks && c !in groups[0] ==> m.clicks[c] == s.clicks[c]
    ensures OneStake(m.clicks, groups[k]) && Amounts(m.clicks, groups[k]) == Amounts(s.clicks, groups[k])
    ensures forall c :: c in groups[k] ==> m.clicks[c] == s.clicks[c]
  {
    forall c | c in groups[k] ensures c in s.clicks && m.clicks[c] == s.clicks[c] {
      assert c !in groups[0];
    }
  }

  /** A later group sees the clicks as they were, so its batch and its claims are those over the first table. */
  lemma LaterBatch(s: System, m: System, b: Batch, run: nat, groups: seq<seq<ClickId>>, chargeId: nat, k: nat)
    requires 0 < k < |groups| && Disjoint(groups) && OneStake(s.clicks, groups[k])
    requires m.clicks.Keys == s.clicks.Keys
    requires forall c :: c in s.clicks && c !in groups[0] ==> m.clicks[c] == s.clicks[c]
    requires ReservedBatch(m.clicks, b, run, groups[k], chargeId)
    ensures ReservedBatch(s.clicks, b, run, groups[k], chargeId)
  {
    OtherGroupKept(s, m, groups, k);
  }

  lemma RestClaimed(s: System, m: System, t: System, run: nat, groups: seq<seq<ClickId>>, chargeIds: seq<nat>)
    requires groups != [] && |groups| == |chargeIds| && Disjoint(groups)
    requires forall k :: 0 <= k < |groups| ==> OneStake(s.clicks, groups[k])
    requires GroupClaimed(s, m, run, groups[0], chargeIds[0])
    requires GroupsClaimed(m.clicks, |m.batches|, t, run, groups[1..], chargeIds[1..])
    requires |t.batches| >= |m.batches| && t.batches[|s.batches|] == m.batches[|s.batches|]
    ensures GroupsClaimed(s.clicks, |s.batches|, t, run, groups, chargeIds)
  {
    forall k | 0 <= k < |groups|
      ensures ReservedBatch(s.clicks, t.batches[|s.batches| + k], run, groups[k], chargeIds[k])
    {
      RestReserved(s, m, t, run, groups, chargeIds, k);
    }
    hide ReservedBatch, ClaimedFor, OneStake;
    RestClicksClaimed(s, m, t, run, groups, chargeIds);
    assert OthersKept(s.clicks, t.clicks, groups) by {
      hide ReservedBatch, ClicksClaimed, ClaimedFor, OneStake, Disjoint;
      forall c | c in s.clicks && !InGroups(groups, c) ensures t.clicks[c] == s.clicks[c] {
        assert forall j :: 0 <= j < |groups| - 1 ==> groups[1..][j] == groups[j + 1];
        assert c !in groups[0] && !InGroups(groups[1..], c);
      }
    }
    hide ClicksClaimed, OthersKept, Disjoint;
  }

  lemma RestReserved(s: System, m: System, t: System, run: nat, groups: seq<seq<ClickId>>, chargeIds: seq<nat>, k: nat)
    requires k < |groups| == |chargeIds| && Disjoint(groups) && OneStake(s.clicks, groups[k])
    requires GroupClaimed(s, m, run, groups[0], chargeIds[0])
    requires GroupsClaimed(m.clicks, |m.batches|, t, run, groups[1..], chargeIds[1..])
    requires |t.batches| >= |m.batches| && t.batches[|s.batches|] == m.batches[|s.batches|]
    ensures ReservedBatch(s.clicks, t.batches[|s.batches| + k], run, groups[k], chargeIds[k])
  {
    hide ReservedBatch, ClicksClaimed, OthersKept, ClaimedFor, OneStake, Disjoint;
    if k > 0 {
      assert groups[1..][k - 1] == groups[k] && chargeIds[1..][k - 1] == chargeIds[k];
      assert ReservedBatch(m.clicks, t.batches[|m.batches| + (k - 1)], run, groups[1..][k - 1], chargeIds[1..][k - 1]);
      LaterBatch(s, m, t.batches[|s.batches| + k], run, groups, chargeIds[k], k);
    }
  }

  lemma LaterClick(s: System, m: System, t: System, run: nat, groups: seq<seq<ClickId>>, chargeIds: seq<nat>, k: nat,
                   c: ClickId)
    requires 0 < k < |groups| == |chargeIds| && Disjoint(groups) && OneStake(s.clicks, groups[k]) && c in groups[k]
    requires GroupClaimed(s, m, run, groups[0], chargeIds[0])
    requires |t.batches| == |s.batches| + |groups| && ClicksClaimed(m.clicks, |m.batches|, t, groups[1..])
    ensures c in s.clicks && c in t.clicks
    ensures ClaimedFor(s.clicks[c], t.clicks[c], |s.batches| + k, t.batches[|s.batches| + k].due)
  {
    OtherGroupKept(s, m, groups, k);
    hide ReservedBatch, ClaimedFor, OneStake, Disjoint;
    assert groups[1..][k - 1] == groups[k];
    assert ClaimedFor(m.clicks[c], t.clicks[c], |m.batches| + (k - 1), t.batches[|m.batches| + (k - 1)].due);
  }

  lemma RestClicksClaimed(s: System, m: System, t: System, run: nat, groups: seq<seq<ClickId>>, chargeIds: seq<nat>)
    requires groups != [] && |groups| == |chargeIds| && Disjoint(groups)
    requires forall k :: 0 <= k < |groups| ==> OneStake(s.clicks, groups[k])
    requires GroupClaimed(s, m, run, groups[0], chargeIds[0])
    requires |t.batches| == |s.batches| + |groups| && ClicksClaimed(m.clicks, |m.batches|, t, groups[1..])
    requires OthersKept(m.clicks, t.clicks, groups[1..]) && t.batches[|s.batches|] == m.batches[|s.batches|]
    ensures ClicksClaimed(s.clicks, |s.batches|, t, groups)
  {
    hide ReservedBatch, ClaimedFor, OneStake, Disjoint, OthersKept;
    var n := |s.batches|;
    forall k, c | 0 <= k < |groups| && c in groups[k]
      ensures c in s.clicks && c in t.clicks && ClaimedFor(s.clicks[c], t.clicks[c], n + k, t.batches[n + k].due)
    {
      hide ClicksClaimed;
      if k > 0 {
        LaterClick(s, m, t, run, groups, chargeIds, k, c);
      } else {
        FirstClick(s, m, run, groups[0], chargeIds[0], c);
        FirstKept(m, t, groups, c);
      }
    }
  }

  lemma FirstClick(s: System, m: System, run: nat, group: seq<ClickId>, chargeId: nat, c: ClickId)
    requires GroupClaimed(s, m, run, group, chargeId) && OneStake(s.clicks, group) && c in group
    ensures c in s.clicks && c in m.clicks
    ensures ClaimedFor(s.clicks[c], m.clicks[c], |s.batches|, m.batches[|s.batches|].due)
  {
    hide ReservedBatch, ClaimedFor;
  }

  lemma FirstKept(m: System, t: System, groups: seq<seq<ClickId>>, c: ClickId)
    requires groups != [] && Disjoint(groups) && c in groups[0] && c in m.clicks
    requires OthersKept(m.clicks, t.clicks, groups[1..])
    ensures c in t.clicks && t.clicks[c] == m.clicks[c]
  {
    assert forall j :: 0 <= j < |groups| - 1 ==> groups[1..][j] == groups[j + 1] && c !in groups[j + 1];
    assert !InGroups(groups[1..], c);
  }

  /** The reservation step does this and nothing else. */
  lemma ReservationReserves(s: System, run: nat, cutoff: int, groups: seq<seq<ClickId>>, chargeIds: seq<nat>)
    requires CanReserve(s, run, groups, chargeIds) && StepFits(s, Reserve(run, cutoff, groups, chargeIds))
    ensures Reserves(s, Next(s, Reserve(run, cutoff, groups, chargeIds)), run, cutoff, groups, chargeIds)
  {
    var m := s.(batches := TakeOver(s, run), runs := s.runs[run := StartedRun(s.runs[run], cutoff)]);
    ReservableHasOneStake(s.clicks, groups);
    hide GroupsClaimed, Reservable;
    AddGroupsClaimed(m, run, groups, chargeIds);
    var t := AddGroups(m, run, groups, chargeIds);
    forall i | 0 <= i < |s.batches|
      ensures t.batches[i] == s.batches[i].(runId := if Moves(s, i, run) then run else s.batches[i].runId)
    {
      assert t.batches[..|m.batches|][i] == m.batches[i];
    }
  }
}
