/**
 The money side of the charge protocol: what a batch owes, what was collected for it, and
 what its clicks say about it agree after every step of every run.
 */
module ChargeLedger {
  import opened Prelude
  import opened ChargeTypes
  import opened ChargeSteps
  import Allocation

  predicate Ordered(clicks: map<ClickId, Click>, ids: seq<ClickId>)
    requires Known(clicks, ids)
  {
    forall j, k :: 0 <= j < k < |ids| ==> Before(clicks, ids[j], ids[k])
  }

  /** Members are exactly the clicks of batch `i` (with `ClickLinks`), oldest first and priced. */
  predicate MembersOk(clicks: map<ClickId, Click>, b: Batch, i: nat) {
    && |b.members| > 0
    && Known(clicks, b.members)
    && (forall c :: c in b.members ==> clicks[c].batch == Some(i) && clicks[c].amount.Some?)
    && Ordered(clicks, b.members)
  }

  predicate AmountsOk(clicks: map<ClickId, Click>, b: Batch)
    requires Known(clicks, b.members)
  {
    && b.due == Allocation.Sum(Amounts(clicks, b.members))
    && b.requested == Min(b.due, MAX_UINT256)
    && (b.due == 0 ==> b.status.Confirmed? && b.receiptHash.None?)
  }

  predicate AllHave(clicks: map<ClickId, Click>, ids: seq<ClickId>, status: ClickStatus)
    requires Known(clicks, ids)
  {
    forall c :: c in ids ==> clicks[c].status == status
  }

  /** The clicks of a settled batch are paid oldest first, as far as the charge goes. */
  predicate PaidOldestFirst(clicks: map<ClickId, Click>, ids: seq<ClickId>, charged: nat)
    requires Known(clicks, ids)
  {
    forall k :: 0 <= k < |ids| ==>
      clicks[ids[k]].status ==
        if Allocation.Settles(Amounts(clicks, ids), k, charged)
        then ClickStatus.Settled else ClickStatus.Uncollectable
  }

  predicate BooksOk(clicks: map<ClickId, Click>, b: Batch)
    requires Known(clicks, b.members)
  {
    if Terminal(b.status) then
      && b.charged.Some? && b.shortfall.Some?
      && b.charged.value + b.shortfall.value == b.due
      && (b.status.Confirmed? ==> b.shortfall.value == 0 && AllHave(clicks, b.members, ClickStatus.Settled))
      && (b.status.GivenUp? ==> b.charged.value == 0 && AllHave(clicks, b.members, ClickStatus.Uncollectable))
      && (b.status.Partial? ==>
            b.shortfall.value > 0 && PaidOldestFirst(clicks, b.members, b.charged.value))
    else
      b.charged.None? && b.shortfall.None? && AllHave(clicks, b.members, ClickStatus.Reserved)
  }

  /** Unsent batches carry no bytes; batches in flight carry the bytes of their own charge. */
  predicate BytesOk(b: Batch) {
    && (b.status.Prepared? ==> b.tx.None?)
    && (InFlight(b.status) || b.status.Failed? ==> b.tx.Some?)
    && (b.tx.Some? ==>
          b.tx.value.chargeId == b.chargeId && b.tx.value.key == b.key && b.tx.value.requested == b.requested)
    && b.receiptHash.Some? == b.receiptNumber.Some?
    && (Terminal(b.status) && b.receiptHash.None? ==> b.tx.None?)
  }

  predicate BatchOk(clicks: map<ClickId, Click>, b: Batch, i: nat) {
    MembersOk(clicks, b, i) && AmountsOk(clicks, b) && BooksOk(clicks, b) && BytesOk(b)
  }

  predicate ClickOk(s: System, c: ClickId)
    requires c in s.clicks
  {
    && (s.clicks[c].batch.Some? ==>
          s.clicks[c].batch.value < |s.batches| && c in s.batches[s.clicks[c].batch.value].members)
    && (s.clicks[c].batch.None? ==> !s.clicks[c].status.Reserved? && !s.clicks[c].status.Uncollectable?)
    && (s.clicks[c].status.Pending? ==> s.clicks[c].amount.Some?)
  }

  predicate LedgerInv(s: System) {
    && (forall i :: 0 <= i < |s.batches| ==> BatchOk(s.clicks, s.batches[i], i))
    && (forall c :: c in s.clicks ==> ClickOk(s, c))
    && (forall i :: 0 <= i < |s.batches| ==> s.batches[i].runId < |s.runs|)
    && (forall i, j :: 0 <= i < j < |s.batches| ==> s.batches[i].chargeId != s.batches[j].chargeId)
  }

  // ---- frame --------------------------------------------------------------------------

  lemma BatchUntouched(clicks: map<ClickId, Click>, after: map<ClickId, Click>, b: Batch, i: nat)
    requires BatchOk(clicks, b, i)
    requires forall c :: c in b.members ==> c in after && after[c] == clicks[c]
    ensures BatchOk(after, b, i)
  {
    assert Amounts(after, b.members) == Amounts(clicks, b.members);
  }

  predicate SameButStatus(a: Click, b: Click) {
    b == a.(status := b.status, error := b.error)
  }

  /** `after` differs from `clicks` only in the status and error of the clicks in `ids`. */
  predicate OnlyStatus(clicks: map<ClickId, Click>, after: map<ClickId, Click>, ids: seq<ClickId>) {
    && after.Keys == clicks.Keys
    && (forall c :: c in clicks ==>
          c in after && SameButStatus(clicks[c], after[c]) && (c !in ids ==> after[c] == clicks[c]))
  }

  predicate SameIdentity(a: Batch, b: Batch) {
    && a.runId == b.runId && a.chargeId == b.chargeId && a.key == b.key
    && a.members == b.members && a.due == b.due && a.requested == b.requested
  }

  /** The shape of every step that works on one batch. */
  predicate Local(s: System, t: System, i: nat)
    requires i < |s.batches|
  {
    && |t.batches| == |s.batches| && t.batches == s.batches[i := t.batches[i]]
    && SameIdentity(s.batches[i], t.batches[i])
    && OnlyStatus(s.clicks, t.clicks, s.batches[i].members)
    && |t.runs| == |s.runs|
  }

  /** Only the status of its clicks changed, so a batch still owes what it owed. */
  lemma StatusKeepsDebt(clicks: map<ClickId, Click>, after: map<ClickId, Click>, b: Batch, c: Batch, i: nat)
    requires MembersOk(clicks, b, i) && SameIdentity(b, c) && OnlyStatus(clicks, after, b.members)
    ensures MembersOk(after, c, i) && Amounts(after, c.members) == Amounts(clicks, b.members)
  {
    var ids := b.members;
    forall j, k | 0 <= j < k < |ids| ensures Before(after, ids[j], ids[k]) {
      assert Before(clicks, ids[j], ids[k]);
      assert ids[j] in ids && ids[k] in ids;
    }
    assert Amounts(after, ids) == Amounts(clicks, ids);
  }

  lemma LocalKeepsBatches(s: System, t: System, i: nat)
    requires LedgerInv(s) && i < |s.batches| && Local(s, t, i)
    requires BatchOk(t.clicks, t.batches[i], i)
    ensures forall j :: 0 <= j < |t.batches| ==> BatchOk(t.clicks, t.batches[j], j)
  {
    forall j | 0 <= j < |t.batches| ensures BatchOk(t.clicks, t.batches[j], j) {
      if j != i {
        assert BatchOk(s.clicks, s.batches[j], j) && BatchOk(s.clicks, s.batches[i], i);
        forall c | c in s.batches[j].members ensures c in t.clicks && t.clicks[c] == s.clicks[c] {
          assert c !in s.batches[i].members;
        }
        BatchUntouched(s.clicks, t.clicks, s.batches[j], j);
      }
    }
  }

  lemma LocalStep(s: System, t: System, i: nat)
    requires LedgerInv(s) && i < |s.batches| && Local(s, t, i)
    requires BatchOk(t.clicks, t.batches[i], i)
    ensures LedgerInv(t)
  {
    LocalKeepsBatches(s, t, i);
    forall c | c in t.clicks ensures ClickOk(t, c) {
      assert ClickOk(s, c);
      if c in s.batches[i].members {
        assert BatchOk(s.clicks, s.batches[i], i);
      }
    }
  }

  // ---- one lemma per kind of step -----------------------------------------------------

  lemma MarkIsOnlyStatus(clicks: map<ClickId, Click>, ids: seq<ClickId>, status: ClickStatus, error: Option<Code>)
    requires Known(clicks, ids)
    ensures OnlyStatus(clicks, Mark(clicks, ids, status, error), ids)
    ensures AllHave(Mark(clicks, ids, status, error), ids, status)
  {
  }

  lemma RolledBackRow(clicks: map<ClickId, Click>, after: map<ClickId, Click>, b: Batch, c: Batch, i: nat)
    requires BatchOk(clicks, b, i) && Terminal(b.status) && b.receiptHash.Some?
    requires OnlyStatus(clicks, after, b.members) && AllHave(after, b.members, ClickStatus.Reserved)
    requires SameIdentity(b, c) && c.tx == b.tx && c.charged.None? && c.shortfall.None?
    requires c.receiptNumber.None? && c.receiptHash.None?
    requires c.status == if b.tx.Some? then Reconciling else Prepared
    ensures BatchOk(after, c, i)
  {
    StatusKeepsDebt(clicks, after, b, c, i);
    hide MembersOk, AllHave, OnlyStatus, Amounts;
  }

  lemma GivenUpRow(clicks: map<ClickId, Click>, after: map<ClickId, Click>, b: Batch, c: Batch, i: nat)
    requires BatchOk(clicks, b, i) && !Terminal(b.status)
    requires OnlyStatus(clicks, after, b.members) && AllHave(after, b.members, ClickStatus.Uncollectable)
    requires SameIdentity(b, c) && c.tx == b.tx && c.charged == Some(0) && c.shortfall == Some(b.due)
    requires c.receiptNumber.Some? && c.receiptHash.Some? && c.status.GivenUp?
    ensures BatchOk(after, c, i)
  {
    StatusKeepsDebt(clicks, after, b, c, i);
    hide MembersOk, AllHave, OnlyStatus, Amounts;
  }

  lemma RollbackIsLocal(s: System, e: Step)
    requires e.Rollback? && StepFits(s, e) && BatchOk(s.clicks, s.batches[e.batch], e.batch)
    requires Terminal(s.batches[e.batch].status) && s.batches[e.batch].receiptHash.Some?
    ensures Local(s, Next(s, e), e.batch)
    ensures BatchOk(Next(s, e).clicks, Next(s, e).batches[e.batch], e.batch)
  {
    var i, b, t := e.batch, s.batches[e.batch], Next(s, e);
    assert Known(s.clicks, b.members);
    hide BatchOk, AllHave, OnlyStatus, Mark;
    MarkIsOnlyStatus(s.clicks, b.members, ClickStatus.Reserved, Some(ReorgDetected));
    RolledBackRow(s.clicks, t.clicks, b, t.batches[i], i);
  }

  lemma RollbackKeepsLedger(s: System, e: Step, tips: seq<Hash>)
    requires LedgerInv(s) && e.Rollback? && Enabled(s, e, tips)
    ensures StepFits(s, e) && LedgerInv(Next(s, e))
  {
    assert BatchOk(s.clicks, s.batches[e.batch], e.batch) && StepFits(s, e);
    hide LedgerInv, BatchOk, Local, Next, Enabled, StepFits;
    RollbackIsLocal(s, e);
    LocalStep(s, Next(s, e), e.batch);
  }

  lemma GiveUpIsLocal(s: System, e: Step)
    requires e.GiveUp? && StepFits(s, e) && BatchOk(s.clicks, s.batches[e.batch], e.batch)
    requires !Terminal(s.batches[e.batch].status)
    ensures Local(s, Next(s, e), e.batch)
    ensures BatchOk(Next(s, e).clicks, Next(s, e).batches[e.batch], e.batch)
  {
    var i, b, t := e.batch, s.batches[e.batch], Next(s, e);
    assert Known(s.clicks, b.members);
    hide BatchOk, AllHave, OnlyStatus, Mark;
    MarkIsOnlyStatus(s.clicks, b.members, ClickStatus.Uncollectable, Some(e.code));
    GivenUpRow(s.clicks, t.clicks, b, t.batches[i], i);
  }

  lemma GiveUpKeepsLedger(s: System, e: Step, tips: seq<Hash>)
    requires LedgerInv(s) && e.GiveUp? && Enabled(s, e, tips)
    ensures StepFits(s, e) && LedgerInv(Next(s, e))
  {
    assert BatchOk(s.clicks, s.batches[e.batch], e.batch) && StepFits(s, e);
    hide LedgerInv, BatchOk, Local, Next, Enabled, StepFits;
    GiveUpIsLocal(s, e);
    LocalStep(s, Next(s, e), e.batch);
  }

  lemma DistinctMembers(clicks: map<ClickId, Click>, ids: seq<ClickId>)
    requires Known(clicks, ids) && Ordered(clicks, ids)
    ensures forall j, k :: 0 <= j < k < |ids| ==> ids[j] != ids[k]
  {
    forall j, k | 0 <= j < k < |ids| ensures ids[j] != ids[k] {
      assert Before(clicks, ids[j], ids[k]);
    }
  }

  /** Settling marks each member by the oldest-first rule. */
  lemma SettleMarks(clicks: map<ClickId, Click>, ids: seq<ClickId>, charged: nat)
    requires Known(clicks, ids) && Ordered(clicks, ids)
    ensures PaidOldestFirst(SettleClicks(clicks, ids, charged), ids, charged)
  {
    var after := SettleClicks(clicks, ids, charged);
    DistinctMembers(clicks, ids);
    assert Amounts(after, ids) == Amounts(clicks, ids);
    forall k | 0 <= k < |ids|
      ensures after[ids[k]].status ==
                if Allocation.Settles(Amounts(after, ids), k, charged)
                then ClickStatus.Settled else ClickStatus.Uncollectable
    {
      assert ids[k] in ids;
      if ids[k] in PaidIds(clicks, ids, charged) {
        var j :| 0 <= j < |ids| && Allocation.Settles(Amounts(clicks, ids), j, charged) && ids[j] == ids[k];
        assert j == k;
      }
    }
  }

  lemma SettleIsOnlyStatus(clicks: map<ClickId, Click>, ids: seq<ClickId>, charged: nat)
    requires Known(clicks, ids)
    ensures OnlyStatus(clicks, SettleClicks(clicks, ids, charged), ids)
  {
    hide PaidIds;
  }

  lemma SettledRow(clicks: map<ClickId, Click>, after: map<ClickId, Click>, b: Batch, event: ChargeEvent, number: nat,
                   hash: Hash, i: nat)
    requires BatchOk(clicks, b, i) && !Terminal(b.status) && 0 <= event.charged <= b.due
    requires OnlyStatus(clicks, after, b.members) && Known(after, b.members)
    requires PaidOldestFirst(after, b.members, event.charged)
    ensures BatchOk(after, SettledBatch(b, event, number, hash), i)
  {
    var ids, c := b.members, SettledBatch(b, event, number, hash);
    StatusKeepsDebt(clicks, after, b, c, i);
    hide MembersOk, AllHave, OnlyStatus, Amounts, PaidOldestFirst;
    if b.due <= event.charged {
      PaidInFull(after, ids, event.charged);
    }
  }

  lemma PaidInFull(clicks: map<ClickId, Click>, ids: seq<ClickId>, charged: nat)
    requires Known(clicks, ids) && PaidOldestFirst(clicks, ids, charged)
    requires Allocation.Sum(Amounts(clicks, ids)) <= charged
    ensures AllHave(clicks, ids, ClickStatus.Settled)
  {
    Allocation.AllSettleIffPaid(Amounts(clicks, ids), charged);
    forall c | c in ids ensures clicks[c].status.Settled? {
      var k :| 0 <= k < |ids| && ids[k] == c;
      assert clicks[ids[k]].status.Settled?;
    }
  }

  lemma SettleIsLocal(s: System, e: Step)
    requires e.Settle? && StepFits(s, e) && BatchOk(s.clicks, s.batches[e.batch], e.batch)
    requires !Terminal(s.batches[e.batch].status)
    ensures Local(s, Next(s, e), e.batch)
    ensures BatchOk(Next(s, e).clicks, Next(s, e).batches[e.batch], e.batch)
  {
    var i, b, t := e.batch, s.batches[e.batch], Next(s, e);
    assert Known(s.clicks, b.members) && Ordered(s.clicks, b.members);
    hide BatchOk, OnlyStatus, SettleClicks, PaidOldestFirst, Ordered;
    SettleIsOnlyStatus(s.clicks, b.members, e.event.charged);
    SettleMarks(s.clicks, b.members, e.event.charged);
    SettledRow(s.clicks, t.clicks, b, e.event, e.number, e.hash, i);
  }

  lemma SettleKeepsBooks(s: System, i: nat, event: ChargeEvent, number: nat, hash: Hash, at: nat)
    requires LedgerInv(s) && AtBatch(s, i) && Live(s.batches[i]) && Matches(s.batches[i], event)
    ensures StepFits(s, Settle(i, event, number, hash, at))
    ensures LedgerInv(Next(s, Settle(i, event, number, hash, at)))
  {
    var e := Settle(i, event, number, hash, at);
    assert BatchOk(s.clicks, s.batches[i], i) && StepFits(s, e);
    hide LedgerInv, BatchOk, Local, Next, StepFits;
    SettleIsLocal(s, e);
    LocalStep(s, Next(s, e), i);
  }

  lemma SettleKeepsLedger(s: System, e: Step, tips: seq<Hash>)
    requires LedgerInv(s) && e.Settle? && Enabled(s, e, tips)
    ensures StepFits(s, e) && LedgerInv(Next(s, e))
  {
    hide LedgerInv, Next;
    SettleKeepsBooks(s, e.batch, e.event, e.number, e.hash, e.at);
  }

  predicate SameMoney(a: Batch, b: Batch) {
    && a.charged == b.charged && a.shortfall == b.shortfall
    && Terminal(a.status) == Terminal(b.status)
    && (Terminal(a.status) ==> a.status == b.status && a.receiptHash == b.receiptHash)
  }

  lemma RowStepKeepsRow(b: Batch, e: Step)
    requires RowStep(e) && BytesOk(b)
    requires e.Await? || e.Submit? || e.Fail? ==> Live(b)
    requires e.Sign? ==> (b.status.Prepared? || b.status.Failed?)
                         && e.tx.chargeId == b.chargeId && e.tx.key == b.key && e.tx.requested == b.requested
    ensures SameIdentity(b, RowAfter(b, e)) && SameMoney(b, RowAfter(b, e)) && BytesOk(RowAfter(b, e))
  {
  }

  /** A row update that keeps identity, money and bytes keeps the ledger. */
  lemma RowKeepsLedger(s: System, t: System, i: nat)
    requires LedgerInv(s) && i < |s.batches|
    requires |t.batches| == |s.batches| && t.batches == s.batches[i := t.batches[i]]
    requires t.clicks == s.clicks && |t.runs| == |s.runs|
    requires SameIdentity(s.batches[i], t.batches[i]) && SameMoney(s.batches[i], t.batches[i])
    requires BytesOk(t.batches[i])
    ensures LedgerInv(t)
  {
    assert BatchOk(s.clicks, s.batches[i], i);
    assert OnlyStatus(s.clicks, t.clicks, s.batches[i].members);
    LocalStep(s, t, i);
  }

  lemma NewBatchOk(clicks: map<ClickId, Click>, run: nat, group: seq<ClickId>, chargeId: nat, n: nat)
    requires Reservable(clicks, group)
    ensures BatchOk(ClaimClicks(clicks, group, n, NewBatch(clicks, run, group, chargeId).due),
                    NewBatch(clicks, run, group, chargeId), n)
  {
    var b := NewBatch(clicks, run, group, chargeId);
    var after := ClaimClicks(clicks, group, n, b.due);
    forall j, k | 0 <= j < k < |group| ensures Before(after, group[j], group[k]) {
      assert Before(clicks, group[j], group[k]);
    }
    assert Amounts(after, group) == Amounts(clicks, group);
    assert MembersOk(after, b, n);
  }

  lemma AddGroupKeepsBatches(s: System, run: nat, group: seq<ClickId>, chargeId: nat)
    requires LedgerInv(s) && run < |s.runs| && Reservable(s.clicks, group)
    ensures var t := AddGroup(s, run, group, chargeId);
      forall i :: 0 <= i < |t.batches| ==> BatchOk(t.clicks, t.batches[i], i)
  {
    var t := AddGroup(s, run, group, chargeId);
    forall i | 0 <= i < |t.batches| ensures BatchOk(t.clicks, t.batches[i], i) {
      if i == |s.batches| {
        NewBatchOk(s.clicks, run, group, chargeId, i);
      } else {
        assert BatchOk(s.clicks, s.batches[i], i);
        BatchUntouched(s.clicks, t.clicks, s.batches[i], i);
      }
    }
  }

  lemma AddGroupKeepsLedger(s: System, run: nat, group: seq<ClickId>, chargeId: nat)
    requires LedgerInv(s) && run < |s.runs| && Reservable(s.clicks, group)
    requires forall i :: 0 <= i < |s.batches| ==> s.batches[i].chargeId != chargeId
    ensures LedgerInv(AddGroup(s, run, group, chargeId))
  {
    var t := AddGroup(s, run, group, chargeId);
    var n := |s.batches|;
    AddGroupKeepsBatches(s, run, group, chargeId);
    hide BatchOk;
    forall c | c in t.clicks ensures ClickOk(t, c) {
      assert ClickOk(s, c);
      if c in group {
        assert t.clicks[c].batch == Some(n);
      }
    }
  }

  lemma {:induction false} AddGroupsKeepLedger(s: System, run: nat, groups: seq<seq<ClickId>>, chargeIds: seq<nat>)
    requires LedgerInv(s) && CanReserve(s, run, groups, chargeIds)
    ensures LedgerInv(AddGroups(s, run, groups, chargeIds))
    decreases |groups|
  {
    if groups != [] {
      assert groups[0] in groups && Reservable(s.clicks, groups[0]);
      var t := AddGroup(s, run, groups[0], chargeIds[0]);
      AddGroupKeepsLedger(s, run, groups[0], chargeIds[0]);
      ReservableAfter(s, run, groups, chargeIds);
      AddGroupsKeepLedger(t, run, groups[1..], chargeIds[1..]);
    }
  }

  /** Claiming one group leaves the other groups reservable. */
  lemma ReservableAfter(s: System, run: nat, groups: seq<seq<ClickId>>, chargeIds: seq<nat>)
    requires CanReserve(s, run, groups, chargeIds) && groups != []
    requires |groups[0]| > 0 && Known(s.clicks, groups[0])
    ensures CanReserve(AddGroup(s, run, groups[0], chargeIds[0]), run, groups[1..], chargeIds[1..])
  {
    var t := AddGroup(s, run, groups[0], chargeIds[0]);
    var rest := groups[1..];
    forall k | 0 <= k < |rest| ensures Reservable(t.clicks, rest[k]) {
      var g := rest[k];
      assert g == groups[k + 1] && g in groups;
      assert Reservable(s.clicks, g);
      forall c | c in g ensures c in t.clicks && t.clicks[c] == s.clicks[c] {
        assert c !in groups[0];
      }
      forall j, m | 0 <= j < m < |g| ensures Before(t.clicks, g[j], g[m]) {
        assert Before(s.clicks, g[j], g[m]);
      }
    }
    forall j, k, c | 0 <= j < k < |rest| && c in rest[j] ensures c !in rest[k] {
      assert rest[j] == groups[j + 1] && rest[k] == groups[k + 1];
    }
  }

  lemma ReserveKeepsLedger(s: System, e: Step, tips: seq<Hash>)
    requires LedgerInv(s) && e.Reserve? && Enabled(s, e, tips)
    ensures StepFits(s, e) && LedgerInv(Next(s, e))
  {
    var run, cutoff, groups, chargeIds := e.run, e.cutoff, e.groups, e.chargeIds;
    assert forall g :: g in groups ==> Reservable(s.clicks, g);
    var m := s.(batches := TakeOver(s, run), runs := s.runs[run := StartedRun(s.runs[run], cutoff)]);
    TakeOverKeepsLedger(s, run, cutoff);
    hide LedgerInv;
    AddGroupsKeepLedger(m, run, groups, chargeIds);
  }

  lemma TakeOverKeepsLedger(s: System, run: nat, cutoff: int)
    requires LedgerInv(s) && run < |s.runs|
    ensures LedgerInv(s.(batches := TakeOver(s, run), runs := s.runs[run := StartedRun(s.runs[run], cutoff)]))
  {
    var m := s.(batches := TakeOver(s, run), runs := s.runs[run := StartedRun(s.runs[run], cutoff)]);
    forall i | 0 <= i < |m.batches| ensures BatchOk(m.clicks, m.batches[i], i) {
      assert BatchOk(s.clicks, s.batches[i], i);
    }
    forall c | c in m.clicks ensures ClickOk(m, c) {
      assert ClickOk(s, c);
    }
  }

  lemma WriteClickKeepsLedger(s: System, e: Step, tips: seq<Hash>)
    requires LedgerInv(s) && e.WriteClick? && Enabled(s, e, tips)
    ensures StepFits(s, e) && LedgerInv(Next(s, e))
  {
    var id := e.id;
    var t := Next(s, e);
    forall i | 0 <= i < |t.batches| ensures BatchOk(t.clicks, t.batches[i], i) {
      assert BatchOk(s.clicks, s.batches[i], i);
      BatchUntouched(s.clicks, t.clicks, s.batches[i], i);
    }
    forall c | c in t.clicks ensures ClickOk(t, c) {
      assert c != id ==> ClickOk(s, c);
    }
  }

  lemma RowStepKeepsLedger(s: System, e: Step, tips: seq<Hash>)
    requires LedgerInv(s) && Enabled(s, e, tips) && RowStep(e)
    ensures StepFits(s, e) && LedgerInv(Next(s, e))
  {
    var i := e.batch;
    assert BatchOk(s.clicks, s.batches[i], i);
    RowStepKeepsRow(s.batches[i], e);
    RowKeepsLedger(s, Next(s, e), i);
  }

  /** Steps that write neither clicks nor batches. */
  predicate Elsewhere(e: Step) {
    e.OpenRun? || e.Refresh? || e.BlockRun? || e.Send? || e.StillFailed? || e.Confirm? || e.BeginPass?
    || e.SaveCheckpoint? || e.Publish?
  }

  lemma ElsewhereKeepsLedger(s: System, e: Step, tips: seq<Hash>)
    requires LedgerInv(s) && Elsewhere(e) && Enabled(s, e, tips)
    ensures StepFits(s, e) && LedgerInv(Next(s, e))
  {
    var t := Next(s, e);
    assert t.clicks == s.clicks && t.batches == s.batches && |t.runs| >= |s.runs|;
    forall c | c in t.clicks ensures ClickOk(t, c) {
      assert ClickOk(s, c);
    }
  }

  /** Every step that can happen has its effect and keeps the books. */
  lemma StepKeepsLedger(s: System, e: Step, tips: seq<Hash>)
    requires LedgerInv(s) && Enabled(s, e, tips)
    ensures StepFits(s, e) && LedgerInv(Next(s, e))
  {
    hide LedgerInv, Enabled, StepFits, Next;
    if RowStep(e) {
      RowStepKeepsLedger(s, e, tips);
    } else if Elsewhere(e) {
      ElsewhereKeepsLedger(s, e, tips);
    } else {
      match e {
        case WriteClick(_, _) => WriteClickKeepsLedger(s, e, tips);
        case Reserve(_, _, _, _) => ReserveKeepsLedger(s, e, tips);
        case Rollback(_, _) => RollbackKeepsLedger(s, e, tips);
        case Settle(_, _, _, _, _) => SettleKeepsLedger(s, e, tips);
        case GiveUp(_, _, _, _, _) => GiveUpKeepsLedger(s, e, tips);
      }
    }
  }

  /** In every state of every run, crashes and reorganizations included, the books balance. */
  lemma {:induction false} LedgerAlwaysHolds(confirmations: nat, log: seq<Step>, tips: seq<Hash>)
    requires Legal(confirmations, log, tips)
    ensures LedgerInv(After(confirmations, log))
  {
    if log != [] {
      LedgerAlwaysHolds(confirmations, log[..|log| - 1], tips);
      StepKeepsLedger(After(confirmations, log[..|log| - 1]), log[|log| - 1], tips);
    }
  }
}
