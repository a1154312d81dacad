/** What the whole protocol can take: bounds over every run, and what no step ever rewrites. */
module ChargeBound {
  import opened ChargeTypes
  import opened ChargeSteps
  import opened ChargeLedger
  import Allocation

  // ---- what never changes -----------------------------------------------------------------

  predicate KeepsIdentities(s: System, t: System) {
    && |s.batches| <= |t.batches|
    && (forall i :: 0 <= i < |s.batches| ==>
          && t.batches[i].chargeId == s.batches[i].chargeId
          && t.batches[i].key == s.batches[i].key
          && t.batches[i].members == s.batches[i].members
          && t.batches[i].due == s.batches[i].due
          && t.batches[i].requested == s.batches[i].requested)
    && (forall c :: c in s.clicks ==>
          && c in t.clicks
          && (s.clicks[c].batch.Some? ==> t.clicks[c].batch == s.clicks[c].batch)
          && (s.clicks[c].amount.Some? ==> t.clicks[c].amount == s.clicks[c].amount))
  }

  lemma KeepsTransitive(s: System, t: System, u: System)
    requires KeepsIdentities(s, t) && KeepsIdentities(t, u)
    ensures KeepsIdentities(s, u)
  {
  }

  lemma AddGroupKeepsIdentities(s: System, run: nat, group: seq<ClickId>, chargeId: nat)
    requires Reservable(s.clicks, group)
    ensures KeepsIdentities(s, AddGroup(s, run, group, chargeId))
  {
  }

  lemma {:induction false} AddGroupsKeepIdentities(s: System, run: nat, groups: seq<seq<ClickId>>, chargeIds: seq<nat>)
    requires CanReserve(s, run, groups, chargeIds)
    requires forall g :: g in groups ==> |g| > 0 && Known(s.clicks, g)
    ensures KeepsIdentities(s, AddGroups(s, run, groups, chargeIds))
    decreases |groups|
  {
    hide KeepsIdentities, AddGroup;
    if groups == [] {
      NothingChanged(s);
    } else {
      assert groups[0] in groups && Reservable(s.clicks, groups[0]) by { FirstReservable(s, run, groups, chargeIds); }
      var t := AddGroup(s, run, groups[0], chargeIds[0]);
      AddGroupKeepsIdentities(s, run, groups[0], chargeIds[0]);
      ReservableAfter(s, run, groups, chargeIds);
      assert forall g :: g in groups[1..] ==> g in groups && |g| > 0 && Known(s.clicks, g);
      assert forall g :: g in groups[1..] ==> Known(t.clicks, g);
      AddGroupsKeepIdentities(t, run, groups[1..], chargeIds[1..]);
      KeepsTransitive(s, t, AddGroups(t, run, groups[1..], chargeIds[1..]));
    }
  }

  lemma NothingChanged(s: System)
    ensures KeepsIdentities(s, s)
  {
  }

  lemma FirstReservable(s: System, run: nat, groups: seq<seq<ClickId>>, chargeIds: seq<nat>)
    requires CanReserve(s, run, groups, chargeIds) && groups != []
    ensures groups[0] in groups && Reservable(s.clicks, groups[0])
  {
  }

  lemma ReserveKeepsIdentities(s: System, e: Step)
    requires e.Reserve? && CanReserve(s, e.run, e.groups, e.chargeIds) && StepFits(s, e)
    ensures KeepsIdentities(s, Next(s, e))
  {
    var m := s.(batches := TakeOver(s, e.run), runs := s.runs[e.run := StartedRun(s.runs[e.run], e.cutoff)]);
    AddGroupsKeepIdentities(m, e.run, e.groups, e.chargeIds);
    KeepsTransitive(s, m, Next(s, e));
  }

  lemma RowKeepsIdentities(s: System, e: Step)
    requires RowStep(e) && StepFits(s, e)
    ensures KeepsIdentities(s, Next(s, e))
  {
    RowStepChangesRow(s, e);
    hide Next;
  }

  lemma OtherKeepsIdentities(s: System, e: Step, tips: seq<Hash>)
    requires Enabled(s, e, tips) && StepFits(s, e) && !RowStep(e) && !e.Reserve?
    ensures KeepsIdentities(s, Next(s, e))
  {
    hide RefreshedRun, CanSave, SeenInPass, CanPublish, AfterMove;
  }

  lemma StepKeepsIdentities(s: System, e: Step, tips: seq<Hash>)
    requires Enabled(s, e, tips) && StepFits(s, e)
    ensures KeepsIdentities(s, Next(s, e))
  {
    hide Next, StepFits, KeepsIdentities;
    if e.Reserve? {
      ReserveKeepsIdentities(s, e);
    } else if RowStep(e) {
      RowKeepsIdentities(s, e);
    } else {
      OtherKeepsIdentities(s, e, tips);
    }
  }

  /**
   From any point of a run to any later one: a click keeps its batch and its price, a batch
   keeps its charge id, its clicks and its debt.
   */
  lemma {:induction false} IdentitiesAreForever(confirmations: nat, log: seq<Step>, tips: seq<Hash>, k: nat)
    requires Legal(confirmations, log, tips) && k <= |log|
    ensures KeepsIdentities(After(confirmations, log[..k]), After(confirmations, log))
    decreases |log| - k
  {
    hide Next, Enabled, StepFits, LedgerInv;
    if k == |log| {
      assert log[..k] == log;
    } else {
      PrefixLegal(confirmations, log, tips, k + 1);
      assert log[..k + 1][..k] == log[..k];
      PrefixLegal(confirmations, log, tips, k);
      LedgerAlwaysHolds(confirmations, log[..k], tips);
      StepKeepsLedger(After(confirmations, log[..k]), log[k], tips);
      StepKeepsIdentities(After(confirmations, log[..k]), log[k], tips);
      IdentitiesAreForever(confirmations, log, tips, k + 1);
    }
  }

  // ---- what a branch can hold -------------------------------------------------------------

  /** A charge that the contract executed on some branch. */
  datatype Taken = Taken(chargeId: nat, charged: nat)

  function TotalTaken(taken: seq<Taken>): nat {
    if taken == [] then 0 else TotalTaken(taken[1..]) + taken[0].charged
  }

  function TotalDue(batches: seq<Batch>): nat {
    if batches == [] then 0 else TotalDue(batches[..|batches| - 1]) + batches[|batches| - 1].due
  }

  /** The amounts of all clicks of all batches. */
  function TotalDebt(clicks: map<ClickId, Click>, batches: seq<Batch>): nat
    requires forall b :: b in batches ==> Known(clicks, b.members)
  {
    if batches == [] then 0
    else
      assert batches[|batches| - 1] in batches && Known(clicks, batches[|batches| - 1].members);
      TotalDebt(clicks, batches[..|batches| - 1]) + Allocation.Sum(Amounts(clicks, batches[|batches| - 1].members))
  }

  predicate Signs(e: Step, t: Taken) {
    e.Sign? && e.tx.chargeId == t.chargeId && t.charged <= e.tx.requested
  }

  /**
   The contract's side: it executes only signed charges, takes at most what was requested,
   and executes a charge id once per branch.
   */
  predicate PossibleBranch(log: seq<Step>, taken: seq<Taken>) {
    && (forall i :: 0 <= i < |taken| ==> exists k :: 0 <= k < |log| && Signs(log[k], taken[i]))
    && Distinct(taken)
  }

  predicate Within(b: Batch, t: Taken) { b.chargeId == t.chargeId && t.charged <= b.due }

  predicate Backed(batches: seq<Batch>, t: Taken) {
    exists j :: 0 <= j < |batches| && Within(batches[j], t)
  }

  /** Each executed charge belongs to a batch and stays within its debt. */
  lemma SignedWithinDebt(confirmations: nat, log: seq<Step>, tips: seq<Hash>, k: nat, t: Taken)
    requires Legal(confirmations, log, tips) && k < |log| && Signs(log[k], t)
    ensures Backed(After(confirmations, log).batches, t)
  {
    hide Next, StepFits, LedgerInv, Enabled;
    PrefixLegal(confirmations, log, tips, k + 1);
    assert log[..k + 1][..k] == log[..k];
    var s := After(confirmations, log[..k]);
    PrefixLegal(confirmations, log, tips, k);
    LedgerAlwaysHolds(confirmations, log[..k], tips);
    SignedFitsBatch(s, log[k], tips, t);
    IdentitiesAreForever(confirmations, log, tips, k);
    assert Within(After(confirmations, log).batches[log[k].batch], t);
  }

  lemma SignedFitsBatch(s: System, e: Step, tips: seq<Hash>, t: Taken)
    requires LedgerInv(s) && Enabled(s, e, tips) && Signs(e, t)
    ensures e.batch < |s.batches| && Within(s.batches[e.batch], t)
  {
    assert BatchOk(s.clicks, s.batches[e.batch], e.batch);
  }

  function Without(taken: seq<Taken>, chargeId: nat): (r: seq<Taken>)
    ensures forall t :: t in r <==> t in taken && t.chargeId != chargeId
  {
    if taken == [] then []
    else
      assert taken == [taken[0]] + taken[1..];
      if taken[0].chargeId == chargeId then Without(taken[1..], chargeId)
      else [taken[0]] + Without(taken[1..], chargeId)
  }

  predicate Distinct(taken: seq<Taken>) {
    forall i, j :: 0 <= i < j < |taken| ==> taken[i].chargeId != taken[j].chargeId
  }

  lemma {:induction false} WithoutDistinct(taken: seq<Taken>, chargeId: nat)
    requires Distinct(taken)
    ensures Distinct(Without(taken, chargeId))
  {
    if taken != [] {
      WithoutDistinct(taken[1..], chargeId);
      var r := Without(taken[1..], chargeId);
      forall j | 0 <= j < |r| ensures r[j].chargeId != taken[0].chargeId {
        assert r[j] in r;
        var m :| 0 <= m < |taken[1..]| && taken[1..][m] == r[j];
        assert taken[m + 1] == r[j];
      }
      assert Distinct([taken[0]] + r);
    }
  }

  /** Dropping one charge id from a branch without repetitions drops at most one charge. */
  lemma {:induction false} WithoutTotal(taken: seq<Taken>, chargeId: nat, cap: nat)
    requires Distinct(taken)
    requires forall t :: t in taken && t.chargeId == chargeId ==> t.charged <= cap
    ensures TotalTaken(taken) <= TotalTaken(Without(taken, chargeId)) + cap
  {
    if taken != [] {
      if taken[0].chargeId == chargeId {
        NothingToDrop(taken[1..], chargeId);
      } else {
        WithoutTotal(taken[1..], chargeId, cap);
        assert Without(taken, chargeId)[1..] == Without(taken[1..], chargeId);
      }
    }
  }

  lemma {:induction false} NothingToDrop(taken: seq<Taken>, chargeId: nat)
    requires forall i :: 0 <= i < |taken| ==> taken[i].chargeId != chargeId
    ensures Without(taken, chargeId) == taken
  {
    if taken != [] {
      NothingToDrop(taken[1..], chargeId);
    }
  }

  lemma StillBacked(batches: seq<Batch>, taken: seq<Taken>, t: Taken)
    requires batches != [] && (forall u :: u in taken ==> Backed(batches, u))
    requires t in Without(taken, batches[|batches| - 1].chargeId)
    ensures Backed(batches[..|batches| - 1], t)
  {
    var j :| 0 <= j < |batches| && Within(batches[j], t);
    assert Within(batches[..|batches| - 1][j], t);
  }

  lemma CappedByDue(batches: seq<Batch>, j: nat, t: Taken)
    requires j < |batches| && Backed(batches, t) && t.chargeId == batches[j].chargeId
    requires forall i, k :: 0 <= i < k < |batches| ==> batches[i].chargeId != batches[k].chargeId
    ensures t.charged <= batches[j].due
  {
  }

  lemma {:induction false} BranchWithinDues(batches: seq<Batch>, taken: seq<Taken>)
    requires forall t :: t in taken ==> Backed(batches, t)
    requires Distinct(taken)
    requires forall i, j :: 0 <= i < j < |batches| ==> batches[i].chargeId != batches[j].chargeId
    ensures TotalTaken(taken) <= TotalDue(batches)
    decreases |batches|
  {
    hide Without;
    if batches == [] {
      assert |taken| > 0 ==> taken[0] in taken && Backed(batches, taken[0]);
    } else {
      var n := |batches| - 1;
      var rest := Without(taken, batches[n].chargeId);
      forall t | t in taken && t.chargeId == batches[n].chargeId ensures t.charged <= batches[n].due {
        CappedByDue(batches, n, t);
      }
      WithoutTotal(taken, batches[n].chargeId, batches[n].due);
      WithoutDistinct(taken, batches[n].chargeId);
      forall t | t in rest ensures Backed(batches[..n], t) {
        StillBacked(batches, taken, t);
      }
      BranchWithinDues(batches[..n], rest);
    }
  }

  lemma {:induction false} DuesSumToDebts(clicks: map<ClickId, Click>, batches: seq<Batch>)
    requires forall b :: b in batches ==>
      Known(clicks, b.members) && b.due == Allocation.Sum(Amounts(clicks, b.members))
    ensures TotalDue(batches) == TotalDebt(clicks, batches)
  {
    if batches != [] {
      assert batches[|batches| - 1] in batches;
      DuesSumToDebts(clicks, batches[..|batches| - 1]);
    }
  }

  /** After any run, the dues of all batches are the amounts of their clicks. */
  lemma DuesAreDebts(confirmations: nat, log: seq<Step>, tips: seq<Hash>)
    requires Legal(confirmations, log, tips)
    ensures var s := After(confirmations, log);
      (forall b :: b in s.batches ==> Known(s.clicks, b.members)) &&
      TotalDue(s.batches) == TotalDebt(s.clicks, s.batches)
  {
    LedgerAlwaysHolds(confirmations, log, tips);
    DebtsOf(After(confirmations, log));
    DuesSumToDebts(After(confirmations, log).clicks, After(confirmations, log).batches);
  }

  /** The clicks counted in the total debt are counted once: no click is in two batches. */
  lemma EachClickOnce(confirmations: nat, log: seq<Step>, tips: seq<Hash>, i: nat, j: nat, c: ClickId)
    requires Legal(confirmations, log, tips)
    requires var s := After(confirmations, log);
      i < j < |s.batches| && c in s.batches[i].members
    ensures c !in After(confirmations, log).batches[j].members
  {
    LedgerAlwaysHolds(confirmations, log, tips);
    var s := After(confirmations, log);
    assert BatchOk(s.clicks, s.batches[i], i) && BatchOk(s.clicks, s.batches[j], j);
  }

  /**
   After any run, with any crashes, retries and reorganizations behind it, all that any one
   branch can have taken is at most the sum of the amounts of the batched clicks.
   */
  lemma TakenWithinBatchedClicks(confirmations: nat, log: seq<Step>, tips: seq<Hash>, taken: seq<Taken>)
    requires Legal(confirmations, log, tips) && PossibleBranch(log, taken)
    ensures var s := After(confirmations, log);
      (forall b :: b in s.batches ==> Known(s.clicks, b.members)) &&
      TotalTaken(taken) <= TotalDebt(s.clicks, s.batches)
  {
    LedgerAlwaysHolds(confirmations, log, tips);
    var s := After(confirmations, log);
    hide After;
    DebtsOf(s);
    forall t | t in taken ensures Backed(s.batches, t) {
      var i :| 0 <= i < |taken| && taken[i] == t;
      var k :| 0 <= k < |log| && Signs(log[k], taken[i]);
      SignedWithinDebt(confirmations, log, tips, k, t);
    }
    BranchWithinDues(s.batches, taken);
    DuesSumToDebts(s.clicks, s.batches);
  }

  lemma DebtsOf(s: System)
    requires LedgerInv(s)
    ensures forall b :: b in s.batches ==>
      Known(s.clicks, b.members) && b.due == Allocation.Sum(Amounts(s.clicks, b.members))
  {
    forall b | b in s.batches
      ensures Known(s.clicks, b.members) && b.due == Allocation.Sum(Amounts(s.clicks, b.members))
    {
      var i :| 0 <= i < |s.batches| && s.batches[i] == b;
      assert BatchOk(s.clicks, b, i);
    }
  }
}
