/** The event handler itself, row by row; an exception leaves no trace of the event. */
module EscrowHandler {
  import opened Prelude
  import opened MonthlySchedule
  import opened EscrowBooks
  import opened EscrowLedger
  import opened EscrowMirror
  import EscrowAccounts

  class EscrowTables {
    var goals: map<GoalId, Goal>
    var periods: map<(GoalId, nat), Period>
    var contributions: seq<Contribution>
    var payouts: seq<Payout>
    /** What the contract owes by the events so far. */
    ghost var ledgers: Ledgers

    function Current(): Books
      reads this
    {
      Books(goals, periods, contributions, payouts)
    }

    /** The tables agree with the contract. */
    ghost predicate Valid()
      reads this
    {
      Mirrors(Current(), ledgers)
    }

    constructor ()
      ensures Valid() && ledgers == map[]
    {
      goals, periods, contributions, payouts := map[], map[], [], [];
      ledgers := map[];
    }

    /** Did what the event does, or threw and did nothing. */
    twostate predicate Took(after: Option<Books>, ok: bool)
      reads this
    {
      && (ok <==> after.Some?)
      && Current() == if after.Some? then after.value else old(Current())
    }

    /**
     An event that the contract emits never throws and keeps the tables in agreement with it.
     Whatever the event, an exception leaves no trace of it, and otherwise the expected balances
     move by what the event brought or took.
     */
    method HandleDecodedEscrowEvent(e: Event) returns (ok: bool)
      modifies this
      ensures old(Valid()) && Lawful(old(ledgers), e) ==> ok && Valid() && ledgers == PostAll(old(ledgers), e)
      ensures !ok ==> Current() == old(Current()) && ledgers == old(ledgers)
      ensures payouts != old(payouts) ==> ok && e.body.Released?
      ensures ok && e.body.Released? ==>
        && goals == old(goals) && periods == old(periods) && contributions == old(contributions)
        && exists i :: EscrowAccounts.CarriesOut(old(payouts), payouts, e, i)
      ensures ok ==> forall t: Token ::
        EscrowAccounts.Expected(Current(), t) == EscrowAccounts.Expected(old(Current()), t)
          + EscrowAccounts.EventFlow(e, t)
    {
      hide Mirrors, Handle, Lawful, PostAll, EscrowAccounts.Expected, EscrowAccounts.EventFlow;
      ghost var before := Current();
      ok := HandleEvent(e);
      if old(Valid()) && Lawful(ledgers, e) {
        EventKeepsMirror(before, ledgers, e);
        ledgers := PostAll(ledgers, e);
      }
      if ok && e.body.Released? {
        var i := EscrowAccounts.ReleaseCarriesOut(before.payouts, e);
        HandledRelease(before, e);
      }
      if ok && !e.body.Released? {
        OnlyReleasesPay(before, e);
      }
      forall t: Token | ok
        ensures EscrowAccounts.Expected(Current(), t) == EscrowAccounts.Expected(before, t)
          + EscrowAccounts.EventFlow(e, t)
      {
        EscrowAccounts.EventMovesBalance(before, e, t);
      }
    }

    method HandleEvent(e: Event) returns (ok: bool)
      modifies this`goals, this`periods, this`contributions, this`payouts
      ensures Took(Handle(old(Current()), e), ok)
    {
      if e.body.Elsewhere? {
        return true;
      }
      if e.body.GoalCreated? {
        goals := goals[e.goal := NewGoal(e.body.deadline)];
        return true;
      }
      if e.goal !in goals {
        return false;
      }
      ok := HandleGoalEvent(e);
    }

    method HandleGoalEvent(e: Event) returns (ok: bool)
      requires e.goal in goals && !e.body.Elsewhere? && !e.body.GoalCreated?
      modifies this`goals, this`periods, this`contributions, this`payouts
      ensures Took(Handle(old(Current()), e), ok)
    {
      hide HandleMonthlyGoalCreated, HandleContribution, HandlePolicy, HandlePeriodSettled, HandleTokenSettled, Release;
      var g := e.goal;
      match e.body {
        case MonthlyGoalCreated(start, end, day, policy) => ok := CreateMonthly(g, start, end, day, policy);
        case ContributionReceived(t, amount) => ok := Receive(g, t, amount);
        case MonthlySurplusPolicyUpdated(policy) => ok := UpdatePolicy(g, policy);
        case MonthlyGoalStopRequested =>
          goals := goals[g := goals[g].(stopRequested := true)];
          ok := true;
        case MonthlyPeriodSettled(index, start, end, policy, final) =>
          ok := SettlePeriod(g, index, start, end, policy, final);
        case MonthlyTokenSettled(index, t, contributed, carryIn, added, carryOut) =>
          ok := SettleToken(g, index, t, contributed, carryIn, added, carryOut);
        case GoalClosed(entitlement) =>
          goals := goals[g := goals[g].(status := Closed, recipient := entitlement)];
          ok := true;
        case GoalCancelled =>
          Cancel(g);
          ok := true;
        case MonthlyGoalCancelled(surplus) =>
          var row := goals[g];
          var treasury := Amounts(row.treasury.pre + surplus.pre, row.treasury.usdc + surplus.usdc);
          goals := goals[g := row.(treasury := treasury, carry := ZERO)];
          ok := true;
        case Released(kind, t, amount, recipient) =>
          ok := !t.Unsupported?;
          if ok {
            PayOut(g, kind, t, amount, recipient, e.txHash);
          }
      }
    }

    method CreateMonthly(g: GoalId, start: Date, end: Date, day: int, policy: nat) returns (ok: bool)
      requires g in goals
      modifies this`goals, this`periods
      ensures Took(HandleMonthlyGoalCreated(old(Current()), g, start, end, day, policy), ok)
    {
      if day < 1 || day > 31 {
        return false;
      }
      if !KnownPolicy(policy) {
        return false;
      }
      goals := goals[g := goals[g].(monthly := true, policy := Some(policy), firstSettlementAt := Some(end),
                                    settlementDay := Some(day), monthStart := start, deadline := end)];
      if (g, 1) in periods {
        periods := periods[(g, 1) := periods[(g, 1)].(startsAt := start, endsAt := end, policy := policy)];
      } else {
        periods := periods[(g, 1) := NewPeriod(start, end, policy)];
      }
      return true;
    }

    method Receive(g: GoalId, t: Token, amount: nat) returns (ok: bool)
      requires g in goals
      modifies this`contributions, this`periods
      ensures Took(HandleContribution(old(Current()), g, t, amount), ok)
    {
      if t.Unsupported? {
        return false;
      }
      var rows := contributions + [Contribution(g, t, amount)];
      if goals[g].monthly {
        var open := (g, goals[g].settled + 1);
        if open !in periods {
          return false;
        }
        periods := periods[open := periods[open].(contributed := Add(periods[open].contributed, t, amount))];
      }
      contributions := rows;
      return true;
    }

    method UpdatePolicy(g: GoalId, policy: nat) returns (ok: bool)
      requires g in goals
      modifies this`goals, this`periods
      ensures Took(HandlePolicy(old(Current()), g, policy), ok)
    {
      if !KnownPolicy(policy) {
        return false;
      }
      var open := (g, goals[g].settled + 1);
      goals := goals[g := goals[g].(policy := Some(policy))];
      if open in periods && !periods[open].settled {
        periods := periods[open := periods[open].(policy := policy)];
      }
      return true;
    }

    method SettlePeriod(g: GoalId, index: nat, start: Date, end: Date, policy: nat, final: bool) returns (ok: bool)
      requires g in goals
      modifies this`goals, this`periods
      ensures Took(HandlePeriodSettled(old(Current()), g, index, start, end, policy, final), ok)
    {
      var day := goals[g].settlementDay;
      if day.None? || day.value < 1 || day.value > 31 || !KnownPolicy(policy) {
        return false;
      }
      var row := if (g, index) in periods then periods[(g, index)] else NewPeriod(start, end, policy);
      var rows := periods[(g, index) :=
        row.(startsAt := start, endsAt := end, policy := policy, final := final, settled := true)];
      var next := NextMonthlySettlementUtc(end, day.value);
      if next.None? {
        return false;
      }
      goals := goals[g := goals[g].(settled := index)];
      if !final {
        goals := goals[g := goals[g].(deadline := next.value)];
        if (g, index + 1) !in rows {
          rows := rows[(g, index + 1) := NewPeriod(end, next.value, policy)];
        }
      }
      periods := rows;
      return true;
    }

    method SettleToken(g: GoalId, index: nat, t: Token, contributed: nat, carryIn: nat, added: nat, carryOut: nat)
      returns (ok: bool)
      requires g in goals
      modifies this`goals, this`periods
      ensures Took(HandleTokenSettled(old(Current()), g, index, t, contributed, carryIn, added, carryOut), ok)
    {
      if t.Unsupported? || (g, index) !in periods {
        return false;
      }
      var row, next := periods[(g, index)], (g, index + 1);
      row := row.(contributed := Put(row.contributed, t, contributed));
      row := row.(carryIn := Put(row.carryIn, t, carryIn));
      row := row.(added := Put(row.added, t, added));
      row := row.(carryOut := Put(row.carryOut, t, carryOut));
      periods := periods[(g, index) := row];
      if next in periods && !periods[next].settled {
        periods := periods[next := periods[next].(carryIn := Put(periods[next].carryIn, t, carryOut))];
      }
      goals := goals[g := goals[g].(carry := Put(goals[g].carry, t, carryOut),
        recipient := Add(goals[g].recipient, t, added))];
      return true;
    }

    /** A one-time goal owes the treasury the sum of its contribution rows. */
    method Cancel(g: GoalId)
      requires g in goals
      modifies this`goals
      ensures Current() == HandleGoalCancelled(old(Current()), g)
    {
      if !goals[g].monthly {
        var pre, usdc := 0, 0;
        for n := 0 to |contributions|
          invariant pre == Contributed(contributions[..n], g, Pre) && usdc == Contributed(contributions[..n], g, Usdc)
        {
          assert contributions[..n + 1][..n] == contributions[..n];
          if contributions[n].goal == g && contributions[n].token.Pre? {
            pre := pre + contributions[n].amount;
          } else if contributions[n].goal == g && contributions[n].token.Usdc? {
            usdc := usdc + contributions[n].amount;
          }
        }
        assert contributions[..|contributions|] == contributions;
        goals := goals[g := goals[g].(treasury := Amounts(pre, usdc))];
      }
      goals := goals[g := goals[g].(status := Cancelled)];
    }

    /** The open proposals for a payout, oldest first. */
    method FindCandidates(g: GoalId, kind: PayoutKind, t: Token, amount: nat) returns (candidates: seq<nat>)
      ensures Listed(payouts, g, kind, t, amount, candidates)
      ensures |candidates| == CandidateCount(payouts, g, kind, t, amount)
    {
      candidates := [];
      for n := 0 to |payouts|
        invariant |candidates| == CandidateCount(payouts[..n], g, kind, t, amount)
        invariant forall k :: 0 <= k < |candidates| ==>
          candidates[k] < n && Candidate(payouts[candidates[k]], g, kind, t, amount)
        invariant forall j, k :: 0 <= j < k < |candidates| ==> candidates[j] < candidates[k]
        invariant forall i :: 0 <= i < n && Candidate(payouts[i], g, kind, t, amount) ==> i in candidates
      {
        assert payouts[..n + 1][..n] == payouts[..n];
        if Candidate(payouts[n], g, kind, t, amount) {
          candidates := candidates + [n];
        }
      }
      assert payouts[..|payouts|] == payouts;
    }

    /** Among the candidates the exact one, then the only one. */
    method MatchProposal(g: GoalId, kind: PayoutKind, t: Token, amount: nat, tx: nat) returns (found: Option<nat>)
      ensures found == Matched(payouts, g, kind, t, amount, tx)
    {
      hide CandidateCount, FirstCandidate, Candidate;
      var candidates := FindCandidates(g, kind, t, amount);
      var k := 0;
      while k < |candidates| && payouts[candidates[k]].safeTx != Some(tx)
        invariant k <= |candidates|
        invariant forall j :: 0 <= j < k ==> payouts[candidates[j]].safeTx != Some(tx)
      {
        k := k + 1;
      }
      OnlyOneFirst(payouts, g, kind, t, amount, Some(tx), candidates, k);
      if k < |candidates| {
        return Some(candidates[k]);
      }
      OnlyOneFirst(payouts, g, kind, t, amount, None, candidates, 0);
      if |candidates| == 1 && payouts[candidates[0]].safeTx.None? {
        return Some(candidates[0]);
      }
      return None;
    }

    method PayOut(g: GoalId, kind: PayoutKind, t: Token, amount: nat, recipient: nat, tx: nat)
      modifies this`payouts
      ensures payouts == Release(old(payouts), g, kind, t, amount, recipient, tx)
    {
      var i := MatchProposal(g, kind, t, amount, tx);
      if i.Some? {
        payouts := payouts[i.value :=
          payouts[i.value].(status := Executed, chainTx := Some(tx), recipient := recipient)];
      } else {
        payouts := payouts + [Payout(g, kind, t, amount, Executed, false, None, recipient, Some(tx))];
      }
    }
  }

  lemma HandledRelease(b: Books, e: Event)
    requires e.body.Released? && Handle(b, e).Some?
    ensures Handle(b, e).value == b.(payouts :=
      Release(b.payouts, e.goal, e.body.kind, e.body.token, e.body.amount, e.body.recipient, e.txHash))
  {
  }

  lemma OnlyReleasesPay(b: Books, e: Event)
    requires !e.body.Released? && Handle(b, e).Some?
    ensures Handle(b, e).value.payouts == b.payouts
  {
  }

  predicate Listed(rows: seq<Payout>, g: GoalId, kind: PayoutKind, t: Token, amount: nat, candidates: seq<nat>) {
    && (forall j :: 0 <= j < |candidates| ==>
       candidates[j] < |rows| && Candidate(rows[candidates[j]], g, kind, t, amount))
    && (forall i, j :: 0 <= i < j < |candidates| ==> candidates[i] < candidates[j])
    && (forall i :: 0 <= i < |rows| && Candidate(rows[i], g, kind, t, amount) ==> i in candidates)
  }

  /** The first of the listed candidates that fits is the first of all. */
  lemma OnlyOneFirst(rows: seq<Payout>, g: GoalId, kind: PayoutKind, t: Token, amount: nat, tx: Option<nat>,
                     candidates: seq<nat>, k: nat)
    requires Listed(rows, g, kind, t, amount, candidates)
    requires k <= |candidates| && forall j :: 0 <= j < k ==> tx.Some? && rows[candidates[j]].safeTx != tx
    requires k < |candidates| ==> tx.None? || rows[candidates[k]].safeTx == tx
    ensures FirstCandidate(rows, g, kind, t, amount, tx) == if k < |candidates| then Some(candidates[k]) else None
  {
    var r := FirstCandidate(rows, g, kind, t, amount, tx);
    if r.Some? {
      var m :| 0 <= m < |candidates| && candidates[m] == r.value;
      assert m >= k;
    }
  }
}
