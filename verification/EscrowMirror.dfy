/** The tables mirror the contract's ledger through every lawful stream of events. */
module EscrowMirror {
  import opened Prelude
  import opened MonthlySchedule
  import opened EscrowBooks
  import opened EscrowLedger

  /** The tokens of settled period `i` are settled too. */
  predicate TokenDone(l: Ledger, i: nat, t: Token) {
    i < l.settled || l.settling.None? || Done(l.settling.value, t)
  }

  /** A settled period passes on what it does not assign. */
  predicate PeriodBalances(b: Books, g: GoalId, l: Ledger, i: nat, t: Token)
    requires (g, i) in b.periods
  {
    var row := b.periods[(g, i)];
    if TokenDone(l, i, t)
    then Of(row.contributed, t) + Of(row.carryIn, t) == Of(row.added, t) + Of(row.carryOut, t)
    else Of(row.contributed, t) == Of(l.settling.value.contributed, t) && Of(row.carryIn, t) == Of(l.carry, t)
  }

  /** What the last settled period carries out is what the next carries in. */
  predicate CarryFlows(b: Books, g: GoalId, l: Ledger, i: nat, t: Token)
    requires (g, i) in b.periods && (g, i + 1) in b.periods
  {
    TokenDone(l, i, t) ==> Of(b.periods[(g, i)].carryOut, t) == Of(b.periods[(g, i + 1)].carryIn, t)
  }

  predicate RecordedAs(row: Period, p: Past) {
    && row.startsAt == p.start && row.endsAt == p.end && row.policy == p.policy
    && row.contributed == p.contributed && row.carryIn == p.carryIn
    && row.added == p.added && row.carryOut == p.carryOut
  }

  predicate SettledPeriod(b: Books, g: GoalId, l: Ledger, i: nat) {
    && (g, i) in b.periods && b.periods[(g, i)].settled
    && 1 <= i <= |l.past| && RecordedAs(b.periods[(g, i)], l.past[i - 1])
    && (b.periods[(g, i)].final <==> l.final && i == l.settled)
    && PeriodBalances(b, g, l, i, Pre) && PeriodBalances(b, g, l, i, Usdc)
    && (i < l.settled || !l.final ==>
          && (g, i + 1) in b.periods && b.periods[(g, i)].endsAt == b.periods[(g, i + 1)].startsAt
          && CarryFlows(b, g, l, i, Pre) && CarryFlows(b, g, l, i, Usdc))
  }

  predicate OpenPeriod(b: Books, g: GoalId, l: Ledger) {
    var open := (g, l.settled + 1);
    && open in b.periods && !b.periods[open].settled && !b.periods[open].final
    && b.periods[open].startsAt == l.start && b.periods[open].endsAt == End(l)
    && b.periods[open].contributed == l.open && b.periods[open].policy == l.policy
    && b.periods[open].added == b.periods[open].carryOut == ZERO
    && (l.settling.None? ==> l.drained || b.periods[open].carryIn == l.carry)
    && (forall t :: l.settling.Some? && Done(l.settling.value, t) ==> Of(b.periods[open].carryIn, t) == Of(l.carry, t))
  }

  /** Settled periods 1..n in a row, then exactly one open period unless the last was final. */
  ghost predicate Timeline(b: Books, g: GoalId, l: Ledger) {
    && (forall i :: 1 <= i <= l.settled ==> SettledPeriod(b, g, l, i))
    && (forall i :: (g, i) in b.periods ==> 1 <= i <= l.settled + if l.final then 0 else 1)
    && (!l.final ==> OpenPeriod(b, g, l))
  }

  predicate GoalRow(b: Books, g: GoalId, l: Ledger) {
    && g in b.goals
    && b.goals[g].monthly == l.monthly && b.goals[g].settled == l.settled
    && b.goals[g].recipient == l.recipient && b.goals[g].carry == l.carry && b.goals[g].treasury == l.treasury
    && Contributed(b.contributions, g, Pre) == l.total.pre && Contributed(b.contributions, g, Usdc) == l.total.usdc
    && (l.monthly ==> b.goals[g].settlementDay == Some(l.day) && b.goals[g].policy == Some(l.policy))
    && b.goals[g].deadline == (if l.monthly then End(l) else l.deadline)
    && (!l.monthly ==> b.goals[g].settlementDay.None? && b.goals[g].policy.None?)
    && b.goals[g].status == l.status && b.goals[g].stopRequested == l.stopRequested
    && b.goals[g].firstSettlementAt == l.first && b.goals[g].monthStart == l.monthStart
  }

  ghost predicate MirrorsGoal(b: Books, g: GoalId, l: Ledger) {
    && Sound(l) && GoalRow(b, g, l)
    && (if l.monthly then Timeline(b, g, l) else forall i :: (g, i) !in b.periods)
  }

  ghost predicate Mirrors(b: Books, ls: Ledgers) {
    && b.goals.Keys == ls.Keys
    && (forall g :: g in ls ==> MirrorsGoal(b, g, ls[g]))
    && (forall k :: k in b.periods ==> k.0 in ls)
    && (forall c :: c in b.contributions ==> c.goal in ls)
  }

  // ---- an event concerns one goal ------------------------------------------------------------

  ghost predicate SameElsewhere(b: Books, c: Books, g: GoalId) {
    && (forall h :: h != g ==> (h in b.goals <==> h in c.goals) && (h in b.goals ==> b.goals[h] == c.goals[h]))
    && (forall h, i :: h != g ==> ((h, i) in b.periods <==> (h, i) in c.periods))
    && (forall h, i :: h != g && (h, i) in b.periods && (h, i) in c.periods ==> b.periods[(h, i)] == c.periods[(h, i)])
    && (forall h, t :: h != g ==> Contributed(b.contributions, h, t) == Contributed(c.contributions, h, t))
  }

  lemma OtherGoalsKeepMirror(b: Books, c: Books, g: GoalId, h: GoalId, l: Ledger)
    requires SameElsewhere(b, c, g) && h != g && MirrorsGoal(b, h, l)
    ensures MirrorsGoal(c, h, l)
  {
    hide Sound, Contributed, Boundary, ValidDate, Earlier;
    if l.monthly {
      forall i | 1 <= i <= l.settled ensures SettledPeriod(c, h, l, i) {
        assert SettledPeriod(b, h, l, i);
      }
    }
  }

  lemma OneGoalChanges(b: Books, c: Books, ls: Ledgers, g: GoalId, l: Ledger)
    requires Mirrors(b, ls) && SameElsewhere(b, c, g) && MirrorsGoal(c, g, l)
    requires forall r :: r in c.contributions ==> r in b.contributions || r.goal == g
    ensures Mirrors(c, ls[g := l])
  {
    hide MirrorsGoal, Contributed;
    assert g in c.goals by { HasRow(c, g, l); }
    forall h | h in ls && h != g ensures MirrorsGoal(c, h, ls[h]) {
      OtherGoalsKeepMirror(b, c, g, h, ls[h]);
    }
    assert c.goals.Keys == ls[g := l].Keys;
    forall k | k in c.periods ensures k.0 in ls[g := l] {
      if k.0 != g {
        assert (k.0, k.1) in b.periods;
      }
    }
  }

  lemma HasRow(c: Books, g: GoalId, l: Ledger)
    requires MirrorsGoal(c, g, l)
    ensures g in c.goals
  {
  }

  /** The event was taken, and did to the tables what it did to the contract's ledger. */
  ghost predicate Follows(b: Books, after: Option<Books>, g: GoalId, l: Ledger) {
    && after.Some? && SameElsewhere(b, after.value, g) && MirrorsGoal(after.value, g, l)
    && (forall r :: r in after.value.contributions ==> r in b.contributions || r.goal == g)
  }

  lemma ContributionFollows(b: Books, g: GoalId, l: Ledger, t: Token, amount: nat)
    requires MirrorsGoal(b, g, l) && LawfulFor(l, ContributionReceived(t, amount))
    ensures Follows(b, HandleContribution(b, g, t, amount), g, Post(l, ContributionReceived(t, amount)))
  {
    PostIsSound(l, ContributionReceived(t, amount));
    OneContributionMore(b.contributions, Contribution(g, t, amount));
    hide Sound, Contributed, Boundary, Timeline, SettledPeriod, OpenPeriod;
    if l.monthly {
      ContributionKeepsTimeline(b, g, l, t, amount);
    }
  }

  lemma ContributionKeepsTimeline(b: Books, g: GoalId, l: Ledger, t: Token, amount: nat)
    requires MirrorsGoal(b, g, l) && LawfulFor(l, ContributionReceived(t, amount)) && l.monthly
    ensures var c := HandleContribution(b, g, t, amount);
      c.Some? && Timeline(c.value, g, Post(l, ContributionReceived(t, amount)))
  {
    hide Sound, Contributed, Boundary;
    var c := HandleContribution(b, g, t, amount).value;
    var m := Post(l, ContributionReceived(t, amount));
    forall i | 1 <= i <= m.settled ensures SettledPeriod(c, g, m, i) {
      assert SettledPeriod(b, g, l, i);
    }
  }

  lemma OneContributionMore(rows: seq<Contribution>, r: Contribution)
    ensures forall g, t ::
      Contributed(rows + [r], g, t) == Contributed(rows, g, t) + if r.goal == g && r.token == t then r.amount else 0
  {
    assert (rows + [r])[..|rows|] == rows;
  }

  lemma MonthlyCreatedFollows(b: Books, g: GoalId, l: Ledger, start: Date, end: Date, day: int, policy: nat)
    requires MirrorsGoal(b, g, l) && LawfulFor(l, MonthlyGoalCreated(start, end, day, policy))
    ensures Follows(b, HandleMonthlyGoalCreated(b, g, start, end, day, policy), g,
      Post(l, MonthlyGoalCreated(start, end, day, policy)))
  {
    PostIsSound(l, MonthlyGoalCreated(start, end, day, policy));
  }

  lemma PolicyFollows(b: Books, g: GoalId, l: Ledger, policy: nat)
    requires MirrorsGoal(b, g, l) && LawfulFor(l, MonthlySurplusPolicyUpdated(policy))
    ensures Follows(b, HandlePolicy(b, g, policy), g, Post(l, MonthlySurplusPolicyUpdated(policy)))
  {
    PostIsSound(l, MonthlySurplusPolicyUpdated(policy));
    PolicyKeepsTimeline(b, g, l, policy);
    hide Sound, Contributed, Boundary, ValidDate, Earlier, Timeline;
  }

  lemma PolicyKeepsTimeline(b: Books, g: GoalId, l: Ledger, policy: nat)
    requires MirrorsGoal(b, g, l) && LawfulFor(l, MonthlySurplusPolicyUpdated(policy))
    ensures HandlePolicy(b, g, policy).Some?
    ensures Timeline(HandlePolicy(b, g, policy).value, g, Post(l, MonthlySurplusPolicyUpdated(policy)))
  {
    hide Sound, Contributed, Boundary, ValidDate, Earlier;
    var c := HandlePolicy(b, g, policy).value;
    var m := Post(l, MonthlySurplusPolicyUpdated(policy));
    forall i | 1 <= i <= m.settled ensures SettledPeriod(c, g, m, i) {
      assert SettledPeriod(b, g, l, i);
    }
  }

  lemma PeriodFollows(b: Books, g: GoalId, l: Ledger, index: nat, start: Date, end: Date, policy: nat, final: bool)
    requires MirrorsGoal(b, g, l) && LawfulFor(l, MonthlyPeriodSettled(index, start, end, policy, final))
    ensures Follows(b, HandlePeriodSettled(b, g, index, start, end, policy, final), g,
                    Post(l, MonthlyPeriodSettled(index, start, end, policy, final)))
  {
    var e := MonthlyPeriodSettled(index, start, end, policy, final);
    PostIsSound(l, e);
    NextIsBoundary(End(l), l.day);
    hide Sound, Contributed, ValidDate, Earlier, NextMonthlySettlementUtc, Boundary, Timeline, SettledPeriod,
         OpenPeriod;
    PeriodKeepsTimeline(b, g, l, index, start, end, policy, final);
  }

  lemma PeriodKeepsTimeline(b: Books, g: GoalId, l: Ledger, index: nat, start: Date, end: Date, policy: nat,
                            final: bool)
    requires MirrorsGoal(b, g, l) && LawfulFor(l, MonthlyPeriodSettled(index, start, end, policy, final))
    requires NextMonthlySettlementUtc(End(l), l.day) == Some(Boundary(l.month + 1, l.day))
    ensures var c := HandlePeriodSettled(b, g, index, start, end, policy, final);
      c.Some? && Timeline(c.value, g, Post(l, MonthlyPeriodSettled(index, start, end, policy, final)))
  {
    hide Contributed, ValidDate, Earlier, NextMonthlySettlementUtc, Boundary, Conserved;
    var c := HandlePeriodSettled(b, g, index, start, end, policy, final).value;
    var m := Post(l, MonthlyPeriodSettled(index, start, end, policy, final));
    forall i | 1 <= i <= m.settled ensures SettledPeriod(c, g, m, i) {
      if i < index {
        assert SettledPeriod(b, g, l, i);
      }
    }
  }

  lemma TokenFollows(b: Books, g: GoalId, l: Ledger, index: nat, t: Token, contributed: nat, carryIn: nat, added: nat,
                     carryOut: nat)
    requires MirrorsGoal(b, g, l) && LawfulFor(l, MonthlyTokenSettled(index, t, contributed, carryIn, added, carryOut))
    ensures Follows(b, HandleTokenSettled(b, g, index, t, contributed, carryIn, added, carryOut), g,
                    Post(l, MonthlyTokenSettled(index, t, contributed, carryIn, added, carryOut)))
  {
    var e := MonthlyTokenSettled(index, t, contributed, carryIn, added, carryOut);
    PostIsSound(l, e);
    hide Sound, Boundary, Contributed, ValidDate, Earlier, Timeline, SettledPeriod, OpenPeriod;
    TokenKeepsTimeline(b, g, l, index, t, contributed, carryIn, added, carryOut);
  }

  lemma TokenKeepsTimeline(b: Books, g: GoalId, l: Ledger, index: nat, t: Token, contributed: nat, carryIn: nat,
                           added: nat, carryOut: nat)
    requires MirrorsGoal(b, g, l) && LawfulFor(l, MonthlyTokenSettled(index, t, contributed, carryIn, added, carryOut))
    ensures var c := HandleTokenSettled(b, g, index, t, contributed, carryIn, added, carryOut);
      c.Some? && Timeline(c.value, g, Post(l, MonthlyTokenSettled(index, t, contributed, carryIn, added, carryOut)))
  {
    hide Boundary, Contributed, ValidDate, Earlier;
    var m := Post(l, MonthlyTokenSettled(index, t, contributed, carryIn, added, carryOut));
    assert SettledPeriod(b, g, l, index);
    var c := HandleTokenSettled(b, g, index, t, contributed, carryIn, added, carryOut).value;
    forall i | 1 <= i <= m.settled ensures SettledPeriod(c, g, m, i) {
      assert SettledPeriod(b, g, l, i);
      if i < index {
        OtherPeriodKept(b, c, g, l, m, i);
      } else {
        LastPeriodBalanced(b, g, l, index, t, contributed, carryIn, added, carryOut);
      }
    }
    assert m.final || OpenPeriod(c, g, m);
  }

  lemma OtherPeriodKept(b: Books, c: Books, g: GoalId, l: Ledger, m: Ledger, i: nat)
    requires SettledPeriod(b, g, l, i) && i < l.settled && m.settled == l.settled && m.final == l.final
    requires i <= |m.past| && i <= |l.past| && m.past[i - 1] == l.past[i - 1]
    requires (g, i) in c.periods && c.periods[(g, i)] == b.periods[(g, i)]
    requires (g, i + 1) in c.periods && c.periods[(g, i + 1)].startsAt == b.periods[(g, i + 1)].startsAt
    requires c.periods[(g, i + 1)].carryIn == b.periods[(g, i + 1)].carryIn
    ensures SettledPeriod(c, g, m, i)
  {
  }

  lemma LastPeriodBalanced(b: Books, g: GoalId, l: Ledger, index: nat, t: Token, contributed: nat, carryIn: nat,
                           added: nat, carryOut: nat)
    requires MirrorsGoal(b, g, l) && LawfulFor(l, MonthlyTokenSettled(index, t, contributed, carryIn, added, carryOut))
    ensures var c := HandleTokenSettled(b, g, index, t, contributed, carryIn, added, carryOut);
      c.Some? && SettledPeriod(c.value, g,
        Post(l, MonthlyTokenSettled(index, t, contributed, carryIn, added, carryOut)), index)
  {
    hide Boundary, Contributed, ValidDate, Earlier, GoalRow;
    assert SettledPeriod(b, g, l, index);
    assert l.final || OpenPeriod(b, g, l);
    hide Timeline;
  }

  lemma StopFollows(b: Books, g: GoalId, l: Ledger, e: Event)
    requires MirrorsGoal(b, g, l) && LawfulFor(l, e.body) && e.goal == g && e.body.MonthlyGoalStopRequested?
    ensures Follows(b, Handle(b, e), g, Post(l, e.body))
  {
    PostIsSound(l, e.body);
    HasRow(b, g, l);
    hide Sound, Contributed, Boundary, ValidDate, Earlier, Timeline, HandleContribution, HandlePolicy,
         HandlePeriodSettled, HandleTokenSettled, HandleMonthlyGoalCreated, Release;
    if l.monthly {
      TimelineKept(b, Handle(b, e).value, g, l, Post(l, e.body));
    }
  }

  lemma ClosedFollows(b: Books, g: GoalId, l: Ledger, e: Event)
    requires MirrorsGoal(b, g, l) && LawfulFor(l, e.body) && e.goal == g && e.body.GoalClosed?
    ensures Follows(b, Handle(b, e), g, Post(l, e.body))
  {
    PostIsSound(l, e.body);
    HasRow(b, g, l);
    hide Sound, Contributed, Boundary, ValidDate, Earlier, Timeline, HandleContribution, HandlePolicy,
         HandlePeriodSettled, HandleTokenSettled, HandleMonthlyGoalCreated, Release;
    if l.monthly {
      TimelineKept(b, Handle(b, e).value, g, l, Post(l, e.body));
    }
  }

  lemma CancelledFollows(b: Books, g: GoalId, l: Ledger, e: Event)
    requires MirrorsGoal(b, g, l) && LawfulFor(l, e.body) && e.goal == g && e.body.GoalCancelled?
    ensures Follows(b, Handle(b, e), g, Post(l, e.body))
  {
    PostIsSound(l, e.body);
    HasRow(b, g, l);
    hide Sound, Contributed, Boundary, ValidDate, Earlier, Timeline, HandleContribution, HandlePolicy,
         HandlePeriodSettled, HandleTokenSettled, HandleMonthlyGoalCreated, Release;
    if l.monthly {
      TimelineKept(b, Handle(b, e).value, g, l, Post(l, e.body));
    }
  }

  lemma MonthlyCancelledFollows(b: Books, g: GoalId, l: Ledger, e: Event)
    requires MirrorsGoal(b, g, l) && LawfulFor(l, e.body) && e.goal == g && e.body.MonthlyGoalCancelled?
    ensures Follows(b, Handle(b, e), g, Post(l, e.body))
  {
    PostIsSound(l, e.body);
    HasRow(b, g, l);
    hide Sound, Contributed, Boundary, ValidDate, Earlier, Timeline, HandleContribution, HandlePolicy,
         HandlePeriodSettled, HandleTokenSettled, HandleMonthlyGoalCreated, Release;
    if l.monthly {
      TimelineKept(b, Handle(b, e).value, g, l, Post(l, e.body));
    }
  }

  lemma TimelineKept(b: Books, c: Books, g: GoalId, l: Ledger, m: Ledger)
    requires Timeline(b, g, l) && c.periods == b.periods && (l.drained ==> m.drained)
    requires m == l.(recipient := m.recipient, carry := m.carry, treasury := m.treasury, status := m.status,
      drained := m.drained, stopRequested := m.stopRequested)
    requires m.carry == l.carry || (m.drained && m.settling.None?)
    ensures Timeline(c, g, m)
  {
    hide Boundary;
    forall i | 1 <= i <= m.settled ensures SettledPeriod(c, g, m, i) {
      assert SettledPeriod(b, g, l, i);
    }
  }

  lemma {:induction false} NothingContributed(rows: seq<Contribution>, g: GoalId, t: Token)
    requires forall r :: r in rows ==> r.goal != g
    ensures Contributed(rows, g, t) == 0
  {
    if rows != [] {
      assert rows[|rows| - 1] in rows;
      assert forall r :: r in rows[..|rows| - 1] ==> r in rows;
      NothingContributed(rows[..|rows| - 1], g, t);
    }
  }

  lemma CreatedFollows(b: Books, ls: Ledgers, g: GoalId, deadline: Date)
    requires Mirrors(b, ls) && g !in ls
    ensures Mirrors(b.(goals := b.goals[g := NewGoal(deadline)]), ls[g := NewLedger(deadline)])
  {
    hide Contributed, MirrorsGoal, NewGoal, NewLedger;
    var c := b.(goals := b.goals[g := NewGoal(deadline)]);
    NothingContributed(b.contributions, g, Pre);
    NothingContributed(b.contributions, g, Usdc);
    forall i ensures (g, i) !in c.periods {
      assert (g, i) in b.periods ==> (g, i).0 in ls;
    }
    FreshGoalMirrors(c, g, deadline);
    forall h | h in ls ensures MirrorsGoal(c, h, ls[h]) {
      OtherGoalsKeepMirror(b, c, g, h, ls[h]);
    }
  }

  lemma FreshGoalMirrors(c: Books, g: GoalId, deadline: Date)
    requires g in c.goals && c.goals[g] == NewGoal(deadline) && forall i :: (g, i) !in c.periods
    requires Contributed(c.contributions, g, Pre) == Contributed(c.contributions, g, Usdc) == 0
    ensures MirrorsGoal(c, g, NewLedger(deadline))
  {
  }

  /** No lawful event throws, and each does to the tables what it does to the contract. */
  lemma EventKeepsMirror(b: Books, ls: Ledgers, e: Event)
    requires Mirrors(b, ls) && Lawful(ls, e)
    ensures Handle(b, e).Some? && Mirrors(Handle(b, e).value, PostAll(ls, e))
  {
    hide MirrorsGoal, LawfulFor, Post, Contributed, HandleContribution, HandlePolicy, HandlePeriodSettled,
         HandleTokenSettled, HandleMonthlyGoalCreated, HandleGoalCancelled, HandleMonthlyCancelled, NewGoal, NewLedger;
    if e.body.GoalCreated? {
      CreatedFollows(b, ls, e.goal, e.body.deadline);
    } else if !e.body.Elsewhere? {
      var g, l := e.goal, ls[e.goal];
      BodyFollows(b, g, l, e);
      OneGoalChanges(b, Handle(b, e).value, ls, g, Post(l, e.body));
    }
  }

  lemma BodyFollows(b: Books, g: GoalId, l: Ledger, e: Event)
    requires MirrorsGoal(b, g, l) && LawfulFor(l, e.body) && e.goal == g && !e.body.GoalCreated? && !e.body.Elsewhere?
    ensures Follows(b, Handle(b, e), g, Post(l, e.body))
  {
    HasRow(b, g, l);
    hide MirrorsGoal, HandleContribution, HandlePolicy, HandlePeriodSettled, HandleTokenSettled,
         HandleMonthlyGoalCreated, Follows;
    match e.body
    case MonthlyGoalCreated(start, end, day, policy) => MonthlyCreatedFollows(b, g, l, start, end, day, policy);
    case ContributionReceived(t, amount) => ContributionFollows(b, g, l, t, amount);
    case MonthlySurplusPolicyUpdated(policy) => PolicyFollows(b, g, l, policy);
    case MonthlyPeriodSettled(index, start, end, policy, final) =>
      PeriodFollows(b, g, l, index, start, end, policy, final);
    case MonthlyTokenSettled(index, t, contributed, carryIn, added, carryOut) =>
      TokenFollows(b, g, l, index, t, contributed, carryIn, added, carryOut);
    case Released(_, _, _, _) => ReleaseFollows(b, g, l, e);
    case MonthlyGoalStopRequested => StopFollows(b, g, l, e);
    case GoalClosed(_) => ClosedFollows(b, g, l, e);
    case GoalCancelled => CancelledFollows(b, g, l, e);
    case MonthlyGoalCancelled(_) => MonthlyCancelledFollows(b, g, l, e);
  }

  lemma ReleaseFollows(b: Books, g: GoalId, l: Ledger, e: Event)
    requires MirrorsGoal(b, g, l) && LawfulFor(l, e.body) && e.goal == g && e.body.Released?
    ensures Follows(b, Handle(b, e), g, l)
  {
    hide Sound, Contributed, Boundary, Release;
    if l.monthly {
      TimelineKept(b, Handle(b, e).value, g, l, l);
    }
  }
}
