/** What the escrow tables say after any run of events: conservation, timelines and balances. */
module EscrowAccounts {
  import opened Prelude
  import opened Branch
  import opened MonthlySchedule
  import opened EscrowBooks
  import opened EscrowLedger
  import opened EscrowMirror
  import EscrowIndexer

  type EventRow = LogRow<Event, nat>

  const NO_BOOKS: Books := Books(map[], map[], [], [])

  /** The handler as the indexer calls it. */
  function HandleRow(b: Books, row: EventRow, timestamp: nat): Option<Books> {
    Handle(b, row.body)
  }

  function LedgersOf(rows: seq<EventRow>): Ledgers {
    if rows == [] then map[] else PostAll(LedgersOf(rows[..|rows| - 1]), rows[|rows| - 1].body)
  }

  /** The contract emitted these events, in this order. */
  predicate LawfulStream(rows: seq<EventRow>) {
    rows != [] ==> LawfulStream(rows[..|rows| - 1]) && Lawful(LedgersOf(rows[..|rows| - 1]), rows[|rows| - 1].body)
  }

  /** A lawful stream never makes a handler throw, and the tables mirror the contract after it. */
  lemma {:induction false} TablesMirrorContract(rows: seq<EventRow>)
    requires LawfulStream(rows)
    ensures EscrowIndexer.Run(NO_BOOKS, rows, HandleRow).Some?
    ensures Mirrors(EscrowIndexer.Run(NO_BOOKS, rows, HandleRow).value, LedgersOf(rows))
  {
    hide Mirrors, Lawful, Handle, PostAll;
    if rows == [] {
      EmptyMirrors();
    } else {
      var before := rows[..|rows| - 1];
      TablesMirrorContract(before);
      EventKeepsMirror(EscrowIndexer.Run(NO_BOOKS, before, HandleRow).value, LedgersOf(before), rows[|rows| - 1].body);
    }
  }

  lemma EmptyMirrors()
    ensures Mirrors(NO_BOOKS, map[])
  {
  }

  lemma {:induction false} PrefixIsLawful(rows: seq<EventRow>, k: nat)
    requires LawfulStream(rows) && k <= |rows|
    ensures LawfulStream(rows[..k])
    decreases |rows|
  {
    if k == |rows| {
      assert rows[..k] == rows;
    } else {
      PrefixIsLawful(rows[..|rows| - 1], k);
      assert rows[..|rows| - 1][..k] == rows[..k];
    }
  }

  /** However the indexers were killed and restarted, the tables mirror the contract at the last claimed event. */
  lemma IndexedTablesMirrorContract(x: EscrowIndexer.EscrowIndexer<Event, Books>)
    requires x.Valid() && x.initial == NO_BOOKS && x.handle == HandleRow && LawfulStream(x.All())
    ensures Mirrors(x.projection, LedgersOf(x.claimed))
  {
    x.ClaimedIsPrefix();
    PrefixIsLawful(x.All(), |x.claimed|);
    assert x.claimed == x.All()[..|x.claimed|];
    TablesMirrorContract(x.claimed);
  }

  // ---- monthly conservation ---------------------------------------------------------------------

  /** What the open period has taken in; nothing when the last period was final. */
  function InOpenPeriod(b: Books, g: GoalId, t: Token): nat
    requires g in b.goals
  {
    var open := (g, b.goals[g].settled + 1);
    if open in b.periods then Of(b.periods[open].contributed, t) else 0
  }

  /** The account of a monthly goal, read off the tables. */
  predicate Balanced(b: Books, g: GoalId, t: Token, drained: bool, unassigned: nat)
    requires g in b.goals
  {
    var row := b.goals[g];
    Contributed(b.contributions, g, t) ==
      if drained then Of(row.recipient, t) + Of(row.treasury, t)
      else Of(row.recipient, t) + Of(row.carry, t) + InOpenPeriod(b, g, t) + unassigned
  }

  lemma MirrorBalances(b: Books, g: GoalId, l: Ledger, t: Token)
    requires MirrorsGoal(b, g, l) && l.monthly && !t.Unsupported?
    ensures Balanced(b, g, t, l.drained, Unassigned(l, t))
  {
    hide Boundary, ValidDate, Earlier, SettledPeriod;
    assert Conserved(l, Pre) && Conserved(l, Usdc);
  }

  /**
   What was paid in for a monthly goal is what its recipient is entitled to, what it carries
   and what its open period holds, or, once it was cancelled, what recipient and treasury get.
   */
  lemma MonthlyConservation(rows: seq<EventRow>, g: GoalId, t: Token)
    requires LawfulStream(rows) && g in LedgersOf(rows) && LedgersOf(rows)[g].monthly && !t.Unsupported?
    ensures var b, l := EscrowIndexer.Run(NO_BOOKS, rows, HandleRow), LedgersOf(rows)[g];
      b.Some? && g in b.value.goals && Balanced(b.value, g, t, l.drained, Unassigned(l, t))
  {
    hide MirrorsGoal, Balanced, Unassigned, LawfulStream, LedgersOf, HandleRow, EscrowIndexer.Run;
    TablesMirrorContract(rows);
    MirrorBalances(EscrowIndexer.Run(NO_BOOKS, rows, HandleRow).value, g, LedgersOf(rows)[g], t);
  }

  predicate EndToEnd(b: Books, g: GoalId, i: nat) {
    (g, i) in b.periods && (g, i + 1) in b.periods ==> b.periods[(g, i)].endsAt == b.periods[(g, i + 1)].startsAt
  }

  /** Settled periods lie end to end, the open one follows, and its end is the goal's deadline. */
  ghost predicate GoodTimeline(b: Books, g: GoalId, final: bool, carryKnown: bool)
    requires g in b.goals
  {
    var n := b.goals[g].settled;
    && (forall i :: (g, i) in b.periods <==> 1 <= i <= n + if final then 0 else 1)
    && (forall i :: (g, i) in b.periods && i <= n ==>
       b.periods[(g, i)].settled && (b.periods[(g, i)].final <==> final && i == n))
    && (forall i :: EndToEnd(b, g, i))
    && (!final ==>
          && !b.periods[(g, n + 1)].settled
          && b.periods[(g, n + 1)].endsAt == b.goals[g].deadline
          && Earlier(b.periods[(g, n + 1)].startsAt, b.goals[g].deadline)
          && (carryKnown ==> b.periods[(g, n + 1)].carryIn == b.goals[g].carry))
  }

  lemma MirrorTimeline(b: Books, g: GoalId, l: Ledger)
    requires MirrorsGoal(b, g, l) && l.monthly
    ensures GoodTimeline(b, g, l.final, l.settling.None? && !l.drained)
  {
    hide Contributed, Boundary, Conserved, PeriodBalances, CarryFlows, EndToEnd;
    forall i ensures EndToEnd(b, g, i) {
      PeriodsMeet(b, g, l, i);
    }
    forall i | 1 <= i <= l.settled
      ensures (g, i) in b.periods && b.periods[(g, i)].settled &&
        (b.periods[(g, i)].final <==> l.final && i == l.settled)
    {
      assert SettledPeriod(b, g, l, i);
    }
    hide SettledPeriod;
    assert !l.final ==> OpenPeriod(b, g, l);
  }

  lemma PeriodsMeet(b: Books, g: GoalId, l: Ledger, i: nat)
    requires MirrorsGoal(b, g, l) && l.monthly
    ensures EndToEnd(b, g, i)
  {
    hide Contributed, Boundary, Conserved, PeriodBalances, CarryFlows;
    assert 1 <= i <= l.settled ==> SettledPeriod(b, g, l, i);
  }

  lemma PeriodTimeline(rows: seq<EventRow>, g: GoalId)
    requires LawfulStream(rows) && g in LedgersOf(rows) && LedgersOf(rows)[g].monthly
    ensures var b, l := EscrowIndexer.Run(NO_BOOKS, rows, HandleRow), LedgersOf(rows)[g];
      b.Some? && g in b.value.goals && GoodTimeline(b.value, g, l.final, l.settling.None? && !l.drained)
  {
    hide MirrorsGoal, GoodTimeline, LawfulStream, LedgersOf, HandleRow, EscrowIndexer.Run;
    TablesMirrorContract(rows);
    MirrorTimeline(EscrowIndexer.Run(NO_BOOKS, rows, HandleRow).value, g, LedgersOf(rows)[g]);
  }

  /** A settled period hands on exactly what it does not assign to the recipient. */
  lemma SettledPeriodBalances(rows: seq<EventRow>, g: GoalId, i: nat, t: Token)
    requires LawfulStream(rows) && g in LedgersOf(rows) && LedgersOf(rows)[g].monthly && !t.Unsupported?
    requires 1 <= i <= LedgersOf(rows)[g].settled && TokenDone(LedgersOf(rows)[g], i, t)
    ensures var b := EscrowIndexer.Run(NO_BOOKS, rows, HandleRow);
      && b.Some? && (g, i) in b.value.periods
      && (var row := b.value.periods[(g, i)];
          Of(row.carryIn, t) + Of(row.contributed, t) == Of(row.added, t) + Of(row.carryOut, t))
  {
    hide LawfulStream, LedgersOf, HandleRow, EscrowIndexer.Run;
    TablesMirrorContract(rows);
    MirrorSettled(EscrowIndexer.Run(NO_BOOKS, rows, HandleRow).value, g, LedgersOf(rows)[g], i);
  }

  lemma MirrorSettled(b: Books, g: GoalId, l: Ledger, i: nat)
    requires MirrorsGoal(b, g, l) && l.monthly && 1 <= i <= l.settled
    ensures SettledPeriod(b, g, l, i)
  {
  }

  // ---- payouts and balances -------------------------------------------------------------------------

  /** Payouts of one token, of one goal or kind or of all. */
  datatype Selector = Selector(goal: Option<GoalId>, kind: Option<PayoutKind>, token: Token)

  predicate Selects(s: Selector, g: GoalId, kind: PayoutKind, t: Token) {
    (s.goal.None? || s.goal.value == g) && (s.kind.None? || s.kind.value == kind) && s.token == t
  }

  predicate Counts(s: Selector, p: Payout) {
    p.status.Executed? && Selects(s, p.goal, p.kind, p.token)
  }

  /** What was paid out. */
  function PaidOut(rows: seq<Payout>, s: Selector): nat {
    if rows == [] then 0
    else PaidOut(rows[..|rows| - 1], s) + if Counts(s, rows[|rows| - 1]) then rows[|rows| - 1].amount else 0
  }

  lemma PaidOutOneMore(rows: seq<Payout>, p: Payout, s: Selector)
    ensures PaidOut(rows + [p], s) == PaidOut(rows, s) + if Counts(s, p) then p.amount else 0
  {
    assert (rows + [p])[..|rows|] == rows;
  }

  lemma {:induction false} PaidOutUpdate(rows: seq<Payout>, i: nat, p: Payout, s: Selector)
    requires i < |rows|
    ensures PaidOut(rows[i := p], s) + (if Counts(s, rows[i]) then rows[i].amount else 0)
      == PaidOut(rows, s) + if Counts(s, p) then p.amount else 0
  {
    var n := |rows| - 1;
    if i == n {
      assert rows[i := p][..n] == rows[..n];
    } else {
      assert rows[i := p][..n] == rows[..n][i := p];
      PaidOutUpdate(rows[..n], i, p, s);
    }
  }

  /**
   Matched or not, a release raises what was paid out for its goal, kind and token by exactly
   its amount, changes no other total, and uses up at most one proposal.
   */
  lemma ReleaseCounts(rows: seq<Payout>, g: GoalId, kind: PayoutKind, t: Token, amount: nat, recipient: nat, tx: nat)
    ensures var after := Release(rows, g, kind, t, amount, recipient, tx);
      && (forall s :: PaidOut(after, s) == PaidOut(rows, s) + if Selects(s, g, kind, t) then amount else 0)
      && |rows| <= |after| <= |rows| + 1
      && (forall i, j :: 0 <= i < |rows| && 0 <= j < |rows| && after[i] != rows[i] && after[j] != rows[j] ==> i == j)
      && (forall i :: 0 <= i < |rows| && after[i] != rows[i] ==>
            |after| == |rows| && Candidate(rows[i], g, kind, t, amount) && after[i].status.Executed?)
  {
    var after := Release(rows, g, kind, t, amount, recipient, tx);
    var i := Matched(rows, g, kind, t, amount, tx);
    forall s ensures PaidOut(after, s) == PaidOut(rows, s) + if Selects(s, g, kind, t) then amount else 0 {
      if i.Some? {
        PaidOutUpdate(rows, i.value, rows[i.value].(status := Executed, chainTx := Some(tx), recipient := recipient),
          s);
      } else {
        PaidOutOneMore(rows, Payout(g, kind, t, amount, Executed, false, None, recipient, Some(tx)), s);
      }
    }
  }

  /** A release is matched by its transaction if it can be, otherwise only without ambiguity. */
  lemma MatchedExactlyOrAlone(rows: seq<Payout>, g: GoalId, kind: PayoutKind, t: Token, amount: nat, tx: nat)
    ensures var i := Matched(rows, g, kind, t, amount, tx);
      && ((exists j :: 0 <= j < |rows| && Candidate(rows[j], g, kind, t, amount) && rows[j].safeTx == Some(tx)) ==>
            i.Some? && rows[i.value].safeTx == Some(tx))
      && (i.Some? && rows[i.value].safeTx != Some(tx) ==>
            rows[i.value].safeTx.None? && CandidateCount(rows, g, kind, t, amount) == 1)
      && (i.None? ==> forall j :: 0 <= j < |rows| && Candidate(rows[j], g, kind, t, amount) ==>
            rows[j].safeTx != Some(tx) && (CandidateCount(rows, g, kind, t, amount) == 1 ==> rows[j].safeTx.Some?))
  {
    if CandidateCount(rows, g, kind, t, amount) == 1 {
      forall j, k | 0 <= j < |rows| && 0 <= k < |rows| && Candidate(rows[j], g, kind, t, amount) &&
        Candidate(rows[k], g, kind, t, amount)
        ensures j == k
      {
        if j != k {
          TwoCandidates(rows, g, kind, t, amount, if j < k then j else k, if j < k then k else j);
        }
      }
    }
  }

  /** The row of this release is row `i`: executed as the event says, a proposal of it or a row of its own. */
  predicate CarriesOut(before: seq<Payout>, after: seq<Payout>, e: Event, i: nat)
    requires e.body.Released?
  {
    && i < |after| && |after| == (if i < |before| then |before| else |before| + 1)
    && (forall j :: 0 <= j < |after| && j != i ==> j < |before| && after[j] == before[j])
    && var p := after[i];
       && p.goal == e.goal && p.kind == e.body.kind && p.token == e.body.token && p.amount == e.body.amount
       && p.status.Executed? && p.recipient == e.body.recipient && p.chainTx == Some(e.txHash)
       && (if i < |before| then
             && Candidate(before[i], e.goal, e.body.kind, e.body.token, e.body.amount)
             && p.intended == before[i].intended && p.safeTx == before[i].safeTx
           else i == |before| && !p.intended && p.safeTx.None?)
  }

  lemma ReleaseCarriesOut(rows: seq<Payout>, e: Event) returns (i: nat)
    requires e.body.Released?
    ensures var b := e.body;
      CarriesOut(rows, Release(rows, e.goal, b.kind, b.token, b.amount, b.recipient, e.txHash), e, i)
  {
    var found := Matched(rows, e.goal, e.body.kind, e.body.token, e.body.amount, e.txHash);
    i := if found.Some? then found.value else |rows|;
  }

  lemma {:induction false} SomeCandidate(rows: seq<Payout>, g: GoalId, kind: PayoutKind, t: Token, amount: nat, j: nat)
    requires j < |rows| && Candidate(rows[j], g, kind, t, amount)
    ensures CandidateCount(rows, g, kind, t, amount) >= 1
  {
    if j < |rows| - 1 {
      SomeCandidate(rows[..|rows| - 1], g, kind, t, amount, j);
    }
  }

  lemma {:induction false} TwoCandidates(rows: seq<Payout>, g: GoalId, kind: PayoutKind, t: Token, amount: nat, j: nat,
                                         k: nat)
    requires j < k < |rows| && Candidate(rows[j], g, kind, t, amount) && Candidate(rows[k], g, kind, t, amount)
    ensures CandidateCount(rows, g, kind, t, amount) >= 2
  {
    var n := |rows| - 1;
    if k < n {
      TwoCandidates(rows[..n], g, kind, t, amount, j, k);
    } else {
      SomeCandidate(rows[..n], g, kind, t, amount, j);
    }
  }

  // ---- a release that was projected before its proposal was known ---------------------------------------

  /** The executed row of the same payment that no plan of the application stands behind. */
  predicate SamePayment(p: Payout, q: Payout, tx: nat) {
    && q.goal == p.goal && q.kind == p.kind && q.token == p.token && q.amount == p.amount && q.recipient == p.recipient
    && q.chainTx == Some(tx) && q.status.Executed? && !q.intended
  }

  function FindProjection(rows: seq<Payout>, i: nat, tx: nat): (j: Option<nat>)
    requires i < |rows|
    ensures j.Some? ==> j.value < |rows| && j.value != i && SamePayment(rows[i], rows[j.value], tx)
    ensures j.None? ==> forall k :: 0 <= k < |rows| && k != i ==> !SamePayment(rows[i], rows[k], tx)
  {
    FirstProjection(rows, i, tx, 0)
  }

  function FirstProjection(rows: seq<Payout>, i: nat, tx: nat, from: nat): (j: Option<nat>)
    requires i < |rows|
    ensures j.Some? ==> j.value < |rows| && j.value != i && SamePayment(rows[i], rows[j.value], tx)
    ensures j.None? ==> forall k :: from <= k < |rows| && k != i ==> !SamePayment(rows[i], rows[k], tx)
    decreases |rows| - from
  {
    if from >= |rows| then None
    else if from != i && SamePayment(rows[i], rows[from], tx) then Some(from)
    else FirstProjection(rows, i, tx, from + 1)
  }

  /** The planned payout takes the place of the row that the release made. */
  function PromotePayout(rows: seq<Payout>, i: nat, tx: nat): seq<Payout>
    requires i < |rows|
  {
    var j := FindProjection(rows, i, tx);
    if j.None? || !rows[i].status.Proposed? then rows
    else
      var promoted := rows[i := rows[i].(status := Executed, chainTx := Some(tx))];
      promoted[..j.value] + promoted[j.value + 1..]
  }

  lemma {:induction false} PaidOutRemove(rows: seq<Payout>, j: nat, s: Selector)
    requires j < |rows|
    ensures PaidOut(rows[..j] + rows[j + 1..], s)
      + (if Counts(s, rows[j]) then rows[j].amount else 0) == PaidOut(rows, s)
  {
    var n := |rows| - 1;
    if j == n {
      assert rows[..j] + rows[j + 1..] == rows[..n];
    } else {
      var rest := rows[..j] + rows[j + 1..];
      assert rest[..|rest| - 1] == rows[..n][..j] + rows[..n][j + 1..] && rest[|rest| - 1] == rows[n];
      PaidOutRemove(rows[..n], j, s);
    }
  }

  /** A proposed payout whose release has a row of its own becomes that row; otherwise nothing happens. */
  lemma PromotionReplaces(rows: seq<Payout>, i: nat, tx: nat)
    requires i < |rows|
    ensures var after, done := PromotePayout(rows, i, tx), rows[i].(status := Executed, chainTx := Some(tx));
      if rows[i].status.Proposed? && exists k :: 0 <= k < |rows| && k != i && SamePayment(rows[i], rows[k], tx)
      then
        exists k :: 0 <= k < |rows| && k != i && SamePayment(rows[i], rows[k], tx)
          && multiset(after) + multiset{rows[i], rows[k]} == multiset(rows) + multiset{done}
      else after == rows
  {
    var j := FindProjection(rows, i, tx);
    if j.Some? && rows[i].status.Proposed? {
      var done := rows[i].(status := Executed, chainTx := Some(tx));
      var promoted := rows[i := done];
      WithoutRow(promoted, j.value);
      WithRow(rows, i, done);
      assert multiset(PromotePayout(rows, i, tx)) + multiset{rows[i], rows[j.value]}
        == (multiset(PromotePayout(rows, i, tx)) + multiset{promoted[j.value]}) + multiset{rows[i]};
    }
  }

  lemma WithRow(rows: seq<Payout>, i: nat, p: Payout)
    requires i < |rows|
    ensures multiset(rows[i := p]) + multiset{rows[i]} == multiset(rows) + multiset{p}
  {
  }

  lemma WithoutRow(rows: seq<Payout>, j: nat)
    requires j < |rows|
    ensures multiset(rows) == multiset(rows[..j] + rows[j + 1..]) + multiset{rows[j]}
  {
    assert rows == rows[..j] + [rows[j]] + rows[j + 1..];
  }

  /** Replacing the release's row by the planned one leaves every total as it was. */
  lemma PromotionKeepsTotals(rows: seq<Payout>, i: nat, tx: nat, s: Selector)
    requires i < |rows|
    ensures PaidOut(PromotePayout(rows, i, tx), s) == PaidOut(rows, s)
  {
    var j := FindProjection(rows, i, tx);
    if j.Some? && rows[i].status.Proposed? {
      var done := rows[i].(status := Executed, chainTx := Some(tx));
      PaidOutUpdate(rows, i, done, s);
      PaidOutRemove(rows[i := done], j.value, s);
    }
  }

  // ---- the expected balance ---------------------------------------------------------------------------

  /**
   What can happen to the tables: an event; or a payout planned, linked to its transaction, put in
   the place of a projected release, or given up.
   */
  datatype Action =
    | OnChain(row: EventRow)
    | Propose(payout: Payout)
    | Link(index: nat, tx: nat)
    | Promote(index: nat, tx: nat)
    | Abandon(index: nat)

  function Perform(b: Books, a: Action): Option<Books> {
    match a
    case OnChain(row) => HandleRow(b, row, 0)
    case Propose(p) => Some(b.(payouts := b.payouts + [p.(status := Proposed)]))
    case Link(i, tx) =>
      if i < |b.payouts| then Some(b.(payouts := b.payouts[i := b.payouts[i].(safeTx := Some(tx))])) else None
    case Promote(i, tx) =>
      if i < |b.payouts| then Some(b.(payouts := PromotePayout(b.payouts, i, tx))) else None
    case Abandon(i) =>
      if i < |b.payouts| && b.payouts[i].status.Proposed?
      then Some(b.(payouts := b.payouts[i := b.payouts[i].(status := Abandoned)]))
      else None
  }

  function PerformAll(actions: seq<Action>): Option<Books> {
    if actions == [] then Some(NO_BOOKS)
    else
      var before := PerformAll(actions[..|actions| - 1]);
      if before.None? then None else Perform(before.value, actions[|actions| - 1])
  }

  function PaidIn(rows: seq<Contribution>, t: Token): nat {
    if rows == [] then 0
    else PaidIn(rows[..|rows| - 1], t) + if rows[|rows| - 1].token == t then rows[|rows| - 1].amount else 0
  }

  /** The balance that reconciliation expects the contract to hold. */
  function Expected(b: Books, t: Token): int {
    PaidIn(b.contributions, t) - PaidOut(b.payouts, Selector(None, None, t))
  }

  function EventFlow(e: Event, t: Token): int {
    if e.body.ContributionReceived? && e.body.token == t then e.body.amount
    else if e.body.Released? && e.body.token == t then -(e.body.amount as int)
    else 0
  }

  /** What one action moves into or out of the contract. */
  function Flow(a: Action, t: Token): int {
    if a.OnChain? then EventFlow(a.row.body, t) else 0
  }

  function NetFlow(actions: seq<Action>, t: Token): int {
    if actions == [] then 0 else NetFlow(actions[..|actions| - 1], t) + Flow(actions[|actions| - 1], t)
  }

  lemma PaidInOneMore(rows: seq<Contribution>, c: Contribution, t: Token)
    ensures PaidIn(rows + [c], t) == PaidIn(rows, t) + if c.token == t then c.amount else 0
  {
    assert (rows + [c])[..|rows|] == rows;
  }

  lemma ActionMovesBalance(b: Books, a: Action, t: Token)
    requires Perform(b, a).Some?
    ensures Expected(Perform(b, a).value, t) == Expected(b, t) + Flow(a, t)
  {
    hide PaidIn, PaidOut, HandlePolicy, HandlePeriodSettled, HandleTokenSettled, HandleMonthlyGoalCreated,
         HandleGoalCancelled, HandleMonthlyCancelled, Release;
    var all := Selector(None, None, t);
    match a
    case OnChain(row) => EventMovesBalance(b, row.body, t);
    case Propose(p) => PaidOutOneMore(b.payouts, p.(status := Proposed), all);
    case Link(i, tx) => PaidOutUpdate(b.payouts, i, b.payouts[i].(safeTx := Some(tx)), all);
    case Promote(i, tx) => PromotionKeepsTotals(b.payouts, i, tx, all);
    case Abandon(i) => PaidOutUpdate(b.payouts, i, b.payouts[i].(status := Abandoned), all);
  }

  lemma EventMovesBalance(b: Books, e: Event, t: Token)
    requires Handle(b, e).Some?
    ensures Expected(Handle(b, e).value, t) == Expected(b, t) + EventFlow(e, t)
  {
    hide PaidIn, PaidOut, Release, NextMonthlySettlementUtc;
    match e.body
    case ContributionReceived(u, amount) => PaidInOneMore(b.contributions, Contribution(e.goal, u, amount), t);
    case Released(kind, u, amount, recipient) => ReleaseCounts(b.payouts, e.goal, kind, u, amount, recipient, e.txHash);
    case _ =>
  }

  /**
   After any events and any dealing with proposals, the expected balance of a token is what came
   in less what was released, so it matches the contract whenever every event was handled.
   */
  lemma {:induction false} ReconciliationIsFaithful(actions: seq<Action>, t: Token)
    requires PerformAll(actions).Some?
    ensures Expected(PerformAll(actions).value, t) == NetFlow(actions, t)
  {
    if actions != [] {
      var n := |actions| - 1;
      ReconciliationIsFaithful(actions[..n], t);
      ActionMovesBalance(PerformAll(actions[..n]).value, actions[n], t);
    }
  }

  /** The balance check: sums over both tables, compared with what the chain holds. */
  method ReconcileEscrow(b: Books, preBalance: int, usdcBalance: int) returns (preMatches: bool, usdcMatches: bool)
    ensures preMatches <==> preBalance == Expected(b, Pre)
    ensures usdcMatches <==> usdcBalance == Expected(b, Usdc)
  {
    var pre := ExpectedBalance(b, Pre);
    var usdc := ExpectedBalance(b, Usdc);
    preMatches, usdcMatches := preBalance == pre, usdcBalance == usdc;
  }

  method ExpectedBalance(b: Books, t: Token) returns (expected: int)
    ensures expected == Expected(b, t)
  {
    expected := 0;
    for n := 0 to |b.contributions|
      invariant expected == PaidIn(b.contributions[..n], t)
    {
      assert b.contributions[..n + 1] == b.contributions[..n] + [b.contributions[n]];
      PaidInOneMore(b.contributions[..n], b.contributions[n], t);
      if b.contributions[n].token == t {
        expected := expected + b.contributions[n].amount;
      }
    }
    assert b.contributions[..|b.contributions|] == b.contributions;
    for n := 0 to |b.payouts|
      invariant expected == PaidIn(b.contributions, t) - PaidOut(b.payouts[..n], Selector(None, None, t))
    {
      assert b.payouts[..n + 1] == b.payouts[..n] + [b.payouts[n]];
      PaidOutOneMore(b.payouts[..n], b.payouts[n], Selector(None, None, t));
      if b.payouts[n].status.Executed? && b.payouts[n].token == t {
        expected := expected - b.payouts[n].amount;
      }
    }
    assert b.payouts[..|b.payouts|] == b.payouts;
  }
}
