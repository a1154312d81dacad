/** The accounting tables that escrow events write, and what each event does to them. */
module EscrowBooks {
  import opened Prelude
  import opened MonthlySchedule

  type GoalId = nat

  datatype Token = Pre | Usdc | Unsupported

  datatype Amounts = Amounts(pre: nat, usdc: nat)

  const ZERO: Amounts := Amounts(0, 0)

  function Of(a: Amounts, t: Token): nat {
    match t
    case Pre => a.pre
    case Usdc => a.usdc
    case Unsupported => 0
  }

  function Put(a: Amounts, t: Token, n: nat): Amounts {
    match t
    case Pre => a.(pre := n)
    case Usdc => a.(usdc := n)
    case Unsupported => a
  }

  function Add(a: Amounts, t: Token, n: nat): Amounts {
    Put(a, t, Of(a, t) + n)
  }

  datatype GoalStatus = Open | Closed | Cancelled

  datatype Goal = Goal(
    monthly: bool,
    policy: Option<nat>,
    settlementDay: Option<int>,
    firstSettlementAt: Option<Date>,
    stopRequested: bool,
    settled: nat,
    monthStart: Date,
    deadline: Date,
    recipient: Amounts,
    carry: Amounts,
    treasury: Amounts,
    status: GoalStatus)

  datatype Period = Period(
    startsAt: Date,
    endsAt: Date,
    policy: nat,
    final: bool,
    settled: bool,
    contributed: Amounts,
    carryIn: Amounts,
    added: Amounts,
    carryOut: Amounts)

  datatype Contribution = Contribution(goal: GoalId, token: Token, amount: nat)

  datatype PayoutKind = Expense | CancelledFunds

  datatype PayoutStatus = Proposed | Executed | Abandoned

  /**
   `intended` tells that the payout was planned in the application, and `safeTx` is the execution
   hash of its Safe proposal, if it has one.
   */
  datatype Payout = Payout(
    goal: GoalId,
    kind: PayoutKind,
    token: Token,
    amount: nat,
    status: PayoutStatus,
    intended: bool,
    safeTx: Option<nat>,
    recipient: nat,
    chainTx: Option<nat>)

  datatype Books = Books(
    goals: map<GoalId, Goal>,
    periods: map<(GoalId, nat), Period>,
    contributions: seq<Contribution>,
    payouts: seq<Payout>)

  datatype Body =
    | GoalCreated(deadline: Date)
    | MonthlyGoalCreated(start: Date, end: Date, settlementDay: int, policy: nat)
    | ContributionReceived(token: Token, amount: nat)
    | MonthlySurplusPolicyUpdated(policy: nat)
    | MonthlyGoalStopRequested
    | MonthlyPeriodSettled(index: nat, start: Date, end: Date, policy: nat, final: bool)
    | MonthlyTokenSettled(index: nat, token: Token, contributed: nat, carryIn: nat, added: nat, carryOut: nat)
    | GoalClosed(entitlement: Amounts)
    | GoalCancelled
    | MonthlyGoalCancelled(surplus: Amounts)
    | Released(kind: PayoutKind, token: Token, amount: nat, recipient: nat)
    | Elsewhere

  datatype Event = Event(goal: GoalId, txHash: nat, body: Body)

  function MonthStart(d: Date): Date {
    Date(d.year, d.month, 1, 0)
  }

  function NewGoal(deadline: Date): Goal {
    Goal(false, None, None, None, false, 0, MonthStart(deadline), deadline, ZERO, ZERO, ZERO, Open)
  }

  function NewPeriod(startsAt: Date, endsAt: Date, policy: nat): Period {
    Period(startsAt, endsAt, policy, false, false, ZERO, ZERO, ZERO, ZERO)
  }

  predicate KnownPolicy(policy: nat) {
    policy == 0 || policy == 1
  }

  /** What was paid in for a goal, as the contribution rows have it. */
  function Contributed(rows: seq<Contribution>, g: GoalId, t: Token): nat {
    if rows == [] then 0
    else
      var last := rows[|rows| - 1];
      Contributed(rows[..|rows| - 1], g, t) + if last.goal == g && last.token == t then last.amount else 0
  }

  // ---- payouts ------------------------------------------------------------------------------

  predicate Candidate(p: Payout, g: GoalId, kind: PayoutKind, t: Token, amount: nat) {
    p.goal == g && p.kind == kind && p.token == t && p.amount == amount && p.status.Proposed?
  }

  function CandidateCount(rows: seq<Payout>, g: GoalId, kind: PayoutKind, t: Token, amount: nat): nat {
    if rows == [] then 0
    else CandidateCount(rows[..|rows| - 1], g, kind, t, amount) + if Candidate(rows[|rows| - 1], g, kind, t, amount)
      then 1 else 0
  }

  /** The position of the oldest candidate, or of the oldest one whose proposal ran in `tx`. */
  function FirstCandidate(rows: seq<Payout>, g: GoalId, kind: PayoutKind, t: Token, amount: nat,
                          tx: Option<nat>): (r: Option<nat>)
    ensures r.Some? ==> r.value < |rows| && Candidate(rows[r.value], g, kind, t, amount)
    ensures r.Some? && tx.Some? ==> rows[r.value].safeTx == tx
    ensures r.Some? ==> forall i ::
      0 <= i < r.value && Candidate(rows[i], g, kind, t, amount) ==> tx.Some? && rows[i].safeTx != tx
    ensures r.None? ==> forall i :: 0 <= i < |rows| && Candidate(rows[i], g, kind, t, amount) ==>
      tx.Some? && rows[i].safeTx != tx
  {
    if rows == [] then None
    else
      var n := |rows| - 1;
      var before := FirstCandidate(rows[..n], g, kind, t, amount, tx);
      if before.Some? then before
      else if Candidate(rows[n], g, kind, t, amount) && (tx.None? || rows[n].safeTx == tx) then Some(n)
      else None
  }

  /** The proposal that a release carries out: by its transaction, or the only one that names none. */
  function Matched(rows: seq<Payout>, g: GoalId, kind: PayoutKind, t: Token, amount: nat, tx: nat): (r: Option<nat>)
    ensures r.Some? ==> r.value < |rows| && Candidate(rows[r.value], g, kind, t, amount)
  {
    var exact := FirstCandidate(rows, g, kind, t, amount, Some(tx));
    var sole := if CandidateCount(rows, g, kind, t, amount) == 1 then FirstCandidate(rows, g, kind, t, amount, None)
      else None;
    if exact.Some? then exact
    else if sole.Some? && rows[sole.value].safeTx.None? then sole
    else None
  }

  function Release(rows: seq<Payout>, g: GoalId, kind: PayoutKind, t: Token, amount: nat, recipient: nat,
                   tx: nat): seq<Payout> {
    var i := Matched(rows, g, kind, t, amount, tx);
    if i.Some? then rows[i.value := rows[i.value].(status := Executed, chainTx := Some(tx), recipient := recipient)]
    else rows + [Payout(g, kind, t, amount, Executed, false, None, recipient, Some(tx))]
  }

  // ---- what each event does --------------------------------------------------------------------

  function HandleMonthlyGoalCreated(b: Books, g: GoalId, start: Date, end: Date, settlementDay: int,
                                    policy: nat): Option<Books>
    requires g in b.goals
  {
    if settlementDay < 1 || settlementDay > 31 || !KnownPolicy(policy) then None
    else
      var first := if (g, 1) in b.periods then b.periods[(g, 1)].(startsAt := start, endsAt := end, policy := policy)
                   else NewPeriod(start, end, policy);
      Some(b.(goals := b.goals[g := b.goals[g].(monthly := true, policy := Some(policy), firstSettlementAt := Some(end),
                                                settlementDay := Some(settlementDay), monthStart := start,
                                                  deadline := end)],
              periods := b.periods[(g, 1) := first]))
  }

  function HandleContribution(b: Books, g: GoalId, t: Token, amount: nat): Option<Books>
    requires g in b.goals
  {
    var open := (g, b.goals[g].settled + 1);
    if t.Unsupported? || (b.goals[g].monthly && open !in b.periods) then None
    else
      Some(b.(contributions := b.contributions + [Contribution(g, t, amount)],
              periods := if b.goals[g].monthly
                         then b.periods[open :=
                           b.periods[open].(contributed := Add(b.periods[open].contributed, t, amount))]
                         else b.periods))
  }

  function HandlePolicy(b: Books, g: GoalId, policy: nat): Option<Books>
    requires g in b.goals
  {
    var open := (g, b.goals[g].settled + 1);
    if !KnownPolicy(policy) then None
    else
      Some(b.(goals := b.goals[g := b.goals[g].(policy := Some(policy))],
              periods := if open in b.periods && !b.periods[open].settled
                         then b.periods[open := b.periods[open].(policy := policy)]
                         else b.periods))
  }

  function HandlePeriodSettled(b: Books, g: GoalId, index: nat, start: Date, end: Date, policy: nat,
                               final: bool): Option<Books>
    requires g in b.goals
  {
    var day := b.goals[g].settlementDay;
    if day.None? || day.value < 1 || day.value > 31 || !KnownPolicy(policy) then None
    else
      var next := NextMonthlySettlementUtc(end, day.value);
      if next.None? then None
      else
        var before := if (g, index) in b.periods then b.periods[(g, index)] else NewPeriod(start, end, policy);
        var settled := b.periods[(g, index) :=
          before.(startsAt := start, endsAt := end, policy := policy, final := final, settled := true)];
        Some(b.(goals := b.goals[g := b.goals[g].(settled := index,
                                                  deadline := if final then b.goals[g].deadline else next.value)],
                periods := if final || (g, index + 1) in settled then settled
                           else settled[(g, index + 1) := NewPeriod(end, next.value, policy)]))
  }

  function HandleTokenSettled(b: Books, g: GoalId, index: nat, t: Token, contributed: nat, carryIn: nat, added: nat,
                              carryOut: nat)
    : Option<Books>
    requires g in b.goals
  {
    if t.Unsupported? || (g, index) !in b.periods then None
    else
      var row := b.periods[(g, index)];
      var done := b.periods[(g, index) :=
        row.(contributed := Put(row.contributed, t, contributed), carryIn := Put(row.carryIn, t, carryIn),
             added := Put(row.added, t, added), carryOut := Put(row.carryOut, t, carryOut))];
      var next := (g, index + 1);
      Some(b.(goals := b.goals[g := b.goals[g].(carry := Put(b.goals[g].carry, t, carryOut),
                                                recipient := Add(b.goals[g].recipient, t, added))],
              periods := if next in done && !done[next].settled
                         then done[next := done[next].(carryIn := Put(done[next].carryIn, t, carryOut))]
                         else done))
  }

  function HandleGoalCancelled(b: Books, g: GoalId): Books
    requires g in b.goals
  {
    var all := Amounts(Contributed(b.contributions, g, Pre), Contributed(b.contributions, g, Usdc));
    b.(goals := b.goals[g := b.goals[g].(status := Cancelled,
                                         treasury := if b.goals[g].monthly then b.goals[g].treasury else all)])
  }

  function HandleMonthlyCancelled(b: Books, g: GoalId, surplus: Amounts): Books
    requires g in b.goals
  {
    var row := b.goals[g];
    b.(goals := b.goals[g := row.(treasury := Amounts(row.treasury.pre + surplus.pre, row.treasury.usdc + surplus.usdc),
                                  carry := ZERO)])
  }

  /** None is an exception, which takes back the whole event. */
  function Handle(b: Books, e: Event): Option<Books> {
    if e.body.Elsewhere? then Some(b)
    else if e.body.GoalCreated? then Some(b.(goals := b.goals[e.goal := NewGoal(e.body.deadline)]))
    else if e.goal !in b.goals then None
    else
      match e.body
      case MonthlyGoalCreated(start, end, day, policy) => HandleMonthlyGoalCreated(b, e.goal, start, end, day, policy)
      case ContributionReceived(t, amount) => HandleContribution(b, e.goal, t, amount)
      case MonthlySurplusPolicyUpdated(policy) => HandlePolicy(b, e.goal, policy)
      case MonthlyGoalStopRequested => Some(b.(goals := b.goals[e.goal := b.goals[e.goal].(stopRequested := true)]))
      case MonthlyPeriodSettled(index, start, end, policy, final) =>
        HandlePeriodSettled(b, e.goal, index, start, end, policy, final)
      case MonthlyTokenSettled(index, t, contributed, carryIn, added, out) =>
        HandleTokenSettled(b, e.goal, index, t, contributed, carryIn, added, out)
      case GoalClosed(entitlement) =>
        Some(b.(goals := b.goals[e.goal := b.goals[e.goal].(status := Closed, recipient := entitlement)]))
      case GoalCancelled => Some(HandleGoalCancelled(b, e.goal))
      case MonthlyGoalCancelled(surplus) => Some(HandleMonthlyCancelled(b, e.goal, surplus))
      case Released(kind, t, amount, recipient) =>
        if t.Unsupported? then None
        else Some(b.(payouts := Release(b.payouts, e.goal, kind, t, amount, recipient, e.txHash)))
      case _ => Some(b)
  }
}
