/**
 What the escrow contract itself owes, kept apart from the tables: a ledger per goal. The tables
 mirror it after every lawful event, and the ledger conserves what was paid in.
 */
module EscrowLedger {
  import opened Prelude
  import opened MonthlySchedule
  import opened EscrowBooks

  /** The settled period whose tokens are still being settled. */
  datatype Settling = Settling(contributed: Amounts, preDone: bool, usdcDone: bool)

  datatype Ledger = Ledger(
    monthly: bool,
    total: Amounts,
    open: Amounts,
    carry: Amounts,
    recipient: Amounts,
    treasury: Amounts,
    settling: Option<Settling>,
    settled: nat,
    start: Date,
    month: nat,
    day: nat,
    policy: nat,
    final: bool,
    status: GoalStatus,
    drained: bool,
    stopRequested: bool,
    first: Option<Date>,
    monthStart: Date,
    deadline: Date,
    past: seq<Past>)

  /** A settled period, token by token as far as they are settled. */
  datatype Past = Past(
    start: Date, end: Date, policy: nat, contributed: Amounts, carryIn: Amounts, added: Amounts, carryOut: Amounts)

  type Ledgers = map<GoalId, Ledger>

  function NewLedger(deadline: Date): Ledger {
    Ledger(false, ZERO, ZERO, ZERO, ZERO, ZERO, None, 0, Date(0, 0, 1, 0), 0, 1, 0, false, Open, false,
           false, None, Date(deadline.year, deadline.month, 1, 0), deadline, [])
  }

  /** The end of the open period, or of the last one. */
  function End(l: Ledger): Date {
    Boundary(l.month, l.day)
  }

  predicate Done(s: Settling, t: Token) {
    (t.Pre? && s.preDone) || (t.Usdc? && s.usdcDone)
  }

  function MarkDone(s: Settling, t: Token): Option<Settling> {
    var after := if t.Pre? then s.(preDone := true) else s.(usdcDone := true);
    if after.preDone && after.usdcDone then None else Some(after)
  }

  /** What the settled period holds that no token settlement has assigned yet. */
  function Unassigned(l: Ledger, t: Token): nat {
    if l.settling.Some? && !Done(l.settling.value, t) then Of(l.settling.value.contributed, t) else 0
  }

  // ---- lawful events ---------------------------------------------------------------------------

  /** The contract emits this event in this state. */
  predicate Lawful(ls: Ledgers, e: Event) {
    if e.body.Elsewhere? then true
    else if e.body.GoalCreated? then e.goal !in ls
    else e.goal in ls && LawfulFor(ls[e.goal], e.body)
  }

  predicate LawfulFor(l: Ledger, body: Body) {
    match body
    case MonthlyGoalCreated(start, end, day, policy) =>
      && !l.monthly && l.status.Open? && l.total == ZERO && 1 <= day <= 31 && KnownPolicy(policy)
      && ValidDate(end) && end == Boundary(MonthNumber(end), day) && Earlier(start, end)
    case ContributionReceived(t, _) => !t.Unsupported? && l.status.Open? && !l.drained && (l.monthly ==> !l.final)
    case MonthlySurplusPolicyUpdated(policy) => l.monthly && KnownPolicy(policy)
    case MonthlyGoalStopRequested => l.monthly
    case MonthlyPeriodSettled(index, start, end, policy, _) =>
      && l.monthly && l.status.Open? && !l.drained && !l.final && l.settling.None?
      && index == l.settled + 1 && start == l.start && end == End(l) && policy == l.policy
    case MonthlyTokenSettled(index, t, contributed, carryIn, added, carryOut) =>
      && l.monthly && !t.Unsupported? && index == l.settled
      && l.settling.Some? && !Done(l.settling.value, t)
      && contributed == Of(l.settling.value.contributed, t) && carryIn == Of(l.carry, t)
      && added + carryOut == carryIn + contributed
    case GoalClosed(entitlement) =>
      l.status.Open? && l.settling.None? && entitlement == if l.monthly then l.recipient else l.total
    case GoalCancelled => l.status.Open?
    case MonthlyGoalCancelled(surplus) =>
      && l.monthly && !l.drained && l.settling.None?
      && surplus == Amounts(l.carry.pre + l.open.pre, l.carry.usdc + l.open.usdc)
    case Released(_, t, _, _) => !t.Unsupported?
    case _ => true
  }

  function Post(l: Ledger, body: Body): Ledger {
    match body
    case MonthlyGoalCreated(start, end, day, policy) =>
      l.(monthly := true, start := start, month := MonthNumber(end), day := if day < 0 then 0 else day,
         policy := policy, first := Some(end), monthStart := start)
    case ContributionReceived(t, amount) =>
      l.(total := Add(l.total, t, amount), open := if l.monthly then Add(l.open, t, amount) else l.open)
    case MonthlySurplusPolicyUpdated(policy) => l.(policy := policy)
    case MonthlyGoalStopRequested => l.(stopRequested := true)
    case MonthlyPeriodSettled(index, _, _, _, final) =>
      l.(past := l.past + [Past(l.start, End(l), l.policy, l.open, l.carry, ZERO, ZERO)],
         settled := index, settling := Some(Settling(l.open, false, false)), open := ZERO, final := final,
         start := if final then l.start else End(l), month := if final then l.month else l.month + 1)
    case MonthlyTokenSettled(_, t, _, _, added, carryOut) =>
      l.(past := if l.past == [] then [] else LastSettled(l.past, t, added, carryOut),
         recipient := Add(l.recipient, t, added), carry := Put(l.carry, t, carryOut),
         settling := if l.settling.Some? then MarkDone(l.settling.value, t) else None)
    case GoalClosed(entitlement) => l.(status := Closed, recipient := entitlement)
    case GoalCancelled => l.(status := Cancelled, treasury := if l.monthly then l.treasury else l.total)
    case MonthlyGoalCancelled(surplus) =>
      l.(drained := true, carry := ZERO,
         treasury := Amounts(l.treasury.pre + surplus.pre, l.treasury.usdc + surplus.usdc))
    case _ => l
  }

  function LastSettled(past: seq<Past>, t: Token, added: nat, carryOut: nat): seq<Past>
    requires past != []
  {
    var n := |past| - 1;
    past[n := past[n].(added := Put(past[n].added, t, added), carryOut := Put(past[n].carryOut, t, carryOut))]
  }

  function PostAll(ls: Ledgers, e: Event): Ledgers {
    if e.body.Elsewhere? then ls
    else if e.body.GoalCreated? then ls[e.goal := NewLedger(e.body.deadline)]
    else if e.goal in ls then ls[e.goal := Post(ls[e.goal], e.body)]
    else ls
  }

  // ---- conservation in the ledger ----------------------------------------------------------------

  /** Everything paid in is owed to somebody or still undecided. */
  predicate Conserved(l: Ledger, t: Token) {
    if l.drained then Of(l.total, t) == Of(l.recipient, t) + Of(l.treasury, t) && Of(l.carry, t) == 0
    else Of(l.total, t) == Of(l.recipient, t) + Of(l.carry, t) + Of(l.open, t) + Unassigned(l, t)
  }

  predicate Sound(l: Ledger) {
    && (l.monthly ==> Conserved(l, Pre) && Conserved(l, Usdc))
    && (l.monthly ==> KnownPolicy(l.policy) && 1 <= l.day <= 31 && ValidDate(End(l)) && Earlier(l.start, End(l)))
    && (l.monthly && !l.drained ==> l.treasury == ZERO)
    && (l.settling.Some? ==>
       l.monthly && l.settled > 0 && !l.drained && !(l.settling.value.preDone && l.settling.value.usdcDone))
    && (!l.monthly ==> l.open == l.carry == ZERO && l.settled == 0 && !l.final && !l.drained)
    && (l.final ==> l.settled > 0 && l.open == ZERO)
    && (!l.monthly && l.status.Open? ==> l.recipient == l.treasury == ZERO)
    && |l.past| == l.settled && (l.monthly <==> l.first.Some?)
  }

  lemma PostIsSound(l: Ledger, body: Body)
    requires Sound(l) && LawfulFor(l, body)
    ensures Sound(Post(l, body))
  {
    if body.MonthlyPeriodSettled? && !body.final {
      NextIsBoundary(End(l), l.day);
      assert MonthNumber(End(l)) == l.month;
    }
  }
}
