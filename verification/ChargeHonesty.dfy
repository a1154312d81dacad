/**
 What an honest node and the chain guarantee. The protocol runs with any answers; the theorems
 about wallets say how much of this they need. Each answer counts at the time it was given, an
 index into the history of tips, and the steps of a log carry those times.
 */
module ChargeHonesty {
  import opened Prelude
  import opened Chain
  import opened ChargeTypes
  import opened ChargeSteps

  // ---- the chain ------------------------------------------------------------------------------

  predicate MinedIn(b: Hash, signer: Address, nonce: nat) {
    exists k :: 0 <= k < |b.payload.mined| && b.payload.mined[k].signer == signer && b.payload.mined[k].nonce == nonce
  }

  predicate ChargeMinedIn(b: Hash, tx: SignedTx, reverted: bool) {
    Mined(tx.signer, tx.nonce, Some(tx), reverted) in b.payload.mined
  }

  ghost predicate MinedOn(tip: Hash, signer: Address, nonce: nat) {
    exists b: Hash :: On(b, tip) && MinedIn(b, signer, nonce)
  }

  /** A branch holds each nonce of a wallet once. */
  ghost predicate NoncesMinedOnce(tip: Hash) {
    forall b: Hash, c: Hash, m: Mined, n: Mined ::
      (&& On(b, tip) && On(c, tip) && m in b.payload.mined && n in c.payload.mined
       && m.signer == n.signer && m.nonce == n.nonce)
      ==> b == c && m == n
  }

  /** The contract takes a price only if it is newer than the one it holds. */
  ghost predicate PricesRise(tip: Hash) {
    forall b: Hash, c: Hash :: On(b, c) && On(c, tip) ==> b.payload.quotedAt <= c.payload.quotedAt
  }

  ghost predicate OnlyGrows(tips: seq<Hash>) {
    forall j, k :: 0 <= j <= k < |tips| ==> On(tips[j], tips[k])
  }

  /** Blocks that are this deep, and the first one, are never dropped. */
  ghost predicate FinalStays(tips: seq<Hash>, depth: nat) {
    forall b: Hash, i, j ::
      0 <= i <= j < |tips| && On(b, tips[i]) && (Height(b) == 0 || Height(b) + depth <= Height(tips[i])) ==>
        On(b, tips[j])
  }

  // ---- time -------------------------------------------------------------------------------------

  function Max(a: nat, b: nat): nat { if a >= b then a else b }

  /** When the charge worker read what this step rests on. */
  function ChargeTime(e: Step): nat {
    match e
    case Rollback(_, at) => at
    case Await(_, _, look) => look.at
    case Submit(_, look) => look.at
    case Fail(_, _, _, at, _) => at
    case StillFailed(_, _, _, at) => at
    case Settle(_, _, _, _, at) => at
    case GiveUp(_, _, _, _, at) => at
    case Sign(_, _, at) => at
    case Confirm(_, at) => at
    case BeginPass(_, start) => start
    case _ => 0
  }

  function PubTime(e: Step): nat {
    if !e.Publish? then 0
    else match e.move
      case SignPub(_, _, _, at, _, quotedTime) => Max(at, quotedTime)
      case Resolve(_, _, _, _, _, at) => at
      case Consume(_, _, _, at, quotedTime) => Max(at, quotedTime)
      case Reopen(_, _, at) => at
      case _ => 0
  }

  /** The latest reading of each process so far; its next one is no earlier. */
  function ChargeClock(log: seq<Step>): nat {
    if log == [] then 0 else Max(ChargeClock(log[..|log| - 1]), ChargeTime(log[|log| - 1]))
  }

  function PubClock(log: seq<Step>): nat {
    if log == [] then 0 else Max(PubClock(log[..|log| - 1]), PubTime(log[|log| - 1]))
  }

  // ---- honest answers ------------------------------------------------------------------------------

  ghost predicate Truthful(look: Lookup, tx: SignedTx, tips: seq<Hash>) {
    && look.at < |tips|
    && match look
       case NotFound(at) => forall b: Hash, reverted: bool :: On(b, tips[at]) ==> !ChargeMinedIn(b, tx, reverted)
       case Found(number, hash, reverted, at) =>
         On(hash, tips[at]) && Height(hash) == number && ChargeMinedIn(hash, tx, reverted)
  }

  ghost predicate HeadAt(head: nat, tips: seq<Hash>, first: nat, last: nat) {
    exists t :: first <= t <= last && t < |tips| && head == Height(tips[t])
  }

  /** The price at the publication job's final block, as some branch of that time has it. */
  ghost predicate FinalPrice(s: System, head: nat, quoted: nat, tip: Hash) {
    exists b: Hash :: On(b, tip) && PubFinal(s, head, Height(b)) && b.payload.quotedAt == quoted
  }

  /**
   The charge job reads in its own order. A nonce is read under the wallet lock, so after
   everything that either journal recorded before.
   */
  predicate OnTime(log: seq<Step>, e: Step) {
    match e
    case Await(_, _, look) => look.at >= ChargeClock(log)
    case Submit(_, look) => look.at >= ChargeClock(log)
    case BeginPass(_, start) => start >= ChargeClock(log)
    case Sign(_, _, at) => at >= Max(ChargeClock(log), PubClock(log))
    case _ => true
  }

  predicate IsTimed(e: Step) { e.Await? || e.Submit? || e.BeginPass? || e.Sign? }

  predicate Timely(log: seq<Step>) {
    log != [] ==> Timely(log[..|log| - 1]) && OnTime(log[..|log| - 1], log[|log| - 1])
  }

  /** The answers behind a step are true. */
  ghost predicate TrueStep(s: System, log: seq<Step>, e: Step, tips: seq<Hash>) {
    match e
    case Await(i, _, look) => AtBatch(s, i) && s.batches[i].tx.Some? && Truthful(look, s.batches[i].tx.value, tips)
    case Submit(i, look) => AtBatch(s, i) && s.batches[i].tx.Some? && Truthful(look, s.batches[i].tx.value, tips)
    case Fail(i, _, hash, _, _) =>
      AtBatch(s, i) && s.batches[i].tx.Some? && ChargeMinedIn(hash, s.batches[i].tx.value, true)
    case StillFailed(i, _, hash, _) =>
      AtBatch(s, i) && s.batches[i].tx.Some? && ChargeMinedIn(hash, s.batches[i].tx.value, true)
    case BeginPass(head, start) => HeadAt(head, tips, ChargeClock(log), start)
    case Publish(m) => HonestMove(s, log, m, tips)
    case _ => true
  }

  ghost predicate HonestStep(s: System, log: seq<Step>, e: Step, tips: seq<Hash>) {
    OnTime(log, e) && TrueStep(s, log, e, tips)
  }

  ghost predicate HonestMove(s: System, log: seq<Step>, m: PubMove, tips: seq<Hash>) {
    match m
    case SignPub(_, _, _, at, quoted, quotedTime) =>
      && at >= Max(ChargeClock(log), PubClock(log)) && at < |tips|
      && PubClock(log) <= quotedTime < |tips| && tips[quotedTime].payload.quotedAt == quoted
    case Resolve(p, _, head, _, hash, at) =>
      && OwnsNonce(s, p) && at < |tips|
      && MinedIn(hash, s.publications[p].signer.value, s.publications[p].nonce.value)
      && HeadAt(head, tips, 0, at)
    case Consume(p, head, quoted, at, quotedTime) =>
      && OwnsNonce(s, p) && at < |tips| && quotedTime < |tips|
      && MinedOn(tips[at], s.publications[p].signer.value, s.publications[p].nonce.value)
      && HeadAt(head, tips, 0, quotedTime) && FinalPrice(s, head, quoted, tips[quotedTime])
    case _ => true
  }

  predicate OwnsNonce(s: System, p: nat) {
    AtPub(s, p) && s.publications[p].signer.Some? && s.publications[p].nonce.Some?
  }

  ghost predicate Honest(confirmations: nat, log: seq<Step>, tips: seq<Hash>) {
    log != [] ==>
      var before := log[..|log| - 1];
      && Honest(confirmations, before, tips)
      && HonestStep(After(confirmations, before), before, log[|log| - 1], tips)
  }

  ghost predicate TrueAnswers(confirmations: nat, log: seq<Step>, tips: seq<Hash>) {
    log != [] ==>
      var before := log[..|log| - 1];
      && TrueAnswers(confirmations, before, tips)
      && TrueStep(After(confirmations, before), before, log[|log| - 1], tips)
  }

  /** What honesty asks of the worker is the order of its readings; the rest is up to the node and the publisher. */
  lemma {:induction false} HonestIffTrueAndTimely(confirmations: nat, log: seq<Step>, tips: seq<Hash>)
    ensures Honest(confirmations, log, tips) <==> TrueAnswers(confirmations, log, tips) && Timely(log)
  {
    if log != [] {
      HonestIffTrueAndTimely(confirmations, log[..|log| - 1], tips);
    }
  }

  lemma TimelyOneMore(log: seq<Step>, e: Step)
    requires Timely(log) && (IsTimed(e) ==> OnTime(log, e))
    ensures Timely(log + [e])
  {
    assert (log + [e])[..|log|] == log;
  }

  /** Whatever a legal run has read lies in the past. */
  lemma {:induction false} ClocksArePast(confirmations: nat, log: seq<Step>, tips: seq<Hash>)
    requires Legal(confirmations, log, tips)
    ensures ChargeClock(log) < |tips| && PubClock(log) < |tips|
  {
    if log != [] {
      ClocksArePast(confirmations, log[..|log| - 1], tips);
      StepIsPast(After(confirmations, log[..|log| - 1]), log[|log| - 1], tips);
    }
  }

  lemma StepIsPast(s: System, e: Step, tips: seq<Hash>)
    requires Enabled(s, e, tips) && |tips| > 0
    ensures ChargeTime(e) < |tips| && PubTime(e) < |tips|
  {
    hide WalletFree, LatestNonce, CanSave, CanReserve, CanSign, EvidenceOk, On;
  }

  // ---- consequences ------------------------------------------------------------------------------------

  lemma ClockGrows(log: seq<Step>, e: Step)
    ensures ChargeClock(log + [e]) == Max(ChargeClock(log), ChargeTime(e))
    ensures PubClock(log + [e]) == Max(PubClock(log), PubTime(e))
  {
    assert (log + [e])[..|log|] == log;
  }

  /** On a chain that only grows a block stays canonical, and its height has no other. */
  lemma GrowingKeeps(tips: seq<Hash>, b: Hash, i: nat, j: nat)
    requires OnlyGrows(tips) && i <= j && CanonicalAt(b, tips, i) && j < |tips|
    ensures CanonicalAt(b, tips, j) && Height(b) <= Height(tips[j])
  {
    OnTransitive(b, tips[i], tips[j]);
    OnHeight(b, tips[j]);
  }

  lemma GrowingAgrees(tips: seq<Hash>, a: Hash, b: Hash, i: nat, j: nat)
    requires OnlyGrows(tips) && CanonicalAt(a, tips, i) && CanonicalAt(b, tips, j) && Height(a) == Height(b)
    ensures a == b
  {
    var k := Max(i, j);
    GrowingKeeps(tips, a, i, k);
    GrowingKeeps(tips, b, j, k);
    SameHeight(a, b, tips[k]);
  }

  lemma GrowingRevivesNothing(tips: seq<Hash>)
    requires OnlyGrows(tips)
    ensures NoRevival(tips)
  {
    forall b: Hash, i: nat, j: nat, k: nat | i <= j <= k < |tips| && On(b, tips[i]) && On(b, tips[k])
      ensures On(b, tips[j]) {
      GrowingKeeps(tips, b, i, j);
    }
  }
}
