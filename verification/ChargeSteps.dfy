/**
 The charge protocol as a state machine. A step is one database transaction of the worker,
 one submission of bytes, or one fact the worker learned about the chain; a run of the
 protocol is a list of steps, and a crash is the end of such a list.
 */
module ChargeSteps {
  import opened Prelude
  import opened Chain
  import opened ChargeTypes
  import Allocation

  /** Proof seen in the current pass that a batch's saved bytes were mined and reverted. */
  datatype Evidence = Evidence(tx: SignedTx, number: nat, hash: Hash, at: nat)

  /** What the node answered when it was asked for the receipt of a batch's bytes, and when. */
  datatype Lookup = NotFound(at: nat) | Found(number: nat, hash: Hash, reverted: bool, at: nat)

  datatype System = System(
    // database
    clicks: map<ClickId, Click>,
    batches: seq<Batch>,               // in creation order
    runs: seq<Run>,                    // in creation order
    publications: seq<Publication>,
    // the row that the publication job remembers as being in flight, whatever became of it
    held: Option<nat>,
    checkpoint: Option<Checkpoint>,
    // what the current pass knows; `passStart` is the time at which it read its final hash
    confirmations: nat,
    head: nat,
    passStart: nat,
    reverted: map<nat, Evidence>,
    // bookkeeping of the proof: when each settled receipt was last seen canonical, and when
    // the saved checkpoint was read
    seen: map<nat, nat>,
    savedAt: nat)

  /** The publication job, which shares the wallet's nonces. */
  datatype PubMove =
    | Prepare(quotedAt: nat)
    | Take(pub: nat)
    | Release
    | SignPub(pub: nat, signer: Address, nonce: nat, at: nat, quoted: nat, quotedTime: nat)
    | Move(pub: nat, status: PublicationStatus)
    | Resolve(pub: nat, status: PublicationStatus, head: nat, number: nat, hash: Hash, at: nat)
    | Consume(pub: nat, head: nat, quoted: nat, at: nat, quotedTime: nat)
    | Supersede(pub: nat)
    | Reopen(pub: nat, hash: Hash, at: nat)
    | FailJob

  datatype Step =
    | WriteClick(id: ClickId, click: Click)
    | OpenRun(trigger: Trigger)
    | Reserve(run: nat, cutoff: int, groups: seq<seq<ClickId>>, chargeIds: seq<nat>)
    | Refresh(run: nat, now: int, failure: Option<Code>)
    | BlockRun(run: nat, code: Code)
    | Rollback(batch: nat, at: nat)
    | Await(batch: nat, code: Code, look: Lookup)
    | Submit(batch: nat, look: Lookup)
    | Send(batch: nat)
    | Fail(batch: nat, number: nat, hash: Hash, at: nat, now: int)
    | StillFailed(batch: nat, number: nat, hash: Hash, at: nat)
    | Settle(batch: nat, event: ChargeEvent, number: nat, hash: Hash, at: nat)
    | GiveUp(batch: nat, code: Code, number: nat, hash: Hash, at: nat)
    | Sign(batch: nat, tx: SignedTx, at: nat)
    | Note(batch: nat, code: Code)
    | Confirm(batch: nat, at: nat)
    | BeginPass(head: nat, start: nat)
    | SaveCheckpoint(number: nat, hash: Hash, previousAt: Option<nat>)
    | Publish(move: PubMove)

  // ---- journals and nonces ------------------------------------------------------------

  function LatestCharge(batches: seq<Batch>, signer: Address): Option<nat> {
    if batches == [] then None else
      var rest := LatestCharge(batches[..|batches| - 1], signer);
      var last := batches[|batches| - 1];
      if last.tx.Some? && last.tx.value.signer == signer &&
         (rest.None? || rest.value < last.tx.value.nonce)
      then Some(last.tx.value.nonce) else rest
  }

  function LatestPublication(rows: seq<Publication>, signer: Address): Option<nat> {
    if rows == [] then None else
      var rest := LatestPublication(rows[..|rows| - 1], signer);
      var last := rows[|rows| - 1];
      if last.signer == Some(signer) && last.nonce.Some? && (rest.None? || rest.value < last.nonce.value)
      then last.nonce else rest
  }

  /** The greatest nonce that either journal holds for the wallet. */
  function LatestNonce(s: System, signer: Address): Option<nat> {
    var charge := LatestCharge(s.batches, signer);
    var publication := LatestPublication(s.publications, signer);
    if charge.None? then publication
    else if publication.None? || charge.value > publication.value then charge else publication
  }

  predicate ChargeInFlight(s: System, signer: Address, i: nat)
    requires i < |s.batches|
  {
    s.batches[i].tx.Some? && s.batches[i].tx.value.signer == signer && InFlight(s.batches[i].status)
  }

  predicate PublicationInFlight(s: System, signer: Address, p: nat)
    requires p < |s.publications|
  {
    s.publications[p].signer == Some(signer) && PubInFlight(s.publications[p].status)
  }

  /** No row of either journal other than the caller's own is in flight for the wallet. */
  predicate WalletFree(s: System, signer: Address, ownCharge: Option<nat>, ownPub: Option<nat>) {
    && (forall i :: 0 <= i < |s.batches| && Some(i) != ownCharge ==> !ChargeInFlight(s, signer, i))
    && (forall p :: 0 <= p < |s.publications| && Some(p) != ownPub ==> !PublicationInFlight(s, signer, p))
  }

  // ---- row updates --------------------------------------------------------------------

  function Mark(clicks: map<ClickId, Click>, ids: seq<ClickId>, status: ClickStatus, error: Option<Code>)
    : (marked: map<ClickId, Click>)
    ensures marked.Keys == clicks.Keys
  {
    map c | c in clicks :: if c in ids then clicks[c].(status := status, error := error) else clicks[c]
  }

  function Amounts(clicks: map<ClickId, Click>, ids: seq<ClickId>): (a: seq<nat>)
    requires forall c :: c in ids ==> c in clicks
    ensures |a| == |ids|
    ensures forall k :: 0 <= k < |ids| ==>
      a[k] == if clicks[ids[k]].amount.Some? then clicks[ids[k]].amount.value else 0
  {
    seq(|ids|, k requires 0 <= k < |ids| =>
      if clicks[ids[k]].amount.Some? then clicks[ids[k]].amount.value else 0)
  }

  predicate Known(clicks: map<ClickId, Click>, ids: seq<ClickId>) {
    forall c :: c in ids ==> c in clicks
  }

  /** The clicks of a batch whose debt the charged amount pays, oldest first. */
  function PaidIds(clicks: map<ClickId, Click>, ids: seq<ClickId>, charged: nat): set<ClickId>
    requires Known(clicks, ids)
  {
    set k | 0 <= k < |ids| && Allocation.Settles(Amounts(clicks, ids), k, charged) :: ids[k]
  }

  function SettleClicks(clicks: map<ClickId, Click>, ids: seq<ClickId>, charged: nat): (r: map<ClickId, Click>)
    requires Known(clicks, ids)
    ensures r.Keys == clicks.Keys
  {
    var paid := PaidIds(clicks, ids, charged);
    map c | c in clicks ::
      if c !in ids then clicks[c]
      else if c in paid then clicks[c].(status := ClickStatus.Settled, error := None)
      else clicks[c].(status := ClickStatus.Uncollectable, error := Some(InsufficientStake))
  }

  function SettledBatch(b: Batch, event: ChargeEvent, number: nat, hash: Hash): Batch
    requires 0 <= event.charged <= b.due
  {
    var shortfall := b.due - event.charged;
    b.(status := if shortfall > 0 then Partial else Confirmed,
       charged := Some(event.charged),
       shortfall := Some(shortfall),
       receiptNumber := Some(number),
       receiptHash := Some(hash),
       error := if shortfall > 0 then Some(InsufficientStake) else None,
       nextAttemptAt := None)
  }

  /** The acknowledgement that the worker accepts for a batch. */
  predicate Matches(b: Batch, event: ChargeEvent) {
    && event.keywordId == b.key.keywordId
    && event.staker == b.key.staker
    && event.chargeId == b.chargeId
    && event.requested == b.requested
    && 0 <= event.charged <= b.requested
  }

  function PutBatch(s: System, i: nat, b: Batch): System
    requires i < |s.batches|
  {
    s.(batches := s.batches[i := b])
  }

  function Forget(m: map<nat, Evidence>, i: nat): map<nat, Evidence> {
    map j | j in m && j != i :: m[j]
  }

  function WithRow(s: System, i: nat, b: Batch, reverted: map<nat, Evidence>): System
    requires i < |s.batches|
  {
    s.(batches := s.batches[i := b], reverted := reverted)
  }

  /** Steps that update one batch row and leave its clicks alone. */
  predicate RowStep(e: Step) {
    e.Await? || e.Submit? || e.Fail? || e.Sign? || e.Note?
  }

  function RowAfter(b: Batch, e: Step): Batch
    requires RowStep(e)
  {
    match e
    case Await(_, code, _) => b.(status := Reconciling, error := Some(code))
    case Submit(_, _) => b.(status := Submitted, error := Some(WaitingConfirmation))
    case Fail(_, number, hash, _, now) =>
      b.(status := Failed, receiptNumber := Some(number), receiptHash := Some(hash),
         error := Some(TransactionFailed), nextAttemptAt := Some(now + 60000))
    case Sign(_, tx, _) =>
      b.(status := Signed, tx := Some(tx), error := None, attempts := b.attempts + 1,
         nextAttemptAt := None, receiptNumber := None, receiptHash := None)
    case Note(_, code) => b.(error := Some(code))
  }

  // ---- reservation --------------------------------------------------------------------

  predicate TakenOver(s: System, b: Batch, run: nat)
    requires run < |s.runs|
  {
    && s.runs[run].trigger.Manual?
    && b.runId < |s.runs| && s.runs[b.runId].trigger.Auto? && Recoverable(s.runs[b.runId].status)
    && (b.status.Prepared? || b.status.Failed?)
  }

  /** A manual run takes the unsent batches of all recoverable automatic runs. */
  function TakeOver(s: System, run: nat): (r: seq<Batch>)
    requires run < |s.runs|
    ensures |r| == |s.batches|
    ensures forall i :: 0 <= i < |r| ==>
      r[i] == if TakenOver(s, s.batches[i], run) then s.batches[i].(runId := run) else s.batches[i]
  {
    seq(|s.batches|, i requires 0 <= i < |s.batches| =>
      if TakenOver(s, s.batches[i], run) then s.batches[i].(runId := run) else s.batches[i])
  }

  function NewBatch(clicks: map<ClickId, Click>, run: nat, group: seq<ClickId>, chargeId: nat): Batch
    requires Known(clicks, group) && |group| > 0
  {
    var due := Allocation.Sum(Amounts(clicks, group));
    Batch(run, chargeId, clicks[group[0]].key, group, due, Min(due, MAX_UINT256),
          if due == 0 then Some(0) else None, if due == 0 then Some(0) else None,
          if due == 0 then Confirmed else Prepared,
          None, None, None, None, 0, None)
  }

  function ClaimClicks(clicks: map<ClickId, Click>, group: seq<ClickId>, i: nat, due: nat): (r: map<ClickId, Click>)
    ensures r.Keys == clicks.Keys
  {
    map c | c in clicks ::
      if c in group
      then clicks[c].(batch := Some(i), status := if due == 0 then ClickStatus.Settled else ClickStatus.Reserved)
      else clicks[c]
  }

  function AddGroup(s: System, run: nat, group: seq<ClickId>, chargeId: nat): (t: System)
    requires Known(s.clicks, group) && |group| > 0
    ensures |t.batches| == |s.batches| + 1
    ensures forall c :: c in s.clicks <==> c in t.clicks
  {
    var b := NewBatch(s.clicks, run, group, chargeId);
    s.(batches := s.batches + [b], clicks := ClaimClicks(s.clicks, group, |s.batches|, b.due))
  }

  /** A group that can be reserved: pending debt of one stake, in database order. */
  predicate Reservable(clicks: map<ClickId, Click>, group: seq<ClickId>) {
    && |group| > 0
    && Known(clicks, group)
    && (forall c :: c in group ==>
          clicks[c].status.Pending? && clicks[c].batch.None? && clicks[c].amount.Some?)
    && (forall j, k :: 0 <= j < k < |group| ==> Before(clicks, group[j], group[k]))
    && (forall k :: 0 <= k < |group| ==> clicks[group[k]].key == clicks[group[0]].key)
  }

  function AddGroups(s: System, run: nat, groups: seq<seq<ClickId>>, chargeIds: seq<nat>): System
    requires |groups| == |chargeIds|
    requires forall g :: g in groups ==> |g| > 0 && Known(s.clicks, g)
    decreases |groups|
  {
    if groups == [] then s
    else
      var t := AddGroup(s, run, groups[0], chargeIds[0]);
      assert forall g :: g in groups[1..] ==> g in groups && |g| > 0 && Known(s.clicks, g);
      assert forall g :: g in groups[1..] ==> Known(t.clicks, g);
      AddGroups(t, run, groups[1..], chargeIds[1..])
  }

  lemma {:induction false} AddGroupsSnoc(s: System, run: nat, groups: seq<seq<ClickId>>, chargeIds: seq<nat>,
                                         group: seq<ClickId>, chargeId: nat)
    requires |groups| == |chargeIds|
    requires forall g :: g in groups ==> |g| > 0 && Known(s.clicks, g)
    requires |group| > 0 && Known(s.clicks, group)
    ensures forall g :: g in groups + [group] ==> |g| > 0 && Known(s.clicks, g)
    ensures var t := AddGroups(s, run, groups, chargeIds);
      && Known(t.clicks, group)
      && AddGroups(s, run, groups + [group], chargeIds + [chargeId]) == AddGroup(t, run, group, chargeId)
    decreases |groups|
  {
    hide AddGroup, Known;
    assert forall g :: g in groups + [group] ==> g in groups || g == group;
    if groups == [] {
      AddOne(s, run, group, chargeId);
      assert groups + [group] == [group] && chargeIds + [chargeId] == [chargeId];
    } else {
      var t := AddGroup(s, run, groups[0], chargeIds[0]);
      assert forall g :: g in groups[1..] ==> g in groups && |g| > 0 && Known(s.clicks, g);
      forall g | g in groups[1..] + [group] ensures Known(t.clicks, g) {
        StillKnown(s.clicks, t.clicks, g);
      }
      AddGroupsSnoc(t, run, groups[1..], chargeIds[1..], group, chargeId);
      assert (groups + [group])[1..] == groups[1..] + [group];
      assert (chargeIds + [chargeId])[1..] == chargeIds[1..] + [chargeId];
    }
  }

  lemma AddOne(s: System, run: nat, group: seq<ClickId>, chargeId: nat)
    requires |group| > 0 && Known(s.clicks, group)
    ensures AddGroups(s, run, [group], [chargeId]) == AddGroup(s, run, group, chargeId)
  {
    assert [group][1..] == [] && [chargeId][1..] == [];
  }

  lemma StillKnown(clicks: map<ClickId, Click>, after: map<ClickId, Click>, group: seq<ClickId>)
    requires Known(clicks, group) && (forall c :: c in clicks <==> c in after)
    ensures Known(after, group)
  {
  }

  predicate FreshIds(batches: seq<Batch>, chargeIds: seq<nat>) {
    && (forall j, k :: 0 <= j < k < |chargeIds| ==> chargeIds[j] != chargeIds[k])
    && (forall i, k :: 0 <= i < |batches| && 0 <= k < |chargeIds| ==> batches[i].chargeId != chargeIds[k])
  }

  function StartedRun(r: Run, cutoff: int): Run {
    r.(status := Running, startedAt := Some(cutoff), error := None)
  }

  // ---- runs ---------------------------------------------------------------------------

  predicate AwaitedClick(c: Click, startedAt: int) {
    c.clickedAt <= startedAt && c.batch.None? && (c.status.Pending? || c.status.PricePending?)
  }

  predicate AwaitsClicks(s: System, run: nat)
    requires run < |s.runs|
  {
    s.runs[run].trigger.Manual? && s.runs[run].startedAt.Some? &&
    exists c :: c in s.clicks && AwaitedClick(s.clicks[c], s.runs[run].startedAt.value)
  }

  predicate AwaitsPrices(s: System, run: nat)
    requires run < |s.runs|
  {
    s.runs[run].trigger.Manual? && s.runs[run].startedAt.Some? &&
    exists c :: c in s.clicks && AwaitedClick(s.clicks[c], s.runs[run].startedAt.value)
                && s.clicks[c].status.PricePending?
  }

  predicate HasOpenBatch(batches: seq<Batch>, run: nat) {
    exists i :: 0 <= i < |batches| && batches[i].runId == run && !Terminal(batches[i].status)
  }

  predicate HasUnpaidBatch(batches: seq<Batch>, run: nat) {
    exists i :: 0 <= i < |batches| && batches[i].runId == run
                && (batches[i].status.Partial? || batches[i].status.GivenUp?)
  }

  /** The error of the first batch of the run that has one. */
  function FirstError(batches: seq<Batch>, run: nat): Option<Code> {
    if batches == [] then None
    else if batches[0].runId == run && batches[0].error.Some? then batches[0].error
    else FirstError(batches[1..], run)
  }

  /** It is the error of the first batch of the run that shows one, and none if no batch does. */
  lemma {:induction false} FirstErrorIsFirst(batches: seq<Batch>, run: nat)
    ensures FirstError(batches, run).None? ==>
      forall i :: 0 <= i < |batches| && batches[i].runId == run ==> batches[i].error.None?
    ensures FirstError(batches, run).Some? ==> exists i ::
      && 0 <= i < |batches| && batches[i].runId == run && batches[i].error == FirstError(batches, run)
      && forall j :: 0 <= j < i && batches[j].runId == run ==> batches[j].error.None?
  {
    if batches != [] && !(batches[0].runId == run && batches[0].error.Some?) {
      FirstErrorIsFirst(batches[1..], run);
      if FirstError(batches, run).Some? {
        var i :| 0 <= i < |batches| - 1 && batches[1..][i].runId == run &&
          batches[1..][i].error == FirstError(batches, run) &&
          forall j :: 0 <= j < i && batches[1..][j].runId == run ==> batches[1..][j].error.None?;
        forall j | 0 <= j < i + 1 && batches[j].runId == run ensures batches[j].error.None? {
          if j > 0 {
            assert batches[1..][j - 1] == batches[j];
          }
        }
        assert batches[i + 1] == batches[1..][i];
      }
    }
  }

  function RefreshedRun(s: System, run: nat, now: int, reported: Option<Code>): Run
    requires run < |s.runs|
  {
    var failure := if reported.None? && AwaitsPrices(s, run) then Some(PriceUnavailable) else reported;
    var pending := AwaitsClicks(s, run) || HasOpenBatch(s.batches, run);
    var partial := HasUnpaidBatch(s.batches, run);
    var error := if failure.Some? then failure else FirstError(s.batches, run);
    var unfinished := pending || failure.Some?;
    s.runs[run].(
      status := if unfinished then
                  if failure.Some? && failure.value != WaitingConfirmation then Blocked else Running
                else if partial then RunPartial else RunCompleted,
      error := if unfinished || partial then error else None,
      finishedAt := if unfinished then None else Some(now))
  }

  // ---- when a step can happen ---------------------------------------------------------

  predicate AtBatch(s: System, i: nat) { i < |s.batches| }

  ghost predicate SeenInPass(s: System, tips: seq<Hash>, number: nat, hash: Hash, at: nat) {
    s.passStart <= at && CanonicalAt(hash, tips, at) && Height(hash) == number
  }

  /** Old enough for the head that the pass started from. */
  predicate Final(s: System, number: nat) {
    s.head >= number + s.confirmations
  }

  /** The stored proof was found in a final block of the chain during this pass. */
  ghost predicate ProofSeen(tips: seq<Hash>, since: nat, finalized: nat, number: Option<nat>, hash: Option<Hash>) {
    && number.Some? && hash.Some? && number.value <= finalized && Height(hash.value) == number.value
    && exists at: nat :: since <= at && CanonicalAt(hash.value, tips, at)
  }

  /** The bid of a click, and its price if it came from a block, are proved. */
  ghost predicate EvidenceSeen(tips: seq<Hash>, since: nat, finalized: nat, c: Click) {
    && ProofSeen(tips, since, finalized, c.bidNumber, c.bidHash)
    && (c.priceNumber.Some? ==> ProofSeen(tips, since, finalized, c.priceNumber, c.priceHash))
  }

  lemma ProofGrows(tips: seq<Hash>, more: seq<Hash>, since: nat, finalized: nat, number: Option<nat>,
                   hash: Option<Hash>)
    requires ProofSeen(tips, since, finalized, number, hash) && tips <= more
    ensures ProofSeen(more, since, finalized, number, hash)
  {
    var at: nat :| since <= at && CanonicalAt(hash.value, tips, at);
    assert CanonicalAt(hash.value, more, at);
  }

  lemma EvidenceGrows(tips: seq<Hash>, more: seq<Hash>, since: nat, finalized: nat, c: Click)
    requires EvidenceSeen(tips, since, finalized, c) && tips <= more
    ensures EvidenceSeen(more, since, finalized, c)
  {
    ProofGrows(tips, more, since, finalized, c.bidNumber, c.bidHash);
    if c.priceNumber.Some? {
      ProofGrows(tips, more, since, finalized, c.priceNumber, c.priceHash);
    }
  }

  function FinalBlock(s: System): nat {
    if s.head >= s.confirmations then s.head - s.confirmations else 0
  }

  /** The evidence of each click of the batch is final and was seen canonical in this pass. */
  ghost predicate EvidenceOk(s: System, i: nat, tips: seq<Hash>)
    requires AtBatch(s, i)
  {
    forall c :: c in s.batches[i].members && c in s.clicks ==>
      EvidenceSeen(tips, s.passStart, FinalBlock(s), s.clicks[c])
  }

  predicate CanWriteClick(s: System, id: ClickId, c: Click) {
    && c.batch.None? && !c.status.Reserved? && !c.status.Uncollectable?
    && (c.status.Pending? ==> c.amount.Some?)
    && (id in s.clicks ==>
          s.clicks[id].batch.None? && (s.clicks[id].amount.Some? ==> c.amount == s.clicks[id].amount))
  }

  predicate CanReserve(s: System, run: nat, groups: seq<seq<ClickId>>, chargeIds: seq<nat>) {
    && run < |s.runs|
    && |groups| == |chargeIds|
    && FreshIds(s.batches, chargeIds)
    && (forall g :: g in groups ==> Reservable(s.clicks, g))
    && (forall j, k, c :: 0 <= j < k < |groups| && c in groups[j] ==> c !in groups[k])
  }

  predicate CanSign(s: System, i: nat, tx: SignedTx) {
    && AtBatch(s, i)
    && (s.batches[i].status.Prepared? || s.batches[i].status.Failed?)
    && (s.batches[i].tx.Some? ==> i in s.reverted)
    && tx.chargeId == s.batches[i].chargeId && tx.key == s.batches[i].key
    && tx.requested == s.batches[i].requested
    && WalletFree(s, tx.signer, Some(i), None)
    && (LatestNonce(s, tx.signer).Some? ==> tx.nonce > LatestNonce(s, tx.signer).value)
  }

  predicate Covered(s: System, i: nat, c: Checkpoint)
    requires AtBatch(s, i)
  {
    s.batches[i].receiptNumber.Some? && s.batches[i].receiptNumber.value <= c.number
  }

  /** Every settled receipt was looked at in this pass or lies behind a checkpoint that was. */
  ghost predicate CanSave(s: System, tips: seq<Hash>, number: nat, hash: Hash, previousAt: Option<nat>) {
    && CanonicalAt(hash, tips, s.passStart) && Height(hash) == number
    && (previousAt.Some? ==>
          && s.checkpoint.Some?
          && s.passStart <= previousAt.value
          && CanonicalAt(s.checkpoint.value.hash, tips, previousAt.value))
    && (forall i :: 0 <= i < |s.batches| && Terminal(s.batches[i].status) && s.batches[i].receiptHash.Some? ==>
          (i in s.seen && s.passStart <= s.seen[i])
          || (previousAt.Some? && Covered(s, i, s.checkpoint.value)))
  }

  /**
   The receipt that the node gave leaves the batch undecided: there is none, or it is not final,
   or another block is canonical at its height, or it shows no revert and no acknowledgement.
   */
  ghost predicate Undecided(s: System, look: Lookup, tips: seq<Hash>) {
    && s.passStart <= look.at < |tips|
    && (look.Found? && look.reverted && Final(s, look.number) ==>
          exists other: Hash, at: nat ::
            SeenInPass(s, tips, look.number, other, at) && other != look.hash)
  }

  // ---- the publication job ----------------------------------------------------------------

  predicate AtPub(s: System, p: nat) { p < |s.publications| }

  /** Old enough for the publication job, which counts the transaction's own block. */
  predicate PubFinal(s: System, head: nat, number: nat) {
    number == 0 || number + s.confirmations <= head + 1
  }

  predicate MoveFits(s: System, m: PubMove) {
    match m
    case Prepare(_) => true
    case Take(_) => true
    case Release => true
    case FailJob => s.held.Some? && AtPub(s, s.held.value)
    case _ => AtPub(s, m.pub)
  }

  ghost predicate CanPublish(s: System, m: PubMove, tips: seq<Hash>) {
    match m
    case Prepare(_) => true
    case Take(p) => AtPub(s, p) && PubInFlight(s.publications[p].status)
    case Release => true
    case SignPub(p, signer, nonce, at, quoted, quotedTime) =>
      && AtPub(s, p) && !PubInFlight(s.publications[p].status)
      && WalletFree(s, signer, None, Some(p))
      && (LatestNonce(s, signer).Some? ==> nonce > LatestNonce(s, signer).value)
      && quoted < s.publications[p].quotedAt
      && at < |tips| && quotedTime < |tips|
    case Move(p, status) => AtPub(s, p) && PubInFlight(s.publications[p].status) && PubInFlight(status)
    case Resolve(p, status, head, number, hash, at) =>
      && AtPub(s, p) && PubInFlight(s.publications[p].status) && PubResolved(status)
      && s.publications[p].nonce.Some? && s.publications[p].signer.Some?
      && CanonicalAt(hash, tips, at) && Height(hash) == number && PubFinal(s, head, number)
    case Consume(p, head, quoted, at, quotedTime) =>
      && AtPub(s, p) && PubInFlight(s.publications[p].status)
      && s.publications[p].nonce.Some? && s.publications[p].signer.Some?
      && quoted >= s.publications[p].quotedAt && at < |tips| && quotedTime < |tips|
    case Supersede(p) =>
      AtPub(s, p) && (s.publications[p].status.PubPrepared? || s.publications[p].status.PubFailed?)
    case Reopen(p, hash, at) =>
      && AtPub(s, p) && PubResolved(s.publications[p].status) && s.publications[p].nonce.Some?
      && s.publications[p].receiptNumber.Some? && s.publications[p].receiptHash.Some?
      && CanonicalAt(hash, tips, at) && Height(hash) == s.publications[p].receiptNumber.value
      && hash != s.publications[p].receiptHash.value
    case FailJob => s.held.Some? && AtPub(s, s.held.value)
  }

  function WithPub(s: System, p: nat, row: Publication): System
    requires AtPub(s, p)
  {
    s.(publications := s.publications[p := row])
  }

  /**
   The last two moves write RECONCILING. `FailJob` is the job's error handler: it writes the
   row that the job holds in memory as in flight, even if the job has resolved it since.
   */
  function AfterMove(s: System, m: PubMove): (t: System)
    requires MoveFits(s, m)
    ensures t == s.(publications := t.publications, held := t.held)
  {
    match m
    case Prepare(quotedAt) =>
      s.(publications := s.publications + [Publication(quotedAt, PubPrepared, None, None, None, None)])
    case Take(p) => s.(held := Some(p))
    case Release => s.(held := None)
    case SignPub(p, signer, nonce, _, _, _) =>
      WithPub(s, p, Publication(s.publications[p].quotedAt, PubSigned, Some(signer), Some(nonce), None, None))
      .(held := Some(p))
    case Move(p, status) => WithPub(s, p, s.publications[p].(status := status))
    case Resolve(p, status, _, number, hash, _) =>
      WithPub(s, p, s.publications[p].(status := status, receiptNumber := Some(number), receiptHash := Some(hash)))
    case Consume(p, _, _, _, _) => WithPub(s, p, s.publications[p].(status := PubSuperseded))
    case Supersede(p) => WithPub(s, p, s.publications[p].(status := PubSuperseded))
    case Reopen(p, _, _) => WithPub(s, p, s.publications[p].(status := PubReconciling)).(held := Some(p))
    case FailJob =>
      WithPub(s, s.held.value, s.publications[s.held.value].(status := PubReconciling)).(held := None)
  }

  // ---- steps --------------------------------------------------------------------------------

  ghost predicate Enabled(s: System, e: Step, tips: seq<Hash>) {
    match e
    case WriteClick(id, click) => CanWriteClick(s, id, click)
    case OpenRun(_) => true
    case Reserve(run, cutoff, groups, chargeIds) => CanReserve(s, run, groups, chargeIds)
    case Refresh(run, _, _) => run < |s.runs|
    case BlockRun(run, _) => run < |s.runs|
    case Rollback(i, at) =>
      AtBatch(s, i) && Terminal(s.batches[i].status) && s.batches[i].receiptHash.Some?
      && i in s.seen && s.seen[i] <= at
      && s.passStart <= at < |tips| && !On(s.batches[i].receiptHash.value, tips[at])
    case Await(i, _, look) => AtBatch(s, i) && Live(s.batches[i]) && Undecided(s, look, tips)
    case Submit(i, look) => AtBatch(s, i) && Live(s.batches[i]) && look.NotFound? && Undecided(s, look, tips)
    case Send(i) => AtBatch(s, i) && Live(s.batches[i]) && EvidenceOk(s, i, tips)
    case Fail(i, number, hash, at, _) =>
      AtBatch(s, i) && Live(s.batches[i]) && SeenInPass(s, tips, number, hash, at) && Final(s, number)
    case StillFailed(i, number, hash, at) =>
      AtBatch(s, i) && s.batches[i].tx.Some? && s.batches[i].status.Failed?
      && SeenInPass(s, tips, number, hash, at) && Final(s, number)
    case Settle(i, event, number, hash, at) =>
      AtBatch(s, i) && Live(s.batches[i]) && Matches(s.batches[i], event)
      && SeenInPass(s, tips, number, hash, at) && Final(s, number)
    case GiveUp(i, _, number, hash, at) =>
      AtBatch(s, i) && (s.batches[i].status.Prepared? || s.batches[i].status.Failed?)
      && SeenInPass(s, tips, number, hash, at)
    case Sign(i, tx, at) => CanSign(s, i, tx) && EvidenceOk(s, i, tips) && at < |tips|
    case Note(i, _) => AtBatch(s, i)
    case Confirm(i, at) =>
      AtBatch(s, i) && Terminal(s.batches[i].status) && s.batches[i].receiptHash.Some?
      && s.passStart <= at && CanonicalAt(s.batches[i].receiptHash.value, tips, at)
    case BeginPass(head, start) =>
      s.passStart <= start < |tips| && (forall i :: i in s.seen ==> s.seen[i] <= start)
    case SaveCheckpoint(number, hash, previousAt) => CanSave(s, tips, number, hash, previousAt)
    case Publish(m) => CanPublish(s, m, tips)
  }

  // ---- what a step does ---------------------------------------------------------------

  function Next(s: System, e: Step): System
    requires StepFits(s, e)
  {
    match e
    case WriteClick(id, click) => s.(clicks := s.clicks[id := click])
    case OpenRun(trigger) => s.(runs := s.runs + [Run(trigger, Queued, None, None, None)])
    case Reserve(run, cutoff, groups, chargeIds) =>
      AddGroups(s.(batches := TakeOver(s, run), runs := s.runs[run := StartedRun(s.runs[run], cutoff)]),
                run, groups, chargeIds)
    case Refresh(run, now, failure) => s.(runs := s.runs[run := RefreshedRun(s, run, now, failure)])
    case BlockRun(run, code) =>
      s.(runs := s.runs[run := s.runs[run].(status := Blocked, error := Some(code))])
    case Rollback(i, _) =>
      var b := s.batches[i];
      PutBatch(s, i, b.(status := if b.tx.Some? then Reconciling else Prepared,
                        charged := None, shortfall := None,
                        receiptNumber := None, receiptHash := None, error := Some(ReorgDetected)))
      .(clicks := Mark(s.clicks, b.members, ClickStatus.Reserved, Some(ReorgDetected)),
        runs := s.runs[b.runId :=
          s.runs[b.runId].(status := Running, finishedAt := None, error := Some(ReorgDetected))])
    case Await(i, _, _) => WithRow(s, i, RowAfter(s.batches[i], e), Forget(s.reverted, i))
    case Submit(i, _) => WithRow(s, i, RowAfter(s.batches[i], e), Forget(s.reverted, i))
    case Send(i) => s
    case Fail(i, number, hash, at, _) =>
      WithRow(s, i, RowAfter(s.batches[i], e),
              s.reverted[i := Evidence(s.batches[i].tx.value, number, hash, at)])
    case StillFailed(i, number, hash, at) =>
      s.(reverted := s.reverted[i := Evidence(s.batches[i].tx.value, number, hash, at)])
    case Settle(i, event, number, hash, at) =>
      PutBatch(s, i, SettledBatch(s.batches[i], event, number, hash))
      .(clicks := SettleClicks(s.clicks, s.batches[i].members, event.charged),
        seen := s.seen[i := at], reverted := Forget(s.reverted, i))
    case GiveUp(i, code, number, hash, at) =>
      var b := s.batches[i];
      PutBatch(s, i, b.(status := GivenUp, charged := Some(0), shortfall := Some(b.due),
                        receiptNumber := Some(number), receiptHash := Some(hash), error := Some(code)))
      .(clicks := Mark(s.clicks, b.members, ClickStatus.Uncollectable, Some(code)),
        seen := s.seen[i := at], reverted := Forget(s.reverted, i))
    case Sign(i, _, _) => WithRow(s, i, RowAfter(s.batches[i], e), Forget(s.reverted, i))
    case Note(i, _) => WithRow(s, i, RowAfter(s.batches[i], e), s.reverted)
    case Confirm(i, at) => s.(seen := s.seen[i := at])
    case BeginPass(head, start) => s.(head := head, passStart := start, reverted := map[])
    case SaveCheckpoint(number, hash, previousAt) =>
      s.(checkpoint := Some(Checkpoint(number, hash)), savedAt := s.passStart,
         seen := map i | i in s.seen ::
           if s.seen[i] < s.passStart && previousAt.Some? then previousAt.value else s.seen[i])
    case Publish(m) => AfterMove(s, m)
  }

  lemma RowStepChangesRow(s: System, e: Step)
    requires RowStep(e) && StepFits(s, e)
    ensures AtBatch(s, e.batch)
    ensures Next(s, e) == WithRow(s, e.batch, RowAfter(s.batches[e.batch], e), Next(s, e).reverted)
  {
    hide RowAfter;
  }

  /** A step whose rows do not exist changes nothing. */
  function Apply(s: System, e: Step): System {
    if StepFits(s, e) then Next(s, e) else s
  }

  const EMPTY_SYSTEM: System :=
    System(map[], [], [], [], None, None, 1, 0, 0, map[], map[], 0)

  function After(confirmations: nat, log: seq<Step>): System {
    if log == [] then EMPTY_SYSTEM.(confirmations := confirmations)
    else Apply(After(confirmations, log[..|log| - 1]), log[|log| - 1])
  }

  /** Every step of the log was possible in the state that the steps before it left behind. */
  ghost predicate Legal(confirmations: nat, log: seq<Step>, tips: seq<Hash>) {
    if log == [] then |tips| > 0
    else
      && Legal(confirmations, log[..|log| - 1], tips)
      && Enabled(After(confirmations, log[..|log| - 1]), log[|log| - 1], tips)
  }

  lemma Extend(confirmations: nat, log: seq<Step>, e: Step, tips: seq<Hash>)
    requires Legal(confirmations, log, tips) && Enabled(After(confirmations, log), e, tips)
    ensures Legal(confirmations, log + [e], tips)
    ensures After(confirmations, log + [e]) == Apply(After(confirmations, log), e)
  {
    assert (log + [e])[..|log + [e]| - 1] == log;
  }

  lemma {:induction false} PrefixLegal(confirmations: nat, log: seq<Step>, tips: seq<Hash>, k: nat)
    requires Legal(confirmations, log, tips) && k <= |log|
    ensures Legal(confirmations, log[..k], tips)
    decreases |log|
  {
    if k == |log| {
      assert log[..k] == log;
    } else {
      PrefixLegal(confirmations, log[..|log| - 1], tips, k);
      assert log[..|log| - 1][..k] == log[..k];
    }
  }

  /** The rows a step names exist and have the shape its update reads. */
  predicate StepFits(s: System, e: Step) {
    match e
    case Reserve(run, _, groups, chargeIds) =>
      run < |s.runs| && |groups| == |chargeIds| && (forall g :: g in groups ==> |g| > 0 && Known(s.clicks, g))
    case Refresh(run, _, _) => run < |s.runs|
    case BlockRun(run, _) => run < |s.runs|
    case Rollback(i, _) => AtBatch(s, i) && s.batches[i].runId < |s.runs|
    case Await(i, _, _) => AtBatch(s, i)
    case Submit(i, _) => AtBatch(s, i)
    case Fail(i, _, _, _, _) => AtBatch(s, i) && s.batches[i].tx.Some?
    case StillFailed(i, _, _, _) => AtBatch(s, i) && s.batches[i].tx.Some?
    case Settle(i, event, _, _, _) =>
      AtBatch(s, i) && 0 <= event.charged <= s.batches[i].due && Known(s.clicks, s.batches[i].members)
    case GiveUp(i, _, _, _, _) => AtBatch(s, i)
    case Sign(i, _, _) => AtBatch(s, i)
    case Note(i, _) => AtBatch(s, i)
    case Publish(m) => MoveFits(s, m)
    case _ => true
  }
}
