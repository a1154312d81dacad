/**
 What becomes of one batch, given what the node, the index and the database answer. `b` is the row
 before, `c` the row after, and `v` what the pass has read of the chain by then.
 */
module ChargeOutcome {
  import opened Prelude
  import opened Chain
  import opened ChargeTypes
  import opened ChargeSteps
  import ChargeWallet
  import Allocation

  datatype Outcome = Idle | Waiting | Threw(code: Code)

  /** A `StakeCharged` row of the indexer; the payload is None when it is malformed. */
  datatype IndexedCharge = IndexedCharge(number: nat, hash: Hash, payload: Option<ChargeEvent>)

  datatype Sent = Accepted(sameHash: bool) | NoGas | Unanswered

  /** What the node and the index answer while one batch is reconciled. */
  datatype Answers = Answers(
    receipt: Rpc<Option<Receipt>>,
    processed: Rpc<bool>,
    pendingNonce: Rpc<nat>,
    indexed: Option<IndexedCharge>,
    sent: Sent)

  datatype Position = Position(amount: nat, version: nat)

  datatype Signature = Bytes(fees: nat) | Refused(code: Code)

  /** What the node answers while one batch is prepared. */
  datatype PrepareAnswers = PrepareAnswers(
    finalized: Rpc<Position>,
    current: Rpc<Position>,
    processed: Rpc<bool>,
    pendingNonce: Rpc<nat>,
    signature: Signature,
    afterwards: Answers)

  /** The hashes that a pass has read, and the head it started from. */
  datatype View = View(known: map<nat, Hash>, head: nat, confirmations: nat)

  predicate IsFinal(v: View, number: nat) { v.head >= number + v.confirmations }

  function NewestFinal(v: View): nat {
    if v.head >= v.confirmations then v.head - v.confirmations else 0
  }

  /** The block is final and was read as the canonical one of its number. */
  predicate Stands(v: View, number: nat, hash: Hash) {
    IsFinal(v, number) && number in v.known && v.known[number] == hash
  }

  // ---- evidence ---------------------------------------------------------------------------------

  /** Why a proof does not count, if so. */
  function ProofError(v: View, number: nat, hash: Hash): Option<Code> {
    if number > NewestFinal(v) then Some(WaitingConfirmation)
    else if number !in v.known then Some(RpcUnavailable)
    else if v.known[number] != hash then Some(CaptureProofOrphaned)
    else None
  }

  /** Why the evidence of a click does not count, if so. */
  function CaptureError(v: View, c: Click): Option<Code> {
    if c.bidNumber.None? || c.bidHash.None? then Some(CaptureFailed)
    else if ProofError(v, c.bidNumber.value, c.bidHash.value).Some?
    then ProofError(v, c.bidNumber.value, c.bidHash.value)
    else if c.priceNumber.None? then None
    else if c.priceHash.None? then Some(CaptureFailed)
    else ProofError(v, c.priceNumber.value, c.priceHash.value)
  }

  /** The stored proof names the block that the pass read at its height, and that block is final. */
  predicate Proves(v: View, number: Option<nat>, hash: Option<Hash>) {
    && number.Some? && hash.Some? && number.value <= NewestFinal(v)
    && number.value in v.known && v.known[number.value] == hash.value
  }

  predicate Disproves(v: View, number: Option<nat>, hash: Option<Hash>, code: Code) {
    if number.None? || hash.None? then code == CaptureFailed
    else
      && !Proves(v, number, hash)
      && code == if number.value > NewestFinal(v) then WaitingConfirmation
                 else if number.value in v.known then CaptureProofOrphaned else RpcUnavailable
  }

  /** A click is proved by its bid, and by its price if that came from a block; a code names what is wrong with one. */
  lemma UnprovedForACause(v: View, c: Click)
    ensures CaptureError(v, c).None? <==>
      Proves(v, c.bidNumber, c.bidHash) && (c.priceNumber.Some? ==> Proves(v, c.priceNumber, c.priceHash))
    ensures CaptureError(v, c).Some? ==>
      || Disproves(v, c.bidNumber, c.bidHash, CaptureError(v, c).value)
      || (c.priceNumber.Some? && Disproves(v, c.priceNumber, c.priceHash, CaptureError(v, c).value))
  {
  }

  function Unproved(v: View, clicks: map<ClickId, Click>, members: seq<ClickId>): set<Code> {
    set c | c in members && c in clicks && CaptureError(v, clicks[c]).Some? :: CaptureError(v, clicks[c]).value
  }

  // ---- what can happen to a row --------------------------------------------------------------------

  predicate Stops(b: Batch, c: Batch, r: Outcome, code: Code) { c == b && r == Threw(code) }

  predicate Leaves(b: Batch, c: Batch, r: Outcome) { c == b && r.Idle? }

  predicate Waits(b: Batch, c: Batch, r: Outcome, code: Code) {
    c == b.(status := Reconciling, error := Some(code)) && r.Waiting?
  }

  predicate Halts(b: Batch, c: Batch, r: Outcome, code: Code) {
    c == b.(status := Reconciling, error := Some(code)) && r == Threw(code)
  }

  /** Settled by the event: collected what it says, in part if that is less than the debt. */
  predicate SettledBy(b: Batch, c: Batch, event: ChargeEvent, number: nat, hash: Hash) {
    && 0 <= event.charged <= b.due
    && c == b.(status := if event.charged < b.due then Partial else Confirmed,
               charged := Some(event.charged), shortfall := Some(b.due - event.charged),
               receiptNumber := Some(number), receiptHash := Some(hash),
               error := if event.charged < b.due then Some(InsufficientStake) else None, nextAttemptAt := None)
  }

  /** Found reverted; a failure that is known already is not written again. */
  predicate Fails(b: Batch, row: Batch, c: Batch, r: Outcome, receipt: Receipt, now: int) {
    && r.Idle?
    && if row.status.Failed? && row.receiptHash == Some(receipt.hash) then c == b
       else c == b.(status := Failed, receiptNumber := Some(receipt.number), receiptHash := Some(receipt.hash),
                    error := Some(TransactionFailed), nextAttemptAt := Some(now + 60_000))
  }

  /** The settlement of a dropped block undone. */
  function Reopened(b: Batch): Batch {
    b.(status := if b.tx.Some? then Reconciling else Prepared, charged := None, shortfall := None,
       receiptNumber := None, receiptHash := None, error := Some(ReorgDetected))
  }

  // ---- a batch with bytes --------------------------------------------------------------------------

  predicate ByIndex(v: View, b: Batch, c: Batch, r: Outcome, indexed: Option<IndexedCharge>) {
    if indexed.None? || !IsFinal(v, indexed.value.number) then Waits(b, c, r, TransactionUnknown)
    else if indexed.value.number !in v.known then Stops(b, c, r, RpcUnavailable)
    else if v.known[indexed.value.number] != indexed.value.hash then Waits(b, c, r, TransactionUnknown)
    else if indexed.value.payload.Some? && Matches(b, indexed.value.payload.value)
    then r.Idle? && SettledBy(b, c, indexed.value.payload.value, indexed.value.number, indexed.value.hash)
    else Stops(b, c, r, TransactionUnknown)
  }

  /** What the search of the index says, put together. */
  lemma IndexDecides(v: View, b: Batch, c: Batch, r: Outcome, indexed: Option<IndexedCharge>, settled: bool,
                     error: Option<Code>)
    requires settled <==>
      && indexed.Some? && Stands(v, indexed.value.number, indexed.value.hash)
      && indexed.value.payload.Some? && Matches(b, indexed.value.payload.value)
    requires settled ==>
      r.Idle? && SettledBy(b, c, indexed.value.payload.value, indexed.value.number, indexed.value.hash)
    requires error == Some(RpcUnavailable) <==>
      indexed.Some? && IsFinal(v, indexed.value.number) && indexed.value.number !in v.known
    requires error == Some(TransactionUnknown) <==>
      && indexed.Some? && Stands(v, indexed.value.number, indexed.value.hash)
      && !(indexed.value.payload.Some? && Matches(b, indexed.value.payload.value))
    requires error.Some? ==> error.value == RpcUnavailable || error.value == TransactionUnknown
    requires error.Some? ==> Stops(b, c, r, error.value)
    requires !settled && error.None? ==> Waits(b, c, r, TransactionUnknown)
    ensures ByIndex(v, b, c, r, indexed)
  {
    hide SettledBy, Matches;
  }

  predicate ByReceipt(v: View, b: Batch, row: Batch, c: Batch, r: Outcome, receipt: Receipt,
                      indexed: Option<IndexedCharge>, now: int)
  {
    if !IsFinal(v, receipt.number) then Waits(b, c, r, WaitingConfirmation)
    else if receipt.number !in v.known then Stops(b, c, r, RpcUnavailable)
    else if v.known[receipt.number] != receipt.hash then Waits(b, c, r, WaitingConfirmation)
    else if receipt.reverted then Fails(b, row, c, r, receipt, now)
    else if receipt.event.None? then ByIndex(v, b, c, r, indexed)
    else if Matches(b, receipt.event.value)
    then r.Idle? && SettledBy(b, c, receipt.event.value, receipt.number, receipt.hash)
    else Stops(b, c, r, TransactionUnknown)
  }

  /** Another row holds the nonce that the chain is waiting for. */
  predicate HasPredecessor(batches: seq<Batch>, i: nat, signer: Address, nonce: nat) {
    exists j :: 0 <= j < |batches| && j != i && batches[j].tx.Some? && batches[j].tx.value.signer == signer
                && batches[j].tx.value.nonce == nonce && InFlight(batches[j].status)
  }

  predicate Ahead(batches: seq<Batch>, i: nat, signer: Address, a: Answers) {
    a.pendingNonce.Got? && HasPredecessor(batches, i, signer, a.pendingNonce.value)
  }

  predicate Sends(b: Batch, c: Batch, r: Outcome, sent: Sent) {
    match sent
    case Accepted(true) =>
      c == b.(status := Submitted, error := Some(WaitingConfirmation)) && r.Waiting?
    case NoGas => Halts(b, c, r, InsufficientGas)
    case _ => Waits(b, c, r, TransactionUnknown)
  }

  predicate Resends(b: Batch, c: Batch, r: Outcome, sent: Sent, unproved: set<Code>) {
    if unproved == {} then Sends(b, c, r, sent)
    else exists code ::
      code in unproved && if code.WaitingConfirmation? then Waits(b, c, r, code) else Halts(b, c, r, code)
  }

  /** `ahead`: another row in flight holds the nonce that the chain waits for. */
  predicate ByBytes(b: Batch, c: Batch, r: Outcome, a: Answers, unproved: set<Code>, ahead: bool)
    requires b.tx.Some?
  {
    if a.pendingNonce.Lost? then Stops(b, c, r, RpcUnavailable)
    else if a.pendingNonce.value < b.tx.value.nonce
    then if ahead then Waits(b, c, r, WaitingConfirmation) else Halts(b, c, r, NonceGap)
    else Resends(b, c, r, a.sent, unproved)
  }

  predicate ReconcilesSigned(v: View, b: Batch, row: Batch, c: Batch, r: Outcome, a: Answers, now: int,
                             unproved: set<Code>, ahead: bool)
    requires b.tx.Some?
  {
    if a.receipt.Lost? then Stops(b, c, r, RpcUnavailable)
    else if a.receipt.value.Some? then ByReceipt(v, b, row, c, r, a.receipt.value.value, a.indexed, now)
    else if a.processed.Lost? then Stops(b, c, r, RpcUnavailable)
    else if a.processed.value then ByIndex(v, b, c, r, a.indexed)
    else ByBytes(b, c, r, a, unproved, ahead)
  }

  // ---- any batch -------------------------------------------------------------------------------------

  predicate IsSettled(b: Batch) { Terminal(b.status) && b.receiptNumber.Some? && b.receiptHash.Some? }

  /** The batch has bytes whose fate is open: it is not settled, or its receipt was dropped. */
  predicate GoesOn(v: View, b: Batch) {
    && b.tx.Some?
    && (IsSettled(b) ==>
          b.receiptNumber.value in v.known && v.known[b.receiptNumber.value] != b.receiptHash.value)
  }

  /** The bytes are to be sent once more: no receipt, not processed, their nonce in reach and all evidence proved. */
  predicate Reaches(v: View, b: Batch, a: Answers, unproved: set<Code>) {
    && GoesOn(v, b) && a.receipt == Got(None) && a.processed == Got(false)
    && a.pendingNonce.Got? && a.pendingNonce.value >= b.tx.value.nonce && unproved == {}
  }

  predicate Reconciles(v: View, b: Batch, c: Batch, r: Outcome, a: Answers, now: int, unproved: set<Code>, ahead: bool)
  {
    if IsSettled(b) then
      if b.receiptNumber.value !in v.known then Stops(b, c, r, RpcUnavailable)
      else if v.known[b.receiptNumber.value] == b.receiptHash.value then Leaves(b, c, r)
      else if b.tx.None? then c == Reopened(b) && r.Idle?
      else ReconcilesSigned(v, Reopened(b), b, c, r, a, now, unproved, ahead)
    else if b.tx.None? then Leaves(b, c, r)
    else ReconcilesSigned(v, b, b, c, r, a, now, unproved, ahead)
  }

  lemma SettledDecides(v: View, b: Batch, c: Batch, r: Outcome, a: Answers, now: int, unproved: set<Code>, ahead: bool)
    requires IsSettled(b) && c == b
    requires if b.receiptNumber.value in v.known
             then v.known[b.receiptNumber.value] == b.receiptHash.value && r.Idle?
             else r == Threw(RpcUnavailable)
    ensures Reconciles(v, b, c, r, a, now, unproved, ahead) && !GoesOn(v, b)
  {
  }

  lemma ReopenedDecides(v: View, b: Batch, c: Batch, r: Outcome, a: Answers, now: int, unproved: set<Code>, ahead: bool)
    requires IsSettled(b) && b.receiptNumber.value in v.known
    requires v.known[b.receiptNumber.value] != b.receiptHash.value
    requires if b.tx.None? then c == Reopened(b) && r.Idle?
             else ReconcilesSigned(v, Reopened(b), b, c, r, a, now, unproved, ahead)
    ensures Reconciles(v, b, c, r, a, now, unproved, ahead) && (GoesOn(v, b) <==> b.tx.Some?)
  {
    hide ReconcilesSigned;
  }

  lemma UnsettledDecides(v: View, b: Batch, c: Batch, r: Outcome, a: Answers, now: int, unproved: set<Code>,
                         ahead: bool)
    requires !IsSettled(b)
    requires if b.tx.None? then c == b && r.Idle? else ReconcilesSigned(v, b, b, c, r, a, now, unproved, ahead)
    ensures Reconciles(v, b, c, r, a, now, unproved, ahead) && (GoesOn(v, b) <==> b.tx.Some?)
  {
    hide ReconcilesSigned;
  }

  lemma SignedIsReconciled(v: View, b: Batch, c: Batch, r: Outcome, a: Answers, now: int, unproved: set<Code>,
                           ahead: bool)
    requires b.status.Signed? && b.tx.Some? && Reconciles(v, b, c, r, a, now, unproved, ahead)
    ensures ReconcilesSigned(v, b, b, c, r, a, now, unproved, ahead)
  {
  }

  // ---- a batch without bytes -----------------------------------------------------------------------

  /** The stake is there in the version that the clicks were sold for. */
  predicate Chargeable(position: Rpc<Position>, version: nat) {
    position.Got? && position.value.version == version && position.value.amount > 0
  }

  predicate GivesUp(v: View, b: Batch, c: Batch, r: Outcome, code: Code) {
    var n := NewestFinal(v);
    if n !in v.known then Stops(b, c, r, RpcUnavailable)
    else
      r.Idle? && c == b.(status := GivenUp, charged := Some(0), shortfall := Some(b.due),
                         receiptNumber := Some(n), receiptHash := Some(v.known[n]), error := Some(code))
  }

  /** Signed with the wallet's next nonce for exactly this charge. */
  function SignedRow(b: Batch, p: PrepareAnswers, signer: Address): Batch
    requires p.pendingNonce.Got? && p.signature.Bytes?
  {
    b.(status := Signed, error := None, attempts := b.attempts + 1, nextAttemptAt := None,
       receiptNumber := None, receiptHash := None,
       tx := Some(SignedTx(signer, p.pendingNonce.value, b.chargeId, b.key, b.requested, p.signature.fees)))
  }

  /** Why the wallet cannot sign in this state, if so. */
  function Refusal(s: System, i: nat, p: PrepareAnswers, signer: Address): Option<Code> {
    if !WalletFree(s, signer, Some(i), None) then Some(WaitingConfirmation)
    else if p.pendingNonce.Lost? then Some(RpcUnavailable)
    else if LatestNonce(s, signer).Some? && p.pendingNonce.value <= LatestNonce(s, signer).value then Some(NonceGap)
    else if p.signature.Refused? then Some(p.signature.code)
    else None
  }

  /** The wallet signs exactly when it is free, its pending nonce is above both journals, and the key signs. */
  lemma RefusedForACause(s: System, i: nat, p: PrepareAnswers, signer: Address)
    ensures var free := WalletFree(s, signer, Some(i), None);
      && (Refusal(s, i, p, signer).None? <==>
            && free && p.pendingNonce.Got? && p.signature.Bytes?
            && forall n: nat :: ChargeWallet.InJournals(s, signer, n) ==> n < p.pendingNonce.value)
      && (!free ==> Refusal(s, i, p, signer) == Some(WaitingConfirmation))
      && (free && p.pendingNonce.Lost? ==> Refusal(s, i, p, signer) == Some(RpcUnavailable))
      && (free && p.pendingNonce.Got? &&
          (exists n: nat :: ChargeWallet.InJournals(s, signer, n) && n >= p.pendingNonce.value) ==>
            Refusal(s, i, p, signer) == Some(NonceGap))
  {
    hide LatestNonce, WalletFree, ChargeWallet.InJournals;
    ChargeWallet.LatestNonceIsGreatest(s, signer);
  }

  /** `refusal`: why the wallet did not sign, if so. */
  predicate Signs(v: View, b: Batch, c: Batch, r: Outcome, p: PrepareAnswers, signer: Address, now: int,
                  refusal: Option<Code>, unproved: set<Code>, ahead: bool)
  {
    if refusal.Some? then Stops(b, c, r, refusal.value)
    else
      && p.pendingNonce.Got? && p.signature.Bytes?
      && var m := SignedRow(b, p, signer); ReconcilesSigned(v, m, m, c, r, p.afterwards, now, unproved, ahead)
  }

  predicate PreparesChargeable(v: View, b: Batch, c: Batch, r: Outcome, p: PrepareAnswers, signer: Address, now: int,
                               refusal: Option<Code>, unproved: set<Code>, ahead: bool)
  {
    if p.current.Lost? then Stops(b, c, r, RpcUnavailable)
    else if !Chargeable(p.current, b.key.version) then Stops(b, c, r, WaitingConfirmation)
    else if p.processed.Lost? then Stops(b, c, r, RpcUnavailable)
    else if p.processed.value then Stops(b, c, r, TransactionUnknown)
    else Signs(v, b, c, r, p, signer, now, refusal, unproved, ahead)
  }

  predicate Prepares(v: View, b: Batch, c: Batch, r: Outcome, p: PrepareAnswers, signer: Address, now: int,
                     refusal: Option<Code>, unproved: set<Code>, ahead: bool)
  {
    if unproved != {} then exists code :: code in unproved && Stops(b, c, r, code)
    else if p.finalized.Lost? then Stops(b, c, r, RpcUnavailable)
    else if p.finalized.value.version != b.key.version then GivesUp(v, b, c, r, PositionVersionMismatch)
    else if p.finalized.value.amount == 0 then GivesUp(v, b, c, r, PositionMissing)
    else PreparesChargeable(v, b, c, r, p, signer, now, refusal, unproved, ahead)
  }

  // ---- loops over batches --------------------------------------------------------------------------

  /** One turn of a loop over batches: what had been read by then, and what it made of the row. */
  datatype Turn = Turn(
    view: View, unproved: set<Code>, ahead: bool, refusal: Option<Code>, row: Batch, outcome: Outcome)

  predicate ReconcileTurn(b: Batch, c: Batch, a: Answers, now: int, t: Turn) {
    c == t.row && Reconciles(t.view, b, t.row, t.outcome, a, now, t.unproved, t.ahead)
  }

  /** An exception is noted on the row. */
  function Noted(row: Batch, r: Outcome): Batch {
    if r.Threw? then row.(error := Some(r.code)) else row
  }

  predicate PrepareTurn(b: Batch, c: Batch, p: PrepareAnswers, signer: Address, now: int, t: Turn) {
    && c == Noted(t.row, t.outcome)
    && Prepares(t.view, b, t.row, t.outcome, p, signer, now, t.refusal, t.unproved, t.ahead)
  }

  predicate SomeWaits(turns: seq<Turn>) { exists k :: 0 <= k < |turns| && turns[k].outcome.Waiting? }

  predicate NoneThrew(turns: seq<Turn>) { forall k :: 0 <= k < |turns| ==> !turns[k].outcome.Threw? }

  /** An exception other than an orphaned proof ends the loop, and so does anything to wait for. */
  predicate Ends(turn: Turn, waiting: bool) {
    if turn.outcome.Threw? then turn.outcome.code != CaptureProofOrphaned else waiting || turn.outcome.Waiting?
  }

  predicate NoneEnds(turns: seq<Turn>, waiting: bool) {
    forall k :: 0 <= k < |turns| ==> !Ends(turns[k], waiting)
  }

  /** The code of the last exception. */
  function LastCode(turns: seq<Turn>): Option<Code> {
    if turns == [] then None
    else if turns[|turns| - 1].outcome.Threw? then Some(turns[|turns| - 1].outcome.code)
    else LastCode(turns[..|turns| - 1])
  }

  lemma OneTurnMore(turns: seq<Turn>, turn: Turn, waiting: bool)
    ensures SomeWaits(turns + [turn]) <==> SomeWaits(turns) || turn.outcome.Waiting?
    ensures NoneThrew(turns + [turn]) <==> NoneThrew(turns) && !turn.outcome.Threw?
    ensures NoneEnds(turns + [turn], waiting) <==> NoneEnds(turns, waiting) && !Ends(turn, waiting)
    ensures LastCode(turns + [turn]) == if turn.outcome.Threw? then Some(turn.outcome.code) else LastCode(turns)
  {
    var more := turns + [turn];
    assert more[..|turns|] == turns && more[|turns|] == turn;
    if SomeWaits(turns) {
      var k :| 0 <= k < |turns| && turns[k].outcome.Waiting?;
      assert more[k].outcome.Waiting?;
    }
    assert NoneThrew(more) ==> forall k :: 0 <= k < |turns| ==> !more[k].outcome.Threw?;
    assert NoneEnds(more, waiting) ==> forall k :: 0 <= k < |turns| ==> !Ends(more[k], waiting);
  }

  // ---- the clicks of a batch ------------------------------------------------------------------------------

  /** These clicks have this status and error, and are otherwise as they were, like all others. */
  predicate MarkedAs(before: map<ClickId, Click>, after: map<ClickId, Click>, ids: seq<ClickId>, status: ClickStatus,
                     error: Option<Code>)
  {
    && after.Keys == before.Keys
    && (forall c :: c in before && c !in ids ==> after[c] == before[c])
    && (forall c :: c in before && c in ids ==> after[c] == before[c].(status := status, error := error))
  }

  /** The charge pays for these clicks oldest first; the others of them cannot be collected. */
  predicate PaidFor(before: map<ClickId, Click>, after: map<ClickId, Click>, ids: seq<ClickId>, charged: nat) {
    && Known(before, ids) && after.Keys == before.Keys
    && (forall c :: c in before && c !in ids ==> after[c] == before[c])
    && (forall k :: 0 <= k < |ids| ==>
          after[ids[k]] == if Allocation.Settles(Amounts(before, ids), k, charged)
                           then before[ids[k]].(status := ClickStatus.Settled, error := None)
                           else before[ids[k]].(status := Uncollectable, error := Some(InsufficientStake)))
  }

  lemma MarkMarks(clicks: map<ClickId, Click>, ids: seq<ClickId>, status: ClickStatus, error: Option<Code>)
    ensures MarkedAs(clicks, Mark(clicks, ids, status, error), ids, status, error)
  {
  }

  lemma SettleClicksPays(clicks: map<ClickId, Click>, ids: seq<ClickId>, charged: nat)
    requires Known(clicks, ids) && forall j, k :: 0 <= j < k < |ids| ==> ids[j] != ids[k]
    ensures PaidFor(clicks, SettleClicks(clicks, ids, charged), ids, charged)
  {
    var paid := PaidIds(clicks, ids, charged);
    forall k | 0 <= k < |ids| ensures ids[k] in paid <==> Allocation.Settles(Amounts(clicks, ids), k, charged) {
      if ids[k] in paid {
        var j :| 0 <= j < |ids| && Allocation.Settles(Amounts(clicks, ids), j, charged) && ids[j] == ids[k];
        assert j == k;
      }
    }
  }

  // ---- what follows ------------------------------------------------------------------------------------

  /** A final canonical event of this charge, told by the receipt or, without one there, by the index. */
  predicate Acknowledged(v: View, b: Batch, a: Answers, event: ChargeEvent, number: nat, hash: Hash) {
    && Matches(b, event) && Stands(v, number, hash) && a.receipt.Got?
    && match a.receipt.value
       case Some(receipt) =>
         && Stands(v, receipt.number, receipt.hash) && !receipt.reverted
         && if receipt.event.Some? then receipt.event.value == event && receipt.number == number && receipt.hash == hash
            else a.indexed == Some(IndexedCharge(number, hash, Some(event)))
       case None => a.processed == Got(true) && a.indexed == Some(IndexedCharge(number, hash, Some(event)))
  }

  /** A batch in flight is settled if and only if its charge is acknowledged, and then by what the event says. */
  lemma SettledIffAcknowledged(v: View, b: Batch, c: Batch, r: Outcome, a: Answers, now: int, unproved: set<Code>,
                               ahead: bool)
    requires Reconciles(v, b, c, r, a, now, unproved, ahead) && Live(b)
    requires b.requested <= b.due
    ensures Terminal(c.status) <==> exists event, number, hash :: Acknowledged(v, b, a, event, number, hash)
    ensures forall event, number, hash :: Acknowledged(v, b, a, event, number, hash) ==>
      r.Idle? && SettledBy(b, c, event, number, hash)
  {
    if Terminal(c.status) {
      if a.receipt.value.Some? && a.receipt.value.value.event.Some? {
        var receipt := a.receipt.value.value;
        assert Acknowledged(v, b, a, receipt.event.value, receipt.number, receipt.hash);
      } else {
        var row := a.indexed.value;
        assert Acknowledged(v, b, a, row.payload.value, row.number, row.hash);
      }
    }
  }

  predicate FoundReverted(v: View, a: Answers) {
    && a.receipt.Got? && a.receipt.value.Some? && a.receipt.value.value.reverted
    && Stands(v, a.receipt.value.value.number, a.receipt.value.value.hash)
  }

  /** A batch in flight fails if and only if its bytes stand reverted. */
  lemma FailedIffReverted(v: View, b: Batch, c: Batch, r: Outcome, a: Answers, now: int, unproved: set<Code>,
                          ahead: bool)
    requires Reconciles(v, b, c, r, a, now, unproved, ahead) && b.tx.Some? && InFlight(b.status)
    ensures c.status.Failed? <==> FoundReverted(v, a)
    ensures FoundReverted(v, a) ==>
      r.Idle? && c.receiptHash == Some(a.receipt.value.value.hash) && c.nextAttemptAt == Some(now + 60_000)
  {
  }

  /** The answer is missing that the batch depends on. */
  predicate Unanswered(v: View, b: Batch, a: Answers) {
    || a.receipt.Lost?
    || (a.receipt.value.Some? && IsFinal(v, a.receipt.value.value.number) && a.receipt.value.value.number !in v.known)
    || (a.receipt.value.None? && (a.processed.Lost? || (!a.processed.value && a.pendingNonce.Lost?)))
    || (a.indexed.Some? && IsFinal(v, a.indexed.value.number) && a.indexed.value.number !in v.known)
  }

  /** The chain has an event for this charge that does not fit it, or none that can be read. */
  predicate Mismatched(v: View, b: Batch, a: Answers) {
    || (a.receipt.Got? && a.receipt.value.Some? && a.receipt.value.value.event.Some?
        && !Matches(b, a.receipt.value.value.event.value))
    || (a.indexed.Some? && Stands(v, a.indexed.value.number, a.indexed.value.hash)
        && (a.indexed.value.payload.None? || !Matches(b, a.indexed.value.payload.value)))
  }

  /** The reconciliation of a batch in flight throws for a named cause only. */
  lemma ThrowsForACause(v: View, b: Batch, c: Batch, r: Outcome, a: Answers, now: int, unproved: set<Code>, ahead: bool)
    requires Reconciles(v, b, c, r, a, now, unproved, ahead) && Live(b) && r.Threw?
    ensures
      || (r.code == RpcUnavailable && Unanswered(v, b, a))
      || (r.code == TransactionUnknown && Mismatched(v, b, a))
      || (r.code == NonceGap && !ahead && a.pendingNonce.Got? && a.pendingNonce.value < b.tx.value.nonce)
      || (r.code == InsufficientGas && a.sent.NoGas?)
      || r.code in unproved
  {
  }

  /** A batch that nothing speaks against is signed at the pending nonce, and sent if it is not mined already. */
  lemma ChargeableIsSigned(v: View, b: Batch, c: Batch, r: Outcome, p: PrepareAnswers, signer: Address, now: int,
                           refusal: Option<Code>, unproved: set<Code>, ahead: bool)
    requires Prepares(v, b, c, r, p, signer, now, refusal, unproved, ahead)
    requires unproved == {} && Chargeable(p.finalized, b.key.version) && Chargeable(p.current, b.key.version)
    requires p.processed == Got(false) && refusal.None?
    ensures p.pendingNonce.Got? && p.signature.Bytes?
    ensures c.tx == Some(SignedTx(signer, p.pendingNonce.value, b.chargeId, b.key, b.requested, p.signature.fees))
    ensures var a := p.afterwards;
      (&& a.receipt == Got(None) && a.processed == Got(false) && a.sent == Accepted(true)
       && a.pendingNonce.Got? && a.pendingNonce.value >= p.pendingNonce.value)
      ==> c.status.Submitted? && r.Waiting?
  {
  }

  /** A batch whose stake is gone at the newest final block is given up there, and no other is. */
  lemma GivenUpIffGone(v: View, b: Batch, c: Batch, r: Outcome, p: PrepareAnswers, signer: Address, now: int,
                       refusal: Option<Code>, unproved: set<Code>, ahead: bool)
    requires Prepares(v, b, c, r, p, signer, now, refusal, unproved, ahead) && !Terminal(b.status)
    ensures c.status.GivenUp? <==>
      && unproved == {} && p.finalized.Got? && !Chargeable(p.finalized, b.key.version) && NewestFinal(v) in v.known
    ensures c.status.GivenUp? ==>
      && c.receiptNumber == Some(NewestFinal(v)) && c.receiptHash == Some(v.known[NewestFinal(v)])
      && c.error ==
           Some(if p.finalized.value.version != b.key.version then PositionVersionMismatch else PositionMissing)
  {
  }
}
