/**
 Rows and values of the click-charge protocol. Only the rows of one deployment (one chain
 and one market contract) are modelled.
 */
module ChargeTypes {
  import opened Prelude
  import opened Chain

  type ClickId = nat
  type Address = string

  const MAX_UINT256: nat := 0x1_0000_0000_0000_0000_0000_0000_0000_0000_0000_0000_0000_0000_0000_0000_0000_0000 - 1

  datatype Code =
    | WaitingConfirmation | TransactionUnknown | TransactionFailed | ReorgDetected
    | InsufficientStake | InsufficientGas | NonceGap | CaptureFailed | CaptureInterrupted
    | CaptureProofOrphaned | PositionVersionMismatch | PositionMissing | PriceUnavailable
    | RpcUnavailable | OperatorMismatch | KeystoreInvalid | OtherCode

  /** One group of debt: keyword, staker and version of the stake the clicks were sold for. */
  datatype StakeKey = StakeKey(keywordId: string, staker: Address, version: nat)

  datatype ClickStatus =
    | Capturing | Suppressed | Unbilled | PricePending | Pending | Reserved | Settled | Uncollectable

  datatype Click = Click(
    status: ClickStatus,
    key: StakeKey,
    clickedAt: int,
    bid: Option<nat>,
    amount: Option<nat>,
    bidNumber: Option<nat>,
    bidHash: Option<Hash>,
    priceNumber: Option<nat>,
    priceHash: Option<Hash>,
    error: Option<Code>,
    batch: Option<nat>)

  /** The signed bytes fix the signer, the nonce and the arguments of `chargeStake`. */
  datatype SignedTx = SignedTx(
    signer: Address, nonce: nat, chargeId: nat, key: StakeKey, requested: nat, fees: nat)

  /** A transaction as a block holds it; `charge` is None for any other bytes of the wallet. */
  datatype Mined = Mined(signer: Address, nonce: nat, charge: Option<SignedTx>, reverted: bool)

  /** What the workers can learn from a block. `quotedAt` is the time of the contract's price. */
  datatype ChainBlock = ChainBlock(id: nat, mined: seq<Mined>, quotedAt: nat)

  type Hash = Block<ChainBlock>

  datatype BatchStatus =
    | Prepared | Signed | Submitted | Reconciling | Failed | Confirmed | Partial | GivenUp

  /**
   `members` is the answer of the query "clicks of this batch by click time and id"; the
   ledger invariant keeps it equal to the clicks whose `batch` field names the batch.
   */
  datatype Batch = Batch(
    runId: nat,
    chargeId: nat,
    key: StakeKey,
    members: seq<ClickId>,
    due: nat,
    requested: nat,
    charged: Option<nat>,
    shortfall: Option<nat>,
    status: BatchStatus,
    tx: Option<SignedTx>,
    receiptNumber: Option<nat>,
    receiptHash: Option<Hash>,
    error: Option<Code>,
    attempts: nat,
    nextAttemptAt: Option<int>)

  datatype Trigger = Manual | Auto
  datatype RunStatus = Queued | Running | Blocked | RunCompleted | RunPartial

  datatype Run = Run(
    trigger: Trigger, status: RunStatus, error: Option<Code>, startedAt: Option<int>, finishedAt: Option<int>)

  datatype PublicationStatus =
    | PubPrepared | PubSigned | PubSubmitted | PubReconciling | PubFailed | PubConfirmed | PubSuperseded

  /** A price that waits to be published, or was; one row for each time of quotation. */
  datatype Publication = Publication(
    quotedAt: nat,
    status: PublicationStatus,
    signer: Option<Address>,
    nonce: Option<nat>,
    receiptNumber: Option<nat>,
    receiptHash: Option<Hash>)

  datatype Checkpoint = Checkpoint(number: nat, hash: Hash)

  datatype ChargeEvent = ChargeEvent(
    chargeId: nat, keywordId: string, staker: Address, requested: nat, charged: int)

  datatype Receipt = Receipt(number: nat, hash: Hash, reverted: bool, event: Option<ChargeEvent>)

  predicate Terminal(s: BatchStatus) { s.Confirmed? || s.Partial? || s.GivenUp? }

  predicate InFlight(s: BatchStatus) { s.Signed? || s.Submitted? || s.Reconciling? }

  predicate PubInFlight(s: PublicationStatus) { s.PubSigned? || s.PubSubmitted? || s.PubReconciling? }

  predicate PubResolved(s: PublicationStatus) { s.PubFailed? || s.PubConfirmed? || s.PubSuperseded? }

  predicate Recoverable(s: RunStatus) { s.Queued? || s.Running? || s.Blocked? }

  /** A batch whose saved bytes may still be pending somewhere. */
  predicate Live(b: Batch) { b.tx.Some? && (InFlight(b.status) || b.status.Failed?) }

  /** Database order `clickedAt asc, id asc`. */
  predicate Before(clicks: map<ClickId, Click>, c: ClickId, d: ClickId)
    requires c in clicks && d in clicks
  {
    clicks[c].clickedAt < clicks[d].clickedAt || (clicks[c].clickedAt == clicks[d].clickedAt && c < d)
  }

  function Min(a: nat, b: nat): nat { if a <= b then a else b }
}
