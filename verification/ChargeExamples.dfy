/** Concrete runs: what the environment rules and conditions of the theorems about charges are for. */
module ChargeExamples {
  import opened Prelude
  import opened Chain
  import opened ChargeTypes
  import opened ChargeSteps
  import opened ChargeCheckpoint
  import opened ChargeRuns
  import opened ChargeWallet
  import opened ChargeHonesty
  import opened ChargeFlight
  import opened ChargeNonces
  import Allocation

  const ROOT: Hash := Genesis(ChainBlock(0, [], 0))

  const DEMO_KEY: StakeKey := StakeKey("k", "s", 0)

  const DEMO_CLICK: Click :=
    Click(ClickStatus.Pending, DEMO_KEY, 0, Some(1), Some(1), Some(0), Some(ROOT), None, None, None, None)

  const DEMO_START: System :=
    EMPTY_SYSTEM.(clicks := map[0 := DEMO_CLICK], runs := [Run(Manual, Queued, None, None, None)])

  function DemoTx(signer: Address, nonce: nat): SignedTx { SignedTx(signer, nonce, 7, DEMO_KEY, 1, 0) }

  /** One batch with charge id 7 for a click of amount 1, in a pass that began at time 0. */
  predicate Demo(s: System, status: BatchStatus, tx: Option<SignedTx>, head: nat, pubs: seq<Publication>) {
    && s.head == head && s.publications == pubs && s.seen == map[] && (status.Failed? ==> 0 in s.reverted)
    && |s.batches| == 1 && s.batches[0].status == status && s.batches[0].tx == tx
    && s.batches[0].chargeId == 7 && s.batches[0].key == DEMO_KEY
    && s.batches[0].due == 1 && s.batches[0].requested == 1
    && s.batches[0].members == [0] && 0 in s.clicks && s.clicks[0].(status := Pending, batch := None) == DEMO_CLICK
    && s.passStart == 0 && s.confirmations == 1
  }

  /** The manual run takes the click, with whatever other runs there are. */
  lemma ReserveDemo(s: System, tips: seq<Hash>)
    requires s.batches == [] && s.clicks == map[0 := DEMO_CLICK] && s.passStart == 0 && s.confirmations == 1
    requires s.head == 0 && s.publications == [] && s.seen == map[]
    requires |s.runs| > 0 && s.runs[0] == Run(Manual, Queued, None, None, None)
    ensures Enabled(s, Reserve(0, 5, [[0]], [7]), tips)
    ensures var t := Apply(s, Reserve(0, 5, [[0]], [7]));
      && Demo(t, Prepared, None, 0, []) && t.batches[0].runId == 0 && t.batches[0].error.None?
      && t == s.(batches := t.batches, clicks := t.clicks,
         runs := s.runs[0 := Run(Manual, Running, None, Some(5), None)])
  {
    var group: seq<ClickId> := [0];
    assert Reservable(s.clicks, group);
    assert CanReserve(s, 0, [group], [7]);
    assert Amounts(s.clicks, group) == [1];
    assert Allocation.Sum([1]) == 1 by { assert [1][..0] == []; }
    var m := s.(batches := TakeOver(s, 0), runs := s.runs[0 := StartedRun(s.runs[0], 5)]);
    var t := AddGroup(m, 0, group, 7);
    assert [group][1..] == [] && [7][1..] == [];
    assert AddGroups(m, 0, [group], [7]) == AddGroups(t, 0, [], []);
  }

  lemma EvidenceDemo(s: System, tips: seq<Hash>)
    requires |s.batches| == 1 && s.batches[0].members == [0] && s.passStart == 0
    requires 0 in s.clicks && s.clicks[0].(status := Pending, batch := None) == DEMO_CLICK
    requires |tips| > 0 && On(ROOT, tips[0])
    ensures EvidenceOk(s, 0, tips)
  {
    assert CanonicalAt(ROOT, tips, 0);
    assert ProofSeen(tips, 0, FinalBlock(s), Some(0), Some(ROOT));
  }

  predicate QuietFor(pubs: seq<Publication>, signer: Address, nonce: nat) {
    && (forall p :: 0 <= p < |pubs| ==> !PubInFlight(pubs[p].status))
    && (LatestPublication(pubs, signer).Some? ==> LatestPublication(pubs, signer).value < nonce)
  }

  /** The batch can be signed by a wallet with nothing in flight and no greater nonce in the journals. */
  lemma SignDemo(s: System, status: BatchStatus, tx: Option<SignedTx>, head: nat, pubs: seq<Publication>,
                 signer: Address, nonce: nat, at: nat, tips: seq<Hash>)
    requires Demo(s, status, tx, head, pubs) && at < |tips| && On(ROOT, tips[0]) && QuietFor(pubs, signer, nonce)
    requires (status.Prepared? && tx.None?) || (status.Failed? && tx.Some? && tx.value.signer != signer)
    ensures Enabled(s, Sign(0, DemoTx(signer, nonce), at), tips)
    ensures var t := Apply(s, Sign(0, DemoTx(signer, nonce), at));
      Demo(t, Signed, Some(DemoTx(signer, nonce)), head, pubs) && t.held == s.held
  {
    EvidenceDemo(s, tips);
    assert s.batches == [s.batches[0]] && s.batches[..0] == [];
    assert LatestCharge(s.batches, signer) == None;
  }

  // ---- building logs -----------------------------------------------------------------------------

  /** Appends a possible step. */
  lemma Grow(log: seq<Step>, e: Step, tips: seq<Hash>) returns (longer: seq<Step>)
    requires Legal(1, log, tips) && Enabled(After(1, log), e, tips)
    ensures longer == log + [e] && Legal(1, longer, tips) && After(1, longer) == Apply(After(1, log), e)
    ensures ChargeClock(longer) == Max(ChargeClock(log), ChargeTime(e)) &&
      PubClock(longer) == Max(PubClock(log), PubTime(e))
    ensures Nonces(longer, "A") ==
      if SignedNonce(e, "A").Some? then Nonces(log, "A") + [SignedNonce(e, "A").value] else Nonces(log, "A")
    ensures Honest(1, log, tips) && HonestStep(After(1, log), log, e, tips) ==> Honest(1, longer, tips)
  {
    longer := log + [e];
    assert longer[..|longer| - 1] == log;
    Extend(1, log, e, tips);
    ClockGrows(log, e);
  }

  /** A possible run with true answers, the nonces it signed for wallet A, and its clocks. */
  ghost predicate TrueRun(log: seq<Step>, tips: seq<Hash>, nonces: seq<nat>, chargeClock: nat, pubClock: nat) {
    && Legal(1, log, tips) && Honest(1, log, tips)
    && Nonces(log, "A") == nonces && ChargeClock(log) == chargeClock && PubClock(log) == pubClock
  }

  /** Appends a possible step that rests on true answers. */
  lemma GrowRun(log: seq<Step>, e: Step, tips: seq<Hash>, nonces: seq<nat>, chargeClock: nat, pubClock: nat)
    returns (longer: seq<Step>)
    requires TrueRun(log, tips, nonces, chargeClock, pubClock)
    requires Enabled(After(1, log), e, tips) && HonestStep(After(1, log), log, e, tips)
    ensures longer == log + [e] && After(1, longer) == Apply(After(1, log), e)
    ensures TrueRun(longer, tips, if SignedNonce(e, "A").Some? then nonces + [SignedNonce(e, "A").value] else nonces,
                    Max(chargeClock, ChargeTime(e)), Max(pubClock, PubTime(e)))
  {
    hide Enabled, HonestStep, Apply, SignedNonce, ChargeTime, PubTime;
    longer := Grow(log, e, tips);
  }

  lemma DemoBegins(tips: seq<Hash>) returns (log: seq<Step>)
    requires |tips| > 0
    ensures TrueRun(log, tips, [], 0, 0) && After(1, log) == DEMO_START
    ensures log == [WriteClick(0, DEMO_CLICK), OpenRun(Manual)]
  {
    log := Grow([], WriteClick(0, DEMO_CLICK), tips);
    log := Grow(log, OpenRun(Manual), tips);
  }

  lemma DemoReserved(tips: seq<Hash>) returns (log: seq<Step>)
    requires |tips| > 0
    ensures TrueRun(log, tips, [], 0, 0) && Demo(After(1, log), Prepared, None, 0, []) && After(1, log).held.None?
    ensures forall k :: 0 <= k < |log| ==> !log[k].Sign? && !log[k].Publish?
  {
    hide Enabled, Apply, TrueRun, After;
    log := DemoBegins(tips);
    ReserveDemo(After(1, log), tips);
    ReserveIsHonest(After(1, log), log, Reserve(0, 5, [[0]], [7]), tips);
    log := GrowRun(log, Reserve(0, 5, [[0]], [7]), tips, [], 0, 0);
  }

  /** The batch is signed. */
  lemma GrowSign(log: seq<Step>, tips: seq<Hash>, nonces: seq<nat>, chargeClock: nat, pubClock: nat,
                 status: BatchStatus, tx: Option<SignedTx>, head: nat, pubs: seq<Publication>, signer: Address,
                 nonce: nat, at: nat) returns (longer: seq<Step>)
    requires TrueRun(log, tips, nonces, chargeClock, pubClock) && Demo(After(1, log), status, tx, head, pubs)
    requires at >= Max(chargeClock, pubClock) && at < |tips| && On(ROOT, tips[0]) && QuietFor(pubs, signer, nonce)
    requires (status.Prepared? && tx.None?) || (status.Failed? && tx.Some? && tx.value.signer != signer)
    ensures TrueRun(longer, tips, if signer == "A" then nonces + [nonce] else nonces, at, pubClock)
    ensures Demo(After(1, longer), Signed, Some(DemoTx(signer, nonce)), head, pubs) &&
      After(1, longer).held == After(1, log).held
    ensures longer == log + [Sign(0, DemoTx(signer, nonce), at)]
  {
    SignDemo(After(1, log), status, tx, head, pubs, signer, nonce, at, tips);
    SignIsHonest(After(1, log), log, DemoTx(signer, nonce), at, tips);
    hide Enabled, HonestStep, Apply, After, Demo, Legal, Honest, Nonces, ChargeClock, PubClock;
    longer := GrowRun(log, Sign(0, DemoTx(signer, nonce), at), tips, nonces, chargeClock, pubClock);
  }

  /** The publication job moves. */
  lemma GrowPub(log: seq<Step>, tips: seq<Hash>, nonces: seq<nat>, chargeClock: nat, pubClock: nat, m: PubMove)
    returns (longer: seq<Step>)
    requires TrueRun(log, tips, nonces, chargeClock, pubClock)
    requires CanPublish(After(1, log), m, tips) && HonestMove(After(1, log), log, m, tips)
    ensures longer == log + [Publish(m)] && After(1, longer) == AfterMove(After(1, log), m)
    ensures TrueRun(longer, tips, if m.SignPub? && m.signer == "A" then nonces + [m.nonce] else nonces, chargeClock,
                    Max(pubClock, PubTime(Publish(m))))
  {
    PublishNext(After(1, log), Publish(m), tips);
    hide AfterMove, After, CanPublish, HonestMove;
    longer := GrowRun(log, Publish(m), tips, nonces, chargeClock, pubClock);
  }

  lemma ReserveIsHonest(s: System, log: seq<Step>, e: Step, tips: seq<Hash>)
    requires e.Reserve?
    ensures HonestStep(s, log, e, tips) && ChargeTime(e) == PubTime(e) == 0 && SignedNonce(e, "A").None?
  {
  }

  // ---- a chain whose dropped blocks return -----------------------------------------------------------

  /** Two blocks with the same parent, of which the first is canonical, then the second, then the first. */
  predicate Revived(a: Hash, b: Hash, tips: seq<Hash>) {
    && tips == [a, b, a] && Height(a) == Height(b) == 1 && On(ROOT, a)
    && On(a, a) && On(b, b) && !On(a, b) && !On(b, a)
  }

  /**
   When a dropped block may return, the checkpoint can be canonical again while a receipt that was
   settled in between is not, and the incremental query skips it.
   */
  lemma RevivalWouldHideAReceipt() returns (log: seq<Step>, tips: seq<Hash>)
    ensures Legal(1, log, tips) && !NoRevival(tips) && |tips| == 3
    ensures var s := After(1, log);
      && |s.batches| == 1
      && s.checkpoint.Some? && On(s.checkpoint.value.hash, tips[2])
      && ScanWouldAct(s.batches[0], tips[2]) && !InIncrementalScan(s, 0)
  {
    var a: Hash, b: Hash := Child(ROOT, ChainBlock(1, [], 0)), Child(ROOT, ChainBlock(2, [], 0));
    tips := [a, b, a];
    assert Height(ROOT) == 0 && Revived(a, b, tips);
    assert On(a, tips[0]) && On(a, tips[2]) && !On(a, tips[1]);
    hide After, Legal, On, Height;
    log := RevivedLog(a, b, tips);
  }

  lemma RevivedLog(a: Hash, b: Hash, tips: seq<Hash>) returns (log: seq<Step>)
    requires Revived(a, b, tips)
    ensures Legal(1, log, tips)
    ensures var t := After(1, log);
      && |t.batches| == 1 && t.batches[0].status.Confirmed? && t.checkpoint == Some(Checkpoint(1, a))
      && t.batches[0].receiptNumber == Some(1) && t.batches[0].receiptHash == Some(b)
  {
    hide Enabled, Apply, After, Legal, On, Height, Demo;
    log := SignedDemo(tips);
    PassDemo(After(1, log), Signed, Some(DemoTx("A", 0)), [], 2, tips);
    log := Grow(log, BeginPass(2, 0), tips);
    SettleDemo(After(1, log), b, tips);
    log := Grow(log, Settle(0, ChargeEvent(7, "k", "s", 1, 1), 1, b, 1), tips);
    SaveDemo(After(1, log), a, tips);
    log := Grow(log, SaveCheckpoint(1, a, None), tips);
  }

  lemma SignedDemo(tips: seq<Hash>) returns (log: seq<Step>)
    requires |tips| > 0 && On(ROOT, tips[0])
    ensures Legal(1, log, tips) && Demo(After(1, log), Signed, Some(DemoTx("A", 0)), 0, [])
  {
    hide After, Demo, On;
    log := DemoReserved(tips);
    NothingPublished("A", 0);
    log := GrowSign(log, tips, [], 0, 0, Prepared, None, 0, [], "A", 0, 0);
  }

  lemma PassDemo(s: System, status: BatchStatus, tx: Option<SignedTx>, pubs: seq<Publication>, head: nat,
                 tips: seq<Hash>)
    requires Demo(s, status, tx, 0, pubs) && !status.Failed? && |tips| > 0
    ensures Enabled(s, BeginPass(head, 0), tips)
    ensures Demo(Apply(s, BeginPass(head, 0)), status, tx, head, pubs)
  {
  }

  lemma NothingPublished(signer: Address, nonce: nat)
    ensures QuietFor([], signer, nonce)
  {
  }

  /** The batch of tx is settled in full by a final block that was canonical at time 1. */
  lemma SettleDemo(s: System, b: Hash, tips: seq<Hash>)
    requires Demo(s, Signed, Some(DemoTx("A", 0)), 2, [])
    requires Height(b) == 1 && CanonicalAt(b, tips, 1)
    ensures Enabled(s, Settle(0, ChargeEvent(7, "k", "s", 1, 1), 1, b, 1), tips)
    ensures var t := Apply(s, Settle(0, ChargeEvent(7, "k", "s", 1, 1), 1, b, 1));
      && |t.batches| == 1 && t.batches[0].status.Confirmed?
      && t.batches[0].receiptNumber == Some(1) && t.batches[0].receiptHash == Some(b)
      && t.seen == map[0 := 1] && t.passStart == 0 && t.confirmations == 1
  {
    hide On, Height, SettleClicks;
    MaySettleDemo(s, b, tips);
    hide Enabled;
  }

  lemma MaySettleDemo(s: System, b: Hash, tips: seq<Hash>)
    requires Demo(s, Signed, Some(DemoTx("A", 0)), 2, [])
    requires Height(b) == 1 && CanonicalAt(b, tips, 1)
    ensures Enabled(s, Settle(0, ChargeEvent(7, "k", "s", 1, 1), 1, b, 1), tips)
  {
    hide On, Height, SettleClicks;
  }

  lemma SaveDemo(s: System, a: Hash, tips: seq<Hash>)
    requires |s.batches| == 1 && s.seen == map[0 := 1] && s.passStart == 0
    requires Height(a) == 1 && CanonicalAt(a, tips, 0)
    ensures Enabled(s, SaveCheckpoint(1, a, None), tips)
    ensures var t := Apply(s, SaveCheckpoint(1, a, None));
      t.batches == s.batches && t.checkpoint == Some(Checkpoint(1, a))
  {
    hide On, Height;
  }

  // ---- a node that forgets what it mined ---------------------------------------------------------------

  function Carrier(m: Mined): Hash { Child(ROOT, ChainBlock(1, [m], 0)) }

  /** A chain of three blocks, the second of which holds one transaction. */
  function Buried(m: Mined): Hash { Child(Carrier(m), ChainBlock(2, [], 0)) }

  lemma ShortChain(m: Mined)
    ensures Height(ROOT) == 0 && Height(Carrier(m)) == 1 && Height(Buried(m)) == 2
    ensures forall b: Hash :: On(b, ROOT) <==> b == ROOT
    ensures forall b: Hash :: On(b, Carrier(m)) <==> b == ROOT || b == Carrier(m)
    ensures forall b: Hash :: On(b, Buried(m)) <==> b == ROOT || b == Carrier(m) || b == Buried(m)
  {
    forall b: Hash ensures On(b, Carrier(m)) <==> b == ROOT || b == Carrier(m) {
      assert On(b, Carrier(m)) <==> b == Carrier(m) || On(b, ROOT);
    }
    forall b: Hash ensures On(b, Buried(m)) <==> b == ROOT || b == Carrier(m) || b == Buried(m) {
      assert On(b, Buried(m)) <==> b == Buried(m) || On(b, Carrier(m));
    }
  }

  lemma ShortChainIsSane(m: Mined)
    ensures NoncesMinedOnce(Carrier(m)) && NoncesMinedOnce(Buried(m)) && PricesRise(Buried(m))
  {
    CarrierIsSane(m);
    BuriedIsSane(m);
    ShortChain(m);
    hide On, Height, NoncesMinedOnce;
  }

  lemma CarrierIsSane(m: Mined)
    ensures NoncesMinedOnce(Carrier(m))
  {
    ShortChain(m);
    hide On, Height;
    forall b: Hash, x: Mined | On(b, Carrier(m)) && x in b.payload.mined ensures b == Carrier(m) && x == m {
      assert b == ROOT || b == Carrier(m);
    }
  }

  lemma BuriedIsSane(m: Mined)
    ensures NoncesMinedOnce(Buried(m))
  {
    ShortChain(m);
    hide On, Height;
    forall b: Hash, x: Mined | On(b, Buried(m)) && x in b.payload.mined ensures b == Carrier(m) && x == m {
      assert b == ROOT || b == Carrier(m) || b == Buried(m);
    }
  }

  lemma RootIsSane()
    ensures On(ROOT, ROOT) && NoncesMinedOnce(ROOT)
  {
    assert ROOT.payload.mined == [];
    assert forall b: Hash :: On(b, ROOT) <==> b == ROOT;
    hide On;
  }

  lemma OneTipGrows(tip: Hash)
    ensures OnlyGrows([tip]) && FinalStays([tip], 0)
  {
  }

  /** When signing, failing and starting a pass rest on true answers. */
  lemma SignIsHonest(s: System, log: seq<Step>, tx: SignedTx, at: nat, tips: seq<Hash>)
    requires at >= Max(ChargeClock(log), PubClock(log))
    ensures var e := Sign(0, tx, at);
      && HonestStep(s, log, e, tips) && ChargeTime(e) == at && PubTime(e) == 0
      && SignedNonce(e, "A") == if tx.signer == "A" then Some(tx.nonce) else None
  {
  }

  lemma BeginIsHonest(s: System, log: seq<Step>, head: nat, tips: seq<Hash>)
    requires ChargeClock(log) == 0 && |tips| > 0 && head == Height(tips[0])
    ensures var e := BeginPass(head, 0);
      HonestStep(s, log, e, tips) && ChargeTime(e) == PubTime(e) == 0 && SignedNonce(e, "A").None?
  {
    assert HeadAt(head, tips, 0, 0);
  }

  lemma FailIsHonest(s: System, log: seq<Step>, tx: SignedTx, block: Hash, tips: seq<Hash>)
    requires Demo(s, Signed, Some(tx), 2, []) && ChargeMinedIn(block, tx, true)
    ensures var e := Fail(0, 1, block, 0, 0);
      HonestStep(s, log, e, tips) && ChargeTime(e) == PubTime(e) == 0 && SignedNonce(e, "A").None?
  {
  }

  /** Signed by wallet A with nonce 5, mined and reverted in a final block. */
  lemma FailedDemo(tips: seq<Hash>) returns (log: seq<Step>)
    requires tips == [Buried(Mined("A", 5, Some(DemoTx("A", 5)), true))]
    ensures TrueRun(log, tips, [5], 0, 0) && Demo(After(1, log), Failed, Some(DemoTx("A", 5)), 2, [])
  {
    var block := Carrier(Mined("A", 5, Some(DemoTx("A", 5)), true));
    ShortChain(Mined("A", 5, Some(DemoTx("A", 5)), true));
    assert On(ROOT, tips[0]) && On(block, tips[0]) && Height(tips[0]) == 2 && Height(block) == 1;
    assert ChargeMinedIn(block, DemoTx("A", 5), true);
    hide After, Demo, TrueRun, On, Height, ChargeMinedIn;
    log := DemoReserved(tips);
    NothingPublished("A", 5);
    log := GrowSign(log, tips, [], 0, 0, Prepared, None, 0, [], "A", 5, 0);
    log := GrowFailure(log, tips, block);
  }

  lemma GrowFailure(log: seq<Step>, tips: seq<Hash>, block: Hash) returns (longer: seq<Step>)
    requires TrueRun(log, tips, [5], 0, 0) && Demo(After(1, log), Signed, Some(DemoTx("A", 5)), 0, [])
    requires |tips| > 0 && Height(tips[0]) == 2 && On(block, tips[0]) && Height(block) == 1
    requires ChargeMinedIn(block, DemoTx("A", 5), true)
    ensures TrueRun(longer, tips, [5], 0, 0) && Demo(After(1, longer), Failed, Some(DemoTx("A", 5)), 2, [])
  {
    PassDemo(After(1, log), Signed, Some(DemoTx("A", 5)), [], 2, tips);
    BeginIsHonest(After(1, log), log, 2, tips);
    hide Enabled, HonestStep, Apply, After, Demo, On, Height, ChargeMinedIn, Legal, Honest, Nonces, ChargeClock,
         PubClock;
    longer := GrowRun(log, BeginPass(2, 0), tips, [5], 0, 0);
    FailDemo(After(1, longer), block, tips);
    FailIsHonest(After(1, longer), longer, DemoTx("A", 5), block, tips);
    longer := GrowRun(longer, Fail(0, 1, block, 0, 0), tips, [5], 0, 0);
  }

  lemma FailDemo(s: System, block: Hash, tips: seq<Hash>)
    requires Demo(s, Signed, Some(DemoTx("A", 5)), 2, []) && CanonicalAt(block, tips, 0) && Height(block) == 1
    ensures Enabled(s, Fail(0, 1, block, 0, 0), tips)
    ensures Demo(Apply(s, Fail(0, 1, block, 0, 0)), Failed, Some(DemoTx("A", 5)), 2, [])
  {
    hide On, Height;
  }

  lemma FreshSignPub(s: System, tx: SignedTx, nonce: nat, tips: seq<Hash>)
    requires Demo(s, Signed, Some(tx), 2, [Publication(1, PubPrepared, None, None, None, None)]) && tx.signer != "A" &&
      |tips| > 0
    ensures CanPublish(s, SignPub(0, "A", nonce, 0, 0, 0), tips)
  {
    assert s.batches == [s.batches[0]] && s.batches[..0] == [];
    assert LatestCharge(s.batches, "A") == None;
    assert s.publications[..0] == [];
    assert LatestPublication(s.publications, "A") == None;
  }

  /**
   The condition on pending nonces is needed even on a chain that never moves: if the node gives
   wallet A a nonce that the wallet has used in a final block, A signs it again once another
   wallet has signed the failed row.
   */
  lemma LyingPendingNonceRepeats() returns (log: seq<Step>, tips: seq<Hash>)
    ensures Legal(1, log, tips) && Honest(1, log, tips) && OnlyGrows(tips)
    ensures forall t :: 0 <= t < |tips| ==> NoncesMinedOnce(tips[t]) && PricesRise(tips[t])
    ensures Nonces(log, "A") == [5, 5] && !AlwaysAboveOwnMined(log, tips, "A")
  {
    var m := Mined("A", 5, Some(DemoTx("A", 5)), true);
    tips := [Buried(m)];
    ShortChain(m);
    ShortChainIsSane(m);
    OneTipGrows(Buried(m));
    assert On(ROOT, tips[0]) && tips[0].payload.quotedAt == 0;
    log := RepeatedLog(tips);
    hide After, Legal, Honest, Nonces, NoncesMinedOnce, PricesRise, OnlyGrows, FinalStays, AlwaysAboveOwnMined;
    assert Nonces(log, "A")[0] == Nonces(log, "A")[1];
    NoncesIncreaseIff(1, log, tips, "A");
  }

  lemma RepeatedLog(tips: seq<Hash>) returns (log: seq<Step>)
    requires tips == [Buried(Mined("A", 5, Some(DemoTx("A", 5)), true))]
    requires On(ROOT, tips[0]) && tips[0].payload.quotedAt == 0
    ensures TrueRun(log, tips, [5, 5], 0, 0)
  {
    hide After, Demo, TrueRun, On, AfterMove, CanPublish;
    log := FailedDemo(tips);
    NothingPublished("B", 0);
    log := GrowSign(log, tips, [5], 0, 0, Failed, Some(DemoTx("A", 5)), 2, [], "B", 0, 0);
    PrepareDemo(After(1, log), tips);
    log := GrowPub(log, tips, [5], 0, 0, Prepare(1));
    FreshSignPub(After(1, log), DemoTx("B", 0), 5, tips);
    RunClocks(log, tips, [5], 0, 0);
    log := GrowPub(log, tips, [5], 0, 0, SignPub(0, "A", 5, 0, 0, 0));
    assert [5] + [5] == [5, 5];
  }

  lemma PrepareDemo(s: System, tips: seq<Hash>)
    requires Demo(s, Signed, Some(DemoTx("B", 0)), 2, [])
    ensures CanPublish(s, Prepare(1), tips)
    ensures Demo(AfterMove(s, Prepare(1)), Signed, Some(DemoTx("B", 0)), 2,
      [Publication(1, PubPrepared, None, None, None, None)])
  {
  }

  lemma RunClocks(log: seq<Step>, tips: seq<Hash>, nonces: seq<nat>, chargeClock: nat, pubClock: nat)
    requires TrueRun(log, tips, nonces, chargeClock, pubClock)
    ensures ChargeClock(log) == chargeClock && PubClock(log) == pubClock
  {
  }

  // ---- a row resolved and written back -----------------------------------------------------------------

  const FRESH_PUB: Publication := Publication(1, PubPrepared, None, None, None, None)

  const SENT_PUB: Publication := Publication(1, PubSigned, Some("A"), Some(0), None, None)

  function DonePub(c: Hash): Publication { Publication(1, PubConfirmed, Some("A"), Some(0), Some(1), Some(c)) }

  /** The state of the clash run: the publication table and the row that the job holds. */
  predicate ClashState(s: System, status: BatchStatus, tx: Option<SignedTx>, pubs: seq<Publication>,
                       held: Option<nat>) {
    Demo(s, status, tx, 0, pubs) && s.held == held
  }

  lemma PrepareFirst(s: System, tips: seq<Hash>)
    requires ClashState(s, Prepared, None, [], None)
    ensures CanPublish(s, Prepare(1), tips)
    ensures ClashState(AfterMove(s, Prepare(1)), Prepared, None, [FRESH_PUB], None)
  {
  }

  lemma PublishFirst(s: System, tips: seq<Hash>)
    requires ClashState(s, Prepared, None, [FRESH_PUB], None) && |tips| > 0
    ensures CanPublish(s, SignPub(0, "A", 0, 0, 0, 0), tips)
    ensures ClashState(AfterMove(s, SignPub(0, "A", 0, 0, 0, 0)), Prepared, None, [SENT_PUB], Some(0))
  {
    assert s.batches == [s.batches[0]] && s.batches[..0] == [];
    assert LatestCharge(s.batches, "A") == None;
    assert s.publications[..0] == [];
    assert LatestPublication(s.publications, "A") == None;
    assert WalletFree(s, "A", None, Some(0));
  }

  /** The job ends, the next one takes the row, and finds it mined in a final block. */
  lemma ResolveFirst(s: System, c: Hash, tips: seq<Hash>)
    requires ClashState(s, Prepared, None, [SENT_PUB], Some(0)) && |tips| == 2 && CanonicalAt(c, tips, 1) &&
      Height(c) == 1
    ensures CanPublish(s, Release, tips)
    ensures var t := AfterMove(s, Release);
      && CanPublish(t, Take(0), tips)
      && var u := AfterMove(t, Take(0));
      && CanPublish(u, Resolve(0, PubConfirmed, 1, 1, c, 1), tips) && OwnsNonce(u, 0)
      && u.publications[0].signer == Some("A") && u.publications[0].nonce == Some(0)
      && ClashState(AfterMove(u, Resolve(0, PubConfirmed, 1, 1, c, 1)), Prepared, None, [DonePub(c)], Some(0))
  {
    hide On, Height;
  }

  lemma DoneIsQuiet(c: Hash)
    ensures QuietFor([DonePub(c)], "A", 1)
  {
    assert [DonePub(c)][..0] == [];
  }

  lemma FailClashes(s: System, c: Hash, tips: seq<Hash>)
    requires ClashState(s, Signed, Some(DemoTx("A", 1)), [DonePub(c)], Some(0))
    ensures CanPublish(s, FailJob, tips) && !AtMostOneInFlight(AfterMove(s, FailJob), "A")
  {
    var t := AfterMove(s, FailJob);
    assert ChargeInFlight(t, "A", 0) && PublicationInFlight(t, "A", 0);
  }

  lemma PendingGrows(log: seq<Step>, e: Step, tips: seq<Hash>)
    requires PendingHonest(log, tips) && PendingTrue(e, tips)
    ensures PendingHonest(log + [e], tips)
  {
  }

  lemma NothingPending(log: seq<Step>, tips: seq<Hash>)
    requires forall k :: 0 <= k < |log| ==> !log[k].Sign? && !log[k].Publish?
    ensures PendingHonest(log, tips)
  {
  }

  /**
   The error handler can leave two rows of a wallet in flight although every answer is true and
   the chain only grows: the publication job resolves its row, the charge worker signs with the
   same wallet, and the job then fails and writes the row back as unresolved.
   */
  lemma ErrorHandlerCanClash() returns (log: seq<Step>, tips: seq<Hash>)
    ensures Legal(1, log, tips) && Honest(1, log, tips) && PendingHonest(log, tips) && OnlyGrows(tips)
    ensures forall t :: 0 <= t < |tips| ==> NoncesMinedOnce(tips[t])
    ensures !AtMostOneInFlight(After(1, log), "A")
  {
    hide Legal, Honest, PendingHonest, NoncesMinedOnce, OnlyGrows, AtMostOneInFlight, ClashFacts, After, Carrier, On,
         Height;
    var c := Carrier(Mined("A", 0, None, false));
    ClashChain(c);
    ClashFactsHold(c);
    tips := [ROOT, c];
    log := WholeClashLog(c);
  }

  /** The block in which nonce 0 of wallet A is mined, and the root before it. */
  ghost predicate ClashFacts(c: Hash) {
    && On(ROOT, ROOT) && On(c, c) && Height(c) == 1 && MinedIn(c, "A", 0)
    && (forall b: Hash, n: nat :: On(b, ROOT) ==> !MinedIn(b, "A", n))
    && (forall b: Hash, n: nat :: On(b, c) && MinedIn(b, "A", n) ==> n < 1)
  }

  lemma ClashFactsHold(c: Hash)
    requires c == Carrier(Mined("A", 0, None, false))
    ensures ClashFacts(c)
  {
    hide NoncesMinedOnce, OnlyGrows;
    ClashChain(c);
    ClashMined(c);
  }

  lemma WholeClashLog(c: Hash) returns (log: seq<Step>)
    requires ClashFacts(c)
    ensures Legal(1, log, [ROOT, c]) && Honest(1, log, [ROOT, c]) && PendingHonest(log, [ROOT, c])
    ensures !AtMostOneInFlight(After(1, log), "A")
  {
    hide After, Legal, Honest, AtMostOneInFlight, Demo, TrueRun, PendingHonest, ClashFacts, ClashState;
    log := ResolvedLog(c, [ROOT, c]);
    log := ClashLog(log, c, [ROOT, c]);
  }

  lemma ClashChain(c: Hash)
    requires c == Carrier(Mined("A", 0, None, false))
    ensures NoncesMinedOnce(ROOT) && NoncesMinedOnce(c) && OnlyGrows([ROOT, c])
    ensures On(ROOT, ROOT) && On(c, c) && Height(c) == 1
  {
    ShortChain(Mined("A", 0, None, false));
    ShortChainIsSane(Mined("A", 0, None, false));
    RootIsSane();
    hide NoncesMinedOnce, On, Height;
    assert On(ROOT, c) && On(c, c);
  }

  lemma ClashMined(c: Hash)
    requires c == Carrier(Mined("A", 0, None, false))
    ensures MinedIn(c, "A", 0)
    ensures forall b: Hash, n: nat :: On(b, ROOT) ==> !MinedIn(b, "A", n)
    ensures forall b: Hash, n: nat :: On(b, c) && MinedIn(b, "A", n) ==> n < 1
  {
    ShortChain(Mined("A", 0, None, false));
    hide On, Height;
    assert c.payload.mined[0] == Mined("A", 0, None, false) && |c.payload.mined| == 1;
  }

  lemma ResolvedLog(c: Hash, tips: seq<Hash>) returns (log: seq<Step>)
    requires tips == [ROOT, c] && ClashFacts(c)
    ensures TrueRun(log, tips, [0], 0, 1) && PendingHonest(log, tips)
    ensures ClashState(After(1, log), Prepared, None, [DonePub(c)], Some(0))
  {
    hide After, TrueRun, On, Height, MinedIn, Demo, AfterMove, CanPublish, HonestMove, PendingHonest;
    log := PublishedLog(c, tips);
    ResolveFirst(After(1, log), c, tips);
    QuietMoveIsTrue(After(1, log), log, Release, tips);
    PendingGrows(log, Publish(Release), tips);
    log := GrowPub(log, tips, [0], 0, 0, Release);
    QuietMoveIsTrue(After(1, log), log, Take(0), tips);
    PendingGrows(log, Publish(Take(0)), tips);
    log := GrowPub(log, tips, [0], 0, 0, Take(0));
    ResolveIsTrue(After(1, log), log, c, tips);
    PendingGrows(log, Publish(Resolve(0, PubConfirmed, 1, 1, c, 1)), tips);
    log := GrowPub(log, tips, [0], 0, 0, Resolve(0, PubConfirmed, 1, 1, c, 1));
  }

  lemma PublishedLog(c: Hash, tips: seq<Hash>) returns (log: seq<Step>)
    requires tips == [ROOT, c] && ClashFacts(c)
    ensures TrueRun(log, tips, [0], 0, 0) && PendingHonest(log, tips)
    ensures ClashState(After(1, log), Prepared, None, [SENT_PUB], Some(0))
  {
    hide After, TrueRun, On, MinedIn, Demo, AfterMove, CanPublish, HonestMove, PendingHonest;
    log := DemoReserved(tips);
    NothingPending(log, tips);
    PrepareFirst(After(1, log), tips);
    QuietMoveIsTrue(After(1, log), log, Prepare(1), tips);
    PendingGrows(log, Publish(Prepare(1)), tips);
    log := GrowPub(log, tips, [], 0, 0, Prepare(1));
    PublishFirst(After(1, log), tips);
    RunClocks(log, tips, [], 0, 0);
    SignPubIsTrue(After(1, log), log, tips);
    PendingGrows(log, Publish(SignPub(0, "A", 0, 0, 0, 0)), tips);
    log := GrowPub(log, tips, [], 0, 0, SignPub(0, "A", 0, 0, 0, 0));
    assert [] + [0] == [0];
  }

  lemma QuietMoveIsTrue(s: System, log: seq<Step>, m: PubMove, tips: seq<Hash>)
    requires m.Prepare? || m.Take? || m.Release? || m.FailJob?
    ensures HonestMove(s, log, m, tips) && PendingTrue(Publish(m), tips) && PubTime(Publish(m)) == 0
  {
  }

  lemma SignPubIsTrue(s: System, log: seq<Step>, tips: seq<Hash>)
    requires ChargeClock(log) == PubClock(log) == 0 && |tips| == 2 && tips[0] == ROOT && ClashFacts(tips[1])
    ensures var m := SignPub(0, "A", 0, 0, 0, 0);
      HonestMove(s, log, m, tips) && PendingTrue(Publish(m), tips) && PubTime(Publish(m)) == 0
  {
    hide On, MinedIn;
  }

  lemma ResolveIsTrue(s: System, log: seq<Step>, c: Hash, tips: seq<Hash>)
    requires |tips| == 2 && tips[1] == c && ClashFacts(c)
    requires OwnsNonce(s, 0) && s.publications[0].signer == Some("A") && s.publications[0].nonce == Some(0)
    ensures var m := Resolve(0, PubConfirmed, 1, 1, c, 1);
      HonestMove(s, log, m, tips) && PendingTrue(Publish(m), tips) && PubTime(Publish(m)) == 1
  {
    hide On, MinedIn, Height;
    assert HeadAt(1, tips, 0, 1);
  }

  /** The charge worker signs with the wallet; then the publication job fails. */
  lemma ClashLog(before: seq<Step>, c: Hash, tips: seq<Hash>) returns (log: seq<Step>)
    requires TrueRun(before, tips, [0], 0, 1) && PendingHonest(before, tips)
    requires ClashState(After(1, before), Prepared, None, [DonePub(c)], Some(0))
    requires tips == [ROOT, c] && ClashFacts(c)
    ensures Legal(1, log, tips) && Honest(1, log, tips) && PendingHonest(log, tips)
    ensures !AtMostOneInFlight(After(1, log), "A")
  {
    hide After, On, MinedIn, Demo, AfterMove, CanPublish, HonestMove, PendingHonest, AtMostOneInFlight, QuietFor;
    DoneIsQuiet(c);
    log := GrowSign(before, tips, [0], 0, 1, Prepared, None, 0, [DonePub(c)], "A", 1, 1);
    SignIsTrue(c, tips);
    PendingGrows(before, Sign(0, DemoTx("A", 1), 1), tips);
    FailClashes(After(1, log), c, tips);
    QuietMoveIsTrue(After(1, log), log, FailJob, tips);
    PendingGrows(log, Publish(FailJob), tips);
    log := GrowPub(log, tips, [0] + [1], 1, 1, FailJob);
  }

  lemma SignIsTrue(c: Hash, tips: seq<Hash>)
    requires tips == [ROOT, c] && ClashFacts(c)
    ensures PendingTrue(Sign(0, DemoTx("A", 1), 1), tips)
  {
    hide On, MinedIn;
  }

  // ---- a closed run marked blocked -----------------------------------------------------------------------

  const TWO_RUNS: System :=
    DEMO_START.(checkpoint := Some(Checkpoint(0, ROOT)),
               runs := [Run(Manual, Queued, None, None, None), Run(Auto, Queued, None, None, None)])

  lemma JobBegins(tips: seq<Hash>)
    requires tips == [ROOT]
    ensures Enabled(DEMO_START, BeginPass(0, 0), tips) && Apply(DEMO_START, BeginPass(0, 0)) == DEMO_START
    ensures Enabled(DEMO_START, SaveCheckpoint(0, ROOT, None), tips)
  {
    assert On(ROOT, tips[0]) && CanonicalAt(ROOT, tips, 0);
  }

  lemma JobSaves()
    ensures var t := Apply(DEMO_START, SaveCheckpoint(0, ROOT, None));
      t == DEMO_START.(checkpoint := Some(Checkpoint(0, ROOT))) && Apply(t, OpenRun(Auto)) == TWO_RUNS
  {
  }

  const JOB_START: seq<Step> := [WriteClick(0, DEMO_CLICK), OpenRun(Manual)]

  const JOB_OPENED: seq<Step> := [BeginPass(0, 0), SaveCheckpoint(0, ROOT, None), OpenRun(Auto)]

  const JOB_CLOSED: seq<Step> := [Reserve(0, 5, [[0]], [7]), Refresh(1, 5, None)]

  const JOB_BLOCKED: seq<Step> :=
    [Note(0, InsufficientGas), Refresh(0, 5, Some(InsufficientGas)), BlockRun(1, InsufficientGas)]

  /** The job saves its checkpoint and, as a group is due, opens an automatic run behind the manual one. */
  lemma JobOpensRun(tips: seq<Hash>) returns (log: seq<Step>)
    requires tips == [ROOT]
    ensures Legal(1, log, tips) && After(1, log) == TWO_RUNS && log == JOB_START + JOB_OPENED
  {
    hide After, Legal, Nonces, ChargeClock, PubClock, Honest, Enabled, Apply, TrueRun;
    log := DemoBegins(tips);
    RunIsLegal(log, tips);
    JobBegins(tips);
    JobSaves();
    log := Grow(log, BeginPass(0, 0), tips);
    log := Grow(log, SaveCheckpoint(0, ROOT, None), tips);
    OpenRunEnabled(After(1, log), tips);
    log := Grow(log, OpenRun(Auto), tips);
  }

  lemma RunIsLegal(log: seq<Step>, tips: seq<Hash>)
    requires TrueRun(log, tips, [], 0, 0)
    ensures Legal(1, log, tips)
  {
  }

  lemma OpenRunEnabled(s: System, tips: seq<Hash>)
    ensures Enabled(s, OpenRun(Auto), tips)
  {
  }

  /**
   One job. The manual run takes over from the automatic one, which is refreshed and thereby
   closed; the manual run's batch cannot be signed for lack of gas, and that blocks the automatic
   run, which the job had listed before. It keeps its finish time.
   */
  lemma StaleBlockIsReachable(tips: seq<Hash>) returns (log: seq<Step>)
    requires tips == [ROOT]
    ensures Legal(1, log, tips) && log == JOB_START + JOB_OPENED + JOB_CLOSED + JOB_BLOCKED
    ensures |After(1, log).runs| == 2 && After(1, log).runs[1].status.Blocked? &&
      After(1, log).runs[1].finishedAt == Some(5)
    ensures !FinishTimesMatch(After(1, log))
  {
    hide After, Legal, Nonces, ChargeClock, PubClock, Honest, Enabled, Apply, ChargeTime, PubTime, SignedNonce,
         HonestStep;
    log := JobClosesRun(tips);
    RefusedDemo(After(1, log), tips);
    log := Grow(log, Note(0, InsufficientGas), tips);
    log := Grow(log, Refresh(0, 5, Some(InsufficientGas)), tips);
    log := Grow(log, BlockRun(1, InsufficientGas), tips);
    assert !Done(After(1, log).runs[1]);
  }

  lemma JobClosesRun(tips: seq<Hash>) returns (log: seq<Step>)
    requires tips == [ROOT]
    ensures Legal(1, log, tips) && log == JOB_START + JOB_OPENED + JOB_CLOSED
    ensures var s := After(1, log); |s.batches| == 1 && |s.runs| == 2 && s.runs[1].finishedAt == Some(5)
  {
    hide After, Legal, Nonces, ChargeClock, PubClock, Honest, Enabled, Apply, ChargeTime, PubTime, SignedNonce,
         HonestStep, Demo;
    log := JobOpensRun(tips);
    ReserveDemo(TWO_RUNS, tips);
    DemoHasOne(Apply(TWO_RUNS, Reserve(0, 5, [[0]], [7])));
    log := Grow(log, Reserve(0, 5, [[0]], [7]), tips);
    ClosedDemo(After(1, log), tips);
    log := Grow(log, Refresh(1, 5, None), tips);
  }

  lemma DemoHasOne(s: System)
    requires Demo(s, Prepared, None, 0, [])
    ensures |s.batches| == 1
  {
  }

  lemma ClosedDemo(s: System, tips: seq<Hash>)
    requires |s.batches| == 1 && s.batches[0].runId == 0 && |s.runs| == 2 &&
      s.runs[1] == Run(Auto, Queued, None, None, None)
    ensures Enabled(s, Refresh(1, 5, None), tips)
    ensures var t := Apply(s, Refresh(1, 5, None));
      t == s.(runs := t.runs) && |t.runs| == 2 && t.runs[1] == Run(Auto, RunCompleted, None, None, Some(5))
  {
    assert s.batches[1..] == [];
  }

  lemma RefusedDemo(s: System, tips: seq<Hash>)
    requires |s.batches| == 1 && |s.runs| == 2 && s.runs[1].finishedAt == Some(5)
    ensures Enabled(s, Note(0, InsufficientGas), tips)
    ensures var t := Apply(s, Note(0, InsufficientGas));
      && Enabled(t, Refresh(0, 5, Some(InsufficientGas)), tips)
      && var u := Apply(t, Refresh(0, 5, Some(InsufficientGas)));
      && Enabled(u, BlockRun(1, InsufficientGas), tips)
      && var v := Apply(u, BlockRun(1, InsufficientGas));
      |v.runs| == 2 && v.runs[1].status.Blocked? && v.runs[1].finishedAt == Some(5)
  {
    hide RefreshedRun;
  }
}
