/**
 No nonce of a wallet is ever signed twice, whichever wallets the rows pass through, while final
 blocks stay. What it takes is an honest pending nonce, and exactly that.
 */
module ChargeNonces {
  import opened Prelude
  import opened Chain
  import opened ChargeTypes
  import opened ChargeSteps
  import opened ChargeLedger
  import opened ChargeCheckpoint
  import opened ChargeWallet
  import opened ChargeHonesty

  ghost predicate StaysFrom(b: Hash, tips: seq<Hash>, f: nat) {
    f < |tips| && forall j :: f <= j < |tips| ==> On(b, tips[j])
  }

  /** The nonce was mined in a block that has been canonical since some reading, and stays so. */
  ghost predicate Consumed(tips: seq<Hash>, clock: nat, signer: Address, nonce: nat) {
    exists b: Hash, f: nat :: f <= clock && StaysFrom(b, tips, f) && MinedIn(b, signer, nonce)
  }

  /** The contract holds a price of this time or a later one, and will. */
  ghost predicate PriceHeld(tips: seq<Hash>, clock: nat, quotedAt: nat) {
    exists b: Hash, f: nat :: f <= clock && StaysFrom(b, tips, f) && b.payload.quotedAt >= quotedAt
  }

  ghost predicate HeadIs(s: System, tips: seq<Hash>) {
    s.head == 0 || HeadAt(s.head, tips, 0, s.passStart)
  }

  ghost predicate RevertedOk(s: System, i: nat, tips: seq<Hash>, clock: nat) {
    i in s.reverted ==>
      i < |s.batches| && s.batches[i].tx.Some? &&
        Consumed(tips, clock, s.batches[i].tx.value.signer, s.batches[i].tx.value.nonce)
  }

  /** A row that is not in flight has used its nonce, or will not be signed again. */
  ghost predicate PubOk(s: System, p: nat, tips: seq<Hash>, clock: nat)
    requires p < |s.publications|
  {
    var row := s.publications[p];
    row.nonce.Some? ==>
      && row.signer.Some?
      && (PubInFlight(row.status) || Consumed(tips, clock, row.signer.value, row.nonce.value) ||
          PriceHeld(tips, clock, row.quotedAt))
  }

  ghost predicate NonceInv(s: System, tips: seq<Hash>, chargeClock: nat, pubClock: nat) {
    && HeadIs(s, tips)
    && (forall i: nat :: RevertedOk(s, i, tips, chargeClock))
    && (forall p :: 0 <= p < |s.publications| ==> PubOk(s, p, tips, pubClock))
  }

  /** What is final for a head that some tip had is on every later branch. */
  lemma FinalIsKept(tips: seq<Hash>, depth: nat, hash: Hash, head: nat, at: nat)
    requires FinalStays(tips, depth) && HeadAt(head, tips, 0, at) && CanonicalAt(hash, tips, at)
    requires Height(hash) == 0 || Height(hash) + depth <= head
    ensures StaysFrom(hash, tips, at)
  {
    var t :| 0 <= t <= at && t < |tips| && head == Height(tips[t]);
    AtIsOn(tips[t], Height(hash));
    var b := At(tips[t], Height(hash));
    assert On(b, tips[at]);
    SameHeight(b, hash, tips[at]);
  }

  lemma LaterClock(tips: seq<Hash>, clock: nat, later: nat)
    requires clock <= later
    ensures forall signer, nonce :: Consumed(tips, clock, signer, nonce) ==> Consumed(tips, later, signer, nonce)
    ensures forall quotedAt :: PriceHeld(tips, clock, quotedAt) ==> PriceHeld(tips, later, quotedAt)
  {
    forall signer, nonce | Consumed(tips, clock, signer, nonce) ensures Consumed(tips, later, signer, nonce) {
      var b: Hash, f: nat :| f <= clock && StaysFrom(b, tips, f) && MinedIn(b, signer, nonce);
      assert f <= later;
    }
    forall quotedAt | PriceHeld(tips, clock, quotedAt) ensures PriceHeld(tips, later, quotedAt) {
      var b: Hash, f: nat :| f <= clock && StaysFrom(b, tips, f) && b.payload.quotedAt >= quotedAt;
      assert f <= later;
    }
  }

  lemma ConsumedIsMined(tips: seq<Hash>, clock: nat, signer: Address, nonce: nat, at: nat)
    requires Consumed(tips, clock, signer, nonce) && clock <= at < |tips|
    ensures MinedOn(tips[at], signer, nonce)
  {
    var b: Hash, f: nat :| f <= clock && StaysFrom(b, tips, f) && MinedIn(b, signer, nonce);
    assert On(b, tips[at]);
  }

  // ---- steps -----------------------------------------------------------------------------------------

  /** A final revert of a batch's bytes uses its nonce for good. */
  lemma RevertConsumes(s: System, log: seq<Step>, e: Step, tips: seq<Hash>)
    requires s.confirmations >= 1 && FinalStays(tips, s.confirmations - 1) && HeadIs(s, tips)
    requires (e.Fail? || e.StillFailed?) && Enabled(s, e, tips) && HonestStep(s, log, e, tips)
    ensures e.batch < |s.batches| && s.batches[e.batch].tx.Some?
    ensures Consumed(tips, e.at, s.batches[e.batch].tx.value.signer, s.batches[e.batch].tx.value.nonce)
  {
    var tx := s.batches[e.batch].tx.value;
    var t :| 0 <= t <= s.passStart && t < |tips| && s.head == Height(tips[t]);
    FinalIsKept(tips, s.confirmations - 1, e.hash, s.head, e.at);
    var m := Mined(tx.signer, tx.nonce, Some(tx), true);
    var k :| 0 <= k < |e.hash.payload.mined| && e.hash.payload.mined[k] == m;
    assert MinedIn(e.hash, tx.signer, tx.nonce);
  }

  lemma SameRevertedKeepInv(s: System, t: System, tips: seq<Hash>, clock: nat, later: nat, pubClock: nat)
    requires NonceInv(s, tips, clock, pubClock) && clock <= later && |s.batches| <= |t.batches|
    requires t.publications == s.publications && t.head == s.head && t.passStart == s.passStart
    requires forall i :: i in t.reverted ==> i in s.reverted && (i < |s.batches| ==> t.batches[i].tx == s.batches[i].tx)
    ensures NonceInv(t, tips, later, pubClock)
  {
    LaterClock(tips, clock, later);
    forall i: nat ensures RevertedOk(t, i, tips, later) {
      assert RevertedOk(s, i, tips, clock);
    }
    forall p | 0 <= p < |t.publications| ensures PubOk(t, p, tips, pubClock) {
      assert PubOk(s, p, tips, pubClock);
    }
  }

  lemma RevertKeepsInv(s: System, log: seq<Step>, e: Step, tips: seq<Hash>, pubClock: nat)
    requires s.confirmations >= 1 && FinalStays(tips, s.confirmations - 1)
    requires NonceInv(s, tips, ChargeClock(log), pubClock)
    requires (e.Fail? || e.StillFailed?) && Enabled(s, e, tips) && StepFits(s, e) && HonestStep(s, log, e, tips)
    ensures NonceInv(Next(s, e), tips, Max(ChargeClock(log), e.at), pubClock)
  {
    var t, later := Next(s, e), Max(ChargeClock(log), e.at);
    RevertConsumes(s, log, e, tips);
    LaterClock(tips, ChargeClock(log), later);
    LaterClock(tips, e.at, later);
    forall i: nat ensures RevertedOk(t, i, tips, later) {
      assert RevertedOk(s, i, tips, ChargeClock(log));
    }
    forall p | 0 <= p < |t.publications| ensures PubOk(t, p, tips, pubClock) {
      assert PubOk(s, p, tips, pubClock);
    }
  }

  lemma ReserveKeepsNonces(s: System, e: Step, tips: seq<Hash>, clock: nat, pubClock: nat)
    requires NonceInv(s, tips, clock, pubClock) && e.Reserve? && StepFits(s, e)
    ensures NonceInv(Next(s, e), tips, clock, pubClock)
  {
    var m := s.(batches := TakeOver(s, e.run), runs := s.runs[e.run := StartedRun(s.runs[e.run], e.cutoff)]);
    AddGroupsSeen(m, e.run, e.groups, e.chargeIds);
    forall i | i in Next(s, e).reverted
      ensures i in s.reverted && (i < |s.batches| ==> Next(s, e).batches[i].tx == s.batches[i].tx) {
      assert RevertedOk(s, i, tips, clock);
    }
    SameRevertedKeepInv(s, Next(s, e), tips, clock, clock, pubClock);
  }

  /** The price is older than what the contract holds, so a row that gave way to it is not signed again. */
  lemma NoSignBehindPrice(s: System, log: seq<Step>, m: PubMove, tips: seq<Hash>)
    requires m.SignPub? && CanPublish(s, m, tips) && HonestMove(s, log, m, tips)
    requires forall t :: 0 <= t < |tips| ==> PricesRise(tips[t])
    ensures !PriceHeld(tips, PubClock(log), s.publications[m.pub].quotedAt)
  {
    if PriceHeld(tips, PubClock(log), s.publications[m.pub].quotedAt) {
      var b: Hash, f: nat :|
        f <= PubClock(log) && StaysFrom(b, tips, f) && b.payload.quotedAt >= s.publications[m.pub].quotedAt;
      assert On(b, tips[m.quotedTime]) && On(tips[m.quotedTime], tips[m.quotedTime]);
    }
  }

  lemma ResolveConsumes(s: System, log: seq<Step>, m: PubMove, tips: seq<Hash>)
    requires s.confirmations >= 1 && FinalStays(tips, s.confirmations - 1)
    requires m.Resolve? && CanPublish(s, m, tips) && HonestMove(s, log, m, tips)
    ensures Consumed(tips, m.at, s.publications[m.pub].signer.value, s.publications[m.pub].nonce.value)
  {
    FinalIsKept(tips, s.confirmations - 1, m.hash, m.head, m.at);
  }

  lemma ConsumeHoldsPrice(s: System, log: seq<Step>, m: PubMove, tips: seq<Hash>)
    requires s.confirmations >= 1 && FinalStays(tips, s.confirmations - 1)
    requires m.Consume? && CanPublish(s, m, tips) && HonestMove(s, log, m, tips)
    ensures PriceHeld(tips, m.quotedTime, s.publications[m.pub].quotedAt)
  {
    var b: Hash :| On(b, tips[m.quotedTime]) && PubFinal(s, m.head, Height(b)) && b.payload.quotedAt == m.quoted;
    FinalIsKept(tips, s.confirmations - 1, b, m.head, m.quotedTime);
  }

  lemma MoveKeepsNonces(s: System, log: seq<Step>, m: PubMove, tips: seq<Hash>, chargeClock: nat)
    requires s.confirmations >= 1 && FinalStays(tips, s.confirmations - 1)
    requires NonceInv(s, tips, chargeClock, PubClock(log))
    requires MoveFits(s, m) && CanPublish(s, m, tips) && HonestMove(s, log, m, tips)
    ensures NonceInv(AfterMove(s, m), tips, chargeClock, Max(PubClock(log), PubTime(Publish(m))))
  {
    var t, later := AfterMove(s, m), Max(PubClock(log), PubTime(Publish(m)));
    LaterClock(tips, PubClock(log), later);
    if m.Resolve? {
      ResolveConsumes(s, log, m, tips);
      LaterClock(tips, m.at, later);
    } else if m.Consume? {
      ConsumeHoldsPrice(s, log, m, tips);
      LaterClock(tips, m.quotedTime, later);
    }
    hide Consumed, PriceHeld;
    forall p | 0 <= p < |t.publications| ensures PubOk(t, p, tips, later) {
      assert p < |s.publications| ==> PubOk(s, p, tips, PubClock(log));
    }
    forall i: nat ensures RevertedOk(t, i, tips, chargeClock) {
      assert RevertedOk(s, i, tips, chargeClock);
    }
  }

  lemma BeginKeepsNonces(s: System, log: seq<Step>, e: Step, tips: seq<Hash>, clock: nat, pubClock: nat)
    requires NonceInv(s, tips, clock, pubClock) && e.BeginPass? && StepFits(s, e) && HonestStep(s, log, e, tips)
    ensures NonceInv(Next(s, e), tips, Max(clock, e.start), pubClock)
  {
    var t := Next(s, e);
    var now :| ChargeClock(log) <= now <= e.start && now < |tips| && e.head == Height(tips[now]);
    forall p | 0 <= p < |t.publications| ensures PubOk(t, p, tips, pubClock) {
      assert PubOk(s, p, tips, pubClock);
    }
  }

  lemma StepKeepsNonces(s: System, log: seq<Step>, e: Step, tips: seq<Hash>)
    requires s.confirmations >= 1 && FinalStays(tips, s.confirmations - 1)
    requires NonceInv(s, tips, ChargeClock(log), PubClock(log))
    requires Enabled(s, e, tips) && StepFits(s, e) && HonestStep(s, log, e, tips)
    ensures NonceInv(Next(s, e), tips, Max(ChargeClock(log), ChargeTime(e)), Max(PubClock(log), PubTime(e)))
  {
    hide AddGroups, SettleClicks, Mark, RefreshedRun, TakenOver, CanSave, CanReserve, WalletFree, LatestNonce,
         AfterMove, CanPublish, NonceInv, FinalStays, Undecided, Truthful;
    if e.Reserve? {
      ReserveKeepsNonces(s, e, tips, ChargeClock(log), PubClock(log));
    } else if e.Fail? || e.StillFailed? {
      RevertKeepsInv(s, log, e, tips, PubClock(log));
    } else if e.BeginPass? {
      BeginKeepsNonces(s, log, e, tips, ChargeClock(log), PubClock(log));
    } else if e.Publish? {
      MoveKeepsNonces(s, log, e.move, tips, ChargeClock(log));
    } else {
      SameRevertedKeepInv(s, Next(s, e), tips, ChargeClock(log), Max(ChargeClock(log), ChargeTime(e)), PubClock(log));
    }
  }

  lemma {:induction false} NoncesAlwaysAccountedFor(confirmations: nat, log: seq<Step>, tips: seq<Hash>)
    requires confirmations >= 1 && FinalStays(tips, confirmations - 1)
    requires Legal(confirmations, log, tips) && Honest(confirmations, log, tips)
    ensures After(confirmations, log).confirmations == confirmations
    ensures NonceInv(After(confirmations, log), tips, ChargeClock(log), PubClock(log))
  {
    hide Next, StepFits, Enabled, LedgerInv, HonestStep, FinalStays;
    if log != [] {
      var before := log[..|log| - 1];
      NoncesAlwaysAccountedFor(confirmations, before, tips);
      LedgerAlwaysHolds(confirmations, before, tips);
      StepKeepsLedger(After(confirmations, before), log[|log| - 1], tips);
      ConfirmationsStay(After(confirmations, before), log[|log| - 1]);
      StepKeepsNonces(After(confirmations, before), before, log[|log| - 1], tips);
    }
  }

  lemma ConfirmationsStay(s: System, e: Step)
    requires StepFits(s, e)
    ensures Next(s, e).confirmations == s.confirmations
  {
    if e.Reserve? {
      var m := s.(batches := TakeOver(s, e.run), runs := s.runs[e.run := StartedRun(s.runs[e.run], e.cutoff)]);
      AddGroupsSeen(m, e.run, e.groups, e.chargeIds);
    }
  }

  // ---- over whole runs -------------------------------------------------------------------------------------

  /** A nonce is in a journal, or it is used for good. */
  ghost predicate Accounted(s: System, tips: seq<Hash>, clock: nat, signer: Address, nonce: nat) {
    InJournals(s, signer, nonce) || Consumed(tips, clock, signer, nonce)
  }

  /** Signing a row again takes its old nonce out of the journals, but that nonce is used by then. */
  lemma ResigningAccounts(s: System, log: seq<Step>, e: Step, tips: seq<Hash>, signer: Address, n: nat)
    requires NonceInv(s, tips, ChargeClock(log), PubClock(log)) && InJournals(s, signer, n)
    requires (e.Sign? || SignsPub(e)) && Enabled(s, e, tips) && StepFits(s, e) && HonestStep(s, log, e, tips)
    requires forall t :: 0 <= t < |tips| ==> PricesRise(tips[t])
    ensures Accounted(Next(s, e), tips, Max(ChargeClock(log), PubClock(log)), signer, n)
  {
    var t, clock := Next(s, e), Max(ChargeClock(log), PubClock(log));
    LaterClock(tips, ChargeClock(log), clock);
    LaterClock(tips, PubClock(log), clock);
    if i :| 0 <= i < |s.batches| && ChargeNonce(s.batches[i], signer, n) {
      if e.Sign? && e.batch == i {
        assert RevertedOk(s, i, tips, ChargeClock(log));
      } else {
        assert ChargeNonce(t.batches[i], signer, n);
      }
    } else {
      var p :| 0 <= p < |s.publications| && PubNonce(s.publications[p], signer, n);
      if SignsPub(e) && e.move.pub == p {
        assert PubOk(s, p, tips, PubClock(log));
        NoSignBehindPrice(s, log, e.move, tips);
      } else {
        assert PubNonce(t.publications[p], signer, n);
      }
    }
  }

  lemma StepAccounts(s: System, log: seq<Step>, e: Step, tips: seq<Hash>, signer: Address, n: nat)
    requires LedgerInv(s) && NonceInv(s, tips, ChargeClock(log), PubClock(log))
    requires Enabled(s, e, tips) && StepFits(s, e) && HonestStep(s, log, e, tips)
    requires forall t :: 0 <= t < |tips| ==> PricesRise(tips[t])
    requires Accounted(s, tips, Max(ChargeClock(log), PubClock(log)), signer, n)
    ensures Accounted(Next(s, e), tips, Max(ChargeClock(log + [e]), PubClock(log + [e])), signer, n)
  {
    var clock, later := Max(ChargeClock(log), PubClock(log)), Max(ChargeClock(log + [e]), PubClock(log + [e]));
    ClockGrows(log, e);
    LaterClock(tips, clock, later);
    hide Enabled, StepFits, HonestStep, Next, LedgerInv, NonceInv, Consumed, PricesRise, InJournals;
    if InJournals(s, signer, n) {
      if e.Sign? || SignsPub(e) {
        ResigningAccounts(s, log, e, tips, signer, n);
      } else {
        JournalsOnlyGrow(s, e, tips, signer, n);
      }
    }
  }

  /** When the nonce of a signing was read from the node. */
  function ReadTime(e: Step): nat {
    if e.Sign? then e.at else if SignsPub(e) then e.move.at else 0
  }

  /** The node's pending nonce lies above each nonce of the wallet that was signed here and is mined. */
  ghost predicate AboveOwnMined(log: seq<Step>, e: Step, tips: seq<Hash>, signer: Address) {
    SignedNonce(e, signer).Some? && ReadTime(e) < |tips| ==>
      forall n :: n in Nonces(log, signer) && MinedOn(tips[ReadTime(e)], signer, n) ==> n < SignedNonce(e, signer).value
  }

  ghost predicate AlwaysAboveOwnMined(log: seq<Step>, tips: seq<Hash>, signer: Address) {
    log != [] ==>
      && AlwaysAboveOwnMined(log[..|log| - 1], tips, signer)
      && AboveOwnMined(log[..|log| - 1], log[|log| - 1], tips, signer)
  }

  lemma Increases(ns: seq<nat>, m: nat)
    requires Increasing(ns)
    ensures Increasing(ns + [m]) <==> (ns != [] ==> ns[|ns| - 1] < m)
    ensures Increasing(ns + [m]) ==> forall n :: n in ns ==> n < m
  {
    if ns != [] && Increasing(ns + [m]) {
      assert (ns + [m])[|ns|] == m && (ns + [m])[|ns| - 1] == ns[|ns| - 1];
      forall n | n in ns ensures n < m {
        var k :| 0 <= k < |ns| && ns[k] == n;
        assert (ns + [m])[k] == n;
      }
    }
  }

  /**
   While final blocks stay, the nonces ever signed for a wallet strictly increase, over both
   journals, retries and changes of wallets, if and only if each pending nonce that the node gave
   lay above the wallet's own nonces that were mined by then.
   */
  lemma {:induction false} NoncesIncreaseIff(confirmations: nat, log: seq<Step>, tips: seq<Hash>, signer: Address)
    requires confirmations >= 1 && FinalStays(tips, confirmations - 1)
    requires forall t :: 0 <= t < |tips| ==> PricesRise(tips[t])
    requires Legal(confirmations, log, tips) && Honest(confirmations, log, tips)
    ensures Increasing(Nonces(log, signer)) <==> AlwaysAboveOwnMined(log, tips, signer)
    ensures Increasing(Nonces(log, signer)) && Nonces(log, signer) != [] ==>
      Accounted(After(confirmations, log), tips, Max(ChargeClock(log), PubClock(log)), signer,
        Nonces(log, signer)[|Nonces(log, signer)| - 1])
  {
    hide Next, StepFits, Enabled, LedgerInv, NonceInv, HonestStep, FinalStays, PricesRise, Accounted, Increasing,
         AboveOwnMined;
    if log == [] {
      NothingSigned(signer);
    } else {
      var before, e := log[..|log| - 1], log[|log| - 1];
      assert before + [e] == log;
      var s := After(confirmations, before);
      NoncesIncreaseIff(confirmations, before, tips, signer);
      NoncesAlwaysAccountedFor(confirmations, before, tips);
      LedgerAlwaysHolds(confirmations, before, tips);
      StepKeepsLedger(s, e, tips);
      var ns := Nonces(before, signer);
      if SignedNonce(e, signer).None? {
        if Increasing(ns) && ns != [] {
          StepAccounts(s, before, e, tips, signer, ns[|ns| - 1]);
        }
        NothingToExceed(before, e, tips, signer);
      } else if Increasing(ns) {
        SigningExceeds(s, before, e, tips, signer);
        SigningIsRecorded(s, e, signer);
        RecordedIsAccounted(Next(s, e), tips, Max(ChargeClock(log), PubClock(log)), signer,
          SignedNonce(e, signer).value);
      } else {
        StillNotIncreasing(ns, SignedNonce(e, signer).value);
      }
    }
  }

  lemma NothingSigned(signer: Address)
    ensures Increasing(Nonces([], signer)) && Nonces([], signer) == []
  {
  }

  lemma NothingToExceed(log: seq<Step>, e: Step, tips: seq<Hash>, signer: Address)
    requires SignedNonce(e, signer).None?
    ensures AboveOwnMined(log, e, tips, signer)
  {
  }

  lemma RecordedIsAccounted(s: System, tips: seq<Hash>, clock: nat, signer: Address, n: nat)
    requires InJournals(s, signer, n)
    ensures Accounted(s, tips, clock, signer, n)
  {
  }

  lemma StillNotIncreasing(ns: seq<nat>, m: nat)
    requires !Increasing(ns)
    ensures !Increasing(ns + [m])
  {
    var i, j :| 0 <= i < j < |ns| && ns[i] >= ns[j];
    assert (ns + [m])[i] == ns[i] && (ns + [m])[j] == ns[j];
  }

  /** The next nonce exceeds the last one exactly when the node's answer is above the own mined ones. */
  lemma SigningExceeds(s: System, log: seq<Step>, e: Step, tips: seq<Hash>, signer: Address)
    requires Enabled(s, e, tips) && HonestStep(s, log, e, tips) && SignedNonce(e, signer).Some? &&
      Increasing(Nonces(log, signer))
    requires Nonces(log, signer) != [] ==>
      Accounted(s, tips, Max(ChargeClock(log), PubClock(log)), signer, Nonces(log, signer)[|Nonces(log, signer)| - 1])
    ensures Increasing(Nonces(log, signer) + [SignedNonce(e, signer).value]) <==> AboveOwnMined(log, e, tips, signer)
  {
    var ns, m, at := Nonces(log, signer), SignedNonce(e, signer).value, ReadTime(e);
    Increases(ns, m);
    if ns != [] && AboveOwnMined(log, e, tips, signer) {
      var top := ns[|ns| - 1];
      assert top in ns;
      if InJournals(s, signer, top) {
        SignedAboveJournals(s, e, tips, signer);
      } else {
        ConsumedIsMined(tips, Max(ChargeClock(log), PubClock(log)), signer, top, at);
      }
    }
  }

  /** The pending nonce that the node gave for this signing counts what is mined. */
  ghost predicate PendingTrue(e: Step, tips: seq<Hash>) {
    forall signer, n: nat ::
      SignedNonce(e, signer).Some? && ReadTime(e) < |tips| && MinedOn(tips[ReadTime(e)], signer, n)
      ==> n < SignedNonce(e, signer).value
  }

  ghost predicate PendingHonest(log: seq<Step>, tips: seq<Hash>) {
    forall k :: 0 <= k < |log| ==> PendingTrue(log[k], tips)
  }

  /** With an honest node no wallet signs a nonce twice, whichever wallets the rows pass through. */
  lemma NoncesIncrease(confirmations: nat, log: seq<Step>, tips: seq<Hash>, signer: Address)
    requires confirmations >= 1 && FinalStays(tips, confirmations - 1)
    requires forall t :: 0 <= t < |tips| ==> PricesRise(tips[t])
    requires Legal(confirmations, log, tips) && Honest(confirmations, log, tips) && PendingHonest(log, tips)
    ensures Increasing(Nonces(log, signer))
  {
    HonestIsAbove(log, tips, signer);
    NoncesIncreaseIff(confirmations, log, tips, signer);
  }

  lemma {:induction false} HonestIsAbove(log: seq<Step>, tips: seq<Hash>, signer: Address)
    requires PendingHonest(log, tips)
    ensures AlwaysAboveOwnMined(log, tips, signer)
  {
    if log != [] {
      var before := log[..|log| - 1];
      assert PendingTrue(log[|log| - 1], tips);
      HonestIsAbove(before, tips, signer);
    }
  }
}
