/**
 Signed bytes, nonces and the chain: what the two journals guarantee about everything that
 was ever signed or sent.
 */
module ChargeWallet {
  import opened Prelude
  import opened Chain
  import opened ChargeTypes
  import opened ChargeSteps
  import opened ChargeLedger
  import opened ChargeCheckpoint

  // ---- the greatest nonce of a journal ----------------------------------------------------

  predicate ChargeNonce(b: Batch, signer: Address, nonce: nat) {
    b.tx.Some? && b.tx.value.signer == signer && b.tx.value.nonce == nonce
  }

  predicate PubNonce(p: Publication, signer: Address, nonce: nat) {
    p.signer == Some(signer) && p.nonce == Some(nonce)
  }

  lemma {:induction false} LatestChargeIsGreatest(batches: seq<Batch>, signer: Address)
    ensures var latest := LatestCharge(batches, signer);
      && (forall i, n: nat :: 0 <= i < |batches| && ChargeNonce(batches[i], signer, n) ==>
            latest.Some? && n <= latest.value)
      && (latest.Some? ==> exists i :: 0 <= i < |batches| && ChargeNonce(batches[i], signer, latest.value))
  {
    if batches != [] {
      var rest := batches[..|batches| - 1];
      LatestChargeIsGreatest(rest, signer);
      var latest := LatestCharge(rest, signer);
      if latest.Some? {
        var i :| 0 <= i < |rest| && ChargeNonce(rest[i], signer, latest.value);
        assert ChargeNonce(batches[i], signer, latest.value);
      }
      assert forall i, n: nat :: 0 <= i < |rest| && ChargeNonce(batches[i], signer, n) ==>
        ChargeNonce(rest[i], signer, n);
      var last := batches[|batches| - 1];
      if last.tx.Some? {
        assert ChargeNonce(last, last.tx.value.signer, last.tx.value.nonce);
      }
    }
  }

  lemma {:induction false} LatestPublicationIsGreatest(rows: seq<Publication>, signer: Address)
    ensures var latest := LatestPublication(rows, signer);
      && (forall i, n: nat :: 0 <= i < |rows| && PubNonce(rows[i], signer, n) ==> latest.Some? && n <= latest.value)
      && (latest.Some? ==> exists i :: 0 <= i < |rows| && PubNonce(rows[i], signer, latest.value))
  {
    if rows != [] {
      var rest := rows[..|rows| - 1];
      LatestPublicationIsGreatest(rest, signer);
      var latest := LatestPublication(rest, signer);
      if latest.Some? {
        var i :| 0 <= i < |rest| && PubNonce(rest[i], signer, latest.value);
        assert PubNonce(rows[i], signer, latest.value);
      }
      assert forall i, n: nat :: 0 <= i < |rest| && PubNonce(rows[i], signer, n) ==> PubNonce(rest[i], signer, n);
      var last := rows[|rows| - 1];
      if last.signer.Some? && last.nonce.Some? {
        assert PubNonce(last, last.signer.value, last.nonce.value);
      }
    }
  }

  /** Nonce `n` of the wallet is still in one of the two journals. */
  predicate InJournals(s: System, signer: Address, n: nat) {
    (exists i :: 0 <= i < |s.batches| && ChargeNonce(s.batches[i], signer, n)) ||
    (exists p :: 0 <= p < |s.publications| && PubNonce(s.publications[p], signer, n))
  }

  /** The reservation that the worker reads under the wallet lock covers both journals. */
  lemma LatestNonceIsGreatest(s: System, signer: Address)
    ensures forall n: nat :: InJournals(s, signer, n) ==>
      LatestNonce(s, signer).Some? && n <= LatestNonce(s, signer).value
    ensures LatestNonce(s, signer).Some? ==> InJournals(s, signer, LatestNonce(s, signer).value)
  {
    LatestChargeIsGreatest(s.batches, signer);
    LatestPublicationIsGreatest(s.publications, signer);
  }

  // ---- nonces over whole runs -------------------------------------------------------------

  function SignedNonce(e: Step, signer: Address): Option<nat> {
    match e
    case Sign(_, tx, _) => if tx.signer == signer then Some(tx.nonce) else None
    case Publish(m) => if m.SignPub? && m.signer == signer then Some(m.nonce) else None
    case _ => None
  }

  /** Every nonce ever signed for the wallet, in the order of signing. */
  function Nonces(log: seq<Step>, signer: Address): seq<nat> {
    if log == [] then []
    else
      var rest := Nonces(log[..|log| - 1], signer);
      var n := SignedNonce(log[|log| - 1], signer);
      if n.Some? then rest + [n.value] else rest
  }

  predicate Increasing(ns: seq<nat>) {
    forall i, j :: 0 <= i < j < |ns| ==> ns[i] < ns[j]
  }

  predicate SignsPub(e: Step) { e.Publish? && e.move.SignPub? }

  /** The step does not hand a row that one wallet signed to another wallet. */
  predicate KeepsSigner(s: System, e: Step) {
    && (e.Sign? && e.batch < |s.batches| && s.batches[e.batch].tx.Some? ==>
          s.batches[e.batch].tx.value.signer == e.tx.signer)
    && (SignsPub(e) && e.move.pub < |s.publications| && s.publications[e.move.pub].nonce.Some? ==>
          s.publications[e.move.pub].signer == Some(e.move.signer))
  }

  predicate NoRotation(confirmations: nat, log: seq<Step>) {
    log != [] ==>
      && NoRotation(confirmations, log[..|log| - 1])
      && KeepsSigner(After(confirmations, log[..|log| - 1]), log[|log| - 1])
  }

  lemma MoveKeepsJournals(s: System, m: PubMove, signer: Address, n: nat)
    requires MoveFits(s, m) && !m.SignPub? && InJournals(s, signer, n)
    ensures InJournals(AfterMove(s, m), signer, n)
  {
    var t := AfterMove(s, m);
    if i :| 0 <= i < |s.batches| && ChargeNonce(s.batches[i], signer, n) {
      assert ChargeNonce(t.batches[i], signer, n);
    } else {
      var p :| 0 <= p < |s.publications| && PubNonce(s.publications[p], signer, n);
      assert PubNonce(t.publications[p], signer, n);
    }
  }

  /** A step keeps the nonces of both journals, except that signing replaces one row's nonce. */
  lemma OtherStepsPublishNothing(s: System, e: Step)
    requires StepFits(s, e) && !e.Publish?
    ensures Next(s, e).publications == s.publications && Next(s, e).held == s.held
  {
    hide AddGroups, SettleClicks, Mark, RefreshedRun, TakenOver;
    if e.Reserve? {
      var m := s.(batches := TakeOver(s, e.run), runs := s.runs[e.run := StartedRun(s.runs[e.run], e.cutoff)]);
      AddGroupsSeen(m, e.run, e.groups, e.chargeIds);
    }
  }

  lemma JournalsOnlyGrow(s: System, e: Step, tips: seq<Hash>, signer: Address, n: nat)
    requires LedgerInv(s) && Enabled(s, e, tips) && StepFits(s, e) && InJournals(s, signer, n)
    requires !e.Sign? && !SignsPub(e)
    ensures InJournals(Next(s, e), signer, n)
  {
    var t := Next(s, e);
    if e.Publish? {
      MoveKeepsJournals(s, e.move, signer, n);
      return;
    }
    BytesChangeOnlyBySigning(s, e);
    OtherStepsPublishNothing(s, e);
    hide Enabled, Next, StepFits;
    if i :| 0 <= i < |s.batches| && ChargeNonce(s.batches[i], signer, n) {
      assert t.batches[i].tx == s.batches[i].tx;
      assert ChargeNonce(t.batches[i], signer, n);
    } else {
      var p :| 0 <= p < |s.publications| && PubNonce(s.publications[p], signer, n);
      assert PubNonce(t.publications[p], signer, n);
    }
  }

  /** After signing, the journals hold the new nonce. */
  lemma SigningIsRecorded(s: System, e: Step, signer: Address)
    requires StepFits(s, e) && SignedNonce(e, signer).Some?
    ensures InJournals(Next(s, e), signer, SignedNonce(e, signer).value)
  {
    var t := Next(s, e);
    if e.Sign? {
      assert ChargeNonce(t.batches[e.batch], signer, e.tx.nonce);
    } else {
      assert PubNonce(t.publications[e.move.pub], signer, e.move.nonce);
    }
  }

  lemma SignedAboveJournals(s: System, e: Step, tips: seq<Hash>, signer: Address)
    requires Enabled(s, e, tips) && SignedNonce(e, signer).Some?
    ensures forall n: nat :: InJournals(s, signer, n) ==> n < SignedNonce(e, signer).value
  {
    LatestNonceIsGreatest(s, signer);
  }

  lemma OtherSigningKeepsNonce(s: System, e: Step, signer: Address, n: nat)
    requires (e.Sign? || SignsPub(e)) && StepFits(s, e) && KeepsSigner(s, e)
    requires SignedNonce(e, signer).None? && InJournals(s, signer, n)
    ensures InJournals(Next(s, e), signer, n)
  {
    var t := Next(s, e);
    if i :| 0 <= i < |s.batches| && ChargeNonce(s.batches[i], signer, n) {
      assert ChargeNonce(t.batches[i], signer, n);
    } else {
      var p :| 0 <= p < |s.publications| && PubNonce(s.publications[p], signer, n);
      assert PubNonce(t.publications[p], signer, n);
    }
  }

  /**
   While no row changes wallets, the nonces ever signed for a wallet strictly increase, over
   both journals and although a retry overwrites the nonce of its row.
   */
  lemma {:induction false} NoncesNeverRepeat(confirmations: nat, log: seq<Step>, tips: seq<Hash>, signer: Address)
    requires Legal(confirmations, log, tips) && NoRotation(confirmations, log)
    ensures Increasing(Nonces(log, signer))
    ensures Nonces(log, signer) != [] ==>
      InJournals(After(confirmations, log), signer, Nonces(log, signer)[|Nonces(log, signer)| - 1])
  {
    hide Next, StepFits, Enabled, LedgerInv;
    if log != [] {
      var before := log[..|log| - 1];
      var e := log[|log| - 1];
      var s := After(confirmations, before);
      NoncesNeverRepeat(confirmations, before, tips, signer);
      LedgerAlwaysHolds(confirmations, before, tips);
      StepKeepsLedger(s, e, tips);
      var ns := Nonces(before, signer);
      if SignedNonce(e, signer).Some? {
        SigningIsRecorded(s, e, signer);
        SignedAboveJournals(s, e, tips, signer);
      } else if ns != [] {
        if e.Sign? || SignsPub(e) {
          OtherSigningKeepsNonce(s, e, signer, ns[|ns| - 1]);
        } else {
          JournalsOnlyGrow(s, e, tips, signer, ns[|ns| - 1]);
        }
      }
    }
  }

  // ---- bytes ------------------------------------------------------------------------------

  predicate SignsBatch(e: Step, i: nat) { e.Sign? && e.batch == i }

  /** Position `m` signed the bytes that batch `i` carries after the log. */
  predicate LastSigned(confirmations: nat, log: seq<Step>, i: nat, m: nat) {
    && m < |log| && i < |After(confirmations, log).batches|
    && SignsBatch(log[m], i)
    && (forall k :: m < k < |log| ==> !SignsBatch(log[k], i))
    && After(confirmations, log).batches[i].tx == Some(log[m].tx)
  }

  /** The step changes no bytes but those that it signs. */
  predicate ChangesOnlySigned(s: System, e: Step, t: System) {
    && |s.batches| <= |t.batches|
    && (forall i :: 0 <= i < |s.batches| && !SignsBatch(e, i) ==> t.batches[i].tx == s.batches[i].tx)
    && (forall i :: |s.batches| <= i < |t.batches| ==> t.batches[i].tx.None?)
    && (e.Sign? ==> e.batch < |s.batches| && t.batches[e.batch].tx == Some(e.tx))
  }

  lemma ReserveChangesNoBytes(s: System, e: Step)
    requires e.Reserve? && StepFits(s, e)
    ensures ChangesOnlySigned(s, e, Next(s, e))
  {
    hide AddGroups, TakenOver;
    var m := s.(batches := TakeOver(s, e.run), runs := s.runs[e.run := StartedRun(s.runs[e.run], e.cutoff)]);
    AddGroupsSeen(m, e.run, e.groups, e.chargeIds);
  }

  lemma RowChangesOnlySigned(s: System, e: Step)
    requires RowStep(e) && StepFits(s, e)
    ensures ChangesOnlySigned(s, e, Next(s, e))
  {
    RowStepChangesRow(s, e);
    hide Next;
  }

  lemma OtherChangesNoBytes(s: System, e: Step)
    requires !RowStep(e) && !e.Reserve? && StepFits(s, e)
    ensures ChangesOnlySigned(s, e, Next(s, e))
  {
    hide SettleClicks, Mark, RefreshedRun, AfterMove;
  }

  lemma BytesChangeOnlyBySigning(s: System, e: Step)
    requires StepFits(s, e)
    ensures ChangesOnlySigned(s, e, Next(s, e))
  {
    hide Next, StepFits, ChangesOnlySigned;
    if e.Reserve? {
      ReserveChangesNoBytes(s, e);
    } else if RowStep(e) {
      RowChangesOnlySigned(s, e);
    } else {
      OtherChangesNoBytes(s, e);
    }
  }

  /** Bytes in the database were put there by the latest signing of that batch. */
  lemma {:induction false} BytesComeFromSigning(confirmations: nat, log: seq<Step>, tips: seq<Hash>, i: nat)
    requires Legal(confirmations, log, tips)
    requires i < |After(confirmations, log).batches| && After(confirmations, log).batches[i].tx.Some?
    ensures exists m: nat :: LastSigned(confirmations, log, i, m)
  {
    hide Next, StepFits, Enabled, LedgerInv;
    var before := log[..|log| - 1];
    var e := log[|log| - 1];
    var s := After(confirmations, before);
    LedgerAlwaysHolds(confirmations, before, tips);
    StepKeepsLedger(s, e, tips);
    BytesChangeOnlyBySigning(s, e);
    if SignsBatch(e, i) {
      assert LastSigned(confirmations, log, i, |log| - 1);
    } else {
      BytesComeFromSigning(confirmations, before, tips, i);
      var m: nat :| LastSigned(confirmations, before, i, m);
      assert LastSigned(confirmations, log, i, m);
    }
  }

  /** Nothing is broadcast that was not committed before, and nothing but the latest bytes is. */
  lemma SentBytesWereCommitted(confirmations: nat, log: seq<Step>, tips: seq<Hash>, k: nat)
    requires Legal(confirmations, log, tips) && k < |log| && log[k].Send?
    ensures exists m: nat :: m < k && LastSigned(confirmations, log[..k], log[k].batch, m)
  {
    PrefixLegal(confirmations, log, tips, k);
    PrefixLegal(confirmations, log, tips, k + 1);
    assert log[..k + 1][..k] == log[..k];
    BytesComeFromSigning(confirmations, log[..k], tips, log[k].batch);
  }

  /** No bytes are made or sent unless the evidence of every click was checked in the same pass. */
  lemma OnlyWithEvidence(confirmations: nat, log: seq<Step>, tips: seq<Hash>, k: nat)
    requires Legal(confirmations, log, tips) && k < |log| && (log[k].Send? || log[k].Sign?)
    ensures AtBatch(After(confirmations, log[..k]), log[k].batch) &&
      EvidenceOk(After(confirmations, log[..k]), log[k].batch, tips)
  {
    hide After, EvidenceOk, WalletFree, LatestNonce, CanPublish, CanSave, CanReserve, SeenInPass, Undecided;
    PrefixLegal(confirmations, log, tips, k + 1);
    assert log[..k + 1][..k] == log[..k];
  }

  /** Position `m` of the log saw, in the current pass, the revert of the bytes `tx` of batch `i`. */
  ghost predicate SawRevert(confirmations: nat, log: seq<Step>, tips: seq<Hash>, i: nat, tx: SignedTx, m: nat) {
    && m < |log|
    && (log[m].Fail? || log[m].StillFailed?) && log[m].batch == i
    && (forall k :: m < k < |log| ==> !log[k].BeginPass? && !SignsBatch(log[k], i))
    && CanonicalAt(log[m].hash, tips, log[m].at) && Height(log[m].hash) == log[m].number
    && var s := After(confirmations, log[..m]);
      i < |s.batches| && s.batches[i].tx == Some(tx) && Final(s, log[m].number) && s.passStart <= log[m].at
  }

  lemma {:induction false} RevertedWasSeen(confirmations: nat, log: seq<Step>, tips: seq<Hash>, i: nat)
    requires Legal(confirmations, log, tips) && i in After(confirmations, log).reverted
    ensures i < |After(confirmations, log).batches| && After(confirmations, log).batches[i].tx.Some?
    ensures exists m: nat :: SawRevert(confirmations, log, tips, i, After(confirmations, log).batches[i].tx.value, m)
  {
    hide Next, StepFits, Enabled, LedgerInv;
    var before := log[..|log| - 1];
    var e := log[|log| - 1];
    var s, t := After(confirmations, before), After(confirmations, log);
    LedgerAlwaysHolds(confirmations, before, tips);
    StepKeepsLedger(s, e, tips);
    BytesChangeOnlyBySigning(s, e);
    if (e.Fail? || e.StillFailed?) && e.batch == i {
      RevertIsSeen(s, e, tips);
      assert log[..|log| - 1] == before;
      assert SawRevert(confirmations, log, tips, i, t.batches[i].tx.value, |log| - 1);
    } else {
      RevertedSurvives(s, e, i);
      RevertedWasSeen(confirmations, before, tips, i);
      var m: nat :| SawRevert(confirmations, before, tips, i, s.batches[i].tx.value, m);
      assert before[..m] == log[..m];
      assert SawRevert(confirmations, log, tips, i, t.batches[i].tx.value, m);
    }
  }

  lemma RevertIsSeen(s: System, e: Step, tips: seq<Hash>)
    requires LedgerInv(s) && Enabled(s, e, tips) && (e.Fail? || e.StillFailed?)
    ensures e.batch < |s.batches| && s.batches[e.batch].tx.Some?
    ensures SeenInPass(s, tips, e.number, e.hash, e.at) && Final(s, e.number)
  {
  }

  lemma RevertedSurvives(s: System, e: Step, i: nat)
    requires StepFits(s, e) && i in Next(s, e).reverted
    requires !((e.Fail? || e.StillFailed?) && e.batch == i)
    ensures i in s.reverted && !e.BeginPass? && !SignsBatch(e, i)
  {
    if e.Reserve? {
      var m := s.(batches := TakeOver(s, e.run), runs := s.runs[e.run := StartedRun(s.runs[e.run], e.cutoff)]);
      AddGroupsSeen(m, e.run, e.groups, e.chargeIds);
    }
  }

  /**
   A batch is signed a second time only after the pass saw a final, canonical and reverted
   receipt for the very bytes that are replaced.
   */
  lemma ResignedOnlyAfterRevert(confirmations: nat, log: seq<Step>, tips: seq<Hash>, i: nat, tx: SignedTx, at: nat)
    requires Legal(confirmations, log + [Sign(i, tx, at)], tips)
    ensures i < |After(confirmations, log).batches|
    ensures var old_ := After(confirmations, log).batches[i].tx;
      old_.Some? ==> exists m: nat :: SawRevert(confirmations, log, tips, i, old_.value, m)
  {
    assert (log + [Sign(i, tx, at)])[..|log|] == log;
    if After(confirmations, log).batches[i].tx.Some? {
      RevertedWasSeen(confirmations, log, tips, i);
    }
  }
}
