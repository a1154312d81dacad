/**
 At most one row of both journals is in flight for a wallet, on a chain without reorganizations
 and with an honest node. One write of the publication job can break that, and only that one.
 */
module ChargeFlight {
  import opened Prelude
  import opened Chain
  import opened ChargeTypes
  import opened ChargeSteps
  import opened ChargeLedger
  import opened ChargeCheckpoint
  import opened ChargeHonesty

  predicate AtMostOneInFlight(s: System, signer: Address) {
    && (forall i, j :: 0 <= i < j < |s.batches| ==>
          !(ChargeInFlight(s, signer, i) && ChargeInFlight(s, signer, j)))
    && (forall p, q :: 0 <= p < q < |s.publications| ==>
          !(PublicationInFlight(s, signer, p) && PublicationInFlight(s, signer, q)))
    && (forall i, p :: 0 <= i < |s.batches| && 0 <= p < |s.publications| ==>
          !(ChargeInFlight(s, signer, i) && PublicationInFlight(s, signer, p)))
  }

  ghost predicate OneForEach(s: System) {
    forall signer: Address :: AtMostOneInFlight(s, signer)
  }

  /**
   The publication job ends with an error while it still holds, as in flight, a row that it has
   resolved, and by then another row of the wallet is in flight.
   */
  predicate Clashes(s: System, e: Step) {
    && e.Publish? && e.move.FailJob? && s.held.Some? && AtPub(s, s.held.value)
    && var row := s.publications[s.held.value];
       !PubInFlight(row.status) && row.signer.Some? && !WalletFree(s, row.signer.value, None, Some(s.held.value))
  }

  // ---- what is known of resolved rows -----------------------------------------------------------

  ghost predicate WasCanonical(b: Hash, tips: seq<Hash>, clock: nat) {
    exists f :: 0 <= f <= clock && CanonicalAt(b, tips, f)
  }

  /** A failed batch was mined and reverted in a block that was final for the head. */
  ghost predicate FailedOk(s: System, i: nat, tips: seq<Hash>, clock: nat)
    requires i < |s.batches|
  {
    var b := s.batches[i];
    b.status.Failed? ==>
      && b.tx.Some? && b.receiptNumber.Some? && b.receiptHash.Some?
      && Height(b.receiptHash.value) == b.receiptNumber.value
      && b.receiptNumber.value + s.confirmations <= s.head
      && ChargeMinedIn(b.receiptHash.value, b.tx.value, true)
      && WasCanonical(b.receiptHash.value, tips, clock)
  }

  ghost predicate ReceiptOk(s: System, p: nat, tips: seq<Hash>)
    requires p < |s.publications|
  {
    var row := s.publications[p];
    row.receiptHash.Some? && row.receiptNumber.Some? ==>
      Height(row.receiptHash.value) == row.receiptNumber.value && exists f ::
        CanonicalAt(row.receiptHash.value, tips, f)
  }

  ghost predicate HeadOk(s: System, tips: seq<Hash>, clock: nat) {
    exists t :: 0 <= t <= clock && t < |tips| && s.head <= Height(tips[t])
  }

  ghost predicate FlightInv(s: System, tips: seq<Hash>, clock: nat) {
    && HeadOk(s, tips, clock)
    && (forall i :: 0 <= i < |s.batches| ==> FailedOk(s, i, tips, clock))
    && (forall p :: 0 <= p < |s.publications| ==> ReceiptOk(s, p, tips))
  }

  /** Rows that are failed afterwards were failed before, with the same bytes and receipt. */
  lemma SameFailuresKeepInv(s: System, t: System, tips: seq<Hash>, clock: nat, later: nat)
    requires FlightInv(s, tips, clock) && clock <= later
    requires |s.batches| <= |t.batches| && t.publications == s.publications
    requires t.head == s.head && t.confirmations == s.confirmations
    requires forall i :: 0 <= i < |t.batches| && t.batches[i].status.Failed? ==>
      && i < |s.batches| && s.batches[i].status.Failed? && t.batches[i].tx == s.batches[i].tx
      && t.batches[i].receiptNumber == s.batches[i].receiptNumber &&
         t.batches[i].receiptHash == s.batches[i].receiptHash
    ensures FlightInv(t, tips, later)
  {
    forall i | 0 <= i < |t.batches| ensures FailedOk(t, i, tips, later) {
      assert i < |s.batches| ==> FailedOk(s, i, tips, clock);
    }
    forall p | 0 <= p < |t.publications| ensures ReceiptOk(t, p, tips) {
      assert ReceiptOk(s, p, tips);
    }
  }

  lemma ReserveKeepsFlight(s: System, e: Step, tips: seq<Hash>, clock: nat)
    requires FlightInv(s, tips, clock) && e.Reserve? && StepFits(s, e)
    ensures FlightInv(Next(s, e), tips, clock)
  {
    var m := s.(batches := TakeOver(s, e.run), runs := s.runs[e.run := StartedRun(s.runs[e.run], e.cutoff)]);
    AddGroupsSeen(m, e.run, e.groups, e.chargeIds);
    SameFailuresKeepInv(s, Next(s, e), tips, clock, clock);
  }

  lemma FailKeepsFlight(s: System, log: seq<Step>, e: Step, tips: seq<Hash>, clock: nat)
    requires FlightInv(s, tips, clock) && e.Fail? && Enabled(s, e, tips) && StepFits(s, e) &&
      HonestStep(s, log, e, tips)
    ensures FlightInv(Next(s, e), tips, Max(clock, ChargeTime(e)))
  {
    var t := Next(s, e);
    forall i | 0 <= i < |t.batches| ensures FailedOk(t, i, tips, Max(clock, e.at)) {
      assert FailedOk(s, i, tips, clock);
    }
    forall p | 0 <= p < |t.publications| ensures ReceiptOk(t, p, tips) {
      assert ReceiptOk(s, p, tips);
    }
  }

  /** On a growing chain the head never comes down. */
  lemma BeginKeepsFlight(s: System, log: seq<Step>, e: Step, tips: seq<Hash>)
    requires OnlyGrows(tips) && FlightInv(s, tips, ChargeClock(log)) && e.BeginPass? && StepFits(s, e) &&
      HonestStep(s, log, e, tips)
    ensures FlightInv(Next(s, e), tips, Max(ChargeClock(log), ChargeTime(e)))
  {
    var clock := ChargeClock(log);
    var t := Next(s, e);
    var before :| 0 <= before <= clock && before < |tips| && s.head <= Height(tips[before]);
    var now :| clock <= now <= e.start && now < |tips| && e.head == Height(tips[now]);
    GrowingKeeps(tips, tips[before], before, now);
    forall i | 0 <= i < |t.batches| ensures FailedOk(t, i, tips, Max(clock, e.start)) {
      assert FailedOk(s, i, tips, clock);
    }
    forall p | 0 <= p < |t.publications| ensures ReceiptOk(t, p, tips) {
      assert ReceiptOk(s, p, tips);
    }
  }

  lemma MoveKeepsFlight(s: System, m: PubMove, tips: seq<Hash>, clock: nat)
    requires FlightInv(s, tips, clock) && MoveFits(s, m) && CanPublish(s, m, tips)
    ensures FlightInv(AfterMove(s, m), tips, clock)
  {
    var t := AfterMove(s, m);
    forall i | 0 <= i < |t.batches| ensures FailedOk(t, i, tips, clock) {
      assert FailedOk(s, i, tips, clock);
    }
    forall p | 0 <= p < |t.publications| ensures ReceiptOk(t, p, tips) {
      assert p < |s.publications| ==> ReceiptOk(s, p, tips);
    }
  }

  lemma StepKeepsFlight(s: System, log: seq<Step>, e: Step, tips: seq<Hash>)
    requires OnlyGrows(tips) && FlightInv(s, tips, ChargeClock(log))
    requires Enabled(s, e, tips) && StepFits(s, e) && HonestStep(s, log, e, tips)
    ensures FlightInv(Next(s, e), tips, Max(ChargeClock(log), ChargeTime(e)))
  {
    hide AddGroups, SettleClicks, Mark, RefreshedRun, TakenOver, CanSave, CanReserve, WalletFree, LatestNonce,
         AfterMove, FlightInv;
    var clock, later := ChargeClock(log), Max(ChargeClock(log), ChargeTime(e));
    if e.Reserve? {
      ReserveKeepsFlight(s, e, tips, clock);
    } else if e.Fail? {
      FailKeepsFlight(s, log, e, tips, clock);
    } else if e.BeginPass? {
      BeginKeepsFlight(s, log, e, tips);
    } else if e.Publish? {
      MoveKeepsFlight(s, e.move, tips, clock);
    } else {
      SameFailuresKeepInv(s, Next(s, e), tips, clock, later);
    }
  }

  // ---- nothing is reopened ------------------------------------------------------------------------

  /** An honest node keeps showing the final revert of a failed batch, so the batch stays failed. */
  lemma FailedStaysFailed(s: System, log: seq<Step>, i: nat, look: Lookup, tips: seq<Hash>)
    requires OnlyGrows(tips) && (forall t :: 0 <= t < |tips| ==> NoncesMinedOnce(tips[t]))
    requires i < |s.batches| && FailedOk(s, i, tips, ChargeClock(log)) && s.batches[i].tx.Some?
    requires look.at >= ChargeClock(log) && Truthful(look, s.batches[i].tx.value, tips) && Undecided(s, look, tips)
    ensures !s.batches[i].status.Failed?
  {
    if s.batches[i].status.Failed? {
      var tx, h := s.batches[i].tx.value, s.batches[i].receiptHash.value;
      var f :| 0 <= f <= ChargeClock(log) && CanonicalAt(h, tips, f);
      GrowingKeeps(tips, h, f, look.at);
      assert look.Found?;
      assert Mined(tx.signer, tx.nonce, Some(tx), look.reverted) in look.hash.payload.mined;
      assert look.hash == h && look.reverted;
      var other: Hash, at: nat :| SeenInPass(s, tips, look.number, other, at) && other != look.hash;
      GrowingAgrees(tips, h, other, f, at);
    }
  }

  lemma ReceiptStays(s: System, p: nat, hash: Hash, at: nat, tips: seq<Hash>)
    requires OnlyGrows(tips) && p < |s.publications| && ReceiptOk(s, p, tips)
    ensures !CanPublish(s, Reopen(p, hash, at), tips)
  {
    if CanPublish(s, Reopen(p, hash, at), tips) {
      var f :| CanonicalAt(s.publications[p].receiptHash.value, tips, f);
      GrowingAgrees(tips, s.publications[p].receiptHash.value, hash, f, at);
    }
  }

  /** A row goes back in flight without being signed again. */
  predicate Reopens(s: System, e: Step) {
    || e.Rollback?
    || ((e.Await? || e.Submit?) && e.batch < |s.batches| && s.batches[e.batch].status.Failed?)
    || (e.Publish? && e.move.Reopen?)
  }

  lemma NothingReopens(s: System, log: seq<Step>, e: Step, tips: seq<Hash>)
    requires OnlyGrows(tips) && (forall t :: 0 <= t < |tips| ==> NoncesMinedOnce(tips[t]))
    requires LedgerInv(s) && SeenInv(s, tips) && FlightInv(s, tips, ChargeClock(log))
    requires Enabled(s, e, tips) && HonestStep(s, log, e, tips)
    ensures !Reopens(s, e)
  {
    hide NoncesMinedOnce, LedgerInv, WalletFree, LatestNonce, CanSave, CanReserve, Undecided, Truthful, CanPublish;
    if e.Rollback? {
      NoRollback(s, e.batch, e.at, tips);
    } else if e.Await? || e.Submit? {
      assert FailedOk(s, e.batch, tips, ChargeClock(log));
      FailedStaysFailed(s, log, e.batch, e.look, tips);
    } else if e.Publish? && e.move.Reopen? {
      ReopenHasRow(s, e.move, tips);
      ReceiptStays(s, e.move.pub, e.move.hash, e.move.at, tips);
    }
  }

  lemma ReopenHasRow(s: System, m: PubMove, tips: seq<Hash>)
    requires m.Reopen? && CanPublish(s, m, tips)
    ensures m.pub < |s.publications|
  {
  }

  lemma NoRollback(s: System, i: nat, at: nat, tips: seq<Hash>)
    requires OnlyGrows(tips) && LedgerInv(s) && SeenInv(s, tips)
    ensures !Enabled(s, Rollback(i, at), tips)
  {
    if Enabled(s, Rollback(i, at), tips) {
      assert BatchOk(s.clicks, s.batches[i], i);
      assert Witnessed(s, tips, i, s.savedAt);
      GrowingKeeps(tips, s.batches[i].receiptHash.value, s.seen[i], at);
    }
  }

  /** Without reorganizations a settled batch is never rolled back, whatever the node answers. */
  lemma NoReorgNoRollback(confirmations: nat, log: seq<Step>, tips: seq<Hash>, i: nat, at: nat)
    requires Legal(confirmations, log, tips) && OnlyGrows(tips)
    ensures !Enabled(After(confirmations, log), Rollback(i, at), tips)
  {
    hide After, Legal, Enabled, LedgerInv, SeenInv, NoRevival, OnlyGrows;
    GrowingRevivesNothing(tips);
    SeenAlwaysHolds(confirmations, log, tips);
    LedgerAlwaysHolds(confirmations, log, tips);
    NoRollback(After(confirmations, log), i, at, tips);
  }

  // ---- one row ---------------------------------------------------------------------------------------

  /** No step but signing, reopening and the error handler puts a row in flight. */
  predicate NothingNewInFlight(s: System, t: System, signer: Address) {
    && |s.batches| <= |t.batches| && |s.publications| <= |t.publications|
    && (forall i :: 0 <= i < |t.batches| && ChargeInFlight(t, signer, i) ==>
          i < |s.batches| && ChargeInFlight(s, signer, i))
    && (forall p :: 0 <= p < |t.publications| && PublicationInFlight(t, signer, p) ==>
          p < |s.publications| && PublicationInFlight(s, signer, p))
  }

  lemma QuietStep(s: System, e: Step, tips: seq<Hash>, signer: Address)
    requires LedgerInv(s) && Enabled(s, e, tips) && StepFits(s, e)
    requires !Reopens(s, e) && !e.Sign? && !e.Publish?
    ensures NothingNewInFlight(s, Next(s, e), signer)
  {
    hide LedgerInv, AddGroups, SettleClicks, Mark, RefreshedRun, TakenOver, CanSave, CanReserve, CanWriteClick, CanSign,
         SeenInPass, WalletFree, LatestNonce, CanPublish, AfterMove;
    if e.Reserve? {
      var m := s.(batches := TakeOver(s, e.run), runs := s.runs[e.run := StartedRun(s.runs[e.run], e.cutoff)]);
      AddGroupsSeen(m, e.run, e.groups, e.chargeIds);
    }
  }

  lemma QuietMove(s: System, m: PubMove, tips: seq<Hash>, signer: Address)
    requires MoveFits(s, m) && CanPublish(s, m, tips) && !m.SignPub? && !m.Reopen? && !m.FailJob?
    ensures NothingNewInFlight(s, AfterMove(s, m), signer)
  {
  }

  lemma QuietKeepsOne(s: System, t: System, signer: Address)
    requires AtMostOneInFlight(s, signer) && NothingNewInFlight(s, t, signer)
    ensures AtMostOneInFlight(t, signer)
  {
  }

  /** Signing under the lock leaves the signed row as the only one in flight for its wallet. */
  lemma SigningKeepsOne(s: System, e: Step, tips: seq<Hash>, signer: Address)
    requires e.Sign? && Enabled(s, e, tips) && StepFits(s, e) && AtMostOneInFlight(s, signer)
    ensures AtMostOneInFlight(Next(s, e), signer)
  {
    var t := Next(s, e);
    assert forall i :: 0 <= i < |s.batches| && i != e.batch ==> t.batches[i] == s.batches[i];
    assert forall i :: 0 <= i < |s.batches| && i != e.batch ==>
      ChargeInFlight(t, signer, i) == ChargeInFlight(s, signer, i);
    assert forall p :: 0 <= p < |s.publications| ==>
      PublicationInFlight(t, signer, p) == PublicationInFlight(s, signer, p);
  }

  lemma PublishingKeepsOne(s: System, m: PubMove, tips: seq<Hash>, signer: Address)
    requires m.SignPub? && CanPublish(s, m, tips) && MoveFits(s, m) && AtMostOneInFlight(s, signer)
    ensures AtMostOneInFlight(AfterMove(s, m), signer)
  {
    var t := AfterMove(s, m);
    assert forall p :: 0 <= p < |s.publications| && p != m.pub ==> t.publications[p] == s.publications[p];
    assert forall p :: 0 <= p < |s.publications| && p != m.pub ==>
      PublicationInFlight(t, signer, p) == PublicationInFlight(s, signer, p);
    assert forall i :: 0 <= i < |s.batches| ==> ChargeInFlight(t, signer, i) == ChargeInFlight(s, signer, i);
  }

  /** The error handler leaves one row in flight exactly when the row it writes does not clash. */
  lemma FailJobIff(s: System, tips: seq<Hash>)
    requires OneForEach(s) && s.held.Some? && AtPub(s, s.held.value)
    ensures OneForEach(AfterMove(s, FailJob)) <==> !Clashes(s, Publish(FailJob))
  {
    var p, t := s.held.value, AfterMove(s, FailJob);
    var row := s.publications[p];
    assert forall q :: 0 <= q < |s.publications| && q != p ==> t.publications[q] == s.publications[q];
    if Clashes(s, Publish(FailJob)) {
      var a := row.signer.value;
      assert PublicationInFlight(t, a, p);
      if i :| 0 <= i < |s.batches| && ChargeInFlight(s, a, i) {
        assert ChargeInFlight(t, a, i);
        assert !AtMostOneInFlight(t, a);
      } else {
        var q :| 0 <= q < |s.publications| && q != p && PublicationInFlight(s, a, q);
        assert PublicationInFlight(t, a, q);
        assert !AtMostOneInFlight(t, a);
      }
    } else {
      forall signer: Address ensures AtMostOneInFlight(t, signer) {
        FailJobKeepsOne(s, p, signer);
      }
    }
  }

  lemma FailJobKeepsOne(s: System, p: nat, signer: Address)
    requires AtMostOneInFlight(s, signer) && s.held == Some(p) && AtPub(s, p) && !Clashes(s, Publish(FailJob))
    ensures AtMostOneInFlight(AfterMove(s, FailJob), signer)
  {
    var t := AfterMove(s, FailJob);
    assert forall q :: 0 <= q < |s.publications| && q != p ==>
      PublicationInFlight(t, signer, q) == PublicationInFlight(s, signer, q);
    assert forall i :: 0 <= i < |s.batches| ==> ChargeInFlight(t, signer, i) == ChargeInFlight(s, signer, i);
    if PublicationInFlight(t, signer, p) && !PublicationInFlight(s, signer, p) {
      assert WalletFree(s, signer, None, Some(p));
      assert forall i :: 0 <= i < |s.batches| ==> !ChargeInFlight(s, signer, i);
      assert forall q :: 0 <= q < |s.publications| && q != p ==> !PublicationInFlight(s, signer, q);
    } else {
      assert PublicationInFlight(t, signer, p) == PublicationInFlight(s, signer, p);
    }
  }

  // ---- over whole runs ---------------------------------------------------------------------------------

  lemma FlightStep(s: System, log: seq<Step>, e: Step, tips: seq<Hash>)
    requires OnlyGrows(tips) && (forall t :: 0 <= t < |tips| ==> NoncesMinedOnce(tips[t]))
    requires LedgerInv(s) && SeenInv(s, tips) && FlightInv(s, tips, ChargeClock(log)) && OneForEach(s)
    requires Enabled(s, e, tips) && StepFits(s, e) && HonestStep(s, log, e, tips)
    ensures OneForEach(Next(s, e)) <==> !Clashes(s, e)
  {
    NothingReopens(s, log, e, tips);
    PublishNext(s, e, tips);
    hide Next, Enabled, StepFits, LedgerInv, SeenInv, FlightInv, HonestStep, NoncesMinedOnce, OnlyGrows,
         AtMostOneInFlight, AfterMove, CanPublish, WalletFree;
    if e.Publish? && e.move.FailJob? {
      FailJobIff(s, tips);
    } else {
      forall signer: Address ensures AtMostOneInFlight(Next(s, e), signer) {
        if e.Sign? {
          SigningKeepsOne(s, e, tips, signer);
        } else if e.Publish? && e.move.SignPub? {
          PublishingKeepsOne(s, e.move, tips, signer);
        } else if e.Publish? {
          QuietMove(s, e.move, tips, signer);
          QuietKeepsOne(s, AfterMove(s, e.move), signer);
        } else {
          QuietStep(s, e, tips, signer);
          QuietKeepsOne(s, Next(s, e), signer);
        }
      }
    }
  }

  lemma PublishNext(s: System, e: Step, tips: seq<Hash>)
    requires Enabled(s, e, tips) && StepFits(s, e)
    ensures e.Publish? ==> MoveFits(s, e.move) && CanPublish(s, e.move, tips) && Next(s, e) == AfterMove(s, e.move)
    ensures e.Publish? && e.move.FailJob? ==> s.held.Some? && AtPub(s, s.held.value)
  {
  }

  lemma {:induction false} FlightAlwaysHolds(confirmations: nat, log: seq<Step>, tips: seq<Hash>)
    requires Legal(confirmations, log, tips) && OnlyGrows(tips) && Honest(confirmations, log, tips)
    ensures FlightInv(After(confirmations, log), tips, ChargeClock(log))
  {
    hide Next, StepFits, Enabled, LedgerInv, HonestStep, OnlyGrows;
    if log == [] {
      assert After(confirmations, log).head <= Height(tips[0]) && 0 < |tips|;
    } else {
      var before := log[..|log| - 1];
      FlightAlwaysHolds(confirmations, before, tips);
      LedgerAlwaysHolds(confirmations, before, tips);
      StepKeepsLedger(After(confirmations, before), log[|log| - 1], tips);
      StepKeepsFlight(After(confirmations, before), before, log[|log| - 1], tips);
    }
  }

  /** At most one row is in flight for each wallet in every state of the run. */
  ghost predicate AlwaysOne(confirmations: nat, log: seq<Step>) {
    && OneForEach(After(confirmations, log))
    && (log != [] ==> AlwaysOne(confirmations, log[..|log| - 1]))
  }

  predicate NeverClashes(confirmations: nat, log: seq<Step>) {
    log != [] ==>
      && NeverClashes(confirmations, log[..|log| - 1])
      && !Clashes(After(confirmations, log[..|log| - 1]), log[|log| - 1])
  }

  /**
   Without reorganizations and with an honest node, no row is ever reopened, and at most one row
   of both journals is in flight for each wallet in every state, if and only if the publication
   job's error handler never writes over a resolved row while another row of its wallet is in
   flight.
   */
  lemma {:induction false} OneInFlight(confirmations: nat, log: seq<Step>, tips: seq<Hash>)
    requires Legal(confirmations, log, tips) && Honest(confirmations, log, tips)
    requires OnlyGrows(tips) && (forall t :: 0 <= t < |tips| ==> NoncesMinedOnce(tips[t]))
    ensures forall k :: 0 <= k < |log| ==> !Reopens(After(confirmations, log[..k]), log[k])
    ensures AlwaysOne(confirmations, log) <==> NeverClashes(confirmations, log)
  {
    hide Next, StepFits, Enabled, LedgerInv, SeenInv, FlightInv, HonestStep, OnlyGrows, NoncesMinedOnce, Clashes,
         Reopens;
    if log == [] {
      NothingInFlight(confirmations);
    } else {
      var n := |log| - 1;
      var before, e := log[..n], log[n];
      var s := After(confirmations, before);
      OneInFlight(confirmations, before, tips);
      GrowingRevivesNothing(tips);
      LedgerAlwaysHolds(confirmations, before, tips);
      SeenAlwaysHolds(confirmations, before, tips);
      FlightAlwaysHolds(confirmations, before, tips);
      StepKeepsLedger(s, e, tips);
      NothingReopens(s, before, e, tips);
      if OneForEach(s) {
        FlightStep(s, before, e, tips);
      }
      forall k | 0 <= k < |log| ensures !Reopens(After(confirmations, log[..k]), log[k]) {
        if k < n {
          assert before[..k] == log[..k] && before[k] == log[k];
        }
      }
    }
  }

  lemma NothingInFlight(confirmations: nat)
    ensures OneForEach(After(confirmations, []))
  {
  }
}
