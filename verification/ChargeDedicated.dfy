/** Wallets that serve one journal only, as both jobs demand of the contract's roles. */
module ChargeDedicated {
  import opened Prelude
  import opened ChargeTypes
  import opened ChargeSteps
  import opened ChargeLedger
  import opened ChargeCheckpoint
  import opened ChargeWallet
  import opened ChargeHonesty
  import opened ChargeFlight

  predicate KeepsApart(e: Step, operators: set<Address>) {
    (e.Sign? ==> e.tx.signer in operators) && (SignsPub(e) ==> e.move.signer !in operators)
  }

  /** The operators sign charges, everyone else prices. */
  predicate Dedicated(log: seq<Step>, operators: set<Address>) {
    forall k :: 0 <= k < |log| ==> KeepsApart(log[k], operators)
  }

  /** The row that the publication job holds is the only one of its wallet that can be in flight. */
  predicate HeldAlone(s: System) {
    s.held.Some? ==>
      && AtPub(s, s.held.value)
      && var signer := s.publications[s.held.value].signer;
         signer.Some? ==>
           forall q :: 0 <= q < |s.publications| && q != s.held.value ==> !PublicationInFlight(s, signer.value, q)
  }

  predicate ChargesApart(s: System, operators: set<Address>) {
    forall i :: 0 <= i < |s.batches| && s.batches[i].tx.Some? ==> s.batches[i].tx.value.signer in operators
  }

  predicate PricesApart(s: System, operators: set<Address>) {
    forall p :: 0 <= p < |s.publications| && s.publications[p].signer.Some? ==>
      s.publications[p].signer.value !in operators
  }

  lemma ApartNeverClashes(s: System, e: Step, operators: set<Address>)
    requires HeldAlone(s) && ChargesApart(s, operators) && PricesApart(s, operators)
    ensures !Clashes(s, e)
  {
  }

  lemma MoveKeepsApart(s: System, m: PubMove, tips: seq<Hash>, operators: set<Address>)
    requires HeldAlone(s) && PricesApart(s, operators) && OneForEach(s)
    requires CanPublish(s, m, tips) && MoveFits(s, m) && !m.Reopen? && (m.SignPub? ==> m.signer !in operators)
    ensures HeldAlone(AfterMove(s, m)) && PricesApart(AfterMove(s, m), operators)
  {
    var t := AfterMove(s, m);
    if t.held.Some? && t.publications[t.held.value].signer.Some? {
      var p, signer := t.held.value, t.publications[t.held.value].signer.value;
      if m.Take? {
        assert AtMostOneInFlight(s, signer) && PublicationInFlight(s, signer, p);
      }
      if !m.SignPub? {
        QuietMove(s, m, tips, signer);
      }
      forall q | 0 <= q < |t.publications| && q != p ensures !PublicationInFlight(t, signer, q) {
        assert m.SignPub? ==> Some(q) != Some(p) && !PublicationInFlight(s, signer, q);
      }
    }
  }

  lemma ElsewhereKeepsApart(s: System, e: Step, tips: seq<Hash>)
    requires HeldAlone(s) && Enabled(s, e, tips) && StepFits(s, e) && !e.Publish? && LedgerInv(s)
    ensures HeldAlone(Next(s, e)) && Next(s, e).publications == s.publications
  {
    hide Next, StepFits, Enabled, HeldAlone;
    OtherStepsPublishNothing(s, e);
    SamePublications(s, Next(s, e));
  }

  lemma SamePublications(s: System, t: System)
    requires HeldAlone(s) && t.publications == s.publications && t.held == s.held
    ensures HeldAlone(t)
  {
    assert forall a: Address, q :: 0 <= q < |s.publications| ==>
      PublicationInFlight(t, a, q) == PublicationInFlight(s, a, q);
  }

  lemma StepKeepsApart(s: System, e: Step, tips: seq<Hash>, operators: set<Address>)
    requires HeldAlone(s) && ChargesApart(s, operators) && PricesApart(s, operators) && OneForEach(s) && LedgerInv(s)
    requires Enabled(s, e, tips) && StepFits(s, e) && !Reopens(s, e) && KeepsApart(e, operators)
    ensures HeldAlone(Next(s, e)) && ChargesApart(Next(s, e), operators) && PricesApart(Next(s, e), operators)
  {
    BytesChangeOnlyBySigning(s, e);
    PublishNext(s, e, tips);
    hide LedgerInv, Next, Enabled, HeldAlone, OneForEach;
    if e.Publish? {
      MoveKeepsApart(s, e.move, tips, operators);
    } else {
      ElsewhereKeepsApart(s, e, tips);
    }
  }

  /**
   With wallets that serve one journal only the error handler does no harm: without
   reorganizations and with an honest node at most one row is ever in flight for each wallet.
   */
  lemma {:induction false} DedicatedWalletsNeverClash(confirmations: nat, log: seq<Step>, tips: seq<Hash>,
                                                      operators: set<Address>)
    requires Legal(confirmations, log, tips) && Honest(confirmations, log, tips)
    requires OnlyGrows(tips) && (forall t :: 0 <= t < |tips| ==> NoncesMinedOnce(tips[t]))
    requires Dedicated(log, operators)
    ensures AlwaysOne(confirmations, log)
    ensures var s := After(confirmations, log);
      HeldAlone(s) && ChargesApart(s, operators) && PricesApart(s, operators)
  {
    hide Next, StepFits, Enabled, LedgerInv, SeenInv, FlightInv, HonestStep, OnlyGrows, NoncesMinedOnce, Clashes,
         Reopens, AtMostOneInFlight, KeepsApart;
    OneInFlight(confirmations, log, tips);
    if log != [] {
      var n := |log| - 1;
      var before, e := log[..n], log[n];
      var s := After(confirmations, before);
      DedicatedWalletsNeverClash(confirmations, before, tips, operators);
      LedgerAlwaysHolds(confirmations, before, tips);
      StepKeepsLedger(s, e, tips);
      ApartNeverClashes(s, e, operators);
      OneInFlight(confirmations, before, tips);
      StepKeepsApart(s, e, tips, operators);
    }
  }
}
