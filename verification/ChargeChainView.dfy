/** The chain client of one pass, and the rule that later chain history keeps earlier evidence. */
module ChargeChainView {
  import opened Prelude
  import opened Chain
  import opened ChargeTypes
  import opened ChargeSteps

  /**
   Block hashes are read from the node once per pass and height, then answered from the map.
   The chain may move between any two reads: `tips` records how it moved, and a caller only
   learns that the history was extended without reviving a dropped block.
   */
  class ChargeChain {
    var tips: seq<Hash>
    var blockHashes: map<nat, Hash>
    ghost var readAt: map<nat, nat>
    ghost var since: nat

    ghost predicate Ok()
      reads this
    {
      && since < |tips| && NoRevival(tips)
      && (forall n :: n in blockHashes ==>
            n in readAt && since <= readAt[n]
            && CanonicalAt(blockHashes[n], tips, readAt[n]) && Height(blockHashes[n]) == n)
    }

    /** Time passes within the pass, and what was read stays read. */
    twostate predicate MovedOn()
      reads this
    {
      && since == old(since) && old(tips) <= tips
      && forall n :: n in old(blockHashes) ==> n in blockHashes && blockHashes[n] == old(blockHashes)[n]
    }

    constructor (genesis: Hash)
      ensures Ok() && tips == [genesis]
    {
      tips, blockHashes := [genesis], map[];
      readAt, since := map[], 0;
    }

    /**
     A new client for a new pass: nothing that an earlier pass read is reused, and the pass
     begins when its first hash is read.
     */
    method Open(n: nat) returns (hash: Rpc<Hash>)
      requires Ok()
      modifies this
      ensures Ok() && old(tips) <= tips && since >= |old(tips)| - 1
      ensures hash.Got? ==> CanonicalAt(hash.value, tips, since) && Height(hash.value) == n
      ensures if n in blockHashes then hash == Got(blockHashes[n]) else hash.Lost?
    {
      blockHashes := map[];
      readAt, since := map[], |tips| - 1;
      var tip, answered := tips[|tips| - 1], *;
      if n > Height(tip) || !answered {
        return Lost;
      }
      AtIsOn(tip, n);
      hash := Got(At(tip, n));
      blockHashes := blockHashes[n := At(tip, n)];
      readAt := readAt[n := since];
    }

    /** The canonical hash at a height, as some node saw it during this pass. */
    method BlockHash(n: nat) returns (hash: Rpc<Hash>, ghost at: nat)
      requires Ok()
      modifies this
      ensures Ok() && MovedOn()
      ensures hash.Got? ==> since <= at && CanonicalAt(hash.value, tips, at) && Height(hash.value) == n
      ensures if n in blockHashes then hash == Got(blockHashes[n]) else hash.Lost?
    {
      if n in blockHashes {
        hash, at := Got(blockHashes[n]), readAt[n];
        return;
      }
      var tip, answered := tips[|tips| - 1], *;
      at := |tips| - 1;
      if n > Height(tip) || !answered {
        hash := Lost;
      } else {
        AtIsOn(tip, n);
        hash := Got(At(tip, n));
        blockHashes := blockHashes[n := At(tip, n)];
        readAt := readAt[n := at];
      }
    }
  }

  /** A log of a receipt; `charge` is None when it does not decode as a charge. */
  datatype ReceiptLog = ReceiptLog(fromMarket: bool, charge: Option<ChargeEvent>)

  predicate AcknowledgedBy(log: ReceiptLog, chargeId: nat) {
    log.fromMarket && log.charge.Some? && log.charge.value.chargeId == chargeId
  }

  /** The event of a receipt: the last market log that acknowledges the charge, whatever else is there. */
  method FindCharge(logs: seq<ReceiptLog>, chargeId: nat) returns (event: Option<ChargeEvent>)
    ensures event.None? <==> forall k :: 0 <= k < |logs| ==> !AcknowledgedBy(logs[k], chargeId)
    ensures event.Some? ==> exists k ::
      && 0 <= k < |logs| && AcknowledgedBy(logs[k], chargeId) && event == logs[k].charge
      && forall j :: k < j < |logs| ==> !AcknowledgedBy(logs[j], chargeId)
  {
    event := None;
    ghost var at := 0;
    for n := 0 to |logs|
      invariant event.None? <==> forall k :: 0 <= k < n ==> !AcknowledgedBy(logs[k], chargeId)
      invariant event.Some? ==>
        && 0 <= at < n && AcknowledgedBy(logs[at], chargeId) && event == logs[at].charge
        && forall j :: at < j < n ==> !AcknowledgedBy(logs[j], chargeId)
    {
      if !logs[n].fromMarket {
        continue;
      }
      if logs[n].charge.Some? && logs[n].charge.value.chargeId == chargeId {
        event := logs[n].charge;
        at := n;
      }
    }
  }

  lemma UndecidedGrows(s: System, look: Lookup, tips: seq<Hash>, more: seq<Hash>)
    requires Undecided(s, look, tips) && tips <= more
    ensures Undecided(s, look, more)
  {
    if look.Found? && look.reverted && Final(s, look.number) {
      var other: Hash, at: nat :| SeenInPass(s, tips, look.number, other, at) && other != look.hash;
      assert SeenInPass(s, more, look.number, other, at);
    }
  }

  lemma EnabledGrows(s: System, e: Step, tips: seq<Hash>, more: seq<Hash>)
    requires Enabled(s, e, tips) && tips <= more
    ensures Enabled(s, e, more)
  {
    if e.Await? || e.Submit? {
      UndecidedGrows(s, e.look, tips, more);
    } else if e.Send? || e.Sign? {
      forall c | c in s.batches[e.batch].members && c in s.clicks
        ensures EvidenceSeen(more, s.passStart, FinalBlock(s), s.clicks[c])
      {
        EvidenceGrows(tips, more, s.passStart, FinalBlock(s), s.clicks[c]);
      }
    }
  }

  /** A run that was legal stays legal as the chain moves on. */
  lemma {:induction false} LegalGrows(confirmations: nat, log: seq<Step>, tips: seq<Hash>, more: seq<Hash>)
    requires Legal(confirmations, log, tips) && tips <= more
    ensures Legal(confirmations, log, more)
  {
    if log != [] {
      LegalGrows(confirmations, log[..|log| - 1], tips, more);
      EnabledGrows(After(confirmations, log[..|log| - 1]), log[|log| - 1], tips, more);
    }
  }

  /** A hash read at a height contradicts every other hash of that height. */
  lemma OtherHashIsOrphaned(read: Hash, stored: Hash, tips: seq<Hash>, at: nat)
    requires CanonicalAt(read, tips, at) && Height(read) == Height(stored) && read != stored
    ensures !On(stored, tips[at])
  {
    if On(stored, tips[at]) {
      SameHeight(read, stored, tips[at]);
    }
  }
}
