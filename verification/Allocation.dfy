/** Sums of raw token amounts and the split of a collected amount over a batch's clicks. */
module Allocation {
  function Sum(amounts: seq<nat>): nat {
    if amounts == [] then 0 else Sum(amounts[..|amounts| - 1]) + amounts[|amounts| - 1]
  }

  lemma {:induction false} SumAppend(a: seq<nat>, b: seq<nat>)
    ensures Sum(a + b) == Sum(a) + Sum(b)
  {
    if b == [] {
      assert a + b == a;
    } else {
      var n := |b| - 1;
      assert (a + b)[..|a + b| - 1] == a + b[..n];
      SumAppend(a, b[..n]);
    }
  }

  lemma SumPrefix(amounts: seq<nat>, i: nat, j: nat)
    requires i <= j <= |amounts|
    ensures Sum(amounts[..i]) <= Sum(amounts[..j])
  {
    assert amounts[..j] == amounts[..i] + amounts[i..j];
    SumAppend(amounts[..i], amounts[i..j]);
  }

  /**
   The debt at position `k` (oldest first) is collected: it is zero, or the whole debt up to
   and including it fits in `charged`.
   */
  predicate Settles(amounts: seq<nat>, k: nat, charged: nat)
    requires k < |amounts|
  {
    amounts[k] == 0 || Sum(amounts[..k + 1]) <= charged
  }

  function Collected(amounts: seq<nat>, charged: nat, n: nat): (settled: seq<nat>)
    requires n <= |amounts|
    ensures |settled| == n
    ensures forall k :: 0 <= k < n ==> settled[k] == if Settles(amounts, k, charged) then amounts[k] else 0
  {
    seq(n, k requires 0 <= k < n => if Settles(amounts, k, charged) then amounts[k] else 0)
  }

  /** What is taken for settled clicks never exceeds what the contract charged. */
  lemma {:induction false} SettledWithinCharge(amounts: seq<nat>, charged: nat, n: nat)
    requires n <= |amounts|
    ensures Sum(Collected(amounts, charged, n)) <= charged
    ensures Sum(amounts[..n]) <= charged ==> Sum(Collected(amounts, charged, n)) == Sum(amounts[..n])
    decreases n
  {
    if n > 0 {
      SettledWithinCharge(amounts, charged, n - 1);
      var c := Collected(amounts, charged, n);
      assert c[..n - 1] == Collected(amounts, charged, n - 1);
      assert amounts[..n][..n - 1] == amounts[..n - 1];
      SumPrefix(amounts, n - 1, n);
    }
  }

  /**
   The positive debts that settle are exactly those before some cut: once one stays unpaid,
   every later positive one does, and what is left over is smaller than the first unpaid debt.
   */
  lemma OldestFirstPrefix(amounts: seq<nat>, charged: nat, j: nat, k: nat)
    requires j < k < |amounts| && amounts[j] > 0 && amounts[k] > 0
    requires Settles(amounts, k, charged)
    ensures Settles(amounts, j, charged)
  {
    SumPrefix(amounts, j + 1, k + 1);
  }

  lemma RemainderBelowFirstUnpaid(amounts: seq<nat>, charged: nat, k: nat)
    requires k < |amounts| && !Settles(amounts, k, charged)
    requires forall j :: 0 <= j < k ==> Settles(amounts, j, charged)
    ensures charged - Sum(Collected(amounts, charged, k)) < amounts[k]
  {
    LastPositive(amounts, charged, k);
    SettledWithinCharge(amounts, charged, k);
    assert amounts[..k + 1][..k] == amounts[..k];
  }

  /** A prefix that all settles costs at most the charge. */
  lemma {:induction false} LastPositive(amounts: seq<nat>, charged: nat, k: nat)
    requires k <= |amounts| && forall j :: 0 <= j < k ==> Settles(amounts, j, charged)
    ensures Sum(amounts[..k]) <= charged
  {
    if k > 0 {
      LastPositive(amounts, charged, k - 1);
      assert Settles(amounts, k - 1, charged);
      assert amounts[..k][..k - 1] == amounts[..k - 1];
    }
  }

  lemma AllSettleIffPaid(amounts: seq<nat>, charged: nat)
    ensures (forall k :: 0 <= k < |amounts| ==> Settles(amounts, k, charged)) <==> Sum(amounts) <= charged
  {
    assert amounts[..|amounts|] == amounts;
    if Sum(amounts) <= charged {
      forall k | 0 <= k < |amounts| ensures Settles(amounts, k, charged) {
        SumPrefix(amounts, k + 1, |amounts|);
      }
    } else if forall k :: 0 <= k < |amounts| ==> Settles(amounts, k, charged) {
      LastPositive(amounts, charged, |amounts|);
    }
  }

  /**
   The loop of the settlement: walk the debts oldest first, pay each one that the remaining
   amount covers, and drop the remainder at the first one it does not cover.
   */
  method Allocate(ids: seq<nat>, amounts: seq<nat>, charged: nat)
    returns (settled: seq<nat>, unpaid: seq<nat>)
    requires |ids| == |amounts|
    requires forall i, j :: 0 <= i < j < |ids| ==> ids[i] != ids[j]
    ensures forall k :: 0 <= k < |ids| ==> (ids[k] in settled <==> Settles(amounts, k, charged))
    ensures forall k :: 0 <= k < |ids| ==> (ids[k] in unpaid <==> !Settles(amounts, k, charged))
    ensures forall id :: id in settled || id in unpaid ==> id in ids
    ensures |settled| + |unpaid| == |ids|
  {
    var available := charged;
    settled, unpaid := [], [];
    var n := 0;
    while n < |ids|
      invariant n <= |ids|
      invariant available == if Sum(amounts[..n]) <= charged then charged - Sum(amounts[..n]) else 0
      invariant forall k :: 0 <= k < n ==> (ids[k] in settled <==> Settles(amounts, k, charged))
      invariant forall k :: 0 <= k < n ==> (ids[k] in unpaid <==> !Settles(amounts, k, charged))
      invariant forall id :: id in settled || id in unpaid ==> id in ids[..n]
      invariant |settled| + |unpaid| == n
    {
      assert amounts[..n + 1][..n] == amounts[..n];
      var due := amounts[n];
      if available >= due {
        settled := settled + [ids[n]];
        available := available - due;
      } else {
        unpaid := unpaid + [ids[n]];
        available := 0;
      }
      n := n + 1;
    }
  }
}
