/** Which debts a run picks up, and how they are grouped into one batch per stake. */
module Grouping {
  import opened ChargeTypes
  import opened ChargeSteps
  import opened ChargeLedger
  import Allocation

  // ---- database order ---------------------------------------------------------------------

  lemma {:induction false} LeastExists(clicks: map<ClickId, Click>, ids: set<ClickId>) returns (least: ClickId)
    requires ids != {} && (forall c :: c in ids ==> c in clicks)
    ensures least in ids && (forall d :: d in ids && d != least ==> Before(clicks, least, d))
    decreases |ids|
  {
    var c :| c in ids;
    if ids == {c} {
      least := c;
    } else {
      assert ids - {c} != {} by { assert exists d :: d in ids && d != c; }
      var rest := LeastExists(clicks, ids - {c});
      least := if Before(clicks, c, rest) then c else rest;
      forall d | d in ids && d != least ensures Before(clicks, least, d) {
        if d != c && d != rest {
          assert d in ids - {c} && Before(clicks, rest, d);
        }
      }
    }
  }

  /** `findMany` ordered by click time and id, over the rows in `wanted`. */
  method FindOrdered(clicks: map<ClickId, Click>, wanted: set<ClickId>) returns (ids: seq<ClickId>)
    requires forall c :: c in wanted ==> c in clicks
    ensures forall c :: c in ids <==> c in wanted
    ensures Known(clicks, ids) && Ordered(clicks, ids)
  {
    ids := [];
    var rest := wanted;
    while rest != {}
      invariant rest <= wanted
      invariant forall c :: c in ids <==> c in wanted && c !in rest
      invariant Known(clicks, ids) && Ordered(clicks, ids)
      invariant forall j, d :: 0 <= j < |ids| && d in rest ==> Before(clicks, ids[j], d)
      decreases |rest|
    {
      ghost var least := LeastExists(clicks, rest);
      var c :| c in rest && (forall d :: d in rest && d != c ==> Before(clicks, c, d));
      ids := ids + [c];
      rest := rest - {c};
    }
  }

  // ---- when a group is due ----------------------------------------------------------------

  function Oldest(clicks: map<ClickId, Click>, ids: seq<ClickId>): int
    requires Known(clicks, ids) && ids != []
  {
    var t := clicks[ids[0]].clickedAt;
    if |ids| == 1 then t
    else
      assert forall c :: c in ids[1..] ==> c in ids;
      var rest := Oldest(clicks, ids[1..]);
      if t < rest then t else rest
  }

  predicate ChargeGroupDue(clicks: map<ClickId, Click>, ids: seq<ClickId>, intervalMinutes: nat, clickThreshold: nat,
                           now: int)
    requires Known(clicks, ids)
  {
    |ids| >= clickThreshold || (ids != [] && now - Oldest(clicks, ids) >= intervalMinutes * 60000)
  }

  /** A group is due iff it is large enough or some click of it has waited the whole interval. */
  lemma {:induction false} DueIffLargeOrOld(clicks: map<ClickId, Click>, ids: seq<ClickId>, intervalMinutes: nat,
                                            clickThreshold: nat, now: int)
    requires Known(clicks, ids)
    ensures ChargeGroupDue(clicks, ids, intervalMinutes, clickThreshold, now) <==>
      |ids| >= clickThreshold ||
      exists c :: c in ids && now - clicks[c].clickedAt >= intervalMinutes * 60000
    decreases |ids|
  {
    if |ids| > 1 {
      assert forall c :: c in ids[1..] ==> c in ids;
      DueIffLargeOrOld(clicks, ids[1..], intervalMinutes, |ids|, now);
      if c :| c in ids && now - clicks[c].clickedAt >= intervalMinutes * 60000 && c != ids[0] {
        assert c in ids[1..];
      }
    }
  }

  // ---- grouping ---------------------------------------------------------------------------

  /** The clicks of one stake, in input order. */
  function Pick(clicks: map<ClickId, Click>, ids: seq<ClickId>, key: StakeKey): (r: seq<ClickId>)
    requires Known(clicks, ids)
    ensures forall c :: c in r <==> c in ids && clicks[c].key == key
  {
    if ids == [] then []
    else
      var n := |ids| - 1;
      assert forall c :: c in ids[..n] ==> c in ids;
      assert ids == ids[..n] + [ids[n]];
      Pick(clicks, ids[..n], key) + if clicks[ids[n]].key == key then [ids[n]] else []
  }

  /** The stakes in the order in which they first appear. */
  function Keys(clicks: map<ClickId, Click>, ids: seq<ClickId>): (r: seq<StakeKey>)
    requires Known(clicks, ids)
    ensures forall k :: k in r <==> exists c :: c in ids && clicks[c].key == k
    ensures forall i, j :: 0 <= i < j < |r| ==> r[i] != r[j]
  {
    if ids == [] then []
    else
      var n := |ids| - 1;
      assert forall c :: c in ids[..n] ==> c in ids;
      assert ids == ids[..n] + [ids[n]];
      var rest := Keys(clicks, ids[..n]);
      if clicks[ids[n]].key in rest then rest else rest + [clicks[ids[n]].key]
  }

  /** One group per stake: its clicks in input order, stakes by first appearance. */
  ghost predicate IsGrouping(clicks: map<ClickId, Click>, ids: seq<ClickId>, groups: seq<seq<ClickId>>)
    requires Known(clicks, ids)
  {
    var keys := Keys(clicks, ids);
    |groups| == |keys| && forall k :: 0 <= k < |keys| ==> groups[k] == Pick(clicks, ids, keys[k])
  }

  lemma OneMore(clicks: map<ClickId, Click>, ids: seq<ClickId>, n: nat)
    requires Known(clicks, ids) && n < |ids|
    ensures Known(clicks, ids[..n]) && Known(clicks, ids[..n + 1])
    ensures var key := clicks[ids[n]].key;
      && (forall k :: Pick(clicks, ids[..n + 1], k) ==
            Pick(clicks, ids[..n], k) + if k == key then [ids[n]] else [])
      && Keys(clicks, ids[..n + 1]) ==
            Keys(clicks, ids[..n]) + if key in Keys(clicks, ids[..n]) then [] else [key]
  {
    assert ids[..n + 1][..n] == ids[..n];
    assert forall c :: c in ids[..n + 1] ==> c in ids;
  }

  /** The table holds the clicks of each stake seen so far. */
  ghost predicate Filled(clicks: map<ClickId, Click>, ids: seq<ClickId>, order: seq<StakeKey>,
                         table: map<StakeKey, seq<ClickId>>) {
    && Known(clicks, ids) && order == Keys(clicks, ids)
    && (forall k :: k in order <==> k in table)
    && (forall k :: k in table ==> table[k] == Pick(clicks, ids, k))
  }

  lemma FillOne(clicks: map<ClickId, Click>, ids: seq<ClickId>, n: nat, order: seq<StakeKey>,
                table: map<StakeKey, seq<ClickId>>)
    requires Known(clicks, ids) && n < |ids| && Filled(clicks, ids[..n], order, table)
    ensures var key := clicks[ids[n]].key;
      if key in table then Filled(clicks, ids[..n + 1], order, table[key := table[key] + [ids[n]]])
      else Filled(clicks, ids[..n + 1], order + [key], table[key := [ids[n]]])
  {
    hide Pick, Keys;
    OneMore(clicks, ids, n);
    var key := clicks[ids[n]].key;
    if key !in table {
      NoneToPick(clicks, ids[..n], key);
    }
  }

  /** First loop: append each click to the group of its stake, opening groups as stakes appear. */
  method Collect(clicks: map<ClickId, Click>, ids: seq<ClickId>)
    returns (order: seq<StakeKey>, table: map<StakeKey, seq<ClickId>>)
    requires Known(clicks, ids)
    ensures order == Keys(clicks, ids)
    ensures forall k :: k in order ==> k in table && table[k] == Pick(clicks, ids, k)
  {
    hide Pick;
    order, table := [], map[];
    var n := 0;
    while n < |ids|
      invariant n <= |ids| && Filled(clicks, ids[..n], order, table)
    {
      FillOne(clicks, ids, n, order, table);
      var key := clicks[ids[n]].key;
      if key in table {
        table := table[key := table[key] + [ids[n]]];
      } else {
        order := order + [key];
        table := table[key := [ids[n]]];
      }
      n := n + 1;
    }
    assert ids[..n] == ids;
  }

  method Groups(clicks: map<ClickId, Click>, ids: seq<ClickId>) returns (groups: seq<seq<ClickId>>)
    requires Known(clicks, ids)
    ensures IsGrouping(clicks, ids, groups)
  {
    hide Pick, Keys;
    var order, table := Collect(clicks, ids);
    groups := [];
    var n := 0;
    while n < |order|
      invariant n <= |order| && |groups| == n
      invariant forall k :: 0 <= k < n ==> groups[k] == Pick(clicks, ids, order[k])
    {
      assert order[n] in order;
      groups := groups + [table[order[n]]];
      n := n + 1;
    }
  }

  lemma {:induction false} NoneToPick(clicks: map<ClickId, Click>, ids: seq<ClickId>, key: StakeKey)
    requires Known(clicks, ids) && key !in Keys(clicks, ids)
    ensures Pick(clicks, ids, key) == []
    decreases |ids|
  {
    if ids != [] {
      var n := |ids| - 1;
      assert forall c :: c in ids[..n] ==> c in ids;
      NoneToPick(clicks, ids[..n], key);
    }
  }

  // ---- what grouping keeps ----------------------------------------------------------------

  function Flatten(groups: seq<seq<ClickId>>): seq<ClickId> {
    if groups == [] then [] else Flatten(groups[..|groups| - 1]) + groups[|groups| - 1]
  }

  function Counted(clicks: map<ClickId, Click>, ids: seq<ClickId>, keys: seq<StakeKey>): multiset<ClickId>
    requires Known(clicks, ids)
  {
    if keys == [] then multiset{}
    else Counted(clicks, ids, keys[..|keys| - 1]) + multiset(Pick(clicks, ids, keys[|keys| - 1]))
  }

  /** Adding one click to the input adds it to exactly the group of its stake. */
  lemma {:induction false} CountedStep(clicks: map<ClickId, Click>, ids: seq<ClickId>, n: nat, keys: seq<StakeKey>)
    requires Known(clicks, ids) && n < |ids| && Known(clicks, ids[..n]) && Known(clicks, ids[..n + 1])
    requires forall i, j :: 0 <= i < j < |keys| ==> keys[i] != keys[j]
    ensures Counted(clicks, ids[..n + 1], keys) == Counted(clicks, ids[..n], keys)
        + if clicks[ids[n]].key in keys then multiset{ids[n]} else multiset{}
    decreases |keys|
  {
    hide Pick, Keys;
    if keys != [] {
      var m := |keys| - 1;
      CountedStep(clicks, ids, n, keys[..m]);
      OneMore(clicks, ids, n);
      assert keys == keys[..m] + [keys[m]];
      assert clicks[ids[n]].key == keys[m] ==> keys[m] !in keys[..m];
    }
  }

  lemma NewKeyCountsNothing(clicks: map<ClickId, Click>, ids: seq<ClickId>, keys: seq<StakeKey>, key: StakeKey)
    requires Known(clicks, ids) && key !in Keys(clicks, ids)
    ensures Counted(clicks, ids, keys + [key]) == Counted(clicks, ids, keys)
  {
    NoneToPick(clicks, ids, key);
    assert (keys + [key])[..|keys|] == keys;
  }

  lemma {:induction false} CountedAll(clicks: map<ClickId, Click>, ids: seq<ClickId>)
    requires Known(clicks, ids)
    ensures Counted(clicks, ids, Keys(clicks, ids)) == multiset(ids)
    decreases |ids|
  {
    if ids != [] {
      var n := |ids| - 1;
      assert forall c :: c in ids[..n] ==> c in ids;
      assert ids == ids[..n] + [ids[n]] && ids[..n + 1] == ids;
      CountedAll(clicks, ids[..n]);
      var rest := Keys(clicks, ids[..n]);
      OneMore(clicks, ids, n);
      CountedStep(clicks, ids, n, Keys(clicks, ids));
      if clicks[ids[n]].key !in rest {
        NewKeyCountsNothing(clicks, ids[..n], rest, clicks[ids[n]].key);
      }
    }
  }

  lemma {:induction false} FlattenCounts(clicks: map<ClickId, Click>, ids: seq<ClickId>, keys: seq<StakeKey>,
                                         groups: seq<seq<ClickId>>)
    requires Known(clicks, ids) && |groups| == |keys|
    requires forall k :: 0 <= k < |keys| ==> groups[k] == Pick(clicks, ids, keys[k])
    ensures multiset(Flatten(groups)) == Counted(clicks, ids, keys)
  {
    if groups != [] {
      var m := |groups| - 1;
      FlattenCounts(clicks, ids, keys[..m], groups[..m]);
    }
  }

  /** No click is lost, added or put in two groups. */
  lemma GroupsArePermutation(clicks: map<ClickId, Click>, ids: seq<ClickId>, groups: seq<seq<ClickId>>)
    requires Known(clicks, ids) && IsGrouping(clicks, ids, groups)
    ensures multiset(Flatten(groups)) == multiset(ids)
  {
    FlattenCounts(clicks, ids, Keys(clicks, ids), groups);
    CountedAll(clicks, ids);
  }

  function Debt(clicks: map<ClickId, Click>, ids: seq<ClickId>): nat
    requires Known(clicks, ids)
  {
    Allocation.Sum(Amounts(clicks, ids))
  }

  function Debts(clicks: map<ClickId, Click>, groups: seq<seq<ClickId>>): nat
    requires forall k :: 0 <= k < |groups| ==> Known(clicks, groups[k])
  {
    if groups == [] then 0
    else Debts(clicks, groups[..|groups| - 1]) + Debt(clicks, groups[|groups| - 1])
  }

  lemma DebtAppend(clicks: map<ClickId, Click>, a: seq<ClickId>, b: seq<ClickId>)
    requires Known(clicks, a) && Known(clicks, b)
    ensures Known(clicks, a + b) && Debt(clicks, a + b) == Debt(clicks, a) + Debt(clicks, b)
  {
    assert Amounts(clicks, a + b) == Amounts(clicks, a) + Amounts(clicks, b);
    Allocation.SumAppend(Amounts(clicks, a), Amounts(clicks, b));
  }

  lemma {:induction false} FlattenDebt(clicks: map<ClickId, Click>, groups: seq<seq<ClickId>>)
    requires forall k :: 0 <= k < |groups| ==> Known(clicks, groups[k])
    ensures Known(clicks, Flatten(groups)) && Debt(clicks, Flatten(groups)) == Debts(clicks, groups)
  {
    if groups != [] {
      var m := |groups| - 1;
      FlattenDebt(clicks, groups[..m]);
      DebtAppend(clicks, Flatten(groups[..m]), groups[m]);
    }
  }

  lemma RemoveOne(ids: seq<ClickId>, j: nat)
    requires j < |ids|
    ensures multiset(ids[..j] + ids[j + 1..]) == multiset(ids) - multiset{ids[j]}
  {
    assert ids == ids[..j] + [ids[j]] + ids[j + 1..];
  }

  lemma DebtRemoveOne(clicks: map<ClickId, Click>, ids: seq<ClickId>, j: nat)
    requires Known(clicks, ids) && j < |ids|
    ensures Known(clicks, [ids[j]]) && Known(clicks, ids[..j] + ids[j + 1..])
    ensures Debt(clicks, ids) == Debt(clicks, ids[..j] + ids[j + 1..]) + Debt(clicks, [ids[j]])
  {
    assert ids == ids[..j] + [ids[j]] + ids[j + 1..];
    assert forall c :: c in ids[..j] || c in ids[j + 1..] ==> c in ids;
    DebtAppend(clicks, ids[..j], [ids[j]]);
    DebtAppend(clicks, ids[..j] + [ids[j]], ids[j + 1..]);
    DebtAppend(clicks, ids[..j], ids[j + 1..]);
  }

  /** A debt depends on the clicks, not on their order. */
  lemma {:induction false} DebtOfPermutation(clicks: map<ClickId, Click>, a: seq<ClickId>, b: seq<ClickId>)
    requires Known(clicks, a) && Known(clicks, b) && multiset(a) == multiset(b)
    ensures Debt(clicks, a) == Debt(clicks, b)
    decreases |a|
  {
    if a == [] {
      assert |multiset(b)| == 0;
    } else {
      assert a[0] in multiset(b);
      var j :| 0 <= j < |b| && b[j] == a[0];
      RemoveOne(a, 0);
      RemoveOne(b, j);
      DebtRemoveOne(clicks, a, 0);
      DebtRemoveOne(clicks, b, j);
      DebtOfPermutation(clicks, a[..0] + a[1..], b[..j] + b[j + 1..]);
    }
  }

  /** The dues of all groups sum to the total of the clicks. */
  lemma GroupDuesAddUp(clicks: map<ClickId, Click>, ids: seq<ClickId>, groups: seq<seq<ClickId>>)
    requires Known(clicks, ids) && IsGrouping(clicks, ids, groups)
    ensures forall k :: 0 <= k < |groups| ==> Known(clicks, groups[k])
    ensures Debts(clicks, groups) == Debt(clicks, ids)
  {
    FlattenDebt(clicks, groups);
    GroupsArePermutation(clicks, ids, groups);
    DebtOfPermutation(clicks, Flatten(groups), ids);
  }

  lemma {:induction false} PickKeepsOrder(clicks: map<ClickId, Click>, ids: seq<ClickId>, key: StakeKey)
    requires Known(clicks, ids) && Ordered(clicks, ids)
    ensures Ordered(clicks, Pick(clicks, ids, key))
    decreases |ids|
  {
    hide Before;
    if ids != [] {
      var n := |ids| - 1;
      assert forall c :: c in ids[..n] ==> c in ids;
      PickKeepsOrder(clicks, ids[..n], key);
      var rest := Pick(clicks, ids[..n], key);
      forall j | 0 <= j < |rest| ensures Before(clicks, rest[j], ids[n]) {
        assert rest[j] in rest;
        var m :| 0 <= m < n && ids[..n][m] == rest[j];
        assert Before(clicks, ids[m], ids[n]);
      }
    }
  }

  /** Groups of pending debt in database order are what a reservation may claim. */
  lemma GroupsAreReservable(clicks: map<ClickId, Click>, ids: seq<ClickId>, groups: seq<seq<ClickId>>)
    requires Known(clicks, ids) && Ordered(clicks, ids) && IsGrouping(clicks, ids, groups)
    requires forall c :: c in ids ==> clicks[c].status.Pending? && clicks[c].batch.None? && clicks[c].amount.Some?
    ensures forall k :: 0 <= k < |groups| ==> Reservable(clicks, groups[k])
    ensures forall j, k, c :: 0 <= j < k < |groups| && c in groups[j] ==> c !in groups[k]
  {
    var keys := Keys(clicks, ids);
    forall k | 0 <= k < |groups| ensures Reservable(clicks, groups[k]) {
      PickKeepsOrder(clicks, ids, keys[k]);
      assert keys[k] in keys;
      var c :| c in ids && clicks[c].key == keys[k];
      assert c in groups[k];
      forall i | 0 <= i < |groups[k]| ensures clicks[groups[k][i]].key == keys[k] {
        assert groups[k][i] in groups[k];
      }
    }
  }
}
