/**
 Moving counters from Redis to the database. Any number of flushers may run at once and stop
 anywhere; each increment ends up in the database totals exactly once.
 */
module MetricFlush {
  import opened Prelude

  type Rev = nat
  type Entries = seq<(Rev, nat)>

  datatype MetricType = Resolutions | Views | Clicks

  /** What a counter key names; `day` is None when the key does not parse. */
  datatype Bucket = Bucket(metric: MetricType, day: Option<nat>)

  /** A counter hash renamed to a key of its own; fresh ids make its index its name. */
  datatype Batch = Batch(bucket: Bucket, entries: Entries)

  /** What a flush reports of one batch. */
  datatype Result = Result(key: nat, applied: bool, total: nat)

  datatype Totals = Totals(resolutions: nat, views: nat, clicks: nat)

  function Field(t: Totals, m: MetricType): nat {
    match m
    case Resolutions => t.resolutions
    case Views => t.views
    case Clicks => t.clicks
  }

  function Plus(t: Totals, m: MetricType, n: nat): Totals {
    match m
    case Resolutions => t.(resolutions := t.resolutions + n)
    case Views => t.(views := t.views + n)
    case Clicks => t.(clicks := t.clicks + n)
  }

  function Row<K(==)>(table: map<K, Totals>, k: K): Totals {
    if k in table then table[k] else Totals(0, 0, 0)
  }

  // ---- hashes -------------------------------------------------------------------------------

  function Count(entries: Entries, r: Rev): nat {
    if entries == [] then 0
    else Count(entries[..|entries| - 1], r) + if entries[|entries| - 1].0 == r then entries[|entries| - 1].1 else 0
  }

  function KnownTotal(entries: Entries, revisions: set<Rev>): nat {
    if entries == [] then 0
    else KnownTotal(entries[..|entries| - 1], revisions)
         + if entries[|entries| - 1].0 in revisions then entries[|entries| - 1].1 else 0
  }

  lemma OneEntryMore(entries: Entries, e: (Rev, nat), r: Rev, revisions: set<Rev>)
    ensures Count(entries + [e], r) == Count(entries, r) + if e.0 == r then e.1 else 0
    ensures KnownTotal(entries + [e], revisions) == KnownTotal(entries, revisions) + if e.0 in revisions then e.1 else 0
  {
    assert (entries + [e])[..|entries|] == entries;
  }

  // ---- sums over batches ----------------------------------------------------------------------

  /** What the named batches hold for a revision. */
  function SumOf(batches: seq<Batch>, keys: set<nat>, r: Rev): nat {
    if batches == [] then 0
    else
      var n := |batches| - 1;
      SumOf(batches[..n], keys, r) + if n in keys then Count(batches[n].entries, r) else 0
  }

  lemma {:induction false} SumSplits(batches: seq<Batch>, a: set<nat>, b: set<nat>, r: Rev)
    requires a !! b
    ensures SumOf(batches, a + b, r) == SumOf(batches, a, r) + SumOf(batches, b, r)
  {
    if batches != [] {
      SumSplits(batches[..|batches| - 1], a, b, r);
    }
  }

  lemma {:induction false} SumDependsOnCounted(batches: seq<Batch>, a: set<nat>, b: set<nat>, r: Rev)
    requires forall k :: 0 <= k < |batches| && Count(batches[k].entries, r) > 0 ==> (k in a <==> k in b)
    ensures SumOf(batches, a, r) == SumOf(batches, b, r)
  {
    if batches != [] {
      SumDependsOnCounted(batches[..|batches| - 1], a, b, r);
    }
  }

  lemma SumGrows(batches: seq<Batch>, b: Batch, keys: set<nat>, r: Rev)
    ensures SumOf(batches + [b], keys, r) == SumOf(batches, keys, r) + if |batches| in keys then Count(b.entries, r)
      else 0
  {
    assert (batches + [b])[..|batches|] == batches;
  }

  lemma {:induction false} SumOfOne(batches: seq<Batch>, k: nat, r: Rev)
    requires k < |batches|
    ensures SumOf(batches, {k}, r) == Count(batches[k].entries, r)
  {
    var n := |batches| - 1;
    if k < n {
      SumOfOne(batches[..n], k, r);
    } else {
      SumOfNone(batches[..n], {k}, r);
    }
  }

  lemma {:induction false} SumOfNone(batches: seq<Batch>, keys: set<nat>, r: Rev)
    requires forall k :: k in keys ==> |batches| <= k
    ensures SumOf(batches, keys, r) == 0
  {
    if batches != [] {
      SumOfNone(batches[..|batches| - 1], keys, r);
    }
  }

  lemma NothingCounted(r: Rev, revisions: set<Rev>)
    ensures Count([], r) == 0 && KnownTotal([], revisions) == 0
  {
  }

  /** HINCRBY by one. */
  function HIncrBy(entries: Entries, r: Rev): Entries {
    if entries == [] then [(r, 1)]
    else
      var n := |entries| - 1;
      if entries[n].0 == r then entries[..n] + [(r, entries[n].1 + 1)]
      else HIncrBy(entries[..n], r) + [entries[n]]
  }

  lemma {:induction false} HIncrByCounts(entries: Entries, r: Rev, q: Rev)
    ensures Count(HIncrBy(entries, r), q) == Count(entries, q) + if q == r then 1 else 0
  {
    if entries == [] {
      OneEntryMore([], (r, 1), q, {});
    } else {
      var n := |entries| - 1;
      if entries[n].0 == r {
        OneEntryMore(entries[..n], (r, entries[n].1 + 1), q, {});
      } else {
        HIncrByCounts(entries[..n], r, q);
        OneEntryMore(HIncrBy(entries[..n], r), entries[n], q, {});
      }
    }
  }

  /** The entries worth writing. */
  function Positive(entries: Entries): Entries {
    if entries == [] then []
    else Positive(entries[..|entries| - 1]) + if entries[|entries| - 1].1 > 0 then [entries[|entries| - 1]] else []
  }

  lemma {:induction false} PositiveKeepsCounts(entries: Entries, r: Rev, revisions: set<Rev>)
    ensures Count(Positive(entries), r) == Count(entries, r)
    ensures KnownTotal(Positive(entries), revisions) == KnownTotal(entries, revisions)
  {
    if entries != [] {
      PositiveKeepsCounts(entries[..|entries| - 1], r, revisions);
      assert Positive(entries[..|entries| - 1]) + [] == Positive(entries[..|entries| - 1]);
      OneEntryMore(Positive(entries[..|entries| - 1]), entries[|entries| - 1], r, revisions);
    }
  }

  // ---- the state -----------------------------------------------------------------------------

  function KeysOf(batches: seq<Batch>, b: Bucket): set<nat> {
    set k | 0 <= k < |batches| && batches[k].bucket == b
  }

  /** The batches whose counts for `r` were written to the rows of bucket `b`. */
  function CreditedTo(batches: seq<Batch>, credited: map<nat, set<Rev>>, b: Bucket, r: Rev): set<nat> {
    set k | k in credited && k < |batches| && batches[k].bucket == b && r in credited[k]
  }

  function CreditedToMetric(batches: seq<Batch>, credited: map<nat, set<Rev>>, m: MetricType, r: Rev): set<nat> {
    set k | k in credited && k < |batches| && batches[k].bucket.metric == m && r in credited[k]
  }

  function ActiveOf(active: map<Bucket, Entries>, b: Bucket): Entries {
    if b in active then active[b] else []
  }

  function IssuedOf(issued: map<(Bucket, Rev), nat>, b: Bucket, r: Rev): nat {
    if (b, r) in issued then issued[(b, r)] else 0
  }

  /** Every increment is in the active counter of its bucket or in one of the bucket's batches. */
  ghost predicate IssuedBalance(active: map<Bucket, Entries>, batches: seq<Batch>, issued: map<(Bucket, Rev), nat>) {
    forall b, r :: IssuedOf(issued, b, r) == Count(ActiveOf(active, b), r) + SumOf(batches, KeysOf(batches, b), r)
  }

  /** A daily row holds the batches of its bucket that were written while its revision existed. */
  ghost predicate DailyBalance(batches: seq<Batch>, credited: map<nat, set<Rev>>, daily: map<(Rev, nat), Totals>) {
    forall r, d, m :: DailyOf(daily, r, d, m) == SumOf(batches, CreditedTo(batches, credited, Bucket(m, Some(d)), r), r)
  }

  ghost predicate LifetimeBalance(batches: seq<Batch>, credited: map<nat, set<Rev>>, lifetime: map<Rev, Totals>) {
    forall r, m :: LifetimeOf(lifetime, r, m) == SumOf(batches, CreditedToMetric(batches, credited, m, r), r)
  }

  function DailyOf(daily: map<(Rev, nat), Totals>, r: Rev, d: nat, m: MetricType): nat {
    Field(Row(daily, (r, d)), m)
  }

  function LifetimeOf(lifetime: map<Rev, Totals>, r: Rev, m: MetricType): nat {
    Field(Row(lifetime, r), m)
  }

  /** A revision that was never counted too early existed whenever its counts were written. */
  ghost predicate Traced(active: map<Bucket, Entries>, batches: seq<Batch>, revisions: set<Rev>,
                         credited: map<nat, set<Rev>>, early: set<Rev>) {
    && (forall b, r :: r !in early && r !in revisions ==> Count(ActiveOf(active, b), r) == 0)
    && (forall k, r :: 0 <= k < |batches| && r !in early && Count(batches[k].entries, r) > 0 ==>
          r in revisions && (k in credited ==> r in credited[k]))
  }

  ghost predicate Receipted(batches: seq<Batch>, live: set<nat>, revisions: set<Rev>, credited: map<nat, set<Rev>>) {
    && (forall k :: k in credited ==> k < |batches| && credited[k] <= revisions && batches[k].bucket.day.Some?)
    && (forall k :: 0 <= k < |batches| && k !in live ==> k in credited || batches[k].bucket.day.None?)
  }

  // ---- counting -------------------------------------------------------------------------------

  lemma IncrementBalances(active: map<Bucket, Entries>, batches: seq<Batch>, issued: map<(Bucket, Rev), nat>, b: Bucket,
                          r: Rev)
    requires IssuedBalance(active, batches, issued)
    ensures IssuedBalance(active[b := HIncrBy(ActiveOf(active, b), r)], batches,
      issued[(b, r) := IssuedOf(issued, b, r) + 1])
  {
    var active', issued' := active[b := HIncrBy(ActiveOf(active, b), r)], issued[(b, r) := IssuedOf(issued, b, r) + 1];
    forall c, q ensures IssuedOf(issued', c, q) == Count(ActiveOf(active', c), q)
      + SumOf(batches, KeysOf(batches, c), q) {
      HIncrByCounts(ActiveOf(active, b), r, q);
    }
  }

  lemma IncrementTraced(active: map<Bucket, Entries>, batches: seq<Batch>, revisions: set<Rev>,
                        credited: map<nat, set<Rev>>, early: set<Rev>, b: Bucket, r: Rev)
    requires Traced(active, batches, revisions, credited, early)
    ensures Traced(active[b := HIncrBy(ActiveOf(active, b), r)], batches, revisions, credited,
                   if r in revisions then early else early + {r})
  {
    var active' := active[b := HIncrBy(ActiveOf(active, b), r)];
    var early' := if r in revisions then early else early + {r};
    forall c, q | q !in early' && q !in revisions ensures Count(ActiveOf(active', c), q) == 0 {
      HIncrByCounts(ActiveOf(active, b), r, q);
      assert Count(ActiveOf(active, c), q) == 0;
    }
  }

  // ---- rolling --------------------------------------------------------------------------------

  function Without(active: map<Bucket, Entries>, b: Bucket): map<Bucket, Entries> {
    map c | c in active && c != b :: active[c]
  }

  lemma RollBalances(active: map<Bucket, Entries>, batches: seq<Batch>, issued: map<(Bucket, Rev), nat>, b: Bucket)
    requires IssuedBalance(active, batches, issued) && b in active
    ensures IssuedBalance(Without(active, b), batches + [Batch(b, active[b])], issued)
  {
    var batch := Batch(b, active[b]);
    var after := batches + [batch];
    forall c, r ensures IssuedOf(issued, c, r) == Count(ActiveOf(Without(active, b), c), r)
      + SumOf(after, KeysOf(after, c), r) {
      var own: set<nat> := if c == b then {|batches|} else {};
      assert KeysOf(after, c) == KeysOf(batches, c) + own;
      SumGrows(batches, batch, KeysOf(batches, c) + own, r);
      SumSplits(batches, KeysOf(batches, c), own, r);
      SumOfNone(batches, own, r);
      NothingCounted(r, {});
    }
  }

  lemma RollKeepsTotals(batches: seq<Batch>, batch: Batch, live: set<nat>, revisions: set<Rev>,
                        credited: map<nat, set<Rev>>, daily: map<(Rev, nat), Totals>, lifetime: map<Rev, Totals>)
    requires Receipted(batches, live, revisions, credited)
    requires DailyBalance(batches, credited, daily) && LifetimeBalance(batches, credited, lifetime)
    ensures DailyBalance(batches + [batch], credited, daily) && LifetimeBalance(batches + [batch], credited, lifetime)
  {
    var after := batches + [batch];
    forall r, d, m ensures DailyOf(daily, r, d, m) == SumOf(after, CreditedTo(after, credited, Bucket(m, Some(d)), r),
      r) {
      assert CreditedTo(after, credited, Bucket(m, Some(d)), r) == CreditedTo(batches, credited, Bucket(m, Some(d)), r);
      SumGrows(batches, batch, CreditedTo(batches, credited, Bucket(m, Some(d)), r), r);
    }
    forall r, m ensures LifetimeOf(lifetime, r, m) == SumOf(after, CreditedToMetric(after, credited, m, r), r) {
      assert CreditedToMetric(after, credited, m, r) == CreditedToMetric(batches, credited, m, r);
      SumGrows(batches, batch, CreditedToMetric(batches, credited, m, r), r);
    }
  }

  lemma RollTraced(active: map<Bucket, Entries>, batches: seq<Batch>, live: set<nat>, revisions: set<Rev>,
                   credited: map<nat, set<Rev>>, early: set<Rev>, b: Bucket)
    requires Traced(active, batches, revisions, credited, early) && Receipted(batches, live, revisions, credited) &&
      b in active
    ensures Traced(Without(active, b), batches + [Batch(b, active[b])], revisions, credited, early)
  {
    var after := batches + [Batch(b, active[b])];
    forall c, r | r !in early && r !in revisions ensures Count(ActiveOf(Without(active, b), c), r) == 0 {
      NothingCounted(r, {});
      assert Count(ActiveOf(active, c), r) == 0;
    }
    forall k, r | 0 <= k < |after| && r !in early && Count(after[k].entries, r) > 0
      ensures r in revisions && (k in credited ==> r in credited[k])
    {
      if k == |batches| {
        assert Count(ActiveOf(active, b), r) > 0;
      } else {
        assert Count(batches[k].entries, r) > 0;
      }
    }
  }

  // ---- writing --------------------------------------------------------------------------------

  lemma WriteBalancesDaily(batches: seq<Batch>, credited: map<nat, set<Rev>>, key: nat, revisions: set<Rev>,
                           daily: map<(Rev, nat), Totals>, after: map<(Rev, nat), Totals>)
    requires key < |batches| && key !in credited && batches[key].bucket.day.Some? &&
      DailyBalance(batches, credited, daily)
    requires forall r, d, m :: (DailyOf(after, r, d, m) == DailyOf(daily, r, d, m)
      + if Bucket(m, Some(d)) == batches[key].bucket && r in revisions then Count(batches[key].entries, r) else 0)
    ensures DailyBalance(batches, credited[key := revisions], after)
  {
    var credited' := credited[key := revisions];
    forall r, d, m ensures DailyOf(after, r, d, m) == SumOf(batches,
      CreditedTo(batches, credited', Bucket(m, Some(d)), r), r) {
      var b := Bucket(m, Some(d));
      var own: set<nat> := if b == batches[key].bucket && r in revisions then {key} else {};
      assert CreditedTo(batches, credited', b, r) == CreditedTo(batches, credited, b, r) + own;
      SumSplits(batches, CreditedTo(batches, credited, b, r), own, r);
      SumOfOne(batches, key, r);
      SumOfNone(batches, {}, r);
    }
  }

  lemma WriteBalancesLifetime(batches: seq<Batch>, credited: map<nat, set<Rev>>, key: nat, revisions: set<Rev>,
                              lifetime: map<Rev, Totals>, after: map<Rev, Totals>)
    requires key < |batches| && key !in credited && LifetimeBalance(batches, credited, lifetime)
    requires forall r, m :: (LifetimeOf(after, r, m) == LifetimeOf(lifetime, r, m)
      + if m == batches[key].bucket.metric && r in revisions then Count(batches[key].entries, r) else 0)
    ensures LifetimeBalance(batches, credited[key := revisions], after)
  {
    var credited' := credited[key := revisions];
    forall r, m ensures LifetimeOf(after, r, m) == SumOf(batches, CreditedToMetric(batches, credited', m, r), r) {
      var own: set<nat> := if m == batches[key].bucket.metric && r in revisions then {key} else {};
      assert CreditedToMetric(batches, credited', m, r) == CreditedToMetric(batches, credited, m, r) + own;
      SumSplits(batches, CreditedToMetric(batches, credited, m, r), own, r);
      SumOfOne(batches, key, r);
      SumOfNone(batches, {}, r);
    }
  }

  class AdsMaintenance {
    /** Redis: the counters being written, and the renamed ones that still exist. */
    var active: map<Bucket, Entries>
    var batches: seq<Batch>
    var live: set<nat>
    /** The database. */
    var revisions: set<Rev>
    var receipts: set<nat>
    var daily: map<(Rev, nat), Totals>
    var lifetime: map<Rev, Totals>

    /** The revisions that existed when a batch was written. */
    ghost var credited: map<nat, set<Rev>>
    ghost var issued: map<(Bucket, Rev), nat>
    /** Revisions that were counted while they did not exist. */
    ghost var early: set<Rev>
    /** The batches whose counts this process wrote. */
    ghost var mine: set<nat>

    ghost predicate Valid()
      reads this
    {
      && receipts == credited.Keys && mine <= receipts
      && Receipted(batches, live, revisions, credited)
      && IssuedBalance(active, batches, issued)
      && DailyBalance(batches, credited, daily)
      && LifetimeBalance(batches, credited, lifetime)
      && Traced(active, batches, revisions, credited, early)
    }

    constructor (revisions: set<Rev>)
      ensures Valid() && this.revisions == revisions && issued == map[]
    {
      active, batches, live, receipts, daily, lifetime := map[], [], {}, {}, map[], map[];
      this.revisions := revisions;
      credited, issued, early, mine := map[], map[], {}, {};
    }

    // ---- the laws ---------------------------------------------------------------------------

    /** The batches of a bucket that no receipt covers. */
    ghost function Waiting(b: Bucket): set<nat>
      reads this
    {
      KeysOf(batches, b) - receipts
    }

    /** Written batches whose counts for `r` were skipped because `r` did not exist. */
    ghost function Skipped(b: Bucket, r: Rev): set<nat>
      reads this
    {
      (KeysOf(batches, b) * receipts) - CreditedTo(batches, credited, b, r)
    }

    /**
     Nothing is lost and nothing is counted twice: the increments of a day are in its database
     row, in the active counter or in a batch without a receipt.
     */
    lemma Conservation(m: MetricType, d: nat, r: Rev)
      requires Valid()
      ensures var b := Bucket(m, Some(d));
        && IssuedOf(issued, b, r) == DailyOf(daily, r, d, m) + Count(ActiveOf(active, b), r)
                                     + SumOf(batches, Waiting(b), r) + SumOf(batches, Skipped(b, r), r)
        && (r !in early ==> SumOf(batches, Skipped(b, r), r) == 0)
    {
      var b := Bucket(m, Some(d));
      var all, done := KeysOf(batches, b), CreditedTo(batches, credited, b, r);
      SumSplits(batches, done, Skipped(b, r), r);
      SumSplits(batches, done + Skipped(b, r), Waiting(b), r);
      assert done + Skipped(b, r) + Waiting(b) == all;
      if r !in early {
        SumDependsOnCounted(batches, Skipped(b, r), {}, r);
        SumOfNone(batches, {}, r);
      }
    }

    function DaysTotal(r: Rev, m: MetricType, days: seq<nat>): nat
      reads this
    {
      if days == [] then 0
      else DaysTotal(r, m, days[..|days| - 1]) + DailyOf(daily, r, days[|days| - 1], m)
    }

    ghost function OnDays(r: Rev, m: MetricType, days: seq<nat>): set<nat>
      reads this
    {
      set k | k in CreditedToMetric(batches, credited, m, r) && batches[k].bucket.day.Some? &&
        batches[k].bucket.day.value in days
    }

    lemma {:induction false} DaysAddUp(r: Rev, m: MetricType, days: seq<nat>)
      requires Valid() && forall i, j :: 0 <= i < j < |days| ==> days[i] != days[j]
      ensures DaysTotal(r, m, days) == SumOf(batches, OnDays(r, m, days), r)
    {
      if days == [] {
        SumOfNone(batches, {}, r);
        assert OnDays(r, m, days) == {};
      } else {
        var n := |days| - 1;
        var last := CreditedTo(batches, credited, Bucket(m, Some(days[n])), r);
        DaysAddUp(r, m, days[..n]);
        assert days == days[..n] + [days[n]];
        assert OnDays(r, m, days) == OnDays(r, m, days[..n]) + last;
        SumSplits(batches, OnDays(r, m, days[..n]), last, r);
      }
    }

    /** The lifetime counter of a revision is the sum of its daily rows. */
    lemma LifetimeIsSumOfDays(r: Rev, m: MetricType, days: seq<nat>)
      requires Valid() && forall i, j :: 0 <= i < j < |days| ==> days[i] != days[j]
      requires forall k :: k in receipts ==> batches[k].bucket.day.value in days
      ensures LifetimeOf(lifetime, r, m) == DaysTotal(r, m, days)
    {
      DaysAddUp(r, m, days);
      assert OnDays(r, m, days) == CreditedToMetric(batches, credited, m, r);
    }

    // ---- what others do ------------------------------------------------------------------------

    /** The API counts one event; a counter is a Redis hash. */
    method Increment(b: Bucket, r: Rev)
      requires Valid()
      modifies this`active, this`issued, this`early
      ensures Valid() && IssuedOf(issued, b, r) == IssuedOf(old(issued), b, r) + 1
      ensures forall c: Bucket, q: Rev :: (c, q) != (b, r) ==> IssuedOf(issued, c, q) == IssuedOf(old(issued), c, q)
      ensures early == if r in revisions then old(early) else old(early) + {r}
    {
      hide IssuedBalance, Traced, DailyBalance, LifetimeBalance;
      IncrementBalances(active, batches, issued, b, r);
      IncrementTraced(active, batches, revisions, credited, early, b, r);
      early := if r in revisions then early else early + {r};
      issued := issued[(b, r) := IssuedOf(issued, b, r) + 1];
      active := active[b := HIncrBy(ActiveOf(active, b), r)];
    }

    /** What other processes can have changed while this one waited. */
    twostate predicate Moved()
      reads this
    {
      && old(batches) <= batches && old(receipts) <= receipts && old(revisions) <= revisions
      && (forall k :: 0 <= k < |old(batches)| && k in live ==> k in old(live))
      && (forall k :: k in old(credited) ==> k in credited && credited[k] == old(credited)[k])
    }

    /** Counting, rolling and writing by other processes. */
    method OthersRun()
      requires Valid()
      modifies this
      ensures Valid() && Moved() && mine == old(mine)
    {
    }

    // ---- the flush -----------------------------------------------------------------------------

    /** Renames a counter to a key that nobody else uses, in one step. */
    method RollActive(b: Bucket) returns (key: Option<nat>)
      requires Valid()
      modifies this`active, this`batches, this`live
      ensures Valid() && Moved() && b !in active
      ensures key.Some? <==> b in old(active)
      ensures key.Some? ==>
        batches == old(batches) + [Batch(b, old(active)[b])] && key.value == |old(batches)| && key.value in live
    {
      hide IssuedBalance, Traced, DailyBalance, LifetimeBalance;
      if b !in active {
        return None;
      }
      RollBalances(active, batches, issued, b);
      RollKeepsTotals(batches, Batch(b, active[b]), live, revisions, credited, daily, lifetime);
      RollTraced(active, batches, live, revisions, credited, early, b);
      key := Some(|batches|);
      batches, live := batches + [Batch(b, active[b])], live + {|batches|};
      active := Without(active, b);
    }

    /** The row updates of one transaction, on working copies. */
    method WriteEntries(metric: MetricType, day: nat, entries: Entries)
      returns (total: nat, newDaily: map<(Rev, nat), Totals>, newLifetime: map<Rev, Totals>)
      ensures total == KnownTotal(entries, revisions)
      ensures forall r, d, m :: (DailyOf(newDaily, r, d, m)
        == DailyOf(daily, r, d, m) + if d == day && m == metric && r in revisions then Count(entries, r) else 0)
      ensures forall r, m :: (LifetimeOf(newLifetime, r, m)
        == LifetimeOf(lifetime, r, m) + if m == metric && r in revisions then Count(entries, r) else 0)
    {
      hide Count, KnownTotal;
      total, newDaily, newLifetime := 0, daily, lifetime;
      NothingCounted(0, revisions);
      forall r ensures Count([], r) == 0 {
        NothingCounted(r, revisions);
      }
      var n := 0;
      while n < |entries|
        invariant n <= |entries| && total == KnownTotal(entries[..n], revisions)
        invariant forall r, d, m :: (DailyOf(newDaily, r, d, m)
          == DailyOf(daily, r, d, m) + if d == day && m == metric && r in revisions then Count(entries[..n], r) else 0)
        invariant forall r, m :: (LifetimeOf(newLifetime, r, m)
          == LifetimeOf(lifetime, r, m) + if m == metric && r in revisions then Count(entries[..n], r) else 0)
      {
        var e := entries[n];
        forall r ensures Count(entries[..n + 1], r) == Count(entries[..n], r) + if e.0 == r then e.1 else 0
        {
          assert entries[..n + 1] == entries[..n] + [e];
          OneEntryMore(entries[..n], e, r, revisions);
        }
        assert entries[..n + 1] == entries[..n] + [e];
        OneEntryMore(entries[..n], e, e.0, revisions);
        if e.0 in revisions {
          total := total + e.1;
          newDaily := newDaily[(e.0, day) := Plus(Row(newDaily, (e.0, day)), metric, e.1)];
          newLifetime := newLifetime[e.0 := Plus(Row(newLifetime, e.0), metric, e.1)];
        }
        n := n + 1;
      }
      assert entries[..n] == entries;
    }

    /** The transaction of one batch: its receipt, and its counts the first time only. */
    method Commit(key: nat, day: nat, entries: Entries) returns (applied: bool, total: nat)
      requires Valid() && key < |batches| && batches[key].bucket.day == Some(day)
      requires key !in receipts ==> forall r :: Count(entries, r) == Count(batches[key].entries, r)
      modifies this`receipts, this`daily, this`lifetime, this`credited, this`mine
      ensures Valid() && Moved() && receipts == old(receipts) + {key}
      ensures applied <==> key !in old(receipts)
      ensures mine == if applied then old(mine) + {key} else old(mine)
      ensures applied ==> credited[key] == revisions && total == KnownTotal(entries, revisions)
      ensures !applied ==> total == 0
    {
      hide IssuedBalance, DailyBalance, LifetimeBalance, Count, KnownTotal, Traced, Receipted;
      if key in receipts {
        return false, 0;
      }
      total := StoreCounts(key, day, entries);
      applied := true;
    }

    /** The first commit of a batch. */
    method StoreCounts(key: nat, day: nat, entries: Entries) returns (total: nat)
      requires Valid() && key < |batches| && batches[key].bucket.day == Some(day) && key !in receipts
      requires forall r :: Count(entries, r) == Count(batches[key].entries, r)
      modifies this`receipts, this`daily, this`lifetime, this`credited, this`mine
      ensures Valid() && Moved() && receipts == old(receipts) + {key} && mine == old(mine) + {key}
      ensures credited[key] == revisions && total == KnownTotal(entries, revisions)
    {
      hide IssuedBalance, DailyBalance, LifetimeBalance, Count, KnownTotal, DailyOf, LifetimeOf;
      var newDaily, newLifetime;
      total, newDaily, newLifetime := WriteEntries(batches[key].bucket.metric, day, entries);
      WriteBalancesDaily(batches, credited, key, revisions, daily, newDaily);
      WriteBalancesLifetime(batches, credited, key, revisions, lifetime, newLifetime);
      receipts, daily, lifetime := receipts + {key}, newDaily, newLifetime;
      credited, mine := credited[key := revisions], mine + {key};
    }

    /** Reads a batch, writes it once, and deletes it; others may do the same at the same time. */
    method PersistBatch(key: nat) returns (applied: bool, total: nat)
      requires Valid() && key < |batches|
      modifies this
      ensures Valid() && Moved() && key !in live
      ensures batches[key].bucket.day.Some? ==> key in receipts
      ensures applied ==> key !in old(receipts) && Reported(Result(key, applied, total))
      ensures !applied ==> total == 0
      ensures mine == if applied then old(mine) + {key} else old(mine)
    {
      hide IssuedBalance, DailyBalance, LifetimeBalance, Traced, Count, KnownTotal, Positive;
      applied, total := false, 0;
      var bucket := batches[key].bucket;
      if bucket.day.Some? {
        applied, total := PersistDay(key, bucket.day.value);
        OthersRun();
      }
      live := live - {key};
    }

    /** Reads the batch and writes its counts, others at work in between. */
    method PersistDay(key: nat, day: nat) returns (applied: bool, total: nat)
      requires Valid() && key < |batches| && batches[key].bucket.day == Some(day)
      modifies this
      ensures Valid() && Moved() && key in receipts
      ensures applied ==> key !in old(receipts) && Reported(Result(key, applied, total))
      ensures !applied ==> total == 0
      ensures mine == if applied then old(mine) + {key} else old(mine)
    {
      hide IssuedBalance, DailyBalance, LifetimeBalance, Traced, Count, KnownTotal, Positive;
      var entries := Positive(if key in live then batches[key].entries else []);
      if key !in receipts {
        forall r ensures Count(entries, r) == Count(batches[key].entries, r) {
          PositiveKeepsCounts(batches[key].entries, r, {});
        }
      }
      OthersRun();
      PositiveKeepsCounts(batches[key].entries, 0, revisions);
      applied, total := Commit(key, day, entries);
    }

    /** Scanning can list a batch more than once; it is still written at most once. */
    method PersistAll(keys: seq<nat>) returns (results: seq<Result>)
      requires Valid() && forall key :: key in keys ==> key < |batches|
      modifies this
      ensures Valid() && Moved() && |results| == |keys|
      ensures forall i :: 0 <= i < |keys| ==> results[i].key == keys[i] && keys[i] < |batches| && Persisted(keys[i])
      ensures forall i :: 0 <= i < |keys| && results[i].applied ==> keys[i] !in old(receipts) && Reported(results[i])
      ensures forall i, j :: 0 <= i < j < |keys| && keys[i] == keys[j] ==> !(results[i].applied && results[j].applied)
      ensures mine == old(mine) + set i | 0 <= i < |keys| && results[i].applied :: keys[i]
    {
      hide Valid, KnownTotal;
      results := [];
      var n := 0;
      while n < |keys|
        invariant n <= |keys| && Valid() && Moved() && |results| == n
        invariant forall i :: 0 <= i < n ==> results[i].key == keys[i] && keys[i] < |batches| && Persisted(keys[i])
        invariant forall i :: 0 <= i < n && results[i].applied ==>
          keys[i] in receipts && keys[i] !in old(receipts) && Reported(results[i])
        invariant forall i, j :: 0 <= i < j < n && keys[i] == keys[j] ==> !(results[i].applied && results[j].applied)
        invariant mine == old(mine) + set i | 0 <= i < n && results[i].applied :: keys[i]
      {
        assert keys[n] in keys;
        var applied, total := PersistBatch(keys[n]);
        results := results + [Result(keys[n], applied, total)];
        n := n + 1;
      }
    }

    /** The batch is gone from Redis, and written unless its key names no day. */
    predicate Persisted(key: nat)
      requires key < |batches|
      reads this
    {
      key !in live && (batches[key].bucket.day.Some? ==> key in receipts)
    }

    /** What the flush says it wrote is what the batch held for the revisions that existed. */
    ghost predicate Reported(r: Result)
      reads this
    {
      r.key < |batches| && r.key in credited && r.key in receipts &&
        r.total == KnownTotal(batches[r.key].entries, credited[r.key])
    }
  }
}
