/** Stake positions as a projection of the keyword market's position events. */
module AdsProjection {
  import opened Prelude
  import opened Logs
  import opened Branch

  datatype StakeKey = StakeKey(keywordId: nat, staker: nat)

  datatype Values = Values(stake: int, bid: int, coverage: int, eligible: bool, withdrawAt: int, version: int)

  datatype LogBody =
    | PositionChanged(key: StakeKey, values: Values, previousStake: int)
    | StakeCharged(chargeId: nat, charged: StakeKey, requested: nat, taken: nat, remaining: nat)

  /** The contract's settings, which any block may change. */
  datatype Config = Config(pre: nat, minimumStake: int, paused: bool, operator: nat, priceUpdater: nat, price: nat,
                           quotedAt: nat)

  type Hash = LogChain<LogBody, Config>

  /** A row of the event table: a log with the block it was found in. */
  type AdRow = Row<Hash, LogBody>

  datatype StakePosition = StakePosition(
    values: Values,
    stakeSince: Stamp,
    amountSince: Stamp,
    at: Stamp,
    hash: Hash,
    txHash: nat,
    active: bool)

  type Positions = map<StakeKey, StakePosition>

  predicate Negative(body: LogBody)
    requires body.PositionChanged?
  {
    body.values.stake < 0 || body.values.bid < 0 || body.values.coverage < 0 || body.previousStake < 0
    || body.values.withdrawAt < 0 || body.values.version < 0
  }

  /** The stored position after one more event of its stake; an event that is not newer is ignored. */
  function Project(current: Option<StakePosition>, row: AdRow): StakePosition
    requires row.body.PositionChanged?
  {
    if current.Some? && !EventAfter(row.at, current.value.at) then current.value
    else
      var v := row.body.values;
      var changed := current.None? || current.value.values.stake != v.stake;
      var starts := current.None? || (row.body.previousStake == 0 && v.stake > 0)
                    || current.value.values.version != v.version;
      StakePosition(v,
                    if starts then row.at else current.value.stakeSince,
                    if changed then row.at else current.value.amountSince,
                    row.at, row.hash, row.txHash, v.stake > 0)
  }

  function Stored(positions: Positions, key: StakeKey): Option<StakePosition> {
    if key in positions then Some(positions[key]) else None
  }

  function ApplyRow(positions: Positions, row: AdRow): Positions {
    if row.body.PositionChanged?
    then positions[row.body.key := Project(Stored(positions, row.body.key), row)]
    else positions
  }

  /** The projection of a sequence of events, whatever their order. */
  function Replay(rows: seq<AdRow>): Positions {
    if rows == [] then map[] else ApplyRow(Replay(rows[..|rows| - 1]), rows[|rows| - 1])
  }

  /** The position events of one stake. */
  function History(rows: seq<AdRow>, key: StakeKey): (h: seq<AdRow>)
    ensures forall r :: r in h <==> r in rows && r.body.PositionChanged? && r.body.key == key
  {
    if rows == [] then []
    else
      var last := rows[|rows| - 1];
      assert rows == rows[..|rows| - 1] + [last];
      History(rows[..|rows| - 1], key) + if last.body.PositionChanged? && last.body.key == key then [last] else []
  }

  predicate OnePosition(h: seq<AdRow>) {
    forall r :: r in h ==> r.body.PositionChanged?
  }

  function Fold(h: seq<AdRow>): Option<StakePosition>
    requires OnePosition(h)
  {
    if h == [] then None
    else
      assert h[|h| - 1] in h;
      Some(Project(Fold(h[..|h| - 1]), h[|h| - 1]))
  }

  lemma FoldOneMore(h: seq<AdRow>, last: AdRow)
    requires OnePosition(h) && last.body.PositionChanged?
    ensures OnePosition(h + [last]) && Fold(h + [last]) == Some(Project(Fold(h), last))
  {
    assert (h + [last])[..|h|] == h;
  }

  lemma NothingFolds()
    ensures Fold([]) == None
  {
  }

  /** Each stored position depends on the events of its own stake and on nothing else. */
  lemma {:induction false} StakesAreIndependent(rows: seq<AdRow>, key: StakeKey)
    ensures Stored(Replay(rows), key) == Fold(History(rows, key))
  {
    hide Project, Fold;
    if rows == [] {
      NothingFolds();
    } else {
      var last := rows[|rows| - 1];
      StakesAreIndependent(rows[..|rows| - 1], key);
      var h := History(rows[..|rows| - 1], key);
      if last.body.PositionChanged? && last.body.key == key {
        assert History(rows, key) == h + [last];
        FoldOneMore(h, last);
      } else {
        assert History(rows, key) == h;
      }
    }
  }

  // ---- any order of delivery ------------------------------------------------------------

  /** No event of the history is newer than event `j`. */
  predicate Newest(h: seq<AdRow>, j: nat) {
    j < |h| && forall k :: 0 <= k < |h| ==> !EventAfter(h[k].at, h[j].at)
  }

  /** The fields that name what the stake is, as opposed to since when. */
  predicate Describes(p: StakePosition, row: AdRow)
    requires row.body.PositionChanged?
  {
    && p.values == row.body.values && p.at == row.at && p.hash == row.hash && p.txHash == row.txHash
    && p.active == (row.body.values.stake > 0)
  }

  /** Late, early or repeated: the newest event decides what is stored. */
  lemma {:induction false} NewestWins(h: seq<AdRow>) returns (j: nat)
    requires h != [] && OnePosition(h)
    ensures Newest(h, j) && h[j].body.PositionChanged? && Describes(Fold(h).value, h[j])
  {
    var n := |h| - 1;
    assert h[n] in h;
    if n == 0 {
      j := 0;
    } else {
      assert forall r :: r in h[..n] ==> r in h;
      j := NewestWins(h[..n]);
      if EventAfter(h[n].at, h[j].at) {
        j := n;
      }
    }
  }

  /** Events are identified by their place in the chain. */
  predicate OnePerPlace(rows: seq<AdRow>) {
    forall i, j :: 0 <= i < |rows| && 0 <= j < |rows| && rows[i].at == rows[j].at ==> rows[i] == rows[j]
  }

  predicate SameButAges(p: StakePosition, q: StakePosition) {
    p == q.(stakeSince := p.stakeSince, amountSince := p.amountSince)
  }

  /** Two deliveries of the same events, in any orders and with any repetitions, agree. */
  lemma DeliveryOrderDoesNotMatter(g: seq<AdRow>, h: seq<AdRow>)
    requires OnePosition(g) && OnePosition(h) && OnePerPlace(h) && forall r :: r in g <==> r in h
    ensures Fold(g).None? <==> Fold(h).None?
    ensures Fold(g).Some? ==> SameButAges(Fold(g).value, Fold(h).value)
  {
    assert |g| > 0 ==> g[0] in h;
    assert |h| > 0 ==> h[0] in g;
    if g != [] {
      var i := NewestWins(g);
      var j := NewestWins(h);
      assert g[i] in h && h[j] in g;
      var k :| 0 <= k < |h| && h[k] == g[i];
      var m :| 0 <= m < |g| && g[m] == h[j];
      assert !EventAfter(h[k].at, h[j].at) && !EventAfter(g[m].at, g[i].at);
      assert g[i] == h[j];
    }
  }

  // ---- delivery in order ------------------------------------------------------------------

  /** From `j` on the stake never changes, and `j` is the first such place. */
  predicate ConstantFrom(h: seq<AdRow>, j: nat)
    requires OnePosition(h)
  {
    && j < |h|
    && (forall k :: j <= k < |h| ==> Stake(h, k) == Stake(h, j))
    && (j > 0 ==> Stake(h, j - 1) != Stake(h, j))
  }

  function Stake(h: seq<AdRow>, k: nat): int
    requires OnePosition(h) && k < |h|
  {
    assert h[k] in h;
    h[k].body.values.stake
  }

  /** Event `j` opens a position: the first one, a new stake after none, or a new version. */
  predicate Opens(h: seq<AdRow>, j: nat)
    requires OnePosition(h) && j < |h|
  {
    assert h[j] in h;
    j == 0 || (h[j].body.previousStake == 0 && Stake(h, j) > 0)
    || (assert h[j - 1] in h; h[j].body.values.version != h[j - 1].body.values.version)
  }

  predicate LastOpening(h: seq<AdRow>, j: nat)
    requires OnePosition(h)
  {
    j < |h| && Opens(h, j) && forall k :: j < k < |h| ==> !Opens(h, k)
  }

  /** What one more event in order does to the ages. */
  lemma SinceStep(h: seq<AdRow>)
    requires |h| > 1 && OnePosition(h) && OnePosition(h[..|h| - 1]) && InOrder(h)
    requires Describes(Fold(h[..|h| - 1]).value, h[|h| - 2])
    ensures var p, q := Fold(h[..|h| - 1]).value, Fold(h).value;
      && Describes(q, h[|h| - 1])
      && q.amountSince == (if Stake(h, |h| - 1) == Stake(h, |h| - 2) then p.amountSince else h[|h| - 1].at)
      && q.stakeSince == if Opens(h, |h| - 1) then h[|h| - 1].at else p.stakeSince
  {
    assert h[|h| - 1] in h && h[|h| - 2] in h;
  }

  lemma FirstEvent(h: seq<AdRow>)
    requires |h| == 1 && OnePosition(h)
    ensures var p := Fold(h).value;
      Describes(p, h[0]) && p.amountSince == p.stakeSince == h[0].at && ConstantFrom(h, 0) && LastOpening(h, 0)
  {
    assert h[0] in h;
  }

  lemma DistinctStamps(h: seq<AdRow>)
    requires InOrder(h)
    ensures forall i, j :: 0 <= i < |h| && 0 <= j < |h| && i != j ==> h[i].at != h[j].at
  {
  }

  /** Delivered in order, a position knows when its amount and its stake began. */
  lemma {:induction false} SinceInOrder(h: seq<AdRow>)
    requires h != [] && OnePosition(h) && InOrder(h)
    ensures Describes(Fold(h).value, h[|h| - 1])
    ensures forall j :: 0 <= j < |h| ==> (Fold(h).value.amountSince == h[j].at <==> ConstantFrom(h, j))
    ensures forall j :: 0 <= j < |h| ==> (Fold(h).value.stakeSince == h[j].at <==> LastOpening(h, j))
    ensures exists j :: 0 <= j < |h| && ConstantFrom(h, j)
    ensures exists j :: 0 <= j < |h| && LastOpening(h, j)
  {
    hide Project, Fold, ConstantFrom, LastOpening, Opens, EventAfter, Stake, Describes;
    assert h[|h| - 1] in h;
    DistinctStamps(h);
    if |h| == 1 {
      FirstEvent(h);
    } else {
      var g := h[..|h| - 1];
      assert forall r :: r in g ==> r in h;
      SinceInOrder(g);
      var a :| 0 <= a < |g| && ConstantFrom(g, a);
      var o :| 0 <= o < |g| && LastOpening(g, o);
      SinceStep(h);
      SuffixGrows(h, a);
      OpeningGrows(h, o);
    }
  }

  lemma SuffixGrows(h: seq<AdRow>, a: nat)
    requires |h| > 1 && OnePosition(h) && OnePosition(h[..|h| - 1]) && InOrder(h) && ConstantFrom(h[..|h| - 1], a)
    ensures var j := if Stake(h, |h| - 1) == Stake(h, |h| - 2) then a else |h| - 1;
      forall k :: 0 <= k < |h| ==> (ConstantFrom(h, k) <==> k == j)
  {
    var g := h[..|h| - 1];
    assert forall k :: 0 <= k < |g| ==> Stake(g, k) == Stake(h, k);
    assert Stake(g, |g| - 1) == Stake(g, a);
    var j := if Stake(h, |h| - 1) == Stake(h, |h| - 2) then a else |h| - 1;
    assert ConstantFrom(h, j);
  }

  lemma OpeningGrows(h: seq<AdRow>, o: nat)
    requires |h| > 1 && OnePosition(h) && OnePosition(h[..|h| - 1]) && LastOpening(h[..|h| - 1], o)
    ensures var j := if Opens(h, |h| - 1) then |h| - 1 else o;
      forall k :: 0 <= k < |h| ==> (LastOpening(h, k) <==> k == j)
  {
    var g := h[..|h| - 1];
    assert forall k :: 0 <= k < |g| ==> Opens(g, k) == Opens(h, k);
    var j := if Opens(h, |h| - 1) then |h| - 1 else o;
    assert LastOpening(h, j);
  }

  // ---- late delivery ---------------------------------------------------------------------------

  /** The events that are not ignored as stale when they arrive. */
  function Applied(h: seq<AdRow>): (a: seq<AdRow>)
    requires OnePosition(h)
    ensures OnePosition(a) && forall r :: r in a ==> r in h
  {
    if h == [] then []
    else
      var n := |h| - 1;
      assert h[n] in h && forall r :: r in h[..n] ==> r in h;
      var before := Fold(h[..n]);
      Applied(h[..n]) + if before.None? || EventAfter(h[n].at, before.value.at) then [h[n]] else []
  }

  /** The stored position is that of the applied events, which are in order. */
  lemma {:induction false} AppliedAreInOrder(h: seq<AdRow>)
    requires OnePosition(h)
    ensures InOrder(Applied(h)) && Fold(Applied(h)) == Fold(h)
    ensures Applied(h) != [] ==> Fold(h).Some? && Fold(h).value.at == Applied(h)[|Applied(h)| - 1].at
  {
    if h != [] {
      var n := |h| - 1;
      assert h[n] in h && forall r :: r in h[..n] ==> r in h;
      AppliedAreInOrder(h[..n]);
      var a := Applied(h[..n]);
      if Fold(h[..n]).None? || EventAfter(h[n].at, Fold(h[..n]).value.at) {
        FoldOneMore(a, h[n]);
        assert Applied(h) == a + [h[n]];
        AppendInOrder(a, h[n]);
      } else {
        assert Applied(h) == a;
      }
    }
  }

  lemma AppendInOrder(a: seq<AdRow>, r: AdRow)
    requires InOrder(a) && (a != [] ==> EventAfter(r.at, a[|a| - 1].at))
    ensures InOrder(a + [r])
  {
  }

  /**
   However the events of a stake arrive, the amount has the age it has in order exactly when the
   first event of the last constant stretch is applied right after an event with another amount,
   or first; and the stake has its age exactly when the last opening is also the last opening
   among the applied events.
   */
  lemma AgesAgreeIff(g: seq<AdRow>, h: seq<AdRow>, j: nat, o: nat)
    requires h != [] && OnePosition(g) && OnePosition(h) && InOrder(h) && forall r :: r in g <==> r in h
    requires j < |h| && ConstantFrom(h, j) && o < |h| && LastOpening(h, o)
    ensures Fold(g).Some? && Fold(h).Some?
    ensures Fold(g).value.amountSince == Fold(h).value.amountSince <==>
      exists i :: 0 <= i < |Applied(g)| && Applied(g)[i] == h[j] && StartsAnew(Applied(g), i)
    ensures Fold(g).value.stakeSince == Fold(h).value.stakeSince <==>
      exists i :: 0 <= i < |Applied(g)| && Applied(g)[i] == h[o] && LastOpening(Applied(g), i)
  {
    hide Fold, Applied, Describes, Project, ConstantFrom, LastOpening, Opens, Stake, EventAfter, StartsAnew;
    assert h[0] in g;
    SinceInOrder(h);
    AppliedAreInOrder(g);
    var a := Applied(g);
    FoldsToSome(a, g);
    FoldsToSome(h, h);
    SinceInOrder(a);
    DistinctStamps(h);
    var first :| 0 <= first < |a| && ConstantFrom(a, first);
    var last :| 0 <= last < |a| && LastOpening(a, last);
    assert a[first] in h && a[last] in h;
    if Fold(g).value.amountSince == Fold(h).value.amountSince {
      assert a[first] == h[j];
      ConstantStartsAnew(a, first);
    }
    if i :| 0 <= i < |a| && a[i] == h[j] && StartsAnew(a, i) {
      AppliedStretch(a, h, i, j);
    }
    if Fold(g).value.stakeSince == Fold(h).value.stakeSince {
      assert a[last] == h[o];
    }
  }

  predicate StartsAnew(a: seq<AdRow>, i: nat)
    requires OnePosition(a) && i < |a|
  {
    i == 0 || Stake(a, i - 1) != Stake(a, i)
  }

  lemma ConstantStartsAnew(a: seq<AdRow>, i: nat)
    requires OnePosition(a) && ConstantFrom(a, i)
    ensures StartsAnew(a, i)
  {
  }

  lemma FoldsToSome(a: seq<AdRow>, g: seq<AdRow>)
    requires OnePosition(a) && OnePosition(g) && Fold(a) == Fold(g) && g != []
    ensures Fold(g).Some? && a != []
  {
  }

  lemma AppliedStretch(a: seq<AdRow>, h: seq<AdRow>, i: nat, j: nat)
    requires OnePosition(a) && OnePosition(h) && InOrder(a) && InOrder(h) && forall r :: r in a ==> r in h
    requires ConstantFrom(h, j) && i < |a| && a[i] == h[j] && StartsAnew(a, i)
    ensures ConstantFrom(a, i)
  {
    forall k | i <= k < |a| ensures Stake(a, k) == Stake(a, i) {
      assert a[k] in h;
      var m :| 0 <= m < |h| && h[m] == a[k];
      assert m >= j;
      assert Stake(h, m) == Stake(h, j);
    }
  }

  /** Out of order the amounts agree but their age does not. */
  lemma LateDeliveryForgetsAge(hash: Hash) returns (g: seq<AdRow>, h: seq<AdRow>)
    ensures
      && OnePosition(g) && OnePosition(h) && InOrder(h) && multiset(g) == multiset(h)
      && Fold(g).Some? && Fold(h).Some? && Fold(g).value.amountSince != Fold(h).value.amountSince
  {
    var body := PositionChanged(StakeKey(1, 1), Values(5, 1, 1, true, 0, 1), 5);
    var early := Row(Stamp(1, 0), hash, 1, body);
    var late := Row(Stamp(2, 0), hash, 2, body);
    h := [early, late];
    g := [late, early];
    assert h[..1] == [early] && g[..1] == [late] && h[..1][..0] == [] && g[..1][..0] == [];
    assert Fold([early]) == Some(Project(None, early)) && Fold([late]) == Some(Project(None, late));
    assert Fold(h).value.amountSince == early.at && Fold(g).value.amountSince == late.at;
    assert multiset(g) == multiset(h);
  }
}
