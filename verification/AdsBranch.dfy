/** What two filtered and sorted scans find, and what replaying more of a branch does. */
module AdsBranch {
  import opened Logs
  import opened AdsProjection

  // ---- two queries, one order ---------------------------------------------------------------

  function OfKind(rows: seq<AdRow>, charges: bool): (r: seq<AdRow>)
    ensures forall x :: x in r <==> x in rows && x.body.StakeCharged? == charges
  {
    if rows == [] then []
    else (if rows[0].body.StakeCharged? == charges then [rows[0]] else []) + OfKind(rows[1..], charges)
  }

  lemma {:induction false} KindsPartition(rows: seq<AdRow>)
    ensures multiset(OfKind(rows, false)) + multiset(OfKind(rows, true)) == multiset(rows)
  {
    if rows != [] {
      KindsPartition(rows[1..]);
      assert rows == [rows[0]] + rows[1..];
    }
  }

  /** Position events and charges are asked for separately; sorting restores the order of the branch. */
  lemma SortRestoresOrder(rows: seq<AdRow>)
    requires InOrder(rows)
    ensures SortRows(OfKind(rows, false) + OfKind(rows, true)) == rows
  {
    KindsPartition(rows);
    SortAnyOrder(OfKind(rows, false) + OfKind(rows, true), rows);
  }

  // ---- replaying a longer branch --------------------------------------------------------------

  function PositionCount(rows: seq<AdRow>): nat {
    if rows == [] then 0
    else PositionCount(rows[..|rows| - 1]) + if rows[|rows| - 1].body.PositionChanged? then 1 else 0
  }

  lemma {:induction false} PositionCountSplit(a: seq<AdRow>, b: seq<AdRow>)
    ensures PositionCount(a + b) == PositionCount(a) + PositionCount(b)
  {
    if b == [] {
      assert a + b == a;
    } else {
      PositionCountSplit(a, b[..|b| - 1]);
      assert (a + b)[..|a + b| - 1] == a + b[..|b| - 1];
    }
  }

  lemma ReplayOneMore(rows: seq<AdRow>, row: AdRow)
    ensures Replay(rows + [row]) == ApplyRow(Replay(rows), row)
    ensures PositionCount(rows + [row]) == PositionCount(rows) + if row.body.PositionChanged? then 1 else 0
  {
    assert (rows + [row])[..|rows|] == rows;
  }

  /** In order, no event is taken for a stale one. */
  lemma NothingIsStale(rows: seq<AdRow>, row: AdRow)
    requires InOrder(rows + [row]) && row.body.PositionChanged?
    ensures Stored(Replay(rows), row.body.key).Some? ==>
      EventAfter(row.at, Stored(Replay(rows), row.body.key).value.at)
  {
    var h := History(rows, row.body.key);
    StakesAreIndependent(rows, row.body.key);
    if h != [] {
      var j := NewestWins(h);
      assert h[j] in rows;
      var i :| 0 <= i < |rows| && rows[i] == h[j];
      assert (rows + [row])[i] == h[j] && (rows + [row])[|rows|] == row;
    }
  }
}
