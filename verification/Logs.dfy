/** Logs by their place in the chain, and sorting them into that order. */
module Logs {
  /** A place in the chain: block number, then position among the logs of the block. */
  datatype Stamp = Stamp(block: nat, logIndex: nat)

  predicate EventAfter(a: Stamp, b: Stamp) {
    a.block > b.block || (a.block == b.block && a.logIndex > b.logIndex)
  }

  /** A log with the hash of the block it was found in. */
  datatype Row<H, B> = Row(at: Stamp, hash: H, txHash: nat, body: B)

  predicate InOrder<H, B>(rows: seq<Row<H, B>>) {
    forall i, j :: 0 <= i < j < |rows| ==> EventAfter(rows[j].at, rows[i].at)
  }

  /** Sorting by block number, then by log index. */
  function Insert<H, B>(sorted: seq<Row<H, B>>, r: Row<H, B>): seq<Row<H, B>> {
    if sorted == [] || EventAfter(sorted[0].at, r.at) then [r] + sorted
    else [sorted[0]] + Insert(sorted[1..], r)
  }

  function SortRows<H, B>(rows: seq<Row<H, B>>): seq<Row<H, B>> {
    if rows == [] then [] else Insert(SortRows(rows[..|rows| - 1]), rows[|rows| - 1])
  }

  lemma {:induction false} InsertSorts<H, B>(s: seq<Row<H, B>>, r: Row<H, B>)
    requires InOrder(s) && forall x :: x in s ==> x.at != r.at
    ensures InOrder(Insert(s, r)) && multiset(Insert(s, r)) == multiset(s) + multiset{r}
  {
    if s != [] && !EventAfter(s[0].at, r.at) {
      assert s == [s[0]] + s[1..];
      InsertSorts(s[1..], r);
      var t := Insert(s[1..], r);
      forall k | 0 <= k < |t| ensures EventAfter(t[k].at, s[0].at) {
        assert t[k] in multiset(t);
        assert t[k] in s[1..] || t[k] == r;
      }
    }
  }

  predicate DistinctPlaces<H, B>(rows: seq<Row<H, B>>) {
    forall i, j :: 0 <= i < j < |rows| ==> rows[i].at != rows[j].at
  }

  lemma {:induction false} SortSorts<H, B>(rows: seq<Row<H, B>>)
    requires DistinctPlaces(rows)
    ensures InOrder(SortRows(rows)) && multiset(SortRows(rows)) == multiset(rows)
  {
    if rows != [] {
      var n := |rows| - 1;
      SortSorts(rows[..n]);
      assert rows == rows[..n] + [rows[n]];
      var s := SortRows(rows[..n]);
      forall x | x in s ensures x.at != rows[n].at {
        assert x in multiset(s);
        assert x in rows[..n];
      }
      InsertSorts(s, rows[n]);
    }
  }

  /** There is only one way to put rows of distinct places in order. */
  lemma {:induction false} OneOrder<H, B>(a: seq<Row<H, B>>, b: seq<Row<H, B>>)
    requires InOrder(a) && InOrder(b) && multiset(a) == multiset(b)
    ensures a == b
  {
    assert |multiset(a)| == |multiset(b)|;
    if a != [] {
      SameFirst(a, b);
      assert a == [a[0]] + a[1..] && b == [b[0]] + b[1..];
      assert multiset(a[1..]) == multiset(a) - multiset{a[0]};
      OneOrder(a[1..], b[1..]);
    }
  }

  lemma SameFirst<H, B>(a: seq<Row<H, B>>, b: seq<Row<H, B>>)
    requires InOrder(a) && InOrder(b) && multiset(a) == multiset(b) && a != [] && b != []
    ensures a[0] == b[0]
  {
    var first, other := a[0], b[0];
    assert first in multiset(b) && other in multiset(a);
    var i :| 0 <= i < |b| && b[i] == first;
    var j :| 0 <= j < |a| && a[j] == other;
    assert i == 0 || EventAfter(first.at, other.at);
    assert j == 0 || EventAfter(other.at, first.at);
  }

  /** A row that stands twice is counted twice. */
  lemma TwiceIsTwo<H, B>(rows: seq<Row<H, B>>, i: nat, j: nat)
    requires i < j < |rows| && rows[i] == rows[j]
    ensures multiset(rows)[rows[i]] >= 2
  {
    assert rows == rows[..j] + [rows[j]] + rows[j + 1..];
    assert rows[..j][i] in multiset(rows[..j]);
  }

  lemma {:induction false} OnceIsOne<H, B>(rows: seq<Row<H, B>>, r: Row<H, B>)
    requires InOrder(rows)
    ensures multiset(rows)[r] <= 1
  {
    if rows != [] {
      assert rows == [rows[0]] + rows[1..];
      OnceIsOne(rows[1..], r);
      assert forall k :: 0 <= k < |rows| - 1 ==> EventAfter(rows[1..][k].at, rows[0].at);
      assert rows[0] !in rows[1..];
    }
  }

  /** Whatever order a node lists the rows in, sorting restores the order of the chain. */
  lemma SortAnyOrder<H, B>(answer: seq<Row<H, B>>, rows: seq<Row<H, B>>)
    requires InOrder(rows) && multiset(answer) == multiset(rows)
    ensures SortRows(answer) == rows
  {
    forall i, j | 0 <= i < j < |answer| ensures answer[i].at != answer[j].at {
      assert answer[i] in multiset(rows) && answer[j] in multiset(rows);
      var p :| 0 <= p < |rows| && rows[p] == answer[i];
      var q :| 0 <= q < |rows| && rows[q] == answer[j];
      OnceIsOne(rows, answer[i]);
      if p == q {
        TwiceIsTwo(answer, i, j);
        assert false;
      }
    }
    SortSorts(answer);
    OneOrder(SortRows(answer), rows);
  }
}
