/** Blocks that carry logs, and the rows of a branch in order. */
module Branch {
  import opened Chain
  import opened Logs

  datatype RawLog<B> = RawLog(txHash: nat, logIndex: nat, body: B)

  /** A block's logs of one contract, and whatever else is read from the block. */
  datatype LogBlock<B, C> = LogBlock(logs: seq<RawLog<B>>, extra: C)

  type LogChain<B, C> = Block<LogBlock<B, C>>

  type LogRow<B, C> = Row<LogChain<B, C>, B>

  function BlockRows<B, C>(b: LogChain<B, C>): (rows: seq<LogRow<B, C>>)
    ensures |rows| == |b.payload.logs|
    ensures forall k :: 0 <= k < |rows| ==>
      rows[k] == Row(Stamp(Height(b), b.payload.logs[k].logIndex), b, b.payload.logs[k].txHash, b.payload.logs[k].body)
  {
    var n := Height(b);
    seq(|b.payload.logs|, k requires 0 <= k < |b.payload.logs| =>
      Row(Stamp(n, b.payload.logs[k].logIndex), b, b.payload.logs[k].txHash, b.payload.logs[k].body))
  }

  /** The rows of the blocks of a branch from height `from` through its last block, in order. */
  function RowsOf<B, C>(b: LogChain<B, C>, from: nat): seq<LogRow<B, C>> {
    if Height(b) < from then []
    else (if b.Child? then RowsOf(b.parent, from) else []) + BlockRows(b)
  }

  predicate LogsInOrder<B, C>(b: LogChain<B, C>) {
    forall i, j :: 0 <= i < j < |b.payload.logs| ==> b.payload.logs[i].logIndex < b.payload.logs[j].logIndex
  }

  predicate Indexed<B, C>(b: LogChain<B, C>) {
    LogsInOrder(b) && (b.Child? ==> Indexed(b.parent))
  }

  /** The key under which the event table admits a row once. */
  predicate SameEvent<B, C>(a: LogRow<B, C>, b: LogRow<B, C>) { a.txHash == b.txHash && a.at.logIndex == b.at.logIndex }

  predicate NoRepeats<B, C>(rows: seq<LogRow<B, C>>) {
    forall i, j :: 0 <= i < j < |rows| ==> !SameEvent(rows[i], rows[j])
  }

  /** What a chain guarantees of a branch: logs are numbered within a block, and a transaction runs once. */
  predicate Regular<B, C>(tip: LogChain<B, C>) {
    Indexed(tip) && NoRepeats(RowsOf(tip, 0))
  }

  lemma {:induction false} RowsInRange<B, C>(b: LogChain<B, C>, from: nat)
    requires Indexed(b)
    ensures InOrder(RowsOf(b, from))
    ensures forall r :: r in RowsOf(b, from) ==> from <= r.at.block <= Height(b)
  {
    if from <= Height(b) && b.Child? {
      RowsInRange(b.parent, from);
      var before := RowsOf(b.parent, from);
      var all: seq<LogRow<B, C>> := before + BlockRows(b);
      forall i, j | 0 <= i < j < |all| ensures EventAfter(all[j].at, all[i].at) {
        if i < |before| {
          assert before[i] in before;
        }
      }
    }
  }

  lemma RowsStep<B, C>(b: LogChain<B, C>, from: nat)
    ensures from > Height(b) ==> RowsOf(b, from) == []
    ensures from <= Height(b) && b.Child? ==> RowsOf(b, from) == RowsOf(b.parent, from) + BlockRows(b)
  {
  }

  /** A branch's rows are those of any earlier block on it, then those that came after. */
  lemma {:induction false} RowsSplit<B, C>(a: LogChain<B, C>, b: LogChain<B, C>, from: nat)
    requires On(a, b) && from <= Height(a) + 1
    ensures RowsOf(b, from) == RowsOf(a, from) + RowsOf(b, Height(a) + 1)
  {
    hide RowsOf, BlockRows;
    OnHeight(a, b);
    RowsStep(b, Height(a) + 1);
    if a != b {
      OnHeight(a, b.parent);
      RowsStep(b, from);
      RowsSplit(a, b.parent, from);
    }
  }

  lemma {:induction false} IndexedBehind<B, C>(b: LogChain<B, C>, tip: LogChain<B, C>)
    requires Indexed(tip) && On(b, tip)
    ensures Indexed(b)
  {
    if b != tip {
      IndexedBehind(b, tip.parent);
    }
  }

  lemma PartsHaveNoRepeats<B, C>(a: seq<LogRow<B, C>>, b: seq<LogRow<B, C>>)
    requires NoRepeats(a + b)
    ensures NoRepeats(a) && NoRepeats(b)
  {
    forall i, j | 0 <= i < j < |b| ensures !SameEvent(b[i], b[j]) {
      assert !SameEvent((a + b)[|a| + i], (a + b)[|a| + j]);
    }
    forall i, j | 0 <= i < j < |a| ensures !SameEvent(a[i], a[j]) {
      assert !SameEvent((a + b)[i], (a + b)[j]);
    }
  }

  /** Any block of a regular branch has rows in order and without repetitions. */
  lemma RegularBehind<B, C>(b: LogChain<B, C>, tip: LogChain<B, C>, from: nat)
    requires Regular(tip) && On(b, tip)
    ensures Indexed(b) && InOrder(RowsOf(b, from)) && NoRepeats(RowsOf(b, from))
  {
    hide NoRepeats, InOrder, RowsOf, Indexed, On, BlockRows;
    IndexedBehind(b, tip);
    RowsInRange(b, from);
    RowsSplit(b, tip, 0);
    PartsHaveNoRepeats(RowsOf(b, 0), RowsOf(tip, Height(b) + 1));
    var before := RowsBefore(b, from);
    PartsHaveNoRepeats(before, RowsOf(b, from));
  }

  lemma RowsBefore<B, C>(b: LogChain<B, C>, from: nat) returns (before: seq<LogRow<B, C>>)
    ensures before + RowsOf(b, from) == RowsOf(b, 0)
  {
    hide BlockRows;
    before := [];
    if from > Height(b) {
      before := RowsOf(b, 0);
      assert RowsOf(b, from) == [];
    } else if from > 0 {
      AtIsOn(b, from - 1);
      RowsSplit(At(b, from - 1), b, 0);
      before := RowsOf(At(b, from - 1), 0);
    }
  }

  /** A row names the block it was found in. */
  lemma {:induction false} RowsNameTheirBlock<B, C>(b: LogChain<B, C>, from: nat)
    ensures forall i :: 0 <= i < |RowsOf(b, from)| ==>
      On(RowsOf(b, from)[i].hash, b) && Height(RowsOf(b, from)[i].hash) == RowsOf(b, from)[i].at.block
  {
    if from <= Height(b) && b.Child? {
      RowsNameTheirBlock(b.parent, from);
    }
  }
}
