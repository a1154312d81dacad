/**
 The escrow indexer. Its handlers are not idempotent and its checkpoint is not written with the
 events, so exactly-once rests on claims: an event is handled in the transaction that claims it.
 */
module EscrowIndexer {
  import opened Prelude
  import opened Chain
  import opened Logs
  import opened Branch

  const LOG_BLOCK_RANGE: nat := 500

  datatype Checkpoint<E> = Checkpoint(number: nat, hash: LogChain<E, nat>)

  datatype Status = AwaitingConfirmations | Synced

  datatype IndexResult = Done(processed: nat, status: Status) | Threw

  /** The newest confirmed block, once the deployment block is one. */
  function ConfirmedHead(head: nat, deployment: nat, confirmations: nat): (r: Option<nat>)
    ensures r.Some? <==> head >= deployment + confirmations
    ensures r.Some? ==> deployment <= r.value && head - r.value == confirmations
  {
    if head < deployment + confirmations then None else Some(head - confirmations)
  }

  /** The chain may reorganize, but not behind a block that was this deep. */
  ghost predicate FinalStays<E(!new)>(tips: seq<LogChain<E, nat>>, depth: nat) {
    forall b: LogChain<E, nat>, i, j ::
      0 <= i <= j < |tips| && On(b, tips[i]) && Height(b) + depth <= Height(tips[i]) ==> On(b, tips[j])
  }

  /** The block was seen with its confirmations. */
  ghost predicate Settled<E(!new)>(b: LogChain<E, nat>, tips: seq<LogChain<E, nat>>, depth: nat) {
    exists i :: 0 <= i < |tips| && On(b, tips[i]) && Height(b) + depth <= Height(tips[i])
  }

  /** Another block of its number was seen with its confirmations. */
  ghost predicate Refuted<E(!new)>(b: LogChain<E, nat>, tips: seq<LogChain<E, nat>>, depth: nat) {
    exists i :: 0 <= i < |tips| && !On(b, tips[i]) && Height(b) + depth <= Height(tips[i])
  }

  /** The logs of malformed profile updates are skipped without being claimed. */
  function Indexable<E(!new)>(rows: seq<LogRow<E, nat>>, skip: E -> bool): (r: seq<LogRow<E, nat>>)
    ensures forall x :: x in r <==> x in rows && !skip(x.body)
  {
    if rows == [] then []
    else
      assert rows == rows[..|rows| - 1] + [rows[|rows| - 1]];
      Indexable(rows[..|rows| - 1], skip) + if skip(rows[|rows| - 1].body) then [] else [rows[|rows| - 1]]
  }

  /** Handling the events one after the other; None when a handler throws. */
  function Run<E, S>(initial: S, rows: seq<LogRow<E, nat>>, handle: (S, LogRow<E, nat>, nat) -> Option<S>): Option<S> {
    if rows == [] then Some(initial)
    else
      var before := Run(initial, rows[..|rows| - 1], handle);
      if before.None? then None else handle(before.value, rows[|rows| - 1], rows[|rows| - 1].hash.payload.extra)
  }

  lemma RunOne<E, S>(initial: S, rows: seq<LogRow<E, nat>>, row: LogRow<E, nat>,
                     handle: (S, LogRow<E, nat>, nat) -> Option<S>)
    requires Run(initial, rows, handle).Some?
    ensures Run(initial, rows + [row], handle) == handle(Run(initial, rows, handle).value, row, row.hash.payload.extra)
  {
    assert (rows + [row])[..|rows|] == rows;
  }

  lemma {:induction false} IndexableAppend<E(!new)>(a: seq<LogRow<E, nat>>, b: seq<LogRow<E, nat>>, skip: E -> bool)
    ensures Indexable(a + b, skip) == Indexable(a, skip) + Indexable(b, skip)
  {
    if b == [] {
      assert a + b == a;
    } else {
      assert (a + b)[..|a + b| - 1] == a + b[..|b| - 1];
      IndexableAppend(a, b[..|b| - 1], skip);
    }
  }

  lemma IndexableOne<E(!new)>(rows: seq<LogRow<E, nat>>, row: LogRow<E, nat>, skip: E -> bool)
    ensures Indexable(rows + [row], skip) == Indexable(rows, skip) + if skip(row.body) then [] else [row]
  {
    assert (rows + [row])[..|rows|] == rows;
  }

  lemma {:induction false} IndexableNoRepeats<E(!new)>(rows: seq<LogRow<E, nat>>, skip: E -> bool)
    requires NoRepeats(rows)
    ensures NoRepeats(Indexable(rows, skip))
  {
    if rows != [] {
      var n := |rows| - 1;
      IndexableNoRepeats(rows[..n], skip);
      var h := Indexable(rows[..n], skip);
      forall i | 0 <= i < |h| ensures !SameEvent(h[i], rows[n]) {
        assert h[i] in rows[..n];
      }
    }
  }

  predicate Claimed<E>(claimed: seq<LogRow<E, nat>>, row: LogRow<E, nat>) {
    exists i :: 0 <= i < |claimed| && SameEvent(claimed[i], row)
  }

  /** With everything before it claimed, a row is either the next to claim or claimed already. */
  lemma NextOrClaimed<E>(all: seq<LogRow<E, nat>>, claimed: seq<LogRow<E, nat>>, before: seq<LogRow<E, nat>>,
                         row: LogRow<E, nat>)
    requires NoRepeats(all) && claimed <= all && before <= claimed && before + [row] <= all
    ensures Claimed(claimed, row) ==> before + [row] <= claimed
    ensures !Claimed(claimed, row) ==> claimed == before
  {
    var k := |before|;
    assert all[k] == row;
    if i :| 0 <= i < |claimed| && SameEvent(claimed[i], row) {
      assert all[i] == claimed[i];
      assert i == k;
    }
    if |claimed| > k {
      assert claimed[k] == row;
    }
  }

  /** What the branch through an earlier block has to index is a prefix of what a later one has. */
  lemma IndexableGrows<E(!new)>(a: LogChain<E, nat>, b: LogChain<E, nat>, from: nat, skip: E -> bool)
    requires On(a, b) && from <= Height(a) + 1
    ensures Indexable(RowsOf(a, from), skip) <= Indexable(RowsOf(b, from), skip)
  {
    hide RowsOf, Indexable;
    RowsSplit(a, b, from);
    IndexableAppend(RowsOf(a, from), RowsOf(b, Height(a) + 1), skip);
  }

  /** A settled block stays on the chain. */
  lemma SettledStays<E(!new)>(b: LogChain<E, nat>, tips: seq<LogChain<E, nat>>, depth: nat)
    requires FinalStays(tips, depth) && Settled(b, tips, depth)
    ensures On(b, tips[|tips| - 1]) && Height(b) <= Height(tips[|tips| - 1])
  {
    OnHeight(b, tips[|tips| - 1]);
  }

  /** So do those behind it. */
  lemma SettledBehind<E(!new)>(a: LogChain<E, nat>, b: LogChain<E, nat>, tips: seq<LogChain<E, nat>>, depth: nat)
    requires Settled(b, tips, depth) && On(a, b)
    ensures Settled(a, tips, depth)
  {
    OnHeight(a, b);
    var i :| 0 <= i < |tips| && On(b, tips[i]) && Height(b) + depth <= Height(tips[i]);
    OnTransitive(a, b, tips[i]);
  }

  lemma StillSettled<E(!new)>(b: LogChain<E, nat>, before: seq<LogChain<E, nat>>, tips: seq<LogChain<E, nat>>,
                              depth: nat)
    requires before <= tips
    ensures Settled(b, before, depth) ==> Settled(b, tips, depth)
    ensures Refuted(b, before, depth) ==> Refuted(b, tips, depth)
  {
    if i :| 0 <= i < |before| && On(b, before[i]) && Height(b) + depth <= Height(before[i]) {
      assert tips[i] == before[i];
    }
    if i :| 0 <= i < |before| && !On(b, before[i]) && Height(b) + depth <= Height(before[i]) {
      assert tips[i] == before[i];
    }
  }

  /** A block that is refuted is not canonical. */
  lemma RefutedIsGone<E(!new)>(b: LogChain<E, nat>, tips: seq<LogChain<E, nat>>, depth: nat)
    requires FinalStays(tips, depth) && Refuted(b, tips, depth)
    ensures !On(b, tips[|tips| - 1])
  {
    var i :| 0 <= i < |tips| && !On(b, tips[i]) && Height(b) + depth <= Height(tips[i]);
    var other := At(tips[i], Height(b));
    AtIsOn(tips[i], Height(b));
    SettledStays(other, tips, depth);
    if On(b, tips[|tips| - 1]) {
      SameHeight(b, other, tips[|tips| - 1]);
    }
  }

  class EscrowIndexer<E(==, !new), S> {
    /** The claimed events, in the order in which they were claimed and handled. */
    var claimed: seq<LogRow<E, nat>>
    var projection: S
    var checkpoint: Option<Checkpoint<E>>
    /** The node: the tips so far. */
    var tips: seq<LogChain<E, nat>>
    /** The branch that the tables were made on, until a reorganization is dealt with. */
    ghost var branch: LogChain<E, nat>
    /** How often the node gave no answer. */
    ghost var lost: nat
    /** The settled block that the last claimed events lie in or behind. */
    ghost var final: LogChain<E, nat>
    const deployment: nat
    const confirmations: nat
    const initial: S
    const handle: (S, LogRow<E, nat>, nat) -> Option<S>
    const skip: E -> bool

    ghost function Tip(): LogChain<E, nat>
      requires |tips| > 0
      reads this
    {
      tips[|tips| - 1]
    }

    /** Everything there is to index so far, in the order of the chain. */
    ghost function All(): seq<LogRow<E, nat>>
      requires |tips| > 0
      reads this
    {
      Indexable(RowsOf(Tip(), deployment), skip)
    }

    /** Everything through a block of the chain has been claimed. */
    ghost predicate Through(b: LogChain<E, nat>)
      requires |tips| > 0
      reads this
    {
      Settled(b, tips, confirmations) && Indexable(RowsOf(b, deployment), skip) <= claimed
    }

    /** What is claimed has its confirmations. */
    ghost predicate ClaimedSettled()
      reads this
    {
      claimed != [] ==> Settled(final, tips, confirmations) && claimed <= Indexable(RowsOf(final, deployment), skip)
    }

    ghost predicate Valid()
      reads this
    {
      && |tips| > 0 && FinalStays(tips, confirmations) && Regular(Tip())
      && ClaimedSettled()
      && Run(initial, claimed, handle) == Some(projection)
      && (checkpoint.Some? ==>
            checkpoint.value.number == Height(checkpoint.value.hash) && deployment <= checkpoint.value.number
            && Through(checkpoint.value.hash))
    }

    /** The tables are those of a branch that need not be canonical any more. */
    ghost predicate Was(b: LogChain<E, nat>)
      reads this
    {
      && claimed <= Indexable(RowsOf(b, deployment), skip) && Indexed(b)
      && Run(initial, claimed, handle) == Some(projection)
      && (checkpoint.Some? ==>
            checkpoint.value.number == Height(checkpoint.value.hash) && deployment <= checkpoint.value.number
            && On(checkpoint.value.hash, b) && Indexable(RowsOf(checkpoint.value.hash, deployment), skip) <= claimed)
    }

    /** Either the checkpoint gives a reorganization away, or no claimed event was dropped by it. */
    ghost predicate Resumable()
      reads this
    {
      || (checkpoint.Some? && Refuted(checkpoint.value.hash, tips, confirmations))
      || (&& (checkpoint.Some? ==> Settled(checkpoint.value.hash, tips, confirmations))
          && forall r :: r in claimed ==> Settled(r.hash, tips, confirmations))
    }

    /** What a run may start from: good tables, or those of a branch that was reorganized away. */
    ghost predicate Startable()
      reads this
    {
      || Valid()
      || (|tips| > 0 && FinalStays(tips, confirmations) && Regular(Tip()) && Was(branch) && Resumable())
    }

    constructor (genesis: LogChain<E, nat>, deployment: nat, confirmations: nat, initial: S,
                 handle: (S, LogRow<E, nat>, nat) -> Option<S>, skip: E -> bool)
      requires Regular(genesis)
      ensures Valid() && claimed == []
    {
      claimed, projection, checkpoint, tips, branch, final, lost := [], initial, None, [genesis], genesis, genesis, 0;
      this.deployment, this.confirmations, this.initial, this.handle, this.skip := deployment, confirmations, initial,
        handle, skip;
    }

    /** The claimed events are the first of the chain as it is. */
    lemma ClaimedIsPrefix()
      requires Valid()
      ensures claimed <= All()
    {
      hide RowsOf, Indexable, Run, NoRepeats, Settled, FinalStays;
      if claimed != [] {
        SettledStays(final, tips, confirmations);
        if Height(final) + 1 >= deployment {
          IndexableGrows(final, Tip(), deployment, skip);
        } else {
          RowsStep(final, deployment);
          NothingToIndex(skip);
        }
      }
    }

    /** No event is claimed twice, and none before one that precedes it in the chain. */
    lemma ClaimedOnceInOrder()
      requires Valid()
      ensures InOrder(claimed) && NoRepeats(claimed)
    {
      ClaimedIsPrefix();
      RegularBehind(Tip(), Tip(), deployment);
      IndexableInOrder(RowsOf(Tip(), deployment), skip);
      IndexableNoRepeats(RowsOf(Tip(), deployment), skip);
    }

    /** An event whose handler throws where it stands is never passed, however often it is tried. */
    lemma PoisonStops(k: nat)
      requires Valid() && k < |All()| && Run(initial, All()[..k + 1], handle).None?
      ensures |claimed| <= k
    {
      ClaimedIsPrefix();
      hide RowsOf, Indexable, Run, NoRepeats, Regular, FinalStays, On, Height;
      if |claimed| > k {
        assert claimed[..k + 1] == All()[..k + 1];
        RunPrefix(initial, claimed, handle, k + 1);
      }
    }

    /** The handler throws on the next event in turn. */
    ghost predicate Stuck()
      reads this
    {
      |tips| > 0 && |claimed| < |All()|
      && var next := All()[|claimed|]; handle(projection, next, next.hash.payload.extra).None?
    }

    lemma HasTip()
      requires Valid()
      ensures |tips| > 0
    {
    }

    // ---- the environment -------------------------------------------------------------------

    /** The chain moves on, and once the tables are good other indexers claim and handle events. */
    method OthersRun()
      requires Startable()
      modifies this
      ensures |tips| > 0 && FinalStays(tips, confirmations) && Regular(Tip()) && old(tips) <= tips && lost == old(lost)
      ensures old(Valid()) ==> Valid() && old(claimed) <= claimed
      ensures !old(Valid()) ==>
        claimed == old(claimed) && projection == old(projection) && checkpoint == old(checkpoint) &&
          branch == old(branch)
    {
    }

    ghost method NoAnswer()
      modifies this`lost
      ensures lost == old(lost) + 1 && Valid() == old(Valid()) && Startable() == old(Startable())
    {
      hide RowsOf, Indexable, Run, NoRepeats, Regular, Settled, FinalStays, Refuted;
      lost := lost + 1;
    }

    method GetBlock(n: nat) returns (b: Rpc<LogChain<E, nat>>)
      requires Startable()
      modifies this
      ensures Startable() && |tips| > 0 && old(tips) <= tips && FinalStays(tips, confirmations)
      ensures old(Valid()) ==> Valid() && old(claimed) <= claimed
      ensures !old(Valid()) ==>
        claimed == old(claimed) && projection == old(projection) && checkpoint == old(checkpoint)
      ensures b.Got? ==> On(b.value, Tip()) && Height(b.value) == n
      ensures lost == old(lost) + if b.Lost? then 1 else 0
    {
      hide RowsOf, Indexable, Run, NoRepeats, Regular;
      OthersRun();
      if !old(Valid()) {
        StillResumable(claimed, checkpoint, old(tips), tips, confirmations);
      }
      var tip, answered := tips[|tips| - 1], *;
      if n > Height(tip) || !answered {
        NoAnswer();
        return Lost;
      }
      AtIsOn(tip, n);
      b := Got(At(tip, n));
    }

    method BlockNumber() returns (head: nat, ghost at: nat)
      requires Startable()
      modifies this
      ensures Startable() && |tips| > 0 && old(tips) <= tips && FinalStays(tips, confirmations)
      ensures old(Valid()) ==> Valid() && old(claimed) <= claimed
      ensures !old(Valid()) ==>
        claimed == old(claimed) && projection == old(projection) && checkpoint == old(checkpoint)
      ensures |old(tips)| - 1 <= at < |tips| && head == Height(tips[at]) && lost == old(lost)
    {
      hide RowsOf, Indexable, Run, NoRepeats, Regular;
      OthersRun();
      if !old(Valid()) {
        StillResumable(claimed, checkpoint, old(tips), tips, confirmations);
      }
      head, at := Height(tips[|tips| - 1]), |tips| - 1;
    }

    /** The logs of a range, in whatever order the node lists them. */
    method GetContractEvents(from: nat, to: nat, ghost last: LogChain<E, nat>)
      returns (rows: Rpc<seq<LogRow<E, nat>>>)
      requires Valid() && Settled(last, tips, confirmations) && Height(last) == to
      modifies this
      ensures Valid() && old(claimed) <= claimed && old(tips) <= tips
      ensures rows.Got? ==> multiset(rows.value) == multiset(RowsOf(last, from))
      ensures lost == old(lost) + if rows.Lost? then 1 else 0
    {
      hide RowsOf, Indexable, Run, NoRepeats, Regular, Settled, FinalStays;
      OthersRun();
      StillSettled(last, old(tips), tips, confirmations);
      SettledStays(last, tips, confirmations);
      var tip, answered, listed: seq<LogRow<E, nat>> := tips[|tips| - 1], *, *;
      AtIsOn(tip, to);
      SameHeight(last, At(tip, to), tip);
      var known := RowsOf(At(tip, to), from);
      if !answered {
        lost := lost + 1;
        return Lost;
      }
      return Got(if multiset(listed) == multiset(known) then listed else known);
    }

    // ---- the transactions --------------------------------------------------------------------

    /** Claims an event and handles it; a handler that throws takes the claim back. */
    method ClaimAndHandle(row: LogRow<E, nat>, timestamp: nat, ghost before: seq<LogRow<E, nat>>,
                          ghost last: LogChain<E, nat>)
      returns (r: Option<bool>)
      requires Valid() && before <= claimed && timestamp == row.hash.payload.extra
      requires Settled(last, tips, confirmations) && deployment <= Height(last)
      requires before + [row] <= Indexable(RowsOf(last, deployment), skip)
      modifies this`claimed, this`projection, this`final
      ensures Valid()
      ensures r.None? ==> claimed == old(claimed) && projection == old(projection)
                          && handle(projection, row, timestamp).None? && claimed == before && Stuck()
      ensures r == Some(false) ==> claimed == old(claimed) && projection == old(projection)
      ensures r == Some(true) ==> claimed == old(claimed) + [row]
      ensures r.Some? ==> before + [row] <= claimed && claimed == Resume(old(claimed), [row])
    {
      hide RowsOf, Indexable, NoRepeats, InOrder, Run, Claimed, Settled, FinalStays;
      ClaimedIsPrefix();
      SettledStays(last, tips, confirmations);
      IndexableGrows(last, Tip(), deployment, skip);
      RegularBehind(Tip(), Tip(), deployment);
      IndexableNoRepeats(RowsOf(Tip(), deployment), skip);
      NextOrClaimed(All(), claimed, before, row);
      if Claimed(claimed, row) {
        return Some(false);
      }
      var handled := handle(projection, row, timestamp);
      if handled.None? {
        assert (before + [row])[|before|] == row;
        return None;
      }
      RunOne(initial, claimed, row, handle);
      claimed, projection, final := claimed + [row], handled.value, last;
      r := Some(true);
    }

    /** The block of a log, read from the node once per chunk. */
    method BlockOf(log: LogRow<E, nat>, blocks: map<nat, LogChain<E, nat>>, ghost last: LogChain<E, nat>)
      returns (block: Rpc<LogChain<E, nat>>, cached: map<nat, LogChain<E, nat>>)
      requires Valid() && Settled(last, tips, confirmations) && OfBranch(last, blocks)
      requires On(log.hash, last) && Height(log.hash) == log.at.block
      modifies this
      ensures Valid() && old(claimed) <= claimed && old(tips) <= tips
      ensures Settled(last, tips, confirmations) && OfBranch(last, cached)
      ensures block.Got? ==> block.value == log.hash
      ensures lost == old(lost) + if block.Lost? then 1 else 0
    {
      hide RowsOf, Indexable, Run, NoRepeats, Regular, FinalStays, Settled;
      OnHeight(log.hash, last);
      AtIsOn(last, log.at.block);
      SameHeight(log.hash, At(last, log.at.block), last);
      cached := blocks;
      if log.at.block in blocks {
        return Got(blocks[log.at.block]), cached;
      }
      block := GetBlock(log.at.block);
      StillSettled(last, old(tips), tips, confirmations);
      SettledStays(last, tips, confirmations);
      if block.Got? {
        OnTransitive(log.hash, last, Tip());
        SameHeight(block.value, log.hash, Tip());
        cached := blocks[log.at.block := block.value];
      }
    }

    /** The loop over the sorted logs of a chunk: claim and handle, or find claimed, each in turn. */
    method IndexLogs(logs: seq<LogRow<E, nat>>, ghost pre: seq<LogRow<E, nat>>, ghost last: LogChain<E, nat>)
      returns (ok: bool, processed: nat, ghost mine: seq<LogRow<E, nat>>)
      requires Valid() && Settled(last, tips, confirmations) && deployment <= Height(last)
      requires RowsOf(last, deployment) == pre + logs && Indexable(pre, skip) <= claimed
      modifies this
      ensures Valid() && old(claimed) <= claimed && old(tips) <= tips
      ensures ok ==> Through(last)
      ensures if ok then lost == old(lost) else lost > old(lost) || Stuck()
      ensures Mine(mine, old(claimed), claimed) && processed == |mine|
    {
      hide RowsOf, Indexable, Run, FinalStays, Settled, Regular, NoRepeats, Claimed, Mine, Valid, OfBranch, On, Height;
      HasTip();
      NothingMine(claimed);
      NothingCached(last);
      RowsNameTheirBlock(last, deployment);
      ok, processed, mine := false, 0, [];
      var blocks: map<nat, LogChain<E, nat>> := map[];
      var n := 0;
      assert pre + logs[..n] == pre;
      while n < |logs|
        invariant n <= |logs| && |tips| > 0 && Valid() && old(claimed) <= claimed && old(tips) <= tips
        invariant Settled(last, tips, confirmations) && lost == old(lost)
        invariant OfBranch(last, blocks)
        invariant Indexable(pre + logs[..n], skip) <= claimed
        invariant Mine(mine, old(claimed), claimed) && processed == |mine|
      {
        var log := logs[n];
        assert (pre + logs)[|pre| + n] == log;
        ghost var before := Indexable(pre + logs[..n], skip);
        OneLogMore(pre, logs, n, last, deployment, skip);
        n := n + 1;
        if skip(log.body) {
          continue;
        }
        var block;
        ghost var earlier := claimed;
        block, blocks := BlockOf(log, blocks, last);
        MineStays(mine, old(claimed), earlier, claimed);
        if block.Lost? {
          return;
        }
        OneLogMore(pre, logs, n - 1, last, deployment, skip);
        var claim := ClaimAndHandle(log, block.value.payload.extra, before, last);
        if claim.None? {
          return;
        }
        if claim.value {
          MineAdds(mine, old(claimed), claimed[..|claimed| - 1], log);
          processed, mine := processed + 1, mine + [log];
        }
      }
      assert pre + logs[..n] == pre + logs;
      ok := true;
    }

    method SaveCheckpoint(number: nat, hash: LogChain<E, nat>)
      requires Valid() && Height(hash) == number && deployment <= number && Through(hash)
      modifies this`checkpoint
      ensures Valid() && checkpoint == Some(Checkpoint(number, hash))
    {
      hide RowsOf, Indexable, Run, NoRepeats, Settled, FinalStays;
      checkpoint := Some(Checkpoint(number, hash));
    }

    /** One chunk: its logs in order, then the checkpoint, which is not written with them. */
    method IndexChunk(start: nat, end: nat, ghost prev: Option<LogChain<E, nat>>, ghost last: LogChain<E, nat>)
      returns (ok: bool, processed: nat, ghost mine: seq<LogRow<E, nat>>)
      requires Valid() && deployment <= start <= end == Height(last) && Settled(last, tips, confirmations)
      requires if prev.None? then start == deployment else Height(prev.value) == start - 1 && Through(prev.value)
      modifies this
      ensures Valid() && old(claimed) <= claimed && old(tips) <= tips
      ensures ok ==> Through(last) && checkpoint == Some(Checkpoint(end, last))
      ensures if ok then lost == old(lost) else lost > old(lost) || Stuck()
      ensures Mine(mine, old(claimed), claimed) && processed == |mine|
    {
      hide RowsOf, Indexable, Run, FinalStays, Settled, NoRepeats, Mine, InOrder, SortRows;
      NothingMine(claimed);
      var events := GetContractEvents(start, end, last);
      StillSettled(last, old(tips), tips, confirmations);
      SettledStays(last, tips, confirmations);
      ok, processed, mine := false, 0, [];
      MineStays(mine, old(claimed), old(claimed), claimed);
      if events.Lost? {
        return;
      }
      ghost var pre := [];
      RegularBehind(last, Tip(), start);
      SortAnyOrder(events.value, RowsOf(last, start));
      if prev.Some? {
        StillSettled(prev.value, old(tips), tips, confirmations);
        SettledStays(prev.value, tips, confirmations);
        OneBranch(prev.value, last, Tip());
        pre := RowsOf(prev.value, deployment);
        RowsSplit(prev.value, last, deployment);
      } else {
        NothingToIndex(skip);
      }
      ghost var earlier := claimed;
      NothingMine(claimed);
      ok, processed, mine := IndexLogs(SortRows(events.value), pre, last);
      MineSince(mine, old(claimed), earlier, claimed);
      if ok {
        ok := Checkpointed(end, last);
        MineStays(mine, old(claimed), claimed, claimed);
      }
    }

    /** The checkpoint is the block that now has the number of the chunk's end. */
    method Checkpointed(end: nat, ghost last: LogChain<E, nat>) returns (ok: bool)
      requires Valid() && Height(last) == end && deployment <= end && Through(last)
      modifies this
      ensures Valid() && old(claimed) <= claimed && old(tips) <= tips && Through(last)
      ensures ok ==> checkpoint == Some(Checkpoint(end, last))
      ensures if ok then lost == old(lost) else lost > old(lost)
    {
      hide RowsOf, Indexable, Run, NoRepeats, Regular, Settled, FinalStays;
      var block := GetBlock(end);
      StillSettled(last, old(tips), tips, confirmations);
      SettledStays(last, tips, confirmations);
      if block.Lost? {
        return false;
      }
      SameHeight(block.value, last, Tip());
      SaveCheckpoint(end, block.value);
      return true;
    }

    /** Clears what came from the chain. */
    method RebuildAfterReorg()
      requires |tips| > 0 && FinalStays(tips, confirmations) && Regular(Tip())
      modifies this`claimed, this`projection, this`checkpoint
      ensures Valid() && claimed == [] && checkpoint.None?
    {
      hide RowsOf, Indexable, NoRepeats, Regular;
      claimed, projection, checkpoint := [], initial, None;
    }

    /** A canonical checkpoint with no claimed event dropped: the tables are those of the chain. */
    lemma NothingDropped()
      requires Startable() && !Valid() && (checkpoint.Some? ==> On(checkpoint.value.hash, Tip()))
      ensures checkpoint.Some? ==> Settled(checkpoint.value.hash, tips, confirmations)
      ensures claimed != [] ==>
        var last := claimed[|claimed| - 1].hash;
        Settled(last, tips, confirmations) && claimed <= Indexable(RowsOf(last, deployment), skip)
    {
      hide RowsOf, Indexable, Run, NoRepeats, InOrder, Settled, FinalStays, Refuted;
      if checkpoint.Some? && Refuted(checkpoint.value.hash, tips, confirmations) {
        RefutedIsGone(checkpoint.value.hash, tips, confirmations);
      }
      if claimed != [] {
        assert claimed[|claimed| - 1] in claimed;
        ClaimedBehind(claimed, branch, deployment, skip);
      }
    }

    /**
     The first part of a run: if the saved block is not the canonical one of its number, everything
     is rebuilt. Either way the tables are then those of the chain.
     */
    method CheckCheckpoint() returns (answered: bool, state: Option<Checkpoint<E>>, ghost rebuilt: bool)
      requires Startable()
      modifies this
      ensures Startable() && |tips| > 0 && old(tips) <= tips && FinalStays(tips, confirmations)
      ensures if answered then lost == old(lost) else !rebuilt && lost > old(lost)
      ensures answered ==> Valid() && (state.Some? ==>
        state.value.number == Height(state.value.hash) && deployment <= state.value.number && Through(state.value.hash))
      ensures old(Valid()) ==> Valid() && !rebuilt
      ensures rebuilt ==>
        Valid() && claimed == [] && checkpoint.None? && old(checkpoint).Some? && !On(old(checkpoint).value.hash, Tip())
      ensures !rebuilt ==> old(claimed) <= claimed
      ensures !Valid() ==> claimed == old(claimed) && projection == old(projection) && checkpoint == old(checkpoint)
    {
      hide RowsOf, Indexable, Run, NoRepeats, Regular, InOrder, Settled, Refuted, FinalStays;
      rebuilt := false;
      state := checkpoint;
      if state.None? {
        GoOn();
        return true, None, false;
      }
      var hash := state.value.hash;
      var canonical := GetBlock(state.value.number);
      if canonical.Lost? {
        return false, None, false;
      }
      if old(Valid()) {
        StillSettled(hash, old(tips), tips, confirmations);
        SettledStays(hash, tips, confirmations);
      }
      if On(hash, Tip()) {
        SameHeight(canonical.value, hash, Tip());
      }
      if canonical.value != hash {
        RebuildAfterReorg();
        state, rebuilt := None, true;
      } else {
        GoOn();
      }
      answered := true;
    }

    /** Nothing to write: the tables are good already. */
    ghost method GoOn()
      requires Startable() && (Valid() || (checkpoint.Some? ==> On(checkpoint.value.hash, Tip())))
      modifies this`final
      ensures Valid()
    {
      hide RowsOf, Indexable, Run, NoRepeats, Regular, InOrder, Settled, Refuted, FinalStays;
      if !Valid() {
        NothingDropped();
        if claimed != [] {
          final := claimed[|claimed| - 1].hash;
        }
      }
    }

    /**
     One run. It may be killed anywhere and run again beside others; what is claimed is always
     handled, once and in order, and a run that ends synced has left nothing out. After a
     reorganization it rebuilds first, or goes on where no claimed event was dropped.
     */
    method IndexEscrow()
      returns (r: IndexResult, ghost through: Option<LogChain<E, nat>>, ghost mine: seq<LogRow<E, nat>>,
        ghost rebuilt: bool)
      requires Startable()
      modifies this
      ensures Startable() && |tips| > 0 && old(tips) <= tips
      ensures !Valid() ==> claimed == old(claimed) && projection == old(projection) && checkpoint == old(checkpoint)
      ensures old(Valid()) ==> Valid() && !rebuilt
      ensures r.Done? && r.status.Synced? ==>
        Valid() && through.Some? && Through(through.value) &&
          exists k :: |old(tips)| - 1 <= k < |tips| && Height(tips[k]) <= Height(through.value) + confirmations
      ensures r.Done? ==> r.processed == |mine|
      ensures r.Threw? ==> lost > old(lost) || Stuck()
      ensures r.Done? && r.status.AwaitingConfirmations? ==>
        && mine == [] && !rebuilt
        && exists k :: |old(tips)| - 1 <= k < |tips| && Height(tips[k]) < deployment + confirmations
      ensures rebuilt ==> old(checkpoint).Some? && Mine(mine, [], claimed)
      ensures !rebuilt ==> old(claimed) <= claimed && Mine(mine, old(claimed), claimed)
    {
      hide RowsOf, Indexable, Run, FinalStays, Settled, NoRepeats, Mine, Regular;
      mine, through, rebuilt := [], None, false;
      NothingMine(claimed);
      ghost var at;
      var latest;
      latest, at := BlockNumber();
      MineStays(mine, old(claimed), old(claimed), claimed);
      ghost var first := tips;
      var safe := ConfirmedHead(latest, deployment, confirmations);
      if safe.None? {
        return Done(0, AwaitingConfirmations), through, mine, rebuilt;
      }
      var safeHead := safe.value;
      var answered, state;
      answered, state, rebuilt := CheckCheckpoint();
      if !rebuilt {
        MineStays(mine, old(claimed), old(claimed), claimed);
      }
      if !answered {
        return Threw, through, mine, rebuilt;
      }
      ghost var base := claimed;
      ghost var from := if rebuilt then [] else old(claimed);
      if state.Some? {
        through := Some(state.value.hash);
      }
      ghost var top := At(tips[at], safeHead);
      SettledHead(tips, at, safeHead, confirmations);
      r, through, mine := IndexRange(
        if state.Some? then state.value.number + 1 else deployment, safeHead, through, top);
      assert tips[at] == first[at];
      MineSince(mine, from, base, claimed);
    }

    /** Chunk after chunk up to the confirmed head. */
    method IndexRange(fromBlock: nat, safeHead: nat, ghost prev: Option<LogChain<E, nat>>,
                      ghost top: LogChain<E, nat>)
      returns (r: IndexResult, ghost through: Option<LogChain<E, nat>>, ghost mine: seq<LogRow<E, nat>>)
      requires Valid() && deployment <= safeHead == Height(top) && deployment <= fromBlock
      requires Settled(top, tips, confirmations)
      requires if prev.None? then fromBlock == deployment
        else Height(prev.value) == fromBlock - 1 && Through(prev.value)
      modifies this
      ensures Valid() && old(claimed) <= claimed && old(tips) <= tips
      ensures r.Done? ==> r.status.Synced? && r.processed == |mine|
      ensures r.Threw? ==> lost > old(lost) || Stuck()
      ensures r.Done? ==> through.Some? && Through(through.value) && Height(through.value) >= safeHead
      ensures Mine(mine, old(claimed), claimed)
    {
      hide RowsOf, Indexable, Run, FinalStays, Settled, NoRepeats, Mine, Regular;
      mine, through := [], prev;
      NothingMine(claimed);
      var start, processed := fromBlock, 0;
      while start <= safeHead
        invariant Valid() && |tips| > 0 && old(claimed) <= claimed && old(tips) <= tips
        invariant Settled(top, tips, confirmations) && deployment <= start
        invariant if through.None? then start == deployment
          else Height(through.value) == start - 1 && Through(through.value)
        invariant processed == |mine| && Mine(mine, old(claimed), claimed) && lost == old(lost)
        decreases safeHead + 1 - start
      {
        var end := if start + LOG_BLOCK_RANGE - 1 > safeHead then safeHead else start + LOG_BLOCK_RANGE - 1;
        ghost var earlier, before, last, more := claimed, tips, At(top, end), mine;
        AtIsOn(top, end);
        SettledBehind(last, top, tips, confirmations);
        var ok, count;
        ok, count, more := IndexChunk(start, end, through, last);
        StillSettled(top, before, tips, confirmations);
        MineJoins(mine, more, old(claimed), earlier, claimed);
        mine, processed := mine + more, processed + count;
        if !ok {
          return Threw, through, mine;
        }
        through := Some(last);
        start := end + 1;
      }
      return Done(processed, Synced), through, mine;
    }
  }

  /** What has its confirmations, or a rival that has, keeps it. */
  lemma StillResumable<E(!new)>(claimed: seq<LogRow<E, nat>>, checkpoint: Option<Checkpoint<E>>,
                                before: seq<LogChain<E, nat>>, tips: seq<LogChain<E, nat>>, depth: nat)
    requires before <= tips
    ensures checkpoint.Some? && Refuted(checkpoint.value.hash, before, depth) ==>
      Refuted(checkpoint.value.hash, tips, depth)
    ensures checkpoint.Some? && Settled(checkpoint.value.hash, before, depth) ==>
      Settled(checkpoint.value.hash, tips, depth)
    ensures (forall r :: r in claimed ==> Settled(r.hash, before, depth)) ==>
      forall r :: r in claimed ==> Settled(r.hash, tips, depth)
  {
    hide Settled, Refuted;
    if checkpoint.Some? {
      StillSettled(checkpoint.value.hash, before, tips, depth);
    }
    forall r | r in claimed ensures Settled(r.hash, before, depth) ==> Settled(r.hash, tips, depth) {
      StillSettled(r.hash, before, tips, depth);
    }
  }

  /** The confirmed head has its confirmations. */
  lemma SettledHead<E(!new)>(tips: seq<LogChain<E, nat>>, at: nat, safeHead: nat, depth: nat)
    requires at < |tips| && safeHead + depth == Height(tips[at])
    ensures Settled(At(tips[at], safeHead), tips, depth)
  {
    AtIsOn(tips[at], safeHead);
  }

  /** The blocks that were read are those of the branch. */
  predicate OfBranch<E(==)>(last: LogChain<E, nat>, blocks: map<nat, LogChain<E, nat>>) {
    forall n :: n in blocks ==> n <= Height(last) && blocks[n] == At(last, n)
  }

  /** The events one run handled itself: each once, and none that was claimed before. */
  ghost predicate Mine<E>(mine: seq<LogRow<E, nat>>, before: seq<LogRow<E, nat>>, claimed: seq<LogRow<E, nat>>) {
    exists at: seq<nat> ::
      && |at| == |mine| && (forall i, j :: 0 <= i < j < |at| ==> at[i] < at[j])
      && forall i :: 0 <= i < |at| ==> |before| <= at[i] < |claimed| && claimed[at[i]] == mine[i]
  }

  lemma NothingMine<E>(claimed: seq<LogRow<E, nat>>)
    ensures Mine([], claimed, claimed)
  {
    var at: seq<nat> := [];
    assert |at| == 0;
  }

  lemma NothingCached<E>(last: LogChain<E, nat>)
    ensures OfBranch(last, map[])
  {
  }

  lemma MineStays<E>(mine: seq<LogRow<E, nat>>, before: seq<LogRow<E, nat>>, claimed: seq<LogRow<E, nat>>,
                     later: seq<LogRow<E, nat>>)
    requires Mine(mine, before, claimed) && claimed <= later
    ensures Mine(mine, before, later)
  {
  }

  lemma MineAdds<E>(mine: seq<LogRow<E, nat>>, before: seq<LogRow<E, nat>>, claimed: seq<LogRow<E, nat>>,
                    row: LogRow<E, nat>)
    requires Mine(mine, before, claimed) && before <= claimed
    ensures Mine(mine + [row], before, claimed + [row])
  {
    var at: seq<nat> :| |at| == |mine| && (forall i, j :: 0 <= i < j < |at| ==> at[i] < at[j])
      && forall i :: 0 <= i < |at| ==> |before| <= at[i] < |claimed| && claimed[at[i]] == mine[i];
    var more := at + [|claimed|];
    assert forall i :: 0 <= i < |more| ==>
      |before| <= more[i] < |claimed + [row]| && (claimed + [row])[more[i]] == (mine + [row])[i];
  }

  lemma MineSince<E>(mine: seq<LogRow<E, nat>>, before: seq<LogRow<E, nat>>, earlier: seq<LogRow<E, nat>>,
                     claimed: seq<LogRow<E, nat>>)
    requires Mine(mine, earlier, claimed) && before <= earlier
    ensures Mine(mine, before, claimed)
  {
  }

  lemma MineJoins<E>(mine: seq<LogRow<E, nat>>, more: seq<LogRow<E, nat>>, before: seq<LogRow<E, nat>>,
                     earlier: seq<LogRow<E, nat>>, claimed: seq<LogRow<E, nat>>)
    requires Mine(mine, before, earlier) && Mine(more, earlier, claimed) && before <= earlier <= claimed
    ensures Mine(mine + more, before, claimed)
  {
    var at: seq<nat> :| |at| == |mine| && (forall i, j :: 0 <= i < j < |at| ==> at[i] < at[j])
      && forall i :: 0 <= i < |at| ==> |before| <= at[i] < |earlier| && earlier[at[i]] == mine[i];
    var next: seq<nat> :| |next| == |more| && (forall i, j :: 0 <= i < j < |next| ==> next[i] < next[j])
      && forall i :: 0 <= i < |next| ==> |earlier| <= next[i] < |claimed| && claimed[next[i]] == more[i];
    var all := at + next;
    assert forall i :: 0 <= i < |all| ==> |before| <= all[i] < |claimed| && claimed[all[i]] == (mine + more)[i];
  }

  lemma NothingToIndex<E(!new)>(skip: E -> bool)
    ensures Indexable([], skip) == []
  {
  }

  lemma OneLogMore<E(!new)>(pre: seq<LogRow<E, nat>>, logs: seq<LogRow<E, nat>>, n: nat, last: LogChain<E, nat>,
                            from: nat, skip: E -> bool)
    requires n < |logs| && RowsOf(last, from) == pre + logs
    ensures Indexable(pre + logs[..n + 1], skip)
      == Indexable(pre + logs[..n], skip) + if skip(logs[n].body) then [] else [logs[n]]
    ensures Indexable(pre + logs[..n + 1], skip) <= Indexable(RowsOf(last, from), skip)
  {
    hide RowsOf, Indexable;
    var some := pre + logs[..n + 1];
    assert some == (pre + logs[..n]) + [logs[n]];
    IndexableOne(pre + logs[..n], logs[n], skip);
    assert pre + logs == some + logs[n + 1..];
    IndexableAppend(some, logs[n + 1..], skip);
  }

  lemma {:induction false} IndexableInOrder<E(!new)>(rows: seq<LogRow<E, nat>>, skip: E -> bool)
    requires InOrder(rows)
    ensures InOrder(Indexable(rows, skip))
  {
    if rows != [] {
      var n := |rows| - 1;
      IndexableInOrder(rows[..n], skip);
      var h := Indexable(rows[..n], skip);
      forall i | 0 <= i < |h| ensures EventAfter(rows[n].at, h[i].at) {
        assert h[i] in rows[..n];
      }
    }
  }

  lemma {:induction false} RunPrefix<E, S>(initial: S, rows: seq<LogRow<E, nat>>,
                                           handle: (S, LogRow<E, nat>, nat) -> Option<S>, k: nat)
    requires k <= |rows| && Run(initial, rows, handle).Some?
    ensures Run(initial, rows[..k], handle).Some?
  {
    if k < |rows| {
      assert rows[..|rows| - 1][..k] == rows[..k];
      RunPrefix(initial, rows[..|rows| - 1], handle, k);
    } else {
      assert rows[..k] == rows;
    }
  }

  // ---- what the checkpoint does not see ------------------------------------------------------

  /**
   If confirmed blocks are dropped after all, a later run that still finds its checkpoint goes on
   from it. That is right exactly when no claimed event lies in a dropped block.
   */
  lemma ResumeIsSafeIff<E(!new)>(claimed: seq<LogRow<E, nat>>, before: LogChain<E, nat>, now: LogChain<E, nat>,
                                 deployment: nat, skip: E -> bool)
    requires claimed <= Indexable(RowsOf(before, deployment), skip) && Indexed(before)
    ensures claimed <= Indexable(RowsOf(now, deployment), skip) <==> forall r :: r in claimed ==> On(r.hash, now)
  {
    hide RowsOf, Indexable;
    if claimed <= Indexable(RowsOf(now, deployment), skip) {
      RowsNameTheirBlock(now, deployment);
      forall r | r in claimed ensures On(r.hash, now) {
        assert r in Indexable(RowsOf(now, deployment), skip);
      }
    }
    if claimed != [] && forall r :: r in claimed ==> On(r.hash, now) {
      var last := claimed[|claimed| - 1];
      assert last in claimed && last in Indexable(RowsOf(before, deployment), skip);
      ClaimedBehind(claimed, before, deployment, skip);
      IndexableGrows(last.hash, now, deployment, skip);
    }
  }

  /** What a run claims, going on with these logs: each whose key is not claimed yet. */
  function Resume<E(==)>(claimed: seq<LogRow<E, nat>>, logs: seq<LogRow<E, nat>>): seq<LogRow<E, nat>>
    decreases |logs|
  {
    if logs == [] then claimed
    else Resume(if Claimed(claimed, logs[0]) then claimed else claimed + [logs[0]], logs[1..])
  }

  lemma {:induction false} ResumeKeeps<E>(claimed: seq<LogRow<E, nat>>, logs: seq<LogRow<E, nat>>)
    ensures claimed <= Resume(claimed, logs)
    decreases |logs|
  {
    if logs != [] {
      ResumeKeeps(if Claimed(claimed, logs[0]) then claimed else claimed + [logs[0]], logs[1..]);
    }
  }

  /** From a prefix of the log that covers everything before `k`, going on at `k` completes it. */
  lemma {:induction false} ResumeCompletes<E>(all: seq<LogRow<E, nat>>, claimed: seq<LogRow<E, nat>>, k: nat)
    requires NoRepeats(all) && claimed <= all && k <= |claimed|
    ensures Resume(claimed, all[k..]) == all
    decreases |all| - k
  {
    if k < |all| {
      NextOrClaimed(all, claimed, all[..k], all[k]);
      assert all[k..][1..] == all[k + 1..];
      assert all[..k] + [all[k]] == all[..k + 1];
      ResumeCompletes(all, if Claimed(claimed, all[k]) then claimed else claimed + [all[k]], k + 1);
    }
  }

  /**
   A run that still finds its checkpoint goes on behind it, on the branch that now is canonical. It
   ends with exactly that branch's events, in order, if and only if no claimed event was dropped.
   */
  lemma ResumedRunIff<E(!new)>(claimed: seq<LogRow<E, nat>>, checkpoint: LogChain<E, nat>, before: LogChain<E, nat>,
                               now: LogChain<E, nat>, deployment: nat, skip: E -> bool)
    requires claimed <= Indexable(RowsOf(before, deployment), skip) && Indexed(before) && Regular(now)
    requires On(checkpoint, before) && On(checkpoint, now) && deployment <= Height(checkpoint)
    requires Indexable(RowsOf(checkpoint, deployment), skip) <= claimed
    ensures Resume(claimed, Indexable(RowsOf(now, Height(checkpoint) + 1), skip)) == Indexable(RowsOf(now, deployment),
      skip)
      <==> forall r :: r in claimed ==> On(r.hash, now)
  {
    hide RowsOf, Indexable, NoRepeats, InOrder, On, Resume;
    var all, next := Indexable(RowsOf(now, deployment), skip), Indexable(RowsOf(now, Height(checkpoint) + 1), skip);
    ResumeIsSafeIff(claimed, before, now, deployment, skip);
    ResumeKeeps(claimed, next);
    if claimed <= all {
      RowsSplit(checkpoint, now, deployment);
      IndexableAppend(RowsOf(checkpoint, deployment), RowsOf(now, Height(checkpoint) + 1), skip);
      var k := |Indexable(RowsOf(checkpoint, deployment), skip)|;
      assert all[k..] == next;
      OnItself(now);
      RegularBehind(now, now, deployment);
      IndexableNoRepeats(RowsOf(now, deployment), skip);
      ResumeCompletes(all, claimed, k);
    }
  }

  lemma OnItself<E>(b: LogChain<E, nat>)
    ensures On(b, b)
  {
  }

  /** The claimed events lie on the branch of the last one's block. */
  lemma ClaimedBehind<E(!new)>(claimed: seq<LogRow<E, nat>>, tip: LogChain<E, nat>, deployment: nat, skip: E -> bool)
    requires claimed <= Indexable(RowsOf(tip, deployment), skip) && Indexed(tip) && claimed != []
    ensures var b := claimed[|claimed| - 1].hash;
      deployment <= Height(b) && claimed <= Indexable(RowsOf(b, deployment), skip)
  {
    hide RowsOf, Indexable;
    var k := |claimed| - 1;
    var row, all := claimed[k], Indexable(RowsOf(tip, deployment), skip);
    var b := row.hash;
    assert all[k] == row && row in all;
    RowsNameTheirBlock(tip, deployment);
    RowsInRange(tip, deployment);
    RowsInRange(tip, Height(b) + 1);
    RowsSplit(b, tip, deployment);
    IndexableAppend(RowsOf(b, deployment), RowsOf(tip, Height(b) + 1), skip);
    var own, rest := Indexable(RowsOf(b, deployment), skip), Indexable(RowsOf(tip, Height(b) + 1), skip);
    assert all == own + rest;
    assert forall j :: 0 <= j < |rest| ==> rest[j] in RowsOf(tip, Height(b) + 1) && rest[j].at.block > Height(b);
    assert k < |own|;
  }

  /** Before and after a reorganization the checkpoint `c` is canonical, but a claimed event is not. */
  predicate OrphanBehindCheckpoint(c: LogChain<int, nat>, before: LogChain<int, nat>, now: LogChain<int, nat>,
                                   row: LogRow<int, nat>) {
    && On(c, before) && On(c, now) && Regular(before) && Regular(now)
    && RowsOf(c, 0) == [] && RowsOf(before, 0) == [row] && RowsOf(now, 0) == []
  }

  lemma ReorganizedPair(body: int)
    returns (c: LogChain<int, nat>, before: LogChain<int, nat>, now: LogChain<int, nat>, row: LogRow<int, nat>)
    ensures OrphanBehindCheckpoint(c, before, now, row) && row.body == body
  {
    c := Genesis(LogBlock([], 0));
    before := Child(c, LogBlock([RawLog(1, 0, body)], 1));
    now := Child(c, LogBlock([], 1));
    row := Row(Stamp(1, 0), before, 1, body);
    assert RowsOf(c, 0) == BlockRows(c) == [];
    assert RowsOf(now, 0) == RowsOf(c, 0) + BlockRows(now) == [];
    assert RowsOf(before, 0) == RowsOf(c, 0) + BlockRows(before) == [row];
    assert Indexed(c) && Indexed(before) && Indexed(now);
    assert NoRepeats(RowsOf(before, 0)) && NoRepeats(RowsOf(now, 0));
  }

  /** The checkpoint alone does not tell: it can be canonical while a claimed event is not. */
  lemma CanonicalCheckpointHidesOrphan(body: int, skip: int -> bool)
    requires !skip(body)
    ensures exists c: LogChain<int, nat>, before: LogChain<int, nat>, now: LogChain<int, nat>, row: LogRow<int, nat> ::
      && OrphanBehindCheckpoint(c, before, now, row)
      && [row] <= Indexable(RowsOf(before, 0), skip) && !([row] <= Indexable(RowsOf(now, 0), skip))
  {
    hide RowsOf, BlockRows, On, Regular, Height;
    var c, before, now, row := ReorganizedPair(body);
    IndexableOne([], row, skip);
    assert [] + [row] == [row];
    NothingToIndex(skip);
  }
}
