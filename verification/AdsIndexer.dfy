/**
 The ads indexer: it scans the chain in chunks and commits each chunk together with its
 checkpoint. Other processes and the chain itself may move whenever it waits.
 */
module AdsIndexer {
  import opened Prelude
  import opened Chain
  import opened Logs
  import opened Branch
  import opened AdsProjection
  import opened AdsBranch

  const LOG_BLOCK_RANGE: nat := 500

  datatype Snapshot = Snapshot(config: Config, configBlock: nat)

  datatype IndexerState = IndexerState(number: nat, hash: Hash, snapshot: Option<Snapshot>)

  /** What the worker remembers of the checkpoint it read or wrote last. */
  datatype Checkpoint = Checkpoint(number: nat, hash: Hash)

  datatype Status = Syncing | Synced

  datatype IndexResult = Done(processed: nat, status: Status) | Threw

  function Mark(state: Option<IndexerState>): Option<Checkpoint> {
    if state.Some? then Some(Checkpoint(state.value.number, state.value.hash)) else None
  }

  /** The newest block that has min(confirmations, 4) confirmations, its own block being the first. */
  function FinalizedAdsBlock(head: nat, confirmations: int): (r: Option<nat>)
    ensures r.Some? <==> confirmations >= 1
    ensures r.Some? && r.value > 0 ==> head - r.value + 1 == if confirmations < 4 then confirmations else 4
    ensures r == Some(0) && head > 0 ==> head + 1 <= if confirmations < 4 then confirmations else 4
  {
    if confirmations < 1 then None
    else
      var distance := (if confirmations < 4 then confirmations else 4) - 1;
      Some(if head > distance then head - distance else 0)
  }

  ghost predicate WasCanonical(b: Hash, tips: seq<Hash>) {
    exists t :: 0 <= t < |tips| && On(b, tips[t])
  }

  /** The tables hold the replay of exactly the branch that the checkpoint names. */
  ghost predicate Faithful(events: seq<AdRow>, positions: Positions, state: Option<IndexerState>, deployment: nat,
                           tips: seq<Hash>) {
    match state
    case None => events == [] && positions == map[]
    case Some(c) =>
      && c.number == Height(c.hash) && deployment <= c.number && WasCanonical(c.hash, tips)
      && events == RowsOf(c.hash, deployment)
      && positions == Replay(events)
      && (c.snapshot.Some? ==> TrueSnapshot(c.hash, c.snapshot.value))
  }

  /** The saved settings are those the contract has on this branch at the block they name. */
  predicate TrueSnapshot(hash: Hash, s: Snapshot) {
    s.configBlock <= Height(hash) && At(hash, s.configBlock).payload.extra == s.config
  }

  /** What the stored projection says, read off the branch alone. */
  lemma ProjectionOfBranch(events: seq<AdRow>, positions: Positions, c: IndexerState, deployment: nat, tips: seq<Hash>,
                           key: StakeKey)
    requires Faithful(events, positions, Some(c), deployment, tips) && forall t :: 0 <= t < |tips| ==> Regular(tips[t])
    ensures var h := History(RowsOf(c.hash, deployment), key);
      && OnePosition(h)
      && (key in positions <==> h != [])
      && (key in positions ==>
            && Describes(positions[key], h[|h| - 1])
            && (forall j :: 0 <= j < |h| ==> (positions[key].amountSince == h[j].at <==> ConstantFrom(h, j)))
            && (forall j :: 0 <= j < |h| ==> (positions[key].stakeSince == h[j].at <==> LastOpening(h, j))))
  {
    var t :| 0 <= t < |tips| && On(c.hash, tips[t]);
    var h := History(RowsOf(c.hash, deployment), key);
    RegularBehind(c.hash, tips[t], deployment);
    StakesAreIndependent(events, key);
    HistoryInOrder(events, key);
    if h != [] {
      SinceInOrder(h);
    }
  }

  lemma {:induction false} HistoryInOrder(rows: seq<AdRow>, key: StakeKey)
    requires InOrder(rows)
    ensures InOrder(History(rows, key))
  {
    if rows != [] {
      var n := |rows| - 1;
      HistoryInOrder(rows[..n], key);
      var h := History(rows[..n], key);
      forall k | 0 <= k < |h| ensures EventAfter(rows[n].at, h[k].at) {
        assert h[k] in rows[..n];
      }
    }
  }

  /** A hash read before and after some time was canonical then, and the branch there runs through it. */
  lemma SameBranch(hash: Hash, earlier: Option<Hash>, tips: seq<Hash>, before: nat, first: nat, middle: nat, last: nat,
                   after: nat)
    requires NoRevival(tips) && before <= first <= middle <= last <= after
    requires CanonicalAt(hash, tips, first) && CanonicalAt(hash, tips, last)
    requires earlier.Some? ==> CanonicalAt(earlier.value, tips, before) && CanonicalAt(earlier.value, tips, after)
                               && Height(earlier.value) <= Height(hash)
    ensures CanonicalAt(hash, tips, middle)
    ensures earlier.Some? ==> On(earlier.value, hash)
  {
    CanonicalBetween(hash, tips, first, middle, last);
    if earlier.Some? {
      CanonicalBetween(earlier.value, tips, before, last, after);
      OneBranch(earlier.value, hash, tips[last]);
    }
  }

  /** On a branch through `hash`, the block at its height is `hash`. */
  lemma BranchAt(hash: Hash, tip: Hash)
    requires On(hash, tip)
    ensures Height(hash) <= Height(tip) && At(tip, Height(hash)) == hash
  {
    OnHeight(hash, tip);
    AtIsOn(tip, Height(hash));
    SameHeight(hash, At(tip, Height(hash)), tip);
  }

  lemma {:induction false} AtOfPart(a: Hash, b: Hash, n: nat)
    requires On(a, b) && n <= Height(a)
    ensures n <= Height(b) && At(b, n) == At(a, n)
  {
    OnHeight(a, b);
    if a != b {
      AtOfPart(a, b.parent, n);
    }
  }

  // ---- what can hinder a run ----------------------------------------------------------------

  /** The chain only grew: each tip lies on the later ones. */
  ghost predicate Grew(tips: seq<Hash>, from: nat) {
    forall t, u :: from <= t <= u < |tips| ==> On(tips[t], tips[u])
  }

  lemma GrewBefore(tips: seq<Hash>, more: seq<Hash>, from: nat, later: nat)
    requires tips <= more && from <= later
    ensures Grew(more, from) ==> Grew(tips, later)
  {
  }

  lemma StaysOn(hash: Hash, tips: seq<Hash>, from: nat, t: nat, u: nat)
    requires Grew(tips, from) && from <= t <= u < |tips| && On(hash, tips[t])
    ensures On(hash, tips[u])
  {
    OnTransitive(hash, tips[t], tips[u]);
  }

  lemma GrowthKeeps(tips: seq<Hash>, from: nat, t: nat, u: nat, n: nat)
    requires Grew(tips, from) && from <= t <= u < |tips| && n <= Height(tips[t])
    ensures n <= Height(tips[u]) && At(tips[u], n) == At(tips[t], n)
  {
    AtOfPart(tips[t], tips[u], n);
  }

  lemma NotOnSince(hash: Hash, tips: seq<Hash>, from: nat, t: nat)
    requires from <= t < |tips| && !On(hash, tips[t])
    ensures !Grew(tips, from) || !On(hash, tips[from])
  {
    if Grew(tips, from) && On(hash, tips[from]) {
      StaysOn(hash, tips, from, from, t);
    }
  }

  lemma TooHighSince(n: nat, tips: seq<Hash>, from: nat, t: nat)
    requires from <= t < |tips| && n > Height(tips[t])
    ensures !Grew(tips, from) || n > Height(tips[from])
  {
    if Grew(tips, from) && n <= Height(tips[from]) {
      GrowthKeeps(tips, from, from, t, n);
    }
  }

  /** Two blocks of one height were canonical one after the other. */
  lemma Replaced(a: Hash, b: Hash, tips: seq<Hash>, from: nat, t: nat, u: nat)
    requires from <= t <= u < |tips| && On(a, tips[t]) && On(b, tips[u]) && Height(a) == Height(b) && a != b
    ensures !Grew(tips, from)
  {
    if Grew(tips, from) {
      StaysOn(a, tips, from, t, u);
      SameHeight(a, b, tips[u]);
    }
  }

  /** The contract is not there at this block, or is not the one expected. */
  predicate BadSettings(tip: Hash, n: nat, pre: nat) {
    n > Height(tip) || At(tip, n).payload.extra.pre != pre || At(tip, n).payload.extra.minimumStake <= 0
  }

  ghost predicate BadSince(tips: seq<Hash>, from: nat, n: nat, pre: nat) {
    exists t :: from <= t < |tips| && BadSettings(tips[t], n, pre)
  }

  lemma BadEarlier(tips: seq<Hash>, from: nat, later: nat, n: nat, pre: nat)
    requires from <= later
    ensures BadSince(tips, later, n, pre) ==> BadSince(tips, from, n, pre)
  {
  }

  /** A log that the transaction of a chunk refuses. */
  predicate HasNegative(rows: seq<AdRow>) {
    exists k :: 0 <= k < |rows| && rows[k].body.PositionChanged? && Negative(rows[k].body)
  }

  ghost predicate PoisonedSince(tips: seq<Hash>, from: nat, deployment: nat) {
    exists hash: Hash, t :: from <= t < |tips| && On(hash, tips[t]) && HasNegative(RowsOf(hash, deployment))
  }

  class ContractAdsChainSource {
    var events: seq<AdRow>
    var positions: Positions
    var state: Option<IndexerState>
    /** The node: the tips that were canonical so far. */
    var tips: seq<Hash>
    /** How many answers were missing, and how often others wrote the tables. */
    ghost var lost: nat
    ghost var others: nat
    const deploymentBlock: nat
    const confirmations: int
    const preAddress: nat

    ghost predicate Valid()
      reads this
    {
      && |tips| > 0 && NoRevival(tips) && (forall t :: 0 <= t < |tips| ==> Regular(tips[t]))
      && Faithful(events, positions, state, deploymentBlock, tips)
    }

    constructor (genesis: Hash, deploymentBlock: nat, confirmations: int, preAddress: nat)
      requires Regular(genesis)
      ensures Valid() && state.None?
    {
      events, positions, state, tips, lost, others := [], map[], None, [genesis], 0, 0;
      this.deploymentBlock, this.confirmations, this.preAddress := deploymentBlock, confirmations, preAddress;
    }

    // ---- the environment ------------------------------------------------------------------

    /** Time passed: the chain moved, and the tables are as they were unless others wrote them. */
    twostate predicate Passed()
      reads this
    {
      && old(tips) <= tips && old(lost) <= lost && old(others) <= others
      && (others == old(others) ==> events == old(events) && positions == old(positions) && state == old(state))
    }

    /** Other indexers commit, crash or reset, and the chain moves. All a caller keeps is `Valid()`. */
    method OthersRun()
      requires Valid()
      modifies this
      ensures Valid() && Passed() && lost == old(lost)
    {
    }

    method NoAnswer()
      modifies this`lost
      ensures lost == old(lost) + 1 && Valid() == old(Valid())
    {
      lost := lost + 1;
    }

    method BlockHash(n: nat) returns (hash: Rpc<Hash>, ghost at: nat)
      requires Valid()
      modifies this
      ensures Valid() && Passed() && |old(tips)| - 1 <= at == |tips| - 1
      ensures hash.Got? ==> CanonicalAt(hash.value, tips, at) && Height(hash.value) == n
      ensures hash.Lost? ==> lost > old(lost) || n > Height(tips[at])
    {
      hide Regular, NoRevival, Faithful;
      OthersRun();
      at := |tips| - 1;
      var tip, answered := tips[|tips| - 1], *;
      if !answered {
        NoAnswer();
        return Lost, at;
      }
      if n > Height(tip) {
        return Lost, at;
      }
      AtIsOn(tip, n);
      hash := Got(At(tip, n));
    }

    /** One log query: the events of one kind in a range of blocks, as one node sees them. */
    method GetEvents(charges: bool, from: nat, to: nat) returns (rows: Rpc<seq<AdRow>>, ghost at: nat)
      requires Valid()
      modifies this
      ensures Valid() && Passed() && |old(tips)| - 1 <= at == |tips| - 1
      ensures rows.Lost? ==> lost > old(lost)
      ensures rows.Got? && to <= Height(tips[at]) ==> rows.value == OfKind(RowsOf(At(tips[at], to), from), charges)
    {
      hide Regular, NoRevival, Faithful, RowsOf, OfKind, At, On;
      OthersRun();
      at := |tips| - 1;
      var tip, answered := tips[|tips| - 1], *;
      if !answered {
        NoAnswer();
        return Lost, at;
      }
      var top := if to <= Height(tip) then At(tip, to) else tip;
      rows := Got(OfKind(RowsOf(top, from), charges));
    }

    /** One read of one contract setting at a block; on a branch that was canonical then, it is the branch's. */
    method ReadContract<T>(n: nat, field: Config -> T, ghost branch: Hash) returns (value: Rpc<T>, ghost at: nat)
      requires Valid()
      modifies this
      ensures Valid() && Passed() && |old(tips)| - 1 <= at == |tips| - 1
      ensures value.Lost? ==> lost > old(lost) || n > Height(tips[at])
      ensures value.Got? ==> n <= Height(tips[at]) && value.value == field(At(tips[at], n).payload.extra)
      ensures value.Got? && n <= Height(branch) && CanonicalAt(branch, tips, at) ==>
        value.value == field(At(branch, n).payload.extra)
    {
      hide Regular, NoRevival, Faithful;
      OthersRun();
      at := |tips| - 1;
      var tip, answered := tips[|tips| - 1], *;
      if n <= Height(branch) && On(branch, tip) {
        AtOfPart(branch, tip, n);
      }
      if !answered {
        NoAnswer();
        return Lost, at;
      }
      return if n > Height(tip) then Lost else Got(field(At(tip, n).payload.extra)), at;
    }

    // ---- transactions -----------------------------------------------------------------------

    method ResetAdsProjectionAfterReorg()
      requires Valid()
      modifies this`events, this`positions, this`state
      ensures Valid() && events == [] && positions == map[] && state.None?
    {
      events, positions, state := [], map[], None;
    }

    /** The settings at this block are stored. */
    predicate HasSettingsOf(n: nat)
      reads this
    {
      state.Some? && state.value.snapshot.Some? && state.value.snapshot.value.configBlock == n
    }

    /** Refuses when another process moved the checkpoint since it was read. */
    predicate UnchangedCheckpoint(expected: Option<Checkpoint>)
      reads this
    {
      Mark(state) == expected
    }

    method AdvanceAdsIndexerState(number: nat, hash: Hash, snapshot: Option<Snapshot>)
      modifies this`state
      ensures old(state).Some? && old(state).value.number > number ==> state == old(state)
      ensures !(old(state).Some? && old(state).value.number > number) ==>
        state == Some(IndexerState(number, hash, if snapshot.Some? || old(state).None? then snapshot
                                   else old(state).value.snapshot))
    {
      if state.Some? && state.value.number > number {
        return;
      }
      state := Some(IndexerState(number, hash,
        if snapshot.Some? then snapshot else if state.Some? then state.value.snapshot else None));
    }

    /**
     The transaction of a chunk. It succeeds only on the checkpoint that the chunk was scanned
     from, and then no log is lost as a duplicate or as stale.
     */
    method CommitChunk(logs: seq<AdRow>, expected: Option<Checkpoint>, end: nat, hash: Hash, snapshot: Option<Snapshot>)
      returns (applied: Option<nat>)
      requires Valid() && Continues(expected, hash, deploymentBlock) && Height(hash) == end && WasCanonical(hash, tips)
      requires logs == RowsOf(hash, FirstBlock(expected, deploymentBlock))
      requires snapshot.Some? ==> TrueSnapshot(hash, snapshot.value)
      modifies this`events, this`positions, this`state
      ensures Valid()
      ensures applied.None? ==> events == old(events) && positions == old(positions) && state == old(state)
      ensures applied.None? <==> Mark(old(state)) != expected || HasNegative(logs)
      ensures applied.Some? ==> Mark(old(state)) == expected && Mark(state) == Some(Checkpoint(end, hash))
      ensures applied.Some? ==> applied.value == PositionCount(logs)
      ensures applied.Some? && snapshot.Some? ==> state.value.snapshot == snapshot
    {
      hide InOrder, NoRepeats, Replay, RowsOf, PositionCount, Project, Regular, Claimed, TrueSnapshot;
      if !UnchangedCheckpoint(expected) {
        return None;
      }
      NothingReplayed();
      BranchGrows(events, state, hash, deploymentBlock, tips);
      var rows, projected, count := events, positions, 0;
      var n := 0;
      while n < |logs|
        invariant events == old(events) && positions == old(positions) && state == old(state)
        invariant n <= |logs| && rows == events + logs[..n]
        invariant projected == Replay(rows) && count == PositionCount(logs[..n]) && !HasNegative(logs[..n])
      {
        var log := logs[n];
        Unclaimed(events, logs, n);
        assert rows + [log] == events + logs[..n + 1];
        assert logs[..n + 1] == logs[..n] + [log];
        ReplayOneMore(rows, log);
        ReplayOneMore(logs[..n], log);
        if !Claimed(rows, log) {
          rows := rows + [log];
          if log.body.PositionChanged? {
            if Negative(log.body) {
              return None;
            }
            var current := Stored(projected, log.body.key);
            if current.None? || EventAfter(log.at, current.value.at) {
              count := count + 1;
            }
            projected := projected[log.body.key := Project(current, log)];
          }
        }
        n := n + 1;
      }
      assert logs[..n] == logs;
      SnapshotGrows(state, hash);
      events, positions := rows, projected;
      AdvanceAdsIndexerState(end, hash, snapshot);
      return Some(count);
    }

    lemma SoundChain()
      requires Valid()
      ensures |tips| > 0 && NoRevival(tips) && forall t :: 0 <= t < |tips| ==> Regular(tips[t])
    {
    }

    // ---- the scan ---------------------------------------------------------------------------

    /** Reads the settings one by one; they are those of `branch` if it was canonical all along. */
    method ContractSnapshot(n: nat, ghost branch: Hash) returns (s: Rpc<Snapshot>)
      requires Valid()
      modifies this
      ensures Valid() && Passed()
      ensures s.Lost? ==> lost > old(lost) || BadSince(tips, |old(tips)| - 1, n, preAddress)
      ensures s.Got? ==>
        s.value.configBlock == n && s.value.config.pre == preAddress && s.value.config.minimumStake > 0
      ensures s.Got? && n <= Height(branch) && Throughout(branch, tips, |old(tips)| - 1, |tips| - 1) ==>
        TrueSnapshot(branch, s.value)
    {
      hide Valid, At, On;
      SoundChain();
      var pre, t0 := ReadContract(n, (c: Config) => c.pre, branch);
      var minimumStake, t1 := ReadContract(n, (c: Config) => c.minimumStake, branch);
      var paused, t2 := ReadContract(n, (c: Config) => c.paused, branch);
      var rest, t3 := ReadOthers(n, branch);
      if pre.Lost? || minimumStake.Lost? || paused.Lost? || rest.Lost? {
        assert lost > old(lost) || n > Height(tips[t0]) || n > Height(tips[t1]) || n > Height(tips[t2]) ||
          BadSince(tips, |old(tips)| - 1, n, preAddress);
        return Lost;
      }
      if pre.value != preAddress || minimumStake.value <= 0 {
        return Lost;
      }
      assert Throughout(branch, tips, |old(tips)| - 1, |tips| - 1) ==>
        CanonicalAt(branch, tips, t0) && CanonicalAt(branch, tips, t1) && CanonicalAt(branch, tips, t2);
      s := Got(Snapshot(rest.value.(pre := pre.value, minimumStake := minimumStake.value, paused := paused.value), n));
    }

    /** The settings that are stored without being checked. */
    method ReadOthers(n: nat, ghost branch: Hash) returns (r: Rpc<Config>, ghost at: nat)
      requires Valid()
      modifies this
      ensures Valid() && Passed() && |old(tips)| - 1 <= at == |tips| - 1
      ensures r.Lost? ==> lost > old(lost) || BadSince(tips, |old(tips)| - 1, n, preAddress)
      ensures r.Got? && n <= Height(branch) && Throughout(branch, tips, |old(tips)| - 1, |tips| - 1) ==>
        var c := At(branch, n).payload.extra;
        r.value == c.(pre := r.value.pre, minimumStake := r.value.minimumStake, paused := r.value.paused)
    {
      hide Valid, At, On;
      SoundChain();
      var operator, t3 := ReadContract(n, (c: Config) => c.operator, branch);
      var priceUpdater, t4 := ReadContract(n, (c: Config) => c.priceUpdater, branch);
      var price, t5 := ReadContract(n, (c: Config) => c.price, branch);
      var quotedAt, t6 := ReadContract(n, (c: Config) => c.quotedAt, branch);
      at := t6;
      if operator.Lost? || priceUpdater.Lost? || price.Lost? || quotedAt.Lost? {
        return Lost, at;
      }
      assert Throughout(branch, tips, |old(tips)| - 1, |tips| - 1) ==>
        CanonicalAt(branch, tips, t3) && CanonicalAt(branch, tips, t4) && CanonicalAt(branch, tips, t5) &&
          CanonicalAt(branch, tips, t6);
      r := Got(Config(0, 0, false, operator.value, priceUpdater.value, price.value, quotedAt.value));
    }

    /** The checkpoint is still canonical; without one there is nothing to check. */
    method CanonicalCheckpoint(c: Option<Checkpoint>) returns (ok: bool, ghost at: nat)
      requires Valid() && (c.Some? ==> c.value.number == Height(c.value.hash))
      modifies this
      ensures Valid() && Passed() && |old(tips)| - 1 <= at == |tips| - 1
      ensures ok && c.Some? ==> CanonicalAt(c.value.hash, tips, at)
      ensures !ok ==> lost > old(lost) || (c.Some? && !CanonicalAt(c.value.hash, tips, at))
    {
      if c.None? {
        return true, |tips| - 1;
      }
      var hash;
      hash, at := BlockHash(c.value.number);
      ok := hash.Got? && hash.value == c.value.hash;
      if CanonicalAt(c.value.hash, tips, at) {
        OnHeight(c.value.hash, tips[at]);
        if hash.Got? {
          SameHeight(hash.value, c.value.hash, tips[at]);
        }
      }
    }

    /** Why a scan from the checkpoint `c` through block `end` can fail that began at time `from`. */
    ghost predicate Hindered(lostBefore: nat, from: nat, c: Option<Checkpoint>, end: nat, withSnapshot: bool)
      reads this
    {
      || lost > lostBefore || !Grew(tips, from)
      || (from < |tips| && ((c.Some? && !On(c.value.hash, tips[from])) || end > Height(tips[from])))
      || (withSnapshot && BadSince(tips, from, end, preAddress))
    }

    /** What a chunk reads between the two readings of its last hash. */
    method ReadChunk(start: nat, end: nat, withSnapshot: bool, ghost hash: Hash)
      returns (r: Rpc<(seq<AdRow>, seq<AdRow>, Option<Snapshot>)>, ghost t1: nat, ghost t2: nat, ghost third: nat,
        ghost fourth: nat)
      requires Valid() && Height(hash) == end
      modifies this
      ensures Valid() && Passed()
      ensures |old(tips)| - 1 <= t1 <= t2 <= third <= fourth == |tips| - 1
      ensures r.Lost? ==> lost > old(lost) || (withSnapshot && BadSince(tips, |old(tips)| - 1, end, preAddress))
      ensures r.Got? ==>
        && (end <= Height(tips[t1]) ==> r.value.0 == OfKind(RowsOf(At(tips[t1], end), start), false))
        && (end <= Height(tips[t2]) ==> r.value.1 == OfKind(RowsOf(At(tips[t2], end), start), true))
        && (r.value.2.Some? <==> withSnapshot)
        && (withSnapshot ==> r.value.2.value.configBlock == end)
        && (withSnapshot && Throughout(hash, tips, third, fourth) ==> TrueSnapshot(hash, r.value.2.value))
    {
      hide Valid, Regular, NoRevival, InOrder, NoRepeats, RowsOf, OfKind, TrueSnapshot, BadSince, At, On, Throughout;
      SoundChain();
      t1, t2, third, fourth := |tips| - 1, |tips| - 1, |tips| - 1, |tips| - 1;
      ghost var from := |tips| - 1;
      var positions, charges;
      positions, t1 := GetEvents(false, start, end);
      t2, third, fourth := t1, t1, t1;
      if positions.Lost? {
        return Lost, t1, t2, third, fourth;
      }
      charges, t2 := GetEvents(true, start, end);
      third, fourth := t2, t2;
      if charges.Lost? {
        return Lost, t1, t2, third, fourth;
      }
      var snapshot: Option<Snapshot> := None;
      if withSnapshot {
        var read := ContractSnapshot(end, hash);
        fourth := |tips| - 1;
        if read.Lost? {
          BadEarlier(tips, from, third, end, preAddress);
          return Lost, t1, t2, third, fourth;
        }
        snapshot := Some(read.value);
      }
      r := Got((positions.value, charges.value, snapshot));
    }

    /** The sorted logs of a range, and the hash of its last block, all from one branch. */
    method ScanChunk(start: nat, end: nat, withSnapshot: bool, c: Option<Checkpoint>)
      returns (r: Rpc<(seq<AdRow>, Hash, Option<Snapshot>)>)
      requires Valid() && start == FirstBlock(c, deploymentBlock) && deploymentBlock <= start <= end
      requires c.Some? ==> c.value.number == Height(c.value.hash)
      modifies this
      ensures Valid() && Passed()
      ensures r.Lost? ==> Hindered(old(lost), |old(tips)| - 1, c, end, withSnapshot)
      ensures r.Got? ==>
        && Continues(c, r.value.1, deploymentBlock) && Height(r.value.1) == end
        && (exists t :: |old(tips)| - 1 <= t < |tips| && On(r.value.1, tips[t]))
        && r.value.0 == RowsOf(r.value.1, start)
        && (r.value.2.Some? <==> withSnapshot)
        && (withSnapshot ==> TrueSnapshot(r.value.1, r.value.2.value) && r.value.2.value.configBlock == end)
    {
      hide Valid, Regular, NoRevival, InOrder, NoRepeats, RowsOf, OfKind, SortRows, TrueSnapshot, Grew, BadSince, At,
           On, Throughout;
      SoundChain();
      ghost var from := |tips| - 1;
      var ok, before := CanonicalCheckpoint(c);
      if !ok {
        if c.Some? && !CanonicalAt(c.value.hash, tips, before) {
          NotOnSince(c.value.hash, tips, from, before);
        }
        return Lost;
      }
      var indexed, first := BlockHash(end);
      if indexed.Lost? {
        if end > Height(tips[first]) {
          TooHighSince(end, tips, from, first);
        }
        return Lost;
      }
      var read, t1, t2, third, fourth := ReadChunk(start, end, withSnapshot, indexed.value);
      if read.Lost? {
        BadEarlier(tips, from, first, end, preAddress);
        return Lost;
      }
      ghost var sight, last, after := tips, first, first;
      ok, last := CanonicalCheckpoint(Some(Checkpoint(end, indexed.value)));
      if !ok {
        if !CanonicalAt(indexed.value, tips, last) {
          NotOnSince(indexed.value, tips, first, last);
          GrewBefore(tips, tips, from, first);
        }
        return Lost;
      }
      ok, after := CanonicalCheckpoint(c);
      if !ok {
        if c.Some? && !CanonicalAt(c.value.hash, tips, after) {
          NotOnSince(c.value.hash, tips, from, after);
        }
        return Lost;
      }
      SoundChain();
      WholeScan(indexed.value, c, tips, before, first, t1, t2, third, fourth, last, after, start);
      ThroughoutBefore(indexed.value, sight, tips, third, fourth);
      r := Got((SortRows(read.value.0 + read.value.1), indexed.value, read.value.2));
    }

    /** One chunk: scanned, then committed. */
    method IndexChunk(start: nat, end: nat, safeHead: nat, c: Option<Checkpoint>)
      returns (applied: Rpc<nat>, hash: Hash)
      requires Valid() && start == FirstBlock(c, deploymentBlock) && deploymentBlock <= start <= end
      requires c.Some? ==> c.value.number == Height(c.value.hash)
      modifies this
      ensures Valid() && old(tips) <= tips && old(lost) <= lost && old(others) <= others
      ensures applied.Lost? ==>
        || Hindered(old(lost), |old(tips)| - 1, c, end, end == safeHead)
        || Mark(old(state)) != c || others > old(others)
        || PoisonedSince(tips, |old(tips)| - 1, deploymentBlock)
      ensures applied.Got? ==>
        && Mark(state) == Some(Checkpoint(end, hash)) && Height(hash) == end
        && Continues(c, hash, deploymentBlock)
        && (exists t :: |old(tips)| - 1 <= t < |tips| && On(hash, tips[t]))
        && applied.value == PositionCount(RowsOf(hash, start))
        && (end == safeHead ==> HasSettingsOf(safeHead))
    {
      hide Valid, Hindered, RowsOf, Regular, NoRevival, HasNegative, PositionCount, TrueSnapshot;
      SoundChain();
      var r := ScanChunk(start, end, end == safeHead, c);
      SoundChain();
      if r.Lost? {
        return Lost, tips[0];
      }
      hash := r.value.1;
      if HasNegative(r.value.0) {
        PoisonFound(hash, c, tips, |old(tips)| - 1, deploymentBlock);
      }
      var count := CommitChunk(r.value.0, c, end, hash, r.value.2);
      return if count.None? then Lost else Got(count.value), hash;
    }

    /** Nothing to scan: only the settings are refreshed, if the checkpoint is still the same. */
    method RefreshSettings(c: Checkpoint, ghost first: nat) returns (ok: bool)
      requires Valid() && c.number == Height(c.hash) && deploymentBlock <= c.number && CanonicalAt(c.hash, tips, first)
      modifies this
      ensures Valid() && old(tips) <= tips && old(lost) <= lost && old(others) <= others
      ensures !ok ==>
        || Hindered(old(lost), |old(tips)| - 1, Some(c), c.number, true)
        || Mark(old(state)) != Some(c) || others > old(others)
      ensures ok ==>
        && HasSettingsOf(c.number) && Mark(state) == Some(c)
        && exists t :: |old(tips)| - 1 <= t < |tips| && On(c.hash, tips[t])
    {
      hide Regular, RowsOf, InOrder, Replay, Grew, BadSince;
      ghost var third := |tips| - 1;
      var snapshot := ContractSnapshot(c.number, c.hash);
      ghost var fourth := |tips| - 1;
      if snapshot.Lost? {
        return false;
      }
      var canonical, last := BlockHash(c.number);
      if canonical.Lost? || canonical.value != c.hash {
        if canonical.Lost? && c.number > Height(tips[last]) {
          TooHighSince(c.number, tips, third, last);
        } else if canonical.Got? && On(c.hash, tips[third]) {
          Replaced(c.hash, canonical.value, tips, third, third, last);
        }
        return false;
      }
      forall t | third <= t <= fourth ensures CanonicalAt(c.hash, tips, t) {
        CanonicalBetween(c.hash, tips, first, t, last);
      }
      if !UnchangedCheckpoint(Some(c)) {
        return false;
      }
      AdvanceAdsIndexerState(c.number, c.hash, Some(snapshot.value));
      return true;
    }

    /** What a failed scan or refresh says about the whole run that began at time `base`. */
    lemma Blame(base: nat, read: nat, lostBefore: nat, mid: nat, c: Option<Checkpoint>, end: nat, head: nat)
      requires base <= read <= mid < |tips| && end <= head <= Height(tips[read])
      requires c.Some? && Grew(tips[..mid + 1], base) ==> On(c.value.hash, tips[mid])
      requires Hindered(lostBefore, mid, c, end, end == head)
      ensures lost > lostBefore || !Grew(tips, base) || BadSince(tips, base, head, preAddress)
    {
      hide On, At;
      if Grew(tips, base) {
        GrewBefore(tips, tips, base, mid);
        GrewBefore(tips[..mid + 1], tips, base, base);
        GrowthKeeps(tips, base, read, mid, end);
        BadEarlier(tips, base, mid, head, preAddress);
      }
    }

    /**
     One run of the indexer. It may be stopped anywhere; when it reports that it is synced, the
     tables are the replay of a branch that was canonical during this run, through the
     finalized block, with the settings of that block, and `processed` counts the position events
     of the blocks from `from` on. It reports that it is syncing only when the finalized block
     lies before the contract's first or before the checkpoint that it read. It throws only when
     an answer was missing, another process wrote, the chain dropped a block, the checkpoint lies
     beyond the chain, the contract is not the expected one, or a log is refused.
     */
    method Index() returns (r: IndexResult, ghost safeHead: nat, ghost from: nat, ghost read: nat)
      requires Valid()
      modifies this
      ensures Valid() && old(tips) <= tips
      ensures r.Done? && r.status.Synced? ==>
        && HasSettingsOf(safeHead) && state.value.number == safeHead
        && (exists t :: |old(tips)| - 1 <= t < |tips| && On(state.value.hash, tips[t]))
        && deploymentBlock <= from && r.processed == PositionCount(RowsOf(state.value.hash, from))
      ensures r.Done? && r.status.Syncing? ==>
        r.processed == 0 && (safeHead < deploymentBlock || from > safeHead + 1)
      ensures r.Done? ==>
        |old(tips)| - 1 <= read < |tips| && FinalizedAdsBlock(Height(tips[read]), confirmations) == Some(safeHead)
      ensures r.Threw? ==>
        || confirmations < 1 || lost > old(lost) || others > old(others) || !Grew(tips, |old(tips)| - 1)
        || (old(state).Some? && old(state).value.number > Height(old(tips)[|old(tips)| - 1]))
        || BadSince(tips, |old(tips)| - 1, safeHead, preAddress)
        || PoisonedSince(tips, |old(tips)| - 1, deploymentBlock)
    {
      hide Valid, RowsOf, PositionCount, FinalizedAdsBlock, Grew, Hindered, BadSince, PoisonedSince, On;
      SoundChain();
      safeHead, from := 0, deploymentBlock;
      ghost var base := |tips| - 1;
      OthersRun();
      SoundChain();
      read := |tips| - 1;
      var final := FinalizedAdsBlock(Height(tips[|tips| - 1]), confirmations);
      if final.None? {
        NoneFinal(Height(tips[read]), confirmations);
        return Threw, safeHead, from, read;
      }
      var head := final.value;
      FinalIsBehind(Height(tips[read]), confirmations);
      safeHead := head;
      if head < deploymentBlock {
        return Done(0, Syncing), safeHead, from, read;
      }
      var ok, c, at := ReadCheckpoint();
      if !ok {
        if old(state).Some? && old(state).value.number > Height(tips[at]) {
          TooHighSince(old(state).value.number, tips, base, at);
        }
        return Threw, safeHead, from, read;
      }
      from := FirstBlock(c, deploymentBlock);
      if c.Some? && c.value.number > head {
        return Done(0, Syncing), safeHead, from, read;
      }
      if c.Some? && c.value.number == head {
        ghost var lostBefore, seen := lost, tips;
        ok := RefreshSettings(c.value, at);
        NoneLeft(c.value.hash);
        if !ok {
          assert tips[..at + 1] == seen;
          if Hindered(lostBefore, at, c, head, true) {
            Blame(base, read, lostBefore, at, c, head, head);
          }
        }
        return if ok then Done(0, Synced) else Threw, safeHead, from, read;
      }
      var processed := IndexChunks(head, c, base, read);
      return if processed.None? then Threw else Done(processed.value, Synced), safeHead, from, read;
    }

    /** The chunks from behind the checkpoint through the finalized block. */
    method IndexChunks(head: nat, checkpoint: Option<Checkpoint>, ghost base: nat, ghost read: nat)
      returns (processed: Option<nat>)
      requires Valid() && base <= read < |tips| && head <= Height(tips[read])
      requires deploymentBlock <= FirstBlock(checkpoint, deploymentBlock) <= head
      requires checkpoint.Some? ==>
        checkpoint.value.number == Height(checkpoint.value.hash) && CanonicalAt(checkpoint.value.hash, tips, |tips| - 1)
      modifies this
      ensures Valid() && old(tips) <= tips && old(lost) <= lost && old(others) <= others
      ensures processed.Some? ==>
        && HasSettingsOf(head) && state.value.number == head
        && (exists t :: |old(tips)| - 1 <= t < |tips| && On(state.value.hash, tips[t]))
        && processed.value == PositionCount(RowsOf(state.value.hash, FirstBlock(checkpoint, deploymentBlock)))
      ensures processed.None? ==>
        || lost > old(lost) || others > old(others) || Mark(old(state)) != checkpoint || !Grew(tips, base)
        || BadSince(tips, base, head, preAddress) || PoisonedSince(tips, base, deploymentBlock)
    {
      hide Valid, RowsOf, PositionCount, Grew, Hindered, BadSince, PoisonedSince, On, Continues;
      SoundChain();
      var c, start, count := checkpoint, FirstBlock(checkpoint, deploymentBlock), 0;
      ghost var from := start;
      while start <= head
        invariant Valid() && old(tips) <= tips && old(lost) <= lost && old(others) <= others
        invariant deploymentBlock <= from <= start <= head + 1 && start == FirstBlock(c, deploymentBlock)
        invariant c.Some? ==> c.value.number == Height(c.value.hash)
        invariant start == from ==> c == checkpoint && count == 0 && tips == old(tips) && state == old(state)
        invariant c.Some? && Grew(tips, base) ==> On(c.value.hash, tips[|tips| - 1])
        invariant start > from ==>
          && c.Some? && Mark(state) == c
          && (exists t :: |old(tips)| - 1 <= t < |tips| && On(c.value.hash, tips[t]))
          && (start == head + 1 ==> HasSettingsOf(head))
          && count == PositionCount(RowsOf(c.value.hash, from))
        decreases head + 1 - start
      {
        var end := if start + LOG_BLOCK_RANGE - 1 > head then head else start + LOG_BLOCK_RANGE - 1;
        ghost var mid, lostBefore, seen := |tips| - 1, lost, tips;
        var applied, hash := IndexChunk(start, end, head, c);
        if applied.Lost? {
          if Hindered(lostBefore, mid, c, end, end == head) {
            assert tips[..mid + 1] == seen;
            Blame(base, read, lostBefore, mid, c, end, head);
          }
          PoisonEarlier(tips, base, mid, deploymentBlock);
          return None;
        }
        ChunkAdds(c, hash, from, deploymentBlock);
        OnLastTip(hash, tips, base, mid);
        count := count + applied.value;
        c := Some(Checkpoint(end, hash));
        start := end + 1;
      }
      return Some(count);
    }

    /** The checkpoint as it is, or as it is after an orphaned one was cleared. */
    method ReadCheckpoint() returns (ok: bool, c: Option<Checkpoint>, ghost at: nat)
      requires Valid()
      modifies this
      ensures Valid() && old(tips) <= tips && old(lost) <= lost && old(others) <= others && at == |tips| - 1
      ensures !ok ==>
        || lost > old(lost) || others > old(others)
        || (old(state).Some? && old(state).value.number > Height(tips[at]))
      ensures ok && c.Some? ==>
        && c.value.number == Height(c.value.hash) && deploymentBlock <= c.value.number
        && CanonicalAt(c.value.hash, tips, at)
      ensures ok && (c.None? || others == old(others)) ==> Mark(state) == c
    {
      OthersRun();
      c, ok, at := Mark(state), true, |tips| - 1;
      if c.Some? {
        ok, c, at := Confirm(c.value);
      }
    }

    /** The saved checkpoint if it is canonical; otherwise everything is cleared. */
    method Confirm(c: Checkpoint) returns (ok: bool, kept: Option<Checkpoint>, ghost at: nat)
      requires Valid() && Mark(state) == Some(c)
      modifies this
      ensures Valid() && old(tips) <= tips && old(lost) <= lost && old(others) <= others && at == |tips| - 1
      ensures !ok ==> lost > old(lost) || c.number > Height(tips[at])
      ensures ok ==> kept == if CanonicalAt(c.hash, tips, at) then Some(c) else None
      ensures ok && (kept.None? || others == old(others)) ==> Mark(state) == kept
    {
      hide Regular, NoRevival;
      var hash;
      hash, at := BlockHash(c.number);
      if hash.Lost? {
        return false, None, at;
      }
      if CanonicalAt(c.hash, tips, at) {
        SameHeight(hash.value, c.hash, tips[at]);
      }
      if hash.value != c.hash {
        ResetAdsProjectionAfterReorg();
        return true, None, at;
      }
      return true, Some(c), at;
    }
  }

  lemma NoneFinal(head: nat, confirmations: int)
    requires FinalizedAdsBlock(head, confirmations).None?
    ensures confirmations < 1
  {
  }

  lemma FinalIsBehind(head: nat, confirmations: int)
    ensures FinalizedAdsBlock(head, confirmations).Some? ==> FinalizedAdsBlock(head, confirmations).value <= head
  {
  }

  lemma PoisonEarlier(tips: seq<Hash>, from: nat, later: nat, deployment: nat)
    requires from <= later
    ensures PoisonedSince(tips, later, deployment) ==> PoisonedSince(tips, from, deployment)
  {
  }

  lemma OnLastTip(hash: Hash, tips: seq<Hash>, base: nat, mid: nat)
    requires base <= mid < |tips| && exists t :: mid <= t < |tips| && On(hash, tips[t])
    ensures Grew(tips, base) ==> On(hash, tips[|tips| - 1])
  {
    if Grew(tips, base) {
      var t :| mid <= t < |tips| && On(hash, tips[t]);
      StaysOn(hash, tips, base, t, |tips| - 1);
    }
  }

  lemma PoisonFound(hash: Hash, c: Option<Checkpoint>, tips: seq<Hash>, from: nat, deployment: nat)
    requires Continues(c, hash, deployment) && HasNegative(RowsOf(hash, FirstBlock(c, deployment)))
    requires exists t :: from <= t < |tips| && On(hash, tips[t])
    ensures PoisonedSince(tips, from, deployment)
  {
    hide RowsOf;
    if c.Some? {
      RowsSplit(c.value.hash, hash, deployment);
      var n := |RowsOf(c.value.hash, deployment)|;
      var k :| 0 <= k < |RowsOf(hash, c.value.number + 1)| && RowsOf(hash, c.value.number + 1)[k].body.PositionChanged?
        && Negative(RowsOf(hash, c.value.number + 1)[k].body);
      assert RowsOf(hash, deployment)[n + k] == RowsOf(hash, c.value.number + 1)[k];
    }
  }

  lemma NoneLeft(b: Hash)
    ensures PositionCount(RowsOf(b, Height(b) + 1)) == 0
  {
  }

  /** Counts of consecutive chunks add up to the count of the whole range. */
  lemma ChunkAdds(c: Option<Checkpoint>, hash: Hash, from: nat, deployment: nat)
    requires Continues(c, hash, deployment) && from <= FirstBlock(c, deployment)
    ensures c.Some? ==>
      PositionCount(RowsOf(hash, from))
        == PositionCount(RowsOf(c.value.hash, from)) + PositionCount(RowsOf(hash, FirstBlock(c, deployment)))
  {
    hide PositionCount, RowsOf;
    if c.Some? {
      RowsSplit(c.value.hash, hash, from);
      PositionCountSplit(RowsOf(c.value.hash, from), RowsOf(hash, FirstBlock(c, deployment)));
    }
  }

  ghost predicate Throughout(b: Hash, tips: seq<Hash>, first: nat, last: nat) {
    forall t :: first <= t <= last ==> CanonicalAt(b, tips, t)
  }

  lemma ThroughoutBefore(b: Hash, tips: seq<Hash>, more: seq<Hash>, first: nat, last: nat)
    requires tips <= more && last < |tips| && Throughout(b, more, first, last)
    ensures Throughout(b, tips, first, last)
  {
    hide On;
    forall t | first <= t <= last ensures CanonicalAt(b, tips, t) {
      assert CanonicalAt(b, more, t) && tips[t] == more[t];
    }
  }

  /** Whatever was read between two equal readings of the last hash came from its branch. */
  lemma WholeScan(hash: Hash, c: Option<Checkpoint>, tips: seq<Hash>, before: nat, first: nat, t1: nat, t2: nat,
                  third: nat, fourth: nat, last: nat, after: nat, start: nat)
    requires NoRevival(tips) && forall t :: 0 <= t < |tips| ==> Regular(tips[t])
    requires before <= first <= t1 <= t2 <= third <= fourth <= last <= after
    requires CanonicalAt(hash, tips, first) && CanonicalAt(hash, tips, last) && start <= Height(hash)
    requires c.Some? ==> CanonicalAt(c.value.hash, tips, before) && CanonicalAt(c.value.hash, tips, after)
                         && Height(c.value.hash) < start
    ensures Height(hash) <= Height(tips[t1]) && At(tips[t1], Height(hash)) == hash
    ensures Height(hash) <= Height(tips[t2]) && At(tips[t2], Height(hash)) == hash
    ensures SortRows(OfKind(RowsOf(hash, start), false) + OfKind(RowsOf(hash, start), true)) == RowsOf(hash, start)
    ensures Throughout(hash, tips, third, fourth)
    ensures c.Some? ==> On(c.value.hash, hash)
  {
    forall t | first <= t <= last ensures CanonicalAt(hash, tips, t) {
      CanonicalBetween(hash, tips, first, t, last);
    }
    BranchAt(hash, tips[t1]);
    BranchAt(hash, tips[t2]);
    RegularBehind(hash, tips[t1], start);
    SortRestoresOrder(RowsOf(hash, start));
    SameBranch(hash, if c.Some? then Some(c.value.hash) else None, tips, before, first, t1, last, after);
  }

  /** The first block that is not behind the checkpoint. */
  function FirstBlock(c: Option<Checkpoint>, deployment: nat): nat {
    if c.Some? then c.value.number + 1 else deployment
  }

  predicate Continues(c: Option<Checkpoint>, hash: Hash, deployment: nat) {
    && FirstBlock(c, deployment) <= Height(hash) && deployment <= FirstBlock(c, deployment)
    && (c.Some? ==> c.value.number == Height(c.value.hash) && On(c.value.hash, hash))
  }

  /** The event table already holds a log of this transaction and index. */
  predicate Claimed(rows: seq<AdRow>, row: AdRow) {
    exists i :: 0 <= i < |rows| && SameEvent(rows[i], row)
  }

  lemma BranchGrows(events: seq<AdRow>, state: Option<IndexerState>, hash: Hash, deployment: nat, tips: seq<Hash>)
    requires Faithful(events, Replay(events), state, deployment, tips) && Continues(Mark(state), hash, deployment)
    requires WasCanonical(hash, tips) && forall t :: 0 <= t < |tips| ==> Regular(tips[t])
    ensures var logs := RowsOf(hash, FirstBlock(Mark(state), deployment));
      RowsOf(hash, deployment) == events + logs && InOrder(events + logs) && NoRepeats(events + logs)
  {
    hide InOrder, NoRepeats, Replay, RowsOf, TrueSnapshot;
    var t :| 0 <= t < |tips| && On(hash, tips[t]);
    RegularBehind(hash, tips[t], deployment);
    if state.Some? {
      RowsSplit(state.value.hash, hash, deployment);
    } else {
      assert [] + RowsOf(hash, deployment) == RowsOf(hash, deployment);
    }
  }

  /** The next log is new to the event table and newer than what its stake has. */
  lemma Unclaimed(events: seq<AdRow>, logs: seq<AdRow>, n: nat)
    requires n < |logs| && InOrder(events + logs) && NoRepeats(events + logs)
    ensures !Claimed(events + logs[..n], logs[n])
    ensures logs[n].body.PositionChanged? ==>
      var current := Stored(Replay(events + logs[..n]), logs[n].body.key);
      current.None? || EventAfter(logs[n].at, current.value.at)
  {
    var before, all := events + logs[..n], events + logs;
    assert all[|before|] == logs[n] && all[..|before|] == before;
    forall i | 0 <= i < |before| ensures !SameEvent(before[i], logs[n]) {
      assert all[i] == before[i];
    }
    if logs[n].body.PositionChanged? {
      assert before + [logs[n]] == all[..|before| + 1];
      NothingIsStale(before, logs[n]);
    }
  }

  lemma NothingReplayed()
    ensures Replay([]) == map[] && PositionCount([]) == 0
  {
  }

  lemma SnapshotGrows(state: Option<IndexerState>, hash: Hash)
    requires state.Some? ==> On(state.value.hash, hash)
    ensures state.Some? && state.value.snapshot.Some? && TrueSnapshot(state.value.hash, state.value.snapshot.value) ==>
      TrueSnapshot(hash, state.value.snapshot.value)
  {
    if state.Some? && state.value.snapshot.Some? && TrueSnapshot(state.value.hash, state.value.snapshot.value) {
      AtOfPart(state.value.hash, hash, state.value.snapshot.value.configBlock);
    }
  }

  /**
   Two equal readings of the last hash are not enough if a dropped block could come back: the
   logs read in between can belong to another branch.
   */
  lemma RevivalWouldMixBranches(config: Config)
    ensures exists tips: seq<Hash>, hash: Hash ::
      && |tips| == 3 && Regular(tips[0]) && Regular(tips[1]) && Regular(tips[2])
      && CanonicalAt(hash, tips, 0) && CanonicalAt(hash, tips, 2) && Height(hash) <= Height(tips[1])
      && RowsOf(At(tips[1], Height(hash)), 0) != RowsOf(hash, 0)
  {
    var genesis := Genesis(LogBlock([], config));
    var hash := Child(genesis, LogBlock([RawLog(1, 0, StakeCharged(1, StakeKey(1, 1), 1, 1, 0))], config));
    var other := Child(genesis, LogBlock([], config));
    assert BlockRows(genesis) == [] && RowsOf(genesis, 0) == [];
    assert RowsOf(hash, 0) == BlockRows(hash) && RowsOf(other, 0) == [];
    var tips := [hash, other, hash];
    assert CanonicalAt(hash, tips, 0) && CanonicalAt(hash, tips, 2) && At(tips[1], Height(hash)) == other;
    assert Regular(tips[0]) && Regular(tips[1]) && Regular(tips[2]);
  }
}
