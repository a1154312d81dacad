/** Pricing the clicks that wait for a price: pages of 500 by id while the pages shrink behind the cursor. */
module Pricing {
  import opened Prelude
  import opened ChargeTypes
  import opened ChargeSteps
  import opened ChargeLedger

  const PAGE: nat := 500

  /** Click ids are UUIDs. */
  const IDS: nat := 0x1_0000_0000_0000_0000_0000_0000_0000_0000

  const BID_SCALE: nat := 1_000_000_000_000_000_000_000_000_000_000

  datatype PriceSnapshot = PriceSnapshot(
    configBlock: Option<nat>, lastBlock: nat, lastHash: Hash, updatedAt: int, price: Option<nat>, quotedAt: Option<nat>)

  /** Fresh, read at the block it is stored with, and positive. */
  predicate Usable(s: Option<PriceSnapshot>, now: int) {
    && s.Some?
    && s.value.configBlock == Some(s.value.lastBlock)
    && 0 <= now - s.value.updatedAt <= 60_000
    && s.value.price.Some? && s.value.price.value > 0
    && s.value.quotedAt.Some? && s.value.quotedAt.value > 0
  }

  /** The debt of a click in token units; None when the bid or the price is refused. */
  function BillPreRaw(bid: nat, price: nat): Option<nat> {
    if bid == 0 || price == 0 then None else Some(bid * BID_SCALE / price)
  }

  /** Rounding down never charges more than the bid, and less than one unit below it. */
  lemma BillIsFloor(bid: nat, price: nat)
    requires bid > 0 && price > 0
    ensures var a := BillPreRaw(bid, price).value;
      a * price <= bid * BID_SCALE < (a + 1) * price && (a == 0 <==> bid * BID_SCALE < price)
  {
    var x := bid * BID_SCALE;
    assert x == (x / price) * price + x % price;
  }

  predicate Matching(c: Click) {
    c.status.PricePending? && c.amount.None?
  }

  function Priced(c: Click, s: PriceSnapshot, amount: nat): Click {
    c.(status := if amount == 0 then ClickStatus.Settled else ClickStatus.Pending, amount := Some(amount),
       priceNumber := Some(s.lastBlock), priceHash := Some(s.lastHash), error := None)
  }

  /** A capture that never finished is given up after five minutes. */
  function Interrupted(c: Click, now: int): Click {
    if c.status.Capturing? && c.clickedAt < now - 300_000 then c.(status := Unbilled, error := Some(CaptureInterrupted))
      else c
  }

  /** A matching click whose bid makes the pricing throw. */
  predicate Poison(c: Click) {
    Matching(c) && c.bid == Some(0)
  }

  /** Nothing with an id up to and including this one throws. */
  predicate Reached(clicks: map<ClickId, Click>, id: ClickId) {
    forall z :: z in clicks && z <= id ==> !Poison(clicks[z])
  }

  /** The unpaginated map, cut off at the first click that throws. */
  function Result(clicks: map<ClickId, Click>, id: ClickId, s: Option<PriceSnapshot>, now: int): Click
    requires id in clicks
  {
    var c := Interrupted(clicks[id], now);
    if Usable(s, now) && Matching(c) && c.bid.Some? && Reached(clicks, id)
    then Priced(c, s.value, c.bid.value * BID_SCALE / s.value.price.value)
    else c
  }

  /** Bids are written positive. */
  predicate PositiveBids(clicks: map<ClickId, Click>) {
    forall id :: id in clicks ==> clicks[id].bid != Some(0)
  }

  /** One pass over the table, row by row. */
  function Unpaged(c: Click, s: Option<PriceSnapshot>, now: int): Click {
    var d := Interrupted(c, now);
    if Usable(s, now) && Matching(d) && d.bid.Some? && d.bid.value > 0
    then Priced(d, s.value, d.bid.value * BID_SCALE / s.value.price.value)
    else d
  }

  /**
   The click with its price: the amount that the bid covers, PENDING or, if that is nothing, SETTLED,
   and the block of the price as its proof.
   */
  predicate PricedFrom(c: Click, d: Click, s: PriceSnapshot) {
    && c.bid.Some? && s.price.Some? && d.amount.Some?
    && d.amount.value * s.price.value <= c.bid.value * BID_SCALE < (d.amount.value + 1) * s.price.value
    && (if d.amount.value > 0 then d.status.Pending? else d.status == ClickStatus.Settled)
    && d.priceNumber == Some(s.lastBlock) && d.priceHash == Some(s.lastHash) && d.error.None?
    && d.key == c.key && d.clickedAt == c.clickedAt && d.bid == c.bid
    && d.bidNumber == c.bidNumber && d.bidHash == c.bidHash && d.batch == c.batch
  }

  predicate Waits(c: Click) { c.status.PricePending? && c.amount.None? && c.bid.Some? && c.bid.value > 0 }

  predicate Stalled(c: Click, now: int) { c.status.Capturing? && c.clickedAt < now - 300_000 }

  /** What becomes of a click: priced, given up as never captured, or left alone. */
  predicate Outcome(c: Click, d: Click, s: Option<PriceSnapshot>, now: int) {
    if Stalled(c, now) then
      && d.status.Unbilled? && d.error == Some(CaptureInterrupted)
      && d == c.(status := d.status, error := d.error)
    else if Waits(c) && Usable(s, now) then PricedFrom(c, d, s.value)
    else d == c
  }

  lemma UnpagedOutcome(c: Click, s: Option<PriceSnapshot>, now: int)
    ensures Outcome(c, Unpaged(c, s, now), s, now)
  {
    if Waits(c) && Usable(s, now) {
      BillIsFloor(c.bid.value, s.value.price.value);
    }
  }

  /** As bids are positive, each waiting click with a bid gets its amount. */
  lemma PositiveBidsArePriced(clicks: map<ClickId, Click>, s: Option<PriceSnapshot>, now: int, id: ClickId)
    requires Usable(s, now) && PositiveBids(clicks) && id in clicks && Matching(clicks[id]) && clicks[id].bid.Some?
    ensures Result(clicks, id, s, now) == Unpaged(clicks[id], s, now)
    ensures Unpaged(clicks[id], s, now).amount == BillPreRaw(clicks[id].bid.value, s.value.price.value)
    ensures Unpaged(clicks[id], s, now).amount.Some?
  {
  }

  /** Should a zero bid ever be stored: every waiting click with a bid is priced if and only if there is none. */
  lemma AllPricedIffNoZeroBid(clicks: map<ClickId, Click>, s: Option<PriceSnapshot>, now: int)
    requires Usable(s, now)
    ensures (forall id :: id in clicks && Matching(clicks[id]) && clicks[id].bid.Some? ==>
      Result(clicks, id, s, now).amount.Some?)
      <==> (forall id :: id in clicks ==> !Poison(clicks[id]))
  {
    forall id | id in clicks && Poison(clicks[id]) ensures Result(clicks, id, s, now).amount.None? {
      assert !Reached(clicks, id);
    }
  }

  /** Pricing never touches an amount that is already there, nor a click that has a batch. */
  lemma PricedAmountsStay(clicks: map<ClickId, Click>, id: ClickId, s: Option<PriceSnapshot>, now: int)
    requires id in clicks && clicks[id].amount.Some?
    ensures Result(clicks, id, s, now).amount == clicks[id].amount
    ensures !clicks[id].status.Capturing? ==> Result(clicks, id, s, now) == clicks[id]
  {
  }

  /** In the charge protocol, pricing one click is one of the writes that other jobs may make. */
  lemma PricingIsAClickWrite(s: System, id: ClickId, snapshot: PriceSnapshot, amount: nat, tips: seq<Hash>)
    requires LedgerInv(s) && id in s.clicks && Matching(s.clicks[id])
    ensures Enabled(s, WriteClick(id, Priced(s.clicks[id], snapshot, amount)), tips)
  {
    assert ClickOk(s, id);
  }

  // ---- pages ----------------------------------------------------------------------------------

  /** The id lies behind the cursor, where nothing is dealt with yet. */
  predicate Behind(upTo: Option<ClickId>, id: ClickId) {
    upTo.Some? ==> id > upTo.value
  }

  /** A row of a page as it was read. */
  datatype PageRow = PageRow(id: ClickId, bid: Option<nat>)

  predicate InOrder(rows: seq<PageRow>) {
    forall i, j :: 0 <= i < j < |rows| ==> rows[i].id < rows[j].id
  }

  predicate Lists(rows: seq<PageRow>, id: ClickId) {
    exists i :: 0 <= i < |rows| && rows[i].id == id
  }

  predicate Wanted(clicks: map<ClickId, Click>, after: Option<ClickId>, id: ClickId) {
    id in clicks && Matching(clicks[id]) && Behind(after, id)
  }

  predicate IsRow(clicks: map<ClickId, Click>, after: Option<ClickId>, row: PageRow) {
    Wanted(clicks, after, row.id) && row.bid == clicks[row.id].bid
  }

  lemma ListedToo(rows: seq<PageRow>, row: PageRow)
    requires InOrder(rows) && (|rows| > 0 ==> rows[|rows| - 1].id < row.id)
    ensures InOrder(rows + [row]) && forall id :: Lists(rows + [row], id) <==> Lists(rows, id) || id == row.id
  {
    var more := rows + [row];
    assert more[|rows|] == row && forall i :: 0 <= i < |rows| ==> more[i] == rows[i];
    forall id | Lists(rows, id) ensures Lists(more, id) {
      var i :| 0 <= i < |rows| && rows[i].id == id;
      assert more[i].id == id;
    }
  }

  /** Rows that others did not touch: dealt with up to the cursor, and as before behind it. */
  ghost predicate DoneUpTo(before: map<ClickId, Click>, clicks: map<ClickId, Click>, touched: set<ClickId>,
                           s: PriceSnapshot, upTo: Option<ClickId>)
    requires s.price.Some? && s.price.value > 0
  {
    && (forall id :: id !in touched ==> (id in clicks <==> id in before))
    && (forall id :: id in before && id !in touched && Behind(upTo, id) ==> clicks[id] == before[id])
    && (forall id :: id in before && id !in touched && !Behind(upTo, id) ==>
          && !Poison(before[id])
          && clicks[id] == if Matching(before[id]) && before[id].bid.Some?
                           then Priced(before[id], s, before[id].bid.value * BID_SCALE / s.price.value) else before[id])
  }

  /** No untouched click that waits for a price lies between the cursor and `z`. */
  predicate NextIs(before: map<ClickId, Click>, touched: set<ClickId>, upTo: Option<ClickId>, z: ClickId) {
    Behind(upTo, z)
    && forall id :: id in before && id !in touched && Matching(before[id]) && Behind(upTo, id) ==> id >= z
  }

  /** The row next in turn has the bid that is refused. */
  predicate Stuck(before: map<ClickId, Click>, touched: set<ClickId>, upTo: Option<ClickId>, row: PageRow) {
    && row.bid == Some(0) && NextIs(before, touched, upTo, row.id)
    && (row.id !in touched ==> row.id in before && Poison(before[row.id]))
  }

  /** The page in terms of the table at the start: ids in order, and no untouched one left out before the last. */
  ghost predicate IsPage(before: map<ClickId, Click>, touched: set<ClickId>, after: Option<ClickId>,
                         rows: seq<PageRow>) {
    && InOrder(rows)
    && (forall i :: 0 <= i < |rows| ==> Behind(after, rows[i].id))
    && (forall i :: 0 <= i < |rows| && rows[i].id !in touched ==>
          rows[i].id in before && Matching(before[rows[i].id]) && rows[i].bid == before[rows[i].id].bid)
    && (forall id :: id in before && id !in touched && Matching(before[id]) && Behind(after, id) && !Lists(rows, id) ==>
          |rows| > 0 && id > rows[|rows| - 1].id)
  }

  lemma MoreTouched(before: map<ClickId, Click>, touched: set<ClickId>, more: set<ClickId>, after: Option<ClickId>,
                    rows: seq<PageRow>)
    requires IsPage(before, touched, after, rows) && touched <= more
    ensures IsPage(before, more, after, rows)
  {
  }

  lemma NextInPage(before: map<ClickId, Click>, touched: set<ClickId>, after: Option<ClickId>, rows: seq<PageRow>,
                   n: nat)
    requires IsPage(before, touched, after, rows) && n < |rows|
    ensures NextIs(before, touched, if n > 0 then Some(rows[n - 1].id) else after, rows[n].id)
  {
    var upTo := if n > 0 then Some(rows[n - 1].id) else after;
    forall id | id in before && id !in touched && Matching(before[id]) && Behind(upTo, id) ensures id >= rows[n].id {
      if k :| 0 <= k < |rows| && rows[k].id == id {
        assert k >= n;
      }
    }
  }

  lemma LastPage(before: map<ClickId, Click>, touched: set<ClickId>, after: Option<ClickId>, rows: seq<PageRow>)
    requires IsPage(before, touched, after, rows)
    requires ListsAll(before, touched, after, rows)
    ensures forall id :: id in before && id !in touched && Behind(EndOf(rows, after), id) ==> !Matching(before[id])
  {
  }

  function EndOf(rows: seq<PageRow>, after: Option<ClickId>): Option<ClickId> {
    if |rows| > 0 then Some(rows[|rows| - 1].id) else after
  }

  /** The guarded update of one row. */
  function AfterOne(clicks: map<ClickId, Click>, row: PageRow, s: PriceSnapshot): map<ClickId, Click>
    requires s.price.Some? && s.price.value > 0
  {
    if row.bid.Some? && row.id in clicks && Matching(clicks[row.id])
    then clicks[row.id := Priced(clicks[row.id], s, row.bid.value * BID_SCALE / s.price.value)] else clicks
  }

  /** One click further. */
  lemma PriceOne(before: map<ClickId, Click>, clicks: map<ClickId, Click>, touched: set<ClickId>, s: PriceSnapshot,
                 upTo: Option<ClickId>, row: PageRow)
    requires s.price.Some? && s.price.value > 0 && DoneUpTo(before, clicks, touched, s, upTo) &&
      NextIs(before, touched, upTo, row.id)
    requires row.id !in touched ==> row.id in before && Matching(before[row.id]) && row.bid == before[row.id].bid
    requires row.bid != Some(0)
    ensures DoneUpTo(before, AfterOne(clicks, row, s), touched, s, Some(row.id))
  {
    forall d | d in before && d !in touched && !Behind(Some(row.id), d) && d != row.id && Behind(upTo, d)
      ensures !Matching(before[d]) {
      assert NextIs(before, touched, upTo, row.id);
    }
  }

  /** Amounts that were there are there. */
  predicate AmountsKept(before: map<ClickId, Click>, after: map<ClickId, Click>) {
    forall id :: id in before && before[id].amount.Some? ==> id in after && after[id].amount == before[id].amount
  }

  class ClickTable {
    var clicks: map<ClickId, Click>
    /** The rows that others wrote during the pricing. */
    ghost var touched: set<ClickId>

    predicate Valid()
      reads this
    {
      forall id :: id in clicks ==> id < IDS
    }

    constructor (clicks: map<ClickId, Click>)
      requires forall id :: id in clicks ==> id < IDS
      ensures Valid() && this.clicks == clicks && touched == {}
    {
      this.clicks := clicks;
      touched := {};
    }

    /** Clicks are captured and changed by others; an amount once stored stays, and bids are positive. */
    method OthersRun()
      requires Valid()
      modifies this
      ensures Valid() && old(touched) <= touched && AmountsKept(old(clicks), clicks)
      ensures forall id :: id !in touched ==> (id in clicks <==> id in old(clicks))
      ensures forall id :: id !in touched && id in clicks ==> clicks[id] == old(clicks)[id]
      ensures PositiveBids(old(clicks)) ==> PositiveBids(clicks)
    {
    }

    /** One page: the first rows behind the cursor, in order. */
    method FindPage(after: Option<ClickId>) returns (rows: seq<PageRow>)
      ensures InOrder(rows) && forall row :: row in rows ==> IsRow(clicks, after, row)
      ensures |rows| <= PAGE
      ensures forall id: ClickId :: Wanted(clicks, after, id) && !Lists(rows, id) ==>
        |rows| == PAGE && id > rows[|rows| - 1].id
    {
      hide Matching, Behind;
      rows := [];
      var rest := set id | id in clicks && Wanted(clicks, after, id);
      while rest != {} && |rows| < PAGE
        invariant |rows| <= PAGE && InOrder(rows) && forall row :: row in rows ==> IsRow(clicks, after, row)
        invariant forall id :: id in rest ==> Wanted(clicks, after, id)
        invariant forall id: ClickId :: Wanted(clicks, after, id) && id !in rest ==> Lists(rows, id)
        invariant forall id :: id in rest ==> (|rows| > 0 ==> rows[|rows| - 1].id < id)
        decreases |rest|
      {
        ghost var least := LeastId(rest);
        var id :| id in rest && forall d :: d in rest ==> id <= d;
        ListedToo(rows, PageRow(id, clicks[id].bid));
        rows := rows + [PageRow(id, clicks[id].bid)];
        rest := rest - {id};
      }
    }

    method InterruptCaptures(now: int)
      requires Valid()
      modifies this`clicks
      ensures Valid() && clicks.Keys == old(clicks).Keys
      ensures forall id :: id in clicks ==> clicks[id] == Interrupted(old(clicks)[id], now)
    {
      clicks := map id | id in clicks :: Interrupted(clicks[id], now);
    }

    /** Prices one row of a page; a refused bid throws before anything is written. */
    method PriceRow(row: PageRow, s: PriceSnapshot) returns (threw: bool)
      requires Valid() && s.price.Some? && s.price.value > 0
      modifies this`clicks
      ensures Valid() && AmountsKept(old(clicks), clicks) && (PositiveBids(old(clicks)) ==> PositiveBids(clicks))
      ensures threw <==> row.bid == Some(0)
      ensures clicks == if threw then old(clicks) else AfterOne(old(clicks), row, s)
    {
      threw := false;
      if row.bid.Some? {
        var amount := BillPreRaw(row.bid.value, s.price.value);
        if amount.None? {
          return true;
        }
        if row.id in clicks && Matching(clicks[row.id]) {
          clicks := clicks[row.id := Priced(clicks[row.id], s, amount.value)];
        }
      }
    }

    /** One page, row by row; `upTo` is the last id that is dealt with. */
    method PricePage(rows: seq<PageRow>, s: PriceSnapshot, ghost before: map<ClickId, Click>,
                     ghost after: Option<ClickId>)
      returns (threw: bool, ghost upTo: Option<ClickId>)
      requires Valid() && s.price.Some? && s.price.value > 0 && DoneUpTo(before, clicks, touched, s, after)
      requires IsPage(before, touched, after, rows) && AmountsKept(before, clicks)
      modifies this
      ensures Valid() && old(touched) <= touched && AmountsKept(before, clicks)
      ensures PositiveBids(old(clicks)) ==> PositiveBids(clicks)
      ensures DoneUpTo(before, clicks, touched, s, upTo)
      ensures !threw ==> upTo == EndOf(rows, after)
      ensures threw ==> exists n :: 0 <= n < |rows| && Stuck(before, touched, upTo, rows[n])
    {
      upTo := after;
      hide DoneUpTo, NextIs, IsPage, AfterOne, Poison, PositiveBids, Matching;
      threw := false;
      for n := 0 to |rows|
        invariant Valid() && old(touched) <= touched && AmountsKept(before, clicks)
        invariant PositiveBids(old(clicks)) ==> PositiveBids(clicks)
        invariant IsPage(before, touched, after, rows)
        invariant upTo == if n > 0 then Some(rows[n - 1].id) else after
        invariant DoneUpTo(before, clicks, touched, s, upTo)
      {
        ghost var clicks0, touched0 := clicks, touched;
        OthersRun();
        OthersKeep(before, clicks0, clicks, touched0, touched, s, upTo);
        MoreTouched(before, touched0, touched, after, rows);
        NextInPage(before, touched, after, rows, n);
        RowOfPage(before, touched, after, rows, n);
        ghost var table := clicks;
        threw := PriceRow(rows[n], s);
        if threw {
          return;
        }
        PriceOne(before, table, touched, s, upTo, rows[n]);
        upTo := Some(rows[n].id);
      }
    }

    /**
     The whole pricing, while others go on writing. The cursor only moves forward, so the loop ends
     although each page changes what the query selects. With positive bids it never throws, and
     each row that nobody else wrote is what one pass over the table makes of it.
     */
    method ConvertPendingPrices(snapshot: Option<PriceSnapshot>, now: int) returns (threw: bool)
      requires Valid() && touched == {}
      modifies this
      ensures Valid() && AmountsKept(old(clicks), clicks)
      ensures PositiveBids(old(clicks)) ==> !threw
      ensures !threw ==> forall id :: id in old(clicks) && id !in touched ==>
        id in clicks && clicks[id] == Unpaged(old(clicks)[id], snapshot, now)
      ensures !threw ==> forall id :: id in old(clicks) && id !in touched ==>
        id in clicks && Outcome(old(clicks)[id], clicks[id], snapshot, now)
      ensures touched == {} ==> clicks.Keys == old(clicks).Keys
      ensures touched == {} ==> forall id :: id in clicks ==> clicks[id] == Result(old(clicks), id, snapshot, now)
      ensures touched == {} ==>
        (threw <==> Usable(snapshot, now) && exists z :: z in old(clicks) && Poison(old(clicks)[z]))
    {
      hide Outcome, PositiveBids, IsRow, DoneUpTo, NextIs, Valid, ListsAll;
      InterruptCaptures(now);
      InterruptedKeep(old(clicks), clicks, now);
      if !Usable(snapshot, now) {
        AllOutcomes(old(clicks), clicks, touched, snapshot, now);
        return false;
      }
      hide DoneUpTo, IsPage, Poison, PositiveBids, Matching, Unpaged, Result, IsRow, Lists, InOrder, Wanted, ListsAll;
      var s := snapshot.value;
      ghost var before := clicks;
      var after: Option<ClickId> := None;
      var done := false;
      StartsUndone(before, s);
      while !done
        invariant Valid() && AmountsKept(before, clicks) && (PositiveBids(before) ==> PositiveBids(clicks))
        invariant (after.Some? ==> after.value < IDS) && DoneUpTo(before, clicks, touched, s, after)
        invariant done ==> forall id :: id in before && id !in touched && Behind(after, id) ==> !Matching(before[id])
        decreases !done, if after.Some? then IDS - after.value else IDS + 1
      {
        ghost var clicks0, touched0 := clicks, touched;
        OthersRun();
        OthersKeep(before, clicks0, clicks, touched0, touched, s, after);
        var rows := FindPage(after);
        PageOfBefore(before, clicks, touched, s, after, rows);
        ghost var read := touched;
        BidsOfPage(clicks, after, rows);
        ghost var upTo;
        threw, upTo := PricePage(rows, s, before, after);
        if threw {
          PoisonFound(old(clicks), before, clicks, touched, snapshot, now, upTo, rows);
          return;
        }
        if |rows| < PAGE {
          done := true;
          LastOfAll(before, read, touched, after, rows);
        }
        after := EndOf(rows, after);
      }
      AllDone(old(clicks), before, clicks, touched, snapshot, now, after);
      AllOutcomes(old(clicks), clicks, touched, snapshot, now);
      threw := false;
    }
  }

  // ---- the parts of the loop --------------------------------------------------------------------

  lemma AllOutcomes(start: map<ClickId, Click>, clicks: map<ClickId, Click>, touched: set<ClickId>,
                    s: Option<PriceSnapshot>, now: int)
    requires forall id :: id in start && id !in touched ==> id in clicks && clicks[id] == Unpaged(start[id], s, now)
    ensures forall id :: id in start && id !in touched ==> id in clicks && Outcome(start[id], clicks[id], s, now)
  {
    forall id | id in start && id !in touched ensures Outcome(start[id], clicks[id], s, now) {
      UnpagedOutcome(start[id], s, now);
    }
  }

  lemma PoisonBefore(c: Click, now: int)
    ensures Poison(Interrupted(c, now)) <==> Poison(c)
    ensures Matching(Interrupted(c, now)) <==> Matching(c)
    ensures Interrupted(c, now).bid == c.bid
  {
  }

  lemma {:induction false} LeastId(ids: set<ClickId>) returns (least: ClickId)
    requires ids != {}
    ensures least in ids && forall d :: d in ids ==> least <= d
    decreases |ids|
  {
    var c :| c in ids;
    least := c;
    if ids != {c} {
      assert ids - {c} != {} by { assert exists d :: d in ids && d != c; }
      var rest := LeastId(ids - {c});
      least := if c < rest then c else rest;
      forall d | d in ids ensures least <= d {
        assert d == c || d in ids - {c};
      }
    }
  }

  lemma OthersKeep(before: map<ClickId, Click>, clicks: map<ClickId, Click>, later: map<ClickId, Click>,
                   touched: set<ClickId>, more: set<ClickId>, s: PriceSnapshot, upTo: Option<ClickId>)
    requires s.price.Some? && s.price.value > 0 && DoneUpTo(before, clicks, touched, s, upTo)
    requires touched <= more && AmountsKept(before, clicks) && AmountsKept(clicks, later)
    requires forall id :: id !in more ==> (id in later <==> id in clicks)
    requires forall id :: id !in more && id in later ==> later[id] == clicks[id]
    ensures DoneUpTo(before, later, more, s, upTo) && AmountsKept(before, later)
  {
  }

  lemma RowOfPage(before: map<ClickId, Click>, touched: set<ClickId>, after: Option<ClickId>, rows: seq<PageRow>,
                  n: nat)
    requires IsPage(before, touched, after, rows) && n < |rows|
    ensures rows[n].id !in touched ==>
      && rows[n].id in before && Matching(before[rows[n].id]) && rows[n].bid == before[rows[n].id].bid
      && (rows[n].bid == Some(0) ==> Poison(before[rows[n].id]))
  {
  }

  lemma InterruptedKeep(start: map<ClickId, Click>, before: map<ClickId, Click>, now: int)
    requires before.Keys == start.Keys && forall id :: id in start ==> before[id] == Interrupted(start[id], now)
    ensures AmountsKept(start, before) && (PositiveBids(start) ==> PositiveBids(before))
  {
  }

  lemma StartsUndone(before: map<ClickId, Click>, s: PriceSnapshot)
    requires s.price.Some? && s.price.value > 0
    ensures DoneUpTo(before, before, {}, s, None)
  {
  }

  lemma PageOfBefore(before: map<ClickId, Click>, clicks: map<ClickId, Click>, touched: set<ClickId>, s: PriceSnapshot,
                     after: Option<ClickId>, rows: seq<PageRow>)
    requires s.price.Some? && s.price.value > 0 && DoneUpTo(before, clicks, touched, s, after)
    requires InOrder(rows) && forall row :: row in rows ==> IsRow(clicks, after, row)
    requires forall id: ClickId :: Wanted(clicks, after, id) && !Lists(rows, id) ==>
      |rows| == PAGE && id > rows[|rows| - 1].id
    ensures IsPage(before, touched, after, rows)
    ensures |rows| < PAGE ==> ListsAll(before, touched, after, rows)
  {
    if |rows| < PAGE {
      forall id | id in before && id !in touched && Matching(before[id]) && Behind(after, id)
        ensures Lists(rows, id)
      {
        assert clicks[id] == before[id] && Wanted(clicks, after, id);
      }
    }
    forall i | 0 <= i < |rows| ensures IsRow(clicks, after, rows[i]) {
      assert rows[i] in rows;
    }
    forall id | id in before && id !in touched && Matching(before[id]) && Behind(after, id) && !Lists(rows, id)
      ensures |rows| > 0 && id > rows[|rows| - 1].id
    {
      assert clicks[id] == before[id] && Wanted(clicks, after, id);
    }
  }

  ghost predicate ListsAll(before: map<ClickId, Click>, touched: set<ClickId>, after: Option<ClickId>,
                           rows: seq<PageRow>) {
    forall id :: id in before && id !in touched && Matching(before[id]) && Behind(after, id) ==> Lists(rows, id)
  }

  lemma LastOfAll(before: map<ClickId, Click>, touched: set<ClickId>, more: set<ClickId>, after: Option<ClickId>,
                  rows: seq<PageRow>)
    requires IsPage(before, touched, after, rows) && ListsAll(before, touched, after, rows) && touched <= more
    ensures forall id :: id in before && id !in more && Behind(EndOf(rows, after), id) ==> !Matching(before[id])
  {
    LastPage(before, touched, after, rows);
  }

  lemma BidsOfPage(clicks: map<ClickId, Click>, after: Option<ClickId>, rows: seq<PageRow>)
    requires forall row :: row in rows ==> IsRow(clicks, after, row)
    ensures |rows| > 0 ==> rows[|rows| - 1].id in clicks
    ensures PositiveBids(clicks) ==> forall i :: 0 <= i < |rows| ==> rows[i].bid != Some(0)
  {
    assert |rows| > 0 ==> rows[|rows| - 1] in rows;
    if PositiveBids(clicks) {
      forall i | 0 <= i < |rows| ensures rows[i].bid != Some(0) {
        assert rows[i] in rows;
      }
    }
  }

  predicate AreInterrupted(start: map<ClickId, Click>, before: map<ClickId, Click>, now: int) {
    before.Keys == start.Keys && forall id :: id in start ==> before[id] == Interrupted(start[id], now)
  }

  lemma AllDone(start: map<ClickId, Click>, before: map<ClickId, Click>, clicks: map<ClickId, Click>,
                touched: set<ClickId>, s: Option<PriceSnapshot>, now: int, after: Option<ClickId>)
    requires Usable(s, now) && AreInterrupted(start, before, now) && DoneUpTo(before, clicks, touched, s.value, after)
    requires forall id :: id in before && id !in touched && Behind(after, id) ==> !Matching(before[id])
    ensures forall id :: id in start && id !in touched ==> id in clicks && clicks[id] == Unpaged(start[id], s, now)
    ensures touched == {} ==>
      clicks.Keys == start.Keys && forall id :: id in clicks ==> clicks[id] == Result(start, id, s, now)
    ensures touched == {} ==> forall z :: z in start ==> !Poison(start[z])
  {
    if touched == {} {
      forall z | z in start ensures !Poison(start[z]) {
        assert !Poison(before[z]);
      }
    }
  }

  lemma PoisonFound(start: map<ClickId, Click>, before: map<ClickId, Click>, clicks: map<ClickId, Click>,
                    touched: set<ClickId>, s: Option<PriceSnapshot>, now: int, upTo: Option<ClickId>,
                    rows: seq<PageRow>)
    requires Usable(s, now) && AreInterrupted(start, before, now) && DoneUpTo(before, clicks, touched, s.value, upTo)
    requires exists n :: 0 <= n < |rows| && Stuck(before, touched, upTo, rows[n])
    ensures touched == {} ==>
      clicks.Keys == start.Keys && forall id :: id in clicks ==> clicks[id] == Result(start, id, s, now)
    ensures touched == {} ==> exists z :: z in start && Poison(start[z])
  {
    if touched == {} {
      var n :| 0 <= n < |rows| && Stuck(before, touched, upTo, rows[n]);
      var z := rows[n].id;
      PoisonBefore(start[z], now);
      assert Poison(start[z]);
      forall id | id in clicks ensures clicks[id] == Result(start, id, s, now) {
        if Behind(upTo, id) {
          assert id !in touched && id in before && clicks[id] == before[id];
          assert NextIs(before, touched, upTo, z);
          assert Matching(before[id]) ==> z <= id;
          assert Matching(start[id]) ==> !Reached(start, id) by { PoisonBefore(start[id], now); }
        } else {
          forall y | y in start && y <= id ensures !Poison(start[y]) {
            assert !Behind(upTo, y) && !Poison(before[y]);
          }
        }
      }
    }
  }
}
