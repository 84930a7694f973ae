/**
 The simulated exchange's book of one symbol and the client's replica of it: the deltas every
 change sends out, the greedy consumption of a taker, and the snapshots the client emits.
 */
module OrderBook {
  import opened Domain

  type Side = map<real, real>

  datatype Book = Book(bids: Side, asks: Side)

  datatype Level = Level(price: real, size: real)

  datatype Action = Add | Update | Remove

  datatype Row = Row(price: real, size: real, bid: bool, action: Action)

  // ----- deltas -------------------------------------------------------------------------

  /** One delta on one side: a REMOVE or a non-positive size deletes the level. */
  function FoldRow(side: Side, row: Row): Side {
    if row.action == Remove || row.size <= 0.0 then side - {row.price} else side[row.price := row.size]
  }

  function FoldSide(side: Side, rows: seq<Row>): Side {
    if rows == [] then side else FoldRow(FoldSide(side, rows[..|rows| - 1]), rows[|rows| - 1])
  }

  function ApplyRow(book: Book, row: Row): Book {
    if row.bid then book.(bids := FoldRow(book.bids, row)) else book.(asks := FoldRow(book.asks, row))
  }

  function ApplyRows(book: Book, rows: seq<Row>): Book {
    if rows == [] then book else ApplyRow(ApplyRows(book, rows[..|rows| - 1]), rows[|rows| - 1])
  }

  predicate OnSide(rows: seq<Row>, bid: bool) {
    forall i :: 0 <= i < |rows| ==> rows[i].bid == bid
  }

  predicate OncePerPrice(rows: seq<Row>) {
    forall i, j :: 0 <= i < j < |rows| ==> rows[i].price != rows[j].price
  }

  predicate Positive(side: Side) {
    forall p :: p in side ==> side[p] > 0.0
  }

  lemma SameMap<K, V>(x: map<K, V>, y: map<K, V>)
    requires forall k :: k in x ==> k in y && x[k] == y[k]
    requires forall k :: k in y ==> k in x
    ensures x == y
  {
  }

  lemma FoldNothing(side: Side)
    ensures FoldSide(side, []) == side
  {
  }

  lemma FoldAppend(side: Side, rows: seq<Row>, row: Row)
    ensures FoldSide(side, rows + [row]) == FoldRow(FoldSide(side, rows), row)
  {
    assert (rows + [row])[..|rows|] == rows;
  }

  lemma {:induction false} ApplyConcat(book: Book, xs: seq<Row>, ys: seq<Row>)
    ensures ApplyRows(book, xs + ys) == ApplyRows(ApplyRows(book, xs), ys)
  {
    if ys == [] {
      assert xs + ys == xs;
    } else {
      var init := ys[..|ys| - 1];
      ApplyConcat(book, xs, init);
      assert (xs + ys)[..|xs + ys| - 1] == xs + init;
    }
  }

  /** Deltas of one side touch only that side. */
  lemma {:induction false} ApplyIsFold(book: Book, rows: seq<Row>, bid: bool)
    requires OnSide(rows, bid)
    ensures ApplyRows(book, rows) ==
            if bid then book.(bids := FoldSide(book.bids, rows)) else book.(asks := FoldSide(book.asks, rows))
  {
    if rows != [] {
      ApplyIsFold(book, rows[..|rows| - 1], bid);
    }
  }

  /** What one delta leaves at a price: its own row's size, or the level as it was. */
  lemma {:induction false} FoldAt(side: Side, rows: seq<Row>, p: real)
    requires OncePerPrice(rows)
    ensures (forall i :: 0 <= i < |rows| ==> rows[i].price != p) ==>
              (p in FoldSide(side, rows)) == (p in side) && (p in side ==> FoldSide(side, rows)[p] == side[p])
    ensures forall i :: 0 <= i < |rows| && rows[i].price == p ==>
              (p in FoldSide(side, rows)) == (p in FoldRow(map[], rows[i])) &&
              (p in FoldSide(side, rows) ==> FoldSide(side, rows)[p] == rows[i].size)
  {
    if rows != [] {
      FoldAt(side, rows[..|rows| - 1], p);
    }
  }

  /** Within one delta the order of the rows does not matter. */
  lemma DeltaOrderIrrelevant(side: Side, xs: seq<Row>, ys: seq<Row>)
    requires OncePerPrice(xs) && OncePerPrice(ys)
    requires forall r :: r in xs <==> r in ys
    ensures FoldSide(side, xs) == FoldSide(side, ys)
  {
    var x, y := FoldSide(side, xs), FoldSide(side, ys);
    forall p: real
      ensures p in x <==> p in y
      ensures p in x ==> x[p] == y[p]
    {
      FoldAt(side, xs, p);
      FoldAt(side, ys, p);
      if i :| 0 <= i < |xs| && xs[i].price == p {
        assert xs[i] in ys;
        var j :| 0 <= j < |ys| && ys[j] == xs[i];
      } else {
        forall j | 0 <= j < |ys| ensures ys[j].price != p {
          assert ys[j] in xs;
        }
      }
    }
    assert x == y;
  }

  // ----- sorting ------------------------------------------------------------------------

  predicate Better(highest: bool, p: real, q: real) {
    if highest then p > q else p < q
  }

  predicate BestFirst(highest: bool, prices: seq<real>) {
    forall i, j :: 0 <= i < j < |prices| ==> Better(highest, prices[i], prices[j])
  }

  /** All and only the prices with volume, best first. */
  ghost predicate PricesOf(side: Side, highest: bool, prices: seq<real>) {
    && BestFirst(highest, prices)
    && (forall k :: 0 <= k < |prices| ==> prices[k] in side && side[prices[k]] > 0.0)
    && (forall p :: p in side && side[p] > 0.0 ==> p in prices)
  }

  /** Map iteration: some key of the set, whichever comes first. */
  method AnyOf<T(==)>(keys: set<T>) returns (k: T)
    requires keys != {}
    ensures k in keys
  {
    k :| k in keys;
  }

  /** The best of the prices in `among` that have volume. */
  ghost predicate BestOf(side: Side, among: set<real>, highest: bool, best: Option<real>) {
    match best
    case None => forall p :: p in among && p in side ==> side[p] <= 0.0
    case Some(b) =>
      && b in among && b in side && side[b] > 0.0
      && forall p :: p in among && p in side && side[p] > 0.0 ==> p == b || Better(highest, b, p)
  }

  method BestPrice(side: Side, highest: bool) returns (best: Option<real>)
    ensures BestOf(side, side.Keys, highest, best)
  {
    best := None;
    var todo := side.Keys;
    while todo != {}
      invariant todo <= side.Keys
      invariant BestOf(side, side.Keys - todo, highest, best)
      decreases |todo|
    {
      var p := AnyOf(todo);
      todo := todo - {p};
      if side[p] > 0.0 && (best == None || Better(highest, p, best.value)) {
        best := Some(p);
      }
    }
    assert side.Keys - todo == side.Keys;
  }

  /** The library sort, as repeated selection of the best price left. */
  method SortedPrices(side: Side, highest: bool) returns (prices: seq<real>)
    ensures PricesOf(side, highest, prices)
  {
    prices := [];
    var rest := side;
    var best := BestPrice(rest, highest);
    while best.Some?
      invariant BestOf(rest, rest.Keys, highest, best)
      invariant Sorting(side, rest, highest, prices)
      decreases |rest|
    {
      SortStep(side, rest, highest, prices, best.value);
      prices := prices + [best.value];
      rest := rest - {best.value};
      best := BestPrice(rest, highest);
    }
  }

  /** `prices` has the best prices of `side`, and `rest` the others. */
  ghost predicate Sorting(side: Side, rest: Side, highest: bool, prices: seq<real>) {
    && BestFirst(highest, prices)
    && (forall p :: p in rest ==> p in side && rest[p] == side[p] && p !in prices)
    && (forall p :: p in side ==> p in rest || p in prices)
    && (forall i :: 0 <= i < |prices| ==> prices[i] in side && side[prices[i]] > 0.0)
    && (forall i, p :: 0 <= i < |prices| && p in rest && rest[p] > 0.0 ==> Better(highest, prices[i], p))
  }

  lemma SortStep(side: Side, rest: Side, highest: bool, prices: seq<real>, best: real)
    requires Sorting(side, rest, highest, prices) && BestOf(rest, rest.Keys, highest, Some(best))
    ensures Sorting(side, rest - {best}, highest, prices + [best])
  {
    var all := prices + [best];
    assert best in all;
    forall p | p in side ensures p in rest - {best} || p in all {
      if p in prices {
        assert p in all;
      }
    }
  }

  // ----- the server's book --------------------------------------------------------------

  function LevelMap(levels: seq<Level>): Side {
    if levels == [] then map[]
    else
      var init, l := LevelMap(levels[..|levels| - 1]), levels[|levels| - 1];
      if l.size > 0.0 then init[l.price := l.size] else init
  }

  lemma {:induction false} LevelMapPositive(levels: seq<Level>)
    ensures Positive(LevelMap(levels))
  {
    if levels != [] {
      LevelMapPositive(levels[..|levels| - 1]);
    }
  }

  /** Brings one side to the new levels, sending out what changed, in any order. */
  method DiffSide(old_: Side, levels: seq<Level>, bid: bool) returns (side: Side, rows: seq<Row>)
    requires Positive(old_)
    ensures side == LevelMap(levels) && Positive(side)
    ensures OnSide(rows, bid) && OncePerPrice(rows) && FoldSide(old_, rows) == side
  {
    var next: Side := map[];
    for i := 0 to |levels|
      invariant next == LevelMap(levels[..i])
    {
      assert levels[..i + 1][..i] == levels[..i];
      if levels[i].size > 0.0 {
        next := next[levels[i].price := levels[i].size];
      }
    }
    assert levels[..|levels|] == levels;
    LevelMapPositive(levels);
    var mid, gone := RemoveGone(old_, next, bid);
    side, rows := AddChanged(old_, mid, next, bid, gone);
  }

  /** The first half of DiffSide: REMOVE rows for the levels that disappear. */
  method RemoveGone(old_: Side, next: Side, bid: bool) returns (side: Side, rows: seq<Row>)
    ensures OnSide(rows, bid) && OncePerPrice(rows) && FoldSide(old_, rows) == side
    ensures forall p :: p in side ==> p in next
    ensures forall i :: 0 <= i < |rows| ==> rows[i].price !in next
  {
    hide FoldSide;
    side, rows := old_, [];
    FoldNothing(old_);
    var gone := old_.Keys;
    while gone != {}
      invariant OnSide(rows, bid) && OncePerPrice(rows) && FoldSide(old_, rows) == side
      invariant forall p :: p in side ==> p in gone || p in next
      invariant forall i :: 0 <= i < |rows| ==> rows[i].price !in gone && rows[i].price !in next
      decreases |gone|
    {
      var p := AnyOf(gone);
      gone := gone - {p};
      if p !in next {
        FoldAppend(old_, rows, Row(p, 0.0, bid, Remove));
        rows := rows + [Row(p, 0.0, bid, Remove)];
        side := side - {p};
      }
    }
  }

  /** The second half: ADD and UPDATE rows for the levels that are new or changed. */
  method AddChanged(old_: Side, mid: Side, next: Side, bid: bool, removed: seq<Row>) returns (side: Side,
      rows: seq<Row>)
    requires OnSide(removed, bid) && OncePerPrice(removed) && FoldSide(old_, removed) == mid
    requires forall p :: p in mid ==> p in next
    requires forall i :: 0 <= i < |removed| ==> removed[i].price !in next
    requires Positive(next)
    ensures side == next && OnSide(rows, bid) && OncePerPrice(rows) && FoldSide(old_, rows) == side
  {
    hide FoldSide;
    side, rows := mid, removed;
    var todo := next.Keys;
    while todo != {}
      invariant todo <= next.Keys && OnSide(rows, bid) && OncePerPrice(rows) && FoldSide(old_, rows) == side
      invariant forall p :: p in side ==> p in next
      invariant forall p :: p in next && p !in todo ==> p in side && side[p] == next[p]
      invariant forall i :: 0 <= i < |rows| ==> rows[i].price !in todo
      decreases |todo|
    {
      var p := AnyOf(todo);
      todo := todo - {p};
      if p !in side || side[p] != next[p] {
        var row := Row(p, next[p], bid, if p in side then Update else Add);
        FoldAppend(old_, rows, row);
        rows := rows + [row];
        side := side[p := next[p]];
      }
    }
    assert todo == {};
    assert forall p :: p in side ==> p in next;
    assert forall p :: p in next ==> p !in todo;
    assert forall p :: p in next ==> p in side;
    assert forall p :: p in next ==> side[p] == next[p];
    SameMap(side, next);
  }

  /** Some bid with volume is above some ask with volume. */
  predicate Crossed(book: Book) {
    exists p, q :: p in book.bids && q in book.asks && book.bids[p] > 0.0 && book.asks[q] > 0.0 && p > q
  }

  class SymbolState {
    var bids: Side
    var asks: Side
    var last: real
    const minStep: real

    constructor (minStep: real)
      ensures Valid() && View() == Book(map[], map[]) && this.minStep == minStep
    {
      bids, asks, last := map[], map[], 0.0;
      this.minStep := minStep;
    }

    predicate Valid()
      reads this
    {
      Positive(bids) && Positive(asks)
    }

    function View(): Book
      reads this
    {
      Book(bids, asks)
    }

    /** The whole book as ADD rows: the first message of a subscription. */
    method SnapshotRows() returns (rows: seq<Row>)
      requires Valid()
      ensures ApplyRows(Book(map[], map[]), rows) == View()
    {
      var bidRows := AddRows(bids, true);
      var askRows := AddRows(asks, false);
      rows := bidRows + askRows;
      ApplyConcat(Book(map[], map[]), bidRows, askRows);
      ApplyIsFold(Book(map[], map[]), bidRows, true);
      ApplyIsFold(Book(bids, map[]), askRows, false);
    }

    /** Replaces the book; the rows take any follower of the old book to the new one. */
    method SetBook(newBids: seq<Level>, newAsks: seq<Level>) returns (rows: seq<Row>)
      requires Valid()
      modifies `bids, `asks
      ensures Valid() && View() == Book(LevelMap(newBids), LevelMap(newAsks))
      ensures ApplyRows(old(View()), rows) == View()
    {
      var bidRows, askRows;
      bids, bidRows := DiffSide(bids, newBids, true);
      asks, askRows := DiffSide(asks, newAsks, false);
      rows := bidRows + askRows;
      ApplyConcat(old(View()), bidRows, askRows);
      ApplyIsFold(old(View()), bidRows, true);
      ApplyIsFold(Book(bids, old(asks)), askRows, false);
    }

    /** A taker's lots against one side, best price first, never past the limit. */
    method ConsumeBounded(buy: bool, lots: real, limit: real) returns (fills: seq<Level>, rows: seq<Row>,
        ghost prices: seq<real>)
      requires Valid()
      modifies `bids, `asks, `last
      ensures Valid() && ApplyRows(old(View()), rows) == View()
      ensures PricesOf(if buy then old(asks) else old(bids), !buy, prices)
      ensures Greedy(buy, if buy then old(asks) else old(bids), prices, lots, limit, fills)
      ensures if buy then bids == old(bids) && asks == Less(old(asks), fills)
              else asks == old(asks) && bids == Less(old(bids), fills)
      ensures last == if fills == [] then old(last) else fills[|fills| - 1].price
    {
      hide Taking, PricesOf, FoldSide, Less, Taken, ApplyRows, Positive;
      var side := if buy then asks else bids;
      ghost var before := side;
      var todo := SortedPrices(side, !buy);
      prices := todo;
      fills, rows := [], [];
      var remaining := lots;
      var i := 0;
      ConsumeStart(buy, before, prices, lots, limit);
      while i < |todo|
        invariant 0 <= i <= |todo| && prices == todo && |fills| == i && View() == old(View())
        invariant last == if i == 0 then old(last) else fills[i - 1].price
        invariant Consuming(buy, before, prices, lots, limit, fills, rows, side) && remaining == lots - Taken(fills)
      {
        var p := todo[i];
        if remaining <= 0.0 {
          break;
        }
        if limit > 0.0 && ((buy && p > limit) || (!buy && p < limit)) {
          break;
        }
        ConsumeStep(buy, before, prices, lots, limit, fills, rows, side);
        var take := if side[p] > remaining then remaining else side[p];
        fills := fills + [Level(p, take)];
        var left := side[p] - take;
        if left <= 0.0 {
          side := side - {p};
          rows := rows + [Row(p, 0.0, !buy, Remove)];
        } else {
          side := side[p := left];
          rows := rows + [Row(p, left, !buy, Update)];
        }
        remaining := remaining - take;
        last := p;
        i := i + 1;
      }
      ApplyIsFold(View(), rows, !buy);
      assert FoldSide(before, rows) == side && side == Less(before, fills) && Positive(side);
      if buy {
        asks := side;
      } else {
        bids := side;
      }
    }

    /** A stale bid one step above the best ask, or above the last price on an empty side. */
    method CrossRows() returns (rows: seq<Row>)
      requires Valid()
      modifies `bids
      ensures Valid() && ApplyRows(old(View()), rows) == View()
      ensures asks != map[] && minStep >= 0.0 ==> Crossed(View())
    {
      var ask := BestPrice(asks, false);
      var base := if ask.Some? then ask.value else if last == 0.0 then 100.0 else last;
      var p := base + if minStep == 0.0 then 1.0 else minStep;
      bids := bids[p := 1.0];
      rows := [Row(p, 1.0, true, Add)];
      assert ApplyRows(old(View()), rows) == ApplyRow(ApplyRows(old(View()), []), rows[0]) by {
        assert rows[..0] == [];
      }
      if asks.Keys != {} {
        var q := AnyOf(asks.Keys);
        assert q in asks.Keys && q in asks && asks[q] > 0.0;
        assert BestOf(asks, asks.Keys, false, ask);
        assert ask.Some? && (minStep >= 0.0 ==> p > ask.value) && p in bids;
      }
    }
  }

  method AddRows(side: Side, bid: bool) returns (rows: seq<Row>)
    requires Positive(side)
    ensures OnSide(rows, bid) && OncePerPrice(rows) && FoldSide(map[], rows) == side
  {
    hide FoldSide;
    FoldNothing(map[]);
    var prices := SortedPrices(side, bid);
    rows := [];
    ghost var built: Side := map[];
    for i := 0 to |prices|
      invariant |rows| == i && OnSide(rows, bid) && FoldSide(map[], rows) == built
      invariant forall k :: 0 <= k < i ==> rows[k].price == prices[k]
      invariant forall p :: p in built <==> p in prices[..i]
      invariant forall p :: p in built ==> p in side && built[p] == side[p]
    {
      var row := Row(prices[i], side[prices[i]], bid, Add);
      FoldAppend(map[], rows, row);
      rows := rows + [row];
      built := built[prices[i] := side[prices[i]]];
      assert prices[..i + 1] == prices[..i] + [prices[i]];
    }
    assert prices[..|prices|] == prices;
    AllBuilt(side, bid, prices, built);
  }

  /** A row for every price with volume builds the side. */
  lemma AllBuilt(side: Side, bid: bool, prices: seq<real>, built: Side)
    requires Positive(side) && PricesOf(side, bid, prices)
    requires forall p :: p in built <==> p in prices
    requires forall p :: p in built ==> p in side && built[p] == side[p]
    ensures built == side
  {
    hide BestFirst;
    forall p | p in side ensures p in built {
      assert side[p] > 0.0 && p in prices;
    }
    forall p | p in built ensures p in side && built[p] == side[p] {
    }
    assert forall p :: p in built.Keys <==> p in side.Keys;
    assert built == side;
  }

  // ----- greedy consumption -------------------------------------------------------------

  predicate Within(buy: bool, limit: real, p: real) {
    limit <= 0.0 || if buy then p <= limit else p >= limit
  }

  function Taken(fills: seq<Level>): real {
    if fills == [] then 0.0 else Taken(fills[..|fills| - 1]) + fills[|fills| - 1].size
  }

  lemma TakenAppend(fills: seq<Level>, f: Level)
    ensures Taken(fills + [f]) == Taken(fills) + f.size
  {
    assert (fills + [f])[..|fills|] == fills;
  }

  /** The side without the filled lots; an emptied level is gone. */
  function Less(side: Side, fills: seq<Level>): Side {
    if fills == [] then side
    else
      var rest, f := Less(side, fills[..|fills| - 1]), fills[|fills| - 1];
      if f.price in rest && rest[f.price] - f.size > 0.0
      then rest[f.price := rest[f.price] - f.size] else rest - {f.price}
  }

  lemma LessAppend(side: Side, fills: seq<Level>, f: Level)
    ensures Less(side, fills + [f]) ==
            var rest := Less(side, fills);
            if f.price in rest && rest[f.price] - f.size > 0.0
            then rest[f.price := rest[f.price] - f.size] else rest - {f.price}
  {
    assert (fills + [f])[..|fills|] == fills;
  }

  /** The best levels in order, each taken whole except that the last may be cut by the lots. */
  predicate Taking(buy: bool, side: Side, prices: seq<real>, lots: real, limit: real, fills: seq<Level>) {
    && |fills| <= |prices|
    && (forall k :: 0 <= k < |fills| ==>
          && fills[k].price == prices[k] && prices[k] in side && Within(buy, limit, prices[k])
          && 0.0 < fills[k].size <= side[prices[k]]
          && (fills[k].size < side[prices[k]] ==> k == |fills| - 1 && Taken(fills) == lots))
    && (fills != [] ==> Taken(fills) <= lots)
  }

  /** Greedy stops only at the end of the side, of the lots or of the limit. */
  predicate Greedy(buy: bool, side: Side, prices: seq<real>, lots: real, limit: real, fills: seq<Level>) {
    && Taking(buy, side, prices, lots, limit, fills)
    && (|fills| == |prices| || Taken(fills) >= lots || !Within(buy, limit, prices[|fills|]))
  }

  /** A taker at work: what it has filled so far, what it sent out and what is left. */
  ghost predicate Consuming(buy: bool, before: Side, prices: seq<real>, lots: real, limit: real,
                            fills: seq<Level>, rows: seq<Row>, side: Side) {
    && PricesOf(before, !buy, prices) && Taking(buy, before, prices, lots, limit, fills)
    && OnSide(rows, !buy) && FoldSide(before, rows) == side && side == Less(before, fills) && Positive(side)
    && forall k :: |fills| <= k < |prices| ==> prices[k] in side && side[prices[k]] == before[prices[k]]
  }

  lemma ConsumeStart(buy: bool, before: Side, prices: seq<real>, lots: real, limit: real)
    requires PricesOf(before, !buy, prices) && Positive(before)
    ensures Consuming(buy, before, prices, lots, limit, [], [], before) && Taken([]) == 0.0
  {
  }

  /** The next level is taken, whole or as far as the lots go. */
  lemma ConsumeStep(buy: bool, before: Side, prices: seq<real>, lots: real, limit: real,
                    fills: seq<Level>, rows: seq<Row>, side: Side)
    requires Consuming(buy, before, prices, lots, limit, fills, rows, side)
    requires |fills| < |prices| && Taken(fills) < lots && Within(buy, limit, prices[|fills|])
    ensures var p, remaining := prices[|fills|], lots - Taken(fills);
            && p in side
            && var take := if side[p] > remaining then remaining else side[p];
               var left := side[p] - take;
               && Taken(fills + [Level(p, take)]) == Taken(fills) + take
               && Consuming(buy, before, prices, lots, limit, fills + [Level(p, take)],
                            rows + [if left <= 0.0 then Row(p, 0.0, !buy, Remove) else Row(p, left, !buy, Update)],
                            if left <= 0.0 then side - {p} else side[p := left])
  {
    hide FoldSide, Less, Taken, Taking, PricesOf, BestFirst;
    var p, remaining := prices[|fills|], lots - Taken(fills);
    var take := if side[p] > remaining then remaining else side[p];
    var left := side[p] - take;
    NextPrice(buy, before, prices, |fills|);
    TakingStep(buy, before, prices, lots, limit, fills, take);
    LessAppend(before, fills, Level(p, take));
    FoldAppend(before, rows, if left <= 0.0 then Row(p, 0.0, !buy, Remove) else Row(p, left, !buy, Update));
  }

  lemma NextPrice(buy: bool, side: Side, prices: seq<real>, i: nat)
    requires PricesOf(side, !buy, prices) && i < |prices|
    ensures prices[i] in side && side[prices[i]] > 0.0
    ensures forall k :: i < k < |prices| ==> prices[k] != prices[i]
  {
    assert forall k :: i < k < |prices| ==> Better(!buy, prices[i], prices[k]);
  }

  lemma TakingStep(buy: bool, side: Side, prices: seq<real>, lots: real, limit: real, fills: seq<Level>, take: real)
    requires Taking(buy, side, prices, lots, limit, fills) && |fills| < |prices|
    requires Taken(fills) < lots && Within(buy, limit, prices[|fills|])
    requires prices[|fills|] in side && side[prices[|fills|]] > 0.0
    requires take == if side[prices[|fills|]] > lots - Taken(fills) then lots - Taken(fills) else side[prices[|fills|]]
    ensures Taking(buy, side, prices, lots, limit, fills + [Level(prices[|fills|], take)])
    ensures Taken(fills + [Level(prices[|fills|], take)]) == Taken(fills) + take
  {
    TakenAppend(fills, Level(prices[|fills|], take));
  }

  /** The volume a limit lets a taker reach. */
  function Reachable(buy: bool, side: Side, prices: seq<real>, limit: real): real
    requires forall p :: p in prices ==> p in side
  {
    if prices == [] then 0.0
    else
      var p := prices[|prices| - 1];
      Reachable(buy, side, prices[..|prices| - 1], limit) + if Within(buy, limit, p) then side[p] else 0.0
  }

  lemma {:induction false} ReachablePrefix(buy: bool, side: Side, prices: seq<real>, limit: real, n: nat)
    requires PricesOf(side, !buy, prices) && n <= |prices|
    ensures Reachable(buy, side, prices[..n], limit) <= Reachable(buy, side, prices, limit)
    ensures n < |prices| && !Within(buy, limit, prices[n]) ==>
              Reachable(buy, side, prices[..n], limit) == Reachable(buy, side, prices, limit)
  {
    assert prices[..|prices|] == prices;
    ReachableStep(buy, side, prices, limit, n, |prices|);
  }

  lemma {:induction false} ReachableStep(buy: bool, side: Side, prices: seq<real>, limit: real, n: nat, m: nat)
    requires PricesOf(side, !buy, prices) && n <= m <= |prices|
    ensures Reachable(buy, side, prices[..n], limit) <= Reachable(buy, side, prices[..m], limit)
    ensures n < |prices| && !Within(buy, limit, prices[n]) ==>
              Reachable(buy, side, prices[..n], limit) == Reachable(buy, side, prices[..m], limit)
    decreases m
  {
    if n < m {
      ReachableStep(buy, side, prices, limit, n, m - 1);
      assert prices[..m][..m - 1] == prices[..m - 1];
      assert prices[m - 1] in prices;
    }
  }

  lemma {:induction false} TakenIsReachable(buy: bool, side: Side, prices: seq<real>, lots: real, limit: real,
                                            fills: seq<Level>, n: nat)
    requires PricesOf(side, !buy, prices) && Taking(buy, side, prices, lots, limit, fills) && n <= |fills|
    ensures Taken(fills[..n]) <= Reachable(buy, side, prices[..n], limit)
    ensures n < |fills| || Taken(fills) != lots ==> Taken(fills[..n]) == Reachable(buy, side, prices[..n], limit)
  {
    if n > 0 {
      TakenIsReachable(buy, side, prices, lots, limit, fills, n - 1);
      assert fills[..n][..n - 1] == fills[..n - 1];
      assert prices[..n][..n - 1] == prices[..n - 1];
      assert prices[n - 1] in prices;
    }
  }

  /** Exact: a taker gets the smaller of what it asked for and what its limit reaches. */
  lemma GreedyIsExact(buy: bool, side: Side, prices: seq<real>, lots: real, limit: real, fills: seq<Level>)
    requires PricesOf(side, !buy, prices) && Greedy(buy, side, prices, lots, limit, fills)
    ensures Taken(fills) ==
            if lots <= 0.0 then 0.0
            else if lots <= Reachable(buy, side, prices, limit) then lots else Reachable(buy, side, prices, limit)
  {
    var n := |fills|;
    assert fills[..n] == fills;
    assert prices[..|prices|] == prices;
    TakenIsReachable(buy, side, prices, lots, limit, fills, n);
    ReachablePrefix(buy, side, prices, limit, n);
    TakenPositive(fills);
  }

  lemma {:induction false} TakenPositive(fills: seq<Level>)
    requires forall k :: 0 <= k < |fills| ==> fills[k].size > 0.0
    ensures fills != [] ==> Taken(fills) > 0.0
  {
    if |fills| > 1 {
      TakenPositive(fills[..|fills| - 1]);
    } else if |fills| == 1 {
      assert fills[..0] == [];
    }
  }

  /** Price priority: no level is touched before every better one is empty. */
  lemma PricePriority(buy: bool, side: Side, prices: seq<real>, lots: real, limit: real, fills: seq<Level>, p: real,
      k: nat)
    requires PricesOf(side, !buy, prices) && Greedy(buy, side, prices, lots, limit, fills)
    requires k < |fills| && p in side && side[p] > 0.0 && Better(!buy, p, fills[k].price)
    ensures exists j :: 0 <= j < k && fills[j] == Level(p, side[p])
  {
    var j :| 0 <= j < |prices| && prices[j] == p;
    assert fills[k].price == prices[k];
    assert fills[j] == Level(p, side[p]);
  }

  /** Every level loses exactly what was filled at it, and disappears when that was all. */
  lemma {:induction false} LosesWhatIsFilled(side: Side, prices: seq<real>, fills: seq<Level>, k: nat)
    requires |fills| <= |prices| && k < |prices| && prices[k] in side && side[prices[k]] > 0.0
    requires forall i :: 0 <= i < |fills| ==> fills[i].price == prices[i]
    requires forall i, j :: 0 <= i < j < |prices| ==> prices[i] != prices[j]
    ensures var left := side[prices[k]] - if k < |fills| then fills[k].size else 0.0;
            if left > 0.0 then prices[k] in Less(side, fills) && Less(side, fills)[prices[k]] == left
            else prices[k] !in Less(side, fills)
    decreases |fills|
  {
    if fills != [] {
      LosesWhatIsFilled(side, prices, fills[..|fills| - 1], k);
    }
  }

  /** What the same number of lots costs at each level's price. */
  function Cost(prices: seq<real>, amounts: seq<real>): real
    requires |prices| == |amounts|
  {
    if prices == [] then 0.0
    else
      var n := |prices| - 1;
      Cost(prices[..n], amounts[..n]) + prices[n] * amounts[n]
  }

  function Sum(amounts: seq<real>): real {
    if amounts == [] then 0.0 else Sum(amounts[..|amounts| - 1]) + amounts[|amounts| - 1]
  }

  function Amounts(fills: seq<Level>, n: nat): (xs: seq<real>)
    ensures |xs| == n
  {
    seq(n, k requires 0 <= k < n => if k < |fills| then fills[k].size else 0.0)
  }

  /** A selection of lots from the side's levels. */
  predicate Selection(side: Side, prices: seq<real>, amounts: seq<real>) {
    |amounts| == |prices| && forall k :: 0 <= k < |prices| ==> prices[k] in side && 0.0 <= amounts[k] <= side[prices[k]]
  }

  /** One level's part of the comparison from the marginal price m. */
  lemma LevelBound(buy: bool, p: real, m: real, x: real, y: real)
    requires Better(!buy, p, m) ==> x <= y
    requires Better(!buy, m, p) ==> y <= x
    ensures buy ==> (p - m) * x >= (p - m) * y
    ensures !buy ==> (p - m) * x <= (p - m) * y
  {
    assert (p - m) * x - (p - m) * y == (p - m) * (x - y);
  }

  lemma Distribute(p: real, m: real, x: real, cost: real, sum: real)
    ensures (cost + p * x) - m * (sum + x) == (cost - m * sum) + (p - m) * x
  {
  }

  /** Measured from the marginal price m, every other selection does worse level by level. */
  lemma {:induction false} MarginalBound(buy: bool, prices: seq<real>, xs: seq<real>, ys: seq<real>, m: real)
    requires |prices| == |xs| == |ys|
    requires forall k :: 0 <= k < |prices| ==>
               (Better(!buy, prices[k], m) ==> xs[k] <= ys[k]) && (Better(!buy, m, prices[k]) ==> ys[k] <= xs[k])
    ensures buy ==> Cost(prices, xs) - m * Sum(xs) >= Cost(prices, ys) - m * Sum(ys)
    ensures !buy ==> Cost(prices, xs) - m * Sum(xs) <= Cost(prices, ys) - m * Sum(ys)
  {
    hide Better;
    if prices != [] {
      var n := |prices| - 1;
      MarginalBound(buy, prices[..n], xs[..n], ys[..n], m);
      LevelBound(buy, prices[n], m, xs[n], ys[n]);
      Distribute(prices[n], m, xs[n], Cost(prices[..n], xs[..n]), Sum(xs[..n]));
      Distribute(prices[n], m, ys[n], Cost(prices[..n], ys[..n]), Sum(ys[..n]));
    }
  }

  /** Levels better than the last one touched are taken whole, worse ones not at all. */
  lemma GreedyShape(buy: bool, side: Side, prices: seq<real>, lots: real, limit: real, fills: seq<Level>, k: nat)
    requires PricesOf(side, !buy, prices) && Greedy(buy, side, prices, lots, limit, fills)
    requires fills != [] && k < |prices|
    ensures var m := fills[|fills| - 1].price;
            && (Better(!buy, prices[k], m) ==> k < |fills| && fills[k].size == side[prices[k]])
            && (Better(!buy, m, prices[k]) ==> k >= |fills|)
  {
    assert fills[|fills| - 1].price == prices[|fills| - 1];
    assert k < |fills| - 1 ==> Better(!buy, prices[k], prices[|fills| - 1]);
    assert k > |fills| - 1 ==> Better(!buy, prices[|fills| - 1], prices[k]);
  }

  /** Optimal: no other selection of as many lots is cheaper for a buyer or richer for a seller. */
  lemma GreedyIsOptimal(buy: bool, side: Side, prices: seq<real>, lots: real, limit: real, fills: seq<Level>,
      xs: seq<real>)
    requires PricesOf(side, !buy, prices) && Greedy(buy, side, prices, lots, limit, fills)
    requires Selection(side, prices, xs) && Sum(xs) == Sum(Amounts(fills, |prices|))
    ensures var ys := Amounts(fills, |prices|);
            if buy then Cost(prices, xs) >= Cost(prices, ys) else Cost(prices, xs) <= Cost(prices, ys)
  {
    hide Cost, Sum, Greedy, PricesOf, Selection;
    if fills == [] {
      NothingToTake(side, prices, xs);
    } else {
      MarginalOrder(buy, side, prices, lots, limit, fills, xs);
      MarginalBound(buy, prices, xs, Amounts(fills, |prices|), fills[|fills| - 1].price);
    }
  }

  /** Against the last price touched, a greedy take has at least as much of every better level and
      at most as much of every worse one as any other selection. */
  lemma MarginalOrder(buy: bool, side: Side, prices: seq<real>, lots: real, limit: real, fills: seq<Level>,
      xs: seq<real>)
    requires PricesOf(side, !buy, prices) && Greedy(buy, side, prices, lots, limit, fills) && fills != []
    requires Selection(side, prices, xs)
    ensures |xs| == |prices|
    ensures var m, ys := fills[|fills| - 1].price, Amounts(fills, |prices|);
            forall k :: 0 <= k < |prices| ==>
              (Better(!buy, prices[k], m) ==> xs[k] <= ys[k]) && (Better(!buy, m, prices[k]) ==> ys[k] <= xs[k])
  {
    hide Greedy, PricesOf, Better;
    forall k | 0 <= k < |prices|
      ensures var m, ys := fills[|fills| - 1].price, Amounts(fills, |prices|);
              (Better(!buy, prices[k], m) ==> xs[k] <= ys[k]) && (Better(!buy, m, prices[k]) ==> ys[k] <= xs[k])
    {
      GreedyShape(buy, side, prices, lots, limit, fills, k);
    }
  }

  lemma NothingToTake(side: Side, prices: seq<real>, xs: seq<real>)
    requires Selection(side, prices, xs) && Sum(xs) == Sum(Amounts([], |prices|))
    ensures xs == Amounts([], |prices|)
  {
    hide Sum;
    NothingTaken(xs, Amounts([], |prices|));
  }

  lemma {:induction false} NothingTaken(xs: seq<real>, ys: seq<real>)
    requires |xs| == |ys| && Sum(xs) == Sum(ys)
    requires forall k :: 0 <= k < |xs| ==> ys[k] == 0.0 <= xs[k]
    ensures forall k :: 0 <= k < |xs| ==> xs[k] == 0.0
  {
    SumOfZeros(ys);
    SumZero(xs);
  }

  lemma {:induction false} SumOfZeros(ys: seq<real>)
    requires forall k :: 0 <= k < |ys| ==> ys[k] == 0.0
    ensures Sum(ys) == 0.0
  {
    if ys != [] {
      SumOfZeros(ys[..|ys| - 1]);
    }
  }

  lemma {:induction false} SumZero(xs: seq<real>)
    requires forall k :: 0 <= k < |xs| ==> xs[k] >= 0.0
    ensures Sum(xs) >= 0.0
    ensures Sum(xs) == 0.0 ==> forall k :: 0 <= k < |xs| ==> xs[k] == 0.0
  {
    if xs != [] {
      SumZero(xs[..|xs| - 1]);
      assert forall k :: 0 <= k < |xs| - 1 ==> xs[..|xs| - 1][k] == xs[k];
    }
  }

  // ----- the client's replica -----------------------------------------------------------

  const MAX_CROSSED := 50

  datatype Emission = Snapshot(bids: seq<Level>, asks: seq<Level>) | Skipped | Resync

  /** All and only the levels with volume, best first. */
  predicate LevelsOf(side: Side, highest: bool, levels: seq<Level>) {
    && (forall i, j :: 0 <= i < j < |levels| ==> Better(highest, levels[i].price, levels[j].price))
    && (forall i :: 0 <= i < |levels| ==> levels[i].price in side && levels[i].size == side[levels[i].price] > 0.0)
    && (forall p :: p in side && side[p] > 0.0 ==> Level(p, side[p]) in levels)
  }

  method SortedLevels(side: Side, highest: bool) returns (levels: seq<Level>)
    ensures LevelsOf(side, highest, levels)
  {
    var prices := SortedPrices(side, highest);
    levels := [];
    for i := 0 to |prices|
      invariant |levels| == i
      invariant forall k :: 0 <= k < i ==> levels[k] == Level(prices[k], side[prices[k]])
    {
      levels := levels + [Level(prices[i], side[prices[i]])];
    }
    forall p | p in side && side[p] > 0.0 ensures Level(p, side[p]) in levels {
      assert p in prices;
      var k :| 0 <= k < |prices| && prices[k] == p;
      assert levels[k] == Level(p, side[p]);
    }
  }

  class Replica {
    var bidBook: Side
    var askBook: Side
    var crossedCount: nat

    constructor ()
      ensures View() == Book(map[], map[]) && crossedCount == 0
    {
      bidBook, askBook, crossedCount := map[], map[], 0;
    }

    function View(): Book
      reads this
    {
      Book(bidBook, askBook)
    }

    method ApplyOne(row: Row)
      modifies `bidBook, `askBook
      ensures View() == ApplyRow(old(View()), row)
    {
      var side := if row.bid then bidBook else askBook;
      if row.action == Remove {
        side := side - {row.price};
      } else if row.size <= 0.0 {
        side := side - {row.price};
      } else {
        side := side[row.price := row.size];
      }
      if row.bid {
        bidBook := side;
      } else {
        askBook := side;
      }
    }

    /** One message: fold its rows, then emit the book unless it is crossed. */
    method Fold(rows: seq<Row>) returns (e: Emission)
      modifies this
      ensures View() == ApplyRows(old(View()), rows)
      ensures e.Snapshot? <==> !Crossed(View())
      ensures e.Snapshot? ==> LevelsOf(bidBook, true, e.bids) && LevelsOf(askBook, false, e.asks)
      ensures crossedCount == if Crossed(View()) then old(crossedCount) + 1 else 0
      ensures e.Resync? <==> Crossed(View()) && crossedCount >= MAX_CROSSED
    {
      for i := 0 to |rows|
        invariant View() == ApplyRows(old(View()), rows[..i]) && crossedCount == old(crossedCount)
      {
        ApplyOne(rows[i]);
        assert rows[..i + 1][..i] == rows[..i];
      }
      assert rows[..|rows|] == rows;
      var bids := SortedLevels(bidBook, true);
      var asks := SortedLevels(askBook, false);
      if |bids| > 0 && |asks| > 0 && bids[0].price > asks[0].price {
        assert Crossed(View());
        crossedCount := crossedCount + 1;
        return if crossedCount >= MAX_CROSSED then Resync else Skipped;
      }
      NotCrossed(View(), bids, asks);
      crossedCount := 0;
      e := Snapshot(bids, asks);
    }
  }

  lemma NotCrossed(book: Book, bids: seq<Level>, asks: seq<Level>)
    requires LevelsOf(book.bids, true, bids) && LevelsOf(book.asks, false, asks)
    requires |bids| == 0 || |asks| == 0 || bids[0].price <= asks[0].price
    ensures !Crossed(book)
  {
    if p, q :| p in book.bids && q in book.asks && book.bids[p] > 0.0 && book.asks[q] > 0.0 && p > q {
      var i :| 0 <= i < |bids| && bids[i] == Level(p, book.bids[p]);
      var j :| 0 <= j < |asks| && asks[j] == Level(q, book.asks[q]);
      assert i == 0 || Better(true, bids[0].price, bids[i].price);
      assert j == 0 || Better(false, asks[0].price, asks[j].price);
    }
  }

  // ----- agreement ----------------------------------------------------------------------

  /** A server history: each change of the book, with the rows it sent out. */
  predicate History(books: seq<Book>, deltas: seq<seq<Row>>) {
    |books| == |deltas| + 1 && forall k :: 0 <= k < |deltas| ==> ApplyRows(books[k], deltas[k]) == books[k + 1]
  }

  function Flatten(deltas: seq<seq<Row>>): seq<Row> {
    if deltas == [] then [] else Flatten(deltas[..|deltas| - 1]) + deltas[|deltas| - 1]
  }

  /** A client that takes the snapshot and every later delta holds exactly the server's book. */
  lemma {:induction false} ReplicaAgrees(books: seq<Book>, deltas: seq<seq<Row>>, snapshot: seq<Row>)
    requires History(books, deltas) && ApplyRows(Book(map[], map[]), snapshot) == books[0]
    ensures ApplyRows(Book(map[], map[]), snapshot + Flatten(deltas)) == books[|deltas|]
    decreases |deltas|
  {
    if deltas == [] {
      assert snapshot + Flatten(deltas) == snapshot;
    } else {
      var n := |deltas| - 1;
      ReplicaAgrees(books[..n + 1], deltas[..n], snapshot);
      assert snapshot + Flatten(deltas) == snapshot + Flatten(deltas[..n]) + deltas[n];
      ApplyConcat(Book(map[], map[]), snapshot + Flatten(deltas[..n]), deltas[n]);
    }
  }

  // ----- a subscription -----------------------------------------------------------------

  /** What changes a symbol's book. */
  datatype BookOp =
    | SetTo(bids: seq<Level>, asks: seq<Level>)
    | Consume(buy: bool, lots: real, limit: real)
    | Cross

  /** One message's emission is right for the book: the whole of it, sorted and positive, exactly
      when it is not crossed. */
  predicate Faithful(book: Book, e: Emission) {
    && (e.Snapshot? <==> !Crossed(book))
    && (e.Snapshot? ==> LevelsOf(book.bids, true, e.bids) && LevelsOf(book.asks, false, e.asks))
  }

  /** The n books before the one at `end` were crossed. */
  predicate CrossedTo(books: seq<Book>, end: nat, n: nat) {
    n <= end <= |books| && forall k :: end - n <= k < end ==> Crossed(books[k])
  }

  /** What a client made of the messages: each emission is right for the book the server held, and
      it resynchronized only after so many crossed books in a row. */
  predicate Followed(books: seq<Book>, emissions: seq<Emission>) {
    && |books| == |emissions|
    && forall k :: 0 <= k < |books| ==>
         && Faithful(books[k], emissions[k])
         && (emissions[k].Resync? ==> CrossedTo(books, k + 1, MAX_CROSSED))
  }

  lemma FollowedAppend(books: seq<Book>, emissions: seq<Emission>, book: Book, e: Emission, count: nat, count': nat)
    requires Followed(books, emissions) && Faithful(book, e) && CrossedTo(books, |books|, count)
    requires count' == (if Crossed(book) then count + 1 else 0) && (e.Resync? ==> count' >= MAX_CROSSED)
    ensures Followed(books + [book], emissions + [e]) && CrossedTo(books + [book], |books| + 1, count')
  {
    hide LevelsOf, Crossed;
  }

  lemma HistoryAppend(books: seq<Book>, deltas: seq<seq<Row>>, rows: seq<Row>, book: Book)
    requires History(books, deltas) && ApplyRows(books[|deltas|], rows) == book
    ensures History(books + [book], deltas + [rows])
  {
  }

  lemma NoneCrossed(books: seq<Book>)
    ensures CrossedTo(books, |books|, 0)
  {
  }

  lemma NoneSeen()
    ensures Followed([], []) && CrossedTo([], 0, 0)
  {
  }

  lemma NothingSent(book: Book)
    ensures ApplyRows(book, []) == book
  {
  }

  method Change(st: SymbolState, op: BookOp) returns (rows: seq<Row>)
    requires st.Valid()
    modifies st
    ensures st.Valid() && ApplyRows(old(st.View()), rows) == st.View()
  {
    match op {
      case SetTo(bids, asks) => rows := st.SetBook(bids, asks);
      case Consume(buy, lots, limit) =>
        var _, sent, _ := st.ConsumeBounded(buy, lots, limit);
        rows := sent;
      case Cross => rows := st.CrossRows();
    }
  }

  /** A new subscription: its first message is the whole book. */
  method Subscribe(st: SymbolState) returns (replica: Replica, e: Emission)
    requires st.Valid()
    ensures fresh(replica) && replica.View() == st.View() && Faithful(st.View(), e)
    ensures replica.crossedCount == if Crossed(st.View()) then 1 else 0
    ensures !e.Resync?
  {
    replica := new Replica();
    var rows := st.SnapshotRows();
    e := replica.Fold(rows);
  }

  /** A client through any changes of the book: it takes the snapshot and every later message, none
      being sent for a change without rows, and subscribes anew when it must. It always holds
      exactly the server's book, and everything it emits is that book. */
  method Follow(st: SymbolState, ops: seq<BookOp>) returns (replica: Replica, emissions: seq<Emission>,
      ghost seen: seq<Book>, ghost books: seq<Book>, ghost deltas: seq<seq<Row>>)
    requires st.Valid()
    modifies st
    ensures st.Valid() && fresh(replica) && replica.View() == st.View()
    ensures History(books, deltas) && |deltas| == |ops| && books[0] == old(st.View()) && books[|ops|] == st.View()
    ensures Followed(seen, emissions) && seen != [] && seen[0] == old(st.View()) && seen[|seen| - 1] == st.View()
  {
    hide ApplyRows, LevelsOf, Crossed, CrossedTo, Followed, Positive;
    var e;
    replica, e := Subscribe(st);
    books, deltas, seen, emissions := [st.View()], [], [], [];
    NoneSeen();
    FollowedAppend([], [], st.View(), e, 0, replica.crossedCount);
    assert [] + [st.View()] == [st.View()] && [] + [e] == [e];
    seen, emissions := [st.View()], [e];
    for i := 0 to |ops|
      invariant st.Valid() && fresh(replica) && replica.View() == st.View()
      invariant |deltas| == i && |books| == i + 1 && History(books, deltas)
      invariant books[0] == old(st.View()) && books[i] == st.View()
      invariant Followed(seen, emissions) && CrossedTo(seen, |seen|, replica.crossedCount)
      invariant seen != [] && seen[0] == old(st.View()) && seen[|seen| - 1] == st.View()
    {
      var rows := Change(st, ops[i]);
      HistoryAppend(books, deltas, rows, st.View());
      books, deltas := books + [st.View()], deltas + [rows];
      if rows == [] {
        NothingSent(books[i]);
      } else {
        ghost var count := replica.crossedCount;
        e := replica.Fold(rows);
        FollowedAppend(seen, emissions, st.View(), e, count, replica.crossedCount);
        seen, emissions := seen + [st.View()], emissions + [e];
        if e.Resync? {
          replica, e := Subscribe(st);
          NoneCrossed(seen);
          FollowedAppend(seen, emissions, st.View(), e, 0, replica.crossedCount);
          seen, emissions := seen + [st.View()], emissions + [e];
        }
      }
    }
  }
}
