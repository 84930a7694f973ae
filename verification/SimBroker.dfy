/**
 The simulated broker of one symbol: orders, trades, positions and cash, and every transition
 that touches them. Lots and prices are reals.
 */
module SimBroker {
  import opened Domain
  import opened OrderBook

  datatype Status =
    | New | PartiallyFilled | PendingCancel
    | Filled | Canceled | Rejected | RejectedByExchange | DeniedByBroker | Expired | FailedOrder | DoneForDay

  predicate Active(s: Status) {
    s == New || s == PartiallyFilled || s == PendingCancel
  }

  /** limit None: a market order. */
  datatype SimOrder = SimOrder(
    account: int, buy: bool, limit: Option<real>, postOnly: bool, qty: real, executed: real, status: Status,
        placedAt: int)
  {
    predicate Live() { Active(status) }
    function Rest(): real { qty - executed }
  }

  /** matched: false for a fill injected from outside the matching. */
  datatype Trade = Trade(order: int, account: int, buy: bool, lots: real, price: real, matched: bool)

  datatype Position = Position(qty: real, avg: real)

  /** A position's quantity and worth at a reference point, trades counted from zero. */
  datatype Origin = Origin(qty: real, worth: real)

  function Sign(buy: bool, x: real): real {
    if buy then x else -x
  }

  // ----- sums over the trades -----------------------------------------------------------

  function Matched(trades: seq<Trade>, order: int): real {
    if trades == [] then 0.0
    else
      var t := trades[|trades| - 1];
      Matched(trades[..|trades| - 1], order) + if t.order == order && t.matched then t.lots else 0.0
  }

  function Net(trades: seq<Trade>, account: int): real {
    if trades == [] then 0.0
    else
      var t := trades[|trades| - 1];
      Net(trades[..|trades| - 1], account) + if t.account == account then Sign(t.buy, t.lots) else 0.0
  }

  function Paid(trades: seq<Trade>, account: int): real {
    if trades == [] then 0.0
    else
      var t := trades[|trades| - 1];
      Paid(trades[..|trades| - 1], account) + if t.account == account then Pay(Sign(t.buy, t.lots), t.price) else 0.0
  }

  lemma TradeAppend(trades: seq<Trade>, t: Trade, order: int, account: int)
    ensures Matched(trades + [t], order) == Matched(trades, order) + if t.order == order &&
        t.matched then t.lots else 0.0
    ensures Net(trades + [t], account) == Net(trades, account) + if t.account == account then Sign(t.buy,
        t.lots) else 0.0
    ensures Paid(trades + [t], account) ==
            Paid(trades, account) + if t.account == account then Pay(Sign(t.buy, t.lots), t.price) else 0.0
  {
    assert (trades + [t])[..|trades|] == trades;
  }

  // ----- one fill on a position ---------------------------------------------------------

  /** What a fill must do to a position and the cash beside it: the quantity moves by the signed
      lots, and cash less book cost falls by what was paid. */
  predicate FillLaw(p: Position, cash: real, p': Position, cash': real, signed: real, price: real) {
    p'.qty == p.qty + signed && cash' - BookCost(p') == cash - BookCost(p) - Pay(signed, price)
  }

  function BookCost(p: Position): real {
    p.avg * p.qty
  }

  /** What signed lots cost, negative for a sell. */
  function Pay(signed: real, price: real): real {
    signed * price
  }

  function Abs(x: real): real {
    if x < 0.0 then -x else x
  }

  /** applyFillToAccountLocked: average in, realize on the way out. */
  method ApplyFill(pos: Position, cash: real, buy: bool, lots: real, price: real) returns (pos': Position, cash': real)
    requires lots > 0.0
    ensures FillLaw(pos, cash, pos', cash', Sign(buy, lots), price)
    ensures (pos.qty == 0.0 || (pos.qty > 0.0) == buy) ==> cash' == cash
    ensures pos.qty != 0.0 && (pos.qty > 0.0) != buy ==>
              && (lots < Abs(pos.qty) ==> pos'.avg == pos.avg)
              && (lots == Abs(pos.qty) ==> pos' == Position(0.0, 0.0))
              && (lots > Abs(pos.qty) ==> pos'.avg == price)
  {
    hide FillLaw;
    pos', cash' := pos, cash;
    var signed := if buy then lots else -lots;
    if pos.qty == 0.0 || (pos.qty > 0.0) == (signed > 0.0) {
      var total := Abs(pos.qty) + lots;
      pos' := Position(pos.qty + signed, (pos.avg * Abs(pos.qty) + price * lots) / total);
      Averaged(pos, cash, lots, price, buy, pos');
    } else {
      var closeLots := if lots > Abs(pos.qty) then Abs(pos.qty) else lots;
      var dir := if pos.qty < 0.0 then -1.0 else 1.0;
      cash' := cash + (price - pos.avg) * closeLots * dir;
      var qty := pos.qty + signed;
      pos' := Position(qty, if qty == 0.0 then 0.0 else if (qty > 0.0) != (dir > 0.0) then price else pos.avg);
      Realized(pos, cash, lots, price, buy, closeLots, dir, pos', cash');
    }
  }

  lemma Averaged(pos: Position, cash: real, lots: real, price: real, buy: bool, pos': Position)
    requires lots > 0.0 && (pos.qty == 0.0 || (pos.qty > 0.0) == buy)
    requires pos' == Position(pos.qty + Sign(buy, lots),
        (pos.avg * Abs(pos.qty) + price * lots) / (Abs(pos.qty) + lots))
    ensures FillLaw(pos, cash, pos', cash, Sign(buy, lots), price)
  {
    var total := Abs(pos.qty) + lots;
    var x := pos.avg * Abs(pos.qty) + price * lots;
    assert x / total * total == x;
    assert pos.qty + Sign(buy, lots) == Sign(buy, total);
    if buy {
      assert x / total * (pos.qty + lots) == x;
    } else {
      assert x / total * (pos.qty - lots) == -x;
    }
  }

  lemma Realized(pos: Position, cash: real, lots: real, price: real, buy: bool, closed: real, dir: real,
      pos': Position, cash': real)
    requires lots > 0.0 && pos.qty != 0.0 && (pos.qty > 0.0) != buy
    requires closed == (if lots > Abs(pos.qty) then Abs(pos.qty) else lots) && dir == (if pos.qty < 0.0
        then -1.0 else 1.0)
    requires cash' == cash + (price - pos.avg) * closed * dir && pos'.qty == pos.qty + Sign(buy, lots)
    requires pos'.avg == if pos'.qty == 0.0 then 0.0 else if (pos'.qty > 0.0) != (dir > 0.0) then price else pos.avg
    ensures FillLaw(pos, cash, pos', cash', Sign(buy, lots), price)
  {
    hide FillLaw;
    var v, q, s := pos.avg, pos.qty, Sign(buy, lots);
    RealizedCash(price - v, q, lots, buy, closed, dir);
    RealizedPrice(v, q, lots, price, buy, dir, pos');
    assert pos == Position(q, v) && pos' == Position(q + s, pos'.avg);
    if lots > Abs(q) {
      assert cash' == cash + (price - v) * q;
      FlipLaw(cash, v, price, q, s);
    } else {
      assert cash' == cash + (price - v) * -s;
      CloseLaw(cash, v, price, q, s, pos'.avg);
    }
  }

  lemma RealizedCash(x: real, q: real, lots: real, buy: bool, closed: real, dir: real)
    requires lots > 0.0 && q != 0.0 && (q > 0.0) != buy
    requires closed == (if lots > Abs(q) then Abs(q) else lots) && dir == (if q < 0.0 then -1.0 else 1.0)
    ensures x * closed * dir == x * if lots > Abs(q) then q else -Sign(buy, lots)
  {
    TimesSign(x, closed, dir, if lots > Abs(q) then q else -Sign(buy, lots));
  }

  lemma RealizedPrice(v: real, q: real, lots: real, price: real, buy: bool, dir: real, pos': Position)
    requires lots > 0.0 && q != 0.0 && (q > 0.0) != buy && dir == (if q < 0.0 then -1.0 else 1.0)
    requires pos'.qty == q + Sign(buy, lots)
    requires pos'.avg == if pos'.qty == 0.0 then 0.0 else if (pos'.qty > 0.0) != (dir > 0.0) then price else v
    ensures lots > Abs(q) ==> pos' == Position(q + Sign(buy, lots), price)
    ensures lots <= Abs(q) ==> q + Sign(buy, lots) != 0.0 ==> pos'.avg == v
  {
  }

  lemma TimesSign(x: real, closed: real, dir: real, signed: real)
    requires dir == 1.0 || dir == -1.0
    requires signed == if dir == 1.0 then closed else -closed
    ensures x * closed * dir == x * signed
  {
  }

  /** Closing s lots of a position at v: the cash made pays for the book cost that leaves. */
  lemma CloseLaw(cash: real, v: real, price: real, q: real, s: real, avg: real)
    requires q + s != 0.0 ==> avg == v
    ensures FillLaw(Position(q, v), cash, Position(q + s, avg), cash + (price - v) * -s, s, price)
  {
    assert (price - v) * -s == v * s - s * price;
    if q + s == 0.0 {
      assert q == -s;
    } else {
      assert v * (q + s) == v * q + v * s;
    }
  }

  lemma FlipLaw(cash: real, v: real, price: real, q: real, s: real)
    ensures FillLaw(Position(q, v), cash, Position(q + s, price), cash + (price - v) * q, s, price)
  {
    assert price * (q + s) == price * q + s * price;
    assert (price - v) * q == price * q - v * q;
  }

  // ----- conservation -------------------------------------------------------------------

  type Orders = map<int, SimOrder>

  /** Each order has executed exactly its matched trades, never more than its size, and is
      filled exactly when it has executed all of it. */
  ghost predicate OrdersOK(orders: Orders, trades: seq<Trade>) {
    && (forall id :: id in orders ==>
          && orders[id].executed == Matched(trades, id)
          && 0.0 <= orders[id].executed <= orders[id].qty && orders[id].qty > 0.0
          && (orders[id].status == Filled <==> orders[id].executed == orders[id].qty))
    && (forall i :: 0 <= i < |trades| && trades[i].order !in orders ==> !trades[i].matched)
  }

  /** Each account's position and worth are those of its origin plus its trades. */
  ghost predicate AccountsOK(positions: map<int, Position>, cash: map<int, real>, origins: map<int, Origin>,
      trades: seq<Trade>) {
    && positions.Keys == cash.Keys == origins.Keys
    && forall a :: a in positions ==>
         && positions[a].qty == origins[a].qty + Net(trades, a)
         && cash[a] - BookCost(positions[a]) == origins[a].worth - Paid(trades, a)
  }

  /** What signed lots bought at a price make when marked at m. */
  function GainOn(signed: real, price: real, m: real): real {
    signed * (m - price)
  }

  function Scale(m: real, x: real): real {
    m * x
  }

  /** What was made on an account's trades if everything is marked at m. */
  function Gain(trades: seq<Trade>, account: int, m: real): real {
    if trades == [] then 0.0
    else
      var t := trades[|trades| - 1];
      Gain(trades[..|trades| - 1], account, m) + if t.account == account then GainOn(Sign(t.buy, t.lots), t.price,
          m) else 0.0
  }

  lemma {:induction false} GainSplits(trades: seq<Trade>, account: int, m: real)
    ensures Gain(trades, account, m) == Scale(m, Net(trades, account)) - Paid(trades, account)
  {
    if trades != [] {
      hide Pay, GainOn, Scale;
      GainSplits(trades[..|trades| - 1], account, m);
      var t := trades[|trades| - 1];
      GainStep(m, Sign(t.buy, t.lots), t.price, Net(trades[..|trades| - 1], account));
    } else {
      assert Scale(m, 0.0) == 0.0;
    }
  }

  lemma GainStep(m: real, x: real, price: real, net: real)
    ensures Scale(m, net + x) == Scale(m, net) + GainOn(x, price, m) + Pay(x, price)
    ensures Scale(m, net + 0.0) == Scale(m, net)
  {
  }

  lemma Marked(m: real, avg: real, qty: real, qty0: real, net: real)
    requires qty == qty0 + net
    ensures (m - avg) * qty == m * qty0 + Scale(m, net) - avg * qty
  {
  }

  /** Mark to market: at every price m, equity is the origin's equity plus the gain of every
      fill since, through averaging, partial closes, exact flats and flips. */
  lemma MarkToMarket(positions: map<int, Position>, cash: map<int, real>, origins: map<int, Origin>,
                     trades: seq<Trade>, account: int, m: real)
    requires AccountsOK(positions, cash, origins, trades) && account in positions
    ensures cash[account] + (m - positions[account].avg) * positions[account].qty ==
            origins[account].worth + m * origins[account].qty + Gain(trades, account, m)
  {
    hide Gain, Net, Paid, Scale;
    GainSplits(trades, account, m);
    Marked(m, positions[account].avg, positions[account].qty, origins[account].qty, Net(trades, account));
  }

  /** One trade is added, with the position it leaves. */
  lemma AccountsStep(positions: map<int, Position>, cash: map<int, real>, origins: map<int, Origin>, trades: seq<Trade>,
                     t: Trade, pos: Position, c: real)
    requires AccountsOK(positions, cash, origins, trades) && t.account in positions
    requires FillLaw(positions[t.account], cash[t.account], pos, c, Sign(t.buy, t.lots), t.price)
    ensures AccountsOK(positions[t.account := pos], cash[t.account := c], origins, trades + [t])
  {
    hide BookCost, Pay, Net, Paid;
    forall a | a in positions
      ensures var p', c' := positions[t.account := pos][a], cash[t.account := c][a];
              && p'.qty == origins[a].qty + Net(trades + [t], a)
              && c' - BookCost(p') == origins[a].worth - Paid(trades + [t], a)
    {
      TradeAppend(trades, t, t.order, a);
    }
  }

  /** A matched trade is added with the order it executes, or an unmatched one with none. */
  lemma OrdersStep(orders: Orders, trades: seq<Trade>, t: Trade, o: SimOrder)
    requires OrdersOK(orders, trades) && t.order in orders
    requires if t.matched
             then o.executed == orders[t.order].executed + t.lots && 0.0 <= o.executed <= o.qty && o.qty > 0.0
                  && (o.status == Filled <==> o.executed == o.qty)
             else o == orders[t.order]
    ensures OrdersOK(orders[t.order := o], trades + [t])
  {
    forall id | id in orders ensures Matched(trades + [t], id) == Matched(trades, id) + if id == t.order &&
        t.matched then t.lots else 0.0 {
      TradeAppend(trades, t, id, 0);
    }
  }

  /** Terminal orders are as they were, and no order is forgotten. */
  ghost predicate TerminalKept(before: Orders, after: Orders) {
    forall id :: id in before ==> id in after && (!before[id].Live() ==> after[id] == before[id])
  }

  /** Only this order changed, in what it executed and its status. */
  ghost predicate OnlyFilled(before: Orders, after: Orders, id: int) {
    id in before && id in after && after == before[id := before[id].(executed := after[id].executed,
        status := after[id].status)]
  }

  /** Order ids are issued in order, and a client id names one order of its account. */
  ghost predicate IdsOK(orders: Orders, clientIds: map<(int, int), int>, trades: seq<Trade>, nextId: int,
      accounts: set<int>) {
    && (forall id :: id in orders ==> id < nextId && orders[id].account in accounts)
    && (forall i :: 0 <= i < |trades| ==> trades[i].order < nextId)
    && (forall c :: c in clientIds ==> clientIds[c] in orders && orders[clientIds[c]].account == c.0)
    && (forall c, d :: c in clientIds && d in clientIds && clientIds[c] == clientIds[d] ==> c == d)
  }

  lemma AccountOf(orders: Orders, clientIds: map<(int, int), int>, trades: seq<Trade>, nextId: int, accounts: set<int>,
                  positions: map<int, Position>, cash: map<int, real>, origins: map<int, Origin>, id: int)
    requires IdsOK(orders, clientIds, trades, nextId, accounts) && id in orders && positions.Keys == accounts
    requires AccountsOK(positions, cash, origins, trades)
    ensures orders[id].account in positions && orders[id].account in cash && orders[id].account in origins
    ensures cash.Keys == accounts
  {
  }

  function FlatPositions(funds: map<int, real>): map<int, Position> {
    map a | a in funds :: Position(0.0, 0.0)
  }

  function FreshOrigins(funds: map<int, real>): map<int, Origin> {
    map a | a in funds :: Origin(0.0, funds[a])
  }

  lemma NothingHappened(funds: map<int, real>, nextId: int)
    ensures OrdersOK(map[], []) && IdsOK(map[], map[], [], nextId, funds.Keys)
    ensures AccountsOK(FlatPositions(funds), funds, FreshOrigins(funds), []) && FlatPositions(funds).Keys == funds.Keys
  {
  }

  lemma IdsStep(orders: Orders, clientIds: map<(int, int), int>, trades: seq<Trade>, nextId: int, accounts: set<int>,
                id: int, o: SimOrder, more: seq<Trade>)
    requires IdsOK(orders, clientIds, trades, nextId, accounts) && id in orders && o.account == orders[id].account
    requires forall i :: 0 <= i < |more| ==> more[i].order == id
    ensures IdsOK(orders[id := o], clientIds, trades + more, nextId, accounts)
    ensures orders[id].account in accounts
  {
  }

  lemma IdsNew(orders: Orders, clientIds: map<(int, int), int>, trades: seq<Trade>, nextId: int, accounts: set<int>,
               cid: int, o: SimOrder)
    requires IdsOK(orders, clientIds, trades, nextId, accounts) && o.account in accounts
    requires (o.account, cid) !in clientIds
    ensures IdsOK(orders[nextId := o], clientIds[(o.account, cid) := nextId], trades, nextId + 1, accounts)
    ensures nextId !in orders && forall i :: 0 <= i < |trades| ==> trades[i].order < nextId
  {
  }

  lemma OrdersNew(orders: Orders, trades: seq<Trade>, id: int, o: SimOrder)
    requires OrdersOK(orders, trades) && id !in orders && o.executed == 0.0 < o.qty && o.status == New
    requires forall i :: 0 <= i < |trades| ==> trades[i].order < id
    ensures OrdersOK(orders[id := o], trades)
  {
    NoTradesYet(trades, id);
  }

  /** An active order's status changes without a fill. */
  lemma OrdersRestatus(orders: Orders, trades: seq<Trade>, id: int, status: Status)
    requires OrdersOK(orders, trades) && id in orders && orders[id].Live() && status != Filled
    ensures OrdersOK(orders[id := orders[id].(status := status)], trades)
    ensures TerminalKept(orders, orders[id := orders[id].(status := status)])
  {
  }

  lemma OrderAt(orders: Orders, trades: seq<Trade>, id: int)
    requires OrdersOK(orders, trades) && id in orders
    ensures 0.0 <= orders[id].executed <= orders[id].qty && orders[id].qty > 0.0
    ensures orders[id].status == Filled <==> orders[id].executed == orders[id].qty
  {
  }

  /** An account's origin restarts at a forced position. */
  lemma AccountsReset(positions: map<int, Position>, cash: map<int, real>, origins: map<int, Origin>,
      trades: seq<Trade>,
                      account: int, p: Position)
    requires AccountsOK(positions, cash, origins, trades) && account in positions
    ensures AccountsOK(positions[account := p], cash,
                       origins[account := Origin(p.qty - Net(trades, account),
                                                 cash[account] - BookCost(p) + Paid(trades, account))], trades)
  {
  }

  // ----- the broker ---------------------------------------------------------------------

  datatype Answer = Placed(id: int) | InvalidArgument | AlreadyExists | ResourceExhausted | NotFound | FailedPrecondition | Done

  class Sim {
    const book: SymbolState
    const accounts: set<int>
    const quotaLimit: int
    const quotaWindow: int
    var orders: Orders
    var clientIds: map<(int, int), int>
    var trades: seq<Trade>
    var positions: map<int, Position>
    var cash: map<int, real>
    var nextId: int
    var quotaStart: int
    var quotaUsed: int
    ghost var origins: map<int, Origin>

    constructor (book: SymbolState, funds: map<int, real>, quotaLimit: int, quotaWindow: int)
      requires book.Valid()
      ensures this.book == book && Valid() && orders == map[] && trades == [] && cash == funds
    {
      hide OrdersOK, AccountsOK, IdsOK, Positive;
      this.book, this.quotaLimit, this.quotaWindow := book, quotaLimit, quotaWindow;
      accounts := funds.Keys;
      orders, clientIds, trades, nextId := map[], map[], [], 100000001;
      positions := FlatPositions(funds);
      cash := funds;
      quotaStart, quotaUsed := 0, 0;
      origins := FreshOrigins(funds);
      NothingHappened(funds, 100000001);
    }

    ghost predicate Valid()
      reads this, book
    {
      && book.Valid() && OrdersOK(orders, trades) && AccountsOK(positions, cash, origins, trades)
      && positions.Keys == accounts && IdsOK(orders, clientIds, trades, nextId, accounts)
    }

    /** A placement is refused before it is admitted: a client id is used at most once. */
    method PlaceOrder(now: int, account: int, cid: int, buy: bool, limit: Option<real>, postOnly: bool, qty: real)
      returns (a: Answer)
      requires Valid() && account in accounts
      modifies `orders, `clientIds, `nextId, `quotaStart, `quotaUsed
      ensures Valid()
      ensures a.InvalidArgument? <==> qty <= 0.0 || (limit.Some? && limit.value <= 0.0)
      ensures a.AlreadyExists? <==> !a.InvalidArgument? && (account, cid) in old(clientIds)
      ensures var used := if now - old(quotaStart) >= quotaWindow then 0 else old(quotaUsed);
              && (a.ResourceExhausted? <==> !a.InvalidArgument? && !a.AlreadyExists? && used >= quotaLimit)
              && (a.Placed? ==> quotaUsed == used + 1)
      ensures a.Placed? ==>
                && a.id !in old(orders)
                && orders == old(orders)[a.id := SimOrder(account, buy, limit, postOnly, qty, 0.0, New, now)]
                && clientIds == old(clientIds)[(account, cid) := a.id]
      ensures !a.Placed? ==> orders == old(orders) && clientIds == old(clientIds)
    {
      hide OrdersOK, AccountsOK, IdsOK;
      if qty <= 0.0 || (limit.Some? && limit.value <= 0.0) {
        return InvalidArgument;
      }
      if (account, cid) in clientIds {
        return AlreadyExists;
      }
      if now - quotaStart >= quotaWindow {
        quotaStart, quotaUsed := now, 0;
      }
      if quotaUsed >= quotaLimit {
        return ResourceExhausted;
      }
      quotaUsed := quotaUsed + 1;
      var o := SimOrder(account, buy, limit, postOnly, qty, 0.0, New, now);
      IdsNew(orders, clientIds, trades, nextId, accounts, cid, o);
      OrdersNew(orders, trades, nextId, o);
      orders := orders[nextId := o];
      clientIds := clientIds[(account, cid) := nextId];
      a := Placed(nextId);
      nextId := nextId + 1;
    }

    /** fillOrderLocked: one fill, clamped to what the order has left. */
    method Fill(id: int, lots: real, price: real)
      requires Valid() && id in orders
      modifies `orders, `trades, `positions, `cash, book`last
      ensures Valid() && OnlyFilled(old(orders), orders, id) && TerminalKept(old(orders), orders)
      ensures if lots <= 0.0 || !old(orders)[id].Live()
              then orders == old(orders) && trades == old(trades) && positions == old(positions) && cash == old(cash)
              else
                && var o := old(orders)[id];
                && var n := if lots > o.Rest() then o.Rest() else lots;
                && orders[id].executed == o.executed + n
                && orders[id].status == (if orders[id].executed >= o.qty then Filled else PartiallyFilled)
                && trades == old(trades) + [Trade(id, o.account, o.buy, n, price, true)]
                && book.last == price
    {
      hide OrdersOK, AccountsOK, IdsOK, FillLaw, BookCost;
      var o := orders[id];
      if lots <= 0.0 || !o.Live() {
        return;
      }
      OrderAt(orders, trades, id);
      AccountOf(orders, clientIds, trades, nextId, accounts, positions, cash, origins, id);
      var lots := if lots > o.qty - o.executed then o.qty - o.executed else lots;
      var executed := o.executed + lots;
      var o' := o.(executed := executed, status := if executed >= o.qty then Filled else PartiallyFilled);
      var pos, c := ApplyFill(positions[o.account], cash[o.account], o.buy, lots, price);
      var t := Trade(id, o.account, o.buy, lots, price, true);
      AccountsStep(positions, cash, origins, trades, t, pos, c);
      OrdersStep(orders, trades, t, o');
      IdsStep(orders, clientIds, trades, nextId, accounts, id, o', [t]);
      orders := orders[id := o'];
      positions := positions[o.account := pos];
      cash := cash[o.account := c];
      trades := trades + [t];
      book.last := price;
    }

    /** InjectFill: the broker contradicts its own ack. The trade and the position are real, the
        order does not move. */
    method InjectFill(id: int, lots: real, price: real) returns (a: Answer)
      requires Valid()
      modifies `trades, `positions, `cash
      ensures Valid()
      ensures a == (if id !in orders then NotFound else if lots <= 0.0 then InvalidArgument else Done)
      ensures trades == old(trades) +
                        if a == Done then [Trade(id, orders[id].account, orders[id].buy, lots, price, false)] else []
    {
      hide OrdersOK, AccountsOK, IdsOK, FillLaw, BookCost;
      if id !in orders {
        return NotFound;
      }
      if lots <= 0.0 {
        return InvalidArgument;
      }
      var o := orders[id];
      AccountOf(orders, clientIds, trades, nextId, accounts, positions, cash, origins, id);
      var pos, c := ApplyFill(positions[o.account], cash[o.account], o.buy, lots, price);
      var t := Trade(id, o.account, o.buy, lots, price, false);
      AccountsStep(positions, cash, origins, trades, t, pos, c);
      OrdersStep(orders, trades, t, o);
      IdsStep(orders, clientIds, trades, nextId, accounts, id, o, [t]);
      assert orders[id := o] == orders;
      positions := positions[o.account := pos];
      cash := cash[o.account := c];
      trades := trades + [t];
      a := Done;
    }

    /** Ends an active order without a fill. */
    method Terminate(id: int, status: Status)
      requires Valid() && id in orders && orders[id].Live() && status != Filled
      modifies `orders
      ensures Valid() && orders == old(orders)[id := old(orders)[id].(status := status)]
      ensures TerminalKept(old(orders), orders)
    {
      hide OrdersOK, AccountsOK, IdsOK, TerminalKept;
      OrdersRestatus(orders, trades, id, status);
      IdsStep(orders, clientIds, trades, nextId, accounts, id, orders[id].(status := status), []);
      assert trades + [] == trades;
      orders := orders[id := orders[id].(status := status)];
    }

    /** KillOrder: the exchange ends an active order with a given terminal status. */
    method KillOrder(id: int, status: Status) returns (a: Answer)
      requires Valid() && !Active(status) && status != Filled
      modifies `orders
      ensures Valid() && TerminalKept(old(orders), orders)
      ensures a == (if id !in old(orders) then NotFound else if !old(orders)[id].Live() then FailedPrecondition
          else Done)
      ensures orders == if a == Done then old(orders)[id := old(orders)[id].(status := status)] else old(orders)
    {
      if id !in orders {
        return NotFound;
      }
      if !orders[id].Live() {
        return FailedPrecondition;
      }
      Terminate(id, status);
      a := Done;
    }

    /** CancelOrder: at once, or acknowledged now and carried out later. */
    method CancelOrder(account: int, id: int, later: bool) returns (a: Answer)
      requires Valid()
      modifies `orders
      ensures Valid() && TerminalKept(old(orders), orders)
      ensures a == (if id !in old(orders) || old(orders)[id].account != account then NotFound
                    else if !old(orders)[id].Live() then FailedPrecondition else Done)
      ensures orders == if a == Done then old(orders)[id := old(orders)[id].(status := if later
          then PendingCancel else Canceled)]
                        else old(orders)
    {
      if id !in orders || orders[id].account != account {
        return NotFound;
      }
      if !orders[id].Live() {
        return FailedPrecondition;
      }
      Terminate(id, if later then PendingCancel else Canceled);
      a := Done;
    }

    /** The deferred half of a cancel: what filled in the meantime stays filled. */
    method FinishCancel(id: int)
      requires Valid()
      modifies `orders
      ensures Valid() && TerminalKept(old(orders), orders)
      ensures id in old(orders) && old(orders)[id].Live() ==>
          orders == old(orders)[id := old(orders)[id].(status := Canceled)]
    {
      if id in orders && orders[id].Live() {
        Terminate(id, Canceled);
      }
    }

    /** SetPosition: the account's origin restarts at the forced position. */
    method SetPosition(account: int, qty: real, avg: real)
      requires Valid() && account in accounts
      modifies `positions, `origins
      ensures Valid() && positions == old(positions)[account := if qty == 0.0 then Position(0.0, 0.0)
          else Position(qty, avg)]
    {
      hide OrdersOK, IdsOK, Net, Paid;
      assert account in cash;
      hide AccountsOK;
      var p := if qty == 0.0 then Position(0.0, 0.0) else Position(qty, avg);
      AccountsReset(positions, cash, origins, trades, account, p);
      origins := origins[account := Origin(p.qty - Net(trades, account), cash[account] - BookCost(p) + Paid(trades,
          account))];
      positions := positions[account := p];
    }

    /** takerExecLocked: the order against the book within its limit; what a market order could
        not get is withdrawn. */
    method TakerExec(id: int, limit: real) returns (ghost got: real, ghost prices: seq<real>)
      requires Valid() && id in orders && orders[id].Live()
      modifies `orders, `trades, `positions, `cash, book
      ensures Valid() && OnlyFilled(old(orders), orders, id) && TerminalKept(old(orders), orders)
      ensures var o := old(orders)[id];
              && PricesOf(old(if o.buy then book.asks else book.bids), !o.buy, prices)
              && (forall p :: p in prices ==> p in old(if o.buy then book.asks else book.bids))
              && var reach := Reachable(o.buy, old(if o.buy then book.asks else book.bids), prices, limit);
              && got == (if o.Rest() <= reach then o.Rest() else reach)
              && orders[id].executed == o.executed + got
              && (o.limit == None ==> !orders[id].Live())
              && (o.limit == None && orders[id].executed == 0.0 ==> orders[id].status == RejectedByExchange)
              && (o.limit == None && 0.0 < orders[id].executed < o.qty ==> orders[id].status == Canceled)
    {
      hide OrdersOK, AccountsOK, IdsOK, Positive, Reachable, Taken, TerminalKept, Greedy, PricesOf, Less, ApplyRows;
      OrderAt(orders, trades, id);
      var o := orders[id];
      ghost var side := if o.buy then book.asks else book.bids;
      var fills, _, sorted := book.ConsumeBounded(o.buy, o.qty - o.executed, limit);
      prices := sorted;
      GreedyIsExact(o.buy, side, prices, o.Rest(), limit, fills);
      GreedySizes(o.buy, side, prices, o.Rest(), limit, fills);
      got := Taken(fills);
      FillAll(id, fills);
      if o.limit == None && orders[id].Live() {
        Terminate(id, if orders[id].executed == 0.0 then RejectedByExchange else Canceled);
      }
      OthersKept(old(orders), orders, id);
      OrderAt(orders, trades, id);
    }

    /** execOrderLocked: a post-only order that would cross is rejected whole, a limit order takes
        only if it crosses, a market order takes what there is. */
    method ExecOrder(id: int)
      requires Valid()
      modifies `orders, `trades, `positions, `cash, book
      ensures Valid() && TerminalKept(old(orders), orders)
      ensures id in old(orders) && old(orders)[id].Live() ==> OnlyFilled(old(orders), orders, id)
      ensures id !in old(orders) || !old(orders)[id].Live() ==> orders == old(orders) && trades == old(trades)
      ensures id in old(orders) && old(orders)[id].Live() && old(orders)[id].limit.Some? ==>
                var o := old(orders)[id];
                var crossing := Crosses(old(book.View()), o.buy, o.limit.value);
                && (o.postOnly || !crossing ==> trades == old(trades) && book.View() == old(book.View()))
                && orders[id].status == (if o.postOnly && crossing then RejectedByExchange
                                         else if !crossing then o.status else orders[id].status)
      ensures id in old(orders) && old(orders)[id].Live() && old(orders)[id].limit == None ==> !orders[id].Live()
    {
      hide OrdersOK, AccountsOK, IdsOK, Positive, Reachable;
      if id !in orders || !orders[id].Live() {
        return;
      }
      var o := orders[id];
      if o.limit.Some? {
        var best := BestPrice(if o.buy then book.asks else book.bids, !o.buy);
        var crossing := best.Some? && if o.buy then o.limit.value >= best.value else o.limit.value <= best.value;
        if o.postOnly {
          if crossing {
            Terminate(id, RejectedByExchange);
          }
          return;
        }
        if crossing {
          ghost var _, _ := TakerExec(id, o.limit.value);
        }
        return;
      }
      ghost var _, _ := TakerExec(id, 0.0);
    }

    /** FillOrder: a forced fill of an active order, at its own price unless one is given. */
    method FillOrder(id: int, lots: real, price: real) returns (a: Answer)
      requires Valid()
      modifies `orders, `trades, `positions, `cash, book`last
      ensures Valid() && TerminalKept(old(orders), orders)
      ensures a.NotFound? <==> id !in old(orders)
      ensures a.FailedPrecondition? <==> id in old(orders) && !old(orders)[id].Live()
      ensures a == Done ==>
                && OnlyFilled(old(orders), orders, id) && |trades| == |old(trades)| + 1
                && (lots <= 0.0 ==> orders[id].status == Filled)
                && (price > 0.0 ==> trades[|old(trades)|].price == price)
      ensures a != Done ==> orders == old(orders) && trades == old(trades)
    {
      hide OrdersOK, AccountsOK, IdsOK, Positive;
      if id !in orders {
        return NotFound;
      }
      if !orders[id].Live() {
        return FailedPrecondition;
      }
      OrderAt(orders, trades, id);
      var o := orders[id];
      var n := if lots <= 0.0 then o.qty - o.executed else lots;
      var p := price;
      if p <= 0.0 {
        p := if o.limit.Some? then o.limit.value else 0.0;
        if p <= 0.0 {
          p := book.last;
        }
        if p <= 0.0 {
          return InvalidArgument;
        }
      }
      Fill(id, n, p);
      a := Done;
    }

    function LiveIds(): set<int>
      reads this
    {
      set id | id in orders && orders[id].Live()
    }

    /** ordersByTimeLocked: the active orders in the order they were placed. */
    method OrdersByTime() returns (queue: seq<int>)
      ensures multiset(queue) == multiset(LiveIds()) && ByTime(orders, queue)
      ensures forall i :: 0 <= i < |queue| ==> queue[i] in orders && orders[queue[i]].Live()
      ensures forall i, j :: 0 <= i < j < |queue| ==> queue[i] != queue[j]
    {
      var out: seq<int> := [];
      var todo := orders.Keys;
      ghost var seen: set<int> := {};
      while todo != {}
        invariant todo <= orders.Keys
        invariant seen == set id | id in orders && orders[id].Live() && id !in todo
        invariant multiset(out) == multiset(seen)
        decreases |todo|
      {
        var id := AnyOf(todo);
        todo := todo - {id};
        if orders[id].Live() {
          out := out + [id];
          seen := seen + {id};
        }
      }
      assert seen == LiveIds();
      var a := new int[|out|](i requires 0 <= i < |out| => out[i]);
      assert a[..] == out;
      SortByTime(a, orders);
      queue := a[..];
      InQueue(queue, LiveIds());
      Distinct(queue, LiveIds());
      forall i | 0 <= i < |queue| ensures queue[i] in LiveIds() {
        assert queue[i] in queue;
      }
    }

    /** matchPublicPrintLocked: one public print fills the limit orders it touches in the order
        they were placed, for at most its size, each at its own limit price. */
    method MatchPrint(price: real, size: real) returns (ghost queue: seq<int>, ghost shares: seq<real>)
      requires Valid()
      modifies `orders, `trades, `positions, `cash, book`last
      ensures Valid() && TerminalKept(old(orders), orders) && orders.Keys == old(orders).Keys
      ensures price <= 0.0 || size <= 0.0 ==> orders == old(orders) && trades == old(trades)
      ensures price > 0.0 && size > 0.0 ==>
                && multiset(queue) == multiset(old(LiveIds())) && ByTime(old(orders), queue) && |shares| == |queue|
                && (forall k :: 0 <= k < |queue| ==> queue[k] in old(orders) && queue[k] in orders)
                && (forall k :: 0 <= k < |queue| ==>
                      orders[queue[k]].executed == old(orders)[queue[k]].executed + shares[k])
                && Fifo(Claims(old(orders), queue, price), shares, size)
    {
      queue, shares := [], [];
      if price <= 0.0 || size <= 0.0 {
        return;
      }
      hide OrdersOK, AccountsOK, IdsOK, Positive, Sum, Claim, OnlyFilled, TerminalKept, Printing, Fifo, Claims, Padded;
      var todo := OrdersByTime();
      queue := todo;
      PrintingStart(orders, todo, price, size);
      ghost var left;
      shares, left := PrintQueue(todo, price, size);
      PrintingDone(old(orders), old(trades), orders, todo, price, size, shares, left);
      shares := Padded(shares, |queue|);
    }

    /** The print goes down the queue until one of them is used up. */
    method PrintQueue(queue: seq<int>, price: real, size: real) returns (ghost shares: seq<real>, ghost rest: real)
      requires Valid() && size > 0.0 && Printing(orders, orders, queue, price, size, [], size)
      modifies `orders, `trades, `positions, `cash, book`last
      ensures Valid() && Printing(old(orders), orders, queue, price, size, shares, rest)
      ensures |shares| == |queue| || rest <= 0.0
    {
      hide OrdersOK, AccountsOK, IdsOK, Positive, Sum, Claim, OnlyFilled, TerminalKept, Printing;
      shares := [];
      var left := size;
      var i := 0;
      while i < |queue| && left > 0.0
        invariant 0 <= i <= |queue| && |shares| == i && Valid()
        invariant Printing(old(orders), orders, queue, price, size, shares, left)
      {
        ghost var before := orders;
        PrintingNext(old(orders), orders, queue, price, size, shares, left);
        var lots := PrintStep(queue[i], price, left);
        PrintingStep(old(orders), before, orders, queue, price, size, shares, left, lots);
        left := left - lots;
        shares := shares + [lots];
        i := i + 1;
      }
      rest := left;
    }

    /** One resting order's turn at a print of which `left` lots remain. */
    method PrintStep(id: int, price: real, left: real) returns (lots: real)
      requires Valid() && id in orders && orders[id].Live() && left > 0.0
      modifies `orders, `trades, `positions, `cash, book`last
      ensures Valid() && OnlyFilled(old(orders), orders, id)
      ensures lots == if Claim(old(orders)[id], price) > left then left else Claim(old(orders)[id], price)
      ensures lots >= 0.0 && orders[id].executed == old(orders)[id].executed + lots
      ensures lots > 0.0 ==>
                trades == old(trades) + [Trade(id, orders[id].account, orders[id].buy, lots, orders[id].limit.value,
                    true)]
    {
      hide OrdersOK, AccountsOK, IdsOK, Positive;
      OrderAt(orders, trades, id);
      var o := orders[id];
      lots := 0.0;
      if o.limit.Some? && if o.buy then o.limit.value >= price else o.limit.value <= price {
        lots := o.qty - o.executed;
        if lots > left {
          lots := left;
        }
        Fill(id, lots, o.limit.value);
      }
    }

    /** The fills of one taker, in order. */
    method FillAll(id: int, fills: seq<Level>)
      requires Valid() && id in orders && orders[id].Live()
      requires (forall k :: 0 <= k < |fills| ==> fills[k].size > 0.0) && (fills != [] ==>
          Taken(fills) <= orders[id].Rest())
      modifies `orders, `trades, `positions, `cash, book`last
      ensures Valid() && OnlyFilled(old(orders), orders, id)
      ensures orders[id].executed == old(orders)[id].executed + Taken(fills)
      ensures orders[id].Live() || orders[id].status == Filled
    {
      hide OrdersOK, AccountsOK, IdsOK, Positive, Taken, TerminalKept;
      assert fills[..|fills|] == fills;
      NoneTaken();
      for i := 0 to |fills|
        invariant Valid() && OnlyFilled(old(orders), orders, id)
        invariant orders[id].executed == old(orders)[id].executed + Taken(fills[..i])
        invariant i < |fills| ==> orders[id].Live()
        invariant orders[id].Live() || orders[id].status == Filled
      {
        TakenPart(fills, i);
        Fill(id, fills[i].size, fills[i].price);
      }
    }
  }

  /** A limit order at this price would take from the book. */
  ghost predicate Crosses(book: Book, buy: bool, limit: real) {
    if buy then exists p :: p in book.asks && book.asks[p] > 0.0 && p <= limit
    else exists p :: p in book.bids && book.bids[p] > 0.0 && p >= limit
  }

  function PlacedAt(orders: Orders, id: int): int {
    if id in orders then orders[id].placedAt else 0
  }

  ghost predicate ByTime(orders: Orders, queue: seq<int>) {
    forall i, j :: 0 <= i < j < |queue| ==> PlacedAt(orders, queue[i]) <= PlacedAt(orders, queue[j])
  }

  /** The first n elements are in the order they were placed, but for the one at j. */
  ghost predicate Sifting(orders: Orders, s: seq<int>, n: int, j: int) {
    n <= |s| && forall m, k :: 0 <= m < k < n && k != j ==> PlacedAt(orders, s[m]) <= PlacedAt(orders, s[k])
  }

  lemma SiftStep(orders: Orders, s: seq<int>, n: int, j: int)
    requires Sifting(orders, s, n, j) && 0 < j < n && PlacedAt(orders, s[j - 1]) > PlacedAt(orders, s[j])
    ensures var t := s[j - 1 := s[j]][j := s[j - 1]];
            multiset(t) == multiset(s) && Sifting(orders, t, n, j - 1)
  {
    hide PlacedAt;
  }

  lemma SiftEnds(orders: Orders, s: seq<int>, n: int, j: int)
    requires Sifting(orders, s, n, j)
    requires 0 < j < n ==> PlacedAt(orders, s[j - 1]) <= PlacedAt(orders, s[j])
    ensures 0 <= j < n ==> Sifting(orders, s, n, -1)
    ensures Sifting(orders, s, |s|, -1) ==> ByTime(orders, s)
    ensures 0 <= n < |s| && j == -1 ==> Sifting(orders, s, n + 1, n)
  {
    hide PlacedAt;
  }

  /** The insertion sort of the active orders, in place. */
  method SortByTime(a: array<int>, orders: Orders)
    modifies a
    ensures multiset(a[..]) == multiset(old(a[..])) && ByTime(orders, a[..])
  {
    hide PlacedAt, Sifting, ByTime;
    SiftNothing(orders, a[..]);
    for i := 0 to a.Length
      invariant multiset(a[..]) == multiset(old(a[..])) && Sifting(orders, a[..], i, -1)
    {
      SiftEnds(orders, a[..], i, -1);
      Sift(a, i, orders);
    }
    SiftEnds(orders, a[..], a.Length, -1);
  }

  lemma SiftNothing(orders: Orders, s: seq<int>)
    ensures Sifting(orders, s, 0, -1)
  {
  }

  /** Moves element i left past every later-placed one. */
  method Sift(a: array<int>, i: int, orders: Orders)
    requires 0 <= i < a.Length && Sifting(orders, a[..], i + 1, i)
    modifies a
    ensures multiset(a[..]) == multiset(old(a[..])) && Sifting(orders, a[..], i + 1, -1)
  {
    hide PlacedAt, Sifting;
    var j := i;
    while j > 0 && PlacedAt(orders, a[j - 1]) > PlacedAt(orders, a[j])
      invariant 0 <= j <= i && multiset(a[..]) == multiset(old(a[..])) && Sifting(orders, a[..], i + 1, j)
    {
      ghost var s := a[..];
      SiftStep(orders, s, i + 1, j);
      a[j - 1], a[j] := a[j], a[j - 1];
      assert a[..] == s[j - 1 := s[j]][j := s[j - 1]];
      j := j - 1;
    }
    SiftEnds(orders, a[..], i + 1, j);
  }

  lemma InQueue(queue: seq<int>, ids: set<int>)
    requires multiset(queue) == multiset(ids)
    ensures forall id :: id in queue <==> id in ids
  {
    forall id ensures id in queue <==> id in ids {
      assert id in queue <==> id in multiset(queue);
      assert id in ids <==> id in multiset(ids);
    }
  }

  lemma Distinct(queue: seq<int>, ids: set<int>)
    requires multiset(queue) == multiset(ids)
    ensures forall i, j :: 0 <= i < j < |queue| ==> queue[i] != queue[j]
  {
    forall i, j | 0 <= i < j < |queue| ensures queue[i] != queue[j] {
      var x := queue[j];
      assert queue == queue[..j] + [x] + queue[j + 1..];
      assert multiset(queue)[x] == multiset(queue[..j])[x] + 1 + multiset(queue[j + 1..])[x];
      assert x in queue[..j] <==> multiset(queue[..j])[x] > 0;
    }
  }

  /** What an order can get from a print: its rest if the print touches its limit. */
  function Claim(o: SimOrder, price: real): real {
    if o.limit.Some? && (if o.buy then o.limit.value >= price else o.limit.value <= price) then o.Rest() else 0.0
  }

  ghost function Claims(orders: Orders, queue: seq<int>, price: real): (cs: seq<real>)
    requires forall i :: 0 <= i < |queue| ==> queue[i] in orders
    ensures |cs| == |queue| && forall k :: 0 <= k < |queue| ==> cs[k] == Claim(orders[queue[k]], price)
  {
    seq(|queue|, k requires 0 <= k < |queue| => Claim(orders[queue[k]], price))
  }

  /** First come, first served: an order gets something only when every earlier one got all it
      could; together they get the print's size or everything they could. */
  ghost predicate Fifo(claims: seq<real>, shares: seq<real>, size: real) {
    && |shares| == |claims|
    && (forall k :: 0 <= k < |claims| ==> 0.0 <= shares[k] <= claims[k])
    && (forall j, k :: 0 <= j < k < |claims| && shares[k] > 0.0 ==> shares[j] == claims[j])
    && Sum(shares) <= size
    && (Sum(shares) == size || shares == claims)
  }

  /** A print at work on the queue: the first |shares| orders had their turn. */
  ghost predicate Printing(before: Orders, now: Orders, queue: seq<int>, price: real, size: real, shares: seq<real>,
      left: real) {
    && |shares| <= |queue| && left >= 0.0 && Sum(shares) == size - left
    && now.Keys == before.Keys && TerminalKept(before, now)
    && (forall k :: 0 <= k < |queue| ==> queue[k] in before && before[queue[k]].Live())
    && (forall i, j :: 0 <= i < j < |queue| ==> queue[i] != queue[j])
    && (forall k :: |shares| <= k < |queue| ==> now[queue[k]] == before[queue[k]])
    && (forall k :: 0 <= k < |shares| ==>
          && now[queue[k]].executed == before[queue[k]].executed + shares[k]
          && 0.0 <= shares[k] <= Claim(before[queue[k]], price)
          && (left > 0.0 || k < |shares| - 1 ==> shares[k] == Claim(before[queue[k]], price)))
  }

  lemma PrintingStep(before: Orders, now: Orders, now': Orders, queue: seq<int>, price: real, size: real,
                     shares: seq<real>, left: real, lots: real)
    requires Printing(before, now, queue, price, size, shares, left) && |shares| < |queue| && left > 0.0
    requires OnlyFilled(now, now', queue[|shares|])
    requires lots == (if Claim(now[queue[|shares|]], price) > left then left else Claim(now[queue[|shares|]],
        price)) && lots >= 0.0
    requires now'[queue[|shares|]].executed == now[queue[|shares|]].executed + lots
    ensures Printing(before, now', queue, price, size, shares + [lots], left - lots)
  {
    hide Claim, Sum, OnlyFilled;
    FilledMeans(now, now', queue[|shares|]);
    SumAppend(shares, lots);
  }

  lemma PrintingStart(orders: Orders, queue: seq<int>, price: real, size: real)
    requires size > 0.0 && (forall k :: 0 <= k < |queue| ==> queue[k] in orders && orders[queue[k]].Live())
    requires forall i, j :: 0 <= i < j < |queue| ==> queue[i] != queue[j]
    ensures Printing(orders, orders, queue, price, size, [], size)
  {
  }

  lemma PrintingNext(before: Orders, now: Orders, queue: seq<int>, price: real, size: real, shares: seq<real>,
      left: real)
    requires Printing(before, now, queue, price, size, shares, left)
    ensures now.Keys == before.Keys && TerminalKept(before, now)
    ensures |shares| < |queue| ==> queue[|shares|] in now && now[queue[|shares|]].Live()
  {
  }

  /** When the size or the queue is used up, the shares are first come, first served. */
  lemma PrintingDone(before: Orders, trades: seq<Trade>, now: Orders, queue: seq<int>, price: real, size: real,
                     shares: seq<real>, left: real)
    requires Printing(before, now, queue, price, size, shares, left) && OrdersOK(before, trades)
    requires |shares| == |queue| || left <= 0.0
    ensures now.Keys == before.Keys && TerminalKept(before, now)
    ensures forall k :: 0 <= k < |queue| ==>
              && queue[k] in before && queue[k] in now
              && now[queue[k]].executed == before[queue[k]].executed + Padded(shares, |queue|)[k]
    ensures Fifo(Claims(before, queue, price), Padded(shares, |queue|), size)
  {
    hide Claim, Sum, OrdersOK;
    ClaimsPositive(before, trades, queue, price);
    FifoPads(Claims(before, queue, price), shares, size);
  }

  lemma FilledMeans(before: Orders, after: Orders, id: int)
    requires OnlyFilled(before, after, id)
    ensures after.Keys == before.Keys && forall k :: k in before && k != id ==> after[k] == before[k]
  {
  }

  lemma ClaimsPositive(orders: Orders, trades: seq<Trade>, queue: seq<int>, price: real)
    requires OrdersOK(orders, trades) && forall i :: 0 <= i < |queue| ==> queue[i] in orders
    ensures forall k :: 0 <= k < |queue| ==> Claim(orders[queue[k]], price) >= 0.0
  {
    forall k | 0 <= k < |queue| ensures Claim(orders[queue[k]], price) >= 0.0 {
      OrderAt(orders, trades, queue[k]);
    }
  }

  function Padded(shares: seq<real>, n: nat): (r: seq<real>)
    requires |shares| <= n
    ensures |r| == n && forall k :: 0 <= k < n ==> r[k] == if k < |shares| then shares[k] else 0.0
  {
    shares + seq(n - |shares|, _ => 0.0)
  }

  lemma {:induction false} PaddedSum(shares: seq<real>, n: nat)
    requires |shares| <= n
    ensures Sum(Padded(shares, n)) == Sum(shares)
    decreases n
  {
    var r := Padded(shares, n);
    if n > |shares| {
      PaddedSum(shares, n - 1);
      assert r[..n - 1] == Padded(shares, n - 1);
    } else {
      assert r == shares;
    }
  }

  lemma FifoPads(claims: seq<real>, shares: seq<real>, size: real)
    requires |shares| <= |claims| && Sum(shares) <= size && forall k :: 0 <= k < |claims| ==> claims[k] >= 0.0
    requires forall k :: 0 <= k < |shares| ==> 0.0 <= shares[k] <= claims[k]
    requires forall k :: 0 <= k < |shares| - 1 ==> shares[k] == claims[k]
    requires Sum(shares) == size || (|shares| == |claims| && shares == claims)
    ensures Fifo(claims, Padded(shares, |claims|), size)
  {
    PaddedSum(shares, |claims|);
    if |shares| == |claims| {
      assert Padded(shares, |claims|) == shares;
    }
  }

  lemma SumAppend(xs: seq<real>, x: real)
    ensures Sum(xs + [x]) == Sum(xs) + x
  {
    assert (xs + [x])[..|xs|] == xs;
  }

  lemma GreedySizes(buy: bool, side: Side, prices: seq<real>, lots: real, limit: real, fills: seq<Level>)
    requires PricesOf(side, !buy, prices) && Greedy(buy, side, prices, lots, limit, fills)
    ensures forall k :: 0 <= k < |fills| ==> fills[k].size > 0.0
    ensures fills != [] ==> Taken(fills) <= lots
    ensures forall p :: p in prices ==> p in side
  {
  }

  lemma NoneTaken()
    ensures forall fills: seq<Level> :: Taken(fills[..0]) == 0.0
  {
  }

  lemma OthersKept(before: Orders, after: Orders, id: int)
    requires OnlyFilled(before, after, id) && before[id].Live()
    ensures TerminalKept(before, after)
  {
  }

  lemma {:induction false} NoTradesYet(trades: seq<Trade>, id: int)
    requires forall i :: 0 <= i < |trades| ==> trades[i].order < id
    ensures Matched(trades, id) == 0.0
  {
    if trades != [] {
      NoTradesYet(trades[..|trades| - 1], id);
    }
  }

  /** The fills before the last add up to less than all of them. */
  lemma TakenPart(fills: seq<Level>, i: nat)
    requires i < |fills| && forall k :: 0 <= k < |fills| ==> fills[k].size > 0.0
    ensures Taken(fills[..i + 1]) == Taken(fills[..i]) + fills[i].size
    ensures Taken(fills[..i + 1]) <= Taken(fills)
    ensures i + 1 < |fills| ==> Taken(fills[..i + 1]) < Taken(fills)
    decreases |fills| - i
  {
    assert fills[..i + 1][..i] == fills[..i];
    if i + 1 < |fills| {
      TakenPart(fills, i + 1);
    } else {
      assert fills[..i + 1] == fills;
    }
  }
}
