/**
 One own order's fill account, together with a ghost history of what the environment
 really delivered and what the fill sink was really told about that order.
 */
module OrderRegistry {
  import opened Domain

  datatype OrdAcct = OrdAcct(
    maker: bool,
    leg: Leg,
    isBuy: bool,
    price: real,
    placed: int,
    folded: int,
    seen: int,
    credited: int,
    final: int,
    placedAt: int,
    lastProbe: Option<int>,
    deadSeen: bool,
    deferred: bool)
  {
    predicate Confirmed() { final >= 0 || seen >= placed }
    predicate Live() { maker && final < 0 && !deferred }
  }

  /** One order's line of the ledger.
      born: how many fill events the stream had delivered when the order was registered.
      delivered: all positive lots the stream reported, duplicates included.
      cost: sum of accepted lots times their fill price.
      lots, cash: what the sink booked for this order (buys pay, so their cash is negative). */
  datatype Hist = Hist(leg: Leg, born: nat, delivered: int, cost: real, lots: int, cash: real)

  // ----- the fill stream ----------------------------------------------------------------

  /** One event of the fill stream as the engine received it. */
  datatype Report = Report(id: OrderId, lots: int, price: real)

  /** Positive lots reported for an order since the event number `born`. */
  function Reported(feed: seq<Report>, born: nat, id: OrderId): nat {
    if |feed| <= born then 0
    else
      var e := feed[|feed| - 1];
      Reported(feed[..|feed| - 1], born, id) + if e.id == id && e.lots > 0 then e.lots else 0
  }

  /** The reported lots at their prices, none counted past the placed size. */
  function ReportedCost(feed: seq<Report>, born: nat, id: OrderId, placed: int): real {
    if |feed| <= born then 0.0
    else
      var init, e := feed[..|feed| - 1], feed[|feed| - 1];
      ReportedCost(init, born, id, placed) +
      if e.id == id && e.lots > 0
      then Value(Max(0, Min(e.lots, placed - Min(placed, Reported(init, born, id)))), e.price) else 0.0
  }

  lemma ReportAppend(feed: seq<Report>, born: nat, id: OrderId, placed: int, e: Report)
    requires born <= |feed|
    ensures Reported(feed + [e], born, id) == Reported(feed, born, id) + if e.id == id && e.lots > 0 then e.lots else 0
    ensures ReportedCost(feed + [e], born, id, placed) ==
            ReportedCost(feed, born, id, placed) +
            if e.id == id && e.lots > 0
            then Value(Max(0, Min(e.lots, placed - Min(placed, Reported(feed, born, id)))), e.price) else 0.0
  {
    assert (feed + [e])[..|feed|] == feed;
  }

  lemma NothingReported(feed: seq<Report>, id: OrderId, placed: int)
    ensures Reported(feed, |feed|, id) == 0 && ReportedCost(feed, |feed|, id, placed) == 0.0
  {
  }

  function Counted(e: Report, id: OrderId): nat {
    if e.id == id && e.lots > 0 then e.lots else 0
  }

  /** All reported lots at their prices, duplicates included. */
  function ReportedValue(feed: seq<Report>, id: OrderId): real {
    if feed == [] then 0.0
    else
      var e := feed[|feed| - 1];
      ReportedValue(feed[..|feed| - 1], id) + Value(Counted(e, id), e.price)
  }

  /** While no more was reported than was placed, the cost is all the reports at their prices. */
  lemma {:induction false} NothingCapped(feed: seq<Report>, born: nat, id: OrderId, placed: int)
    requires born <= |feed| && Reported(feed, born, id) <= placed
    ensures Reported(feed, born, id) == Reported(feed[born..], 0, id)
    ensures ReportedCost(feed, born, id, placed) == ReportedValue(feed[born..], id)
    decreases |feed|
  {
    if born < |feed| {
      NothingCapped(feed[..|feed| - 1], born, id, placed);
      assert feed[born..][..|feed[born..]| - 1] == feed[..|feed| - 1][born..];
    }
  }

  lemma {:induction false} ReportedSince(feed: seq<Report>, born: nat, id: OrderId)
    requires born <= |feed|
    ensures Reported(feed, born, id) == Reported(feed[born..], 0, id)
    decreases |feed|
  {
    if born < |feed| {
      ReportedSince(feed[..|feed| - 1], born, id);
      assert feed[born..][..|feed[born..]| - 1] == feed[..|feed| - 1][born..];
    }
  }

  /** What the stream said about an order does not depend on the order it said it in. */
  lemma {:induction false} ReportsInAnyOrder(xs: seq<Report>, ys: seq<Report>, id: OrderId)
    requires multiset(xs) == multiset(ys)
    ensures Reported(xs, 0, id) == Reported(ys, 0, id) && ReportedValue(xs, id) == ReportedValue(ys, id)
    decreases |xs|
  {
    if xs == [] {
      assert |multiset(ys)| == 0;
    } else {
      hide Reported, ReportedValue, Counted, Value;
      var init, e := xs[..|xs| - 1], xs[|xs| - 1];
      assert xs == init + [e];
      var rest := WithoutReport(ys, e, id);
      ReportsInAnyOrder(init, rest, id);
      OneMoreReport(init, e, id);
    }
  }

  lemma OneMoreReport(feed: seq<Report>, e: Report, id: OrderId)
    ensures Reported(feed + [e], 0, id) == Reported(feed, 0, id) + Counted(e, id)
    ensures ReportedValue(feed + [e], id) == ReportedValue(feed, id) + Value(Counted(e, id), e.price)
  {
    assert (feed + [e])[..|feed|] == feed;
  }

  lemma WithoutReport(ys: seq<Report>, e: Report, id: OrderId) returns (rest: seq<Report>)
    requires e in multiset(ys)
    ensures multiset(rest) == multiset(ys) - multiset{e}
    ensures Reported(ys, 0, id) == Reported(rest, 0, id) + Counted(e, id)
    ensures ReportedValue(ys, id) == ReportedValue(rest, id) + Value(Counted(e, id), e.price)
  {
    hide Reported, ReportedValue, Counted, Value;
    var k :| 0 <= k < |ys| && ys[k] == e;
    var front, back := ys[..k], ys[k + 1..];
    rest := front + back;
    assert ys == front + [e] + back;
    ReportsJoin(front, back, id);
    ReportsJoin(front + [e], back, id);
    OneMoreReport(front, e, id);
  }

  lemma {:induction false} ReportsJoin(xs: seq<Report>, ys: seq<Report>, id: OrderId)
    ensures Reported(xs + ys, 0, id) == Reported(xs, 0, id) + Reported(ys, 0, id)
    ensures ReportedValue(xs + ys, id) == ReportedValue(xs, id) + ReportedValue(ys, id)
    decreases |ys|
  {
    if ys == [] {
      assert xs + ys == xs;
    } else {
      ReportsJoin(xs, ys[..|ys| - 1], id);
      assert (xs + ys)[..|xs + ys| - 1] == xs + ys[..|ys| - 1];
    }
  }

  /** What an order's line took from the fill stream, and since when. */
  datatype Heard = Heard(born: nat, delivered: int, cost: real)

  function Told(h: Hist): Heard {
    Heard(h.born, h.delivered, h.cost)
  }

  /** What the sink books says nothing about the stream. */
  lemma FilledLine(h: Hist, buy: bool, n: nat, p: real)
    ensures Told(SinkFill(h, buy, n, p)) == Told(h)
  {
  }

  lemma SameBirth(h: Hist, h': Hist)
    requires Told(h) == Told(h')
    ensures h.born == h'.born
  {
  }

  function OpenLine(leg: Leg, born: nat): Hist {
    Hist(leg, born, 0, 0.0, 0, 0.0)
  }

  /** n lots at price p, by repeated addition so that no proof multiplies reals. */
  function Value(n: nat, p: real): real {
    if n == 0 then 0.0 else Value(n - 1, p) + p
  }

  lemma {:induction false} ValueIsProduct(n: nat, p: real)
    ensures Value(n, p) == n as real * p
  {
    if n > 0 {
      ValueIsProduct(n - 1, p);
      assert n as real * p == (n - 1) as real * p + p;
    }
  }

  lemma {:induction false} ValueAdd(m: nat, n: nat, p: real)
    ensures Value(m + n, p) == Value(m, p) + Value(n, p)
  {
    if n > 0 {
      ValueAdd(m, n - 1, p);
    }
  }

  function SignedCash(buy: bool, x: real): real {
    if buy then -x else x
  }

  /** FillSink.Fill as the order's own ledger line sees it. */
  function SinkFill(h: Hist, buy: bool, n: nat, p: real): Hist {
    h.(lots := h.lots + Signed(buy, n), cash := h.cash + SignedCash(buy, Value(n, p)))
  }

  /** FillSink.Amend: cash only, never inventory. */
  function SinkAmend(h: Hist, buy: bool, n: nat, from: real, to: real): Hist {
    h.(cash := h.cash + SignedCash(buy, Value(n, to) - Value(n, from)))
  }

  /** Exactly-once inventory. */
  ghost predicate CountOK(a: OrdAcct, h: Hist) {
    && a.placed > 0
    && h.leg == a.leg
    && 0 <= h.delivered
    && a.seen == Min(a.placed, h.delivered)
    && -1 <= a.final <= a.placed
    && (a.maker ==>
          if a.final < 0 then a.credited == a.seen && a.folded == a.seen
          else a.credited == Max(a.seen, a.final) && a.final <= a.folded <= a.placed)
    && (!a.maker ==>
          && !a.deferred
          && a.credited == if a.final < 0 then a.placed else Max(a.seen, a.final))
    && (a.deferred ==> a.final < 0)
  }

  /** Exact sink lots and cash: true fill prices for everything the stream delivered, the
      credit price for the lots credited ahead of it. */
  ghost predicate CashOK(a: OrdAcct, h: Hist) {
    && 0 <= a.seen <= a.credited
    && h.lots == Signed(a.isBuy, a.credited)
    && h.cash == SignedCash(a.isBuy, h.cost + Value(a.credited - a.seen, a.price))
  }

  ghost predicate AcctOK(a: OrdAcct, h: Hist) {
    CountOK(a, h) && CashOK(a, h)
  }

  /** A live maker's fill event: all n lots are new to the sink. */
  lemma LiveFill(a: OrdAcct, h: Hist, n: int, p: real)
    requires CashOK(a, h)
    requires n > 0 && a.credited == a.seen
    ensures CashOK(a.(seen := a.seen + n, credited := a.credited + n),
                   SinkFill(h, a.isBuy, n, p).(cost := h.cost + Value(n, p)))
  {
  }

  /** An event on an order credited ahead of the stream: `dup` lots are amended to the true
      price, `excess` lots are booked new. */
  lemma OverlapFill(a: OrdAcct, h: Hist, dup: nat, excess: nat, p: real)
    requires CashOK(a, h)
    requires dup <= a.credited - a.seen
    requires excess > 0 ==> dup == a.credited - a.seen
    ensures CashOK(a.(seen := a.seen + dup + excess, credited := a.credited + excess),
                   SinkFill(SinkAmend(h, a.isBuy, dup, a.price, p), a.isBuy, excess, p)
                   .(cost := h.cost + Value(dup + excess, p)))
  {
    ValueAdd(a.credited - a.seen - dup, dup, a.price);
    ValueAdd(dup, excess, p);
  }

  /** Lots learned from a cancel-ack (or an accepted taker): credited at the credit price. */
  lemma AheadCredit(a: OrdAcct, h: Hist, n: nat)
    requires CashOK(a, h)
    ensures CashOK(a.(credited := a.credited + n), SinkFill(h, a.isBuy, n, a.price))
  {
    ValueAdd(a.credited - a.seen, n, a.price);
  }

  /** A market order just placed: credited in full the moment it is accepted. */
  function NewTaker(leg: Leg, buy: bool, price: real, lots: int, at: int): OrdAcct {
    OrdAcct(false, leg, buy, price, lots, 0, 0, lots, -1, at, None, false, false)
  }

  lemma NewTakerOK(leg: Leg, born: nat, buy: bool, price: real, lots: int, at: int)
    requires lots > 0
    ensures var a, h := NewTaker(leg, buy, price, lots, at), SinkFill(OpenLine(leg, born), buy, lots, price);
            && AcctOK(a, h) && !a.maker && a.final < 0
            && a.leg == leg && a.isBuy == buy && a.placed == lots && a.price == price
            && h.leg == leg && Told(h) == Heard(born, 0, 0.0)
  {
  }

  /** A passive order just placed. */
  function NewMaker(leg: Leg, buy: bool, price: real, lots: int): OrdAcct {
    OrdAcct(true, leg, buy, price, lots, 0, 0, 0, -1, 0, None, false, false)
  }

  lemma NewMakerOK(leg: Leg, born: nat, buy: bool, price: real, lots: int)
    requires lots > 0
    ensures AcctOK(NewMaker(leg, buy, price, lots), OpenLine(leg, born))
  {
  }

  /** A dead taker's phantom lots leave inventory and cash exactly as they came. */
  lemma Reversal(a: OrdAcct, h: Hist, n: nat)
    requires CashOK(a, h)
    requires n <= a.credited - a.seen
    ensures CashOK(a.(credited := a.credited - n), SinkFill(h, !a.isBuy, n, a.price))
  {
    ValueAdd(a.credited - a.seen - n, n, a.price);
  }

  /** Once the stream has caught up, only true fill prices are left in the sink's cash. */
  lemma CaughtUpCash(a: OrdAcct, h: Hist)
    requires AcctOK(a, h)
    requires a.seen == a.credited
    ensures h.cash == SignedCash(a.isBuy, h.cost)
    ensures h.lots == Signed(a.isBuy, Min(a.placed, h.delivered))
  {
  }

  /** Static data of an order, which no handler rewrites. */
  predicate SameOrder(a: OrdAcct, a': OrdAcct) {
    a.maker == a'.maker && a.leg == a'.leg && a.isBuy == a'.isBuy && a.price == a'.price && a.placed == a'.placed
  }

  /** A passive order's account once its terminal executed count is known. */
  function Settled(a: OrdAcct, executed: nat): OrdAcct {
    var final := Min(executed, a.placed);
    a.(final := final, credited := Max(a.credited, final))
  }

  function SettledLine(a: OrdAcct, h: Hist, executed: nat): Hist {
    var final := Min(executed, a.placed);
    if final > a.credited then SinkFill(h, a.isBuy, final - a.credited, a.price) else h
  }

  /** Lots of a settled order the engine has not acted on yet. */
  function Gap(a: OrdAcct): nat {
    if a.final > a.folded then a.final - a.folded else 0
  }

  lemma AcctShape(a: OrdAcct, h: Hist)
    requires AcctOK(a, h)
    ensures a.placed > 0 && -1 <= a.final <= a.placed && h.leg == a.leg && 0 <= a.seen <= a.credited <= a.placed
    ensures a.maker && a.final < 0 ==> a.folded == a.credited == a.seen
    ensures a.maker && a.final >= 0 ==> !a.deferred && a.final <= a.folded <= a.placed
    ensures !a.maker ==> !a.deferred
    ensures a.deferred ==> a.final < 0
    ensures !a.maker && a.final < 0 ==> a.credited == a.placed
  {
  }

  lemma DeferKeepsAccount(a: OrdAcct, h: Hist)
    requires AcctOK(a, h) && a.maker && a.final < 0
    ensures AcctOK(a.(deferred := true), h)
  {
  }

  /** The account of an order retired at that count, its gap acted on. */
  function RetiredAt(a: OrdAcct, executed: nat): OrdAcct {
    var s := Settled(a, executed);
    s.(folded := Max(s.folded, s.final), deferred := false)
  }

  /** Retiring a live or parked order and folding its gap leaves a sound account, and the sink
      was credited by exactly the gap. */
  lemma RetireKeepsAccount(a: OrdAcct, h: Hist, executed: nat)
    requires AcctOK(a, h) && a.maker && a.final < 0
    ensures var s, t := Settled(a, executed), RetiredAt(a, executed);
            && AcctOK(t, SettledLine(a, h, executed))
            && SameOrder(a, t) && SameOrder(a, s) && t.final == s.final == Min(executed, a.placed) && t.seen == a.seen
            && !t.deferred && 0 <= s.final <= s.placed
            && s.credited - a.credited == Gap(s) == Max(0, s.final - a.folded) <= a.placed - a.folded
            && Told(SettledLine(a, h, executed)) == Told(h)
  {
    var final := Min(executed, a.placed);
    if final > a.credited {
      AheadCredit(a, h, final - a.credited);
    }
  }

  /** A terminal count inside [seen, placed] confirms a taker, and the lots it never executed
      are reversed at their credit price. */
  lemma SettleKeepsTaker(a: OrdAcct, h: Hist, executed: nat)
    requires AcctOK(a, h) && !a.maker && a.final < 0
    requires a.seen <= executed <= a.placed
    ensures AcctOK(a.(final := executed, credited := executed),
                   if executed < a.placed then SinkFill(h, !a.isBuy, a.placed - executed, a.price) else h)
  {
    if executed < a.placed {
      Reversal(a, h, a.placed - executed);
    }
  }

  lemma ProbeKeepsTaker(a: OrdAcct, h: Hist, probe: Option<int>, deadSeen: bool)
    requires AcctOK(a, h)
    ensures AcctOK(a.(lastProbe := probe, deadSeen := deadSeen), h)
  {
  }

  // ----- fill events --------------------------------------------------------------------

  /** Lots of an event of `raw` lots that can be real: never past the placed size. */
  function Admitted(a: OrdAcct, raw: int): int {
    Min(raw, a.placed - a.seen)
  }

  /** Accepted lots beyond the terminal count, none while the order may still fill. */
  function Excess(a: OrdAcct, n: int): int {
    if a.final < 0 then 0 else Max(0, a.seen + n - Max(a.final, a.seen))
  }

  function Delivered(h: Hist, raw: int, n: nat, p: real): Hist {
    h.(delivered := h.delivered + raw, cost := h.cost + Value(n, p))
  }

  /** What the stream has said after one more event of `raw` lots at price p. */
  function HeardAfter(a: OrdAcct, was: Heard, raw: int, p: real): Heard {
    Heard(was.born, was.delivered + raw, was.cost + Value(Max(0, Admitted(a, raw)), p))
  }

  lemma HeardLine(a: OrdAcct, h: Hist, raw: int, n: nat, p: real, buy: bool, dup: nat, from: real, x: nat)
    requires n == Max(0, Admitted(a, raw))
    ensures Told(Delivered(h, raw, n, p)) == HeardAfter(a, Told(h), raw, p)
    ensures Told(SinkFill(Delivered(h, raw, n, p), buy, n, p)) == HeardAfter(a, Told(h), raw, p)
    ensures Told(SinkFill(SinkAmend(Delivered(h, raw, n, p), buy, dup, from, p), buy, x, p)) == HeardAfter(a,
        Told(h), raw, p)
    ensures Told(SinkAmend(Delivered(h, raw, n, p), buy, dup, from, p)) == HeardAfter(a, Told(h), raw, p)
  {
  }

  lemma SeenIsDelivered(a: OrdAcct, h: Hist)
    requires AcctOK(a, h)
    ensures a.seen == Min(a.placed, h.delivered)
  {
  }

  lemma HeardBirth(a: OrdAcct, h: Hist, h': Hist, raw: int, p: real)
    requires Told(h') == HeardAfter(a, Told(h), raw, p)
    ensures h'.born == h.born
  {
  }

  /** A duplicate past the placed size changes nothing but the delivery count. */
  lemma DroppedKeepsAccount(a: OrdAcct, h: Hist, raw: int, p: real)
    requires AcctOK(a, h) && raw > 0 && Admitted(a, raw) <= 0
    ensures AcctOK(a, Delivered(h, raw, 0, p))
  {
  }

  /** A fill of an order still live (or parked). */
  lemma LiveKeepsAccount(a: OrdAcct, h: Hist, raw: int, p: real)
    requires AcctOK(a, h) && a.maker && a.final < 0
    requires raw > 0 && Admitted(a, raw) > 0
    ensures var n := Admitted(a, raw);
            AcctOK(a.(seen := a.seen + n, credited := a.credited + n, folded := a.folded + n),
                   SinkFill(Delivered(h, raw, n, p), a.isBuy, n, p))
  {
    LiveFill(a, h, Admitted(a, raw), p);
  }

  /** A fill of an order credited ahead of the stream: a taker, or a settled passive. */
  lemma OverlapKeepsAccount(a: OrdAcct, h: Hist, raw: int, p: real)
    requires AcctOK(a, h) && (a.maker ==> a.final >= 0)
    requires raw > 0 && Admitted(a, raw) > 0
    ensures var n := Admitted(a, raw);
            var x := Excess(a, n);
            && 0 <= x <= n
            && (!a.maker ==> n - x == Min(n, a.credited - a.seen))
            && AcctOK(a.(seen := a.seen + n, credited := a.credited + x),
                      SinkFill(SinkAmend(Delivered(h, raw, n, p), a.isBuy, n - x, a.price, p), a.isBuy, x, p))
  {
    var n := Admitted(a, raw);
    OverlapFill(a, h, n - Excess(a, n), Excess(a, n), p);
  }

  /** The account after n accepted lots of a live order. */
  function LiveFilled(a: OrdAcct, n: int): OrdAcct {
    a.(seen := a.seen + n, credited := a.credited + n, folded := a.folded + n)
  }

  lemma LiveHolds(a: OrdAcct, h: Hist, raw: int, p: real)
    requires AcctOK(a, h) && a.maker && a.final < 0
    requires raw > 0 && Admitted(a, raw) > 0
    ensures var n := Admitted(a, raw);
            && AcctOK(LiveFilled(a, n), SinkFill(Delivered(h, raw, n, p), a.isBuy, n, p))
            && SameOrder(a, LiveFilled(a, n))
            && a.seen == Min(a.placed, h.delivered) && h.leg == a.leg
            && Told(SinkFill(Delivered(h, raw, n, p), a.isBuy, n, p)) == HeardAfter(a, Told(h), raw, p)
  {
    hide Value;
    LiveKeepsAccount(a, h, raw, p);
    HeardLine(a, h, raw, Admitted(a, raw), p, a.isBuy, 0, p, 0);
  }

  /** The account after n accepted lots of an order credited ahead of the stream. */
  function Overlapped(a: OrdAcct, n: int): OrdAcct {
    a.(seen := a.seen + n, credited := a.credited + Excess(a, n))
  }

  function OverlapLine(a: OrdAcct, h: Hist, raw: int, n: nat, x: nat, p: real): Hist
    requires x <= n
  {
    SinkFill(SinkAmend(Delivered(h, raw, n, p), a.isBuy, n - x, a.price, p), a.isBuy, x, p)
  }

  lemma OverlapHolds(a: OrdAcct, h: Hist, raw: int, p: real)
    requires AcctOK(a, h) && (a.maker ==> a.final >= 0)
    requires raw > 0 && Admitted(a, raw) > 0
    ensures var n := Admitted(a, raw);
            && 0 <= Excess(a, n) <= n
            && AcctOK(Overlapped(a, n), OverlapLine(a, h, raw, n, Excess(a, n), p))
            && SameOrder(a, Overlapped(a, n)) && !Overlapped(a, n).deferred
            && a.seen == Min(a.placed, h.delivered) && h.leg == a.leg
            && Told(OverlapLine(a, h, raw, n, Excess(a, n), p)) == HeardAfter(a, Told(h), raw, p)
  {
    hide Value;
    OverlapKeepsAccount(a, h, raw, p);
    var n := Admitted(a, raw);
    HeardLine(a, h, raw, n, p, a.isBuy, n - Excess(a, n), a.price, Excess(a, n));
  }

  lemma FillNothing(h: Hist, buy: bool, p: real)
    ensures SinkFill(h, buy, 0, p) == h
  {
  }
}
