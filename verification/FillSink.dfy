/**
 The position ledger behind the fill sink: net lots and cash per leg. It is fed one order at
 a time, and it always equals the sum of the order lines plus what was booked without an id.
 */
module FillSink {
  import opened Domain
  import opened OrderRegistry

  datatype Book = Book(lotsA: int, lotsB: int, cashA: real, cashB: real)

  const FLAT := Book(0, 0, 0.0, 0.0)

  function Plus(x: Book, y: Book): Book {
    Book(x.lotsA + y.lotsA, x.lotsB + y.lotsB, x.cashA + y.cashA, x.cashB + y.cashB)
  }

  function Line(leg: Leg, lots: int, cash: real): Book {
    if leg == LegA then Book(lots, 0, cash, 0.0) else Book(0, lots, 0.0, cash)
  }

  function LineOf(h: Hist): Book {
    Line(h.leg, h.lots, h.cash)
  }

  ghost function Total(lines: map<OrderId, Hist>): Book
    decreases |lines|
  {
    if lines == map[] then FLAT
    else
      var id :| id in lines;
      Plus(LineOf(lines[id]), Total(lines - {id}))
  }

  lemma PlusSwap(x: Book, y: Book, z: Book)
    ensures Plus(x, Plus(y, z)) == Plus(y, Plus(x, z))
  {
  }

  lemma {:induction false} TotalRemove(lines: map<OrderId, Hist>, id: OrderId)
    requires id in lines
    ensures Total(lines) == Plus(LineOf(lines[id]), Total(lines - {id}))
    decreases |lines|
  {
    var pick :| pick in lines && Total(lines) == Plus(LineOf(lines[pick]), Total(lines - {pick}));
    if pick != id {
      var rest := lines - {pick} - {id};
      assert rest == lines - {id} - {pick};
      TotalRemove(lines - {pick}, id);
      TotalRemove(lines - {id}, pick);
      assert Total(lines - {pick}) == Plus(LineOf(lines[id]), Total(rest));
      assert Total(lines - {id}) == Plus(LineOf(lines[pick]), Total(rest));
      PlusSwap(LineOf(lines[id]), LineOf(lines[pick]), Total(rest));
    }
  }

  /** Replacing one order's line moves the total by exactly the difference. */
  lemma TotalUpdate(lines: map<OrderId, Hist>, id: OrderId, h: Hist)
    ensures id in lines ==>
              Plus(Total(lines[id := h]), LineOf(lines[id])) == Plus(Total(lines), LineOf(h))
    ensures id !in lines ==> Total(lines[id := h]) == Plus(Total(lines), LineOf(h))
  {
    TotalRemove(lines[id := h], id);
    assert lines[id := h] - {id} == lines - {id};
    if id in lines {
      TotalRemove(lines, id);
    } else {
      assert lines - {id} == lines;
    }
  }

  lemma EmptyLedger()
    ensures Ledger(map[], FLAT, FLAT).Tied()
  {
  }

  /** lines: one per order; untracked: fills booked without an id, and lines archived when the
      broker handed their id out again; net: what the position is read from. */
  datatype Ledger = Ledger(lines: map<OrderId, Hist>, untracked: Book, net: Book) {

    ghost predicate Tied() {
      net == Plus(Total(lines), untracked)
    }

    /** FillSink.Fill for a tracked order. */
    ghost function Fill(id: OrderId, buy: bool, n: nat, p: real): (r: Ledger)
      requires id in lines && Tied()
      ensures r.Tied()
      ensures r.lines == lines[id := SinkFill(lines[id], buy, n, p)]
      ensures r.net == Plus(net, Line(lines[id].leg, Signed(buy, n), SignedCash(buy, Value(n, p))))
    {
      hide Total, Value;
      var h := SinkFill(lines[id], buy, n, p);
      TotalUpdate(lines, id, h);
      Ledger(lines[id := h], untracked, Plus(net, Line(h.leg, Signed(buy, n), SignedCash(buy, Value(n, p)))))
    }

    /** FillSink.Amend for a tracked order. */
    ghost function Amend(id: OrderId, buy: bool, n: nat, from: real, to: real): (r: Ledger)
      requires id in lines && Tied()
      ensures r.Tied()
      ensures r.lines == lines[id := SinkAmend(lines[id], buy, n, from, to)]
      ensures r.net.lotsA == net.lotsA && r.net.lotsB == net.lotsB
    {
      hide Total, Value;
      var h := SinkAmend(lines[id], buy, n, from, to);
      TotalUpdate(lines, id, h);
      Ledger(lines[id := h], untracked, Plus(net, Line(h.leg, 0, SignedCash(buy, Value(n, to) - Value(n, from)))))
    }

    /** A fill booked without an order id. */
    ghost function FillBlind(leg: Leg, buy: bool, n: nat, p: real): (r: Ledger)
      requires Tied()
      ensures r.Tied() && r.lines == lines
      ensures r.net == Plus(net, Line(leg, Signed(buy, n), SignedCash(buy, Value(n, p))))
    {
      var line := Line(leg, Signed(buy, n), SignedCash(buy, Value(n, p)));
      Ledger(lines, Plus(untracked, line), Plus(net, line))
    }

    /** Opens an order's line, archiving one already there under the same id. */
    ghost function Open(id: OrderId, leg: Leg, born: nat): (r: Ledger)
      requires Tied()
      ensures r.Tied() && r.lines == lines[id := OpenLine(leg, born)] && r.net == net
    {
      hide Total;
      TotalUpdate(lines, id, OpenLine(leg, born));
      Ledger(lines[id := OpenLine(leg, born)],
             if id in lines then Plus(untracked, LineOf(lines[id])) else untracked, net)
    }

    /** Records a delivery; what the sink booked stays as it is. */
    ghost function Deliver(id: OrderId, lots: nat, accepted: nat, price: real): (r: Ledger)
      requires id in lines && Tied()
      ensures r.Tied() && r.net == net
      ensures r.lines == lines[id := Delivered(lines[id], lots, accepted, price)]
    {
      hide Total, Delivered;
      var h := Delivered(lines[id], lots, accepted, price);
      DeliveredLine(lines[id], lots, accepted, price);
      TotalUpdate(lines, id, h);
      SamePlus(Total(lines[id := h]), Total(lines), LineOf(h));
      Ledger(lines[id := h], untracked, net)
    }
  }

  lemma DeliveredLine(h: Hist, lots: int, accepted: nat, price: real)
    ensures LineOf(Delivered(h, lots, accepted, price)) == LineOf(h)
  {
  }

  lemma SamePlus(x: Book, y: Book, z: Book)
    requires Plus(x, z) == Plus(y, z)
    ensures x == y
  {
  }
}
