/**
 The lost-response protocol of a placement: one client order id for every attempt and every
 probe, against a broker that admits an id at most once and may lose any answer.
 */
module Placer {
  import opened Domain

  /** The gRPC status codes; `OtherCode` stands for one the adapter has never seen. */
  datatype Code =
    | InvalidArgument | FailedPrecondition | PermissionDenied | NotFound | ResourceExhausted
    | Unauthenticated | OutOfRange | AlreadyExists | Unavailable | DeadlineExceeded | Canceled
    | Unknown | Internal | DataLoss | Aborted | Unimplemented | OtherCode(n: int)

  predicate Ambiguous(code: Code) {
    match code
    case InvalidArgument | FailedPrecondition | PermissionDenied | NotFound | ResourceExhausted
       | Unauthenticated | OutOfRange => false
    case _ => true
  }

  datatype ClientId = ClientId(nonce: nat, count: nat)

  datatype Want = Want(symbol: int, buy: bool, lots: int)

  datatype Order = Order(id: int, symbol: int, buy: bool, lots: int)

  datatype Reply = Accepted(id: int) | Error(code: Code)

  datatype Listing = Unreachable | Absent | Listed(order: Order)

  type Orders = map<ClientId, Order>

  predicate Matches(o: Order, want: Want) {
    o.symbol == want.symbol && o.buy == want.buy && o.lots == want.lots
  }

  /** What a placement request can do to the broker's orders and answer. */
  ghost predicate Places(before: Orders, after: Orders, cid: ClientId, want: Want, reply: Reply) {
    && (after == before ||
        (cid !in before && cid in after && after == before[cid := after[cid]] && Matches(after[cid], want)))
    && match reply
       case Accepted(id) => after != before && after[cid].id == id
       case Error(code) => !Ambiguous(code) ==> after == before
  }

  class Broker {
    /** Every order ever admitted, by client id. */
    var created: Orders
    /** The order list never shows another order under the asked client id. */
    const honest: bool

    constructor (honest: bool)
      ensures created == map[] && this.honest == honest
    {
      created := map[];
      this.honest := honest;
    }

    method Place(cid: ClientId, want: Want) returns (reply: Reply)
      modifies this
      ensures Places(old(created), created, cid, want, reply)
    {
      var accepts: bool, lands: bool, id: int, code: Code := *, *, *, *;
      if !accepts && !Ambiguous(code) {
        return Error(code);
      }
      if cid in created {
        return Error(if Ambiguous(code) then code else AlreadyExists);
      }
      if accepts || lands {
        created := created[cid := Order(id, want.symbol, want.buy, want.lots)];
      }
      reply := if accepts then Accepted(id) else Error(code);
    }

    /** The account's active orders, filtered by client id. Terminal orders are not listed. */
    method Find(cid: ClientId) returns (listing: Listing)
      ensures honest && listing.Listed? ==> cid in created && created[cid] == listing.order
    {
      var reached: bool, shown: bool, other: Order := *, *, *;
      if !reached {
        return Unreachable;
      }
      if !honest && shown {
        return Listed(other);
      }
      listing := if cid in created && shown then Listed(created[cid]) else Absent;
    }
  }

  // ----- the protocol's trace -----------------------------------------------------------

  datatype Entry = Attempt(cid: ClientId, reply: Reply) | Probe(cid: ClientId, listing: Listing)

  const ROUNDS := 3
  const PROBES := 3

  predicate Inconclusive(e: Entry, want: Want) {
    match e
    case Attempt(_, reply) => reply.Error? && Ambiguous(reply.code)
    case Probe(_, listing) => listing.Listed? ==> !Matches(listing.order, want)
  }

  /** Rounds of one attempt and three probes, all under one id, each entry made only after
      everything before it was inconclusive. */
  predicate Follows(run: seq<Entry>, cid: ClientId, want: Want) {
    && |run| <= ROUNDS * (1 + PROBES)
    && (forall k :: 0 <= k < |run| ==> run[k].cid == cid && (run[k].Attempt? <==> k % (1 + PROBES) == 0))
    && (forall k :: 0 <= k < |run| - 1 ==> Inconclusive(run[k], want))
  }

  predicate Heard(e: Entry) {
    e.Probe? && !e.listing.Unreachable?
  }

  predicate SomeHeard(run: seq<Entry>) {
    exists k :: 0 <= k < |run| && Heard(run[k])
  }

  predicate AllInconclusive(run: seq<Entry>, want: Want) {
    forall k :: 0 <= k < |run| ==> Inconclusive(run[k], want)
  }

  /** Failed keeps round 0's error; `unreachable` tells that no probe was ever answered. */
  datatype Outcome = Placed(id: int) | Rejected(code: Code) | Failed(first: Code, unreachable: bool)

  predicate MaybeDelivered(o: Outcome) {
    o.Failed?
  }

  /** What the caller may conclude is decided by the last entry alone. */
  predicate Concludes(run: seq<Entry>, want: Want, o: Outcome) {
    run != [] &&
    var last := run[|run| - 1];
    match o
    case Placed(id) =>
      if last.Attempt? then last.reply == Accepted(id)
      else last.listing.Listed? && Matches(last.listing.order, want) && last.listing.order.id == id
    case Rejected(code) => last.Attempt? && last.reply == Error(code) && !Ambiguous(code)
    case Failed(first, unreachable) =>
      && |run| == ROUNDS * (1 + PROBES) && Inconclusive(last, want)
      && run[0].Attempt? && run[0].reply == Error(first) && Ambiguous(first)
      && unreachable == !SomeHeard(run)
  }

  class Placer {
    const broker: Broker
    const nonce: nat
    var count: nat
    ghost var log: seq<Entry>

    constructor (broker: Broker, nonce: nat)
      requires forall c :: c in broker.created ==> c.nonce != nonce
      ensures Valid() && this.broker == broker && this.nonce == nonce && log == []
    {
      this.broker, this.nonce, count, log := broker, nonce, 0, [];
    }

    /** No order carries an id this placer has yet to mint. */
    ghost predicate Valid()
      reads this, broker
    {
      forall c :: c in broker.created && c.nonce == nonce ==> c.count <= count
    }

    method NextClientId() returns (cid: ClientId)
      requires Valid()
      modifies `count
      ensures Valid() && count == old(count) + 1 && cid == ClientId(nonce, count) && cid !in broker.created
    {
      count := count + 1;
      cid := ClientId(nonce, count);
    }

    /** One call creates at most one order, under one id, whatever is lost; an adopted order
        matches what was asked; exhaustion is reported as possibly delivered. */
    method PlaceResolved(want: Want) returns (out: Outcome)
      requires Valid()
      modifies this, broker
      ensures Valid() && count == old(count) + 1
      ensures var cid := ClientId(nonce, count);
              && cid !in old(broker.created)
              && (broker.created == old(broker.created) ||
                  (cid in broker.created && Matches(broker.created[cid], want) &&
                   broker.created == old(broker.created)[cid := broker.created[cid]]))
      ensures old(log) <= log && Follows(log[|old(log)|..], ClientId(nonce, count), want)
      ensures Concludes(log[|old(log)|..], want, out)
      ensures out.Rejected? && |log| == |old(log)| + 1 ==> broker.created == old(broker.created)
      ensures out.Placed? && (broker.honest || log[|log| - 1].Attempt?) ==>
                ClientId(nonce, count) in broker.created && broker.created[ClientId(nonce, count)].id == out.id
    {
      hide Follows, AllInconclusive, SomeHeard;
      var cid := NextClientId();
      NothingTried(cid, want);
      ghost var run: seq<Entry> := [];
      var firstErr := Unknown;
      var sawAbsent := false;
      var round := 0;
      while round < ROUNDS
        invariant 0 <= round <= ROUNDS && |run| == round * (1 + PROBES)
        invariant log == old(log) + run && count == old(count) + 1 && Valid()
        invariant Follows(run, cid, want) && AllInconclusive(run, want)
        invariant AtMostOne(old(broker.created), cid, want)
        invariant round == 0 ==> broker.created == old(broker.created)
        invariant round > 0 ==> run[0].Attempt? && run[0].reply == Error(firstErr) && Ambiguous(firstErr)
        invariant sawAbsent <==> SomeHeard(run)
      {
        var reply := broker.Place(cid, want);
        log := log + [Attempt(cid, reply)];
        RoundFollows(run, reply, [], cid, want);
        assert log[|old(log)|..] == run + [Attempt(cid, reply)] + [];
        if reply.Accepted? {
          return Placed(reply.id);
        }
        if !Ambiguous(reply.code) {
          return Rejected(reply.code);
        }
        if round == 0 {
          firstErr := reply.code;
        }
        var found, absent, probes := ProbeRound(cid, want);
        RoundFollows(run, reply, probes, cid, want);
        run := run + [Attempt(cid, reply)] + probes;
        assert log == old(log) + run;
        assert log[|old(log)|..] == run;
        if found.Some? {
          return Placed(found.value);
        }
        sawAbsent := sawAbsent || absent;
        round := round + 1;
      }
      assert log[|old(log)|..] == run;
      LastInconclusive(run, want);
      out := Failed(firstErr, !sawAbsent);
    }

    /** Up to three looks at the active orders for the one id. */
    method ProbeRound(cid: ClientId, want: Want) returns (found: Option<int>, absent: bool, ghost probes: seq<Entry>)
      modifies `log
      ensures log == old(log) + probes && |probes| <= PROBES
      ensures forall k :: 0 <= k < |probes| ==> probes[k].Probe? && probes[k].cid == cid
      ensures found == None ==> |probes| == PROBES && AllInconclusive(probes, want) && (absent <==> SomeHeard(probes))
      ensures probes != [] && AllInconclusive(probes[..|probes| - 1], want)
      ensures found.Some? ==>
                && (broker.honest ==> cid in broker.created && broker.created[cid].id == found.value)
                && var l := probes[|probes| - 1].listing;
                   l.Listed? && Matches(l.order, want) && l.order.id == found.value
    {
      probes, absent := [], false;
      var probe := 0;
      while probe < PROBES
        invariant |probes| == probe <= PROBES && log == old(log) + probes
        invariant forall k :: 0 <= k < |probes| ==> probes[k].Probe? && probes[k].cid == cid
        invariant AllInconclusive(probes, want) && (absent <==> SomeHeard(probes))
      {
        var listing := broker.Find(cid);
        HeardAppend(probes, Probe(cid, listing));
        ghost var before := probes;
        probes := probes + [Probe(cid, listing)];
        assert probes[..|probes| - 1] == before;
        log := log + [Probe(cid, listing)];
        probe := probe + 1;
        if listing.Unreachable? {
          continue;
        }
        if listing.Listed? && Matches(listing.order, want) {
          return Some(listing.order.id), absent, probes;
        }
        absent := true;
      }
      found := None;
    }

    ghost predicate AtMostOne(before: Orders, cid: ClientId, want: Want)
      reads broker
    {
      broker.created == before ||
      (cid !in before && cid in broker.created && Matches(broker.created[cid], want) &&
       broker.created == before[cid := broker.created[cid]])
    }
  }

  /** What the engine is told and what was learnt agree: the error is possibly delivered exactly
      when no attempt and no probe ever settled the order's fate. */
  lemma AmbiguousWhenNothingSettled(run: seq<Entry>, cid: ClientId, want: Want, o: Outcome)
    requires Follows(run, cid, want) && Concludes(run, want, o)
    ensures MaybeDelivered(o) <==> AllInconclusive(run, want)
    ensures MaybeDelivered(o) ==> |run| == ROUNDS * (1 + PROBES)
  {
    if !MaybeDelivered(o) {
      assert !Inconclusive(run[|run| - 1], want);
    }
  }

  lemma NothingTried(cid: ClientId, want: Want)
    ensures Follows([], cid, want) && AllInconclusive([], want) && !SomeHeard([])
  {
  }

  lemma LastInconclusive(run: seq<Entry>, want: Want)
    requires AllInconclusive(run, want) && run != []
    ensures Inconclusive(run[|run| - 1], want)
  {
  }

  lemma HeardAppend(run: seq<Entry>, e: Entry)
    ensures SomeHeard(run + [e]) <==> SomeHeard(run) || Heard(e)
  {
    var all := run + [e];
    if SomeHeard(run) {
      var k :| 0 <= k < |run| && Heard(run[k]);
      assert Heard(all[k]);
    }
    if Heard(e) {
      assert Heard(all[|run|]);
    }
  }

  /** One more round, complete or ended by its last entry, keeps the protocol's shape. */
  lemma RoundFollows(run: seq<Entry>, reply: Reply, probes: seq<Entry>, cid: ClientId, want: Want)
    requires Follows(run, cid, want) && AllInconclusive(run, want)
    requires |run| % (1 + PROBES) == 0 && |run| + 1 + PROBES <= ROUNDS * (1 + PROBES) && |probes| <= PROBES
    requires forall k :: 0 <= k < |probes| ==> probes[k].Probe? && probes[k].cid == cid
    requires probes != [] ==> Inconclusive(Attempt(cid, reply), want) && AllInconclusive(probes[..|probes| - 1], want)
    ensures var all := run + [Attempt(cid, reply)] + probes;
            && Follows(all, cid, want) && (SomeHeard(all) <==> SomeHeard(run) || SomeHeard(probes))
            && (Inconclusive(Attempt(cid, reply), want) && AllInconclusive(probes, want) ==> AllInconclusive(all, want))
  {
    var all := run + [Attempt(cid, reply)] + probes;
    forall k | 0 <= k < |all|
      ensures all[k].cid == cid && (all[k].Attempt? <==> k % (1 + PROBES) == 0)
      ensures k < |all| - 1 ==> Inconclusive(all[k], want)
    {
      if k > |run| {
        var i := k - |run| - 1;
        assert all[k] == probes[i];
        if k < |all| - 1 {
          assert probes[..|probes| - 1][i] == probes[i];
        }
      }
    }
    if SomeHeard(run) {
      var k :| 0 <= k < |run| && Heard(run[k]);
      assert Heard(all[k]);
    }
    if SomeHeard(probes) {
      var k :| 0 <= k < |probes| && Heard(probes[k]);
      assert Heard(all[|run| + 1 + k]);
    }
  }

  // ----- what a rejection proves --------------------------------------------------------

  /** The orders the broker admitted, and those of them still active. */
  datatype World = World(created: Orders, resting: set<ClientId>)

  /** What may have happened out of sight while an entry was made: a request is admitted or not, an
      order may end at any time and need not be listed yet, and an honest broker lists only what
      rests. */
  ghost predicate Explains(before: World, after: World, e: Entry, cid: ClientId, want: Want, honest: bool) {
    match e
    case Attempt(_, reply) =>
      && Places(before.created, after.created, cid, want, reply)
      && after.resting <= before.resting + (after.created.Keys - before.created.Keys)
    case Probe(_, listing) =>
      && after.created == before.created && after.resting <= before.resting
      && (honest && listing.Listed? ==>
            cid in before.resting && cid in before.created && before.created[cid] == listing.order)
  }

  /** A history of the broker in agreement with every answer of the run. */
  ghost predicate History(worlds: seq<World>, run: seq<Entry>, cid: ClientId, want: Want, honest: bool) {
    && |worlds| == |run| + 1 && cid !in worlds[0].created && worlds[0].resting <= worlds[0].created.Keys
    && forall k :: 0 <= k < |run| ==> Explains(worlds[k], worlds[k + 1], run[k], cid, want, honest)
  }

  lemma {:induction false} CreatedMatches(worlds: seq<World>, run: seq<Entry>, cid: ClientId, want: Want, honest: bool,
      k: nat)
    requires History(worlds, run, cid, want, honest) && k <= |run|
    ensures worlds[k].resting <= worlds[k].created.Keys
    ensures cid in worlds[k].created ==> Matches(worlds[k].created[cid], want)
  {
    if k > 0 {
      CreatedMatches(worlds, run, cid, want, honest, k - 1);
      assert Explains(worlds[k - 1], worlds[k], run[k - 1], cid, want, honest);
    }
  }

  predicate SomeListed(run: seq<Entry>) {
    exists k :: 0 <= k < |run| && run[k].Probe? && run[k].listing.Listed?
  }

  /** A rejected call left nothing resting, whatever happened out of sight, exactly when it was
      rejected in its first round. (An honest broker cannot also have listed a stranger under the id:
      no history agrees with such a run.) */
  lemma RejectProvesNothingRests(run: seq<Entry>, cid: ClientId, want: Want, code: Code, honest: bool)
    requires Follows(run, cid, want) && Concludes(run, want, Rejected(code))
    ensures (forall worlds: seq<World> ::
               History(worlds, run, cid, want, honest) ==> cid !in worlds[|run|].resting) <==>
              |run| == 1 || (honest && SomeListed(run))
  {
    if |run| == 1 {
      forall worlds: seq<World> | History(worlds, run, cid, want, honest) ensures cid !in worlds[|run|].resting {
        CreatedMatches(worlds, run, cid, want, honest, 1);
        assert Explains(worlds[0], worlds[1], run[0], cid, want, honest);
      }
    } else if honest && SomeListed(run) {
      forall worlds: seq<World> ensures !History(worlds, run, cid, want, honest) {
        StrangerListed(worlds, run, cid, want, code);
      }
    } else {
      var worlds := RestsUnseen(run, cid, want, code, honest);
    }
  }

  /** An honest broker lists under the id only the order that was asked for. */
  lemma ListedIsOurs(worlds: seq<World>, run: seq<Entry>, cid: ClientId, want: Want, k: nat)
    requires History(worlds, run, cid, want, true)
    requires k < |run| && run[k].Probe? && run[k].listing.Listed?
    ensures Matches(run[k].listing.order, want)
  {
    CreatedMatches(worlds, run, cid, want, true, k);
    assert Explains(worlds[k], worlds[k + 1], run[k], cid, want, true);
  }

  lemma StrangerListed(worlds: seq<World>, run: seq<Entry>, cid: ClientId, want: Want, code: Code)
    requires Follows(run, cid, want) && Concludes(run, want, Rejected(code)) && SomeListed(run)
    ensures !History(worlds, run, cid, want, true)
  {
    if History(worlds, run, cid, want, true) {
      var k :| 0 <= k < |run| && run[k].Probe? && run[k].listing.Listed?;
      ListedIsOurs(worlds, run, cid, want, k);
      assert false;
    }
  }

  /** The first request was admitted, its answer lost, and the order never listed in time. */
  lemma RestsUnseen(run: seq<Entry>, cid: ClientId, want: Want, code: Code, honest: bool) returns (worlds: seq<World>)
    requires Follows(run, cid, want) && Concludes(run, want, Rejected(code)) && |run| > 1
    requires honest ==> !SomeListed(run)
    ensures History(worlds, run, cid, want, honest) && cid in worlds[|run|].resting
  {
    var none := World(map[], {});
    var rests := World(map[cid := Order(0, want.symbol, want.buy, want.lots)], {cid});
    worlds := seq(|run| + 1, k => if k == 0 then none else rests);
    forall k | 0 <= k < |run| ensures Explains(worlds[k], worlds[k + 1], run[k], cid, want, honest) {
      if k < |run| - 1 {
        assert Inconclusive(run[k], want);
      }
    }
  }
}
