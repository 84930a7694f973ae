/**
 The engine's invariants, stated over plain values so that every handler can be proved from
 the lemmas below without looking inside them.
 */
module EngineState {
  import opened Domain
  import opened OrderRegistry
  import opened RecoveryMachine
  import opened Trace

  datatype LegOrder = LegOrder(id: OrderId, price: real, isBid: bool)

  datatype Clip = Clip(
    dir: int,
    intent: Intent,
    target: int,
    legA: LegOrder,
    legB: LegOrder,
    makerID: OrderId,
    makerFilled: int,
    mode: ExecMode,
    deadline: Option<int>)
  {
    predicate Owns(id: OrderId) { id == legA.id || id == legB.id }
  }

  type Own = map<OrderId, OrdAcct>
  type Lines = map<OrderId, Hist>

  // ----- the order registry -------------------------------------------------------------

  /** Exactly-once inventory and exact cash for every own order; at a hedge ratio above one no
      passive order is on LegB. */
  ghost predicate RegistryOK(r: int, own: Own, lines: Lines, pending: set<OrderId>, makerIds: set<OrderId>) {
    && (forall id :: id in own ==>
          && id != NoId && id in lines && AcctOK(own[id], lines[id])
          && (own[id].maker ==> id in makerIds)
          && (own[id].maker && own[id].leg == LegB ==> r == 1))
    && (forall id :: id in pending ==> id in own && !own[id].maker)
  }

  /** No passive order's account changed. */
  ghost predicate MakersKept(own: Own, own': Own) {
    forall id :: (id in own && own[id].maker) || (id in own' && own'[id].maker) ==>
      id in own && id in own' && own[id] == own'[id]
  }

  /** What an order's line holds is what the stream said about it since it was registered. */
  predicate Follows(feed: seq<Report>, id: OrderId, placed: int, heard: Heard) {
    && heard.born <= |feed|
    && heard.delivered == Reported(feed, heard.born, id)
    && heard.cost == ReportedCost(feed, heard.born, id, placed)
  }

  ghost predicate FeedOK(own: Own, lines: Lines, feed: seq<Report>) {
    forall id :: id in own ==> id in lines && Follows(feed, id, own[id].placed, Told(lines[id]))
  }

  /** An account changes in something else than its fill events. */
  lemma FeedUpdate(own: Own, lines: Lines, feed: seq<Report>, id: OrderId, a: OrdAcct, h: Hist)
    requires FeedOK(own, lines, feed)
    requires id in own && id in lines ==> a.placed == own[id].placed && Told(h) == Told(lines[id])
    requires id in own && id in lines
    ensures FeedOK(own[id := a], lines[id := h], feed)
  {
  }

  /** An order is registered: the stream has said nothing about it yet. */
  lemma FeedNew(own: Own, lines: Lines, feed: seq<Report>, id: OrderId, a: OrdAcct, h: Hist)
    requires FeedOK(own, lines, feed) && Told(h) == Heard(|feed|, 0, 0.0)
    ensures FeedOK(own[id := a], lines[id := h], feed)
  {
    NothingReported(feed, id, a.placed);
  }

  /** An order's account takes in one event of the stream. */
  lemma FeedEvent(own: Own, lines: Lines, feed: seq<Report>, id: OrderId, a: OrdAcct, h: Hist, raw: int, p: real)
    requires FeedOK(own, lines, feed) && id in own && id in lines && raw > 0 && a.placed == own[id].placed
    requires own[id].seen == Min(own[id].placed, lines[id].delivered)
    requires Told(h) == HeardAfter(own[id], Told(lines[id]), raw, p)
    ensures FeedOK(own[id := a], lines[id := h], feed + [Report(id, raw, p)])
  {
    var e := Report(id, raw, p);
    forall x | x in own ensures Follows(feed + [e], x, own[x].placed, if x == id then Told(h) else Told(lines[x])) {
      ReportAppend(feed, lines[x].born, x, own[x].placed, e);
    }
  }

  /** An event that is about no own order, or about no lots. */
  lemma FeedForeign(own: Own, lines: Lines, feed: seq<Report>, e: Report)
    requires FeedOK(own, lines, feed) && (e.id !in own || e.lots <= 0)
    ensures FeedOK(own, lines, feed + [e])
  {
    forall x | x in own ensures Follows(feed + [e], x, own[x].placed, Told(lines[x])) {
      ReportAppend(feed, lines[x].born, x, own[x].placed, e);
    }
  }

  type Answers = set<(OrderId, nat)>

  /** A terminal count is never guessed: it is one the broker reported for this order, clamped to
      its size, and for a taker raised to what the stream had already shown. */
  ghost predicate Known(id: OrderId, a: OrdAcct, answers: Answers) {
    a.final >= 0 ==>
      if a.maker then exists e :: (id, e) in answers && a.final == Min(e, a.placed)
      else a.final == a.placed == a.seen ||
           exists e :: (id, e) in answers && Min(e, a.placed) <= a.final <= Max(a.seen, Min(e, a.placed))
  }

  ghost predicate KnownOK(own: Own, answers: Answers) {
    forall id :: id in own ==> Known(id, own[id], answers)
  }

  lemma KnownUpdate(own: Own, answers: Answers, id: OrderId, a: OrdAcct)
    requires KnownOK(own, answers) && Known(id, a, answers)
    ensures KnownOK(own[id := a], answers)
  {
  }

  lemma KnownAnswer(id: OrderId, a: OrdAcct, answers: Answers, executed: nat)
    requires a.maker && (id, executed) in answers && a.final == Min(executed, a.placed)
    ensures Known(id, a, answers)
  {
  }

  /** The stream may show more of an order; its terminal count stays known. */
  lemma KnownKeeps(own: Own, answers: Answers, id: OrderId, a: OrdAcct)
    requires KnownOK(own, answers)
    requires a.final < 0 || (id in own && SameOrder(own[id], a) && a.final == own[id].final &&
        own[id].seen <= a.seen <= a.placed)
    ensures KnownOK(own[id := a], answers)
  {
    if a.final >= 0 {
      assert Known(id, own[id], answers);
    }
  }

  lemma KnownMore(own: Own, answers: Answers, answers': Answers)
    requires KnownOK(own, answers) && answers <= answers'
    ensures KnownOK(own, answers')
  {
    forall id | id in own ensures Known(id, own[id], answers') {
      assert Known(id, own[id], answers);
    }
  }

  lemma EmptyRegistry(r: int, makerIds: set<OrderId>, answers: Answers)
    ensures RegistryOK(r, map[], map[], {}, makerIds) && FeedOK(map[], map[], []) && KnownOK(map[], answers)
    ensures QueuesOK(map[], [], [], false)
  {
  }

  lemma MakersKeptRefl(own: Own)
    ensures MakersKept(own, own)
  {
  }

  lemma MakersKeptTrans(own: Own, own': Own, own'': Own)
    requires MakersKept(own, own') && MakersKept(own', own'')
    ensures MakersKept(own, own'')
  {
  }

  /** No taker on the registry changed, nor whether it is watched. */
  ghost predicate TakersKept(own: Own, pending: set<OrderId>, own': Own, pending': set<OrderId>) {
    forall id :: id in own && !own[id].maker ==>
      id in own' && own'[id] == own[id] && (id in pending' <==> id in pending)
  }

  lemma TakersKeptRefl(own: Own, pending: set<OrderId>)
    ensures TakersKept(own, pending, own, pending)
  {
  }

  lemma TakersKeptTrans(own: Own, pending: set<OrderId>, own': Own, pending': set<OrderId>, own'': Own,
      pending'': set<OrderId>)
    requires TakersKept(own, pending, own', pending') && TakersKept(own', pending', own'', pending'')
    ensures TakersKept(own, pending, own'', pending'')
  {
  }

  /** One taker was settled and taken off the watch list, then other takers were placed. */
  lemma TakersKeptOthers(own: Own, pending: set<OrderId>, id: OrderId, a: OrdAcct, own': Own, pending': set<OrderId>)
    requires TakersKept(own[id := a], pending - {id}, own', pending') && !a.maker
    ensures id in own' && own'[id] == a && id !in pending'
    ensures TakersKept(own - {id}, pending - {id}, own', pending')
  {
  }

  /** One taker's account was rewritten in place. */
  lemma TakersKeptFlag(own: Own, pending: set<OrderId>, id: OrderId, a: OrdAcct)
    requires id in own
    ensures TakersKept(own - {id}, pending - {id}, own[id := a], pending)
    ensures TakersKept(own - {id}, pending - {id}, own, pending)
    ensures TakersKept(own - {id}, pending - {id}, own, pending - {id})
    ensures own[id := a] - {id} == own - {id}
  {
  }

  /** The watchdog's turn for this taker has come: it is open, overdue or reported dead, and not
      probed a moment ago. */
  predicate ProbeDue(cfg: Config, a: OrdAcct, at: int) {
    && a.final < 0 && a.seen < a.placed
    && (a.deadSeen || at - a.placedAt >= TakerConfirmAfter(cfg))
    && (a.lastProbe.Some? ==> at - a.lastProbe.value >= TAKER_PROBE_EVERY)
  }

  /** What one look at a watched taker must achieve. */
  predicate Watched(cfg: Config, a: OrdAcct, a': OrdAcct, stillPending: bool, at: int) {
    && (a.final >= 0 ==> !stillPending)
    && (a.final < 0 && a.seen >= a.placed ==> a'.final >= 0 && !stillPending)
    && (ProbeDue(cfg, a, at) ==> a'.lastProbe == Some(at) && (a'.final >= 0 <==> !stillPending))
  }

  /** A pass over the watch list: every taker of `done` had its look, the others are as before. */
  ghost predicate Passed(cfg: Config, own0: Own, pending0: set<OrderId>, own: Own, pending: set<OrderId>,
      done: set<OrderId>, at: int) {
    forall id :: id in pending0 && id in own0 && !own0[id].maker ==>
      && id in own && !own[id].maker
      && if id in done then Watched(cfg, own0[id], own[id], id in pending, at)
         else own[id] == own0[id] && id in pending
  }

  lemma PassedStart(cfg: Config, own: Own, pending: set<OrderId>, at: int)
    ensures Passed(cfg, own, pending, own, pending, {}, at)
  {
  }

  lemma PassedStep(cfg: Config, own0: Own, pending0: set<OrderId>, own: Own, pending: set<OrderId>, done: set<OrderId>,
                   at: int, id: OrderId, own': Own, pending': set<OrderId>)
    requires Passed(cfg, own0, pending0, own, pending, done, at)
    requires id in pending0 && id !in done && id in own0 && !own0[id].maker
    requires id in own' && !own'[id].maker && Watched(cfg, own[id], own'[id], id in pending', at)
    requires TakersKept(own - {id}, pending - {id}, own', pending')
    ensures Passed(cfg, own0, pending0, own', pending', done + {id}, at)
  {
    forall x | x in pending0 && x in own0 && !own0[x].maker && x != id ensures x in own' && own'[x] == own[x] {
      assert x in own - {id};
    }
  }

  /** Every taker watched before had its look: a probe if one was due, and it leaves the list
      exactly when it is settled. */
  ghost predicate EachWatched(cfg: Config, own0: Own, pending0: set<OrderId>, own: Own, pending: set<OrderId>,
      at: int) {
    forall id :: id in pending0 && id in own0 && !own0[id].maker ==>
      id in own && !own[id].maker && Watched(cfg, own0[id], own[id], id in pending, at)
  }

  lemma PassedAll(cfg: Config, own0: Own, pending0: set<OrderId>, own: Own, pending: set<OrderId>, at: int)
    requires Passed(cfg, own0, pending0, own, pending, pending0, at)
    ensures EachWatched(cfg, own0, pending0, own, pending, at)
  {
  }

  /** No taker was touched before or after the pass. */
  lemma WatchedFrame(cfg: Config, own0: Own, pending0: set<OrderId>, own1: Own, pending1: set<OrderId>, own2: Own,
                     pending2: set<OrderId>, own3: Own, pending3: set<OrderId>, at: int)
    requires TakersKept(own0, pending0, own1, pending1) && TakersKept(own2, pending2, own3, pending3)
    requires EachWatched(cfg, own1, pending1, own2, pending2, at)
    ensures EachWatched(cfg, own0, pending0, own3, pending3, at)
  {
  }

  lemma MakerKept(own: Own, own': Own, id: OrderId)
    requires MakersKept(own, own')
    ensures (id in own && own[id].maker) == (id in own' && own'[id].maker)
    ensures id in own && own[id].maker ==> own[id] == own'[id]
  {
  }

  lemma AcctAt(r: int, own: Own, lines: Lines, pending: set<OrderId>, makerIds: set<OrderId>, id: OrderId)
    requires RegistryOK(r, own, lines, pending, makerIds)
    ensures id in own ==> id != NoId && id in lines && AcctOK(own[id], lines[id])
    ensures id in own && own[id].maker ==> id in makerIds && (own[id].leg == LegB ==> r == 1)
    ensures id in pending ==> id in own && !own[id].maker
  {
  }

  /** One account and its ledger line change together. */
  lemma RegistryUpdate(r: int, own: Own, lines: Lines, pending: set<OrderId>, makerIds: set<OrderId>,
                       id: OrderId, a: OrdAcct, h: Hist, pending': set<OrderId>, makerIds': set<OrderId>)
    requires RegistryOK(r, own, lines, pending, makerIds)
    requires id != NoId && AcctOK(a, h)
    requires a.maker ==> id in makerIds' && (a.leg == LegB ==> r == 1)
    requires makerIds <= makerIds'
    requires if a.maker then pending' <= pending && id !in pending' else pending' <= pending + {id}
    ensures RegistryOK(r, own[id := a], lines[id := h], pending', makerIds')
    ensures !a.maker && (id in own ==> !own[id].maker) ==> MakersKept(own, own[id := a])
  {
  }

  lemma RegistryShrink(r: int, own: Own, lines: Lines, pending: set<OrderId>, makerIds: set<OrderId>,
      pending': set<OrderId>)
    requires RegistryOK(r, own, lines, pending, makerIds) && pending' <= pending
    ensures RegistryOK(r, own, lines, pending', makerIds)
  {
  }

  // ----- obligations --------------------------------------------------------------------

  function Queued(q: seq<OrderId>): set<OrderId> {
    if q == [] then {} else Queued(q[..|q| - 1]) + {q[|q| - 1]}
  }

  predicate NoRepeat(q: seq<OrderId>) {
    q == [] || (NoRepeat(q[..|q| - 1]) && q[|q| - 1] !in Queued(q[..|q| - 1]))
  }

  lemma QueuedAppend(q: seq<OrderId>, id: OrderId)
    ensures Queued(q + [id]) == Queued(q) + {id}
    ensures NoRepeat(q + [id]) == (NoRepeat(q) && id !in Queued(q))
  {
    assert (q + [id])[..|q|] == q;
  }

  lemma {:induction false} QueuedIsMembership(q: seq<OrderId>, id: OrderId)
    ensures id in Queued(q) <==> id in q
    ensures NoRepeat(q) <==> forall i, j :: 0 <= i < j < |q| ==> q[i] != q[j]
  {
    if q != [] {
      var init, last := q[..|q| - 1], q[|q| - 1];
      QueuedIsMembership(init, id);
      QueuedIsMembership(init, last);
      assert q == init + [last];
      assert forall i :: 0 <= i < |init| ==> init[i] == q[i];
      if last in init {
        var i :| 0 <= i < |init| && init[i] == last;
        assert q[i] == q[|q| - 1];
      }
    }
  }

  lemma {:induction false} QueuedOnce(q: seq<OrderId>, id: OrderId)
    requires NoRepeat(q)
    ensures multiset(q)[id] == if id in Queued(q) then 1 else 0
  {
    if q != [] {
      var init, last := q[..|q| - 1], q[|q| - 1];
      QueuedOnce(init, id);
      assert q == init + [last];
      assert multiset(q) == multiset(init) + multiset{last};
    }
  }

  /** Every parked obligation is a real one, parked once, and keeps the engine stuck, that is
      impaired or halted. A queued retire is still unanswered or has its terminal count. */
  ghost predicate QueuesOK(own: Own, q: seq<OrderId>, debts: seq<HedgeDebt>, stuck: bool) {
    && (forall id :: id in Queued(q) ==> id in own && own[id].maker && (own[id].deferred || own[id].final >= 0))
    && NoRepeat(q)
    && (forall id :: id in own && own[id].deferred ==> id in Queued(q))
    && (forall i :: 0 <= i < |debts| ==> debts[i].lots > 0)
    && (q != [] || debts != [] ==> stuck)
  }

  lemma QueuesFrame(r: int, own: Own, own': Own, lines: Lines, pending: set<OrderId>, makerIds: set<OrderId>,
                    q: seq<OrderId>, debts: seq<HedgeDebt>, stuck: bool)
    requires QueuesOK(own, q, debts, stuck) && MakersKept(own, own')
    requires RegistryOK(r, own', lines, pending, makerIds)
    ensures QueuesOK(own', q, debts, stuck)
  {
    forall id | id in own' && own'[id].deferred ensures id in Queued(q) {
      assert CountOK(own'[id], lines[id]);
    }
  }

  /** A passive order's account and line change together, and it is not left parked. */
  lemma MakerUpdated(r: int, own: Own, lines: Lines, pending: set<OrderId>, makerIds: set<OrderId>,
                     q: seq<OrderId>, debts: seq<HedgeDebt>, stuck: bool, id: OrderId, a: OrdAcct, h: Hist)
    requires RegistryOK(r, own, lines, pending, makerIds) && QueuesOK(own, q, debts, stuck)
    requires id in own && own[id].maker && SameOrder(own[id], a) && AcctOK(a, h)
    requires !a.deferred && (a.final >= 0 || !own[id].deferred) && (own[id].final >= 0 ==> a.final >= 0)
    ensures RegistryOK(r, own[id := a], lines[id := h], pending, makerIds)
    ensures QueuesOK(own[id := a], q, debts, stuck)
  {
  }

  /** A taker's account and line change together. */
  lemma TakerUpdated(r: int, own: Own, lines: Lines, pending: set<OrderId>, makerIds: set<OrderId>,
                     q: seq<OrderId>, debts: seq<HedgeDebt>, stuck: bool, id: OrderId, a: OrdAcct, h: Hist,
                     pending': set<OrderId>)
    requires RegistryOK(r, own, lines, pending, makerIds) && QueuesOK(own, q, debts, stuck)
    requires id in own && !own[id].maker && !a.maker && AcctOK(a, h)
    requires pending' <= pending
    ensures RegistryOK(r, own[id := a], lines[id := h], pending', makerIds)
    ensures QueuesOK(own[id := a], q, debts, stuck)
    ensures MakersKept(own, own[id := a])
  {
  }

  /** A taker's or a settled passive's account and line change together. */
  lemma SettledUpdated(r: int, own: Own, lines: Lines, pending: set<OrderId>, makerIds: set<OrderId>,
                       q: seq<OrderId>, debts: seq<HedgeDebt>, stuck: bool, id: OrderId, a: OrdAcct, h: Hist)
    requires RegistryOK(r, own, lines, pending, makerIds) && QueuesOK(own, q, debts, stuck)
    requires id in own && SameOrder(own[id], a) && AcctOK(a, h)
    requires a.maker ==> a.final >= 0 && !a.deferred
    ensures RegistryOK(r, own[id := a], lines[id := h], pending, makerIds)
    ensures QueuesOK(own[id := a], q, debts, stuck)
    ensures !a.maker ==> MakersKept(own, own[id := a])
  {
  }

  /** A live or parked passive's account and line change together. */
  lemma LiveUpdated(r: int, own: Own, lines: Lines, pending: set<OrderId>, makerIds: set<OrderId>,
                    q: seq<OrderId>, debts: seq<HedgeDebt>, stuck: bool, id: OrderId, a: OrdAcct, h: Hist)
    requires RegistryOK(r, own, lines, pending, makerIds) && QueuesOK(own, q, debts, stuck)
    requires id in own && own[id].maker && own[id].final < 0 && SameOrder(own[id], a) && AcctOK(a, h)
    requires a.final < 0 && a.deferred == own[id].deferred
    ensures RegistryOK(r, own[id := a], lines[id := h], pending, makerIds)
    ensures QueuesOK(own[id := a], q, debts, stuck)
  {
  }

  /** A placed taker is registered, in place of an earlier taker of the same id if there is one. */
  lemma TakerTracked(r: int, own: Own, lines: Lines, pending: set<OrderId>, makerIds: set<OrderId>, feed: seq<Report>,
                     answers: Answers, q: seq<OrderId>, debts: seq<HedgeDebt>, stuck: bool, id: OrderId, a: OrdAcct,
                     h: Hist, pending': set<OrderId>)
    requires RegistryOK(r, own, lines, pending, makerIds) && FeedOK(own, lines, feed) && KnownOK(own, answers)
    requires QueuesOK(own, q, debts, stuck)
    requires id != NoId && id !in makerIds && AcctOK(a, h) && !a.maker && a.final < 0
    requires Told(h) == Heard(|feed|, 0, 0.0) && pending' <= pending + {id}
    ensures RegistryOK(r, own[id := a], lines[id := h], pending', makerIds)
    ensures FeedOK(own[id := a], lines[id := h], feed) && KnownOK(own[id := a], answers)
    ensures QueuesOK(own[id := a], q, debts, stuck) && MakersKept(own, own[id := a])
    ensures id in own ==> !own[id].maker
  {
    hide RegistryOK, FeedOK, KnownOK, QueuesOK, MakersKept, AcctOK, Told;
    AcctAt(r, own, lines, pending, makerIds, id);
    RegistryUpdate(r, own, lines, pending, makerIds, id, a, h, pending', makerIds);
    FeedNew(own, lines, feed, id, a, h);
    KnownKeeps(own, answers, id, a);
    QueuesFrame(r, own, own[id := a], lines[id := h], pending', makerIds, q, debts, stuck);
  }

  lemma QueuesDefer(own: Own, q: seq<OrderId>, debts: seq<HedgeDebt>, stuck: bool, id: OrderId)
    requires QueuesOK(own, q, debts, stuck)
    requires id in own && own[id].maker && own[id].final < 0 && !own[id].deferred
    ensures QueuesOK(own[id := own[id].(deferred := true)], q + [id], debts, true)
  {
    QueuedAppend(q, id);
  }

  lemma QueuesDebt(own: Own, q: seq<OrderId>, debts: seq<HedgeDebt>, stuck: bool, d: HedgeDebt)
    requires QueuesOK(own, q, debts, stuck) && d.lots > 0
    ensures QueuesOK(own, q, debts + [d], true)
  {
  }

  lemma QueuesStuck(own: Own, q: seq<OrderId>, debts: seq<HedgeDebt>, stuck: bool)
    requires QueuesOK(own, q, debts, stuck)
    ensures QueuesOK(own, q, debts, true)
    ensures q == [] && debts == [] ==> QueuesOK(own, q, debts, false)
    ensures q != [] || debts != [] ==> stuck
  {
  }

  lemma QueuedAt(own: Own, q: seq<OrderId>, debts: seq<HedgeDebt>, stuck: bool, id: OrderId)
    requires QueuesOK(own, q, debts, stuck)
    ensures id in Queued(q) ==> id in own && own[id].maker && (own[id].deferred || own[id].final >= 0)
    ensures id in own && own[id].deferred ==> id in Queued(q)
  {
  }

  /** Progress of the obligation loop over the retire queue: of the first i ids, `rem` keeps
      those still unanswered, and the others have their terminal count. */
  ghost predicate Filtered(own: Own, q: seq<OrderId>, i: nat, rem: seq<OrderId>) {
    && i <= |q|
    && NoRepeat(rem)
    && Queued(rem) <= Queued(q[..i])
    && forall id :: id in Queued(q[..i]) ==>
         id in Queued(rem) || (id in own && own[id].maker && !own[id].deferred && own[id].final >= 0)
  }

  lemma {:induction false} NextNotQueued(q: seq<OrderId>, i: nat)
    requires NoRepeat(q) && i < |q|
    ensures q[i] !in Queued(q[..i])
    ensures Queued(q[..i + 1]) == Queued(q[..i]) + {q[i]}
    decreases |q|
  {
    assert q[..i + 1] == q[..i] + [q[i]];
    QueuedAppend(q[..i], q[i]);
    if i < |q| - 1 {
      var init := q[..|q| - 1];
      NextNotQueued(init, i);
      assert init[..i] == q[..i];
    } else {
      assert q[..i] == q[..|q| - 1];
    }
  }

  lemma {:induction false} QueuedHas(q: seq<OrderId>, i: nat)
    requires i < |q|
    ensures q[i] in Queued(q)
    decreases |q|
  {
    if i < |q| - 1 {
      QueuedHas(q[..|q| - 1], i);
    }
  }

  lemma FilterStart(own: Own, q: seq<OrderId>)
    ensures Filtered(own, q, 0, [])
  {
    assert q[..0] == [];
  }

  lemma FilterStep(own: Own, own': Own, q: seq<OrderId>, i: nat, rem: seq<OrderId>, resolved: bool)
    requires Filtered(own, q, i, rem) && i < |q| && NoRepeat(q)
    requires q[i] in own && own[q[i]].maker
    requires q[i] in own' && SameOrder(own[q[i]], own'[q[i]]) && MakersKept(own[q[i] := own'[q[i]]], own')
    requires resolved ==> own'[q[i]].final >= 0 && !own'[q[i]].deferred
    ensures Filtered(own', q, i + 1, if resolved then rem else rem + [q[i]])
  {
    NextNotQueued(q, i);
    QueuedAppend(rem, q[i]);
    var mid := own[q[i] := own'[q[i]]];
    var rem' := if resolved then rem else rem + [q[i]];
    forall id | id in Queued(q[..i + 1])
      ensures id in Queued(rem') || (id in own' && own'[id].maker && !own'[id].deferred && own'[id].final >= 0)
    {
      if id != q[i] && id !in Queued(rem) {
        assert mid[id] == own[id];
      }
    }
  }

  /** The loop drops from the queue only orders whose terminal count is known. */
  lemma FilterDone(own: Own, q: seq<OrderId>, rem: seq<OrderId>, debts: seq<HedgeDebt>, stuck: bool)
    requires QueuesOK(own, q, debts, stuck) && Filtered(own, q, |q|, rem)
    ensures QueuesOK(own, rem, debts, true)
    ensures Answered(q, rem, own)
  {
    assert q[..|q|] == q;
  }

  /** Every retire parked in q is still parked in q' or has its terminal count. */
  ghost predicate Answered(q: seq<OrderId>, q': seq<OrderId>, own: Own) {
    forall id :: id in Queued(q) ==> id in Queued(q') || (id in own && own[id].maker && own[id].final >= 0)
  }

  lemma {:induction false} QueuedPrefix(q: seq<OrderId>, q': seq<OrderId>)
    requires q <= q'
    ensures Queued(q) <= Queued(q')
    decreases |q'|
  {
    if |q| < |q'| {
      QueuedPrefix(q, q'[..|q'| - 1]);
    } else {
      assert q == q';
    }
  }

  /** The broker said nothing about the orders of q. */
  ghost predicate Unheard(q: seq<OrderId>, answers: Answers, answers': Answers) {
    forall id, e :: id in Queued(q) && (id, e) in answers' ==> (id, e) in answers
  }

  /** The answers since are about the first i orders of q, and not about those still unanswered. */
  ghost predicate AskedOnly(q: seq<OrderId>, i: nat, rem: seq<OrderId>, answers: Answers, answers': Answers) {
    i <= |q| &&
    forall id, e :: (id, e) in answers' && (id, e) !in answers ==> id in Queued(q[..i]) && id !in Queued(rem)
  }

  lemma AskedStart(q: seq<OrderId>, answers: Answers)
    ensures AskedOnly(q, 0, [], answers, answers)
  {
  }

  lemma AskedStep(own: Own, q: seq<OrderId>, i: nat, rem: seq<OrderId>, answers0: Answers, answers: Answers,
                  answers': Answers, resolved: bool)
    requires NoRepeat(q) && Filtered(own, q, i, rem) && i < |q| && AskedOnly(q, i, rem, answers0, answers)
    requires forall x, e :: (x, e) in answers' && (x, e) !in answers ==> x == q[i] && resolved
    ensures AskedOnly(q, i + 1, if resolved then rem else rem + [q[i]], answers0, answers')
  {
    NextNotQueued(q, i);
    QueuedAppend(rem, q[i]);
  }

  lemma AskedDone(q: seq<OrderId>, rem: seq<OrderId>, answers: Answers, answers': Answers)
    requires AskedOnly(q, |q|, rem, answers, answers')
    ensures Unheard(rem, answers, answers')
  {
  }

  function PaidBy(d: HedgeDebt): Rpc {
    TakerRpc(d.leg, d.buy, d.lots, Took)
  }

  /** Every owed hedge was asked for once, in order. */
  predicate Asks(rpcs: seq<Rpc>, debts: seq<HedgeDebt>) {
    && |rpcs| == |debts|
    && forall i :: 0 <= i < |debts| ==>
         rpcs[i].TakerRpc? && rpcs[i] == TakerRpc(debts[i].leg, debts[i].buy, debts[i].lots, rpcs[i].outcome)
  }

  /** The debts whose request was not accepted, in order. */
  function Unpaid(debts: seq<HedgeDebt>, rpcs: seq<Rpc>): seq<HedgeDebt>
    requires Asks(rpcs, debts)
  {
    if debts == [] then []
    else
      var n := |debts| - 1;
      Unpaid(debts[..n], rpcs[..n]) + if rpcs[n].outcome == Took then [] else [debts[n]]
  }

  lemma UnpaidAppend(debts: seq<HedgeDebt>, rpcs: seq<Rpc>, d: HedgeDebt, rpc: Rpc)
    requires Asks(rpcs, debts) && rpc.TakerRpc? && rpc == TakerRpc(d.leg, d.buy, d.lots, rpc.outcome)
    ensures Asks(rpcs + [rpc], debts + [d])
    ensures Unpaid(debts + [d], rpcs + [rpc]) == Unpaid(debts, rpcs) + if rpc.outcome == Took then [] else [d]
  {
    assert (debts + [d])[..|debts|] == debts && (rpcs + [rpc])[..|rpcs|] == rpcs;
  }

  /** A debt leaves the queue only for an accepted request of its own leg, side and size. */
  ghost predicate DebtsHeld(debts: seq<HedgeDebt>, rpcs: seq<Rpc>, debts': seq<HedgeDebt>, rpcs': seq<Rpc>) {
    forall d: HedgeDebt ::
      multiset(debts)[d] + multiset(rpcs)[PaidBy(d)] <= multiset(debts')[d] + multiset(rpcs')[PaidBy(d)]
  }

  lemma OneMore<T>(xs: seq<T>, x: T, y: T)
    ensures multiset(xs + [x])[y] == multiset(xs)[y] + if x == y then 1 else 0
  {
  }

  lemma OneAsked(debts: seq<HedgeDebt>, rpcs: seq<Rpc>, rem: seq<HedgeDebt>, x: HedgeDebt, rpc: Rpc, d: HedgeDebt)
    requires multiset(debts)[d] == multiset(rem)[d] + multiset(rpcs)[PaidBy(d)]
    requires rpc.TakerRpc? && rpc == TakerRpc(x.leg, x.buy, x.lots, rpc.outcome)
    ensures multiset(debts + [x])[d] ==
            multiset(rem + if rpc.outcome == Took then [] else [x])[d] + multiset(rpcs + [rpc])[PaidBy(d)]
  {
    OneMore(debts, x, d);
    OneMore(rpcs, rpc, PaidBy(d));
    if rpc.outcome == Took {
      assert rem + [] == rem;
    } else {
      OneMore(rem, x, d);
    }
  }

  lemma LastSplit<T>(xs: seq<T>)
    requires xs != []
    ensures xs == xs[..|xs| - 1] + [xs[|xs| - 1]]
  {
  }

  lemma UnpaidSplit(debts: seq<HedgeDebt>, rpcs: seq<Rpc>)
    requires Asks(rpcs, debts) && debts != []
    ensures var n := |debts| - 1;
            && |rpcs| == |debts| && Asks(rpcs[..n], debts[..n]) && rpcs[n].TakerRpc?
            && rpcs[n] == TakerRpc(debts[n].leg, debts[n].buy, debts[n].lots, rpcs[n].outcome)
            && Unpaid(debts, rpcs) == Unpaid(debts[..n], rpcs[..n]) + if rpcs[n].outcome == Took then [] else [debts[n]]
  {
    assert Asks(rpcs[..|debts| - 1], debts[..|debts| - 1]);
  }

  lemma NothingUnpaid(debts: seq<HedgeDebt>, rpcs: seq<Rpc>)
    requires Asks(rpcs, debts) && debts == []
    ensures rpcs == [] && Unpaid(debts, rpcs) == []
  {
  }

  lemma {:induction false} UnpaidHeld(debts: seq<HedgeDebt>, rpcs: seq<Rpc>, d: HedgeDebt)
    requires Asks(rpcs, debts)
    ensures multiset(debts)[d] == multiset(Unpaid(debts, rpcs))[d] + multiset(rpcs)[PaidBy(d)]
    decreases |debts|
  {
    hide Asks, Unpaid;
    if debts == [] {
      NothingUnpaid(debts, rpcs);
    } else {
      var n := |debts| - 1;
      UnpaidSplit(debts, rpcs);
      LastSplit(debts);
      LastSplit(rpcs);
      UnpaidHeld(debts[..n], rpcs[..n], d);
      OneAsked(debts[..n], rpcs[..n], Unpaid(debts[..n], rpcs[..n]), debts[n], rpcs[n], d);
    }
  }

  /** A pass over the debts keeps every one it did not place, and drops exactly the placed. */
  lemma PassHolds(debts: seq<HedgeDebt>, attempts: seq<Rpc>, rpcs: seq<Rpc>)
    requires Asks(attempts, debts)
    ensures DebtsHeld(debts, rpcs, Unpaid(debts, attempts), rpcs + attempts)
  {
    forall d: HedgeDebt
      ensures multiset(debts)[d] + multiset(rpcs)[PaidBy(d)] <=
              multiset(Unpaid(debts, attempts))[d] + multiset(rpcs + attempts)[PaidBy(d)]
    {
      UnpaidHeld(debts, attempts, d);
    }
  }

  lemma DebtsDropped(own: Own, q: seq<OrderId>, debts: seq<HedgeDebt>, rem: seq<HedgeDebt>, stuck: bool)
    requires QueuesOK(own, q, debts, stuck)
    requires forall i :: 0 <= i < |rem| ==> rem[i].lots > 0
    ensures QueuesOK(own, q, rem, true)
  {
  }

  lemma DebtPositive(own: Own, q: seq<OrderId>, debts: seq<HedgeDebt>, stuck: bool, i: nat)
    requires QueuesOK(own, q, debts, stuck) && i < |debts|
    ensures debts[i].lots > 0
  {
  }

  /** Some watched taker is overdue and neither confirmed nor settled. */
  predicate Overdue(cfg: Config, own: Own, pending: set<OrderId>, at: int) {
    exists id :: id in pending && id in own && !own[id].Confirmed() &&
                 (own[id].deadSeen || at - own[id].placedAt >= TakerConfirmAfter(cfg))
  }

  // ----- the working clip ---------------------------------------------------------------

  /** `lo` is empty, or rests one of the engine's own passive orders of the clip's size. */
  predicate LegRests(own: Own, lo: LegOrder, leg: Leg, target: int) {
    lo.id == NoId ||
    (lo.id in own &&
     var a := own[lo.id];
     a.maker && a.leg == leg && a.isBuy == lo.isBid && a.placed == target)
  }

  predicate ClipShape(r: int, c: Clip, own: Own) {
    && c.target > 0
    && c.dir != 0
    && c.legA.isBid == (c.dir > 0)
    && c.legB.isBid == (c.dir < 0)
    && LegRests(own, c.legA, LegA, c.target)
    && LegRests(own, c.legB, LegB, c.target)
    && (c.legB.id != NoId ==> r == 1)
    && (c.mode == ExecSoloMaker || r == 1)
    && (c.makerID != NoId ==> c.Owns(c.makerID))
    && c.makerFilled >= 0
    && (c.makerID == NoId <==> c.makerFilled == 0)
  }

  /** Every live passive order that is not parked is one of `ids`. */
  ghost predicate Covered(own: Own, ids: set<OrderId>) {
    forall id :: id in own && own[id].Live() ==> id in ids
  }

  lemma CoveredFrame(own: Own, own': Own, ids: set<OrderId>)
    requires Covered(own, ids) && MakersKept(own, own')
    ensures Covered(own', ids)
  {
  }

  lemma CoveredUpdate(own: Own, ids: set<OrderId>, id: OrderId, a: OrdAcct)
    requires Covered(own, ids)
    ensures Covered(own[id := a], if a.Live() then ids + {id} else ids - {id})
  {
  }

  lemma CoveredRetire(own: Own, own': Own, ids: set<OrderId>, id: OrderId)
    requires Covered(own, ids)
    requires id !in own ==> own' == own
    requires id in own ==> id in own' && MakersKept(own[id := own'[id]], own')
    requires id in own ==> own' == own || !own'[id].Live()
    ensures Covered(own', ids)
  {
  }

  function Legs(c: Clip): set<OrderId> {
    {c.legA.id, c.legB.id}
  }

  /** The orders that may be live between handlers: both legs until one fills, then only that
      one, the maker. */
  function ClipIds(clip: Option<Clip>): set<OrderId> {
    match clip
    case None => {}
    case Some(c) => if c.makerID == NoId then Legs(c) else {c.makerID}
  }

  predicate IsLive(own: Own, id: OrderId) {
    id in own && own[id].Live()
  }

  /** Lots a resting order could still be caught with by its cancel. */
  function Room(own: Own, id: OrderId): int {
    if IsLive(own, id) then own[id].placed - own[id].folded else 0
  }

  predicate Untouched(own: Own, id: OrderId) {
    id == NoId || (id in own && own[id].Live() && own[id].folded == 0)
  }

  predicate Retired(own: Own, id: OrderId) {
    id == NoId || (id in own && own[id].final >= 0)
  }

  /** The clip has been worked cleanly: the legs moved by exactly the maker's fills. */
  predicate CleanWork(r: int, c: Clip, own: Own, dA: int, dB: int) {
    && c.makerFilled < c.target
    && PairMove(r, c.legA.isBid, dA, dB, c.makerFilled)
    && (c.makerID == NoId ==> Untouched(own, c.legA.id) && Untouched(own, c.legB.id))
    && (c.makerID != NoId ==> MakerLive(own, c) && Retired(own, Counterpart(c)))
  }

  function Counterpart(c: Clip): OrderId {
    if c.makerID == c.legA.id then c.legB.id else c.legA.id
  }

  /** The maker still rests, and the clip has acted on all it filled. */
  predicate MakerLive(own: Own, c: Clip) {
    c.makerID in own && own[c.makerID].Live() && own[c.makerID].folded == c.makerFilled
  }

  /** One of the clip's legs filled n more lots: it is the maker from now on. */
  lemma MakerFills(r: int, c: Clip, own: Own, own': Own, id: OrderId, n: int)
    requires ClipShape(r, c, own) && Covered(own, ClipIds(Some(c))) && NoId !in own
    requires c.Owns(id) && (c.makerID == NoId || c.makerID == id)
    requires id in own && own[id].final < 0 && 0 < n <= own[id].placed - own[id].folded
    requires id in own' && own' == own[id := own'[id]] && SameOrder(own[id], own'[id])
    requires own'[id].folded == own[id].folded + n && own'[id].final < 0 && own'[id].deferred == own[id].deferred
    ensures var c' := c.(makerID := id, makerFilled := c.makerFilled + n);
            && ClipShape(r, c', own') && Covered(own', ClipIds(Some(c))) && Counterpart(c') != id
            && Legs(c') - {Counterpart(c')} == {id}
            && (c.makerID == NoId ==> c.makerFilled == 0)
            && forall dA, dB :: CleanWork(r, c, own, dA, dB) ==>
                 && PairMove(r, c.legA.isBid, dA, dB, c.makerFilled)
                 && MakerLive(own', c') && c'.makerFilled <= c'.target
                 && if c.makerID == NoId then Untouched(own', Counterpart(c')) else Retired(own', Counterpart(c'))
  {
    LegsDiffer(r, c, own);
  }

  /** The maker's counterpart was retired. */
  lemma CounterpartRetired(r: int, c: Clip, own: Own, own': Own)
    requires ClipShape(r, c, own) && Covered(own, Legs(c)) && NoId !in own
    requires c.makerID != NoId && Counterpart(c) != c.makerID
    requires Counterpart(c) !in own ==> own' == own
    requires Counterpart(c) in own ==>
               && Counterpart(c) in own' && own' == own[Counterpart(c) := own'[Counterpart(c)]]
               && SameOrder(own[Counterpart(c)], own'[Counterpart(c)]) && !own'[Counterpart(c)].Live()
    ensures ClipShape(r, c, own') && Covered(own', {c.makerID}) && Room(own', Counterpart(c)) == 0
    ensures MakerLive(own, c) ==> MakerLive(own', c) && c.makerFilled + Room(own', c.makerID) == c.target
    ensures Untouched(own, Counterpart(c)) ==>
              && (Counterpart(c) in own ==> own[Counterpart(c)].folded == 0 && !own[Counterpart(c)].deferred)
              && ((Counterpart(c) in own' ==> own'[Counterpart(c)].final >= 0) ==> Retired(own', Counterpart(c)))
  {
  }

  lemma FullMaker(r: int, c: Clip, own: Own)
    requires ClipShape(r, c, own) && c.makerID != NoId
    ensures MakerLive(own, c) ==> c.makerFilled + Room(own, c.makerID) == c.target
  {
  }

  /** Takers leave the maker and its counterpart as they are. */
  lemma MakerFrame(r: int, c: Clip, own: Own, own': Own)
    requires ClipShape(r, c, own) && MakersKept(own, own') && c.makerID != NoId
    ensures ClipShape(r, c, own')
    ensures MakerLive(own, c) ==> MakerLive(own', c)
    ensures Retired(own, Counterpart(c)) ==> Retired(own', Counterpart(c))
  {
  }

  lemma ClipFrame(r: int, c: Clip, own: Own, own': Own, dA: int, dB: int)
    requires ClipShape(r, c, own) && MakersKept(own, own')
    ensures ClipShape(r, c, own')
    ensures CleanWork(r, c, own, dA, dB) ==> CleanWork(r, c, own', dA, dB)
  {
  }

  lemma CleanRoom(r: int, c: Clip, own: Own, dA: int, dB: int)
    requires ClipShape(r, c, own) && CleanWork(r, c, own, dA, dB) && NoId !in own
    ensures c.makerFilled + Room(own, c.legA.id) <= c.target
    ensures c.makerFilled + Room(own, c.legB.id) <= c.target
  {
  }

  /** One of the clip's orders was retired: the clip keeps its shape, and only the other one
      may still be live. */
  lemma ClipRetire(r: int, c: Clip, own: Own, own': Own, ids: set<OrderId>, id: OrderId)
    requires ClipShape(r, c, own) && Covered(own, ids)
    requires id !in own ==> own' == own
    requires id in own ==> id in own' && own' == own[id := own'[id]] && SameOrder(own[id], own'[id]) && !own'[id].Live()
    ensures ClipShape(r, c, own') && Covered(own', ids - {id})
    ensures forall x :: x != id ==> Room(own', x) == Room(own, x) && Retired(own', x) == Retired(own, x)
  {
  }

  /** An order that has just been placed for the clip, or none. */
  predicate JustPlaced(own: Own, lo: LegOrder, leg: Leg, lots: int) {
    lo.id == NoId || (lo.id in own && own[lo.id] == NewMaker(leg, lo.isBid, lo.price, lots))
  }

  /** A clip whose orders were just placed has the clip's shape and nothing to account for. */
  lemma ClipStarts(r: int, c: Clip, own: Own)
    requires c.target > 0 && c.dir != 0 && c.makerID == NoId && c.makerFilled == 0
    requires c.legA.isBid == (c.dir > 0) && c.legB.isBid == (c.dir < 0)
    requires JustPlaced(own, c.legA, LegA, c.target) && JustPlaced(own, c.legB, LegB, c.target)
    requires (c.legB.id != NoId ==> r == 1) && (c.mode == ExecSoloMaker || r == 1)
    ensures ClipShape(r, c, own) && CleanWork(r, c, own, 0, 0)
  {
  }

  /** The clip with its passive on `leg` replaced. */
  function Repegged(c: Clip, leg: Leg, lo: LegOrder): Clip {
    if leg == LegA then c.(legA := lo) else c.(legB := lo)
  }

  function LegOf(c: Clip, leg: Leg): LegOrder {
    if leg == LegA then c.legA else c.legB
  }

  /** A retired passive was replaced by a new one on the same side of the same leg. */
  lemma RepegKeepsClip(r: int, c: Clip, own: Own, own': Own, leg: Leg, lo: LegOrder, dA: int, dB: int)
    requires ClipShape(r, c, own) && Covered(own, Legs(c) - {LegOf(c, leg).id}) && NoId !in own
    requires c.makerID == NoId && (leg == LegB ==> r == 1)
    requires lo.id != NoId && lo.id !in own && lo.isBid == LegOf(c, leg).isBid
    requires own' == own[lo.id := NewMaker(leg, lo.isBid, lo.price, c.target)]
    ensures ClipShape(r, Repegged(c, leg, lo), own') && Covered(own', Legs(Repegged(c, leg, lo)))
    ensures PairMove(r, c.legA.isBid, dA, dB, 0) && Untouched(own, LegOf(c, Other(leg)).id) ==>
              CleanWork(r, Repegged(c, leg, lo), own', dA, dB)
  {
  }

  /** What one leg's retirement means for a clip whose maker is not designated yet. */
  lemma RepegRetire(r: int, c: Clip, own: Own, own': Own, leg: Leg)
    requires ClipShape(r, c, own) && Covered(own, Legs(c)) && NoId !in own && c.makerID == NoId
    requires LegOf(c, leg).id !in own ==> own' == own
    requires LegOf(c, leg).id in own ==>
               && LegOf(c, leg).id in own' && own' == own[LegOf(c, leg).id := own'[LegOf(c, leg).id]]
               && SameOrder(own[LegOf(c, leg).id], own'[LegOf(c, leg).id]) && !own'[LegOf(c, leg).id].Live()
    ensures ClipShape(r, c, own') && Covered(own', Legs(c) - {LegOf(c, leg).id}) && Covered(own', Legs(c))
    ensures c.makerFilled == 0 && Room(own', LegOf(c, leg).id) == 0
    ensures forall dA, dB :: CleanWork(r, c, own, dA, dB) ==>
              && PairMove(r, c.legA.isBid, dA, dB, 0) && Untouched(own', LegOf(c, Other(leg)).id)
              && Room(own', LegOf(c, Other(leg)).id) <= c.target
              && (LegOf(c, leg).id in own ==> own[LegOf(c, leg).id].folded == 0)
    ensures LegOf(c, leg).id in own ==>
              own[LegOf(c, leg).id].maker && own[LegOf(c, leg).id].placed == c.target &&
              own[LegOf(c, leg).id].leg == leg && own[LegOf(c, leg).id].isBuy == LegOf(c, leg).isBid
    ensures c.legB.isBid == !c.legA.isBid && LegOf(c, leg).id != NoId ==> LegOf(c, Other(leg)).id != LegOf(c, leg).id
  {
    LegsDiffer(r, c, own);
  }

  /** A parked order of the clip got its answer. */
  lemma ClipResolved(r: int, c: Clip, own: Own, own': Own, id: OrderId)
    requires ClipShape(r, c, own) && id in own && id in own' && SameOrder(own[id], own'[id])
    requires MakersKept(own[id := own'[id]], own')
    ensures ClipShape(r, c, own')
  {
    var mid := own[id := own'[id]];
    assert ClipShape(r, c, mid);
  }

  lemma Designate(r: int, c: Clip, own: Own, leg: Leg, n: int)
    requires ClipShape(r, c, own) && LegOf(c, leg).id != NoId && n > 0
    ensures ClipShape(r, c.(makerID := LegOf(c, leg).id, makerFilled := n), own)
  {
  }

  /** A new passive order on the registry: nothing else changes. */
  lemma PlacedQueues(own: Own, q: seq<OrderId>, debts: seq<HedgeDebt>, stuck: bool, id: OrderId, a: OrdAcct)
    requires QueuesOK(own, q, debts, stuck) && id !in own && a.maker && !a.deferred
    ensures QueuesOK(own[id := a], q, debts, stuck)
  {
  }

  lemma TargetPositive(r: int, c: Clip, own: Own)
    requires ClipShape(r, c, own)
    ensures c.target > 0 && c.makerFilled >= 0
  {
  }

  lemma MakerIsLeg(r: int, c: Clip, own: Own)
    requires ClipShape(r, c, own)
    ensures c.makerID != NoId ==> c.makerID == c.legA.id || c.makerID == c.legB.id
  {
  }

  /** With no live order besides the empty id there is none. */
  lemma CoveredBy(own: Own, id: OrderId)
    requires Covered(own, {id})
    ensures id == NoId && NoId !in own ==> Covered(own, {})
  {
  }

  lemma CoveredWiden(own: Own, ids: set<OrderId>, ids': set<OrderId>)
    requires Covered(own, ids) && ids <= ids'
    ensures Covered(own, ids')
  {
  }

  lemma RetiredRoom(own: Own, id: OrderId)
    requires Covered(own, {})
    ensures Room(own, id) == 0
  {
  }

  lemma LegsDiffer(r: int, c: Clip, own: Own)
    requires ClipShape(r, c, own) && NoId !in own
    ensures c.legA.id == c.legB.id ==> c.legA.id == NoId
    ensures c.legA.id in own ==>
              var a := own[c.legA.id]; a.maker && a.leg == LegA && a.isBuy == c.legA.isBid && a.placed == c.target
    ensures c.legB.id in own ==>
              && r == 1
              && var b := own[c.legB.id]; b.maker && b.leg == LegB && b.isBuy == c.legB.isBid && b.placed == c.target
    ensures c.legA.id !in own ==> c.legA.id == NoId
    ensures c.legB.id !in own ==> c.legB.id == NoId
    ensures c.legB.isBid == !c.legA.isBid
  {
  }

  /** An account changed in what the clip does not look at: the stream's side of it. */
  lemma AcctRefresh(r: int, clip: Option<Clip>, own: Own, id: OrderId, a: OrdAcct, ids: set<OrderId>)
    requires id in own && SameOrder(own[id], a) && a.final == own[id].final && a.deferred == own[id].deferred
    ensures Covered(own, ids) ==> Covered(own[id := a], ids)
    ensures clip.Some? && ClipShape(r, clip.value, own) ==> ClipShape(r, clip.value, own[id := a])
    ensures clip.Some? && a.folded == own[id].folded ==>
              forall dA, dB :: CleanWork(r, clip.value, own, dA, dB) ==> CleanWork(r, clip.value, own[id := a], dA, dB)
    ensures Covered(own, ids) && own[id].maker && own[id].final < 0 && id !in ids ==> own[id].deferred
  {
  }

  lemma NothingQueued()
    ensures Queued([]) == {}
  {
  }

  // ----- the pair -----------------------------------------------------------------------

  /** A move of x LegA lots together with its hedge leaves totB + r * totA where it was. */
  lemma PairShift(r: int, buyA: bool, x: int, a: int, b: int, a': int, b': int)
    requires PairMove(r, buyA, a' - a, b' - b, x)
    ensures b' + r * a' == b + r * a
  {
    assert r * a' == r * a + r * Signed(buyA, x);
    assert r * Signed(buyA, x) == Signed(buyA, x * r);
  }

  lemma PairMoveUnique(r: int, buyA: bool, dA: int, dB: int, eA: int, eB: int, x: int)
    requires PairMove(r, buyA, eA, eB, x)
    ensures PairMove(r, buyA, dA, dB, x) ==> dA == eA && dB == eB
  {
  }

  lemma PairMoveAdd(r: int, buyA: bool, dA: int, dB: int, x: int, eA: int, eB: int, y: int)
    requires PairMove(r, buyA, dA, dB, x) && PairMove(r, buyA, eA, eB, y)
    ensures PairMove(r, buyA, dA + eA, dB + eB, x + y)
  {
    assert (x + y) * r == x * r + y * r;
  }

  lemma PairMoveRest(r: int, buyA: bool, dA: int, dB: int, x: int, eA: int, eB: int, y: int)
    requires PairMove(r, buyA, dA, dB, x) && PairMove(r, buyA, eA, eB, y)
    ensures PairMove(r, buyA, dA - eA, dB - eB, x - y)
  {
    assert (x - y) * r == x * r - y * r;
  }

  /** Topping both legs up by x LegA lots, LegB in its own contracts, is a pair move. */
  lemma HedgeMove(cfg: Config, buyA: bool, x: int)
    ensures PairMove(Ratio(cfg), buyA, Signed(buyA, x), Signed(!buyA, HedgeLots(cfg, LegB, x)), x)
  {
  }

  /** How far lots booked on one leg alone push totB + r * totA. */
  function Weight(r: int, leg: Leg, x: int): int {
    if leg == LegA then r * x else x
  }

  lemma WeightShifts(r: int, leg: Leg, x: int, a: int, b: int, a': int, b': int)
    requires a' == a + (if leg == LegA then x else 0) && b' == b + (if leg == LegB then x else 0)
    ensures b' + r * a' == b + r * a + Weight(r, leg, x)
  {
  }

  /** LegA size of the pair a stray fill of n lots makes with its hedge. */
  function StraySize(leg: Leg, buy: bool, n: int): int {
    Signed(if leg == LegA then buy else !buy, n)
  }

  lemma StrayPair(cfg: Config, leg: Leg, buy: bool, n: int, own: int, other: int)
    requires leg == LegB ==> Ratio(cfg) == 1
    requires own == Signed(buy, n) && other == Signed(!buy, HedgeLots(cfg, Other(leg), n))
    ensures PairMove(Ratio(cfg), true, if leg == LegA then own else other, if leg == LegA then other else own,
                     StraySize(leg, buy, n))
  {
  }

  /** How far one fill event pushes the pair: only a taker the broker had already reported
      terminal, filling beyond that count, is booked without a hedge. */
  function Overfill(r: int, own: Own, id: OrderId, lots: int): int {
    if id in own && !own[id].maker && lots > 0 && Admitted(own[id], lots) > 0
    then Weight(r, own[id].leg, Signed(own[id].isBuy, Excess(own[id], Admitted(own[id], lots))))
    else 0
  }

  /** The event shows an order filling beyond the terminal count the broker reported for it. */
  predicate Exceeds(own: Own, id: OrderId, lots: int) {
    id in own && lots > 0 && Admitted(own[id], lots) > 0 && Excess(own[id], Admitted(own[id], lots)) > 0
  }

  /** Which events push the pair, and which exceed a reported count. */
  lemma FillKinds(r: int, own: Own, id: OrderId, lots: int)
    ensures id !in own || lots <= 0 || Admitted(own[id], lots) <= 0 ==>
              Overfill(r, own, id, lots) == 0 && !Exceeds(own, id, lots)
    ensures id in own && own[id].maker ==> Overfill(r, own, id, lots) == 0
    ensures id in own && own[id].final < 0 ==> !Exceeds(own, id, lots) && Overfill(r, own, id, lots) == 0
  {
  }

  /** Exactly when a fill event pushes the pair: a settled taker is shown filling beyond the count
      the broker reported for it. */
  lemma WhenOverfilled(r: int, own: Own, id: OrderId, lots: int)
    requires r >= 1 && (id in own ==> 0 <= own[id].seen <= own[id].placed)
    ensures Overfill(r, own, id, lots) != 0 <==>
            && id in own && !own[id].maker && own[id].final >= 0 && lots > 0
            && Min(own[id].placed, own[id].seen + lots) > Max(own[id].seen, own[id].final)
  {
    if id in own && lots > 0 {
      var x := Excess(own[id], Admitted(own[id], lots));
      assert r * Signed(own[id].isBuy, x) == Signed(own[id].isBuy, r * x);
      assert x != 0 ==> r * x != 0;
    }
  }

  /** A broker that reports a taker dead at zero and then fills it breaks the pair: the account
      allows it, and one late lot is one lot unhedged. */
  lemma LateFillUnhedged(id: OrderId, price: real)
    ensures var a := OrdAcct(false, LegA, true, price, 2, 0, 0, 0, 0, 0, None, false, false);
            AcctOK(a, OpenLine(LegA, 0)) && Overfill(1, map[id := a], id, 1) == 1
  {
  }
}
