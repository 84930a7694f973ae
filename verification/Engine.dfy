/**
 The two-leg execution engine: one method per handler of the source, over one order
 registry, one clip and the recovery machine.

 Ghost state beside the source's fields: `sink` is the fill sink's ledger and `feed` the fill
 stream it was fed; `totA`/`totB` are each leg's sink lots plus the hedge lots it still owes;
 `log` and `closed` are the marks the trading gates and the clips' results are stated over.
 The broker and the decider keep their own record of what they were asked.
 */
module ExecEngine {
  import opened Domain
  import opened OrderRegistry
  import opened RecoveryMachine
  import opened FillSink
  import opened Trace
  import opened Ports
  import opened EngineState
  import opened EngineSteps

  /** Everything that reaches the engine from outside. */
  datatype Event =
    | Fill(ts: int, id: OrderId, lots: int, price: real)
    | BookUpdate(leg: Leg, ts: int)
    | Bar(ts: int)
    | Tick(ts: int)
    | StatusUpdate(id: OrderId, dead: bool)
    | PullCheck
    | CancelWorking
    | Positions(legA: int, legB: int)
    | Kill

  /** Where an open starts from: the legs' totals, and the counts of Engine.parked and exceeded. */
  datatype Base = Base(a: int, b: int, parked: nat, exceeded: nat)

  class Engine {
    const cfg: Config
    const broker: Broker
    const desk: Desk
    const recovery: Machine

    var now: int
    var own: Own
    var pending: set<OrderId>
    var clip: Option<Clip>

    ghost var sink: Ledger
    ghost var feed: seq<Report>
    ghost var totA: int
    ghost var totB: int
    /** How far the pair is off: lots settled takers filled beyond their reported count. */
    ghost var drift: int
    ghost var log: seq<Mark>
    ghost var opens: nat
    ghost var closed: seq<Close>
    /** Retires ever parked, and fill events that exceeded a reported terminal count. */
    ghost var parked: nat
    ghost var exceeded: nat
    /** The totals and counts at the last open. */
    ghost var base: Base

    /** NewEngine: a hedge ratio with both legs resting is refused by starting halted. */
    constructor (cfg: Config, broker: Broker, desk: Desk)
      ensures this.cfg == cfg && this.broker == broker && this.desk == desk
      ensures JustBuilt() && fresh(recovery)
      ensures recovery.halted == (cfg.hedgeRatio > 1 && !cfg.soloMakerLeg && !cfg.takerOnly)
    {
      this.cfg, this.broker, this.desk := cfg, broker, desk;
      recovery := new Machine();
      now, own, pending, clip := 0, map[], {}, None;
      sink, feed, totA, totB, drift := Ledger(map[], FLAT, FLAT), [], 0, 0, 0;
      log, opens, closed, parked, exceeded := [], 0, [], 0, 0;
      base := Base(0, 0, 0, 0);
      new;
      if cfg.hedgeRatio > 1 && !cfg.soloMakerLeg && !cfg.takerOnly {
        var _ := recovery.Halt();
      }
    }

    ghost predicate JustBuilt()
      reads this, recovery
    {
      && own == map[] && pending == {} && clip == None
      && sink == Ledger(map[], FLAT, FLAT) && feed == [] && totA == totB == drift == 0
      && log == [] && opens == 0 && closed == [] && parked == exceeded == 0 && base == Base(0, 0, 0, 0)
      && !recovery.unverified && !recovery.impaired && recovery.retireQ == [] && recovery.debts == []
    }

    lemma StartsSound()
      requires JustBuilt()
      ensures Inv()
    {
      hide DebtSum, TraceOK, PaceOK, Ledger.Tied, QueuesOK, RegistryOK, FeedOK, KnownOK;
      EmptyLedger();
      EmptyDebts();
      EmptyTrace(Ratio(cfg));
      PaceStarts(PlaceBackoff(cfg), IMPAIRED_RETRY_MAX, recovery.retryGap, recovery.stalls);
      EmptyRegistry(Ratio(cfg), broker.makerIds, broker.answers);
      if recovery.halted {
        QueuesStuck(own, [], [], false);
      }
    }

    // ----- invariants -------------------------------------------------------------------

    ghost predicate Registry()
      reads this, broker
    {
      && RegistryOK(Ratio(cfg), own, sink.lines, pending, broker.makerIds) && FeedOK(own, sink.lines, feed)
      && KnownOK(own, broker.answers)
    }

    ghost predicate Queues()
      reads this, recovery
    {
      QueuesOK(own, recovery.retireQ, recovery.debts, recovery.impaired || recovery.halted)
    }

    ghost predicate Books()
      reads this, recovery
    {
      && sink.Tied()
      && totA == sink.net.lotsA + DebtSum(recovery.debts, LegA)
      && totB == sink.net.lotsB + DebtSum(recovery.debts, LegB)
    }

    ghost predicate Logged()
      reads this, recovery
    {
      && TraceOK(Ratio(cfg), recovery.unverified, log, opens, closed)
      && PaceOK(PlaceBackoff(cfg), IMPAIRED_RETRY_MAX, recovery.impaired, recovery.retryGap, recovery.stalls)
      && base.parked <= parked && base.exceeded <= exceeded
    }

    ghost predicate Core()
      reads this, recovery, broker
    {
      Registry() && Queues() && Books() && Logged()
    }

    /** Since the last open no retire was parked and no fill exceeded a reported count. */
    ghost predicate Clean()
      reads `parked, `exceeded, `base
    {
      parked == base.parked && exceeded == base.exceeded
    }

    // ----- two-state vocabulary ---------------------------------------------------------

    twostate predicate Moved(leg: Leg, n: int)
      reads this
    {
      && totA == old(totA) + (if leg == LegA then n else 0)
      && totB == old(totB) + (if leg == LegB then n else 0)
    }

    twostate predicate NotMoved()
      reads this
    {
      totA == old(totA) && totB == old(totB)
    }

    /** The clip, its records and the totals it is judged from stand. */
    twostate predicate SameClip()
      reads this, desk
    {
      && clip == old(clip) && closed == old(closed) && desk.committed == old(desk.committed) && drift == old(drift)
      && base == old(base)
    }

    ghost function Snapshot(): Snap
      reads this, recovery, broker
    {
      Snap(broker.rpcs, broker.issued, broker.answers, broker.refusals, own, sink.lines, pending, log, closed, parked,
           recovery.retireQ, recovery.debts, recovery.halted, recovery.unverified, recovery.impaired,
           recovery.nextRetryAt, recovery.retryGap, recovery.stalls)
    }

    /** The end of a clip of `target` lots that bought LegA or sold it. */
    ghost function EndOf(committed: bool, buyA: bool, target: int): Close
      reads `totA, `totB, `base, `parked, `exceeded, recovery`halted
    {
      Close(committed, buyA, target, totA - base.a, totB - base.b, parked - base.parked, exceeded - base.exceeded,
            recovery.halted)
    }

    /** The clip is gone, on record, and its intent booked or not. */
    twostate predicate Ended(c: Clip, booked: bool)
      reads this, recovery, desk
    {
      && clip == None
      && closed == old(closed) + [EndOf(booked, c.legA.isBid, c.target)]
      && desk.committed == old(desk.committed) + if booked then [c.intent] else []
    }

    /** What a step leaves as it was, in the engine's own fields. */
    twostate lemma LaterNow()
      requires Later(old(Snapshot()), Snapshot())
      ensures recovery.halted == old(recovery.halted)
      ensures recovery.halted ==> broker.rpcs == old(broker.rpcs)
      ensures old(recovery.unverified) ==> recovery.unverified
      ensures old(recovery.impaired) ==> recovery.impaired && SamePace()
      ensures old(recovery.retireQ) <= recovery.retireQ && old(recovery.debts) <= recovery.debts
      ensures old(parked) <= parked
      ensures parked == old(parked) ==> recovery.retireQ == old(recovery.retireQ)
      ensures broker.refusals >= old(broker.refusals)
    {
    }

    twostate lemma SteadyNow()
      requires Steady(old(Snapshot()), Snapshot())
      ensures Later(old(Snapshot()), Snapshot())
      ensures recovery.halted == old(recovery.halted)
      ensures recovery.halted ==> broker.rpcs == old(broker.rpcs)
      ensures old(recovery.unverified) ==> recovery.unverified
      ensures old(recovery.impaired) ==> recovery.impaired && SamePace()
      ensures old(recovery.retireQ) <= recovery.retireQ && old(recovery.debts) <= recovery.debts
      ensures old(parked) <= parked
      ensures parked == old(parked) ==> recovery.retireQ == old(recovery.retireQ)
      ensures broker.refusals >= old(broker.refusals)
      ensures broker.refusals == old(broker.refusals) ==>
                recovery.retireQ == old(recovery.retireQ) && recovery.debts == old(recovery.debts)
    {
      LaterNow();
    }

    twostate lemma LogGrows()
      requires Steady(old(Snapshot()), Snapshot())
      ensures old(log) <= log
    {
    }

    lemma Snapped()
      ensures var s := Snapshot();
              && s.own == own && s.pending == pending && s.halted == recovery.halted
              && s.unverified == recovery.unverified && s.impaired == recovery.impaired
              && s.retireQ == recovery.retireQ && s.debts == recovery.debts && s.rpcs == broker.rpcs
              && s.issued == broker.issued
    {
    }

    twostate lemma ServicedNow()
      requires Serviced(old(Snapshot()), Snapshot())
      ensures recovery.halted == old(recovery.halted) && (old(recovery.unverified) ==> recovery.unverified)
      ensures old(log) <= log && old(closed) <= closed
      ensures recovery.halted ==> broker.rpcs == old(broker.rpcs)
    {
    }

    /** A handler that changed nothing it is judged by. */
    twostate lemma StoodStill()
      requires Snapshot() == old(Snapshot())
      ensures Aged(old(Snapshot()), Snapshot()) && Paced(old(Snapshot()), Snapshot(), now)
    {
      LaterRefl(Snapshot());
      LaterAged(Snapshot(), Snapshot());
    }

    /** A handler that serviced no obligation. */
    twostate lemma LaterHandled()
      requires Later(old(Snapshot()), Snapshot())
      ensures Aged(old(Snapshot()), Snapshot()) && Paced(old(Snapshot()), Snapshot(), now)
    {
      LaterAged(old(Snapshot()), Snapshot());
    }

    // ----- the fill sink ----------------------------------------------------------------

    ghost method Credit(id: OrderId, buy: bool, n: nat, p: real)
      requires id in sink.lines && sink.Tied()
      modifies `sink, `totA, `totB
      ensures sink.Tied()
      ensures sink.lines == old(sink.lines)[id := SinkFill(old(sink.lines)[id], buy, n, p)]
      ensures Moved(old(sink.lines)[id].leg, Signed(buy, n))
      ensures sink.net.lotsA - old(sink.net.lotsA) == totA - old(totA)
      ensures sink.net.lotsB - old(sink.net.lotsB) == totB - old(totB)
    {
      hide Ledger.Tied;
      var leg := sink.lines[id].leg;
      sink := sink.Fill(id, buy, n, p);
      totA := totA + if leg == LegA then Signed(buy, n) else 0;
      totB := totB + if leg == LegB then Signed(buy, n) else 0;
    }

    ghost method CreditBlind(leg: Leg, buy: bool, n: nat, p: real)
      requires sink.Tied()
      modifies `sink, `totA, `totB
      ensures sink.Tied() && sink.lines == old(sink.lines)
      ensures Moved(leg, Signed(buy, n))
      ensures sink.net.lotsA - old(sink.net.lotsA) == totA - old(totA)
      ensures sink.net.lotsB - old(sink.net.lotsB) == totB - old(totB)
    {
      hide Ledger.Tied;
      sink := sink.FillBlind(leg, buy, n, p);
      totA := totA + if leg == LegA then Signed(buy, n) else 0;
      totB := totB + if leg == LegB then Signed(buy, n) else 0;
    }

    ghost method OpenLedgerLine(id: OrderId, leg: Leg)
      requires sink.Tied()
      modifies `sink
      ensures sink.Tied() && sink.lines == old(sink.lines)[id := OpenLine(leg, |feed|)] && sink.net == old(sink.net)
    {
      sink := sink.Open(id, leg, |feed|);
    }

    /** The sink's side of a tracked taker: its line is opened and credited in full. */
    ghost method BookTaker(id: OrderId, leg: Leg, buy: bool, lots: nat, price: real)
      requires sink.Tied()
      modifies `sink, `totA, `totB
      ensures sink.Tied() && Moved(leg, Signed(buy, lots))
      ensures sink.lines == old(sink.lines)[id := SinkFill(OpenLine(leg, |feed|), buy, lots, price)]
      ensures sink.net.lotsA - old(sink.net.lotsA) == totA - old(totA)
      ensures sink.net.lotsB - old(sink.net.lotsB) == totB - old(totB)
    {
      hide Ledger.Tied, SinkFill;
      OpenLedgerLine(id, leg);
      Credit(id, buy, lots, price);
    }

    /** A broker response that cannot be tied to the book: nothing opens until a reconcile. */
    method EnterDoubt(ghost s0: Snap)
      requires Core() && Undisturbed(s0, Snapshot())
      modifies `log, recovery`unverified
      ensures Core() && log == old(log) + [Untrackable] && recovery.unverified
      ensures Undisturbed(s0, Snapshot()) && (old(Steady(s0, Snapshot())) ==> Steady(s0, Snapshot()))
    {
      hide RegistryOK, FeedOK, KnownOK, QueuesOK, Ledger.Tied, DebtSum, TraceOK, PaceOK, Undisturbed, Steady;
      TraceDoubts(Ratio(cfg), recovery.unverified, log, opens, closed, Untrackable);
      ghost var s := Snapshot();
      recovery.MarkUnverified();
      log := log + [Untrackable];
      Doubted(s0, s, Snapshot());
    }

    // ----- taker hedges -----------------------------------------------------------------

    /** One market-order request; touches no engine state. */
    method PlaceTakerRPC(leg: Leg, buy: bool, lots: int) returns (ans: PlaceAnswer)
      requires Core() && !recovery.halted
      modifies broker`rpcs, broker`issued, broker`refusals
      ensures Core() && Undisturbed(old(Snapshot()), Snapshot())
      ensures broker.rpcs == old(broker.rpcs) + [TakerRpc(leg, buy, lots, OutcomeOf(ans))]
      ensures broker.issued == old(broker.issued) + if ans.Accepted? then [ans.id] else []
      ensures broker.refusals == old(broker.refusals) + if ans.Accepted? then 0 else 1
      ensures ans.Accepted? && ans.id != NoId ==> ans.id !in broker.makerIds
    {
      hide RegistryOK, FeedOK, KnownOK, QueuesOK, Ledger.Tied, DebtSum, TraceOK, PaceOK;
      ans := broker.PlaceTaker(leg, buy, lots);
    }

    /** Books a placement's answer; `s0` is the state before its request. An empty id is credited
        blind and never retried, and an empty or reused one puts the book in doubt. */
    method CommitTakerPlacement(leg: Leg, buy: bool, lots: int, ans: PlaceAnswer, ghost s0: Snap) returns (ok: bool)
      requires Core() && lots > 0 && Undisturbed(s0, Snapshot())
      requires ans.Accepted? ==> ans.id in broker.issued[|s0.issued|..]
      requires ans.Accepted? && ans.id != NoId ==> ans.id !in broker.makerIds
      modifies `own, `pending, `sink, `totA, `totB, `log, recovery`unverified
      ensures Core() && MakersKept(old(own), own) && Undisturbed(s0, Snapshot())
      ensures ok == ans.Accepted?
      ensures Moved(leg, if ok then Signed(buy, lots) else 0)
      ensures var untrackable := ok && (ans.id == NoId || ans.id in old(own));
              && recovery.unverified == (old(recovery.unverified) || untrackable)
              && log == old(log) + if untrackable then [Untrackable] else []
      ensures if !ok || ans.id == NoId then own == old(own) && pending == old(pending) && sink.lines == old(sink.lines)
              else own.Keys == old(own).Keys + {ans.id} && own == old(own)[ans.id := own[ans.id]] &&
                   own[ans.id].placed == lots && own[ans.id].leg == leg && own[ans.id].isBuy == buy &&
                   (ans.id in pending <==> ans.id !in old(own))
    {
      hide Ledger.Tied, DebtSum, TraceOK, PaceOK, AcctOK, RegistryOK, FeedOK, KnownOK, QueuesOK, MakersKept;
      hide SinkFill, Value, Ratio, Undisturbed;
      MakersKeptRefl(own);
      if ans.Failed? {
        return false;
      }
      var price := desk.Touch(leg, !buy);
      ok := true;
      if ans.id == NoId {
        EnterDoubt(s0);
        CreditBlind(leg, buy, lots, price);
        return;
      }
      var reused := ans.id in own;
      if reused {
        EnterDoubt(s0);
      }
      TrackTaker(ans.id, leg, buy, lots, price, reused, s0);
    }

    /** Registers a placed taker, credited in full; under a reused id it is not watched. */
    method TrackTaker(id: OrderId, leg: Leg, buy: bool, lots: int, price: real, reused: bool, ghost s0: Snap)
      requires Core() && lots > 0 && id != NoId && id !in broker.makerIds && reused == (id in own)
      requires Undisturbed(s0, Snapshot()) && id in broker.issued[|s0.issued|..] && (reused ==> recovery.unverified)
      modifies `own, `pending, `sink, `totA, `totB
      ensures Core() && MakersKept(old(own), own) && Undisturbed(s0, Snapshot())
      ensures Moved(leg, Signed(buy, lots))
      ensures own == old(own)[id := NewTaker(leg, buy, price, lots, now)]
      ensures pending == if reused then old(pending) - {id} else old(pending) + {id}
    {
      hide Ledger.Tied, DebtSum, TraceOK, PaceOK, AcctOK, RegistryOK, FeedOK, KnownOK, QueuesOK, MakersKept;
      hide SinkFill, Value, Ratio, Undisturbed, Told, OpenLine, Total, NewTaker;
      NewTakerOK(leg, |feed|, buy, price, lots, now);
      var acct := NewTaker(leg, buy, price, lots, now);
      var watched := if reused then pending - {id} else pending + {id};
      TakerTracked(Ratio(cfg), own, sink.lines, pending, broker.makerIds, feed, broker.answers, recovery.retireQ,
                   recovery.debts, recovery.impaired || recovery.halted, id, acct,
                   SinkFill(OpenLine(leg, |feed|), buy, lots, price), watched);
      FileTaker(id, acct, watched, s0);
    }

    /** Files a taker's account and credits its line. */
    method FileTaker(id: OrderId, a: OrdAcct, watched: set<OrderId>, ghost s0: Snap)
      requires Books() && Logged() && a.placed > 0
      requires var line := SinkFill(OpenLine(a.leg, |feed|), a.isBuy, a.placed, a.price);
               && RegistryOK(Ratio(cfg), own[id := a], sink.lines[id := line], watched, broker.makerIds)
               && FeedOK(own[id := a], sink.lines[id := line], feed) && KnownOK(own[id := a], broker.answers)
      requires QueuesOK(own[id := a], recovery.retireQ, recovery.debts, recovery.impaired || recovery.halted)
      requires Undisturbed(s0, Snapshot()) && id in broker.issued[|s0.issued|..]
      requires !a.maker && (id in own ==> !own[id].maker && recovery.unverified)
      requires watched == pending - {id} || watched == pending + {id}
      modifies `own, `pending, `sink, `totA, `totB
      ensures Core() && Undisturbed(s0, Snapshot())
      ensures Moved(a.leg, Signed(a.isBuy, a.placed)) && own == old(own)[id := a] && pending == watched
    {
      hide Ledger.Tied, DebtSum, TraceOK, PaceOK, RegistryOK, FeedOK;
      hide KnownOK, QueuesOK, SinkFill, Undisturbed, OpenLine;
      ghost var s := Snapshot();
      pending := watched;
      BookTaker(id, a.leg, a.isBuy, a.placed, a.price);
      own := own[id := a];
      TakerFiled(s0, s, Snapshot(), id);
    }

    method TryPlaceTaker(leg: Leg, buy: bool, lots: int) returns (ok: bool, maybe: bool, ghost last: Rpc)
      requires Core() && lots > 0 && !recovery.halted
      modifies `own, `pending, `sink, `totA, `totB, `log
      modifies broker`rpcs, broker`issued, broker`refusals, recovery`unverified
      ensures Core() && MakersKept(old(own), own) && Undisturbed(old(Snapshot()), Snapshot())
      ensures Moved(leg, if ok then Signed(buy, lots) else 0)
      ensures broker.rpcs == old(broker.rpcs) + [last]
      ensures last.TakerRpc? && last == TakerRpc(leg, buy, lots, last.outcome)
      ensures ok == (last.outcome == Took) && maybe == (last.outcome == Unknown)
      ensures broker.refusals == old(broker.refusals) + if ok then 0 else 1
    {
      hide Core, MakersKept, Undisturbed;
      ghost var s0 := Snapshot();
      var ans := PlaceTakerRPC(leg, buy, lots);
      ok := CommitTakerPlacement(leg, buy, lots, ans, s0);
      maybe := ans.Failed? && ans.maybeDelivered;
      last := TakerRpc(leg, buy, lots, OutcomeOf(ans));
    }

    /** Queues a hedge that could not be placed: owed, and not credited. */
    method DeferHedge(leg: Leg, buy: bool, lots: int)
      requires Core() && lots > 0
      modifies `totA, `totB
      modifies recovery`debts, recovery`impaired, recovery`nextRetryAt, recovery`retryGap, recovery`stalls
      ensures Core() && Moved(leg, Signed(buy, lots))
      ensures recovery.debts == old(recovery.debts) + Owed(leg, buy, lots)
      ensures Undisturbed(old(Snapshot()), Snapshot())
      ensures recovery.impaired == (old(recovery.impaired) || !recovery.halted)
    {
      hide RegistryOK, FeedOK, KnownOK, QueuesOK, Ledger.Tied, DebtSum, TraceOK, PaceOK, Kept, TakersKept;
      var d := HedgeDebt(leg, buy, lots);
      DebtAppend(recovery.debts, d, LegA);
      DebtAppend(recovery.debts, d, LegB);
      QueuesDebt(own, recovery.retireQ, recovery.debts, recovery.impaired || recovery.halted, d);
      PaceStarts(PlaceBackoff(cfg), IMPAIRED_RETRY_MAX, recovery.retryGap, recovery.stalls);
      LaterRefl(Snapshot());
      recovery.DeferHedge(leg, buy, lots, now, PlaceBackoff(cfg));
      totA := totA + if leg == LegA then Signed(buy, lots) else 0;
      totB := totB + if leg == LegB then Signed(buy, lots) else 0;
    }

    /** The shrink-and-retry ladder: a definitive reject shrinks the ask, an accepted part is
        kept, and an answer of unknown fate ends the ladder. */
    method ShrinkTakerChase(leg: Leg, buy: bool, lots: int) returns (remaining: int, ghost tried: seq<Rpc>)
      requires Core() && lots > 0 && cfg.rejectRetryLotStep > 0 && !recovery.halted
      modifies `own, `pending, `sink, `totA, `totB, `log
      modifies broker`rpcs, broker`issued, broker`refusals, recovery`unverified
      ensures Core() && MakersKept(old(own), own) && Undisturbed(old(Snapshot()), Snapshot())
      ensures 0 <= remaining <= lots && Moved(leg, Signed(buy, lots - remaining))
      ensures broker.rpcs == old(broker.rpcs) + tried && Chase(leg, buy, lots, tried)
      ensures TakenLots(tried) == lots - remaining
      ensures broker.refusals == old(broker.refusals) && LotFloor(cfg) <= lots ==> remaining == 0
      ensures SameClip()
    {
      hide Undisturbed, Core, MakersKept, Chase, TakenLots, SomeUnknown, Snapshot;
      var floor := LotFloor(cfg);
      var size := lots;
      remaining, tried := lots, [];
      EmptyChase(leg, buy, lots);
      MakersKeptRefl(own);
      LaterRefl(Snapshot());
      while size >= floor && size > 0
        invariant Core() && MakersKept(old(own), own) && Undisturbed(old(Snapshot()), Snapshot())
        invariant size <= remaining && 0 < remaining <= lots && Moved(leg, Signed(buy, lots - remaining))
        invariant broker.rpcs == old(broker.rpcs) + tried && Chase(leg, buy, lots, tried)
        invariant TakenLots(tried) == lots - remaining && !SomeUnknown(tried)
        invariant broker.refusals >= old(broker.refusals)
        invariant broker.refusals == old(broker.refusals) ==> size == remaining == lots
        decreases remaining, size
        modifies `own, `pending, `sink, `totA, `totB, `log
        modifies broker`rpcs, broker`issued, broker`refusals, recovery`unverified
      {
        ghost var own0, s0 := own, Snapshot();
        var ok, maybe, last := TryPlaceTaker(leg, buy, size);
        MakersKeptTrans(old(own), own0, own);
        UndisturbedTrans(old(Snapshot()), s0, Snapshot());
        ChaseAppend(leg, buy, lots, tried, last);
        tried := tried + [last];
        if ok {
          remaining := remaining - size;
          if remaining <= 0 {
            return;
          }
          if size > remaining {
            size := remaining;
          }
        } else {
          if maybe {
            return;
          }
          size := size - cfg.rejectRetryLotStep;
        }
      }
    }

    /** Same-size attempts; what they could not place becomes a debt. `n` and `before` are the
        chase this continues. */
    method TakerRetryPlain(leg: Leg, buy: bool, lots: int, from: nat, ghost n: int, ghost before: seq<Rpc>)
      returns (ghost tried: seq<Rpc>)
      requires Core() && lots > 0 && !recovery.halted
      requires Chase(leg, buy, n, before) && TakenLots(before) == n - lots
      modifies `own, `pending, `sink, `totA, `totB, `log
      modifies broker`rpcs, broker`issued, broker`refusals
      modifies recovery`debts, recovery`unverified, recovery`impaired
      modifies recovery`nextRetryAt, recovery`retryGap, recovery`stalls
      ensures Core() && MakersKept(old(own), own) && Undisturbed(old(Snapshot()), Snapshot())
      ensures Moved(leg, Signed(buy, lots))
      ensures broker.rpcs == old(broker.rpcs) + tried && Chase(leg, buy, n, before + tried)
      ensures recovery.debts == old(recovery.debts) + Owed(leg, buy, n - TakenLots(before + tried))
      ensures broker.refusals == old(broker.refusals) && from == 0 ==> recovery.debts == old(recovery.debts)
      ensures SameClip()
    {
      hide Undisturbed, Core, MakersKept, Chase, TakenLots, SomeUnknown, Snapshot;
      var attempts := if cfg.hedgeRetries < 1 then 1 else cfg.hedgeRetries;
      tried := [];
      assert before + tried == before;
      MakersKeptRefl(own);
      LaterRefl(Snapshot());
      var i := from;
      while i < attempts
        invariant Core() && MakersKept(old(own), own) && Undisturbed(old(Snapshot()), Snapshot())
        invariant NotMoved() && broker.rpcs == old(broker.rpcs) + tried
        invariant Chase(leg, buy, n, before + tried) && TakenLots(before + tried) == n - lots
        invariant i >= from && broker.refusals == old(broker.refusals) + i - from
        modifies `own, `pending, `sink, `totA, `totB, `log
        modifies broker`rpcs, broker`issued, broker`refusals, recovery`unverified
      {
        ghost var own0, s0 := own, Snapshot();
        var ok, _, last := TryPlaceTaker(leg, buy, lots);
        MakersKeptTrans(old(own), own0, own);
        UndisturbedTrans(old(Snapshot()), s0, Snapshot());
        ChaseAppend(leg, buy, n, before + tried, last);
        assert before + (tried + [last]) == before + tried + [last];
        tried := tried + [last];
        if ok {
          return;
        }
        i := i + 1;
      }
      ghost var s0 := Snapshot();
      DeferHedge(leg, buy, lots);
      UndisturbedTrans(old(Snapshot()), s0, Snapshot());
    }

    method TakerRetryFrom(leg: Leg, buy: bool, lots: int, from: nat) returns (ghost tried: seq<Rpc>)
      requires Core() && lots > 0 && !recovery.halted
      modifies `own, `pending, `sink, `totA, `totB, `log
      modifies broker`rpcs, broker`issued, broker`refusals
      modifies recovery`debts, recovery`unverified, recovery`impaired
      modifies recovery`nextRetryAt, recovery`retryGap, recovery`stalls
      ensures Core() && MakersKept(old(own), own) && Undisturbed(old(Snapshot()), Snapshot())
      ensures Moved(leg, Signed(buy, lots))
      ensures broker.rpcs == old(broker.rpcs) + tried && Chase(leg, buy, lots, tried)
      ensures recovery.debts == old(recovery.debts) + Owed(leg, buy, lots - TakenLots(tried))
      ensures broker.refusals >= old(broker.refusals)
      ensures broker.refusals == old(broker.refusals) && from == 0 ==> recovery.debts == old(recovery.debts)
      ensures SameClip()
    {
      hide Undisturbed, Core, MakersKept, Chase, TakenLots, SomeUnknown;
      EmptyChase(leg, buy, lots);
      tried := [];
      var owed := lots;
      MakersKeptRefl(own);
      LaterRefl(Snapshot());
      if cfg.rejectRetryLotStep > 0 {
        owed, tried := ShrinkTakerChase(leg, buy, lots);
        UndisturbedMeans(old(Snapshot()), Snapshot());
        if owed <= 0 {
          return;
        }
      }
      ghost var own0, s0 := own, Snapshot();
      ghost var more := TakerRetryPlain(leg, buy, owed, from, lots, tried);
      MakersKeptTrans(old(own), own0, own);
      UndisturbedMeans(s0, Snapshot());
      UndisturbedTrans(old(Snapshot()), s0, Snapshot());
      assert broker.rpcs == old(broker.rpcs) + (tried + more);
      tried := tried + more;
    }

    /** Crosses the spread for n lots owed: placed lots plus new debt make n. While halted
        nothing is placed. */
    method TakerRetry(leg: Leg, buy: bool, lots: int)
      requires Core() && lots > 0
      modifies `own, `pending, `sink, `totA, `totB, `log
      modifies broker`rpcs, broker`issued, broker`refusals
      modifies recovery`debts, recovery`unverified, recovery`impaired
      modifies recovery`nextRetryAt, recovery`retryGap, recovery`stalls
      ensures Core() && MakersKept(old(own), own) && Steady(old(Snapshot()), Snapshot())
      ensures if recovery.halted then NotMoved() else Moved(leg, Signed(buy, lots))
      ensures !recovery.halted ==> exists tried ::
                broker.rpcs == old(broker.rpcs) + tried && Chase(leg, buy, lots, tried) &&
                recovery.debts == old(recovery.debts) + Owed(leg, buy, lots - TakenLots(tried))
      ensures SameClip()
    {
      hide Undisturbed, Steady, Core, MakersKept, Chase, TakenLots;
      if recovery.halted {
        MakersKeptRefl(own);
        LaterRefl(Snapshot());
        return;
      }
      ghost var tried := TakerRetryFrom(leg, buy, lots, 0);
      Chased(old(Snapshot()), Snapshot());
    }

    /** Crosses the other leg for lots no clip accounts for. LegB lots cannot be converted to
        whole LegA lots at a ratio above one: then nothing is placed. */
    method HedgeStrayMakerFill(leg: Leg, buy: bool, lots: int)
      requires Core()
      modifies `own, `pending, `sink, `totA, `totB, `log
      modifies broker`rpcs, broker`issued, broker`refusals
      modifies recovery`debts, recovery`unverified, recovery`impaired
      modifies recovery`nextRetryAt, recovery`retryGap, recovery`stalls
      ensures Core() && MakersKept(old(own), own) && Steady(old(Snapshot()), Snapshot())
      ensures if lots < 0 || recovery.halted || (leg == LegB && Ratio(cfg) > 1) then NotMoved()
              else Moved(Other(leg), Signed(!buy, HedgeLots(cfg, Other(leg), lots)))
      ensures SameClip()
    {
      hide Core, MakersKept, Steady, Chase, TakenLots;
      MakersKeptRefl(own);
      LaterRefl(Snapshot());
      if lots <= 0 || recovery.halted || (leg == LegB && Ratio(cfg) > 1) {
        return;
      }
      HedgeLotsPositive(cfg, Other(leg), lots);
      TakerRetry(Other(leg), !buy, HedgeLots(cfg, Other(leg), lots));
    }

    // ----- retiring orders --------------------------------------------------------------

    /** Parks an order whose cancel stayed unanswered since s0. */
    method DeferRetire(id: OrderId, ghost s0: Snap)
      requires Core() && id in own && own[id].maker && own[id].final < 0
      requires Undisturbed(s0, Snapshot()) && parked - s0.parked < broker.refusals - s0.refusals
      modifies `own, `parked
      modifies recovery`retireQ, recovery`impaired, recovery`nextRetryAt, recovery`retryGap, recovery`stalls
      ensures Core() && Undisturbed(s0, Snapshot())
      ensures own == old(own)[id := old(own)[id].(deferred := true)]
      ensures recovery.retireQ == old(recovery.retireQ) + if old(own)[id].deferred then [] else [id]
      ensures parked == old(parked) + if old(own)[id].deferred then 0 else 1
      ensures SameClip()
    {
      hide RegistryOK, FeedOK, KnownOK, QueuesOK, Ledger.Tied, DebtSum, TraceOK, PaceOK, AcctOK, Queued;
      hide Undisturbed, Told;
      if own[id].deferred {
        assert own[id := own[id].(deferred := true)] == own;
        return;
      }
      var a := own[id].(deferred := true);
      AcctAt(Ratio(cfg), own, sink.lines, pending, broker.makerIds, id);
      DeferKeepsAccount(own[id], sink.lines[id]);
      RegistryUpdate(Ratio(cfg), own, sink.lines, pending, broker.makerIds, id, a, sink.lines[id], pending,
          broker.makerIds);
      FeedUpdate(own, sink.lines, feed, id, a, sink.lines[id]);
      KnownKeeps(own, broker.answers, id, a);
      QueuesDefer(own, recovery.retireQ, recovery.debts, recovery.impaired || recovery.halted, id);
      PaceStarts(PlaceBackoff(cfg), IMPAIRED_RETRY_MAX, recovery.retryGap, recovery.stalls);
      assert sink.lines[id := sink.lines[id]] == sink.lines;
      ghost var s := Snapshot();
      own := own[id := a];
      parked := parked + 1;
      recovery.QueueRetire(id, now, PlaceBackoff(cfg));
      RetireParked(s0, s, Snapshot(), id);
    }

    /** Folds a broker-confirmed terminal count: clamped to the placed size, and the lots known
        only from it credited at the resting price. The gap is left for the caller to fold. */
    method FinishRetire(id: OrderId, executed: nat)
      requires Books() && id in own && id in sink.lines && sink.lines[id].leg == own[id].leg
      requires own[id].maker && own[id].placed > 0
      modifies `own, `sink, `totA, `totB
      ensures Books()
      ensures own == old(own)[id := Settled(old(own)[id], executed)]
      ensures sink.lines == old(sink.lines)[id := SettledLine(old(own)[id], old(sink.lines)[id], executed)]
      ensures Moved(own[id].leg, Signed(own[id].isBuy, own[id].credited - old(own)[id].credited))
    {
      hide Ledger.Tied, DebtSum, SinkFill, Value;
      var executed := executed;
      if own[id].placed > 0 && executed > own[id].placed {
        executed := own[id].placed;
      }
      own := own[id := own[id].(final := executed)];
      var a := own[id];
      if a.final > a.credited {
        Credit(id, a.isBuy, a.final - a.credited, a.price);
        own := own[id := a.(credited := a.final)];
      }
    }

    /** finishRetire and the fold of the gap it reveals. */
    method FoldRetired(id: OrderId, executed: nat) returns (gap: nat)
      requires Books() && id in own && id in sink.lines && sink.lines[id].leg == own[id].leg
      requires own[id].maker && own[id].placed > 0
      modifies `own, `sink, `totA, `totB
      ensures Books()
      ensures own == old(own)[id := RetiredAt(old(own)[id], executed)]
      ensures sink.lines == old(sink.lines)[id := SettledLine(old(own)[id], old(sink.lines)[id], executed)]
      ensures var s := Settled(old(own)[id], executed);
              gap == Gap(s) && Moved(s.leg, Signed(s.isBuy, s.credited - old(own)[id].credited))
    {
      hide Ledger.Tied, DebtSum, SettledLine;
      FinishRetire(id, executed);
      var a := own[id].(deferred := false);
      gap := if a.final > a.folded then a.final - a.folded else 0;
      if gap > 0 {
        a := a.(folded := a.final);
      }
      own := own[id := a];
    }

    /** Retires an order still live or parked at its terminal count. */
    method SettleRetired(id: OrderId, executed: nat) returns (gap: nat)
      requires Core() && id in own && own[id].maker && own[id].final < 0 && (id, executed) in broker.answers
      modifies `own, `sink, `totA, `totB
      ensures Core() && Steady(old(Snapshot()), Snapshot())
      ensures id in own && own == old(own)[id := own[id]] && SameOrder(old(own)[id], own[id])
      ensures own[id].final == Min(executed, own[id].placed) && !own[id].deferred
      ensures Moved(own[id].leg, Signed(own[id].isBuy, gap))
      ensures gap == Max(0, own[id].final - old(own)[id].folded) <= own[id].placed - old(own)[id].folded
      ensures SameClip()
    {
      hide RegistryOK, FeedOK, KnownOK, QueuesOK, Ledger.Tied, DebtSum, TraceOK, PaceOK, AcctOK;
      hide SettledLine, RetiredAt, Gap, Told, Steady, Later, Known;
      ghost var s := Snapshot();
      AcctAt(Ratio(cfg), own, sink.lines, pending, broker.makerIds, id);
      AcctShape(own[id], sink.lines[id]);
      RetireKeepsAccount(own[id], sink.lines[id], executed);
      KnownAnswer(id, RetiredAt(own[id], executed), broker.answers, executed);
      gap := FoldRetired(id, executed);
      RetiredFiled(s, id);
    }

    /** The account of an order whose terminal count has just been booked is sound. */
    lemma RetiredFiled(s0: Snap, id: OrderId)
      requires RegistryOK(Ratio(cfg), s0.own, s0.lines, pending, broker.makerIds)
      requires FeedOK(s0.own, s0.lines, feed) && KnownOK(s0.own, broker.answers) && Books() && Logged()
      requires QueuesOK(s0.own, recovery.retireQ, recovery.debts, recovery.impaired || recovery.halted)
      requires id in s0.own && id in own && own == s0.own[id := own[id]]
      requires id in s0.lines && id in sink.lines && sink.lines == s0.lines[id := sink.lines[id]]
      requires s0.own[id].maker && s0.own[id].final < 0 && SameOrder(s0.own[id], own[id])
      requires AcctOK(own[id], sink.lines[id]) && Told(sink.lines[id]) == Told(s0.lines[id])
      requires own[id].final >= 0 && !own[id].deferred && own[id].seen == s0.own[id].seen
      requires Known(id, own[id], broker.answers) && Snapshot() == s0.(own := own, lines := sink.lines)
      ensures Core() && Steady(s0, Snapshot())
    {
      hide RegistryOK, FeedOK, KnownOK, QueuesOK, Ledger.Tied, DebtSum, TraceOK, PaceOK, AcctOK, Queued;
      hide Known, Told, Steady, Later;
      MakerUpdated(Ratio(cfg), s0.own, s0.lines, pending, broker.makerIds, recovery.retireQ, recovery.debts,
                   recovery.impaired || recovery.halted, id, own[id], sink.lines[id]);
      FeedUpdate(s0.own, s0.lines, feed, id, own[id], sink.lines[id]);
      KnownUpdate(s0.own, broker.answers, id, own[id]);
      SameBirth(s0.lines[id], sink.lines[id]);
      OrderMoved(s0, Snapshot(), id);
    }

    method AskCancel(id: OrderId) returns (executed: nat, ok: bool)
      requires Core()
      modifies broker`answers, broker`refusals
      ensures Core() && Steady(old(Snapshot()), Snapshot())
      ensures broker.answers == old(broker.answers) + if ok then {(id, executed)} else {}
      ensures broker.refusals == old(broker.refusals) + if ok then 0 else 1
    {
      hide RegistryOK, FeedOK, KnownOK, QueuesOK, Ledger.Tied, DebtSum, TraceOK, PaceOK, Kept, TakersKept;
      LaterRefl(Snapshot());
      executed, ok := broker.Cancel(id);
      KnownMore(own, old(broker.answers), broker.answers);
    }

    method AskStatus(id: OrderId) returns (executed: nat, terminal: bool, ok: bool)
      requires Core()
      modifies broker`answers
      ensures Core() && Steady(old(Snapshot()), Snapshot())
      ensures broker.answers == old(broker.answers) + if ok && terminal then {(id, executed)} else {}
    {
      hide RegistryOK, FeedOK, KnownOK, QueuesOK, Ledger.Tied, DebtSum, TraceOK, PaceOK, Kept, TakersKept;
      LaterRefl(Snapshot());
      executed, terminal, ok := broker.Status(id);
      KnownMore(own, old(broker.answers), broker.answers);
    }

    /** Asks for an order's terminal executed count: cancel, cancel again, then its status. */
    method AskTerminal(id: OrderId) returns (executed: nat, ok: bool)
      requires Core()
      modifies broker`answers, broker`refusals
      ensures Core() && Steady(old(Snapshot()), Snapshot())
      ensures ok ==> (id, executed) in broker.answers
      ensures !ok ==> broker.answers == old(broker.answers) && broker.refusals == old(broker.refusals) + 2
      ensures SameClip()
    {
      hide Core, Steady;
      executed, ok := AskCancel(id);
      if ok {
        return;
      }
      ghost var s1 := Snapshot();
      executed, ok := AskCancel(id);
      SteadyTrans(old(Snapshot()), s1, Snapshot());
      if ok {
        return;
      }
      ghost var s2 := Snapshot();
      var terminal;
      executed, terminal, ok := AskStatus(id);
      SteadyTrans(old(Snapshot()), s2, Snapshot());
      ok := ok && terminal;
    }

    /** Cancels an order, learns its terminal executed count and returns the lots it executed
        that were not acted on yet. With no answer the order is parked and counts zero. */
    method RetireOrder(id: OrderId) returns (gap: nat)
      requires Core() && (id in own ==> own[id].maker)
      modifies `own, `sink, `totA, `totB, `parked, broker`answers, broker`refusals
      modifies recovery`retireQ, recovery`impaired, recovery`nextRetryAt, recovery`retryGap, recovery`stalls
      ensures Core() && Steady(old(Snapshot()), Snapshot())
      ensures id !in old(own) ==> gap == 0 && own == old(own) && NotMoved() && recovery.retireQ == old(recovery.retireQ)
      ensures id in old(own) ==>
                && id in own && own == old(own)[id := own[id]] && SameOrder(old(own)[id], own[id]) && !own[id].Live()
                && Moved(own[id].leg, Signed(own[id].isBuy, gap))
                && gap <= old(own)[id].placed - old(own)[id].folded
                && (!old(own)[id].Live() ==> gap == 0) && (gap > 0 ==> own[id].final >= 0)
                && (recovery.retireQ == old(recovery.retireQ) && !old(own)[id].deferred ==> own[id].final >= 0)
                && (old(own)[id].Live() && own[id].final >= 0 ==> gap == Max(0, own[id].final - old(own)[id].folded))
      ensures Clean() == (old(Clean()) && recovery.retireQ == old(recovery.retireQ))
      ensures recovery.retireQ == old(recovery.retireQ) ==> recovery.impaired == old(recovery.impaired)
      ensures SameClip()
    {
      hide Core, Undisturbed, Steady;
      LaterRefl(Snapshot());
      BasesHold();
      if id !in own {
        return 0;
      }
      assert own == own[id := own[id]];
      OrderShape(id);
      if own[id].deferred || own[id].final >= 0 {
        return 0;
      }
      var executed, ok := AskTerminal(id);
      ghost var s1 := Snapshot();
      SteadyMeans(old(Snapshot()), s1);
      if !ok {
        DeferRetire(id, old(Snapshot()));
        SteadyRefused(old(Snapshot()), Snapshot());
        return 0;
      }
      gap := SettleRetired(id, executed);
      SteadyTrans(old(Snapshot()), s1, Snapshot());
    }

    lemma BasesHold()
      requires Core()
      ensures base.parked <= parked && base.exceeded <= exceeded
    {
    }

    /** What the registry's invariant says about one account, without the rest of it. */
    lemma OrderShape(id: OrderId)
      requires Core() && id in own
      ensures id != NoId && own[id].placed > 0 && -1 <= own[id].final <= own[id].placed
      ensures 0 <= own[id].seen <= own[id].credited <= own[id].placed
      ensures own[id].maker ==> own[id].folded <= own[id].placed && own[id].final <= own[id].folded
      ensures own[id].maker && own[id].final < 0 ==> own[id].folded == own[id].seen
      ensures own[id].maker && own[id].leg == LegB ==> Ratio(cfg) == 1
      ensures own[id].maker ==> id in broker.makerIds
      ensures own[id].deferred ==> own[id].maker && own[id].final < 0 && id in Queued(recovery.retireQ)
    {
      AcctAt(Ratio(cfg), own, sink.lines, pending, broker.makerIds, id);
      QueuedAt(own, recovery.retireQ, recovery.debts, recovery.impaired || recovery.halted, id);
      AcctShape(own[id], sink.lines[id]);
    }

    /** Asks the broker again about one parked order. A terminal answer settles it, and lots not
        acted on yet are pair-hedged now. `x` is the signed LegA size of that pair. */
    method TryDeferredRetire(id: OrderId) returns (resolved: bool, ghost x: int)
      requires Core() && (id in own ==> own[id].maker)
      modifies `own, `pending, `sink, `totA, `totB, `log
      modifies broker`rpcs, broker`issued, broker`answers, broker`refusals
      modifies recovery`debts, recovery`unverified, recovery`impaired
      modifies recovery`nextRetryAt, recovery`retryGap, recovery`stalls
      ensures Core() && Steady(old(Snapshot()), Snapshot())
      ensures id !in old(own) ==> resolved && own == old(own)
      ensures id in old(own) ==>
                && id in own && SameOrder(old(own)[id], own[id])
                && MakersKept(old(own)[id := own[id]], own)
                && (if resolved then own[id].final >= 0 && !own[id].deferred else own == old(own))
      ensures !recovery.halted ==> PairMove(Ratio(cfg), true, totA - old(totA), totB - old(totB), x)
      ensures !resolved ==> NotMoved() && broker.refusals != old(broker.refusals)
      ensures forall y, e :: (y, e) in broker.answers && (y, e) !in old(broker.answers) ==> y == id && resolved
      ensures SameClip()
    {
      hide Core, MakersKept, Steady, PairMove, HedgeLots, Snapshot, Later;
      x := 0;
      HedgeMove(cfg, true, 0);
      HedgeSplit(cfg, 0, 0);
      LaterRefl(Snapshot());
      MakersKeptRefl(own);
      if id !in own {
        return true, 0;
      }
      assert own == own[id := own[id]];
      OrderShape(id);
      if own[id].final >= 0 {
        return true, 0;
      }
      var executed, ok := AskCancel(id);
      ghost var s1 := Snapshot();
      if !ok {
        var terminal;
        executed, terminal, ok := AskStatus(id);
        SteadyTrans(old(Snapshot()), s1, Snapshot());
        if !ok || !terminal {
          return false, 0;
        }
      }
      ghost var s2 := Snapshot();
      SteadyNow();
      x := ResolveParked(id, executed);
      SteadyTrans(old(Snapshot()), s2, Snapshot());
      resolved := true;
    }

    /** The answered half of tryDeferredRetire. */
    method ResolveParked(id: OrderId, executed: nat) returns (ghost x: int)
      requires Core() && id in own && own[id].maker && own[id].final < 0 && (id, executed) in broker.answers
      modifies `own, `pending, `sink, `totA, `totB, `log
      modifies broker`rpcs, broker`issued, broker`refusals
      modifies recovery`debts, recovery`unverified, recovery`impaired
      modifies recovery`nextRetryAt, recovery`retryGap, recovery`stalls
      ensures Core() && Steady(old(Snapshot()), Snapshot())
      ensures id in own && SameOrder(old(own)[id], own[id])
      ensures own[id].final == Min(executed, own[id].placed) && !own[id].deferred
      ensures MakersKept(old(own)[id := own[id]], own)
      ensures !recovery.halted ==> PairMove(Ratio(cfg), true, totA - old(totA), totB - old(totB), x)
      ensures var a := old(own)[id]; x == StraySize(a.leg, a.isBuy, Max(0, own[id].final - a.folded))
      ensures SameClip()
    {
      hide Core, MakersKept, Steady, PairMove, HedgeLots, StraySize;
      OrderShape(id);
      var gap := SettleRetired(id, executed);
      var a := own[id];
      ghost var own1, s1 := own, Snapshot();
      HedgeStrayMakerFill(a.leg, a.isBuy, gap);
      SteadyTrans(old(Snapshot()), s1, Snapshot());
      MakerKept(own1, own, id);
      x := StraySize(a.leg, a.isBuy, gap);
      if !recovery.halted {
        StrayPair(cfg, a.leg, a.isBuy, gap, if a.leg == LegA then totA - old(totA) else totB - old(totB),
                  if a.leg == LegA then totB - old(totB) else totA - old(totA));
      }
    }

    // ----- taker confirmation -----------------------------------------------------------

    /** Folds a taker's terminal executed count: the phantom lots are un-credited and the
        shortfall hedged again, or owed once takers keep dying. */
    method SettleTaker(id: OrderId, executed: nat)
      requires Core() && id in own && !own[id].maker && own[id].final < 0
      requires (id, executed) in broker.answers || executed == own[id].placed <= own[id].seen
      modifies `own, `pending, `sink, `totA, `totB, `log
      modifies broker`rpcs, broker`issued, broker`refusals
      modifies recovery`debts, recovery`unverified, recovery`impaired
      modifies recovery`nextRetryAt, recovery`retryGap, recovery`stalls, recovery`takerDeadStreak
      ensures Core() && MakersKept(old(own), own) && Later(old(Snapshot()), Snapshot())
      ensures !recovery.halted ==> NotMoved()
      ensures !recovery.unverified ==>
                && id in own && !own[id].maker && own[id].final >= 0 && own[id].lastProbe == old(own)[id].lastProbe
                && id !in pending && TakersKept(old(own) - {id}, old(pending) - {id}, own, pending)
      ensures var a := old(own)[id];
              var shortfall := a.placed - Max(a.seen, Min(executed, a.placed));
              if shortfall <= 0 then recovery.takerDeadStreak == 0 && broker.rpcs == old(broker.rpcs)
              else recovery.takerDeadStreak == old(recovery.takerDeadStreak) + 1 &&
                   (recovery.takerDeadStreak >= TAKER_DEAD_LIMIT ==>
                      broker.rpcs == old(broker.rpcs) &&
                      recovery.debts == old(recovery.debts) + Owed(a.leg, a.isBuy, shortfall))
    {
      hide Core, MakersKept, Later, Undisturbed, Steady, TakersKept, Snapshot;
      var leg, buy := own[id].leg, own[id].isBuy;
      var shortfall := CloseTakerAccount(id, executed);
      TakersKeptFlag(old(own), old(pending), id, own[id]);
      TakersKeptRefl(own, pending);
      TakersKeptOthers(old(own), old(pending), id, own[id], own, pending);
      ghost var own1, s1, a := own, Snapshot(), own[id];
      Snapped();
      if shortfall <= 0 {
        ResetDeadStreak();
        return;
      }
      var streak := IncrementDeadStreak();
      if streak >= TAKER_DEAD_LIMIT {
        DeferHedge(leg, buy, shortfall);
        UndisturbedMeans(s1, Snapshot());
        LaterTrans(old(Snapshot()), s1, Snapshot());
        return;
      }
      TakerRetry(leg, buy, shortfall);
      MakersKeptTrans(old(own), own1, own);
      Snapped();
      SteadyMeans(s1, Snapshot());
      LaterTrans(old(Snapshot()), s1, Snapshot());
      if !recovery.unverified {
        TakersKeptOthers(old(own), old(pending), id, a, own, pending);
      }
    }

    method ResetDeadStreak()
      requires Core()
      modifies recovery`takerDeadStreak
      ensures Core() && recovery.takerDeadStreak == 0 && Snapshot() == old(Snapshot())
    {
      hide RegistryOK, FeedOK, KnownOK, QueuesOK, Ledger.Tied, DebtSum, TraceOK, PaceOK;
      recovery.ResetDeadStreak();
    }

    method IncrementDeadStreak() returns (n: int)
      requires Core()
      modifies recovery`takerDeadStreak
      ensures Core() && n == recovery.takerDeadStreak == old(recovery.takerDeadStreak) + 1
      ensures Snapshot() == old(Snapshot())
    {
      hide RegistryOK, FeedOK, KnownOK, QueuesOK, Ledger.Tied, DebtSum, TraceOK, PaceOK;
      n := recovery.IncrementDeadStreak();
    }

    /** The account half of settling: clamps the count to the placed size and to what the
        stream already reported, and reverses the credit of the rest. */
    method CloseTakerAccount(id: OrderId, executed: nat) returns (shortfall: nat)
      requires Core() && id in own && !own[id].maker && own[id].final < 0
      requires (id, executed) in broker.answers || executed == own[id].placed <= own[id].seen
      modifies `own, `pending, `sink, `totA, `totB
      ensures Core() && MakersKept(old(own), own) && Later(old(Snapshot()), Snapshot())
      ensures Moved(old(own)[id].leg, Signed(!old(own)[id].isBuy, shortfall))
      ensures id in own && shortfall == own[id].placed - own[id].final
      ensures own[id].final == Max(own[id].seen, Min(executed, own[id].placed))
      ensures own == old(own)[id := own[id]] && pending == old(pending) - {id}
      ensures own[id] == old(own)[id].(final := own[id].final, credited := own[id].final) && own[id].final >= 0
    {
      hide RegistryOK, FeedOK, KnownOK, QueuesOK, MakersKept, Ledger.Tied, DebtSum, TraceOK, PaceOK;
      hide AcctOK, Queued, SinkFill, Value, Later, Told;
      AcctAt(Ratio(cfg), own, sink.lines, pending, broker.makerIds, id);
      AcctShape(own[id], sink.lines[id]);
      var a := own[id];
      var executed := executed;
      if a.placed > 0 && executed > a.placed {
        executed := a.placed;
      }
      if executed < a.seen {
        executed := a.seen;
      }
      SettleKeepsTaker(a, sink.lines[id], executed);
      shortfall := a.placed - executed;
      var uncredit := a.credited - executed;
      FilledLine(sink.lines[id], !a.isBuy, shortfall, a.price);
      if uncredit > 0 {
        Credit(id, !a.isBuy, uncredit, a.price);
      }
      FileTakerClosed(id, a.(final := executed, credited := executed), old(sink.lines), old(Snapshot()));
    }

    /** Files the account of a taker whose unfilled credit has just been reversed. */
    method FileTakerClosed(id: OrderId, a: OrdAcct, ghost lines0: Lines, ghost s0: Snap)
      requires RegistryOK(Ratio(cfg), own, lines0, pending, broker.makerIds)
      requires FeedOK(own, lines0, feed) && KnownOK(own, broker.answers) && Queues() && Books() && Logged()
      requires id in own && !own[id].maker && own[id].final < 0 && !a.maker && SameOrder(own[id], a)
      requires own[id].seen <= a.seen && Known(id, a, broker.answers)
      requires id in lines0 && id in sink.lines && sink.lines == lines0[id := sink.lines[id]]
      requires AcctOK(a, sink.lines[id]) && Told(sink.lines[id]) == Told(lines0[id])
      requires Snapshot() == s0.(lines := sink.lines) && s0.lines == lines0
      modifies `own, `pending
      ensures Core() && MakersKept(old(own), own) && Later(s0, Snapshot())
      ensures own == old(own)[id := a] && pending == old(pending) - {id}
    {
      hide RegistryOK, FeedOK, KnownOK, QueuesOK, MakersKept, Ledger.Tied, DebtSum, TraceOK, PaceOK;
      hide AcctOK, Queued, Known, Told, Later;
      TakerUpdated(Ratio(cfg), own, lines0, pending, broker.makerIds, recovery.retireQ, recovery.debts,
                   recovery.impaired || recovery.halted, id, a, sink.lines[id], pending - {id});
      FeedUpdate(own, lines0, feed, id, a, sink.lines[id]);
      KnownUpdate(own, broker.answers, id, a);
      SameBirth(lines0[id], sink.lines[id]);
      pending := pending - {id};
      own := own[id := a];
      OrderMoved(s0, Snapshot(), id);
    }

    /** The order stream reported an own taker dead: its count must come from Status. Without one
        the watchdog is told, and with one the taker is settled. */
    method ConfirmDeadTaker(id: OrderId) returns (ghost settled: bool)
      requires Core() && id in own && !own[id].maker && own[id].final < 0
      modifies `own, `pending, `sink, `totA, `totB, `log
      modifies broker`rpcs, broker`issued, broker`answers, broker`refusals
      modifies recovery`debts, recovery`unverified, recovery`impaired
      modifies recovery`nextRetryAt, recovery`retryGap, recovery`stalls, recovery`takerDeadStreak
      ensures Core() && MakersKept(old(own), own) && Later(old(Snapshot()), Snapshot())
      ensures !recovery.halted ==> NotMoved()
      ensures DeadConfirmed(id, settled)
    {
      hide Core, MakersKept, Later, Steady, TakersKept;
      var executed, terminal, ok := AskStatus(id);
      ghost var s1 := Snapshot();
      SteadyMeans(old(Snapshot()), s1);
      settled := ok && terminal;
      if !ok || !terminal {
        FlagTaker(id, own[id].lastProbe, true);
      } else {
        SettleTaker(id, executed);
      }
      LaterTrans(old(Snapshot()), s1, Snapshot());
    }

    /** A taker reported dead was settled on the broker's count, or is flagged for the watchdog. */
    twostate predicate DeadConfirmed(id: OrderId, settled: bool)
      requires id in old(own)
      reads this, broker, recovery
    {
      if settled
      then
        && (exists e :: (id, e) in broker.answers)
        && (!recovery.unverified ==> id in own && own[id].final >= 0 && id !in pending)
      else
        && own == old(own)[id := old(own)[id].(deadSeen := true)] && pending == old(pending)
        && broker.answers == old(broker.answers) && broker.rpcs == old(broker.rpcs)
    }

    /** Rewrites a taker's probe bookkeeping. */
    method FlagTaker(id: OrderId, probe: Option<int>, deadSeen: bool)
      requires Core() && id in own && !own[id].maker
      modifies `own
      ensures Core() && MakersKept(old(own), own) && Later(old(Snapshot()), Snapshot())
      ensures own == old(own)[id := old(own)[id].(lastProbe := probe, deadSeen := deadSeen)]
    {
      hide RegistryOK, FeedOK, KnownOK, QueuesOK, MakersKept, Ledger.Tied, DebtSum, TraceOK, PaceOK;
      hide AcctOK, Queued, Told, Later;
      AcctAt(Ratio(cfg), own, sink.lines, pending, broker.makerIds, id);
      var a := own[id].(lastProbe := probe, deadSeen := deadSeen);
      AcctShape(own[id], sink.lines[id]);
      ProbeKeepsTaker(own[id], sink.lines[id], probe, deadSeen);
      TakerUpdated(Ratio(cfg), own, sink.lines, pending, broker.makerIds, recovery.retireQ, recovery.debts,
                   recovery.impaired || recovery.halted, id, a, sink.lines[id], pending);
      FeedUpdate(own, sink.lines, feed, id, a, sink.lines[id]);
      KnownKeeps(own, broker.answers, id, a);
      assert sink.lines[id := sink.lines[id]] == sink.lines;
      own := own[id := a];
      OrderMoved(old(Snapshot()), Snapshot(), id);
    }

    /** Forgets a pending id. */
    method Unwatch(id: OrderId)
      requires Core()
      modifies `pending
      ensures Core() && pending == old(pending) - {id} && Later(old(Snapshot()), Snapshot())
    {
      hide RegistryOK, FeedOK, KnownOK, QueuesOK, Ledger.Tied, DebtSum, TraceOK, PaceOK, Kept;
      RegistryShrink(Ratio(cfg), own, sink.lines, pending, broker.makerIds, pending - {id});
      LaterRefl(Snapshot());
      pending := pending - {id};
    }

    /** The confirmation watchdog: polls overdue takers and settles those the broker reports
        terminal. Takers placed during the pass are inside their confirm window. */
    method CheckPendingTakers(at: int)
      requires Core()
      modifies `own, `pending, `sink, `totA, `totB, `log
      modifies broker`rpcs, broker`issued, broker`answers, broker`refusals
      modifies recovery`debts, recovery`unverified, recovery`impaired
      modifies recovery`nextRetryAt, recovery`retryGap, recovery`stalls, recovery`takerDeadStreak
      ensures Core() && MakersKept(old(own), own) && Later(old(Snapshot()), Snapshot())
      ensures !recovery.halted ==> NotMoved()
      ensures !recovery.halted && !recovery.unverified ==>
                EachWatched(cfg, old(own), old(pending), own, pending, at)
    {
      hide Core, MakersKept, Later, Passed, Watched, EachWatched, TakersKept;
      PassedStart(cfg, own, pending, at);
      PendingOwned();
      MakersKeptRefl(own);
      LaterRefl(Snapshot());
      var todo := pending;
      assert old(pending) - todo == {};
      while todo != {}
        invariant Core() && MakersKept(old(own), own) && Later(old(Snapshot()), Snapshot())
        invariant !recovery.halted ==> NotMoved()
        invariant todo <= old(pending)
        invariant !recovery.unverified ==> Passed(cfg, old(own), old(pending), own, pending, old(pending) - todo, at)
        decreases |todo|
      {
        var id :| id in todo;
        ghost var done := old(pending) - todo;
        todo := todo - {id};
        assert old(pending) - todo == done + {id};
        PassedAt(old(own), old(pending), done, id, at);
        if id in pending {
          PendingIsTaker(id);
          ghost var own0, pending0, s0 := own, pending, Snapshot();
          CheckOneTaker(id, at);
          MakersKeptTrans(old(own), own0, own);
          LaterTrans(old(Snapshot()), s0, Snapshot());
          LaterMeans(s0, Snapshot());
          if !recovery.unverified {
            PassedStep(cfg, old(own), old(pending), own0, pending0, done, at, id, own, pending);
          }
          if recovery.halted {
            return;
          }
        }
      }
      assert old(pending) - todo == old(pending);
      if !recovery.unverified {
        PassedAll(cfg, old(own), old(pending), own, pending, at);
      }
    }

    lemma PendingOwned()
      requires Core()
      ensures forall id :: id in pending ==> id in own && !own[id].maker
    {
      forall id | id in pending ensures id in own && !own[id].maker {
        PendingIsTaker(id);
      }
    }

    lemma PassedAt(own0: Own, pending0: set<OrderId>, done: set<OrderId>, id: OrderId, at: int)
      requires id in pending0 && id in own0 && !own0[id].maker && id !in done
      requires !recovery.unverified ==> Passed(cfg, own0, pending0, own, pending, done, at)
      ensures !recovery.unverified ==> id in pending
    {
    }

    lemma PendingIsTaker(id: OrderId)
      requires Core() && id in pending
      ensures id in own && !own[id].maker
    {
      AcctAt(Ratio(cfg), own, sink.lines, pending, broker.makerIds, id);
    }

    method CheckOneTaker(id: OrderId, at: int)
      requires Core() && id in own && !own[id].maker && id in pending
      modifies `own, `pending, `sink, `totA, `totB, `log
      modifies broker`rpcs, broker`issued, broker`answers, broker`refusals
      modifies recovery`debts, recovery`unverified, recovery`impaired
      modifies recovery`nextRetryAt, recovery`retryGap, recovery`stalls, recovery`takerDeadStreak
      ensures Core() && MakersKept(old(own), own) && Later(old(Snapshot()), Snapshot())
      ensures !recovery.halted ==> NotMoved()
      ensures !recovery.unverified ==>
                && id in own && !own[id].maker && Watched(cfg, old(own)[id], own[id], id in pending, at)
                && TakersKept(old(own) - {id}, old(pending) - {id}, own, pending)
      ensures !recovery.unverified && broker.answers != old(broker.answers) ==> id in own && own[id].final >= 0
    {
      hide Core, MakersKept, Later, Steady, TakersKept;
      TakersKeptFlag(own, pending, id, own[id]);
      MakersKeptRefl(own);
      LaterRefl(Snapshot());
      OrderShape(id);
      if own[id].final >= 0 {
        Unwatch(id);
        return;
      }
      if own[id].seen >= own[id].placed {
        // The stream confirmed every placed lot: the terminal count is known by arithmetic.
        SettleTaker(id, own[id].placed);
        return;
      }
      if !own[id].deadSeen && at - own[id].placedAt < TakerConfirmAfter(cfg) {
        return;
      }
      if own[id].lastProbe.Some? && at - own[id].lastProbe.value < TAKER_PROBE_EVERY {
        return;
      }
      ghost var own0 := own;
      FlagTaker(id, Some(at), own[id].deadSeen);
      TakersKeptFlag(old(own), pending, id, own[id]);
      ghost var s1 := Snapshot();
      var executed, terminal, ok := AskStatus(id);
      SteadyMeans(s1, Snapshot());
      LaterTrans(old(Snapshot()), s1, Snapshot());
      if !ok || !terminal {
        return;
      }
      ghost var own1, s2 := own, Snapshot();
      SettleTaker(id, executed);
      MakersKeptTrans(own0, own1, own);
      LaterTrans(old(Snapshot()), s2, Snapshot());
    }

    /** Some placed taker is overdue and neither confirmed nor settled. */
    predicate AwaitingTaker(at: int)
      reads this
    {
      Overdue(cfg, own, pending, at)
    }

    // ----- the clip ---------------------------------------------------------------------

    /** What holds between handlers, the halt clause and the tally aside. */
    ghost predicate Sound()
      reads this, recovery, broker
    {
      && Core()
      && (!recovery.halted ==> totB + Ratio(cfg) * totA == drift)
      && Covered(own, ClipIds(clip))
      && (clip.Some? ==> ClipShape(Ratio(cfg), clip.value, own))
      && (clip.Some? && Clean() ==>
            recovery.retireQ == [] && CleanWork(Ratio(cfg), clip.value, own, totA - base.a, totB - base.b))
    }

    /** Every clip ever opened has ended, but for the one at work. */
    ghost predicate Tally()
      reads this
    {
      opens == |closed| + if clip.Some? then 1 else 0
    }

    /** What holds between handlers. */
    ghost predicate Inv()
      reads this, recovery, broker
    {
      Sound() && Tally() && (recovery.halted ==> clip == None)
    }

    lemma NoEmptyId()
      requires Core()
      ensures NoId !in own
    {
      AcctAt(Ratio(cfg), own, sink.lines, pending, broker.makerIds, NoId);
    }

    /** Retires both legs, folds what the cancels caught and lands the pair at `want` lots. */
    method SettleClip(realA: int, realB: int, complete: bool) returns (ghost want: int)
      requires Core() && clip.Some? && ClipShape(Ratio(cfg), clip.value, own) && Covered(own, Legs(clip.value))
      requires realA >= 0 && realB >= 0
      modifies `own, `pending, `sink, `totA, `totB, `log, `parked
      modifies broker`rpcs, broker`issued, broker`answers, broker`refusals
      modifies recovery`retireQ, recovery`debts, recovery`unverified
      modifies recovery`impaired, recovery`nextRetryAt, recovery`retryGap, recovery`stalls
      ensures Core() && ClipShape(Ratio(cfg), clip.value, own) && Covered(own, {})
      ensures want >= realA && want >= realB && (complete ==> want >= clip.value.target)
      ensures want <= Max(if complete then clip.value.target else 0,
                          Max(realA + Room(old(own), clip.value.legA.id), realB + Room(old(own), clip.value.legB.id)))
      ensures !recovery.halted ==>
                && totA == old(totA) + Signed(clip.value.legA.isBid, want - realA)
                && totB == old(totB) + Signed(clip.value.legB.isBid, HedgeLots(cfg, LegB, want - realB))
      ensures Clean() == (old(Clean()) && recovery.retireQ == old(recovery.retireQ))
      ensures recovery.retireQ == old(recovery.retireQ) == [] ==>
                Retired(own, clip.value.legA.id) && Retired(own, clip.value.legB.id)
      ensures Steady(old(Snapshot()), Snapshot())
      ensures SameClip()
    {
      hide Core, MakersKept, ClipShape, Covered, Retired, Room, HedgeLots, Ratio, Legs, Signed, Steady, Later, Snapshot;
      var c := clip.value;
      ghost var askedB := realB;
      var gapA, gapB := RetireLegs();
      var realA, realB := realA + gapA, realB + gapB;
      var want' := Max(realA, realB);
      if complete {
        want' := Max(want', c.target);
      }
      want := want';
      HedgeSplit(cfg, want' - askedB, gapB);
      HedgeSplit(cfg, want' - realA, 0);
      SignedAdd(c.legA.isBid, gapA, want' - realA);
      SignedAdd(c.legB.isBid, gapB, HedgeLots(cfg, LegB, want' - realB));
      if (realA == want' && realB == want') || recovery.halted {
        return; // balanced, or the kill-switch forbids balancing
      }
      ghost var s1 := Snapshot();
      LevelLegs(want' - realA, want' - realB);
      SteadyTrans(old(Snapshot()), s1, Snapshot());
    }

    /** Crosses what each leg of a settling clip is still short of, in LegA lots. */
    method LevelLegs(shortA: nat, shortB: nat)
      requires Core() && clip.Some? && ClipShape(Ratio(cfg), clip.value, own) && Covered(own, {}) && !recovery.halted
      modifies `own, `pending, `sink, `totA, `totB, `log
      modifies broker`rpcs, broker`issued, broker`refusals
      modifies recovery`debts, recovery`unverified, recovery`impaired
      modifies recovery`nextRetryAt, recovery`retryGap, recovery`stalls
      ensures Core() && ClipShape(Ratio(cfg), clip.value, own) && Covered(own, {})
      ensures totA == old(totA) + Signed(clip.value.legA.isBid, shortA)
      ensures totB == old(totB) + Signed(clip.value.legB.isBid, HedgeLots(cfg, LegB, shortB))
      ensures Retired(old(own), clip.value.legA.id) ==> Retired(own, clip.value.legA.id)
      ensures Retired(old(own), clip.value.legB.id) ==> Retired(own, clip.value.legB.id)
      ensures Steady(old(Snapshot()), Snapshot())
      ensures SameClip()
    {
      hide Core, ClipShape, Covered, Retired, HedgeLots, Ratio, Signed, Steady, Later, Snapshot;
      HedgeSplit(cfg, shortA, 0);
      TopUp(LegA, clip.value.legA.isBid, shortA);
      SteadyNow();
      label A:
      ghost var s1 := Snapshot();
      TopUp(LegB, clip.value.legB.isBid, shortB);
      SteadyNow@A();
      SteadyTrans(old(Snapshot()), s1, Snapshot());
    }

    /** Crosses what one leg of a settling clip is still short of, in LegA lots. */
    method TopUp(leg: Leg, buy: bool, lotsA: nat)
      requires Core() && clip.Some? && ClipShape(Ratio(cfg), clip.value, own) && Covered(own, {})
      modifies `own, `pending, `sink, `totA, `totB, `log
      modifies broker`rpcs, broker`issued, broker`refusals
      modifies recovery`debts, recovery`unverified, recovery`impaired
      modifies recovery`nextRetryAt, recovery`retryGap, recovery`stalls
      ensures Core() && ClipShape(Ratio(cfg), clip.value, own) && Covered(own, {})
      ensures if recovery.halted then NotMoved()
              else Moved(leg, Signed(buy, HedgeLots(cfg, leg, lotsA)))
      ensures Retired(old(own), clip.value.legA.id) ==> Retired(own, clip.value.legA.id)
      ensures Retired(old(own), clip.value.legB.id) ==> Retired(own, clip.value.legB.id)
      ensures Steady(old(Snapshot()), Snapshot())
      ensures SameClip()
    {
      hide Core, MakersKept, ClipShape, Covered, Steady, Later, Snapshot;
      LaterRefl(Snapshot());
      if lotsA > 0 {
        HedgeLotsPositive(cfg, leg, lotsA);
        TakerRetry(leg, buy, HedgeLots(cfg, leg, lotsA));
        SettledFrame(old(own));
      }
    }

    /** Takers leave a retired clip as it is. */
    lemma SettledFrame(own0: Own)
      requires clip.Some? && ClipShape(Ratio(cfg), clip.value, own0) && Covered(own0, {}) && MakersKept(own0, own)
      ensures ClipShape(Ratio(cfg), clip.value, own) && Covered(own, {})
      ensures Retired(own0, clip.value.legA.id) ==> Retired(own, clip.value.legA.id)
      ensures Retired(own0, clip.value.legB.id) ==> Retired(own, clip.value.legB.id)
    {
    }

    /** The retiring half of settleClip. */
    method RetireLegs() returns (gapA: nat, gapB: nat)
      requires Core() && clip.Some? && ClipShape(Ratio(cfg), clip.value, own) && Covered(own, Legs(clip.value))
      modifies `own, `sink, `totA, `totB, `parked, broker`answers, broker`refusals
      modifies recovery`retireQ, recovery`impaired, recovery`nextRetryAt, recovery`retryGap, recovery`stalls
      ensures Core() && ClipShape(Ratio(cfg), clip.value, own) && Covered(own, {})
      ensures totA == old(totA) + Signed(clip.value.legA.isBid, gapA)
      ensures totB == old(totB) + Signed(clip.value.legB.isBid, gapB)
      ensures gapA <= Room(old(own), clip.value.legA.id) && gapB <= Room(old(own), clip.value.legB.id)
      ensures Ratio(cfg) == 1 || gapB == 0
      ensures Clean() == (old(Clean()) && recovery.retireQ == old(recovery.retireQ))
      ensures recovery.retireQ == old(recovery.retireQ) == [] ==>
                Retired(own, clip.value.legA.id) && Retired(own, clip.value.legB.id)
      ensures Steady(old(Snapshot()), Snapshot())
      ensures SameClip()
    {
      hide Core, ClipShape, Covered, Steady, Later, Snapshot, Snapshot, Later;
      var c := clip.value;
      NoEmptyId();
      LegsDiffer(Ratio(cfg), c, own);
      NotParked(c.legA.id);
      NotParked(c.legB.id);
      gapA := RetireOrder(c.legA.id);
      SteadyNow();
      ClipRetire(Ratio(cfg), c, old(own), own, Legs(c), c.legA.id);
      label A:
      ghost var own1, s1 := own, Snapshot();
      NoEmptyId();
      LegsDiffer(Ratio(cfg), c, own);
      gapB := RetireOrder(c.legB.id);
      ClipRetire(Ratio(cfg), c, own1, own, Legs(c) - {c.legA.id}, c.legB.id);
      SteadyTrans(old(Snapshot()), s1, Snapshot());
      SteadyNow@A();
      assert Legs(c) - {c.legA.id} - {c.legB.id} == {};
    }

    lemma NotParked(id: OrderId)
      requires Core()
      ensures recovery.retireQ == [] && id in own ==> !own[id].deferred
      ensures id in own && own[id].maker ==> own[id].folded <= own[id].placed
    {
      if id in own {
        OrderShape(id);
      }
    }

    /** Puts the clip's end on record: committed at its target, or dropped level at `want`. */
    ghost method CloseMark(buyA: bool, target: int, committed: bool, want: int, s0: Snap)
      requires Core() && Steady(s0, Snapshot())
      requires committed ==> want == target
      requires Clean() && !recovery.halted ==>
                 0 <= want <= target && PairMove(Ratio(cfg), buyA, totA - base.a, totB - base.b, want)
      modifies `closed
      ensures Core() && Steady(s0, Snapshot())
      ensures closed == old(closed) + [EndOf(committed, buyA, target)]
      ensures Booked(closed) == Booked(old(closed)) + if committed then 1 else 0
    {
      hide TraceOK, PaceOK, RegistryOK, FeedOK, KnownOK, QueuesOK, Ledger.Tied, DebtSum, Steady;
      hide EndOf, CloseOK, PairMove, Booked;
      ghost var s := Snapshot();
      EndHolds(buyA, target, committed, want);
      BookedAppend(closed, EndOf(committed, buyA, target));
      TraceCloses(Ratio(cfg), recovery.unverified, log, opens, closed, EndOf(committed, buyA, target));
      closed := closed + [EndOf(committed, buyA, target)];
      ClipRecorded(s0, s, Snapshot());
    }

    lemma EndHolds(buyA: bool, target: int, committed: bool, want: int)
      requires committed ==> want == target
      requires Clean() && !recovery.halted ==>
                 0 <= want <= target && PairMove(Ratio(cfg), buyA, totA - base.a, totB - base.b, want)
      ensures CloseOK(Ratio(cfg), EndOf(committed, buyA, target))
      ensures EndOf(committed, buyA, target).committed == committed
    {
    }

    /** Pulls both passive orders, settles what the cancels caught, and goes idle; `x` is how many
        lots the pair moved by doing so. */
    method CancelClip() returns (ghost x: int)
      requires Sound()
      modifies `own, `pending, `sink, `totA, `totB, `log, `parked, `clip, `closed
      modifies broker`rpcs, broker`issued, broker`answers, broker`refusals
      modifies recovery`retireQ, recovery`debts, recovery`unverified
      modifies recovery`impaired, recovery`nextRetryAt, recovery`retryGap, recovery`stalls
      ensures Sound() && clip == None && Steady(old(Snapshot()), Snapshot())
      ensures old(clip) == None ==> NotMoved() && closed == old(closed) && parked == old(parked)
      ensures old(clip).Some? ==>
                && Ended(old(clip).value, false)
                && (!recovery.halted ==>
                      x >= 0 && PairMove(Ratio(cfg), old(clip).value.legA.isBid, totA - old(totA), totB - old(totB), x))
    {
      hide Sound, EndOf, Core, MakersKept, Covered, ClipShape, CleanWork;
      hide Room, PairMove, HedgeLots, Steady, Later, Snapshot;
      LaterRefl(Snapshot());
      CleanRooms();
      x := 0;
      if clip == None {
        return;
      }
      x := TearDown();
    }

    /** The working part of CancelClip: the pair is settled level and the clip dropped. */
    method TearDown() returns (ghost x: int)
      requires Core() && (!recovery.halted ==> totB + Ratio(cfg) * totA == drift)
      requires clip.Some? && ClipShape(Ratio(cfg), clip.value, own) && Covered(own, Legs(clip.value))
      requires Clean() ==>
                 && recovery.retireQ == []
                 && PairMove(Ratio(cfg), clip.value.legA.isBid, totA - base.a, totB - base.b, clip.value.makerFilled)
                 && clip.value.makerFilled + Room(own, clip.value.legA.id) <= clip.value.target
                 && clip.value.makerFilled + Room(own, clip.value.legB.id) <= clip.value.target
      modifies `own, `pending, `sink, `totA, `totB, `log, `parked, `clip, `closed
      modifies broker`rpcs, broker`issued, broker`answers, broker`refusals
      modifies recovery`retireQ, recovery`debts, recovery`unverified
      modifies recovery`impaired, recovery`nextRetryAt, recovery`retryGap, recovery`stalls
      ensures Sound() && Steady(old(Snapshot()), Snapshot()) && Ended(old(clip.value), false)
      ensures !recovery.halted ==>
                x >= 0 && PairMove(Ratio(cfg), old(clip.value).legA.isBid, totA - old(totA), totB - old(totB), x)
    {
      hide Core, MakersKept, Covered, ClipShape, CleanWork, Room, PairMove, HedgeLots, Steady, Later, Snapshot;
      var c := clip.value;
      var mf := c.makerFilled;
      NoEmptyId();
      LegsDiffer(Ratio(cfg), c, own);
      TargetPositive(Ratio(cfg), c, own);
      ghost var want := SettleClip(mf, mf, false);
      x := want - mf;
      HedgeMove(cfg, c.legA.isBid, x);
      SteadyNow();
      BothMoved(c, old(totA), old(totB), mf, x);
      DropClip(want, old(Snapshot()));
    }

    /** Back to idle; nothing in the invariants of the registry, queues, books and log depends
        on the clip. */
    method ForgetClip()
      requires Core()
      modifies `clip
      ensures Core() && clip == None && Snapshot() == old(Snapshot())
    {
      hide TraceOK, PaceOK, RegistryOK, FeedOK, KnownOK, QueuesOK, Ledger.Tied, DebtSum;
      clip := None;
    }

    /** Drops a clip with nothing of it left at the broker, level at `want` lots. */
    method DropClip(ghost want: int, ghost s0: Snap)
      requires Core() && clip.Some? && Covered(own, {}) && Steady(s0, Snapshot())
      requires !recovery.halted ==> totB + Ratio(cfg) * totA == drift
      requires Clean() && !recovery.halted ==>
                 && 0 <= want <= clip.value.target
                 && PairMove(Ratio(cfg), clip.value.legA.isBid, totA - base.a, totB - base.b, want)
      modifies `clip, `closed
      ensures Sound() && Steady(s0, Snapshot()) && Ended(old(clip.value), false)
    {
      hide Core, Covered, ClipShape, CleanWork, PairMove, Steady, Snapshot;
      CloseMark(clip.value.legA.isBid, clip.value.target, false, want, s0);
      ForgetClip();
    }

    /** The clip is level, and both legs moved by x more lots in its direction. */
    lemma BothMoved(c: Clip, a: int, b: int, from: int, x: int)
      requires recovery.halted || PairMove(Ratio(cfg), c.legA.isBid, totA - a, totB - b, x)
      ensures !recovery.halted ==> totB + Ratio(cfg) * totA == b + Ratio(cfg) * a
      ensures !recovery.halted && PairMove(Ratio(cfg), c.legA.isBid, a - base.a, b - base.b, from) ==>
                PairMove(Ratio(cfg), c.legA.isBid, totA - base.a, totB - base.b, from + x)
    {
      if !recovery.halted {
        var buyA := c.legA.isBid;
        PairShift(Ratio(cfg), buyA, x, a, b, totA, totB);
        if PairMove(Ratio(cfg), buyA, a - base.a, b - base.b, from) {
          PairMoveAdd(Ratio(cfg), buyA, a - base.a, b - base.b, from, totA - a, totB - b, x);
        }
      }
    }

    /** What a cleanly worked clip's cancels can still catch. */
    lemma CleanRooms()
      requires Sound()
      ensures Core() && (!recovery.halted ==> totB + Ratio(cfg) * totA == drift)
      ensures clip.Some? ==>
                && ClipShape(Ratio(cfg), clip.value, own) && clip.value.makerFilled >= 0
                && clip.value.legB.isBid == !clip.value.legA.isBid
                && Covered(own, Legs(clip.value))
      ensures clip.Some? && Clean() ==>
                && recovery.retireQ == []
                && clip.value.makerFilled < clip.value.target
                && PairMove(Ratio(cfg), clip.value.legA.isBid, totA - base.a, totB - base.b, clip.value.makerFilled)
                && clip.value.makerFilled + Room(own, clip.value.legA.id) <= clip.value.target
                && clip.value.makerFilled + Room(own, clip.value.legB.id) <= clip.value.target
    {
      NoEmptyId();
      if clip.Some? {
        LegsDiffer(Ratio(cfg), clip.value, own);
        MakerIsLeg(Ratio(cfg), clip.value, own);
        CoveredWiden(own, ClipIds(clip), Legs(clip.value));
        if Clean() {
          CleanRoom(Ratio(cfg), clip.value, own, totA - base.a, totB - base.b);
        }
      }
    }

    /** Books the completed clip and goes idle, then pulls a maker passive left resting: `g`
        lots its cancel catches beyond the target are matched on the other leg. */
    method CommitClip() returns (ghost g: int)
      requires Core() && !recovery.halted
      requires clip.Some? && ClipShape(Ratio(cfg), clip.value, own) && Covered(own, {clip.value.makerID})
      requires Clean() ==>
                 && recovery.retireQ == [] && Room(own, clip.value.makerID) == 0
                 && PairMove(Ratio(cfg), clip.value.legA.isBid, totA - base.a, totB - base.b, clip.value.target)
      modifies `own, `pending, `sink, `totA, `totB, `log, `parked, `clip, `closed
      modifies broker`rpcs, broker`issued, broker`answers, broker`refusals, desk`committed
      modifies recovery`retireQ, recovery`debts, recovery`unverified
      modifies recovery`impaired, recovery`nextRetryAt, recovery`retryGap, recovery`stalls
      ensures Core() && Covered(own, {}) && Steady(old(Snapshot()), Snapshot()) && Ended(old(clip.value), true)
      ensures PairMove(Ratio(cfg), old(clip.value).legA.isBid, totA - old(totA), totB - old(totB), g)
      ensures 0 <= g <= Max(0, Room(old(own), old(clip.value).makerID))
    {
      hide Core, MakersKept, Covered, ClipShape, Room, PairMove, HedgeLots, Steady, Later, Snapshot;
      LaterRefl(Snapshot());
      BasesHold();
      var c := clip.value;
      NoEmptyId();
      LegsDiffer(Ratio(cfg), c, own);
      HedgeMove(cfg, c.legA.isBid, 0);
      HedgeSplit(cfg, 0, 0);
      CoveredBy(own, c.makerID);
      TargetPositive(Ratio(cfg), c, own);
      desk.Commit(c.intent);
      ForgetClip();
      g := 0;
      if c.makerID != NoId {
        g := PullMaker(c);
        SteadyNow();
      }
      BothMoved(c, old(totA), old(totB), c.target, g);
      CloseMark(c.legA.isBid, c.target, true, c.target, old(Snapshot()));
    }

    /** The maker-retiring tail of commitClip. */
    method PullMaker(c: Clip) returns (ghost g: nat)
      requires Core() && !recovery.halted && ClipShape(Ratio(cfg), c, own) && c.makerID != NoId
      requires Covered(own, {c.makerID})
      modifies `own, `pending, `sink, `totA, `totB, `log, `parked
      modifies broker`rpcs, broker`issued, broker`answers, broker`refusals
      modifies recovery`retireQ, recovery`debts, recovery`unverified
      modifies recovery`impaired, recovery`nextRetryAt, recovery`retryGap, recovery`stalls
      ensures Core() && Covered(own, {}) && Steady(old(Snapshot()), Snapshot())
      ensures PairMove(Ratio(cfg), c.legA.isBid, totA - old(totA), totB - old(totB), g)
      ensures g <= Max(0, Room(old(own), c.makerID))
      ensures SameClip()
    {
      hide Core, MakersKept, Covered, ClipShape, PairMove, HedgeLots, Steady, Later, Snapshot;
      NoEmptyId();
      LegsDiffer(Ratio(cfg), c, own);
      MakerIsLeg(Ratio(cfg), c, own);
      HedgeMove(cfg, c.legA.isBid, 0);
      HedgeSplit(cfg, 0, 0);
      var gap := RetireOrder(c.makerID);
      ClipRetire(Ratio(cfg), c, old(own), own, {c.makerID}, c.makerID);
      assert {c.makerID} - {c.makerID} == {};
      ghost var own1, s1 := own, Snapshot();
      SteadyNow();
      g := gap;
      if gap > 0 && !recovery.halted {
        HedgeMove(cfg, c.legA.isBid, gap);
        HedgeLotsPositive(cfg, LegB, gap);
        if c.makerID == c.legA.id {
          TakerRetry(LegB, c.legB.isBid, HedgeLots(cfg, LegB, gap));
        } else {
          HedgeSplit(cfg, gap, gap);
          TakerRetry(LegA, c.legA.isBid, gap);
        }
        CoveredFrame(own1, own, {});
        SteadyTrans(old(Snapshot()), s1, Snapshot());
      }
    }

    /** Legs realized realA and realB lots since totals a0 and b0: takers complete the pair to
        target, or to the further leg, and the clip is committed. */
    method CompletePair(realA: int, realB: int, ghost a0: int, ghost b0: int) returns (ghost want: int)
      requires Core() && !recovery.halted && realA >= 0 && realB >= 0
      requires clip.Some? && ClipShape(Ratio(cfg), clip.value, own) && Covered(own, Legs(clip.value))
      requires totA == a0 + Signed(clip.value.legA.isBid, realA)
      requires totB == b0 + Signed(clip.value.legB.isBid, HedgeLots(cfg, LegB, realB))
      requires b0 + Ratio(cfg) * a0 == drift
      requires Clean() ==>
                 && recovery.retireQ == [] && a0 == base.a && b0 == base.b
                 && realA + Room(own, clip.value.legA.id) <= clip.value.target
                 && realB + Room(own, clip.value.legB.id) <= clip.value.target
      modifies `own, `pending, `sink, `totA, `totB, `log, `parked, `clip, `closed
      modifies broker`rpcs, broker`issued, broker`answers, broker`refusals, desk`committed
      modifies recovery`retireQ, recovery`debts, recovery`unverified
      modifies recovery`impaired, recovery`nextRetryAt, recovery`retryGap, recovery`stalls
      ensures Sound() && Steady(old(Snapshot()), Snapshot()) && Ended(old(clip.value), true)
      ensures PairMove(Ratio(cfg), old(clip.value).legA.isBid, totA - a0, totB - b0, want)
      ensures CompletedTo(old(clip.value), realA, realB, old(own), want)
    {
      hide Core, MakersKept, Covered, ClipShape, CleanWork, Room, PairMove, HedgeLots, Steady, Later, Snapshot;
      hide CompletedTo, EndOf;
      var c := clip.value;
      want := SettleFull(realA, realB, a0, b0);
      SteadyNow();
      ghost var a1, b1, s1 := totA, totB, Snapshot();
      ghost var g := CommitClip();
      SteadyTrans(old(Snapshot()), s1, Snapshot());
      PairMoveAdd(Ratio(cfg), c.legA.isBid, a1 - a0, b1 - b0, want, totA - a1, totB - b1, g);
      PairShift(Ratio(cfg), c.legA.isBid, want, a0, b0, totA, totB);
    }

    /** Settles a clip of realA and realB lots since totals a0 and b0 to its full target. */
    method SettleFull(realA: int, realB: int, ghost a0: int, ghost b0: int) returns (ghost want: int)
      requires Core() && !recovery.halted && realA >= 0 && realB >= 0
      requires clip.Some? && ClipShape(Ratio(cfg), clip.value, own) && Covered(own, Legs(clip.value))
      requires totA == a0 + Signed(clip.value.legA.isBid, realA)
      requires totB == b0 + Signed(clip.value.legB.isBid, HedgeLots(cfg, LegB, realB))
      modifies `own, `pending, `sink, `totA, `totB, `log, `parked
      modifies broker`rpcs, broker`issued, broker`answers, broker`refusals
      modifies recovery`retireQ, recovery`debts, recovery`unverified
      modifies recovery`impaired, recovery`nextRetryAt, recovery`retryGap, recovery`stalls
      ensures Core() && Steady(old(Snapshot()), Snapshot())
      ensures ClipShape(Ratio(cfg), clip.value, own) && Covered(own, {clip.value.makerID})
      ensures Room(own, clip.value.makerID) == 0
      ensures PairMove(Ratio(cfg), clip.value.legA.isBid, totA - a0, totB - b0, want)
      ensures CompletedTo(clip.value, realA, realB, old(own), want)
      ensures Max(realA + Room(old(own), clip.value.legA.id), realB + Room(old(own), clip.value.legB.id)) <=
              clip.value.target ==>
                want == clip.value.target
      ensures Clean() == (old(Clean()) && recovery.retireQ == old(recovery.retireQ))
      ensures SameClip()
    {
      hide Core, MakersKept, Covered, ClipShape, Room, PairMove, HedgeLots, Steady, Later, Snapshot;
      NoEmptyId();
      var c := clip.value;
      LegsDiffer(Ratio(cfg), c, own);
      want := SettleClip(realA, realB, true);
      SteadyNow();
      SettledTotals(a0, b0, realA, realB, want);
      HedgeMove(cfg, c.legA.isBid, want);
      RetiredRoom(own, c.makerID);
      CoveredWiden(own, {}, {c.makerID});
    }

    /** Where a completed pair lands: at the target, or at what a leg had or was still caught
        with when that is more. */
    ghost predicate CompletedTo(c: Clip, realA: int, realB: int, own0: Own, want: int) {
      && want >= c.target && want >= realA && want >= realB
      && want <= Max(c.target, Max(realA + Room(own0, c.legA.id), realB + Room(own0, c.legB.id)))
    }

    /** Settling adds what each leg was short of on top of what it had realized. */
    lemma SettledTotals(a0: int, b0: int, realA: int, realB: int, want: int)
      requires clip.Some?
      requires totA == a0 + Signed(clip.value.legA.isBid, realA) + Signed(clip.value.legA.isBid, want - realA)
      requires totB == b0 + Signed(clip.value.legB.isBid, HedgeLots(cfg, LegB, realB)) +
                       Signed(clip.value.legB.isBid, HedgeLots(cfg, LegB, want - realB))
      ensures totA == a0 + Signed(clip.value.legA.isBid, want)
      ensures totB == b0 + Signed(clip.value.legB.isBid, HedgeLots(cfg, LegB, want))
    {
      HedgeAdd(cfg, realB, want - realB);
    }

    /** Settles the clip to its full target and commits it: the pair moves by the x lots the maker
        had not filled yet, and by more only if a cancel caught more. */
    method CompleteClip() returns (ghost x: int)
      requires Sound() && !recovery.halted && clip.Some?
      modifies `own, `pending, `sink, `totA, `totB, `log, `parked, `clip, `closed
      modifies broker`rpcs, broker`issued, broker`answers, broker`refusals, desk`committed
      modifies recovery`retireQ, recovery`debts, recovery`unverified
      modifies recovery`impaired, recovery`nextRetryAt, recovery`retryGap, recovery`stalls
      ensures Sound() && Steady(old(Snapshot()), Snapshot()) && Ended(old(clip.value), true)
      ensures PairMove(Ratio(cfg), old(clip.value).legA.isBid, totA - old(totA), totB - old(totB), x)
      ensures var c := old(clip.value); CompletedTo(c, c.makerFilled, c.makerFilled, old(own), c.makerFilled + x)
    {
      hide Sound, EndOf, Core, MakersKept, Covered, ClipShape, CleanWork, Room;
      hide PairMove, HedgeLots, Steady, Later, Snapshot, CompletedTo;
      CleanRooms();
      var c := clip.value;
      var mf := c.makerFilled;
      ghost var a0 := totA - Signed(c.legA.isBid, mf);
      ghost var b0 := totB - Signed(c.legB.isBid, HedgeLots(cfg, LegB, mf));
      HedgeMove(cfg, c.legA.isBid, mf);
      PairShift(Ratio(cfg), c.legA.isBid, mf, a0, b0, totA, totB);
      PairMoveUnique(Ratio(cfg), c.legA.isBid, totA - base.a, totB - base.b, totA - a0, totB - b0, mf);
      ghost var want := CompletePair(mf, mf, a0, b0);
      x := want - mf;
      PairMoveRest(Ratio(cfg), c.legA.isBid, totA - a0, totB - b0, want, old(totA) - a0, old(totB) - b0, mf);
    }

    /** Drops an unfilled clip; fills its cancels catch are completed to target and committed,
        unless an opening clip keeps its partial. */
    method AbandonClip() returns (ghost booked: bool, ghost x: int)
      requires Sound() && !recovery.halted && clip.Some? && clip.value.makerFilled == 0
      modifies `own, `pending, `sink, `totA, `totB, `log, `parked, `clip, `closed
      modifies broker`rpcs, broker`issued, broker`answers, broker`refusals, desk`committed
      modifies recovery`retireQ, recovery`debts, recovery`unverified
      modifies recovery`impaired, recovery`nextRetryAt, recovery`retryGap, recovery`stalls
      ensures Sound() && Steady(old(Snapshot()), Snapshot()) && Ended(old(clip.value), booked)
      ensures x >= 0 && PairMove(Ratio(cfg), old(clip.value).legA.isBid, totA - old(totA), totB - old(totB), x)
      ensures if !old(clip.value).intent.isClose && cfg.keepPartialOpenOnTimeout then !booked
              else if booked then x >= old(clip.value).target else x == 0
    {
      hide Core, MakersKept, Covered, ClipShape, CleanWork, Room, PairMove, HedgeLots, Steady, Later, Snapshot;
      if !clip.value.intent.isClose && cfg.keepPartialOpenOnTimeout {
        x := CancelClip();
        booked := false;
        SteadyNow();
        return;
      }
      booked, x := CompleteCaught();
    }

    /** Retires an unfilled clip's legs and completes what the cancels caught, if anything. */
    method CompleteCaught() returns (ghost booked: bool, ghost x: int)
      requires Sound() && !recovery.halted && clip.Some? && clip.value.makerFilled == 0
      modifies `own, `pending, `sink, `totA, `totB, `log, `parked, `clip, `closed
      modifies broker`rpcs, broker`issued, broker`answers, broker`refusals, desk`committed
      modifies recovery`retireQ, recovery`debts, recovery`unverified
      modifies recovery`impaired, recovery`nextRetryAt, recovery`retryGap, recovery`stalls
      ensures Sound() && Steady(old(Snapshot()), Snapshot()) && Ended(old(clip.value), booked)
      ensures PairMove(Ratio(cfg), old(clip.value).legA.isBid, totA - old(totA), totB - old(totB), x)
      ensures if booked then x >= old(clip.value).target else x == 0
      ensures x >= 0
    {
      hide Sound, EndOf, Core, MakersKept, Covered, ClipShape, CleanWork;
      hide Room, PairMove, HedgeLots, Steady, Later, Snapshot;
      var c := clip.value;
      CleanRooms();
      HedgeMove(cfg, c.legA.isBid, 0);
      HedgeSplit(cfg, 0, 0);
      ghost var a0, b0 := totA, totB;
      PairMoveUnique(Ratio(cfg), c.legA.isBid, totA - base.a, totB - base.b, 0, 0, 0);
      TargetPositive(Ratio(cfg), c, own);
      var gapA, gapB := RetireLegs();
      SteadyNow();
      ghost var s1 := Snapshot();
      if gapA == 0 && gapB == 0 {
        DropClip(0, old(Snapshot()));
        return false, 0;
      }
      HedgeSplit(cfg, gapB, gapB);
      RetiredRoom(own, c.legA.id);
      RetiredRoom(own, c.legB.id);
      CoveredWiden(own, {}, Legs(clip.value));
      x := CompletePair(gapA, gapB, a0, b0);
      SteadyTrans(old(Snapshot()), s1, Snapshot());
      booked := true;
    }

    /** The clip is gone, the pair moved by x lots: booked in full, kept as the partial it is, or
        dropped without a fill. */
    twostate predicate Disposed(c: Clip, booked: bool, x: int)
      reads this, recovery, desk
    {
      && Ended(c, booked) && x >= 0
      && PairMove(Ratio(cfg), c.legA.isBid, totA - old(totA), totB - old(totB), x)
      && var keep := !c.intent.isClose && cfg.keepPartialOpenOnTimeout;
         && (booked ==> c.makerFilled + x >= c.target)
         && (keep ==> !booked)
         && (!keep && !booked ==> x == 0 && c.makerFilled == 0 && !(cfg.forceCloseOnTimeout && c.intent.isClose))
    }

    /** Disposes of a clip that is no longer wanted. */
    method ResolveClip() returns (ghost booked: bool, ghost x: int)
      requires Sound() && !recovery.halted
      modifies `own, `pending, `sink, `totA, `totB, `log, `parked, `clip, `closed
      modifies broker`rpcs, broker`issued, broker`answers, broker`refusals, desk`committed
      modifies recovery`retireQ, recovery`debts, recovery`unverified
      modifies recovery`impaired, recovery`nextRetryAt, recovery`retryGap, recovery`stalls
      ensures Sound() && clip == None && Steady(old(Snapshot()), Snapshot())
      ensures if old(clip).Some? then Disposed(old(clip).value, booked, x)
              else NotMoved() && closed == old(closed) && desk.committed == old(desk.committed)
    {
      hide Sound, Steady, Later, Snapshot, PairMove;
      booked, x := false, 0;
      LaterRefl(Snapshot());
      if clip == None {
        return;
      }
      if clip.value.makerFilled == 0 && (!cfg.forceCloseOnTimeout || !clip.value.intent.isClose) {
        booked, x := AbandonClip();
        return;
      }
      if !clip.value.intent.isClose && cfg.keepPartialOpenOnTimeout {
        x := CancelClip();
        SteadyNow();
        return;
      }
      x := CompleteClip();
      booked := true;
    }

    // ----- impaired mode ----------------------------------------------------------------

    /** Re-asks the broker about every parked retire. What leaves the queue has its terminal count,
        and the broker said nothing about what stays. */
    method RetryRetires() returns (progressed: bool)
      requires Sound() && !recovery.halted && clip == None && recovery.impaired
      modifies `own, `pending, `sink, `totA, `totB, `log
      modifies broker`rpcs, broker`issued, broker`answers, broker`refusals
      modifies recovery`retireQ, recovery`debts, recovery`unverified
      modifies recovery`impaired, recovery`nextRetryAt, recovery`retryGap, recovery`stalls
      ensures Sound() && recovery.impaired && Serviced(old(Snapshot()), Snapshot()) && SamePace()
      ensures Answered(old(recovery.retireQ), recovery.retireQ, own)
      ensures Unheard(recovery.retireQ, old(broker.answers), broker.answers)
      ensures progressed == (|recovery.retireQ| < |old(recovery.retireQ)|)
      ensures !progressed ==> recovery.retireQ == old(recovery.retireQ)
      ensures old(recovery.debts) <= recovery.debts && broker.refusals >= old(broker.refusals)
      ensures broker.refusals == old(broker.refusals) ==>
                recovery.retireQ == [] && recovery.debts == old(recovery.debts)
      ensures SameClip()
    {
      hide Core, MakersKept, Covered, PairMove, Later, Steady, Snapshot, Filtered, Queued, NoRepeat, Answered;
      hide AskedOnly, Unheard, Serviced, Undisturbed;
      progressed := false;
      var q := recovery.retireQ;
      var remaining: seq<OrderId> := [];
      Snapped();
      FilterStart(own, q);
      AskedStart(q, broker.answers);
      LaterRefl(Snapshot());
      assert q[..0] == [];
      var i := 0;
      while i < |q|
        invariant i <= |q| && Sound() && Filtered(own, q, i, remaining)
        invariant AskedOnly(q, i, remaining, old(broker.answers), broker.answers)
        invariant recovery.retireQ == q && Steady(old(Snapshot()), Snapshot())
        invariant recovery.impaired && !recovery.halted && SamePace()
        invariant broker.refusals >= old(broker.refusals)
        invariant broker.refusals == old(broker.refusals) ==> remaining == []
        invariant if progressed then |remaining| < i else remaining == q[..i]
        modifies `own, `pending, `sink, `totA, `totB, `log
        modifies broker`rpcs, broker`issued, broker`answers, broker`refusals
        modifies recovery`debts, recovery`unverified
        modifies recovery`impaired, recovery`nextRetryAt, recovery`retryGap, recovery`stalls
      {
        label L:
        ghost var own0, answers0, s0, a0, b0 := own, broker.answers, Snapshot(), totA, totB;
        QueuedOrder(i);
        var resolved, x := TryDeferredRetire(q[i]);
        SteadyNow@L();
        SteadyTrans(old(Snapshot()), s0, Snapshot());
        PairShift(Ratio(cfg), true, x, a0, b0, totA, totB);
        CoveredRetire(own0, own, {}, q[i]);
        FilterStep(own0, own, q, i, remaining, resolved);
        AskedStep(own0, q, i, remaining, old(broker.answers), answers0, broker.answers, resolved);
        assert q[..i + 1] == q[..i] + [q[i]];
        if resolved {
          progressed := true;
        } else {
          remaining := remaining + [q[i]];
        }
        i := i + 1;
      }
      SteadyNow();
      AskedDone(q, remaining, old(broker.answers), broker.answers);
      assert q[..|q|] == q;
      KeepRetires(remaining, old(Snapshot()));
    }

    /** The episode's pace is what it was. */
    twostate predicate SamePace()
      reads recovery
    {
      && recovery.nextRetryAt == old(recovery.nextRetryAt) && recovery.retryGap == old(recovery.retryGap)
      && recovery.stalls == old(recovery.stalls)
    }

    lemma QueuedOrder(i: nat)
      requires Core() && i < |recovery.retireQ|
      ensures NoRepeat(recovery.retireQ)
      ensures recovery.retireQ[i] in own && own[recovery.retireQ[i]].maker
    {
      QueuedHas(recovery.retireQ, i);
      QueuedAt(own, recovery.retireQ, recovery.debts, recovery.impaired || recovery.halted, recovery.retireQ[i]);
    }

    method KeepRetires(remaining: seq<OrderId>, ghost s0: Snap)
      requires Core() && Filtered(own, recovery.retireQ, |recovery.retireQ|, remaining) && recovery.impaired
      requires Steady(s0, Snapshot()) && s0.retireQ == recovery.retireQ
      modifies recovery`retireQ
      ensures Core() && recovery.retireQ == remaining && Serviced(s0, Snapshot())
      ensures Answered(old(recovery.retireQ), remaining, own)
    {
      hide TraceOK, PaceOK, RegistryOK, FeedOK, KnownOK, QueuesOK, Ledger.Tied, DebtSum, Filtered;
      hide Queued, Answered, Undisturbed, Serviced;
      FilterDone(own, recovery.retireQ, remaining, recovery.debts, true);
      RetiresServiced(s0, Snapshot(), remaining);
      recovery.SetRetireQueue(remaining);
    }

    /** Tries to place every owed hedge once, in order; exactly the accepted ones leave the queue. */
    method RetryDebts() returns (progressed: bool, ghost attempts: seq<Rpc>)
      requires Sound() && !recovery.halted && clip == None && recovery.impaired
      modifies `own, `pending, `sink, `totA, `totB, `log
      modifies broker`rpcs, broker`issued, broker`refusals, recovery`unverified, recovery`debts
      ensures Sound() && NotMoved() && MakersKept(old(own), own) && Serviced(old(Snapshot()), Snapshot())
      ensures broker.rpcs == old(broker.rpcs) + attempts && Asks(attempts, old(recovery.debts))
      ensures recovery.debts == Unpaid(old(recovery.debts), attempts)
      ensures progressed == (|recovery.debts| < |old(recovery.debts)|)
      ensures !progressed ==> recovery.debts == old(recovery.debts)
      ensures broker.refusals >= old(broker.refusals)
      ensures broker.refusals == old(broker.refusals) ==> recovery.debts == []
      ensures SameClip()
    {
      hide Core, MakersKept, Covered, DebtSum, Serviced, Undisturbed, Snapshot, Asks, Unpaid;
      progressed, attempts := false, [];
      var d := recovery.debts;
      var remaining: seq<HedgeDebt> := [];
      Snapped();
      EmptyDebts();
      NothingAsked();
      assert d[..0] == [];
      MakersKeptRefl(own);
      LaterRefl(Snapshot());
      var i := 0;
      while i < |d|
        invariant i <= |d| && Core() && MakersKept(old(own), own) && Undisturbed(old(Snapshot()), Snapshot())
        invariant recovery.debts == d && broker.rpcs == old(broker.rpcs) + attempts
        invariant Asks(attempts, d[..i]) && remaining == Unpaid(d[..i], attempts)
        invariant forall k :: 0 <= k < |remaining| ==> remaining[k].lots > 0
        invariant totA == old(totA) + DebtSum(d[..i], LegA) - DebtSum(remaining, LegA)
        invariant totB == old(totB) + DebtSum(d[..i], LegB) - DebtSum(remaining, LegB)
        invariant broker.refusals >= old(broker.refusals)
        invariant broker.refusals == old(broker.refusals) ==> remaining == []
        invariant if progressed then |remaining| < i else remaining == d[..i]
        modifies `own, `pending, `sink, `totA, `totB, `log
        modifies broker`rpcs, broker`issued, broker`refusals, recovery`unverified
      {
        ghost var own0, s0 := own, Snapshot();
        var deb := d[i];
        OwedPositive(i);
        var ok, _, last := TryPlaceTaker(deb.leg, deb.buy, deb.lots);
        MakersKeptTrans(old(own), own0, own);
        UndisturbedTrans(old(Snapshot()), s0, Snapshot());
        UnpaidAppend(d[..i], attempts, deb, last);
        attempts := attempts + [last];
        assert d[..i + 1] == d[..i] + [deb];
        DebtAppend(d[..i], deb, LegA);
        DebtAppend(d[..i], deb, LegB);
        DebtAppend(remaining, deb, LegA);
        DebtAppend(remaining, deb, LegB);
        if ok {
          progressed := true;
        } else {
          remaining := remaining + [deb];
        }
        i := i + 1;
      }
      assert d[..|d|] == d;
      CoveredFrame(old(own), own, {});
      KeepDebts(remaining, old(Snapshot()), attempts);
    }

    lemma NothingAsked()
      ensures Asks([], []) && Unpaid([], []) == []
    {
    }

    lemma OwedPositive(i: nat)
      requires Core() && i < |recovery.debts|
      ensures recovery.debts[i].lots > 0
    {
      DebtPositive(own, recovery.retireQ, recovery.debts, recovery.impaired || recovery.halted, i);
    }

    method KeepDebts(remaining: seq<HedgeDebt>, ghost s0: Snap, ghost attempts: seq<Rpc>)
      requires Core() && recovery.impaired
      requires forall i :: 0 <= i < |remaining| ==> remaining[i].lots > 0
      requires Undisturbed(s0, Snapshot()) && s0.debts == recovery.debts && broker.rpcs == s0.rpcs + attempts
      requires Asks(attempts, recovery.debts) && remaining == Unpaid(recovery.debts, attempts)
      modifies `totA, `totB, recovery`debts
      ensures Core() && recovery.debts == remaining && Serviced(s0, Snapshot())
      ensures totA == old(totA) - DebtSum(old(recovery.debts), LegA) + DebtSum(remaining, LegA)
      ensures totB == old(totB) - DebtSum(old(recovery.debts), LegB) + DebtSum(remaining, LegB)
    {
      hide TraceOK, PaceOK, RegistryOK, FeedOK, KnownOK, QueuesOK, Ledger.Tied, DebtSum, Undisturbed, Serviced;
      hide Asks, Unpaid;
      DebtsDropped(own, recovery.retireQ, recovery.debts, remaining, true);
      DebtsServiced(s0, Snapshot(), attempts);
      totA := totA - DebtSum(recovery.debts, LegA) + DebtSum(remaining, LegA);
      totB := totB - DebtSum(recovery.debts, LegB) + DebtSum(remaining, LegB);
      recovery.SetDebts(remaining);
    }

    /** Impaired-mode housekeeping: pulls a working clip and, at the backoff pace, retries every
        obligation. With all of them confirmed the engine recovers into the unverified gate. */
    method ServiceImpaired() returns (ghost progressed: bool, ghost pass: Pass)
      requires Inv()
      modifies `own, `pending, `sink, `totA, `totB, `log, `parked, `clip, `closed
      modifies broker`rpcs, broker`issued, broker`answers, broker`refusals, desk`committed
      modifies recovery`retireQ, recovery`debts, recovery`unverified
      modifies recovery`impaired, recovery`nextRetryAt, recovery`retryGap, recovery`stalls
      ensures Inv() && Serviced(old(Snapshot()), Snapshot()) && Paced(old(Snapshot()), Snapshot(), now)
      ensures !old(recovery.impaired) || recovery.halted ==>
                Untroubled()
      ensures old(recovery.impaired) && !recovery.halted ==>
                && clip == None
                && (recovery.impaired || (recovery.unverified && recovery.retireQ == [] && recovery.debts == []))
      ensures Pulled() && (clip.Some? ==> !recovery.impaired)
      ensures old(recovery.impaired) && !recovery.halted && now < old(recovery.nextRetryAt) ==>
                recovery.impaired && SamePace()
      ensures old(recovery.impaired) && !recovery.halted && now >= old(recovery.nextRetryAt) ==>
                && PassOK(pass, progressed, Snapshot())
                && old(recovery.retireQ) <= pass.retires && old(recovery.debts) <= pass.owed
                && (recovery.impaired ==> PaceAfter(progressed))
                && (broker.refusals == old(broker.refusals) ==> !recovery.impaired)
    {
      hide Sound, Later, Undisturbed, Steady, NextGap, Serviced, Snapshot, PassOK, Paced, EndsAs;
      hide Closes, PaceAfter;
      progressed, pass := false, Pass([], [], []);
      LaterRefl(Snapshot());
      SteadyServiced(Snapshot(), Snapshot());
      if !recovery.impaired || recovery.halted {
        PacedSame();
        return;
      }
      progressed, pass := ServiceEpisode();
    }

    /** What an impaired engine does at an event: its clip is pulled and, when due, its obligations
        are retried. */
    method ServiceEpisode() returns (ghost progressed: bool, ghost pass: Pass)
      requires Inv() && recovery.impaired && !recovery.halted
      modifies `own, `pending, `sink, `totA, `totB, `log, `parked, `clip, `closed
      modifies broker`rpcs, broker`issued, broker`answers, broker`refusals, desk`committed
      modifies recovery`retireQ, recovery`debts, recovery`unverified
      modifies recovery`impaired, recovery`nextRetryAt, recovery`retryGap, recovery`stalls
      ensures Inv() && Serviced(old(Snapshot()), Snapshot()) && Paced(old(Snapshot()), Snapshot(), now)
      ensures Pulled() && !recovery.halted
      ensures clip == None
      ensures recovery.impaired || (recovery.unverified && recovery.retireQ == [] && recovery.debts == [])
      ensures if now < old(recovery.nextRetryAt) then recovery.impaired && SamePace()
              else
                && PassOK(pass, progressed, Snapshot())
                && old(recovery.retireQ) <= pass.retires && old(recovery.debts) <= pass.owed
                && (recovery.impaired ==> PaceAfter(progressed))
                && (broker.refusals == old(broker.refusals) ==> !recovery.impaired)
    {
      hide Sound, Later, Undisturbed, Steady, NextGap, Serviced, Snapshot, PassOK, Paced, EndsAs;
      progressed, pass := false, Pass([], [], []);
      PullWorking();
      SteadyNow();
      SteadyServiced(old(Snapshot()), Snapshot());
      if now < recovery.nextRetryAt {
        LogGrows();
        PacedSame();
        return;
      }
      ghost var s1 := Snapshot();
      progressed, pass := ServicePass();
      ServicedTrans(old(Snapshot()), s1, Snapshot());
      LaterPaced(old(Snapshot()), s1, Snapshot(), now);
    }

    /** A pass of the obligation loop at its time, and what it does to the pace. */
    method ServicePass() returns (progressed: bool, ghost pass: Pass)
      requires Sound() && !recovery.halted && clip == None && recovery.impaired && now >= recovery.nextRetryAt
      modifies `own, `pending, `sink, `totA, `totB, `log
      modifies broker`rpcs, broker`issued, broker`answers, broker`refusals
      modifies recovery`retireQ, recovery`debts, recovery`unverified
      modifies recovery`impaired, recovery`nextRetryAt, recovery`retryGap, recovery`stalls
      ensures Sound() && Serviced(old(Snapshot()), Snapshot()) && Paced(old(Snapshot()), Snapshot(), now)
      ensures PassOK(pass, progressed, Snapshot())
      ensures ClipLeft()
      ensures pass.retires == old(recovery.retireQ) && old(recovery.debts) <= pass.owed
      ensures if recovery.impaired then PaceAfter(progressed)
              else recovery.unverified && recovery.retireQ == [] && recovery.debts == []
      ensures broker.refusals >= old(broker.refusals)
      ensures broker.refusals == old(broker.refusals) ==> !recovery.impaired
    {
      hide Sound, NextGap, Serviced, Snapshot, PassOK, Paced;
      progressed, pass := RetryObligations();
      ServicedNow();
      PassKeeps(progressed, pass);
      PacedPass(progressed);
    }

    /** Pulls a working clip because the connection is in doubt. */
    method PullWorking()
      requires Inv() && !recovery.halted
      modifies `own, `pending, `sink, `totA, `totB, `log, `parked, `clip, `closed
      modifies broker`rpcs, broker`issued, broker`answers, broker`refusals, desk`committed
      modifies recovery`retireQ, recovery`debts, recovery`unverified
      modifies recovery`impaired, recovery`nextRetryAt, recovery`retryGap, recovery`stalls
      ensures Inv() && clip == None && Steady(old(Snapshot()), Snapshot())
      ensures if old(clip).Some? then Closes(old(clip).value) else StillWorking()
    {
      hide Sound, Steady, Later, Snapshot, PairMove;
      LaterRefl(Snapshot());
      if clip.Some? {
        ghost var booked, x := ResolveClip();
        SteadyNow();
      }
    }

    /** The clip and its records were not touched. */
    twostate predicate ClipLeft()
      reads this, recovery, desk
    {
      StillWorking() && SameBase() && opens == old(opens) && exceeded == old(exceeded) &&
      recovery.halted == old(recovery.halted)
    }

    /** The clip is what it was, or its end went on record. */
    twostate predicate Pulled()
      reads this, recovery, desk
    {
      && opens == old(opens) && SameBase()
      && if old(clip).Some? && clip == None then Closes(old(clip).value) else StillWorking()
    }

    twostate lemma PulledStep()
      requires Pulled() && (old(clip).Some? && clip == None ==> old(recovery.impaired))
      ensures ClipStep(false)
    {
    }

    /** A clip's end on record has the clip's terms, and what was parked or exceeded since. */
    ghost predicate EndsAs(k: Close, c: Clip)
      reads `parked, `exceeded, `base, recovery`halted
    {
      && k.buyA == c.legA.isBid && k.target == c.target
      && k.parked == parked - base.parked && k.excess == exceeded - base.exceeded && k.halted == recovery.halted
    }

    /** The clip's end is on record, whatever the pair did since. */
    twostate predicate Closes(c: Clip)
      reads this, recovery, desk
    {
      && clip == None && |closed| == |old(closed)| + 1 && old(closed) <= closed
      && EndsAs(closed[|old(closed)|], c)
      && desk.committed == old(desk.committed) + if closed[|old(closed)|].committed then [c.intent] else []
    }

    /** A serviced episode's pace: doubled after a fruitless pass, back to the base otherwise. */
    twostate predicate PaceAfter(progressed: bool)
      reads this, recovery
    {
      && recovery.retryGap == NextGap(old(recovery.retryGap), progressed, PlaceBackoff(cfg), IMPAIRED_RETRY_MAX)
      && recovery.nextRetryAt == now + recovery.retryGap
      && recovery.stalls == if progressed then 0 else old(recovery.stalls) + 1
    }

    twostate lemma PacedSame()
      requires old(log) <= log && (old(recovery.impaired) ==> recovery.impaired && SamePace())
      ensures Paced(old(Snapshot()), Snapshot(), now)
    {
    }

    twostate lemma PacedPass(progressed: bool)
      requires old(recovery.nextRetryAt) <= now
      requires old(log) <= log && (if recovery.impaired then PaceAfter(progressed) else Recovered in log[|old(log)|..])
      requires !progressed ==> old(recovery.retireQ) <= recovery.retireQ && old(recovery.debts) <= recovery.debts
      ensures Paced(old(Snapshot()), Snapshot(), now)
    {
    }

    lemma PassKeeps(progressed: bool, pass: Pass)
      requires PassOK(pass, progressed, Snapshot())
      ensures !progressed ==> recovery.retireQ == pass.retires && recovery.debts == pass.owed
    {
    }

    /** One pass of the obligation loop over both queues. */
    method RetryObligations() returns (progressed: bool, ghost pass: Pass)
      requires Sound() && !recovery.halted && clip == None && recovery.impaired
      modifies `own, `pending, `sink, `totA, `totB, `log
      modifies broker`rpcs, broker`issued, broker`answers, broker`refusals
      modifies recovery`retireQ, recovery`debts, recovery`unverified
      modifies recovery`impaired, recovery`nextRetryAt, recovery`retryGap, recovery`stalls
      ensures Sound() && Serviced(old(Snapshot()), Snapshot())
      ensures PassOK(pass, progressed, Snapshot())
      ensures pass.retires == old(recovery.retireQ) && old(recovery.debts) <= pass.owed
      ensures if recovery.impaired then PaceAfter(progressed)
              else recovery.unverified && recovery.retireQ == [] && recovery.debts == [] &&
                   old(log) < log && log[|log| - 1] == Recovered
      ensures broker.refusals >= old(broker.refusals)
      ensures broker.refusals == old(broker.refusals) ==> !recovery.impaired
    {
      hide Sound, Unheard, NextGap, MakersKept, Serviced, Snapshot, Unpaid, Asks;
      var some := RetryRetires();
      ghost var s2, rpcs2 := Snapshot(), broker.rpcs;
      pass := Pass(old(recovery.retireQ), recovery.debts, []);
      var more;
      ghost var attempts;
      more, attempts := RetryDebts();
      pass := pass.(attempts := attempts);
      ServicedTrans(old(Snapshot()), s2, Snapshot());
      progressed := some || more;
      ghost var s3 := Snapshot();
      if recovery.retireQ == [] && recovery.debts == [] && clip == None {
        ServicedNow();
        EndImpaired();
      } else {
        AdvancePace(progressed);
      }
      ServicedTrans(old(Snapshot()), s3, Snapshot());
      PassDone(pass, progressed, rpcs2);
    }

    lemma PassDone(pass: Pass, progressed: bool, before: seq<Rpc>)
      requires Asks(pass.attempts, pass.owed) && recovery.debts == Unpaid(pass.owed, pass.attempts)
      requires broker.rpcs == before + pass.attempts
      requires progressed == (|recovery.retireQ| < |pass.retires| || |recovery.debts| < |pass.owed|)
      requires !progressed ==> recovery.retireQ == pass.retires && recovery.debts == pass.owed
      ensures PassOK(pass, progressed, Snapshot())
    {
    }

    /** Every obligation is confirmed: back to normal, unverified until a clean reconcile. */
    method EndImpaired()
      requires Sound() && !recovery.halted && clip == None && recovery.retireQ == [] && recovery.debts == []
      modifies `log, recovery`impaired, recovery`unverified, recovery`retryGap
      ensures Sound() && !recovery.impaired && recovery.unverified && log == old(log) + [Recovered]
      ensures Serviced(old(Snapshot()), Snapshot())
    {
      hide TraceOK, PaceOK, RegistryOK, FeedOK, KnownOK, QueuesOK, Ledger.Tied, DebtSum, Covered, Serviced;
      QueuesStuck(own, recovery.retireQ, recovery.debts, recovery.impaired || recovery.halted);
      TraceDoubts(Ratio(cfg), recovery.unverified, log, opens, closed, Recovered);
      log := log + [Recovered];
      recovery.ClearImpaired();
      PaceStarts(PlaceBackoff(cfg), IMPAIRED_RETRY_MAX, recovery.retryGap, recovery.stalls);
      PaceServiced(old(Snapshot()), Snapshot());
    }

    method AdvancePace(progressed: bool)
      requires Sound() && clip == None
      modifies recovery`nextRetryAt, recovery`retryGap, recovery`stalls
      ensures Sound() && PaceAfter(progressed) && Serviced(old(Snapshot()), Snapshot())
    {
      hide TraceOK, PaceOK, RegistryOK, FeedOK, KnownOK, QueuesOK, Ledger.Tied, DebtSum, Covered, Serviced;
      PaceAdvances(PlaceBackoff(cfg), IMPAIRED_RETRY_MAX, recovery.impaired, recovery.retryGap, recovery.stalls,
                   progressed);
      recovery.AdvancePace(now, progressed, PlaceBackoff(cfg), IMPAIRED_RETRY_MAX);
      PaceServiced(old(Snapshot()), Snapshot());
    }

    // ----- fill events ------------------------------------------------------------------

    ghost method NoteDelivery(id: OrderId, raw: int, n: nat, p: real)
      requires id in sink.lines && sink.Tied() && raw > 0
      modifies `sink
      ensures sink.Tied() && sink.net == old(sink.net)
      ensures sink.lines == old(sink.lines)[id := Delivered(old(sink.lines)[id], raw, n, p)]
      ensures sink.lines[id].leg == old(sink.lines)[id].leg
    {
      sink := sink.Deliver(id, raw, n, p);
    }

    /** The sink's side of an event on lots already credited: `dup` of them move from the credit
        price to the fill price (no change at equal prices or without overlap), x are new. */
    ghost method BookOverlap(id: OrderId, raw: int, n: nat, buy: bool, dup: nat, from: real, x: nat, p: real)
      requires id in sink.lines && sink.Tied() && raw > 0
      modifies `sink, `totA, `totB
      ensures sink.Tied() && Moved(old(sink.lines)[id].leg, Signed(buy, x))
      ensures sink.net.lotsA - old(sink.net.lotsA) == totA - old(totA)
      ensures sink.net.lotsB - old(sink.net.lotsB) == totB - old(totB)
      ensures sink.lines == old(sink.lines)[id := SinkFill(SinkAmend(Delivered(old(sink.lines)[id], raw, n, p), buy,
          dup, from, p), buy, x, p)]
    {
      hide Ledger.Tied, Value;
      sink := sink.Deliver(id, raw, n, p);
      sink := sink.Amend(id, buy, dup, from, p);
      if x > 0 {
        Credit(id, buy, x, p);
      } else {
        FillNothing(sink.lines[id], buy, p);
      }
    }

    /** The sink's side of a live fill. */
    ghost method BookLive(id: OrderId, raw: int, n: nat, buy: bool, p: real)
      requires id in sink.lines && sink.Tied() && raw > 0
      modifies `sink, `totA, `totB
      ensures sink.Tied() && Moved(old(sink.lines)[id].leg, Signed(buy, n))
      ensures sink.net.lotsA - old(sink.net.lotsA) == totA - old(totA)
      ensures sink.net.lotsB - old(sink.net.lotsB) == totB - old(totB)
      ensures sink.lines == old(sink.lines)[id := SinkFill(Delivered(old(sink.lines)[id], raw, n, p), buy, n, p)]
    {
      hide Ledger.Tied, Value;
      NoteDelivery(id, raw, n, p);
      Credit(id, buy, n, p);
    }

    /** The account of an order whose line has just taken in one event of the stream is sound. */
    lemma EventFiled(s0: Snap, feed0: seq<Report>, id: OrderId, raw: int, p: real)
      requires RegistryOK(Ratio(cfg), s0.own, s0.lines, pending, broker.makerIds)
      requires FeedOK(s0.own, s0.lines, feed0) && KnownOK(s0.own, broker.answers) && Books() && Logged()
      requires QueuesOK(s0.own, recovery.retireQ, recovery.debts, recovery.impaired || recovery.halted)
      requires id in s0.own && id in own && own == s0.own[id := own[id]] && feed == feed0 + [Report(id, raw, p)]
      requires id in s0.lines && id in sink.lines && sink.lines == s0.lines[id := sink.lines[id]]
      requires SameOrder(s0.own[id], own[id]) && AcctOK(own[id], sink.lines[id]) && s0.own[id].seen <= own[id].seen
      requires own[id].final == s0.own[id].final && own[id].deferred == s0.own[id].deferred
      requires own[id].final >= 0 ==> !own[id].deferred
      requires raw > 0 && s0.own[id].seen == Min(s0.own[id].placed, s0.lines[id].delivered)
      requires Told(sink.lines[id]) == HeardAfter(s0.own[id], Told(s0.lines[id]), raw, p)
      requires Snapshot() == s0.(own := own, lines := sink.lines)
      ensures Core() && Later(s0, Snapshot())
      ensures !own[id].maker ==> MakersKept(s0.own, own)
    {
      hide RegistryOK, FeedOK, KnownOK, QueuesOK, Ledger.Tied, DebtSum, TraceOK, PaceOK, AcctOK;
      hide MakersKept, Queued, Told, HeardAfter, Later;
      if own[id].maker && own[id].final < 0 {
        LiveUpdated(Ratio(cfg), s0.own, s0.lines, pending, broker.makerIds, recovery.retireQ, recovery.debts,
                    recovery.impaired || recovery.halted, id, own[id], sink.lines[id]);
      } else {
        SettledUpdated(Ratio(cfg), s0.own, s0.lines, pending, broker.makerIds, recovery.retireQ, recovery.debts,
                       recovery.impaired || recovery.halted, id, own[id], sink.lines[id]);
      }
      AcctShape(own[id], sink.lines[id]);
      KnownKeeps(s0.own, broker.answers, id, own[id]);
      FeedEvent(s0.own, s0.lines, feed0, id, own[id], sink.lines[id], raw, p);
      HeardBirth(s0.own[id], s0.lines[id], sink.lines[id], raw, p);
      OrderMoved(s0, Snapshot(), id);
    }

    /** A re-delivered event that lies wholly past the placed size. */
    method DropEvent(id: OrderId, raw: int, p: real)
      requires Core() && id in own && raw > 0 && Admitted(own[id], raw) <= 0
      modifies `sink, `feed
      ensures Core() && Later(old(Snapshot()), Snapshot()) && feed == old(feed) + [Report(id, raw, p)]
      ensures recovery.halted == old(recovery.halted)
    {
      hide RegistryOK, FeedOK, KnownOK, QueuesOK, Ledger.Tied, DebtSum, TraceOK, PaceOK, AcctOK;
      hide Delivered, Admitted, MakersKept, HeardAfter, Told, Later;
      ghost var s0 := Snapshot();
      AcctAt(Ratio(cfg), own, sink.lines, pending, broker.makerIds, id);
      AcctShape(own[id], sink.lines[id]);
      SeenIsDelivered(own[id], sink.lines[id]);
      DroppedKeepsAccount(own[id], sink.lines[id], raw, p);
      HeardLine(own[id], sink.lines[id], raw, 0, p, true, 0, p, 0);
      NoteDelivery(id, raw, 0, p);
      feed := feed + [Report(id, raw, p)];
      assert own[id := own[id]] == own;
      EventFiled(s0, old(feed), id, raw, p);
    }

    method DropFill(id: OrderId, raw: int, p: real)
      requires Inv() && id in own && raw > 0 && Admitted(own[id], raw) <= 0
      modifies `sink, `feed
      ensures Inv() && Later(old(Snapshot()), Snapshot()) && feed == old(feed) + [Report(id, raw, p)]
    {
      hide Core, Covered, ClipShape, CleanWork, Admitted, Later, Snapshot;
      DropEvent(id, raw, p);
    }

    /** Re-prices the overlap of an event with what was credited ahead of the stream, and books the
        lots beyond the terminal count. */
    method FoldCredited(id: OrderId, raw: int, n: int, p: real) returns (excess: nat)
      requires Books() && id in own && id in sink.lines && sink.lines[id].leg == own[id].leg
      requires raw > 0 && 0 <= Excess(own[id], n) <= n
      modifies `own, `sink, `totA, `totB
      ensures Books() && excess == Excess(old(own)[id], n) <= n
      ensures own == old(own)[id := Overlapped(old(own)[id], n)]
      ensures sink.lines == old(sink.lines)[id := OverlapLine(old(own)[id], old(sink.lines)[id], raw, n, excess, p)]
      ensures Moved(own[id].leg, Signed(own[id].isBuy, excess))
    {
      hide Ledger.Tied, DebtSum, SinkFill, SinkAmend, Delivered, Value, Excess;
      var a := own[id];
      excess := Excess(a, n);
      a := a.(seen := a.seen + n);
      BookOverlap(id, raw, n, a.isBuy, n - excess, a.price, excess, p);
      if excess > 0 {
        a := a.(credited := a.credited + excess);
      }
      own := own[id := a];
    }

    /** An event on a taker or a settled passive. */
    method FoldOverlap(id: OrderId, raw: int, n: int, p: real) returns (excess: nat)
      requires Core() && id in own && (own[id].maker ==> own[id].final >= 0)
      requires raw > 0 && n == Admitted(own[id], raw) > 0
      modifies `own, `sink, `totA, `totB, `feed
      ensures Core() && Later(old(Snapshot()), Snapshot()) && feed == old(feed) + [Report(id, raw, p)]
      ensures excess == Excess(old(own)[id], n)
      ensures id in own && own == old(own)[id := own[id]] && own[id] == Overlapped(old(own)[id], n)
      ensures Moved(own[id].leg, Signed(own[id].isBuy, excess))
      ensures !own[id].maker ==> MakersKept(old(own), own)
    {
      hide RegistryOK, FeedOK, KnownOK, QueuesOK, Ledger.Tied, DebtSum, TraceOK, PaceOK, AcctOK;
      hide Admitted, MakersKept, Told, Later, Excess, HeardAfter, OverlapLine;
      ghost var s0 := Snapshot();
      AcctAt(Ratio(cfg), own, sink.lines, pending, broker.makerIds, id);
      OverlapHolds(own[id], sink.lines[id], raw, p);
      excess := FoldCredited(id, raw, n, p);
      feed := feed + [Report(id, raw, p)];
      EventFiled(s0, old(feed), id, raw, p);
    }

    /** Books n new lots of a live order. */
    method FillLive(id: OrderId, raw: int, n: int, p: real)
      requires Books() && id in own && id in sink.lines && sink.lines[id].leg == own[id].leg
      requires raw > 0 && n > 0
      modifies `own, `sink, `totA, `totB
      ensures Books() && own == old(own)[id := LiveFilled(old(own)[id], n)]
      ensures sink.lines ==
              old(sink.lines)[id := SinkFill(Delivered(old(sink.lines)[id], raw, n, p), old(own)[id].isBuy, n, p)]
      ensures Moved(own[id].leg, Signed(own[id].isBuy, n))
    {
      hide Ledger.Tied, DebtSum, SinkFill, Delivered, Value;
      var a := own[id];
      a := a.(seen := a.seen + n);
      BookLive(id, raw, n, a.isBuy, p);
      a := a.(credited := a.credited + n, folded := a.folded + n);
      own := own[id := a];
    }

    /** A fill of an order still live or parked: all of it is new to the sink. */
    method FoldLive(id: OrderId, raw: int, n: int, p: real)
      requires Core() && id in own && own[id].maker && own[id].final < 0
      requires raw > 0 && n == Admitted(own[id], raw) > 0
      modifies `own, `sink, `totA, `totB, `feed
      ensures Core() && Later(old(Snapshot()), Snapshot()) && feed == old(feed) + [Report(id, raw, p)]
      ensures id in own && own == old(own)[id := own[id]] && own[id] == LiveFilled(old(own)[id], n)
      ensures Moved(own[id].leg, Signed(own[id].isBuy, n))
    {
      hide RegistryOK, FeedOK, KnownOK, QueuesOK, Ledger.Tied, DebtSum, TraceOK, PaceOK, AcctOK;
      hide Delivered, Admitted, Told, Later, SinkFill, Queued, HeardAfter;
      ghost var s0 := Snapshot();
      OrderShape(id);
      AcctAt(Ratio(cfg), own, sink.lines, pending, broker.makerIds, id);
      LiveHolds(own[id], sink.lines[id], raw, p);
      FillLive(id, raw, n, p);
      feed := feed + [Report(id, raw, p)];
      EventFiled(s0, old(feed), id, raw, p);
    }

    /** An own taker's fill: never pairs. Lots past its settled count are booked unhedged. */
    method OnTakerFill(id: OrderId, raw: int, n: int, p: real)
      requires Inv() && id in own && !own[id].maker
      requires raw > 0 && n == Admitted(own[id], raw) > 0
      modifies `own, `sink, `totA, `totB, `drift, `exceeded, `feed
      ensures Inv() && Later(old(Snapshot()), Snapshot()) && feed == old(feed) + [Report(id, raw, p)]
      ensures drift == old(drift) + Overfill(Ratio(cfg), old(own), id, raw)
      ensures exceeded == old(exceeded) + if Exceeds(old(own), id, raw) then 1 else 0
    {
      hide Core, MakersKept, Covered, ClipShape, Admitted, Excess, Weight, CleanWork, Later, Snapshot;
      BasesHold();
      var excess := FoldOverlap(id, raw, n, p);
      LaterNow();
      ghost var x := Signed(own[id].isBuy, excess);
      WeightShifts(Ratio(cfg), own[id].leg, x, old(totA), old(totB), totA, totB);
      CoveredFrame(old(own), own, ClipIds(clip));
      if clip.Some? {
        ClipFrame(Ratio(cfg), clip.value, old(own), own, totA - base.a, totB - base.b);
      }
      Account(Weight(Ratio(cfg), own[id].leg, x), excess > 0);
    }

    /** Ghost bookkeeping: an unhedged overfill of weight w, and events past a reported count. */
    ghost method Account(w: int, past: bool)
      requires Core()
      modifies `drift, `exceeded
      ensures Core() && drift == old(drift) + w && exceeded == old(exceeded) + if past then 1 else 0
      ensures Snapshot() == old(Snapshot())
    {
      hide TraceOK, PaceOK, RegistryOK, FeedOK, KnownOK, QueuesOK, Ledger.Tied, DebtSum;
      drift := drift + w;
      exceeded := exceeded + if past then 1 else 0;
    }

    /** A fill of an own passive already retired: a silent no-op up to its terminal count, and
        pair-hedged beyond it. */
    method OnSettledFill(id: OrderId, raw: int, n: int, p: real)
      requires Inv() && id in own && own[id].maker && own[id].final >= 0
      requires raw > 0 && n == Admitted(own[id], raw) > 0
      modifies `own, `pending, `sink, `totA, `totB, `drift, `exceeded, `feed, `log
      modifies broker`rpcs, broker`issued, broker`refusals
      modifies recovery`debts, recovery`unverified, recovery`impaired
      modifies recovery`nextRetryAt, recovery`retryGap, recovery`stalls
      ensures Inv() && Later(old(Snapshot()), Snapshot()) && feed == old(feed) + [Report(id, raw, p)]
      ensures drift == old(drift) && exceeded == old(exceeded) + if Exceeds(old(own), id, raw) then 1 else 0
      ensures var a, x := old(own)[id], Excess(old(own)[id], n);
              if x == 0 then NotMoved() && broker.rpcs == old(broker.rpcs) && recovery.debts == old(recovery.debts)
              else !recovery.halted ==>
                     PairMove(Ratio(cfg), true, totA - old(totA), totB - old(totB), StraySize(a.leg, a.isBuy, x))
    {
      hide Core, MakersKept, Covered, ClipShape, Admitted, Excess;
      hide CleanWork, PairMove, HedgeLots, Later, Snapshot, StraySize;
      OrderShape(id);
      var a := own[id];
      var excess := FoldSettled(id, raw, n, p);
      LaterNow();
      if excess > 0 {
        ghost var s1 := Snapshot();
        HedgeStray(a.leg, a.isBuy, excess, old(totA), old(totB));
        LaterTrans(old(Snapshot()), s1, Snapshot());
        LaterNow();
      }
    }

    /** Books an event of a settled passive; lots past its count leave the pair to be hedged. */
    method FoldSettled(id: OrderId, raw: int, n: int, p: real) returns (excess: nat)
      requires Inv() && id in own && own[id].maker && own[id].final >= 0
      requires raw > 0 && n == Admitted(own[id], raw) > 0
      modifies `own, `sink, `totA, `totB, `drift, `exceeded, `feed
      ensures Core() && Later(old(Snapshot()), Snapshot()) && feed == old(feed) + [Report(id, raw, p)]
      ensures Covered(own, ClipIds(clip)) && (clip.Some? ==> ClipShape(Ratio(cfg), clip.value, own))
      ensures excess == Excess(old(own)[id], n) && drift == old(drift)
      ensures if excess == 0 then Sound() && exceeded == old(exceeded) else !Clean() && exceeded == old(exceeded) + 1
      ensures Moved(old(own)[id].leg, Signed(old(own)[id].isBuy, excess))
    {
      hide Core, MakersKept, Covered, ClipShape, Admitted, Excess, CleanWork, Later, Snapshot;
      OrderShape(id);
      BasesHold();
      excess := FoldOverlap(id, raw, n, p);
      AcctRefresh(Ratio(cfg), clip, old(own), id, own[id], ClipIds(clip));
      Account(0, excess > 0);
    }

    /** Hedges lots booked on one leg since totals a0 and b0 that no clip accounts for. */
    method HedgeStray(leg: Leg, buy: bool, n: int, ghost a0: int, ghost b0: int)
      requires Core() && Covered(own, ClipIds(clip)) && n > 0 && (leg == LegB ==> Ratio(cfg) == 1)
      requires clip.Some? ==> ClipShape(Ratio(cfg), clip.value, own)
      requires totA == a0 + (if leg == LegA then Signed(buy, n) else 0)
      requires totB == b0 + (if leg == LegB then Signed(buy, n) else 0)
      modifies `own, `pending, `sink, `totA, `totB, `log
      modifies broker`rpcs, broker`issued, broker`refusals
      modifies recovery`debts, recovery`unverified, recovery`impaired
      modifies recovery`nextRetryAt, recovery`retryGap, recovery`stalls
      ensures Core() && Covered(own, ClipIds(clip))
      ensures clip.Some? ==> ClipShape(Ratio(cfg), clip.value, own)
      ensures !recovery.halted ==>
                && totB + Ratio(cfg) * totA == b0 + Ratio(cfg) * a0
                && PairMove(Ratio(cfg), true, totA - a0, totB - b0, StraySize(leg, buy, n))
      ensures Later(old(Snapshot()), Snapshot())
      ensures SameClip()
    {
      hide Core, MakersKept, Covered, ClipShape, PairMove, HedgeLots, Later, Steady, Snapshot, StraySize;
      HedgeStrayMakerFill(leg, buy, n);
      CoveredFrame(old(own), own, ClipIds(clip));
      if clip.Some? {
        ClipFrame(Ratio(cfg), clip.value, old(own), own, 0, 0);
      }
      SteadyNow();
      if !recovery.halted {
        StrayShift(leg, buy, n, a0, b0);
      }
    }

    /** A passive's lots and their hedge on the other leg leave the pair where it was. */
    lemma StrayShift(leg: Leg, buy: bool, n: int, a: int, b: int)
      requires leg == LegB ==> Ratio(cfg) == 1
      requires var dOwn, dOther := Signed(buy, n), Signed(!buy, HedgeLots(cfg, Other(leg), n));
               totA == a + (if leg == LegA then dOwn else dOther) && totB == b + (if leg == LegB then dOwn else dOther)
      ensures PairMove(Ratio(cfg), true, totA - a, totB - b, StraySize(leg, buy, n))
      ensures totB + Ratio(cfg) * totA == b + Ratio(cfg) * a
    {
      var own, other := Signed(buy, n), Signed(!buy, HedgeLots(cfg, Other(leg), n));
      StrayPair(cfg, leg, buy, n, own, other);
      PairShift(Ratio(cfg), true, StraySize(leg, buy, n), a, b, totA, totB);
    }

    /** A live fill no working clip accounts for: the order was parked. Hedged at once. */
    method OnStrayFill(id: OrderId, raw: int, n: int, p: real)
      requires Inv() && id in own && own[id].maker && own[id].final < 0
      requires raw > 0 && n == Admitted(own[id], raw) > 0
      requires clip.Some? ==> !clip.value.Owns(id) || (clip.value.makerID != NoId && clip.value.makerID != id)
      modifies `own, `pending, `sink, `totA, `totB, `feed, `log
      modifies broker`rpcs, broker`issued, broker`refusals
      modifies recovery`debts, recovery`unverified, recovery`impaired
      modifies recovery`nextRetryAt, recovery`retryGap, recovery`stalls
      ensures Inv() && Later(old(Snapshot()), Snapshot()) && feed == old(feed) + [Report(id, raw, p)]
      ensures var a := old(own)[id];
              && a.deferred
              && (!recovery.halted ==>
                    PairMove(Ratio(cfg), true, totA - old(totA), totB - old(totB), StraySize(a.leg, a.isBuy, n)))
    {
      hide Core, MakersKept, Covered, ClipShape, Admitted, CleanWork;
      hide PairMove, HedgeLots, Later, Snapshot, StraySize;
      OrderShape(id);
      var a := own[id];
      FoldParked(id, raw, n, p);
      LaterNow();
      ghost var s1 := Snapshot();
      HedgeStray(a.leg, a.isBuy, n, old(totA), old(totB));
      LaterTrans(old(Snapshot()), s1, Snapshot());
      LaterNow();
    }

    /** Books a fill of a parked order; its lots leave the pair to be hedged. */
    method FoldParked(id: OrderId, raw: int, n: int, p: real)
      requires Inv() && id in own && own[id].maker && own[id].final < 0
      requires raw > 0 && n == Admitted(own[id], raw) > 0
      requires clip.Some? ==> !clip.value.Owns(id) || (clip.value.makerID != NoId && clip.value.makerID != id)
      modifies `own, `sink, `totA, `totB, `feed
      ensures Core() && Later(old(Snapshot()), Snapshot()) && feed == old(feed) + [Report(id, raw, p)]
      ensures Covered(own, ClipIds(clip)) && (clip.Some? ==> ClipShape(Ratio(cfg), clip.value, own) && !Clean())
      ensures old(own)[id].deferred && Moved(old(own)[id].leg, Signed(old(own)[id].isBuy, n))
    {
      hide Core, MakersKept, Covered, ClipShape, Admitted, CleanWork, Later, Snapshot, Queued;
      OrderShape(id);
      NothingQueued();
      FoldLive(id, raw, n, p);
      AcctRefresh(Ratio(cfg), clip, old(own), id, own[id], ClipIds(clip));
    }

    method SetClip(c: Clip)
      requires Core()
      modifies `clip
      ensures Core() && clip == Some(c) && Snapshot() == old(Snapshot())
    {
      hide TraceOK, PaceOK, RegistryOK, FeedOK, KnownOK, QueuesOK, Ledger.Tied, DebtSum;
      clip := Some(c);
    }

    /** How n more lots of its maker leave a clip: kept at that count while below target, the pair
        having moved by n, or ended with the pair moved by x. */
    twostate predicate Worked(c: Clip, id: OrderId, n: int, caught: int, booked: bool, x: int)
      reads this, recovery, desk
    {
      && PairMove(Ratio(cfg), c.legA.isBid, totA - old(totA), totB - old(totB), x)
      && x >= n && x >= caught && (booked ==> c.makerFilled + x >= c.target)
      && (if caught <= n && c.makerFilled + n < c.target then WorkedOn(c, id, n) && x == n && !booked
          else Ended(c, booked))
      && (booked <==>
            !(caught <= n && c.makerFilled + n < c.target) &&
            (caught <= n || c.intent.isClose || !cfg.keepPartialOpenOnTimeout))
    }

    twostate predicate WorkedOn(c: Clip, id: OrderId, n: int)
      reads this, desk
    {
      && clip == Some(c.(makerID := id, makerFilled := c.makerFilled + n))
      && closed == old(closed) && desk.committed == old(desk.committed)
    }

    twostate lemma WorkedStep(booked: bool)
      requires opens == old(opens) && SameBase() && old(clip).Some?
      requires if clip.Some? then Continued() else Ended(old(clip).value, booked)
      ensures ClipStep(false)
    {
    }

    /** The clip is still worked, on the same terms. */
    twostate predicate Continued()
      reads this, desk
    {
      && old(clip).Some? && clip.Some? && SameTerms(old(clip).value, clip.value)
      && closed == old(closed) && desk.committed == old(desk.committed)
    }

    /** A fill of the working clip's maker. The first one designates it and retires its counterpart,
        which `caught` that many lots; a later one finds the counterpart gone. */
    method OnMakerFill(id: OrderId, raw: int, n: int, p: real)
      returns (ghost caught: nat, ghost booked: bool, ghost x: int)
      requires Sound() && !recovery.halted && id in own && own[id].maker && own[id].final < 0
      requires raw > 0 && n == Admitted(own[id], raw) > 0
      requires clip.Some? && clip.value.Owns(id) && (clip.value.makerID == NoId || clip.value.makerID == id)
      modifies `own, `pending, `sink, `totA, `totB, `feed, `log, `parked, `clip, `closed
      modifies broker`rpcs, broker`issued, broker`answers, broker`refusals, desk`committed
      modifies recovery`retireQ, recovery`debts, recovery`unverified
      modifies recovery`impaired, recovery`nextRetryAt, recovery`retryGap, recovery`stalls
      ensures Sound() && Later(old(Snapshot()), Snapshot()) && feed == old(feed) + [Report(id, raw, p)]
      ensures Worked(old(clip.value), id, n, caught, booked, x)
      ensures old(clip.value).makerID != NoId ==> caught == 0
    {
      hide Admitted, Core, Covered, ClipShape, CleanWork, PairMove, HedgeLots, Later, Snapshot;
      hide Untouched, Retired, MakerLive, EndOf, Sound;
      var firstFill := clip.value.makerID == NoId;
      FoldMaker(id, raw, n, p);
      ghost var s1 := Snapshot();
      LaterNow();
      caught := 0;
      if firstFill {
        HedgeMove(cfg, clip.value.legA.isBid, 0);
        HedgeSplit(cfg, 0, 0);
        PairMoveUnique(Ratio(cfg), clip.value.legA.isBid, old(totA) - base.a, old(totB) - base.b, 0, 0, 0);
        caught, booked, x := FirstFill(old(totA), old(totB));
      } else {
        x := LaterFill(n, old(totA), old(totB));
        booked := clip == None;
      }
      LaterTrans(old(Snapshot()), s1, Snapshot());
    }

    /** Books the maker's fill and counts it into the clip. */
    method FoldMaker(id: OrderId, raw: int, n: int, p: real)
      requires Sound() && !recovery.halted && id in own && own[id].maker && own[id].final < 0
      requires raw > 0 && n == Admitted(own[id], raw) > 0
      requires clip.Some? && clip.value.Owns(id) && (clip.value.makerID == NoId || clip.value.makerID == id)
      modifies `own, `sink, `totA, `totB, `feed, `clip
      ensures Core() && Later(old(Snapshot()), Snapshot()) && feed == old(feed) + [Report(id, raw, p)] && id != NoId
      ensures clip == Some(old(clip.value).(makerID := id, makerFilled := old(clip.value).makerFilled + n))
      ensures ClipShape(Ratio(cfg), clip.value, own) && Covered(own, ClipIds(old(clip)))
      ensures Counterpart(clip.value) != id && (id == clip.value.legA.id || Ratio(cfg) == 1)
      ensures old(clip.value).makerID == NoId ==> old(clip.value).makerFilled == 0
      ensures totA == old(totA) + (if id == clip.value.legA.id then Signed(clip.value.legA.isBid, n) else 0)
      ensures totB == old(totB) + (if id == clip.value.legA.id then 0 else Signed(clip.value.legB.isBid, n))
      ensures old(totB) + Ratio(cfg) * old(totA) == drift
      ensures Clean() ==>
                && recovery.retireQ == [] && MakerLive(own, clip.value) && clip.value.makerFilled <= clip.value.target
                && PairMove(Ratio(cfg), clip.value.legA.isBid, old(totA) - base.a, old(totB) - base.b,
                    old(clip.value).makerFilled)
                && if old(clip.value).makerID == NoId then Untouched(own, Counterpart(clip.value))
                   else Retired(own, Counterpart(clip.value))
    {
      hide Core, Covered, ClipShape, CleanWork, PairMove, Untouched;
      hide Retired, MakerLive, Later, Snapshot;
      var c := clip.value;
      OrderShape(id);
      NoEmptyId();
      LegsDiffer(Ratio(cfg), c, own);
      FoldLive(id, raw, n, p);
      MakerFills(Ratio(cfg), c, old(own), own, id, n);
      SetClip(c.(makerID := id, makerFilled := c.makerFilled + n));
    }

    /** The maker's first fill: the counterpart is retired at once and the pair made level. */
    method FirstFill(ghost a0: int, ghost b0: int) returns (ghost caught: nat, ghost booked: bool, ghost x: int)
      requires Core() && !recovery.halted && b0 + Ratio(cfg) * a0 == drift
      requires clip.Some? && ClipShape(Ratio(cfg), clip.value, own) && Covered(own, Legs(clip.value))
      requires clip.value.makerID != NoId && Counterpart(clip.value) != clip.value.makerID
      requires clip.value.makerID == clip.value.legA.id || Ratio(cfg) == 1
      requires totA == a0 + (if clip.value.makerID == clip.value.legA.id then Signed(clip.value.legA.isBid,
          clip.value.makerFilled) else 0)
      requires totB == b0 + (if clip.value.makerID == clip.value.legA.id then 0 else Signed(clip.value.legB.isBid,
          clip.value.makerFilled))
      requires Clean() ==>
                 && recovery.retireQ == [] && a0 == base.a && b0 == base.b
                 && MakerLive(own, clip.value) && Untouched(own, Counterpart(clip.value))
                 && clip.value.makerFilled <= clip.value.target
      modifies `own, `pending, `sink, `totA, `totB, `log, `parked, `clip, `closed
      modifies broker`rpcs, broker`issued, broker`answers, broker`refusals, desk`committed
      modifies recovery`retireQ, recovery`debts, recovery`unverified
      modifies recovery`impaired, recovery`nextRetryAt, recovery`retryGap, recovery`stalls
      ensures Sound() && Steady(old(Snapshot()), Snapshot())
      ensures PairMove(Ratio(cfg), old(clip.value).legA.isBid, totA - a0, totB - b0, x)
      ensures var c := old(clip.value);
              && caught <= c.target
              && if caught <= c.makerFilled < c.target
                 then
                   && clip == old(clip) && x == c.makerFilled && !booked
                   && closed == old(closed) && desk.committed == old(desk.committed)
                 else
                   && Ended(c, booked) && x >= c.makerFilled && x >= caught && (booked ==> x >= c.target)
                   && (!booked <==> caught > c.makerFilled && !c.intent.isClose && cfg.keepPartialOpenOnTimeout)
    {
      hide Core, MakersKept, Covered, ClipShape, CleanWork, PairMove, HedgeLots, Steady, Later, Snapshot, Untouched;
      hide Retired, MakerLive, Room, EndOf, Counterpart, Legs;
      var c := clip.value;
      var n := c.makerFilled;
      TargetPositive(Ratio(cfg), c, own);
      MakerIsLeg(Ratio(cfg), c, own);
      var executed := RetireCounterpart();
      caught := executed;
      SteadyNow();
      ghost var s1 := Snapshot();
      if executed > n {
        booked, x := RunAhead(executed, a0, b0);
      } else {
        x := MatchFirst(executed, a0, b0);
        booked := clip == None;
      }
      SteadyTrans(old(Snapshot()), s1, Snapshot());
    }

    /** Cancels the order the maker was racing; `executed` is its full executed count. */
    method RetireCounterpart() returns (executed: nat)
      requires Core() && clip.Some? && ClipShape(Ratio(cfg), clip.value, own) && Covered(own, Legs(clip.value))
      requires clip.value.makerID != NoId && Counterpart(clip.value) != clip.value.makerID
      requires Clean() ==>
                 recovery.retireQ == [] && MakerLive(own, clip.value) && Untouched(own, Counterpart(clip.value))
      modifies `own, `sink, `totA, `totB, `parked, broker`answers, broker`refusals
      modifies recovery`retireQ, recovery`impaired, recovery`nextRetryAt, recovery`retryGap, recovery`stalls
      ensures Core() && ClipShape(Ratio(cfg), clip.value, own) && Covered(own, {clip.value.makerID})
      ensures if clip.value.makerID == clip.value.legA.id
              then Moved(LegB, Signed(clip.value.legB.isBid, executed)) && (Ratio(cfg) == 1 || executed == 0)
              else Moved(LegA, Signed(clip.value.legA.isBid, executed))
      ensures executed <= clip.value.target && executed <= Max(0, Room(old(own), Counterpart(clip.value)))
      ensures Clean() ==>
                && old(Clean()) && recovery.retireQ == []
                && MakerLive(own, clip.value) && Retired(own, Counterpart(clip.value))
                && executed + Room(own, Counterpart(clip.value)) <= clip.value.target
                && clip.value.makerFilled + Room(own, clip.value.makerID) <= clip.value.target
      ensures Steady(old(Snapshot()), Snapshot())
      ensures SameClip()
    {
      hide Core, Covered, ClipShape, Steady, Later, Snapshot, Untouched, Retired, MakerLive;
      var c := clip.value;
      NoEmptyId();
      LegsDiffer(Ratio(cfg), c, own);
      TargetPositive(Ratio(cfg), c, own);
      if Counterpart(c) in own {
        OrderShape(Counterpart(c));
      }
      executed := RetireOrder(if c.makerID == c.legA.id then c.legB.id else c.legA.id);
      CounterpartRetired(Ratio(cfg), c, old(own), own);
    }

    /** The counterpart executed more than the maker's first fill. */
    method RunAhead(executed: nat, ghost a0: int, ghost b0: int) returns (ghost booked: bool, ghost x: int)
      requires Core() && !recovery.halted && b0 + Ratio(cfg) * a0 == drift
      requires clip.Some? && ClipShape(Ratio(cfg), clip.value, own) && Covered(own, {clip.value.makerID})
      requires clip.value.makerID != NoId && executed > clip.value.makerFilled >= 0
      requires var c := clip.value;
               if c.makerID == c.legA.id
               then (Ratio(cfg) == 1 || executed == 0) && totA == a0 + Signed(c.legA.isBid, c.makerFilled)
                    && totB == b0 + Signed(c.legB.isBid, executed)
               else Ratio(cfg) == 1 && totB == b0 + Signed(c.legB.isBid, c.makerFilled)
                    && totA == a0 + Signed(c.legA.isBid, executed)
      requires Clean() ==>
                 && recovery.retireQ == [] && a0 == base.a && b0 == base.b
                 && executed + Room(own, Counterpart(clip.value)) <= clip.value.target
                 && clip.value.makerFilled + Room(own, clip.value.makerID) <= clip.value.target
      modifies `own, `pending, `sink, `totA, `totB, `log, `parked, `clip, `closed
      modifies broker`rpcs, broker`issued, broker`answers, broker`refusals, desk`committed
      modifies recovery`retireQ, recovery`debts, recovery`unverified
      modifies recovery`impaired, recovery`nextRetryAt, recovery`retryGap, recovery`stalls
      ensures Sound() && Steady(old(Snapshot()), Snapshot()) && Ended(old(clip.value), booked)
      ensures booked == (old(clip.value).intent.isClose || !cfg.keepPartialOpenOnTimeout)
      ensures PairMove(Ratio(cfg), old(clip.value).legA.isBid, totA - a0, totB - b0, x)
      ensures x >= executed && (booked ==> x >= old(clip.value).target)
    {
      hide Core, Covered, ClipShape, CleanWork, PairMove, HedgeLots, Steady, Later, Snapshot, Room, Ended;
      var c := clip.value;
      var n := c.makerFilled;
      MakerIsLeg(Ratio(cfg), c, own);
      HedgeSplit(cfg, executed, executed);
      HedgeSplit(cfg, n, n);
      if c.makerID == c.legA.id {
        booked, x := Overrun(n, executed, a0, b0);
      } else {
        booked, x := Overrun(executed, n, a0, b0);
      }
    }

    /** Crosses what the counterpart is short of the maker's first fill. */
    method MatchFirst(executed: nat, ghost a0: int, ghost b0: int) returns (ghost x: int)
      requires Core() && !recovery.halted && b0 + Ratio(cfg) * a0 == drift
      requires clip.Some? && ClipShape(Ratio(cfg), clip.value, own) && Covered(own, {clip.value.makerID})
      requires clip.value.makerID != NoId && executed <= clip.value.makerFilled
      requires var c := clip.value;
               if c.makerID == c.legA.id
               then (Ratio(cfg) == 1 || executed == 0) && totA == a0 + Signed(c.legA.isBid, c.makerFilled)
                    && totB == b0 + Signed(c.legB.isBid, executed)
               else Ratio(cfg) == 1 && totB == b0 + Signed(c.legB.isBid, c.makerFilled)
                    && totA == a0 + Signed(c.legA.isBid, executed)
      requires Clean() ==>
                 && recovery.retireQ == [] && MakerLive(own, clip.value) && Retired(own, Counterpart(clip.value))
                 && clip.value.makerFilled <= clip.value.target && a0 == base.a && b0 == base.b
      modifies `own, `pending, `sink, `totA, `totB, `log, `parked, `clip, `closed
      modifies broker`rpcs, broker`issued, broker`answers, broker`refusals, desk`committed
      modifies recovery`retireQ, recovery`debts, recovery`unverified
      modifies recovery`impaired, recovery`nextRetryAt, recovery`retryGap, recovery`stalls
      ensures Sound() && Steady(old(Snapshot()), Snapshot())
      ensures Increased(old(clip.value), a0, b0, old(clip.value).makerFilled, x)
    {
      hide Core, MakersKept, Covered, ClipShape, CleanWork, PairMove, HedgeLots, Steady, Later, Snapshot, Retired;
      hide MakerLive, Counterpart, EndOf;
      var c := clip.value;
      var n := c.makerFilled;
      NoEmptyId();
      LegsDiffer(Ratio(cfg), c, own);
      HedgeSplit(cfg, n - executed, 0);
      CrossOther(n - executed);
      SteadyNow();
      ghost var s2 := Snapshot();
      LevelAfterFirst(n, executed, a0, b0);
      x := AfterIncrement(n, a0, b0);
      SteadyTrans(old(Snapshot()), s2, Snapshot());
    }

    /** The maker's n lots are matched on the other leg: the clip stays as it is below its target;
        a full one is committed, and x - n late lots its last cancel caught are matched too. */
    twostate predicate Increased(c: Clip, a0: int, b0: int, n: int, x: int)
      reads this, recovery, desk
    {
      && PairMove(Ratio(cfg), c.legA.isBid, totA - a0, totB - b0, x) && x >= n
      && if c.makerFilled >= c.target
         then Ended(c, true)
         else clip == Some(c) && x == n && closed == old(closed) && desk.committed == old(desk.committed)
    }

    /** Crosses x LegA lots on the leg opposite the maker, in that leg's contracts. */
    method CrossOther(x: nat)
      requires Core() && !recovery.halted
      requires clip.Some? && ClipShape(Ratio(cfg), clip.value, own) && Covered(own, {clip.value.makerID})
      requires clip.value.makerID != NoId
      modifies `own, `pending, `sink, `totA, `totB, `log
      modifies broker`rpcs, broker`issued, broker`refusals
      modifies recovery`debts, recovery`unverified, recovery`impaired
      modifies recovery`nextRetryAt, recovery`retryGap, recovery`stalls
      ensures Core() && ClipShape(Ratio(cfg), clip.value, own) && Covered(own, {clip.value.makerID})
      ensures if clip.value.makerID == clip.value.legA.id
              then Moved(LegB, Signed(clip.value.legB.isBid, HedgeLots(cfg, LegB, x)))
              else Moved(LegA, Signed(clip.value.legA.isBid, x))
      ensures MakerLive(old(own), clip.value) ==> MakerLive(own, clip.value)
      ensures Retired(old(own), Counterpart(clip.value)) ==> Retired(own, Counterpart(clip.value))
      ensures Steady(old(Snapshot()), Snapshot())
      ensures SameClip()
    {
      hide Core, MakersKept, Covered, ClipShape, HedgeLots, Steady, Later, Snapshot, Retired, MakerLive, Counterpart;
      var c := clip.value;
      LaterRefl(Snapshot());
      HedgeSplit(cfg, x, 0);
      if x > 0 {
        HedgeLotsPositive(cfg, LegB, x);
        if c.makerID == c.legA.id {
          TakerRetry(LegB, c.legB.isBid, HedgeLots(cfg, LegB, x));
        } else {
          TakerRetry(LegA, c.legA.isBid, x);
        }
        SteadyNow();
        MakerFrame(Ratio(cfg), c, old(own), own);
        CoveredFrame(old(own), own, {c.makerID});
      }
    }

    /** The counterpart's executed lots plus its top-up match the maker's first fill. */
    lemma LevelAfterFirst(n: int, executed: int, a0: int, b0: int)
      requires clip.Some? && clip.value.legB.isBid == !clip.value.legA.isBid
      requires var c, r := clip.value, HedgeLots(cfg, LegB, n - executed);
               if c.makerID == c.legA.id
               then (Ratio(cfg) == 1 || executed == 0) && totA == a0 + Signed(c.legA.isBid, n)
                    && totB == b0 + Signed(c.legB.isBid, executed) + Signed(c.legB.isBid, r)
               else Ratio(cfg) == 1 && totB == b0 + Signed(c.legB.isBid, n)
                    && totA == a0 + Signed(c.legA.isBid, executed) + Signed(c.legA.isBid, n - executed)
      ensures PairMove(Ratio(cfg), clip.value.legA.isBid, totA - a0, totB - b0, n)
    {
      HedgeMove(cfg, clip.value.legA.isBid, n);
      HedgeSplit(cfg, n, executed);
      HedgeSplit(cfg, n, 0);
      HedgeSplit(cfg, n, n);
    }

    /** The counterpart ran ahead of the maker's first fill: the pair is resolved now, kept level
        or completed. */
    method Overrun(realA: int, realB: int, ghost a0: int, ghost b0: int) returns (ghost booked: bool, ghost want: int)
      requires Core() && !recovery.halted && realA >= 0 && realB >= 0
      requires clip.Some? && ClipShape(Ratio(cfg), clip.value, own) && Covered(own, {clip.value.makerID})
      requires clip.value.makerID != NoId
      requires totA == a0 + Signed(clip.value.legA.isBid, realA)
      requires totB == b0 + Signed(clip.value.legB.isBid, HedgeLots(cfg, LegB, realB))
      requires b0 + Ratio(cfg) * a0 == drift
      requires Clean() ==>
                 && recovery.retireQ == [] && a0 == base.a && b0 == base.b
                 && realA + Room(own, clip.value.legA.id) <= clip.value.target
                 && realB + Room(own, clip.value.legB.id) <= clip.value.target
      modifies `own, `pending, `sink, `totA, `totB, `log, `parked, `clip, `closed
      modifies broker`rpcs, broker`issued, broker`answers, broker`refusals, desk`committed
      modifies recovery`retireQ, recovery`debts, recovery`unverified
      modifies recovery`impaired, recovery`nextRetryAt, recovery`retryGap, recovery`stalls
      ensures Sound() && Steady(old(Snapshot()), Snapshot()) && Ended(old(clip.value), booked)
      ensures booked == (old(clip.value).intent.isClose || !cfg.keepPartialOpenOnTimeout)
      ensures PairMove(Ratio(cfg), old(clip.value).legA.isBid, totA - a0, totB - b0, want)
      ensures var c := old(clip.value);
              if booked then CompletedTo(c, realA, realB, old(own), want)
              else realA <= want && realB <= want
                   && want <= Max(0, Max(realA + Room(old(own), c.legA.id), realB + Room(old(own), c.legB.id)))
    {
      hide Core, MakersKept, Covered, ClipShape, CleanWork, Room, PairMove, HedgeLots, Steady, Later, Snapshot, EndOf;
      var c := clip.value;
      NoEmptyId();
      LegsDiffer(Ratio(cfg), c, own);
      MakerIsLeg(Ratio(cfg), c, own);
      TargetPositive(Ratio(cfg), c, own);
      CoveredWiden(own, {c.makerID}, Legs(c));
      booked := c.intent.isClose || !cfg.keepPartialOpenOnTimeout;
      if !c.intent.isClose && cfg.keepPartialOpenOnTimeout {
        want := SettleClip(realA, realB, false);
        SteadyNow();
        SettledTotals(a0, b0, realA, realB, want);
        HedgeMove(cfg, c.legA.isBid, want);
        PairShift(Ratio(cfg), c.legA.isBid, want, a0, b0, totA, totB);
        DropClip(want, old(Snapshot()));
        return;
      }
      want := CompletePair(realA, realB, a0, b0);
    }

    /** A later fill of the maker: its increment is hedged on the other leg. */
    method LaterFill(n: int, ghost a0: int, ghost b0: int) returns (ghost x: int)
      requires Core() && !recovery.halted && b0 + Ratio(cfg) * a0 == drift && n > 0
      requires clip.Some? && ClipShape(Ratio(cfg), clip.value, own) && Covered(own, {clip.value.makerID})
      requires clip.value.makerID != NoId
      requires totA == a0 + (if clip.value.makerID == clip.value.legA.id then Signed(clip.value.legA.isBid, n) else 0)
      requires totB == b0 + (if clip.value.makerID == clip.value.legA.id then 0 else Signed(clip.value.legB.isBid, n))
      requires clip.value.makerID == clip.value.legA.id || Ratio(cfg) == 1
      requires Clean() ==>
                 && recovery.retireQ == [] && MakerLive(own, clip.value) && Retired(own, Counterpart(clip.value))
                 && clip.value.makerFilled <= clip.value.target
                 && PairMove(Ratio(cfg), clip.value.legA.isBid, a0 - base.a, b0 - base.b, clip.value.makerFilled - n)
      modifies `own, `pending, `sink, `totA, `totB, `log, `parked, `clip, `closed
      modifies broker`rpcs, broker`issued, broker`answers, broker`refusals, desk`committed
      modifies recovery`retireQ, recovery`debts, recovery`unverified
      modifies recovery`impaired, recovery`nextRetryAt, recovery`retryGap, recovery`stalls
      ensures Sound() && Steady(old(Snapshot()), Snapshot())
      ensures Increased(old(clip.value), a0, b0, n, x)
    {
      hide Core, MakersKept, Covered, ClipShape, CleanWork, PairMove, HedgeLots, Steady, Later, Snapshot, Retired;
      hide MakerLive, Room, EndOf;
      var c := clip.value;
      NoEmptyId();
      LegsDiffer(Ratio(cfg), c, own);
      HedgeMove(cfg, c.legA.isBid, n);
      HedgeSplit(cfg, n, n);
      CrossOther(n);
      SteadyNow();
      if Clean() {
        PairMoveAdd(Ratio(cfg), c.legA.isBid, a0 - base.a, b0 - base.b, c.makerFilled - n, totA - a0, totB - b0, n);
      }
      ghost var s1 := Snapshot();
      x := AfterIncrement(n, a0, b0);
      SteadyTrans(old(Snapshot()), s1, Snapshot());
    }

    /** Both legs moved by n lots since totals a0 and b0; a full maker commits the clip. */
    method AfterIncrement(ghost n: int, ghost a0: int, ghost b0: int) returns (ghost x: int)
      requires Core() && !recovery.halted && b0 + Ratio(cfg) * a0 == drift
      requires clip.Some? && ClipShape(Ratio(cfg), clip.value, own) && Covered(own, {clip.value.makerID})
      requires clip.value.makerID != NoId
      requires PairMove(Ratio(cfg), clip.value.legA.isBid, totA - a0, totB - b0, n)
      requires Clean() ==>
                 && recovery.retireQ == [] && MakerLive(own, clip.value) && Retired(own, Counterpart(clip.value))
                 && clip.value.makerFilled <= clip.value.target
                 && PairMove(Ratio(cfg), clip.value.legA.isBid, totA - base.a, totB - base.b, clip.value.makerFilled)
      modifies `own, `pending, `sink, `totA, `totB, `log, `parked, `clip, `closed
      modifies broker`rpcs, broker`issued, broker`answers, broker`refusals, desk`committed
      modifies recovery`retireQ, recovery`debts, recovery`unverified
      modifies recovery`impaired, recovery`nextRetryAt, recovery`retryGap, recovery`stalls
      ensures Sound() && Steady(old(Snapshot()), Snapshot())
      ensures Increased(old(clip.value), a0, b0, n, x)
    {
      hide Core, MakersKept, Covered, ClipShape, PairMove, Steady, Later, Snapshot, Retired, MakerLive, Room;
      LaterRefl(Snapshot());
      x := n;
      var c := clip.value;
      PairShift(Ratio(cfg), c.legA.isBid, n, a0, b0, totA, totB);
      if c.makerFilled >= c.target {
        FullMaker(Ratio(cfg), c, own);
        ghost var a1, b1 := totA, totB;
        ghost var g := CommitClip();
        x := n + g;
        SteadyNow();
        PairMoveAdd(Ratio(cfg), c.legA.isBid, a1 - a0, b1 - b0, n, totA - a1, totB - b1, g);
        PairShift(Ratio(cfg), c.legA.isBid, g, a1, b1, totA, totB);
      }
    }

    /** The data-driven clock: never backward. */
    method AdvanceNow(ts: int)
      requires Inv()
      modifies `now
      ensures Inv() && now == Max(old(now), ts) && Snapshot() == old(Snapshot())
    {
      hide TraceOK, PaceOK, RegistryOK, FeedOK, KnownOK, QueuesOK, Ledger.Tied, DebtSum, Covered;
      hide ClipShape, CleanWork;
      if ts > now {
        now := ts;
      }
    }

    /** An event that is about no own order, or about no lots. */
    ghost method Overhear(e: Report)
      requires Inv() && (e.id !in own || e.lots <= 0)
      modifies `feed
      ensures Inv() && feed == old(feed) + [e] && Snapshot() == old(Snapshot())
    {
      hide TraceOK, PaceOK, RegistryOK, FeedOK, KnownOK, QueuesOK, Ledger.Tied, DebtSum, Covered;
      hide ClipShape, CleanWork;
      FeedForeign(own, sink.lines, feed, e);
      feed := feed + [e];
    }

    /** OnFill: one fill event, keyed by the order id alone. Only a taker filling beyond its
        settled count moves the pair; everything else the engine acts on is matched or owed. */
    method OnFill(ts: int, id: OrderId, lots: int, price: real)
      requires Inv()
      modifies `now, `own, `pending, `sink, `totA, `totB, `drift, `exceeded, `feed, `log, `parked, `clip, `closed
      modifies broker`rpcs, broker`issued, broker`answers, broker`refusals, desk`committed
      modifies recovery`retireQ, recovery`debts, recovery`unverified
      modifies recovery`impaired, recovery`nextRetryAt, recovery`retryGap, recovery`stalls
      ensures Inv() && Later(old(Snapshot()), Snapshot())
      ensures feed == old(feed) + [Report(id, lots, price)]
      ensures drift == old(drift) + Overfill(Ratio(cfg), old(own), id, lots)
      ensures exceeded == old(exceeded) + if Exceeds(old(own), id, lots) then 1 else 0
      ensures old(clip) == None ==> clip == None
      ensures ClipStep(false)
      ensures id !in old(own) || lots <= 0 || !old(own)[id].maker ==>
                && broker.rpcs == old(broker.rpcs) && clip == old(clip)
                && (id !in old(own) || lots <= 0 ==> own == old(own) && sink == old(sink))
    {
      hide Sound, Later, Snapshot, Overfill, Exceeds, Admitted;
      AdvanceNow(ts);
      LaterRefl(Snapshot());
      FillKinds(Ratio(cfg), own, id, lots);
      if id !in own || lots <= 0 {
        Overhear(Report(id, lots, price));
        return;
      }
      OnOwnFill(id, lots, price);
    }

    /** A fill event of an own order, by what the order is. */
    method OnOwnFill(id: OrderId, lots: int, price: real)
      requires Inv() && id in own && lots > 0
      modifies `own, `pending, `sink, `totA, `totB, `drift, `exceeded, `feed, `log, `parked, `clip, `closed
      modifies broker`rpcs, broker`issued, broker`answers, broker`refusals, desk`committed
      modifies recovery`retireQ, recovery`debts, recovery`unverified
      modifies recovery`impaired, recovery`nextRetryAt, recovery`retryGap, recovery`stalls
      ensures Inv() && Later(old(Snapshot()), Snapshot())
      ensures feed == old(feed) + [Report(id, lots, price)]
      ensures drift == old(drift) + Overfill(Ratio(cfg), old(own), id, lots)
      ensures exceeded == old(exceeded) + if Exceeds(old(own), id, lots) then 1 else 0
      ensures ClipStep(false) && (old(clip) == None ==> clip == None)
      ensures !old(own)[id].maker ==> broker.rpcs == old(broker.rpcs) && clip == old(clip)
    {
      hide Sound, PairMove, Later, Snapshot, Admitted, Excess, Overfill, Exceeds, ClipStep;
      var n := Admitted(own[id], lots);
      FillKinds(Ratio(cfg), own, id, lots);
      if n <= 0 {
        DropFill(id, lots, price);
        StillStep();
      } else if !own[id].maker {
        OnTakerFill(id, lots, n, price);
        StillStep();
      } else if own[id].final >= 0 {
        OnSettledFill(id, lots, n, price);
        StillStep();
      } else if clip == None || !clip.value.Owns(id) || (clip.value.makerID != NoId && clip.value.makerID != id) {
        OnStrayFill(id, lots, n, price);
        StillStep();
      } else {
        ghost var caught, booked, x := OnMakerFill(id, lots, n, price);
        LaterNow();
        WorkedStep(booked);
      }
    }

    // ----- opening a clip ---------------------------------------------------------------

    /** Posts one passive order. `err` is the failure, with whether the order may rest at the
        broker all the same: an empty or reused id may, and puts the book in doubt. */
    method PlaceLeg(lo: LegOrder, leg: Leg, lots: int)
      returns (placed: LegOrder, err: Option<bool>, ghost ans: PlaceAnswer)
      requires Core() && lots > 0 && !recovery.halted && (leg == LegB ==> Ratio(cfg) == 1)
      modifies `own, `sink, `log
      modifies broker`makerIds, broker`rpcs, broker`issued, broker`refusals, recovery`unverified
      ensures Core() && Steady(old(Snapshot()), Snapshot())
      ensures broker.rpcs == old(broker.rpcs) + [MakerRpc(leg, lo.isBid, lots, OutcomeOf(ans))]
      ensures var untrackable := ans.Accepted? && (ans.id == NoId || ans.id in old(own));
              && recovery.unverified == (old(recovery.unverified) || untrackable)
              && log == old(log) + (if untrackable then [Untrackable] else [])
              && err == if ans.Failed? then Some(ans.maybeDelivered) else if untrackable then Some(true) else None
      ensures if err.Some? then placed == lo && own == old(own) && sink == old(sink)
              else
                && ans.Accepted? && placed == lo.(id := ans.id) && placed.id != NoId && placed.id !in old(own)
                && own == old(own)[placed.id := NewMaker(leg, lo.isBid, lo.price, lots)]
      ensures SameClip() && NotMoved()
    {
      hide Core, Steady, Undisturbed, Later, Snapshot;
      placed := lo;
      var answer := AskMaker(lo, leg, lots);
      ans := answer;
      SteadyNow();
      if answer.Failed? {
        return lo, Some(answer.maybeDelivered), ans;
      }
      if answer.id == NoId || answer.id in own {
        SteadyMeans(old(Snapshot()), Snapshot());
        EnterDoubt(old(Snapshot()));
        return lo, Some(true), ans;
      }
      placed := lo.(id := answer.id);
      TrackMaker(answer.id, leg, lo.isBid, lo.price, lots, old(Snapshot()));
      err := None;
    }

    /** One passive placement request. */
    method AskMaker(lo: LegOrder, leg: Leg, lots: int) returns (ans: PlaceAnswer)
      requires Core() && !recovery.halted
      modifies broker`makerIds, broker`rpcs, broker`issued, broker`refusals
      ensures Core() && Steady(old(Snapshot()), Snapshot())
      ensures broker.rpcs == old(broker.rpcs) + [MakerRpc(leg, lo.isBid, lots, OutcomeOf(ans))]
      ensures ans.Accepted? ==> ans.id in broker.makerIds
    {
      hide FeedOK, KnownOK, QueuesOK, Ledger.Tied, DebtSum, TraceOK, PaceOK, AcctOK, Kept, TakersKept;
      LaterRefl(Snapshot());
      ans := broker.PlaceMaker(leg, lo.isBid, lots, lo.price);
      MakerAsked(old(Snapshot()), Snapshot());
    }

    method TrackMaker(id: OrderId, leg: Leg, isBid: bool, price: real, lots: int, ghost s0: Snap)
      requires Core() && id != NoId && id !in own && id in broker.makerIds
      requires lots > 0 && (leg == LegB ==> Ratio(cfg) == 1) && Steady(s0, Snapshot())
      modifies `own, `sink
      ensures Core() && own == old(own)[id := NewMaker(leg, isBid, price, lots)] && Steady(s0, Snapshot())
    {
      hide RegistryOK, FeedOK, KnownOK, QueuesOK, Ledger.Tied, DebtSum, TraceOK, PaceOK, AcctOK, Queued, Steady;
      var acct := NewMaker(leg, isBid, price, lots);
      NewMakerOK(leg, |feed|, isBid, price, lots);
      NotPending(id);
      RegistryUpdate(Ratio(cfg), own, sink.lines, pending, broker.makerIds, id, acct, OpenLine(leg, |feed|), pending,
          broker.makerIds);
      FeedNew(own, sink.lines, feed, id, acct, OpenLine(leg, |feed|));
      KnownKeeps(own, broker.answers, id, acct);
      PlacedQueues(own, recovery.retireQ, recovery.debts, recovery.impaired || recovery.halted, id, acct);
      ghost var s := Snapshot();
      OpenLedgerLine(id, leg);
      own := own[id := acct];
      MakerFiled(s0, s, Snapshot(), id);
    }

    lemma NotPending(id: OrderId)
      requires Core() && id !in own
      ensures id !in pending
    {
      AcctAt(Ratio(cfg), own, sink.lines, pending, broker.makerIds, id);
    }

    /** The gate every open passes: idle, not halted, no connection trouble, no doubt about the
        position and no hedge still unconfirmed. */
    ghost predicate Trusted()
      reads this, recovery
    {
      && !recovery.halted && !recovery.impaired && !recovery.Suspended() && clip == None
      && !AwaitingTaker(now)
    }

    /** Marks an open with what its gate saw, and the totals it starts from. */
    ghost method BeginClip()
      requires Sound() && Trusted()
      modifies `log, `opens, `base
      ensures Sound() && Trusted() && recovery.retireQ == [] && Steady(old(Snapshot()), Snapshot())
      ensures base.a == totA && base.b == totB && Clean() && opens == old(opens) + 1
      ensures log == old(log) + [Opened(recovery.suspect, AwaitingTaker(now))]
      ensures totB + Ratio(cfg) * totA == drift && Covered(own, {})
    {
      hide Overdue, TraceOK, PaceOK, RegistryOK, FeedOK, KnownOK, QueuesOK;
      hide Ledger.Tied, DebtSum, Covered, Kept, TakersKept;
      QueuesStuck(own, recovery.retireQ, recovery.debts, recovery.impaired || recovery.halted);
      TraceOpens(Ratio(cfg), log, opens, closed, recovery.suspect, AwaitingTaker(now));
      LaterRefl(Snapshot());
      log, opens := log + [Opened(recovery.suspect, AwaitingTaker(now))], opens + 1;
      base := Base(totA, totB, parked, exceeded);
    }

    /** Attempts one clip of exactly `lots`. Only a closing clip whose first placement was
        definitively rejected may be retried smaller. */
    method OpenClip(intent: Intent, lots: int, ts: int) returns (placed: bool, retryable: bool)
      requires Sound() && Trusted() && Tally() && lots > 0 && intent.action != 0
      modifies `own, `pending, `sink, `totA, `totB, `log, `parked, `clip, `closed
      modifies `opens, `base
      modifies broker, desk`committed
      modifies recovery`retireQ, recovery`debts, recovery`unverified
      modifies recovery`impaired, recovery`nextRetryAt, recovery`retryGap, recovery`stalls
      ensures Sound() && Tally() && Steady(old(Snapshot()), Snapshot()) && opens == old(opens) + 1
      ensures |log| > |old(log)| && log[|old(log)|] == Opened(old(recovery.suspect), old(AwaitingTaker(now)))
      ensures retryable <==> intent.isClose && FirstRefused()
      ensures retryable ==> !placed && Trusted() && NotMoved() && own == old(own)
      ensures clip.Some? ==> placed && OpenedAs(clip.value, intent, lots)
      ensures BookedAlike()
    {
      hide Overdue, Core, Covered, CleanWork, PairMove, HedgeLots, Later, Steady, Snapshot;
      BeginClip();
      SteadyNow();
      label A:
      ghost var s1 := Snapshot();
      var mode := ClipExecMode(cfg, intent);
      if mode == ExecTaker {
        placed, retryable := OpenTakerOnlyClip(intent, lots);
      } else {
        placed, retryable := RestClip(intent, lots, ts, mode);
      }
      LogGrows@A();
      SteadyTrans(old(Snapshot()), s1, Snapshot());
    }

    /** The first request was for a passive order, and it was definitively rejected. */
    twostate predicate FirstRefused()
      reads broker
    {
      && |broker.rpcs| > |old(broker.rpcs)| && broker.rpcs[|old(broker.rpcs)|].MakerRpc?
      && broker.rpcs[|old(broker.rpcs)|].outcome == Refused
    }

    twostate lemma RpcsGrow()
      requires Steady(old(Snapshot()), Snapshot())
      ensures old(broker.rpcs) <= broker.rpcs
    {
    }

    /** A clip in hand as its open left it: of the wanted direction, size and shape, with nothing
        moved, parked or exceeded since. */
    ghost predicate OpenedAs(c: Clip, intent: Intent, lots: int)
      reads this
    {
      && c.target == lots && c.dir == intent.action && c.intent == intent
      && c.mode == ClipExecMode(cfg, intent) != ExecTaker && c.makerID == NoId
      && base.a == totA && base.b == totB && Clean()
    }

    /** The resting shapes: the clip's orders are placed at the touch. */
    method RestClip(intent: Intent, lots: int, ts: int, mode: ExecMode) returns (placed: bool, retryable: bool)
      requires Sound() && Trusted() && lots > 0 && intent.action != 0
      requires recovery.retireQ == [] && base.a == totA && base.b == totB && Clean()
      requires mode == ClipExecMode(cfg, intent) != ExecTaker
      modifies `own, `pending, `sink, `totA, `totB, `log, `parked, `clip, `closed
      modifies broker
      modifies recovery`retireQ, recovery`debts, recovery`unverified
      modifies recovery`impaired, recovery`nextRetryAt, recovery`retryGap, recovery`stalls
      ensures Sound() && Steady(old(Snapshot()), Snapshot()) && placed == clip.Some?
      ensures retryable <==> intent.isClose && FirstRefused()
      ensures retryable ==> !placed && Trusted() && NotMoved() && own == old(own)
      ensures placed ==> OpenedAs(clip.value, intent, lots)
      ensures |closed| == |old(closed)| + if placed then 0 else 1
      ensures Booked(closed) == Booked(old(closed))
    {
      hide Trusted, Overdue, Core, Covered, ClipShape, CleanWork, PairMove, HedgeLots, Later, Steady, Snapshot;
      var dir := intent.action;
      var priceA := desk.Touch(LegA, dir > 0);
      var priceB := desk.Touch(LegB, dir < 0);
      var legA, legB := LegOrder(NoId, priceA, dir > 0), LegOrder(NoId, priceB, dir < 0);
      var deadline := if cfg.fillTimeout > 0 then Some(ts + cfg.fillTimeout) else None;
      var c := Clip(dir, intent, lots, legA, legB, NoId, 0, mode, deadline);
      var err;
      if mode == ExecDualPassive {
        placed, err := RestBoth(c);
      } else {
        err := RestOne(c, if mode == ExecSoloMakerLegB then LegB else LegA);
        placed := err == None;
      }
      retryable := err.Some? && intent.isClose && !err.value;
    }

    /** The single-passive shapes: one leg rests, the other is crossed when it fills. */
    method RestOne(c: Clip, leg: Leg) returns (err: Option<bool>)
      requires Fresh(c) && (leg == LegB ==> Ratio(cfg) == 1) && (c.mode == ExecSoloMaker || Ratio(cfg) == 1)
      modifies `own, `sink, `log, `clip, `closed
      modifies broker`makerIds, broker`rpcs, broker`issued, broker`refusals, recovery`unverified
      ensures Sound() && Steady(old(Snapshot()), Snapshot())
      ensures if err.Some?
              then
                && DroppedAtOnce(c) && own == old(own)
                && (!err.value ==> recovery.unverified == old(recovery.unverified))
              else
                && clip.Some? && clip.value == Repegged(c, leg, LegOf(clip.value, leg))
                && LegOf(clip.value, leg).id != NoId && closed == old(closed)
      ensures FirstRefused() <==> err == Some(false)
      ensures Booked(closed) == Booked(old(closed))
      ensures err == Some(false) ==> Trusted()
    {
      hide Overdue, Core, Covered, ClipShape, CleanWork, PairMove, HedgeLots, Later, Steady, Snapshot;
      HedgeSplit(cfg, c.target, 0);
      var lo;
      ghost var ans;
      if leg == LegB {
        lo, err, ans := PlaceLeg(c.legB, LegB, HedgeLots(cfg, LegB, c.target));
      } else {
        lo, err, ans := PlaceLeg(c.legA, LegA, c.target);
      }
      SteadyNow();
      if err.Some? {
        RefuseClip(c, old(Snapshot()));
        return;
      }
      CoveredUpdate(old(own), {}, lo.id, own[lo.id]);
      var c' := if leg == LegB then c.(legB := lo) else c.(legA := lo);
      assert {} + {lo.id} == {lo.id};
      CoveredWiden(own, {lo.id}, Legs(c'));
      StartClip(c');
    }

    /** The open ended with nothing placed. */
    twostate predicate DroppedAtOnce(c: Clip)
      reads this, recovery
    {
      clip == None && NotMoved() && closed == old(closed) + [EndOf(false, c.legA.isBid, c.target)]
    }

    ghost method RefuseClip(c: Clip, s0: Snap)
      requires Core() && clip == None && Steady(s0, Snapshot()) && c.target > 0
      requires base.a == totA && base.b == totB
      modifies `closed
      ensures Core() && Steady(s0, Snapshot()) && DroppedAtOnce(c)
      ensures Booked(closed) == Booked(old(closed))
    {
      hide Core, PairMove, Steady, Snapshot;
      HedgeMove(cfg, c.legA.isBid, 0);
      HedgeSplit(cfg, 0, 0);
      CloseMark(c.legA.isBid, c.target, false, 0, s0);
    }

    /** The clip under construction: nothing rests, and it is filled in by its placements. */
    ghost predicate Fresh(c: Clip)
      reads this, recovery, broker
    {
      && Sound() && Trusted() && recovery.retireQ == [] && Clean() && base.a == totA && base.b == totB
      && c.target > 0 && c.dir != 0 && c.makerID == NoId && c.makerFilled == 0
      && c.legA.id == NoId && c.legB.id == NoId && c.legA.isBid == (c.dir > 0) && c.legB.isBid == (c.dir < 0)
    }

    /** The clip's orders rest: from here on it is worked. */
    method StartClip(c: Clip)
      requires Core() && !recovery.halted && clip == None && totB + Ratio(cfg) * totA == drift
      requires recovery.retireQ == [] && base.a == totA && base.b == totB
      requires c.target > 0 && c.dir != 0 && c.makerID == NoId && c.makerFilled == 0
      requires c.legA.isBid == (c.dir > 0) && c.legB.isBid == (c.dir < 0)
      requires JustPlaced(own, c.legA, LegA, c.target) && JustPlaced(own, c.legB, LegB, c.target)
      requires (c.legB.id != NoId ==> Ratio(cfg) == 1) && (c.mode == ExecSoloMaker || Ratio(cfg) == 1)
      requires Covered(own, Legs(c))
      modifies `clip
      ensures Sound() && clip == Some(c) && Snapshot() == old(Snapshot())
    {
      hide Core, Covered, ClipShape, CleanWork, JustPlaced;
      ClipStarts(Ratio(cfg), c, own);
      SetClip(c);
    }

    /** The dual-passive shape: `err` is LegA's. With LegB refused, LegA is pulled and what it
        caught matched. */
    method RestBoth(c: Clip) returns (placed: bool, err: Option<bool>)
      requires Fresh(c) && Ratio(cfg) == 1
      modifies `own, `pending, `sink, `totA, `totB, `log, `parked, `clip, `closed
      modifies broker
      modifies recovery`retireQ, recovery`debts, recovery`unverified
      modifies recovery`impaired, recovery`nextRetryAt, recovery`retryGap, recovery`stalls
      ensures Sound() && Steady(old(Snapshot()), Snapshot())
      ensures err.Some? ==>
                && !placed && DroppedAtOnce(c) && own == old(own) && pending == old(pending)
                && recovery.impaired == old(recovery.impaired)
                && (!err.value ==> recovery.unverified == old(recovery.unverified))
      ensures if placed then BothRest(c) && closed == old(closed) && NotMoved() && Clean()
              else clip == None && |closed| == |old(closed)| + 1
      ensures FirstRefused() <==> err == Some(false)
      ensures Booked(closed) == Booked(old(closed))
      ensures err == Some(false) ==> Trusted()
    {
      hide Overdue, Core, Covered, ClipShape, CleanWork, PairMove, HedgeLots, Later, Steady, Snapshot, JustPlaced;
      hide MakersKept, EndOf;
      var legA, errA, _ := PlaceLeg(c.legA, LegA, c.target);
      SteadyNow();
      err := errA;
      if errA.Some? {
        RefuseClip(c, old(Snapshot()));
        return false, errA;
      }
      CoveredUpdate(old(own), {}, legA.id, own[legA.id]);
      assert {} + {legA.id} == {legA.id};
      label A:
      ghost var s1 := Snapshot();
      placed := RestSecond(c, legA);
      RpcsGrow@A();
      SteadyTrans(old(Snapshot()), s1, Snapshot());
    }

    /** Both of the clip's orders rest, under ids of their own. */
    ghost predicate BothRest(c: Clip)
      reads `clip, `own
    {
      && clip.Some? && clip.value == c.(legA := clip.value.legA, legB := clip.value.legB)
      && var a, b := clip.value.legA.id, clip.value.legB.id;
         && a != b && a in own && own[a].Live() && own[a].leg == LegA && own[a].placed == c.target
         && b in own && own[b].Live() && own[b].leg == LegB && own[b].placed == c.target
    }

    /** LegA rests already: rests LegB beside it, or pulls LegA again. */
    method RestSecond(c: Clip, legA: LegOrder) returns (placed: bool)
      requires Core() && !recovery.halted && clip == None && totB + Ratio(cfg) * totA == drift
      requires recovery.retireQ == [] && base.a == totA && base.b == totB && Ratio(cfg) == 1
      requires c.target > 0 && c.dir != 0 && c.makerID == NoId && c.makerFilled == 0
      requires c.legB.id == NoId && c.legA.isBid == (c.dir > 0) && c.legB.isBid == (c.dir < 0)
      requires legA.id in own && own[legA.id] == NewMaker(LegA, legA.isBid, legA.price, c.target)
      requires legA.isBid == c.legA.isBid && Covered(own, {legA.id})
      modifies `own, `pending, `sink, `totA, `totB, `log, `parked, `clip, `closed
      modifies broker
      modifies recovery`retireQ, recovery`debts, recovery`unverified
      modifies recovery`impaired, recovery`nextRetryAt, recovery`retryGap, recovery`stalls
      ensures Sound() && Steady(old(Snapshot()), Snapshot())
      ensures if placed then BothRest(c) && closed == old(closed) && NotMoved() && parked == old(parked)
              else clip == None && |closed| == |old(closed)| + 1
      ensures Booked(closed) == Booked(old(closed))
    {
      hide Core, Covered, ClipShape, CleanWork, PairMove, HedgeLots, Later, Steady, Snapshot, MakersKept, EndOf;
      var legB, err, _ := PlaceLeg(c.legB, LegB, c.target);
      SteadyNow();
      if err.Some? {
        ghost var s2 := Snapshot();
        var _ := Unwind(legA, c);
        SteadyTrans(old(Snapshot()), s2, Snapshot());
        return false;
      }
      CoveredUpdate(old(own), {legA.id}, legB.id, own[legB.id]);
      PlacedTwice(old(own), legA, legB, c.target);
      assert {legA.id} + {legB.id} == Legs(c.(legA := legA, legB := legB));
      StartClip(c.(legA := legA, legB := legB));
      placed := true;
    }

    lemma PlacedTwice(own1: Own, legA: LegOrder, legB: LegOrder, lots: int)
      requires legA.id in own1 && own1[legA.id] == NewMaker(LegA, legA.isBid, legA.price, lots)
      requires legB.id !in own1 && own == own1[legB.id := NewMaker(LegB, legB.isBid, legB.price, lots)]
      ensures JustPlaced(own, legA, LegA, lots) && JustPlaced(own, legB, LegB, lots)
    {
    }

    /** Pulls the lone LegA order of a clip whose LegB was refused; the lots it caught are matched
        on LegB, and the clip ends level at them. */
    method Unwind(legA: LegOrder, c: Clip) returns (gap: nat)
      requires Core() && !recovery.halted && clip == None && totB + Ratio(cfg) * totA == drift
      requires recovery.retireQ == [] && base.a == totA && base.b == totB
      requires Covered(own, {legA.id}) && legA.isBid == c.legA.isBid
      requires legA.id in own && own[legA.id] == NewMaker(LegA, legA.isBid, legA.price, c.target)
      modifies `own, `pending, `sink, `totA, `totB, `log, `parked, `closed
      modifies broker`rpcs, broker`issued, broker`answers, broker`refusals
      modifies recovery`retireQ, recovery`debts, recovery`unverified
      modifies recovery`impaired, recovery`nextRetryAt, recovery`retryGap, recovery`stalls
      ensures Sound() && Steady(old(Snapshot()), Snapshot())
      ensures closed == old(closed) + [EndOf(false, c.legA.isBid, c.target)]
      ensures 0 <= gap <= c.target
      ensures PairMove(Ratio(cfg), c.legA.isBid, totA - old(totA), totB - old(totB), gap)
      ensures Booked(closed) == Booked(old(closed))
    {
      hide Core, Covered, PairMove, HedgeLots, Later, Steady, Snapshot, MakersKept, EndOf;
      gap := RetireOrder(legA.id);
      CoveredUpdate(old(own), {legA.id}, legA.id, own[legA.id]);
      assert {legA.id} - {legA.id} == {};
      SteadyNow();
      ghost var own1, s1 := own, Snapshot();
      HedgeMove(cfg, legA.isBid, gap);
      HedgeSplit(cfg, 0, 0);
      if gap > 0 {
        HedgeLotsPositive(cfg, LegB, gap);
        TakerRetry(LegB, !legA.isBid, HedgeLots(cfg, LegB, gap));
        CoveredFrame(own1, own, {});
        SteadyTrans(old(Snapshot()), s1, Snapshot());
        SteadyNow();
      }
      PairShift(Ratio(cfg), legA.isBid, gap, old(totA), old(totB), totA, totB);
      CloseMark(c.legA.isBid, c.target, false, gap, old(Snapshot()));
    }

    /** Crosses both legs at once and commits. The two first requests are independent; whichever
        failed is chased alone, and shrunk only when its sibling or a close makes it owed. */
    method OpenTakerOnlyClip(intent: Intent, lots: int) returns (placed: bool, retryable: bool)
      requires Sound() && clip == None && lots > 0 && base.a == totA && base.b == totB
      modifies `own, `pending, `sink, `totA, `totB, `log, `closed
      modifies broker`rpcs, broker`issued, broker`refusals, desk`committed
      modifies recovery`debts, recovery`unverified, recovery`impaired
      modifies recovery`nextRetryAt, recovery`retryGap, recovery`stalls
      ensures Sound() && placed && !retryable && Steady(old(Snapshot()), Snapshot())
      ensures if recovery.halted then NotMoved()
              else PairMove(Ratio(cfg), intent.action > 0, totA - old(totA), totB - old(totB), lots)
      ensures closed == old(closed) + [EndOf(!recovery.halted, intent.action > 0, lots)]
      ensures desk.committed == old(desk.committed) + if recovery.halted then [] else [intent.(lots := lots)]
      ensures !FirstRefused()
      ensures BookedAlike()
    {
      hide Core, Covered, PairMove, HedgeLots, Later, Steady, Snapshot, MakersKept, EndOf;
      placed, retryable := true, false;
      var buyA := intent.action > 0;
      LaterRefl(Snapshot());
      HedgeMove(cfg, buyA, 0);
      HedgeSplit(cfg, 0, 0);
      if recovery.halted {
        CloseMark(buyA, lots, false, 0, Snapshot());
        return;
      }
      HedgeLotsPositive(cfg, LegB, lots);
      HedgeMove(cfg, buyA, lots);
      CrossBoth(buyA, lots, HedgeLots(cfg, LegB, lots), intent.isClose);
      CoveredFrame(old(own), own, {});
      SteadyNow();
      PairShift(Ratio(cfg), buyA, lots, old(totA), old(totB), totA, totB);
      CloseMark(buyA, lots, true, lots, old(Snapshot()));
      desk.Commit(intent.(lots := lots));
    }

    /** Both legs' market orders: raced once, then the failures chased. */
    method CrossBoth(buyA: bool, lots: int, lotsB: int, isClose: bool)
      requires Core() && !recovery.halted && lots > 0 && lotsB > 0
      modifies `own, `pending, `sink, `totA, `totB, `log
      modifies broker`rpcs, broker`issued, broker`refusals
      modifies recovery`debts, recovery`unverified, recovery`impaired
      modifies recovery`nextRetryAt, recovery`retryGap, recovery`stalls
      ensures Core() && MakersKept(old(own), own) && Steady(old(Snapshot()), Snapshot())
      ensures totA == old(totA) + Signed(buyA, lots) && totB == old(totB) + Signed(!buyA, lotsB)
      ensures SameClip()
      ensures !FirstRefused()
    {
      hide Signed, Core, MakersKept, Later, Undisturbed, Steady, Snapshot;
      var okA, okB, _, _ := RaceBoth(buyA, lots, lotsB);
      var plain := !okA && !okB && !isClose;
      ghost var own2, s2 := own, Snapshot();
      if !okA {
        ChaseLeg(LegA, buyA, lots, plain);
        MakersKeptTrans(old(own), own2, own);
        UndisturbedTrans(old(Snapshot()), s2, Snapshot());
      }
      ghost var own3, s3 := own, Snapshot();
      if !okB {
        ChaseLeg(LegB, !buyA, lotsB, plain);
        MakersKeptTrans(old(own), own3, own);
        UndisturbedTrans(old(Snapshot()), s3, Snapshot());
      }
      ChasedNow();
    }

    twostate lemma ChasedNow()
      requires Undisturbed(old(Snapshot()), Snapshot()) && recovery.retireQ == old(recovery.retireQ)
      requires broker.refusals == old(broker.refusals) ==> recovery.debts == old(recovery.debts)
      ensures Steady(old(Snapshot()), Snapshot())
    {
      Chased(old(Snapshot()), Snapshot());
    }

    /** The first request of each leg, sent together and booked one after the other. */
    method RaceBoth(buyA: bool, lots: int, lotsB: int)
      returns (okA: bool, okB: bool, ghost a: Outcome, ghost b: Outcome)
      requires Core() && !recovery.halted && lots > 0 && lotsB > 0
      modifies `own, `pending, `sink, `totA, `totB, `log
      modifies broker`rpcs, broker`issued, broker`refusals, recovery`unverified
      ensures Core() && MakersKept(old(own), own) && Undisturbed(old(Snapshot()), Snapshot())
      ensures totA == old(totA) + (if okA then Signed(buyA, lots) else 0)
      ensures totB == old(totB) + (if okB then Signed(!buyA, lotsB) else 0)
      ensures broker.rpcs == old(broker.rpcs) + [TakerRpc(LegA, buyA, lots, a), TakerRpc(LegB, !buyA, lotsB, b)]
      ensures broker.refusals == old(broker.refusals) + (if okA then 0 else 1) + (if okB then 0 else 1)
      ensures SameClip()
    {
      hide Signed, Core, MakersKept, Undisturbed, Snapshot;
      Snapped();
      ghost var s0 := Snapshot();
      var ansA := PlaceTakerRPC(LegA, buyA, lots);
      ghost var s1 := Snapshot();
      var ansB := PlaceTakerRPC(LegB, !buyA, lotsB);
      UndisturbedTrans(s0, s1, Snapshot());
      assert broker.issued[|s0.issued|..] ==
             (if ansA.Accepted? then [ansA.id] else []) + (if ansB.Accepted? then [ansB.id] else []);
      okA := CommitTakerPlacement(LegA, buyA, lots, ansA, s0);
      ghost var own1 := own;
      okB := CommitTakerPlacement(LegB, !buyA, lotsB, ansB, s0);
      MakersKeptTrans(old(own), own1, own);
      a, b := OutcomeOf(ansA), OutcomeOf(ansB);
    }

    /** The second and later attempts for a leg whose raced request failed. */
    method ChaseLeg(leg: Leg, buy: bool, lots: int, plain: bool)
      requires Core() && !recovery.halted && lots > 0
      modifies `own, `pending, `sink, `totA, `totB, `log
      modifies broker`rpcs, broker`issued, broker`refusals
      modifies recovery`debts, recovery`unverified, recovery`impaired
      modifies recovery`nextRetryAt, recovery`retryGap, recovery`stalls
      ensures Core() && MakersKept(old(own), own) && Undisturbed(old(Snapshot()), Snapshot())
      ensures Moved(leg, Signed(buy, lots)) && broker.refusals >= old(broker.refusals)
      ensures recovery.halted == old(recovery.halted)
      ensures exists tried ::
                && broker.rpcs == old(broker.rpcs) + tried && Chase(leg, buy, lots, tried)
                && recovery.debts == old(recovery.debts) + Owed(leg, buy, lots - TakenLots(tried))
      ensures SameClip()
    {
      hide Core, MakersKept, Undisturbed, Chase, TakenLots, SomeUnknown;
      ghost var tried;
      if plain {
        EmptyChase(leg, buy, lots);
        tried := TakerRetryPlain(leg, buy, lots, 1, lots, []);
        assert [] + tried == tried;
      } else {
        tried := TakerRetryFrom(leg, buy, lots, 1);
      }
      UndisturbedMeans(old(Snapshot()), Snapshot());
    }

    /** Gates an open on the rate limiter and, for a rejected close, retries it smaller. */
    method TryOpenClip(intent: Intent, ts: int)
      requires Sound() && Trusted() && Tally() && intent.action != 0
      modifies `own, `pending, `sink, `totA, `totB, `log, `parked, `clip, `closed
      modifies `opens, `base
      modifies broker, desk`committed
      modifies recovery`retireQ, recovery`debts, recovery`unverified
      modifies recovery`impaired, recovery`nextRetryAt, recovery`retryGap, recovery`stalls
      ensures Sound() && Tally() && Steady(old(Snapshot()), Snapshot()) && opens >= old(opens)
      ensures opens == old(opens) ==>
                && clip == None && SameBase() && NotMoved() && parked == old(parked)
                && closed == old(closed) && desk.committed == old(desk.committed)
      ensures opens > old(opens) ==>
                |log| > |old(log)| && log[|old(log)|] == Opened(old(recovery.suspect), old(AwaitingTaker(now)))
      ensures clip.Some? ==> opens > old(opens) && OpenedAs(clip.value, intent, clip.value.target)
      ensures var asked := if intent.lots > 0 then intent.lots else cfg.orderVol;
              && (clip.Some? ==> clip.value.target == asked || LotFloor(cfg) <= clip.value.target < asked)
              && (!intent.isClose ==> opens <= old(opens) + 1 && (clip.Some? ==> clip.value.target == asked))
      ensures BookedAlike()
    {
      hide Overdue, Core, Covered, ClipShape, CleanWork, Later, Steady, Snapshot, ClipExecMode;
      var lots := if intent.lots > 0 then intent.lots else cfg.orderVol;
      LaterRefl(Snapshot());
      SteadyNow();
      if lots <= 0 {
        return;
      }
      ghost var asked := lots;
      var floor := LotFloor(cfg);
      while true
        invariant Sound() && Trusted() && Tally() && Steady(old(Snapshot()), Snapshot()) && opens >= old(opens)
        invariant NotMoved() && old(log) <= log && BookedAlike()
        invariant if opens == old(opens)
                  then
                    && SameBase() && log == old(log) && closed == old(closed) && parked == old(parked)
                    && desk.committed == old(desk.committed)
                  else |log| > |old(log)| && log[|old(log)|] == Opened(old(recovery.suspect), old(AwaitingTaker(now)))
        invariant opens == old(opens) ==> recovery.suspect == old(recovery.suspect) && own == old(own) &&
                                          pending == old(pending)
        invariant 0 < lots && (lots == asked || floor <= lots < asked)
        invariant !intent.isClose ==> opens == old(opens) && lots == asked
        decreases lots
      {
        var allowed := desk.Allow();
        if !allowed {
          return;
        }
        label L:
        ghost var s0 := Snapshot();
        var placed, retryable := OpenClip(intent, lots, ts);
        LogGrows@L();
        SteadyTrans(old(Snapshot()), s0, Snapshot());
        if placed || !retryable || cfg.rejectRetryLotStep <= 0 {
          return;
        }
        var next := lots - cfg.rejectRetryLotStep;
        if next < floor {
          return;
        }
        lots := next;
      }
    }

    /** No clip was opened: the last open's totals and counts stand. */
    twostate predicate SameBase()
      reads this
    {
      base == old(base)
    }

    /** The confirmation watchdog as a handler step. */
    method WatchTakers()
      requires Inv()
      modifies `own, `pending, `sink, `totA, `totB, `log
      modifies broker`rpcs, broker`issued, broker`answers, broker`refusals
      modifies recovery`debts, recovery`unverified, recovery`impaired
      modifies recovery`nextRetryAt, recovery`retryGap, recovery`stalls, recovery`takerDeadStreak
      ensures Inv() && Later(old(Snapshot()), Snapshot()) && (!recovery.halted ==> NotMoved())
      ensures !recovery.halted && !recovery.unverified ==>
                EachWatched(cfg, old(own), old(pending), own, pending, now)
      ensures SameClip()
    {
      hide Core, MakersKept, Covered, ClipShape, CleanWork, Later, Snapshot, EachWatched;
      CheckPendingTakers(now);
      CoveredFrame(old(own), own, ClipIds(clip));
      LaterNow();
      if clip.Some? && !recovery.halted {
        ClipFrame(Ratio(cfg), clip.value, old(own), own, totA - base.a, totB - base.b);
      }
    }

    /** Keeps a working clip while its direction and its shape are still wanted. */
    method ManageWorkingClip() returns (ghost booked: bool, ghost x: int)
      requires Inv() && !recovery.halted && clip.Some?
      modifies `own, `pending, `sink, `totA, `totB, `log, `parked, `clip, `closed
      modifies broker`rpcs, broker`issued, broker`answers, broker`refusals, desk`committed
      modifies recovery`retireQ, recovery`debts, recovery`unverified
      modifies recovery`impaired, recovery`nextRetryAt, recovery`retryGap, recovery`stalls
      ensures Inv() && Steady(old(Snapshot()), Snapshot())
      ensures if clip.Some? then Untroubled() else Disposed(old(clip).value, booked, x)
    {
      hide Sound, Later, Steady, Snapshot, PairMove;
      LaterRefl(Snapshot());
      booked, x := false, 0;
      var intent := desk.Peek();
      if intent.action == clip.value.dir && ClipExecMode(cfg, intent) == clip.value.mode {
        return;
      }
      booked, x := ResolveClip();
      SteadyNow();
    }

    /** Nothing was sent, booked or moved. */
    twostate predicate Untroubled()
      reads this, recovery, broker, desk
    {
      && Snapshot() == old(Snapshot()) && clip == old(clip) && NotMoved()
      && closed == old(closed) && desk.committed == old(desk.committed) && parked == old(parked)
      && broker.rpcs == old(broker.rpcs)
    }

    /** What an event may do to the clip: leave it or a re-pegged one at work, end it on record, or
        open one, which only a trusted bar does. */
    twostate predicate ClipStep(bar: bool)
      reads this, recovery, broker, desk
    {
      && opens >= old(opens)
      && (opens > old(opens) ==>
            bar && old(clip) == None && !old(recovery.halted) && !old(recovery.impaired) && !old(recovery.Suspended()))
      && (opens == old(opens) ==>
            && SameBase() && (old(clip) == None ==> parked == old(parked))
            && (if old(clip).Some? && clip == None
                then Closes(old(clip).value) && (!old(recovery.impaired) ==> EndsHere(closed[|old(closed)|]))
                else closed == old(closed) && desk.committed == old(desk.committed)))
      && (clip.Some? ==>
            if old(clip).Some? then SameTerms(old(clip).value, clip.value)
            else opens > old(opens) && clip.value.makerID == NoId && Clean() && base.a == totA && base.b == totB)
    }

    twostate lemma StillStep()
      requires StillWorking() && opens == old(opens) && SameBase()
      ensures ClipStep(false)
    {
    }

    /** The clip is what it was, and nothing was booked or parked. */
    twostate predicate StillWorking()
      reads this, desk
    {
      clip == old(clip) && closed == old(closed) && desk.committed == old(desk.committed) && parked == old(parked)
    }

    twostate lemma CancelledStep()
      requires clip == None && opens == old(opens) && SameBase()
      requires if old(clip).Some? then Ended(old(clip).value, false) else StillWorking()
      ensures ClipStep(false)
    {
    }

    /** Each intent booked with the decider is a clip that ended booked, and the other way round. */
    twostate predicate BookedAlike()
      reads this, desk
    {
      |desk.committed| - |old(desk.committed)| == Booked(closed) - Booked(old(closed))
    }

    twostate lemma StepBooks(bar: bool)
      requires ClipStep(bar) && opens == old(opens)
      ensures BookedAlike()
    {
      if old(clip).Some? && clip == None {
        assert closed == old(closed) + [closed[|old(closed)|]];
        BookedAppend(old(closed), closed[|old(closed)|]);
      }
    }

    /** The recorded moves are how far the legs are from where the clip's open found them. */
    ghost predicate EndsHere(k: Close)
      reads `totA, `totB, `base
    {
      k.dA == totA - base.a && k.dB == totB - base.b
    }

    /** A clip's direction, size, shape and intent never change. */
    predicate SameTerms(c: Clip, c': Clip) {
      && c'.dir == c.dir && c'.target == c.target && c'.mode == c.mode && c'.intent == c.intent
      && c'.legA.isBid == c.legA.isBid && c'.legB.isBid == c.legB.isBid
    }

    /** The first half of a bar or tick: obligations are serviced, then takers looked at. */
    method TendObligations()
      requires Inv()
      modifies `own, `pending, `sink, `totA, `totB, `log, `parked, `clip, `closed
      modifies broker`rpcs, broker`issued, broker`answers, broker`refusals, desk`committed
      modifies recovery`retireQ, recovery`debts, recovery`unverified, recovery`takerDeadStreak
      modifies recovery`impaired, recovery`nextRetryAt, recovery`retryGap, recovery`stalls
      ensures Inv() && Tended(cfg, old(Snapshot()), Snapshot(), now) && ClipStep(false)
      ensures recovery.halted == old(recovery.halted) && (recovery.halted ==> broker.rpcs == old(broker.rpcs))
      ensures old(recovery.unverified) ==> recovery.unverified
      ensures old(recovery.impaired) && !recovery.halted ==> recovery.impaired || recovery.unverified
      ensures old(recovery.impaired) && !recovery.halted ==> clip == None
      ensures !old(recovery.impaired) || recovery.halted ==> clip == old(clip)
    {
      hide EachWatched, Sound, Later, Serviced, Aged, Paced, Tended, NextGap, Snapshot, PassOK, EndsAs, ClipStep;
      ghost var s0 := Snapshot();
      ghost var _, _ := ServiceImpaired();
      ghost var s1 := Snapshot();
      ServicedNow();
      Snapped();
      label A:
      WatchTakers();
      LaterNow@A();
      Snapped();
      TendedWatch(cfg, s0, s1, Snapshot(), now);
      PulledStep();
    }

    /** OnState: one signal bar. A clip opens only from a trusted, idle state. */
    method OnState(ts: int)
      requires Inv()
      modifies `now, `own, `pending, `sink, `totA, `totB, `log, `parked, `clip, `closed
      modifies `opens, `base
      modifies broker, desk`committed
      modifies recovery`retireQ, recovery`debts, recovery`unverified, recovery`takerDeadStreak
      modifies recovery`impaired, recovery`nextRetryAt, recovery`retryGap, recovery`stalls
      ensures Inv() && ClipStep(true) && now == Max(old(now), ts)
      ensures recovery.halted ==> Untroubled()
      ensures !recovery.halted ==> Tended(cfg, old(Snapshot()), Snapshot(), now)
      ensures recovery.halted == old(recovery.halted)
      ensures BookedAlike()
    {
      hide Sound, Later, Steady, Tended, Snapshot;
      AdvanceNow(ts);
      if recovery.halted {
        return;
      }
      ghost var s0 := Snapshot();
      TendObligations();
      label B:
      ghost var s2 := Snapshot();
      StepBooks(false);
      DecideBar(ts);
      SteadyNow@B();
      TendedSteady(cfg, s0, s2, Snapshot(), now);
    }

    /** The deciding half of OnState: keeps, disposes of or opens a clip. */
    method DecideBar(ts: int)
      requires Inv() && !recovery.halted
      modifies `own, `pending, `sink, `totA, `totB, `log, `parked, `clip, `closed
      modifies `opens, `base
      modifies broker, desk`committed
      modifies recovery`retireQ, recovery`debts, recovery`unverified
      modifies recovery`impaired, recovery`nextRetryAt, recovery`retryGap, recovery`stalls
      ensures Inv() && Steady(old(Snapshot()), Snapshot()) && ClipStep(true)
      ensures old(clip).Some? && clip == None ==> closed != [] && EndsHere(closed[|closed| - 1])
      ensures BookedAlike()
    {
      hide LotFloor, Sound, Later, Steady, Overdue, Snapshot, PairMove;
      LaterRefl(Snapshot());
      if recovery.impaired {
        return;
      }
      if clip.Some? {
        ghost var booked, x := ManageWorkingClip();
        StepBooks(true);
        return;
      }
      if recovery.Suspended() || AwaitingTaker(now) {
        return;
      }
      var quotable := desk.CanQuote();
      if !quotable {
        return;
      }
      var intent := desk.Peek();
      if intent.action == 0 {
        return;
      }
      TryOpenClip(intent, ts);
      SteadyNow();
    }

    // ----- keeping and pulling the passives ---------------------------------------------

    /** PullIfUnwanted: the rest of a clip whose direction is no longer wanted is cancelled, level
        at what it filled, and never booked. */
    method PullIfUnwanted()
      requires Inv()
      modifies `own, `pending, `sink, `totA, `totB, `log, `parked, `clip, `closed
      modifies broker`rpcs, broker`issued, broker`answers, broker`refusals
      modifies recovery`retireQ, recovery`debts, recovery`unverified
      modifies recovery`impaired, recovery`nextRetryAt, recovery`retryGap, recovery`stalls
      ensures Inv() && Steady(old(Snapshot()), Snapshot())
      ensures if clip == old(clip) then Untroubled() else clip == None && Ended(old(clip).value, false)
      ensures ClipStep(false)
    {
      hide Sound, Later, Steady, Snapshot, PairMove;
      LaterRefl(Snapshot());
      if clip == None {
        return;
      }
      var elapsed := desk.MinRestElapsed();
      if !elapsed {
        return;
      }
      var intent := desk.Peek();
      if intent.action == clip.value.dir {
        return;
      }
      ghost var x := CancelClip();
      SteadyNow();
    }

    /** OnBook: a fresh touch on one leg. Never places a taker beyond settling, and only
        replaces a passive whose predecessor is confirmed dead and unfilled. */
    method OnBook(leg: Leg, ts: int)
      requires Inv()
      modifies `now, `own, `pending, `sink, `totA, `totB, `log, `parked, `clip, `closed
      modifies broker, desk`committed
      modifies recovery`retireQ, recovery`debts, recovery`unverified
      modifies recovery`impaired, recovery`nextRetryAt, recovery`retryGap, recovery`stalls
      ensures Inv() && Aged(old(Snapshot()), Snapshot()) && Paced(old(Snapshot()), Snapshot(), now)
      ensures ClipStep(false) && recovery.halted == old(recovery.halted) && (recovery.halted ==> Untroubled())
    {
      hide Sound, Later, Steady, Serviced, Aged, Paced, NextGap, Snapshot, PassOK, PairMove;
      AdvanceNow(ts);
      StoodStill();
      var changed := desk.Update(leg);
      if !changed {
        return;
      }
      ghost var s0 := Snapshot();
      ghost var _, _ := ServiceImpaired();
      ServicedNow();
      PulledStep();
      ghost var s1 := Snapshot();
      label A:
      ghost var _, _, _ := MaybeRepeg(leg);
      SteadyNow@A();
      ServicedSteady(s0, s1, Snapshot(), now);
    }

    /** Re-pegs the passive on one leg, before the first fill only. `moved` tells whether it was
        due; nothing happens otherwise. */
    method MaybeRepeg(leg: Leg) returns (ghost moved: bool, ghost gap: nat, ghost x: int)
      requires Inv() && (clip.Some? ==> !recovery.impaired)
      modifies `own, `pending, `sink, `totA, `totB, `log, `parked, `clip, `closed
      modifies broker, desk`committed
      modifies recovery`retireQ, recovery`debts, recovery`unverified
      modifies recovery`impaired, recovery`nextRetryAt, recovery`retryGap, recovery`stalls
      ensures Inv() && Steady(old(Snapshot()), Snapshot()) && ClipStep(false)
      ensures if !moved then Untroubled()
              else
                && !recovery.halted && old(clip).Some? && old(clip).value.makerID == NoId && !cfg.disableRepeg
                && old(clip).value.mode != (if leg == LegA then ExecSoloMakerLegB else ExecSoloMaker)
                && RepegStep(old(clip).value, leg, gap, x)
    {
      hide Sound, PairMove, Later, Steady, Snapshot;
      LaterRefl(Snapshot());
      moved, gap, x := false, 0, 0;
      if recovery.halted || clip == None || clip.value.makerID != NoId || cfg.disableRepeg {
        return;
      }
      if (leg == LegA && clip.value.mode == ExecSoloMakerLegB) || (leg == LegB && clip.value.mode == ExecSoloMaker) {
        return;
      }
      var due := desk.RepegDue(leg);
      if !due {
        return;
      }
      ModeFits();
      gap, x := RepegLeg(leg);
      moved := true;
    }

    lemma ModeFits()
      requires Sound() && clip.Some?
      ensures clip.value.mode == ExecSoloMaker || Ratio(cfg) == 1
    {
    }

    /** What moving the passive on `leg` to the touch comes to. It caught `gap` lots, and the clip
        is completed; or it stays unanswered, and nothing else is done; or it is dead, and a new
        order takes its place; or that is refused, and the clip is pulled. */
    twostate predicate RepegStep(c: Clip, leg: Leg, gap: nat, x: int)
      reads this, recovery, broker, desk
    {
      var id := LegOf(c, leg).id;
      && PairMove(Ratio(cfg), c.legA.isBid, totA - old(totA), totB - old(totB), x)
      && if gap > 0 then Ended(c, true) && x >= gap && x >= c.target
         else if clip == None then Ended(c, false) && x >= 0
         else
           && x == 0 && closed == old(closed) && desk.committed == old(desk.committed)
           && if clip == Some(c) then recovery.impaired && broker.rpcs == old(broker.rpcs)
              else
                var lo := LegOf(clip.value, leg);
                && clip == Some(Repegged(c, leg, lo)) && lo.isBid == LegOf(c, leg).isBid
                && lo.id != NoId && lo.id !in old(own) && lo.id in own
                && own[lo.id] == NewMaker(leg, lo.isBid, lo.price, c.target)
                && (id in old(own) ==> id in own && own[id].final >= 0)
    }

    /** Moves one passive to the touch: cancel, and re-place only what is known dead. */
    method RepegLeg(leg: Leg) returns (ghost gap: nat, ghost x: int)
      requires Sound() && !recovery.halted && !recovery.impaired && clip.Some? && clip.value.makerID == NoId
      requires leg == LegB ==> Ratio(cfg) == 1
      modifies `own, `pending, `sink, `totA, `totB, `log, `parked, `clip, `closed
      modifies broker, desk`committed
      modifies recovery`retireQ, recovery`debts, recovery`unverified
      modifies recovery`impaired, recovery`nextRetryAt, recovery`retryGap, recovery`stalls
      ensures Sound() && Steady(old(Snapshot()), Snapshot()) && RepegStep(old(clip).value, leg, gap, x)
    {
      hide Core, Covered, ClipShape, CleanWork, PairMove, HedgeLots, Later, Steady, Snapshot, Room, Untouched, Repegged;
      hide EndOf, Sound, Legs, LegRests;
      var c := clip.value;
      var caught := RetirePeg(leg);
      gap, x := caught, 0;
      SteadyNow();
      HedgeMove(cfg, c.legA.isBid, 0);
      HedgeSplit(cfg, 0, 0);
      NoEmptyId();
      LegsDiffer(Ratio(cfg), c, own);
      ghost var s1 := Snapshot();
      if caught > 0 {
        x := RepegFold(leg, caught, old(totA), old(totB));
        SteadyTrans(old(Snapshot()), s1, Snapshot());
        return;
      }
      if recovery.impaired {
        return;
      }
      x := RepegPlace(leg);
      SteadyTrans(old(Snapshot()), s1, Snapshot());
    }

    /** Retires the out-quoted passive; with no answer the engine is impaired. */
    method RetirePeg(leg: Leg) returns (gap: nat)
      requires Sound() && !recovery.halted && !recovery.impaired && clip.Some? && clip.value.makerID == NoId
      requires leg == LegB ==> Ratio(cfg) == 1
      modifies `own, `sink, `totA, `totB, `parked, broker`answers, broker`refusals
      modifies recovery`retireQ, recovery`impaired, recovery`nextRetryAt, recovery`retryGap, recovery`stalls
      ensures Core() && Steady(old(Snapshot()), Snapshot()) && !recovery.halted
      ensures Moved(leg, Signed(LegOf(clip.value, leg).isBid, gap)) && (gap > 0 ==> LegOf(clip.value, leg).id != NoId)
      ensures ClipShape(Ratio(cfg), clip.value, own) && clip.value.makerFilled == 0
      ensures Covered(own, Legs(clip.value)) && Covered(own, Legs(clip.value) - {LegOf(clip.value, leg).id})
      ensures totB + Ratio(cfg) * totA == drift || gap > 0
      ensures old(totB) + Ratio(cfg) * old(totA) == drift
      ensures var id := LegOf(clip.value, leg).id;
              id in old(own) ==>
                && id in own && own[id].maker && !own[id].Live()
                && (!recovery.impaired || gap > 0 ==> own[id].final >= 0)
      ensures old(own).Keys <= own.Keys && (recovery.impaired && gap == 0 ==> Sound())
      ensures Clean() ==>
                && recovery.retireQ == []
                && PairMove(Ratio(cfg), clip.value.legA.isBid, old(totA) - base.a, old(totB) - base.b, 0)
                && Untouched(own, LegOf(clip.value, Other(leg)).id)
                && Room(own, LegOf(clip.value, leg).id) == 0 && gap <= clip.value.target
                && Room(own, LegOf(clip.value, Other(leg)).id) <= clip.value.target
    {
      hide Core, Covered, ClipShape, CleanWork, PairMove, Later, Steady, Snapshot, Room, Untouched;
      var c := clip.value;
      NoEmptyId();
      NothingOwed();
      LegsDiffer(Ratio(cfg), c, own);
      NotParked(LegOf(c, leg).id);
      gap := RetireOrder(if leg == LegA then c.legA.id else c.legB.id);
      SteadyNow();
      StillStuck();
      RepegRetire(Ratio(cfg), c, old(own), own, leg);
    }

    /** Neither impaired nor halted, the engine owes nothing. */
    lemma NothingOwed()
      requires Core() && !recovery.impaired && !recovery.halted
      ensures recovery.retireQ == [] && recovery.debts == []
    {
      QueuesStuck(own, recovery.retireQ, recovery.debts, recovery.impaired || recovery.halted);
    }

    lemma StillStuck()
      requires Core() && !recovery.halted
      ensures recovery.retireQ != [] ==> recovery.impaired
    {
      QueuesStuck(own, recovery.retireQ, recovery.debts, recovery.impaired || recovery.halted);
    }

    /** The out-quoted passive had filled: it is the maker, and the clip completes. */
    method RepegFold(leg: Leg, gap: int, ghost a0: int, ghost b0: int) returns (ghost x: int)
      requires Core() && !recovery.halted && gap > 0 && (leg == LegB ==> Ratio(cfg) == 1)
      requires clip.Some? && ClipShape(Ratio(cfg), clip.value, own) && Covered(own, Legs(clip.value))
      requires clip.value.makerID == NoId && LegOf(clip.value, leg).id != NoId
      requires totA == a0 + (if leg == LegA then Signed(clip.value.legA.isBid, gap) else 0)
      requires totB == b0 + (if leg == LegB then Signed(clip.value.legB.isBid, gap) else 0)
      requires b0 + Ratio(cfg) * a0 == drift
      requires Clean() ==>
                 && recovery.retireQ == [] && PairMove(Ratio(cfg), clip.value.legA.isBid, a0 - base.a, b0 - base.b, 0)
                 && gap + Room(own, LegOf(clip.value, leg).id) <= clip.value.target
                 && Room(own, LegOf(clip.value, Other(leg)).id) <= clip.value.target
      modifies `own, `pending, `sink, `totA, `totB, `log, `parked, `clip, `closed
      modifies broker`rpcs, broker`issued, broker`answers, broker`refusals, desk`committed
      modifies recovery`retireQ, recovery`debts, recovery`unverified
      modifies recovery`impaired, recovery`nextRetryAt, recovery`retryGap, recovery`stalls
      ensures Sound() && Steady(old(Snapshot()), Snapshot()) && Ended(old(clip.value), true)
      ensures PairMove(Ratio(cfg), old(clip.value).legA.isBid, totA - a0, totB - b0, x)
      ensures x >= gap && x >= old(clip.value).target
    {
      hide Core, Covered, ClipShape, CleanWork, PairMove, HedgeLots, Later, Steady, Snapshot, Room, EndOf;
      var c := clip.value;
      HedgeMove(cfg, c.legA.isBid, 0);
      HedgeSplit(cfg, 0, 0);
      HedgeSplit(cfg, gap, gap);
      PairMoveUnique(Ratio(cfg), c.legA.isBid, a0 - base.a, b0 - base.b, 0, 0, 0);
      Designate(Ratio(cfg), c, own, leg, gap);
      SetClip(c.(makerID := LegOf(c, leg).id, makerFilled := gap));
      if leg == LegA {
        x := CompletePair(gap, 0, a0, b0);
      } else {
        x := CompletePair(0, gap, a0, b0);
      }
    }

    /** The old passive is confirmed dead and unfilled: a new one takes its place, or the clip
        is abandoned. */
    method RepegPlace(leg: Leg) returns (ghost x: int)
      requires Core() && !recovery.halted && !recovery.impaired && totB + Ratio(cfg) * totA == drift
      requires clip.Some? && ClipShape(Ratio(cfg), clip.value, own) && clip.value.makerID == NoId &&
          clip.value.makerFilled == 0
      requires Covered(own, Legs(clip.value)) && Covered(own, Legs(clip.value) - {LegOf(clip.value, leg).id})
      requires (leg == LegB ==> Ratio(cfg) == 1)
      requires Clean() ==>
                 && recovery.retireQ == []
                 && PairMove(Ratio(cfg), clip.value.legA.isBid, totA - base.a, totB - base.b, 0)
                 && Untouched(own, LegOf(clip.value, Other(leg)).id)
                 && Room(own, LegOf(clip.value, leg).id) == 0
                 && Room(own, LegOf(clip.value, Other(leg)).id) <= clip.value.target
      modifies `own, `pending, `sink, `totA, `totB, `log, `parked, `clip, `closed
      modifies broker
      modifies recovery`retireQ, recovery`debts, recovery`unverified
      modifies recovery`impaired, recovery`nextRetryAt, recovery`retryGap, recovery`stalls
      ensures Sound() && Steady(old(Snapshot()), Snapshot())
      ensures PairMove(Ratio(cfg), old(clip.value).legA.isBid, totA - old(totA), totB - old(totB), x)
      ensures var c := old(clip.value);
              if clip == None then Ended(c, false) && x >= 0
              else
                var lo := LegOf(clip.value, leg);
                && x == 0 && closed == old(closed)
                && clip == Some(Repegged(c, leg, lo)) && lo.isBid == LegOf(c, leg).isBid
                && lo.id != NoId && lo.id !in old(own)
                && own == old(own)[lo.id := NewMaker(leg, lo.isBid, lo.price, c.target)]
    {
      hide Core, Covered, ClipShape, CleanWork, PairMove, HedgeLots, Later;
      hide Steady, Snapshot, Room, Untouched, EndOf, Sound;
      var c := clip.value;
      NoEmptyId();
      LegsDiffer(Ratio(cfg), c, own);
      TargetPositive(Ratio(cfg), c, own);
      HedgeMove(cfg, c.legA.isBid, 0);
      HedgeSplit(cfg, 0, 0);
      var price := desk.Touch(leg, LegOf(c, leg).isBid);
      var lo, err, _ := PlaceLeg(LegOf(c, leg).(price := price), leg, c.target);
      SteadyNow();
      if err.Some? {
        ghost var s1 := Snapshot();
        x := TearDown();
        SteadyTrans(old(Snapshot()), s1, Snapshot());
        SteadyNow();
        return;
      }
      x := 0;
      RestPegged(leg, lo, old(own));
    }

    /** The new order takes the old one's place in the clip. */
    method RestPegged(leg: Leg, lo: LegOrder, ghost own0: Own)
      requires Core() && !recovery.halted && totB + Ratio(cfg) * totA == drift
      requires clip.Some? && ClipShape(Ratio(cfg), clip.value, own0) && clip.value.makerID == NoId
      requires Covered(own0, Legs(clip.value) - {LegOf(clip.value, leg).id}) && NoId !in own0
      requires (leg == LegB ==> Ratio(cfg) == 1) && lo.id != NoId && lo.id !in own0
      requires lo.isBid == LegOf(clip.value, leg).isBid
      requires own == own0[lo.id := NewMaker(leg, lo.isBid, lo.price, clip.value.target)]
      requires Clean() ==>
                 && recovery.retireQ == []
                 && PairMove(Ratio(cfg), clip.value.legA.isBid, totA - base.a, totB - base.b, 0)
                 && Untouched(own0, LegOf(clip.value, Other(leg)).id)
      modifies `clip
      ensures Sound() && clip == Some(Repegged(old(clip.value), leg, lo)) && Snapshot() == old(Snapshot())
    {
      hide Core, Covered, ClipShape, CleanWork, PairMove, Snapshot, Untouched;
      RepegKeepsClip(Ratio(cfg), clip.value, own0, own, leg, lo, totA - base.a, totB - base.b);
      SetClip(Repegged(clip.value, leg, lo));
    }

    /** Pulls the working clip when either leg's book has gone stale. */
    method CheckStaleBooks() returns (ghost booked: bool, ghost x: int)
      requires Inv()
      modifies `own, `pending, `sink, `totA, `totB, `log, `parked, `clip, `closed
      modifies broker`rpcs, broker`issued, broker`answers, broker`refusals, desk`committed
      modifies recovery`retireQ, recovery`debts, recovery`unverified
      modifies recovery`impaired, recovery`nextRetryAt, recovery`retryGap, recovery`stalls
      ensures Inv() && Steady(old(Snapshot()), Snapshot())
      ensures if old(clip).Some? && clip == None then Disposed(old(clip).value, booked, x) else Untroubled()
    {
      hide Sound, Later, Steady, Snapshot, PairMove;
      LaterRefl(Snapshot());
      booked, x := false, 0;
      if !cfg.pullOnStaleBook || clip == None || recovery.halted {
        return;
      }
      var stale := desk.BookStale();
      if stale {
        booked, x := ResolveClip();
        SteadyNow();
      }
    }

    /** The optional fill-timeout backstop. */
    method CheckTimeout(ts: int) returns (ghost booked: bool, ghost x: int)
      requires Inv()
      modifies `own, `pending, `sink, `totA, `totB, `log, `parked, `clip, `closed
      modifies broker`rpcs, broker`issued, broker`answers, broker`refusals, desk`committed
      modifies recovery`retireQ, recovery`debts, recovery`unverified
      modifies recovery`impaired, recovery`nextRetryAt, recovery`retryGap, recovery`stalls
      ensures Inv() && Steady(old(Snapshot()), Snapshot())
      ensures if old(clip).Some? && clip == None then Disposed(old(clip).value, booked, x) else Untroubled()
      ensures clip.Some? ==> clip.value.deadline == None || ts < clip.value.deadline.value
    {
      hide Sound, Later, Steady, Snapshot, PairMove;
      LaterRefl(Snapshot());
      booked, x := false, 0;
      if clip == None || clip.value.deadline == None || ts < clip.value.deadline.value {
        return;
      }
      booked, x := ResolveClip();
      SteadyNow();
    }

    /** OnTick: the time-based backstops. */
    method OnTick(ts: int)
      requires Inv()
      modifies `now, `own, `pending, `sink, `totA, `totB, `log, `parked, `clip, `closed
      modifies broker`rpcs, broker`issued, broker`answers, broker`refusals, desk`committed
      modifies recovery`retireQ, recovery`debts, recovery`unverified, recovery`takerDeadStreak
      modifies recovery`impaired, recovery`nextRetryAt, recovery`retryGap, recovery`stalls
      ensures Inv() && Tended(cfg, old(Snapshot()), Snapshot(), now) && ClipStep(false) && now == Max(old(now), ts)
      ensures recovery.halted == old(recovery.halted) && (recovery.halted ==> broker.rpcs == old(broker.rpcs))
      ensures clip.Some? && clip.value.deadline.Some? ==> ts < clip.value.deadline.value
    {
      hide Sound, Later, Steady, Tended, Snapshot, PairMove;
      AdvanceNow(ts);
      ghost var s0 := Snapshot();
      TendObligations();
      label A:
      ghost var s2 := Snapshot();
      Backstops(ts);
      SteadyNow@A();
      TendedSteady(cfg, s0, s2, Snapshot(), now);
    }

    /** The clip's half of a tick. */
    method Backstops(ts: int)
      requires Inv()
      modifies `own, `pending, `sink, `totA, `totB, `log, `parked, `clip, `closed
      modifies broker`rpcs, broker`issued, broker`answers, broker`refusals, desk`committed
      modifies recovery`retireQ, recovery`debts, recovery`unverified
      modifies recovery`impaired, recovery`nextRetryAt, recovery`retryGap, recovery`stalls
      ensures Inv() && Steady(old(Snapshot()), Snapshot()) && ClipStep(false)
      ensures clip.Some? && clip.value.deadline.Some? ==> ts < clip.value.deadline.value
      ensures old(clip).Some? && clip == None ==> closed != [] && EndsHere(closed[|closed| - 1])
    {
      hide Sound, Later, Steady, Snapshot, PairMove;
      ghost var _, _ := CheckStaleBooks();
      ghost var s1 := Snapshot();
      ghost var _, _ := CheckTimeout(ts);
      SteadyTrans(old(Snapshot()), s1, Snapshot());
    }

    // ----- order status, halt, reconcile ------------------------------------------------

    /** OnOrderStatus: a terminal report of the order stream. A live taker is confirmed, a parked
        passive is settled if the broker answers, and a dead leg pulls the working clip; nothing
        happens otherwise. */
    method OnOrderStatus(id: OrderId, dead: bool) returns (ghost settled: bool)
      requires Inv()
      modifies `own, `pending, `sink, `totA, `totB, `log, `parked, `clip, `closed
      modifies broker`rpcs, broker`issued, broker`answers, broker`refusals
      modifies recovery`retireQ, recovery`debts, recovery`unverified, recovery`takerDeadStreak
      modifies recovery`impaired, recovery`nextRetryAt, recovery`retryGap, recovery`stalls
      ensures Inv() && Later(old(Snapshot()), Snapshot()) && ClipStep(false)
      ensures
        if dead && id in old(own) && !old(own)[id].maker && old(own)[id].final < 0 && !old(own)[id].Confirmed()
        then StillWorking() && (!recovery.halted ==> NotMoved()) && DeadConfirmed(id, settled)
        else if dead && id in old(own) && old(own)[id].deferred && !recovery.halted
        then StillWorking() && (if settled then id in own && own[id].final >= 0
                                else own == old(own) && NotMoved() && broker.refusals != old(broker.refusals))
        else if dead && old(clip).Some? && old(clip).value.Owns(id) &&
                (id !in old(own) || (old(own)[id].maker && old(own)[id].final < 0))
        then Ended(old(clip).value, false)
        else Untroubled()
    {
      hide Sound, Later, Steady, Snapshot, PairMove, DeadConfirmed;
      LaterRefl(Snapshot());
      settled := false;
      if !dead {
        return;
      }
      if id in own {
        SoundShape(id);
      }
      if id in own && !own[id].maker {
        if own[id].final < 0 && own[id].seen < own[id].placed {
          settled := DeadTaker(id);
        }
        return;
      }
      if id in own && own[id].maker && own[id].deferred && !recovery.halted {
        settled := AnswerParked(id);
        return;
      }
      if clip == None || !clip.value.Owns(id) || (id in own && own[id].final >= 0) {
        return;
      }
      ghost var x := CancelClip();
      SteadyNow();
    }

    lemma SoundShape(id: OrderId)
      requires Sound() && id in own
      ensures own[id].deferred ==> own[id].maker && own[id].final < 0
    {
      OrderShape(id);
    }

    method DeadTaker(id: OrderId) returns (ghost settled: bool)
      requires Inv() && id in own && !own[id].maker && own[id].final < 0
      modifies `own, `pending, `sink, `totA, `totB, `log
      modifies broker`rpcs, broker`issued, broker`answers, broker`refusals
      modifies recovery`debts, recovery`unverified, recovery`impaired
      modifies recovery`nextRetryAt, recovery`retryGap, recovery`stalls, recovery`takerDeadStreak
      ensures Inv() && Later(old(Snapshot()), Snapshot()) && DeadConfirmed(id, settled)
      ensures !recovery.halted ==> NotMoved()
    {
      hide Core, MakersKept, Covered, ClipShape, CleanWork, Later, Snapshot, DeadConfirmed;
      settled := ConfirmDeadTaker(id);
      CoveredFrame(old(own), own, ClipIds(clip));
      LaterNow();
      if clip.Some? && !recovery.halted {
        ClipFrame(Ratio(cfg), clip.value, old(own), own, totA - base.a, totB - base.b);
      }
    }

    /** The order stream answers for a parked retire: it is settled without waiting. */
    method AnswerParked(id: OrderId) returns (resolved: bool)
      requires Inv() && id in own && own[id].maker && own[id].deferred && !recovery.halted
      modifies `own, `pending, `sink, `totA, `totB, `log
      modifies broker`rpcs, broker`issued, broker`answers, broker`refusals
      modifies recovery`debts, recovery`unverified, recovery`impaired
      modifies recovery`nextRetryAt, recovery`retryGap, recovery`stalls
      ensures Inv() && Later(old(Snapshot()), Snapshot())
      ensures if resolved then id in own && own[id].final >= 0
              else own == old(own) && NotMoved() && broker.refusals != old(broker.refusals)
    {
      hide Core, MakersKept, Covered, ClipShape, CleanWork, Later, Steady, Snapshot, PairMove, Queued;
      OrderShape(id);
      NothingQueued();
      var answered, x := TryDeferredRetire(id);
      resolved := answered;
      SteadyNow();
      CoveredRetire(old(own), own, ClipIds(clip), id);
      PairShift(Ratio(cfg), true, x, old(totA), old(totB), totA, totB);
      if clip.Some? {
        ClipResolved(Ratio(cfg), clip.value, old(own), own, id);
      }
    }

    /** Halt: the kill-switch. The clip is pulled, and nothing is placed doing so. */
    method Halt()
      requires Inv()
      modifies `own, `pending, `sink, `totA, `totB, `log, `parked, `clip, `closed
      modifies broker`rpcs, broker`issued, broker`answers, broker`refusals
      modifies recovery`retireQ, recovery`debts, recovery`unverified
      modifies recovery`impaired, recovery`nextRetryAt, recovery`retryGap, recovery`stalls, recovery`halted
      ensures Inv() && recovery.halted && clip == None && broker.rpcs == old(broker.rpcs)
      ensures Aged(old(Snapshot()), Snapshot()) && Paced(old(Snapshot()), Snapshot(), now)
      ensures if old(clip).Some? then Ended(old(clip).value, false) else StillWorking() && NotMoved()
    {
      hide Sound, Later, Steady, Aged, Paced, Snapshot, PairMove;
      var tripped := Trip();
      if !tripped {
        return;
      }
      label A:
      ghost var s1 := Snapshot();
      ghost var x := CancelClip();
      SteadyNow@A();
      LaterAged(s1, Snapshot());
      AgedTrans(old(Snapshot()), s1, Snapshot());
      PacedLater(old(Snapshot()), s1, Snapshot(), now);
    }

    method Trip() returns (tripped: bool)
      requires Inv()
      modifies recovery`halted
      ensures Sound() && recovery.halted && tripped == !old(recovery.halted)
      ensures Aged(old(Snapshot()), Snapshot()) && Paced(old(Snapshot()), Snapshot(), now)
    {
      hide TraceOK, PaceOK, RegistryOK, FeedOK, KnownOK, QueuesOK, Ledger.Tied, DebtSum, Covered;
      hide ClipShape, CleanWork, Aged;
      QueuesStuck(own, recovery.retireQ, recovery.debts, recovery.impaired || recovery.halted);
      ghost var s := Snapshot();
      tripped := recovery.Halt();
      Tripped(s, now);
    }

    /** Reconcile: compares the broker's positions with the decider's. Refused while halted,
        impaired or working; only an exact match lifts doubt, and no mismatch ever halts. */
    method Reconcile(legA: int, legB: int) returns (ghost pos: int)
      requires Inv()
      modifies `log, recovery`suspect, recovery`unverified, recovery`mismatchLogged
      ensures Inv() && Aged(old(Snapshot()), Snapshot()) && Paced(old(Snapshot()), Snapshot(), now)
      ensures if recovery.halted || clip.Some? || recovery.impaired
              then recovery.suspect == old(recovery.suspect) && recovery.unverified == old(recovery.unverified) &&
                  log == old(log)
              else if legA == pos && legB == -(pos * Ratio(cfg))
              then !recovery.Suspended() && log == old(log) + [CleanReconcile(pos, legA, legB)]
              else recovery.suspect && recovery.unverified == old(recovery.unverified) && log == old(log)
      ensures recovery.mismatchLogged && !old(recovery.mismatchLogged) ==> old(recovery.suspect)
      ensures recovery.halted == old(recovery.halted)
    {
      hide Inv, Aged, Paced, Snapshot;
      pos := 0;
      StoodStill();
      if recovery.halted || clip.Some? || recovery.impaired {
        return;
      }
      var position := desk.Position();
      pos := position;
      var wantB := -HedgeLots(cfg, LegB, position);
      if legA == position && legB == wantB {
        LiftDoubt(position);
      } else {
        RaiseDoubt();
      }
    }

    /** The broker holds exactly the position and its hedge: no doubt is left. */
    method LiftDoubt(position: int)
      requires Inv()
      modifies `log, recovery`suspect, recovery`unverified, recovery`mismatchLogged
      ensures Inv() && Aged(old(Snapshot()), Snapshot()) && Paced(old(Snapshot()), Snapshot(), now)
      ensures !recovery.suspect && !recovery.unverified && !(recovery.mismatchLogged && !old(recovery.mismatchLogged))
      ensures log == old(log) + [CleanReconcile(position, position, -(position * Ratio(cfg)))]
    {
      hide TraceOK, PaceOK, RegistryOK, FeedOK, KnownOK, QueuesOK, Ledger.Tied, DebtSum, Covered;
      hide ClipShape, CleanWork, Aged, Paced;
      TraceReconciles(Ratio(cfg), recovery.unverified, log, opens, closed, position);
      recovery.ResumeFromSuspect();
      recovery.ClearUnverified();
      log := log + [CleanReconcile(position, position, -(position * Ratio(cfg)))];
      Reconciled(old(Snapshot()), Snapshot(), now);
    }

    /** The broker and the decider disagree. */
    method RaiseDoubt()
      requires Inv()
      modifies recovery`suspect, recovery`mismatchLogged
      ensures Inv() && Snapshot() == old(Snapshot())
      ensures recovery.suspect && (recovery.mismatchLogged && !old(recovery.mismatchLogged) ==> old(recovery.suspect))
    {
      hide TraceOK, PaceOK, RegistryOK, FeedOK, KnownOK, QueuesOK, Ledger.Tied, DebtSum, Covered;
      hide ClipShape, CleanWork;
      var first := recovery.MarkSuspect();
      if !first {
        recovery.LogPersistentMismatch();
      }
    }

    // ----- whole runs -------------------------------------------------------------------

    /** One event through its handler. `over` is how far it pushed the pair: zero unless a taker
        filled beyond the count the broker had settled it at. */
    method Handle(ev: Event) returns (ghost over: int)
      requires Inv()
      modifies this, recovery, broker, desk`committed
      ensures Inv() && Aged(old(Snapshot()), Snapshot()) && Paced(old(Snapshot()), Snapshot(), now)
      ensures feed == old(feed) + Reports(ev)
      ensures over == OverfillOf(Ratio(cfg), old(own), ev) && drift == old(drift) + over
      ensures exceeded == old(exceeded) + if ev.Fill? && Exceeds(old(own), ev.id, ev.lots) then 1 else 0
      ensures ClipStep(ev.Bar?)
      ensures old(recovery.halted) || ev.Kill? ==> recovery.halted && broker.rpcs == old(broker.rpcs)
      ensures BookedAlike()
    {
      hide Sound, Later, Overfill, Aged, Paced, Tended, Snapshot, Exceeds, ClipStep;
      over := OverfillOf(Ratio(cfg), own, ev);
      match ev {
        case Fill(ts, id, lots, price) =>
          OnFill(ts, id, lots, price);
          LaterNow();
          LaterHandled();
          StepBooks(false);
        case BookUpdate(leg, ts) =>
          OnBook(leg, ts);
          StepBooks(false);
        case Bar(ts) =>
          OnState(ts);
          BarHandled();
        case Tick(ts) =>
          OnTick(ts);
          TickHandled();
          StepBooks(false);
        case _ =>
          HandleOrder(ev);
          StepBooks(false);
      }
    }

    /** The events that are about orders, positions and the kill-switch. */
    method HandleOrder(ev: Event)
      requires Inv() && !ev.Fill? && !ev.BookUpdate? && !ev.Bar? && !ev.Tick?
      modifies `own, `pending, `sink, `totA, `totB, `log, `parked, `clip, `closed
      modifies broker`rpcs, broker`issued, broker`answers, broker`refusals
      modifies recovery
      ensures Inv() && Aged(old(Snapshot()), Snapshot()) && Paced(old(Snapshot()), Snapshot(), now)
      ensures ClipStep(false)
      ensures old(recovery.halted) || ev.Kill? ==> recovery.halted && broker.rpcs == old(broker.rpcs)
    {
      hide Sound, Later, Steady, Aged, Paced, Snapshot, ClipStep, DeadConfirmed, PairMove;
      match ev {
        case StatusUpdate(id, dead) =>
          ghost var _ := OnOrderStatus(id, dead);
          LaterNow();
          LaterHandled();
        case PullCheck =>
          PullIfUnwanted();
          SteadyNow();
          LaterHandled();
        case CancelWorking =>
          ghost var _ := CancelClip();
          SteadyNow();
          LaterHandled();
          CancelledStep();
        case Positions(legA, legB) =>
          var _ := Reconcile(legA, legB);
          StillStep();
        case Kill =>
          Halt();
          CancelledStep();
      }
    }

    twostate lemma BarHandled()
      requires if recovery.halted then Snapshot() == old(Snapshot()) else Tended(cfg, old(Snapshot()), Snapshot(), now)
      ensures Aged(old(Snapshot()), Snapshot()) && Paced(old(Snapshot()), Snapshot(), now)
    {
      if recovery.halted {
        StoodStill();
      }
    }

    twostate lemma TickHandled()
      requires Tended(cfg, old(Snapshot()), Snapshot(), now)
      ensures Aged(old(Snapshot()), Snapshot()) && Paced(old(Snapshot()), Snapshot(), now)
    {
    }

    /** Any events in any order; `states` are what each of them met and the last one left. */
    method Run(events: seq<Event>) returns (ghost states: seq<Snap>)
      requires Inv()
      modifies this, recovery, broker, desk`committed
      ensures Inv() && Aged(old(Snapshot()), Snapshot())
      ensures |states| == |events| + 1 && states[0] == old(Snapshot()) && states[|events|] == Snapshot()
      ensures forall k :: 0 <= k < |events| ==> Aged(states[k], states[k + 1])
      ensures drift == old(drift) + Drifts(Ratio(cfg), states, events)
      ensures feed == old(feed) + AllReports(events)
      ensures BookedAlike()
    {
      hide Sound, Aged, Paced, Snapshot, OverfillOf, Reports, Drifts, AllReports, ClipStep;
      NothingRun(Ratio(cfg));
      states := [Snapshot()];
      StoodStill();
      assert events[..0] == [] && states[..0] == [];
      assert feed == feed + [];
      for i := 0 to |events|
        invariant Inv() && Aged(old(Snapshot()), Snapshot())
        invariant |states| == i + 1 && states[0] == old(Snapshot()) && states[i] == Snapshot()
        invariant forall k :: 0 <= k < i ==> Aged(states[k], states[k + 1])
        invariant drift == old(drift) + Drifts(Ratio(cfg), states[..i], events[..i])
        invariant feed == old(feed) + AllReports(events[..i]) && BookedAlike()
      {
        ghost var s := Snapshot();
        Snapped();
        ghost var over := Handle(events[i]);
        AgedTrans(old(Snapshot()), s, Snapshot());
        OneMoreEvent(Ratio(cfg), states[..i], events[..i], s, events[i]);
        assert events[..i + 1] == events[..i] + [events[i]] && states[..i] + [s] == states;
        states := states + [Snapshot()];
        assert states[..i + 1] == states[..i] + [s];
      }
      assert events[..|events|] == events;
      DriftsPrefix(Ratio(cfg), states, events);
    }

    /** Pairing: sink lots plus owed lots of LegB hedge those of LegA exactly when nothing was
        overfilled on balance, and are off by exactly the drift otherwise. */
    lemma Paired()
      requires Inv() && !recovery.halted
      ensures sink.net.lotsB + DebtSum(recovery.debts, LegB) ==
              drift - Ratio(cfg) * (sink.net.lotsA + DebtSum(recovery.debts, LegA))
      ensures sink.net.lotsB + DebtSum(recovery.debts, LegB) ==
              -(Ratio(cfg) * (sink.net.lotsA + DebtSum(recovery.debts, LegA))) <==>
                drift == 0
    {
    }

    /** Exactly-once inventory and exact cash of one own order, whatever order its fills, its
        acks and their duplicates arrived in: they are those of the stream's own reports since the
        order was registered, and its terminal count is one the broker gave. */
    lemma ExactlyOnce(id: OrderId)
      requires Inv() && id in own
      ensures id in sink.lines && ExactAccount(own[id], sink.lines[id], feed, id) && Known(id, own[id], broker.answers)
    {
      AcctAt(Ratio(cfg), own, sink.lines, pending, broker.makerIds, id);
    }

    /** The ledger's position is the sum of its order lines and of what was booked without an id. */
    lemma LedgerAddsUp()
      requires Inv()
      ensures sink.net == Plus(Total(sink.lines), sink.untracked)
    {
    }

    /** A parked order is queued exactly once, every queued order is a passive still parked or
        answered, debts are positive, and obligations keep the engine impaired or halted. */
    lemma ObligationsHeld(id: OrderId)
      requires Inv()
      ensures id in own && own[id].deferred ==> multiset(recovery.retireQ)[id] == 1
      ensures id in recovery.retireQ ==> id in own && own[id].maker && (own[id].deferred || own[id].final >= 0)
      ensures forall k :: 0 <= k < |recovery.debts| ==> recovery.debts[k].lots > 0
      ensures recovery.retireQ != [] || recovery.debts != [] ==> recovery.impaired || recovery.halted
    {
      QueuedIsMembership(recovery.retireQ, id);
      QueuedOnce(recovery.retireQ, id);
    }

    /** At a hedge ratio above one no passive order is ever on LegB, so no stray LegB fill can
        reach the branch that could not convert it. */
    lemma NoPassiveLegB(id: OrderId)
      requires Inv() && Ratio(cfg) > 1 && id in own && own[id].maker
      ensures own[id].leg == LegA
    {
      AcctAt(Ratio(cfg), own, sink.lines, pending, broker.makerIds, id);
    }

    /** A live passive that no queue holds belongs to the working clip. */
    lemma NoOrphans(id: OrderId)
      requires Inv() && id in own && own[id].maker && own[id].final < 0
      ensures id in recovery.retireQ || (clip.Some? && clip.value.Owns(id))
    {
      OrderShape(id);
      QueuedIsMembership(recovery.retireQ, id);
      if !own[id].deferred {
        MakerIsLeg(Ratio(cfg), clip.value, own);
      }
    }

    /** No overshoot of the clip in hand: while no retire was parked and no fill exceeded a reported
        count since its open, each leg has moved by exactly what the maker filled, short of the
        target. */
    lemma NoOvershoot()
      requires Inv() && clip.Some? && Clean()
      ensures 0 <= clip.value.makerFilled < clip.value.target
      ensures totA - base.a == Signed(clip.value.dir > 0, clip.value.makerFilled)
      ensures totB - base.b == Signed(clip.value.dir < 0, clip.value.makerFilled * Ratio(cfg))
    {
    }

    /** No overshoot of any clip so far: one that ended with honest acks moved each leg by exactly
        its target when booked, and level and by no more than it when not. Every open but the one
        in hand has its end on record. */
    lemma ClipsNeverOvershoot(i: nat)
      requires Inv() && i < |closed| && closed[i].parked == 0 && closed[i].excess == 0 && !closed[i].halted
      ensures var c := closed[i];
              exists x :: 0 <= x <= c.target && (c.committed ==> x == c.target) &&
                          c.dA == Signed(c.buyA, x) && c.dB == Signed(!c.buyA, x * Ratio(cfg))
      ensures Opens(log) == |closed| + if clip.Some? then 1 else 0
    {
      var c := closed[i];
      assert CloseOK(Ratio(cfg), c);
      var x := if c.committed then c.target else Signed(c.buyA, c.dA);
      assert 0 <= x <= c.target || c.committed;
    }

    /** Bounded pace: in an episode the retry gap is the base doubled once for each fruitless pass
        since the episode began or last made progress, up to the ceiling. */
    lemma BoundedPace()
      requires Inv() && recovery.impaired
      ensures recovery.retryGap == Min(PlaceBackoff(cfg) * Pow2(recovery.stalls), IMPAIRED_RETRY_MAX) <==>
                recovery.stalls > 0 || PlaceBackoff(cfg) <= IMPAIRED_RETRY_MAX
      ensures recovery.stalls == 0 ==> recovery.retryGap == PlaceBackoff(cfg)
    {
      StalledGapClosedForm(PlaceBackoff(cfg), IMPAIRED_RETRY_MAX, recovery.stalls);
    }

    lemma TraceHolds()
      requires Inv()
      ensures LogOK(Ratio(cfg), log) && ClosedOK(Ratio(cfg), closed)
      ensures Opens(log) == |closed| + if clip.Some? then 1 else 0
    {
    }

    /** Trusted opens of a run: at none was there a divergence or an overdue taker, and each comes
        after a clean reconcile when some doubt came before. */
    lemma OpensTrusted(i: nat, j: nat)
      requires Inv() && i < j < |log| && log[j].Opened? && (log[i].Untrackable? || log[i].Recovered?)
      ensures !log[j].suspect && !log[j].awaiting
      ensures exists k :: i < k < j && log[k].CleanReconcile? &&
                          log[k].legA == log[k].pos && log[k].legB == -(log[k].pos * Ratio(cfg))
      ensures recovery.unverified == NeedsReconcile(log)
    {
      TrustedOpens(Ratio(cfg), log, i, j);
    }
  }

  /** What an event adds to the fill stream. */
  function Reports(ev: Event): seq<Report> {
    if ev.Fill? then [Report(ev.id, ev.lots, ev.price)] else []
  }

  function AllReports(events: seq<Event>): seq<Report> {
    if events == [] then [] else AllReports(events[..|events| - 1]) + Reports(events[|events| - 1])
  }

  /** How far an event pushes the pair of an engine with that registry. */
  function OverfillOf(r: int, own: Own, ev: Event): int {
    if ev.Fill? then Overfill(r, own, ev.id, ev.lots) else 0
  }

  /** How far a run of events pushes the pair, event k meeting state k. */
  function Drifts(r: int, states: seq<Snap>, events: seq<Event>): int
    requires |states| >= |events|
  {
    if events == [] then 0
    else
      var n := |events| - 1;
      Drifts(r, states[..n], events[..n]) + OverfillOf(r, states[n].own, events[n])
  }

  lemma NothingRun(r: int)
    ensures Drifts(r, [], []) == 0 && AllReports([]) == []
  {
  }

  lemma OneMoreEvent(r: int, states: seq<Snap>, events: seq<Event>, s: Snap, ev: Event)
    requires |states| == |events|
    ensures Drifts(r, states + [s], events + [ev]) == Drifts(r, states, events) + OverfillOf(r, s.own, ev)
    ensures AllReports(events + [ev]) == AllReports(events) + Reports(ev)
  {
    assert (states + [s])[..|states|] == states && (events + [ev])[..|events|] == events;
  }

  lemma DriftsPrefix(r: int, states: seq<Snap>, events: seq<Event>)
    requires |states| == |events| + 1
    ensures Drifts(r, states, events) == Drifts(r, states[..|events|], events)
  {
    if events != [] {
      var n := |events| - 1;
      assert states[..|events|][..n] == states[..n];
    }
  }

  /** An order's account is what the stream reported since it was registered, capped at its size,
      plus what the broker's acks had credited ahead of it; its cash is at true fill prices for the
      one and at the credit price for the other. */
  ghost predicate ExactAccount(a: OrdAcct, h: Hist, feed: seq<Report>, id: OrderId) {
    && h.born <= |feed|
    && a.seen == Min(a.placed, Reported(feed, h.born, id))
    && a.credited == (if a.maker || a.final >= 0 then Max(a.seen, a.final) else a.placed)
    && 0 <= a.seen <= a.credited <= a.placed
    && h.lots == Signed(a.isBuy, a.credited)
    && h.cash == SignedCash(a.isBuy, ReportedCost(feed, h.born, id, a.placed) + Value(a.credited - a.seen, a.price))
  }

  /** Two runs whose streams reported the same about an order, in whatever order, and whose broker
      gave it the same terminal count, hold it with the same lots, and at the same cash unless more
      was reported than was placed. */
  lemma AnyOrderSameAccount(a: OrdAcct, h: Hist, feed: seq<Report>, a': OrdAcct, h': Hist, feed': seq<Report>,
      id: OrderId)
    requires ExactAccount(a, h, feed, id) && ExactAccount(a', h', feed', id)
    requires SameOrder(a, a') && a.final == a'.final
    requires multiset(feed[h.born..]) == multiset(feed'[h'.born..])
    ensures a.seen == a'.seen && a.credited == a'.credited && h.lots == h'.lots
    ensures Reported(feed, h.born, id) <= a.placed ==> h.cash == h'.cash
  {
    hide Value, Reported, ReportedCost, ReportedValue;
    ReportsInAnyOrder(feed[h.born..], feed'[h'.born..], id);
    ReportedSince(feed, h.born, id);
    ReportedSince(feed', h'.born, id);
    if Reported(feed, h.born, id) <= a.placed {
      NothingCapped(feed, h.born, id, a.placed);
      NothingCapped(feed', h'.born, id, a.placed);
    }
  }

  /** A run from construction. Unless halted, the pair is off by exactly what settled takers were
      shown filling past their counts; every own order is exact against the run's own fill events;
      every open was trusted and every clip that ended with honest acks landed where it should. */
  method Trade(cfg: Config, events: seq<Event>) returns (e: Engine, ghost states: seq<Snap>)
    ensures e.Inv() && LogOK(Ratio(cfg), e.log) && ClosedOK(Ratio(cfg), e.closed)
    ensures Opens(e.log) == |e.closed| + if e.clip.Some? then 1 else 0
    ensures |e.desk.committed| == Booked(e.closed)
    ensures |states| == |events| + 1 && forall k :: 0 <= k < |events| ==> Aged(states[k], states[k + 1])
    ensures !e.recovery.halted ==>
              e.sink.net.lotsB + DebtSum(e.recovery.debts, LegB) ==
              Drifts(Ratio(cfg), states, events) -
              Ratio(cfg) * (e.sink.net.lotsA + DebtSum(e.recovery.debts, LegA))
    ensures forall id :: id in e.own ==>
              id in e.sink.lines && ExactAccount(e.own[id], e.sink.lines[id], AllReports(events), id)
    ensures cfg.hedgeRatio > 1 && !cfg.soloMakerLeg && !cfg.takerOnly ==>
              e.recovery.halted && e.broker.rpcs == []
  {
    hide Engine.Sound, Engine.Snapshot, Aged, ExactAccount, AllReports, Drifts;
    var broker := new Broker();
    var desk := new Desk();
    e := new Engine(cfg, broker, desk);
    e.StartsSound();
    e.Snapped();
    states := e.Run(events);
    e.Snapped();
    if !e.recovery.halted {
      e.Paired();
    }
    e.TraceHolds();
    assert [] + AllReports(events) == AllReports(events);
    forall id | id in e.own
      ensures id in e.sink.lines && ExactAccount(e.own[id], e.sink.lines[id], AllReports(events), id)
    {
      e.ExactlyOnce(id);
    }
    HaltedStays(states[0], states[|events|]);
  }
}
