/**
 What the engine's steps, handlers and runs keep, as relations between two records of the engine
 and of what its environment was asked, with the laws that compose them.
 */
module EngineSteps {
  import opened Domain
  import opened OrderRegistry
  import opened RecoveryMachine
  import opened Trace
  import opened EngineState

  /** The part of the engine and of its environment's record that every step is judged by. */
  datatype Snap = Snap(
    rpcs: seq<Rpc>,
    issued: seq<OrderId>,
    answers: Answers,
    refusals: nat,
    own: Own,
    lines: Lines,
    pending: set<OrderId>,
    log: seq<Mark>,
    closed: seq<Close>,
    parked: nat,
    retireQ: seq<OrderId>,
    debts: seq<HedgeDebt>,
    halted: bool,
    unverified: bool,
    impaired: bool,
    nextRetryAt: int,
    retryGap: int,
    stalls: nat)

  /** An order lives on: its terms are fixed, what was seen of it never shrinks and its terminal
      count never changes. */
  predicate LivesOn(a: OrdAcct, a': OrdAcct) {
    SameOrder(a, a') && a.seen <= a'.seen && (a.final >= 0 ==> a'.final == a.final)
  }

  /** Every order lives on, and its line since the same birth, except a taker whose id the broker
      handed out again. */
  ghost predicate Kept(own: Own, lines: Lines, own': Own, lines': Lines, since: seq<OrderId>) {
    forall id :: id in own ==>
      && id in own'
      && ((LivesOn(own[id], own'[id]) && (id in lines ==> id in lines' && lines'[id].born == lines[id].born))
          || (!own[id].maker && !own'[id].maker && id in since))
  }

  lemma KeptTrans(own: Own, lines: Lines, own': Own, lines': Lines, since: seq<OrderId>, own'': Own, lines'': Lines,
      since': seq<OrderId>)
    requires Kept(own, lines, own', lines', since) && Kept(own', lines', own'', lines'', since')
    ensures Kept(own, lines, own'', lines'', since + since')
  {
  }

  /** One order's account and line change. */
  lemma KeptOne(own: Own, lines: Lines, id: OrderId, a: OrdAcct, h: Hist, since: seq<OrderId>)
    requires id in own ==>
               || (LivesOn(own[id], a) && (id in lines ==> h.born == lines[id].born))
               || (!own[id].maker && !a.maker && id in since)
    ensures Kept(own, lines, own[id := a], lines[id := h], since)
  {
  }

  /** What only ever grows. A retire is parked only when the broker left cancels unanswered. */
  ghost predicate Grown(s: Snap, t: Snap) {
    && s.rpcs <= t.rpcs && s.issued <= t.issued && s.answers <= t.answers
    && s.log <= t.log && s.closed <= t.closed
    && 0 <= t.parked - s.parked <= t.refusals - s.refusals
    && Kept(s.own, s.lines, t.own, t.lines, t.issued[|s.issued|..])
  }

  /** Within a handler a halted engine places nothing; doubt and impaired mode are not lifted, the
      pace of an episode does not change, and every obligation stays. */
  ghost predicate Later(s: Snap, t: Snap) {
    && Grown(s, t)
    && t.halted == s.halted && (s.halted ==> t.rpcs == s.rpcs)
    && (s.unverified ==> t.unverified)
    && (s.impaired ==> t.impaired && t.nextRetryAt == s.nextRetryAt && t.retryGap == s.retryGap && t.stalls == s.stalls)
    && s.retireQ <= t.retireQ && s.debts <= t.debts
    && t.parked - s.parked == |t.retireQ| - |s.retireQ|
  }

  /** No taker already on the books is touched, unless an id was reused. */
  ghost predicate Undisturbed(s: Snap, t: Snap) {
    Later(s, t) && (!t.unverified ==> TakersKept(s.own, s.pending, t.own, t.pending))
  }

  /** While the broker answers and accepts everything no new obligation appears. */
  ghost predicate Steady(s: Snap, t: Snap) {
    Undisturbed(s, t) && (t.refusals == s.refusals ==> t.retireQ == s.retireQ && t.debts == s.debts)
  }

  lemma LaterRefl(s: Snap)
    ensures Steady(s, s) && Undisturbed(s, s) && Later(s, s)
  {
    assert s.issued[|s.issued|..] == [];
  }

  lemma GrownTrans(s: Snap, t: Snap, u: Snap)
    requires Grown(s, t) && Grown(t, u)
    ensures Grown(s, u)
  {
    hide Kept;
    KeptTrans(s.own, s.lines, t.own, t.lines, t.issued[|s.issued|..], u.own, u.lines, u.issued[|t.issued|..]);
    assert t.issued[|s.issued|..] + u.issued[|t.issued|..] == u.issued[|s.issued|..];
  }

  lemma LaterTrans(s: Snap, t: Snap, u: Snap)
    requires Later(s, t) && Later(t, u)
    ensures Later(s, u)
    ensures Undisturbed(s, t) && Undisturbed(t, u) ==> Undisturbed(s, u)
    ensures Steady(s, t) && Steady(t, u) ==> Steady(s, u)
  {
    hide Grown, TakersKept;
    GrownTrans(s, t, u);
    GrownMeans(s, t);
    GrownMeans(t, u);
    if Undisturbed(s, t) && Undisturbed(t, u) && !u.unverified {
      TakersKeptTrans(s.own, s.pending, t.own, t.pending, u.own, u.pending);
    }
  }

  lemma GrownMeans(s: Snap, t: Snap)
    requires Grown(s, t)
    ensures s.refusals <= t.refusals && s.parked <= t.parked
  {
  }

  lemma UndisturbedTrans(s: Snap, t: Snap, u: Snap)
    requires Undisturbed(s, t) && Undisturbed(t, u)
    ensures Undisturbed(s, u)
  {
    hide Later, TakersKept;
    LaterTrans(s, t, u);
  }

  lemma SteadyTrans(s: Snap, t: Snap, u: Snap)
    requires Steady(s, t) && Steady(t, u)
    ensures Steady(s, u)
  {
    hide Later, TakersKept;
    LaterTrans(s, t, u);
  }

  /** The broker refused something on the way. */
  lemma SteadyRefused(s: Snap, t: Snap)
    requires Undisturbed(s, t) && s.refusals != t.refusals
    ensures Steady(s, t)
  {
  }

  lemma UndisturbedMeans(s: Snap, t: Snap)
    requires Undisturbed(s, t)
    ensures Later(s, t) && t.refusals >= s.refusals && s.debts <= t.debts && (s.unverified ==> t.unverified)
    ensures !t.unverified ==> TakersKept(s.own, s.pending, t.own, t.pending)
  {
  }

  /** A chase owes nothing unless something was refused, and it parks no retire. */
  lemma Chased(s: Snap, t: Snap)
    requires Undisturbed(s, t) && t.retireQ == s.retireQ && (t.refusals == s.refusals ==> t.debts == s.debts)
    ensures Steady(s, t)
  {
  }

  lemma SteadyMeans(s: Snap, t: Snap)
    requires Steady(s, t)
    ensures Later(s, t) && Undisturbed(s, t)
    ensures t.refusals == s.refusals ==> t.retireQ == s.retireQ && t.debts == s.debts && t.parked == s.parked
    ensures !t.unverified ==> TakersKept(s.own, s.pending, t.own, t.pending)
  {
  }

  lemma LaterMeans(s: Snap, t: Snap)
    requires Later(s, t)
    ensures t.halted == s.halted && (s.halted ==> t.rpcs == s.rpcs)
    ensures s.unverified ==> t.unverified
    ensures s.impaired ==>
              t.impaired && t.nextRetryAt == s.nextRetryAt && t.retryGap == s.retryGap && t.stalls == s.stalls
    ensures s.retireQ <= t.retireQ && s.debts <= t.debts && s.parked <= t.parked && s.refusals <= t.refusals
    ensures t.parked == s.parked ==> t.retireQ == s.retireQ
  {
  }

  /** Across handlers and whole runs: the kill-switch is never lifted and a halted engine places
      nothing; a parked retire leaves only with an answer, and an owed hedge only when placed. */
  ghost predicate Aged(s: Snap, t: Snap) {
    && Grown(s, t)
    && (s.halted ==> t.halted && t.rpcs == s.rpcs)
    && Answered(s.retireQ, t.retireQ, t.own)
    && DebtsHeld(s.debts, s.rpcs, t.debts, t.rpcs)
  }

  lemma LaterAged(s: Snap, t: Snap)
    requires Later(s, t)
    ensures Aged(s, t)
  {
    hide Kept;
    QueuedPrefix(s.retireQ, t.retireQ);
    assert t.debts == s.debts + t.debts[|s.debts|..];
    assert t.rpcs == s.rpcs + t.rpcs[|s.rpcs|..];
  }

  lemma AgedTrans(s: Snap, t: Snap, u: Snap)
    requires Aged(s, t) && Aged(t, u)
    ensures Aged(s, u)
  {
    AnsweredTrans(s, t, u);
    hide Kept, Answered, Queued;
    GrownTrans(s, t, u);
  }

  /** A terminal count is for good. */
  lemma AnsweredTrans(s: Snap, t: Snap, u: Snap)
    requires Grown(t, u) && Answered(s.retireQ, t.retireQ, t.own) && Answered(t.retireQ, u.retireQ, u.own)
    ensures Answered(s.retireQ, u.retireQ, u.own)
  {
  }

  /** What a round of servicing obligations keeps besides. */
  ghost predicate Serviced(s: Snap, t: Snap) {
    && Aged(s, t) && t.halted == s.halted
    && (s.unverified ==> t.unverified)
    && (!t.unverified ==> TakersKept(s.own, s.pending, t.own, t.pending))
  }

  lemma SteadyServiced(s: Snap, t: Snap)
    requires Steady(s, t)
    ensures Serviced(s, t)
  {
    LaterAged(s, t);
  }

  lemma ServicedTrans(s: Snap, t: Snap, u: Snap)
    requires Serviced(s, t) && Serviced(t, u)
    ensures Serviced(s, u)
  {
    hide Aged, TakersKept;
    AgedTrans(s, t, u);
    if !u.unverified {
      TakersKeptTrans(s.own, s.pending, t.own, t.pending, u.own, u.pending);
    }
  }

  /** The retire queue was filtered down to what is still unanswered. */
  lemma RetiresServiced(s: Snap, t: Snap, rem: seq<OrderId>)
    requires Steady(s, t) && t.retireQ == s.retireQ && Answered(s.retireQ, rem, t.own)
    ensures Serviced(s, t.(retireQ := rem))
  {
    hide Kept, TakersKept, Answered;
    LaterAged(s, t);
  }

  /** The debts were filtered down to what is still unplaced. */
  lemma DebtsServiced(s: Snap, t: Snap, attempts: seq<Rpc>)
    requires Undisturbed(s, t) && t.debts == s.debts && t.rpcs == s.rpcs + attempts && Asks(attempts, s.debts)
    ensures Serviced(s, t.(debts := Unpaid(s.debts, attempts)))
  {
    hide Kept, TakersKept, Answered;
    LaterAged(s, t);
    PassHolds(s.debts, attempts, s.rpcs);
  }

  /** A new pace, or the end of impaired mode. */
  lemma PaceServiced(s: Snap, t: Snap)
    requires s.log <= t.log && (s.unverified ==> t.unverified)
    requires t == s.(log := t.log, unverified := t.unverified, impaired := t.impaired, nextRetryAt := t.nextRetryAt,
                     retryGap := t.retryGap, stalls := t.stalls)
    ensures Serviced(s, t)
  {
    LaterRefl(s);
    LaterAged(s, s);
    assert t.issued[|s.issued|..] == [];
  }

  /** One look of the obligation loop at its queues: the retires it asked about, the debts as they
      stood at their turn, and the requests it placed for them. */
  datatype Pass = Pass(retires: seq<OrderId>, owed: seq<HedgeDebt>, attempts: seq<Rpc>)

  /** The pass asked for each owed hedge once and kept exactly the unplaced ones; it made progress
      when a retire or a debt left its queue, and otherwise left both queues as they were. */
  predicate PassOK(pass: Pass, progressed: bool, t: Snap) {
    && Asks(pass.attempts, pass.owed) && t.debts == Unpaid(pass.owed, pass.attempts)
    && |pass.attempts| <= |t.rpcs| && t.rpcs[|t.rpcs| - |pass.attempts|..] == pass.attempts
    && progressed == (|t.retireQ| < |pass.retires| || |t.debts| < |pass.owed|)
    && (!progressed ==> t.retireQ == pass.retires && t.debts == pass.owed)
  }

  /** Bounded pace over a handler: an episode ends only on the record; else it keeps its pace, or
      was serviced when due, and a fruitless service lost no obligation. */
  predicate Paced(s: Snap, t: Snap, now: int) {
    && s.log <= t.log
    && (s.impaired && Recovered !in t.log[|s.log|..] ==>
          && t.impaired
          && ((t.nextRetryAt == s.nextRetryAt && t.retryGap == s.retryGap && t.stalls == s.stalls)
              || (&& s.nextRetryAt <= now && t.nextRetryAt == now + t.retryGap
                  && (t.stalls == 0 || (t.stalls == s.stalls + 1 && s.retireQ <= t.retireQ && s.debts <= t.debts)))))
  }

  lemma PacedLater(s: Snap, t: Snap, u: Snap, now: int)
    requires Paced(s, t, now) && Later(t, u)
    ensures Paced(s, u, now)
  {
    hide Kept;
    assert t.log[|s.log|..] <= u.log[|s.log|..];
    if Recovered in t.log[|s.log|..] {
      var k :| 0 <= k < |t.log[|s.log|..]| && t.log[|s.log|..][k] == Recovered;
      assert u.log[|s.log|..][k] == Recovered;
    }
  }

  lemma LaterPaced(s: Snap, t: Snap, u: Snap, now: int)
    requires Later(s, t) && Paced(t, u, now)
    ensures Paced(s, u, now)
  {
    hide Kept;
    assert u.log[|s.log|..] == t.log[|s.log|..] + u.log[|t.log|..];
  }

  /** A bar or tick so far: obligations were serviced and, outside doubt and halt, every watched
      taker had its look. */
  ghost predicate Tended(cfg: Config, s: Snap, t: Snap, at: int) {
    && Aged(s, t) && Paced(s, t, at) && t.halted == s.halted && (s.unverified ==> t.unverified)
    && (!t.halted && !t.unverified ==> EachWatched(cfg, s.own, s.pending, t.own, t.pending, at))
  }

  lemma TendedWatch(cfg: Config, s: Snap, t: Snap, u: Snap, at: int)
    requires Serviced(s, t) && Paced(s, t, at) && Later(t, u)
    requires !u.halted && !u.unverified ==> EachWatched(cfg, t.own, t.pending, u.own, u.pending, at)
    ensures Tended(cfg, s, u, at)
  {
    hide Grown, TakersKept, EachWatched, Paced, Aged;
    LaterAged(t, u);
    AgedTrans(s, t, u);
    PacedLater(s, t, u, at);
    LaterMeans(t, u);
    if !u.halted && !u.unverified {
      TakersKeptRefl(u.own, u.pending);
      WatchedFrame(cfg, s.own, s.pending, t.own, t.pending, u.own, u.pending, u.own, u.pending, at);
    }
  }

  lemma TendedSteady(cfg: Config, s: Snap, t: Snap, u: Snap, at: int)
    requires Tended(cfg, s, t, at) && Steady(t, u)
    ensures Tended(cfg, s, u, at)
  {
    hide Grown, TakersKept, EachWatched, Paced, Aged;
    SteadyMeans(t, u);
    LaterAged(t, u);
    AgedTrans(s, t, u);
    PacedLater(s, t, u, at);
    LaterMeans(t, u);
    if !u.halted && !u.unverified {
      TakersKeptRefl(s.own, s.pending);
      WatchedFrame(cfg, s.own, s.pending, s.own, s.pending, t.own, t.pending, u.own, u.pending, at);
    }
  }

  lemma ServicedSteady(s: Snap, t: Snap, u: Snap, at: int)
    requires Serviced(s, t) && Paced(s, t, at) && Steady(t, u)
    ensures Aged(s, u) && Paced(s, u, at)
  {
    hide Grown, TakersKept, Paced, Aged;
    SteadyMeans(t, u);
    LaterAged(t, u);
    AgedTrans(s, t, u);
    PacedLater(s, t, u, at);
  }

  /** A clean reconcile lifted the doubt. */
  lemma Reconciled(s: Snap, t: Snap, at: int)
    requires |t.log| > |s.log| && t.log == s.log + [t.log[|s.log|]] && !t.log[|s.log|].Recovered?
    requires t == s.(log := t.log, unverified := t.unverified)
    ensures Aged(s, t) && Paced(s, t, at)
  {
    LaterRefl(s);
    LaterAged(s, s);
    assert t.issued[|s.issued|..] == [] && t.log[|s.log|..] == [t.log[|s.log|]];
  }

  /** The kill-switch tripped, and nothing else happened yet. */
  lemma Tripped(s: Snap, at: int)
    ensures Aged(s, s.(halted := true)) && Paced(s, s.(halted := true), at)
  {
    LaterRefl(s);
    LaterAged(s, s);
  }

  lemma HaltedStays(s: Snap, t: Snap)
    requires Aged(s, t)
    ensures s.halted ==> t.halted && t.rpcs == s.rpcs
  {
  }

  /** A placed taker was filed under an id the broker handed out since s0. */
  lemma TakerFiled(s0: Snap, s: Snap, t: Snap, id: OrderId)
    requires Undisturbed(s0, s) && id in s.issued[|s0.issued|..]
    requires id in t.own && id in t.lines && !t.own[id].maker && (id in s.own ==> !s.own[id].maker && t.unverified)
    requires t == s.(own := s.own[id := t.own[id]], lines := s.lines[id := t.lines[id]], pending := t.pending)
    requires t.pending == s.pending - {id} || t.pending == s.pending + {id}
    ensures Undisturbed(s0, t)
  {
    var since := s.issued[|s0.issued|..];
    KeptOne(s.own, s.lines, id, t.own[id], t.lines[id], since);
    KeptTrans(s0.own, s0.lines, s.own, s.lines, since, t.own, t.lines, since);
  }

  /** An id that cannot be tracked put the book in doubt. */
  lemma Doubted(s0: Snap, s: Snap, t: Snap)
    requires Undisturbed(s0, s) && t == s.(log := s.log + [Untrackable], unverified := true)
    ensures Undisturbed(s0, t)
    ensures Steady(s0, s) ==> Steady(s0, t)
  {
  }

  /** A clip's end went on record. */
  lemma ClipRecorded(s0: Snap, s: Snap, t: Snap)
    requires Steady(s0, s) && s.closed <= t.closed && t == s.(closed := t.closed)
    ensures Steady(s0, t)
  {
  }

  /** An order was parked: its cancels stayed unanswered since s0. */
  lemma RetireParked(s0: Snap, s: Snap, t: Snap, id: OrderId)
    requires Undisturbed(s0, s) && s.parked - s0.parked < s.refusals - s0.refusals
    requires id in s.own && s.own[id].maker && t.own == s.own[id := s.own[id].(deferred := true)]
    requires t == s.(own := t.own, retireQ := s.retireQ + [id], parked := s.parked + 1, impaired := t.impaired,
                     nextRetryAt := t.nextRetryAt, retryGap := t.retryGap, stalls := t.stalls)
    requires s.impaired ==>
               t.impaired && t.nextRetryAt == s.nextRetryAt && t.retryGap == s.retryGap && t.stalls == s.stalls
    ensures Undisturbed(s0, t)
  {
  }

  /** A passive order was filed under an id new to the registry. */
  lemma MakerFiled(s0: Snap, s: Snap, t: Snap, id: OrderId)
    requires Steady(s0, s) && id !in s.own && id in t.own && id in t.lines
    requires t == s.(own := s.own[id := t.own[id]], lines := s.lines[id := t.lines[id]])
    ensures Steady(s0, t)
  {
  }

  /** A passive order was asked for, and nothing else happened. */
  lemma MakerAsked(s: Snap, t: Snap)
    requires !s.halted && s.rpcs <= t.rpcs && s.issued <= t.issued && s.refusals <= t.refusals
    requires t == s.(rpcs := t.rpcs, issued := t.issued, refusals := t.refusals)
    ensures Steady(s, t)
  {
  }

  /** One order's account and line moved on, and nothing else of the record changed. */
  lemma OrderMoved(s: Snap, t: Snap, id: OrderId)
    requires id in s.own && id in s.lines && id in t.own && id in t.lines
    requires t == s.(own := s.own[id := t.own[id]], lines := s.lines[id := t.lines[id]], pending := t.pending)
    requires LivesOn(s.own[id], t.own[id]) && t.lines[id].born == s.lines[id].born
    ensures Later(s, t)
    ensures s.own[id].maker && t.own[id].maker && t.pending == s.pending ==> Steady(s, t)
  {
    assert t.issued[|s.issued|..] == [];
    KeptOne(s.own, s.lines, id, t.own[id], t.lines[id], []);
  }
}
