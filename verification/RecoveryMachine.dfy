/**
 Degraded-operation state: kill-switch, connection-trouble mode, reconcile divergence and
 the two obligation queues. Each method states the whole of what it changes; the fields it
 does not name in `modifies` stay as they are.
 */
module RecoveryMachine {
  import opened Domain

  datatype HedgeDebt = HedgeDebt(leg: Leg, buy: bool, lots: int)

  /** The debt left by a hedge that is still short by n lots. */
  function Owed(leg: Leg, buy: bool, n: int): seq<HedgeDebt> {
    if n > 0 then [HedgeDebt(leg, buy, n)] else []
  }

  /** Signed lots of `leg` owed by a debt queue. */
  function DebtSum(debts: seq<HedgeDebt>, leg: Leg): int {
    if debts == [] then 0
    else
      var d := debts[|debts| - 1];
      DebtSum(debts[..|debts| - 1], leg) + if d.leg == leg then Signed(d.buy, d.lots) else 0
  }

  lemma EmptyDebts()
    ensures DebtSum([], LegA) == 0 && DebtSum([], LegB) == 0
  {
  }

  lemma DebtAppend(debts: seq<HedgeDebt>, d: HedgeDebt, leg: Leg)
    ensures DebtSum(debts + [d], leg) == DebtSum(debts, leg) + if d.leg == leg then Signed(d.buy, d.lots) else 0
  {
    assert (debts + [d])[..|debts|] == debts;
  }

  /** The retry gap after one obligation cycle. */
  function NextGap(gap: int, progressed: bool, base: int, ceiling: int): int {
    if progressed then base else if gap * 2 > ceiling then ceiling else gap * 2
  }

  function Pow2(k: nat): int {
    if k == 0 then 1 else 2 * Pow2(k - 1)
  }

  /** The gap after k fruitless cycles of an episode that starts at `base`. */
  function StalledGap(base: int, ceiling: int, k: nat): int {
    if k == 0 then base else NextGap(StalledGap(base, ceiling, k - 1), false, base, ceiling)
  }

  /** The pace of an episode is the one its stalled cycles call for. */
  predicate PaceOK(base: int, ceiling: int, impaired: bool, gap: int, stalls: nat) {
    impaired ==> gap == StalledGap(base, ceiling, stalls)
  }

  lemma PaceAdvances(base: int, ceiling: int, impaired: bool, gap: int, stalls: nat, progressed: bool)
    requires PaceOK(base, ceiling, impaired, gap, stalls)
    ensures PaceOK(base, ceiling, impaired, NextGap(gap, progressed, base, ceiling),
                   if progressed then 0 else stalls + 1)
  {
  }

  lemma PaceStarts(base: int, ceiling: int, gap: int, stalls: nat)
    ensures PaceOK(base, ceiling, true, base, 0) && PaceOK(base, ceiling, false, gap, stalls)
  {
  }

  /** Bounded pace. Before the first stall the gap is the configured backoff itself, which
      the ceiling does not clip: the closed form holds there only when base is within it. */
  lemma {:induction false} StalledGapClosedForm(base: int, ceiling: int, k: nat)
    requires base > 0 && ceiling > 0
    ensures StalledGap(base, ceiling, k) == Min(base * Pow2(k), ceiling) <==> (k > 0 || base <= ceiling)
  {
    if k > 0 {
      StalledGapFormula(base, ceiling, k);
    }
  }

  lemma {:induction false} StalledGapFormula(base: int, ceiling: int, k: nat)
    requires base > 0 && ceiling > 0 && k > 0
    ensures StalledGap(base, ceiling, k) == Min(base * Pow2(k), ceiling)
  {
    assert base * Pow2(k) == 2 * (base * Pow2(k - 1));
    if k > 1 {
      StalledGapFormula(base, ceiling, k - 1);
    }
  }

  class Machine {
    var halted: bool
    var suspect: bool
    var unverified: bool
    var impaired: bool
    var takerDeadStreak: int
    var retireQ: seq<OrderId>
    var debts: seq<HedgeDebt>
    var nextRetryAt: int
    var retryGap: int
    var mismatchLogged: bool
    /** Fruitless obligation cycles since the episode began or last made progress. */
    ghost var stalls: nat

    constructor ()
      ensures !halted && !suspect && !unverified && !impaired
      ensures retireQ == [] && debts == [] && takerDeadStreak == 0 && stalls == 0
    {
      halted, suspect, unverified, impaired := false, false, false, false;
      takerDeadStreak, retireQ, debts := 0, [], [];
      nextRetryAt, retryGap, mismatchLogged, stalls := 0, 0, false, 0;
    }

    predicate Suspended()
      reads this
    {
      suspect || unverified
    }

    method Halt() returns (tripped: bool)
      modifies `halted
      ensures halted && tripped == !old(halted)
    {
      tripped := !halted;
      halted := true;
    }

    method EnterImpaired(now: int, backoff: int)
      modifies `impaired, `retryGap, `nextRetryAt, `stalls
      ensures impaired == (old(impaired) || !halted)
      ensures if old(halted) || old(impaired)
              then retryGap == old(retryGap) && nextRetryAt == old(nextRetryAt) && stalls == old(stalls)
              else retryGap == backoff && nextRetryAt == now + backoff && stalls == 0
    {
      if halted || impaired {
        return;
      }
      impaired := true;
      retryGap := backoff;
      nextRetryAt := now + retryGap;
      stalls := 0;
    }

    method DeferHedge(leg: Leg, buy: bool, lots: int, now: int, backoff: int)
      modifies `debts, `impaired, `retryGap, `nextRetryAt, `stalls
      ensures debts == old(debts) + [HedgeDebt(leg, buy, lots)]
      ensures impaired == (old(impaired) || !halted)
      ensures if old(halted) || old(impaired)
              then retryGap == old(retryGap) && nextRetryAt == old(nextRetryAt) && stalls == old(stalls)
              else retryGap == backoff && nextRetryAt == now + backoff && stalls == 0
    {
      debts := debts + [HedgeDebt(leg, buy, lots)];
      EnterImpaired(now, backoff);
    }

    method QueueRetire(id: OrderId, now: int, backoff: int)
      modifies `retireQ, `impaired, `retryGap, `nextRetryAt, `stalls
      ensures retireQ == old(retireQ) + [id]
      ensures impaired == (old(impaired) || !halted)
      ensures if old(halted) || old(impaired)
              then retryGap == old(retryGap) && nextRetryAt == old(nextRetryAt) && stalls == old(stalls)
              else retryGap == backoff && nextRetryAt == now + backoff && stalls == 0
    {
      retireQ := retireQ + [id];
      EnterImpaired(now, backoff);
    }

    /** The obligation loop keeps only what it could not resolve. */
    method SetRetireQueue(q: seq<OrderId>)
      modifies `retireQ
      ensures retireQ == q
    {
      retireQ := q;
    }

    method SetDebts(d: seq<HedgeDebt>)
      modifies `debts
      ensures debts == d
    {
      debts := d;
    }

    method AdvancePace(now: int, progressed: bool, base: int, ceiling: int)
      modifies `retryGap, `nextRetryAt, `stalls
      ensures retryGap == NextGap(old(retryGap), progressed, base, ceiling)
      ensures nextRetryAt == now + retryGap
      ensures stalls == if progressed then 0 else old(stalls) + 1
    {
      if progressed {
        retryGap := base;
        stalls := 0;
      } else {
        retryGap := retryGap * 2;
        if retryGap > ceiling {
          retryGap := ceiling;
        }
        stalls := stalls + 1;
      }
      nextRetryAt := now + retryGap;
    }

    method ClearImpaired()
      modifies `impaired, `unverified, `retryGap
      ensures !impaired && unverified && retryGap == 0
    {
      impaired := false;
      unverified := true;
      retryGap := 0;
    }

    method MarkUnverified()
      modifies `unverified
      ensures unverified
    {
      unverified := true;
    }

    method ResetDeadStreak()
      modifies `takerDeadStreak
      ensures takerDeadStreak == 0
    {
      takerDeadStreak := 0;
    }

    method IncrementDeadStreak() returns (n: int)
      modifies `takerDeadStreak
      ensures n == takerDeadStreak == old(takerDeadStreak) + 1
    {
      takerDeadStreak := takerDeadStreak + 1;
      n := takerDeadStreak;
    }

    method ResumeFromSuspect()
      modifies `suspect, `mismatchLogged
      ensures !suspect
      ensures mismatchLogged == (old(mismatchLogged) && !old(suspect))
    {
      if suspect {
        suspect := false;
        mismatchLogged := false;
      }
    }

    method ClearUnverified()
      modifies `unverified
      ensures !unverified
    {
      if unverified {
        unverified := false;
      }
    }

    method MarkSuspect() returns (first: bool)
      modifies `suspect
      ensures suspect && first == !old(suspect)
    {
      if suspect {
        return false;
      }
      suspect := true;
      first := true;
    }

    method LogPersistentMismatch()
      modifies `mismatchLogged
      ensures mismatchLogged
    {
      mismatchLogged := true;
    }
  }
}
