/**
 What a run of the engine did, in order: placement requests sent to the broker, and the
 marks that the trading gates are stated over.
 */
module Trace {
  import opened Domain

  datatype Outcome = Took | Refused | Unknown

  datatype Rpc =
    | MakerRpc(leg: Leg, isBid: bool, lots: int, outcome: Outcome)
    | TakerRpc(leg: Leg, buy: bool, lots: int, outcome: Outcome)

  /** Opened carries what the gate saw: a reconcile divergence, an overdue taker. */
  datatype Mark =
    | Opened(suspect: bool, awaiting: bool)
    | Untrackable
    | Recovered
    | CleanReconcile(pos: int, legA: int, legB: int)

  /** Some broker response since the last clean reconcile could not be tied to the book. */
  predicate NeedsReconcile(log: seq<Mark>) {
    log != [] &&
    match log[|log| - 1]
    case Untrackable => true
    case Recovered => true
    case CleanReconcile(_, _, _) => false
    case _ => NeedsReconcile(log[..|log| - 1])
  }

  function Opens(log: seq<Mark>): nat {
    if log == [] then 0 else Opens(log[..|log| - 1]) + if log[|log| - 1].Opened? then 1 else 0
  }

  predicate MarkOK(r: int, log: seq<Mark>, m: Mark) {
    match m
    case Opened(suspect, awaiting) => !NeedsReconcile(log) && !suspect && !awaiting
    case CleanReconcile(pos, a, b) => a == pos && b == -(pos * r)
    case _ => true
  }

  predicate LogOK(r: int, log: seq<Mark>) {
    log == [] || (LogOK(r, log[..|log| - 1]) && MarkOK(r, log[..|log| - 1], log[|log| - 1]))
  }

  lemma LogAppend(r: int, log: seq<Mark>, m: Mark)
    ensures LogOK(r, log + [m]) == (LogOK(r, log) && MarkOK(r, log, m))
    ensures Opens(log + [m]) == Opens(log) + if m.Opened? then 1 else 0
    ensures NeedsReconcile(log + [m]) ==
            match m {
              case Untrackable => true
              case Recovered => true
              case CleanReconcile(_, _, _) => false
              case _ => NeedsReconcile(log)
            }
  {
    assert (log + [m])[..|log|] == log;
  }

  lemma {:induction false} LogAt(r: int, log: seq<Mark>, i: nat)
    requires LogOK(r, log) && i < |log|
    ensures MarkOK(r, log[..i], log[i])
    decreases |log|
  {
    if i < |log| - 1 {
      LogAt(r, log[..|log| - 1], i);
      assert log[..|log| - 1][..i] == log[..i];
    }
  }

  lemma {:induction false} DoubtPersists(log: seq<Mark>, i: nat)
    requires i < |log| && (log[i].Untrackable? || log[i].Recovered?)
    requires forall k :: i < k < |log| ==> !log[k].CleanReconcile?
    ensures NeedsReconcile(log)
    decreases |log|
  {
    if i < |log| - 1 {
      DoubtPersists(log[..|log| - 1], i);
    }
  }

  /** Trusted opens: no clip was opened at a divergence or with a taker overdue, and between an
      untrackable id or the end of impaired mode and any later open lies a reconcile in which the
      broker held exactly the position and its hedge. */
  lemma TrustedOpens(r: int, log: seq<Mark>, i: nat, j: nat)
    requires LogOK(r, log)
    requires i < j < |log|
    requires log[i].Untrackable? || log[i].Recovered?
    requires log[j].Opened?
    ensures !log[j].suspect && !log[j].awaiting
    ensures exists k :: i < k < j && log[k].CleanReconcile? &&
                        log[k].legA == log[k].pos && log[k].legB == -(log[k].pos * r)
  {
    LogAt(r, log, j);
    var before := log[..j];
    if forall k :: i < k < |before| ==> !before[k].CleanReconcile? {
      DoubtPersists(before, i);
    } else {
      var k :| i < k < |before| && before[k].CleanReconcile?;
      LogAt(r, log, k);
      assert log[k].CleanReconcile?;
    }
  }

  // ----- closed clips -------------------------------------------------------------------

  /** A clip's end: what each leg moved by since it was opened, how many retires were parked and
      how many fills exceeded a reported terminal count meanwhile. */
  datatype Close = Close(
    committed: bool, buyA: bool, target: int, dA: int, dB: int, parked: int, excess: int, halted: bool)
  {
    /** Every ack was honest and answered, and the kill-switch stayed off. */
    predicate Clean() { parked == 0 && excess == 0 && !halted }
  }

  /** The clip moved LegA by x lots in its direction and LegB by the hedge of x. */
  predicate PairMove(r: int, buyA: bool, dA: int, dB: int, x: int) {
    dA == Signed(buyA, x) && dB == Signed(!buyA, x * r)
  }

  /** No overshoot: exactly the target when committed, level and at most the target otherwise. */
  predicate CloseOK(r: int, c: Close) {
    c.Clean() ==>
      if c.committed then c.target >= 0 && PairMove(r, c.buyA, c.dA, c.dB, c.target)
      else 0 <= Signed(c.buyA, c.dA) <= c.target && PairMove(r, c.buyA, c.dA, c.dB, Signed(c.buyA, c.dA))
  }

  predicate ClosedOK(r: int, closed: seq<Close>) {
    forall i :: 0 <= i < |closed| ==> CloseOK(r, closed[i])
  }

  /** How many clips ended booked. */
  function Booked(closed: seq<Close>): nat {
    if closed == [] then 0
    else Booked(closed[..|closed| - 1]) + if closed[|closed| - 1].committed then 1 else 0
  }

  lemma BookedAppend(closed: seq<Close>, c: Close)
    ensures Booked(closed + [c]) == Booked(closed) + if c.committed then 1 else 0
  {
    assert (closed + [c])[..|closed|] == closed;
  }

  // ----- the whole trace ----------------------------------------------------------------

  /** The trace of a run so far: the doubt it leaves, its opens, and every clip's end. */
  predicate TraceOK(r: int, doubt: bool, log: seq<Mark>, opens: nat, closed: seq<Close>) {
    doubt == NeedsReconcile(log) && LogOK(r, log) && opens == Opens(log) && ClosedOK(r, closed)
  }

  lemma EmptyTrace(r: int)
    ensures TraceOK(r, false, [], 0, [])
  {
  }

  lemma TraceDoubts(r: int, doubt: bool, log: seq<Mark>, opens: nat, closed: seq<Close>, m: Mark)
    requires TraceOK(r, doubt, log, opens, closed) && (m.Untrackable? || m.Recovered?)
    ensures TraceOK(r, true, log + [m], opens, closed)
  {
    LogAppend(r, log, m);
  }

  lemma TraceReconciles(r: int, doubt: bool, log: seq<Mark>, opens: nat, closed: seq<Close>, pos: int)
    requires TraceOK(r, doubt, log, opens, closed)
    ensures TraceOK(r, false, log + [CleanReconcile(pos, pos, -(pos * r))], opens, closed)
  {
    LogAppend(r, log, CleanReconcile(pos, pos, -(pos * r)));
  }

  lemma TraceOpens(r: int, log: seq<Mark>, opens: nat, closed: seq<Close>, suspect: bool, awaiting: bool)
    requires TraceOK(r, false, log, opens, closed) && !suspect && !awaiting
    ensures TraceOK(r, false, log + [Opened(suspect, awaiting)], opens + 1, closed)
  {
    LogAppend(r, log, Opened(suspect, awaiting));
  }

  lemma TraceCloses(r: int, doubt: bool, log: seq<Mark>, opens: nat, closed: seq<Close>, c: Close)
    requires TraceOK(r, doubt, log, opens, closed) && CloseOK(r, c)
    ensures TraceOK(r, doubt, log, opens, closed + [c])
  {
  }

  // ----- chases -------------------------------------------------------------------------

  /** Lots the broker accepted over a list of taker attempts. */
  function TakenLots(rpcs: seq<Rpc>): int {
    if rpcs == [] then 0
    else
      var last := rpcs[|rpcs| - 1];
      TakenLots(rpcs[..|rpcs| - 1]) + if last.TakerRpc? && last.outcome == Took then last.lots else 0
  }

  predicate SomeUnknown(rpcs: seq<Rpc>) {
    exists i :: 0 <= i < |rpcs| && rpcs[i].TakerRpc? && rpcs[i].outcome == Unknown
  }

  /** A chase of n lots: each attempt asks for some of what is still owed, and for all of it
      once an attempt's fate is unknown. */
  predicate Chase(leg: Leg, buy: bool, n: int, rpcs: seq<Rpc>) {
    rpcs == [] ||
    var init, last := rpcs[..|rpcs| - 1], rpcs[|rpcs| - 1];
    && Chase(leg, buy, n, init)
    && last.TakerRpc? && last.leg == leg && last.buy == buy
    && 0 < last.lots <= n - TakenLots(init)
    && (SomeUnknown(init) ==> last.lots == n - TakenLots(init))
  }

  lemma EmptyChase(leg: Leg, buy: bool, n: int)
    ensures Chase(leg, buy, n, []) && TakenLots([]) == 0 && !SomeUnknown([])
  {
  }

  lemma ChaseAppend(leg: Leg, buy: bool, n: int, rpcs: seq<Rpc>, last: Rpc)
    requires Chase(leg, buy, n, rpcs)
    requires last.TakerRpc? && last.leg == leg && last.buy == buy
    requires 0 < last.lots <= n - TakenLots(rpcs)
    requires SomeUnknown(rpcs) ==> last.lots == n - TakenLots(rpcs)
    ensures Chase(leg, buy, n, rpcs + [last])
    ensures TakenLots(rpcs + [last]) == TakenLots(rpcs) + if last.outcome == Took then last.lots else 0
    ensures SomeUnknown(rpcs + [last]) == (SomeUnknown(rpcs) || last.outcome == Unknown)
  {
    var all := rpcs + [last];
    assert all[..|rpcs|] == rpcs;
    if SomeUnknown(rpcs) {
      var i :| 0 <= i < |rpcs| && rpcs[i].TakerRpc? && rpcs[i].outcome == Unknown;
      assert all[i] == rpcs[i];
    }
    assert all[|rpcs|] == last;
  }

  /** After an answer of unknown fate a chase asks again for the whole remainder, never less. */
  lemma {:induction false} UnknownNeverShrinks(leg: Leg, buy: bool, n: int, rpcs: seq<Rpc>, i: nat, j: nat)
    requires Chase(leg, buy, n, rpcs)
    requires i < j < |rpcs|
    requires rpcs[i].TakerRpc? && rpcs[i].outcome == Unknown
    ensures rpcs[j].TakerRpc? && rpcs[j].lots == n - TakenLots(rpcs[..j])
    decreases |rpcs|
  {
    var init := rpcs[..|rpcs| - 1];
    if j < |init| {
      UnknownNeverShrinks(leg, buy, n, init, i, j);
      assert init[..j] == rpcs[..j];
    } else {
      assert init[i] == rpcs[i];
      assert init == rpcs[..j];
    }
  }

  /** A chase never takes more than it was asked for. */
  lemma {:induction false} ChaseBounded(leg: Leg, buy: bool, n: int, rpcs: seq<Rpc>)
    requires Chase(leg, buy, n, rpcs) && n >= 0
    ensures 0 <= TakenLots(rpcs) <= n
  {
    if rpcs != [] {
      ChaseBounded(leg, buy, n, rpcs[..|rpcs| - 1]);
    }
  }
}
