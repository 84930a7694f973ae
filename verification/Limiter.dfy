/**
 The order-placement quota limiter shared by the engine (Allow, Spend) and the refresher
 (Snapshot, then the usage-metrics request, then Set), as a class proved against functions on
 its state, and as a system of interleaved steps with the broker's own counter.
 */
module Limiter {
  import opened Domain

  datatype Token = Token(spent: int, epoch: int)

  /** The limiter's bookkeeping. `resetAt` is None before any window is known. */
  datatype Quota = Quota(
    remaining: int,
    resetAt: Option<int>,
    known: bool,
    totalSpent: int,
    lastSetToken: int,
    epoch: int)

  const NEW_QUOTA := Quota(0, None, false, 0, 0, 0)

  const DEFAULT_QUOTA_WINDOW := 60000

  datatype Setup = Setup(margin: int, windowLimit: int, window: int)

  // ----- the operations on the state ----------------------------------------------------

  function Refreshed(s: Setup, q: Quota, now: int): Quota {
    if s.windowLimit > 0 && (q.resetAt == None || q.resetAt.value <= now)
    then q.(remaining := s.windowLimit, resetAt := Some(now + s.window), epoch := q.epoch + 1)
    else q
  }

  function AfterSpend(s: Setup, q: Quota, now: int, ops: int): Quota {
    var r := Refreshed(s, q.(totalSpent := q.totalSpent + ops), now);
    if r.known || s.windowLimit > 0 then r.(remaining := r.remaining - ops) else r
  }

  predicate Granted(s: Setup, q: Quota, now: int, ops: int) {
    var r := Refreshed(s, q, now);
    (!r.known && s.windowLimit <= 0) || r.remaining >= ops + s.margin
  }

  /** A Set is refused when a newer answer was applied, and in fail-safe mode also when the
      answer's window is over or was superseded by a local rollover. */
  predicate Refused(s: Setup, q: Quota, resetAt: int, now: int, token: Token) {
    || (q.known && token.spent < q.lastSetToken)
    || (s.windowLimit > 0 && (resetAt <= now || token.epoch < q.epoch))
  }

  function AfterSet(s: Setup, q: Quota, remaining: int, resetAt: int, now: int, token: Token): Quota {
    if Refused(s, q, resetAt, now, token) then q
    else
      var computed := remaining - (q.totalSpent - token.spent);
      q.(remaining := if q.known && q.resetAt == Some(resetAt) then Min(computed, q.remaining) else computed,
         resetAt := Some(resetAt), known := true, lastSetToken := token.spent)
  }

  // ----- the class ----------------------------------------------------------------------

  class QuotaLimiter {
    const setup: Setup
    var remaining: int
    var resetAt: Option<int>
    var known: bool
    var totalSpent: int
    var lastSetToken: int
    var epoch: int

    /** windowLimit zero is the legacy limiter, permissive until the first Set. */
    constructor (setup: Setup)
      ensures this.setup == setup.(window := this.setup.window) && this.setup.window > 0 && View() == NEW_QUOTA
      ensures setup.window > 0 ==> this.setup == setup
    {
      this.setup := if setup.window <= 0 then setup.(window := DEFAULT_QUOTA_WINDOW) else setup;
      remaining, resetAt, known, totalSpent, lastSetToken, epoch := 0, None, false, 0, 0, 0;
    }

    function View(): Quota
      reads this
    {
      Quota(remaining, resetAt, known, totalSpent, lastSetToken, epoch)
    }

    method Snapshot() returns (token: Token)
      ensures token == Token(totalSpent, epoch)
    {
      token := Token(totalSpent, epoch);
    }

    method RefreshWindow(now: int)
      modifies this
      ensures View() == Refreshed(setup, old(View()), now)
    {
      if setup.windowLimit <= 0 {
        return;
      }
      if resetAt == None || !(now < resetAt.value) {
        remaining := setup.windowLimit;
        resetAt := Some(now + setup.window);
        epoch := epoch + 1;
      }
    }

    method Allow(now: int, ops: int) returns (ok: bool)
      modifies this
      ensures View() == Refreshed(setup, old(View()), now) && ok == Granted(setup, old(View()), now, ops)
    {
      RefreshWindow(now);
      if !known && setup.windowLimit <= 0 {
        return true;
      }
      ok := remaining >= ops + setup.margin;
    }

    method Spend(now: int, ops: int)
      modifies this
      ensures View() == AfterSpend(setup, old(View()), now, ops)
    {
      totalSpent := totalSpent + ops;
      RefreshWindow(now);
      if known || setup.windowLimit > 0 {
        remaining := remaining - ops;
      }
    }

    method Set(answer: int, reset: int, now: int, token: Token)
      modifies this
      ensures View() == AfterSet(setup, old(View()), answer, reset, now, token)
    {
      if known && token.spent < lastSetToken {
        return;
      }
      if setup.windowLimit > 0 && !(reset > now) {
        return;
      }
      if setup.windowLimit > 0 && token.epoch < epoch {
        return;
      }
      var computed := answer - (totalSpent - token.spent);
      if known && resetAt == Some(reset) && computed > remaining {
        computed := remaining;
      }
      remaining, resetAt, known, lastSetToken := computed, Some(reset), true, token.spent;
    }
  }

  // ----- the limiter beside the broker's counter ----------------------------------------

  datatype Poll = Asked(token: Token) | Answered(token: Token, left: int, reset: int)

  /** left, reset: the broker's own count and the end of its window. unbooked: operations the
      broker received that Spend has not booked yet. setEpoch: the epoch in which the last Set
      was applied. */
  datatype World = World(
    now: int, q: Quota, left: int, reset: int, unbooked: nat, polls: seq<Poll>, setEpoch: Option<int>)

  datatype Step =
    | Wait(dt: nat)
    | Receive(k: nat)
    | Book(k: nat)
    | BookLost(k: nat)
    | Ask
    | Answer(i: nat)
    | Apply(i: nat)
    | Check(ops: int)
    | Refill(k: nat)
    | Roll(budget: int, until: int)

  predicate Enabled(w: World, step: Step) {
    match step
    case Book(k) => k <= w.unbooked
    case Answer(i) => i < |w.polls| && w.polls[i].Asked?
    case Apply(i) => i < |w.polls| && w.polls[i].Answered?
    case Roll(_, until) => w.reset <= w.now < until
    case _ => true
  }

  /** One step. Polls stay answered after they are applied, so an answer may also be delivered
      late, out of order or twice; one that is never applied was lost. */
  function Next(s: Setup, w: World, step: Step): World
    requires Enabled(w, step)
  {
    match step
    case Wait(dt) => w.(now := w.now + dt)
    case Receive(k) => w.(left := w.left - k, unbooked := w.unbooked + k)
    case Book(k) => w.(q := AfterSpend(s, w.q, w.now, k), unbooked := w.unbooked - k)
    case BookLost(k) => w.(q := AfterSpend(s, w.q, w.now, k))
    case Ask => w.(polls := w.polls + [Asked(Token(w.q.totalSpent, w.q.epoch))])
    case Answer(i) => w.(polls := w.polls[i := Answered(w.polls[i].token, w.left, w.reset)])
    case Apply(i) =>
      var p := w.polls[i];
      w.(q := AfterSet(s, w.q, p.left, p.reset, w.now, p.token),
         setEpoch := if Refused(s, w.q, p.reset, w.now, p.token) then w.setEpoch else Some(w.q.epoch))
    case Check(_) => w.(q := Refreshed(s, w.q, w.now))
    case Refill(k) => w.(left := w.left + k)
    case Roll(budget, until) => w.(left := budget, reset := until)
  }

  predicate Possible(s: Setup, w: World, steps: seq<Step>)
    decreases |steps|
  {
    steps == [] || (Enabled(w, steps[0]) && Possible(s, Next(s, w, steps[0]), steps[1..]))
  }

  function After(s: Setup, w: World, steps: seq<Step>): World
    requires Possible(s, w, steps)
    decreases |steps|
  {
    if steps == [] then w else After(s, Next(s, w, steps[0]), steps[1..])
  }

  /** What a poll's answer can still claim at most: its window is the broker's current one only
      until it ends, and every later booking is taken off it. */
  predicate PollOK(w: World, p: Poll) {
    && p.token.spent <= w.q.totalSpent && p.token.epoch <= w.q.epoch
    && (p.Answered? ==>
          && p.reset <= w.reset
          && (p.reset < w.reset ==> p.reset <= w.now)
          && (p.reset == w.reset ==> p.left - (w.q.totalSpent - p.token.spent) <= w.left + w.unbooked))
  }

  /** The last Set was applied in the limiter's current window. */
  predicate Applied(w: World) {
    w.q.known && w.setEpoch == Some(w.q.epoch) && w.q.resetAt.Some?
  }

  predicate WorldOK(w: World) {
    && (forall i :: 0 <= i < |w.polls| ==> PollOK(w, w.polls[i]))
    && (w.setEpoch.Some? ==> w.setEpoch.value <= w.q.epoch)
    && (Applied(w) ==>
          && w.q.resetAt.value <= w.reset
          && (w.q.resetAt.value < w.reset ==> w.q.resetAt.value <= w.now)
          && (w.q.resetAt.value == w.reset ==> w.q.remaining <= w.left + w.unbooked))
  }

  function Start(now: int, left: int, reset: int): World {
    World(now, NEW_QUOTA, left, reset, 0, [], None)
  }

  lemma StepKeepsWorld(s: Setup, w: World, step: Step)
    requires WorldOK(w) && Enabled(w, step)
    ensures WorldOK(Next(s, w, step))
  {
    var w' := Next(s, w, step);
    forall i | 0 <= i < |w'.polls| ensures PollOK(w', w'.polls[i]) {
      if i < |w.polls| {
        assert PollOK(w, w.polls[i]);
      }
    }
    if step.Apply? {
      assert PollOK(w, w.polls[step.i]);
    }
  }

  lemma {:induction false} RunKeepsWorld(s: Setup, w: World, steps: seq<Step>)
    requires WorldOK(w) && Possible(s, w, steps)
    ensures WorldOK(After(s, w, steps))
    decreases |steps|
  {
    if steps != [] {
      StepKeepsWorld(s, w, steps[0]);
      RunKeepsWorld(s, Next(s, w, steps[0]), steps[1..]);
    }
  }

  /** The limiter never overestimates the broker: whatever the interleaving, from an applied
      Set until the end of the window it reported. */
  lemma NeverOverestimates(s: Setup, now: int, left: int, reset: int, steps: seq<Step>)
    requires Possible(s, Start(now, left, reset), steps)
    ensures var w := After(s, Start(now, left, reset), steps);
            Applied(w) && w.now < w.q.resetAt.value ==> w.q.remaining <= w.left + w.unbooked
  {
    RunKeepsWorld(s, Start(now, left, reset), steps);
  }

  /** The step that breaks `Applied` is a local rollover, and only at the reported end. */
  lemma AppliedUntilReset(s: Setup, w: World, step: Step)
    requires WorldOK(w) && Enabled(w, step) && Applied(w) && !Applied(Next(s, w, step))
    ensures s.windowLimit > 0 && w.q.resetAt.value <= w.now
    ensures step.Book? || step.BookLost? || step.Check?
  {
  }

  /** An answer to this poll comes too late: a newer one was applied or, in fail-safe mode, the
      window it was asked in is over. */
  predicate Superseded(s: Setup, q: Quota, token: Token) {
    (s.windowLimit > 0 && token.epoch < q.epoch) || (q.known && token.spent < q.lastSetToken)
  }

  lemma StaysSuperseded(s: Setup, w: World, step: Step, i: nat)
    requires Enabled(w, step) && i < |w.polls| && Superseded(s, w.q, w.polls[i].token)
    ensures var w' := Next(s, w, step);
            i < |w'.polls| && w'.polls[i].token == w.polls[i].token && Superseded(s, w'.q, w'.polls[i].token)
  {
  }

  /** A superseded poll never changes the limiter again: whatever happens next, its answer, however
      late or often delivered, leaves everything as it is. */
  lemma {:induction false} SupersededForGood(s: Setup, w: World, steps: seq<Step>, i: nat)
    requires Possible(s, w, steps) && i < |w.polls| && Superseded(s, w.q, w.polls[i].token)
    ensures var w' := After(s, w, steps);
            i < |w'.polls| && (w'.polls[i].Answered? ==> Next(s, w', Apply(i)) == w')
    decreases |steps|
  {
    if steps != [] {
      StaysSuperseded(s, w, steps[0], i);
      SupersededForGood(s, Next(s, w, steps[0]), steps[1..], i);
    }
  }

  /** A local rollover supersedes every poll asked before it, for good. */
  lemma RolloverSupersedes(s: Setup, w: World, step: Step, steps: seq<Step>, i: nat)
    requires WorldOK(w) && Enabled(w, step) && Next(s, w, step).q.epoch != w.q.epoch && i < |w.polls|
    requires Possible(s, Next(s, w, step), steps)
    ensures var w' := After(s, Next(s, w, step), steps);
            i < |w'.polls| && (w'.polls[i].Answered? ==> Next(s, w', Apply(i)) == w')
  {
    assert PollOK(w, w.polls[i]);
    SupersededForGood(s, Next(s, w, step), steps, i);
  }

  /** Within one reported window the local view never goes up. */
  lemma SameWindowNeverRises(s: Setup, q: Quota, remaining: int, now: int, token: Token)
    requires q.known && q.resetAt.Some?
    ensures AfterSet(s, q, remaining, q.resetAt.value, now, token).remaining <= q.remaining
  {
  }

  // ----- the hedge reserve --------------------------------------------------------------

  datatype Use = Hedge(now: int, k: nat) | Gate(now: int, k: nat) | Open(now: int, k: nat)

  /** spent: booked since the last rollover. open: the discretionary part of it. grant: what the
      last granted Allow still covers. */
  datatype Reserve = Reserve(q: Quota, spent: int, open: int, grant: int)

  function Spent(s: Setup, r: Reserve, now: int, k: nat): Reserve {
    var q := AfterSpend(s, r.q, now, k);
    if q.epoch == r.q.epoch then r.(q := q, spent := r.spent + k) else r.(q := q, spent := k, open := 0)
  }

  function Used(s: Setup, r: Reserve, u: Use): Reserve {
    match u
    case Hedge(now, k) => Spent(s, r, now, k)
    case Gate(now, k) =>
      var q := Refreshed(s, r.q, now);
      var grant := if Granted(s, r.q, now, k) then k else 0;
      if q.epoch == r.q.epoch then r.(q := q, grant := grant) else Reserve(q, 0, 0, grant)
    case Open(now, k) =>
      var t := Spent(s, r, now, k);
      t.(open := t.open + k, grant := t.grant - k)
  }

  /** Every discretionary placement is covered by the last granted Allow; hedges need none. */
  predicate Gated(s: Setup, r: Reserve, us: seq<Use>)
    decreases |us|
  {
    us == [] || ((us[0].Open? ==> us[0].k <= r.grant) && Gated(s, Used(s, r, us[0]), us[1..]))
  }

  function AfterUses(s: Setup, r: Reserve, us: seq<Use>): Reserve
    decreases |us|
  {
    if us == [] then r else AfterUses(s, Used(s, r, us[0]), us[1..])
  }

  predicate ReserveOK(s: Setup, r: Reserve) {
    && !r.q.known
    && 0 <= r.open <= r.spent && 0 <= r.grant
    && r.open + r.grant <= Max(0, s.windowLimit - s.margin)
    && (r.q.resetAt.Some? ==> r.q.remaining == s.windowLimit - r.spent)
    && (r.q.resetAt == None ==> r.spent == 0 && r.grant == 0)
  }

  lemma UseKeepsReserve(s: Setup, r: Reserve, u: Use)
    requires s.windowLimit > 0 && ReserveOK(s, r)
    requires u.Open? ==> u.k <= r.grant
    ensures ReserveOK(s, Used(s, r, u))
  {
  }

  /** Hedge reserve: without a refresher the local count is the window's budget less everything
      spent in it, and opens never eat into the margin however many hedges go ungated. */
  lemma {:induction false} HedgeReserve(s: Setup, r: Reserve, us: seq<Use>)
    requires s.windowLimit > 0 && ReserveOK(s, r) && Gated(s, r, us)
    ensures ReserveOK(s, AfterUses(s, r, us))
    decreases |us|
  {
    if us != [] {
      UseKeepsReserve(s, r, us[0]);
      HedgeReserve(s, Used(s, r, us[0]), us[1..]);
    }
  }

  lemma ReserveFromStart(s: Setup, us: seq<Use>)
    requires s.windowLimit > 0 && Gated(s, Reserve(NEW_QUOTA, 0, 0, 0), us)
    ensures var r := AfterUses(s, Reserve(NEW_QUOTA, 0, 0, 0), us);
            && r.open <= Max(0, s.windowLimit - s.margin)
            && (us != [] ==> r.q.remaining == s.windowLimit - r.spent)
  {
    var r0 := Reserve(NEW_QUOTA, 0, 0, 0);
    HedgeReserve(s, r0, us);
    WindowKnown(s, r0, us);
  }

  lemma {:induction false} WindowKnown(s: Setup, r: Reserve, us: seq<Use>)
    requires s.windowLimit > 0
    ensures us != [] || r.q.resetAt.Some? ==> AfterUses(s, r, us).q.resetAt.Some?
    decreases |us|
  {
    if us != [] {
      WindowKnown(s, Used(s, r, us[0]), us[1..]);
    }
  }
}
