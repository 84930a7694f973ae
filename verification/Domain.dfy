/**
 Vocabulary of the two-leg execution engine: legs, order ids, intents and the
 engine configuration, plus the hedge-ratio conversion every LegB order is sized with.
 */
module Domain {

  /** The two legs of the pair. LegA counts are the engine's unit of account. */
  datatype Leg = LegA | LegB

  /** Order ids as the broker hands them out; `NoId` is the empty string. */
  datatype OrderId = NoId | Id(key: nat)

  datatype Option<+T> = None | Some(value: T)

  datatype ExecMode = ExecDefault | ExecTaker | ExecSoloMaker | ExecDualPassive | ExecSoloMakerLegB

  datatype Intent = Intent(action: int, isClose: bool, lots: int, mode: ExecMode)

  datatype Config = Config(
    orderVol: int,
    fillTimeout: int,
    hedgeRetries: int,
    placeRetryBackoff: int,
    rejectRetryLotStep: int,
    rejectRetryMinLots: int,
    disableRepeg: bool,
    soloMakerLeg: bool,
    hedgeRatio: int,
    takerOnly: bool,
    forceCloseOnTimeout: bool,
    keepPartialOpenOnTimeout: bool,
    takerConfirmTimeout: int,
    pullOnStaleBook: bool)

  function Other(leg: Leg): Leg {
    if leg == LegA then LegB else LegA
  }

  /** +n for a buy, -n for a sell. */
  function Signed(buy: bool, n: int): int {
    if buy then n else -n
  }

  lemma SignedAdd(buy: bool, m: int, n: int)
    ensures Signed(buy, m + n) == Signed(buy, m) + Signed(buy, n)
    ensures Signed(buy, 0) == 0
  {
  }

  /** Contracts of LegB that hedge one contract of LegA. */
  function Ratio(cfg: Config): (r: int)
    ensures r >= 1
  {
    if cfg.hedgeRatio > 1 then cfg.hedgeRatio else 1
  }

  /** Converts a count held in LegA contracts into contracts of `leg`. */
  function HedgeLots(cfg: Config, leg: Leg, lotsA: int): int {
    if leg == LegB then lotsA * Ratio(cfg) else lotsA
  }

  lemma HedgeLotsPositive(cfg: Config, leg: Leg, lotsA: int)
    requires lotsA > 0
    ensures HedgeLots(cfg, leg, lotsA) > 0
  {
  }

  lemma HedgeAdd(cfg: Config, m: int, n: int)
    ensures HedgeLots(cfg, LegB, m + n) == HedgeLots(cfg, LegB, m) + HedgeLots(cfg, LegB, n)
  {
  }

  /** LegB lots that arrived without a conversion count as LegA lots only at ratio one. */
  lemma HedgeSplit(cfg: Config, lotsA: int, got: int)
    ensures Ratio(cfg) == 1 || got == 0 ==> got + HedgeLots(cfg, LegB, lotsA - got) == HedgeLots(cfg, LegB, lotsA)
    ensures Ratio(cfg) == 1 ==> HedgeLots(cfg, LegB, lotsA) == lotsA
    ensures HedgeLots(cfg, LegB, 0) == 0 && HedgeLots(cfg, LegA, lotsA) == lotsA
  {
  }

  function Max(x: int, y: int): int {
    if x >= y then x else y
  }

  function Min(x: int, y: int): int {
    if x <= y then x else y
  }

  /** Base backoff in milliseconds. */
  function PlaceBackoff(cfg: Config): (b: int)
    ensures b > 0
  {
    if cfg.placeRetryBackoff > 0 then cfg.placeRetryBackoff else 2000
  }

  function TakerConfirmAfter(cfg: Config): (t: int)
    ensures t > 0
  {
    if cfg.takerConfirmTimeout > 0 then cfg.takerConfirmTimeout else 10000
  }

  const TAKER_PROBE_EVERY := 3000
  const TAKER_DEAD_LIMIT := 3
  const IMPAIRED_RETRY_MAX := 60000

  function LotFloor(cfg: Config): (f: int)
    ensures f >= 1
  {
    if cfg.rejectRetryMinLots < 1 then 1 else cfg.rejectRetryMinLots
  }

  /** The shape one clip is executed in: the intent's own mode, the configured one when it
      names none, and LegB never rests at a hedge ratio above one. */
  function ClipExecMode(cfg: Config, intent: Intent): ExecMode {
    var mode :=
      if intent.mode != ExecDefault then intent.mode
      else if cfg.takerOnly then ExecTaker
      else if cfg.soloMakerLeg then ExecSoloMaker
      else ExecDualPassive;
    if (mode == ExecDualPassive || mode == ExecSoloMakerLegB) && cfg.hedgeRatio > 1
    then ExecSoloMaker
    else mode
  }

  /** Every clip gets a concrete shape: an intent's own mode wins where it is possible, and at a
      ratio above one LegB is always crossed, never rested. */
  lemma ShapeResolved(cfg: Config, intent: Intent)
    ensures ClipExecMode(cfg, intent) != ExecDefault
    ensures Ratio(cfg) > 1 ==> ClipExecMode(cfg, intent) == ExecSoloMaker || ClipExecMode(cfg, intent) == ExecTaker
    ensures intent.mode != ExecDefault && Ratio(cfg) == 1 ==> ClipExecMode(cfg, intent) == intent.mode
  {
  }
}
