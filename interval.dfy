/** The interval field and its speed unit: the effective period in
    milliseconds (getActualInterval) and the timing advisory shown when an
    automatic session starts (warnAboutTimingLimitations). Periods are
    `real`s: exact rationals, not IEEE doubles. */
module Interval {
  import opened Text

  /** The speed unit select: milliseconds, microseconds, nanoseconds. */
  datatype SpeedMode = MS | MC | NN

  /** What an empty, unparseable or zero interval entry stands for. */
  const DEFAULT_INTERVAL: int := 100

  /** The smallest period, in milliseconds, a microsecond entry resolves to. */
  const MC_FLOOR: real := 0.001

  /** The smallest period, in milliseconds, a nanosecond entry resolves to. */
  const NN_FLOOR: real := 0.000001

  function Max(a: real, b: real): real
  {
    if a >= b then a else b
  }

  /** The period in milliseconds for an already parsed interval. A
      millisecond entry passes through; microsecond and nanosecond entries
      are scaled and clamped from below. Since the entry is an integer, the
      clamp only takes effect for entries below 1. */
  function Resolve(interval: int, mode: SpeedMode): (ms: real)
    ensures mode == MS ==> ms == interval as real
    ensures mode == MC ==> ms >= MC_FLOOR && (ms == interval as real / 1000.0 <==> interval >= 1)
    ensures mode == NN ==> ms >= NN_FLOOR && (ms == interval as real / 1000000.0 <==> interval >= 1)
    ensures mode == MC && interval < 1 ==> ms == MC_FLOOR
    ensures mode == NN && interval < 1 ==> ms == NN_FLOOR
  {
    if mode == MC then Max(MC_FLOOR, interval as real / 1000.0)
    else if mode == NN then Max(NN_FLOOR, interval as real / 1000000.0)
    else interval as real
  }

  /** getActualInterval: the interval text read with `parseInt(...) || 100`
      and resolved in its unit. A missing, unparseable or zero entry is the
      default 100 of the declared unit, so the period is never 0. */
  function GetActualInterval(intervalText: string, mode: SpeedMode): (ms: real)
    ensures ms != 0.0
    ensures mode != MS ==> ms > 0.0
    ensures ParseInt(intervalText).None? || ParseInt(intervalText) == Some(0) ==>
              ms == (match mode case MS => 100.0 case MC => 0.1 case NN => 0.0001)
    ensures ParseInt(intervalText).Some? && ParseInt(intervalText).value != 0 ==>
              ms == Resolve(ParseInt(intervalText).value, mode)
  {
    Resolve(ParseIntOr(intervalText, DEFAULT_INTERVAL), mode)
  }

  /** For a fixed unit, a larger entry never gives a shorter period. */
  lemma ResolveMonotonic(a: int, b: int, mode: SpeedMode)
    requires a <= b
    ensures Resolve(a, mode) <= Resolve(b, mode)
  {
  }

  /** An entry of x microseconds and one of 1000·x nanoseconds give the same
      period, for every positive x. */
  lemma MicrosecondsAsNanoseconds(x: int)
    requires x >= 1
    ensures Resolve(x, MC) == Resolve(1000 * x, NN)
  {
  }

  /** The three advisories warnAboutTimingLimitations can show. */
  datatype TimingWarning =
    | NoWarning
    | NanosecondPrecision   // nanosecond entry below 1 ms
    | OneMsPrecision        // microsecond entry below 1 ms
    | FourMsMinimum         // any other entry below 4

  /** The shortest period, in milliseconds, that passes without advisory. */
  function WarningThreshold(mode: SpeedMode): real
  {
    if mode == MS then 4.0 else 1.0
  }

  /** The advisory for an already parsed interval. An advisory is shown
      exactly when the resolved period is below the unit's threshold, and
      its kind always names the unit in use. */
  function TimingWarningFor(interval: int, mode: SpeedMode): (w: TimingWarning)
    ensures w != NoWarning <==> Resolve(interval, mode) < WarningThreshold(mode)
    ensures w == NanosecondPrecision ==> mode == NN
    ensures w == OneMsPrecision ==> mode == MC
    ensures w == FourMsMinimum ==> mode == MS
  {
    if mode == NN && interval < 1000000 then NanosecondPrecision
    else if mode == MC && interval < 1000 then OneMsPrecision
    else if interval < 4 then FourMsMinimum
    else NoWarning
  }

  /** warnAboutTimingLimitations: the advisory for the interval text, read
      with the same `parseInt(...) || 100` as the period itself. */
  function WarnAboutTimingLimitations(intervalText: string, mode: SpeedMode): (w: TimingWarning)
    ensures w != NoWarning <==> GetActualInterval(intervalText, mode) < WarningThreshold(mode)
    ensures w != NoWarning ==>
              w == (match mode case NN => NanosecondPrecision case MC => OneMsPrecision case MS => FourMsMinimum)
  {
    TimingWarningFor(ParseIntOr(intervalText, DEFAULT_INTERVAL), mode)
  }
}
