/** Snap resolver of the dial: turns the raw seconds value under the pointer
    (the pointer's angle read as a fraction of one hour) into the quantized
    duration that the timer is set to. */
module Snapping {

  /** Granularity of a drag: five-minute marks by default, whole minutes in fine mode. */
  datatype DragMode = Default | Fine

  const FineStep: int := 60
  const CoarseStep: int := 300
  /** The two preset marks that attract the pointer in default mode (25 and 50 minutes). */
  const TwentyFiveMinutes: int := 25 * 60
  const FiftyMinutes: int := 50 * 60
  /** Half-width of the attraction zone around a preset mark, in seconds. */
  const MagnetRadius: real := 120.0
  /** One full revolution of the dial; snapping there means "top of the dial", i.e. 0. */
  const FullTurn: int := 3600

  function Abs(x: real): real {
    if x < 0.0 then -x else x
  }

  /** JavaScript's Math.round: the nearest integer, halves rounded upward. */
  function Round(v: real): (n: int)
    ensures v - 0.5 < n as real <= v + 0.5
  {
    (v + 0.5).Floor
  }

  /** Math.round(seconds / step) * step for one of the dial's two steps:
      the multiple of step nearest to seconds. */
  function Quantize(seconds: real, step: int): (r: int)
    requires step == FineStep || step == CoarseStep
    ensures r % step == 0
    ensures seconds - step as real / 2.0 < r as real <= seconds + step as real / 2.0
  {
    Round(seconds / step as real) * step
  }

  /** True when the raw value lies strictly within the attraction zone of mark. */
  predicate Near(seconds: real, mark: int) {
    Abs(seconds - mark as real) < MagnetRadius
  }

  /** The value updateTimerFromEvent hands to setTime for a raw value and a drag mode. */
  function Snap(seconds: real, mode: DragMode): (r: int)
    ensures r != FullTurn
    ensures mode == Fine ==> r % FineStep == 0
    ensures mode == Default ==> r % CoarseStep == 0
    ensures mode == Default && Near(seconds, TwentyFiveMinutes) ==> r == TwentyFiveMinutes
    ensures mode == Default && !Near(seconds, TwentyFiveMinutes) && Near(seconds, FiftyMinutes) ==> r == FiftyMinutes
  {
    var snapped :=
      match mode
      case Fine => Quantize(seconds, FineStep)
      case Default =>
        var coarse := Quantize(seconds, CoarseStep);
        if Near(seconds, TwentyFiveMinutes) then TwentyFiveMinutes
        else if Near(seconds, FiftyMinutes) then FiftyMinutes
        else coarse;
    if snapped == FullTurn then 0 else snapped
  }

  function StepOf(mode: DragMode): int {
    match mode
    case Fine => FineStep
    case Default => CoarseStep
  }

  /** A raw value taken from a pointer angle in [0, 360) degrees lies in [0, 3600);
      the snapped value then stays on the dial and is never the full turn. */
  lemma SnapStaysOnDial(seconds: real, mode: DragMode)
    requires 0.0 <= seconds < FullTurn as real
    ensures 0 <= Snap(seconds, mode) < FullTurn
  {
  }

  /** The snapped value is the mark nearest to the raw value (within half a step),
      except that a raw value rounding up to the full turn is shown as 0. */
  lemma SnapIsNearestMark(seconds: real, mode: DragMode)
    ensures var r, h := Snap(seconds, mode), StepOf(mode) as real / 2.0;
            (seconds - h < r as real <= seconds + h) ||
            (r == 0 && seconds - h < FullTurn as real <= seconds + h)
  {
  }

  /** The priority snap never decides the outcome: inside the attraction zones
      the five-minute rounding already lands on the preset mark, so default mode
      is plain rounding to five minutes followed by the full-turn wrap. */
  lemma MagnetsNeverDecide(seconds: real)
    ensures var q := Quantize(seconds, CoarseStep);
            Snap(seconds, Default) == if q == FullTurn then 0 else q
  {
  }
}
