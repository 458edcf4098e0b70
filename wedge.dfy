/** The discrete decisions drawWedge makes when it turns the remaining time into
    the pie-slice path "M 50,50 L 50,0 A 50,50 0 <large-arc> 1 x,y Z". The arc
    end point (trigonometry) and the path text are outside the model. */
module Wedge {

  /** Largest time drawn: just under one hour, so the arc never closes on itself. */
  const MaxArcTime: real := 3599.99
  const HalfDial: real := 1800.0
  const FullDial: real := 3600.0

  /** An empty path attribute, or a slice drawn for `time` seconds with the given
      SVG large-arc flag (0 or 1); the sweep flag is always 1 (clockwise). */
  datatype WedgePath = NoWedge | Slice(time: real, largeArcFlag: int)

  /** The path drawWedge renders for a remaining time in seconds. */
  function PathFor(seconds: real): (p: WedgePath)
    ensures p.NoWedge? <==> seconds <= 0.0
    ensures p.Slice? ==> 0.0 < p.time < FullDial && p.time <= seconds
    ensures p.Slice? ==> (p.time == seconds <==> seconds <= MaxArcTime)
    ensures p.Slice? && seconds > MaxArcTime ==> p.time == MaxArcTime
    ensures p.Slice? ==> (p.largeArcFlag == 1 <==> seconds > HalfDial)
    ensures p.Slice? ==> (p.largeArcFlag == 0 <==> seconds <= HalfDial)
  {
    if seconds <= 0.0 then NoWedge
    else
      var time := if seconds < MaxArcTime then seconds else MaxArcTime;
      Slice(time, if time > HalfDial then 1 else 0)
  }

  /** Degrees swept clockwise from 12 o'clock: one revolution per hour. */
  function SweepDegrees(time: real): real {
    time / FullDial * 360.0
  }

  /** The flag agrees with the elliptical arc command of SVG 1.1 (section 8.3.8):
      it selects the larger of the two candidate arcs exactly when the slice
      sweeps more than 180 degrees, and the sweep is strictly between 0 and
      360 degrees, so the arc's end point never coincides with its start. */
  lemma LargeArcFollowsSweep(seconds: real)
    requires seconds > 0.0
    ensures var p := PathFor(seconds);
            0.0 < SweepDegrees(p.time) < 360.0 &&
            (p.largeArcFlag == 1 <==> SweepDegrees(p.time) > 180.0)
  {
  }
}
