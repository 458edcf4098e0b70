/** The dial widget: the variables its event handlers share, updated in place.
    Pointer positions reach the model as the raw seconds value they point at,
    the completion alert as a ghost counter, the repeating one-second tick as
    the flag `intervalActive`, and the double-click prompt as its reply. */
module Widget {
  import Countdown
  import Snapping
  import Wedge

  datatype Option<T> = None | Some(value: T)

  /** What JavaScript's Number conversion makes of the text typed into the prompt. */
  datatype Numeric = NaN | Num(value: real)

  /** The prompt's reply: cancelled (null) or the entered text, read as a number. */
  datatype PromptReply = Cancelled | Entered(number: Numeric)

  /** parseInt on a numeric text: the integer part, truncated toward zero. */
  function Truncate(v: real): (n: int)
    ensures 0.0 <= v ==> n as real <= v < n as real + 1.0
    ensures v < 0.0 ==> n as real - 1.0 < v <= n as real
  {
    if v >= 0.0 then v.Floor else -((-v).Floor)
  }

  /** The whole minutes a double-click sets, if the reply is accepted: present,
      a number, and between 0 and 60 inclusive. */
  function PromptMinutes(reply: PromptReply): (m: Option<int>)
    ensures m.Some? <==> reply.Entered? && reply.number.Num? && 0.0 <= reply.number.value <= 60.0
    ensures m.Some? ==> 0 <= m.value <= 60
    ensures m.Some? ==> m.value as real <= reply.number.value < m.value as real + 1.0
  {
    match reply
    case Cancelled => None
    case Entered(NaN) => None
    case Entered(Num(v)) => if 0.0 <= v <= 60.0 then Some(Truncate(v)) else None
  }

  /** A minutes value accepted by the prompt needs no clamping: the timer is set
      to exactly that many whole minutes. */
  lemma PromptNeedsNoClamp(s: Countdown.TimerState, reply: PromptReply)
    requires PromptMinutes(reply).Some?
    ensures var t := Countdown.SetTime(s, PromptMinutes(reply).value * 60);
            t.totalTime == t.timeRemaining == PromptMinutes(reply).value * 60 &&
            t.totalTime % 60 == 0
  {
  }

  class Timer {
    var totalTime: int
    var timeRemaining: int
    var isRunning: bool
    var intervalActive: bool
    ghost var finishSignals: nat
    var isDragging: bool
    /** Set once the pointer moved during a drag, so the click that follows is ignored. */
    var didDrag: bool
    var dragMode: Snapping.DragMode
    /** The path currently drawn for the wedge. */
    var wedge: Wedge.WedgePath

    ghost function State(): Countdown.TimerState
      reads this
    {
      Countdown.TimerState(totalTime, timeRemaining, isRunning, intervalActive, finishSignals)
    }

    /** The timer invariant holds and the wedge on screen shows the remaining time. */
    ghost predicate Valid()
      reads this
    {
      Countdown.Inv(State()) && wedge == Wedge.PathFor(timeRemaining as real)
    }

    /** The variables as declared, followed by init's setTime(25 * 60). */
    constructor ()
      ensures Valid()
      ensures State() == Countdown.TimerState(1500, 1500, false, false, 0)
      ensures !isDragging && !didDrag && dragMode == Snapping.Default
    {
      totalTime, timeRemaining := 0, 0;
      isRunning, intervalActive := false, false;
      isDragging, didDrag := false, false;
      dragMode := Snapping.Default;
      finishSignals := 0;
      wedge := Wedge.NoWedge;
      new;
      SetTime(25 * 60);
    }

    method DrawWedge(seconds: int)
      modifies this`wedge
      ensures wedge == Wedge.PathFor(seconds as real)
    {
      wedge := Wedge.PathFor(seconds as real);
    }

    method SetTime(seconds: int)
      requires Valid()
      modifies this`totalTime, this`timeRemaining, this`wedge
      ensures Valid()
      ensures State() == Countdown.SetTime(old(State()), seconds)
    {
      var clamped := Countdown.Clamp(seconds);
      totalTime := clamped;
      timeRemaining := clamped;
      DrawWedge(timeRemaining);
    }

    method StartTimer()
      requires Valid()
      modifies this`timeRemaining, this`isRunning, this`intervalActive, this`finishSignals, this`wedge
      ensures Valid()
      ensures State() == Countdown.Start(old(State()))
    {
      if timeRemaining <= 0 || isRunning {
        return;
      }
      isRunning := true;
      intervalActive := true;
      Tick();
    }

    method Tick()
      requires Valid()
      modifies this`timeRemaining, this`isRunning, this`intervalActive, this`finishSignals, this`wedge
      ensures Valid()
      ensures State() == Countdown.Tick(old(State()))
    {
      if !isRunning {
        return;
      }
      timeRemaining := timeRemaining - 1;
      DrawWedge(timeRemaining);
      if timeRemaining <= 0 {
        EndTimer();
      }
    }

    method PauseTimer()
      modifies this`isRunning, this`intervalActive
      ensures State() == Countdown.Pause(old(State()))
      ensures old(Valid()) ==> Valid()
    {
      isRunning := false;
      intervalActive := false;
    }

    /** Called from tick, where the remaining time may already have dropped below 0. */
    method EndTimer()
      requires 0 <= totalTime <= Countdown.MaxSeconds
      modifies this`timeRemaining, this`isRunning, this`intervalActive, this`finishSignals, this`wedge
      ensures Valid()
      ensures State() == Countdown.End(old(State()))
    {
      PauseTimer();
      timeRemaining := 0;
      DrawWedge(0);
      finishSignals := finishSignals + 1;
    }

    /** updateTimerFromEvent from the raw seconds value under the pointer on. */
    method UpdateTimerFromEvent(seconds: real)
      requires Valid()
      modifies this`totalTime, this`timeRemaining, this`wedge
      ensures Valid()
      ensures State() == Countdown.SetTime(old(State()), Snapping.Snap(seconds, dragMode))
    {
      var snapped := Snapping.Snap(seconds, dragMode);
      SetTime(snapped);
    }

    /** Pointer down: pause, begin a drag that has not moved yet, and set the time
        the pointer shows. The drag mode is left as it is. */
    method OnDragStart(seconds: real)
      requires Valid()
      modifies this
      ensures Valid()
      ensures isDragging && !didDrag && dragMode == old(dragMode)
      ensures State() == Countdown.SetTime(Countdown.Pause(old(State())), Snapping.Snap(seconds, dragMode))
    {
      PauseTimer();
      isDragging := true;
      didDrag := false;
      UpdateTimerFromEvent(seconds);
    }

    /** Pointer move: ignored unless dragging; otherwise the drag has moved and the
        time follows the pointer. */
    method OnDragMove(seconds: real)
      requires Valid()
      modifies this
      ensures Valid()
      ensures !old(isDragging) ==> unchanged(this)
      ensures old(isDragging) ==>
                isDragging && didDrag && dragMode == old(dragMode) &&
                State() == Countdown.SetTime(old(State()), Snapping.Snap(seconds, dragMode))
    {
      if !isDragging {
        return;
      }
      didDrag := true;
      UpdateTimerFromEvent(seconds);
    }

    /** Pointer up or leaving the dial: the drag is over and the mode back to default. */
    method OnDragEnd()
      requires Valid()
      modifies this`isDragging, this`dragMode
      ensures Valid()
      ensures !isDragging && dragMode == Snapping.Default
    {
      isDragging := false;
      dragMode := Snapping.Default;
    }

    /** Click: the click that ends a moved drag only clears the flag; any other
        click pauses a running timer and starts a stopped one. */
    method OnClick()
      requires Valid()
      modifies this
      ensures Valid()
      ensures !didDrag && isDragging == old(isDragging) && dragMode == old(dragMode)
      ensures old(didDrag) ==> State() == old(State())
      ensures !old(didDrag) && old(isRunning) ==> State() == Countdown.Pause(old(State()))
      ensures !old(didDrag) && !old(isRunning) ==> State() == Countdown.Start(old(State()))
    {
      if didDrag {
        didDrag := false;
        return;
      }
      if isRunning {
        PauseTimer();
      } else {
        StartTimer();
      }
    }

    /** Double click: always pauses; an accepted reply of m minutes then sets the
        timer to m * 60 seconds, any other reply leaves both times as they were. */
    method OnDoubleClick(reply: PromptReply)
      requires Valid()
      modifies this
      ensures Valid()
      ensures isDragging == old(isDragging) && didDrag == old(didDrag) && dragMode == old(dragMode)
      ensures PromptMinutes(reply).None? ==> State() == Countdown.Pause(old(State()))
      ensures PromptMinutes(reply).Some? ==>
                State() == Countdown.SetTime(Countdown.Pause(old(State())), PromptMinutes(reply).value * 60)
    {
      PauseTimer();
      var minutes := PromptMinutes(reply);
      if minutes.Some? {
        SetTime(minutes.value * 60);
      }
    }
  }
}
