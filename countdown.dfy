/** The countdown state machine of the dial timer, stated on values. Each
    function gives the state after one of the timer's transitions; the class
    Widget.Timer performs the same transitions in place and is proved to agree
    with them. */
module Countdown {

  /** Longest duration that can be set: one revolution of the dial. */
  const MaxSeconds: int := 3600

  /** The timer variables. `intervalActive` stands for a scheduled repeating
      one-second tick; `finishSignals` counts the completion alerts raised. */
  datatype TimerState = TimerState(
    totalTime: int,
    timeRemaining: int,
    isRunning: bool,
    intervalActive: bool,
    finishSignals: nat)

  /** Times stay on the dial, the remaining time never exceeds the total, and
      the repeating tick is scheduled exactly while the timer runs. */
  predicate Inv(s: TimerState) {
    0 <= s.timeRemaining <= s.totalTime <= MaxSeconds && s.isRunning == s.intervalActive
  }

  function Min(a: int, b: int): int { if a < b then a else b }
  function Max(a: int, b: int): int { if a < b then b else a }

  /** Math.max(0, Math.min(3600, seconds)). */
  function Clamp(seconds: int): (c: int)
    ensures 0 <= c <= MaxSeconds
    ensures 0 <= seconds <= MaxSeconds ==> c == seconds
    ensures seconds < 0 ==> c == 0
    ensures seconds > MaxSeconds ==> c == MaxSeconds
  {
    Max(0, Min(MaxSeconds, seconds))
  }

  /** setTime: both times become the clamped value; running or not is untouched. */
  function SetTime(s: TimerState, seconds: int): (t: TimerState)
    ensures t.totalTime == Clamp(seconds) && t.timeRemaining == Clamp(seconds)
    ensures t.isRunning == s.isRunning && t.intervalActive == s.intervalActive
    ensures t.finishSignals == s.finishSignals
  {
    var clamped := Clamp(seconds);
    s.(totalTime := clamped, timeRemaining := clamped)
  }

  /** pauseTimer: stops and cancels the repeating tick, times unchanged. */
  function Pause(s: TimerState): (t: TimerState)
    ensures !t.isRunning && !t.intervalActive
    ensures t.totalTime == s.totalTime && t.timeRemaining == s.timeRemaining
    ensures t.finishSignals == s.finishSignals
  {
    s.(isRunning := false, intervalActive := false)
  }

  /** endTimer: pauses, forces the remaining time to 0 and raises one alert. */
  function End(s: TimerState): (t: TimerState)
    ensures !t.isRunning && !t.intervalActive && t.timeRemaining == 0
    ensures t.totalTime == s.totalTime && t.finishSignals == s.finishSignals + 1
  {
    Pause(s).(timeRemaining := 0, finishSignals := s.finishSignals + 1)
  }

  /** tick: ignored unless running; otherwise one second passes, and reaching
      zero (or below) ends the countdown. */
  function Tick(s: TimerState): (t: TimerState)
    ensures !s.isRunning ==> t == s
    ensures s.isRunning && s.timeRemaining > 1 ==> t == s.(timeRemaining := s.timeRemaining - 1)
    ensures s.isRunning && s.timeRemaining <= 1 ==> t == End(s)
    ensures t.isRunning ==> t.timeRemaining > 0
  {
    if !s.isRunning then s
    else
      var decremented := s.(timeRemaining := s.timeRemaining - 1);
      if decremented.timeRemaining <= 0 then End(decremented) else decremented
  }

  /** startTimer: refuses a finished or running timer; otherwise schedules the
      repeating tick and ticks once at once, so one second is gone already. */
  function Start(s: TimerState): (t: TimerState)
    ensures s.timeRemaining <= 0 || s.isRunning ==> t == s
    ensures !s.isRunning && s.timeRemaining > 1 ==>
              t == s.(timeRemaining := s.timeRemaining - 1, isRunning := true, intervalActive := true)
    ensures !s.isRunning && s.timeRemaining == 1 ==> t == End(s)
  {
    if s.timeRemaining <= 0 || s.isRunning then s
    else Tick(s.(isRunning := true, intervalActive := true))
  }

  /** The state after the repeating tick has fired n times. */
  function Ticks(s: TimerState, n: nat): TimerState {
    if n == 0 then s else Tick(Ticks(s, n - 1))
  }

  /** Every transition keeps the invariant. */
  lemma InvPreserved(s: TimerState, seconds: int)
    requires Inv(s)
    ensures Inv(SetTime(s, seconds)) && Inv(Start(s)) && Inv(Tick(s))
    ensures Inv(Pause(s)) && Inv(End(s))
  {
  }

  /** Time is left whenever the timer runs. */
  predicate RunningHasTimeLeft(s: TimerState) {
    s.isRunning ==> s.timeRemaining > 0
  }

  /** tick, pauseTimer and endTimer establish that time is left while running, and
      startTimer keeps it; setTime keeps it unless it sets 0 or less on a running
      timer, which breaks it. */
  lemma TimeLeftWhileRunning(s: TimerState, seconds: int)
    ensures RunningHasTimeLeft(Tick(s)) && RunningHasTimeLeft(Pause(s)) && RunningHasTimeLeft(End(s))
    ensures RunningHasTimeLeft(s) ==> RunningHasTimeLeft(Start(s))
    ensures RunningHasTimeLeft(s) && (!s.isRunning || seconds > 0) ==> RunningHasTimeLeft(SetTime(s, seconds))
    ensures s.isRunning && seconds <= 0 ==> !RunningHasTimeLeft(SetTime(s, seconds))
  {
  }

  /** Pausing twice is pausing once. */
  lemma PauseIdempotent(s: TimerState)
    ensures Pause(Pause(s)) == Pause(s)
  {
  }

  /** While seconds remain, each firing of the tick takes exactly one away and
      nothing else changes. */
  lemma {:induction false} CountdownRuns(s: TimerState, k: nat)
    requires s.isRunning && k < s.timeRemaining
    ensures Ticks(s, k) == s.(timeRemaining := s.timeRemaining - k)
  {
    if k > 0 {
      CountdownRuns(s, k - 1);
    }
  }

  /** A running timer with n seconds left ends after exactly n firings, stopped
      at zero with exactly one completion alert. */
  lemma {:induction false} CountdownEndsOnce(s: TimerState)
    requires s.isRunning && s.timeRemaining > 0
    ensures Ticks(s, s.timeRemaining) == End(s)
  {
    CountdownRuns(s, s.timeRemaining - 1);
  }

  /** A stopped timer ignores the tick, however often it fires: after a pause or
      after the end, nothing changes until the timer is started again. */
  lemma {:induction false} StoppedIgnoresTicks(s: TimerState, n: nat)
    requires !s.isRunning
    ensures Ticks(s, n) == s
  {
    if n > 0 {
      StoppedIgnoresTicks(s, n - 1);
    }
  }

  /** Setting a duration of d seconds and starting runs out after d - 1 further
      ticks (start consumed the first second), with one alert; later ticks
      change nothing. */
  lemma SetStartRunsOut(s: TimerState, d: int, later: nat)
    requires Inv(s) && !s.isRunning && 0 < d <= MaxSeconds
    ensures var finished := Ticks(Start(SetTime(s, d)), d - 1);
            finished == s.(totalTime := d, timeRemaining := 0, finishSignals := s.finishSignals + 1) &&
            Ticks(finished, later) == finished
  {
    var started := Start(SetTime(s, d));
    if d > 1 {
      CountdownEndsOnce(started);
    }
    StoppedIgnoresTicks(Ticks(started, d - 1), later);
  }
}
