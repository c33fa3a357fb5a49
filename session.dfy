/**
 The run/pause scheduler of the canvas component as a pure state machine.
 A State holds the component's signals (ready, running status, the two
 configured durations, the remaining seconds), its `let` variables (the
 camera on/off, the force-stop flag, the interval handle) and the set of
 interval handles the environment still fires. Every command and every
 timer tick is a function from State to State; the Canvas class is proved
 against these functions.
 */
module Session {

  /** Default running and pause durations, in seconds. */
  const RunningTime := 60
  const IntervalTime := 20

  /** Bounds of the two range inputs that set the durations. */
  const MinRunningTime := 3
  const MaxRunningTime := 180
  const MinIntervalTime := 0
  const MaxIntervalTime := 600

  /** The `interval` variable: never assigned yet, or the handle the last `setInterval` returned. */
  datatype TimerId = Unset | Id(n: nat)

  /** The handles a TimerId names: none or one. */
  function Handles(t: TimerId): (hs: set<nat>)
    ensures |hs| <= 1
  {
    if t.Id? then {t.n} else {}
  }

  datatype State = State(
    ready: bool,          // a result with landmarks has been seen
    running: bool,        // runningStatus: true while Active, false while Resting
    runningTime: int,     // configured Active duration
    intervalTime: int,    // configured Resting duration
    remaining: int,       // currentRunningTime
    cameraOn: bool,       // the camera was last started rather than stopped
    forceStop: bool,      // the forceStop flag
    interval: TimerId,    // the interval variable
    live: set<nat>,       // handles of intervals that have not been cleared
    nextId: nat)          // the handle the next setInterval returns

  /**
   The timer bookkeeping: only the handle stored in `interval` can be live,
   and every handle handed out is below nextId.
   */
  predicate TimersOk(s: State)
  {
    s.live <= Handles(s.interval) && (s.interval.Id? ==> s.interval.n < s.nextId)
  }

  /**
   The invariant between two events: timers as above, non-negative
   durations, and a remaining time that is never negative (it goes to -1
   only inside a tick, which then resets it).
   */
  predicate Valid(s: State)
  {
    TimersOk(s) && s.runningTime >= 0 && s.intervalTime >= 0 && s.remaining >= 0
  }

  /** At most one interval is ever live. */
  lemma AtMostOneTimer(s: State)
    requires TimersOk(s)
    ensures |s.live| <= 1
  {
    var hs := Handles(s.interval);
    assert |hs| <= 1;
    if s.live != {} {
      var x :| x in s.live;
      assert hs == {x};
      assert s.live == {x};
    }
  }

  /** The component as it is mounted. */
  function Initial(): (s: State)
    ensures Valid(s) && s.live == {}
    ensures !s.ready && !s.running && !s.cameraOn && !s.forceStop && s.remaining == 0
    ensures s.runningTime == RunningTime && s.intervalTime == IntervalTime
  {
    State(false, false, RunningTime, IntervalTime, 0, false, false, Unset, {}, 1)
  }

  /** `clearInterval(interval)`: the stored handle stops firing; the variable keeps its value. */
  function ClearInterval(s: State): (r: State)
    ensures TimersOk(s) ==> TimersOk(r) && r.live == {}
    ensures r == s.(live := r.live)
    ensures r.live <= s.live
  {
    s.(live := s.live - Handles(s.interval))
  }

  /** `interval = setInterval(...)`: a fresh handle starts firing and is stored. */
  function SetInterval(s: State): (r: State)
    requires TimersOk(s)
    ensures s.nextId !in s.live
    ensures r.live == s.live + {s.nextId} && r.interval == Id(s.nextId)
    ensures r == s.(interval := r.interval, live := r.live, nextId := s.nextId + 1)
  {
    s.(interval := Id(s.nextId), live := s.live + {s.nextId}, nextId := s.nextId + 1)
  }

  /** Without the clear, a new interval would run beside a live one. */
  lemma SetIntervalAloneLeaks(s: State)
    requires TimersOk(s) && s.live != {}
    ensures |SetInterval(s).live| == 2
  {
    AtMostOneTimer(s);
    var x :| x in s.live;
    assert s.live == {x};
    assert SetInterval(s).live == {x, s.nextId};
  }

  /** `startTimer`: clear the stored interval, then start a new one; exactly that one is live. */
  function StartTimer(s: State): (r: State)
    requires TimersOk(s)
    ensures TimersOk(r)
    ensures r.live == {s.nextId} && r.interval == Id(s.nextId) && s.nextId !in s.live
    ensures r == s.(interval := r.interval, live := r.live, nextId := s.nextId + 1)
  {
    SetInterval(ClearInterval(s))
  }

  /**
   `startProgram`: clear forceStop, start the camera, reset the remaining
   time to the running duration, become Active and restart the timer.
   */
  function StartProgram(s: State): (r: State)
    requires TimersOk(s)
    ensures TimersOk(r)
    ensures !r.forceStop && r.cameraOn && r.running && r.remaining == s.runningTime
    ensures r.live == {s.nextId} && r.interval == Id(s.nextId) && r.nextId == s.nextId + 1
    ensures r.ready == s.ready && r.runningTime == s.runningTime && r.intervalTime == s.intervalTime
    ensures s.runningTime >= 0 && s.intervalTime >= 0 ==> Valid(r)
  {
    StartTimer(s.(forceStop := false, cameraOn := true, remaining := s.runningTime, running := true))
  }

  /**
   `stopProgram`: stop the camera, reset the remaining time to the pause
   duration, become Resting and restart the timer; forceStop is untouched.
   */
  function StopProgram(s: State): (r: State)
    requires TimersOk(s)
    ensures TimersOk(r)
    ensures !r.cameraOn && !r.running && r.remaining == s.intervalTime && r.forceStop == s.forceStop
    ensures r.live == {s.nextId} && r.interval == Id(s.nextId) && r.nextId == s.nextId + 1
    ensures r.ready == s.ready && r.runningTime == s.runningTime && r.intervalTime == s.intervalTime
    ensures s.runningTime >= 0 && s.intervalTime >= 0 ==> Valid(r)
  {
    StartTimer(s.(cameraOn := false, remaining := s.intervalTime, running := false))
  }

  /**
   `forceStopProgram`: clear the interval, stop the camera, become Resting.
   The remaining time and the forceStop flag are left as they were.
   */
  function ForceStopProgram(s: State): (r: State)
    ensures TimersOk(s) ==> TimersOk(r) && r.live == {}
    ensures !r.cameraOn && !r.running
    ensures r == s.(live := r.live, cameraOn := false, running := false)
    ensures Valid(s) ==> Valid(r)
  {
    ClearInterval(s).(cameraOn := false, running := false)
  }

  /** Stopping twice is the same as stopping once. */
  lemma ForceStopIdempotent(s: State)
    ensures ForceStopProgram(ForceStopProgram(s)) == ForceStopProgram(s)
  {
    assert ForceStopProgram(s).live - Handles(s.interval) == ForceStopProgram(s).live;
  }

  /**
   The transition effect: once the remaining time is negative, clear the
   interval and switch phase, Active to Resting or Resting to Active.
   */
  function Effect(s: State): (r: State)
    requires TimersOk(s)
    ensures TimersOk(r)
    ensures s.remaining >= 0 ==> r == s
    ensures s.remaining < 0 && s.running ==> r == StopProgram(ClearInterval(s))
    ensures s.remaining < 0 && !s.running ==> r == StartProgram(ClearInterval(s))
  {
    if s.remaining < 0 then
      var c := ClearInterval(s);
      if c.running then StopProgram(c) else StartProgram(c)
    else s
  }

  /**
   The interval callback fired by handle h, followed by the effect it
   triggers. A cleared handle never fires. A live one clears itself if
   forceStop is set; otherwise the remaining time drops by one second
   (`Math.round(x - 0.6)` is `x - 1` on integers) and the effect runs.
   */
  function Tick(s: State, h: nat): (r: State)
    requires TimersOk(s)
    ensures TimersOk(r)
    ensures Valid(s) ==> Valid(r)
    ensures h !in s.live ==> r == s
    ensures h in s.live && s.forceStop ==> r == s.(live := {})
    ensures h in s.live && !s.forceStop && s.remaining > 0 ==>
      r == s.(remaining := s.remaining - 1)
    ensures h in s.live && !s.forceStop && s.remaining == 0 && s.running ==>
      && !r.running && !r.cameraOn && r.remaining == s.intervalTime && !r.forceStop
      && r.live == {s.nextId} && r.interval == Id(s.nextId) && r.nextId == s.nextId + 1
      && r.ready == s.ready && r.runningTime == s.runningTime && r.intervalTime == s.intervalTime
    ensures h in s.live && !s.forceStop && s.remaining == 0 && !s.running ==>
      && r.running && r.cameraOn && r.remaining == s.runningTime && !r.forceStop
      && r.live == {s.nextId} && r.interval == Id(s.nextId) && r.nextId == s.nextId + 1
      && r.ready == s.ready && r.runningTime == s.runningTime && r.intervalTime == s.intervalTime
  {
    if h !in s.live then s
    else if s.forceStop then ClearInterval(s)
    else Effect(s.(remaining := s.remaining - 1))
  }

  /** `init`: mark the camera as ready; once ready, it stays so. */
  function Init(s: State): (r: State)
    ensures r.ready
    ensures r == s.(ready := true)
  {
    if !s.ready then s.(ready := true) else s
  }

  /**
   The state part of `onResults`: a result without landmarks returns at
   once; one with landmarks calls `init`.
   */
  function OnResults(s: State, hasLandmarks: bool): (r: State)
    ensures r.ready == (s.ready || hasLandmarks)
    ensures r == s.(ready := r.ready)
  {
    if !hasLandmarks then s else Init(s)
  }

  /** The running-time slider's `onChange`. */
  function SetRunningTime(s: State, seconds: int): (r: State)
    requires MinRunningTime <= seconds <= MaxRunningTime
    ensures Valid(s) ==> Valid(r)
    ensures r == s.(runningTime := seconds)
  {
    s.(runningTime := seconds)
  }

  /** The pause-interval slider's `onChange`. */
  function SetIntervalTime(s: State, seconds: int): (r: State)
    requires MinIntervalTime <= seconds <= MaxIntervalTime
    ensures Valid(s) ==> Valid(r)
    ensures r == s.(intervalTime := seconds)
  {
    s.(intervalTime := seconds)
  }

  /** One firing of the live interval, if there is one: the passing of one 600 ms quantum. */
  function Quantum(s: State): (r: State)
    requires TimersOk(s)
    ensures TimersOk(r) && (Valid(s) ==> Valid(r))
  {
    if s.interval.Id? then Tick(s, s.interval.n) else s
  }

  /** n quanta of time passing. */
  function Advance(s: State, n: nat): (r: State)
    requires TimersOk(s)
    ensures TimersOk(r) && (Valid(s) ==> Valid(r))
    ensures r.ready == s.ready && r.runningTime == s.runningTime && r.intervalTime == s.intervalTime
    decreases n
  {
    if n == 0 then s else Advance(Quantum(s), n - 1)
  }

  lemma {:induction false} AdvanceAdd(s: State, m: nat, n: nat)
    requires TimersOk(s)
    ensures Advance(s, m + n) == Advance(Advance(s, m), n)
    decreases m
  {
    if m > 0 {
      AdvanceAdd(Quantum(s), m - 1, n);
    }
  }

  /** A state with one live interval, stored in `interval`, and forceStop clear. */
  predicate Ticking(s: State)
  {
    Valid(s) && !s.forceStop && s.interval.Id? && s.live == {s.interval.n}
  }

  /** While time remains, each quantum takes exactly one second off and changes nothing else. */
  lemma {:induction false} Countdown(s: State, k: nat)
    requires Ticking(s) && k <= s.remaining
    ensures Advance(s, k) == s.(remaining := s.remaining - k)
    decreases k
  {
    if k > 0 {
      var t := Quantum(s);
      assert t == s.(remaining := s.remaining - 1);
      Countdown(t, k - 1);
      assert t.(remaining := t.remaining - (k - 1)) == s.(remaining := s.remaining - k);
    }
  }

  /**
   An Active phase started by `startProgram` lasts exactly runningTime + 1
   quanta: for the first runningTime of them the component stays Active
   with the remaining time counting down, and the next one leaves it exactly
   where `stopProgram` would: Resting, camera off, the pause duration
   remaining and one new interval live.
   */
  lemma ActivePhase(s: State, k: nat)
    requires TimersOk(s) && s.runningTime >= 0 && s.intervalTime >= 0 && k <= s.runningTime
    ensures var a := StartProgram(s);
      var b := Advance(a, k);
      b.running && b.cameraOn && b.remaining == s.runningTime - k && b.live == a.live
    ensures var a := StartProgram(s);
      var r := Advance(a, s.runningTime + 1);
      && r == StopProgram(a)
      && !r.running && !r.cameraOn && !r.forceStop && r.remaining == s.intervalTime
      && r.live == {a.nextId} && r.interval == Id(a.nextId)
  {
    var a := StartProgram(s);
    Countdown(a, k);
    Countdown(a, s.runningTime);
    AdvanceAdd(a, s.runningTime, 1);
  }

  /**
   A Resting phase started by `stopProgram` (with forceStop clear) lasts
   exactly intervalTime + 1 quanta and ends exactly where `startProgram`
   would.
   */
  lemma RestingPhase(s: State, k: nat)
    requires TimersOk(s) && s.runningTime >= 0 && s.intervalTime >= 0
    requires !s.forceStop && k <= s.intervalTime
    ensures var a := StopProgram(s);
      var b := Advance(a, k);
      !b.running && !b.cameraOn && b.remaining == s.intervalTime - k && b.live == a.live
    ensures var a := StopProgram(s);
      var r := Advance(a, s.intervalTime + 1);
      && r == StartProgram(a)
      && r.running && r.cameraOn && !r.forceStop && r.remaining == s.runningTime
      && r.live == {a.nextId} && r.interval == Id(a.nextId)
  {
    var a := StopProgram(s);
    Countdown(a, k);
    Countdown(a, s.intervalTime);
    AdvanceAdd(a, s.intervalTime, 1);
  }

  /**
   The phases alternate exactly: runningTime + 1 quanta Active, then
   intervalTime + 1 quanta Resting, then Active again with the full running
   time, exactly as after `stopProgram` followed by `startProgram`.
   */
  lemma Cycle(s: State)
    requires TimersOk(s) && s.runningTime >= 0 && s.intervalTime >= 0
    ensures var a := StartProgram(s);
      var r := Advance(a, s.runningTime + 1 + s.intervalTime + 1);
      && r == StartProgram(StopProgram(a))
      && r.running && r.cameraOn && r.remaining == s.runningTime && |r.live| == 1
  {
    var a := StartProgram(s);
    ActivePhase(s, 0);
    RestingPhase(a, 0);
    AdvanceAdd(a, s.runningTime + 1, s.intervalTime + 1);
  }

  /**
   After `forceStopProgram` no interval is live, so no amount of time
   passing and no firing of any handle changes anything, until
   `startProgram` runs again.
   */
  lemma {:induction false} ForceStopQuiesces(s: State, handles: seq<nat>)
    requires TimersOk(s)
    ensures FireAll(ForceStopProgram(s), handles) == ForceStopProgram(s)
    decreases |handles|
  {
    if handles != [] {
      ForceStopQuiesces(s, handles[1..]);
    }
  }

  /** The ticks of a sequence of handles, in order. */
  function FireAll(s: State, handles: seq<nat>): (r: State)
    requires TimersOk(s)
    ensures TimersOk(r)
    decreases |handles|
  {
    if handles == [] then s else FireAll(Tick(s, handles[0]), handles[1..])
  }

  /** The same, for time passing. */
  lemma {:induction false} ForceStopHolds(s: State, n: nat)
    requires TimersOk(s)
    ensures Advance(ForceStopProgram(s), n) == ForceStopProgram(s)
    decreases n
  {
    if n > 0 {
      ForceStopHolds(s, n - 1);
    }
  }

  /** What happens to the component: a command, a timer firing, a detector result or a slider move. */
  datatype Event =
    | Start
    | Stop
    | Fire(handle: nat)
    | Results(hasLandmarks: bool)
    | RunningSlider(seconds: int)
    | PauseSlider(seconds: int)

  /** Events the environment can produce: the sliders stay within their bounds. */
  predicate Possible(e: Event)
  {
    match e
    case RunningSlider(v) => MinRunningTime <= v <= MaxRunningTime
    case PauseSlider(v) => MinIntervalTime <= v <= MaxIntervalTime
    case _ => true
  }

  function Step(s: State, e: Event): (r: State)
    requires Valid(s) && Possible(e)
    ensures Valid(r)
    ensures r.ready == (s.ready || e == Results(true))
    ensures !s.forceStop ==> !r.forceStop
  {
    match e
    case Start => StartProgram(s)
    case Stop => ForceStopProgram(s)
    case Fire(h) => Tick(s, h)
    case Results(b) => OnResults(s, b)
    case RunningSlider(v) => SetRunningTime(s, v)
    case PauseSlider(v) => SetIntervalTime(s, v)
  }

  /** The state after a sequence of events. */
  function Run(s: State, es: seq<Event>): (r: State)
    requires Valid(s) && forall i :: 0 <= i < |es| ==> Possible(es[i])
    ensures Valid(r)
    decreases |es|
  {
    if es == [] then s else Run(Step(s, es[0]), es[1..])
  }

  /**
   `ready` is one-way: it holds after a run exactly when it held before or
   some result in the run carried landmarks.
   */
  lemma {:induction false} ReadyMonotone(s: State, es: seq<Event>)
    requires Valid(s) && forall i :: 0 <= i < |es| ==> Possible(es[i])
    ensures Run(s, es).ready == (s.ready || exists i :: 0 <= i < |es| && es[i] == Results(true))
    decreases |es|
  {
    if es != [] {
      ReadyMonotone(Step(s, es[0]), es[1..]);
      assert forall i :: 0 <= i < |es| - 1 ==> es[1..][i] == es[i + 1];
    }
  }

  /**
   Nothing sets forceStop: from the mounted component, after any events it
   is still false, so the forceStop branch of the tick never runs.
   */
  lemma {:induction false} ForceStopNeverSet(s: State, es: seq<Event>)
    requires Valid(s) && !s.forceStop && forall i :: 0 <= i < |es| ==> Possible(es[i])
    ensures !Run(s, es).forceStop
    decreases |es|
  {
    if es != [] {
      ForceStopNeverSet(Step(s, es[0]), es[1..]);
    }
  }

  /** Whatever the user and the environment do, at most one interval is live. */
  lemma OneTimerAlways(es: seq<Event>)
    requires forall i :: 0 <= i < |es| ==> Possible(es[i])
    ensures |Run(Initial(), es).live| <= 1
    ensures !Run(Initial(), es).forceStop
  {
    AtMostOneTimer(Run(Initial(), es));
    ForceStopNeverSet(Initial(), es);
  }

  /** Stopped: no interval live, Resting, camera off. */
  predicate Stopped(s: State)
  {
    s.live == {} && !s.running && !s.cameraOn
  }

  /**
   Once stopped, nothing but `startProgram` restarts the component: after
   any events other than Start (stops, firings of any handle, detector
   results, slider moves) it is still stopped with the same remaining time.
   */
  lemma {:induction false} StoppedUntilStart(s: State, es: seq<Event>)
    requires Valid(s) && Stopped(s)
    requires forall i :: 0 <= i < |es| ==> Possible(es[i]) && es[i] != Start
    ensures Stopped(Run(s, es)) && Run(s, es).remaining == s.remaining
    decreases |es|
  {
    if es != [] {
      var t := Step(s, es[0]);
      assert Stopped(t) && t.remaining == s.remaining;
      assert forall i :: 0 <= i < |es| - 1 ==> es[1..][i] == es[i + 1];
      StoppedUntilStart(t, es[1..]);
    }
  }

  /**
   After `forceStopProgram`, whatever happens short of another Start leaves
   the component stopped, with the count where the stop left it.
   */
  lemma ForceStopUntilStart(s: State, es: seq<Event>)
    requires Valid(s)
    requires forall i :: 0 <= i < |es| ==> Possible(es[i]) && es[i] != Start
    ensures var r := Run(ForceStopProgram(s), es);
      r.live == {} && !r.running && !r.cameraOn && r.remaining == s.remaining
  {
    StoppedUntilStart(ForceStopProgram(s), es);
  }
}
