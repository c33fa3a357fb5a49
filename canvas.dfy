/**
 The canvas component as an object: its signals and `let` variables are
 fields, and its closures (`init`, `startTimer`, `startProgram`,
 `stopProgram`, `forceStopProgram`, the interval callback with the effect it
 triggers, `onResults` and the two slider handlers) are methods that update
 them in place. Each method is proved to leave the object in exactly the
 state the matching function of the Session module computes, so every
 property proved there holds of the object.
 */
module CanvasComponent {
  import Session
  import Landmarks
  import Overlay

  class Canvas {
    var ready: bool
    var runningStatus: bool
    var runningTime: int
    var intervalTime: int
    var currentRunningTime: int
    var cameraOn: bool
    var forceStop: bool
    var interval: Session.TimerId
    var live: set<nat>
    var nextId: nat

    /** The fields viewed as a scheduler state. */
    function State(): Session.State
      reads this
    {
      Session.State(ready, runningStatus, runningTime, intervalTime, currentRunningTime,
        cameraOn, forceStop, interval, live, nextId)
    }

    predicate Valid()
      reads this
    {
      Session.Valid(State())
    }

    /** The component as it is mounted: not ready, Resting, nothing remaining, no interval. */
    constructor ()
      ensures Valid() && State() == Session.Initial()
    {
      ready := false;
      runningStatus := false;
      runningTime := Session.RunningTime;
      intervalTime := Session.IntervalTime;
      currentRunningTime := 0;
      cameraOn := false;
      forceStop := false;
      interval := Session.Unset;
      live := {};
      nextId := 1;
    }

    method ClearInterval()
      modifies this
      ensures State() == Session.ClearInterval(old(State()))
    {
      if interval.Id? {
        live := live - {interval.n};
      }
    }

    method SetInterval()
      requires Session.TimersOk(State())
      modifies this
      ensures State() == Session.SetInterval(old(State()))
    {
      interval := Session.Id(nextId);
      live := live + {nextId};
      nextId := nextId + 1;
    }

    method StartTimer()
      requires Session.TimersOk(State())
      modifies this
      ensures State() == Session.StartTimer(old(State()))
    {
      ClearInterval();
      SetInterval();
    }

    method StartProgram()
      requires Session.TimersOk(State()) && runningTime >= 0 && intervalTime >= 0
      modifies this
      ensures Valid() && State() == Session.StartProgram(old(State()))
    {
      ghost var s := State();
      forceStop := false;
      cameraOn := true;
      currentRunningTime := runningTime;
      runningStatus := true;
      ghost var mid := s.(forceStop := false, cameraOn := true, remaining := s.runningTime, running := true);
      assert State() == mid;
      StartTimer();
      assert State() == Session.StartTimer(mid);
    }

    /** Called only from the effect, where the remaining time is negative. */
    method StopProgram()
      requires Session.TimersOk(State()) && runningTime >= 0 && intervalTime >= 0
      modifies this
      ensures Valid() && State() == Session.StopProgram(old(State()))
    {
      ghost var s := State();
      cameraOn := false;
      currentRunningTime := intervalTime;
      runningStatus := false;
      ghost var mid := s.(cameraOn := false, remaining := s.intervalTime, running := false);
      assert State() == mid;
      StartTimer();
      assert State() == Session.StartTimer(mid);
    }

    method ForceStopProgram()
      requires Valid()
      modifies this
      ensures Valid() && live == {}
      ensures State() == Session.ForceStopProgram(old(State()))
    {
      ClearInterval();
      cameraOn := false;
      runningStatus := false;
    }

    /** The transition effect, run after the remaining time changes. */
    method Effect()
      requires Session.TimersOk(State()) && runningTime >= 0 && intervalTime >= 0
      modifies this
      ensures Valid() && State() == Session.Effect(old(State()))
    {
      if currentRunningTime < 0 {
        ClearInterval();
        if runningStatus {
          StopProgram();
        } else {
          StartProgram();
        }
      }
    }

    /** The interval callback of handle h, and the effect its update triggers. */
    method Tick(h: nat)
      requires Valid()
      modifies this
      ensures Valid() && State() == Session.Tick(old(State()), h)
    {
      if h !in live {
        return;
      }
      if forceStop {
        ClearInterval();
        return;
      }
      currentRunningTime := currentRunningTime - 1;
      Effect();
    }

    method Init()
      modifies this
      ensures State() == Session.Init(old(State()))
    {
      if !ready {
        ready := true;
      }
    }

    /**
     `onResults` for one detector result on a canvas of the given size:
     returns the drawing operations it issues, in order.
     */
    method OnResults(hasLandmarks: bool, width: nat, height: nat) returns (ops: seq<Overlay.DrawOp>)
      requires Valid()
      modifies this
      ensures Valid() && State() == Session.OnResults(old(State()), hasLandmarks)
      ensures ops == Overlay.Render(width, height, hasLandmarks)
    {
      if !hasLandmarks {
        return [];
      }
      Init();
      ops := [Overlay.Save, Overlay.ClearRect(width, height)];
      ops := ops + [Overlay.SetComposite(Overlay.SourceIn), Overlay.FillRect(width, height)];
      ops := ops + [Overlay.SetComposite(Overlay.DestinationAtop), Overlay.DrawImage(width, height)];
      ops := ops + [Overlay.SetComposite(Overlay.SourceOver)];
      ops := ops + [Overlay.DrawConnectors(Landmarks.Bones, Overlay.BoneStyle)];
      ops := ops + [Overlay.DrawLandmarks(Landmarks.Joints, Overlay.JointStyle)];
      ops := ops + [Overlay.DrawFlatConnectors(Landmarks.ReferenceLine, Overlay.ReferenceStyle)];
      ops := ops + [Overlay.Restore];
    }

    method SetRunningTime(seconds: int)
      requires Valid() && Session.MinRunningTime <= seconds <= Session.MaxRunningTime
      modifies this
      ensures Valid() && State() == Session.SetRunningTime(old(State()), seconds)
    {
      runningTime := seconds;
    }

    method SetIntervalTime(seconds: int)
      requires Valid() && Session.MinIntervalTime <= seconds <= Session.MaxIntervalTime
      modifies this
      ensures Valid() && State() == Session.SetIntervalTime(old(State()), seconds)
    {
      intervalTime := seconds;
    }
  }
}
