/**
 * The one-tick rover controller of decision.py as a pure transition
 * function. The Rover record is split into what `decision_step` only reads
 * (`Inputs`: telemetry, perception arrays, configuration) and what it
 * writes (`Control`: commands and controller memory).
 *
 * Angles are in degrees: the source multiplies every radian array by
 * 180/pi before it averages it, and the model takes that conversion as
 * already done. `None` stands both for Python's `None` and for NumPy's NaN.
 */
module Decision {
  import opened Wrappers
  import opened Numerics

  datatype Mode = Forward | Pickle | Azimuth | Sample

  datatype Inputs = Inputs(
    // telemetry
    vel: real,
    yaw: real,
    totalTime: real,
    nearSample: bool,
    pickingUp: bool,
    // perception outputs (angles in degrees, distances in pixels)
    navAngles: Option<seq<real>>,
    navDists: seq<real>,
    walAngles: seq<real>,
    walDists: seq<real>,
    tgtAngles: seq<real>,
    colAngles: seq<real>,
    // configuration
    stopForward: int,
    goForward: int,
    throttleSet: real,
    stoppedTimeLimit: real)

  datatype Control = Control(
    mode: Mode,
    // commands
    steer: real,
    throttle: real,
    brake: real,
    brakeSet: real,
    maxVel: real,
    sendPickup: bool,
    // controller memory
    stoppedTime: Option<real>,
    stoppedAngle: Option<real>,
    tgtAngle: Option<real>,
    bstNav: int,
    bstAngle: real,
    sampleDetected: bool,
    pickedUp: bool)

  /** Python truthiness of a number that may be `None`: both `None` and `0` read as unset. */
  predicate IsSet(t: Option<real>)
  {
    t.Some? && t.value != 0.0
  }

  /** Collision pixel count above which `collision_adj` acts. */
  const CollisionMinPixels: int := 40

  /**
   * `collision_adj`: with more than 40 collision angles, steer away from
   * their mean (forced to 15 degrees when it is within 1 degree of straight
   * ahead) by mean * count / 200, clipped to [-15, 15].
   */
  function CollisionAdj(steer: real, cAngles: seq<real>): (r: real)
    ensures |cAngles| <= CollisionMinPixels ==> r == steer
    ensures |cAngles| > CollisionMinPixels ==> -15.0 <= r <= 15.0
    ensures |cAngles| > CollisionMinPixels ==> r == Clip(steer - Correction(cAngles), -15.0, 15.0)
  {
    if |cAngles| > CollisionMinPixels then Clip(steer - Correction(cAngles), -15.0, 15.0) else steer
  }

  /** The steering correction: the avoidance angle scaled by the collision pixel count over 200. */
  function Correction(cAngles: seq<real>): real
    requires |cAngles| > 0
  {
    AvoidAngle(cAngles) * (|cAngles| as real) / 200.0
  }

  /** The mean collision angle, replaced by 15 when it is within 1 degree of dead ahead. */
  function AvoidAngle(cAngles: seq<real>): (m: real)
    requires |cAngles| > 0
    ensures Abs(Mean(cAngles)) < 1.0 ==> m == 15.0
    ensures Abs(Mean(cAngles)) >= 1.0 ==> m == Mean(cAngles)
    ensures Abs(m) >= 1.0
  {
    var m := Mean(cAngles);
    if Abs(m) < 1.0 then 15.0 else m
  }

  /** The adjustment always turns away from the side the obstacle pixels are on. */
  lemma CollisionAdjTurnsAway(steer: real, cAngles: seq<real>)
    requires |cAngles| > CollisionMinPixels
    requires -15.0 <= steer <= 15.0
    ensures AvoidAngle(cAngles) > 0.0 ==> CollisionAdj(steer, cAngles) <= steer
    ensures AvoidAngle(cAngles) < 0.0 ==> CollisionAdj(steer, cAngles) >= steer
  {
    var m, n := AvoidAngle(cAngles), |cAngles| as real;
    assert n > 0.0;
    if m > 0.0 {
      assert m * n > 0.0;
      assert Correction(cAngles) > 0.0;
    } else if m < 0.0 {
      assert m * n < 0.0;
      assert Correction(cAngles) < 0.0;
    }
  }

  /** Obstacle pixels all at least 1 degree to the left never steer the rover further left; all to the right, never further right. */
  lemma CollisionAdjAvoidsObstacleSide(steer: real, cAngles: seq<real>)
    requires |cAngles| > CollisionMinPixels
    requires -15.0 <= steer <= 15.0
    ensures (forall k :: 0 <= k < |cAngles| ==> 1.0 <= cAngles[k] <= 180.0) ==> CollisionAdj(steer, cAngles) <= steer
    ensures (forall k :: 0 <= k < |cAngles| ==> -180.0 <= cAngles[k] <= -1.0) ==> CollisionAdj(steer, cAngles) >= steer
  {
    if forall k :: 0 <= k < |cAngles| ==> 1.0 <= cAngles[k] <= 180.0 {
      MeanBounded(cAngles, 1.0, 180.0);
    }
    if forall k :: 0 <= k < |cAngles| ==> -180.0 <= cAngles[k] <= -1.0 {
      MeanBounded(cAngles, -180.0, -1.0);
    }
    CollisionAdjTurnsAway(steer, cAngles);
  }

  /** 50 collision pixels whose mean is 0.5 degree: the 15 degree fallback costs 3.75 degrees of steer. */
  lemma CollisionAdjSymmetricObstacle(steer: real, cAngles: seq<real>)
    requires |cAngles| == 50 && Mean(cAngles) == 0.5
    ensures CollisionAdj(steer, cAngles) == Clip(steer - 3.75, -15.0, 15.0)
  {
    assert AvoidAngle(cAngles) == 15.0;
  }

  // ---------------------------------------------------------------------
  // Stuck detection (`pickle`)

  /** The stuck timer fires on this call. */
  predicate TimerFires(i: Inputs, c: Control, timeLimit: real)
  {
    i.vel < 0.1 && IsSet(c.stoppedTime) && i.totalTime - c.stoppedTime.value >= timeLimit
  }

  /**
   * `pickle(Rover, time_limit)`: below 0.1 velocity start the timer, or
   * switch to pickle mode once `time_limit` has elapsed; above it clear the
   * timer.
   */
  function StuckTimer(i: Inputs, c: Control, timeLimit: real): (c': Control)
    ensures c' == c.(mode := c'.mode, stoppedTime := c'.stoppedTime)
    ensures c'.mode == (if TimerFires(i, c, timeLimit) then Pickle else c.mode)
    ensures i.vel >= 0.1 ==> c'.stoppedTime == None
    ensures i.vel < 0.1 && !IsSet(c.stoppedTime) ==> c'.stoppedTime == Some(i.totalTime)
    ensures TimerFires(i, c, timeLimit) ==> c'.stoppedTime == None
    ensures i.vel < 0.1 && IsSet(c.stoppedTime) && !TimerFires(i, c, timeLimit) ==> c' == c
  {
    if i.vel < 0.1 then
      if IsSet(c.stoppedTime) then
        if i.totalTime - c.stoppedTime.value >= timeLimit then
          c.(mode := Pickle, stoppedTime := None)
        else
          c
      else
        c.(stoppedTime := Some(i.totalTime))
    else
      c.(stoppedTime := None)
  }

  /** Calls the stuck timer once per mission time in `times`, every other input held fixed. */
  function StuckRun(i: Inputs, c: Control, timeLimit: real, times: seq<real>): (c': Control)
    ensures c' == c.(mode := c'.mode, stoppedTime := c'.stoppedTime)
    ensures c.mode == Pickle ==> c'.mode == Pickle
    ensures c'.mode == c.mode || c'.mode == Pickle
    decreases |times|
  {
    if times == [] then c
    else StuckTimer(i.(totalTime := times[|times| - 1]), StuckRun(i, c, timeLimit, times[..|times| - 1]), timeLimit)
  }

  /**
   * Held stopped from the mission time `times[0]` on, the rover is in pickle
   * mode after the ticks `times` exactly when some later tick came at least
   * `timeLimit` after the first one; until then the timer still holds `times[0]`.
   */
  lemma {:induction false} StuckRunFiresAtLimit(i: Inputs, c: Control, timeLimit: real, times: seq<real>)
    requires i.vel < 0.1 && c.mode != Pickle && !IsSet(c.stoppedTime)
    requires |times| > 0 && times[0] != 0.0
    ensures var c' := StuckRun(i, c, timeLimit, times);
            (c'.mode == Pickle <==> exists j :: 1 <= j < |times| && times[j] - times[0] >= timeLimit)
    ensures var c' := StuckRun(i, c, timeLimit, times);
            c'.mode != Pickle ==> c'.stoppedTime == Some(times[0])
    decreases |times|
  {
    var n := |times|;
    if n == 1 {
      assert StuckRun(i, c, timeLimit, times[..0]) == c;
    } else {
      var pre := times[..n - 1];
      assert pre[0] == times[0];
      StuckRunFiresAtLimit(i, c, timeLimit, pre);
      var before := StuckRun(i, c, timeLimit, pre);
      var c' := StuckRun(i, c, timeLimit, times);
      assert c' == StuckTimer(i.(totalTime := times[n - 1]), before, timeLimit);
      if before.mode == Pickle {
        var j :| 1 <= j < |pre| && pre[j] - pre[0] >= timeLimit;
        assert times[j] == pre[j];
      } else if c'.mode == Pickle {
        assert times[n - 1] - times[0] >= timeLimit;
      } else {
        forall j | 1 <= j < n
          ensures times[j] - times[0] < timeLimit
        {
          if j < n - 1 {
            assert times[j] == pre[j];
          }
        }
      }
    }
  }

  /** A rover that stops at mission time 0 records 0, which reads as unset: the next tick restarts the timer. */
  lemma StuckTimerRestartsAtTimeZero(i: Inputs, c: Control, timeLimit: real, later: real)
    requires i.vel < 0.1 && !IsSet(c.stoppedTime) && i.totalTime == 0.0
    ensures StuckTimer(i, c, timeLimit).stoppedTime == Some(0.0)
    ensures StuckTimer(i.(totalTime := later), StuckTimer(i, c, timeLimit), timeLimit).stoppedTime == Some(later)
    ensures StuckTimer(i.(totalTime := later), StuckTimer(i, c, timeLimit), timeLimit).mode == c.mode
  {
  }

  // ---------------------------------------------------------------------
  // Pickle mode: the recovery sweep

  /** The sweep's target after forcing a minimum turn when its net rotation is small. */
  function ExitTarget(best: real, stopped: real): (t: real)
    ensures var d := best - stopped;
            (d < -352.0 || (0.0 < d < 10.0)) ==> t == Mod360(best + 20.0)
    ensures var d := best - stopped;
            !(d < -352.0 || (0.0 < d < 10.0)) ==> t == best
  {
    var delta := best - stopped;
    if delta < -352.0 || (delta < 10.0 && delta > 0.0) then Mod360(best + 20.0) else best
  }

  /**
   * For headings in [0, 360): when the forcing applies, the net left turn
   * from the start of the sweep becomes between 20 and 30 degrees, and it
   * applies to every sweep whose net left turn is below 8 degrees (but not 0).
   */
  lemma ExitTargetForcesMinimumTurn(best: real, stopped: real)
    requires 0.0 <= best < 360.0 && 0.0 <= stopped < 360.0
    ensures var d := best - stopped;
            (d < -352.0 || (0.0 < d < 10.0)) ==> 20.0 < Mod360(ExitTarget(best, stopped) - stopped) < 30.0
    ensures 0.0 < Mod360(best - stopped) < 8.0 ==> ExitTarget(best, stopped) == Mod360(best + 20.0)
    ensures var d := best - stopped;
            ExitTarget(best, stopped) != best <==> (0.0 < Mod360(d) < 8.0 || 8.0 <= d < 10.0)
  {
    var d := best - stopped;
    var t := ExitTarget(best, stopped);
    if d < -352.0 {
      assert best + 20.0 < 360.0;
      assert t == best + 20.0;
      assert Mod360(t - stopped) == t - stopped + 360.0;
    } else if 0.0 < d < 10.0 {
      if best + 20.0 < 360.0 {
        assert t == best + 20.0;
        assert Mod360(t - stopped) == t - stopped;
      } else {
        assert t == best + 20.0 - 360.0;
        assert Mod360(t - stopped) == t - stopped + 360.0;
      }
    }
    if d < 0.0 {
      assert Mod360(d) == d + 360.0;
    } else {
      assert Mod360(d) == d;
    }
  }

  /** A sweep whose best heading is its start heading is not pushed: the rover turns back to where it stopped. */
  lemma ExitTargetSkipsZeroTurn(heading: real)
    requires 0.0 <= heading < 360.0
    ensures ExitTarget(heading, heading) == heading
  {
  }

  /** One sweep tick: steer left, track the best heading, and leave for azimuth mode within 5 degrees of the target. */
  function Sweep(i: Inputs, c: Control): (c': Control)
    requires c.mode == Pickle && i.navAngles.Some?
    ensures c'.steer == 15.0
    ensures c'.mode == Pickle || c'.mode == Azimuth
    ensures c'.mode == Azimuth <==> c.tgtAngle.Some? && Abs(c.tgtAngle.value - i.yaw) < 5.0
    ensures c'.mode == Azimuth ==> c'.stoppedAngle == None && c'.bstNav == 0
  {
    var c2 := SweepTrack(i, c);
    if c2.tgtAngle.Some? && Abs(c2.tgtAngle.value - i.yaw) < 5.0 then SweepExit(i, c2) else c2
  }

  /** Steer left, and remember the heading with the most navigable pixels seen so far. */
  function SweepTrack(i: Inputs, c: Control): (c': Control)
    requires i.navAngles.Some?
    ensures c'.steer == 15.0
    ensures c'.bstNav >= c.bstNav && c'.bstNav >= |i.navAngles.value|
    ensures c'.bstAngle == (if |i.navAngles.value| > c.bstNav then i.yaw else c.bstAngle)
    ensures c' == c.(steer := 15.0, bstNav := c'.bstNav, bstAngle := c'.bstAngle)
  {
    var n := |i.navAngles.value|;
    var c1 := c.(steer := 15.0);
    if n > c1.bstNav then c1.(bstNav := n, bstAngle := i.yaw) else c1
  }

  /** Leave the sweep for azimuth mode, aiming at the best heading. */
  function SweepExit(i: Inputs, c: Control): (c': Control)
    ensures c'.mode == Azimuth && c'.stoppedAngle == None && c'.bstNav == 0
    ensures c.stoppedAngle.Some? ==> c'.tgtAngle == Some(ExitTarget(c.bstAngle, c.stoppedAngle.value))
    ensures c' == c.(tgtAngle := c'.tgtAngle, bstNav := 0, stoppedAngle := None, mode := Azimuth)
  {
    // the sweep is only reached with stopped_angle set
    var stopped := if c.stoppedAngle.Some? then c.stoppedAngle.value else 0.0;
    c.(tgtAngle := Some(ExitTarget(c.bstAngle, stopped)), bstNav := 0, stoppedAngle := None, mode := Azimuth)
  }

  /** What one sweep tick leaves behind, in both of its outcomes. */
  lemma SweepOutcome(i: Inputs, c: Control)
    requires c.mode == Pickle && i.navAngles.Some?
    ensures var n := |i.navAngles.value|;
            Sweep(i, c).mode == Pickle ==>
              Sweep(i, c) == c.(steer := 15.0,
                                bstNav := if n > c.bstNav then n else c.bstNav,
                                bstAngle := if n > c.bstNav then i.yaw else c.bstAngle)
    ensures var n := |i.navAngles.value|;
            var best := if n > c.bstNav then i.yaw else c.bstAngle;
            Sweep(i, c).mode == Azimuth && c.stoppedAngle.Some? ==>
              Sweep(i, c) == c.(steer := 15.0, bstNav := 0, bstAngle := best, stoppedAngle := None,
                                tgtAngle := Some(ExitTarget(best, c.stoppedAngle.value)), mode := Azimuth)
  {
  }

  /** The rover is still moving or still throttling, as pickle mode tests it. */
  predicate PickleMoving(i: Inputs, c: Control)
  {
    i.vel > 0.1 || c.throttle > 0.0
  }

  /** The pickle-mode handler: its guards run in order and each return keeps pickle mode. */
  function PickleStep(i: Inputs, c: Control): (c': Control)
    requires c.mode == Pickle
    ensures c'.mode == Pickle || c'.mode == Azimuth
    ensures i.navAngles.None? ==> c' == c.(steer := 15.0, throttle := 0.0)
    ensures i.navAngles.Some? && PickleMoving(i, c) ==> c' == c.(throttle := 0.0, brake := c.brakeSet)
    ensures i.navAngles.Some? && !PickleMoving(i, c) && c.brake != 0.0 ==> c' == c.(brake := 0.0)
    ensures i.navAngles.Some? && !PickleMoving(i, c) && c.brake == 0.0 && !IsSet(c.stoppedAngle) ==>
              var t := Mod360(i.yaw + 45.0);
              c' == c.(stoppedAngle := Some(i.yaw), tgtAngle := Some(t), bstNav := i.goForward, bstAngle := t)
    ensures i.navAngles.Some? && !PickleMoving(i, c) && c.brake == 0.0 && IsSet(c.stoppedAngle) ==>
              c' == Sweep(i, c)
    ensures c'.mode == Azimuth ==> c'.stoppedAngle == None && c'.bstNav == 0
  {
    if i.navAngles.None? then c.(steer := 15.0, throttle := 0.0) else PickleSettle(i, c)
  }

  /** Pickle mode with navigable angles: brake to rest, release the brake, then start or continue the sweep. */
  function PickleSettle(i: Inputs, c: Control): (c': Control)
    requires c.mode == Pickle && i.navAngles.Some?
    ensures c'.mode == Pickle || c'.mode == Azimuth
    ensures c'.brake == (if PickleMoving(i, c) then c.brakeSet else 0.0)
    ensures c'.throttle <= 0.0 && (PickleMoving(i, c) ==> c'.throttle == 0.0)
    ensures PickleMoving(i, c) || c.brake != 0.0 ==> c'.steer == c.steer && c'.mode == Pickle
  {
    if PickleMoving(i, c) then
      c.(throttle := 0.0, brake := c.brakeSet)
    else if c.brake != 0.0 then
      c.(brake := 0.0)
    else
      PickleSweep(i, c)
  }

  /** At rest with the brake off: record the sweep start on the first tick, sweep on the later ones. */
  function PickleSweep(i: Inputs, c: Control): (c': Control)
    requires c.mode == Pickle && i.navAngles.Some?
    ensures !IsSet(c.stoppedAngle) ==>
              c'.mode == Pickle && c'.steer == c.steer && c'.stoppedAngle == Some(i.yaw)
              && c'.tgtAngle.Some? && 0.0 <= c'.tgtAngle.value < 360.0
              && c'.tgtAngle == Some(Mod360(i.yaw + 45.0)) && c'.bstAngle == c'.tgtAngle.value
              && c'.bstNav == i.goForward
    ensures IsSet(c.stoppedAngle) ==> c'.steer == 15.0
    ensures c'.brake == c.brake && c'.throttle == c.throttle
  {
    if !IsSet(c.stoppedAngle) then
      var t := Mod360(i.yaw + 45.0);
      c.(stoppedAngle := Some(i.yaw), tgtAngle := Some(t), bstNav := i.goForward, bstAngle := t)
    else
      Sweep(i, c)
  }

  /** At heading exactly 0 the sweep start reads as unset again, so the sweep re-initialises and never steers. */
  lemma PickleAtYawZeroNeverSweeps(i: Inputs, c: Control)
    requires c.mode == Pickle && i.navAngles.Some? && !PickleMoving(i, c)
    requires c.brake == 0.0 && i.yaw == 0.0 && !IsSet(c.stoppedAngle)
    ensures PickleStep(i, c).stoppedAngle == Some(0.0)
    ensures PickleStep(i, PickleStep(i, c)) == PickleStep(i, c)
  {
  }

  // ---------------------------------------------------------------------
  // Sample mode

  /** Stuck limit, in seconds, used while approaching a sample. */
  const SampleTimeLimit: real := 5.0

  /** The part of the sample handler that runs once the rover is stopped or locked on a sample. */
  function SampleApproach(i: Inputs, c: Control): (c': Control)
    ensures !(i.nearSample && Abs(i.vel) >= 0.1) ==>
              c'.brake == 0.0 && c'.throttle == (if i.vel < 0.5 then 0.1 else c.throttle)
    ensures i.nearSample && Abs(i.vel) >= 0.1 ==> c'.throttle == 0.0 && c'.brake == c.brakeSet
    ensures c' == c.(mode := c'.mode, throttle := c'.throttle, brake := c'.brake, sendPickup := c'.sendPickup,
                     sampleDetected := c'.sampleDetected, pickedUp := c'.pickedUp)
  {
    // decision.py:189 assigns the misspelled `thottle`, so throttle is kept at 0.5 and above
    SamplePickup(i, if i.vel < 0.5 then c.(brake := 0.0, throttle := 0.1) else c.(brake := 0.0))
  }

  /** Beside a sample: stop, request the pickup, and once picked up leave for pickle mode. */
  function SamplePickup(i: Inputs, c: Control): (c': Control)
    ensures i.nearSample && Abs(i.vel) >= 0.1 ==> c' == c.(throttle := 0.0, brake := c.brakeSet)
    ensures i.nearSample && Abs(i.vel) < 0.1 && i.pickingUp ==>
              c' == c.(sampleDetected := false, sendPickup := false, pickedUp := true)
    ensures !(i.nearSample && (Abs(i.vel) >= 0.1 || i.pickingUp)) ==>
              c'.mode == (if c.pickedUp then Pickle else c.mode) && !c'.pickedUp
              && c'.sendPickup == (c.sendPickup || i.nearSample)
              && c' == c.(mode := c'.mode, pickedUp := false, sendPickup := c'.sendPickup)
  {
    if i.nearSample && Abs(i.vel) >= 0.1 then
      c.(throttle := 0.0, brake := c.brakeSet)
    else if i.nearSample && i.pickingUp then
      c.(sampleDetected := false, sendPickup := false, pickedUp := true)
    else
      var c1 := if i.nearSample then c.(sendPickup := true) else c;
      if c1.pickedUp then c1.(mode := Pickle, pickedUp := false) else c1
  }

  /** Aim at the target pixels, then lock on. */
  function SampleTrack(i: Inputs, c: Control): (c': Control)
    ensures c'.steer == (if |i.tgtAngles| > 0 then Mean(i.tgtAngles) else c.steer)
    ensures c'.mode == c.mode || c'.mode == Pickle
    ensures c'.stoppedTime == c.stoppedTime && c'.stoppedAngle == c.stoppedAngle && c'.tgtAngle == c.tgtAngle
    ensures c'.bstNav == c.bstNav && c'.bstAngle == c.bstAngle && c'.maxVel == c.maxVel
  {
    SampleLock(i, if |i.tgtAngles| != 0 then c.(steer := Mean(i.tgtAngles)) else c)
  }

  /** Stop on first sight of a sample, then approach it. */
  function SampleLock(i: Inputs, c: Control): (c': Control)
    ensures !c.sampleDetected && Abs(i.vel) >= 0.1 ==> c' == c.(brakeSet := 10.0, brake := 10.0)
    ensures c.sampleDetected || Abs(i.vel) < 0.1 ==>
              c'.brakeSet == c.brakeSet
              && c'.sampleDetected == !(i.nearSample && Abs(i.vel) < 0.1 && i.pickingUp)
    ensures c'.steer == c.steer
  {
    if !c.sampleDetected && Abs(i.vel) >= 0.1 then
      c.(brakeSet := 10.0, brake := 10.0)
    else
      SampleApproach(i, c.(sampleDetected := true))
  }

  /** The sample-mode handler. */
  function SampleStep(i: Inputs, c: Control): (c': Control)
    requires c.mode == Sample
    ensures c'.mode == Sample || c'.mode == Pickle
    ensures TimerFires(i, c, SampleTimeLimit) ==> c' == StuckTimer(i, c, SampleTimeLimit)
    ensures !TimerFires(i, c, SampleTimeLimit) ==>
              c'.stoppedTime == StuckTimer(i, c, SampleTimeLimit).stoppedTime
    ensures !TimerFires(i, c, SampleTimeLimit) && |i.tgtAngles| > 0 ==> c'.steer == Mean(i.tgtAngles)
    ensures !TimerFires(i, c, SampleTimeLimit) && |i.tgtAngles| == 0 ==> c'.steer == c.steer
    ensures !TimerFires(i, c, SampleTimeLimit) && !c.sampleDetected && Abs(i.vel) >= 0.1 ==>
              c'.brakeSet == 10.0 && c'.brake == 10.0 && c'.mode == Sample && c'.throttle == c.throttle
    ensures !TimerFires(i, c, SampleTimeLimit) && i.nearSample && Abs(i.vel) < 0.1 && !i.pickingUp ==>
              c'.sendPickup
    ensures !TimerFires(i, c, SampleTimeLimit) && i.nearSample && Abs(i.vel) < 0.1 && i.pickingUp ==>
              !c'.sampleDetected && !c'.sendPickup && c'.pickedUp && c'.mode == Sample
    ensures c'.mode == Pickle ==> TimerFires(i, c, SampleTimeLimit) || (c.pickedUp && !c'.pickedUp)
    ensures i.vel >= 0.5 && !i.nearSample ==> c'.throttle == c.throttle
    ensures !TimerFires(i, c, SampleTimeLimit) && (c.sampleDetected || Abs(i.vel) < 0.1) ==>
              (!(i.nearSample && (Abs(i.vel) >= 0.1 || i.pickingUp)) ==>
                 c'.mode == (if c.pickedUp then Pickle else Sample) && !c'.pickedUp)
              && (!(i.nearSample && Abs(i.vel) >= 0.1) ==>
                    c'.brake == 0.0 && (i.vel < 0.5 ==> c'.throttle == 0.1))
              && (i.nearSample && Abs(i.vel) >= 0.1 ==> c'.throttle == 0.0 && c'.brake == c.brakeSet)
    ensures c'.stoppedAngle == c.stoppedAngle && c'.tgtAngle == c.tgtAngle
    ensures c'.bstNav == c.bstNav && c'.bstAngle == c.bstAngle
  {
    var c0 := StuckTimer(i, c, SampleTimeLimit);
    if c0.mode == Pickle then c0 else SampleTrack(i, c0)
  }

  // ---------------------------------------------------------------------
  // Azimuth mode

  /** The azimuth-mode handler: stop, then turn right until within 3 degrees of the target. */
  function AzimuthStep(i: Inputs, c: Control): (c': Control)
    requires c.mode == Azimuth
    ensures c.tgtAngle.None? ==> c' == c.(mode := Forward)
    ensures c.tgtAngle.Some? && Abs(i.vel) >= 0.1 ==> c' == c.(throttle := 0.0, brake := c.brakeSet)
    ensures c.tgtAngle.Some? && Abs(i.vel) < 0.1 ==>
              c' == c.(brake := 0.0, steer := -15.0, mode := c'.mode)
              && (c'.mode == Forward <==> Abs(i.yaw - c.tgtAngle.value) < 3.0)
              && (c'.mode == Forward || c'.mode == Azimuth)
  {
    if c.tgtAngle.None? then
      c.(mode := Forward)
    else if Abs(i.vel) >= 0.1 then
      c.(throttle := 0.0, brake := c.brakeSet)
    else
      var c1 := c.(brake := 0.0, steer := -15.0);
      if Abs(i.yaw - c1.tgtAngle.value) < 3.0 then c1.(mode := Forward) else c1
  }

  // ---------------------------------------------------------------------
  // Forward mode

  /** The target velocity: faster when the wall contour is long. */
  function MaxVel(walDists: seq<real>): (v: real)
    ensures 1.0 <= v <= 3.0
    ensures |walDists| > 0 && Mean(walDists) >= 20.0 ==> v == Clip(Mean(walDists) / 20.0, 0.0, 3.0)
    ensures !(|walDists| > 0 && Mean(walDists) >= 20.0) ==> v == 1.0
  {
    // the mean of no distances is NaN, and NaN >= 20 is false
    if |walDists| > 0 && Mean(walDists) >= 20.0 then Clip(Mean(walDists) / 20.0, 0.0, 3.0) else 1.0
  }

  /** The weight given to the navigable-pixel mean against the wall mean, and the wall mean itself. */
  function NavPreference(i: Inputs): (w: (real, real))
    requires i.navAngles.Some?
    ensures 0.1 <= w.0 <= 1.0
    ensures -15.0 <= w.1 <= 15.0
    ensures |i.colAngles| > 0 ==> w.0 == Clip(|i.navDists| as real / 40.0, 0.1, 0.9)
    ensures |i.colAngles| == 0 && |i.walAngles| == 0 ==> w == (1.0, 0.0)
    ensures |i.colAngles| == 0 && |i.walAngles| > 0 ==> w.0 == Clip(|i.navAngles.value| as real / 12000.0, 0.1, 0.9)
  {
    var (walMean, pn) :=
      if |i.walAngles| != 0 then
        var wm := Clip(Mean(i.walAngles) + 10.0, -15.0, 15.0);
        var p := Clip(|i.navAngles.value| as real / 12000.0, 0.1, 0.9);
        // the wall mean is already clipped to [-15, 15], so this override never applies
        (wm, if wm < -35.0 then 0.8 else p)
      else
        (0.0, 1.0);
    var pn' := if |i.colAngles| != 0 then Clip(|i.navDists| as real / 40.0, 0.1, 0.9) else pn;
    (pn', walMean)
  }

  /** `nav * pN + wall * (1 - pN)`. */
  function Blend(nav: real, wall: real, pN: real): real
  {
    nav * pN + wall * (1.0 - pN)
  }

  /** Steering blended from the previous command and the weighted navigable and wall means. */
  function BlendedSteer(i: Inputs, steer: real): (s: real)
    requires i.navAngles.Some? && |i.navAngles.value| > 0
    ensures -15.0 <= steer <= 15.0 ==> -15.0 <= s <= 15.0
  {
    var w := NavPreference(i);
    (steer + Clip(Blend(Clip(Mean(i.navAngles.value), -15.0, 15.0), w.1, w.0), -15.0, 15.0)) / 2.0
  }

  /** Some target pixel angle is nonzero (`np.any`). */
  predicate AnyNonzero(s: seq<real>)
  {
    exists k :: 0 <= k < |s| && s[k] != 0.0
  }

  /** Speed control: throttle up below the target velocity, brake lightly well above it. */
  function Speed(i: Inputs, c: Control): (c': Control)
    ensures c'.maxVel == MaxVel(i.walDists)
    ensures i.vel < c'.maxVel ==> c'.throttle == i.throttleSet && c'.brake == 0.0
    ensures i.vel > c'.maxVel && i.vel > 1.0 ==> c'.throttle == 0.0 && c'.brake == 0.03
    ensures i.vel >= c'.maxVel && !(i.vel > c'.maxVel && i.vel > 1.0) ==> c'.throttle == 0.0 && c'.brake == 0.0
    ensures c' == c.(maxVel := c'.maxVel, throttle := c'.throttle, brake := c'.brake)
  {
    var maxVel := MaxVel(i.walDists);
    var throttle := if i.vel < maxVel then i.throttleSet else 0.0;
    if i.vel > maxVel && i.vel > 1.0 then
      c.(maxVel := maxVel, throttle := 0.0, brake := 0.03)
    else
      c.(maxVel := maxVel, throttle := throttle, brake := 0.0)
  }

  /** Steering: blend the means, then leave for sample mode on sight of a target or else avoid collisions. */
  function Aim(i: Inputs, c: Control): (c': Control)
    requires i.navAngles.Some? && |i.navAngles.value| > 0
    ensures AnyNonzero(i.tgtAngles) ==> c' == c.(steer := BlendedSteer(i, c.steer), mode := Sample)
    ensures !AnyNonzero(i.tgtAngles) ==> c' == c.(steer := CollisionAdj(BlendedSteer(i, c.steer), i.colAngles))
  {
    var c1 := c.(steer := BlendedSteer(i, c.steer));
    if AnyNonzero(i.tgtAngles) then
      c1.(mode := Sample)
    else
      c1.(steer := CollisionAdj(c1.steer, i.colAngles))
  }

  /** With enough navigable pixels: set speed, blend steering, and leave for sample mode on sight of a target. */
  function Cruise(i: Inputs, c: Control): (c': Control)
    requires i.navAngles.Some? && |i.navAngles.value| > 0
    ensures c' == Aim(i, Speed(i, c))
    ensures AnyNonzero(i.tgtAngles) ==> c'.mode == Sample && c'.steer == BlendedSteer(i, c.steer)
    ensures !AnyNonzero(i.tgtAngles) ==>
              c'.mode == c.mode && c'.steer == CollisionAdj(BlendedSteer(i, c.steer), i.colAngles)
    ensures -15.0 <= c.steer <= 15.0 ==> -15.0 <= c'.steer <= 15.0
  {
    Aim(i, Speed(i, c))
  }

  /** The forward-mode handler once navigable angles exist; `stop_forward` is positive. */
  function ForwardStep(i: Inputs, c: Control): (c': Control)
    requires c.mode == Forward && i.navAngles.Some? && i.stopForward >= 1
    ensures |i.navAngles.value| >= i.stopForward ==> c' == Cruise(i, StuckTimer(i, c, i.stoppedTimeLimit))
    ensures |i.navAngles.value| < i.stopForward ==>
              c' == StuckTimer(i, c, i.stoppedTimeLimit).(throttle := 0.0, brake := c.brakeSet,
                                                         steer := 0.0, mode := Pickle, stoppedTime := None)
    ensures c'.mode == Forward || c'.mode == Pickle || c'.mode == Sample
  {
    var c0 := StuckTimer(i, c, i.stoppedTimeLimit);
    if |i.navAngles.value| >= i.stopForward then Cruise(i, c0) else ForwardHalt(c0)
  }

  /** Too little navigable terrain ahead: brake, centre the wheels, and start a sweep. */
  function ForwardHalt(c: Control): (c': Control)
    ensures c'.mode == Pickle && c'.throttle == 0.0 && c'.brake == c.brakeSet && c'.steer == 0.0
    ensures c'.stoppedTime == None
    ensures c' == c.(mode := Pickle, throttle := 0.0, brake := c.brakeSet, steer := 0.0, stoppedTime := None)
  {
    c.(throttle := 0.0, brake := c.brakeSet, steer := 0.0, mode := Pickle, stoppedTime := None)
  }

  /** No navigable angles outside the other modes: go to pickle mode, and request an opportunistic pickup. */
  function NoNavStep(i: Inputs, c: Control): (c': Control)
    ensures c'.mode == Pickle
    ensures c'.sendPickup == (c.sendPickup || (i.nearSample && i.vel == 0.0 && !i.pickingUp))
    ensures c' == c.(mode := Pickle, sendPickup := c'.sendPickup)
  {
    var c1 := c.(mode := Pickle);
    if i.nearSample && i.vel == 0.0 && !i.pickingUp then c1.(sendPickup := true) else c1
  }

  // ---------------------------------------------------------------------
  // decision_step

  /** The configuration the controller needs: a positive `stop_forward` count. */
  predicate Configured(i: Inputs)
  {
    i.stopForward >= 1
  }

  /** The modes each mode can move to in one tick. */
  predicate CanMove(from: Mode, to: Mode)
  {
    match from
    case Forward => to == Forward || to == Pickle || to == Sample
    case Pickle => to == Pickle || to == Azimuth
    case Azimuth => to == Azimuth || to == Forward
    case Sample => to == Sample || to == Pickle
  }

  /** `decision_step`: one tick of the controller. */
  function Step(i: Inputs, c: Control): (c': Control)
    requires Configured(i)
    ensures CanMove(c.mode, c'.mode)
  {
    match c.mode
    case Pickle => PickleStep(i, c)
    case Sample => SampleStep(i, c)
    case Azimuth => AzimuthStep(i, c)
    case Forward =>
      if i.navAngles.Some? then ForwardStep(i, c) else NoNavStep(i, c)
  }

  /**
   * Only pickle mode writes the sweep bookkeeping. Leaving it goes to azimuth,
   * clears the sweep start and best count, keeps the best heading (as this
   * tick's tracking left it) and aims at `ExitTarget` of the best and start
   * headings.
   */
  lemma SweepBookkeepingOwnedByPickle(i: Inputs, c: Control)
    requires Configured(i)
    ensures c.mode != Pickle ==>
              Step(i, c).stoppedAngle == c.stoppedAngle && Step(i, c).bstNav == c.bstNav
              && Step(i, c).bstAngle == c.bstAngle && Step(i, c).tgtAngle == c.tgtAngle
    ensures c.mode == Pickle && Step(i, c).mode != Pickle ==>
              Step(i, c).mode == Azimuth && Step(i, c).stoppedAngle == None && Step(i, c).bstNav == 0
              && i.navAngles.Some? && c.stoppedAngle.Some?
              && (var best := if |i.navAngles.value| > c.bstNav then i.yaw else c.bstAngle;
                  Step(i, c).bstAngle == best
                  && Step(i, c).tgtAngle == Some(ExitTarget(best, c.stoppedAngle.value)))
  {
  }

  /** Outside sample mode a steer command in [-15, 15] stays there. */
  lemma StepKeepsSteerInRange(i: Inputs, c: Control)
    requires Configured(i) && c.mode != Sample
    requires -15.0 <= c.steer <= 15.0
    ensures -15.0 <= Step(i, c).steer <= 15.0
  {
    if c.mode == Forward && i.navAngles.Some? && |i.navAngles.value| >= i.stopForward {
      assert -15.0 <= BlendedSteer(i, c.steer) <= 15.0;
    }
  }

  /** Outside sample mode a pickup is requested only by the no-navigation fallback. */
  lemma PickupOnlyFromFallback(i: Inputs, c: Control)
    requires Configured(i) && c.mode != Sample
    ensures Step(i, c).sendPickup ==
              (c.sendPickup || (c.mode == Forward && i.navAngles.None? && i.nearSample
                                && i.vel == 0.0 && !i.pickingUp))
  {
  }

  /** Forward with no navigable pixels: brake, centre the wheels and start a sweep. */
  lemma ForwardWithoutTerrainStartsPickle(i: Inputs, c: Control)
    requires Configured(i) && c.mode == Forward && i.navAngles == Some([])
    ensures Step(i, c).mode == Pickle && Step(i, c).throttle == 0.0
    ensures Step(i, c).brake == c.brakeSet && Step(i, c).steer == 0.0 && Step(i, c).stoppedTime == None
  {
  }

  /** Pickle at rest with no sweep start at heading 300: the sweep targets 345 and the steer is not written. */
  lemma PickleStartsSweepAt300(i: Inputs, c: Control)
    requires Configured(i) && c.mode == Pickle && i.navAngles.Some?
    requires i.vel == 0.0 && c.throttle == 0.0 && c.brake == 0.0
    requires c.stoppedAngle == None && i.yaw == 300.0
    ensures Step(i, c) == c.(stoppedAngle := Some(300.0), tgtAngle := Some(345.0),
                             bstNav := i.goForward, bstAngle := 345.0)
  {
  }

  /** Azimuth with an undefined target changes nothing but the mode. */
  lemma AzimuthWithoutTargetGoesForward(i: Inputs, c: Control)
    requires Configured(i) && c.mode == Azimuth && c.tgtAngle == None
    ensures Step(i, c) == c.(mode := Forward)
  {
  }

  /** Sample mode beside a sample, at rest and not yet picking up, requests the pickup. */
  lemma SampleAtRestRequestsPickup(i: Inputs, c: Control)
    requires Configured(i) && c.mode == Sample && i.nearSample && i.vel == 0.0 && !i.pickingUp
    requires !TimerFires(i, c, SampleTimeLimit)
    ensures Step(i, c).sendPickup
  {
  }
}
