/**
 * The Rover record of decision.py as a mutable object: `pickle` and
 * `decision_step` update its fields in place with early returns, and each
 * method is proved to leave the record in the state the matching function
 * of module Decision computes.
 */
module Controller {
  import opened Wrappers
  import opened Numerics
  import opened Decision
  import P = Perception

  class Rover {
    var mode: Mode
    var vel: real
    var yaw: real
    var totalTime: real
    var nearSample: bool
    var pickingUp: bool
    var navAngles: Option<seq<real>>
    var navDists: seq<real>
    var walAngles: seq<real>
    var walDists: seq<real>
    var tgtAngles: seq<real>
    var colAngles: seq<real>
    var stopForward: int
    var goForward: int
    var throttleSet: real
    var stoppedTimeLimit: real
    var steer: real
    var throttle: real
    var brake: real
    var brakeSet: real
    var maxVel: real
    var sendPickup: bool
    var stoppedTime: Option<real>
    var stoppedAngle: Option<real>
    var tgtAngle: Option<real>
    var bstNav: int
    var bstAngle: real
    var sampleDetected: bool
    var pickedUp: bool
    var roll: real
    var pitch: real
    var xpos: real
    var ypos: real
    var tgtDists: seq<real>
    var colDists: seq<real>
    /** `worldmap[y, x, channel]`: obstacles, targets and navigable terrain. */
    var worldmap: array3<int>

    /** The fields `decision_step` only reads. */
    function Observed(): Inputs
      reads this`vel, this`yaw, this`totalTime, this`nearSample, this`pickingUp,
            this`navAngles, this`navDists, this`walAngles, this`walDists, this`tgtAngles, this`colAngles,
            this`stopForward, this`goForward, this`throttleSet, this`stoppedTimeLimit
    {
      Inputs(vel, yaw, totalTime, nearSample, pickingUp,
             navAngles, navDists, walAngles, walDists, tgtAngles, colAngles,
             stopForward, goForward, throttleSet, stoppedTimeLimit)
    }

    /** The fields `decision_step` writes. */
    function Controls(): Control
      reads this`mode, this`steer, this`throttle, this`brake, this`brakeSet, this`maxVel, this`sendPickup,
            this`stoppedTime, this`stoppedAngle, this`tgtAngle, this`bstNav, this`bstAngle,
            this`sampleDetected, this`pickedUp
    {
      Control(mode, steer, throttle, brake, brakeSet, maxVel, sendPickup,
              stoppedTime, stoppedAngle, tgtAngle, bstNav, bstAngle, sampleDetected, pickedUp)
    }

    /** `pickle(Rover, time_limit)`. */
    method CheckStuck(timeLimit: real)
      modifies this`mode, this`stoppedTime
      ensures Controls() == StuckTimer(old(Observed()), old(Controls()), timeLimit)
    {
      if vel < 0.1 {
        if IsSet(stoppedTime) {
          if totalTime - stoppedTime.value >= timeLimit {
            mode := Pickle;
            stoppedTime := None;
          }
        } else {
          stoppedTime := Some(totalTime);
        }
      } else {
        stoppedTime := None;
      }
    }

    /** `decision_step(Rover)`. */
    method DecisionStep()
      requires Configured(Observed())
      modifies this`mode, this`steer, this`throttle, this`brake, this`brakeSet, this`maxVel, this`sendPickup, this`stoppedTime, this`stoppedAngle, this`tgtAngle, this`bstNav, this`bstAngle, this`sampleDetected, this`pickedUp
      ensures Controls() == Step(old(Observed()), old(Controls()))
    {
      if mode == Pickle {
        PickleMode();
        return;
      }
      if mode == Sample {
        SampleMode();
        return;
      }
      if mode == Azimuth {
        AzimuthMode();
        return;
      }
      if navAngles.Some? {
        // every other mode has returned above, so this is forward mode
        ForwardMode();
        return;
      } else {
        mode := Pickle;
      }
      if nearSample && vel == 0.0 && !pickingUp {
        sendPickup := true;
      }
    }

    /** The pickle branch of `decision_step`. */
    method PickleMode()
      requires mode == Pickle
      modifies this`mode, this`steer, this`throttle, this`brake, this`stoppedAngle, this`tgtAngle, this`bstNav, this`bstAngle
      ensures Controls() == PickleStep(old(Observed()), old(Controls()))
    {
      if navAngles.None? {
        steer := 15.0;
        throttle := 0.0;
        return;
      }
      Settle();
    }

    /** Pickle mode with navigable angles (decision.py:86-96): come to rest before sweeping. */
    method Settle()
      requires mode == Pickle && navAngles.Some?
      modifies this`mode, this`steer, this`throttle, this`brake, this`stoppedAngle, this`tgtAngle, this`bstNav, this`bstAngle
      ensures Controls() == PickleSettle(old(Observed()), old(Controls()))
    {
      if vel > 0.1 || throttle > 0.0 {
        throttle := 0.0;
        brake := brakeSet;
        return;
      }
      if brake != 0.0 {
        brake := 0.0;
        return;
      }
      StartOrSweep();
    }

    /** At rest with the brake off (decision.py:108-144): start the sweep, or take one step of it. */
    method StartOrSweep()
      requires mode == Pickle && navAngles.Some?
      modifies this`mode, this`steer, this`stoppedAngle, this`tgtAngle, this`bstNav, this`bstAngle
      ensures Controls() == PickleSweep(old(Observed()), old(Controls()))
    {
      if !IsSet(stoppedAngle) {
        stoppedAngle := Some(yaw);
        tgtAngle := Some(Mod360(yaw + 45.0));
        bstNav := goForward;
        bstAngle := tgtAngle.value;
        return;
      }
      SweepTick();
    }

    /** The sweep proper, once the rover is at rest with the sweep started (decision.py:115-144). */
    method SweepTick()
      requires mode == Pickle && navAngles.Some? && IsSet(stoppedAngle)
      modifies this`mode, this`steer, this`stoppedAngle, this`tgtAngle, this`bstNav, this`bstAngle
      ensures Controls() == Sweep(old(Observed()), old(Controls()))
    {
      TrackBest();
      if tgtAngle.Some? && Abs(tgtAngle.value - yaw) < 5.0 {
        LeaveSweep();
      }
    }

    method LeaveSweep()
      requires IsSet(stoppedAngle)
      modifies this`mode, this`stoppedAngle, this`tgtAngle, this`bstNav
      ensures Controls() == SweepExit(old(Observed()), old(Controls()))
    {
      tgtAngle := Some(bstAngle);
      var delta := tgtAngle.value - stoppedAngle.value;
      if delta < -352.0 || (delta < 10.0 && delta > 0.0) {
        tgtAngle := Some(Mod360(tgtAngle.value + 20.0));
      }
      bstNav := 0;
      stoppedAngle := None;
      mode := Azimuth;
    }

    method TrackBest()
      requires navAngles.Some?
      modifies this`steer, this`bstNav, this`bstAngle
      ensures Controls() == SweepTrack(old(Observed()), old(Controls()))
    {
      steer := 15.0;
      if |navAngles.value| > bstNav {
        bstNav := |navAngles.value|;
        bstAngle := yaw;
      }
    }

    /** The sample branch of `decision_step`. */
    method SampleMode()
      requires mode == Sample
      modifies this`mode, this`stoppedTime, this`steer, this`throttle, this`brake, this`brakeSet, this`sendPickup, this`sampleDetected, this`pickedUp
      ensures Controls() == SampleStep(old(Observed()), old(Controls()))
    {
      CheckStuck(SampleTimeLimit);
      if mode == Pickle {
        return;
      }
      TrackSample();
    }

    /** Sample mode after the stuck check (decision.py:166-222). */
    method TrackSample()
      modifies this`mode, this`steer, this`throttle, this`brake, this`brakeSet, this`sendPickup, this`sampleDetected, this`pickedUp
      ensures Controls() == SampleTrack(old(Observed()), old(Controls()))
    {
      if |tgtAngles| != 0 {
        steer := Mean(tgtAngles);
      }
      LockOn();
    }

    method LockOn()
      modifies this`mode, this`throttle, this`brake, this`brakeSet, this`sendPickup, this`sampleDetected, this`pickedUp
      ensures Controls() == SampleLock(old(Observed()), old(Controls()))
    {
      if !sampleDetected {
        if Abs(vel) >= 0.1 {
          brakeSet := 10.0;
          brake := brakeSet;
          return;
        } else {
          sampleDetected := true;
        }
      }
      assert Controls() == old(Controls()).(sampleDetected := true);
      Approach();
    }

    /** The sample approach once the rover has stopped on first sight (decision.py:184-220). */
    method Approach()
      modifies this`mode, this`throttle, this`brake, this`sendPickup, this`sampleDetected, this`pickedUp
      ensures Controls() == SampleApproach(old(Observed()), old(Controls()))
    {
      brake := 0.0;
      // at 0.5 and above the source assigns the misspelled `thottle`, leaving throttle as it was
      if vel < 0.5 {
        throttle := 0.1;
      }
      assert Controls() == if old(vel) < 0.5 then old(Controls()).(brake := 0.0, throttle := 0.1) else old(Controls()).(brake := 0.0);
      PickUp();
    }

    method PickUp()
      modifies this`mode, this`throttle, this`brake, this`sendPickup, this`sampleDetected, this`pickedUp
      ensures Controls() == SamplePickup(old(Observed()), old(Controls()))
    {
      if nearSample {
        if Abs(vel) >= 0.1 {
          throttle := 0.0;
          brake := brakeSet;
          return;
        }
        sendPickup := true;
        // `while Rover.picking_up:` returns on its first iteration
        if pickingUp {
          sampleDetected := false;
          sendPickup := false;
          pickedUp := true;
          return;
        }
      }
      if pickedUp {
        mode := Pickle;
        pickedUp := false;
      }
    }

    /** The azimuth branch of `decision_step`. */
    method AzimuthMode()
      requires mode == Azimuth
      modifies this`mode, this`steer, this`throttle, this`brake
      ensures Controls() == AzimuthStep(old(Observed()), old(Controls()))
    {
      if tgtAngle.None? {
        mode := Forward;
        return;
      }
      if Abs(vel) >= 0.1 {
        throttle := 0.0;
        brake := brakeSet;
        return;
      } else {
        brake := 0.0;
        steer := -15.0;
      }
      if Abs(yaw - tgtAngle.value) < 3.0 {
        mode := Forward;
      }
    }

    /** The forward branch of `decision_step`, reached with navigable angles present. */
    method ForwardMode()
      requires mode == Forward && navAngles.Some? && Configured(Observed())
      modifies this`mode, this`stoppedTime, this`maxVel, this`throttle, this`brake, this`steer
      ensures Controls() == ForwardStep(old(Observed()), old(Controls()))
    {
      CheckStuck(stoppedTimeLimit);
      if |navAngles.value| >= stopForward {
        Cruise();
      } else {
        Halt();
      }
    }

    /** Forward mode with enough navigable pixels (decision.py:291-354). */
    method Cruise()
      requires navAngles.Some? && |navAngles.value| > 0
      modifies this`mode, this`maxVel, this`throttle, this`brake, this`steer
      ensures Controls() == Decision.Cruise(old(Observed()), old(Controls()))
    {
      SetSpeed();
      SteerForward();
    }

    /** Forward mode with too few navigable pixels (decision.py:357-364). */
    method Halt()
      modifies this`mode, this`stoppedTime, this`throttle, this`brake, this`steer
      ensures Controls() == ForwardHalt(old(Controls()))
    {
      throttle := 0.0;
      brake := brakeSet;
      steer := 0.0;
      mode := Pickle;
      stoppedTime := None;
    }

    /** Forward mode's velocity control (decision.py:293-311). */
    method SetSpeed()
      modifies this`maxVel, this`throttle, this`brake
      ensures Controls() == Speed(old(Observed()), old(Controls()))
    {
      maxVel := 1.0;
      if |walDists| > 0 && Mean(walDists) >= 20.0 {
        maxVel := Clip(Mean(walDists) / 20.0, 0.0, 3.0);
      }
      if vel < maxVel {
        throttle := throttleSet;
      } else {
        throttle := 0.0;
      }
      if vel > maxVel && vel > 1.0 {
        throttle := 0.0;
        brake := 0.03;
      } else {
        brake := 0.0;
      }
    }

    /** Forward mode's steering, sample detection and collision adjustment (decision.py:317-354). */
    method SteerForward()
      requires navAngles.Some? && |navAngles.value| > 0
      modifies this`mode, this`steer
      ensures Controls() == Aim(old(Observed()), old(Controls()))
    {
      ghost var i := Observed();
      var walAngleMean, pN;
      if |walAngles| != 0 {
        walAngleMean := Clip(Mean(walAngles) + 10.0, -15.0, 15.0);
        pN := Clip(|navAngles.value| as real / 12000.0, 0.1, 0.9);
        if walAngleMean < -35.0 {
          pN := 0.8;
        }
      } else {
        walAngleMean := 0.0;
        pN := 1.0;
      }
      if |colAngles| != 0 {
        pN := Clip(|navDists| as real / 40.0, 0.1, 0.9);
      }
      assert (pN, walAngleMean) == NavPreference(i);
      var navAngleMean := Clip(Mean(navAngles.value), -15.0, 15.0);
      steer := (steer + Clip(Blend(navAngleMean, walAngleMean, pN), -15.0, 15.0)) / 2.0;
      if AnyNonzero(tgtAngles) {
        mode := Sample;
        return;
      }
      steer := CollisionAdj(steer, colAngles);
    }

    // -------------------------------------------------------------------
    // perception_step

    /** The distance and angle fields `perception_step` assigns. */
    function Sensed(): P.Bearings
      reads this`walDists, this`walAngles, this`navDists, this`navAngles,
            this`tgtDists, this`tgtAngles, this`colDists, this`colAngles
    {
      P.Bearings(walDists, walAngles, navDists, navAngles, tgtDists, tgtAngles, colDists, colAngles)
    }

    /** `Rover.worldmap[ys, xs, ch] = 255`, one simultaneous write of the listed cells. */
    method PaintChannel(pts: seq<P.WorldPoint>, ch: int)
      requires 0 <= ch < worldmap.Length2
      requires forall p :: p in pts ==> 0 <= p.y < worldmap.Length0 && 0 <= p.x < worldmap.Length1
      modifies worldmap
      ensures forall i, j, k :: 0 <= i < worldmap.Length0 && 0 <= j < worldmap.Length1 && 0 <= k < worldmap.Length2 ==>
                worldmap[i, j, k] == if k == ch && P.WorldPoint(j, i) in pts then 255 else old(worldmap[i, j, k])
    {
      forall n | 0 <= n < |pts| {
        worldmap[pts[n].y, pts[n].x, ch] := 255;
      }
    }

    /**
     * `perception_step` from the warped frame on: OpenCV's contours and their
     * area, the cosine and sine of the heading and the polar conversion are
     * parameters. Without a contour it returns before changing anything.
     */
    method PerceptionStep(warped: P.Image, contours: seq<P.Contour>, area: P.Contour -> real,
                          cosYaw: real, sinYaw: real, polar: P.RoverPixel -> P.Polar)
      requires worldmap.Length0 >= 1 && worldmap.Length1 == worldmap.Length0 && worldmap.Length2 == 3
      modifies this`walDists, this`walAngles, this`navDists, this`navAngles,
               this`tgtDists, this`tgtAngles, this`colDists, this`colAngles, worldmap
      ensures P.Frame(warped, contours, area).None? ==> Sensed() == old(Sensed()) && unchanged(worldmap)
      ensures P.Frame(warped, contours, area).Some? ==>
                Sensed() == P.ToPolar(P.Frame(warped, contours, area).value, polar)
      ensures P.Frame(warped, contours, area).Some? ==>
                forall i, j, k :: 0 <= i < worldmap.Length0 && 0 <= j < worldmap.Length1 && 0 <= k < 3 ==>
                  worldmap[i, j, k] == P.RecordedCell(old(worldmap[i, j, k]), i, j, k,
                                                      P.Frame(warped, contours, area).value,
                                                      roll, pitch, cosYaw, sinYaw, xpos, ypos, worldmap.Length0)
    {
      UpdateFromFrame(P.Frame(warped, contours, area), cosYaw, sinYaw, polar);
    }

    method UpdateFromFrame(frame: Option<P.Observation>, cosYaw: real, sinYaw: real, polar: P.RoverPixel -> P.Polar)
      requires worldmap.Length0 >= 1 && worldmap.Length1 == worldmap.Length0 && worldmap.Length2 == 3
      modifies this`walDists, this`walAngles, this`navDists, this`navAngles,
               this`tgtDists, this`tgtAngles, this`colDists, this`colAngles, worldmap
      ensures frame.None? ==> Sensed() == old(Sensed()) && unchanged(worldmap)
      ensures frame.Some? ==> Sensed() == P.ToPolar(frame.value, polar)
      ensures frame.Some? ==>
                forall i, j, k :: 0 <= i < worldmap.Length0 && 0 <= j < worldmap.Length1 && 0 <= k < 3 ==>
                  worldmap[i, j, k] == P.RecordedCell(old(worldmap[i, j, k]), i, j, k, frame.value,
                                                      roll, pitch, cosYaw, sinYaw, xpos, ypos, worldmap.Length0)
    {
      if frame.None? {
        return;
      }
      RecordFrame(frame.value, cosYaw, sinYaw);
      SetBearings(P.ToPolar(frame.value, polar));
    }

    /** Steps 6 and 7 of `perception_step`: world cells of the three masks, written when level. */
    method RecordFrame(o: P.Observation, cosYaw: real, sinYaw: real)
      requires worldmap.Length0 >= 1 && worldmap.Length1 == worldmap.Length0 && worldmap.Length2 == 3
      modifies worldmap
      ensures forall i, j, k :: 0 <= i < worldmap.Length0 && 0 <= j < worldmap.Length1 && 0 <= k < 3 ==>
                worldmap[i, j, k] == P.RecordedCell(old(worldmap[i, j, k]), i, j, k, o,
                                                    roll, pitch, cosYaw, sinYaw, xpos, ypos, worldmap.Length0)
    {
      var worldSize := worldmap.Length0;
      var obsWorld := P.ToWorld(o.obs, cosYaw, sinYaw, xpos, ypos, worldSize, P.MapScale);
      var tgtWorld := P.ToWorld(o.tgt, cosYaw, sinYaw, xpos, ypos, worldSize, P.MapScale);
      var mskWorld := P.ToWorld(o.msk, cosYaw, sinYaw, xpos, ypos, worldSize, P.MapScale);
      if P.Level(roll, pitch) {
        PaintChannel(obsWorld, 0);
        PaintChannel(tgtWorld, 1);
        PaintChannel(mskWorld, 2);
      }
    }

    /** Step 8 of `perception_step`: the distance and angle fields. */
    method SetBearings(b: P.Bearings)
      modifies this`walDists, this`walAngles, this`navDists, this`navAngles,
               this`tgtDists, this`tgtAngles, this`colDists, this`colAngles
      ensures Sensed() == b
    {
      walDists, walAngles := b.walDists, b.walAngles;
      navDists, navAngles := b.navDists, b.navAngles;
      tgtDists, tgtAngles := b.tgtDists, b.tgtAngles;
      colDists, colAngles := b.colDists, b.colAngles;
    }
  }
}
