/**
 * `window.animateCarToPosition` and its per-frame continuation `updatePosition`
 * (main.js): the car glides to a target on the ground plane over two seconds
 * while the camera follows it and the orbit controls keep looking at it.
 *
 * The car, the camera and the orbit controls' target are the fields of `Rig`,
 * which each tick overwrites. What one tick writes is the value `TickPose`;
 * the chain of ticks that `requestAnimationFrame` drives is the value `Run`.
 */
module CarNavigation {
  import opened Common
  import opened Easing

  /** A destination with z at or beyond this lies in the skills area. */
  const SkillsAreaZ: real := 150.0
  /** Height at which the camera follows the car. */
  const CameraHeight: real := 12.0
  /** Distance at which the camera trails the car. */
  const CameraDistance: real := 15.0
  /** Height of the point on the car the orbit controls look at. */
  const LookHeight: real := 2.0

  /** The car's position and yaw, the camera's position and the orbit controls' target. */
  datatype Pose = Pose(car: Vec3, carYaw: real, camera: Vec3, lookAt: Vec3)

  /**
   * What `animateCarToPosition` captures when it is called: the car's ground
   * position, the target, the start time and whether a callback was given.
   * The source also copies the camera position (`startCam`) but never reads
   * it, so no camera interpolation exists to model.
   */
  datatype CarSession = CarSession(
    startX: real, startZ: real,
    targetX: real, targetZ: real,
    startTime: real,
    hasCallback: bool)

  /** How a tick ends: it asks for another frame, runs the callback, or just stops. */
  datatype TickOutcome = Reschedule | InvokeCallback | Finished

  predicate InSkillsArea(s: CarSession)
  {
    s.targetZ >= SkillsAreaZ
  }

  /** `Math.atan2(targetX - startX, targetZ - startZ)`: the heading of the whole trip. */
  function Heading(s: CarSession, trig: Trig): real
  {
    trig.atan2(s.targetX - s.startX, s.targetZ - s.startZ)
  }

  /** Progress of a tick run at time `now`. */
  function TickProgress(s: CarSession, now: real): real
  {
    Progress(now - s.startTime, CarDuration)
  }

  /** The end of a tick: another frame while progress is below 1, then the callback if there is one. */
  function NextStep(progress: real, hasCallback: bool): (o: TickOutcome)
    ensures o == Reschedule <==> progress < 1.0
    ensures o == InvokeCallback <==> progress >= 1.0 && hasCallback
    ensures o == Finished <==> progress >= 1.0 && !hasCallback
  {
    if progress < 1.0 then Reschedule
    else if hasCallback then InvokeCallback
    else Finished
  }

  /**
   * The pose one tick leaves behind. Only the car's height is carried over
   * from the pose before the tick; everything else follows from the session
   * and the progress.
   */
  function TickPose(before: Pose, s: CarSession, progress: real, trig: Trig): (after: Pose)
    ensures after.car.y == before.car.y
    ensures progress == 0.0 ==> after.car.x == s.startX && after.car.z == s.startZ
    ensures progress == 1.0 ==> after.car.x == s.targetX && after.car.z == s.targetZ
    ensures after.lookAt == Vec3(after.car.x, LookHeight, after.car.z)
    ensures after.camera.y == CameraHeight
    ensures InSkillsArea(s) ==>
              after.carYaw == 0.0 &&
              after.camera == Vec3(after.car.x, CameraHeight, after.car.z - CameraDistance)
    ensures !InSkillsArea(s) ==>
              after.carYaw == Heading(s, trig) &&
              after.camera.x == after.car.x + CameraDistance * trig.sin(after.carYaw + Pi) &&
              after.camera.z == after.car.z + CameraDistance * trig.cos(after.carYaw + Pi)
  {
    var e := Ease(progress);
    var car := Vec3(Lerp(s.startX, s.targetX, e), before.car.y, Lerp(s.startZ, s.targetZ, e));
    var angle := Heading(s, trig);
    var lookAt := Vec3(car.x, LookHeight, car.z);
    if InSkillsArea(s) then
      Pose(car, 0.0, Vec3(car.x, CameraHeight, car.z - CameraDistance), lookAt)
    else
      var offsetX := CameraDistance * trig.sin(angle + Pi);
      var offsetZ := CameraDistance * trig.cos(angle + Pi);
      Pose(car, angle, Vec3(car.x + offsetX, CameraHeight, car.z + offsetZ), lookAt)
  }

  /** The car, the camera and the orbit controls, which every tick overwrites field by field. */
  class Rig {
    var car: Vec3
    var carYaw: real
    var camera: Vec3
    /** `controls.target`. */
    var lookAt: Vec3

    ghost function Snapshot(): Pose
      reads this
    {
      Pose(car, carYaw, camera, lookAt)
    }

    constructor (pose: Pose)
      ensures Snapshot() == pose
    {
      car, carYaw, camera, lookAt := pose.car, pose.carYaw, pose.camera, pose.lookAt;
    }

    /**
     * `animateCarToPosition(targetX, targetZ, callback)`: captures the start
     * position at call time and runs the first tick at once. `startTime` is
     * the clock reading at the call and `now` the one inside that first tick.
     */
    method AnimateCarToPosition(targetX: real, targetZ: real, hasCallback: bool, startTime: real, now: real, trig: Trig)
      returns (s: CarSession, next: TickOutcome)
      modifies this
      ensures s == CarSession(old(car.x), old(car.z), targetX, targetZ, startTime, hasCallback)
      ensures Snapshot() == TickPose(old(Snapshot()), s, TickProgress(s, now), trig)
      ensures next == NextStep(TickProgress(s, now), hasCallback)
    {
      s := CarSession(car.x, car.z, targetX, targetZ, startTime, hasCallback);
      next := UpdatePosition(s, now, trig);
    }

    /** `updatePosition`: one frame of the animation, run at clock reading `now`. */
    method UpdatePosition(s: CarSession, now: real, trig: Trig) returns (next: TickOutcome)
      modifies this
      ensures Snapshot() == TickPose(old(Snapshot()), s, TickProgress(s, now), trig)
      ensures next == NextStep(TickProgress(s, now), s.hasCallback)
    {
      var elapsed := now - s.startTime;
      var progress := Progress(elapsed, CarDuration);
      var easeProgress := Ease(progress);

      car := car.(x := Lerp(s.startX, s.targetX, easeProgress));
      car := car.(z := Lerp(s.startZ, s.targetZ, easeProgress));

      var angle := Heading(s, trig);

      if s.targetZ >= SkillsAreaZ {
        carYaw := 0.0;
        camera := Vec3(car.x, CameraHeight, car.z - CameraDistance);
      } else {
        carYaw := angle;
        var offsetX := CameraDistance * trig.sin(angle + Pi);
        var offsetZ := CameraDistance * trig.cos(angle + Pi);
        camera := Vec3(car.x + offsetX, CameraHeight, car.z + offsetZ);
      }

      lookAt := Vec3(car.x, LookHeight, car.z);

      if progress < 1.0 {
        next := Reschedule;
      } else if s.hasCallback {
        next := InvokeCallback;
      } else {
        next := Finished;
      }
    }
  }

  /** Where a chain of ticks ends: the last pose, how often the callback ran, and whether the chain stopped. */
  datatype RunResult = RunResult(pose: Pose, callbacks: nat, stopped: bool)

  /**
   * The chain of ticks `requestAnimationFrame` drives: one tick at each clock
   * reading in `frames`, until a tick does not reschedule itself.
   */
  function Run(pose: Pose, s: CarSession, frames: seq<real>, trig: Trig): (r: RunResult)
    decreases |frames|
    ensures r.stopped <==> exists i :: 0 <= i < |frames| && TickProgress(s, frames[i]) >= 1.0
  {
    if frames == [] then RunResult(pose, 0, false)
    else
      var progress := TickProgress(s, frames[0]);
      var after := TickPose(pose, s, progress, trig);
      match NextStep(progress, s.hasCallback)
      case Reschedule =>
        assert forall i :: 0 <= i < |frames[1..]| ==> frames[1..][i] == frames[i + 1];
        Run(after, s, frames[1..], trig)
      case InvokeCallback => RunResult(after, 1, true)
      case Finished => RunResult(after, 0, true)
  }

  /**
   * Once some frame comes 2000 ms or more after the start, the chain stops
   * with the car exactly on the target at its old height, facing and framed
   * as the zone demands, and the callback has run exactly once if it was given.
   */
  lemma {:induction false} RunArrives(pose: Pose, s: CarSession, frames: seq<real>, trig: Trig)
    decreases |frames|
    requires exists i :: 0 <= i < |frames| && frames[i] - s.startTime >= CarDuration
    ensures Run(pose, s, frames, trig).stopped
    ensures Run(pose, s, frames, trig).pose.car == Vec3(s.targetX, pose.car.y, s.targetZ)
    ensures Run(pose, s, frames, trig).callbacks == if s.hasCallback then 1 else 0
    ensures InSkillsArea(s) ==> Run(pose, s, frames, trig).pose.carYaw == 0.0
    ensures !InSkillsArea(s) ==> Run(pose, s, frames, trig).pose.carYaw == Heading(s, trig)
  {
    var progress := TickProgress(s, frames[0]);
    var after := TickPose(pose, s, progress, trig);
    if progress < 1.0 {
      var i :| 0 <= i < |frames| && frames[i] - s.startTime >= CarDuration;
      assert i != 0;
      assert frames[1..][i - 1] == frames[i];
      RunArrives(after, s, frames[1..], trig);
    }
  }

  /** While every frame comes less than 2000 ms after the start, the chain keeps going and the callback never runs. */
  lemma {:induction false} RunNotYetArrived(pose: Pose, s: CarSession, frames: seq<real>, trig: Trig)
    decreases |frames|
    requires forall i :: 0 <= i < |frames| ==> frames[i] - s.startTime < CarDuration
    ensures !Run(pose, s, frames, trig).stopped
    ensures Run(pose, s, frames, trig).callbacks == 0
    ensures Run(pose, s, frames, trig).pose.car.y == pose.car.y
  {
    if frames != [] {
      var after := TickPose(pose, s, TickProgress(s, frames[0]), trig);
      assert forall i :: 0 <= i < |frames[1..]| ==> frames[1..][i] == frames[i + 1];
      RunNotYetArrived(after, s, frames[1..], trig);
    }
  }

  /** The callback runs at most once, and only when one was given and the chain has stopped. */
  lemma {:induction false} RunCallsBackAtMostOnce(pose: Pose, s: CarSession, frames: seq<real>, trig: Trig)
    decreases |frames|
    ensures Run(pose, s, frames, trig).callbacks <= 1
    ensures Run(pose, s, frames, trig).callbacks == 1 ==> s.hasCallback && Run(pose, s, frames, trig).stopped
  {
    if frames != [] && TickProgress(s, frames[0]) < 1.0 {
      RunCallsBackAtMostOnce(TickPose(pose, s, TickProgress(s, frames[0]), trig), s, frames[1..], trig);
    }
  }

  /**
   * From one tick to a later one the car never moves back: along each axis it
   * stays on the way from the start towards the target.
   */
  lemma CarAdvances(before1: Pose, before2: Pose, s: CarSession, now1: real, now2: real, trig: Trig)
    requires s.startTime <= now1 <= now2
    ensures var c1 := TickPose(before1, s, TickProgress(s, now1), trig).car;
            var c2 := TickPose(before2, s, TickProgress(s, now2), trig).car;
            (s.startX <= s.targetX ==> s.startX <= c1.x <= c2.x <= s.targetX) &&
            (s.targetX <= s.startX ==> s.targetX <= c2.x <= c1.x <= s.startX) &&
            (s.startZ <= s.targetZ ==> s.startZ <= c1.z <= c2.z <= s.targetZ) &&
            (s.targetZ <= s.startZ ==> s.targetZ <= c2.z <= c1.z <= s.startZ)
  {
    var p1, p2 := TickProgress(s, now1), TickProgress(s, now2);
    ProgressMonotone(now1 - s.startTime, now2 - s.startTime, CarDuration);
    EaseMonotone(p1, p2);
    EaseInUnit(p1);
    EaseInUnit(p2);
    EaseMonotone(0.0, p1);
    EaseMonotone(p2, 1.0);
    LerpMonotone(s.startX, s.targetX, 0.0, Ease(p1));
    LerpMonotone(s.startX, s.targetX, Ease(p1), Ease(p2));
    LerpMonotone(s.startX, s.targetX, Ease(p2), 1.0);
    LerpMonotone(s.startZ, s.targetZ, 0.0, Ease(p1));
    LerpMonotone(s.startZ, s.targetZ, Ease(p1), Ease(p2));
    LerpMonotone(s.startZ, s.targetZ, Ease(p2), 1.0);
  }

  /**
   * A trip from the origin to the Skills stop (0, 170), one second in: the car
   * is half way, faces straight ahead, and the camera is 15 units behind it.
   */
  lemma SkillsTripHalfway(y: real, yaw: real, camera: Vec3, lookAt: Vec3, trig: Trig)
    ensures var s := CarSession(0.0, 0.0, 0.0, 170.0, 0.0, false);
            var after := TickPose(Pose(Vec3(0.0, y, 0.0), yaw, camera, lookAt), s, TickProgress(s, 1000.0), trig);
            after == Pose(Vec3(0.0, y, 85.0), 0.0, Vec3(0.0, 12.0, 70.0), Vec3(0.0, 2.0, 85.0))
  {
  }
}
