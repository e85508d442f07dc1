/**
  Client code driving a camera the way the event loop of `main` does, with
  what the camera's contracts let a caller conclude.
 */
module Scenarios {
  import opened Options
  import opened Vectors
  import opened CameraModel

  /**
    A fresh camera, stepped once with no key held: it faces +Z towards the
    default target, has not moved, and its view looks from the origin at the
    default target with +Y up.
   */
  method FirstFrame(normalize: Vec3 -> Vec3) returns (direction: Vec3, position: Point3, view: Isometry)
    requires IdealNormalize(normalize)
    ensures direction == Vec3(0.0, 0.0, 1.0) && position == Zero
    ensures view == LookAtRh(Zero, DefaultTarget, Vec3(0.0, 1.0, 0.0))
  {
    var camera := new Camera(16.0 / 9.0, 3.14 / 4.0, 0.1, 10000.0);
    var ahead := Vec3(0.0, 0.0, 1.0);
    camera.Step(16, normalize);
    assert Sub(DefaultTarget, Zero) == Scale(ahead, 10.0);
    assert normalize(Scale(ahead, 10.0)) == normalize(ahead);
    assert Dot(ahead, ahead) == 1.0;
    assert camera.direction == ahead;
    assert camera.position == Zero;
    direction, position, view := camera.direction, camera.position, camera.View();
  }

  /**
    Unlocking the target (not reported as handled), holding the Right key and
    stepping once strafes along `direction x up` = (-1, 0, 0) by `Speed`.
    Locking on again afterwards targets (0, 0, 10) itself, not a point ten
    units ahead of where the camera now is.
   */
  method StrafeRightThenRelock(normalize: Vec3 -> Vec3)
    returns (unlocked: bool, strafing: bool, position: Point3, relocked: bool, target: Option<Point3>)
    ensures !unlocked && strafing && relocked
    ensures position == Vec3(-0.16, 0.0, 0.0)
    ensures target == Some(Vec3(0.0, 0.0, 10.0))
  {
    var camera := new Camera(16.0 / 9.0, 3.14 / 4.0, 0.1, 10000.0);
    unlocked := camera.HandleKeys(KeyboardInput(ToggleTargetKey, Pressed));
    strafing := camera.HandleKeys(KeyboardInput(RightKey, Pressed));
    camera.Step(16, normalize);
    var direction, up := camera.direction, camera.up;
    StrafeRightFromStart(direction, up);
    position := camera.position;
    relocked := camera.HandleKeys(KeyboardInput(ToggleTargetKey, Pressed));
    target := camera.target;
  }

  /** At the starting pose, facing +Z with +Y up, the strafe axis `direction x up` is -X. */
  lemma StrafeAxisAtStart(direction: Vec3, up: Vec3)
    requires direction == Vec3(0.0, 0.0, 1.0) && up == Vec3(0.0, 1.0, 0.0)
    ensures Cross(direction, up) == Vec3(-1.0, 0.0, 0.0)
  {
  }

  lemma SpeedAlong(axis: Vec3)
    requires axis == Vec3(-1.0, 0.0, 0.0)
    ensures Scale(axis, Speed) == Vec3(-0.16, 0.0, 0.0)
  {
  }

  /** Holding Right at the starting pose moves the camera by (-0.16, 0, 0) per step. */
  lemma StrafeRightFromStart(direction: Vec3, up: Vec3)
    requires direction == Vec3(0.0, 0.0, 1.0) && up == Vec3(0.0, 1.0, 0.0)
    ensures StrafeMove(Some(Right), direction, up) == Vec3(-0.16, 0.0, 0.0)
  {
    StrafeAxisAtStart(direction, up);
    SpeedAlong(Cross(direction, up));
  }

  /**
    Holding Up and then pressing Down keeps moving forwards (the first press
    wins), and releasing Down stops the movement that Up started.
   */
  method UpHeldDownReleased() returns (downTaken: bool, vertical: Option<MoveVertical>, releaseHandled: bool, after: Option<MoveVertical>)
    ensures !downTaken && vertical == Some(Up)
    ensures releaseHandled && after.None?
  {
    var camera := new Camera(16.0 / 9.0, 3.14 / 4.0, 0.1, 10000.0);
    var _ := camera.HandleKeys(KeyboardInput(UpKey, Pressed));
    downTaken := camera.HandleKeys(KeyboardInput(DownKey, Pressed));
    vertical := camera.vertical;
    releaseHandled := camera.HandleKeys(KeyboardInput(DownKey, Released));
    after := camera.vertical;
  }

  /** Mouse motion while locked on leaves the facing, and everything else, as it was. */
  method RotateWhileLocked(deltaX: real, deltaY: real, fromScaledAxis: Vec3 -> Mat3) returns (before: Vec3, after: Vec3)
    ensures before == after == Vec3(0.0, 0.0, 1.0)
  {
    var camera := new Camera(16.0 / 9.0, 3.14 / 4.0, 0.1, 10000.0);
    before := camera.direction;
    camera.Rotate(deltaX, deltaY, fromScaledAxis);
    after := camera.direction;
  }
}
