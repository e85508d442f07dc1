/**
  The camera of the renderer (src/main.rs): a position, an optional look-at
  target (locked-on mode when present, free-look when absent), a facing
  direction, a fixed up vector, a perspective projection and two movement
  intents set and cleared by key events.

  The three numerical routines that nalgebra provides and that the camera only
  calls are not defined here: `normalize` and `Matrix4::from_scaled_axis` are
  parameters of the operations that use them, and `Isometry3::look_at_rh` is
  represented by the `Isometry` value recording its three arguments.
 */
module CameraModel {
  import opened Options
  import opened Vectors

  datatype MoveVertical = Up | Down

  datatype MoveHorizontal = Left | Right

  /** glutin's `ElementState` of a key event. */
  datatype ElementState = Pressed | Released

  /** glutin's scancodes are `u32`. */
  type ScanCode = c: int | 0 <= c < 0x1_0000_0000

  /** The two fields of glutin's `KeyboardInput` that `handle_keys` reads. */
  datatype KeyboardInput = KeyboardInput(scancode: ScanCode, state: ElementState)

  const ToggleTargetKey: ScanCode := 16
  const UpKey: ScanCode := 17
  const LeftKey: ScanCode := 30
  const DownKey: ScanCode := 31
  const RightKey: ScanCode := 32

  predicate IsVerticalKey(c: ScanCode) { c == UpKey || c == DownKey }

  predicate IsHorizontalKey(c: ScanCode) { c == LeftKey || c == RightKey }

  predicate IsCameraKey(c: ScanCode) { c == ToggleTargetKey || IsVerticalKey(c) || IsHorizontalKey(c) }

  /** The look-at point set by the constructor and by re-enabling the target. */
  const DefaultTarget: Point3 := Vec3(0.0, 0.0, 10.0)

  /** Distance moved per `step` for an active intent (0.16 in `f32`). */
  const Speed: real := 0.16

  /** `Perspective3`'s parameters; `fovy()` gives back the field of view. */
  datatype Perspective = Perspective(aspect: real, fovy: real, zNear: real, zFar: real)

  /** The isometry `Isometry3::look_at_rh(eye, at, up)` builds, named by its arguments. */
  datatype Isometry = LookAtRh(eye: Point3, at: Point3, up: Vec3)

  /** The part of the camera that key events change. */
  datatype KeyState = KeyState(target: Option<Point3>, vertical: Option<MoveVertical>, horizontal: Option<MoveHorizontal>)

  /** The new key state and the `handled` flag `handle_keys` returns. */
  datatype KeyOutcome = KeyOutcome(next: KeyState, handled: bool)

  /** The vertical keys: a press sets the intent only when none is held; a release always clears it. */
  function VerticalKey(k: KeyState, state: ElementState, m: MoveVertical): KeyOutcome
  {
    if state == Pressed then
      if k.vertical.None? then KeyOutcome(k.(vertical := Some(m)), true) else KeyOutcome(k, false)
    else
      KeyOutcome(k.(vertical := None), true)
  }

  /** The horizontal keys, with the same rule on `horizontal`. */
  function HorizontalKey(k: KeyState, state: ElementState, m: MoveHorizontal): KeyOutcome
  {
    if state == Pressed then
      if k.horizontal.None? then KeyOutcome(k.(horizontal := Some(m)), true) else KeyOutcome(k, false)
    else
      KeyOutcome(k.(horizontal := None), true)
  }

  /**
    The transition table of `handle_keys`. Each key touches only its own field,
    the target only ever becomes absent or the default point, releases of the
    four movement keys are always handled, and other keys are ignored.
   */
  function KeyTransition(k: KeyState, input: KeyboardInput): (r: KeyOutcome)
    ensures input.scancode != ToggleTargetKey ==> r.next.target == k.target
    ensures !IsVerticalKey(input.scancode) ==> r.next.vertical == k.vertical
    ensures !IsHorizontalKey(input.scancode) ==> r.next.horizontal == k.horizontal
    ensures r.next.target.Some? ==> r.next.target == k.target || r.next.target == Some(DefaultTarget)
    ensures !IsCameraKey(input.scancode) ==> r == KeyOutcome(k, false)
    ensures input.state == Released ==>
              (r.handled <==> IsVerticalKey(input.scancode) || IsHorizontalKey(input.scancode))
  {
    match input.scancode
    case 16 =>
      if input.state == Pressed then
        if k.target.None? then KeyOutcome(k.(target := Some(DefaultTarget)), true)
        else KeyOutcome(k.(target := None), false)
      else KeyOutcome(k, false)
    case 17 => VerticalKey(k, input.state, Up)
    case 30 => HorizontalKey(k, input.state, Left)
    case 31 => VerticalKey(k, input.state, Down)
    case 32 => HorizontalKey(k, input.state, Right)
    case _ => KeyOutcome(k, false)
  }

  /**
    `handled` is not "the state changed": clearing the target changes the state
    yet is not reported, and releasing a movement key whose intent is already
    clear is reported yet changes nothing. These are the only two mismatches.
   */
  lemma HandledVersusChanged(k: KeyState, input: KeyboardInput)
    ensures var r := KeyTransition(k, input);
            !r.handled && r.next != k <==>
              input == KeyboardInput(ToggleTargetKey, Pressed) && k.target.Some?
    ensures var r := KeyTransition(k, input);
            r.handled && r.next == k <==>
              input.state == Released &&
              ((IsVerticalKey(input.scancode) && k.vertical.None?) ||
               (IsHorizontalKey(input.scancode) && k.horizontal.None?))
  {
  }

  /** The rotation `rotate` applies: about `up` by `delta_x`, then about `direction x up` by `delta_y`, both scaled by the field of view. */
  function Rotation(up: Vec3, direction: Vec3, deltaX: real, deltaY: real, fovy: real, fromScaledAxis: Vec3 -> Mat3): Mat3
  {
    Mul(fromScaledAxis(Scale(Scale(up, deltaX), fovy)),
        fromScaledAxis(Scale(Scale(Cross(direction, up), deltaY), fovy)))
  }

  /**
    With no mouse motion the combined rotation leaves every direction as it
    is, provided the axis-angle constructor maps the zero axis to the identity.
   */
  lemma ZeroMotionRotationIsIdentity(up: Vec3, direction: Vec3, fovy: real, fromScaledAxis: Vec3 -> Mat3)
    requires fromScaledAxis(Zero) == Identity
    ensures Transform(Rotation(up, direction, 0.0, 0.0, fovy, fromScaledAxis), direction) == direction
  {
    assert Scale(Scale(up, 0.0), fovy) == Zero;
    assert Scale(Scale(Cross(direction, up), 0.0), fovy) == Zero;
  }

  /** The movement `step` makes along the facing direction for a vertical intent. */
  function ForwardMove(vertical: Option<MoveVertical>, direction: Vec3): Vec3
  {
    match vertical
    case None => Zero
    case Some(Up) => Scale(direction, Speed)
    case Some(Down) => Neg(Scale(direction, Speed))
  }

  /** The sideways movement `step` makes for a horizontal intent: along `direction x up`. */
  function StrafeMove(horizontal: Option<MoveHorizontal>, direction: Vec3, up: Vec3): Vec3
  {
    match horizontal
    case None => Zero
    case Some(Left) => Neg(Scale(Cross(direction, up), Speed))
    case Some(Right) => Scale(Cross(direction, up), Speed)
  }

  /**
    Moving by a vertical intent goes `Speed` times the length of `direction`,
    forwards for Up and backwards for Down; strafing is perpendicular to both
    `direction` and `up`, so it never moves the camera along its facing.
   */
  lemma MovesFollowFacing(vertical: Option<MoveVertical>, horizontal: Option<MoveHorizontal>, direction: Vec3, up: Vec3)
    ensures vertical.Some? ==>
              Dot(ForwardMove(vertical, direction), ForwardMove(vertical, direction)) == Speed * Speed * Dot(direction, direction)
    ensures vertical == Some(Up) ==> Dot(ForwardMove(vertical, direction), direction) == Speed * Dot(direction, direction)
    ensures vertical == Some(Down) ==> Dot(ForwardMove(vertical, direction), direction) == -Speed * Dot(direction, direction)
    ensures Dot(StrafeMove(horizontal, direction, up), direction) == 0.0
    ensures Dot(StrafeMove(horizontal, direction, up), up) == 0.0
  {
    var f := ForwardMove(vertical, direction);
    var s := StrafeMove(horizontal, direction, up);
    if horizontal.Some? {
      var c := Cross(direction, up);
      var k := if horizontal == Some(Right) then Speed else -Speed;
      assert s == Scale(c, k);
      CrossPerpendicular(direction, up, k);
    }
  }

  /** Opposite keys of one axis move by opposite amounts, and an axis with no intent does not move the camera. */
  lemma OppositeIntentsCancel(direction: Vec3, up: Vec3)
    ensures Add(ForwardMove(Some(Up), direction), ForwardMove(Some(Down), direction)) == Zero
    ensures Add(StrafeMove(Some(Left), direction, up), StrafeMove(Some(Right), direction, up)) == Zero
    ensures ForwardMove(None, direction) == Zero && StrafeMove(None, direction, up) == Zero
  {
  }

  class Camera {
    var position: Point3
    var target: Option<Point3>
    var direction: Vec3
    var up: Vec3
    var projection: Perspective
    var horizontal: Option<MoveHorizontal>
    var vertical: Option<MoveVertical>

    /** `Camera::new`: at the origin, facing +Z with +Y up, locked on the default target, no intents. */
    constructor (aspect: real, fov: real, zNear: real, zFar: real)
      ensures position == Zero && target == Some(DefaultTarget)
      ensures direction == Vec3(0.0, 0.0, 1.0) && up == Vec3(0.0, 1.0, 0.0)
      ensures projection == Perspective(aspect, fov, zNear, zFar)
      ensures horizontal.None? && vertical.None?
    {
      position := Vec3(0.0, 0.0, 0.0);
      target := Some(Vec3(0.0, 0.0, 10.0));
      direction := Vec3(0.0, 0.0, 1.0);
      up := Vec3(0.0, 1.0, 0.0);
      projection := Perspective(aspect, fov, zNear, zFar);
      horizontal := None;
      vertical := None;
    }

    function Keys(): KeyState
      reads this
    {
      KeyState(target, vertical, horizontal)
    }

    /**
      `view`: a look-at from `position` with `up`, towards the target when
      locked on, and one unit of `direction` ahead in free-look.
     */
    function View(): (r: Isometry)
      reads this
      ensures r.eye == position && r.up == up
      ensures target.Some? ==> r.at == target.value
      ensures target.None? ==> Sub(r.at, r.eye) == direction
    {
      match target
      case Some(t) => LookAtRh(position, t, up)
      case None => LookAtRh(position, Add(position, direction), up)
    }

    /** `handle_keys`: updates the target and the intents as `KeyTransition` says and nothing else. */
    method HandleKeys(input: KeyboardInput) returns (handled: bool)
      modifies this`target, this`vertical, this`horizontal
      ensures KeyOutcome(Keys(), handled) == KeyTransition(old(Keys()), input)
      ensures input == KeyboardInput(ToggleTargetKey, Pressed) ==>
                if old(target).None? then target == Some(DefaultTarget) && handled
                else target.None? && !handled
      ensures input == KeyboardInput(ToggleTargetKey, Released) ==> Keys() == old(Keys()) && !handled
      ensures IsVerticalKey(input.scancode) && input.state == Pressed ==>
                handled == old(vertical).None? &&
                vertical == (if old(vertical).Some? then old(vertical)
                             else if input.scancode == UpKey then Some(Up) else Some(Down))
      ensures IsVerticalKey(input.scancode) && input.state == Released ==> vertical.None? && handled
      ensures IsHorizontalKey(input.scancode) && input.state == Pressed ==>
                handled == old(horizontal).None? &&
                horizontal == (if old(horizontal).Some? then old(horizontal)
                               else if input.scancode == LeftKey then Some(Left) else Some(Right))
      ensures IsHorizontalKey(input.scancode) && input.state == Released ==> horizontal.None? && handled
      ensures !IsCameraKey(input.scancode) ==> Keys() == old(Keys()) && !handled
    {
      handled := false;
      match input.scancode
      case 16 =>
        if input.state == Pressed {
          if target.None? {
            target := Some(Vec3(0.0, 0.0, 10.0));
            handled := true;
          } else {
            target := None;
          }
        }
      case 17 =>
        if input.state == Pressed {
          if vertical.None? {
            vertical := Some(Up);
            handled := true;
          }
        } else {
          vertical := None;
          handled := true;
        }
      case 30 =>
        if input.state == Pressed {
          if horizontal.None? {
            horizontal := Some(Left);
            handled := true;
          }
        } else {
          horizontal := None;
          handled := true;
        }
      case 31 =>
        if input.state == Pressed {
          if vertical.None? {
            vertical := Some(Down);
            handled := true;
          }
        } else {
          vertical := None;
          handled := true;
        }
      case 32 =>
        if input.state == Pressed {
          if horizontal.None? {
            horizontal := Some(Right);
            handled := true;
          }
        } else {
          horizontal := None;
          handled := true;
        }
      case _ =>
    }

    /** `rotate`: in free-look, turns `direction` by `Rotation`; when locked on, does nothing. */
    method Rotate(deltaX: real, deltaY: real, fromScaledAxis: Vec3 -> Mat3)
      modifies this`direction
      ensures target.Some? ==> direction == old(direction)
      ensures target.None? ==>
                direction == Transform(Rotation(up, old(direction), deltaX, deltaY, projection.fovy, fromScaledAxis),
                                       old(direction))
    {
      if target.None? {
        var rotation := Mul(fromScaledAxis(Scale(Scale(up, deltaX), projection.fovy)),
                            fromScaledAxis(Scale(Scale(Cross(direction, up), deltaY), projection.fovy)));
        direction := Transform(rotation, direction);
      }
    }

    /**
      `step`: when locked on, faces the target from the current position; then
      moves by the vertical and horizontal intents, both taken along the new
      direction. `timeStep` has no effect.
     */
    method Step(timeStep: nat, normalize: Vec3 -> Vec3)
      modifies this`position, this`direction
      ensures direction == if target.Some? then normalize(Sub(target.value, old(position)))
                           else old(direction)
      ensures position == Add(old(position), Add(ForwardMove(vertical, direction), StrafeMove(horizontal, direction, up)))
    {
      if target.Some? {
        direction := normalize(Sub(target.value, position));
      }

      match vertical {
        case Some(Up) => position := Add(position, Scale(direction, Speed));
        case Some(Down) => position := Sub(position, Scale(direction, Speed));
        case None =>
      }

      match horizontal {
        case Some(Left) => position := Sub(position, Scale(Cross(direction, up), Speed));
        case Some(Right) => position := Add(position, Scale(Cross(direction, up), Speed));
        case None =>
      }
    }
  }

}
