# Fly-through camera of the shader playground

The program renders a cube with OpenGL and lets the user fly around it with a
camera. This project models that camera in Dafny (`src/main.rs`):

- its state: position, an optional look-at target, facing direction, up
  vector, perspective projection, and one movement intent per axis;
- the key handler that sets and clears the target and the intents;
- mouse-look rotation in free-look mode;
- the per-frame step that re-aims at the target and moves by the intents;
- the view transform it hands to the renderer;
- the static cube mesh the renderer draws.

Modules:

- `Options`: Rust's `Option`.
- `Vectors`: `Vector3`/`Point3` and the linear block of `Matrix4`, over
  exact reals. Defines sum, difference, negation, scaling, dot and cross
  products, matrix product and `transform_vector`.
- `CameraModel`: the enums, the key input, and the transition table
  `KeyTransition` that `handle_keys` follows. Also the class `Camera`, whose
  methods update its fields in place, as the Rust `&mut self` methods do.
- `KeySequences`: what whole sequences of key events do to the camera's key
  state.
- `Mesh`: `VERTEX_DATA`, `INDICES` and the draw count.
- `Scenarios`: client code driving a camera as the event loop does, with the
  results its contracts guarantee.

The code differs from a plain reading of the camera's intended behaviour in
four places. The model follows the code in each:

- **Re-locking the target.** Pressing the toggle key (scancode 16) when no
  target is set makes the fixed point (0, 0, 10) the target. It is not
  (0, 0, 10) offset from the current position.
- **First press wins.** A press takes effect only while its axis holds no
  intent. Pressing Down while Up is held is ignored and reported as not
  handled. Either key's release clears the axis.
- **Strafe sign.** Right moves along `direction × up`. At the starting pose
  (facing +Z, up +Y) that axis is (-1, 0, 0), so one step strafing right
  lands at (-0.16, 0, 0).
- **`handled` is not "state changed".** Clearing the target changes the state
  but returns `false`. Releasing a movement key whose intent is already clear
  returns `true` and changes nothing.

## Model

| member | source | states |
|---|---|---|
| CameraModel.Camera.constructor | src/main.rs:41-54 | The camera starts at the origin, facing +Z with +Y up, locked on (0, 0, 10), with the given perspective parameters and no movement intent. |
| CameraModel.Camera.View | src/main.rs:56-61 | The view looks from `position` with `up`. It looks at the target when locked on. In free-look it looks at the point exactly one `direction` ahead of the eye. |
| CameraModel.KeyTransition | src/main.rs:63-125 | Each key changes only its own field, and only the toggle key touches the target. A target that is set is either kept or becomes (0, 0, 10). Non-camera keys change nothing and are not handled. A release is handled exactly when it is one of the four movement keys. |
| CameraModel.HandledVersusChanged | src/main.rs:63-125 | `handled` disagrees with "the key state changed" in exactly two cases. A press of the toggle key while locked on changes the state but is not handled. Releasing a movement key whose axis has no intent is handled but changes nothing. |
| CameraModel.Camera.HandleKeys | src/main.rs:63-125 | The new target, intents and `handled` are those of `KeyTransition`, and nothing else changes. The toggle press flips locked-on and free-look and is handled only when it locks on. The toggle release does nothing. A movement press sets its direction only on an idle axis and reports whether it did. A movement release always clears its axis and is handled. Other keys are ignored. |
| CameraModel.ZeroMotionRotationIsIdentity | src/main.rs:127-133 | With no mouse motion, the composed rotation leaves the facing direction unchanged, provided the axis-angle constructor maps the zero axis to the identity. |
| CameraModel.Camera.Rotate | src/main.rs:127-133 | When locked on, the direction is unchanged. In free-look, the direction is turned by the rotation about `up` by `delta_x` composed with the rotation about `direction × up` by `delta_y`, both scaled by the field of view. Only `direction` changes. |
| CameraModel.MovesFollowFacing | src/main.rs:142-157 | Up moves `Speed` times along `direction` and Down moves the same length backwards. Any strafe is perpendicular to both `direction` and `up`. |
| CameraModel.OppositeIntentsCancel | src/main.rs:143-157 | Up and Down move by opposite vectors, as do Left and Right. An axis without an intent contributes no movement. |
| CameraModel.Camera.Step | src/main.rs:136-158 | When locked on, the new direction is the normalized vector from the old position to the target; in free-look it is unchanged. The position then moves by the vertical and horizontal movements, both taken along the new direction. Only position and direction change. |
| KeySequences.OtherKeysKeepState | src/main.rs:63-125 | Over any event sequence, the vertical intent, horizontal intent and target each stay as they were unless an event touches that field's own keys. |
| KeySequences.HeldIntentPersists | src/main.rs:77-120 | A held intent survives any sequence with no release of its axis's keys, including presses of the opposite key. |
| KeySequences.LastVerticalReleaseClears | src/main.rs:77-109 | After a release of Up or Down, with no vertical key after it, the vertical intent is clear. This holds whichever key set the intent. |
| KeySequences.LastHorizontalReleaseClears | src/main.rs:88-120 | After a release of Left or Right, with no horizontal key after it, the horizontal intent is clear. |
| KeySequences.PressThenReleaseRestores | src/main.rs:77-120 | From an idle axis, a press followed by a release of either key of that axis restores the whole key state. |
| KeySequences.TogglePresses | src/main.rs:67-76 | After n presses of the toggle key, the camera is locked on exactly when the parity of n flips the starting mode. It is then locked on (0, 0, 10); with zero presses the target is unchanged. |
| Mesh.IndicesInBounds | src/main.rs:163-209 | The vertex buffer holds 72 values, i.e. 24 vertices. The index buffer holds 36 indices, the count drawn each frame, and every index names one of the 24 vertices. |
| Mesh.EveryVertexDrawn | src/main.rs:193-209 | Every one of the 24 vertices is used by some triangle. |
| Scenarios.FirstFrame | src/main.rs:136-140 | A new camera stepped once with no intent faces (0, 0, 1) and stays at the origin. Its view looks from the origin at (0, 0, 10) with +Y up. This holds for any normalization that ignores positive scaling and keeps unit vectors. |
| Scenarios.StrafeRightFromStart | src/main.rs:153-154 | At the starting pose, one step of the Right intent moves the camera by (-0.16, 0, 0). |
| Scenarios.StrafeRightThenRelock | src/main.rs:151-157 | Three steps in order: unlocking is not handled; pressing Right is; one step leaves the camera at (-0.16, 0, 0). Locking on again is handled and targets (0, 0, 10) itself. |
| Scenarios.UpHeldDownReleased | src/main.rs:77-109 | With Up held, pressing Down is ignored and the intent stays Up. Releasing Down is handled and clears the vertical intent. |
| Scenarios.RotateWhileLocked | src/main.rs:127-133 | Mouse motion on a freshly created (locked-on) camera leaves its facing at (0, 0, 1). |

## Left out

- Shader compilation and program linking (`compile_shader`, `link_program`)
  and the GLSL sources are OpenGL driver calls. They are not part of this
  model.
- `main`, i.e. window creation, buffer upload, the event loop and drawing, is
  not part of this model. It is I/O on the window system and the GPU. The
  sequence lemmas and `Scenarios` stand in for the order in which it calls
  `handle_keys`, `rotate`, `step` and `view`.
- Reaction to window resizes is not modelled. The aspect ratio is reset with
  `Perspective3::set_aspect` on resize, inside `main`.
- The assertions nalgebra's `Perspective3::new` makes on its arguments (a
  non-zero aspect, distinct clipping planes) are not modelled: the
  projection is kept as its four parameters.
- Single-precision floating point is not modelled. Arithmetic is over exact
  reals, and the speed is exactly 0.16.
- `CameraModel.Camera.Step`: `normalize` is a parameter, so the contract
  states the direction as `normalize` of the offset to the target, not as a
  unit vector. The client lemmas assume only that normalization ignores
  positive scaling and keeps unit vectors. The `time_step` argument is
  accepted and, as in the code, has no effect.
- `CameraModel.Camera.Rotate`: `Matrix4::from_scaled_axis` is a parameter,
  so the contract names the rotation it builds but does not state that
  the rotation is orthonormal. The homogeneous fourth row and column of
  `Matrix4` are left out. `transform_vector` ignores translation, so only
  the 3x3 block matters.
- `CameraModel.Camera.View`: `Isometry3::look_at_rh` is represented by its
  three arguments (`Isometry.LookAtRh`), not by the matrix it computes.
- Key events carry more than a scancode and an element state. The other
  fields are never read by the camera and are left out.
