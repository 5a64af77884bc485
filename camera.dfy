/**
 * Camera: a free-fly camera that owns a Transform and keeps a view and a
 * projection matrix. The input device is not queried: each frame's key and
 * mouse state is an explicit `InputState` argument.
 */
module Cameras {
  import opened Math
  import opened Transforms

  /** The input one frame sees: held key codes, the left button, and mouse motion since the last frame. */
  datatype InputState = InputState(
    keysDown: set<char>,
    mouseLeftDown: bool,
    mouseXDelta: int,
    mouseYDelta: int)

  /** XM_PIDIV4 as DirectXMath spells it, the vertical field of view. */
  const FieldOfView: real := 0.785398163
  const NearPlane: real := 0.1
  const FarPlane: real := 100.0

  /** World up, the reference for every view matrix. */
  const WorldUp := Float3(0.0, 1.0, 0.0)

  /** The view matrix of a pose: look from the position along the forward vector. */
  function View(lib: Library, position: Float3, rotation: Float3): Float4x4
  {
    lib.matrixLookToLH(position, Forward(lib, rotation), WorldUp)
  }

  /** The left-handed perspective projection for an aspect ratio. */
  function Projection(lib: Library, aspectRatio: real): Float4x4
  {
    lib.matrixPerspectiveFovLH(FieldOfView, aspectRatio, NearPlane, FarPlane)
  }

  /** The signed distance a held movement key moves in one frame: `sign * moveSpeed * dt`. */
  function KeyDistance(sign: real, moveSpeed: real, dt: real): real
  {
    sign * moveSpeed * dt
  }

  /** The one-element sequence [op] when `held`, otherwise nothing. */
  function When(held: bool, op: Op): seq<Op>
  {
    if held then [op] else []
  }

  /** The six movement keys, in the order Update tests them. */
  datatype MoveKey = W | S | D | A | Q | E

  /** The key code each movement key is read under. */
  function KeyCode(k: MoveKey): char
  {
    match k
    case W => 'W'
    case S => 'S'
    case D => 'D'
    case A => 'A'
    case Q => 'Q'
    case E => 'E'
  }

  /**
   * The transform call a held key makes: W and S move along the local z axis,
   * D and A along the local x axis, Q and E straight up and down in world space.
   */
  function KeyOp(k: MoveKey, dt: real, moveSpeed: real): Op
  {
    match k
    case W => MoveRelative(Float3(0.0, 0.0, KeyDistance(1.0, moveSpeed, dt)))
    case S => MoveRelative(Float3(0.0, 0.0, KeyDistance(-1.0, moveSpeed, dt)))
    case D => MoveRelative(Float3(KeyDistance(1.0, moveSpeed, dt), 0.0, 0.0))
    case A => MoveRelative(Float3(KeyDistance(-1.0, moveSpeed, dt), 0.0, 0.0))
    case Q => MoveAbsolute(Float3(0.0, KeyDistance(1.0, moveSpeed, dt), 0.0))
    case E => MoveAbsolute(Float3(0.0, KeyDistance(-1.0, moveSpeed, dt), 0.0))
  }

  /** The call one key makes this frame: its operation if the key is held, nothing otherwise. */
  function KeyCall(input: InputState, k: MoveKey, dt: real, moveSpeed: real): seq<Op>
  {
    When(KeyCode(k) in input.keysDown, KeyOp(k, dt, moveSpeed))
  }

  /** The key-driven moves of one frame, in the order they are tested: W, S, D, A, Q, E. */
  function KeyOps(input: InputState, dt: real, moveSpeed: real): (ops: seq<Op>)
    ensures forall i :: 0 <= i < |ops| ==> ops[i].MoveRelative? || ops[i].MoveAbsolute?
  {
    KeyCall(input, W, dt, moveSpeed) + KeyCall(input, S, dt, moveSpeed) +
    KeyCall(input, D, dt, moveSpeed) + KeyCall(input, A, dt, moveSpeed) +
    KeyCall(input, Q, dt, moveSpeed) + KeyCall(input, E, dt, moveSpeed)
  }

  /** The angle a mouse delta turns in one frame: `delta * dt * lookSpeed`. */
  function LookStep(delta: int, dt: real, lookSpeed: real): real
  {
    delta as real * dt * lookSpeed
  }

  /** The rotation the mouse asks for: pitch from the vertical delta, yaw from the horizontal one, no roll. */
  function LookAngles(input: InputState, dt: real, lookSpeed: real): Float3
  {
    Float3(LookStep(input.mouseYDelta, dt, lookSpeed), LookStep(input.mouseXDelta, dt, lookSpeed), 0.0)
  }

  /** The mouse-driven rotation of one frame, applied only while the left button is down. */
  function MouseOps(input: InputState, dt: real, lookSpeed: real): (ops: seq<Op>)
    ensures input.mouseLeftDown ==> ops == [Rotate(LookAngles(input, dt, lookSpeed))]
    ensures !input.mouseLeftDown ==> ops == []
  {
    When(input.mouseLeftDown, Rotate(LookAngles(input, dt, lookSpeed)))
  }

  /**
   * The transform operations one call of Update issues, in order. All key
   * moves come first; a rotation happens only with the left button down, and
   * then it is the last operation and leaves the roll alone.
   */
  function FrameOps(input: InputState, dt: real, moveSpeed: real, lookSpeed: real): (ops: seq<Op>)
    ensures forall i :: 0 <= i < |ops| ==> ops[i].MoveRelative? || ops[i].MoveAbsolute? || ops[i].Rotate?
    ensures forall i :: 0 <= i < |ops| ==> (ops[i].Rotate? <==> input.mouseLeftDown && i == |ops| - 1)
    ensures forall i :: 0 <= i < |ops| && ops[i].Rotate? ==> ops[i].angles.z == 0.0
    ensures input.keysDown == {} && !input.mouseLeftDown ==> ops == []
    ensures input.mouseLeftDown ==> |ops| > 0 && ops[|ops| - 1] == Rotate(LookAngles(input, dt, lookSpeed))
  {
    KeyOps(input, dt, moveSpeed) + MouseOps(input, dt, lookSpeed)
  }

  /** `offset` when `held`, otherwise no movement. */
  function OffsetWhen(held: bool, offset: Float3): Float3
  {
    if held then offset else Zero
  }

  /**
   * How far a fired key moves the position when the frame starts with
   * orientation `rotation`: relative moves are rotated by it, absolute ones are not.
   */
  function KeyOffset(lib: Library, k: MoveKey, dt: real, moveSpeed: real, rotation: Float3): Float3
  {
    var op := KeyOp(k, dt, moveSpeed);
    if op.MoveRelative? then RotateByEuler(lib, op.offset, rotation) else op.offset
  }

  /**
   * The position after one frame, written as a sum: every held movement key
   * contributes its offset, the four horizontal ones rotated by the
   * orientation `rotation` the frame started with, Q and E straight up and down.
   */
  function FramePosition(lib: Library, input: InputState, dt: real, moveSpeed: real,
                         position: Float3, rotation: Float3): Float3
  {
    var keys := input.keysDown;
    var forward := OffsetWhen('W' in keys, KeyOffset(lib, W, dt, moveSpeed, rotation));
    var back := OffsetWhen('S' in keys, KeyOffset(lib, S, dt, moveSpeed, rotation));
    var right := OffsetWhen('D' in keys, KeyOffset(lib, D, dt, moveSpeed, rotation));
    var left := OffsetWhen('A' in keys, KeyOffset(lib, A, dt, moveSpeed, rotation));
    var up := OffsetWhen('Q' in keys, KeyOffset(lib, Q, dt, moveSpeed, rotation));
    var down := OffsetWhen('E' in keys, KeyOffset(lib, E, dt, moveSpeed, rotation));
    Add(Add(Add(Add(Add(Add(position, forward), back), right), left), up), down)
  }

  /** The rotation after one frame: unchanged unless the left button is down. */
  function FrameRotation(input: InputState, dt: real, lookSpeed: real, rotation: Float3): Float3
  {
    if input.mouseLeftDown then Add(rotation, LookAngles(input, dt, lookSpeed)) else rotation
  }

  /**
   * One key's call, made or skipped: the rotation, scale and matrices are
   * kept, the position gains the key's offset when it is held, and the flag
   * is set only by an absolute move that fired.
   */
  lemma KeyCallEffect(lib: Library, s: TransformState, input: InputState, k: MoveKey, dt: real, moveSpeed: real)
    ensures var r := Run(lib, s, KeyCall(input, k, dt, moveSpeed));
      var held := KeyCode(k) in input.keysDown;
      r.position == Add(s.position, OffsetWhen(held, KeyOffset(lib, k, dt, moveSpeed, s.rotation))) &&
      r.rotation == s.rotation && r.scale == s.scale &&
      r.worldMatrix == s.worldMatrix && r.worldInverseTranspose == s.worldInverseTranspose &&
      r.dirty == (s.dirty || (held && KeyOp(k, dt, moveSpeed).MoveAbsolute?))
  {
    RunWhen(lib, s, KeyCode(k) in input.keysDown, KeyOp(k, dt, moveSpeed));
  }

  /**
   * The effect of one frame's operations on the transform, in closed form.
   * Because the rotation comes last, every relative move uses the orientation
   * the frame started with. Only MoveAbsolute and Rotate set the dirty flag:
   * a frame with only W, S, D or A held leaves a clean cache clean.
   */
  lemma FrameEffect(lib: Library, s: TransformState, input: InputState,
                    dt: real, moveSpeed: real, lookSpeed: real)
    ensures var r := Run(lib, s, FrameOps(input, dt, moveSpeed, lookSpeed));
      r.position == FramePosition(lib, input, dt, moveSpeed, s.position, s.rotation) &&
      r.rotation == FrameRotation(input, dt, lookSpeed, s.rotation) &&
      r.scale == s.scale &&
      r.worldMatrix == s.worldMatrix && r.worldInverseTranspose == s.worldInverseTranspose &&
      r.dirty == (s.dirty || 'Q' in input.keysDown || 'E' in input.keysDown || input.mouseLeftDown)
  {
    var w := KeyCall(input, W, dt, moveSpeed);
    var b := KeyCall(input, S, dt, moveSpeed);
    var rt := KeyCall(input, D, dt, moveSpeed);
    var lf := KeyCall(input, A, dt, moveSpeed);
    var u := KeyCall(input, Q, dt, moveSpeed);
    var dn := KeyCall(input, E, dt, moveSpeed);
    var m := MouseOps(input, dt, lookSpeed);
    assert FrameOps(input, dt, moveSpeed, lookSpeed) == w + b + rt + lf + u + dn + m;

    RunConcat(lib, s, w + b + rt + lf + u + dn, m);
    RunConcat(lib, s, w + b + rt + lf + u, dn);
    RunConcat(lib, s, w + b + rt + lf, u);
    RunConcat(lib, s, w + b + rt, lf);
    RunConcat(lib, s, w + b, rt);
    RunConcat(lib, s, w, b);

    var s1 := Run(lib, s, w);
    KeyCallEffect(lib, s, input, W, dt, moveSpeed);
    var s2 := Run(lib, s1, b);
    KeyCallEffect(lib, s1, input, S, dt, moveSpeed);
    var s3 := Run(lib, s2, rt);
    KeyCallEffect(lib, s2, input, D, dt, moveSpeed);
    var s4 := Run(lib, s3, lf);
    KeyCallEffect(lib, s3, input, A, dt, moveSpeed);
    var s5 := Run(lib, s4, u);
    KeyCallEffect(lib, s4, input, Q, dt, moveSpeed);
    KeyCallEffect(lib, s5, input, E, dt, moveSpeed);
    RunWhen(lib, Run(lib, s5, dn), input.mouseLeftDown, Rotate(LookAngles(input, dt, lookSpeed)));
  }

  /**
   * A frame that only walks (W, S, D, A, no Q, E or mouse) leaves a clean
   * cache clean with the matrices it had, though the position may have moved:
   * until something else dirties the transform, its world matrix is that of
   * the pose before the frame.
   */
  lemma WalkingKeepsCachedWorld(lib: Library, s: TransformState, input: InputState,
                                dt: real, moveSpeed: real, lookSpeed: real)
    requires !s.dirty
    requires 'Q' !in input.keysDown && 'E' !in input.keysDown && !input.mouseLeftDown
    ensures var r := Run(lib, s, FrameOps(input, dt, moveSpeed, lookSpeed));
      !r.dirty && r.worldMatrix == s.worldMatrix && r.rotation == s.rotation &&
      Observe(lib, r, GetWorldMatrix) == Returned(s.worldMatrix)
  {
    FrameEffect(lib, s, input, dt, moveSpeed, lookSpeed);
  }

  /** A Camera object. */
  class Camera {
    /** The camera's own pose, created with the camera and owned by it alone; never replaced, only mutated. */
    const transform: Transform

    var viewMatrix: Float4x4
    var projMatrix: Float4x4
    var aspectRatio: real
    const moveSpeed: real
    const lookSpeed: real

    /**
     * Speeds 5 and 1, the given aspect ratio, a transform placed at (0, 0, -5)
     * and both matrices built from that state.
     */
    constructor (lib: Library, aspectRatio: real)
      ensures fresh(transform) && transform.lib == lib
      ensures moveSpeed == 5.0 && lookSpeed == 1.0 && this.aspectRatio == aspectRatio
      ensures transform.position == Float3(0.0, 0.0, -5.0)
      ensures transform.rotation == Zero && transform.scale == One && transform.dirty
      ensures projMatrix == Projection(lib, aspectRatio)
      ensures viewMatrix == View(lib, transform.position, transform.rotation)
    {
      moveSpeed := 5.0;
      lookSpeed := 1.0;
      this.aspectRatio := aspectRatio;
      transform := new Transform(lib);
      new;
      transform.SetPosition(0.0, 0.0, -5.0);
      UpdateProjMatrix(aspectRatio);
      UpdateViewMatrix();
    }

    /** Rebuilds the projection from its argument; the stored aspect ratio is not updated. */
    method UpdateProjMatrix(aspectRatio: real)
      modifies this`projMatrix
      ensures projMatrix == Projection(transform.lib, aspectRatio)
      ensures viewMatrix == old(viewMatrix) && this.aspectRatio == old(this.aspectRatio)
    {
      projMatrix := transform.lib.matrixPerspectiveFovLH(FieldOfView, aspectRatio, NearPlane, FarPlane);
    }

    /** Rebuilds the view from the transform's position and forward vector. */
    method UpdateViewMatrix()
      modifies this`viewMatrix
      ensures viewMatrix == View(transform.lib, transform.position, transform.rotation)
      ensures projMatrix == old(projMatrix)
    {
      var pos := transform.GetPosition();
      var forward := transform.GetForward();
      viewMatrix := transform.lib.matrixLookToLH(pos, forward, WorldUp);
    }

    /**
     * One frame of free-fly navigation: the guarded key moves, then the mouse
     * rotation, then a new view matrix, always. The projection is untouched.
     */
    method Update(input: InputState, dt: real)
      modifies this`viewMatrix, transform
      ensures transform.State() ==
        Run(transform.lib, old(transform.State()), FrameOps(input, dt, moveSpeed, lookSpeed))
      ensures transform.position ==
        FramePosition(transform.lib, input, dt, moveSpeed, old(transform.position), old(transform.rotation))
      ensures transform.rotation == FrameRotation(input, dt, lookSpeed, old(transform.rotation))
      ensures transform.scale == old(transform.scale)
      ensures transform.dirty ==
        (old(transform.dirty) || 'Q' in input.keysDown || 'E' in input.keysDown || input.mouseLeftDown)
      ensures viewMatrix == View(transform.lib, transform.position, transform.rotation)
      ensures projMatrix == old(projMatrix)
    {
      ghost var s0 := transform.State();
      MoveByKeys(input, dt);
      LookByMouse(input, dt);
      RunConcat(transform.lib, s0, KeyOps(input, dt, moveSpeed), MouseOps(input, dt, lookSpeed));
      FrameEffect(transform.lib, s0, input, dt, moveSpeed, lookSpeed);
      UpdateViewMatrix();
    }

    /** The key-movement half of Update: W, S, D, A move relatively, Q and E absolutely. */
    method MoveByKeys(input: InputState, dt: real)
      modifies transform
      ensures transform.State() == Run(transform.lib, old(transform.State()), KeyOps(input, dt, moveSpeed))
    {
      var keys := input.keysDown;
      ghost var s0 := transform.State();
      if 'W' in keys {
        transform.MoveRelative(0.0, 0.0, KeyDistance(1.0, moveSpeed, dt));
      }
      ghost var s1 := transform.State();
      if 'S' in keys {
        transform.MoveRelative(0.0, 0.0, KeyDistance(-1.0, moveSpeed, dt));
      }
      ghost var s2 := transform.State();
      if 'D' in keys {
        transform.MoveRelative(KeyDistance(1.0, moveSpeed, dt), 0.0, 0.0);
      }
      ghost var s3 := transform.State();
      if 'A' in keys {
        transform.MoveRelative(KeyDistance(-1.0, moveSpeed, dt), 0.0, 0.0);
      }
      ghost var s4 := transform.State();
      if 'Q' in keys {
        transform.MoveAbsolute(0.0, KeyDistance(1.0, moveSpeed, dt), 0.0);
      }
      ghost var s5 := transform.State();
      if 'E' in keys {
        transform.MoveAbsolute(0.0, KeyDistance(-1.0, moveSpeed, dt), 0.0);
      }
      KeySteps(transform.lib, input, dt, moveSpeed, s0, s1, s2, s3, s4, s5, transform.State());
    }

    /** The mouse half of Update: rotate only while the left button is down. */
    method LookByMouse(input: InputState, dt: real)
      modifies transform
      ensures transform.State() == Run(transform.lib, old(transform.State()), MouseOps(input, dt, lookSpeed))
    {
      ghost var s0 := transform.State();
      if input.mouseLeftDown {
        var cursorMovementX := input.mouseXDelta;
        var cursorMovementY := input.mouseYDelta;
        transform.Rotate(LookStep(cursorMovementY, dt, lookSpeed), LookStep(cursorMovementX, dt, lookSpeed), 0.0);
      }
      RunWhen(transform.lib, s0, input.mouseLeftDown, Rotate(LookAngles(input, dt, lookSpeed)));
    }

    method GetViewMatrix() returns (m: Float4x4)
      ensures m == viewMatrix
    {
      m := viewMatrix;
    }

    method GetProjectionMatrix() returns (m: Float4x4)
      ensures m == projMatrix
    {
      m := projMatrix;
    }
  }

  /**
   * The six guarded key calls of Update, as a chain of states, amount to
   * running KeyOps: each step applies its move exactly when its key is held.
   */
  lemma KeySteps(lib: Library, input: InputState, dt: real, moveSpeed: real,
                 s0: TransformState, s1: TransformState, s2: TransformState, s3: TransformState,
                 s4: TransformState, s5: TransformState, s6: TransformState)
    requires s1 == (if 'W' in input.keysDown then Step(lib, s0, KeyOp(W, dt, moveSpeed)) else s0)
    requires s2 == (if 'S' in input.keysDown then Step(lib, s1, KeyOp(S, dt, moveSpeed)) else s1)
    requires s3 == (if 'D' in input.keysDown then Step(lib, s2, KeyOp(D, dt, moveSpeed)) else s2)
    requires s4 == (if 'A' in input.keysDown then Step(lib, s3, KeyOp(A, dt, moveSpeed)) else s3)
    requires s5 == (if 'Q' in input.keysDown then Step(lib, s4, KeyOp(Q, dt, moveSpeed)) else s4)
    requires s6 == (if 'E' in input.keysDown then Step(lib, s5, KeyOp(E, dt, moveSpeed)) else s5)
    ensures s6 == Run(lib, s0, KeyOps(input, dt, moveSpeed))
  {
    var w := KeyCall(input, W, dt, moveSpeed);
    var b := KeyCall(input, S, dt, moveSpeed);
    var r := KeyCall(input, D, dt, moveSpeed);
    var l := KeyCall(input, A, dt, moveSpeed);
    var u := KeyCall(input, Q, dt, moveSpeed);
    var d := KeyCall(input, E, dt, moveSpeed);
    var keys := input.keysDown;
    RunWhen(lib, s0, 'W' in keys, KeyOp(W, dt, moveSpeed));
    RunWhen(lib, s1, 'S' in keys, KeyOp(S, dt, moveSpeed));
    RunWhen(lib, s2, 'D' in keys, KeyOp(D, dt, moveSpeed));
    RunWhen(lib, s3, 'A' in keys, KeyOp(A, dt, moveSpeed));
    RunWhen(lib, s4, 'Q' in keys, KeyOp(Q, dt, moveSpeed));
    RunWhen(lib, s5, 'E' in keys, KeyOp(E, dt, moveSpeed));
    RunConcat(lib, s0, w, b);
    RunConcat(lib, s0, w + b, r);
    RunConcat(lib, s0, w + b + r, l);
    RunConcat(lib, s0, w + b + r + l, u);
    RunConcat(lib, s0, w + b + r + l + u, d);
  }

  /** Running a guarded operation is one step when held and no step otherwise. */
  lemma RunWhen(lib: Library, s: TransformState, held: bool, op: Op)
    ensures Run(lib, s, When(held, op)) == if held then Step(lib, s, op) else s
  {
    if held {
      assert When(held, op)[1..] == [];
    }
  }
}
