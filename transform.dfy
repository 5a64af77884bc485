/**
 * Transform: the pose of one object (position, Euler rotation, scale) and the
 * two matrices derived from it, cached behind a dirty flag.
 *
 * The first half of the module is the specification as values: the state of
 * a transform, the operations on it, one step of each, and runs of them. The
 * second half is the class, whose methods are proved to take exactly those
 * steps.
 */
module Transforms {
  import opened Math

  /** Every field of a Transform object. */
  datatype TransformState = TransformState(
    position: Float3,
    rotation: Float3,
    scale: Float3,
    dirty: bool,
    worldMatrix: Float4x4,
    worldInverseTranspose: Float4x4)

  /** The public operations of a Transform that the cache contract is about: the mutators, the refresh and the two matrix reads. */
  datatype Op =
    | MoveAbsolute(offset: Float3)
    | Rotate(angles: Float3)
    | Scale(factors: Float3)
    | MoveRelative(offset: Float3)
    | SetPosition(position: Float3)
    | SetRotation(rotation: Float3)
    | SetScale(scale: Float3)
    | UpdateMatrices
    | GetWorldMatrix
    | GetInveseTranspose

  /** What an operation hands back to its caller. */
  datatype Observation = Nothing | Returned(matrix: Float4x4)

  /** The operations that only refresh the cache (and perhaps return a matrix). */
  predicate IsRefresh(op: Op)
  {
    op.UpdateMatrices? || op.GetWorldMatrix? || op.GetInveseTranspose?
  }

  /** The operations that overwrite one vector of the pose. */
  predicate IsSetter(op: Op)
  {
    op.SetPosition? || op.SetRotation? || op.SetScale?
  }

  /** The world matrix of a pose: scaling, then rotation, then translation (S * R * T). */
  function WorldOf(lib: Library, position: Float3, rotation: Float3, scale: Float3): Float4x4
  {
    lib.matrixMultiply(
      lib.matrixMultiply(lib.matrixScaling(scale), lib.matrixRotationRollPitchYaw(rotation)),
      lib.matrixTranslation(position))
  }

  /** The direction a pose faces: the base vector (0, 0, 1) rotated by its orientation. */
  function Forward(lib: Library, rotation: Float3): Float3
  {
    RotateByEuler(lib, Float3(0.0, 0.0, 1.0), rotation)
  }

  /** The matrix used for normals: the inverse of the transpose. */
  function InverseTransposeOf(lib: Library, m: Float4x4): Float4x4
  {
    lib.matrixInverse(lib.matrixTranspose(m))
  }

  /**
   * The cache invariant: a clean cache holds the matrices of the current pose.
   * A dirty cache may hold anything.
   */
  predicate Coherent(lib: Library, s: TransformState)
  {
    !s.dirty ==>
      s.worldMatrix == WorldOf(lib, s.position, s.rotation, s.scale) &&
      s.worldInverseTranspose == InverseTransposeOf(lib, s.worldMatrix)
  }

  /**
   * The one library law the model needs: the pose a new Transform starts with
   * (no translation, no rotation, unit scale) composes to the identity, whose
   * inverse-transpose is the identity again. It holds exactly in DirectXMath
   * (cos 0 = 1, sin 0 = 0, all products by 1).
   */
  predicate IdentityPoseIsIdentity(lib: Library)
  {
    WorldOf(lib, Zero, Zero, One) == Identity() &&
    InverseTransposeOf(lib, Identity()) == Identity()
  }

  /** Two states with the same position, rotation and scale. */
  predicate SamePose(a: TransformState, b: TransformState)
  {
    a.position == b.position && a.rotation == b.rotation && a.scale == b.scale
  }

  /** The state of a freshly constructed Transform. */
  function Initial(): TransformState
  {
    TransformState(Zero, Zero, One, false, Identity(), Identity())
  }

  /**
   * UpdateMatrices: a clean transform is left alone; a dirty one gets both
   * matrices rebuilt from its pose and becomes clean.
   */
  function Refresh(lib: Library, s: TransformState): (r: TransformState)
    ensures !r.dirty && SamePose(r, s)
    ensures !s.dirty ==> r == s
    ensures s.dirty ==> Coherent(lib, r)
    ensures Coherent(lib, s) ==> Coherent(lib, r)
  {
    if !s.dirty then s
    else
      var world := WorldOf(lib, s.position, s.rotation, s.scale);
      s.(worldMatrix := world, worldInverseTranspose := InverseTransposeOf(lib, world), dirty := false)
  }

  /**
   * One operation. Every mutator marks the cache dirty except MoveRelative,
   * which moves the position along the rotated offset and leaves the flag and
   * the cached matrices as they were.
   */
  function Step(lib: Library, s: TransformState, op: Op): (r: TransformState)
    ensures !IsRefresh(op) && !op.MoveRelative? ==> r.dirty
    ensures !op.MoveRelative? && Coherent(lib, s) ==> Coherent(lib, r)
    ensures op.MoveRelative? ==>
      r.rotation == s.rotation && r.scale == s.scale && r.dirty == s.dirty &&
      r.worldMatrix == s.worldMatrix && r.worldInverseTranspose == s.worldInverseTranspose
    ensures IsRefresh(op) ==> !r.dirty && SamePose(r, s)
  {
    match op
    case MoveAbsolute(d) => s.(position := Add(s.position, d), dirty := true)
    case Rotate(d) => s.(rotation := Add(s.rotation, d), dirty := true)
    case Scale(f) => s.(scale := Mul(s.scale, f), dirty := true)
    case MoveRelative(d) => s.(position := Add(s.position, RotateByEuler(lib, d, s.rotation)))
    case SetPosition(v) => s.(position := v, dirty := true)
    case SetRotation(v) => s.(rotation := v, dirty := true)
    case SetScale(v) => s.(scale := v, dirty := true)
    case UpdateMatrices => Refresh(lib, s)
    case GetWorldMatrix => Refresh(lib, s)
    case GetInveseTranspose => Refresh(lib, s)
  }

  /** What one operation returns: the two getters return a cached matrix after refreshing. */
  function Observe(lib: Library, s: TransformState, op: Op): (r: Observation)
    ensures r.Returned? <==> op.GetWorldMatrix? || op.GetInveseTranspose?
    ensures op.GetWorldMatrix? && Coherent(lib, s) ==>
      r == Returned(WorldOf(lib, s.position, s.rotation, s.scale))
    ensures op.GetInveseTranspose? && Coherent(lib, s) ==>
      r == Returned(InverseTransposeOf(lib, WorldOf(lib, s.position, s.rotation, s.scale)))
  {
    match op
    case GetWorldMatrix => Returned(Refresh(lib, s).worldMatrix)
    case GetInveseTranspose => Returned(Refresh(lib, s).worldInverseTranspose)
    case _ => Nothing
  }

  /** The state after a sequence of operations, applied first to last. */
  function Run(lib: Library, s: TransformState, ops: seq<Op>): TransformState
    decreases |ops|
  {
    if ops == [] then s else Run(lib, Step(lib, s, ops[0]), ops[1..])
  }

  /** What each operation in a sequence returns, in order. */
  function Observations(lib: Library, s: TransformState, ops: seq<Op>): (obs: seq<Observation>)
    ensures |obs| == |ops|
    decreases |ops|
  {
    if ops == [] then []
    else [Observe(lib, s, ops[0])] + Observations(lib, Step(lib, s, ops[0]), ops[1..])
  }

  /** How many operations in a sequence actually rebuild the matrices. */
  function Recomputations(lib: Library, s: TransformState, ops: seq<Op>): (n: nat)
    ensures n <= |ops|
    ensures !s.dirty && (forall i :: 0 <= i < |ops| ==> IsRefresh(ops[i])) ==> n == 0
    decreases |ops|
  {
    if ops == [] then 0
    else
      (if IsRefresh(ops[0]) && s.dirty then 1 else 0) +
      Recomputations(lib, Step(lib, s, ops[0]), ops[1..])
  }

  /** Running two sequences one after the other is running their concatenation. */
  lemma {:induction false} RunConcat(lib: Library, s: TransformState, a: seq<Op>, b: seq<Op>)
    ensures Run(lib, s, a + b) == Run(lib, Run(lib, s, a), b)
    decreases |a|
  {
    if a == [] {
      assert [] + b == b;
    } else {
      assert (a + b)[1..] == a[1..] + b;
      RunConcat(lib, Step(lib, s, a[0]), a[1..], b);
    }
  }

  /**
   * Each observation in a sequence is what its operation returns in the state
   * reached by the operations before it.
   */
  lemma {:induction false} ObservationsAreStepwise(lib: Library, s: TransformState, ops: seq<Op>)
    ensures forall k :: 0 <= k < |ops| ==>
      Observations(lib, s, ops)[k] == Observe(lib, Run(lib, s, ops[..k]), ops[k])
    decreases |ops|
  {
    if ops != [] {
      var t := Step(lib, s, ops[0]);
      ObservationsAreStepwise(lib, t, ops[1..]);
      forall k | 0 <= k < |ops|
        ensures Observations(lib, s, ops)[k] == Observe(lib, Run(lib, s, ops[..k]), ops[k])
      {
        if k == 0 {
          assert ops[..0] == [];
        } else {
          assert ops[..k][0] == ops[0];
          assert ops[..k][1..] == ops[1..][..k - 1];
          assert ops[1..][k - 1] == ops[k];
        }
      }
    }
  }

  /**
   * The cache invariant survives any sequence of operations that does not
   * contain MoveRelative.
   */
  lemma {:induction false} CoherenceSurvivesRun(lib: Library, s: TransformState, ops: seq<Op>)
    requires Coherent(lib, s)
    requires forall i :: 0 <= i < |ops| ==> !ops[i].MoveRelative?
    ensures Coherent(lib, Run(lib, s, ops))
    decreases |ops|
  {
    if ops != [] {
      CoherenceSurvivesRun(lib, Step(lib, s, ops[0]), ops[1..]);
    }
  }

  /**
   * A clean cache goes stale under MoveRelative whenever the moved pose has a
   * different world matrix from the one cached.
   */
  lemma MoveRelativeLeavesStaleCache(lib: Library, s: TransformState, d: Float3)
    requires Coherent(lib, s) && !s.dirty
    requires var r := Step(lib, s, MoveRelative(d));
      WorldOf(lib, r.position, r.rotation, r.scale) != s.worldMatrix
    ensures !Coherent(lib, Step(lib, s, MoveRelative(d)))
    ensures var r := Step(lib, s, MoveRelative(d)); Step(lib, r, GetWorldMatrix) == r
    ensures Observe(lib, Step(lib, s, MoveRelative(d)), GetWorldMatrix) == Returned(s.worldMatrix)
  {
  }

  /**
   * MoveRelative really can break the invariant: with a library whose
   * translation records the offset and whose rotation is the identity, a
   * clean transform at the origin moved by (1, 0, 0) keeps its old matrix.
   */
  lemma MoveRelativeCanBreakCoherence()
    ensures exists lib: Library, s: TransformState, d: Float3 ::
      Coherent(lib, s) && !s.dirty && !Coherent(lib, Step(lib, s, MoveRelative(d)))
  {
    var m := Identity();
    var lib := Library(
      (v: Float3) => m,
      (v: Float3) => m,
      (v: Float3) => Float4x4(m.r0, m.r1, m.r2, Float4(v.x, v.y, v.z, 1.0)),
      (a: Float4x4, b: Float4x4) => b,
      (a: Float4x4) => a,
      (a: Float4x4) => a,
      (v: Float3) => Float4(0.0, 0.0, 0.0, 1.0),
      (v: Float3, q: Float4) => v,
      (p: Float3, f: Float3, u: Float3) => m,
      (f: real, a: real, n: real, z: real) => m);
    var s := Initial();
    var d := Float3(1.0, 0.0, 0.0);
    assert WorldOf(lib, Zero, Zero, One) == Identity();
    assert Coherent(lib, s);
    var r := Step(lib, s, MoveRelative(d));
    assert r.position == d;
    assert WorldOf(lib, r.position, r.rotation, r.scale).r3 == Float4(1.0, 0.0, 0.0, 1.0);
    assert !Coherent(lib, r);
  }

  /**
   * Reads repeated with no mutation in between: every operation in the
   * sequence only refreshes, so each getter returns what the first refresh
   * produced, the matrices are rebuilt at most once (exactly when the
   * starting state was dirty), and the final state is that one refresh.
   */
  lemma {:induction false} RepeatedReadsAgree(lib: Library, s: TransformState, ops: seq<Op>)
    requires forall i :: 0 <= i < |ops| ==> IsRefresh(ops[i])
    ensures |ops| > 0 ==> Run(lib, s, ops) == Refresh(lib, s)
    ensures Recomputations(lib, s, ops) == (if s.dirty && |ops| > 0 then 1 else 0)
    ensures forall k :: 0 <= k < |ops| && ops[k].GetWorldMatrix? ==>
      Observations(lib, s, ops)[k] == Returned(Refresh(lib, s).worldMatrix)
    ensures forall k :: 0 <= k < |ops| && ops[k].GetInveseTranspose? ==>
      Observations(lib, s, ops)[k] == Returned(Refresh(lib, s).worldInverseTranspose)
    decreases |ops|
  {
    if ops != [] {
      var t := Step(lib, s, ops[0]);
      assert t == Refresh(lib, s);
      assert Refresh(lib, t) == t;
      RepeatedReadsAgree(lib, t, ops[1..]);
      var obs := Observations(lib, s, ops);
      assert obs == [Observe(lib, s, ops[0])] + Observations(lib, t, ops[1..]);
      forall k | 0 <= k < |ops| && ops[k].GetWorldMatrix?
        ensures obs[k] == Returned(Refresh(lib, s).worldMatrix)
      {
        if k > 0 {
          assert obs[k] == Observations(lib, t, ops[1..])[k - 1];
          assert ops[1..][k - 1] == ops[k];
        }
      }
      forall k | 0 <= k < |ops| && ops[k].GetInveseTranspose?
        ensures obs[k] == Returned(Refresh(lib, s).worldInverseTranspose)
      {
        if k > 0 {
          assert obs[k] == Observations(lib, t, ops[1..])[k - 1];
          assert ops[1..][k - 1] == ops[k];
        }
      }
    }
  }

  /**
   * On a coherent transform every getter returns the matrices of the current
   * pose, whatever sequence of refreshing reads precedes it.
   */
  lemma {:induction false} ReadsOfCoherentStateAreCurrent(lib: Library, s: TransformState, ops: seq<Op>)
    requires Coherent(lib, s)
    requires forall i :: 0 <= i < |ops| ==> IsRefresh(ops[i])
    ensures forall k :: 0 <= k < |ops| && ops[k].GetWorldMatrix? ==>
      Observations(lib, s, ops)[k] == Returned(WorldOf(lib, s.position, s.rotation, s.scale))
  {
    RepeatedReadsAgree(lib, s, ops);
  }

  /** Calling a setter twice with the same argument is the same as calling it once. */
  lemma SetterIsIdempotent(lib: Library, s: TransformState, op: Op)
    requires IsSetter(op)
    ensures Step(lib, Step(lib, s, op), op) == Step(lib, s, op)
  {
  }

  /** A Transform object. */
  class Transform {
    /** The math routines this object is linked against. */
    const lib: Library

    var position: Float3
    var rotation: Float3
    var scale: Float3
    var worldMatrix: Float4x4
    var worldInverseTranspose: Float4x4
    var dirty: bool

    /** All fields as one value. */
    ghost function State(): TransformState
      reads this
    {
      TransformState(position, rotation, scale, dirty, worldMatrix, worldInverseTranspose)
    }

    /** The cache invariant of this object. */
    ghost predicate CacheCoherent()
      reads this
    {
      Coherent(lib, State())
    }

    /**
     * Identity pose, clean flag and identity matrices. The cache is coherent
     * as soon as the library maps the identity pose to the identity matrix.
     */
    constructor (lib: Library)
      ensures this.lib == lib
      ensures State() == Initial()
      ensures position == Zero && rotation == Zero && scale == One
      ensures !dirty && worldMatrix == Identity() && worldInverseTranspose == Identity()
      ensures IdentityPoseIsIdentity(lib) ==> CacheCoherent()
    {
      this.lib := lib;
      position := Zero;
      rotation := Zero;
      scale := One;
      dirty := false;
      worldMatrix := Identity();
      worldInverseTranspose := Identity();
    }

    method MoveAbsolute(x: real, y: real, z: real)
      modifies this
      ensures position == Add(old(position), Float3(x, y, z))
      ensures rotation == old(rotation) && scale == old(scale) && dirty
      ensures worldMatrix == old(worldMatrix) && worldInverseTranspose == old(worldInverseTranspose)
      ensures State() == Step(lib, old(State()), Op.MoveAbsolute(Float3(x, y, z)))
      ensures CacheCoherent()
    {
      position := Float3(position.x + x, position.y + y, position.z + z);
      dirty := true;
    }

    method Rotate(x: real, y: real, z: real)
      modifies this
      ensures rotation == Add(old(rotation), Float3(x, y, z))
      ensures position == old(position) && scale == old(scale) && dirty
      ensures worldMatrix == old(worldMatrix) && worldInverseTranspose == old(worldInverseTranspose)
      ensures State() == Step(lib, old(State()), Op.Rotate(Float3(x, y, z)))
      ensures CacheCoherent()
    {
      rotation := Float3(rotation.x + x, rotation.y + y, rotation.z + z);
      dirty := true;
    }

    /** Multiplies the scale; Scale(1, 1, 1) keeps it but still marks the cache dirty. */
    method Scale(x: real, y: real, z: real)
      modifies this
      ensures scale == Mul(old(scale), Float3(x, y, z))
      ensures Float3(x, y, z) == One ==> scale == old(scale)
      ensures position == old(position) && rotation == old(rotation) && dirty
      ensures worldMatrix == old(worldMatrix) && worldInverseTranspose == old(worldInverseTranspose)
      ensures State() == Step(lib, old(State()), Op.Scale(Float3(x, y, z)))
      ensures CacheCoherent()
    {
      scale := Float3(scale.x * x, scale.y * y, scale.z * z);
      dirty := true;
    }

    /**
     * Moves along the offset rotated by the current orientation. The dirty
     * flag is not set, so a clean cache keeps the matrices of the old position.
     */
    method MoveRelative(x: real, y: real, z: real)
      modifies this
      ensures position == Add(old(position), RotateByEuler(lib, Float3(x, y, z), old(rotation)))
      ensures rotation == old(rotation) && scale == old(scale) && dirty == old(dirty)
      ensures worldMatrix == old(worldMatrix) && worldInverseTranspose == old(worldInverseTranspose)
      ensures State() == Step(lib, old(State()), Op.MoveRelative(Float3(x, y, z)))
    {
      var rotQuat := lib.quaternionRotationRollPitchYaw(rotation);
      var move := lib.vector3Rotate(Float3(x, y, z), rotQuat);
      position := Float3(position.x + move.x, position.y + move.y, position.z + move.z);
    }

    method SetPosition(x: real, y: real, z: real)
      modifies this
      ensures position == Float3(x, y, z)
      ensures rotation == old(rotation) && scale == old(scale) && dirty
      ensures worldMatrix == old(worldMatrix) && worldInverseTranspose == old(worldInverseTranspose)
      ensures State() == Step(lib, old(State()), Op.SetPosition(Float3(x, y, z)))
      ensures CacheCoherent()
    {
      position := Float3(x, y, z);
      dirty := true;
    }

    method SetRotation(x: real, y: real, z: real)
      modifies this
      ensures rotation == Float3(x, y, z)
      ensures position == old(position) && scale == old(scale) && dirty
      ensures worldMatrix == old(worldMatrix) && worldInverseTranspose == old(worldInverseTranspose)
      ensures State() == Step(lib, old(State()), Op.SetRotation(Float3(x, y, z)))
      ensures CacheCoherent()
    {
      rotation := Float3(x, y, z);
      dirty := true;
    }

    method SetScale(x: real, y: real, z: real)
      modifies this
      ensures scale == Float3(x, y, z)
      ensures position == old(position) && rotation == old(rotation) && dirty
      ensures worldMatrix == old(worldMatrix) && worldInverseTranspose == old(worldInverseTranspose)
      ensures State() == Step(lib, old(State()), Op.SetScale(Float3(x, y, z)))
      ensures CacheCoherent()
    {
      scale := Float3(x, y, z);
      dirty := true;
    }

    method GetPosition() returns (p: Float3)
      ensures p == position
    {
      p := position;
    }

    method GetRotation() returns (r: Float3)
      ensures r == rotation
    {
      r := rotation;
    }

    method GetScale() returns (s: Float3)
      ensures s == scale
    {
      s := scale;
    }

    /** Rotates the base vector (0, 0, 1), so it returns the forward vector. */
    method GetRight() returns (v: Float3)
      ensures v == Forward(lib, rotation)
    {
      var rotQuat := lib.quaternionRotationRollPitchYaw(rotation);
      v := lib.vector3Rotate(Float3(0.0, 0.0, 1.0), rotQuat);
    }

    /** Rotates the base vector (0, 0, 1), so it returns the forward vector. */
    method GetUp() returns (v: Float3)
      ensures v == Forward(lib, rotation)
    {
      var rotQuat := lib.quaternionRotationRollPitchYaw(rotation);
      v := lib.vector3Rotate(Float3(0.0, 0.0, 1.0), rotQuat);
    }

    method GetForward() returns (v: Float3)
      ensures v == Forward(lib, rotation)
    {
      var rotQuat := lib.quaternionRotationRollPitchYaw(rotation);
      v := lib.vector3Rotate(Float3(0.0, 0.0, 1.0), rotQuat);
    }

    method GetWorldMatrix() returns (m: Float4x4)
      modifies this
      ensures State() == Step(lib, old(State()), Op.GetWorldMatrix)
      ensures Observe(lib, old(State()), Op.GetWorldMatrix) == Returned(m)
      ensures m == worldMatrix && !dirty
      ensures old(dirty) || old(CacheCoherent()) ==> m == WorldOf(lib, position, rotation, scale)
    {
      UpdateMatrices();
      m := worldMatrix;
    }

    method GetInveseTranspose() returns (m: Float4x4)
      modifies this
      ensures State() == Step(lib, old(State()), Op.GetInveseTranspose)
      ensures Observe(lib, old(State()), Op.GetInveseTranspose) == Returned(m)
      ensures m == worldInverseTranspose && !dirty
      ensures old(dirty) || old(CacheCoherent()) ==>
        m == InverseTransposeOf(lib, WorldOf(lib, position, rotation, scale))
    {
      UpdateMatrices();
      m := worldInverseTranspose;
    }

    /** Rebuilds both matrices when the flag is set; does nothing otherwise. */
    method UpdateMatrices()
      modifies this
      ensures State() == Refresh(lib, old(State()))
      ensures !old(dirty) ==> State() == old(State())
      ensures old(dirty) ==>
        worldMatrix == WorldOf(lib, position, rotation, scale) &&
        worldInverseTranspose == InverseTransposeOf(lib, worldMatrix)
      ensures position == old(position) && rotation == old(rotation) && scale == old(scale) && !dirty
      ensures old(CacheCoherent()) ==> CacheCoherent()
    {
      if !dirty {
        return;
      }
      var translation := lib.matrixTranslation(position);
      var scaling := lib.matrixScaling(scale);
      var rotational := lib.matrixRotationRollPitchYaw(rotation);
      var world := lib.matrixMultiply(lib.matrixMultiply(scaling, rotational), translation);
      worldMatrix := world;
      worldInverseTranspose := lib.matrixInverse(lib.matrixTranspose(world));
      dirty := false;
    }
  }
}
