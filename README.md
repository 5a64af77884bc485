# DX11Starter scene state, modelled in Dafny

This project models the scene-state bookkeeping of the DX11Starter renderer. It covers three parts:

- **Transform** is an object's pose: position, Euler rotation (pitch, yaw, roll) and scale. It also holds a world matrix and its inverse-transpose, cached behind a `dirty` flag and rebuilt lazily when read.
- **Camera** is a free-fly controller. It owns a Transform and moves it each frame from key and mouse input, then rebuilds its view matrix. It also keeps a projection matrix.
- **Material** is a colour tint plus two shader handles, each with a getter and a setter.

The modules are:

- `math.dfy` (`Math`): the parts of DirectXMath the core uses. Vectors and matrices are records of reals. The library routines (matrix scaling, rotation, translation, product, transpose, inverse, quaternion from Euler angles, vector rotation, look-to and perspective matrices) are the fields of a `Library` value. They are left uninterpreted, so every result holds for every library.
- `transform.dfy` (`Transforms`): the value-level specification and the `Transform` class.
  - `TransformState` holds all the fields as one value.
  - `Step` is one operation, `Run` a sequence of operations, and `Observations` what the reads return.
  - `Coherent` is the cache invariant: a clean cache holds the matrices of the current pose.
  - Every mutator and every cache operation of the class is proved to take exactly the matching `Step`; the pose and direction getters change nothing.
- `camera.dfy` (`Cameras`): the input of one frame as an `InputState` value, and `FrameOps`, the sequence of transform operations one `Update` issues.
  - `FramePosition` and `FrameRotation` give one frame's effect in closed form.
  - `Camera.Update` is proved against both.
  - The source's `Update` body has two phases. Here each phase is a method of its own: `MoveByKeys` holds the six guarded key moves and `LookByMouse` the mouse rotation. `Update` calls them in the source's order and then rebuilds the view.
- `material.dfy` (`Materials`): the `Material` class. Its shader handle types are type parameters.

`MoveRelative` in `Transform.cpp` changes the position but does not set `dirty`. The model keeps this behaviour as written. `Transforms.MoveRelativeCanBreakCoherence` proves that it really breaks the cache invariant. The camera's own transform never shows the defect: `SetPosition` in the camera's constructor sets `dirty`, and no camera method reads the world matrix or refreshes it, so that transform stays dirty from construction on (`Cameras.Camera.constructor` and `Cameras.Camera.Update` state this). `Cameras.WalkingKeepsCachedWorld` states what the camera's key phase would do to a transform whose cache is clean: after a frame that only walks, the cache still holds the old world matrix.

## Model

| member | source | states |
|---|---|---|
| Transforms.Transform.constructor | Transform.cpp:5-13 | Position (0,0,0), rotation (0,0,0), scale (1,1,1), a clean flag and identity matrices; the cache is coherent whenever the library maps that pose to the identity |
| Transforms.Initial | Transform.cpp:5-13 | Defines the state of a new transform: zero position and rotation, unit scale, a clean flag and identity matrices |
| Transforms.WorldOf | Transform.cpp:156-161 | Defines the world matrix of a pose: scaling times rotation, times translation |
| Transforms.InverseTransposeOf | Transform.cpp:165 | Defines the normal matrix: the inverse of the transpose |
| Transforms.Forward | Transform.cpp:123-134 | Defines the forward direction: (0,0,1) rotated by the quaternion of the Euler angles |
| Transforms.Transform.MoveAbsolute | Transform.cpp:19-25 | Position gains the offset component-wise; rotation, scale and both matrices are kept; dirty is set; the cache invariant holds afterwards |
| Transforms.Transform.Rotate | Transform.cpp:27-33 | Rotation gains the angles component-wise; everything else is kept; dirty is set; the invariant holds |
| Transforms.Transform.Scale | Transform.cpp:35-41 | Scale is multiplied component-wise; Scale(1,1,1) keeps the scale but still sets dirty; the invariant holds |
| Transforms.Transform.MoveRelative | Transform.cpp:43-56 | Position gains the offset rotated by the current orientation; rotation, scale, the dirty flag and both cached matrices are unchanged |
| Transforms.Transform.SetPosition | Transform.cpp:58-64 | Position becomes the argument; everything else is kept; dirty is set; the invariant holds |
| Transforms.Transform.SetRotation | Transform.cpp:66-72 | Rotation becomes the argument; everything else is kept; dirty is set; the invariant holds |
| Transforms.Transform.SetScale | Transform.cpp:74-80 | Scale becomes the argument; everything else is kept; dirty is set; the invariant holds |
| Transforms.Transform.GetPosition | Transform.cpp:82-85 | Returns the stored position and changes nothing |
| Transforms.Transform.GetRotation | Transform.cpp:87-90 | Returns the stored rotation and changes nothing |
| Transforms.Transform.GetScale | Transform.cpp:92-95 | Returns the stored scale and changes nothing |
| Transforms.Transform.GetRight | Transform.cpp:97-108 | Returns (0,0,1) rotated by the orientation, which is the forward vector and not the right vector |
| Transforms.Transform.GetUp | Transform.cpp:110-121 | Returns (0,0,1) rotated by the orientation, which is the forward vector and not the up vector |
| Transforms.Transform.GetForward | Transform.cpp:123-134 | Returns (0,0,1) rotated by the orientation |
| Transforms.Transform.GetWorldMatrix | Transform.cpp:136-140 | Refreshes, then returns the cached world matrix; the flag ends clean; the result is the S·R·T matrix of the current pose whenever the cache was dirty or coherent |
| Transforms.Transform.GetInveseTranspose | Transform.cpp:142-146 | Refreshes, then returns the cached inverse-transpose; the result is the inverse of the transpose of the pose's world matrix whenever the cache was dirty or coherent |
| Transforms.Transform.UpdateMatrices | Transform.cpp:148-167 | A clean transform is left unchanged. For a dirty one, the world matrix becomes scaling·rotation·translation of the pose and the inverse-transpose becomes inverse(transpose(world)); the flag is cleared and the pose is kept |
| Transforms.Refresh | Transform.cpp:148-167 | The result is clean with the same pose; a clean input is returned unchanged; a dirty input becomes coherent; coherence is preserved |
| Transforms.Step | Transform.cpp:19-167 | Every mutator except MoveRelative leaves the cache dirty; every operation except MoveRelative preserves the cache invariant; MoveRelative keeps rotation, scale, flag and matrices; the reads leave the pose unchanged and the cache clean |
| Transforms.Observe | Transform.cpp:136-146 | Only the two matrix getters return something; on a coherent state GetWorldMatrix returns the pose's world matrix and GetInveseTranspose its inverse-transpose |
| Transforms.Recomputations | Transform.cpp:151-153 | At most one rebuild per operation; none at all for a clean start and only refreshes or reads |
| Transforms.Observations | Transform.cpp:136-146 | One observation per operation; what each one is, is stated by ObservationsAreStepwise and RepeatedReadsAgree |
| Transforms.RunConcat | Transform.cpp:19-167 | Running two sequences in turn is running their concatenation |
| Transforms.ObservationsAreStepwise | Transform.cpp:136-146 | Each observation in a sequence is what its operation returns in the state reached by the operations before it |
| Transforms.CoherenceSurvivesRun | Transform.cpp:19-167 | The cache invariant survives any sequence of operations (mutators, setters, refreshes and reads) that contains no MoveRelative, the one operation, at Transform.cpp:43-56, that can break it |
| Transforms.MoveRelativeLeavesStaleCache | Transform.cpp:43-56 | After MoveRelative on a clean coherent cache whose new pose has a different world matrix, the invariant is broken, and GetWorldMatrix leaves the moved state unchanged (no recompute) and returns the old matrix |
| Transforms.MoveRelativeCanBreakCoherence | Transform.cpp:43-56 | A library, a clean coherent state and an offset exist for which MoveRelative breaks the invariant |
| Transforms.RepeatedReadsAgree | Transform.cpp:136-167 | In a sequence of refreshes and reads, every world-matrix read returns the same matrix, and so does every inverse-transpose read; the matrices are rebuilt exactly once if the start was dirty and never otherwise; the final state is the one refresh |
| Transforms.ReadsOfCoherentStateAreCurrent | Transform.cpp:136-167 | On a coherent transform, every world-matrix read in a sequence of reads returns the world matrix of the current pose |
| Transforms.SetterIsIdempotent | Transform.cpp:58-80 | Calling a setter twice with the same argument gives the same state as calling it once |
| Cameras.KeyOps | Camera.cpp:48-71 | The key phase issues only MoveRelative and MoveAbsolute operations |
| Cameras.KeyOp | Camera.cpp:48-71 | Defines each held key's call: W/S move along local z by ±moveSpeed·dt, D/A along local x, Q/E along world y |
| Cameras.MouseOps | Camera.cpp:74-82 | With the button down, exactly one rotation by the look angles; with it up, no operation |
| Cameras.LookAngles | Camera.cpp:77-81 | Defines the look rotation: pitch dy·dt·lookSpeed, yaw dx·dt·lookSpeed, roll 0 |
| Cameras.FrameOps | Camera.cpp:48-82 | The frame issues only moves and rotations. A rotation is issued exactly when the left button is down: then the last operation is the rotation by the look angles (pitch from dy, yaw from dx, zero roll), and no other operation is a rotation. With no key and no button, nothing is issued |
| Cameras.KeyCallEffect | Camera.cpp:48-71 | One key's call keeps rotation, scale and matrices, adds the key's offset (relative ones rotated by the current orientation) when held, and dirties only if it is an absolute move that fired |
| Cameras.FrameEffect | Camera.cpp:48-82 | After one frame, the position is the start plus each held key's offset: W/S/D/A rotated by the starting orientation, Q/E straight up or down, opposing keys both applied. The rotation changes only with the button down (pitch += dy·dt·lookSpeed, yaw += dx·dt·lookSpeed, roll kept). Scale and matrices are kept; dirty is set exactly by Q, E or the button |
| Cameras.WalkingKeepsCachedWorld | Camera.cpp:48-63 | A frame with only W/S/D/A held leaves a clean cache clean, and the world-matrix read returns the pre-frame matrix |
| Cameras.KeySteps | Camera.cpp:48-71 | The six guarded key calls, taken in order, amount to running the key phase's operations |
| Cameras.RunWhen | Camera.cpp:48-82 | A guarded call is one step when its condition holds and no step otherwise |
| Cameras.Camera.constructor | Camera.cpp:7-16 | Speeds 5 and 1, the given aspect ratio, and a fresh transform at (0,0,-5) with zero rotation and unit scale, marked dirty. The projection is built from the aspect ratio and the view from that pose |
| Cameras.View | Camera.cpp:29-38 | Defines the view matrix of a pose: LookToLH from the position along the forward vector with world up (0,1,0) |
| Cameras.Projection | Camera.cpp:22-27 | Defines the projection for an aspect ratio: PerspectiveFovLH with field of view pi/4, near plane 0.1, far plane 100 |
| Cameras.Camera.UpdateProjMatrix | Camera.cpp:22-27 | The projection becomes PerspectiveFovLH(pi/4, argument, 0.1, 100); the view and the stored aspect ratio are untouched |
| Cameras.Camera.UpdateViewMatrix | Camera.cpp:29-38 | The view becomes LookToLH(position, forward, (0,1,0)); the projection is untouched |
| Cameras.Camera.Update | Camera.cpp:40-86 | The transform ends in the state of running the frame's operations, with position and rotation given in closed form and the dirty flag given exactly. The view is then rebuilt from the new pose, with or without input. The projection is untouched |
| Cameras.Camera.MoveByKeys | Camera.cpp:48-71 | The transform ends in the state of running the key phase's operations for the held keys |
| Cameras.Camera.LookByMouse | Camera.cpp:74-82 | The transform is rotated by the mouse deltas exactly when the left button is down |
| Cameras.Camera.GetViewMatrix | Camera.cpp:88-91 | Returns the stored view matrix without recomputing or changing anything |
| Cameras.Camera.GetProjectionMatrix | Camera.cpp:92-95 | Returns the stored projection matrix without recomputing or changing anything |
| Materials.Material.constructor | Material.cpp:6-13 | Stores the tint and both shader handles exactly as given |
| Materials.Material.GetPixelShader | Material.cpp:19-22 | Returns the stored pixel shader and changes nothing |
| Materials.Material.GetVertexShader | Material.cpp:24-27 | Returns the stored vertex shader and changes nothing |
| Materials.Material.GetColorTint | Material.cpp:29-32 | Returns the stored tint and changes nothing |
| Materials.Material.SetPixelShader | Material.cpp:34-37 | Replaces the pixel shader only; tint and vertex shader are kept |
| Materials.Material.SetVertexShader | Material.cpp:39-42 | Replaces the vertex shader only; tint and pixel shader are kept |
| Materials.Material.SetColorTint | Material.cpp:44-47 | Replaces the tint only; both shader handles are kept |
| Materials.WithColorTint | Material.cpp:44-47 | The written field holds the new tint and no other field changes |
| Materials.WithPixelShader | Material.cpp:34-37 | The written field holds the new handle and no other field changes |
| Materials.WithVertexShader | Material.cpp:39-42 | The written field holds the new handle and no other field changes |
| Materials.SettersCommute | Material.cpp:34-47 | Setters of different fields commute, and setting all three gives exactly the three values |
| Materials.LastWriteWins | Material.cpp:34-47 | Of two writes to the same field, the second one wins |
| Materials.SetToCurrentIsIdentity | Material.cpp:34-47 | Writing back a field's current value changes nothing |
| Materials.SetThenGet | Material.cpp:19-47 | Each get after its set returns the value set, and the final state holds exactly the three values set |
| Materials.SetColorTintThenGet | Material.cpp:19-47 | After SetColorTint(c), GetColorTint returns c and both shader getters return the handles held before |
| Materials.SetPixelShaderThenGet | Material.cpp:19-37 | After SetPixelShader(p), GetPixelShader returns p and the tint and vertex shader getters return the values held before |
| Materials.SetVertexShaderThenGet | Material.cpp:19-47 | After SetVertexShader(v), GetVertexShader returns v and the tint and pixel shader getters return the values held before |

## Left out

- DirectXMath numerics: every matrix and quaternion routine is uninterpreted, so nothing about rounding or the actual float values is modelled. The components of vectors and matrices are reals, not 32-bit floats.
- Transforms.Transform.constructor: a fresh transform is coherent only under the library law `IdentityPoseIsIdentity`, which says that the identity pose composes to the identity matrix. The contract states coherence under that law rather than unconditionally.
- `XM_PIDIV4` is the decimal constant 0.785398163, not the exact value of pi/4.
- The `Input` singleton is not modelled. Each frame's held keys, left mouse button and integer mouse deltas are an explicit `InputState` argument to `Camera.Update`. The `Quit` key is outside the camera code.
- Camera.h declares `GetTransform`, but the source defines no body for it, so it is not modelled.
- Camera: `transform` is a value member in the source. Here it is a reference that the constructor creates and that no other object holds.
- Camera: `moveSpeed` and `lookSpeed` are assigned only in the constructor, so they are constants here.
- Transform.h does not declare `MoveRelative`, `GetRight`, `GetUp` or `GetForward`, and it gives `dirty` a default of `true`. The model follows Transform.cpp: the constructor sets `dirty` to false.
- Material: the shared-pointer shader handles are values of type parameters. Reference counting and the shader objects themselves are not modelled.
- Destructors are empty in the source and are not modelled.
- Game.cpp, Mesh, Sky, GameEntity, Lights.h and BufferStructs.h are not part of this model. They hold Direct3D device and context calls, shader file loading, drawing and constant-buffer layouts. No file in the core builds a shadow map or a cubemap.
