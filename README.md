# Continuum camera and GLSL program core, in Dafny

This project models two parts of the Continuum engine's graphics layer and proves properties of
them.

**Cameras** (`engine/core/graphics/camera.h`):
- The angle helpers of `AngleProcUtils`:
  - `clip_angle` corrects one angle by a single turn.
  - `clip_angles` applies `fmod` by 360 to each component.
  - `angle_delta` takes the difference of two folded angle triples, corrected per component.
- The UI camera (`UICameraPositioner`). It moves its position and Euler angles part of the way
  towards their desired values on every frame, and caches a view transform.
- The orbit/fly camera (`OrbCameraPositioner`):
  - mouse-look while the button is held;
  - an acceleration summed from the held movement keys;
  - natural deceleration by the damping value, or integration clamped to a speed limit;
  - integration of the position.
- The `camera_t` handle, which forwards `get_view_matrix` and `get_position` to whichever
  positioner it was built with.

**Shader programs** (`engine/core/graphics/ogl_fw/glslprogram.cpp`):
- `GLSLUtils::get_file_extension`.
- The seventeen-entry extension table that selects a shader stage.
- The three `compile_shader` overloads, which create the program handle lazily.
- `link`, `validate` and `use`.
- The name-to-location uniform table, `detach_delete_shader_objects` and
  `get_attrib_type_string_form`.

Files:
- `glm.dfy` (module `GlmModel`): the vector and quaternion arithmetic the cameras use, over
  reals.
  - Matrices are symbolic terms: two matrices are equal only when the same glm calls built them.
  - glm operations that need trigonometry or square roots are uninterpreted functions in a `Glm`
    record.
  - The only law assumed of them is that `normalize` of a nonzero vector has unit length
    (`Lawful`).
- `angles.dfy` (module `AngleProcUtils`): `fmod` by 360 as C defines it (the remainder of a
  quotient truncated toward zero), `clip_angle`, `clip_angles` and `angle_delta`.
- `camera.dfy` (module `Camera`):
  - the two positioners are classes whose methods update their fields;
  - each `update` is specified by functions of the old state;
  - `camera_t` is a datatype that holds the positioner it forwards to.
- `glslprogram.dfy` (module `GlslProgram`):
  - extension parsing over `std::string::find_last_of`;
  - a `Program` class holding `handle`, `linked` and the uniform table, plus the driver-side
    list of attached and deleted shaders;
  - every OpenGL answer (new handle, compile, link and validate status, info log, the active
    uniform list) and the file's existence and contents are parameters;
  - an exception is the outcome `Thrown(message)`, with the source's message text.

Behaviours of the code worth knowing, each stated by the model as the code has it:
- `clip_angle` fixes -180 as well as 180. For inputs in [-540, 540] the result lies in the
  closed interval [-180, 180]. Outside that range one correction is not enough: 718 becomes 358.
- `angle_delta` does not always return the shortest turn, despite the comment at camera.h:175
  about avoiding spinning round the object. Each side is folded into (-360, 360) before
  subtracting, so a difference can lie anywhere in (-720, 720). One correction then leaves, for
  example, 358 for 359 against -359. `AngleDeltaHalfTurn` states when the result is within
  [-180, 180], and `AngleDeltaLongArc` exhibits a case where it is not.
- A file named exactly `.glsl` has extension `.glsl`. The second search starts at `dot_loc - 1`,
  which wraps to `npos` in `size_t` when the dot is at index 0, so the search finds the same dot
  again.
- `get_uniform_location` uses `std::map::operator[]`. A name the table does not hold is
  inserted with location 0, and 0 is returned.

## Model

| member | source | states |
|---|---|---|
| AngleProcUtils.Fmod360 | engine/core/graphics/camera.h:21-23 | fmod by 360 lies strictly inside (-360, 360), keeps the sign of its input, differs from it by whole turns, and leaves any value already inside (-360, 360) unchanged |
| AngleProcUtils.Fmod360FixedIff | engine/core/graphics/camera.h:21-23 | a component is left alone by folding exactly when it lies strictly inside (-360, 360) |
| AngleProcUtils.Fmod360Idempotent | engine/core/graphics/camera.h:21-23 | folding twice is folding once |
| AngleProcUtils.Trunc | engine/core/graphics/camera.h:20-23 | the quotient truncated toward zero, as fmod uses it: for x >= 0 the floor, for x < 0 the ceiling |
| AngleProcUtils.ClipAngle | engine/core/graphics/camera.h:12-17 | clip_angle changes its input by whole turns, fixes [-180, 180], brings [-540, 540] into [-180, 180], and maps (-720, 720) into (-360, 360) |
| AngleProcUtils.ClipAngleExamples | engine/core/graphics/camera.h:12-17 | 190 becomes -170, -190 becomes 170, and both -180 and 180 are fixed points |
| AngleProcUtils.ClipAngles | engine/core/graphics/camera.h:18-25 | every component of the result is inside (-360, 360) and congruent to the input's; an already folded triple is returned unchanged |
| AngleProcUtils.ClipAnglesIdempotent | engine/core/graphics/camera.h:18-25 | clip_angles applied twice equals clip_angles applied once |
| AngleProcUtils.AngleDelta | engine/core/graphics/camera.h:26-30 | the delta is folded and each component is congruent, modulo whole turns, to current minus desired |
| AngleProcUtils.AngleDeltaHalfTurn | engine/core/graphics/camera.h:26-30 | a component whose folded difference is within 540 degrees comes out in [-180, 180] |
| AngleProcUtils.AngleDeltaFolded | engine/core/graphics/camera.h:26-30 | on folded inputs the delta is clip_angle of the plain per-component difference |
| AngleProcUtils.AngleDeltaSelf | engine/core/graphics/camera.h:26-30 | the delta between an orientation and itself is zero |
| AngleProcUtils.AngleDeltaShortWay | engine/core/graphics/camera.h:26-30 | from 10 to 350 degrees the delta is -20, the short way round |
| AngleProcUtils.AngleDeltaCongruent | engine/core/graphics/camera.h:26-30 | -170 and 190 are the same heading and have zero delta |
| AngleProcUtils.AngleDeltaLongArc | engine/core/graphics/camera.h:26-30 | 359 against -359 gives 358, not the shortest turn of -2 |
| Camera.Min | engine/core/graphics/camera.h:100 | std::min returns one of its arguments and is at most both |
| Camera.SmoothStep | engine/core/graphics/camera.h:173 | one position step of the UI camera, `p + rate * dt * (desired - p)`; SmoothStepRemainder, SmoothStepAtRest and SmoothStepApproaches state what it achieves |
| Camera.SmoothStepRemainder | engine/core/graphics/camera.h:173 | after a position step, the distance still to travel is the old one scaled by 1 - rate * dt |
| Camera.SmoothStepAtRest | engine/core/graphics/camera.h:173 | a UI camera already at its desired position stays there |
| Camera.SmoothStepApproaches | engine/core/graphics/camera.h:173 | for 0 < rate * dt < 1 the distance to the desired position strictly shrinks without overshooting |
| Camera.AngleStepAtRest | engine/core/graphics/camera.h:176-183 | when the current angles equal the desired ones, an update only folds them |
| Camera.AngleStep | engine/core/graphics/camera.h:176-183 | the angles after one UI update: fold both triples, move against angle_delta scaled per axis by the damping and by dt, fold again; AngleStepAtRest and StepAngles state its properties |
| Camera.UIViewTransform | engine/core/graphics/camera.h:185-187 | the transform the UI camera caches: yawPitchRoll of the angles in radians, pan as yaw, pitch as pitch and roll as roll, translated by minus the current position |
| Camera.UICameraPositioner.constructor | engine/core/graphics/camera.h:164-169 | current and desired position and angles start at the given values; damping defaults are 10 and (5, 5, 5); the cached transform is the identity |
| Camera.UICameraPositioner.Update | engine/core/graphics/camera.h:171-188 | the position takes one smoothing step; desired angles are folded; current angles take one damped step against angle_delta and are folded; both triples end up folded; the cached transform is yawPitchRoll(pan, pitch, roll) translated by minus the new position |
| Camera.UICameraPositioner.StepPosition | engine/core/graphics/camera.h:173 | the position moves a damping_linear * dt share of the way to the desired position |
| Camera.UICameraPositioner.StepAngles | engine/core/graphics/camera.h:176-183 | the desired angles are folded, the current ones take one damped step against angle_delta and are folded again, and both triples end up folded |
| Camera.UICameraPositioner.SetPosition | engine/core/graphics/camera.h:190 | sets only the current position |
| Camera.UICameraPositioner.SetAngles | engine/core/graphics/camera.h:191 | sets the current angles to (pitch, pan, roll) |
| Camera.UICameraPositioner.SetAnglesVec | engine/core/graphics/camera.h:192 | sets the current angles to the given triple |
| Camera.UICameraPositioner.SetDesiredPosition | engine/core/graphics/camera.h:193 | sets only the desired position |
| Camera.UICameraPositioner.SetDesiredAngles | engine/core/graphics/camera.h:194 | sets the desired angles to (pitch, pan, roll) |
| Camera.UICameraPositioner.SetDesiredAnglesVec | engine/core/graphics/camera.h:195 | sets the desired angles to the given triple |
| Camera.UICameraPositioner.GetPosition | engine/core/graphics/camera.h:197 | the current position, not the desired one |
| Camera.UICameraPositioner.GetViewMatrix | engine/core/graphics/camera.h:198 | the transform cached by the latest update, which set-calls do not refresh |
| Camera.Forward | engine/core/graphics/camera.h:80 | the forward axis: minus the third row of the orientation's rotation matrix |
| Camera.Right | engine/core/graphics/camera.h:81 | the right axis: the first row of the orientation's rotation matrix |
| Camera.AccelOf | engine/core/graphics/camera.h:84-95 | the acceleration of the held keys, in the source's order, scaled when fast is held; AccelOfCancels, AccelOfForward and SumAcceleration state its properties |
| Camera.AccelOfCancels | engine/core/graphics/camera.h:84-95 | keys held in opposing pairs, or not held at all, give exactly zero acceleration in any basis |
| Camera.AccelOfForward | engine/core/graphics/camera.h:84-95 | the forward key alone accelerates along the forward axis, scaled by the fast coefficient when fast is held |
| Camera.DecayFraction | engine/core/graphics/camera.h:100 | the share of the velocity one deceleration step removes, min((1 / damping) * dt, 1); DecayFractionRange bounds it |
| Camera.Decelerated | engine/core/graphics/camera.h:100 | the velocity after natural deceleration; DeceleratedScales states that it is a shrinking rescale |
| Camera.LongerThan | engine/core/graphics/camera.h:107 | `length(v) > m` without a square root: true for every v when m is negative, else when the squared length exceeds m squared |
| Camera.SpeedLimit | engine/core/graphics/camera.h:106 | max_speed, times fast_coef while fast is held |
| Camera.Clamped | engine/core/graphics/camera.h:107 | a velocity longer than the limit replaced by normalize(v) * limit; ClampedBounded bounds it |
| Camera.Integrated | engine/core/graphics/camera.h:105 | the velocity plus accel * acceleration * dt, before the clamp |
| Camera.Accelerated | engine/core/graphics/camera.h:105-107 | the velocity after the acceleration branch; AcceleratedBounded bounds it |
| Camera.DecayFractionRange | engine/core/graphics/camera.h:100 | with positive damping, the removed fraction min(dt / damping, 1) lies in [0, 1] for dt >= 0, and is 1 once dt >= damping |
| Camera.DeceleratedScales | engine/core/graphics/camera.h:100 | deceleration scales the velocity by 1 - min(dt / damping, 1); it never lengthens it, and a step of at least `damping` seconds stops the camera |
| Camera.ClampedBounded | engine/core/graphics/camera.h:107 | after the clamp the speed is at most the limit, and a velocity within the limit is untouched |
| Camera.AcceleratedBounded | engine/core/graphics/camera.h:104-108 | after the acceleration branch the speed is at most the limit |
| Camera.MouseLook | engine/core/graphics/camera.h:70-74 | the orientation after a pressed-mouse frame: rotate by the mouse delta, renormalize, then look along the new forward axis with the stored up vector |
| Camera.MouseEuler | engine/core/graphics/camera.h:71 | the Euler angles of the mouse rotation: mouse_speed times the vertical motion as pitch, times the horizontal motion as yaw, no roll |
| Camera.UpRighted | engine/core/graphics/camera.h:126-131 | the orientation of a look-at from the position along minus the third row of a view matrix, with the given up |
| Camera.OrbViewMatrix | engine/core/graphics/camera.h:115-117 | the orbit camera's view matrix: its rotation times a translation by minus its position |
| Camera.OrbCameraPositioner.Default | engine/core/graphics/camera.h:149-159 | every tuning value (mouse speed 4, acceleration 150, damping 0.2, max speed 10, fast coefficient 10) and every state field at its declared default |
| Camera.OrbCameraPositioner.constructor | engine/core/graphics/camera.h:60-64 | position and up are as given, the orientation is the rotation of lookAt(position, target, up), and the rest is at its defaults |
| Camera.OrbCameraPositioner.GetPosition | engine/core/graphics/camera.h:119-122 | the camera position |
| Camera.OrbCameraPositioner.GetViewMatrix | engine/core/graphics/camera.h:113-118 | the view matrix recomputed from the current orientation and position |
| Camera.OrbCameraPositioner.Update | engine/core/graphics/camera.h:66-111 | the tuning values, keys and up vector are unchanged; the mouse position is recorded; the orientation changes only while the button is pressed; the velocity follows the deceleration or the clamped acceleration branch according to whether the summed acceleration is zero; the position advances by dt times the new velocity |
| Camera.OrbCameraPositioner.Look | engine/core/graphics/camera.h:68-76 | while pressed, the orientation becomes the mouse-rotated, renormalized and up-righted one; the mouse position is recorded in every case |
| Camera.OrbCameraPositioner.ChangeSpeed | engine/core/graphics/camera.h:97-108 | a zero acceleration takes the deceleration branch, anything else the clamped acceleration branch |
| Camera.OrbCameraPositioner.Decelerate | engine/core/graphics/camera.h:100 | the velocity loses the fraction min((1 / damping) * dt, 1) of itself |
| Camera.OrbCameraPositioner.Accelerate | engine/core/graphics/camera.h:105-107 | the velocity gains accel * acceleration * dt and is then clamped to the speed limit in force |
| Camera.OrbCameraPositioner.SumAcceleration | engine/core/graphics/camera.h:84-95 | the conditional additions build exactly the acceleration of the held keys |
| Camera.OrbCameraPositioner.SetPosition | engine/core/graphics/camera.h:124 | sets only the position |
| Camera.OrbCameraPositioner.ResetMousePosition | engine/core/graphics/camera.h:125 | sets only the recorded mouse position |
| Camera.OrbCameraPositioner.SetUpVector | engine/core/graphics/camera.h:126-131 | the orientation becomes a look-at along the current forward axis with the given up |
| Camera.OrbCameraPositioner.LookAtTarget | engine/core/graphics/camera.h:132-135 | sets the position and the orientation of lookAt(position, target, up) |
| Camera.IdleFrameAtRest | engine/core/graphics/camera.h:84-110 | with no net key held, a frame takes the deceleration branch, and a camera at rest stays where it is |
| Camera.AcceleratingFrameBounded | engine/core/graphics/camera.h:104-108 | on the acceleration branch the new speed is within the limit in force, max_speed or max_speed times fast_coef while fast is held, whenever that limit is non-negative |
| Camera.CameraHandle.GetViewMatrix | engine/core/graphics/camera.h:51 | camera_t returns the view matrix of the positioner it was built with |
| Camera.CameraHandle.GetPosition | engine/core/graphics/camera.h:52 | camera_t returns the position of the positioner it was built with |
| GlslProgram.ExtensionsCoverStages | engine/core/graphics/ogl_fw/glslprogram.cpp:10-28 | every shader stage is reached by some suffix of the table |
| GlslProgram.ExtensionsKeyShapes | engine/core/graphics/ogl_fw/glslprogram.cpp:10-28 | every suffix of the table starts with '.', except the two that start with '_', which end in ".glsl" |
| GlslProgram.Before | engine/core/graphics/ogl_fw/glslprogram.cpp:466 | `dot_loc - 1` in size_t is npos exactly when dot_loc is 0 |
| GlslProgram.FindLastOf | engine/core/graphics/ogl_fw/glslprogram.cpp:461-468 | find_last_of returns an index at or before the bound holding the character, with no later occurrence within the bound, or npos when there is none |
| GlslProgram.GetFileExtension | engine/core/graphics/ogl_fw/glslprogram.cpp:457-479 | the result is a suffix of the name (possibly empty), and is empty when the name has no '.' |
| GlslProgram.GetFileExtensionPlain | engine/core/graphics/ogl_fw/glslprogram.cpp:461-476 | when the suffix from the last '.' is not ".glsl", the extension is exactly that suffix |
| GlslProgram.GetFileExtensionGlslDot | engine/core/graphics/ogl_fw/glslprogram.cpp:464-472 | a ".glsl" suffix with an earlier '.' gives the suffix from the nearest such '.' |
| GlslProgram.GetFileExtensionGlslUnderscore | engine/core/graphics/ogl_fw/glslprogram.cpp:464-472 | a ".glsl" suffix with no earlier '.' gives the suffix from the last '_' before it |
| GlslProgram.GetFileExtensionGlslBare | engine/core/graphics/ogl_fw/glslprogram.cpp:464-478 | a ".glsl" suffix with neither an earlier '.' nor '_' gives "" |
| GlslProgram.GetFileExtensionWrap | engine/core/graphics/ogl_fw/glslprogram.cpp:466 | the name ".glsl" has extension ".glsl", because the second search wraps to npos |
| GlslProgram.GetFileExtensionDottedGlsl | engine/core/graphics/ogl_fw/glslprogram.cpp:457-479 | "a.vert.glsl" has extension ".vert.glsl" |
| GlslProgram.GetFileExtensionUnderscoredGlsl | engine/core/graphics/ogl_fw/glslprogram.cpp:457-479 | "a_frag.glsl" has extension "_frag.glsl" |
| GlslProgram.GetFileExtensionBareGlsl | engine/core/graphics/ogl_fw/glslprogram.cpp:457-479 | "x.glsl" has extension "" |
| GlslProgram.RoundTripDotWord | engine/core/graphics/ogl_fw/glslprogram.cpp:457-479 | a base without '.' followed by "." + word (other than ".glsl") parses back to "." + word |
| GlslProgram.RoundTripDotGlsl | engine/core/graphics/ogl_fw/glslprogram.cpp:457-479 | a base without '.' followed by "." + word + ".glsl" parses back to that suffix |
| GlslProgram.RoundTripUnderscoreGlsl | engine/core/graphics/ogl_fw/glslprogram.cpp:457-479 | a base without '.' followed by "_" + word + ".glsl" parses back to that suffix |
| GlslProgram.ExtensionsRoundTrip | engine/core/graphics/ogl_fw/glslprogram.cpp:10-28 | every table key appended to a base without '.' parses back to itself, so dispatch selects exactly the table's stage |
| GlslProgram.PlainKeysRoundTrip | engine/core/graphics/ogl_fw/glslprogram.cpp:11-16 | the single-suffix keys ".vs", ".vert", ".gs", ".geom" and ".tcs" parse back to themselves |
| GlslProgram.MorePlainKeysRoundTrip | engine/core/graphics/ogl_fw/glslprogram.cpp:20-26 | the single-suffix keys ".tes", ".fs", ".frag" and ".cs" parse back to themselves |
| GlslProgram.UnderscoreKeysRoundTrip | engine/core/graphics/ogl_fw/glslprogram.cpp:13-24 | the keys "_vert.glsl" and "_frag.glsl" parse back to themselves |
| GlslProgram.DotGlslKeysRoundTrip | engine/core/graphics/ogl_fw/glslprogram.cpp:14-27 | the six ".stage.glsl" keys parse back to themselves |
| GlslProgram.AttribTypeName | engine/core/graphics/ogl_fw/glslprogram.cpp:398-428 | the name is "?" exactly for enumerants outside the eleven the switch names |
| GlslProgram.AttribTypeCode | engine/core/graphics/ogl_fw/glslprogram.cpp:398-428 | the reverse reading of the switch yields only named enumerants, and nothing for "?" |
| GlslProgram.AttribTypeRoundTrip | engine/core/graphics/ogl_fw/glslprogram.cpp:398-428 | reading a named enumerant's name back gives the enumerant; "?" reads back as nothing |
| GlslProgram.AttribTypeNameInverse | engine/core/graphics/ogl_fw/glslprogram.cpp:398-428 | a name that reads back to an enumerant is exactly that enumerant's name |
| GlslProgram.UniformTableContents | engine/core/graphics/ogl_fw/glslprogram.cpp:287-310 | the uniform table holds exactly the names of uniforms outside any block, each at the location of its last such entry |
| GlslProgram.UniformTable | engine/core/graphics/ogl_fw/glslprogram.cpp:289-308 | the table find_uniform_locations builds: uniforms in blocks skipped, later entries overwriting earlier ones; UniformTableContents characterises it |
| GlslProgram.Program.constructor | engine/core/graphics/ogl_fw/glslprogram.cpp:31-33 | a new program has handle 0, is not linked, and has an empty uniform table |
| GlslProgram.Program.Valid | engine/core/graphics/ogl_fw/glslprogram.cpp:141-170 | the life-cycle invariant that every mutator keeps: a program is never linked without a handle |
| GlslProgram.Program.CompileFileEffect | engine/core/graphics/ogl_fw/glslprogram.cpp:61-90 | the outcome and new state of compiling a file, branch by branch, with the stage recorded on the attached shader |
| GlslProgram.Program.CompileSourceEffect | engine/core/graphics/ogl_fw/glslprogram.cpp:92-139 | the outcome and new attachments of compiling source text, with the stage recorded on the attached shader |
| GlslProgram.Program.CompileShader | engine/core/graphics/ogl_fw/glslprogram.cpp:44-59 | an extension missing from the table throws "Unrecognized extension: " + ext before anything changes; otherwise the file is compiled with exactly the stage the table gives for its extension, and a successful compile attaches a shader of that stage |
| GlslProgram.Program.CompileShaderFile | engine/core/graphics/ogl_fw/glslprogram.cpp:61-90 | a missing file throws "Shader: <name> not found." with no change; the handle is created only when it is 0, and a failed creation throws "Unable to create shader program."; an unreadable file throws "Unable to open: <name>"; otherwise the contents are compiled as the given stage |
| GlslProgram.Program.CompileShaderSource | engine/core/graphics/ogl_fw/glslprogram.cpp:92-139 | a nonzero handle is never replaced; a failed compile throws "<name>: shader compilation failed.\n" or "Shader compilation failed.\n" followed by the log, and attaches nothing; a successful one attaches the new shader, recorded with the stage it was compiled as |
| GlslProgram.Program.Link | engine/core/graphics/ogl_fw/glslprogram.cpp:141-172 | already linked returns with no effect; handle 0 throws "Program has not been compiled." with no effect; otherwise the attached shaders are detached and deleted, and `linked` and the uniform table are set only when the link succeeds, a failure throwing "Program link failed:\n" + log |
| GlslProgram.Program.Validate | engine/core/graphics/ogl_fw/glslprogram.cpp:174-200 | succeeds exactly when linked and the driver validates; otherwise throws "Program is not linked" or "Program failed to validate\n" + log |
| GlslProgram.Program.Use | engine/core/graphics/ogl_fw/glslprogram.cpp:202-206 | succeeds exactly when the handle is nonzero and the program is linked, and otherwise throws "Shader has not been linked"; since a program is never linked without a handle, a linked program is always usable |
| GlslProgram.Program.GetUniformLocation | engine/core/graphics/ogl_fw/glslprogram.cpp:430-433 | returns the stored location, or 0 for an unknown name, which it inserts |
| GlslProgram.Program.FindUniformLocations | engine/core/graphics/ogl_fw/glslprogram.cpp:287-310 | the table is cleared and refilled to exactly the table of the active uniforms outside blocks |
| GlslProgram.Program.DetachDeleteShaderObjects | engine/core/graphics/ogl_fw/glslprogram.cpp:435-446 | every shader attached at the call is detached and deleted, in order |

## Left out

- OpenGL driver calls (`glCreateProgram`, `glCreateShader`, `glCompileShader`, `glLinkProgram`,
  `glValidateProgram`, `glGetProgramiv`, the info-log queries, `glUseProgram`) are not modelled.
  Their answers are method parameters, and the program's attached shaders are a field.
- The `set_uniform` overloads, `bind_attrib_loc` and `bind_frag_data_loc` are not modelled. They
  only forward to the driver.
- `print_active_uniforms`, `print_active_uniform_blocks` and `print_active_attribs` are not
  modelled. They only print.
- The OpenGL enumerant values behind the shader stages (glslprogram.h:23-31) are not modelled.
  Stages are an enumeration.
- The destructor of `glsl_program_t` is not modelled. Neither are the trivial getters
  `get_handle` and `is_linked`; the model reads the fields directly.
- `GlslProgram.Program.FindUniformLocations`: the source fills the table only in WIN32 builds.
  The model always fills it from the active-uniform list it receives.
- File-system access (`GLSLUtils::file_exists` and the `ifstream` read) is not modelled. The
  file's existence, readability and contents are inputs.
- The info-log buffers are not modelled byte for byte: the log is appended as the driver
  returns it.
- `float` and `double` are modelled as exact reals. Rounding, NaN and infinities are not
  modelled, nor the `double`-to-`float` casts of `delta_sec`.
- `Camera.OrbCameraPositioner.Update` requires a nonzero `damping_`; with zero the source
  divides by zero.
- glm geometry is left uninterpreted: quaternion from Euler angles, `mat4_cast`, `lookAt`,
  `yawPitchRoll`, `translate`, matrix row extraction and `normalize`. The view-matrix convention
  and rotation geometry are not verified. Only unit length of `normalize` is assumed (`Lawful`).
- `Camera.AcceleratedBounded` and `Camera.ClampedBounded` cover non-negative speed limits only.
  With a negative limit the source's `normalize(v) * max_speed` points backwards.
- `Camera.OrbCameraPositioner.Update` is written as three steps (`Look`, `SumAcceleration`,
  `ChangeSpeed`) of the same method body. They run in the source's order.
- `Camera.UICameraPositioner.Update` is likewise written as two steps (`StepPosition`,
  `StepAngles`) followed by the transform refresh, in the source's order.
- The `CameraPositionerInterface` virtual dispatch is modelled as a two-variant datatype of the
  concrete positioners.
- `src/main.cpp` is not part of this model.
