# wgpu-instancing: a model of the frame controller, key axes, draw recording and texture descriptors

This project models the discrete logic of a small wgpu/winit program that
draws 1000 instances of one cube. GPU objects are handled as opaque tokens.
The model covers four pieces of the program:

- **The frame controller, `App`** (module `App`).
  - It picks the surface format and present mode from what the surface offers.
  - It keeps the surface configuration, which `resize` overwrites without clamping.
  - It toggles fullscreen.
  - It maps window events to exit, fullscreen, resize and redraw actions.
  - It maps a failed image acquisition to a reaction: resize, exit, or a logged warning.
  - It integrates the particle positions.
  - It renders one frame. Every request the frame makes to the queue, the window and the surface goes into an ordered log, `gpuLog`: buffer writes, the submitted render pass, the pre-present notification and the present.
- **The key axes and the camera controller** (module `Camera`).
  - An `Axis` holds two pressed flags. Key events update them, with the positive key taking precedence, and the axis reads back as -1, 0 or 1.
  - The controller forwards key events to its five axes and scales its speed on arrow keys and on the mouse wheel.
  - The controller moves the eye only when a movement axis is non-zero.
- **Draw recording** (modules `Commands` and `Mesh`).
  - A render pass is the log of the commands recorded into it.
  - `Run` replays a log into the bindings it leaves behind and the draws it issues. Each draw keeps the bindings it was issued under.
  - `Mesh::draw_instanced` and `Mesh::draw` are proved to bind what they should and to issue exactly one draw.
- **Texture descriptors** (module `Texture`).
  - The depth, render and plain textures: their sizes (the depth texture is raised to at least 1×1), formats, sample counts and usages.
  - The copy layout of an upload: rows of 4·width bytes.
  - How file and decoding failures become `TextureCreateError` messages.

Shared types live in `Gpu` (wgpu values and the u32 cast) and `Winit` (keys, events, window and event loop). `Wrappers` holds `Option`, `Result` and `Outcome`.

Results that come from foreign code are parameters:

- the image `get_current_texture` returns, or its error;
- the window's inner size;
- the random generator's draws;
- the eye movement `CameraController::update` computes;
- the results of opening and decoding an image.

f32 arithmetic is modelled with exact reals where the model needs it:

- `p += v · delta`;
- `eye += movement`;
- speed scaling.

Rounding is not modelled.

Facts about the program that the model keeps:

- `resize` does not clamp the size to at least 1. A zero width or height reaches the surface configuration as it is.
- Rendering uses one single-sample pass with no resolve target and no depth attachment.
- There is no compute dispatch and no push-constant block. Particles are integrated on the CPU.
- There are `OBJECT_COUNT = 1000` particles.
- `texture.rs` is not declared as a module of `src/app/mod.rs`, so the program does not compile it. It is modelled all the same.

## Model

| member | source | states |
|---|---|---|
| Gpu.AsU32 | src/app/mesh.rs:90 | `as u32` keeps the low 32 bits: the result is the u32 congruent to the input modulo 2^32, so values below 2^32 are kept and larger ones shrink |
| Mesh.VertexDesc | src/app/mesh.rs:8-14 | a vertex layout's stride is the type's size, its step mode is per-vertex and its attributes are the type's |
| Mesh.InstanceDesc | src/app/mesh.rs:19-25 | an instance layout's stride is the type's size, its step mode is per-instance and its attributes are the type's |
| Mesh.DescsDifferOnlyInStepMode | src/app/mesh.rs:8-25 | the vertex and instance descriptions of one type agree on everything except the step mode |
| Mesh.Create | src/app/mesh.rs:54-78 | the element count is the number of indices; the vertex buffer (VERTEX usage) and the index buffer (INDEX usage) hold the data unchanged |
| Mesh.DrawInstancedCommands | src/app/mesh.rs:80-91 | four commands, where only the last is a draw: `draw_indexed(0..element_count, 0, instances)` |
| Mesh.DrawCommands | src/app/mesh.rs:93-99 | three commands ending with a draw of instances `0..1`; every vertex-buffer bind is to slot 0 |
| Mesh.DrawInstancedEffect | src/app/mesh.rs:86-90 | from any pass state: slot 0 holds the mesh's vertex buffer, slot 1 the given instance buffer, and the index buffer is bound as Uint32; nothing else changes; exactly one draw is appended, with those bindings, the whole index range and the given instance range |
| Mesh.DrawEffect | src/app/mesh.rs:95-98 | binds slot 0 and the index buffer but leaves slot 1 as it was; appends one draw of the whole index range with exactly one instance |
| Mesh.DrawnIndicesInBounds | src/app/mesh.rs:73-90 | when the indices name existing vertices and fit in u32, the drawn index range is exactly the index buffer and every drawn index names a vertex |
| Mesh.DrawInstanced | src/app/mesh.rs:80-91 | appends exactly the `draw_instanced` commands to the render pass, in order |
| Mesh.Draw | src/app/mesh.rs:93-99 | appends exactly the `draw` commands to the render pass, in order |
| Camera.Camera.constructor | src/app/camera.rs:21-30 | the eye starts at (0,0,1); near is 0.1, far is 40000; the aspect ratio is the one given |
| Camera.Step | src/app/camera.rs:93-99 | the positive key sets only the positive flag to the pressed state; the negative key (when it is not also the positive key) sets only the negative flag; a flag changes only for its own key |
| Camera.StepIdempotent | src/app/camera.rs:93-99 | processing the same key event twice is the same as processing it once |
| Camera.StepOtherKey | src/app/camera.rs:93-99 | a key bound to neither direction changes nothing |
| Camera.StepSameButton | src/app/camera.rs:93-99 | when both directions use the same key, no sequence of events ever changes the negative flag |
| Camera.Axis.constructor | src/app/camera.rs:84-91 | a new axis has its two buttons, neither flag set, and reads 0 |
| Camera.Axis.Process | src/app/camera.rs:93-99 | the new flags are `Step` of the old flags and the event |
| Camera.Axis.Get | src/app/camera.rs:101-104 | the reading is -1, 0 or 1; it is 0 exactly when both or neither key is held, 1 exactly when only the positive key is held, and -1 exactly when only the negative key is held |
| Camera.CameraController.constructor | src/app/camera.rs:119-130 | motion starts at (0,0); the axes are A/D, W/S, Q/E, ShiftLeft/Space and ArrowDown/ArrowUp, five distinct axes with nothing held |
| Camera.CameraController.ProcessWindowEvent | src/app/camera.rs:132-150 | a key event reaches all five axes, then the speed is scaled by 1 + 0.2·(arrow axis); a line-wheel event scales the speed by 1 + 0.1·lines; any other event changes nothing |
| Camera.CameraController.Update | src/app/camera.rs:167-191 | the eye moves by the movement vector exactly when the horizontal, vertical or up/down axis is non-zero; near, far and aspect stay as they were |
| Camera.StillIffBalanced | src/app/camera.rs:185-190 | the eye stays put exactly when each of the three movement axes has both or neither key held; the Q/E axis plays no part |
| Texture.Display | src/app/texture.rs:16-20 | the displayed text is the message, character for character |
| Texture.DisplayRoundTrip | src/app/texture.rs:10-20 | displaying an error built from a message gives that message back |
| Texture.CreateDepthTexture | src/app/texture.rs:222-265 | each side is `max(side, 1)`: the surface's side when non-zero, exactly 1 when zero; depth 1; Depth32Float; the caller's sample count; one mip level; RENDER_ATTACHMENT and TEXTURE_BINDING usage; the comparison sampler |
| Texture.CreateRenderTexture | src/app/texture.rs:130-173 | exactly the surface's width and height, unclamped; the surface's format; one sample; one mip level; the comparison sampler |
| Texture.DepthMatchesRenderUnlessEmpty | src/app/texture.rs:222-232 | depth and render textures built from one configuration have equal sizes exactly when both sides of the surface are non-zero |
| Texture.CreateTexture | src/app/texture.rs:175-220 | a size that fits in u32 is kept; depth 1; one mip level; one sample; TEXTURE_BINDING and COPY_DST usage; the caller's format and sampler |
| Texture.FromBytes | src/app/texture.rs:84-127 | a texture of the given size and format with the nearest-filter sampler; one upload of the bytes at offset 0, with rows of 4·width bytes and `height` rows, whose extent is the texture's size |
| Texture.UploadCoversImage | src/app/texture.rs:115-124 | for an RGBA image of 4·w·h bytes, the upload layout spans exactly its bytes |
| Texture.FromFile | src/app/texture.rs:37-59 | fails exactly when opening or decoding fails; the message is "Failed to open file: " or "Failed to decode image: " followed by the cause; on success the format is Rgba8UnormSrgb |
| Texture.FromImageBytes | src/app/texture.rs:61-82 | fails exactly when loading fails, with "Failed to load image from memory: " followed by the cause; on success the format is Rgba8UnormSrgb |
| Texture.StageRecoverable | src/app/texture.rs:43-72 | the three message prefixes tell the failing step apart, whatever the cause's text |
| Texture.ErrorsNameTheirStage | src/app/texture.rs:43-72 | every failure of `from_file` names opening or decoding, whichever failed; every failure of `from_image_bytes` names loading from memory |
| App.DefaultPipelineBuffersConsistent | src/app/mod.rs:283-286 | the default pipeline reads slot 0 per vertex and slot 1 per instance; every attribute fits in its stride; the cube vertex and the instance use different shader locations |
| App.FirstSrgb | src/app/mod.rs:121-122 | finds the position of the first sRGB format, and none exactly when no format is sRGB |
| App.ChooseFormat | src/app/mod.rs:121-122 | the format is one offered; it is sRGB exactly when some offered format is, and then it is the first such; otherwise it is the first format offered |
| App.ChoosePresentMode | src/app/mod.rs:123-124 | Mailbox exactly when Mailbox is offered, otherwise Fifo |
| App.InitialConfiguration | src/app/mod.rs:116-129 | the window's size, the chosen format and present mode, RENDER_ATTACHMENT usage, frame latency 2, opaque alpha, no view formats |
| App.ResizedConfig | src/app/mod.rs:401-405 | width and height become the new size; every other field keeps its value |
| App.ResizeIdempotent | src/app/mod.rs:401-405 | resizing twice to one size is the same as resizing once, and a zero width passes through unclamped |
| App.Toggled | src/app/mod.rs:394-399 | windowed becomes borderless on the current monitor, and any fullscreen becomes windowed |
| App.ToggleTwice | src/app/mod.rs:394-399 | two toggles restore the state exactly when it was windowed or borderless on the current monitor |
| App.KeyAction | src/app/mod.rs:439-449 | only pressed keys act: Escape exits, F toggles fullscreen, and any other key does nothing |
| App.EventAction | src/app/mod.rs:437-474 | close requests and pressed Escape exit, a pressed F toggles fullscreen, every keyboard event follows the key table, `Resized(s)` resizes to `s`, a redraw request redraws, and wheel and other events do nothing; these are the only cases for each action |
| App.RedrawAction | src/app/mod.rs:453-468 | success does nothing; Lost or Outdated resizes to the window; OutOfMemory logs "OOM encountered. Shutting down." and exits; Timeout and Other only warn |
| App.ExitConditions | src/app/mod.rs:437-468 | the loop is asked to exit exactly on a close request, a pressed Escape, or a redraw whose acquisition ran out of memory |
| App.IgnorableErrorsOnlyWarn | src/app/mod.rs:462-467 | a timeout or unknown surface error neither exits nor touches the configuration, and logs one warning |
| App.FrameDrawsEveryParticle | src/app/mod.rs:373-383 | the frame's render pass issues exactly one draw: the whole cube, with instances `0..count` (as u32), the default pipeline when it is a render pipeline, the camera bind group at 0, the cube in slot 0, the instance buffer in slot 1 and the cube's index buffer |
| App.FrameOps | src/app/mod.rs:349-391 | a frame is, in order: camera write, positions write, one submit of one render pass (cleared to black, stored, no resolve target), pre-present notification, present |
| App.Integrated | src/app/mod.rs:341-346 | integration keeps the number of positions |
| App.IntegrateZeroDelta | src/app/mod.rs:341-346 | a zero time step leaves every particle where it was |
| App.GenerateRandomVectors | src/app/mod.rs:80-93 | exactly `count` vectors: the i-th is the generator's i-th draw, and it lies in the box |
| App.CubeIndicesInBounds | src/app/mod.rs:136-171 | the cube has 36 indices, each below its 8 vertices |
| App.CubeTrianglesNonDegenerate | src/app/mod.rs:147-171 | each of the 12 triangles has three distinct corners |
| App.CubeMeshWellFormed | src/app/mod.rs:134-172 | the cube mesh holds 8 vertices and 36 indices, and every index names a vertex |
| App.App.constructor | src/app/mod.rs:95-261 | the configuration is the initial one; the default pipeline is registered as a render pipeline; the cube mesh; OBJECT_COUNT positions and OBJECT_COUNT velocities from their draws; the camera at eye (0,0,1) with near 0.1, far 40000 and the given aspect; the controller at speed 1 and sensitivity 0.005, motion (0,0), the A/D, W/S, Q/E, ShiftLeft/Space and ArrowDown/ArrowUp bindings, nothing held, so a new app does not move the eye |
| App.App.FrameDrawsAllObjects | src/app/mod.rs:373-383 | in a valid app, every frame draws the cube OBJECT_COUNT times in one draw |
| App.App.UpdateBuffers | src/app/mod.rs:322-334 | writes the camera uniform, then the positions |
| App.App.Render | src/app/mod.rs:349-392 | a failed acquisition returns its error without any write, submit or present; a successful one appends exactly the frame's requests and returns success |
| App.App.Update | src/app/mod.rs:338-347 | positions become their integration by the velocities; velocities are unchanged; the eye moves exactly when the controller's movement axes say so; the camera's near, far and aspect are unchanged; OBJECT_COUNT is kept |
| App.App.ToggleFullscreen | src/app/mod.rs:394-399 | the window's fullscreen state becomes its toggle; nothing else about the window changes |
| App.App.Resize | src/app/mod.rs:401-405 | the configuration becomes the resized one, and the surface is reconfigured with it |
| App.App.Perform | src/app/mod.rs:438-472 | carries out an action other than redraw: its exit, fullscreen, resize and log effects, and nothing else |
| App.App.HandleWindowEvent | src/app/mod.rs:430-475 | the controller sees the event first; a redraw requests another redraw, renders, and reacts to the result; the exit flag, fullscreen state, configuration, log lines and GPU requests each change exactly as the event and table say; particles are untouched |

## Left out

- Creating the instance, surface, adapter and device, and compiling the shader and building the render pipeline (src/app/mod.rs:95-130, 263-320). These are foreign wgpu calls. Pipelines, buffers, bind groups and images are opaque handles. Only the pipeline registry's insert and lookup of `PipelineSelector::Default` are modelled.
- Creating the camera and instance buffers is not modelled either. Their initial contents are not in `gpuLog`; only later writes are.
- The cursor grab and hiding in `App::new` (src/app/mod.rs:217-218): window effects with no bearing on the modelled state.
- The camera's direction, up vector, view, projection and uniform matrices (src/app/camera.rs:36-65), and mouse motion (`process_device_events`, src/app/camera.rs:153-165, forwarded by `device_event`). These are f32 trigonometry and matrix math.
- Camera.CameraController.Update: the movement vector, computed as the normalised, speed-scaled, delta-scaled sum of the axes times the camera's right, direction and up vectors, is a parameter. The contract says when the eye moves and by what, but not how the vector is computed. The direction update is not modelled.
- App.App.Update: it inherits the parameter above. Positions are integrated in exact reals, so f32 rounding is not captured.
- App.GenerateRandomVectors: the random generator's draws are a parameter. The contract ties each vector to its draw and to the box the generator promises, but not to any distribution.
- App.App.constructor: `size.width as f32 / size.height as f32` is passed in as the aspect ratio. Its infinite or NaN value for a zero height cannot be expressed in reals.
- `about_to_wait` (src/app/mod.rs:413-419): `Instant` time bookkeeping that turns wall-clock time into the `delta` passed to `update`.
- `Game::init` (src/app/mod.rs:409-411): it blocks on `App::new` and panics when that fails. Device set-up failures are outside the model.
- Texture.FromBytes: it requires `4 * width` to fit in u32. The product is a u32 multiplication that panics in debug builds and wraps in release builds, and neither outcome is modelled.
- Texture.FromFile and Texture.FromImageBytes: opening, decoding and RGBA conversion are foreign. Their results are parameters, and only the error mapping and the upload of the converted pixels are modelled.
- Texture views are not modelled. Every view is the texture's default view.
- `TextureFormat` holds the two formats the program names (`Rgba8UnormSrgb` and `Depth32Float`), a few formats that stand for what a surface may offer (`Bgra8Unorm`, `Bgra8UnormSrgb`, `Rgba8Unorm`, `Rgba16Float`, `Rgb10a2Unorm`), and a catch-all `OtherFormat`. `is_srgb` is true only for the listed sRGB variants; wgpu's other formats are not distinguished.
- src/main.rs and src/window.rs: event-loop start-up and forwarding of winit callbacks to `App`.
- src/app/draw.rs: a GPU buffer wrapper and `Model::uniform` matrix math. Nothing in the core calls it.
- Logging through `log::debug!` in `Mesh::create`. Only the error and warning lines of `window_event` are kept, in `logLines`.
