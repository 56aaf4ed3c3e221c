/**
 * The frame controller: the `App` that owns the surface configuration, the
 * pipeline registry, the cube mesh, the camera and the particle arrays;
 * reacts to window events; integrates the particles; and renders one frame
 * per redraw. What the queue, the surface and the window are asked to do is
 * kept, in order, in `gpuLog`; what is logged is kept in `logLines`.
 */
module App {
  import opened Wrappers
  import opened Gpu
  import opened Winit
  import opened Commands
  import Mesh
  import Camera

  /** `App::OBJECT_COUNT`: the number of particles. */
  const OBJECT_COUNT: nat := 1000

  /** `InstanceRepr`: one position of three f32 per instance, read at shader location 1. */
  const InstanceReprLayout: Mesh.PodLayout := Mesh.PodLayout(12, [Mesh.VertexAttribute(Mesh.Float32x3, 0, 1)])

  /** The vertex-buffer layouts the default pipeline is built with: cube vertices, then instances. */
  function DefaultPipelineBuffers(): seq<Mesh.VertexBufferLayout> {
    [Mesh.VertexDesc(Mesh.DefaultVertex3dLayout), Mesh.InstanceDesc(InstanceReprLayout)]
  }

  /**
   * Slot 0 steps per vertex and slot 1 per instance (the slots `draw_instanced`
   * binds), every attribute fits in its buffer's stride, and no two attributes
   * share a shader location.
   */
  lemma DefaultPipelineBuffersConsistent()
    ensures var b := DefaultPipelineBuffers();
      && |b| == 2
      && b[0].stepMode == Mesh.VertexStep && b[1].stepMode == Mesh.InstanceStep
      && Mesh.AttributesFit(Mesh.PodLayout(b[0].arrayStride, b[0].attributes))
      && Mesh.AttributesFit(Mesh.PodLayout(b[1].arrayStride, b[1].attributes))
      && forall i, j :: 0 <= i < |b[0].attributes| && 0 <= j < |b[1].attributes| ==>
           b[0].attributes[i].shaderLocation != b[1].attributes[j].shaderLocation
  {
  }

  datatype PipelineSelector = Default | Custom(name: string)

  datatype Pipeline = Render(id: PipelineId) | Compute(id: PipelineId)

  /** What `Surface::get_capabilities` reports and the configuration is chosen from. */
  datatype SurfaceCapabilities = SurfaceCapabilities(formats: seq<TextureFormat>, presentModes: seq<PresentMode>)

  /** The position of the first sRGB format, as `iter().find(is_srgb)` finds it. */
  function FirstSrgb(formats: seq<TextureFormat>): (r: Option<nat>)
    ensures r.Some? ==> r.value < |formats| && formats[r.value].IsSrgb()
    ensures r.Some? ==> forall j :: 0 <= j < r.value ==> !formats[j].IsSrgb()
    ensures r.None? ==> forall j :: 0 <= j < |formats| ==> !formats[j].IsSrgb()
  {
    if formats == [] then None
    else if formats[0].IsSrgb() then Some(0)
    else match FirstSrgb(formats[1..])
         case None => None
         case Some(i) => Some(i + 1)
  }

  /**
   * The surface format: the first sRGB format offered, otherwise the first
   * format offered. `formats[0]` is evaluated eagerly, so an empty list panics.
   */
  function ChooseFormat(formats: seq<TextureFormat>): (f: TextureFormat)
    requires |formats| > 0
    ensures f in formats
    ensures f.IsSrgb() <==> exists j :: 0 <= j < |formats| && formats[j].IsSrgb()
    ensures !f.IsSrgb() ==> f == formats[0]
    ensures f.IsSrgb() ==> exists i :: 0 <= i < |formats| && formats[i] == f
                                       && forall j :: 0 <= j < i ==> !formats[j].IsSrgb()
  {
    match FirstSrgb(formats)
    case Some(i) => formats[i]
    case None => formats[0]
  }

  /** The present mode: Mailbox when offered, otherwise Fifo (which every surface supports). */
  function ChoosePresentMode(modes: seq<PresentMode>): (m: PresentMode)
    ensures m == Mailbox <==> Mailbox in modes
    ensures m == Mailbox || m == Fifo
  {
    if Mailbox in modes then Mailbox else Fifo
  }

  /** The configuration `App::new` gives the surface. */
  function InitialConfiguration(caps: SurfaceCapabilities, size: PhysicalSize): (c: SurfaceConfiguration)
    requires |caps.formats| > 0
    ensures c.width == size.width && c.height == size.height
    ensures c.format == ChooseFormat(caps.formats) && c.presentMode == ChoosePresentMode(caps.presentModes)
    ensures c.usage == {RenderAttachment} && c.desiredMaximumFrameLatency == 2
    ensures c.alphaMode == Opaque && c.viewFormats == []
  {
    SurfaceConfiguration({RenderAttachment}, ChooseFormat(caps.formats), size.width, size.height,
                         ChoosePresentMode(caps.presentModes), 2, Opaque, [])
  }

  /** What `resize` does to the configuration: the new width and height, unclamped, and nothing else. */
  function ResizedConfig(config: SurfaceConfiguration, size: PhysicalSize): (r: SurfaceConfiguration)
    ensures r.width == size.width && r.height == size.height
    ensures r.(width := config.width, height := config.height) == config
  {
    config.(width := size.width, height := size.height)
  }

  /** Resizing twice to one size is resizing once, and a zero size is kept as zero. */
  lemma ResizeIdempotent(config: SurfaceConfiguration, size: PhysicalSize)
    ensures ResizedConfig(ResizedConfig(config, size), size) == ResizedConfig(config, size)
    ensures size.width == 0 ==> ResizedConfig(config, size).width == 0
  {
  }

  /** The fullscreen state `toggle_fullscreen` asks for. */
  function Toggled(f: Option<Fullscreen>): (r: Option<Fullscreen>)
    ensures r.None? <==> f.Some?
    ensures r.Some? ==> r.value == Borderless(None)
  {
    match f
    case None => Some(Borderless(None))
    case Some(_) => None
  }

  /**
   * Two toggles restore the state exactly when it was windowed or borderless
   * on the current monitor; any other fullscreen mode comes back as the latter.
   */
  lemma ToggleTwice(f: Option<Fullscreen>)
    ensures Toggled(Toggled(f)) == f <==> f == None || f == Some(Borderless(None))
    ensures f.Some? ==> Toggled(Toggled(f)) == Some(Borderless(None))
  {
  }

  datatype LogLine = ErrorLine(message: string) | WarnLine(message: string)

  /** What the application does in answer to an event or to the outcome of a render. */
  datatype Action =
    | NoAction
    | ExitLoop
    | SwitchFullscreen
    | ResizeSurface(size: PhysicalSize)
    | ResizeToWindow
    | Redraw
    | LogWarning(message: string)
    | LogErrorAndExit(message: string)

  const OOM_MESSAGE: string := "OOM encountered. Shutting down."
  const TIMEOUT_MESSAGE: string := "Surface timeout!"
  const UNKNOWN_ERROR_MESSAGE: string := "Unknown surface error."

  /** The key table: only pressed keys act; Escape exits, F toggles fullscreen. */
  function KeyAction(e: KeyEvent): (a: Action)
    ensures a == ExitLoop <==> e.IsPressed() && e.IsKey(Escape)
    ensures a == SwitchFullscreen <==> e.IsPressed() && e.IsKey(KeyF)
    ensures a == NoAction || a == ExitLoop || a == SwitchFullscreen
  {
    if !e.IsPressed() then NoAction
    else match e.physicalKey
         case Code(Escape) => ExitLoop
         case Code(KeyF) => SwitchFullscreen
         case _ => NoAction
  }

  /** The event table of `window_event`. */
  function EventAction(event: WindowEvent): (a: Action)
    ensures a.ExitLoop? <==> event.CloseRequested? || (event.KeyboardInput? && KeyAction(event.event) == ExitLoop)
    ensures a.ResizeSurface? <==> event.Resized?
    ensures a.ResizeSurface? ==> a.size == event.size
    ensures a.Redraw? <==> event.RedrawRequested?
    ensures !a.ResizeToWindow? && !a.LogWarning? && !a.LogErrorAndExit?
    ensures event.KeyboardInput? ==> a == KeyAction(event.event)
    ensures a == SwitchFullscreen <==> event.KeyboardInput? && event.event.IsPressed() && event.event.IsKey(KeyF)
    ensures event.MouseWheel? || event.OtherWindowEvent? ==> a == NoAction
  {
    match event
    case CloseRequested => ExitLoop
    case KeyboardInput(e) => KeyAction(e)
    case RedrawRequested => Redraw
    case Resized(size) => ResizeSurface(size)
    case _ => NoAction
  }

  /**
   * The redraw reaction table: success does nothing; a lost or outdated
   * surface is resized to the window; out of memory logs an error and exits;
   * a timeout or an unknown error only logs a warning.
   */
  function RedrawAction(r: Outcome<SurfaceError>): (a: Action)
    ensures a == NoAction <==> r.Pass?
    ensures a == ResizeToWindow <==> r == Fail(Lost) || r == Fail(Outdated)
    ensures a == LogErrorAndExit(OOM_MESSAGE) <==> r == Fail(OutOfMemory)
    ensures a.LogWarning? <==> r == Fail(Timeout) || r == Fail(Other)
    ensures !a.ExitLoop?
  {
    match r
    case Pass => NoAction
    case Fail(Lost) => ResizeToWindow
    case Fail(Outdated) => ResizeToWindow
    case Fail(OutOfMemory) => LogErrorAndExit(OOM_MESSAGE)
    case Fail(Timeout) => LogWarning(TIMEOUT_MESSAGE)
    case Fail(Other) => LogWarning(UNKNOWN_ERROR_MESSAGE)
  }

  /** What `render` returns for an image acquisition: the acquisition error, untouched, or success. */
  function RenderOutcome(acquired: Result<ImageId, SurfaceError>): Outcome<SurfaceError> {
    match acquired
    case Success(_) => Pass
    case Failure(e) => Fail(e)
  }

  /** The action an event finally leads to; for a redraw, the reaction to how rendering went. */
  function EffectiveAction(event: WindowEvent, acquired: Result<ImageId, SurfaceError>): Action {
    if event.RedrawRequested? then RedrawAction(RenderOutcome(acquired)) else EventAction(event)
  }

  predicate Exits(a: Action) {
    a.ExitLoop? || a.LogErrorAndExit?
  }

  function LogOf(a: Action): seq<LogLine> {
    match a
    case LogWarning(m) => [WarnLine(m)]
    case LogErrorAndExit(m) => [ErrorLine(m)]
    case _ => []
  }

  function ConfigAfter(config: SurfaceConfiguration, a: Action, windowSize: PhysicalSize): SurfaceConfiguration {
    match a
    case ResizeSurface(size) => ResizedConfig(config, size)
    case ResizeToWindow => ResizedConfig(config, windowSize)
    case _ => config
  }

  /**
   * The loop is asked to exit exactly on a close request, a pressed Escape,
   * or a redraw whose image acquisition ran out of memory.
   */
  lemma ExitConditions(event: WindowEvent, acquired: Result<ImageId, SurfaceError>)
    ensures Exits(EffectiveAction(event, acquired)) <==>
      || event.CloseRequested?
      || (event.KeyboardInput? && event.event.IsPressed() && event.event.IsKey(Escape))
      || (event.RedrawRequested? && acquired == Failure(OutOfMemory))
  {
  }

  /**
   * Timeouts and unknown surface errors neither exit, nor resize, nor toggle
   * anything: the configuration is left as it was and one warning is logged.
   */
  lemma IgnorableErrorsOnlyWarn(e: SurfaceError, config: SurfaceConfiguration, windowSize: PhysicalSize)
    requires e == Timeout || e == Other
    ensures var a := EffectiveAction(RedrawRequested, Failure(e));
      && !Exits(a) && ConfigAfter(config, a, windowSize) == config && |LogOf(a)| == 1 && LogOf(a)[0].WarnLine?
  {
  }

  datatype Color = Color(r: real, g: real, b: real, a: real)

  const BLACK: Color := Color(0.0, 0.0, 0.0, 1.0)

  datatype LoadOp = Clear(color: Color) | Load

  datatype StoreOp = Store | Discard

  datatype ColorAttachment = ColorAttachment(view: ImageId, resolveTarget: Option<ImageId>, load: LoadOp, store: StoreOp)

  /** A finished render pass: its attachments and the commands recorded into it. */
  datatype RenderPassRecord = RenderPassRecord(
    colorAttachments: seq<ColorAttachment>,
    hasDepthStencil: bool,
    commands: seq<Command>)

  datatype CommandBuffer = CommandBuffer(passes: seq<RenderPassRecord>)

  /** One request to the queue, the window or the surface during a frame. */
  datatype GpuOp =
    | WriteCamera(buffer: BufferId, camera: Camera.CameraState)
    | WritePositions(buffer: BufferId, positions: seq<Vec3>)
    | Submit(commandBuffers: seq<CommandBuffer>)
    | PrePresentNotify
    | Present(image: ImageId)

  /** The commands `render` records into its render pass. */
  function FrameCommands(pipeline: Pipeline, cameraBindGroup: BindGroupId, mesh: Mesh.Mesh<Mesh.DefaultVertex3d>,
                         instanceBuffer: BufferId, instanceCount: nat): seq<Command>
  {
    (if pipeline.Render? then [Command.SetPipeline(pipeline.id)] else [])
    + [Command.SetBindGroup(0, cameraBindGroup)]
    + Mesh.DrawInstancedCommands(mesh, instanceBuffer, Range(0, AsU32(instanceCount)))
  }

  /**
   * The render pass of a frame holds one draw: the whole cube, once per
   * particle, with the default pipeline (when it is a render pipeline), the
   * camera bind group at 0, the cube's vertices in slot 0 and the instance
   * buffer in slot 1.
   */
  lemma {:induction false} FrameDrawsEveryParticle(pipeline: Pipeline, cameraBindGroup: BindGroupId,
                                                   mesh: Mesh.Mesh<Mesh.DefaultVertex3d>,
                                                   instanceBuffer: BufferId, instanceCount: nat)
    ensures var t := Run(Begun, FrameCommands(pipeline, cameraBindGroup, mesh, instanceBuffer, instanceCount));
      && |t.draws| == 1
      && t.draws[0].indices == Mesh.ElementRange(mesh)
      && t.draws[0].instances == Range(0, AsU32(instanceCount))
      && (instanceCount < U32_LIMIT ==> t.draws[0].instances.Len() == instanceCount)
      && t.draws[0].bindings.pipeline == (if pipeline.Render? then Some(pipeline.id) else None)
      && t.draws[0].bindings.bindGroups == map[0 := cameraBindGroup]
      && t.draws[0].bindings.vertexBuffers == map[0 := mesh.vertexBuffer.id, 1 := instanceBuffer]
      && t.draws[0].bindings.indexBuffer == Some(IndexBinding(mesh.indexBuffer.id, Uint32))
  {
    var head := (if pipeline.Render? then [Command.SetPipeline(pipeline.id)] else []) + [Command.SetBindGroup(0, cameraBindGroup)];
    var draw := Mesh.DrawInstancedCommands(mesh, instanceBuffer, Range(0, AsU32(instanceCount)));
    assert FrameCommands(pipeline, cameraBindGroup, mesh, instanceBuffer, instanceCount) == head + draw;
    RunConcat(Begun, head, draw);
    var s := Run(Begun, head);
    if pipeline.Render? {
      assert head[1..][1..] == [];
      assert s == Run(Apply(Apply(Begun, head[0]), head[1]), []);
    } else {
      assert head[1..] == [];
      assert s == Run(Apply(Begun, head[0]), []);
    }
    assert s.draws == [];
    assert s.bindings.vertexBuffers == map[];
    Mesh.DrawInstancedEffect(mesh, s, instanceBuffer, Range(0, AsU32(instanceCount)));
    assert map[][0 := mesh.vertexBuffer.id][1 := instanceBuffer] == map[0 := mesh.vertexBuffer.id, 1 := instanceBuffer];
  }

  /**
   * The requests of one successful frame, in order: write the camera
   * uniform, write the particle positions, submit one command buffer with one
   * render pass (cleared to black, stored, no resolve target, no depth), tell
   * the window a frame is about to be presented, present the image.
   */
  function FrameOps(image: ImageId, camera: Camera.CameraState, cameraBuffer: BufferId,
                    positions: seq<Vec3>, instanceBuffer: BufferId, commands: seq<Command>): (ops: seq<GpuOp>)
    ensures |ops| == 5
    ensures ops[2].Submit? && forall i :: 0 <= i < 5 && i != 2 ==> !ops[i].Submit?
    ensures ops[0].WriteCamera? && ops[1] == WritePositions(instanceBuffer, positions)
    ensures ops[3] == PrePresentNotify && ops[4] == Present(image)
    ensures |ops[2].commandBuffers| == 1 && |ops[2].commandBuffers[0].passes| == 1
    ensures ops[2].commandBuffers[0].passes[0].commands == commands
    ensures ops[2].commandBuffers[0].passes[0].colorAttachments == [ColorAttachment(image, None, Clear(BLACK), Store)]
  {
    var pass := RenderPassRecord([ColorAttachment(image, None, Clear(BLACK), Store)], false, commands);
    [ WriteCamera(cameraBuffer, camera),
      WritePositions(instanceBuffer, positions),
      Submit([CommandBuffer([pass])]),
      PrePresentNotify,
      Present(image) ]
  }

  /** One step of the particle integration, `p += v * delta` (exact, f32 rounding not modelled). */
  function Advance(p: Vec3, v: Vec3, delta: real): Vec3 {
    p.Add(v.Scale(delta))
  }

  /**
   * What `update` does to the positions: `zip` pairs each position with the
   * velocity at the same index, so positions beyond the last velocity stay.
   */
  function Integrated(positions: seq<Vec3>, velocities: seq<Vec3>, delta: real): (r: seq<Vec3>)
    ensures |r| == |positions|
  {
    seq(|positions|, i requires 0 <= i < |positions| =>
      if i < |velocities| then Advance(positions[i], velocities[i], delta) else positions[i])
  }

  /** A zero time step leaves every particle where it was. */
  lemma IntegrateZeroDelta(positions: seq<Vec3>, velocities: seq<Vec3>)
    ensures Integrated(positions, velocities, 0.0) == positions
  {
    var r := Integrated(positions, velocities, 0.0);
    forall i | 0 <= i < |positions|
      ensures r[i] == positions[i]
    {
      if i < |velocities| {
        assert Advance(positions[i], velocities[i], 0.0) == positions[i];
      }
    }
  }

  predicate Within(v: Vec3, min: Vec3, max: Vec3) {
    min.x <= v.x < max.x && min.y <= v.y < max.y && min.z <= v.z < max.z
  }

  /**
   * `generate_random_vectors`: `count` vectors, the i-th being the i-th
   * draw of the random generator, each coordinate drawn from min..max.
   * `random_range` panics on an empty range, hence the first requirement;
   * the second is the generator's own guarantee.
   */
  method GenerateRandomVectors(count: nat, min: Vec3, max: Vec3, draw: nat -> Vec3) returns (vectors: seq<Vec3>)
    requires min.x < max.x && min.y < max.y && min.z < max.z
    requires forall i: nat :: Within(draw(i), min, max)
    ensures |vectors| == count
    ensures forall i :: 0 <= i < count ==> vectors[i] == draw(i) && Within(vectors[i], min, max)
  {
    vectors := [];
    for i := 0 to count
      invariant |vectors| == i
      invariant forall j :: 0 <= j < i ==> vectors[j] == draw(j)
    {
      vectors := vectors + [draw(i)];
    }
  }

  const CUBE_VERTICES: seq<Mesh.DefaultVertex3d> := [
    Mesh.DefaultVertex3d(Vec3(-0.5, -0.5, -0.5)),
    Mesh.DefaultVertex3d(Vec3(0.5, -0.5, -0.5)),
    Mesh.DefaultVertex3d(Vec3(0.5, -0.5, 0.5)),
    Mesh.DefaultVertex3d(Vec3(-0.5, -0.5, 0.5)),
    Mesh.DefaultVertex3d(Vec3(-0.5, 0.5, -0.5)),
    Mesh.DefaultVertex3d(Vec3(0.5, 0.5, -0.5)),
    Mesh.DefaultVertex3d(Vec3(0.5, 0.5, 0.5)),
    Mesh.DefaultVertex3d(Vec3(-0.5, 0.5, 0.5))
  ]

  /** Two triangles per face: bottom, top, back, front, left, right. */
  const CUBE_INDICES: seq<u32> := [
    0, 1, 2,  0, 2, 3,
    4, 6, 5,  4, 7, 6,
    0, 5, 1,  0, 4, 5,
    3, 2, 6,  3, 6, 7,
    3, 4, 0,  3, 7, 4,
    1, 6, 2,  1, 5, 6
  ]

  function CubeMesh(vertexHandle: BufferId, indexHandle: BufferId): Mesh.Mesh<Mesh.DefaultVertex3d> {
    Mesh.Create(vertexHandle, indexHandle, CUBE_VERTICES, CUBE_INDICES)
  }

  /** Every index of the cube names one of its 8 vertices. */
  lemma CubeIndicesInBounds()
    ensures |CUBE_INDICES| == 36
    ensures forall i :: 0 <= i < |CUBE_INDICES| ==> CUBE_INDICES[i] < |CUBE_VERTICES|
  {
    forall i | 0 <= i < 36
      ensures CUBE_INDICES[i] < 8
    {
      assert i in {0, 1, 2, 3, 4, 5, 6, 7, 8, 9, 10, 11, 12, 13, 14, 15, 16, 17,
                   18, 19, 20, 21, 22, 23, 24, 25, 26, 27, 28, 29, 30, 31, 32, 33, 34, 35};
    }
  }

  /** Each of the cube's 12 triangles has three distinct corners. */
  lemma CubeTrianglesNonDegenerate()
    ensures forall t :: 0 <= t < 12 ==>
      && CUBE_INDICES[3 * t] != CUBE_INDICES[3 * t + 1]
      && CUBE_INDICES[3 * t + 1] != CUBE_INDICES[3 * t + 2]
      && CUBE_INDICES[3 * t] != CUBE_INDICES[3 * t + 2]
  {
    forall t | 0 <= t < 12
      ensures CUBE_INDICES[3 * t] != CUBE_INDICES[3 * t + 1]
      ensures CUBE_INDICES[3 * t + 1] != CUBE_INDICES[3 * t + 2]
      ensures CUBE_INDICES[3 * t] != CUBE_INDICES[3 * t + 2]
    {
      assert t in {0, 1, 2, 3, 4, 5, 6, 7, 8, 9, 10, 11};
    }
  }

  /** The cube mesh holds 8 vertices and 36 indices, and every index names one of the vertices. */
  lemma CubeMeshWellFormed(vertexHandle: BufferId, indexHandle: BufferId)
    ensures var m := CubeMesh(vertexHandle, indexHandle);
      && |m.vertexBuffer.contents| == 8 && |m.indexBuffer.contents| == 36 && m.elementCount == 36
      && Mesh.IndicesInBounds(m)
  {
    CubeIndicesInBounds();
  }

  /** The handles the device returns for the objects `App::new` creates. */
  datatype Handles = Handles(
    cubeVertices: BufferId,
    cubeIndices: BufferId,
    cameraBuffer: BufferId,
    cameraBindGroup: BindGroupId,
    instanceBuffer: BufferId,
    defaultPipeline: PipelineId)

  class App {
    const window: Window
    var surfaceConfig: SurfaceConfiguration
    /** The configuration the surface was last configured with. */
    var surfaceApplied: SurfaceConfiguration
    const pipelines: map<PipelineSelector, Pipeline>
    const cubeMesh: Mesh.Mesh<Mesh.DefaultVertex3d>
    const camera: Camera.Camera
    const cameraController: Camera.CameraController
    const cameraBuffer: BufferId
    const cameraBindGroup: BindGroupId
    var positions: seq<Vec3>
    var velocities: seq<Vec3>
    const instanceBuffer: BufferId
    var gpuLog: seq<GpuOp>
    var logLines: seq<LogLine>

    /**
     * The default pipeline is registered (render indexes the map with it),
     * the surface runs the current configuration, and there are
     * OBJECT_COUNT positions and as many velocities.
     */
    ghost predicate Valid()
      reads this
    {
      && PipelineSelector.Default in pipelines
      && surfaceApplied == surfaceConfig
      && |positions| == OBJECT_COUNT && |velocities| == OBJECT_COUNT
      && cameraController.Valid()
    }

    /**
     * `App::new`, past the foreign device set-up: `caps` is what the surface
     * offers, `handles` what the device returns, `aspect` the f32 quotient of
     * the window's width by its height, `positionDraws` and `velocityDraws`
     * the random generator's draws.
     */
    constructor (window: Window, caps: SurfaceCapabilities, handles: Handles, aspect: real,
                 positionDraws: nat -> Vec3, velocityDraws: nat -> Vec3)
      requires |caps.formats| > 0
      requires forall i: nat :: Within(positionDraws(i), Vec3(-100.0, -100.0, -100.0), Vec3(100.0, 100.0, 100.0))
      requires forall i: nat :: Within(velocityDraws(i), Vec3(-1.0, -1.0, -1.0), Vec3(1.0, 1.0, 1.0))
      ensures Valid()
      ensures this.window == window
      ensures surfaceConfig == InitialConfiguration(caps, window.innerSize)
      ensures pipelines == map[PipelineSelector.Default := Pipeline.Render(handles.defaultPipeline)]
      ensures cubeMesh == CubeMesh(handles.cubeVertices, handles.cubeIndices)
      ensures cameraBuffer == handles.cameraBuffer && cameraBindGroup == handles.cameraBindGroup
      ensures instanceBuffer == handles.instanceBuffer
      ensures fresh(camera) && camera.eye == Vec3(0.0, 0.0, 1.0) && camera.aspect == aspect
      ensures camera.near == 0.1 && camera.far == 40000.0
      ensures fresh(cameraController) && cameraController.speed == 1.0 && cameraController.sensitivity == 0.005
      ensures cameraController.cameraMotion == (0.0, 0.0)
      ensures cameraController.horizontal.negativeButton == KeyA && cameraController.horizontal.positiveButton == KeyD
      ensures cameraController.vertical.negativeButton == KeyW && cameraController.vertical.positiveButton == KeyS
      ensures cameraController.qeAxis.negativeButton == KeyQ && cameraController.qeAxis.positiveButton == KeyE
      ensures cameraController.updownAxis.negativeButton == ShiftLeft && cameraController.updownAxis.positiveButton == Space
      ensures cameraController.arrowkeyAxis.negativeButton == ArrowDown && cameraController.arrowkeyAxis.positiveButton == ArrowUp
      ensures cameraController.horizontal.Pressed() == cameraController.vertical.Pressed() == Camera.Flags(false, false)
      ensures cameraController.qeAxis.Pressed() == cameraController.updownAxis.Pressed() == Camera.Flags(false, false)
      ensures cameraController.arrowkeyAxis.Pressed() == Camera.Flags(false, false)
      ensures !cameraController.Moves()
      ensures forall i :: 0 <= i < OBJECT_COUNT ==> positions[i] == positionDraws(i) && velocities[i] == velocityDraws(i)
      ensures gpuLog == [] && logLines == []
    {
      this.window := window;
      var config := InitialConfiguration(caps, window.innerSize);
      surfaceConfig := config;
      surfaceApplied := config;
      cubeMesh := CubeMesh(handles.cubeVertices, handles.cubeIndices);
      camera := new Camera.Camera(aspect);
      cameraController := new Camera.CameraController(1.0, 0.005);
      cameraBuffer := handles.cameraBuffer;
      cameraBindGroup := handles.cameraBindGroup;
      pipelines := map[PipelineSelector.Default := Pipeline.Render(handles.defaultPipeline)];
      var ps := GenerateRandomVectors(OBJECT_COUNT, Vec3(-100.0, -100.0, -100.0), Vec3(100.0, 100.0, 100.0), positionDraws);
      var vs := GenerateRandomVectors(OBJECT_COUNT, Vec3(-1.0, -1.0, -1.0), Vec3(1.0, 1.0, 1.0), velocityDraws);
      positions := ps;
      velocities := vs;
      instanceBuffer := handles.instanceBuffer;
      gpuLog := [];
      logLines := [];
    }

    /** The requests a successful frame on `image` makes. */
    function Frame(image: ImageId): seq<GpuOp>
      reads this`positions, camera
      requires PipelineSelector.Default in pipelines
    {
      FrameOps(image, camera.State(), cameraBuffer, positions, instanceBuffer,
               FrameCommands(pipelines[PipelineSelector.Default], cameraBindGroup, cubeMesh, instanceBuffer, |positions|))
    }

    /** In a valid app every frame draws the cube exactly OBJECT_COUNT times, in one draw. */
    lemma FrameDrawsAllObjects(image: ImageId)
      requires Valid()
      ensures var t := Run(Begun, Frame(image)[2].commandBuffers[0].passes[0].commands);
        |t.draws| == 1 && t.draws[0].instances == Range(0, OBJECT_COUNT) && t.draws[0].instances.Len() == OBJECT_COUNT
    {
      FrameDrawsEveryParticle(pipelines[PipelineSelector.Default], cameraBindGroup, cubeMesh, instanceBuffer, |positions|);
    }

    /** `update_buffers`: the camera uniform, then the positions. */
    method UpdateBuffers()
      modifies this`gpuLog
      ensures gpuLog == old(gpuLog) + [WriteCamera(cameraBuffer, camera.State()), WritePositions(instanceBuffer, positions)]
    {
      gpuLog := gpuLog + [WriteCamera(cameraBuffer, camera.State()), WritePositions(instanceBuffer, positions)];
    }

    /**
     * `render`. `acquired` is what `get_current_texture` returned. A failed
     * acquisition is returned as it is, before any write, submit or present.
     */
    method Render(acquired: Result<ImageId, SurfaceError>) returns (r: Outcome<SurfaceError>)
      requires Valid()
      modifies this`gpuLog
      ensures r == RenderOutcome(acquired)
      ensures acquired.Failure? ==> gpuLog == old(gpuLog)
      ensures acquired.Success? ==> gpuLog == old(gpuLog) + Frame(acquired.value)
    {
      if acquired.Failure? {
        return Fail(acquired.error);
      }
      var image := acquired.value;
      UpdateBuffers();
      var pass := new RenderPass();
      match pipelines[PipelineSelector.Default] {
        case Render(p) => pass.SetPipeline(p);
        case Compute(_) =>
      }
      pass.SetBindGroup(0, cameraBindGroup);
      Mesh.DrawInstanced(cubeMesh, pass, instanceBuffer, Range(0, AsU32(|positions|)));
      assert pass.commands == FrameCommands(pipelines[PipelineSelector.Default], cameraBindGroup, cubeMesh, instanceBuffer, |positions|);
      var record := RenderPassRecord([ColorAttachment(image, None, Clear(BLACK), Store)], false, pass.commands);
      gpuLog := gpuLog + [Submit([CommandBuffer([record])])];
      gpuLog := gpuLog + [PrePresentNotify];
      gpuLog := gpuLog + [Present(image)];
      assert gpuLog == old(gpuLog) + Frame(image);
      r := Pass;
    }

    /** `update`: move the eye, then integrate every particle; velocities are only read. */
    method Update(delta: real, movement: Vec3)
      requires Valid()
      modifies this`positions, camera
      ensures Valid()
      ensures positions == Integrated(old(positions), velocities, delta)
      ensures velocities == old(velocities)
      ensures camera.eye == if cameraController.Moves() then old(camera.eye).Add(movement) else old(camera.eye)
      ensures camera.near == old(camera.near) && camera.far == old(camera.far) && camera.aspect == old(camera.aspect)
    {
      cameraController.Update(camera, movement);
      var n := if |positions| < |velocities| then |positions| else |velocities|;
      for i := 0 to n
        modifies this`positions
        invariant |positions| == |old(positions)|
        invariant forall j :: 0 <= j < |positions| ==>
          positions[j] == if j < i then Advance(old(positions)[j], velocities[j], delta) else old(positions)[j]
      {
        positions := positions[i := Advance(positions[i], velocities[i], delta)];
      }
    }

    /** `toggle_fullscreen`. */
    method ToggleFullscreen()
      modifies window
      ensures window.fullscreen == Toggled(old(window.fullscreen))
      ensures window.innerSize == old(window.innerSize) && window.redrawRequests == old(window.redrawRequests)
    {
      window.SetFullscreen(Toggled(window.fullscreen));
    }

    /** `resize`: overwrite width and height, no clamp, and reconfigure the surface with the result. */
    method Resize(size: PhysicalSize)
      requires Valid()
      modifies this`surfaceConfig, this`surfaceApplied
      ensures Valid()
      ensures surfaceConfig == ResizedConfig(old(surfaceConfig), size)
    {
      surfaceConfig := surfaceConfig.(width := size.width, height := size.height);
      surfaceApplied := surfaceConfig;
    }

    /** Carry out an action other than a redraw. */
    method Perform(a: Action, eventLoop: EventLoop)
      requires Valid() && !a.Redraw?
      modifies this`surfaceConfig, this`surfaceApplied, this`logLines, window, eventLoop
      ensures Valid()
      ensures surfaceConfig == ConfigAfter(old(surfaceConfig), a, old(window.innerSize))
      ensures logLines == old(logLines) + LogOf(a)
      ensures eventLoop.exiting == (old(eventLoop.exiting) || Exits(a))
      ensures window.fullscreen == if a.SwitchFullscreen? then Toggled(old(window.fullscreen)) else old(window.fullscreen)
      ensures window.innerSize == old(window.innerSize) && window.redrawRequests == old(window.redrawRequests)
    {
      match a {
        case ExitLoop => eventLoop.Exit();
        case SwitchFullscreen => ToggleFullscreen();
        case ResizeSurface(size) => Resize(size);
        case ResizeToWindow => Resize(window.innerSize);
        case LogWarning(m) => logLines := logLines + [WarnLine(m)];
        case LogErrorAndExit(m) =>
          logLines := logLines + [ErrorLine(m)];
          eventLoop.Exit();
        case NoAction =>
      }
    }

    /**
     * `window_event`. The camera controller sees every event first. For a
     * redraw, `acquired` is what the surface hands out for the frame.
     */
    method HandleWindowEvent(eventLoop: EventLoop, event: WindowEvent, acquired: Result<ImageId, SurfaceError>)
      requires Valid()
      modifies this, window, eventLoop, cameraController
      modifies cameraController.horizontal, cameraController.vertical, cameraController.qeAxis
      modifies cameraController.updownAxis, cameraController.arrowkeyAxis
      ensures Valid()
      ensures cameraController.Processed(event)
      ensures eventLoop.exiting == (old(eventLoop.exiting) || Exits(EffectiveAction(event, acquired)))
      ensures window.fullscreen == if EventAction(event).SwitchFullscreen? then Toggled(old(window.fullscreen))
                                   else old(window.fullscreen)
      ensures window.innerSize == old(window.innerSize)
      ensures window.redrawRequests == old(window.redrawRequests) + (if event.RedrawRequested? then 1 else 0)
      ensures surfaceConfig == ConfigAfter(old(surfaceConfig), EffectiveAction(event, acquired), old(window.innerSize))
      ensures logLines == old(logLines) + LogOf(EffectiveAction(event, acquired))
      ensures gpuLog == old(gpuLog) + (if event.RedrawRequested? && acquired.Success? then old(Frame(acquired.value)) else [])
      ensures positions == old(positions) && velocities == old(velocities)
    {
      cameraController.ProcessWindowEvent(event);
      var a := EventAction(event);
      if a.Redraw? {
        window.RequestRedraw();
        var r := Render(acquired);
        Perform(RedrawAction(r), eventLoop);
      } else {
        Perform(a, eventLoop);
      }
    }
  }
}
