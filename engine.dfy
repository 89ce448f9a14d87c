/**
 * The graphics engine's lifecycle and its frame protocol
 * (korangar/src/graphics/engine.rs).
 *
 * `GraphicsEngine` is a state machine over the surface, the recorded surface
 * texture format, the engine context and the frame-rate limit. Everything the
 * engine asks of the GPU, the frame pacer or the staging belt is recorded as
 * an `EngineEvent` in `trace`; command encoders are recorded as `Command`
 * sequences; GPU objects are opaque tokens.
 */
module Graphics {
  import opened Wrappers
  import opened MachineIntegers

  // ----------------------------------------------------------- plain values

  /** `wgpu::TextureFormat`, as negotiated for a surface. */
  datatype TextureFormat = TextureFormat(id: nat)

  /** A size in physical pixels. */
  datatype ScreenSize = ScreenSize(width: U32, height: U32)

  /** `ShadowDetail`: picks the size of the shadow maps. */
  datatype ShadowDetail = ShadowDetail(level: nat)

  /** `TextureSamplerType`: nearest, linear or one of the anisotropic samplers. */
  datatype TextureSamplerType = TextureSamplerType(kind: nat)

  datatype LimitFramerate = Unlimited | Limit(rate: nat)

  /** `FramePacer::new(60.0)`: the monitor frequency the pacer assumes at start. */
  const INITIAL_MONITOR_FREQUENCY: nat := 60

  /**
   * `Surface`: the presentable target, with the settings it was configured
   * with and whether it must be reconfigured before the next acquire.
   */
  datatype SurfaceState = SurfaceState(
    format: TextureFormat,
    windowSize: ScreenSize,
    tripleBuffering: bool,
    vsync: bool,
    invalid: bool)

  // ---------------------------------------------- the window-size clamp

  /**
   * `PhysicalSize::max` as `on_resume` uses it: `PhysicalSize` orders sizes
   * lexicographically (width first, then height), so this is the larger of
   * the two sizes in that order, not a clamp of each side.
   */
  function LexicographicMax(a: ScreenSize, b: ScreenSize): (m: ScreenSize)
    ensures m == a || m == b
    ensures a.width != b.width ==> m.width == Max(a.width, b.width)
  {
    if a.width > b.width || (a.width == b.width && a.height >= b.height) then a else b
  }

  /**
   * Clamping with the lexicographic maximum lets a zero height through: an
   * 800 x 0 window is larger than 1 x 1 in that order.
   */
  lemma LexicographicClampKeepsZeroHeight()
    ensures LexicographicMax(ScreenSize(800, 0), ScreenSize(1, 1)) == ScreenSize(800, 0)
    ensures LexicographicMax(ScreenSize(800, 0), ScreenSize(1, 1)).height == 0
  {
  }

  /**
   * The clamp `on_resume` means to apply: each side at least one pixel, and
   * a side that is already positive unchanged.
   */
  function ClampedScreenSize(size: ScreenSize): (clamped: ScreenSize)
    ensures clamped.width >= 1 && clamped.height >= 1
    ensures size.width >= 1 ==> clamped.width == size.width
    ensures size.height >= 1 ==> clamped.height == size.height
  {
    ScreenSize(Max(size.width, 1), Max(size.height, 1))
  }

  // ------------------------------------------------------ engine context

  /**
   * `EngineContext`: every pass context and drawer, built for one surface
   * texture format. Its global context holds the screen-size textures, the
   * shadow maps and the texture sampler, which are updated in place.
   */
  class EngineContext {
    const format: TextureFormat
    var screenSize: ScreenSize
    var shadowDetail: ShadowDetail
    var textureSamplerType: TextureSamplerType

    /** The `GlobalContext::new` arguments that later calls can change. */
    constructor (format: TextureFormat, screenSize: ScreenSize, shadowDetail: ShadowDetail,
                 textureSamplerType: TextureSamplerType)
      ensures this.format == format && this.screenSize == screenSize
      ensures this.shadowDetail == shadowDetail && this.textureSamplerType == textureSamplerType
    {
      this.format := format;
      this.screenSize := screenSize;
      this.shadowDetail := shadowDetail;
      this.textureSamplerType := textureSamplerType;
    }
  }

  // ------------------------------------------------------ recorded work

  /** Every pass context and drawer the engine context owns. */
  datatype Component =
    | GlobalContext
    | InterfacePassContext | PickerPassContext | DirectionalShadowPassContext
    | PointShadowPassContext | GeometryPassContext | ScreenPassContext
    | InterfaceRectangleDrawer | PickerEntityDrawer | PickerTileDrawer
    | DirectionalShadowModelDrawer | DirectionalShadowEntityDrawer | DirectionalShadowIndicatorDrawer
    | PointShadowEntityDrawer | PointShadowModelDrawer | PointShadowIndicatorDrawer
    | GeometryModelDrawer | GeometryIndicatorDrawer | GeometryEntityDrawer | GeometryWaterDrawer
    | ScreenAmbientLightDrawer | ScreenDirectionalLightDrawer | ScreenPointLightDrawer
    | ScreenWaterLightDrawer | ScreenRectangleDrawer | ScreenEffectDrawer | ScreenOverlayDrawer
    | PickerMarkerDrawer | ScreenAabbDrawer | ScreenCircleDrawer | ScreenBufferDrawer

  datatype Layer = Bottom | Middle | Top

  /** What is recorded into a command encoder. */
  datatype Command =
    | Upload(component: Component)
    | BeginPass(context: Component)
    | BeginInterfacePass(clear: bool)
    | BeginPointShadowPass(caster: nat, face: nat)
    | Draw(drawer: Component)
    | DrawRectangles(layer: Layer)
    | EndPass
    | CopyPickerTexel(x: U32, y: U32)

  /** The encoder a command buffer was recorded on. */
  datatype Encoder =
    | PrepareEncoder | PickerEncoder | InterfaceEncoder | DirectionalShadowEncoder
    | PointShadowEncoder | GeometryEncoder | ScreenEncoder

  datatype CommandBuffer = CommandBuffer(encoder: Encoder, commands: seq<Command>)

  /** The six buffers `draw_frame` returns, in its tuple's order. */
  type DrawnBuffers = (CommandBuffer, CommandBuffer, CommandBuffer, CommandBuffer, CommandBuffer, CommandBuffer)

  /** What the engine asks of the surface, the frame pacer, the staging belt and the queue. */
  datatype EngineEvent =
    | Reconfigure
    | ResizeScreenTextures(size: ScreenSize)
    | PacerWait
    | BeginCpuStage
    | Acquire
    | Recall
    | PrepareStage(groups: seq<seq<Component>>)
    | StagingFinish
    | QueuePickerRead
    | PollWait
    | Submit(buffers: seq<CommandBuffer>)
    | Present
    | EndCpuStage

  datatype FrameOutcome = Presented | Aborted

  /** `debug` render settings that gate the screen pass's lights. */
  datatype RenderSettings = RenderSettings(
    showAmbientLight: bool,
    showDirectionalLight: bool,
    showPointLights: bool)

  /**
   * `RenderInstruction`, as far as the engine itself reads it: the number of
   * point-light shadow casters, the picker position (after its conversion to
   * `u32`), the flags and whether the map has water.
   */
  datatype RenderInstruction = RenderInstruction(
    pointLightShadowCasters: nat,
    pickerLeft: U32,
    pickerTop: U32,
    clearInterface: bool,
    hasWater: bool,
    showInterface: bool,
    settings: RenderSettings)

  // -------------------------------------------------------- wait for frame

  /**
   * Reconfiguring an invalid surface and resizing the screen-size textures
   * to its window size; nothing for a valid surface. (A surface only exists
   * once a context does, so the resize is never skipped.)
   */
  function ReconfigureEvents(surface: Option<SurfaceState>): (events: seq<EngineEvent>)
    ensures Reconfigure in events <==> surface.Some? && surface.value.invalid
    ensures forall size :: ResizeScreenTextures(size) in events <==>
              surface.Some? && surface.value.invalid && size == surface.value.windowSize
    ensures PacerWait !in events && BeginCpuStage !in events && Acquire !in events
  {
    if surface.Some? && surface.value.invalid then [Reconfigure, ResizeScreenTextures(surface.value.windowSize)]
    else []
  }

  /**
   * The work `wait_for_next_frame` requests: reconfigure an invalid surface,
   * wait on the pacer only when the frame rate is limited, always begin the
   * CPU stage, and acquire the next texture when there is a surface to
   * acquire from.
   */
  function WaitEvents(surface: Option<SurfaceState>, limitFramerate: bool): (events: seq<EngineEvent>)
    ensures Reconfigure in events <==> surface.Some? && surface.value.invalid
    ensures forall size :: ResizeScreenTextures(size) in events <==>
              surface.Some? && surface.value.invalid && size == surface.value.windowSize
    ensures PacerWait in events <==> limitFramerate
    ensures BeginCpuStage in events
    ensures Acquire in events <==> surface.Some?
    ensures surface.Some? ==> events[|events| - 1] == Acquire
  {
    ReconfigureEvents(surface) + (if limitFramerate then [PacerWait] else []) + [BeginCpuStage]
      + (if surface.Some? then [Acquire] else [])
  }

  // -------------------------------------------------------- prepare stage

  /** The prepare calls of the tasks spawned in every build, one group per task. */
  const SPAWNED_GROUPS: seq<seq<Component>> :=
    [[DirectionalShadowEntityDrawer, DirectionalShadowModelDrawer],
     [GeometryEntityDrawer, GeometryModelDrawer],
     [InterfaceRectangleDrawer],
     [PointShadowEntityDrawer, PointShadowModelDrawer],
     [ScreenDirectionalLightDrawer, ScreenEffectDrawer],
     [ScreenPointLightDrawer, ScreenRectangleDrawer]]

  /** The tasks a debug build spawns as well. */
  const DEBUG_GROUPS: seq<seq<Component>> :=
    [[PickerMarkerDrawer, ScreenAabbDrawer], [ScreenBufferDrawer, ScreenCircleDrawer]]

  /** What the calling thread prepares itself while the tasks run. */
  const CALLING_THREAD_GROUP: seq<Component> :=
    [GlobalContext, DirectionalShadowPassContext, PointShadowPassContext, PickerEntityDrawer]

  /**
   * `prepare_frame_data`'s prepare calls: one group per spawned task (the
   * calls inside a group run in order), then the calling thread's own calls.
   * The groups run concurrently with each other.
   */
  function PrepareGroups(debug: bool): seq<seq<Component>>
  {
    SPAWNED_GROUPS + (if debug then DEBUG_GROUPS else []) + [CALLING_THREAD_GROUP]
  }

  /** The components every build uploads, in the upload visitor's order. */
  const UPLOADS: seq<Component> :=
    [DirectionalShadowEntityDrawer, DirectionalShadowModelDrawer, DirectionalShadowPassContext,
     GeometryEntityDrawer, GeometryModelDrawer, GlobalContext, InterfaceRectangleDrawer,
     PickerEntityDrawer, PointShadowEntityDrawer, PointShadowModelDrawer, PointShadowPassContext,
     ScreenDirectionalLightDrawer, ScreenEffectDrawer, ScreenPointLightDrawer, ScreenRectangleDrawer]

  /** What a debug build uploads after them. */
  const DEBUG_UPLOADS: seq<Component> :=
    [PickerMarkerDrawer, ScreenAabbDrawer, ScreenBufferDrawer, ScreenCircleDrawer]

  /** The fixed order in which the upload visitor uploads. */
  function UploadOrder(debug: bool): seq<Component>
  {
    UPLOADS + (if debug then DEBUG_UPLOADS else [])
  }

  function Flatten(groups: seq<seq<Component>>): (all: seq<Component>)
    ensures forall c :: c in all <==> exists g :: g in groups && c in g
  {
    if groups == [] then [] else groups[0] + Flatten(groups[1..])
  }

  lemma {:induction false} FlattenOfConcat(a: seq<seq<Component>>, b: seq<seq<Component>>)
    ensures Flatten(a + b) == Flatten(a) + Flatten(b)
  {
    if a == [] {
      assert a + b == b;
    } else {
      assert (a + b)[1..] == a[1..] + b;
      FlattenOfConcat(a[1..], b);
    }
  }

  /** The calls of the spawned tasks, in task order. */
  function TaskCalls(debug: bool): seq<Component>
  {
    [DirectionalShadowEntityDrawer, DirectionalShadowModelDrawer, GeometryEntityDrawer, GeometryModelDrawer,
     InterfaceRectangleDrawer, PointShadowEntityDrawer, PointShadowModelDrawer,
     ScreenDirectionalLightDrawer, ScreenEffectDrawer, ScreenPointLightDrawer, ScreenRectangleDrawer]
    + (if debug then DEBUG_UPLOADS else [])
  }

  /**
   * Flattened, the prepare groups list the spawned tasks' calls in spawn
   * order, then the calling thread's calls. This is a listing of the calls,
   * not the order they run in.
   */
  lemma {:induction false} FlattenedPrepareGroups(debug: bool)
    ensures Flatten(SPAWNED_GROUPS + if debug then DEBUG_GROUPS else []) == TaskCalls(debug)
    ensures Flatten(PrepareGroups(debug)) == TaskCalls(debug) + CALLING_THREAD_GROUP
  {
    var spawned := SPAWNED_GROUPS;
    assert Flatten(spawned[5..]) == spawned[5];
    assert Flatten(spawned[4..]) == spawned[4] + spawned[5];
    assert Flatten(spawned[3..]) == spawned[3] + spawned[4] + spawned[5];
    assert Flatten(spawned[2..]) == spawned[2] + spawned[3] + spawned[4] + spawned[5];
    assert Flatten(spawned[1..]) == spawned[1] + spawned[2] + spawned[3] + spawned[4] + spawned[5];
    assert Flatten(spawned) == TaskCalls(false);
    assert Flatten(DEBUG_GROUPS[1..]) == DEBUG_GROUPS[1];
    assert Flatten(DEBUG_GROUPS) == DEBUG_UPLOADS;
    assert Flatten([CALLING_THREAD_GROUP]) == CALLING_THREAD_GROUP;
    var debugGroups := if debug then DEBUG_GROUPS else [];
    FlattenOfConcat(spawned, debugGroups);
    FlattenOfConcat(spawned + debugGroups, [CALLING_THREAD_GROUP]);
  }

  /**
   * Every component that is prepared is uploaded and nothing else is, as
   * many uploads as prepare calls; and the calling thread never prepares a
   * component one of the concurrently running tasks prepares.
   */
  lemma UploadsMatchPrepares(debug: bool)
    ensures forall c :: c in UploadOrder(debug) <==> c in Flatten(PrepareGroups(debug))
    ensures |UploadOrder(debug)| == |Flatten(PrepareGroups(debug))| == if debug then 19 else 15
    ensures forall c :: c in CALLING_THREAD_GROUP ==>
              c !in Flatten(SPAWNED_GROUPS + if debug then DEBUG_GROUPS else [])
  {
    FlattenedPrepareGroups(debug);
  }

  /** The commands of the upload stage: one upload per component, in order. */
  function UploadCommands(components: seq<Component>): (commands: seq<Command>)
    ensures |commands| == |components|
    ensures forall i :: 0 <= i < |components| ==> commands[i] == Upload(components[i])
  {
    if components == [] then [] else [Upload(components[0])] + UploadCommands(components[1..])
  }

  /** The buffer `prepare_frame_data` returns: the uploads, in the visitor's order. */
  function PrepareBuffer(debug: bool): (buffer: CommandBuffer)
    ensures buffer.encoder == PrepareEncoder
    ensures |buffer.commands| == |UploadOrder(debug)|
    ensures forall i :: 0 <= i < |buffer.commands| ==> buffer.commands[i] == Upload(UploadOrder(debug)[i])
  {
    CommandBuffer(PrepareEncoder, UploadCommands(UploadOrder(debug)))
  }

  // ----------------------------------------------------------- draw stage

  /**
   * The texel the picker pass copies: the picker position, pulled back onto
   * the last row or column when it lies beyond the texture. The `u32`
   * subtraction `width - 1` wraps on an empty texture, as a release build does.
   */
  function PickerTexel(size: ScreenSize, left: U32, top: U32): (texel: (U32, U32))
    ensures texel.0 <= left && texel.1 <= top
    ensures size.width >= 1 ==> texel.0 < size.width
    ensures size.height >= 1 ==> texel.1 < size.height
    ensures left < size.width ==> texel.0 == left
    ensures top < size.height ==> texel.1 == top
  {
    var lastColumn := WrappingSub(size.width, 1);
    var lastRow := WrappingSub(size.height, 1);
    (if lastColumn <= left then lastColumn else left, if lastRow <= top then lastRow else top)
  }

  function PickerPassCommands(debug: bool, size: ScreenSize, instruction: RenderInstruction): seq<Command>
  {
    var texel := PickerTexel(size, instruction.pickerLeft, instruction.pickerTop);
    [BeginPass(PickerPassContext), Draw(PickerTileDrawer), Draw(PickerEntityDrawer)]
    + (if debug then [Draw(PickerMarkerDrawer)] else [])
    + [EndPass, CopyPickerTexel(texel.0, texel.1)]
  }

  function InterfacePassCommands(instruction: RenderInstruction): seq<Command>
  {
    [BeginInterfacePass(instruction.clearInterface), Draw(InterfaceRectangleDrawer)]
  }

  function DirectionalShadowPassCommands(): seq<Command>
  {
    [BeginPass(DirectionalShadowPassContext), Draw(DirectionalShadowModelDrawer),
     Draw(DirectionalShadowIndicatorDrawer), Draw(DirectionalShadowEntityDrawer)]
  }

  /** One (caster, face) pass of the point-shadow encoder. */
  function PointShadowFace(caster: nat, face: nat): seq<Command>
  {
    [BeginPointShadowPass(caster, face), Draw(PointShadowModelDrawer),
     Draw(PointShadowEntityDrawer), Draw(PointShadowIndicatorDrawer)]
  }

  /** The first `faces` faces of one caster. */
  function FaceCommands(caster: nat, faces: nat): seq<Command>
  {
    if faces == 0 then [] else FaceCommands(caster, faces - 1) + PointShadowFace(caster, faces - 1)
  }

  /** All six faces of the first `casters` casters. */
  function PointShadowCommands(casters: nat): seq<Command>
  {
    if casters == 0 then [] else PointShadowCommands(casters - 1) + FaceCommands(casters - 1, 6)
  }

  function GeometryPassCommands(instruction: RenderInstruction): seq<Command>
  {
    [BeginPass(GeometryPassContext), Draw(GeometryModelDrawer), Draw(GeometryIndicatorDrawer),
     Draw(GeometryEntityDrawer)]
    + (if instruction.hasWater then [Draw(GeometryWaterDrawer)] else [])
  }

  /** A draw that runs unless a debug build's render setting turns it off. */
  function Gated(debug: bool, shown: bool, command: Command): (commands: seq<Command>)
    ensures command in commands <==> !debug || shown
    ensures forall c :: c in commands ==> c == command
    ensures |commands| <= 1
  {
    if !debug || shown then [command] else []
  }

  /** The position of each light drawer in the screen pass; 4 for any other command. */
  function LightRank(command: Command): nat
  {
    if command == Draw(ScreenAmbientLightDrawer) then 0
    else if command == Draw(ScreenDirectionalLightDrawer) then 1
    else if command == Draw(ScreenPointLightDrawer) then 2
    else if command == Draw(ScreenWaterLightDrawer) then 3
    else 4
  }

  predicate IsLight(command: Command)
  {
    LightRank(command) < 4
  }

  /** The light contributions of the screen pass; only the water light is never gated. */
  function LightCommands(debug: bool, settings: RenderSettings): (commands: seq<Command>)
    ensures Draw(ScreenWaterLightDrawer) in commands
    ensures Draw(ScreenAmbientLightDrawer) in commands <==> !debug || settings.showAmbientLight
    ensures Draw(ScreenDirectionalLightDrawer) in commands <==> !debug || settings.showDirectionalLight
    ensures Draw(ScreenPointLightDrawer) in commands <==> !debug || settings.showPointLights
    ensures forall c :: c in commands ==> !IsCompositing(c)
  {
    Gated(debug, settings.showAmbientLight, Draw(ScreenAmbientLightDrawer))
    + Gated(debug, settings.showDirectionalLight, Draw(ScreenDirectionalLightDrawer))
    + Gated(debug, settings.showPointLights, Draw(ScreenPointLightDrawer))
    + [Draw(ScreenWaterLightDrawer)]
  }

  /**
   * The screen pass up to the middle rectangle layer: the debug shapes, the
   * bottom layer, the effects, the debug buffer view and the middle layer.
   */
  function LowerLayerCommands(debug: bool): (commands: seq<Command>)
    ensures Draw(ScreenAabbDrawer) in commands <==> debug
    ensures Draw(ScreenOverlayDrawer) !in commands
    ensures Draw(ScreenAmbientLightDrawer) !in commands && Draw(ScreenDirectionalLightDrawer) !in commands
    ensures Draw(ScreenPointLightDrawer) !in commands && Draw(ScreenWaterLightDrawer) !in commands
  {
    (if debug then [Draw(ScreenAabbDrawer), Draw(ScreenCircleDrawer)] else [])
    + [DrawRectangles(Bottom), Draw(ScreenEffectDrawer)]
    + (if debug then [Draw(ScreenBufferDrawer)] else [])
    + [DrawRectangles(Middle)]
  }

  /**
   * The rest of the screen pass: the bounding boxes a second time in a debug
   * build, the interface overlay when it is shown, and the top layer.
   */
  function UpperLayerCommands(debug: bool, showInterface: bool): (commands: seq<Command>)
    ensures Draw(ScreenAabbDrawer) in commands <==> debug
    ensures Draw(ScreenOverlayDrawer) in commands <==> showInterface
    ensures Draw(ScreenAmbientLightDrawer) !in commands && Draw(ScreenDirectionalLightDrawer) !in commands
    ensures Draw(ScreenPointLightDrawer) !in commands && Draw(ScreenWaterLightDrawer) !in commands
  {
    (if debug then [Draw(ScreenAabbDrawer)] else [])
    + (if showInterface then [Draw(ScreenOverlayDrawer)] else [])
    + [DrawRectangles(Top)]
  }

  /** The screen pass: every light that is not turned off, then the layers. */
  function ScreenPassCommands(debug: bool, instruction: RenderInstruction): (commands: seq<Command>)
    ensures Draw(ScreenWaterLightDrawer) in commands
    ensures Draw(ScreenAmbientLightDrawer) in commands <==> !debug || instruction.settings.showAmbientLight
    ensures Draw(ScreenDirectionalLightDrawer) in commands <==> !debug || instruction.settings.showDirectionalLight
    ensures Draw(ScreenPointLightDrawer) in commands <==> !debug || instruction.settings.showPointLights
    ensures Draw(ScreenOverlayDrawer) in commands <==> instruction.showInterface
  {
    [BeginPass(ScreenPassContext)]
    + LightCommands(debug, instruction.settings)
    + LowerLayerCommands(debug)
    + UpperLayerCommands(debug, instruction.showInterface)
  }

  /**
   * `draw_frame`'s result: the buffers of the picker, interface,
   * directional-shadow, point-shadow, geometry and screen encoders, in that
   * order. `size` is the picker texture's size.
   */
  function DrawnFrame(instruction: RenderInstruction, debug: bool, size: ScreenSize): (drawn: DrawnBuffers)
    ensures DrawnInOrder(drawn)
  {
    (CommandBuffer(PickerEncoder, PickerPassCommands(debug, size, instruction)),
     CommandBuffer(InterfaceEncoder, InterfacePassCommands(instruction)),
     CommandBuffer(DirectionalShadowEncoder, DirectionalShadowPassCommands()),
     CommandBuffer(PointShadowEncoder, PointShadowCommands(instruction.pointLightShadowCasters)),
     CommandBuffer(GeometryEncoder, GeometryPassCommands(instruction)),
     CommandBuffer(ScreenEncoder, ScreenPassCommands(debug, instruction)))
  }

  /** The order in which the encoders' buffers reach `queue.submit`. */
  const SUBMIT_ORDER: seq<Encoder> :=
    [PrepareEncoder, PickerEncoder, InterfaceEncoder, DirectionalShadowEncoder,
     PointShadowEncoder, GeometryEncoder, ScreenEncoder]

  /**
   * The list `wait_and_submit_frame` submits. `render_next_frame` binds the
   * first two entries of `draw_frame`'s tuple to variables named the other
   * way round and passes them on under those names.
   */
  function SubmittedBuffers(prepare: CommandBuffer, drawn: DrawnBuffers): (buffers: seq<CommandBuffer>)
    ensures |buffers| == 7 && buffers[0] == prepare
  {
    var (interfaceBuffer, pickerBuffer, directionalShadowBuffer, pointShadowBuffer, geometryBuffer, screenBuffer) := drawn;
    [prepare, interfaceBuffer, pickerBuffer, directionalShadowBuffer, pointShadowBuffer, geometryBuffer, screenBuffer]
  }

  /** The six drawn buffers come from the picker, interface, ... and screen encoders, in that order. */
  predicate DrawnInOrder(drawn: DrawnBuffers)
  {
    drawn.0.encoder == PickerEncoder && drawn.1.encoder == InterfaceEncoder
    && drawn.2.encoder == DirectionalShadowEncoder && drawn.3.encoder == PointShadowEncoder
    && drawn.4.encoder == GeometryEncoder && drawn.5.encoder == ScreenEncoder
  }

  /**
   * The seven buffers reach the queue with the prepare buffer first and the
   * six drawn ones after it in `draw_frame`'s order, so the buffer recorded
   * on the picker encoder is submitted second and the interface one third.
   */
  lemma SubmitOrder(prepare: CommandBuffer, drawn: DrawnBuffers)
    requires prepare.encoder == PrepareEncoder && DrawnInOrder(drawn)
    ensures var buffers := SubmittedBuffers(prepare, drawn);
            |buffers| == |SUBMIT_ORDER| &&
            forall i :: 0 <= i < |buffers| ==> buffers[i].encoder == SUBMIT_ORDER[i]
  {
  }

  /**
   * What a frame requests once its buffers are recorded: finish the staging
   * belt, queue the picker read-back, wait for the device, submit, present
   * and end the CPU stage.
   */
  function SubmitEvents(prepare: CommandBuffer, drawn: DrawnBuffers): seq<EngineEvent>
  {
    [StagingFinish, QueuePickerRead, PollWait, Submit(SubmittedBuffers(prepare, drawn)), Present, EndCpuStage]
  }

  // ----------------------------------------- point-shadow pass order

  /** The (caster, face) pairs of the point-shadow passes opened, in order. */
  function PointShadowPasses(commands: seq<Command>): seq<(nat, nat)>
  {
    if commands == [] then [] else PassOpened(commands[0]) + PointShadowPasses(commands[1..])
  }

  /** The (caster, face) pair one command opens a point-shadow pass for, if any. */
  function PassOpened(command: Command): seq<(nat, nat)>
  {
    if command.BeginPointShadowPass? then [(command.caster, command.face)] else []
  }

  lemma {:induction false} PointShadowPassesOfConcat(a: seq<Command>, b: seq<Command>)
    ensures PointShadowPasses(a + b) == PointShadowPasses(a) + PointShadowPasses(b)
  {
    if a == [] {
      assert a + b == b;
    } else {
      var ab := a + b;
      assert ab != [] && ab[0] == a[0];
      assert ab[1..] == a[1..] + b;
      PointShadowPassesOfConcat(a[1..], b);
      calc {
        PointShadowPasses(ab);
        PassOpened(a[0]) + PointShadowPasses(a[1..] + b);
        PassOpened(a[0]) + (PointShadowPasses(a[1..]) + PointShadowPasses(b));
        (PassOpened(a[0]) + PointShadowPasses(a[1..])) + PointShadowPasses(b);
        PointShadowPasses(a) + PointShadowPasses(b);
      }
    }
  }

  lemma PointShadowPassesOfDraws(commands: seq<Command>)
    requires forall c :: c in commands ==> c.Draw?
    ensures PointShadowPasses(commands) == []
  {
    if commands != [] {
      assert commands[0] in commands;
      PointShadowPassesOfDraws(commands[1..]);
    }
  }

  lemma {:induction false} FacePasses(caster: nat, faces: nat)
    ensures PointShadowPasses(FaceCommands(caster, faces)) == seq(faces, i => (caster, i))
  {
    if faces > 0 {
      FacePasses(caster, faces - 1);
      PointShadowPassesOfConcat(FaceCommands(caster, faces - 1), PointShadowFace(caster, faces - 1));
      OneFacePass(caster, faces - 1);
      var before := seq(faces - 1, i => (caster, i));
      assert before + [(caster, faces - 1)] == seq(faces, i => (caster, i));
    }
  }

  /** One face opens exactly its own pass. */
  lemma OneFacePass(caster: nat, face: nat)
    ensures PointShadowPasses(PointShadowFace(caster, face)) == [(caster, face)]
  {
    var draws := [Draw(PointShadowModelDrawer), Draw(PointShadowEntityDrawer), Draw(PointShadowIndicatorDrawer)];
    assert PointShadowFace(caster, face) == [BeginPointShadowPass(caster, face)] + draws;
    PointShadowPassesOfConcat([BeginPointShadowPass(caster, face)], draws);
    PointShadowPassesOfDraws(draws);
  }

  /**
   * The point-shadow encoder opens exactly six passes per caster, casters in
   * the outer order and faces in the inner: pass `k` is face `k % 6` of
   * caster `k / 6`.
   */
  lemma {:induction false} PointShadowPassOrder(casters: nat)
    ensures PointShadowPasses(PointShadowCommands(casters)) == seq(6 * casters, k => (k / 6, k % 6))
  {
    if casters > 0 {
      PointShadowPassOrder(casters - 1);
      PointShadowPassesOfConcat(PointShadowCommands(casters - 1), FaceCommands(casters - 1, 6));
      FacePasses(casters - 1, 6);
      var passes := PointShadowPasses(PointShadowCommands(casters));
      forall k | 6 * (casters - 1) <= k < 6 * casters
        ensures passes[k] == (k / 6, k % 6)
      {
        var face := k - 6 * (casters - 1);
        assert k == 6 * (casters - 1) + face && 0 <= face < 6;
        assert k / 6 == casters - 1 && k % 6 == face;
      }
    }
  }

  // ------------------------------------------ screen compositing order

  /** The steps that composite layers: the rectangle layers and the overlay. */
  predicate IsCompositing(command: Command)
  {
    command.DrawRectangles? || command == Draw(ScreenOverlayDrawer)
  }

  /** What one command contributes to the compositing order. */
  function Kept(command: Command): seq<Command>
  {
    if IsCompositing(command) then [command] else []
  }

  function Compositing(commands: seq<Command>): seq<Command>
  {
    if commands == [] then [] else Kept(commands[0]) + Compositing(commands[1..])
  }

  lemma {:induction false} CompositingOfConcat(a: seq<Command>, b: seq<Command>)
    ensures Compositing(a + b) == Compositing(a) + Compositing(b)
  {
    if a == [] {
      assert a + b == b;
    } else {
      var ab := a + b;
      assert ab != [] && ab[0] == a[0];
      assert ab[1..] == a[1..] + b;
      CompositingOfConcat(a[1..], b);
      calc {
        Compositing(ab);
        Kept(a[0]) + Compositing(a[1..] + b);
        Kept(a[0]) + (Compositing(a[1..]) + Compositing(b));
        (Kept(a[0]) + Compositing(a[1..])) + Compositing(b);
        Compositing(a) + Compositing(b);
      }
    }
  }

  lemma CompositingOfNone(commands: seq<Command>)
    requires forall c :: c in commands ==> !IsCompositing(c)
    ensures Compositing(commands) == []
  {
    if commands != [] {
      assert commands[0] in commands;
      CompositingOfNone(commands[1..]);
    }
  }

  /** Four pieces composite as the two that composite anything. */
  lemma CompositingOfFour(a: seq<Command>, b: seq<Command>, c: seq<Command>, d: seq<Command>)
    ensures Compositing(a + b + c + d) == Compositing(a) + Compositing(b) + Compositing(c) + Compositing(d)
  {
    CompositingOfConcat(a, b);
    CompositingOfConcat(a + b, c);
    CompositingOfConcat(a + b + c, d);
  }

  lemma CompositingOfThree(a: seq<Command>, b: seq<Command>, c: seq<Command>)
    ensures Compositing(a + b + c) == Compositing(a) + Compositing(b) + Compositing(c)
  {
    CompositingOfConcat(a, b);
    CompositingOfConcat(a + b, c);
  }

  lemma LowerLayerCompositing(debug: bool)
    ensures Compositing(LowerLayerCommands(debug)) == [DrawRectangles(Bottom), DrawRectangles(Middle)]
  {
    var shapes: seq<Command> := if debug then [Draw(ScreenAabbDrawer), Draw(ScreenCircleDrawer)] else [];
    var bottom := [DrawRectangles(Bottom), Draw(ScreenEffectDrawer)];
    var buffers: seq<Command> := if debug then [Draw(ScreenBufferDrawer)] else [];
    var middle := [DrawRectangles(Middle)];
    CompositingOfNone(shapes);
    CompositingOfNone(buffers);
    assert Compositing(bottom) == [DrawRectangles(Bottom)];
    assert Compositing(middle) == middle;
    CompositingOfFour(shapes, bottom, buffers, middle);
  }

  lemma UpperLayerCompositing(debug: bool, showInterface: bool)
    ensures Compositing(UpperLayerCommands(debug, showInterface)) ==
              if showInterface then [Draw(ScreenOverlayDrawer), DrawRectangles(Top)] else [DrawRectangles(Top)]
  {
    var boxes: seq<Command> := if debug then [Draw(ScreenAabbDrawer)] else [];
    var overlay: seq<Command> := if showInterface then [Draw(ScreenOverlayDrawer)] else [];
    var top := [DrawRectangles(Top)];
    CompositingOfNone(boxes);
    assert Compositing(overlay) == overlay;
    assert Compositing(top) == top;
    CompositingOfThree(boxes, overlay, top);
  }

  /** The begin command and the lights composite nothing; the layers composite everything. */
  lemma ScreenCompositingParts(debug: bool, instruction: RenderInstruction)
    ensures Compositing(ScreenPassCommands(debug, instruction)) ==
              Compositing(LowerLayerCommands(debug)) + Compositing(UpperLayerCommands(debug, instruction.showInterface))
  {
    var lit := [BeginPass(ScreenPassContext)] + LightCommands(debug, instruction.settings);
    var lower := LowerLayerCommands(debug);
    var upper := UpperLayerCommands(debug, instruction.showInterface);
    CompositingOfNone(lit);
    CompositingOfConcat(lit, lower);
    assert Compositing(lit + lower) == Compositing(lower);
    CompositingOfConcat(lit + lower, upper);
    assert ScreenPassCommands(debug, instruction) == lit + lower + upper;
  }

  lemma LayersInOrder(lower: seq<Command>, upper: seq<Command>, showInterface: bool)
    requires lower == [DrawRectangles(Bottom), DrawRectangles(Middle)]
    requires upper == if showInterface then [Draw(ScreenOverlayDrawer), DrawRectangles(Top)] else [DrawRectangles(Top)]
    ensures lower + upper ==
              if showInterface then
                [DrawRectangles(Bottom), DrawRectangles(Middle), Draw(ScreenOverlayDrawer), DrawRectangles(Top)]
              else
                [DrawRectangles(Bottom), DrawRectangles(Middle), DrawRectangles(Top)]
  {
  }

  /**
   * Whatever the instruction holds, the screen pass composites the Bottom,
   * Middle and Top rectangle layers in that order, with the interface overlay
   * between Middle and Top exactly when the interface is shown.
   */
  lemma ScreenCompositingOrder(debug: bool, instruction: RenderInstruction)
    ensures Compositing(ScreenPassCommands(debug, instruction)) ==
              if instruction.showInterface then
                [DrawRectangles(Bottom), DrawRectangles(Middle), Draw(ScreenOverlayDrawer), DrawRectangles(Top)]
              else
                [DrawRectangles(Bottom), DrawRectangles(Middle), DrawRectangles(Top)]
  {
    ScreenCompositingParts(debug, instruction);
    LowerLayerCompositing(debug);
    UpperLayerCompositing(debug, instruction.showInterface);
    LayersInOrder(Compositing(LowerLayerCommands(debug)),
                  Compositing(UpperLayerCommands(debug, instruction.showInterface)), instruction.showInterface);
  }

  // ------------------------------------------------ screen draw order

  /** The draws whose order the screen pass fixes: the lights, the effects and the compositing steps. */
  predicate IsSequenced(command: Command)
  {
    IsLight(command) || command == Draw(ScreenEffectDrawer) || IsCompositing(command)
  }

  /** What one command contributes to the screen pass's draw order. */
  function SequencedPart(command: Command): seq<Command>
  {
    if IsSequenced(command) then [command] else []
  }

  /** The lights, effects and compositing steps of `commands`, in order. */
  function Sequenced(commands: seq<Command>): seq<Command>
  {
    if commands == [] then [] else SequencedPart(commands[0]) + Sequenced(commands[1..])
  }

  lemma {:induction false} SequencedOfConcat(a: seq<Command>, b: seq<Command>)
    ensures Sequenced(a + b) == Sequenced(a) + Sequenced(b)
  {
    if a == [] {
      assert a + b == b;
    } else {
      var ab := a + b;
      assert ab != [] && ab[0] == a[0];
      assert ab[1..] == a[1..] + b;
      SequencedOfConcat(a[1..], b);
      calc {
        Sequenced(ab);
        SequencedPart(a[0]) + Sequenced(a[1..] + b);
        SequencedPart(a[0]) + (Sequenced(a[1..]) + Sequenced(b));
        (SequencedPart(a[0]) + Sequenced(a[1..])) + Sequenced(b);
        Sequenced(a) + Sequenced(b);
      }
    }
  }

  lemma SequencedOfAll(commands: seq<Command>)
    requires forall c :: c in commands ==> IsSequenced(c)
    ensures Sequenced(commands) == commands
  {
    if commands != [] {
      assert commands[0] in commands;
      SequencedOfAll(commands[1..]);
    }
  }

  lemma SequencedOfNone(commands: seq<Command>)
    requires forall c :: c in commands ==> !IsSequenced(c)
    ensures Sequenced(commands) == []
  {
    if commands != [] {
      assert commands[0] in commands;
      SequencedOfNone(commands[1..]);
    }
  }

  /** The lights in `commands` appear in the order ambient, directional, point, water. */
  predicate RanksRise(commands: seq<Command>)
  {
    forall i, j :: 0 <= i < j < |commands| ==> LightRank(commands[i]) < LightRank(commands[j])
  }

  lemma RanksRiseOfConcat(a: seq<Command>, b: seq<Command>)
    requires RanksRise(a) && RanksRise(b)
    requires forall x, y :: x in a && y in b ==> LightRank(x) < LightRank(y)
    ensures RanksRise(a + b)
  {
    var ab := a + b;
    forall i, j | 0 <= i < j < |ab|
      ensures LightRank(ab[i]) < LightRank(ab[j])
    {
      if j < |a| {
        assert ab[i] == a[i] && ab[j] == a[j];
      } else if i >= |a| {
        assert ab[i] == b[i - |a|] && ab[j] == b[j - |a|];
      } else {
        assert ab[i] == a[i] && ab[j] == b[j - |a|];
        assert ab[i] in a && ab[j] in b;
      }
    }
  }

  /**
   * Only lights are drawn by the light part of the screen pass, and those that
   * run do so in the order ambient, directional, point, water.
   */
  lemma LightOrder(debug: bool, settings: RenderSettings)
    ensures forall c :: c in LightCommands(debug, settings) ==> IsLight(c)
    ensures RanksRise(LightCommands(debug, settings))
  {
    var ambient := Gated(debug, settings.showAmbientLight, Draw(ScreenAmbientLightDrawer));
    var directional := Gated(debug, settings.showDirectionalLight, Draw(ScreenDirectionalLightDrawer));
    var point := Gated(debug, settings.showPointLights, Draw(ScreenPointLightDrawer));
    var water := [Draw(ScreenWaterLightDrawer)];
    assert LightCommands(debug, settings) == ambient + directional + point + water;
    RisingPieces(ambient, directional, point, water);
  }

  /** Four pieces of at most one light each, of the ranks 0 to 3, rise in rank. */
  lemma RisingPieces(a: seq<Command>, d: seq<Command>, p: seq<Command>, w: seq<Command>)
    requires forall c :: c in a ==> LightRank(c) == 0
    requires forall c :: c in d ==> LightRank(c) == 1
    requires forall c :: c in p ==> LightRank(c) == 2
    requires forall c :: c in w ==> LightRank(c) == 3
    requires |a| <= 1 && |d| <= 1 && |p| <= 1 && |w| <= 1
    ensures RanksRise(a + d + p + w)
    ensures forall c :: c in a + d + p + w ==> IsLight(c)
  {
    RanksRiseOfConcat(a, d);
    assert forall c :: c in a + d ==> LightRank(c) <= 1;
    RanksRiseOfConcat(a + d, p);
    assert forall c :: c in a + d + p ==> LightRank(c) <= 2;
    RanksRiseOfConcat(a + d + p, w);
  }

  /** The light part of the screen pass keeps all its draws in the order. */
  lemma LightsAreSequenced(debug: bool, settings: RenderSettings)
    ensures Sequenced(LightCommands(debug, settings)) == LightCommands(debug, settings)
  {
    LightOrder(debug, settings);
    SequencedOfAll(LightCommands(debug, settings));
  }

  /** Four pieces keep, in order, what each of them keeps. */
  lemma SequencedOfFour(a: seq<Command>, b: seq<Command>, c: seq<Command>, d: seq<Command>)
    ensures Sequenced(a + b + c + d) == Sequenced(a) + Sequenced(b) + Sequenced(c) + Sequenced(d)
  {
    SequencedOfConcat(a, b);
    SequencedOfConcat(a + b, c);
    SequencedOfConcat(a + b + c, d);
  }

  lemma SequencedOfThree(a: seq<Command>, b: seq<Command>, c: seq<Command>)
    ensures Sequenced(a + b + c) == Sequenced(a) + Sequenced(b) + Sequenced(c)
  {
    SequencedOfConcat(a, b);
    SequencedOfConcat(a + b, c);
  }

  /** The lower part of the screen pass: Bottom, the effects, then Middle, in every build. */
  lemma LowerLayerSequence(debug: bool)
    ensures Sequenced(LowerLayerCommands(debug)) ==
              [DrawRectangles(Bottom), Draw(ScreenEffectDrawer), DrawRectangles(Middle)]
  {
    var shapes: seq<Command> := if debug then [Draw(ScreenAabbDrawer), Draw(ScreenCircleDrawer)] else [];
    var bottom := [DrawRectangles(Bottom), Draw(ScreenEffectDrawer)];
    var buffers: seq<Command> := if debug then [Draw(ScreenBufferDrawer)] else [];
    var middle := [DrawRectangles(Middle)];
    SequencedOfNone(shapes);
    SequencedOfNone(buffers);
    SequencedOfAll(bottom);
    SequencedOfAll(middle);
    assert LowerLayerCommands(debug) == shapes + bottom + buffers + middle;
    KeptBetween(shapes, bottom, buffers, middle);
  }

  /** Two pieces that keep nothing, around and between two that keep everything. */
  lemma KeptBetween(a: seq<Command>, b: seq<Command>, c: seq<Command>, d: seq<Command>)
    requires Sequenced(a) == [] && Sequenced(b) == b && Sequenced(c) == [] && Sequenced(d) == d
    ensures Sequenced(a + b + c + d) == b + d
  {
    calc {
      Sequenced(a + b + c + d);
      { SequencedOfFour(a, b, c, d); }
      Sequenced(a) + Sequenced(b) + Sequenced(c) + Sequenced(d);
      [] + b + [] + d;
      b + d;
    }
  }

  /** The upper part of the screen pass: the overlay when the interface is shown, then Top. */
  lemma UpperLayerSequence(debug: bool, showInterface: bool)
    ensures Sequenced(UpperLayerCommands(debug, showInterface)) ==
              (if showInterface then [Draw(ScreenOverlayDrawer)] else []) + [DrawRectangles(Top)]
  {
    var boxes: seq<Command> := if debug then [Draw(ScreenAabbDrawer)] else [];
    var overlay: seq<Command> := if showInterface then [Draw(ScreenOverlayDrawer)] else [];
    var top := [DrawRectangles(Top)];
    SequencedOfNone(boxes);
    SequencedOfAll(overlay);
    SequencedOfAll(top);
    assert UpperLayerCommands(debug, showInterface) == boxes + overlay + top;
    KeptAfter(boxes, overlay, top);
  }

  /** A piece that keeps nothing, before two that keep everything. */
  lemma KeptAfter(a: seq<Command>, b: seq<Command>, c: seq<Command>)
    requires Sequenced(a) == [] && Sequenced(b) == b && Sequenced(c) == c
    ensures Sequenced(a + b + c) == b + c
  {
    SequencedOfThree(a, b, c);
  }

  /**
   * The screen pass draws every light that runs before anything else it
   * orders, then Bottom, the effects and Middle, then the overlay when the
   * interface is shown, and Top last.
   */
  lemma ScreenDrawOrder(debug: bool, instruction: RenderInstruction)
    ensures Sequenced(ScreenPassCommands(debug, instruction)) ==
              LightCommands(debug, instruction.settings)
              + [DrawRectangles(Bottom), Draw(ScreenEffectDrawer), DrawRectangles(Middle)]
              + (if instruction.showInterface then [Draw(ScreenOverlayDrawer)] else [])
              + [DrawRectangles(Top)]
  {
    var begin := [BeginPass(ScreenPassContext)];
    SequencedOfNone(begin);
    LightsAreSequenced(debug, instruction.settings);
    LowerLayerSequence(debug);
    UpperLayerSequence(debug, instruction.showInterface);
    DrawOrderOfParts(begin, LightCommands(debug, instruction.settings), LowerLayerCommands(debug),
                     UpperLayerCommands(debug, instruction.showInterface), instruction.showInterface);
  }

  /** The screen pass's order, assembled from the order of its four parts. */
  lemma DrawOrderOfParts(begin: seq<Command>, lights: seq<Command>, lower: seq<Command>, upper: seq<Command>,
                         showInterface: bool)
    requires Sequenced(begin) == [] && Sequenced(lights) == lights
    requires Sequenced(lower) == [DrawRectangles(Bottom), Draw(ScreenEffectDrawer), DrawRectangles(Middle)]
    requires Sequenced(upper) == (if showInterface then [Draw(ScreenOverlayDrawer)] else []) + [DrawRectangles(Top)]
    ensures Sequenced(begin + lights + lower + upper) ==
              lights + [DrawRectangles(Bottom), Draw(ScreenEffectDrawer), DrawRectangles(Middle)]
              + (if showInterface then [Draw(ScreenOverlayDrawer)] else []) + [DrawRectangles(Top)]
  {
    calc {
      Sequenced(begin + lights + lower + upper);
      { SequencedOfFour(begin, lights, lower, upper); }
      Sequenced(begin) + Sequenced(lights) + Sequenced(lower) + Sequenced(upper);
      [] + lights + Sequenced(lower) + Sequenced(upper);
      lights + Sequenced(lower) + Sequenced(upper);
    }
  }

  // --------------------------------------------------------- the engine

  /** `GraphicsEngine`. */
  class GraphicsEngine {
    /** `cfg!(target_os = "android")`. */
    const targetAndroid: bool
    /** Whether the `debug` feature is compiled in. */
    const debugBuild: bool
    /** `NUMBER_OF_POINT_LIGHTS_WITH_SHADOWS`. */
    const maxPointShadowCasters: nat

    var surface: Option<SurfaceState>
    var previousSurfaceTextureFormat: Option<TextureFormat>
    var engineContext: EngineContext?
    var limitFramerate: bool
    /** The monitor frequency the frame pacer paces to. */
    var monitorFrequency: nat
    var trace: seq<EngineEvent>

    /**
     * A context exists exactly when a surface format has been recorded, and
     * it was built for that format; a surface, when present, has that format.
     */
    ghost predicate Valid()
      reads this, engineContext
    {
      (engineContext != null <==> previousSurfaceTextureFormat.Some?)
      && (engineContext != null ==> previousSurfaceTextureFormat == Some(engineContext.format))
      && (surface.Some? ==> previousSurfaceTextureFormat == Some(surface.value.format))
    }

    /** Everything but the trace is as it was. */
    twostate predicate KeepsSetup()
      reads this
    {
      surface == old(surface) && engineContext == old(engineContext)
      && previousSurfaceTextureFormat == old(previousSurfaceTextureFormat)
      && limitFramerate == old(limitFramerate) && monitorFrequency == old(monitorFrequency)
    }

    /** `GraphicsEngine::initialize`: no surface and no context yet, pacing at 60 Hz unlimited. */
    constructor Initialize(targetAndroid: bool, debugBuild: bool, maxPointShadowCasters: nat)
      ensures Valid()
      ensures this.targetAndroid == targetAndroid && this.debugBuild == debugBuild
      ensures this.maxPointShadowCasters == maxPointShadowCasters
      ensures surface.None? && previousSurfaceTextureFormat.None? && engineContext == null
      ensures !limitFramerate && monitorFrequency == INITIAL_MONITOR_FREQUENCY && trace == []
    {
      this.targetAndroid := targetAndroid;
      this.debugBuild := debugBuild;
      this.maxPointShadowCasters := maxPointShadowCasters;
      surface := None;
      previousSurfaceTextureFormat := None;
      engineContext := null;
      limitFramerate := false;
      monitorFrequency := INITIAL_MONITOR_FREQUENCY;
      trace := [];
    }

    /** `set_limit_framerate`: a limit also retunes the pacer; unlimited keeps its frequency. */
    method SetLimitFramerate(limit: LimitFramerate)
      modifies this
      ensures limitFramerate == limit.Limit?
      ensures monitorFrequency == if limit.Limit? then limit.rate else old(monitorFrequency)
      ensures surface == old(surface) && engineContext == old(engineContext)
      ensures previousSurfaceTextureFormat == old(previousSurfaceTextureFormat) && trace == old(trace)
    {
      match limit
      case Unlimited =>
        limitFramerate := false;
      case Limit(rate) =>
        limitFramerate := true;
        monitorFrequency := rate;
    }

    /**
     * `on_resume`. The frame-rate setting always applies. Without a surface,
     * one is created for the negotiated format, and the engine context is
     * rebuilt exactly when that format differs from the recorded one; with a
     * surface, nothing else changes.
     */
    method OnResume(windowSize: ScreenSize, tripleBuffering: bool, vsync: bool, limit: LimitFramerate,
                    shadowDetail: ShadowDetail, textureSamplerType: TextureSamplerType,
                    negotiatedFormat: TextureFormat)
      requires Valid()
      modifies this
      ensures Valid()
      ensures limitFramerate == limit.Limit?
      ensures monitorFrequency == if limit.Limit? then limit.rate else old(monitorFrequency)
      ensures trace == old(trace)
      ensures old(surface).Some? ==>
                surface == old(surface) && engineContext == old(engineContext)
                && previousSurfaceTextureFormat == old(previousSurfaceTextureFormat)
      ensures old(surface).None? ==>
                surface == Some(SurfaceState(negotiatedFormat, ClampedScreenSize(windowSize), tripleBuffering, vsync, false))
                && previousSurfaceTextureFormat == Some(negotiatedFormat)
      ensures old(surface).None? && old(previousSurfaceTextureFormat) == Some(negotiatedFormat) ==>
                engineContext == old(engineContext)
      ensures old(surface).None? && old(previousSurfaceTextureFormat) != Some(negotiatedFormat) ==>
                fresh(engineContext) && engineContext.format == negotiatedFormat
                && engineContext.screenSize == ClampedScreenSize(windowSize)
                && engineContext.shadowDetail == shadowDetail
                && engineContext.textureSamplerType == textureSamplerType
    {
      SetLimitFramerate(limit);
      if surface.None? {
        var screenSize := ClampedScreenSize(windowSize);
        var newSurface := SurfaceState(negotiatedFormat, screenSize, tripleBuffering, vsync, false);
        if previousSurfaceTextureFormat != Some(negotiatedFormat) {
          previousSurfaceTextureFormat := Some(negotiatedFormat);
          engineContext := null;
          engineContext := new EngineContext(negotiatedFormat, screenSize, shadowDetail, textureSamplerType);
        }
        surface := Some(newSurface);
      }
    }

    /** `on_suspended`: only Android drops the surface; the context is always kept. */
    method OnSuspended()
      requires Valid()
      modifies this
      ensures Valid()
      ensures surface == if targetAndroid then None else old(surface)
      ensures engineContext == old(engineContext)
      ensures previousSurfaceTextureFormat == old(previousSurfaceTextureFormat)
      ensures limitFramerate == old(limitFramerate) && monitorFrequency == old(monitorFrequency)
      ensures trace == old(trace)
    {
      if targetAndroid {
        surface := None;
      }
    }

    /** `on_resize`: the surface takes the new size and must be reconfigured. */
    method OnResize(screenSize: ScreenSize)
      requires Valid()
      modifies this
      ensures Valid()
      ensures surface == if old(surface).Some? then Some(old(surface).value.(windowSize := screenSize, invalid := true)) else None
      ensures engineContext == old(engineContext)
      ensures previousSurfaceTextureFormat == old(previousSurfaceTextureFormat)
      ensures limitFramerate == old(limitFramerate) && monitorFrequency == old(monitorFrequency)
      ensures trace == old(trace)
    {
      if surface.Some? {
        surface := Some(surface.value.(windowSize := screenSize, invalid := true));
      }
    }

    /** `set_vsync`: the surface takes the setting and must be reconfigured. */
    method SetVsync(enabled: bool)
      requires Valid()
      modifies this
      ensures Valid()
      ensures surface == if old(surface).Some? then Some(old(surface).value.(vsync := enabled, invalid := true)) else None
      ensures engineContext == old(engineContext)
      ensures previousSurfaceTextureFormat == old(previousSurfaceTextureFormat)
      ensures limitFramerate == old(limitFramerate) && monitorFrequency == old(monitorFrequency)
      ensures trace == old(trace)
    {
      if surface.Some? {
        surface := Some(surface.value.(vsync := enabled, invalid := true));
      }
    }

    /** `set_triple_buffering`: the surface takes the setting and must be reconfigured. */
    method SetTripleBuffering(enabled: bool)
      requires Valid()
      modifies this
      ensures Valid()
      ensures surface == if old(surface).Some? then Some(old(surface).value.(tripleBuffering := enabled, invalid := true)) else None
      ensures engineContext == old(engineContext)
      ensures previousSurfaceTextureFormat == old(previousSurfaceTextureFormat)
      ensures limitFramerate == old(limitFramerate) && monitorFrequency == old(monitorFrequency)
      ensures trace == old(trace)
    {
      if surface.Some? {
        surface := Some(surface.value.(tripleBuffering := enabled, invalid := true));
      }
    }

    /** `set_texture_sampler_type`: updates the sampler of the existing context in place. */
    method SetTextureSamplerType(textureSamplerType: TextureSamplerType)
      requires Valid()
      modifies engineContext
      ensures Valid()
      ensures engineContext != null ==>
                engineContext.textureSamplerType == textureSamplerType
                && engineContext.screenSize == old(engineContext.screenSize)
                && engineContext.shadowDetail == old(engineContext.shadowDetail)
    {
      if engineContext != null {
        engineContext.textureSamplerType := textureSamplerType;
      }
    }

    /** `set_shadow_detail`: resizes the shadow maps of the existing context in place. */
    method SetShadowDetail(shadowDetail: ShadowDetail)
      requires Valid()
      modifies engineContext
      ensures Valid()
      ensures engineContext != null ==>
                engineContext.shadowDetail == shadowDetail
                && engineContext.screenSize == old(engineContext.screenSize)
                && engineContext.textureSamplerType == old(engineContext.textureSamplerType)
    {
      if engineContext != null {
        engineContext.shadowDetail := shadowDetail;
      }
    }

    /** The reconfiguration step of `wait_for_next_frame`. */
    method ReconfigureSurface()
      requires Valid()
      modifies this, engineContext
      ensures Valid()
      ensures trace == old(trace) + ReconfigureEvents(old(surface))
      ensures surface == if old(surface).Some? then Some(old(surface).value.(invalid := false)) else None
      ensures engineContext == old(engineContext)
      ensures previousSurfaceTextureFormat == old(previousSurfaceTextureFormat)
      ensures limitFramerate == old(limitFramerate) && monitorFrequency == old(monitorFrequency)
      ensures engineContext != null ==>
                engineContext.shadowDetail == old(engineContext.shadowDetail)
                && engineContext.textureSamplerType == old(engineContext.textureSamplerType)
                && engineContext.screenSize ==
                   if old(surface).Some? && old(surface).value.invalid then old(surface).value.windowSize
                   else old(engineContext.screenSize)
    {
      if surface.Some? && surface.value.invalid {
        var size := surface.value.windowSize;
        surface := Some(surface.value.(invalid := false));
        engineContext.screenSize := size;
        trace := trace + [Reconfigure, ResizeScreenTextures(size)];
      }
    }

    /**
     * `wait_for_next_frame`. `acquired` is false where the source panics
     * with "surface not set".
     */
    method WaitForNextFrame() returns (acquired: bool)
      requires Valid()
      modifies this, engineContext
      ensures Valid()
      ensures acquired <==> old(surface).Some?
      ensures trace == old(trace) + WaitEvents(old(surface), limitFramerate)
      ensures surface == if old(surface).Some? then Some(old(surface).value.(invalid := false)) else None
      ensures engineContext == old(engineContext)
      ensures previousSurfaceTextureFormat == old(previousSurfaceTextureFormat)
      ensures limitFramerate == old(limitFramerate) && monitorFrequency == old(monitorFrequency)
      ensures engineContext != null ==>
                engineContext.shadowDetail == old(engineContext.shadowDetail)
                && engineContext.textureSamplerType == old(engineContext.textureSamplerType)
                && engineContext.screenSize ==
                   if old(surface).Some? && old(surface).value.invalid then old(surface).value.windowSize
                   else old(engineContext.screenSize)
    {
      ReconfigureSurface();
      var pacing := if limitFramerate then [PacerWait] else [];
      var acquire := if surface.Some? then [Acquire] else [];
      trace := trace + pacing + [BeginCpuStage] + acquire;
      acquired := surface.Some?;
    }

    /**
     * The point-shadow caster pass of `draw_frame`: for every caster, for
     * every one of the six faces, open a pass and draw into it.
     */
    method RecordPointShadowPass(casters: nat) returns (commands: seq<Command>)
      ensures commands == PointShadowCommands(casters)
    {
      commands := [];
      var caster := 0;
      while caster < casters
        invariant caster <= casters
        invariant commands == PointShadowCommands(caster)
      {
        var face := 0;
        while face < 6
          invariant face <= 6
          invariant commands == PointShadowCommands(caster) + FaceCommands(caster, face)
        {
          commands := commands + PointShadowFace(caster, face);
          face := face + 1;
        }
        caster := caster + 1;
      }
    }

    /** `draw_frame`: one encoder per pass. */
    method DrawFrame(instruction: RenderInstruction) returns (drawn: DrawnBuffers)
      requires engineContext != null
      ensures drawn == DrawnFrame(instruction, debugBuild, engineContext.screenSize)
    {
      var size := engineContext.screenSize;
      var pointShadow := RecordPointShadowPass(instruction.pointLightShadowCasters);
      drawn := (CommandBuffer(PickerEncoder, PickerPassCommands(debugBuild, size, instruction)),
                CommandBuffer(InterfaceEncoder, InterfacePassCommands(instruction)),
                CommandBuffer(DirectionalShadowEncoder, DirectionalShadowPassCommands()),
                CommandBuffer(PointShadowEncoder, pointShadow),
                CommandBuffer(GeometryEncoder, GeometryPassCommands(instruction)),
                CommandBuffer(ScreenEncoder, ScreenPassCommands(debugBuild, instruction)));
    }

    /** `prepare_frame_data`: run the prepare groups, then upload everything in a fixed order. */
    method PrepareFrameData() returns (buffer: CommandBuffer)
      requires engineContext != null
      modifies this
      ensures buffer == PrepareBuffer(debugBuild)
      ensures trace == old(trace) + [PrepareStage(PrepareGroups(debugBuild))]
      ensures KeepsSetup()
    {
      trace := trace + [PrepareStage(PrepareGroups(debugBuild))];
      buffer := PrepareBuffer(debugBuild);
    }

    /** `queue_picker_value`: read the picker value back when there is a context. */
    method QueuePickerValue()
      modifies this
      ensures trace == old(trace) + if engineContext != null then [QueuePickerRead] else []
      ensures KeepsSetup()
    {
      if engineContext != null {
        trace := trace + [QueuePickerRead];
      }
    }

    /** `wait_and_submit_frame`: wait for the device, then submit the seven buffers in argument order. */
    method WaitAndSubmitFrame(prepareBuffer: CommandBuffer, interfaceBuffer: CommandBuffer,
                              pickerBuffer: CommandBuffer, directionalShadowBuffer: CommandBuffer,
                              pointShadowBuffer: CommandBuffer, geometryBuffer: CommandBuffer,
                              screenBuffer: CommandBuffer)
      modifies this
      ensures trace == old(trace) + [PollWait, Submit([prepareBuffer, interfaceBuffer, pickerBuffer,
                directionalShadowBuffer, pointShadowBuffer, geometryBuffer, screenBuffer])]
      ensures KeepsSetup()
    {
      trace := trace + [PollWait, Submit([prepareBuffer, interfaceBuffer, pickerBuffer,
                                          directionalShadowBuffer, pointShadowBuffer, geometryBuffer, screenBuffer])];
    }

    /**
     * The end of `render_next_frame`, once the buffers are recorded. The
     * buffer `draw_frame` returns first is passed on as the interface buffer
     * and the second as the picker buffer.
     */
    method FinishFrame(prepareBuffer: CommandBuffer, drawn: DrawnBuffers)
      requires engineContext != null
      modifies this
      ensures KeepsSetup()
      ensures trace == old(trace) + SubmitEvents(prepareBuffer, drawn)
    {
      var (interfaceBuffer, pickerBuffer, directionalShadowBuffer, pointShadowBuffer, geometryBuffer, screenBuffer) := drawn;
      assert [prepareBuffer, interfaceBuffer, pickerBuffer, directionalShadowBuffer, pointShadowBuffer,
              geometryBuffer, screenBuffer] == SubmittedBuffers(prepareBuffer, drawn);
      trace := trace + [StagingFinish];
      QueuePickerValue();
      WaitAndSubmitFrame(prepareBuffer, interfaceBuffer, pickerBuffer, directionalShadowBuffer,
                         pointShadowBuffer, geometryBuffer, screenBuffer);
      trace := trace + [Present, EndCpuStage];
    }

    /**
     * `render_next_frame`. Too many point-light shadow casters fail the
     * assertion before anything is requested; a missing context fails the
     * `unwrap` in `prepare_frame_data` right after the staging belt is
     * recalled. Otherwise the whole frame is requested in order.
     */
    method RenderNextFrame(instruction: RenderInstruction) returns (outcome: FrameOutcome)
      requires Valid()
      modifies this
      ensures Valid()
      ensures outcome == Aborted <==>
                instruction.pointLightShadowCasters > maxPointShadowCasters || engineContext == null
      ensures instruction.pointLightShadowCasters > maxPointShadowCasters ==> trace == old(trace)
      ensures instruction.pointLightShadowCasters <= maxPointShadowCasters && engineContext == null ==>
                trace == old(trace) + [Recall]
      ensures outcome == Presented ==>
                trace == old(trace) + [Recall, PrepareStage(PrepareGroups(debugBuild))]
                         + SubmitEvents(PrepareBuffer(debugBuild), DrawnFrame(instruction, debugBuild, engineContext.screenSize))
      ensures KeepsSetup()
    {
      if instruction.pointLightShadowCasters > maxPointShadowCasters {
        return Aborted;
      }
      trace := trace + [Recall];
      if engineContext == null {
        return Aborted;
      }
      var prepareBuffer := PrepareFrameData();
      assert trace == old(trace) + [Recall, PrepareStage(PrepareGroups(debugBuild))];
      var drawn := DrawFrame(instruction);
      FinishFrame(prepareBuffer, drawn);
      outcome := Presented;
    }
  }

  /**
   * Suspending and resuming with the same surface format keeps the engine
   * context: on Android the surface is dropped and re-created, but the
   * context built for that format is reused.
   */
  method SuspendAndResumeKeepsContext(engine: GraphicsEngine, windowSize: ScreenSize, tripleBuffering: bool,
                                      vsync: bool, limit: LimitFramerate, shadowDetail: ShadowDetail,
                                      textureSamplerType: TextureSamplerType)
    requires engine.Valid() && engine.surface.Some?
    modifies engine
    ensures engine.Valid() && engine.surface.Some?
    ensures engine.engineContext == old(engine.engineContext) && engine.engineContext != null
  {
    var format := engine.surface.value.format;
    engine.OnSuspended();
    engine.OnResume(windowSize, tripleBuffering, vsync, limit, shadowDetail, textureSamplerType, format);
  }

  /**
   * Two resumes with the same format build the context once: the second
   * finds the format recorded and keeps the context the first one left.
   */
  method ResumeTwiceBuildsOnce(engine: GraphicsEngine, windowSize: ScreenSize, tripleBuffering: bool, vsync: bool,
                               limit: LimitFramerate, shadowDetail: ShadowDetail,
                               textureSamplerType: TextureSamplerType, format: TextureFormat)
    returns (firstContext: EngineContext?)
    requires engine.Valid() && engine.surface.None?
    modifies engine
    ensures engine.Valid() && firstContext != null && firstContext.format == format
    ensures engine.engineContext == firstContext
  {
    engine.OnResume(windowSize, tripleBuffering, vsync, limit, shadowDetail, textureSamplerType, format);
    firstContext := engine.engineContext;
    engine.OnSuspended();
    engine.OnResume(windowSize, tripleBuffering, vsync, limit, shadowDetail, textureSamplerType, format);
  }
}
