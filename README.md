# Korangar client core, modelled in Dafny

This project models three parts of the Korangar Ragnarok Online client and
proves properties about them.

- **World entities** (`entity.dfy`, module `WorldEntity`): the state every
  entity on the map carries (`Common`), the player's own character (`Player`),
  and the `Entity` wrapper. It covers:
  - job-id classification;
  - the per-entity sound cooldown on the wrapping client clock;
  - the sprite part files and the per-sex hair lookup tables;
  - building a walk from a path, and advancing it tick by tick;
  - teleporting;
  - the details state (Unavailable, Requested, Available);
  - the player's stat updates.

  `Common`, `Player` and `SoundState` are classes whose methods update their
  fields. `Common` and `Player` methods are specified by a function on a
  snapshot of those fields (`Fields()`); `SoundState.Update` states its two
  fields directly.
- **Graphics engine** (`engine.dfy`, module `Graphics`): the lifecycle of the
  surface, the engine context and the frame-rate limit, plus the protocol of
  one frame.
  - `GraphicsEngine` is a class over those fields.
  - Every request it makes of the surface, the frame pacer, the staging belt
    and the GPU queue is appended to a `trace` of events.
  - The commands recorded into each command encoder are sequences of
    `Command`; GPU objects are opaque.
- **Log-in window** (`login.dfy`, module `LoginWindow`): the closures
  `LoginWindow::to_window` builds over the shared username and password
  cells. Each is a function of the cells' current contents.

`integers.dfy` (module `MachineIntegers`) holds Rust's `u32`, `i32` and `u8`
as ranges of `int`, with `wrapping_sub`. `wrappers.dfy` holds `Option`.

Three things in the engine are modelled as the code does them:
- **Submit order.** `render_next_frame` destructures the tuple `draw_frame`
  returns with the first two names swapped (`engine.rs:521-528` against
  `:904-910`), then passes the buffers on positionally. So the buffer
  recorded on the picker encoder is submitted second and the interface
  buffer third. The model follows the positions, not the names
  (`Graphics.SubmitOrder`).
- **Debug bounding boxes.** In a debug build, the screen pass draws the
  bounding boxes twice (`engine.rs:860` and `:889`).
- **Reconfigure branch.** In `wait_for_next_frame`, the branch that updates
  the screen-size textures is always taken when the surface is invalid. A
  surface only exists once an engine context exists (`GraphicsEngine.Valid`).

The log-in `selector` closure is passed to `with_disabled_selector`
(`login.rs:94`). How the button reads it belongs to `Button`, which is not
part of this model. The model states what the closure computes: both fields
are non-empty.

## Model

| member | source | states |
|---|---|---|
| MachineIntegers.WrappingSubMeasuresElapsed | korangar/src/world/entity/mod.rs:135-139 | `wrapping_sub` measures elapsed time across the wrap of the u32 clock: the wrapping difference between a tick and one `elapsed` ms later is `elapsed`, for any `elapsed < 2^32` |
| LoginWindow.WindowClass | src/interface/windows/account/login.rs:22-24 | the prototype window registers under the class `WINDOW_CLASS`, "login" |
| LoginWindow.Selector | src/interface/windows/account/login.rs:30-34 | the closure given to the log-in button holds iff Enter in the username field would move on (the username is non-empty) and the password is non-empty |
| LoginWindow.ButtonAction | src/interface/windows/account/login.rs:36-45 | pressing the log-in button always yields the `LogIn` event carrying the current username and password |
| LoginWindow.ToWindow | src/interface/windows/account/login.rs:18-28 | the username and password cells start with the saved settings' values; the window class is "login", the same value `window_class` reports |
| LoginWindow.UsernameAction | src/interface/windows/account/login.rs:47-56 | Enter in the username field yields something iff the username is non-empty, and then it is `FocusNext` |
| LoginWindow.PasswordAction | src/interface/windows/account/login.rs:58-70 | Enter in the password field logs in iff `selector` holds (both fields non-empty), and then yields exactly what the log-in button's `action` yields; an empty username gives `FocusPrevious` whatever the password; otherwise an empty password gives nothing |
| LoginWindow.EnterHandlersAgree | src/interface/windows/account/login.rs:47-70 | Enter in the username field moves the focus on exactly when Enter in the password field would not send it back |
| WorldEntity.EntityTypeFromJob | korangar/src/world/entity/mod.rs:108-119 | each entity type holds exactly for its job ids, as an iff per type: 45 Warp; 111 Hidden, even though it lies in the Npc range; 0..=44 and 4000..=5999 Player; 1000..=3999 and 20000..=29999 Monster; everything else Npc |
| WorldEntity.SoundCooldown | korangar/src/world/entity/mod.rs:135-141 | once a key has played, the same key plays again iff at least 200 ms have elapsed on the wrapping clock, also across the wrap; a different key plays at once |
| WorldEntity.SoundState.constructor | korangar/src/world/entity/mod.rs:121-125 | the default sound state has no previous key and no last tick |
| WorldEntity.SoundState.Update | korangar/src/world/entity/mod.rs:128-147 | plays iff the key is new, nothing was played yet, or the cooldown has passed; a played sound stores the key and the tick; otherwise the state is unchanged |
| WorldEntity.ResourceState.AsOption | korangar/src/world/entity/mod.rs:56-61 | returns a value iff the resource is Available, and then it is the held value |
| WorldEntity.HeadId | korangar/src/world/entity/mod.rs:527-533 | a hair id inside the sex's table maps through it; a larger id is used as it is; no hair id gives head 1 |
| WorldEntity.HairLookupIsOneToOne | korangar/src/world/entity/mod.rs:42-43 | for each sex, hair ids 1 to 12 select the head sprites 1 to 12 one-to-one, and hair 0 selects the same sprite as hair 1 |
| WorldEntity.HeadIdIsPositive | korangar/src/world/entity/mod.rs:527-533 | no hair id, not even 0 or an absent one, selects head sprite 0 |
| WorldEntity.PlayerJobSprite | korangar/src/world/entity/mod.rs:181-506 | a job id missing from the job table gets the novice sprite 초보자 |
| WorldEntity.EntityPartFiles | korangar/src/world/entity/mod.rs:508-543 | a player gets exactly two files, the body path for its job sprite and the head path for its head id; every other type gets exactly one: the monster directory for monsters, the npc directory for npcs, warps and hidden entities |
| WorldEntity.FadeOutDuration | korangar/src/world/entity/mod.rs:1386-1390 | a death fades out over 2000 ms; every other reason over 500 ms |
| WorldEntity.CurrentStepIndexFrom | korangar/src/world/entity/mod.rs:646-649 | the search ends at an index `i` with `i + 1` in bounds and `steps[i+1]` not arrived before `tick`; every step it passed had arrived before `tick` |
| WorldEntity.FindCurrentStep | korangar/src/world/entity/mod.rs:646-649 | the `while` loop reads only in-bounds indices, given a movement of at least two steps whose last arrival is not before `tick`; it stops at the first step whose successor has not yet arrived |
| WorldEntity.Progress | korangar/src/world/entity/mod.rs:672-674 | neither u32 subtraction underflows, and `0 <= offset <= total`; the offset is 0 iff the entity has not yet left the step, and equals the total iff it has arrived or the step takes no time |
| WorldEntity.WalkSteps | korangar/src/world/entity/mod.rs:709-742 | one step per path tile: the first is the start tile at the starting time, and each later one arrives at its tile one speed (orthogonal or diagonal) after the step before |
| WorldEntity.SaturatingWalkIsNonDecreasing | korangar/src/world/entity/mod.rs:728 | with the addition saturating, the arrival times of every walk never decrease |
| WorldEntity.WrappingWalkCanGoBack | korangar/src/world/entity/mod.rs:728 | with the addition wrapping as written, a walk that starts at tick u32::MAX arrives at tick 149, before it left |
| WorldEntity.BuildSteps | korangar/src/world/entity/mod.rs:709-745 | the step-building closure, which threads the last timestamp and position, yields exactly `WalkSteps` (saturating), and its timestamps are non-decreasing |
| WorldEntity.Teleported | korangar/src/world/entity/mod.rs:685-696 | a tile the map has no world position for changes nothing; otherwise the entity takes the tile and its world position, drops its movement and idles, and nothing else changes |
| WorldEntity.Advanced | korangar/src/world/entity/mod.rs:636-683 | the update panics (`None`) iff a walk is active, its last arrival is not before `tick`, and `Direction::try_from` rejects its current step's delta, the `unwrap` at line 661; otherwise it keeps the installed-movement invariant; `stopped_moving` is set iff a walk was active and its last arrival is before `tick`; the movement is dropped exactly then and otherwise kept, including when a map lookup fails; a walk in progress takes the tile of the first step not yet reached and the direction `try_from` gives its step's delta; an ended walk is `set_position` on its last step's tile (lines 641-644), so the entity stands there idle at that tile's world position when the map knows it and otherwise keeps its tile and animation; the update touches nothing but the movement, `stopped_moving`, the tile, the world position, the direction and the animation |
| WorldEntity.HeadedAlong | korangar/src/world/entity/mod.rs:654-681 | the walking branch sets the next step's tile and the direction, and nothing else except the world position; the world position is unchanged when the map misses either step's tile |
| WorldEntity.Walked | korangar/src/world/entity/mod.rs:706-755 | keeps the installed-movement invariant; no path, or a path of at most one tile, changes nothing; otherwise the installed steps are exactly `WalkSteps` (saturating) of the path, starting at the start tile and time, and the animation walks, kept as it was if it already walked; nothing but the movement and the animation changes |
| WorldEntity.Common.constructor | korangar/src/world/entity/mod.rs:547-584 | a new entity stands still, with its type derived from its job, details Unavailable, the animation initial, `stopped_moving` false, fading in over 500 ms, and a fresh sound state |
| WorldEntity.Common.GetEntityPartFiles | korangar/src/world/entity/mod.rs:586-588 | two part files for a player type, one otherwise |
| WorldEntity.Common.SetPosition | korangar/src/world/entity/mod.rs:685-696 | the new fields are `Teleported` of the old ones |
| WorldEntity.Common.UpdateMovement | korangar/src/world/entity/mod.rs:636-683 | reports a panic iff `Advanced` does; otherwise the new fields are `Advanced` of the old ones, so the ended-walk teleport, the direction and the frame hold for it too; the loop and the u32 arithmetic are carried out as in the source |
| WorldEntity.Common.HeadAlong | korangar/src/world/entity/mod.rs:654-681 | the new fields are `HeadedAlong` of the old ones |
| WorldEntity.Common.MoveFromTo | korangar/src/world/entity/mod.rs:698-755 | the new fields are `Walked` of the old ones |
| WorldEntity.CommonStatUpdated | korangar/src/world/entity/mod.rs:1153-1197 | only maximum health, health and movement speed touch `Common`, and no variant touches the walk in progress |
| WorldEntity.OwnStatUpdated | korangar/src/world/entity/mod.rs:1153-1197 | the three common stats and the unlisted variants leave the player's own fields unchanged |
| WorldEntity.Player.constructor | korangar/src/world/entity/mod.rs:1095-1143 | the player starts at tile (0, 0) and the origin, does not fade in, with activity points, bonuses, point costs and attack speed at 0, and the rest taken from the character information |
| WorldEntity.Player.GetEntityPartFiles | korangar/src/world/entity/mod.rs:1262-1265 | a player's head file uses the head id its hair id selects |
| WorldEntity.Player.UpdateStat | korangar/src/world/entity/mod.rs:1153-1197 | the player's fields become `OwnStatUpdated` of the old ones and the common fields `CommonStatUpdated` of theirs, so the walk in progress is untouched |
| WorldEntity.Player.SetCommonStat | korangar/src/world/entity/mod.rs:1155-1161 | the maximum health, health and movement speed arms write into `Common` |
| WorldEntity.Player.SetScalarStat | korangar/src/world/entity/mod.rs:1156-1196 | the counter arms write exactly the named field; unlisted variants change nothing |
| WorldEntity.Player.SetBaseBonus | korangar/src/world/entity/mod.rs:1165-1188 | an attribute arm sets the base and the bonus of that attribute and keeps its point cost |
| WorldEntity.Player.SetPointCost | korangar/src/world/entity/mod.rs:1189-1194 | a cost arm sets the point cost of that attribute only |
| WorldEntity.Npc.constructor | korangar/src/world/entity/mod.rs:1297 | the npc holds the given `Common` |
| WorldEntity.ClampUnit | korangar/src/world/entity/mod.rs:1486-1487 | the result lies in -1..=1, equals the input inside that range, and keeps its sign |
| WorldEntity.RotationDelta | korangar/src/world/entity/mod.rs:1484-1488 | both coordinates lie in -1..=1, and the delta is (0, 0) iff the target is the entity's own tile |
| WorldEntity.Entity.AreDetailsUnavailable | korangar/src/world/entity/mod.rs:1413-1418 | unavailable details give no details; otherwise they are requested or available |
| WorldEntity.Entity.GetDetails | korangar/src/world/entity/mod.rs:1449-1451 | the details are returned iff they are Available, and then they are the stored string |
| WorldEntity.Entity.SetDetailsRequested | korangar/src/world/entity/mod.rs:1441-1443 | the details become Requested: no longer unavailable, yet `get_details` still returns nothing |
| WorldEntity.Entity.SetDetails | korangar/src/world/entity/mod.rs:1445-1447 | the details become Available, and `get_details` returns them |
| WorldEntity.Entity.SetJob | korangar/src/world/entity/mod.rs:1420-1422 | only the job id changes; the entity type stays |
| WorldEntity.Entity.SetHair | korangar/src/world/entity/mod.rs:1424-1428 | a player's hair id changes; an npc is left alone |
| WorldEntity.Entity.FadeOut | korangar/src/world/entity/mod.rs:1381-1394 | only the fade state changes: it fades out from the alpha reached so far, over the duration the reason picks |
| WorldEntity.Entity.RotateTowards | korangar/src/world/entity/mod.rs:1480-1491 | the direction becomes what `Direction::try_from` makes of the clamped delta when it accepts it, and otherwise stays |
| WorldEntity.Entity.StopMovement | korangar/src/world/entity/mod.rs:1504-1506 | only the active movement is dropped |
| WorldEntity.Entity.UpdateHealth | korangar/src/world/entity/mod.rs:1508-1512 | only health and maximum health change |
| WorldEntity.Entity.GetEntityPartFiles | korangar/src/world/entity/mod.rs:1434-1439 | two part files for a player type, one otherwise; an npc with a player job passes no hair id and gets head 1 |
| Graphics.LexicographicMax | korangar/src/graphics/engine.rs:154 | as written, `PhysicalSize::max` returns one of its two arguments, the one with the larger width when the widths differ |
| Graphics.LexicographicClampKeepsZeroHeight | korangar/src/graphics/engine.rs:154 | as written, an 800 x 0 window keeps its zero height after the clamp |
| Graphics.ClampedScreenSize | korangar/src/graphics/engine.rs:154 | the intended clamp: both sides at least 1, and a positive side unchanged |
| Graphics.EngineContext.constructor | korangar/src/graphics/engine.rs:172-180 | the context is built for the surface format, the screen size, the shadow detail and the texture sampler it is given |
| Graphics.ReconfigureEvents | korangar/src/graphics/engine.rs:487-500 | reconfigures, and resizes the screen-size textures to the window size, iff there is an invalid surface; no pacing, stage or acquire happens here |
| Graphics.WaitEvents | korangar/src/graphics/engine.rs:485-508 | reconfigure and resize iff the surface is invalid; pacer wait iff the frame rate is limited; the CPU stage always begins; acquire iff there is a surface, and then it comes last |
| Graphics.FlattenedPrepareGroups | korangar/src/graphics/engine.rs:592-631 | flattened, the prepare groups list the spawned tasks' calls in spawn order, then the calling thread's own calls; the groups themselves run concurrently |
| Graphics.UploadsMatchPrepares | korangar/src/graphics/engine.rs:592-662 | a component is uploaded iff it is prepared, with as many uploads as prepare calls (15, or 19 in a debug build); the calling thread never prepares what a concurrently running task prepares |
| Graphics.PrepareBuffer | korangar/src/graphics/engine.rs:633-665 | the prepare encoder's buffer holds one upload per component, in the visitor's fixed order |
| Graphics.PickerTexel | korangar/src/graphics/engine.rs:715-718 | the copied texel never lies right of or below the picker position, lies inside any non-empty texture, and is the picker position itself when that is inside |
| Graphics.Gated | korangar/src/graphics/engine.rs:850-855 | a light drawer runs iff it is not a debug build or its render setting is on |
| Graphics.LightCommands | korangar/src/graphics/engine.rs:850-856 | the water light always draws; ambient, directional and point light draw iff not debug or their setting is on; none of them composites |
| Graphics.LowerLayerCommands | korangar/src/graphics/engine.rs:858-881 | the bounding boxes draw here iff debug; no overlay and no light draws here |
| Graphics.UpperLayerCommands | korangar/src/graphics/engine.rs:885-900 | the bounding boxes draw here iff debug, the overlay iff the interface is shown; no light draws here |
| Graphics.ScreenPassCommands | korangar/src/graphics/engine.rs:844-900 | the screen pass draws the water light always, each gated light iff not debug or its setting is on, and the overlay iff the interface is shown |
| Graphics.LowerLayerCompositing | korangar/src/graphics/engine.rs:858-881 | the lower part composites the Bottom then the Middle rectangle layer, whatever the build |
| Graphics.UpperLayerCompositing | korangar/src/graphics/engine.rs:885-900 | the upper part composites the overlay (iff the interface is shown), then the Top layer |
| Graphics.ScreenCompositingParts | korangar/src/graphics/engine.rs:844-900 | the pass begin and the lights composite nothing, so the screen pass composites the lower part, then the upper part |
| Graphics.LightOrder | korangar/src/graphics/engine.rs:850-856 | the light part draws only lights, and those that run come in the order ambient, directional, point, water |
| Graphics.LowerLayerSequence | korangar/src/graphics/engine.rs:858-881 | among lights, effects and compositing steps, the lower part draws Bottom, the effects, then Middle, in every build |
| Graphics.UpperLayerSequence | korangar/src/graphics/engine.rs:885-900 | among lights, effects and compositing steps, the upper part draws the overlay iff the interface is shown, then Top |
| Graphics.ScreenDrawOrder | korangar/src/graphics/engine.rs:844-900 | among lights, effects and compositing steps, the screen pass draws the lights that run first (in their order), then Bottom, the effects, Middle, the overlay iff the interface is shown, and Top last |
| Graphics.ScreenCompositingOrder | korangar/src/graphics/engine.rs:844-900 | the screen pass composites Bottom, Middle, then the overlay iff the interface is shown, then Top, for every instruction and build |
| Graphics.DrawnFrame | korangar/src/graphics/engine.rs:904-910 | `draw_frame` returns the picker, interface, directional-shadow, point-shadow, geometry and screen buffers, in that order |
| Graphics.SubmittedBuffers | korangar/src/graphics/engine.rs:521-549 | seven buffers are submitted, the prepare buffer first |
| Graphics.SubmitOrder | korangar/src/graphics/engine.rs:521-574 | the submitted buffers come from the prepare, picker, interface, directional-shadow, point-shadow, geometry and screen encoders, in that order: the picker buffer goes second |
| Graphics.FacePasses | korangar/src/graphics/engine.rs:785-812 | the faces of one caster open their passes face by face, 0 upwards |
| Graphics.PointShadowPassOrder | korangar/src/graphics/engine.rs:784-814 | the point-shadow encoder opens exactly `6 * casters` passes, and pass `k` is face `k % 6` of caster `k / 6` |
| Graphics.GraphicsEngine.Initialize | korangar/src/graphics/engine.rs:116-137 | no surface, no context, no recorded format, the frame rate unlimited and the pacer at 60 Hz |
| Graphics.GraphicsEngine.SetLimitFramerate | korangar/src/graphics/engine.rs:438-448 | `Unlimited` clears the flag and keeps the pacer frequency; `Limit(r)` sets the flag and the frequency to `r`; nothing else changes |
| Graphics.GraphicsEngine.OnResume | korangar/src/graphics/engine.rs:139-417 | the frame-rate setting always applies; with a surface nothing else changes; without one, a surface of the negotiated format and clamped size is created, the format is recorded, and the context is rebuilt iff the format differs from the recorded one |
| Graphics.GraphicsEngine.OnSuspended | korangar/src/graphics/engine.rs:419-424 | the surface is dropped only on Android; the context and everything else stay |
| Graphics.GraphicsEngine.OnResize | korangar/src/graphics/engine.rs:426-430 | an existing surface takes the size and is marked invalid, by the assumed `Surface` setter (see Left out); without a surface nothing changes |
| Graphics.GraphicsEngine.SetVsync | korangar/src/graphics/engine.rs:432-436 | an existing surface takes the setting and is marked invalid, by the assumed `Surface` setter (see Left out); without a surface nothing changes |
| Graphics.GraphicsEngine.SetTripleBuffering | korangar/src/graphics/engine.rs:450-454 | an existing surface takes the setting and is marked invalid, by the assumed `Surface` setter (see Left out); without a surface nothing changes |
| Graphics.GraphicsEngine.SetTextureSamplerType | korangar/src/graphics/engine.rs:456-462 | an existing context takes the sampler, and its other settings stay |
| Graphics.GraphicsEngine.SetShadowDetail | korangar/src/graphics/engine.rs:464-470 | an existing context takes the shadow detail, and its other settings stay |
| Graphics.GraphicsEngine.ReconfigureSurface | korangar/src/graphics/engine.rs:487-500 | an invalid surface becomes valid and the context's screen size becomes the window size; the trace grows by `ReconfigureEvents` |
| Graphics.GraphicsEngine.WaitForNextFrame | korangar/src/graphics/engine.rs:485-508 | a texture is acquired iff there is a surface; the trace grows by exactly `WaitEvents`; the surface is valid afterwards |
| Graphics.GraphicsEngine.RecordPointShadowPass | korangar/src/graphics/engine.rs:782-815 | the nested caster and face loops record exactly `PointShadowCommands(casters)` |
| Graphics.GraphicsEngine.DrawFrame | korangar/src/graphics/engine.rs:669-910 | the recorded buffers are `DrawnFrame` for the instruction, the build and the context's screen size |
| Graphics.GraphicsEngine.PrepareFrameData | korangar/src/graphics/engine.rs:588-666 | the prepare stage runs the prepare groups and returns `PrepareBuffer`; the setup is unchanged |
| Graphics.GraphicsEngine.QueuePickerValue | korangar/src/graphics/engine.rs:578-586 | the picker read-back is queued iff there is a context |
| Graphics.GraphicsEngine.WaitAndSubmitFrame | korangar/src/graphics/engine.rs:551-575 | waits for the device, then submits the seven buffers in argument order |
| Graphics.GraphicsEngine.FinishFrame | korangar/src/graphics/engine.rs:530-547 | the trace grows by finish, picker read, poll, submit of `SubmittedBuffers`, present and end stage |
| Graphics.GraphicsEngine.RenderNextFrame | korangar/src/graphics/engine.rs:511-548 | aborts iff there are too many shadow casters (nothing requested) or no context (only the recall); otherwise recall, prepare, then `SubmitEvents` for `PrepareBuffer` and `DrawnFrame`; the setup is unchanged |
| Graphics.SuspendAndResumeKeepsContext | korangar/src/graphics/engine.rs:148-169 | suspending and resuming with the same format ends with a surface and the same context |
| Graphics.ResumeTwiceBuildsOnce | korangar/src/graphics/engine.rs:167-169 | a resume, then a suspend, then a second resume with one format leave the context the first resume built |

## Left out

- I/O and foreign calls are trace events only: audio playback, the wgpu device, queue, surface and staging belt, `device.poll`, and the picker value's atomic cell.
- Concurrency: the rayon scopes of `prepare_frame_data` and `draw_frame` run sequentially in the model. Their groups and encoders stay separate, so only orderings inside a task or an encoder are claimed.
- The pass contexts and drawers built in `on_resume` are not modelled one by one. The engine context is one object carrying its format and the settings later calls change.
- Floats are opaque and never computed with:
  - world positions;
  - the movement lerp and its `offset / total` fraction;
  - the diagonal speed `(movement_speed as f32 * 1.4) as u32`, which is a function passed in;
  - fade alpha;
  - the status bars of `render_status`.
- Screen sizes are whole pixel counts; the conversion between `PhysicalSize` and `ScreenSize` is not modelled.
- `FadeState`, `AnimationState`, `Map`, `PathFinder`, `Library` and `Direction` are abstract:
  - the map is a finite table from tiles to world positions;
  - the path finder's answer is an input;
  - `Direction::try_from` is a partial function passed in;
  - the animation state records only the last request.
- `get_sprite_path_for_player_job`'s job table is an input map. Only its fallback to the novice sprite is stated.
- The debug pathing mesh, including `pathing_texture_coordinates`, builds GPU buffers from float vertices.
- `Entity::set_position`, `Entity::move_from_to` and `Entity::stopped_moving` only forward to `Common`; the model states `Common.SetPosition`, `Common.MoveFromTo` and the `stoppedMoving` field instead.
- `Common::update`, `render`, `render_debug` and `render_marker` are left out. So are the `Entity` accessors and animation setters (`set_dead`, `set_idle`, `set_pickup`, `set_attack`, `set_animation_data`, `inherit_fade_state`, `should_be_removed`) and the `StateWindow` impls. They drive collaborators whose code is not part of this model.
- `Npc::new`: its map lookup and the walk it starts are not modelled. `WorldEntity.Npc.constructor` covers only the struct it returns.
- The window and widget building of `LoginWindow::to_window`, except the two cells and the window class, is UI layout.
- `RenderNextFrame` and `WaitForNextFrame` return an outcome where the source panics (the caster assertion, `unwrap`, "surface not set"). A panic is modelled as an aborted frame or a `false` result.
- `WorldEntity.BuildSteps`, `WorldEntity.Walked` and `WorldEntity.Common.MoveFromTo`: arrivals use a saturating addition, not the u32 addition as written; see Findings. A walk whose arrivals saturate at u32::MAX is never ended by `update_movement`, because no tick is later than u32::MAX.
- `Graphics.GraphicsEngine.OnResize`, `Graphics.GraphicsEngine.SetVsync` and `Graphics.GraphicsEngine.SetTripleBuffering` only forward to `Surface::update_window_size`, `Surface::set_vsync` and `Surface::set_triple_buffering`, whose code is not part of this model. That these setters store the value and mark the surface for reconfiguration is an assumption about `Surface`.
- `WorldEntity.Common.UpdateMovement`: after the `unwrap` panic the state left behind is not specified.
- `Graphics.GraphicsEngine.OnResume`: the window size is clamped per side, not with the lexicographic `max` as written; see Findings.
- `MAX_WALK_PATH_SIZE` is not modelled, and `NUMBER_OF_POINT_LIGHTS_WITH_SHADOWS` is a parameter. Neither value is part of this model.

## Findings

| source | as written | input that shows it | evidently intended | confidence | as-written member | corrected member |
|---|---|---|---|---|---|---|
| korangar/src/world/entity/mod.rs:728 | `last_timestamp + speed` is a u32 addition: it wraps in a release build (and panics in a debug build) | a walk starting at tick u32::MAX with speed 150: the second step arrives at tick 149, before the first. `update_movement` then computes `next - last` on decreasing timestamps | arrival timestamps that never decrease. The model saturates, which keeps them ordered, but a walk whose arrivals saturate at u32::MAX is then never ended; fully intended behaviour would compare ticks wrapping-aware from the starting time, as `SoundState::update` does with `wrapping_sub` | medium, not executed | WorldEntity.WrappingWalkCanGoBack | WorldEntity.SaturatingWalkIsNonDecreasing |
| korangar/src/graphics/engine.rs:154 | `inner_size().max(PhysicalSize::new(1, 1))`; `PhysicalSize` derives `Ord`, which compares width first, so this is a lexicographic maximum | an 800 x 0 window: (800, 0) > (1, 1), so the surface is created with height 0 | each side clamped to at least 1 pixel | medium, not executed (relies on the derived ordering of winit's `PhysicalSize`) | Graphics.LexicographicClampKeepsZeroHeight | Graphics.ClampedScreenSize |
