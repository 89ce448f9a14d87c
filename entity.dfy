/**
 * The simulation state of one game-world entity (korangar/src/world/entity/mod.rs):
 * job classification, the sound cooldown, sprite part files, walking along a
 * path step by step, teleporting, and the player's stat updates.
 *
 * Collaborators whose code lies outside this file are abstract: the map is a
 * finite table from tiles to world positions, the path finder's answer is an
 * input, and Direction::try_from, the diagonal speed, the position lerp and the
 * fade alpha are functions passed in as `Collaborators`. Floats are opaque bit
 * patterns and are never computed with.
 */
module WorldEntity {
  import opened Wrappers
  import opened MachineIntegers

  /** `ClientTick(u32)`: milliseconds on the client clock, wrapping at 2^32. */
  type ClientTick = U32

  // ------------------------------------------------------------ opaque values

  /** An `f32`, kept as its bit pattern: the model never computes with floats. */
  datatype F32 = F32(bits: bv32)

  /** `Point3<f32>`, a world position. */
  datatype Point3 = Point3(x: F32, y: F32, z: F32)

  /** `TilePosition`: a tile of the map grid. */
  datatype TilePosition = TilePosition(x: nat, y: nat)

  /** `Direction`: only ever produced by `Direction::try_from`, so kept opaque. */
  datatype Direction = Direction(code: nat)

  datatype Sex = Female | Male

  /** The functions of other components that the entity code calls. */
  datatype Collaborators = Collaborators(
    // `Direction::try_from([dx, dy])`, which fails for deltas that are no direction
    tryDirection: ((int, int)) -> Option<Direction>,
    // `(movement_speed as f32 * 1.4) as u32`
    diagonalSpeed: nat -> U32,
    // the world position `offset / total` of the way from the first point to the second
    lerp: (Point3, Point3, U32, U32) -> Point3,
    // `FadeState::calculate_alpha`
    fadeAlpha: (FadeState, ClientTick) -> F32)

  /** `Map`, as far as entities use it: the world position of each tile it covers. */
  datatype Map = Map(worldPositions: map<TilePosition, Point3>)
  {
    /** `Map::get_world_position`: `None` for a tile outside the map. */
    function GetWorldPosition(tile: TilePosition): (p: Option<Point3>)
      ensures p.Some? <==> tile in worldPositions
    {
      if tile in worldPositions then Some(worldPositions[tile]) else None
    }
  }

  // ------------------------------------------------------------- entity type

  datatype EntityType = Hidden | Monster | Npc | Player | Warp

  /**
   * `EntityType::from(job_id)`. The two single ids are matched before the
   * ranges, so 111 is Hidden although it lies in the Npc range 46..=999.
   */
  function EntityTypeFromJob(jobId: nat): (t: EntityType)
    ensures t == Warp <==> jobId == 45
    ensures t == Hidden <==> jobId == 111
    ensures t == Player <==> jobId <= 44 || 4000 <= jobId <= 5999
    ensures t == Monster <==> 1000 <= jobId <= 3999 || 20000 <= jobId <= 29999
    ensures t == Npc <==> !(jobId <= 45 || jobId == 111 || 1000 <= jobId <= 5999 || 20000 <= jobId <= 29999)
  {
    if jobId == 45 then Warp
    else if jobId == 111 then Hidden
    else if jobId <= 44 || 4000 <= jobId <= 5999 then Player
    else if 46 <= jobId <= 999 || 10000 <= jobId <= 19999 then Npc
    else if 1000 <= jobId <= 3999 || 20000 <= jobId <= 29999 then Monster
    else Npc
  }

  // ------------------------------------------------------------ sound state

  datatype SoundEffectKey = SoundEffectKey(id: nat)

  const SOUND_COOLDOWN_DURATION: U32 := 200

  /**
   * Whether `SoundState::update` plays: always for a new key or when nothing
   * was played yet, otherwise once the cooldown has passed on the wrapping clock.
   */
  predicate ShouldPlay(previousKey: Option<SoundEffectKey>, lastPlayedAt: Option<ClientTick>,
                       key: SoundEffectKey, tick: ClientTick)
  {
    if previousKey == Some(key) && lastPlayedAt.Some? then
      WrappingSub(tick, lastPlayedAt.value) >= SOUND_COOLDOWN_DURATION
    else
      true
  }

  /**
   * Once a key has been played at `playedAt`, the same key plays again exactly
   * when at least the cooldown has elapsed, also across the wrap of the clock;
   * a different key plays at once.
   */
  lemma SoundCooldown(key: SoundEffectKey, other: SoundEffectKey, playedAt: ClientTick, elapsed: nat)
    requires elapsed < U32_LIMIT
    ensures ShouldPlay(Some(key), Some(playedAt), key, (playedAt + elapsed) % U32_LIMIT)
            <==> elapsed >= SOUND_COOLDOWN_DURATION
    ensures other != key ==> ShouldPlay(Some(key), Some(playedAt), other, (playedAt + elapsed) % U32_LIMIT)
  {
    WrappingSubMeasuresElapsed(playedAt, elapsed);
  }

  /** `SoundState`: the key played last and when. */
  class SoundState {
    var previousKey: Option<SoundEffectKey>
    var lastPlayedAt: Option<ClientTick>

    /** `SoundState::default()`. */
    constructor ()
      ensures previousKey == None && lastPlayedAt == None
    {
      previousKey := None;
      lastPlayedAt := None;
    }

    /**
     * `SoundState::update`. `played` stands for the call to
     * `play_spatial_sound_effect`; only a played sound is remembered.
     */
    method Update(key: SoundEffectKey, tick: ClientTick) returns (played: bool)
      modifies this
      ensures played == ShouldPlay(old(previousKey), old(lastPlayedAt), key, tick)
      ensures played ==> previousKey == Some(key) && lastPlayedAt == Some(tick)
      ensures !played ==> previousKey == old(previousKey) && lastPlayedAt == old(lastPlayedAt)
    {
      if previousKey == Some(key) && lastPlayedAt.Some? {
        played := WrappingSub(tick, lastPlayedAt.value) >= SOUND_COOLDOWN_DURATION;
      } else {
        played := true;
      }
      if played {
        lastPlayedAt := Some(tick);
        previousKey := Some(key);
      }
    }
  }

  // ---------------------------------------------------------- resource state

  /** `ResourceState`: details are Unavailable, then Requested, then Available. */
  datatype ResourceState<T> = Available(value: T) | Unavailable | Requested
  {
    /** `ResourceState::as_option`: only an available resource is returned. */
    function AsOption(): (r: Option<T>)
      ensures r.Some? <==> Available?
      ensures Available? ==> r == Some(value)
    {
      match this
      case Available(v) => Some(v)
      case _ => None
    }
  }

  // ------------------------------------------------------ sprite part files

  const MALE_HAIR_LOOKUP: seq<nat> := [2, 2, 1, 7, 5, 4, 3, 6, 8, 9, 10, 12, 11]
  const FEMALE_HAIR_LOOKUP: seq<nat> := [2, 2, 4, 7, 1, 5, 3, 6, 12, 10, 9, 11, 8]

  function HairLookup(sex: Sex): (table: seq<nat>)
  {
    if sex == Male then MALE_HAIR_LOOKUP else FEMALE_HAIR_LOOKUP
  }

  /**
   * The head sprite number for a hair id: ids inside the sex's table go
   * through it, larger ids are used as they are, and no hair id gives head 1.
   */
  function HeadId(sex: Sex, head: Option<nat>): (h: nat)
    ensures head.None? ==> h == 1
    ensures head.Some? && head.value < |HairLookup(sex)| ==> h == HairLookup(sex)[head.value]
    ensures head.Some? && head.value >= |HairLookup(sex)| ==> h == head.value
  {
    match head
    case Some(hair) => if hair < |HairLookup(sex)| then HairLookup(sex)[hair] else hair
    case None => 1
  }

  /**
   * Every hair id selects a head sprite numbered from 1 on, and the hair ids
   * 1 to 12 select the sprites 1 to 12 one-to-one (hair 0 shares hair 1's
   * sprite for males, and is an alias of hair 1 for females as well).
   */
  lemma HairLookupIsOneToOne(sex: Sex, a: nat, b: nat)
    requires 1 <= a <= 12 && 1 <= b <= 12 && a != b
    ensures 1 <= HeadId(sex, Some(a)) <= 12
    ensures HeadId(sex, Some(a)) != HeadId(sex, Some(b))
    ensures HeadId(sex, Some(0)) == HeadId(sex, Some(1))
  {
    var t := HairLookup(sex);
    assert forall i, j | 1 <= i < j <= 12 :: t[i] != t[j];
  }

  /** No hair id, not even 0, selects a head sprite numbered 0. */
  lemma HeadIdIsPositive(sex: Sex, head: Option<nat>)
    ensures HeadId(sex, head) >= 1
  {
    if head.Some? && head.value < |HairLookup(sex)| {
      var t := HairLookup(sex);
      assert forall i | 0 <= i < |t| :: t[i] >= 1;
    }
  }

  /** Sprite names that come from tables outside this file. */
  datatype SpriteNames = SpriteNames(
    // the table of `get_sprite_path_for_player_job`
    playerJobSprites: map<nat, string>,
    // `library.get::<JobIdentity>(job_id).to_string()`
    jobIdentity: nat -> string)

  /** 초보자, the novice sprite. */
  const NOVICE_SPRITE := "\U{cd08}\U{bcf4}\U{c790}"
  /** 인간족 */
  const HUMAN_DIRECTORY := "\U{c778}\U{ac04}\U{c871}"
  /** 몸통 */
  const BODY_DIRECTORY := "\U{bab8}\U{d1b5}"
  /** 머리통 */
  const HEAD_DIRECTORY := "\U{ba38}\U{b9ac}\U{d1b5}"
  /** 몬스터 */
  const MONSTER_DIRECTORY := "\U{baac}\U{c2a4}\U{d130}"
  const NPC_DIRECTORY := "npc"

  /** `get_sprite_path_for_player_job`: unknown jobs use the novice sprite. */
  function PlayerJobSprite(names: SpriteNames, jobId: nat): (sprite: string)
    ensures jobId !in names.playerJobSprites ==> sprite == NOVICE_SPRITE
  {
    if jobId in names.playerJobSprites then names.playerJobSprites[jobId] else NOVICE_SPRITE
  }

  /** 여 for female sprites, 남 for male ones. */
  function SexSpritePath(sex: Sex): string
  {
    if sex == Female then "\U{c5ec}" else "\U{b0a8}"
  }

  /** `format!("{}", n)` for a `usize`. */
  function DecimalString(n: nat): (s: string)
    ensures |s| >= 1
    ensures forall i | 0 <= i < |s| :: '0' <= s[i] <= '9'
  {
    var digit := ['0' + (n % 10) as char];
    if n < 10 then digit else DecimalString(n / 10) + digit
  }

  function PlayerBodyPath(sexPath: string, sprite: string): string
  {
    HUMAN_DIRECTORY + "\\" + BODY_DIRECTORY + "\\" + sexPath + "\\" + sprite + "_" + sexPath
  }

  function PlayerHeadPath(sexPath: string, headId: nat): string
  {
    HUMAN_DIRECTORY + "\\" + HEAD_DIRECTORY + "\\" + sexPath + "\\" + DecimalString(headId) + "_" + sexPath
  }

  /**
   * `get_entity_part_files`: a player is drawn from a body and a head sprite,
   * every other entity from the one sprite its job identity names.
   */
  function EntityPartFiles(names: SpriteNames, entityType: EntityType, jobId: nat, sex: Sex,
                           head: Option<nat>): (files: seq<string>)
    ensures |files| == if entityType == Player then 2 else 1
    ensures entityType == Player ==> files[0] == PlayerBodyPath(SexSpritePath(sex), PlayerJobSprite(names, jobId))
    ensures entityType == Player ==> files[1] == PlayerHeadPath(SexSpritePath(sex), HeadId(sex, head))
    ensures entityType == Monster ==> files[0] == MONSTER_DIRECTORY + "\\" + names.jobIdentity(jobId)
    ensures entityType in {Npc, Warp, Hidden} ==> files[0] == NPC_DIRECTORY + "\\" + names.jobIdentity(jobId)
  {
    var sexPath := SexSpritePath(sex);
    var headId := HeadId(sex, head);
    match entityType
    case Player => [PlayerBodyPath(sexPath, PlayerJobSprite(names, jobId)), PlayerHeadPath(sexPath, headId)]
    case Npc => [NPC_DIRECTORY + "\\" + names.jobIdentity(jobId)]
    case Monster => [MONSTER_DIRECTORY + "\\" + names.jobIdentity(jobId)]
    case Warp => [NPC_DIRECTORY + "\\" + names.jobIdentity(jobId)]
    case Hidden => [NPC_DIRECTORY + "\\" + names.jobIdentity(jobId)]
  }

  // ------------------------------------------------- animation and fading

  /**
   * What was last asked of the entity's `AnimationState`. Its own frame logic
   * lies outside this file; the model records the request and its tick.
   */
  datatype AnimationAction =
    | Initial
    | Idle
    | Walk(movementSpeed: nat)
    | Dead
    | Pickup
    | Attack(attackDuration: U32, critical: bool)

  datatype AnimationState = AnimationState(entityType: EntityType, action: AnimationAction, since: ClientTick)
  {
    predicate IsWalking()
    {
      action.Walk?
    }
  }

  datatype FadeDirection = In | Out

  /** `FadeState`, recording the arguments it was built from. */
  datatype FadeState =
    | Opaque
    | Fading(direction: FadeDirection, fromAlpha: Option<F32>, since: ClientTick, duration: U32)

  const FADE_IN_DURATION_MS: U32 := 500
  const DIED_FADE_DURATION_MS: U32 := 2000

  /** `DisappearanceReason`; the model names the two reasons the code tells apart. */
  datatype DisappearanceReason = OutOfSight | Died | OtherReason(code: nat)

  /** The fade-out length `Entity::fade_out` picks for a reason. */
  function FadeOutDuration(reason: DisappearanceReason): (duration: U32)
    ensures reason.Died? ==> duration == DIED_FADE_DURATION_MS
    ensures !reason.Died? ==> duration == FADE_IN_DURATION_MS
  {
    match reason
    case OutOfSight => FADE_IN_DURATION_MS
    case Died => DIED_FADE_DURATION_MS
    case OtherReason(_) => FADE_IN_DURATION_MS
  }

  // ------------------------------------------------------------- movement

  /** `Step`: the tile reached and when. */
  datatype Step = Step(arrivalPosition: TilePosition, arrivalTimestamp: ClientTick)

  /** `Movement`: the steps of a walk, the first one being the starting tile. */
  datatype Movement = Movement(steps: seq<Step>, startingTimestamp: ClientTick)

  predicate NonDecreasing(steps: seq<Step>)
  {
    forall i | 0 <= i < |steps| - 1 :: steps[i].arrivalTimestamp <= steps[i + 1].arrivalTimestamp
  }

  /**
   * What every installed movement satisfies: it has a step to leave from and
   * one to arrive at, and its arrival times never go back.
   */
  predicate WellFormedMovement(m: Movement)
  {
    |m.steps| >= 2 && NonDecreasing(m.steps)
  }

  function LastArrival(steps: seq<Step>): ClientTick
    requires |steps| >= 1
  {
    steps[|steps| - 1].arrivalTimestamp
  }

  /**
   * The step the entity is walking away from at `tick`, searched from index
   * `from` on: the first index whose successor is not yet reached.
   */
  function CurrentStepIndexFrom(steps: seq<Step>, tick: ClientTick, from: nat): (i: nat)
    requires from + 1 < |steps| && tick <= LastArrival(steps)
    ensures from <= i && i + 1 < |steps|
    ensures tick <= steps[i + 1].arrivalTimestamp
    ensures forall k | from < k <= i :: steps[k].arrivalTimestamp < tick
    decreases |steps| - from
  {
    if steps[from + 1].arrivalTimestamp < tick then CurrentStepIndexFrom(steps, tick, from + 1) else from
  }

  function CurrentStepIndex(steps: seq<Step>, tick: ClientTick): (i: nat)
    requires |steps| >= 2 && tick <= LastArrival(steps)
  {
    CurrentStepIndexFrom(steps, tick, 0)
  }

  /**
   * The `while` loop of `update_movement`: starting at index 0, step on while
   * the next step's arrival lies before `tick`. Every index it reads is in
   * bounds, because the last step is not before `tick`.
   */
  method FindCurrentStep(steps: seq<Step>, tick: ClientTick) returns (lastStepIndex: nat)
    requires |steps| >= 2 && tick <= LastArrival(steps)
    ensures lastStepIndex + 1 < |steps|
    ensures tick <= steps[lastStepIndex + 1].arrivalTimestamp
    ensures forall k | 0 < k <= lastStepIndex :: steps[k].arrivalTimestamp < tick
    ensures lastStepIndex == CurrentStepIndex(steps, tick)
  {
    lastStepIndex := 0;
    while steps[lastStepIndex + 1].arrivalTimestamp < tick
      invariant lastStepIndex + 1 < |steps|
      invariant forall k | 0 < k <= lastStepIndex :: steps[k].arrivalTimestamp < tick
      invariant CurrentStepIndexFrom(steps, tick, lastStepIndex) == CurrentStepIndex(steps, tick)
      decreases |steps| - lastStepIndex
    {
      lastStepIndex := lastStepIndex + 1;
    }
  }

  /** How far into a step the entity is: `offset` of `total` milliseconds. */
  datatype StepProgress = StepProgress(offset: U32, total: U32)

  /**
   * `clamped_tick`, `total` and `offset` of `update_movement`. Neither u32
   * subtraction underflows, and the offset lies between 0 (not yet left) and
   * the total (arrived).
   */
  function Progress(last: Step, next: Step, tick: ClientTick): (p: StepProgress)
    requires last.arrivalTimestamp <= next.arrivalTimestamp && tick <= next.arrivalTimestamp
    ensures 0 <= p.offset <= p.total
    ensures p.offset == 0 <==> tick <= last.arrivalTimestamp
    ensures p.offset == p.total <==> tick == next.arrivalTimestamp || last.arrivalTimestamp == next.arrivalTimestamp
  {
    var clampedTick := Max(last.arrivalTimestamp, tick);
    StepProgress(clampedTick - last.arrivalTimestamp, next.arrivalTimestamp - last.arrivalTimestamp)
  }

  /** The vector from the next step to the last one, as `Direction::try_from` receives it. */
  function StepDelta(last: Step, next: Step): (int, int)
  {
    (last.arrivalPosition.x - next.arrivalPosition.x, last.arrivalPosition.y - next.arrivalPosition.y)
  }

  /** How `last_timestamp + speed` behaves at the top of the u32 range. */
  datatype Overflow = Wrapping | Saturating

  function AddU32(mode: Overflow, a: U32, b: U32): (r: U32)
  {
    match mode
    case Wrapping => (a + b) % U32_LIMIT
    case Saturating => if a + b <= U32_MAX then a + b else U32_MAX
  }

  /** `movement_speed as u32` for a move along a row or column, the diagonal speed otherwise. */
  function StepSpeed(movementSpeed: nat, diagonalSpeed: nat -> U32, from: TilePosition, to: TilePosition): U32
  {
    if from.x == to.x || from.y == to.y then TruncateU32(movementSpeed) else diagonalSpeed(movementSpeed)
  }

  /**
   * The steps `move_from_to` builds from a path: the first step is the start
   * tile at the starting time, and each later step arrives at its path tile one
   * speed after the step before it.
   */
  function WalkSteps(mode: Overflow, path: seq<TilePosition>, start: TilePosition, startingTimestamp: ClientTick,
                     movementSpeed: nat, diagonalSpeed: nat -> U32): (steps: seq<Step>)
    ensures |steps| == |path|
    ensures |path| >= 1 ==> steps[0] == Step(start, startingTimestamp)
    ensures forall k | 1 <= k < |path| :: steps[k].arrivalPosition == path[k]
    ensures forall k | 1 <= k < |path| :: steps[k].arrivalTimestamp == AddU32(mode, steps[k - 1].arrivalTimestamp,
              StepSpeed(movementSpeed, diagonalSpeed, steps[k - 1].arrivalPosition, path[k]))
    decreases |path|
  {
    if |path| == 0 then []
    else if |path| == 1 then [Step(start, startingTimestamp)]
    else
      var before := WalkSteps(mode, path[..|path| - 1], start, startingTimestamp, movementSpeed, diagonalSpeed);
      var last := before[|before| - 1];
      var speed := StepSpeed(movementSpeed, diagonalSpeed, last.arrivalPosition, path[|path| - 1]);
      before + [Step(path[|path| - 1], AddU32(mode, last.arrivalTimestamp, speed))]
  }

  /** With saturating addition the arrival times of a walk never go back. */
  lemma {:induction false} SaturatingWalkIsNonDecreasing(path: seq<TilePosition>, start: TilePosition,
      startingTimestamp: ClientTick, movementSpeed: nat, diagonalSpeed: nat -> U32)
    ensures NonDecreasing(WalkSteps(Saturating, path, start, startingTimestamp, movementSpeed, diagonalSpeed))
  {
    var steps := WalkSteps(Saturating, path, start, startingTimestamp, movementSpeed, diagonalSpeed);
    forall i | 0 <= i < |steps| - 1
      ensures steps[i].arrivalTimestamp <= steps[i + 1].arrivalTimestamp
    {
      var speed := StepSpeed(movementSpeed, diagonalSpeed, steps[i].arrivalPosition, path[i + 1]);
      assert steps[i + 1].arrivalTimestamp == AddU32(Saturating, steps[i].arrivalTimestamp, speed);
    }
  }

  /**
   * As written, `last_timestamp + speed` is plain u32 addition: it wraps in a
   * release build (and panics in a debug build). A walk that starts one
   * millisecond before the clock wraps then arrives before it left, so the
   * movement breaks the order `update_movement` subtracts in.
   */
  lemma WrappingWalkCanGoBack(diagonalSpeed: nat -> U32)
    ensures var steps := WalkSteps(Wrapping, [TilePosition(0, 0), TilePosition(1, 0)], TilePosition(0, 0),
                                   U32_MAX, 150, diagonalSpeed);
            steps[1].arrivalTimestamp == 149 && steps[1].arrivalTimestamp < steps[0].arrivalTimestamp
            && !NonDecreasing(steps)
  {
    var path := [TilePosition(0, 0), TilePosition(1, 0)];
    var steps := WalkSteps(Wrapping, path, TilePosition(0, 0), U32_MAX, 150, diagonalSpeed);
    assert StepSpeed(150, diagonalSpeed, TilePosition(0, 0), TilePosition(1, 0)) == 150;
    assert steps[1].arrivalTimestamp == (U32_MAX + 150) % U32_LIMIT == 149;
  }

  /**
   * The step-building closure of `move_from_to`, threading the last timestamp
   * and the last position through the path; it adds with saturation.
   */
  method BuildSteps(path: seq<TilePosition>, start: TilePosition, startingTimestamp: ClientTick,
                    movementSpeed: nat, diagonalSpeed: nat -> U32) returns (steps: seq<Step>)
    ensures steps == WalkSteps(Saturating, path, start, startingTimestamp, movementSpeed, diagonalSpeed)
    ensures NonDecreasing(steps)
  {
    var lastTimestamp := startingTimestamp;
    var lastPosition: Option<TilePosition> := None;
    steps := [];
    for k := 0 to |path|
      invariant steps == WalkSteps(Saturating, path[..k], start, startingTimestamp, movementSpeed, diagonalSpeed)
      invariant lastPosition.None? <==> k == 0
      invariant k == 0 ==> lastTimestamp == startingTimestamp
      invariant k > 0 ==> lastPosition == Some(steps[k - 1].arrivalPosition)
                          && lastTimestamp == steps[k - 1].arrivalTimestamp
    {
      var step := path[k];
      ghost var upTo := path[..k + 1];
      assert upTo[..k] == path[..k] && upTo[k] == step;
      var next: Step;
      if lastPosition.Some? {
        var speed := StepSpeed(movementSpeed, diagonalSpeed, lastPosition.value, step);
        var arrivalTimestamp := AddU32(Saturating, lastTimestamp, speed);
        lastTimestamp := arrivalTimestamp;
        lastPosition := Some(step);
        next := Step(step, arrivalTimestamp);
        ghost var before := WalkSteps(Saturating, upTo[..k], start, startingTimestamp, movementSpeed, diagonalSpeed);
        assert before == steps && |before| == k;
        assert WalkSteps(Saturating, upTo, start, startingTimestamp, movementSpeed, diagonalSpeed) == before + [next];
      } else {
        lastPosition := Some(start);
        next := Step(start, lastTimestamp);
        assert WalkSteps(Saturating, upTo, start, startingTimestamp, movementSpeed, diagonalSpeed) == [next];
      }
      steps := steps + [next];
    }
    assert path[..|path|] == path;
    SaturatingWalkIsNonDecreasing(path, start, startingTimestamp, movementSpeed, diagonalSpeed);
  }

  // ------------------------------------------------------------ Common

  /** `EntityData` as far as `Common::new` reads it. */
  datatype EntityData = EntityData(
    entityId: nat, job: nat, headDirection: nat, direction: Direction, movementSpeed: nat,
    healthPoints: nat, maximumHealthPoints: nat, sex: Sex)

  /** The fields of a `Common`, as one value (the sound state is a separate object). */
  datatype CommonFields = CommonFields(
    entityId: nat,
    jobId: nat,
    healthPoints: nat,
    maximumHealthPoints: nat,
    movementSpeed: nat,
    direction: Direction,
    headDirection: nat,
    sex: Sex,
    entityType: EntityType,
    activeMovement: Option<Movement>,
    tilePosition: TilePosition,
    worldPosition: Point3,
    details: ResourceState<string>,
    animationState: AnimationState,
    stoppedMoving: bool,
    fadeState: FadeState)

  /** Every installed movement is well formed. */
  predicate MovementInvariant(s: CommonFields)
  {
    s.activeMovement.Some? ==> WellFormedMovement(s.activeMovement.value)
  }

  /**
   * `set_position`: a tile the map has no world position for changes nothing;
   * otherwise the entity stands on that tile, no longer walks, and idles.
   */
  function Teleported(s: CommonFields, worldMap: Map, position: TilePosition, tick: ClientTick): (r: CommonFields)
    ensures worldMap.GetWorldPosition(position).None? ==> r == s
    ensures worldMap.GetWorldPosition(position).Some? ==>
              && r.tilePosition == position
              && Some(r.worldPosition) == worldMap.GetWorldPosition(position)
              && r.activeMovement.None?
              && r.animationState == AnimationState(s.entityType, Idle, tick)
              && r == s.(tilePosition := r.tilePosition, worldPosition := r.worldPosition,
                         activeMovement := None, animationState := r.animationState)
  {
    match worldMap.GetWorldPosition(position)
    case None => s
    case Some(worldPosition) =>
      s.(tilePosition := position, worldPosition := worldPosition, activeMovement := None,
         animationState := AnimationState(s.entityType, Idle, tick))
  }

  /**
   * `Direction::try_from` accepts the delta of the step pair `update_movement`
   * heads along, so its `try_into().unwrap()` does not panic. A path that
   * repeats a tile gives the delta (0, 0), which is no direction.
   */
  predicate DirectionDefined(s: CommonFields, tick: ClientTick, c: Collaborators)
    requires MovementInvariant(s)
  {
    s.activeMovement.Some? && tick <= LastArrival(s.activeMovement.value.steps) ==>
      var steps := s.activeMovement.value.steps;
      var i := CurrentStepIndex(steps, tick);
      c.tryDirection(StepDelta(steps[i], steps[i + 1])).Some?
  }

  /**
   * `update_movement`. `stopped_moving` is cleared first. A movement whose last
   * arrival lies before `tick` is dropped, `stopped_moving` is set, and the
   * entity is put on the last tile if the map knows it. Otherwise the entity
   * heads for the first step not yet reached; its world position moves along
   * the step only when the map knows both of the step's tiles. `None` stands
   * for the panic of the `unwrap` when the step's delta is no direction.
   */
  function Advanced(s: CommonFields, worldMap: Map, tick: ClientTick, c: Collaborators): (r: Option<CommonFields>)
    requires MovementInvariant(s)
    ensures r.None? <==> !DirectionDefined(s, tick, c)
    ensures r.Some? ==> MovementInvariant(r.value)
    ensures r.Some? ==> (r.value.stoppedMoving <==> s.activeMovement.Some? && tick > LastArrival(s.activeMovement.value.steps))
    ensures r.Some? ==> r.value.activeMovement == if r.value.stoppedMoving then None else s.activeMovement
    ensures r.Some? && s.activeMovement.Some? && !r.value.stoppedMoving ==>
              var steps := s.activeMovement.value.steps;
              r.value.tilePosition == steps[CurrentStepIndex(steps, tick) + 1].arrivalPosition
    ensures r.Some? && s.activeMovement.Some? && !r.value.stoppedMoving ==>
              var steps := s.activeMovement.value.steps;
              var i := CurrentStepIndex(steps, tick);
              c.tryDirection(StepDelta(steps[i], steps[i + 1])) == Some(r.value.direction)
    ensures r.Some? && r.value.stoppedMoving ==>
              var last := s.activeMovement.value.steps[|s.activeMovement.value.steps| - 1];
              && r.value == Teleported(s.(stoppedMoving := false, activeMovement := None), worldMap,
                                       last.arrivalPosition, tick).(stoppedMoving := true)
              && (worldMap.GetWorldPosition(last.arrivalPosition).Some? ==>
                    && r.value.tilePosition == last.arrivalPosition
                    && Some(r.value.worldPosition) == worldMap.GetWorldPosition(last.arrivalPosition)
                    && r.value.animationState == AnimationState(s.entityType, Idle, tick))
              && (worldMap.GetWorldPosition(last.arrivalPosition).None? ==>
                    r.value.tilePosition == s.tilePosition && r.value.animationState == s.animationState)
    ensures r.Some? ==>
              r.value == s.(stoppedMoving := r.value.stoppedMoving, activeMovement := r.value.activeMovement,
                            tilePosition := r.value.tilePosition, worldPosition := r.value.worldPosition,
                            direction := r.value.direction, animationState := r.value.animationState)
  {
    var s0 := s.(stoppedMoving := false);
    match s.activeMovement
    case None => Some(s0)
    case Some(movement) =>
      var steps := movement.steps;
      var lastStep := steps[|steps| - 1];
      if tick > lastStep.arrivalTimestamp then
        Some(Teleported(s0.(activeMovement := None), worldMap, lastStep.arrivalPosition, tick).(stoppedMoving := true))
      else
        var i := CurrentStepIndex(steps, tick);
        var turned := c.tryDirection(StepDelta(steps[i], steps[i + 1]));
        if turned.None? then None
        else Some(HeadedAlong(s0, steps[i], steps[i + 1], turned.value, worldMap, tick, c))
  }

  /**
   * The walking branch of `update_movement`: the entity takes the tile and
   * the direction of the step from `last` to `next`, and its world position
   * moves along the step only when the map knows both of the step's tiles.
   */
  function HeadedAlong(s: CommonFields, last: Step, next: Step, direction: Direction, worldMap: Map,
                       tick: ClientTick, c: Collaborators): (r: CommonFields)
    requires last.arrivalTimestamp <= next.arrivalTimestamp && tick <= next.arrivalTimestamp
    ensures r == s.(tilePosition := next.arrivalPosition, direction := direction, worldPosition := r.worldPosition)
    ensures (worldMap.GetWorldPosition(last.arrivalPosition).None? ||
             worldMap.GetWorldPosition(next.arrivalPosition).None?) ==> r.worldPosition == s.worldPosition
  {
    var s1 := s.(tilePosition := next.arrivalPosition, direction := direction);
    match (worldMap.GetWorldPosition(last.arrivalPosition), worldMap.GetWorldPosition(next.arrivalPosition))
    case (Some(from), Some(to)) =>
      var p := Progress(last, next, tick);
      s1.(worldPosition := c.lerp(from, to, p.offset, p.total))
    case _ => s1
  }

  /**
   * `move_from_to`, given the path finder's answer. No path, or a path of at
   * most one tile, changes nothing; otherwise the walk is installed and the
   * animation switches to walking unless it already walks.
   */
  function Walked(s: CommonFields, path: Option<seq<TilePosition>>, start: TilePosition,
                  startingTimestamp: ClientTick, diagonalSpeed: nat -> U32): (r: CommonFields)
    requires MovementInvariant(s)
    ensures MovementInvariant(r)
    ensures path.None? || |path.value| <= 1 ==> r == s
    ensures path.Some? && |path.value| > 1 ==>
              && r.activeMovement.Some?
              && r.activeMovement.value.startingTimestamp == startingTimestamp
              && r.activeMovement.value.steps ==
                 WalkSteps(Saturating, path.value, start, startingTimestamp, s.movementSpeed, diagonalSpeed)
              && |r.activeMovement.value.steps| == |path.value|
              && r.activeMovement.value.steps[0] == Step(start, startingTimestamp)
              && r.animationState.IsWalking()
    ensures s.animationState.IsWalking() ==> r.animationState == s.animationState
    ensures r == s.(activeMovement := r.activeMovement, animationState := r.animationState)
  {
    match path
    case None => s
    case Some(tiles) =>
      if |tiles| <= 1 then s
      else
        var steps := WalkSteps(Saturating, tiles, start, startingTimestamp, s.movementSpeed, diagonalSpeed);
        SaturatingWalkIsNonDecreasing(tiles, start, startingTimestamp, s.movementSpeed, diagonalSpeed);
        if |steps| > 1 then
          s.(activeMovement := Some(Movement(steps, startingTimestamp)),
             animationState := if s.animationState.IsWalking() then s.animationState
                               else AnimationState(s.entityType, Walk(s.movementSpeed), startingTimestamp))
        else s
  }

  /** `Common`: the state every entity, player or not, has. */
  class Common {
    var entityId: nat
    var jobId: nat
    var healthPoints: nat
    var maximumHealthPoints: nat
    var movementSpeed: nat
    var direction: Direction
    var headDirection: nat
    var sex: Sex
    var entityType: EntityType
    var activeMovement: Option<Movement>
    var tilePosition: TilePosition
    var worldPosition: Point3
    var details: ResourceState<string>
    var animationState: AnimationState
    var stoppedMoving: bool
    const soundState: SoundState
    var fadeState: FadeState

    function Fields(): CommonFields
      reads this
    {
      CommonFields(entityId, jobId, healthPoints, maximumHealthPoints, movementSpeed, direction,
                   headDirection, sex, entityType, activeMovement, tilePosition, worldPosition,
                   details, animationState, stoppedMoving, fadeState)
    }

    ghost predicate Valid()
      reads this
    {
      MovementInvariant(Fields())
    }

    /** `Common::new`: standing still, details not yet asked for, fading in. */
    constructor (data: EntityData, tilePosition: TilePosition, worldPosition: Point3, tick: ClientTick)
      ensures Valid() && fresh(soundState)
      ensures soundState.previousKey.None? && soundState.lastPlayedAt.None?
      ensures Fields() == CommonFields(
                data.entityId, data.job, data.healthPoints, data.maximumHealthPoints, data.movementSpeed,
                data.direction, data.headDirection, data.sex, EntityTypeFromJob(data.job), None,
                tilePosition, worldPosition, Unavailable,
                AnimationState(EntityTypeFromJob(data.job), Initial, tick), false,
                Fading(In, None, tick, FADE_IN_DURATION_MS))
    {
      var entityType := EntityTypeFromJob(data.job);
      this.entityId := data.entityId;
      this.jobId := data.job;
      this.headDirection := data.headDirection;
      this.direction := data.direction;
      this.movementSpeed := data.movementSpeed;
      this.healthPoints := data.healthPoints;
      this.maximumHealthPoints := data.maximumHealthPoints;
      this.sex := data.sex;
      this.activeMovement := None;
      this.entityType := entityType;
      this.details := Unavailable;
      this.animationState := AnimationState(entityType, Initial, tick);
      this.tilePosition := tilePosition;
      this.worldPosition := worldPosition;
      this.stoppedMoving := false;
      this.soundState := new SoundState();
      this.fadeState := Fading(In, None, tick, FADE_IN_DURATION_MS);
    }

    /** `Common::get_entity_part_files`: no hair id is passed, so the head would be 1. */
    function GetEntityPartFiles(names: SpriteNames): (files: seq<string>)
      reads this
      ensures |files| == if entityType == Player then 2 else 1
    {
      EntityPartFiles(names, entityType, jobId, sex, None)
    }

    /** `set_position`. */
    method SetPosition(worldMap: Map, position: TilePosition, tick: ClientTick)
      requires Valid()
      modifies this
      ensures Valid()
      ensures Fields() == Teleported(old(Fields()), worldMap, position, tick)
    {
      var lookup := worldMap.GetWorldPosition(position);
      if lookup.None? {
        return;
      }
      tilePosition := position;
      worldPosition := lookup.value;
      activeMovement := None;
      animationState := AnimationState(entityType, Idle, tick);
    }

    /**
     * `update_movement`: takes the movement out, and puts it back unless the
     * walk is over. The u32 locals `total` and `offset` are computed exactly
     * as the source does, which needs the movement's arrival order.
     * `panicked` is the `unwrap` of the direction failing; the state it
     * leaves behind is not specified.
     */
    method UpdateMovement(worldMap: Map, tick: ClientTick, c: Collaborators) returns (panicked: bool)
      requires Valid()
      modifies this
      ensures Valid()
      ensures panicked <==> Advanced(old(Fields()), worldMap, tick, c).None?
      ensures !panicked ==> Fields() == Advanced(old(Fields()), worldMap, tick, c).value
    {
      ghost var s := Fields();
      panicked := false;
      stoppedMoving := false;
      if activeMovement.None? {
        return;
      }
      var movement := activeMovement.value;
      activeMovement := None;
      ghost var taken := Fields();
      assert taken == s.(stoppedMoving := false, activeMovement := None);
      var lastStep := movement.steps[|movement.steps| - 1];
      if tick > lastStep.arrivalTimestamp {
        SetPosition(worldMap, lastStep.arrivalPosition, tick);
        stoppedMoving := true;
        assert Fields() == Teleported(taken, worldMap, lastStep.arrivalPosition, tick).(stoppedMoving := true);
        return;
      }
      var lastStepIndex := FindCurrentStep(movement.steps, tick);
      var last := movement.steps[lastStepIndex];
      var next := movement.steps[lastStepIndex + 1];
      var turned := c.tryDirection(StepDelta(last, next));
      if turned.None? {
        tilePosition := next.arrivalPosition;
        panicked := true;
        return;
      }
      HeadAlong(last, next, turned.value, worldMap, tick, c);
      activeMovement := Some(movement);
    }

    /** The walking branch of `update_movement`, with the movement taken out. */
    method HeadAlong(last: Step, next: Step, newDirection: Direction, worldMap: Map, tick: ClientTick,
                     c: Collaborators)
      requires last.arrivalTimestamp <= next.arrivalTimestamp && tick <= next.arrivalTimestamp
      modifies this
      ensures Fields() == HeadedAlong(old(Fields()), last, next, newDirection, worldMap, tick, c)
    {
      tilePosition := next.arrivalPosition;
      direction := newDirection;
      var from := worldMap.GetWorldPosition(last.arrivalPosition);
      if from.None? {
        return;
      }
      var to := worldMap.GetWorldPosition(next.arrivalPosition);
      if to.None? {
        return;
      }
      var clampedTick: U32 := Max(last.arrivalTimestamp, tick);
      var total: U32 := next.arrivalTimestamp - last.arrivalTimestamp;
      var offset: U32 := clampedTick - last.arrivalTimestamp;
      assert StepProgress(offset, total) == Progress(last, next, tick);
      worldPosition := c.lerp(from.value, to.value, offset, total);
    }

    /** `move_from_to`; `path` is what `PathFinder::find_walkable_path` returned. */
    method MoveFromTo(path: Option<seq<TilePosition>>, start: TilePosition, startingTimestamp: ClientTick,
                      diagonalSpeed: nat -> U32)
      requires Valid()
      modifies this
      ensures Valid()
      ensures Fields() == Walked(old(Fields()), path, start, startingTimestamp, diagonalSpeed)
    {
      if path.None? {
        return;
      }
      var tiles := path.value;
      if |tiles| <= 1 {
        return;
      }
      var steps := BuildSteps(tiles, start, startingTimestamp, movementSpeed, diagonalSpeed);
      if |steps| > 1 {
        activeMovement := Some(Movement(steps, startingTimestamp));
        if !animationState.IsWalking() {
          animationState := AnimationState(entityType, Walk(movementSpeed), startingTimestamp);
        }
      }
    }
  }

  // ------------------------------------------------------------- Player

  /**
   * `StatType`, with the payloads `update_stat` stores. Every variant the
   * method does not list is `OtherStat`.
   */
  datatype StatType =
    | MaximumHealthPoints(amount: nat)
    | MaximumSpellPoints(amount: nat)
    | HealthPoints(amount: nat)
    | SpellPoints(amount: nat)
    | ActivityPoints(amount: nat)
    | MaximumActivityPoints(amount: nat)
    | MovementSpeed(amount: nat)
    | BaseLevel(amount: nat)
    | JobLevel(amount: nat)
    | StatPoints(points: U32)
    | Strength(base: I32, bonus: I32)
    | Agility(base: I32, bonus: I32)
    | Vitality(base: I32, bonus: I32)
    | Intelligence(base: I32, bonus: I32)
    | Dexterity(base: I32, bonus: I32)
    | Luck(base: I32, bonus: I32)
    | StrengthStatPointCost(cost: U8)
    | AgilityStatPointCost(cost: U8)
    | VitalityStatPointCost(cost: U8)
    | IntelligenceStatPointCost(cost: U8)
    | DexterityStatPointCost(cost: U8)
    | LuckStatPointCost(cost: U8)
    | AttackSpeed(speed: U32)
    | OtherStat(code: nat)

  /**
   * One of the six attributes of a player: the base value (`strength`), the
   * bonus on top of it (`bonus_strength`) and the stat points raising it
   * costs (`strength_stat_points_cost`).
   */
  datatype AttributeStat = AttributeStat(base: I32, bonus: I32, pointCost: U8)

  /** The fields a `Player` adds to its `Common`, as one value. */
  datatype PlayerFields = PlayerFields(
    hairId: nat,
    spellPoints: nat,
    activityPoints: nat,
    maximumSpellPoints: nat,
    maximumActivityPoints: nat,
    baseLevel: nat,
    jobLevel: nat,
    statPoints: U32,
    strength: AttributeStat,
    agility: AttributeStat,
    vitality: AttributeStat,
    intelligence: AttributeStat,
    dexterity: AttributeStat,
    luck: AttributeStat,
    attackSpeed: U32)

  /** The stats update_stat writes into the player's `Common`. */
  predicate IsCommonStat(stat: StatType)
  {
    stat.MaximumHealthPoints? || stat.HealthPoints? || stat.MovementSpeed?
  }

  /**
   * The part of `Player::update_stat` that writes the player's `Common`: only
   * maximum health, health and movement speed live there, and every other
   * variant leaves it alone (in particular the walk in progress).
   */
  function CommonStatUpdated(c: CommonFields, stat: StatType): (r: CommonFields)
    ensures !IsCommonStat(stat) ==> r == c
    ensures r.activeMovement == c.activeMovement
  {
    match stat
    case MaximumHealthPoints(value) => c.(maximumHealthPoints := value)
    case HealthPoints(value) => c.(healthPoints := value)
    case MovementSpeed(value) => c.(movementSpeed := value)
    case _ => c
  }

  /** The variants that carry the base value and bonus of one attribute. */
  predicate IsBaseBonusStat(stat: StatType)
  {
    stat.Strength? || stat.Agility? || stat.Vitality? || stat.Intelligence? || stat.Dexterity? || stat.Luck?
  }

  /** The variants that carry the stat point cost of one attribute. */
  predicate IsPointCostStat(stat: StatType)
  {
    stat.StrengthStatPointCost? || stat.AgilityStatPointCost? || stat.VitalityStatPointCost? ||
    stat.IntelligenceStatPointCost? || stat.DexterityStatPointCost? || stat.LuckStatPointCost?
  }

  /**
   * The part of `Player::update_stat` that writes the player's own fields:
   * the field the variant names takes the payload (a base/bonus variant sets
   * both and keeps the point cost); the three common stats and the variants
   * the method does not list leave them alone.
   */
  function OwnStatUpdated(p: PlayerFields, stat: StatType): (r: PlayerFields)
    ensures IsCommonStat(stat) || stat.OtherStat? ==> r == p
  {
    if IsBaseBonusStat(stat) then BaseBonusUpdated(p, stat)
    else if IsPointCostStat(stat) then PointCostUpdated(p, stat)
    else ScalarStatUpdated(p, stat)
  }

  /** The arms of `OwnStatUpdated` for the player's plain counters. */
  function ScalarStatUpdated(p: PlayerFields, stat: StatType): PlayerFields
  {
    if stat.MaximumSpellPoints? then p.(maximumSpellPoints := stat.amount)
    else if stat.SpellPoints? then p.(spellPoints := stat.amount)
    else if stat.ActivityPoints? then p.(activityPoints := stat.amount)
    else if stat.MaximumActivityPoints? then p.(maximumActivityPoints := stat.amount)
    else if stat.BaseLevel? then p.(baseLevel := stat.amount)
    else if stat.JobLevel? then p.(jobLevel := stat.amount)
    else if stat.StatPoints? then p.(statPoints := stat.points)
    else if stat.AttackSpeed? then p.(attackSpeed := stat.speed)
    else p
  }

  /** The arms of `OwnStatUpdated` for the base values and bonuses. */
  function BaseBonusUpdated(p: PlayerFields, stat: StatType): PlayerFields
  {
    if stat.Strength? then p.(strength := p.strength.(base := stat.base, bonus := stat.bonus))
    else if stat.Agility? then p.(agility := p.agility.(base := stat.base, bonus := stat.bonus))
    else if stat.Vitality? then p.(vitality := p.vitality.(base := stat.base, bonus := stat.bonus))
    else if stat.Intelligence? then p.(intelligence := p.intelligence.(base := stat.base, bonus := stat.bonus))
    else if stat.Dexterity? then p.(dexterity := p.dexterity.(base := stat.base, bonus := stat.bonus))
    else if stat.Luck? then p.(luck := p.luck.(base := stat.base, bonus := stat.bonus))
    else p
  }

  /** The arms of `OwnStatUpdated` for the stat point costs. */
  function PointCostUpdated(p: PlayerFields, stat: StatType): PlayerFields
  {
    if stat.StrengthStatPointCost? then p.(strength := p.strength.(pointCost := stat.cost))
    else if stat.AgilityStatPointCost? then p.(agility := p.agility.(pointCost := stat.cost))
    else if stat.VitalityStatPointCost? then p.(vitality := p.vitality.(pointCost := stat.cost))
    else if stat.IntelligenceStatPointCost? then p.(intelligence := p.intelligence.(pointCost := stat.cost))
    else if stat.DexterityStatPointCost? then p.(dexterity := p.dexterity.(pointCost := stat.cost))
    else if stat.LuckStatPointCost? then p.(luck := p.luck.(pointCost := stat.cost))
    else p
  }

  /** `CharacterInformation`, as far as `Player::new` reads it. */
  datatype CharacterInformation = CharacterInformation(
    head: nat, spellPoints: nat, maximumSpellPoints: nat, baseLevel: nat, jobLevel: nat,
    statPoints: U32, strength: I32, agility: I32, vitality: I32, intelligence: I32, dexterity: I32, luck: I32)

  /** `Point3::origin()`: all three coordinates are +0.0. */
  const ORIGIN := Point3(F32(0), F32(0), F32(0))

  /** `Player`: the player's own character. */
  class Player {
    const common: Common
    var hairId: nat
    var spellPoints: nat
    var activityPoints: nat
    var maximumSpellPoints: nat
    var maximumActivityPoints: nat
    var baseLevel: nat
    var jobLevel: nat
    var statPoints: U32
    var strength: AttributeStat
    var agility: AttributeStat
    var vitality: AttributeStat
    var intelligence: AttributeStat
    var dexterity: AttributeStat
    var luck: AttributeStat
    var attackSpeed: U32

    function Fields(): PlayerFields
      reads this
    {
      PlayerFields(hairId, spellPoints, activityPoints, maximumSpellPoints, maximumActivityPoints,
                   baseLevel, jobLevel, statPoints, strength, agility, vitality, intelligence, dexterity, luck, attackSpeed)
    }

    ghost predicate Valid()
      reads this, common
    {
      common.Valid()
    }

    /**
     * `Player::new`: the character starts at tile (0, 0) of no map, with no
     * bonuses or costs yet, and does not fade in. `data` is what
     * `EntityData::from_character` makes of `info`.
     */
    constructor (data: EntityData, info: CharacterInformation, tick: ClientTick)
      ensures Valid() && fresh(common) && fresh(common.soundState)
      ensures Fields() == PlayerFields(info.head, info.spellPoints, 0, info.maximumSpellPoints, 0,
                                       info.baseLevel, info.jobLevel, info.statPoints, AttributeStat(info.strength, 0, 0), AttributeStat(info.agility, 0, 0), AttributeStat(info.vitality, 0, 0), AttributeStat(info.intelligence, 0, 0), AttributeStat(info.dexterity, 0, 0), AttributeStat(info.luck, 0, 0), 0)
      ensures common.Fields() == CommonFields(
                data.entityId, data.job, data.healthPoints, data.maximumHealthPoints, data.movementSpeed,
                data.direction, data.headDirection, data.sex, EntityTypeFromJob(data.job), None,
                TilePosition(0, 0), ORIGIN, Unavailable,
                AnimationState(EntityTypeFromJob(data.job), Initial, tick), false, Opaque)
    {
      var newCommon := new Common(data, TilePosition(0, 0), ORIGIN, tick);
      newCommon.fadeState := Opaque;
      common := newCommon;
      hairId := info.head;
      spellPoints := info.spellPoints;
      activityPoints := 0;
      maximumSpellPoints := info.maximumSpellPoints;
      maximumActivityPoints := 0;
      baseLevel := info.baseLevel;
      jobLevel := info.jobLevel;
      statPoints := info.statPoints;
      strength := AttributeStat(info.strength, 0, 0);
      agility := AttributeStat(info.agility, 0, 0);
      vitality := AttributeStat(info.vitality, 0, 0);
      intelligence := AttributeStat(info.intelligence, 0, 0);
      dexterity := AttributeStat(info.dexterity, 0, 0);
      luck := AttributeStat(info.luck, 0, 0);
      attackSpeed := 0;
    }

    /** `Player::get_entity_part_files`: the hair id picks the head sprite. */
    function GetEntityPartFiles(names: SpriteNames): (files: seq<string>)
      reads this, common
      ensures common.entityType == Player ==>
                |files| == 2 && files[1] == PlayerHeadPath(SexSpritePath(common.sex), HeadId(common.sex, Some(hairId)))
    {
      EntityPartFiles(names, common.entityType, common.jobId, common.sex, Some(hairId))
    }

    /**
     * `Player::update_stat`: maximum health, health and movement speed are
     * written into `Common`, every other listed variant into the player's own
     * fields; the walk in progress is never touched.
     */
    method UpdateStat(stat: StatType)
      requires Valid()
      modifies this, common
      ensures Fields() == OwnStatUpdated(old(Fields()), stat)
      ensures common.Fields() == CommonStatUpdated(old(common.Fields()), stat)
      ensures Valid()
    {
      if IsCommonStat(stat) {
        SetCommonStat(stat);
      } else if IsBaseBonusStat(stat) {
        SetBaseBonus(stat);
      } else if IsPointCostStat(stat) {
        SetPointCost(stat);
      } else {
        SetScalarStat(stat);
      }
    }

    /** The arms of `update_stat` that write into `Common`. */
    method SetCommonStat(stat: StatType)
      requires IsCommonStat(stat)
      modifies common
      ensures common.Fields() == CommonStatUpdated(old(common.Fields()), stat)
    {
      match stat
      case MaximumHealthPoints(value) => common.maximumHealthPoints := value;
      case HealthPoints(value) => common.healthPoints := value;
      case MovementSpeed(value) => common.movementSpeed := value;
    }

    /** The arms of `update_stat` that write one of the player's counters. */
    method SetScalarStat(stat: StatType)
      requires !IsCommonStat(stat) && !IsBaseBonusStat(stat) && !IsPointCostStat(stat)
      modifies this
      ensures Fields() == ScalarStatUpdated(old(Fields()), stat)
    {
      match stat
      case MaximumSpellPoints(value) => maximumSpellPoints := value;
      case SpellPoints(value) => spellPoints := value;
      case ActivityPoints(value) => activityPoints := value;
      case MaximumActivityPoints(value) => maximumActivityPoints := value;
      case BaseLevel(value) => baseLevel := value;
      case JobLevel(value) => jobLevel := value;
      case StatPoints(points) => statPoints := points;
      case AttackSpeed(speed) => attackSpeed := speed;
      case OtherStat(_) =>
    }

    /** The arms of `update_stat` that write the base value and bonus of one attribute. */
    method SetBaseBonus(stat: StatType)
      requires IsBaseBonusStat(stat)
      modifies this
      ensures Fields() == BaseBonusUpdated(old(Fields()), stat)
    {
      match stat
      case Strength(base, bonus) => strength := strength.(base := base, bonus := bonus);
      case Agility(base, bonus) => agility := agility.(base := base, bonus := bonus);
      case Vitality(base, bonus) => vitality := vitality.(base := base, bonus := bonus);
      case Intelligence(base, bonus) => intelligence := intelligence.(base := base, bonus := bonus);
      case Dexterity(base, bonus) => dexterity := dexterity.(base := base, bonus := bonus);
      case Luck(base, bonus) => luck := luck.(base := base, bonus := bonus);
    }

    /** The arms of `update_stat` that write the stat point cost of one attribute. */
    method SetPointCost(stat: StatType)
      requires IsPointCostStat(stat)
      modifies this
      ensures Fields() == PointCostUpdated(old(Fields()), stat)
    {
      match stat
      case StrengthStatPointCost(cost) => strength := strength.(pointCost := cost);
      case AgilityStatPointCost(cost) => agility := agility.(pointCost := cost);
      case VitalityStatPointCost(cost) => vitality := vitality.(pointCost := cost);
      case IntelligenceStatPointCost(cost) => intelligence := intelligence.(pointCost := cost);
      case DexterityStatPointCost(cost) => dexterity := dexterity.(pointCost := cost);
      case LuckStatPointCost(cost) => luck := luck.(pointCost := cost);
    }
  }

  // ---------------------------------------------------------------- Npc

  /** `Npc`: any entity other than the player's own character. */
  class Npc {
    const common: Common

    /** The struct literal `Self { common }` that ends `Npc::new`. */
    constructor (common: Common)
      ensures this.common == common
    {
      this.common := common;
    }
  }

  // ------------------------------------------------------------- Entity

  /** `clamp(-1, 1)` of one coordinate of `rotate_towards`. */
  function ClampUnit(v: int): (r: int)
    ensures -1 <= r <= 1
    ensures -1 <= v <= 1 ==> r == v
    ensures (r < 0 <==> v < 0) && (r > 0 <==> v > 0)
  {
    if v < -1 then -1 else if v > 1 then 1 else v
  }

  /** The clamped vector from the target tile to the entity's tile. */
  function RotationDelta(own: TilePosition, target: TilePosition): (d: (int, int))
    ensures -1 <= d.0 <= 1 && -1 <= d.1 <= 1
    ensures d == (0, 0) <==> own == target
  {
    (ClampUnit(own.x - target.x), ClampUnit(own.y - target.y))
  }

  /** `Entity`: a player or an npc, both delegating to their `Common`. */
  datatype Entity = PlayerEntity(player: Player) | NpcEntity(npc: Npc)
  {
    function GetCommon(): Common
    {
      match this
      case PlayerEntity(p) => p.common
      case NpcEntity(n) => n.common
    }

    /** `Entity::are_details_unavailable`. */
    predicate AreDetailsUnavailable(): (unavailable: bool)
      reads GetCommon()
      ensures unavailable ==> GetDetails().None?
      ensures !unavailable ==> GetCommon().details.Requested? || GetCommon().details.Available?
    {
      GetCommon().details.Unavailable?
    }

    /** `Entity::get_details`. */
    function GetDetails(): (details: Option<string>)
      reads GetCommon()
      ensures details.Some? <==> GetCommon().details.Available?
      ensures details.Some? ==> details.value == GetCommon().details.value
    {
      GetCommon().details.AsOption()
    }

    /** `set_details_requested`: the details are asked for but not there yet. */
    method SetDetailsRequested()
      modifies GetCommon()
      ensures GetCommon().Fields() == old(GetCommon().Fields()).(details := Requested)
      ensures !AreDetailsUnavailable() && GetDetails().None?
    {
      GetCommon().details := Requested;
    }

    /** `set_details`: the details are there, and `get_details` returns them. */
    method SetDetails(details: string)
      modifies GetCommon()
      ensures GetCommon().Fields() == old(GetCommon().Fields()).(details := Available(details))
      ensures !AreDetailsUnavailable() && GetDetails() == Some(details)
    {
      GetCommon().details := Available(details);
    }

    /** `set_job`; the entity type stays the one derived when the entity was made. */
    method SetJob(jobId: nat)
      modifies GetCommon()
      ensures GetCommon().Fields() == old(GetCommon().Fields()).(jobId := jobId)
    {
      GetCommon().jobId := jobId;
    }

    /** `set_hair`: only a player has a hair id; for an npc nothing changes. */
    method SetHair(hairId: nat)
      modifies if PlayerEntity? then {player} else {}
      ensures PlayerEntity? ==> player.Fields() == old(player.Fields()).(hairId := hairId)
    {
      if PlayerEntity? {
        player.hairId := hairId;
      }
    }

    /**
     * `fade_out`: fade out from the alpha reached so far, over 2000 ms for a
     * death and 500 ms for any other reason.
     */
    method FadeOut(reason: DisappearanceReason, tick: ClientTick, c: Collaborators)
      modifies GetCommon()
      ensures GetCommon().Fields() == old(GetCommon().Fields()).(fadeState := GetCommon().fadeState)
      ensures GetCommon().fadeState ==
                Fading(Out, Some(c.fadeAlpha(old(GetCommon().fadeState), tick)), tick, FadeOutDuration(reason))
    {
      var common := GetCommon();
      var duration := FadeOutDuration(reason);
      var currentAlpha := c.fadeAlpha(common.fadeState, tick);
      common.fadeState := Fading(Out, Some(currentAlpha), tick, duration);
    }

    /**
     * `rotate_towards`: face along the clamped vector from the target tile to
     * the entity's tile, when `Direction::try_from` accepts it; otherwise keep
     * the direction.
     */
    method RotateTowards(target: TilePosition, c: Collaborators)
      modifies GetCommon()
      ensures var turned := c.tryDirection(RotationDelta(old(GetCommon().tilePosition), target));
              GetCommon().Fields() == old(GetCommon().Fields()).(
                direction := if turned.Some? then turned.value else old(GetCommon().direction))
    {
      var common := GetCommon();
      var turned := c.tryDirection(RotationDelta(common.tilePosition, target));
      if turned.Some? {
        common.direction := turned.value;
      }
    }

    /** `stop_movement`: drop the walk without moving. */
    method StopMovement()
      requires GetCommon().Valid()
      modifies GetCommon()
      ensures GetCommon().Valid()
      ensures GetCommon().Fields() == old(GetCommon().Fields()).(activeMovement := None)
    {
      GetCommon().activeMovement := None;
    }

    /** `update_health`. */
    method UpdateHealth(healthPoints: nat, maximumHealthPoints: nat)
      modifies GetCommon()
      ensures GetCommon().Fields() ==
                old(GetCommon().Fields()).(healthPoints := healthPoints, maximumHealthPoints := maximumHealthPoints)
    {
      var common := GetCommon();
      common.healthPoints := healthPoints;
      common.maximumHealthPoints := maximumHealthPoints;
    }

    /** `Entity::get_entity_part_files`: only a player passes its hair id. */
    function GetEntityPartFiles(names: SpriteNames): (files: seq<string>)
      reads GetCommon(), if PlayerEntity? then {player} else {}
      ensures |files| == if GetCommon().entityType == Player then 2 else 1
      ensures NpcEntity? && GetCommon().entityType == Player ==>
                files[1] == PlayerHeadPath(SexSpritePath(GetCommon().sex), 1)
    {
      match this
      case PlayerEntity(p) => p.GetEntityPartFiles(names)
      case NpcEntity(n) => n.common.GetEntityPartFiles(names)
    }
  }
}
