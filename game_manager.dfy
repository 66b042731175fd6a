/** The game session (GameManager.hpp / GameManager.cpp): constants, the
    game state record, the range mapping with decimal rounding, and the
    GameManager that owns the table of entities and updates it frame by
    frame. rand(), the elapsed time and the key and mouse state are
    parameters; GameOver, which prints the score and exits, ends the session
    with the truncated score. */
module Skyroads {
  import opened Vectors
  import opened Physics
  import opened Colliders
  import opened CollisionManager
  import opened GameObjects

  // ---------------------------------------------------------------- constants

  const LanesX: seq<real> := [-3.5, 0.0, 3.5]
  const PlayerStartingPosition: Vec3 := Vec3(0.0, 2.0, 25.0)
  const MaxSpeed: real := 0.175
  const MinSpeed: real := 0.0075
  const SpeedStep: real := 0.001
  const LateralSpeed: real := 5.0
  const ForcedSpeedTime: real := 5.0
  const PowerAnimationTime: real := 2.0
  const MaxLives: int := 3
  const MaxPlatforms: int := 15
  const MinPlatformGap: int := 5
  /** `const int maxPlatformGap = platformLength`: the conversion truncates. */
  const MaxPlatformGap: int := PlatformLength.Floor
  const SimplePlatPercent: int := 60
  const NoSpawnRange: real := 10.0
  const OutOfBoundY: real := -3.5
  const MaxFuel: real := 100.0
  const FuelGain: real := 0.33 * MaxFuel
  const FuelLoss: real := 0.10 * MaxFuel
  const FuelFlow: real := 2.5
  const MinFov: real := 60.0
  const MaxFov: real := 90.0
  /** The upward speed given by a jump. */
  const JumpSpeed: real := 3.33

  // --------------------------------------------------------------- game state

  datatype Vec2 = Vec2(x: real, y: real)

  datatype CameraSettings = CameraSettings(cameraFOV: real, cameraMode: bool, cameraRotation: Vec2)

  /** `lives` is a float in the source that only ever holds whole numbers. */
  datatype PlayerState = PlayerState(
    fuel: real,
    isFullSpeed: bool,
    forcedSpeedStart: real,
    lives: int,
    playerSpeed: real,
    oldPlayerSpeed: real)

  datatype GameState = GameState(
    cameraSettings: CameraSettings,
    playerState: PlayerState,
    points: real,
    nextPlatformSpawn: seq<real>,
    platformCount: int)

  /** Running, or ended by GameOver with the score it printed. */
  datatype Status = Running | Over(score: int)

  /** The whole session as a value: the entity table, the state, the status. */
  datatype World = World(objects: map<int, GameObjectData>, state: GameState, status: Status)

  /** The keys held this frame (A, D, W, S). */
  datatype Keys = Keys(left: bool, right: bool, faster: bool, slower: bool)

  /** The keys whose press the game reacts to. */
  datatype Key = KeyC | KeySpace | OtherKey

  /** The default GameState: full fuel, one life, speed 0.05, FOV 75, one
      spawn cursor per lane, no platform yet. */
  function InitialGameState(): (g: GameState)
    ensures g.playerState.fuel == MaxFuel && 1 <= g.playerState.lives <= MaxLives
    ensures MinSpeed <= g.playerState.playerSpeed <= MaxSpeed
    ensures g.playerState.oldPlayerSpeed == g.playerState.playerSpeed && !g.playerState.isFullSpeed
    ensures MinFov <= g.cameraSettings.cameraFOV <= MaxFov && g.cameraSettings.cameraMode
    ensures |g.nextPlatformSpawn| == |LanesX| && g.platformCount == 0 && g.points == 0.0
  {
    GameState(
      CameraSettings(75.0, true, Vec2(0.0, 0.0)),
      PlayerState(MaxFuel, false, 0.0, 1, 0.05, 0.05),
      0.0,
      [PlayerStartingPosition.z, PlayerStartingPosition.z + 1.0, PlayerStartingPosition.z],
      0)
  }

  /** The derived constants: the gap range is not empty, a gain is a third
      of the tank and a loss a tenth. */
  lemma DerivedConstants()
    ensures MaxPlatformGap == 33 && MinPlatformGap < MaxPlatformGap
    ensures FuelGain == 33.0 && FuelLoss == 10.0
    ensures MinSpeed < MaxSpeed && MinFov < MaxFov
  {
  }

  // ------------------------------------------------------- numeric helpers

  function Pow10(p: nat): (r: nat)
    ensures r >= 1
  {
    if p == 0 then 1 else 10 * Pow10(p - 1)
  }

  /** C's round: to the nearest integer, halves away from zero. */
  function Round(x: real): (r: int)
    ensures x - 0.5 <= r as real <= x + 0.5
    ensures x >= 0.0 ==> r >= 0
  {
    if x >= 0.0 then (x + 0.5).Floor else -((0.5 - x).Floor)
  }

  /** A conversion to int: toward zero. */
  function Trunc(x: real): (r: int)
    ensures x >= 0.0 ==> 0 <= r && r as real <= x < r as real + 1.0
    ensures x < 0.0 ==> r <= 0 && r as real - 1.0 < x <= r as real
  {
    if x >= 0.0 then x.Floor else -((-x).Floor)
  }

  /** Rounding an integer gives it back. */
  lemma RoundInteger(n: int)
    ensures Round(n as real) == n
  {
    if n < 0 {
      assert (0.5 - n as real).Floor == -n;
    }
  }

  /** Rounding keeps a value between two integers between them. */
  lemma RoundWithin(x: real, lo: int, hi: int)
    requires lo as real <= x <= hi as real
    ensures lo <= Round(x) <= hi
  {
  }

  /** The affine map of the source range onto the target range, before
      rounding. */
  function Affine(source: real, fromA: real, fromB: real, toA: real, toB: real): real
    requires fromA != fromB
  {
    var scale := (toB - toA) / (fromB - fromA);
    var offset := (-1.0 * fromA) * scale + toA;
    source * scale + offset
  }

  /** mapBetweenRanges: the affine map, rounded to `decimalPrecision`
      decimals. */
  function MapBetweenRanges(source: real, fromA: real, fromB: real, toA: real, toB: real,
                            decimalPrecision: nat): real
    requires fromA != fromB
  {
    RoundTo(Affine(source, fromA, fromB, toA, toB), decimalPrecision)
  }

  /** `round(x * 10^p) / 10^p`: x rounded to p decimals. */
  function RoundTo(x: real, p: nat): real
  {
    RoundScaled(x, Pow10(p) as real)
  }

  /** `round(x * c) / c`. */
  function RoundScaled(x: real, c: real): real
    requires c > 0.0
  {
    Round(x * c) as real / c
  }

  /** The affine map sends the ends of the source range to the ends of the
      target range. */
  lemma AffineEnds(fromA: real, fromB: real, toA: real, toB: real)
    requires fromA != fromB
    ensures Affine(fromA, fromA, fromB, toA, toB) == toA
    ensures Affine(fromB, fromA, fromB, toA, toB) == toB
  {
    var scale := (toB - toA) / (fromB - fromA);
    assert scale * (fromB - fromA) == toB - toA;
    calc {
      Affine(fromB, fromA, fromB, toA, toB);
      == fromB * scale + ((-1.0 * fromA) * scale + toA);
      == scale * (fromB - fromA) + toA;
      == toB;
    }
  }

  /** Over an increasing source range and a non-decreasing target range, a
      source inside the range maps inside the target range. */
  lemma AffineWithin(source: real, fromA: real, fromB: real, toA: real, toB: real)
    requires fromA < fromB && toA <= toB && fromA <= source <= fromB
    ensures toA <= Affine(source, fromA, fromB, toA, toB) <= toB
  {
    var scale := (toB - toA) / (fromB - fromA);
    assert scale * (fromB - fromA) == toB - toA;
    assert scale >= 0.0;
    var f := Affine(source, fromA, fromB, toA, toB);
    assert f == toA + (source - fromA) * scale;
    NonNegativeProduct(source - fromA, scale);
    NonNegativeProduct(fromB - source, scale);
    assert toB - f == (fromB - source) * scale;
  }

  lemma NonNegativeProduct(a: real, b: real)
    requires a >= 0.0 && b >= 0.0
    ensures a * b >= 0.0
  {
  }

  /** The result is the affine value up to half a unit of the last kept
      decimal. */
  lemma MapRoundsAffine(source: real, fromA: real, fromB: real, toA: real, toB: real, p: nat)
    requires fromA != fromB
    ensures var c := Pow10(p) as real;
            var f := Affine(source, fromA, fromB, toA, toB);
            f * c - 0.5 <= MapBetweenRanges(source, fromA, fromB, toA, toB, p) * c <= f * c + 0.5
  {
    var f := Affine(source, fromA, fromB, toA, toB);
    assert MapBetweenRanges(source, fromA, fromB, toA, toB, p) == RoundTo(f, p);
    RoundToWithin(f, p);
  }

  lemma RoundToWithin(x: real, p: nat)
    ensures var c := Pow10(p) as real;
            x * c - 0.5 <= RoundTo(x, p) * c <= x * c + 0.5
  {
    RoundedWithin(x, Pow10(p) as real);
  }

  lemma RoundedWithin(x: real, c: real)
    requires c > 0.0
    ensures x * c - 0.5 <= RoundScaled(x, c) * c <= x * c + 0.5
  {
    var r := Round(x * c) as real;
    assert (r / c) * c == r;
  }

  /** At the start of the source range the result is exactly the start of
      the target range, provided that start has at most `p` decimals. */
  lemma MapAtStart(fromA: real, fromB: real, toA: real, toB: real, p: nat, n: int)
    requires fromA != fromB
    requires toA * (Pow10(p) as real) == n as real
    ensures MapBetweenRanges(fromA, fromA, fromB, toA, toB, p) == toA
  {
    AffineEnds(fromA, fromB, toA, toB);
    RoundToExact(toA, p, n);
  }

  /** A value with at most p decimals is kept by the rounding. */
  lemma RoundToExact(x: real, p: nat, n: int)
    requires x * (Pow10(p) as real) == n as real
    ensures RoundTo(x, p) == x
  {
    RoundedExact(x, Pow10(p) as real, n);
  }

  lemma RoundedExact(x: real, c: real, n: int)
    requires c > 0.0 && x * c == n as real
    ensures RoundScaled(x, c) == x
  {
    RoundInteger(n);
    assert Round(x * c) as real == x * c;
  }

  /** A speed within its range maps within [lo/10, hi/10] at one decimal,
      for target ends lo/10 and hi/10. */
  lemma SpeedMapWithin(speed: real, lo: int, hi: int)
    requires lo <= hi
    ensures var m := MapBetweenRanges(speed, MinSpeed, MaxSpeed, lo as real / 10.0, hi as real / 10.0, 1);
            MinSpeed <= speed <= MaxSpeed ==> lo as real / 10.0 <= m <= hi as real / 10.0
  {
    if !(MinSpeed <= speed <= MaxSpeed) {
      return;
    }
    var toA := lo as real / 10.0;
    var toB := hi as real / 10.0;
    AffineWithin(speed, MinSpeed, MaxSpeed, toA, toB);
    RoundToOneDecimal(Affine(speed, MinSpeed, MaxSpeed, toA, toB), lo, hi);
  }

  /** Rounding to one decimal keeps a value between two one-decimal bounds
      between them. */
  lemma RoundToOneDecimal(x: real, lo: int, hi: int)
    requires lo as real / 10.0 <= x <= hi as real / 10.0
    ensures lo as real / 10.0 <= RoundTo(x, 1) <= hi as real / 10.0
  {
    assert Pow10(1) == 10;
    RoundWithin(x * 10.0, lo, hi);
  }

  /** The camera FOV for a speed: 60 at the minimum speed, 90 at the
      maximum, at one decimal. */
  function FovFor(speed: real): (fov: real)
    ensures MinSpeed <= speed <= MaxSpeed ==> MinFov <= fov <= MaxFov
  {
    SpeedMapWithin(speed, 600, 900);
    MapBetweenRanges(speed, MinSpeed, MaxSpeed, MinFov, MaxFov, 1)
  }

  /** The fuel burn factor for a speed, from 0.5 to 1.5. */
  function FuelFactor(speed: real): (k: real)
    ensures MinSpeed <= speed <= MaxSpeed ==> 0.5 <= k <= 1.5
  {
    SpeedMapWithin(speed, 5, 15);
    MapBetweenRanges(speed, MinSpeed, MaxSpeed, 0.5, 1.5, 1)
  }

  /** The effect platform index: a roll of 60..99 remapped onto 0..9 and
      converted to int. */
  function EffectIndex(platType: int): int
  {
    Trunc(MapBetweenRanges(platType as real, SimplePlatPercent as real, 100.0, 0.0, 9.0, 1))
  }

  /** Every roll from 60 to 99 lands on an index from 0 to 8, so an effect
      platform is always chosen. */
  lemma EffectIndexRange(platType: int)
    requires SimplePlatPercent <= platType < 100
    ensures 0 <= EffectIndex(platType) <= 8
  {
    var f := Affine(platType as real, 60.0, 100.0, 0.0, 9.0);
    assert f == platType as real * 0.225 - 13.5;
    RoundToOneDecimal(f, 0, 88);
  }

  // ---------------------------------------------------------- the entity table

  /** `gameObjects[id]`: the entry, or the default object the map would
      insert for an absent key. */
  function Entry(objects: map<int, GameObjectData>, id: int): GameObjectData
  {
    if id in objects then objects[id] else DefaultGameObject()
  }

  /** Reading a present key leaves the table as it was. */
  lemma EntryPresent(objects: map<int, GameObjectData>, id: int)
    requires id in objects
    ensures objects[id := Entry(objects, id)] == objects
  {
  }

  /** std::max_element: the first index holding the largest value. */
  function FirstArgMax(s: seq<real>): (i: nat)
    requires |s| > 0
    ensures i < |s|
    ensures forall j :: 0 <= j < |s| ==> s[j] <= s[i]
    ensures forall j :: 0 <= j < i ==> s[j] < s[i]
  {
    if |s| == 1 then 0
    else
      var k := FirstArgMax(s[1..]) + 1;
      assert forall j :: 1 <= j < |s| ==> s[j] == s[1..][j - 1];
      if s[0] < s[k] then k else 0
  }

  // ------------------------------------------------------------------ player

  /** The speed after this frame's keys: A and D leave it alone; W and S
      step it up or down, clamped to the speed range, unless forced full
      speed is on. */
  function SpeedAfterKeys(speed: real, keys: Keys, isFullSpeed: bool): (r: real)
    ensures MinSpeed <= speed <= MaxSpeed ==> MinSpeed <= r <= MaxSpeed
    ensures isFullSpeed || keys.left || keys.right || (!keys.faster && !keys.slower) ==> r == speed
    ensures !isFullSpeed && !keys.left && !keys.right && keys.faster ==>
              (r == speed + SpeedStep || r == MaxSpeed) && r <= speed + SpeedStep
    ensures !isFullSpeed && !keys.left && !keys.right && !keys.faster && keys.slower ==>
              (r == speed - SpeedStep || r == MinSpeed) && r >= speed - SpeedStep
  {
    if keys.left || keys.right || isFullSpeed then speed
    else if keys.faster then
      var up := speed + SpeedStep;
      if up > MaxSpeed then MaxSpeed else up
    else if keys.slower then
      var down := speed - SpeedStep;
      if down < MinSpeed then MinSpeed else down
    else speed
  }

  /** The player's body after UpdatePlayer: moved forward (down z) by the
      current speed, with the lateral velocity set by A or D. */
  function Steered(player: GameObjectData, speed: real, keys: Keys): (p: GameObjectData)
    ensures p.rigidbody.state.x == player.rigidbody.state.x.(z := player.rigidbody.state.x.z - speed)
    ensures keys.left ==> p.rigidbody.state.v.x == -LateralSpeed
    ensures !keys.left && keys.right ==> p.rigidbody.state.v.x == LateralSpeed
    ensures !keys.left && !keys.right ==> p.rigidbody.state.v.x == player.rigidbody.state.v.x
    ensures p.rigidbody.state.v.y == player.rigidbody.state.v.y && p.rigidbody.state.v.z == player.rigidbody.state.v.z
    ensures p == player.(rigidbody := p.rigidbody)
    ensures p.rigidbody == player.rigidbody.(state := p.rigidbody.state)
  {
    var s := player.rigidbody.state;
    var vx := if keys.left then -LateralSpeed else if keys.right then LateralSpeed else s.v.x;
    player.(rigidbody := player.rigidbody.(state := s.(x := s.x.(z := s.x.z - speed), v := s.v.(x := vx))))
  }

  /** ComputeScore: the distance travelled along z from the start. */
  function Score(player: GameObjectData): (points: real)
    ensures points >= 0.0
    ensures points == player.rigidbody.state.x.z - PlayerStartingPosition.z ||
            points == PlayerStartingPosition.z - player.rigidbody.state.x.z
  {
    var d := player.rigidbody.state.x.z - PlayerStartingPosition.z;
    if d < 0.0 then -d else d
  }

  /** The fuel burnt over a frame, and the life lost when the tank runs dry:
      the fuel is refilled only while lives remain. */
  function BurnFuel(ps: PlayerState, deltaTime: real): (r: PlayerState)
    ensures var burnt := ps.fuel - deltaTime * FuelFlow * FuelFactor(ps.playerSpeed);
            && (burnt > 0.0 ==> r.fuel == burnt && r.lives == ps.lives)
            && (burnt <= 0.0 ==> r.lives == ps.lives - 1)
            && (burnt <= 0.0 && r.lives > 0 ==> r.fuel == MaxFuel)
            && (burnt <= 0.0 && r.lives <= 0 ==> r.fuel == burnt)
    ensures r.lives > 0 ==> r.fuel > 0.0
    ensures r == ps.(fuel := r.fuel, lives := r.lives)
  {
    var fuel := ps.fuel - deltaTime * FuelFlow * FuelFactor(ps.playerSpeed);
    if fuel <= 0.0 then
      var lives := ps.lives - 1;
      ps.(fuel := if lives > 0 then MaxFuel else fuel, lives := lives)
    else ps.(fuel := fuel)
  }

  /** With a non-negative frame time and a speed in range, a frame never
      adds fuel unless it refills an empty tank. */
  lemma BurnNeverAddsFuel(ps: PlayerState, deltaTime: real)
    requires deltaTime >= 0.0 && MinSpeed <= ps.playerSpeed <= MaxSpeed
    ensures BurnFuel(ps, deltaTime).fuel <= ps.fuel || BurnFuel(ps, deltaTime).fuel == MaxFuel
  {
    var k := FuelFactor(ps.playerSpeed);
    NonNegativeProduct(deltaTime * FuelFlow, k);
  }

  /** The forced full speed ends once its time is up, restoring the speed
      saved when it began. */
  function ExpireForcedSpeed(ps: PlayerState, elapsedTime: real): (r: PlayerState)
    ensures ps.isFullSpeed && elapsedTime - ps.forcedSpeedStart >= ForcedSpeedTime ==>
              !r.isFullSpeed && r.playerSpeed == ps.oldPlayerSpeed
    ensures !(ps.isFullSpeed && elapsedTime - ps.forcedSpeedStart >= ForcedSpeedTime) ==> r == ps
    ensures r == ps.(isFullSpeed := r.isFullSpeed, playerSpeed := r.playerSpeed)
  {
    if ps.isFullSpeed && elapsedTime - ps.forcedSpeedStart >= ForcedSpeedTime then
      ps.(isFullSpeed := false, playerSpeed := ps.oldPlayerSpeed)
    else ps
  }

  // -------------------------------------------------------------- collisions

  /** setDistorted on the player (key 0), through `gameObjects[0]`. */
  function Distort(objects: map<int, GameObjectData>, time: real): map<int, GameObjectData>
  {
    objects[0 := Entry(objects, 0).(distortedTime := time)]
  }

  /** The power-up of a platform colour other than red, on the entity table
      and the player state: yellow costs fuel, orange forces full speed,
      green adds fuel up to the maximum, white adds a life below the
      maximum; each of these also distorts the player's view. Any other
      colour does nothing. */
  function PowerUp(objects: map<int, GameObjectData>, ps: PlayerState, colour: string, now: real)
    : (map<int, GameObjectData>, PlayerState)
  {
    if colour == "yellow" then
      (Distort(objects, PowerAnimationTime), ps.(fuel := ps.fuel - FuelLoss))
    else if colour == "orange" then
      (Distort(objects, ForcedSpeedTime),
       ps.(isFullSpeed := true, forcedSpeedStart := now, oldPlayerSpeed := ps.playerSpeed,
           playerSpeed := MaxSpeed))
    else if colour == "green" then
      var fuel := ps.fuel + FuelGain;
      (Distort(objects, PowerAnimationTime), ps.(fuel := if fuel > MaxFuel then MaxFuel else fuel))
    else if colour == "white" && ps.lives < MaxLives then
      (Distort(objects, PowerAnimationTime), ps.(lives := ps.lives + 1))
    else (objects, ps)
  }

  /** The power-ups keep the fuel at most MaxFuel and the lives at most
      MaxLives, and change only the player's entry of the table. */
  lemma PowerUpBounds(objects: map<int, GameObjectData>, ps: PlayerState, colour: string, now: real)
    requires ps.fuel <= MaxFuel && ps.lives <= MaxLives
    ensures var r := PowerUp(objects, ps, colour, now);
            r.1.fuel <= MaxFuel && r.1.lives <= MaxLives
  {
  }

  /** The colours "purple" and "red" are not power-ups. */
  lemma NotPowerUps()
    ensures "purple" != "yellow" && "purple" != "orange" && "purple" != "green" && "purple" != "white"
    ensures "purple" != "red"
  {
    assert "purple"[0] != "yellow"[0] && "purple"[0] != "orange"[0];
    assert |"purple"| != |"green"| && |"purple"| != |"white"| && |"purple"| != |"red"|;
  }

  /** The effect of one collided id on the session, and whether CheckCollisions
      stops there. Reading an absent id inserts a default object; an object
      that is not a platform stops the whole pass; red ends the game; every
      other platform applies its colour's power-up and turns purple. */
  function CollisionEffect(w: World, id: int, now: real): (World, bool)
  {
    var objects := w.objects[id := Entry(w.objects, id)];
    var o := objects[id];
    if !IsPlatform(o) then (w.(objects := objects), true)
    else
      var colour := Suffix(o.typeName);
      if colour == "red" then (w.(objects := objects, status := Over(Trunc(w.state.points))), true)
      else
        var after := PowerUp(objects, w.state.playerState, colour, now);
        var retyped := after.0[id := Entry(after.0, id).(typeName := "platform_purple")];
        (World(retyped, w.state.(playerState := after.1), w.status), false)
  }

  /** The outcome of a CheckCollisions pass: the new session, and whether
      the pass stopped early. */
  datatype Outcome = Outcome(world: World, stopped: bool)

  /** CheckCollisions over a list of ids, in order. */
  function ApplyCollisions(w: World, ids: seq<int>, now: real): Outcome
    decreases |ids|
  {
    if ids == [] then Outcome(w, false)
    else
      var step := CollisionEffect(w, ids[0], now);
      if step.1 then Outcome(step.0, true) else ApplyCollisions(step.0, ids[1..], now)
  }

  /** A pass over `xs + ys` is a pass over `xs` followed, unless it stopped,
      by a pass over `ys`. */
  lemma {:induction false} ApplyAppend(w: World, xs: seq<int>, ys: seq<int>, now: real)
    ensures var first := ApplyCollisions(w, xs, now);
            ApplyCollisions(w, xs + ys, now) ==
              if first.stopped then first else ApplyCollisions(first.world, ys, now)
    decreases |xs|
  {
    if xs == [] {
      assert xs + ys == ys;
    } else {
      assert (xs + ys)[0] == xs[0];
      assert (xs + ys)[1..] == xs[1..] + ys;
      var step := CollisionEffect(w, xs[0], now);
      if !step.1 {
        ApplyAppend(step.0, xs[1..], ys, now);
      }
    }
  }

  lemma PurpleIsPlatform()
    ensures StartsWith("platform_purple", "platform_") && Suffix("platform_purple") == "purple"
  {
    assert "platform_purple" == "platform" + "_" + "purple";
    SuffixOfTagged("platform", "purple");
  }

  lemma RedIsPlatform()
    ensures StartsWith("platform_red", "platform_") && Suffix("platform_red") == "red"
  {
    assert "platform_red" == "platform" + "_" + "red";
    SuffixOfTagged("platform", "red");
  }

  /** A step that does not stop keeps every key, changes only the collided
      entry's type (to purple) among the types, and leaves the status. */
  lemma StepKeepsTypes(w: World, id: int, now: real)
    requires !CollisionEffect(w, id, now).1
    ensures var w' := CollisionEffect(w, id, now).0;
            && w'.status == w.status
            && id in w'.objects && w'.objects[id].typeName == "platform_purple"
            && forall k :: k in w.objects ==>
                 (k in w'.objects && (k != id ==> w'.objects[k].typeName == w.objects[k].typeName))
  {
    var objects := w.objects[id := Entry(w.objects, id)];
    PowerUpKeepsTypes(objects, w.state.playerState, Suffix(objects[id].typeName), now);
  }

  /** A power-up only touches the player's distortion: every entry keeps
      its key and its type. */
  lemma PowerUpKeepsTypes(objects: map<int, GameObjectData>, ps: PlayerState, colour: string, now: real)
    ensures var r := PowerUp(objects, ps, colour, now).0;
            forall k :: k in objects ==> k in r && r[k].typeName == objects[k].typeName
  {
  }

  /** After a pass that did not stop, every id it visited is a purple
      platform present in the table. */
  lemma {:induction false} PassMarksPurple(w: World, ids: seq<int>, now: real)
    requires !ApplyCollisions(w, ids, now).stopped
    ensures var w' := ApplyCollisions(w, ids, now).world;
            && w'.status == w.status
            && (forall k :: k in w.objects ==> k in w'.objects)
            && (forall k :: k in w.objects && w.objects[k].typeName == "platform_purple" ==>
                  w'.objects[k].typeName == "platform_purple")
            && forall i :: 0 <= i < |ids| ==> ids[i] in w'.objects && w'.objects[ids[i]].typeName == "platform_purple"
    decreases |ids|
  {
    if ids != [] {
      var step := CollisionEffect(w, ids[0], now);
      StepKeepsTypes(w, ids[0], now);
      PassMarksPurple(step.0, ids[1..], now);
      var w' := ApplyCollisions(w, ids, now).world;
      forall i | 0 <= i < |ids|
        ensures ids[i] in w'.objects && w'.objects[ids[i]].typeName == "platform_purple"
      {
        if i > 0 {
          assert ids[i] == ids[1..][i - 1];
        }
      }
    }
  }

  /** A purple platform has no effect, so a pass over ids that are all
      purple platforms changes nothing. */
  lemma {:induction false} PurplePassIsIdle(w: World, ids: seq<int>, now: real)
    requires forall id :: id in ids ==> id in w.objects && w.objects[id].typeName == "platform_purple"
    ensures ApplyCollisions(w, ids, now) == Outcome(w, false)
    decreases |ids|
  {
    if ids != [] {
      PurpleStepIsIdle(w, ids[0], now);
      PurplePassIsIdle(w, ids[1..], now);
    }
  }

  lemma PurpleStepIsIdle(w: World, id: int, now: real)
    requires id in w.objects && w.objects[id].typeName == "platform_purple"
    ensures CollisionEffect(w, id, now) == (w, false)
  {
    PurpleIsPlatform();
    NotPowerUps();
    EntryPresent(w.objects, id);
    assert PowerUp(w.objects, w.state.playerState, "purple", now) == (w.objects, w.state.playerState);
    assert w.objects[id := w.objects[id].(typeName := "platform_purple")] == w.objects;
  }

  /** Each platform's effect fires at most once: handing the same ids to
      CheckCollisions twice in a row is the same as handing them once. */
  lemma CollisionsIdempotent(w: World, ids: seq<int>, now: real)
    ensures ApplyCollisions(w, ids + ids, now) == ApplyCollisions(w, ids, now)
  {
    ApplyAppend(w, ids, ids, now);
    var first := ApplyCollisions(w, ids, now);
    if !first.stopped {
      PassMarksPurple(w, ids, now);
      PurplePassIsIdle(first.world, ids, now);
    }
  }

  /** CheckCollisions keeps the fuel at most MaxFuel and the lives at most
      MaxLives: yellow only removes fuel, green tops up to the maximum and
      white adds a life only below the maximum. */
  lemma {:induction false} CollisionsKeepBounds(w: World, ids: seq<int>, now: real)
    requires w.state.playerState.fuel <= MaxFuel && w.state.playerState.lives <= MaxLives
    ensures var ps := ApplyCollisions(w, ids, now).world.state.playerState;
            ps.fuel <= MaxFuel && ps.lives <= MaxLives
    decreases |ids|
  {
    if ids != [] {
      var step := CollisionEffect(w, ids[0], now);
      if !step.1 {
        var objects := w.objects[ids[0] := Entry(w.objects, ids[0])];
        PowerUpBounds(objects, w.state.playerState, Suffix(objects[ids[0]].typeName), now);
        CollisionsKeepBounds(step.0, ids[1..], now);
      }
    }
  }

  /** A red platform ends the game with the truncated score, and nothing
      after it in the list is processed. */
  lemma RedEndsGame(w: World, id: int, rest: seq<int>, now: real)
    requires id in w.objects && w.objects[id].typeName == "platform_red"
    ensures ApplyCollisions(w, [id] + rest, now) ==
            Outcome(w.(status := Over(Trunc(w.state.points))), true)
  {
    RedIsPlatform();
    EntryPresent(w.objects, id);
    assert Suffix(w.objects[id].typeName) == "red";
    assert CollisionEffect(w, id, now) == (w.(status := Over(Trunc(w.state.points))), true);
    var ids := [id] + rest;
    assert ids != [] && ids[0] == id;
  }

  // --------------------------------------------------------------- platforms

  /** The type of platform a roll of rand() spawns: blue below 60, otherwise
      the effect index picks red, yellow, green, orange or white. */
  function SpawnKind(platRoll: nat): Option<string>
  {
    var platType := platRoll % 100;
    if platType < SimplePlatPercent then Some("platform_blue")
    else
      var effect := EffectIndex(platType);
      if effect < 1 then Some("platform_red")
      else if effect < 4 then Some("platform_yellow")
      else if effect < 6 then Some("platform_green")
      else if effect < 8 then Some("platform_orange")
      else if effect < 9 then Some("platform_white")
      else None
  }

  /** Every roll spawns a platform. */
  lemma SpawnKindIsPlatform(platRoll: nat)
    ensures SpawnKind(platRoll).Some? && StartsWith(SpawnKind(platRoll).value, "platform_")
  {
    var platType := platRoll % 100;
    if platType >= SimplePlatPercent {
      EffectIndexRange(platType);
    }
    var t := SpawnKind(platRoll).value;
    assert t[..9] == "platform_";
  }

  /** The gap drawn by rand() % (maxPlatformGap - minPlatformGap) +
      minPlatformGap. */
  function Gap(gapRoll: nat): (gap: int)
    ensures MinPlatformGap <= gap < MaxPlatformGap
  {
    gapRoll % (MaxPlatformGap - MinPlatformGap) + MinPlatformGap
  }

  /** The spawning half of PlatformManagement, with `nextId` the value of the
      id counter: below the platform limit, a platform of the rolled kind is
      put at the cursor of the first lane whose cursor is largest, the count
      rises by one and that cursor moves back by a platform length plus the
      gap. */
  function Spawn(w: World, nextId: int, platRoll: nat, gapRoll: nat): World
    requires |w.state.nextPlatformSpawn| == |LanesX|
  {
    if w.state.platformCount < MaxPlatforms then
      w.(objects := SpawnedObjects(w.objects, w.state.nextPlatformSpawn, nextId, SpawnKind(platRoll)),
         state := SpawnedState(w.state, gapRoll))
    else w
  }

  /** The table with the new platform, at the cursor of the lane picked. */
  function SpawnedObjects(objects: map<int, GameObjectData>, nps: seq<real>, nextId: int, kind: Option<string>)
    : map<int, GameObjectData>
    requires |nps| == |LanesX|
  {
    var lane := FirstArgMax(nps);
    match kind
    case Some(t) => objects[nextId := Construct(t, Vec3(LanesX[lane], -0.125, nps[lane]), nextId, 0)]
    case None => objects
  }

  /** One more platform, and the picked lane's cursor moved back by a
      platform length plus the gap. */
  function SpawnedState(s: GameState, gapRoll: nat): GameState
    requires |s.nextPlatformSpawn| > 0
  {
    var nps := s.nextPlatformSpawn;
    var lane := FirstArgMax(nps);
    s.(platformCount := s.platformCount + 1,
       nextPlatformSpawn := nps[lane := nps[lane] - (PlatformLength + Gap(gapRoll) as real)])
  }

  /** Exactly one platform is added, under the fresh id, at the cursor of
      the lane picked; every other entry stays as it was. */
  lemma SpawnAddsOnePlatform(objects: map<int, GameObjectData>, nps: seq<real>, nextId: int, kind: Option<string>)
    requires |nps| == |LanesX| && nextId !in objects
    requires kind.Some? && StartsWith(kind.value, "platform_")
    ensures var objects' := SpawnedObjects(objects, nps, nextId, kind);
            var lane := FirstArgMax(nps);
            && objects'.Keys == objects.Keys + {nextId}
            && |objects'| == |objects| + 1
            && (forall k :: k in objects ==> objects'[k] == objects[k])
            && IsPlatform(objects'[nextId])
            && objects'[nextId].position == Vec3(LanesX[lane], -0.125, nps[lane])
  {
    var t := kind.value;
    var lane := FirstArgMax(nps);
    var pos := Vec3(LanesX[lane], -0.125, nps[lane]);
    var o := Construct(t, pos, nextId, 0);
    SpawnedPlatform(t, pos, nextId);
    AddFresh(objects, nextId, o);
    assert SpawnedObjects(objects, nps, nextId, kind) == objects[nextId := o];
  }

  /** Storing under a fresh key adds exactly that key. */
  lemma AddFresh(m: map<int, GameObjectData>, k: int, v: GameObjectData)
    requires k !in m
    ensures m[k := v].Keys == m.Keys + {k} && |m[k := v]| == |m| + 1
    ensures forall j :: j in m ==> m[k := v][j] == m[j]
  {
  }

  /** Only the picked lane's cursor moves, back by 38.3 to 65.3, and the
      count rises by one. */
  lemma SpawnMovesOneCursor(s: GameState, gapRoll: nat)
    requires |s.nextPlatformSpawn| == |LanesX|
    ensures var s' := SpawnedState(s, gapRoll);
            var nps := s.nextPlatformSpawn;
            var lane := FirstArgMax(nps);
            && s'.platformCount == s.platformCount + 1
            && |s'.nextPlatformSpawn| == |nps|
            && (forall i :: 0 <= i < |nps| && i != lane ==> s'.nextPlatformSpawn[i] == nps[i])
            && nps[lane] - 65.3 <= s'.nextPlatformSpawn[lane] <= nps[lane] - 38.3
  {
    DerivedConstants();
  }

  /** A spawned platform keeps its type and sits with its top at the
      platform height, at the lane and cursor it was given. */
  lemma SpawnedPlatform(t: string, pos: Vec3, id: int)
    requires StartsWith(t, "platform_") && pos.y == -0.125
    ensures IsPlatform(Construct(t, pos, id, 0)) && Construct(t, pos, id, 0).position == pos
    ensures Construct(t, pos, id, 0).collider == Some(ColliderData(id, BoxCollider, true, 0.0, Origin, PlatformScale))
  {
    assert t == "platform_" + t[9..];
    PlatformPlacement(t[9..], pos, id, 0);
  }

  /** The platforms more than half a platform plus the no-spawn range
      behind the player's position. */
  function BehindKeys(objects: map<int, GameObjectData>, playerZ: real): set<int>
  {
    set k | k in objects && IsPlatform(objects[k]) &&
            objects[k].position.z > playerZ + PlatformLength / 2.0 + NoSpawnRange
  }

  /** `m` without the keys in `gone`. */
  function Erase(m: map<int, GameObjectData>, gone: set<int>): map<int, GameObjectData>
  {
    map k | k in m && k !in gone :: m[k]
  }

  /** Erasing one more id after a set it is not in erases their union,
      and the union counts one more. */
  lemma EraseOne(m: map<int, GameObjectData>, done: set<int>, id: int)
    requires id !in done
    ensures Erase(Erase(m, done), {id}) == Erase(m, done + {id})
    ensures |done + {id}| == |done| + 1
  {
  }

  /** The removal half: the platforms far behind the player (read from its
      entity position) are erased and the count drops by their number. */
  function Despawn(w: World): World
    requires 0 in w.objects
  {
    var gone := BehindKeys(w.objects, w.objects[0].position.z);
    w.(objects := Erase(w.objects, gone), state := w.state.(platformCount := w.state.platformCount - |gone|))
  }

  /** Despawn removes exactly the platforms beyond the limit, keeps every
      other entry as it was, and lowers the count by the number removed. */
  lemma DespawnExact(w: World)
    requires 0 in w.objects && w.objects[0].typeName == "player"
    ensures var w' := Despawn(w);
            var limit := w.objects[0].position.z + PlatformLength / 2.0 + NoSpawnRange;
            && (forall k :: k in w'.objects <==>
                  k in w.objects && !(IsPlatform(w.objects[k]) && w.objects[k].position.z > limit))
            && (forall k :: k in w'.objects ==> w'.objects[k] == w.objects[k])
            && 0 in w'.objects
            && w'.state.platformCount == w.state.platformCount - (|w.objects| - |w'.objects|)
  {
    var gone := BehindKeys(w.objects, w.objects[0].position.z);
    var kept := Erase(w.objects, gone);
    assert !StartsWith("player", "platform_") by { assert |"player"| < |"platform_"|; }
    assert kept.Keys == w.objects.Keys - gone;
    assert gone <= w.objects.Keys;
    assert |kept.Keys| == |w.objects.Keys| - |gone|;
  }

  /** The cursor correction: a cursor closer to the player than the
      no-spawn range is moved to twice that range ahead of it. */
  function CorrectCursors(nps: seq<real>, playerZ: real): (r: seq<real>)
    ensures |r| == |nps|
    ensures forall i :: 0 <= i < |nps| ==> r[i] <= nps[i] && r[i] <= playerZ - NoSpawnRange
    ensures forall i :: 0 <= i < |nps| && nps[i] <= playerZ - NoSpawnRange ==> r[i] == nps[i]
  {
    seq(|nps|, i requires 0 <= i < |nps| =>
      if nps[i] > playerZ - NoSpawnRange then playerZ - 2.0 * NoSpawnRange else nps[i])
  }

  /** PlatformManagement: spawn, despawn, then correct the cursors against
      the player's entity position. */
  function ManagePlatforms(w: World, nextId: int, platRoll: nat, gapRoll: nat): World
    requires |w.state.nextPlatformSpawn| == |LanesX| && 0 in w.objects && nextId != 0
  {
    var spawned := Spawn(w, nextId, platRoll, gapRoll);
    var tidied := Despawn(spawned);
    var playerZ := tidied.objects[0].position.z;
    tidied.(state := tidied.state.(nextPlatformSpawn := CorrectCursors(tidied.state.nextPlatformSpawn, playerZ)))
  }

  /** PlatformManagement never moves a lane cursor forward, and afterwards
      every cursor is at least the no-spawn range ahead of the player. */
  lemma CursorsOnlyMoveAhead(w: World, nextId: int, platRoll: nat, gapRoll: nat)
    requires |w.state.nextPlatformSpawn| == |LanesX| && 0 in w.objects && nextId != 0
    ensures var w' := ManagePlatforms(w, nextId, platRoll, gapRoll);
            var nps := w.state.nextPlatformSpawn;
            && |w'.state.nextPlatformSpawn| == |nps|
            && forall i :: 0 <= i < |nps| ==>
                 w'.state.nextPlatformSpawn[i] <= nps[i] &&
                 w'.state.nextPlatformSpawn[i] <= w.objects[0].position.z - NoSpawnRange
  {
    var spawned := Spawn(w, nextId, platRoll, gapRoll);
    assert spawned.objects[0] == w.objects[0];
    forall i | 0 <= i < |LanesX|
      ensures spawned.state.nextPlatformSpawn[i] <= w.state.nextPlatformSpawn[i]
    {
    }
  }

  // ------------------------------------------------------------------- input

  /** OnKeyPress: C switches camera mode and recentres the view; Space makes
      a player that is not already jumping jump. */
  function KeyPressed(w: World, key: Key): World
    requires 0 in w.objects
  {
    match key
    case KeyC =>
      var cs := w.state.cameraSettings;
      w.(state := w.state.(cameraSettings := cs.(cameraMode := !cs.cameraMode, cameraRotation := Vec2(0.0, 0.0))))
    case KeySpace =>
      var p := w.objects[0];
      if !p.isInJump then
        var s := p.rigidbody.state;
        w.(objects := w.objects[0 := p.(isInJump := true,
                                         rigidbody := p.rigidbody.(state := s.(v := s.v.(y := JumpSpeed))))])
      else w
    case OtherKey => w
  }

  /** Pressing C twice gives back the camera mode, with a centred view. */
  lemma CameraToggleTwice(w: World)
    requires 0 in w.objects
    ensures KeyPressed(KeyPressed(w, KeyC), KeyC) ==
            w.(state := w.state.(cameraSettings := w.state.cameraSettings.(cameraRotation := Vec2(0.0, 0.0))))
  {
  }

  /** A jump cannot be restarted in the air: a second Space does nothing,
      and after Space the player is jumping. */
  lemma JumpOnlyFromGround(w: World)
    requires 0 in w.objects
    ensures KeyPressed(KeyPressed(w, KeySpace), KeySpace) == KeyPressed(w, KeySpace)
    ensures KeyPressed(w, KeySpace).objects[0].isInJump
    ensures !w.objects[0].isInJump ==> KeyPressed(w, KeySpace).objects[0].rigidbody.state.v.y == JumpSpeed
  {
  }

  /** OnMouseMove with the right button held: the rotation moves against the
      mouse by 0.001 per pixel and is clamped to +-0.275 and +-0.5. */
  function Rotated(rotation: Vec2, deltaX: int, deltaY: int): (r: Vec2)
    ensures -0.275 <= r.x <= 0.275 && -0.5 <= r.y <= 0.5
    ensures var x := rotation.x - 0.001 * deltaY as real;
            -0.275 <= x <= 0.275 ==> r.x == x
    ensures var y := rotation.y - 0.001 * deltaX as real;
            -0.5 <= y <= 0.5 ==> r.y == y
  {
    var xLimit := 0.275;
    var yLimit := 0.5;
    var x := rotation.x + -0.001 * deltaY as real;
    var y := rotation.y + -0.001 * deltaX as real;
    var x1 := if x > xLimit then xLimit else x;
    var x2 := if x1 < -xLimit then -xLimit else x1;
    var y1 := if y > yLimit then yLimit else y;
    var y2 := if y1 < -yLimit then -yLimit else y1;
    Vec2(x2, y2)
  }

  /** The initial player: the factory's player with drag 10, starting in
      the air. */
  function InitialPlayer(): (p: GameObjectData)
    ensures p.id == 0 && p.typeName == "player" && p.collider == Some(NewBox(0, PlayerStartingPosition, Splat(0.5)))
    ensures p.rigidbody.state.x == PlayerStartingPosition && p.rigidbody.state.dragCoef == 10.0
    ensures p.isInJump
  {
    PlayerConstruction(PlayerStartingPosition, 0, 0);
    var p := Construct("player", PlayerStartingPosition, 0, 0);
    p.(rigidbody := p.rigidbody.(state := p.rigidbody.state.(dragCoef := 10.0)), isInJump := true)
  }

  lemma NonEmptyHasMember(s: set<int>)
    requires s != {}
    ensures exists k :: k in s
  {
    if forall k :: k !in s {
      assert false;
    }
  }

  // -------------------------------------------------------------- the frame

  /** The table as Update's object loop finds it: the player at key 0, every
      entry filed under its own id, and every entry owning a collider that
      carries that id (the table holds only the player and platforms). */
  predicate Filed(objects: map<int, GameObjectData>)
  {
    && 0 in objects
    && forall k :: k in objects ==>
         objects[k].id == k && objects[k].collider.Some? && objects[k].collider.value.gameObjectID == k
  }

  /** Every entry of `keys` is a key of the table. */
  predicate InTable(keys: seq<int>, objects: map<int, GameObjectData>)
  {
    forall i :: 0 <= i < |keys| ==> keys[i] in objects
  }

  /** `order` lists every key of the table exactly once: the unspecified
      iteration order of the unordered_map. */
  predicate Enumerates(order: seq<int>, objects: map<int, GameObjectData>)
  {
    && (InTable(order, objects)) && (forall k :: k in objects ==> k in order)
    && (forall i, j :: 0 <= i < j < |order| ==> order[i] != order[j])
  }

  /** The vector of object addresses built at the top of Update, read
      through those addresses: the current entries of `order`'s keys. */
  function Viewed(objects: map<int, GameObjectData>, order: seq<int>): (v: seq<GameObjectData>)
    requires InTable(order, objects)
    ensures |v| == |order| && forall i :: 0 <= i < |order| ==> v[i] == objects[order[i]]
  {
    seq(|order|, i requires 0 <= i < |order| => objects[order[i]])
  }

  /** Every collider seen through the vector carries the key it is filed
      under, so ManageCollisions can only return keys of the table. */
  lemma ManagedIdsInTable(objects: map<int, GameObjectData>, order: seq<int>, self: GameObjectData, id: int)
    requires Filed(objects) && InTable(order, objects)
    requires self.collider.Some? && CanManage(self, Viewed(objects, order))
    requires id in ManagedIds(self, Viewed(objects, order))
    ensures id in objects
  {
    var view := Viewed(objects, order);
    if self.typeName != "player" {
      OthersNeverCollide(self, view);
    } else {
      ManagedIdsSound(self, view, id);
      var j :| 0 <= j < |view| && (IsPlatform(view[j]) || IsObstacle(view[j])) && HitBy(self, view, j, id);
      assert order[j] in objects;
      assert view[j] == objects[order[j]];
      assert view[j].collider.value.gameObjectID == order[j];
    }
  }

  /** Every entry of the table owns a collider, so does the vector. */
  lemma ViewHasColliders(objects: map<int, GameObjectData>, order: seq<int>, self: GameObjectData)
    requires InTable(order, objects)
    requires forall k :: k in objects ==> objects[k].collider.Some?
    requires self.collider.Some?
    ensures CanManage(self, Viewed(objects, order))
  {
    var view := Viewed(objects, order);
    forall i | 0 <= i < |view|
      ensures view[i].collider.Some?
    {
      var k := order[i];
      assert k in objects && view[i] == objects[k];
    }
  }

  /** A power-up changes at most the player's entry, and not its id or
      collider. */
  lemma PowerUpKeepsFiled(objects: map<int, GameObjectData>, ps: PlayerState, colour: string, now: real)
    requires Filed(objects)
    ensures var r := PowerUp(objects, ps, colour, now).0;
            r.Keys == objects.Keys && Filed(r)
  {
    assert Distort(objects, 0.0).Keys == objects.Keys;
  }

  /** One collided id of the table keeps its keys and keeps it filed. */
  lemma EffectKeepsFiled(w: World, id: int, now: real)
    requires Filed(w.objects) && id in w.objects
    ensures var r := CollisionEffect(w, id, now).0;
            r.objects.Keys == w.objects.Keys && Filed(r.objects)
  {
    EntryPresent(w.objects, id);
    var o := w.objects[id];
    if IsPlatform(o) && Suffix(o.typeName) != "red" {
      PowerUpKeepsFiled(w.objects, w.state.playerState, Suffix(o.typeName), now);
    }
  }

  /** A CheckCollisions pass over keys of the table keeps its keys and keeps
      every entry filed under its id with its collider. */
  lemma {:induction false} CollisionsKeepFiled(w: World, ids: seq<int>, now: real)
    requires Filed(w.objects) && forall id :: id in ids ==> id in w.objects
    ensures var r := ApplyCollisions(w, ids, now).world;
            r.objects.Keys == w.objects.Keys && Filed(r.objects)
    decreases |ids|
  {
    if ids != [] {
      var step := CollisionEffect(w, ids[0], now);
      EffectKeepsFiled(w, ids[0], now);
      if !step.1 {
        assert forall id :: id in ids[1..] ==> id in ids;
        CollisionsKeepFiled(step.0, ids[1..], now);
      }
    }
  }

  /** One object of Update's loop: its physics step, then ManageCollisions
      on the entry with every entry as it now stands, then CheckCollisions
      on the ids returned. The table keeps its keys and stays filed. */
  function Visit(w: World, key: int, order: seq<int>, physicsTime: real, now: real, dt: real): (r: World)
    requires Filed(w.objects) && key in w.objects && InTable(order, w.objects)
    ensures r.objects.Keys == w.objects.Keys && Filed(r.objects)
  {
    VisitReady(w.objects, key, order, physicsTime, dt);
    var moved := PhysicsStep(w.objects[key], physicsTime, dt);
    var objects := w.objects[key := moved];
    var view := Viewed(objects, order);
    var ids := ManagedIds(moved, view);
    var landed := w.(objects := objects[key := Landed(moved, view)]);
    CollisionsKeepFiled(landed, ids, now);
    ApplyCollisions(landed, ids, now).world
  }

  /** What a visit needs before CheckCollisions: after the physics step the
      table is still filed and the moved entry can run ManageCollisions;
      with the landed entry stored, the table is still filed and every id
      returned is one of its keys. */
  lemma VisitReady(objects: map<int, GameObjectData>, key: int, order: seq<int>, physicsTime: real, dt: real)
    requires Filed(objects) && key in objects && InTable(order, objects)
    ensures var moved := PhysicsStep(objects[key], physicsTime, dt);
            var after := objects[key := moved];
            && Filed(after) && InTable(order, after)
            && CanManage(moved, Viewed(after, order))
            && var landed := after[key := Landed(moved, Viewed(after, order))];
               && landed.Keys == objects.Keys && Filed(landed)
               && forall id :: id in ManagedIds(moved, Viewed(after, order)) ==> id in landed
  {
    var moved := PhysicsStep(objects[key], physicsTime, dt);
    var after := objects[key := moved];
    var view := Viewed(after, order);
    ViewHasColliders(after, order, moved);
    forall id | id in ManagedIds(moved, view)
      ensures id in after
    {
      ManagedIdsInTable(after, order, moved, id);
    }
  }

  /** Update's loop from position `from` of `order` on, every object seeing
      the entries of the whole `order`; GameOver exits the process, so no
      object is visited once the game is over. */
  function RunObjects(w: World, order: seq<int>, from: nat, physicsTime: real, now: real, dt: real): (r: World)
    requires Filed(w.objects) && InTable(order, w.objects) && from <= |order|
    ensures r.objects.Keys == w.objects.Keys && Filed(r.objects)
    decreases |order| - from
  {
    if from == |order| || w.status != Running then w
    else
      RunObjects(Visit(w, order[from], order, physicsTime, now, dt), order, from + 1, physicsTime, now, dt)
  }

  /** The loop visits the object at `from` and goes on from the next. */
  lemma RunObjectsStep(w: World, order: seq<int>, from: nat, physicsTime: real, now: real, dt: real)
    requires Filed(w.objects) && InTable(order, w.objects) && from < |order| && w.status == Running
    ensures RunObjects(w, order, from, physicsTime, now, dt) ==
            RunObjects(Visit(w, order[from], order, physicsTime, now, dt), order, from + 1, physicsTime, now, dt)
  {
  }

  /** With nothing left to visit, or the game over, the loop is done. */
  lemma RunObjectsDone(w: World, order: seq<int>, from: nat, physicsTime: real, now: real, dt: real)
    requires Filed(w.objects) && InTable(order, w.objects) && from <= |order|
    requires from == |order| || w.status != Running
    ensures RunObjects(w, order, from, physicsTime, now, dt) == w
  {
  }

  /** The table the game builds: the factory's player at key 0 with its
      half-unit box, and factory platforms, of any colour, under every
      other key. */
  predicate AsBuilt(objects: map<int, GameObjectData>)
  {
    && Filed(objects)
    && objects[0].typeName == "player"
    && objects[0].collider.value.kind == BoxCollider && objects[0].collider.value.dimensions == Splat(0.5)
    && forall k :: k in objects && k != 0 ==>
         IsPlatform(objects[k]) && objects[k].collider.value.kind == BoxCollider &&
         objects[k].collider.value.dimensions == PlatformScale
  }

  /** Storing a spawned platform keeps the table filed and as built. */
  lemma SpawnKeepsFiled(objects: map<int, GameObjectData>, nps: seq<real>, nextId: int, kind: Option<string>)
    requires |nps| == |LanesX| && 0 in objects && nextId != 0
    requires kind.Some? ==> StartsWith(kind.value, "platform_")
    ensures var r := SpawnedObjects(objects, nps, nextId, kind);
            && (Filed(objects) ==> Filed(r))
            && (AsBuilt(objects) ==> AsBuilt(r))
  {
    if kind.Some? {
      var lane := FirstArgMax(nps);
      SpawnedPlatform(kind.value, Vec3(LanesX[lane], -0.125, nps[lane]), nextId);
    }
  }

  /** Despawning erases platforms only, never the entry at key 0, so the
      table stays filed and as built. */
  lemma DespawnKeepsFiled(w: World)
    requires 0 in w.objects
    ensures (Filed(w.objects) ==> Filed(Despawn(w).objects))
    ensures (AsBuilt(w.objects) ==> AsBuilt(Despawn(w).objects))
  {
    assert 0 !in BehindKeys(w.objects, w.objects[0].position.z);
  }

  /** PlatformManagement keeps the table filed and as built. */
  lemma ManagePlatformsKeepsFiled(w: World, nextId: int, platRoll: nat, gapRoll: nat)
    requires |w.state.nextPlatformSpawn| == |LanesX| && 0 in w.objects && nextId != 0
    ensures var r := ManagePlatforms(w, nextId, platRoll, gapRoll).objects;
            && (Filed(w.objects) ==> Filed(r))
            && (AsBuilt(w.objects) ==> AsBuilt(r))
  {
    SpawnKindIsPlatform(platRoll);
    SpawnKeepsFiled(w.objects, w.state.nextPlatformSpawn, nextId, SpawnKind(platRoll));
    DespawnKeepsFiled(Spawn(w, nextId, platRoll, gapRoll));
  }

  /** Steering the player changes only its body, so the table stays filed
      and as built. */
  lemma SteeredKeepsFiled(objects: map<int, GameObjectData>, speed: real, keys: Keys)
    requires 0 in objects
    ensures var r := objects[0 := Steered(objects[0], speed, keys)];
            && (Filed(objects) ==> Filed(r))
            && (AsBuilt(objects) ==> AsBuilt(r))
  {
  }

  /** Because of the containment test in the box-box check, the player of a
      table as built hits nothing: ManageCollisions returns no id and the
      landing correction never applies. */
  lemma PlayerHitsNothing(objects: map<int, GameObjectData>, order: seq<int>, self: GameObjectData)
    requires AsBuilt(objects) && InTable(order, objects)
    requires self.id == 0 && self.collider.Some? && self.collider.value == objects[0].collider.value.(position := self.collider.value.position)
    requires CanManage(self, Viewed(objects, order))
    ensures ManagedIds(self, Viewed(objects, order)) == []
    ensures Landed(self, Viewed(objects, order)) == self
  {
    var view := Viewed(objects, order);
    if self.typeName == "player" && |ManagedIds(self, view)| > 0 {
      var id := ManagedIds(self, view)[0];
      ManagedIdsSound(self, view, id);
      var j :| 0 <= j < |view| && (IsPlatform(view[j]) || IsObstacle(view[j])) && HitBy(self, view, j, id);
      assert view[j] == objects[order[j]] && order[j] != 0;
      BoxBoxNeedsLargerFirst(self.collider.value, view[j].collider.value);
    }
  }

  /** A platform is not the player. */
  lemma PlatformNotPlayer(o: GameObjectData)
    requires IsPlatform(o)
    ensures o.typeName != "player"
  {
    assert |"player"| < |"platform_"|;
  }

  /** One visit on a table as built leaves the session as it was, apart
      from the visited entry's physics step, and the table as built. */
  lemma VisitAsBuilt(w: World, key: int, order: seq<int>, physicsTime: real, now: real, dt: real)
    requires AsBuilt(w.objects) && key in w.objects && InTable(order, w.objects)
    ensures var r := Visit(w, key, order, physicsTime, now, dt);
            && r.state == w.state && r.status == w.status
            && r.objects == w.objects[key := PhysicsStep(w.objects[key], physicsTime, dt)]
            && AsBuilt(r.objects)
  {
    var moved := PhysicsStep(w.objects[key], physicsTime, dt);
    var objects := w.objects[key := moved];
    assert AsBuilt(objects);
    var view := Viewed(objects, order);
    ViewHasColliders(objects, order, moved);
    if key == 0 {
      PlayerHitsNothing(objects, order, moved);
    } else {
      PlatformNotPlayer(moved);
      OthersNeverCollide(moved, view);
    }
    assert objects[key := Landed(moved, view)] == objects;
  }

  /** The part of VisitAsBuilt the loop carries along. */
  lemma VisitKeepsBuilt(w: World, key: int, order: seq<int>, physicsTime: real, now: real, dt: real)
    requires AsBuilt(w.objects) && key in w.objects && InTable(order, w.objects)
    ensures var r := Visit(w, key, order, physicsTime, now, dt);
            r.state == w.state && r.status == w.status && AsBuilt(r.objects) && InTable(order, r.objects)
  {
    VisitAsBuilt(w, key, order, physicsTime, now, dt);
  }

  /** The whole object loop of a frame, on a table as built, changes no
      part of the game state and never ends the game: no platform colour
      ever takes effect and the player never lands. */
  lemma {:induction false} NoPowerUpEverFires(w: World, order: seq<int>, from: nat, physicsTime: real, now: real, dt: real)
    requires AsBuilt(w.objects) && InTable(order, w.objects) && from <= |order|
    ensures var r := RunObjects(w, order, from, physicsTime, now, dt);
            r.state == w.state && r.status == w.status && AsBuilt(r.objects)
    decreases |order| - from, 1
  {
    if from < |order| && w.status == Running {
      NoPowerUpFromHere(w, order, from, physicsTime, now, dt);
    } else {
      RunObjectsDone(w, order, from, physicsTime, now, dt);
    }
  }

  /** The step of NoPowerUpEverFires: this visit, then the rest of the loop. */
  lemma {:induction false} NoPowerUpFromHere(w: World, order: seq<int>, from: nat, physicsTime: real, now: real, dt: real)
    requires AsBuilt(w.objects) && InTable(order, w.objects) && from < |order| && w.status == Running
    ensures var r := RunObjects(w, order, from, physicsTime, now, dt);
            r.state == w.state && r.status == w.status && AsBuilt(r.objects)
    decreases |order| - from, 0
  {
    var v := Visit(w, order[from], order, physicsTime, now, dt);
    VisitKeepsBuilt(w, order[from], order, physicsTime, now, dt);
    NoPowerUpEverFires(v, order, from + 1, physicsTime, now, dt);
    RunObjectsStep(w, order, from, physicsTime, now, dt);
  }

  // ----------------------------------------------------------- the game step

  /** UpdateCamera on the session: the player's entity is drawn only in
      third person, and the FOV follows the speed. */
  function CameraStep(w: World): World
    requires 0 in w.objects
  {
    var cs := w.state.cameraSettings;
    w.(objects := w.objects[0 := w.objects[0].(isRendered := cs.cameraMode)],
       state := w.state.(cameraSettings := cs.(cameraFOV := FovFor(w.state.playerState.playerSpeed))))
  }

  /** The rest of UpdateGameState once the player has moved and the game
      still runs, with `nextId` the id counter: camera, score, platform
      management, then the fuel burnt; with no life left GameOver ends the
      game on the points of this frame, otherwise a forced full speed may
      end. */
  function AdvanceStep(w: World, nextId: int, dt: real, elapsed: real, platRoll: nat, gapRoll: nat): (r: World)
    requires 0 in w.objects && |w.state.nextPlatformSpawn| == |LanesX| && nextId != 0
    ensures Filed(w.objects) ==> Filed(r.objects)
    ensures AsBuilt(w.objects) ==> AsBuilt(r.objects)
    ensures r.objects.Keys <= w.objects.Keys + {nextId}
  {
    var viewed := CameraStep(w);
    var scored := viewed.(state := viewed.state.(points := Score(viewed.objects[0])));
    CameraStepKeepsFiled(w);
    ManagePlatformsKeepsFiled(scored, nextId, platRoll, gapRoll);
    ManagePlatformsKeys(scored, nextId, platRoll, gapRoll);
    FuelStep(ManagePlatforms(scored, nextId, platRoll, gapRoll), dt, elapsed)
  }

  /** The last part of UpdateGameState: the fuel burnt over the frame; with
      no life left GameOver ends the game on the points, otherwise a forced
      full speed may end. */
  function FuelStep(w: World, dt: real, elapsed: real): World
  {
    var ps := BurnFuel(w.state.playerState, dt);
    if ps.lives <= 0 then
      w.(state := w.state.(playerState := ps), status := Over(Trunc(w.state.points)))
    else
      w.(state := w.state.(playerState := ExpireForcedSpeed(ps, elapsed)))
  }

  /** UpdateGameState on the session: the player moves and steers; a player
      below the bound ends the game at once, otherwise the keys' speed is
      applied and AdvanceStep follows. */
  function GameStep(w: World, nextId: int, keys: Keys, dt: real, elapsed: real, platRoll: nat, gapRoll: nat): (r: World)
    requires 0 in w.objects && |w.state.nextPlatformSpawn| == |LanesX| && nextId != 0
    ensures Filed(w.objects) ==> Filed(r.objects)
    ensures AsBuilt(w.objects) ==> AsBuilt(r.objects)
    ensures r.objects.Keys <= w.objects.Keys + {nextId}
  {
    var ps := w.state.playerState;
    var objects := w.objects[0 := Steered(w.objects[0], ps.playerSpeed, keys)];
    SteeredKeepsFiled(w.objects, ps.playerSpeed, keys);
    if w.objects[0].position.y < OutOfBoundY then
      w.(objects := objects, status := Over(Trunc(w.state.points)))
    else
      var speed := SpeedAfterKeys(ps.playerSpeed, keys, ps.isFullSpeed);
      AdvanceStep(w.(objects := objects, state := w.state.(playerState := ps.(playerSpeed := speed))),
                  nextId, dt, elapsed, platRoll, gapRoll)
  }

  /** The ids a game step takes from the counter: one for a spawned
      platform, none when the player fell or the platforms are at their
      limit. */
  function SpawnIds(w: World): (n: nat)
    requires 0 in w.objects
    ensures n <= 1
    ensures n == 1 <==> w.objects[0].position.y >= OutOfBoundY && w.state.platformCount < MaxPlatforms
  {
    if w.objects[0].position.y < OutOfBoundY || w.state.platformCount >= MaxPlatforms then 0 else 1
  }

  /** The ids RenderUI takes from the counter: the fuel bar, its
      background, and one life icon per remaining life. */
  function UiIds(lives: int): (n: nat)
    ensures n >= 2
    ensures lives >= 0 ==> n == lives + 2
  {
    if lives > 0 then 2 + lives else 2
  }

  /** The outcome of AdvanceStep on a running session with its speed in
      range: the points are the player's score and the FOV is in range;
      with no life left after the burn the game ends on those points with
      the burnt state, otherwise it runs on with at least one life, fuel in
      the tank, and the burnt state after the forced-speed expiry. */
  lemma AdvanceStepOutcome(w: World, nextId: int, dt: real, elapsed: real, platRoll: nat, gapRoll: nat)
    requires 0 in w.objects && |w.state.nextPlatformSpawn| == |LanesX| && nextId != 0
    requires w.status == Running && MinSpeed <= w.state.playerState.playerSpeed <= MaxSpeed
    ensures var r := AdvanceStep(w, nextId, dt, elapsed, platRoll, gapRoll);
            var burnt := BurnFuel(w.state.playerState, dt);
            && r.state.points == Score(w.objects[0])
            && MinFov <= r.state.cameraSettings.cameraFOV <= MaxFov
            && (burnt.lives <= 0 ==> r.status == Over(Trunc(Score(w.objects[0]))) && r.state.playerState == burnt)
            && (burnt.lives > 0 ==>
                  && r.status == Running && r.state.playerState == ExpireForcedSpeed(burnt, elapsed)
                  && r.state.playerState.lives >= 1 && r.state.playerState.fuel > 0.0)
  {
    var viewed := CameraStep(w);
    var scored := viewed.(state := viewed.state.(points := Score(viewed.objects[0])));
    assert Score(viewed.objects[0]) == Score(w.objects[0]);
    var managed := ManagePlatforms(scored, nextId, platRoll, gapRoll);
    assert managed.state.playerState == w.state.playerState;
    assert managed.state.points == Score(w.objects[0]);
    assert managed.state.cameraSettings == viewed.state.cameraSettings;
    assert managed.status == Running;
  }

  /** The outcome of GameStep on a running session with its speed in range:
      a fall ends the game on the points of the last frame with the state
      untouched; otherwise AdvanceStepOutcome holds of the session with the
      steered player and the keys' speed. */
  lemma GameStepOutcome(w: World, nextId: int, keys: Keys, dt: real, elapsed: real, platRoll: nat, gapRoll: nat)
    requires 0 in w.objects && |w.state.nextPlatformSpawn| == |LanesX| && nextId != 0
    requires w.status == Running && MinSpeed <= w.state.playerState.playerSpeed <= MaxSpeed
    ensures var r := GameStep(w, nextId, keys, dt, elapsed, platRoll, gapRoll);
            var ps := w.state.playerState;
            var burnt := BurnFuel(ps.(playerSpeed := SpeedAfterKeys(ps.playerSpeed, keys, ps.isFullSpeed)), dt);
            var points := Score(Steered(w.objects[0], ps.playerSpeed, keys));
            && (w.objects[0].position.y < OutOfBoundY ==> r.status == Over(Trunc(w.state.points)) && r.state == w.state)
            && (w.objects[0].position.y >= OutOfBoundY ==>
                  && r.state.points == points
                  && MinFov <= r.state.cameraSettings.cameraFOV <= MaxFov
                  && (burnt.lives <= 0 ==> r.status == Over(Trunc(points)) && r.state.playerState == burnt)
                  && (burnt.lives > 0 ==>
                        && r.status == Running && r.state.playerState == ExpireForcedSpeed(burnt, elapsed)
                        && r.state.playerState.lives >= 1 && r.state.playerState.fuel > 0.0))
  {
    if w.objects[0].position.y >= OutOfBoundY {
      var ps := w.state.playerState;
      var speed := SpeedAfterKeys(ps.playerSpeed, keys, ps.isFullSpeed);
      var moved := w.(objects := w.objects[0 := Steered(w.objects[0], ps.playerSpeed, keys)],
                      state := w.state.(playerState := ps.(playerSpeed := speed)));
      AdvanceStepOutcome(moved, nextId, dt, elapsed, platRoll, gapRoll);
    }
  }

  /** Drawing the player or not keeps the table filed and as built. */
  lemma CameraStepKeepsFiled(w: World)
    requires 0 in w.objects
    ensures var r := CameraStep(w).objects;
            && (Filed(w.objects) ==> Filed(r))
            && (AsBuilt(w.objects) ==> AsBuilt(r))
            && r.Keys == w.objects.Keys
  {
  }

  /** PlatformManagement adds no key but the id it was given. */
  lemma ManagePlatformsKeys(w: World, nextId: int, platRoll: nat, gapRoll: nat)
    requires |w.state.nextPlatformSpawn| == |LanesX| && 0 in w.objects && nextId != 0
    ensures ManagePlatforms(w, nextId, platRoll, gapRoll).objects.Keys <= w.objects.Keys + {nextId}
  {
    var spawned := Spawn(w, nextId, platRoll, gapRoll);
    assert spawned.objects.Keys <= w.objects.Keys + {nextId};
  }

  // -------------------------------------------------------------- the manager

  class GameManager {
    var gameObjects: map<int, GameObjectData>
    var gameState: GameState
    var status: Status
    const registry: Registry

    function Snapshot(): World
      reads this
    {
      World(gameObjects, gameState, status)
    }

    /** The player at key 0 with a collider, one cursor per lane, speeds in
        range, and ids handed out from 1 on. */
    ghost predicate Valid()
      reads this, registry
    {
      && 0 in gameObjects && gameObjects[0].typeName == "player" && gameObjects[0].collider.Some?
      && |gameState.nextPlatformSpawn| == |LanesX|
      && MinSpeed <= gameState.playerState.playerSpeed <= MaxSpeed
      && MinSpeed <= gameState.playerState.oldPlayerSpeed <= MaxSpeed
      && registry.currentMaxID >= 1
    }

    /** Every key of the table is an id the counter has already handed out,
        so the next id is fresh. CheckCollisions can break this by reading
        an absent id, which inserts a default entry under it. */
    ghost predicate IdsIssued()
      reads this, registry
    {
      forall k :: k in gameObjects ==> k < registry.currentMaxID
    }

    /** GameManager() followed by Init(): the default state and the player,
        the first object built, at key 0. */
    constructor (registry: Registry)
      requires registry.currentMaxID == 0
      modifies registry
      ensures this.registry == registry && Valid() && AsBuilt(gameObjects)
      ensures gameObjects == map[0 := InitialPlayer()]
      ensures gameState == InitialGameState() && status == Running
      ensures registry.currentMaxID == 1 && IdsIssued()
    {
      this.registry := registry;
      gameState := InitialGameState();
      status := Running;
      var player := new GameObject.Typed(registry, "player", PlayerStartingPosition, 0);
      player.rigidbody := player.rigidbody.(state := player.rigidbody.state.(dragCoef := 10.0));
      player.isInJump := true;
      gameObjects := map[player.id := player.Data()];
    }

    /** addGameObject: store a copy under its id. */
    method AddGameObject(entity: GameObjectData)
      modifies this
      ensures gameObjects == old(gameObjects)[entity.id := entity]
      ensures gameState == old(gameState) && status == old(status)
    {
      gameObjects := gameObjects[entity.id := entity];
    }

    /** GameOver: the score printed is the points converted to int; the
        process then exits. */
    method GameOver()
      modifies this
      ensures status == Over(Trunc(gameState.points))
      ensures gameObjects == old(gameObjects) && gameState == old(gameState)
    {
      status := Over(Trunc(gameState.points));
    }

    /** UpdatePlayer: move forward, steer, then end the game if the player's
        entity has fallen below the bound, else apply the new speed. */
    method UpdatePlayer(keys: Keys)
      requires Valid() && status == Running
      modifies this
      ensures Valid()
      ensures gameObjects == old(gameObjects)[0 := Steered(old(gameObjects[0]), old(gameState.playerState.playerSpeed), keys)]
      ensures Filed(old(gameObjects)) ==> Filed(gameObjects)
      ensures AsBuilt(old(gameObjects)) ==> AsBuilt(gameObjects)
      ensures old(gameObjects[0].position.y) < OutOfBoundY ==>
                status == Over(Trunc(gameState.points)) && gameState == old(gameState)
      ensures old(gameObjects[0].position.y) >= OutOfBoundY ==>
                status == Running &&
                gameState == old(gameState).(playerState := old(gameState.playerState).(playerSpeed :=
                  SpeedAfterKeys(old(gameState.playerState.playerSpeed), keys, old(gameState.playerState.isFullSpeed))))
    {
      SteeredKeepsFiled(gameObjects, gameState.playerState.playerSpeed, keys);
      var moved, pSpeed := Steer(gameObjects[0], gameState.playerState.playerSpeed,
                                 gameState.playerState.isFullSpeed, keys);
      gameObjects := gameObjects[0 := moved];
      if gameObjects[0].position.y < OutOfBoundY {
        GameOver();
        return;
      }
      gameState := gameState.(playerState := gameState.playerState.(playerSpeed := pSpeed));
    }

    /** The key handling of UpdatePlayer on the player's entity: forward by
        the current speed, A or D set the lateral velocity, otherwise W or S
        step the speed within its range unless full speed is forced. */
    static method Steer(player: GameObjectData, speed: real, isFullSpeed: bool, keys: Keys)
      returns (moved: GameObjectData, pSpeed: real)
      ensures moved == Steered(player, speed, keys)
      ensures pSpeed == SpeedAfterKeys(speed, keys, isFullSpeed)
    {
      pSpeed := speed;
      var s := player.rigidbody.state;
      s := s.(x := s.x.(z := s.x.z - speed));
      if keys.left {
        s := s.(v := s.v.(x := -LateralSpeed));
      } else if keys.right {
        s := s.(v := s.v.(x := LateralSpeed));
      } else if keys.faster {
        if !isFullSpeed {
          pSpeed := pSpeed + SpeedStep;
          if pSpeed > MaxSpeed {
            pSpeed := MaxSpeed;
          }
        }
      } else if keys.slower {
        if !isFullSpeed {
          pSpeed := pSpeed - SpeedStep;
          if pSpeed < MinSpeed {
            pSpeed := MinSpeed;
          }
        }
      }
      moved := player.(rigidbody := player.rigidbody.(state := s));
    }

    /** UpdateCamera, without the view matrices: the player is drawn only in
        third person, and the FOV follows the speed. */
    method UpdateCamera()
      requires Valid()
      modifies this
      ensures Valid()
      ensures gameObjects == old(gameObjects)[0 := old(gameObjects[0]).(isRendered := old(gameState.cameraSettings.cameraMode))]
      ensures Filed(old(gameObjects)) ==> Filed(gameObjects)
      ensures AsBuilt(old(gameObjects)) ==> AsBuilt(gameObjects)
      ensures gameState == old(gameState).(cameraSettings :=
                old(gameState.cameraSettings).(cameraFOV := FovFor(old(gameState.playerState.playerSpeed))))
      ensures MinFov <= gameState.cameraSettings.cameraFOV <= MaxFov
      ensures status == old(status)
    {
      var player := gameObjects[0];
      gameObjects := gameObjects[0 := player.(isRendered := gameState.cameraSettings.cameraMode)];
      gameState := gameState.(cameraSettings := gameState.cameraSettings.(cameraFOV := FovFor(gameState.playerState.playerSpeed)));
    }

    method ComputeScore()
      requires Valid()
      modifies this
      ensures gameState == old(gameState).(points := Score(old(gameObjects[0])))
      ensures gameObjects == old(gameObjects) && status == old(status)
    {
      gameState := gameState.(points := Score(gameObjects[0]));
    }

    /** PlatformManagement, with the two rand() values as parameters. */
    method PlatformManagement(platRoll: nat, gapRoll: nat)
      requires Valid()
      modifies this, registry
      ensures Valid()
      ensures Snapshot() == ManagePlatforms(old(Snapshot()), old(registry.currentMaxID), platRoll, gapRoll)
      ensures registry.currentMaxID ==
                old(registry.currentMaxID) + (if old(gameState.platformCount) < MaxPlatforms then 1 else 0)
      ensures Filed(old(gameObjects)) ==> Filed(gameObjects)
      ensures AsBuilt(old(gameObjects)) ==> AsBuilt(gameObjects)
      ensures old(IdsIssued()) ==> IdsIssued()
    {
      assert (this as object) != (registry as object);
      ManagePlatformsKeepsFiled(Snapshot(), registry.currentMaxID, platRoll, gapRoll);
      SpawnPlatform(platRoll, gapRoll);
      DespawnPlatforms();
      CorrectSpawnCursors();
    }

    /** The spawning half of PlatformManagement. */
    method SpawnPlatform(platRoll: nat, gapRoll: nat)
      requires Valid()
      modifies this, registry
      ensures Valid()
      ensures Snapshot() == Spawn(old(Snapshot()), old(registry.currentMaxID), platRoll, gapRoll)
      ensures registry.currentMaxID ==
                old(registry.currentMaxID) + (if old(gameState.platformCount) < MaxPlatforms then 1 else 0)
      ensures old(IdsIssued()) ==> IdsIssued()
      ensures old(IdsIssued()) && old(gameState.platformCount) < MaxPlatforms ==>
                && gameObjects.Keys == old(gameObjects.Keys) + {old(registry.currentMaxID)}
                && |gameObjects| == |old(gameObjects)| + 1
                && IsPlatform(gameObjects[old(registry.currentMaxID)])
    {
      ghost var w0 := Snapshot();
      ghost var nextId := registry.currentMaxID;
      assert (this as object) != (registry as object);
      if gameState.platformCount < MaxPlatforms {
        var nps := gameState.nextPlatformSpawn;
        var lane := FirstArgMax(nps);
        var platGap := Gap(gapRoll);
        var next := gameState.(platformCount := gameState.platformCount + 1,
                               nextPlatformSpawn := nps[lane := nps[lane] - (PlatformLength + platGap as real)]);
        assert next == Spawn(w0, nextId, platRoll, gapRoll).state;
        var kind := SpawnKind(platRoll);
        SpawnKindIsPlatform(platRoll);
        var position := Vec3(LanesX[lane], -0.125, nps[lane]);
        var built := BuildPlatform(kind.value, position);
        AddGameObject(built);
        assert gameObjects == w0.objects[nextId := built];
        if forall k :: k in w0.objects ==> k < nextId {
          SpawnAddsOnePlatform(w0.objects, nps, nextId, kind);
        }
        gameState := next;
        assert Spawn(w0, nextId, platRoll, gapRoll).objects == w0.objects[nextId := built];
      }
    }

    /** The platform object of SpawnPlatform, built by the typed
        constructor with the next id, then copied into the table. */
    method BuildPlatform(typeName: string, position: Vec3) returns (entity: GameObjectData)
      modifies registry
      ensures entity == Construct(typeName, position, old(registry.currentMaxID), 0)
      ensures registry.currentMaxID == old(registry.currentMaxID) + 1
    {
      var platform := new GameObject.Typed(registry, typeName, position, 0);
      entity := platform.Data();
    }

    /** The removal half of PlatformManagement: the ids out of sight are
        collected, then erased one by one. */
    method DespawnPlatforms()
      requires Valid()
      modifies this
      ensures Valid()
      ensures Snapshot() == Despawn(old(Snapshot()))
    {
      var toRemove := BehindKeys(gameObjects, gameObjects[0].position.z);
      var objects, removed := EraseEach(gameObjects, toRemove);
      assert !StartsWith("player", "platform_") by { assert |"player"| < |"platform_"|; }
      gameObjects := objects;
      gameState := gameState.(platformCount := gameState.platformCount - removed);
    }

    /** The ids to remove are erased one at a time, in an order left open,
        and counted. */
    static method EraseEach(objects: map<int, GameObjectData>, toRemove: set<int>)
      returns (r: map<int, GameObjectData>, removed: nat)
      ensures r == Erase(objects, toRemove) && removed == |toRemove|
    {
      var left := toRemove;
      r := objects;
      removed := 0;
      while left != {}
        invariant left <= toRemove
        invariant r == Erase(objects, toRemove - left)
        invariant removed == |toRemove - left|
        decreases |left|
      {
        NonEmptyHasMember(left);
        var id :| id in left;
        EraseOne(objects, toRemove - left, id);
        r := Erase(r, {id});
        assert toRemove - (left - {id}) == (toRemove - left) + {id};
        removed := removed + 1;
        left := left - {id};
      }
      assert toRemove - left == toRemove;
    }

    /** The last step of PlatformManagement: every lane cursor closer to the
        player than the no-spawn range is moved back. */
    method CorrectSpawnCursors()
      requires Valid()
      modifies this
      ensures Valid()
      ensures gameState == old(gameState).(nextPlatformSpawn :=
                CorrectCursors(old(gameState.nextPlatformSpawn), old(gameObjects[0].position.z)))
      ensures gameObjects == old(gameObjects) && status == old(status)
    {
      var playerZ := gameObjects[0].position.z;
      var nps := gameState.nextPlatformSpawn;
      var i := 0;
      while i < |nps|
        invariant 0 <= i <= |nps| == |gameState.nextPlatformSpawn|
        invariant forall j :: 0 <= j < i ==> nps[j] == CorrectCursors(gameState.nextPlatformSpawn, playerZ)[j]
        invariant forall j :: i <= j < |nps| ==> nps[j] == gameState.nextPlatformSpawn[j]
      {
        if nps[i] > playerZ - NoSpawnRange {
          nps := nps[i := playerZ - 2.0 * NoSpawnRange];
        }
        i := i + 1;
      }
      gameState := gameState.(nextPlatformSpawn := nps);
    }

    /** UpdateGameState: player, camera, score, platforms, fuel and lives,
        then the end of a forced full speed. */
    method UpdateGameState(deltaTime: real, elapsedTime: real, keys: Keys, platRoll: nat, gapRoll: nat)
      requires Valid() && status == Running
      modifies this, registry
      ensures Valid()
      ensures Snapshot() == GameStep(old(Snapshot()), old(registry.currentMaxID), keys, deltaTime, elapsedTime, platRoll, gapRoll)
      ensures registry.currentMaxID == old(registry.currentMaxID) + SpawnIds(old(Snapshot()))
      ensures Filed(old(gameObjects)) ==> Filed(gameObjects)
      ensures AsBuilt(old(gameObjects)) ==> AsBuilt(gameObjects)
      ensures old(IdsIssued()) ==> IdsIssued()
      ensures old(gameObjects[0].position.y) < OutOfBoundY ==> status.Over?
      ensures status == Running ==>
                && gameState.playerState.lives >= 1 && gameState.playerState.fuel > 0.0
                && MinFov <= gameState.cameraSettings.cameraFOV <= MaxFov
                && gameState.playerState == ExpireForcedSpeed(BurnFuel(old(gameState.playerState).(playerSpeed :=
                     SpeedAfterKeys(old(gameState.playerState.playerSpeed), keys, old(gameState.playerState.isFullSpeed))),
                     deltaTime), elapsedTime)
    {
      ghost var w0 := Snapshot();
      ghost var id0 := registry.currentMaxID;
      assert (this as object) != (registry as object);
      GameStepOutcome(w0, id0, keys, deltaTime, elapsedTime, platRoll, gapRoll);
      UpdatePlayer(keys);
      if status == Running {
        AdvanceGameState(deltaTime, elapsedTime, platRoll, gapRoll);
      }
    }

    /** The rest of UpdateGameState once the player has moved and the game
        still runs: camera, score, platforms, then fuel and lives, ending
        the game when no life is left. */
    method AdvanceGameState(deltaTime: real, elapsedTime: real, platRoll: nat, gapRoll: nat)
      requires Valid() && status == Running
      modifies this, registry
      ensures Valid()
      ensures Snapshot() == AdvanceStep(old(Snapshot()), old(registry.currentMaxID), deltaTime, elapsedTime, platRoll, gapRoll)
      ensures registry.currentMaxID ==
                old(registry.currentMaxID) + (if old(gameState.platformCount) < MaxPlatforms then 1 else 0)
      ensures Filed(old(gameObjects)) ==> Filed(gameObjects)
      ensures AsBuilt(old(gameObjects)) ==> AsBuilt(gameObjects)
      ensures old(IdsIssued()) ==> IdsIssued()
      ensures status == Running ==>
                && gameState.playerState.lives >= 1 && gameState.playerState.fuel > 0.0
                && MinFov <= gameState.cameraSettings.cameraFOV <= MaxFov
                && gameState.playerState ==
                   ExpireForcedSpeed(BurnFuel(old(gameState.playerState), deltaTime), elapsedTime)
    {
      ghost var w0 := Snapshot();
      ghost var id0 := registry.currentMaxID;
      assert (this as object) != (registry as object);
      AdvanceStepOutcome(w0, id0, deltaTime, elapsedTime, platRoll, gapRoll);
      ghost var issued := IdsIssued();
      UpdateCamera();
      assert Snapshot() == CameraStep(w0);
      ComputeScore();
      assert gameObjects.Keys == w0.objects.Keys;
      assert issued ==> IdsIssued();
      PlatformManagement(platRoll, gapRoll);
      assert issued ==> IdsIssued();
      CheckFuel(deltaTime, elapsedTime);
    }

    /** The fuel and lives check of UpdateGameState, then the end of a
        forced full speed. */
    method CheckFuel(deltaTime: real, elapsedTime: real)
      requires Valid() && status == Running
      modifies this
      ensures Valid()
      ensures Snapshot() == FuelStep(old(Snapshot()), deltaTime, elapsedTime)
    {
      var ps := BurnFuel(gameState.playerState, deltaTime);
      if ps.lives <= 0 {
        gameState := gameState.(playerState := ps);
        GameOver();
      } else {
        gameState := gameState.(playerState := ExpireForcedSpeed(ps, elapsedTime));
      }
    }

    /** The object loop of Update. The vector of addresses is filled in the
        map's iteration order, which the language leaves open: `order` is
        the listing chosen, every key exactly once. Every object then, in
        that same order, takes its physics step, ManageCollisions against
        the vector and CheckCollisions on the ids returned. Bodies are
        integrated at `physicsTime`; `now` is the clock CheckCollisions
        reads. */
    method UpdateObjects(physicsTime: real, now: real, deltaTime: real) returns (order: seq<int>)
      requires Valid() && status == Running && Filed(gameObjects)
      modifies this
      ensures Valid() && Filed(gameObjects) && gameObjects.Keys == old(gameObjects.Keys)
      ensures Enumerates(order, old(gameObjects))
      ensures Snapshot() == RunObjects(old(Snapshot()), order, 0, physicsTime, now, deltaTime)
    {
      order := ListKeys(gameObjects);
      VisitAll(order, physicsTime, now, deltaTime);
    }

    /** The loop of UpdateObjects: the objects in `order` are visited one
        after the other until the list ends or the game does. */
    method VisitAll(order: seq<int>, physicsTime: real, now: real, deltaTime: real)
      requires Valid() && status == Running && Filed(gameObjects) && InTable(order, gameObjects)
      modifies this
      ensures Valid() && Filed(gameObjects) && gameObjects.Keys == old(gameObjects.Keys)
      ensures Snapshot() == RunObjects(old(Snapshot()), order, 0, physicsTime, now, deltaTime)
    {
      ghost var w0 := Snapshot();
      var i := 0;
      while i < |order| && status == Running
        invariant 0 <= i <= |order|
        invariant Valid() && Filed(gameObjects) && gameObjects.Keys == w0.objects.Keys
        invariant InTable(order, gameObjects)
        invariant RunObjects(w0, order, 0, physicsTime, now, deltaTime) ==
                  RunObjects(Snapshot(), order, i, physicsTime, now, deltaTime)
      {
        VisitNext(order, i, physicsTime, now, deltaTime);
        i := i + 1;
      }
      RunObjectsDone(Snapshot(), order, i, physicsTime, now, deltaTime);
      assert Snapshot() == RunObjects(w0, order, 0, physicsTime, now, deltaTime);
    }

    /** One turn of UpdateObjects' loop: visiting the object at `i` leaves
        what remains of the loop to start from `i + 1`. */
    method VisitNext(order: seq<int>, i: nat, physicsTime: real, now: real, deltaTime: real)
      requires Valid() && status == Running && Filed(gameObjects)
      requires InTable(order, gameObjects) && i < |order|
      modifies this
      ensures Valid() && Filed(gameObjects) && gameObjects.Keys == old(gameObjects.Keys)
      ensures InTable(order, gameObjects)
      ensures RunObjects(old(Snapshot()), order, i, physicsTime, now, deltaTime) ==
              RunObjects(Snapshot(), order, i + 1, physicsTime, now, deltaTime)
    {
      RunObjectsStep(Snapshot(), order, i, physicsTime, now, deltaTime);
      VisitObject(order[i], order, physicsTime, now, deltaTime);
    }

    /** A listing of the keys, each once, taken in an order left open. */
    static method ListKeys(objects: map<int, GameObjectData>) returns (order: seq<int>)
      ensures Enumerates(order, objects)
    {
      var keys := objects.Keys;
      var left := keys;
      order := [];
      while left != {}
        invariant left <= keys
        invariant forall k :: k in order <==> k in keys && k !in left
        invariant forall i, j :: 0 <= i < j < |order| ==> order[i] != order[j]
        decreases |left|
      {
        NonEmptyHasMember(left);
        var k :| k in left;
        order := order + [k];
        left := left - {k};
      }
    }

    /** One pass of Update's loop body: UpdatePhysics on the stored entry,
        ManageCollisions against the vector (which sees the moved entry),
        then CheckCollisions on the ids returned. */
    method VisitObject(key: int, order: seq<int>, physicsTime: real, now: real, deltaTime: real)
      requires Valid() && status == Running && Filed(gameObjects)
      requires key in gameObjects && InTable(order, gameObjects)
      modifies this
      ensures Valid() && Filed(gameObjects) && gameObjects.Keys == old(gameObjects.Keys)
      ensures Snapshot() == Visit(old(Snapshot()), key, order, physicsTime, now, deltaTime)
    {
      VisitReady(gameObjects, key, order, physicsTime, deltaTime);
      var entry := new GameObject.Stored(gameObjects[key]);
      entry.UpdatePhysics(physicsTime, deltaTime);
      gameObjects := gameObjects[key := entry.Data()];
      var view := Viewed(gameObjects, order);
      var collided := entry.ManageCollisions(view);
      gameObjects := gameObjects[key := entry.Data()];
      CollisionsKeepFiled(Snapshot(), collided, now);
      CheckCollisions(collided, now);
    }

    /** Update: UpdateGameState, then, unless the game ended there, the
        object loop over the table as UpdateGameState left it, then RenderUI
        unless the loop ended the game (GameOver exits the process). On a
        table as built the object loop changes no part of the game state,
        so a whole frame affects the player's state only through the speed
        keys, the fuel burnt and the end of a forced full speed. Bodies are
        integrated at the physics engine's own time, `now` is the
        elapsed-time clock. */
    method Update(deltaTime: real, now: real, keys: Keys, platRoll: nat, gapRoll: nat, engine: PhysixEngine)
      returns (order: seq<int>)
      requires Valid() && status == Running && Filed(gameObjects)
      modifies this, registry
      ensures Valid() && Filed(gameObjects)
      ensures var mid := GameStep(old(Snapshot()), old(registry.currentMaxID), keys, deltaTime, now, platRoll, gapRoll);
              && (mid.status != Running ==> Snapshot() == mid && order == [])
              && (mid.status == Running ==>
                    Enumerates(order, mid.objects) &&
                    Snapshot() == RunObjects(mid, order, 0, engine.currentTime, now, deltaTime))
      ensures registry.currentMaxID == old(registry.currentMaxID) + SpawnIds(old(Snapshot())) +
                (if status == Running then UiIds(gameState.playerState.lives) else 0)
      ensures old(IdsIssued()) ==> IdsIssued()
      ensures AsBuilt(old(gameObjects)) ==> AsBuilt(gameObjects)
      ensures old(gameObjects[0].position.y) < OutOfBoundY ==> status.Over?
      ensures AsBuilt(old(gameObjects)) && status == Running ==>
                && gameState.playerState.lives >= 1 && gameState.playerState.fuel > 0.0
                && gameState.playerState == ExpireForcedSpeed(BurnFuel(old(gameState.playerState).(playerSpeed :=
                     SpeedAfterKeys(old(gameState.playerState.playerSpeed), keys, old(gameState.playerState.isFullSpeed))),
                     deltaTime), now)
    {
      ghost var w0 := Snapshot();
      ghost var id0 := registry.currentMaxID;
      UpdateGameState(deltaTime, now, keys, platRoll, gapRoll);
      ghost var mid := Snapshot();
      assert mid == GameStep(w0, id0, keys, deltaTime, now, platRoll, gapRoll);
      if status != Running {
        return [];
      }
      var physicsTime := engine.currentTime;
      order := UpdateObjects(physicsTime, now, deltaTime);
      if AsBuilt(mid.objects) {
        NoPowerUpEverFires(mid, order, 0, physicsTime, now, deltaTime);
      }
      if status == Running {
        var built := RenderUI(gameState.playerState.lives);
        assert (this as object) != (registry as object) && (engine as object) != (registry as object);
        registry.currentMaxID := registry.currentMaxID + built;
      }
    }

    /** RenderUI, for its one effect on the session: the fuel bar, its
        background and one icon per remaining life are each built by the
        typed constructor, which takes an id from the counter; `built` is
        that number of objects. The drawing itself is not modelled. */
    static method RenderUI(lives: int) returns (built: nat)
      ensures built == UiIds(lives)
    {
      built := 2;
      var lifesToRender := lives;
      while lifesToRender > 0
        invariant lives > 0 ==> 0 <= lifesToRender && built == 2 + lives - lifesToRender
        invariant lives <= 0 ==> lifesToRender == lives && built == 2
      {
        built := built + 1;
        lifesToRender := lifesToRender - 1;
      }
    }

    /** CheckCollisions: the ids are handled in order; the pass stops at the
        first id that is not a platform, and at a red platform, which ends
        the game. */
    method CheckCollisions(collided: seq<int>, elapsedTime: real)
      requires Valid() && status == Running
      modifies this
      ensures Valid()
      ensures Snapshot() == ApplyCollisions(old(Snapshot()), collided, elapsedTime).world
    {
      if |collided| == 0 {
        return;
      }
      ghost var w0 := Snapshot();
      var i := 0;
      while i < |collided|
        invariant 0 <= i <= |collided|
        invariant Valid() && status == Running
        invariant ApplyCollisions(w0, collided, elapsedTime) == ApplyCollisions(Snapshot(), collided[i..], elapsedTime)
      {
        var id := collided[i];
        assert collided[i..][0] == id && collided[i..][1..] == collided[i + 1..];
        var stop := HandleCollision(id, elapsedTime);
        if stop {
          return;
        }
        i := i + 1;
      }
    }

    /** One id of CheckCollisions; `stop` tells the loop to return. */
    method HandleCollision(id: int, elapsedTime: real) returns (stop: bool)
      requires Valid() && status == Running
      modifies this
      ensures Valid() && (!stop ==> status == Running)
      ensures (Snapshot(), stop) == CollisionEffect(old(Snapshot()), id, elapsedTime)
    {
      ghost var w0 := Snapshot();
      var entry := Entry(gameObjects, id);
      gameObjects := gameObjects[id := entry];
      var typeName := gameObjects[id].typeName;
      if !StartsWith(typeName, "platform_") {
        return true;
      }
      var colour := Suffix(typeName);
      if colour == "red" {
        GameOver();
        return true;
      }
      ghost var w1 := Snapshot();
      ApplyPowerUp(colour, elapsedTime);
      assert (gameObjects, gameState.playerState) == PowerUp(w1.objects, w1.state.playerState, colour, elapsedTime);
      gameObjects := gameObjects[id := gameObjects[id].(typeName := "platform_purple")];
      return false;
    }

    /** The power-up part of CheckCollisions for one platform colour. */
    method ApplyPowerUp(colour: string, elapsedTime: real)
      requires Valid()
      modifies this
      ensures Valid()
      ensures (gameObjects, gameState.playerState) ==
              PowerUp(old(gameObjects), old(gameState.playerState), colour, elapsedTime)
      ensures gameState == old(gameState).(playerState := gameState.playerState)
      ensures status == old(status)
    {
      var ps := gameState.playerState;
      if colour == "yellow" {
        gameState := gameState.(playerState := ps.(fuel := ps.fuel - FuelLoss));
        gameObjects := gameObjects[0 := gameObjects[0].(distortedTime := PowerAnimationTime)];
      } else if colour == "orange" {
        gameState := gameState.(playerState := ps.(isFullSpeed := true, forcedSpeedStart := elapsedTime,
                                                   oldPlayerSpeed := ps.playerSpeed, playerSpeed := MaxSpeed));
        gameObjects := gameObjects[0 := gameObjects[0].(distortedTime := ForcedSpeedTime)];
      } else if colour == "green" {
        var fuel := ps.fuel + FuelGain;
        gameObjects := gameObjects[0 := gameObjects[0].(distortedTime := PowerAnimationTime)];
        if fuel > MaxFuel {
          fuel := MaxFuel;
        }
        gameState := gameState.(playerState := ps.(fuel := fuel));
      } else if colour == "white" {
        if ps.lives < MaxLives {
          gameState := gameState.(playerState := ps.(lives := ps.lives + 1));
          gameObjects := gameObjects[0 := gameObjects[0].(distortedTime := PowerAnimationTime)];
        }
      }
    }

    method OnKeyPress(key: Key)
      requires Valid()
      modifies this
      ensures Valid()
      ensures Snapshot() == KeyPressed(old(Snapshot()), key)
    {
      match key {
        case KeyC =>
          gameState := gameState.(cameraSettings := gameState.cameraSettings.(
            cameraMode := !gameState.cameraSettings.cameraMode, cameraRotation := Vec2(0.0, 0.0)));
        case KeySpace =>
          var player := gameObjects[0];
          if !player.isInJump {
            var s := player.rigidbody.state;
            gameObjects := gameObjects[0 := player.(isInJump := true,
              rigidbody := player.rigidbody.(state := s.(v := s.v.(y := JumpSpeed))))];
          }
        case OtherKey =>
      }
    }

    method OnMouseMove(rightHeld: bool, deltaX: int, deltaY: int)
      modifies this
      ensures rightHeld ==> gameState == old(gameState).(cameraSettings :=
                old(gameState.cameraSettings).(cameraRotation := Rotated(old(gameState.cameraSettings.cameraRotation), deltaX, deltaY)))
      ensures !rightHeld ==> gameState == old(gameState)
      ensures gameObjects == old(gameObjects) && status == old(status)
    {
      if rightHeld {
        gameState := gameState.(cameraSettings := gameState.cameraSettings.(
          cameraRotation := Rotated(gameState.cameraSettings.cameraRotation, deltaX, deltaY)));
      }
    }
  }
}
