/** Game entities (GameObject.hpp / GameObject.cpp): the typed factory, the
    platform recolouring, the per-frame physics sync and the player-only
    collision handling. The map of the game holds entities by value, so an
    entity is first of all a `GameObjectData` value; the `GameObject` class
    gives the in-place member functions over the same fields. */
module GameObjects {
  import opened Vectors
  import opened Colliders
  import opened Physics
  import opened CollisionManager

  /** ObjectConstants. */
  const PlatformTopHeight: real := 0.0
  const PlayerHeight: real := 1.0
  const PlatformLength: real := 33.3

  /** The material record as GameObject.cpp fills it, in initialiser order. */
  datatype Material = Material(emmisive: Vec3, ambient: Vec3, diffuse: Vec3, specular: Vec3, shininess: real)

  /** What a default-constructed object leaves uninitialised is zero here. */
  const NoMaterial: Material := Material(Origin, Origin, Origin, Origin, 0.0)

  /** The simulation-relevant fields of a GameObject. Meshes, shaders,
      textures and lights are rendering payload and are not modelled. */
  datatype GameObjectData = GameObjectData(
    id: int,
    typeName: string,
    position: Vec3,
    scale: Vec3,
    material: Material,
    rigidbody: RigidBody,
    collider: Option<ColliderData>,
    distortedTime: real,
    isInJump: bool,
    isRendered: bool)

  /** GameObject(): id -1, empty type, no collider. */
  function DefaultGameObject(): (o: GameObjectData)
    ensures o.id == -1 && o.typeName == "" && o.collider == None
    ensures o.position == Origin && o.distortedTime == 0.0 && !o.isInJump && o.isRendered
  {
    GameObjectData(-1, "", Origin, Origin, NoMaterial, NewRigidBody(), None, 0.0, false, true)
  }

  /** `s.rfind(p, 0) == 0`: the only place searched is position 0. */
  predicate StartsWith(s: string, p: string)
  {
    |p| <= |s| && s[..|p|] == p
  }

  /** std::string::find for one character. */
  function FindChar(s: string, c: char): (r: Option<nat>)
    ensures r.None? <==> c !in s
    ensures r.Some? ==> r.value < |s| && s[r.value] == c && c !in s[..r.value]
  {
    if s == [] then None
    else if s[0] == c then Some(0)
    else
      match FindChar(s[1..], c)
      case None => None
      case Some(i) =>
        assert s[1..][..i] == s[1..i + 1];
        assert s[..i + 1] == [s[0]] + s[1..][..i];
        Some(i + 1)
  }

  /** `type.substr(type.find("_") + 1)`. When there is no '_' the position is
      npos, and npos + 1 wraps round to 0: the whole string. */
  function Suffix(s: string): string
  {
    match FindChar(s, '_')
    case Some(i) => s[i + 1..]
    case None => s
  }

  /** A tag followed by '_' and a word: the suffix is the word. */
  lemma SuffixOfTagged(head: string, tail: string)
    requires '_' !in head
    ensures Suffix(head + "_" + tail) == tail
  {
    var s := head + "_" + tail;
    assert s[|head|] == '_';
    assert s[|head| + 1..] == tail;
  }

  predicate IsPlatform(o: GameObjectData)
  {
    StartsWith(o.typeName, "platform_")
  }

  predicate IsObstacle(o: GameObjectData)
  {
    StartsWith(o.typeName, "obstacle_")
  }

  /** The ambient and emissive colours of each platform colour. */
  function PlatformColour(colour: string): Option<(Vec3, Vec3)>
  {
    if colour == "red" then Some((Vec3(1.0, 0.0, 0.0), Vec3(25.5, 0.0, 0.0)))
    else if colour == "yellow" then Some((Vec3(1.0, 1.0, 0.0), Vec3(25.5, 25.5, 0.0)))
    else if colour == "orange" then Some((Vec3(0.9, 0.6, 0.2), Vec3(25.9, 9.9, 7.1)))
    else if colour == "green" then Some((Vec3(0.9, 0.6, 0.2), Vec3(0.0, 25.5, 0.0)))
    else if colour == "purple" then Some((Vec3(0.5, 0.1, 0.4), Vec3(12.7, 2.5, 10.2)))
    else if colour == "blue" then Some((Vec3(0.0, 0.0, 1.0), Vec3(4.5, 5.5, 22.5)))
    else if colour == "white" then Some((Splat(1.0), Splat(25.5)))
    else None
  }

  /** UpdatePlatformData: a platform takes the colours of its suffix; any
      other object, or an unknown colour, is left as it is. Only the ambient
      and emissive colours can change. */
  function RecolourPlatform(o: GameObjectData): (r: GameObjectData)
    ensures r == o.(material := r.material)
    ensures r.material == o.material.(ambient := r.material.ambient, emmisive := r.material.emmisive)
    ensures !IsPlatform(o) ==> r == o
    ensures IsPlatform(o) && PlatformColour(Suffix(o.typeName)).Some? ==>
              (r.material.ambient, r.material.emmisive) == PlatformColour(Suffix(o.typeName)).value
  {
    if !IsPlatform(o) then o
    else
      match PlatformColour(Suffix(o.typeName))
      case None => o
      case Some(c) => o.(material := o.material.(ambient := c.0, emmisive := c.1))
  }

  /** Recolouring twice is recolouring once. */
  lemma RecolourIdempotent(o: GameObjectData)
    ensures RecolourPlatform(RecolourPlatform(o)) == RecolourPlatform(o)
  {
  }

  /** The colours depend on the suffix alone: two platforms with the same
      suffix and the same material end with the same material. */
  lemma RecolourDependsOnSuffix(o: GameObjectData, p: GameObjectData)
    requires IsPlatform(o) && IsPlatform(p)
    requires Suffix(o.typeName) == Suffix(p.typeName) && o.material == p.material
    ensures RecolourPlatform(o).material == RecolourPlatform(p).material
  {
  }

  const PlayerMaterial: Material := Material(Origin, Splat(0.2), Splat(2.0), Splat(0.35), 128.0)
  const BlockMaterial: Material := Material(Vec3(1.0, 0.0, 0.0), Vec3(1.0, 0.0, 0.0), Splat(32.0), Splat(0.05), 16.0)
  const ObstacleMaterial: Material := Material(Vec3(1.0, 0.0, 0.0), Vec3(1.0, 0.0, 0.0), Splat(1.0), Splat(0.30), 32.0)
  const PlatformScale: Vec3 := Vec3(1.0, 0.25, PlatformLength)

  /** The six planet looks, chosen by rand() % 6: scale and shininess. */
  function PlanetLook(roll: nat): (Vec3, real)
  {
    match roll % 6
    case 0 => (Splat(0.5), 2.5)
    case 1 => (Splat(0.5), 1.5)
    case 2 => (Splat(1.0), 2.5)
    case 3 => (Splat(2.0), 2.5)
    case 4 => (Splat(2.0), 1.5)
    case _ => (Splat(1.0), 2.5)
  }

  /** A body that stays where it is put: physics disabled, state at `pos`. */
  function StaticBody(pos: Vec3): RigidBody
  {
    NewRigidBody().(state := NewState().(x := pos), physicsEnabled := false)
  }

  /** A drifting body without drag or gravity, used by planets and stars. */
  function FreeBody(pos: Vec3): RigidBody
  {
    NewRigidBody().(state := NewState().(x := pos, dragCoef := 0.0, gravityCoef := 0.0))
  }

  /** The typed constructor GameObject(type, position) given the id it draws
      from the counter and the value `planetRoll` of rand() used by
      planets. Types that match no branch keep the zero scale and material. */
  function Construct(typeName: string, pos: Vec3, id: int, planetRoll: nat): (o: GameObjectData)
    ensures o.id == id && o.typeName == typeName
    ensures o.distortedTime == 0.0 && !o.isInJump && o.isRendered
    ensures o.collider.Some? ==> o.collider.value.gameObjectID == id
  {
    var base := GameObjectData(id, typeName, pos, Origin, NoMaterial, NewRigidBody(), None, 0.0, false, true);
    if typeName == "player" then
      base.(scale := Vec3(0.25, 0.25, -0.25), material := PlayerMaterial,
            collider := Some(NewBox(id, pos, Splat(PlayerHeight / 2.0))),
            rigidbody := NewRigidBody().(state := NewState().(x := pos, gravityCoef := 0.33)))
    else if StartsWith(typeName, "platform_") then
      var placed := Vec3(pos.x, PlatformTopHeight - PlatformScale.y / 2.0, pos.z);
      RecolourPlatform(
        base.(position := placed, scale := PlatformScale, material := BlockMaterial,
              collider := Some(NewBox(id, placed, PlatformScale).(affectsPhysics := true)),
              rigidbody := StaticBody(placed)))
    else if typeName == "planet" then
      var look := PlanetLook(planetRoll);
      base.(scale := look.0, material := BlockMaterial.(shininess := look.1),
            collider := Some(NewSphere(id, pos, 0.001)), rigidbody := FreeBody(pos))
    else if typeName == "star" then
      base.(scale := Splat(4.0), material := BlockMaterial.(shininess := 96.0),
            collider := Some(NewSphere(id, pos, 0.001)), rigidbody := FreeBody(pos))
    else if StartsWith(typeName, "obstacle_") then
      var obstacle := base.(scale := Splat(1.0), material := ObstacleMaterial, rigidbody := StaticBody(pos));
      var kind := Suffix(typeName);
      if kind == "bad" then
        obstacle.(material := ObstacleMaterial.(ambient := Vec3(1.0, 0.0, 0.0), emmisive := Vec3(122.0, 0.0, 0.0)),
                  scale := Vec3(10.0, 2.0, 1.0),
                  collider := Some(NewBox(id, pos, Vec3(10.0, 2.0, 1.0)).(affectsPhysics := true)))
      else if kind == "good" then
        obstacle.(material := ObstacleMaterial.(ambient := Vec3(0.9, 0.6, 0.2), emmisive := Vec3(0.0, 122.0, 0.0)),
                  collider := Some(NewBox(id, pos, Splat(1.2)).(affectsPhysics := true)))
      else obstacle
    else if typeName == "sphere" then
      base.(scale := Splat(0.1), material := Material(Origin, Vec3(1.0, 0.0, 0.0), Splat(5.0), Splat(0.3), 0.25),
            collider := Some(NewSphere(id, pos, 0.1)), rigidbody := StaticBody(pos))
    else if typeName == "skybox" then
      base.(scale := Splat(200.0), material := Material(Splat(1.0), Splat(1.0), Origin, Origin, 0.0),
            rigidbody := StaticBody(pos))
    else if typeName == "fuelbar" then
      base.(scale := Splat(1.0), material := Material(Vec3(0.9, 0.6, 0.2), Vec3(0.9, 0.6, 0.2), Splat(5.0), Splat(0.3), 0.25))
    else if typeName == "ufuelbar" then
      base.(scale := Vec3(1.0, 1.0, 0.5), material := Material(Splat(0.5), Splat(0.5), Splat(5.0), Splat(0.3), 0.25))
    else if typeName == "life" then
      base.(scale := Splat(0.125), material := Material(Vec3(0.7, 0.1, 0.2), Vec3(0.7, 0.1, 0.2), Splat(5.0), Splat(0.3), 0.25))
    else base
  }

  /** A platform ignores the given height: its top face lies at
      PlatformTopHeight. It does not move, and its box collider has the
      platform's scale and takes part in physics. */
  lemma PlatformPlacement(colour: string, pos: Vec3, id: int, roll: nat)
    ensures var o := Construct("platform_" + colour, pos, id, roll);
            && o.position == Vec3(pos.x, -0.125, pos.z)
            && o.position.y + o.scale.y / 2.0 == PlatformTopHeight
            && o.scale == Vec3(1.0, 0.25, PlatformLength)
            && !o.rigidbody.physicsEnabled && o.rigidbody.state.x == o.position
            && o.collider == Some(ColliderData(id, BoxCollider, true, 0.0, Origin, o.scale))
            && (PlatformColour(colour).Some? ==>
                  (o.material.ambient, o.material.emmisive) == PlatformColour(colour).value)
  {
    var t := "platform_" + colour;
    assert StartsWith(t, "platform_") by { assert t[..9] == "platform_"; }
    assert t == "platform" + "_" + colour;
    SuffixOfTagged("platform", colour);
  }

  /** The player: a half-unit box collider, gravity 0.33 and the state at
      the given position. */
  lemma PlayerConstruction(pos: Vec3, id: int, roll: nat)
    ensures var o := Construct("player", pos, id, roll);
            && o.collider == Some(NewBox(id, pos, Splat(0.5)))
            && o.rigidbody.state.x == pos && o.rigidbody.state.gravityCoef == 0.33
            && o.rigidbody.physicsEnabled && o.rigidbody.mType == Simulated
  {
  }

  /** Obstacle colliders: a (10, 2, 1) box for "bad", a 1.2 box for "good",
      none for any other kind. */
  lemma ObstacleColliders(kind: string, pos: Vec3, id: int, roll: nat)
    ensures var o := Construct("obstacle_" + kind, pos, id, roll);
            && (kind == "bad" ==> o.collider == Some(ColliderData(id, BoxCollider, true, 0.0, Origin, Vec3(10.0, 2.0, 1.0))))
            && (kind == "good" ==> o.collider == Some(ColliderData(id, BoxCollider, true, 0.0, Origin, Splat(1.2))))
            && (kind != "bad" && kind != "good" ==> o.collider == None)
            && !o.rigidbody.physicsEnabled
  {
    var t := "obstacle_" + kind;
    assert StartsWith(t, "obstacle_") by { assert t[..9] == "obstacle_"; }
    assert !StartsWith(t, "platform_") by { assert t[0] != 'p'; }
    assert t != "player" && t != "planet" by { assert t[0] != 'p'; }
    assert t == "obstacle" + "_" + kind;
    SuffixOfTagged("obstacle", kind);
  }

  /** The static id counter GameObject::currentMaxID. */
  class Registry {
    var currentMaxID: int

    constructor ()
      ensures currentMaxID == 0
    {
      currentMaxID := 0;
    }
  }

  /** UpdatePhysics: the distortion timer runs down only while positive, the
      body is integrated, and the entity and its collider are moved to the
      body's position. */
  function PhysicsStep(o: GameObjectData, currentTime: real, dt: real): (r: GameObjectData)
    requires o.collider.Some?
    ensures r.rigidbody == UpdatePhysics(o.rigidbody, currentTime, dt)
    ensures r.position == r.rigidbody.state.x && r.collider == Some(o.collider.value.(position := r.position))
    ensures o.distortedTime > 0.0 ==> r.distortedTime == o.distortedTime - dt
    ensures o.distortedTime <= 0.0 ==> r.distortedTime == o.distortedTime
    ensures r == o.(rigidbody := r.rigidbody, position := r.position, collider := r.collider,
                    distortedTime := r.distortedTime)
  {
    var distorted := if o.distortedTime > 0.0 then o.distortedTime - dt else o.distortedTime;
    var body := UpdatePhysics(o.rigidbody, currentTime, dt);
    o.(distortedTime := distorted, rigidbody := body, position := body.state.x,
       collider := Some(o.collider.value.(position := body.state.x)))
  }

  /** A platform never moves: its physics is disabled, so a physics step
      keeps it at the place where it was built. */
  lemma PlatformStaysPut(colour: string, pos: Vec3, id: int, roll: nat, currentTime: real, dt: real)
    ensures var o := Construct("platform_" + colour, pos, id, roll);
            PhysicsStep(o, currentTime, dt).position == o.position
  {
    PlatformPlacement(colour, pos, id, roll);
  }

  /** The objects that may be handed to CollisionCheck: every one other than
      `self` owns a collider (the source dereferences it). */
  predicate CollidersPresent(self: GameObjectData, objs: seq<GameObjectData>)
  {
    forall i :: 0 <= i < |objs| && objs[i].id != self.id ==> objs[i].collider.Some?
  }

  /** Every collider carries the id of the object that owns it. */
  predicate ConsistentIds(objs: seq<GameObjectData>)
  {
    forall i :: 0 <= i < |objs| && objs[i].collider.Some? ==> objs[i].collider.value.gameObjectID == objs[i].id
  }

  /** The colliders CollisionCheck passes on: those of every object except
      `self`, in order. */
  function Candidates(self: GameObjectData, objs: seq<GameObjectData>): (cs: seq<ColliderData>)
    requires CollidersPresent(self, objs)
    ensures |cs| <= |objs|
  {
    if objs == [] then []
    else
      var last := objs[|objs| - 1];
      Candidates(self, objs[..|objs| - 1]) + (if last.id != self.id then [last.collider.value] else [])
  }

  /** A collider is a candidate exactly when an object other than `self`
      owns it. */
  lemma {:induction false} CandidatesMembers(self: GameObjectData, objs: seq<GameObjectData>, c: ColliderData)
    requires CollidersPresent(self, objs)
    ensures c in Candidates(self, objs) <==>
            exists j :: 0 <= j < |objs| && objs[j].id != self.id && objs[j].collider == Some(c)
  {
    if objs != [] {
      var init := objs[..|objs| - 1];
      CandidatesMembers(self, init, c);
      if c in Candidates(self, init) {
        var j :| 0 <= j < |init| && init[j].id != self.id && init[j].collider == Some(c);
        assert objs[j] == init[j];
      }
      if exists j :: 0 <= j < |objs| && objs[j].id != self.id && objs[j].collider == Some(c) {
        var j :| 0 <= j < |objs| && objs[j].id != self.id && objs[j].collider == Some(c);
        if j < |init| {
          assert init[j] == objs[j];
        }
      }
    }
  }

  /** CollisionCheck: the ids of the candidates that `self`'s collider hits. */
  function CollisionCheckIds(self: GameObjectData, objs: seq<GameObjectData>): seq<int>
    requires self.collider.Some? && CollidersPresent(self, objs)
  {
    Collided(self.collider.value, Candidates(self, objs))
  }

  /** An id is reported exactly when an object other than `self`, owning a
      collider with that id, is hit. */
  lemma CollisionCheckMembers(self: GameObjectData, objs: seq<GameObjectData>, id: int)
    requires self.collider.Some? && CollidersPresent(self, objs)
    ensures id in CollisionCheckIds(self, objs) <==>
            exists j :: 0 <= j < |objs| && objs[j].id != self.id && objs[j].collider.Some? &&
                        objs[j].collider.value.gameObjectID == id &&
                        IsCollision(self.collider.value, objs[j].collider.value)
  {
    var cs := Candidates(self, objs);
    CollidedMembers(self.collider.value, cs, id);
    if id in CollisionCheckIds(self, objs) {
      var k :| 0 <= k < |cs| && cs[k].gameObjectID == id && IsCollision(self.collider.value, cs[k]);
      CandidatesMembers(self, objs, cs[k]);
    }
    if exists j :: 0 <= j < |objs| && objs[j].id != self.id && objs[j].collider.Some? &&
                   objs[j].collider.value.gameObjectID == id &&
                   IsCollision(self.collider.value, objs[j].collider.value) {
      var j :| 0 <= j < |objs| && objs[j].id != self.id && objs[j].collider.Some? &&
               objs[j].collider.value.gameObjectID == id &&
               IsCollision(self.collider.value, objs[j].collider.value);
      CandidatesMembers(self, objs, objs[j].collider.value);
      var k :| 0 <= k < |cs| && cs[k] == objs[j].collider.value;
    }
  }

  /** CollisionCheck never reports the object itself, as long as every
      collider carries its owner's id. */
  lemma CollisionCheckNeverSelf(self: GameObjectData, objs: seq<GameObjectData>)
    requires self.collider.Some? && CollidersPresent(self, objs) && ConsistentIds(objs)
    ensures self.id !in CollisionCheckIds(self, objs)
  {
    CollisionCheckMembers(self, objs, self.id);
  }

  /** The objects whose type starts with `prefix`, in order. */
  function WithPrefix(objs: seq<GameObjectData>, prefix: string): (r: seq<GameObjectData>)
    ensures |r| <= |objs|
  {
    if objs == [] then []
    else
      var last := objs[|objs| - 1];
      WithPrefix(objs[..|objs| - 1], prefix) + (if StartsWith(last.typeName, prefix) then [last] else [])
  }

  lemma {:induction false} WithPrefixMembers(objs: seq<GameObjectData>, prefix: string, o: GameObjectData)
    ensures o in WithPrefix(objs, prefix) <==> o in objs && StartsWith(o.typeName, prefix)
  {
    if objs != [] {
      var init := objs[..|objs| - 1];
      WithPrefixMembers(init, prefix, o);
      assert objs == init + [objs[|objs| - 1]];
    }
  }

  /** What ManageCollisions needs of its arguments: for the player, its own
      collider and one on every other platform and obstacle. */
  predicate CanManage(self: GameObjectData, objs: seq<GameObjectData>)
  {
    self.typeName == "player" ==>
      self.collider.Some? &&
      forall i :: 0 <= i < |objs| && objs[i].id != self.id &&
                  (StartsWith(objs[i].typeName, "platform_") || StartsWith(objs[i].typeName, "obstacle_")) ==>
                  objs[i].collider.Some?
  }

  lemma CanManageFilters(self: GameObjectData, objs: seq<GameObjectData>)
    requires self.typeName == "player" && CanManage(self, objs)
    ensures CollidersPresent(self, WithPrefix(objs, "platform_"))
    ensures CollidersPresent(self, WithPrefix(objs, "obstacle_"))
  {
    forall i | 0 <= i < |WithPrefix(objs, "platform_")|
      ensures WithPrefix(objs, "platform_")[i] in objs
    {
      WithPrefixMembers(objs, "platform_", WithPrefix(objs, "platform_")[i]);
    }
    forall i | 0 <= i < |WithPrefix(objs, "obstacle_")|
      ensures WithPrefix(objs, "obstacle_")[i] in objs
    {
      WithPrefixMembers(objs, "obstacle_", WithPrefix(objs, "obstacle_")[i]);
    }
  }

  /** The platforms the player touches. */
  function PlatformHits(self: GameObjectData, objs: seq<GameObjectData>): seq<int>
    requires self.typeName == "player" && CanManage(self, objs)
  {
    CanManageFilters(self, objs);
    CollisionCheckIds(self, WithPrefix(objs, "platform_"))
  }

  /** The obstacles the player touches. */
  function ObstacleHits(self: GameObjectData, objs: seq<GameObjectData>): seq<int>
    requires self.typeName == "player" && CanManage(self, objs)
  {
    CanManageFilters(self, objs);
    CollisionCheckIds(self, WithPrefix(objs, "obstacle_"))
  }

  /** The ids ManageCollisions returns: nothing for any object but the
      player; for the player, the platforms hit followed by the obstacles
      hit. */
  function ManagedIds(self: GameObjectData, objs: seq<GameObjectData>): seq<int>
    requires CanManage(self, objs)
  {
    if self.typeName != "player" then []
    else PlatformHits(self, objs) + ObstacleHits(self, objs)
  }

  /** The entity after ManageCollisions: a player that touches a platform
      while not yet below a quarter of its height is put on top of the
      platform, stops falling and may jump again. Nothing else changes. */
  function Landed(self: GameObjectData, objs: seq<GameObjectData>): (r: GameObjectData)
    requires CanManage(self, objs)
    ensures self.typeName != "player" ==> r == self
    ensures r == self.(rigidbody := r.rigidbody, isInJump := r.isInJump)
    ensures self.typeName == "player" && |PlatformHits(self, objs)| > 0 &&
            self.rigidbody.state.x.y > -PlayerHeight / 4.0 ==>
              && r.rigidbody.state.x == self.rigidbody.state.x.(y := PlatformTopHeight + PlayerHeight / 4.0)
              && r.rigidbody.state.v == self.rigidbody.state.v.(y := 0.0)
              && r.rigidbody == self.rigidbody.(state := r.rigidbody.state)
              && r.rigidbody.state == self.rigidbody.state.(x := r.rigidbody.state.x, v := r.rigidbody.state.v)
              && !r.isInJump
    ensures self.typeName == "player" &&
            (|PlatformHits(self, objs)| == 0 || self.rigidbody.state.x.y <= -PlayerHeight / 4.0) ==>
              r == self
  {
    if self.typeName == "player" && |PlatformHits(self, objs)| > 0 &&
       self.rigidbody.state.x.y > -PlayerHeight / 4.0 then
      var s := self.rigidbody.state;
      self.(rigidbody := self.rigidbody.(state := s.(v := s.v.(y := 0.0),
                                                      x := s.x.(y := PlatformTopHeight + PlayerHeight / 4.0))),
            isInJump := false)
    else self
  }

  /** An object other than the player, whose collider has `id` and is hit
      by the player's collider. */
  predicate HitBy(self: GameObjectData, objs: seq<GameObjectData>, j: int, id: int)
    requires self.collider.Some? && 0 <= j < |objs|
  {
    objs[j].id != self.id && objs[j].collider.Some? &&
    objs[j].collider.value.gameObjectID == id &&
    IsCollision(self.collider.value, objs[j].collider.value)
  }

  /** An id is returned by ManageCollisions exactly when the player hits a
      platform or an obstacle, other than itself, whose collider has that
      id. */
  lemma ManagedIdsMembers(self: GameObjectData, objs: seq<GameObjectData>, id: int)
    requires self.typeName == "player" && CanManage(self, objs)
    ensures id in ManagedIds(self, objs) <==>
            exists j :: 0 <= j < |objs| && (IsPlatform(objs[j]) || IsObstacle(objs[j])) && HitBy(self, objs, j, id)
  {
    if id in ManagedIds(self, objs) {
      ManagedIdsSound(self, objs, id);
    }
    if exists j :: 0 <= j < |objs| && (IsPlatform(objs[j]) || IsObstacle(objs[j])) && HitBy(self, objs, j, id) {
      var j :| 0 <= j < |objs| && (IsPlatform(objs[j]) || IsObstacle(objs[j])) && HitBy(self, objs, j, id);
      ManagedIdsComplete(self, objs, j, id);
    }
  }

  lemma ManagedIdsSound(self: GameObjectData, objs: seq<GameObjectData>, id: int)
    requires self.typeName == "player" && CanManage(self, objs)
    requires id in ManagedIds(self, objs)
    ensures exists j :: 0 <= j < |objs| && (IsPlatform(objs[j]) || IsObstacle(objs[j])) && HitBy(self, objs, j, id)
  {
    CanManageFilters(self, objs);
    var prefix := if id in PlatformHits(self, objs) then "platform_" else "obstacle_";
    var sub := WithPrefix(objs, prefix);
    CollisionCheckMembers(self, sub, id);
    var j :| 0 <= j < |sub| && sub[j].id != self.id && sub[j].collider.Some? &&
             sub[j].collider.value.gameObjectID == id && IsCollision(self.collider.value, sub[j].collider.value);
    WithPrefixMembers(objs, prefix, sub[j]);
    var k :| 0 <= k < |objs| && objs[k] == sub[j];
    assert HitBy(self, objs, k, id);
  }

  lemma ManagedIdsComplete(self: GameObjectData, objs: seq<GameObjectData>, j: int, id: int)
    requires self.typeName == "player" && CanManage(self, objs)
    requires 0 <= j < |objs| && (IsPlatform(objs[j]) || IsObstacle(objs[j])) && HitBy(self, objs, j, id)
    ensures id in ManagedIds(self, objs)
  {
    CanManageFilters(self, objs);
    var prefix := if IsPlatform(objs[j]) then "platform_" else "obstacle_";
    var sub := WithPrefix(objs, prefix);
    WithPrefixMembers(objs, prefix, objs[j]);
    var k :| 0 <= k < |sub| && sub[k] == objs[j];
    CollisionCheckMembers(self, sub, id);
  }

  /** With every collider carrying its owner's id, the player's own id is
      never returned. */
  lemma ManagedIdsNeverSelf(self: GameObjectData, objs: seq<GameObjectData>)
    requires self.typeName == "player" && CanManage(self, objs) && ConsistentIds(objs)
    ensures self.id !in ManagedIds(self, objs)
  {
    ManagedIdsMembers(self, objs, self.id);
  }

  /** Only the player collides. */
  lemma OthersNeverCollide(self: GameObjectData, objs: seq<GameObjectData>)
    requires self.typeName != "player"
    ensures ManagedIds(self, objs) == [] && Landed(self, objs) == self
  {
  }

  /** The player's half-unit box can never contain a platform one unit wide,
      so because of the containment test the player built by the factory
      never hits a platform built by the factory, wherever both are. */
  lemma PlayerNeverHitsPlatform(pos: Vec3, id: int, colour: string, pos': Vec3, id': int, roll: nat, roll': nat)
    ensures var player := Construct("player", pos, id, roll);
            var platform := Construct("platform_" + colour, pos', id', roll');
            !IsCollision(player.collider.value, platform.collider.value)
  {
    PlayerConstruction(pos, id, roll);
    PlatformPlacement(colour, pos', id', roll');
    var player := Construct("player", pos, id, roll);
    var platform := Construct("platform_" + colour, pos', id', roll');
    if IsCollision(player.collider.value, platform.collider.value) {
      BoxBoxNeedsLargerFirst(player.collider.value, platform.collider.value);
    }
  }

  /** The entity with its own member functions, updating its fields in
      place. `Data()` is the value the game's map stores. */
  class GameObject {
    var id: int
    var typeName: string
    var position: Vec3
    var scale: Vec3
    var material: Material
    var rigidbody: RigidBody
    var collider: Option<ColliderData>
    var distortedTime: real
    var isInJump: bool
    var isRendered: bool

    function Data(): GameObjectData
      reads this
    {
      GameObjectData(id, typeName, position, scale, material, rigidbody, collider,
                     distortedTime, isInJump, isRendered)
    }

    constructor Default()
      ensures Data() == DefaultGameObject()
    {
      id := -1;
      typeName := "";
      position := Origin;
      scale := Origin;
      material := NoMaterial;
      rigidbody := NewRigidBody();
      collider := None;
      distortedTime := 0.0;
      isInJump := false;
      isRendered := true;
    }

    /** The entry a reference into the game's map designates, loaded from
        the value stored there; its new value is stored back afterwards. */
    constructor Stored(o: GameObjectData)
      ensures Data() == o
    {
      id := o.id;
      typeName := o.typeName;
      position := o.position;
      scale := o.scale;
      material := o.material;
      rigidbody := o.rigidbody;
      collider := o.collider;
      distortedTime := o.distortedTime;
      isInJump := o.isInJump;
      isRendered := o.isRendered;
    }

    /** The typed constructor: takes the next id from the counter and bumps
        it, so successive objects get strictly increasing ids. */
    constructor Typed(registry: Registry, typeName: string, pos: Vec3, planetRoll: nat)
      modifies registry
      ensures Data() == Construct(typeName, pos, old(registry.currentMaxID), planetRoll)
      ensures registry.currentMaxID == old(registry.currentMaxID) + 1
      ensures id < registry.currentMaxID
    {
      var o := Construct(typeName, pos, registry.currentMaxID, planetRoll);
      id := o.id;
      this.typeName := o.typeName;
      position := o.position;
      scale := o.scale;
      material := o.material;
      rigidbody := o.rigidbody;
      collider := o.collider;
      distortedTime := o.distortedTime;
      isInJump := o.isInJump;
      isRendered := o.isRendered;
      registry.currentMaxID := registry.currentMaxID + 1;
    }

    method UpdatePlatformData()
      modifies this
      ensures Data() == RecolourPlatform(old(Data()))
    {
      if !StartsWith(typeName, "platform_") {
        return;
      }
      var colour := PlatformColour(Suffix(typeName));
      if colour.Some? {
        material := material.(ambient := colour.value.0, emmisive := colour.value.1);
      }
    }

    /** setScale: the collider, when there is one, takes the new dimensions. */
    method SetScale(newScale: Vec3)
      modifies this
      ensures scale == newScale
      ensures old(collider).Some? ==> collider == Some(old(collider).value.(dimensions := newScale))
      ensures Data() == old(Data()).(scale := newScale, collider := collider)
      ensures old(collider).None? ==> collider == None
    {
      if collider.Some? {
        collider := Some(collider.value.(dimensions := newScale));
      }
      scale := newScale;
    }

    method SetDistorted(time: real)
      modifies this
      ensures Data() == old(Data()).(distortedTime := time)
    {
      distortedTime := time;
    }

    method SetPosition(newPosition: Vec3)
      modifies this
      ensures Data() == old(Data()).(position := newPosition)
    {
      position := newPosition;
    }

    method SetType(newType: string)
      modifies this
      ensures Data() == old(Data()).(typeName := newType)
    {
      typeName := newType;
    }

    method SetRendered(rendered: bool)
      modifies this
      ensures Data() == old(Data()).(isRendered := rendered)
    {
      isRendered := rendered;
    }

    method EnablePhysics()
      modifies this
      ensures Data() == old(Data()).(rigidbody := old(rigidbody).(physicsEnabled := true))
    {
      rigidbody := rigidbody.(physicsEnabled := true);
    }

    method DisablePhysics()
      modifies this
      ensures Data() == old(Data()).(rigidbody := old(rigidbody).(physicsEnabled := false))
    {
      rigidbody := rigidbody.(physicsEnabled := false);
    }

    method MovementType(mType: MotionType)
      modifies this
      ensures Data() == old(Data()).(rigidbody := old(rigidbody).(mType := mType))
    {
      rigidbody := rigidbody.(mType := mType);
    }

    /** setMovementFunction: `None` stands for a null function pointer,
        which makes the body's integration step leave it as it is. */
    method MovementFunction(f: Option<MovementFn>)
      modifies this
      ensures Data() == old(Data()).(rigidbody := old(rigidbody).(mFunc := f))
    {
      rigidbody := rigidbody.(mFunc := f);
    }

    method UpdatePhysics(currentTime: real, deltaTime: real)
      requires collider.Some?
      modifies this
      ensures Data() == PhysicsStep(old(Data()), currentTime, deltaTime)
    {
      if distortedTime > 0.0 {
        distortedTime := distortedTime - deltaTime;
      }
      rigidbody := Physics.UpdatePhysics(rigidbody, currentTime, deltaTime);
      position := rigidbody.state.x;
      collider := Some(collider.value.(position := position));
    }

    /** CollisionCheck: gathers the colliders of every object but this one,
        then asks the collision manager which of them this collider hits. */
    method CollisionCheck(gameObjects: seq<GameObjectData>) returns (ids: seq<int>)
      requires collider.Some? && CollidersPresent(Data(), gameObjects)
      ensures ids == CollisionCheckIds(Data(), gameObjects)
    {
      var colArray: seq<ColliderData> := [];
      var i := 0;
      while i < |gameObjects|
        invariant 0 <= i <= |gameObjects|
        invariant colArray == Candidates(Data(), gameObjects[..i])
      {
        assert gameObjects[..i + 1][..i] == gameObjects[..i];
        if gameObjects[i].id != id {
          colArray := colArray + [gameObjects[i].collider.value];
        }
        i := i + 1;
      }
      assert gameObjects[..i] == gameObjects;
      ids := GetCollisions(collider.value, colArray);
    }

    /** The objects of `objs` whose type starts with `prefix`, gathered in a
        loop as the source does. */
    static method Gather(objs: seq<GameObjectData>, prefix: string) returns (r: seq<GameObjectData>)
      ensures r == WithPrefix(objs, prefix)
    {
      r := [];
      var i := 0;
      while i < |objs|
        invariant 0 <= i <= |objs|
        invariant r == WithPrefix(objs[..i], prefix)
      {
        assert objs[..i + 1][..i] == objs[..i];
        if StartsWith(objs[i].typeName, prefix) {
          r := r + [objs[i]];
        }
        i := i + 1;
      }
      assert objs[..i] == objs;
    }

    /** ManageCollisions: platforms first, then the landing correction, then
        the obstacles, appended one by one. */
    method ManageCollisions(collCheck: seq<GameObjectData>) returns (collided: seq<int>)
      requires CanManage(Data(), collCheck)
      modifies this
      ensures collided == ManagedIds(old(Data()), collCheck)
      ensures Data() == Landed(old(Data()), collCheck)
    {
      if typeName != "player" {
        return [];
      }
      ghost var self := Data();
      CanManageFilters(self, collCheck);
      var platforms := Gather(collCheck, "platform_");
      collided := CollisionCheck(platforms);
      assert collided == PlatformHits(self, collCheck);
      if |collided| > 0 && rigidbody.state.x.y > -PlayerHeight / 4.0 {
        rigidbody := rigidbody.(state := rigidbody.state.(v := rigidbody.state.v.(y := 0.0)));
        rigidbody := rigidbody.(state := rigidbody.state.(x := rigidbody.state.x.(y := PlatformTopHeight + PlayerHeight / 4.0)));
        isInJump := false;
      }
      assert Data() == Landed(self, collCheck);
      var obstacles := Gather(collCheck, "obstacle_");
      assert Candidates(Data(), obstacles) == Candidates(self, obstacles) by {
        CandidatesSameId(Data(), self, obstacles);
      }
      var collidedObst := CollisionCheck(obstacles);
      assert collidedObst == ObstacleHits(self, collCheck);
      collided := AppendIds(collided, collidedObst);
    }

    /** The obstacle ids pushed back one by one after the platform ids. */
    static method AppendIds(front: seq<int>, back: seq<int>) returns (r: seq<int>)
      ensures r == front + back
    {
      r := front;
      var k := 0;
      while k < |back|
        invariant 0 <= k <= |back|
        invariant r == front + back[..k]
      {
        r := r + [back[k]];
        assert back[..k + 1] == back[..k] + [back[k]];
        k := k + 1;
      }
      assert back[..k] == back;
    }
  }

  /** The candidates depend only on the id of `self`. */
  lemma {:induction false} CandidatesSameId(a: GameObjectData, b: GameObjectData, objs: seq<GameObjectData>)
    requires a.id == b.id && CollidersPresent(a, objs)
    ensures CollidersPresent(b, objs) && Candidates(a, objs) == Candidates(b, objs)
  {
    if objs != [] {
      CandidatesSameId(a, b, objs[..|objs| - 1]);
    }
  }
}
