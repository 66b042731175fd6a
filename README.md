# Skyroads gameplay core in Dafny

This project models the gameplay simulation of Skyroads, a three-lane
arcade runner written in C++ over OpenGL. The player's ship runs down the
lanes over coloured platforms. Each colour has an effect: red ends the
game, yellow costs fuel, orange forces full speed, green adds fuel and
white adds a life. Purple is a used platform and blue a plain one. Fuel
burns with speed, and running out of fuel costs a life.

The model covers six source files:

- `vectors.dfy` stands for glm's `vec3`, over the reals.
- `colliders.dfy` models the box and sphere colliders (`Colliders.cpp`).
- `collision_manager.dfy` models the narrow-phase collision tests and
  `getCollisions` (`CollisionManager.cpp`).
- `physics.dfy` models the rigid body, its RK4 and Euler integrator, the
  impulse with its velocity clamp, and the engine's clock (`Physics.cpp`,
  `Physics.hpp`).
- `game_object.dfy` models the entity factory, platform recolouring, the
  per-frame physics step, `CollisionCheck` and `ManageCollisions`
  (`GameObject.cpp`, `GameObject.hpp`).
- `game_manager.dfy` models the session (`GameManager.cpp`,
  `GameManager.hpp`): player steering, camera field of view, score, fuel
  and lives, platform spawning and despawning with per-lane spawn cursors,
  the collision pass with its power-ups, key and mouse input, and the
  frame loop of `Update`.

Entities are values: the C++ session keeps them by value in an
`unordered_map<long, GameObject>`. The model keeps them the same way, as
`GameObjectData` in a `map<int, GameObjectData>` field of the
`GameManager` class. Its methods update that map in place.
`GameObjects.GameObject` and `Colliders.Collider` are classes for the
entity and collider APIs whose setters change fields. `Registry` holds
the static id counter `currentMaxID`. `PhysixEngine` holds the static
clock `current_time`.

Square roots never appear in the model:

- A collision test `sqrt(d2) < r` is stated as `r > 0 && d2 < r * r`.
- `AddImpulse` takes `glm::length` as a function parameter. The lemmas
  about it require that function to return the Euclidean length.

Random rolls, the elapsed-time clock, held keys and mouse buttons are
parameters of the operations that read them. The iteration order of the
`unordered_map` is also a parameter: `UpdateObjects` returns the order it
used.

Main results:

- The collision pass is idempotent. Every power-up platform hit turns
  purple, and hitting it again does nothing (`CollisionsIdempotent`).
- Power-ups never push fuel above `maxFuel` or lives above `maxLives`
  (`CollisionsKeepBounds`).
- Spawning adds exactly one platform, in the lane whose cursor is furthest
  back, and moves only that cursor, by a gap in `[38.3, 65.3]`. While
  every key is an id the counter has already handed out, the new id is
  fresh and the table grows by exactly one entry (`SpawnPlatform`).
- Despawning removes exactly the platforms far enough behind the player.
- The cursor correction keeps every cursor at least `noSpawnRange` ahead
  of the player.
- Fuel burning keeps fuel positive while lives remain. The field of view
  stays within `[minFov, maxFov]`.
- On every table the game can build (the player plus factory platforms),
  no power-up ever fires. The box-box test checks containment of the
  second box's centre-offset box inside the first (`CollisionManager.cpp`
  line 33 computes `secondMax` from `firstPos`). The player's 0.5 box
  therefore never "contains" a 33.3-long platform. `NoPowerUpEverFires`
  proves that a whole frame of the object loop leaves the game state
  untouched. `Update`'s contract carries the consequence to the frame:
  fuel, lives and speed follow only steering, burning and the forced-speed
  timer.
- A whole frame is specified on the session value: `Update` leaves the
  session as `GameStep` (player, camera, score, platforms, fuel and
  lives) followed by the object loop, and `GameStepOutcome` states what a
  step does to the status, the score, the fuel and the lives.

## Model

| member | source | states |
|---|---|---|
| Vectors.Splat | Source/src/GameEngine/GameObject.cpp:20 | `glm::vec3(a)` puts `a` in all three components |
| Vectors.LengthSq | Source/src/GameEngine/Physics.cpp:88 | the squared length of a vector is never negative |
| Vectors.DistanceSq | Source/src/GameEngine/CollisionManager.cpp:49-51 | the squared distance between two points is never negative |
| Vectors.DistanceSqSymmetric | Source/src/GameEngine/CollisionManager.cpp:49-51 | the squared distance from a to b equals that from b to a |
| Vectors.LengthSqScale | Source/src/GameEngine/Physics.cpp:89-90 | scaling a vector by k multiplies its squared length by k*k |
| Colliders.NewBox | Source/src/GameEngine/Colliders.cpp:43-51 | a box collider carries its object's id and dimensions, radius 0, and does not affect physics |
| Colliders.NewSphere | Source/src/GameEngine/Colliders.cpp:63-71 | a sphere collider carries its id, centre and radius, unit dimensions, and does not affect physics |
| Colliders.NewBoxIgnoresPosition | Source/src/GameEngine/Colliders.cpp:47 | the box constructor's self-assignment drops the given position: two boxes built at different places are equal |
| Colliders.Collider.Box | Source/src/GameEngine/Colliders.cpp:43-51 | the box constructor sets id, kind, dimensions and radius 0, and leaves physics off |
| Colliders.Collider.Sphere | Source/src/GameEngine/Colliders.cpp:63-71 | the sphere constructor builds exactly the sphere collider value |
| Colliders.Collider.Copy | Source/src/GameEngine/Colliders.cpp:33-41 | the copy constructor copies every field, the id included |
| Colliders.Collider.SetPosition | Source/src/GameEngine/Colliders.cpp:8-11 | setPosition changes the position and nothing else |
| Colliders.Collider.AffectsPhysics | Source/src/GameEngine/Colliders.cpp:18-21 | affectsPhysics sets the flag that isAffectingPhysics reads, and nothing else |
| Colliders.Collider.SetDimensions | Source/src/GameEngine/Colliders.cpp:58-61 | setDimensions changes the dimensions and nothing else |
| Colliders.Collider.SetRadius | Source/src/GameEngine/Colliders.cpp:78-80 | setRadius changes the radius and nothing else |
| CollisionManager.Collided | Source/src/GameEngine/CollisionManager.cpp:3-12 | getCollisions reports at most one id per candidate collider |
| CollisionManager.GetCollisions | Source/src/GameEngine/CollisionManager.cpp:3-12 | the loop collects, in order, the ids of exactly the colliders that collide with the source |
| CollisionManager.CollidedAppend | Source/src/GameEngine/CollisionManager.cpp:3-12 | collecting over two lists joined is collecting over each and joining the results |
| CollisionManager.CollidedMembers | Source/src/GameEngine/CollisionManager.cpp:3-12 | an id is reported if and only if some candidate carrying it collides with the source |
| CollisionManager.SphereSphereSymmetric | Source/src/GameEngine/CollisionManager.cpp:40-53 | the sphere-sphere test does not depend on which sphere comes first |
| CollisionManager.BoxSphereEitherOrder | Source/src/GameEngine/CollisionManager.cpp:57-102 | the box-sphere and sphere-box branches agree, so the order of a box and a sphere does not matter |
| CollisionManager.BoxBoxNeedsLargerFirst | Source/src/GameEngine/CollisionManager.cpp:20-38 | as written, box-box reports a collision only when the first box is at least as large as the second on every axis |
| CollisionManager.BoxBoxNotSymmetric | Source/src/GameEngine/CollisionManager.cpp:20-38 | as written, box-box is not symmetric: a unit box inside a 2-unit box is hit in one order and missed in the other |
| CollisionManager.SphereCentreInsideBox | Source/src/GameEngine/CollisionManager.cpp:57-102 | a sphere with a positive radius whose centre lies inside a box collides with it, in both orders |
| CollisionManager.CentreInsideBoxSphere | Source/src/GameEngine/CollisionManager.cpp:64-78 | when the sphere's centre lies in the box, the box's closest point is inside the sphere |
| CollisionManager.CentreWithinSphere | Source/src/GameEngine/CollisionManager.cpp:74-78 | a sphere with a positive radius contains its own centre |
| CollisionManager.ClosestPointOfInside | Source/src/GameEngine/CollisionManager.cpp:64-70 | clamping a point that lies in the box returns the point itself |
| CollisionManager.NonPositiveRadiusMissesBox | Source/src/GameEngine/CollisionManager.cpp:57-102 | a sphere whose radius is not positive never collides with a box, in either order |
| Physics.NewState | Source/src/GameEngine/Physics.hpp:12-18 | a fresh state has drag 0.1, no gravity, and rests at the origin |
| Physics.NewRigidBody | Source/src/GameEngine/Physics.cpp:94 | a fresh body is simulated, physics on, with no movement function and a 2500 velocity limit |
| Physics.ComputeAcceleration | Source/src/GameEngine/Physics.cpp:9-20 | acceleration has no z part; x comes only from drag on a moving body, y only from gravity |
| Physics.UpdatePhysics | Source/src/GameEngine/Physics.cpp:74-79 | a body with physics off is unchanged; otherwise it takes one RK4 step at the engine's time |
| Physics.FunctionBodyFollowsItsFunction | Source/src/GameEngine/Physics.cpp:67-71 | a function-driven body changes only through its movement function, and not at all without one |
| Physics.RK4ExactWithoutDrag | Source/src/GameEngine/Physics.cpp:43-58 | without drag, one RK4 step equals the exact motion under constant gravity: x + v dt + a dt²/2 and v + a dt |
| Physics.FreeMotionRK4 | Source/src/GameEngine/Physics.cpp:43-58 | without drag or gravity, RK4 keeps the velocity and moves the body by v dt |
| Physics.EulerUsesOldVelocity | Source/src/GameEngine/Physics.cpp:59-65 | the non-RK4 step moves the position with the old velocity (explicit Euler) |
| Physics.WeightedSame | Source/src/GameEngine/Physics.cpp:52-53 | the RK4 weights 1/6, 2/6, 2/6, 1/6 sum to one |
| Physics.AddImpulse | Source/src/GameEngine/Physics.cpp:96-103 | an impulse never moves the body or changes its mode, limit or physics flag; a function-driven body ignores it |
| Physics.ImpulseUnlimited | Source/src/GameEngine/Physics.cpp:85-87 | with the limit -1 the impulse is added to the velocity exactly |
| Physics.ImpulseClamped | Source/src/GameEngine/Physics.cpp:85-92 | when the new speed exceeds a non-negative limit, the velocity keeps its direction, shrunk to exactly the limit |
| Physics.ShrinkFactor | Source/src/GameEngine/Physics.cpp:89-90 | normalising then multiplying by a smaller limit scales by some k in [0, 1) and yields length equal to the limit |
| Physics.ImpulseWithinLimit | Source/src/GameEngine/Physics.cpp:85-92 | when the new speed is within a non-negative limit, the impulse is added exactly |
| Physics.ImpulseRespectsLimit | Source/src/GameEngine/Physics.cpp:85-103 | after an impulse the speed never exceeds a non-negative limit |
| Physics.PhysixEngine.constructor | Source/src/GameEngine/Physics.cpp:7 | the physics clock starts at 0 |
| Physics.PhysixEngine.UpdateTime | Source/src/GameEngine/Physics.cpp:81-83 | UpdateTime advances the clock by exactly deltaTime |
| GameObjects.DefaultGameObject | Source/src/GameEngine/GameObject.cpp:10 | the default object has id -1, empty type, no collider, rests at the origin, rendered, not jumping, undistorted |
| GameObjects.FindChar | Source/src/GameEngine/GameObject.cpp:277 | find returns the first position of the character, and none exactly when it is absent |
| GameObjects.SuffixOfTagged | Source/src/GameEngine/GameObject.cpp:277 | the text after the first `_` of "head_tail" is "tail" when head has no `_` |
| GameObjects.RecolourPlatform | Source/src/GameEngine/GameObject.cpp:272-306 | only a platform's ambient and emissive colours change, to the pair its colour names; anything else is untouched |
| GameObjects.RecolourIdempotent | Source/src/GameEngine/GameObject.cpp:272-306 | UpdatePlatformData is safe to call every frame: a second call changes nothing |
| GameObjects.RecolourDependsOnSuffix | Source/src/GameEngine/GameObject.cpp:272-306 | two platforms with the same colour suffix and material get the same material |
| GameObjects.Construct | Source/src/GameEngine/GameObject.cpp:12-270 | the factory stores the id and type, is rendered, not jumping, undistorted, and its collider carries its id |
| GameObjects.PlatformPlacement | Source/src/GameEngine/GameObject.cpp:39-63 | a platform sits with its top at platformTopHeight, 1 x 0.25 x 33.3, static, with a box collider of its scale and its colour's material |
| GameObjects.PlayerConstruction | Source/src/GameEngine/GameObject.cpp:19-38 | the player has a half-unit box collider and a simulated body at its position with gravity 0.33 |
| GameObjects.ObstacleColliders | Source/src/GameEngine/GameObject.cpp:160-193 | a bad obstacle has a 10 x 2 x 1 box, a good one a 1.2 box, any other none; obstacles are static |
| GameObjects.Registry.constructor | Source/src/GameEngine/GameObject.cpp:5 | ids are handed out from 0 |
| GameObjects.PhysicsStep | Source/src/GameEngine/GameObject.cpp:539-548 | the distortion timer runs down only while positive; the body takes its physics step; position and collider follow the body; nothing else changes |
| GameObjects.PlatformStaysPut | Source/src/GameEngine/GameObject.cpp:39-63 | a factory platform never moves under the physics step (its physics is off) |
| GameObjects.Candidates | Source/src/GameEngine/GameObject.cpp:525-534 | CollisionCheck's candidate list is no longer than the list of objects |
| GameObjects.CandidatesMembers | Source/src/GameEngine/GameObject.cpp:525-534 | a collider is a candidate if and only if it belongs to an object with a different id |
| GameObjects.CollisionCheckMembers | Source/src/GameEngine/GameObject.cpp:525-537 | CollisionCheck reports an id if and only if some other object's collider with that id collides with this one |
| GameObjects.CollisionCheckNeverSelf | Source/src/GameEngine/GameObject.cpp:525-537 | when every object's collider carries its own id, an object never reports itself |
| GameObjects.WithPrefix | Source/src/GameEngine/GameObject.cpp:438-443 | filtering by type prefix keeps at most every object |
| GameObjects.WithPrefixMembers | Source/src/GameEngine/GameObject.cpp:438-443 | an object survives the filter if and only if it is in the list and its type starts with the prefix |
| GameObjects.CanManageFilters | Source/src/GameEngine/GameObject.cpp:438-465 | the platform and obstacle sub-lists still have colliders wherever CollisionCheck needs one |
| GameObjects.Landed | Source/src/GameEngine/GameObject.cpp:434-475 | only the player reacts: touching a platform above -playerHeight/4 snaps it onto the platform top, stops its fall and ends its jump; otherwise nothing changes |
| GameObjects.ManagedIdsMembers | Source/src/GameEngine/GameObject.cpp:434-475 | the player reports an id if and only if some platform or obstacle other than itself with that id collides with it |
| GameObjects.ManagedIdsSound | Source/src/GameEngine/GameObject.cpp:434-475 | every id the player reports belongs to a colliding platform or obstacle |
| GameObjects.ManagedIdsComplete | Source/src/GameEngine/GameObject.cpp:434-475 | every colliding platform or obstacle is reported |
| GameObjects.ManagedIdsNeverSelf | Source/src/GameEngine/GameObject.cpp:434-475 | the player never reports its own id |
| GameObjects.OthersNeverCollide | Source/src/GameEngine/GameObject.cpp:436 | any object other than the player reports nothing and is left unchanged |
| GameObjects.PlayerNeverHitsPlatform | Source/src/GameEngine/CollisionManager.cpp:20-38 | as written, a factory player never collides with a factory platform, wherever both stand |
| GameObjects.CandidatesSameId | Source/src/GameEngine/GameObject.cpp:525-534 | the candidate list depends only on the checking object's id |
| GameObjects.GameObject.Default | Source/src/GameEngine/GameObject.cpp:10 | the default constructor builds the default object |
| GameObjects.GameObject.Stored | Source/src/GameManager.cpp:271-276 | the object the loop works on through a reference into the map holds exactly the entry stored there |
| GameObjects.GameObject.Typed | Source/src/GameEngine/GameObject.cpp:12-13 | the typed constructor builds the factory object under the next id and advances the counter by one |
| GameObjects.GameObject.UpdatePlatformData | Source/src/GameEngine/GameObject.cpp:272-306 | the object becomes its recoloured self |
| GameObjects.GameObject.SetScale | Source/src/GameEngine/GameObject.cpp:487-493 | the scale changes and a collider, if any, takes it as its dimensions; nothing else changes |
| GameObjects.GameObject.SetDistorted | Source/src/GameEngine/GameObject.cpp:500-503 | only the distortion timer changes |
| GameObjects.GameObject.SetPosition | Source/src/GameEngine/GameObject.cpp:505-508 | only the position changes (not the body or the collider) |
| GameObjects.GameObject.SetType | Source/src/GameEngine/GameObject.cpp:520-523 | only the type name changes (the material is not recomputed) |
| GameObjects.GameObject.SetRendered | Source/src/GameEngine/GameObject.cpp:477-480 | only the rendered flag changes |
| GameObjects.GameObject.EnablePhysics | Source/src/GameEngine/GameObject.cpp:550-553 | only the body's physics flag changes, to on |
| GameObjects.GameObject.DisablePhysics | Source/src/GameEngine/GameObject.cpp:555-558 | only the body's physics flag changes, to off |
| GameObjects.GameObject.MovementType | Source/src/GameEngine/GameObject.cpp:560-563 | only the body's motion type changes |
| GameObjects.GameObject.MovementFunction | Source/src/GameEngine/GameObject.cpp:565-568 | only the body's movement function changes, to the one given or to none (a null pointer) |
| GameObjects.GameObject.UpdatePhysics | Source/src/GameEngine/GameObject.cpp:539-548 | the object takes exactly its physics step |
| GameObjects.GameObject.CollisionCheck | Source/src/GameEngine/GameObject.cpp:525-537 | the loop returns exactly the ids of the other objects it collides with |
| GameObjects.GameObject.Gather | Source/src/GameEngine/GameObject.cpp:438-443 | the loop keeps exactly the objects with the prefix, in order |
| GameObjects.GameObject.ManageCollisions | Source/src/GameEngine/GameObject.cpp:434-475 | returns the platform hits followed by the obstacle hits, and the object becomes its landed self |
| GameObjects.GameObject.AppendIds | Source/src/GameEngine/GameObject.cpp:467-469 | pushing every obstacle id onto the platform ids yields their concatenation |
| Skyroads.InitialGameState | Source/src/GameManager.hpp:60-81 | a fresh game has full fuel, lives in [1, maxLives], speed in range and equal to its saved speed, FOV in range, third person, one cursor per lane, no platforms, no points |
| Skyroads.DerivedConstants | Source/src/GameManager.hpp:39-56 | maxPlatformGap is 33 (33.3 truncated), fuel gain 33 and loss 10; the speed and FOV ranges are non-empty |
| Skyroads.Pow10 | Source/src/GameManager.cpp:24 | 10^p is at least 1 |
| Skyroads.Round | Source/src/GameManager.cpp:25 | rounding moves a value by at most one half and keeps non-negative values non-negative |
| Skyroads.Trunc | Source/src/GameManager.cpp:345 | the `(int)` cast truncates toward zero |
| Skyroads.RoundInteger | Source/src/GameManager.cpp:25 | an integer rounds to itself |
| Skyroads.RoundWithin | Source/src/GameManager.cpp:25 | a value between two integers rounds to an integer between them |
| Skyroads.AffineEnds | Source/src/GameManager.cpp:18-23 | mapBetweenRanges' linear map sends fromA to toA and fromB to toB |
| Skyroads.AffineWithin | Source/src/GameManager.cpp:18-23 | a source within [fromA, fromB] maps within [toA, toB] |
| Skyroads.MapRoundsAffine | Source/src/GameManager.cpp:17-26 | mapBetweenRanges is the linear map rounded to the given decimals: off by at most half a unit of the last decimal |
| Skyroads.RoundToWithin | Source/src/GameManager.cpp:24-25 | rounding to p decimals is off by at most half a unit of the last decimal |
| Skyroads.RoundedWithin | Source/src/GameManager.cpp:25 | rounding at scale c is off by at most half of 1/c |
| Skyroads.MapAtStart | Source/src/GameManager.cpp:17-26 | mapping fromA gives toA exactly when toA has at most p decimals |
| Skyroads.RoundToExact | Source/src/GameManager.cpp:24-25 | a value with at most p decimals is unchanged by rounding to p decimals |
| Skyroads.RoundedExact | Source/src/GameManager.cpp:25 | a value that is a multiple of 1/c is unchanged by rounding at scale c |
| Skyroads.SpeedMapWithin | Source/src/GameManager.cpp:17-26 | mapping a speed in range onto a one-decimal range stays within it, after rounding |
| Skyroads.RoundToOneDecimal | Source/src/GameManager.cpp:24-25 | rounding to one decimal keeps a value between two one-decimal bounds |
| Skyroads.FovFor | Source/src/GameManager.cpp:144 | for a speed in range, the camera FOV lies in [minFov, maxFov] |
| Skyroads.FuelFactor | Source/src/GameManager.cpp:207 | for a speed in range, the fuel factor lies in [0.5, 1.5] |
| Skyroads.EffectIndexRange | Source/src/GameManager.cpp:371 | a roll of 60..99 maps to an effect index 0..8, so one of the five colours is always chosen |
| Skyroads.EntryPresent | Source/src/GameManager.cpp:294 | reading a present key through operator[] leaves the table as it was |
| Skyroads.FirstArgMax | Source/src/GameManager.cpp:359 | max_element picks the first lane with the largest cursor |
| Skyroads.SpeedAfterKeys | Source/src/GameManager.cpp:150-189 | keys keep the speed in range; A or D or forced speed leave it; W raises it by one step up to the maximum, S lowers it down to the minimum |
| Skyroads.Steered | Source/src/GameManager.cpp:155-163 | the player moves forward by the speed; A sets the lateral velocity left, otherwise D right, otherwise it is kept; nothing else changes |
| Skyroads.Score | Source/src/GameManager.cpp:337-340 | the score is the distance along z from the starting position, never negative |
| Skyroads.BurnFuel | Source/src/GameManager.cpp:207-217 | fuel burns by dt * fuelFlow * factor; at or below zero a life is lost and the tank refilled if a life remains; fuel is positive while lives remain |
| Skyroads.BurnNeverAddsFuel | Source/src/GameManager.cpp:207-217 | burning never adds fuel, except for the refill to maxFuel |
| Skyroads.ExpireForcedSpeed | Source/src/GameManager.cpp:226-229 | after forcedSpeedTime the forced speed ends and the saved speed returns; otherwise nothing changes |
| Skyroads.PowerUpBounds | Source/src/GameManager.cpp:304-331 | power-ups keep fuel at most maxFuel and lives at most maxLives |
| Skyroads.ApplyAppend | Source/src/GameManager.cpp:293-334 | a pass over two id lists is a pass over the first and, unless it stopped, the second |
| Skyroads.StepKeepsTypes | Source/src/GameManager.cpp:293-334 | a collision that does not stop the pass turns its platform purple and renames nothing else |
| Skyroads.PowerUpKeepsTypes | Source/src/GameManager.cpp:304-331 | power-ups rename no object |
| Skyroads.PassMarksPurple | Source/src/GameManager.cpp:289-335 | after a pass that did not stop, every collided id is a purple platform and no purple platform changed colour |
| Skyroads.PurplePassIsIdle | Source/src/GameManager.cpp:289-335 | a pass over used platforms changes nothing |
| Skyroads.PurpleStepIsIdle | Source/src/GameManager.cpp:293-333 | colliding with a used platform changes nothing |
| Skyroads.CollisionsIdempotent | Source/src/GameManager.cpp:289-335 | a pass over the ids twice equals one pass: no platform's effect is applied twice |
| Skyroads.CollisionsKeepBounds | Source/src/GameManager.cpp:289-335 | a whole pass keeps fuel at most maxFuel and lives at most maxLives |
| Skyroads.RedEndsGame | Source/src/GameManager.cpp:300-303 | a red platform first in the list ends the game with the truncated score, and the rest of the list is ignored |
| Skyroads.SpawnKindIsPlatform | Source/src/GameManager.cpp:364-398 | every roll spawns a platform: blue below 60, otherwise one of the effect colours |
| Skyroads.Gap | Source/src/GameManager.cpp:362 | the spawn gap lies in [minPlatformGap, maxPlatformGap) |
| Skyroads.SpawnAddsOnePlatform | Source/src/GameManager.cpp:356-404 | spawning adds exactly one new platform under the fresh id, in the chosen lane at that lane's cursor, and keeps every other entry |
| Skyroads.SpawnMovesOneCursor | Source/src/GameManager.cpp:400-403 | a spawn counts one more platform and moves back only the chosen lane's cursor, by platformLength plus a gap |
| Skyroads.SpawnedPlatform | Source/src/GameManager.cpp:366-396 | a spawned platform stands where it was placed, with the platform box collider |
| Skyroads.DespawnExact | Source/src/GameManager.cpp:406-420 | despawn removes exactly the platforms further behind the player than half a platform plus noSpawnRange, keeps the player, and lowers the count by the number removed |
| Skyroads.CorrectCursors | Source/src/GameManager.cpp:422-428 | every cursor ends at least noSpawnRange ahead of the player and never moves back; a cursor already far enough is untouched |
| Skyroads.CursorsOnlyMoveAhead | Source/src/GameManager.cpp:351-429 | after platform management every cursor is at or ahead of where it was, and at least noSpawnRange ahead of the player |
| Skyroads.CameraToggleTwice | Source/src/GameManager.cpp:439-443 | pressing C twice restores the camera mode, with the rotation reset |
| Skyroads.JumpOnlyFromGround | Source/src/GameManager.cpp:444-450 | Space starts a jump with speed 3.33 only when not jumping; pressing again mid-jump changes nothing |
| Skyroads.Rotated | Source/src/GameManager.cpp:459-479 | mouse rotation stays within ±0.275 and ±0.5, and equals the unclamped move when that is in bounds |
| Skyroads.InitialPlayer | Source/src/GameManager.cpp:72-77 | the first object is the player at key 0 with its box collider, drag 10, in a jump |
| Skyroads.Viewed | Source/src/GameManager.cpp:263-266 | the address vector reads, position by position, the current entry of each listed key |
| Skyroads.ManagedIdsInTable | Source/src/GameManager.cpp:276 | every id ManageCollisions returns is a key of the table, so CheckCollisions never inserts a default object during the loop |
| Skyroads.ViewHasColliders | Source/src/GameManager.cpp:263-276 | when every entry has a collider, every object can run ManageCollisions on the vector |
| Skyroads.PowerUpKeepsFiled | Source/src/GameManager.cpp:304-331 | power-ups keep the table's keys and its id and collider bookkeeping |
| Skyroads.EffectKeepsFiled | Source/src/GameManager.cpp:293-333 | one collision on a present id keeps the table's keys and bookkeeping |
| Skyroads.CollisionsKeepFiled | Source/src/GameManager.cpp:289-335 | a pass over present ids keeps the table's keys and bookkeeping |
| Skyroads.Visit | Source/src/GameManager.cpp:271-280 | visiting one object keeps the table's keys and bookkeeping |
| Skyroads.VisitReady | Source/src/GameManager.cpp:273-276 | after the physics step and the landing, the table is still filed and every id returned is a key |
| Skyroads.RunObjects | Source/src/GameManager.cpp:271-280 | the object loop keeps the table's keys and bookkeeping |
| Skyroads.RunObjectsStep | Source/src/GameManager.cpp:271-280 | while the game runs, the loop from position i is a visit of the i-th key followed by the loop from i+1 |
| Skyroads.RunObjectsDone | Source/src/GameManager.cpp:271-280 | the loop changes nothing once the list is exhausted or the game is over |
| Skyroads.SpawnKeepsFiled | Source/src/GameManager.cpp:356-404 | spawning keeps the table filed and as built |
| Skyroads.DespawnKeepsFiled | Source/src/GameManager.cpp:406-420 | despawning keeps the table filed and as built |
| Skyroads.ManagePlatformsKeepsFiled | Source/src/GameManager.cpp:351-429 | platform management keeps the table filed and as built |
| Skyroads.SteeredKeepsFiled | Source/src/GameManager.cpp:155-163 | steering keeps the table filed and as built |
| Skyroads.PlayerHitsNothing | Source/src/GameEngine/GameObject.cpp:434-475 | on an as-built table the player, wherever it moved, reports no collision and does not land |
| Skyroads.VisitAsBuilt | Source/src/GameManager.cpp:271-280 | on an as-built table a visit only moves the visited object by its physics step; game state and status are untouched |
| Skyroads.VisitKeepsBuilt | Source/src/GameManager.cpp:271-280 | a visit keeps an as-built table as built and the game state unchanged |
| Skyroads.NoPowerUpEverFires | Source/src/GameManager.cpp:271-280 | on an as-built table the whole object loop leaves game state and status unchanged: no power-up ever fires |
| Skyroads.NoPowerUpFromHere | Source/src/GameManager.cpp:271-280 | the same from any position of the loop while the game runs |
| Skyroads.AdvanceStep | Source/src/GameManager.cpp:197-229 | the rest of a game step keeps the table filed and as built and adds no key but the id it is given |
| Skyroads.GameStep | Source/src/GameManager.cpp:192-230 | a game step keeps the table filed and as built and adds no key but the id it is given |
| Skyroads.SpawnIds | Source/src/GameManager.cpp:356-398 | a game step takes one id exactly when the platforms are below their limit and the player has not fallen (a fall exits before PlatformManagement) |
| Skyroads.UiIds | Source/src/GameManager.cpp:234-254 | RenderUI takes two ids plus one per remaining life |
| Skyroads.AdvanceStepOutcome | Source/src/GameManager.cpp:197-229 | the points become the player's score and the FOV is in range; with no life left after the burn the game ends on those points, otherwise it runs on with ≥ 1 life, fuel > 0 and the forced speed expired |
| Skyroads.GameStepOutcome | Source/src/GameManager.cpp:184-229 | a fall ends the game on the last points with the state untouched; otherwise the score is that of the steered player, the FOV is in range, and the frame ends the game on that score exactly when the burn leaves no life, else runs on with ≥ 1 life, fuel > 0 and the keys' speed, burn and expiry applied |
| Skyroads.ManagePlatformsKeys | Source/src/GameManager.cpp:351-429 | platform management adds no key but the id it is given |
| Skyroads.GameManager.constructor | Source/src/GameManager.cpp:42-78 | a new session has the default game state and exactly the player at key 0, as built; the id counter is then 1, so every key is an id already handed out |
| Skyroads.GameManager.AddGameObject | Source/src/GameManager.cpp:80-83 | the object is stored under its own id, replacing any entry there; nothing else changes |
| Skyroads.GameManager.GameOver | Source/src/GameManager.cpp:342-349 | the game ends with the truncated score; the table and state are kept |
| Skyroads.GameManager.UpdatePlayer | Source/src/GameManager.cpp:150-190 | the player is steered; falling below outOfBoundY ends the game before the speed is stored; otherwise the speed follows the keys |
| Skyroads.GameManager.Steer | Source/src/GameManager.cpp:155-182 | the key chain moves the player as Steered and computes the speed as SpeedAfterKeys |
| Skyroads.GameManager.UpdateCamera | Source/src/GameManager.cpp:126-148 | the player is rendered only in third person; the FOV follows the speed and stays in [minFov, maxFov] |
| Skyroads.GameManager.ComputeScore | Source/src/GameManager.cpp:337-340 | the points become the player's score; nothing else changes |
| Skyroads.GameManager.PlatformManagement | Source/src/GameManager.cpp:351-429 | spawn, despawn and cursor correction as specified, with one id used only when a platform spawns; the table stays filed and as built, and its keys stay ids already handed out |
| Skyroads.GameManager.SpawnPlatform | Source/src/GameManager.cpp:356-404 | below maxPlatforms, one platform is built under the next id and its lane's cursor moves back; otherwise nothing changes. When every key is an id already handed out, the new id is fresh: the table gains exactly that key, one entry more, and it holds a platform |
| Skyroads.GameManager.BuildPlatform | Source/src/GameManager.cpp:364-396 | the platform object is the factory object for its type and place under the next id, and the counter moves on by one |
| Skyroads.GameManager.DespawnPlatforms | Source/src/GameManager.cpp:406-420 | the behind platforms are erased and counted down |
| Skyroads.GameManager.EraseEach | Source/src/GameManager.cpp:416-420 | erasing each listed id removes exactly those ids and counts one per id |
| Skyroads.GameManager.CorrectSpawnCursors | Source/src/GameManager.cpp:422-428 | the cursors become their corrected values; nothing else changes |
| Skyroads.GameManager.UpdateGameState | Source/src/GameManager.cpp:192-230 | the whole session after the call is GameStep of the session before, the counter moves on by the ids a spawn takes, and the keys stay ids already handed out; a fall ends the game; while it runs, lives ≥ 1, fuel > 0 and FOV in range, and the player state is the keys' speed, then burning, then forced-speed expiry |
| Skyroads.GameManager.AdvanceGameState | Source/src/GameManager.cpp:197-229 | the whole session after the call is AdvanceStep of the session before (camera, score, platforms, then fuel, lives and forced speed); the counter moves on only for a spawn; while the game runs, lives ≥ 1, fuel > 0, FOV in range, and the player state is the burn followed by the forced-speed expiry |
| Skyroads.GameManager.CheckFuel | Source/src/GameManager.cpp:207-229 | the fuel and lives check is FuelStep of the session, and the speeds stay in range |
| Skyroads.GameManager.UpdateObjects | Source/src/GameManager.cpp:263-280 | the loop visits every key once, in the order returned, and the session ends as the object-loop function says |
| Skyroads.GameManager.VisitAll | Source/src/GameManager.cpp:271-280 | visiting the listed keys until the list or the game ends leaves the session as the object-loop function says, with the same keys |
| Skyroads.GameManager.VisitNext | Source/src/GameManager.cpp:271-280 | one iteration advances the object loop by exactly one key |
| Skyroads.GameManager.ListKeys | Source/src/GameManager.cpp:263-266 | the listing holds every key of the table exactly once |
| Skyroads.GameManager.VisitObject | Source/src/GameManager.cpp:272-276 | one iteration is exactly one visit of that key |
| Skyroads.GameManager.Update | Source/src/GameManager.cpp:259-283 | the whole session after a frame is GameStep of the session before and, if the game still runs, the object loop over the table GameStep left, in the order returned (every key once); the counter moves on by the ids of the spawn and, while the game runs, of RenderUI; a frame keeps the table filed and its keys ids already handed out; on an as-built table a running game's player state follows only the keys, the fuel and the forced-speed timer |
| Skyroads.GameManager.RenderUI | Source/src/GameManager.cpp:232-257 | RenderUI builds the fuel bar, its background and one icon per life, taking 2 + lives ids |
| Skyroads.GameManager.CheckCollisions | Source/src/GameManager.cpp:289-335 | the loop applies the collision pass to the session |
| Skyroads.GameManager.HandleCollision | Source/src/GameManager.cpp:294-333 | one id applies exactly its collision effect, and reports whether the pass stops |
| Skyroads.GameManager.ApplyPowerUp | Source/src/GameManager.cpp:304-331 | the colour's power-up is applied to the table and the player state; nothing else changes |
| Skyroads.GameManager.OnKeyPress | Source/src/GameManager.cpp:435-453 | a key press applies exactly the key's effect: C toggles the camera, Space jumps from the ground |
| Skyroads.GameManager.OnMouseMove | Source/src/GameManager.cpp:459-479 | with the right button held, the rotation moves within its bounds; otherwise nothing changes |

## Left out

- Rendering is not modelled: `Render`, lights, camera matrices, meshes,
  shaders, textures and the UI bars. The model keeps only the
  `isRendered` flag and the camera settings stored in the game state.
  `RenderUI` keeps only its effect on the id counter: its fuel bars and
  life icons are built by the typed constructor, so each frame that
  reaches it takes 2 + lives ids. `Render` also calls
  `UpdatePlatformData` on every object each frame (GameObject.cpp:332),
  and `Visit` leaves that recolour out. On as-built tables this changes
  nothing: factory platforms already carry their colour's material
  (`PlatformPlacement`), and no platform is ever retyped
  (`NoPowerUpEverFires`).
- GameObjects.PhysicsStep: the C++ dereferences the collider without a
  check, in `UpdatePhysics` (GameObject.cpp:546) and in
  `CollisionCheck`, through `*this->collider` and every pushed
  `obj->collider` (GameObject.cpp:530-536). A missing collider there is
  undefined behaviour. The model therefore requires a collider in
  `PhysicsStep`, `GameObject.UpdatePhysics`, `CollisionCheckIds` and
  `GameObject.CollisionCheck`. `Filed` guarantees one for every object
  that `Update` visits, and it holds in every frame.
- `Load*` and `getGameObject` are not modelled. They only fill or expose
  the asset and entity tables.
- The planet, star, sphere, skybox, fuel-bar and life objects keep only
  their collider and body settings. Their look is not modelled.
- `GameOver` prints, waits for a key and calls `exit(0)`. It becomes the
  status `Over(score)`, and the rest of the frame is skipped.
- `rand()` becomes the parameters `platRoll` and `gapRoll`.
- `Engine::GetElapsedTime` becomes one clock value per frame.
- Held keys and the right mouse button become parameters.
- The map's iteration order becomes an out-parameter of `UpdateObjects`.
- Float and double widths and rounding are not modelled: all arithmetic
  is on the reals. `round`, `pow` and the `(int)` cast are written out on
  the reals.
- `sqrt` and `glm::length` are not computed. Distances compare squares,
  and `AddImpulse` takes the length function as a parameter.
- `addImpulse(x, y, z)` (`Physics.cpp` 105-112) is the same as the vector
  version and is not repeated.
- Physics.CheckVelLimits: `glm::normalize` of a zero vector (possible only
  with a negative limit other than -1) yields NaN in C++. The model keeps
  the zero vector.
- GameObjects.GameObject.Stored: the loop works on the map entry through
  a reference, with no copy. The copy constructor (`GameObject.cpp`
  308-324) is used only where an object is passed by value, as in
  `addGameObject`.
- Skyroads.GameManager.AddGameObject: the copy constructor
  (`GameObject.cpp` 308-324) does not copy `isInJump` or `distortedTime`.
  The model copies them: the C++ values are indeterminate.
- Colliders.NewBox: the box constructor assigns `position` to itself.
  The C++ position stays indeterminate; `NewBox` puts it at the origin,
  and `Collider.Box` leaves it unconstrained.
- Entities in the map are aliased through addresses in `Update`. The model
  reads an entry, updates it as a value and stores it back; what another
  object reads afterwards is the same.
- `GameObject` colliders are shared through an address. The model gives
  each entity its own collider value, so a copy no longer shares it.
- Obstacles are never spawned by `PlatformManagement`. The factory and
  the collision rules for them are modelled all the same.
- Skyroads.GameManager.Update: `PhysixEngine::UpdateTime` is never called,
  so the physics clock is whatever the engine holds (0 in the game).
- Skyroads.GameManager.Update: the frame's ensures about the player
  state assumes an as-built table. For other tables it only promises the
  bookkeeping and the fall check.

Some behaviour of the code differs from its own comments or evident design.
The model follows the code:

- The box-box test computes `secondMax` from the first box's position
  (`CollisionManager.cpp` line 33). It is a containment test, so a factory
  player never touches a factory platform, and no power-up ever fires.
- The non-RK4 branch is called semi-implicit Euler, but it is explicit
  Euler (`EulerUsesOldVelocity`).
- `setType` does not update the material. The purple colour shows only
  after `UpdatePlatformData`.
- `CheckCollisions` reads `gameObjects[id]`. An absent id therefore
  inserts a default object, and the pass stops there. That entry sits
  under an id the counter has not handed out, so "every key is an id
  already handed out" (`IdsIssued`) is kept by each frame when it holds
  but is not part of `Valid`.
- `CheckCollisions` returns on the first non-platform id, so any later
  ids are skipped.
- `mapBetweenRanges` divides by `fromB - fromA`, which is undefined when
  the two are equal. The model requires them to differ.
- The player starts with one life (`GameManager.hpp` line 72), although
  `maxLives` is 3.
