/** Colliders (Colliders.hpp / Colliders.cpp): an axis-aligned box or a
    sphere, tagged with the id of the game object it belongs to. */
module Colliders {
  import opened Vectors

  datatype ColliderType = BoxCollider | SphereCollider

  /** The six fields of a collider, as a value. Game objects hold their
      collider by value in this model. */
  datatype ColliderData = ColliderData(
    gameObjectID: int,
    kind: ColliderType,
    affectsPhysics: bool,
    radius: real,
    position: Vec3,
    dimensions: Vec3)

  /** The box constructor. Its body assigns `position = position`, so the
      argument `pos` is never stored; the indeterminate vector it leaves is
      represented by the origin. */
  function NewBox(id: int, pos: Vec3, dim: Vec3): (c: ColliderData)
    ensures c.gameObjectID == id && c.kind == BoxCollider
    ensures !c.affectsPhysics && c.radius == 0.0 && c.dimensions == dim
  {
    ColliderData(id, BoxCollider, false, 0.0, Origin, dim)
  }

  /** The sphere constructor: unit dimensions, position taken from `pos`. */
  function NewSphere(id: int, pos: Vec3, rad: real): (c: ColliderData)
    ensures c.gameObjectID == id && c.kind == SphereCollider
    ensures !c.affectsPhysics && c.radius == rad
    ensures c.position == pos && c.dimensions == Splat(1.0)
  {
    ColliderData(id, SphereCollider, false, rad, pos, Splat(1.0))
  }

  /** The box collider does not depend on the position it was given. */
  lemma NewBoxIgnoresPosition(id: int, p1: Vec3, p2: Vec3, dim: Vec3)
    ensures NewBox(id, p1, dim) == NewBox(id, p2, dim)
  {
  }

  /** The collider object itself, whose setters overwrite its fields. */
  class Collider {
    var gameObjectID: int
    var kind: ColliderType
    var affects: bool
    var radius: real
    var position: Vec3
    var dimensions: Vec3

    function Data(): ColliderData
      reads this
    {
      ColliderData(gameObjectID, kind, affects, radius, position, dimensions)
    }

    /** Box constructor; `position` is deliberately left unassigned, as in
        the source, so nothing is known about it afterwards. */
    constructor Box(id: int, pos: Vec3, dim: Vec3)
      ensures gameObjectID == id && kind == BoxCollider
      ensures !affects && radius == 0.0 && dimensions == dim
    {
      gameObjectID := id;
      affects := false;
      dimensions := dim;
      radius := 0.0;
      kind := BoxCollider;
    }

    constructor Sphere(id: int, pos: Vec3, rad: real)
      ensures Data() == NewSphere(id, pos, rad)
    {
      gameObjectID := id;
      affects := false;
      position := pos;
      radius := rad;
      dimensions := Splat(1.0);
      kind := SphereCollider;
    }

    /** Copy constructor: equal on all six fields. */
    constructor Copy(other: Collider)
      ensures Data() == other.Data()
      ensures GetID() == other.gameObjectID
    {
      gameObjectID := other.gameObjectID;
      kind := other.kind;
      affects := other.affects;
      radius := other.radius;
      position := other.position;
      dimensions := other.dimensions;
    }

    function GetPosition(): Vec3
      reads this
    {
      position
    }

    method SetPosition(pos: Vec3)
      modifies this
      ensures GetPosition() == pos
      ensures Data() == old(Data()).(position := pos)
    {
      position := pos;
    }

    function IsAffectingPhysics(): bool
      reads this
    {
      affects
    }

    method AffectsPhysics(aff: bool)
      modifies this
      ensures IsAffectingPhysics() == aff
      ensures Data() == old(Data()).(affectsPhysics := aff)
    {
      affects := aff;
    }

    function GetID(): int
      reads this
    {
      gameObjectID
    }

    function GetColliderType(): ColliderType
      reads this
    {
      kind
    }

    function GetDimensions(): Vec3
      reads this
    {
      dimensions
    }

    method SetDimensions(dim: Vec3)
      modifies this
      ensures GetDimensions() == dim
      ensures Data() == old(Data()).(dimensions := dim)
    {
      dimensions := dim;
    }

    function GetRadius(): real
      reads this
    {
      radius
    }

    method SetRadius(rad: real)
      modifies this
      ensures GetRadius() == rad
      ensures Data() == old(Data()).(radius := rad)
    {
      radius := rad;
    }
  }
}
