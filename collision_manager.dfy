/** Pairwise intersection of colliders and the all-against-one query
    (CollisionManager.cpp). Square roots are avoided: for a radius sum `r`,
    `sqrt(d2) < r` holds exactly when `r > 0 && d2 < r * r`. */
module CollisionManager {
  import opened Vectors
  import opened Colliders

  /** Box against box. The upper bound of the second box is computed from
      the FIRST box's position, so the test is a containment test that can
      only succeed when the first box is at least as large as the second. */
  predicate BoxBox(a: ColliderData, b: ColliderData)
  {
    var firstMin := Sub(a.position, Scale(0.5, a.dimensions));
    var secondMin := Sub(b.position, Scale(0.5, b.dimensions));
    var firstMax := Add(a.position, Scale(0.5, a.dimensions));
    var secondMax := Add(a.position, Scale(0.5, b.dimensions));
    && (firstMin.x <= secondMin.x && firstMax.x >= secondMax.x)
    && (firstMin.y <= secondMin.y && firstMax.y >= secondMax.y)
    && (firstMin.z <= secondMin.z && firstMax.z >= secondMax.z)
  }

  /** Euclidean distance between the centres below the sum of the radii. */
  predicate SphereSphere(a: ColliderData, b: ColliderData)
  {
    var r := a.radius + b.radius;
    r > 0.0 && DistanceSq(a.position, b.position) < r * r
  }

  /** std::max(lo, std::min(v, hi)). */
  function Clamp(v: real, lo: real, hi: real): real
  {
    var m := if hi < v then hi else v;
    if lo < m then m else lo
  }

  /** The point of the box closest to `p`: std::max(min, std::min(p, max))
      on every axis. */
  function ClosestPoint(box: ColliderData, p: Vec3): Vec3
  {
    var lo := Sub(box.position, Scale(0.5, box.dimensions));
    var hi := Add(box.position, Scale(0.5, box.dimensions));
    Vec3(Clamp(p.x, lo.x, hi.x), Clamp(p.y, lo.y, hi.y), Clamp(p.z, lo.z, hi.z))
  }

  /** `p` lies strictly inside the sphere: its distance to the centre is
      below the radius, compared here without the square root. */
  predicate WithinSphere(p: Vec3, sphere: ColliderData)
  {
    var r := sphere.radius;
    r > 0.0 && DistanceSq(p, sphere.position) < r * r
  }

  /** The closest point of the box lies strictly inside the sphere. */
  predicate BoxSphere(box: ColliderData, sphere: ColliderData)
  {
    WithinSphere(ClosestPoint(box, sphere.position), sphere)
  }

  /** isCollision: dispatch on the pair of shapes. */
  predicate IsCollision(a: ColliderData, b: ColliderData)
  {
    if a.kind == b.kind then
      if a.kind == BoxCollider then BoxBox(a, b) else SphereSphere(a, b)
    else if a.kind == BoxCollider then BoxSphere(a, b)
    else BoxSphere(b, a)
  }

  /** The ids of the colliders among `others` that `source` intersects, in
      the order of `others`. */
  function Collided(source: ColliderData, others: seq<ColliderData>): (ids: seq<int>)
    ensures |ids| <= |others|
  {
    if others == [] then []
    else
      var last := others[|others| - 1];
      Collided(source, others[..|others| - 1]) +
        (if IsCollision(source, last) then [last.gameObjectID] else [])
  }

  /** getCollisions: one pass over `others`, appending the id of every
      collider that intersects `source`. */
  method GetCollisions(source: ColliderData, others: seq<ColliderData>) returns (collided: seq<int>)
    ensures collided == Collided(source, others)
  {
    collided := [];
    var i := 0;
    while i < |others|
      invariant 0 <= i <= |others|
      invariant collided == Collided(source, others[..i])
    {
      assert others[..i + 1][..i] == others[..i];
      if IsCollision(source, others[i]) {
        collided := collided + [others[i].gameObjectID];
      }
      i := i + 1;
    }
    assert others[..i] == others;
  }

  /** The query distributes over concatenation, so the result follows the
      order of the candidates. */
  lemma {:induction false} CollidedAppend(source: ColliderData, xs: seq<ColliderData>, ys: seq<ColliderData>)
    ensures Collided(source, xs + ys) == Collided(source, xs) + Collided(source, ys)
    decreases |ys|
  {
    if ys == [] {
      assert xs + ys == xs;
    } else {
      var last := ys[|ys| - 1];
      var ys' := ys[..|ys| - 1];
      assert (xs + ys)[..|xs + ys| - 1] == xs + ys';
      CollidedAppend(source, xs, ys');
    }
  }

  /** An id is reported exactly when some candidate with that id is hit. */
  lemma {:induction false} CollidedMembers(source: ColliderData, others: seq<ColliderData>, id: int)
    ensures id in Collided(source, others) <==>
            exists j :: 0 <= j < |others| && others[j].gameObjectID == id && IsCollision(source, others[j])
  {
    if others != [] {
      var init := others[..|others| - 1];
      CollidedMembers(source, init, id);
      if id in Collided(source, init) {
        var j :| 0 <= j < |init| && init[j].gameObjectID == id && IsCollision(source, init[j]);
        assert others[j] == init[j];
      }
      if exists j :: 0 <= j < |others| && others[j].gameObjectID == id && IsCollision(source, others[j]) {
        var j :| 0 <= j < |others| && others[j].gameObjectID == id && IsCollision(source, others[j]);
        if j < |init| {
          assert init[j] == others[j];
        }
      }
    }
  }

  /** Sphere against sphere does not depend on the order of the pair. */
  lemma SphereSphereSymmetric(a: ColliderData, b: ColliderData)
    requires a.kind == SphereCollider && b.kind == SphereCollider
    ensures IsCollision(a, b) == IsCollision(b, a)
  {
    DistanceSqSymmetric(a.position, b.position);
  }

  /** Box against sphere and sphere against box give the same answer. */
  lemma BoxSphereEitherOrder(a: ColliderData, b: ColliderData)
    requires a.kind != b.kind
    ensures IsCollision(a, b) == IsCollision(b, a)
  {
  }

  /** Because `secondMax` is computed from the first position, a box can
      only be hit by a box that is at least as large on every axis. */
  lemma BoxBoxNeedsLargerFirst(a: ColliderData, b: ColliderData)
    requires a.kind == BoxCollider && b.kind == BoxCollider
    requires IsCollision(a, b)
    ensures a.dimensions.x >= b.dimensions.x
    ensures a.dimensions.y >= b.dimensions.y
    ensures a.dimensions.z >= b.dimensions.z
  {
  }

  /** The box test is therefore not symmetric: a large box placed around a
      small one hits it, the small one does not hit the large one. */
  lemma BoxBoxNotSymmetric()
    ensures var big := ColliderData(0, BoxCollider, true, 0.0, Origin, Splat(2.0));
            var small := ColliderData(1, BoxCollider, true, 0.0, Origin, Splat(1.0));
            IsCollision(big, small) && !IsCollision(small, big)
  {
  }

  /** A sphere of positive radius whose centre lies inside a box hits it,
      whichever of the two is the source. */
  lemma SphereCentreInsideBox(box: ColliderData, sphere: ColliderData)
    requires box.kind == BoxCollider && sphere.kind == SphereCollider
    requires sphere.radius > 0.0
    requires var lo := Sub(box.position, Scale(0.5, box.dimensions));
             var hi := Add(box.position, Scale(0.5, box.dimensions));
             var c := sphere.position;
             lo.x <= c.x <= hi.x && lo.y <= c.y <= hi.y && lo.z <= c.z <= hi.z
    ensures IsCollision(box, sphere) && IsCollision(sphere, box)
  {
    CentreInsideBoxSphere(box, sphere);
    BoxSphereHits(box, sphere);
    BoxSphereEitherOrder(box, sphere);
  }

  /** A box and a sphere collide, with the box as the source, exactly when
      the box's closest point lies inside the sphere. */
  lemma BoxSphereHits(box: ColliderData, sphere: ColliderData)
    requires box.kind == BoxCollider && sphere.kind == SphereCollider
    ensures IsCollision(box, sphere) <==> BoxSphere(box, sphere)
  {
  }

  /** A sphere of positive radius whose centre lies inside a box contains
      the box's closest point, which is the centre itself. */
  lemma CentreInsideBoxSphere(box: ColliderData, sphere: ColliderData)
    requires sphere.radius > 0.0
    requires var lo := Sub(box.position, Scale(0.5, box.dimensions));
             var hi := Add(box.position, Scale(0.5, box.dimensions));
             var c := sphere.position;
             lo.x <= c.x <= hi.x && lo.y <= c.y <= hi.y && lo.z <= c.z <= hi.z
    ensures BoxSphere(box, sphere)
  {
    ClosestPointOfInside(box, sphere.position);
    CentreWithinSphere(sphere);
  }

  /** The centre of a sphere of positive radius lies inside it. */
  lemma CentreWithinSphere(sphere: ColliderData)
    requires sphere.radius > 0.0
    ensures WithinSphere(sphere.position, sphere)
  {
    var c := sphere.position;
    var r := sphere.radius;
    calc {
      DistanceSq(c, c);
    == { assert Sub(c, c) == Origin; }
      0.0;
    < { PositiveSquare(r); }
      r * r;
    }
  }

  /** A point inside the box is its own closest point. */
  lemma ClosestPointOfInside(box: ColliderData, c: Vec3)
    requires var lo := Sub(box.position, Scale(0.5, box.dimensions));
             var hi := Add(box.position, Scale(0.5, box.dimensions));
             lo.x <= c.x <= hi.x && lo.y <= c.y <= hi.y && lo.z <= c.z <= hi.z
    ensures ClosestPoint(box, c) == c
  {
  }

  /** A sphere of radius at most zero never hits a box, in either order. */
  lemma NonPositiveRadiusMissesBox(box: ColliderData, sphere: ColliderData)
    requires box.kind == BoxCollider && sphere.kind == SphereCollider
    requires sphere.radius <= 0.0
    ensures !IsCollision(box, sphere) && !IsCollision(sphere, box)
  {
  }
}
