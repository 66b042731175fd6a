/** The point-mass physics of Physics.hpp / Physics.cpp: a kinematic state,
    a rigid body that owns it, an acceleration made of x-only drag and
    y-gravity, and one Euler or RK4 step over the reals. */
module Physics {
  import opened Vectors

  /** Position, velocity and the two coefficients of the acceleration. */
  datatype State = State(x: Vec3, v: Vec3, dragCoef: real, gravityCoef: real)

  datatype Derivative = Derivative(dx: Vec3, dv: Vec3)

  /** The gravitational constant G_CONSTANT. */
  const G: real := 10.0

  datatype MotionType = Simulated | Function

  /** A movement function for FUNCTION bodies: given the state, the total
      simulation time and the step, it yields the new state. */
  type MovementFn = (State, real, real) -> State

  datatype RigidBody = RigidBody(
    state: State,
    physicsEnabled: bool,
    mType: MotionType,
    mFunc: Option<MovementFn>,
    velocityLimit: real)

  /** `velocity_limit` of -1 means "no limit". */
  const Unlimited: real := -1.0

  /** A State as declared: drag 0.1, no gravity (glm vectors at zero). */
  function NewState(): (s: State)
    ensures s.dragCoef == 0.1 && s.gravityCoef == 0.0
    ensures s.x == Origin && s.v == Origin
  {
    State(Origin, Origin, 0.1, 0.0)
  }

  /** The RigidBody constructor: enabled, simulated, limit 2500, no
      movement function. */
  function NewRigidBody(): (b: RigidBody)
    ensures b.physicsEnabled && b.mType == Simulated && b.mFunc == None
    ensures b.velocityLimit == 2500.0 && b.state == NewState()
  {
    RigidBody(NewState(), true, Simulated, None, 2500.0)
  }

  /** compute_acceleration: linear drag on x only (not divided by a mass)
      plus gravity along -y; never anything along z. */
  function ComputeAcceleration(s: State, t: real): (a: Vec3)
    ensures a.z == 0.0
    ensures s.dragCoef == 0.0 || s.v.x == 0.0 ==> a.x == 0.0
    ensures s.gravityCoef == 0.0 ==> a.y == 0.0
  {
    var drag := Vec3(-s.v.x * s.dragCoef, 0.0, 0.0);
    var grav := Vec3(0.0, -G * s.gravityCoef, 0.0);
    Add(grav, drag)
  }

  /** evaluate: advance the state by `dt` along `d`, then return its
      derivative (velocity, acceleration) there. */
  function Evaluate(initial: State, t: real, dt: real, d: Derivative): Derivative
  {
    var cur := State(Add(initial.x, Scale(dt, d.dx)), Add(initial.v, Scale(dt, d.dv)),
                     initial.dragCoef, initial.gravityCoef);
    Derivative(cur.v, ComputeAcceleration(cur, t + dt))
  }

  const ZeroDerivative: Derivative := Derivative(Origin, Origin)

  /** The RK4 weighting (a + 2 (b + c) + d) / 6. */
  function Weighted(a: Vec3, b: Vec3, c: Vec3, d: Vec3): Vec3
  {
    Scale(1.0 / 6.0, Add(Add(a, Scale(2.0, Add(b, c))), d))
  }

  /** integrate: one RK4 or Euler step for a SIMULATED body; a FUNCTION
      body is handed to its movement function, or left alone without one. */
  function Integrate(body: RigidBody, t: real, dt: real, rk4: bool := true): RigidBody
  {
    var s := body.state;
    if body.mType == Simulated then
      if rk4 then
        var a := Evaluate(s, t, 0.0, ZeroDerivative);
        var b := Evaluate(s, t, dt * 0.5, a);
        var c := Evaluate(s, t, dt * 0.5, b);
        var d := Evaluate(s, t, dt, c);
        var dxdt := Weighted(a.dx, b.dx, c.dx, d.dx);
        var dvdt := Weighted(a.dv, b.dv, c.dv, d.dv);
        body.(state := s.(x := Add(s.x, Scale(dt, dxdt)), v := Add(s.v, Scale(dt, dvdt))))
      else
        var d := Evaluate(s, t, dt, ZeroDerivative);
        body.(state := s.(x := Add(s.x, Scale(dt, d.dx)), v := Add(s.v, Scale(dt, d.dv))))
    else
      match body.mFunc
      case Some(f) => body.(state := f(s, t, dt))
      case None => body
  }

  /** UpdatePhysics: integrate with RK4 at the engine's clock, only when
      physics is enabled. */
  function UpdatePhysics(body: RigidBody, currentTime: real, dt: real): (r: RigidBody)
    ensures !body.physicsEnabled ==> r == body
    ensures body.physicsEnabled ==> r == Integrate(body, currentTime, dt)
  {
    if body.physicsEnabled then Integrate(body, currentTime, dt) else body
  }

  /** A FUNCTION body changes only through its movement function: the
      integrator never applies drag or gravity to it. */
  lemma FunctionBodyFollowsItsFunction(body: RigidBody, t: real, dt: real, rk4: bool)
    requires body.mType == Function
    ensures body.mFunc == None ==> Integrate(body, t, dt, rk4) == body
    ensures body.mFunc.Some? ==>
      Integrate(body, t, dt, rk4) == body.(state := body.mFunc.value(body.state, t, dt))
  {
  }

  /** Without drag, the acceleration is constant and one RK4 step is exact:
      v + a dt and x + v dt + a dt^2 / 2, with a = (0, -G g, 0). */
  lemma {:induction false} RK4ExactWithoutDrag(body: RigidBody, t: real, dt: real)
    requires body.mType == Simulated && body.state.dragCoef == 0.0
    ensures var s := body.state;
            var acc := Vec3(0.0, -G * s.gravityCoef, 0.0);
            var r := Integrate(body, t, dt, true).state;
            && r.v == Add(s.v, Scale(dt, acc))
            && r.x == Add(Add(s.x, Scale(dt, s.v)), Scale(dt * dt / 2.0, acc))
            && r.dragCoef == s.dragCoef && r.gravityCoef == s.gravityCoef
  {
    var s := body.state;
    var g := -G * s.gravityCoef;
    var acc := Vec3(0.0, g, 0.0);
    var a := Evaluate(s, t, 0.0, ZeroDerivative);
    assert a == Derivative(s.v, acc);
    var b := Evaluate(s, t, dt * 0.5, a);
    assert b == Derivative(Add(s.v, Scale(dt * 0.5, acc)), acc);
    var c := Evaluate(s, t, dt * 0.5, b);
    assert c == b;
    var d := Evaluate(s, t, dt, c);
    assert d == Derivative(Add(s.v, Scale(dt, acc)), acc);
    var dxdt := Weighted(a.dx, b.dx, c.dx, d.dx);
    assert dxdt == Add(s.v, Scale(dt / 2.0, acc));
    var dvdt := Weighted(a.dv, b.dv, c.dv, d.dv);
    assert dvdt == acc;
    assert Scale(dt, dxdt) == Add(Scale(dt, s.v), Scale(dt * dt / 2.0, acc));
  }

  /** With neither drag nor gravity one RK4 step keeps the velocity and
      moves the position by v dt. */
  lemma {:induction false} FreeMotionRK4(body: RigidBody, t: real, dt: real)
    requires body.mType == Simulated
    requires body.state.dragCoef == 0.0 && body.state.gravityCoef == 0.0
    ensures Integrate(body, t, dt).state.v == body.state.v
    ensures Integrate(body, t, dt).state.x == Add(body.state.x, Scale(dt, body.state.v))
  {
    var s := body.state;
    var still := Derivative(s.v, Origin);
    var a := Evaluate(s, t, 0.0, ZeroDerivative);
    assert a == still;
    var b := Evaluate(s, t, dt * 0.5, a);
    assert b == still;
    var d := Evaluate(s, t, dt, b);
    assert d == still;
    WeightedSame(s.v);
    WeightedSame(Origin);
  }

  /** The non-RK4 branch is an explicit Euler step: the position moves with
      the velocity from before the step, not the updated one. */
  lemma EulerUsesOldVelocity(body: RigidBody, t: real, dt: real)
    requires body.mType == Simulated
    ensures var s := body.state;
            var r := Integrate(body, t, dt, false).state;
            && r.x == Add(s.x, Scale(dt, s.v))
            && r.v == Add(s.v, Scale(dt, ComputeAcceleration(s, t + dt)))
  {
    var s := body.state;
    assert Add(s.x, Scale(dt, Origin)) == s.x;
    assert Add(s.v, Scale(dt, Origin)) == s.v;
  }

  /** The RK4 weights sum to one. */
  lemma WeightedSame(u: Vec3)
    ensures Weighted(u, u, u, u) == u
  {
  }

  /** glm::length supplied from outside: a function that returns the
      Euclidean length of its argument. */
  ghost predicate IsLength(length: Vec3 -> real)
  {
    forall w :: length(w) >= 0.0 && length(w) * length(w) == LengthSq(w)
  }

  /** checkVelLimits: with a limit other than -1 and a speed above it, the
      velocity is normalised and multiplied by the limit. */
  function CheckVelLimits(body: RigidBody, length: Vec3 -> real): RigidBody
  {
    var v := body.state.v;
    var len := length(v);
    if body.velocityLimit == Unlimited then body
    else if len > body.velocityLimit then
      var unit := if len == 0.0 then v else Scale(1.0 / len, v);
      body.(state := body.state.(v := Scale(body.velocityLimit, unit)))
    else body
  }

  /** addImpulse: a SIMULATED body gains `p` in velocity, then the velocity
      limit is applied; a FUNCTION body is left alone. */
  function AddImpulse(body: RigidBody, p: Vec3, length: Vec3 -> real): (r: RigidBody)
    ensures body.mType == Function ==> r == body
    ensures r.state.x == body.state.x && r.mType == body.mType
    ensures r.velocityLimit == body.velocityLimit && r.physicsEnabled == body.physicsEnabled
  {
    if body.mType == Simulated then
      CheckVelLimits(body.(state := body.state.(v := Add(body.state.v, p))), length)
    else body
  }

  /** Without a limit the impulse is added exactly. */
  lemma ImpulseUnlimited(body: RigidBody, p: Vec3, length: Vec3 -> real)
    requires body.mType == Simulated && body.velocityLimit == Unlimited
    ensures AddImpulse(body, p, length).state.v == Add(body.state.v, p)
  {
  }

  /** With a limit of at least zero, a new velocity faster than the limit is
      scaled down to exactly the limit, keeping its direction. */
  lemma {:induction false} ImpulseClamped(body: RigidBody, p: Vec3, length: Vec3 -> real)
    requires IsLength(length)
    requires body.mType == Simulated && body.velocityLimit >= 0.0
    requires LengthSq(Add(body.state.v, p)) > body.velocityLimit * body.velocityLimit
    ensures var v' := AddImpulse(body, p, length).state.v;
            && LengthSq(v') == body.velocityLimit * body.velocityLimit
            && exists k: real :: 0.0 <= k < 1.0 && v' == Scale(k, Add(body.state.v, p))
  {
    var w := Add(body.state.v, p);
    var lim := body.velocityLimit;
    var len := length(w);
    assert len >= 0.0 && len * len == LengthSq(w);
    SquareMonotone(lim, len);
    var v' := AddImpulse(body, p, length).state.v;
    assert v' == Scale(lim, Scale(1.0 / len, w));
    var k := ShrinkFactor(lim, len, w);
  }

  /** The factor limit / length, for a length above the limit. */
  lemma ShrinkFactor(lim: real, len: real, w: Vec3) returns (k: real)
    requires 0.0 <= lim < len && len * len == LengthSq(w)
    ensures Scale(lim, Scale(1.0 / len, w)) == Scale(k, w)
    ensures 0.0 <= k < 1.0 && LengthSq(Scale(k, w)) == lim * lim
  {
    k := lim / len;
    ScaleScale(lim, 1.0 / len, w);
    assert lim * (1.0 / len) == k;
    ShrunkSquare(lim, len, k, LengthSq(w));
    LengthSqScale(k, w);
  }

  lemma ShrunkSquare(lim: real, len: real, k: real, lenSq: real)
    requires 0.0 <= lim < len && len * len == lenSq && k == lim / len
    ensures k * k * lenSq == lim * lim
  {
    assert k * len == lim;
    calc {
      k * k * lenSq;
      == k * k * (len * len);
      == (k * len) * (k * len);
      == lim * lim;
    }
  }

  /** With a limit of at least zero, a new velocity within the limit is the
      exact sum. */
  lemma {:induction false} ImpulseWithinLimit(body: RigidBody, p: Vec3, length: Vec3 -> real)
    requires IsLength(length)
    requires body.mType == Simulated && body.velocityLimit >= 0.0
    requires LengthSq(Add(body.state.v, p)) <= body.velocityLimit * body.velocityLimit
    ensures AddImpulse(body, p, length).state.v == Add(body.state.v, p)
  {
    var w := Add(body.state.v, p);
    var lim := body.velocityLimit;
    var len := length(w);
    assert len >= 0.0 && len * len == LengthSq(w);
    SquareMonotone(lim, len);
  }

  /** Hence, for a limit of at least zero, the speed never ends above it. */
  lemma ImpulseRespectsLimit(body: RigidBody, p: Vec3, length: Vec3 -> real)
    requires IsLength(length)
    requires body.mType == Simulated && body.velocityLimit >= 0.0
    ensures LengthSq(AddImpulse(body, p, length).state.v) <= body.velocityLimit * body.velocityLimit
  {
    if LengthSq(Add(body.state.v, p)) > body.velocityLimit * body.velocityLimit {
      ImpulseClamped(body, p, length);
    } else {
      ImpulseWithinLimit(body, p, length);
    }
  }

  /** For non-negative a, b: a * a < b * b implies a < b, and
      a * a >= b * b implies a >= b. */
  lemma SquareMonotone(a: real, b: real)
    requires a >= 0.0 && b >= 0.0
    ensures a * a < b * b ==> a < b
    ensures a * a >= b * b ==> a >= b
  {
    if a >= b {
      assert a * a >= b * a >= b * b;
    } else {
      assert b > 0.0;
      PositiveProduct(b - a, b);
      PositiveProduct(b - a, a + b);
      assert (b - a) * (a + b) == b * b - a * a;
    }
  }

  lemma PositiveProduct(x: real, y: real)
    requires x > 0.0 && y > 0.0
    ensures x * y > 0.0
  {
  }

  /** The engine's clock: PhysixEngine::current_time, static in the source,
      advanced by UpdateTime. */
  class PhysixEngine {
    var currentTime: real

    constructor ()
      ensures currentTime == 0.0
    {
      currentTime := 0.0;
    }

    method UpdateTime(deltaTime: real)
      modifies this
      ensures currentTime == old(currentTime) + deltaTime
    {
      currentTime := currentTime + deltaTime;
    }
  }
}
