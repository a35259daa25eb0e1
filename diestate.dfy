/** The state both die classes keep (3Dice/Models/Dice3D.cs and 3Dice/Models/EnhancedDice3D.cs
    declare the same fields) and the two phases of their `Update` that have the same shape in
    both: the integration step and the side-wall collision. The constants differ between the
    two classes and are parameters here. */
module DieStates {
  import opened Vectors
  import opened Numerics

  datatype DieState = DieState(
    position: Vector3D,
    velocity: Vector3D,
    angularVelocity: Vector3D,
    rotation: Vector3D,
    sides: int,
    size: real,
    isRolling: bool,
    finalValue: int,
    bounceTime: real)

  /** Values drawn from `Random.NextSingle()`, each in [0, 1). */
  predicate UnitDraws(u: seq<real>) {
    forall k :: 0 <= k < |u| ==> 0.0 <= u[k] < 1.0
  }

  /** The state a constructor leaves: the given sides and position, random velocities scaled by
      the class's factors (`(u - 0.5) * scale`, the vertical one shifted by `lift`), every other
      field at its declared default. */
  function Launch(sides: int, position: Vector3D, size: real, u: seq<real>,
                  sx: real, sy: real, lift: real, sz: real, spin: real): (s: DieState)
    requires |u| == 6
  {
    DieState(
      position,
      Vector3D((u[0] - 0.5) * sx, (u[1] - 0.5) * sy - lift, (u[2] - 0.5) * sz),
      Vector3D((u[3] - 0.5) * spin, (u[4] - 0.5) * spin, (u[5] - 0.5) * spin),
      Zero, sides, size, true, 1, 0.0)
  }

  /** The sum of the absolute rotation angles that the final value is derived from. */
  function RotationSum(rotation: Vector3D): (r: real)
    ensures r >= 0.0
  {
    Abs(rotation.x) + Abs(rotation.y) + Abs(rotation.z)
  }

  /** The first phase of a rolling tick: the bounce time advances, gravity is added to the
      vertical velocity, and position and rotation advance by their velocities over dt. */
  function Integrate(s: DieState, gravity: real, dt: real): DieState {
    var v := s.velocity.(y := s.velocity.y + gravity * dt);
    s.(bounceTime := s.bounceTime + dt,
       velocity := v,
       position := Add(s.position, Scale(v, dt)),
       rotation := Add(s.rotation, Scale(s.angularVelocity, dt)))
  }

  /** Whether the die touches or crosses the left or right wall of a canvas of width w. */
  predicate HitsSideWall(s: DieState, w: real) {
    s.position.x - s.size / 2.0 <= 0.0 || s.position.x + s.size / 2.0 >= w
  }

  /** The side-wall phase: on contact the die is pushed back inside (left edge first, then right),
      its horizontal velocity is reversed and scaled by the restitution, and its spin about x is
      damped by the friction factor. */
  function SideWall(s: DieState, w: real, restitution: real, friction: real): DieState {
    if HitsSideWall(s, w) then
      var half := s.size / 2.0;
      var x1 := if s.position.x - half <= 0.0 then half else s.position.x;
      var x2 := if x1 + half >= w then w - half else x1;
      s.(position := s.position.(x := x2),
         velocity := s.velocity.(x := s.velocity.x * -restitution),
         angularVelocity := s.angularVelocity.(x := s.angularVelocity.x * friction))
    else s
  }

  /** Integration: bounce time grows by exactly dt, gravity reaches the vertical velocity before the
      position step, and the position step uses the updated velocity; the spin, the sides, the
      size, the rolling flag and the final value are left as they were. */
  lemma IntegrateEffect(s: DieState, gravity: real, dt: real)
    ensures Integrate(s, gravity, dt).bounceTime == s.bounceTime + dt
    ensures Integrate(s, gravity, dt).velocity
         == Vector3D(s.velocity.x, s.velocity.y + gravity * dt, s.velocity.z)
    ensures Integrate(s, gravity, dt).position
         == Add(s.position, Scale(Integrate(s, gravity, dt).velocity, dt))
    ensures Integrate(s, gravity, dt).rotation == Add(s.rotation, Scale(s.angularVelocity, dt))
    ensures Integrate(s, gravity, dt).angularVelocity == s.angularVelocity
    ensures var r := Integrate(s, gravity, dt);
      r.sides == s.sides && r.size == s.size && r.isRolling == s.isRolling
      && r.finalValue == s.finalValue
  {
  }

  /** After the side-wall phase a die that fits the canvas lies inside it: x in [size/2, w - size/2]. */
  lemma SideWallBounds(s: DieState, w: real, restitution: real, friction: real)
    requires w >= s.size
    ensures var r := SideWall(s, w, restitution, friction);
      s.size / 2.0 <= r.position.x <= w - s.size / 2.0
  {
  }

  /** A wall contact scales the horizontal velocity by -restitution and the spin about x by the
      friction factor, whatever their signs; without contact nothing changes. Only x-components change. */
  lemma SideWallEffect(s: DieState, w: real, restitution: real, friction: real)
    ensures HitsSideWall(s, w) ==>
      SideWall(s, w, restitution, friction).velocity == s.velocity.(x := s.velocity.x * -restitution)
    ensures HitsSideWall(s, w) ==>
      SideWall(s, w, restitution, friction).angularVelocity
        == s.angularVelocity.(x := s.angularVelocity.x * friction)
    ensures !HitsSideWall(s, w) ==> SideWall(s, w, restitution, friction) == s
    ensures var r := SideWall(s, w, restitution, friction);
      r.position.y == s.position.y && r.position.z == s.position.z
      && r.(position := s.position, velocity := s.velocity, angularVelocity := s.angularVelocity) == s
  {
  }
}
