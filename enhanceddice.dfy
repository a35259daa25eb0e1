/** The die of the full-screen page (3Dice/Models/EnhancedDice3D.cs): gravity 1200, friction 0.985,
    restitution 0.4, a table plane at 70% of the canvas height, a ceiling at the top edge, extra
    friction near the table, and settling only on the table after three seconds. */
module EnhancedDice {
  import opened Vectors
  import opened Numerics
  import opened DieStates

  const Gravity: real := 1200.0
  const Friction: real := 0.985
  const Restitution: real := 0.4
  const DefaultSize: real := 50.0
  /** The extra factor applied near the table. */
  const TableDrag: real := 0.95

  /** The float value `(sum * 1000) % 1000` the final value is read from. */
  function NormalizedRotation(rotation: Vector3D): (r: real)
    ensures 0.0 <= r < 1000.0
  {
    FloatRem(RotationSum(rotation) * 1000.0, 1000.0)
  }

  /** `CalculateFinalValue`: `(int)(normalized * Sides / 1000) + 1`, clamped into [1, Sides]. */
  function FinalValue(rotation: Vector3D, sides: int): (r: int)
    ensures 1 <= r
    ensures sides >= 1 ==> r <= sides
  {
    var value := Trunc(NormalizedRotation(rotation) * sides as real / 1000.0) + 1;
    Max(1, Min(sides, value))
  }

  /** For a die with at least one side the clamp never acts: the unclamped value already lies in
      [1, Sides], because the normalized rotation is below 1000. */
  lemma FinalValueUnclamped(rotation: Vector3D, sides: int)
    requires sides >= 1
    ensures var value := Trunc(NormalizedRotation(rotation) * sides as real / 1000.0) + 1;
      1 <= value <= sides && FinalValue(rotation, sides) == value
  {
    ScaledValue(NormalizedRotation(rotation), sides);
  }

  /** A normalized rotation in [0, 1000) scaled to the sides and truncated, plus one, is a face. */
  lemma ScaledValue(n: real, sides: int)
    requires 0.0 <= n < 1000.0 && sides >= 1
    ensures 1 <= Trunc(n * sides as real / 1000.0) + 1 <= sides
  {
    var k := sides as real;
    ScaledRotation(n, k);
    var x := n * k / 1000.0;
    var t := Trunc(x);
    assert 0 <= t && t as real <= x < k;
  }

  /** A normalized rotation scaled by k / 1000 lies in [0, k). */
  lemma ScaledRotation(n: real, k: real)
    requires 0.0 <= n < 1000.0 && k >= 1.0
    ensures 0.0 <= n * k / 1000.0 < k
  {
    assert 0.0 <= n * k by {
      MulMono(0.0, n, k);
    }
    assert n * k < 1000.0 * k by {
      MulMonoStrict(n, 1000.0, k);
      assert k * n == n * k && k * 1000.0 == 1000.0 * k;
    }
  }

  /** `boundsHeight * 0.7`: the surface the dice roll on. */
  function TableSurface(h: real): real {
    h * 0.7
  }

  predicate OnOrBelowTable(s: DieState, table: real) {
    s.position.y + s.size / 2.0 >= table
  }

  /** The table phase: a die touching the table is put back on it; only a die moving into the
      table has its vertical velocity reversed and scaled and its spin about y damped. */
  function Table(s: DieState, table: real): DieState {
    if OnOrBelowTable(s, table) then
      var s1 := s.(position := s.position.(y := table - s.size / 2.0));
      if s1.velocity.y > 0.0 then
        s1.(velocity := s1.velocity.(y := s1.velocity.y * -Restitution),
            angularVelocity := s1.angularVelocity.(y := s1.angularVelocity.y * Friction))
      else s1
    else s
  }

  predicate AtCeiling(s: DieState) {
    s.position.y - s.size / 2.0 <= 0.0
  }

  /** The top boundary: a die above the top edge is put back below it, and an upward velocity is
      reversed and scaled; the spin is left alone. */
  function Ceiling(s: DieState): DieState {
    if AtCeiling(s) then
      var s1 := s.(position := s.position.(y := s.size / 2.0));
      if s1.velocity.y < 0.0 then s1.(velocity := s1.velocity.(y := s1.velocity.y * -Restitution)) else s1
    else s
  }

  /** Whether the die's bottom is within 5 of the table. */
  predicate NearTable(s: DieState, table: real) {
    s.position.y + s.size / 2.0 >= table - 5.0
  }

  /** `Friction * frictionMultiplier`. */
  function FrictionFactor(s: DieState, table: real): real {
    Friction * (if NearTable(s, table) then TableDrag else 1.0)
  }

  function ApplyFriction(s: DieState, table: real): DieState {
    var f := FrictionFactor(s, table);
    s.(velocity := Scale(s.velocity, f), angularVelocity := Scale(s.angularVelocity, f))
  }

  /** `Velocity.Length < 30 && AngularVelocity.Length < 0.5 && _bounceTime > 3` and near the table,
      on squared lengths. */
  predicate ReadyToSettle(s: DieState, table: real) {
    LengthSquared(s.velocity) < 30.0 * 30.0 && LengthSquared(s.angularVelocity) < 0.5 * 0.5
    && s.bounceTime > 3.0 && NearTable(s, table)
  }

  function Settle(s: DieState, table: real): DieState {
    if ReadyToSettle(s, table) then
      s.(isRolling := false, velocity := Zero, angularVelocity := Zero,
         position := s.position.(y := table - s.size / 2.0),
         finalValue := FinalValue(s.rotation, s.sides))
    else s
  }

  /** The state after the collision blocks, before friction. */
  function Collided(s: DieState, dt: real, w: real, h: real): DieState {
    Ceiling(Table(SideWall(Integrate(s, Gravity, dt), w, Restitution, Friction), TableSurface(h)))
  }

  /** One call of `Update(dt, w, h)`. */
  function Step(s: DieState, dt: real, w: real, h: real): DieState {
    if !s.isRolling then s
    else Settle(ApplyFriction(Collided(s, dt, w, h), TableSurface(h)), TableSurface(h))
  }

  /** The state the constructor leaves, given its six draws. */
  function Initial(sides: int, position: Vector3D, u: seq<real>): DieState
    requires |u| == 6
  {
    Launch(sides, position, DefaultSize, u, 600.0, 400.0, 200.0, 400.0, 15.0)
  }

  /** A settled die is left exactly as it is. */
  lemma StepSettled(s: DieState, dt: real, w: real, h: real)
    requires !s.isRolling
    ensures Step(s, dt, w, h) == s
  {
  }

  /** A rolling tick advances the bounce time by exactly dt, keeps sides and size, and advances
      the rotation by the angular velocity over dt. */
  lemma StepRolling(s: DieState, dt: real, w: real, h: real)
    requires s.isRolling
    ensures Step(s, dt, w, h).bounceTime == s.bounceTime + dt
    ensures Step(s, dt, w, h).sides == s.sides && Step(s, dt, w, h).size == s.size
    ensures Step(s, dt, w, h).rotation == Add(s.rotation, Scale(s.angularVelocity, dt))
  {
  }

  /** After a table contact the die rests on the table and is not moving into it. */
  lemma TableContact(s: DieState, table: real)
    requires OnOrBelowTable(s, table)
    ensures Table(s, table).position.y == table - s.size / 2.0
    ensures Table(s, table).velocity.y <= 0.0
    ensures s.velocity.y > 0.0 ==> Table(s, table).velocity.y == s.velocity.y * -0.4
    ensures s.velocity.y > 0.0 ==> Table(s, table).angularVelocity.y == s.angularVelocity.y * 0.985
    ensures s.velocity.y <= 0.0 ==> Table(s, table).velocity == s.velocity
    ensures s.velocity.y <= 0.0 ==> Table(s, table).angularVelocity == s.angularVelocity
  {
  }

  /** When the die fits between ceiling and table it ends every rolling tick between them,
      y in [size/2, 0.7 h - size/2], and inside the side walls when it fits the width. */
  lemma StepStaysInBounds(s: DieState, dt: real, w: real, h: real)
    requires s.isRolling
    requires TableSurface(h) >= s.size
    ensures var r := Step(s, dt, w, h);
      s.size / 2.0 <= r.position.y <= TableSurface(h) - s.size / 2.0
      && (w >= s.size ==> s.size / 2.0 <= r.position.x <= w - s.size / 2.0)
  {
    var i := Integrate(s, Gravity, dt);
    if w >= s.size {
      SideWallBounds(i, w, Restitution, Friction);
    }
  }

  /** The friction factor is 0.985 * 0.95 near the table and 0.985 elsewhere, and it scales both
      velocities. */
  lemma FrictionNearTable(s: DieState, table: real)
    ensures NearTable(s, table) ==> FrictionFactor(s, table) == 0.985 * 0.95
    ensures !NearTable(s, table) ==> FrictionFactor(s, table) == 0.985
    ensures ApplyFriction(s, table).velocity == Scale(s.velocity, FrictionFactor(s, table))
    ensures ApplyFriction(s, table).angularVelocity == Scale(s.angularVelocity, FrictionFactor(s, table))
    ensures ApplyFriction(s, table).position == s.position
  {
  }

  /** A rolling tick settles exactly when the slowed state is ready; a settled die is at rest on the
      table with the final value of its rotation. */
  lemma StepOutcome(s: DieState, dt: real, w: real, h: real)
    requires s.isRolling
    ensures var f := ApplyFriction(Collided(s, dt, w, h), TableSurface(h));
      var r := Step(s, dt, w, h);
      && (!r.isRolling <==> ReadyToSettle(f, TableSurface(h)))
      && (r.isRolling ==> r == f)
      && (!r.isRolling ==> r.velocity == Zero && r.angularVelocity == Zero
                           && r.position.y == TableSurface(h) - s.size / 2.0
                           && r.finalValue == FinalValue(f.rotation, s.sides)
                           && (s.sides >= 1 ==> 1 <= r.finalValue <= s.sides))
  {
  }

  /** The settle test on squared lengths is the source's test on lengths. */
  lemma ReadyByLengths(s: DieState, table: real, speed: real, spin: real)
    requires IsLength(s.velocity, speed) && IsLength(s.angularVelocity, spin)
    ensures ReadyToSettle(s, table)
        <==> speed < 30.0 && spin < 0.5 && s.bounceTime > 3.0 && NearTable(s, table)
  {
    LengthBelow(s.velocity, speed, 30.0);
    LengthBelow(s.angularVelocity, spin, 0.5);
  }

  /** A die of the full-screen page: the fields of `EnhancedDice3D` that the simulation uses. */
  class EnhancedDice3D {
    var position: Vector3D
    var velocity: Vector3D
    var angularVelocity: Vector3D
    var rotation: Vector3D
    var sides: int
    var size: real
    var isRolling: bool
    var finalValue: int
    var bounceTime: real

    function State(): DieState
      reads this
    {
      DieState(position, velocity, angularVelocity, rotation, sides, size, isRolling, finalValue, bounceTime)
    }

    /** `new EnhancedDice3D(sides, position)`, with the constructor's six random draws as u. */
    constructor (sides: int, position: Vector3D, u: seq<real>)
      requires |u| == 6 && UnitDraws(u)
      ensures State() == Initial(sides, position, u)
    {
      this.sides := sides;
      this.position := position;
      size := DefaultSize;
      isRolling := true;
      finalValue := 1;
      bounceTime := 0.0;
      rotation := Zero;
      velocity := Vector3D((u[0] - 0.5) * 600.0, (u[1] - 0.5) * 400.0 - 200.0, (u[2] - 0.5) * 400.0);
      angularVelocity := Vector3D((u[3] - 0.5) * 15.0, (u[4] - 0.5) * 15.0, (u[5] - 0.5) * 15.0);
    }

    /** `Update(deltaTime, boundsWidth, boundsHeight)`: nothing once settled; otherwise the blocks
        of the source in order. */
    method Update(dt: real, w: real, h: real)
      modifies this
      ensures State() == Step(old(State()), dt, w, h)
    {
      if !isRolling {
        return;
      }
      Advance(dt);
      var tableSurface := h * 0.7;
      BounceOffSides(w);
      BounceOffTable(tableSurface);
      BounceOffTop();
      SlowDown(tableSurface);
      SettleIfReady(tableSurface);
    }

    /** Bounce time, gravity, then position and rotation. */
    method Advance(dt: real)
      modifies this
      ensures State() == Integrate(old(State()), Gravity, dt)
    {
      bounceTime := bounceTime + dt;
      velocity := velocity.(y := velocity.y + Gravity * dt);
      position := Add(position, Scale(velocity, dt));
      rotation := Add(rotation, Scale(angularVelocity, dt));
    }

    method BounceOffSides(w: real)
      modifies this
      ensures State() == SideWall(old(State()), w, Restitution, Friction)
    {
      if position.x - size / 2.0 <= 0.0 || position.x + size / 2.0 >= w {
        if position.x - size / 2.0 <= 0.0 {
          position := position.(x := size / 2.0);
        }
        if position.x + size / 2.0 >= w {
          position := position.(x := w - size / 2.0);
        }
        velocity := velocity.(x := velocity.x * -Restitution);
        angularVelocity := angularVelocity.(x := angularVelocity.x * Friction);
      }
    }

    method BounceOffTable(tableSurface: real)
      modifies this
      ensures State() == Table(old(State()), tableSurface)
    {
      if position.y + size / 2.0 >= tableSurface {
        position := position.(y := tableSurface - size / 2.0);
        if velocity.y > 0.0 {
          velocity := velocity.(y := velocity.y * -Restitution);
          angularVelocity := angularVelocity.(y := angularVelocity.y * Friction);
        }
      }
    }

    method BounceOffTop()
      modifies this
      ensures State() == Ceiling(old(State()))
    {
      if position.y - size / 2.0 <= 0.0 {
        position := position.(y := size / 2.0);
        if velocity.y < 0.0 {
          velocity := velocity.(y := velocity.y * -Restitution);
        }
      }
    }

    method SlowDown(tableSurface: real)
      modifies this
      ensures State() == ApplyFriction(old(State()), tableSurface)
    {
      var frictionMultiplier := if position.y + size / 2.0 >= tableSurface - 5.0 then 0.95 else 1.0;
      velocity := Scale(velocity, Friction * frictionMultiplier);
      angularVelocity := Scale(angularVelocity, Friction * frictionMultiplier);
    }

    method SettleIfReady(tableSurface: real)
      modifies this
      ensures State() == Settle(old(State()), tableSurface)
    {
      if LengthSquared(velocity) < 30.0 * 30.0 && LengthSquared(angularVelocity) < 0.5 * 0.5
        && bounceTime > 3.0 && position.y + size / 2.0 >= tableSurface - 5.0
      {
        isRolling := false;
        velocity := Zero;
        angularVelocity := Zero;
        position := position.(y := tableSurface - size / 2.0);
        finalValue := FinalValue(rotation, sides);
      }
    }
  }
}
