/** The die of the embedded rolling view (3Dice/Models/Dice3D.cs): gravity 980, friction 0.98,
    restitution 0.3, bounces on all four edges of the canvas, and settles when slow enough
    after two seconds. */
module BasicDice {
  import opened Vectors
  import opened Numerics
  import opened DieStates

  const Gravity: real := 980.0
  const Friction: real := 0.98
  const Restitution: real := 0.3
  const DefaultSize: real := 30.0

  /** `CalculateFinalValue`: `(int)(sum * 100) % Sides + 1`, clamped into [1, Sides]. The C#
      remainder throws on zero sides. */
  function FinalValue(rotation: Vector3D, sides: int): (r: int)
    requires sides != 0
    ensures 1 <= r
    ensures sides >= 1 ==> r <= sides
    ensures sides < 0 ==> r == 1
  {
    var value := Rem(Trunc(RotationSum(rotation) * 100.0), sides) + 1;
    Max(1, Min(sides, value))
  }

  /** For a die with at least one side the clamp never acts: the value is the remainder of the
      truncated, scaled rotation sum, plus one. */
  lemma FinalValueUnclamped(rotation: Vector3D, sides: int)
    requires sides >= 1
    ensures FinalValue(rotation, sides) == Rem(Trunc(RotationSum(rotation) * 100.0), sides) + 1
  {
  }

  predicate HitsFloorOrCeiling(s: DieState, h: real) {
    s.position.y - s.size / 2.0 <= 0.0 || s.position.y + s.size / 2.0 >= h
  }

  /** The vertical bounds phase: the same shape as the side walls, on the full canvas height. */
  function FloorAndCeiling(s: DieState, h: real): DieState {
    if HitsFloorOrCeiling(s, h) then
      var half := s.size / 2.0;
      var y1 := if s.position.y - half <= 0.0 then half else s.position.y;
      var y2 := if y1 + half >= h then h - half else y1;
      s.(position := s.position.(y := y2),
         velocity := s.velocity.(y := s.velocity.y * -Restitution),
         angularVelocity := s.angularVelocity.(y := s.angularVelocity.y * Friction))
    else s
  }

  function ApplyFriction(s: DieState): DieState {
    s.(velocity := Scale(s.velocity, Friction), angularVelocity := Scale(s.angularVelocity, Friction))
  }

  /** `Velocity.Length < 50 && AngularVelocity.Length < 1 && _bounceTime > 2`, on squared lengths. */
  predicate SlowEnough(s: DieState) {
    LengthSquared(s.velocity) < 50.0 * 50.0 && LengthSquared(s.angularVelocity) < 1.0 * 1.0
    && s.bounceTime > 2.0
  }

  function Settle(s: DieState): DieState
    requires s.sides != 0
  {
    if SlowEnough(s) then
      s.(isRolling := false, velocity := Zero, angularVelocity := Zero,
         finalValue := FinalValue(s.rotation, s.sides))
    else s
  }

  /** The state before the settle test: integrated, bounced and slowed by friction. */
  function Moved(s: DieState, dt: real, w: real, h: real): DieState {
    ApplyFriction(FloorAndCeiling(SideWall(Integrate(s, Gravity, dt), w, Restitution, Friction), h))
  }

  /** One call of `Update(dt, w, h)`. */
  function Step(s: DieState, dt: real, w: real, h: real): DieState
    requires s.sides != 0
  {
    if !s.isRolling then s else Settle(Moved(s, dt, w, h))
  }

  /** The state the constructor leaves, given its six draws. */
  function Initial(sides: int, position: Vector3D, u: seq<real>): DieState
    requires |u| == 6
  {
    Launch(sides, position, DefaultSize, u, 400.0, 200.0, 100.0, 300.0, 10.0)
  }

  /** A settled die is left exactly as it is: settling is terminal. */
  lemma StepSettled(s: DieState, dt: real, w: real, h: real)
    requires s.sides != 0 && !s.isRolling
    ensures Step(s, dt, w, h) == s
  {
  }

  /** A rolling tick advances the bounce time by exactly dt, keeps sides and size, and advances
      the rotation by the angular velocity over dt. */
  lemma StepRolling(s: DieState, dt: real, w: real, h: real)
    requires s.sides != 0 && s.isRolling
    ensures Step(s, dt, w, h).bounceTime == s.bounceTime + dt
    ensures Step(s, dt, w, h).sides == s.sides && Step(s, dt, w, h).size == s.size
    ensures Step(s, dt, w, h).rotation == Add(s.rotation, Scale(s.angularVelocity, dt))
  {
  }

  /** When the die fits the canvas, a rolling tick leaves it inside:
      x in [size/2, w - size/2] and y in [size/2, h - size/2]. */
  lemma StepStaysInBounds(s: DieState, dt: real, w: real, h: real)
    requires s.sides != 0 && s.isRolling
    requires w >= s.size && h >= s.size
    ensures var r := Step(s, dt, w, h);
      s.size / 2.0 <= r.position.x <= w - s.size / 2.0
      && s.size / 2.0 <= r.position.y <= h - s.size / 2.0
  {
    SideWallBounds(Integrate(s, Gravity, dt), w, Restitution, Friction);
  }

  /** A floor or ceiling contact scales the vertical velocity by -0.3 whatever its sign and damps the
      spin about y by 0.98; without contact the phase changes nothing. */
  lemma FloorAndCeilingEffect(s: DieState, h: real)
    ensures HitsFloorOrCeiling(s, h) ==>
      FloorAndCeiling(s, h).velocity == Vector3D(s.velocity.x, s.velocity.y * -0.3, s.velocity.z)
      && FloorAndCeiling(s, h).angularVelocity
           == Vector3D(s.angularVelocity.x, s.angularVelocity.y * 0.98, s.angularVelocity.z)
    ensures !HitsFloorOrCeiling(s, h) ==> FloorAndCeiling(s, h) == s
  {
  }

  /** A rolling tick that does not settle ends with both velocities at 0.98 times their bounced
      values; one that settles ends at rest with the final value of the new rotation. The die
      settles exactly when the slowed state is slow enough. */
  lemma StepOutcome(s: DieState, dt: real, w: real, h: real)
    requires s.sides != 0 && s.isRolling
    ensures var b := FloorAndCeiling(SideWall(Integrate(s, Gravity, dt), w, Restitution, Friction), h);
      var r := Step(s, dt, w, h);
      && (!r.isRolling <==> SlowEnough(ApplyFriction(b)))
      && (r.isRolling ==> r.velocity == Scale(b.velocity, 0.98)
                          && r.angularVelocity == Scale(b.angularVelocity, 0.98)
                          && r.position == b.position)
      && (!r.isRolling ==> r.velocity == Zero && r.angularVelocity == Zero
                           && r.position == b.position
                           && r.finalValue == FinalValue(b.rotation, s.sides)
                           && 1 <= r.finalValue)
  {
  }

  /** The settle test on squared lengths is the source's test on lengths. */
  lemma SlowEnoughByLengths(s: DieState, speed: real, spin: real)
    requires IsLength(s.velocity, speed) && IsLength(s.angularVelocity, spin)
    ensures SlowEnough(s) <==> speed < 50.0 && spin < 1.0 && s.bounceTime > 2.0
  {
    LengthBelow(s.velocity, speed, 50.0);
    LengthBelow(s.angularVelocity, spin, 1.0);
  }

  /** A tick of the view's timer, with the bounds the die is updated against. */
  datatype Tick = Tick(dt: real, w: real, h: real)

  /** The state after a sequence of `Update` calls. */
  function Run(s: DieState, ticks: seq<Tick>): DieState
    requires s.sides != 0
    decreases |ticks|
  {
    if ticks == [] then s
    else
      StepKeepsSides(s, ticks[0].dt, ticks[0].w, ticks[0].h);
      Run(Step(s, ticks[0].dt, ticks[0].w, ticks[0].h), ticks[1..])
  }

  lemma StepKeepsSides(s: DieState, dt: real, w: real, h: real)
    requires s.sides != 0
    ensures Step(s, dt, w, h).sides == s.sides
  {
  }

  /** Once settled, a die stays settled with the same final value under any further ticks. */
  lemma {:induction false} RunSettled(s: DieState, ticks: seq<Tick>)
    requires s.sides != 0 && !s.isRolling
    ensures Run(s, ticks) == s
    decreases |ticks|
  {
    if ticks != [] {
      StepSettled(s, ticks[0].dt, ticks[0].w, ticks[0].h);
      RunSettled(s, ticks[1..]);
    }
  }

  /** A die that is rolling after some ticks was rolling after every earlier prefix of them. */
  lemma {:induction false} RunRollingPrefix(s: DieState, ticks: seq<Tick>, n: nat)
    requires s.sides != 0 && n <= |ticks|
    requires Run(s, ticks).isRolling
    ensures Run(s, ticks[..n]).isRolling
    decreases |ticks|
  {
    if n > 0 {
      var t := ticks[0];
      StepKeepsSides(s, t.dt, t.w, t.h);
      var s1 := Step(s, t.dt, t.w, t.h);
      assert ticks[..n][1..] == ticks[1..][..n - 1];
      if !s1.isRolling {
        RunSettled(s1, ticks[1..]);
      }
      RunRollingPrefix(s1, ticks[1..], n - 1);
    } else if !s.isRolling {
      RunSettled(s, ticks);
    }
  }

  /** A die of the embedded view: the fields of `Dice3D` that the simulation uses. */
  class Dice3D {
    var position: Vector3D
    var velocity: Vector3D
    var angularVelocity: Vector3D
    var rotation: Vector3D
    var sides: int
    var size: real
    var isRolling: bool
    var finalValue: int
    var bounceTime: real

    function State(): DieState
      reads this
    {
      DieState(position, velocity, angularVelocity, rotation, sides, size, isRolling, finalValue, bounceTime)
    }

    /** `new Dice3D(sides, position)`, with the constructor's six random draws as u. */
    constructor (sides: int, position: Vector3D, u: seq<real>)
      requires |u| == 6 && UnitDraws(u)
      ensures State() == Initial(sides, position, u)
    {
      this.sides := sides;
      this.position := position;
      size := DefaultSize;
      isRolling := true;
      finalValue := 1;
      bounceTime := 0.0;
      rotation := Zero;
      velocity := Vector3D((u[0] - 0.5) * 400.0, (u[1] - 0.5) * 200.0 - 100.0, (u[2] - 0.5) * 300.0);
      angularVelocity := Vector3D((u[3] - 0.5) * 10.0, (u[4] - 0.5) * 10.0, (u[5] - 0.5) * 10.0);
    }

    /** `Update(deltaTime, boundsWidth, boundsHeight)`: nothing once settled; otherwise the blocks
        of the source in order. */
    method Update(dt: real, w: real, h: real)
      requires sides != 0
      modifies this
      ensures State() == Step(old(State()), dt, w, h)
    {
      if !isRolling {
        return;
      }
      Advance(dt);
      BounceOffSides(w);
      BounceOffTopAndBottom(h);
      SlowDown();
      SettleIfSlow();
    }

    /** Bounce time, gravity, then position and rotation. */
    method Advance(dt: real)
      modifies this
      ensures State() == Integrate(old(State()), Gravity, dt)
    {
      bounceTime := bounceTime + dt;
      velocity := velocity.(y := velocity.y + Gravity * dt);
      position := Add(position, Scale(velocity, dt));
      rotation := Add(rotation, Scale(angularVelocity, dt));
    }

    method BounceOffSides(w: real)
      modifies this
      ensures State() == SideWall(old(State()), w, Restitution, Friction)
    {
      if position.x - size / 2.0 <= 0.0 || position.x + size / 2.0 >= w {
        if position.x - size / 2.0 <= 0.0 {
          position := position.(x := size / 2.0);
        }
        if position.x + size / 2.0 >= w {
          position := position.(x := w - size / 2.0);
        }
        velocity := velocity.(x := velocity.x * -Restitution);
        angularVelocity := angularVelocity.(x := angularVelocity.x * Friction);
      }
    }

    method BounceOffTopAndBottom(h: real)
      modifies this
      ensures State() == FloorAndCeiling(old(State()), h)
    {
      if position.y - size / 2.0 <= 0.0 || position.y + size / 2.0 >= h {
        if position.y - size / 2.0 <= 0.0 {
          position := position.(y := size / 2.0);
        }
        if position.y + size / 2.0 >= h {
          position := position.(y := h - size / 2.0);
        }
        velocity := velocity.(y := velocity.y * -Restitution);
        angularVelocity := angularVelocity.(y := angularVelocity.y * Friction);
      }
    }

    method SlowDown()
      modifies this
      ensures State() == ApplyFriction(old(State()))
    {
      velocity := Scale(velocity, Friction);
      angularVelocity := Scale(angularVelocity, Friction);
    }

    method SettleIfSlow()
      requires sides != 0
      modifies this
      ensures State() == Settle(old(State()))
    {
      if LengthSquared(velocity) < 50.0 * 50.0 && LengthSquared(angularVelocity) < 1.0 * 1.0 && bounceTime > 2.0 {
        isRolling := false;
        velocity := Zero;
        angularVelocity := Zero;
        finalValue := FinalValue(rotation, sides);
      }
    }
  }
}
