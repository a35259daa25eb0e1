/** The celebration particles of the full-screen page (3Dice/Models/Particle.cs): a point that
    falls under a gravity of 200 and burns down its remaining life by the elapsed time. */
module Particles {
  import opened Vectors

  const ParticleGravity: real := 200.0

  /** The fields of a particle that its update reads or writes (the colour only feeds drawing). */
  datatype ParticleState = ParticleState(position: Vector3D, velocity: Vector3D, life: real, maxLife: real, size: real)

  /** `IsExpired`: no life left. */
  predicate Expired(p: ParticleState) {
    p.life <= 0.0
  }

  /** One call of `Update(dt)`. */
  function Step(p: ParticleState, dt: real): ParticleState {
    if Expired(p) then p
    else
      var v := p.velocity.(y := p.velocity.y + ParticleGravity * dt);
      p.(velocity := v, position := Add(p.position, Scale(v, dt)), life := p.life - dt)
  }

  /** The state after a sequence of `Update` calls with the given time steps. */
  function Run(p: ParticleState, dts: seq<real>): ParticleState
    decreases |dts|
  {
    if dts == [] then p else Run(Step(p, dts[0]), dts[1..])
  }

  /** The sum of the time steps. */
  function TotalTime(dts: seq<real>): real {
    if dts == [] then 0.0 else dts[0] + TotalTime(dts[1..])
  }

  /** An expired particle is left exactly as it is. */
  lemma StepExpired(p: ParticleState, dt: real)
    requires Expired(p)
    ensures Step(p, dt) == p
  {
  }

  /** A live particle loses exactly dt of life; gravity changes only the vertical velocity, by
      200 dt; the position advances by the updated velocity over dt; size and maximum life stay. */
  lemma StepLive(p: ParticleState, dt: real)
    requires !Expired(p)
    ensures Step(p, dt).life == p.life - dt
    ensures Step(p, dt).velocity == Vector3D(p.velocity.x, p.velocity.y + 200.0 * dt, p.velocity.z)
    ensures Step(p, dt).position == Add(p.position, Scale(Step(p, dt).velocity, dt))
    ensures Step(p, dt).size == p.size && Step(p, dt).maxLife == p.maxLife
  {
  }

  /** Once expired, a particle stays expired, and unchanged, under any further updates. */
  lemma {:induction false} RunExpired(p: ParticleState, dts: seq<real>)
    requires Expired(p)
    ensures Run(p, dts) == p
    decreases |dts|
  {
    if dts != [] {
      StepExpired(p, dts[0]);
      RunExpired(p, dts[1..]);
    }
  }

  /** A particle still alive after a run of updates has lost exactly the total elapsed time; so a
      particle whose life does not exceed the total elapsed time has expired. */
  lemma {:induction false} RunLife(p: ParticleState, dts: seq<real>)
    ensures !Expired(Run(p, dts)) ==> Run(p, dts).life == p.life - TotalTime(dts)
    ensures TotalTime(dts) >= p.life ==> Expired(Run(p, dts))
    decreases |dts|
  {
    if dts != [] {
      if Expired(p) {
        RunExpired(p, dts);
      } else {
        RunLife(Step(p, dts[0]), dts[1..]);
      }
    }
  }

  /** A particle: the fields of `Particle` that its update uses. */
  class Particle {
    var position: Vector3D
    var velocity: Vector3D
    var life: real
    var maxLife: real
    var size: real

    function State(): ParticleState
      reads this
    {
      ParticleState(position, velocity, life, maxLife, size)
    }

    /** `new Particle()`: the declared defaults, with the maximum life copied from the default life
        of 1. An object initializer that sets `Life` afterwards leaves the maximum life at 1. */
    constructor ()
      ensures State() == ParticleState(Zero, Zero, 1.0, 1.0, 5.0)
    {
      position := Zero;
      velocity := Zero;
      life := 1.0;
      size := 5.0;
      maxLife := life;
    }

    function IsExpired(): (r: bool)
      reads this
      ensures r <==> life <= 0.0
    {
      Expired(State())
    }

    /** `Update(deltaTime)`: nothing once expired; otherwise gravity, movement and decay. */
    method Update(dt: real)
      modifies this
      ensures State() == Step(old(State()), dt)
    {
      if IsExpired() {
        return;
      }
      velocity := velocity.(y := velocity.y + ParticleGravity * dt);
      position := Add(position, Scale(velocity, dt));
      life := life - dt;
    }
  }
}
