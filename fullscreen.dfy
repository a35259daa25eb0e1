/** The full-screen roll session (3Dice/Views/FullScreenDiceRollingPage.cs): enhanced dice laid out
    on a grid, stepped every tick against the canvas; when all have settled the results text is
    built once and a burst of 50 celebration particles is released, which burn out over the
    following ticks and are removed as they expire. */
module FullScreen {
  import opened Vectors
  import opened Numerics
  import opened DieStates
  import opened DiceTypes
  import opened Grouping
  import opened Results
  import opened Particles
  import EnhancedDice

  /** `Math.Min(6, (int)Math.Ceiling(Math.Sqrt(totalDice)))`. */
  function DicePerRow(total: nat): (r: nat)
    ensures r <= 6
    ensures total >= 1 ==> r >= 1
  {
    Min(6, CeilSqrt(total))
  }

  /** Up to 36 dice the grid is square enough to hold them all in `dicePerRow` rows; beyond that
      there are always six columns. */
  lemma DicePerRowFits(total: nat)
    ensures total <= 36 ==> DicePerRow(total) * DicePerRow(total) >= total
    ensures total > 36 ==> DicePerRow(total) == 6
  {
    var c := CeilSqrt(total);
    if c <= 6 {
      assert c * c <= 6 * c <= 36;
      assert total <= 36;
    } else {
      assert (c - 1) * (c - 1) >= 6 * (c - 1) >= 36;
      assert total > 36;
    }
  }

  /** Up to 36 dice, every die's row is one of the `dicePerRow` rows, so the grid is square. */
  lemma RowsFit(total: nat, k: nat)
    requires total <= 36 && k < total
    ensures DicePerRow(total) >= 1
    ensures k / DicePerRow(total) < DicePerRow(total)
  {
    DicePerRowFits(total);
  }

  /** Where die k starts: a 120-pixel grid cell from (100, 100), plus up to 50 at random. */
  function StartPoint(k: nat, perRow: nat, d: seq<real>): Vector3D
    requires perRow >= 1 && |d| >= 2
  {
    Vector3D((100 + (k % perRow) * 120) as real + d[0] * 50.0,
             (100 + (k / perRow) * 120) as real + d[1] * 50.0,
             0.0)
  }

  /** The state of the k-th die `StartRolling` creates. The nine draws are the two position draws,
      the six the constructor makes, and the size draw of the object initializer, which then
      replaces the constructor's size of 50. */
  function Spawned(sides: int, k: nat, perRow: nat, d: seq<real>): DieState
    requires perRow >= 1 && |d| == 9
  {
    EnhancedDice.Initial(sides, StartPoint(k, perRow, d), d[2..8]).(size := 50.0 + d[8] * 20.0)
  }

  /** A spawned die is 50 to 70 wide and starts inside its cell: dice in neighbouring columns or
      rows do not overlap at the start. */
  lemma SpawnedInCell(sides: int, k: nat, perRow: nat, d: seq<real>)
    requires perRow >= 1 && |d| == 9 && UnitDraws(d)
    ensures var s := Spawned(sides, k, perRow, d);
      var col := (k % perRow) as real;
      var row := (k / perRow) as real;
      && 50.0 <= s.size < 70.0
      && 65.0 + 120.0 * col <= s.position.x - s.size / 2.0
      && s.position.x + s.size / 2.0 < 185.0 + 120.0 * col
      && 65.0 + 120.0 * row <= s.position.y - s.size / 2.0
      && s.position.y + s.size / 2.0 < 185.0 + 120.0 * row
  {
    assert 0.0 <= d[0] < 1.0 && 0.0 <= d[1] < 1.0 && 0.0 <= d[8] < 1.0;
  }

  /** Two different dice of one roll get different grid cells, so they do not overlap where they
      start: one lies wholly left of, right of, above or below the other. */
  lemma SpawnedApart(sides1: int, sides2: int, k1: nat, k2: nat, perRow: nat, d1: seq<real>, d2: seq<real>)
    requires perRow >= 1 && k1 != k2
    requires |d1| == 9 && UnitDraws(d1) && |d2| == 9 && UnitDraws(d2)
    ensures var s1 := Spawned(sides1, k1, perRow, d1);
      var s2 := Spawned(sides2, k2, perRow, d2);
      || s1.position.x + s1.size / 2.0 < s2.position.x - s2.size / 2.0
      || s2.position.x + s2.size / 2.0 < s1.position.x - s1.size / 2.0
      || s1.position.y + s1.size / 2.0 < s2.position.y - s2.size / 2.0
      || s2.position.y + s2.size / 2.0 < s1.position.y - s1.size / 2.0
  {
    SpawnedInCell(sides1, k1, perRow, d1);
    SpawnedInCell(sides2, k2, perRow, d2);
    if k1 / perRow == k2 / perRow {
      assert k1 % perRow != k2 % perRow by {
        assert k1 == (k1 / perRow) * perRow + k1 % perRow;
        assert k2 == (k2 / perRow) * perRow + k2 % perRow;
      }
    }
  }

  /** A celebration particle, given its four draws (velocity x, velocity y, life, size); the
      colour draw only feeds drawing. */
  function Celebration(w: real, h: real, d: seq<real>): ParticleState
    requires |d| == 4
  {
    ParticleState(Vector3D(w / 2.0, h / 2.0, 0.0),
                  Vector3D((d[0] - 0.5) * 300.0, (d[1] - 0.5) * 300.0 - 100.0, 0.0),
                  2.0 + d[2] * 2.0, 1.0, 3.0 + d[3] * 5.0)
  }

  /** A celebration particle starts alive with 2 to 4 of life, 3 to 8 wide, at the canvas centre,
      and keeps the maximum life of 1 that its constructor copied before the initializer set the
      life; it has expired once 4 seconds have elapsed. */
  lemma CelebrationParticle(w: real, h: real, d: seq<real>, dts: seq<real>)
    requires |d| == 4 && UnitDraws(d)
    ensures var p := Celebration(w, h, d);
      && !Expired(p) && 2.0 <= p.life < 4.0 && p.maxLife == 1.0 && p.life > p.maxLife
      && 3.0 <= p.size < 8.0 && p.position == Vector3D(w / 2.0, h / 2.0, 0.0)
    ensures TotalTime(dts) >= 4.0 ==> Expired(Run(Celebration(w, h, d), dts))
  {
    assert 0.0 <= d[2] < 1.0 && 0.0 <= d[3] < 1.0;
    RunLife(Celebration(w, h, d), dts);
  }

  /** `new Particle { Position = ..., Velocity = ..., Life = ..., Size = ... }` in
      `CreateCelebrationParticles`: the constructor, then the initializer's assignments. */
  method NewCelebrationParticle(w: real, h: real, d: seq<real>) returns (p: Particle)
    requires |d| == 4
    ensures fresh(p) && p.State() == Celebration(w, h, d)
  {
    p := new Particle();
    p.position := Vector3D(w / 2.0, h / 2.0, 0.0);
    p.velocity := Vector3D((d[0] - 0.5) * 300.0, (d[1] - 0.5) * 300.0 - 100.0, 0.0);
    p.life := 2.0 + d[2] * 2.0;
    p.size := 3.0 + d[3] * 5.0;
  }

  predicate AllSettled(states: seq<DieState>) {
    forall k :: 0 <= k < |states| ==> !states[k].isRolling
  }

  /** Every die updated once, `Update(dt, w, h)`. */
  function StepAll(states: seq<DieState>, dt: real, w: real, h: real): (r: seq<DieState>)
    ensures |r| == |states|
  {
    if states == [] then [] else [EnhancedDice.Step(states[0], dt, w, h)] + StepAll(states[1..], dt, w, h)
  }

  /** Die k of the updated dice is die k updated. */
  lemma {:induction false} StepAllAt(states: seq<DieState>, dt: real, w: real, h: real, k: nat)
    requires k < |states|
    ensures StepAll(states, dt, w, h)[k] == EnhancedDice.Step(states[k], dt, w, h)
  {
    if k > 0 {
      StepAllAt(states[1..], dt, w, h, k - 1);
    }
  }

  /** Every particle updated once, `Update(dt)`. */
  function StepParticles(states: seq<ParticleState>, dt: real): (r: seq<ParticleState>)
    ensures |r| == |states|
    ensures forall k :: 0 <= k < |states| ==> r[k] == Particles.Step(states[k], dt)
  {
    if states == [] then [] else [Particles.Step(states[0], dt)] + StepParticles(states[1..], dt)
  }

  function StatesOf(ds: seq<EnhancedDice.EnhancedDice3D>): (r: seq<DieState>)
    reads ds
    ensures |r| == |ds|
  {
    if ds == [] then [] else [ds[0].State()] + StatesOf(ds[1..])
  }

  /** State k of the dice is the state of die k. */
  lemma {:induction false} StatesOfAt(ds: seq<EnhancedDice.EnhancedDice3D>, k: nat)
    requires k < |ds|
    ensures StatesOf(ds)[k] == ds[k].State()
  {
    if k > 0 {
      StatesOfAt(ds[1..], k - 1);
    }
  }

  function ParticleStatesOf(ps: seq<Particle>): (r: seq<ParticleState>)
    reads ps
    ensures |r| == |ps|
  {
    if ps == [] then [] else [ps[0].State()] + ParticleStatesOf(ps[1..])
  }

  /** State k of the particles is the state of particle k. */
  lemma {:induction false} ParticleStatesOfAt(ps: seq<Particle>, k: nat)
    requires k < |ps|
    ensures ParticleStatesOf(ps)[k] == ps[k].State()
  {
    if k > 0 {
      ParticleStatesOfAt(ps[1..], k - 1);
    }
  }

  /** Particles whose states are the given ones, one by one, have those states. */
  lemma ParticleStatesOfIs(ps: seq<Particle>, states: seq<ParticleState>)
    requires |states| == |ps| && forall k :: 0 <= k < |ps| ==> ps[k].State() == states[k]
    ensures ParticleStatesOf(ps) == states
  {
    forall k | 0 <= k < |ps|
      ensures ParticleStatesOf(ps)[k] == states[k]
    {
      ParticleStatesOfAt(ps, k);
    }
  }

  /** The particle states with life left, in order: what the removal loop keeps. */
  function LiveParticles(ps: seq<ParticleState>): (r: seq<ParticleState>)
    ensures |r| <= |ps|
  {
    if ps == [] then []
    else (if Expired(ps[0]) then [] else [ps[0]]) + LiveParticles(ps[1..])
  }

  /** The live particles are exactly those of the list that have not expired. */
  lemma {:induction false} LiveParticlesExact(ps: seq<ParticleState>)
    ensures forall q :: q in LiveParticles(ps) <==> q in ps && !Expired(q)
  {
    if ps != [] {
      LiveParticlesExact(ps[1..]);
      assert ps == [ps[0]] + ps[1..];
    }
  }

  /** When every particle has expired, none is kept. */
  lemma {:induction false} LiveParticlesNone(ps: seq<ParticleState>)
    requires forall k :: 0 <= k < |ps| ==> Expired(ps[k])
    ensures LiveParticles(ps) == []
  {
    if ps != [] {
      assert Expired(ps[0]);
      LiveParticlesNone(ps[1..]);
    }
  }

  lemma ParticleStatesOfAppend(a: seq<Particle>, b: seq<Particle>)
    ensures ParticleStatesOf(a + b) == ParticleStatesOf(a) + ParticleStatesOf(b)
  {
    var states := ParticleStatesOf(a) + ParticleStatesOf(b);
    forall k | 0 <= k < |a + b|
      ensures (a + b)[k].State() == states[k]
    {
      if k < |a| {
        ParticleStatesOfAt(a, k);
      } else {
        ParticleStatesOfAt(b, k - |a|);
      }
    }
    ParticleStatesOfIs(a + b, states);
  }

  /** The particles whose states have life left, in their original order: what the removal loop
      keeps of a list once its particles have the given states. */
  function Kept(ps: seq<Particle>, states: seq<ParticleState>): (r: seq<Particle>)
    requires |ps| == |states|
    ensures |r| <= |ps|
  {
    if ps == [] then []
    else (if Expired(states[0]) then [] else [ps[0]]) + Kept(ps[1..], states[1..])
  }

  /** What is kept of a suffix: its first particle, if alive, then what is kept of the rest. */
  lemma KeptFrom(ps: seq<Particle>, states: seq<ParticleState>, i: nat)
    requires |ps| == |states| && i < |ps|
    ensures Kept(ps[i..], states[i..])
         == (if Expired(states[i]) then [] else [ps[i]]) + Kept(ps[i + 1..], states[i + 1..])
  {
    assert ps[i..][1..] == ps[i + 1..];
    assert states[i..][1..] == states[i + 1..];
  }

  /** Only particles of the list are kept. */
  lemma {:induction false} KeptFromList(ps: seq<Particle>, states: seq<ParticleState>)
    requires |ps| == |states|
    ensures forall p :: p in Kept(ps, states) ==> p in ps
  {
    if ps != [] {
      KeptFromList(ps[1..], states[1..]);
    }
  }

  /** No particle is kept twice. */
  lemma {:induction false} KeptDistinct(ps: seq<Particle>, states: seq<ParticleState>)
    requires |ps| == |states| && Distinct(ps)
    ensures Distinct(Kept(ps, states))
  {
    if ps != [] {
      assert Distinct(ps[1..]) by {
        forall i, j | 0 <= i < j < |ps| - 1
          ensures ps[1..][i] != ps[1..][j]
        {
          assert ps[1..][i] == ps[i + 1] && ps[1..][j] == ps[j + 1];
        }
      }
      KeptDistinct(ps[1..], states[1..]);
      KeptFromList(ps[1..], states[1..]);
      assert ps[0] !in Kept(ps[1..], states[1..]);
    }
  }

  /** Of particles whose states are the given ones, the kept have exactly the live states. */
  lemma {:induction false} KeptStates(ps: seq<Particle>, states: seq<ParticleState>)
    requires ParticleStatesOf(ps) == states
    ensures ParticleStatesOf(Kept(ps, states)) == LiveParticles(states)
  {
    if ps != [] {
      assert ParticleStatesOf(ps[1..]) == states[1..];
      KeptStates(ps[1..], states[1..]);
      var head := if Expired(states[0]) then [] else [ps[0]];
      ParticleStatesOfAppend(head, Kept(ps[1..], states[1..]));
    }
  }

  /** The 50 particles of a celebration, one per group of four draws. */
  function Burst(w: real, h: real, burst: seq<seq<real>>): (r: seq<ParticleState>)
    requires forall k :: 0 <= k < |burst| ==> |burst[k]| == 4
    ensures |r| == |burst|
  {
    if burst == [] then []
    else Burst(w, h, burst[..|burst| - 1]) + [Celebration(w, h, burst[|burst| - 1])]
  }

  /** Particle k of a burst is made from draws k. */
  lemma {:induction false} BurstAt(w: real, h: real, burst: seq<seq<real>>, k: nat)
    requires k < |burst| && forall j :: 0 <= j < |burst| ==> |burst[j]| == 4
    ensures Burst(w, h, burst)[k] == Celebration(w, h, burst[k])
  {
    var n := |burst| - 1;
    if k < n {
      BurstAt(w, h, burst[..n], k);
    }
  }

  predicate BurstDraws(burst: seq<seq<real>>) {
    |burst| == 50 && forall k :: 0 <= k < 50 ==> |burst[k]| == 4 && UnitDraws(burst[k])
  }

  /** The state of the page that a tick reads and writes. */
  datatype Page = Page(dice: seq<DieState>, particles: seq<ParticleState>, isRolling: bool,
                       showResults: bool, resultsText: string)

  /** Whether a tick does anything: a roll under way or particles still on screen. */
  predicate Active(p: Page) {
    p.isRolling || |p.particles| > 0
  }

  /** Whether the tick completes the roll: it was under way, and after the dice update there is at
      least one die and none is rolling. */
  predicate Completes(p: Page, dt: real, w: real, h: real) {
    p.isRolling && |p.dice| > 0 && AllSettled(StepAll(p.dice, dt, w, h))
  }

  /** The updates of a tick: every die and every particle updated once, the expired particles
      removed. */
  function Advanced(p: Page, dt: real, w: real, h: real): Page {
    p.(dice := StepAll(p.dice, dt, w, h), particles := LiveParticles(StepParticles(p.particles, dt)))
  }

  /** The completion of a roll: rolling stops, the results are shown with the text of the dice, and
      the burst follows the particles. */
  function Completed(p: Page, w: real, h: real, burst: seq<seq<real>>): Page
    requires forall k :: 0 <= k < |burst| ==> |burst[k]| == 4
  {
    p.(particles := p.particles + Burst(w, h, burst), isRolling := false, showResults := true,
       resultsText := FullScreenText(GroupBySides(Grouping.Outcomes(p.dice))))
  }

  /** One `OnTimerTick`: when active, the updates, and then the completion if the roll was under
      way and now there is at least one die and none is rolling. */
  function Tick(p: Page, dt: real, w: real, h: real, burst: seq<seq<real>>): Page
    requires forall k :: 0 <= k < |burst| ==> |burst[k]| == 4
  {
    if !Active(p) then p
    else
      var q := Advanced(p, dt, w, h);
      if Completes(p, dt, w, h) then Completed(q, w, h, burst) else q
  }

  /** A sequence of ticks with the given time steps and bursts. */
  function Ticks(p: Page, dts: seq<real>, w: real, h: real, bursts: seq<seq<seq<real>>>): Page
    requires |bursts| == |dts|
    requires forall i, k :: 0 <= i < |bursts| && 0 <= k < |bursts[i]| ==> |bursts[i][k]| == 4
    decreases |dts|
  {
    if dts == [] then p else Ticks(Tick(p, dts[0], w, h, bursts[0]), dts[1..], w, h, bursts[1..])
  }

  /** A tick changes the page only when active; the dice are updated whenever it is; rolling
      continues unless the tick completes; and a tick that does not complete leaves the results
      as they were. */
  lemma TickCases(p: Page, dt: real, w: real, h: real, burst: seq<seq<real>>)
    requires forall k :: 0 <= k < |burst| ==> |burst[k]| == 4
    ensures var q := Tick(p, dt, w, h, burst);
      && (!Active(p) ==> q == p)
      && (Active(p) ==> q.dice == StepAll(p.dice, dt, w, h))
      && (q.isRolling <==> p.isRolling && !Completes(p, dt, w, h))
      && (!Completes(p, dt, w, h) ==> q.showResults == p.showResults && q.resultsText == p.resultsText)
      && (Active(p) && !Completes(p, dt, w, h) ==> q.particles == LiveParticles(StepParticles(p.particles, dt)))
  {
  }

  /** On completion the results text is that of the settled dice, whose grand total is the sum of
      their final values, and the 50 particles of the burst follow the survivors. */
  lemma TickCompletion(p: Page, dt: real, w: real, h: real, burst: seq<seq<real>>)
    requires BurstDraws(burst)
    requires Completes(p, dt, w, h)
    ensures var q := Tick(p, dt, w, h, burst);
      && !q.isRolling && q.showResults && AllSettled(q.dice) && |q.dice| == |p.dice|
      && q.resultsText == FullScreenText(GroupBySides(Grouping.Outcomes(q.dice)))
      && GrandTotal(GroupBySides(Grouping.Outcomes(q.dice))) == Sum(Values(Grouping.Outcomes(q.dice)))
      && q.particles == LiveParticles(StepParticles(p.particles, dt)) + Burst(w, h, burst)
      && |q.particles| == |LiveParticles(StepParticles(p.particles, dt))| + 50
  {
    GrandTotalIsSum(Grouping.Outcomes(StepAll(p.dice, dt, w, h)));
  }

  /** A roll completes at most once: once a page has stopped rolling, no run of ticks starts it
      again or changes its results. */
  lemma {:induction false} CompletesOnce(p: Page, dts: seq<real>, w: real, h: real, bursts: seq<seq<seq<real>>>)
    requires |bursts| == |dts|
    requires forall i, k :: 0 <= i < |bursts| && 0 <= k < |bursts[i]| ==> |bursts[i][k]| == 4
    requires !p.isRolling
    ensures var q := Ticks(p, dts, w, h, bursts);
      !q.isRolling && q.showResults == p.showResults && q.resultsText == p.resultsText
    decreases |dts|
  {
    if dts != [] {
      var q := Tick(p, dts[0], w, h, bursts[0]);
      assert !q.isRolling && q.showResults == p.showResults && q.resultsText == p.resultsText;
      CompletesOnce(q, dts[1..], w, h, bursts[1..]);
    }
  }

  predicate AllAlive(ps: seq<ParticleState>) {
    forall k :: 0 <= k < |ps| ==> !Expired(ps[k])
  }

  /** Every particle on the page after a tick has life left: the expired ones are removed in the
      tick that expires them, and a burst's particles start alive. */
  lemma TickParticlesAlive(p: Page, dt: real, w: real, h: real, burst: seq<seq<real>>)
    requires BurstDraws(burst)
    ensures AllAlive(Tick(p, dt, w, h, burst).particles)
  {
    var live := LiveParticles(StepParticles(p.particles, dt));
    LiveParticlesExact(StepParticles(p.particles, dt));
    assert AllAlive(live) by {
      forall k | 0 <= k < |live|
        ensures !Expired(live[k])
      {
        assert live[k] in live;
      }
    }
    if Completes(p, dt, w, h) {
      var b := Burst(w, h, burst);
      forall k | 0 <= k < 50
        ensures !Expired(b[k])
      {
        BurstAt(w, h, burst, k);
        CelebrationParticle(w, h, burst[k], []);
      }
    }
  }

  /** Particles below a life of L stay below it under a tick of non-negative elapsed time, and the
      burst starts below 4. */
  lemma TickLifeBound(p: Page, dt: real, w: real, h: real, burst: seq<seq<real>>, bound: real)
    requires BurstDraws(burst) && dt >= 0.0 && bound >= 4.0
    requires forall k :: 0 <= k < |p.particles| ==> p.particles[k].life < bound
    ensures var ps := Tick(p, dt, w, h, burst).particles;
      forall k :: 0 <= k < |ps| ==> ps[k].life < bound
  {
    var stepped := StepParticles(p.particles, dt);
    var live := LiveParticles(stepped);
    LiveParticlesExact(stepped);
    forall k | 0 <= k < |live|
      ensures live[k].life < bound
    {
      assert live[k] in stepped;
      var j :| 0 <= j < |stepped| && stepped[j] == live[k];
      assert stepped[j].life <= p.particles[j].life;
    }
    if Completes(p, dt, w, h) {
      var b := Burst(w, h, burst);
      forall k | 0 <= k < 50
        ensures b[k].life < bound
      {
        BurstAt(w, h, burst, k);
        CelebrationParticle(w, h, burst[k], []);
      }
    }
  }

  /** Once the roll is over, a tick whose elapsed time reaches every particle's remaining life
      clears the page of particles, and ticks do nothing from then on. */
  lemma ParticlesClear(p: Page, dt: real, w: real, h: real, burst: seq<seq<real>>)
    requires forall k :: 0 <= k < |burst| ==> |burst[k]| == 4
    requires !p.isRolling
    requires forall k :: 0 <= k < |p.particles| ==> p.particles[k].life <= dt
    ensures Tick(p, dt, w, h, burst).particles == []
    ensures !Active(Tick(p, dt, w, h, burst))
  {
    var stepped := StepParticles(p.particles, dt);
    LiveParticlesNone(stepped);
  }

  /** A die whose sides are at least 1 and that has stopped rolling shows a value from 1 to its
      sides. */
  predicate ValueShown(s: DieState) {
    s.sides >= 1 && (!s.isRolling ==> 1 <= s.finalValue <= s.sides)
  }

  /** Ticks keep every die's shown value in range; so on completion every result lies between 1
      and the die's sides. */
  lemma TickKeepsValues(p: Page, dt: real, w: real, h: real, burst: seq<seq<real>>)
    requires forall k :: 0 <= k < |burst| ==> |burst[k]| == 4
    requires forall k :: 0 <= k < |p.dice| ==> ValueShown(p.dice[k])
    ensures var ds := Tick(p, dt, w, h, burst).dice;
      forall k :: 0 <= k < |ds| ==> ValueShown(ds[k])
  {
    if Active(p) {
      var ds := StepAll(p.dice, dt, w, h);
      forall k | 0 <= k < |ds|
        ensures ValueShown(ds[k])
      {
        StepAllAt(p.dice, dt, w, h, k);
        if p.dice[k].isRolling {
          EnhancedDice.StepOutcome(p.dice[k], dt, w, h);
        } else {
          EnhancedDice.StepSettled(p.dice[k], dt, w, h);
        }
      }
    }
  }

  /** The dice loop of `OnTimerTick`: every die updated; whether one is still rolling. */
  method UpdateDice(ds: seq<EnhancedDice.EnhancedDice3D>, dt: real, w: real, h: real) returns (stillRolling: bool)
    requires Distinct(ds)
    modifies ds
    ensures StatesOf(ds) == StepAll(old(StatesOf(ds)), dt, w, h)
    ensures stillRolling <==> !AllSettled(StatesOf(ds))
  {
    ghost var before := StatesOf(ds);
    ghost var after := StepAll(before, dt, w, h);
    SteppedFromStart(ds, after);
    stillRolling := false;
    var i := 0;
    while i < |ds|
      invariant 0 <= i <= |ds|
      invariant SteppedUpTo(ds, before, after, i)
      invariant stillRolling <==> !AllSettled(after[..i])
    {
      AllSettledPrefix(after, i);
      var rolling := UpdateDieAt(ds, i, dt, w, h, before, after);
      if rolling {
        stillRolling := true;
      }
      i := i + 1;
    }
    SteppedAll(ds, before, after);
    assert after[..|ds|] == after;
  }

  lemma SteppedFromStart(ds: seq<EnhancedDice.EnhancedDice3D>, after: seq<DieState>)
    requires |after| == |ds|
    ensures SteppedUpTo(ds, StatesOf(ds), after, 0)
  {
    forall k | 0 <= k < |ds|
      ensures ds[k].State() == StatesOf(ds)[k]
    {
      StatesOfAt(ds, k);
    }
  }

  lemma SteppedAll(ds: seq<EnhancedDice.EnhancedDice3D>, before: seq<DieState>, after: seq<DieState>)
    requires SteppedUpTo(ds, before, after, |ds|)
    ensures StatesOf(ds) == after
  {
    forall k | 0 <= k < |ds|
      ensures StatesOf(ds)[k] == after[k]
    {
      StatesOfAt(ds, k);
    }
  }

  /** Dice before index i are at their updated states, the others at their states before. */
  ghost predicate SteppedUpTo(ds: seq<EnhancedDice.EnhancedDice3D>, before: seq<DieState>, after: seq<DieState>, i: nat)
    reads ds
  {
    && i <= |ds| == |before| == |after|
    && (forall k :: 0 <= k < i ==> ds[k].State() == after[k])
    && (forall k :: i <= k < |ds| ==> ds[k].State() == before[k])
  }

  /** One pass of the dice loop: die i updated; whether it is still rolling. */
  method UpdateDieAt(ds: seq<EnhancedDice.EnhancedDice3D>, i: nat, dt: real, w: real, h: real,
                     ghost before: seq<DieState>, ghost after: seq<DieState>) returns (rolling: bool)
    requires Distinct(ds) && i < |ds| && after == StepAll(before, dt, w, h)
    requires SteppedUpTo(ds, before, after, i)
    modifies ds[i]
    ensures SteppedUpTo(ds, before, after, i + 1)
    ensures rolling == after[i].isRolling
  {
    StepAllAt(before, dt, w, h, i);
    assert forall k :: 0 <= k < |ds| && k != i ==> ds[k] != ds[i];
    ds[i].Update(dt, w, h);
    rolling := ds[i].isRolling;
  }

  /** The first i + 1 dice are settled exactly when the first i are and die i is. */
  lemma AllSettledPrefix(states: seq<DieState>, i: nat)
    requires i < |states|
    ensures AllSettled(states[..i + 1]) <==> AllSettled(states[..i]) && !states[i].isRolling
  {
    assert forall k :: 0 <= k < i ==> states[..i + 1][k] == states[..i][k];
  }

  /** The particle loop of `OnTimerTick`: from the last index down to the first, each particle
      is updated and removed at once if it has expired; the others keep their order. */
  method UpdateParticleList(ps: seq<Particle>, dt: real) returns (live: seq<Particle>)
    requires Distinct(ps)
    modifies ps
    ensures ParticleStatesOf(ps) == StepParticles(old(ParticleStatesOf(ps)), dt)
    ensures live == Kept(ps, ParticleStatesOf(ps))
    ensures ParticleStatesOf(live) == LiveParticles(ParticleStatesOf(ps)) && Distinct(live)
  {
    ghost var before := ParticleStatesOf(ps);
    ghost var after := StepParticles(before, dt);
    UpdatedFromEnd(ps, after);
    assert ps[|ps|..] == [] && after[|ps|..] == [];
    live := ps;
    var i := |ps| - 1;
    while i >= 0
      invariant -1 <= i < |ps|
      invariant UpdatedFrom(ps, before, after, i + 1)
      invariant live == ps[..i + 1] + Kept(ps[i + 1..], after[i + 1..])
    {
      live := UpdateParticleAt(ps, live, i, dt, before, after);
      i := i - 1;
    }
    assert ps[0..] == ps && after[0..] == after;
    UpdatedAll(ps, before, after);
    KeptStates(ps, after);
    KeptDistinct(ps, after);
  }

  lemma UpdatedFromEnd(ps: seq<Particle>, after: seq<ParticleState>)
    requires |after| == |ps|
    ensures UpdatedFrom(ps, ParticleStatesOf(ps), after, |ps|)
  {
    forall k | 0 <= k < |ps|
      ensures ps[k].State() == ParticleStatesOf(ps)[k]
    {
      ParticleStatesOfAt(ps, k);
    }
  }

  lemma UpdatedAll(ps: seq<Particle>, before: seq<ParticleState>, after: seq<ParticleState>)
    requires UpdatedFrom(ps, before, after, 0)
    ensures ParticleStatesOf(ps) == after
  {
    ParticleStatesOfIs(ps, after);
  }

  /** In a list made of the first i + 1 elements of xs and a tail, element i is that of xs;
      removing it leaves the first i and the tail, and keeping it leaves the first i, it and the tail. */
  lemma RemoveAt<T>(xs: seq<T>, tail: seq<T>, i: nat)
    requires i < |xs|
    ensures var list := xs[..i + 1] + tail;
      && list[i] == xs[i]
      && list[..i] + list[i + 1..] == xs[..i] + tail
      && list == xs[..i] + ([xs[i]] + tail)
  {
    var list := xs[..i + 1] + tail;
    assert list[i + 1..] == tail;
    assert list[..i] == xs[..i];
  }

  /** Particles from index i on are at their updated states, the others at their states before. */
  ghost predicate UpdatedFrom(ps: seq<Particle>, before: seq<ParticleState>, after: seq<ParticleState>, i: nat)
    reads ps
  {
    && i <= |ps| == |before| == |after|
    && (forall k :: 0 <= k < i ==> ps[k].State() == before[k])
    && (forall k :: i <= k < |ps| ==> ps[k].State() == after[k])
  }

  /** One pass of the particle loop: particle i updated, and removed from the list if it has
      expired. */
  method UpdateParticleAt(ps: seq<Particle>, live: seq<Particle>, i: nat, dt: real,
                          ghost before: seq<ParticleState>, ghost after: seq<ParticleState>)
    returns (live': seq<Particle>)
    requires Distinct(ps) && i < |ps| && after == StepParticles(before, dt)
    requires UpdatedFrom(ps, before, after, i + 1)
    requires live == ps[..i + 1] + Kept(ps[i + 1..], after[i + 1..])
    modifies ps[i]
    ensures UpdatedFrom(ps, before, after, i)
    ensures live' == ps[..i] + Kept(ps[i..], after[i..])
  {
    RemoveAt(ps, Kept(ps[i + 1..], after[i + 1..]), i);
    assert live[i] == ps[i];
    StepParticleAt(ps, i, dt, before, after);
    live' := RemoveIfExpired(ps, live, i, after);
  }

  /** `_particles[i].Update(deltaTime)`. */
  method StepParticleAt(ps: seq<Particle>, i: nat, dt: real,
                        ghost before: seq<ParticleState>, ghost after: seq<ParticleState>)
    requires Distinct(ps) && i < |ps| && after == StepParticles(before, dt)
    requires UpdatedFrom(ps, before, after, i + 1)
    modifies ps[i]
    ensures UpdatedFrom(ps, before, after, i)
  {
    assert after[i] == Particles.Step(before[i], dt);
    assert forall k :: 0 <= k < |ps| && k != i ==> ps[k] != ps[i];
    ps[i].Update(dt);
  }

  /** `if (_particles[i].IsExpired) _particles.RemoveAt(i)`, once particle i has its updated state. */
  method RemoveIfExpired(ps: seq<Particle>, live: seq<Particle>, i: nat, ghost after: seq<ParticleState>)
    returns (live': seq<Particle>)
    requires i < |ps| == |after| && ps[i].State() == after[i]
    requires live == ps[..i + 1] + Kept(ps[i + 1..], after[i + 1..])
    ensures live' == ps[..i] + Kept(ps[i..], after[i..])
  {
    KeptFrom(ps, after, i);
    RemoveAt(ps, Kept(ps[i + 1..], after[i + 1..]), i);
    live' := live;
    if live[i].IsExpired() {
      live' := live[..i] + live[i + 1..];
    }
  }

  /** The loop of `CreateCelebrationParticles`: 50 particles made from the draws, each added at
      the end of the list. */
  method AppendBurst(ps: seq<Particle>, w: real, h: real, burst: seq<seq<real>>) returns (list: seq<Particle>)
    requires |burst| == 50 && forall k :: 0 <= k < 50 ==> |burst[k]| == 4
    requires Distinct(ps)
    ensures |list| == |ps| + 50 && list[..|ps|] == ps && Distinct(list)
    ensures ParticleStatesOf(list) == old(ParticleStatesOf(ps)) + Burst(w, h, burst)
  {
    ghost var start := ParticleStatesOf(ps);
    list := ps;
    var i := 0;
    while i < 50
      invariant 0 <= i <= 50 && |list| == |ps| + i && list[..|ps|] == ps && Distinct(list)
      invariant ParticleStatesOf(list) == start + Burst(w, h, burst[..i])
    {
      ghost var states := ParticleStatesOf(list);
      var p := NewCelebrationParticle(w, h, burst[i]);
      assert ParticleStatesOf(list) == states;
      BurstAppend(list, p, start, w, h, burst, i);
      DistinctAppend(list, p);
      list := list + [p];
      i := i + 1;
    }
    assert burst[..50] == burst;
  }

  /** A list whose states are those before and the first i particles of the burst, followed by
      particle i of the burst. */
  lemma BurstAppend(list: seq<Particle>, p: Particle, start: seq<ParticleState>,
                    w: real, h: real, burst: seq<seq<real>>, i: nat)
    requires i < |burst| && forall k :: 0 <= k < |burst| ==> |burst[k]| == 4
    requires ParticleStatesOf(list) == start + Burst(w, h, burst[..i])
    requires p.State() == Celebration(w, h, burst[i])
    ensures ParticleStatesOf(list + [p]) == start + Burst(w, h, burst[..i + 1])
  {
    BurstPrefix(w, h, burst, i);
    ParticleStatesOfAppend(list, [p]);
  }

  /** The burst of the first i + 1 draws is that of the first i and particle i. */
  lemma BurstPrefix(w: real, h: real, burst: seq<seq<real>>, i: nat)
    requires i < |burst| && forall k :: 0 <= k < |burst| ==> |burst[k]| == 4
    ensures Burst(w, h, burst[..i + 1]) == Burst(w, h, burst[..i]) + [Celebration(w, h, burst[i])]
  {
    assert burst[..i + 1][..i] == burst[..i];
  }

  lemma DistinctAppend<T>(xs: seq<T>, x: T)
    requires Distinct(xs) && x !in xs
    ensures Distinct(xs + [x])
  {
  }

  /** After the first t types: one distinct die per entry of their expansion, each spawned. */
  ghost predicate Spawns(ds: seq<EnhancedDice.EnhancedDice3D>, types: seq<DiceType>, t: nat, perRow: nat,
                         draws: seq<seq<real>>)
    requires t <= |types|
    requires forall k :: 0 <= k < |draws| ==> |draws[k]| == 9
    reads ds
  {
    && |ds| == |Expand(types[..t])| <= |draws|
    && Distinct(ds)
    && (|ds| >= 1 ==> perRow >= 1)
    && (forall k :: 0 <= k < |ds| ==>
          perRow >= 1 && ds[k].State() == Spawned(Expand(types[..t])[k], k, perRow, draws[k]))
  }

  /** The loops of `StartRolling`: the dice of the selected types, in type order, die k in grid
      cell (k / perRow, k % perRow), from draws k. */
  method SpawnAll(types: seq<DiceType>, perRow: nat, draws: seq<seq<real>>) returns (ds: seq<EnhancedDice.EnhancedDice3D>)
    requires |draws| == |Expand(types)|
    requires |draws| >= 1 ==> perRow >= 1
    requires forall k :: 0 <= k < |draws| ==> |draws[k]| == 9 && UnitDraws(draws[k])
    ensures |ds| == |Expand(types)| && Distinct(ds)
    ensures forall k :: 0 <= k < |ds| ==>
      fresh(ds[k]) && ds[k].State() == Spawned(Expand(types)[k], k, perRow, draws[k])
  {
    ds := [];
    var t := 0;
    while t < |types|
      invariant 0 <= t <= |types|
      invariant Spawns(ds, types, t, perRow, draws)
      invariant forall k :: 0 <= k < |ds| ==> fresh(ds[k])
    {
      ds := SpawnDiceOfType(ds, types, t, perRow, draws);
      t := t + 1;
    }
    assert types[..|types|] == types;
  }

  /** One pass of the outer loop of `StartRolling`: the dice of type t added, when its count is
      positive. */
  method SpawnDiceOfType(ds: seq<EnhancedDice.EnhancedDice3D>, types: seq<DiceType>, t: nat, perRow: nat,
                         draws: seq<seq<real>>) returns (ds': seq<EnhancedDice.EnhancedDice3D>)
    requires t < |types|
    requires |draws| == |Expand(types)|
    requires |draws| >= 1 ==> perRow >= 1
    requires forall k :: 0 <= k < |draws| ==> |draws[k]| == 9 && UnitDraws(draws[k])
    requires Spawns(ds, types, t, perRow, draws)
    ensures Spawns(ds', types, t + 1, perRow, draws)
    ensures |ds'| >= |ds| && ds'[..|ds|] == ds
    ensures forall k :: |ds| <= k < |ds'| ==> fresh(ds'[k])
  {
    ExpandPrefix(types, t);
    ghost var done := Expand(types[..t]);
    ghost var next := Expand(types[..t + 1]);
    ds' := ds;
    if types[t].count > 0 {
      ds' := SpawnDice(ds, types[t].sides, types[t].count, perRow, draws);
    }
    forall k | 0 <= k < |ds'|
      ensures perRow >= 1 && ds'[k].State() == Spawned(next[k], k, perRow, draws[k])
    {
      if k < |ds| {
        assert ds'[k] == ds[k] && next[k] == done[k];
      } else {
        assert next[k] == types[t].sides;
      }
    }
  }

  /** The inner loop of `StartRolling`: count dice of the given sides added, die k at its grid
      cell. */
  method SpawnDice(ds: seq<EnhancedDice.EnhancedDice3D>, sides: int, count: int, perRow: nat,
                   draws: seq<seq<real>>) returns (ds': seq<EnhancedDice.EnhancedDice3D>)
    requires count >= 0 && perRow >= 1
    requires |ds| + count <= |draws|
    requires forall k :: 0 <= k < |draws| ==> |draws[k]| == 9 && UnitDraws(draws[k])
    requires Distinct(ds)
    ensures |ds'| == |ds| + count && ds'[..|ds|] == ds
    ensures Distinct(ds')
    ensures forall k :: |ds| <= k < |ds'| ==>
      fresh(ds'[k]) && ds'[k].State() == Spawned(sides, k, perRow, draws[k])
  {
    ds' := ds;
    var i := 0;
    while i < count
      invariant 0 <= i <= count
      invariant |ds'| == |ds| + i && ds'[..|ds|] == ds
      invariant Distinct(ds')
      invariant forall k :: |ds| <= k < |ds'| ==>
        fresh(ds'[k]) && ds'[k].State() == Spawned(sides, k, perRow, draws[k])
    {
      var currentDice := |ds'|;
      var d := draws[currentDice];
      var row := currentDice / perRow;
      var col := currentDice % perRow;
      var startX := (100 + col * 120) as real + d[0] * 50.0;
      var startY := (100 + row * 120) as real + d[1] * 50.0;
      assert UnitDraws(d[2..8]) by {
        assert forall j :: 0 <= j < 6 ==> d[2..8][j] == d[j + 2];
      }
      var die := new EnhancedDice.EnhancedDice3D(sides, Vector3D(startX, startY, 0.0), d[2..8]);
      die.size := 50.0 + d[8] * 20.0;
      ds' := ds' + [die];
      i := i + 1;
    }
  }

  /** `CreateResultsText` on the dice's states: the settled dice grouped by sides and formatted. */
  method ResultsText(states: seq<DieState>) returns (text: string)
    ensures text == FullScreenText(GroupBySides(Grouping.Outcomes(states)))
  {
    var results := GroupBySides(Grouping.Outcomes(states));
    var grandTotal;
    text, grandTotal := FormatResults(results);
  }

  class FullScreenDiceRollingPage {
    var dice: seq<EnhancedDice.EnhancedDice3D>
    var particles: seq<Particle>
    var isRolling: bool
    var showResults: bool
    var resultsText: string

    ghost predicate Valid()
      reads this
    {
      Distinct(dice) && Distinct(particles)
    }

    function States(): (r: seq<DieState>)
      reads this, dice
      ensures |r| == |dice|
    {
      StatesOf(dice)
    }

    /** The page as a tick sees it. */
    function Snapshot(): Page
      reads this, dice, particles
    {
      Page(StatesOf(dice), ParticleStatesOf(particles), isRolling, showResults, resultsText)
    }

    /** `new FullScreenDiceRollingPage(diceTypes)`: the fields at their defaults, then
        `StartRolling(diceTypes)`. */
    constructor (types: seq<DiceType>, draws: seq<seq<real>>)
      requires CountsNonNegative(types)
      requires |draws| == TotalCount(types)
      requires forall k :: 0 <= k < |draws| ==> |draws[k]| == 9 && UnitDraws(draws[k])
      ensures Valid() && particles == [] && isRolling && !showResults && resultsText == ""
      ensures |dice| == TotalCount(types) == |Expand(types)|
      ensures forall k :: 0 <= k < |dice| ==>
        fresh(dice[k]) && dice[k].State() == Spawned(Expand(types)[k], k, DicePerRow(TotalCount(types)), draws[k])
    {
      dice := [];
      particles := [];
      isRolling := false;
      showResults := false;
      resultsText := "";
      new;
      StartRolling(types, draws);
    }

    /** `StartRolling(diceTypes)`: both lists emptied, rolling and not showing results; then the
        dice of the selected types, in type order, die k in grid cell (k / dicePerRow,
        k % dicePerRow). `draws[k]` holds the nine values the k-th die consumes. */
    method StartRolling(types: seq<DiceType>, draws: seq<seq<real>>)
      requires CountsNonNegative(types)
      requires |draws| == TotalCount(types)
      requires forall k :: 0 <= k < |draws| ==> |draws[k]| == 9 && UnitDraws(draws[k])
      modifies this
      ensures Valid() && particles == [] && isRolling && !showResults && resultsText == old(resultsText)
      ensures |dice| == TotalCount(types) == |Expand(types)|
      ensures forall k :: 0 <= k < |dice| ==>
        fresh(dice[k]) && dice[k].State() == Spawned(Expand(types)[k], k, DicePerRow(TotalCount(types)), draws[k])
    {
      dice := [];
      particles := [];
      isRolling := true;
      showResults := false;
      CountSumIsTotal(types);
      ExpandLength(types);
      var totalDice := CountSum(types);
      var dicePerRow := Min(6, CeilSqrt(totalDice));
      dice := SpawnAll(types, dicePerRow, draws);
    }

    /** `OnTimerTick`, with the elapsed time as dt, the canvas size as w and h and the burst's
        draws (four per particle): the page after the tick is `Tick` of the page before it. */
    method OnTimerTick(dt: real, w: real, h: real, burst: seq<seq<real>>)
      requires Valid() && BurstDraws(burst)
      modifies this, dice, particles
      ensures Valid() && dice == old(dice)
      ensures Snapshot() == Tick(old(Snapshot()), dt, w, h, burst)
    {
      if isRolling || |particles| > 0 {
        var stillRolling := Advance(dt, w, h);
        if isRolling && !stillRolling && |dice| > 0 {
          Complete(w, h, burst);
        }
      }
    }

    /** The two update loops of `OnTimerTick`; whether a die is still rolling. */
    method Advance(dt: real, w: real, h: real) returns (stillRolling: bool)
      requires Valid()
      modifies this, dice, particles
      ensures Valid() && dice == old(dice)
      ensures Snapshot() == Advanced(old(Snapshot()), dt, w, h)
      ensures stillRolling <==> !AllSettled(States())
    {
      ghost var start := Snapshot();
      stillRolling := UpdateDice(dice, dt, w, h);
      assert ParticleStatesOf(particles) == start.particles;
      assert Snapshot() == start.(dice := StepAll(start.dice, dt, w, h));
      UpdateParticles(dt);
    }

    /** The completion block of `OnTimerTick`. */
    method Complete(w: real, h: real, burst: seq<seq<real>>)
      requires Valid() && BurstDraws(burst)
      modifies this
      ensures Valid() && dice == old(dice)
      ensures Snapshot() == Completed(old(Snapshot()), w, h, burst)
    {
      ghost var before := Snapshot();
      isRolling := false;
      showResults := true;
      assert Snapshot() == before.(isRolling := false, showResults := true);
      CreateResultsText();
      CreateCelebrationParticles(w, h, burst);
    }

    /** The particle loop of `OnTimerTick`, on the page's list. */
    method UpdateParticles(dt: real)
      requires Distinct(particles)
      modifies this, particles
      ensures dice == old(dice) && Distinct(particles)
      ensures Snapshot() == old(Snapshot()).(particles := LiveParticles(StepParticles(old(ParticleStatesOf(particles)), dt)))
    {
      ghost var start := Snapshot();
      particles := UpdateParticleList(particles, dt);
      assert StatesOf(dice) == start.dice;
      ghost var live := LiveParticles(StepParticles(start.particles, dt));
      assert ParticleStatesOf(particles) == live;
      assert Snapshot() == Page(start.dice, live, start.isRolling, start.showResults, start.resultsText);
    }

    /** `CreateResultsText`: the settled dice grouped by sides and formatted. */
    method CreateResultsText()
      requires Valid()
      modifies this
      ensures Valid() && dice == old(dice) && particles == old(particles)
      ensures Snapshot() == old(Snapshot()).(resultsText := FullScreenText(GroupBySides(Grouping.Outcomes(old(States())))))
    {
      ghost var start := Snapshot();
      resultsText := ResultsText(States());
      assert StatesOf(dice) == start.dice && ParticleStatesOf(particles) == start.particles;
    }

    /** `CreateCelebrationParticles`: 50 new particles at the canvas centre, added to the page's
        list. */
    method CreateCelebrationParticles(w: real, h: real, burst: seq<seq<real>>)
      requires |burst| == 50 && forall k :: 0 <= k < 50 ==> |burst[k]| == 4
      requires Valid()
      modifies this
      ensures Valid() && dice == old(dice)
      ensures |particles| == |old(particles)| + 50 && particles[..|old(particles)|] == old(particles)
      ensures Snapshot() == old(Snapshot()).(particles := old(ParticleStatesOf(particles)) + Burst(w, h, burst))
    {
      ghost var start := Snapshot();
      ghost var ds := StatesOf(dice);
      ghost var ps := ParticleStatesOf(particles);
      particles := AppendBurst(particles, w, h, burst);
      assert StatesOf(dice) == ds;
      assert ParticleStatesOf(particles) == ps + Burst(w, h, burst);
      assert Snapshot() == start.(particles := start.particles + Burst(w, h, burst));
    }
  }
}
