/** The embedded roll session (3Dice/Views/DiceRollingView.cs): a 300 x 300 canvas of basic dice
    laid out along one row with wrap-around, stepped every timer tick until all have settled, when
    the grouped results are raised once. */
module RollingView {
  import opened Vectors
  import opened Numerics
  import opened DieStates
  import opened DiceTypes
  import opened Grouping
  import BasicDice

  datatype Option<T> = None | Some(value: T)

  /** The canvas size the view assumes, both for layout and for the dice bounds. */
  const CanvasSize: real := 300.0

  /** The x coordinate after placing one more die: `currentX += 40`, back to 50 past `width - 50`. */
  function NextX(x: real): real {
    var moved := x + 40.0;
    if moved > CanvasSize - 50.0 then 50.0 else moved
  }

  /** `currentX` when the k-th die (counting from 0 across all types) is created. */
  function CurrentX(k: nat): real {
    if k == 0 then 50.0 else NextX(CurrentX(k - 1))
  }

  /** The layout cycles through six columns: die k starts at 50 + 40 (k mod 6). */
  lemma {:induction false} CurrentXClosedForm(k: nat)
    ensures CurrentX(k) == 50.0 + 40.0 * (k % 6) as real
  {
    if k > 0 {
      CurrentXClosedForm(k - 1);
      if (k - 1) % 6 == 5 {
        assert k % 6 == 0;
      } else {
        assert k % 6 == (k - 1) % 6 + 1;
      }
    }
  }

  /** `currentX` never leaves [50, 250]. */
  lemma CurrentXBounds(k: nat)
    ensures 50.0 <= CurrentX(k) <= 250.0
  {
    CurrentXClosedForm(k);
  }

  /** Where the k-th die is created, given its two position draws. */
  function StartPosition(k: nat, d: seq<real>): Vector3D
    requires |d| >= 2
  {
    Vector3D(CurrentX(k) + d[0] * 100.0, 50.0 + d[1] * 50.0, 0.0)
  }

  /** With draws in [0, 1) every die starts with x in [50, 350), y in [50, 100) and z = 0. */
  lemma StartPositionBounds(k: nat, d: seq<real>)
    requires |d| >= 2 && UnitDraws(d)
    ensures var p := StartPosition(k, d);
      50.0 <= p.x < 350.0 && 50.0 <= p.y < 100.0 && p.z == 0.0
  {
    CurrentXBounds(k);
  }

  /** The state of the k-th die a roll creates: the eight draws are the two position draws, then
      the six the die's constructor makes. */
  function Created(sides: int, k: nat, d: seq<real>): DieState
    requires |d| == 8
  {
    BasicDice.Initial(sides, StartPosition(k, d), d[2..])
  }

  predicate SidesNonZero(states: seq<DieState>) {
    forall k :: 0 <= k < |states| ==> states[k].sides != 0
  }

  predicate AllSettled(states: seq<DieState>) {
    forall k :: 0 <= k < |states| ==> !states[k].isRolling
  }

  /** Every die updated once, `Update(dt, 300, 300)`. */
  function StepAll(states: seq<DieState>, dt: real): (r: seq<DieState>)
    requires SidesNonZero(states)
    ensures |r| == |states|
  {
    if states == [] then [] else [BasicDice.Step(states[0], dt, CanvasSize, CanvasSize)] + StepAll(states[1..], dt)
  }

  /** Die k of the updated dice is die k updated. */
  lemma {:induction false} StepAllAt(states: seq<DieState>, dt: real, k: nat)
    requires SidesNonZero(states) && k < |states|
    ensures StepAll(states, dt)[k] == BasicDice.Step(states[k], dt, CanvasSize, CanvasSize)
  {
    if k > 0 {
      StepAllAt(states[1..], dt, k - 1);
    }
  }

  /** Updating keeps every die's sides. */
  lemma {:induction false} StepAllKeepsSides(states: seq<DieState>, dt: real)
    requires SidesNonZero(states)
    ensures SidesNonZero(StepAll(states, dt))
  {
    forall k | 0 <= k < |states|
      ensures StepAll(states, dt)[k].sides != 0
    {
      StepAllAt(states, dt, k);
      BasicDice.StepKeepsSides(states[k], dt, CanvasSize, CanvasSize);
    }
  }

  function StatesOf(ds: seq<BasicDice.Dice3D>): (r: seq<DieState>)
    reads ds
    ensures |r| == |ds|
  {
    if ds == [] then [] else [ds[0].State()] + StatesOf(ds[1..])
  }

  /** State k of the dice is the state of die k. */
  lemma {:induction false} StatesOfAt(ds: seq<BasicDice.Dice3D>, k: nat)
    requires k < |ds|
    ensures StatesOf(ds)[k] == ds[k].State()
  {
    if k > 0 {
      StatesOfAt(ds[1..], k - 1);
    }
  }

  /** Dice whose states are the given ones, one by one, have those states. */
  lemma StatesOfIs(ds: seq<BasicDice.Dice3D>, states: seq<DieState>)
    requires |states| == |ds| && forall k :: 0 <= k < |ds| ==> ds[k].State() == states[k]
    ensures StatesOf(ds) == states
  {
    forall k | 0 <= k < |ds|
      ensures StatesOf(ds)[k] == states[k]
    {
      StatesOfAt(ds, k);
    }
  }

  /** The results a session raises once its dice have settled: one group per distinct number of
      sides, in first-occurrence order, holding every die's final value, in die order. */
  lemma ResultsCoverDice(states: seq<DieState>)
    ensures ValueCount(GroupBySides(Outcomes(states))) == |states|
    ensures GrandTotal(GroupBySides(Outcomes(states))) == Sum(Values(Outcomes(states)))
    ensures forall i :: 0 <= i < |GroupBySides(Outcomes(states))| ==>
      GroupBySides(Outcomes(states))[i].values
        == ValuesOf(Outcomes(states), GroupBySides(Outcomes(states))[i].sides)
  {
    var ds := Outcomes(states);
    GroupValueCount(ds);
    GrandTotalIsSum(ds);
    forall i | 0 <= i < |GroupBySides(ds)|
      ensures GroupBySides(ds)[i].values == ValuesOf(ds, GroupBySides(ds)[i].sides)
    {
      GroupValues(ds, i);
    }
  }

  /** The dice loop of `OnTimerTick`: every die updated; whether one is still rolling. */
  method UpdateDice(ds: seq<BasicDice.Dice3D>, dt: real) returns (stillRolling: bool)
    requires Distinct(ds) && SidesNonZero(StatesOf(ds))
    modifies ds
    ensures StatesOf(ds) == StepAll(old(StatesOf(ds)), dt)
    ensures stillRolling <==> !AllSettled(StatesOf(ds))
  {
    ghost var before := StatesOf(ds);
    ghost var after := StepAll(before, dt);
    SteppedFromStart(ds, after);
    stillRolling := false;
    var i := 0;
    while i < |ds|
      invariant 0 <= i <= |ds|
      invariant SteppedUpTo(ds, before, after, i)
      invariant stillRolling <==> !AllSettled(after[..i])
    {
      AllSettledPrefix(after, i);
      var rolling := UpdateDieAt(ds, i, dt, before, after);
      if rolling {
        stillRolling := true;
      }
      i := i + 1;
    }
    SteppedAll(ds, before, after);
    assert after[..|ds|] == after;
  }

  lemma SteppedFromStart(ds: seq<BasicDice.Dice3D>, after: seq<DieState>)
    requires |after| == |ds|
    ensures SteppedUpTo(ds, StatesOf(ds), after, 0)
  {
    forall k | 0 <= k < |ds|
      ensures ds[k].State() == StatesOf(ds)[k]
    {
      StatesOfAt(ds, k);
    }
  }

  lemma SteppedAll(ds: seq<BasicDice.Dice3D>, before: seq<DieState>, after: seq<DieState>)
    requires SteppedUpTo(ds, before, after, |ds|)
    ensures StatesOf(ds) == after
  {
    StatesOfIs(ds, after);
  }

  /** The first i + 1 dice are settled exactly when the first i are and die i is. */
  lemma AllSettledPrefix(states: seq<DieState>, i: nat)
    requires i < |states|
    ensures AllSettled(states[..i + 1]) <==> AllSettled(states[..i]) && !states[i].isRolling
  {
    assert forall k :: 0 <= k < i ==> states[..i + 1][k] == states[..i][k];
  }

  /** Dice before index i are at their updated states, the others at their states before. */
  ghost predicate SteppedUpTo(ds: seq<BasicDice.Dice3D>, before: seq<DieState>, after: seq<DieState>, i: nat)
    reads ds
  {
    && i <= |ds| == |before| == |after|
    && (forall k :: 0 <= k < i ==> ds[k].State() == after[k])
    && (forall k :: i <= k < |ds| ==> ds[k].State() == before[k])
  }

  /** One pass of the dice loop: die i updated; whether it is still rolling. */
  method UpdateDieAt(ds: seq<BasicDice.Dice3D>, i: nat, dt: real,
                     ghost before: seq<DieState>, ghost after: seq<DieState>) returns (rolling: bool)
    requires Distinct(ds) && i < |ds| && SidesNonZero(before) && after == StepAll(before, dt)
    requires SteppedUpTo(ds, before, after, i)
    modifies ds[i]
    ensures SteppedUpTo(ds, before, after, i + 1)
    ensures rolling == after[i].isRolling
  {
    StepAllAt(before, dt, i);
    assert forall k :: 0 <= k < |ds| && k != i ==> ds[k] != ds[i];
    ds[i].Update(dt, 300.0, 300.0);
    rolling := ds[i].isRolling;
  }

  class DiceRollingView {
    var dice: seq<BasicDice.Dice3D>
    var isRolling: bool

    /** The dice are distinct objects, and none has zero sides (the final value divides by Sides). */
    ghost predicate Valid()
      reads this, dice
    {
      Distinct(dice) && SidesNonZero(StatesOf(dice))
    }

    function States(): (r: seq<DieState>)
      reads this, dice
      ensures |r| == |dice|
    {
      StatesOf(dice)
    }

    constructor ()
      ensures Valid() && dice == [] && !isRolling
    {
      dice := [];
      isRolling := false;
    }

    /** `RollDice(diceTypes)`: ignored while a roll is under way; otherwise the dice of the
        selected types, in type order, each placed along the wrapping row. `draws[k]` holds the
        eight `NextSingle` values the k-th die consumes. */
    method RollDice(types: seq<DiceType>, draws: seq<seq<real>>)
      requires Valid()
      requires forall t :: 0 <= t < |types| && types[t].count > 0 ==> types[t].sides != 0
      requires |draws| == TotalCount(types)
      requires forall k :: 0 <= k < |draws| ==> |draws[k]| == 8 && UnitDraws(draws[k])
      modifies this
      ensures Valid()
      ensures old(isRolling) ==> dice == old(dice) && isRolling
      ensures !old(isRolling) ==> isRolling && |dice| == TotalCount(types) == |Expand(types)|
      ensures !old(isRolling) ==> forall k :: 0 <= k < |dice| ==>
        fresh(dice[k]) && dice[k].State() == Created(Expand(types)[k], k, draws[k])
    {
      if isRolling {
        return;
      }
      dice := [];
      isRolling := true;
      var currentX := 50.0;
      ExpandLength(types);
      var t := 0;
      while t < |types|
        invariant 0 <= t <= |types|
        invariant isRolling
        invariant Placed(types, t, draws)
        invariant currentX == CurrentX(|dice|)
        invariant forall k :: 0 <= k < |dice| ==> fresh(dice[k])
      {
        currentX := AddDiceOfType(types, t, currentX, draws);
        t := t + 1;
      }
      assert types[..|types|] == types;
      forall k | 0 <= k < |dice|
        ensures StatesOf(dice)[k].sides != 0
      {
        StatesOfAt(dice, k);
      }
    }

    /** After the first t types: one distinct die per entry of their expansion, each in its
        created state. */
    ghost predicate Placed(types: seq<DiceType>, t: nat, draws: seq<seq<real>>)
      requires t <= |types|
      requires forall k :: 0 <= k < |draws| ==> |draws[k]| == 8
      reads this, dice
    {
      && |dice| == |Expand(types[..t])| <= |draws|
      && Distinct(dice)
      && (forall k :: 0 <= k < |dice| ==> Expand(types[..t])[k] != 0)
      && (forall k :: 0 <= k < |dice| ==> dice[k].State() == Created(Expand(types[..t])[k], k, draws[k]))
    }

    /** One pass of the outer loop of `RollDice`: the dice of type t, when its count is positive. */
    method AddDiceOfType(types: seq<DiceType>, t: nat, currentX: real, draws: seq<seq<real>>) returns (nextX: real)
      requires t < |types|
      requires forall t :: 0 <= t < |types| && types[t].count > 0 ==> types[t].sides != 0
      requires |draws| == |Expand(types)|
      requires forall k :: 0 <= k < |draws| ==> |draws[k]| == 8 && UnitDraws(draws[k])
      requires Placed(types, t, draws)
      requires currentX == CurrentX(|dice|)
      modifies this
      ensures isRolling == old(isRolling)
      ensures Placed(types, t + 1, draws)
      ensures nextX == CurrentX(|dice|)
      ensures |dice| >= |old(dice)| && dice[..|old(dice)|] == old(dice)
      ensures forall k :: |old(dice)| <= k < |dice| ==> fresh(dice[k])
    {
      ExpandPrefix(types, t);
      ghost var done := Expand(types[..t]);
      ghost var next := Expand(types[..t + 1]);
      nextX := currentX;
      if types[t].count > 0 {
        nextX := PlaceDice(types[t].sides, types[t].count, currentX, draws);
      }
      forall k | 0 <= k < |dice|
        ensures next[k] != 0 && dice[k].State() == Created(next[k], k, draws[k])
      {
        if k < |old(dice)| {
          assert dice[k] == old(dice)[k] && next[k] == done[k];
        } else {
          assert next[k] == types[t].sides;
        }
      }
    }

    /** The inner loop of `RollDice`: count dice of the given sides, appended one by one, each at
        the current x, which then moves on by 40 and wraps back to 50 past 250. */
    method PlaceDice(sides: int, count: int, currentX: real, draws: seq<seq<real>>) returns (nextX: real)
      requires sides != 0 && count >= 0
      requires |dice| + count <= |draws|
      requires forall k :: 0 <= k < |draws| ==> |draws[k]| == 8 && UnitDraws(draws[k])
      requires currentX == CurrentX(|dice|)
      requires Distinct(dice)
      modifies this
      ensures isRolling == old(isRolling)
      ensures |dice| == |old(dice)| + count && dice[..|old(dice)|] == old(dice)
      ensures Distinct(dice)
      ensures nextX == CurrentX(|dice|)
      ensures forall k :: |old(dice)| <= k < |dice| ==>
        fresh(dice[k]) && dice[k].State() == Created(sides, k, draws[k])
    {
      var width := 300.0;
      nextX := currentX;
      var i := 0;
      while i < count
        invariant 0 <= i <= count
        invariant isRolling == old(isRolling)
        invariant |dice| == |old(dice)| + i && dice[..|old(dice)|] == old(dice)
        invariant nextX == CurrentX(|dice|)
        invariant Distinct(dice)
        invariant forall k :: |old(dice)| <= k < |dice| ==>
          fresh(dice[k]) && dice[k].State() == Created(sides, k, draws[k])
      {
        var d := draws[|dice|];
        assert UnitDraws(d[2..]) by {
          assert forall j :: 0 <= j < 6 ==> d[2..][j] == d[j + 2];
        }
        var die := new BasicDice.Dice3D(sides, Vector3D(nextX + d[0] * 100.0, 50.0 + d[1] * 50.0, 0.0), d[2..]);
        dice := dice + [die];
        nextX := nextX + 40.0;
        if nextX > width - 50.0 {
          nextX := 50.0;
        }
        i := i + 1;
      }
    }

    /** The session part of `OnTimerTick`, with the elapsed time as dt: while rolling, every die is
        updated against the 300 x 300 bounds; when then none is rolling and there is at least one,
        rolling stops and the grouped results are raised (`DiceRolled`). This can happen only once
        per roll, and a roll that created no dice never completes. */
    method OnTimerTick(dt: real) returns (rolled: Option<seq<DiceGroupResult>>)
      requires Valid()
      modifies this, dice
      ensures dice == old(dice) && Valid()
      ensures old(isRolling) ==> States() == StepAll(old(States()), dt)
      ensures !old(isRolling) ==> States() == old(States()) && !isRolling && rolled == None
      ensures rolled.Some? <==> old(isRolling) && |dice| > 0 && AllSettled(States())
      ensures isRolling <==> old(isRolling) && rolled == None
      ensures rolled.Some? ==> rolled.value == GroupBySides(Outcomes(States()))
    {
      if !isRolling {
        return None;
      }
      ghost var before := StatesOf(dice);
      var stillRolling := UpdateDice(dice, dt);
      StepAllKeepsSides(before, dt);
      if !stillRolling && |dice| > 0 {
        isRolling := false;
        rolled := Some(GroupBySides(Outcomes(States())));
      } else {
        rolled := None;
      }
    }
  }
}
