/** The dice selection both sessions are built from (3Dice/Models/DiceType.cs): a number of sides,
    a display name and how many dice of that type are selected. */
module DiceTypes {

  datatype DiceType = DiceType(sides: int, name: string, count: int)

  /** n copies of x (none when n is not positive), as `for (i = 0; i < n; i++)` produces them. */
  function Copies(x: int, n: int): (r: seq<int>)
    ensures |r| == if n > 0 then n else 0
    ensures forall k :: 0 <= k < |r| ==> r[k] == x
    decreases if n > 0 then n else 0
  {
    if n <= 0 then [] else Copies(x, n - 1) + [x]
  }

  /** The dice one type contributes: `Count` dice of its `Sides` when `Count > 0`, none otherwise. */
  function Contribution(t: DiceType): seq<int> {
    if t.count > 0 then Copies(t.sides, t.count) else []
  }

  /** The sides of every die a session creates, in creation order:
      `foreach (t in types.Where(d => d.Count > 0)) for (i < t.Count) ...`. */
  function Expand(types: seq<DiceType>): seq<int> {
    if types == [] then []
    else Expand(types[..|types| - 1]) + Contribution(types[|types| - 1])
  }

  /** `types.Where(d => d.Count > 0)`. */
  function Selected(types: seq<DiceType>): (r: seq<DiceType>)
    ensures |r| <= |types|
    ensures forall k :: 0 <= k < |r| ==> r[k].count > 0 && r[k] in types
  {
    if types == [] then []
    else
      var t := types[|types| - 1];
      Selected(types[..|types| - 1]) + (if t.count > 0 then [t] else [])
  }

  /** The number of dice selected: the positive counts, summed. */
  function TotalCount(types: seq<DiceType>): nat {
    if types == [] then 0
    else
      var t := types[|types| - 1];
      TotalCount(types[..|types| - 1]) + (if t.count > 0 then t.count else 0)
  }

  /** `types.Sum(d => d.Count)`, counting negative counts too. */
  function CountSum(types: seq<DiceType>): int {
    if types == [] then 0 else CountSum(types[..|types| - 1]) + types[|types| - 1].count
  }

  predicate CountsNonNegative(types: seq<DiceType>) {
    forall k :: 0 <= k < |types| ==> types[k].count >= 0
  }

  /** A session creates exactly as many dice as are selected. */
  lemma {:induction false} ExpandLength(types: seq<DiceType>)
    ensures |Expand(types)| == TotalCount(types)
  {
    if types != [] {
      ExpandLength(types[..|types| - 1]);
    }
  }

  /** Every die created carries the sides of a type with a positive count. */
  lemma {:induction false} ExpandSides(types: seq<DiceType>, k: nat)
    requires k < |Expand(types)|
    ensures exists t :: 0 <= t < |types| && types[t].count > 0 && types[t].sides == Expand(types)[k]
  {
    var n := |types| - 1;
    var front := types[..n];
    if k < |Expand(front)| {
      ExpandSides(front, k);
      var t :| 0 <= t < |front| && front[t].count > 0 && front[t].sides == Expand(front)[k];
      assert types[t] == front[t];
    } else {
      assert Expand(types)[k] == Contribution(types[n])[k - |Expand(front)|];
    }
  }

  /** Dice are created type by type: the dice of a list of types followed by more types are the
      first list's dice followed by the others'. */
  lemma {:induction false} ExpandAppend(a: seq<DiceType>, b: seq<DiceType>)
    ensures Expand(a + b) == Expand(a) + Expand(b)
    decreases |b|
  {
    if b == [] {
      assert a + b == a;
    } else {
      var n := |b| - 1;
      assert (a + b)[..|a + b| - 1] == a + b[..n];
      assert (a + b)[|a + b| - 1] == b[n];
      ExpandAppend(a, b[..n]);
      calc {
        Expand(a + b);
        Expand(a + b[..n]) + Contribution(b[n]);
        Expand(a) + Expand(b[..n]) + Contribution(b[n]);
        Expand(a) + (Expand(b[..n]) + Contribution(b[n]));
        Expand(a) + Expand(b);
      }
    }
  }

  /** The dice of the first t + 1 types are those of the first t, then those of type t, and they
      begin the dice of all the types. */
  lemma ExpandPrefix(types: seq<DiceType>, t: nat)
    requires t < |types|
    ensures Expand(types[..t + 1]) == Expand(types[..t]) + Contribution(types[t])
    ensures |Expand(types[..t + 1])| <= |Expand(types)|
  {
    assert types[..t + 1][..t] == types[..t];
    ExpandAppend(types[..t + 1], types[t + 1..]);
    assert types[..t + 1] + types[t + 1..] == types;
  }

  predicate NoneSelected(types: seq<DiceType>) {
    forall k :: 0 <= k < |types| ==> types[k].count <= 0
  }

  /** `Where(d => d.Count > 0)` is empty exactly when no type has a positive count. */
  lemma {:induction false} SelectedEmpty(types: seq<DiceType>)
    ensures Selected(types) == [] <==> NoneSelected(types)
  {
    if types != [] {
      var n := |types| - 1;
      SelectedEmpty(types[..n]);
      assert NoneSelected(types) <==> NoneSelected(types[..n]) && types[n].count <= 0 by {
        assert forall k :: 0 <= k < n ==> types[..n][k] == types[k];
      }
    }
  }

  /** No die is selected exactly when no type has a positive count. */
  lemma {:induction false} TotalCountZero(types: seq<DiceType>)
    ensures TotalCount(types) == 0 <==> NoneSelected(types)
  {
    if types != [] {
      var n := |types| - 1;
      TotalCountZero(types[..n]);
      assert NoneSelected(types) <==> NoneSelected(types[..n]) && types[n].count <= 0 by {
        assert forall k :: 0 <= k < n ==> types[..n][k] == types[k];
      }
    }
  }

  /** With no negative counts, the `Sum` of the counts is the number of dice selected. */
  lemma {:induction false} CountSumIsTotal(types: seq<DiceType>)
    requires CountsNonNegative(types)
    ensures CountSum(types) == TotalCount(types)
  {
    if types != [] {
      var n := |types| - 1;
      assert CountsNonNegative(types[..n]) by {
        assert forall k :: 0 <= k < n ==> types[..n][k] == types[k];
      }
      CountSumIsTotal(types[..n]);
    }
  }
}
