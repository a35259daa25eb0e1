/** The LINQ grouping both roll sessions apply to their settled dice:
    `dice.GroupBy(d => d.Sides).Select(g => (g.Key, g.Select(d => d.FinalValue)))`.
    LINQ yields one group per distinct key, in the order in which each key first occurs,
    and keeps the elements of a group in source order. */
module Grouping {
  import opened Numerics
  import opened DieStates

  /** What the grouping reads from one die: its number of sides and its final value. */
  datatype Outcome = Outcome(sides: int, value: int)

  /** One group of the results: a number of sides and the final values of the dice that have it. */
  datatype DiceGroupResult = DiceGroupResult(sides: int, values: seq<int>)

  /** The final values of the dice with s sides, in dice order. */
  function ValuesOf(ds: seq<Outcome>, s: int): seq<int> {
    if ds == [] then []
    else (if ds[0].sides == s then [ds[0].value] else []) + ValuesOf(ds[1..], s)
  }

  /** The dice whose number of sides is not s, in dice order. */
  function Without(ds: seq<Outcome>, s: int): (r: seq<Outcome>)
    ensures |r| + |ValuesOf(ds, s)| == |ds|
  {
    if ds == [] then []
    else (if ds[0].sides != s then [ds[0]] else []) + Without(ds[1..], s)
  }

  /** The grouping: the first die's key opens the first group, which collects every die with
      that key; the remaining dice are grouped the same way. */
  function GroupBySides(ds: seq<Outcome>): (r: seq<DiceGroupResult>)
    ensures forall i :: 0 <= i < |r| ==> |r[i].values| >= 1
    decreases |ds|
  {
    if ds == [] then []
    else
      var s := ds[0].sides;
      [DiceGroupResult(s, ValuesOf(ds, s))] + GroupBySides(Without(ds, s))
  }

  predicate HasSides(ds: seq<Outcome>, s: int) {
    exists k :: 0 <= k < |ds| && ds[k].sides == s
  }

  function Values(ds: seq<Outcome>): seq<int> {
    if ds == [] then [] else [ds[0].value] + Values(ds[1..])
  }

  /** The number of values over all groups. */
  function ValueCount(groups: seq<DiceGroupResult>): nat {
    if groups == [] then 0 else |groups[0].values| + ValueCount(groups[1..])
  }

  /** The sum of the group totals, as the result texts accumulate it. */
  function GrandTotal(groups: seq<DiceGroupResult>): int {
    if groups == [] then 0 else Sum(groups[0].values) + GrandTotal(groups[1..])
  }

  lemma {:induction false} ValuesOfWithout(ds: seq<Outcome>, s: int, t: int)
    ensures ValuesOf(Without(ds, s), t) == if t == s then [] else ValuesOf(ds, t)
  {
    if ds != [] {
      ValuesOfWithout(ds[1..], s, t);
      var head := if ds[0].sides != s then [ds[0]] else [];
      assert Without(ds, s) == head + Without(ds[1..], s);
      ValuesOfAppend(head, Without(ds[1..], s), t);
    }
  }

  lemma {:induction false} ValuesOfAppend(a: seq<Outcome>, b: seq<Outcome>, t: int)
    ensures ValuesOf(a + b, t) == ValuesOf(a, t) + ValuesOf(b, t)
  {
    if a != [] {
      assert (a + b)[1..] == a[1..] + b;
      ValuesOfAppend(a[1..], b, t);
    } else {
      assert a + b == b;
    }
  }

  lemma {:induction false} HasSidesWithout(ds: seq<Outcome>, s: int, t: int)
    ensures HasSides(Without(ds, s), t) <==> t != s && HasSides(ds, t)
  {
    HasSidesValues(ds, t);
    HasSidesValues(Without(ds, s), t);
    ValuesOfWithout(ds, s, t);
  }

  /** A key occurs among the dice exactly when some value is collected for it. */
  lemma {:induction false} HasSidesValues(ds: seq<Outcome>, t: int)
    ensures HasSides(ds, t) <==> ValuesOf(ds, t) != []
  {
    if ds != [] {
      HasSidesValues(ds[1..], t);
      if HasSides(ds[1..], t) {
        var k :| 0 <= k < |ds[1..]| && ds[1..][k].sides == t;
        assert ds[k + 1].sides == t;
      }
      if HasSides(ds, t) && ds[0].sides != t {
        var k :| 0 <= k < |ds| && ds[k].sides == t;
        assert ds[1..][k - 1].sides == t;
      }
    }
  }

  /** Each group collects exactly the values of the dice with its key. */
  lemma {:induction false} GroupValues(ds: seq<Outcome>, i: nat)
    requires i < |GroupBySides(ds)|
    ensures GroupBySides(ds)[i].values == ValuesOf(ds, GroupBySides(ds)[i].sides)
    ensures GroupBySides(ds)[i].values != []
    decreases |ds|
  {
    var s := ds[0].sides;
    if i == 0 {
      assert ValuesOf(ds, s) != [];
    } else {
      var rest := Without(ds, s);
      GroupValues(rest, i - 1);
      GroupKeysAreKeys(rest, i - 1);
      var t := GroupBySides(rest)[i - 1].sides;
      HasSidesWithout(ds, s, t);
      ValuesOfWithout(ds, s, t);
    }
  }

  /** Every group's key is the key of some die. */
  lemma {:induction false} GroupKeysAreKeys(ds: seq<Outcome>, i: nat)
    requires i < |GroupBySides(ds)|
    ensures HasSides(ds, GroupBySides(ds)[i].sides)
    decreases |ds|
  {
    var s := ds[0].sides;
    if i == 0 {
      assert ds[0].sides == s;
    } else {
      var rest := Without(ds, s);
      GroupKeysAreKeys(rest, i - 1);
      HasSidesWithout(ds, s, GroupBySides(rest)[i - 1].sides);
    }
  }

  /** Every die's key has a group. */
  lemma {:induction false} KeysHaveGroups(ds: seq<Outcome>, t: int)
    requires HasSides(ds, t)
    ensures exists i :: 0 <= i < |GroupBySides(ds)| && GroupBySides(ds)[i].sides == t
    decreases |ds|
  {
    var s := ds[0].sides;
    if t != s {
      var rest := Without(ds, s);
      HasSidesWithout(ds, s, t);
      KeysHaveGroups(rest, t);
      var i :| 0 <= i < |GroupBySides(rest)| && GroupBySides(rest)[i].sides == t;
      assert GroupBySides(ds)[i + 1].sides == t;
    } else {
      assert GroupBySides(ds)[0].sides == t;
    }
  }

  /** No two groups share a key. */
  lemma {:induction false} GroupKeysDistinct(ds: seq<Outcome>, i: nat, j: nat)
    requires i < j < |GroupBySides(ds)|
    ensures GroupBySides(ds)[i].sides != GroupBySides(ds)[j].sides
    decreases |ds|
  {
    var s := ds[0].sides;
    var rest := Without(ds, s);
    var t := GroupBySides(rest)[j - 1].sides;
    GroupKeysAreKeys(rest, j - 1);
    HasSidesWithout(ds, s, t);
    if i > 0 {
      GroupKeysDistinct(rest, i - 1, j - 1);
    }
  }

  /** The groups together hold as many values as there are dice. */
  lemma {:induction false} GroupValueCount(ds: seq<Outcome>)
    ensures ValueCount(GroupBySides(ds)) == |ds|
    decreases |ds|
  {
    if ds != [] {
      GroupValueCount(Without(ds, ds[0].sides));
    }
  }

  lemma {:induction false} SumValuesSplit(ds: seq<Outcome>, s: int)
    ensures Sum(Values(ds)) == Sum(ValuesOf(ds, s)) + Sum(Values(Without(ds, s)))
  {
    if ds != [] {
      SumValuesSplit(ds[1..], s);
      SumCons(ds[0].value, Values(ds[1..]));
      if ds[0].sides == s {
        SumCons(ds[0].value, ValuesOf(ds[1..], s));
        assert ValuesOf(ds, s) == [ds[0].value] + ValuesOf(ds[1..], s);
        assert Without(ds, s) == Without(ds[1..], s);
      } else {
        SumCons(ds[0].value, Values(Without(ds[1..], s)));
        var w := Without(ds[1..], s);
        assert Without(ds, s) == [ds[0]] + w;
        assert ([ds[0]] + w)[1..] == w;
        assert Values(Without(ds, s)) == [ds[0].value] + Values(w);
        assert ValuesOf(ds, s) == ValuesOf(ds[1..], s);
      }
    }
  }

  lemma SumCons(x: int, s: seq<int>)
    ensures Sum([x] + s) == x + Sum(s)
  {
    SumAppend([x], s);
    assert [x][..0] == [];
  }

  /** The sum of the group totals is the sum of every die's final value. */
  lemma {:induction false} GrandTotalIsSum(ds: seq<Outcome>)
    ensures GrandTotal(GroupBySides(ds)) == Sum(Values(ds))
    decreases |ds|
  {
    if ds != [] {
      var s := ds[0].sides;
      GrandTotalIsSum(Without(ds, s));
      SumValuesSplit(ds, s);
    }
  }

  /** The index of the first die with key t. */
  function FirstIndex(ds: seq<Outcome>, t: int): (k: nat)
    requires HasSides(ds, t)
    ensures k < |ds| && ds[k].sides == t
  {
    if ds[0].sides == t then 0
    else
      assert HasSides(ds[1..], t) by {
        var k :| 0 <= k < |ds| && ds[k].sides == t;
        assert ds[1..][k - 1].sides == t;
      }
      1 + FirstIndex(ds[1..], t)
  }

  /** No die before the first index has key t. */
  lemma {:induction false} FirstIndexIsFirst(ds: seq<Outcome>, t: int, j: nat)
    requires HasSides(ds, t) && j < FirstIndex(ds, t)
    ensures ds[j].sides != t
  {
    if j > 0 {
      HasSidesTail(ds, t);
      FirstIndexIsFirst(ds[1..], t, j - 1);
    }
  }

  lemma HasSidesTail(ds: seq<Outcome>, t: int)
    requires HasSides(ds, t) && ds[0].sides != t
    ensures HasSides(ds[1..], t)
    ensures FirstIndex(ds, t) == 1 + FirstIndex(ds[1..], t)
  {
    var k :| 0 <= k < |ds| && ds[k].sides == t;
    assert ds[1..][k - 1].sides == t;
  }

  /** Removing the dice of one key keeps the order of the first occurrences of the other keys. */
  lemma {:induction false} WithoutKeepsOrder(ds: seq<Outcome>, s: int, a: int, b: int)
    requires a != s && b != s && a != b
    requires HasSides(ds, a) && HasSides(ds, b)
    ensures HasSides(Without(ds, s), a) && HasSides(Without(ds, s), b)
    ensures FirstIndex(Without(ds, s), a) < FirstIndex(Without(ds, s), b) <==> FirstIndex(ds, a) < FirstIndex(ds, b)
  {
    HasSidesWithout(ds, s, a);
    HasSidesWithout(ds, s, b);
    var w := Without(ds, s);
    var h := ds[0].sides;
    if h == a || h == b {
      assert w[0] == ds[0];
      assert FirstIndex(w, h) == 0 && FirstIndex(ds, h) == 0;
    } else {
      HasSidesTail(ds, a);
      HasSidesTail(ds, b);
      var w' := Without(ds[1..], s);
      WithoutKeepsOrder(ds[1..], s, a, b);
      assert FirstIndex(w', a) < FirstIndex(w', b) <==> FirstIndex(ds[1..], a) < FirstIndex(ds[1..], b);
      if h != s {
        assert w == [ds[0]] + w';
        assert w[1..] == w';
        HasSidesTail(w, a);
        HasSidesTail(w, b);
        assert FirstIndex(w, a) == 1 + FirstIndex(w', a) && FirstIndex(w, b) == 1 + FirstIndex(w', b);
      } else {
        assert w == w';
      }
    }
  }

  /** The groups come in the order in which their keys first occur among the dice. */
  lemma {:induction false} GroupsInFirstOccurrenceOrder(ds: seq<Outcome>, i: nat, j: nat)
    requires i < j < |GroupBySides(ds)|
    ensures HasSides(ds, GroupBySides(ds)[i].sides) && HasSides(ds, GroupBySides(ds)[j].sides)
    ensures FirstIndex(ds, GroupBySides(ds)[i].sides) < FirstIndex(ds, GroupBySides(ds)[j].sides)
    decreases |ds|
  {
    var g := GroupBySides(ds);
    var s := ds[0].sides;
    var rest := Without(ds, s);
    GroupKeysAreKeys(ds, i);
    GroupKeysAreKeys(ds, j);
    GroupKeysDistinct(ds, i, j);
    var a := g[i].sides;
    var b := g[j].sides;
    assert b == GroupBySides(rest)[j - 1].sides;
    GroupKeysAreKeys(rest, j - 1);
    HasSidesWithout(ds, s, b);
    if i == 0 {
      assert a == s;
      HasSidesTail(ds, b);
      assert FirstIndex(ds, a) == 0 < FirstIndex(ds, b);
    } else {
      assert a == GroupBySides(rest)[i - 1].sides;
      GroupKeysAreKeys(rest, i - 1);
      HasSidesWithout(ds, s, a);
      GroupsInFirstOccurrenceOrder(rest, i - 1, j - 1);
      assert FirstIndex(rest, a) < FirstIndex(rest, b);
      WithoutKeepsOrder(ds, s, a, b);
    }
  }

  /** What the grouping reads from a list of dice: sides and final value, in list order. */
  function Outcomes(states: seq<DieState>): (r: seq<Outcome>)
    ensures |r| == |states|
    ensures forall k :: 0 <= k < |states| ==> r[k] == Outcome(states[k].sides, states[k].finalValue)
  {
    if states == [] then [] else [Outcome(states[0].sides, states[0].finalValue)] + Outcomes(states[1..])
  }

  /** No element occurs twice: the lists of a session never hold the same object twice. */
  predicate Distinct<T(==)>(s: seq<T>) {
    forall i, j :: 0 <= i < j < |s| ==> s[i] != s[j]
  }

  /** The grand total accumulates group by group, the way the result loops add to it. */
  lemma {:induction false} GrandTotalPrefix(groups: seq<DiceGroupResult>, i: nat)
    requires i < |groups|
    ensures GrandTotal(groups[..i + 1]) == GrandTotal(groups[..i]) + Sum(groups[i].values)
  {
    if i > 0 {
      assert groups[..i + 1][1..] == groups[1..][..i];
      assert groups[..i][1..] == groups[1..][..i - 1];
      GrandTotalPrefix(groups[1..], i - 1);
    }
  }
}
