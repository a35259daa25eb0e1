/** The main page (3Dice/MainPage.xaml.cs): the seven dice types with a count each, the summary of
    the selection, clearing it, and the instant roll, which draws every selected die at once and
    shows the group lines and the grand total. The labels' texts, the clear button's visibility
    and what the screen reader is asked to announce are fields of the page. */
module MainPageModel {
  import opened Numerics
  import opened Text
  import opened DiceTypes
  import opened Grouping
  import opened Results

  /** The most dice of one type the increase button allows. */
  const MaxCount := 20

  /** `InitializeDiceTypes`: the seven standard types, none selected. */
  function StandardTypes(): (r: seq<DiceType>)
    ensures |r| == 7
  {
    [DiceType(4, "D4", 0), DiceType(6, "D6", 0), DiceType(8, "D8", 0), DiceType(10, "D10", 0),
     DiceType(12, "D12", 0), DiceType(20, "D20", 0), DiceType(100, "D100", 0)]
  }

  predicate CountsInRange(types: seq<DiceType>) {
    forall k :: 0 <= k < |types| ==> 0 <= types[k].count <= MaxCount
  }

  /** Two lists of types with the same sides and names, position by position. */
  predicate SameKinds(types: seq<DiceType>, kinds: seq<DiceType>) {
    && |types| == |kinds|
    && forall k :: 0 <= k < |types| ==> types[k].sides == kinds[k].sides && types[k].name == kinds[k].name
  }

  /** The standard names hold no newline, so each group line is one line of the result. */
  lemma StandardNames(types: seq<DiceType>)
    requires SameKinds(types, StandardTypes())
    ensures forall k :: 0 <= k < |types| ==> '\n' !in types[k].name && types[k].sides >= 4
  {
    forall k | 0 <= k < |types|
      ensures '\n' !in types[k].name && types[k].sides >= 4
    {
      var s := StandardTypes();
      assert types[k].name == s[k].name && types[k].sides == s[k].sides;
      assert k == 0 || k == 1 || k == 2 || k == 3 || k == 4 || k == 5 || k == 6;
    }
  }

  // Selection

  /** What `OnDecreaseDiceClicked` changes: type t loses one die when it has any. An index
      outside the list stands for a sender that is not a button bound to a type. */
  function Decremented(types: seq<DiceType>, t: int): (r: seq<DiceType>)
    ensures |r| == |types|
  {
    if 0 <= t < |types| && types[t].count > 0 then types[t := types[t].(count := types[t].count - 1)]
    else types
  }

  /** What `OnIncreaseDiceClicked` changes: type t gains one die while it has fewer than 20. */
  function Incremented(types: seq<DiceType>, t: int): (r: seq<DiceType>)
    ensures |r| == |types|
  {
    if 0 <= t < |types| && types[t].count < MaxCount then types[t := types[t].(count := types[t].count + 1)]
    else types
  }

  function Positive(c: int): nat {
    if c > 0 then c else 0
  }

  /** Setting one type's count changes the number of selected dice by the difference of the
      positive parts of the old and the new count. */
  lemma {:induction false} TotalCountUpdate(types: seq<DiceType>, t: nat, c: int)
    requires t < |types|
    ensures TotalCount(types[t := types[t].(count := c)])
         == TotalCount(types) - Positive(types[t].count) + Positive(c)
  {
    var u := types[t := types[t].(count := c)];
    var n := |types| - 1;
    if t == n {
      assert u[..n] == types[..n];
    } else {
      assert u[..n] == types[..n][t := types[..n][t].(count := c)];
      TotalCountUpdate(types[..n], t, c);
    }
  }

  /** Decreasing keeps every count in [0, 20], touches only type t, and removes exactly one die
      exactly when type t had one. */
  lemma DecrementedEffect(types: seq<DiceType>, t: int)
    requires CountsInRange(types)
    ensures CountsInRange(Decremented(types, t))
    ensures forall k :: 0 <= k < |types| && k != t ==> Decremented(types, t)[k] == types[k]
    ensures TotalCount(Decremented(types, t))
         == TotalCount(types) - (if 0 <= t < |types| && types[t].count > 0 then 1 else 0)
  {
    if 0 <= t < |types| && types[t].count > 0 {
      var c := types[t].count - 1;
      assert Decremented(types, t) == types[t := types[t].(count := c)];
      assert Positive(c) == Positive(types[t].count) - 1;
      TotalCountUpdate(types, t, c);
    }
  }

  /** Increasing keeps every count in [0, 20], touches only type t, and adds exactly one die
      exactly when type t had fewer than 20. */
  lemma IncrementedEffect(types: seq<DiceType>, t: int)
    requires CountsInRange(types)
    ensures CountsInRange(Incremented(types, t))
    ensures forall k :: 0 <= k < |types| && k != t ==> Incremented(types, t)[k] == types[k]
    ensures TotalCount(Incremented(types, t))
         == TotalCount(types) + (if 0 <= t < |types| && types[t].count < MaxCount then 1 else 0)
  {
    if 0 <= t < |types| && types[t].count < MaxCount {
      var c := types[t].count + 1;
      assert Incremented(types, t) == types[t := types[t].(count := c)];
      assert Positive(c) == Positive(types[t].count) + 1;
      TotalCountUpdate(types, t, c);
    }
  }

  /** A decrease undoes an increase that acted, and an increase undoes a decrease that acted. */
  lemma IncrementDecrement(types: seq<DiceType>, t: int)
    requires CountsInRange(types) && 0 <= t < |types|
    ensures types[t].count < MaxCount ==> Decremented(Incremented(types, t), t) == types
    ensures types[t].count > 0 ==> Incremented(Decremented(types, t), t) == types
  {
    if types[t].count < MaxCount {
      assert Decremented(Incremented(types, t), t) == types[t := types[t]];
    }
    if types[t].count > 0 {
      assert Incremented(Decremented(types, t), t) == types[t := types[t]];
    }
  }

  /** What the loop of `OnClearAllClicked` leaves: every type at count 0. */
  function Cleared(types: seq<DiceType>): (r: seq<DiceType>)
    ensures |r| == |types|
  {
    seq(|types|, k requires 0 <= k < |types| => types[k].(count := 0))
  }

  /** After clearing, no die is selected and the types keep their sides and names. */
  lemma ClearedEffect(types: seq<DiceType>)
    ensures NoneSelected(Cleared(types)) && Selected(Cleared(types)) == [] && TotalCount(Cleared(types)) == 0
    ensures forall k :: 0 <= k < |types| ==>
      Cleared(types)[k].sides == types[k].sides && Cleared(types)[k].name == types[k].name
  {
    SelectedEmpty(Cleared(types));
    TotalCountZero(Cleared(types));
  }

  // Summary

  /** `selectedDice.Select(d => $"{d.Count}x {d.Name}")`. */
  function SummaryParts(selected: seq<DiceType>): (r: seq<string>)
    ensures |r| == |selected|
  {
    if selected == [] then []
    else
      var n := |selected| - 1;
      SummaryParts(selected[..n]) + [IntToString(selected[n].count) + "x " + selected[n].name]
  }

  /** `SelectionSummaryLabel.Text` as `UpdateSummary` leaves it. */
  function SummaryText(types: seq<DiceType>): string {
    var selected := Selected(types);
    if selected != [] then Join(", ", SummaryParts(selected)) else "No dice selected"
  }

  /** Part k of the summary is the count and the name of the k-th selected type. */
  lemma {:induction false} SummaryPartAt(selected: seq<DiceType>, k: nat)
    requires k < |selected|
    ensures SummaryParts(selected)[k] == IntToString(selected[k].count) + "x " + selected[k].name
  {
    var n := |selected| - 1;
    var front := SummaryParts(selected[..n]);
    assert SummaryParts(selected) == front + [IntToString(selected[n].count) + "x " + selected[n].name];
    if k < n {
      SummaryPartAt(selected[..n], k);
      assert selected[..n][k] == selected[k];
      assert SummaryParts(selected)[k] == front[k];
    }
  }

  /** The summary reads "No dice selected" exactly when no type has a positive count; otherwise
      it opens with the digits of the first selected type's count. */
  lemma SummaryNoneSelected(types: seq<DiceType>)
    ensures SummaryText(types) == "No dice selected" <==> NoneSelected(types)
    ensures !NoneSelected(types) ==> IsDigit(SummaryText(types)[0])
  {
    SelectedEmpty(types);
    var selected := Selected(types);
    if selected != [] {
      var parts := SummaryParts(selected);
      SummaryPartAt(selected, 0);
      assert selected[0].count > 0;
      var first := IntToString(selected[0].count);
      assert parts[0] == first + "x " + selected[0].name;
      assert parts[0][0] == first[0];
      JoinFirst(", ", parts);
      assert SummaryText(types)[0] == first[0];
      assert "No dice selected"[0] == 'N';
    }
  }

  /** A join whose first part is non-empty opens with that part's first character. */
  lemma JoinFirst(sep: string, parts: seq<string>)
    requires |parts| >= 1 && |parts[0]| >= 1
    ensures |Join(sep, parts)| >= 1 && Join(sep, parts)[0] == parts[0][0]
  {
    if |parts| > 1 {
      assert Join(sep, parts) == parts[0] + (sep + Join(sep, parts[1..]));
    }
  }

  // Instant roll

  /** The draws of an instant roll: for selected type k, `Count` values, each
      `random.Next(1, Sides + 1)` and so in [1, Sides]. */
  predicate ValidRolls(selected: seq<DiceType>, rolls: seq<seq<int>>) {
    && |rolls| == |selected|
    && forall k :: 0 <= k < |selected| ==>
         1 <= selected[k].count == |rolls[k]|
         && forall j :: 0 <= j < |rolls[k]| ==> 1 <= rolls[k][j] <= selected[k].sides
  }

  /** The groups of an instant roll: each selected type with the values drawn for it. */
  function RollGroups(selected: seq<DiceType>, rolls: seq<seq<int>>): (r: seq<DiceGroupResult>)
    requires |rolls| == |selected|
    ensures |r| == |selected|
  {
    seq(|selected|, k requires 0 <= k < |selected| => DiceGroupResult(selected[k].sides, rolls[k]))
  }

  /** The group lines of an instant roll, named by the types' names. */
  function RollLines(selected: seq<DiceType>, rolls: seq<seq<int>>): (r: seq<string>)
    requires ValidRolls(selected, rolls)
    ensures |r| == |selected|
  {
    seq(|selected|, k requires 0 <= k < |selected| => GroupLine(selected[k].name, rolls[k]))
  }

  /** `DiceResultLabel.Text` after an instant roll of a non-empty selection. */
  function RollText(selected: seq<DiceType>, rolls: seq<seq<int>>): string
    requires ValidRolls(selected, rolls) && |selected| >= 1
  {
    Report(RollLines(selected, rolls), |selected| == 1 && selected[0].count == 1,
           GrandTotal(RollGroups(selected, rolls)),
           "🎲 Result:\n", "🎲 Results:\n", "\n\n🎯 Grand Total: ")
  }

  /** The message the screen reader is asked to announce after an instant roll. */
  function Announcement(total: int): string {
    "Rolled dice. Grand total: " + IntToString(total)
  }

  /** The inner loop of `OnRollDiceClicked`: count draws, kept in draw order. */
  method DrawValues(count: int, draws: seq<int>) returns (groupResults: seq<int>)
    requires count == |draws|
    ensures groupResults == draws
  {
    groupResults := [];
    var i := 0;
    while i < count
      invariant 0 <= i <= count
      invariant groupResults == draws[..i]
    {
      assert draws[..i + 1] == draws[..i] + [draws[i]];
      groupResults := groupResults + [draws[i]];
      i := i + 1;
    }
    assert draws[..i] == draws;
  }

  /** The outer loop of `OnRollDiceClicked`: each selected type's line is added to the list and
      its total to the grand total. */
  method RollAll(selected: seq<DiceType>, rolls: seq<seq<int>>) returns (allResults: seq<string>, grandTotal: int)
    requires ValidRolls(selected, rolls)
    ensures allResults == RollLines(selected, rolls)
    ensures grandTotal == GrandTotal(RollGroups(selected, rolls))
  {
    ghost var groups := RollGroups(selected, rolls);
    ghost var lines := RollLines(selected, rolls);
    allResults := [];
    grandTotal := 0;
    var i := 0;
    while i < |selected|
      invariant 0 <= i <= |selected|
      invariant allResults == lines[..i]
      invariant grandTotal == GrandTotal(groups[..i])
    {
      var diceType := selected[i];
      assert 1 <= diceType.count == |rolls[i]|;
      var groupResults := DrawValues(diceType.count, rolls[i]);
      var groupResult, groupTotal := FormatGroup(diceType.name, groupResults);
      assert groupResult == lines[i] && groupTotal == Sum(groups[i].values);
      GrandTotalPrefix(groups, i);
      PrefixSnoc(lines, i);
      grandTotal := grandTotal + groupTotal;
      allResults := allResults + [groupResult];
      i := i + 1;
    }
    assert lines[..i] == lines && groups[..i] == groups;
  }

  /** A prefix one longer is the prefix followed by the next element. Kept generic so that the
      loop of `RollAll` need not reason about sequences of strings. */
  lemma PrefixSnoc<T>(s: seq<T>, i: nat)
    requires i < |s|
    ensures s[..i + 1] == s[..i] + [s[i]]
  {
  }

  /** The body of `OnRollDiceClicked` after the guard: the result text and the grand total. */
  method RollResult(selected: seq<DiceType>, rolls: seq<seq<int>>) returns (finalResult: string, grandTotal: int)
    requires ValidRolls(selected, rolls) && |selected| >= 1
    ensures finalResult == RollText(selected, rolls)
    ensures grandTotal == GrandTotal(RollGroups(selected, rolls))
  {
    var allResults;
    allResults, grandTotal := RollAll(selected, rolls);
    var single := |selected| == 1 && selected[0].count == 1;
    if single {
      finalResult := "🎲 Result:\n" + allResults[0];
    } else {
      finalResult := "🎲 Results:\n" + Join("\n", allResults) + "\n\n🎯 Grand Total: " + IntToString(grandTotal);
    }
    assert finalResult == Report(allResults, single, grandTotal, "🎲 Result:\n", "🎲 Results:\n", "\n\n🎯 Grand Total: ");
  }

  /** The number of values over the groups accumulates group by group. */
  lemma {:induction false} ValueCountPrefix(groups: seq<DiceGroupResult>, i: nat)
    requires i < |groups|
    ensures ValueCount(groups[..i + 1]) == ValueCount(groups[..i]) + |groups[i].values|
  {
    if i > 0 {
      assert groups[..i + 1][1..] == groups[1..][..i];
      assert groups[..i][1..] == groups[1..][..i - 1];
      ValueCountPrefix(groups[1..], i - 1);
    }
  }

  /** An instant roll draws exactly `Count` values for each selected type. */
  lemma {:induction false} RollValueCount(selected: seq<DiceType>, rolls: seq<seq<int>>)
    requires ValidRolls(selected, rolls)
    ensures ValueCount(RollGroups(selected, rolls)) == CountSum(selected)
  {
    if selected != [] {
      var n := |selected| - 1;
      var groups := RollGroups(selected, rolls);
      assert ValidRolls(selected[..n], rolls[..n]);
      assert groups[..n] == RollGroups(selected[..n], rolls[..n]);
      RollValueCount(selected[..n], rolls[..n]);
      ValueCountPrefix(groups, n);
      assert groups[..n + 1] == groups;
    }
  }

  /** The types `Where(d => d.Count > 0)` keeps hold all the selected dice. */
  lemma {:induction false} SelectedCountSum(types: seq<DiceType>)
    ensures CountSum(Selected(types)) == TotalCount(types)
  {
    if types != [] {
      var n := |types| - 1;
      var front := Selected(types[..n]);
      SelectedCountSum(types[..n]);
      if types[n].count > 0 {
        assert Selected(types) == front + [types[n]];
        CountSumSnoc(front, types[n]);
      } else {
        assert Selected(types) == front;
      }
    }
  }

  lemma CountSumSnoc(types: seq<DiceType>, t: DiceType)
    ensures CountSum(types + [t]) == CountSum(types) + t.count
  {
    assert (types + [t])[..|types|] == types;
  }

  /** A roll of the page's selection draws one value per selected die. */
  lemma RollCount(types: seq<DiceType>, rolls: seq<seq<int>>)
    requires ValidRolls(Selected(types), rolls)
    ensures ValueCount(RollGroups(Selected(types), rolls)) == TotalCount(types)
  {
    RollValueCount(Selected(types), rolls);
    SelectedCountSum(types);
  }

  /** The largest grand total the groups' values allow: each value at its group's sides. */
  function MaxTotal(groups: seq<DiceGroupResult>): int {
    if groups == [] then 0 else |groups[0].values| * groups[0].sides + MaxTotal(groups[1..])
  }

  predicate ValuesInSides(groups: seq<DiceGroupResult>) {
    forall k, j :: 0 <= k < |groups| && 0 <= j < |groups[k].values| ==>
      1 <= groups[k].values[j] <= groups[k].sides
  }

  /** With every value in [1, sides], the grand total is at least the number of dice and at most
      every die showing its highest face. */
  lemma {:induction false} GrandTotalBounds(groups: seq<DiceGroupResult>)
    requires ValuesInSides(groups)
    ensures ValueCount(groups) <= GrandTotal(groups) <= MaxTotal(groups)
  {
    if groups != [] {
      var g := groups[0];
      assert forall j :: 0 <= j < |g.values| ==> 1 <= g.values[j] <= g.sides by {
        forall j | 0 <= j < |g.values|
          ensures 1 <= g.values[j] <= g.sides
        {
          assert groups[0].values[j] == g.values[j];
        }
      }
      SumBounds(g.values, 1, g.sides);
      assert ValuesInSides(groups[1..]) by {
        forall k, j | 0 <= k < |groups[1..]| && 0 <= j < |groups[1..][k].values|
          ensures 1 <= groups[1..][k].values[j] <= groups[1..][k].sides
        {
          assert groups[1..][k] == groups[k + 1];
        }
      }
      GrandTotalBounds(groups[1..]);
    }
  }

  /** The grand total of an instant roll is between the number of dice rolled and the sum of
      their sides. */
  lemma RollTotalBounds(types: seq<DiceType>, rolls: seq<seq<int>>)
    requires ValidRolls(Selected(types), rolls)
    ensures var groups := RollGroups(Selected(types), rolls);
      TotalCount(types) <= GrandTotal(groups) <= MaxTotal(groups)
  {
    var groups := RollGroups(Selected(types), rolls);
    assert ValuesInSides(groups) by {
      forall k, j | 0 <= k < |groups| && 0 <= j < |groups[k].values|
        ensures 1 <= groups[k].values[j] <= groups[k].sides
      {
        assert groups[k].values == rolls[k];
      }
    }
    GrandTotalBounds(groups);
    RollCount(types, rolls);
  }

  /** Read line by line, the text of an instant roll other than a single die is its heading, one
      line per selected type, a blank line and the grand total, whose number reads back. */
  lemma RollTextLines(selected: seq<DiceType>, rolls: seq<seq<int>>)
    requires ValidRolls(selected, rolls) && |selected| >= 1
    requires forall k :: 0 <= k < |selected| ==> '\n' !in selected[k].name
    requires !(|selected| == 1 && selected[0].count == 1)
    ensures var total := GrandTotal(RollGroups(selected, rolls));
      && Split(RollText(selected, rolls), '\n')
         == ["🎲 Results:"] + RollLines(selected, rolls) + ["", "🎯 Grand Total: " + IntToString(total)]
      && ParseInt(("🎯 Grand Total: " + IntToString(total))[|"🎯 Grand Total: "|..]) == total
  {
    var lines := RollLines(selected, rolls);
    forall k | 0 <= k < |lines|
      ensures '\n' !in lines[k]
    {
      GroupLineNoNewline(selected[k].name, rolls[k]);
    }
    assert "🎲 Results:\n" == "🎲 Results:" + "\n";
    assert "\n\n🎯 Grand Total: " == "\n\n" + "🎯 Grand Total: ";
    assert '\n' !in "🎲 Results:" && '\n' !in "🎯 Grand Total: ";
    ReportLines(lines, GrandTotal(RollGroups(selected, rolls)), "🎲 Result:\n", "🎲 Results:", "🎯 Grand Total: ");
  }

  /** On the page's standard types, an instant roll of more than one die reads line by line as
      its heading, one line per selected type, a blank line and the grand total. */
  lemma PageRollTextLines(types: seq<DiceType>, rolls: seq<seq<int>>)
    requires SameKinds(types, StandardTypes())
    requires ValidRolls(Selected(types), rolls) && Selected(types) != []
    requires var selected := Selected(types); !(|selected| == 1 && selected[0].count == 1)
    ensures var selected := Selected(types);
      Split(RollText(selected, rolls), '\n')
      == ["🎲 Results:"] + RollLines(selected, rolls)
         + ["", "🎯 Grand Total: " + IntToString(GrandTotal(RollGroups(selected, rolls)))]
  {
    var selected := Selected(types);
    StandardNames(types);
    forall k | 0 <= k < |selected|
      ensures '\n' !in selected[k].name
    {
      assert selected[k] in types;
      var j :| 0 <= j < |types| && types[j] == selected[k];
    }
    RollTextLines(selected, rolls);
  }

  /** A roll of a single die shows the single heading, the type's name and the value drawn. */
  lemma RollTextSingle(selected: seq<DiceType>, rolls: seq<seq<int>>)
    requires ValidRolls(selected, rolls) && |selected| == 1 && selected[0].count == 1
    ensures RollText(selected, rolls) == "🎲 Result:\n" + selected[0].name + ": " + IntToString(rolls[0][0])
    ensures 1 <= rolls[0][0] <= selected[0].sides
  {
  }

  class MainPage {
    /** The types as `InitializeDiceTypes` added them; only their counts change afterwards. */
    const kinds: seq<DiceType>
    var diceTypes: seq<DiceType>
    var summaryText: string
    var clearAllVisible: bool
    var resultText: string
    /** What `SemanticScreenReader.Announce` has been asked to say, in order. */
    var announcements: seq<string>

    ghost predicate Valid()
      reads this
    {
      SameKinds(diceTypes, kinds) && CountsInRange(diceTypes)
    }

    /** `new MainPage()`: the seven standard types, none selected; the labels and the clear
        button start as the page's markup sets them. */
    constructor (summary: string, clearVisible: bool, result: string)
      ensures Valid() && kinds == diceTypes == StandardTypes()
      ensures summaryText == summary && clearAllVisible == clearVisible && resultText == result
      ensures announcements == []
    {
      kinds := StandardTypes();
      diceTypes := StandardTypes();
      summaryText := summary;
      clearAllVisible := clearVisible;
      resultText := result;
      announcements := [];
    }

    /** `UpdateSummary`: the summary of the selection, and the clear button shown exactly when
        some type is selected. */
    method UpdateSummary()
      modifies this
      ensures diceTypes == old(diceTypes) && resultText == old(resultText)
      ensures announcements == old(announcements)
      ensures summaryText == SummaryText(diceTypes)
      ensures clearAllVisible <==> !NoneSelected(diceTypes)
    {
      SelectedEmpty(diceTypes);
      var selectedDice := Selected(diceTypes);
      if |selectedDice| > 0 {
        summaryText := Join(", ", SummaryParts(selectedDice));
        clearAllVisible := true;
      } else {
        summaryText := "No dice selected";
        clearAllVisible := false;
      }
    }

    /** `OnDecreaseDiceClicked` for type t; the summary is refreshed only when a die was removed. */
    method OnDecreaseDiceClicked(t: int)
      requires Valid()
      modifies this
      ensures Valid() && diceTypes == Decremented(old(diceTypes), t)
      ensures resultText == old(resultText) && announcements == old(announcements)
      ensures if 0 <= t < |old(diceTypes)| && old(diceTypes)[t].count > 0
              then summaryText == SummaryText(diceTypes) && (clearAllVisible <==> !NoneSelected(diceTypes))
              else summaryText == old(summaryText) && clearAllVisible == old(clearAllVisible)
    {
      if 0 <= t < |diceTypes| {
        if diceTypes[t].count > 0 {
          diceTypes := diceTypes[t := diceTypes[t].(count := diceTypes[t].count - 1)];
          UpdateSummary();
        }
      }
    }

    /** `OnIncreaseDiceClicked` for type t; the summary is refreshed only when a die was added. */
    method OnIncreaseDiceClicked(t: int)
      requires Valid()
      modifies this
      ensures Valid() && diceTypes == Incremented(old(diceTypes), t)
      ensures resultText == old(resultText) && announcements == old(announcements)
      ensures if 0 <= t < |old(diceTypes)| && old(diceTypes)[t].count < MaxCount
              then summaryText == SummaryText(diceTypes) && (clearAllVisible <==> !NoneSelected(diceTypes))
              else summaryText == old(summaryText) && clearAllVisible == old(clearAllVisible)
    {
      if 0 <= t < |diceTypes| {
        if diceTypes[t].count < MaxCount {
          diceTypes := diceTypes[t := diceTypes[t].(count := diceTypes[t].count + 1)];
          UpdateSummary();
        }
      }
    }

    /** `OnClearAllClicked`: every count set to 0, the summary refreshed (so "No dice selected"
        with the clear button hidden) and the prompt shown. */
    method OnClearAllClicked()
      requires Valid()
      modifies this
      ensures Valid() && diceTypes == Cleared(old(diceTypes))
      ensures summaryText == "No dice selected" && !clearAllVisible
      ensures resultText == "Select dice and roll!" && announcements == old(announcements)
    {
      ghost var start := diceTypes;
      var i := 0;
      while i < |diceTypes|
        invariant 0 <= i <= |diceTypes| == |start|
        invariant forall k :: 0 <= k < i ==> diceTypes[k] == start[k].(count := 0)
        invariant forall k :: i <= k < |start| ==> diceTypes[k] == start[k]
        invariant announcements == old(announcements)
      {
        diceTypes := diceTypes[i := diceTypes[i].(count := 0)];
        i := i + 1;
      }
      assert diceTypes == Cleared(start);
      ClearedEffect(start);
      UpdateSummary();
      SummaryNoneSelected(diceTypes);
      resultText := "Select dice and roll!";
    }

    /** `OnRollDiceClicked`, with `rolls[k]` the values `random.Next` gives for the k-th selected
        type. With nothing selected only the prompt is shown; otherwise the result text of the
        groups and an announcement of the grand total. */
    method OnRollDiceClicked(rolls: seq<seq<int>>)
      requires Valid() && ValidRolls(Selected(diceTypes), rolls)
      modifies this
      ensures Valid() && diceTypes == old(diceTypes)
      ensures summaryText == old(summaryText) && clearAllVisible == old(clearAllVisible)
      ensures Selected(diceTypes) == [] ==>
        resultText == "Please select some dice first!" && announcements == old(announcements)
      ensures Selected(diceTypes) != [] ==>
        && resultText == RollText(Selected(diceTypes), rolls)
        && announcements == old(announcements)
             + [Announcement(GrandTotal(RollGroups(Selected(diceTypes), rolls)))]
    {
      var selectedDice := Selected(diceTypes);
      if |selectedDice| == 0 {
        resultText := "Please select some dice first!";
        return;
      }
      var finalResult, grandTotal := RollResult(selectedDice, rolls);
      resultText := finalResult;
      announcements := announcements + ["Rolled dice. Grand total: " + IntToString(grandTotal)];
    }
  }
}
