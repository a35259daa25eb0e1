/** The result texts of the full-screen page (3Dice/Views/FullScreenDiceRollingPage.cs,
    `CreateResultsText`) and of the main page's instant roll (3Dice/MainPage.xaml.cs,
    `OnRollDiceClicked`). Both render one line per group in the same format and put the lines
    under a heading, with a grand total after a blank line unless the roll was a single die. */
module Results {
  import opened Numerics
  import opened Text
  import opened Grouping

  /** A group's line: `"{name}: {v}"` for one value, otherwise
      `"{name} ({n}x): [{v1}, {v2}, ...] = {total}"`. */
  function GroupLine(name: string, values: seq<int>): string
    requires |values| >= 1
  {
    if |values| == 1 then name + ": " + IntToString(values[0])
    else name + " (" + IntToString(|values|) + "x): [" + Join(", ", IntStrings(values)) + "] = "
         + IntToString(Sum(values))
  }

  /** The overall text: for a single die the single heading and its line; otherwise the heading,
      the lines joined by newlines, and the grand total after its label. The headings are the
      literals of the source, so the multi-line heading ends in a newline and the total's label
      starts with a blank line. */
  function Report(lines: seq<string>, single: bool, total: int,
                  singleHead: string, multiHead: string, totalHead: string): string
    requires single ==> |lines| >= 1
  {
    if single then singleHead + lines[0]
    else multiHead + Join("\n", lines) + totalHead + IntToString(total)
  }

  /** `$"D{group.Sides}"`. */
  function DiceName(sides: int): string {
    "D" + IntToString(sides)
  }

  predicate NonEmptyGroups(groups: seq<DiceGroupResult>) {
    forall i :: 0 <= i < |groups| ==> |groups[i].values| >= 1
  }

  /** The full-screen page's group lines, in group order. */
  function FullScreenLines(groups: seq<DiceGroupResult>): (r: seq<string>)
    requires NonEmptyGroups(groups)
    ensures |r| == |groups|
  {
    if groups == [] then []
    else
      var n := |groups| - 1;
      FullScreenLines(groups[..n]) + [GroupLine(DiceName(groups[n].sides), groups[n].values)]
  }

  /** The lines of the first i + 1 groups are those of the first i and the line of group i. */
  lemma FullScreenLinesPrefix(groups: seq<DiceGroupResult>, i: nat)
    requires NonEmptyGroups(groups) && i < |groups|
    ensures NonEmptyGroups(groups[..i]) && NonEmptyGroups(groups[..i + 1])
    ensures FullScreenLines(groups[..i + 1])
         == FullScreenLines(groups[..i]) + [GroupLine(DiceName(groups[i].sides), groups[i].values)]
  {
    assert groups[..i + 1][..i] == groups[..i];
  }

  /** `_resultsText` as `CreateResultsText` leaves it for the given groups. */
  function FullScreenText(groups: seq<DiceGroupResult>): string
    requires NonEmptyGroups(groups)
  {
    Report(FullScreenLines(groups), |groups| == 1 && |groups[0].values| == 1, GrandTotal(groups),
           "Result: ", "Results:\n", "\n\nGrand Total: ")
  }

  /** The body of the result loops for one group: its total and its line. */
  method FormatGroup(name: string, values: seq<int>) returns (groupResult: string, groupTotal: int)
    requires |values| >= 1
    ensures groupResult == GroupLine(name, values)
    ensures groupTotal == Sum(values)
  {
    groupTotal := Sum(values);
    if |values| == 1 {
      groupResult := name + ": " + IntToString(values[0]);
    } else {
      var individualRolls := Join(", ", IntStrings(values));
      groupResult := name + " (" + IntToString(|values|) + "x): [" + individualRolls + "] = "
                     + IntToString(groupTotal);
    }
  }

  /** `CreateResultsText`: the group lines and the grand total, then the overall text. */
  method FormatResults(groups: seq<DiceGroupResult>) returns (text: string, grandTotal: int)
    requires NonEmptyGroups(groups)
    ensures text == FullScreenText(groups)
    ensures grandTotal == GrandTotal(groups)
  {
    var allResults;
    allResults, grandTotal := FormatLines(groups);
    var single := |groups| == 1 && |groups[0].values| == 1;
    if single {
      text := "Result: " + allResults[0];
    } else {
      text := "Results:\n" + Join("\n", allResults) + "\n\nGrand Total: " + IntToString(grandTotal);
    }
    assert text == Report(allResults, single, grandTotal, "Result: ", "Results:\n", "\n\nGrand Total: ");
  }

  /** The loop of `CreateResultsText`: each group's total is added to the grand total and its
      line to the list. */
  method FormatLines(groups: seq<DiceGroupResult>) returns (allResults: seq<string>, grandTotal: int)
    requires NonEmptyGroups(groups)
    ensures allResults == FullScreenLines(groups)
    ensures grandTotal == GrandTotal(groups)
  {
    allResults := [];
    grandTotal := 0;
    var i := 0;
    while i < |groups|
      invariant 0 <= i <= |groups|
      invariant |allResults| == i
      invariant allResults == FullScreenLines(groups[..i])
      invariant grandTotal == GrandTotal(groups[..i])
    {
      var groupResult, groupTotal := FormatGroup(DiceName(groups[i].sides), groups[i].values);
      GrandTotalPrefix(groups, i);
      FullScreenLinesPrefix(groups, i);
      grandTotal := grandTotal + groupTotal;
      allResults := allResults + [groupResult];
      i := i + 1;
    }
    assert groups[..|groups|] == groups;
  }

  /** A group line holds no newline when its name holds none. */
  lemma GroupLineNoNewline(name: string, values: seq<int>)
    requires |values| >= 1 && '\n' !in name
    ensures '\n' !in GroupLine(name, values)
  {
    if |values| == 1 {
      IntToStringWithout(values[0], '\n');
      Concat3Without(name, ": ", IntToString(values[0]), '\n');
    } else {
      IntToStringWithout(|values|, '\n');
      IntToStringWithout(Sum(values), '\n');
      forall k | 0 <= k < |values|
        ensures '\n' !in IntStrings(values)[k]
      {
        IntToStringWithout(values[k], '\n');
      }
      JoinWithout(", ", IntStrings(values), '\n');
      var front := name + " (" + IntToString(|values|);
      Concat3Without(name, " (", IntToString(|values|), '\n');
      var middle := front + "x): [" + Join(", ", IntStrings(values));
      Concat3Without(front, "x): [", Join(", ", IntStrings(values)), '\n');
      Concat3Without(middle, "] = ", IntToString(Sum(values)), '\n');
    }
  }

  /** A character in none of three strings is not in their concatenation. */
  lemma Concat3Without(a: string, b: string, c: string, x: char)
    requires x !in a && x !in b && x !in c
    ensures x !in a + b + c
  {
  }

  /** Read line by line, a text with a total is its heading, the group lines, a blank line and
      the total line; and the total line's number reads back as the grand total. */
  lemma ReportLines(lines: seq<string>, total: int, singleHead: string, head: string, tag: string)
    requires |lines| >= 1
    requires forall k :: 0 <= k < |lines| ==> '\n' !in lines[k]
    requires '\n' !in head && '\n' !in tag
    ensures Split(Report(lines, false, total, singleHead, head + "\n", "\n\n" + tag), '\n')
         == [head] + lines + ["", tag + IntToString(total)]
    ensures ParseInt((tag + IntToString(total))[|tag|..]) == total
  {
    var last := tag + IntToString(total);
    IntToStringWithout(total, '\n');
    TotalLineSplit(last);
    SplitJoinThen(lines, "\n" + last, '\n');
    var body := Join(['\n'], lines) + ['\n'] + ("\n" + last);
    SplitAt(head, body, '\n');
    ReportWithTotal(lines, total, singleHead, head, tag);
    TotalLineParse(tag, total);
  }

  /** A blank line before a line without newlines splits into the two. */
  lemma TotalLineSplit(last: string)
    requires '\n' !in last
    ensures Split("\n" + last, '\n') == ["", last]
  {
    SplitWithout(last, '\n');
    SplitAt("", last, '\n');
    assert "" + ['\n'] + last == "\n" + last;
  }

  /** A text with a total is its heading line, the joined lines, a blank line and the total line. */
  lemma ReportWithTotal(lines: seq<string>, total: int, singleHead: string, head: string, tag: string)
    ensures Report(lines, false, total, singleHead, head + "\n", "\n\n" + tag)
         == head + ['\n'] + (Join(['\n'], lines) + ['\n'] + ("\n" + (tag + IntToString(total))))
  {
    assert "\n\n" + tag + IntToString(total) == ['\n'] + ("\n" + (tag + IntToString(total)));
    assert "\n" == ['\n'];
  }

  /** The number after the total's label reads back as the total. */
  lemma TotalLineParse(tag: string, total: int)
    ensures ParseInt((tag + IntToString(total))[|tag|..]) == total
  {
    assert (tag + IntToString(total))[|tag|..] == IntToString(total);
    IntToStringRoundTrip(total);
  }

  /** No line of the full-screen page holds a newline. */
  lemma {:induction false} FullScreenLinesNoNewline(groups: seq<DiceGroupResult>)
    requires NonEmptyGroups(groups)
    ensures forall k :: 0 <= k < |groups| ==> '\n' !in FullScreenLines(groups)[k]
  {
    if groups != [] {
      var n := |groups| - 1;
      FullScreenLinesNoNewline(groups[..n]);
      IntToStringWithout(groups[n].sides, '\n');
      GroupLineNoNewline(DiceName(groups[n].sides), groups[n].values);
    }
  }

  lemma FullScreenTextIsReport(groups: seq<DiceGroupResult>)
    requires NonEmptyGroups(groups) && !(|groups| == 1 && |groups[0].values| == 1)
    ensures FullScreenText(groups)
         == Report(FullScreenLines(groups), false, GrandTotal(groups), "Result: ", "Results:" + "\n", "\n\n" + "Grand Total: ")
  {
    assert "Results:\n" == "Results:" + "\n";
    assert "\n\nGrand Total: " == "\n\n" + "Grand Total: ";
  }

  /** The full-screen text read line by line: unless a single die was rolled, it is "Results:",
      one line per group, a blank line and the grand total. */
  lemma FullScreenTextSplit(groups: seq<DiceGroupResult>)
    requires |groups| >= 1 && NonEmptyGroups(groups)
    requires !(|groups| == 1 && |groups[0].values| == 1)
    ensures Split(FullScreenText(groups), '\n')
         == ["Results:"] + FullScreenLines(groups) + ["", "Grand Total: " + IntToString(GrandTotal(groups))]
  {
    FullScreenLinesNoNewline(groups);
    ReportLines(FullScreenLines(groups), GrandTotal(groups), "Result: ", "Results:", "Grand Total: ");
    FullScreenTextIsReport(groups);
  }

  /** The full-screen text of the settled dice, read line by line: unless a single die was rolled,
      it is "Results:", one line per group, a blank line and the grand total, which is the sum of
      every die's final value. */
  lemma FullScreenTextLines(ds: seq<Outcome>)
    requires |ds| >= 1
    requires var groups := GroupBySides(ds); !(|groups| == 1 && |groups[0].values| == 1)
    ensures NonEmptyGroups(GroupBySides(ds))
    ensures Split(FullScreenText(GroupBySides(ds)), '\n')
         == ["Results:"] + FullScreenLines(GroupBySides(ds)) + ["", "Grand Total: " + IntToString(Sum(Values(ds)))]
  {
    GrandTotalIsSum(ds);
    FullScreenTextSplit(GroupBySides(ds));
  }
}
