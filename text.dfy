/** The string operations the result and summary texts are built from: `int.ToString()` in
    the invariant culture, `string.Join` and `string.Split` on one separator character. */
module Text {

  predicate IsDigit(c: char) {
    '0' <= c <= '9'
  }

  function DigitChar(d: nat): (c: char)
    requires d < 10
    ensures IsDigit(c)
    ensures DigitValue(c) == d
  {
    "0123456789"[d]
  }

  function DigitValue(c: char): int
    requires IsDigit(c)
  {
    c as int - '0' as int
  }

  /** The decimal digits of a natural number, most significant first, without leading zeros. */
  function NatToString(n: nat): (s: string)
    ensures |s| >= 1
    ensures forall k :: 0 <= k < |s| ==> IsDigit(s[k])
    ensures s[0] == '0' ==> n == 0
  {
    if n < 10 then [DigitChar(n)] else NatToString(n / 10) + [DigitChar(n % 10)]
  }

  /** `int.ToString()`: a minus sign before the digits of the magnitude when negative. */
  function IntToString(n: int): (s: string)
    ensures |s| >= 1
    ensures forall k :: 0 <= k < |s| ==> IsDigit(s[k]) || s[k] == '-'
    ensures n >= 0 <==> IsDigit(s[0])
  {
    if n < 0 then "-" + NatToString(-n) else NatToString(n)
  }

  /** Reads a string of decimal digits back as a number. */
  function ParseNat(s: string): nat
    requires forall k :: 0 <= k < |s| ==> IsDigit(s[k])
  {
    if s == [] then 0 else 10 * ParseNat(s[..|s| - 1]) + DigitValue(s[|s| - 1])
  }

  /** Reads the text of an int back: an optional minus sign, then digits. */
  function ParseInt(s: string): int
    requires |s| >= 1
    requires s[0] == '-' ==> |s| >= 2
    requires forall k :: 0 < k < |s| ==> IsDigit(s[k])
    requires s[0] == '-' || IsDigit(s[0])
  {
    if s[0] == '-' then -(ParseNat(s[1..]) as int) else ParseNat(s)
  }

  lemma {:induction false} ParseNatToString(n: nat)
    ensures ParseNat(NatToString(n)) == n
  {
    if n >= 10 {
      var s := NatToString(n);
      assert s[..|s| - 1] == NatToString(n / 10);
      ParseNatToString(n / 10);
    }
  }

  /** The text of an int reads back as that int. */
  lemma IntToStringRoundTrip(n: int)
    ensures ParseInt(IntToString(n)) == n
  {
    if n < 0 {
      assert IntToString(n)[1..] == NatToString(-n);
      ParseNatToString(-n);
    } else {
      ParseNatToString(n);
    }
  }

  /** Different ints have different texts. */
  lemma IntToStringInjective(a: int, b: int)
    requires IntToString(a) == IntToString(b)
    ensures a == b
  {
    IntToStringRoundTrip(a);
    IntToStringRoundTrip(b);
  }

  /** `string.Join(sep, parts)`. */
  function Join(sep: string, parts: seq<string>): string {
    if |parts| == 0 then ""
    else if |parts| == 1 then parts[0]
    else parts[0] + sep + Join(sep, parts[1..])
  }

  /** `s.Split(c)`: the pieces between occurrences of c, in order; an empty string gives one empty piece. */
  function Split(s: string, c: char): (r: seq<string>)
    ensures |r| >= 1
  {
    if s == [] then [""]
    else
      var rest := Split(s[1..], c);
      if s[0] == c then [""] + rest else [[s[0]] + rest[0]] + rest[1..]
  }

  /** The texts of ints, as `string.Join` renders an int list. */
  function IntStrings(values: seq<int>): (r: seq<string>)
    ensures |r| == |values|
    ensures forall k :: 0 <= k < |values| ==> r[k] == IntToString(values[k])
  {
    if values == [] then [] else [IntToString(values[0])] + IntStrings(values[1..])
  }

  lemma {:induction false} SplitWithout(a: string, c: char)
    requires c !in a
    ensures Split(a, c) == [a]
  {
    if a != [] {
      SplitWithout(a[1..], c);
      assert [a[0]] + a[1..] == a;
    }
  }

  lemma {:induction false} SplitAt(a: string, b: string, c: char)
    requires c !in a
    ensures Split(a + [c] + b, c) == [a] + Split(b, c)
  {
    var s := a + [c] + b;
    if a == [] {
      assert s[1..] == b;
    } else {
      assert s[1..] == a[1..] + [c] + b;
      SplitAt(a[1..], b, c);
      assert [a[0]] + a[1..] == a;
    }
  }

  /** A join of two or more parts followed by a separator and a tail is the first part, the
      separator, and the join of the rest followed by the separator and the tail. */
  lemma JoinThenCons(parts: seq<string>, tail: string, c: char)
    requires |parts| >= 2
    ensures Join([c], parts) + [c] + tail == parts[0] + [c] + (Join([c], parts[1..]) + [c] + tail)
  {
    var x := parts[0] + [c];
    var rest := Join([c], parts[1..]);
    assert Join([c], parts) == x + rest;
    assert x + rest + [c] == x + (rest + [c]);
    assert x + (rest + [c]) + tail == x + (rest + [c] + tail);
  }

  /** A list that is a head before a middle, where the middle is a front before a back, is the head
      and the front followed by the back. Kept apart so that the sequence reasoning stays small. */
  lemma ConsChain(whole: seq<string>, middle: seq<string>, head: string, front: seq<string>,
                  back: seq<string>, all: seq<string>)
    requires whole == [head] + middle && middle == front + back && all == [head] + front
    ensures whole == all + back
  {
  }

  /** Splitting a joined list followed by a separator and a tail gives the parts back, then the tail's pieces. */
  lemma {:induction false} SplitJoinThen(parts: seq<string>, tail: string, c: char)
    requires |parts| >= 1
    requires forall k :: 0 <= k < |parts| ==> c !in parts[k]
    ensures Split(Join([c], parts) + [c] + tail, c) == parts + Split(tail, c)
  {
    if |parts| == 1 {
      SplitAt(parts[0], tail, c);
    } else {
      var rest := Join([c], parts[1..]);
      JoinThenCons(parts, tail, c);
      SplitAt(parts[0], rest + [c] + tail, c);
      SplitJoinThen(parts[1..], tail, c);
      assert parts == [parts[0]] + parts[1..];
      ConsChain(Split(parts[0] + [c] + (rest + [c] + tail), c), Split(rest + [c] + tail, c),
                parts[0], parts[1..], Split(tail, c), parts);
    }
  }

  /** `string.Join` with a one-character separator and `Split` on it are inverse when no part holds it. */
  lemma SplitJoin(parts: seq<string>, c: char)
    requires |parts| >= 1
    requires forall k :: 0 <= k < |parts| ==> c !in parts[k]
    ensures Split(Join([c], parts), c) == parts
  {
    if |parts| == 1 {
      SplitWithout(parts[0], c);
    } else {
      var rest := Join([c], parts[1..]);
      assert Join([c], parts) == parts[0] + [c] + rest;
      SplitAt(parts[0], rest, c);
      SplitJoin(parts[1..], c);
      assert [parts[0]] + parts[1..] == parts;
    }
  }

  /** A separator character that occurs in no part and not in the separator string is absent from the join. */
  lemma {:induction false} JoinWithout(sep: string, parts: seq<string>, c: char)
    requires c !in sep
    requires forall k :: 0 <= k < |parts| ==> c !in parts[k]
    ensures c !in Join(sep, parts)
  {
    if |parts| > 1 {
      JoinWithout(sep, parts[1..], c);
    }
  }

  /** The text of an int holds only digits and a minus sign, so no newline, comma or bracket. */
  lemma IntToStringWithout(n: int, c: char)
    requires !IsDigit(c) && c != '-'
    ensures c !in IntToString(n)
  {
  }
}
