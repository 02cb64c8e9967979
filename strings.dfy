/**
 * String helpers that stand for the Python built-ins the agent relies on:
 * `sep.join(items)`, `str(n)` of a natural number and the quoting done by
 * `repr` on a string.
 */
module Strings {

  /** `x` occurs in `text` starting at index `at`. */
  predicate FoundAt(text: string, x: string, at: nat) {
    at + |x| <= |text| && text[at..at + |x|] == x
  }

  /** `sep.join(xs)`: the items in order with `sep` between neighbours. */
  function Join(sep: string, xs: seq<string>): string
    decreases |xs|
  {
    if |xs| == 0 then ""
    else if |xs| == 1 then xs[0]
    else xs[0] + sep + Join(sep, xs[1..])
  }

  /** Where item `i` starts inside `Join(sep, xs)`. */
  function JoinOffset(sep: string, xs: seq<string>, i: nat): nat
    requires i < |xs|
    decreases i
  {
    if i == 0 then 0 else |xs[0]| + |sep| + JoinOffset(sep, xs[1..], i - 1)
  }

  /** Every item of a join can be found, verbatim, at its offset: nothing is dropped or altered. */
  lemma {:induction false} JoinAt(sep: string, xs: seq<string>, i: nat)
    requires i < |xs|
    ensures JoinOffset(sep, xs, i) + |xs[i]| <= |Join(sep, xs)|
    ensures Join(sep, xs)[JoinOffset(sep, xs, i)..JoinOffset(sep, xs, i) + |xs[i]|] == xs[i]
    decreases i
  {
    if i == 0 {
      if |xs| > 1 {
        assert Join(sep, xs) == xs[0] + (sep + Join(sep, xs[1..]));
      }
    } else {
      JoinAt(sep, xs[1..], i - 1);
      var rest := Join(sep, xs[1..]);
      var pre := xs[0] + sep;
      assert Join(sep, xs) == pre + rest;
      var o := JoinOffset(sep, xs[1..], i - 1);
      assert JoinOffset(sep, xs, i) == |pre| + o;
      assert (pre + rest)[|pre| + o..|pre| + o + |xs[i]|] == rest[o..o + |xs[i]|];
    }
  }

  /** Consecutive items of a join are separated by exactly one `sep`. */
  lemma {:induction false} JoinNext(sep: string, xs: seq<string>, i: nat)
    requires i + 1 < |xs|
    ensures JoinOffset(sep, xs, i + 1) == JoinOffset(sep, xs, i) + |xs[i]| + |sep|
    ensures FoundAt(Join(sep, xs), sep, JoinOffset(sep, xs, i) + |xs[i]|)
    decreases i
  {
    var pre := xs[0] + sep;
    var rest := Join(sep, xs[1..]);
    assert Join(sep, xs) == pre + rest;
    if i == 0 {
      assert (pre + rest)[|xs[0]|..|xs[0]| + |sep|] == sep;
    } else {
      JoinNext(sep, xs[1..], i - 1);
      var o := JoinOffset(sep, xs[1..], i - 1) + |xs[i]|;
      FoundInMiddle(pre, rest, "", sep, o);
      assert pre + rest + "" == pre + rest;
    }
  }

  /** A slice inside the middle part of a concatenation is a slice of that part. */
  lemma SliceMiddle<T>(a: seq<T>, b: seq<T>, c: seq<T>, lo: nat, n: nat)
    requires lo + n <= |b|
    ensures (a + b + c)[|a| + lo..|a| + lo + n] == b[lo..lo + n]
  {
    var x := (a + b + c)[|a| + lo..|a| + lo + n];
    assert |x| == n;
    forall k | 0 <= k < n
      ensures x[k] == b[lo + k]
    {
      assert x[k] == (a + b + c)[|a| + lo + k];
    }
  }

  /** What is found in the middle part of a concatenation is found in the whole, shifted by the first part. */
  lemma FoundInMiddle(a: string, b: string, c: string, x: string, at: nat)
    requires FoundAt(b, x, at)
    ensures FoundAt(a + b + c, x, |a| + at)
  {
    SliceMiddle(a, b, c, at, |x|);
  }

  /** What is found in a part found in `text` is found in `text`, at the sum of the offsets. */
  lemma FoundWithin(text: string, part: string, x: string, at: nat, inner: nat)
    requires FoundAt(text, part, at) && FoundAt(part, x, inner)
    ensures FoundAt(text, x, at + inner)
  {
    FoundInMiddle(text[..at], part, text[at + |part|..], x, inner);
    assert text[..at] + part + text[at + |part|..] == text;
  }

  /** Where each part of a three-part concatenation lies. */
  lemma ThreeParts<T>(a: seq<T>, b: seq<T>, c: seq<T>)
    ensures a <= a + b + c
    ensures |a + b + c| == |a| + |b| + |c|
    ensures (a + b + c)[|a|..|a| + |b|] == b
    ensures (a + b + c)[|a| + |b|..] == c
  {
    SliceMiddle(a, b, c, 0, |b|);
    assert (a + b + c)[|a| + |b|..] == c;
  }

  /** The first item opens the join. */
  lemma JoinFirst(sep: string, xs: seq<string>)
    requires |xs| > 0
    ensures xs[0] <= Join(sep, xs)
  {
    JoinAt(sep, xs, 0);
  }

  /** The decimal digit for `d`. */
  function Digit(d: nat): char
    requires d < 10
  {
    ('0' as int + d) as char
  }

  /** `str(n)` for a natural number: its decimal digits, most significant first. */
  function NatToString(n: nat): (r: string)
    ensures |r| > 0
    ensures forall i :: 0 <= i < |r| ==> '0' <= r[i] <= '9'
    ensures |r| > 1 ==> r[0] != '0'
  {
    if n < 10 then [Digit(n)] else NatToString(n / 10) + [Digit(n % 10)]
  }

  /** The value of a string of decimal digits: the reading partner of NatToString. */
  function DecimalValue(s: string): nat
    requires forall i :: 0 <= i < |s| ==> '0' <= s[i] <= '9'
  {
    if |s| == 0 then 0
    else 10 * DecimalValue(s[..|s| - 1]) + (s[|s| - 1] as int - '0' as int)
  }

  /** Reading back the decimal rendering of `n` gives `n`. */
  lemma {:induction false} DecimalRoundTrip(n: nat)
    ensures DecimalValue(NatToString(n)) == n
  {
    if n >= 10 {
      DecimalRoundTrip(n / 10);
      var r := NatToString(n);
      assert r[..|r| - 1] == NatToString(n / 10);
    }
  }

  /** The single quotes `repr` puts around a string (escaping is not modelled). */
  function Quote(s: string): (r: string)
    ensures |r| == |s| + 2 && r[0] == '\'' && r[|r| - 1] == '\'' && r[1..|r| - 1] == s
  {
    "'" + s + "'"
  }

  /** How Python prints a list whose items print as `items`: bracketed and comma-separated. */
  function ListText(items: seq<string>): string {
    "[" + Join(", ", items) + "]"
  }

  /** How Python prints a pair whose parts print as `a` and `b`. */
  function PairText(a: string, b: string): string {
    "(" + a + ", " + b + ")"
  }

  /** `repr` of a list of strings, as an f-string shows a Python list. */
  function ShowList(xs: seq<string>): string {
    ListText(QuoteAll(xs))
  }

  function QuoteAll(xs: seq<string>): (r: seq<string>)
    ensures |r| == |xs| && forall i :: 0 <= i < |xs| ==> r[i] == Quote(xs[i])
  {
    if |xs| == 0 then [] else [Quote(xs[0])] + QuoteAll(xs[1..])
  }

  /**
   * Inside a printed list, item `i` (here `x`) sits at its place after the
   * opening bracket and is followed by ", " unless it is last.
   */
  lemma ListTextShows(text: string, items: seq<string>, x: string, i: nat)
    requires text == ListText(items) && i < |items| && items[i] == x
    ensures FoundAt(text, x, 1 + JoinOffset(", ", items, i))
    ensures i + 1 < |items| ==> JoinOffset(", ", items, i + 1) == JoinOffset(", ", items, i) + |x| + 2
    ensures i + 1 < |items| ==> FoundAt(text, ", ", 1 + JoinOffset(", ", items, i) + |x|)
  {
    var joined := Join(", ", items);
    var off := JoinOffset(", ", items, i);
    JoinAt(", ", items, i);
    FoundInMiddle("[", joined, "]", x, off);
    if i + 1 < |items| {
      JoinNext(", ", items, i);
      FoundInMiddle("[", joined, "]", ", ", off + |x|);
    }
  }

  /**
   * The printed list shows every item quoted, at its place between the
   * brackets, and neighbouring items separated by ", ".
   */
  lemma {:induction false} ShowListShows(xs: seq<string>, i: nat)
    requires i < |xs|
    ensures FoundAt(ShowList(xs), Quote(xs[i]), 1 + JoinOffset(", ", QuoteAll(xs), i))
    ensures i + 1 < |xs| ==> JoinOffset(", ", QuoteAll(xs), i + 1) == JoinOffset(", ", QuoteAll(xs), i) + |Quote(xs[i])| + 2
    ensures i + 1 < |xs| ==> FoundAt(ShowList(xs), ", ", 1 + JoinOffset(", ", QuoteAll(xs), i) + |Quote(xs[i])|)
  {
    ListTextShows(ShowList(xs), QuoteAll(xs), Quote(xs[i]), i);
  }

  /** A printed pair shows its first part after "(" and its second after the ", " that follows. */
  lemma PairTextShows(text: string, a: string, b: string)
    requires text == PairText(a, b)
    ensures FoundAt(text, a, 1)
    ensures FoundAt(text, ", ", 1 + |a|)
    ensures FoundAt(text, b, |a| + 3)
  {
    assert text == "(" + a + (", " + b + ")");
    FoundInMiddle("(", a, ", " + b + ")", a, 0);
    assert text == "(" + a + ", " + b + ")";
    FoundInMiddle("(" + a, ", ", b + ")", ", ", 0);
    assert text == ("(" + a + ", ") + b + ")";
    FoundInMiddle("(" + a + ", ", b, ")", b, 0);
  }

  /** Two pieces found one right after the other form their concatenation. */
  lemma FoundNext(text: string, x: string, y: string, at: nat)
    requires FoundAt(text, x, at) && FoundAt(text, y, at + |x|)
    ensures FoundAt(text, x + y, at)
  {
    assert text[at..at + |x| + |y|] == text[at..at + |x|] + text[at + |x|..at + |x| + |y|];
  }

  /** Inside a printed list, neighbouring items are printed next to each other with ", " between. */
  lemma ListTextNeighbours(text: string, items: seq<string>, i: nat)
    requires text == ListText(items) && i + 1 < |items|
    ensures FoundAt(text, items[i] + ", " + items[i + 1], 1 + JoinOffset(", ", items, i))
  {
    var at := 1 + JoinOffset(", ", items, i);
    ListTextShows(text, items, items[i], i);
    ListTextShows(text, items, items[i + 1], i + 1);
    FoundNext(text, items[i], ", ", at);
    FoundNext(text, items[i] + ", ", items[i + 1], at);
  }

  /** Inside a printed list, the printed pair at item `i` shows its two parts with ", " between. */
  lemma ListOfPairsShows(text: string, items: seq<string>, a: string, b: string, i: nat)
    requires text == ListText(items) && i < |items| && items[i] == PairText(a, b)
    ensures FoundAt(text, a + ", " + b, 2 + JoinOffset(", ", items, i))
  {
    var at := 1 + JoinOffset(", ", items, i);
    ListTextShows(text, items, items[i], i);
    PairTextShows(items[i], a, b);
    FoundNext(items[i], a, ", ", 1);
    FoundNext(items[i], a + ", ", b, 1);
    FoundWithin(text, items[i], a + ", " + b, at, 1);
  }
}
