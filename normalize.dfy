// The three normalizing steps of the balloon layout (main.go:53-88):
// tab expansion, the content width, and right-padding to that width.
// Each Go function is a loop that builds a local result; here each is a
// method with loop invariants, proved against a function that specifies it.

module Normalize {
  import opened Text

  const Tab: char := '\t'
  const Space: char := ' '

  // ---------------------------------------------------------------------
  // tabsToSpaces

  /** `strings.Replace(l, "\t", "    ", -1)`: every tab becomes exactly four
      spaces. No tab is left, and the only character that can appear that
      was not there before is the space. */
  function ExpandTabs(s: string): (r: string)
    ensures Tab !in r
    ensures forall c :: c in r ==> c in s || c == Space
  {
    if |s| == 0 then []
    else (if s[0] == Tab then [Space, Space, Space, Space] else [s[0]]) + ExpandTabs(s[1..])
  }

  /** The line grows by exactly three characters per tab. */
  lemma {:induction false} ExpandTabsLength(s: string)
    ensures |ExpandTabs(s)| == |s| + 3 * multiset(s)[Tab]
  {
    if |s| > 0 {
      ExpandTabsLength(s[1..]);
      assert s == [s[0]] + s[1..];
      assert multiset(s) == multiset{s[0]} + multiset(s[1..]);
    }
  }

  /** Tab expansion works character by character: it distributes over
      concatenation, and on one character it is the identity except on a
      tab, which becomes four spaces. These two facts determine it. */
  lemma {:induction false} ExpandTabsAppend(a: string, b: string)
    ensures ExpandTabs(a + b) == ExpandTabs(a) + ExpandTabs(b)
  {
    if |a| == 0 {
      assert a + b == b;
    } else {
      var head := if a[0] == Tab then [Space, Space, Space, Space] else [a[0]];
      assert (a + b)[0] == a[0];
      assert (a + b)[1..] == a[1..] + b;
      ExpandTabsAppend(a[1..], b);
      calc {
        ExpandTabs(a + b);
        head + ExpandTabs(a[1..] + b);
        head + (ExpandTabs(a[1..]) + ExpandTabs(b));
        (head + ExpandTabs(a[1..])) + ExpandTabs(b);
        ExpandTabs(a) + ExpandTabs(b);
      }
    }
  }

  lemma ExpandTabsChar(c: char)
    ensures ExpandTabs([c]) == if c == Tab then "    " else [c]
  {
    assert [c][1..] == [];
  }

  /** A line without tabs is left as it is. */
  lemma {:induction false} ExpandTabsNoTab(s: string)
    requires Tab !in s
    ensures ExpandTabs(s) == s
  {
    if |s| > 0 {
      ExpandTabsNoTab(s[1..]);
      assert [s[0]] + s[1..] == s;
    }
  }

  /** The lines with their tabs expanded, one for one and in order. */
  function ExpandAll(lines: seq<string>): (r: seq<string>)
  {
    seq(|lines|, i requires 0 <= i < |lines| => ExpandTabs(lines[i]))
  }

  /** tabsToSpaces (main.go:55-62): one output line per input line, in
      order, each its input line with the tabs expanded; no tab remains. */
  method TabsToSpaces(lines: seq<string>) returns (result: seq<string>)
    ensures result == ExpandAll(lines)
    ensures forall i :: 0 <= i < |result| ==> Tab !in result[i]
  {
    result := [];
    for i := 0 to |lines|
      invariant result == ExpandAll(lines[..i])
    {
      assert lines[..i + 1] == lines[..i] + [lines[i]];
      var l := ExpandTabs(lines[i]);
      result := result + [l];
    }
    assert lines[..|lines|] == lines;
  }

  // ---------------------------------------------------------------------
  // calculateMaxWidth

  /** The content width: the running maximum of the line lengths, taken
      from the first line to the last and starting at 0. It is at least
      every line's length, and it is the length of one of the lines unless
      there are none, when it is 0. */
  function MaxWidth(lines: seq<string>): (w: nat)
    ensures forall i :: 0 <= i < |lines| ==> |lines[i]| <= w
    ensures |lines| == 0 ==> w == 0
    ensures |lines| > 0 ==> exists i :: 0 <= i < |lines| && w == |lines[i]|
  {
    if |lines| == 0 then 0
    else
      var before := MaxWidth(lines[..|lines| - 1]);
      var last := |lines[|lines| - 1]|;
      if last > before then last else before
  }

  /** Any two values that bound every line and are some line's length are
      equal, so the ensures of MaxWidth define it completely. */
  lemma MaxWidthUnique(lines: seq<string>, w: int)
    requires forall i :: 0 <= i < |lines| ==> |lines[i]| <= w
    requires exists i :: 0 <= i < |lines| && w == |lines[i]|
    ensures w == MaxWidth(lines)
  {
    var j :| 0 <= j < |lines| && w == |lines[j]|;
    var k :| 0 <= k < |lines| && MaxWidth(lines) == |lines[k]|;
    assert |lines[k]| <= w;
    assert |lines[j]| <= MaxWidth(lines);
  }

  /** calculateMaxWidth (main.go:65-77): the longest line, in code points. */
  method CalculateMaxWidth(lines: seq<string>) returns (width: int)
    ensures width == MaxWidth(lines)
    ensures width >= 0
    ensures forall i :: 0 <= i < |lines| ==> |lines[i]| <= width
    ensures |lines| > 0 ==> exists i :: 0 <= i < |lines| && width == |lines[i]|
  {
    width := 0;
    for i := 0 to |lines|
      invariant width == MaxWidth(lines[..i])
    {
      assert lines[..i + 1][..i] == lines[..i];
      var len := |lines[i]|;
      if len > width {
        width := len;
      }
    }
    assert lines[..|lines|] == lines;
  }

  // ---------------------------------------------------------------------
  // normalizeStringsLength

  /** `line + strings.Repeat(" ", width - len(line))`: the line, right-padded
      with spaces to exactly `width` characters. Go panics if the line is
      longer than `width`, hence the precondition. */
  function PadRight(line: string, width: int): (r: string)
    requires |line| <= width
    ensures |r| == width
    ensures r[..|line|] == line
    ensures forall j :: |line| <= j < width ==> r[j] == Space
  {
    line + Repeat(Space, width - |line|)
  }

  /** The three ensures of PadRight leave no freedom: any string of the
      right length, starting with the line and then only spaces, is it. */
  lemma PadRightUnique(line: string, width: int, r: string)
    requires |line| <= width
    requires |r| == width
    requires r[..|line|] == line
    requires forall j :: |line| <= j < width ==> r[j] == Space
    ensures r == PadRight(line, width)
  {
    var p := PadRight(line, width);
    forall j | 0 <= j < width
      ensures r[j] == p[j]
    {
      if j < |line| {
        assert r[j] == r[..|line|][j] && p[j] == p[..|line|][j];
      }
    }
  }

  /** A line already of full width is not changed by padding. */
  lemma PadRightFull(line: string)
    ensures PadRight(line, |line|) == line
  {
    assert PadRight(line, |line|)[..|line|] == line;
  }

  /** Every line fits into `width`. */
  ghost predicate FitsWithin(lines: seq<string>, width: int)
  {
    forall i :: 0 <= i < |lines| ==> |lines[i]| <= width
  }

  /** The lines, each right-padded to `width`, one for one and in order. */
  function Padded(lines: seq<string>, width: int): (r: seq<string>)
    requires FitsWithin(lines, width)
  {
    seq(|lines|, i requires 0 <= i < |lines| => PadRight(lines[i], width))
  }

  /** normalizeStringsLength (main.go:80-88): one output line per input
      line, each exactly `maxwidth` long, beginning with its input line and
      continuing with spaces only. */
  method NormalizeStringsLength(lines: seq<string>, maxwidth: int) returns (result: seq<string>)
    requires FitsWithin(lines, maxwidth)
    ensures result == Padded(lines, maxwidth)
    ensures |result| == |lines|
    ensures forall i :: 0 <= i < |lines| ==>
              |result[i]| == maxwidth && result[i][..|lines[i]|] == lines[i]
    ensures forall i, j :: 0 <= i < |lines| && |lines[i]| <= j < maxwidth ==> result[i][j] == Space
  {
    result := [];
    for i := 0 to |lines|
      invariant |result| == i
      invariant forall k :: 0 <= k < i ==> result[k] == PadRight(lines[k], maxwidth)
    {
      var line := lines[i];
      var s := line + Repeat(Space, maxwidth - |line|);
      result := result + [s];
    }
  }
}
