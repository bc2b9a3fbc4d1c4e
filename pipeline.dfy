// The balloon pipeline of main (main.go:163-166): expand tabs, take the
// content width, pad every line to it, and frame the padded lines.

module Pipeline {
  import opened Text
  import opened Normalize
  import opened Balloon

  /** What running the pipeline on the collected lines yields: the balloon
      text, or the runtime panic buildBalloon raises when it indexes the
      first line of an empty slice (main.go:38). */
  datatype Outcome = Rendered(text: string) | IndexPanic

  /** The content width: the widest line once its tabs are expanded. */
  function ContentWidth(input: seq<string>): nat
  {
    MaxWidth(ExpandAll(input))
  }

  /** The rows of the balloon built from a non-empty input. */
  function RenderRows(input: seq<string>): seq<string>
    requires |input| >= 1
  {
    var w := ContentWidth(input);
    BalloonRows(Padded(ExpandAll(input), w), w)
  }

  function Render(input: seq<string>): Outcome
  {
    if |input| == 0 then IndexPanic else Rendered(Join(RenderRows(input)))
  }

  /** Lines 163-166 of main, one Go call per step. It panics exactly when
      no line was read. */
  method Say(input: seq<string>) returns (outcome: Outcome)
    ensures outcome == Render(input)
    ensures outcome == IndexPanic <==> |input| == 0
  {
    var lines := TabsToSpaces(input);
    var maxWidth := CalculateMaxWidth(lines);
    var messages := NormalizeStringsLength(lines, maxWidth);
    if |messages| == 0 {
      // buildBalloon(messages, maxWidth) indexes messages[0]
      return IndexPanic;
    }
    var balloon := BuildBalloon(messages, maxWidth);
    return Rendered(balloon);
  }

  /** After normalization every line has exactly the content width, and
      that width is the true maximum of the tab-expanded line lengths: at
      least each of them and equal to one of them. */
  lemma {:induction false} NormalizedWidth(input: seq<string>)
    requires |input| >= 1
    ensures var w := ContentWidth(input);
      var lines := Padded(ExpandAll(input), w);
      && |lines| == |input|
      && (forall i :: 0 <= i < |input| ==>
            |lines[i]| == w && lines[i][..|ExpandTabs(input[i])|] == ExpandTabs(input[i]))
      && (forall i :: 0 <= i < |input| ==> |ExpandTabs(input[i])| <= w)
      && (exists i :: 0 <= i < |input| && |ExpandTabs(input[i])| == w)
  {
    var e := ExpandAll(input);
    var w := ContentWidth(input);
    assert forall i :: 0 <= i < |input| ==> e[i] == ExpandTabs(input[i]);
    var k :| 0 <= k < |e| && w == |e[k]|;
    assert |ExpandTabs(input[k])| == w;
  }

  /** The rendered balloon is the top border, one body row per input line
      and the bottom border. Both borders are `width + 3` long; every body
      row is `width + 4` long, so all body rows have the same length; and
      body row k carries input line k, tabs expanded, after its left glyph
      and a space. */
  lemma {:induction false} UniformBalloon(input: seq<string>)
    requires |input| >= 1
    ensures var w := ContentWidth(input);
      var body := Body(Padded(ExpandAll(input), w));
      && RenderRows(input) == [Top(w)] + body + [Bottom(w)]
      && |Top(w)| == w + 3 && |Bottom(w)| == w + 3
      && |body| == |input|
      && (forall k :: 0 <= k < |body| ==> |body[k]| == w + 4)
      && (forall k :: 0 <= k < |body| ==>
            body[k][2..2 + |ExpandTabs(input[k])|] == ExpandTabs(input[k]))
  {
    var w := ContentWidth(input);
    var e := ExpandAll(input);
    var lines := Padded(e, w);
    var body := Body(lines);
    forall k | 0 <= k < |body|
      ensures |body[k]| == w + 4
      ensures body[k][2..2 + |ExpandTabs(input[k])|] == ExpandTabs(input[k])
    {
      var p := PositionOf(|lines|, k);
      assert body[k] == Frame(LeftGlyph(p), lines[k], RightGlyph(p));
      BodyRowCarries(e[k], lines[k], body[k], w);
    }
  }

  /** A body row built from a line padded to `w` is `w + 4` long and holds
      the unpadded line right after its left glyph and a space. */
  lemma BodyRowCarries(line: string, padded: string, row: string, w: int)
    requires |line| <= w && padded == PadRight(line, w)
    requires |row| == |padded| + 4 && row[2..|padded| + 2] == padded
    ensures |row| == w + 4
    ensures row[2..2 + |line|] == line
  {
    assert row[2..2 + |line|] == row[2..w + 2][..|line|];
  }

  /** The rendered text is `|input| + 2` newline-separated rows, exactly the
      rows of the balloon, when no input line holds a newline (as is the
      case for lines read with `ReadLine`). */
  lemma {:induction false} RenderedRows(input: seq<string>)
    requires |input| >= 1
    requires forall i :: 0 <= i < |input| ==> Newline !in input[i]
    ensures Render(input).Rendered?
    ensures Split(Render(input).text) == RenderRows(input)
    ensures |Split(Render(input).text)| == |input| + 2
  {
    var w := ContentWidth(input);
    var e := ExpandAll(input);
    var lines := Padded(e, w);
    forall i | 0 <= i < |lines|
      ensures Newline !in lines[i]
    {
      assert e[i] == ExpandTabs(input[i]);
    }
    BalloonRowsSplit(lines, w);
    BalloonShape(lines, w);
  }
}
