// The balloon frame (buildBalloon, main.go:17-51): a top border, one body
// row per line framed by glyphs that depend on the line's position, and a
// bottom border, joined by newlines.

module Balloon {
  import opened Text

  /** The border glyphs, indexed as the Go code indexes its `borders`
      slice: 0 and 1 frame the first line, 2 and 3 the last, 4 an interior
      line on both sides, 5 and 6 a single line. */
  const Borders: seq<char> := ['/', '\\', '\\', '/', '|', '<', '>']

  /** Where a line stands among the lines of the balloon. */
  datatype Position = Single | First | Interior | Last

  function PositionOf(count: nat, i: nat): Position
    requires i < count
  {
    if count == 1 then Single
    else if i == 0 then First
    else if i == count - 1 then Last
    else Interior
  }

  function LeftGlyph(p: Position): char
  {
    match p
    case Single => '<'
    case First => '/'
    case Interior => '|'
    case Last => '\\'
  }

  function RightGlyph(p: Position): char
  {
    match p
    case Single => '>'
    case First => '\\'
    case Interior => '|'
    case Last => '/'
  }

  /** `fmt.Sprintf("%s %s %s", left, line, right)`: the line between two
      glyphs, one space of padding on each side. */
  function Frame(left: char, line: string, right: char): (row: string)
    ensures |row| == |line| + 4
    ensures row[0] == left && row[1] == ' '
    ensures row[2..|line| + 2] == line
    ensures row[|line| + 2] == ' ' && row[|line| + 3] == right
  {
    [left, ' '] + line + [' ', right]
  }

  /** A border row: a space, then `width + 2` copies of the glyph, so
      `width + 3` characters in all (main.go:28-29). */
  function Border(glyph: char, width: int): (b: string)
    requires width + 2 >= 0
    ensures |b| == width + 3 && b[0] == ' '
    ensures forall j :: 1 <= j < |b| ==> b[j] == glyph
  {
    " " + Repeat(glyph, width + 2)
  }

  /** The top border, drawn with underscores. */
  function Top(width: int): string
    requires width + 2 >= 0
  {
    Border('_', width)
  }

  /** The bottom border, drawn with hyphens. */
  function Bottom(width: int): string
    requires width + 2 >= 0
  {
    Border('-', width)
  }

  /** The body: each line framed by the glyphs of its position. */
  function Body(lines: seq<string>): seq<string>
  {
    seq(|lines|, i requires 0 <= i < |lines| =>
      Frame(LeftGlyph(PositionOf(|lines|, i)), lines[i], RightGlyph(PositionOf(|lines|, i))))
  }

  /** All rows of the balloon, top to bottom. */
  function BalloonRows(lines: seq<string>, width: int): seq<string>
    requires width + 2 >= 0
  {
    [Top(width)] + Body(lines) + [Bottom(width)]
  }

  /** buildBalloon (main.go:21-51). Go indexes `lines[0]` on both branches,
      so an empty slice makes it panic; and `strings.Repeat` panics when
      `maxwidth + 2` is negative. */
  method BuildBalloon(lines: seq<string>, maxwidth: int) returns (balloon: string)
    requires |lines| >= 1
    requires maxwidth + 2 >= 0
    ensures balloon == Join(BalloonRows(lines, maxwidth))
  {
    var count := |lines|;
    var result: seq<string> := [];
    var top := " " + Repeat('_', maxwidth + 2);
    var bottom := " " + Repeat('-', maxwidth + 2);
    result := result + [top];
    ghost var body := Body(lines);
    if count == 1 {
      var s := Frame(Borders[5], lines[0], Borders[6]);
      result := result + [s];
      assert result == [top] + body;
    } else {
      var s := Frame(Borders[0], lines[0], Borders[1]);
      result := result + [s];
      var i := 1;
      while i < count - 1
        invariant 1 <= i <= count - 1
        invariant result == [top] + body[..i]
      {
        s := Frame(Borders[4], lines[i], Borders[4]);
        assert body[..i + 1] == body[..i] + [s];
        result := result + [s];
        i := i + 1;
      }
      s := Frame(Borders[2], lines[i], Borders[3]);
      assert body == body[..i] + [s];
      result := result + [s];
      assert result == [top] + body;
    }
    result := result + [bottom];
    balloon := Join(result);
  }

  /** The source picks its glyphs from `borders` by index; each index
      holds the glyph that the position's frame uses on that side. */
  lemma BordersByPosition()
    ensures |Borders| == 7
    ensures Borders[0] == LeftGlyph(First) && Borders[1] == RightGlyph(First)
    ensures Borders[2] == LeftGlyph(Last) && Borders[3] == RightGlyph(Last)
    ensures Borders[4] == LeftGlyph(Interior) && Borders[4] == RightGlyph(Interior)
    ensures Borders[5] == LeftGlyph(Single) && Borders[6] == RightGlyph(Single)
  {
  }

  /** Shape of every balloon: `count + 2` rows, the top border first, the
      bottom border last, and between them one body row per line, in
      order, four longer than its line and holding it after two glyphs. */
  lemma BalloonShape(lines: seq<string>, width: int)
    requires width + 2 >= 0
    ensures var rows := BalloonRows(lines, width);
      && |rows| == |lines| + 2
      && rows[0] == Top(width)
      && rows[|lines| + 1] == Bottom(width)
      && (forall k :: 0 <= k < |lines| ==>
            |rows[k + 1]| == |lines[k]| + 4 && rows[k + 1][2..|lines[k]| + 2] == lines[k])
  {
  }

  /** With exactly one line L, the one body row is "< L >". */
  lemma SingleLineBalloon(line: string, width: int)
    requires width + 2 >= 0
    ensures var rows := BalloonRows([line], width);
      |rows| == 3 && rows[1] == "< " + line + " >"
  {
  }

  /** With two or more lines the body rows, in input order, are "/ L0 \"
      for the first, "| Li |" for each interior line and "\ Ln-1 /" for
      the last. */
  lemma MultiLineBalloon(lines: seq<string>, width: int)
    requires width + 2 >= 0
    requires |lines| >= 2
    ensures var rows := BalloonRows(lines, width);
      && rows[1] == "/ " + lines[0] + " \\"
      && (forall i :: 1 <= i < |lines| - 1 ==> rows[i + 1] == "| " + lines[i] + " |")
      && rows[|lines|] == "\\ " + lines[|lines| - 1] + " /"
  {
    var rows := BalloonRows(lines, width);
    var n := |lines|;
    assert rows[1] == Frame('/', lines[0], '\\');
    forall i | 1 <= i < n - 1
      ensures rows[i + 1] == "| " + lines[i] + " |"
    {
      assert rows[i + 1] == Body(lines)[i] == Frame('|', lines[i], '|');
    }
    assert rows[n] == Body(lines)[n - 1] == Frame('\\', lines[n - 1], '/');
  }

  /** No row of the balloon holds a newline when no line does; the joined
      balloon therefore reads back as exactly its rows. */
  lemma {:induction false} BalloonRowsSplit(lines: seq<string>, width: int)
    requires width + 2 >= 0
    requires forall i :: 0 <= i < |lines| ==> Newline !in lines[i]
    ensures Split(Join(BalloonRows(lines, width))) == BalloonRows(lines, width)
  {
    var rows := BalloonRows(lines, width);
    forall k | 0 <= k < |rows|
      ensures Newline !in rows[k]
    {
      if k == 0 || k == |rows| - 1 {
        var c := if k == 0 then '_' else '-';
        assert rows[k] == Border(c, width) == " " + Repeat(c, width + 2);
      } else {
        var i := k - 1;
        var p := PositionOf(|lines|, i);
        assert rows[k] == [LeftGlyph(p), ' '] + lines[i] + [' ', RightGlyph(p)];
      }
    }
    SplitJoin(rows);
  }
}
