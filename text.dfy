// The parts of Go's `strings` package that the balloon layout relies on,
// over strings modelled as sequences of code points.

module Text {

  const Newline: char := '\n'

  /** `strings.Repeat` of a one-character string: `count` copies of `c`.
      Go panics on a negative count; here the count is a `nat`, so every
      caller has to show that the count it computes is not negative. */
  function Repeat(c: char, count: nat): (r: string)
    ensures |r| == count
    ensures forall i :: 0 <= i < |r| ==> r[i] == c
  {
    if count == 0 then [] else [c] + Repeat(c, count - 1)
  }

  /** `strings.Join(rows, "\n")`: the rows with one newline between
      consecutive rows; no rows give the empty string. */
  function Join(rows: seq<string>): (r: string)
    ensures |rows| == 1 ==> r == rows[0]
    ensures |rows| >= 1 ==> |r| >= |rows[0]| && r[..|rows[0]|] == rows[0]
  {
    if |rows| == 0 then []
    else if |rows| == 1 then rows[0]
    else rows[0] + [Newline] + Join(rows[1..])
  }

  /** Splits a text into the pieces between newlines (the reading of an
      output block as "rows separated by newlines"): there is at least one
      piece, and no piece holds a newline. */
  function Split(s: string): (pieces: seq<string>)
    ensures |pieces| >= 1
    ensures forall i :: 0 <= i < |pieces| ==> Newline !in pieces[i]
  {
    if |s| == 0 then [[]]
    else
      var rest := Split(s[1..]);
      if s[0] == Newline then [[]] + rest
      else [[s[0]] + rest[0]] + rest[1..]
  }

  /** A text with k newlines splits into k + 1 pieces. */
  lemma {:induction false} SplitCount(s: string)
    ensures |Split(s)| == multiset(s)[Newline] + 1
  {
    if |s| > 0 {
      SplitCount(s[1..]);
      assert s == [s[0]] + s[1..];
      assert multiset(s) == multiset{s[0]} + multiset(s[1..]);
    }
  }

  /** A text without newlines is a single row. */
  lemma {:induction false} SplitSingle(a: string)
    requires Newline !in a
    ensures Split(a) == [a]
  {
    if |a| > 0 {
      SplitSingle(a[1..]);
      assert [a[0]] + a[1..] == a;
    }
  }

  /** A newline ends the first row; the rest is split on its own. */
  lemma {:induction false} SplitAtNewline(a: string, b: string)
    requires Newline !in a
    ensures Split(a + [Newline] + b) == [a] + Split(b)
  {
    var s := a + [Newline] + b;
    if |a| == 0 {
      assert s == [Newline] + b && s[1..] == b;
    } else {
      assert s[0] == a[0] && s[1..] == a[1..] + [Newline] + b;
      SplitAtNewline(a[1..], b);
      var rest := Split(s[1..]);
      assert rest == [a[1..]] + Split(b);
      assert Split(s) == [[a[0]] + rest[0]] + rest[1..];
      assert [a[0]] + a[1..] == a;
    }
  }

  /** Joining rows that hold no newline and splitting the result again
      gives back exactly the rows: `Join` output is "the rows, separated
      by newlines", one per row and in order. */
  lemma {:induction false} SplitJoin(rows: seq<string>)
    requires |rows| >= 1
    requires forall i :: 0 <= i < |rows| ==> Newline !in rows[i]
    ensures Split(Join(rows)) == rows
  {
    if |rows| == 1 {
      SplitSingle(rows[0]);
    } else {
      SplitJoin(rows[1..]);
      SplitAtNewline(rows[0], Join(rows[1..]));
      assert [rows[0]] + rows[1..] == rows;
    }
  }
}
