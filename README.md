# gophersay balloon layout, in Dafny

gophersay is a cowsay-like filter: it reads piped lines, frames them in a
speech balloon as wide as the longest line, and prints a named ASCII-art
figure beneath. This project models the balloon layout and the figure
selection of `main.go`:

- `text.dfy`, module `Text`: the pieces of Go's `strings` package the
  layout uses (`Repeat`, `Join` with `"\n"`), and `Split`, a reading of a
  text as newline-separated rows, with the round trip `Split(Join(rows)) ==
  rows` for rows that hold no newline.
- `normalize.dfy`, module `Normalize`: `tabsToSpaces`,
  `calculateMaxWidth` and `normalizeStringsLength`. Each Go function is a
  loop that appends to a local result, and each is modelled as a method
  with loop invariants, proved equal to a specification function
  (`ExpandAll`, `MaxWidth`, `Padded`) whose properties are proved as
  ensures and lemmas.
- `balloon.dfy`, module `Balloon`: `buildBalloon`. The method keeps the
  source's `borders` slice and its index loop over the interior lines; it
  is proved against `BalloonRows`, which frames each line by the glyphs of
  its position (single, first, interior, last).
- `figure.dfy`, module `Figures`: the `switch` of `printFigure` as a total
  function from a name to a figure tag.
- `pipeline.dfy`, module `Pipeline`: the composition at main.go:163-166,
  including the runtime panic on empty input.

Strings are `seq<char>`, one `char` per code point, so
`utf8.RuneCountInString(s)` is `|s|`. A Go `[]string` is a `seq<string>`.

Two Go calls panic on inputs the callers might supply, and the model makes
both explicit:

- `buildBalloon` indexes `lines[0]` on both branches (main.go:35, 38). When
  no line was read, the `else` branch runs and panics. `BuildBalloon`
  requires at least one line. The composition `Pipeline.Say` returns the
  outcome `IndexPanic` for an empty input instead of calling it.
- `strings.Repeat` panics on a negative count (main.go:28-29, 84).
  `NormalizeStringsLength` therefore requires every line to fit within
  `maxwidth`, and `BuildBalloon` requires `maxwidth + 2 >= 0`. The pipeline
  always meets both, because the width is a maximum.

For a figure name other than `gopher`, `cow` and `cat`, the `default` case
of the switch prints the `random` figure (main.go:132-133), not the
`gopher` figure that is the flag's default value.

## Model

| member | source | states |
|---|---|---|
| Text.Repeat | main.go:28-29 | `strings.Repeat` of one character gives exactly `count` characters, all equal to it |
| Text.Split | main.go:50 | inverse reading of the join at main.go:50 (the program itself never splits): splitting a text on newlines gives at least one piece, none holding a newline |
| Text.SplitCount | main.go:50 | inverse reading of the join at main.go:50: a text with k newlines splits into k + 1 pieces |
| Text.Join | main.go:50 | `strings.Join(result, "\n")`: one row is returned as it is, and the first row is always a prefix of the result; `Text.SplitJoin` shows that the result is exactly the rows with one newline between consecutive rows |
| Text.SplitJoin | main.go:50 | joining newline-free rows with `"\n"` and splitting again gives back exactly the rows, in order |
| Normalize.ExpandTabs | main.go:58 | replacing every tab by four spaces leaves no tab and introduces no character other than a space |
| Normalize.ExpandTabsLength | main.go:58 | tab expansion lengthens the line by exactly 3 per tab |
| Normalize.ExpandTabsAppend | main.go:58 | tab expansion distributes over concatenation |
| Normalize.ExpandTabsChar | main.go:58 | on one character, tab expansion gives four spaces for a tab and the character itself otherwise |
| Normalize.ExpandTabsNoTab | main.go:58 | a line without tabs is unchanged |
| Normalize.TabsToSpaces | main.go:55-62 | the loop returns one line per input line, in order, each its input line with tabs expanded; no tab remains in any line |
| Normalize.MaxWidth | main.go:65-77 | the running maximum from 0 is at least every line's length, equals some line's length when there are lines, and is 0 when there are none |
| Normalize.MaxWidthUnique | main.go:65-77 | any value that bounds every length and is some line's length is the maximum, so the contract of MaxWidth pins it down |
| Normalize.CalculateMaxWidth | main.go:65-77 | the loop returns the maximum code-point length: non-negative, at least every line's length, attained by some line when there are lines |
| Normalize.PadRight | main.go:84 | a padded line has exactly the width, starts with the original line and has only spaces after it |
| Normalize.PadRightUnique | main.go:84 | the three properties of PadRight determine the padded line uniquely |
| Normalize.PadRightFull | main.go:84 | a line already at full width is not changed |
| Normalize.NormalizeStringsLength | main.go:80-88 | given lines that fit in `maxwidth`, the loop returns one line per input line, each of length exactly `maxwidth`, with its input line as prefix and only spaces after it |
| Balloon.Frame | main.go:35-45 | a framed row is its line plus 4: left glyph, a space, the line, a space, right glyph |
| Balloon.Border | main.go:28-29 | a border row is a space followed by `width + 2` copies of its glyph (underscores on top, hyphens at the bottom), `width + 3` characters in all |
| Balloon.BordersByPosition | main.go:26 | the seven entries of the `borders` slice, by index, are the left and right glyphs of the first, last, interior and single-line frames |
| Balloon.BuildBalloon | main.go:21-51 | for at least one line, the loop over the `borders` glyphs produces exactly the newline-join of the top border, each line framed by the glyphs of its position, and the bottom border |
| Balloon.BalloonShape | main.go:28-50 | a balloon has `count + 2` rows: the top border first, the bottom border last, and body row k + 1 four longer than line k and holding it after two characters |
| Balloon.SingleLineBalloon | main.go:34-36 | with exactly one line L, the one body row is `"< " + L + " >"` |
| Balloon.MultiLineBalloon | main.go:37-47 | with n >= 2 lines, the body rows in input order are: slash, space, L0, space, backslash for the first line; bar, space, Li, space, bar for each interior line i; backslash, space, L(n-1), space, slash for the last |
| Balloon.BalloonRowsSplit | main.go:50 | when no line holds a newline, the joined balloon reads back as exactly its rows |
| Figures.Select | main.go:125-134 | selection is total: `"gopher"`, `"cow"` and `"cat"` each select their own figure and only it; every other name, the empty name included, selects `Random` |
| Figures.Name | main.go:171 | each figure has a documented name that selects it, and only the gopher's is the flag's default |
| Pipeline.Say | main.go:163-166 | the four steps in order give the rendered balloon of the input, and panic exactly when there is no input line |
| Pipeline.NormalizedWidth | main.go:163-165 | after normalization every line has the content width, starts with its tab-expanded input line, and the content width is the true maximum of the tab-expanded lengths |
| Pipeline.UniformBalloon | main.go:163-166 | the rendered balloon is the top border, one body row per input line, and the bottom border; both borders are `width + 3` long, every body row is `width + 4` long, and body row k holds the tab-expanded input line k after two characters |
| Pipeline.RenderedRows | main.go:163-166 | for input lines without newlines, the rendered text splits into exactly the balloon's `count + 2` rows |

## Left out

- The query of standard input and the terminal-versus-pipe refusal with its
  usage message (main.go:138-149): operating-system I/O.
- The `bufio` `ReadLine` loop (main.go:151-161): stream I/O. The lines it
  yields hold no newline, which `Pipeline.RenderedRows` takes as its
  precondition. The loop also spins on read errors other than end of
  stream; that is not modelled.
- Flag parsing (main.go:170-172) and every `fmt.Println` (main.go:127-133,
  168, 175): command-line glue. Only the default flag value is kept, as
  `Figures.DefaultName`.
- The ASCII-art text of the four figures (main.go:94-123): opaque static
  text. A figure is a datatype tag.
- UTF-8 decoding: a string is a sequence of code points, not of bytes.
- Go's fixed-width `int`: widths and lengths are unbounded integers, so an
  overflow of `maxwidth + 2` or of a line length is not modelled.
