// Figure selection (printFigure, main.go:90-135): an exact, case-sensitive
// match of a name against the three named figures, with every other name
// falling through to the "random" figure. The ASCII art itself is opaque
// text and is represented by a tag.

module Figures {

  datatype Figure = Gopher | Cow | Cat | Random

  /** The value of the `-f` flag when none is given (main.go:171). */
  const DefaultName: string := "gopher"

  /** The `switch name` of printFigure (main.go:125-134): total, one figure
      per name, each named figure for its own name only and the random
      figure for every other name, the empty name included. */
  function Select(name: string): (f: Figure)
    ensures f == Gopher <==> name == "gopher"
    ensures f == Cow <==> name == "cow"
    ensures f == Cat <==> name == "cat"
    ensures f == Random <==> name !in {"gopher", "cow", "cat"}
  {
    match name
    case "gopher" => Gopher
    case "cow" => Cow
    case "cat" => Cat
    case _ => Random
  }

  /** The name the flag's help text documents for each figure; selecting by
      that name gives the figure back, and the default name gives the
      gopher. */
  function Name(f: Figure): (name: string)
    ensures Select(name) == f
    ensures f == Gopher <==> name == DefaultName
  {
    match f
    case Gopher => "gopher"
    case Cow => "cow"
    case Cat => "cat"
    case Random => "random"
  }
}
