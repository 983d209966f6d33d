/** Directions reported by the rotary encoder, how one is read off the two
    input lines, and the text that the main loop prints for it. */
module Turns {

  /** Rust's `Option`: `None` is "nothing pending", `Some(v)` one value. */
  datatype Option<T> = None | Some(value: T)

  /** One detected detent step of the knob. */
  datatype Turn = Left | Right

  /** The direction read off the momentary levels of the clock and data lines
      when the clock line changes: equal levels mean `Right`, different
      levels mean `Left`. Only the two levels at one instant are used; there
      is no comparison with earlier levels. */
  function Classify(clockHigh: bool, dataHigh: bool): (t: Turn)
    ensures t == Right <==> clockHigh == dataHigh
    ensures t == Left <==> clockHigh != dataHigh
  {
    if clockHigh == dataHigh then Right else Left
  }

  /** Only the relative phase of the two lines matters: inverting both levels
      keeps the direction, inverting one of them reverses it. */
  lemma ClassifyDependsOnPhaseOnly(clockHigh: bool, dataHigh: bool)
    ensures Classify(!clockHigh, !dataHigh) == Classify(clockHigh, dataHigh)
    ensures Classify(!clockHigh, dataHigh) != Classify(clockHigh, dataHigh)
    ensures Classify(clockHigh, !dataHigh) != Classify(clockHigh, dataHigh)
  {
  }

  /** The text written to the serial line for a drained turn. */
  function Label(t: Turn): (s: string)
    ensures s == "Left" <==> t == Left
    ensures s == "Right" <==> t == Right
  {
    match t
    case Left => "Left"
    case Right => "Right"
  }

  /** What a reader of the serial line recovers from one line of text: the
      inverse of `Label` on the two labels, nothing for any other text. */
  function ParseLabel(s: string): (t: Option<Turn>)
  {
    if s == "Left" then Some(Left)
    else if s == "Right" then Some(Right)
    else None
  }

  /** Every label reads back as the turn it was written for, and only labels
      read back as a turn: `Label` is a bijection onto {"Left", "Right"}. */
  lemma LabelRoundTrip(t: Turn, s: string)
    ensures ParseLabel(Label(t)) == Some(t)
    ensures ParseLabel(s) == Some(t) <==> s == Label(t)
  {
  }

  /** The lines the main loop writes for the value it drained: one line,
      the label of the turn, for `Some(turn)`, and no line for `None`. */
  function Report(drained: Option<Turn>): (lines: seq<string>)
    ensures |lines| <= 1
    ensures lines == [] <==> drained.None?
    ensures forall k :: 0 <= k < |lines| ==> ParseLabel(lines[k]) == drained
  {
    match drained
    case None => []
    case Some(t) => LabelRoundTrip(t, Label(t)); [Label(t)]
  }
}
