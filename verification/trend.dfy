/**
  The sign conventions shared by the dashboard's cards. Colours are tags for Tailwind colour
  families, not class strings; numbers are reals, since only their sign and thresholds matter.
 */
module Trend {

  /** The three colour families a sentiment or change is painted with. */
  datatype Tone = Success | Danger | Gray

  /** The icon shown next to a change: `TrendingUp` or `TrendingDown`. */
  datatype Arrow = Up | Down

  /** How a signed amount is shown: its colour, its arrow, whether a '+' is written in front of
      it, and whether its own digits start with '-' (what `toFixed` does for any negative). */
  datatype Marks = Marks(tone: Tone, arrow: Arrow, plus: bool, minus: bool)

  /** A coloured, signed number drawn without an icon. */
  datatype Signed = Signed(tone: Tone, plus: bool, minus: bool)

  /** The minus sign `toFixed` prints. */
  predicate PrintsMinus(x: real) {
    x < 0.0
  }

  /** The text half of the rule the heatmap and the watchlist use: green from zero upwards,
      red below, and a '+' only for amounts strictly above zero. */
  function SignedText(x: real): (t: Signed)
    ensures t.tone == Success <==> x >= 0.0
    ensures t.tone == Danger <==> x < 0.0
    ensures t.plus <==> x > 0.0
    ensures t.minus <==> x < 0.0
  {
    Signed(if x >= 0.0 then Success else Danger, x > 0.0, PrintsMinus(x))
  }

  /** The whole rule for an amount drawn with an icon: the text as above, and an up arrow
      exactly when it is green. */
  function ChangeMarks(x: real): (m: Marks)
    ensures m.tone == Success <==> x >= 0.0
    ensures m.tone == Danger <==> x < 0.0
    ensures m.arrow == Up <==> m.tone == Success
    ensures m.plus <==> x > 0.0
    ensures m.minus <==> x < 0.0
  {
    var t := SignedText(x);
    Marks(t.tone, if x >= 0.0 then Up else Down, t.plus, t.minus)
  }

  /** Under this rule a shown amount carries at most one sign, and none exactly at zero, where
      the arrow still points up. */
  lemma ChangeMarksOneSign(x: real)
    ensures !(ChangeMarks(x).plus && ChangeMarks(x).minus)
    ensures !ChangeMarks(x).plus && !ChangeMarks(x).minus <==> x == 0.0
    ensures ChangeMarks(0.0).arrow == Up
  {
  }

  /** The rule is monotone: a larger amount is never shown as falling when a smaller one is
      shown as rising. */
  lemma ChangeMarksMonotone(x: real, y: real)
    requires x <= y
    ensures ChangeMarks(x).arrow == Up ==> ChangeMarks(y).arrow == Up
    ensures ChangeMarks(x).plus ==> ChangeMarks(y).plus
  {
  }
}
