/**
  The dashboard's stock header: one badge holding the change and the percentage change,
  coloured, iconed and signed by `isPositive = change >= 0` alone.
 */
module StockHeader {
  import opened Trend

  /** What the badge shows: one colour and arrow, a '+' in front of each number or not, and
      the '-' each number's own digits may start with. */
  datatype Badge = Badge(tone: Tone, arrow: Arrow, changePlus: bool, changeMinus: bool,
                         percentPlus: bool, percentMinus: bool)

  predicate IsPositive(change: real) {
    change >= 0.0
  }

  /** The badge. Both '+' signs follow `isPositive`, so the percentage's sign comes from the
      change, not from the percentage. */
  function BadgeOf(change: real, changePercent: real): (b: Badge)
    ensures b.tone == Success <==> IsPositive(change)
    ensures b.tone == Danger <==> !IsPositive(change)
    ensures b.arrow == Up <==> IsPositive(change)
    ensures b.changePlus <==> change >= 0.0
    ensures b.percentPlus <==> change >= 0.0
    ensures b.changeMinus <==> change < 0.0
    ensures b.percentMinus <==> changePercent < 0.0
  {
    var positive := IsPositive(change);
    Badge(if positive then Success else Danger, if positive then Up else Down,
          positive, PrintsMinus(change), positive, PrintsMinus(changePercent))
  }

  /** The change always carries exactly one sign, and zero is written with '+'. */
  lemma ChangeSignedExactlyOnce(change: real, changePercent: real)
    ensures BadgeOf(change, changePercent).changePlus != BadgeOf(change, changePercent).changeMinus
    ensures BadgeOf(0.0, changePercent).changePlus
  {
  }

  /** The percentage's '+' does not depend on the percentage: when the two disagree in sign
      the badge writes "+-" or no sign at all. */
  lemma PercentSignFollowsChange(change: real, p: real, q: real)
    ensures BadgeOf(change, p).percentPlus == BadgeOf(change, q).percentPlus
    ensures BadgeOf(change, p).percentPlus && BadgeOf(change, p).percentMinus <==> change >= 0.0 && p < 0.0
    ensures !BadgeOf(change, p).percentPlus && !BadgeOf(change, p).percentMinus <==> change < 0.0 && p >= 0.0
  {
  }

  /** Against the watchlist's rule the badge agrees on colour and arrow everywhere and on the
      '+' everywhere except at a zero change. */
  lemma AgreesWithSharedRule(change: real, changePercent: real)
    ensures BadgeOf(change, changePercent).tone == ChangeMarks(change).tone
    ensures BadgeOf(change, changePercent).arrow == ChangeMarks(change).arrow
    ensures BadgeOf(change, changePercent).changePlus == ChangeMarks(change).plus <==> change != 0.0
  {
  }

  /** The dashboard's fixed quote (a change of 23.45 and 0.93 %) shows green, up, and two '+'. */
  lemma DashboardQuote()
    ensures BadgeOf(23.45, 0.93) == Badge(Success, Up, true, false, true, false)
  {
  }
}
