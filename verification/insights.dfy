/**
  The AI insights page: a fixed list of generated insights, a filter over the four insight
  types, and the colour table each card draws from.
 */
module Insights {

  datatype InsightType = Bullish | Bearish | Warning | Opportunity

  /** The filter buttons: everything, or one type. */
  datatype Filter = All | Only(kind: InsightType)

  /** An insight card. The timestamp is left out; the generator's values are arbitrary. */
  datatype Insight = Insight(
    id: string, ticker: string, companyName: string, kind: InsightType,
    title: string, summary: string, confidence: int, keyFactors: seq<string>)

  /** The Tailwind colour families used by the cards. */
  datatype Tone = SuccessTone | DangerTone | YellowTone | PrimaryTone

  /** One row of `InsightColors`: the families of the text, background and border classes. */
  datatype Palette = Palette(text: Tone, bg: Tone, border: Tone)

  /** The confidence bar's gradient. */
  datatype Bar = GreenBar | RedBar | YellowBar | BlueBar

  /** The number of insights the page generates on mount. */
  const PageSize: nat := 12

  /** The filter the page mounts with. */
  const InitialFilter: Filter := All

  /** The order of the filter buttons. */
  const FilterButtons: seq<Filter> :=
    [All, Only(Bullish), Only(Bearish), Only(Warning), Only(Opportunity)]

  /** The `All` filter matches every insight; a type filter matches the insights of that type. */
  predicate Matches(f: Filter, x: Insight) {
    f.All? || x.kind == f.kind
  }

  /** `a` is `b` with some elements removed and the rest in their original order. */
  predicate IsSubsequence(a: seq<Insight>, b: seq<Insight>)
    decreases |b|
  {
    if a == [] then true
    else if b == [] then false
    else if a[0] == b[0] then IsSubsequence(a[1..], b[1..])
    else IsSubsequence(a, b[1..])
  }

  /** `insights.filter(...)`: the matching insights, in order, each as often as in the input. */
  function Filtered(f: Filter, xs: seq<Insight>): (r: seq<Insight>)
    ensures IsSubsequence(r, xs)
    ensures forall k :: 0 <= k < |r| ==> Matches(f, r[k])
    ensures forall x :: multiset(r)[x] == if Matches(f, x) then multiset(xs)[x] else 0
    decreases |xs|
  {
    if xs == [] then []
    else
      var rest := Filtered(f, xs[1..]);
      assert xs == [xs[0]] + xs[1..];
      if Matches(f, xs[0]) then [xs[0]] + rest else rest
  }

  /** How many insights of `xs` have type `t`. */
  function CountOf(t: InsightType, xs: seq<Insight>): nat
    decreases |xs|
  {
    if xs == [] then 0 else (if xs[0].kind == t then 1 else 0) + CountOf(t, xs[1..])
  }

  /** The `All` button shows the list unchanged. */
  lemma {:induction false} FilterAllIsIdentity(xs: seq<Insight>)
    ensures Filtered(All, xs) == xs
    decreases |xs|
  {
    if xs != [] {
      FilterAllIsIdentity(xs[1..]);
    }
  }

  lemma {:induction false} FilteredLength(t: InsightType, xs: seq<Insight>)
    ensures |Filtered(Only(t), xs)| == CountOf(t, xs)
    decreases |xs|
  {
    if xs != [] {
      FilteredLength(t, xs[1..]);
    }
  }

  /** Each insight has exactly one of the four types, so the four type views partition the list. */
  lemma TypeViewsPartition(xs: seq<Insight>)
    ensures |Filtered(Only(Bullish), xs)| + |Filtered(Only(Bearish), xs)|
          + |Filtered(Only(Warning), xs)| + |Filtered(Only(Opportunity), xs)| == |xs|
  {
    FilteredLength(Bullish, xs);
    FilteredLength(Bearish, xs);
    FilteredLength(Warning, xs);
    FilteredLength(Opportunity, xs);
    CountsSum(xs);
  }

  lemma {:induction false} CountsSum(xs: seq<Insight>)
    ensures CountOf(Bullish, xs) + CountOf(Bearish, xs) + CountOf(Warning, xs) + CountOf(Opportunity, xs) == |xs|
    decreases |xs|
  {
    if xs != [] {
      CountsSum(xs[1..]);
    }
  }

  /** What the generator promises of every insight: a confidence from 60 to 98 and exactly
      three key factors. */
  predicate WellFormed(x: Insight) {
    60 <= x.confidence <= 98 && |x.keyFactors| == 3
  }

  /** What the page holds after mounting: twelve well-formed insights. */
  predicate Generated(xs: seq<Insight>) {
    |xs| == PageSize && forall k :: 0 <= k < |xs| ==> WellFormed(xs[k])
  }

  /** Any view of the list shows only well-formed insights. */
  lemma FilterKeepsWellFormed(f: Filter, xs: seq<Insight>)
    requires forall k :: 0 <= k < |xs| ==> WellFormed(xs[k])
    ensures forall k :: 0 <= k < |Filtered(f, xs)| ==> WellFormed(Filtered(f, xs)[k])
  {
  }

  /** The page mounts showing all twelve insights. */
  lemma InitialViewShowsAll(xs: seq<Insight>)
    requires Generated(xs)
    ensures Filtered(InitialFilter, xs) == xs
    ensures |Filtered(InitialFilter, xs)| == 12
  {
    FilterAllIsIdentity(xs);
  }

  /** `InsightColors`: one colour family per type, used for text, background and border alike. */
  function Colors(t: InsightType): (p: Palette)
    ensures p.text == p.bg == p.border
  {
    match t
    case Bullish => Palette(SuccessTone, SuccessTone, SuccessTone)
    case Bearish => Palette(DangerTone, DangerTone, DangerTone)
    case Warning => Palette(YellowTone, YellowTone, YellowTone)
    case Opportunity => Palette(PrimaryTone, PrimaryTone, PrimaryTone)
  }

  /** The bar's gradient is chosen by testing the palette's text class in turn. */
  function BarFor(p: Palette): (b: Bar)
    ensures b == GreenBar <==> p.text == SuccessTone
    ensures b == RedBar <==> p.text == DangerTone
    ensures b == YellowBar <==> p.text == YellowTone
    ensures b == BlueBar <==> p.text == PrimaryTone
  {
    match p.text
    case SuccessTone => GreenBar
    case DangerTone => RedBar
    case YellowTone => YellowBar
    case PrimaryTone => BlueBar
  }

  /** Distinct types get distinct colours. */
  lemma ColorsInjective(t: InsightType, u: InsightType)
    ensures Colors(t) == Colors(u) ==> t == u
    ensures BarFor(Colors(t)) == BarFor(Colors(u)) ==> t == u
  {
  }

  /** The bar is green for bullish, red for bearish, yellow for warnings and blue for
      opportunities. */
  lemma BarMatchesType(t: InsightType)
    ensures BarFor(Colors(t)) == GreenBar <==> t == Bullish
    ensures BarFor(Colors(t)) == RedBar <==> t == Bearish
    ensures BarFor(Colors(t)) == YellowBar <==> t == Warning
    ensures BarFor(Colors(t)) == BlueBar <==> t == Opportunity
  {
  }

  /** Every filter button is distinct and the type buttons cover every type. */
  lemma FilterButtonsCoverTypes(t: InsightType)
    ensures Only(t) in FilterButtons
    ensures forall i, j :: 0 <= i < j < |FilterButtons| ==> FilterButtons[i] != FilterButtons[j]
  {
  }
}
