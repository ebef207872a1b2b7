/**
  The sentiment heatmap: ten fixed stocks, each painted by its sentiment score and labelled
  on a five-step scale, with the day's change beside it.
 */
module Heatmap {
  import opened Trend

  datatype Stock = Stock(symbol: string, name: string, sentiment: real, change: real)

  /** The five sentiment labels, from most bearish to most bullish. */
  datatype Label = VeryBearish | Bearish | Neutral | Bullish | VeryBullish

  const Symbols: seq<string> :=
    ["RELIANCE", "TCS", "INFY", "HDFC", "ICICI", "SBI", "WIPRO", "ADANI", "BAJAJ", "MARUTI"]

  const Names: seq<string> :=
    ["Reliance Ind.", "Tata Cons.", "Infosys", "HDFC Bank", "ICICI Bank", "SBI", "Wipro",
     "Adani Ent.", "Bajaj Finance", "Maruti Suzuki"]

  /** Position of a label on the bearish-to-bullish scale. */
  function Rank(l: Label): int {
    match l
    case VeryBearish => 0
    case Bearish => 1
    case Neutral => 2
    case Bullish => 3
    case VeryBullish => 4
  }

  /** `getSentimentColor`: green above 0.3, red below -0.3, grey in between, both ends included. */
  function SentimentColor(s: real): (c: Tone)
    ensures c == Success <==> s > 0.3
    ensures c == Danger <==> s < -0.3
    ensures c == Gray <==> -0.3 <= s <= 0.3
  {
    if s > 0.3 then Success
    else if s < -0.3 then Danger
    else Gray
  }

  /** `getSentimentLabel`: five bands, each open below and closed above except the two ends. */
  function SentimentLabel(s: real): (l: Label)
    ensures l == VeryBullish <==> s > 0.5
    ensures l == Bullish <==> 0.2 < s <= 0.5
    ensures l == Neutral <==> -0.2 < s <= 0.2
    ensures l == Bearish <==> -0.5 < s <= -0.2
    ensures l == VeryBearish <==> s <= -0.5
  {
    if s > 0.5 then VeryBullish
    else if s > 0.2 then Bullish
    else if s > -0.2 then Neutral
    else if s > -0.5 then Bearish
    else VeryBearish
  }

  /** A higher score never gets a more bearish label. */
  lemma LabelMonotone(s1: real, s2: real)
    requires s1 <= s2
    ensures Rank(SentimentLabel(s1)) <= Rank(SentimentLabel(s2))
  {
  }

  /** The colour and the label agree at the extremes and in the middle; the two moderate
      labels can be painted grey. */
  lemma ColorAgreesWithLabel(s: real)
    ensures SentimentLabel(s) == VeryBullish ==> SentimentColor(s) == Success
    ensures SentimentLabel(s) == VeryBearish ==> SentimentColor(s) == Danger
    ensures SentimentLabel(s) == Neutral ==> SentimentColor(s) == Gray
    ensures SentimentColor(s) == Success ==> Rank(SentimentLabel(s)) >= Rank(Bullish)
    ensures SentimentColor(s) == Danger ==> Rank(SentimentLabel(s)) <= Rank(Bearish)
    ensures SentimentLabel(0.25) == Bullish && SentimentColor(0.25) == Gray
    ensures SentimentLabel(-0.25) == Bearish && SentimentColor(-0.25) == Gray
  {
  }

  /** The change beside each cell follows the shared rule: up from zero, '+' above zero, '-'
      below. */
  function ChangeCell(st: Stock): (m: Marks)
    ensures m.tone == Success <==> st.change >= 0.0
    ensures m.tone == Danger <==> st.change < 0.0
    ensures m.arrow == Up <==> st.change >= 0.0
    ensures m.plus <==> st.change > 0.0
    ensures m.minus <==> st.change < 0.0
  {
    ChangeMarks(st.change)
  }

  /** `generateStockData`: row `i` pairs the `i`-th symbol with the `i`-th name; the scores are
      the generator's draws. */
  function GenerateStockData(sentiments: seq<real>, changes: seq<real>): (rows: seq<Stock>)
    requires |sentiments| == |Symbols| && |changes| == |Symbols|
    ensures |rows| == 10
    ensures forall i :: 0 <= i < |rows| ==>
      rows[i] == Stock(Symbols[i], Names[i], sentiments[i], changes[i])
    ensures forall i, j :: 0 <= i < j < |rows| ==> rows[i].symbol != rows[j].symbol
  {
    SymbolsDistinct();
    seq(|Symbols|, i requires 0 <= i < |Symbols| =>
      Stock(Symbols[i], Names[i], sentiments[i], changes[i]))
  }

  /** The ten symbols are distinct, so they serve as keys of the grid. */
  lemma SymbolsDistinct()
    ensures |Symbols| == |Names| == 10
    ensures forall i, j :: 0 <= i < j < |Symbols| ==> Symbols[i] != Symbols[j]
  {
  }
}
