/**
  The watchlist page: six fixed stocks, each card showing its change, its percentage change
  and a three-step sentiment label with a coloured dot.
 */
module Watchlist {
  import opened Trend
  import Heatmap

  datatype Stock = Stock(
    symbol: string, name: string, price: real, change: real, changePercent: real, sentiment: real)

  datatype Label = Bearish | Neutral | Bullish

  /** What one card shows besides the stock's name and price. */
  datatype Card = Card(change: Marks, percent: Signed, sentiment: Label, dot: Tone)

  const Symbols: seq<string> := ["RELIANCE", "TCS", "INFY", "HDFC", "ICICI", "ADANI"]

  const Names: seq<string> :=
    ["Reliance Industries", "Tata Consultancy Services", "Infosys Limited", "HDFC Bank",
     "ICICI Bank", "Adani Enterprises"]

  /** The inline label: above 0.2 bullish, below -0.2 bearish, both ends neutral. */
  function SentimentLabel(s: real): (l: Label)
    ensures l == Bullish <==> s > 0.2
    ensures l == Bearish <==> s < -0.2
    ensures l == Neutral <==> -0.2 <= s <= 0.2
  {
    if s > 0.2 then Bullish else if s < -0.2 then Bearish else Neutral
  }

  /** The dot beside the label, chosen by its own copy of the thresholds. */
  function SentimentDot(s: real): (c: Tone)
    ensures c == Success <==> s > 0.2
    ensures c == Danger <==> s < -0.2
  {
    if s > 0.2 then Success else if s < -0.2 then Danger else Gray
  }

  /** The colour a label stands for. */
  function LabelTone(l: Label): Tone {
    match l
    case Bullish => Success
    case Bearish => Danger
    case Neutral => Gray
  }

  /** The dot always matches the label. */
  lemma DotAgreesWithLabel(s: real)
    ensures SentimentDot(s) == LabelTone(SentimentLabel(s))
  {
  }

  /** A card: the change is coloured, iconed and signed by its own value, the percentage
      coloured and signed by its own value with no icon, and the sentiment gives the label and
      the dot. */
  function CardOf(st: Stock): (c: Card)
    ensures c.change.tone == Success <==> st.change >= 0.0
    ensures c.change.tone == Danger <==> st.change < 0.0
    ensures c.change.arrow == Up <==> st.change >= 0.0
    ensures c.change.plus <==> st.change > 0.0
    ensures c.change.minus <==> st.change < 0.0
    ensures c.percent.tone == Success <==> st.changePercent >= 0.0
    ensures c.percent.tone == Danger <==> st.changePercent < 0.0
    ensures c.percent.plus <==> st.changePercent > 0.0
    ensures c.percent.minus <==> st.changePercent < 0.0
    ensures c.sentiment == SentimentLabel(st.sentiment)
    ensures c.dot == LabelTone(c.sentiment)
  {
    Card(ChangeMarks(st.change), SignedText(st.changePercent), SentimentLabel(st.sentiment),
         SentimentDot(st.sentiment))
  }

  /** A zero change is green with an up arrow but no '+'. */
  lemma ZeroChangeShownUnsigned(st: Stock)
    requires st.change == 0.0
    ensures CardOf(st).change == Marks(Success, Up, false, false)
  {
  }

  /** `generateWatchlistData`: the six fixed stocks, in order, with the generator's draws. */
  function GenerateWatchlistData(prices: seq<real>, changes: seq<real>, percents: seq<real>,
                                 sentiments: seq<real>): (r: seq<Stock>)
    requires |prices| == |changes| == |percents| == |sentiments| == |Symbols|
    ensures |r| == 6
    ensures forall i :: 0 <= i < |r| ==>
      r[i] == Stock(Symbols[i], Names[i], prices[i], changes[i], percents[i], sentiments[i])
    ensures forall i, j :: 0 <= i < j < |r| ==> r[i].symbol != r[j].symbol
  {
    seq(|Symbols|, i requires 0 <= i < |Symbols| =>
      Stock(Symbols[i], Names[i], prices[i], changes[i], percents[i], sentiments[i]))
  }

  /** The heatmap's five labels, collapsed to the watchlist's three. */
  function Coarsen(l: Heatmap.Label): Label {
    match l
    case VeryBullish => Bullish
    case Bullish => Bullish
    case Neutral => Neutral
    case Bearish => Bearish
    case VeryBearish => Bearish
  }

  /** The two pages label a score alike except at exactly -0.2, which the heatmap calls
      bearish and the watchlist neutral. */
  lemma LabelsAgreeExceptAtBoundary(s: real)
    ensures Coarsen(Heatmap.SentimentLabel(s)) == SentimentLabel(s) <==> s != -0.2
  {
  }

  /** The two pages paint a score alike only outside the moderate bands: the heatmap's colour
      thresholds are ±0.3, the watchlist's ±0.2. */
  lemma ColoursAgreeOutsideModerateBands(s: real)
    ensures Heatmap.SentimentColor(s) == SentimentDot(s)
        <==> s > 0.3 || s < -0.3 || (-0.2 <= s <= 0.2)
  {
  }
}
