/**
  The dashboard's price chart: a range picker and a series of daily points around a base
  price. The series is generated once, for the range selected at mount.
 */
module Chart {

  /** The range buttons, in display order. */
  const TimeRanges: seq<string> := ["1D", "1W", "1M", "3M", "1Y", "5Y"]

  const BasePrice: real := 2500.0

  /** How far the generator lets a price stray from `BasePrice`. */
  const Spread: real := 200.0

  /** The range the chart mounts with. */
  const InitialRange: string := "1M"

  /** A point `daysAgo` days before now; the date string and the rounding to cents are left out. */
  datatype Point = Point(daysAgo: nat, price: real)

  datatype ChartState = ChartState(selected: string, data: seq<Point>)

  /** The number of points per range; any string the picker does not name gets five years. */
  function Points(range: string): (n: nat)
    ensures range == "1D" ==> n == 24
    ensures range == "1W" ==> n == 7
    ensures range == "1M" ==> n == 30
    ensures range == "3M" ==> n == 90
    ensures range == "1Y" ==> n == 365
    ensures range !in ["1D", "1W", "1M", "3M", "1Y"] ==> n == 1825
  {
    if range == "1D" then 24
    else if range == "1W" then 7
    else if range == "1M" then 30
    else if range == "3M" then 90
    else if range == "1Y" then 365
    else 1825
  }

  /** Each button gets its own point count, the last one by falling through to five years. */
  lemma RangeButtonsDistinct()
    ensures Points("5Y") == 1825
    ensures forall i, j :: 0 <= i < j < |TimeRanges| ==> Points(TimeRanges[i]) != Points(TimeRanges[j])
  {
  }

  /** `generateChartData`: one point per day, oldest first and ending yesterday, each price the
      base price moved by the generator's draw for that point. */
  function GenerateChartData(range: string, draws: seq<real>): (data: seq<Point>)
    requires |draws| == Points(range)
    ensures |data| == Points(range)
    ensures forall i :: 0 <= i < |data| ==> data[i].daysAgo == |data| - i
    ensures forall i :: 0 <= i < |data| ==> data[i].price == BasePrice + draws[i]
    ensures (forall i :: 0 <= i < |draws| ==> -Spread <= draws[i] <= Spread) ==>
      forall i :: 0 <= i < |data| ==> BasePrice - Spread <= data[i].price <= BasePrice + Spread
  {
    var points := Points(range);
    seq(points, i requires 0 <= i < points => Point(points - i, BasePrice + draws[i]))
  }

  /** The chart as it mounts: range "1M" and its thirty points. */
  function Mount(draws: seq<real>): (st: ChartState)
    requires |draws| == Points(InitialRange)
    ensures st.selected == InitialRange
    ensures |st.data| == 30
    ensures forall i :: 0 <= i < |st.data| ==> st.data[i].daysAgo == 30 - i
    ensures forall i :: 0 <= i < |st.data| ==> st.data[i].price == BasePrice + draws[i]
  {
    ChartState(InitialRange, GenerateChartData(InitialRange, draws))
  }

  /** A range button: it moves the highlight and nothing else. */
  function Select(st: ChartState, range: string): (r: ChartState)
    ensures r.selected == range
    ensures r.data == st.data
  {
    st.(selected := range)
  }

  function SelectAll(st: ChartState, clicks: seq<string>): ChartState
    decreases |clicks|
  {
    if clicks == [] then st else SelectAll(Select(st, clicks[0]), clicks[1..])
  }

  /** However many buttons are pressed, the series is the one generated at mount, and the
      highlight shows the last button pressed. */
  lemma {:induction false} ClicksNeverRegenerate(st: ChartState, clicks: seq<string>)
    ensures SelectAll(st, clicks).data == st.data
    ensures clicks != [] ==> SelectAll(st, clicks).selected == clicks[|clicks| - 1]
    ensures clicks == [] ==> SelectAll(st, clicks).selected == st.selected
    decreases |clicks|
  {
    if clicks != [] {
      ClicksNeverRegenerate(Select(st, clicks[0]), clicks[1..]);
      if |clicks| > 1 {
        assert clicks[1..][|clicks| - 2] == clicks[|clicks| - 1];
      }
    }
  }

  /** So the series matches the highlighted range only while that range is "1M": after pressing
      "1Y" the chart still shows thirty points. */
  lemma SeriesOutOfStepWithSelection(st: ChartState, range: string)
    requires |st.data| == Points(InitialRange)
    ensures |Select(st, range).data| == Points(Select(st, range).selected) <==> Points(range) == 30
    ensures |Select(st, "1Y").data| == 30 && Points("1Y") == 365
  {
  }
}
