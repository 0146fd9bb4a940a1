/** The integer horizontal geometry of the weekly bar chart: where each bar
    and its two labels go on the 300-pixel-wide canvas.  Heights are
    floating point and are not part of this module. */
module Chart {

  /** The fixed weekly series and its day labels. */
  const Data: seq<int> := [65, 45, 80, 35, 90, 60, 75]
  const Labels: seq<string> := ["Mon", "Tue", "Wed", "Thu", "Fri", "Sat", "Sun"]

  const CanvasWidth: int := 300
  const BarWidth: int := 30
  const Stride: int := 40
  const LeftMargin: int := 20

  /** One bar as drawn: its left edge and width, the x at which both labels
      are centred, the day label and the value printed above the bar. */
  datatype BarLayout = BarLayout(x: int, width: int, labelX: int, day: string, value: int)

  /** Left edge of bar `index`. */
  function BarX(index: nat): int {
    index * Stride + LeftMargin
  }

  /** The bar drawn for entry `i` of the series. */
  function BarAt(data: seq<int>, labels: seq<string>, i: nat): (b: BarLayout)
    requires i < |data| && i < |labels|
    ensures b.width == BarWidth && b.labelX == b.x + BarWidth / 2
    ensures b.day == labels[i] && b.value == data[i]
  {
    var x := BarX(i);
    BarLayout(x, BarWidth, x + 15, labels[i], data[i])
  }

  /** The loop over the series: one bar per entry, in order. */
  method LayoutBars(data: seq<int>, labels: seq<string>) returns (bars: seq<BarLayout>)
    requires |labels| == |data|
    ensures |bars| == |data|
    ensures forall i :: 0 <= i < |data| ==> bars[i] == BarAt(data, labels, i)
    ensures forall i, j :: 0 <= i < j < |bars| ==> bars[i].x + bars[i].width < bars[j].x
  {
    bars := [];
    var index := 0;
    while index < |data|
      invariant 0 <= index <= |data|
      invariant |bars| == index
      invariant forall i :: 0 <= i < index ==> bars[i] == BarAt(data, labels, i)
    {
      var x := index * 40 + 20;
      bars := bars + [BarLayout(x, 30, x + 15, labels[index], data[index])];
      index := index + 1;
    }
    forall i, j | 0 <= i < j < |bars| ensures bars[i].x + bars[i].width < bars[j].x {
      BarsApart(i, j);
    }
  }

  /** Bars never overlap: there is a gap of ten pixels or more between the
      right edge of a bar and the left edge of any later bar. */
  lemma BarsApart(i: nat, j: nat)
    requires i < j
    ensures BarX(i) + BarWidth + 10 <= BarX(j)
  {
  }

  /** Every bar of a series lies inside the canvas exactly when the series
      has at most seven entries. */
  lemma FitsIff(n: nat)
    ensures (forall i: nat :: i < n ==> 0 <= BarX(i) && BarX(i) + BarWidth <= CanvasWidth)
            <==> n <= 7
  {
    if n > 7 {
      assert BarX(7) + BarWidth > CanvasWidth;
    }
  }

  /** The weekly chart: seven bars, all inside the canvas, each label at the
      centre of its bar. */
  lemma WeeklyChartFits()
    ensures |Data| == |Labels| == 7
    ensures forall i :: 0 <= i < |Data| ==>
              var b := BarAt(Data, Labels, i);
              0 <= b.x && b.x + b.width <= CanvasWidth && b.x < b.labelX < b.x + b.width
  {
    FitsIff(|Data|);
  }
}
