/**
 * The part of Chart.js the two visualiser classes rely on: a chart object
 * built from a configuration and later destroyed, and the colour palettes
 * the series cycle through. The configuration keeps only the data series;
 * styling options are not modelled.
 */
module Charting {
  import opened Wrappers

  datatype Point = Point(x: real, y: real)

  datatype ChartConfig =
    | LineChart(labels: seq<string>, values: seq<nat>)
    | BarChart(labels: seq<string>, tripCounts: seq<real>, revenues: seq<real>, borderColors: seq<string>)
    | ScatterChart(points: seq<Point>)
    | DoughnutChart(labels: seq<string>, data: seq<nat>, borderColors: seq<string>)
    | RevenueChart(labels: seq<string>, revenues: seq<real>, avgFares: seq<real>)

  /** A Chart.js instance drawn on a canvas. */
  class Chart {
    const config: ChartConfig
    var destroyed: bool

    constructor (config: ChartConfig)
      ensures this.config == config && !destroyed
    {
      this.config := config;
      destroyed := false;
    }

    method Destroy()
      modifies this
      ensures destroyed
    {
      destroyed := true;
    }
  }

  /** The charts an optional slot holds, as a frame. */
  function Held(slot: Option<Chart>): set<Chart> {
    if slot.Some? then {slot.value} else {}
  }

  const Primary := "rgb(79, 140, 255)"
  const Accent := "rgb(34, 211, 238)"
  const Success := "rgb(34, 197, 94)"
  const Warning := "rgb(245, 158, 11)"
  const Danger := "rgb(239, 68, 68)"
  const Purple := "rgb(168, 85, 247)"
  const Orange := "rgb(249, 115, 22)"
  const Pink := "rgb(236, 72, 153)"

  /** The bar colours of the vendor performance chart. */
  const BarPalette := [Primary, Accent, Success, Warning, Danger, Primary, Accent, Success]

  /** chartPalette of the advanced visualiser. */
  const ChartPalette := [Primary, Accent, Success, Warning, Danger, Purple, Orange, Pink]

  /** One colour per series entry, `palette[i % palette.length]`. */
  function Cycle(palette: seq<string>, n: nat): (colors: seq<string>)
    requires |palette| > 0
    ensures |colors| == n
    ensures forall i | 0 <= i < n :: colors[i] == palette[i % |palette|]
  {
    seq(n, i requires 0 <= i < n => palette[i % |palette|])
  }

  /** Entries a whole palette apart get the same colour, and the first |palette| entries use each colour in turn. */
  lemma CyclePeriodic(palette: seq<string>, n: nat, i: nat)
    requires |palette| > 0 && i + |palette| < n
    ensures Cycle(palette, n)[i + |palette|] == Cycle(palette, n)[i]
    ensures i < |palette| ==> Cycle(palette, n)[i] == palette[i]
  {
    var colors := Cycle(palette, n);
    ModAddDivisor(i, |palette|);
    assert colors[i + |palette|] == palette[(i + |palette|) % |palette|];
    if i < |palette| {
      DivModUnique(i, |palette|, 0, i);
    }
  }

  lemma ModAddDivisor(i: nat, p: nat)
    requires p > 0
    ensures (i + p) % p == i % p
  {
    var q, r := i / p, i % p;
    assert i + p == (q + 1) * p + r;
    DivModUnique(i + p, p, q + 1, r);
  }

  /** Euclidean division has one quotient and remainder. */
  lemma DivModUnique(a: int, p: int, q: int, r: int)
    requires p > 0 && 0 <= r < p && a == q * p + r
    ensures a % p == r
  {
    var q', r' := a / p, a % p;
    assert a == q' * p + r';
    if q' > q {
      MulMonotone(q + 1, q', p);
      assert false;
    }
    if q' < q {
      MulMonotone(q' + 1, q, p);
      assert false;
    }
  }

  lemma MulMonotone(x: int, y: int, p: int)
    requires x <= y && p > 0
    ensures x * p <= y * p
  {}
}
