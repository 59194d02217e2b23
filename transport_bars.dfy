/** plot_bars of bar_chart_transport.py: a zero is valid data, max_value
    defaults to 0, and an all-zero chart gets the fixed y-axis [0, 0.1]. */
module TransportBars {
  import opened Annotations
  import opened BarValues

  /** The y-axis top used when max_value is 0. */
  const ZeroDataLimit: real := 0.1

  function PlotBars(values: seq<Option<real>>): (c: Chart)
    ensures c.heights == Heights(values)
    ensures c.notes == Notes(values, MaxValue(values, 0.0))
    ensures MaxValue(values, 0.0) == 0.0 ==> c.yLimit == ZeroDataLimit
    ensures MaxValue(values, 0.0) != 0.0 ==> c.yLimit == 1.15 * MaxValue(values, 0.0)
  {
    var maxValue := MaxValue(values, 0.0);
    var yLimit := if maxValue == 0.0 then ZeroDataLimit else maxValue * 1.15;
    Chart(Heights(values), yLimit, Notes(values, maxValue))
  }

  /** For non-negative data the y-axis is never empty, and every bar and every
      note lies within it. */
  lemma PlotBarsFits(values: seq<Option<real>>)
    requires NonNegative(values)
    ensures var c := PlotBars(values);
      && 0.0 < c.yLimit
      && (forall k :: 0 <= k < |values| ==> c.heights[k] <= c.notes[k].y <= c.yLimit)
  {
    var m := MaxValue(values, 0.0);
    MaxValueBounds(values, 0.0);
    if exists k :: 0 <= k < |values| && values[k].Some? {
      var k :| 0 <= k < |values| && values[k].Some?;
      assert m >= values[k].value >= 0.0;
    }
  }

  /** Connor's transport bars [0.040, 0.000]: the zero bar is labelled with its
      value, not 'N/A', and the axis reaches 15 % above 0.040. */
  lemma ZeroIsData()
    ensures var c := PlotBars([Some(0.040), Some(0.0)]);
      && c.heights == [0.040, 0.0]
      && c.notes[1].caption == Amount(0.0)
      && c.yLimit == 1.15 * 0.040
  {
    var values := [Some(0.040), Some(0.0)];
    MaxValueBounds(values, 0.0);
    assert values[0].Some? && values[1].Some?;
    assert MaxValue(values, 0.0) == 0.040;
    assert Heights(values) == [0.040, 0.0];
  }

  /** With every value missing the chart still has an axis, [0, 0.1], and
      every bar is labelled 'N/A' at height 0. */
  lemma AllMissing(values: seq<Option<real>>)
    requires forall k :: 0 <= k < |values| ==> values[k].None?
    ensures var c := PlotBars(values);
      && c.yLimit == ZeroDataLimit
      && forall k :: 0 <= k < |values| ==> c.heights[k] == 0.0 && c.notes[k] == Note(0.0, NotAvailable)
  {
    MaxValueBounds(values, 0.0);
  }
}
