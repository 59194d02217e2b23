/** What plot_bars computes before drawing a bar chart: the bar heights (a
    missing value drawn as 0), the largest present value with a default, the
    y-axis limit, and the text over each bar. */
module BarValues {
  import opened Annotations

  /** The text over one bar, drawn from height `y` up. */
  datatype Note = Note(y: real, caption: Label)

  /** One bar chart: bar heights, the top of the y-axis, the notes. */
  datatype Chart = Chart(heights: seq<real>, yLimit: real, notes: seq<Note>)

  /** values_with_default: None drawn as a bar of height 0. */
  function Heights(values: seq<Option<real>>): (r: seq<real>)
    ensures |r| == |values|
    ensures forall k :: 0 <= k < |r| ==> (values[k].None? ==> r[k] == 0.0) && (values[k].Some? ==> r[k] == values[k].value)
  {
    seq(|values|, k requires 0 <= k < |values| => if values[k].None? then 0.0 else values[k].value)
  }

  /** [v for v in values if v is not None] */
  function Present(values: seq<Option<real>>): (r: seq<real>)
    ensures |r| <= |values|
    ensures forall x :: x in r <==> Some(x) in values
    ensures |r| == 0 <==> forall k :: 0 <= k < |values| ==> values[k].None?
  {
    if |values| == 0 then []
    else
      var init, last := values[..|values| - 1], values[|values| - 1];
      assert values == init + [last];
      Present(init) + (if last.Some? then [last.value] else [])
  }

  /** max(s, default=d) */
  function MaxOr(s: seq<real>, d: real): (m: real)
    ensures |s| == 0 ==> m == d
    ensures |s| > 0 ==> m in s
    ensures forall k :: 0 <= k < |s| ==> s[k] <= m
  {
    if |s| == 0 then d
    else if |s| == 1 then s[0]
    else
      var m := MaxOr(s[..|s| - 1], d);
      assert s == s[..|s| - 1] + [s[|s| - 1]];
      if s[|s| - 1] > m then s[|s| - 1] else m
  }

  /** max_value: the largest present value, or `d` when every value is
      missing. */
  function MaxValue(values: seq<Option<real>>, d: real): real
  {
    MaxOr(Present(values), d)
  }

  /** max_value bounds every present value and is one of them, or is the
      default when none is present. */
  lemma MaxValueBounds(values: seq<Option<real>>, d: real)
    ensures var m := MaxValue(values, d);
      && (forall k :: 0 <= k < |values| && values[k].Some? ==> values[k].value <= m)
      && ((exists k :: 0 <= k < |values| && values[k].Some?) ==> Some(m) in values)
      && ((forall k :: 0 <= k < |values| ==> values[k].None?) ==> m == d)
  {
    var p := Present(values);
    forall k | 0 <= k < |values| && values[k].Some? ensures values[k].value <= MaxValue(values, d) {
      assert values[k].value in p;
    }
    if exists k :: 0 <= k < |values| && values[k].Some? {
      var k :| 0 <= k < |values| && values[k].Some?;
      assert values[k].value in p;
    }
  }

  /** 'N/A' for a missing value, the value to two decimals otherwise. */
  function BarText(v: Option<real>): (l: Label)
    ensures l == NotAvailable <==> v.None?
    ensures v.Some? ==> l == Amount(v.value)
  {
    if v.None? then NotAvailable else Amount(v.value)
  }

  /** The notes of the closing loop: each at its bar's height plus 2 % of
      max_value. */
  function Notes(values: seq<Option<real>>, maxValue: real): (r: seq<Note>)
    ensures |r| == |values|
    ensures forall k :: 0 <= k < |r| ==>
      r[k] == Note(Heights(values)[k] + 0.02 * maxValue, BarText(values[k]))
  {
    var heights := Heights(values);
    seq(|values|, k requires 0 <= k < |values| => Note(heights[k] + 0.02 * maxValue, BarText(values[k])))
  }

  /** plot_bars of bar_chart_diet.py and of
      bar_chart_residential_energy_consumption.py: max_value defaults to 1 and
      the y-axis reaches 15 % above it. */
  function ScaledChart(values: seq<Option<real>>): (c: Chart)
    ensures c.heights == Heights(values)
    ensures c.notes == Notes(values, MaxValue(values, 1.0))
    // the axis reaches 15 % above the largest present value ...
    ensures forall k :: 0 <= k < |values| && values[k].Some? ==> 1.15 * values[k].value <= c.yLimit
    ensures (exists k :: 0 <= k < |values| && values[k].Some?) ==>
      exists k :: 0 <= k < |values| && values[k].Some? && c.yLimit == 1.15 * values[k].value
    // ... or to 1.15 when every value is missing
    ensures (forall k :: 0 <= k < |values| ==> values[k].None?) ==> c.yLimit == 1.15
  {
    var maxValue := MaxValue(values, 1.0);
    MaxValueBounds(values, 1.0);
    Chart(Heights(values), maxValue * 1.15, Notes(values, maxValue))
  }

  predicate NonNegative(values: seq<Option<real>>)
  {
    forall k :: 0 <= k < |values| && values[k].Some? ==> values[k].value >= 0.0
  }

  /** For non-negative data every bar and every note lies within the y-axis. */
  lemma ScaledChartFits(values: seq<Option<real>>)
    requires NonNegative(values)
    ensures var c := ScaledChart(values);
      && 0.0 <= c.yLimit
      && (forall k :: 0 <= k < |values| ==> c.heights[k] <= c.notes[k].y <= c.yLimit)
  {
    var m := MaxValue(values, 1.0);
    MaxValueBounds(values, 1.0);
    if forall k :: 0 <= k < |values| ==> values[k].None? {
      assert m == 1.0;
    } else {
      var k :| 0 <= k < |values| && values[k].Some?;
      assert m >= values[k].value >= 0.0;
    }
  }

  /** All-zero data gives max_value 0 here, so the y-axis collapses to
      [0, 0]. */
  lemma ZeroDataCollapsesAxis(values: seq<Option<real>>)
    requires |values| > 0 && forall k :: 0 <= k < |values| ==> values[k] == Some(0.0)
    ensures ScaledChart(values).yLimit == 0.0
  {
    MaxValueBounds(values, 1.0);
    assert values[0].Some?;
  }
}
