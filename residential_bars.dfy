/** plot_bars of bar_chart_residential_energy_consumption.py, whose data has
    a missing value: the same chart rule as the diet bars
    (BarValues.ScaledChart), with None drawn as a zero-height 'N/A' bar. */
module ResidentialBars {
  import opened Annotations
  import opened BarValues

  /** Agnel's bars [0.318, None]: the missing heating oil is a bar of height
      0 labelled 'N/A', and the axis reaches 15 % above 0.318. */
  lemma AgnelChart()
    ensures ScaledChart([Some(0.318), None]) == Chart(
      [0.318, 0.0],
      1.15 * 0.318,
      [Note(0.318 + 0.02 * 0.318, Amount(0.318)), Note(0.02 * 0.318, NotAvailable)])
  {
    var values := [Some(0.318), None];
    MaxValueBounds(values, 1.0);
    assert values[0].Some? && values[1].None?;
    assert MaxValue(values, 1.0) == 0.318;
    assert Heights(values) == [0.318, 0.0];
  }

  /** With every value missing max_value falls back to 1: the axis is
      [0, 1.15] and every bar is a zero-height 'N/A'. */
  lemma AllMissing(values: seq<Option<real>>)
    requires forall k :: 0 <= k < |values| ==> values[k].None?
    ensures var c := ScaledChart(values);
      && c.yLimit == 1.15
      && forall k :: 0 <= k < |values| ==> c.heights[k] == 0.0 && c.notes[k] == Note(0.02, NotAvailable)
  {
    MaxValueBounds(values, 1.0);
  }
}
