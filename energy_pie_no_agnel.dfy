/** The residential energy pies without missing data
    (energy_usage_no_agnel.py): below min_pct a wedge is labelled outside with
    a leader line, otherwise inside when custom_autopct gives it a text. Zero
    values are not skipped. */
module EnergyPieNoAgnel {
  import opened Geometry
  import opened Percentages
  import opened Annotations

  datatype Config = Config(minPct: real, pctDistance: real)

  /** plot_pie_charts' defaults: min_pct=5, pct_distance=0.75. */
  const Defaults: Config := Config(5.0, 0.75)

  const OutsideDistance: real := 1.2
  const LeaderStart: real := 0.9

  /** The if/elif of the wedge loop, for a wedge with percentage `pct`. */
  function Place(w: Wedge, pct: real, cfg: Config): (r: Placement)
    ensures r.Outside? <==> pct < cfg.minPct
    ensures r.Inside? <==> cfg.minPct <= pct && 15.0 <= Span(w)
    ensures r.NoLabel? <==> cfg.minPct <= pct && Span(w) < 15.0
    ensures !r.NoLabel? ==> r.caption == Percent(pct)
    ensures r.Inside? ==> r.at == Polar(w, cfg.pctDistance)
    ensures r.Outside? ==>
      && r.at == Polar(w, OutsideDistance)
      && r.lineFrom == Polar(w, LeaderStart)
      && r.lineTo == Point(0.95 * r.at.x, 0.95 * r.at.y)
    // the leader ends on the wedge's mid-ray, short of its label
    ensures r.Outside? ==>
      && r.lineTo.x * w.sinMid == r.lineTo.y * w.cosMid
      && Abs(r.lineTo.x) <= Abs(r.at.x) && Abs(r.lineTo.y) <= Abs(r.at.y)
  {
    if pct < cfg.minPct then
      var at := Polar(w, OutsideDistance);
      assert (0.95 * at.x) * w.sinMid == 0.95 * (at.x * w.sinMid);
      assert (0.95 * at.y) * w.cosMid == 0.95 * (at.y * w.cosMid);
      Outside(at, Polar(w, LeaderStart), Point(0.95 * at.x, 0.95 * at.y), Percent(pct))
    else
      var pctText := Autopct(pct, w, cfg.minPct);
      if pctText.Some? then Inside(Polar(w, cfg.pctDistance), pctText.value) else NoLabel
  }

  function Placements(values: seq<real>, wedges: seq<Wedge>, cfg: Config): (ps: seq<Placement>)
    requires |values| == |wedges| && Sum(values) > 0.0
    ensures |ps| == |wedges|
  {
    seq(|wedges|, i requires 0 <= i < |wedges| => Place(wedges[i], Pct(values, i), cfg))
  }

  /** The wedge loop of plot_pie_charts for one person. */
  method PlotPie(values: seq<real>, wedges: seq<Wedge>, cfg: Config) returns (marks: seq<Mark>)
    requires |values| == |wedges| && Sum(values) > 0.0
    ensures marks == Render(Placements(values, wedges, cfg))
  {
    ghost var ps := Placements(values, wedges, cfg);
    marks := [];
    for i := 0 to |wedges|
      invariant marks == Render(ps[..i])
    {
      RenderStep(ps, i);
      var pct := 100.0 * values[i] / Sum(values);
      assert pct == Pct(values, i);
      var pctText := Autopct(pct, wedges[i], cfg.minPct);
      if pct < cfg.minPct {
        var at := Polar(wedges[i], OutsideDistance);
        var start := Polar(wedges[i], LeaderStart);
        marks := marks + [Text(at, Percent(pct)), Leader(start, Point(0.95 * at.x, 0.95 * at.y))];
      } else if pctText.Some? {
        marks := marks + [Text(Polar(wedges[i], cfg.pctDistance), pctText.value)];
      }
    }
    assert ps[..|wedges|] == ps;
  }

  /** A zero value is not skipped: with a positive min_pct its 0 % label is
      drawn outside, with a leader line. */
  lemma ZeroValueLabelledOutside(values: seq<real>, wedges: seq<Wedge>, cfg: Config, i: nat)
    requires |values| == |wedges| && Sum(values) > 0.0
    requires i < |values| && values[i] == 0.0 && cfg.minPct > 0.0
    ensures Placements(values, wedges, cfg)[i] == Place(wedges[i], 0.0, cfg)
    ensures Placements(values, wedges, cfg)[i].Outside?
    ensures Placements(values, wedges, cfg)[i].caption == Percent(0.0)
  {
    assert Pct(values, i) == 0.0;
  }

  /** Each wedge gets at most one label, and exactly the outside labels get a
      leader line. */
  lemma LabelCounts(values: seq<real>, wedges: seq<Wedge>, cfg: Config)
    requires |values| == |wedges| && Sum(values) > 0.0
    ensures var ps := Placements(values, wedges, cfg);
      && TextCount(Render(ps)) == LabelledCount(ps) <= |ps|
      && LeaderCount(Render(ps)) == OutsideCount(ps)
  {
    RenderCounts(Placements(values, wedges, cfg));
  }
}
