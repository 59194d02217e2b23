/** The energy usage pies (energy_usage.py): a person with a missing value is
    drawn as a grey placeholder pie with a text in its middle; otherwise only
    inside labels are drawn, for wedges custom_autopct gives a text. */
module EnergyPie {
  import opened Geometry
  import opened Percentages
  import opened Annotations

  datatype Config = Config(minPct: real, pctDistance: real)

  /** plot_pie_charts' defaults: min_pct=5, pct_distance=0.75. */
  const Defaults: Config := Config(5.0, 0.75)

  /** One person's values (None when missing) and, when none is missing, the
      wedges of the pie drawn from them. */
  datatype Subject = Subject(values: seq<Option<real>>, wedges: seq<Wedge>)

  /** `None in values` */
  predicate HasMissing(values: seq<Option<real>>)
  {
    exists k :: 0 <= k < |values| && values[k].None?
  }

  /** The values of a person with no missing value. */
  function Present(values: seq<Option<real>>): (r: seq<real>)
    requires !HasMissing(values)
    ensures |r| == |values| && forall k :: 0 <= k < |r| ==> values[k] == Some(r[k])
  {
    seq(|values|, k requires 0 <= k < |values| => values[k].value)
  }

  /** A person the loop can draw: a placeholder, or a pie whose wedges match
      its values and whose total is positive. */
  predicate Drawable(s: Subject)
  {
    HasMissing(s.values) || (|s.wedges| == |s.values| && Sum(Present(s.values)) > 0.0)
  }

  /** The label of a wedge: inside at pct_distance when custom_autopct gives
      a text, none otherwise. */
  function Place(w: Wedge, pct: real, cfg: Config): (r: Placement)
    ensures r.Inside? <==> cfg.minPct <= pct && 15.0 <= Span(w)
    ensures !r.Outside?
    ensures r.Inside? ==> r.at == Polar(w, cfg.pctDistance) && r.caption == Percent(pct)
  {
    var pctText := Autopct(pct, w, cfg.minPct);
    if pctText.Some? then Inside(Polar(w, cfg.pctDistance), pctText.value) else NoLabel
  }

  function Placements(values: seq<real>, wedges: seq<Wedge>, cfg: Config): (ps: seq<Placement>)
    requires |values| == |wedges| && Sum(values) > 0.0
    ensures |ps| == |wedges|
  {
    seq(|wedges|, i requires 0 <= i < |wedges| => Place(wedges[i], Pct(values, i), cfg))
  }

  /** What is drawn for one person besides the pie itself. */
  function SubjectMarks(s: Subject, cfg: Config, unavailableText: string): seq<Mark>
    requires Drawable(s)
  {
    if HasMissing(s.values) then [GreyDisc, Text(Origin, Unavailable(unavailableText))]
    else Render(Placements(Present(s.values), s.wedges, cfg))
  }

  /** A person with a missing value gets the grey disc and the text at the
      centre and nothing else; any other person gets no leader line and one
      text per wedge custom_autopct labels, at most one per wedge. */
  lemma SubjectMarksShape(s: Subject, cfg: Config, unavailableText: string)
    requires Drawable(s)
    ensures var ms := SubjectMarks(s, cfg, unavailableText);
      && (HasMissing(s.values) ==> ms == [GreyDisc, Text(Point(0.0, 0.0), Unavailable(unavailableText))])
      && (!HasMissing(s.values) ==>
            var ps := Placements(Present(s.values), s.wedges, cfg);
            && GreyDisc !in ms
            && LeaderCount(ms) == 0
            && TextCount(ms) == LabelledCount(ps) <= |ps|)
  {
    if !HasMissing(s.values) {
      var ps := Placements(Present(s.values), s.wedges, cfg);
      RenderCounts(ps);
      assert OutsideCount(ps) == 0 by {
        NoOutside(ps);
      }
      NoGreyDisc(ps);
    }
  }

  lemma {:induction false} NoOutside(ps: seq<Placement>)
    requires forall k :: 0 <= k < |ps| ==> !ps[k].Outside?
    ensures OutsideCount(ps) == 0
  {
    if |ps| > 0 {
      NoOutside(ps[..|ps| - 1]);
    }
  }

  lemma {:induction false} NoGreyDisc(ps: seq<Placement>)
    ensures GreyDisc !in Render(ps)
  {
    if |ps| > 0 {
      NoGreyDisc(ps[..|ps| - 1]);
    }
  }

  /** The per-person loop of plot_pie_charts, one axes per person. */
  method PlotPieCharts(subjects: seq<Subject>, cfg: Config, unavailableText: string) returns (axes: seq<seq<Mark>>)
    requires forall k :: 0 <= k < |subjects| ==> Drawable(subjects[k])
    ensures |axes| == |subjects|
    ensures forall k :: 0 <= k < |subjects| ==> axes[k] == SubjectMarks(subjects[k], cfg, unavailableText)
  {
    axes := [];
    for n := 0 to |subjects|
      invariant |axes| == n
      invariant forall k :: 0 <= k < n ==> axes[k] == SubjectMarks(subjects[k], cfg, unavailableText)
    {
      var values := subjects[n].values;
      if exists k :: 0 <= k < |values| && values[k].None? {
        axes := axes + [[GreyDisc, Text(Point(0.0, 0.0), Unavailable(unavailableText))]];
        continue;
      }
      var marks := PlotPie(Present(values), subjects[n].wedges, cfg);
      axes := axes + [marks];
    }
  }

  /** The wedge loop of plot_pie_charts for one person with no missing value. */
  method PlotPie(values: seq<real>, wedges: seq<Wedge>, cfg: Config) returns (marks: seq<Mark>)
    requires |values| == |wedges| && Sum(values) > 0.0
    ensures marks == Render(Placements(values, wedges, cfg))
  {
    ghost var ps := Placements(values, wedges, cfg);
    marks := [];
    for i := 0 to |wedges|
      invariant marks == Render(ps[..i])
    {
      RenderStep(ps, i);
      var pct := 100.0 * values[i] / Sum(values);
      assert pct == Pct(values, i);
      var pctText := Autopct(pct, wedges[i], cfg.minPct);
      if pctText.Some? {
        marks := marks + [Text(Polar(wedges[i], cfg.pctDistance), pctText.value)];
      }
    }
    assert ps[..|wedges|] == ps;
  }

  /** Agnel's heating oil figure is missing, so with the text 'N/A' the pie is
      the placeholder. */
  lemma MissingHeatingOil(wedges: seq<Wedge>, cfg: Config)
    ensures var agnel := Subject([Some(317.50), None], wedges);
      Drawable(agnel) && SubjectMarks(agnel, cfg, "N/A") == [GreyDisc, Text(Origin, Unavailable("N/A"))]
  {
    var agnel := Subject([Some(317.50), None], wedges);
    assert agnel.values[1].None?;
  }
}
