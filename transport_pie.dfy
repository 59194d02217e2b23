/** The transport pies (transport.py): transport modes whose distance is not
    positive are filtered out before the pie is drawn, every remaining wedge
    gets exactly one label, and colours and hatches follow the mode name. */
module TransportPie {
  import opened Geometry
  import opened Percentages
  import opened Annotations

  /** The modes every chart knows, in legend order. */
  const AllModes: seq<string> := ["Car", "Train", "Walking"]

  datatype Config = Config(minPct: real, pctDistance: real)

  /** plot_pie_charts' defaults: min_pct=5, pct_distance=0.75. */
  const Defaults: Config := Config(5.0, 0.75)

  const OutsideDistance: real := 1.2
  const LeaderStart: real := 0.9

  /** activities.get(mode, 0) */
  function Get(activities: map<string, real>, mode: string): real
  {
    if mode in activities then activities[mode] else 0.0
  }

  /** `sub` is `s` with some entries deleted, the rest in their order. */
  ghost predicate IsSubsequence<T>(sub: seq<T>, s: seq<T>)
    decreases |s|
  {
    if |sub| == 0 then true
    else if |s| == 0 then false
    else if sub[|sub| - 1] == s[|s| - 1] then IsSubsequence(sub[..|sub| - 1], s[..|s| - 1])
    else IsSubsequence(sub, s[..|s| - 1])
  }

  /** Keeping one more entry of the base keeps a subsequence. */
  lemma {:induction false} SubsequenceExtend<T>(sub: seq<T>, s: seq<T>, a: T)
    requires IsSubsequence(sub, s)
    ensures IsSubsequence(sub, s + [a])
    decreases |s|, 1
  {
    assert (s + [a])[..|s|] == s;
    if |sub| > 0 && sub[|sub| - 1] == a {
      SubsequenceDropLast(sub, s);
    }
  }

  /** Deleting the last entry of a subsequence keeps a subsequence. */
  lemma {:induction false} SubsequenceDropLast<T>(sub: seq<T>, s: seq<T>)
    requires |sub| > 0 && IsSubsequence(sub, s)
    ensures IsSubsequence(sub[..|sub| - 1], s)
    decreases |s|, 0
  {
    var init := s[..|s| - 1];
    assert s == init + [s[|s| - 1]];
    if sub[|sub| - 1] == s[|s| - 1] {
      SubsequenceExtend(sub[..|sub| - 1], init, s[|s| - 1]);
    } else {
      SubsequenceDropLast(sub, init);
      SubsequenceExtend(sub[..|sub| - 1], init, s[|s| - 1]);
    }
  }

  /** filtered_labels: the modes with a positive distance, in `modes` order. */
  function FilteredLabels(modes: seq<string>, activities: map<string, real>): (r: seq<string>)
    ensures forall m :: m in r <==> m in modes && Get(activities, m) > 0.0
    ensures IsSubsequence(r, modes)
  {
    if |modes| == 0 then []
    else
      var init, last := modes[..|modes| - 1], modes[|modes| - 1];
      var r := FilteredLabels(init, activities) + (if Get(activities, last) > 0.0 then [last] else []);
      assert modes == init + [last];
      if Get(activities, last) > 0.0 then
        assert r[..|r| - 1] == FilteredLabels(init, activities);
        r
      else
        assert r == FilteredLabels(init, activities);
        SubsequenceExtend(r, init, last);
        r
  }

  /** filtered_values: the distance of each filtered mode. */
  function FilteredValues(labels: seq<string>, activities: map<string, real>): (r: seq<real>)
    ensures |r| == |labels|
    ensures forall k :: 0 <= k < |r| ==> r[k] == Get(activities, labels[k])
  {
    seq(|labels|, k requires 0 <= k < |labels| => Get(activities, labels[k]))
  }

  /** Every filtered value is positive, so their sum is positive whenever any
      mode remains, and the percentages never divide by zero. */
  lemma FilteredValuesPositive(modes: seq<string>, activities: map<string, real>)
    ensures var values := FilteredValues(FilteredLabels(modes, activities), activities);
      && (forall k :: 0 <= k < |values| ==> values[k] > 0.0)
      && (|values| > 0 ==> Sum(values) > 0.0)
  {
    var values := FilteredValues(FilteredLabels(modes, activities), activities);
    SumOfPositives(values);
  }

  /** The label of a wedge with percentage `pct`: outside below min_pct,
      inside otherwise; never none. */
  function Place(w: Wedge, pct: real, cfg: Config): (r: Placement)
    ensures !r.NoLabel? && r.caption == Percent(pct)
    ensures r.Outside? <==> pct < cfg.minPct
    ensures r.Inside? ==> r.at == Polar(w, cfg.pctDistance)
    ensures r.Outside? ==>
      && r.at == Polar(w, OutsideDistance)
      && r.lineFrom == Polar(w, LeaderStart)
      && r.lineTo == Point(0.95 * r.at.x, 0.94 * r.at.y)
    // the leader stops short of its label on both axes
    ensures r.Outside? ==> Abs(r.lineTo.x) <= Abs(r.at.x) && Abs(r.lineTo.y) <= Abs(r.at.y)
  {
    if pct < cfg.minPct then
      var at := Polar(w, OutsideDistance);
      Outside(at, Polar(w, LeaderStart), Point(0.95 * at.x, 0.94 * at.y), Percent(pct))
    else
      Inside(Polar(w, cfg.pctDistance), Percent(pct))
  }

  function Placements(values: seq<real>, wedges: seq<Wedge>, cfg: Config): (ps: seq<Placement>)
    requires |values| == |wedges|
    requires forall k :: 0 <= k < |values| ==> values[k] > 0.0
    ensures |ps| == |wedges|
  {
    SumOfPositives(values);
    seq(|wedges|, i requires 0 <= i < |wedges| => Place(wedges[i], Pct(values, i), cfg))
  }

  /** Every wedge of a transport pie has exactly one label. */
  lemma EveryModeLabelled(values: seq<real>, wedges: seq<Wedge>, cfg: Config)
    requires |values| == |wedges|
    requires forall k :: 0 <= k < |values| ==> values[k] > 0.0
    ensures var ps := Placements(values, wedges, cfg);
      TextCount(Render(ps)) == |ps| && LeaderCount(Render(ps)) == OutsideCount(ps)
  {
    var ps := Placements(values, wedges, cfg);
    RenderCounts(ps);
    EveryWedgeLabelled(ps);
  }

  /** plot_pie_charts for one person: the filtering comprehensions, then the
      wedge loop over the pie of the filtered values. */
  method PlotPie(activities: map<string, real>, wedges: seq<Wedge>, cfg: Config) returns (marks: seq<Mark>)
    requires |wedges| == |FilteredLabels(AllModes, activities)|
    ensures var values := FilteredValues(FilteredLabels(AllModes, activities), activities);
      marks == Render(Placements(values, wedges, cfg))
  {
    var labels := FilteredLabels(AllModes, activities);
    var values := FilteredValues(labels, activities);
    FilteredValuesPositive(AllModes, activities);
    marks := WedgeLoop(values, wedges, cfg);
  }

  /** The wedge loop: one label per wedge, outside with a leader line below
      min_pct, inside otherwise. */
  method WedgeLoop(values: seq<real>, wedges: seq<Wedge>, cfg: Config) returns (marks: seq<Mark>)
    requires |values| == |wedges|
    requires forall k :: 0 <= k < |values| ==> values[k] > 0.0
    ensures marks == Render(Placements(values, wedges, cfg))
  {
    ghost var ps := Placements(values, wedges, cfg);
    SumOfPositives(values);
    marks := [];
    for i := 0 to |wedges|
      invariant marks == Render(ps[..i])
    {
      RenderStep(ps, i);
      var pct := 100.0 * values[i] / Sum(values);
      assert pct == Pct(values, i);
      if pct < cfg.minPct {
        var at := Polar(wedges[i], OutsideDistance);
        var start := Polar(wedges[i], LeaderStart);
        marks := marks + [Text(at, Percent(pct)), Leader(start, Point(0.95 * at.x, 0.94 * at.y))];
      } else {
        marks := marks + [Text(Polar(wedges[i], cfg.pctDistance), Percent(pct))];
      }
    }
    assert ps[..|wedges|] == ps;
  }

  /** The colour and hatch the chart gives a mode. */
  datatype Style = Style(colour: string, hatch: string)

  /** The styles of the wedges, looked up by mode name. */
  function WedgeStyles(labels: seq<string>, styles: map<string, Style>): (r: seq<Style>)
    requires forall k :: 0 <= k < |labels| ==> labels[k] in styles
    ensures |r| == |labels|
  {
    seq(|labels|, k requires 0 <= k < |labels| => styles[labels[k]])
  }

  /** A mode has the same style in every person's pie, whichever other modes
      were filtered out. */
  lemma ModeKeepsStyle(a: map<string, real>, b: map<string, real>, styles: map<string, Style>, i: nat, j: nat)
    requires forall m :: m in AllModes ==> m in styles
    requires i < |FilteredLabels(AllModes, a)| && j < |FilteredLabels(AllModes, b)|
    requires FilteredLabels(AllModes, a)[i] == FilteredLabels(AllModes, b)[j]
    ensures WedgeStyles(FilteredLabels(AllModes, a), styles)[i] == WedgeStyles(FilteredLabels(AllModes, b), styles)[j]
  {
    var fa, fb := FilteredLabels(AllModes, a), FilteredLabels(AllModes, b);
    assert fa[i] in fa && fb[j] in fb;
  }

  /** Connor, who did not use the car, gets a single 'Train' wedge. */
  lemma CarFilteredOut()
    ensures FilteredLabels(AllModes, map["Car" := 0.0, "Train" := 40.28]) == ["Train"]
  {
    var acts := map["Car" := 0.0, "Train" := 40.28];
    assert AllModes[..2][..1] == ["Car"] && AllModes[..2] == ["Car", "Train"];
    assert ["Car"][..0] == [];
    assert FilteredLabels(["Car"], acts) == [];
    assert FilteredLabels(["Car", "Train"], acts) == ["Train"];
  }
}
