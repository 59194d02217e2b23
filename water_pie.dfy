/** The wedge loop of plot_pie_charts in main.py (the water consumption pies).

    A wedge of exactly 0 % is skipped. Connor's 'Cleaning Dishes' and
    'Washing Machine' wedges are always labelled outside (the latter shifted
    right by 0.1). Other wedges below min_pct are labelled outside, and the
    rest inside at pct_distance when custom_autopct gives them a text. */
module WaterPie {
  import opened Geometry
  import opened Percentages
  import opened Annotations

  /** The parameters of plot_pie_charts that steer the labels. */
  datatype Config = Config(minPct: real, pctDistance: real)

  /** plot_pie_charts' defaults: min_pct=5, pct_distance=0.73. */
  const Defaults: Config := Config(5.0, 0.73)

  /** calculate_external_text_position is always called with 1.2 here. */
  const OutsideDistance: real := 1.2

  /** Leader lines start at this radius. */
  const LeaderStart: real := 0.9

  /** The shift of Connor's 'Washing Machine' label along x. */
  const WashingShift: real := 0.1

  predicate IsConnorDishes(person: string, category: string)
  {
    person == "Connor" && category == "Cleaning Dishes"
  }

  predicate IsConnorWashing(person: string, category: string)
  {
    person == "Connor" && category == "Washing Machine"
  }

  predicate IsSpecial(person: string, category: string)
  {
    IsConnorDishes(person, category) || IsConnorWashing(person, category)
  }

  /** An outside label at radius 1.2 moved `dx` along x, with its leader from
      radius 0.9 to (0.94 x, 0.92 y) of the label. */
  function OutsideLabel(w: Wedge, pct: real, dx: real): Placement
  {
    var anchor := Polar(w, OutsideDistance);
    var at := Point(anchor.x + dx, anchor.y);
    Outside(at, Polar(w, LeaderStart), Point(0.94 * at.x, 0.92 * at.y), Percent(pct))
  }

  /** The if/elif chain of the wedge loop, for a wedge with percentage `pct`. */
  function Place(w: Wedge, pct: real, person: string, category: string, cfg: Config): (r: Placement)
    ensures r.NoLabel? <==>
      pct == 0.0 || (!IsSpecial(person, category) && cfg.minPct <= pct && Span(w) < 15.0)
    ensures r.Outside? <==> pct != 0.0 && (IsSpecial(person, category) || pct < cfg.minPct)
    ensures r.Inside? <==>
      pct != 0.0 && !IsSpecial(person, category) && cfg.minPct <= pct && 15.0 <= Span(w)
    ensures !r.NoLabel? ==> r.caption == Percent(pct)
    ensures r.Inside? ==> r.at == Polar(w, cfg.pctDistance)
    ensures r.Outside? ==>
      && r.at.x == Polar(w, OutsideDistance).x + (if IsConnorWashing(person, category) then WashingShift else 0.0)
      && r.at.y == Polar(w, OutsideDistance).y
      && r.lineFrom == Polar(w, LeaderStart)
      && r.lineTo == Point(0.94 * r.at.x, 0.92 * r.at.y)
    // the leader stops short of its label on both axes
    ensures r.Outside? ==> Abs(r.lineTo.x) <= Abs(r.at.x) && Abs(r.lineTo.y) <= Abs(r.at.y)
  {
    if pct == 0.0 then NoLabel
    else if IsConnorDishes(person, category) then OutsideLabel(w, pct, 0.0)
    else if IsConnorWashing(person, category) then OutsideLabel(w, pct, WashingShift)
    else if pct < cfg.minPct || IsConnorWashing(person, category) then OutsideLabel(w, pct, 0.0)
    else
      var pctText := Autopct(pct, w, cfg.minPct);
      if pctText.Some? then Inside(Polar(w, cfg.pctDistance), pctText.value) else NoLabel
  }

  /** The placements of all wedges of `person`'s pie, in wedge order. */
  function Placements(person: string, categories: seq<string>, values: seq<real>, wedges: seq<Wedge>,
                      cfg: Config): (ps: seq<Placement>)
    requires |categories| == |values| == |wedges| && Sum(values) > 0.0
    ensures |ps| == |wedges|
  {
    seq(|wedges|, i requires 0 <= i < |wedges| =>
      Place(wedges[i], Pct(values, i), person, categories[i], cfg))
  }

  /** The wedge loop of plot_pie_charts for one person. */
  method PlotPie(person: string, categories: seq<string>, values: seq<real>, wedges: seq<Wedge>,
                 cfg: Config) returns (marks: seq<Mark>)
    requires |categories| == |values| == |wedges| && Sum(values) > 0.0
    ensures marks == Render(Placements(person, categories, values, wedges, cfg))
  {
    ghost var ps := Placements(person, categories, values, wedges, cfg);
    marks := [];
    for i := 0 to |wedges|
      invariant marks == Render(ps[..i])
    {
      RenderStep(ps, i);
      var pct := 100.0 * values[i] / Sum(values);
      assert pct == Pct(values, i);
      if pct == 0.0 {
        continue;
      }
      var pctText := Autopct(pct, wedges[i], cfg.minPct);
      var category := categories[i];
      if IsConnorDishes(person, category) {
        var at := Polar(wedges[i], OutsideDistance);
        var start := Polar(wedges[i], LeaderStart);
        marks := marks + [Text(at, Percent(pct)), Leader(start, Point(0.94 * at.x, 0.92 * at.y))];
      } else if IsConnorWashing(person, category) {
        var at := Polar(wedges[i], OutsideDistance);
        at := Point(at.x + WashingShift, at.y);
        var start := Polar(wedges[i], LeaderStart);
        marks := marks + [Text(at, Percent(pct)), Leader(start, Point(0.94 * at.x, 0.92 * at.y))];
      } else if pct < cfg.minPct || IsConnorWashing(person, category) {
        var at := Polar(wedges[i], OutsideDistance);
        var start := Polar(wedges[i], LeaderStart);
        marks := marks + [Text(at, Percent(pct)), Leader(start, Point(0.94 * at.x, 0.92 * at.y))];
      } else if pctText.Some? {
        marks := marks + [Text(Polar(wedges[i], cfg.pctDistance), pctText.value)];
      }
    }
    assert ps[..|wedges|] == ps;
  }

  /** Each wedge gets at most one label, only wedges with a non-zero value get
      one, and exactly the outside labels get a leader line. */
  lemma LabelCounts(person: string, categories: seq<string>, values: seq<real>, wedges: seq<Wedge>,
                    cfg: Config)
    requires |categories| == |values| == |wedges| && Sum(values) > 0.0
    ensures var ps := Placements(person, categories, values, wedges, cfg);
      var ms := Render(ps);
      && TextCount(ms) == LabelledCount(ps) <= NonZeroCount(values)
      && LeaderCount(ms) == OutsideCount(ps)
  {
    var ps := Placements(person, categories, values, wedges, cfg);
    RenderCounts(ps);
    LabelsOnlyOnNonZero(ps, values);
  }

  /** The washing-machine disjunct of the third branch never decides anything:
      dropping it yields the same placement for every wedge. */
  lemma WashingClauseUnreachable(w: Wedge, pct: real, person: string, category: string, cfg: Config)
    ensures Place(w, pct, person, category, cfg) ==
      if pct == 0.0 then NoLabel
      else if IsConnorDishes(person, category) then OutsideLabel(w, pct, 0.0)
      else if IsConnorWashing(person, category) then OutsideLabel(w, pct, WashingShift)
      else if pct < cfg.minPct then OutsideLabel(w, pct, 0.0)
      else if Autopct(pct, w, cfg.minPct).Some? then Inside(Polar(w, cfg.pctDistance), Percent(pct))
      else NoLabel
  {
  }
}
