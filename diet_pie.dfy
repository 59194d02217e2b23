/** The wedge loop of plot_pie_charts in diet_consumption_pie_chart.py.

    Each wedge is skipped below 0.1 %, labelled inside at radius 0.6 from
    min_pct on, and labelled outside at label_distance in between. An outside
    label gets a dashed leader line at once; its text is drawn only after the
    loop, once adjust_label_positions has spread the outside labels of the pie.
    Hand-tuned shifts come from three tables keyed by (person, category). */
module DietPie {
  import opened Geometry
  import opened Percentages
  import opened Annotations
  import opened LabelSpreading

  /** (person, category): the key of the override tables. */
  type Key = (string, string)

  datatype Overrides = Overrides(
    offsets: map<Key, Point>,      // custom_offsets: shift of the label
    lineOffsets: map<Key, Point>,  // custom_line_offsets: shift of the leader's end
    lineLengths: map<Key, real>)   // custom_line_lengths: stretch of the leader

  /** The parameters of plot_pie_charts that steer the labels. Its pct_distance
      is passed only to the library's pie drawing and places no label here. */
  datatype Config = Config(minPct: real, labelDistance: real, ySpacing: real, fixedStartDistance: real)

  /** Wedges below this percentage get no label ("0.0%" would be shown). */
  const SkipBelowPct: real := 0.1

  /** The radius of inside labels, fixed in the code. */
  const InsideDistance: real := 0.6

  /** dict.get(key, (0, 0)) */
  function ShiftFor(m: map<Key, Point>, k: Key): Point
  {
    if k in m then m[k] else Origin
  }

  /** dict.get(key, 1.0) */
  function LengthFor(m: map<Key, real>, k: Key): real
  {
    if k in m then m[k] else 1.0
  }

  /** The end of a dashed leader: from `start`, `length` times the way to
      `anchor`, then shifted by `offset`. */
  function LeaderEnd(start: Point, anchor: Point, length: real, offset: Point): (e: Point)
    ensures length == 1.0 && offset == Origin ==> e == anchor
    ensures length == 0.0 ==> e == Add(start, offset)
    // without its shift the end stays on the line through start and anchor
    ensures (e.x - offset.x - start.x) * (anchor.y - start.y)
         == (e.y - offset.y - start.y) * (anchor.x - start.x)
  {
    var dx, dy := anchor.x - start.x, anchor.y - start.y;
    assert (dx * length) * dy == (dy * length) * dx;
    Point(start.x + dx * length + offset.x, start.y + dy * length + offset.y)
  }

  /** How wedge `w` with percentage `pct` of `person`'s category is labelled. */
  function Place(w: Wedge, pct: real, key: Key, cfg: Config, ov: Overrides): (r: Placement)
    ensures r.NoLabel? <==> pct < SkipBelowPct
    ensures r.Outside? <==> SkipBelowPct <= pct < cfg.minPct
    ensures r.Inside? <==> SkipBelowPct <= pct && cfg.minPct <= pct
    ensures !r.NoLabel? ==> r.caption == Percent(pct)
    ensures r.Inside? ==> r.at == Add(Polar(w, InsideDistance), ShiftFor(ov.offsets, key))
    // with no override for the wedge, its leader ends at its unadjusted label
    ensures r.Outside? && key !in ov.lineLengths && key !in ov.lineOffsets ==> r.lineTo == r.at
    ensures r.Outside? ==>
      && r.at == Add(Polar(w, cfg.labelDistance), ShiftFor(ov.offsets, key))
      && r.lineFrom == Polar(w, cfg.fixedStartDistance)
      && r.lineTo == LeaderEnd(r.lineFrom, r.at, LengthFor(ov.lineLengths, key), ShiftFor(ov.lineOffsets, key))
  {
    if pct < SkipBelowPct then NoLabel
    else
      var offset := ShiftFor(ov.offsets, key);
      if pct < cfg.minPct then
        var at := Add(Polar(w, cfg.labelDistance), offset);
        var from := Polar(w, cfg.fixedStartDistance);
        Outside(at, from, LeaderEnd(from, at, LengthFor(ov.lineLengths, key), ShiftFor(ov.lineOffsets, key)), Percent(pct))
      else
        Inside(Add(Polar(w, InsideDistance), offset), Percent(pct))
  }

  /** The placements of all wedges of `person`'s pie, in wedge order. */
  function Placements(person: string, categories: seq<string>, values: seq<real>, wedges: seq<Wedge>,
                      cfg: Config, ov: Overrides): (ps: seq<Placement>)
    requires |categories| == |values| == |wedges| && Sum(values) > 0.0
    ensures |ps| == |wedges|
  {
    seq(|wedges|, i requires 0 <= i < |wedges| =>
      Place(wedges[i], Pct(values, i), (person, categories[i]), cfg, ov))
  }

  /** What the wedge loop draws at once: an inside label's text, or an outside
      label's leader line. */
  function LoopMarksOf(p: Placement): seq<Mark>
  {
    match p
    case NoLabel => []
    case Inside(at, caption) => [Text(at, caption)]
    case Outside(_, lineFrom, lineTo, _) => [Leader(lineFrom, lineTo)]
  }

  function LoopMarks(ps: seq<Placement>): seq<Mark>
  {
    if |ps| == 0 then [] else LoopMarks(ps[..|ps| - 1]) + LoopMarksOf(ps[|ps| - 1])
  }

  /** small_label_positions: the outside anchors, in wedge order. */
  function OutsideAnchors(ps: seq<Placement>): (r: seq<Point>)
    ensures |r| == OutsideCount(ps)
  {
    if |ps| == 0 then []
    else OutsideAnchors(ps[..|ps| - 1]) + (if ps[|ps| - 1].Outside? then [ps[|ps| - 1].at] else [])
  }

  /** small_labels: the outside captions, in wedge order. */
  function OutsideCaptions(ps: seq<Placement>): (r: seq<Label>)
    ensures |r| == OutsideCount(ps)
  {
    if |ps| == 0 then []
    else OutsideCaptions(ps[..|ps| - 1]) + (if ps[|ps| - 1].Outside? then [ps[|ps| - 1].caption] else [])
  }

  /** The closing loop: zip(positions, captions), one text each. */
  function ZipTexts(positions: seq<Point>, captions: seq<Label>): (ms: seq<Mark>)
    requires |positions| == |captions|
    ensures |ms| == |positions|
  {
    seq(|positions|, k requires 0 <= k < |positions| => Text(positions[k], captions[k]))
  }

  /** Everything the diet script draws for one pie, besides the pie itself. */
  function DietMarks(person: string, categories: seq<string>, values: seq<real>, wedges: seq<Wedge>,
                     cfg: Config, ov: Overrides): seq<Mark>
    requires |categories| == |values| == |wedges| && Sum(values) > 0.0
  {
    var ps := Placements(person, categories, values, wedges, cfg, ov);
    LoopMarks(ps) + ZipTexts(Adjusted(OutsideAnchors(ps), cfg.ySpacing), OutsideCaptions(ps))
  }

  lemma LoopStep(ps: seq<Placement>, i: nat)
    requires i < |ps|
    ensures LoopMarks(ps[..i + 1]) == LoopMarks(ps[..i]) + LoopMarksOf(ps[i])
    ensures OutsideAnchors(ps[..i + 1])
         == OutsideAnchors(ps[..i]) + (if ps[i].Outside? then [ps[i].at] else [])
    ensures OutsideCaptions(ps[..i + 1])
         == OutsideCaptions(ps[..i]) + (if ps[i].Outside? then [ps[i].caption] else [])
  {
    assert ps[..i + 1][..i] == ps[..i];
  }

  /** plot_pie_charts for one person: the wedge loop, adjust_label_positions
      on the outside anchors, then the outside texts. */
  method PlotPie(person: string, categories: seq<string>, values: seq<real>, wedges: seq<Wedge>,
                 cfg: Config, ov: Overrides) returns (marks: seq<Mark>)
    requires |categories| == |values| == |wedges| && Sum(values) > 0.0
    ensures marks == DietMarks(person, categories, values, wedges, cfg, ov)
  {
    ghost var ps := Placements(person, categories, values, wedges, cfg, ov);
    var total := Sum(values);
    var smallPositions: seq<Point> := [];
    var smallLabels: seq<Label> := [];
    marks := [];
    for i := 0 to |wedges|
      invariant marks == LoopMarks(ps[..i])
      invariant smallPositions == OutsideAnchors(ps[..i])
      invariant smallLabels == OutsideCaptions(ps[..i])
    {
      LoopStep(ps, i);
      var pct := 100.0 * values[i] / total;
      assert pct == Pct(values, i);
      if pct < SkipBelowPct {
        continue;
      }
      var key := (person, categories[i]);
      var offset := ShiftFor(ov.offsets, key);
      var lineOffset := ShiftFor(ov.lineOffsets, key);
      var lineLength := LengthFor(ov.lineLengths, key);
      assert ps[i] == Place(wedges[i], pct, key, cfg, ov);
      if pct < cfg.minPct {
        var at := Add(Polar(wedges[i], cfg.labelDistance), offset);
        smallPositions := smallPositions + [at];
        smallLabels := smallLabels + [Percent(pct)];
        var lineStart := Polar(wedges[i], cfg.fixedStartDistance);
        var lineEnd := LeaderEnd(lineStart, at, lineLength, lineOffset);
        marks := marks + [Leader(lineStart, lineEnd)];
      } else {
        var at := Add(Polar(wedges[i], InsideDistance), offset);
        marks := marks + [Text(at, Percent(pct))];
      }
    }
    assert ps[..|wedges|] == ps;
    var buffer := new Point[|smallPositions|](k requires 0 <= k < |smallPositions| => smallPositions[k]);
    assert buffer[..] == smallPositions;
    var adjusted := AdjustLabelPositions(buffer, cfg.ySpacing);
    ghost var loopMarks := marks;
    for k := 0 to adjusted.Length
      invariant marks == loopMarks + ZipTexts(adjusted[..], smallLabels)[..k]
    {
      assert ZipTexts(adjusted[..], smallLabels)[..k + 1]
          == ZipTexts(adjusted[..], smallLabels)[..k] + [Text(adjusted[k], smallLabels[k])];
      marks := marks + [Text(adjusted[k], smallLabels[k])];
    }
    assert ZipTexts(adjusted[..], smallLabels)[..adjusted.Length] == ZipTexts(adjusted[..], smallLabels);
  }

  lemma {:induction false} LoopMarksCounts(ps: seq<Placement>)
    ensures TextCount(LoopMarks(ps)) + OutsideCount(ps) == LabelledCount(ps)
    ensures LeaderCount(LoopMarks(ps)) == OutsideCount(ps)
  {
    if |ps| > 0 {
      var last := ps[|ps| - 1];
      LoopMarksCounts(ps[..|ps| - 1]);
      CountsOfConcat(LoopMarks(ps[..|ps| - 1]), LoopMarksOf(last));
      match last
      case NoLabel =>
      case Inside(at, caption) =>
        assert [Text(at, caption)][..0] == [];
      case Outside(_, lineFrom, lineTo, _) =>
        assert [Leader(lineFrom, lineTo)][..0] == [];
    }
  }

  lemma {:induction false} ZipTextsCounts(positions: seq<Point>, captions: seq<Label>)
    requires |positions| == |captions|
    ensures TextCount(ZipTexts(positions, captions)) == |positions|
    ensures LeaderCount(ZipTexts(positions, captions)) == 0
    decreases |positions|
  {
    if |positions| > 0 {
      var n := |positions| - 1;
      assert ZipTexts(positions, captions)[..n] == ZipTexts(positions[..n], captions[..n]);
      ZipTextsCounts(positions[..n], captions[..n]);
    }
  }

  /** Over the whole plot of a pie, every labelled wedge gets exactly one text
      and every outside label exactly one leader line, whatever the spreading
      does to the positions. */
  lemma DietCounts(person: string, categories: seq<string>, values: seq<real>, wedges: seq<Wedge>,
                   cfg: Config, ov: Overrides)
    requires |categories| == |values| == |wedges| && Sum(values) > 0.0
    ensures var ps := Placements(person, categories, values, wedges, cfg, ov);
      var ms := DietMarks(person, categories, values, wedges, cfg, ov);
      TextCount(ms) == LabelledCount(ps) && LeaderCount(ms) == OutsideCount(ps)
  {
    var ps := Placements(person, categories, values, wedges, cfg, ov);
    var anchors := Adjusted(OutsideAnchors(ps), cfg.ySpacing);
    LoopMarksCounts(ps);
    ZipTextsCounts(anchors, OutsideCaptions(ps));
    CountsOfConcat(LoopMarks(ps), ZipTexts(anchors, OutsideCaptions(ps)));
  }

  /** Values [80, 15, 5] with min_pct 5: all three wedges are labelled inside,
      the last one exactly at the threshold. Values [90, 3, 7]: only the 3 %
      wedge is labelled outside. */
  lemma ThresholdExamples(person: string, categories: seq<string>, wedges: seq<Wedge>,
                          cfg: Config, ov: Overrides)
    requires |categories| == |wedges| == 3 && cfg.minPct == 5.0
    ensures Sum([80.0, 15.0, 5.0]) == 100.0 && Sum([90.0, 3.0, 7.0]) == 100.0
    ensures var ps := Placements(person, categories, [80.0, 15.0, 5.0], wedges, cfg, ov);
      ps[0].Inside? && ps[1].Inside? && ps[2].Inside? && ps[2].caption == Percent(5.0)
    ensures var ps := Placements(person, categories, [90.0, 3.0, 7.0], wedges, cfg, ov);
      ps[0].Inside? && ps[1].Outside? && ps[1].caption == Percent(3.0) && ps[2].Inside?
  {
    var a, b := [80.0, 15.0, 5.0], [90.0, 3.0, 7.0];
    assert [80.0, 15.0][..1] == [80.0] && [80.0][..0] == [] && a[..2] == [80.0, 15.0];
    assert Sum([80.0]) == 80.0;
    assert Sum([80.0, 15.0]) == 95.0;
    assert Sum(a) == 100.0;
    assert Pct(a, 0) == 80.0 && Pct(a, 1) == 15.0 && Pct(a, 2) == 5.0;
    assert [90.0, 3.0][..1] == [90.0] && [90.0][..0] == [] && b[..2] == [90.0, 3.0];
    assert Sum([90.0]) == 90.0;
    assert Sum([90.0, 3.0]) == 93.0;
    assert Sum(b) == 100.0;
    assert Pct(b, 0) == 90.0 && Pct(b, 1) == 3.0 && Pct(b, 2) == 7.0;
  }

  /** As written, the outside captions keep wedge order while their positions
      are sorted by y: two outside labels whose anchors descend (the 3 % wedge
      above the 1 % wedge) come out with each caption at the other wedge's
      position. */
  lemma CaptionsCanSwapWedges()
    ensures var anchors := [Point(-1.0, 0.5), Point(-1.1, 0.2)];
      ZipTexts(Adjusted(anchors, 0.15), [Percent(3.0), Percent(1.0)])
        == [Text(Point(-1.1, 0.2), Percent(3.0)), Text(Point(-1.0, 0.5), Percent(1.0))]
  {
    var anchors := [Point(-1.0, 0.5), Point(-1.1, 0.2)];
    assert anchors[..1] == [anchors[0]];
    assert SortBy(anchors[..1], YOf) == [anchors[0]];
    assert InsertBy([anchors[0]], anchors[1], YOf) == [anchors[1], anchors[0]];
    assert SortBy(anchors, YOf) == [anchors[1], anchors[0]];
    var sorted := [anchors[1], anchors[0]];
    assert sorted[..1] == [anchors[1]];
    assert Spread(sorted, 0.15) == sorted;
  }

  /** The positions and captions do stay matched when the outside anchors
      already ascend in y: the k-th caption is drawn at x of the k-th anchor. */
  lemma CaptionsMatchWhenAscending(anchors: seq<Point>, captions: seq<Label>, ySpacing: real)
    requires |anchors| == |captions|
    requires SortedBy(anchors, YOf)
    ensures var ms := ZipTexts(Adjusted(anchors, ySpacing), captions);
      forall k :: 0 <= k < |ms| ==> ms[k].caption == captions[k] && ms[k].at.x == anchors[k].x
  {
    SortBySortedIsIdentity(anchors, YOf);
    SpreadBounds(anchors, ySpacing);
  }

  /** A label position together with its caption. */
  type Tagged = (Point, Label)

  function TagY(t: Tagged): real { t.0.y }
  function TagAt(t: Tagged): Point { t.0 }
  function TagXCaption(t: Tagged): (real, Label) { (t.0.x, t.1) }

  function Tag(anchors: seq<Point>, captions: seq<Label>): (r: seq<Tagged>)
    requires |anchors| == |captions|
    ensures |r| == |anchors|
    ensures forall k :: 0 <= k < |r| ==> r[k].0 == anchors[k] && r[k].1 == captions[k]
  {
    seq(|anchors|, k requires 0 <= k < |anchors| => (anchors[k], captions[k]))
  }

  /** The outside labels as evidently intended: each caption is sorted
      together with its anchor, then spread with the signed gap. */
  function PairedOutsideLabels(anchors: seq<Point>, captions: seq<Label>, ySpacing: real): (r: seq<Tagged>)
    requires |anchors| == |captions|
    ensures |r| == |anchors|
  {
    var sorted := SortBy(Tag(anchors, captions), TagY);
    var spread := SpreadUp(MapSeq(sorted, TagAt), ySpacing);
    seq(|sorted|, k requires 0 <= k < |sorted| => (spread[k], sorted[k].1))
  }

  /** `t` carries the caption of some anchor, at that anchor's x and no lower. */
  ghost predicate RestsOnOwnAnchor(t: Tagged, anchors: seq<Point>, captions: seq<Label>)
    requires |anchors| == |captions|
  {
    exists j :: 0 <= j < |anchors| && t.1 == captions[j] && t.0.x == anchors[j].x && t.0.y >= anchors[j].y
  }

  /** In the corrected layout every caption is drawn at its own wedge's x and
      no lower than its own anchor (the multiset of (x, caption) pairs is the
      input's), and any two outside labels end at least y_spacing apart. */
  lemma PairedLabelsStayWithWedge(anchors: seq<Point>, captions: seq<Label>, ySpacing: real)
    requires |anchors| == |captions| && ySpacing >= 0.0
    ensures var r := PairedOutsideLabels(anchors, captions, ySpacing);
      && multiset(MapSeq(r, TagXCaption)) == multiset(MapSeq(Tag(anchors, captions), TagXCaption))
      && (forall k :: 0 <= k < |r| ==> RestsOnOwnAnchor(r[k], anchors, captions))
      && (forall i, j :: 0 <= i < j < |r| ==> r[j].0.y - r[i].0.y >= ySpacing)
  {
    var tagged := Tag(anchors, captions);
    var sorted := SortBy(tagged, TagY);
    var points := MapSeq(sorted, TagAt);
    var r := PairedOutsideLabels(anchors, captions, ySpacing);
    SpreadUpGaps(points, ySpacing);
    SpreadUpSeparates(points, ySpacing);
    assert MapSeq(r, TagXCaption) == MapSeq(sorted, TagXCaption);
    SortByMapPermutes(tagged, TagY, TagXCaption);
    forall k | 0 <= k < |r| ensures RestsOnOwnAnchor(r[k], anchors, captions) {
      SortedEntryFromInput(tagged, TagY, k);
      var j :| 0 <= j < |tagged| && tagged[j] == sorted[k];
      assert r[k].1 == captions[j] && r[k].0.x == anchors[j].x && r[k].0.y >= anchors[j].y;
    }
  }

  /** The two labels of CaptionsCanSwapWedges under the corrected layout: each
      caption stays at its own anchor. */
  lemma PairedCaptionsStay()
    ensures PairedOutsideLabels([Point(-1.0, 0.5), Point(-1.1, 0.2)], [Percent(3.0), Percent(1.0)], 0.15)
         == [(Point(-1.1, 0.2), Percent(1.0)), (Point(-1.0, 0.5), Percent(3.0))]
  {
    var high, low := (Point(-1.0, 0.5), Percent(3.0)), (Point(-1.1, 0.2), Percent(1.0));
    var tagged := Tag([Point(-1.0, 0.5), Point(-1.1, 0.2)], [Percent(3.0), Percent(1.0)]);
    assert tagged == [high, low];
    assert tagged[..1] == [high];
    assert SortBy([high], TagY) == [high];
    assert InsertBy([high], low, TagY) == InsertBy([], low, TagY) + [high] == [low, high];
    var sorted := SortBy(tagged, TagY);
    assert sorted == [low, high];
    var points := MapSeq(sorted, TagAt);
    assert points == [low.0, high.0];
    assert points[..1] == [low.0];
    assert SpreadUp(points, 0.15) == points;
  }
}
