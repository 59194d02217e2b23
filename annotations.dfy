/** What the pie scripts draw on an axes: texts, dashed leader lines and the
    grey placeholder pie, and the per-wedge label decision they all share. */
module Annotations {
  import opened Geometry
  import opened Percentages

  datatype Option<T> = None | Some(value: T)

  /** The text of an annotation. Number formatting ('%1.1f%%', '{:.2f}') is
      not modelled: a label records the number it renders. */
  datatype Label =
    | Percent(pct: real)         // a wedge's percentage, one decimal and '%'
    | Amount(value: real)        // a bar's value, two decimals
    | NotAvailable               // the 'N/A' written over a missing bar
    | Unavailable(text: string)  // the text in the middle of a placeholder pie

  /** One drawing call on an axes, in the order the script makes it. */
  datatype Mark =
    | Text(at: Point, caption: Label)   // ax.text
    | Leader(from: Point, to: Point)  // ax.plot of a dashed segment
    | GreyDisc                        // ax.pie([1]) in grey, for missing data

  /** How one wedge is labelled. */
  datatype Placement =
    | NoLabel
    | Inside(at: Point, caption: Label)
    | Outside(at: Point, lineFrom: Point, lineTo: Point, caption: Label)

  /** custom_autopct: the percentage text of a wedge, or None for the empty
      string the scripts return for a small share or a narrow wedge. */
  function Autopct(pct: real, w: Wedge, minPct: real): (r: Option<Label>)
    ensures r.None? <==> pct < minPct || Span(w) < 15.0
    ensures r.Some? ==> r.value == Percent(pct)
  {
    if pct < minPct || w.theta2 - w.theta1 < 15.0 then None else Some(Percent(pct))
  }

  /** The drawing calls a script makes for one wedge: the label's text, then
      (for an outside label) its dashed line. */
  function MarksOf(p: Placement): seq<Mark>
  {
    match p
    case NoLabel => []
    case Inside(at, caption) => [Text(at, caption)]
    case Outside(at, lineFrom, lineTo, caption) => [Text(at, caption), Leader(lineFrom, lineTo)]
  }

  /** The drawing calls of a whole wedge loop, wedge by wedge. */
  function Render(ps: seq<Placement>): seq<Mark>
  {
    if |ps| == 0 then [] else Render(ps[..|ps| - 1]) + MarksOf(ps[|ps| - 1])
  }

  function TextCount(ms: seq<Mark>): nat
  {
    if |ms| == 0 then 0 else TextCount(ms[..|ms| - 1]) + (if ms[|ms| - 1].Text? then 1 else 0)
  }

  function LeaderCount(ms: seq<Mark>): nat
  {
    if |ms| == 0 then 0 else LeaderCount(ms[..|ms| - 1]) + (if ms[|ms| - 1].Leader? then 1 else 0)
  }

  /** The number of wedges that get a label. */
  function LabelledCount(ps: seq<Placement>): nat
  {
    if |ps| == 0 then 0 else LabelledCount(ps[..|ps| - 1]) + (if ps[|ps| - 1].NoLabel? then 0 else 1)
  }

  /** The number of wedges labelled outside the pie. */
  function OutsideCount(ps: seq<Placement>): nat
  {
    if |ps| == 0 then 0 else OutsideCount(ps[..|ps| - 1]) + (if ps[|ps| - 1].Outside? then 1 else 0)
  }

  lemma {:induction false} CountsOfConcat(a: seq<Mark>, b: seq<Mark>)
    ensures TextCount(a + b) == TextCount(a) + TextCount(b)
    ensures LeaderCount(a + b) == LeaderCount(a) + LeaderCount(b)
    decreases |b|
  {
    if |b| == 0 {
      assert a + b == a;
    } else {
      assert (a + b)[..|a + b| - 1] == a + b[..|b| - 1];
      CountsOfConcat(a, b[..|b| - 1]);
    }
  }

  /** Each labelled wedge contributes exactly one text and each outside label
      exactly one leader line; so no wedge is labelled twice. */
  lemma {:induction false} RenderCounts(ps: seq<Placement>)
    ensures TextCount(Render(ps)) == LabelledCount(ps) <= |ps|
    ensures LeaderCount(Render(ps)) == OutsideCount(ps) <= LabelledCount(ps)
  {
    if |ps| > 0 {
      var last := ps[|ps| - 1];
      RenderCounts(ps[..|ps| - 1]);
      CountsOfConcat(Render(ps[..|ps| - 1]), MarksOf(last));
      match last
      case NoLabel =>
      case Inside(at, caption) =>
        assert [Text(at, caption)][..0] == [];
      case Outside(at, lineFrom, lineTo, caption) =>
        var ms := [Text(at, caption), Leader(lineFrom, lineTo)];
        assert ms[..1] == [Text(at, caption)];
        assert [Text(at, caption)][..0] == [];
        assert TextCount(ms) == TextCount([Text(at, caption)]) == 1;
        assert LeaderCount(ms) == LeaderCount([Text(at, caption)]) + 1 == 1;
    }
  }

  /** Rendering a wedge loop one wedge further appends that wedge's marks. */
  lemma RenderStep(ps: seq<Placement>, i: nat)
    requires i < |ps|
    ensures Render(ps[..i + 1]) == Render(ps[..i]) + MarksOf(ps[i])
  {
    assert ps[..i + 1][..i] == ps[..i];
  }

  /** When every zero-valued wedge goes unlabelled, there are at most as many
      labels as non-zero values. */
  lemma {:induction false} LabelsOnlyOnNonZero(ps: seq<Placement>, values: seq<real>)
    requires |ps| == |values|
    requires forall k :: 0 <= k < |ps| && values[k] == 0.0 ==> ps[k].NoLabel?
    ensures LabelledCount(ps) <= NonZeroCount(values)
  {
    if |ps| > 0 {
      var n := |ps| - 1;
      LabelsOnlyOnNonZero(ps[..n], values[..n]);
    }
  }

  /** When no wedge goes unlabelled, every wedge has exactly one label. */
  lemma {:induction false} EveryWedgeLabelled(ps: seq<Placement>)
    requires forall k :: 0 <= k < |ps| ==> !ps[k].NoLabel?
    ensures LabelledCount(ps) == |ps|
  {
    if |ps| > 0 {
      EveryWedgeLabelled(ps[..|ps| - 1]);
    }
  }
}
