/** adjust_label_positions of diet_consumption_pie_chart.py: the outside labels
    of one pie are sorted by y (a stable sort), then one forward pass lifts every
    label that is closer than y_spacing to its (already adjusted) predecessor to
    exactly y_spacing above it. */
module LabelSpreading {
  import opened Geometry

  /** The sort key of adjust_label_positions: pos[1]. */
  function YOf(p: Point): real
  {
    p.y
  }

  ghost predicate SortedBy<T>(s: seq<T>, key: T -> real)
  {
    forall i, j :: 0 <= i < j < |s| ==> key(s[i]) <= key(s[j])
  }

  /** Inserts e after every entry whose key is at most e's: the step of a
      stable insertion sort. */
  function InsertBy<T>(t: seq<T>, e: T, key: T -> real): (r: seq<T>)
    ensures |r| == |t| + 1
  {
    if |t| == 0 || key(t[|t| - 1]) <= key(e) then t + [e]
    else InsertBy(t[..|t| - 1], e, key) + [t[|t| - 1]]
  }

  /** list.sort(key=...): a stable sort, specified as insertion sort. */
  function SortBy<T>(s: seq<T>, key: T -> real): (r: seq<T>)
    ensures |r| == |s|
  {
    if |s| == 0 then [] else InsertBy(SortBy(s[..|s| - 1], key), s[|s| - 1], key)
  }

  lemma {:induction false} InsertByPermutes<T>(t: seq<T>, e: T, key: T -> real)
    ensures multiset(InsertBy(t, e, key)) == multiset(t) + multiset{e}
  {
    if |t| > 0 && key(t[|t| - 1]) > key(e) {
      InsertByPermutes(t[..|t| - 1], e, key);
      assert t == t[..|t| - 1] + [t[|t| - 1]];
    }
  }

  /** The sort is a permutation of its input. */
  lemma {:induction false} SortByPermutes<T>(s: seq<T>, key: T -> real)
    ensures multiset(SortBy(s, key)) == multiset(s)
  {
    if |s| > 0 {
      SortByPermutes(s[..|s| - 1], key);
      InsertByPermutes(SortBy(s[..|s| - 1], key), s[|s| - 1], key);
      assert s == s[..|s| - 1] + [s[|s| - 1]];
    }
  }

  lemma {:induction false} InsertBySorted<T>(t: seq<T>, e: T, key: T -> real)
    requires SortedBy(t, key)
    ensures SortedBy(InsertBy(t, e, key), key)
  {
    if |t| == 0 || key(t[|t| - 1]) <= key(e) {
    } else {
      var init, last := t[..|t| - 1], t[|t| - 1];
      InsertBySorted(init, e, key);
      InsertByPermutes(init, e, key);
      var u := InsertBy(init, e, key);
      forall x | x in u ensures key(x) <= key(last) {
        assert x in multiset(u);
        if x != e {
          assert x in multiset(init);
          var k :| 0 <= k < |init| && init[k] == x;
          assert t[k] == x;
        }
      }
      var r := u + [last];
      forall i, j | 0 <= i < j < |r| ensures key(r[i]) <= key(r[j]) {
        if j == |r| - 1 {
          assert r[i] in u;
        }
      }
    }
  }

  /** The sort orders by key. */
  lemma {:induction false} SortBySorted<T>(s: seq<T>, key: T -> real)
    ensures SortedBy(SortBy(s, key), key)
  {
    if |s| > 0 {
      SortBySorted(s[..|s| - 1], key);
      InsertBySorted(SortBy(s[..|s| - 1], key), s[|s| - 1], key);
    }
  }

  /** A list that is already in key order is left as it is. */
  lemma {:induction false} SortBySortedIsIdentity<T>(s: seq<T>, key: T -> real)
    requires SortedBy(s, key)
    ensures SortBy(s, key) == s
  {
    if |s| > 0 {
      var init := s[..|s| - 1];
      assert SortedBy(init, key);
      SortBySortedIsIdentity(init, key);
      assert s == init + [s[|s| - 1]];
    }
  }

  /** The entries of s whose key is v, in their order in s. */
  function WithKey<T>(s: seq<T>, key: T -> real, v: real): seq<T>
  {
    if |s| == 0 then []
    else WithKey(s[..|s| - 1], key, v) + (if key(s[|s| - 1]) == v then [s[|s| - 1]] else [])
  }

  lemma {:induction false} InsertByStable<T>(t: seq<T>, e: T, key: T -> real, v: real)
    ensures WithKey(InsertBy(t, e, key), key, v)
            == WithKey(t, key, v) + (if key(e) == v then [e] else [])
  {
    var r := InsertBy(t, e, key);
    if |t| == 0 || key(t[|t| - 1]) <= key(e) {
      assert r[..|r| - 1] == t;
    } else {
      var init, last := t[..|t| - 1], t[|t| - 1];
      InsertByStable(init, e, key, v);
      assert r[..|r| - 1] == InsertBy(init, e, key);
    }
  }

  /** The sort is stable: entries with equal keys keep their relative order. */
  lemma {:induction false} SortByStable<T>(s: seq<T>, key: T -> real, v: real)
    ensures WithKey(SortBy(s, key), key, v) == WithKey(s, key, v)
  {
    if |s| > 0 {
      SortByStable(s[..|s| - 1], key, v);
      InsertByStable(SortBy(s[..|s| - 1], key), s[|s| - 1], key, v);
    }
  }

  /** One step of the forward pass: curr against the adjusted prev. */
  function Nudge(prev: Point, curr: Point, ySpacing: real): (r: Point)
    ensures r.x == curr.x && r.y >= curr.y
    ensures ySpacing >= 0.0 ==> Abs(r.y - prev.y) >= ySpacing
    ensures r == curr || r.y == prev.y + ySpacing
  {
    if Abs(curr.y - prev.y) < ySpacing then Point(curr.x, prev.y + ySpacing) else curr
  }

  /** The forward pass of adjust_label_positions over a list. */
  function Spread(s: seq<Point>, ySpacing: real): (r: seq<Point>)
    ensures |r| == |s|
  {
    if |s| <= 1 then s
    else
      var t := Spread(s[..|s| - 1], ySpacing);
      t + [Nudge(t[|t| - 1], s[|s| - 1], ySpacing)]
  }

  /** The last entry of the pass is the last input nudged against the
      adjusted entry before it; the others are the pass over the shorter
      input. */
  lemma SpreadLast(s: seq<Point>, ySpacing: real)
    requires |s| > 1
    ensures var t := Spread(s[..|s| - 1], ySpacing);
      && Spread(s, ySpacing)[..|s| - 1] == t
      && Spread(s, ySpacing)[|s| - 1] == Nudge(t[|t| - 1], s[|s| - 1], ySpacing)
  {
  }

  /** The pass keeps every x and never lowers a y. */
  lemma {:induction false} SpreadRaises(s: seq<Point>, ySpacing: real)
    ensures var r := Spread(s, ySpacing);
      forall k :: 0 <= k < |s| ==> r[k].x == s[k].x && r[k].y >= s[k].y
  {
    if |s| > 1 {
      var init := s[..|s| - 1];
      SpreadRaises(init, ySpacing);
      SpreadLast(s, ySpacing);
      var r, t := Spread(s, ySpacing), Spread(init, ySpacing);
      forall k | 0 <= k < |s| ensures r[k].x == s[k].x && r[k].y >= s[k].y {
        if k < |s| - 1 {
          assert r[k] == t[k] && s[k] == init[k];
        }
      }
    }
  }

  /** With y_spacing >= 0 the pass leaves neighbours y_spacing apart. */
  lemma {:induction false} SpreadGaps(s: seq<Point>, ySpacing: real)
    requires ySpacing >= 0.0
    ensures var r := Spread(s, ySpacing);
      forall k :: 0 < k < |r| ==> Abs(r[k].y - r[k - 1].y) >= ySpacing
  {
    if |s| > 1 {
      var init := s[..|s| - 1];
      SpreadGaps(init, ySpacing);
      SpreadLast(s, ySpacing);
      var r, t := Spread(s, ySpacing), Spread(init, ySpacing);
      forall k | 0 < k < |r| ensures Abs(r[k].y - r[k - 1].y) >= ySpacing {
        if k < |s| - 1 {
          assert r[k] == t[k] && r[k - 1] == t[k - 1];
        }
      }
    }
  }

  /** The pass keeps every x, never lowers a y, leaves the first label where it
      is, and (for y_spacing >= 0) leaves neighbours at least y_spacing apart. */
  lemma {:induction false} SpreadBounds(s: seq<Point>, ySpacing: real)
    ensures var r := Spread(s, ySpacing);
      && (|s| > 0 ==> r[0] == s[0])
      && (forall k :: 0 <= k < |s| ==> r[k].x == s[k].x && r[k].y >= s[k].y)
      && (ySpacing >= 0.0 ==> forall k :: 0 < k < |r| ==> Abs(r[k].y - r[k - 1].y) >= ySpacing)
  {
    SpreadRaises(s, ySpacing);
    if ySpacing >= 0.0 {
      SpreadGaps(s, ySpacing);
    }
    if |s| > 1 {
      SpreadFirst(s, ySpacing);
    }
  }

  /** The lowest label is never moved. */
  lemma {:induction false} SpreadFirst(s: seq<Point>, ySpacing: real)
    requires |s| > 0
    ensures Spread(s, ySpacing)[0] == s[0]
  {
    if |s| > 1 {
      SpreadFirst(s[..|s| - 1], ySpacing);
      SpreadLast(s, ySpacing);
      assert Spread(s, ySpacing)[0] == Spread(s[..|s| - 1], ySpacing)[0];
    }
  }

  lemma {:induction false} SpreadPrefix(s: seq<Point>, ySpacing: real, n: nat)
    requires n <= |s|
    ensures Spread(s, ySpacing)[..n] == Spread(s[..n], ySpacing)
    decreases |s|
  {
    if n < |s| {
      var init := s[..|s| - 1];
      assert |s| > 1 ==> Spread(s, ySpacing)[..|s| - 1] == Spread(init, ySpacing);
      if n > 1 {
        SpreadPrefix(init, ySpacing, n);
        assert init[..n] == s[..n];
      } else {
        SpreadBounds(s, ySpacing);
        assert Spread(s[..n], ySpacing) == s[..n];
      }
    } else {
      assert s[..n] == s;
      assert Spread(s, ySpacing)[..n] == Spread(s, ySpacing);
    }
  }

  /** Each entry after the first is its input moved to exactly y_spacing above
      the adjusted entry before it when it was closer than y_spacing to it, and
      is its input unchanged otherwise. */
  lemma {:induction false} SpreadStep(s: seq<Point>, ySpacing: real, k: nat)
    requires 0 < k < |s|
    ensures var r := Spread(s, ySpacing);
      && r[k] == Nudge(r[k - 1], s[k], ySpacing)
      && (if Abs(s[k].y - r[k - 1].y) < ySpacing
          then r[k] == Point(s[k].x, r[k - 1].y + ySpacing)
          else r[k] == s[k])
  {
    var r := Spread(s, ySpacing);
    SpreadPrefix(s, ySpacing, k + 1);
    var t := Spread(s[..k], ySpacing);
    SpreadPrefix(s, ySpacing, k);
    assert s[..k + 1][..k] == s[..k];
    assert Spread(s[..k + 1], ySpacing) == t + [Nudge(t[k - 1], s[k], ySpacing)];
    assert r[k] == Spread(s[..k + 1], ySpacing)[k];
    assert r[k - 1] == t[k - 1];
  }

  /** Labels that are already y_spacing apart are not moved. */
  lemma {:induction false} SpreadKeepsSpaced(s: seq<Point>, ySpacing: real)
    requires forall k :: 0 < k < |s| ==> Abs(s[k].y - s[k - 1].y) >= ySpacing
    ensures Spread(s, ySpacing) == s
  {
    if |s| > 1 {
      var init := s[..|s| - 1];
      SpreadKeepsSpaced(init, ySpacing);
      assert s == init + [s[|s| - 1]];
    }
  }

  /** Running the forward pass a second time changes nothing. */
  lemma {:induction false} SpreadIdempotent(s: seq<Point>, ySpacing: real)
    requires ySpacing >= 0.0
    ensures Spread(Spread(s, ySpacing), ySpacing) == Spread(s, ySpacing)
  {
    SpreadBounds(s, ySpacing);
    SpreadKeepsSpaced(Spread(s, ySpacing), ySpacing);
  }

  /** What adjust_label_positions leaves in the list it is given. */
  function Adjusted(s: seq<Point>, ySpacing: real): (r: seq<Point>)
    ensures |r| == |s|
  {
    Spread(SortBy(s, YOf), ySpacing)
  }

  /** Every sorted entry is an input entry. */
  lemma SortedEntryFromInput<T>(s: seq<T>, key: T -> real, k: nat)
    requires k < |s|
    ensures exists j :: 0 <= j < |s| && s[j] == SortBy(s, key)[k]
  {
    var sorted := SortBy(s, key);
    SortByPermutes(s, key);
    assert sorted[k] in multiset(sorted);
    assert sorted[k] in multiset(s);
  }

  /** adjust_label_positions keeps the number of labels, and every adjusted
      label is an input label with its x kept and its y never lowered. */
  lemma AdjustedKeepsLabels(s: seq<Point>, ySpacing: real)
    ensures var r := Adjusted(s, ySpacing);
      forall k :: 0 <= k < |r| ==>
        exists j :: 0 <= j < |s| && r[k].x == s[j].x && r[k].y >= s[j].y
  {
    var sorted := SortBy(s, YOf);
    var r := Adjusted(s, ySpacing);
    SpreadBounds(sorted, ySpacing);
    forall k | 0 <= k < |r|
      ensures exists j :: 0 <= j < |s| && r[k].x == s[j].x && r[k].y >= s[j].y
    {
      SortedEntryFromInput(s, YOf, k);
    }
  }

  /** The lowest input label is the first of the result and is not moved. */
  lemma AdjustedLowestStays(s: seq<Point>, ySpacing: real)
    requires |s| > 0
    ensures var r := Adjusted(s, ySpacing);
      r[0] in s && forall j :: 0 <= j < |s| ==> r[0].y <= s[j].y
  {
    var sorted := SortBy(s, YOf);
    SortBySorted(s, YOf);
    SpreadBounds(sorted, ySpacing);
    SortedEntryFromInput(s, YOf, 0);
    SortByPermutes(s, YOf);
    forall j | 0 <= j < |s| ensures sorted[0].y <= s[j].y {
      assert s[j] in multiset(s);
      assert s[j] in multiset(sorted);
      var i :| 0 <= i < |sorted| && sorted[i] == s[j];
      assert YOf(sorted[0]) <= YOf(sorted[i]);
    }
  }

  /** With y_spacing >= 0, neighbours in the final list are at least y_spacing
      apart (in either direction). */
  lemma AdjustedNeighboursApart(s: seq<Point>, ySpacing: real)
    requires ySpacing >= 0.0
    ensures var r := Adjusted(s, ySpacing);
      forall k :: 0 < k < |r| ==> Abs(r[k].y - r[k - 1].y) >= ySpacing
  {
    SpreadBounds(SortBy(s, YOf), ySpacing);
  }

  /** A list already sorted by y whose neighbours are y_spacing apart comes back
      unchanged. */
  lemma AdjustedKeepsSpacedList(s: seq<Point>, ySpacing: real)
    requires SortedBy(s, YOf)
    requires forall k :: 0 < k < |s| ==> s[k].y - s[k - 1].y >= ySpacing
    ensures Adjusted(s, ySpacing) == s
  {
    SortBySortedIsIdentity(s, YOf);
    SpreadKeepsSpaced(s, ySpacing);
  }

  /** Two labels at y = 0.40 and y = 0.41 with y_spacing 0.2: the first stays,
      the second goes to 0.60. */
  lemma TwoCloseLabels()
    ensures Adjusted([Point(1.0, 0.41), Point(1.0, 0.40)], 0.2)
         == [Point(1.0, 0.40), Point(1.0, 0.60)]
  {
    var a, b := Point(1.0, 0.41), Point(1.0, 0.40);
    var s := [a, b];
    assert s[..1] == [a] && [a][..0] == [];
    assert SortBy([a], YOf) == [a];
    assert [a][..0] == [];
    assert InsertBy([a], b, YOf) == InsertBy([], b, YOf) + [a] == [b, a];
    assert SortBy(s, YOf) == [b, a];
    assert [b, a][..1] == [b];
    assert Spread([b], 0.2) == [b];
    assert Nudge(b, a, 0.2) == Point(1.0, 0.60);
    assert Spread([b, a], 0.2) == [b] + [Nudge(b, a, 0.2)];
  }

  /** The final list is not always in ascending y, and crowded labels can
      still overlap: in a run of labels at 0.40, 0.41, 0.41, 0.41 the last one
      is left where it was, below the lifted ones and 0.01 from the first. */
  lemma CrowdedRunFallsBack()
    ensures var r := Adjusted([Point(0.0, 0.40), Point(0.0, 0.41), Point(0.0, 0.41), Point(0.0, 0.41)], 0.2);
      && r == [Point(0.0, 0.40), Point(0.0, 0.60), Point(0.0, 0.80), Point(0.0, 0.41)]
      && r[3].y < r[2].y
      && Abs(r[3].y - r[0].y) < 0.2
  {
    var s := [Point(0.0, 0.40), Point(0.0, 0.41), Point(0.0, 0.41), Point(0.0, 0.41)];
    forall i, j | 0 <= i < j < |s| ensures YOf(s[i]) <= YOf(s[j]) {
      assert s[i].y <= 0.41 && s[j].y == 0.41;
    }
    SortBySortedIsIdentity(s, YOf);
    assert s[..2][..1] == s[..1] && s[..3][..2] == s[..2] && s[..4] == s;
    SpreadLast(s[..2], 0.2);
    assert Spread(s[..2], 0.2) == [Point(0.0, 0.40), Point(0.0, 0.60)];
    SpreadLast(s[..3], 0.2);
    assert Spread(s[..3], 0.2) == [Point(0.0, 0.40), Point(0.0, 0.60), Point(0.0, 0.80)];
    SpreadLast(s, 0.2);
  }

  /** The forward pass as its comments and callers intend it: a label is lifted
      whenever it is less than y_spacing ABOVE its adjusted predecessor (a signed
      gap, where adjust_label_positions tests the absolute difference). */
  function NudgeUp(prev: Point, curr: Point, ySpacing: real): Point
  {
    if curr.y - prev.y < ySpacing then Point(curr.x, prev.y + ySpacing) else curr
  }

  function SpreadUp(s: seq<Point>, ySpacing: real): (r: seq<Point>)
    ensures |r| == |s|
  {
    if |s| <= 1 then s
    else
      var t := SpreadUp(s[..|s| - 1], ySpacing);
      t + [NudgeUp(t[|t| - 1], s[|s| - 1], ySpacing)]
  }

  /** The corrected pass keeps every x, never lowers a y, and leaves every
      label at least y_spacing above its predecessor. */
  lemma {:induction false} SpreadUpGaps(s: seq<Point>, ySpacing: real)
    ensures var r := SpreadUp(s, ySpacing);
      && (forall k :: 0 <= k < |s| ==> r[k].x == s[k].x && r[k].y >= s[k].y)
      && (forall k :: 0 < k < |r| ==> r[k].y - r[k - 1].y >= ySpacing)
  {
    if |s| > 1 {
      SpreadUpGaps(s[..|s| - 1], ySpacing);
    }
  }

  /** With the corrected pass, ANY two labels (not only neighbours) end at
      least y_spacing apart, in ascending order. */
  lemma {:induction false} SpreadUpSeparates(s: seq<Point>, ySpacing: real)
    requires ySpacing >= 0.0
    ensures var r := SpreadUp(s, ySpacing);
      forall i, j :: 0 <= i < j < |r| ==> r[j].y - r[i].y >= ySpacing
  {
    var r := SpreadUp(s, ySpacing);
    SpreadUpGaps(s, ySpacing);
    forall i, j | 0 <= i < j < |r| ensures r[j].y - r[i].y >= ySpacing {
      var k := i + 1;
      while k < j
        invariant i + 1 <= k <= j
        invariant r[k].y - r[i].y >= ySpacing
      {
        k := k + 1;
      }
    }
  }

  /** The crowded run of CrowdedRunFallsBack, under the corrected pass. */
  lemma CrowdedRunClimbs()
    ensures SpreadUp([Point(0.0, 0.40), Point(0.0, 0.41), Point(0.0, 0.41), Point(0.0, 0.41)], 0.2)
         == [Point(0.0, 0.40), Point(0.0, 0.60), Point(0.0, 0.80), Point(0.0, 1.00)]
  {
    var s := [Point(0.0, 0.40), Point(0.0, 0.41), Point(0.0, 0.41), Point(0.0, 0.41)];
    assert s[..3][..2] == s[..2];
    assert s[..2][..1] == s[..1];
    assert s[..4] == s;
    assert SpreadUp(s[..2], 0.2) == [Point(0.0, 0.40), Point(0.0, 0.60)];
    assert SpreadUp(s[..3], 0.2) == [Point(0.0, 0.40), Point(0.0, 0.60), Point(0.0, 0.80)];
  }

  /** [f(e) for e in s] */
  function MapSeq<T, U>(s: seq<T>, f: T -> U): (r: seq<U>)
    ensures |r| == |s| && forall k :: 0 <= k < |s| ==> r[k] == f(s[k])
  {
    seq(|s|, k requires 0 <= k < |s| => f(s[k]))
  }

  /** Sorting moves whole entries: whatever is computed from each entry is
      permuted along with it. */
  lemma {:induction false} InsertByMapPermutes<T, U>(t: seq<T>, e: T, key: T -> real, f: T -> U)
    ensures multiset(MapSeq(InsertBy(t, e, key), f)) == multiset(MapSeq(t, f)) + multiset{f(e)}
  {
    if |t| == 0 || key(t[|t| - 1]) <= key(e) {
      assert MapSeq(t + [e], f) == MapSeq(t, f) + [f(e)];
    } else {
      var init, last := t[..|t| - 1], t[|t| - 1];
      InsertByMapPermutes(init, e, key, f);
      var u := InsertBy(init, e, key);
      assert MapSeq(u + [last], f) == MapSeq(u, f) + [f(last)];
      assert MapSeq(t, f) == MapSeq(init, f) + [f(last)];
    }
  }

  lemma {:induction false} SortByMapPermutes<T, U>(s: seq<T>, key: T -> real, f: T -> U)
    ensures multiset(MapSeq(SortBy(s, key), f)) == multiset(MapSeq(s, f))
  {
    if |s| > 0 {
      var init := s[..|s| - 1];
      SortByMapPermutes(init, key, f);
      InsertByMapPermutes(SortBy(init, key), s[|s| - 1], key, f);
      assert MapSeq(s, f) == MapSeq(init, f) + [f(s[|s| - 1])];
    }
  }

  /** Where insertion puts e: after the last entry with key at most e's, that
      is before the suffix of entries whose keys all exceed e's. */
  lemma {:induction false} InsertByAt(t: seq<Point>, p: Point, j: nat)
    requires j <= |t| && (j == 0 || t[j - 1].y <= p.y)
    requires forall k :: j <= k < |t| ==> t[k].y > p.y
    ensures InsertBy(t, p, YOf) == t[..j] + [p] + t[j..]
    decreases |t|
  {
    if j == |t| {
      assert t[..j] == t;
      if j > 0 {
        assert YOf(t[|t| - 1]) <= YOf(p);
      }
    } else {
      var init := t[..|t| - 1];
      assert YOf(t[|t| - 1]) > YOf(p);
      InsertByAt(init, p, j);
      assert init[..j] == t[..j];
      assert init[j..] + [t[|t| - 1]] == t[j..];
    }
  }

  /** One round of insertion sort: a[i] is moved down into the sorted prefix
      a[..i], after every entry whose y is at most its own. */
  method InsertIntoPrefix(a: array<Point>, i: nat)
    requires i < a.Length
    modifies a
    ensures a[..i + 1] == InsertBy(old(a[..i]), old(a[i]), YOf)
    ensures forall k :: i < k < a.Length ==> a[k] == old(a[k])
  {
    ghost var t := a[..i];
    var p := a[i];
    var j := i;
    while j > 0 && a[j - 1].y > p.y
      invariant 0 <= j <= i
      invariant forall k :: 0 <= k < j ==> a[k] == t[k]
      invariant forall k :: j < k <= i ==> a[k] == t[k - 1]
      invariant forall k :: i < k < a.Length ==> a[k] == old(a[k])
      invariant forall k :: j <= k < i ==> t[k].y > p.y
    {
      a[j] := a[j - 1];
      j := j - 1;
    }
    a[j] := p;
    InsertByAt(t, p, j);
    assert a[..i + 1] == t[..j] + [p] + t[j..];
  }

  /** One round of the in-place sort extends the sorted prefix by one entry. */
  lemma SortStep(input: seq<Point>, before: seq<Point>, after: seq<Point>, i: nat)
    requires i < |input| == |before| == |after|
    requires before[..i] == SortBy(input[..i], YOf) && before[i] == input[i]
    requires after[..i + 1] == InsertBy(before[..i], before[i], YOf)
    ensures after[..i + 1] == SortBy(input[..i + 1], YOf)
  {
    assert input[..i + 1][..i] == input[..i];
  }

  /** The sort of adjust_label_positions, in place: a stable insertion sort. */
  method SortInPlace(a: array<Point>)
    modifies a
    ensures a[..] == SortBy(old(a[..]), YOf)
  {
    ghost var input := a[..];
    var i := 0;
    while i < a.Length
      invariant 0 <= i <= a.Length
      invariant a[..i] == SortBy(input[..i], YOf)
      invariant forall k :: i <= k < a.Length ==> a[k] == input[k]
    {
      ghost var before := a[..];
      InsertIntoPrefix(a, i);
      SortStep(input, before, a[..], i);
      i := i + 1;
    }
    assert a[..] == a[..a.Length];
    assert input[..a.Length] == input;
  }

  /** The forward pass of adjust_label_positions, in place. */
  method SpreadInPlace(a: array<Point>, ySpacing: real)
    modifies a
    ensures a[..] == Spread(old(a[..]), ySpacing)
  {
    ghost var sorted := a[..];
    ghost var spread := Spread(sorted, ySpacing);
    if a.Length == 0 {
      return;
    }
    SpreadFirst(sorted, ySpacing);
    var i := 1;
    while i < a.Length
      invariant 1 <= i <= a.Length
      invariant forall k :: 0 <= k < i ==> a[k] == spread[k]
      invariant forall k :: i <= k < a.Length ==> a[k] == sorted[k]
    {
      var prev := a[i - 1];
      var curr := a[i];
      SpreadStep(sorted, ySpacing, i);
      if Abs(curr.y - prev.y) < ySpacing {
        a[i] := Point(curr.x, prev.y + ySpacing);
      }
      i := i + 1;
    }
    assert a[..] == spread;
  }

  /** adjust_label_positions: sorts the list in place by y, lifts crowded
      labels in one forward pass, and returns the same list. */
  method AdjustLabelPositions(positions: array<Point>, ySpacing: real) returns (r: array<Point>)
    modifies positions
    ensures r == positions
    ensures positions[..] == Adjusted(old(positions[..]), ySpacing)
  {
    SortInPlace(positions);
    SpreadInPlace(positions, ySpacing);
    r := positions;
  }
}
