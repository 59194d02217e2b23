/** The share of one wedge in its pie: pct = 100 * value / sum(values). */
module Percentages {

  /** Python's sum() of a list of numbers. */
  function Sum(s: seq<real>): real
  {
    if |s| == 0 then 0.0 else Sum(s[..|s| - 1]) + s[|s| - 1]
  }

  /** How many entries of `s` are not zero. */
  function NonZeroCount(s: seq<real>): nat
  {
    if |s| == 0 then 0 else NonZeroCount(s[..|s| - 1]) + (if s[|s| - 1] == 0.0 then 0 else 1)
  }

  /** The percentage every wedge loop computes for wedge i. The scripts divide
      by the total without a guard, so the total must be positive. */
  function Pct(values: seq<real>, i: nat): (p: real)
    requires i < |values| && Sum(values) > 0.0
    ensures p == 0.0 <==> values[i] == 0.0
    ensures p < 0.0 <==> values[i] < 0.0
  {
    100.0 * values[i] / Sum(values)
  }

  /** The percentages of all wedges of a pie, in wedge order. */
  function Pcts(values: seq<real>): (ps: seq<real>)
    requires Sum(values) > 0.0
    ensures |ps| == |values|
  {
    seq(|values|, i requires 0 <= i < |values| => Pct(values, i))
  }

  /** A list of positive numbers has a positive sum. */
  lemma {:induction false} SumOfPositives(s: seq<real>)
    requires forall k :: 0 <= k < |s| ==> s[k] > 0.0
    ensures |s| > 0 ==> Sum(s) > 0.0
    ensures Sum(s) >= 0.0
  {
    if |s| > 0 {
      SumOfPositives(s[..|s| - 1]);
    }
  }

  lemma {:induction false} PrefixPctSum(values: seq<real>, n: nat)
    requires n <= |values| && Sum(values) > 0.0
    ensures Sum(Pcts(values)[..n]) == 100.0 * Sum(values[..n]) / Sum(values)
  {
    var ps := Pcts(values);
    var t := Sum(values);
    if n == 0 {
      assert values[..0] == [];
      assert ps[..0] == [];
    } else {
      PrefixPctSum(values, n - 1);
      assert ps[..n][..n - 1] == ps[..n - 1];
      assert values[..n][..n - 1] == values[..n - 1];
      var a, b := Sum(values[..n - 1]), values[n - 1];
      assert Sum(values[..n]) == a + b;
      assert Sum(ps[..n]) == 100.0 * a / t + 100.0 * b / t;
      assert 100.0 * a / t + 100.0 * b / t == 100.0 * (a + b) / t;
    }
  }

  /** The percentages of a pie add up to 100. */
  lemma PctsSumTo100(values: seq<real>)
    requires Sum(values) > 0.0
    ensures Sum(Pcts(values)) == 100.0
  {
    var t := Sum(values);
    PrefixPctSum(values, |values|);
    assert Pcts(values)[..|values|] == Pcts(values);
    assert values[..|values|] == values;
    assert Sum(Pcts(values)) == 100.0 * t / t;
    assert t / t == 1.0;
    assert 100.0 * t / t == 100.0 * (t / t);
  }
}
