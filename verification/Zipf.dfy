/** The popularity distribution: in-place normalisation and inverse-CDF sampling, over reals and
    arbitrary positive weights. */
module Zipf {
  function Sum(w: seq<real>, k: nat): real
    requires k <= |w|
  {
    if k == 0 then 0.0 else Sum(w, k - 1) + w[k - 1]
  }

  ghost predicate Positive(w: seq<real>) {
    forall i :: 0 <= i < |w| ==> w[i] > 0.0
  }

  lemma {:induction false} SumIncreases(w: seq<real>, j: nat, k: nat)
    requires Positive(w) && j < k <= |w|
    ensures Sum(w, j) < Sum(w, k)
  {
    if j < k - 1 { SumIncreases(w, j, k - 1); }
  }

  /** Entry i of the vector is the share of the first i weights. */
  ghost predicate IsCdf(v: seq<real>, w: seq<real>)
    requires Positive(w)
  {
    |v| == |w| + 1 && v[0] == 0.0 &&
    forall i :: 1 <= i <= |w| ==> Sum(w, |w|) != 0.0 && v[i] == Sum(w, i) / Sum(w, |w|)
  }

  method CreateDistribution(w: seq<real>) returns (v: array<real>)
    requires Positive(w)
    ensures fresh(v) && IsCdf(v[..], w)
  {
    v := new real[|w| + 1](_ => 0.0);
    for i := 1 to |w| + 1
      invariant forall k :: 0 <= k < i ==> v[k] == Sum(w, k)
    {
      v[i] := v[i - 1] + w[i - 1];
    }
    Normalise(v, w);
  }

  /** The loop divides by the last entry while it overwrites the vector, and overwrites the last
      entry last. */
  method Normalise(v: array<real>, w: seq<real>)
    requires Positive(w) && v.Length == |w| + 1
    requires forall k :: 0 <= k <= |w| ==> v[k] == Sum(w, k)
    modifies v
    ensures IsCdf(v[..], w)
  {
    var n := |w|;
    if n > 0 { SumIncreases(w, 0, n); }
    assert Sum(w, 0) == 0.0;
    hide Sum, Positive;
    for i := 1 to n + 1
      invariant v[0] == 0.0
      invariant forall k :: 1 <= k < i ==> v[k] == Sum(w, k) / Sum(w, n)
      invariant forall k :: i <= k <= n ==> v[k] == Sum(w, k)
    {
      v[i] := v[i] / v[n];
    }
  }

  lemma DivideKeepsOrder(a: real, b: real, c: real)
    requires a < b && c > 0.0
    ensures a / c < b / c
  {
  }

  lemma DivideAdds(a: real, b: real, c: real)
    requires c > 0.0
    ensures (a + b) / c == a / c + b / c && 0.0 / c == 0.0 && c / c == 1.0
  {
  }

  /** Entry i of the vector, the first one included, is a quotient. */
  lemma CdfAt(v: seq<real>, w: seq<real>, i: nat)
    requires Positive(w) && |w| > 0 && IsCdf(v, w) && i <= |w|
    ensures Sum(w, |w|) > 0.0 && v[i] == Sum(w, i) / Sum(w, |w|)
  {
    SumIncreases(w, 0, |w|);
    DivideAdds(0.0, 0.0, Sum(w, |w|));
  }

  /** The vector rises strictly from 0 to 1, in steps that are the shares of the weights. */
  lemma CdfShape(v: seq<real>, w: seq<real>)
    requires Positive(w) && |w| > 0 && IsCdf(v, w)
    ensures v[0] == 0.0 && v[|w|] == 1.0
    ensures forall i, j :: 0 <= i < j <= |w| ==> v[i] < v[j]
    ensures forall i {:trigger w[i]} :: 0 <= i < |w| ==> Sum(w, |w|) > 0.0 && v[i + 1] - v[i] == w[i] / Sum(w, |w|)
  {
    assert |v| == |w| + 1;
    hide IsCdf;
    var total := Sum(w, |w|);
    CdfAt(v, w, 0);
    CdfAt(v, w, |w|);
    DivideAdds(0.0, 0.0, total);
    forall i, j | 0 <= i < j <= |w| ensures v[i] < v[j] {
      CdfAt(v, w, i);
      CdfAt(v, w, j);
      SumIncreases(w, i, j);
      DivideKeepsOrder(Sum(w, i), Sum(w, j), total);
    }
    forall i {:trigger w[i]} | 0 <= i < |w| ensures Sum(w, |w|) > 0.0 && v[i + 1] - v[i] == w[i] / total {
      CdfAt(v, w, i);
      CdfAt(v, w, i + 1);
      DivideAdds(Sum(w, i), w[i], total);
    }
  }

  /** The scan from the left; 1 when no entry reaches p. */
  method Next(v: seq<real>, basis: nat, p: real) returns (index: nat)
    requires |v| > basis
    ensures (exists i :: 1 <= i <= basis && p <= v[i]) ==>
      1 <= index <= basis && p <= v[index] && forall i :: 1 <= i < index ==> v[i] < p
    ensures !(exists i :: 1 <= i <= basis && p <= v[i]) ==> index == 1
  {
    index := 1;
    for i := 1 to basis + 1
      invariant index == 1 && forall j :: 1 <= j < i ==> v[j] < p
    {
      if p <= v[i] { return i; }
    }
  }

  /** Inverse-CDF sampling: for p in (0, 1] the scan returns exactly the index whose step holds p. */
  method Sample(v: seq<real>, w: seq<real>, p: real) returns (index: nat)
    requires Positive(w) && |w| > 0 && IsCdf(v, w) && 0.0 < p <= 1.0
    ensures 1 <= index <= |w|
    ensures forall i :: 1 <= i <= |w| ==> (v[i - 1] < p <= v[i] <==> i == index)
  {
    CdfShape(v, w);
    assert p <= v[|w|];
    index := Next(v, |w|, p);
    forall i | 1 <= i <= |w| ensures v[i - 1] < p <= v[i] <==> i == index {
      if i < index { assert v[i] < p; }
      if i > index { assert v[index] <= v[i - 1]; }
      if i == index && i > 1 { assert v[i - 1] < p; }
    }
  }
}
