/** Division with remainder. */
module Arithmetic {
  lemma MultiplesAreApart(a: nat, b: nat, f: nat)
    requires a < b
    ensures a * f + f <= b * f
  {
    assert b * f == a * f + f + (b - a - 1) * f;
  }

  lemma ModOfBlock(k: nat, f: nat, j: nat)
    requires j < f
    ensures (k * f + j) % f == j && (k * f + j) / f == k
  {
    var x := k * f + j;
    DivMod(x, f);
    if x / f < k { MultiplesAreApart(x / f, k, f); }
    if k < x / f { MultiplesAreApart(k, x / f, f); }
  }

  lemma DivMod(x: nat, f: nat)
    requires f > 0
    ensures x == x / f * f + x % f && 0 <= x % f < f && x / f >= 0
  {
  }
}
