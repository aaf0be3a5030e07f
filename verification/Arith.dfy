/** Facts about division, remainders and sequences of numbers that the other modules share. */
module Arith {

  lemma DivMod(w: nat, a: nat)
    requires a > 0
    ensures w / a * a == w - w % a
  {
  }

  lemma MulLe(x: nat, y: nat, a: nat)
    requires x <= y
    ensures x * a <= y * a
  {
  }

  lemma ModUnique(x: nat, a: nat, q: nat, r: nat)
    requires a > 0 && x == q * a + r && r < a
    ensures x % a == r && x / a == q
  {
    DivMod(x, a);
    var p := x / a;
    if p < q {
      MulLe(p + 1, q, a);
    } else if q < p {
      MulLe(q + 1, p, a);
    }
  }

  /** The greatest multiple of `a` that is not above `w`. */
  function FloorTo(w: nat, a: nat): (r: nat)
    requires a > 0
    ensures r == w - w % a
  {
    DivMod(w, a);
    w / a * a
  }

  lemma FloorToMultiple(w: nat, a: nat)
    requires a > 0
    ensures FloorTo(w, a) % a == 0
  {
    DivMod(w, a);
    ModUnique(w - w % a, a, w / a, 0);
  }

  predicate Distinct(c: seq<nat>) { forall i, j :: 0 <= i < j < |c| ==> c[i] != c[j] }
}
