/** Division by a variable, from the bounds of the remainder. */
module Division {

  lemma QuotientIs(x: nat, d: nat, q: nat)
    requires d > 0 && q * d <= x < q * d + d
    ensures x / d == q && x % d == x - q * d
  {
    var a := x / d - q;
    assert a * d == x / d * d - q * d;
    assert a >= 1 ==> a * d >= d;
    assert a <= -1 ==> a * d + d <= 0;
  }
}
