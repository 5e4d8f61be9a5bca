/** Definitions several components share. */
module Common {

  datatype Option<+T> = None | Some(value: T)

  function Min(a: nat, b: nat): nat {
    if a < b then a else b
  }

  lemma Multiple(m: int, d: nat)
    ensures m >= 1 ==> m * d >= d
  {
  }

  /** Division with remainder is unique. */
  lemma EuclidUnique(a: nat, d: nat, q: int, r: nat)
    requires a == q * d + r && r < d
    ensures a % d == r
  {
    var q', r' := a / d, a % d;
    var x, y := q * d, q' * d;
    assert a == y + r' && 0 <= r' < d;
    Multiple(q - q', d);
    Multiple(q' - q, d);
    assert (q - q') * d == x - y && (q' - q) * d == y - x;
  }
}
