/** Signed decimal amounts. The source uses an arbitrary precision decimal type; `real` is that type with exact
    division. */
module Money {

  datatype Option<+T> = None | Some(value: T)

  function Abs(x: real): (r: real)
    ensures r >= 0.0 && (r == x || r == -x)
    ensures r == 0.0 <==> x == 0.0
  {
    if x < 0.0 then -x else x
  }

  function Sign(x: real): int {
    if x > 0.0 then 1 else if x < 0.0 then -1 else 0
  }

  /** Going from `before` to `after` does not jump over zero. */
  predicate StaysOnSide(before: real, after: real) {
    !(before > 0.0 && after < 0.0) && !(before < 0.0 && after > 0.0)
  }

  lemma DivPositive(x: real, y: real)
    requires x > 0.0 && y > 0.0
    ensures x / y > 0.0
  {
    var q := x / y;
    assert q * y == x;
  }
}
