/** Magnitude and sign of exact decimals. */
module Reals {
  function Abs(x: real): (r: real)
    ensures r >= 0.0 && (r == x || r == -x)
  {
    if x < 0.0 then -x else x
  }

  function Signum(d: real): (r: real)
    ensures d == 0.0 ==> r == 0.0
    ensures d != 0.0 ==> r == 1.0 || r == -1.0
  {
    if d > 0.0 then 1.0 else if d < 0.0 then -1.0 else 0.0
  }

  function Min(x: real, y: real): real { if y < x then y else x }

  function Max(x: real, y: real): real { if y > x then y else x }

  predicate IsWhole(x: real) { x == x.Floor as real }
}
