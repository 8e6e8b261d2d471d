/** The two pieces of the Arduino/C runtime the controller's arithmetic relies on:
    the `constrain` macro and the float-to-int conversion `(int)x`, both over the reals. */
module Arduino {

  /** Arduino's `constrain(amt, low, high)`: `low` when `amt` is below it, otherwise `high`
      when `amt` is above that, otherwise `amt` itself. */
  function Constrain(x: real, lo: real, hi: real): (r: real)
    ensures lo <= hi ==> lo <= r <= hi
    ensures lo <= x <= hi ==> r == x
    ensures x < lo ==> r == lo
    ensures lo <= x && hi < x ==> r == hi
  {
    if x < lo then lo else if x > hi then hi else x
  }

  /** Saturation into a symmetric interval commutes with negation. */
  lemma ConstrainOdd(x: real, b: real)
    requires 0.0 <= b
    ensures Constrain(-x, -b, b) == -Constrain(x, -b, b)
  {
  }

  /** C's conversion of a floating-point value to `int`: truncation toward zero. */
  function TruncToInt(x: real): (n: int)
    ensures 0.0 <= x ==> 0 <= n && n as real <= x < n as real + 1.0
    ensures x <= 0.0 ==> n <= 0 && n as real - 1.0 < x <= n as real
  {
    if x >= 0.0 then x.Floor else -((-x).Floor)
  }

  /** A value inside a range of whole numbers converts to a whole number inside that range. */
  lemma TruncWithin(x: real, lo: nat, hi: nat)
    ensures lo as real <= x <= hi as real ==> lo <= TruncToInt(x) <= hi
  {
    if lo as real <= x <= hi as real {
      var n := TruncToInt(x);
      assert n as real <= x && x < n as real + 1.0;
      assert (lo - 1) as real < n as real;
    }
  }
}
