/** Rounding to the nearest integer, ties to even, as Python's round does. */
module Rounding {

  function Nearest(x: real): (n: int)
    ensures n as real - 0.5 <= x <= n as real + 0.5
  {
    var below := x.Floor;
    var rest := x - below as real;
    if rest < 0.5 || (rest == 0.5 && below % 2 == 0) then below else below + 1
  }

  // round(x, 3).
  function Round3(x: real): real {
    Nearest(x * 1000.0) as real / 1000.0
  }

  // round(x, 4).
  function Round4(x: real): real {
    Nearest(x * 10000.0) as real / 10000.0
  }

  lemma NearestIsMonotone(x: real, n: int)
    requires x >= n as real
    ensures Nearest(x) >= n
  {
    assert x.Floor >= n;
  }

  lemma Round3AtLeast(x: real, n: int)
    requires x >= n as real / 1000.0
    ensures Round3(x) >= n as real / 1000.0
  {
    NearestIsMonotone(x * 1000.0, n);
  }

  lemma NearestAtMost(x: real, n: int)
    requires x <= n as real
    ensures Nearest(x) <= n
  {
  }

  lemma Round3AtMost(x: real, n: int)
    requires x <= n as real / 1000.0
    ensures Round3(x) <= n as real / 1000.0
  {
    NearestAtMost(x * 1000.0, n);
  }

  lemma Round3Near(x: real)
    ensures -0.0005 <= Round3(x) - x <= 0.0005
  {
  }

  /** The nearest integer, and of two the even one: there is no other such. */
  lemma NearestExactly(x: real, n: int)
    ensures Nearest(x) == n <==>
      n as real - 0.5 <= x <= n as real + 0.5 && (x == n as real - 0.5 || x == n as real + 0.5 ==> n % 2 == 0)
  {
    var m := Nearest(x);
    assert m == x.Floor || m == x.Floor + 1;
    assert -1 <= m - n <= 1 || !(n as real - 0.5 <= x <= n as real + 0.5);
  }

  lemma Round4Between(x: real)
    requires 0.0 <= x <= 1.0
    ensures 0.0 <= Round4(x) <= 1.0
    ensures x == 0.0 ==> Round4(x) == 0.0
  {
    NearestIsMonotone(x * 10000.0, 0);
    assert Nearest(x * 10000.0) <= 10000;
  }

  lemma QuotientIsShare(x: real, y: real)
    requires 0.0 <= x <= y && y > 0.0
    ensures 0.0 <= x / y <= 1.0
  {
  }
}
