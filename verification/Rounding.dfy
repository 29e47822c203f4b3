/** Rounding of exact numbers. */
module Rounding {

  /** Halves round to the even neighbour. */
  function RoundHalfEven(x: real): int {
    var below := x.Floor;
    var rest := x - below as real;
    if rest < 0.5 || (rest == 0.5 && below % 2 == 0) then below else below + 1
  }

  function RoundHalfUp(x: real): int {
    (x + 0.5).Floor
  }

  lemma RoundingKeepsBounds(x: real, n: int)
    requires x >= n as real
    ensures RoundHalfEven(x) >= n
  {
  }

  lemma WholeStays(n: int)
    ensures RoundHalfEven(n as real) == n
  {
    assert (n as real).Floor == n;
  }

  lemma RoundingGrows(x: real, y: real)
    requires x <= y
    ensures RoundHalfEven(x) <= RoundHalfEven(y)
  {
  }

  /** The nearest integer, and of two nearest ones the even one. */
  predicate Nearest(n: int, x: real) {
    && x - 0.5 <= n as real <= x + 0.5
    && (n as real == x - 0.5 || n as real == x + 0.5 ==> n % 2 == 0)
  }

  lemma HalfEvenIsNearest(x: real, n: int)
    ensures n == RoundHalfEven(x) <==> Nearest(n, x)
  {
    var below := x.Floor;
    assert below as real <= x < below as real + 1.0;
    if Nearest(n, x) {
      assert below - 1 <= n <= below + 1;
    }
  }

  lemma HalfUpIsNearest(x: real, n: int)
    ensures n == RoundHalfUp(x) <==> x - 0.5 < n as real <= x + 0.5
  {
  }
}
