/** Sign facts about products of reals. */
module RealArithmetic {
  // Products are passed as named values: the solver handles them far better than squares.

  lemma ProductPositive(x: real, y: real, xy: real)
    requires x > 0.0 && y > 0.0 && xy == x * y
    ensures xy > 0.0
  {
  }

  lemma SquareSign(x: real, xx: real)
    requires xx == x * x
    ensures xx >= 0.0
    ensures x != 0.0 ==> xx > 0.0
  {
    if x > 0.0 { ProductPositive(x, x, xx); } else if x < 0.0 { ProductPositive(-x, -x, xx); }
  }
}
