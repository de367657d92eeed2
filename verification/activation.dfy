/** `cnn.Activation`: the activation functions and their derivatives. The sigmoid and
    tanh themselves need `exp`; they are not defined here and the layers take them as
    parameters. Each derivative is written in terms of the activation's OUTPUT y. */
module Activation {

  /** max(0, x). */
  function Relu(x: real): (r: real)
    ensures r >= 0.0 && r >= x
    ensures r == x || r == 0.0
  {
    if x > 0.0 then x else 0.0
  }

  /** 1 for a strictly positive argument, 0 otherwise (so 0 at 0). */
  function ReluDerivative(x: real): (r: real)
    ensures r == 1.0 <==> x > 0.0
    ensures r == 0.0 <==> x <= 0.0
  {
    if x > 0.0 then 1.0 else 0.0
  }

  /** y(1 − y), the sigmoid's slope expressed through its output y: at most 1/4,
      reached at y = 1/2 only, and non-negative over the sigmoid's range [0, 1]. */
  function DerivativeSigmoid(y: real): (r: real)
    ensures r <= 0.25
    ensures r == 0.25 <==> y == 0.5
    ensures 0.0 <= y <= 1.0 ==> r >= 0.0
  {
    SigmoidSlopeMax(y);
    SigmoidSlopeNonNegative(y);
    y * (1.0 - y)
  }

  /** 1 − y², tanh's slope expressed through its output y: at most 1, reached at
      y = 0 only, and non-negative over tanh's range [-1, 1]. */
  function DerivativeTanh(y: real): (r: real)
    ensures r <= 1.0
    ensures r == 1.0 <==> y == 0.0
    ensures -1.0 <= y <= 1.0 ==> r >= 0.0
  {
    TanhSlopeMax(y);
    TanhSlopeNonNegative(y);
    1.0 - y * y
  }

  /** Applying ReLU twice is applying it once. */
  lemma ReluIdempotent(x: real)
    ensures Relu(Relu(x)) == Relu(x)
  {
  }

  /** The ReLU slope is the same whether taken at the input or at the output. */
  lemma ReluDerivativeAtOutput(x: real)
    ensures ReluDerivative(Relu(x)) == ReluDerivative(x)
  {
  }

  /** ReLU is monotone. */
  lemma ReluMonotone(x: real, y: real)
    requires x <= y
    ensures Relu(x) <= Relu(y)
  {
  }

  lemma MulPositive(a: real, b: real, p: real)
    requires p == a * b && a > 0.0 && b > 0.0
    ensures p > 0.0
  {
  }
  lemma MulNegative(a: real, b: real, p: real)
    requires p == a * b && a < 0.0 && b < 0.0
    ensures p > 0.0
  {
  }
  lemma MulNonNegative(a: real, b: real, p: real)
    requires p == a * b && a >= 0.0 && b >= 0.0
    ensures p >= 0.0
  {
  }
  /** A square is non-negative, and positive away from zero (the product is passed
      in as `s`, which keeps the solver from rewriting it). */
  lemma Square(a: real, s: real)
    requires s == a * a
    ensures s >= 0.0
    ensures a != 0.0 ==> s > 0.0
  {
    if a > 0.0 {
      MulPositive(a, a, s);
    } else if a < 0.0 {
      MulNegative(a, a, s);
    } else {
      MulNonNegative(a, a, s);
    }
  }
  /** Completing the square: 1/4 − y(1 − y) = (y − 1/2)². */
  lemma CompleteSquare(y: real)
    ensures 0.25 - y * (1.0 - y) == (y - 0.5) * (y - 0.5)
  {
  }
  /** Difference of squares: 1 − y² = (1 − y)(1 + y). */
  lemma DifferenceOfSquares(y: real)
    ensures 1.0 - y * y == (1.0 - y) * (1.0 + y)
  {
  }
  /** The sigmoid slope y(1 − y) is at most 1/4, and reaches it at y = 1/2 only. */
  lemma SigmoidSlopeMax(y: real)
    ensures y * (1.0 - y) <= 0.25
    ensures y * (1.0 - y) == 0.25 <==> y == 0.5
  {
    CompleteSquare(y);
    Square(y - 0.5, (y - 0.5) * (y - 0.5));
  }
  /** Over the sigmoid's range [0, 1] the slope y(1 − y) is non-negative. */
  lemma SigmoidSlopeNonNegative(y: real)
    ensures 0.0 <= y <= 1.0 ==> y * (1.0 - y) >= 0.0
  {
    if 0.0 <= y <= 1.0 {
      MulNonNegative(y, 1.0 - y, y * (1.0 - y));
    }
  }
  /** The tanh slope 1 − y² is at most 1, and reaches it at y = 0 only. */
  lemma TanhSlopeMax(y: real)
    ensures 1.0 - y * y <= 1.0
    ensures 1.0 - y * y == 1.0 <==> y == 0.0
  {
    Square(y, y * y);
  }
  /** Over tanh's range [-1, 1] the slope 1 − y² is non-negative. */
  lemma TanhSlopeNonNegative(y: real)
    ensures -1.0 <= y <= 1.0 ==> 1.0 - y * y >= 0.0
  {
    if -1.0 <= y <= 1.0 {
      DifferenceOfSquares(y);
      MulNonNegative(1.0 - y, 1.0 + y, (1.0 - y) * (1.0 + y));
    }
  }
}
