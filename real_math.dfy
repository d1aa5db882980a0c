/**
 * `Math.exp` and `Math.pow` enter the model as function values. Nothing is
 * known about them except the bounds collected in `Lawful`, which is what
 * the concentration proofs use; their floating-point behaviour is not modelled.
 */
module RealMath {

  datatype Transcendentals = Transcendentals(exp: real -> real, pow: (real, real) -> real)

  /** The only facts about `exp` and `pow(0.5, _)` that the proofs rely on. */
  ghost predicate Lawful(m: Transcendentals)
  {
    && m.exp(0.0) == 1.0
    && (forall x :: x <= 0.0 ==> 0.0 < m.exp(x) <= 1.0)
    && m.pow(0.5, 0.0) == 1.0
    && (forall y :: y >= 0.0 ==> 0.0 < m.pow(0.5, y) <= 1.0)
  }

  /** Scaling a non-negative quantity by a factor in [0, 1] keeps it in [0, x]. */
  lemma ScaleWithinUnit(x: real, f: real)
    requires 0.0 <= x && 0.0 <= f <= 1.0
    ensures 0.0 <= x * f <= x
  {
    assert x * f <= x * 1.0;
  }

  /** Scaling a positive quantity by a factor in (0, 1] keeps it in (0, x]. */
  lemma ScaleWithinOpenUnit(x: real, f: real)
    requires 0.0 < x && 0.0 < f <= 1.0
    ensures 0.0 < x * f <= x
  {
    assert x * f <= x * 1.0;
  }
}
