/**
 * The transcendental functions the source takes from Rust's `f64` (`cos`, `sin`, `tan`).
 * They are not definable here, so every operation that needs them receives them as
 * function-valued parameters, and each lemma names the few identities of the real
 * functions it relies on, at the angles it uses them.
 */
module Trig {

  /** The host's trigonometric functions on angles in radians. */
  datatype Trig = Trig(cos: real -> real, sin: real -> real, tan: real -> real) {

    /** Angle 0: cos 0 = 1 and sin 0 = 0. */
    predicate ZeroAngle()
    {
      cos(0.0) == 1.0 && sin(0.0) == 0.0
    }

    /** cos² a + sin² a = 1 at the angle `a`. */
    predicate UnitAt(a: real)
    {
      cos(a) * cos(a) + sin(a) * sin(a) == 1.0
    }

    /** `b` undoes `a` (as `-a` does): same cosine, opposite sine. */
    predicate Opposite(a: real, b: real)
    {
      cos(b) == cos(a) && sin(b) == -sin(a)
    }
  }

  /**
   * The plane rotation (p, q) ↦ (c·p − s·q, s·p + c·q) with c² + s² = 1 keeps the
   * squared length of (p, q), and the rotation with (c, −s) takes it back.
   */
  lemma PlaneTurn(c: real, s: real, p: real, q: real)
    requires c * c + s * s == 1.0
    ensures (c * p - s * q) * (c * p - s * q) + (s * p + c * q) * (s * p + c * q) == p * p + q * q
    ensures c * (c * p - s * q) + s * (s * p + c * q) == p
    ensures -s * (c * p - s * q) + c * (s * p + c * q) == q
  {
    calc {
      (c * p - s * q) * (c * p - s * q) + (s * p + c * q) * (s * p + c * q);
      (c * c + s * s) * (p * p) + (c * c + s * s) * (q * q);
      p * p + q * q;
    }
    calc {
      c * (c * p - s * q) + s * (s * p + c * q);
      (c * c + s * s) * p;
      p;
    }
    calc {
      -s * (c * p - s * q) + c * (s * p + c * q);
      (c * c + s * s) * q;
      q;
    }
  }
}
