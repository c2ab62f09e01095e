/**
 * The transformation builders of the math module: each returns one `Mat4` literal
 * computed from its scalar arguments. Angles go through the host's `cos`, `sin`
 * and `tan`, passed in as a `Trig`.
 */
module Transformation {
  import opened Trig
  import opened Vec
  import opened Mat

  /** `new_translation`: the identity with the offsets in the last column. */
  function NewTranslation(x: real, y: real, z: real): Mat4
  {
    Mat4([[1.0, 0.0, 0.0, x],
          [0.0, 1.0, 0.0, y],
          [0.0, 0.0, 1.0, z],
          [0.0, 0.0, 0.0, 1.0]])
  }

  /** `new_rotation_x`: despite its name it mixes x with z and keeps y. */
  function NewRotationX(angle: real, trig: Trig): Mat4
  {
    Mat4([[trig.cos(angle), 0.0, trig.sin(angle), 0.0],
          [0.0, 1.0, 0.0, 0.0],
          [-trig.sin(angle), 0.0, trig.cos(angle), 0.0],
          [0.0, 0.0, 0.0, 1.0]])
  }

  /** `new_rotation_y`: mixes y with z and keeps x. */
  function NewRotationY(angle: real, trig: Trig): Mat4
  {
    Mat4([[1.0, 0.0, 0.0, 0.0],
          [0.0, trig.cos(angle), -trig.sin(angle), 0.0],
          [0.0, trig.sin(angle), trig.cos(angle), 0.0],
          [0.0, 0.0, 0.0, 1.0]])
  }

  /** `new_rotation_z`: mixes x with y and keeps z. */
  function NewRotationZ(angle: real, trig: Trig): Mat4
  {
    Mat4([[trig.cos(angle), -trig.sin(angle), 0.0, 0.0],
          [trig.sin(angle), trig.cos(angle), 0.0, 0.0],
          [0.0, 0.0, 1.0, 0.0],
          [0.0, 0.0, 0.0, 1.0]])
  }

  /** f = 1 / tan(fov / 2), the focal term of the perspective matrix. */
  function Focal(fov: real, trig: Trig): real
    requires trig.tan(fov * 0.5) != 0.0
  {
    1.0 / trig.tan(fov * 0.5)
  }

  /**
   * `new_perspective(w, h, fov, z_near, z_far)`: aspect h / w, focal term f,
   * depth remap q1, q2 in the third row, and a last row that copies z into w.
   * The divisions need w ≠ 0, z_far ≠ z_near and tan(fov / 2) ≠ 0 over the reals.
   */
  function NewPerspective(w: real, h: real, fov: real, zNear: real, zFar: real, trig: Trig): Mat4
    requires w != 0.0 && zFar != zNear && trig.tan(fov * 0.5) != 0.0
  {
    var a := h / w;
    var f := Focal(fov, trig);
    var q1 := zFar / (zFar - zNear);
    var q2 := (-zFar * zNear) / (zFar - zNear);
    Mat4([[a * f, 0.0, 0.0, 0.0],
          [0.0, f, 0.0, 0.0],
          [0.0, 0.0, q1, q2],
          [0.0, 0.0, 1.0, 0.0]])
  }

  /** The action of M on v, component by component. */
  lemma Components(m: Mat4, v: Vec4)
    ensures MulVec(m, v).X() == m.value[0][0] * v.X() + m.value[0][1] * v.Y() + m.value[0][2] * v.Z() + m.value[0][3] * v.W()
    ensures MulVec(m, v).Y() == m.value[1][0] * v.X() + m.value[1][1] * v.Y() + m.value[1][2] * v.Z() + m.value[1][3] * v.W()
    ensures MulVec(m, v).Z() == m.value[2][0] * v.X() + m.value[2][1] * v.Y() + m.value[2][2] * v.Z() + m.value[2][3] * v.W()
    ensures MulVec(m, v).W() == m.value[3][0] * v.X() + m.value[3][1] * v.Y() + m.value[3][2] * v.Z() + m.value[3][3] * v.W()
  {
  }

  // ---------------------------------------------------------------- translation

  /** Translating a point (w = 1) adds the offsets and keeps w = 1. */
  lemma TranslationMovesPoint(x: real, y: real, z: real, p: Vec4)
    requires p.W() == 1.0
    ensures MulVec(NewTranslation(x, y, z), p) == New(p.X() + x, p.Y() + y, p.Z() + z, 1.0)
  {
    Components(NewTranslation(x, y, z), p);
    Ext(MulVec(NewTranslation(x, y, z), p), New(p.X() + x, p.Y() + y, p.Z() + z, 1.0));
  }

  /** The zero translation is the identity matrix. */
  lemma TranslationZeroIsIdentity()
    ensures NewTranslation(0.0, 0.0, 0.0) == Identity()
  {
  }

  /** Translating by the opposite offsets undoes a translation, whatever w is. */
  lemma TranslationUndo(x: real, y: real, z: real, v: Vec4)
    ensures MulVec(NewTranslation(-x, -y, -z), MulVec(NewTranslation(x, y, z), v)) == v
  {
    var t := MulVec(NewTranslation(x, y, z), v);
    Components(NewTranslation(x, y, z), v);
    Components(NewTranslation(-x, -y, -z), t);
    Ext(MulVec(NewTranslation(-x, -y, -z), t), v);
  }

  // ---------------------------------------------------------------- rotations

  /** `new_rotation_x` keeps y and w, and turns the (x, z) pair by (cos, sin). */
  lemma RotationXAction(angle: real, trig: Trig, v: Vec4)
    ensures var r := MulVec(NewRotationX(angle, trig), v);
      && r.Y() == v.Y() && r.W() == v.W()
      && r.X() == trig.cos(angle) * v.X() + trig.sin(angle) * v.Z()
      && r.Z() == -trig.sin(angle) * v.X() + trig.cos(angle) * v.Z()
  {
    Components(NewRotationX(angle, trig), v);
  }

  /** `new_rotation_y` keeps x and w, and turns the (y, z) pair. */
  lemma RotationYAction(angle: real, trig: Trig, v: Vec4)
    ensures var r := MulVec(NewRotationY(angle, trig), v);
      && r.X() == v.X() && r.W() == v.W()
      && r.Y() == trig.cos(angle) * v.Y() - trig.sin(angle) * v.Z()
      && r.Z() == trig.sin(angle) * v.Y() + trig.cos(angle) * v.Z()
  {
    Components(NewRotationY(angle, trig), v);
  }

  /** `new_rotation_z` keeps z and w, and turns the (x, y) pair. */
  lemma RotationZAction(angle: real, trig: Trig, v: Vec4)
    ensures var r := MulVec(NewRotationZ(angle, trig), v);
      && r.Z() == v.Z() && r.W() == v.W()
      && r.X() == trig.cos(angle) * v.X() - trig.sin(angle) * v.Y()
      && r.Y() == trig.sin(angle) * v.X() + trig.cos(angle) * v.Y()
  {
    Components(NewRotationZ(angle, trig), v);
  }

  /** At angle 0 (cos 0 = 1, sin 0 = 0) every rotation builder returns the identity. */
  lemma RotationsAtZero(trig: Trig)
    requires trig.ZeroAngle()
    ensures NewRotationX(0.0, trig) == Identity()
    ensures NewRotationY(0.0, trig) == Identity()
    ensures NewRotationZ(0.0, trig) == Identity()
  {
  }

  /** `new_rotation_x` keeps the length of the (x, z) pair it mixes (cos² + sin² = 1). */
  lemma RotationXKeepsLength(angle: real, trig: Trig, v: Vec4)
    requires trig.UnitAt(angle)
    ensures var r := MulVec(NewRotationX(angle, trig), v);
      r.X() * r.X() + r.Z() * r.Z() == v.X() * v.X() + v.Z() * v.Z()
  {
    var c, s := trig.cos(angle), -trig.sin(angle);
    var r := MulVec(NewRotationX(angle, trig), v);
    RotationXAction(angle, trig, v);
    assert r.X() == c * v.X() - s * v.Z() && r.Z() == s * v.X() + c * v.Z();
    PlaneTurn(c, s, v.X(), v.Z());
  }

  /** `new_rotation_y` keeps the length of the (y, z) pair it mixes. */
  lemma RotationYKeepsLength(angle: real, trig: Trig, v: Vec4)
    requires trig.UnitAt(angle)
    ensures var r := MulVec(NewRotationY(angle, trig), v);
      r.Y() * r.Y() + r.Z() * r.Z() == v.Y() * v.Y() + v.Z() * v.Z()
  {
    RotationYAction(angle, trig, v);
    PlaneTurn(trig.cos(angle), trig.sin(angle), v.Y(), v.Z());
  }

  /** `new_rotation_z` keeps the length of the (x, y) pair it mixes. */
  lemma RotationZKeepsLength(angle: real, trig: Trig, v: Vec4)
    requires trig.UnitAt(angle)
    ensures var r := MulVec(NewRotationZ(angle, trig), v);
      r.X() * r.X() + r.Y() * r.Y() == v.X() * v.X() + v.Y() * v.Y()
  {
    RotationZAction(angle, trig, v);
    PlaneTurn(trig.cos(angle), trig.sin(angle), v.X(), v.Y());
  }

  /** Rotating by the opposite angle undoes `new_rotation_x`. */
  lemma RotationXUndo(a: real, b: real, trig: Trig, v: Vec4)
    requires trig.UnitAt(a) && trig.Opposite(a, b)
    ensures MulVec(NewRotationX(b, trig), MulVec(NewRotationX(a, trig), v)) == v
  {
    var c, s := trig.cos(a), -trig.sin(a);
    var t := MulVec(NewRotationX(a, trig), v);
    var u := MulVec(NewRotationX(b, trig), t);
    RotationXAction(a, trig, v);
    RotationXAction(b, trig, t);
    assert t.X() == c * v.X() - s * v.Z() && t.Z() == s * v.X() + c * v.Z();
    assert u.X() == c * t.X() + s * t.Z() && u.Z() == -s * t.X() + c * t.Z();
    PlaneTurn(c, s, v.X(), v.Z());
    Ext(u, v);
  }

  /** Rotating by the opposite angle undoes `new_rotation_y`. */
  lemma RotationYUndo(a: real, b: real, trig: Trig, v: Vec4)
    requires trig.UnitAt(a) && trig.Opposite(a, b)
    ensures MulVec(NewRotationY(b, trig), MulVec(NewRotationY(a, trig), v)) == v
  {
    var c, s := trig.cos(a), trig.sin(a);
    var t := MulVec(NewRotationY(a, trig), v);
    var u := MulVec(NewRotationY(b, trig), t);
    RotationYAction(a, trig, v);
    RotationYAction(b, trig, t);
    assert u.Y() == c * t.Y() + s * t.Z() && u.Z() == -s * t.Y() + c * t.Z();
    PlaneTurn(c, s, v.Y(), v.Z());
    Ext(u, v);
  }

  /** Rotating by the opposite angle undoes `new_rotation_z`. */
  lemma RotationZUndo(a: real, b: real, trig: Trig, v: Vec4)
    requires trig.UnitAt(a) && trig.Opposite(a, b)
    ensures MulVec(NewRotationZ(b, trig), MulVec(NewRotationZ(a, trig), v)) == v
  {
    var c, s := trig.cos(a), trig.sin(a);
    var t := MulVec(NewRotationZ(a, trig), v);
    var u := MulVec(NewRotationZ(b, trig), t);
    RotationZAction(a, trig, v);
    RotationZAction(b, trig, t);
    assert u.X() == c * t.X() + s * t.Y() && u.Y() == -s * t.X() + c * t.Y();
    PlaneTurn(c, s, v.X(), v.Y());
    Ext(u, v);
  }

  // ---------------------------------------------------------------- perspective

  /** The perspective matrix scales x by (h/w)·f and y by f, and copies z into w. */
  lemma PerspectiveAction(w: real, h: real, fov: real, zNear: real, zFar: real, trig: Trig, v: Vec4)
    requires w != 0.0 && zFar != zNear && trig.tan(fov * 0.5) != 0.0
    ensures var r := MulVec(NewPerspective(w, h, fov, zNear, zFar, trig), v);
      && r.X() == (h / w) * Focal(fov, trig) * v.X()
      && r.Y() == Focal(fov, trig) * v.Y()
      && r.Z() == (zFar / (zFar - zNear)) * v.Z() + (-zFar * zNear) / (zFar - zNear) * v.W()
      && r.W() == v.Z()
  {
    Components(NewPerspective(w, h, fov, zNear, zFar, trig), v);
  }

  /**
   * For a point (w = 1) the depth is z' = z_far · (z − z_near) / (z_far − z_near):
   * 0 on the near plane and z_far = w' on the far plane, so depth 1 after division.
   */
  lemma PerspectiveDepth(w: real, h: real, fov: real, zNear: real, zFar: real, trig: Trig, v: Vec4)
    requires w != 0.0 && zFar != zNear && trig.tan(fov * 0.5) != 0.0
    requires v.W() == 1.0
    ensures var r := MulVec(NewPerspective(w, h, fov, zNear, zFar, trig), v);
      DepthLaws(zNear, zFar, v.Z(), r.Z(), r.W())
  {
    var r := MulVec(NewPerspective(w, h, fov, zNear, zFar, trig), v);
    PerspectiveAction(w, h, fov, zNear, zFar, trig, v);
    DepthRemap(zNear, zFar, v.Z(), v.W(), r.Z(), r.W());
  }

  /**
   * What the depth row promises for a point at depth z mapped to (z', w'):
   * z' = z_far · (z − z_near) / (z_far − z_near), 0 on the near plane, and
   * z' = w' = z_far on the far plane, so depth 1 after the perspective division.
   */
  predicate DepthLaws(zNear: real, zFar: real, z: real, z': real, w': real)
    requires zFar != zNear
  {
    && z' == zFar * (z - zNear) / (zFar - zNear)
    && (z == zNear ==> z' == 0.0)
    && (z == zFar ==> z' == w' == zFar)
    && (z == zFar && zFar != 0.0 ==> z' / w' == 1.0)
  }

  /**
   * The algebra of the depth row for w = 1: q1·z + q2·w = z_far · (z − z_near) / (z_far − z_near),
   * which is 0 at z_near and z_far at z_far.
   */
  lemma DepthRemap(zNear: real, zFar: real, z: real, w: real, z': real, w': real)
    requires zFar != zNear && w == 1.0
    requires z' == (zFar / (zFar - zNear)) * z + (-zFar * zNear) / (zFar - zNear) * w && w' == z
    ensures DepthLaws(zNear, zFar, z, z', w')
  {
    var d := zFar - zNear;
    var q1, q2 := zFar / d, (-zFar * zNear) / d;
    assert z' == q1 * z + q2;
    ClearDenominators(q1, q2, z, d, zFar, -zFar * zNear);
    assert zFar * (z - zNear) == zFar * z + -zFar * zNear;
    QuotientOf(z', zFar * (z - zNear), d);
    DepthPlanes(zNear, zFar, z, z', w');
  }

  /** From z'·(z_far − z_near) = z_far·(z − z_near): 0 on the near plane, z_far on the far one. */
  lemma DepthPlanes(zNear: real, zFar: real, z: real, z': real, w': real)
    requires zFar != zNear && w' == z
    requires z' * (zFar - zNear) == zFar * (z - zNear)
    ensures z == zNear ==> z' == 0.0
    ensures z == zFar ==> z' == w' == zFar
    ensures z == zFar && zFar != 0.0 ==> z' / w' == 1.0
  {
    var d := zFar - zNear;
    if z == zNear {
      Cancel(z', 0.0, d);
    }
    if z == zFar {
      Cancel(z', zFar, d);
      if zFar != 0.0 {
        QuotientOf(1.0, z', w');
      }
    }
  }

  /** With q1 = a / d and q2 = b / d, (q1·z + q2)·d = a·z + b. */
  lemma ClearDenominators(q1: real, q2: real, z: real, d: real, a: real, b: real)
    requires d != 0.0 && q1 == a / d && q2 == b / d
    ensures (q1 * z + q2) * d == a * z + b
  {
    assert q1 * d == a && q2 * d == b;
    calc {
      (q1 * z + q2) * d;
      (q1 * d) * z + q2 * d;
    }
  }

  /** A non-zero factor cancels: x·d = y·d with d ≠ 0 gives x = y. */
  lemma Cancel(x: real, y: real, d: real)
    requires d != 0.0 && x * d == y * d
    ensures x == y
  {
    assert (x - y) * d == 0.0;
  }

  /** A product determines its quotient: e·d = n with d ≠ 0 gives e = n / d. */
  lemma QuotientOf(e: real, n: real, d: real)
    requires d != 0.0 && e * d == n
    ensures e == n / d
  {
  }
}
