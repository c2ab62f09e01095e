/**
 * The renderer's own point pipeline (it does not use the math module): three fixed
 * rotation stages, a 2×3 projection and a screen mapping that flips y. The canvas
 * drawing calls around it are not modelled.
 */
module Render {
  import opened Trig
  import Vec

  /** A Rust `u32`, the canvas size the renderer is built from. */
  newtype u32 = x: int | 0 <= x < 0x1_0000_0000

  /** A Rust `[f64; 3]`. */
  type Row3 = s: seq<real> | |s| == 3 witness [0.0, 0.0, 0.0]

  const Zeros3: Row3 := [0.0, 0.0, 0.0]

  /** A Rust `[[f64; 3]; 2]`: the projection matrix. */
  type Projection = s: seq<Row3> | |s| == 2 witness [Zeros3, Zeros3]

  /** The projection `Renderer::new` installs: keep x and y, drop z. */
  const DefaultProjection: Projection := [[1.0, 0.0, 0.0], [0.0, 1.0, 0.0]]

  datatype Point = Point(x: real, y: real, z: real)

  /** The squared length of a point, which the rotation stages keep. */
  function Norm2(p: Point): real
  {
    p.x * p.x + p.y * p.y + p.z * p.z
  }

  /** `From<&(f64, f64, f64)> for Point`. */
  function FromReals(t: (real, real, real)): (p: Point)
    ensures p.x == t.0 && p.y == t.1 && p.z == t.2
  {
    var (x, y, z) := t;
    Point(x, y, z)
  }

  /** `From<&(i32, i32, i32)> for Point`: each `i32` converted exactly. */
  function FromInts(t: (Vec.i32, Vec.i32, Vec.i32)): (p: Point)
    ensures p.x == t.0 as int as real && p.y == t.1 as int as real && p.z == t.2 as int as real
  {
    var (x, y, z) := t;
    Point(x as int as real, y as int as real, z as int as real)
  }

  /** `Point::project_2d`: the two rows of the projection against (x, y, z). */
  function Project2D(p: Point, projection: Projection): Vec.Pair
  {
    [projection[0][0] * p.x + projection[0][1] * p.y + projection[0][2] * p.z,
     projection[1][0] * p.x + projection[1][1] * p.y + projection[1][2] * p.z]
  }

  /** A projection whose last column is zero ignores depth. */
  lemma ProjectIgnoresDepth(p: Point, z: real, projection: Projection)
    requires projection[0][2] == 0.0 && projection[1][2] == 0.0
    ensures Project2D(Point(p.x, p.y, z), projection) == Project2D(p, projection)
  {
    var moved := Project2D(Point(p.x, p.y, z), projection);
    assert moved[0] == Project2D(p, projection)[0] && moved[1] == Project2D(p, projection)[1];
  }

  /** With the default projection, `project_2d` returns (x, y). */
  lemma ProjectDefault(p: Point)
    ensures Project2D(p, DefaultProjection) == [p.x, p.y]
  {
  }

  // The three stages of `apply_rotation`, each as written in the source, taking the
  // cosine `c` and sine `s` of its angle.

  /** The first stage ("rotation z"): turns (x, y), keeps z. */
  function StageZ(p: Point, c: real, s: real): (r: Point)
    ensures r.z == p.z
  {
    var Point(x, y, z) := p;
    Point(c * x - s * y + 0.0 * z,
          s * x + c * y + 0.0 * z,
          0.0 * x + 0.0 * y + 1.0 * z)
  }

  /** The second stage ("rotation y"): turns (y, z), keeps x. */
  function StageY(p: Point, c: real, s: real): (r: Point)
    ensures r.x == p.x
  {
    var Point(x, y, z) := p;
    Point(1.0 * x + 0.0 * y + 0.0 * z,
          0.0 * x + c * y - s * z,
          0.0 * x + s * y + c * z)
  }

  /** The third stage ("rotation x"): turns (x, z), keeps y. */
  function StageX(p: Point, c: real, s: real): (r: Point)
    ensures r.y == p.y
  {
    var Point(x, y, z) := p;
    Point(c * x + 0.0 * y - s * z,
          0.0 * z + 1.0 * y + 0.0 * z,
          s * x + 0.0 * y + c * z)
  }

  /**
   * `Point::apply_rotation`: the stage for `rotation_z` first, then the one for
   * `rotation_y`, then the one for `rotation_x`.
   */
  function ApplyRotation(p: Point, rotationX: real, rotationY: real, rotationZ: real, trig: Trig): Point
  {
    var p1 := StageZ(p, trig.cos(rotationZ), trig.sin(rotationZ));
    var p2 := StageY(p1, trig.cos(rotationY), trig.sin(rotationY));
    StageX(p2, trig.cos(rotationX), trig.sin(rotationX))
  }

  /** The first stage keeps the squared length when c² + s² = 1. */
  lemma StageZLength(p: Point, c: real, s: real)
    requires c * c + s * s == 1.0
    ensures Norm2(StageZ(p, c, s)) == Norm2(p)
  {
    var r := StageZ(p, c, s);
    assert r.x == c * p.x - s * p.y && r.y == s * p.x + c * p.y && r.z == p.z;
    PlaneTurn(c, s, p.x, p.y);
  }

  /** The second stage keeps the squared length when c² + s² = 1. */
  lemma StageYLength(p: Point, c: real, s: real)
    requires c * c + s * s == 1.0
    ensures Norm2(StageY(p, c, s)) == Norm2(p)
  {
    var r := StageY(p, c, s);
    assert r.x == p.x && r.y == c * p.y - s * p.z && r.z == s * p.y + c * p.z;
    PlaneTurn(c, s, p.y, p.z);
  }

  /** The third stage keeps the squared length when c² + s² = 1. */
  lemma StageXLength(p: Point, c: real, s: real)
    requires c * c + s * s == 1.0
    ensures Norm2(StageX(p, c, s)) == Norm2(p)
  {
    var r := StageX(p, c, s);
    assert r.x == c * p.x - s * p.z && r.y == p.y && r.z == s * p.x + c * p.z;
    PlaneTurn(c, s, p.x, p.z);
  }

  /** Every stage keeps the squared length when c² + s² = 1. */
  lemma StagesKeepLength(p: Point, c: real, s: real)
    requires c * c + s * s == 1.0
    ensures Norm2(StageZ(p, c, s)) == Norm2(p)
    ensures Norm2(StageY(p, c, s)) == Norm2(p)
    ensures Norm2(StageX(p, c, s)) == Norm2(p)
  {
    StageZLength(p, c, s);
    StageYLength(p, c, s);
    StageXLength(p, c, s);
  }

  /** `apply_rotation` keeps the distance from the origin. */
  lemma RotationKeepsLength(p: Point, rotationX: real, rotationY: real, rotationZ: real, trig: Trig)
    requires trig.UnitAt(rotationX) && trig.UnitAt(rotationY) && trig.UnitAt(rotationZ)
    ensures Norm2(ApplyRotation(p, rotationX, rotationY, rotationZ, trig)) == Norm2(p)
  {
    var p1 := StageZ(p, trig.cos(rotationZ), trig.sin(rotationZ));
    var p2 := StageY(p1, trig.cos(rotationY), trig.sin(rotationY));
    StagesKeepLength(p, trig.cos(rotationZ), trig.sin(rotationZ));
    StagesKeepLength(p1, trig.cos(rotationY), trig.sin(rotationY));
    StagesKeepLength(p2, trig.cos(rotationX), trig.sin(rotationX));
  }

  /** With all angles 0 (cos 0 = 1, sin 0 = 0), `apply_rotation` returns its input. */
  lemma RotationAtZero(p: Point, trig: Trig)
    requires trig.ZeroAngle()
    ensures ApplyRotation(p, 0.0, 0.0, 0.0, trig) == p
  {
  }

  /** The stages do not commute: a quarter turn of the first two, swapped, moves (1, 0, 0) elsewhere. */
  lemma StageOrderMatters()
    ensures StageY(StageZ(Point(1.0, 0.0, 0.0), 0.0, 1.0), 0.0, 1.0) == Point(0.0, 0.0, 1.0)
    ensures StageZ(StageY(Point(1.0, 0.0, 0.0), 0.0, 1.0), 0.0, 1.0) == Point(0.0, 1.0, 0.0)
  {
  }

  /**
   * `Renderer`: canvas size, screen centre, projection and the three rotation angles.
   * Only the angles ever change after construction, so the rest are constants.
   */
  class Renderer {
    const width: real
    const height: real
    const centerX: real
    const centerY: real
    const projection: Projection
    var rotationX: real
    var rotationY: real
    var rotationZ: real

    /** The centre `Renderer::new` sets: half the canvas size. */
    predicate Centred()
    {
      centerX == width / 2.0 && centerY == height / 2.0
    }

    /** `Renderer::new`: centre at half the size, no rotation, the default projection. */
    constructor (width: u32, height: u32)
      ensures this.width == width as int as real && this.height == height as int as real
      ensures Centred()
      ensures projection == DefaultProjection
      ensures rotationX == 0.0 && rotationY == 0.0 && rotationZ == 0.0
    {
      this.width := width as int as real;
      this.height := height as int as real;
      centerX := width as int as real / 2.0;
      centerY := height as int as real / 2.0;
      projection := DefaultProjection;
      rotationX := 0.0;
      rotationY := 0.0;
      rotationZ := 0.0;
    }

    /** `rotate_x`: adds the increment to `rotation_x` only. */
    method RotateX(increment: real)
      modifies this`rotationX
      ensures rotationX == old(rotationX) + increment
    {
      rotationX := rotationX + increment;
    }

    /** `rotate_y`: adds the increment to `rotation_y` only. */
    method RotateY(increment: real)
      modifies this`rotationY
      ensures rotationY == old(rotationY) + increment
    {
      rotationY := rotationY + increment;
    }

    /** `rotate_z`: adds the increment to `rotation_z` only. */
    method RotateZ(increment: real)
      modifies this`rotationZ
      ensures rotationZ == old(rotationZ) + increment
    {
      rotationZ := rotationZ + increment;
    }

    /**
     * `normalize`: shifts x by the centre and flips y, so that with the centre of
     * `Renderer::new` the origin lands on the middle of the canvas and larger y
     * lands higher up the screen.
     */
    function Normalize(x: real, y: real): (r: (real, real))
      ensures r.0 - x == centerX && r.1 + y == height - centerY
      ensures Centred() ==> r.1 == height / 2.0 - y
      ensures Centred() && x == 0.0 && y == 0.0 ==> r == (width / 2.0, height / 2.0)
    {
      (x + centerX, height - y - centerY)
    }

    /**
     * `transform_2d`: rotate by the current angles, project, map to the screen. With
     * the default projection the depth of the rotated point is dropped.
     */
    function Transform2D(p: Point, trig: Trig): (r: (real, real))
      reads this
      ensures projection == DefaultProjection ==>
        var q := ApplyRotation(p, rotationX, rotationY, rotationZ, trig);
        r == (q.x + centerX, height - q.y - centerY)
    {
      var xy := Project2D(ApplyRotation(p, rotationX, rotationY, rotationZ, trig), projection);
      Normalize(xy[0], xy[1])
    }
  }
}
