/**
 * The current transformation matrix of a 2-D canvas context. `translate`,
 * `rotate` and `scale` each multiply the current matrix on the right by
 * their own matrix, so the call made last acts first on a drawn point;
 * `resetTransform` and resizing the canvas restore the identity.
 *
 * The sine and cosine of an angle are host arithmetic; they are supplied by
 * the caller as `trig`, which maps an angle in degrees to the point
 * (cos, sin).
 */
module Affine {
  import opened Canvas2D

  datatype Point = Point(x: real, y: real)

  /** The matrix [a c e; b d f; 0 0 1], which maps (x, y) to
      (a x + c y + e, b x + d y + f). */
  datatype Matrix = Matrix(a: real, b: real, c: real, d: real, e: real, f: real)

  const Identity := Matrix(1.0, 0.0, 0.0, 1.0, 0.0, 0.0)

  /** The image of `p` under `m`. */
  function Apply(m: Matrix, p: Point): (q: Point)
  {
    Point(m.a * p.x + m.c * p.y + m.e, m.b * p.x + m.d * p.y + m.f)
  }

  /** The product m × n: the matrix that applies n first, then m. */
  function Then(m: Matrix, n: Matrix): (product: Matrix)
  {
    Matrix(m.a * n.a + m.c * n.b, m.b * n.a + m.d * n.b,
           m.a * n.c + m.c * n.d, m.b * n.c + m.d * n.d,
           m.a * n.e + m.c * n.f + m.e, m.b * n.e + m.d * n.f + m.f)
  }

  /** One coordinate of a product applied to a point, expanded. */
  lemma ExpandRow(a: real, c: real, e: real, na: real, nb: real, nc: real, nd: real, ne: real, nf: real, x: real, y: real)
    ensures a * (na * x + nc * y + ne) + c * (nb * x + nd * y + nf) + e
         == (a * na + c * nb) * x + (a * nc + c * nd) * y + (a * ne + c * nf + e)
  {
    assert a * (na * x + nc * y + ne) == (a * na) * x + (a * nc) * y + a * ne;
    assert c * (nb * x + nd * y + nf) == (c * nb) * x + (c * nd) * y + c * nf;
    assert (a * na + c * nb) * x == (a * na) * x + (c * nb) * x;
    assert (a * nc + c * nd) * y == (a * nc) * y + (c * nd) * y;
  }

  lemma ThenApply(m: Matrix, n: Matrix, p: Point)
    ensures Apply(Then(m, n), p) == Apply(m, Apply(n, p))
  {
    ExpandRow(m.a, m.c, m.e, n.a, n.b, n.c, n.d, n.e, n.f, p.x, p.y);
    ExpandRow(m.b, m.d, m.f, n.a, n.b, n.c, n.d, n.e, n.f, p.x, p.y);
    var q := Apply(n, p);
    assert q.x == n.a * p.x + n.c * p.y + n.e && q.y == n.b * p.x + n.d * p.y + n.f;
    var t := Then(m, n);
    assert Apply(t, p).x == t.a * p.x + t.c * p.y + t.e;
    assert Apply(t, p).y == t.b * p.x + t.d * p.y + t.f;
  }

  /** The matrix of `translate(dx, dy)`. */
  function Translation(dx: real, dy: real): (m: Matrix)
  {
    Matrix(1.0, 0.0, 0.0, 1.0, dx, dy)
  }

  /** The matrix of `scale(sx, sy)`. */
  function Scaling(sx: real, sy: real): (m: Matrix)
  {
    Matrix(sx, 0.0, 0.0, sy, 0.0, 0.0)
  }

  /** The rotation whose angle has cosine `cs.x` and sine `cs.y`. */
  function RotationMatrix(cs: Point): (m: Matrix)
  {
    Matrix(cs.x, cs.y, -cs.y, cs.x, 0.0, 0.0)
  }

  /** The transformation matrix in effect after the calls of `log`, made in
      order on a fresh context. */
  function TransformAfter(log: seq<Command>, trig: real -> Point): (m: Matrix)
  {
    if log == [] then Identity
    else TransformStep(TransformAfter(log[..|log| - 1], trig), log[|log| - 1], trig)
  }

  /** The effect of one call on the transformation matrix. */
  function TransformStep(m: Matrix, c: Command, trig: real -> Point): (next: Matrix)
  {
    match c
    case Resized(_, _) => Identity
    case TransformReset => Identity
    case Translated(dx, dy) => Then(m, Translation(dx, dy))
    case Rotated(deg) => Then(m, RotationMatrix(trig(deg)))
    case Scaled(sx, sy) => Then(m, Scaling(sx, sy))
    case _ => m
  }

  lemma TransformAfterPrefix(log: seq<Command>, k: nat, trig: real -> Point)
    requires 0 < k <= |log|
    ensures TransformAfter(log[..k], trig) == TransformStep(TransformAfter(log[..k - 1], trig), log[k - 1], trig)
  {
    assert log[..k][..k - 1] == log[..k - 1];
  }

  /** Calls that begin with a resize or `resetTransform()` leave the same
      transform in effect whatever calls came before them. */
  lemma {:induction false} TransformAfterConcat(prior: seq<Command>, log: seq<Command>, trig: real -> Point)
    requires log != [] && (log[0].Resized? || log[0].TransformReset?)
    ensures TransformAfter(prior + log, trig) == TransformAfter(log, trig)
  {
    var all := prior + log;
    if |log| == 1 {
      assert all[..|all| - 1] == prior;
      assert all[|all| - 1] == log[0];
      assert log[..0] == [];
    } else {
      var init := log[..|log| - 1];
      assert all[..|all| - 1] == prior + init;
      assert all[|all| - 1] == log[|log| - 1];
      TransformAfterConcat(prior, init, trig);
    }
  }

  /** Translating to a pivot, applying `r`, scaling and translating back
      applies `r` and the scaling about the pivot. */
  lemma AboutPivot(cx: real, cy: real, r: Matrix, sx: real, sy: real, p: Point)
    ensures var m := Then(Then(Then(Then(Identity, Translation(cx, cy)), r), Scaling(sx, sy)), Translation(-cx, -cy));
      var q := Apply(r, Point(sx * (p.x - cx), sy * (p.y - cy)));
      Apply(m, p) == Point(cx + q.x, cy + q.y)
  {
    var m1 := Then(Identity, Translation(cx, cy));
    var m2 := Then(m1, r);
    var m3 := Then(m2, Scaling(sx, sy));
    var m4 := Then(m3, Translation(-cx, -cy));
    var p1 := Apply(Translation(-cx, -cy), p);
    var p2 := Apply(Scaling(sx, sy), p1);
    assert p2 == Point(sx * (p.x - cx), sy * (p.y - cy));
    var p3 := Apply(r, p2);
    ThenApply(m3, Translation(-cx, -cy), p);
    assert Apply(m4, p) == Apply(m3, p1);
    ThenApply(m2, Scaling(sx, sy), p1);
    assert Apply(m3, p1) == Apply(m2, p2);
    ThenApply(m1, r, p2);
    assert Apply(m2, p2) == Apply(m1, p3);
    ThenApply(Identity, Translation(cx, cy), p3);
    assert Apply(m1, p3) == Point(cx + p3.x, cy + p3.y);
  }
}
