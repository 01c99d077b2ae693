/**
 * Plane vectors over the reals, standing in for Unity's `Vector2`, and the two
 * pieces of floating-point geometry the controller relies on (`magnitude` and
 * the angle returned by `Atan2 * Rad2Deg`), which are supplied as values.
 */
module Vectors {

  datatype Vec2 = Vec2(x: real, y: real)

  const Zero := Vec2(0.0, 0.0)

  function Sub(a: Vec2, b: Vec2): Vec2 {
    Vec2(a.x - b.x, a.y - b.y)
  }

  function Scale(v: Vec2, k: real): Vec2 {
    Vec2(v.x * k, v.y * k)
  }

  /**
   * The geometry the controller asks the engine for: the Euclidean length of a
   * vector (`Vector2.magnitude`) and the angle of a vector in degrees, as
   * `Mathf.Atan2(v.y, v.x) * Mathf.Rad2Deg` gives it.
   */
  datatype Geometry = Geometry(magnitude: Vec2 -> real, angleDeg: Vec2 -> real)

  /**
   * The facts about `magnitude` and `atan2` that the properties rely on. The
   * length is non-negative, zero only for the zero vector, scales with a
   * non-negative factor and measures distances along the x axis exactly. The
   * angle lies in (-180, 180], is strictly between 0 and 180 above the x
   * axis and negative below it, is 0 along the non-negative x axis (atan2(0, 0)
   * is 0), 180 along the negative x axis and 90 straight up.
   */
  ghost predicate Sound(g: Geometry) {
    && (forall v: Vec2 :: g.magnitude(v) >= 0.0)
    && (forall v: Vec2 :: g.magnitude(v) == 0.0 <==> v == Zero)
    && (forall v: Vec2, k: real {:trigger g.magnitude(Scale(v, k))} ::
          k >= 0.0 ==> g.magnitude(Scale(v, k)) == k * g.magnitude(v))
    && (forall x: real :: x >= 0.0 ==> g.magnitude(Vec2(x, 0.0)) == x)
    && (forall v: Vec2 :: -180.0 < g.angleDeg(v) <= 180.0)
    && (forall v: Vec2 :: v.y > 0.0 ==> 0.0 < g.angleDeg(v) < 180.0)
    && (forall v: Vec2 :: v.y < 0.0 ==> g.angleDeg(v) < 0.0)
    && (forall v: Vec2 :: v.y == 0.0 && v.x >= 0.0 ==> g.angleDeg(v) == 0.0)
    && (forall v: Vec2 :: v.y == 0.0 && v.x < 0.0 ==> g.angleDeg(v) == 180.0)
    && (forall v: Vec2 :: v.x == 0.0 && v.y > 0.0 ==> g.angleDeg(v) == 90.0)
  }

  lemma InverseCancels(d: real)
    requires d > 0.0
    ensures (1.0 / d) * d == 1.0
  {
  }

  /**
   * `v.normalized`, given the length of `v`: scaling the result back by a
   * positive length gives `v` again; the zero vector stays zero.
   */
  function Normalized(v: Vec2, len: real): (r: Vec2)
    ensures len > 0.0 ==> r.x * len == v.x && r.y * len == v.y
    ensures len <= 0.0 ==> r == Zero
  {
    if len > 0.0 then
      InverseCancels(len);
      assert v.x * (1.0 / len) * len == v.x * ((1.0 / len) * len);
      assert v.y * (1.0 / len) * len == v.y * ((1.0 / len) * len);
      Scale(v, 1.0 / len)
    else
      Zero
  }

  /**
   * Normalising a vector by its own length gives a unit vector, unless the
   * vector is zero, in which case it gives the zero vector.
   */
  lemma NormalizedIsUnit(g: Geometry, v: Vec2)
    requires Sound(g)
    ensures v == Zero ==> Normalized(v, g.magnitude(v)) == Zero
    ensures v != Zero ==> g.magnitude(Normalized(v, g.magnitude(v))) == 1.0
  {
    var m := g.magnitude(v);
    if v != Zero {
      InverseCancels(m);
      assert g.magnitude(Scale(v, 1.0 / m)) == (1.0 / m) * m;
    }
  }
}
