/** Points and fractions shared by image placement, text layout and zoom. */
module Geometry {

  /** A pair of coordinates: a fraction of the scene, a scale factor or an offset. */
  datatype Vec = Vec(x: real, y: real)

  function Min(a: real, b: real): (r: real)
    ensures r <= a && r <= b && (r == a || r == b)
  {
    if a <= b then a else b
  }

  function Max(a: real, b: real): (r: real)
    ensures r >= a && r >= b && (r == a || r == b)
  {
    if a >= b then a else b
  }

  /** JavaScript's `Math.max(lo, Math.min(hi, v))`. */
  function Clamp(v: real, lo: real, hi: real): real
  {
    Max(lo, Min(hi, v))
  }

  /** When the bounds are ordered the result lies between them, and it is `v`
      exactly when `v` already does. */
  lemma ClampBetween(v: real, lo: real, hi: real)
    requires lo <= hi
    ensures lo <= Clamp(v, lo, hi) <= hi
    ensures Clamp(v, lo, hi) == v <==> lo <= v <= hi
  {
  }

  /** When the bounds cross, `Math.max` always picks the lower bound. */
  lemma ClampCrossed(v: real, lo: real, hi: real)
    requires hi < lo
    ensures Clamp(v, lo, hi) == lo
  {
  }

  // Division facts the solver does not find unaided.

  lemma RecipGrows(z: real)
    requires 0.0 < z < 1.0
    ensures 1.0 / z > 1.0
  {
    var r := 1.0 / z;
    assert r * z == 1.0;
  }

  lemma ScaleGrows(a: real, r: real)
    requires a > 0.0 && r > 1.0
    ensures a * r > a
  {
    assert a * r - a == a * (r - 1.0);
  }

  /** Dividing a positive length by a zoom below 1 enlarges it. */
  lemma DivGrows(a: real, z: real)
    requires a > 0.0 && 0.0 < z < 1.0
    ensures a < a / z
  {
    RecipGrows(z);
    ScaleGrows(a, 1.0 / z);
    assert a / z == a * (1.0 / z);
  }

  lemma MulNonneg(x: real, y: real)
    requires x >= 0.0 && y >= 0.0
    ensures x * y >= 0.0
  {
  }

  /** Dividing a length by a zoom of at least 1 does not enlarge it. */
  lemma DivShrinks(a: real, z: real)
    requires a >= 0.0 && z >= 1.0
    ensures 0.0 <= a / z <= a
  {
    var s := a / z;
    assert s * z == a;
    assert s * (z - 1.0) == a - s;
    MulNonneg(s, z - 1.0);
  }
}
