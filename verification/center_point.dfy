/** The centre-point helper of the water reflection component: the mean of
    the boundary positions of the water surface, used as the point of the
    mirror plane. */
module CenterPoint {
  import opened Optional
  import opened Cartesian3

  /** Component-wise sum, accumulated from the first point to the last. */
  function Sum(points: seq<Vec3>): Vec3 {
    if |points| == 0 then Zero
    else Add(Sum(points[..|points| - 1]), points[|points| - 1])
  }

  /** The arithmetic mean of the points: the point that, times the number of
      points, is their sum. There is none for an empty list. */
  function Centroid(points: seq<Vec3>): (r: Option<Vec3>)
    ensures r.None? <==> |points| == 0
    ensures r.Some? ==> MultiplyByScalar(r.value, |points| as real) == Sum(points)
  {
    if |points| == 0 then None
    else
      var n := |points| as real;
      var s := Sum(points);
      assert (1.0 / n) * n == 1.0;
      assert n * ((1.0 / n) * s.x) == s.x;
      assert n * ((1.0 / n) * s.y) == s.y;
      assert n * ((1.0 / n) * s.z) == s.z;
      Some(MultiplyByScalar(s, 1.0 / n))
  }

  /** The centre point: every position is added to a zero accumulator in
      order, and the total is scaled by one over the count. The height
      argument is accepted and not used. An empty list has no centre. */
  method CalcCenterPoint(positions: seq<Vec3>, height: real) returns (center: Option<Vec3>)
    ensures center.None? <==> |positions| == 0
    ensures center.Some? ==> MultiplyByScalar(center.value, |positions| as real) == Sum(positions)
    ensures center == Centroid(positions)
  {
    var total := Zero;
    var i := 0;
    while i < |positions|
      invariant 0 <= i <= |positions|
      invariant total == Sum(positions[..i])
    {
      assert positions[..i + 1][..i] == positions[..i];
      total := Add(total, positions[i]);
      i := i + 1;
    }
    assert positions[..i] == positions;
    if |positions| == 0 {
      return None;
    }
    var c := MultiplyByScalar(total, 1.0 / (|positions| as real));
    center := Some(c);
  }

  /** When every point has the same dot product with a fixed vector, the
      dot product of their sum with it is that value times the count. */
  lemma {:induction false} SumDotConstant(points: seq<Vec3>, normal: Vec3, d: real)
    requires forall i :: 0 <= i < |points| ==> Dot(points[i], normal) == d
    ensures Dot(Sum(points), normal) == (|points| as real) * d
    decreases |points|
  {
    if |points| > 0 {
      var init := points[..|points| - 1];
      assert forall i :: 0 <= i < |init| ==> init[i] == points[i];
      SumDotConstant(init, normal, d);
      var last := points[|points| - 1];
      var k := |init| as real;
      assert Dot(Sum(points), normal) == Dot(Sum(init), normal) + Dot(last, normal);
      assert k * d + d == (k + 1.0) * d;
    }
  }

  /** When every boundary position lies on a plane, so does the centre point:
      in particular, positions all at one height give a centre at that height. */
  lemma CentroidOnPlane(points: seq<Vec3>, normal: Vec3, d: real)
    requires |points| > 0
    requires forall i :: 0 <= i < |points| ==> Dot(points[i], normal) == d
    ensures Dot(Centroid(points).value, normal) == d
  {
    var n := |points| as real;
    SumDotConstant(points, normal, d);
    var s := Sum(points);
    var c := Centroid(points).value;
    assert c == MultiplyByScalar(s, 1.0 / n);
    assert Dot(c, normal) == (1.0 / n) * Dot(s, normal);
    assert Dot(s, normal) == n * d;
    assert (1.0 / n) * (n * d) == d by {
      assert (1.0 / n) * n == 1.0;
    }
  }

  /** The corners of a 2 x 2 square centre on its middle. */
  lemma CentroidExample()
    ensures Centroid([Vec3(0.0, 0.0, 0.0), Vec3(2.0, 0.0, 0.0), Vec3(0.0, 2.0, 0.0), Vec3(2.0, 2.0, 0.0)])
         == Some(Vec3(1.0, 1.0, 0.0))
  {
    var ps := [Vec3(0.0, 0.0, 0.0), Vec3(2.0, 0.0, 0.0), Vec3(0.0, 2.0, 0.0), Vec3(2.0, 2.0, 0.0)];
    assert ps[..0] == [];
    assert Sum(ps[..1]) == Vec3(0.0, 0.0, 0.0) by { assert ps[..1][..0] == ps[..0]; }
    assert Sum(ps[..2]) == Vec3(2.0, 0.0, 0.0) by { assert ps[..2][..1] == ps[..1]; }
    assert Sum(ps[..3]) == Vec3(2.0, 2.0, 0.0) by { assert ps[..3][..2] == ps[..2]; }
    assert Sum(ps) == Vec3(4.0, 4.0, 0.0) by { assert ps[..3] == ps[..|ps| - 1]; }
  }
}
