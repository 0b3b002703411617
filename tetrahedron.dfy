/**
 The geometry of a quaternary (tetrahedral) plot: the fixed table of the four
 vertices of a regular tetrahedron with unit base edge, and the map that places
 a four-component composition (r, l, t, f) at a point of 3D space.

 Square roots are not available over `real`, so the two irrational constants
 of the construction, the square roots of 3 and 6, are carried as a
 `Radicals` value. Every vertex, centroid and barycentric fact below is linear
 in those constants and holds for any value of them; the metric facts (unit
 edges, the base face, injectivity) need the exact roots, stated by `Exact`.
 */
module Tetrahedron {

  /** A point (x, y, z) of the embedding Euclidean space. */
  datatype Point3 = Point3(x: real, y: real, z: real)

  /** Stand-ins for the square roots of 3 and 6. */
  datatype Radicals = Radicals(sqrt3: real, sqrt6: real)

  /** The stand-ins are the true positive square roots. */
  predicate Exact(rt: Radicals) {
    && rt.sqrt3 > 0.0 && rt.sqrt3 * rt.sqrt3 == 3.0
    && rt.sqrt6 > 0.0 && rt.sqrt6 * rt.sqrt6 == 6.0
  }

  function Add(p: Point3, q: Point3): Point3 {
    Point3(p.x + q.x, p.y + q.y, p.z + q.z)
  }

  function Scale(c: real, p: Point3): Point3 {
    Point3(c * p.x, c * p.y, c * p.z)
  }

  function Origin(): Point3 {
    Point3(0.0, 0.0, 0.0)
  }

  /** Squared Euclidean distance. */
  function Dist2(p: Point3, q: Point3): (d: real)
    ensures d >= 0.0
  {
    (p.x - q.x) * (p.x - q.x) + (p.y - q.y) * (p.y - q.y) + (p.z - q.z) * (p.z - q.z)
  }

  /** The weighted sum ws[0]*ps[0] + ... + ws[n-1]*ps[n-1]. */
  function Combine(ws: seq<real>, ps: seq<Point3>): Point3
    requires |ws| == |ps|
    decreases |ws|
  {
    if ws == [] then Origin() else Add(Scale(ws[0], ps[0]), Combine(ws[1..], ps[1..]))
  }

  /** The sum of a sequence of points. */
  function Sum(ps: seq<Point3>): Point3
    decreases |ps|
  {
    if ps == [] then Origin() else Add(ps[0], Sum(ps[1..]))
  }

  /** The average of a non-empty sequence of points. */
  function Centroid(ps: seq<Point3>): Point3
    requires ps != []
  {
    Scale(1.0 / (|ps| as real), Sum(ps))
  }

  /**
   The `vertices` table: vertex 0 is the pure-l corner, vertex 1 the pure-r
   corner, vertex 2 the pure-t corner and vertex 3 (the apex) the pure-f corner.
   */
  function Vertices(rt: Radicals): (vs: seq<Point3>)
    ensures |vs| == 4
    ensures vs[0].z == vs[1].z == vs[2].z == 0.0
  {
    [ Point3(0.0, 0.0, 0.0),
      Point3(1.0, 0.0, 0.0),
      Point3(0.5, rt.sqrt3 / 2.0, 0.0),
      Point3(0.5, rt.sqrt3 / 6.0, rt.sqrt6 / 3.0) ]
  }

  /**
   `quaternary_to_coord`: total, no validation and no normalisation; any four
   reals give a point.
   */
  function QuaternaryToCoord(r: real, l: real, t: real, f: real, rt: Radicals): Point3 {
    Point3((r + 1.0 - l) / 2.0,
           t * rt.sqrt3 / 2.0 + f * rt.sqrt3 / 6.0,
           f * rt.sqrt6 / 3.0)
  }

  /** Unfolding `Combine` on four weights. */
  lemma {:induction false} CombineFour(a: real, b: real, c: real, d: real,
                                       p0: Point3, p1: Point3, p2: Point3, p3: Point3)
    ensures Combine([a, b, c, d], [p0, p1, p2, p3])
         == Add(Scale(a, p0), Add(Scale(b, p1), Add(Scale(c, p2), Scale(d, p3))))
  {
    assert [d][1..] == [] && [p3][1..] == [];
    assert Combine([d], [p3]) == Scale(d, p3);
    assert [c, d][1..] == [d] && [p2, p3][1..] == [p3];
    assert Combine([c, d], [p2, p3]) == Add(Scale(c, p2), Scale(d, p3));
    assert [b, c, d][1..] == [c, d] && [p1, p2, p3][1..] == [p2, p3];
    assert Combine([b, c, d], [p1, p2, p3]) == Add(Scale(b, p1), Add(Scale(c, p2), Scale(d, p3)));
    assert [a, b, c, d][1..] == [b, c, d] && [p0, p1, p2, p3][1..] == [p1, p2, p3];
  }

  /** Each pure component lands exactly on its vertex of the table. */
  lemma PureComponentsAreVertices(rt: Radicals)
    ensures QuaternaryToCoord(0.0, 1.0, 0.0, 0.0, rt) == Vertices(rt)[0]
    ensures QuaternaryToCoord(1.0, 0.0, 0.0, 0.0, rt) == Vertices(rt)[1]
    ensures QuaternaryToCoord(0.0, 0.0, 1.0, 0.0, rt) == Vertices(rt)[2]
    ensures QuaternaryToCoord(0.0, 0.0, 0.0, 1.0, rt) == Vertices(rt)[3]
  {
  }

  /**
   For ANY four reals, the mapped point is the weighted vertex combination
   l*V0 + r*V1 + t*V2 + f*V3 plus the missing weight 1 - (r+l+t+f) placed at
   the midpoint of the edge V0V1. This is the exact sense in which the map is
   total and unnormalised.
   */
  lemma QuaternaryToCoordAffine(r: real, l: real, t: real, f: real, rt: Radicals)
    ensures (var vs := Vertices(rt);
             QuaternaryToCoord(r, l, t, f, rt)
             == Add(Combine([l, r, t, f], vs),
                    Scale(1.0 - (r + l + t + f), Scale(0.5, Add(vs[0], vs[1])))))
  {
    var vs := Vertices(rt);
    CombineFour(l, r, t, f, vs[0], vs[1], vs[2], vs[3]);
    assert vs == [vs[0], vs[1], vs[2], vs[3]];
  }

  /** When the weights sum to 1 the map is the barycentric embedding. */
  lemma QuaternaryToCoordBarycentric(r: real, l: real, t: real, f: real, rt: Radicals)
    requires r + l + t + f == 1.0
    ensures QuaternaryToCoord(r, l, t, f, rt) == Combine([l, r, t, f], Vertices(rt))
  {
    var vs := Vertices(rt);
    CombineFour(l, r, t, f, vs[0], vs[1], vs[2], vs[3]);
    assert vs == [vs[0], vs[1], vs[2], vs[3]];
  }

  /** The equal mixture lands on the centroid (1/2, sqrt3/6, sqrt6/12) of the table. */
  lemma EqualMixtureIsCentroid(rt: Radicals)
    ensures QuaternaryToCoord(0.25, 0.25, 0.25, 0.25, rt) == Centroid(Vertices(rt))
    ensures Centroid(Vertices(rt)) == Point3(0.5, rt.sqrt3 / 6.0, rt.sqrt6 / 12.0)
  {
    var vs := Vertices(rt);
    assert vs[3..][1..] == [];
    assert Sum(vs[3..]) == vs[3];
    assert vs[2..][1..] == vs[3..];
    assert Sum(vs[2..]) == Add(vs[2], vs[3]);
    assert vs[1..][1..] == vs[2..];
    assert Sum(vs[1..]) == Add(vs[1], Add(vs[2], vs[3]));
    assert vs[0..][1..] == vs[1..];
    assert Sum(vs) == Point3(2.0, rt.sqrt3 * (2.0 / 3.0), rt.sqrt6 / 3.0);
  }

  /** x depends on r and l only, y on t and f only, z on f only. */
  lemma CoordinatesAreSeparable(r: real, l: real, t: real, f: real,
                                r': real, l': real, t': real, f': real, rt: Radicals)
    ensures r == r' && l == l' ==>
              QuaternaryToCoord(r, l, t, f, rt).x == QuaternaryToCoord(r', l', t', f', rt).x
    ensures t == t' && f == f' ==>
              QuaternaryToCoord(r, l, t, f, rt).y == QuaternaryToCoord(r', l', t', f', rt).y
    ensures f == f' ==>
              QuaternaryToCoord(r, l, t, f, rt).z == QuaternaryToCoord(r', l', t', f', rt).z
  {
  }

  /** The point lies in the plane of the base face (z = 0) exactly when f = 0. */
  lemma BaseFaceIffNoF(r: real, l: real, t: real, f: real, rt: Radicals)
    requires Exact(rt)
    ensures QuaternaryToCoord(r, l, t, f, rt).z == 0.0 <==> f == 0.0
  {
    if f != 0.0 {
      assert f * rt.sqrt6 != 0.0;
    }
  }

  /**
   On compositions (weights summing to 1) the map is injective: a point of
   the plot determines the composition it came from.
   */
  lemma QuaternaryToCoordInjective(r: real, l: real, t: real, f: real,
                                   r': real, l': real, t': real, f': real, rt: Radicals)
    requires Exact(rt)
    requires r + l + t + f == 1.0 && r' + l' + t' + f' == 1.0
    requires QuaternaryToCoord(r, l, t, f, rt) == QuaternaryToCoord(r', l', t', f', rt)
    ensures r == r' && l == l' && t == t' && f == f'
  {
    assert (f - f') * rt.sqrt6 == 0.0;
    assert f == f';
    assert (t - t') * rt.sqrt3 == 0.0;
    assert t == t';
  }

  /** The table is a regular tetrahedron whose six edges all have length 1. */
  lemma VerticesFormRegularTetrahedron(rt: Radicals)
    requires Exact(rt)
    ensures forall i, j :: 0 <= i < j < 4 ==> Dist2(Vertices(rt)[i], Vertices(rt)[j]) == 1.0
  {
    var vs := Vertices(rt);
    var s3, s6 := rt.sqrt3, rt.sqrt6;
    assert Dist2(vs[0], vs[2]) == 0.25 + s3 * s3 / 4.0;
    assert Dist2(vs[1], vs[2]) == 0.25 + s3 * s3 / 4.0;
    assert Dist2(vs[0], vs[3]) == 0.25 + s3 * s3 / 36.0 + s6 * s6 / 9.0;
    assert Dist2(vs[1], vs[3]) == 0.25 + s3 * s3 / 36.0 + s6 * s6 / 9.0;
    assert Dist2(vs[2], vs[3]) == s3 * s3 / 9.0 + s6 * s6 / 9.0;
  }
}
