/**
  The shape builders: the wireframe of a room's bounding box, the two triangles
  of a portal's surface, and the centroid and unnormalised normal that place a
  portal's arrow.
 */
module Shapes {

  import opened Geometry

  // ---------------------------------------------------------------------------
  // Room wireframe

  /** The corner of the box [lo, hi] that takes each coordinate from `hi` when its flag is set. */
  function Corner(lo: Vec3, hi: Vec3, atMaxX: bool, atMaxY: bool, atMaxZ: bool): Vec3 {
    Vec3(if atMaxX then hi.x else lo.x, if atMaxY then hi.y else lo.y, if atMaxZ then hi.z else lo.z)
  }

  /** p is a corner of the box: every coordinate is the box's minimum or maximum one, never a blend. */
  predicate IsBoxCorner(p: Vec3, lo: Vec3, hi: Vec3) {
    (p.x == lo.x || p.x == hi.x) && (p.y == lo.y || p.y == hi.y) && (p.z == lo.z || p.z == hi.z)
  }

  /**
    The line list of a room's box, pairwise: points 2k and 2k+1 are the ends of
    segment k. The list is the one the overlay draws, with its 13 segments,
    kept point for point.
   */
  function RoomVerts(bbmin: Vec3, bbmax: Vec3): (r: seq<Vec3>)
    ensures |r| == 26 && |r| % 2 == 0
    ensures forall i :: 0 <= i < |r| ==> IsBoxCorner(r[i], bbmin, bbmax)
  {
    [
      bbmin,
      Vec3(bbmin.x, bbmin.y, bbmax.z),

      bbmin,
      Vec3(bbmax.x, bbmin.y, bbmin.z),

      bbmin,
      Vec3(bbmin.x, bbmax.y, bbmin.z),

      Vec3(bbmax.x, bbmin.y, bbmax.z),
      Vec3(bbmax.x, bbmin.y, bbmin.z),

      Vec3(bbmin.x, bbmin.y, bbmax.z),
      Vec3(bbmin.x, bbmax.y, bbmax.z),

      Vec3(bbmin.x, bbmax.y, bbmin.z),
      Vec3(bbmin.x, bbmax.y, bbmax.z),

      Vec3(bbmax.x, bbmin.y, bbmax.z),
      Vec3(bbmax.x, bbmin.y, bbmax.z),

      Vec3(bbmax.x, bbmin.y, bbmax.z),
      Vec3(bbmin.x, bbmin.y, bbmax.z),

      Vec3(bbmax.x, bbmin.y, bbmin.z),
      Vec3(bbmax.x, bbmax.y, bbmin.z),

      Vec3(bbmin.x, bbmax.y, bbmin.z),
      Vec3(bbmax.x, bbmax.y, bbmin.z),

      Vec3(bbmax.x, bbmin.y, bbmax.z),
      bbmax,

      Vec3(bbmin.x, bbmax.y, bbmax.z),
      bbmax,

      Vec3(bbmax.x, bbmax.y, bbmin.z),
      bbmax
    ]
  }

  /** The segment of the room list whose two ends coincide. */
  const DegenerateSegment: nat := 6

  /** The axis a box edge runs along. */
  datatype Direction = AlongX | AlongY | AlongZ

  /**
    One of the 12 edges of a box: the axis it runs along and, for the two other
    axes taken in x, y, z order, whether it lies at their maximum.
   */
  datatype BoxEdge = BoxEdge(dir: Direction, atMaxU: bool, atMaxV: bool)

  /** The two ends of an edge, minimum end first. */
  function EdgeEnds(lo: Vec3, hi: Vec3, e: BoxEdge): (Vec3, Vec3) {
    match e.dir
    case AlongX => (Corner(lo, hi, false, e.atMaxU, e.atMaxV), Corner(lo, hi, true, e.atMaxU, e.atMaxV))
    case AlongY => (Corner(lo, hi, e.atMaxU, false, e.atMaxV), Corner(lo, hi, e.atMaxU, true, e.atMaxV))
    case AlongZ => (Corner(lo, hi, e.atMaxU, e.atMaxV, false), Corner(lo, hi, e.atMaxU, e.atMaxV, true))
  }

  /** Segment k of a line list joins the two ends of edge e, in either order. */
  predicate SegmentOn(verts: seq<Vec3>, k: nat, lo: Vec3, hi: Vec3, e: BoxEdge)
    requires 2 * k + 1 < |verts|
  {
    var (a, b) := EdgeEnds(lo, hi, e);
    (verts[2 * k] == a && verts[2 * k + 1] == b) || (verts[2 * k] == b && verts[2 * k + 1] == a)
  }

  /** The edge each proper segment of the room list draws. */
  function SegmentEdge(k: nat): BoxEdge
    requires k < 13 && k != DegenerateSegment
  {
    if k == 0 then BoxEdge(AlongZ, false, false)
    else if k == 1 then BoxEdge(AlongX, false, false)
    else if k == 2 then BoxEdge(AlongY, false, false)
    else if k == 3 then BoxEdge(AlongZ, true, false)
    else if k == 4 then BoxEdge(AlongY, false, true)
    else if k == 5 then BoxEdge(AlongZ, false, true)
    else if k == 7 then BoxEdge(AlongX, false, true)
    else if k == 8 then BoxEdge(AlongY, true, false)
    else if k == 9 then BoxEdge(AlongX, true, false)
    else if k == 10 then BoxEdge(AlongY, true, true)
    else if k == 11 then BoxEdge(AlongX, true, true)
    else BoxEdge(AlongZ, true, true)
  }

  /** The segment of the room list that draws each box edge. */
  function EdgeSegment(e: BoxEdge): nat {
    match e
    case BoxEdge(AlongX, false, false) => 1
    case BoxEdge(AlongX, false, true) => 7
    case BoxEdge(AlongX, true, false) => 9
    case BoxEdge(AlongX, true, true) => 11
    case BoxEdge(AlongY, false, false) => 2
    case BoxEdge(AlongY, false, true) => 4
    case BoxEdge(AlongY, true, false) => 8
    case BoxEdge(AlongY, true, true) => 10
    case BoxEdge(AlongZ, false, false) => 0
    case BoxEdge(AlongZ, true, false) => 3
    case BoxEdge(AlongZ, false, true) => 5
    case BoxEdge(AlongZ, true, true) => 12
  }

  /** The two tables are inverse: the 12 proper segments and the 12 box edges correspond one to one. */
  lemma SegmentsMatchEdgesOneToOne()
    ensures forall k: nat :: k < 13 && k != DegenerateSegment ==> EdgeSegment(SegmentEdge(k)) == k
    ensures forall e :: EdgeSegment(e) < 13 && EdgeSegment(e) != DegenerateSegment && SegmentEdge(EdgeSegment(e)) == e
  {
  }

  /** Every segment of the room list other than the degenerate one is an edge of the box. */
  lemma RoomSegmentIsEdge(lo: Vec3, hi: Vec3, k: nat)
    requires k < 13 && k != DegenerateSegment
    ensures SegmentOn(RoomVerts(lo, hi), k, lo, hi, SegmentEdge(k))
  {
  }

  /**
    All 12 edges of the box appear among the proper segments of the room list:
    edge e is segment EdgeSegment(e).
   */
  lemma RoomEdgesCovered(lo: Vec3, hi: Vec3)
    ensures forall e ::
              EdgeSegment(e) < 13 && EdgeSegment(e) != DegenerateSegment &&
              SegmentOn(RoomVerts(lo, hi), EdgeSegment(e), lo, hi, e)
  {
  }

  /** The extra segment of the room list has both ends at the corner (max.x, min.y, max.z). */
  lemma RoomDegenerateSegmentEnds(lo: Vec3, hi: Vec3)
    ensures var v := RoomVerts(lo, hi);
      v[2 * DegenerateSegment] == Corner(lo, hi, true, false, true) &&
      v[2 * DegenerateSegment + 1] == Corner(lo, hi, true, false, true)
  {
  }

  /**
    For a box with extent on every axis, the degenerate segment is the only one
    of zero length.
   */
  lemma RoomOnlyDegenerateSegment(lo: Vec3, hi: Vec3, k: nat)
    requires lo.x != hi.x && lo.y != hi.y && lo.z != hi.z
    requires k < 13
    ensures RoomVerts(lo, hi)[2 * k] == RoomVerts(lo, hi)[2 * k + 1] <==> k == DegenerateSegment
  {
  }

  // ---------------------------------------------------------------------------
  // Portal surface

  /**
    The triangle list of a portal's quad: (c0, c1, c3) and then (c2, c3, c1),
    split along the c1-c3 diagonal.
   */
  function PortalVerts(corners: seq<Vec3>): (r: seq<Vec3>)
    requires |corners| >= 4
    ensures |r| == 6
    ensures forall i :: 0 <= i < 4 ==> corners[i] in r
    ensures forall p :: p in r ==> p in corners[..4]
    ensures corners[1] in r[..3] && corners[3] in r[..3] && corners[0] in r[..3]
    ensures corners[1] in r[3..] && corners[3] in r[3..] && corners[2] in r[3..]
  {
    var r := [
      corners[0],
      corners[1],
      corners[3],

      corners[2],
      corners[3],
      corners[1]
    ];
    assert r[..3] == [r[0], r[1], r[2]] && r[3..] == [r[3], r[4], r[5]];
    r
  }

  /** Twice the vector area of triangle (a, b, c): its unit normal scaled by twice its area. */
  function TriangleCross(a: Vec3, b: Vec3, c: Vec3): Vec3 {
    Cross(Sub(b, a), Sub(c, a))
  }

  /** Twice the vector area of the quad c0 c1 c2 c3 taken around its perimeter. */
  function QuadCross(c: seq<Vec3>): Vec3
    requires |c| >= 4
  {
    Add(Add(Cross(c[0], c[1]), Cross(c[1], c[2])), Add(Cross(c[2], c[3]), Cross(c[3], c[0])))
  }

  /** One coordinate of TriangleCrossAsSum, written with the two coordinates it is built from. */
  lemma CrossCoordinateAsSum(a1: real, a2: real, b1: real, b2: real, c1: real, c2: real)
    ensures (b1 - a1) * (c2 - a2) - (b2 - a2) * (c1 - a1)
         == (a1 * b2 - a2 * b1) + (b1 * c2 - b2 * c1) + (c1 * a2 - c2 * a1)
  {
    assert (b1 - a1) * (c2 - a2) == b1 * c2 - b1 * a2 - a1 * c2 + a1 * a2;
    assert (b2 - a2) * (c1 - a1) == b2 * c1 - b2 * a1 - a2 * c1 + a2 * a1;
  }

  lemma TriangleCrossAsSumX(a: Vec3, b: Vec3, c: Vec3)
    ensures TriangleCross(a, b, c).x == (Cross(a, b).x + Cross(b, c).x) + Cross(c, a).x
  {
    CrossCoordinateAsSum(a.y, a.z, b.y, b.z, c.y, c.z);
  }

  lemma TriangleCrossAsSumY(a: Vec3, b: Vec3, c: Vec3)
    ensures TriangleCross(a, b, c).y == (Cross(a, b).y + Cross(b, c).y) + Cross(c, a).y
  {
    CrossCoordinateAsSum(a.z, a.x, b.z, b.x, c.z, c.x);
  }

  lemma TriangleCrossAsSumZ(a: Vec3, b: Vec3, c: Vec3)
    ensures TriangleCross(a, b, c).z == (Cross(a, b).z + Cross(b, c).z) + Cross(c, a).z
  {
    CrossCoordinateAsSum(a.x, a.y, b.x, b.y, c.x, c.y);
  }

  /** The vector area of a triangle as the sum of the cross products around it. */
  lemma TriangleCrossAsSum(a: Vec3, b: Vec3, c: Vec3)
    ensures TriangleCross(a, b, c) == Add(Add(Cross(a, b), Cross(b, c)), Cross(c, a))
  {
    TriangleCrossAsSumX(a, b, c);
    TriangleCrossAsSumY(a, b, c);
    TriangleCrossAsSumZ(a, b, c);
  }

  /**
    The two triangles of the portal list add up to the quad: their signed
    vector areas sum to the signed vector area of the quad taken around its
    perimeter. (For a non-convex quad one triangle may face the other way.)
   */
  lemma PortalTrianglesCoverQuad(corners: seq<Vec3>)
    requires |corners| >= 4
    ensures var r := PortalVerts(corners);
      Add(TriangleCross(r[0], r[1], r[2]), TriangleCross(r[3], r[4], r[5])) == QuadCross(corners)
  {
    var c0, c1, c2, c3 := corners[0], corners[1], corners[2], corners[3];
    TriangleCrossAsSum(c0, c1, c3);
    TriangleCrossAsSum(c2, c3, c1);
    var q := QuadCross(corners);
    var s := Add(TriangleCross(c0, c1, c3), TriangleCross(c2, c3, c1));
    assert s.x == q.x;
    assert s.y == q.y;
    assert s.z == q.z;
  }

  // ---------------------------------------------------------------------------
  // Portal arrow placement

  function Sum(s: seq<real>): real {
    if s == [] then 0.0 else s[0] + Sum(s[1..])
  }

  function Xs(ps: seq<Vec3>): seq<real> {
    seq(|ps|, i requires 0 <= i < |ps| => ps[i].x)
  }

  function Ys(ps: seq<Vec3>): seq<real> {
    seq(|ps|, i requires 0 <= i < |ps| => ps[i].y)
  }

  function Zs(ps: seq<Vec3>): seq<real> {
    seq(|ps|, i requires 0 <= i < |ps| => ps[i].z)
  }

  /** The arithmetic mean of the points, coordinate by coordinate. */
  function Centroid(ps: seq<Vec3>): Vec3
    requires |ps| > 0
  {
    Vec3(Sum(Xs(ps)) / |ps| as real, Sum(Ys(ps)) / |ps| as real, Sum(Zs(ps)) / |ps| as real)
  }

  /** A sum of values that all lie in [lo, hi] lies in [n lo, n hi]. */
  lemma {:induction false} SumBounds(s: seq<real>, lo: real, hi: real)
    requires forall i :: 0 <= i < |s| ==> lo <= s[i] <= hi
    ensures |s| as real * lo <= Sum(s) <= |s| as real * hi
  {
    if s != [] {
      SumBounds(s[1..], lo, hi);
      assert |s[1..]| as real == |s| as real - 1.0;
    }
  }

  lemma SumOfFour(s: seq<real>)
    requires |s| == 4
    ensures Sum(s) == s[0] + s[1] + s[2] + s[3]
  {
    var t1 := s[1..];
    var t2 := t1[1..];
    var t3 := t2[1..];
    assert t3[1..] == [];
    assert Sum(t3) == s[3];
    assert Sum(t2) == s[2] + s[3];
    assert Sum(t1) == s[1] + s[2] + s[3];
  }

  lemma MeanBounds(s: seq<real>, lo: real, hi: real)
    requires |s| > 0
    requires forall i :: 0 <= i < |s| ==> lo <= s[i] <= hi
    ensures lo <= Sum(s) / |s| as real <= hi
  {
    SumBounds(s, lo, hi);
    var n := |s| as real;
    assert Sum(s) / n * n == Sum(s);
  }

  /** The centroid of points inside a box lies inside that box. */
  lemma CentroidInBox(ps: seq<Vec3>, lo: Vec3, hi: Vec3)
    requires |ps| > 0
    requires forall i :: 0 <= i < |ps| ==>
      lo.x <= ps[i].x <= hi.x && lo.y <= ps[i].y <= hi.y && lo.z <= ps[i].z <= hi.z
    ensures var c := Centroid(ps);
      lo.x <= c.x <= hi.x && lo.y <= c.y <= hi.y && lo.z <= c.z <= hi.z
  {
    MeanBounds(Xs(ps), lo.x, hi.x);
    MeanBounds(Ys(ps), lo.y, hi.y);
    MeanBounds(Zs(ps), lo.z, hi.z);
  }

  /** For a quad, the centroid is the sum of the four corners divided by four. */
  lemma CentroidOfQuad(corners: seq<Vec3>)
    requires |corners| == 4
    ensures var a, b, c, d := corners[0], corners[1], corners[2], corners[3];
      Centroid(corners) == Vec3((a.x + b.x + c.x + d.x) / 4.0, (a.y + b.y + c.y + d.y) / 4.0, (a.z + b.z + c.z + d.z) / 4.0)
  {
    SumOfFour(Xs(corners));
    SumOfFour(Ys(corners));
    SumOfFour(Zs(corners));
  }

  /**
    The portal normal before normalisation: the negated cross product of
    (c2 - c0) and (c1 - c0).
   */
  function RawNormal(corners: seq<Vec3>): Vec3
    requires |corners| >= 3
  {
    Neg(Cross(Sub(corners[2], corners[0]), Sub(corners[1], corners[0])))
  }

  /**
    The portal normal as the arrow uses it: the cross product of (c2 - c0) and
    (c1 - c0), normalised by `normalize`, and negated after normalising.
   */
  function PortalNormal(corners: seq<Vec3>, normalize: Vec3 -> Vec3): Vec3
    requires |corners| >= 3
  {
    Neg(normalize(Cross(Sub(corners[2], corners[0]), Sub(corners[1], corners[0]))))
  }

  /**
    For a normalisation that commutes with negation, as a true normalisation
    does, the portal normal is the normalised raw normal.
   */
  lemma PortalNormalOfOddNormalize(corners: seq<Vec3>, normalize: Vec3 -> Vec3)
    requires |corners| >= 3
    requires var v := Cross(Sub(corners[2], corners[0]), Sub(corners[1], corners[0]));
      normalize(Neg(v)) == Neg(normalize(v))
    ensures PortalNormal(corners, normalize) == normalize(RawNormal(corners))
  {
  }

  /**
    The raw normal is twice the vector area of triangle c0 c1 c2, so it is
    perpendicular to both edges from c0 and points the way from which that
    triangle is seen counter-clockwise.
   */
  lemma RawNormalPerpendicular(corners: seq<Vec3>)
    requires |corners| >= 3
    ensures RawNormal(corners) == TriangleCross(corners[0], corners[1], corners[2])
    ensures Dot(RawNormal(corners), Sub(corners[1], corners[0])) == 0.0
    ensures Dot(RawNormal(corners), Sub(corners[2], corners[0])) == 0.0
  {
  }

  /** A portal lying in a horizontal plane has a vertical raw normal. */
  lemma RawNormalOfLevelPortal(corners: seq<Vec3>)
    requires |corners| >= 3
    requires corners[1].z == corners[0].z && corners[2].z == corners[0].z
    ensures RawNormal(corners).x == 0.0 && RawNormal(corners).y == 0.0
  {
  }
}
