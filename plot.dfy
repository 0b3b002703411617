/**
 The data pipeline of the quaternary plot: the loop that turns input lines into
 the three parallel coordinate lists x, y, z; the selection of the arrow
 endpoints at index k and k+1; the begin and end markers at index 0 and -1;
 and the re-projection of the arrow on every redraw.

 Input lines arrive already split into fields and already parsed to reals.
 List indexing follows the host language: an index i with -n <= i < 0 counts
 from the end, and any other index outside 0 <= i < n is an error.
 */
module Plot {
  import opened Tetrahedron

  /** The error the pipeline can raise (in the source, an `IndexError`). */
  datatype PlotError =
    | MissingField(line: nat, field: nat)  // `values[field]` on a line with only `field` fields
    | IndexOutOfRange(index: int)          // a list read at an index the list does not have

  datatype Result<T> = Ok(value: T) | Err(error: PlotError)

  datatype Option<T> = None | Some(value: T)

  /** The three parallel lists `x`, `y`, `z` the loop appends to. */
  datatype Trajectory = Trajectory(xs: seq<real>, ys: seq<real>, zs: seq<real>) {
    predicate Parallel() {
      |xs| == |ys| == |zs|
    }

    function Length(): nat
      requires Parallel()
    {
      |xs|
    }

    function PointAt(i: nat): Point3
      requires Parallel() && i < Length()
    {
      Point3(xs[i], ys[i], zs[i])
    }
  }

  /** The arrow between two consecutive trajectory points. */
  datatype Arrow = Arrow(tail: Point3, head: Point3)

  /** The keyword arguments of `plot` that reach the core, with their defaults. */
  datatype Options = Options(arrowColor: string, arrowPos: int,
                             showBeginPoint: bool, showEndPoint: bool)

  const DefaultArrowPos: int := 2000

  const DefaultOptions: Options := Options("black", DefaultArrowPos, true, false)

  /** What `plot` hands to the axes: the polyline, the arrow and the markers. */
  datatype Diagram = Diagram(trajectory: Trajectory, arrow: Arrow, arrowColor: string,
                             begin: Option<Point3>, end: Option<Point3>)

  /**
   Reading a list of length n at index i: the position actually read, for
   -n <= i < n, counting from the end when i is negative.
   */
  function ListPosition(n: nat, i: int): (p: Option<nat>)
    ensures p.Some? <==> -(n as int) <= i < n
    ensures p.Some? ==> p.value < n && (p.value as int - i) % n == 0
  {
    if 0 <= i < n then Some(i)
    else if -(n as int) <= i < 0 then Some(n + i)
    else None
  }

  /** The point at list index i (which may count from the end). */
  function PointAtIndex(t: Trajectory, i: int): (r: Result<Point3>)
    requires t.Parallel()
    ensures r.Ok? <==> -(t.Length() as int) <= i < t.Length()
    ensures r.Ok? ==> r.value == t.PointAt(i % t.Length())
    ensures r.Err? ==> r.error == IndexOutOfRange(i)
  {
    match ListPosition(t.Length(), i)
    case Some(p) => Ok(t.PointAt(p))
    case None => Err(IndexOutOfRange(i))
  }

  /**
   The loop of `plot` over the lines, as a function of the input: lines are
   processed in order, and the first line with fewer than four fields stops
   the whole pipeline.
   */
  function Build(lines: seq<seq<real>>, rt: Radicals): (res: Result<Trajectory>)
    ensures res.Ok? ==> res.value.Parallel() && res.value.Length() == |lines|
    decreases |lines|
  {
    if lines == [] then Ok(Trajectory([], [], []))
    else
      var n := |lines| - 1;
      match Build(lines[..n], rt)
      case Err(e) => Err(e)
      case Ok(t) =>
        var values := lines[n];
        if |values| < 4 then Err(MissingField(n, |values|))
        else
          var p := QuaternaryToCoord(values[0], values[1], values[2], values[3], rt);
          Ok(Trajectory(t.xs + [p.x], t.ys + [p.y], t.zs + [p.z]))
  }

  /** Every line has the four fields the loop reads. */
  predicate AllLinesComplete(lines: seq<seq<real>>) {
    forall i :: 0 <= i < |lines| ==> |lines[i]| >= 4
  }

  /** The point line i maps to (fields 0..3; any further fields are ignored). */
  function LinePoint(line: seq<real>, rt: Radicals): Point3
    requires |line| >= 4
  {
    QuaternaryToCoord(line[0], line[1], line[2], line[3], rt)
  }

  /**
   The loop succeeds exactly when every line has at least four fields, and
   then entry i of x, y and z is the mapped point of line i.
   */
  lemma {:induction false} BuildPointwise(lines: seq<seq<real>>, rt: Radicals)
    ensures Build(lines, rt).Ok? <==> AllLinesComplete(lines)
    ensures Build(lines, rt).Ok? ==>
              forall i :: 0 <= i < |lines| ==> Build(lines, rt).value.PointAt(i) == LinePoint(lines[i], rt)
    decreases |lines|
  {
    if lines != [] {
      var n := |lines| - 1;
      var prefix := lines[..n];
      BuildPointwise(prefix, rt);
      assert forall i :: 0 <= i < n ==> prefix[i] == lines[i];
      if Build(prefix, rt).Ok? && |lines[n]| >= 4 {
        var t := Build(prefix, rt).value;
        var u := Build(lines, rt).value;
        forall i | 0 <= i < |lines|
          ensures u.PointAt(i) == LinePoint(lines[i], rt)
        {
          if i < n {
            assert u.PointAt(i) == t.PointAt(i);
          }
        }
      }
    }
  }

  /** On failure, the error names the first short line and the field index it lacks. */
  lemma {:induction false} BuildFailsAtFirstShortLine(lines: seq<seq<real>>, rt: Radicals)
    requires Build(lines, rt).Err?
    ensures Build(lines, rt).error.MissingField?
    ensures var i := Build(lines, rt).error.line;
            && i < |lines|
            && Build(lines, rt).error.field == |lines[i]| < 4
            && AllLinesComplete(lines[..i])
    decreases |lines|
  {
    var n := |lines| - 1;
    var prefix := lines[..n];
    if Build(prefix, rt).Err? {
      BuildFailsAtFirstShortLine(prefix, rt);
      var i := Build(prefix, rt).error.line;
      assert prefix[i] == lines[i];
      assert prefix[..i] == lines[..i];
    } else {
      BuildPointwise(prefix, rt);
      assert lines[..n] == prefix;
    }
  }

  /** Once a prefix of the input fails, the whole input fails with the same error. */
  lemma {:induction false} BuildPrefixError(lines: seq<seq<real>>, j: nat, rt: Radicals)
    requires j <= |lines| && Build(lines[..j], rt).Err?
    ensures Build(lines, rt) == Build(lines[..j], rt)
    decreases |lines|
  {
    if j < |lines| {
      var n := |lines| - 1;
      assert lines[..n][..j] == lines[..j];
      BuildPrefixError(lines[..n], j, rt);
    } else {
      assert lines[..j] == lines;
    }
  }

  /** Keeps at most the first four fields of every line. */
  function Truncate(lines: seq<seq<real>>): (r: seq<seq<real>>)
    ensures |r| == |lines|
    ensures forall i :: 0 <= i < |lines| ==> |r[i]| == (if |lines[i]| < 4 then |lines[i]| else 4)
    ensures forall i, j :: 0 <= i < |lines| && 0 <= j < |r[i]| ==> r[i][j] == lines[i][j]
  {
    seq(|lines|, i requires 0 <= i < |lines| => if |lines[i]| < 4 then lines[i] else lines[i][..4])
  }

  /** Fields beyond the fourth never influence the result, not even an error. */
  lemma {:induction false} BuildIgnoresExtraFields(lines: seq<seq<real>>, rt: Radicals)
    ensures Build(lines, rt) == Build(Truncate(lines), rt)
    decreases |lines|
  {
    if lines != [] {
      var n := |lines| - 1;
      var cut := Truncate(lines);
      BuildIgnoresExtraFields(lines[..n], rt);
      assert Truncate(lines[..n]) == cut[..n];
      assert |cut[n]| < 4 <==> |lines[n]| < 4;
    }
  }

  /**
   The loop of `plot` (for each line: take fields 0..3, map them, append the
   three coordinates to x, y and z).
   */
  method BuildTrajectory(lines: seq<seq<real>>, rt: Radicals) returns (res: Result<Trajectory>)
    ensures res == Build(lines, rt)
  {
    var xs: seq<real>, ys: seq<real>, zs: seq<real> := [], [], [];
    var i := 0;
    while i < |lines|
      invariant 0 <= i <= |lines|
      invariant Build(lines[..i], rt) == Ok(Trajectory(xs, ys, zs))
    {
      var values := lines[i];
      assert lines[..i + 1][..i] == lines[..i];
      if |values| < 4 {
        BuildPrefixError(lines, i + 1, rt);
        return Err(MissingField(i, |values|));
      }
      var p := QuaternaryToCoord(values[0], values[1], values[2], values[3], rt);
      xs := xs + [p.x];
      ys := ys + [p.y];
      zs := zs + [p.z];
      i := i + 1;
    }
    assert lines[..i] == lines;
    res := Ok(Trajectory(xs, ys, zs));
  }

  /**
   The arrow endpoints (x[k], x[k+1]), (y[k], y[k+1]), (z[k], z[k+1]): no
   clamping, so both k and k+1 must be indices of the lists.
   */
  function ArrowAt(t: Trajectory, k: int): (r: Result<Arrow>)
    requires t.Parallel()
    ensures r.Ok? <==> -(t.Length() as int) <= k && k + 1 < t.Length()
    ensures r.Ok? ==> r.value == Arrow(t.PointAt(k % t.Length()), t.PointAt((k + 1) % t.Length()))
    ensures r.Err? ==> r.error == IndexOutOfRange(if -(t.Length() as int) <= k < t.Length() then k + 1 else k)
  {
    match PointAtIndex(t, k)
    case Err(e) => Err(e)
    case Ok(tail) =>
      match PointAtIndex(t, k + 1)
      case Err(e) => Err(e)
      case Ok(head) => Ok(Arrow(tail, head))
  }

  /** For 0 <= k < n - 1 the arrow joins point k to point k + 1. */
  lemma ArrowAtConsecutive(t: Trajectory, k: int)
    requires t.Parallel() && 0 <= k && k + 1 < t.Length()
    ensures ArrowAt(t, k) == Ok(Arrow(t.PointAt(k), t.PointAt(k + 1)))
  {
  }

  /** k = -1 reads x[-1] and x[0]: the arrow runs from the last point back to the first. */
  lemma ArrowAtMinusOneWraps(t: Trajectory)
    requires t.Parallel() && t.Length() >= 1
    ensures ArrowAt(t, -1) == Ok(Arrow(t.PointAt(t.Length() - 1), t.PointAt(0)))
  {
  }

  /** With the default position the plot needs at least 2002 points. */
  lemma DefaultArrowNeedsPoints(t: Trajectory)
    requires t.Parallel()
    ensures ArrowAt(t, DefaultOptions.arrowPos).Ok? <==> t.Length() >= 2002
  {
  }

  /** A marker drawn only when `show` holds: reading index i only in that case. */
  function MarkerAt(t: Trajectory, show: bool, i: int): Result<Option<Point3>>
    requires t.Parallel()
  {
    if !show then Ok(None)
    else match PointAtIndex(t, i)
      case Err(e) => Err(e)
      case Ok(p) => Ok(Some(p))
  }

  /** `plot_dot`: the begin marker reads index 0, then the end marker index -1. */
  function Markers(t: Trajectory, showBegin: bool, showEnd: bool): (r: Result<(Option<Point3>, Option<Point3>)>)
    requires t.Parallel()
    ensures r.Ok? <==> t.Length() > 0 || (!showBegin && !showEnd)
    ensures r.Ok? ==> r.value.0 == (if showBegin then Some(t.PointAt(0)) else None)
    ensures r.Ok? ==> r.value.1 == (if showEnd then Some(t.PointAt(t.Length() - 1)) else None)
    ensures r.Err? ==> r.error == IndexOutOfRange(if showBegin then 0 else -1)
  {
    match MarkerAt(t, showBegin, 0)
    case Err(e) => Err(e)
    case Ok(begin) =>
      match MarkerAt(t, showEnd, -1)
      case Err(e) => Err(e)
      case Ok(end) => Ok((begin, end))
  }

  /** Once the arrow could be placed, the markers can always be placed. */
  lemma MarkersDefinedAfterArrow(t: Trajectory, k: int, showBegin: bool, showEnd: bool)
    requires t.Parallel() && ArrowAt(t, k).Ok?
    ensures Markers(t, showBegin, showEnd).Ok?
  {
  }

  /**
   The core of `plot`: build the lists, pick the arrow at `arrow_pos`, then
   the markers. The first error aborts the whole diagram.
   */
  method Plot(lines: seq<seq<real>>, opts: Options, rt: Radicals) returns (res: Result<Diagram>)
    ensures res.Ok? <==> AllLinesComplete(lines) && -|lines| <= opts.arrowPos && opts.arrowPos + 1 < |lines|
    ensures res.Ok? ==>
              && Build(lines, rt).Ok?
              && res.value.trajectory == Build(lines, rt).value
              && res.value.arrow == ArrowAt(res.value.trajectory, opts.arrowPos).value
              && res.value.arrowColor == opts.arrowColor
              && (res.value.begin.Some? <==> opts.showBeginPoint)
              && (res.value.end.Some? <==> opts.showEndPoint)
    ensures res.Err? ==>
              res.error == (if Build(lines, rt).Err? then Build(lines, rt).error
                            else IndexOutOfRange(if -|lines| <= opts.arrowPos < |lines|
                                                 then opts.arrowPos + 1 else opts.arrowPos))
    ensures res.Ok? && opts.showBeginPoint ==> res.value.begin.value == LinePoint(lines[0], rt)
    ensures res.Ok? && opts.showEndPoint ==> res.value.end.value == LinePoint(lines[|lines| - 1], rt)
  {
    BuildPointwise(lines, rt);
    var built := BuildTrajectory(lines, rt);
    if built.Err? {
      return Err(built.error);
    }
    var t := built.value;
    var arrow := ArrowAt(t, opts.arrowPos);
    if arrow.Err? {
      return Err(arrow.error);
    }
    MarkersDefinedAfterArrow(t, opts.arrowPos, opts.showBeginPoint, opts.showEndPoint);
    var markers := Markers(t, opts.showBeginPoint, opts.showEndPoint);
    res := Ok(Diagram(t, arrow.value, opts.arrowColor, markers.value.0, markers.value.1));
  }

  /** The smaller of two depths. */
  function Min(a: real, b: real): (m: real)
    ensures m <= a && m <= b
    ensures m == a || m == b
  {
    if a <= b then a else b
  }

  /** A 3D point after the axes' projection: screen position and depth. */
  datatype Projected = Projected(sx: real, sy: real, depth: real)

  /**
   `TrajectoryArrow`: a 2D arrow patch that keeps its two 3D endpoints and,
   on every redraw, moves its screen positions to their current projections.
   The projection (the axes' current matrix) is a parameter.
   */
  class TrajectoryArrow {
    const tail: Point3
    const head: Point3
    var posA: (real, real)
    var posB: (real, real)

    constructor (a: Arrow)
      ensures tail == a.tail && head == a.head
      ensures posA == (0.0, 0.0) && posB == (0.0, 0.0)
    {
      tail, head := a.tail, a.head;
      posA, posB := (0.0, 0.0), (0.0, 0.0);
    }

    /**
     `do_3d_projection`: place the patch at the projected endpoints and report
     the nearer of the two projected depths for depth sorting.
     */
    method Do3dProjection(project: Point3 -> Projected) returns (depth: real)
      modifies this
      ensures posA == (project(tail).sx, project(tail).sy)
      ensures posB == (project(head).sx, project(head).sy)
      ensures depth <= project(tail).depth && depth <= project(head).depth
      ensures depth == project(tail).depth || depth == project(head).depth
    {
      var pa, pb := project(tail), project(head);
      posA, posB := (pa.sx, pa.sy), (pb.sx, pb.sy);
      depth := Min(pa.depth, pb.depth);
    }
  }

  /**
   The input [(1,0,0,0), (0,1,0,0)] with arrow position 0 gives two points,
   vertex 1 then vertex 0 of the table, and an arrow from the first to the second.
   */
  lemma TwoVertexScenario(rt: Radicals)
    ensures var lines := [[1.0, 0.0, 0.0, 0.0], [0.0, 1.0, 0.0, 0.0]];
            && Build(lines, rt).Ok?
            && Build(lines, rt).value.Length() == 2
            && Build(lines, rt).value.PointAt(0) == Vertices(rt)[1]
            && Build(lines, rt).value.PointAt(1) == Vertices(rt)[0]
            && ArrowAt(Build(lines, rt).value, 0) == Ok(Arrow(Vertices(rt)[1], Vertices(rt)[0]))
  {
    var lines := [[1.0, 0.0, 0.0, 0.0], [0.0, 1.0, 0.0, 0.0]];
    BuildPointwise(lines, rt);
    PureComponentsAreVertices(rt);
  }
}
