# Quaternary plot: tetrahedral placement of four-component compositions

This project models the core of `quaternary.py`, a script that draws trajectories of
four-component compositions (r, l, t, f) inside a regular tetrahedron, after the
tetrahedral plot diagram of Shimura and Kemp (American Mineralogist 100, 2015).

- `tetrahedron.dfy`, module `Tetrahedron`: the fixed `vertices` table and
  `quaternary_to_coord`, over `real`. The square roots of 3 and 6 are a `Radicals`
  parameter. The vertex, centroid and barycentric facts hold for any value of them.
  The metric facts (unit edges, the base face, injectivity) assume `Exact`, which
  says the values are the true positive roots.
- `plot.dfy`, module `Plot`: the body of `plot`.
  - `BuildTrajectory` is the loop that appends the mapped coordinates of each line to
    the lists `x`, `y` and `z`. It is proved equal to the function `Build`.
  - `ArrowAt` selects the arrow endpoints at `arrow_pos` and `arrow_pos + 1`.
  - `Markers` selects the begin and end markers at index 0 and index -1.
  - `Plot` runs these steps in the source's order.
  - The class `TrajectoryArrow` models the arrow patch. `Do3dProjection` re-projects it.

List reads follow Python indexing. An index i with -n <= i < 0 counts from the end.
Any other index outside 0 <= i < n raises `IndexError`, which is modelled as `Err`.

The arrow index is not clamped: an index k with k + 1 >= n is an error. A negative
index wraps, so k = -1 draws the arrow from the last point to the first. The default
`arrow_pos` is 2000 (quaternary.py:112). The input [(1,0,0,0), (0,1,0,0)] gives
vertex 1 of the table, (1,0,0), then vertex 0.

## Model

| member | source | states |
|---|---|---|
| `Tetrahedron.Vertices` | quaternary.py:28-33 | the table has four vertices, and the first three lie in the base plane z = 0 |
| `Tetrahedron.VerticesFormRegularTetrahedron` | quaternary.py:28-33 | with exact roots, all six edges between the four vertices have length 1, so the table is a regular tetrahedron with unit edge |
| `Tetrahedron.PureComponentsAreVertices` | quaternary.py:68-72 | (0,1,0,0), (1,0,0,0), (0,0,1,0) and (0,0,0,1) land exactly on vertices 0, 1, 2 and 3 of the table |
| `Tetrahedron.QuaternaryToCoordAffine` | quaternary.py:68-72 | for any four reals, the point is l·V0 + r·V1 + t·V2 + f·V3, plus the missing weight 1 − (r+l+t+f) at the midpoint of edge V0V1; this is what totality without normalisation means geometrically |
| `Tetrahedron.QuaternaryToCoordBarycentric` | quaternary.py:68-72 | when r+l+t+f = 1 the point is exactly the barycentric combination l·V0 + r·V1 + t·V2 + f·V3 of the table |
| `Tetrahedron.EqualMixtureIsCentroid` | quaternary.py:68-72 | (¼,¼,¼,¼) lands on the average of the four vertices, which is (½, √3/6, √6/12) |
| `Tetrahedron.CoordinatesAreSeparable` | quaternary.py:68-72 | x depends only on r and l, y only on t and f, and z only on f |
| `Tetrahedron.BaseFaceIffNoF` | quaternary.py:71 | with exact roots, z = 0 exactly when f = 0, so the point is in the base plane exactly when f = 0 |
| `Tetrahedron.QuaternaryToCoordInjective` | quaternary.py:68-72 | with exact roots, two compositions summing to 1 that map to the same point are equal |
| `Plot.ListPosition` | quaternary.py:150 | a list of length n can be read at i exactly when −n ≤ i < n; the position read is in range and congruent to i modulo n |
| `Plot.PointAtIndex` | quaternary.py:104-106 | reading x, y, z at index i succeeds exactly when −n ≤ i < n, and then gives point i mod n (point n+i for negative i); otherwise it fails with an index error naming i |
| `Plot.Build` | quaternary.py:121-134 | on success, x, y and z are parallel and have one entry per input line |
| `Plot.BuildPointwise` | quaternary.py:121-134 | the loop succeeds exactly when every line has at least four fields; entry i of x, y, z is then `quaternary_to_coord` of fields 0..3 of line i |
| `Plot.BuildFailsAtFirstShortLine` | quaternary.py:124-131 | on failure, the error names the first line with fewer than four fields, and the missing field index equals that line's field count |
| `Plot.BuildPrefixError` | quaternary.py:124-131 | once a prefix of the lines fails, the whole run fails with that same error; later lines are never consulted |
| `Plot.BuildIgnoresExtraFields` | quaternary.py:125-131 | the outcome, success or error, is unchanged when every line is cut to its first four fields |
| `Plot.BuildTrajectory` | quaternary.py:120-134 | the appending loop produces exactly `Build` of its input, which is the success/failure and pointwise contents stated above |
| `Plot.ArrowAt` | quaternary.py:139-151 | the arrow exists exactly when −n ≤ k and k+1 < n, with no clamping; it then runs from point k mod n to point (k+1) mod n; otherwise the error names the first index read that is out of range (k, else k+1) |
| `Plot.ArrowAtConsecutive` | quaternary.py:150 | for 0 ≤ k < n−1 the arrow runs from point k to point k+1 |
| `Plot.ArrowAtMinusOneWraps` | quaternary.py:150 | k = −1 reads x[−1] and x[0], so the arrow runs from the last point to the first |
| `Plot.DefaultArrowNeedsPoints` | quaternary.py:109-150 | with the default `arrow_pos` of 2000, the arrow exists exactly when there are at least 2002 points |
| `Plot.Markers` | quaternary.py:102-106 | a marker that is shown reads index 0 (begin) or −1 (end), giving the first or last point, and a marker not shown is absent; it fails only if a shown marker meets an empty trajectory, with the error naming the first index read |
| `Plot.MarkersDefinedAfterArrow` | quaternary.py:102-106 | once the arrow has been placed, the markers can always be placed |
| `Plot.Plot` | quaternary.py:109-157 | the diagram is produced exactly when all lines are complete and −n ≤ `arrow_pos` < n−1; it then holds `Build`'s lists, the arrow at `arrow_pos`, the arrow colour, and the begin/end markers as the first/last line's point when requested; on failure the error is `Build`'s error, or else the arrow's out-of-range index |
| `Plot.TwoVertexScenario` | quaternary.py:121-150 | input [(1,0,0,0), (0,1,0,0)] with arrow position 0 gives exactly two points, vertex 1 then vertex 0, and the arrow from vertex 1 to vertex 0 |
| `Plot.Min` | quaternary.py:65 | the result is no larger than either depth and equals one of them |
| `Plot.TrajectoryArrow.constructor` | quaternary.py:51-55 | the patch keeps the two 3D endpoints, and its screen positions start at (0,0) |
| `Plot.TrajectoryArrow.Do3dProjection` | quaternary.py:57-65 | the screen positions become the projections of tail and head; the returned depth is the smaller of the two projected depths |

## Left out

- `load_file` and the open file: reading lines from disk, and printing and swallowing `IOError`, are I/O. The input is a sequence of lines.
- `str.split` and `float`: tokenising and parsing are library behaviour. Each line arrives as its already-parsed sequence of reals, so a non-numeric token is not modelled.
- Floating point: `np.sqrt` and the arithmetic are modelled over exact reals, with the roots as symbolic constants.
- `proj3d.proj_transform` and the axes' matrix `M` belong to the plotting library. The projection is a function parameter of `Do3dProjection`.
- The figure and axes setup, `plot_axis`, `draw_labels`, the scatter, plot and legend calls, `show` and the module-level invocation are drawing side effects. The `labels` option feeds only `draw_labels` and is not part of `Options`.
- The arrow style arguments (`mutation_scale`, `arrowstyle`) only affect drawing.
- Registering the arrow with the axes (`ax.add_artist`) is a drawing side effect. `Plot` returns the arrow as an `Arrow` value, and a `TrajectoryArrow` is built from that value.
