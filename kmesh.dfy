/** The k-point meshes of hfsbe/brillouin/mesh.py: the two parallel lines of
    `mesh` and the hexagonal Monkhorst-Pack mesh of `hex_mesh`, with the
    hexagon test and the reflection that folds points back into the first
    Brillouin zone.  pi and sqrt(3) are parameters; the lemmas about the
    hexagon assume only that they are positive and, where the geometry needs
    it, that s * s == 3. */
module KMesh {
  import opened Outcomes
  import opened Plane

  datatype MeshError = ZeroDivision | NotFolded

  // ---------------------------------------------------------------------
  // linspace and the sampling offsets

  /** `np.linspace(lo, hi, num)` in exact arithmetic: one point gives [lo],
      otherwise num points from lo to hi with equal steps. */
  function Linspace(lo: real, hi: real, num: nat): (r: seq<real>)
    ensures |r| == num
    ensures num >= 1 ==> r[0] == lo
    ensures num >= 2 ==> r[num - 1] == hi
  {
    if num == 1 then [lo]
    else seq(num, i requires 0 <= i < num => lo + i as real * ((hi - lo) / (num - 1) as real))
  }

  /** The points of a linspace lie between its ends. */
  lemma LinspaceBounds(lo: real, hi: real, num: nat, i: nat)
    requires lo <= hi && i < num
    ensures lo <= Linspace(lo, hi, num)[i] <= hi
  {
    if num >= 2 {
      var m := (num - 1) as real;
      var step := (hi - lo) / m;
      assert step >= 0.0;
      assert m * step == hi - lo;
      MulLeRight(0.0, i as real, step);
      MulLeRight(i as real, m, step);
      assert Linspace(lo, hi, num)[i] == lo + i as real * step;
    }
  }

  lemma MulLeRight(a: real, b: real, c: real)
    requires a <= b && c >= 0.0
    ensures a * c <= b * c
  {
    assert b * c - a * c == (b - a) * c;
  }

  /** The cell-centred offsets -1/2 + 1/(2N) .. 1/2 - 1/(2N). */
  function Alpha(n: nat): (r: seq<real>)
    requires n >= 1
    ensures |r| == n
  {
    Linspace(-0.5 + 1.0 / (2 * n) as real, 0.5 - 1.0 / (2 * n) as real, n)
  }

  /** Offset j is (2 j + 1 - N) / (2 N): the cell centres of N equal cells of
      the unit interval centred at 0. */
  lemma AlphaAt(n: nat, j: nat)
    requires n >= 1 && j < n
    ensures Alpha(n)[j] == (2 * j + 1 - n) as real / (2 * n) as real
  {
    var lo, hi := -0.5 + 1.0 / (2 * n) as real, 0.5 - 1.0 / (2 * n) as real;
    if n >= 2 {
      assert hi - lo == (n - 1) as real / n as real;
      assert (hi - lo) / (n - 1) as real == 1.0 / n as real;
    }
  }

  /** The offsets are symmetric about 0. */
  lemma AlphaSymmetric(n: nat, j: nat)
    requires n >= 1 && j < n
    ensures Alpha(n)[n - 1 - j] == -Alpha(n)[j]
  {
    AlphaAt(n, j);
    AlphaAt(n, n - 1 - j);
  }

  /** Consecutive offsets are one cell 1/N apart. */
  lemma AlphaStep(n: nat, j: nat)
    requires j + 1 < n
    ensures Alpha(n)[j + 1] - Alpha(n)[j] == 1.0 / n as real
  {
    AlphaAt(n, j);
    AlphaAt(n, j + 1);
  }

  // ---------------------------------------------------------------------
  // mesh: two lines parallel to E

  /** The parameters `mesh` reads. */
  datatype LineParams = LineParams(nkInPath: nat, relDistToGamma: real, a: real, lengthPathInBz: real)

  /** Point j of the path with index pathIndex (-1 or 1). */
  function LinePoint(ortho: Point, vecPath: Point, alpha: real, pathIndex: real): Point
  {
    Add(Scale(pathIndex, ortho), Scale(alpha, vecPath))
  }

  /** The offset of the two lines from Gamma: (2 pi / a) d (E_y, -E_x). */
  function LineOrtho(lp: LineParams, eDir: Point, pi: real): Point
    requires lp.a != 0.0
  {
    Scale(2.0 * pi / lp.a * lp.relDistToGamma, Ortho(eDir))
  }

  /** The path with index pathIndex: Nk_in_path points along E at the
      offsets Alpha. */
  function LinePath(lp: LineParams, eDir: Point, pi: real, pathIndex: real): (r: seq<Point>)
    requires lp.nkInPath >= 1 && lp.a != 0.0
    ensures |r| == lp.nkInPath
  {
    var n, ortho, vecPath := lp.nkInPath, LineOrtho(lp, eDir, pi), Scale(lp.lengthPathInBz, eDir);
    var al := Alpha(n);
    seq(n, j requires 0 <= j < n => LinePoint(ortho, vecPath, al[j], pathIndex))
  }

  /** The two paths of `mesh`, for path index -1 and then 1. */
  function LinePaths(lp: LineParams, eDir: Point, pi: real): (r: seq<seq<Point>>)
    requires lp.nkInPath >= 1 && lp.a != 0.0
    ensures |r| == 2 && |r[0]| == lp.nkInPath && |r[1]| == lp.nkInPath
  {
    [LinePath(lp, eDir, pi, -1.0), LinePath(lp, eDir, pi, 1.0)]
  }

  /** Two points of one path differ by the difference of their offsets
      along the path vector. */
  lemma LinePointStep(ortho: Point, vecPath: Point, a0: real, a1: real, pathIndex: real)
    ensures Sub(LinePoint(ortho, vecPath, a1, pathIndex), LinePoint(ortho, vecPath, a0, pathIndex)) == Scale(a1 - a0, vecPath)
  {
    assert a1 * vecPath.x - a0 * vecPath.x == (a1 - a0) * vecPath.x;
    assert a1 * vecPath.y - a0 * vecPath.y == (a1 - a0) * vecPath.y;
  }

  lemma ScaleScale(a: real, b: real, d: Point)
    ensures Scale(a, Scale(b, d)) == Scale(a * b, d)
  {
    assert a * (b * d.x) == (a * b) * d.x;
    assert a * (b * d.y) == (a * b) * d.y;
  }

  /** Two line points whose offsets differ by d differ by d L E_dir. */
  lemma StepThenScale(ortho: Point, l: real, eDir: Point, a0: real, a1: real, pathIndex: real, d: real)
    requires a1 - a0 == d
    ensures Sub(LinePoint(ortho, Scale(l, eDir), a1, pathIndex), LinePoint(ortho, Scale(l, eDir), a0, pathIndex)) == Scale(d * l, eDir)
  {
    LinePointStep(ortho, Scale(l, eDir), a0, a1, pathIndex);
    ScaleScale(d, l, eDir);
  }

  /** Consecutive points of a path are dk E_dir apart, dk = L / Nk_in_path. */
  lemma LinePathSpacing(lp: LineParams, eDir: Point, pi: real, pathIndex: real, j: nat)
    requires lp.nkInPath >= 1 && lp.a != 0.0 && j + 1 < lp.nkInPath
    ensures var path := LinePath(lp, eDir, pi, pathIndex);
            Sub(path[j + 1], path[j]) == Scale(1.0 / lp.nkInPath as real * lp.lengthPathInBz, eDir)
  {
    var n := lp.nkInPath;
    AlphaStep(n, j);
    var al := Alpha(n);
    StepThenScale(LineOrtho(lp, eDir, pi), lp.lengthPathInBz, eDir, al[j], al[j + 1], pathIndex, 1.0 / n as real);
  }

  /** Corresponding points of the two paths are 2 k_ortho apart, and k_ortho
      is perpendicular to E. */
  lemma LinePathsOffset(lp: LineParams, eDir: Point, pi: real, j: nat)
    requires lp.nkInPath >= 1 && lp.a != 0.0 && j < lp.nkInPath
    ensures Sub(LinePath(lp, eDir, pi, 1.0)[j], LinePath(lp, eDir, pi, -1.0)[j]) == Scale(2.0, LineOrtho(lp, eDir, pi))
    ensures Dot(LineOrtho(lp, eDir, pi), eDir) == 0.0
  {
    var c := 2.0 * pi / lp.a * lp.relDistToGamma;
    assert Dot(LineOrtho(lp, eDir, pi), eDir) == c * (eDir.y * eDir.x - eDir.x * eDir.y);
  }

  /** The points of a list of paths, path after path. */
  function Concat<T>(ps: seq<seq<T>>): seq<T>
  {
    if ps == [] then [] else Concat(ps[..|ps| - 1]) + ps[|ps| - 1]
  }

  lemma ConcatAppend<T>(ps: seq<seq<T>>, x: seq<T>)
    ensures Concat(ps + [x]) == Concat(ps) + x
  {
    assert (ps + [x])[..|ps|] == ps;
  }

  /** `mesh(params, E_dir)`: dk, the mesh and the two paths, built by the two
      nested loops that append to both lists. */
  method Mesh(lp: LineParams, eDir: Point, pi: real) returns (r: Result<(real, seq<Point>, seq<seq<Point>>), MeshError>)
    ensures r.Err? <==> lp.nkInPath == 0 || lp.a == 0.0
    ensures r.Ok? ==> var (dk, mesh, paths) := r.value;
                      && dk == 1.0 / lp.nkInPath as real * lp.lengthPathInBz
                      && paths == LinePaths(lp, eDir, pi)
                      && mesh == Concat(paths)
  {
    if lp.nkInPath == 0 || lp.a == 0.0 {
      return Err(ZeroDivision);
    }
    var n := lp.nkInPath;
    var alphaArray := Alpha(n);
    var vecPath := Scale(lp.lengthPathInBz, eDir);
    var ortho := LineOrtho(lp, eDir, pi);
    ghost var goal := LinePaths(lp, eDir, pi);
    var mesh: seq<Point> := [];
    var paths: seq<seq<Point>> := [];
    for p := 0 to 2
      invariant paths == goal[..p] && mesh == Concat(paths)
    {
      var pathIndex := if p == 0 then -1.0 else 1.0;
      var path: seq<Point> := [];
      for j := 0 to n
        invariant path == goal[p][..j] && mesh == Concat(paths) + path
      {
        var kpoint := LinePoint(ortho, vecPath, alphaArray[j], pathIndex);
        mesh := mesh + [kpoint];
        path := path + [kpoint];
      }
      assert path == goal[p];
      ConcatAppend(paths, path);
      assert goal[..p + 1] == goal[..p] + [goal[p]];
      paths := paths + [path];
    }
    assert goal[..2] == goal;
    var dk := 1.0 / n as real * lp.lengthPathInBz;
    return Ok((dk, mesh, paths));
  }

  // ---------------------------------------------------------------------
  // The hexagonal Brillouin zone

  /** The lattice constant, the reciprocal vectors and the constants pi and
      sqrt(3). */
  datatype Lattice = Lattice(a: real, b1: Point, b2: Point, pi: real, s3: real)

  predicate Usable(g: Lattice)
  {
    g.s3 * g.a != 0.0
  }

  /** The length unit pi / (sqrt(3) a) of the hexagon: its half height is two
      units and the bound of its slanted edges four. */
  function Unit(g: Lattice): real
    requires Usable(g)
  {
    g.pi / (g.s3 * g.a)
  }

  /** The half height 2 pi / (sqrt(3) a) of the hexagon. */
  function HalfHeight(g: Lattice): real
    requires Usable(g)
  {
    2.0 * Unit(g)
  }

  function Abs(x: real): real { if x < 0.0 then -x else x }

  /** `is_in_hex(p, a)`: the first-quadrant test on |x| and |y|, boundary
      included.  For a positive sqrt(3) the points inside are exactly those
      on the inner side of all six edges of the hexagon. */
  predicate IsInHex(g: Lattice, p: Point): (r: bool)
    requires Usable(g)
    ensures r ==> -HalfHeight(g) <= p.y <= HalfHeight(g)
    ensures g.s3 > 0.0 ==>
              (r <==> && -HalfHeight(g) <= p.y <= HalfHeight(g)
                      && -4.0 * Unit(g) <= g.s3 * p.x + p.y <= 4.0 * Unit(g)
                      && -4.0 * Unit(g) <= -g.s3 * p.x + p.y <= 4.0 * Unit(g))
  {
    var x, y := Abs(p.x), Abs(p.y);
    y <= HalfHeight(g) && g.s3 * x + y <= 4.0 * Unit(g)
  }

  /** The test depends only on |x| and |y|: it is symmetric under both
      reflections of the axes. */
  lemma IsInHexSymmetric(g: Lattice, p: Point)
    requires Usable(g)
    ensures IsInHex(g, p) == IsInHex(g, Point(-p.x, p.y)) == IsInHex(g, Point(p.x, -p.y))
    ensures IsInHex(g, p) == IsInHex(g, Point(Abs(p.x), Abs(p.y)))
  {
    assert Abs(-p.x) == Abs(p.x) == Abs(Abs(p.x));
    assert Abs(-p.y) == Abs(p.y) == Abs(Abs(p.y));
  }

  /** The boundary belongs to the hexagon: the top vertex over Gamma and the
      corner on the x axis are inside. */
  lemma IsInHexBoundaryInclusive(g: Lattice)
    requires Usable(g) && g.s3 > 0.0 && g.a > 0.0 && g.pi > 0.0
    ensures IsInHex(g, Point(0.0, HalfHeight(g)))
    ensures IsInHex(g, Point(4.0 * Unit(g) / g.s3, 0.0))
  {
    UnitPositive(g);
    var q := 4.0 * Unit(g);
    assert g.s3 * (q / g.s3) == q;
  }

  /** `reflect_point`: the first of the six edge tests that fires moves the
      point by a reciprocal lattice vector, +-b2, +-b1 or +-(b1 + b2); a point
      inside the hexagon stays where it is. */
  function ReflectPoint(g: Lattice, p: Point): (r: Point)
    requires Usable(g)
    ensures r in {p, Sub(p, g.b2), Add(p, g.b2), Sub(p, g.b1), Add(p, g.b1),
                  Sub(p, Add(g.b1, g.b2)), Add(p, Add(g.b1, g.b2))}
    ensures g.s3 > 0.0 && IsInHex(g, p) ==> r == p
  {
    var h, w := HalfHeight(g), 4.0 * Unit(g);
    if p.y > h then Sub(p, g.b2)
    else if p.y < -h then Add(p, g.b2)
    else if g.s3 * p.x + p.y > w then Sub(p, Add(g.b1, g.b2))
    else if -g.s3 * p.x + p.y < -w then Sub(p, g.b1)
    else if g.s3 * p.x + p.y < -w then Add(p, Add(g.b1, g.b2))
    else if -g.s3 * p.x + p.y > w then Add(p, g.b1)
    else p
  }

  /** Some edge test of `reflect_point` fires for every point outside the
      hexagon. */
  predicate SomeEdgeCrossed(g: Lattice, p: Point)
    requires Usable(g)
  {
    var h, w := HalfHeight(g), 4.0 * Unit(g);
    p.y > h || p.y < -h || g.s3 * p.x + p.y > w || -g.s3 * p.x + p.y < -w
    || g.s3 * p.x + p.y < -w || -g.s3 * p.x + p.y > w
  }

  lemma ReflectCovers(g: Lattice, p: Point)
    requires Usable(g) && g.s3 > 0.0
    ensures !IsInHex(g, p) <==> SomeEdgeCrossed(g, p)
  {
  }

  /** The `while not is_in_hex` loop of the 'M' branch with at most fuel
      reflections; None when the point is still outside. */
  function Fold(g: Lattice, p: Point, fuel: nat): (r: Option<Point>)
    requires Usable(g)
    ensures r.Some? ==> IsInHex(g, r.value)
    ensures IsInHex(g, p) ==> r == Some(p)
    decreases fuel
  {
    if IsInHex(g, p) then Some(p)
    else if fuel == 0 then None
    else Fold(g, ReflectPoint(g, p), fuel - 1)
  }

  /** The reflection loop of one point. */
  method FoldIntoHex(g: Lattice, p: Point, fuel: nat) returns (r: Option<Point>)
    requires Usable(g)
    ensures r == Fold(g, p, fuel)
  {
    var kpoint, f := p, fuel;
    while !IsInHex(g, kpoint) && f > 0
      invariant Fold(g, kpoint, f) == Fold(g, p, fuel)
      decreases f
    {
      kpoint := ReflectPoint(g, kpoint);
      f := f - 1;
    }
    if IsInHex(g, kpoint) {
      return Some(kpoint);
    }
    return None;
  }

  // ---------------------------------------------------------------------
  // hex_mesh

  /** The 'M' point (i2, i1) before folding: a1 b1 + a2 b2. */
  function MRaw(g: Lattice, nk1: nat, nk2: nat, i2: nat, i1: nat): Point
    requires i1 < nk1 && i2 < nk2
  {
    Add(Scale(Alpha(nk1)[i1], g.b1), Scale(Alpha(nk2)[i2], g.b2))
  }

  /** The 'M' point (i2, i1): a1 b1 + a2 b2, folded into the hexagon. */
  function MPoint(g: Lattice, nk1: nat, nk2: nat, fuel: nat, i2: nat, i1: nat): Option<Point>
    requires Usable(g) && i1 < nk1 && i2 < nk2
  {
    Fold(g, MRaw(g, nk1, nk2, i2, i1), fuel)
  }

  /** The 'M' paths without folding: point i1 of path i2 is a1 b1 + a2 b2. */
  function UnfoldedPaths(g: Lattice, nk1: nat, nk2: nat): (r: seq<seq<Point>>)
    ensures |r| == nk2 && forall i2 :: 0 <= i2 < nk2 ==> |r[i2]| == nk1
  {
    seq(nk2, i2 requires 0 <= i2 < nk2 => seq(nk1, i1 requires 0 <= i1 < nk1 => MRaw(g, nk1, nk2, i2, i1)))
  }

  /** The 'K' offsets along b_a1: -1/2 + 1/(2 Nk1) .. 1 - 1/(2 Nk1). */
  function AlphaK1(n: nat): (r: seq<real>)
    requires n >= 1
    ensures |r| == n
  {
    Linspace(-0.5 + 1.0 / (2 * n) as real, 1.0 - 1.0 / (2 * n) as real, n)
  }

  /** The 'K' offsets along b_a2: 0 .. 1/2 - 1/(2 Nk2). */
  function AlphaK2(n: nat): (r: seq<real>)
    requires n >= 1
    ensures |r| == n
  {
    Linspace(0.0, 0.5 - 1.0 / (2 * n) as real, n)
  }

  /** a1 b_a1 + a2 b_a2 with b_a1 = 8 pi/(3 a) (1, 0), b_a2 = 4 pi/(3 a) (1, sqrt 3). */
  function KRaw(g: Lattice, u: real, v: real): Point
    requires Usable(g)
  {
    var ba1 := Scale(8.0 * g.pi / (g.a * 3.0), Point(1.0, 0.0));
    var ba2 := Scale(4.0 * g.pi / (g.a * 3.0), Point(1.0, g.s3));
    Add(Scale(u, ba1), Scale(v, ba2))
  }

  /** The single shift by (2 pi / a) (1, 1/sqrt 3) applied to an outside point. */
  function KShift(g: Lattice, p: Point): Point
    requires Usable(g)
  {
    Sub(p, Scale(2.0 * g.pi / g.a, Point(1.0, 1.0 / g.s3)))
  }

  /** The 'K' point (i2, i1): kept when inside, shifted once otherwise. */
  function KPoint(g: Lattice, nk1: nat, nk2: nat, i2: nat, i1: nat): Point
    requires Usable(g) && i1 < nk1 && i2 < nk2
  {
    var kpoint := KRaw(g, AlphaK1(nk1)[i1], AlphaK2(nk2)[i2]);
    if IsInHex(g, kpoint) then kpoint else KShift(g, kpoint)
  }

  predicate IsAlign(align: string) { align == "M" || align == "K" }

  /** The point (i2, i1) of the mesh for alignment 'M' or 'K'; None when the
      reflection loop of 'M' does not end within the fuel. */
  function MeshPoint(g: Lattice, nk1: nat, nk2: nat, align: string, fuel: nat, i2: nat, i1: nat): Option<Point>
    requires Usable(g) && i1 < nk1 && i2 < nk2
  {
    if align == "M" then MPoint(g, nk1, nk2, fuel, i2, i1) else Some(KPoint(g, nk1, nk2, i2, i1))
  }

  /** Every point of the mesh is defined: every reflection loop of 'M' ends
      within the fuel. */
  ghost predicate Folds(g: Lattice, nk1: nat, nk2: nat, align: string, fuel: nat)
    requires Usable(g)
  {
    forall i2, i1 :: 0 <= i2 < nk2 && 0 <= i1 < nk1 ==> MeshPoint(g, nk1, nk2, align, fuel, i2, i1).Some?
  }

  /** Path i2 of `hex_mesh`: its Nk1 points. */
  function HexPathPoints(g: Lattice, nk1: nat, nk2: nat, align: string, fuel: nat, i2: nat): (r: seq<Point>)
    requires Usable(g) && Folds(g, nk1, nk2, align, fuel) && i2 < nk2
    ensures |r| == nk1
  {
    seq(nk1, i1 requires 0 <= i1 < nk1 => MeshPoint(g, nk1, nk2, align, fuel, i2, i1).value)
  }

  /** The paths of `hex_mesh`: Nk2 paths of Nk1 points for 'M' and 'K', none
      for any other alignment. */
  function HexPaths(g: Lattice, nk1: nat, nk2: nat, align: string, fuel: nat): (r: seq<seq<Point>>)
    requires IsAlign(align) ==> Usable(g) && Folds(g, nk1, nk2, align, fuel)
    ensures IsAlign(align) ==> |r| == nk2 && forall i2 :: 0 <= i2 < nk2 ==> |r[i2]| == nk1
    ensures !IsAlign(align) ==> r == []
  {
    if IsAlign(align) then
      seq(nk2, i2 requires 0 <= i2 < nk2 => HexPathPoints(g, nk1, nk2, align, fuel, i2))
    else []
  }

  /** Every point of the 'M' mesh lies in the hexagon. */
  lemma MPointsInHex(g: Lattice, nk1: nat, nk2: nat, fuel: nat, i2: nat, i1: nat)
    requires Usable(g) && Folds(g, nk1, nk2, "M", fuel) && i2 < nk2 && i1 < nk1
    ensures IsInHex(g, HexPaths(g, nk1, nk2, "M", fuel)[i2][i1])
  {
    assert MeshPoint(g, nk1, nk2, "M", fuel, i2, i1).Some?;
  }

  /** The 'K' offsets lie in [-1/2, 1] and [0, 1/2]. */
  lemma KOffsetsBounded(nk1: nat, nk2: nat, i2: nat, i1: nat)
    requires i1 < nk1 && i2 < nk2
    ensures -0.5 <= AlphaK1(nk1)[i1] <= 1.0 && 0.0 <= AlphaK2(nk2)[i2] <= 0.5
  {
    var h1, h2 := 1.0 / (2 * nk1) as real, 1.0 / (2 * nk2) as real;
    assert 0.0 < h1 <= 0.5 && 0.0 < h2 <= 0.5;
    LinspaceBounds(-0.5 + h1, 1.0 - h1, nk1, i1);
    LinspaceBounds(0.0, 0.5 - h2, nk2, i2);
  }

  /** In the coordinates c = pi / a the raw 'K' point is
      ((8 u + 4 v) c / 3, 4 s v c / 3). */
  lemma KRawCoordinates(g: Lattice, u: real, v: real)
    requires Usable(g)
    ensures var c, p := g.pi / g.a, KRaw(g, u, v);
            p.x == (8.0 * u + 4.0 * v) * c / 3.0 && p.y == 4.0 * g.s3 * v * c / 3.0
  {
    var c := g.pi / g.a;
    assert 8.0 * g.pi / (g.a * 3.0) == 8.0 * c / 3.0;
    assert 4.0 * g.pi / (g.a * 3.0) == 4.0 * c / 3.0;
  }

  /** Multiplying by a positive factor keeps an order both ways. */
  lemma ScaleOrder(s: real, w: real, h: real)
    requires s > 0.0
    ensures w <= h <==> s * w <= s * h
  {
    if w <= h {
      assert s * (h - w) >= 0.0;
    } else {
      assert s * (w - h) > 0.0;
    }
  }

  lemma AbsScale(s: real, x: real, q: real)
    requires s >= 0.0 && q == s * x
    ensures Abs(q) == s * Abs(x)
  {
    if x < 0.0 {
      assert s * x == -(s * -x);
      assert s * -x >= 0.0;
    } else {
      assert s * x >= 0.0;
    }
  }

  /** The hexagon in multiples of the unit: |Y| <= 2 and |X| + |Y| <= 4. */
  predicate InReducedHex(x: real, y: real)
  {
    Abs(y) <= 2.0 && Abs(x) + Abs(y) <= 4.0
  }

  lemma IsInHexUnfolded(g: Lattice, p: Point)
    requires Usable(g)
    ensures IsInHex(g, p) == (Abs(p.y) <= 2.0 * Unit(g) && g.s3 * Abs(p.x) + Abs(p.y) <= 4.0 * Unit(g))
  {
  }

  lemma UnitPositive(g: Lattice)
    requires g.s3 > 0.0 && g.a > 0.0 && g.pi > 0.0
    ensures Unit(g) > 0.0
  {
    assert g.s3 * g.a > 0.0;
  }

  /** A bound on b == u a, u > 0, is the bound on a scaled by u. */
  lemma BoundTransfer(u: real, a: real, b: real, k: real)
    requires u > 0.0 && b == u * a
    ensures (b <= k * u) == (a <= k)
  {
    ScaleOrder(u, a, k);
  }

  /** The slanted sum in units: s |x| + |y| == u (|X| + |Y|). */
  lemma SlantInUnits(s: real, px: real, py: real, u: real, x: real, y: real)
    requires s > 0.0 && u > 0.0 && s * px == u * x && py == u * y
    ensures s * Abs(px) + Abs(py) == u * (Abs(x) + Abs(y))
  {
    AbsScale(s, px, s * px);
    AbsScale(u, x, s * px);
    AbsScale(u, y, py);
  }

  /** Both hexagon inequalities for a point with s x == u X and y == u Y. */
  lemma HexTest(s: real, px: real, py: real, u: real, x: real, y: real)
    requires s > 0.0 && u > 0.0 && s * px == u * x && py == u * y
    ensures (Abs(py) <= 2.0 * u && s * Abs(px) + Abs(py) <= 4.0 * u) <==> InReducedHex(x, y)
  {
    AbsScale(u, y, py);
    BoundTransfer(u, Abs(y), Abs(py), 2.0);
    SlantInUnits(s, px, py, u, x, y);
    BoundTransfer(u, Abs(x) + Abs(y), s * Abs(px) + Abs(py), 4.0);
  }

  /** The hexagon test on a point given in multiples of the unit: with
      s x = X unit and y = Y unit the point lies in the hexagon exactly when
      |Y| <= 2 and |X| + |Y| <= 4. */
  lemma IsInHexMultipliers(g: Lattice, p: Point, x: real, y: real)
    requires g.s3 > 0.0 && g.a > 0.0 && g.pi > 0.0
    requires g.s3 * p.x == Unit(g) * x && p.y == Unit(g) * y
    ensures IsInHex(g, p) <==> InReducedHex(x, y)
  {
    UnitPositive(g);
    IsInHexUnfolded(g, p);
    HexTest(g.s3, p.x, p.y, Unit(g), x, y);
  }

  /** With s * s == 3, s (pi / a) is three units. */
  lemma UnitTimesThree(g: Lattice)
    requires Usable(g) && g.s3 * g.s3 == 3.0
    ensures g.s3 * (g.pi / g.a) == 3.0 * Unit(g)
  {
    var s, a := g.s3, g.a;
    assert (s * (g.pi / a)) * (s * a) == (s * s) * g.pi;
    assert (3.0 * Unit(g)) * (s * a) == 3.0 * g.pi;
  }

  /** The raw 'K' point in units: s x = (8 u + 4 v) units and y = 4 v units. */
  lemma KRawScaled(g: Lattice, u: real, v: real)
    requires Usable(g) && g.s3 * g.s3 == 3.0
    ensures var p := KRaw(g, u, v);
            g.s3 * p.x == Unit(g) * (8.0 * u + 4.0 * v) && p.y == Unit(g) * (4.0 * v)
  {
    var c, s := g.pi / g.a, g.s3;
    KRawCoordinates(g, u, v);
    UnitTimesThree(g);
    var p := KRaw(g, u, v);
    assert s * p.x == (8.0 * u + 4.0 * v) * (s * c) / 3.0;
    assert p.y == 4.0 * v * (s * c) / 3.0;
  }

  /** The shift in units: s x' = s x - 6 units and y' = y - 2 units. */
  lemma KShiftScaled(g: Lattice, p: Point)
    requires Usable(g) && g.s3 * g.s3 == 3.0
    ensures var q := KShift(g, p);
            g.s3 * q.x == g.s3 * p.x - 6.0 * Unit(g) && q.y == p.y - 2.0 * Unit(g)
  {
    var c, s := g.pi / g.a, g.s3;
    UnitTimesThree(g);
    assert 2.0 * g.pi / g.a == 2.0 * c;
    assert 2.0 * c * (1.0 / s) == 2.0 * Unit(g);
  }

  /** A point at multipliers (8 u + 4 v, 4 v) with offsets in range is
      outside only across the slanted edge, u + v > 1/2, and the shift brings
      it inside. */
  lemma ShiftLandsInside(g: Lattice, p: Point, u: real, v: real)
    requires g.s3 > 0.0 && g.s3 * g.s3 == 3.0 && g.a > 0.0 && g.pi > 0.0
    requires -0.5 <= u <= 1.0 && 0.0 <= v <= 0.5
    requires g.s3 * p.x == Unit(g) * (8.0 * u + 4.0 * v) && p.y == Unit(g) * (4.0 * v)
    requires !IsInHex(g, p)
    ensures IsInHex(g, KShift(g, p))
  {
    OutsideMeansSlant(g, p, u, v);
    ShiftInside(g, p, u, v);
  }

  lemma OutsideMeansSlant(g: Lattice, p: Point, u: real, v: real)
    requires g.s3 > 0.0 && g.s3 * g.s3 == 3.0 && g.a > 0.0 && g.pi > 0.0
    requires -0.5 <= u <= 1.0 && 0.0 <= v <= 0.5
    requires g.s3 * p.x == Unit(g) * (8.0 * u + 4.0 * v) && p.y == Unit(g) * (4.0 * v)
    requires !IsInHex(g, p)
    ensures u + v > 0.5
  {
    IsInHexMultipliers(g, p, 8.0 * u + 4.0 * v, 4.0 * v);
    ReducedOutside(u, v);
  }

  lemma ShiftInside(g: Lattice, p: Point, u: real, v: real)
    requires g.s3 > 0.0 && g.s3 * g.s3 == 3.0 && g.a > 0.0 && g.pi > 0.0
    requires -0.5 <= u <= 1.0 && 0.0 <= v <= 0.5 && u + v > 0.5
    requires g.s3 * p.x == Unit(g) * (8.0 * u + 4.0 * v) && p.y == Unit(g) * (4.0 * v)
    ensures IsInHex(g, KShift(g, p))
  {
    ShiftMultipliers(g, p, 8.0 * u + 4.0 * v, 4.0 * v);
    IsInHexMultipliers(g, KShift(g, p), 8.0 * u + 4.0 * v - 6.0, 4.0 * v - 2.0);
    ReducedShiftInside(u, v);
  }

  /** In units, a raw 'K' point with u + v <= 1/2 is inside. */
  lemma ReducedOutside(u: real, v: real)
    requires -0.5 <= u <= 1.0 && 0.0 <= v <= 0.5
    ensures !InReducedHex(8.0 * u + 4.0 * v, 4.0 * v) ==> u + v > 0.5
  {
  }

  /** In units, the shift of a raw 'K' point with u + v > 1/2 is inside. */
  lemma ReducedShiftInside(u: real, v: real)
    requires -0.5 <= u <= 1.0 && 0.0 <= v <= 0.5 && u + v > 0.5
    ensures InReducedHex(8.0 * u + 4.0 * v - 6.0, 4.0 * v - 2.0)
  {
  }

  /** An outside raw 'K' point with offsets in range lands inside after the shift. */
  lemma KShiftLandsInside(g: Lattice, u: real, v: real)
    requires g.s3 > 0.0 && g.s3 * g.s3 == 3.0 && g.a > 0.0 && g.pi > 0.0
    requires -0.5 <= u <= 1.0 && 0.0 <= v <= 0.5
    requires !IsInHex(g, KRaw(g, u, v))
    ensures IsInHex(g, KShift(g, KRaw(g, u, v)))
  {
    KRawScaled(g, u, v);
    ShiftLandsInside(g, KRaw(g, u, v), u, v);
  }

  /** The shift in units: it takes the multipliers (X, Y) to (X - 6, Y - 2). */
  lemma ShiftMultipliers(g: Lattice, p: Point, x: real, y: real)
    requires Usable(g) && g.s3 * g.s3 == 3.0
    requires g.s3 * p.x == Unit(g) * x && p.y == Unit(g) * y
    ensures g.s3 * KShift(g, p).x == Unit(g) * (x - 6.0) && KShift(g, p).y == Unit(g) * (y - 2.0)
  {
    KShiftScaled(g, p);
    var n := Unit(g);
    assert n * x - 6.0 * n == n * (x - 6.0);
    assert n * y - 2.0 * n == n * (y - 2.0);
  }

  /** In the 'K' branch the single shift suffices: with s * s == 3 every
      point of the mesh lies in the hexagon. */
  lemma KPointsInHex(g: Lattice, nk1: nat, nk2: nat, i2: nat, i1: nat)
    requires g.s3 > 0.0 && g.s3 * g.s3 == 3.0 && g.a > 0.0 && g.pi > 0.0
    requires i2 < nk2 && i1 < nk1
    ensures IsInHex(g, HexPaths(g, nk1, nk2, "K", 0)[i2][i1])
  {
    var u, v := AlphaK1(nk1)[i1], AlphaK2(nk2)[i2];
    KOffsetsBounded(nk1, nk2, i2, i1);
    var p := KRaw(g, u, v);
    if !IsInHex(g, p) {
      KShiftLandsInside(g, u, v);
    }
  }

  /** One path of `hex_mesh`: Nk1 points, each kept or folded into the
      hexagon; None when a reflection loop runs out of fuel. */
  method HexPath(g: Lattice, nk1: nat, nk2: nat, align: string, fuel: nat, i2: nat) returns (r: Option<seq<Point>>)
    requires Usable(g) && IsAlign(align) && i2 < nk2
    ensures r.Some? <==> forall i1 :: 0 <= i1 < nk1 ==> MeshPoint(g, nk1, nk2, align, fuel, i2, i1).Some?
    ensures r.Some? ==> |r.value| == nk1
                        && forall i1 :: 0 <= i1 < nk1 ==> MeshPoint(g, nk1, nk2, align, fuel, i2, i1) == Some(r.value[i1])
  {
    var path: seq<Point> := [];
    for i1 := 0 to nk1
      invariant |path| == i1
      invariant forall j :: 0 <= j < i1 ==> MeshPoint(g, nk1, nk2, align, fuel, i2, j) == Some(path[j])
    {
      var kpoint: Point;
      if align == "M" {
        kpoint := MRaw(g, nk1, nk2, i2, i1);
        if !IsInHex(g, kpoint) {
          var folded := FoldIntoHex(g, kpoint, fuel);
          if folded.None? {
            assert MeshPoint(g, nk1, nk2, align, fuel, i2, i1).None?;
            return None;
          }
          kpoint := folded.value;
        }
      } else {
        kpoint := KRaw(g, AlphaK1(nk1)[i1], AlphaK2(nk2)[i2]);
        if !IsInHex(g, kpoint) {
          kpoint := KShift(g, kpoint);
        }
      }
      assert MeshPoint(g, nk1, nk2, align, fuel, i2, i1) == Some(kpoint);
      path := path + [kpoint];
    }
    return Some(path);
  }

  /** Paths that agree point by point with the mesh are the paths of `hex_mesh`. */
  lemma PathsAgree(g: Lattice, nk1: nat, nk2: nat, align: string, fuel: nat, paths: seq<seq<Point>>)
    requires Usable(g) && IsAlign(align) && Folds(g, nk1, nk2, align, fuel)
    requires |paths| == nk2
    requires forall j2 :: 0 <= j2 < nk2 ==> |paths[j2]| == nk1
    requires forall j2, j1 :: 0 <= j2 < nk2 && 0 <= j1 < nk1 ==> MeshPoint(g, nk1, nk2, align, fuel, j2, j1) == Some(paths[j2][j1])
    ensures paths == HexPaths(g, nk1, nk2, align, fuel)
  {
    var goal := HexPaths(g, nk1, nk2, align, fuel);
    forall j2 | 0 <= j2 < nk2
      ensures paths[j2] == goal[j2]
    {
      assert goal[j2] == HexPathPoints(g, nk1, nk2, align, fuel, j2);
    }
  }

  /** `hex_mesh(Nk1, Nk2, a, b1, b2, align)`: the mesh and its paths.  Both
      linspaces divide by Nk1 and Nk2 whatever the alignment.  The 'K' vectors
      b_a1 and b_a2 divide the Python float 8 pi by 3 a, which raises for
      a == 0.  The hexagon test divides by `np.sqrt(3)*a`, a numpy float, so for
      a == 0 its bounds become +inf when pi sqrt(3) > 0: every 'M' point is
      inside and the mesh is the unfolded one.  Otherwise they are -inf or
      nan: no point is inside and the reflection loop never ends. */
  method HexMesh(g: Lattice, nk1: nat, nk2: nat, align: string, fuel: nat)
    returns (r: Result<(seq<Point>, seq<seq<Point>>), MeshError>)
    requires g.s3 != 0.0
    ensures r == Err(ZeroDivision) <==> nk1 == 0 || nk2 == 0 || (align == "K" && g.a == 0.0)
    ensures r == Err(NotFolded) ==> align == "M" && (g.a == 0.0 || !Folds(g, nk1, nk2, align, fuel))
    ensures r.Ok? && !(align == "M" && g.a == 0.0) ==>
              && (IsAlign(align) ==> Usable(g) && Folds(g, nk1, nk2, align, fuel))
              && r.value.1 == HexPaths(g, nk1, nk2, align, fuel) && r.value.0 == Concat(r.value.1)
    ensures r.Ok? && align == "M" && g.a == 0.0 ==>
              r.value.1 == UnfoldedPaths(g, nk1, nk2) && r.value.0 == Concat(r.value.1)
    ensures nk1 >= 1 && nk2 >= 1 && align == "M" && g.a == 0.0 ==> (r.Ok? <==> g.pi * g.s3 > 0.0)
    ensures (nk1 >= 1 && nk2 >= 1 && !(align == "M" && g.a == 0.0)
             && (IsAlign(align) ==> g.a != 0.0 && Folds(g, nk1, nk2, align, fuel))) ==> r.Ok?
  {
    if nk1 == 0 || nk2 == 0 || (align == "K" && g.a == 0.0) {
      return Err(ZeroDivision);
    }
    if !IsAlign(align) {
      return Ok(([], []));
    }
    if g.a == 0.0 {
      // 'M' with infinite or nan bounds: inside everywhere or nowhere
      if g.pi * g.s3 > 0.0 {
        var unfolded := UnfoldedPaths(g, nk1, nk2);
        return Ok((Concat(unfolded), unfolded));
      }
      return Err(NotFolded);
    }
    var mesh: seq<Point> := [];
    var paths: seq<seq<Point>> := [];
    for i2 := 0 to nk2
      invariant |paths| == i2 && mesh == Concat(paths)
      invariant forall j2 :: 0 <= j2 < i2 ==> |paths[j2]| == nk1
      invariant forall j2, j1 :: 0 <= j2 < i2 && 0 <= j1 < nk1 ==> MeshPoint(g, nk1, nk2, align, fuel, j2, j1) == Some(paths[j2][j1])
    {
      var path := HexPath(g, nk1, nk2, align, fuel, i2);
      if path.None? {
        return Err(NotFolded);
      }
      ConcatAppend(paths, path.value);
      mesh := mesh + path.value;
      paths := paths + [path.value];
    }
    PathsAgree(g, nk1, nk2, align, fuel, paths);
    return Ok((mesh, paths));
  }
}
