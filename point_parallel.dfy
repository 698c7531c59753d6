/** The point-parallel reshaping at the end of `make_BZ` (cued/main.py:270-285):
    the Nk2 paths of Nk1 k-points become Nk1 * Nk2 paths of one point each, so
    that the path-parallel machinery can distribute single points. */
module PointParallel {
  import opened Plane
  import Arith

  /** Paths of the Brillouin-zone mesh: `paths[i][j]` is point j of path i. */
  type Paths = seq<seq<Point>>

  /** The mesh has Nk2 paths of Nk1 points each. */
  ghost predicate HasShape(paths: Paths, nk1: nat, nk2: nat)
  {
    |paths| == nk2 && forall i :: 0 <= i < nk2 ==> |paths[i]| == nk1
  }

  /** Point k of the row-major enumeration of the grid: point k % Nk1 of path k // Nk1. */
  function GridPoint(paths: Paths, nk1: nat, nk2: nat, k: nat): Point
    requires HasShape(paths, nk1, nk2) && nk1 >= 1 && k < nk1 * nk2
  {
    Arith.QuotientBound(k, nk2, nk1);
    paths[k / nk1][k % nk1]
  }

  lemma GridPointRowMajor(paths: Paths, nk1: nat, nk2: nat, i: nat, j: nat)
    requires HasShape(paths, nk1, nk2) && i < nk2 && j < nk1
    ensures nk1 * i + j < nk1 * nk2 && GridPoint(paths, nk1, nk2, nk1 * i + j) == paths[i][j]
  {
    Arith.RowMajorBound(nk1, nk2, i, j);
    Arith.RowMajor(nk1, i, j);
  }

  /** The reshaped mesh: path k holds the single point k of the grid. */
  function Flattened(paths: Paths, nk1: nat, nk2: nat): Paths
    requires HasShape(paths, nk1, nk2)
  {
    if nk1 == 0 then []
    else seq(nk1 * nk2, k requires 0 <= k < nk1 * nk2 => [GridPoint(paths, nk1, nk2, k)])
  }

  /** The reshaped mesh has Nk1 * Nk2 paths of one point each. */
  lemma FlattenedShape(paths: Paths, nk1: nat, nk2: nat)
    requires HasShape(paths, nk1, nk2)
    ensures HasShape(Flattened(paths, nk1, nk2), 1, nk1 * nk2)
  {
    if nk1 == 0 {
      assert nk1 * nk2 == 0;
    }
  }

  /** Grid point (i, j) lands alone on path Nk1 * i + j of the reshaped mesh. */
  lemma FlattenedPlacesPoint(paths: Paths, nk1: nat, nk2: nat, i: nat, j: nat)
    requires HasShape(paths, nk1, nk2) && i < nk2 && j < nk1
    ensures nk1 * i + j < |Flattened(paths, nk1, nk2)|
    ensures Flattened(paths, nk1, nk2)[nk1 * i + j] == [paths[i][j]]
  {
    var k := nk1 * i + j;
    GridPointRowMajor(paths, nk1, nk2, i, j);
    FlattenedShape(paths, nk1, nk2);
    assert nk1 != 0;
    assert Flattened(paths, nk1, nk2)[k] == [GridPoint(paths, nk1, nk2, k)];
  }

  /** Conversely path k of the reshaped mesh is grid point (k // Nk1, k % Nk1),
      so the reshaping is a bijection between the grid and the new paths. */
  lemma FlattenedIsOnto(paths: Paths, nk1: nat, nk2: nat, k: nat)
    requires HasShape(paths, nk1, nk2) && k < |Flattened(paths, nk1, nk2)|
    ensures nk1 >= 1 && k / nk1 < nk2 && k % nk1 < nk1 && k == nk1 * (k / nk1) + k % nk1
    ensures Flattened(paths, nk1, nk2)[k] == [paths[k / nk1][k % nk1]]
  {
    FlattenedShape(paths, nk1, nk2);
    assert nk1 != 0;
    Arith.QuotientBound(k, nk2, nk1);
    var q, r := k / nk1, k % nk1;
    assert k == nk1 * q + r;
    assert Flattened(paths, nk1, nk2)[k] == [GridPoint(paths, nk1, nk2, k)];
  }

  /** The parameter fields `make_BZ` reads and rewrites. */
  class BzParams {
    const gauge: string
    const parallelizeOverPoints: bool
    var paths: Paths
    var nk1: nat
    var nk2: nat
    var eDir: Point
    var eOrt: Point

    constructor (gauge: string, parallelizeOverPoints: bool, paths: Paths, nk1: nat, nk2: nat, eDir: Point)
      ensures this.gauge == gauge && this.parallelizeOverPoints == parallelizeOverPoints
      ensures this.paths == paths && this.nk1 == nk1 && this.nk2 == nk2
      ensures this.eDir == eDir && this.eOrt == Point(0.0, 0.0)
    {
      this.gauge := gauge;
      this.parallelizeOverPoints := parallelizeOverPoints;
      this.paths := paths;
      this.nk1 := nk1;
      this.nk2 := nk2;
      this.eDir := eDir;
      eOrt := Point(0.0, 0.0);
    }
  }

  /** The double loop of cued/main.py:281-284, writing the reshaped paths
      point by point into a fresh buffer. */
  method FlattenPaths(paths: Paths, nk1: nat, nk2: nat) returns (flat: Paths)
    requires HasShape(paths, nk1, nk2)
    ensures flat == Flattened(paths, nk1, nk2)
  {
    var buf := new Point[nk1 * nk2](_ => Point(0.0, 0.0));
    for i := 0 to nk2
      invariant nk1 * i <= nk1 * nk2
      invariant nk1 >= 1 ==> forall k :: 0 <= k < nk1 * i ==> buf[k] == GridPoint(paths, nk1, nk2, k)
    {
      Arith.MulMono(i + 1, nk2, nk1);
      for j := 0 to nk1
        invariant nk1 >= 1 ==> forall k :: 0 <= k < nk1 * i + j ==> buf[k] == GridPoint(paths, nk1, nk2, k)
      {
        GridPointRowMajor(paths, nk1, nk2, i, j);
        buf[nk1 * i + j] := paths[i][j];
      }
      assert nk1 * i + nk1 == nk1 * (i + 1);
    }
    if nk1 == 0 {
      flat := [];
    } else {
      flat := seq(nk1 * nk2, k requires 0 <= k < nk1 * nk2 reads buf => [buf[k]]);
    }
  }

  /** The tail of `make_BZ`: sets `E_ort`, and in point-parallel mode either
      stops the run for a gauge other than velocity or replaces the mesh by
      its single-point paths. */
  method MakeBZTail(p: BzParams) returns (exited: bool)
    requires HasShape(p.paths, p.nk1, p.nk2)
    modifies p
    ensures p.eOrt == Ortho(p.eDir) && p.eDir == old(p.eDir)
    ensures exited <==> p.parallelizeOverPoints && p.gauge != "velocity"
    ensures !(p.parallelizeOverPoints && !exited) ==>
              p.paths == old(p.paths) && p.nk1 == old(p.nk1) && p.nk2 == old(p.nk2)
    ensures p.parallelizeOverPoints && !exited ==>
              && p.paths == Flattened(old(p.paths), old(p.nk1), old(p.nk2))
              && p.nk1 == 1 && p.nk2 == old(p.nk1) * old(p.nk2)
  {
    p.eOrt := Point(p.eDir.y, -p.eDir.x);
    exited := false;
    if p.parallelizeOverPoints {
      if p.gauge != "velocity" {
        exited := true;
        return;
      }
      var nk1Buf, nk2Buf := p.nk1, p.nk2;
      p.paths := FlattenPaths(p.paths, nk1Buf, nk2Buf);
      p.nk1 := 1;
      p.nk2 := nk1Buf * nk2Buf;
    }
  }
}
