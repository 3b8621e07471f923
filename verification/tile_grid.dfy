/**
 * The tile grid of the WMS tile layer: how many tiles one zoom level has on
 * each axis, and how the layer steps from a tile to its neighbour while it
 * fills the view. A tile is a column `x` (growing eastwards), a row `y`
 * (growing southwards) and the position of its centre in the scene, `offsetX`
 * (eastwards) and `offsetZ` (northwards). Neighbouring tiles are one
 * `halfMapScale` apart in the scene.
 */
module TileGrid {

  /** 2 to the power `n`. */
  function Pow2(n: nat): (p: nat)
    ensures p >= 1
  {
    if n == 0 then 1 else 2 * Pow2(n - 1)
  }

  /** The largest zoom level whose tile count still fits a 32-bit signed integer. */
  const MaxZoom: int := 30

  /** The largest value of a 32-bit signed integer. */
  const Int32Max: int := 0x7fff_ffff

  /**
   * Tiles per axis at `zoom`, as `(tilesOnX, tilesOnY)`: `2^zoom` on both
   * axes; a negative zoom gives a fraction below one, truncated to 0.
   */
  function TileCountPerAxis(zoom: int): (counts: (int, int))
    requires zoom <= MaxZoom
    ensures counts.0 == counts.1
    ensures zoom >= 0 ==> counts.0 == Pow2(zoom)
    ensures zoom < 0 <==> counts.0 == 0
    ensures 0 <= counts.0 <= Pow2(MaxZoom)
  {
    PowerBound(if zoom < 0 then 0 else zoom, MaxZoom);
    var n := if zoom < 0 then 0 else Pow2(zoom);
    (n, n)
  }

  /** Powers of two grow with the exponent. */
  lemma {:induction false} PowerBound(m: nat, n: nat)
    requires m <= n
    ensures Pow2(m) <= Pow2(n)
  {
    if m < n {
      PowerBound(m, n - 1);
    }
  }

  /** One zoom level further in, each axis has twice as many tiles. */
  lemma TileCountDoubles(zoom: int)
    requires 0 <= zoom < MaxZoom
    ensures TileCountPerAxis(zoom + 1).0 == 2 * TileCountPerAxis(zoom).0
    ensures TileCountPerAxis(zoom + 1).1 == 2 * TileCountPerAxis(zoom).1
  {
  }

  /** A grid of any zoom level fits in 32-bit signed integers, one step beyond its edge included. */
  lemma TileCountFitsInt32(zoom: int)
    requires zoom <= MaxZoom
    ensures TileCountPerAxis(zoom).0 + 1 <= Int32Max
  {
    assert Pow2(MaxZoom) == 0x4000_0000 by {
      Pow2Thirty();
    }
  }

  lemma Pow2Thirty()
    ensures Pow2(30) == 0x4000_0000
  {
    assert Pow2(10) == 1024;
    assert Pow2(20) == 1024 * Pow2(10) by {
      Pow2Add(10, 10);
    }
    Pow2Add(20, 10);
  }

  /** `2^(m + n) == 2^m * 2^n`. */
  lemma {:induction false} Pow2Add(m: nat, n: nat)
    ensures Pow2(m + n) == Pow2(m) * Pow2(n)
  {
    if m > 0 {
      Pow2Add(m - 1, n);
    }
  }

  /** The four directions in which the layer looks for a neighbouring tile. */
  datatype Direction = North | South | East | West

  /** A tile: its column and row in the grid and the scene position of its centre. */
  datatype Tile = Tile(x: int, y: int, offsetX: real, offsetZ: real)

  /** What the neighbour search reports: whether a neighbour exists, and which tile it is. */
  datatype Neighbour = Neighbour(found: bool, tile: Tile)

  /** The all-zero tile the search hands back when there is no neighbour. */
  const NoTile: Tile := Tile(0, 0, 0.0, 0.0)

  /** Column step of a direction. */
  function ColumnStep(dir: Direction): int
  {
    match dir
    case East => 1
    case West => -1
    case _ => 0
  }

  /** Row step of a direction (rows grow southwards). */
  function RowStep(dir: Direction): int
  {
    match dir
    case South => 1
    case North => -1
    case _ => 0
  }

  function Opposite(dir: Direction): (o: Direction)
    ensures ColumnStep(o) == -ColumnStep(dir) && RowStep(o) == -RowStep(dir)
  {
    match dir
    case North => South
    case South => North
    case East => West
    case West => East
  }

  /** Column `x`, row `y` lies inside a grid of `tilesOnX` by `tilesOnY` tiles. */
  predicate InGrid(x: int, y: int, tilesOnX: int, tilesOnY: int)
  {
    0 <= x < tilesOnX && 0 <= y < tilesOnY
  }

  /**
   * The scene position a tile would have if it were column 0, row 0: the
   * same for every tile laid out from one view, since each column east
   * moves a tile `halfMapScale` east and each row south moves it
   * `halfMapScale` south.
   */
  function Anchor(t: Tile, halfMapScale: real): (real, real)
  {
    (t.offsetX - (t.x as real) * halfMapScale, t.offsetZ + (t.y as real) * halfMapScale)
  }

  /**
   * The neighbour of tile `t` in direction `dir`, in a grid of `tilesOnX` by
   * `tilesOnY` tiles whose tiles are `halfMapScale` apart in the scene. Each
   * direction checks only the grid edge it moves towards.
   */
  function NeighbourTile(t: Tile, tilesOnX: int, tilesOnY: int, dir: Direction, halfMapScale: real): (n: Neighbour)
    ensures !n.found ==> n.tile == NoTile
    ensures n.found ==> n.tile.x == t.x + ColumnStep(dir) && n.tile.y == t.y + RowStep(dir)
    ensures n.found ==> Anchor(n.tile, halfMapScale) == Anchor(t, halfMapScale)
    ensures InGrid(t.x, t.y, tilesOnX, tilesOnY) ==>
      (n.found <==> InGrid(t.x + ColumnStep(dir), t.y + RowStep(dir), tilesOnX, tilesOnY))
  {
    match dir
    case South =>
      if t.y + 1 < tilesOnY then
        var south := Tile(t.x, t.y + 1, t.offsetX, t.offsetZ - halfMapScale);
        StepKeepsAnchor(t, south, halfMapScale);
        Neighbour(true, south)
      else Neighbour(false, NoTile)
    case North =>
      if t.y > 0 then
        var north := Tile(t.x, t.y - 1, t.offsetX, t.offsetZ + halfMapScale);
        StepKeepsAnchor(t, north, halfMapScale);
        Neighbour(true, north)
      else Neighbour(false, NoTile)
    case East =>
      if t.x + 1 < tilesOnX then
        var east := Tile(t.x + 1, t.y, t.offsetX + halfMapScale, t.offsetZ);
        StepKeepsAnchor(t, east, halfMapScale);
        Neighbour(true, east)
      else Neighbour(false, NoTile)
    case West =>
      if t.x > 0 then
        var west := Tile(t.x - 1, t.y, t.offsetX - halfMapScale, t.offsetZ);
        StepKeepsAnchor(t, west, halfMapScale);
        Neighbour(true, west)
      else Neighbour(false, NoTile)
  }

  /** One more column or row moves the scene position by one `halfMapScale`. */
  lemma ScaleStep(i: int, halfMapScale: real)
    ensures ((i + 1) as real) * halfMapScale == (i as real) * halfMapScale + halfMapScale
    ensures ((i - 1) as real) * halfMapScale == (i as real) * halfMapScale - halfMapScale
  {
    calc {
      ((i + 1) as real) * halfMapScale;
      (i as real + 1.0) * halfMapScale;
      (i as real) * halfMapScale + 1.0 * halfMapScale;
    }
    calc {
      ((i - 1) as real) * halfMapScale;
      (i as real - 1.0) * halfMapScale;
      (i as real) * halfMapScale - 1.0 * halfMapScale;
    }
  }

  /**
   * A step of one row or one column that moves the scene position by
   * `halfMapScale` the same way keeps the anchor.
   */
  lemma StepKeepsAnchor(t: Tile, t': Tile, halfMapScale: real)
    requires
      || (t'.x == t.x && t'.offsetX == t.offsetX && t'.y == t.y + 1 && t'.offsetZ == t.offsetZ - halfMapScale)
      || (t'.x == t.x && t'.offsetX == t.offsetX && t'.y == t.y - 1 && t'.offsetZ == t.offsetZ + halfMapScale)
      || (t'.y == t.y && t'.offsetZ == t.offsetZ && t'.x == t.x + 1 && t'.offsetX == t.offsetX + halfMapScale)
      || (t'.y == t.y && t'.offsetZ == t.offsetZ && t'.x == t.x - 1 && t'.offsetX == t.offsetX - halfMapScale)
    ensures Anchor(t', halfMapScale) == Anchor(t, halfMapScale)
  {
    ScaleStep(t.x, halfMapScale);
    ScaleStep(t.y, halfMapScale);
    assert Anchor(t', halfMapScale).0 == Anchor(t, halfMapScale).0;
    assert Anchor(t', halfMapScale).1 == Anchor(t, halfMapScale).1;
  }

  /** The neighbour of a tile inside the grid is inside the grid too. */
  lemma NeighbourStaysInGrid(t: Tile, tilesOnX: int, tilesOnY: int, dir: Direction, halfMapScale: real)
    requires InGrid(t.x, t.y, tilesOnX, tilesOnY)
    ensures var n := NeighbourTile(t, tilesOnX, tilesOnY, dir, halfMapScale);
      n.found ==> InGrid(n.tile.x, n.tile.y, tilesOnX, tilesOnY)
  {
  }

  /** At each edge of the grid, the step across it finds no neighbour and hands back the zeroed tile. */
  lemma NeighbourAtEdges(t: Tile, tilesOnX: int, tilesOnY: int, halfMapScale: real)
    requires InGrid(t.x, t.y, tilesOnX, tilesOnY)
    ensures t.x == 0 ==> NeighbourTile(t, tilesOnX, tilesOnY, West, halfMapScale) == Neighbour(false, NoTile)
    ensures t.x == tilesOnX - 1 ==> NeighbourTile(t, tilesOnX, tilesOnY, East, halfMapScale) == Neighbour(false, NoTile)
    ensures t.y == 0 ==> NeighbourTile(t, tilesOnX, tilesOnY, North, halfMapScale) == Neighbour(false, NoTile)
    ensures t.y == tilesOnY - 1 ==> NeighbourTile(t, tilesOnX, tilesOnY, South, halfMapScale) == Neighbour(false, NoTile)
  {
  }

  /** Stepping back the opposite way from a neighbour returns the tile itself. */
  lemma NeighbourInverse(t: Tile, tilesOnX: int, tilesOnY: int, dir: Direction, halfMapScale: real)
    requires InGrid(t.x, t.y, tilesOnX, tilesOnY)
    ensures var n := NeighbourTile(t, tilesOnX, tilesOnY, dir, halfMapScale);
      n.found ==> NeighbourTile(n.tile, tilesOnX, tilesOnY, Opposite(dir), halfMapScale) == Neighbour(true, t)
  {
  }

  /**
   * Walking `steps` times in one direction from an in-grid tile: the walk
   * stops at the first missing neighbour, and otherwise lands `steps` tiles
   * away with the same anchor.
   */
  function Walk(t: Tile, tilesOnX: int, tilesOnY: int, dir: Direction, halfMapScale: real, steps: nat): Neighbour
    decreases steps
  {
    if steps == 0 then Neighbour(true, t)
    else
      var n := NeighbourTile(t, tilesOnX, tilesOnY, dir, halfMapScale);
      if !n.found then n else Walk(n.tile, tilesOnX, tilesOnY, dir, halfMapScale, steps - 1)
  }

  /**
   * From an in-grid tile, `steps` neighbour steps in one direction succeed
   * exactly when the tile `steps` away is inside the grid, and they reach it
   * at the position the anchor predicts: the layer's tiles line up.
   */
  lemma {:induction false} WalkReachesEveryTile(t: Tile, tilesOnX: int, tilesOnY: int, dir: Direction, halfMapScale: real, steps: nat)
    requires InGrid(t.x, t.y, tilesOnX, tilesOnY)
    ensures var w := Walk(t, tilesOnX, tilesOnY, dir, halfMapScale, steps);
      w.found <==> InGrid(t.x + steps * ColumnStep(dir), t.y + steps * RowStep(dir), tilesOnX, tilesOnY)
    ensures var w := Walk(t, tilesOnX, tilesOnY, dir, halfMapScale, steps);
      w.found ==> (w.tile.x == t.x + steps * ColumnStep(dir) && w.tile.y == t.y + steps * RowStep(dir)
        && Anchor(w.tile, halfMapScale) == Anchor(t, halfMapScale))
    decreases steps
  {
    if steps > 0 {
      var n := NeighbourTile(t, tilesOnX, tilesOnY, dir, halfMapScale);
      if n.found {
        WalkReachesEveryTile(n.tile, tilesOnX, tilesOnY, dir, halfMapScale, steps - 1);
      } else {
        // the first step already leaves the grid, and so does every longer one
        assert !InGrid(t.x + steps * ColumnStep(dir), t.y + steps * RowStep(dir), tilesOnX, tilesOnY);
      }
    }
  }
}
