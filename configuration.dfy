/**
 * The tile configuration of one process: whether it leads, which follower
 * entry belongs to it, and the pixel geometry of its part of the wall.
 * The XML document is taken as already parsed into the values below.
 */
module Geometry {
  import opened Messages

  /** An `int[2]` of the source: index 0 is `x` (width), index 1 is `y` (height). */
  datatype Pair = Pair(x: int, y: int)

  /** One screen of a follower entry: grid indices and the optional `x`/`y` window attributes. */
  datatype Tile = Tile(i: int, j: int, x: Option<int>, y: Option<int>)

  /** One child of the configuration element; only follower entries carry a `rank`. */
  datatype Element = Element(rank: Option<int>, tiles: seq<Tile>)

  /** The head element: host, port and the width/height of its first child, when it has one. */
  datatype Head = Head(host: string, port: int, first: Option<Pair>)

  /** The dimensions element: per-screen resolution, screens in the wall, mullion (bezel) sizes. */
  datatype Dimensions = Dimensions(tileRes: Pair, numTiles: Pair, mullions: Pair, debug: bool)

  datatype Config = Config(
    server: string, port: int, rank: int, isLeader: bool, numFollowers: int, debug: bool,
    tileRes: Pair, numTiles: Pair, bezels: Pair,
    localDim: Pair, masterDim: Pair, offsets: Pair, windowLocation: Pair)

  /** Why construction stops: a missing head, a head without a child, no entry for this rank, an entry without screens. */
  datatype ConfigError = NoHead | NoHeadChild | NoEntry | NoTiles

  datatype Result<T> = Ok(value: T) | Err(error: ConfigError)

  /** The rank a process launched without `RANK` in its environment gets: the leader's. */
  const LeaderRank: int := -1

  const DefaultServer: string := "localhost"

  /** Children of the configuration element that are not follower entries. */
  const NonFollowerChildren: int := 3

  function RankOf(env: Option<int>): (r: int)
  {
    if env.Some? then env.value else LeaderRank
  }

  /** Index of the first child whose rank attribute equals `rank`. */
  function FirstMatch(children: seq<Element>, rank: int): (r: Option<nat>)
    ensures r.Some? ==> r.value < |children| && children[r.value].rank == Some(rank)
    ensures r.Some? ==> forall k :: 0 <= k < r.value ==> children[k].rank != Some(rank)
    ensures r.None? ==> forall k :: 0 <= k < |children| ==> children[k].rank != Some(rank)
    decreases |children|
  {
    if children == [] then None
    else if children[0].rank == Some(rank) then Some(0)
    else match FirstMatch(children[1..], rank)
      case None => None
      case Some(k) => Some(k + 1)
  }

  function ICoords(tiles: seq<Tile>): (r: seq<int>)
    ensures |r| == |tiles| && forall k :: 0 <= k < |tiles| ==> r[k] == tiles[k].i
  {
    seq(|tiles|, k requires 0 <= k < |tiles| => tiles[k].i)
  }

  function JCoords(tiles: seq<Tile>): (r: seq<int>)
    ensures |r| == |tiles| && forall k :: 0 <= k < |tiles| ==> r[k] == tiles[k].j
  {
    seq(|tiles|, k requires 0 <= k < |tiles| => tiles[k].j)
  }

  /** The least element of a non-empty sequence. */
  function Min(xs: seq<int>): (m: int)
    requires |xs| > 0
    ensures forall k :: 0 <= k < |xs| ==> m <= xs[k]
    ensures m in xs
  {
    if |xs| == 1 then xs[0]
    else
      var m' := Min(xs[1..]);
      if xs[0] < m' then xs[0] else m'
  }

  /** The greatest element of a non-empty sequence. */
  function Max(xs: seq<int>): (m: int)
    requires |xs| > 0
    ensures forall k :: 0 <= k < |xs| ==> xs[k] <= m
    ensures m in xs
  {
    if |xs| == 1 then xs[0]
    else
      var m' := Max(xs[1..]);
      if xs[0] > m' then xs[0] else m'
  }

  /** Number of screens from index `lo` to index `hi`, both included. */
  function Range(lo: int, hi: int): (r: int)
  {
    hi - lo + 1
  }

  /** Pixels spanned along one axis by `count` adjacent screens with a mullion between neighbours. */
  function Span(res: int, mullion: int, count: int): (r: int)
  {
    count * res + (count - 1) * mullion
  }

  /** Pixel position of screen `index` along one axis: the screens and mullions before it. */
  function Offset(index: int, res: int, mullion: int): (r: int)
  {
    index * res + index * mullion
  }

  /**
   * Initial window position: from the FIRST screen's `i`, overridden by the
   * `x`/`y` attributes. The default `x` is that screen's offset on a wall
   * without mullions; the default `y` is the top.
   */
  function WindowLocation(first: Tile, tileRes: Pair): (r: Pair)
    ensures r.x == if first.x.Some? then first.x.value else Offset(first.i, tileRes.x, 0)
    ensures r.y == if first.y.Some? then first.y.value else 0
  {
    Pair(if first.x.Some? then first.x.value else first.i * tileRes.x,
         if first.y.Some? then first.y.value else 0)
  }

  /** Size of a follower's window: the screens between its least and greatest indices, with their inner mullions. */
  function LocalDim(tiles: seq<Tile>, res: Pair, mullions: Pair): (r: Pair)
    requires |tiles| > 0
    ensures r == MasterDim(Pair(Range(Min(ICoords(tiles)), Max(ICoords(tiles))),
                                Range(Min(JCoords(tiles)), Max(JCoords(tiles)))), res, mullions)
  {
    var cols, rows := ICoords(tiles), JCoords(tiles);
    Pair(Span(res.x, mullions.x, Range(Min(cols), Max(cols))), Span(res.y, mullions.y, Range(Min(rows), Max(rows))))
  }

  /** Size of the whole wall: up to where a screen one past the last would start, less the trailing mullion. */
  function MasterDim(numTiles: Pair, res: Pair, mullions: Pair): (r: Pair)
    ensures r.x == Offset(numTiles.x, res.x, mullions.x) - mullions.x
    ensures r.y == Offset(numTiles.y, res.y, mullions.y) - mullions.y
  {
    Pair(Span(res.x, mullions.x, numTiles.x), Span(res.y, mullions.y, numTiles.y))
  }

  /** Where a follower's window sits in the wall: at its least screen indices. */
  function Offsets(tiles: seq<Tile>, res: Pair, mullions: Pair): (r: Pair)
    requires |tiles| > 0
    ensures r.x == Span(res.x, mullions.x, Min(ICoords(tiles))) + mullions.x
    ensures r.y == Span(res.y, mullions.y, Min(JCoords(tiles))) + mullions.y
  {
    Pair(Offset(Min(ICoords(tiles)), res.x, mullions.x), Offset(Min(JCoords(tiles)), res.y, mullions.y))
  }

  /** A follower's geometry from the screens of its entry. */
  function FollowerLayout(base: Config, tiles: seq<Tile>): (r: Config)
    requires |tiles| > 0
  {
    base.(
      localDim := LocalDim(tiles, base.tileRes, base.bezels),
      masterDim := MasterDim(base.numTiles, base.tileRes, base.bezels),
      offsets := Offsets(tiles, base.tileRes, base.bezels),
      windowLocation := WindowLocation(tiles[0], base.tileRes))
  }

  /** The fields set before the leader/follower split; the pixel pairs still hold Java's zero defaults. */
  function Parsed(rank: int, dims: Dimensions, head: Option<Head>, children: seq<Element>): (r: Config)
  {
    Config(
      if head.Some? then head.value.host else DefaultServer,
      if head.Some? then head.value.port else 0,
      rank, false, |children| - NonFollowerChildren, dims.debug,
      dims.tileRes, dims.numTiles, dims.mullions,
      Pair(0, 0), Pair(0, 0), Pair(0, 0), Pair(0, 0))
  }

  /** What the constructor builds from the environment's rank and the parsed document. */
  function Configuration(envRank: Option<int>, dims: Dimensions, head: Option<Head>, children: seq<Element>): (r: Result<Config>)
    ensures r.Ok? ==> r.value.rank == RankOf(envRank) && (r.value.isLeader <==> RankOf(envRank) == LeaderRank)
    ensures r.Err? ==> (r.error == NoHead || r.error == NoHeadChild <==> RankOf(envRank) == LeaderRank)
  {
    var rank := RankOf(envRank);
    var base := Parsed(rank, dims, head, children);
    if rank == LeaderRank then
      if head.None? then Err(NoHead)
      else if head.value.first.None? then Err(NoHeadChild)
      else
        var d := head.value.first.value;
        Ok(base.(isLeader := true, localDim := d, masterDim := d))
    else match FirstMatch(children, rank)
      case None => Err(NoEntry)
      case Some(k) =>
        if children[k].tiles == [] then Err(NoTiles)
        else Ok(FollowerLayout(base, children[k].tiles))
  }

  /** The rank-lookup loop: stops at the first child carrying this rank. */
  method FindEntry(children: seq<Element>, rank: int) returns (r: Option<nat>)
    ensures r == FirstMatch(children, rank)
  {
    r := None;
    var n := 0;
    while n < |children|
      invariant 0 <= n <= |children|
      invariant forall k :: 0 <= k < n ==> children[k].rank != Some(rank)
    {
      if children[n].rank == Some(rank) {
        r := Some(n);
        break;
      }
      n := n + 1;
    }
  }

  /** The scan over all screens of an entry, starting from the first screen's indices. */
  method ScanTiles(tiles: seq<Tile>) returns (mini: int, maxi: int, minj: int, maxj: int)
    requires |tiles| > 0
    ensures mini == Min(ICoords(tiles)) && maxi == Max(ICoords(tiles))
    ensures minj == Min(JCoords(tiles)) && maxj == Max(JCoords(tiles))
  {
    mini, maxi := tiles[0].i, tiles[0].i;
    minj, maxj := tiles[0].j, tiles[0].j;
    ghost var ai, bi, aj, bj := 0, 0, 0, 0;
    var n := 0;
    while n < |tiles|
      invariant 0 <= n <= |tiles|
      invariant 0 <= ai < |tiles| && 0 <= bi < |tiles| && 0 <= aj < |tiles| && 0 <= bj < |tiles|
      invariant tiles[ai].i == mini && tiles[bi].i == maxi && tiles[aj].j == minj && tiles[bj].j == maxj
      invariant forall k :: 0 <= k < n ==> mini <= tiles[k].i <= maxi && minj <= tiles[k].j <= maxj
    {
      var t := tiles[n];
      if t.i < mini { mini, ai := t.i, n; }
      if t.i > maxi { maxi, bi := t.i, n; }
      if t.j < minj { minj, aj := t.j, n; }
      if t.j > maxj { maxj, bj := t.j, n; }
      n := n + 1;
    }
    MinMaxUnique(ICoords(tiles), mini, maxi, ai, bi);
    MinMaxUnique(JCoords(tiles), minj, maxj, aj, bj);
  }

  /** A bound of the sequence that occurs in it is its minimum (or maximum). */
  lemma MinMaxUnique(xs: seq<int>, lo: int, hi: int, a: nat, b: nat)
    requires a < |xs| && b < |xs| && xs[a] == lo && xs[b] == hi
    requires forall k :: 0 <= k < |xs| ==> lo <= xs[k] <= hi
    ensures lo == Min(xs) && hi == Max(xs)
  {
  }

  /** The constructor, step by step: rank decision, entry lookup, scan, then the formulas. */
  method Configure(envRank: Option<int>, dims: Dimensions, head: Option<Head>, children: seq<Element>)
    returns (r: Result<Config>)
    ensures r == Configuration(envRank, dims, head, children)
  {
    var rank := if envRank.Some? then envRank.value else LeaderRank;
    var base := Parsed(rank, dims, head, children);
    if rank == LeaderRank {
      if head.None? {
        return Err(NoHead);
      }
      if head.value.first.None? {
        return Err(NoHeadChild);
      }
      var d := head.value.first.value;
      return Ok(base.(isLeader := true, localDim := d, masterDim := d));
    }
    var entry := FindEntry(children, rank);
    if entry.None? {
      return Err(NoEntry);
    }
    var tiles := children[entry.value].tiles;
    if |tiles| == 0 {
      return Err(NoTiles);
    }
    var layout := Layout(base, tiles);
    r := Ok(layout);
  }

  /** The follower part of the constructor: window location, the scan, then the size and offset formulas. */
  method Layout(base: Config, tiles: seq<Tile>) returns (c: Config)
    requires |tiles| > 0
    ensures c == FollowerLayout(base, tiles)
  {
    var res, mul := base.tileRes, base.bezels;
    var windowLocation := Pair(tiles[0].i * res.x, 0);
    if tiles[0].x.Some? {
      windowLocation := windowLocation.(x := tiles[0].x.value);
    }
    if tiles[0].y.Some? {
      windowLocation := windowLocation.(y := tiles[0].y.value);
    }
    var mini, maxi, minj, maxj := ScanTiles(tiles);
    var rangei, rangej := Range(mini, maxi), Range(minj, maxj);
    var localDim := Pair(Span(res.x, mul.x, rangei), Span(res.y, mul.y, rangej));
    var masterDim := Pair(Span(res.x, mul.x, base.numTiles.x), Span(res.y, mul.y, base.numTiles.y));
    var offsets := Pair(Offset(mini, res.x, mul.x), Offset(minj, res.y, mul.y));
    c := base.(localDim := localDim, masterDim := masterDim, offsets := offsets,
      windowLocation := windowLocation);
  }

  /** A process without a rank, or with rank -1, leads: its picture is its head child's size, at offset zero. */
  lemma LeaderGeometry(envRank: Option<int>, dims: Dimensions, head: Option<Head>, children: seq<Element>)
    requires envRank == None || envRank == Some(LeaderRank)
    ensures head.None? ==> Configuration(envRank, dims, head, children) == Err(NoHead)
    ensures head.Some? && head.value.first.None? ==> Configuration(envRank, dims, head, children) == Err(NoHeadChild)
    ensures head.Some? && head.value.first.Some? ==>
      var r := Configuration(envRank, dims, head, children);
      && r.Ok? && r.value.isLeader && r.value.rank == LeaderRank
      && r.value.localDim == head.value.first.value
      && r.value.masterDim == r.value.localDim
      && r.value.offsets == Pair(0, 0)
  {
  }

  /** What every successful construction records, leader or follower. */
  lemma ConfigurationCommon(envRank: Option<int>, dims: Dimensions, head: Option<Head>, children: seq<Element>)
    requires Configuration(envRank, dims, head, children).Ok?
    ensures var c := Configuration(envRank, dims, head, children).value;
      && c.rank == RankOf(envRank)
      && (c.isLeader <==> c.rank == LeaderRank)
      && c.numFollowers == |children| - NonFollowerChildren
      && c.server == (if head.Some? then head.value.host else DefaultServer)
      && c.tileRes == dims.tileRes && c.numTiles == dims.numTiles && c.bezels == dims.mullions
  {
  }

  /** `k` is the first child that carries `rank`. */
  ghost predicate IsFirstEntry(children: seq<Element>, rank: int, k: int)
  {
    && 0 <= k < |children|
    && children[k].rank == Some(rank)
    && forall m :: 0 <= m < k ==> children[m].rank != Some(rank)
  }

  /**
   * A follower uses the first entry with its rank. It succeeds exactly when
   * that entry exists and lists screens, whether or not there is a head, and
   * it never fails for a missing head.
   */
  lemma FollowerEntry(envRank: Option<int>, dims: Dimensions, head: Option<Head>, children: seq<Element>)
    requires RankOf(envRank) != LeaderRank
    ensures var r := Configuration(envRank, dims, head, children);
      r == Err(NoEntry) <==> forall k :: 0 <= k < |children| ==> children[k].rank != Some(RankOf(envRank))
    ensures var r := Configuration(envRank, dims, head, children);
      r.Ok? ==> !r.value.isLeader && exists k ::
        && IsFirstEntry(children, RankOf(envRank), k)
        && children[k].tiles != []
        && r.value == FollowerLayout(Parsed(RankOf(envRank), dims, head, children), children[k].tiles)
    ensures var r := Configuration(envRank, dims, head, children);
      r.Ok? <==> exists k :: IsFirstEntry(children, RankOf(envRank), k) && children[k].tiles != []
    ensures var r := Configuration(envRank, dims, head, children);
      r.Err? ==> r == Err(NoEntry) || r == Err(NoTiles)
  {
    var rank := RankOf(envRank);
    var m := FirstMatch(children, rank);
    if m.Some? {
      assert IsFirstEntry(children, rank, m.value);
    }
  }

  /**
   * Along one axis the wall splits into the screens left of `lo`, the
   * screens `lo..hi` with their inner mullions, and the rest right of `hi`.
   */
  lemma SpanSplit(res: int, mullion: int, n: int, lo: int, hi: int)
    ensures Offset(lo, res, mullion) + Span(res, mullion, Range(lo, hi)) + (n - 1 - hi) * (res + mullion)
            == Span(res, mullion, n)
  {
    var w := res + mullion;
    calc {
      Offset(lo, res, mullion) + Span(res, mullion, Range(lo, hi)) + (n - 1 - hi) * w;
      lo * w + (hi - lo + 1) * res + (hi - lo) * mullion + (n - 1 - hi) * w;
      { assert (hi - lo + 1) * res + (hi - lo) * mullion == (hi - lo) * w + res; }
      lo * w + (hi - lo) * w + res + (n - 1 - hi) * w;
      { assert lo * w + (hi - lo) * w + (n - 1 - hi) * w == (n - 1) * w; }
      (n - 1) * w + res;
      Span(res, mullion, n);
    }
  }

  /**
   * With non-negative resolution and mullions and every screen index inside
   * the wall, a follower's window starts inside the master picture and ends
   * within it, and it is at least one screen wide and high.
   */
  lemma FollowerFitsWall(base: Config, tiles: seq<Tile>)
    requires |tiles| > 0
    requires base.tileRes.x >= 0 && base.tileRes.y >= 0 && base.bezels.x >= 0 && base.bezels.y >= 0
    requires forall k :: 0 <= k < |tiles| ==> 0 <= tiles[k].i < base.numTiles.x && 0 <= tiles[k].j < base.numTiles.y
    ensures var c := FollowerLayout(base, tiles);
      && 0 <= c.offsets.x && c.offsets.x + c.localDim.x <= c.masterDim.x
      && 0 <= c.offsets.y && c.offsets.y + c.localDim.y <= c.masterDim.y
      && c.localDim.x >= base.tileRes.x && c.localDim.y >= base.tileRes.y
  {
    var cols, rows := ICoords(tiles), JCoords(tiles);
    assert 0 <= Min(cols) <= Max(cols) < base.numTiles.x by {
      assert cols[0] == tiles[0].i;
    }
    assert 0 <= Min(rows) <= Max(rows) < base.numTiles.y by {
      assert rows[0] == tiles[0].j;
    }
    AxisFits(base.tileRes.x, base.bezels.x, base.numTiles.x, Min(cols), Max(cols));
    AxisFits(base.tileRes.y, base.bezels.y, base.numTiles.y, Min(rows), Max(rows));
  }

  /** One axis of the above: screens `lo..hi` of a wall of `n` start at or after 0 and end within it. */
  lemma AxisFits(res: int, mullion: int, n: int, lo: int, hi: int)
    requires res >= 0 && mullion >= 0 && 0 <= lo <= hi < n
    ensures 0 <= Offset(lo, res, mullion)
    ensures Offset(lo, res, mullion) + Span(res, mullion, Range(lo, hi)) <= Span(res, mullion, n)
    ensures Span(res, mullion, Range(lo, hi)) >= res
  {
    SpanSplit(res, mullion, n, lo, hi);
    ProductNonNegative(n - 1 - hi, res + mullion);
    OffsetIsStride(lo, res, mullion);
    ProductNonNegative(lo, res + mullion);
    SpanAtLeastOne(res, mullion, Range(lo, hi));
  }

  lemma ProductNonNegative(a: int, b: int)
    requires a >= 0 && b >= 0
    ensures a * b >= 0
  {
  }

  /** Helper for `AxisFits`: screen `index` starts `index` strides (one screen plus one mullion) from the edge. */
  lemma OffsetIsStride(index: int, res: int, mullion: int)
    ensures Offset(index, res, mullion) == index * (res + mullion)
  {
  }

  /** One or more screens with non-negative mullions span at least one screen. */
  lemma SpanAtLeastOne(res: int, mullion: int, count: int)
    requires res >= 0 && mullion >= 0 && count >= 1
    ensures Span(res, mullion, count) >= res
  {
    assert (count - 1) * res >= 0 && (count - 1) * mullion >= 0;
  }

  /**
   * Without `x`/`y` attributes the window is placed from the FIRST screen's
   * column, not from the scanned minimum: for screens listed as columns 1
   * then 0 the window starts one screen to the right of the offset.
   */
  lemma WindowFromFirstTile(base: Config)
    requires base.tileRes == Pair(100, 50) && base.bezels == Pair(0, 0)
    ensures var c := FollowerLayout(base, [Tile(1, 0, None, None), Tile(0, 0, None, None)]);
      c.windowLocation == Pair(100, 0) && c.offsets == Pair(0, 0)
  {
    var tiles := [Tile(1, 0, None, None), Tile(0, 0, None, None)];
    assert ICoords(tiles) == [1, 0];
    assert JCoords(tiles) == [0, 0];
    assert Min([1, 0]) == 0 by { assert [1, 0][1..] == [0]; }
    assert Min([0, 0]) == 0 by { assert [0, 0][1..] == [0]; }
  }
}
