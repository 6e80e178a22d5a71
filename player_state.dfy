/** One seat's rotated view of a snapshot, and its encoding as a 43 x 34 x 4 array of planes
    (`PlayerState` and `make_data` with its `fill_*` helpers). */
module Encoding {
  import opened Wrappers
  import opened Tiles

  const PLANES: int := 43
  const COLUMNS: int := 4
  /** Planes filled without a previous view; with one, the cursor goes on to `PLANES`. */
  const CURRENT_PLANES: int := 29
  /** East, South, West, North. */
  const WIND_TILES: seq<int> := [27, 28, 29, 30]

  // The plane layout: the first plane of each block.
  const HAND_PLANE: int := 0
  const RED_FIVES_PLANE: int := 1
  const DISCARD_PLANES: int := 2
  const STOLEN_PLANES: int := 6
  const DORA_PLANE: int := 10
  const RIICHI_PLANES: int := 11
  const RANK_PLANES: int := 15
  const KYOKU_PLANES: int := 19
  const ROUND_WIND_PLANE: int := 27
  const OWN_WIND_PLANE: int := 28
  const LAST_HAND_PLANE: int := 29
  const LAST_DISCARD_PLANES: int := 30
  const LAST_STOLEN_PLANES: int := 34
  const LAST_DORA_PLANE: int := 38
  const LAST_RIICHI_PLANES: int := 39

  /** The fields a `PlayerState` is built from, seat-rotated so that the viewing seat comes first. */
  datatype PlayerView = PlayerView(
    hand: seq<int>,
    redFives: seq<int>,
    discards: seq<seq<int>>,
    stolen: seq<seq<int>>,
    dora: seq<int>,
    riichi: seq<bool>,
    rank: int,
    kyoku: int,
    roundWind: int,
    ownWind: int)

  /** Every index the encoding takes from the view is in range. */
  predicate Encodable(v: PlayerView)
  {
    && |v.discards| == 4 && |v.stolen| == 4 && |v.riichi| == 4
    && AllKinds(v.hand) && AllKinds(v.redFives) && AllKinds(v.dora)
    && (forall i :: 0 <= i < 4 ==> AllKinds(v.discards[i]))
    && (forall i :: 0 <= i < 4 ==> AllKinds(v.stolen[i]))
    && 0 <= v.rank < 4 && 0 <= v.kyoku
    && 0 <= v.roundWind < 4 && 0 <= v.ownWind < 4
  }

  function Min(a: int, b: int): int { if a <= b then a else b }

  function Flag(b: bool): int { if b then 1 else 0 }

  /** Cell (t, c) of a tile plane: row t holds one leading 1 per copy of t, at most four. */
  function TileCell(tiles: seq<int>, t: int, c: int): int
  {
    if c < Min(Count(tiles, t), COLUMNS) then 1 else 0
  }

  /** Cell (t, _) of a row plane: the whole row is set when t is listed. */
  function RowCell(tiles: seq<int>, t: int): int
  {
    if t in tiles then 1 else 0
  }

  /** The planes that come from the previous view (planes 29 to 42), numbered from 0. */
  function LastCell(l: PlayerView, q: int, t: int, c: int): int
    requires Encodable(l)
  {
    if q == 0 then TileCell(l.hand, t, c)
    else if 1 <= q < 5 then TileCell(l.discards[q - 1], t, c)
    else if 5 <= q < 9 then TileCell(l.stolen[q - 5], t, c)
    else if q == 9 then TileCell(l.dora, t, c)
    else if 10 <= q < 14 then Flag(l.riichi[q - 10])
    else 0
  }

  /** The encoding, plane by plane: the reference for what `make_data` writes. */
  function Cell(v: PlayerView, last: Option<PlayerView>, p: int, t: int, c: int): int
    requires Encodable(v) && (last.Some? ==> Encodable(last.value))
  {
    if p == HAND_PLANE then TileCell(v.hand, t, c)
    else if p == RED_FIVES_PLANE then RowCell(v.redFives, t)
    else if DISCARD_PLANES <= p < STOLEN_PLANES then TileCell(v.discards[p - DISCARD_PLANES], t, c)
    else if STOLEN_PLANES <= p < DORA_PLANE then TileCell(v.stolen[p - STOLEN_PLANES], t, c)
    else if p == DORA_PLANE then TileCell(v.dora, t, c)
    else if RIICHI_PLANES <= p < RANK_PLANES then Flag(v.riichi[p - RIICHI_PLANES])
    else if RANK_PLANES <= p < KYOKU_PLANES then Flag(p - RANK_PLANES == v.rank)
    else if KYOKU_PLANES <= p < ROUND_WIND_PLANE then Flag(p - KYOKU_PLANES == Min(v.kyoku, 7))
    else if p == ROUND_WIND_PLANE then Flag(t == WIND_TILES[v.roundWind])
    else if p == OWN_WIND_PLANE then Flag(t == WIND_TILES[v.ownWind])
    else if last.Some? && LAST_HAND_PLANE <= p < PLANES then LastCell(last.value, p - LAST_HAND_PLANE, t, c)
    else 0
  }

  /** The encoding written out as a value: planes, rows, columns. */
  function Encode(v: PlayerView, last: Option<PlayerView>): (e: seq<seq<seq<int>>>)
    requires Encodable(v) && (last.Some? ==> Encodable(last.value))
    ensures |e| == PLANES
    ensures forall p :: 0 <= p < PLANES ==> |e[p]| == KINDS
    ensures forall p, t :: 0 <= p < PLANES && 0 <= t < KINDS ==> |e[p][t]| == COLUMNS
    ensures forall p, t, c :: 0 <= p < PLANES && 0 <= t < KINDS && 0 <= c < COLUMNS ==>
      e[p][t][c] == Cell(v, last, p, t, c)
  {
    seq(PLANES, p => seq(KINDS, t => seq(COLUMNS, c => Cell(v, last, p, t, c))))
  }

  // ---------------------------------------------------------------------------------------------
  // Properties of the layout

  /** Every cell is 0 or 1, and a view without a previous view leaves planes 29 to 42 empty. */
  lemma CellsAreBits(v: PlayerView, last: Option<PlayerView>, p: int, t: int, c: int)
    requires Encodable(v) && (last.Some? ==> Encodable(last.value))
    ensures Cell(v, last, p, t, c) == 0 || Cell(v, last, p, t, c) == 1
    ensures last.None? && p >= CURRENT_PLANES ==> Cell(v, last, p, t, c) == 0
  {
  }

  /** A tile plane's row holds min(copies, 4) ones, all in the leading columns. */
  lemma TileRowMeaning(tiles: seq<int>, t: int)
    ensures forall c :: 0 <= c < COLUMNS ==> (TileCell(tiles, t, c) == 1 <==> c < Count(tiles, t))
    ensures forall c, d :: 0 <= c <= d < COLUMNS ==> TileCell(tiles, t, d) <= TileCell(tiles, t, c)
  {
  }

  /** Exactly one rank plane is set, the one the view's rank names, and likewise exactly one
      kyoku plane, with the kyoku clamped to 7. */
  lemma OneHotPlanes(v: PlayerView, last: Option<PlayerView>, t: int, c: int)
    requires Encodable(v) && (last.Some? ==> Encodable(last.value))
    ensures forall p :: RANK_PLANES <= p < KYOKU_PLANES ==>
      (Cell(v, last, p, t, c) == 1 <==> p == RANK_PLANES + v.rank)
    ensures forall p :: KYOKU_PLANES <= p < ROUND_WIND_PLANE ==>
      (Cell(v, last, p, t, c) == 1 <==> p == KYOKU_PLANES + Min(v.kyoku, 7))
  {
  }

  /** The wind planes each set exactly one row: the row of the round's and the seat's wind tile. */
  lemma WindRows(v: PlayerView, last: Option<PlayerView>, c: int)
    requires Encodable(v) && (last.Some? ==> Encodable(last.value))
    ensures forall t :: 0 <= t < KINDS ==>
      (Cell(v, last, ROUND_WIND_PLANE, t, c) == 1 <==> t == FIRST_HONOUR + v.roundWind)
    ensures forall t :: 0 <= t < KINDS ==>
      (Cell(v, last, OWN_WIND_PLANE, t, c) == 1 <==> t == FIRST_HONOUR + v.ownWind)
  {
  }

  // ---------------------------------------------------------------------------------------------
  // `fill_plane_tiles`, one row at a time

  /** The row with its first 0 turned into 1 (the inner loop of `fill_plane_tiles`). */
  function FirstZeroFilled(row: seq<int>): (r: seq<int>)
    ensures |r| == |row|
  {
    if row == [] then []
    else if row[0] == 0 then [1] + row[1..]
    else [row[0]] + FirstZeroFilled(row[1..])
  }

  /** The row after `n` tiles of its kind have been recorded. */
  function Filled(row: seq<int>, n: nat): (r: seq<int>)
    ensures |r| == |row|
  {
    if n == 0 then row else FirstZeroFilled(Filled(row, n - 1))
  }

  /** Filling at the first zero is filling at index `i` when `i` is that zero. */
  lemma {:induction false} FirstZeroAt(row: seq<int>, i: nat)
    requires i <= |row| && forall c :: 0 <= c < i ==> row[c] != 0
    requires i < |row| ==> row[i] == 0
    ensures FirstZeroFilled(row) == if i < |row| then row[i := 1] else row
  {
    if row != [] && i > 0 {
      FirstZeroAt(row[1..], i - 1);
      if i < |row| {
        assert [row[0]] + row[1..][i - 1 := 1] == row[i := 1];
      } else {
        assert [row[0]] + row[1..] == row;
      }
    } else if row != [] {
      assert [1] + row[1..] == row[0 := 1];
    }
  }

  /** An empty row filled `n` times holds min(n, 4) leading ones. */
  lemma {:induction false} FilledFromZeros(n: nat)
    ensures Filled([0, 0, 0, 0], n) == seq(COLUMNS, c => if c < Min(n, COLUMNS) then 1 else 0)
  {
    if n > 0 {
      FilledFromZeros(n - 1);
      var prev := Filled([0, 0, 0, 0], n - 1);
      var k := Min(n - 1, COLUMNS);
      FirstZeroAt(prev, k);
    }
  }

  /** Row `t` of plane `p`, as a value. */
  function Row(a: array3<int>, p: int, t: int): (r: seq<int>)
    requires 0 <= p < a.Length0 && 0 <= t < a.Length1 && a.Length2 == COLUMNS
    reads a
    ensures |r| == COLUMNS && forall c :: 0 <= c < COLUMNS ==> r[c] == a[p, t, c]
  {
    [a[p, t, 0], a[p, t, 1], a[p, t, 2], a[p, t, 3]]
  }

  predicate Shaped(a: array3<int>)
  {
    a.Length0 == PLANES && a.Length1 == KINDS && a.Length2 == COLUMNS
  }

  /** The contents of a shaped array, as a value. */
  function Snapshot(a: array3<int>): (e: seq<seq<seq<int>>>)
    requires Shaped(a)
    reads a
    ensures |e| == PLANES
    ensures forall p :: 0 <= p < PLANES ==> |e[p]| == KINDS
    ensures forall p, t :: 0 <= p < PLANES && 0 <= t < KINDS ==> |e[p][t]| == COLUMNS
    ensures forall p, t, c :: 0 <= p < PLANES && 0 <= t < KINDS && 0 <= c < COLUMNS ==> e[p][t][c] == a[p, t, c]
  {
    seq(PLANES, p requires 0 <= p < PLANES reads a =>
      seq(KINDS, t requires 0 <= t < KINDS reads a => Row(a, p, t)))
  }

  /** An array that agrees with the encoding cell by cell holds exactly the encoding. */
  lemma SnapshotOfEncoding(a: array3<int>, v: PlayerView, last: Option<PlayerView>)
    requires Shaped(a) && Encodable(v) && (last.Some? ==> Encodable(last.value))
    requires forall p, t, c :: 0 <= p < PLANES && 0 <= t < KINDS && 0 <= c < COLUMNS ==>
      a[p, t, c] == Cell(v, last, p, t, c)
    ensures Snapshot(a) == Encode(v, last)
  {
    var s, e := Snapshot(a), Encode(v, last);
    forall p | 0 <= p < PLANES ensures s[p] == e[p] {
      forall t | 0 <= t < KINDS ensures s[p][t] == e[p][t] {
        assert |s[p][t]| == |e[p][t]| == COLUMNS;
      }
    }
  }

  /** Every cell outside planes [lo, hi) is as it was. */
  twostate predicate KeptOutside(a: array3<int>, lo: int, hi: int)
    reads a
  {
    forall q, t, c :: 0 <= q < a.Length0 && !(lo <= q < hi) && 0 <= t < a.Length1 && 0 <= c < a.Length2 ==>
      a[q, t, c] == old(a[q, t, c])
  }

  /** Each row of plane `p` has been filled once per copy of its kind in `tiles`. */
  twostate predicate TilesRecorded(a: array3<int>, p: int, tiles: seq<int>)
    requires Shaped(a) && 0 <= p < PLANES
    reads a
  {
    forall t :: 0 <= t < KINDS ==> Row(a, p, t) == Filled(old(Row(a, p, t)), Count(tiles, t))
  }

  /** One tile recorded: the first unset column of its row is set (the `for i in range(4)` loop
      with its `break`). */
  method RecordTile(a: array3<int>, p: int, tile: int)
    requires Shaped(a) && 0 <= p < PLANES && IsKind(tile)
    modifies a
    ensures Row(a, p, tile) == FirstZeroFilled(old(Row(a, p, tile)))
    ensures forall q, t, c :: 0 <= q < PLANES && 0 <= t < KINDS && 0 <= c < COLUMNS && (q != p || t != tile) ==>
      a[q, t, c] == old(a[q, t, c])
  {
    ghost var before := Row(a, p, tile);
    var i := 0;
    while i < COLUMNS && a[p, tile, i] != 0
      invariant 0 <= i <= COLUMNS
      invariant forall c :: 0 <= c < i ==> a[p, tile, c] != 0
      decreases COLUMNS - i
    {
      i := i + 1;
    }
    if i < COLUMNS {
      a[p, tile, i] := 1;
    }
    FirstZeroAt(before, i);
  }

  /** `fill_plane_tiles`: for each tile, set the first unset column of its row. */
  method FillPlaneTiles(a: array3<int>, p: int, tiles: seq<int>)
    requires Shaped(a) && 0 <= p < PLANES && AllKinds(tiles)
    modifies a
    ensures TilesRecorded(a, p, tiles)
    ensures old(PlaneClear(a, p)) ==> TilesPlane(a, p, tiles)
    ensures KeptOutside(a, p, p + 1)
  {
    ghost var rows := seq(KINDS, t requires 0 <= t < KINDS reads a => Row(a, p, t));
    for j := 0 to |tiles|
      invariant forall t :: 0 <= t < KINDS ==> Row(a, p, t) == Filled(rows[t], Count(tiles[..j], t))
      invariant KeptOutside(a, p, p + 1)
    {
      RecordNext(a, p, tiles, j, rows);
    }
    assert tiles[..|tiles|] == tiles;
    if old(PlaneClear(a, p)) {
      forall t | 0 <= t < KINDS ensures Row(a, p, t) == Filled([0, 0, 0, 0], Count(tiles, t)) {
        assert old(Row(a, p, t)) == [0, 0, 0, 0];
      }
      TilesOnClearPlane(a, p, tiles);
    }
  }

  /** The loop body of `fill_plane_tiles`: recording `tiles[j]` fills one more copy of its kind. */
  method RecordNext(a: array3<int>, p: int, tiles: seq<int>, j: nat, ghost rows: seq<seq<int>>)
    requires Shaped(a) && 0 <= p < PLANES && AllKinds(tiles) && j < |tiles| && |rows| == KINDS
    requires forall t :: 0 <= t < KINDS ==> Row(a, p, t) == Filled(rows[t], Count(tiles[..j], t))
    modifies a
    ensures forall t :: 0 <= t < KINDS ==> Row(a, p, t) == Filled(rows[t], Count(tiles[..j + 1], t))
    ensures KeptOutside(a, p, p + 1)
  {
    RecordTile(a, p, tiles[j]);
    assert tiles[..j + 1] == tiles[..j] + [tiles[j]];
    forall t | 0 <= t < KINDS ensures Row(a, p, t) == Filled(rows[t], Count(tiles[..j + 1], t)) {
      if t != tiles[j] {
        assert Row(a, p, t) == old(Row(a, p, t));
      }
    }
  }

  /** Every cell of plane `p` is 0. */
  predicate PlaneClear(a: array3<int>, p: int)
    requires Shaped(a) && 0 <= p < PLANES
    reads a
  {
    forall t, c :: 0 <= t < KINDS && 0 <= c < COLUMNS ==> a[p, t, c] == 0
  }

  /** Plane `p` holds the tile encoding of `tiles`. */
  predicate TilesPlane(a: array3<int>, p: int, tiles: seq<int>)
    requires Shaped(a) && 0 <= p < PLANES
    reads a
  {
    forall t, c :: 0 <= t < KINDS && 0 <= c < COLUMNS ==> a[p, t, c] == TileCell(tiles, t, c)
  }

  /** A clear plane, filled row by row, holds the tile encoding. */
  lemma TilesOnClearPlane(a: array3<int>, p: int, tiles: seq<int>)
    requires Shaped(a) && 0 <= p < PLANES
    requires forall t :: 0 <= t < KINDS ==> Row(a, p, t) == Filled([0, 0, 0, 0], Count(tiles, t))
    ensures TilesPlane(a, p, tiles)
  {
    forall t, c | 0 <= t < KINDS && 0 <= c < COLUMNS ensures a[p, t, c] == TileCell(tiles, t, c) {
      FilledFromZeros(Count(tiles, t));
      assert a[p, t, c] == Row(a, p, t)[c];
    }
  }

  /** Plane `p` holds `value` in every cell. */
  predicate ValuePlane(a: array3<int>, p: int, value: int)
    requires Shaped(a) && 0 <= p < PLANES
    reads a
  {
    forall t, c :: 0 <= t < KINDS && 0 <= c < COLUMNS ==> a[p, t, c] == value
  }

  /** `fill_plane_tiles_rows`: every listed kind's whole row is set; other rows are kept. */
  method FillPlaneTilesRows(a: array3<int>, p: int, tiles: seq<int>)
    requires Shaped(a) && 0 <= p < PLANES && AllKinds(tiles)
    modifies a
    ensures forall t, c :: 0 <= t < KINDS && 0 <= c < COLUMNS ==>
      a[p, t, c] == if t in tiles then 1 else old(a[p, t, c])
    ensures KeptOutside(a, p, p + 1)
  {
    for j := 0 to |tiles|
      invariant forall t, c :: 0 <= t < KINDS && 0 <= c < COLUMNS ==>
        a[p, t, c] == if t in tiles[..j] then 1 else old(a[p, t, c])
      invariant KeptOutside(a, p, p + 1)
    {
      var tile := tiles[j];
      forall c | 0 <= c < COLUMNS {
        a[p, tile, c] := 1;
      }
      assert tiles[..j + 1] == tiles[..j] + [tile];
    }
    assert tiles[..|tiles|] == tiles;
  }

  /** `fill_plane_value`: the whole plane takes the value. */
  method FillPlaneValue(a: array3<int>, p: int, value: int)
    requires Shaped(a) && 0 <= p < PLANES
    modifies a
    ensures ValuePlane(a, p, value)
    ensures KeptOutside(a, p, p + 1)
  {
    forall t, c | 0 <= t < KINDS && 0 <= c < COLUMNS {
      a[p, t, c] := value;
    }
  }

  /** `for i in range(4): fill_plane_tiles(arr[i], piles[i])` over the four planes from `p`. */
  method FillPlanesTiles(a: array3<int>, p: int, piles: seq<seq<int>>)
    requires Shaped(a) && 0 <= p && p + 4 <= PLANES
    requires |piles| == 4 && forall i :: 0 <= i < 4 ==> AllKinds(piles[i])
    modifies a
    ensures forall i :: 0 <= i < 4 && old(PlaneClear(a, p + i)) ==> TilesPlane(a, p + i, piles[i])
    ensures KeptOutside(a, p, p + 4)
  {
    for i := 0 to 4
      invariant forall k :: 0 <= k < i && old(PlaneClear(a, p + k)) ==> TilesPlane(a, p + k, piles[k])
      invariant KeptOutside(a, p, p + i)
    {
      FillPlaneTiles(a, p + i, piles[i]);
    }
  }

  /** `for i in range(4): fill_plane_value(arr[i], flags[i])` over the four planes from `p`. */
  method FillPlanesFlags(a: array3<int>, p: int, flags: seq<bool>)
    requires Shaped(a) && 0 <= p && p + 4 <= PLANES && |flags| == 4
    modifies a
    ensures forall i :: 0 <= i < 4 ==> ValuePlane(a, p + i, Flag(flags[i]))
    ensures KeptOutside(a, p, p + 4)
  {
    for i := 0 to 4
      invariant forall k :: 0 <= k < i ==> ValuePlane(a, p + k, Flag(flags[k]))
      invariant KeptOutside(a, p, p + 4)
    {
      FillPlaneValue(a, p + i, Flag(flags[i]));
    }
  }

  /** `PlayerState`: a view, an optional previous state, and the lazily built encoding with the
      cursor that `make_data` advances plane by plane. */
  class PlayerState {
    const view: PlayerView
    const last: PlayerState?
    var data: array3?<int>
    var nextPlane: int

    constructor (view: PlayerView, last: PlayerState?)
      ensures this.view == view && this.last == last
      ensures data == null && nextPlane == 0
    {
      this.view := view;
      this.last := last;
      data := null;
      nextPlane := 0;
    }

    function LastView(): Option<PlayerView>
    {
      if last == null then None else Some(last.view)
    }

    predicate Views()
    {
      Encodable(view) && (last != null ==> Encodable(last.view))
    }

    /** Where the cursor stops: 29 planes, or 43 with a previous state. */
    function Planes(): int
    {
      if last == null then CURRENT_PLANES else PLANES
    }

    /** Planes below `np` hold the encoding and the planes from `np` on are still clear. */
    ghost predicate BuiltUpTo(np: int)
      reads this, data
    {
      && data != null && Shaped(data) && Views() && 0 <= np <= PLANES
      && (forall q, t, c :: 0 <= q < np && 0 <= t < KINDS && 0 <= c < COLUMNS ==>
            data[q, t, c] == Cell(view, LastView(), q, t, c))
      && (forall q, t, c :: np <= q < PLANES && 0 <= t < KINDS && 0 <= c < COLUMNS ==> data[q, t, c] == 0)
    }

    /** Not built yet, or built completely with the cursor at its end. */
    ghost predicate Valid()
      reads this, data
    {
      && Views()
      && (data == null ==> nextPlane == 0)
      && (data != null ==> nextPlane == Planes() && BuiltUpTo(PLANES))
    }

    /** The array is there and `width` planes are left from the cursor. */
    predicate Room(width: int)
      reads this
    {
      data != null && Shaped(data) && Views() && 0 <= nextPlane && nextPlane + width <= PLANES
    }

    method FillHand()
      requires Room(1)
      modifies this`nextPlane, data
      ensures nextPlane == old(nextPlane) + 1
      ensures old(PlaneClear(data, nextPlane)) ==> TilesPlane(data, old(nextPlane), view.hand)
      ensures KeptOutside(data, old(nextPlane), old(nextPlane) + 1)
      ensures old(nextPlane) == HAND_PLANE && old(BuiltUpTo(nextPlane)) ==> BuiltUpTo(nextPlane)
    {
      FillPlaneTiles(data, nextPlane, view.hand);
      nextPlane := nextPlane + 1;
    }

    method FillLastHand()
      requires Room(1) && last != null
      modifies this`nextPlane, data
      ensures nextPlane == old(nextPlane) + 1
      ensures old(PlaneClear(data, nextPlane)) ==> TilesPlane(data, old(nextPlane), last.view.hand)
      ensures KeptOutside(data, old(nextPlane), old(nextPlane) + 1)
      ensures old(nextPlane) == LAST_HAND_PLANE && old(BuiltUpTo(nextPlane)) ==> BuiltUpTo(nextPlane)
    {
      FillPlaneTiles(data, nextPlane, last.view.hand);
      nextPlane := nextPlane + 1;
    }

    method FillRedFives()
      requires Room(1)
      modifies this`nextPlane, data
      ensures nextPlane == old(nextPlane) + 1
      ensures forall t, c :: 0 <= t < KINDS && 0 <= c < COLUMNS ==>
        data[old(nextPlane), t, c] == if t in view.redFives then 1 else old(data[nextPlane, t, c])
      ensures KeptOutside(data, old(nextPlane), old(nextPlane) + 1)
      ensures old(nextPlane) == RED_FIVES_PLANE && old(BuiltUpTo(nextPlane)) ==> BuiltUpTo(nextPlane)
    {
      FillPlaneTilesRows(data, nextPlane, view.redFives);
      nextPlane := nextPlane + 1;
    }

    method FillDiscards()
      requires Room(4)
      modifies this`nextPlane, data
      ensures nextPlane == old(nextPlane) + 4
      ensures forall i :: 0 <= i < 4 && old(PlaneClear(data, nextPlane + i)) ==>
        TilesPlane(data, old(nextPlane) + i, view.discards[i])
      ensures KeptOutside(data, old(nextPlane), old(nextPlane) + 4)
      ensures old(nextPlane) == DISCARD_PLANES && old(BuiltUpTo(nextPlane)) ==> BuiltUpTo(nextPlane)
    {
      FillPlanesTiles(data, nextPlane, view.discards);
      nextPlane := nextPlane + 4;
    }

    method FillLastDiscards()
      requires Room(4) && last != null
      modifies this`nextPlane, data
      ensures nextPlane == old(nextPlane) + 4
      ensures forall i :: 0 <= i < 4 && old(PlaneClear(data, nextPlane + i)) ==>
        TilesPlane(data, old(nextPlane) + i, last.view.discards[i])
      ensures KeptOutside(data, old(nextPlane), old(nextPlane) + 4)
      ensures old(nextPlane) == LAST_DISCARD_PLANES && old(BuiltUpTo(nextPlane)) ==> BuiltUpTo(nextPlane)
    {
      FillPlanesTiles(data, nextPlane, last.view.discards);
      nextPlane := nextPlane + 4;
    }

    method FillStolenTiles()
      requires Room(4)
      modifies this`nextPlane, data
      ensures nextPlane == old(nextPlane) + 4
      ensures forall i :: 0 <= i < 4 && old(PlaneClear(data, nextPlane + i)) ==>
        TilesPlane(data, old(nextPlane) + i, view.stolen[i])
      ensures KeptOutside(data, old(nextPlane), old(nextPlane) + 4)
      ensures old(nextPlane) == STOLEN_PLANES && old(BuiltUpTo(nextPlane)) ==> BuiltUpTo(nextPlane)
    {
      FillPlanesTiles(data, nextPlane, view.stolen);
      nextPlane := nextPlane + 4;
    }

    method FillLastStolenTiles()
      requires Room(4) && last != null
      modifies this`nextPlane, data
      ensures nextPlane == old(nextPlane) + 4
      ensures forall i :: 0 <= i < 4 && old(PlaneClear(data, nextPlane + i)) ==>
        TilesPlane(data, old(nextPlane) + i, last.view.stolen[i])
      ensures KeptOutside(data, old(nextPlane), old(nextPlane) + 4)
      ensures old(nextPlane) == LAST_STOLEN_PLANES && old(BuiltUpTo(nextPlane)) ==> BuiltUpTo(nextPlane)
    {
      FillPlanesTiles(data, nextPlane, last.view.stolen);
      nextPlane := nextPlane + 4;
    }

    method FillDoraIndicators()
      requires Room(1)
      modifies this`nextPlane, data
      ensures nextPlane == old(nextPlane) + 1
      ensures old(PlaneClear(data, nextPlane)) ==> TilesPlane(data, old(nextPlane), view.dora)
      ensures KeptOutside(data, old(nextPlane), old(nextPlane) + 1)
      ensures old(nextPlane) == DORA_PLANE && old(BuiltUpTo(nextPlane)) ==> BuiltUpTo(nextPlane)
    {
      FillPlaneTiles(data, nextPlane, view.dora);
      nextPlane := nextPlane + 1;
    }

    method FillLastDoraIndicators()
      requires Room(1) && last != null
      modifies this`nextPlane, data
      ensures nextPlane == old(nextPlane) + 1
      ensures old(PlaneClear(data, nextPlane)) ==> TilesPlane(data, old(nextPlane), last.view.dora)
      ensures KeptOutside(data, old(nextPlane), old(nextPlane) + 1)
      ensures old(nextPlane) == LAST_DORA_PLANE && old(BuiltUpTo(nextPlane)) ==> BuiltUpTo(nextPlane)
    {
      FillPlaneTiles(data, nextPlane, last.view.dora);
      nextPlane := nextPlane + 1;
    }

    method FillRiichi()
      requires Room(4)
      modifies this`nextPlane, data
      ensures nextPlane == old(nextPlane) + 4
      ensures forall i :: 0 <= i < 4 ==> ValuePlane(data, old(nextPlane) + i, Flag(view.riichi[i]))
      ensures KeptOutside(data, old(nextPlane), old(nextPlane) + 4)
      ensures old(nextPlane) == RIICHI_PLANES && old(BuiltUpTo(nextPlane)) ==> BuiltUpTo(nextPlane)
    {
      FillPlanesFlags(data, nextPlane, view.riichi);
      nextPlane := nextPlane + 4;
    }

    method FillLastRiichi()
      requires Room(4) && last != null
      modifies this`nextPlane, data
      ensures nextPlane == old(nextPlane) + 4
      ensures forall i :: 0 <= i < 4 ==> ValuePlane(data, old(nextPlane) + i, Flag(last.view.riichi[i]))
      ensures KeptOutside(data, old(nextPlane), old(nextPlane) + 4)
      ensures old(nextPlane) == LAST_RIICHI_PLANES && old(BuiltUpTo(nextPlane)) ==> BuiltUpTo(nextPlane)
    {
      FillPlanesFlags(data, nextPlane, last.view.riichi);
      nextPlane := nextPlane + 4;
    }

    /** Only the plane of the rank is set; the other three of the block are kept. */
    method FillRank()
      requires Room(4)
      modifies this`nextPlane, data
      ensures nextPlane == old(nextPlane) + 4
      ensures ValuePlane(data, old(nextPlane) + view.rank, 1)
      ensures KeptOutside(data, old(nextPlane) + view.rank, old(nextPlane) + view.rank + 1)
      ensures old(nextPlane) == RANK_PLANES && old(BuiltUpTo(nextPlane)) ==> BuiltUpTo(nextPlane)
    {
      FillPlaneValue(data, nextPlane + view.rank, 1);
      nextPlane := nextPlane + 4;
    }

    /** Only the plane of the kyoku, clamped to 7, is set; the other seven of the block are kept. */
    method FillKyoku()
      requires Room(8)
      modifies this`nextPlane, data
      ensures nextPlane == old(nextPlane) + 8
      ensures ValuePlane(data, old(nextPlane) + Min(view.kyoku, 7), 1)
      ensures KeptOutside(data, old(nextPlane) + Min(view.kyoku, 7), old(nextPlane) + Min(view.kyoku, 7) + 1)
      ensures old(nextPlane) == KYOKU_PLANES && old(BuiltUpTo(nextPlane)) ==> BuiltUpTo(nextPlane)
    {
      var kyoku := Min(view.kyoku, 7);
      FillPlaneValue(data, nextPlane + kyoku, 1);
      nextPlane := nextPlane + 8;
    }

    method FillRoundWind()
      requires Room(1)
      modifies this`nextPlane, data
      ensures nextPlane == old(nextPlane) + 1
      ensures forall t, c :: 0 <= t < KINDS && 0 <= c < COLUMNS ==>
        data[old(nextPlane), t, c] == if t == WIND_TILES[view.roundWind] then 1 else old(data[nextPlane, t, c])
      ensures KeptOutside(data, old(nextPlane), old(nextPlane) + 1)
      ensures old(nextPlane) == ROUND_WIND_PLANE && old(BuiltUpTo(nextPlane)) ==> BuiltUpTo(nextPlane)
    {
      FillPlaneTilesRows(data, nextPlane, [WIND_TILES[view.roundWind]]);
      nextPlane := nextPlane + 1;
    }

    method FillOwnWind()
      requires Room(1)
      modifies this`nextPlane, data
      ensures nextPlane == old(nextPlane) + 1
      ensures forall t, c :: 0 <= t < KINDS && 0 <= c < COLUMNS ==>
        data[old(nextPlane), t, c] == if t == WIND_TILES[view.ownWind] then 1 else old(data[nextPlane, t, c])
      ensures KeptOutside(data, old(nextPlane), old(nextPlane) + 1)
      ensures old(nextPlane) == OWN_WIND_PLANE && old(BuiltUpTo(nextPlane)) ==> BuiltUpTo(nextPlane)
    {
      FillPlaneTilesRows(data, nextPlane, [WIND_TILES[view.ownWind]]);
      nextPlane := nextPlane + 1;
    }
  
    /** Without a previous state, planes 29 to 42 are meant to stay clear. */
    lemma NoPreviousPlanes()
      requires last == null && BuiltUpTo(CURRENT_PLANES)
      ensures BuiltUpTo(PLANES)
    {
    }

    /** `make_data`: the cached array if there is one; otherwise a fresh zeroed array filled
        block by block, which then holds the whole encoding of the view (and of the previous
        view, when there is one) with the cursor at 29 or 43. */
    method MakeData() returns (d: array3<int>)
      requires Valid()
      modifies this
      ensures Valid() && d == data
      ensures old(data) != null ==> d == old(data) && nextPlane == old(nextPlane)
      ensures old(data) == null ==> fresh(d)
      ensures nextPlane == Planes()
      ensures Shaped(d)
      ensures forall p, t, c :: 0 <= p < PLANES && 0 <= t < KINDS && 0 <= c < COLUMNS ==>
        d[p, t, c] == Cell(view, LastView(), p, t, c)
    {
      if data != null {
        return data;
      }
      data := new int[PLANES, KINDS, COLUMNS]((p, t, c) => 0);
      assert BuiltUpTo(HAND_PLANE);
      FillCurrent();
      if last != null {
        FillPrevious();
      } else {
        NoPreviousPlanes();
      }
      d := data;
    }

    /** The blocks of the view itself, planes 0 to 28, in `make_data`'s order. */
    method FillCurrent()
      requires nextPlane == HAND_PLANE && BuiltUpTo(HAND_PLANE)
      modifies this`nextPlane, data
      ensures nextPlane == CURRENT_PLANES && BuiltUpTo(CURRENT_PLANES)
    {
      FillHand();
      FillRedFives();
      FillDiscards();
      FillStolenTiles();
      FillDoraIndicators();
      FillRiichi();
      FillRank();
      FillKyoku();
      FillRoundWind();
      FillOwnWind();
    }

    /** The blocks of the previous view, planes 29 to 42. */
    method FillPrevious()
      requires last != null && nextPlane == CURRENT_PLANES && BuiltUpTo(CURRENT_PLANES)
      modifies this`nextPlane, data
      ensures nextPlane == PLANES && BuiltUpTo(PLANES)
    {
      FillLastHand();
      FillLastDiscards();
      FillLastStolenTiles();
      FillLastDoraIndicators();
      FillLastRiichi();
    }
  }
}
