/** Board tiles, removing the items on a tile, and the square footprints used for pruning. */
module Tiles {
  import opened Wrappers

  type Tile = (int, int)

  /** `_del_at_coordinate(items, x, y)` (and the filter inside `QueenBee.create_hive`): the
      items not on tile `t`, in their original order. */
  function DelAtCoordinate<T>(items: seq<T>, pos: T -> Tile, t: Tile): (r: seq<T>)
    ensures |r| <= |items|
    ensures forall i :: 0 <= i < |r| ==> pos(r[i]) != t
    ensures forall i :: 0 <= i < |r| ==> r[i] in items
    ensures forall i :: 0 <= i < |items| && pos(items[i]) != t ==> items[i] in r
  {
    if items == [] then []
    else
      var last := items[|items| - 1];
      DelAtCoordinate(items[..|items| - 1], pos, t) + (if pos(last) == t then [] else [last])
  }

  /** Removing the items on a tile distributes over concatenation. */
  lemma {:induction false} DelAtCoordinateAppend<T>(a: seq<T>, b: seq<T>, pos: T -> Tile, t: Tile)
    ensures DelAtCoordinate(a + b, pos, t) == DelAtCoordinate(a, pos, t) + DelAtCoordinate(b, pos, t)
    decreases |b|
  {
    if b == [] {
      assert a + b == a;
    } else {
      var b' := b[..|b| - 1];
      assert (a + b)[..|a + b| - 1] == a + b';
      DelAtCoordinateAppend(a, b', pos, t);
    }
  }

  /** The index of the last item standing on `t` (the one a `{(x, y): item}` dictionary
      comprehension keeps), or -1 when there is none. */
  function LastIndex(tiles: seq<Tile>, t: Tile): (r: int)
    ensures -1 <= r < |tiles|
    ensures r >= 0 ==> tiles[r] == t && forall k :: r < k < |tiles| ==> tiles[k] != t
    ensures r == -1 <==> t !in tiles
  {
    if tiles == [] then -1
    else if tiles[|tiles| - 1] == t then |tiles| - 1
    else LastIndex(tiles[..|tiles| - 1], t)
  }

  /** The pairs (x, y) for y drawn from ys, in order. */
  function Row(x: int, ys: seq<int>): (r: seq<Tile>)
    ensures |r| == |ys|
    ensures forall t :: t in r <==> t.0 == x && t.1 in ys
  {
    if ys == [] then [] else [(x, ys[0])] + Row(x, ys[1..])
  }

  /** All pairs (x, y) with x drawn from xs and y from ys, x varying slowest. */
  function Product(xs: seq<int>, ys: seq<int>): (r: seq<Tile>)
    ensures |r| == |xs| * |ys|
    ensures forall t :: t in r <==> t.0 in xs && t.1 in ys
  {
    if xs == [] then []
    else
      var rest := Product(xs[1..], ys);
      MulSucc(|xs[1..]|, |ys|);
      assert forall t :: t in Row(xs[0], ys) + rest <==> t in Row(xs[0], ys) || t in rest;
      assert forall v :: v in xs <==> v == xs[0] || v in xs[1..];
      Row(xs[0], ys) + rest
  }

  /** The board size `footprint` assumes (the source hard-codes 8). */
  const FootprintLimit := 8

  /** The integers lo .. hi-1 in order, as `range(lo, hi)`. */
  function Range(lo: int, hi: int): seq<int> {
    seq(Max(0, hi - lo), i => lo + i)
  }

  /** `range(lo, hi)` holds exactly lo <= v < hi, hi - lo of them. */
  lemma RangeMembership(lo: int, hi: int, v: int)
    ensures |Range(lo, hi)| == Max(0, hi - lo)
    ensures v in Range(lo, hi) <==> lo <= v < hi
  {
    if lo <= v < hi {
      assert Range(lo, hi)[v - lo] == v;
    }
  }

  /** `_ret_range_coords(center, size, limit)` as written:
      range(max(center - size, 0), min(center + size, limit)), which stops one short of
      center + size. */
  function RetRangeCoordsAsWritten(center: int, size: int, limit: int): seq<int> {
    Range(Max(center - size, 0), Min(center + size, limit))
  }

  /** `footprint(hive, size)` as written (algos/matts_algo.py and MyNodeJson.footprint, the
      same code). */
  function FootprintAsWritten(center: Tile, size: int): seq<Tile> {
    Product(RetRangeCoordsAsWritten(center.0, size, FootprintLimit), RetRangeCoordsAsWritten(center.1, size, FootprintLimit))
  }

  /** As written, a coordinate is in the range exactly when it lies in
      [max(center - size, 0), min(center + size, limit)). */
  lemma RetRangeCoordsAsWrittenMembership(center: int, size: int, limit: int, v: int)
    ensures v in RetRangeCoordsAsWritten(center, size, limit) <==> Max(center - size, 0) <= v < Min(center + size, limit)
  {
    RangeMembership(Max(center - size, 0), Min(center + size, limit), v);
  }

  /** As written, a range of coordinates around `center` has at most 2 size values. */
  lemma RetRangeCoordsAsWrittenLength(center: int, size: nat, limit: int)
    ensures |RetRangeCoordsAsWritten(center, size, limit)| <= 2 * size
  {
    RangeMembership(Max(center - size, 0), Min(center + size, limit), center);
  }

  /** As written, a tile is in the footprint exactly when each coordinate t lies in
      [max(c - size, 0), min(c + size, 8)) for the center's coordinate c. */
  lemma FootprintAsWrittenMembership(center: Tile, size: int, t: Tile)
    ensures t in FootprintAsWritten(center, size) <==>
      Max(center.0 - size, 0) <= t.0 < Min(center.0 + size, FootprintLimit) &&
      Max(center.1 - size, 0) <= t.1 < Min(center.1 + size, FootprintLimit)
  {
    RetRangeCoordsAsWrittenMembership(center.0, size, FootprintLimit, t.0);
    RetRangeCoordsAsWrittenMembership(center.1, size, FootprintLimit, t.1);
  }

  /** As written, every footprint tile lies on the 8 x 8 board, within `size` of the center
      below it and strictly less than `size` above it. */
  lemma FootprintAsWrittenOnBoard(center: Tile, size: int, t: Tile)
    requires t in FootprintAsWritten(center, size)
    ensures 0 <= t.0 < 8 && 0 <= t.1 < 8
    ensures center.0 - size <= t.0 < center.0 + size && center.1 - size <= t.1 < center.1 + size
  {
    FootprintAsWrittenMembership(center, size, t);
  }

  /** As written, a tile of the board lies in its own footprint of any positive size. */
  lemma FootprintAsWrittenCenter(center: Tile, size: int)
    requires 0 <= center.0 < FootprintLimit && 0 <= center.1 < FootprintLimit && size >= 1
    ensures center in FootprintAsWritten(center, size)
  {
    FootprintAsWrittenMembership(center, size, center);
  }

  /** As written, a footprint has at most (2 size)^2 tiles, so size 1 gives at most a 2 x 2
      block. */
  lemma FootprintAsWrittenSize(center: Tile, size: nat)
    ensures |FootprintAsWritten(center, size)| <= (2 * size) * (2 * size)
    ensures size == 1 ==> |FootprintAsWritten(center, size)| <= 4
  {
    var xs := RetRangeCoordsAsWritten(center.0, size, FootprintLimit);
    var ys := RetRangeCoordsAsWritten(center.1, size, FootprintLimit);
    var c := 2 * size;
    assert |FootprintAsWritten(center, size)| == |xs| * |ys|;
    RetRangeCoordsAsWrittenLength(center.0, size, FootprintLimit);
    RetRangeCoordsAsWrittenLength(center.1, size, FootprintLimit);
    MulMono(|xs|, |ys|, c);
    if size == 1 {
      assert c * c == 4;
    }
  }

  /** The footprint as written is part of the intended one: it drops only the tiles at
      distance exactly `size` above the center. */
  lemma FootprintAsWrittenWithin(center: Tile, size: int, t: Tile)
    ensures t in FootprintAsWritten(center, size) ==> t in Footprint(center, size)
    ensures t in Footprint(center, size) && t.0 != center.0 + size && t.1 != center.1 + size ==>
      t in FootprintAsWritten(center, size)
  {
    FootprintAsWrittenMembership(center, size, t);
    FootprintMembership(center, size, t);
  }

  /** As written, the footprint of size 1 around (3, 3) holds the tiles one step left and one
      step up but not the tiles one step right or one step down. */
  lemma FootprintAsWrittenLopsided()
    ensures (2, 3) in FootprintAsWritten((3, 3), 1) && (3, 2) in FootprintAsWritten((3, 3), 1)
    ensures (4, 3) !in FootprintAsWritten((3, 3), 1) && (3, 4) !in FootprintAsWritten((3, 3), 1)
    ensures (3, 3) in FootprintAsWritten((4, 3), 1) && (4, 3) !in FootprintAsWritten((3, 3), 1)
  {
    RangeMembership(2, 4, 2);
    RangeMembership(2, 4, 3);
    RangeMembership(2, 4, 4);
    RangeMembership(3, 5, 3);
  }

  /** The coordinates within `size` of `center` that lie in [0, limit): the range the
      footprint's "tiles within 'size'" describes, center + size included. */
  function RetRangeCoords(center: int, size: int, limit: int): seq<int> {
    Range(Max(center - size, 0), Min(center + size + 1, limit))
  }

  lemma RetRangeCoordsMembership(center: int, size: int, limit: int, v: int)
    ensures v in RetRangeCoords(center, size, limit) <==> center - size <= v <= center + size && 0 <= v < limit
  {
    RangeMembership(Max(center - size, 0), Min(center + size + 1, limit), v);
  }

  /** The tiles of the 8 x 8 board within `size` of `center` in both coordinates: the
      footprint its docstring describes, the corrected half of the lopsided one. */
  function Footprint(center: Tile, size: int): seq<Tile> {
    Product(RetRangeCoords(center.0, size, FootprintLimit), RetRangeCoords(center.1, size, FootprintLimit))
  }

  /** A tile is in the footprint exactly when it is on the board and each coordinate is
      within `size` of the center's. */
  lemma FootprintMembership(center: Tile, size: int, t: Tile)
    ensures t in Footprint(center, size) <==>
      0 <= t.0 < FootprintLimit && 0 <= t.1 < FootprintLimit &&
      center.0 - size <= t.0 <= center.0 + size && center.1 - size <= t.1 <= center.1 + size
  {
    RetRangeCoordsMembership(center.0, size, FootprintLimit, t.0);
    RetRangeCoordsMembership(center.1, size, FootprintLimit, t.1);
  }

  /** Every tile of the intended footprint lies on the 8 x 8 board. */
  lemma FootprintOnBoard(center: Tile, size: int, t: Tile)
    requires t in Footprint(center, size)
    ensures 0 <= t.0 < 8 && 0 <= t.1 < 8
  {
    FootprintMembership(center, size, t);
  }

  /** For the intended footprint, between tiles of the board, being in the other's footprint
      is symmetric, and the center of a footprint of the board is in it; the footprint as
      written is not symmetric (FootprintAsWrittenLopsided). */
  lemma FootprintSymmetric(a: Tile, b: Tile, size: nat)
    requires 0 <= a.0 < FootprintLimit && 0 <= a.1 < FootprintLimit
    requires 0 <= b.0 < FootprintLimit && 0 <= b.1 < FootprintLimit
    ensures a in Footprint(b, size) <==> b in Footprint(a, size)
    ensures a in Footprint(a, size)
  {
    FootprintMembership(a, size, b);
    FootprintMembership(b, size, a);
    FootprintMembership(a, size, a);
  }

  /** An intended range of coordinates around `center` has at most 2 size + 1 values. */
  lemma RetRangeCoordsLength(center: int, size: nat, limit: int)
    ensures |RetRangeCoords(center, size, limit)| <= 2 * size + 1
  {
    RangeMembership(Max(center - size, 0), Min(center + size + 1, limit), center);
  }

  /** An intended footprint has at most (2 size + 1)^2 tiles, so size 1 gives at most a
      3 x 3 block. */
  lemma FootprintSize(center: Tile, size: nat)
    ensures |Footprint(center, size)| <= (2 * size + 1) * (2 * size + 1)
    ensures size == 1 ==> |Footprint(center, size)| <= 9
  {
    var xs := RetRangeCoords(center.0, size, FootprintLimit);
    var ys := RetRangeCoords(center.1, size, FootprintLimit);
    var c := 2 * size + 1;
    assert |Footprint(center, size)| == |xs| * |ys|;
    RetRangeCoordsLength(center.0, size, FootprintLimit);
    RetRangeCoordsLength(center.1, size, FootprintLimit);
    MulMono(|xs|, |ys|, c);
    if size == 1 {
      assert c * c == 9;
    }
  }

  lemma MulSucc(a: nat, b: nat)
    ensures (a + 1) * b == b + a * b
  {
  }

  lemma MulMono(a: nat, b: nat, c: nat)
    requires a <= c && b <= c
    ensures a * b <= c * c
  {
    assert a * b <= c * b;
    assert c * b <= c * c;
  }
}
