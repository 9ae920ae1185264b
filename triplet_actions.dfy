/**
 * Triplet placements (js/state/actions/tripletActions.ts). Triplets are measured in cells;
 * cell `n` is made of the microbeat columns `2n` and `2n + 1`, so a column maps to cell `floor(column / 2)`.
 */
module TripletActions {
  import opened Wrappers
  import opened JsArrays
  import opened StoreState
  import StampActions

  function IdOf(t: Triplet): string { t.id }

  /** Cell of a canvas-space column: `Math.floor(column / 2)` (Dafny's `/` floors for a positive divisor). */
  function CellOf(column: int): (cell: int)
    ensures 2 * cell <= column < 2 * cell + 2
  {
    column / 2
  }

  /** The triplet collision test of `addTripletPlacement`: same row and half-open cell ranges that intersect. */
  function OverlapsTriplet(row: int, startCellIndex: int, span: int): Triplet -> bool
  {
    (t: Triplet) => t.row == row &&
      !(t.startCellIndex + t.span <= startCellIndex || startCellIndex + span <= t.startCellIndex)
  }

  /** The stamp collision test of `addTripletPlacement`: same row and the stamp's cells meet the triplet's cells. */
  function StampUnderTriplet(row: int, startCellIndex: int, span: int): Stamp -> bool
  {
    (p: Stamp) => p.row == row &&
      !(CellOf(p.endColumn) < startCellIndex || CellOf(p.startColumn) > startCellIndex + span - 1)
  }

  /** The eraser test: row in `[startRow, endRow]` and the triplet's cells meet `[startCell, endCell]`. */
  function InEraseCells(startCell: int, endCell: int, startRow: int, endRow: int): Triplet -> bool
  {
    (t: Triplet) => startRow <= t.row <= endRow &&
      !(t.startCellIndex + t.span - 1 < startCell || t.startCellIndex > endCell)
  }

  /** The hit test of `getTripletAt`: same row and `startCellIndex <= cell < startCellIndex + span`. */
  function CoversCell(cellIndex: int, row: int): Triplet -> bool
  {
    (t: Triplet) => t.row == row && t.startCellIndex <= cellIndex < t.startCellIndex + t.span
  }

  /** The triplets after `placement` is added: the first overlapping triplet is gone and it comes last. */
  function TripletsAfterAdd(triplets: seq<Triplet>, placement: Triplet): (r: seq<Triplet>)
    ensures |r| >= 1 && r[|r| - 1] == placement
    ensures forall q :: q in r ==> q == placement || q in triplets
  {
    EvictFirstThenAppend(triplets, IdOf, OverlapsTriplet(placement.row, placement.startCellIndex, placement.span), placement)
  }

  /**
   * With unique ids, adding a triplet with a fresh id keeps ids unique, keeps every triplet it does not
   * overlap, and removes exactly one triplet when one overlaps, none otherwise.
   */
  lemma AddTripletKeepsOthers(triplets: seq<Triplet>, placement: Triplet)
    requires UniqueIds(triplets, IdOf) && FreshId(triplets, IdOf, placement.id)
    ensures UniqueIds(TripletsAfterAdd(triplets, placement), IdOf)
    ensures forall q :: q in triplets && !OverlapsTriplet(placement.row, placement.startCellIndex, placement.span)(q) ==>
      q in TripletsAfterAdd(triplets, placement)
    ensures |TripletsAfterAdd(triplets, placement)| ==
      if exists q :: q in triplets && OverlapsTriplet(placement.row, placement.startCellIndex, placement.span)(q)
      then |triplets| else |triplets| + 1
  {
    EvictFirstKeepsOthers(triplets, IdOf, OverlapsTriplet(placement.row, placement.startCellIndex, placement.span), placement);
  }

  /** `removeTripletPlacement`: `true` and the first triplet with that id spliced out, or `false` when none has it. */
  method RemoveTripletPlacement(s: Store, placementId: string) returns (removed: bool)
    modifies s`tripletPlacements
    ensures removed == !FreshId(old(s.tripletPlacements), IdOf, placementId)
    ensures s.tripletPlacements == RemoveById(old(s.tripletPlacements), IdOf, placementId)
  {
    var index := FindIndex(s.tripletPlacements, HasId(IdOf, placementId));
    RemoveByIdSplice(s.tripletPlacements, IdOf, placementId);
    if index == -1 {
      return false;
    }
    s.tripletPlacements := s.tripletPlacements[..index] + s.tripletPlacements[index + 1..];
    return true;
  }

  /** The stamp-eviction step of `addTripletPlacement`: every stamp under the triplet's cells, removed by id in turn. */
  method RemoveStampsUnder(s: Store, row: int, startCellIndex: int, span: int)
    modifies s`stampPlacements
    ensures s.stampPlacements ==
      RemoveEach(old(s.stampPlacements), StampActions.IdOf,
                 IdsWhere(old(s.stampPlacements), StampActions.IdOf, StampUnderTriplet(row, startCellIndex, span)))
    ensures UniqueIds(old(s.stampPlacements), StampActions.IdOf) ==>
      s.stampPlacements == Reject(old(s.stampPlacements), StampUnderTriplet(row, startCellIndex, span))
  {
    var colliding := StampUnderTriplet(row, startCellIndex, span);
    ghost var start := s.stampPlacements;
    var collidingIds := StampActions.CollectStampIds(s, colliding);
    var _ := StampActions.RemoveStampPlacements(s, collidingIds);
    if UniqueIds(start, StampActions.IdOf) {
      RemoveEachWhereIsReject(start, StampActions.IdOf, colliding);
    }
  }

  /**
   * `addTripletPlacement`: the placement gets the generated id unless it brings its own (`ownId`, the
   * object spread overriding `id`); the first overlapping triplet on its row is removed, every stamp on
   * its row whose cells meet its cells is removed, and the placement is appended and returned.
   */
  method AddTripletPlacement(s: Store, placement: Triplet, ownId: bool, generatedId: string) returns (r: Triplet)
    modifies s`tripletPlacements, s`stampPlacements
    ensures r == if ownId then placement else placement.(id := generatedId)
    ensures s.tripletPlacements == TripletsAfterAdd(old(s.tripletPlacements), r)
    ensures s.stampPlacements ==
      RemoveEach(old(s.stampPlacements), StampActions.IdOf,
                 IdsWhere(old(s.stampPlacements), StampActions.IdOf, StampUnderTriplet(r.row, r.startCellIndex, r.span)))
    ensures UniqueIds(old(s.stampPlacements), StampActions.IdOf) ==>
      s.stampPlacements == Reject(old(s.stampPlacements), StampUnderTriplet(r.row, r.startCellIndex, r.span))
  {
    var existing := Find(s.tripletPlacements, OverlapsTriplet(placement.row, placement.startCellIndex, placement.span));
    if existing.Some? {
      var _ := RemoveTripletPlacement(s, existing.value.id);
    }
    RemoveStampsUnder(s, placement.row, placement.startCellIndex, placement.span);
    r := if ownId then placement else placement.(id := generatedId);
    s.tripletPlacements := s.tripletPlacements + [r];
  }

  /** The loop collecting, in order, the ids of the triplets that satisfy `hit`. */
  method CollectTripletIds(s: Store, hit: Triplet -> bool) returns (toRemove: seq<string>)
    ensures toRemove == IdsWhere(s.tripletPlacements, IdOf, hit)
  {
    toRemove := [];
    var i := 0;
    while i < |s.tripletPlacements|
      invariant 0 <= i <= |s.tripletPlacements|
      invariant toRemove == IdsWhere(s.tripletPlacements[..i], IdOf, hit)
    {
      IdsWhereSnoc(s.tripletPlacements, i, IdOf, hit);
      var placement := s.tripletPlacements[i];
      if hit(placement) {
        toRemove := toRemove + [placement.id];
      }
      i := i + 1;
    }
    assert s.tripletPlacements[..i] == s.tripletPlacements;
  }

  /** `toRemove.forEach(id => removeTripletPlacement(id))`, reporting whether any call removed a triplet. */
  method RemoveTripletPlacements(s: Store, toRemove: seq<string>) returns (removed: bool)
    modifies s`tripletPlacements
    ensures s.tripletPlacements == RemoveEach(old(s.tripletPlacements), IdOf, toRemove)
    ensures removed == AnyRemoved(old(s.tripletPlacements), IdOf, toRemove)
  {
    ghost var start := s.tripletPlacements;
    removed := false;
    var k := 0;
    while k < |toRemove|
      invariant 0 <= k <= |toRemove|
      invariant s.tripletPlacements == RemoveEach(start, IdOf, toRemove[..k])
      invariant removed == AnyRemoved(start, IdOf, toRemove[..k])
    {
      RemoveEachSnoc(start, IdOf, toRemove[..k], toRemove[k]);
      assert toRemove[..k + 1] == toRemove[..k] + [toRemove[k]];
      var ok := RemoveTripletPlacement(s, toRemove[k]);
      if ok {
        removed := true;
      }
      k := k + 1;
    }
    assert toRemove[..k] == toRemove;
  }

  /**
   * `eraseTripletsInArea`: collects the ids of the triplets in the area (columns turned into cells),
   * removes them one by one and reports whether any removal succeeded.
   */
  method EraseTripletsInArea(s: Store, eraseStartCol: int, eraseEndCol: int, eraseStartRow: int, eraseEndRow: int)
    returns (removed: bool)
    modifies s`tripletPlacements
    ensures s.tripletPlacements ==
      RemoveEach(old(s.tripletPlacements), IdOf,
                 IdsWhere(old(s.tripletPlacements), IdOf,
                          InEraseCells(CellOf(eraseStartCol), CellOf(eraseEndCol), eraseStartRow, eraseEndRow)))
    ensures removed <==>
      exists t :: t in old(s.tripletPlacements) &&
        InEraseCells(CellOf(eraseStartCol), CellOf(eraseEndCol), eraseStartRow, eraseEndRow)(t)
    ensures UniqueIds(old(s.tripletPlacements), IdOf) ==>
      s.tripletPlacements == Reject(old(s.tripletPlacements),
                                    InEraseCells(CellOf(eraseStartCol), CellOf(eraseEndCol), eraseStartRow, eraseEndRow))
  {
    var eraseStartCell := CellOf(eraseStartCol);
    var eraseEndCell := CellOf(eraseEndCol);
    var area := InEraseCells(eraseStartCell, eraseEndCell, eraseStartRow, eraseEndRow);
    ghost var start := s.tripletPlacements;
    var toRemove := CollectTripletIds(s, area);
    removed := RemoveTripletPlacements(s, toRemove);
    AnyRemovedWhere(start, IdOf, area);
    if UniqueIds(start, IdOf) {
      RemoveEachWhereIsReject(start, IdOf, area);
    }
  }


  /** `getTripletAt`: the first triplet on `row` whose cells include `cellIndex`. */
  function GetTripletAt(s: Store, cellIndex: int, row: int): (r: Option<Triplet>)
    reads s
    ensures r.Some? ==>
      r.value in s.tripletPlacements && r.value.row == row &&
      r.value.startCellIndex <= cellIndex < r.value.startCellIndex + r.value.span
    ensures r.Some? ==> exists i :: (0 <= i < |s.tripletPlacements| && s.tripletPlacements[i] == r.value &&
      forall k :: 0 <= k < i ==> var t := s.tripletPlacements[k];
        !(t.row == row && t.startCellIndex <= cellIndex < t.startCellIndex + t.span))
    ensures r.None? <==> forall t :: t in s.tripletPlacements ==>
      !(t.row == row && t.startCellIndex <= cellIndex < t.startCellIndex + t.span)
  {
    Find(s.tripletPlacements, CoversCell(cellIndex, row))
  }

  /** `getTripletShapeRow`: the triplet's row moved by the offset recorded for `shapeKey` (none counts as 0). */
  function GetTripletShapeRow(placement: Triplet, shapeKey: string): (r: int)
    ensures shapeKey in placement.shapeOffsets ==> r == placement.row + placement.shapeOffsets[shapeKey]
    ensures shapeKey !in placement.shapeOffsets ==> r == placement.row
  {
    placement.row + (if shapeKey in placement.shapeOffsets then placement.shapeOffsets[shapeKey] else 0)
  }

  /** `updateTripletShapeOffset`: record `rowOffset` for `shapeKey` on the first triplet with `placementId`, if any. */
  method UpdateTripletShapeOffset(s: Store, placementId: string, shapeKey: string, rowOffset: int)
    modifies s`tripletPlacements
    ensures var i := FindIndex(old(s.tripletPlacements), HasId(IdOf, placementId));
      (i < 0 ==> s.tripletPlacements == old(s.tripletPlacements)) &&
      (i >= 0 ==> s.tripletPlacements == old(s.tripletPlacements)[i := old(s.tripletPlacements)[i].(
         shapeOffsets := old(s.tripletPlacements)[i].shapeOffsets[shapeKey := rowOffset])])
  {
    var i := FindIndex(s.tripletPlacements, HasId(IdOf, placementId));
    if i < 0 {
      return;
    }
    var placement := s.tripletPlacements[i];
    s.tripletPlacements := s.tripletPlacements[i := placement.(shapeOffsets := placement.shapeOffsets[shapeKey := rowOffset])];
  }

  /** After an offset is recorded, `getTripletShapeRow` sees it for that shape and nothing changes for the others. */
  lemma TripletShapeRowAfterOffset(placement: Triplet, shapeKey: string, rowOffset: int, other: string)
    requires other != shapeKey
    ensures GetTripletShapeRow(placement.(shapeOffsets := placement.shapeOffsets[shapeKey := rowOffset]), shapeKey) ==
      placement.row + rowOffset
    ensures GetTripletShapeRow(placement.(shapeOffsets := placement.shapeOffsets[shapeKey := rowOffset]), other) ==
      GetTripletShapeRow(placement, other)
  {
  }
}
