/**
 * Stamp placements (src/state/actions/stampActions.ts): a stamp covers the two microbeat columns
 * `startColumn` and `startColumn + 1` of one row and records `endColumn = startColumn + 2`.
 */
module StampActions {
  import opened Wrappers
  import opened JsArrays
  import opened StoreState

  function IdOf(p: Stamp): string { p.id }

  /** The collision test of `addStampPlacement`, with both column bounds treated inclusively. */
  function CollidesWith(row: int, startColumn: int, endColumn: int): Stamp -> bool
  {
    (p: Stamp) => p.row == row && p.startColumn <= endColumn && p.endColumn >= startColumn
  }

  /** The eraser test: the stamp's columns meet `[startCol, endCol]` and its row is in `[startRow, endRow]`. */
  function InEraseArea(startCol: int, endCol: int, startRow: int, endRow: int): Stamp -> bool
  {
    (p: Stamp) => p.startColumn <= endCol && p.endColumn >= startCol && startRow <= p.row <= endRow
  }

  /** The hit test of `getStampAt`: same row and `startColumn <= column <= endColumn`. */
  function CoversCell(column: int, row: int): Stamp -> bool
  {
    (p: Stamp) => p.row == row && p.startColumn <= column <= p.endColumn
  }

  /** The stamps after `placement` is added: the first stamp colliding with it is gone, it comes last. */
  function StampsAfterAdd(stamps: seq<Stamp>, placement: Stamp): (r: seq<Stamp>)
    ensures |r| >= 1 && r[|r| - 1] == placement
    ensures forall q :: q in r ==> q == placement || q in stamps
  {
    EvictFirstThenAppend(stamps, IdOf, CollidesWith(placement.row, placement.startColumn, placement.endColumn), placement)
  }

  /**
   * With unique ids, adding a stamp with a fresh id keeps ids unique, keeps every stamp it does not
   * collide with, and removes exactly one stamp when some stamp collides, none otherwise.
   */
  lemma AddStampKeepsOthers(stamps: seq<Stamp>, placement: Stamp)
    requires UniqueIds(stamps, IdOf) && FreshId(stamps, IdOf, placement.id)
    ensures UniqueIds(StampsAfterAdd(stamps, placement), IdOf)
    ensures forall q :: q in stamps && !CollidesWith(placement.row, placement.startColumn, placement.endColumn)(q) ==>
      q in StampsAfterAdd(stamps, placement)
    ensures |StampsAfterAdd(stamps, placement)| ==
      if exists q :: q in stamps && CollidesWith(placement.row, placement.startColumn, placement.endColumn)(q)
      then |stamps| else |stamps| + 1
  {
    EvictFirstKeepsOthers(stamps, IdOf, CollidesWith(placement.row, placement.startColumn, placement.endColumn), placement);
  }

  /** `removeStampPlacement`: `true` and the first stamp with that id spliced out, or `false` when none has it. */
  method RemoveStampPlacement(s: Store, placementId: string) returns (removed: bool)
    modifies s`stampPlacements
    ensures removed == !FreshId(old(s.stampPlacements), IdOf, placementId)
    ensures s.stampPlacements == RemoveById(old(s.stampPlacements), IdOf, placementId)
  {
    var index := FindIndex(s.stampPlacements, HasId(IdOf, placementId));
    RemoveByIdSplice(s.stampPlacements, IdOf, placementId);
    if index == -1 {
      return false;
    }
    s.stampPlacements := s.stampPlacements[..index] + s.stampPlacements[index + 1..];
    return true;
  }

  /**
   * `addStampPlacement`: `None` when column `startColumn` or `startColumn + 1` lies within a tonic span
   * (`inTonicSpan` is `isWithinTonicSpan` over the placed tonic signs); otherwise the first colliding
   * stamp is removed and the new stamp, with id `freshId`, is appended and returned.
   */
  method AddStampPlacement(s: Store, stampId: int, startColumn: int, row: int, color: string,
                           inTonicSpan: int -> bool, freshId: string, timestamp: int)
    returns (r: Option<Stamp>)
    modifies s`stampPlacements
    ensures inTonicSpan(startColumn) || inTonicSpan(startColumn + 1) ==>
      r.None? && s.stampPlacements == old(s.stampPlacements)
    ensures !(inTonicSpan(startColumn) || inTonicSpan(startColumn + 1)) ==>
      r == Some(Stamp(freshId, stampId, startColumn, startColumn + 2, row, Some(row + ActiveTop(s)),
                      color, timestamp, map[])) &&
      s.stampPlacements == StampsAfterAdd(old(s.stampPlacements), r.value)
  {
    var endColumn := startColumn + 2;
    if inTonicSpan(startColumn) || inTonicSpan(startColumn + 1) {
      return None;
    }
    var existing := Find(s.stampPlacements, CollidesWith(row, startColumn, endColumn));
    if existing.Some? {
      var _ := RemoveStampPlacement(s, existing.value.id);
    }
    var globalRow := row + ActiveTop(s);
    var placement := Stamp(freshId, stampId, startColumn, endColumn, row, Some(globalRow), color, timestamp, map[]);
    s.stampPlacements := s.stampPlacements + [placement];
    return Some(placement);
  }

  /** The `for … of` loop collecting, in order, the ids of the stamps that satisfy `hit`. */
  method CollectStampIds(s: Store, hit: Stamp -> bool) returns (toRemove: seq<string>)
    ensures toRemove == IdsWhere(s.stampPlacements, IdOf, hit)
  {
    toRemove := [];
    var i := 0;
    while i < |s.stampPlacements|
      invariant 0 <= i <= |s.stampPlacements|
      invariant toRemove == IdsWhere(s.stampPlacements[..i], IdOf, hit)
    {
      IdsWhereSnoc(s.stampPlacements, i, IdOf, hit);
      var placement := s.stampPlacements[i];
      if hit(placement) {
        toRemove := toRemove + [placement.id];
      }
      i := i + 1;
    }
    assert s.stampPlacements[..i] == s.stampPlacements;
  }

  /** `toRemove.forEach(id => removeStampPlacement(id))`, reporting whether any call removed a stamp. */
  method RemoveStampPlacements(s: Store, toRemove: seq<string>) returns (removed: bool)
    modifies s`stampPlacements
    ensures s.stampPlacements == RemoveEach(old(s.stampPlacements), IdOf, toRemove)
    ensures removed == AnyRemoved(old(s.stampPlacements), IdOf, toRemove)
  {
    ghost var start := s.stampPlacements;
    removed := false;
    var k := 0;
    while k < |toRemove|
      invariant 0 <= k <= |toRemove|
      invariant s.stampPlacements == RemoveEach(start, IdOf, toRemove[..k])
      invariant removed == AnyRemoved(start, IdOf, toRemove[..k])
    {
      RemoveEachSnoc(start, IdOf, toRemove[..k], toRemove[k]);
      assert toRemove[..k + 1] == toRemove[..k] + [toRemove[k]];
      var ok := RemoveStampPlacement(s, toRemove[k]);
      if ok {
        removed := true;
      }
      k := k + 1;
    }
    assert toRemove[..k] == toRemove;
  }

  /**
   * `eraseStampsInArea`: collects the ids of the stamps in the area, removes them one by one and
   * reports whether any removal succeeded.
   */
  method EraseStampsInArea(s: Store, eraseStartCol: int, eraseEndCol: int, eraseStartRow: int, eraseEndRow: int)
    returns (removed: bool)
    modifies s`stampPlacements
    ensures s.stampPlacements ==
      RemoveEach(old(s.stampPlacements), IdOf,
                 IdsWhere(old(s.stampPlacements), IdOf, InEraseArea(eraseStartCol, eraseEndCol, eraseStartRow, eraseEndRow)))
    ensures removed <==>
      exists p :: p in old(s.stampPlacements) && InEraseArea(eraseStartCol, eraseEndCol, eraseStartRow, eraseEndRow)(p)
    ensures UniqueIds(old(s.stampPlacements), IdOf) ==>
      s.stampPlacements == Reject(old(s.stampPlacements), InEraseArea(eraseStartCol, eraseEndCol, eraseStartRow, eraseEndRow))
  {
    var area := InEraseArea(eraseStartCol, eraseEndCol, eraseStartRow, eraseEndRow);
    ghost var start := s.stampPlacements;
    var toRemove := CollectStampIds(s, area);
    removed := RemoveStampPlacements(s, toRemove);
    AnyRemovedWhere(start, IdOf, area);
    if UniqueIds(start, IdOf) {
      RemoveEachWhereIsReject(start, IdOf, area);
    }
  }

  /** `getStampAt`: the first stamp on `row` whose columns include `column`. */
  function GetStampAt(s: Store, column: int, row: int): (r: Option<Stamp>)
    reads s
    ensures r.Some? ==>
      r.value in s.stampPlacements && r.value.row == row && r.value.startColumn <= column <= r.value.endColumn
    ensures r.Some? ==> exists i :: (0 <= i < |s.stampPlacements| && s.stampPlacements[i] == r.value &&
      forall k :: 0 <= k < i ==> var p := s.stampPlacements[k]; !(p.row == row && p.startColumn <= column <= p.endColumn))
    ensures r.None? <==> forall p :: p in s.stampPlacements ==> !(p.row == row && p.startColumn <= column <= p.endColumn)
  {
    Find(s.stampPlacements, CoversCell(column, row))
  }

  /** `getShapeRow`: the stamp's row moved by the offset recorded for `shapeKey` (none counts as 0). */
  function GetShapeRow(placement: Stamp, shapeKey: string): (r: int)
    ensures shapeKey in placement.shapeOffsets ==> r == placement.row + placement.shapeOffsets[shapeKey]
    ensures shapeKey !in placement.shapeOffsets ==> r == placement.row
  {
    placement.row + (if shapeKey in placement.shapeOffsets then placement.shapeOffsets[shapeKey] else 0)
  }

  /** `updateStampShapeOffset`: record `rowOffset` for `shapeKey` on the first stamp with `placementId`, if any. */
  method UpdateStampShapeOffset(s: Store, placementId: string, shapeKey: string, rowOffset: int)
    modifies s`stampPlacements
    ensures var i := FindIndex(old(s.stampPlacements), HasId(IdOf, placementId));
      (i < 0 ==> s.stampPlacements == old(s.stampPlacements)) &&
      (i >= 0 ==> s.stampPlacements == old(s.stampPlacements)[i := old(s.stampPlacements)[i].(
         shapeOffsets := old(s.stampPlacements)[i].shapeOffsets[shapeKey := rowOffset])])
  {
    var i := FindIndex(s.stampPlacements, HasId(IdOf, placementId));
    if i < 0 {
      return;
    }
    var placement := s.stampPlacements[i];
    s.stampPlacements := s.stampPlacements[i := placement.(shapeOffsets := placement.shapeOffsets[shapeKey := rowOffset])];
  }

  /** After an offset is recorded, `getShapeRow` sees it for that shape and nothing changes for the others. */
  lemma ShapeRowAfterOffset(placement: Stamp, shapeKey: string, rowOffset: int, other: string)
    requires other != shapeKey
    ensures GetShapeRow(placement.(shapeOffsets := placement.shapeOffsets[shapeKey := rowOffset]), shapeKey) ==
      placement.row + rowOffset
    ensures GetShapeRow(placement.(shapeOffsets := placement.shapeOffsets[shapeKey := rowOffset]), other) ==
      GetShapeRow(placement, other)
  {
  }
}
