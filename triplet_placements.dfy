/**
 * Placing and erasing triplet groups (src/rhythm/tripletPlacements.ts): the collision checks made
 * before a triplet group is handed to the store.
 */
module TripletPlacements {
  import opened Wrappers
  import opened JsArrays
  import opened StoreState
  import StampActions
  import opened TripletActions

  /** A triplet stamp as looked up by its id; only its span name (`'eighth'` or `'quarter'`) matters here. */
  datatype TripletStamp = TripletStamp(span: string)

  /** `GROUP_WIDTH_CELLS[stamp.span] ?? 1`: the group's width in cells. */
  function GroupSpan(stamp: TripletStamp, groupWidthCells: map<string, int>): (span: int)
    ensures stamp.span !in groupWidthCells ==> span == 1
    ensures stamp.span in groupWidthCells ==> span == groupWidthCells[stamp.span]
  {
    if stamp.span in groupWidthCells then groupWidthCells[stamp.span] else 1
  }

  /**
   * A tonic sign starting at canvas column `tonicStart` (it occupies `tonicStart` and `tonicStart + 1`)
   * blocks a group whose first canvas column is `startCanvasCol`: it starts inside the group's
   * `2 * span` columns, or the group starts on it.
   */
  predicate TonicBlocks(tonicStart: int, startCanvasCol: int, span: int)
  {
    (tonicStart >= startCanvasCol && tonicStart < startCanvasCol + span * 2) ||
    (startCanvasCol >= tonicStart && startCanvasCol <= tonicStart + 1)
  }

  /** The stamp's cell range `[floor(startColumn / 2), floor(endColumn / 2)]` holds `cell`. */
  predicate CellInStamp(p: Stamp, cell: int)
  {
    CellOf(p.startColumn) <= cell <= CellOf(p.endColumn)
  }

  /** A stamp on `row` blocks the group when one of the group's cells lies in the stamp's cell range. */
  predicate StampBlocks(p: Stamp, row: int, startCellIndex: int, span: int)
  {
    p.row == row && exists c :: startCellIndex <= c < startCellIndex + span && CellInStamp(p, c)
  }

  /** A triplet on `row` blocks the group when their inclusive cell ranges intersect. */
  predicate TripletBlocks(t: Triplet, row: int, startCellIndex: int, span: int)
  {
    t.row == row &&
    !(startCellIndex + span - 1 < t.startCellIndex || startCellIndex > t.startCellIndex + t.span - 1)
  }

  /** What `canPlaceTripletAt` decides: no tonic sign, stamp or triplet blocks the group. */
  predicate CanPlace(tonicColumns: seq<int>, stamps: seq<Stamp>, triplets: seq<Triplet>,
                     startCanvasCol: int, startCellIndex: int, span: int, row: int)
  {
    (forall k :: 0 <= k < |tonicColumns| ==> !TonicBlocks(tonicColumns[k], startCanvasCol, span)) &&
    (forall p :: p in stamps ==> !StampBlocks(p, row, startCellIndex, span)) &&
    (forall t :: t in triplets ==> !TripletBlocks(t, row, startCellIndex, span))
  }

  /**
   * `canPlaceTripletAt`: `tonicColumns` are the column indices of the placed tonic signs and
   * `timeToCanvas` maps a time-space microbeat to its canvas column.
   */
  method CanPlaceTripletAt(s: Store, startCellIndex: int, span: int, row: int,
                           tonicColumns: seq<int>, timeToCanvas: int -> int)
    returns (ok: bool)
    ensures ok == CanPlace(tonicColumns, s.stampPlacements, s.tripletPlacements,
                           timeToCanvas(startCellIndex * 2), startCellIndex, span, row)
  {
    var startCanvasCol := timeToCanvas(startCellIndex * 2);
    var k := 0;
    while k < |tonicColumns|
      invariant 0 <= k <= |tonicColumns|
      invariant forall j :: 0 <= j < k ==> !TonicBlocks(tonicColumns[j], startCanvasCol, span)
    {
      var tonicStart := tonicColumns[k];
      var tonicEnd := tonicStart + 1;
      if tonicStart >= startCanvasCol && tonicStart < startCanvasCol + span * 2 {
        return false;
      }
      if startCanvasCol >= tonicStart && startCanvasCol <= tonicEnd {
        return false;
      }
      k := k + 1;
    }
    var n := 0;
    while n < |s.stampPlacements|
      invariant 0 <= n <= |s.stampPlacements|
      invariant forall j :: 0 <= j < n ==> !StampBlocks(s.stampPlacements[j], row, startCellIndex, span)
    {
      var placement := s.stampPlacements[n];
      if placement.row == row {
        var stampStartCell := CellOf(placement.startColumn);
        var stampEndCell := CellOf(placement.endColumn);
        var i := 0;
        while i < span
          invariant 0 <= i && (span >= 0 ==> i <= span)
          invariant forall c :: startCellIndex <= c < startCellIndex + i ==> !CellInStamp(placement, c)
        {
          var cellIndex := startCellIndex + i;
          if cellIndex >= stampStartCell && cellIndex <= stampEndCell {
            assert CellInStamp(placement, cellIndex);
            assert StampBlocks(placement, row, startCellIndex, span);
            return false;
          }
          i := i + 1;
        }
      }
      n := n + 1;
    }
    var m := 0;
    while m < |s.tripletPlacements|
      invariant 0 <= m <= |s.tripletPlacements|
      invariant forall j :: 0 <= j < m ==> !TripletBlocks(s.tripletPlacements[j], row, startCellIndex, span)
    {
      var placement := s.tripletPlacements[m];
      if placement.row == row {
        var existingEnd := placement.startCellIndex + placement.span - 1;
        var newEnd := startCellIndex + span - 1;
        if !(newEnd < placement.startCellIndex || startCellIndex > existingEnd) {
          assert TripletBlocks(placement, row, startCellIndex, span);
          return false;
        }
      }
      m := m + 1;
    }
    return true;
  }

  /** The triplet test of `canPlaceTripletAt` is exactly the overlap test `addTripletPlacement` evicts by. */
  lemma TripletBlocksIsOverlap(t: Triplet, row: int, startCellIndex: int, span: int)
    ensures TripletBlocks(t, row, startCellIndex, span) <==> OverlapsTriplet(row, startCellIndex, span)(t)
  {
  }

  /**
   * For a group at least one cell wide and a stamp whose columns are in order, the stamp test of
   * `canPlaceTripletAt` is exactly the test `addTripletPlacement` evicts stamps by.
   */
  lemma StampBlocksIsUnder(p: Stamp, row: int, startCellIndex: int, span: int)
    requires span >= 1 && p.startColumn <= p.endColumn
    ensures StampBlocks(p, row, startCellIndex, span) <==> StampUnderTriplet(row, startCellIndex, span)(p)
  {
    var ss := CellOf(p.startColumn);
    var se := CellOf(p.endColumn);
    if StampUnderTriplet(row, startCellIndex, span)(p) {
      var c := if ss <= startCellIndex then startCellIndex else ss;
      assert startCellIndex <= c < startCellIndex + span && CellInStamp(p, c);
    }
  }

  /** Stamps as `addStampPlacement` makes them: column range in order. */
  predicate OrderedStamps(stamps: seq<Stamp>)
  {
    forall p :: p in stamps ==> p.startColumn <= p.endColumn
  }

  /**
   * `placeTripletGroup`: `None` when the stamp id is unknown (`stamp` is `None`) or the group cannot be
   * placed; otherwise a triplet with id `freshId` and the group's span is handed to `addTripletPlacement`.
   * A group that passed the check evicts nothing: the triplet is appended and stamps stay as they were.
   */
  method PlaceTripletGroup(s: Store, tripletStampId: int, startCellIndex: int, row: int, color: string,
                           stamp: Option<TripletStamp>, groupWidthCells: map<string, int>,
                           tonicColumns: seq<int>, timeToCanvas: int -> int,
                           freshId: string, timestamp: int)
    returns (r: Option<Triplet>)
    modifies s`tripletPlacements, s`stampPlacements
    ensures r.None? <==>
      stamp.None? ||
      !CanPlace(tonicColumns, old(s.stampPlacements), old(s.tripletPlacements),
                timeToCanvas(startCellIndex * 2), startCellIndex, GroupSpan(stamp.value, groupWidthCells), row)
    ensures r.None? ==>
      s.tripletPlacements == old(s.tripletPlacements) && s.stampPlacements == old(s.stampPlacements)
    ensures r.Some? ==>
      r.value == Triplet(freshId, tripletStampId, startCellIndex, GroupSpan(stamp.value, groupWidthCells), row,
                         Some(row + ActiveTop(s)), color, timestamp, map[])
    ensures r.Some? ==> s.tripletPlacements == old(s.tripletPlacements) + [r.value]
    ensures r.Some? ==>
      s.stampPlacements == RemoveEach(old(s.stampPlacements), StampActions.IdOf,
        IdsWhere(old(s.stampPlacements), StampActions.IdOf, StampUnderTriplet(row, startCellIndex, r.value.span)))
    ensures r.Some? && r.value.span >= 1 && OrderedStamps(old(s.stampPlacements)) ==>
      s.stampPlacements == old(s.stampPlacements)
  {
    if stamp.None? {
      return None;
    }
    var span := GroupSpan(stamp.value, groupWidthCells);
    var placement := Triplet(freshId, tripletStampId, startCellIndex, span, row, Some(row + ActiveTop(s)),
                             color, timestamp, map[]);
    var placed := PlaceIfUnblocked(s, placement, tonicColumns, timeToCanvas);
    r := if placed then Some(placement) else None;
  }

  /**
   * The check of `placeTripletGroup` and, when it passes, `addTripletPlacement` for the group:
   * nothing is blocked, so no triplet is evicted.
   */
  method PlaceIfUnblocked(s: Store, placement: Triplet, tonicColumns: seq<int>, timeToCanvas: int -> int)
    returns (placed: bool)
    modifies s`tripletPlacements, s`stampPlacements
    ensures placed == CanPlace(tonicColumns, old(s.stampPlacements), old(s.tripletPlacements),
                               timeToCanvas(placement.startCellIndex * 2), placement.startCellIndex,
                               placement.span, placement.row)
    ensures !placed ==>
      s.tripletPlacements == old(s.tripletPlacements) && s.stampPlacements == old(s.stampPlacements)
    ensures placed ==> s.tripletPlacements == old(s.tripletPlacements) + [placement]
    ensures placed ==>
      s.stampPlacements == RemoveEach(old(s.stampPlacements), StampActions.IdOf,
        IdsWhere(old(s.stampPlacements), StampActions.IdOf,
                 StampUnderTriplet(placement.row, placement.startCellIndex, placement.span)))
    ensures placed && placement.span >= 1 && OrderedStamps(old(s.stampPlacements)) ==>
      s.stampPlacements == old(s.stampPlacements)
  {
    placed := CanPlaceTripletAt(s, placement.startCellIndex, placement.span, placement.row, tonicColumns, timeToCanvas);
    if placed {
      NoTripletEvicted(s.tripletPlacements, placement);
      if placement.span >= 1 && OrderedStamps(s.stampPlacements) {
        NoStampEvicted(s.stampPlacements, placement);
      }
      var _ := AddTripletPlacement(s, placement, true, placement.id);
    }
  }

  lemma NoTripletEvicted(triplets: seq<Triplet>, x: Triplet)
    requires forall t :: t in triplets ==> !TripletBlocks(t, x.row, x.startCellIndex, x.span)
    ensures TripletsAfterAdd(triplets, x) == triplets + [x]
  {
    assert Find(triplets, OverlapsTriplet(x.row, x.startCellIndex, x.span)).None?;
  }

  lemma NoStampEvicted(stamps: seq<Stamp>, x: Triplet)
    requires x.span >= 1 && OrderedStamps(stamps)
    requires forall p :: p in stamps ==> !StampBlocks(p, x.row, x.startCellIndex, x.span)
    ensures RemoveEach(stamps, StampActions.IdOf,
                       IdsWhere(stamps, StampActions.IdOf, StampUnderTriplet(x.row, x.startCellIndex, x.span))) == stamps
  {
    forall p | p in stamps
      ensures !StampUnderTriplet(x.row, x.startCellIndex, x.span)(p)
    {
      StampBlocksIsUnder(p, x.row, x.startCellIndex, x.span);
    }
  }

  /**
   * `eraseTripletGroups`: removes every triplet in the area like `eraseTripletsInArea`, and returns
   * `true` exactly when the area held a triplet — the same new state and the same answer.
   */
  method EraseTripletGroups(s: Store, eraseStartCol: int, eraseEndCol: int, eraseStartRow: int, eraseEndRow: int)
    returns (removed: bool)
    modifies s`tripletPlacements
    ensures s.tripletPlacements ==
      RemoveEach(old(s.tripletPlacements), TripletActions.IdOf,
                 IdsWhere(old(s.tripletPlacements), TripletActions.IdOf,
                          InEraseCells(CellOf(eraseStartCol), CellOf(eraseEndCol), eraseStartRow, eraseEndRow)))
    ensures removed <==>
      exists t :: t in old(s.tripletPlacements) &&
        InEraseCells(CellOf(eraseStartCol), CellOf(eraseEndCol), eraseStartRow, eraseEndRow)(t)
  {
    var area := InEraseCells(CellOf(eraseStartCol), CellOf(eraseEndCol), eraseStartRow, eraseEndRow);
    ghost var start := s.tripletPlacements;
    var toRemove := CollectTripletIds(s, area);
    AnyRemovedWhere(start, TripletActions.IdOf, area);
    if |toRemove| == 0 {
      return false;
    }
    var _ := RemoveTripletPlacements(s, toRemove);
    return true;
  }
}
