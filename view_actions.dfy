/**
 * View actions (js/state/actions/viewActions.ts): the accidental toggle, the degree display mode,
 * the ADSR time-axis scale, the grid scroll position, and the pitch-range change that re-maps every
 * placed item into the new range.
 */
module ViewActions {
  import opened Wrappers
  import opened JsArrays
  import opened StoreState

  // ---------------------------------------------------------------------------------------------
  // Accidentals and display mode

  function OtherAccidental(a: Accidental): Accidental
  {
    if a == Flat then Sharp else Flat
  }

  /**
   * `toggleAccidentalMode`: an unknown key changes nothing; otherwise the key flips, and when that
   * would switch the last enabled accidental off, the other one is switched on.
   */
  function ToggledAccidentals(mode: map<Accidental, bool>, accidental: Accidental): (r: map<Accidental, bool>)
    ensures accidental !in mode ==> r == mode
    ensures accidental in mode ==>
      accidental in r && r[accidental] == !mode[accidental] &&
      (var other := OtherAccidental(accidental);
       (other in r && r[other]) == ((other in mode && mode[other]) || mode[accidental]))
    ensures accidental in mode ==> r[accidental] || (OtherAccidental(accidental) in r && r[OtherAccidental(accidental)])
    ensures r.Keys <= mode.Keys + {Flat, Sharp}
  {
    if accidental !in mode then mode
    else
      var currentValue := mode[accidental];
      var otherType := OtherAccidental(accidental);
      var otherValue := otherType in mode && mode[otherType];
      if currentValue && !otherValue then mode[otherType := true][accidental := false]
      else mode[accidental := !currentValue]
  }

  method ToggleAccidentalMode(s: Store, accidental: Accidental)
    modifies s`accidentalMode
    ensures s.accidentalMode == ToggledAccidentals(old(s.accidentalMode), accidental)
  {
    if accidental !in s.accidentalMode {
      return;
    }
    var currentValue := s.accidentalMode[accidental];
    var otherType := OtherAccidental(accidental);
    var otherValue := otherType in s.accidentalMode && s.accidentalMode[otherType];
    if currentValue && !otherValue {
      s.accidentalMode := s.accidentalMode[otherType := true];
      s.accidentalMode := s.accidentalMode[accidental := false];
    } else {
      s.accidentalMode := s.accidentalMode[accidental := !currentValue];
    }
  }

  /** `setDegreeDisplayMode`: choosing the mode already shown switches degrees off. */
  function NextDegreeMode(current: string, mode: string): (r: string)
    ensures current == mode ==> r == "off"
    ensures current != mode ==> r == mode
  {
    if current == mode then "off" else mode
  }

  /** Choosing the same mode twice from any other mode ends with degrees off; from that mode it ends showing it. */
  lemma DegreeModeTwice(current: string, mode: string)
    ensures current != mode && mode != "off" ==> NextDegreeMode(NextDegreeMode(current, mode), mode) == "off"
    ensures current == mode && mode != "off" ==> NextDegreeMode(NextDegreeMode(current, mode), mode) == mode
  {
  }

  method SetDegreeDisplayMode(s: Store, mode: string)
    modifies s`degreeDisplayMode
    ensures s.degreeDisplayMode == NextDegreeMode(old(s.degreeDisplayMode), mode)
  {
    s.degreeDisplayMode := if s.degreeDisplayMode == mode then "off" else mode;
  }

  // ---------------------------------------------------------------------------------------------
  // ADSR scale and grid position

  /** `Math.max(0.1, Math.min(5.0, scale))`. */
  function ClampScale(scale: real): (r: real)
    ensures 0.1 <= r <= 5.0
    ensures 0.1 <= scale <= 5.0 ==> r == scale
    ensures scale < 0.1 ==> r == 0.1
    ensures scale > 5.0 ==> r == 5.0
  {
    if scale > 5.0 then 5.0 else if scale < 0.1 then 0.1 else scale
  }

  method SetAdsrTimeAxisScale(s: Store, scale: real)
    modifies s`adsrTimeAxisScale
    ensures s.adsrTimeAxisScale == ClampScale(scale)
  {
    var clampedScale := if scale > 5.0 then 5.0 else if scale < 0.1 then 0.1 else scale;
    s.adsrTimeAxisScale := clampedScale;
  }

  /** `Math.max(0, Math.min(newPosition, maxPosition))`. */
  function ClampGridPosition(newPosition: int, maxPosition: int): (r: int)
    ensures 0 <= r
    ensures maxPosition >= 0 ==> r <= maxPosition
    ensures 0 <= newPosition <= maxPosition ==> r == newPosition
    ensures maxPosition < 0 ==> r == 0
  {
    if newPosition < maxPosition then (if newPosition < 0 then 0 else newPosition)
    else (if maxPosition < 0 then 0 else maxPosition)
  }

  /** The last scroll position: the rows of the table less twice the viewport's rows. */
  function MaxGridPosition(s: Store): int
    reads s
  {
    |s.fullRowData| - s.viewportRows * 2
  }

  method SetGridPosition(s: Store, newPosition: int)
    modifies s`gridPosition
    ensures s.gridPosition == ClampGridPosition(newPosition, MaxGridPosition(s))
  {
    var maxPosition := |s.fullRowData| - s.viewportRows * 2;
    var clampedPosition := if newPosition < maxPosition then (if newPosition < 0 then 0 else newPosition)
                           else (if maxPosition < 0 then 0 else maxPosition);
    if s.gridPosition != clampedPosition {
      s.gridPosition := clampedPosition;
    }
  }

  method ShiftGridUp(s: Store)
    modifies s`gridPosition
    ensures s.gridPosition == ClampGridPosition(old(s.gridPosition) - 1, MaxGridPosition(s))
  {
    SetGridPosition(s, s.gridPosition - 1);
  }

  method ShiftGridDown(s: Store)
    modifies s`gridPosition
    ensures s.gridPosition == ClampGridPosition(old(s.gridPosition) + 1, MaxGridPosition(s))
  {
    SetGridPosition(s, s.gridPosition + 1);
  }

  /** Scrolling down one row and back up returns to a position that was not the last one. */
  lemma ShiftDownThenUp(position: int, maxPosition: int)
    requires 0 <= position < maxPosition
    ensures ClampGridPosition(ClampGridPosition(position + 1, maxPosition) - 1, maxPosition) == position
  {
  }

  // ---------------------------------------------------------------------------------------------
  // Pitch range

  /** The `Partial<PitchRange>` argument of `setPitchRange`. */
  datatype PartialRange = PartialRange(topIndex: Option<int>, bottomIndex: Option<int>)

  /** `Math.max(0, Math.min(maxRow, value))`. */
  function ClampRow(value: int, maxRow: int): (r: int)
    requires maxRow >= 0
    ensures 0 <= r <= maxRow
    ensures 0 <= value <= maxRow ==> r == value
  {
    if value > maxRow then maxRow else if value < 0 then 0 else value
  }

  /**
   * The requested range, missing ends taken from the current range, clamped: the top into
   * `[0, totalRows - 1]`, the bottom into `[top, totalRows - 1]`.
   */
  function ClampedRange(range: PartialRange, oldRange: PitchRange, totalRows: int): (r: PitchRange)
    requires totalRows > 0
    ensures 0 <= r.topIndex <= r.bottomIndex <= totalRows - 1
    ensures var requestedTop := range.topIndex.GetOr(oldRange.topIndex);
      0 <= requestedTop <= totalRows - 1 ==> r.topIndex == requestedTop
    ensures var requestedBottom := range.bottomIndex.GetOr(oldRange.bottomIndex);
      r.topIndex <= requestedBottom <= totalRows - 1 ==> r.bottomIndex == requestedBottom
  {
    var requestedTop := range.topIndex.GetOr(oldRange.topIndex);
    var requestedBottom := range.bottomIndex.GetOr(oldRange.bottomIndex);
    var newTopIndex := ClampRow(requestedTop, totalRows - 1);
    var low := if requestedBottom < totalRows - 1 then requestedBottom else totalRows - 1;
    var newBottomIndex := if low < newTopIndex then newTopIndex else low;
    PitchRange(newTopIndex, newBottomIndex)
  }

  /** Clamping a range that is already valid gives it back. */
  lemma ClampedRangeOfValid(r: PitchRange, anyRange: PitchRange, totalRows: int)
    requires 0 <= r.topIndex <= r.bottomIndex < totalRows
    ensures ClampedRange(PartialRange(Some(r.topIndex), Some(r.bottomIndex)), anyRange, totalRows) == r
  {
  }

  /** `this.state.pitchRange || { topIndex: 0, bottomIndex: totalRows - 1 }`. */
  function CurrentRange(pitchRange: Option<PitchRange>, totalRows: int): PitchRange
  {
    pitchRange.GetOr(PitchRange(0, totalRows - 1))
  }

  /** A note's row in the full pitch table: its stored `globalRow`, else its row offset by the old top. */
  function NoteGlobalRow(note: Note, oldTop: int): int
  {
    note.globalRow.GetOr(note.row + oldTop)
  }

  predicate OutsideRange(globalRow: int, range: PitchRange)
  {
    globalRow < range.topIndex || globalRow > range.bottomIndex
  }

  /** The notes the `combinedNotes.forEach` pushes onto `nextPlacedNotes`: drum notes, and in-range notes re-rowed. */
  function RemappedPlaced(notes: seq<Note>, oldTop: int, newRange: PitchRange): (r: seq<Note>)
    requires newRange.topIndex <= newRange.bottomIndex
    ensures |r| <= |notes|
  {
    if notes == [] then []
    else
      var rest := RemappedPlaced(notes[..|notes| - 1], oldTop, newRange);
      var note := notes[|notes| - 1];
      if note.isDrum then rest + [note]
      else
        var globalRow := NoteGlobalRow(note, oldTop);
        var mappedRow := ClampRow(globalRow - newRange.topIndex, newRange.bottomIndex - newRange.topIndex);
        if OutsideRange(globalRow, newRange) then rest
        else rest + [note.(globalRow := Some(globalRow), row := mappedRow)]
  }

  /**
   * Every melodic note left on the grid has its global row inside the new range and sits at that row
   * less the new top; every drum note is kept unchanged.
   */
  lemma {:induction false} PlacedNotesInRange(notes: seq<Note>, oldTop: int, newRange: PitchRange)
    requires newRange.topIndex <= newRange.bottomIndex
    ensures forall m :: m in RemappedPlaced(notes, oldTop, newRange) && !m.isDrum ==>
      m.globalRow.Some? && !OutsideRange(m.globalRow.value, newRange) &&
      m.row == m.globalRow.value - newRange.topIndex
    ensures forall n :: n in notes && n.isDrum ==> n in RemappedPlaced(notes, oldTop, newRange)
  {
    if notes != [] {
      var init := notes[..|notes| - 1];
      PlacedNotesInRange(init, oldTop, newRange);
      assert forall n :: n in notes ==> n in init || n == notes[|notes| - 1];
    }
  }

  /** The notes pushed onto `nextParkedNotes`: out-of-range melodic notes, kept only when not trimming. */
  function RemappedParked(notes: seq<Note>, oldTop: int, newRange: PitchRange, shouldTrim: bool): (r: seq<Note>)
    ensures shouldTrim ==> r == []
    ensures |r| <= |notes|
  {
    if notes == [] then []
    else
      var rest := RemappedParked(notes[..|notes| - 1], oldTop, newRange, shouldTrim);
      var note := notes[|notes| - 1];
      var globalRow := NoteGlobalRow(note, oldTop);
      if note.isDrum || !OutsideRange(globalRow, newRange) || shouldTrim then rest
      else rest + [note.(globalRow := Some(globalRow))]
  }

  /** Every parked note is a melodic note whose recorded global row lies outside the new range. */
  lemma {:induction false} ParkedNotesOutside(notes: seq<Note>, oldTop: int, newRange: PitchRange, shouldTrim: bool)
    ensures forall m :: m in RemappedParked(notes, oldTop, newRange, shouldTrim) ==>
      !m.isDrum && m.globalRow.Some? && OutsideRange(m.globalRow.value, newRange)
  {
    if notes != [] {
      ParkedNotesOutside(notes[..|notes| - 1], oldTop, newRange, shouldTrim);
    }
  }

  /** Without trimming no note is lost: every note ends up placed or parked. */
  lemma {:induction false} RemapKeepsEveryNote(notes: seq<Note>, oldTop: int, newRange: PitchRange)
    requires newRange.topIndex <= newRange.bottomIndex
    ensures |RemappedPlaced(notes, oldTop, newRange)| + |RemappedParked(notes, oldTop, newRange, false)| == |notes|
  {
    if notes != [] {
      RemapKeepsEveryNote(notes[..|notes| - 1], oldTop, newRange);
    }
  }

  /** The notes parked when not trimming are one per out-of-range melodic note; trimming drops them all. */
  lemma {:induction false} ParkedCount(notes: seq<Note>, oldTop: int, newRange: PitchRange)
    ensures |RemappedParked(notes, oldTop, newRange, false)| == |Filter(notes, OutOfRangeMelodic(oldTop, newRange))|
  {
    if notes != [] {
      var init := notes[..|notes| - 1];
      ParkedCount(init, oldTop, newRange);
      FilterSnoc(init, notes[|notes| - 1], OutOfRangeMelodic(oldTop, newRange));
      assert init + [notes[|notes| - 1]] == notes;
    }
  }

  function OutOfRangeMelodic(oldTop: int, newRange: PitchRange): Note -> bool
  {
    (n: Note) => !n.isDrum && OutsideRange(NoteGlobalRow(n, oldTop), newRange)
  }

  /** The `combinedNotes.forEach` loop: the combined notes sorted into the next placed and parked lists. */
  method RemapNotes(combinedNotes: seq<Note>, oldTop: int, newRange: PitchRange, shouldTrim: bool)
    returns (nextPlacedNotes: seq<Note>, nextParkedNotes: seq<Note>)
    requires newRange.topIndex <= newRange.bottomIndex
    ensures nextPlacedNotes == RemappedPlaced(combinedNotes, oldTop, newRange)
    ensures nextParkedNotes == RemappedParked(combinedNotes, oldTop, newRange, shouldTrim)
  {
    var maxRowIndex := newRange.bottomIndex - newRange.topIndex;
    nextPlacedNotes := [];
    nextParkedNotes := [];
    var i := 0;
    while i < |combinedNotes|
      invariant 0 <= i <= |combinedNotes|
      invariant nextPlacedNotes == RemappedPlaced(combinedNotes[..i], oldTop, newRange)
      invariant nextParkedNotes == RemappedParked(combinedNotes[..i], oldTop, newRange, shouldTrim)
    {
      var note := combinedNotes[i];
      assert combinedNotes[..i + 1][..i] == combinedNotes[..i];
      assert combinedNotes[..i + 1][i] == note;
      if note.isDrum {
        nextPlacedNotes := nextPlacedNotes + [note];
      } else {
        var globalRow := if note.globalRow.Some? then note.globalRow.value else note.row + oldTop;
        note := note.(globalRow := Some(globalRow));
        var relativeRow := globalRow - newRange.topIndex;
        var mappedRow := ClampRow(relativeRow, maxRowIndex);
        var outsideRange := globalRow < newRange.topIndex || globalRow > newRange.bottomIndex;
        if outsideRange && shouldTrim {
        } else if outsideRange {
          nextParkedNotes := nextParkedNotes + [note];
        } else {
          note := note.(row := mappedRow);
          nextPlacedNotes := nextPlacedNotes + [note];
        }
      }
      i := i + 1;
    }
    assert combinedNotes[..i] == combinedNotes;
  }

  /** One sign of a group in the new range: dropped when its row is not a number or it is trimmed, else re-rowed. */
  function SignRemap(oldTop: int, newRange: PitchRange, shouldTrim: bool): TonicSign -> Option<TonicSign>
    requires newRange.topIndex <= newRange.bottomIndex
  {
    (sign: TonicSign) =>
      match sign.row
      case None => None
      case Some(row) =>
        var globalRow := row + oldTop;
        if OutsideRange(globalRow, newRange) && shouldTrim then None
        else Some(sign.(row := Some(ClampRow(globalRow - newRange.topIndex, newRange.bottomIndex - newRange.topIndex))))
  }

  /** The tonic groups after the range change: each group's surviving signs; groups left empty are dropped. */
  function RemappedTonicGroups(groups: map<string, seq<TonicSign>>, oldTop: int, newRange: PitchRange,
                               shouldTrim: bool): (r: map<string, seq<TonicSign>>)
    requires newRange.topIndex <= newRange.bottomIndex
    ensures r.Keys <= groups.Keys
    ensures forall k :: k in r ==> 0 < |r[k]| <= |groups[k]|
  {
    var f := SignRemap(oldTop, newRange, shouldTrim);
    map k | k in groups && |FilterMap(groups[k], f)| > 0 :: FilterMap(groups[k], f)
  }

  /**
   * Every sign left after the range change has a numeric row inside the new range's rows, and is a
   * sign of the same group with only its row changed.
   */
  lemma TonicGroupRows(groups: map<string, seq<TonicSign>>, oldTop: int, newRange: PitchRange, shouldTrim: bool,
                       k: string, j: int)
    requires newRange.topIndex <= newRange.bottomIndex
    requires k in RemappedTonicGroups(groups, oldTop, newRange, shouldTrim)
    requires 0 <= j < |RemappedTonicGroups(groups, oldTop, newRange, shouldTrim)[k]|
    ensures var sign := RemappedTonicGroups(groups, oldTop, newRange, shouldTrim)[k][j];
      sign.row.Some? && 0 <= sign.row.value <= newRange.bottomIndex - newRange.topIndex &&
      exists i :: 0 <= i < |groups[k]| && groups[k][i].(row := sign.row) == sign
  {
    var f := SignRemap(oldTop, newRange, shouldTrim);
    FilterMapSource(groups[k], f, j);
  }

  /** A stamp or triplet row: its `globalRow`, else its row offset by the old top. */
  function PlacementRemap(row: int, globalRow: Option<int>, oldTop: int, newRange: PitchRange,
                          shouldTrim: bool): (r: Option<(int, int)>)
    ensures r.Some? ==> r.value.0 == globalRow.GetOr(row + oldTop) && r.value.1 == r.value.0 - newRange.topIndex
    ensures r.None? <==> shouldTrim && OutsideRange(globalRow.GetOr(row + oldTop), newRange)
  {
    var g := globalRow.GetOr(row + oldTop);
    if OutsideRange(g, newRange) && shouldTrim then None else Some((g, g - newRange.topIndex))
  }

  function StampRemap(oldTop: int, newRange: PitchRange, shouldTrim: bool): Stamp -> Option<Stamp>
  {
    (p: Stamp) =>
      match PlacementRemap(p.row, p.globalRow, oldTop, newRange, shouldTrim)
      case None => None
      case Some(rows) => Some(p.(globalRow := Some(rows.0), row := rows.1))
  }

  function TripletRemap(oldTop: int, newRange: PitchRange, shouldTrim: bool): Triplet -> Option<Triplet>
  {
    (p: Triplet) =>
      match PlacementRemap(p.row, p.globalRow, oldTop, newRange, shouldTrim)
      case None => None
      case Some(rows) => Some(p.(globalRow := Some(rows.0), row := rows.1))
  }

  /**
   * The stamps after the range change: each keeps its global row and is re-rowed relative to the new
   * top without clamping; when trimming, exactly the in-range ones stay, and otherwise all of them.
   */
  lemma RemappedStampRows(stamps: seq<Stamp>, oldTop: int, newRange: PitchRange, shouldTrim: bool)
    ensures var r := FilterMap(stamps, StampRemap(oldTop, newRange, shouldTrim));
      (forall j :: 0 <= j < |r| ==>
        r[j].globalRow.Some? && r[j].row == r[j].globalRow.value - newRange.topIndex &&
        (shouldTrim ==> !OutsideRange(r[j].globalRow.value, newRange))) &&
      (!shouldTrim ==> |r| == |stamps|)
  {
    var f := StampRemap(oldTop, newRange, shouldTrim);
    forall j | 0 <= j < |FilterMap(stamps, f)|
      ensures exists i :: 0 <= i < |stamps| && f(stamps[i]) == Some(FilterMap(stamps, f)[j])
    {
      FilterMapSource(stamps, f, j);
    }
    if !shouldTrim {
      forall i | 0 <= i < |stamps|
        ensures f(stamps[i]).Some?
      {
        var p := stamps[i];
        assert PlacementRemap(p.row, p.globalRow, oldTop, newRange, shouldTrim).Some?;
      }
    }
  }

  /** The triplets after the range change, as for stamps. */
  lemma RemappedTripletRows(triplets: seq<Triplet>, oldTop: int, newRange: PitchRange, shouldTrim: bool)
    ensures var r := FilterMap(triplets, TripletRemap(oldTop, newRange, shouldTrim));
      (forall j :: 0 <= j < |r| ==>
        r[j].globalRow.Some? && r[j].row == r[j].globalRow.value - newRange.topIndex &&
        (shouldTrim ==> !OutsideRange(r[j].globalRow.value, newRange))) &&
      (!shouldTrim ==> |r| == |triplets|)
  {
    var f := TripletRemap(oldTop, newRange, shouldTrim);
    forall j | 0 <= j < |FilterMap(triplets, f)|
      ensures exists i :: 0 <= i < |triplets| && f(triplets[i]) == Some(FilterMap(triplets, f)[j])
    {
      FilterMapSource(triplets, f, j);
    }
    if !shouldTrim {
      forall i | 0 <= i < |triplets|
        ensures f(triplets[i]).Some?
      {
        var p := triplets[i];
        assert PlacementRemap(p.row, p.globalRow, oldTop, newRange, shouldTrim).Some?;
      }
    }
  }

  /** The print rows moved by the range shift and clamped into the new table, bottom not above top. */
  function RemappedPrintOptions(options: Option<PrintOptions>, oldTop: int, newRange: PitchRange): (r: Option<PrintOptions>)
    requires newRange.topIndex <= newRange.bottomIndex
    ensures r.Some? <==> options.Some?
    ensures r.Some? ==>
      r.value.topRow.Some? && r.value.bottomRow.Some? &&
      0 <= r.value.topRow.value <= r.value.bottomRow.value <= newRange.bottomIndex - newRange.topIndex
    ensures r.Some? ==>
      var maxRow := newRange.bottomIndex - newRange.topIndex;
      var top := options.value.topRow.GetOr(0) + oldTop - newRange.topIndex;
      0 <= top <= maxRow ==> r.value.topRow == Some(top)
  {
    match options
    case None => None
    case Some(po) =>
      var maxRowIndex := newRange.bottomIndex - newRange.topIndex;
      var currentTop := po.topRow.GetOr(0);
      var currentBottom := po.bottomRow.GetOr(maxRowIndex);
      var offset := oldTop - newRange.topIndex;
      var adjustedTop := ClampRow(currentTop + offset, maxRowIndex);
      var low := if currentBottom + offset < maxRowIndex then currentBottom + offset else maxRowIndex;
      var adjustedBottom := if low < adjustedTop then adjustedTop else low;
      Some(po.(topRow := Some(adjustedTop), bottomRow := Some(adjustedBottom)))
  }

  // ---------------------------------------------------------------------------------------------
  // remapAnnotation

  /** The scan of an annotation's rows: whether any row was found, and whether any lay in the new range. */
  datatype RowScan = RowScan(hasRowData: bool, hasRowWithinRange: bool)

  function Within(row: int, oldTop: int, newRange: PitchRange): bool
  {
    !OutsideRange(row + oldTop, newRange)
  }

  function RemapRow(row: int, oldTop: int, newRange: PitchRange): (r: int)
    requires newRange.topIndex <= newRange.bottomIndex
    ensures 0 <= r <= newRange.bottomIndex - newRange.topIndex
    ensures Within(row, oldTop, newRange) ==> r == row + oldTop - newRange.topIndex
  {
    ClampRow(row + oldTop - newRange.topIndex, newRange.bottomIndex - newRange.topIndex)
  }

  function RemapOptionalRow(row: Option<int>, oldTop: int, newRange: PitchRange): Option<int>
    requires newRange.topIndex <= newRange.bottomIndex
  {
    match row
    case None => None
    case Some(v) => Some(RemapRow(v, oldTop, newRange))
  }

  function RemapRowList(rows: seq<Option<int>>, oldTop: int, newRange: PitchRange): (r: seq<Option<int>>)
    requires newRange.topIndex <= newRange.bottomIndex
    ensures |r| == |rows|
    ensures forall i :: 0 <= i < |rows| ==> r[i] == RemapOptionalRow(rows[i], oldTop, newRange)
  {
    seq(|rows|, i requires 0 <= i < |rows| => RemapOptionalRow(rows[i], oldTop, newRange))
  }

  function RemapDataValue(value: DataValue, oldTop: int, newRange: PitchRange): DataValue
    requires newRange.topIndex <= newRange.bottomIndex
  {
    match value
    case RowObject(row) => RowObject(RemapOptionalRow(row, oldTop, newRange))
    case RowList(items) => RowList(RemapRowList(items, oldTop, newRange))
    case NotRowData => NotRowData
  }

  /** Some entry of `rows` is a number. */
  predicate AnyRow(rows: seq<Option<int>>)
  {
    exists i :: 0 <= i < |rows| && rows[i].Some?
  }

  /** Some entry of `rows` is a number that lands in the new range. */
  predicate AnyRowWithin(rows: seq<Option<int>>, oldTop: int, newRange: PitchRange)
  {
    exists i :: 0 <= i < |rows| && rows[i].Some? && Within(rows[i].value, oldTop, newRange)
  }

  /** The rows of one `data` value, as a list. */
  function DataRows(value: DataValue): seq<Option<int>>
  {
    match value
    case RowObject(row) => [row]
    case RowList(items) => items
    case NotRowData => []
  }

  /** The scalar row fields of an annotation. */
  function ScalarRows(a: Annotation): seq<Option<int>>
  {
    [a.row, a.startRow, a.endRow, a.mouseRow, a.baseRow]
  }

  /**
   * Whether an annotation carries row data: a numeric scalar row, a non-empty `path` or `points`
   * array (even one without numeric rows), or a numeric row in its `data`.
   */
  predicate HasRowData(a: Annotation)
  {
    AnyRow(ScalarRows(a)) ||
    (a.path.Some? && |a.path.value| > 0) ||
    (a.points.Some? && |a.points.value| > 0) ||
    exists k :: 0 <= k < |a.data| && AnyRow(DataRows(a.data[k]))
  }

  /** Whether some numeric row of the annotation lands in the new range. */
  predicate HasRowWithin(a: Annotation, oldTop: int, newRange: PitchRange)
  {
    AnyRowWithin(ScalarRows(a), oldTop, newRange) ||
    (a.path.Some? && AnyRowWithin(a.path.value, oldTop, newRange)) ||
    (a.points.Some? && AnyRowWithin(a.points.value, oldTop, newRange)) ||
    exists k :: 0 <= k < |a.data| && AnyRowWithin(DataRows(a.data[k]), oldTop, newRange)
  }

  /** Every numeric row of the annotation lies in `[0, maxRow]`. */
  predicate RowsIn(a: Annotation, maxRow: int)
  {
    (forall r :: r in ScalarRows(a) && r.Some? ==> 0 <= r.value <= maxRow) &&
    (a.path.Some? ==> forall r :: r in a.path.value && r.Some? ==> 0 <= r.value <= maxRow) &&
    (a.points.Some? ==> forall r :: r in a.points.value && r.Some? ==> 0 <= r.value <= maxRow) &&
    (forall k, r :: 0 <= k < |a.data| && r in DataRows(a.data[k]) && r.Some? ==> 0 <= r.value <= maxRow)
  }

  function RemapRowsInPlace(rows: Option<seq<Option<int>>>, oldTop: int, newRange: PitchRange): Option<seq<Option<int>>>
    requires newRange.topIndex <= newRange.bottomIndex
  {
    match rows
    case None => None
    case Some(list) => Some(RemapRowList(list, oldTop, newRange))
  }

  function RemapData(data: seq<DataValue>, oldTop: int, newRange: PitchRange): (r: seq<DataValue>)
    requires newRange.topIndex <= newRange.bottomIndex
    ensures |r| == |data|
    ensures forall k :: 0 <= k < |data| ==> r[k] == RemapDataValue(data[k], oldTop, newRange)
  {
    seq(|data|, k requires 0 <= k < |data| => RemapDataValue(data[k], oldTop, newRange))
  }

  /**
   * `remapAnnotation`: every numeric row is moved from the old range into the new one and clamped
   * into `[0, newBottom - newTop]`; the flag says whether to keep the annotation: it has no row data,
   * or some row landed in the new range.
   */
  function RemapAnnotation(a: Annotation, oldRange: PitchRange, newRange: PitchRange): (r: (Annotation, bool))
    requires newRange.topIndex <= newRange.bottomIndex
    ensures RowsIn(r.0, newRange.bottomIndex - newRange.topIndex)
    ensures r.0.kind == a.kind
    ensures r.1 <==> !HasRowData(a) || HasRowWithin(a, oldRange.topIndex, newRange)
  {
    var oldTop := oldRange.topIndex;
    var remapped := Annotation(
      a.kind,
      RemapOptionalRow(a.row, oldTop, newRange),
      RemapOptionalRow(a.startRow, oldTop, newRange),
      RemapOptionalRow(a.endRow, oldTop, newRange),
      RemapOptionalRow(a.mouseRow, oldTop, newRange),
      RemapOptionalRow(a.baseRow, oldTop, newRange),
      RemapRowsInPlace(a.path, oldTop, newRange),
      RemapRowsInPlace(a.points, oldTop, newRange),
      RemapData(a.data, oldTop, newRange));
    assert RowsIn(remapped, newRange.bottomIndex - newRange.topIndex) by {
      forall k, r | 0 <= k < |remapped.data| && r in DataRows(remapped.data[k]) && r.Some?
        ensures 0 <= r.value <= newRange.bottomIndex - newRange.topIndex
      {
        var i :| 0 <= i < |DataRows(remapped.data[k])| && DataRows(remapped.data[k])[i] == r;
        assert remapped.data[k] == RemapDataValue(a.data[k], oldTop, newRange);
      }
    }
    (remapped, !HasRowData(a) || HasRowWithin(a, oldTop, newRange))
  }

  /** Re-mapping into the range the rows already belong to changes no row that is in bounds. */
  lemma RemapAnnotationSameRange(a: Annotation, range: PitchRange)
    requires range.topIndex <= range.bottomIndex
    requires RowsIn(a, range.bottomIndex - range.topIndex)
    ensures RemapAnnotation(a, range, range).0 == a
  {
    var top := range.topIndex;
    var maxRow := range.bottomIndex - range.topIndex;
    forall r: Option<int> | r.Some? && 0 <= r.value <= maxRow
      ensures RemapOptionalRow(r, top, range) == r
    {
    }
    assert ScalarRows(a)[0] == a.row && ScalarRows(a)[1] == a.startRow && ScalarRows(a)[2] == a.endRow;
    assert ScalarRows(a)[3] == a.mouseRow && ScalarRows(a)[4] == a.baseRow;
    if a.path.Some? {
      assert RemapRowList(a.path.value, top, range) == a.path.value;
    }
    if a.points.Some? {
      assert RemapRowList(a.points.value, top, range) == a.points.value;
    }
    forall k | 0 <= k < |a.data|
      ensures RemapDataValue(a.data[k], top, range) == a.data[k]
    {
      match a.data[k]
      case RowObject(row) =>
        assert row in DataRows(a.data[k]);
      case RowList(items) =>
        forall i | 0 <= i < |items|
          ensures RemapOptionalRow(items[i], top, range) == items[i]
        {
          assert items[i] in DataRows(a.data[k]);
        }
      case NotRowData =>
    }
    assert RemapData(a.data, top, range) == a.data;
  }

  /** The annotation list after the range change: when trimming only the kept ones remain, all re-mapped. */
  function AnnotationRemap(oldRange: PitchRange, newRange: PitchRange, shouldTrim: bool): Annotation -> Option<Annotation>
    requires newRange.topIndex <= newRange.bottomIndex
  {
    (a: Annotation) =>
      var r := RemapAnnotation(a, oldRange, newRange);
      if shouldTrim && !r.1 then None else Some(r.0)
  }

  // ---------------------------------------------------------------------------------------------
  // setPitchRange

  /** The range `setPitchRange` settles on, or `None` when it returns early. */
  function NewPitchRange(pitchRange: Option<PitchRange>, range: Option<PartialRange>, totalRows: int): (r: Option<PitchRange>)
    ensures r.Some? ==> 0 <= r.value.topIndex <= r.value.bottomIndex < totalRows
    ensures r.Some? ==> r.value != CurrentRange(pitchRange, totalRows)
    ensures r.None? <==>
      range.None? || totalRows <= 0 ||
      ClampedRange(range.value, CurrentRange(pitchRange, totalRows), totalRows) == CurrentRange(pitchRange, totalRows)
  {
    if range.None? || totalRows <= 0 then None
    else
      var newRange := ClampedRange(range.value, CurrentRange(pitchRange, totalRows), totalRows);
      if newRange == CurrentRange(pitchRange, totalRows) then None else Some(newRange)
  }

  /** The part of the state a pitch-range change rewrites. */
  datatype RangeContent = RangeContent(placedNotes: seq<Note>, parkedNotes: seq<Note>,
                                       tonicSignGroups: map<string, seq<TonicSign>>, stampPlacements: seq<Stamp>,
                                       tripletPlacements: seq<Triplet>, annotations: seq<Annotation>,
                                       printOptions: Option<PrintOptions>, pitchRange: Option<PitchRange>,
                                       fullRowData: seq<PitchRow>)

  /** What the state holds of the fields a pitch-range change rewrites. */
  function Content(s: Store): RangeContent
    reads s
  {
    RangeContent(s.placedNotes, s.parkedNotes, s.tonicSignGroups, s.stampPlacements, s.tripletPlacements,
                 s.annotations, s.printOptions, s.pitchRange, s.fullRowData)
  }

  /**
   * The content after a change from `oldRange` to `newRange`: placed and parked notes re-sorted and
   * re-mapped, tonic signs, stamps, triplets and annotations re-mapped (and trimmed when
   * `shouldTrim`), the print rows moved, and the new range with its rows stored.
   */
  function RangeApplied(c: RangeContent, oldRange: PitchRange, newRange: PitchRange, shouldTrim: bool,
                        newFullRowData: seq<PitchRow>): RangeContent
    requires newRange.topIndex <= newRange.bottomIndex
  {
    var combined := c.placedNotes + c.parkedNotes;
    RangeContent(RemappedPlaced(combined, oldRange.topIndex, newRange),
                 RemappedParked(combined, oldRange.topIndex, newRange, shouldTrim),
                 RemappedTonicGroups(c.tonicSignGroups, oldRange.topIndex, newRange, shouldTrim),
                 FilterMap(c.stampPlacements, StampRemap(oldRange.topIndex, newRange, shouldTrim)),
                 FilterMap(c.tripletPlacements, TripletRemap(oldRange.topIndex, newRange, shouldTrim)),
                 FilterMap(c.annotations, AnnotationRemap(oldRange, newRange, shouldTrim)),
                 RemappedPrintOptions(c.printOptions, oldRange.topIndex, newRange),
                 Some(newRange), newFullRowData)
  }

  /** Writes a rewritten content back into the state. */
  method StoreContent(s: Store, c: RangeContent)
    modifies s`placedNotes, s`parkedNotes, s`tonicSignGroups, s`stampPlacements, s`tripletPlacements,
             s`annotations, s`printOptions, s`pitchRange, s`fullRowData
    ensures Content(s) == c
  {
    s.placedNotes, s.parkedNotes := c.placedNotes, c.parkedNotes;
    s.tonicSignGroups, s.stampPlacements, s.tripletPlacements := c.tonicSignGroups, c.stampPlacements, c.tripletPlacements;
    s.annotations, s.printOptions := c.annotations, c.printOptions;
    s.pitchRange := c.pitchRange;
    s.fullRowData := c.fullRowData;
  }

  /** The part of `setPitchRange` after the early returns: every list re-mapped into `newRange`. */
  method ApplyPitchRange(s: Store, oldRange: PitchRange, newRange: PitchRange, shouldTrim: bool,
                         newFullRowData: seq<PitchRow>)
    requires newRange.topIndex <= newRange.bottomIndex
    modifies s`placedNotes, s`parkedNotes, s`tonicSignGroups, s`stampPlacements, s`tripletPlacements,
             s`annotations, s`printOptions, s`pitchRange, s`fullRowData
    ensures Content(s) == RangeApplied(old(Content(s)), oldRange, newRange, shouldTrim, newFullRowData)
  {
    var nextPlacedNotes, nextParkedNotes := RemapNotes(s.placedNotes + s.parkedNotes, oldRange.topIndex, newRange, shouldTrim);
    var updatedGroups := RemappedTonicGroups(s.tonicSignGroups, oldRange.topIndex, newRange, shouldTrim);
    var stamps := FilterMap(s.stampPlacements, StampRemap(oldRange.topIndex, newRange, shouldTrim));
    var triplets := FilterMap(s.tripletPlacements, TripletRemap(oldRange.topIndex, newRange, shouldTrim));
    var annotations := FilterMap(s.annotations, AnnotationRemap(oldRange, newRange, shouldTrim));
    var printOptions := RemappedPrintOptions(s.printOptions, oldRange.topIndex, newRange);
    StoreContent(s, RangeContent(nextPlacedNotes, nextParkedNotes, updatedGroups, stamps, triplets, annotations,
                                 printOptions, Some(newRange), newFullRowData));
  }

  /** The rows of the pitch table inside `range`: `masterRowData.slice(topIndex, bottomIndex + 1)`. */
  function RowsOf(masterRowData: seq<PitchRow>, range: PitchRange): (r: seq<PitchRow>)
    requires 0 <= range.topIndex <= range.bottomIndex < |masterRowData|
    ensures |r| == range.bottomIndex - range.topIndex + 1
    ensures forall k :: 0 <= k < |r| ==> r[k] == masterRowData[range.topIndex + k]
  {
    masterRowData[range.topIndex..range.bottomIndex + 1]
  }

  /**
   * `setPitchRange`: clamp the requested range; with no range, an empty pitch table or an unchanged
   * range nothing happens. Otherwise notes are sorted into placed and parked, tonic signs, stamps,
   * triplets and annotations are re-mapped (and trimmed when `trimOutsideRange && !preserveContent`),
   * the print rows follow, and the active range and its slice of the pitch table are stored.
   */
  method SetPitchRange(s: Store, range: Option<PartialRange>, trimOutsideRange: bool, preserveContent: bool,
                       masterRowData: seq<PitchRow>)
    modifies s`placedNotes, s`parkedNotes, s`tonicSignGroups, s`stampPlacements, s`tripletPlacements,
             s`annotations, s`printOptions, s`pitchRange, s`fullRowData
    ensures var nr := NewPitchRange(old(s.pitchRange), range, |masterRowData|);
      nr.None? ==> Content(s) == old(Content(s))
    ensures var nr := NewPitchRange(old(s.pitchRange), range, |masterRowData|);
      nr.Some? ==>
        Content(s) == RangeApplied(old(Content(s)), CurrentRange(old(s.pitchRange), |masterRowData|), nr.value,
                                   trimOutsideRange && !preserveContent,
                                   RowsOf(masterRowData, nr.value))
  {
    var shouldTrim := trimOutsideRange && !preserveContent;
    var totalRows := |masterRowData|;
    var oldRange := CurrentRange(s.pitchRange, totalRows);
    // the clamping, and the early returns for no range, an empty table and an unchanged range
    var next := NewPitchRange(s.pitchRange, range, totalRows);
    if next.None? {
      return;
    }
    var newRange := next.value;
    var rows := RowsOf(masterRowData, newRange);
    ApplyPitchRange(s, oldRange, newRange, shouldTrim, rows);
  }
}
