/**
 * The application state the store actions read and write (the shared `store.state` object),
 * and the records kept in it: placed notes, tonic signs, stamp and triplet placements,
 * annotations, modulation markers.
 */
module StoreState {
  import opened Wrappers

  /** A note on the pitch grid; drum hits are notes with `isDrum` set. Columns are canvas-space. */
  datatype Note = Note(
    uuid: string,
    row: int,
    globalRow: Option<int>,
    startColumnIndex: int,
    endColumnIndex: int,
    shape: string,
    color: string,
    isDrum: bool,
    drumTrack: Option<int>)

  /** One sign of a tonic-sign group; `row` is `None` when it is not a number. */
  datatype TonicSign = TonicSign(
    columnIndex: int,
    row: Option<int>,
    globalRow: Option<int>,
    tonicNumber: Option<int>,
    preMacrobeatIndex: int,
    uuid: Option<string>)

  /** A rhythm stamp spanning two microbeat columns; an absent `shapeOffsets` is the empty map. */
  datatype Stamp = Stamp(
    id: string,
    stampId: int,
    startColumn: int,
    endColumn: int,
    row: int,
    globalRow: Option<int>,
    color: string,
    timestamp: int,
    shapeOffsets: map<string, int>)

  /** A triplet group occupying `span` cells (one cell is two microbeat columns) from `startCellIndex`. */
  datatype Triplet = Triplet(
    id: string,
    stampId: int,
    startCellIndex: int,
    span: int,
    row: int,
    globalRow: Option<int>,
    color: string,
    timestamp: int,
    shapeOffsets: map<string, int>)

  datatype ModulationMarker = ModulationMarker(
    id: string,
    measureIndex: int,
    ratio: real,
    columnIndex: Option<int>)

  /** An entry of an annotation's `data` object: an object with a (numeric or not) row, a list of such, or anything else. */
  datatype DataValue = RowObject(rowValue: Option<int>) | RowList(items: seq<Option<int>>) | NotRowData

  /**
   * The row-carrying parts of an annotation: the scalar row fields (`None` when not a number),
   * the `path` and `points` arrays (`None` when not an array; an entry is `None` when it has no numeric row)
   * and the values of its `data` object. `kind` stands for everything else it carries.
   */
  datatype Annotation = Annotation(
    kind: string,
    row: Option<int>,
    startRow: Option<int>,
    endRow: Option<int>,
    mouseRow: Option<int>,
    baseRow: Option<int>,
    path: Option<seq<Option<int>>>,
    points: Option<seq<Option<int>>>,
    data: seq<DataValue>)

  datatype PitchRange = PitchRange(topIndex: int, bottomIndex: int)

  /** The print options touched by a pitch-range change; the remaining options are not modelled. */
  datatype PrintOptions = PrintOptions(topRow: Option<int>, bottomRow: Option<int>)

  datatype Accidental = Flat | Sharp

  /** One row of the pitch table (`fullRowData` holds the rows of the active range). */
  datatype PitchRow = PitchRow(toneNote: string)

  /** The store's state object. */
  class Store {
    var placedNotes: seq<Note>
    var parkedNotes: seq<Note>
    var tonicSignGroups: map<string, seq<TonicSign>>
    var stampPlacements: seq<Stamp>
    var tripletPlacements: seq<Triplet>
    var annotations: seq<Annotation>
    var printOptions: Option<PrintOptions>
    var pitchRange: Option<PitchRange>
    var fullRowData: seq<PitchRow>
    var gridPosition: int
    var viewportRows: int
    var accidentalMode: map<Accidental, bool>
    var degreeDisplayMode: string
    var adsrTimeAxisScale: real
    var macrobeatGroupings: seq<int>
    var modulationMarkers: seq<ModulationMarker>
    var columnWidths: seq<real>
  }

  /** `this.state.pitchRange || { topIndex: 0, bottomIndex: fullRowData.length - 1 }`: the top of the active range. */
  function ActiveTop(s: Store): (top: int)
    reads s`pitchRange
    ensures s.pitchRange.None? ==> top == 0
    ensures s.pitchRange.Some? ==> top == s.pitchRange.value.topIndex
  {
    match s.pitchRange
    case None => 0
    case Some(r) => r.topIndex
  }
}
