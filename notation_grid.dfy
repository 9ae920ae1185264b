/**
 * The original single-page notation grid: notes placed on a window of `logicRows` pitch rows that
 * scrolls over the full pitch table, their plain-text export (`row,start,end,color` per line) and
 * import.
 */
module NotationGrid {
  import opened Wrappers
  import opened JsText
  import opened JsArrays

  /**
   * `{ row, rowIndex, startColumnIndex, endColumnIndex, color }`: `row` is the row in the full
   * pitch table, `rowIndex` its row in the visible window (absent until the window is adjusted).
   */
  datatype GridNote = GridNote(row: int, rowIndex: Option<int>, startColumnIndex: int, endColumnIndex: int, color: string)

  /** `mod(n, m)`: `((n % m) + m) % m` with JavaScript's remainder. */
  function Mod(n: int, m: int): (r: int)
    requires m != 0
    ensures m > 0 ==> 0 <= r < m && r == n % m
  {
    if m > 0 then JsRemNormalised(n, m); JsRem(JsRem(n, m) + m, m)
    else JsRem(JsRem(n, m) + m, m)
  }

  /** One line of the export: `${row},${startColumnIndex},${endColumnIndex},${color}`. */
  function NoteLine(note: GridNote): string
  {
    Join([IntToString(note.row), IntToString(note.startColumnIndex), IntToString(note.endColumnIndex), note.color], ',')
  }

  function NoteLines(notes: seq<GridNote>): (r: seq<string>)
    ensures |r| == |notes| && forall i :: 0 <= i < |r| ==> r[i] == NoteLine(notes[i])
  {
    if notes == [] then [] else [NoteLine(notes[0])] + NoteLines(notes[1..])
  }

  /**
   * `exportNotes`: the text written to `notation.txt`, one line per note joined with newlines, so
   * that splitting it at newlines gives the lines back when no line holds a newline.
   */
  function ExportText(notes: seq<GridNote>): (r: string)
    ensures notes == [] ==> r == ""
    ensures notes != [] && (forall i :: 0 <= i < |notes| ==> '\n' !in NoteLine(notes[i])) ==>
      Split(r, '\n') == NoteLines(notes)
  {
    var lines := NoteLines(notes);
    if notes != [] && (forall i :: 0 <= i < |notes| ==> '\n' !in NoteLine(notes[i])) then
      SplitJoin(lines, '\n');
      Join(lines, '\n')
    else
      Join(lines, '\n')
  }

  /** The `k`-th comma-separated field of a line, absent (`undefined`) past the last one. */
  function Field(parts: seq<string>, k: nat): string
  {
    if k < |parts| then parts[k] else ""
  }

  /**
   * One line of `parseImportedNotes`: three integers and a colour (the default colour when missing
   * or empty); `None` when a number is missing, the row is not below the bound `rowCount`, or the
   * columns are outside the grid or reversed. The source bounds the row by the window's
   * `logicRows`; the grid below uses the full table's row count (see `Grid.ParseImportedNotes`).
   */
  function ParseLine(line: string, rowCount: int, columnCount: int, defaultColor: string): (r: Option<GridNote>)
    ensures r.Some? ==>
      0 <= r.value.row < rowCount &&
      0 <= r.value.startColumnIndex <= r.value.endColumnIndex < columnCount &&
      r.value.rowIndex.None? &&
      (defaultColor != "" ==> r.value.color != "")
  {
    var parts := Split(line, ',');
    var row := ParseInt(Field(parts, 0));
    var startColumnIndex := ParseInt(Field(parts, 1));
    var endColumnIndex := ParseInt(Field(parts, 2));
    var color := Field(parts, 3);
    if row.None? || startColumnIndex.None? || endColumnIndex.None? ||
       row.value < 0 || row.value >= rowCount ||
       startColumnIndex.value < 0 || startColumnIndex.value >= columnCount ||
       endColumnIndex.value < startColumnIndex.value || endColumnIndex.value >= columnCount
    then None
    else Some(GridNote(row.value, None, startColumnIndex.value, endColumnIndex.value,
                       if color != "" then color else defaultColor))
  }

  function LineParser(rowCount: int, columnCount: int, defaultColor: string): string -> Option<GridNote>
  {
    (line: string) => ParseLine(line, rowCount, columnCount, defaultColor)
  }

  /** The lines of an import: the trimmed text split at newlines. */
  function ImportLines(data: string): seq<string>
  {
    Split(Trim(data), '\n')
  }

  /** The notes `parseImportedNotes` accepts, in file order. */
  function ImportedNotes(data: string, rowCount: int, columnCount: int, defaultColor: string): seq<GridNote>
  {
    FilterMap(ImportLines(data), LineParser(rowCount, columnCount, defaultColor))
  }

  /** A note that survives an export and an import unchanged (apart from its window row). */
  predicate Exportable(note: GridNote, rowCount: int, columnCount: int)
  {
    0 <= note.row < rowCount &&
    0 <= note.startColumnIndex <= note.endColumnIndex < columnCount &&
    note.color != "" && ',' !in note.color && '\n' !in note.color
  }

  /** The note as an import produces it: no window row yet. */
  function Unplaced(note: GridNote): GridNote
  {
    note.(rowIndex := None)
  }

  function UnplacedAll(notes: seq<GridNote>): (r: seq<GridNote>)
    ensures |r| == |notes| && forall i :: 0 <= i < |r| ==> r[i] == Unplaced(notes[i])
  {
    if notes == [] then [] else [Unplaced(notes[0])] + UnplacedAll(notes[1..])
  }

  /** An exported line of an in-bounds note parses back to the note. */
  lemma ParseNoteLine(note: GridNote, rowCount: int, columnCount: int, defaultColor: string)
    requires Exportable(note, rowCount, columnCount)
    ensures ParseLine(NoteLine(note), rowCount, columnCount, defaultColor) == Some(Unplaced(note))
  {
    var fields := [IntToString(note.row), IntToString(note.startColumnIndex), IntToString(note.endColumnIndex), note.color];
    NoCommaInIntToString(note.row);
    NoCommaInIntToString(note.startColumnIndex);
    NoCommaInIntToString(note.endColumnIndex);
    SplitJoin(fields, ',');
    ParseIntOfIntToString(note.row);
    ParseIntOfIntToString(note.startColumnIndex);
    ParseIntOfIntToString(note.endColumnIndex);
  }

  lemma NoCommaInIntToString(i: int)
    ensures ',' !in IntToString(i) && '\n' !in IntToString(i)
  {
    var digits := NatToString(if i < 0 then -i else i);
    assert forall k :: 0 <= k < |digits| ==> IsDigit(digits[k]);
  }

  /** Exported lines hold no newline, and every exported line of an in-bounds note parses back. */
  lemma {:induction false} ParseNoteLines(notes: seq<GridNote>, rowCount: int, columnCount: int, defaultColor: string)
    requires forall i :: 0 <= i < |notes| ==> Exportable(notes[i], rowCount, columnCount)
    ensures forall i :: 0 <= i < |notes| ==> '\n' !in NoteLines(notes)[i]
    ensures FilterMap(NoteLines(notes), LineParser(rowCount, columnCount, defaultColor)) == UnplacedAll(notes)
  {
    if notes != [] {
      ParseNoteLines(notes[1..], rowCount, columnCount, defaultColor);
      ParseNoteLine(notes[0], rowCount, columnCount, defaultColor);
      assert NoteLines(notes)[1..] == NoteLines(notes[1..]);
    }
    forall i | 0 <= i < |notes| ensures '\n' !in NoteLines(notes)[i] {
      NoNewlineInNoteLine(notes[i], rowCount, columnCount);
    }
  }

  lemma NoNewlineInNoteLine(note: GridNote, rowCount: int, columnCount: int)
    requires Exportable(note, rowCount, columnCount)
    ensures '\n' !in NoteLine(note)
    ensures |NoteLine(note)| > 0 && IsDigit(NoteLine(note)[0])
    ensures NoteLine(note)[|NoteLine(note)| - 1] == note.color[|note.color| - 1]
  {
    var a, b, c := IntToString(note.row), IntToString(note.startColumnIndex), IntToString(note.endColumnIndex);
    NoCommaInIntToString(note.row);
    NoCommaInIntToString(note.startColumnIndex);
    NoCommaInIntToString(note.endColumnIndex);
    var tail := c + [','] + note.color;
    assert Join([c, note.color], ',') == tail;
    assert Join([b, c, note.color], ',') == b + [','] + tail;
    assert NoteLine(note) == a + [','] + (b + [','] + tail);
  }

  /**
   * Importing an export gives the same notes back, in the same order and with their window row
   * cleared, when every note lies below the import's row bound and inside the grid and has a
   * colour without commas or newlines that does not end in whitespace (the import trims the text).
   */
  lemma ImportOfExport(notes: seq<GridNote>, rowCount: int, columnCount: int, defaultColor: string)
    requires forall i :: 0 <= i < |notes| ==>
      Exportable(notes[i], rowCount, columnCount) && !IsJsWhitespace(notes[i].color[|notes[i].color| - 1])
    ensures ImportedNotes(ExportText(notes), rowCount, columnCount, defaultColor) == UnplacedAll(notes)
  {
    var lines := NoteLines(notes);
    ParseNoteLines(notes, rowCount, columnCount, defaultColor);
    if notes == [] {
      assert ExportText(notes) == "";
      assert Trim("") == "";
    } else {
      var text := ExportText(notes);
      JoinEnds(lines, notes, rowCount, columnCount);
      TrimOfTrimmed(text);
      SplitJoin(lines, '\n');
    }
  }

  lemma JoinEnds(lines: seq<string>, notes: seq<GridNote>, rowCount: int, columnCount: int)
    requires |notes| > 0 && lines == NoteLines(notes)
    requires forall i :: 0 <= i < |notes| ==>
      Exportable(notes[i], rowCount, columnCount) && !IsJsWhitespace(notes[i].color[|notes[i].color| - 1])
    ensures var text := Join(lines, '\n');
      |text| > 0 && !IsJsWhitespace(text[0]) && !IsJsWhitespace(text[|text| - 1])
  {
    NoNewlineInNoteLine(notes[0], rowCount, columnCount);
    NoNewlineInNoteLine(notes[|notes| - 1], rowCount, columnCount);
    JoinFirst(lines);
    JoinLast(lines);
  }

  lemma {:induction false} JoinFirst(lines: seq<string>)
    requires |lines| > 0 && |lines[0]| > 0
    ensures |Join(lines, '\n')| > 0 && Join(lines, '\n')[0] == lines[0][0]
  {
  }

  lemma {:induction false} JoinLast(lines: seq<string>)
    requires |lines| > 0 && |lines[|lines| - 1]| > 0
    ensures var text := Join(lines, '\n');
      |text| > 0 && text[|text| - 1] == lines[|lines| - 1][|lines[|lines| - 1]| - 1]
  {
    if |lines| > 1 {
      JoinLast(lines[1..]);
    }
  }

  /** What `adjustPlacedNotes` makes of one note: dropped outside the window, else given its window row. */
  function AdjustNote(gridPosition: int, logicRows: int): GridNote -> Option<GridNote>
  {
    (note: GridNote) =>
      if note.row < gridPosition || note.row >= gridPosition + logicRows then None
      else Some(note.(rowIndex := Some(note.row - gridPosition)))
  }

  /** The placed notes after `adjustPlacedNotes`. */
  function Adjusted(notes: seq<GridNote>, gridPosition: int, logicRows: int): seq<GridNote>
  {
    FilterMap(notes, AdjustNote(gridPosition, logicRows))
  }

  /**
   * The notes while `adjustPlacedNotes` walks down from the end: those up to `i` as they were,
   * those after it adjusted.
   */
  function AdjustProgress(original: seq<GridNote>, i: int, gridPosition: int, logicRows: int): seq<GridNote>
    requires -1 <= i < |original|
  {
    original[..i + 1] + Adjusted(original[i + 1..], gridPosition, logicRows)
  }

  /** The note at `i` is still the original one. */
  lemma AdjustProgressAt(original: seq<GridNote>, i: int, gridPosition: int, logicRows: int)
    requires 0 <= i < |original|
    ensures |AdjustProgress(original, i, gridPosition, logicRows)| > i
    ensures AdjustProgress(original, i, gridPosition, logicRows)[i] == original[i]
  {
  }

  /** Before the walk nothing is adjusted yet; after it everything is. */
  lemma AdjustProgressEnds(original: seq<GridNote>, gridPosition: int, logicRows: int)
    ensures AdjustProgress(original, |original| - 1, gridPosition, logicRows) == original
    ensures AdjustProgress(original, -1, gridPosition, logicRows) == Adjusted(original, gridPosition, logicRows)
  {
    assert original[..|original|] == original;
    assert original[|original|..] == [];
    assert original[0..] == original;
  }

  /** The loop step of `adjustPlacedNotes` that splices out a note outside the window. */
  lemma AdjustDropStep(original: seq<GridNote>, i: int, gridPosition: int, logicRows: int)
    requires 0 <= i < |original|
    requires original[i].row < gridPosition || original[i].row >= gridPosition + logicRows
    ensures var current := AdjustProgress(original, i, gridPosition, logicRows);
      current[..i] + current[i + 1..] == AdjustProgress(original, i - 1, gridPosition, logicRows)
  {
    assert AdjustNote(gridPosition, logicRows)(original[i]).None?;
    var rest := Adjusted(original[i + 1..], gridPosition, logicRows);
    var current := original[..i + 1] + rest;
    assert original[i..][0] == original[i] && original[i..][1..] == original[i + 1..];
    assert Adjusted(original[i..], gridPosition, logicRows) == rest;
    assert current[..i] == original[..i];
    assert current[i + 1..] == rest;
  }

  /** The loop step of `adjustPlacedNotes` that gives a note of the window its window row. */
  lemma AdjustKeepStep(original: seq<GridNote>, i: int, gridPosition: int, logicRows: int)
    requires 0 <= i < |original|
    requires !(original[i].row < gridPosition || original[i].row >= gridPosition + logicRows)
    ensures var current := AdjustProgress(original, i, gridPosition, logicRows);
      current[i := original[i].(rowIndex := Some(original[i].row - gridPosition))] ==
      AdjustProgress(original, i - 1, gridPosition, logicRows)
  {
    var y := original[i].(rowIndex := Some(original[i].row - gridPosition));
    assert AdjustNote(gridPosition, logicRows)(original[i]) == Some(y);
    var rest := Adjusted(original[i + 1..], gridPosition, logicRows);
    var current := original[..i + 1] + rest;
    assert original[i..][0] == original[i] && original[i..][1..] == original[i + 1..];
    assert Adjusted(original[i..], gridPosition, logicRows) == [y] + rest;
    assert current[i := y] == original[..i] + ([y] + rest);
  }

  /**
   * After adjusting, every note lies in the window with `rowIndex = row - gridPosition`, and
   * exactly the notes of the window are kept: their number is the number of notes in the window.
   */
  lemma {:induction false} AdjustedInWindow(notes: seq<GridNote>, gridPosition: int, logicRows: int)
    ensures forall j :: 0 <= j < |Adjusted(notes, gridPosition, logicRows)| ==>
      var n := Adjusted(notes, gridPosition, logicRows)[j];
      gridPosition <= n.row < gridPosition + logicRows && n.rowIndex == Some(n.row - gridPosition)
    ensures |Adjusted(notes, gridPosition, logicRows)| == |InWindow(notes, gridPosition, logicRows)|
  {
    if notes != [] {
      AdjustedInWindow(notes[1..], gridPosition, logicRows);
    }
  }

  /** The notes whose row lies in the window. */
  function InWindow(notes: seq<GridNote>, gridPosition: int, logicRows: int): seq<GridNote>
  {
    if notes == [] then []
    else
      (if gridPosition <= notes[0].row < gridPosition + logicRows then [notes[0]] else []) +
      InWindow(notes[1..], gridPosition, logicRows)
  }

  /** Adjusting twice for the same window is adjusting once. */
  lemma {:induction false} AdjustIdempotent(notes: seq<GridNote>, gridPosition: int, logicRows: int)
    ensures Adjusted(Adjusted(notes, gridPosition, logicRows), gridPosition, logicRows) == Adjusted(notes, gridPosition, logicRows)
  {
    if notes != [] {
      AdjustIdempotent(notes[1..], gridPosition, logicRows);
    }
  }

  /** A note whose columns lie inside the grid and whose colour survives the file format. */
  predicate Drawable(note: GridNote, columnCount: int)
  {
    0 <= note.startColumnIndex <= note.endColumnIndex < columnCount &&
    note.color != "" && ',' !in note.color && '\n' !in note.color &&
    !IsJsWhitespace(note.color[|note.color| - 1])
  }

  /** Adjusting keeps only notes it was given, so it keeps their columns and colours. */
  lemma {:induction false} AdjustedDrawable(notes: seq<GridNote>, gridPosition: int, logicRows: int, columnCount: int)
    requires forall i :: 0 <= i < |notes| ==> Drawable(notes[i], columnCount)
    ensures forall j :: 0 <= j < |Adjusted(notes, gridPosition, logicRows)| ==>
      Drawable(Adjusted(notes, gridPosition, logicRows)[j], columnCount)
  {
    if notes != [] {
      AdjustedDrawable(notes[1..], gridPosition, logicRows, columnCount);
      var rest := Adjusted(notes[1..], gridPosition, logicRows);
      match AdjustNote(gridPosition, logicRows)(notes[0])
      case Some(y) =>
        assert Drawable(y, columnCount);
        assert Adjusted(notes, gridPosition, logicRows) == [y] + rest;
      case None =>
        assert Adjusted(notes, gridPosition, logicRows) == rest;
    }
  }

  /** A tighter row bound accepts exactly the lines the looser one accepts with a row below it. */
  lemma ParseLineTighter(line: string, rowCount: int, bound: int, columnCount: int, defaultColor: string)
    requires bound <= rowCount
    ensures var loose := ParseLine(line, rowCount, columnCount, defaultColor);
      ParseLine(line, bound, columnCount, defaultColor) ==
      if loose.Some? && loose.value.row < bound then loose else None
  {
  }

  /** Splitting and trimming the export of one note gives its line back. */
  lemma ImportLinesOfOne(note: GridNote, rowCount: int, columnCount: int)
    requires Exportable(note, rowCount, columnCount) && !IsJsWhitespace(note.color[|note.color| - 1])
    ensures ImportLines(ExportText([note])) == [NoteLine(note)]
  {
    var line := NoteLine(note);
    NoNewlineInNoteLine(note, rowCount, columnCount);
    assert NoteLines([note]) == [line];
    assert ExportText([note]) == line;
    TrimOfTrimmed(line);
    SplitJoin([line], '\n');
  }

  /**
   * `parseImportedNotes` as written bounds rows by the window's `logicRows` (20), but exported rows
   * are rows of the full pitch table: a note on the first row of the starting window (row 28) is
   * kept by `adjustPlacedNotes`, written to the file, and rejected when the file is imported.
   */
  lemma WindowNoteLostOnImport(columnCount: int, defaultColor: string)
    requires columnCount > 0
    ensures var note := GridNote(28, Some(0), 0, 0, "red");
      Adjusted([note], 28, 20) == [note] &&
      ImportedNotes(ExportText([note]), 20, columnCount, defaultColor) == []
  {
    var note := GridNote(28, Some(0), 0, 0, "red");
    assert AdjustNote(28, 20)(note) == Some(note);
    assert Adjusted([note], 28, 20) == [note];
    ImportLinesOfOne(note, 29, columnCount);
    ParseNoteLine(note, 29, columnCount, defaultColor);
    ParseLineTighter(NoteLine(note), 29, 20, columnCount, defaultColor);
    assert LineParser(20, columnCount, defaultColor)(NoteLine(note)).None?;
  }

  /**
   * With rows bounded by the table's `fullRowCount`, every note the grid shows in a window that
   * lies inside the table comes back from an export and an import, in order.
   */
  lemma WindowNotesSurviveImport(notes: seq<GridNote>, gridPosition: int, logicRows: int, fullRowCount: int,
                                 columnCount: int, defaultColor: string)
    requires 0 <= gridPosition && gridPosition + logicRows <= fullRowCount
    requires forall i :: 0 <= i < |notes| ==> Drawable(notes[i], columnCount)
    ensures var shown := Adjusted(notes, gridPosition, logicRows);
      ImportedNotes(ExportText(shown), fullRowCount, columnCount, defaultColor) == UnplacedAll(shown)
  {
    var shown := Adjusted(notes, gridPosition, logicRows);
    AdjustedInWindow(notes, gridPosition, logicRows);
    AdjustedDrawable(notes, gridPosition, logicRows, columnCount);
    assert forall i :: 0 <= i < |shown| ==> Exportable(shown[i], fullRowCount, columnCount);
    ImportOfExport(shown, fullRowCount, columnCount, defaultColor);
  }

  /**
   * The grid's closure state: the placed notes, the window's first row `gridPosition` over the
   * `fullRowCount` rows of the pitch table, `logicRows` visible rows and `columnCount` columns
   * (the length of the configured column widths). The window starts at row 28.
   */
  class Grid {
    const logicRows: int
    const columnCount: int
    const fullRowCount: int
    var gridPosition: int
    var placedNotes: seq<GridNote>

    constructor (logicRows: int, columnCount: int, fullRowCount: int)
      ensures this.logicRows == logicRows && this.columnCount == columnCount && this.fullRowCount == fullRowCount
      ensures gridPosition == 28 && placedNotes == []
    {
      this.logicRows := logicRows;
      this.columnCount := columnCount;
      this.fullRowCount := fullRowCount;
      gridPosition := 28;
      placedNotes := [];
    }

    /** `exportNotes`: the file text (building and clicking the download link is left out). */
    function ExportNotes(): (r: string)
      reads this
      ensures r == ExportText(placedNotes)
      ensures placedNotes == [] ==> r == ""
    {
      ExportText(placedNotes)
    }

    /**
     * `adjustPlacedNotes`: walks the notes from the last to the first, splicing out each note outside
     * the window and setting the window row of the others.
     */
    method AdjustPlacedNotes()
      modifies this`placedNotes
      ensures placedNotes == Adjusted(old(placedNotes), gridPosition, logicRows)
    {
      var notes, top, rows := placedNotes, gridPosition, logicRows;
      ghost var original := notes;
      AdjustProgressEnds(original, top, rows);
      var i := |notes| - 1;
      while i >= 0
        invariant -1 <= i < |original|
        invariant notes == AdjustProgress(original, i, top, rows)
        decreases i
      {
        AdjustProgressAt(original, i, top, rows);
        var note := notes[i];
        if note.row < top || note.row >= top + rows {
          AdjustDropStep(original, i, top, rows);
          notes := notes[..i] + notes[i + 1..];
        } else {
          AdjustKeepStep(original, i, top, rows);
          notes := notes[i := note.(rowIndex := Some(note.row - top))];
        }
        i := i - 1;
      }
      placedNotes := notes;
    }

    /** `shiftGridUp`: two rows up while not at the top, then the notes are adjusted. */
    method ShiftGridUp()
      modifies this`gridPosition, this`placedNotes
      ensures old(gridPosition) > 0 ==>
        gridPosition == old(gridPosition) - 2 && placedNotes == Adjusted(old(placedNotes), gridPosition, logicRows)
      ensures old(gridPosition) <= 0 ==> gridPosition == old(gridPosition) && placedNotes == old(placedNotes)
    {
      if gridPosition > 0 {
        gridPosition := gridPosition - 2;
        AdjustPlacedNotes();
      }
    }

    /** `shiftGridDown`: two rows down while the window ends before the table does. */
    method ShiftGridDown()
      modifies this`gridPosition, this`placedNotes
      ensures old(gridPosition) + logicRows < fullRowCount ==>
        gridPosition == old(gridPosition) + 2 && placedNotes == Adjusted(old(placedNotes), gridPosition, logicRows)
      ensures old(gridPosition) + logicRows >= fullRowCount ==> gridPosition == old(gridPosition) && placedNotes == old(placedNotes)
    {
      if gridPosition + logicRows < fullRowCount {
        gridPosition := gridPosition + 2;
        AdjustPlacedNotes();
      }
    }

    /**
     * `parseImportedNotes(data)`: every line that describes a valid note is pushed in file order,
     * then the placed notes are replaced by them. `defaultColor` stands for the page's
     * `--note-default-color`. Rows are bounded by the table's `fullRowCount`, the rows an export
     * writes (`WindowNotesSurviveImport`); the source's bound is kept in
     * `ParseImportedNotesAsWritten`.
     */
    method ParseImportedNotes(data: string, defaultColor: string)
      modifies this`placedNotes
      ensures placedNotes == ImportedNotes(data, fullRowCount, columnCount, defaultColor)
    {
      var lines := Split(Trim(data), '\n');
      placedNotes := CollectNotes(lines, LineParser(fullRowCount, columnCount, defaultColor));
    }

    /**
     * `parseImportedNotes` as the source writes it: rows are bounded by the window's `logicRows`,
     * which rejects rows of the table the window has scrolled to (`WindowNoteLostOnImport`).
     */
    method ParseImportedNotesAsWritten(data: string, defaultColor: string)
      modifies this`placedNotes
      ensures placedNotes == ImportedNotes(data, logicRows, columnCount, defaultColor)
    {
      var lines := Split(Trim(data), '\n');
      placedNotes := CollectNotes(lines, LineParser(logicRows, columnCount, defaultColor));
    }
  }

  /** The loop of `parseImportedNotes`: each line that `parse` accepts is pushed, in file order. */
  method CollectNotes(lines: seq<string>, parse: string -> Option<GridNote>) returns (importedNotes: seq<GridNote>)
    ensures importedNotes == FilterMap(lines, parse)
  {
    importedNotes := [];
    var i := 0;
    while i < |lines|
      invariant 0 <= i <= |lines|
      invariant importedNotes == FilterMap(lines[..i], parse)
    {
      var note := parse(lines[i]);
      FilterMapSnoc(lines[..i], lines[i], parse);
      assert lines[..i + 1] == lines[..i] + [lines[i]];
      if note.Some? {
        importedNotes := importedNotes + [note.value];
      }
      i := i + 1;
    }
    assert lines[..i] == lines;
  }
}
