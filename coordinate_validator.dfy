/**
 * The coordinate validator: a debugging pass over the store state that reports, per kind of
 * placed item, the errors (which fail the section) and the warnings (which do not) about
 * canvas-space coordinates, and the combined report.
 *
 * `CoordinateChecks` holds what the sections share: the issues, the result of a section, one
 * item's turn of a `forEach` and the list of checks one item goes through. Each kind of item has
 * a module of its own, and `CoordinateValidator` combines them into the report.
 */
module CoordinateChecks {
  import opened Wrappers

  /** What an issue is about: the item kind, its position in its list and its id. */
  datatype Subject =
    | NoteAt(index: int, uuid: string)
    | StampAt(index: int, id: string)
    | TripletAt(index: int, id: string)
    | TonicSignAt(groupKey: string, index: int)
    | MarkerAt(index: int, id: string)
    | ColumnWidthAt(index: int)
    | ColumnWidths

  /** The coordinate field a message names. */
  datatype Field =
    | StartColumnIndex | EndColumnIndex | StartColumn | EndColumn | StartCellIndex | EndCell
    | ColumnIndex | ColumnIndexPlusOne | MeasureIndex | PreMacrobeatIndex

  /** What is wrong; the messages of the source are built from these values. */
  datatype Check =
    | IsNegative(field: Field, value: int)
    | StartAfterEnd(startField: Field, start: int, endField: Field, end: int)
    | InvalidDrumTrack(drumTrack: Option<int>)
    | NonPositiveSpan(span: int)
    | TonicNumberOutOfRange(tonicNumber: int)
    | NonPositiveRatio(ratio: real)
    | AtOrPast(field: Field, value: int, limit: int)
    | Past(field: Field, value: int, limit: int)
    | WidthNotPositive(width: real)
    | DeprecatedWidths(count: int)
    | NoColumns

  datatype Issue = Issue(subject: Subject, check: Check)

  /** `{ passed, errors, warnings }` of one section. */
  datatype ValidationResult = ValidationResult(passed: bool, errors: seq<Issue>, warnings: seq<Issue>)

  /** `{ passed: true, errors: [], warnings: [] }`: a section before its first item. */
  const Fresh := ValidationResult(true, [], [])

  /** What one item contributes to its section: whether it passes, its errors and its warnings. */
  datatype ItemReport = ItemReport(valid: bool, errors: seq<Issue>, warnings: seq<Issue>)

  /** One item's turn of a `forEach`: its errors and warnings are appended, and an invalid item clears `passed`. */
  function Add(before: ValidationResult, item: ItemReport): ValidationResult
  {
    ValidationResult(before.passed && item.valid, before.errors + item.errors, before.warnings + item.warnings)
  }

  /** What a `forEach` leaves in a fresh result once the items contributing `reports` have had their turns. */
  function Sweep(reports: seq<ItemReport>): ValidationResult
    decreases |reports|
  {
    if |reports| == 0 then ValidationResult(true, [], [])
    else Add(Sweep(reports[..|reports| - 1]), reports[|reports| - 1])
  }

  /** One more item is one more turn. */
  lemma SweepSnoc(reports: seq<ItemReport>, item: ItemReport)
    ensures Sweep(reports + [item]) == Add(Sweep(reports), item)
  {
    assert (reports + [item])[..|reports|] == reports;
  }

  /** A section passes exactly when every item it has seen is valid. */
  lemma {:induction false} SweepPassed(reports: seq<ItemReport>)
    ensures Sweep(reports).passed <==> forall j :: 0 <= j < |reports| ==> reports[j].valid
    decreases |reports|
  {
    if |reports| > 0 {
      var init := reports[..|reports| - 1];
      SweepPassed(init);
      assert forall j :: 0 <= j < |init| ==> init[j] == reports[j];
    }
  }

  /** When an item has errors exactly when it is invalid, a section passes exactly when it reports no error. */
  lemma {:induction false} SweepNoErrors(reports: seq<ItemReport>)
    requires forall j :: 0 <= j < |reports| ==> (|reports[j].errors| == 0 <==> reports[j].valid)
    ensures Sweep(reports).passed <==> |Sweep(reports).errors| == 0
    decreases |reports|
  {
    if |reports| > 0 {
      var init := reports[..|reports| - 1];
      assert forall j :: 0 <= j < |init| ==> init[j] == reports[j];
      SweepNoErrors(init);
    }
  }

  /** A section warns exactly when one of the items it has seen warns. */
  lemma {:induction false} SweepWarns(reports: seq<ItemReport>)
    ensures |Sweep(reports).warnings| > 0 <==> exists j :: 0 <= j < |reports| && |reports[j].warnings| > 0
    decreases |reports|
  {
    if |reports| > 0 {
      var init := reports[..|reports| - 1];
      assert forall j :: 0 <= j < |init| ==> init[j] == reports[j];
      SweepWarns(init);
    }
  }

  /** A whole sweep's worth of issues appended to `before`, as when a nested `forEach` pushes into an outer result. */
  function Merge(before: ValidationResult, section: ValidationResult): ValidationResult
  {
    Add(before, ItemReport(section.passed, section.errors, section.warnings))
  }

  /** Pushing one more item after a merged sweep is merging the longer sweep. */
  lemma MergeAdd(before: ValidationResult, section: ValidationResult, item: ItemReport)
    ensures Add(Merge(before, section), item) == Merge(before, Add(section, item))
  {
    assert (before.errors + section.errors) + item.errors == before.errors + (section.errors + item.errors);
    assert (before.warnings + section.warnings) + item.warnings == before.warnings + (section.warnings + item.warnings);
  }

  /** The issue one check pushes, if any. */
  function If(fires: bool, issue: Issue): seq<Issue>
  {
    if fires then [issue] else []
  }

  /** One check of an item: whether it fires, and the issue it then reports. */
  datatype Condition = Condition(fires: bool, issue: Issue)

  /** The issues of the first `n` checks that fire, in check order. */
  function Raised(checks: seq<Condition>, n: int): seq<Issue>
    requires 0 <= n <= |checks|
    decreases n
  {
    if n == 0 then [] else Raised(checks, n - 1) + If(checks[n - 1].fires, checks[n - 1].issue)
  }

  /** No issue is raised exactly when none of the checks fires. */
  lemma {:induction false} RaisedEmpty(checks: seq<Condition>, n: int)
    requires 0 <= n <= |checks|
    ensures |Raised(checks, n)| == 0 <==> forall k :: 0 <= k < n ==> !checks[k].fires
    decreases n
  {
    if n > 0 {
      RaisedEmpty(checks, n - 1);
    }
  }
}

module CoordinateNotes {
  import opened StoreState
  import opened CoordinateChecks

  /** A note passes when its columns are non-negative and ordered and a drum note has a drum track. */
  predicate NoteValid(note: Note)
  {
    note.startColumnIndex >= 0 && note.endColumnIndex >= 0 &&
    note.startColumnIndex <= note.endColumnIndex &&
    (note.isDrum ==> note.drumTrack.Some? && note.drumTrack.value >= 0)
  }

  /** Every note of the list is valid. */
  predicate AllNotesValid(notes: seq<Note>)
  {
    forall j :: 0 <= j < |notes| ==> NoteValid(notes[j])
  }

  /** The error checks of `validateNotes`, in the order it makes them. */
  function NoteChecks(index: int, note: Note): seq<Condition>
  {
    var subject := NoteAt(index, note.uuid);
    [Condition(note.startColumnIndex < 0, Issue(subject, IsNegative(StartColumnIndex, note.startColumnIndex))),
     Condition(note.endColumnIndex < 0, Issue(subject, IsNegative(EndColumnIndex, note.endColumnIndex))),
     Condition(note.startColumnIndex > note.endColumnIndex,
       Issue(subject, StartAfterEnd(StartColumnIndex, note.startColumnIndex, EndColumnIndex, note.endColumnIndex))),
     Condition(note.isDrum && (note.drumTrack.None? || note.drumTrack.value < 0),
       Issue(subject, InvalidDrumTrack(note.drumTrack)))]
  }

  /** The errors of the note at `index`: there are none exactly when the note is valid. */
  function NoteErrors(index: int, note: Note): (r: seq<Issue>)
    ensures |r| == 0 <==> NoteValid(note)
  {
    var checks := NoteChecks(index, note);
    RaisedEmpty(checks, 4);
    assert !checks[0].fires && !checks[1].fires && !checks[2].fires && !checks[3].fires <==> NoteValid(note);
    Raised(checks, 4)
  }

  /** The grid has columns and the note starts or ends at or past the last of them. */
  predicate ReachesPast(maxColumn: int, note: Note)
  {
    maxColumn > 0 && (note.startColumnIndex >= maxColumn || note.endColumnIndex >= maxColumn)
  }

  /** The warning checks: a column at or past the number of grid columns, when the grid has columns. */
  function NoteWarningChecks(maxColumn: int, index: int, note: Note): seq<Condition>
  {
    var subject := NoteAt(index, note.uuid);
    [Condition(note.startColumnIndex >= maxColumn && maxColumn > 0,
       Issue(subject, AtOrPast(StartColumnIndex, note.startColumnIndex, maxColumn))),
     Condition(note.endColumnIndex >= maxColumn && maxColumn > 0,
       Issue(subject, AtOrPast(EndColumnIndex, note.endColumnIndex, maxColumn)))]
  }

  /** The warnings of the note at `index`: there are some exactly when it reaches past the grid. */
  function NoteWarnings(maxColumn: int, index: int, note: Note): (r: seq<Issue>)
    ensures |r| > 0 <==> ReachesPast(maxColumn, note)
  {
    var checks := NoteWarningChecks(maxColumn, index, note);
    RaisedEmpty(checks, 2);
    assert !checks[0].fires && !checks[1].fires <==> !ReachesPast(maxColumn, note);
    Raised(checks, 2)
  }

  /** What the note at `index` contributes to the notes section. */
  function NoteReport(maxColumn: int, index: int, note: Note): (r: ItemReport)
    ensures r.valid == NoteValid(note) && (|r.errors| == 0 <==> r.valid)
    ensures |r.warnings| > 0 <==> ReachesPast(maxColumn, note)
  {
    ItemReport(NoteValid(note), NoteErrors(index, note), NoteWarnings(maxColumn, index, note))
  }

  /** What each of the first `n` notes contributes to the notes section, in list order. */
  function NoteReports(notes: seq<Note>, maxColumn: int, n: int): (r: seq<ItemReport>)
    requires 0 <= n <= |notes|
    ensures |r| == n
    ensures forall j :: 0 <= j < n ==>
      r[j].valid == NoteValid(notes[j]) && (|r[j].errors| == 0 <==> r[j].valid) &&
      (|r[j].warnings| > 0 <==> ReachesPast(maxColumn, notes[j]))
    decreases n
  {
    if n == 0 then [] else NoteReports(notes, maxColumn, n - 1) + [NoteReport(maxColumn, n - 1, notes[n - 1])]
  }

  /** The body of the `notes.forEach` of `validateNotes`: the checks of one note, pushed into `result`. */
  method CheckNote(index: int, note: Note, maxColumn: int, result: ValidationResult)
    returns (after: ValidationResult)
    ensures after == Add(result, NoteReport(maxColumn, index, note))
  {
    var subject := NoteAt(index, note.uuid);
    ghost var checks := NoteChecks(index, note);
    ghost var warnings := NoteWarningChecks(maxColumn, index, note);
    var passed, pushed, warned := result.passed, [], [];
    if note.startColumnIndex < 0 {
      pushed := pushed + [Issue(subject, IsNegative(StartColumnIndex, note.startColumnIndex))];
      passed := false;
    }
    assert pushed == Raised(checks, 1);
    if note.endColumnIndex < 0 {
      pushed := pushed + [Issue(subject, IsNegative(EndColumnIndex, note.endColumnIndex))];
      passed := false;
    }
    assert pushed == Raised(checks, 2);
    if note.startColumnIndex > note.endColumnIndex {
      pushed := pushed + [Issue(subject, StartAfterEnd(StartColumnIndex, note.startColumnIndex, EndColumnIndex, note.endColumnIndex))];
      passed := false;
    }
    assert pushed == Raised(checks, 3);
    if note.startColumnIndex >= maxColumn && maxColumn > 0 {
      warned := warned + [Issue(subject, AtOrPast(StartColumnIndex, note.startColumnIndex, maxColumn))];
    }
    assert warned == Raised(warnings, 1);
    if note.endColumnIndex >= maxColumn && maxColumn > 0 {
      warned := warned + [Issue(subject, AtOrPast(EndColumnIndex, note.endColumnIndex, maxColumn))];
    }
    if note.isDrum && (note.drumTrack.None? || note.drumTrack.value < 0) {
      pushed := pushed + [Issue(subject, InvalidDrumTrack(note.drumTrack))];
      passed := false;
    }
    after := ValidationResult(passed, result.errors + pushed, result.warnings + warned);
  }

  /** The `notes.forEach` of `validateNotes`: the checks of each note, pushed into a fresh result in list order. */
  method CheckNotes(notes: seq<Note>, maxColumn: int) returns (result: ValidationResult)
    ensures result == Sweep(NoteReports(notes, maxColumn, |notes|))
  {
    result := ValidationResult(true, [], []);
    var i := 0;
    while i < |notes|
      invariant 0 <= i <= |notes|
      invariant result == Sweep(NoteReports(notes, maxColumn, i))
    {
      SweepSnoc(NoteReports(notes, maxColumn, i), NoteReport(maxColumn, i, notes[i]));
      result := CheckNote(i, notes[i], maxColumn, result);
      i := i + 1;
    }
  }

  /**
   * `validateNotes`: the checks of every note against the grid's columns; the section passes
   * exactly when every note is valid, which is exactly when it reports no error.
   */
  method ValidateNotes(s: Store) returns (result: ValidationResult)
    ensures result == Sweep(NoteReports(s.placedNotes, |s.columnWidths|, |s.placedNotes|))
    ensures result.passed <==> AllNotesValid(s.placedNotes)
    ensures result.passed <==> |result.errors| == 0
  {
    result := CheckNotes(s.placedNotes, |s.columnWidths|);
    NotesPassed(s.placedNotes, |s.columnWidths|);
  }

  /** The notes section passes exactly when every note is valid, which is exactly when it reports no error. */
  lemma NotesPassed(notes: seq<Note>, maxColumn: int)
    ensures var result := Sweep(NoteReports(notes, maxColumn, |notes|));
      (result.passed <==> forall j :: 0 <= j < |notes| ==> NoteValid(notes[j])) &&
      (result.passed <==> |result.errors| == 0)
  {
    var reports := NoteReports(notes, maxColumn, |notes|);
    SweepPassed(reports);
    SweepNoErrors(reports);
    forall j | 0 <= j < |notes|
      ensures reports[j].valid == NoteValid(notes[j])
    {
    }
  }

  /**
   * The notes section warns exactly when the grid has columns and some note starts or ends at
   * or past them.
   */
  lemma NotesWarn(notes: seq<Note>, maxColumn: int)
    ensures |Sweep(NoteReports(notes, maxColumn, |notes|)).warnings| > 0 <==>
      exists j :: 0 <= j < |notes| && ReachesPast(maxColumn, notes[j])
  {
    var reports := NoteReports(notes, maxColumn, |notes|);
    SweepWarns(reports);
  }
}

module CoordinateStamps {
  import opened StoreState
  import opened CoordinateChecks

  /** A stamp passes when its columns are non-negative and ordered. */
  predicate StampValid(stamp: Stamp)
  {
    stamp.startColumn >= 0 && stamp.endColumn >= 0 && stamp.startColumn <= stamp.endColumn
  }

  /** Every stamp of the list is valid. */
  predicate AllStampsValid(stamps: seq<Stamp>)
  {
    forall j :: 0 <= j < |stamps| ==> StampValid(stamps[j])
  }

  /** The error checks of `validateStamps`: those of a note without the drum check. */
  function StampChecks(index: int, stamp: Stamp): seq<Condition>
  {
    var subject := StampAt(index, stamp.id);
    [Condition(stamp.startColumn < 0, Issue(subject, IsNegative(StartColumn, stamp.startColumn))),
     Condition(stamp.endColumn < 0, Issue(subject, IsNegative(EndColumn, stamp.endColumn))),
     Condition(stamp.startColumn > stamp.endColumn,
       Issue(subject, StartAfterEnd(StartColumn, stamp.startColumn, EndColumn, stamp.endColumn)))]
  }

  /** The errors of the stamp at `index`: there are none exactly when the stamp is valid. */
  function StampErrors(index: int, stamp: Stamp): (r: seq<Issue>)
    ensures |r| == 0 <==> StampValid(stamp)
  {
    var checks := StampChecks(index, stamp);
    RaisedEmpty(checks, 3);
    assert !checks[0].fires && !checks[1].fires && !checks[2].fires <==> StampValid(stamp);
    Raised(checks, 3)
  }

  /** The grid has columns and the stamp starts or ends at or past the last of them. */
  predicate StampReachesPast(maxColumn: int, stamp: Stamp)
  {
    maxColumn > 0 && (stamp.startColumn >= maxColumn || stamp.endColumn >= maxColumn)
  }

  /** The warning checks of `validateStamps`: a column at or past the number of grid columns. */
  function StampWarningChecks(maxColumn: int, index: int, stamp: Stamp): seq<Condition>
  {
    var subject := StampAt(index, stamp.id);
    [Condition(stamp.startColumn >= maxColumn && maxColumn > 0,
       Issue(subject, AtOrPast(StartColumn, stamp.startColumn, maxColumn))),
     Condition(stamp.endColumn >= maxColumn && maxColumn > 0,
       Issue(subject, AtOrPast(EndColumn, stamp.endColumn, maxColumn)))]
  }

  /** The warnings of the stamp at `index`: there are some exactly when it reaches past the grid. */
  function StampWarnings(maxColumn: int, index: int, stamp: Stamp): (r: seq<Issue>)
    ensures |r| > 0 <==> StampReachesPast(maxColumn, stamp)
  {
    var checks := StampWarningChecks(maxColumn, index, stamp);
    RaisedEmpty(checks, 2);
    assert !checks[0].fires && !checks[1].fires <==> !StampReachesPast(maxColumn, stamp);
    Raised(checks, 2)
  }

  /** What the stamp at `index` contributes to the stamps section. */
  function StampReport(maxColumn: int, index: int, stamp: Stamp): (r: ItemReport)
    ensures r.valid == StampValid(stamp) && (|r.errors| == 0 <==> r.valid)
    ensures |r.warnings| > 0 <==> StampReachesPast(maxColumn, stamp)
  {
    ItemReport(StampValid(stamp), StampErrors(index, stamp), StampWarnings(maxColumn, index, stamp))
  }

  /** `report` says of `stamp` what `StampReport` does: its validity, its errors and its warnings agree. */
  predicate ReportsStamp(maxColumn: int, stamp: Stamp, report: ItemReport)
  {
    report.valid == StampValid(stamp) && (|report.errors| == 0 <==> report.valid) &&
    (|report.warnings| > 0 <==> StampReachesPast(maxColumn, stamp))
  }

  /** What each of the first `n` stamps contributes to the stamps section, in list order. */
  function StampReports(stamps: seq<Stamp>, maxColumn: int, n: int): (r: seq<ItemReport>)
    requires 0 <= n <= |stamps|
    ensures |r| == n
    ensures forall j :: 0 <= j < n ==> ReportsStamp(maxColumn, stamps[j], r[j])
    decreases n
  {
    if n == 0 then [] else StampReports(stamps, maxColumn, n - 1) + [StampReport(maxColumn, n - 1, stamps[n - 1])]
  }

  /** The body of the `stamps.forEach` of `validateStamps`: the checks of one stamp, pushed into `result`. */
  method CheckStamp(index: int, stamp: Stamp, maxColumn: int, result: ValidationResult)
    returns (after: ValidationResult)
    ensures after == Add(result, StampReport(maxColumn, index, stamp))
  {
    var subject := StampAt(index, stamp.id);
    ghost var checks := StampChecks(index, stamp);
    ghost var warnings := StampWarningChecks(maxColumn, index, stamp);
    var passed, pushed, warned := result.passed, [], [];
    if stamp.startColumn < 0 {
      pushed := pushed + [Issue(subject, IsNegative(StartColumn, stamp.startColumn))];
      passed := false;
    }
    assert pushed == Raised(checks, 1);
    if stamp.endColumn < 0 {
      pushed := pushed + [Issue(subject, IsNegative(EndColumn, stamp.endColumn))];
      passed := false;
    }
    assert pushed == Raised(checks, 2);
    if stamp.startColumn > stamp.endColumn {
      pushed := pushed + [Issue(subject, StartAfterEnd(StartColumn, stamp.startColumn, EndColumn, stamp.endColumn))];
      passed := false;
    }
    if stamp.startColumn >= maxColumn && maxColumn > 0 {
      warned := warned + [Issue(subject, AtOrPast(StartColumn, stamp.startColumn, maxColumn))];
    }
    assert warned == Raised(warnings, 1);
    if stamp.endColumn >= maxColumn && maxColumn > 0 {
      warned := warned + [Issue(subject, AtOrPast(EndColumn, stamp.endColumn, maxColumn))];
    }
    after := ValidationResult(passed, result.errors + pushed, result.warnings + warned);
  }

  /** The `stamps.forEach` of `validateStamps`: the checks of each stamp, in list order. */
  method CheckStamps(stamps: seq<Stamp>, maxColumn: int) returns (result: ValidationResult)
    ensures result == Sweep(StampReports(stamps, maxColumn, |stamps|))
  {
    result := ValidationResult(true, [], []);
    var i := 0;
    while i < |stamps|
      invariant 0 <= i <= |stamps|
      invariant result == Sweep(StampReports(stamps, maxColumn, i))
    {
      SweepSnoc(StampReports(stamps, maxColumn, i), StampReport(maxColumn, i, stamps[i]));
      result := CheckStamp(i, stamps[i], maxColumn, result);
      i := i + 1;
    }
  }

  /**
   * `validateStamps`: the checks of every stamp against the grid's columns; the section passes
   * exactly when every stamp is valid, which is exactly when it reports no error.
   */
  method ValidateStamps(s: Store) returns (result: ValidationResult)
    ensures result == Sweep(StampReports(s.stampPlacements, |s.columnWidths|, |s.stampPlacements|))
    ensures result.passed <==> AllStampsValid(s.stampPlacements)
    ensures result.passed <==> |result.errors| == 0
  {
    result := CheckStamps(s.stampPlacements, |s.columnWidths|);
    StampsPassed(s.stampPlacements, |s.columnWidths|);
  }

  /** The stamps section passes exactly when every stamp is valid, which is exactly when it reports no error. */
  lemma StampsPassed(stamps: seq<Stamp>, maxColumn: int)
    ensures var result := Sweep(StampReports(stamps, maxColumn, |stamps|));
      (result.passed <==> forall j :: 0 <= j < |stamps| ==> StampValid(stamps[j])) &&
      (result.passed <==> |result.errors| == 0)
  {
    var reports := StampReports(stamps, maxColumn, |stamps|);
    SweepPassed(reports);
    SweepNoErrors(reports);
    forall j | 0 <= j < |stamps|
      ensures reports[j].valid == StampValid(stamps[j])
    {
    }
  }

  /** The stamps section warns exactly when some stamp starts or ends at or past the grid's columns. */
  lemma StampsWarn(stamps: seq<Stamp>, maxColumn: int)
    ensures |Sweep(StampReports(stamps, maxColumn, |stamps|)).warnings| > 0 <==>
      exists j :: 0 <= j < |stamps| && StampReachesPast(maxColumn, stamps[j])
  {
    var reports := StampReports(stamps, maxColumn, |stamps|);
    SweepWarns(reports);
  }
}

module CoordinateTriplets {
  import opened StoreState
  import opened CoordinateChecks

  /** A triplet passes when its start cell is non-negative and its span positive. */
  predicate TripletValid(triplet: Triplet)
  {
    triplet.startCellIndex >= 0 && triplet.span > 0
  }

  /** Every triplet of the list is valid. */
  predicate AllTripletsValid(triplets: seq<Triplet>)
  {
    forall j :: 0 <= j < |triplets| ==> TripletValid(triplets[j])
  }

  /** The error checks of `validateTriplets`, in the order it makes them. */
  function TripletChecks(index: int, triplet: Triplet): seq<Condition>
  {
    var subject := TripletAt(index, triplet.id);
    [Condition(triplet.startCellIndex < 0, Issue(subject, IsNegative(StartCellIndex, triplet.startCellIndex))),
     Condition(triplet.span <= 0, Issue(subject, NonPositiveSpan(triplet.span)))]
  }

  /** The errors of the triplet at `index`: there are none exactly when the triplet is valid. */
  function TripletErrors(index: int, triplet: Triplet): (r: seq<Issue>)
    ensures |r| == 0 <==> TripletValid(triplet)
  {
    var checks := TripletChecks(index, triplet);
    RaisedEmpty(checks, 2);
    assert !checks[0].fires && !checks[1].fires <==> TripletValid(triplet);
    Raised(checks, 2)
  }

  /**
   * The grid has whole two-column cells and the triplet starts at or past the last of them, or
   * its end cell (start plus span) lies past it.
   */
  predicate TripletReachesPast(maxCellIndex: int, triplet: Triplet)
  {
    maxCellIndex > 0 &&
    (triplet.startCellIndex >= maxCellIndex || triplet.startCellIndex + triplet.span > maxCellIndex)
  }

  /** The warning checks, against `maxCellIndex`, the number of whole two-column cells of the grid. */
  function TripletWarningChecks(maxCellIndex: int, index: int, triplet: Triplet): seq<Condition>
  {
    var subject := TripletAt(index, triplet.id);
    [Condition(triplet.startCellIndex >= maxCellIndex && maxCellIndex > 0,
       Issue(subject, AtOrPast(StartCellIndex, triplet.startCellIndex, maxCellIndex))),
     Condition(triplet.startCellIndex + triplet.span > maxCellIndex && maxCellIndex > 0,
       Issue(subject, Past(EndCell, triplet.startCellIndex + triplet.span, maxCellIndex)))]
  }

  /** The warnings of the triplet at `index`: there are some exactly when it reaches past the grid. */
  function TripletWarnings(maxCellIndex: int, index: int, triplet: Triplet): (r: seq<Issue>)
    ensures |r| > 0 <==> TripletReachesPast(maxCellIndex, triplet)
  {
    var checks := TripletWarningChecks(maxCellIndex, index, triplet);
    RaisedEmpty(checks, 2);
    assert !checks[0].fires && !checks[1].fires <==> !TripletReachesPast(maxCellIndex, triplet);
    Raised(checks, 2)
  }

  /** What the triplet at `index` contributes to the triplets section. */
  function TripletReport(maxCellIndex: int, index: int, triplet: Triplet): (r: ItemReport)
    ensures r.valid == TripletValid(triplet) && (|r.errors| == 0 <==> r.valid)
    ensures |r.warnings| > 0 <==> TripletReachesPast(maxCellIndex, triplet)
  {
    ItemReport(TripletValid(triplet), TripletErrors(index, triplet), TripletWarnings(maxCellIndex, index, triplet))
  }

  /** `report` says of `triplet` what `TripletReport` does: its validity, its errors and its warnings agree. */
  predicate ReportsTriplet(maxCellIndex: int, triplet: Triplet, report: ItemReport)
  {
    report.valid == TripletValid(triplet) && (|report.errors| == 0 <==> report.valid) &&
    (|report.warnings| > 0 <==> TripletReachesPast(maxCellIndex, triplet))
  }

  /** What each of the first `n` triplets contributes to the triplets section, in list order. */
  function TripletReports(triplets: seq<Triplet>, maxCellIndex: int, n: int): (r: seq<ItemReport>)
    requires 0 <= n <= |triplets|
    ensures |r| == n
    ensures forall j :: 0 <= j < n ==> ReportsTriplet(maxCellIndex, triplets[j], r[j])
    decreases n
  {
    if n == 0 then []
    else TripletReports(triplets, maxCellIndex, n - 1) + [TripletReport(maxCellIndex, n - 1, triplets[n - 1])]
  }

  /** The body of the `triplets.forEach` of `validateTriplets`: the checks of one triplet, pushed into `result`. */
  method CheckTriplet(index: int, triplet: Triplet, maxCellIndex: int, result: ValidationResult)
    returns (after: ValidationResult)
    ensures after == Add(result, TripletReport(maxCellIndex, index, triplet))
  {
    var subject := TripletAt(index, triplet.id);
    ghost var checks := TripletChecks(index, triplet);
    ghost var warnings := TripletWarningChecks(maxCellIndex, index, triplet);
    var passed, pushed, warned := result.passed, [], [];
    if triplet.startCellIndex < 0 {
      pushed := pushed + [Issue(subject, IsNegative(StartCellIndex, triplet.startCellIndex))];
      passed := false;
    }
    assert pushed == Raised(checks, 1);
    if triplet.span <= 0 {
      pushed := pushed + [Issue(subject, NonPositiveSpan(triplet.span))];
      passed := false;
    }
    if triplet.startCellIndex >= maxCellIndex && maxCellIndex > 0 {
      warned := warned + [Issue(subject, AtOrPast(StartCellIndex, triplet.startCellIndex, maxCellIndex))];
    }
    assert warned == Raised(warnings, 1);
    var endCell := triplet.startCellIndex + triplet.span;
    if endCell > maxCellIndex && maxCellIndex > 0 {
      warned := warned + [Issue(subject, Past(EndCell, endCell, maxCellIndex))];
    }
    after := ValidationResult(passed, result.errors + pushed, result.warnings + warned);
  }

  /** The `triplets.forEach` of `validateTriplets`: the checks of each triplet, in list order. */
  method CheckTriplets(triplets: seq<Triplet>, maxCellIndex: int) returns (result: ValidationResult)
    ensures result == Sweep(TripletReports(triplets, maxCellIndex, |triplets|))
  {
    result := ValidationResult(true, [], []);
    var i := 0;
    while i < |triplets|
      invariant 0 <= i <= |triplets|
      invariant result == Sweep(TripletReports(triplets, maxCellIndex, i))
    {
      SweepSnoc(TripletReports(triplets, maxCellIndex, i), TripletReport(maxCellIndex, i, triplets[i]));
      result := CheckTriplet(i, triplets[i], maxCellIndex, result);
      i := i + 1;
    }
  }

  /**
   * `validateTriplets`: the checks of every triplet against `floor(columns / 2)` whole cells; the
   * section passes exactly when every triplet is valid, which is exactly when it reports no error.
   */
  method ValidateTriplets(s: Store) returns (result: ValidationResult)
    ensures result == Sweep(TripletReports(s.tripletPlacements, |s.columnWidths| / 2, |s.tripletPlacements|))
    ensures result.passed <==> AllTripletsValid(s.tripletPlacements)
    ensures result.passed <==> |result.errors| == 0
  {
    result := CheckTriplets(s.tripletPlacements, |s.columnWidths| / 2);
    TripletsPassed(s.tripletPlacements, |s.columnWidths| / 2);
  }

  /** The triplets section passes exactly when every triplet is valid, which is exactly when it reports no error. */
  lemma TripletsPassed(triplets: seq<Triplet>, maxCellIndex: int)
    ensures var result := Sweep(TripletReports(triplets, maxCellIndex, |triplets|));
      (result.passed <==> forall j :: 0 <= j < |triplets| ==> TripletValid(triplets[j])) &&
      (result.passed <==> |result.errors| == 0)
  {
    var reports := TripletReports(triplets, maxCellIndex, |triplets|);
    SweepPassed(reports);
    SweepNoErrors(reports);
  }

  /** The triplets section warns exactly when some triplet starts or ends past the grid's cells. */
  lemma TripletsWarn(triplets: seq<Triplet>, maxCellIndex: int)
    ensures |Sweep(TripletReports(triplets, maxCellIndex, |triplets|)).warnings| > 0 <==>
      exists j :: 0 <= j < |triplets| && TripletReachesPast(maxCellIndex, triplets[j])
  {
    var reports := TripletReports(triplets, maxCellIndex, |triplets|);
    SweepWarns(reports);
  }
}

module CoordinateTonicSigns {
  import opened StoreState
  import opened CoordinateChecks

  /** A sign passes when its column and pre-macrobeat index are non-negative and its number, if set, is 1..7. */
  predicate SignValid(sign: TonicSign)
  {
    sign.columnIndex >= 0 &&
    (sign.tonicNumber.Some? ==> 1 <= sign.tonicNumber.value <= 7) &&
    sign.preMacrobeatIndex >= 0
  }

  /** The error checks of the inner `forEach` of `validateTonicSigns`, in the order it makes them. */
  function SignChecks(groupKey: string, index: int, sign: TonicSign): seq<Condition>
  {
    var subject := TonicSignAt(groupKey, index);
    [Condition(sign.columnIndex < 0, Issue(subject, IsNegative(ColumnIndex, sign.columnIndex))),
     Condition(sign.tonicNumber.Some? && (sign.tonicNumber.value < 1 || sign.tonicNumber.value > 7),
       Issue(subject, TonicNumberOutOfRange(if sign.tonicNumber.Some? then sign.tonicNumber.value else 0))),
     Condition(sign.preMacrobeatIndex < 0, Issue(subject, IsNegative(PreMacrobeatIndex, sign.preMacrobeatIndex)))]
  }

  /** The errors of the sign at `groupKey[index]`: there are none exactly when the sign is valid. */
  function SignErrors(groupKey: string, index: int, sign: TonicSign): (r: seq<Issue>)
    ensures |r| == 0 <==> SignValid(sign)
  {
    var checks := SignChecks(groupKey, index, sign);
    RaisedEmpty(checks, 3);
    assert !checks[0].fires && !checks[1].fires && !checks[2].fires <==> SignValid(sign);
    Raised(checks, 3)
  }

  /** A sign occupies two columns: the grid has columns and the second is at or past the last. */
  predicate SignReachesPast(maxColumn: int, sign: TonicSign)
  {
    maxColumn > 0 && sign.columnIndex + 1 >= maxColumn
  }

  /** The warning of the sign at `groupKey[index]`, if it reaches past the grid. */
  function SignWarnings(groupKey: string, maxColumn: int, index: int, sign: TonicSign): (r: seq<Issue>)
    ensures |r| > 0 <==> SignReachesPast(maxColumn, sign)
  {
    If(sign.columnIndex + 1 >= maxColumn && maxColumn > 0,
       Issue(TonicSignAt(groupKey, index), AtOrPast(ColumnIndexPlusOne, sign.columnIndex + 1, maxColumn)))
  }

  /** What the sign at `groupKey[index]` contributes to the tonic-sign section. */
  function SignReport(groupKey: string, maxColumn: int, index: int, sign: TonicSign): (r: ItemReport)
    ensures r.valid == SignValid(sign) && (|r.errors| == 0 <==> r.valid)
    ensures |r.warnings| > 0 <==> SignReachesPast(maxColumn, sign)
  {
    ItemReport(SignValid(sign), SignErrors(groupKey, index, sign), SignWarnings(groupKey, maxColumn, index, sign))
  }

  /** What each of the first `n` signs of the group `groupKey` contributes, in list order. */
  function SignReports(groupKey: string, signs: seq<TonicSign>, maxColumn: int, n: int): (r: seq<ItemReport>)
    requires 0 <= n <= |signs|
    ensures |r| == n
    ensures forall j :: 0 <= j < n ==>
      r[j].valid == SignValid(signs[j]) && (|r[j].errors| == 0 <==> r[j].valid) &&
      (|r[j].warnings| > 0 <==> SignReachesPast(maxColumn, signs[j]))
    decreases n
  {
    if n == 0 then []
    else SignReports(groupKey, signs, maxColumn, n - 1) + [SignReport(groupKey, maxColumn, n - 1, signs[n - 1])]
  }

  /** Every sign of the group `key`, if the map has one. */
  predicate GroupValid(groups: map<string, seq<TonicSign>>, key: string)
  {
    key in groups ==> forall j :: 0 <= j < |groups[key]| ==> SignValid(groups[key][j])
  }

  /** Every sign of every group is valid. */
  predicate AllGroupsValid(groups: map<string, seq<TonicSign>>)
  {
    forall key, j :: key in groups && 0 <= j < |groups[key]| ==> SignValid(groups[key][j])
  }

  /** The issues of the signs of the group `key`, in list order; it passes exactly when every sign is valid. */
  function GroupReport(groups: map<string, seq<TonicSign>>, maxColumn: int, key: string): (r: ItemReport)
    ensures r.valid == GroupValid(groups, key) && (|r.errors| == 0 <==> r.valid)
  {
    if key in groups then
      var reports := SignReports(key, groups[key], maxColumn, |groups[key]|);
      SweepPassed(reports);
      SweepNoErrors(reports);
      var sweep := Sweep(reports);
      ItemReport(sweep.passed, sweep.errors, sweep.warnings)
    else ItemReport(true, [], [])
  }

  /** What each of the first `n` groups in the order of `keys` contributes to the section. */
  function GroupReports(groups: map<string, seq<TonicSign>>, maxColumn: int, keys: seq<string>, n: int): (r: seq<ItemReport>)
    requires 0 <= n <= |keys|
    ensures |r| == n
    ensures forall j :: 0 <= j < n ==>
      r[j].valid == GroupValid(groups, keys[j]) && (|r[j].errors| == 0 <==> r[j].valid)
    decreases n
  {
    if n == 0 then [] else GroupReports(groups, maxColumn, keys, n - 1) + [GroupReport(groups, maxColumn, keys[n - 1])]
  }

  /** `keys` lists every group of the map exactly once: the order of `Object.entries`. */
  ghost predicate EnumeratesKeys(keys: seq<string>, groups: map<string, seq<TonicSign>>)
  {
    (forall k :: k in groups <==> k in keys) &&
    (forall i, j :: 0 <= i < j < |keys| ==> keys[i] != keys[j])
  }

  /** The body of the inner `signs.forEach` of `validateTonicSigns`: the checks of one sign, pushed into `result`. */
  method CheckSign(groupKey: string, index: int, sign: TonicSign, maxColumn: int, result: ValidationResult)
    returns (after: ValidationResult)
    ensures after == Add(result, SignReport(groupKey, maxColumn, index, sign))
  {
    var subject := TonicSignAt(groupKey, index);
    ghost var checks := SignChecks(groupKey, index, sign);
    var passed, pushed, warned := result.passed, [], [];
    if sign.columnIndex < 0 {
      pushed := pushed + [Issue(subject, IsNegative(ColumnIndex, sign.columnIndex))];
      passed := false;
    }
    assert pushed == Raised(checks, 1);
    if sign.columnIndex + 1 >= maxColumn && maxColumn > 0 {
      warned := warned + [Issue(subject, AtOrPast(ColumnIndexPlusOne, sign.columnIndex + 1, maxColumn))];
    }
    if sign.tonicNumber.Some? && (sign.tonicNumber.value < 1 || sign.tonicNumber.value > 7) {
      pushed := pushed + [Issue(subject, TonicNumberOutOfRange(sign.tonicNumber.value))];
      passed := false;
    }
    assert pushed == Raised(checks, 2);
    if sign.preMacrobeatIndex < 0 {
      pushed := pushed + [Issue(subject, IsNegative(PreMacrobeatIndex, sign.preMacrobeatIndex))];
      passed := false;
    }
    after := ValidationResult(passed, result.errors + pushed, result.warnings + warned);
  }

  /** The inner `signs.forEach` over the group `groupKey`, pushing into the section's `result`. */
  method ValidateSignGroup(groupKey: string, signs: seq<TonicSign>, maxColumn: int, result: ValidationResult)
    returns (after: ValidationResult)
    ensures after == Merge(result, Sweep(SignReports(groupKey, signs, maxColumn, |signs|)))
  {
    after := result;
    var i := 0;
    while i < |signs|
      invariant 0 <= i <= |signs|
      invariant after == Merge(result, Sweep(SignReports(groupKey, signs, maxColumn, i)))
    {
      SignGroupStep(groupKey, signs, maxColumn, i, result);
      after := CheckSign(groupKey, i, signs[i], maxColumn, after);
      i := i + 1;
    }
  }

  /** One more sign of a group adds its report to what the group has merged into `result` so far. */
  lemma SignGroupStep(groupKey: string, signs: seq<TonicSign>, maxColumn: int, i: int, result: ValidationResult)
    requires 0 <= i < |signs|
    ensures Merge(result, Sweep(SignReports(groupKey, signs, maxColumn, i + 1))) ==
            Add(Merge(result, Sweep(SignReports(groupKey, signs, maxColumn, i))), SignReport(groupKey, maxColumn, i, signs[i]))
  {
    var reports := SignReports(groupKey, signs, maxColumn, i);
    var report := SignReport(groupKey, maxColumn, i, signs[i]);
    assert SignReports(groupKey, signs, maxColumn, i + 1) == reports + [report];
    SweepSnoc(reports, report);
    MergeAdd(result, Sweep(reports), report);
  }

  /** One more group merges the sweep of its signs into the section. */
  lemma GroupStep(groups: map<string, seq<TonicSign>>, maxColumn: int, keys: seq<string>, i: int)
    requires 0 <= i < |keys| && keys[i] in groups
    ensures Sweep(GroupReports(groups, maxColumn, keys, i + 1)) ==
            Merge(Sweep(GroupReports(groups, maxColumn, keys, i)),
                  Sweep(SignReports(keys[i], groups[keys[i]], maxColumn, |groups[keys[i]]|)))
  {
    var reports := GroupReports(groups, maxColumn, keys, i);
    var report := GroupReport(groups, maxColumn, keys[i]);
    assert GroupReports(groups, maxColumn, keys, i + 1) == reports + [report];
    SweepSnoc(reports, report);
  }

  /** The `Object.entries(tonicSignGroups).forEach` of `validateTonicSigns`: each group in the order of `keys`. */
  method CheckGroups(groups: map<string, seq<TonicSign>>, maxColumn: int, keys: seq<string>) returns (result: ValidationResult)
    requires forall k :: k in keys ==> k in groups
    ensures result == Sweep(GroupReports(groups, maxColumn, keys, |keys|))
  {
    result := ValidationResult(true, [], []);
    var i := 0;
    while i < |keys|
      invariant 0 <= i <= |keys|
      invariant result == Sweep(GroupReports(groups, maxColumn, keys, i))
    {
      var key := keys[i];
      assert key in keys;
      var signs := groups[key];
      GroupStep(groups, maxColumn, keys, i);
      result := ValidateSignGroup(key, signs, maxColumn, result);
      i := i + 1;
    }
  }

  /**
   * `validateTonicSigns`: every sign of every group is checked, group by group in the order
   * `keys` enumerates them; the section passes exactly when every sign is valid, which is exactly
   * when it reports no error.
   */
  method ValidateTonicSigns(s: Store, keys: seq<string>) returns (result: ValidationResult)
    requires EnumeratesKeys(keys, s.tonicSignGroups)
    ensures result == Sweep(GroupReports(s.tonicSignGroups, |s.columnWidths|, keys, |keys|))
    ensures result.passed <==> AllGroupsValid(s.tonicSignGroups)
    ensures result.passed <==> |result.errors| == 0
  {
    result := CheckGroups(s.tonicSignGroups, |s.columnWidths|, keys);
    TonicSignsPassed(s.tonicSignGroups, |s.columnWidths|, keys);
  }

  /**
   * The tonic-sign section passes exactly when every sign of every group is valid, which is
   * exactly when it reports no error.
   */
  lemma TonicSignsPassed(groups: map<string, seq<TonicSign>>, maxColumn: int, keys: seq<string>)
    requires EnumeratesKeys(keys, groups)
    ensures var result := Sweep(GroupReports(groups, maxColumn, keys, |keys|));
      (result.passed <==> forall key, j :: key in groups && 0 <= j < |groups[key]| ==> SignValid(groups[key][j])) &&
      (result.passed <==> |result.errors| == 0)
  {
    var reports := GroupReports(groups, maxColumn, keys, |keys|);
    SweepPassed(reports);
    SweepNoErrors(reports);
    assert (forall j :: 0 <= j < |keys| ==> GroupValid(groups, keys[j])) <==>
      (forall key :: key in groups ==> GroupValid(groups, key)) by {
      forall key | key in groups
        ensures exists j :: 0 <= j < |keys| && keys[j] == key
      {
      }
    }
  }
}

module CoordinateMarkers {
  import opened StoreState
  import opened CoordinateChecks

  /** A marker passes when its column (if set) and measure index are non-negative and its ratio positive. */
  predicate MarkerValid(marker: ModulationMarker)
  {
    (marker.columnIndex.Some? ==> marker.columnIndex.value >= 0) &&
    marker.measureIndex >= 0 && marker.ratio > 0.0
  }

  /** Every marker of the list is valid. */
  predicate AllMarkersValid(markers: seq<ModulationMarker>)
  {
    forall j :: 0 <= j < |markers| ==> MarkerValid(markers[j])
  }

  /** The error checks of `validateModulationMarkers`, in the order it makes them. */
  function MarkerChecks(index: int, marker: ModulationMarker): seq<Condition>
  {
    var subject := MarkerAt(index, marker.id);
    [Condition(marker.columnIndex.Some? && marker.columnIndex.value < 0,
       Issue(subject, IsNegative(ColumnIndex, if marker.columnIndex.Some? then marker.columnIndex.value else 0))),
     Condition(marker.measureIndex < 0, Issue(subject, IsNegative(MeasureIndex, marker.measureIndex))),
     Condition(marker.ratio <= 0.0, Issue(subject, NonPositiveRatio(marker.ratio)))]
  }

  /** The errors of the marker at `index`: there are none exactly when the marker is valid. */
  function MarkerErrors(index: int, marker: ModulationMarker): (r: seq<Issue>)
    ensures |r| == 0 <==> MarkerValid(marker)
  {
    var checks := MarkerChecks(index, marker);
    RaisedEmpty(checks, 3);
    assert !checks[0].fires && !checks[1].fires && !checks[2].fires <==> MarkerValid(marker);
    Raised(checks, 3)
  }

  /** The grid has columns and the marker's column is set and at or past the last of them. */
  predicate MarkerReachesPast(maxColumn: int, marker: ModulationMarker)
  {
    maxColumn > 0 && marker.columnIndex.Some? && marker.columnIndex.value >= maxColumn
  }

  /** The warning of the marker at `index`, if it reaches past the grid; an unset column is not checked. */
  function MarkerWarnings(maxColumn: int, index: int, marker: ModulationMarker): (r: seq<Issue>)
    ensures |r| > 0 <==> MarkerReachesPast(maxColumn, marker)
  {
    If(marker.columnIndex.Some? && marker.columnIndex.value >= maxColumn && maxColumn > 0,
       Issue(MarkerAt(index, marker.id),
             AtOrPast(ColumnIndex, if marker.columnIndex.Some? then marker.columnIndex.value else 0, maxColumn)))
  }

  /** What the marker at `index` contributes to the markers section. */
  function MarkerReport(maxColumn: int, index: int, marker: ModulationMarker): (r: ItemReport)
    ensures r.valid == MarkerValid(marker) && (|r.errors| == 0 <==> r.valid)
    ensures |r.warnings| > 0 <==> MarkerReachesPast(maxColumn, marker)
  {
    ItemReport(MarkerValid(marker), MarkerErrors(index, marker), MarkerWarnings(maxColumn, index, marker))
  }

  /** `report` says of `marker` what `MarkerReport` does: its validity, its errors and its warnings agree. */
  predicate ReportsMarker(maxColumn: int, marker: ModulationMarker, report: ItemReport)
  {
    report.valid == MarkerValid(marker) && (|report.errors| == 0 <==> report.valid) &&
    (|report.warnings| > 0 <==> MarkerReachesPast(maxColumn, marker))
  }

  /** What each of the first `n` markers contributes to the markers section, in list order. */
  function MarkerReports(markers: seq<ModulationMarker>, maxColumn: int, n: int): (r: seq<ItemReport>)
    requires 0 <= n <= |markers|
    ensures |r| == n
    ensures forall j :: 0 <= j < n ==> ReportsMarker(maxColumn, markers[j], r[j])
    decreases n
  {
    if n == 0 then [] else MarkerReports(markers, maxColumn, n - 1) + [MarkerReport(maxColumn, n - 1, markers[n - 1])]
  }

  /** The body of the `markers.forEach` of `validateModulationMarkers`: the checks of one marker, pushed into `result`. */
  method CheckMarker(index: int, marker: ModulationMarker, maxColumn: int, result: ValidationResult)
    returns (after: ValidationResult)
    ensures after == Add(result, MarkerReport(maxColumn, index, marker))
  {
    var subject := MarkerAt(index, marker.id);
    ghost var checks := MarkerChecks(index, marker);
    var passed, pushed, warned := result.passed, [], [];
    if marker.columnIndex.Some? && marker.columnIndex.value < 0 {
      pushed := pushed + [Issue(subject, IsNegative(ColumnIndex, marker.columnIndex.value))];
      passed := false;
    }
    assert pushed == Raised(checks, 1);
    if marker.columnIndex.Some? && marker.columnIndex.value >= maxColumn && maxColumn > 0 {
      warned := warned + [Issue(subject, AtOrPast(ColumnIndex, marker.columnIndex.value, maxColumn))];
    }
    if marker.measureIndex < 0 {
      pushed := pushed + [Issue(subject, IsNegative(MeasureIndex, marker.measureIndex))];
      passed := false;
    }
    assert pushed == Raised(checks, 2);
    if marker.ratio <= 0.0 {
      pushed := pushed + [Issue(subject, NonPositiveRatio(marker.ratio))];
      passed := false;
    }
    after := ValidationResult(passed, result.errors + pushed, result.warnings + warned);
  }

  /** The `markers.forEach` of `validateModulationMarkers`: the checks of each marker, in list order. */
  method CheckMarkers(markers: seq<ModulationMarker>, maxColumn: int) returns (result: ValidationResult)
    ensures result == Sweep(MarkerReports(markers, maxColumn, |markers|))
  {
    result := ValidationResult(true, [], []);
    var i := 0;
    while i < |markers|
      invariant 0 <= i <= |markers|
      invariant result == Sweep(MarkerReports(markers, maxColumn, i))
    {
      SweepSnoc(MarkerReports(markers, maxColumn, i), MarkerReport(maxColumn, i, markers[i]));
      result := CheckMarker(i, markers[i], maxColumn, result);
      i := i + 1;
    }
  }

  /**
   * `validateModulationMarkers`: the checks of every marker; the section passes exactly when
   * every marker is valid, which is exactly when it reports no error.
   */
  method ValidateModulationMarkers(s: Store) returns (result: ValidationResult)
    ensures result == Sweep(MarkerReports(s.modulationMarkers, |s.columnWidths|, |s.modulationMarkers|))
    ensures result.passed <==> AllMarkersValid(s.modulationMarkers)
    ensures result.passed <==> |result.errors| == 0
  {
    result := CheckMarkers(s.modulationMarkers, |s.columnWidths|);
    MarkersPassed(s.modulationMarkers, |s.columnWidths|);
  }

  /** The markers section passes exactly when every marker is valid, which is exactly when it reports no error. */
  lemma MarkersPassed(markers: seq<ModulationMarker>, maxColumn: int)
    ensures var result := Sweep(MarkerReports(markers, maxColumn, |markers|));
      (result.passed <==> forall j :: 0 <= j < |markers| ==> MarkerValid(markers[j])) &&
      (result.passed <==> |result.errors| == 0)
  {
    var reports := MarkerReports(markers, maxColumn, |markers|);
    SweepPassed(reports);
    SweepNoErrors(reports);
  }

  /** The markers section warns exactly when some marker's column is set and at or past the grid's columns. */
  lemma MarkersWarn(markers: seq<ModulationMarker>, maxColumn: int)
    ensures |Sweep(MarkerReports(markers, maxColumn, |markers|)).warnings| > 0 <==>
      exists j :: 0 <= j < |markers| && MarkerReachesPast(maxColumn, markers[j])
  {
    var reports := MarkerReports(markers, maxColumn, |markers|);
    SweepWarns(reports);
  }
}

module CoordinateWidths {
  import opened StoreState
  import opened CoordinateChecks

  /** A column width passes when it is a positive number. */
  predicate WidthValid(width: real)
  {
    width > 0.0
  }

  /** Every width of the list is valid. */
  predicate AllWidthsValid(widths: seq<real>)
  {
    forall j :: 0 <= j < |widths| ==> WidthValid(widths[j])
  }

  /** What the width at `index` contributes: an error when it is not positive, never a warning. */
  function WidthReport(index: int, width: real): (r: ItemReport)
    ensures r.valid == WidthValid(width) && (|r.errors| == 0 <==> r.valid) && |r.warnings| == 0
  {
    ItemReport(WidthValid(width), If(width <= 0.0, Issue(ColumnWidthAt(index), WidthNotPositive(width))), [])
  }

  /** What each of the first `n` widths contributes, in list order. */
  function WidthReports(widths: seq<real>, n: int): (r: seq<ItemReport>)
    requires 0 <= n <= |widths|
    ensures |r| == n
    ensures forall j :: 0 <= j < n ==> r[j].valid == WidthValid(widths[j]) && (|r[j].errors| == 0 <==> r[j].valid)
    decreases n
  {
    if n == 0 then [] else WidthReports(widths, n - 1) + [WidthReport(n - 1, widths[n - 1])]
  }

  /** How validating the column widths ends: with a report, or with an exception. */
  datatype Outcome = Returned(result: ValidationResult) | Threw(error: string)

  /** The `columnWidths.forEach` of `validateColumnWidths`: one error per width that is not positive. */
  method CheckWidths(widths: seq<real>) returns (result: ValidationResult)
    ensures result == Sweep(WidthReports(widths, |widths|))
  {
    result := ValidationResult(true, [], []);
    var i := 0;
    while i < |widths|
      invariant 0 <= i <= |widths|
      invariant result == Sweep(WidthReports(widths, i))
    {
      SweepSnoc(WidthReports(widths, i), WidthReport(i, widths[i]));
      if widths[i] <= 0.0 {
        result := ValidationResult(false, result.errors + [Issue(ColumnWidthAt(i), WidthNotPositive(widths[i]))], result.warnings);
      }
      i := i + 1;
    }
  }

  /** The widths section passes exactly when every width is positive, which is exactly when it reports no error. */
  lemma WidthsPassed(widths: seq<real>)
    ensures var result := Sweep(WidthReports(widths, |widths|));
      (result.passed <==> forall j :: 0 <= j < |widths| ==> WidthValid(widths[j])) &&
      (result.passed <==> |result.errors| == 0)
  {
    var reports := WidthReports(widths, |widths|);
    SweepPassed(reports);
    SweepNoErrors(reports);
    forall j | 0 <= j < |widths|
      ensures reports[j].valid == WidthValid(widths[j])
    {
    }
  }

  /**
   * `validateColumnWidths` as written: after checking the widths it reads `musicalColumnWidths`,
   * a name the module never declares, so every call throws a `ReferenceError`.
   */
  method ValidateColumnWidthsAsWritten(s: Store) returns (outcome: Outcome)
    ensures outcome.Threw?
  {
    var widths := CheckWidths(s.columnWidths);
    outcome := Threw("ReferenceError: musicalColumnWidths is not defined");
  }

  /**
   * `validateColumnWidths` reading the deprecated widths from the state (`musicalColumnWidths`,
   * the empty list when the state has none): the width errors, then a warning while deprecated
   * widths remain and a warning for an empty grid.
   */
  method ValidateColumnWidths(s: Store, musicalColumnWidths: seq<real>) returns (result: ValidationResult)
    ensures result.passed <==> AllWidthsValid(s.columnWidths)
    ensures result.passed <==> |result.errors| == 0
    ensures result.errors == Sweep(WidthReports(s.columnWidths, |s.columnWidths|)).errors
    ensures result.warnings ==
      If(|musicalColumnWidths| > 0, Issue(ColumnWidths, DeprecatedWidths(|musicalColumnWidths|))) +
      If(|s.columnWidths| == 0, Issue(ColumnWidths, NoColumns))
  {
    var columnWidths := s.columnWidths;
    var widths := CheckWidths(columnWidths);
    WidthsPassed(columnWidths);
    var warnings := [];
    if |musicalColumnWidths| > 0 {
      warnings := warnings + [Issue(ColumnWidths, DeprecatedWidths(|musicalColumnWidths|))];
    }
    assert warnings == If(|musicalColumnWidths| > 0, Issue(ColumnWidths, DeprecatedWidths(|musicalColumnWidths|)));
    if |columnWidths| == 0 {
      warnings := warnings + [Issue(ColumnWidths, NoColumns)];
    }
    result := ValidationResult(widths.passed, widths.errors, warnings);
  }
}

module CoordinateValidator {
  import opened StoreState
  import opened CoordinateChecks
  import opened CoordinateNotes
  import opened CoordinateStamps
  import opened CoordinateTriplets
  import opened CoordinateTonicSigns
  import opened CoordinateMarkers
  import opened CoordinateWidths

  /** `ValidationReport`: the six sections and the overall verdict. */
  datatype ValidationReport = ValidationReport(
    overall: bool,
    notes: ValidationResult,
    stamps: ValidationResult,
    triplets: ValidationResult,
    tonicSigns: ValidationResult,
    modulationMarkers: ValidationResult,
    columnWidths: ValidationResult)

  /** Every coordinate of the state is valid. */
  predicate StateValid(s: Store)
    reads s
  {
    AllNotesValid(s.placedNotes) && AllStampsValid(s.stampPlacements) && AllTripletsValid(s.tripletPlacements) &&
    AllGroupsValid(s.tonicSignGroups) && AllMarkersValid(s.modulationMarkers) && AllWidthsValid(s.columnWidths)
  }

  /** `runAllValidations` as written: the column-width section throws, so no report is produced. */
  method RunAllValidationsAsWritten(s: Store, keys: seq<string>) returns (outcome: Outcome)
    requires EnumeratesKeys(keys, s.tonicSignGroups)
    ensures outcome.Threw?
  {
    var notes := ValidateNotes(s);
    var stamps := ValidateStamps(s);
    var triplets := ValidateTriplets(s);
    var tonicSigns := ValidateTonicSigns(s, keys);
    var markers := ValidateModulationMarkers(s);
    outcome := ValidateColumnWidthsAsWritten(s);
  }

  /**
   * `runAllValidations` with the corrected column-width section: each section holds that
   * section's own result, and `overall` is the conjunction of the six sections' `passed` flags,
   * which holds exactly when every coordinate is valid.
   */
  method RunAllValidations(s: Store, keys: seq<string>, musicalColumnWidths: seq<real>) returns (report: ValidationReport)
    requires EnumeratesKeys(keys, s.tonicSignGroups)
    ensures report.overall == (report.notes.passed && report.stamps.passed && report.triplets.passed &&
                               report.tonicSigns.passed && report.modulationMarkers.passed && report.columnWidths.passed)
    ensures report.overall <==> StateValid(s)
    ensures report.notes == Sweep(NoteReports(s.placedNotes, |s.columnWidths|, |s.placedNotes|))
    ensures report.stamps == Sweep(StampReports(s.stampPlacements, |s.columnWidths|, |s.stampPlacements|))
    ensures report.triplets == Sweep(TripletReports(s.tripletPlacements, |s.columnWidths| / 2, |s.tripletPlacements|))
    ensures report.tonicSigns == Sweep(GroupReports(s.tonicSignGroups, |s.columnWidths|, keys, |keys|))
    ensures report.modulationMarkers == Sweep(MarkerReports(s.modulationMarkers, |s.columnWidths|, |s.modulationMarkers|))
    ensures report.columnWidths.passed <==> AllWidthsValid(s.columnWidths)
    ensures report.columnWidths.errors == Sweep(WidthReports(s.columnWidths, |s.columnWidths|)).errors
    ensures report.columnWidths.warnings ==
      If(|musicalColumnWidths| > 0, Issue(ColumnWidths, DeprecatedWidths(|musicalColumnWidths|))) +
      If(|s.columnWidths| == 0, Issue(ColumnWidths, NoColumns))
  {
    var notes := ValidateNotes(s);
    var stamps := ValidateStamps(s);
    var triplets := ValidateTriplets(s);
    var tonicSigns := ValidateTonicSigns(s, keys);
    var markers := ValidateModulationMarkers(s);
    var widths := ValidateColumnWidths(s, musicalColumnWidths);
    var overall := notes.passed && stamps.passed && triplets.passed && tonicSigns.passed && markers.passed && widths.passed;
    report := ValidationReport(overall, notes, stamps, triplets, tonicSigns, markers, widths);
  }
}
