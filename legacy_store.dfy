/**
 * The first, self-contained store of the app (js/state/store.js): one object holding the notes,
 * the macrobeat groupings and the grid window, changed in place by its actions.
 */
module LegacyStore {
  import opened JsArrays
  import opened StoreState
  import NoteActions

  /** The part of the store's `state` its note, grid and rhythm actions read and change. */
  class Store {
    var placedNotes: seq<Note>
    var macrobeatGroupings: seq<int>
    var macrobeatBoundaryStyles: seq<bool>
    var fullRowData: seq<PitchRow>
    var gridPosition: int
    var logicRows: int

    /** The initial state: no notes, nineteen macrobeats of two, no rows yet, the window at row 34 of 20 rows. */
    constructor ()
      ensures placedNotes == [] && fullRowData == []
      ensures macrobeatGroupings == seq(19, _ => 2) && macrobeatBoundaryStyles == seq(19, _ => false)
      ensures gridPosition == 34 && logicRows == 20
    {
      placedNotes := [];
      macrobeatGroupings := seq(19, _ => 2);
      macrobeatBoundaryStyles := seq(19, _ => false);
      fullRowData := [];
      gridPosition := 34;
      logicRows := 20;
    }

    /** The window of `logicRows` rows starting at `gridPosition` lies inside the row data. */
    predicate WindowInRows()
      reads this
    {
      0 <= gridPosition && gridPosition + logicRows <= |fullRowData|
    }

    /** `shiftGridUp`: the window moves up one row unless it is at the top. */
    method ShiftGridUp()
      modifies this`gridPosition
      ensures gridPosition == ShiftedUp(old(gridPosition))
      ensures old(WindowInRows()) ==> WindowInRows()
    {
      if gridPosition > 0 {
        gridPosition := gridPosition - 1;
      }
    }

    /** `shiftGridDown`: the window moves down one row unless its last row is the last of the data. */
    method ShiftGridDown()
      modifies this`gridPosition
      ensures gridPosition == ShiftedDown(old(gridPosition), logicRows, |fullRowData|)
      ensures old(WindowInRows()) ==> WindowInRows()
    {
      if gridPosition + logicRows < |fullRowData| {
        gridPosition := gridPosition + 1;
      }
    }

    /** `toggleMacrobeatGrouping(index)`: the grouping at `index` becomes 3 if it was 2, and 2 otherwise. */
    method ToggleMacrobeatGrouping(index: int)
      requires 0 <= index < |macrobeatGroupings|
      modifies this`macrobeatGroupings
      ensures macrobeatGroupings == ToggledAt(old(macrobeatGroupings), index)
    {
      var current := macrobeatGroupings[index];
      macrobeatGroupings := macrobeatGroupings[index := if current == 2 then 3 else 2];
    }

    /** `toggleMacrobeatBoundaryStyle(index)`: the style at `index` is negated. */
    method ToggleMacrobeatBoundaryStyle(index: int)
      requires 0 <= index < |macrobeatBoundaryStyles|
      modifies this`macrobeatBoundaryStyles
      ensures macrobeatBoundaryStyles == old(macrobeatBoundaryStyles)[index := !old(macrobeatBoundaryStyles)[index]]
    {
      macrobeatBoundaryStyles := macrobeatBoundaryStyles[index := !macrobeatBoundaryStyles[index]];
    }

    /** `increaseMacrobeatCount`: a macrobeat of two is appended. */
    method IncreaseMacrobeatCount()
      modifies this`macrobeatGroupings
      ensures macrobeatGroupings == Increased(old(macrobeatGroupings))
    {
      macrobeatGroupings := macrobeatGroupings + [2];
    }

    /** `decreaseMacrobeatCount`: the last macrobeat is dropped unless it is the only one. */
    method DecreaseMacrobeatCount()
      modifies this`macrobeatGroupings
      ensures macrobeatGroupings == Decreased(old(macrobeatGroupings))
    {
      if |macrobeatGroupings| > 1 {
        macrobeatGroupings := macrobeatGroupings[..|macrobeatGroupings| - 1];
      }
    }

    /**
     * `eraseNoteAt(colIndex, row)`: every non-drum note on the row whose columns include the column
     * is filtered out; `changed` is whether the count dropped, when the store announces the change.
     */
    method EraseNoteAt(colIndex: int, row: int) returns (changed: bool)
      modifies this`placedNotes
      ensures placedNotes == Reject(old(placedNotes), NoteActions.CoversColumn(colIndex, row))
      ensures changed <==> exists n :: n in old(placedNotes) && NoteActions.CoversColumn(colIndex, row)(n)
    {
      var initialCount := |placedNotes|;
      RejectShrinks(placedNotes, NoteActions.CoversColumn(colIndex, row));
      placedNotes := Reject(placedNotes, NoteActions.CoversColumn(colIndex, row));
      changed := |placedNotes| < initialCount;
    }

    /**
     * `toggleDrumNote(drumHit)`: the first drum note on the hit's track at its start column is
     * spliced out, or the hit itself is pushed when there is none.
     */
    method ToggleDrumNote(drumHit: Note)
      modifies this`placedNotes
      ensures placedNotes == NoteActions.ToggledDrumNotes(old(placedNotes), drumHit, drumHit)
    {
      var existingIndex := FindIndex(placedNotes, NoteActions.SameDrumSlot(drumHit));
      if existingIndex >= 0 {
        placedNotes := placedNotes[..existingIndex] + placedNotes[existingIndex + 1..];
      } else {
        placedNotes := placedNotes + [drumHit];
      }
    }
  }

  /** The grid position after `shiftGridUp`: one less, but never below 0. */
  function ShiftedUp(gridPosition: int): (r: int)
    ensures gridPosition > 0 ==> r == gridPosition - 1
    ensures gridPosition <= 0 ==> r == gridPosition
  {
    if gridPosition > 0 then gridPosition - 1 else gridPosition
  }

  /** The grid position after `shiftGridDown`: one more, while the window's end stays within `rows`. */
  function ShiftedDown(gridPosition: int, logicRows: int, rows: int): (r: int)
    ensures gridPosition + logicRows < rows ==> r == gridPosition + 1
    ensures gridPosition + logicRows >= rows ==> r == gridPosition
  {
    if gridPosition + logicRows < rows then gridPosition + 1 else gridPosition
  }

  /** Shifting up and then down returns a window that moved back to where it was. */
  lemma ShiftUpThenDown(gridPosition: int, logicRows: int, rows: int)
    requires 0 < gridPosition && gridPosition + logicRows <= rows
    ensures ShiftedDown(ShiftedUp(gridPosition), logicRows, rows) == gridPosition
  {
  }

  /** The grouping `toggleMacrobeatGrouping` writes: 3 for a 2, and 2 for anything else. */
  function Toggled(grouping: int): (r: int)
    ensures r == 2 || r == 3
    ensures grouping == 2 <==> r == 3
  {
    if grouping == 2 then 3 else 2
  }

  /** The groupings with the one at `index` toggled. */
  function ToggledAt(groupings: seq<int>, index: int): (r: seq<int>)
    requires 0 <= index < |groupings|
    ensures |r| == |groupings| && r[index] == Toggled(groupings[index])
    ensures forall k :: 0 <= k < |r| && k != index ==> r[k] == groupings[k]
  {
    groupings[index := Toggled(groupings[index])]
  }

  /** Toggling the same macrobeat twice restores a grouping of 2 or 3. */
  lemma ToggleTwice(groupings: seq<int>, index: int)
    requires 0 <= index < |groupings| && (groupings[index] == 2 || groupings[index] == 3)
    ensures ToggledAt(ToggledAt(groupings, index), index) == groupings
  {
    assert ToggledAt(ToggledAt(groupings, index), index)[index] == groupings[index];
  }

  /** The groupings after `increaseMacrobeatCount`. */
  function Increased(groupings: seq<int>): (r: seq<int>)
    ensures |r| == |groupings| + 1 && r[..|groupings|] == groupings && r[|groupings|] == 2
  {
    groupings + [2]
  }

  /** The groupings after `decreaseMacrobeatCount`: the last dropped while more than one remain. */
  function Decreased(groupings: seq<int>): (r: seq<int>)
    ensures |groupings| > 1 ==> |r| == |groupings| - 1 && r == groupings[..|groupings| - 1]
    ensures |groupings| <= 1 ==> r == groupings
    ensures |groupings| >= 1 ==> |r| >= 1
  {
    if |groupings| > 1 then groupings[..|groupings| - 1] else groupings
  }

  /**
   * With at least one macrobeat, which the store starts with and which `decreaseMacrobeatCount`
   * keeps, adding a macrobeat and taking one away leaves the groupings as they were.
   */
  lemma IncreaseThenDecrease(groupings: seq<int>)
    requires |groupings| >= 1
    ensures Decreased(Increased(groupings)) == groupings
  {
    assert Increased(groupings)[..|groupings|] == groupings;
  }
}
