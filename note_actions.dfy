/**
 * Note and tonic-sign actions (js/state/actions/noteActions.js): erasing notes, toggling drum hits,
 * and adding or erasing a tonic-sign group, which inserts or removes one column and shifts the
 * notes at or after it.
 */
module NoteActions {
  import opened Wrappers
  import opened JsText
  import opened JsArrays
  import opened StoreState

  /** The `preMacrobeatIndex` of every sign of every group (`Object.values(groups).flat().map(...)`). */
  function TonicIndices(groups: map<string, seq<TonicSign>>): set<int>
  {
    set k, j | k in groups && 0 <= j < |groups[k]| :: groups[k][j].preMacrobeatIndex
  }

  /** The widths of the macrobeats before index `i`, as far as they exist. */
  function WidthBefore(groupings: seq<int>, i: int): int
  {
    Sum(groupings[..if i <= 0 then 0 else if i > |groupings| then |groupings| else i])
  }

  /** The tonic positions passed before reaching `i`: those in `[-1, i)`. */
  function TonicsBefore(indices: set<int>, i: int): set<int>
  {
    set t | t in indices && -1 <= t < i
  }

  /**
   * The column a tonic sign following macrobeat `p` starts at: the two legend columns, the widths of
   * the macrobeats `0 .. p - 1`, and two columns for each distinct tonic position in `[-1, p - 1]`.
   */
  function InsertionColumn(groupings: seq<int>, groups: map<string, seq<TonicSign>>, p: int): int
  {
    2 + WidthBefore(groupings, p) + 2 * |TonicsBefore(TonicIndices(groups), p)|
  }

  lemma WidthBeforeStep(groupings: seq<int>, i: int)
    requires i >= -1
    ensures WidthBefore(groupings, i + 1) ==
      WidthBefore(groupings, i) + (if 0 <= i < |groupings| then groupings[i] else 0)
  {
    if 0 <= i < |groupings| {
      assert groupings[..i + 1] == groupings[..i] + [groupings[i]];
      SumSnoc(groupings[..i], groupings[i]);
    }
  }

  lemma TonicsBeforeStep(indices: set<int>, i: int)
    ensures |TonicsBefore(indices, i + 1)| == |TonicsBefore(indices, i)| + (if i in indices && i >= -1 then 1 else 0)
  {
    if i in indices && i >= -1 {
      assert TonicsBefore(indices, i + 1) == TonicsBefore(indices, i) + {i};
    } else {
      assert TonicsBefore(indices, i + 1) == TonicsBefore(indices, i);
    }
  }

  /** `calculateTonicInsertionColumn`: the loop over macrobeat positions `-1 .. p - 1`. */
  method CalculateTonicInsertionColumn(preMacrobeatIndex: int, s: Store) returns (columnIndex: int)
    ensures columnIndex == InsertionColumn(s.macrobeatGroupings, s.tonicSignGroups, preMacrobeatIndex)
  {
    columnIndex := 2;
    var groupings := s.macrobeatGroupings;
    var existingTonicIndices := TonicIndices(s.tonicSignGroups);
    var i := -1;
    while i < preMacrobeatIndex
      invariant -1 <= i && (preMacrobeatIndex >= -1 ==> i <= preMacrobeatIndex)
      invariant preMacrobeatIndex < -1 ==> i == -1
      invariant columnIndex == 2 + WidthBefore(groupings, i) + 2 * |TonicsBefore(existingTonicIndices, i)|
    {
      WidthBeforeStep(groupings, i);
      TonicsBeforeStep(existingTonicIndices, i);
      if i > -1 && i < |groupings| {
        columnIndex := columnIndex + groupings[i];
      }
      if i in existingTonicIndices {
        columnIndex := columnIndex + 2;
      }
      i := i + 1;
    }
    if preMacrobeatIndex < -1 {
      assert TonicsBefore(existingTonicIndices, i) == TonicsBefore(existingTonicIndices, preMacrobeatIndex);
      assert groupings[..0] == [];
    }
  }

  /** A later insertion point never lies before an earlier one while macrobeat widths are non-negative. */
  lemma InsertionColumnMonotone(groupings: seq<int>, groups: map<string, seq<TonicSign>>, p: int, q: int)
    requires p <= q
    requires forall k :: 0 <= k < |groupings| ==> groupings[k] >= 0
    ensures 2 <= InsertionColumn(groupings, groups, p) || p > 0
    ensures InsertionColumn(groupings, groups, p) <= InsertionColumn(groupings, groups, q)
    decreases q - p
  {
    if p < q {
      InsertionColumnMonotone(groupings, groups, p, q - 1);
      if q - 1 >= -1 {
        WidthBeforeStep(groupings, q - 1);
      } else {
        assert WidthBefore(groupings, q) == WidthBefore(groupings, q - 1);
      }
      TonicsBeforeStep(TonicIndices(groups), q - 1);
    } else if p <= 0 {
      assert groupings[..0] == [];
    }
  }

  /** The note at or after `boundary` moved by `amount` on both ends; other notes unchanged. */
  function ShiftNote(note: Note, boundary: int, amount: int): Note
  {
    if note.startColumnIndex >= boundary then
      note.(startColumnIndex := note.startColumnIndex + amount, endColumnIndex := note.endColumnIndex + amount)
    else note
  }

  function ShiftedNotes(notes: seq<Note>, boundary: int, amount: int): (r: seq<Note>)
    ensures |r| == |notes|
    ensures forall i :: 0 <= i < |notes| ==> r[i] == ShiftNote(notes[i], boundary, amount)
  {
    seq(|notes|, i requires 0 <= i < |notes| => ShiftNote(notes[i], boundary, amount))
  }

  /** Shifting notes at or after a column right by one and then left by one restores every note. */
  lemma ShiftRoundTrip(notes: seq<Note>, boundary: int)
    ensures ShiftedNotes(ShiftedNotes(notes, boundary, 1), boundary, -1) == notes
  {
    var back := ShiftedNotes(ShiftedNotes(notes, boundary, 1), boundary, -1);
    forall i | 0 <= i < |notes|
      ensures back[i] == notes[i]
    {
      var n := notes[i];
      if n.startColumnIndex >= boundary {
        assert ShiftNote(n, boundary, 1).startColumnIndex >= boundary;
      }
    }
  }

  /** The `forEach` that moves every note starting at or after `boundary` by `amount` columns. */
  method ShiftNotesFrom(s: Store, boundary: int, amount: int)
    modifies s`placedNotes
    ensures s.placedNotes == ShiftedNotes(old(s.placedNotes), boundary, amount)
  {
    ghost var start := s.placedNotes;
    var i := 0;
    while i < |s.placedNotes|
      invariant 0 <= i <= |s.placedNotes| == |start|
      invariant forall k :: 0 <= k < i ==> s.placedNotes[k] == ShiftNote(start[k], boundary, amount)
      invariant forall k :: i <= k < |start| ==> s.placedNotes[k] == start[k]
    {
      var note := s.placedNotes[i];
      if note.startColumnIndex >= boundary {
        note := note.(startColumnIndex := note.startColumnIndex + amount, endColumnIndex := note.endColumnIndex + amount);
      }
      s.placedNotes := s.placedNotes[i := note];
      i := i + 1;
    }
  }

  /** Each sign of the group tagged with the group's uuid (`group.map(sign => ({ ...sign, uuid }))`). */
  function WithUuid(group: seq<TonicSign>, uuid: string): (r: seq<TonicSign>)
    ensures |r| == |group|
    ensures forall i :: 0 <= i < |group| ==> r[i] == group[i].(uuid := Some(uuid))
  {
    seq(|group|, i requires 0 <= i < |group| => group[i].(uuid := Some(uuid)))
  }

  /**
   * `addTonicSignGroup`: a no-op when some sign already sits at the first sign's `preMacrobeatIndex`;
   * otherwise the notes at or after the insertion column move right by one and the group is stored
   * under `freshUuid` with every sign carrying that uuid.
   */
  method AddTonicSignGroup(s: Store, tonicSignGroup: seq<TonicSign>, freshUuid: string)
    requires |tonicSignGroup| > 0
    modifies s`placedNotes, s`tonicSignGroups
    ensures var p := tonicSignGroup[0].preMacrobeatIndex;
      (p in TonicIndices(old(s.tonicSignGroups)) ==>
        s.placedNotes == old(s.placedNotes) && s.tonicSignGroups == old(s.tonicSignGroups)) &&
      (p !in TonicIndices(old(s.tonicSignGroups)) ==>
        s.placedNotes == ShiftedNotes(old(s.placedNotes),
                                      InsertionColumn(s.macrobeatGroupings, old(s.tonicSignGroups), p), 1) &&
        s.tonicSignGroups == old(s.tonicSignGroups)[freshUuid := WithUuid(tonicSignGroup, freshUuid)])
  {
    var preMacrobeatIndex := tonicSignGroup[0].preMacrobeatIndex;
    if preMacrobeatIndex in TonicIndices(s.tonicSignGroups) {
      return;
    }
    var boundaryColumn := CalculateTonicInsertionColumn(preMacrobeatIndex, s);
    ShiftNotesFrom(s, boundaryColumn, 1);
    s.tonicSignGroups := s.tonicSignGroups[freshUuid := WithUuid(tonicSignGroup, freshUuid)];
  }

  /** Every stored group has a first sign (the erase path reads `group[0]`). */
  predicate NonEmptyGroups(groups: map<string, seq<TonicSign>>)
  {
    forall k :: k in groups ==> |groups[k]| > 0
  }

  /**
   * `eraseTonicSignGroup`: `false` for an unknown uuid; otherwise the insertion column of the group's
   * position is computed while the group is still present, the group is deleted, and the notes at or
   * after that column move left by one.
   */
  method EraseTonicSignGroup(s: Store, uuid: string) returns (erased: bool)
    requires uuid in s.tonicSignGroups ==> |s.tonicSignGroups[uuid]| > 0
    modifies s`placedNotes, s`tonicSignGroups
    ensures erased <==> uuid in old(s.tonicSignGroups)
    ensures !erased ==> s.placedNotes == old(s.placedNotes) && s.tonicSignGroups == old(s.tonicSignGroups)
    ensures erased ==>
      s.tonicSignGroups == old(s.tonicSignGroups) - {uuid} &&
      s.placedNotes == ShiftedNotes(old(s.placedNotes),
                                    InsertionColumn(s.macrobeatGroupings, old(s.tonicSignGroups),
                                                    old(s.tonicSignGroups)[uuid][0].preMacrobeatIndex), -1)
  {
    if uuid !in s.tonicSignGroups {
      return false;
    }
    var preMacrobeatIndex := s.tonicSignGroups[uuid][0].preMacrobeatIndex;
    var boundaryColumn := CalculateTonicInsertionColumn(preMacrobeatIndex, s);
    s.tonicSignGroups := s.tonicSignGroups - {uuid};
    ShiftNotesFrom(s, boundaryColumn, -1);
    return true;
  }

  /**
   * Erasing a just-added group undoes the addition: the group's own position is not counted when its
   * insertion column is recomputed, so the same notes move back by the same column and the groups are
   * as before. (The signs of one group share one `preMacrobeatIndex`; the uuid is new.)
   */
  lemma EraseUndoesAdd(notes: seq<Note>, groupings: seq<int>, groups: map<string, seq<TonicSign>>,
                       group: seq<TonicSign>, uuid: string)
    requires |group| > 0 && uuid !in groups
    requires forall i :: 0 <= i < |group| ==> group[i].preMacrobeatIndex == group[0].preMacrobeatIndex
    requires group[0].preMacrobeatIndex !in TonicIndices(groups)
    ensures var p := group[0].preMacrobeatIndex;
      var added := groups[uuid := WithUuid(group, uuid)];
      var shifted := ShiftedNotes(notes, InsertionColumn(groupings, groups, p), 1);
      added[uuid][0].preMacrobeatIndex == p &&
      InsertionColumn(groupings, added, p) == InsertionColumn(groupings, groups, p) &&
      ShiftedNotes(shifted, InsertionColumn(groupings, added, p), -1) == notes &&
      added - {uuid} == groups
  {
    var p := group[0].preMacrobeatIndex;
    var added := groups[uuid := WithUuid(group, uuid)];
    assert TonicIndices(added) == TonicIndices(groups) + {p} by {
      forall t | t in TonicIndices(added)
        ensures t in TonicIndices(groups) + {p}
      {
        var k, j :| k in added && 0 <= j < |added[k]| && added[k][j].preMacrobeatIndex == t;
        if k != uuid {
          assert groups[k][j].preMacrobeatIndex == t;
        }
      }
      assert added[uuid][0].preMacrobeatIndex == p;
      forall t | t in TonicIndices(groups)
        ensures t in TonicIndices(added)
      {
        var k, j :| k in groups && 0 <= j < |groups[k]| && groups[k][j].preMacrobeatIndex == t;
        assert added[k][j].preMacrobeatIndex == t;
      }
    }
    assert TonicsBefore(TonicIndices(added), p) == TonicsBefore(TonicIndices(groups), p);
    ShiftRoundTrip(notes, InsertionColumn(groupings, groups, p));
    assert added - {uuid} == groups;
  }

  /** The test of `eraseNoteAt`: a non-drum note on `row` whose columns include `colIndex`. */
  function CoversColumn(colIndex: int, row: int): Note -> bool
  {
    (n: Note) => !n.isDrum && n.row == row && n.startColumnIndex <= colIndex <= n.endColumnIndex
  }

  /**
   * `eraseNoteAt`: every non-drum note on the row covering the column is filtered out; the answer is
   * whether the note count dropped, that is whether any such note existed.
   */
  method EraseNoteAt(s: Store, colIndex: int, row: int) returns (wasErased: bool)
    modifies s`placedNotes
    ensures s.placedNotes == Reject(old(s.placedNotes), CoversColumn(colIndex, row))
    ensures wasErased <==> exists n :: n in old(s.placedNotes) && CoversColumn(colIndex, row)(n)
  {
    var initialCount := |s.placedNotes|;
    RejectShrinks(s.placedNotes, CoversColumn(colIndex, row));
    s.placedNotes := Reject(s.placedNotes, CoversColumn(colIndex, row));
    wasErased := |s.placedNotes| < initialCount;
  }

  /** The drum slot test of `toggleDrumNote`: a drum note on the hit's track at the hit's start column. */
  predicate InDrumSlot(drumHit: Note, n: Note)
  {
    n.isDrum && n.drumTrack == drumHit.drumTrack && n.startColumnIndex == drumHit.startColumnIndex
  }

  /** `InDrumSlot` as the callback handed to `findIndex`. */
  function SameDrumSlot(drumHit: Note): Note -> bool
  {
    (n: Note) => InDrumSlot(drumHit, n)
  }

  /** The notes after toggling: the first note in the hit's slot spliced out, or `added` appended when there is none. */
  function ToggledDrumNotes(notes: seq<Note>, drumHit: Note, added: Note): (r: seq<Note>)
    ensures (exists n :: n in notes && SameDrumSlot(drumHit)(n)) ==> |r| == |notes| - 1
    ensures (exists n :: n in notes && InDrumSlot(drumHit, n)) ==>
      exists i :: 0 <= i < |notes| && InDrumSlot(drumHit, notes[i]) &&
        (forall k :: 0 <= k < i ==> !InDrumSlot(drumHit, notes[k])) && r == notes[..i] + notes[i + 1..]
    ensures (forall n :: n in notes ==> !SameDrumSlot(drumHit)(n)) ==> r == notes + [added]
  {
    var i := FindIndex(notes, SameDrumSlot(drumHit));
    if i >= 0 then
      var r := notes[..i] + notes[i + 1..];
      FirstInSlot(notes, drumHit, i, r);
      r
    else notes + [added]
  }

  /** The index `findIndex` returns witnesses the first note in the slot, and the splice drops only it. */
  lemma FirstInSlot(notes: seq<Note>, drumHit: Note, i: int, r: seq<Note>)
    requires 0 <= i < |notes| && SameDrumSlot(drumHit)(notes[i])
    requires forall k :: 0 <= k < i ==> !SameDrumSlot(drumHit)(notes[k])
    requires r == notes[..i] + notes[i + 1..]
    ensures |r| == |notes| - 1
    ensures exists j :: (0 <= j < |notes| && InDrumSlot(drumHit, notes[j]) &&
      (forall k :: 0 <= k < j ==> !InDrumSlot(drumHit, notes[k])) && r == notes[..j] + notes[j + 1..])
  {
    assert forall k :: 0 <= k < i ==> !InDrumSlot(drumHit, notes[k]);
  }

  /** Toggling an empty drum slot twice leaves the notes as they were. */
  lemma ToggleDrumTwice(notes: seq<Note>, drumHit: Note, added: Note)
    requires added.isDrum && SameDrumSlot(drumHit) == SameDrumSlot(added)
    requires forall n :: n in notes ==> !SameDrumSlot(drumHit)(n)
    ensures ToggledDrumNotes(ToggledDrumNotes(notes, drumHit, added), drumHit, added) == notes
  {
    var once := notes + [added];
    assert SameDrumSlot(drumHit)(added);
    forall k | 0 <= k < |notes|
      ensures !SameDrumSlot(drumHit)(once[k])
    {
      assert once[k] == notes[k] && notes[k] in notes;
    }
    var r := FindIndex(once, SameDrumSlot(drumHit));
    assert once[|notes|] == added;
    assert r != -1;
    assert r == |notes|;
    assert once[..|notes|] == notes;
  }

  /** `toggleDrumNote`: remove the first drum note in the hit's slot, or add the hit with the new uuid. */
  method ToggleDrumNote(s: Store, drumHit: Note, freshUuid: string)
    modifies s`placedNotes
    ensures s.placedNotes == ToggledDrumNotes(old(s.placedNotes), drumHit, drumHit.(uuid := freshUuid))
  {
    var existingIndex := FindIndex(s.placedNotes, SameDrumSlot(drumHit));
    if existingIndex >= 0 {
      s.placedNotes := s.placedNotes[..existingIndex] + s.placedNotes[existingIndex + 1..];
    } else {
      s.placedNotes := s.placedNotes + [drumHit.(uuid := freshUuid)];
    }
  }
}
