# Student Notation: a verified model of the non-UI logic

Student Notation is a browser app for writing music on a pitch grid. Users place notes, tonic signs,
rhythm stamps and triplet groups, draw annotations, and choose a pitch range, a clef and audio
effects. This project models the sequential logic under the user interface as Dafny and proves what
that logic promises. The modelled logic covers:

- the segmenter that splits annotation text into normal, superscript and subscript runs;
- the stroke, dash and size tables of annotations;
- stamp and triplet placement: collision replacement, area erase, lookup and per-shape row offsets;
- the triplet placement check and triplet group erase;
- the tonic-sign insertion column and the note shifting it causes;
- note erase and drum-hit toggling in the action store and in the older self-contained store;
- view actions: accidental toggle, degree mode, ADSR scale, grid scrolling, and the pitch-range
  change that re-maps every placed item;
- the clef-range controller: minimum span, normalisation, the wheel pickers, the commit guard;
- scale-degree formatting and enharmonic spelling;
- the time-signature catalog and its labels;
- interval folding, the interval toggle, chord-button matching and the chord-position counter;
- note import and export of the original single-page grid, and its window adjustment;
- the coordinate validator;
- the dead-zone transform of the effects position pad;
- the per-colour effect-parameter store.

How the model is built:

- Each source file is one Dafny module.
- The action store is `StoreState.Store`, a class whose fields are the state the actions touch.
  Each action is a method that changes only the fields named in its `modifies` clause. The method is
  proved equal to a pure function of the old state, and lemmas about those functions carry the
  properties.
- The older store (`js/state/store.js`) is the class `LegacyStore.Store`.
- The closure state of `script.js` is the class `NotationGrid.Grid`.
- JavaScript helpers the code relies on live in shared modules:
  - `JsText`: `parseInt`, `trim`, `split`, `join`, number-to-string and the truncating `%`.
  - `JsArrays`: `findIndex`, `filter`, `splice` by id, collect-then-remove.
- Generated ids, uuids and timestamps are parameters of the operations that use them.
- Imported helpers are parameters:
  - `isWithinTonicSpan` and `timeToCanvas` are functions;
  - `getPlacedTonicSigns` is a list of tonic columns;
  - `getTripletStampById` is an optional stamp;
  - `GROUP_WIDTH_CELLS` is a map.
- The logger, `emit` and `recordState` do nothing.

The repository also holds a script that strips inline type annotations from its sources; that
script is outside this model.

## Model

| member | source | states |
|---|---|---|
| Annotations.IndexOfClose | js/services/annotationService.js:1309-1324 | the position found is -1 or a closing tag at or after the start |
| Annotations.Flush | js/services/annotationService.js:1365-1370 | an empty accumulator emits nothing; a non-empty one emits exactly one segment in the given format |
| Annotations.TagStep | js/services/annotationService.js:1301-1330 | after `<sup>`/`<sub>`, a found close gives one segment of that format whose text lies between the tags and a scan that resumes after the closing tag; otherwise the step is unclosed |
| Annotations.StepAt | js/services/annotationService.js:1301-1345 | a closed tag step skips at least the two tags and its body is the text between them |
| Annotations.Advance | js/services/annotationService.js:1299-1362 | each loop step consumes at least one character |
| Annotations.LoopBody | js/services/annotationService.js:1299-1362 | one turn of the loop, case by case over the text at `i`: closed tag, unclosed `<`, `^` outside caret mode, space in caret mode, any other character |
| Annotations.ParseStep | js/services/annotationService.js:1299-1362 | the imperative loop body leaves segments, accumulator, caret flag and index as one `Advance` of the unscanned suffix says |
| Annotations.ParseFormattedText | js/services/annotationService.js:1293-1373 | the while loop computes the specification `Parse`, and the segment texts never total more than the input length |
| Annotations.PlainText | js/services/annotationService.js:1293-1373 | text without `<` and `^` yields one normal segment equal to it, and the empty text yields none |
| Annotations.ClosedTag | js/services/annotationService.js:1301-1330 | `<sup>x</sup>rest` (or `<sub>`) yields one superscript (subscript) segment `x` followed by the segments of `rest` |
| Annotations.CaretThenSpace | js/services/annotationService.js:1336-1358 | `^x rest` yields `x` as superscript, then a lone normal space, then the segments of `rest` |
| Annotations.CaretAtEnd | js/services/annotationService.js:1336-1370 | text left over in caret mode is emitted as a superscript segment |
| Annotations.AdvanceLength | js/services/annotationService.js:1299-1362 | one step never emits more characters than it consumes |
| Annotations.ParseRestLength | js/services/annotationService.js:1293-1373 | the segments of a suffix hold at most the accumulator plus the suffix |
| Annotations.ParseLength | js/services/annotationService.js:1293-1373 | the total length of all segment texts never exceeds the input length |
| Annotations.GetStrokeWidth | js/services/annotationService.js:1454-1466 | numbers are returned unchanged; names give 2, 4 or 6, with 4 exactly for medium and 6 exactly for large |
| Annotations.GetLineDash | js/services/annotationService.js:1468-1476 | no dashes exactly for solid and unknown styles; the three dashed styles give `[10,5]`, `[5,3]`, `[2,3]` |
| Annotations.GetSizeValue | js/services/annotationService.js:1478-1490 | always a `px` size; a number parses back from it; 14, 18 and 24 px exactly for small, medium and large, otherwise 16 px |
| PositionEffects.NudgeAxis | js/components/ui/positionEffectsController.js:274-278 | the result is at least 1, and values above 1 are unchanged |
| PositionEffects.TransformPositionValues | js/components/ui/positionEffectsController.js:261-279 | points in the off zone are unchanged; other points have both axes at least 1, and each axis above 1 is kept |
| PositionEffects.TransformIdempotent | js/components/ui/positionEffectsController.js:268-279 | the transform keeps a point in or out of the off zone, and applying it twice is applying it once |
| PositionEffects.DeadZoneExamples | js/components/ui/positionEffectsController.js:447-457 | the eight self-test cases have the outcomes their descriptions give |
| EffectsCoordinator.CloneDefault | src/services/effectsCoordinator.ts:37-39 | a known effect gets its default record; an unknown one gets an empty record |
| EffectsCoordinator.FreshColorEffects | src/services/effectsCoordinator.ts:83-109 | a new colour has exactly the five effects; all are defaults except vibrato and tremolo, which come from the timbre when it has them |
| EffectsCoordinator.Initialized | src/services/effectsCoordinator.ts:83-109 | only an unseen colour gets an entry, and every existing colour keeps its effects |
| EffectsCoordinator.InitializeIdempotent | src/services/effectsCoordinator.ts:83-109 | initializing a colour a second time changes nothing, whatever the timbre says now |
| EffectsCoordinator.GetEffectParameters | src/services/effectsCoordinator.ts:211-220 | the stored parameters when colour and effect exist; otherwise the defaults |
| EffectsCoordinator.GetAllEffectParameters | src/services/effectsCoordinator.ts:225-239 | the colour's effects, or all defaults for an unseen colour |
| EffectsCoordinator.UpdateWithoutColor | src/services/effectsCoordinator.ts:118-121 | an update with the empty colour changes nothing |
| EffectsCoordinator.UpdateChangesOneParameter | src/services/effectsCoordinator.ts:115-131 | after an update, that one parameter reads back as the new value; every other parameter of every effect of every colour reads as it did once the colour was initialized |
| EffectsCoordinator.UpdateOnInitializedColor | src/services/effectsCoordinator.ts:126-131 | on an existing colour and effect, only that parameter changes; other colours and other effects are unchanged |
| EffectsCoordinator.Reset | src/services/effectsCoordinator.ts:244-251 | the colour gets every default; other colours are unchanged |
| EffectsCoordinator.ResetRestoresDefaults | src/services/effectsCoordinator.ts:244-251 | after a reset every effect of the colour reads as for a colour never seen |
| EffectsCoordinator.Coordinator.constructor | src/services/effectsCoordinator.ts:34 | the coordinator starts with no colours |
| EffectsCoordinator.Coordinator.InitializeColorEffects | src/services/effectsCoordinator.ts:83-109 | the map becomes `Initialized` of the old map |
| EffectsCoordinator.Coordinator.UpdateParameter | src/services/effectsCoordinator.ts:115-131 | the map becomes the updated map: nothing for the empty colour, else initialize, create the effect if missing and set the parameter |
| EffectsCoordinator.Coordinator.ResetColorEffects | src/services/effectsCoordinator.ts:244-251 | the map becomes `Reset` of the old map |
| EffectsCoordinator.Coordinator.Dispose | src/services/effectsCoordinator.ts:270-272 | every colour is forgotten |
| LegacyStore.Store.constructor | js/state/store.js:11-52 | no notes and no rows, 19 macrobeats of 2 with plain boundaries, window at row 34 of 20 rows |
| LegacyStore.Store.ShiftGridUp | js/state/store.js:139-145 | the position becomes `ShiftedUp` of the old one, and a window inside the row data stays inside |
| LegacyStore.Store.ShiftGridDown | js/state/store.js:147-153 | the position becomes `ShiftedDown` of the old one, and the window keeps `gridPosition + logicRows <= rows` |
| LegacyStore.Store.ToggleMacrobeatGrouping | js/state/store.js:156-161 | the groupings become `ToggledAt` of the old ones |
| LegacyStore.Store.ToggleMacrobeatBoundaryStyle | js/state/store.js:163-167 | the style at the index is negated and nothing else changes |
| LegacyStore.Store.IncreaseMacrobeatCount | js/state/store.js:169-173 | the groupings become `Increased` of the old ones |
| LegacyStore.Store.DecreaseMacrobeatCount | js/state/store.js:175-181 | the groupings become `Decreased` of the old ones |
| LegacyStore.Store.EraseNoteAt | js/state/store.js:70-79 | exactly the non-drum notes on the row that cover the column are filtered out; `changed` holds iff one existed |
| LegacyStore.Store.ToggleDrumNote | js/state/store.js:81-95 | the first hit on the same track and column is spliced out, or the hit is appended when there is none |
| LegacyStore.ShiftedUp | js/state/store.js:139-145 | one row up while above 0; at the top the position stays |
| LegacyStore.ShiftedDown | js/state/store.js:147-153 | one row down while the window ends before the last row; otherwise it stays |
| LegacyStore.ShiftUpThenDown | js/state/store.js:139-153 | from a legal position below the top, shifting up then down returns to it |
| LegacyStore.Toggled | js/state/store.js:156-161 | the result is 2 or 3, and it is 3 exactly when the grouping was 2 |
| LegacyStore.ToggledAt | js/state/store.js:156-161 | only the grouping at the index changes, to its toggle |
| LegacyStore.ToggleTwice | js/state/store.js:156-161 | toggling the same macrobeat twice restores a 2 or 3 |
| LegacyStore.Increased | js/state/store.js:169-173 | a 2 is appended and the old groupings are its prefix |
| LegacyStore.Decreased | js/state/store.js:175-181 | the last grouping is dropped while more than one remain, so the length never drops below 1 |
| LegacyStore.IncreaseThenDecrease | js/state/store.js:169-181 | with at least one macrobeat, increase then decrease restores the groupings |
| StoreState.ActiveTop | src/state/actions/stampActions.ts:45-46 | the top row of the active pitch range, or 0 when there is none |
| NoteActions.CalculateTonicInsertionColumn | js/state/actions/noteActions.js:14-35 | the loop returns 2, plus the widths of macrobeats `0..p-1`, plus 2 for each distinct tonic position in `[-1, p-1]` |
| NoteActions.InsertionColumnMonotone | js/state/actions/noteActions.js:14-35 | with non-negative groupings, the insertion column never decreases as `p` grows, and from `p <= 0` it is at least 2 |
| NoteActions.ShiftedNotes | js/state/actions/noteActions.js:94-99 | every note is shifted by `ShiftNote`, in place and in order |
| NoteActions.ShiftRoundTrip | js/state/actions/noteActions.js:94-136 | shifting by +1 and then by -1 at the same boundary restores every note |
| NoteActions.ShiftNotesFrom | js/state/actions/noteActions.js:94-99 | the placed notes become `ShiftedNotes` of the old ones |
| NoteActions.WithUuid | js/state/actions/noteActions.js:101-103 | every sign of the group gets the new uuid and keeps everything else |
| NoteActions.AddTonicSignGroup | js/state/actions/noteActions.js:79-108 | nothing changes if a tonic exists at that `preMacrobeatIndex`; otherwise notes at or after the insertion column shift by +1 and the group is stored under the new uuid |
| NoteActions.EraseTonicSignGroup | js/state/actions/noteActions.js:110-136 | false and no change for an unknown uuid; otherwise the group is deleted and notes at or after its column shift by -1 |
| NoteActions.EraseUndoesAdd | js/state/actions/noteActions.js:79-136 | adding a group at a free position and erasing it restores the notes and the groups |
| NoteActions.EraseNoteAt | js/state/actions/noteActions.js:53-64 | exactly the non-drum notes on the row covering the column are removed; the result is true iff one existed |
| NoteActions.ToggledDrumNotes | js/state/actions/noteActions.js:138-149 | when a drum note sits in the hit's slot, the FIRST such note is spliced out and the others keep their order, so the list is one shorter; otherwise the new hit is appended |
| NoteActions.ToggleDrumTwice | js/state/actions/noteActions.js:138-149 | toggling the same hit on a free slot twice restores the notes |
| NoteActions.ToggleDrumNote | js/state/actions/noteActions.js:138-149 | the placed notes become `ToggledDrumNotes` of the old ones: the first note in the hit's slot is removed, or the hit is added with a new uuid |
| StampActions.StampsAfterAdd | src/state/actions/stampActions.ts:33-59 | the new stamp comes last, and every other stamp was there before |
| StampActions.AddStampKeepsOthers | src/state/actions/stampActions.ts:33-59 | ids stay unique; every non-colliding stamp is kept; at most one colliding stamp is replaced, so the length grows by one exactly when none collided |
| StampActions.RemoveStampPlacement | src/state/actions/stampActions.ts:76-94 | false and no change for an absent id; otherwise exactly that entry is spliced out |
| StampActions.AddStampPlacement | src/state/actions/stampActions.ts:19-71 | null and no change when the start or the next column is in a tonic span; otherwise the stamp spans two columns, records `row + topIndex` and is added by `StampsAfterAdd` |
| StampActions.CollectStampIds | src/state/actions/stampActions.ts:101-112 | the collect loop gathers the ids of the stamps that are hit, in list order |
| StampActions.RemoveStampPlacements | src/state/actions/stampActions.ts:113-122 | each collected id is spliced out; the result says whether anything was removed |
| StampActions.EraseStampsInArea | src/state/actions/stampActions.ts:101-122 | with unique ids, exactly the stamps overlapping the area are removed; the result is true iff one existed |
| StampActions.GetStampAt | src/state/actions/stampActions.ts:135-141 | the first stamp in list order on the row whose inclusive column range holds the column, or none iff no stamp does |
| StampActions.GetShapeRow | src/state/actions/stampActions.ts:206-209 | the stamp's row plus the offset recorded for the shape, or the row itself when none is recorded; `ShapeRowAfterOffset` ties it to `updateStampShapeOffset` |
| StampActions.UpdateStampShapeOffset | src/state/actions/stampActions.ts:178-201 | only the found stamp's offset for the shape key is set; an absent id changes nothing |
| StampActions.ShapeRowAfterOffset | src/state/actions/stampActions.ts:178-209 | after setting an offset, that shape's row is `row + offset` and every other shape's row is unchanged |
| TripletActions.CellOf | js/state/actions/tripletActions.ts:117-146 | the cell is the floor of half the column |
| TripletActions.TripletsAfterAdd | js/state/actions/tripletActions.ts:32-65 | the new triplet comes last, and every other triplet was there before |
| TripletActions.AddTripletKeepsOthers | js/state/actions/tripletActions.ts:32-65 | ids stay unique; every non-overlapping triplet is kept; at most one overlapping same-row triplet is replaced |
| TripletActions.RemoveTripletPlacement | js/state/actions/tripletActions.ts:87-107 | false and no change for an absent id; otherwise exactly that entry is removed |
| TripletActions.RemoveStampsUnder | js/state/actions/tripletActions.ts:44-58 | with unique ids, exactly the same-row stamps whose cells meet the triplet's cells are removed |
| TripletActions.AddTripletPlacement | js/state/actions/tripletActions.ts:25-80 | the placement keeps its own id or gets the new one, replaces at most one overlapping triplet, is appended, and removes the stamps under it |
| TripletActions.CollectTripletIds | js/state/actions/tripletActions.ts:117-135 | the collect loop gathers the ids of the triplets that are hit, in list order |
| TripletActions.RemoveTripletPlacements | js/state/actions/tripletActions.ts:136-146 | each collected id is removed; the result says whether anything was removed |
| TripletActions.EraseTripletsInArea | js/state/actions/tripletActions.ts:117-146 | with unique ids, exactly the triplets in the row range whose cells meet the erased cells are removed; the result is true iff one existed |
| TripletActions.GetTripletAt | js/state/actions/tripletActions.ts:162-170 | the first triplet in list order on the row whose half-open cell range holds the cell, or none iff no triplet does |
| TripletActions.GetTripletShapeRow | js/state/actions/tripletActions.ts:252-255 | the triplet's row plus the offset recorded for the shape, or the row itself when none is recorded; `TripletShapeRowAfterOffset` ties it to `updateTripletShapeOffset` |
| TripletActions.UpdateTripletShapeOffset | js/state/actions/tripletActions.ts:222-244 | only the found triplet's offset for the shape key is set; an absent id changes nothing |
| TripletActions.TripletShapeRowAfterOffset | js/state/actions/tripletActions.ts:222-255 | after setting an offset, that shape's row is `row + offset` and every other shape's row is unchanged |
| TripletPlacements.GroupSpan | src/rhythm/tripletPlacements.ts:22 | the span of the stamp's group width, or 1 when the width is unknown |
| TripletPlacements.CanPlaceTripletAt | src/rhythm/tripletPlacements.ts:55-140 | the three loops return exactly `CanPlace`: no tonic in the triplet's canvas span and the start not on a tonic, no same-row stamp holding a triplet cell, no same-row triplet meeting its cells |
| TripletPlacements.TripletBlocksIsOverlap | src/rhythm/tripletPlacements.ts:125-137 | the triplet test of the placement check is the collision test of `addTripletPlacement` |
| TripletPlacements.StampBlocksIsUnder | src/rhythm/tripletPlacements.ts:107-122 | for ordered stamps and a span of at least 1, the stamp test of the placement check is the stamp removal test of `addTripletPlacement` |
| TripletPlacements.PlaceTripletGroup | src/rhythm/tripletPlacements.ts:15-50 | null and no change exactly for an unknown stamp or a blocked position; otherwise the new triplet records `row + topIndex` and is appended, and the stamps under it are removed (`RemoveEach` of `IdsWhere`); when the stamps are ordered and the span is at least one, no stamp is removed |
| TripletPlacements.NoTripletEvicted | src/rhythm/tripletPlacements.ts:25-50 | when no triplet blocks, adding appends without replacing |
| TripletPlacements.NoStampEvicted | src/rhythm/tripletPlacements.ts:25-50 | when no stamp blocks, adding removes no stamp |
| TripletPlacements.EraseTripletGroups | src/rhythm/tripletPlacements.ts:145-177 | the triplets in the erased area are removed; the result is true iff at least one was there |
| ViewActions.ToggledAccidentals | js/state/actions/viewActions.ts:124-156 | an unknown key changes nothing; otherwise the key flips, the other is switched on when it would be the last one off, and both are never off together |
| ViewActions.ToggleAccidentalMode | js/state/actions/viewActions.ts:124-156 | the mode becomes `ToggledAccidentals` of the old one |
| ViewActions.NextDegreeMode | js/state/actions/viewActions.ts:203-211 | the current mode gives `off`; any other gives itself |
| ViewActions.DegreeModeTwice | js/state/actions/viewActions.ts:203-211 | choosing a mode twice from another mode ends off; from that mode it ends showing it |
| ViewActions.SetDegreeDisplayMode | js/state/actions/viewActions.ts:203-211 | the mode becomes `NextDegreeMode` of the old one |
| ViewActions.ClampScale | js/state/actions/viewActions.ts:257-261 | the result lies in [0.1, 5.0], and values already inside are kept |
| ViewActions.SetAdsrTimeAxisScale | js/state/actions/viewActions.ts:257-261 | the stored scale is the clamped one |
| ViewActions.ClampGridPosition | js/state/actions/viewActions.ts:308-315 | the result lies in [0, max], and positions inside are kept; with a negative max it is 0 |
| ViewActions.SetGridPosition | js/state/actions/viewActions.ts:308-315 | the position is the requested one clamped to [0, rows - 2 * viewport rows] |
| ViewActions.ShiftGridUp | js/state/actions/viewActions.ts:316 | the position is one less, clamped |
| ViewActions.ShiftGridDown | js/state/actions/viewActions.ts:317 | the position is one more, clamped |
| ViewActions.ShiftDownThenUp | js/state/actions/viewActions.ts:308-317 | from a position below the last, down then up returns to it |
| ViewActions.ClampRow | js/state/actions/viewActions.ts:383 | the row lies in [0, maxRow], and rows inside are kept |
| ViewActions.ClampedRange | js/state/actions/viewActions.ts:346-352 | missing ends come from the current range; top is clamped into [0, n-1] and bottom into [top, n-1], and requested values already legal are kept |
| ViewActions.ClampedRangeOfValid | js/state/actions/viewActions.ts:346-352 | clamping a legal range gives it back |
| ViewActions.RemappedPlaced | js/state/actions/viewActions.ts:370-401 | the notes placed after a range change are at most the notes given |
| ViewActions.PlacedNotesInRange | js/state/actions/viewActions.ts:370-401 | every placed melodic note has its global row in the new range and `row = globalRow - newTop`; every drum note is kept |
| ViewActions.RemappedParked | js/state/actions/viewActions.ts:386-393 | trimming parks nothing |
| ViewActions.ParkedNotesOutside | js/state/actions/viewActions.ts:386-393 | every parked note is melodic and its recorded global row lies outside the new range |
| ViewActions.RemapKeepsEveryNote | js/state/actions/viewActions.ts:370-401 | without trimming every note ends up placed or parked |
| ViewActions.ParkedCount | js/state/actions/viewActions.ts:386-393 | without trimming, one note is parked per out-of-range melodic note |
| ViewActions.RemapNotes | js/state/actions/viewActions.ts:370-401 | the `forEach` builds exactly `RemappedPlaced` and `RemappedParked` |
| ViewActions.RemappedTonicGroups | js/state/actions/viewActions.ts:406-425 | only existing groups survive, and an empty group is dropped |
| ViewActions.TonicGroupRows | js/state/actions/viewActions.ts:406-425 | every surviving sign has a numeric row inside the new range and is a sign of its group with only the row changed |
| ViewActions.PlacementRemap | js/state/actions/viewActions.ts:438-461 | a kept placement records its global row and sits at `globalRow - newTop`, unclamped; it is dropped exactly when trimming and outside the range |
| ViewActions.RemappedStampRows | js/state/actions/viewActions.ts:430-466 | every stamp left has `row = globalRow - newTop`; when trimming all are in range; without trimming none is lost |
| ViewActions.RemappedTripletRows | js/state/actions/viewActions.ts:469-493 | the same for triplets |
| ViewActions.RemappedPrintOptions | js/state/actions/viewActions.ts:510-521 | print rows exist exactly when print options do; they are shifted by the range change and clamped so that `0 <= top <= bottom <= maxRow` |
| ViewActions.RemapRow | js/state/actions/viewActions.ts:23-31 | the row lies in [0, maxRow]; a row inside the new range moves by `oldTop - newTop` |
| ViewActions.RemapRowList | js/state/actions/viewActions.ts:50-66 | every entry of a `path`/`points` list is re-mapped in place |
| ViewActions.RemapData | js/state/actions/viewActions.ts:92-118 | every `data` value is re-mapped in place |
| ViewActions.RemapAnnotation | js/state/actions/viewActions.ts:11-120 | every row ends in [0, newBottom - newTop]; the result is true iff the annotation has no row data or some row lands in the new range |
| ViewActions.RemapAnnotationSameRange | js/state/actions/viewActions.ts:11-120 | re-mapping into the range the rows already belong to changes nothing |
| ViewActions.NewPitchRange | js/state/actions/viewActions.ts:334-355 | early return exactly for no range, an empty table or an unchanged clamped range; otherwise a legal range different from the current one |
| ViewActions.StoreContent | js/state/actions/viewActions.ts:403-522 | the rewritten fields are stored |
| ViewActions.ApplyPitchRange | js/state/actions/viewActions.ts:358-522 | every list is re-mapped as `RangeApplied` says |
| ViewActions.RowsOf | js/state/actions/viewActions.ts:357 | the slice holds exactly the table rows from top to bottom |
| ViewActions.SetPitchRange | js/state/actions/viewActions.ts:334-522 | on an early return nothing changes; otherwise the content becomes `RangeApplied` with trimming `trimOutsideRange && !preserveContent` and the sliced rows |
| ClefRange.MaxIndex | src/components/harmony/clefRangeController.ts:381 | the last index is non-negative and is `length - 1` for a non-empty table |
| ClefRange.EnforceMinimumRange | src/components/harmony/clefRangeController.ts:380-388 | `0 <= top <= bottom <= maxIndex`; the span is at least 5 when the table allows it, else the whole table |
| ClefRange.EnforceFixedPoint | src/components/harmony/clefRangeController.ts:380-388 | a range is left unchanged exactly when it is already enforced |
| ClefRange.EnforceIdempotent | src/components/harmony/clefRangeController.ts:380-388 | enforcing twice is enforcing once |
| ClefRange.NormaliseRange | src/components/harmony/clefRangeController.ts:365-378 | the result is enforced; no range gives the full table subject to the minimum span |
| ClefRange.NormaliseEnforced | src/components/harmony/clefRangeController.ts:365-378 | normalising an enforced range gives it back |
| ClefRange.CommitTarget | src/components/harmony/clefRangeController.ts:486-490 | the commit's clamp-then-enforce is normalisation, so its target is enforced |
| ClefRange.ClampIndex | src/components/harmony/clefRangeController.ts:191 | the index lies in [0, len-1]; indices inside are kept, past the end give the last, negative ones give 0 |
| ClefRange.ClampIndexIdempotent | src/components/harmony/clefRangeController.ts:191 | clamping twice is clamping once |
| ClefRange.WheelPicker.constructor | src/components/harmony/clefRangeController.ts:42-58 | a mounted picker starts at the clamped initial index without announcing it; an unmounted one stays at 0 |
| ClefRange.WheelPicker.GetIndex | src/components/harmony/clefRangeController.ts:176-178 | the selected index |
| ClefRange.WheelPicker.SetIndex | src/components/harmony/clefRangeController.ts:188-203 | the index becomes the clamped one; a change is announced only when it differs and is not silent; an unmounted picker does nothing |
| ClefRange.WheelPicker.Increment | src/components/harmony/clefRangeController.ts:180-186 | step 0 or no options changes nothing; otherwise a mounted wheel moves to the clamped sum, and `onChange` fires once, with the new index and option, exactly when that index differs from the old one |
| ClefRange.ClefRangeController.constructor | src/components/harmony/clefRangeController.ts:302-358 | the store's pitch range (or none) is normalised against the master table; that enforced range is the current and the last committed range, and no request has gone out |
| ClefRange.ClefRangeController.CommitRangeChange | src/components/harmony/clefRangeController.ts:482-528 | an unchanged target returns early without touching anything; otherwise the range is stored and one `setPitchRange` request goes out, trimming exactly when locked |
| ClefRange.ClefRangeController.CommitTwice | src/components/harmony/clefRangeController.ts:496-500 | committing the same range twice sends at most one request |
| Tonal.SemitoneTableSound | js/services/tonalService.js:5-18 | each of 0..11 maps to a degree in 1..7 with alteration -1 or 0 that lands on that semitone; nothing else maps |
| Tonal.PitchClass | js/services/tonalService.js:25 | `((s % 12) + 12) % 12` with the truncating `%` lies in [0, 12) and is the mathematical residue |
| Tonal.GetOctavePartner | js/services/tonalService.js:20-27 | a partner exists exactly when the number is ±8 and the alteration is negative; it is the table entry of the pitch class |
| Tonal.AccidentalPrefix | js/services/tonalService.js:38-40 | `|alt|` flats for a negative alteration, `alt` sharps for a positive one, nothing for 0 |
| Tonal.FormatInterval | js/services/tonalService.js:29-42 | null exactly for an empty name or an interval the theory library does not know |
| Tonal.HasAccidental | js/services/tonalService.js:66-68 | true iff some character of the degree is a sharp or a flat |
| Tonal.PrefixShape | js/services/tonalService.js:38-40 | the prefix has `|alt|` accidental signs, and it has an accidental iff `alt != 0` |
| Tonal.FormatIntervalShape | js/services/tonalService.js:29-42 | the text is the prefix followed by the degree number, which parses back; it has an accidental iff the alteration is non-zero |
| Tonal.DiminishedOctaveIsSeven | js/services/tonalService.js:20-42 | a diminished octave is written as degree 7 |
| Tonal.GetEnharmonicDegree | js/services/tonalService.js:45-63 | a result exists exactly for the ten table keys |
| Tonal.EnharmonicInvolution | js/services/tonalService.js:45-68 | on its keys the map is an involution without fixed points, and both spellings carry an accidental |
| TimeSignatures.TimeSignatureOptions | js/services/timeSignatureService.js:8-69 | five categories, for one to five macrobeats, in order |
| TimeSignatures.TimeSignatureLabel | js/services/timeSignatureService.js:98-102 | the label ends in `/8` exactly when a 3 is among the groupings, else in `/4` |
| TimeSignatures.LabelIsMeterText | js/services/timeSignatureService.js:98-102 | the label is `T/8` with a 3 and `(T/2)/4` without, where T is the sum; the quarter form assumes an even total |
| TimeSignatures.CatalogShape | js/services/timeSignatureService.js:8-69 | every entry of the category for k macrobeats has k groupings, each 2 or 3 |
| TimeSignatures.CatalogLabels | js/services/timeSignatureService.js:8-102 | every entry with a 3 carries the label the service computes, and every other entry carries it too or its eighths spelling |
| TimeSignatures.AllTwosLabel | js/services/timeSignatureService.js:98-102 | n groupings of 2 are labelled `n/4` |
| TimeSignatures.EighthsLabelNumerator | js/services/timeSignatureService.js:98-102 | with a 3, the label splits at `/` into the sum and `8`, and the sum parses back |
| ToolSelector.NormalizeInterval | js/components/toolbar/initializers/toolSelectorInitializer.ts:87-107 | ninths, elevenths and thirteenths fold to seconds, fourths and sixths; other names are unchanged |
| ToolSelector.NormalizeIntervalIdempotent | js/components/toolbar/initializers/toolSelectorInitializer.ts:87-107 | a folded interval is never folded again |
| ToolSelector.IndexOf | js/components/toolbar/initializers/toolSelectorInitializer.ts:630-631 | the first position of the name, or -1 exactly when it is absent |
| ToolSelector.InsertBy | js/components/toolbar/initializers/toolSelectorInitializer.ts:629-633 | inserting into a sorted list keeps it sorted and adds exactly one element |
| ToolSelector.SortBy | js/components/toolbar/initializers/toolSelectorInitializer.ts:629-633 | the result is sorted by the key and is a permutation of the input |
| ToolSelector.ToggleInterval | js/components/toolbar/initializers/toolSelectorInitializer.ts:605-636 | the result holds `1P` and is sorted by the chromatic order; the clicked interval is present iff it is `1P` or was absent; every other interval keeps its membership |
| ToolSelector.ToggleMembership | js/components/toolbar/initializers/toolSelectorInitializer.ts:612-625 | the add-or-remove step keeps `1P`, removes any other present interval, and adds an absent one |
| ToolSelector.ButtonHighlight | js/components/toolbar/initializers/toolSelectorInitializer.ts:144-176 | no chord shape gives no highlight; equal joined lists give `selected`; otherwise `partial-match` iff every folded active interval is among the button's folded intervals |
| ToolSelector.Normalized | js/components/toolbar/initializers/toolSelectorInitializer.ts:150 | every interval is folded, in order |
| ToolSelector.AllIn | js/components/toolbar/initializers/toolSelectorInitializer.ts:169-171 | true iff every element of the first list is in the second |
| ToolSelector.SelectedIffEqual | js/components/toolbar/initializers/toolSelectorInitializer.ts:162-165 | for non-empty comma-free lists, `selected` means the same intervals in the same order |
| ToolSelector.MaxPositionStates | js/components/toolbar/initializers/toolSelectorInitializer.ts:544-549 | the number of active intervals, or 3 when there are none; always at least 1 |
| ToolSelector.NextChordPosition | js/components/toolbar/initializers/toolSelectorInitializer.ts:507-509 | from any position at or above -1 the next one lies in [0, max) |
| ToolSelector.NextChordPositionStep | js/components/toolbar/initializers/toolSelectorInitializer.ts:507-509 | from a valid position a click moves one on, wrapping to 0 after the last |
| ToolSelector.ClickCompose | js/components/toolbar/initializers/toolSelectorInitializer.ts:507-509 | `a + b` clicks are `a` clicks followed by `b` clicks |
| ToolSelector.ClickRun | js/components/toolbar/initializers/toolSelectorInitializer.ts:507-509 | below the last position, k clicks add k |
| ToolSelector.ChordPositionCycle | js/components/toolbar/initializers/toolSelectorInitializer.ts:507-509 | one click per position brings every valid position back to itself |
| ToolSelector.ClampChordPosition | js/components/toolbar/initializers/toolSelectorInitializer.ts:589-592 | a position past the last chord note resets to 0; others are kept |
| NotationGrid.Mod | script.js:381-383 | for `m > 0` the result lies in [0, m) and is the mathematical residue |
| NotationGrid.NoteLines | script.js:980-983 | one `row,start,end,color` line per note, in order |
| NotationGrid.ExportText | script.js:980-983 | no notes give the empty text; otherwise splitting the text at newlines gives back one line per note, in order, when no line holds a newline; `ImportOfExport` reads it back to the notes |
| NotationGrid.ParseLine | script.js:1018-1040 | an accepted line has integer fields with `0 <= row` below the row bound and `0 <= start <= end < columns`, and a non-empty colour when the default is non-empty |
| NotationGrid.UnplacedAll | script.js:1034-1039 | every note loses its window row |
| NotationGrid.ParseNoteLine | script.js:980-1040 | the exported line of an in-bounds note parses back to the note |
| NotationGrid.ParseNoteLines | script.js:980-1040 | exported lines hold no newline and all parse back, in order |
| NotationGrid.ImportOfExport | script.js:980-1047 | importing an export gives the same notes, in order, with their window row cleared (`UnplacedAll`), when each note's row is below the import's row bound, its columns are in the grid, and its colour is non-empty, free of commas and newlines, and does not end in whitespace |
| NotationGrid.AdjustedDrawable | script.js:338-347 | adjusting keeps the columns and colours the notes had |
| NotationGrid.ParseLineTighter | script.js:1024-1031 | a tighter row bound accepts exactly the lines the looser one accepts whose row lies below it |
| NotationGrid.ImportLinesOfOne | script.js:980-1015 | trimming and splitting the export of one in-bounds note gives its line back |
| NotationGrid.WindowNoteLostOnImport | script.js:1015-1031 | with the source's bound of 20 window rows, a note on row 28 (the first row of the starting window) is kept by adjusting and is rejected when its export is imported |
| NotationGrid.WindowNotesSurviveImport | script.js:980-1047 | with rows bounded by the table's row count, every note shown in a window inside the table comes back from an export and an import, in order |
| NotationGrid.AdjustedInWindow | script.js:338-347 | after adjusting, every note is in the window with `rowIndex = row - gridPosition`, and exactly the window's notes are kept |
| NotationGrid.AdjustIdempotent | script.js:338-347 | adjusting twice for the same window is adjusting once |
| NotationGrid.Grid.constructor | script.js:159-176 | no notes, window starting at row 28 |
| NotationGrid.Grid.AdjustPlacedNotes | script.js:338-347 | the reverse splice loop leaves exactly `Adjusted` of the old notes |
| NotationGrid.Grid.ShiftGridUp | script.js:316-323 | while above 0, the window moves two rows up and the notes are adjusted; otherwise nothing changes |
| NotationGrid.Grid.ShiftGridDown | script.js:325-332 | while the window ends before the table, it moves two rows down and the notes are adjusted; otherwise nothing changes |
| NotationGrid.Grid.ExportNotes | script.js:980-983 | the export text of the grid's current notes, empty when there are none |
| NotationGrid.Grid.ParseImportedNotes | script.js:1015-1047 | the placed notes are replaced by the accepted lines, in file order, with rows bounded by the table's row count |
| NotationGrid.Grid.ParseImportedNotesAsWritten | script.js:1015-1047 | as written: the placed notes are replaced by the accepted lines, in file order, with rows bounded by the window's `logicRows` |
| NotationGrid.CollectNotes | script.js:1021-1043 | the `forEach` pushes exactly the accepted lines, in order |
| CoordinateChecks.SweepPassed | src/utils/coordinateValidator.ts:35-80 | a section passes exactly when every item it has seen is valid |
| CoordinateChecks.SweepNoErrors | src/utils/coordinateValidator.ts:35-80 | when each item has errors exactly when it is invalid, a section passes exactly when it has no error |
| CoordinateChecks.SweepWarns | src/utils/coordinateValidator.ts:35-80 | a section warns exactly when one of its items warns |
| CoordinateNotes.NoteErrors | src/utils/coordinateValidator.ts:46-77 | a note has no error exactly when its columns are non-negative and ordered and a drum note has a valid track |
| CoordinateNotes.NoteWarnings | src/utils/coordinateValidator.ts:64-70 | a note warns exactly when the grid has columns and the note reaches past them |
| CoordinateNotes.NoteReport | src/utils/coordinateValidator.ts:46-77 | validity, errors and warnings of one note agree with the two above |
| CoordinateNotes.NoteReports | src/utils/coordinateValidator.ts:46-77 | the same for every note, by position |
| CoordinateNotes.CheckNote | src/utils/coordinateValidator.ts:47-76 | one `forEach` turn appends exactly that note's report |
| CoordinateNotes.CheckNotes | src/utils/coordinateValidator.ts:46-77 | the loop is the sweep of every note's report |
| CoordinateNotes.ValidateNotes | src/utils/coordinateValidator.ts:35-80 | passed is false iff some note has a negative column, start after end, or a drum note without a valid track; passed iff no error; out-of-bounds columns never change it |
| CoordinateNotes.NotesPassed | src/utils/coordinateValidator.ts:35-80 | the notes section passes exactly when every note is valid, and exactly when it has no error |
| CoordinateNotes.NotesWarn | src/utils/coordinateValidator.ts:64-70 | the notes section warns exactly when some note reaches past the grid's columns |
| CoordinateStamps.StampErrors | src/utils/coordinateValidator.ts:96-112 | a stamp has no error exactly when its columns are non-negative and ordered |
| CoordinateStamps.StampWarnings | src/utils/coordinateValidator.ts:114-120 | a stamp warns exactly when it reaches past the grid's columns |
| CoordinateStamps.StampReport | src/utils/coordinateValidator.ts:96-120 | validity, errors and warnings of one stamp agree |
| CoordinateStamps.StampReports | src/utils/coordinateValidator.ts:96-120 | the same for every stamp, by position |
| CoordinateStamps.CheckStamp | src/utils/coordinateValidator.ts:96-120 | one `forEach` turn appends exactly that stamp's report |
| CoordinateStamps.CheckStamps | src/utils/coordinateValidator.ts:95-121 | the loop is the sweep of every stamp's report |
| CoordinateStamps.ValidateStamps | src/utils/coordinateValidator.ts:85-124 | the section passes iff every stamp is valid, iff it has no error |
| CoordinateStamps.StampsPassed | src/utils/coordinateValidator.ts:85-124 | the stamps section passes exactly when every stamp is valid, and exactly when it has no error |
| CoordinateStamps.StampsWarn | src/utils/coordinateValidator.ts:114-120 | the stamps section warns exactly when some stamp reaches past the grid |
| CoordinateTriplets.TripletErrors | src/utils/coordinateValidator.ts:141-152 | a triplet has no error exactly when its start is non-negative and its span positive |
| CoordinateTriplets.TripletWarnings | src/utils/coordinateValidator.ts:155-163 | a triplet warns exactly when the grid has whole cells and the triplet starts at or ends past the last |
| CoordinateTriplets.TripletReport | src/utils/coordinateValidator.ts:141-163 | validity, errors and warnings of one triplet agree |
| CoordinateTriplets.TripletReports | src/utils/coordinateValidator.ts:141-163 | the same for every triplet, by position |
| CoordinateTriplets.CheckTriplet | src/utils/coordinateValidator.ts:141-163 | one `forEach` turn appends exactly that triplet's report |
| CoordinateTriplets.CheckTriplets | src/utils/coordinateValidator.ts:140-164 | the loop is the sweep of every triplet's report |
| CoordinateTriplets.ValidateTriplets | src/utils/coordinateValidator.ts:130-167 | errors exactly on a negative start or a span of 0 or less; passed iff no error |
| CoordinateTriplets.TripletsPassed | src/utils/coordinateValidator.ts:130-167 | the triplets section passes exactly when every triplet is valid, and exactly when it has no error |
| CoordinateTriplets.TripletsWarn | src/utils/coordinateValidator.ts:155-163 | the triplets section warns exactly when some triplet reaches past the grid's cells |
| CoordinateTonicSigns.SignErrors | src/utils/coordinateValidator.ts:191-212 | a sign has no error exactly when its column and pre-macrobeat index are non-negative and its number, if set, is 1..7 |
| CoordinateTonicSigns.SignWarnings | src/utils/coordinateValidator.ts:198-200 | a sign warns exactly when its second column is at or past the grid's columns |
| CoordinateTonicSigns.SignReport | src/utils/coordinateValidator.ts:191-212 | validity, errors and warnings of one sign agree |
| CoordinateTonicSigns.SignReports | src/utils/coordinateValidator.ts:191-212 | the same for every sign of a group, by position |
| CoordinateTonicSigns.GroupReport | src/utils/coordinateValidator.ts:190-213 | a group's issues pass exactly when every sign in it is valid, and exactly when they hold no error |
| CoordinateTonicSigns.GroupReports | src/utils/coordinateValidator.ts:189-214 | the same for every group in enumeration order |
| CoordinateTonicSigns.CheckSign | src/utils/coordinateValidator.ts:191-212 | one inner `forEach` turn appends exactly that sign's report |
| CoordinateTonicSigns.ValidateSignGroup | src/utils/coordinateValidator.ts:190-213 | the inner loop appends the sweep of the group's signs |
| CoordinateTonicSigns.CheckGroups | src/utils/coordinateValidator.ts:189-214 | the outer loop is the sweep of every group's report |
| CoordinateTonicSigns.ValidateTonicSigns | src/utils/coordinateValidator.ts:172-217 | errors exactly on a tonic number outside 1..7 or a negative column or pre-macrobeat index; passed iff no error |
| CoordinateTonicSigns.TonicSignsPassed | src/utils/coordinateValidator.ts:172-217 | the section passes exactly when every sign of every group is valid, and exactly when it has no error |
| CoordinateMarkers.MarkerErrors | src/utils/coordinateValidator.ts:232-255 | a marker has no error exactly when its column, if set, and measure index are non-negative and its ratio is positive |
| CoordinateMarkers.MarkerWarnings | src/utils/coordinateValidator.ts:240-242 | a marker warns exactly when its column is set and at or past the grid's columns |
| CoordinateMarkers.MarkerReport | src/utils/coordinateValidator.ts:232-255 | validity, errors and warnings of one marker agree |
| CoordinateMarkers.MarkerReports | src/utils/coordinateValidator.ts:232-255 | the same for every marker, by position |
| CoordinateMarkers.CheckMarker | src/utils/coordinateValidator.ts:232-255 | one `forEach` turn appends exactly that marker's report |
| CoordinateMarkers.CheckMarkers | src/utils/coordinateValidator.ts:231-256 | the loop is the sweep of every marker's report |
| CoordinateMarkers.ValidateModulationMarkers | src/utils/coordinateValidator.ts:222-258 | errors exactly on a negative column or measure index or a ratio of 0 or less; passed iff no error |
| CoordinateMarkers.MarkersPassed | src/utils/coordinateValidator.ts:222-258 | the markers section passes exactly when every marker is valid, and exactly when it has no error |
| CoordinateMarkers.MarkersWarn | src/utils/coordinateValidator.ts:240-242 | the markers section warns exactly when some marker's column is past the grid |
| CoordinateWidths.WidthReport | src/utils/coordinateValidator.ts:281-286 | a width raises an error exactly when it is not positive, and never a warning |
| CoordinateWidths.WidthReports | src/utils/coordinateValidator.ts:281-286 | the same for every width, by position |
| CoordinateWidths.CheckWidths | src/utils/coordinateValidator.ts:281-286 | the loop is the sweep of every width's report |
| CoordinateWidths.WidthsPassed | src/utils/coordinateValidator.ts:281-286 | the widths pass exactly when every width is positive, and exactly when there is no error |
| CoordinateWidths.ValidateColumnWidthsAsWritten | src/utils/coordinateValidator.ts:263-299 | as written, every call throws |
| CoordinateWidths.ValidateColumnWidths | src/utils/coordinateValidator.ts:263-299 | the corrected section: width errors as above; a warning while deprecated widths remain, and one for an empty grid |
| CoordinateValidator.RunAllValidationsAsWritten | src/utils/coordinateValidator.ts:304-321 | as written, no report is produced |
| CoordinateValidator.RunAllValidations | src/utils/coordinateValidator.ts:304-321 | each section holds that section's own result (the sweep of its reports; for column widths the errors, the pass flag and the two warnings), `overall` is the conjunction of the six `passed` flags, and it holds exactly when every coordinate of the state is valid |

## Left out

- Rendering, the DOM, canvas drawing, audio, timers, the logger, `emit`, `recordState` and the debug recording are not modelled. The model's operations return what the source stores.
- Reading the file in `importNotes` and building the download link in `exportNotes` are left out. `ExportText` is the text that would be saved.
- The page's `--note-default-color` is the `defaultColor` parameter.
- `js/state/store.js`: `addNote`, `updateNoteTail`, `clearAllNotes`, `loadNotes`, the tool, tempo, looping and playback setters, and the publish/subscribe machinery are not modelled. They are plain field writes or event wiring.
- LegacyStore.Store.ToggleMacrobeatGrouping: requires the index to be in range. Out of range, JavaScript would create a hole in the array, which the model does not represent.
- LegacyStore.Store.ToggleMacrobeatBoundaryStyle: requires the index to be in range, for the same reason.
- NoteActions.AddTonicSignGroup: requires a non-empty group. On an empty group the source throws a `TypeError` reading `group[0]`.
- NoteActions.EraseTonicSignGroup: requires the group it erases to be non-empty, for the same reason.
- Branches for a state field that is missing or not an array (`!this.state.tripletPlacements`, `Array.isArray` guards, `|| []` defaults) are not modelled. The model's fields always hold lists.
- Annotation entries that are not objects, and row fields that are not numbers, other than those carried as `None`, are not modelled.
- `setPitchRange`'s `maintainGlobalStart` metadata and the removed-item counters only feed the emitted event. They are left out.
- Effect parameter values are `real`. Stroke widths and sizes are integers. `NaN`, infinities and floating-point rounding are not modelled.
- EffectsCoordinator.GetAllEffectParameters: does not model the per-entry clone of the stored map. Values are immutable here, so a copy and the original are the same value.
- The coordinator's `init()` event subscription and the write-back of effects into the store's timbres are not modelled. These are notifications.
- `transformValue` in the position-effects controller is the identity and is not modelled separately.
- Stamp and triplet playback data (`getStampPlaybackData`, `getTripletPlaybackData`) and the `clearAll*` actions are not modelled. They are not part of the placement bookkeeping.
- NotationGrid.Grid.AdjustPlacedNotes: runs its loop on a local copy of the list and stores the result, where the source splices the shared array in place. Nobody else holds the array during the loop, so the result is the same.
- NotationGrid.Grid.ParseImportedNotes: bounds imported rows by the table's row count instead of the window's `logicRows`, the correction recorded under "## Findings"; the source's bound is kept in `NotationGrid.Grid.ParseImportedNotesAsWritten`.
- NotationGrid.Grid.ShiftGridUp: the window row list (`updateRowData`) is a slice used only for drawing and is left out.
- WheelPicker: the `mounted` flag stands for the presence of the wheel's DOM elements. `updateVisuals` is left out.
- ClefRange.ClefRangeController.CommitRangeChange: the viewport-based `maintainGlobalStart`, the snap-zoom reset and the preset highlight are left out.
- TripletPlacements.StampBlocksIsUnder: requires ordered stamp columns and a positive span. For a reversed stamp or span the two tests of the source differ.
- TimeSignatures.LabelIsMeterText: covers only even totals when no 3 is present. For an odd total the source prints a decimal, such as `3.5/4`, which `TimeSignatureLabel` models through `HalfToString`.
- The validator's messages are kept as structured `Issue` values (subject, check, the values involved) rather than the interpolated strings of the source. The wording of each message is not modelled.
- The type-annotation stripping script is not part of this model.

## Findings

| source | as written | input that shows it | evidently intended | confidence | as-written member | corrected member |
|---|---|---|---|---|---|---|
| src/utils/coordinateValidator.ts:289 | `validateColumnWidths` reads `musicalColumnWidths`, a name the module never declares, so it throws a `ReferenceError` and `runAllValidations` never returns a report | any state | read the deprecated widths from the state and warn only while some remain | not executed | CoordinateWidths.ValidateColumnWidthsAsWritten | CoordinateWidths.ValidateColumnWidths |
| script.js:1026 | `parseImportedNotes` rejects a row at or above `config.logicRows` (20), the number of visible rows, but `exportNotes` writes `row`, the note's row in the full pitch table, which is 28 or more for every note of the starting window | a note on row 28, columns 0 to 0, colour `red`, shown in the starting window, exported and imported again: the import drops it | bound rows by the full table's row count, so every exported note comes back | not executed | NotationGrid.WindowNoteLostOnImport | NotationGrid.WindowNotesSurviveImport |
