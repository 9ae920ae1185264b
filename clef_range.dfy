/**
 * The clef range controller: the two scroll wheels that pick the top and bottom pitch rows, the
 * rule that a range spans at least `MIN_CLEF_RANGE_SEMITONES` rows, and the guard in front of
 * the store's `setPitchRange`.
 */
module ClefRange {
  import opened Wrappers

  const MIN_CLEF_RANGE_SEMITONES: int := 5

  /** `{ topIndex, bottomIndex }`, row indices into the master pitch table. */
  datatype Range = Range(topIndex: int, bottomIndex: int)

  function Max(a: int, b: int): int { if a >= b then a else b }
  function Min(a: int, b: int): int { if a <= b then a else b }

  /** `Math.max(0, maxLength - 1)`: the last row index, 0 for an empty table. */
  function MaxIndex(maxLength: int): (r: int)
    ensures r >= 0 && (maxLength >= 1 ==> r == maxLength - 1)
  {
    Max(0, maxLength - 1)
  }

  /**
   * `enforceMinimumRange`: clamps the top so that a full minimum span fits below it, then pushes
   * the bottom down to at least top + 5 (or to the last row when the table is shorter).
   */
  function EnforceMinimumRange(topIndex: int, bottomIndex: int, maxLength: int): (r: Range)
    ensures 0 <= r.topIndex <= r.bottomIndex <= MaxIndex(maxLength)
    ensures MaxIndex(maxLength) >= MIN_CLEF_RANGE_SEMITONES ==> r.bottomIndex - r.topIndex >= MIN_CLEF_RANGE_SEMITONES
    ensures MaxIndex(maxLength) < MIN_CLEF_RANGE_SEMITONES ==> r == Range(0, MaxIndex(maxLength))
  {
    var maxIndex := MaxIndex(maxLength);
    var maxTopIndex := Max(0, maxIndex - MIN_CLEF_RANGE_SEMITONES);
    var normalizedTop := Max(0, Min(maxTopIndex, topIndex));
    var minBottomIndex := Min(normalizedTop + MIN_CLEF_RANGE_SEMITONES, maxIndex);
    var normalizedBottom := Max(minBottomIndex, Min(maxIndex, bottomIndex));
    Range(normalizedTop, normalizedBottom)
  }

  /** A range `enforceMinimumRange` may return for a table of `maxLength` rows. */
  predicate Enforced(r: Range, maxLength: int)
  {
    var maxIndex := MaxIndex(maxLength);
    0 <= r.topIndex <= r.bottomIndex <= maxIndex &&
    (maxIndex >= MIN_CLEF_RANGE_SEMITONES ==> r.bottomIndex - r.topIndex >= MIN_CLEF_RANGE_SEMITONES) &&
    (maxIndex < MIN_CLEF_RANGE_SEMITONES ==> r == Range(0, maxIndex))
  }

  /** `enforceMinimumRange` leaves a range alone exactly when the range already keeps the rule. */
  lemma EnforceFixedPoint(topIndex: int, bottomIndex: int, maxLength: int)
    ensures EnforceMinimumRange(topIndex, bottomIndex, maxLength) == Range(topIndex, bottomIndex) <==>
      Enforced(Range(topIndex, bottomIndex), maxLength)
  {
  }

  /** Enforcing twice is enforcing once. */
  lemma EnforceIdempotent(topIndex: int, bottomIndex: int, maxLength: int)
    ensures var r := EnforceMinimumRange(topIndex, bottomIndex, maxLength);
      EnforceMinimumRange(r.topIndex, r.bottomIndex, maxLength) == r
  {
    var r := EnforceMinimumRange(topIndex, bottomIndex, maxLength);
    EnforceFixedPoint(r.topIndex, r.bottomIndex, maxLength);
  }

  /**
   * `normaliseRange`: without a range, the full table; otherwise the top clamped into the table,
   * the bottom clamped into [top, last row]; then the minimum span enforced.
   */
  function NormaliseRange(range: Option<Range>, maxLength: int): (r: Range)
    ensures Enforced(r, maxLength)
    ensures range.None? ==> r == Range(0, MaxIndex(maxLength))
  {
    var defaultRange := Range(0, Max(0, maxLength - 1));
    match range
    case None => EnforceMinimumRange(defaultRange.topIndex, defaultRange.bottomIndex, maxLength)
    case Some(given) =>
      var topIndex := Max(0, Min(maxLength - 1, given.topIndex));
      var bottomIndex := Max(topIndex, Min(maxLength - 1, given.bottomIndex));
      EnforceMinimumRange(topIndex, bottomIndex, maxLength)
  }

  /** A range that already keeps the rule comes back from `normaliseRange` unchanged. */
  lemma NormaliseEnforced(r: Range, maxLength: int)
    requires Enforced(r, maxLength)
    ensures NormaliseRange(Some(r), maxLength) == r
  {
  }

  /** The range `commitRangeChange` would hand the store: clamped into the table, then enforced. */
  function CommitTarget(topIndex: int, bottomIndex: int, maxLength: int): (r: Range)
    ensures Enforced(r, maxLength)
    ensures r == NormaliseRange(Some(Range(topIndex, bottomIndex)), maxLength)
  {
    var maxIndex := Max(0, maxLength - 1);
    var normalisedTop := Max(0, Min(maxIndex, topIndex));
    var normalisedBottom := Max(normalisedTop, Min(maxIndex, bottomIndex));
    EnforceMinimumRange(normalisedTop, normalisedBottom, maxLength)
  }

  /** A call of the store's `setPitchRange` as `commitRangeChange` makes it. */
  datatype PitchRangeRequest = PitchRangeRequest(range: Range, trimOutsideRange: bool, preserveContent: bool)

  /** The `{ index, label }` entries of a wheel (`label` is a reserved word here, hence `text`). */
  datatype WheelOption = WheelOption(index: int, text: string)

  /** `Math.max(0, Math.min(length - 1, index))`. */
  function ClampIndex(index: int, length: nat): (r: int)
    ensures 0 <= r && (length > 0 ==> r < length)
    ensures length > 0 && 0 <= index < length ==> r == index
    ensures length > 0 && index >= length ==> r == length - 1
    ensures index < 0 || length == 0 ==> r == 0
  {
    Max(0, Min(length - 1, index))
  }

  /** Clamping an index that is already clamped changes nothing. */
  lemma ClampIndexIdempotent(index: int, length: nat)
    ensures ClampIndex(ClampIndex(index, length), length) == ClampIndex(index, length)
  {
  }

  /**
   * `WheelPicker`: a scroll wheel over `options` with a selected index. `mounted` stands for the
   * wheel having its DOM elements (`setIndex` does nothing without them); `changes` records the
   * `onChange(index, option)` calls.
   */
  class WheelPicker {
    const options: seq<WheelOption>
    const mounted: bool
    var selectedIndex: int
    var changes: seq<(int, WheelOption)>

    /** The selected index always names an option, or is 0 when there are none. */
    predicate Valid()
      reads this
    {
      0 <= selectedIndex && (|options| > 0 ==> selectedIndex < |options|) && (|options| == 0 ==> selectedIndex == 0)
    }

    /** The constructor: a mounted wheel selects `initialIndex` silently. */
    constructor (options: seq<WheelOption>, mounted: bool, initialIndex: int)
      ensures Valid()
      ensures this.options == options && this.mounted == mounted && changes == []
      ensures selectedIndex == if mounted then ClampIndex(initialIndex, |options|) else 0
    {
      this.options := options;
      this.mounted := mounted;
      selectedIndex := 0;
      changes := [];
      new;
      if mounted {
        SetIndex(initialIndex, true);
      }
    }

    /** `getIndex`. */
    function GetIndex(): (r: int)
      reads this
      requires Valid()
      ensures r == selectedIndex
    {
      selectedIndex
    }

    /**
     * `setIndex(index, { silent })`: selects the clamped index; `onChange` fires only when the
     * selection changes and the call is not silent.
     */
    method SetIndex(index: int, silent: bool)
      requires Valid()
      modifies this
      ensures Valid()
      ensures !mounted ==> selectedIndex == old(selectedIndex) && changes == old(changes)
      ensures mounted ==> selectedIndex == ClampIndex(index, |options|)
      ensures changes == old(changes) +
        if mounted && !silent && ClampIndex(index, |options|) != old(selectedIndex)
        then [(ClampIndex(index, |options|), options[ClampIndex(index, |options|)])]
        else []
    {
      if !mounted {
        return;
      }
      var clampedIndex := ClampIndex(index, |options|);
      if clampedIndex == selectedIndex {
        return;
      }
      selectedIndex := clampedIndex;
      if !silent {
        changes := changes + [(clampedIndex, options[clampedIndex])];
      }
    }

    /** `increment(step)`: a step of 0, or a wheel without options, does nothing. */
    method Increment(step: int)
      requires Valid()
      modifies this
      ensures Valid()
      ensures step == 0 || |options| == 0 ==> selectedIndex == old(selectedIndex) && changes == old(changes)
      ensures step != 0 && |options| > 0 && mounted ==> selectedIndex == ClampIndex(old(selectedIndex) + step, |options|)
      ensures !mounted ==> selectedIndex == old(selectedIndex) && changes == old(changes)
      ensures step != 0 && |options| > 0 ==>
        var c := ClampIndex(old(selectedIndex) + step, |options|);
        changes == old(changes) + if mounted && c != old(selectedIndex) then [(c, options[c])] else []
    {
      if step == 0 || |options| == 0 {
        return;
      }
      var nextIndex := selectedIndex + step;
      SetIndex(nextIndex, false);
    }
  }

  /**
   * The state of `ClefRangeController` that `commitRangeChange` works on: the number of rows of
   * the master table, the current range, the last committed top and bottom, and the requests
   * sent to the store.
   */
  class ClefRangeController {
    const masterLength: nat
    var currentRange: Option<Range>
    var lastTopIndex: int
    var lastBottomIndex: int
    var requests: seq<PitchRangeRequest>

    /**
     * The end of `init()`: the store's `pitchRange` (null when unset) is normalised against the
     * master table and becomes the current and the last committed range.
     */
    constructor (masterLength: nat, pitchRange: Option<Range>)
      ensures this.masterLength == masterLength && currentRange == Some(NormaliseRange(pitchRange, masterLength))
      ensures Enforced(currentRange.value, masterLength)
      ensures lastTopIndex == currentRange.value.topIndex && lastBottomIndex == currentRange.value.bottomIndex
      ensures requests == []
    {
      var initialRange := NormaliseRange(pitchRange, masterLength);
      this.masterLength := masterLength;
      currentRange := Some(initialRange);
      lastTopIndex := initialRange.topIndex;
      lastBottomIndex := initialRange.bottomIndex;
      requests := [];
    }

    /**
     * `commitRangeChange(topIndex, bottomIndex)`: returns early when the enforced range equals the
     * current one; otherwise it becomes the current range and is sent to the store, trimming
     * content outside it exactly when the range is locked.
     */
    method CommitRangeChange(topIndex: int, bottomIndex: int, isLocked: bool)
      modifies this
      ensures var target := CommitTarget(topIndex, bottomIndex, masterLength);
        (old(currentRange) == Some(target) ==>
           currentRange == old(currentRange) && requests == old(requests) &&
           lastTopIndex == old(lastTopIndex) && lastBottomIndex == old(lastBottomIndex)) &&
        (old(currentRange) != Some(target) ==>
           currentRange == Some(target) && lastTopIndex == target.topIndex && lastBottomIndex == target.bottomIndex &&
           requests == old(requests) + [PitchRangeRequest(target, isLocked, !isLocked)])
    {
      var maxLength: int := masterLength;
      var maxIndex := Max(0, maxLength - 1);
      var normalisedTop := Max(0, Min(maxIndex, topIndex));
      var normalisedBottom := Max(normalisedTop, Min(maxIndex, bottomIndex));
      var enforcedRange := EnforceMinimumRange(normalisedTop, normalisedBottom, maxLength);
      if currentRange.Some? && currentRange.value.topIndex == enforcedRange.topIndex &&
         currentRange.value.bottomIndex == enforcedRange.bottomIndex {
        return;
      }
      currentRange := Some(enforcedRange);
      lastTopIndex := enforcedRange.topIndex;
      lastBottomIndex := enforcedRange.bottomIndex;
      var trimOutsideRange := isLocked;
      requests := requests + [PitchRangeRequest(enforcedRange, trimOutsideRange, !trimOutsideRange)];
    }

    /** Committing the same wheel positions twice sends one request: the second call returns early. */
    method CommitTwice(topIndex: int, bottomIndex: int, isLocked: bool)
      modifies this
      ensures |requests| <= |old(requests)| + 1
      ensures currentRange == Some(CommitTarget(topIndex, bottomIndex, masterLength))
    {
      CommitRangeChange(topIndex, bottomIndex, isLocked);
      CommitRangeChange(topIndex, bottomIndex, isLocked);
    }
  }
}
