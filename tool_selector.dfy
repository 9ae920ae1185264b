/**
 * The harmony part of the tool selector: folding compound intervals onto simple ones, toggling an
 * interval button into the active chord, comparing the active chord with a chord button, and the
 * chord-position (inversion) counter.
 */
module ToolSelector {
  import opened Wrappers
  import opened JsText
  import opened JsArrays

  /** `OCTAVE_EQUIVALENCE`: ninths, elevenths and thirteenths folded an octave down. */
  function OctaveEquivalence(): map<string, string>
  {
    map[
      "9m" := "2m", "9M" := "2M", "9A" := "2A",
      "11P" := "4P", "11A" := "4A",
      "13m" := "6m", "13M" := "6M", "13A" := "6A"
    ]
  }

  /** `normalizeInterval`: the simple form of a compound interval; any other name unchanged. */
  function NormalizeInterval(interval: string): (r: string)
    ensures interval in OctaveEquivalence() ==> r == OctaveEquivalence()[interval]
    ensures interval !in OctaveEquivalence() ==> r == interval
  {
    if interval in OctaveEquivalence() then OctaveEquivalence()[interval] else interval
  }

  /** A folded interval is never folded again: no simple form is itself a compound key. */
  lemma NormalizeIntervalIdempotent(interval: string)
    ensures NormalizeInterval(interval) !in OctaveEquivalence() || interval !in OctaveEquivalence()
    ensures NormalizeInterval(NormalizeInterval(interval)) == NormalizeInterval(interval)
  {
    var folded := OctaveEquivalence();
    assert folded.Keys == {"9m", "9M", "9A", "11P", "11A", "13m", "13M", "13A"};
    if interval in folded {
      assert folded[interval] in {"2m", "2M", "2A", "4P", "4A", "6m", "6M", "6A"};
    }
  }

  /** The chromatic order the toggled intervals are sorted into. */
  function IntervalOrder(): seq<string>
  {
    ["1P", "2m", "2M", "2A", "3m", "3M", "4P", "4A", "5d", "5P", "5A", "6m", "6M", "6A", "7m", "7M",
     "9M", "11P", "11A", "13M"]
  }

  /** `s.indexOf(x)`: the first position of `x`, or -1. */
  function IndexOf(s: seq<string>, x: string): (r: int)
    ensures -1 <= r < |s|
    ensures r >= 0 ==> s[r] == x && forall k :: 0 <= k < r ==> s[k] != x
    ensures r == -1 <==> x !in s
  {
    if s == [] then -1
    else if s[0] == x then 0
    else
      var r := IndexOf(s[1..], x);
      if r < 0 then -1 else r + 1
  }

  /** The comparator `indexA - indexB`: an interval's position in `IntervalOrder`, -1 if absent. */
  function OrderKey(interval: string): int
  {
    IndexOf(IntervalOrder(), interval)
  }

  /** The list is ordered by `key`. */
  predicate SortedBy(s: seq<string>, key: string -> int)
  {
    forall i, j :: 0 <= i < j < |s| ==> key(s[i]) <= key(s[j])
  }

  /** Place `x` after every element of the sorted `s` whose key is not larger (the sort is stable). */
  function InsertBy(x: string, s: seq<string>, key: string -> int): (r: seq<string>)
    requires SortedBy(s, key)
    ensures SortedBy(r, key)
    ensures multiset(r) == multiset(s) + multiset{x}
  {
    if s == [] then [x]
    else if key(s[|s| - 1]) <= key(x) then
      AppendLargest(s, x, key);
      s + [x]
    else
      var init, last := s[..|s| - 1], s[|s| - 1];
      assert init + [last] == s;
      var front := InsertBy(x, init, key);
      BoundedByLast(s, key);
      KeysBounded(front, init + [x], key, key(last));
      AppendLargest(front, last, key);
      front + [last]
  }

  /** An element whose key is at least every key of a sorted list may follow it. */
  lemma AppendLargest(s: seq<string>, x: string, key: string -> int)
    requires SortedBy(s, key)
    requires forall y :: y in s ==> key(y) <= key(x)
    ensures SortedBy(s + [x], key)
  {
    var t := s + [x];
    forall i, j | 0 <= i < j < |t| ensures key(t[i]) <= key(t[j]) {
      if j == |s| {
        assert t[i] in s;
      }
    }
  }

  /** In a sorted list, everything before the last element has a key no larger than it. */
  lemma BoundedByLast(s: seq<string>, key: string -> int)
    requires SortedBy(s, key) && |s| > 0
    ensures forall y :: y in s[..|s| - 1] ==> key(y) <= key(s[|s| - 1])
  {
    forall y | y in s[..|s| - 1] ensures key(y) <= key(s[|s| - 1]) {
      var i :| 0 <= i < |s| - 1 && s[..|s| - 1][i] == y;
      assert s[i] == y;
    }
  }

  /** A bound on the keys survives any rearrangement of the same elements. */
  lemma KeysBounded(a: seq<string>, b: seq<string>, key: string -> int, bound: int)
    requires multiset(a) == multiset(b)
    requires forall y :: y in b ==> key(y) <= bound
    ensures forall y :: y in a ==> key(y) <= bound
  {
    forall y | y in a ensures key(y) <= bound {
      assert y in multiset(a);
      assert y in multiset(b);
    }
  }

  /** `currentIntervals.sort(...)` by `key`, as an insertion sort. */
  function SortBy(s: seq<string>, key: string -> int): (r: seq<string>)
    ensures SortedBy(r, key)
    ensures multiset(r) == multiset(s)
  {
    if s == [] then []
    else
      assert s[..|s| - 1] + [s[|s| - 1]] == s;
      InsertBy(s[|s| - 1], SortBy(s[..|s| - 1], key), key)
  }

  /** The predicate `i => i === interval`. */
  function Is(interval: string): string -> bool
  {
    i => i == interval
  }

  /**
   * The interval button handler: starting from the active chord (or the root alone when the chord
   * tool is not selected), a present interval is removed unless it is the root, an absent one is
   * added, the root is put back if missing, and the list is sorted by `IntervalOrder`.
   */
  method ToggleInterval(chordToolSelected: bool, activeChordIntervals: Option<seq<string>>, clickedInterval: string)
    returns (next: seq<string>)
    ensures "1P" in next
    ensures SortedBy(next, OrderKey)
    ensures var start := if chordToolSelected && activeChordIntervals.Some? then activeChordIntervals.value else ["1P"];
      (clickedInterval in next <==> clickedInterval == "1P" || clickedInterval !in start) &&
      (forall x :: x != clickedInterval && x != "1P" ==> (x in next <==> x in start))
  {
    var currentIntervals := if chordToolSelected && activeChordIntervals.Some? then activeChordIntervals.value else ["1P"];
    currentIntervals := ToggleMembership(currentIntervals, clickedInterval);
    next := SortBy(currentIntervals, OrderKey);
    SameElements(next, currentIntervals);
  }

  /** The add-or-remove step of the handler, before sorting. */
  method ToggleMembership(start: seq<string>, clickedInterval: string) returns (currentIntervals: seq<string>)
    ensures "1P" in currentIntervals
    ensures clickedInterval in currentIntervals <==> clickedInterval == "1P" || clickedInterval !in start
    ensures forall x :: x != clickedInterval && x != "1P" ==> (x in currentIntervals <==> x in start)
  {
    currentIntervals := start;
    if clickedInterval in currentIntervals {
      if clickedInterval != "1P" {
        currentIntervals := Reject(currentIntervals, Is(clickedInterval));
      }
    } else {
      currentIntervals := currentIntervals + [clickedInterval];
    }
    if "1P" !in currentIntervals {
      currentIntervals := ["1P"] + currentIntervals;
    }
  }

  /** Two lists with the same multiset of elements have the same members. */
  lemma SameElements(a: seq<string>, b: seq<string>)
    requires multiset(a) == multiset(b)
    ensures forall x :: x in a <==> x in b
  {
    forall x ensures x in a <==> x in b {
      assert x in a <==> x in multiset(a);
      assert x in b <==> x in multiset(b);
    }
  }

  /** The highlight a chord button receives. */
  datatype Highlight = Selected | PartialMatch | NoHighlight

  /**
   * `updateChordButtonSelection` for one button: no highlight for a label without a chord shape;
   * `selected` when the comma-joined lists are equal; `partial-match` when every folded active
   * interval is among the button's folded intervals.
   */
  function ButtonHighlight(buttonIntervals: Option<seq<string>>, currentIntervals: seq<string>): (r: Highlight)
    ensures buttonIntervals.None? ==> r == NoHighlight
    ensures buttonIntervals.Some? && Join(buttonIntervals.value, ',') == Join(currentIntervals, ',') ==> r == Selected
    ensures buttonIntervals.Some? && Join(buttonIntervals.value, ',') != Join(currentIntervals, ',') ==>
      (r == PartialMatch <==>
         forall i :: 0 <= i < |currentIntervals| ==>
           NormalizeInterval(currentIntervals[i]) in Normalized(buttonIntervals.value))
  {
    match buttonIntervals
    case None => NoHighlight
    case Some(button) =>
      if Join(button, ',') == Join(currentIntervals, ',') then Selected
      else if AllIn(Normalized(currentIntervals), Normalized(button)) then PartialMatch
      else NoHighlight
  }

  /** `intervals.map(normalizeInterval)`. */
  function Normalized(intervals: seq<string>): (r: seq<string>)
    ensures |r| == |intervals| && forall i :: 0 <= i < |r| ==> r[i] == NormalizeInterval(intervals[i])
  {
    if intervals == [] then [] else [NormalizeInterval(intervals[0])] + Normalized(intervals[1..])
  }

  /** `xs.every(x => ys.includes(x))`. */
  function AllIn(xs: seq<string>, ys: seq<string>): (r: bool)
    ensures r <==> forall i :: 0 <= i < |xs| ==> xs[i] in ys
  {
    if xs == [] then true else xs[0] in ys && AllIn(xs[1..], ys)
  }

  predicate CommaFree(intervals: seq<string>)
  {
    forall i :: 0 <= i < |intervals| ==> ',' !in intervals[i]
  }

  /**
   * For non-empty lists of interval names (which never contain a comma), `selected` means the
   * button holds exactly the active intervals in the same order.
   */
  lemma SelectedIffEqual(button: seq<string>, currentIntervals: seq<string>)
    requires |button| >= 1 && |currentIntervals| >= 1
    requires CommaFree(button) && CommaFree(currentIntervals)
    ensures ButtonHighlight(Some(button), currentIntervals) == Selected <==> button == currentIntervals
  {
    if Join(button, ',') == Join(currentIntervals, ',') {
      SplitJoin(button, ',');
      SplitJoin(currentIntervals, ',');
    }
  }

  /**
   * `getMaxPositionStates` (and `getChordNoteCount`): the number of active intervals, or 3 when
   * there are none.
   */
  function MaxPositionStates(activeChordIntervals: Option<seq<string>>): (r: int)
    ensures r >= 1
    ensures activeChordIntervals.Some? && |activeChordIntervals.value| > 0 ==> r == |activeChordIntervals.value|
    ensures activeChordIntervals.None? || activeChordIntervals.value == [] ==> r == 3
  {
    if activeChordIntervals.None? || |activeChordIntervals.value| == 0 then 3 else |activeChordIntervals.value|
  }

  /** The chord position toggle: `(currentState + 1) % maxStates`. */
  function NextChordPosition(currentState: int, activeChordIntervals: Option<seq<string>>): (r: int)
    ensures currentState >= -1 ==> 0 <= r < MaxPositionStates(activeChordIntervals)
  {
    JsRem(currentState + 1, MaxPositionStates(activeChordIntervals))
  }

  /** `k` clicks on the chord position toggle. */
  function ClickChordPosition(k: nat, currentState: int, activeChordIntervals: Option<seq<string>>): int
  {
    if k == 0 then currentState
    else NextChordPosition(ClickChordPosition(k - 1, currentState, activeChordIntervals), activeChordIntervals)
  }

  /** From a valid position, one click moves to the next position, wrapping after the last. */
  lemma NextChordPositionStep(currentState: int, activeChordIntervals: Option<seq<string>>)
    requires 0 <= currentState < MaxPositionStates(activeChordIntervals)
    ensures NextChordPosition(currentState, activeChordIntervals) ==
      if currentState + 1 < MaxPositionStates(activeChordIntervals) then currentState + 1 else 0
  {
    var m := MaxPositionStates(activeChordIntervals);
    var next := currentState + 1;
    if next < m {
      JsRemSmall(next, m);
    } else {
      JsRemSelf(m);
    }
  }

  lemma {:induction false} ClickCompose(a: nat, b: nat, currentState: int, activeChordIntervals: Option<seq<string>>)
    ensures ClickChordPosition(a + b, currentState, activeChordIntervals) ==
      ClickChordPosition(b, ClickChordPosition(a, currentState, activeChordIntervals), activeChordIntervals)
  {
    if b > 0 {
      ClickCompose(a, b - 1, currentState, activeChordIntervals);
    }
  }

  lemma {:induction false} ClickRun(k: nat, currentState: int, activeChordIntervals: Option<seq<string>>)
    requires 0 <= currentState && currentState + k < MaxPositionStates(activeChordIntervals)
    ensures ClickChordPosition(k, currentState, activeChordIntervals) == currentState + k
  {
    if k > 0 {
      ClickRun(k - 1, currentState, activeChordIntervals);
      NextChordPositionStep(currentState + k - 1, activeChordIntervals);
    }
  }

  /** Clicking once per position brings every valid position back to itself. */
  lemma ChordPositionCycle(currentState: int, activeChordIntervals: Option<seq<string>>)
    requires 0 <= currentState < MaxPositionStates(activeChordIntervals)
    ensures ClickChordPosition(MaxPositionStates(activeChordIntervals), currentState, activeChordIntervals) == currentState
  {
    var m := MaxPositionStates(activeChordIntervals);
    var toLast := m - 1 - currentState;
    ClickRun(toLast, currentState, activeChordIntervals);
    NextChordPositionStep(m - 1, activeChordIntervals);
    ClickRun(currentState, 0, activeChordIntervals);
    ClickCompose(toLast, 1, currentState, activeChordIntervals);
    ClickCompose(toLast + 1, currentState, currentState, activeChordIntervals);
  }

  /** `updateChordPositionToggleState`: a position past the last chord note resets to 0. */
  function ClampChordPosition(currentState: int, activeChordIntervals: Option<seq<string>>): (r: int)
    ensures currentState >= 0 ==> 0 <= r < MaxPositionStates(activeChordIntervals)
    ensures currentState <= MaxPositionStates(activeChordIntervals) - 1 ==> r == currentState
    ensures currentState > MaxPositionStates(activeChordIntervals) - 1 ==> r == 0
  {
    var maxPosition := MaxPositionStates(activeChordIntervals) - 1;
    if currentState > maxPosition then 0 else currentState
  }
}
