/**
 * The pure parts of the annotation service: the text markup segmenter behind text annotations
 * (`<sup>…</sup>`, `<sub>…</sub>` and the `^` shorthand) and the mappers from a size or line
 * style setting to a stroke width, a CSS font size and a dash pattern.
 */
module Annotations {
  import opened Wrappers
  import opened JsText

  datatype Format = Normal | Superscript | Subscript

  /** One `{ text, format }` entry of the segment list. */
  datatype Segment = Segment(text: string, format: Format)

  /** The two tags: `<sup>` (`Sup`) and `<sub>` (`Sub`). */
  datatype Tag = Sup | Sub
  {
    /** The fourth character of the tag name, `p` or `b`. */
    function Letter(): char { if Sup? then 'p' else 'b' }
    function Format(): Format { if Sup? then Superscript else Subscript }
    function Open(): string { if Sup? then "<sup>" else "<sub>" }
    function Close(): string { if Sup? then "</sup>" else "</sub>" }
  }

  /** `text.substr(i, 5) === '<sup>'` (or `'<sub>'`). */
  predicate OpensAt(text: string, i: nat, tag: Tag)
  {
    i + 5 <= |text| && text[i] == '<' && text[i + 1] == 's' && text[i + 2] == 'u' &&
    text[i + 3] == tag.Letter() && text[i + 4] == '>'
  }

  /** `</sup>` (or `</sub>`) occurs at `i`. */
  predicate ClosesAt(text: string, i: nat, tag: Tag)
  {
    i + 6 <= |text| && text[i] == '<' && text[i + 1] == '/' && text[i + 2] == 's' &&
    text[i + 3] == 'u' && text[i + 4] == tag.Letter() && text[i + 5] == '>'
  }

  /** `text.indexOf('</sup>', from)` (or `'</sub>'`): the first closing tag at or after `from`, or -1. */
  function IndexOfClose(text: string, tag: Tag, from: nat): (r: int)
    ensures r == -1 || (from <= r && ClosesAt(text, r, tag))
    decreases |text| - from
  {
    if from + 6 > |text| then -1
    else if ClosesAt(text, from, tag) then from
    else IndexOfClose(text, tag, from + 1)
  }

  /** `if (currentSegment) segments.push({ text: currentSegment, format })`: an empty string is falsy. */
  function Flush(current: string, format: Format): (r: seq<Segment>)
    ensures current == "" ==> r == []
    ensures current != "" ==> r == [Segment(current, format)]
  {
    if current == "" then [] else [Segment(current, format)]
  }

  /** What one pass of the loop body does, decided by the next character and the caret flag. */
  datatype Step =
    | Closed(body: string, format: Format, skip: nat)  // a closed `<sup>`/`<sub>`: emit `body`, skip past the closing tag
    | Unclosed                                         // `<sup>`/`<sub>` without its closing tag
    | CaretOn                                          // `^` outside caret mode
    | CaretOff                                         // a space in caret mode
    | Plain                                            // any other character

  /** The closing tag found by `indexOf` from an opening tag lies after the opening tag. */
  lemma CloseAfterOpen(text: string, i: nat, tag: Tag, close: int)
    requires OpensAt(text, i, tag)
    requires close != -1 && i <= close && ClosesAt(text, close, tag)
    ensures i + 5 <= close && close + 6 <= |text|
  {
  }

  /** The opening tag at the start of `rest` and the first closing tag after it. */
  function TagStep(rest: string, tag: Tag): (r: Step)
    requires OpensAt(rest, 0, tag)
    ensures r.Closed? || r.Unclosed?
    ensures r.Closed? ==> r.format == tag.Format() && 11 <= r.skip <= |rest| && r.body == rest[5..r.skip - 6]
  {
    var close := IndexOfClose(rest, tag, 0);
    if close != -1 then
      CloseAfterOpen(rest, 0, tag, close);
      Closed(rest[5..close], tag.Format(), close + 6)
    else Unclosed
  }

  /**
   * The branch the loop body of `parseFormattedText` takes on the unscanned text `rest`: the
   * `<sup>` test, then the `<sub>` test, then `^` outside caret mode, then a space inside it,
   * else the character is added to the pending text.
   */
  function StepAt(rest: string, caret: bool): (r: Step)
    requires rest != []
    ensures r.Closed? ==> 11 <= r.skip <= |rest| && r.body == rest[5..r.skip - 6]
  {
    if OpensAt(rest, 0, Sup) then TagStep(rest, Sup)
    else if OpensAt(rest, 0, Sub) then TagStep(rest, Sub)
    else if rest[0] == '^' && !caret then CaretOn
    else if caret && rest[0] == ' ' then CaretOff
    else Plain
  }

  /** The loop state after one pass of the loop body: what it pushed, what is left to scan, the pending text and the flag. */
  datatype Scan = Scan(emitted: seq<Segment>, rest: string, current: string, caret: bool)

  /**
   * One pass of the loop body on the unscanned text `rest`, with the pending text `current` and
   * the caret flag `caret`. An opening tag flushes the pending text as a normal segment, even in
   * caret mode; without its closing tag it is then read as an ordinary character; a `^` in caret
   * mode is an ordinary character; scanning resumes after a closing tag with the flag as it was.
   */
  function Advance(rest: string, current: string, caret: bool): (r: Scan)
    requires rest != []
    ensures |r.rest| < |rest|
  {
    match StepAt(rest, caret)
    case Closed(body, format, skip) => Scan(Flush(current, Normal) + [Segment(body, format)], rest[skip..], "", caret)
    case Unclosed => Scan(Flush(current, Normal), rest[1..], [rest[0]], caret)
    case CaretOn => Scan(Flush(current, Normal), rest[1..], "", true)
    case CaretOff => Scan(Flush(current, Superscript) + [Segment(" ", Normal)], rest[1..], "", false)
    case Plain => Scan([], rest[1..], current + [rest[0]], caret)
  }

  /**
   * The segments `parseFormattedText` still emits with `rest` unscanned, the pending text
   * `current` and the caret flag `caret`; at the end the pending text is pushed in the format of
   * the flag.
   */
  function ParseRest(rest: string, current: string, caret: bool): seq<Segment>
    decreases |rest|
  {
    if rest == [] then Flush(current, if caret then Superscript else Normal)
    else
      var a := Advance(rest, current, caret);
      a.emitted + ParseRest(a.rest, a.current, a.caret)
  }

  /** What `parseFormattedText(text)` returns. */
  function Parse(text: string): seq<Segment>
  {
    ParseRest(text, "", false)
  }

  /** The total length of the segment texts. */
  function TextLength(segments: seq<Segment>): nat
  {
    if segments == [] then 0 else |segments[0].text| + TextLength(segments[1..])
  }

  lemma {:induction false} TextLengthAppend(a: seq<Segment>, b: seq<Segment>)
    ensures TextLength(a + b) == TextLength(a) + TextLength(b)
  {
    if a != [] {
      assert (a + b)[1..] == a[1..] + b;
      TextLengthAppend(a[1..], b);
    } else {
      assert a + b == b;
    }
  }

  lemma {:induction false} IndexOfCloseSuffix(p: string, r: string, j: nat, tag: Tag)
    requires j <= |r|
    ensures IndexOfClose(p + r, tag, |p| + j) == (var k := IndexOfClose(r, tag, j); if k == -1 then -1 else |p| + k)
    decreases |r| - j
  {
    if j + 6 <= |r| {
      var t := p + r;
      assert t[|p| + j] == r[j] && t[|p| + j + 1] == r[j + 1] && t[|p| + j + 2] == r[j + 2];
      assert t[|p| + j + 3] == r[j + 3] && t[|p| + j + 4] == r[j + 4] && t[|p| + j + 5] == r[j + 5];
      if !ClosesAt(r, j, tag) {
        IndexOfCloseSuffix(p, r, j + 1, tag);
      }
    }
  }

  /**
   * The tests the loop body makes on `text` at index `i` are the tests `StepAt` makes on the
   * unscanned part `text[i..]`, and `indexOf` from `i` finds the closing tag `TagStep` finds.
   */
  lemma LoopTests(text: string, i: nat, tag: Tag)
    requires i < |text|
    ensures OpensAt(text, i, tag) == OpensAt(text[i..], 0, tag)
    ensures text[i..][0] == text[i]
    ensures var k := IndexOfClose(text[i..], tag, 0);
      IndexOfClose(text, tag, i) == if k == -1 then -1 else i + k
  {
    var p, r := text[..i], text[i..];
    assert text == p + r;
    IndexOfCloseSuffix(p, r, 0, tag);
  }

  /** The branches of the loop body, written on `text` and `i`, compute `Advance` on `text[i..]`. */
  lemma LoopBody(text: string, i: nat, current: string, caret: bool)
    requires i < |text|
    ensures var a := Advance(text[i..], current, caret);
      var opens := OpensAt(text, i, Sup) || OpensAt(text, i, Sub);
      var tag := if OpensAt(text, i, Sup) then Sup else Sub;
      var close := IndexOfClose(text, tag, i);
      (opens && close != -1 ==>
         i + 5 <= close && close + 6 <= |text| &&
         a == Scan(Flush(current, Normal) + [Segment(text[i + 5..close], tag.Format())], text[close + 6..], "", caret)) &&
      (opens && close == -1 ==> a == Scan(Flush(current, Normal), text[i + 1..], [text[i]], caret)) &&
      (!opens && text[i] == '^' && !caret ==> a == Scan(Flush(current, Normal), text[i + 1..], "", true)) &&
      (!opens && !(text[i] == '^' && !caret) && caret && text[i] == ' ' ==>
         a == Scan(Flush(current, Superscript) + [Segment(" ", Normal)], text[i + 1..], "", false)) &&
      (!opens && !(text[i] == '^' && !caret) && !(caret && text[i] == ' ') ==>
         a == Scan([], text[i + 1..], current + [text[i]], caret))
  {
    LoopTests(text, i, Sup);
    LoopTests(text, i, Sub);
    assert text[i..][1..] == text[i + 1..];
    var tag := if OpensAt(text, i, Sup) then Sup else Sub;
    var close := IndexOfClose(text, tag, i);
    if (OpensAt(text, i, Sup) || OpensAt(text, i, Sub)) && close != -1 {
      CloseAfterOpen(text, i, tag, close);
      assert text[i..][close - i + 6..] == text[close + 6..];
      assert text[i..][5..close - i] == text[i + 5..close];
    }
  }

  /** One pass of the loop moves what `Advance` pushes from the still-to-come part to the pushed part. */
  lemma Resume(emitted: seq<Segment>, rest: string, current: string, caret: bool)
    requires rest != []
    ensures var a := Advance(rest, current, caret);
      emitted + ParseRest(rest, current, caret) == (emitted + a.emitted) + ParseRest(a.rest, a.current, a.caret)
  {
  }

  /**
   * One pass of the body of the `while (i < text.length)` loop of `parseFormattedText`: it
   * pushes onto `segments`, updates the pending text and the caret flag, and moves `i` on.
   */
  method ParseStep(text: string, i: nat, segments: seq<Segment>, currentSegment: string, inCaretSuperscript: bool)
    returns (segments': seq<Segment>, currentSegment': string, inCaretSuperscript': bool, i': nat)
    requires i < |text|
    ensures var a := Advance(text[i..], currentSegment, inCaretSuperscript);
      segments' == segments + a.emitted && currentSegment' == a.current && inCaretSuperscript' == a.caret &&
      i < i' <= |text| && text[i'..] == a.rest
  {
    LoopBody(text, i, currentSegment, inCaretSuperscript);
    segments', currentSegment', inCaretSuperscript' := segments, currentSegment, inCaretSuperscript;
    if OpensAt(text, i, Sup) || OpensAt(text, i, Sub) {
      var tag := if OpensAt(text, i, Sup) then Sup else Sub;
      segments' := segments' + Flush(currentSegment', Normal);
      currentSegment' := "";
      var closeIndex := IndexOfClose(text, tag, i);
      if closeIndex != -1 {
        segments' := segments' + [Segment(text[i + 5..closeIndex], tag.Format())];
        return segments', currentSegment', inCaretSuperscript', closeIndex + 6;
      }
    } else if text[i] == '^' && !inCaretSuperscript' {
      segments' := segments' + Flush(currentSegment', Normal);
      currentSegment' := "";
      inCaretSuperscript' := true;
      return segments', currentSegment', inCaretSuperscript', i + 1;
    } else if inCaretSuperscript' && text[i] == ' ' {
      segments' := segments' + Flush(currentSegment', Superscript) + [Segment(" ", Normal)];
      currentSegment' := "";
      inCaretSuperscript' := false;
      return segments', currentSegment', inCaretSuperscript', i + 1;
    }
    currentSegment' := currentSegment' + [text[i]];
    i' := i + 1;
  }

  /**
   * `parseFormattedText`: the `while (i < text.length)` loop, with `segments` holding what has
   * been pushed and `currentSegment` what is pending.
   */
  method ParseFormattedText(text: string) returns (segments: seq<Segment>)
    ensures segments == Parse(text)
    ensures TextLength(segments) <= |text|
  {
    segments := [];
    var i := 0;
    var currentSegment := "";
    var inCaretSuperscript := false;
    while i < |text|
      invariant 0 <= i <= |text|
      invariant segments + ParseRest(text[i..], currentSegment, inCaretSuperscript) == Parse(text)
      decreases |text| - i
    {
      Resume(segments, text[i..], currentSegment, inCaretSuperscript);
      segments, currentSegment, inCaretSuperscript, i := ParseStep(text, i, segments, currentSegment, inCaretSuperscript);
    }
    assert text[i..] == [];
    segments := segments + Flush(currentSegment, if inCaretSuperscript then Superscript else Normal);
    ParseLength(text);
  }

  /** Text without `<` and `^` is added to the pending segment, which is pushed as normal text at the end. */
  lemma {:induction false} PlainTail(rest: string, current: string)
    requires forall k :: 0 <= k < |rest| ==> rest[k] != '<' && rest[k] != '^'
    ensures ParseRest(rest, current, false) == Flush(current + rest, Normal)
    decreases |rest|
  {
    if rest != [] {
      assert Advance(rest, current, false) == Scan([], rest[1..], current + [rest[0]], false);
      PlainTail(rest[1..], current + [rest[0]]);
      assert current + [rest[0]] + rest[1..] == current + rest;
    } else {
      assert current + rest == current;
    }
  }

  /** Text with no `<` and no `^` is one normal segment equal to the text, and empty text is no segment. */
  lemma PlainText(text: string)
    requires forall k :: 0 <= k < |text| ==> text[k] != '<' && text[k] != '^'
    ensures text == "" ==> Parse(text) == []
    ensures text != "" ==> Parse(text) == [Segment(text, Normal)]
  {
    PlainTail(text, "");
    assert "" + text == text;
  }

  /** In caret mode, characters other than `<` and space are added to the pending superscript. */
  lemma {:induction false} CaretRun(x: string, rest: string, current: string)
    requires forall k :: 0 <= k < |x| ==> x[k] != '<' && x[k] != ' '
    ensures ParseRest(x + rest, current, true) == ParseRest(rest, current + x, true)
    decreases |x|
  {
    if x != [] {
      var t := x + rest;
      assert t[0] == x[0];
      assert Advance(t, current, true) == Scan([], t[1..], current + [x[0]], true);
      assert t[1..] == x[1..] + rest;
      CaretRun(x[1..], rest, current + [x[0]]);
      assert current + [x[0]] + x[1..] == current + x;
    } else {
      assert x + rest == rest && current + x == current;
    }
  }

  lemma {:induction false} IndexOfCloseFirst(t: string, tag: Tag, from: nat, at: nat)
    requires from <= at && ClosesAt(t, at, tag)
    requires forall k :: from <= k < at ==> !ClosesAt(t, k, tag)
    ensures IndexOfClose(t, tag, from) == at
    decreases at - from
  {
    if from < at {
      assert !ClosesAt(t, from, tag);
      IndexOfCloseFirst(t, tag, from + 1, at);
    }
  }

  /**
   * A closed `<sup>x</sup>` or `<sub>x</sub>` is one superscript or subscript segment `x`, and
   * scanning resumes after the closing tag.
   */
  lemma ClosedTag(tag: Tag, x: string, rest: string)
    requires forall k :: 0 <= k < |x| ==> x[k] != '<'
    ensures Parse(tag.Open() + x + tag.Close() + rest) == [Segment(x, tag.Format())] + Parse(rest)
  {
    var t := tag.Open() + x + tag.Close() + rest;
    var n := 5 + |x|;
    assert forall k :: 0 <= k < 5 ==> t[k] == tag.Open()[k];
    assert forall k :: 5 <= k < n ==> t[k] == x[k - 5];
    assert forall k :: n <= k < n + 6 ==> t[k] == tag.Close()[k - n];
    assert OpensAt(t, 0, tag);
    assert !OpensAt(t, 0, if tag.Sup? then Sub else Sup);
    IndexOfCloseFirst(t, tag, 0, n);
    assert t[5..n] == x;
    assert t[n + 6..] == rest;
    assert Advance(t, "", false) == Scan([Segment(x, tag.Format())], rest, "", false);
  }

  /**
   * `^` starts a caret superscript; the next space ends it and is emitted as its own normal `' '`
   * segment.
   */
  lemma CaretThenSpace(x: string, rest: string)
    requires forall k :: 0 <= k < |x| ==> x[k] != '<' && x[k] != ' '
    ensures Parse("^" + x + " " + rest) == Flush(x, Superscript) + [Segment(" ", Normal)] + Parse(rest)
  {
    var t := "^" + x + " " + rest;
    assert t[0] == '^';
    assert Advance(t, "", false) == Scan([], t[1..], "", true);
    assert t[1..] == x + (" " + rest);
    CaretRun(x, " " + rest, "");
    assert "" + x == x;
    var u := " " + rest;
    assert u[0] == ' ';
    assert Advance(u, x, true) == Scan(Flush(x, Superscript) + [Segment(" ", Normal)], rest, "", false);
  }

  /** Text left over while still in caret mode is emitted as a superscript segment. */
  lemma CaretAtEnd(x: string)
    requires forall k :: 0 <= k < |x| ==> x[k] != '<' && x[k] != ' '
    ensures Parse("^" + x) == Flush(x, Superscript)
  {
    var t := "^" + x;
    assert t[0] == '^';
    assert Advance(t, "", false) == Scan([], t[1..], "", true);
    assert t[1..] == x + "";
    CaretRun(x, "", "");
    assert "" + x == x;
  }

  /** One pass of the loop emits no more text than it consumes and had pending. */
  lemma AdvanceLength(rest: string, current: string, caret: bool)
    requires rest != []
    ensures var a := Advance(rest, current, caret);
      TextLength(a.emitted) + |a.current| + |a.rest| <= |current| + |rest|
  {
    var f := Flush(current, Normal);
    match StepAt(rest, caret)
    case Closed(body, format, skip) => TextLengthAppend(f, [Segment(body, format)]);
    case Unclosed =>
    case CaretOn =>
    case CaretOff => TextLengthAppend(Flush(current, Superscript), [Segment(" ", Normal)]);
    case Plain =>
  }

  /** The segment texts together are never longer than what is left to scan plus what is pending. */
  lemma {:induction false} ParseRestLength(rest: string, current: string, caret: bool)
    ensures TextLength(ParseRest(rest, current, caret)) <= |current| + |rest|
    decreases |rest|
  {
    if rest != [] {
      var a := Advance(rest, current, caret);
      AdvanceLength(rest, current, caret);
      ParseRestLength(a.rest, a.current, a.caret);
      TextLengthAppend(a.emitted, ParseRest(a.rest, a.current, a.caret));
    }
  }

  /** The total length of all segment texts never exceeds the length of the input. */
  lemma ParseLength(text: string)
    ensures TextLength(Parse(text)) <= |text|
  {
    ParseRestLength(text, "", false);
  }

  /** A size setting: a number (text tool) or a legacy name. */
  datatype Size = Number(value: int) | Named(name: string)

  /** `getStrokeWidth`: numbers unchanged; `small`/`medium`/`large` are 2/4/6; anything else 2. */
  function GetStrokeWidth(size: Size): (r: int)
    ensures size.Number? ==> r == size.value
    ensures size.Named? ==> r in {2, 4, 6}
    ensures size.Named? ==> (r == 4 <==> size.name == "medium") && (r == 6 <==> size.name == "large")
  {
    match size
    case Number(n) => n
    case Named(name) =>
      if name == "small" then 2
      else if name == "medium" then 4
      else if name == "large" then 6
      else 2
  }

  /** `getLineDash`: the canvas dash pattern of a line style; unknown styles are solid. */
  function GetLineDash(style: string): (r: seq<int>)
    ensures r == [] <==> style !in {"dashed-big", "dashed-small", "dotted"}
    ensures r != [] ==> |r| == 2 && r[0] > 0 && r[1] > 0
    ensures style == "dashed-big" ==> r == [10, 5]
    ensures style == "dashed-small" ==> r == [5, 3]
    ensures style == "dotted" ==> r == [2, 3]
  {
    if style == "solid" then []
    else if style == "dashed-big" then [10, 5]
    else if style == "dashed-small" then [5, 3]
    else if style == "dotted" then [2, 3]
    else []
  }

  /** `getSizeValue`: a CSS font size, `${size}px` for numbers, 14/18/24px by name, else 16px. */
  function GetSizeValue(size: Size): (r: string)
    ensures |r| >= 3 && r[|r| - 2..] == "px"
    ensures size.Number? ==> ParseInt(r[..|r| - 2]) == Some(size.value)
    ensures size.Named? ==> r in {"14px", "18px", "24px", "16px"}
    ensures size.Named? ==>
      (r == "14px" <==> size.name == "small") && (r == "18px" <==> size.name == "medium") &&
      (r == "24px" <==> size.name == "large")
  {
    match size
    case Number(n) =>
      ParseIntOfIntToString(n);
      var r := IntToString(n) + "px";
      assert r[..|r| - 2] == IntToString(n);
      r
    case Named(name) =>
      if name == "small" then "14px"
      else if name == "medium" then "18px"
      else if name == "large" then "24px"
      else "16px"
  }
}
