/**
 * The scale-degree helpers of the tonal service: the semitone-to-degree table used for octave
 * partners, formatting an interval as a degree with accidentals, the enharmonic spelling of a
 * degree and the accidental test.
 */
module Tonal {
  import opened Wrappers
  import opened JsText

  const SHARP: char := '\U{266F}'
  const FLAT: char := '\U{266D}'

  /** `{ degree, alt }`: a scale degree 1..7 raised (alt > 0) or lowered (alt < 0). */
  datatype Diatonic = Diatonic(degree: int, alt: int)

  /** `SEMITONE_TO_DIATONIC`: each pitch class above the tonic as a major-scale degree or its flat. */
  function SemitoneToDiatonic(semitones: int): Option<Diatonic>
  {
    if semitones == 0 then Some(Diatonic(1, 0))
    else if semitones == 1 then Some(Diatonic(2, -1))
    else if semitones == 2 then Some(Diatonic(2, 0))
    else if semitones == 3 then Some(Diatonic(3, -1))
    else if semitones == 4 then Some(Diatonic(3, 0))
    else if semitones == 5 then Some(Diatonic(4, 0))
    else if semitones == 6 then Some(Diatonic(5, -1))
    else if semitones == 7 then Some(Diatonic(5, 0))
    else if semitones == 8 then Some(Diatonic(6, -1))
    else if semitones == 9 then Some(Diatonic(6, 0))
    else if semitones == 10 then Some(Diatonic(7, -1))
    else if semitones == 11 then Some(Diatonic(7, 0))
    else None
  }

  /** Semitones from the tonic to each degree of the major scale: an independent reference. */
  function MajorScaleOffset(degree: int): int
    requires 1 <= degree <= 7
  {
    [0, 2, 4, 5, 7, 9, 11][degree - 1]
  }

  /**
   * The table covers exactly the twelve pitch classes, names each by a degree 1..7 that is natural
   * or flat, and the degree's major-scale offset plus the alteration is that pitch class.
   */
  lemma SemitoneTableSound(semitones: int)
    ensures SemitoneToDiatonic(semitones).Some? <==> 0 <= semitones < 12
    ensures SemitoneToDiatonic(semitones).Some? ==>
      var d := SemitoneToDiatonic(semitones).value;
      1 <= d.degree <= 7 && (d.alt == -1 || d.alt == 0) && MajorScaleOffset(d.degree) + d.alt == semitones
  {
  }

  /** What `Interval.get` reports about an interval: its number, alteration and size in semitones. */
  datatype IntervalDetails = IntervalDetails(num: int, alt: int, semitones: int)

  /** `((semitones % 12) + 12) % 12` with JavaScript's remainder. */
  function PitchClass(semitones: int): (r: int)
    ensures 0 <= r < 12 && r == semitones % 12
  {
    JsRem(JsRem(semitones, 12) + 12, 12)
  }

  /**
   * `getOctavePartner`: a lowered octave (or compound octave spelled with 8) is renamed by the
   * table entry of its pitch class; every other interval has no partner.
   */
  function GetOctavePartner(details: IntervalDetails): (r: Option<Diatonic>)
    ensures r.Some? <==> (details.num == 8 || details.num == -8) && details.alt < 0
    ensures r.Some? ==> r == SemitoneToDiatonic(details.semitones % 12)
  {
    var absNum := if details.num < 0 then -details.num else details.num;
    if absNum != 8 || details.alt >= 0 then None
    else
      var semitones := PitchClass(details.semitones);
      SemitoneTableSound(semitones);
      SemitoneToDiatonic(semitones)
  }

  /** `'♭'.repeat(|alt|)` for a negative alteration, `'♯'.repeat(alt)` for a positive one. */
  function AccidentalPrefix(alt: int): (r: string)
    ensures alt < 0 ==> r == Repeat(FLAT, -alt)
    ensures alt > 0 ==> r == Repeat(SHARP, alt)
    ensures alt == 0 ==> r == ""
  {
    if alt < 0 then Repeat(FLAT, -alt) else if alt > 0 then Repeat(SHARP, alt) else ""
  }

  /** The degree and alteration `formatInterval` writes for an interval. */
  function DisplayedDegree(details: IntervalDetails): (d: Diatonic)
    ensures d.degree >= 0
  {
    match GetOctavePartner(details)
    case Some(partner) => SemitoneTableSound(details.semitones % 12); partner
    case None => Diatonic(if details.num < 0 then -details.num else details.num, details.alt)
  }

  /**
   * `formatInterval(interval)`: null for an empty name or one the interval parser does not know
   * (`intervalGet` stands for `Interval.get`); otherwise the accidentals followed by the degree.
   */
  function FormatInterval(interval: string, intervalGet: string -> Option<IntervalDetails>): (r: Option<string>)
    ensures interval == "" || intervalGet(interval).None? <==> r.None?
  {
    if interval == "" then None
    else match intervalGet(interval)
      case None => None
      case Some(details) =>
        var d := DisplayedDegree(details);
        Some(AccidentalPrefix(d.alt) + NatToString(d.degree))
  }

  /** `hasAccidental`: the degree contains a sharp or a flat. */
  predicate HasAccidental(degree: string)
    ensures HasAccidental(degree) <==> exists k :: 0 <= k < |degree| && (degree[k] == SHARP || degree[k] == FLAT)
  {
    SHARP in degree || FLAT in degree
  }

  /** The accidentals are `|alt|` copies of one sign, so they hold a sign iff `alt` is non-zero. */
  lemma PrefixShape(alt: int)
    ensures var prefix := AccidentalPrefix(alt);
      |prefix| == (if alt < 0 then -alt else alt) &&
      (forall k :: 0 <= k < |prefix| ==> prefix[k] == SHARP || prefix[k] == FLAT) &&
      (HasAccidental(prefix) <==> alt != 0)
  {
    var prefix := AccidentalPrefix(alt);
    if alt != 0 {
      assert prefix[0] in prefix;
    }
  }

  /**
   * A formatted degree carries an accidental exactly when its alteration is non-zero, and the
   * text after the accidentals is the degree number.
   */
  lemma FormatIntervalShape(interval: string, intervalGet: string -> Option<IntervalDetails>)
    requires interval != "" && intervalGet(interval).Some?
    ensures var d := DisplayedDegree(intervalGet(interval).value);
      var r := FormatInterval(interval, intervalGet).value;
      var prefix := AccidentalPrefix(d.alt);
      |prefix| == (if d.alt < 0 then -d.alt else d.alt) &&
      r == prefix + NatToString(d.degree) &&
      (HasAccidental(r) <==> d.alt != 0) &&
      ParseInt(r[|prefix|..]) == Some(d.degree)
  {
    var d := DisplayedDegree(intervalGet(interval).value);
    var prefix := AccidentalPrefix(d.alt);
    var digits := NatToString(d.degree);
    PrefixShape(d.alt);
    ParseIntOfNatToString(d.degree);
    AccidentalOfJoin(prefix, digits);
    assert (prefix + digits)[|prefix|..] == digits;
  }

  /** Digits carry no accidental, so the accidentals of `prefix + digits` are those of `prefix`. */
  lemma AccidentalOfJoin(prefix: string, digits: string)
    requires forall k :: 0 <= k < |digits| ==> IsDigit(digits[k])
    ensures HasAccidental(prefix + digits) <==> HasAccidental(prefix)
  {
    assert SHARP !in digits && FLAT !in digits;
  }

  /** A diminished octave (8 numbered, one flat, 11 semitones) is written as the major seventh `7`. */
  lemma DiminishedOctaveIsSeven(intervalGet: string -> Option<IntervalDetails>)
    requires intervalGet("8d") == Some(IntervalDetails(8, -1, 11))
    ensures FormatInterval("8d", intervalGet) == Some("7")
  {
    var details := IntervalDetails(8, -1, 11);
    assert 11 % 12 == 11;
    assert GetOctavePartner(details) == SemitoneToDiatonic(11) == Some(Diatonic(7, 0));
    assert DisplayedDegree(details) == Diatonic(7, 0);
    assert NatToString(7) == "7";
    assert AccidentalPrefix(0) == "";
    assert "8d" != "";
    assert FormatInterval("8d", intervalGet) == Some(AccidentalPrefix(0) + NatToString(7));
    assert AccidentalPrefix(0) + NatToString(7) == "" + "7" == "7";
  }

  /** The enharmonic spellings of the altered degrees. */
  function EnharmonicMap(): map<string, string>
  {
    map[
      [SHARP, '1'] := [FLAT, '2'],
      [FLAT, '2'] := [SHARP, '1'],
      [SHARP, '2'] := [FLAT, '3'],
      [FLAT, '3'] := [SHARP, '2'],
      [SHARP, '4'] := [FLAT, '5'],
      [FLAT, '5'] := [SHARP, '4'],
      [SHARP, '5'] := [FLAT, '6'],
      [FLAT, '6'] := [SHARP, '5'],
      [SHARP, '6'] := [FLAT, '7'],
      [FLAT, '7'] := [SHARP, '6']
    ]
  }

  /** `getEnharmonicDegree`: the other spelling of an altered degree, or null. */
  function GetEnharmonicDegree(degree: string): (r: Option<string>)
    ensures r.Some? <==> degree in EnharmonicMap()
  {
    if degree == "" then None
    else if degree in EnharmonicMap() then Some(EnharmonicMap()[degree])
    else None
  }

  /**
   * Respelling is an involution on the ten altered degrees: the respelling is itself a key, it has
   * the opposite accidental on a neighbouring degree, and respelling it gives the degree back.
   */
  lemma EnharmonicInvolution(degree: string)
    requires degree in EnharmonicMap()
    ensures var other := GetEnharmonicDegree(degree).value;
      other in EnharmonicMap() && GetEnharmonicDegree(other) == Some(degree) &&
      HasAccidental(degree) && HasAccidental(other) && other != degree
  {
  }
}
