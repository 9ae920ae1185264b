/**
 * The time-signature service: the catalog of macrobeat groupings offered in the dropdown, and the
 * label computed from a list of groupings (2 = a two-beat macrobeat, 3 = a three-beat one).
 */
module TimeSignatures {
  import opened Wrappers
  import opened JsText

  /** A label `numerator/denominator` as the numbers it shows. */
  datatype Meter = Meter(numerator: int, denominator: int)

  /** The text of a label: the numerator, `/`, the denominator. */
  function MeterText(m: Meter): string
  {
    IntToString(m.numerator) + "/" + IntToString(m.denominator)
  }

  /** `{ label, groupings, description }`; the label is kept as the meter its text shows. */
  datatype TimeSignature = TimeSignature(meter: Meter, groupings: seq<int>, description: string)

  /** One key of the catalog object with its list of signatures, in insertion order. */
  datatype Category = Category(name: string, signatures: seq<TimeSignature>)

  /** The category heading for `k` macrobeats, 1 <= k <= 5. */
  function CategoryName(k: int): string
  {
    if k == 1 then "Single Macrobeat"
    else if k == 2 then "Two Macrobeats"
    else if k == 3 then "Three Macrobeats"
    else if k == 4 then "Four Macrobeats"
    else if k == 5 then "Five Macrobeats"
    else ""
  }

  function Single(): seq<TimeSignature>
  {
    [ TimeSignature(Meter(1, 4), [2], "one 2-beat"),
      TimeSignature(Meter(2, 8), [2], "one 2-beat"),
      TimeSignature(Meter(3, 8), [3], "one 3-beat") ]
  }

  function Two(): seq<TimeSignature>
  {
    [ TimeSignature(Meter(2, 4), [2, 2], "two 2-beats"),
      TimeSignature(Meter(4, 8), [2, 2], "two 2-beats"),
      TimeSignature(Meter(5, 8), [2, 3], "2+3"),
      TimeSignature(Meter(5, 8), [3, 2], "3+2"),
      TimeSignature(Meter(6, 8), [3, 3], "two 3-beats") ]
  }

  function Three(): seq<TimeSignature>
  {
    [ TimeSignature(Meter(3, 4), [2, 2, 2], "three 2-beats"),
      TimeSignature(Meter(7, 8), [2, 2, 3], "2+2+3"),
      TimeSignature(Meter(7, 8), [3, 2, 2], "3+2+2"),
      TimeSignature(Meter(7, 8), [2, 3, 2], "2+3+2"),
      TimeSignature(Meter(8, 8), [3, 3, 2], "3+3+2"),
      TimeSignature(Meter(8, 8), [3, 2, 3], "3+2+3"),
      TimeSignature(Meter(8, 8), [2, 3, 3], "2+3+3"),
      TimeSignature(Meter(9, 8), [3, 3, 3], "three 3-beats") ]
  }

  function Four(): seq<TimeSignature>
  {
    [ TimeSignature(Meter(4, 4), [2, 2, 2, 2], "four 2-beats"),
      TimeSignature(Meter(10, 8), [2, 2, 3, 3], "2+2+3+3"),
      TimeSignature(Meter(10, 8), [2, 3, 2, 3], "2+3+2+3"),
      TimeSignature(Meter(10, 8), [2, 3, 3, 2], "2+3+3+2"),
      TimeSignature(Meter(10, 8), [3, 2, 3, 2], "3+2+3+2"),
      TimeSignature(Meter(10, 8), [3, 3, 2, 2], "3+3+2+2"),
      TimeSignature(Meter(10, 8), [3, 2, 2, 3], "3+2+2+3"),
      TimeSignature(Meter(11, 8), [3, 3, 3, 2], "3+3+3+2"),
      TimeSignature(Meter(11, 8), [3, 3, 2, 3], "3+3+2+3"),
      TimeSignature(Meter(11, 8), [3, 2, 3, 3], "3+2+3+3"),
      TimeSignature(Meter(11, 8), [2, 3, 3, 3], "2+3+3+3"),
      TimeSignature(Meter(12, 8), [3, 3, 3, 3], "four 3-beats") ]
  }

  function Five(): seq<TimeSignature>
  {
    [ TimeSignature(Meter(5, 4), [2, 2, 2, 2, 2], "five 2-beats"),
      TimeSignature(Meter(11, 8), [2, 2, 2, 2, 3], "2+2+2+2+3"),
      TimeSignature(Meter(11, 8), [2, 2, 2, 3, 2], "2+2+2+3+2"),
      TimeSignature(Meter(11, 8), [2, 2, 3, 2, 2], "2+2+3+2+2"),
      TimeSignature(Meter(11, 8), [2, 3, 2, 2, 2], "2+3+2+2+2"),
      TimeSignature(Meter(11, 8), [3, 2, 2, 2, 2], "3+2+2+2+2"),
      TimeSignature(Meter(12, 8), [2, 2, 2, 3, 3], "2+2+2+3+3"),
      TimeSignature(Meter(12, 8), [2, 2, 3, 2, 3], "2+2+3+2+3"),
      TimeSignature(Meter(12, 8), [2, 2, 3, 3, 2], "2+2+3+3+2"),
      TimeSignature(Meter(12, 8), [2, 3, 2, 2, 3], "2+3+2+2+3"),
      TimeSignature(Meter(12, 8), [2, 3, 2, 3, 2], "2+3+2+3+2"),
      TimeSignature(Meter(12, 8), [2, 3, 3, 2, 2], "2+3+3+2+2"),
      TimeSignature(Meter(12, 8), [3, 2, 2, 2, 3], "3+2+2+2+3"),
      TimeSignature(Meter(12, 8), [3, 2, 2, 3, 2], "3+2+2+3+2"),
      TimeSignature(Meter(12, 8), [3, 2, 3, 2, 2], "3+2+3+2+2"),
      TimeSignature(Meter(12, 8), [3, 3, 2, 2, 2], "3+3+2+2+2"),
      TimeSignature(Meter(13, 8), [3, 2, 2, 3, 3], "3+2+2+3+3"),
      TimeSignature(Meter(13, 8), [3, 3, 2, 3, 2], "3+3+2+3+2"),
      TimeSignature(Meter(13, 8), [3, 3, 3, 2, 2], "3+3+3+2+2"),
      TimeSignature(Meter(15, 8), [3, 3, 3, 3, 3], "five 3-beats") ]
  }

  /** `getTimeSignatureOptions()`: the five categories in the order the catalog lists them. */
  function TimeSignatureOptions(): (r: seq<Category>)
    ensures |r| == 5
    ensures forall k :: 0 <= k < 5 ==> r[k].name == CategoryName(k + 1)
  {
    [ Category(CategoryName(1), Single()),
      Category(CategoryName(2), Two()),
      Category(CategoryName(3), Three()),
      Category(CategoryName(4), Four()),
      Category(CategoryName(5), Five()) ]
  }

  /**
   * `getTimeSignatureLabel(groupings)`: with a three-beat macrobeat, the total number of eighths
   * over 8; otherwise half the total over 4 (JavaScript prints an odd half with `.5`).
   */
  function TimeSignatureLabel(groupings: seq<int>): (r: string)
    ensures |r| >= 3 && r[|r| - 2..] == (if 3 in groupings then "/8" else "/4")
  {
    var total := Sum(groupings);
    var hasThreeGrouping := 3 in groupings;
    if hasThreeGrouping then IntToString(total) + "/8" else HalfToString(total) + "/4"
  }

  /** Every grouping of the list is a two- or three-beat macrobeat. */
  predicate MacrobeatsOf(groupings: seq<int>, k: int)
  {
    |groupings| == k && forall g :: g in groupings ==> g == 2 || g == 3
  }

  /** The catalog entries of one category keep its macrobeat count and use only 2 and 3. */
  predicate CategoryShaped(signatures: seq<TimeSignature>, k: int)
  {
    forall j :: 0 <= j < |signatures| ==> MacrobeatsOf(signatures[j].groupings, k)
  }

  /**
   * The meter `getTimeSignatureLabel` shows: eighths with a three-beat macrobeat, otherwise
   * quarters.
   */
  function LabelMeter(groupings: seq<int>): Meter
  {
    if 3 in groupings then Meter(Sum(groupings), 8) else Meter(Sum(groupings) / 2, 4)
  }

  /** Away from odd quarter totals, the label is the text of `LabelMeter`. */
  lemma LabelIsMeterText(groupings: seq<int>)
    requires 3 in groupings || Sum(groupings) % 2 == 0
    ensures TimeSignatureLabel(groupings) == MeterText(LabelMeter(groupings))
  {
  }

  /**
   * A catalog label is `getTimeSignatureLabel` of its groupings, except that a list of two-beat
   * macrobeats may also be offered counted in eighths (`2/8`, `4/8`).
   */
  predicate LabelAgrees(sig: TimeSignature)
  {
    sig.meter == LabelMeter(sig.groupings) ||
    (3 !in sig.groupings && sig.meter == Meter(Sum(sig.groupings), 8))
  }

  predicate LabelsAgree(signatures: seq<TimeSignature>)
  {
    forall j :: 0 <= j < |signatures| ==> LabelAgrees(signatures[j])
  }

  /** Every entry in the category for `k` macrobeats has `k` groupings, each 2 or 3. */
  lemma CatalogShape()
    ensures forall k :: 0 <= k < 5 ==> CategoryShaped(TimeSignatureOptions()[k].signatures, k + 1)
  {
    ShapeSingleAndTwo();
    ShapeThree();
    ShapeFour();
    ShapeFive();
  }

  lemma ShapeSingleAndTwo()
    ensures CategoryShaped(Single(), 1) && CategoryShaped(Two(), 2)
  {
  }

  lemma ShapeThree()
    ensures CategoryShaped(Three(), 3)
  {
  }

  lemma ShapeFour()
    ensures CategoryShaped(Four(), 4)
  {
  }

  lemma ShapeFive()
    ensures CategoryShaped(Five(), 5)
  {
  }

  /**
   * Every catalog label agrees with `getTimeSignatureLabel`; where the groupings hold a 3, the
   * catalog text is exactly `getTimeSignatureLabel(groupings)`.
   */
  lemma CatalogLabels()
    ensures forall k :: 0 <= k < 5 ==> LabelsAgree(TimeSignatureOptions()[k].signatures)
    ensures forall k, j :: 0 <= k < 5 && 0 <= j < |TimeSignatureOptions()[k].signatures| ==>
      var sig := TimeSignatureOptions()[k].signatures[j];
      3 in sig.groupings ==> MeterText(sig.meter) == TimeSignatureLabel(sig.groupings)
  {
    LabelsSingleAndTwo();
    LabelsThree();
    LabelsFour();
    LabelsFive();
    forall k, j | 0 <= k < 5 && 0 <= j < |TimeSignatureOptions()[k].signatures|
      ensures var sig := TimeSignatureOptions()[k].signatures[j];
        3 in sig.groupings ==> MeterText(sig.meter) == TimeSignatureLabel(sig.groupings)
    {
      var sig := TimeSignatureOptions()[k].signatures[j];
      if 3 in sig.groupings {
        LabelIsMeterText(sig.groupings);
      }
    }
  }

  lemma LabelsSingleAndTwo()
    ensures LabelsAgree(Single()) && LabelsAgree(Two())
  {
  }

  lemma LabelsThree()
    ensures LabelsAgree(Three())
  {
    LabelsThree1();
    LabelsThree2();
    LabelsThree3();
  }

  lemma LabelsThree1()
    ensures forall j :: 0 <= j < 3 ==> LabelAgrees(Three()[j])
  {
  }

  lemma LabelsThree2()
    ensures forall j :: 3 <= j < 6 ==> LabelAgrees(Three()[j])
  {
  }

  lemma LabelsThree3()
    ensures forall j :: 6 <= j < 8 ==> LabelAgrees(Three()[j])
  {
  }

  lemma LabelsFour()
    ensures LabelsAgree(Four())
  {
    LabelsFour1();
    LabelsFour2();
    LabelsFour3();
    LabelsFour4();
  }

  lemma LabelsFour1()
    ensures forall j :: 0 <= j < 3 ==> LabelAgrees(Four()[j])
  {
  }

  lemma LabelsFour2()
    ensures forall j :: 3 <= j < 6 ==> LabelAgrees(Four()[j])
  {
  }

  lemma LabelsFour3()
    ensures forall j :: 6 <= j < 9 ==> LabelAgrees(Four()[j])
  {
  }

  lemma LabelsFour4()
    ensures forall j :: 9 <= j < 12 ==> LabelAgrees(Four()[j])
  {
  }

  lemma LabelsFive()
    ensures LabelsAgree(Five())
  {
    LabelsFive1();
    LabelsFive2();
    LabelsFive3();
    LabelsFive4();
    LabelsFive5();
    LabelsFive6();
    LabelsFive7();
  }

  lemma LabelsFive1()
    ensures forall j :: 0 <= j < 3 ==> LabelAgrees(Five()[j])
  {
  }

  lemma LabelsFive2()
    ensures forall j :: 3 <= j < 6 ==> LabelAgrees(Five()[j])
  {
  }

  lemma LabelsFive3()
    ensures forall j :: 6 <= j < 9 ==> LabelAgrees(Five()[j])
  {
  }

  lemma LabelsFive4()
    ensures forall j :: 9 <= j < 12 ==> LabelAgrees(Five()[j])
  {
  }

  lemma LabelsFive5()
    ensures forall j :: 12 <= j < 15 ==> LabelAgrees(Five()[j])
  {
  }

  lemma LabelsFive6()
    ensures forall j :: 15 <= j < 18 ==> LabelAgrees(Five()[j])
  {
  }

  lemma LabelsFive7()
    ensures forall j :: 18 <= j < 20 ==> LabelAgrees(Five()[j])
  {
  }

  /** `n` two-beat macrobeats give the label `n/4`. */
  lemma {:induction false} AllTwosLabel(n: nat)
    ensures TimeSignatureLabel(seq(n, _ => 2)) == NatToString(n) + "/4"
  {
    SumOfTwos(n);
  }

  lemma {:induction false} SumOfTwos(n: nat)
    ensures Sum(seq(n, _ => 2)) == 2 * n
  {
    if n > 0 {
      assert seq(n, _ => 2)[1..] == seq(n - 1, _ => 2);
      SumOfTwos(n - 1);
    }
  }

  /** The numerator of a label with a three-beat macrobeat reads back as the total of the groupings. */
  lemma EighthsLabelNumerator(groupings: seq<int>)
    requires 3 in groupings
    ensures Split(TimeSignatureLabel(groupings), '/') == [IntToString(Sum(groupings)), "8"]
    ensures ParseInt(Split(TimeSignatureLabel(groupings), '/')[0]) == Some(Sum(groupings))
  {
    var numerator := IntToString(Sum(groupings));
    NoSlashInIntToString(Sum(groupings));
    SplitAtSeparator(numerator, '/', "8");
    SplitNoSeparator("8", '/');
    assert numerator + "/8" == numerator + ['/'] + "8";
    ParseIntOfIntToString(Sum(groupings));
  }

  lemma NoSlashInIntToString(i: int)
    ensures '/' !in IntToString(i)
  {
    var digits := NatToString(if i < 0 then -i else i);
    assert forall k :: 0 <= k < |digits| ==> digits[k] != '/';
  }
}
