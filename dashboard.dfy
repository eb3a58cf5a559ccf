/**
 * The dashboard page: the widgets' initial state (the bill-range slider with
 * its marks, the meal-time checklist) and the update callback that turns the
 * widgets' values into the statistics shown in the stats block.
 */
module Dashboard {
  import opened Strings
  import opened TipsTable
  import opened TipQuery
  import opened TipStats

  // ---------------------------------------------------------------------------
  // Slider marks: {str(i): str(i) for i in range(int(min), int(max) + 1, 5)}

  /** Python's `int(x)` on a float: truncation toward zero. */
  function Truncate(x: real): (i: int)
    ensures x >= 0.0 ==> i as real <= x < i as real + 1.0
    ensures x < 0.0 ==> i as real - 1.0 < x <= i as real
  {
    if x >= 0.0 then x.Floor else -((-x).Floor)
  }

  /** Python's `range(start, stop, step)` for a positive step. */
  function Range(start: int, stop: int, step: nat): seq<int>
    requires step > 0
    decreases stop - start
  {
    if start >= stop then [] else [start] + Range(start + step, stop, step)
  }

  const MarkStep: nat := 5

  /** The marks' range holds exactly the numbers from `start` below `stop` that are `start` plus a multiple of 5. */
  lemma {:induction false} RangeMembership(start: int, stop: int, k: int)
    ensures k in Range(start, stop, MarkStep) <==> start <= k < stop && (k - start) % 5 == 0
    decreases stop - start
  {
    if start < stop {
      RangeMembership(start + 5, stop, k);
    }
  }

  /** The marks' range is strictly increasing, so it holds no number twice. */
  lemma {:induction false} RangeIncreasing(start: int, stop: int)
    ensures forall i, j :: 0 <= i < j < |Range(start, stop, MarkStep)| ==>
      Range(start, stop, MarkStep)[i] < Range(start, stop, MarkStep)[j]
    decreases stop - start
  {
    if start < stop {
      var rest := Range(start + 5, stop, MarkStep);
      RangeIncreasing(start + 5, stop);
      forall j | 0 <= j < |rest| ensures start < rest[j] {
        RangeMembership(start + 5, stop, rest[j]);
      }
    }
  }

  /** The positions of the slider marks for a dataset whose bills run from `lo` to `hi`. */
  function SliderTicks(lo: real, hi: real): seq<int>
  {
    Range(Truncate(lo), Truncate(hi) + 1, MarkStep)
  }

  /** The dict comprehension `{str(i): str(i) for i in ticks}`, inserted in order. */
  function MarksOf(ticks: seq<int>): map<string, string>
  {
    if ticks == [] then map[]
    else
      var key := IntToDecimal(ticks[|ticks| - 1]);
      MarksOf(ticks[..|ticks| - 1])[key := key]
  }

  /**
   * Each entry maps a key to itself; every key is the decimal string of one of
   * the ticks; every tick has its entry.
   */
  lemma {:induction false} MarksOfSpec(ticks: seq<int>)
    ensures forall k :: k in MarksOf(ticks) ==> MarksOf(ticks)[k] == k
    ensures forall k :: k in MarksOf(ticks) ==> ParseDecimal(k) in ticks && IntToDecimal(ParseDecimal(k)) == k
    ensures forall i :: 0 <= i < |ticks| ==> IntToDecimal(ticks[i]) in MarksOf(ticks)
  {
    if ticks != [] {
      var init := ticks[..|ticks| - 1];
      var last := ticks[|ticks| - 1];
      var key := IntToDecimal(last);
      MarksOfSpec(init);
      DecimalRoundTrip(last);
      assert ticks == init + [last];
      forall k | k in MarksOf(ticks)
        ensures ParseDecimal(k) in ticks && IntToDecimal(ParseDecimal(k)) == k
      {
        if k != key {
          assert k in MarksOf(init);
        }
      }
      forall i | 0 <= i < |ticks| ensures IntToDecimal(ticks[i]) in MarksOf(ticks) {
        if i < |init| {
          assert ticks[i] == init[i];
        }
      }
    }
  }

  /** Without repeated ticks, the comprehension has one entry per tick. */
  lemma {:induction false} MarksOfSize(ticks: seq<int>)
    requires forall i, j :: 0 <= i < j < |ticks| ==> ticks[i] != ticks[j]
    ensures |MarksOf(ticks)| == |ticks|
  {
    if ticks != [] {
      var init := ticks[..|ticks| - 1];
      var last := ticks[|ticks| - 1];
      MarksOfSize(init);
      MarksOfSpec(init);
      DecimalRoundTrip(last);
    }
  }

  /** The slider's marks. */
  function SliderMarks(lo: real, hi: real): map<string, string>
  {
    MarksOf(SliderTicks(lo, hi))
  }

  /**
   * The comprehension over `range(a, b, 5)`: every key is labelled with itself,
   * the keys are exactly the decimal strings of the numbers from `a` below `b`
   * at a distance from `a` that is a multiple of 5, one entry per number.
   */
  lemma RangeMarksSpec(a: int, b: int)
    ensures forall k :: k in MarksOf(Range(a, b, MarkStep)) ==> MarksOf(Range(a, b, MarkStep))[k] == k
    ensures forall k :: k in MarksOf(Range(a, b, MarkStep)) ==>
      IntToDecimal(ParseDecimal(k)) == k && a <= ParseDecimal(k) < b && (ParseDecimal(k) - a) % MarkStep == 0
    ensures forall i :: a <= i < b && (i - a) % MarkStep == 0 ==> IntToDecimal(i) in MarksOf(Range(a, b, MarkStep))
    ensures |MarksOf(Range(a, b, MarkStep))| == |Range(a, b, MarkStep)|
  {
    var ticks := Range(a, b, MarkStep);
    MarksOfSpec(ticks);
    forall k | k in MarksOf(ticks)
      ensures a <= ParseDecimal(k) < b && (ParseDecimal(k) - a) % MarkStep == 0
    {
      RangeMembership(a, b, ParseDecimal(k));
    }
    forall i | a <= i < b && (i - a) % MarkStep == 0
      ensures IntToDecimal(i) in MarksOf(ticks)
    {
      RangeMembership(a, b, i);
      var j :| 0 <= j < |ticks| && ticks[j] == i;
    }
    RangeIncreasing(a, b);
    MarksOfSize(ticks);
  }

  /**
   * Every mark is labelled with its own key, and the keys are exactly the decimal
   * strings of the integers between int(lo) and int(hi) at a distance from int(lo)
   * that is a multiple of 5; there is one mark per such integer.
   */
  lemma SliderMarksSpec(lo: real, hi: real)
    ensures forall k :: k in SliderMarks(lo, hi) ==> SliderMarks(lo, hi)[k] == k
    ensures forall k :: k in SliderMarks(lo, hi) ==>
      var i := ParseDecimal(k);
      && IntToDecimal(i) == k
      && Truncate(lo) <= i <= Truncate(hi)
      && (i - Truncate(lo)) % MarkStep == 0
    ensures forall i :: Truncate(lo) <= i <= Truncate(hi) && (i - Truncate(lo)) % MarkStep == 0 ==>
      IntToDecimal(i) in SliderMarks(lo, hi)
    ensures |SliderMarks(lo, hi)| == |SliderTicks(lo, hi)|
  {
    RangeMarksSpec(Truncate(lo), Truncate(hi) + 1);
  }

  // ---------------------------------------------------------------------------
  // The meal-time checklist and the initial filter.

  datatype ChecklistOption = ChecklistOption(labelText: string, value: string)

  const MealTimes: seq<string> := ["Lunch", "Dinner"]

  /** `[{'label': i, 'value': i} for i in values]`. */
  function OptionsOf(values: seq<string>): (opts: seq<ChecklistOption>)
    ensures |opts| == |values|
    ensures forall i :: 0 <= i < |values| ==> opts[i].labelText == values[i] && opts[i].value == values[i]
  {
    if values == [] then [] else [ChecklistOption(values[0], values[0])] + OptionsOf(values[1..])
  }

  /** The checklist offers Lunch and Dinner, in that order, each labelled with its own value. */
  function TimeOptions(): (opts: seq<ChecklistOption>)
    ensures opts == [ChecklistOption("Lunch", "Lunch"), ChecklistOption("Dinner", "Dinner")]
  {
    OptionsOf(MealTimes)
  }

  /**
   * The widgets' state when the page loads: the slider spans the dataset's
   * smallest to largest bill and both meal times are checked.
   */
  function InitialFilter(table: Table): (f: FilterState)
    requires |table| > 0
    ensures f.lo in Bills(table) && f.hi in Bills(table) && f.lo <= f.hi
    ensures forall i :: 0 <= i < |table| ==> f.lo <= table[i].totalBill <= f.hi
    ensures f.selected == MealTimes
  {
    FilterState(Min(Bills(table)), Max(Bills(table)), MealTimes)
  }

  /** A filter that every row of the table matches fetches the whole table, in order. */
  lemma {:induction false} AllMatchFetchesAll(table: Table, f: FilterState)
    requires forall i :: 0 <= i < |table| ==> Matches(table[i], f)
    ensures Filtered(table, f) == table
  {
    if table != [] {
      WhereIffMatches(table[0], f);
      AllMatchFetchesAll(table[1..], f);
    }
  }

  /**
   * Under the initial filter a row is fetched exactly when its time is Lunch or
   * Dinner; when every row has one of those times, every row is counted.
   */
  lemma InitialFilterFetchesEveryMeal(table: Table)
    requires |table| > 0
    ensures forall i :: 0 <= i < |table| ==>
      (i in MatchingIndices(table, InitialFilter(table)) <==> table[i].time in MealTimes)
    ensures (forall i :: 0 <= i < |table| ==> table[i].time in MealTimes) ==>
      Filtered(table, InitialFilter(table)) == table
  {
    if forall i :: 0 <= i < |table| ==> table[i].time in MealTimes {
      AllMatchFetchesAll(table, InitialFilter(table));
    }
  }

  // ---------------------------------------------------------------------------
  // The update callback.

  /**
   * `update_data(total_bill_range, selected_time, n_clicks)`, restricted to the
   * stats block: fetch the matching rows and compute the statistics. The reset
   * button's click count is accepted and not used.
   */
  function UpdateData(table: Table, totalBillRange: (real, real), selectedTime: seq<string>, nClicks: int): (s: Stats)
    ensures s.totalTippers == |MatchingIndices(table, FilterState(totalBillRange.0, totalBillRange.1, selectedTime))|
    ensures s.totalTippers <= |table|
    ensures s.totalTippers == 0 ==> s.averageTip == 0.0 && s.averageBill == 0.0
    ensures s.totalTippers > 0 ==>
      var rows := Filtered(table, FilterState(totalBillRange.0, totalBillRange.1, selectedTime));
      && s.averageTip * (s.totalTippers as real) == Sum(Tips(rows))
      && s.averageBill * (s.totalTippers as real) == Sum(Bills(rows))
  {
    var f := FilterState(totalBillRange.0, totalBillRange.1, selectedTime);
    var filteredTips := Filtered(table, f);
    FilteredCount(table, f);
    FetchedColumnsAreFields(filteredTips);
    ComputeStats(Fetch(filteredTips))
  }

  /** When some row is fetched, each average lies between the smallest and largest value of its column among those rows. */
  lemma AveragesWithinFetchedRange(table: Table, totalBillRange: (real, real), selectedTime: seq<string>, nClicks: int)
    requires UpdateData(table, totalBillRange, selectedTime, nClicks).totalTippers > 0
    ensures var rows := Filtered(table, FilterState(totalBillRange.0, totalBillRange.1, selectedTime));
      var s := UpdateData(table, totalBillRange, selectedTime, nClicks);
      && |rows| > 0
      && Min(Tips(rows)) <= s.averageTip <= Max(Tips(rows))
      && Min(Bills(rows)) <= s.averageBill <= Max(Bills(rows))
  {
    var f := FilterState(totalBillRange.0, totalBillRange.1, selectedTime);
    var rows := Filtered(table, f);
    FilteredCount(table, f);
    FetchedColumnsAreFields(rows);
    AveragesWithinColumnRange(Fetch(rows));
  }

  /** Raising the lower bound, lowering the upper bound or unchecking times never raises the count. */
  lemma NarrowingNeverRaisesCount(table: Table, outer: (real, real), inner: (real, real),
                                  selected: seq<string>, kept: seq<string>, clicks: int)
    requires outer.0 <= inner.0 && inner.1 <= outer.1
    requires forall t :: t in kept ==> t in selected
    ensures UpdateData(table, inner, kept, clicks).totalTippers
         <= UpdateData(table, outer, selected, clicks).totalTippers
  {
    var f := FilterState(outer.0, outer.1, selected);
    var g := FilterState(inner.0, inner.1, kept);
    NarrowerFetchesSubMultiset(table, f, g);
    FilteredCount(table, f);
    FilteredCount(table, g);
  }

  /** The reset button's click count has no effect on what is shown. */
  lemma ResetClicksIgnored(table: Table, range: (real, real), selected: seq<string>, c1: int, c2: int)
    ensures UpdateData(table, range, selected, c1) == UpdateData(table, range, selected, c2)
  {
  }

  /** Three records, the range [15, 30] and only Dinner: one tipper, average tip 3, average bill 30. */
  lemma ThreeRecordScenario()
    ensures UpdateData(
              [Record(10.0, 1.0, "Female", "No", "Sun", "Lunch", 2),
               Record(20.0, 3.0, "Male", "No", "Sat", "Lunch", 3),
               Record(30.0, 3.0, "Male", "Yes", "Sat", "Dinner", 4)],
              (15.0, 30.0), ["Dinner"], 0)
         == Stats(1, 3.0, 30.0)
  {
    var a := Record(10.0, 1.0, "Female", "No", "Sun", "Lunch", 2);
    var b := Record(20.0, 3.0, "Male", "No", "Sat", "Lunch", 3);
    var c := Record(30.0, 3.0, "Male", "Yes", "Sat", "Dinner", 4);
    var f := FilterState(15.0, 30.0, ["Dinner"]);
    WhereIffMatches(a, f);
    WhereIffMatches(b, f);
    WhereIffMatches(c, f);
    assert "Lunch" != "Dinner";
    assert Filtered([c], f) == [c];
    assert Filtered([b, c], f) == [c];
    assert Filtered([a, b, c], f) == [c];
    FetchedColumnsAreFields([c]);
    assert Tips([c]) == [3.0] && Bills([c]) == [30.0];
    assert Sum([3.0]) == 3.0 && Sum([30.0]) == 30.0;
  }
}
