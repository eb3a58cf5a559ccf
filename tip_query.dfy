/**
 * The parameterised query of the update callback:
 *
 *   SELECT * FROM tips WHERE total_bill BETWEEN ? AND ? AND time IN (?,...,?)
 *
 * with one `?` in the IN list per selected meal time and the values bound,
 * in order, as lo, hi, then the selected times. The WHERE clause is evaluated
 * as SQL-92 defines its predicates: `x BETWEEN a AND b` means `a <= x AND x <= b`
 * (section 8.3, both bounds inclusive) and `x IN (v1, ..., vn)` means
 * `x = v1 OR ... OR x = vn` (section 8.4); SQLite accepts an empty list, which
 * no value is in.
 */
module TipQuery {
  import opened Strings
  import opened TipsTable

  // ---------------------------------------------------------------------------
  // The statement text and its parameters.

  /** `','.join(['?'] * n)`: the placeholders of an IN list with n entries. */
  function Placeholders(n: nat): string
  {
    Join(Repeat("?", n), ",")
  }

  /** The placeholder string is exactly "?,?,...,?": n marks alternating with n - 1 commas. */
  lemma {:induction false} PlaceholdersShape(n: nat)
    ensures |Placeholders(n)| == if n == 0 then 0 else 2 * n - 1
    ensures forall i :: 0 <= i < |Placeholders(n)| ==>
      Placeholders(n)[i] == if i % 2 == 0 then '?' else ','
  {
    if n > 1 {
      PlaceholdersShape(n - 1);
      assert Repeat("?", n)[1..] == Repeat("?", n - 1);
      assert Placeholders(n) == "?" + "," + Placeholders(n - 1);
    }
  }

  /** n question marks, max(n - 1, 0) commas, and the empty string exactly when n = 0. */
  lemma {:induction false} PlaceholdersCounts(n: nat)
    ensures Count(Placeholders(n), '?') == n
    ensures Count(Placeholders(n), ',') == if n == 0 then 0 else n - 1
    ensures Placeholders(n) == "" <==> n == 0
  {
    if n > 1 {
      PlaceholdersCounts(n - 1);
      assert Repeat("?", n)[1..] == Repeat("?", n - 1);
      assert Placeholders(n) == "?" + "," + Placeholders(n - 1);
      CountAppend("?" + ",", Placeholders(n - 1), '?');
      CountAppend("?" + ",", Placeholders(n - 1), ',');
    } else if n == 1 {
      assert Placeholders(1) == "?";
    }
  }

  // The lines of the statement's triple-quoted literal, up to the IN list.
  const SelectLine: string := "\n        SELECT * FROM tips "
  const WhereLine: string := "\n        WHERE total_bill BETWEEN "
  const AndWord: string := " AND "
  const InLine: string := "\n        AND time IN ("

  /** The statement text up to the IN list. */
  function QueryHead(): string
  {
    SelectLine + WhereLine + "?" + AndWord + "?" + InLine
  }

  /** The statement text after the IN list. */
  const QueryTail: string := ")\n    "

  // The lines of the literal hold no placeholder. The lemmas that count marks speak
  // of the placeholder character as a parameter `c`, which is always '?': the
  // count of one mark over the assembled text is then the sum of its counts over
  // the lines, each established once.
  lemma SelectWhereHaveNoMark(c: char)
    requires c == '?'
    ensures Count(SelectLine, c) == 0 && Count(WhereLine, c) == 0
  {
    assert c !in SelectLine;
    assert c !in WhereLine;
    CountAbsent(SelectLine, c);
    CountAbsent(WhereLine, c);
  }

  lemma AndInHaveNoMark(c: char)
    requires c == '?'
    ensures Count(AndWord, c) == 0 && Count(InLine, c) == 0
  {
    assert c !in AndWord;
    assert c !in InLine;
    CountAbsent(AndWord, c);
    CountAbsent(InLine, c);
  }

  /** The two placeholders before the IN list are the BETWEEN bounds. */
  lemma QueryHeadMarks(c: char)
    requires c == '?'
    ensures Count(QueryHead(), c) == 2
  {
    SelectWhereHaveNoMark(c);
    AndInHaveNoMark(c);
    TwoMarksBetween(SelectLine, WhereLine, AndWord, InLine, c);
  }

  /** Lines without marks around `? AND ?` give a text with exactly two marks. */
  lemma TwoMarksBetween(a: string, b: string, d: string, e: string, c: char)
    requires c == '?'
    requires Count(a, c) == 0 && Count(b, c) == 0 && Count(d, c) == 0 && Count(e, c) == 0
    ensures Count(a + b + "?" + d + "?" + e, c) == 2
  {
    assert Count("?", c) == 1;
    CountAppend(a, b, c);
    CountAppend(a + b, "?", c);
    CountAppend(a + b + "?", d, c);
    CountAppend(a + b + "?" + d, "?", c);
    CountAppend(a + b + "?" + d + "?", e, c);
  }

  /** The text after the IN list holds no placeholder. */
  lemma TailMarks(c: char)
    requires c == '?'
    ensures Count(QueryTail, c) == 0
  {
    assert c !in QueryTail;
    CountAbsent(QueryTail, c);
  }

  /** The SQL text after `.format(seq=...)`, for a selection of `n` meal times. */
  function QueryText(n: nat): string
  {
    QueryHead() + Placeholders(n) + QueryTail
  }

  /** The values bound to the statement: lo, hi, then every selected time, in that order. */
  function Parameters(lo: real, hi: real, selected: seq<string>): (ps: seq<Value>)
    ensures |ps| == 2 + |selected|
    ensures ps[0] == Real(lo) && ps[1] == Real(hi)
    ensures forall i :: 0 <= i < |selected| ==> ps[2 + i] == Text(selected[i])
  {
    [Real(lo), Real(hi)] + TextValues(selected)
  }

  function TextValues(xs: seq<string>): (vs: seq<Value>)
    ensures |vs| == |xs|
    ensures forall i :: 0 <= i < |xs| ==> vs[i] == Text(xs[i])
  {
    if xs == [] then [] else [Text(xs[0])] + TextValues(xs[1..])
  }

  /**
   * The statement has as many placeholders as values are bound to it:
   * two for the BETWEEN bounds and one per selected time.
   */
  lemma PlaceholdersMatchParameters(lo: real, hi: real, selected: seq<string>)
    ensures Count(QueryText(|selected|), '?') == |Parameters(lo, hi, selected)|
    ensures Count(QueryText(|selected|), '?') == 2 + |selected|
  {
    QueryTextMarks(|selected|, '?');
  }

  // ---------------------------------------------------------------------------
  // Binding the values: `cursor.execute(sql, parameters=(), /)` takes at most one
  // argument after the statement text, a sequence of values.

  /** A positional argument of `cursor.execute` after the statement text. */
  datatype Argument = Scalar(value: Value) | Tuple(values: seq<Value>)

  datatype BindResult =
    | Bound(params: seq<Value>)
    | ArityError(given: nat)  // "execute expected at most 2 arguments, got `given`"
    | UnsupportedType         // a lone REAL or INTEGER argument: not a sequence of values

  /** A Python `str` is a sequence: bound as parameters, each of its characters is one TEXT value. */
  function CharacterValues(s: string): (vs: seq<Value>)
    ensures |vs| == |s|
    ensures forall i :: 0 <= i < |s| ==> vs[i] == Text([s[i]])
  {
    seq(|s|, i requires 0 <= i < |s| => Text([s[i]]))
  }

  /** The values `cursor.execute(sql, *args)` binds to the placeholders, or why it raises. */
  function Bind(args: seq<Argument>): (b: BindResult)
    ensures b.ArityError? <==> |args| > 1
    ensures b.ArityError? ==> b.given == |args| + 1
    ensures b.Bound? <==> args == [] || (|args| == 1 && (args[0].Tuple? || args[0].value.Text?))
    ensures b.UnsupportedType? <==> |args| == 1 && args[0].Scalar? && !args[0].value.Text?
    ensures b.Bound? && args == [] ==> b.params == []
    ensures b.Bound? && args != [] && args[0].Tuple? ==> b.params == args[0].values
    ensures b.Bound? && args != [] && args[0].Scalar? ==> b.params == CharacterValues(args[0].value.textValue)
  {
    if |args| == 0 then Bound([])
    else if |args| > 1 then ArityError(|args| + 1)
    else match args[0]
      case Tuple(vs) => Bound(vs)
      case Scalar(Text(s)) => Bound(CharacterValues(s))
      case Scalar(_) => UnsupportedType
  }

  /** A lone string argument binds its characters: `execute(sql, "Lunch")` supplies five values. */
  lemma LoneStringBindsCharacters(s: string)
    ensures Bind([Scalar(Text(s))]) == Bound(CharacterValues(s))
    ensures |Bind([Scalar(Text(s))]).params| == |s|
  {
  }

  /** The call as written: lo, hi and every selected time are separate arguments. */
  function AsWrittenArguments(lo: real, hi: real, selected: seq<string>): (args: seq<Argument>)
    ensures |args| == 2 + |selected|
    ensures args[0] == Scalar(Real(lo)) && args[1] == Scalar(Real(hi))
    ensures forall i :: 0 <= i < |selected| ==> args[2 + i] == Scalar(Text(selected[i]))
  {
    [Scalar(Real(lo)), Scalar(Real(hi))]
      + seq(|selected|, i requires 0 <= i < |selected| => Scalar(Text(selected[i])))
  }

  /** As written, the call raises for every filter, the empty selection included: nothing is ever bound. */
  lemma AsWrittenCallRejected(lo: real, hi: real, selected: seq<string>)
    ensures Bind(AsWrittenArguments(lo, hi, selected)) == ArityError(3 + |selected|)
  {
  }

  /** The evidently intended call: the values packed into one tuple, `(lo, hi, *selected)`. */
  function IntendedArguments(lo: real, hi: real, selected: seq<string>): seq<Argument>
  {
    [Tuple(Parameters(lo, hi, selected))]
  }

  /** The intended call binds lo, hi and the selected times, one value per placeholder of the text. */
  lemma IntendedCallBindsParameters(lo: real, hi: real, selected: seq<string>)
    ensures Bind(IntendedArguments(lo, hi, selected)).Bound?
    ensures var ps := Bind(IntendedArguments(lo, hi, selected)).params;
      && ps == Parameters(lo, hi, selected)
      && Count(QueryText(|selected|), '?') == |ps|
  {
    PlaceholdersMatchParameters(lo, hi, selected);
  }

  lemma QueryTextMarks(n: nat, c: char)
    requires c == '?'
    ensures Count(QueryText(n), c) == 2 + n
  {
    PlaceholdersCounts(n);
    QueryHeadMarks(c);
    TailMarks(c);
    SumOfThree(QueryHead(), Placeholders(n), QueryTail, c);
  }

  lemma SumOfThree(head: string, middle: string, tail: string, c: char)
    ensures Count(head + middle + tail, c) == Count(head, c) + Count(middle, c) + Count(tail, c)
  {
    CountAppend(head, middle, c);
    CountAppend(head + middle, tail, c);
  }

  // ---------------------------------------------------------------------------
  // Evaluating the WHERE clause on bound values.

  /** `x BETWEEN lo AND hi` on REAL operands; operands of another type are not modelled and do not match. */
  predicate SqlBetween(x: Value, lo: Value, hi: Value)
  {
    x.Real? && lo.Real? && hi.Real? && lo.realValue <= x.realValue && x.realValue <= hi.realValue
  }

  /** `x IN (list)` as the disjunction of equalities of SQL-92 section 8.4; false for an empty list. */
  predicate SqlIn(x: Value, list: seq<Value>)
  {
    |list| > 0 && (x == list[0] || SqlIn(x, list[1..]))
  }

  lemma {:induction false} SqlInIsMembership(x: Value, list: seq<Value>)
    ensures SqlIn(x, list) <==> x in list
  {
    if |list| > 0 {
      SqlInIsMembership(x, list[1..]);
      assert list == [list[0]] + list[1..];
    }
  }

  /** The WHERE clause for one record, with the parameters bound positionally. */
  predicate Where(r: Record, params: seq<Value>)
    requires |params| >= 2
  {
    SqlBetween(Real(r.totalBill), params[0], params[1]) && SqlIn(Text(r.time), params[2..])
  }

  /**
   * `SELECT * ... WHERE ...`: the records satisfying the WHERE clause,
   * in table order (a full scan of a table without an index).
   */
  function Select(table: Table, params: seq<Value>): (result: seq<Record>)
    requires |params| >= 2
    ensures |result| <= |table|
    ensures forall r :: r in result ==> r in table && Where(r, params)
    ensures forall r :: r in table && Where(r, params) ==> r in result
  {
    if table == [] then []
    else if Where(table[0], params) then [table[0]] + Select(table[1..], params)
    else Select(table[1..], params)
  }

  /** Every record satisfying the WHERE clause is selected as often as it occurs in the table, every other record never. */
  lemma {:induction false} SelectMultiplicity(table: Table, params: seq<Value>, r: Record)
    requires |params| >= 2
    ensures multiset(Select(table, params))[r] == if Where(r, params) then multiset(table)[r] else 0
  {
    if table != [] {
      SelectMultiplicity(table[1..], params, r);
      assert table == [table[0]] + table[1..];
    }
  }

  // ---------------------------------------------------------------------------
  // The filter in the terms of the dashboard.

  /** The user's filter: a bill range from the slider and the checked meal times. */
  datatype FilterState = FilterState(lo: real, hi: real, selected: seq<string>)

  /** What the dashboard means by a match: lo <= bill <= hi, both ends included, and a selected time. */
  predicate Matches(r: Record, f: FilterState)
  {
    f.lo <= r.totalBill <= f.hi && r.time in f.selected
  }

  function ParametersOf(f: FilterState): seq<Value>
  {
    Parameters(f.lo, f.hi, f.selected)
  }

  /** Binding lo, hi, *selected in that order makes the WHERE clause say exactly `Matches`. */
  lemma WhereIffMatches(r: Record, f: FilterState)
    ensures Where(r, ParametersOf(f)) <==> Matches(r, f)
  {
    var ps := ParametersOf(f);
    assert ps[2..] == TextValues(f.selected);
    SqlInIsMembership(Text(r.time), ps[2..]);
    if r.time in f.selected {
      var i :| 0 <= i < |f.selected| && f.selected[i] == r.time;
      assert ps[2..][i] == Text(r.time);
    }
  }

  /** The rows the callback fetches for a filter. */
  function Filtered(table: Table, f: FilterState): seq<Record>
  {
    Select(table, ParametersOf(f))
  }

  /** A record is fetched exactly when it is in the table and matches the filter. */
  lemma FilteredMembership(table: Table, f: FilterState, r: Record)
    ensures r in Filtered(table, f) <==> r in table && Matches(r, f)
  {
    WhereIffMatches(r, f);
  }

  /** Every matching record is fetched as often as it occurs in the table, every other record never. */
  lemma FilteredMultiplicity(table: Table, f: FilterState)
    ensures forall r :: multiset(Filtered(table, f))[r] == if Matches(r, f) then multiset(table)[r] else 0
  {
    forall r ensures multiset(Filtered(table, f))[r] == if Matches(r, f) then multiset(table)[r] else 0 {
      WhereIffMatches(r, f);
      SelectMultiplicity(table, ParametersOf(f), r);
    }
  }

  /** Positions of the table rows that match the filter. */
  function MatchingIndices(table: Table, f: FilterState): set<nat>
  {
    set i: nat | i < |table| && Matches(table[i], f)
  }

  /** The number of fetched rows is the number of table rows that match, counted by position. */
  lemma {:induction false} FilteredCount(table: Table, f: FilterState)
    ensures |Filtered(table, f)| == |MatchingIndices(table, f)|
  {
    if table != [] {
      var tail := MatchingIndices(table[1..], f);
      FilteredCount(table[1..], f);
      ShiftCard(tail);
      WhereIffMatches(table[0], f);
      MatchingIndicesStep(table, f);
      if Matches(table[0], f) {
        assert |{0} + Shift(tail)| == 1 + |Shift(tail)|;
      }
    }
  }

  /** Positions shifted up by one. */
  function Shift(s: set<nat>): set<nat>
  {
    set i | i in s :: i + 1
  }

  /** The matching positions of a table are those of its first row, then those of its tail moved up by one. */
  lemma MatchingIndicesStep(table: Table, f: FilterState)
    requires table != []
    ensures 0 !in Shift(MatchingIndices(table[1..], f))
    ensures MatchingIndices(table, f)
         == (if Matches(table[0], f) then {0} else {}) + Shift(MatchingIndices(table[1..], f))
  {
    var rest := table[1..];
    var tail := MatchingIndices(rest, f);
    var both := (if Matches(table[0], f) then {0} else {}) + Shift(tail);
    forall i | i in MatchingIndices(table, f) ensures i in both {
      if i > 0 {
        assert rest[i - 1] == table[i];
        assert i - 1 in tail;
      }
    }
    forall j | j in both ensures j in MatchingIndices(table, f) {
      if j > 0 {
        var k :| k in tail && j == k + 1;
        assert rest[k] == table[j];
      }
    }
  }

  lemma {:induction false} ShiftCard(s: set<nat>)
    ensures |Shift(s)| == |s|
    decreases |s|
  {
    if s != {} {
      var x :| x in s;
      var rest := s - {x};
      ShiftCard(rest);
      forall j | j in Shift(s) ensures j in Shift(rest) + {x + 1} {
        var k :| k in s && j == k + 1;
        if k != x { assert k in rest; }
      }
      assert Shift(s) == Shift(rest) + {x + 1};
    }
  }

  // ---------------------------------------------------------------------------
  // Monotonicity: a filter that admits less never fetches more.

  /** Every record `g` admits, `f` admits as well. */
  predicate Narrower(g: FilterState, f: FilterState)
  {
    f.lo <= g.lo && g.hi <= f.hi && forall t :: t in g.selected ==> t in f.selected
  }

  lemma {:induction false} NarrowerFetchesSubMultiset(table: Table, f: FilterState, g: FilterState)
    requires Narrower(g, f)
    ensures |Filtered(table, g)| <= |Filtered(table, f)|
    ensures multiset(Filtered(table, g)) <= multiset(Filtered(table, f))
  {
    if table != [] {
      NarrowerFetchesSubMultiset(table[1..], f, g);
      WhereIffMatches(table[0], f);
      WhereIffMatches(table[0], g);
    }
  }

  /** Raising lo, lowering hi, or both, never increases the count. */
  lemma NarrowRange(table: Table, f: FilterState, lo': real, hi': real)
    requires f.lo <= lo' && hi' <= f.hi
    ensures |Filtered(table, FilterState(lo', hi', f.selected))| <= |Filtered(table, f)|
  {
    NarrowerFetchesSubMultiset(table, f, FilterState(lo', hi', f.selected));
  }

  /** Unchecking the k-th selected time never increases the count. */
  lemma RemoveTime(table: Table, f: FilterState, k: nat)
    requires k < |f.selected|
    ensures |Filtered(table, FilterState(f.lo, f.hi, f.selected[..k] + f.selected[k + 1..]))|
         <= |Filtered(table, f)|
  {
    var g := FilterState(f.lo, f.hi, f.selected[..k] + f.selected[k + 1..]);
    forall t | t in g.selected ensures t in f.selected {
      var j :| 0 <= j < |g.selected| && g.selected[j] == t;
      if j < k { assert f.selected[j] == t; } else { assert f.selected[j + 1] == t; }
    }
    NarrowerFetchesSubMultiset(table, f, g);
  }

  // ---------------------------------------------------------------------------
  // Edge cases of the predicates.

  /** A range that is a single point still fetches every record of the table whose bill equals it. */
  lemma PointRangeIncludesRecord(table: Table, r: Record, selected: seq<string>)
    requires r in table && r.time in selected
    ensures r in Filtered(table, FilterState(r.totalBill, r.totalBill, selected))
  {
    FilteredMembership(table, FilterState(r.totalBill, r.totalBill, selected), r);
  }

  /** With no time checked the IN list is empty and nothing is fetched. */
  lemma {:induction false} EmptySelectionFetchesNothing(table: Table, lo: real, hi: real)
    ensures Filtered(table, FilterState(lo, hi, [])) == []
  {
    if table != [] {
      EmptySelectionFetchesNothing(table[1..], lo, hi);
    }
  }

  /** An inverted range (lo > hi) fetches nothing: the source does not validate it. */
  lemma {:induction false} InvertedRangeFetchesNothing(table: Table, f: FilterState)
    requires f.lo > f.hi
    ensures Filtered(table, f) == []
  {
    if table != [] {
      InvertedRangeFetchesNothing(table[1..], f);
    }
  }
}
