/** What `expandCronExpr` (cmd/root.go) produces for each shape of field,
    and that a field which passes validation and expands is a list of
    in-bounds decimals. */
module Expansion {
  import opened Text
  import opened Utils
  import opened Root
  import opened Validation

  // ---------------------------------------------------------------------
  // The shapes

  /** The text of a shape is recognised as that shape again. */
  lemma ClassifyRender(sh: Shape)
    requires WellFormedShape(sh) && !sh.Unrecognised?
    ensures Classify(Render(sh)) == sh
  {
    match sh
    case All =>
    case Range(a, b) =>
      var e := a + "-" + b;
      NumeralExcludes(a, '-');
      SplitAtSeparator(a, '-', b);
      NumeralExcludes(b, '-');
      SplitWithoutSeparator(b, '-');
      assert e[0] == a[0];
    case AllStep(n) =>
      var e := "*/" + n;
      NumeralExcludes(n, '-');
      assert '-' !in e by {
        assert forall i :: 2 <= i < |e| ==> e[i] == n[i - 2];
      }
      SplitWithoutSeparator(e, '-');
      assert e[..2] == "*/" && e[2..] == n;
    case List(items) =>
      var e := Join(items, ',');
      JoinOfNumerals(items, ',');
      assert '-' !in e;
      SplitWithoutSeparator(e, '-');
      assert e[0] == items[0][0];
      forall k | 0 <= k < |items| ensures ',' !in items[k] {
        NumeralExcludes(items[k], ',');
      }
      SplitJoin(items, ',');
    case Single(n) =>
      NumeralExcludes(n, '-');
      NumeralExcludes(n, ',');
      SplitWithoutSeparator(n, '-');
      SplitWithoutSeparator(n, ',');
  }

  /** A recognised expression is the text of its shape. */
  lemma RenderClassify(e: string)
    requires !Classify(e).Unrecognised?
    ensures Render(Classify(e)) == e
  {
    JoinSplit(e, '-');
    JoinSplit(e, ',');
    var ranged := Split(e, '-');
    if |ranged| == 2 {
      assert Join(ranged, '-') == ranged[0] + ['-'] + Join(ranged[1..], '-');
      assert ranged[1..] == [ranged[1]];
    }
  }

  // ---------------------------------------------------------------------
  // The expansion of each shape

  /** A range `A-B` whose bounds parse fails when `A > B`; otherwise it
      expands to every integer from 1 (from 0 when `A` is 0) up to `B`:
      the lower bound only decides whether 0 is included. */
  lemma ExpandRange(a: string, b: string, minRange: int, maxRange: int, position: string)
    requires IsNumeral(a) && IsNumeral(b)
    requires DecimalValue(a) <= IntMax && DecimalValue(b) <= IntMax
    ensures var first, last := DecimalValue(a), DecimalValue(b);
            ExpandCronExpr(a + "-" + b, minRange, maxRange, position) ==
              if first > last then Failure(InvalidRange(position, a + "-" + b))
              else Success(FormatRange(Interval(if first == 0 then 0 else 1, last)))
  {
    ClassifyRender(Range(a, b));
    RangeValuesUnitStep(DecimalValue(a), DecimalValue(b));
  }

  /** The wildcard expands to the field's bounds used as a range. */
  lemma ExpandWildcard(minRange: nat, maxRange: int, position: string)
    requires minRange <= maxRange <= IntMax
    ensures ExpandCronExpr("*", minRange, maxRange, position) ==
              ExpandCronExpr(NatToDecimal(minRange) + "-" + NatToDecimal(maxRange), minRange, maxRange, position)
    ensures ExpandCronExpr("*", minRange, maxRange, position) ==
              Success(FormatRange(Interval(if minRange == 0 then 0 else 1, maxRange)))
  {
    ExpandRange(NatToDecimal(minRange), NatToDecimal(maxRange), minRange, maxRange, position);
    RangeValuesUnitStep(minRange, maxRange);
  }

  /** `*` followed by a step `N`: a step too large for an `int` fails to
      parse, any step but 0 expands to the range generator's output for
      the field's bounds and that step, and a step of 0 divides by zero
      unless the bounds keep `createStringRange` from ever taking a
      remainder, when the expansion is empty. */
  lemma ExpandStep(n: string, minRange: int, maxRange: int, position: string)
    requires IsNumeral(n)
    ensures var step := DecimalValue(n);
            ExpandCronExpr("*/" + n, minRange, maxRange, position) ==
              if step > IntMax then Failure(FieldParseFailure(position, n))
              else if step != 0 then Success(StringRange(minRange, maxRange, step))
              else if minRange == 0 || maxRange >= 1 then Failure(DivisionByZero)
              else Success("")
  {
    ClassifyRender(AllStep(n));
  }

  /** A list of two or more numerals expands to the same numerals, in the
      same order and with the same digits, separated by single spaces. */
  lemma ExpandList(items: seq<string>, minRange: int, maxRange: int, position: string)
    requires |items| >= 2 && forall k :: 0 <= k < |items| ==> IsNumeral(items[k])
    ensures ExpandCronExpr(Join(items, ','), minRange, maxRange, position) == Success(Join(items, ' '))
  {
    ClassifyRender(List(items));
    forall k | 0 <= k < |items| ensures ',' !in items[k] {
      NumeralExcludes(items[k], ',');
    }
    ReplaceJoin(items, ',', ' ');
  }

  /** A single numeral expands to itself. */
  lemma ExpandSingle(n: string, minRange: int, maxRange: int, position: string)
    requires IsNumeral(n)
    ensures ExpandCronExpr(n, minRange, maxRange, position) == Success(n)
  {
    ClassifyRender(Single(n));
  }

  /** The "not yet recognisable" error is given exactly for the
      expressions that have none of the five shapes. */
  lemma ExpandUnrecognised(e: string, minRange: int, maxRange: int, position: string)
    ensures ExpandCronExpr(e, minRange, maxRange, position) == Failure(NotRecognisable(position)) <==>
              Classify(e).Unrecognised?
  {
  }

  // ---------------------------------------------------------------------
  // Validated expansions are in-bounds decimals

  /** A string whose space-separated tokens are in-bounds numerals is a
      well-formed expansion. */
  lemma TokensWellFormed(out: string, minRange: int, maxRange: int)
    requires var tokens := Split(out, ' ');
             forall k :: 0 <= k < |tokens| ==> IsNumeral(tokens[k]) && minRange <= DecimalValue(tokens[k]) <= maxRange
    ensures WellFormedExpansion(out, minRange, maxRange)
  {
    JoinSplit(out, ' ');
    JoinOfNumerals(Split(out, ' '), ' ');
  }

  /** The range generator's output is well formed when it emits at least
      one value and every value lies within the bounds. */
  lemma StringRangeWellFormed(first: int, last: int, step: int, minRange: int, maxRange: int)
    requires step >= 1
    requires |RangeValues(first, last, step)| > 0
    requires forall k :: 0 <= k < |RangeValues(first, last, step)| ==>
               minRange <= RangeValues(first, last, step)[k] <= maxRange
    ensures WellFormedExpansion(StringRange(first, last, step), minRange, maxRange)
  {
    var values := RangeValues(first, last, step);
    FormatRangeTokens(values);
    TokensWellFormed(StringRange(first, last, step), minRange, maxRange);
  }

  /** The wildcard's expansion: 0 only when the lower bound is 0, then
      1 up to the upper bound. */
  lemma WildcardWellFormed(minRange: int, maxRange: int)
    requires 0 <= minRange <= 1 <= maxRange
    ensures WellFormedExpansion(StringRange(minRange, maxRange, 1), minRange, maxRange)
  {
    var values := RangeValues(minRange, maxRange, 1);
    RangeValuesMembers(minRange, maxRange, 1, 1);
    forall k | 0 <= k < |values| ensures minRange <= values[k] <= maxRange {
      RangeValuesMembers(minRange, maxRange, 1, values[k]);
    }
    StringRangeWellFormed(minRange, maxRange, 1, minRange, maxRange);
  }

  /** A range within the bounds expands within the bounds, as long as the
      lower bound is at most 1. */
  lemma RangeWellFormed(first: int, last: int, minRange: int, maxRange: int)
    requires 0 <= minRange <= 1
    requires minRange <= first <= last <= maxRange
    ensures WellFormedExpansion(StringRange(first, last, 1), minRange, maxRange)
  {
    var values := RangeValues(first, last, 1);
    if last >= 1 {
      RangeValuesMembers(first, last, 1, 1);
    } else {
      RangeValuesMembers(first, last, 1, 0);
    }
    forall k | 0 <= k < |values| ensures minRange <= values[k] <= maxRange {
      RangeValuesMembers(first, last, 1, values[k]);
    }
    StringRangeWellFormed(first, last, 1, minRange, maxRange);
  }

  /** A step within the bounds emits at least the step itself, and only
      values within the bounds. */
  lemma StepWellFormed(step: int, minRange: int, maxRange: int)
    requires 0 <= minRange <= 1 <= step
    requires minRange <= step <= maxRange
    ensures step in RangeValues(minRange, maxRange, step)
    ensures WellFormedExpansion(StringRange(minRange, maxRange, step), minRange, maxRange)
  {
    var values := RangeValues(minRange, maxRange, step);
    RangeValuesMembers(minRange, maxRange, step, step);
    forall k | 0 <= k < |values| ensures minRange <= values[k] <= maxRange {
      RangeValuesMembers(minRange, maxRange, step, values[k]);
    }
    StringRangeWellFormed(minRange, maxRange, step, minRange, maxRange);
  }

  /** A list of accepted numerals, joined by spaces. */
  lemma ListWellFormed(items: seq<string>, minRange: int, maxRange: int)
    requires forall k :: 0 <= k < |items| ==> IsNumeral(items[k])
    requires |items| >= 1
    requires forall k :: 0 <= k < |items| ==> Accepted(items[k], minRange, maxRange)
    ensures WellFormedExpansion(Join(items, ' '), minRange, maxRange)
  {
    forall k | 0 <= k < |items| ensures ' ' !in items[k] {
      NumeralExcludes(items[k], ' ');
    }
    SplitJoin(items, ' ');
    TokensWellFormed(Join(items, ' '), minRange, maxRange);
  }

  /** The digit runs of a range are its two bounds. */
  lemma RangeRuns(a: string, b: string)
    requires IsNumeral(a) && IsNumeral(b)
    ensures DigitRuns(a + "-" + b) == [a, b]
  {
    NumeralDigitRuns(a);
    NumeralDigitRuns(b);
    DigitRunsAtNonDigit(a, '-', b);
  }

  /** The digit run of a stepped wildcard is its step. */
  lemma StepRuns(n: string)
    requires IsNumeral(n)
    ensures DigitRuns("*/" + n) == [n]
  {
    NumeralDigitRuns(n);
    DigitRunsAtNonDigit([], '/', n);
    assert "/" + n == [] + ['/'] + n;
    DigitRunsAtNonDigit([], '*', "/" + n);
    assert "*/" + n == [] + ['*'] + ("/" + n);
  }

  /** A range of accepted bounds expands within the bounds. */
  lemma RangeExpansionWellFormed(a: string, b: string, minRange: int, maxRange: int, position: string)
    requires 0 <= minRange <= 1 <= maxRange
    requires IsNumeral(a) && IsNumeral(b)
    requires Accepted(a, minRange, maxRange) && Accepted(b, minRange, maxRange)
    requires ExpandCronExpr(a + "-" + b, minRange, maxRange, position).Success?
    ensures WellFormedExpansion(ExpandCronExpr(a + "-" + b, minRange, maxRange, position).value, minRange, maxRange)
  {
    ExpandRange(a, b, minRange, maxRange, position);
    RangeValuesUnitStep(DecimalValue(a), DecimalValue(b));
    RangeWellFormed(DecimalValue(a), DecimalValue(b), minRange, maxRange);
  }

  /** A stepped wildcard with an accepted step expands within the bounds. */
  lemma StepExpansionWellFormed(n: string, minRange: int, maxRange: int, position: string)
    requires 0 <= minRange <= 1 <= maxRange
    requires IsNumeral(n) && Accepted(n, minRange, maxRange)
    requires ExpandCronExpr("*/" + n, minRange, maxRange, position).Success?
    ensures WellFormedExpansion(ExpandCronExpr("*/" + n, minRange, maxRange, position).value, minRange, maxRange)
  {
    ExpandStep(n, minRange, maxRange, position);
    StepWellFormed(DecimalValue(n), minRange, maxRange);
  }

  /** A list of accepted numerals expands within the bounds. */
  lemma ListExpansionWellFormed(items: seq<string>, minRange: int, maxRange: int, position: string)
    requires |items| >= 2 && forall k :: 0 <= k < |items| ==> IsNumeral(items[k])
    requires forall k :: 0 <= k < |items| ==> Accepted(items[k], minRange, maxRange)
    ensures ExpandCronExpr(Join(items, ','), minRange, maxRange, position).Success?
    ensures WellFormedExpansion(ExpandCronExpr(Join(items, ','), minRange, maxRange, position).value, minRange, maxRange)
  {
    ExpandList(items, minRange, maxRange, position);
    ListWellFormed(items, minRange, maxRange);
  }

  /** If a field passes validation and expands, the expansion holds no
      `*`, `/`, `-` or `,`, and every space-separated token is a decimal
      within the field's bounds. The five fields have lower bounds of 0 or
      1; for a larger lower bound the wildcard and range shapes would emit
      values below it, because the generator always counts from 1. */
  lemma ExpandedFieldWellFormed(e: string, minRange: int, maxRange: int, position: string)
    requires 0 <= minRange <= 1 <= maxRange
    requires ValidateCronExpr(e, minRange, maxRange, position).Pass?
    requires ExpandCronExpr(e, minRange, maxRange, position).Success?
    ensures WellFormedExpansion(ExpandCronExpr(e, minRange, maxRange, position).value, minRange, maxRange)
  {
    ValidateAccepts(e, minRange, maxRange, position);
    var runs := DigitRuns(e);
    assert forall k :: 0 <= k < |runs| ==> Accepted(runs[k], minRange, maxRange);
    RenderClassify(e);
    match Classify(e)
    case All =>
      WildcardWellFormed(minRange, maxRange);
    case Range(a, b) =>
      RangeRuns(a, b);
      assert runs[0] == a && runs[1] == b;
      RangeExpansionWellFormed(a, b, minRange, maxRange, position);
    case AllStep(n) =>
      StepRuns(n);
      assert runs[0] == n;
      StepExpansionWellFormed(n, minRange, maxRange, position);
    case List(items) =>
      DigitRunsOfJoin(items, ',');
      ListExpansionWellFormed(items, minRange, maxRange, position);
    case Single(n) =>
      NumeralDigitRuns(n);
      ListWellFormed([n], minRange, maxRange);
    case Unrecognised =>
  }
}
