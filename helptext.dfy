/** The three commands of the usage text of cmd/root.go, with the
    extended format that text promises for each of their fields. */
module HelpText {
  import opened Text
  import opened Utils
  import opened Root
  import opened Validation
  import opened Expansion
  import opened Extraction
  import opened Examples

  // The lemmas below take their literal arguments as parameters pinned
  // by a `requires` (`step == 15`, `v == [0, 15, 30, 45]`) rather than
  // writing the literals into their calls. This only keeps the verifier
  // from unrolling the range generator and the decimal printer on
  // constants, which would make each proof far more expensive; every
  // such lemma is stated for exactly the one value its name gives.

  // ---------------------------------------------------------------------
  // Fields of each shape that pass validation

  /** The characters of a stepped wildcard: one `*`, one `/`, and the
      step as its only digit run. */
  lemma StepShape(n: string)
    requires IsNumeral(n)
    ensures var e := "*/" + n;
            && MatchesCronSyntax(e) && DigitRuns(e) == [n]
            && multiset(e)['*'] == 1 && multiset(e)['/'] == 1 && multiset(e)['-'] == 0 && multiset(e)[','] == 0
  {
    var e := "*/" + n;
    StepRuns(n);
    OccursCounted(n);
    assert multiset(e) == multiset{'*', '/'} + multiset(n);
  }

  /** A stepped wildcard whose step is within the bounds passes. */
  lemma StepValidates(n: string, minRange: int, maxRange: int, position: string)
    requires IsNumeral(n) && Accepted(n, minRange, maxRange)
    ensures ValidateCronExpr("*/" + n, minRange, maxRange, position) == Pass
  {
    StepShape(n);
    ValidateAccepts("*/" + n, minRange, maxRange, position);
  }

  /** ... and expands to the range generator's output for that step. */
  lemma StepFieldPasses(n: string, p: Position)
    requires IsNumeral(n) && Accepted(n, p.MinRange(), p.MaxRange()) && DecimalValue(n) >= 1
    ensures ProcessField("*/" + n, p) == Success(StringRange(p.MinRange(), p.MaxRange(), DecimalValue(n)))
  {
    StepValidates(n, p.MinRange(), p.MaxRange(), p.Name());
    ExpandStep(n, p.MinRange(), p.MaxRange(), p.Name());
  }

  /** The characters of a range: one `-`, no other operator, and its two
      ends as its digit runs. */
  lemma RangeShape(a: string, b: string)
    requires IsNumeral(a) && IsNumeral(b)
    ensures var e := a + "-" + b;
            && MatchesCronSyntax(e) && DigitRuns(e) == [a, b]
            && multiset(e)['*'] == 0 && multiset(e)['/'] == 0 && multiset(e)['-'] == 1 && multiset(e)[','] == 0
  {
    var e := a + "-" + b;
    RangeRuns(a, b);
    OccursCounted(a);
    OccursCounted(b);
    assert multiset(e) == multiset(a) + multiset{'-'} + multiset(b);
    assert forall i :: 0 <= i < |e| ==> e[i] == '-' || (i < |a| && e[i] == a[i]) || (i > |a| && e[i] == b[i - |a| - 1]);
  }

  /** A range whose ends are within the bounds passes. */
  lemma RangeValidates(a: string, b: string, minRange: int, maxRange: int, position: string)
    requires IsNumeral(a) && IsNumeral(b) && Accepted(a, minRange, maxRange) && Accepted(b, minRange, maxRange)
    ensures ValidateCronExpr(a + "-" + b, minRange, maxRange, position) == Pass
  {
    RangeShape(a, b);
    ValidateAccepts(a + "-" + b, minRange, maxRange, position);
  }

  /** ... and, when its ends are in order, expands to the range
      generator's output from its lower to its upper end. */
  lemma RangeFieldPasses(a: string, b: string, p: Position)
    requires IsNumeral(a) && IsNumeral(b)
    requires Accepted(a, p.MinRange(), p.MaxRange()) && Accepted(b, p.MinRange(), p.MaxRange())
    requires DecimalValue(a) <= DecimalValue(b)
    ensures ProcessField(a + "-" + b, p) == Success(StringRange(DecimalValue(a), DecimalValue(b), 1))
  {
    RangeValidates(a, b, p.MinRange(), p.MaxRange(), p.Name());
    ClassifyRender(Range(a, b));
  }

  /** The characters of a list: commas and digits only, and its items as
      its digit runs. */
  lemma ListShape(items: seq<string>)
    requires |items| >= 2 && forall k :: 0 <= k < |items| ==> IsNumeral(items[k])
    ensures var e := Join(items, ',');
            && MatchesCronSyntax(e) && DigitRuns(e) == items
            && multiset(e)['*'] == 0 && multiset(e)['/'] == 0 && multiset(e)['-'] == 0
  {
    var e := Join(items, ',');
    DigitRunsOfJoin(items, ',');
    JoinOfNumerals(items, ',');
    assert |e| > 0 by {
      JoinStartsWithFirst(items, ',');
    }
    assert '*' !in e && '/' !in e && '-' !in e by {
      forall i | 0 <= i < |e| ensures e[i] != '*' && e[i] != '/' && e[i] != '-' {
        assert IsDigit(e[i]) || e[i] == ',';
      }
    }
  }

  /** A list of numerals within the bounds passes. */
  lemma ListValidates(items: seq<string>, minRange: int, maxRange: int, position: string)
    requires |items| >= 2 && forall k :: 0 <= k < |items| ==> IsNumeral(items[k])
    requires forall k :: 0 <= k < |items| ==> Accepted(items[k], minRange, maxRange)
    ensures ValidateCronExpr(Join(items, ','), minRange, maxRange, position) == Pass
  {
    ListShape(items);
    ValidateAccepts(Join(items, ','), minRange, maxRange, position);
  }

  /** ... and expands to the same numerals separated by spaces. */
  lemma ListFieldPasses(items: seq<string>, p: Position)
    requires |items| >= 2 && forall k :: 0 <= k < |items| ==> IsNumeral(items[k])
    requires forall k :: 0 <= k < |items| ==> Accepted(items[k], p.MinRange(), p.MaxRange())
    ensures ProcessField(Join(items, ','), p) == Success(Join(items, ' '))
  {
    ListValidates(items, p.MinRange(), p.MaxRange(), p.Name());
    ExpandList(items, p.MinRange(), p.MaxRange(), p.Name());
  }

  /** Six non-empty arguments whose five fields each pass give the record
      of their expansions and the command. */
  lemma RecordOfFields(args: seq<string>, fields: seq<string>)
    requires |args| == 6 && |fields| == 5
    requires args[0] != "" && args[1] != "" && args[2] != "" && args[3] != "" && args[4] != "" && args[5] != ""
    requires forall i :: 0 <= i < 5 ==> ProcessField(args[i], PositionAt(i)) == Success(fields[i])
    ensures ExtractArgs(args) == Success(Cronfmt(fields[0], fields[1], fields[2], fields[3], fields[4], args[5]))
  {
    assert forall i :: 0 <= i < 5 ==> ArgOutcome(args, i) == Success(fields[i]);
    ExtractArgsSuccess(args);
    ExtractArgsRecord(args);
    assert PositionAt(0) == Minute && PositionAt(1) == Hour && PositionAt(2) == DayOfMonth;
    assert PositionAt(3) == Month && PositionAt(4) == DayOfWeek;
  }

  /** The same, with the five expansions given field by field. */
  lemma RecordOfFive(args: seq<string>, minute: string, hour: string, dayOfMonth: string, month: string,
                     dayOfWeek: string)
    requires |args| == 6
    requires args[0] != "" && args[1] != "" && args[2] != "" && args[3] != "" && args[4] != "" && args[5] != ""
    requires ProcessField(args[0], Minute) == Success(minute)
    requires ProcessField(args[1], Hour) == Success(hour)
    requires ProcessField(args[2], DayOfMonth) == Success(dayOfMonth)
    requires ProcessField(args[3], Month) == Success(month)
    requires ProcessField(args[4], DayOfWeek) == Success(dayOfWeek)
    ensures ExtractArgs(args) == Success(Cronfmt(minute, hour, dayOfMonth, month, dayOfWeek, args[5]))
  {
    var fields := [minute, hour, dayOfMonth, month, dayOfWeek];
    forall i | 0 <= i < 5
      ensures ProcessField(args[i], PositionAt(i)) == Success(fields[i])
    {
      if i == 0 {
        assert PositionAt(i) == Minute;
      } else if i == 1 {
        assert PositionAt(i) == Hour;
      } else if i == 2 {
        assert PositionAt(i) == DayOfMonth;
      } else if i == 3 {
        assert PositionAt(i) == Month;
      } else {
        assert PositionAt(i) == DayOfWeek;
      }
    }
    RecordOfFields(args, fields);
  }

  // ---------------------------------------------------------------------
  // Texts of at most five values, and how they join

  /** The text of a slice of values followed by more values is the text
      of the first part, a space, and the text of the second. */
  lemma FormatRangeAppend(a: seq<nat>, b: seq<nat>)
    requires a != [] && b != []
    ensures FormatRange(a + b) == FormatRange(a) + " " + FormatRange(b)
  {
    DecimalsAppend(a, b);
    JoinAppend(Decimals(a), Decimals(b), ' ');
  }

  lemma DecimalsAppend(a: seq<nat>, b: seq<nat>)
    ensures Decimals(a + b) == Decimals(a) + Decimals(b)
  {
  }

  lemma {:induction false} JoinAppend(p: seq<string>, q: seq<string>, sep: char)
    requires p != [] && q != []
    ensures Join(p + q, sep) == Join(p, sep) + [sep] + Join(q, sep)
    decreases |p|
  {
    if |p| > 1 {
      JoinAppend(p[1..], q, sep);
      assert (p + q)[1..] == p[1..] + q;
    }
  }

  // ---------------------------------------------------------------------
  // Stepped wildcards

  /** Every fifteenth minute: 15 divides 60, so 0 comes first. */
  lemma EveryFifteenMinutesValues(step: int)
    requires step == 15
    ensures RangeValues(0, 59, step) == [0, 15, 30, 45]
  {
    MultiplesClosedForm(59, step);
    var m := MultiplesUpTo(59, step);
    assert m[0] == 15 && m[1] == 30 && m[2] == 45;
  }

  lemma EveryFifteenMinutesText(v: seq<nat>)
    requires v == [0, 15, 30, 45]
    ensures FormatRange(v) == "0 15 30 45"
  {
    TwoDigitDecimal(15);
    TwoDigitDecimal(30);
    TwoDigitDecimal(45);
    FormatRangeCons(0, [15, 30, 45]);
    FormatRangeCons(15, [30, 45]);
    FormatRangeCons(30, [45]);
  }

  lemma EveryFifteenMinutesRange(minRange: int, maxRange: int, step: int)
    requires minRange == 0 && maxRange == 59 && step == 15
    ensures StringRange(minRange, maxRange, step) == "0 15 30 45"
  {
    EveryFifteenMinutesValues(step);
    var v := [0, 15, 30, 45];
    EveryFifteenMinutesText(v);
  }

  // `*/15` as the minute (the first command of the usage text).
  lemma MinuteEveryFifteen(e: string)
    requires e == "*/15"
    ensures ProcessField(e, Minute) == Success("0 15 30 45")
  {
    var n := "15";
    assert e == "*/" + n;
    assert DecimalValue(n) == 15 by { assert n[..1] == "1"; }
    StepFieldPasses(n, Minute);
    EveryFifteenMinutesRange(Minute.MinRange(), Minute.MaxRange(), DecimalValue(n));
  }

  /** Every eighteenth minute: 18 does not divide 60, so 0 is left out. */
  lemma EveryEighteenMinutesValues(step: int)
    requires step == 18
    ensures RangeValues(0, 59, step) == [18, 36, 54]
  {
    MultiplesClosedForm(59, step);
    var m := MultiplesUpTo(59, step);
    assert m[0] == 18 && m[1] == 36 && m[2] == 54;
  }

  lemma EveryEighteenMinutesText(v: seq<nat>)
    requires v == [18, 36, 54]
    ensures FormatRange(v) == "18 36 54"
  {
    TwoDigitDecimal(18);
    TwoDigitDecimal(36);
    TwoDigitDecimal(54);
    FormatRangeCons(18, [36, 54]);
    FormatRangeCons(36, [54]);
  }

  lemma EveryEighteenMinutesRange(minRange: int, maxRange: int, step: int)
    requires minRange == 0 && maxRange == 59 && step == 18
    ensures StringRange(minRange, maxRange, step) == "18 36 54"
  {
    EveryEighteenMinutesValues(step);
    var v := [18, 36, 54];
    EveryEighteenMinutesText(v);
  }

  // `*/18` as the minute (the second command).
  lemma MinuteEveryEighteen(e: string)
    requires e == "*/18"
    ensures ProcessField(e, Minute) == Success("18 36 54")
  {
    var n := "18";
    assert e == "*/" + n;
    assert DecimalValue(n) == 18 by { assert n[..1] == "1"; }
    StepFieldPasses(n, Minute);
    EveryEighteenMinutesRange(Minute.MinRange(), Minute.MaxRange(), DecimalValue(n));
  }

  /** Every fifth minute, from 0. */
  lemma EveryFiveMinutesValues(step: int)
    requires step == 5
    ensures RangeValues(0, 59, step) == [0, 5, 10, 15, 20, 25, 30, 35, 40, 45, 50, 55]
  {
    MultiplesClosedForm(59, step);
    var m := MultiplesUpTo(59, step);
    assert m[0] == 5 && m[1] == 10 && m[2] == 15 && m[3] == 20 && m[4] == 25 && m[5] == 30;
    assert m[6] == 35 && m[7] == 40 && m[8] == 45 && m[9] == 50 && m[10] == 55;
  }

  lemma EveryFiveMinutesText1(v: seq<nat>)
    requires v == [0, 5, 10, 15]
    ensures FormatRange(v) == "0 5 10 15"
  {
    TwoDigitDecimal(10);
    TwoDigitDecimal(15);
    FormatRangeCons(0, [5, 10, 15]);
    FormatRangeCons(5, [10, 15]);
    FormatRangeCons(10, [15]);
  }

  lemma EveryFiveMinutesText2(v: seq<nat>)
    requires v == [20, 25, 30, 35]
    ensures FormatRange(v) == "20 25 30 35"
  {
    TwoDigitDecimal(20);
    TwoDigitDecimal(25);
    TwoDigitDecimal(30);
    TwoDigitDecimal(35);
    FormatRangeCons(20, [25, 30, 35]);
    FormatRangeCons(25, [30, 35]);
    FormatRangeCons(30, [35]);
  }

  lemma EveryFiveMinutesText3(v: seq<nat>)
    requires v == [40, 45, 50, 55]
    ensures FormatRange(v) == "40 45 50 55"
  {
    TwoDigitDecimal(40);
    TwoDigitDecimal(45);
    TwoDigitDecimal(50);
    TwoDigitDecimal(55);
    FormatRangeCons(40, [45, 50, 55]);
    FormatRangeCons(45, [50, 55]);
    FormatRangeCons(50, [55]);
  }

  lemma EveryFiveMinutesJoined()
    ensures [0, 5, 10, 15] + [20, 25, 30, 35] + [40, 45, 50, 55] == [0, 5, 10, 15, 20, 25, 30, 35, 40, 45, 50, 55]
    ensures "0 5 10 15" + " " + "20 25 30 35" + " " + "40 45 50 55" == "0 5 10 15 20 25 30 35 40 45 50 55"
  {
  }

  lemma EveryFiveMinutesRange(minRange: int, maxRange: int, step: int)
    requires minRange == 0 && maxRange == 59 && step == 5
    ensures StringRange(minRange, maxRange, step) == "0 5 10 15 20 25 30 35 40 45 50 55"
  {
    EveryFiveMinutesValues(step);
    var v1, v2, v3 := [0, 5, 10, 15], [20, 25, 30, 35], [40, 45, 50, 55];
    EveryFiveMinutesJoined();
    FormatRangeAppend(v1, v2);
    FormatRangeAppend(v1 + v2, v3);
    EveryFiveMinutesText1(v1);
    EveryFiveMinutesText2(v2);
    EveryFiveMinutesText3(v3);
  }

  // `*/5` as the minute (the third command).
  lemma MinuteEveryFive(e: string)
    requires e == "*/5"
    ensures ProcessField(e, Minute) == Success("0 5 10 15 20 25 30 35 40 45 50 55")
  {
    var n := "5";
    assert e == "*/" + n;
    StepFieldPasses(n, Minute);
    EveryFiveMinutesRange(Minute.MinRange(), Minute.MaxRange(), DecimalValue(n));
  }

  /** Every third hour: 3 divides 24, so 0 comes first. */
  lemma EveryThreeHoursValues(step: int)
    requires step == 3
    ensures RangeValues(0, 23, step) == [0, 3, 6, 9, 12, 15, 18, 21]
  {
    MultiplesClosedForm(23, step);
    var m := MultiplesUpTo(23, step);
    assert m[0] == 3 && m[1] == 6 && m[2] == 9 && m[3] == 12 && m[4] == 15 && m[5] == 18;
    assert m[6] == 21;
  }

  lemma EveryThreeHoursText1(v: seq<nat>)
    requires v == [0, 3, 6, 9]
    ensures FormatRange(v) == "0 3 6 9"
  {
    FormatRangeCons(0, [3, 6, 9]);
    FormatRangeCons(3, [6, 9]);
    FormatRangeCons(6, [9]);
  }

  lemma EveryThreeHoursText2(v: seq<nat>)
    requires v == [12, 15, 18, 21]
    ensures FormatRange(v) == "12 15 18 21"
  {
    TwoDigitDecimal(12);
    TwoDigitDecimal(15);
    TwoDigitDecimal(18);
    TwoDigitDecimal(21);
    FormatRangeCons(12, [15, 18, 21]);
    FormatRangeCons(15, [18, 21]);
    FormatRangeCons(18, [21]);
  }

  lemma EveryThreeHoursJoined()
    ensures [0, 3, 6, 9] + [12, 15, 18, 21] == [0, 3, 6, 9, 12, 15, 18, 21]
    ensures "0 3 6 9" + " " + "12 15 18 21" == "0 3 6 9 12 15 18 21"
  {
  }

  lemma EveryThreeHoursRange(minRange: int, maxRange: int, step: int)
    requires minRange == 0 && maxRange == 23 && step == 3
    ensures StringRange(minRange, maxRange, step) == "0 3 6 9 12 15 18 21"
  {
    EveryThreeHoursValues(step);
    var v1, v2 := [0, 3, 6, 9], [12, 15, 18, 21];
    EveryThreeHoursJoined();
    FormatRangeAppend(v1, v2);
    EveryThreeHoursText1(v1);
    EveryThreeHoursText2(v2);
  }

  // `*/3` as the hour (the second command).
  lemma HourEveryThree(e: string)
    requires e == "*/3"
    ensures ProcessField(e, Hour) == Success("0 3 6 9 12 15 18 21")
  {
    var n := "3";
    assert e == "*/" + n;
    StepFieldPasses(n, Hour);
    EveryThreeHoursRange(Hour.MinRange(), Hour.MaxRange(), DecimalValue(n));
  }

  /** Every fourth month: the lower bound is 1, so there is no 0. */
  lemma EveryFourMonthsValues(step: int)
    requires step == 4
    ensures RangeValues(1, 12, step) == [4, 8, 12]
  {
    MultiplesClosedForm(12, step);
    var m := MultiplesUpTo(12, step);
    assert m[0] == 4 && m[1] == 8 && m[2] == 12;
  }

  lemma EveryFourMonthsText(v: seq<nat>)
    requires v == [4, 8, 12]
    ensures FormatRange(v) == "4 8 12"
  {
    TwoDigitDecimal(12);
    FormatRangeCons(4, [8, 12]);
    FormatRangeCons(8, [12]);
  }

  lemma EveryFourMonthsRange(minRange: int, maxRange: int, step: int)
    requires minRange == 1 && maxRange == 12 && step == 4
    ensures StringRange(minRange, maxRange, step) == "4 8 12"
  {
    EveryFourMonthsValues(step);
    var v := [4, 8, 12];
    EveryFourMonthsText(v);
  }

  // `*/4` as the month (the third command).
  lemma MonthEveryFour(e: string)
    requires e == "*/4"
    ensures ProcessField(e, Month) == Success("4 8 12")
  {
    var n := "4";
    assert e == "*/" + n;
    StepFieldPasses(n, Month);
    EveryFourMonthsRange(Month.MinRange(), Month.MaxRange(), DecimalValue(n));
  }

  // ---------------------------------------------------------------------
  // Wildcards and ranges

  /** Every month. */
  lemma AllMonthsValues(step: int)
    requires step == 1
    ensures RangeValues(1, 12, step) == [1, 2, 3, 4, 5, 6, 7, 8, 9, 10, 11, 12]
  {
    MultiplesClosedForm(12, step);
    var m := MultiplesUpTo(12, step);
    assert m[0] == 1 && m[1] == 2 && m[2] == 3 && m[3] == 4 && m[4] == 5 && m[5] == 6;
    assert m[6] == 7 && m[7] == 8 && m[8] == 9 && m[9] == 10 && m[10] == 11 && m[11] == 12;
  }

  lemma AllMonthsText1(v: seq<nat>)
    requires v == [1, 2, 3, 4]
    ensures FormatRange(v) == "1 2 3 4"
  {
    FormatRangeCons(1, [2, 3, 4]);
    FormatRangeCons(2, [3, 4]);
    FormatRangeCons(3, [4]);
  }

  lemma AllMonthsText2(v: seq<nat>)
    requires v == [5, 6, 7, 8]
    ensures FormatRange(v) == "5 6 7 8"
  {
    FormatRangeCons(5, [6, 7, 8]);
    FormatRangeCons(6, [7, 8]);
    FormatRangeCons(7, [8]);
  }

  lemma AllMonthsText3(v: seq<nat>)
    requires v == [9, 10, 11, 12]
    ensures FormatRange(v) == "9 10 11 12"
  {
    TwoDigitDecimal(10);
    TwoDigitDecimal(11);
    TwoDigitDecimal(12);
    FormatRangeCons(9, [10, 11, 12]);
    FormatRangeCons(10, [11, 12]);
    FormatRangeCons(11, [12]);
  }

  lemma AllMonthsJoined()
    ensures [1, 2, 3, 4] + [5, 6, 7, 8] + [9, 10, 11, 12] == [1, 2, 3, 4, 5, 6, 7, 8, 9, 10, 11, 12]
    ensures "1 2 3 4" + " " + "5 6 7 8" + " " + "9 10 11 12" == "1 2 3 4 5 6 7 8 9 10 11 12"
  {
  }

  lemma AllMonthsRange(minRange: int, maxRange: int, step: int)
    requires minRange == 1 && maxRange == 12 && step == 1
    ensures StringRange(minRange, maxRange, step) == "1 2 3 4 5 6 7 8 9 10 11 12"
  {
    AllMonthsValues(step);
    var v1, v2, v3 := [1, 2, 3, 4], [5, 6, 7, 8], [9, 10, 11, 12];
    AllMonthsJoined();
    FormatRangeAppend(v1, v2);
    FormatRangeAppend(v1 + v2, v3);
    AllMonthsText1(v1);
    AllMonthsText2(v2);
    AllMonthsText3(v3);
  }

  /** One to five. */
  lemma OneToFiveValues(step: int)
    requires step == 1
    ensures RangeValues(1, 5, step) == [1, 2, 3, 4, 5]
  {
    MultiplesClosedForm(5, step);
    var m := MultiplesUpTo(5, step);
    assert m[0] == 1 && m[1] == 2 && m[2] == 3 && m[3] == 4 && m[4] == 5;
  }

  lemma OneToFiveText(v: seq<nat>)
    requires v == [1, 2, 3, 4, 5]
    ensures FormatRange(v) == "1 2 3 4 5"
  {
    FormatRangeCons(1, [2, 3, 4, 5]);
    FormatRangeCons(2, [3, 4, 5]);
    FormatRangeCons(3, [4, 5]);
    FormatRangeCons(4, [5]);
  }

  lemma OneToFiveRange(minRange: int, maxRange: int, step: int)
    requires minRange != 0 && maxRange == 5 && step == 1
    ensures StringRange(minRange, maxRange, step) == "1 2 3 4 5"
  {
    OneToFiveValues(step);
    assert RangeValues(minRange, maxRange, step) == RangeValues(1, 5, step);
    var v := [1, 2, 3, 4, 5];
    OneToFiveText(v);
  }

  /** `*` as the month (all three commands). */
  lemma MonthWildcard(e: string)
    requires e == "*"
    ensures ProcessField(e, Month) == Success("1 2 3 4 5 6 7 8 9 10 11 12")
  {
    WildcardFieldPasses(Month);
    AllMonthsRange(Month.MinRange(), Month.MaxRange(), 1);
  }

  /** `1-5` as the day of the week (all three commands). */
  lemma WeekdaysRange(e: string)
    requires e == "1-5"
    ensures ProcessField(e, DayOfWeek) == Success("1 2 3 4 5")
  {
    var a, b := "1", "5";
    assert e == a + "-" + b;
    RangeFieldPasses(a, b, DayOfWeek);
    OneToFiveRange(DecimalValue(a), DecimalValue(b), 1);
  }

  /** A range that starts above 1 still expands from 1: `3-5` as the day
      of the week gives the same text as `1-5`. */
  lemma WeekdaysFromThree(e: string)
    requires e == "3-5"
    ensures ProcessField(e, DayOfWeek) == Success("1 2 3 4 5")
  {
    var a, b := "3", "5";
    assert e == a + "-" + b;
    RangeFieldPasses(a, b, DayOfWeek);
    OneToFiveRange(DecimalValue(a), DecimalValue(b), 1);
  }

  // ---------------------------------------------------------------------
  // Lists

  lemma OneAndFifteenText(items: seq<string>)
    requires items == ["1", "15"]
    ensures Join(items, ',') == "1,15" && Join(items, ' ') == "1 15"
  {
  }

  lemma FiveAndFifteenText(items: seq<string>)
    requires items == ["5", "15"]
    ensures Join(items, ',') == "5,15" && Join(items, ' ') == "5 15"
  {
  }

  lemma OneToFiveListText(items: seq<string>)
    requires items == ["1", "2", "3", "4", "5"]
    ensures Join(items, ',') == "1,2,3,4,5" && Join(items, ' ') == "1 2 3 4 5"
  {
    assert Join(["1", "2", "3", "4", "5"], ',') == "1,2,3,4,5";
    assert Join(["1", "2", "3", "4", "5"], ' ') == "1 2 3 4 5";
  }

  /** `0` as the hour (the first command). */
  lemma HourMidnight(e: string)
    requires e == "0"
    ensures ProcessField(e, Hour) == Success("0")
  {
    NumeralFieldPasses(e, Hour);
  }

  /** `1` as the day of the month (the third command). */
  lemma DayOfMonthFirst(e: string)
    requires e == "1"
    ensures ProcessField(e, DayOfMonth) == Success("1")
  {
    NumeralFieldPasses(e, DayOfMonth);
  }

  /** `1,15` as the day of the month (the first command). */
  lemma DaysOneAndFifteen(e: string)
    requires e == "1,15"
    ensures ProcessField(e, DayOfMonth) == Success("1 15")
  {
    var items := ["1", "15"];
    assert DecimalValue(items[1]) == 15 by { assert items[1][..1] == "1"; }
    OneAndFifteenText(items);
    ListFieldPasses(items, DayOfMonth);
  }

  /** `5,15` as the day of the month (the second command). */
  lemma DaysFiveAndFifteen(e: string)
    requires e == "5,15"
    ensures ProcessField(e, DayOfMonth) == Success("5 15")
  {
    var items := ["5", "15"];
    assert DecimalValue(items[1]) == 15 by { assert items[1][..1] == "1"; }
    FiveAndFifteenText(items);
    ListFieldPasses(items, DayOfMonth);
  }

  /** `1,2,3,4,5` as the hour (the third command). */
  lemma HoursOneToFive(e: string)
    requires e == "1,2,3,4,5"
    ensures ProcessField(e, Hour) == Success("1 2 3 4 5")
  {
    var items := ["1", "2", "3", "4", "5"];
    OneToFiveListText(items);
    ListFieldPasses(items, Hour);
  }

  // ---------------------------------------------------------------------
  // The three commands

  // `cronfmt "*/15" 0 1,15 "*" 1-5 <command>`, whatever the command.
  lemma FirstCommand(args: seq<string>)
    requires |args| == 6 && args[0] == "*/15" && args[1] == "0" && args[2] == "1,15"
    requires args[3] == "*" && args[4] == "1-5" && args[5] != ""
    ensures ExtractArgs(args) ==
              Success(Cronfmt("0 15 30 45", "0", "1 15", "1 2 3 4 5 6 7 8 9 10 11 12", "1 2 3 4 5", args[5]))
  {
    MinuteEveryFifteen(args[0]);
    HourMidnight(args[1]);
    DaysOneAndFifteen(args[2]);
    MonthWildcard(args[3]);
    WeekdaysRange(args[4]);
    RecordOfFive(args, "0 15 30 45", "0", "1 15", "1 2 3 4 5 6 7 8 9 10 11 12", "1 2 3 4 5");
  }

  lemma SecondCommand(args: seq<string>)
    requires |args| == 6 && args[0] == "*/18" && args[1] == "*/3" && args[2] == "5,15"
    requires args[3] == "*" && args[4] == "1-5" && args[5] != ""
    ensures ExtractArgs(args) ==
              Success(Cronfmt("18 36 54", "0 3 6 9 12 15 18 21", "5 15", "1 2 3 4 5 6 7 8 9 10 11 12", "1 2 3 4 5", args[5]))
  {
    MinuteEveryEighteen(args[0]);
    HourEveryThree(args[1]);
    DaysFiveAndFifteen(args[2]);
    MonthWildcard(args[3]);
    WeekdaysRange(args[4]);
    RecordOfFive(args, "18 36 54", "0 3 6 9 12 15 18 21", "5 15", "1 2 3 4 5 6 7 8 9 10 11 12", "1 2 3 4 5");
  }

  lemma ThirdCommand(args: seq<string>)
    requires |args| == 6 && args[0] == "*/5" && args[1] == "1,2,3,4,5" && args[2] == "1"
    requires args[3] == "*/4" && args[4] == "1-5" && args[5] != ""
    ensures ExtractArgs(args) ==
              Success(Cronfmt("0 5 10 15 20 25 30 35 40 45 50 55", "1 2 3 4 5", "1", "4 8 12", "1 2 3 4 5", args[5]))
  {
    MinuteEveryFive(args[0]);
    HoursOneToFive(args[1]);
    DayOfMonthFirst(args[2]);
    MonthEveryFour(args[3]);
    WeekdaysRange(args[4]);
    RecordOfFive(args, "0 5 10 15 20 25 30 35 40 45 50 55", "1 2 3 4 5", "1", "4 8 12", "1 2 3 4 5");
  }
}
