/** Concrete cases of the core: the verdicts cmd/root_test.go expects, and
    expressions the validator lets through that the expander refuses. */
module Examples {
  import opened Text
  import opened Utils
  import opened Root
  import opened Validation
  import opened Expansion
  import opened Extraction

  // The operator rules of cmd/root_test.go, for any bounds and any
  // position name: they are decided before any number is read.

  lemma StarRepeatedExample(minRange: int, maxRange: int, position: string)
    ensures ValidateCronExpr("**", minRange, maxRange, position) == Fail(StarRepeated("**"))
  {
    ValidateErrors("**", minRange, maxRange, position);
  }

  lemma StarConflictExample(minRange: int, maxRange: int, position: string)
    ensures ValidateCronExpr("*/5,5", minRange, maxRange, position) == Fail(StarConflict("*/5,5"))
  {
    ValidateErrors("*/5,5", minRange, maxRange, position);
  }

  lemma HyphenConflictExample(minRange: int, maxRange: int, position: string)
    ensures ValidateCronExpr("5,-5", minRange, maxRange, position) == Fail(HyphenConflict("5,-5"))
  {
    ValidateErrors("5,-5", minRange, maxRange, position);
  }

  lemma HyphenRepeatedExample(minRange: int, maxRange: int, position: string)
    ensures ValidateCronExpr("5-1-1", minRange, maxRange, position) == Fail(HyphenRepeated("5-1-1"))
  {
    HyphenRepeatedFacts("5-1-1");
    ValidateErrors("5-1-1", minRange, maxRange, position);
  }

  lemma HyphenRepeatedFacts(e: string)
    requires e == ['5', '-', '1', '-', '1']
    ensures MatchesCronSyntax(e) && '*' !in e && '/' !in e && ',' !in e && multiset(e)['-'] == 2
  {
  }

  /** No arguments, five arguments and seven arguments are all refused
      before any argument is looked at, whatever the arguments are. */
  lemma ArgumentCountExample(args: seq<string>)
    requires |args| == 0 || |args| == 5 || |args| == 7
    ensures ExtractArgs(args) == Failure(InvalidArgumentCount)
  {
    ExtractArgsCount(args);
  }

  /** An empty minute is reported as an empty argument, whatever the other
      five arguments are. */
  lemma EmptyArgumentExample(args: seq<string>)
    requires |args| == 6 && args[0] == ""
    ensures ExtractArgs(args) == Failure(EmptyArgument)
  {
    ExtractArgsEmpty(args, 0);
  }

  /** The wildcard passes every field's validation. */
  lemma WildcardPasses(minRange: int, maxRange: int, position: string)
    ensures ValidateCronExpr("*", minRange, maxRange, position) == Pass
  {
    assert multiset("*") == multiset{'*'};
    assert DigitRuns("*") == [];
    ValidateAccepts("*", minRange, maxRange, position);
  }

  /** A star and a slash with no step after them. */
  lemma StarSlashUnrecognised(minRange: int, maxRange: int, position: string)
    ensures ExpandCronExpr("*/", minRange, maxRange, position) == Failure(NotRecognisable(position))
  {
    SplitWithoutSeparator("*/", '-');
    SplitWithoutSeparator("*/", ',');
    assert Classify("*/").Unrecognised?;
  }

  /** `/5` is a step without its wildcard. */
  lemma SlashUnrecognised(minRange: int, maxRange: int, position: string)
    ensures ExpandCronExpr("/5", minRange, maxRange, position) == Failure(NotRecognisable(position))
  {
    SplitWithoutSeparator("/5", '-');
    SplitWithoutSeparator("/5", ',');
    assert Classify("/5").Unrecognised?;
  }

  /** `5*` puts a digit before the wildcard. */
  lemma DigitStarUnrecognised(minRange: int, maxRange: int, position: string)
    ensures ExpandCronExpr("5*", minRange, maxRange, position) == Failure(NotRecognisable(position))
  {
    SplitWithoutSeparator("5*", '-');
    SplitWithoutSeparator("5*", ',');
    assert Classify("5*").Unrecognised?;
  }

  /** `,` is a list with no items. */
  lemma CommaUnrecognised(minRange: int, maxRange: int, position: string)
    ensures ExpandCronExpr(",", minRange, maxRange, position) == Failure(NotRecognisable(position))
  {
    SplitWithoutSeparator(",", '-');
    assert Split(",", ',')[0] == "";
    assert Classify(",").Unrecognised?;
  }

  /** `1,,2` is a list with an empty item. */
  lemma EmptyItemUnrecognised(minRange: int, maxRange: int, position: string)
    ensures ExpandCronExpr("1,,2", minRange, maxRange, position) == Failure(NotRecognisable(position))
  {
    SplitWithoutSeparator("1,,2", '-');
    EmptyItemSplit();
    assert Classify("1,,2").Unrecognised?;
  }

  lemma EmptyItemSplit()
    ensures |Split("1,,2", ',')| >= 2 && Split("1,,2", ',')[1] == ""
  {
    assert "1,,2" == "1" + [','] + ",2";
    SplitAtSeparator("1", ',', ",2");
    assert ",2" == [] + [','] + "2";
    SplitAtSeparator([], ',', "2");
  }

  // All five strings get past the validator, so expansion is where they
  // are refused: a star and a slash and a lone comma for any bounds, and
  // the others whenever their numbers lie within the bounds.
  lemma StarSlashPasses(minRange: int, maxRange: int, position: string)
    ensures ValidateCronExpr("*/", minRange, maxRange, position) == Pass
  {
    StarSlashFacts();
  }

  lemma StarSlashFacts()
    ensures MatchesCronSyntax("*/") && DigitRuns("*/") == []
    ensures !IsSubstring("*/", '-') && !IsSubstring("*/", ',')
    ensures MatchesLength("*/", '*') == 1 && MatchesLength("*/", '/') == 1
  {
    assert multiset("*/") == multiset{'*', '/'};
    DigitRunsAtNonDigit([], '*', "/");
    DigitRunsAtNonDigit([], '/', []);
    assert "*/" == [] + ['*'] + "/" && "/" == [] + ['/'] + [];
  }

  lemma SlashPasses(minRange: int, maxRange: int, position: string)
    requires minRange <= 5 <= maxRange
    ensures ValidateCronExpr("/5", minRange, maxRange, position) == Pass
  {
    SlashFacts();
  }

  lemma SlashFacts()
    ensures MatchesCronSyntax("/5") && DigitRuns("/5") == ["5"] && DecimalValue("5") == 5
    ensures !IsSubstring("/5", '-') && !IsSubstring("/5", ',')
    ensures MatchesLength("/5", '*') == 0 && MatchesLength("/5", '/') == 1
  {
    assert multiset("/5") == multiset{'/', '5'};
    DigitRunsAtNonDigit([], '/', "5");
    assert "/5" == [] + ['/'] + "5";
    NumeralDigitRuns("5");
  }

  lemma DigitStarPasses(minRange: int, maxRange: int, position: string)
    requires minRange <= 5 <= maxRange
    ensures ValidateCronExpr("5*", minRange, maxRange, position) == Pass
  {
    DigitStarFacts();
  }

  lemma DigitStarFacts()
    ensures MatchesCronSyntax("5*") && DigitRuns("5*") == ["5"] && DecimalValue("5") == 5
    ensures !IsSubstring("5*", '-') && !IsSubstring("5*", ',')
    ensures MatchesLength("5*", '*') == 1 && MatchesLength("5*", '/') == 0
  {
    assert multiset("5*") == multiset{'5', '*'};
    DigitRunsAtNonDigit("5", '*', []);
    assert "5*" == "5" + ['*'] + [];
    NumeralDigitRuns("5");
  }

  lemma CommaPasses(minRange: int, maxRange: int, position: string)
    ensures ValidateCronExpr(",", minRange, maxRange, position) == Pass
  {
    CommaFacts();
  }

  lemma CommaFacts()
    ensures MatchesCronSyntax(",") && DigitRuns(",") == []
    ensures !IsSubstring(",", '*') && !IsSubstring(",", '/') && !IsSubstring(",", '-')
  {
    DigitRunsAtNonDigit([], ',', []);
    assert "," == [] + [','] + [];
  }

  lemma EmptyItemPasses(minRange: int, maxRange: int, position: string)
    requires minRange <= 1 && 2 <= maxRange
    ensures ValidateCronExpr("1,,2", minRange, maxRange, position) == Pass
  {
    EmptyItemFacts();
  }

  lemma EmptyItemFacts()
    ensures MatchesCronSyntax("1,,2") && DigitRuns("1,,2") == ["1", "2"]
    ensures DecimalValue("1") == 1 && DecimalValue("2") == 2
    ensures !IsSubstring("1,,2", '*') && !IsSubstring("1,,2", '/') && !IsSubstring("1,,2", '-')
  {
    EmptyItemRuns();
  }

  lemma EmptyItemRuns()
    ensures DigitRuns("1,,2") == ["1", "2"]
  {
    assert "1,,2" == "1" + [','] + ",2";
    DigitRunsAtNonDigit("1", ',', ",2");
    assert ",2" == [] + [','] + "2";
    DigitRunsAtNonDigit([], ',', "2");
    NumeralDigitRuns("1");
    NumeralDigitRuns("2");
  }

  // ---------------------------------------------------------------------
  // Single fields

  /** A numeral within its field's bounds passes and expands to itself. */
  lemma NumeralFieldPasses(n: string, p: Position)
    requires IsNumeral(n) && Accepted(n, p.MinRange(), p.MaxRange())
    ensures ProcessField(n, p) == Success(n)
  {
    NumeralDigitRuns(n);
    NumeralExcludes(n, '*');
    NumeralExcludes(n, '/');
    NumeralExcludes(n, '-');
    OccursCounted(n);
    ValidateAccepts(n, p.MinRange(), p.MaxRange(), p.Name());
    ExpandSingle(n, p.MinRange(), p.MaxRange(), p.Name());
  }

  /** A numeral that parses but lies outside its field's bounds is
      reported with the field's name and its value. */
  lemma NumeralFieldRejected(n: string, p: Position)
    requires IsNumeral(n) && DecimalValue(n) <= IntMax
    requires !Accepted(n, p.MinRange(), p.MaxRange())
    ensures ProcessField(n, p) == Failure(OutOfRange(p.Name(), DecimalValue(n)))
  {
    NumeralDigitRuns(n);
    NumeralExcludes(n, '*');
    NumeralExcludes(n, '/');
    NumeralExcludes(n, '-');
    OccursCounted(n);
    ValidateFirstRejected(n, p.MinRange(), p.MaxRange(), p.Name(), 0);
  }

  /** The wildcard passes in every field and expands to the field's range. */
  lemma WildcardFieldPasses(p: Position)
    ensures ProcessField("*", p) == Success(StringRange(p.MinRange(), p.MaxRange(), 1))
  {
    WildcardPasses(p.MinRange(), p.MaxRange(), p.Name());
    assert Classify("*") == All;
  }

  // ---------------------------------------------------------------------
  // The argument lists of cmd/root_test.go, whatever the arguments the
  // verdict does not depend on

  /** A wildcard argument succeeds at any field position. */
  lemma WildcardAt(args: seq<string>, k: nat)
    requires k < 5 && k < |args| && args[k] == "*"
    ensures ArgOutcome(args, k).Success?
  {
    var p := PositionAt(k);
    WildcardFieldPasses(p);
  }

  /** A numeral within the bounds of its position is kept as written. */
  lemma NumeralAt(args: seq<string>, k: nat)
    requires k < 5 && k < |args| && IsNumeral(args[k])
    requires Accepted(args[k], PositionAt(k).MinRange(), PositionAt(k).MaxRange())
    ensures ArgOutcome(args, k) == Success(args[k])
  {
    NumeralFieldPasses(args[k], PositionAt(k));
  }

  /** A numeral outside the bounds of its position is reported as out of
      range. */
  lemma OutOfRangeAt(args: seq<string>, k: nat)
    requires k < 5 && k < |args| && IsNumeral(args[k]) && DecimalValue(args[k]) <= IntMax
    requires !Accepted(args[k], PositionAt(k).MinRange(), PositionAt(k).MaxRange())
    ensures ArgOutcome(args, k) == Failure(OutOfRange(PositionAt(k).Name(), DecimalValue(args[k])))
  {
    NumeralFieldRejected(args[k], PositionAt(k));
  }

  /** A non-empty argument with a character outside the cron set is
      refused by the character rule at any field position. */
  lemma InvalidSyntaxAt(args: seq<string>, k: nat)
    requires k < 5 && k < |args| && args[k] != "" && !MatchesCronSyntax(args[k])
    ensures ArgOutcome(args, k) == Failure(InvalidSyntax(args[k]))
  {
    ValidateErrors(args[k], PositionAt(k).MinRange(), PositionAt(k).MaxRange(), PositionAt(k).Name());
  }

  /** The shape of the tests' argument lists: a wildcard minute, then
      numerals that lie within the bounds of their positions. */
  predicate ValidPrefix(args: seq<string>, k: nat)
    requires k <= 5 && k <= |args|
  {
    && (k > 0 ==> args[0] == "*")
    && forall i :: 1 <= i < k ==> IsNumeral(args[i]) && Accepted(args[i], PositionAt(i).MinRange(), PositionAt(i).MaxRange())
  }

  /** The arguments of a valid prefix all succeed, and the numerals among
      them are kept as written. */
  lemma ValidPrefixSucceeds(args: seq<string>, k: nat)
    requires k <= 5 && k <= |args| && ValidPrefix(args, k)
    ensures forall i :: 0 <= i < k ==> ArgOutcome(args, i).Success?
    ensures forall i :: 1 <= i < k ==> ArgOutcome(args, i) == Success(args[i])
  {
    if k > 0 {
      WildcardAt(args, 0);
    }
    forall i | 1 <= i < k
      ensures ArgOutcome(args, i) == Success(args[i])
    {
      NumeralAt(args, i);
    }
  }

  /** After a valid prefix, a numeral out of its position's bounds decides
      the error. */
  lemma OutOfRangeAfter(args: seq<string>, k: nat)
    requires |args| == 6 && k < 5 && ValidPrefix(args, k)
    requires IsNumeral(args[k]) && DecimalValue(args[k]) <= IntMax
    requires !Accepted(args[k], PositionAt(k).MinRange(), PositionAt(k).MaxRange())
    ensures ExtractArgs(args) == Failure(OutOfRange(PositionAt(k).Name(), DecimalValue(args[k])))
  {
    ValidPrefixSucceeds(args, k);
    OutOfRangeAt(args, k);
    ExtractArgsFirstFailure(args, k);
  }

  /** After a valid prefix, a character outside the cron set decides the
      error. */
  lemma InvalidSyntaxAfter(args: seq<string>, k: nat)
    requires |args| == 6 && k < 5 && ValidPrefix(args, k)
    requires args[k] != "" && !MatchesCronSyntax(args[k])
    ensures ExtractArgs(args) == Failure(InvalidSyntax(args[k]))
  {
    ValidPrefixSucceeds(args, k);
    InvalidSyntaxAt(args, k);
    ExtractArgsFirstFailure(args, k);
  }

  /** A valid prefix of all five fields and a command give a record that
      keeps the numeric fields as written and copies the command. */
  lemma ValidArgsKept(args: seq<string>)
    requires |args| == 6 && ValidPrefix(args, 5) && args[5] != ""
    ensures ExtractArgs(args).Success?
    ensures var c := ExtractArgs(args).value;
            c.Hour == args[1] && c.DayOfMonth == args[2] && c.Month == args[3] && c.DayOfWeek == args[4] && c.Command == args[5]
  {
    ValidPrefixSucceeds(args, 5);
    assert forall i :: 0 <= i < 6 ==> ArgOutcome(args, i).Success?;
    ExtractArgsSuccess(args);
    ExtractArgsRecord(args);
  }

  /** `* 10 20 12 6 <command>` is accepted: the numeric fields are kept as
      written and the command is copied. */
  lemma ValidArgsExample(args: seq<string>)
    requires |args| == 6 && args[0] == "*" && args[1] == "10" && args[2] == "20"
    requires args[3] == "12" && args[4] == "6" && args[5] != ""
    ensures ExtractArgs(args).Success?
    ensures var c := ExtractArgs(args).value;
            c.Hour == "10" && c.DayOfMonth == "20" && c.Month == "12" && c.DayOfWeek == "6" && c.Command == args[5]
  {
    DecimalLiterals();
    ValidArgsKept(args);
  }

  /** The values of the numerals the tests use. */
  lemma DecimalLiterals()
    ensures DecimalValue("6") == 6 && DecimalValue("8") == 8
    ensures DecimalValue("10") == 10 && DecimalValue("12") == 12 && DecimalValue("13") == 13
    ensures DecimalValue("20") == 20 && DecimalValue("25") == 25 && DecimalValue("32") == 32
    ensures DecimalValue("61") == 61
  {
    assert "10"[..1] == "1" && "12"[..1] == "1" && "13"[..1] == "1";
    assert "20"[..1] == "2" && "25"[..1] == "2";
    assert "32"[..1] == "3" && "61"[..1] == "6";
  }

  /** `61` as the minute is out of range, whatever follows it. */
  lemma InvalidMinuteArgs(args: seq<string>)
    requires |args| == 6 && args[0] == "61"
    ensures ExtractArgs(args) == Failure(OutOfRange("minute", 61))
  {
    DecimalLiterals();
    OutOfRangeAfter(args, 0);
  }

  /** `25` as the hour after a wildcard minute is out of range. */
  lemma InvalidHourArgs(args: seq<string>)
    requires |args| == 6 && args[0] == "*" && args[1] == "25"
    ensures ExtractArgs(args) == Failure(OutOfRange("hour", 25))
  {
    DecimalLiterals();
    OutOfRangeAfter(args, 1);
  }

  /** `32` as the day of month is out of range. */
  lemma InvalidDayOfMonthArgs(args: seq<string>)
    requires |args| == 6 && args[0] == "*" && args[1] == "10" && args[2] == "32"
    ensures ExtractArgs(args) == Failure(OutOfRange("day of month", 32))
  {
    DecimalLiterals();
    OutOfRangeAfter(args, 2);
  }

  /** `13` as the month is out of range. */
  lemma InvalidMonthArgs(args: seq<string>)
    requires |args| == 6 && args[0] == "*" && args[1] == "10" && args[2] == "20" && args[3] == "13"
    ensures ExtractArgs(args) == Failure(OutOfRange("month", 13))
  {
    DecimalLiterals();
    OutOfRangeAfter(args, 3);
  }

  /** `8` as the day of week is out of range. */
  lemma InvalidDayOfWeekArgs(args: seq<string>)
    requires |args| == 6 && args[0] == "*" && args[1] == "10" && args[2] == "20"
    requires args[3] == "12" && args[4] == "8"
    ensures ExtractArgs(args) == Failure(OutOfRange("day of week", 8))
  {
    DecimalLiterals();
    OutOfRangeAfter(args, 4);
  }

  /** `bananas` as the day of week is refused by the character rule. */
  lemma InvalidSyntaxDayOfWeekArgs(args: seq<string>)
    requires |args| == 6 && args[0] == "*" && args[1] == "10" && args[2] == "20"
    requires args[3] == "12" && args[4] == "bananas"
    ensures ExtractArgs(args) == Failure(InvalidSyntax("bananas"))
  {
    DecimalLiterals();
    assert !IsCronChar(args[4][0]);
    InvalidSyntaxAfter(args, 4);
  }

  /** `_` as the minute is refused by the character rule. */
  lemma InvalidSyntaxMinuteArgs(args: seq<string>)
    requires |args| == 6 && args[0] == "_"
    ensures ExtractArgs(args) == Failure(InvalidSyntax("_"))
  {
    assert !IsCronChar(args[0][0]);
    InvalidSyntaxAfter(args, 0);
  }

  /** The four operator mix-ups as the minute, whatever follows them. */
  lemma StarConflictArgs(args: seq<string>)
    requires |args| == 6 && args[0] == "*/5,5"
    ensures ExtractArgs(args) == Failure(StarConflict("*/5,5"))
  {
    StarConflictExample(0, 59, "minute");
    assert ProcessField("*/5,5", Minute) == Failure(StarConflict("*/5,5"));
    ExtractArgsFieldError(args, 0);
  }

  lemma StarRepeatedArgs(args: seq<string>)
    requires |args| == 6 && args[0] == "**"
    ensures ExtractArgs(args) == Failure(StarRepeated("**"))
  {
    StarRepeatedExample(0, 59, "minute");
    assert ProcessField("**", Minute) == Failure(StarRepeated("**"));
    ExtractArgsFieldError(args, 0);
  }

  lemma HyphenConflictArgs(args: seq<string>)
    requires |args| == 6 && args[0] == "5,-5"
    ensures ExtractArgs(args) == Failure(HyphenConflict("5,-5"))
  {
    HyphenConflictExample(0, 59, "minute");
    assert ProcessField("5,-5", Minute) == Failure(HyphenConflict("5,-5"));
    ExtractArgsFieldError(args, 0);
  }

  lemma HyphenRepeatedArgs(args: seq<string>)
    requires |args| == 6 && args[0] == "5-1-1"
    ensures ExtractArgs(args) == Failure(HyphenRepeated("5-1-1"))
  {
    HyphenRepeatedExample(0, 59, "minute");
    assert ProcessField("5-1-1", Minute) == Failure(HyphenRepeated("5-1-1"));
    ExtractArgsFieldError(args, 0);
  }
}
