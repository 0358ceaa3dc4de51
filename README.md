# cronfmt core in Dafny

cronfmt is a small command-line tool. It takes the five fields of a cron
line plus a command, checks each field, and prints the field expanded to the
list of values it stands for. The fields are minute 0-59, hour 0-23, day of
month 1-31, month 1-12 and day of week 0-6. For example, `*/15` as the
minute becomes `0 15 30 45`.

This project models the core of that tool and proves properties of the model:

- `validateCronExpr`, the field validator.
- `expandCronExpr`, the field expander.
- `createStringRange`, the range generator behind the wildcard, the
  stepped wildcard and the range shapes.
- `isSubstring` and `getMatchesLength`, the operator counters.
- `validateAndExtractArgs`, the top level that checks the six arguments and
  fills the `Cronfmt` record.

Modules:

- `Text` holds the string operations the model is built from: ASCII
  digits, the value of a string of digits and the decimal text of a number
  (`strconv.Itoa`), `strings.Join` and `strings.ReplaceAll` on one
  character, and the maximal digit runs that `\d+` finds. Its `Split`
  on one character is not a call the core makes. The model uses it to
  take apart the shapes that the patterns of cmd/root.go:228-232
  recognise, and the tokens of an expansion.
- `strconv.Atoi` itself is `Root.Atoi`, with its error for numbers above
  the largest `int`.
- `Utils` models cmd/utils.go.
- `Root` models cmd/root.go.
- `Validation`, `Expansion` and `Extraction` prove what each of the three
  root.go functions returns.
- `Examples` states the verdicts that cmd/root_test.go expects. Each one is
  stated for the arguments the verdict does not depend on: any bounds and
  position name for the operator rules, any list of 0, 5 or 7 arguments for
  the count, any arguments after the one that decides an error, and any
  command.
- `HelpText` proves the extended format that the usage text of cmd/root.go
  (root.go:33-68) prints for its three example commands, field by field and
  for each command as a whole.

`createStringRange` and `validateAndExtractArgs` are loops in Go.
They are modelled as methods with loops (`Utils.CreateStringRange` and
`Root.ValidateAndExtractArgs`). Each method is proved equal to a functional
specification (`Utils.StringRange` and `Root.ExtractArgs`). The lemmas are
stated about those specifications.

A range `A-B` does not expand to `A, A+1, …, B`. `expandCronExpr` passes
`A` and `B` to `createStringRange`, which always counts from 1 and emits 0
first only when its lower bound is 0. So `3-5` expands to `1 2 3 4 5`
(`HelpText.WeekdaysFromThree`), and `0-5` to `0 1 2 3 4 5`. The model
states this:

- `Expansion.ExpandRange` states what the code produces.
- `Utils.RangeValuesBounds` states that the lower bound has no effect
  besides deciding whether 0 is emitted.

The same counting from 1 means a stepped wildcard never emits a value below
1 except the leading 0. For example, `*/5` as the day of month gives
`5 10 15 20 25 30`.

## Model

| member | source | states |
|---|---|---|
| Utils.IsSubstring | cmd/utils.go:10-16 | true exactly when the character occurs in the string |
| Utils.MatchesLength | cmd/utils.go:19-22 | the number of matches is the number of occurrences of the character; it is positive exactly when `IsSubstring` holds |
| Utils.CreateStringRange | cmd/utils.go:25-43 | the loop's output equals `StringRange`, the optional leading 0 followed by the multiples of the step in `[1, maxRange]`, formatted as decimals separated by single spaces; with step 0 it is callable exactly when Go would not divide by zero (lower bound not 0 and `maxRange < 1`), and returns the empty text |
| Utils.MultiplesUpToMembers | cmd/utils.go:35-39 | the counting loop appends exactly the multiples of the step in `[1, n]`, strictly ascending, each within `[1, n]` |
| Utils.RangeValuesMembers | cmd/utils.go:28-39 | a value is emitted if and only if it is the special 0 (lower bound 0 and the step divides `maxRange + 1`) or a multiple of the step in `[1, maxRange]` |
| Utils.RangeValuesAscending | cmd/utils.go:28-39 | the emitted values are strictly ascending, so none repeats |
| Utils.RangeValuesLeadingZero | cmd/utils.go:28-33 | the first value is 0 exactly when the lower bound is 0 and the step divides `maxRange + 1`; 0 is never emitted for another lower bound |
| Utils.RangeValuesBounds | cmd/utils.go:28-39 | every value is at most `maxRange`, and any non-zero lower bound gives the same values as lower bound 1 |
| Utils.MultiplesUnitStep | cmd/utils.go:35-39 | with step 1 the loop appends every integer of `[1, n]` |
| Utils.RangeValuesUnitStep | cmd/utils.go:25-39 | with step 1 the values are every integer from 0 (lower bound 0) or 1 (otherwise) up to `maxRange` |
| Utils.MultiplesClosedForm | cmd/utils.go:35-39 | the loop appends `step, 2*step, …`: the `k`-th value is `(k+1)*step`, and there are `n / step` of them |
| Utils.RangeValuesCount | cmd/utils.go:26-39 | the slice holds one value for the leading 0 when it is emitted, plus `maxRange / step` multiples |
| Utils.StringRangeEmpty | cmd/utils.go:40-42 | the returned text is empty exactly when no value was collected |
| Utils.FormatRangeCons | cmd/utils.go:40-42 | the text of two or more values is the first value's decimal, one space, and the text of the rest |
| Utils.FormatRangeTokens | cmd/utils.go:40-42 | the formatted text is empty for no values; otherwise splitting it at spaces gives back each value's decimal text in order, so there are no brackets and no stray spaces |
| Text.NatToDecimal | cmd/utils.go:40 | the printed decimal is a numeral with no leading zero whose value is the number |
| Text.TwoDigitDecimal | cmd/utils.go:40 | a number from 10 to 99 prints as its tens digit followed by its units digit |
| Text.DecimalLeadingZero | cmd/root.go:213 | a leading zero does not change the value of a string of digits |
| Text.SplitJoin | cmd/root.go:229-231 | splitting a join of separator-free parts gives the parts back |
| Text.JoinSplit | cmd/root.go:229-231 | joining the parts of a split gives the string back |
| Text.ReplaceAll | cmd/root.go:270 | the result has the same length, with each occurrence of the character replaced and every other character unchanged |
| Text.ReplaceJoin | cmd/root.go:270 | replacing the separator of a join of parts without it gives the join on the new separator |
| Text.DigitRuns | cmd/root.go:211 | every run found is a numeral |
| Text.NumeralDigitRuns | cmd/root.go:211 | a numeral is exactly one digit run |
| Text.DigitRunsAtNonDigit | cmd/root.go:211 | runs never cross a non-digit: the runs of `a + [c] + b` are those of `a` followed by those of `b` |
| Text.DigitRunsOfJoin | cmd/root.go:211 | the digit runs of a comma-separated list of numerals are the numerals themselves |
| Root.Atoi | cmd/root.go:213-216 | a successful parse lies in `[0, 2^63-1]`; a failure is the parse error quoting the digits |
| Root.AtoiOfDecimal | cmd/root.go:213 | parsing a printed number gives it back up to 2^63-1, and the parse error above |
| Root.AtoiLeadingZero | cmd/root.go:213 | a leading zero changes neither whether the digits parse nor their value |
| Root.PositionNamesDistinct | cmd/root.go:126-169 | two fields have the same name only when they are the same field |
| Root.CheckNumbers | cmd/root.go:211-220 | passes exactly when every number is accepted; the only errors are a parse failure or an out-of-range error naming the field |
| Root.ValidateCronExpr | cmd/root.go:183-222 | the validator only produces field errors, never a count or empty-argument error |
| Root.Classify | cmd/root.go:228-232 | the shape found is well formed: its captured groups are numerals, and a list has at least two items |
| Root.ExpandCronExpr | cmd/root.go:225-278 | the expander only produces field errors |
| Root.ProcessField | cmd/root.go:126-133 | validating and then expanding one field only produces field errors |
| Root.ArgOutcome | cmd/root.go:119-176 | the empty-argument error is given exactly for an empty argument, and the count error never |
| Root.FirstFailure | cmd/root.go:119-177 | passes exactly when all outcomes so far succeed; a reported error is the error of one of them |
| Root.ValidateAndExtractArgs | cmd/root.go:110-180 | the loop returns exactly `ExtractArgs`: the count check, then the first failing argument, else the record of the five expansions and the command |
| Root.FirstFailureStays | cmd/root.go:119-177 | once an argument has failed, later arguments do not change which error is reported |
| Validation.ValidateAccepts | cmd/root.go:183-222 | an expression passes if and only if it has cron characters only, uses one of the admitted operator combinations, and every digit run parses and lies within the bounds |
| Validation.ValidateErrors | cmd/root.go:187-207 | which error each operator rule gives, under the conditions that make it the first rule to fail |
| Validation.HyphenConflictMeansComma | cmd/root.go:193-204 | the conflict error for `-` always means a `-` next to a `,`; its `*` and `/` clauses can never decide |
| Validation.ValidateFirstRejected | cmd/root.go:211-220 | once the characters and operators pass, the first digit run that fails to parse or lies out of range gives the error |
| Validation.CheckNumbersFirstRejected | cmd/root.go:212-219 | the loop over the numbers stops at the first number it rejects |
| Expansion.ClassifyRender | cmd/root.go:228-232 | the text of a well-formed shape is recognised as that same shape |
| Expansion.RenderClassify | cmd/root.go:228-232 | a recognised expression is the text of its shape |
| Expansion.ExpandWildcard | cmd/root.go:236-237 | `*` expands like the range from the lower to the upper bound, that is, every integer from 0 or 1 up to the upper bound |
| Expansion.ExpandRange | cmd/root.go:239-256 | `A-B` fails with the invalid-range error when `A > B`; otherwise it gives every integer from 1 (from 0 when `A` is 0) up to `B` |
| Expansion.ExpandStep | cmd/root.go:258-267 | `*/N` fails with a parse error naming the field and the digits when `N` is too large for an int; with `N` 0 it divides by zero when the lower bound is 0 or the upper bound is at least 1, and gives the empty text otherwise; any other `N` gives the generator's output for the field's bounds and step `N` |
| Expansion.ExpandList | cmd/root.go:269-270 | a list of numerals gives the same numerals, in order, separated by single spaces |
| Expansion.ExpandSingle | cmd/root.go:272-273 | a single numeral expands to itself |
| Expansion.ExpandUnrecognised | cmd/root.go:274-275 | the not-recognisable error is given exactly for expressions with none of the five shapes |
| Expansion.TokensWellFormed | cmd/root.go:277 | a string whose space-separated tokens are in-bounds numerals is a well-formed expansion |
| Expansion.StringRangeWellFormed | cmd/utils.go:25-43 | the generator's output is well formed when it emits at least one value and every value lies within the bounds |
| Expansion.WildcardWellFormed | cmd/root.go:236-237 | the wildcard's expansion is well formed for a lower bound of 0 or 1 |
| Expansion.RangeWellFormed | cmd/root.go:239-256 | a range inside the bounds expands within the bounds when the lower bound is at most 1 |
| Expansion.StepWellFormed | cmd/root.go:258-267 | a step inside the bounds emits at least itself, and only values within the bounds |
| Expansion.ListWellFormed | cmd/root.go:269-273 | a list of accepted numerals joined by spaces is well formed |
| Expansion.RangeRuns | cmd/root.go:211 | the digit runs of `A-B` are its two bounds |
| Expansion.StepRuns | cmd/root.go:211 | the digit run of `*/N` is its step |
| Expansion.RangeExpansionWellFormed | cmd/root.go:239-256 | a range whose bounds the validator accepted expands within the bounds |
| Expansion.StepExpansionWellFormed | cmd/root.go:258-267 | a stepped wildcard whose step the validator accepted expands within the bounds |
| Expansion.ListExpansionWellFormed | cmd/root.go:269-270 | a list of accepted numerals expands successfully and within the bounds |
| Expansion.ExpandedFieldWellFormed | cmd/root.go:211-276 | a field that passes validation and expands holds only digits and spaces, and each token is a decimal within the field's bounds |
| Extraction.ExtractArgsCount | cmd/root.go:111-113 | the count error is returned if and only if there are not exactly six arguments |
| Extraction.ExtractArgsFirstFailure | cmd/root.go:119-177 | the first failing argument, in position order, decides the error, whatever follows it |
| Extraction.ExtractArgsEmpty | cmd/root.go:120-122 | an empty argument after successful ones gives the empty-argument error, including an empty command |
| Extraction.ExtractArgsFieldError | cmd/root.go:123-174 | a field that fails after successful ones gives that field's own error, which is a field error |
| Extraction.ExtractArgsSuccess | cmd/root.go:110-180 | extraction succeeds if and only if there are six arguments and each one succeeds |
| Extraction.ExtractArgsRecord | cmd/root.go:123-179 | a successful `Cronfmt` record (cmd/root.go:15-22) holds, in its five fields, the expansions of the minute, hour, day of month, month and day of week arguments under their own bounds, and the command unchanged; no argument was empty |
| Extraction.FieldWellFormed | cmd/root.go:123-173 | a field that validates and expands at its position is well formed for that position's bounds |
| Extraction.ExtractArgsWellFormed | cmd/root.go:123-179 | every field of a successful record is a list of decimals within that field's bounds |
| Examples.StarRepeatedExample | cmd/root_test.go:62 | `**` gives the repeated-operator error for `*` or `/`, for any bounds and field name |
| Examples.StarConflictExample | cmd/root_test.go:56 | `*/5,5` gives the conflict error for `*`, for any bounds and field name |
| Examples.HyphenConflictExample | cmd/root_test.go:68 | `5,-5` gives the conflict error for `-`, for any bounds and field name |
| Examples.HyphenRepeatedExample | cmd/root_test.go:74 | `5-1-1` gives the repeated-operator error for `-`, for any bounds and field name |
| Examples.ArgumentCountExample | cmd/root_test.go:14-26 | any list of no, five or seven arguments gives the count error |
| Examples.EmptyArgumentExample | cmd/root_test.go:38 | six arguments with an empty minute give the empty-argument error, whatever the other five are |
| Examples.WildcardPasses | cmd/root.go:185-221 | `*` passes validation for any bounds |
| Examples.StarSlashUnrecognised | cmd/root.go:274-275 | `*/` is not recognised |
| Examples.SlashUnrecognised | cmd/root.go:274-275 | `/5` is not recognised |
| Examples.DigitStarUnrecognised | cmd/root.go:274-275 | `5*` is not recognised |
| Examples.CommaUnrecognised | cmd/root.go:274-275 | `,` is not recognised |
| Examples.EmptyItemUnrecognised | cmd/root.go:274-275 | `1,,2` is not recognised |
| Examples.StarSlashPasses | cmd/root.go:185-221 | `*/` passes validation for any bounds, so only the expander refuses it |
| Examples.SlashPasses | cmd/root.go:185-221 | `/5` passes validation when 5 is within the bounds, so only the expander refuses it |
| Examples.DigitStarPasses | cmd/root.go:185-221 | `5*` passes validation when 5 is within the bounds, so only the expander refuses it |
| Examples.CommaPasses | cmd/root.go:185-221 | `,` passes validation for any bounds, so only the expander refuses it |
| Examples.EmptyItemPasses | cmd/root.go:185-221 | `1,,2` passes validation when 1 and 2 are within the bounds, so only the expander refuses it |
| Examples.NumeralFieldPasses | cmd/root.go:126-133 | a numeral within its field's bounds passes and expands to itself |
| Examples.NumeralFieldRejected | cmd/root.go:217-218 | a numeral outside its field's bounds gives the out-of-range error with the field's name and value |
| Examples.WildcardFieldPasses | cmd/root.go:236-237 | the wildcard passes in every field and expands to the field's range |
| Examples.ValidPrefixSucceeds | cmd/root.go:119-174 | a wildcard minute followed by in-bounds numerals all succeed, and the numerals are kept as written |
| Examples.OutOfRangeAfter | cmd/root.go:119-174 | after such a prefix, an out-of-bounds numeral decides the error |
| Examples.InvalidSyntaxAfter | cmd/root.go:119-174 | after such a prefix, a character outside the cron set decides the error |
| Examples.ValidArgsKept | cmd/root.go:110-180 | five valid fields and a command give a record that keeps the numeric fields and copies the command |
| Examples.ValidArgsExample | cmd/root_test.go:32 | `* 10 20 12 6` with a command is accepted, with hour 10, day 20, month 12 and weekday 6 kept |
| Examples.InvalidMinuteArgs | cmd/root_test.go:80 | minute `61` gives the out-of-range error for the minute |
| Examples.InvalidHourArgs | cmd/root_test.go:86 | hour `25` gives the out-of-range error for the hour |
| Examples.InvalidDayOfMonthArgs | cmd/root_test.go:92 | day of month `32` gives the out-of-range error for the day of month |
| Examples.InvalidMonthArgs | cmd/root_test.go:98 | month `13` gives the out-of-range error for the month |
| Examples.InvalidDayOfWeekArgs | cmd/root_test.go:104 | day of week `8` gives the out-of-range error for the day of week |
| Examples.InvalidSyntaxDayOfWeekArgs | cmd/root_test.go:50 | day of week `bananas` gives the syntax error |
| Examples.InvalidSyntaxMinuteArgs | cmd/root_test.go:44 | minute `_` gives the syntax error |
| Examples.StarConflictArgs | cmd/root_test.go:56 | minute `*/5,5` makes the whole argument list fail with the conflict error for `*` |
| Examples.StarRepeatedArgs | cmd/root_test.go:62 | minute `**` makes the list fail with the repeated-operator error |
| Examples.HyphenConflictArgs | cmd/root_test.go:68 | minute `5,-5` makes the list fail with the conflict error for `-` |
| Examples.HyphenRepeatedArgs | cmd/root_test.go:74 | minute `5-1-1` makes the list fail with the repeated-operator error for `-` |
| HelpText.StepFieldPasses | cmd/root.go:258-267 | a stepped wildcard whose step is at least 1 and within the field's bounds passes and expands to the generator's output for that step |
| HelpText.RangeFieldPasses | cmd/root.go:239-256 | a range of in-bounds numerals in order passes and expands to the generator's output from its lower to its upper end |
| HelpText.ListFieldPasses | cmd/root.go:269-270 | a comma list of in-bounds numerals passes and expands to the same numerals separated by spaces |
| HelpText.RecordOfFields | cmd/root.go:110-180 | six non-empty arguments whose five fields pass at their positions give the record of their expansions and the command |
| HelpText.RecordOfFive | cmd/root.go:110-180 | the same, with the five expansions given field by field |
| HelpText.EveryFifteenMinutesRange | cmd/utils.go:25-43 | the generator for 0-59 with step 15 returns `0 15 30 45` |
| HelpText.EveryEighteenMinutesRange | cmd/utils.go:25-43 | the generator for 0-59 with step 18 returns `18 36 54`: 18 does not divide 60, so there is no 0 |
| HelpText.EveryFiveMinutesRange | cmd/utils.go:25-43 | the generator for 0-59 with step 5 returns `0 5 10 15 20 25 30 35 40 45 50 55` |
| HelpText.EveryThreeHoursRange | cmd/utils.go:25-43 | the generator for 0-23 with step 3 returns `0 3 6 9 12 15 18 21` |
| HelpText.EveryFourMonthsRange | cmd/utils.go:25-43 | the generator for 1-12 with step 4 returns `4 8 12` |
| HelpText.AllMonthsRange | cmd/utils.go:25-43 | the generator for 1-12 with step 1 returns `1 2 3 4 5 6 7 8 9 10 11 12` |
| HelpText.OneToFiveRange | cmd/utils.go:25-43 | the generator with any non-zero lower bound, upper bound 5 and step 1 returns `1 2 3 4 5` |
| HelpText.MinuteEveryFifteen | cmd/root.go:38 | `*/15` as the minute expands to `0 15 30 45` |
| HelpText.HourMidnight | cmd/root.go:39 | `0` as the hour expands to `0` |
| HelpText.DaysOneAndFifteen | cmd/root.go:40 | `1,15` as the day of month expands to `1 15` |
| HelpText.MonthWildcard | cmd/root.go:41 | `*` as the month expands to `1 2 3 4 5 6 7 8 9 10 11 12` |
| HelpText.WeekdaysRange | cmd/root.go:42 | `1-5` as the day of week expands to `1 2 3 4 5` |
| HelpText.WeekdaysFromThree | cmd/root.go:252-256 | `3-5` as the day of week also expands to `1 2 3 4 5`, because the generator counts from 1 |
| HelpText.MinuteEveryEighteen | cmd/root.go:50 | `*/18` as the minute expands to `18 36 54` |
| HelpText.HourEveryThree | cmd/root.go:51 | `*/3` as the hour expands to `0 3 6 9 12 15 18 21` |
| HelpText.DaysFiveAndFifteen | cmd/root.go:52 | `5,15` as the day of month expands to `5 15` |
| HelpText.MinuteEveryFive | cmd/root.go:62 | `*/5` as the minute expands to `0 5 10 15 20 25 30 35 40 45 50 55` |
| HelpText.HoursOneToFive | cmd/root.go:63 | `1,2,3,4,5` as the hour expands to `1 2 3 4 5` |
| HelpText.DayOfMonthFirst | cmd/root.go:64 | `1` as the day of month expands to `1` |
| HelpText.MonthEveryFour | cmd/root.go:65 | `*/4` as the month expands to `4 8 12` |
| HelpText.FirstCommand | cmd/root.go:34-44 | `*/15 0 1,15 * 1-5` with any command gives the record shown in the first usage example |
| HelpText.SecondCommand | cmd/root.go:46-56 | `*/18 */3 5,15 * 1-5` with any command gives the record shown in the second usage example |
| HelpText.ThirdCommand | cmd/root.go:58-68 | `*/5 1,2,3,4,5 1 */4 1-5` with any command gives the record shown in the third usage example |

## Left out

- The command line is not modelled: cobra, the version flag, the table printed with go-pretty, and `os.Exit` (cmd/root.go:24-107). This is I/O around the core.
- The RE2 regular expressions are not modelled as an engine. Each pattern becomes a scan over characters: `Root.MatchesCronSyntax`, `Root.Classify` and `Text.DigitRuns`. As in Go, `\d` is ASCII only.
- Utils.IsSubstring: takes one character instead of a regular expression. The core only passes one-character patterns (`\*`, `/`, `-`, `,`).
- Utils.MatchesLength: takes one character instead of a regular expression, for the same reason.
- Error messages are not modelled as English text. Each error is a `Root.CronError` constructor that carries the expression, position name, number or digits its message quotes. `Root.ParseFailure` is the validator's parse error (cmd/root.go:215), which names only the digits. `Root.FieldParseFailure` is the expander's (cmd/root.go:246, 250 and 265), which also names the field. Neither carries the text of Go's own `strconv` error, which the messages append.
- `strconv.Atoi` is modelled only on strings of digits, which is all the core passes it. A 64-bit `int` is assumed, so the "Unknown error" branches are taken only by numbers above 2^63-1 (`Root.ParseFailure`, `Root.FieldParseFailure`).
- The checks on the number of submatches (cmd/root.go:241-243 and 260-262) cannot fail once the pattern has matched, so they have no counterpart.
- `*/0` passes a step of 0 to `createStringRange`. Go's `%` by zero is a run-time panic, reached at the test on cmd/utils.go:28 when the lower bound is 0 and at cmd/utils.go:36 when the loop runs once (upper bound at least 1). `Root.ExpandCronExpr` returns an explicit `DivisionByZero` failure in those cases and the empty text otherwise. `Utils.CreateStringRange` takes a step of 0 only in the second case, where it returns the empty text as Go does.
- Utils.CreateStringRange: Go's `%` truncates and Dafny's is Euclidean. The model relies on the two agreeing on whether the remainder is zero, which is the only thing `createStringRange` tests.
- Utils.CreateStringRange: does not model 64-bit wrap-around. With an upper bound of 2^63-1, `maxRange+1` on cmd/utils.go:28 wraps to -2^63, and the loop counter on cmd/utils.go:35 wraps instead of exceeding the bound, so the Go loop never ends. The model's unbounded integers give the leading 0 test and a loop that stops. Validation keeps every field's numbers within 0-59, so only a direct call with such bounds behaves differently.
- Utils.CreateStringRange: a negative step is not modelled. The callers pass a step parsed from digits, which is never negative.
- `fmt.Sprint`, `strings.Fields`, `strings.Join` and `strings.Trim` on the slice are modelled together as joining the decimals with single spaces (`Utils.FormatRange`).
- cmd/_utils.go is not part of this model. It is an older copy of `isSubstring` that the Go toolchain ignores, because its name starts with `_`.
- cmd/root_test.go is not modelled as code. At root_test.go:111 the test takes one result from a function that returns two. Its expected verdicts are stated as the lemmas in `Examples`.
- Examples.ValidArgsExample: does not state the concrete text of the wildcard minute, the sixty values `0 1 … 59`. `Examples.WildcardFieldPasses` and `Utils.RangeValuesUnitStep` state it as every integer from 0 to 59. The concrete texts that the `HelpText` lemmas prove are built four or five values at a time. Sixty values would take fifteen such steps, and the usage text never prints that line.
- Expansion.ExpandedFieldWellFormed: requires a lower bound of 0 or 1, which is true of all five fields. For a larger lower bound the wildcard and range shapes would emit values below it, because the generator always counts from 1.
