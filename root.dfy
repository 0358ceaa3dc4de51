/** cmd/root.go: the cron field validator (`validateCronExpr`), the field
    expander (`expandCronExpr`) and the top level that checks six
    arguments and fills a `Cronfmt` record (`validateAndExtractArgs`). */
module Root {
  import opened Text
  import opened Utils

  /** The six strings `validateAndExtractArgs` produces: five expanded
      fields and the command, copied through unchanged. */
  datatype Cronfmt = Cronfmt(
    Minute: string,
    Hour: string,
    DayOfMonth: string,
    Month: string,
    DayOfWeek: string,
    Command: string)
  {
    function Get(p: Position): string {
      match p
      case Minute => Minute
      case Hour => Hour
      case DayOfMonth => DayOfMonth
      case Month => Month
      case DayOfWeek => DayOfWeek
    }
  }

  /** The errors the core returns, each carrying the data its Go message
      quotes. */
  datatype CronError =
    | InvalidArgumentCount                          // "Invalid number of arguments"
    | EmptyArgument                                 // "Empty argument identified"
    | InvalidSyntax(expression: string)             // outside `^[\*\/\d,-]+$`
    | StarConflict(expression: string)              // `*` cannot be used in conjunction `-` or `,`
    | StarRepeated(expression: string)              // `*` or `/` can only be used once
    | HyphenConflict(expression: string)            // `-` cannot be used in conjunction `/` `*` or `,`
    | HyphenRepeated(expression: string)            // `-` can only be used once
    | ParseFailure(digits: string)                  // strconv.Atoi out of range: "Unknown error"
    | FieldParseFailure(position: string, digits: string) // the same, naming the field
    | OutOfRange(position: string, number: int)     // "Invalid <position> value: <n>"
    | InvalidRange(position: string, expression: string)
    | DivisionByZero                                // `*/0` reaches `% 0`: a run-time panic in Go
    | NotRecognisable(position: string)             // "expression or not yet recognisable"

  /** An error that a single field can produce, as opposed to the two
      errors about the argument list as a whole. */
  predicate FieldError(e: CronError) {
    !e.InvalidArgumentCount? && !e.EmptyArgument?
  }

  /** The verdict of `validateCronExpr`: `nil` or an error. */
  datatype Outcome = Pass | Fail(error: CronError)

  /** A value, or the error returned in its place. */
  datatype Result<T> = Success(value: T) | Failure(error: CronError)

  // ---------------------------------------------------------------------
  // Numbers

  /** The largest Go `int` on a 64-bit platform. */
  const IntMax: int := 0x7fff_ffff_ffff_ffff

  /** `strconv.Atoi` on a string of digits: its value, or an error when the
      value does not fit in an `int`. */
  function Atoi(s: string): (r: Result<int>)
    requires IsNumeral(s)
    ensures r.Success? ==> 0 <= r.value <= IntMax
    ensures r.Failure? ==> r.error == ParseFailure(s)
  {
    if DecimalValue(s) <= IntMax then Success(DecimalValue(s)) else Failure(ParseFailure(s))
  }

  /** A digit run that `validateCronExpr` lets through: it parses and its
      value lies in `[minRange, maxRange]`. */
  predicate Accepted(number: string, minRange: int, maxRange: int)
    requires IsNumeral(number)
  {
    DecimalValue(number) <= IntMax && minRange <= DecimalValue(number) <= maxRange
  }

  /** The error a rejected digit run gives. */
  function Rejection(number: string, position: string): CronError
    requires IsNumeral(number)
  {
    if DecimalValue(number) > IntMax then ParseFailure(number) else OutOfRange(position, DecimalValue(number))
  }

  // ---------------------------------------------------------------------
  // validateCronExpr

  predicate IsCronChar(c: char) {
    IsDigit(c) || c == '*' || c == '/' || c == ',' || c == '-'
  }

  /** Whether the expression matches `^[\*\/\d,-]+$`. */
  predicate MatchesCronSyntax(expression: string) {
    |expression| > 0 && forall i :: 0 <= i < |expression| ==> IsCronChar(expression[i])
  }

  /** The loop over the numbers found in the expression: the first one that
      does not parse or lies outside the bounds decides the error. */
  function CheckNumbers(numbers: seq<string>, minRange: int, maxRange: int, position: string): (o: Outcome)
    requires forall k :: 0 <= k < |numbers| ==> IsNumeral(numbers[k])
    ensures o.Pass? <==> forall k :: 0 <= k < |numbers| ==> Accepted(numbers[k], minRange, maxRange)
    ensures o.Fail? ==> o.error.ParseFailure? || (o.error.OutOfRange? && o.error.position == position)
  {
    if numbers == [] then
      Pass
    else
      match Atoi(numbers[0])
      case Failure(e) => Fail(e)
      case Success(number) =>
        if number < minRange || number > maxRange then
          Fail(OutOfRange(position, number))
        else
          CheckNumbers(numbers[1..], minRange, maxRange, position)
  }

  /** `validateCronExpr`: the character set, then the operator rules for
      `*` and `/`, then those for `-`, then the bounds of every digit run.
      The first rule that fails decides the error. */
  function ValidateCronExpr(expression: string, minRange: int, maxRange: int, position: string): (o: Outcome)
    ensures o.Fail? ==> FieldError(o.error)
  {
    var starOrSlash := IsSubstring(expression, '*') || IsSubstring(expression, '/');
    var hyphen := IsSubstring(expression, '-');
    if !MatchesCronSyntax(expression) then
      Fail(InvalidSyntax(expression))
    else if starOrSlash && (hyphen || IsSubstring(expression, ',')) then
      Fail(StarConflict(expression))
    else if starOrSlash && (MatchesLength(expression, '*') > 1 || MatchesLength(expression, '/') > 1) then
      Fail(StarRepeated(expression))
    else if hyphen && (IsSubstring(expression, '/') || IsSubstring(expression, ',') || IsSubstring(expression, '*')) then
      Fail(HyphenConflict(expression))
    else if hyphen && MatchesLength(expression, '-') > 1 then
      Fail(HyphenRepeated(expression))
    else
      CheckNumbers(DigitRuns(expression), minRange, maxRange, position)
  }

  /** The operator combinations the validator admits, by counting each
      operator: digits and commas only (a list or a single value), exactly
      one `-` and no other operator (a range), or at most one `*` and at
      most one `/` with no `-` or `,` (a wildcard, possibly stepped). */
  ghost predicate OperatorsAllowed(e: string) {
    var stars, slashes, hyphens, commas := multiset(e)['*'], multiset(e)['/'], multiset(e)['-'], multiset(e)[','];
    || (stars == 0 && slashes == 0 && hyphens == 0)
    || (stars == 0 && slashes == 0 && commas == 0 && hyphens == 1)
    || (hyphens == 0 && commas == 0 && stars <= 1 && slashes <= 1)
  }

  // ---------------------------------------------------------------------
  // The five shapes of expandCronExpr

  /** The field shapes the five regular expressions of `expandCronExpr`
      recognise, with the digit strings their groups capture. */
  datatype Shape =
    | All                                 // ^\*$
    | Range(first: string, last: string)  // ^(\d+)-(\d+)$
    | AllStep(step: string)               // ^\*\/(\d+)$
    | List(items: seq<string>)            // ^(\d+)(,\d+)+$
    | Single(value: string)               // ^\d+$
    | Unrecognised

  predicate WellFormedShape(sh: Shape) {
    match sh
    case Range(a, b) => IsNumeral(a) && IsNumeral(b)
    case AllStep(n) => IsNumeral(n)
    case List(items) => |items| >= 2 && forall k :: 0 <= k < |items| ==> IsNumeral(items[k])
    case Single(n) => IsNumeral(n)
    case _ => true
  }

  /** Which of the regular expressions of `expandCronExpr` matches, tried
      in the order of its `switch`, found by splitting at the operator
      characters. */
  function Classify(expression: string): (sh: Shape)
    ensures WellFormedShape(sh)
  {
    var ranged := Split(expression, '-');
    var listed := Split(expression, ',');
    if expression == "*" then
      All
    else if |ranged| == 2 && IsNumeral(ranged[0]) && IsNumeral(ranged[1]) then
      Range(ranged[0], ranged[1])
    else if |expression| >= 2 && expression[..2] == "*/" && IsNumeral(expression[2..]) then
      AllStep(expression[2..])
    else if |listed| >= 2 && forall k :: 0 <= k < |listed| ==> IsNumeral(listed[k]) then
      List(listed)
    else if IsNumeral(expression) then
      Single(expression)
    else
      Unrecognised
  }

  /** The text of a shape: the inverse of `Classify`. */
  function Render(sh: Shape): string
    requires !sh.Unrecognised?
  {
    match sh
    case All => "*"
    case Range(a, b) => a + "-" + b
    case AllStep(n) => "*/" + n
    case List(items) => Join(items, ',')
    case Single(n) => n
  }

  // ---------------------------------------------------------------------
  // expandCronExpr

  /** `expandCronExpr`: the expansion of an expression, from its shape. */
  function ExpandCronExpr(expression: string, minRange: int, maxRange: int, position: string): (r: Result<string>)
    ensures r.Failure? ==> FieldError(r.error)
  {
    match Classify(expression)
    case All =>
      Success(StringRange(minRange, maxRange, 1))
    case Range(a, b) =>
      (match Atoi(a)
       case Failure(_) => Failure(FieldParseFailure(position, a))
       case Success(first) =>
         match Atoi(b)
         case Failure(_) => Failure(FieldParseFailure(position, b))
         case Success(last) =>
           if first > last then Failure(InvalidRange(position, expression))
           else Success(StringRange(first, last, 1)))
    case AllStep(n) =>
      (match Atoi(n)
       case Failure(_) => Failure(FieldParseFailure(position, n))
       case Success(step) =>
         if step != 0 then Success(StringRange(minRange, maxRange, step))
         else if minRange == 0 || maxRange >= 1 then Failure(DivisionByZero)
         else Success(""))
    case List(_) =>
      Success(ReplaceAll(expression, ',', ' '))
    case Single(_) =>
      Success(expression)
    case Unrecognised =>
      Failure(NotRecognisable(position))
  }

  /** What every successful expansion looks like: digits and spaces only,
      and each space-separated token a decimal within the bounds. */
  ghost predicate WellFormedExpansion(out: string, minRange: int, maxRange: int) {
    && (forall i :: 0 <= i < |out| ==> IsDigit(out[i]) || out[i] == ' ')
    && var tokens := Split(out, ' ');
       forall k :: 0 <= k < |tokens| ==> IsNumeral(tokens[k]) && minRange <= DecimalValue(tokens[k]) <= maxRange
  }

  // ---------------------------------------------------------------------
  // validateAndExtractArgs

  /** The five cron fields, with the bounds and name `validateAndExtractArgs`
      passes for each to `validateCronExpr` and `expandCronExpr`. */
  datatype Position = Minute | Hour | DayOfMonth | Month | DayOfWeek {
    function MinRange(): int {
      match this
      case Minute => 0
      case Hour => 0
      case DayOfMonth => 1
      case Month => 1
      case DayOfWeek => 0
    }

    function MaxRange(): int {
      match this
      case Minute => 59
      case Hour => 23
      case DayOfMonth => 31
      case Month => 12
      case DayOfWeek => 6
    }

    function Name(): string {
      match this
      case Minute => "minute"
      case Hour => "hour"
      case DayOfMonth => "day of month"
      case Month => "month"
      case DayOfWeek => "day of week"
    }
  }

  /** The field at argument index `index`. */
  function PositionAt(index: nat): Position
    requires index < 5
  {
    if index == 0 then Minute
    else if index == 1 then Hour
    else if index == 2 then DayOfMonth
    else if index == 3 then Month
    else DayOfWeek
  }

  /** Validating a field and, if that passes, expanding it. */
  function ProcessField(arg: string, p: Position): (r: Result<string>)
    ensures r.Failure? ==> FieldError(r.error)
  {
    match ValidateCronExpr(arg, p.MinRange(), p.MaxRange(), p.Name())
    case Fail(e) => Failure(e)
    case Pass => ExpandCronExpr(arg, p.MinRange(), p.MaxRange(), p.Name())
  }

  /** What happens to argument `index` on its own: an empty argument is an
      error, a field is validated and expanded, the command is kept. */
  function ArgOutcome(args: seq<string>, index: nat): (r: Result<string>)
    requires index < |args|
    ensures r.Failure? ==> r.error != InvalidArgumentCount
    ensures r.Failure? && r.error == EmptyArgument <==> args[index] == ""
  {
    if args[index] == "" then Failure(EmptyArgument)
    else if index < 5 then ProcessField(args[index], PositionAt(index))
    else Success(args[index])
  }

  /** The outcome of every argument, in position order. */
  function ArgOutcomes(args: seq<string>): (outcomes: seq<Result<string>>)
    ensures |outcomes| == |args|
    ensures forall i :: 0 <= i < |args| ==> outcomes[i] == ArgOutcome(args, i)
  {
    seq(|args|, i requires 0 <= i < |args| => ArgOutcome(args, i))
  }

  /** The error of the first of the first `n` outcomes that is a failure,
      if any. */
  function FirstFailure(outcomes: seq<Result<string>>, n: nat): (o: Outcome)
    requires n <= |outcomes|
    ensures o.Pass? <==> forall i :: 0 <= i < n ==> outcomes[i].Success?
    ensures o.Fail? ==> Failure(o.error) in outcomes[..n]
  {
    if n == 0 then
      Pass
    else
      match FirstFailure(outcomes, n - 1)
      case Fail(e) =>
        assert outcomes[..n - 1] <= outcomes[..n];
        Fail(e)
      case Pass =>
        match outcomes[n - 1]
        case Failure(e) => Fail(e)
        case Success(_) => Pass
  }

  /** What `validateAndExtractArgs` returns, stated without its loop: the
      argument count, then the first argument, in position order, that
      fails; otherwise the record of the five expansions and the command. */
  function ExtractArgs(args: seq<string>): Result<Cronfmt> {
    if |args| != 6 then
      Failure(InvalidArgumentCount)
    else
      var outcomes := ArgOutcomes(args);
      match FirstFailure(outcomes, 6)
      case Fail(e) => Failure(e)
      case Pass =>
        Success(Cronfmt(
          outcomes[0].value, outcomes[1].value, outcomes[2].value,
          outcomes[3].value, outcomes[4].value, args[5]))
  }

  /** `validateAndExtractArgs`: the loop over the arguments that validates
      and expands each field into the record, returning at the first
      error, and copies the command on every round. */
  method ValidateAndExtractArgs(args: seq<string>) returns (r: Result<Cronfmt>)
    ensures r == ExtractArgs(args)
  {
    if |args| != 6 {
      return Failure(InvalidArgumentCount);
    }
    ghost var outcomes := ArgOutcomes(args);
    var cronfmt := Cronfmt("", "", "", "", "", "");
    for index := 0 to |args|
      invariant FirstFailure(outcomes, index) == Pass
      invariant index > 0 ==> cronfmt.Minute == outcomes[0].value
      invariant index > 1 ==> cronfmt.Hour == outcomes[1].value
      invariant index > 2 ==> cronfmt.DayOfMonth == outcomes[2].value
      invariant index > 3 ==> cronfmt.Month == outcomes[3].value
      invariant index > 4 ==> cronfmt.DayOfWeek == outcomes[4].value
      invariant index > 0 ==> cronfmt.Command == args[5]
    {
      var arg := args[index];
      if arg == "" {
        FirstFailureStays(outcomes, index + 1, 6);
        return Failure(EmptyArgument);
      }
      if index < 5 {
        var position := PositionAt(index);
        var verdict := ValidateCronExpr(arg, position.MinRange(), position.MaxRange(), position.Name());
        if verdict.Fail? {
          FirstFailureStays(outcomes, index + 1, 6);
          return Failure(verdict.error);
        }
        var expanded := ExpandCronExpr(arg, position.MinRange(), position.MaxRange(), position.Name());
        if expanded.Failure? {
          FirstFailureStays(outcomes, index + 1, 6);
          return Failure(expanded.error);
        }
        assert outcomes[index] == expanded;
        match position
        case Minute => cronfmt := cronfmt.(Minute := expanded.value);
        case Hour => cronfmt := cronfmt.(Hour := expanded.value);
        case DayOfMonth => cronfmt := cronfmt.(DayOfMonth := expanded.value);
        case Month => cronfmt := cronfmt.(Month := expanded.value);
        case DayOfWeek => cronfmt := cronfmt.(DayOfWeek := expanded.value);
      }
      cronfmt := cronfmt.(Command := args[5]);
    }
    return Success(cronfmt);
  }

  /** Once an outcome has failed, later ones do not change which error is
      reported. */
  lemma {:induction false} FirstFailureStays(outcomes: seq<Result<string>>, k: nat, n: nat)
    requires k <= n <= |outcomes|
    requires FirstFailure(outcomes, k).Fail?
    ensures FirstFailure(outcomes, n) == FirstFailure(outcomes, k)
    decreases n - k
  {
    if k < n {
      FirstFailureStays(outcomes, k, n - 1);
    }
  }

  // ---------------------------------------------------------------------
  // Numbers and positions

  /** `strconv.Atoi` reads back what `strconv.Itoa` prints, up to the
      largest `int`, and fails on the next number. */
  lemma AtoiOfDecimal(n: nat)
    ensures n <= IntMax ==> Atoi(NatToDecimal(n)) == Success(n)
    ensures n > IntMax ==> Atoi(NatToDecimal(n)) == Failure(ParseFailure(NatToDecimal(n)))
  {
  }

  /** `strconv.Atoi` accepts leading zeros and ignores them, so `07` is
      read as `7`; only the error quotes the digits as written. */
  lemma AtoiLeadingZero(s: string)
    requires IsNumeral(s)
    ensures Atoi("0" + s).Success? <==> Atoi(s).Success?
    ensures Atoi(s).Success? ==> Atoi("0" + s) == Atoi(s)
  {
    DecimalLeadingZero(s);
  }

  /** The five positions carry five different names, so an error message
      names the field it is about. */
  lemma PositionNamesDistinct(p: Position, q: Position)
    ensures p.Name() == q.Name() <==> p == q
  {
  }
}
