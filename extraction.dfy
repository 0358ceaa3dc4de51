/** What `validateAndExtractArgs` (cmd/root.go) returns, argument by
    argument: the count check first, then the first failing argument in
    position order, and on success a record whose fields are the
    expansions of the five fields and whose command is the sixth argument. */
module Extraction {
  import opened Text
  import opened Utils
  import opened Root
  import opened Validation
  import opened Expansion

  /** The count is checked before anything else, and it is the only source
      of the count error. */
  lemma ExtractArgsCount(args: seq<string>)
    ensures ExtractArgs(args) == Failure(InvalidArgumentCount) <==> |args| != 6
  {
    if |args| == 6 {
      var outcomes := ArgOutcomes(args);
      var o := FirstFailure(outcomes, 6);
      if o.Fail? {
        var i :| 0 <= i < 6 && outcomes[i] == Failure(o.error);
        assert outcomes[i] == ArgOutcome(args, i);
      }
    }
  }

  /** With six arguments, an argument that fails while every argument
      before it succeeds decides the error, whatever follows it. */
  lemma ExtractArgsFirstFailure(args: seq<string>, k: nat)
    requires |args| == 6 && k < 6
    requires forall i :: 0 <= i < k ==> ArgOutcome(args, i).Success?
    requires ArgOutcome(args, k).Failure?
    ensures ExtractArgs(args) == Failure(ArgOutcome(args, k).error)
  {
    var outcomes := ArgOutcomes(args);
    assert FirstFailure(outcomes, k) == Pass;
    assert FirstFailure(outcomes, k + 1) == Fail(ArgOutcome(args, k).error);
    FirstFailureStays(outcomes, k + 1, 6);
  }

  /** An empty argument is reported as such once every argument before it
      succeeds, including an empty command after five good fields. */
  lemma ExtractArgsEmpty(args: seq<string>, k: nat)
    requires |args| == 6 && k < 6
    requires forall i :: 0 <= i < k ==> ArgOutcome(args, i).Success?
    requires args[k] == ""
    ensures ExtractArgs(args) == Failure(EmptyArgument)
  {
    ExtractArgsFirstFailure(args, k);
  }

  /** A field error is reported for the position where it arises, and only
      when every earlier argument succeeds. */
  lemma ExtractArgsFieldError(args: seq<string>, k: nat)
    requires |args| == 6 && k < 5
    requires forall i :: 0 <= i < k ==> ArgOutcome(args, i).Success?
    requires args[k] != ""
    requires ProcessField(args[k], PositionAt(k)).Failure?
    ensures ExtractArgs(args) == Failure(ProcessField(args[k], PositionAt(k)).error)
    ensures FieldError(ExtractArgs(args).error)
  {
    ExtractArgsFirstFailure(args, k);
  }

  /** Extraction succeeds exactly when there are six arguments and all of
      them succeed. */
  lemma ExtractArgsSuccess(args: seq<string>)
    ensures ExtractArgs(args).Success? <==>
              |args| == 6 && forall i :: 0 <= i < 6 ==> ArgOutcome(args, i).Success?
  {
    if |args| == 6 {
      var outcomes := ArgOutcomes(args);
      assert forall i :: 0 <= i < 6 ==> outcomes[i] == ArgOutcome(args, i);
    }
  }

  /** A successful record holds, in each field, that field's expansion
      under its position's bounds, and the command unchanged; no argument
      was empty. */
  lemma ExtractArgsRecord(args: seq<string>)
    requires ExtractArgs(args).Success?
    ensures forall i :: 0 <= i < 6 ==> args[i] != ""
    ensures ProcessField(args[0], Minute).Success?
    ensures ProcessField(args[1], Hour).Success?
    ensures ProcessField(args[2], DayOfMonth).Success?
    ensures ProcessField(args[3], Month).Success?
    ensures ProcessField(args[4], DayOfWeek).Success?
    ensures var c := ExtractArgs(args).value;
            && c.Minute == ProcessField(args[0], Minute).value
            && c.Hour == ProcessField(args[1], Hour).value
            && c.DayOfMonth == ProcessField(args[2], DayOfMonth).value
            && c.Month == ProcessField(args[3], Month).value
            && c.DayOfWeek == ProcessField(args[4], DayOfWeek).value
            && c.Command == args[5]
  {
    ExtractArgsSuccess(args);
    var outcomes := ArgOutcomes(args);
    forall i | 0 <= i < 6 ensures args[i] != "" {
      assert outcomes[i] == ArgOutcome(args, i);
    }
    assert outcomes[0] == ProcessField(args[0], Minute);
    assert outcomes[1] == ProcessField(args[1], Hour);
    assert outcomes[2] == ProcessField(args[2], DayOfMonth);
    assert outcomes[3] == ProcessField(args[3], Month);
    assert outcomes[4] == ProcessField(args[4], DayOfWeek);
  }

  /** A field that validates and expands holds only decimals within its
      position's bounds, separated by single spaces. */
  lemma FieldWellFormed(arg: string, p: Position)
    requires ProcessField(arg, p).Success?
    ensures WellFormedExpansion(ProcessField(arg, p).value, p.MinRange(), p.MaxRange())
  {
    ExpandedFieldWellFormed(arg, p.MinRange(), p.MaxRange(), p.Name());
  }

  /** Each field of a successful extraction holds only decimals within its
      position's bounds (0-59, 0-23, 1-31, 1-12 and 0-6), separated by
      single spaces. */
  lemma ExtractArgsWellFormed(args: seq<string>)
    requires ExtractArgs(args).Success?
    ensures forall p: Position ::
              WellFormedExpansion(ExtractArgs(args).value.Get(p), p.MinRange(), p.MaxRange())
  {
    ExtractArgsRecord(args);
    forall p: Position
      ensures WellFormedExpansion(ExtractArgs(args).value.Get(p), p.MinRange(), p.MaxRange())
    {
      match p
      case Minute => FieldWellFormed(args[0], p);
      case Hour => FieldWellFormed(args[1], p);
      case DayOfMonth => FieldWellFormed(args[2], p);
      case Month => FieldWellFormed(args[3], p);
      case DayOfWeek => FieldWellFormed(args[4], p);
    }
  }
}
