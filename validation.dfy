/** What `validateCronExpr` (cmd/root.go) accepts and which error it gives
    for what it rejects, stated in terms of the characters of the
    expression rather than the order of its checks. */
module Validation {
  import opened Text
  import opened Utils
  import opened Root

  /** An expression passes exactly when it is made of cron characters only,
      its operators form one of the admitted combinations, and every digit
      run parses and lies within the bounds. */
  lemma ValidateAccepts(e: string, minRange: int, maxRange: int, position: string)
    ensures ValidateCronExpr(e, minRange, maxRange, position).Pass? <==>
              && MatchesCronSyntax(e)
              && OperatorsAllowed(e)
              && forall k :: 0 <= k < |DigitRuns(e)| ==> Accepted(DigitRuns(e)[k], minRange, maxRange)
  {
    OccursCounted(e);
  }

  /** Occurring and being counted at least once are the same. */
  lemma OccursCounted(e: string)
    ensures forall c :: c in e <==> multiset(e)[c] > 0
  {
  }

  /** Which error each operator rule gives, in the order the rules run:
      the character set first, then a `*` or `/` next to a `-` or `,`, then
      a repeated `*` or `/`, then a `-` next to a `,`, then a repeated `-`. */
  lemma ValidateErrors(e: string, minRange: int, maxRange: int, position: string)
    ensures var o := ValidateCronExpr(e, minRange, maxRange, position);
            !MatchesCronSyntax(e) ==> o == Fail(InvalidSyntax(e))
    ensures var o := ValidateCronExpr(e, minRange, maxRange, position);
            MatchesCronSyntax(e) && ('*' in e || '/' in e) && ('-' in e || ',' in e) ==>
              o == Fail(StarConflict(e))
    ensures var o := ValidateCronExpr(e, minRange, maxRange, position);
            MatchesCronSyntax(e) && '-' !in e && ',' !in e && (multiset(e)['*'] > 1 || multiset(e)['/'] > 1) ==>
              o == Fail(StarRepeated(e))
    ensures var o := ValidateCronExpr(e, minRange, maxRange, position);
            MatchesCronSyntax(e) && '*' !in e && '/' !in e && '-' in e && ',' in e ==>
              o == Fail(HyphenConflict(e))
    ensures var o := ValidateCronExpr(e, minRange, maxRange, position);
            MatchesCronSyntax(e) && '*' !in e && '/' !in e && ',' !in e && multiset(e)['-'] > 1 ==>
              o == Fail(HyphenRepeated(e))
  {
    OccursCounted(e);
  }

  /** The `*` and `/` clauses of the rule for `-` never decide anything:
      those combinations were already refused by the rule for `*` and `/`,
      so the conflict error for `-` always means a `-` next to a `,`. */
  lemma HyphenConflictMeansComma(e: string, minRange: int, maxRange: int, position: string)
    requires ValidateCronExpr(e, minRange, maxRange, position) == Fail(HyphenConflict(e))
    ensures '-' in e && ',' in e && '*' !in e && '/' !in e
  {
  }

  /** Once the character set and the operators pass, the first digit run
      that does not parse or lies outside the bounds gives the error. */
  lemma ValidateFirstRejected(e: string, minRange: int, maxRange: int, position: string, k: nat)
    requires MatchesCronSyntax(e) && OperatorsAllowed(e)
    requires k < |DigitRuns(e)|
    requires forall j :: 0 <= j < k ==> Accepted(DigitRuns(e)[j], minRange, maxRange)
    requires !Accepted(DigitRuns(e)[k], minRange, maxRange)
    ensures ValidateCronExpr(e, minRange, maxRange, position) == Fail(Rejection(DigitRuns(e)[k], position))
  {
    OccursCounted(e);
    CheckNumbersFirstRejected(DigitRuns(e), minRange, maxRange, position, k);
  }

  /** The loop over the numbers stops at the first one it rejects. */
  lemma {:induction false} CheckNumbersFirstRejected(numbers: seq<string>, minRange: int, maxRange: int, position: string, k: nat)
    requires forall j :: 0 <= j < |numbers| ==> IsNumeral(numbers[j])
    requires k < |numbers|
    requires forall j :: 0 <= j < k ==> Accepted(numbers[j], minRange, maxRange)
    requires !Accepted(numbers[k], minRange, maxRange)
    ensures CheckNumbers(numbers, minRange, maxRange, position) == Fail(Rejection(numbers[k], position))
  {
    if k > 0 {
      assert Accepted(numbers[0], minRange, maxRange);
      var rest := numbers[1..];
      assert forall j :: 0 <= j < k - 1 ==> rest[j] == numbers[j + 1];
      CheckNumbersFirstRejected(rest, minRange, maxRange, position, k - 1);
    }
  }
}
