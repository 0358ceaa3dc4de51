/** cmd/utils.go: whether a character occurs in a string, how often it
    occurs, and `createStringRange`, the generator behind the
    wildcard, stepped-wildcard and range cron fields. */
module Utils {
  import opened Text

  /** `isSubstring(str, pattern)` for the one-character patterns the
      validator passes (`\*`, `/`, `-`, `,`): whether the character occurs
      in the string. */
  function IsSubstring(str: string, c: char): (found: bool)
    ensures found <==> c in str
  {
    if str == [] then false else str[0] == c || IsSubstring(str[1..], c)
  }

  /** `getMatchesLength(str, pattern)` for a one-character pattern: the
      number of matches, which is the number of occurrences. */
  function MatchesLength(str: string, c: char): (n: nat)
    ensures n == multiset(str)[c]
    ensures n > 0 <==> IsSubstring(str, c)
  {
    if str == [] then
      0
    else
      assert str == [str[0]] + str[1..];
      (if str[0] == c then 1 else 0) + MatchesLength(str[1..], c)
  }

  predicate StrictlyAscending(s: seq<nat>) {
    forall i, j :: 0 <= i < j < |s| ==> s[i] < s[j]
  }

  /** The consecutive integers `lo, lo + 1, ..., hi`; empty when `hi < lo`. */
  function Interval(lo: nat, hi: int): (r: seq<nat>)
    ensures |r| == if hi < lo then 0 else hi - lo + 1
    ensures forall k :: 0 <= k < |r| ==> r[k] == lo + k
    decreases hi - lo
  {
    if hi < lo then [] else Interval(lo, hi - 1) + [hi]
  }

  /** What the counting loop of `createStringRange` appends: the `i` in
      `[1, n]` with `i % step == 0`, in the order the loop meets them. */
  function MultiplesUpTo(n: int, step: int): seq<nat>
    requires step >= 1
    decreases n
  {
    if n < 1 then [] else MultiplesUpTo(n - 1, step) + (if n % step == 0 then [n] else [])
  }

  /** The values `createStringRange(minRange, maxRange, step)` collects in
      `sliceRange`: a leading `0` when `minRange == 0` and `step` divides
      `maxRange + 1`, then the multiples of `step` in `[1, maxRange]`. Any
      other `minRange` is overwritten with 1 before the loop, so it has no
      effect. Go's `%` truncates where Dafny's is Euclidean; the two agree
      on whether the remainder is zero, which is all `createStringRange`
      asks. */
  function RangeValues(minRange: int, maxRange: int, step: int): seq<nat>
    requires step >= 1
  {
    (if minRange == 0 && (maxRange + 1) % step == 0 then [0] else []) + MultiplesUpTo(maxRange, step)
  }

  /** The decimal text of each value. */
  function Decimals(values: seq<nat>): (strs: seq<string>)
    ensures |strs| == |values|
    ensures forall k :: 0 <= k < |values| ==> strs[k] == NatToDecimal(values[k])
  {
    if values == [] then [] else [NatToDecimal(values[0])] + Decimals(values[1..])
  }

  /** The text `createStringRange` builds from its slice with
      `fmt.Sprint`, `strings.Fields`, `strings.Join` and
      `strings.Trim(.., "[]")`: the decimals separated by single spaces,
      and the empty string for an empty slice. */
  function FormatRange(values: seq<nat>): string {
    Join(Decimals(values), ' ')
  }

  /** The text `createStringRange(minRange, maxRange, step)` returns. */
  function StringRange(minRange: int, maxRange: int, step: int): string
    requires step >= 1
  {
    FormatRange(RangeValues(minRange, maxRange, step))
  }

  /** `createStringRange`: the counting loop from 1 to `maxRange`, after
      the optional leading `0`. A `step` of 0 divides by zero in
      `createStringRange` as soon as the `(maxRange+1)%step` test is reached
      (`minRange == 0`) or the loop body runs once (`maxRange >= 1`);
      otherwise nothing is collected and the text is empty. Callers never
      pass a negative step. */
  method CreateStringRange(minRange: int, maxRange: int, step: int) returns (s: string)
    requires step >= 1 || (step == 0 && minRange != 0 && maxRange < 1)
    ensures s == if step == 0 then "" else StringRange(minRange, maxRange, step)
  {
    var sliceRange: seq<nat> := [];
    var start := minRange;
    if minRange == 0 && (maxRange + 1) % step == 0 {
      start := 1;
      sliceRange := sliceRange + [0];
    } else {
      start := 1;
    }
    ghost var head := sliceRange;
    var i := start;
    while i <= maxRange
      invariant 1 <= i <= if maxRange < 1 then 1 else maxRange + 1
      invariant step >= 1 ==> sliceRange == head + MultiplesUpTo(i - 1, step)
      invariant step == 0 ==> sliceRange == []
    {
      if i % step == 0 {
        sliceRange := sliceRange + [i];
      }
      i := i + 1;
    }
    s := FormatRange(sliceRange);
  }

  // ---------------------------------------------------------------------
  // What createStringRange emits

  /** The counting loop appends exactly the multiples of `step` in
      `[1, n]`, each once, in ascending order. */
  lemma {:induction false} MultiplesUpToMembers(n: int, step: int)
    requires step >= 1
    ensures forall x: int :: x in MultiplesUpTo(n, step) <==> 1 <= x <= n && x % step == 0
    ensures StrictlyAscending(MultiplesUpTo(n, step))
    ensures forall k :: 0 <= k < |MultiplesUpTo(n, step)| ==> 1 <= MultiplesUpTo(n, step)[k] <= n
    decreases n
  {
    if n >= 1 {
      MultiplesUpToMembers(n - 1, step);
    }
  }

  /** A value is emitted exactly when it is the special leading zero or a
      multiple of `step` in `[1, maxRange]`. */
  lemma RangeValuesMembers(minRange: int, maxRange: int, step: int, x: int)
    requires step >= 1
    ensures x in RangeValues(minRange, maxRange, step) <==>
              (x == 0 && minRange == 0 && (maxRange + 1) % step == 0)
              || (1 <= x <= maxRange && x % step == 0)
  {
    MultiplesUpToMembers(maxRange, step);
  }

  /** The values come out in strictly ascending order, so none repeats. */
  lemma RangeValuesAscending(minRange: int, maxRange: int, step: int)
    requires step >= 1
    ensures StrictlyAscending(RangeValues(minRange, maxRange, step))
  {
    MultiplesUpToMembers(maxRange, step);
    var m := MultiplesUpTo(maxRange, step);
    if minRange == 0 && (maxRange + 1) % step == 0 {
      var r := [0] + m;
      forall i, j | 0 <= i < j < |r| ensures r[i] < r[j] {
        if i > 0 {
          assert r[i] == m[i - 1] && r[j] == m[j - 1];
        } else {
          assert r[j] == m[j - 1];
        }
      }
    }
  }

  /** The first value is `0` exactly when `minRange == 0` and `step`
      divides `maxRange + 1`; `0` appears nowhere else. */
  lemma RangeValuesLeadingZero(minRange: int, maxRange: int, step: int)
    requires step >= 1
    ensures var r := RangeValues(minRange, maxRange, step);
            (|r| > 0 && r[0] == 0) <==> minRange == 0 && (maxRange + 1) % step == 0
    ensures 0 in RangeValues(minRange, maxRange, step) ==> minRange == 0
  {
    MultiplesUpToMembers(maxRange, step);
    var r := RangeValues(minRange, maxRange, step);
    var m := MultiplesUpTo(maxRange, step);
    if !(minRange == 0 && (maxRange + 1) % step == 0) {
      assert r == m;
      if |r| > 0 {
        assert r[0] in m;
      }
    }
  }

  /** Whatever `minRange` is, the result lies in `[0, maxRange]`; a
      non-zero `minRange` gives the same result as `minRange == 1`. */
  lemma RangeValuesBounds(minRange: int, maxRange: int, step: int)
    requires step >= 1 && maxRange >= 0
    ensures forall k :: 0 <= k < |RangeValues(minRange, maxRange, step)| ==>
              RangeValues(minRange, maxRange, step)[k] <= maxRange
    ensures minRange != 0 ==> RangeValues(minRange, maxRange, step) == RangeValues(1, maxRange, step)
  {
    var r := RangeValues(minRange, maxRange, step);
    forall k | 0 <= k < |r| ensures r[k] <= maxRange {
      assert r[k] in r;
      RangeValuesMembers(minRange, maxRange, step, r[k]);
    }
  }

  /** A non-zero multiple of `a` is at least `a` away from 0. */
  lemma {:induction false} MultipleAwayFromZero(a: int, d: int)
    requires a >= 1
    ensures d >= 1 ==> a * d >= a
    ensures d <= -1 ==> a * d <= -a
    decreases if d < 0 then -d else d
  {
    if d > 1 {
      MultipleAwayFromZero(a, d - 1);
      assert a * d == a * (d - 1) + a;
    } else if d < -1 {
      MultipleAwayFromZero(a, d + 1);
      assert a * d == a * (d + 1) - a;
    }
  }

  /** Euclidean division is unique: a quotient and a remainder in
      `[0, step)` that rebuild `x` are `x / step` and `x % step`. */
  lemma DivUnique(x: int, step: int, q: int, r: int)
    requires step >= 1 && x == step * q + r && 0 <= r < step
    ensures x / step == q && x % step == r
  {
    var q', r' := x / step, x % step;
    assert step * (q' - q) == r - r';
    MultipleAwayFromZero(step, q' - q);
  }

  /** How the quotient by `step` moves from `n - 1` to `n`. */
  lemma DivByStep(n: int, step: int)
    requires n >= 1 && step >= 1
    ensures n % step == 0 ==> n / step == (n - 1) / step + 1 && n == (n / step) * step
    ensures n % step != 0 ==> n / step == (n - 1) / step
  {
    var q, r := (n - 1) / step, (n - 1) % step;
    if r == step - 1 {
      DivUnique(n, step, q + 1, 0);
    } else {
      DivUnique(n, step, q, r + 1);
    }
  }

  /** The loop appends `step, 2 * step, ...`: the `k`-th value appended
      is `(k + 1) * step`, and there are `n / step` of them. */
  lemma {:induction false} MultiplesClosedForm(n: int, step: int)
    requires step >= 1 && n >= 0
    ensures |MultiplesUpTo(n, step)| == n / step
    ensures forall k :: 0 <= k < |MultiplesUpTo(n, step)| ==> MultiplesUpTo(n, step)[k] == (k + 1) * step
    decreases n
  {
    if n >= 1 {
      MultiplesClosedForm(n - 1, step);
      DivByStep(n, step);
    }
  }

  /** How many values `createStringRange` collects: the leading `0` if
      any, and then one for every multiple of `step` in `[1, maxRange]`. */
  lemma RangeValuesCount(minRange: int, maxRange: int, step: int)
    requires step >= 1
    ensures |RangeValues(minRange, maxRange, step)| ==
              (if minRange == 0 && (maxRange + 1) % step == 0 then 1 else 0)
              + (if maxRange < 0 then 0 else maxRange / step)
  {
    if maxRange >= 0 {
      MultiplesClosedForm(maxRange, step);
    }
  }

  /** The text is empty exactly when no value is collected; otherwise it
      starts with the first value's decimal. */
  lemma StringRangeEmpty(minRange: int, maxRange: int, step: int)
    requires step >= 1
    ensures StringRange(minRange, maxRange, step) == "" <==> RangeValues(minRange, maxRange, step) == []
  {
    var values := RangeValues(minRange, maxRange, step);
    if values != [] {
      var strs := Decimals(values);
      assert strs[0] == NatToDecimal(values[0]);
      JoinStartsWithFirst(strs, ' ');
    }
  }

  /** With step 1 every integer of `[1, n]` is appended. */
  lemma {:induction false} MultiplesUnitStep(n: int)
    ensures MultiplesUpTo(n, 1) == Interval(1, n)
    decreases n
  {
    if n >= 1 {
      MultiplesUnitStep(n - 1);
    }
  }

  /** With `step == 1` the result is every integer from `0` (when
      `minRange == 0`) or from `1` (otherwise) up to `maxRange`. */
  lemma RangeValuesUnitStep(minRange: int, maxRange: int)
    requires maxRange >= 0
    ensures RangeValues(minRange, maxRange, 1) == Interval(if minRange == 0 then 0 else 1, maxRange)
  {
    var r := RangeValues(minRange, maxRange, 1);
    var e := Interval(if minRange == 0 then 0 else 1, maxRange);
    MultiplesUnitStep(maxRange);
    var m := MultiplesUpTo(maxRange, 1);
    if minRange == 0 {
      assert r == [0] + m;
      forall k | 0 <= k < |r| ensures r[k] == e[k] {
        if k > 0 {
          assert r[k] == m[k - 1];
        }
      }
    } else {
      assert r == m;
    }
  }

  /** The text has no brackets and no leading, trailing or doubled space:
      it is empty for no values, and otherwise splitting it at spaces gives
      back the decimal text of each value, in order. */
  lemma FormatRangeTokens(values: seq<nat>)
    ensures values == [] ==> FormatRange(values) == ""
    ensures values != [] ==> Split(FormatRange(values), ' ') == Decimals(values)
  {
    if values != [] {
      var strs := Decimals(values);
      forall k | 0 <= k < |strs| ensures ' ' !in strs[k] {
        assert IsNumeral(strs[k]);
      }
      SplitJoin(strs, ' ');
    }
  }

  /** The text of a slice of two or more values is the first value's
      decimal, a space, and the text of the rest. */
  lemma FormatRangeCons(v: nat, rest: seq<nat>)
    requires rest != []
    ensures FormatRange([v] + rest) == NatToDecimal(v) + " " + FormatRange(rest)
  {
    assert ([v] + rest)[1..] == rest;
  }
}
