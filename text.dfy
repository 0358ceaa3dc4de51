/** The string operations the cron model is built from, over strings of
    `char`: ASCII decimal digits (`\d` in Go's regular expressions is ASCII
    only), the value of a string of digits and the decimal text of a number
    (`strconv.Itoa`), joining on one separator character (`strings.Join`),
    replacing one character by another (`strings.ReplaceAll` with
    one-character arguments) and the maximal digit runs that `\d+` finds.
    Splitting on one character is the model's own way of taking apart the
    shapes the cron patterns recognise; the Go code never splits. */
module Text {

  predicate IsDigit(c: char) {
    '0' <= c <= '9'
  }

  /** One or more decimal digits: what `^\d+$` matches. */
  predicate IsNumeral(s: string) {
    |s| > 0 && forall i :: 0 <= i < |s| ==> IsDigit(s[i])
  }

  function DigitValue(c: char): (d: nat)
    requires IsDigit(c)
    ensures d < 10
  {
    c as int - '0' as int
  }

  function DigitChar(d: nat): (c: char)
    requires d < 10
    ensures IsDigit(c) && DigitValue(c) == d
  {
    ('0' as int + d) as char
  }

  /** The value of a string of decimal digits; leading zeros are allowed,
      as `strconv.Atoi` allows them. */
  function DecimalValue(s: string): nat
    requires forall i :: 0 <= i < |s| ==> IsDigit(s[i])
  {
    if s == [] then 0 else DecimalValue(s[..|s| - 1]) * 10 + DigitValue(s[|s| - 1])
  }

  /** The decimal text of `n` with no leading zero, as `strconv.Itoa` and
      `fmt.Sprint` print a non-negative integer. */
  function NatToDecimal(n: nat): (s: string)
    ensures IsNumeral(s)
    ensures DecimalValue(s) == n
    ensures |s| > 1 ==> s[0] != '0'
  {
    if n < 10 then
      [DigitChar(n)]
    else
      var s := NatToDecimal(n / 10) + [DigitChar(n % 10)];
      assert s[..|s| - 1] == NatToDecimal(n / 10);
      s
  }

  /** A leading zero does not change the value read. */
  lemma {:induction false} DecimalLeadingZero(s: string)
    requires forall i :: 0 <= i < |s| ==> IsDigit(s[i])
    ensures DecimalValue("0" + s) == DecimalValue(s)
    decreases |s|
  {
    if s != [] {
      var t := "0" + s;
      assert t[..|t| - 1] == "0" + s[..|s| - 1];
      DecimalLeadingZero(s[..|s| - 1]);
    }
  }

  /** A number from 10 to 99 is printed as its tens digit and its units
      digit. */
  lemma TwoDigitDecimal(n: nat)
    requires 10 <= n < 100
    ensures NatToDecimal(n) == [DigitChar(n / 10), DigitChar(n % 10)]
  {
  }

  /** The parts of `s` between occurrences of `sep`, as `strings.Split`
      returns them: there is always at least one part, and a part may be
      empty. */
  function Split(s: string, sep: char): (parts: seq<string>)
    ensures |parts| >= 1
    ensures forall k :: 0 <= k < |parts| ==> sep !in parts[k]
  {
    if s == [] then
      [""]
    else
      var rest := Split(s[1..], sep);
      if s[0] == sep then [""] + rest else [[s[0]] + rest[0]] + rest[1..]
  }

  /** The parts glued together with `sep` between neighbours, as
      `strings.Join` does. */
  function Join(parts: seq<string>, sep: char): string {
    if parts == [] then ""
    else if |parts| == 1 then parts[0]
    else parts[0] + [sep] + Join(parts[1..], sep)
  }

  /** A join starts with its first part. */
  lemma JoinStartsWithFirst(parts: seq<string>, sep: char)
    requires parts != []
    ensures |Join(parts, sep)| >= |parts[0]| && Join(parts, sep)[..|parts[0]|] == parts[0]
  {
  }

  /** `s` with every occurrence of `from` replaced by `to`. */
  function ReplaceAll(s: string, from: char, to: char): (r: string)
    ensures |r| == |s|
    ensures forall i :: 0 <= i < |s| ==> r[i] == if s[i] == from then to else s[i]
  {
    if s == [] then [] else [if s[0] == from then to else s[0]] + ReplaceAll(s[1..], from, to)
  }

  /** The length of the run of digits at the start of `s`. */
  function LeadingDigits(s: string): (n: nat)
    ensures n <= |s|
    ensures forall i :: 0 <= i < n ==> IsDigit(s[i])
    ensures n < |s| ==> !IsDigit(s[n])
  {
    if s == [] || !IsDigit(s[0]) then 0 else 1 + LeadingDigits(s[1..])
  }

  /** The maximal runs of digits in `s`, from left to right: what Go's
      `regexp.MustCompile(`\d+`).FindAllString(s, -1)` returns. */
  function DigitRuns(s: string): (runs: seq<string>)
    ensures forall k :: 0 <= k < |runs| ==> IsNumeral(runs[k])
    decreases |s|
  {
    if s == [] then []
    else if !IsDigit(s[0]) then DigitRuns(s[1..])
    else
      var n := LeadingDigits(s);
      [s[..n]] + DigitRuns(s[n..])
  }

  // ---------------------------------------------------------------------
  // Splitting and joining

  /** A string without the separator is a single part. */
  lemma {:induction false} SplitWithoutSeparator(s: string, sep: char)
    requires sep !in s
    ensures Split(s, sep) == [s]
  {
    if s != [] {
      SplitWithoutSeparator(s[1..], sep);
      assert [s[0]] + s[1..] == s;
    }
  }

  /** Splitting at the first separator gives the text before it as the
      first part. */
  lemma {:induction false} SplitAtSeparator(a: string, sep: char, b: string)
    requires sep !in a
    ensures Split(a + [sep] + b, sep) == [a] + Split(b, sep)
  {
    var s := a + [sep] + b;
    if a == [] {
      assert s[0] == sep && s[1..] == b;
    } else {
      assert s[0] == a[0] && s[1..] == a[1..] + [sep] + b;
      SplitAtSeparator(a[1..], sep, b);
      assert [a[0]] + a[1..] == a;
    }
  }

  /** Joining the parts of a split gives the string back. */
  lemma {:induction false} JoinSplit(s: string, sep: char)
    ensures Join(Split(s, sep), sep) == s
  {
    if s != [] {
      JoinSplit(s[1..], sep);
      var rest := Split(s[1..], sep);
      if s[0] == sep {
        assert Split(s, sep) == [""] + rest;
        assert ([""] + rest)[1..] == rest;
        assert s == [] + [sep] + s[1..];
      } else {
        var parts := [[s[0]] + rest[0]] + rest[1..];
        assert Split(s, sep) == parts;
        if |rest| == 1 {
          assert s == [s[0]] + rest[0];
        } else {
          assert rest == [rest[0]] + rest[1..];
          assert Join(rest, sep) == rest[0] + [sep] + Join(rest[1..], sep);
          assert parts[1..] == rest[1..];
          assert s == [s[0]] + s[1..];
        }
      }
    }
  }

  /** Splitting a join of separator-free parts gives the parts back. */
  lemma {:induction false} SplitJoin(parts: seq<string>, sep: char)
    requires |parts| >= 1
    requires forall k :: 0 <= k < |parts| ==> sep !in parts[k]
    ensures Split(Join(parts, sep), sep) == parts
  {
    if |parts| == 1 {
      SplitWithoutSeparator(parts[0], sep);
    } else {
      SplitJoin(parts[1..], sep);
      SplitAtSeparator(parts[0], sep, Join(parts[1..], sep));
      assert [parts[0]] + parts[1..] == parts;
    }
  }

  /** A join of parts that lack `from` turns into the join on `to` when
      every `from` is replaced by `to`. */
  lemma {:induction false} ReplaceJoin(parts: seq<string>, from: char, to: char)
    requires forall k :: 0 <= k < |parts| ==> from !in parts[k]
    ensures ReplaceAll(Join(parts, from), from, to) == Join(parts, to)
  {
    if |parts| == 1 {
      assert ReplaceAll(parts[0], from, to) == parts[0];
    } else if |parts| > 1 {
      ReplaceJoin(parts[1..], from, to);
      var tail := Join(parts[1..], from);
      var s := parts[0] + [from] + tail;
      var r := ReplaceAll(s, from, to);
      var e := parts[0] + [to] + ReplaceAll(tail, from, to);
      assert |r| == |e|;
      forall i | 0 <= i < |r| ensures r[i] == e[i] {
        if i < |parts[0]| {
          assert s[i] == parts[0][i];
        } else if i > |parts[0]| {
          assert s[i] == tail[i - |parts[0]| - 1];
        }
      }
    }
  }

  // ---------------------------------------------------------------------
  // Digit runs

  /** A digit run at the start stops at a non-digit, whatever follows it. */
  lemma {:induction false} LeadingDigitsBeforeNonDigit(a: string, c: char, b: string)
    requires !IsDigit(c)
    ensures LeadingDigits(a + [c] + b) == LeadingDigits(a)
  {
    var s := a + [c] + b;
    if a != [] {
      assert s[0] == a[0] && s[1..] == a[1..] + [c] + b;
      LeadingDigitsBeforeNonDigit(a[1..], c, b);
    }
  }

  /** A numeral is one digit run. */
  lemma NumeralDigitRuns(s: string)
    requires IsNumeral(s)
    ensures DigitRuns(s) == [s]
  {
    var n := LeadingDigits(s);
    assert n == |s|;
    assert s[..n] == s && s[n..] == [];
  }

  /** Runs never cross a non-digit: the runs of `a + [c] + b` are those of
      `a` followed by those of `b`. */
  lemma {:induction false} DigitRunsAtNonDigit(a: string, c: char, b: string)
    requires !IsDigit(c)
    ensures DigitRuns(a + [c] + b) == DigitRuns(a) + DigitRuns(b)
    decreases |a|
  {
    var s := a + [c] + b;
    if a == [] {
      assert s[0] == c && s[1..] == b;
    } else if !IsDigit(a[0]) {
      assert s[0] == a[0] && s[1..] == a[1..] + [c] + b;
      DigitRunsAtNonDigit(a[1..], c, b);
    } else {
      var n := LeadingDigits(a);
      LeadingDigitsBeforeNonDigit(a, c, b);
      assert s[..n] == a[..n];
      assert s[n..] == a[n..] + [c] + b;
      DigitRunsAtNonDigit(a[n..], c, b);
    }
  }

  /** The digit runs of a comma-separated list of numerals are the
      numerals themselves. */
  lemma {:induction false} DigitRunsOfJoin(parts: seq<string>, sep: char)
    requires !IsDigit(sep)
    requires |parts| >= 1
    requires forall k :: 0 <= k < |parts| ==> IsNumeral(parts[k])
    ensures DigitRuns(Join(parts, sep)) == parts
  {
    if |parts| == 1 {
      NumeralDigitRuns(parts[0]);
    } else {
      DigitRunsOfJoin(parts[1..], sep);
      NumeralDigitRuns(parts[0]);
      DigitRunsAtNonDigit(parts[0], sep, Join(parts[1..], sep));
      assert [parts[0]] + parts[1..] == parts;
    }
  }

  /** A non-digit does not occur in a numeral. */
  lemma NumeralExcludes(s: string, c: char)
    requires IsNumeral(s) && !IsDigit(c)
    ensures c !in s
  {
  }

  /** Joining numerals gives digits and separators only. */
  lemma {:induction false} JoinOfNumerals(parts: seq<string>, sep: char)
    requires forall k :: 0 <= k < |parts| ==> IsNumeral(parts[k])
    ensures forall i :: 0 <= i < |Join(parts, sep)| ==> IsDigit(Join(parts, sep)[i]) || Join(parts, sep)[i] == sep
  {
    if |parts| > 1 {
      JoinOfNumerals(parts[1..], sep);
      var tail := Join(parts[1..], sep);
      var s := parts[0] + [sep] + tail;
      forall i | 0 <= i < |s| ensures IsDigit(s[i]) || s[i] == sep {
        if i < |parts[0]| {
          assert s[i] == parts[0][i];
        } else if i > |parts[0]| {
          assert s[i] == tail[i - |parts[0]| - 1];
        }
      }
    }
  }
}
