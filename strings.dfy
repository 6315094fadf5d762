/** The pieces of Go's `strings`, `strconv`, `path/filepath` and `fmt` packages that the
    service relies on, written over `string` (a sequence of Unicode scalar values). */
module Strings {
  import opened Wrappers

  predicate HasPrefix(s: string, p: string) {
    |p| <= |s| && s[..|p|] == p
  }

  predicate HasSuffix(s: string, p: string) {
    |p| <= |s| && s[|s| - |p|..] == p
  }

  /** `sub` occurs in `s` starting at index `i`. */
  predicate OccursAt(s: string, sub: string, i: int) {
    0 <= i && i + |sub| <= |s| && s[i..i + |sub|] == sub
  }

  /** strings.Index started at position `i`: the first occurrence of `sub` at or after `i`. */
  function IndexFrom(s: string, sub: string, i: nat): (r: Option<nat>)
    decreases |s| - i
    ensures r.Some? ==> i <= r.value && OccursAt(s, sub, r.value)
    ensures r.Some? ==> forall j :: i <= j < r.value ==> !OccursAt(s, sub, j)
    ensures r.None? ==> forall j :: i <= j ==> !OccursAt(s, sub, j)
  {
    if i + |sub| > |s| then None
    else if s[i..i + |sub|] == sub then Some(i)
    else IndexFrom(s, sub, i + 1)
  }

  /** strings.Index, with None for Go's -1. */
  function Index(s: string, sub: string): Option<nat> {
    IndexFrom(s, sub, 0)
  }

  /** strings.Contains. */
  predicate Contains(s: string, sub: string) {
    Index(s, sub).Some?
  }

  lemma ContainsIff(s: string, sub: string)
    ensures Contains(s, sub) <==> exists i :: OccursAt(s, sub, i)
  {
  }

  /** A witness occurrence is enough to show `Contains`. */
  lemma ContainsAt(s: string, sub: string, i: int)
    requires OccursAt(s, sub, i)
    ensures Contains(s, sub)
  {
  }

  /** strings.Join. */
  function Join(xs: seq<string>, sep: string): string {
    if |xs| == 0 then ""
    else if |xs| == 1 then xs[0]
    else xs[0] + sep + Join(xs[1..], sep)
  }

  /** A joined list starts with the first non-empty first element's first character. */
  lemma JoinHead(xs: seq<string>, sep: string)
    requires |xs| >= 1 && |xs[0]| >= 1
    ensures |Join(xs, sep)| >= 1 && Join(xs, sep)[0] == xs[0][0]
  {
  }

  /** A joined list begins with its first element. */
  lemma JoinFirst(xs: seq<string>, sep: string)
    requires |xs| >= 1
    ensures HasPrefix(Join(xs, sep), xs[0])
  {
    if |xs| > 1 {
      assert (xs[0] + sep + Join(xs[1..], sep))[..|xs[0]|] == xs[0];
    }
  }

  /** strings.Split with a one-character separator. */
  function Split(s: string, sep: char): (r: seq<string>)
    ensures |r| >= 1
    ensures forall k :: 0 <= k < |r| ==> sep !in r[k]
  {
    if |s| == 0 then [""]
    else
      var rest := Split(s[1..], sep);
      if s[0] == sep then [""] + rest else [[s[0]] + rest[0]] + rest[1..]
  }

  /** Joining the pieces of a split with the separator gives back the input. */
  lemma {:induction false} JoinSplit(s: string, sep: char)
    ensures Join(Split(s, sep), [sep]) == s
  {
    if |s| > 0 {
      var rest := Split(s[1..], sep);
      JoinSplit(s[1..], sep);
      if s[0] == sep {
        assert Split(s, sep) == [""] + rest;
        assert ([""] + rest)[1..] == rest;
        assert s == [sep] + s[1..];
      } else {
        var r := Split(s, sep);
        assert r == [[s[0]] + rest[0]] + rest[1..];
        if |rest| == 1 {
          assert s == [s[0]] + s[1..];
        } else {
          assert r[1..] == rest[1..];
          assert s == [s[0]] + s[1..];
        }
      }
    }
  }

  lemma {:induction false} SplitPrefix(a: string, t: string, sep: char)
    requires sep !in a
    ensures Split(a + t, sep) == [a + Split(t, sep)[0]] + Split(t, sep)[1..]
  {
    if |a| > 0 {
      SplitPrefix(a[1..], t, sep);
      var r := Split(t, sep);
      var rest := Split(a[1..] + t, sep);
      assert (a + t)[0] == a[0] && a[0] != sep;
      assert (a + t)[1..] == a[1..] + t;
      assert Split(a + t, sep) == [[a[0]] + rest[0]] + rest[1..];
      assert rest[0] == a[1..] + r[0] && rest[1..] == r[1..];
      assert [a[0]] + (a[1..] + r[0]) == a + r[0];
    } else {
      var r := Split(t, sep);
      assert a + t == t;
      assert a + r[0] == r[0];
      assert [r[0]] + r[1..] == r;
    }
  }

  /** Splitting a join of separator-free pieces gives back the pieces. */
  lemma {:induction false} SplitJoin(xs: seq<string>, sep: char)
    requires |xs| >= 1
    requires forall k :: 0 <= k < |xs| ==> sep !in xs[k]
    ensures Split(Join(xs, [sep]), sep) == xs
  {
    if |xs| == 1 {
      SplitPrefix(xs[0], "", sep);
      assert xs[0] + "" == xs[0];
    } else {
      var t := [sep] + Join(xs[1..], [sep]);
      assert Join(xs, [sep]) == xs[0] + t;
      SplitPrefix(xs[0], t, sep);
      SplitJoin(xs[1..], sep);
      assert t[1..] == Join(xs[1..], [sep]);
      assert Split(t, sep) == [""] + xs[1..];
      assert xs[0] + "" == xs[0];
      assert xs == [xs[0]] + xs[1..];
    }
  }

  /** unicode.IsSpace: the White_Space characters of Unicode. */
  predicate IsSpace(c: char) {
    var n := c as int;
    n == 0x20 || (0x09 <= n <= 0x0D) || n == 0x85 || n == 0xA0 || n == 0x1680
    || (0x2000 <= n <= 0x200A) || n == 0x2028 || n == 0x2029 || n == 0x202F
    || n == 0x205F || n == 0x3000
  }

  /** Drops leading white space: the result is a suffix of `s`, everything dropped is
      white space and the result does not start with white space. */
  function TrimLeft(s: string): (r: string)
    ensures |r| <= |s| && r == s[|s| - |r|..]
    ensures forall k :: 0 <= k < |s| - |r| ==> IsSpace(s[k])
    ensures r != [] ==> !IsSpace(r[0])
  {
    if |s| > 0 && IsSpace(s[0]) then TrimLeft(s[1..]) else s
  }

  /** Drops trailing white space: the result is a prefix of `s`, everything dropped is
      white space and the result does not end with white space. */
  function TrimRight(s: string): (r: string)
    ensures |r| <= |s| && r == s[..|r|]
    ensures forall k :: |r| <= k < |s| ==> IsSpace(s[k])
    ensures r != [] ==> !IsSpace(r[|r| - 1])
  {
    if |s| > 0 && IsSpace(s[|s| - 1]) then TrimRight(s[..|s| - 1]) else s
  }

  /** strings.TrimSpace. */
  function TrimSpace(s: string): (r: string)
    ensures r != [] ==> !IsSpace(r[0]) && !IsSpace(r[|r| - 1])
    ensures r == [] <==> forall k :: 0 <= k < |s| ==> IsSpace(s[k])
  {
    var l := TrimLeft(s);
    assert l != [] ==> TrimRight(l) != [];
    TrimRight(l)
  }

  /** Neither end of `s` is white space. */
  predicate Trimmed(s: string) {
    s == [] || (!IsSpace(s[0]) && !IsSpace(s[|s| - 1]))
  }

  /** Trimming a string that does not start or end with white space changes nothing. */
  lemma TrimSpaceTrimmed(s: string)
    requires Trimmed(s)
    ensures TrimSpace(s) == s
  {
    assert TrimLeft(s) == s;
  }

  /** Trimming only removes characters. */
  lemma TrimSpaceWithin(s: string)
    ensures forall k :: 0 <= k < |TrimSpace(s)| ==> TrimSpace(s)[k] in s
  {
    var l := TrimLeft(s);
    forall k | 0 <= k < |TrimSpace(s)|
      ensures TrimSpace(s)[k] in s
    {
      assert TrimSpace(s)[k] == l[k];
      assert l[k] == s[|s| - |l| + k];
    }
  }

  /** ASCII upper case to lower case; every other character is kept. */
  function LowerChar(c: char): char {
    if 'A' <= c <= 'Z' then (c as int + 32) as char else c
  }

  /** strings.ToLower, restricted to the ASCII letters. */
  function ToLower(s: string): (r: string)
    ensures |r| == |s| && forall k :: 0 <= k < |s| ==> r[k] == LowerChar(s[k])
  {
    seq(|s|, k requires 0 <= k < |s| => LowerChar(s[k]))
  }

  /** Every dot of the path lies before some separator, so the last path element has
      no dot. */
  predicate NoDotInLastElement(path: string) {
    forall k :: 0 <= k < |path| && path[k] == '.' ==>
      exists j :: k < j < |path| && path[j] == '/'
  }

  /** The extension search of filepath.Ext, scanning backwards from position `i`
      (exclusive); the characters from `i` on are already known to be neither a
      separator nor a dot. */
  function ExtBefore(path: string, i: nat): (r: string)
    requires i <= |path|
    requires forall k :: i <= k < |path| ==> path[k] != '.' && path[k] != '/'
    ensures HasSuffix(path, r)
    ensures r == [] || (r[0] == '.' && forall k :: 1 <= k < |r| ==> r[k] != '.' && r[k] != '/')
    ensures r == [] ==> NoDotInLastElement(path)
  {
    if i == 0 then ""
    else if path[i - 1] == '/' then ""
    else if path[i - 1] == '.' then path[i - 1..]
    else ExtBefore(path, i - 1)
  }

  /** filepath.Ext on a slash-separated path: the suffix from the last dot of the last
      path element, or "" when that element has no dot. */
  function Ext(path: string): (r: string)
    ensures HasSuffix(path, r)
    ensures r == [] || (r[0] == '.' && forall k :: 1 <= k < |r| ==> r[k] != '.' && r[k] != '/')
    ensures r == [] ==> NoDotInLastElement(path)
  {
    ExtBefore(path, |path|)
  }

  /** Scanning back over characters that are neither dots nor separators does not
      change the extension found. */
  lemma {:induction false} ExtBeforeSkip(path: string, i: nat, j: nat)
    requires j <= i <= |path|
    requires forall k :: j <= k < |path| ==> path[k] != '.' && path[k] != '/'
    ensures ExtBefore(path, i) == ExtBefore(path, j)
  {
    if i > j {
      ExtBeforeSkip(path, i - 1, j);
    }
  }

  /** The extension of `stem.e` is `.e` when `e` holds no dot and no separator. */
  lemma ExtOf(stem: string, e: string)
    requires forall k :: 0 <= k < |e| ==> e[k] != '.' && e[k] != '/'
    ensures Ext(stem + "." + e) == "." + e
  {
    var path := stem + "." + e;
    ExtBeforeSkip(path, |path|, |stem| + 1);
    assert path[|stem|..] == "." + e;
  }

  /** strings.TrimSuffix. */
  function TrimSuffix(s: string, suffix: string): (r: string)
    ensures HasSuffix(s, suffix) ==> r + suffix == s
    ensures !HasSuffix(s, suffix) ==> r == s
  {
    if HasSuffix(s, suffix) then s[..|s| - |suffix|] else s
  }

  /** A concatenation splits back into its two parts at the length of the second. */
  lemma SplitAtSuffix(a: string, b: string)
    ensures |a + b| >= |b| && (a + b)[|a + b| - |b|..] == b && (a + b)[..|a + b| - |b|] == a
  {
  }

  predicate IsDigit(c: char) {
    '0' <= c <= '9'
  }

  function DigitChar(d: nat): (c: char)
    requires d < 10
    ensures IsDigit(c) && c as int - '0' as int == d
  {
    ('0' as int + d) as char
  }

  function DigitValue(c: char): nat
    requires IsDigit(c)
  {
    c as int - '0' as int
  }

  /** The decimal value of a string of digits (what strconv.Atoi gives for it). */
  function DigitsValue(s: string): nat
    requires forall k :: 0 <= k < |s| ==> IsDigit(s[k])
  {
    if |s| == 0 then 0 else 10 * DigitsValue(s[..|s| - 1]) + DigitValue(s[|s| - 1])
  }

  /** strconv.Itoa on a natural number: its decimal digits without leading zeros. */
  function NatToString(n: nat): (r: string)
    ensures |r| >= 1 && forall k :: 0 <= k < |r| ==> IsDigit(r[k])
    ensures |r| > 1 ==> r[0] != '0'
  {
    if n < 10 then [DigitChar(n)] else NatToString(n / 10) + [DigitChar(n % 10)]
  }

  /** Reading back the digits of a number gives the number. */
  lemma {:induction false} NatToStringRoundTrip(n: nat)
    ensures DigitsValue(NatToString(n)) == n
  {
    if n >= 10 {
      var s := NatToString(n);
      NatToStringRoundTrip(n / 10);
      assert s[..|s| - 1] == NatToString(n / 10);
    }
  }

  /** strconv.Itoa / fmt's %d. */
  function IntToString(i: int): string {
    if i < 0 then "-" + NatToString(-i) else NatToString(i)
  }

  /** A rendered integer starts with a digit or a minus sign. */
  lemma IntToStringHead(i: int)
    ensures |IntToString(i)| >= 1
    ensures IsDigit(IntToString(i)[0]) || IntToString(i)[0] == '-'
  {
  }

  /** A rendered integer ends with a digit. */
  lemma IntToStringLast(i: int)
    ensures |IntToString(i)| >= 1 && IsDigit(IntToString(i)[|IntToString(i)| - 1])
  {
  }

  function Abs(x: real): real {
    if x < 0.0 then -x else x
  }

  /** Rounds a non-negative real to the nearest integer, ties to the even one. */
  function RoundHalfEven(x: real): (r: nat)
    requires x >= 0.0
    ensures r as real - x <= 0.5 && x - r as real <= 0.5
  {
    var f := x.Floor;
    var d := x - f as real;
    if d < 0.5 then f else if d > 0.5 then f + 1 else if f % 2 == 0 then f else f + 1
  }

  /** `x * 10^prec` rounded half to even: the number of units of the last printed
      decimal place. */
  function ScaledRound(x: real, prec: nat): nat
    requires x >= 0.0
    decreases prec
  {
    if prec == 0 then RoundHalfEven(x) else ScaledRound(10.0 * x, prec - 1)
  }

  /** The unsigned rendering of `n / 10^prec` with `prec` decimals. */
  function FixedDigits(n: nat, prec: nat): (r: string)
    ensures |r| >= 1 && IsDigit(r[0])
    ensures forall k :: 1 <= k < |r| ==> IsDigit(r[k]) || r[k] == '.'
  {
    if prec == 0 then NatToString(n)
    else if prec == 1 then NatToString(n / 10) + "." + [DigitChar(n % 10)]
    else FixedDigits(n / 10, prec - 1) + [DigitChar(n % 10)]
  }

  /** fmt's %.<prec>f on an exact real: sign, whole part, and `prec` rounded decimals
      (round half to even, which is what strconv does on exact ties). */
  function FormatFixed(x: real, prec: nat): (r: string)
    ensures |r| >= 1 && (r[0] == '-' || IsDigit(r[0]))
    ensures forall k :: 1 <= k < |r| ==> IsDigit(r[k]) || r[k] == '.'
  {
    var digits := FixedDigits(ScaledRound(Abs(x), prec), prec);
    if x < 0.0 then
      SignedDigits(digits);
      "-" + digits
    else digits
  }

  lemma SignedDigits(digits: string)
    requires |digits| >= 1 && IsDigit(digits[0])
    requires forall k :: 1 <= k < |digits| ==> IsDigit(digits[k]) || digits[k] == '.'
    ensures forall k :: 1 <= k < |"-" + digits| ==>
      IsDigit(("-" + digits)[k]) || ("-" + digits)[k] == '.'
  {
    var r := "-" + digits;
    forall k | 1 <= k < |r| ensures IsDigit(r[k]) || r[k] == '.' {
      assert r[k] == digits[k - 1];
    }
  }

  /** A non-negative number is printed without a sign. */
  lemma FormatFixedNonNegativeHead(x: real, prec: nat)
    requires x >= 0.0
    ensures IsDigit(FormatFixed(x, prec)[0])
  {
  }

  /** A whole number is its own rounding. */
  lemma RoundWhole(k: nat)
    ensures RoundHalfEven(k as real) == k
  {
    assert (k as real).Floor == k;
  }

  /** A whole number of hundredths with no fractional hundredths renders with ".00". */
  lemma FixedDigitsWhole2(n: nat)
    ensures FixedDigits(100 * n, 2) == NatToString(n) + ".00"
  {
    assert (100 * n) / 10 == 10 * n && (100 * n) % 10 == 0;
    assert (10 * n) / 10 == n && (10 * n) % 10 == 0;
  }

  /** %.2f of a whole number prints it with ".00". */
  lemma Fmt2Whole(n: nat)
    ensures FormatFixed(n as real, 2) == NatToString(n) + ".00"
  {
    var x := n as real;
    assert ScaledRound(x, 2) == ScaledRound((100 * n) as real, 0);
    RoundWhole(100 * n);
    FixedDigitsWhole2(n);
  }

  /** %.2f */
  function Fmt2(x: real): string {
    FormatFixed(x, 2)
  }

  /** Go's int(x) conversion from a float: truncation toward zero. */
  function Trunc(x: real): (r: int)
    ensures Abs(r as real) <= Abs(x) && Abs(x) - Abs(r as real) < 1.0
    ensures x >= 0.0 ==> r >= 0
  {
    if x >= 0.0 then x.Floor else -((-x).Floor)
  }

  /** Number of occurrences of `x` in `xs`. */
  function Count<T(==)>(xs: seq<T>, x: T): nat {
    if |xs| == 0 then 0 else Count(xs[..|xs| - 1], x) + (if xs[|xs| - 1] == x then 1 else 0)
  }

  lemma {:induction false} CountAppend<T>(a: seq<T>, b: seq<T>, x: T)
    ensures Count(a + b, x) == Count(a, x) + Count(b, x)
  {
    if |b| > 0 {
      CountAppend(a, b[..|b| - 1], x);
      assert (a + b)[..|a + b| - 1] == a + b[..|b| - 1];
    } else {
      assert a + b == a;
    }
  }

  /** An element occurs when its count is positive. */
  lemma {:induction false} CountIn<T>(xs: seq<T>, x: T)
    ensures x in xs <==> Count(xs, x) > 0
  {
    if |xs| > 0 {
      CountIn(xs[..|xs| - 1], x);
      assert xs == xs[..|xs| - 1] + [xs[|xs| - 1]];
    }
  }

  lemma CountAbsent<T>(xs: seq<T>, x: T)
    requires forall k :: 0 <= k < |xs| ==> xs[k] != x
    ensures Count(xs, x) == 0
  {
    if |xs| > 0 {
      CountAbsent(xs[..|xs| - 1], x);
    }
  }
}
