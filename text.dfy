/** The JavaScript string built-ins the console relies on, over `seq<char>`:
    `toLowerCase`/`toUpperCase` (ASCII letters only), `startsWith`,
    `includes`, `split` on a one-character separator, `join`, and the
    global `parseInt` without a radix argument. */
module Text {
  import opened Wrappers

  function LowerChar(c: char): char {
    if 'A' <= c <= 'Z' then (c as int + 32) as char else c
  }

  function UpperChar(c: char): char {
    if 'a' <= c <= 'z' then (c as int - 32) as char else c
  }

  /** `s.toLowerCase()` restricted to ASCII letters. */
  function ToLower(s: string): string {
    seq(|s|, i requires 0 <= i < |s| => LowerChar(s[i]))
  }

  /** `s.toUpperCase()` restricted to ASCII letters. */
  function ToUpper(s: string): string {
    seq(|s|, i requires 0 <= i < |s| => UpperChar(s[i]))
  }

  /** Upper-casing is idempotent and keeps the length. */
  lemma ToUpperIdempotent(s: string)
    ensures |ToUpper(s)| == |s|
    ensures ToUpper(ToUpper(s)) == ToUpper(s)
  {
  }

  /** Lower-casing ignores an earlier change of case, and leaves a string
      without capitals as it is. */
  lemma ToLowerAbsorbs(s: string)
    ensures ToLower(ToUpper(s)) == ToLower(s)
    ensures ToLower(ToLower(s)) == ToLower(s)
    ensures (forall i :: 0 <= i < |s| ==> !('A' <= s[i] <= 'Z')) ==> ToLower(s) == s
  {
  }

  /** `s.startsWith(p)`. */
  predicate StartsWith(s: string, p: string) {
    |p| <= |s| && s[..|p|] == p
  }

  /** `p` occurs in `s` at position `i`. */
  predicate OccursAt(s: string, p: string, i: int) {
    0 <= i && i + |p| <= |s| && s[i..i + |p|] == p
  }

  /** `s.includes(p)`, computed by trying every start position in turn. */
  predicate Contains(s: string, p: string)
    decreases |s|
  {
    StartsWith(s, p) || (|s| > 0 && Contains(s[1..], p))
  }

  /** `includes` holds exactly when the needle occurs at some position. */
  lemma {:induction false} ContainsIff(s: string, p: string)
    ensures Contains(s, p) <==> exists i :: OccursAt(s, p, i)
    decreases |s|
  {
    if StartsWith(s, p) {
      assert OccursAt(s, p, 0);
    } else if |s| > 0 {
      ContainsIff(s[1..], p);
      if Contains(s[1..], p) {
        var i :| OccursAt(s[1..], p, i);
        assert s[1..][i..i + |p|] == s[i + 1..i + 1 + |p|];
        assert OccursAt(s, p, i + 1);
      }
      if i :| OccursAt(s, p, i) {
        assert i != 0;
        assert s[1..][i - 1..i - 1 + |p|] == s[i..i + |p|];
        assert OccursAt(s[1..], p, i - 1);
      }
    }
  }

  /** Every string contains itself and the empty string. */
  lemma ContainsSelf(s: string)
    ensures Contains(s, s) && Contains(s, "")
  {
  }

  /** `s.split(sep)` for a one-character separator: never empty; `"".split(sep)`
      is `[""]`, and adjacent separators produce empty parts. */
  function Split(s: string, sep: char): (parts: seq<string>)
    ensures |parts| >= 1
    decreases |s|
  {
    if s == [] then [[]]
    else if s[0] == sep then [[]] + Split(s[1..], sep)
    else
      var rest := Split(s[1..], sep);
      [[s[0]] + rest[0]] + rest[1..]
  }

  /** `parts.join(sep)`. */
  function Join(parts: seq<string>, sep: string): string
    decreases |parts|
  {
    if |parts| == 0 then []
    else if |parts| == 1 then parts[0]
    else parts[0] + sep + Join(parts[1..], sep)
  }

  /** Joining the parts of a split with the separator gives back the string. */
  lemma {:induction false} SplitJoin(s: string, sep: char)
    ensures Join(Split(s, sep), [sep]) == s
    decreases |s|
  {
    if s == [] {
    } else if s[0] == sep {
      SplitJoin(s[1..], sep);
    } else {
      SplitJoin(s[1..], sep);
      var rest := Split(s[1..], sep);
      if |rest| > 1 {
        assert Join(rest, [sep]) == rest[0] + [sep] + Join(rest[1..], [sep]);
        assert ([s[0]] + rest[0]) + [sep] + Join(rest[1..], [sep]) == [s[0]] + Join(rest, [sep]);
      }
    }
  }

  /** No part of a split contains the separator. */
  lemma {:induction false} SplitPartsLackSeparator(s: string, sep: char)
    ensures forall k :: 0 <= k < |Split(s, sep)| ==> sep !in Split(s, sep)[k]
    decreases |s|
  {
    if s != [] {
      SplitPartsLackSeparator(s[1..], sep);
    }
  }

  /** A word free of the separator, then the separator, splits off as the
      first part. */
  lemma {:induction false} SplitAtSeparator(w: string, sep: char, rest: string)
    requires sep !in w
    ensures Split(w + [sep] + rest, sep) == [w] + Split(rest, sep)
    decreases |w|
  {
    if w != [] {
      var s := w + [sep] + rest;
      SplitAtSeparator(w[1..], sep, rest);
      assert s[0] == w[0] && s[1..] == w[1..] + [sep] + rest;
      assert [w[0]] + w[1..] == w;
    } else {
      assert w + [sep] + rest == [sep] + rest;
    }
  }

  /** A string made only of separators splits into empty parts. */
  lemma {:induction false} SplitSeparatorsOnly(s: string, sep: char)
    requires forall i :: 0 <= i < |s| ==> s[i] == sep
    ensures forall k :: 0 <= k < |Split(s, sep)| ==> Split(s, sep)[k] == ""
    decreases |s|
  {
    if s != [] {
      SplitSeparatorsOnly(s[1..], sep);
    }
  }

  /** The first part of a split is a prefix of the string, and the whole
      string when the separator does not occur. */
  lemma {:induction false} SplitFirstPart(s: string, sep: char)
    ensures StartsWith(s, Split(s, sep)[0])
    ensures sep !in s ==> Split(s, sep) == [s]
    decreases |s|
  {
    if s != [] && s[0] != sep {
      SplitFirstPart(s[1..], sep);
      var rest := Split(s[1..], sep);
      assert s[..|rest[0]| + 1] == [s[0]] + s[1..][..|rest[0]|];
      if sep !in s {
        assert sep !in s[1..];
        assert [s[0]] + s[1..] == s;
      }
    }
  }

  /** The characters `parseInt` skips before the number (ASCII whitespace). */
  predicate IsWhitespace(c: char) {
    c == ' ' || c == '\t' || c == '\n' || c == '\r' || c == '\U{B}' || c == '\U{C}'
  }

  function TrimStart(s: string): (r: string)
    decreases |s|
  {
    if |s| > 0 && IsWhitespace(s[0]) then TrimStart(s[1..]) else s
  }

  /** The value of `c` as a digit in base `radix` (10 or 16), if it is one. */
  function DigitValue(c: char, radix: nat): Option<nat> {
    if '0' <= c <= '9' && (c as int - '0' as int) < radix then Some(c as int - '0' as int)
    else if 'a' <= c <= 'z' && (c as int - 'a' as int) + 10 < radix then Some(c as int - 'a' as int + 10)
    else if 'A' <= c <= 'Z' && (c as int - 'A' as int) + 10 < radix then Some(c as int - 'A' as int + 10)
    else None
  }

  /** The values of the longest prefix of `s` made of digits in base `radix`. */
  function LeadingDigits(s: string, radix: nat): seq<nat>
    decreases |s|
  {
    if s == [] then []
    else match DigitValue(s[0], radix)
      case None => []
      case Some(d) => [d] + LeadingDigits(s[1..], radix)
  }

  /** The number a sequence of digits denotes, most significant first. */
  function DigitsValue(ds: seq<nat>, radix: nat): nat
    decreases |ds|
  {
    if ds == [] then 0 else DigitsValue(ds[..|ds| - 1], radix) * radix + ds[|ds| - 1]
  }

  /** The global `parseInt(s)` with no radix: leading whitespace is skipped, one
      sign is allowed, a `0x`/`0X` prefix selects base 16, parsing stops at the
      first character that is not a digit, and no digit at all gives `NaN`
      (here `None`). */
  function ParseInt(s: string): Option<int> {
    var t := TrimStart(s);
    var negative := |t| > 0 && t[0] == '-';
    var u := if |t| > 0 && (t[0] == '-' || t[0] == '+') then t[1..] else t;
    var hex := |u| >= 2 && u[0] == '0' && (u[1] == 'x' || u[1] == 'X');
    var digits := if hex then LeadingDigits(u[2..], 16) else LeadingDigits(u, 10);
    var radix := if hex then 16 else 10;
    var magnitude: int := DigitsValue(digits, radix);
    if digits == [] then None
    else if negative then Some(-magnitude)
    else Some(magnitude)
  }

  function DigitChar(d: nat): char
    requires d < 10
  {
    ('0' as int + d) as char
  }

  /** The decimal numeral of `n`, as `String(n)` writes it. */
  function DecimalString(n: nat): (s: string)
    ensures |s| >= 1
    ensures forall i :: 0 <= i < |s| ==> '0' <= s[i] <= '9'
  {
    if n < 10 then [DigitChar(n)] else DecimalString(n / 10) + [DigitChar(n % 10)]
  }

  lemma {:induction false} LeadingDigitsOfNumeral(s: string)
    requires forall i :: 0 <= i < |s| ==> '0' <= s[i] <= '9'
    ensures LeadingDigits(s, 10) == seq(|s|, i requires 0 <= i < |s| => s[i] as int - '0' as int)
    decreases |s|
  {
    if s != [] {
      LeadingDigitsOfNumeral(s[1..]);
    }
  }

  lemma {:induction false} NumeralValue(n: nat)
    ensures var s := DecimalString(n);
      DigitsValue(seq(|s|, i requires 0 <= i < |s| => s[i] as int - '0' as int), 10) == n
  {
    var s := DecimalString(n);
    var ds := seq(|s|, i requires 0 <= i < |s| => s[i] as int - '0' as int);
    if n < 10 {
      assert ds == [n];
    } else {
      NumeralValue(n / 10);
      var p := DecimalString(n / 10);
      assert s == p + [DigitChar(n % 10)];
      assert ds[..|ds| - 1] == seq(|p|, i requires 0 <= i < |p| => p[i] as int - '0' as int);
      assert ds[|ds| - 1] == n % 10;
    }
  }

  /** `parseInt` reads back the decimal numeral of every natural number. */
  lemma ParseDecimalString(n: nat)
    ensures ParseInt(DecimalString(n)) == Some(n)
  {
    var s := DecimalString(n);
    assert TrimStart(s) == s;
    LeadingDigitsOfNumeral(s);
    NumeralValue(n);
  }
}
