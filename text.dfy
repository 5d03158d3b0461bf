/**
 * String helpers with the meaning Python gives them for ASCII text:
 * `str.lower`, the `in` substring test, `str.strip`, `str.join`, the
 * ordering of `str` values, and `int(str)` for decimal literals.
 */
module Text {
  import opened Wrappers

  // ---------------------------------------------------------------------
  // Truthiness

  /** Python truthiness of an optional string: present and not empty. */
  predicate Truthy(s: Option<string>)
  {
    s.Some? && s.value != ""
  }

  // ---------------------------------------------------------------------
  // Case

  /** `str.lower` on one character, for the ASCII range. */
  function LowerChar(c: char): char
  {
    if 'A' <= c <= 'Z' then (c as int + 32) as char else c
  }

  function ToLower(s: string): (r: string)
    ensures |r| == |s|
    ensures forall i :: 0 <= i < |s| ==> r[i] == LowerChar(s[i])
  {
    seq(|s|, i requires 0 <= i < |s| => LowerChar(s[i]))
  }

  lemma ToLowerConcat(a: string, b: string)
    ensures ToLower(a + b) == ToLower(a) + ToLower(b)
  {
    assert forall i :: 0 <= i < |a + b| ==> ToLower(a + b)[i] == (ToLower(a) + ToLower(b))[i];
  }

  lemma ToLowerIdempotent(s: string)
    ensures ToLower(ToLower(s)) == ToLower(s)
  {
    assert forall i :: 0 <= i < |s| ==> ToLower(ToLower(s))[i] == ToLower(s)[i];
  }

  /** Text without upper-case letters is its own lower case. */
  lemma ToLowerOfLowerCase(s: string)
    requires forall i :: 0 <= i < |s| ==> !('A' <= s[i] <= 'Z')
    ensures ToLower(s) == s
  {
  }

  // ---------------------------------------------------------------------
  // Substrings

  predicate OccursAt(s: string, pattern: string, i: nat)
  {
    i + |pattern| <= |s| && s[i..i + |pattern|] == pattern
  }

  /** Python's `pattern in s`: `pattern` is a prefix of `s` or occurs further on. */
  predicate Contains(s: string, pattern: string)
    decreases |s|
  {
    StartsWith(s, pattern) || (|s| > 0 && Contains(s[1..], pattern))
  }

  /** `pattern in s` holds exactly when `pattern` occurs at some position of `s`. */
  lemma ContainsOccurs(s: string, pattern: string)
    ensures Contains(s, pattern) <==> exists i: nat :: i <= |s| && OccursAt(s, pattern, i)
  {
    if Contains(s, pattern) {
      var i := OccurrenceOfContained(s, pattern);
    }
    if exists i: nat :: i <= |s| && OccursAt(s, pattern, i) {
      var i: nat :| i <= |s| && OccursAt(s, pattern, i);
      ContainedAtOccurrence(s, pattern, i);
    }
  }

  lemma {:induction false} OccurrenceOfContained(s: string, pattern: string) returns (i: nat)
    requires Contains(s, pattern)
    ensures i <= |s| && OccursAt(s, pattern, i)
    decreases |s|
  {
    if StartsWith(s, pattern) {
      assert s[0..|pattern|] == s[..|pattern|];
      i := 0;
    } else {
      var j := OccurrenceOfContained(s[1..], pattern);
      assert s[1..][j..j + |pattern|] == s[j + 1..j + 1 + |pattern|];
      i := j + 1;
    }
  }

  lemma {:induction false} ContainedAtOccurrence(s: string, pattern: string, i: nat)
    requires i <= |s| && OccursAt(s, pattern, i)
    ensures Contains(s, pattern)
    decreases i
  {
    if i == 0 {
      assert s[..|pattern|] == s[0..|pattern|];
    } else {
      assert s[1..][i - 1..i - 1 + |pattern|] == s[i..i + |pattern|];
      ContainedAtOccurrence(s[1..], pattern, i - 1);
    }
  }

  /** A pattern holding a character that `s` lacks does not occur in `s`. */
  lemma NotContainedWithoutChar(s: string, pattern: string, c: char)
    requires c in pattern && c !in s
    ensures !Contains(s, pattern)
  {
    ContainsOccurs(s, pattern);
    var k :| 0 <= k < |pattern| && pattern[k] == c;
    forall i: nat | i <= |s| ensures !OccursAt(s, pattern, i) {
      if i + |pattern| <= |s| {
        assert s[i..i + |pattern|][k] == s[i + k];
      }
    }
  }

  /** The stripped form of a prefix of `s` occurs in `s`. */
  lemma StripOfPrefixContained(s: string, prefix: string)
    requires StartsWith(s, prefix)
    ensures Contains(s, Strip(prefix))
  {
    var i := LeadingSpaces(prefix);
    var r := Strip(prefix);
    assert r == prefix[i..i + |r|];
    SliceOfPrefixContained(s, prefix, i, i + |r|);
  }

  /** Whitespace at the end does not change what a text strips to. */
  lemma StripDropsTrailingSpace(t: string, c: char)
    requires IsSpace(c)
    ensures Strip(t + [c]) == Strip(t)
  {
    if LeadingSpaces(t) == |t| {
      AllSpaceStripsEmpty(t, c);
    } else {
      LeadingSpacesOfLonger(t, [c]);
      TrailingSpacesOfSpace(t, c);
      SliceBeforeLast(t, c, LeadingSpaces(t), |t| - TrailingSpaces(t));
    }
  }

  lemma AllSpaceStripsEmpty(t: string, c: char)
    requires IsSpace(c) && LeadingSpaces(t) == |t|
    ensures Strip(t + [c]) == [] && Strip(t) == []
  {
    var x := t + [c];
    forall k | 0 <= k < |x| ensures IsSpace(x[k]) {
      if k < |t| {
        assert x[k] == t[k];
      }
    }
  }

  lemma TrailingSpacesOfSpace(t: string, c: char)
    requires IsSpace(c)
    ensures TrailingSpaces(t + [c]) == 1 + TrailingSpaces(t)
  {
    assert (t + [c])[..|t|] == t;
  }

  lemma SliceBeforeLast(t: string, c: char, i: nat, j: nat)
    requires i <= j <= |t|
    ensures (t + [c])[i..j] == t[i..j]
  {
  }

  /** Text after a non-space leaves the count of leading spaces as it was. */
  lemma {:induction false} LeadingSpacesOfLonger(t: string, u: string)
    requires LeadingSpaces(t) < |t|
    ensures LeadingSpaces(t + u) == LeadingSpaces(t)
    decreases |t|
  {
    if IsSpace(t[0]) {
      assert (t + u)[1..] == t[1..] + u;
      LeadingSpacesOfLonger(t[1..], u);
    }
  }

  /** A prefix of `s` followed by one whitespace character strips to a piece of `s`. */
  lemma StripOfPrefixAndSpaceContained(s: string, prefix: string, c: char)
    requires StartsWith(s, prefix) && IsSpace(c)
    ensures Contains(s, Strip(prefix + [c]))
  {
    var x := prefix + [c];
    var r := Strip(x);
    var i := LeadingSpaces(x);
    if r == [] {
      SliceOfPrefixContained(s, prefix, 0, 0);
      assert prefix[0..0] == r;
    } else {
      assert i + |r| <= |prefix| by {
        assert r[|r| - 1] == x[i + |r| - 1];
      }
      assert r == prefix[i..i + |r|];
      SliceOfPrefixContained(s, prefix, i, i + |r|);
    }
  }

  /** A slice of a prefix of `s` occurs in `s`. */
  lemma SliceOfPrefixContained(s: string, prefix: string, i: nat, j: nat)
    requires StartsWith(s, prefix) && i <= j <= |prefix|
    ensures Contains(s, prefix[i..j])
  {
    var slice := prefix[i..j];
    forall k | 0 <= k < j - i ensures s[i..j][k] == slice[k] {
      assert s[..|prefix|][i + k] == prefix[i + k];
    }
    assert s[i..i + |slice|] == slice;
    assert OccursAt(s, slice, i);
    ContainsOccurs(s, slice);
  }

  predicate StartsWith(s: string, prefix: string)
  {
    |prefix| <= |s| && s[..|prefix|] == prefix
  }

  predicate EndsWith(s: string, suffix: string)
  {
    |suffix| <= |s| && s[|s| - |suffix|..] == suffix
  }

  // ---------------------------------------------------------------------
  // Whitespace stripping

  /** The characters below 128 that Python's `str.isspace` accepts. */
  predicate IsSpace(c: char)
  {
    c == ' ' || 9 <= c as int <= 13 || 28 <= c as int <= 31
  }

  function LeadingSpaces(s: string): (n: nat)
    ensures n <= |s|
    ensures forall k :: 0 <= k < n ==> IsSpace(s[k])
    ensures n < |s| ==> !IsSpace(s[n])
  {
    if |s| == 0 || !IsSpace(s[0]) then 0 else 1 + LeadingSpaces(s[1..])
  }

  function TrailingSpaces(s: string): (n: nat)
    ensures n <= |s|
    ensures forall k :: |s| - n <= k < |s| ==> IsSpace(s[k])
    ensures n < |s| ==> !IsSpace(s[|s| - n - 1])
  {
    if |s| == 0 || !IsSpace(s[|s| - 1]) then 0 else 1 + TrailingSpaces(s[..|s| - 1])
  }

  /** `str.strip()`: the slice of `s` left once whitespace is removed from both ends. */
  function Strip(s: string): (r: string)
    ensures |r| <= |s| && LeadingSpaces(s) + |r| <= |s|
    ensures r == s[LeadingSpaces(s)..LeadingSpaces(s) + |r|]
    ensures r != [] ==> !IsSpace(r[0]) && !IsSpace(r[|r| - 1])
    ensures r == [] <==> forall k :: 0 <= k < |s| ==> IsSpace(s[k])
    ensures forall k :: LeadingSpaces(s) + |r| <= k < |s| ==> IsSpace(s[k])
  {
    var i := LeadingSpaces(s);
    if i == |s| then "" else s[i..|s| - TrailingSpaces(s)]
  }

  lemma StripUnchanged(s: string)
    requires s == [] || (!IsSpace(s[0]) && !IsSpace(s[|s| - 1]))
    ensures Strip(s) == s
  {
  }

  // ---------------------------------------------------------------------
  // Joining

  /** `sep.join(parts)`. */
  function Join(sep: string, parts: seq<string>): string
    decreases |parts|
  {
    if |parts| == 0 then ""
    else if |parts| == 1 then parts[0]
    else Join(sep, parts[..|parts| - 1]) + sep + parts[|parts| - 1]
  }

  function TotalLength(parts: seq<string>): nat
    decreases |parts|
  {
    if |parts| == 0 then 0 else TotalLength(parts[..|parts| - 1]) + |parts[|parts| - 1]|
  }

  /** Every part and every separator between two parts, empty or not, is in the joined text. */
  lemma {:induction false} JoinLength(sep: string, parts: seq<string>)
    requires |parts| > 0
    ensures |Join(sep, parts)| + |sep| == TotalLength(parts) + |sep| * |parts|
    decreases |parts|
  {
    var n := |parts|;
    if n > 1 {
      var init := parts[..n - 1];
      JoinLength(sep, init);
      assert Join(sep, parts) == Join(sep, init) + sep + parts[n - 1];
      assert TotalLength(parts) == TotalLength(init) + |parts[n - 1]|;
      assert |sep| * n == |sep| * (n - 1) + |sep| by {
        MulSucc(|sep|, n - 1);
      }
    }
  }

  lemma MulSucc(a: int, b: int)
    ensures a * (b + 1) == a * b + a
  {
  }

  // ---------------------------------------------------------------------
  // Ordering of `str` values (code point by code point, a prefix first)

  predicate LexLe(a: string, b: string)
    decreases |a|
  {
    |a| == 0 || (|b| > 0 && (a[0] < b[0] || (a[0] == b[0] && LexLe(a[1..], b[1..]))))
  }

  lemma {:induction false} LexLeReflexive(a: string)
    ensures LexLe(a, a)
    decreases |a|
  {
    if |a| > 0 {
      LexLeReflexive(a[1..]);
    }
  }

  lemma {:induction false} LexLeTotal(a: string, b: string)
    ensures LexLe(a, b) || LexLe(b, a)
    decreases |a|
  {
    if |a| > 0 && |b| > 0 && a[0] == b[0] {
      LexLeTotal(a[1..], b[1..]);
    }
  }

  lemma {:induction false} LexLeTransitive(a: string, b: string, c: string)
    requires LexLe(a, b) && LexLe(b, c)
    ensures LexLe(a, c)
    decreases |a|
  {
    if |a| > 0 && a[0] == b[0] && b[0] == c[0] {
      LexLeTransitive(a[1..], b[1..], c[1..]);
    }
  }

  // ---------------------------------------------------------------------
  // Decimal integers

  predicate IsDigit(c: char)
  {
    '0' <= c <= '9'
  }

  predicate AllDigits(s: string)
  {
    forall i :: 0 <= i < |s| ==> IsDigit(s[i])
  }

  function DigitValue(c: char): nat
    requires IsDigit(c)
  {
    c as int - '0' as int
  }

  function DigitChar(d: nat): (c: char)
    requires d < 10
    ensures IsDigit(c) && DigitValue(c) == d
  {
    ('0' as int + d) as char
  }

  /** The number a string of decimal digits denotes. */
  function DigitsValue(s: string): nat
    requires AllDigits(s)
    decreases |s|
  {
    if |s| == 0 then 0 else DigitsValue(s[..|s| - 1]) * 10 + DigitValue(s[|s| - 1])
  }

  /** `str(n)` for a natural number. */
  function NatToString(n: nat): (s: string)
    ensures |s| > 0 && AllDigits(s)
    decreases n
  {
    if n < 10 then [DigitChar(n)] else NatToString(n / 10) + [DigitChar(n % 10)]
  }

  /** `str(n)`. */
  function IntToString(n: int): string
  {
    if n < 0 then "-" + NatToString(-n) else NatToString(n)
  }

  /** `str(n)` starts with a minus sign or a digit. */
  lemma IntToStringStart(n: int)
    ensures |IntToString(n)| > 0
    ensures IntToString(n)[0] == '-' || IsDigit(IntToString(n)[0])
  {
  }

  lemma {:induction false} NatToStringValue(n: nat)
    ensures DigitsValue(NatToString(n)) == n
    decreases n
  {
    if n >= 10 {
      NatToStringValue(n / 10);
      var s := NatToString(n);
      assert s[..|s| - 1] == NatToString(n / 10);
    }
  }

  /**
   * Digits separated by single underscores, which is what `int` accepts
   * after the sign (`1_000` is one thousand).
   */
  predicate IsNumeral(t: string)
  {
    && |t| > 0 && IsDigit(t[0]) && IsDigit(t[|t| - 1])
    && (forall i :: 0 <= i < |t| ==> IsDigit(t[i]) || t[i] == '_')
    && !Contains(t, "__")
  }

  function WithoutUnderscores(t: string): (r: string)
    requires forall i :: 0 <= i < |t| ==> IsDigit(t[i]) || t[i] == '_'
    ensures AllDigits(r) && |r| <= |t|
    ensures AllDigits(t) ==> r == t
    decreases |t|
  {
    if |t| == 0 then ""
    else if t[|t| - 1] == '_' then WithoutUnderscores(t[..|t| - 1])
    else WithoutUnderscores(t[..|t| - 1]) + [t[|t| - 1]]
  }

  function NumeralValue(t: string): nat
    requires IsNumeral(t)
  {
    DigitsValue(WithoutUnderscores(t))
  }

  /**
   * The ASCII separators 0x1C to 0x1F: `str.strip` removes them, but `int`
   * skips only tab, line feed, vertical tab, form feed, carriage return and
   * space, so a separator anywhere makes `int` fail.
   */
  predicate IsSeparator(c: char)
  {
    28 <= c as int <= 31
  }

  /** The most digits `int` reads from a string, CPython's default limit. */
  const MAX_STR_DIGITS := 4300

  /** A numeral short enough for `int`, underscores not counted. */
  predicate WithinDigitLimit(t: string)
    requires IsNumeral(t)
  {
    |WithoutUnderscores(t)| <= MAX_STR_DIGITS
  }

  /**
   * `int(s)` for base 10: surrounding whitespace, an optional sign, then a
   * numeral of at most `MAX_STR_DIGITS` digits; anything else raises
   * `ValueError` (here: `None`).
   */
  function ParseInt(s: string): (r: Option<int>)
    ensures r.Some? ==> Strip(s) != ""
    ensures r.Some? ==> forall k :: 0 <= k < |s| ==> !IsSeparator(s[k])
  {
    if HasSeparator(s) then None else ParseSigned(Strip(s))
  }

  predicate HasSeparator(s: string)
  {
    exists k :: 0 <= k < |s| && IsSeparator(s[k])
  }

  /** `int` of stripped text: an optional sign, then a numeral within the digit limit. */
  function ParseSigned(t: string): Option<int>
  {
    if |t| > 0 && t[0] == '-' then
      match ParseNumeral(t[1..])
      case Some(n) => Some(-(n as int))
      case None => None
    else if |t| > 0 && t[0] == '+' then
      match ParseNumeral(t[1..])
      case Some(n) => Some(n as int)
      case None => None
    else
      match ParseNumeral(t)
      case Some(n) => Some(n as int)
      case None => None
  }

  function ParseNumeral(t: string): Option<nat>
  {
    if IsNumeral(t) && WithinDigitLimit(t) then Some(NumeralValue(t)) else None
  }

  /** A string of digits is a numeral denoting its digits' value. */
  lemma DigitsAreNumeral(d: string)
    requires |d| > 0 && AllDigits(d)
    ensures IsNumeral(d) && NumeralValue(d) == DigitsValue(d)
  {
    NotContainedWithoutChar(d, "__", '_');
  }

  /** Whitespace that `int` skips around a number. */
  predicate IsIntSpace(c: char)
  {
    IsSpace(c) && !IsSeparator(c)
  }

  lemma {:induction false} LeadingSpacesOfPadded(lead: string, u: string)
    requires forall k :: 0 <= k < |lead| ==> IsSpace(lead[k])
    requires |u| > 0 && !IsSpace(u[0])
    ensures LeadingSpaces(lead + u) == |lead|
    decreases |lead|
  {
    if |lead| > 0 {
      assert (lead + u)[1..] == lead[1..] + u;
      LeadingSpacesOfPadded(lead[1..], u);
    }
  }

  lemma {:induction false} TrailingSpacesOfPadded(u: string, trail: string)
    requires forall k :: 0 <= k < |trail| ==> IsSpace(trail[k])
    requires |u| > 0 && !IsSpace(u[|u| - 1])
    ensures TrailingSpaces(u + trail) == |trail|
    decreases |trail|
  {
    if |trail| > 0 {
      assert (u + trail)[..|u + trail| - 1] == u + trail[..|trail| - 1];
      TrailingSpacesOfPadded(u, trail[..|trail| - 1]);
    }
  }

  /** Whitespace around text bounded by non-spaces is what `strip` removes. */
  lemma StripPadded(lead: string, u: string, trail: string)
    requires forall k :: 0 <= k < |lead| ==> IsSpace(lead[k])
    requires forall k :: 0 <= k < |trail| ==> IsSpace(trail[k])
    requires |u| > 0 && !IsSpace(u[0]) && !IsSpace(u[|u| - 1])
    ensures Strip(lead + u + trail) == u
  {
    var s := lead + u + trail;
    assert s == lead + (u + trail);
    LeadingSpacesOfPadded(lead, u + trail);
    TrailingSpacesOfPadded(lead + u, trail);
    assert s[|lead|..|s| - |trail|] == u;
  }

  /**
   * `int` reads an optional sign and a numeral between whitespace it skips
   * as the signed value, and fails once the numeral has more than
   * `MAX_STR_DIGITS` digits.
   */
  lemma ParseIntOfPadded(lead: string, sign: string, t: string, trail: string)
    requires forall k :: 0 <= k < |lead| ==> IsIntSpace(lead[k])
    requires forall k :: 0 <= k < |trail| ==> IsIntSpace(trail[k])
    requires sign == "" || sign == "+" || sign == "-"
    requires IsNumeral(t)
    ensures ParseInt(lead + sign + t + trail)
            == if !WithinDigitLimit(t) then None
               else if sign == "-" then Some(-(NumeralValue(t) as int))
               else Some(NumeralValue(t) as int)
  {
    var u := sign + t;
    var s := lead + sign + t + trail;
    assert s == lead + u + trail;
    SignedNumeralBounds(sign, t);
    StripPadded(lead, u, trail);
    PaddedHasNoSeparator(lead, u, trail);
    ParseIntOfStripped(s, sign, t);
  }

  lemma SignedNumeralBounds(sign: string, t: string)
    requires sign == "" || sign == "+" || sign == "-"
    requires IsNumeral(t)
    ensures |sign + t| > 0 && !IsSpace((sign + t)[0]) && !IsSpace((sign + t)[|sign + t| - 1])
    ensures forall k :: 0 <= k < |sign + t| ==> !IsSeparator((sign + t)[k])
  {
    var u := sign + t;
    assert u[|u| - 1] == t[|t| - 1];
    forall k | 0 <= k < |u| ensures !IsSeparator(u[k]) {
      if k >= |sign| {
        assert u[k] == t[k - |sign|];
      }
    }
  }

  lemma PaddedHasNoSeparator(lead: string, u: string, trail: string)
    requires forall k :: 0 <= k < |lead| ==> IsIntSpace(lead[k])
    requires forall k :: 0 <= k < |trail| ==> IsIntSpace(trail[k])
    requires forall k :: 0 <= k < |u| ==> !IsSeparator(u[k])
    ensures forall k :: 0 <= k < |lead + u + trail| ==> !IsSeparator((lead + u + trail)[k])
  {
  }

  /** `int` of text without separators that strips to a sign and a numeral. */
  lemma ParseIntOfStripped(s: string, sign: string, t: string)
    requires forall k :: 0 <= k < |s| ==> !IsSeparator(s[k])
    requires sign == "" || sign == "+" || sign == "-"
    requires IsNumeral(t) && Strip(s) == sign + t
    ensures ParseInt(s)
            == if !WithinDigitLimit(t) then None
               else if sign == "-" then Some(-(NumeralValue(t) as int))
               else Some(NumeralValue(t) as int)
  {
    assert !HasSeparator(s);
    ParseSignedOf(sign, t);
  }

  lemma ParseSignedOf(sign: string, t: string)
    requires sign == "" || sign == "+" || sign == "-"
    requires IsNumeral(t)
    ensures ParseSigned(sign + t)
            == if !WithinDigitLimit(t) then None
               else if sign == "-" then Some(-(NumeralValue(t) as int))
               else Some(NumeralValue(t) as int)
  {
    if sign == "" {
      assert sign + t == t;
      ParseUnsigned(t);
    } else if sign == "-" {
      ParseMinus(t);
    } else {
      ParsePlus(t);
    }
  }

  lemma ParseUnsigned(t: string)
    requires IsNumeral(t)
    ensures ParseSigned(t) == if WithinDigitLimit(t) then Some(NumeralValue(t) as int) else None
  {
    assert t[0] != '-' && t[0] != '+';
  }

  lemma ParseMinus(t: string)
    requires IsNumeral(t)
    ensures ParseSigned("-" + t) == if WithinDigitLimit(t) then Some(-(NumeralValue(t) as int)) else None
  {
    var u := "-" + t;
    assert u[1..] == t;
    assert ParseSigned(u) == match ParseNumeral(t) case Some(n) => Some(-(n as int)) case None => None;
  }

  lemma ParsePlus(t: string)
    requires IsNumeral(t)
    ensures ParseSigned("+" + t) == if WithinDigitLimit(t) then Some(NumeralValue(t) as int) else None
  {
    var u := "+" + t;
    assert u[1..] == t;
    assert ParseSigned(u) == match ParseNumeral(t) case Some(n) => Some(n as int) case None => None;
  }

  /** `int` of a numeral without surrounding whitespace. */
  lemma ParseIntOfNumeral(t: string)
    requires IsNumeral(t)
    ensures ParseInt(t) == if WithinDigitLimit(t) then Some(NumeralValue(t) as int) else None
  {
    StripUnchanged(t);
    assert "" + t == t;
    ParseIntOfStripped(t, "", t);
  }

  /** `int` of a minus sign followed by a numeral. */
  lemma ParseIntOfNegative(t: string)
    requires IsNumeral(t)
    ensures ParseInt("-" + t) == if WithinDigitLimit(t) then Some(-(NumeralValue(t) as int)) else None
  {
    SignedNumeralBounds("-", t);
    StripUnchanged("-" + t);
    ParseIntOfStripped("-" + t, "-", t);
  }

  /**
   * `int(str(n)) == n` for a number of at most `MAX_STR_DIGITS` digits; the
   * text of a longer number is refused.
   */
  lemma ParseIntRoundTrip(n: int)
    ensures ParseInt(IntToString(n))
            == if |NatToString(if n < 0 then -n else n)| <= MAX_STR_DIGITS then Some(n) else None
  {
    var m: nat := if n < 0 then -n else n;
    var digits := NatToString(m);
    NatToStringValue(m);
    DigitsAreNumeral(digits);
    assert WithoutUnderscores(digits) == digits;
    if n < 0 {
      assert IntToString(n) == "-" + digits;
      ParseIntOfNegative(digits);
    } else {
      assert IntToString(n) == digits;
      ParseIntOfNumeral(digits);
    }
  }
}
