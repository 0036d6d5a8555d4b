/**
 * The parts of the Kotlin standard library that the modelled code relies on:
 * the 64-bit `Long` range and its wrap-around, `Char.isWhitespace` and
 * `String.isBlank`, `startsWith`/`removePrefix`, `split` on a one-character
 * delimiter, `Int.toString`/`Long.toString` and `String.toLongOrNull`.
 */
module KotlinText {
  import opened Wrappers

  const LongMin: int := -0x8000_0000_0000_0000
  const LongMax: int := 0x7FFF_FFFF_FFFF_FFFF
  const LongModulus: int := 0x1_0000_0000_0000_0000

  /** Kotlin's `Long`: a signed 64-bit integer. */
  type Long = x: int | -0x8000_0000_0000_0000 <= x <= 0x7FFF_FFFF_FFFF_FFFF

  /** The result of 64-bit two's-complement arithmetic whose exact value is `x`. */
  function WrapLong(x: int): (r: Long)
    ensures (r - x) % LongModulus == 0
    ensures LongMin <= x <= LongMax ==> r == x
  {
    var m := (x - LongMin) % LongModulus;
    assert (m - (x - LongMin)) % LongModulus == 0;
    m + LongMin
  }

  // ---------------------------------------------------------------------------
  // Whitespace and blank strings

  /**
   * `Char.isWhitespace()`: the separators of classes Zs, Zl and Zp plus the
   * control characters U+0009..U+000D and U+001C..U+001F.
   */
  predicate IsWhitespace(c: char) {
    || ('\t' <= c <= '\r')
    || ('\U{1C}' <= c <= ' ')
    || c == '\U{A0}'
    || c == '\U{1680}'
    || ('\U{2000}' <= c <= '\U{200A}')
    || c == '\U{2028}'
    || c == '\U{2029}'
    || c == '\U{202F}'
    || c == '\U{205F}'
    || c == '\U{3000}'
  }

  /** `String.isBlank()`: empty, or whitespace only. */
  predicate IsBlank(s: string) {
    forall i :: 0 <= i < |s| ==> IsWhitespace(s[i])
  }

  /** `String.startsWith(prefix)`. */
  predicate StartsWith(s: string, prefix: string) {
    |prefix| <= |s| && s[..|prefix|] == prefix
  }

  /**
   * Which characters `isWhitespace` accepts, by example: the ASCII blanks and
   * line ends, the no-break and ideographic spaces, the line separator; not a
   * letter, a digit or the zero-width space U+200B.
   */
  lemma WhitespaceChars()
    ensures IsWhitespace(' ') && IsWhitespace('\t') && IsWhitespace('\n') && IsWhitespace('\r')
    ensures IsWhitespace('\U{0B}') && IsWhitespace('\U{0C}')
    ensures IsWhitespace('\U{1C}') && IsWhitespace('\U{1D}') && IsWhitespace('\U{1E}') && IsWhitespace('\U{1F}')
    ensures IsWhitespace('\U{A0}') && IsWhitespace('\U{2007}') && IsWhitespace('\U{2028}') && IsWhitespace('\U{3000}')
    ensures !IsWhitespace('a') && !IsWhitespace('0') && !IsWhitespace('\U{08}') && !IsWhitespace('\U{200B}')
    ensures !IsWhitespace('\U{85}') && !IsWhitespace('\U{FEFF}')
  {
  }

  /** A concatenation is blank exactly when both parts are; the empty string is blank. */
  lemma BlankConcat(a: string, b: string)
    ensures IsBlank(a + b) <==> IsBlank(a) && IsBlank(b)
    ensures IsBlank("")
  {
    if IsBlank(a + b) {
      forall i | 0 <= i < |a| ensures IsWhitespace(a[i]) {
        assert a[i] == (a + b)[i];
      }
      forall i | 0 <= i < |b| ensures IsWhitespace(b[i]) {
        assert b[i] == (a + b)[|a| + i];
      }
    }
  }

  /** A string holding a character that is not whitespace is not blank, wherever it stands. */
  lemma NotBlankAt(s: string, i: nat)
    requires i < |s| && !IsWhitespace(s[i])
    ensures !IsBlank(s)
    ensures !IsBlank(s[i..]) && !IsBlank(s[..i + 1])
  {
    assert s[i..][0] == s[i];
    assert s[..i + 1][i] == s[i];
  }

  /**
   * `startsWith` and `removePrefix` undo a concatenation: prefix + rest starts
   * with prefix, and removing the prefix gives rest back.
   */
  lemma StartsWithConcat(prefix: string, rest: string)
    ensures StartsWith(prefix + rest, prefix)
    ensures (prefix + rest)[|prefix|..] == rest
  {
    assert (prefix + rest)[..|prefix|] == prefix;
  }

  /** A string that starts with `prefix` is `prefix` followed by what `removePrefix` leaves. */
  lemma StartsWithSplits(s: string, prefix: string)
    requires StartsWith(s, prefix)
    ensures s == prefix + s[|prefix|..]
  {
    assert s == s[..|prefix|] + s[|prefix|..];
  }

  /** A string that starts with `prefix` is no shorter, and agrees with it position by position. */
  lemma StartsWithAgrees(s: string, prefix: string)
    ensures StartsWith(s, prefix) <==> |prefix| <= |s| && forall i :: 0 <= i < |prefix| ==> s[i] == prefix[i]
  {
    if |prefix| <= |s| && forall i :: 0 <= i < |prefix| ==> s[i] == prefix[i] {
      assert s[..|prefix|] == prefix;
    }
  }

  // ---------------------------------------------------------------------------
  // split on a one-character delimiter

  /** Number of occurrences of `c` in `s`. */
  function Occurrences(s: string, c: char): nat {
    if s == [] then 0 else (if s[0] == c then 1 else 0) + Occurrences(s[1..], c)
  }

  lemma {:induction false} OccurrencesAppend(a: string, b: string, c: char)
    ensures Occurrences(a + b, c) == Occurrences(a, c) + Occurrences(b, c)
  {
    if a == [] {
      assert a + b == b;
    } else {
      assert (a + b)[1..] == a[1..] + b;
      OccurrencesAppend(a[1..], b, c);
    }
  }

  lemma {:induction false} OccurrencesPositive(s: string, c: char)
    requires c in s
    ensures Occurrences(s, c) >= 1
  {
    if s[0] != c {
      assert c in s[1..] by {
        var k :| 0 <= k < |s| && s[k] == c;
        assert s[1..][k - 1] == c;
      }
      OccurrencesPositive(s[1..], c);
    }
  }

  /** `parts.joinToString(sep)`: the inverse of `Split`. */
  function Join(parts: seq<string>, sep: char): string
    requires |parts| >= 1
  {
    if |parts| == 1 then parts[0] else parts[0] + [sep] + Join(parts[1..], sep)
  }

  /**
   * `s.split(sep)` with no limit: the maximal pieces between delimiters, empty
   * pieces included (so "" splits into [""] and "a&" into ["a", ""]).
   */
  function Split(s: string, sep: char): (parts: seq<string>)
    ensures |parts| == Occurrences(s, sep) + 1
    ensures forall i :: 0 <= i < |parts| ==> sep !in parts[i]
    ensures Join(parts, sep) == s
    decreases |s|
  {
    if s == [] then [""]
    else
      var rest := Split(s[1..], sep);
      if s[0] == sep then
        assert ([""] + rest)[1..] == rest;
        [""] + rest
      else
        var parts := [[s[0]] + rest[0]] + rest[1..];
        assert |rest| > 1 ==> parts[1..] == rest[1..] && Join(rest, sep) == rest[0] + [sep] + Join(rest[1..], sep);
        parts
  }

  /** Splitting is determined by its two properties: pieces free of `sep` that join back to `s`. */
  lemma {:induction false} SplitUnique(s: string, sep: char, parts: seq<string>)
    requires |parts| >= 1 && Join(parts, sep) == s
    requires forall i :: 0 <= i < |parts| ==> sep !in parts[i]
    ensures Split(s, sep) == parts
    decreases |s|
  {
    if |parts| == 1 {
      SplitWithoutDelimiter(s, sep);
    } else if parts[0] == [] {
      var more := parts[1..];
      assert s == [sep] + Join(more, sep);
      assert s[1..] == Join(more, sep);
      SplitUnique(s[1..], sep, more);
      assert parts == [""] + more;
    } else {
      var c := parts[0][0];
      var tail := [parts[0][1..]] + parts[1..];
      assert tail[1..] == parts[1..];
      assert parts[0] == [c] + parts[0][1..];
      assert Join(tail, sep) == parts[0][1..] + [sep] + Join(parts[1..], sep);
      assert s == [c] + Join(tail, sep);
      assert s[1..] == Join(tail, sep);
      assert c != sep by { assert c == parts[0][0]; }
      forall i | 0 <= i < |tail| ensures sep !in tail[i] {
        if i == 0 {
          assert forall k :: 0 <= k < |parts[0][1..]| ==> parts[0][1..][k] == parts[0][k + 1];
        } else {
          assert tail[i] == parts[i];
        }
      }
      SplitUnique(s[1..], sep, tail);
      assert parts == [[c] + tail[0]] + tail[1..];
    }
  }

  lemma {:induction false} SplitWithoutDelimiter(s: string, sep: char)
    requires sep !in s
    ensures Split(s, sep) == [s]
    decreases |s|
  {
    if s != [] {
      assert sep !in s[1..] by { assert forall k :: 0 <= k < |s[1..]| ==> s[1..][k] == s[k + 1]; }
      SplitWithoutDelimiter(s[1..], sep);
      assert [s[0]] + s[1..] == s;
    }
  }

  // ---------------------------------------------------------------------------
  // Decimal text of integers: toString and toLongOrNull

  predicate IsDigit(c: char) {
    '0' <= c <= '9'
  }

  predicate AllDigits(s: string) {
    forall i :: 0 <= i < |s| ==> IsDigit(s[i])
  }

  function DigitChar(d: nat): (c: char)
    requires d < 10
    ensures IsDigit(c) && DigitValue(c) == d
  {
    (48 + d) as char
  }

  function DigitValue(c: char): (d: nat)
    requires IsDigit(c)
    ensures d < 10
  {
    (c as int) - 48
  }

  /** Decimal digits of a natural number, most significant first, no leading zeros. */
  function ShowNat(n: nat): (s: string)
    ensures |s| >= 1 && AllDigits(s)
    ensures s[0] == '0' <==> n == 0
  {
    if n < 10 then [DigitChar(n)] else ShowNat(n / 10) + [DigitChar(n % 10)]
  }

  /** `Int.toString()` / `Long.toString()`: a minus sign for negatives, then the digits. */
  function ShowInt(n: int): (s: string)
    ensures |s| >= 1
    ensures n < 0 <==> s[0] == '-'
    ensures n >= 0 ==> AllDigits(s)
    ensures n >= 0 ==> (s[0] == '0' <==> n == 0)
    ensures n < 0 ==> |s| >= 2 && AllDigits(s[1..]) && s[1] != '0'
  {
    if n < 0 then "-" + ShowNat(-n) else ShowNat(n)
  }

  /** The number a string of decimal digits denotes. */
  function DigitsValue(s: string): nat
    requires AllDigits(s)
  {
    if s == [] then 0 else DigitsValue(s[..|s| - 1]) * 10 + DigitValue(s[|s| - 1])
  }

  /**
   * `String.toLongOrNull()`: an optional '+' or '-' followed by at least one
   * decimal digit, whose value fits in a Long; anything else gives null.
   */
  function ToLongOrNull(s: string): (r: Option<Long>)
    ensures r.Some? ==> |s| >= 1 && AllDigits(s[if s[0] == '-' || s[0] == '+' then 1 else 0..])
    ensures s == [] || s == "-" || s == "+" ==> r == None
  {
    if s == [] then None
    else
      var negative := s[0] == '-';
      var digits := if s[0] == '-' || s[0] == '+' then s[1..] else s;
      if digits == [] || !AllDigits(digits) then None
      else
        var v: int := if negative then -(DigitsValue(digits) as int) else DigitsValue(digits);
        if LongMin <= v <= LongMax then Some(v) else None
  }

  /**
   * `toLongOrNull` on an optional sign followed by one or more digits: the
   * signed value when it lies within the Long range, null when it does not.
   */
  lemma ToLongOrNullOfSignedDigits(sign: string, digits: string)
    requires sign == "" || sign == "+" || sign == "-"
    requires digits != [] && AllDigits(digits)
    ensures var v := if sign == "-" then -(DigitsValue(digits) as int) else DigitsValue(digits) as int;
      ToLongOrNull(sign + digits) == if LongMin <= v <= LongMax then Some(v) else None
  {
    var s := sign + digits;
    if sign == "" {
      assert s == digits;
      assert IsDigit(digits[0]);
    } else {
      assert s[0] == sign[0];
      assert s[1..] == digits;
    }
  }

  lemma {:induction false} DigitsValueOfShowNat(n: nat)
    ensures DigitsValue(ShowNat(n)) == n
  {
    var s := ShowNat(n);
    if n < 10 {
      assert s[..|s| - 1] == [];
    } else {
      DigitsValueOfShowNat(n / 10);
      assert s[..|s| - 1] == ShowNat(n / 10);
    }
  }

  /** `toString()` followed by `toLongOrNull()` gives back every Long, negative ones included. */
  lemma ToLongOrNullOfShowInt(n: Long)
    ensures ToLongOrNull(ShowInt(n)) == Some(n)
  {
    var s := ShowInt(n);
    if n < 0 {
      var m: nat := -(n as int);
      DigitsValueOfShowNat(m);
      assert s[1..] == ShowNat(m);
    } else {
      DigitsValueOfShowNat(n);
      assert s[0] != '+';
    }
  }
}
