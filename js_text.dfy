/** The few JavaScript string built-ins the dashboard relies on: `toLowerCase`,
    `toUpperCase`, `trim`, `split` on a one-character separator, and the `BigInt(string)`
    conversion. Case mapping is modelled on ASCII letters only. */
module JsText {
  import opened Wrappers

  // ---------------------------------------------------------------------------
  // Case mapping

  predicate IsAsciiUpper(c: char) { 'A' <= c <= 'Z' }
  predicate IsAsciiLower(c: char) { 'a' <= c <= 'z' }

  function LowerChar(c: char): char {
    if IsAsciiUpper(c) then (c as int - 'A' as int + 'a' as int) as char else c
  }

  function UpperChar(c: char): char {
    if IsAsciiLower(c) then (c as int - 'a' as int + 'A' as int) as char else c
  }

  /** `s.toLowerCase()` */
  function Lower(s: string): (r: string)
    ensures |r| == |s|
    ensures forall i :: 0 <= i < |s| ==> r[i] == LowerChar(s[i])
  {
    seq(|s|, i requires 0 <= i < |s| => LowerChar(s[i]))
  }

  /** `s.toUpperCase()` */
  function Upper(s: string): (r: string)
    ensures |r| == |s|
    ensures forall i :: 0 <= i < |s| ==> r[i] == UpperChar(s[i])
  {
    seq(|s|, i requires 0 <= i < |s| => UpperChar(s[i]))
  }

  /** A string that `toLowerCase` leaves as it is. */
  predicate IsLowerCase(s: string) {
    forall i :: 0 <= i < |s| ==> !IsAsciiUpper(s[i])
  }

  lemma LowerIsLowerCase(s: string)
    ensures IsLowerCase(Lower(s))
  {
    var r := Lower(s);
    forall i | 0 <= i < |r| ensures !IsAsciiUpper(r[i]) {
      assert r[i] == LowerChar(s[i]);
    }
  }

  lemma LowerOfLowerCase(s: string)
    requires IsLowerCase(s)
    ensures Lower(s) == s
  {
    assert forall i :: 0 <= i < |s| ==> Lower(s)[i] == s[i];
  }

  /** Lower-casing twice is lower-casing once. */
  lemma LowerIdempotent(s: string)
    ensures Lower(Lower(s)) == Lower(s)
  {
    LowerIsLowerCase(s);
    LowerOfLowerCase(Lower(s));
  }

  /** Upper-casing twice is upper-casing once. */
  lemma UpperIdempotent(s: string)
    ensures Upper(Upper(s)) == Upper(s)
  {
    var u := Upper(s);
    forall i | 0 <= i < |u| ensures Upper(u)[i] == u[i] {
      assert u[i] == UpperChar(s[i]);
    }
  }

  // ---------------------------------------------------------------------------
  // Whitespace and trim (ECMAScript WhiteSpace and LineTerminator code points)

  predicate IsWhitespace(c: char) {
    var n := c as int;
    n == 0x09 || n == 0x0A || n == 0x0B || n == 0x0C || n == 0x0D || n == 0x20 ||
    n == 0xA0 || n == 0x1680 || (0x2000 <= n <= 0x200A) || n == 0x2028 || n == 0x2029 ||
    n == 0x202F || n == 0x205F || n == 0x3000 || n == 0xFEFF
  }

  predicate IsBlank(s: string) {
    forall i :: 0 <= i < |s| ==> IsWhitespace(s[i])
  }

  function TrimStart(s: string): (r: string)
    decreases |s|
  {
    if |s| > 0 && IsWhitespace(s[0]) then TrimStart(s[1..]) else s
  }

  function TrimEnd(s: string): (r: string)
    decreases |s|
  {
    if |s| > 0 && IsWhitespace(s[|s| - 1]) then TrimEnd(s[..|s| - 1]) else s
  }

  /** `s.trim()` */
  function Trim(s: string): string {
    TrimEnd(TrimStart(s))
  }

  lemma {:induction false} TrimStartEmpty(s: string)
    ensures TrimStart(s) == [] <==> IsBlank(s)
    decreases |s|
  {
    if |s| > 0 {
      TrimStartEmpty(s[1..]);
      if IsWhitespace(s[0]) {
        assert IsBlank(s) <==> IsBlank(s[1..]) by {
          assert forall i :: 0 < i < |s| ==> s[i] == s[1..][i - 1];
        }
      }
    }
  }

  lemma {:induction false} TrimEndEmpty(s: string)
    ensures TrimEnd(s) == [] <==> IsBlank(s)
    decreases |s|
  {
    if |s| > 0 {
      var p := s[..|s| - 1];
      TrimEndEmpty(p);
      if IsWhitespace(s[|s| - 1]) {
        assert IsBlank(s) <==> IsBlank(p) by {
          assert forall i :: 0 <= i < |p| ==> s[i] == p[i];
        }
      }
    }
  }

  lemma {:induction false} TrimStartSuffix(s: string)
    ensures |TrimStart(s)| <= |s| && TrimStart(s) == s[|s| - |TrimStart(s)|..]
    ensures |TrimStart(s)| > 0 ==> !IsWhitespace(TrimStart(s)[0])
    decreases |s|
  {
    if |s| > 0 && IsWhitespace(s[0]) {
      TrimStartSuffix(s[1..]);
    }
  }

  /** `s.trim() === ''` exactly when every character of `s` is whitespace. */
  lemma TrimEmptyIffBlank(s: string)
    ensures Trim(s) == [] <==> IsBlank(s)
  {
    var t := TrimStart(s);
    TrimEndEmpty(t);
    TrimStartEmpty(s);
    TrimStartSuffix(s);
    assert IsBlank(t) <==> t == [];
  }

  /** A string without whitespace is left alone by `trim`. */
  lemma TrimNoWhitespace(s: string)
    requires forall i :: 0 <= i < |s| ==> !IsWhitespace(s[i])
    ensures Trim(s) == s
  {
  }

  // ---------------------------------------------------------------------------
  // Split and join on a one-character separator

  /** `s.split(d)`: the pieces between the separators; always at least one piece,
      `''.split(d) == ['']`. */
  function Split(s: string, d: char): (r: seq<string>)
    ensures |r| >= 1
    decreases |s|
  {
    if s == [] then [[]]
    else if s[0] == d then [[]] + Split(s[1..], d)
    else
      var t := Split(s[1..], d);
      [[s[0]] + t[0]] + t[1..]
  }

  /** `parts.join(d)` */
  function Join(parts: seq<string>, d: char): string
    requires |parts| >= 1
    decreases |parts|
  {
    if |parts| == 1 then parts[0] else parts[0] + [d] + Join(parts[1..], d)
  }

  lemma {:induction false} SplitPiecesHaveNoSeparator(s: string, d: char)
    ensures forall k :: 0 <= k < |Split(s, d)| ==> d !in Split(s, d)[k]
    decreases |s|
  {
    if s != [] {
      SplitPiecesHaveNoSeparator(s[1..], d);
    }
  }

  /** Joining the pieces gives back the string. */
  lemma {:induction false} JoinSplit(s: string, d: char)
    ensures Join(Split(s, d), d) == s
    decreases |s|
  {
    if s == [] {
    } else if s[0] == d {
      JoinSplit(s[1..], d);
      assert Split(s, d)[1..] == Split(s[1..], d);
    } else {
      JoinSplit(s[1..], d);
      var t := Split(s[1..], d);
      var r := Split(s, d);
      if |t| > 1 {
        assert r[1..] == t[1..];
        assert Join(t, d) == t[0] + [d] + Join(t[1..], d);
      }
    }
  }

  /** Splitting a join of separator-free pieces gives back the pieces. */
  lemma {:induction false} SplitJoin(parts: seq<string>, d: char)
    requires |parts| >= 1
    requires forall k :: 0 <= k < |parts| ==> d !in parts[k]
    ensures Split(Join(parts, d), d) == parts
    decreases |parts|, |parts[0]|
  {
    var p := parts[0];
    if p == [] {
      if |parts| > 1 {
        SplitJoin(parts[1..], d);
        assert Join(parts, d) == [d] + Join(parts[1..], d);
        assert Join(parts, d)[1..] == Join(parts[1..], d);
      }
    } else {
      var rest := [p[1..]] + parts[1..];
      assert rest[1..] == parts[1..];
      assert p[0] != d by { assert p[0] == parts[0][0]; }
      assert forall k :: 1 <= k < |rest| ==> rest[k] == parts[k];
      SplitJoin(rest, d);
      var j := Join(parts, d);
      if |parts| == 1 {
        assert j == p == [p[0]] + p[1..];
      } else {
        assert j == p + [d] + Join(parts[1..], d);
        assert Join(rest, d) == p[1..] + [d] + Join(parts[1..], d);
      }
      assert j == [p[0]] + Join(rest, d);
      assert j[1..] == Join(rest, d);
      assert j[0] == p[0];
      var t := Split(j[1..], d);
      assert t == rest;
      assert Split(j, d) == [[p[0]] + t[0]] + t[1..];
      assert [p[0]] + t[0] == p;
      assert Split(j, d) == [p] + parts[1..];
    }
  }

  // ---------------------------------------------------------------------------
  // BigInt(string) and BigInt.prototype.toString()

  predicate IsDecimalDigit(c: char) { '0' <= c <= '9' }

  function DigitValue(c: char): (v: nat)
    ensures IsDecimalDigit(c) ==> v < 10
    ensures v < 36
  {
    if '0' <= c <= '9' then (c as int - '0' as int)
    else if 'a' <= c <= 'z' then (c as int - 'a' as int + 10)
    else if 'A' <= c <= 'Z' then (c as int - 'A' as int + 10)
    else 35
  }

  predicate IsDigitOf(c: char, base: nat) {
    ('0' <= c <= '9' || 'a' <= c <= 'z' || 'A' <= c <= 'Z') && DigitValue(c) < base
  }

  /** The value of a non-empty digit string in `base`, or None if a character is not a
      digit of that base. */
  function DigitsValue(s: string, base: nat): (r: Option<nat>)
    requires 2 <= base <= 16
    decreases |s|
  {
    if s == [] then None
    else if !IsDigitOf(s[|s| - 1], base) then None
    else if |s| == 1 then Some(DigitValue(s[0]))
    else match DigitsValue(s[..|s| - 1], base)
      case None => None
      case Some(v) => Some(v * base + DigitValue(s[|s| - 1]))
  }

  /** `BigInt(s)` for a string: surrounding whitespace is ignored, the empty string is
      0n, `0x`/`0o`/`0b` prefixes select a base (without sign), otherwise an optional sign
      and decimal digits; anything else throws (None). */
  function StringToBigInt(s: string): Option<int> {
    var t := Trim(s);
    if t == [] then Some(0)
    else if |t| > 2 && t[0] == '0' && (t[1] == 'x' || t[1] == 'X') then
      match DigitsValue(t[2..], 16) case None => None case Some(v) => Some(v)
    else if |t| > 2 && t[0] == '0' && (t[1] == 'o' || t[1] == 'O') then
      match DigitsValue(t[2..], 8) case None => None case Some(v) => Some(v)
    else if |t| > 2 && t[0] == '0' && (t[1] == 'b' || t[1] == 'B') then
      match DigitsValue(t[2..], 2) case None => None case Some(v) => Some(v)
    else if t[0] == '-' then
      match DigitsValue(t[1..], 10) case None => None case Some(v) => Some(0 - v as int)
    else if t[0] == '+' then
      match DigitsValue(t[1..], 10) case None => None case Some(v) => Some(v)
    else
      match DigitsValue(t, 10) case None => None case Some(v) => Some(v)
  }

  function DigitChar(d: nat): (c: char)
    requires d < 10
    ensures IsDecimalDigit(c) && DigitValue(c) == d
  {
    ('0' as int + d) as char
  }

  /** Decimal digits of a natural number, most significant first. */
  function NatToDecimal(n: nat): (r: string)
    ensures |r| >= 1 && IsDecimalDigit(r[0])
    ensures forall i :: 0 <= i < |r| ==> IsDecimalDigit(r[i])
  {
    if n < 10 then [DigitChar(n)] else NatToDecimal(n / 10) + [DigitChar(n % 10)]
  }

  /** `n.toString()` for a bigint `n`. */
  function BigIntToString(n: int): string {
    if n < 0 then "-" + NatToDecimal(-n) else NatToDecimal(n)
  }

  lemma {:induction false} DecimalRoundTrip(n: nat)
    ensures DigitsValue(NatToDecimal(n), 10) == Some(n)
  {
    if n >= 10 {
      DecimalRoundTrip(n / 10);
      var s := NatToDecimal(n);
      assert s[..|s| - 1] == NatToDecimal(n / 10);
    }
  }

  /** A bigint survives `BigInt(n.toString())`. */
  lemma BigIntStringRoundTrip(n: int)
    ensures StringToBigInt(BigIntToString(n)) == Some(n)
  {
    var s := BigIntToString(n);
    var digits := NatToDecimal(if n < 0 then -n else n);
    assert s == if n < 0 then "-" + digits else digits;
    assert forall i :: 0 <= i < |s| ==> !IsWhitespace(s[i]) by {
      forall i | 0 <= i < |s| ensures !IsWhitespace(s[i]) {
        if n < 0 && i > 0 { assert s[i] == digits[i - 1]; }
      }
    }
    TrimNoWhitespace(s);
    DecimalRoundTrip(if n < 0 then -n else n);
    if n < 0 {
      assert s[1..] == digits;
      assert s[0] == '-';
    } else {
      assert IsDecimalDigit(s[0]);
      assert |s| > 2 ==> IsDecimalDigit(s[1]);
    }
  }
}
