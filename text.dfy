/** The Kotlin string library calls the core relies on: `isWhitespace`,
    `isBlank`, `trim`, `isDigit`, `filter`, `toLongOrNull` and `Long.toString`. */
module Text {
  import opened Common

  /** Kotlin's `Char.isWhitespace()`: Java's `Character.isWhitespace` together
      with `Character.isSpaceChar` (the Zs, Zl and Zp categories). */
  predicate IsWhitespace(c: char) {
    || c == '\t' || c == '\n' || c == '\U{B}' || c == '\U{C}' || c == '\r'
    || ('\U{1C}' <= c <= '\U{1F}')
    || c == ' ' || c == '\U{A0}' || c == '\U{1680}'
    || ('\U{2000}' <= c <= '\U{200A}')
    || c == '\U{2028}' || c == '\U{2029}' || c == '\U{202F}' || c == '\U{205F}' || c == '\U{3000}'
  }

  /** Kotlin's `isBlank()`: empty or whitespace only. */
  predicate IsBlank(s: string) {
    forall i :: 0 <= i < |s| ==> IsWhitespace(s[i])
  }

  /** Drops the leading whitespace. */
  function TrimStart(s: string): (r: string)
    ensures |r| <= |s| && r == s[|s| - |r|..]
    ensures IsBlank(s[..|s| - |r|])
    ensures r == [] || !IsWhitespace(r[0])
  {
    if s != [] && IsWhitespace(s[0]) then
      var r := TrimStart(s[1..]);
      DropLeadingWhitespace(s, r);
      r
    else s
  }

  /** One leading whitespace character more: what `TrimStart(s[1..])` keeps
      is what `TrimStart(s)` keeps. */
  lemma DropLeadingWhitespace(s: string, r: string)
    requires s != [] && IsWhitespace(s[0])
    requires |r| <= |s| - 1 && r == s[1..][|s| - 1 - |r|..] && IsBlank(s[1..][..|s| - 1 - |r|])
    ensures r == s[|s| - |r|..] && IsBlank(s[..|s| - |r|])
  {
    assert s[..|s| - |r|] == [s[0]] + s[1..][..|s| - 1 - |r|];
  }

  /** Drops the trailing whitespace. */
  function TrimEnd(s: string): (r: string)
    ensures |r| <= |s| && r == s[..|r|]
    ensures IsBlank(s[|r|..])
    ensures r == [] || !IsWhitespace(r[|r| - 1])
  {
    if s != [] && IsWhitespace(s[|s| - 1]) then
      var r := TrimEnd(s[..|s| - 1]);
      DropTrailingWhitespace(s, r);
      r
    else s
  }

  /** One trailing whitespace character more: what `TrimEnd` of the shorter
      text keeps is what `TrimEnd(s)` keeps. */
  lemma DropTrailingWhitespace(s: string, r: string)
    requires s != [] && IsWhitespace(s[|s| - 1])
    requires |r| <= |s| - 1 && r == s[..|s| - 1][..|r|] && IsBlank(s[..|s| - 1][|r|..])
    ensures r == s[..|r|] && IsBlank(s[|r|..])
  {
    assert s[|r|..] == s[..|s| - 1][|r|..] + [s[|s| - 1]];
  }

  /** Kotlin's `trim()`: the longest slice of `s` that neither starts nor ends
      with whitespace, everything cut off around it being whitespace. */
  function Trim(s: string): (r: string)
    ensures |r| <= |s|
    ensures r == [] || (!IsWhitespace(r[0]) && !IsWhitespace(r[|r| - 1]))
    ensures exists i, j :: 0 <= i <= j <= |s| && r == s[i..j] && IsBlank(s[..i]) && IsBlank(s[j..])
  {
    var t := TrimStart(s);
    var r := TrimEnd(t);
    CutBothEnds(s, t, r);
    r
  }

  /** A text `t` left after cutting whitespace off the front of `s`, and a
      text `r` left after cutting whitespace off the back of `t`: `r` is a
      slice of `s` with only whitespace around it. */
  lemma CutBothEnds(s: string, t: string, r: string)
    requires |t| <= |s| && t == s[|s| - |t|..] && IsBlank(s[..|s| - |t|])
    requires |r| <= |t| && r == t[..|r|] && IsBlank(t[|r|..])
    ensures exists i, j :: 0 <= i <= j <= |s| && r == s[i..j] && IsBlank(s[..i]) && IsBlank(s[j..])
  {
    PrefixOfSuffix(s, t, r);
    var i, j := |s| - |t|, |s| - |t| + |r|;
    assert r == s[i..j] && IsBlank(s[..i]) && IsBlank(s[j..]);
  }

  /** A prefix `r` of a suffix `t` of `s`, followed in `t` by whitespace only,
      is a slice of `s` followed in `s` by whitespace only. */
  lemma PrefixOfSuffix(s: string, t: string, r: string)
    requires |t| <= |s| && t == s[|s| - |t|..]
    requires |r| <= |t| && r == t[..|r|] && IsBlank(t[|r|..])
    ensures r == s[|s| - |t|..|s| - |t| + |r|] && IsBlank(s[|s| - |t| + |r|..])
  {
    SliceOfSuffix(s, |s| - |t|, |r|);
    SuffixOfSuffix(s, |s| - |t|, |r|);
  }

  /** A suffix of a suffix is a suffix. */
  lemma SuffixOfSuffix(s: string, i: nat, n: nat)
    requires i + n <= |s|
    ensures s[i..][n..] == s[i + n..]
  {
  }

  /** A prefix of a suffix is a slice. */
  lemma SliceOfSuffix(s: string, i: nat, n: nat)
    requires i + n <= |s|
    ensures s[i..][..n] == s[i..i + n]
  {
  }

  /** `trim()` yields the empty string exactly when the string is blank. */
  lemma {:induction false} TrimEmptyIffBlank(s: string)
    ensures Trim(s) == [] <==> IsBlank(s)
  {
    var t := TrimStart(s);
    if !IsBlank(s) && t != [] {
      assert t[0..] == t;
    }
  }

  /** Checking `isBlank()` after `trim()` decides the same as checking it before. */
  lemma TrimBlankIffBlank(s: string)
    ensures IsBlank(Trim(s)) <==> IsBlank(s)
  {
    TrimEmptyIffBlank(s);
    if Trim(s) != [] {
      assert !IsWhitespace(Trim(s)[0]);
    }
  }

  /** A string that already starts and ends with a non-whitespace character is
      its own trim. */
  lemma TrimKeeps(s: string)
    requires s != [] && !IsWhitespace(s[0]) && !IsWhitespace(s[|s| - 1])
    ensures Trim(s) == s
  {
  }

  /** Kotlin's `nullableString?.takeIf { it.isNotBlank() }`: a blank or absent
      filter becomes absent, anything else is passed on unchanged (not trimmed). */
  function TakeIfNotBlank(s: Option<string>): (r: Option<string>)
    ensures r.None? <==> (s.None? || IsBlank(s.value))
    ensures r.Some? ==> r == s
  {
    if s.Some? && !IsBlank(s.value) then s else None
  }

  /** Kotlin's `ifBlank { null }` on a non-null string. */
  function NullIfBlank(s: string): (r: Option<string>)
    ensures r == TakeIfNotBlank(Some(s))
  {
    if IsBlank(s) then None else Some(s)
  }

  /** Absence after normalisation is stable: normalising twice changes nothing. */
  lemma TakeIfNotBlankIdempotent(s: Option<string>)
    ensures TakeIfNotBlank(TakeIfNotBlank(s)) == TakeIfNotBlank(s)
  {
  }

  // ---------------------------------------------------------------- digits

  /** `Char.isDigit()`, restricted to the ASCII digits. */
  predicate IsDigit(c: char) {
    '0' <= c <= '9'
  }

  predicate AllDigits(s: string) {
    forall i :: 0 <= i < |s| ==> IsDigit(s[i])
  }

  /** `s.filter { it.isDigit() }`: keeps exactly the digits, each as many times
      as it occurs. */
  function FilterDigits(s: string): (r: string)
    ensures AllDigits(r)
    ensures |r| <= |s|
    ensures forall c :: IsDigit(c) ==> multiset(r)[c] == multiset(s)[c]
    ensures AllDigits(s) ==> r == s
  {
    if s == [] then []
    else
      assert s == [s[0]] + s[1..];
      (if IsDigit(s[0]) then [s[0]] else []) + FilterDigits(s[1..])
  }

  /** Filtering twice is filtering once. */
  lemma FilterDigitsIdempotent(s: string)
    ensures FilterDigits(FilterDigits(s)) == FilterDigits(s)
  {
  }

  /** The value of a string of decimal digits, most significant first. */
  function DigitsValue(s: string): (v: nat)
    requires AllDigits(s)
  {
    if s == [] then 0 else DigitsValue(s[..|s| - 1]) * 10 + (s[|s| - 1] as int - '0' as int)
  }

  function DigitChar(d: nat): (c: char)
    requires d < 10
    ensures IsDigit(c) && c as int - '0' as int == d
  {
    ('0' as int + d) as char
  }

  /** Decimal text of a natural number, without leading zeros. */
  function DecimalText(n: nat): (s: string)
    ensures s != [] && AllDigits(s)
    ensures |s| > 1 ==> s[0] != '0'
  {
    if n < 10 then [DigitChar(n)] else DecimalText(n / 10) + [DigitChar(n % 10)]
  }

  /** Reading back the decimal text gives the number. */
  lemma {:induction false} DecimalTextValue(n: nat)
    ensures DigitsValue(DecimalText(n)) == n
  {
    if n >= 10 {
      DecimalTextValue(n / 10);
      var s := DecimalText(n);
      assert s[..|s| - 1] == DecimalText(n / 10);
    }
  }

  const LongMin: int := -0x8000_0000_0000_0000
  const LongMax: int := 0x7FFF_FFFF_FFFF_FFFF

  /** `Long.toString()` (and `Int.toString()`): optional minus sign and digits. */
  function LongText(n: int): (s: string)
    ensures s != []
    ensures n >= 0 ==> AllDigits(s)
    ensures n < 0 ==> s[0] == '-' && AllDigits(s[1..])
  {
    if n < 0 then "-" + DecimalText(-n) else DecimalText(n)
  }

  /** Kotlin's `String.toLongOrNull()` for ASCII digits: an optional sign
      followed by at least one digit, within the range of a 64-bit Long;
      anything else (empty, stray character, overflow) is null. */
  function ToLongOrNull(s: string): (r: Option<int>)
    ensures r.Some? ==> LongMin <= r.value <= LongMax
    ensures s == [] ==> r.None?
  {
    if s == [] then None
    else if s[0] == '-' || s[0] == '+' then
      if |s| == 1 || !AllDigits(s[1..]) then None
      else
        var v: int := DigitsValue(s[1..]);
        if s[0] == '-' then (if -v >= LongMin then Some(-v) else None)
        else (if v <= LongMax then Some(v) else None)
    else if AllDigits(s) && DigitsValue(s) <= LongMax then Some(DigitsValue(s))
    else None
  }

  /** Parsing the text of any Long gives that Long back. */
  lemma LongTextRoundTrip(n: int)
    requires LongMin <= n <= LongMax
    ensures ToLongOrNull(LongText(n)) == Some(n)
  {
    if n < 0 {
      DecimalTextValue(-n);
      assert LongText(n)[1..] == DecimalText(-n);
    } else {
      DecimalTextValue(n);
    }
  }

  /** A number written between a fixed prefix and suffix reads back from the
      characters between them. */
  lemma CodeReadsBack(prefix: string, code: int, suffix: string)
    requires LongMin <= code <= LongMax
    ensures var m := prefix + LongText(code) + suffix;
            ToLongOrNull(m[|prefix|..|m| - |suffix|]) == Some(code)
  {
    var m := prefix + LongText(code) + suffix;
    assert m[|prefix|..|m| - |suffix|] == LongText(code);
    LongTextRoundTrip(code);
  }

  /** A string of digits parses exactly when it is non-empty and its value fits
      a Long; this is what an id filter kept to digits can send. */
  lemma DigitsParse(s: string)
    requires AllDigits(s)
    ensures ToLongOrNull(s).Some? <==> (s != [] && DigitsValue(s) <= LongMax)
    ensures ToLongOrNull(s).Some? ==> ToLongOrNull(s).value == DigitsValue(s)
  {
  }
}
