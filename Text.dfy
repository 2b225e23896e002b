/** String operations the TypeScript code takes from the JavaScript runtime:
    lower-casing, trimming, substring search, joining, decimal printing, and
    the `parseFloat(s.replace(/[^0-9.\-]/g, ''))` idiom used to read a number
    out of a table cell. */
module Text {
  import opened Common

  // ---------------------------------------------------------------- case

  predicate IsUpper(c: char) { 'A' <= c <= 'Z' }

  function LowerChar(c: char): (r: char)
    ensures !IsUpper(r)
    ensures !IsUpper(c) ==> r == c
  {
    if IsUpper(c) then (c as int + 32) as char else c
  }

  /** `toLowerCase()` on the ASCII letters. */
  function ToLower(s: string): (r: string)
    ensures |r| == |s|
    ensures forall i :: 0 <= i < |s| ==> r[i] == LowerChar(s[i])
  {
    if s == [] then [] else [LowerChar(s[0])] + ToLower(s[1..])
  }

  /** Lower-casing twice is lower-casing once. */
  lemma {:induction false} ToLowerIdempotent(s: string)
    ensures ToLower(ToLower(s)) == ToLower(s)
  {
    var t := ToLower(s);
    assert forall i :: 0 <= i < |t| ==> LowerChar(t[i]) == t[i];
  }

  // ---------------------------------------------------------------- trimming

  /** The characters `String.prototype.trim` removes (white space and line terminators). */
  predicate IsSpace(c: char) {
    c == '\t' || c == '\n' || c == '\U{000B}' || c == '\U{000C}' || c == '\r' || c == ' '
    || c == '\U{00A0}' || c == '\U{1680}' || ('\U{2000}' <= c <= '\U{200A}')
    || c == '\U{2028}' || c == '\U{2029}' || c == '\U{202F}' || c == '\U{205F}'
    || c == '\U{3000}' || c == '\U{FEFF}'
  }

  function TrimStart(s: string): (r: string)
    ensures |r| <= |s|
  {
    if s != [] && IsSpace(s[0]) then TrimStart(s[1..]) else s
  }

  function TrimEnd(s: string): (r: string)
    ensures |r| <= |s|
  {
    if s != [] && IsSpace(s[|s| - 1]) then TrimEnd(s[..|s| - 1]) else s
  }

  /** `trim()`: `s` without the white space at either end. */
  function Trim(s: string): (r: string)
    ensures |r| <= |s|
  {
    TrimEnd(TrimStart(s))
  }

  /** `trimStart` removes a prefix of white space and stops at the first other character. */
  lemma {:induction false} TrimStartSpec(s: string)
    ensures var r := TrimStart(s);
      r == s[|s| - |r|..]
      && (forall i :: 0 <= i < |s| - |r| ==> IsSpace(s[i]))
      && (r != [] ==> !IsSpace(r[0]))
  {
    if s != [] && IsSpace(s[0]) {
      TrimStartSpec(s[1..]);
      var r := TrimStart(s);
      assert forall i :: 1 <= i < |s| - |r| ==> s[i] == s[1..][i - 1];
    }
  }

  /** `trimEnd` removes a suffix of white space and stops at the last other character. */
  lemma {:induction false} TrimEndSpec(s: string)
    ensures var r := TrimEnd(s);
      r == s[..|r|]
      && (forall i :: |r| <= i < |s| ==> IsSpace(s[i]))
      && (r != [] ==> !IsSpace(r[|r| - 1]))
  {
    if s != [] && IsSpace(s[|s| - 1]) {
      TrimEndSpec(s[..|s| - 1]);
    }
  }

  /** `trim()` keeps the slice that starts where `trimStart` stopped. */
  lemma TrimAt(s: string)
    ensures var r := Trim(s);
      var a := |s| - |TrimStart(s)|;
      (r != [] ==> !IsSpace(r[0]) && !IsSpace(r[|r| - 1]))
      && MatchesAt(s, r, a)
      && (forall i :: 0 <= i < a ==> IsSpace(s[i]))
      && (forall i :: a + |r| <= i < |s| ==> IsSpace(s[i]))
  {
    var t := TrimStart(s);
    var r := TrimEnd(t);
    TrimStartSpec(s);
    TrimEndSpec(t);
    var a := |s| - |t|;
    assert r == t[..|r|] && t == s[a..];
    assert r == s[a..a + |r|];
    assert forall i :: a + |r| <= i < |s| ==> s[i] == t[i - a];
  }

  /** What `trim()` keeps is a slice of the text with no white space at either
      end, and everything it drops is white space. */
  lemma TrimSpec(s: string)
    ensures var r := Trim(s);
      (r != [] ==> !IsSpace(r[0]) && !IsSpace(r[|r| - 1]))
      && exists a :: MatchesAt(s, r, a)
           && (forall i :: 0 <= i < a ==> IsSpace(s[i]))
           && (forall i :: a + |r| <= i < |s| ==> IsSpace(s[i]))
  {
    TrimAt(s);
    var a := |s| - |TrimStart(s)|;
    assert MatchesAt(s, Trim(s), a);
  }

  /** What `trim()` keeps is found in the text. */
  lemma TrimContained(s: string)
    ensures Contains(s, Trim(s))
  {
    TrimSpec(s);
    var r := Trim(s);
    var a :| MatchesAt(s, r, a);
    assert 0 <= a <= |s| - |r|;
  }

  // ---------------------------------------------------------------- search

  predicate MatchesAt(s: string, sub: string, i: int) {
    0 <= i && i + |sub| <= |s| && s[i..i + |sub|] == sub
  }

  /** `s.includes(sub)`, or a regular-expression test for the literal `sub`. */
  predicate Contains(s: string, sub: string) {
    exists i | 0 <= i <= |s| - |sub| :: MatchesAt(s, sub, i)
  }

  /** `regex.test(s)` for an alternation of literal words. */
  predicate ContainsAny(s: string, words: seq<string>) {
    exists k :: 0 <= k < |words| && Contains(s, words[k])
  }

  /** A string that holds `mid` holds everything `mid` holds. */
  lemma ContainsTransitive(s: string, mid: string, sub: string)
    requires Contains(s, mid) && Contains(mid, sub)
    ensures Contains(s, sub)
  {
    var i :| 0 <= i <= |s| - |mid| && MatchesAt(s, mid, i);
    var j :| 0 <= j <= |mid| - |sub| && MatchesAt(mid, sub, j);
    forall k | 0 <= k < |sub|
      ensures s[i + j + k] == sub[k]
    {
      assert mid[j + k] == sub[k];
      assert s[i + (j + k)] == mid[j + k];
    }
    assert s[i + j..i + j + |sub|] == sub;
    assert MatchesAt(s, sub, i + j);
  }

  lemma ContainsSelf(s: string)
    ensures Contains(s, s)
  {
    assert MatchesAt(s, s, 0);
  }

  /** Text found in `s` is found in `s` with more text on either side. */
  lemma ContainsWithin(a: string, s: string, b: string, sub: string)
    requires Contains(s, sub)
    ensures Contains(a + s + b, sub)
  {
    var i :| 0 <= i <= |s| - |sub| && MatchesAt(s, sub, i);
    var t := a + s + b;
    forall k | 0 <= k < |sub|
      ensures t[|a| + i + k] == sub[k]
    {
      assert s[i + k] == sub[k];
      assert t[|a| + (i + k)] == s[i + k];
    }
    assert t[|a| + i..|a| + i + |sub|] == sub;
    assert MatchesAt(t, sub, |a| + i);
  }

  /** Lower-casing keeps what a text holds, lower-cased. */
  lemma ToLowerContains(s: string, sub: string)
    requires Contains(s, sub)
    ensures Contains(ToLower(s), ToLower(sub))
  {
    var i :| 0 <= i <= |s| - |sub| && MatchesAt(s, sub, i);
    var t, u := ToLower(s), ToLower(sub);
    forall k | 0 <= k < |u|
      ensures t[i + k] == u[k]
    {
      assert s[i + k] == sub[k];
    }
    assert t[i..i + |u|] == u;
    assert MatchesAt(t, u, i);
  }

  // ---------------------------------------------------------------- joining and printing

  /** `parts.join(sep)`. */
  function Join(parts: seq<string>, sep: string): (r: string)
    ensures parts == [] ==> r == []
    ensures |parts| == 1 ==> r == parts[0]
  {
    if parts == [] then []
    else if |parts| == 1 then parts[0]
    else parts[0] + sep + Join(parts[1..], sep)
  }

  /** Every part is found in the joined text. */
  lemma {:induction false} JoinContains(parts: seq<string>, sep: string, i: nat)
    requires i < |parts|
    ensures Contains(Join(parts, sep), parts[i])
    decreases i
  {
    if |parts| == 1 {
      ContainsSelf(parts[0]);
    } else if i == 0 {
      ContainsSelf(parts[0]);
      ContainsWithin([], parts[0], sep + Join(parts[1..], sep), parts[0]);
      assert [] + parts[0] + (sep + Join(parts[1..], sep)) == Join(parts, sep);
    } else {
      JoinContains(parts[1..], sep, i - 1);
      ContainsWithin(parts[0] + sep, Join(parts[1..], sep), [], parts[i]);
      assert parts[0] + sep + Join(parts[1..], sep) + [] == Join(parts, sep);
    }
  }

  function DigitChar(d: nat): char
    requires d < 10
  {
    "0123456789"[d]
  }

  /** The decimal text of a natural number, as a template literal prints it. */
  function NatToString(n: nat): (r: string)
    ensures r != []
    ensures forall i :: 0 <= i < |r| ==> '0' <= r[i] <= '9'
  {
    if n < 10 then [DigitChar(n)] else NatToString(n / 10) + [DigitChar(n % 10)]
  }

  // ---------------------------------------------------------------- reading numbers

  predicate IsDigit(c: char) { '0' <= c <= '9' }

  predicate IsNumericChar(c: char) { IsDigit(c) || c == '.' || c == '-' }

  /** `s.replace(/[^0-9.\-]/g, '')`. */
  function KeepNumeric(s: string): (r: string)
    ensures |r| <= |s|
    ensures forall i :: 0 <= i < |r| ==> IsNumericChar(r[i])
  {
    if s == [] then []
    else (if IsNumericChar(s[0]) then [s[0]] else []) + KeepNumeric(s[1..])
  }

  lemma {:induction false} KeepNumericAppend(a: string, b: string)
    ensures KeepNumeric(a + b) == KeepNumeric(a) + KeepNumeric(b)
  {
    if a == [] {
      assert a + b == b;
    } else {
      assert (a + b)[0] == a[0];
      assert (a + b)[1..] == a[1..] + b;
      KeepNumericAppend(a[1..], b);
    }
  }

  lemma {:induction false} KeepNumericTrimStart(s: string)
    ensures KeepNumeric(TrimStart(s)) == KeepNumeric(s)
  {
    if s != [] && IsSpace(s[0]) {
      KeepNumericTrimStart(s[1..]);
    }
  }

  lemma {:induction false} KeepNumericTrimEnd(s: string)
    ensures KeepNumeric(TrimEnd(s)) == KeepNumeric(s)
  {
    if s != [] && IsSpace(s[|s| - 1]) {
      var init := s[..|s| - 1];
      assert s == init + [s[|s| - 1]];
      KeepNumericAppend(init, [s[|s| - 1]]);
      assert KeepNumeric([s[|s| - 1]]) == [];
      KeepNumericTrimEnd(init);
    }
  }

  /** Trimming a cell first does not change which number is read from it. */
  lemma KeepNumericTrim(s: string)
    ensures KeepNumeric(Trim(s)) == KeepNumeric(s)
  {
    KeepNumericTrimStart(s);
    KeepNumericTrimEnd(TrimStart(s));
  }

  /** Reading a number from text gives the same result with or without trimming it first. */
  lemma ParseNumTrim(s: string)
    ensures ParseNum(Trim(s)) == ParseNum(s)
  {
    KeepNumericTrim(s);
  }

  /** The longest run of digits at the start of `s`. */
  function LeadingDigits(s: string): (r: string)
    ensures |r| <= |s| && r == s[..|r|]
    ensures forall i :: 0 <= i < |r| ==> IsDigit(r[i])
    ensures |r| < |s| ==> !IsDigit(s[|r|])
  {
    if s != [] && IsDigit(s[0]) then [s[0]] + LeadingDigits(s[1..]) else []
  }

  function DigitsValue(d: string): (v: nat)
    requires forall i :: 0 <= i < |d| ==> IsDigit(d[i])
  {
    if d == [] then 0
    else
      assert IsDigit(d[|d| - 1]);
      DigitsValue(d[..|d| - 1]) * 10 + (d[|d| - 1] as int - '0' as int)
  }

  function Pow10(n: nat): (p: nat)
    ensures p >= 1
  {
    if n == 0 then 1 else 10 * Pow10(n - 1)
  }

  /** `parseFloat` on text that holds only digits, points and minus signs: an
      optional minus, an integer part, an optional point and a fraction part,
      of which at least one digit must be present; anything after is ignored. */
  function ParseDecimalPrefix(s: string): Option<real>
  {
    var negative := s != [] && s[0] == '-';
    var body := if negative then s[1..] else s;
    var whole := LeadingDigits(body);
    var rest := body[|whole|..];
    var frac := if rest != [] && rest[0] == '.' then LeadingDigits(rest[1..]) else [];
    if whole == [] && frac == [] then None
    else Some(if negative then -Magnitude(whole, frac) else Magnitude(whole, frac))
  }

  /** The value of the digits `whole . frac`. */
  function Magnitude(whole: string, frac: string): real
    requires forall i :: 0 <= i < |whole| ==> IsDigit(whole[i])
    requires forall i :: 0 <= i < |frac| ==> IsDigit(frac[i])
  {
    DigitsValue(whole) as real + DigitsValue(frac) as real / Pow10(|frac|) as real
  }

  /** `parseFloat(s.replace(/[^0-9.\-]/g, ''))`, with `None` for NaN. */
  function ParseNum(s: string): Option<real>
  {
    ParseDecimalPrefix(KeepNumeric(s))
  }

  /** A number is read only from text that holds a digit. */
  lemma DecimalPrefixNeedsDigit(s: string)
    requires ParseDecimalPrefix(s).Some?
    ensures exists i :: 0 <= i < |s| && IsDigit(s[i])
  {
    var negative := s != [] && s[0] == '-';
    var body := if negative then s[1..] else s;
    var whole := LeadingDigits(body);
    var rest := body[|whole|..];
    if whole != [] {
      assert IsDigit(body[0]);
      assert IsDigit(s[if negative then 1 else 0]);
    } else {
      assert rest == body && rest[0] == '.';
      assert IsDigit(rest[1..][0]);
      assert IsDigit(s[if negative then 2 else 1]);
    }
  }

  lemma {:induction false} DigitSurvives(s: string, i: int)
    requires 0 <= i < |KeepNumeric(s)| && IsDigit(KeepNumeric(s)[i])
    ensures exists j :: 0 <= j < |s| && IsDigit(s[j])
  {
    if IsDigit(s[0]) {
    } else if IsNumericChar(s[0]) {
      assert KeepNumeric(s) == [s[0]] + KeepNumeric(s[1..]);
      DigitSurvives(s[1..], i - 1);
      var j :| 0 <= j < |s[1..]| && IsDigit(s[1..][j]);
      assert IsDigit(s[j + 1]);
    } else {
      assert KeepNumeric(s) == KeepNumeric(s[1..]);
      DigitSurvives(s[1..], i);
      var j :| 0 <= j < |s[1..]| && IsDigit(s[1..][j]);
      assert IsDigit(s[j + 1]);
    }
  }

  /** Text with no digit at all never reads as a number. */
  lemma NoDigitNoNumber(s: string)
    requires forall i :: 0 <= i < |s| ==> !IsDigit(s[i])
    ensures ParseNum(s) == None
  {
    if ParseNum(s).Some? {
      DecimalPrefixNeedsDigit(KeepNumeric(s));
      var i :| 0 <= i < |KeepNumeric(s)| && IsDigit(KeepNumeric(s)[i]);
      DigitSurvives(s, i);
    }
  }

  predicate AllDigits(d: string)
  {
    forall i :: 0 <= i < |d| ==> IsDigit(d[i])
  }

  /** Text made only of digits, points and minus signs survives the filter whole. */
  lemma {:induction false} KeepNumericKeeps(s: string)
    requires forall i :: 0 <= i < |s| ==> IsNumericChar(s[i])
    ensures KeepNumeric(s) == s
  {
    if s != [] {
      KeepNumericKeeps(s[1..]);
      assert s == [s[0]] + s[1..];
    }
  }

  /** The digit run at the start of `d + r` is `d` when `r` does not go on with a digit. */
  lemma {:induction false} LeadingDigitsOf(d: string, r: string)
    requires AllDigits(d)
    requires r == [] || !IsDigit(r[0])
    ensures LeadingDigits(d + r) == d
  {
    if d != [] {
      assert (d + r)[0] == d[0];
      assert (d + r)[1..] == d[1..] + r;
      LeadingDigitsOf(d[1..], r);
      assert d == [d[0]] + d[1..];
    } else {
      assert d + r == r;
    }
  }

  lemma DigitCharValue(d: nat)
    requires d < 10
    ensures IsDigit(DigitChar(d)) && DigitChar(d) as int - '0' as int == d
  {
    assert "0123456789"[0] == '0' && "0123456789"[1] == '1' && "0123456789"[2] == '2';
    assert "0123456789"[3] == '3' && "0123456789"[4] == '4' && "0123456789"[5] == '5';
    assert "0123456789"[6] == '6' && "0123456789"[7] == '7' && "0123456789"[8] == '8';
    assert "0123456789"[9] == '9';
  }

  /** Reading back the decimal text of a natural number gives that number. */
  lemma {:induction false} DigitsValueOfNat(n: nat)
    ensures AllDigits(NatToString(n)) && DigitsValue(NatToString(n)) == n
  {
    var r := NatToString(n);
    if n < 10 {
      DigitCharValue(n);
      assert r[..0] == [];
    } else {
      DigitsValueOfNat(n / 10);
      DigitCharValue(n % 10);
      assert r[..|r| - 1] == NatToString(n / 10);
      assert r[|r| - 1] == DigitChar(n % 10);
    }
  }

  /** The text `sign whole . fraction` that `parseFloat` reads as a decimal. */
  function DecimalText(negative: bool, whole: string, frac: string): string
  {
    (if negative then "-" else "") + whole + "." + frac
  }

  /** The value of `sign whole . fraction`. */
  function DecimalValue(negative: bool, whole: string, frac: string): real
    requires AllDigits(whole) && AllDigits(frac)
  {
    if negative then -Magnitude(whole, frac) else Magnitude(whole, frac)
  }

  /** The pieces `parseFloat` finds in an unsigned decimal: the digit run
      before the point, the point, and the digit run after it. */
  lemma UnsignedDecimal(whole: string, frac: string)
    requires AllDigits(whole) && AllDigits(frac)
    ensures var body := whole + "." + frac;
      && body != [] && body[0] != '-'
      && LeadingDigits(body) == whole
      && body[|whole|..] == "." + frac
      && LeadingDigits(frac) == frac
  {
    var body := whole + "." + frac;
    if whole != [] {
      assert body[0] == whole[0];
    } else {
      assert body[0] == '.';
    }
    assert body == whole + ("." + frac);
    LeadingDigitsOf(whole, "." + frac);
    LeadingDigitsOf(frac, []);
    assert frac + [] == frac;
  }

  /** An unsigned decimal starts with a digit or the point, never a minus sign. */
  lemma UnsignedStart(whole: string, frac: string)
    requires AllDigits(whole)
    ensures var body := whole + "." + frac; body != [] && body[0] != '-'
  {
    var body := whole + "." + frac;
    if whole != [] {
      assert body[0] == whole[0];
    } else {
      assert body[0] == '.';
    }
  }

  /** `parseFloat` on unsigned text, given the digit run it starts with and
      the digit run after a point that follows. */
  lemma DecimalPrefixPieces(body: string, whole: string, frac: string)
    requires AllDigits(whole) && AllDigits(frac) && (whole != [] || frac != [])
    requires body != [] && body[0] != '-'
    requires LeadingDigits(body) == whole && body[|whole|..] == "." + frac && LeadingDigits(frac) == frac
    ensures ParseDecimalPrefix(body) == Some(DecimalValue(false, whole, frac))
  {
    var rest := body[|whole|..];
    assert rest[0] == '.' && rest[1..] == frac;
  }

  /** An unsigned decimal with a digit on either side of the point reads as its value. */
  lemma DecimalPrefixUnsigned(whole: string, frac: string)
    requires AllDigits(whole) && AllDigits(frac) && (whole != [] || frac != [])
    ensures ParseDecimalPrefix(whole + "." + frac) == Some(DecimalValue(false, whole, frac))
  {
    UnsignedDecimal(whole, frac);
    DecimalPrefixPieces(whole + "." + frac, whole, frac);
  }

  /** A minus sign in front negates the value read from the rest. */
  lemma DecimalPrefixSigned(body: string)
    requires body != [] && body[0] != '-'
    ensures ParseDecimalPrefix("-" + body).Some? == ParseDecimalPrefix(body).Some?
    ensures ParseDecimalPrefix(body).Some? ==> ParseDecimalPrefix("-" + body).value == -ParseDecimalPrefix(body).value
  {
    assert ("-" + body)[0] == '-' && ("-" + body)[1..] == body;
  }

  /** Digits, points and minus signs pass the filter unchanged. */
  lemma DecimalTextNumeric(negative: bool, whole: string, frac: string)
    requires AllDigits(whole) && AllDigits(frac)
    ensures KeepNumeric(DecimalText(negative, whole, frac)) == DecimalText(negative, whole, frac)
  {
    var s := DecimalText(negative, whole, frac);
    assert forall i :: 0 <= i < |s| ==> IsNumericChar(s[i]);
    KeepNumericKeeps(s);
  }

  /** Text made of a digit run, a point and a digit run passes the filter
      unchanged, with or without a minus sign in front. */
  lemma UnsignedNumeric(whole: string, frac: string)
    requires AllDigits(whole) && AllDigits(frac)
    ensures KeepNumeric(whole + "." + frac) == whole + "." + frac
    ensures KeepNumeric("-" + (whole + "." + frac)) == "-" + (whole + "." + frac)
  {
    var body := whole + "." + frac;
    assert forall i :: 0 <= i < |body| ==> IsNumericChar(body[i]);
    KeepNumericKeeps(body);
    var s := "-" + body;
    assert forall i :: 0 <= i < |s| ==> IsNumericChar(s[i]);
    KeepNumericKeeps(s);
  }

  /** A minus sign followed by an unsigned decimal reads as its negation. */
  lemma DecimalPrefixNegative(whole: string, frac: string)
    requires AllDigits(whole) && AllDigits(frac) && (whole != [] || frac != [])
    ensures ParseDecimalPrefix("-" + (whole + "." + frac)) == Some(DecimalValue(true, whole, frac))
  {
    UnsignedStart(whole, frac);
    DecimalPrefixUnsigned(whole, frac);
    DecimalPrefixSigned(whole + "." + frac);
  }

  /** An unsigned decimal with digits on at least one side of the point reads
      as its exact value; a fraction with no digits counts as zero. */
  lemma ParseNumUnsigned(whole: string, frac: string)
    requires AllDigits(whole) && AllDigits(frac) && (whole != [] || frac != [])
    ensures ParseNum(whole + "." + frac) == Some(DecimalValue(false, whole, frac))
  {
    UnsignedNumeric(whole, frac);
    DecimalPrefixUnsigned(whole, frac);
  }

  /** The same decimal after a minus sign reads as its negation. */
  lemma ParseNumNegative(whole: string, frac: string)
    requires AllDigits(whole) && AllDigits(frac) && (whole != [] || frac != [])
    ensures ParseNum("-" + (whole + "." + frac)) == Some(DecimalValue(true, whole, frac))
  {
    UnsignedNumeric(whole, frac);
    DecimalPrefixNegative(whole, frac);
  }

  /** Both signs at once: `sign whole . fraction` reads as its exact value. */
  lemma ParseNumDecimal(negative: bool, whole: string, frac: string)
    requires AllDigits(whole) && AllDigits(frac) && (whole != [] || frac != [])
    ensures ParseNum(DecimalText(negative, whole, frac)) == Some(DecimalValue(negative, whole, frac))
  {
    if negative {
      assert DecimalText(negative, whole, frac) == "-" + (whole + "." + frac);
      ParseNumNegative(whole, frac);
    } else {
      assert DecimalText(negative, whole, frac) == whole + "." + frac;
      ParseNumUnsigned(whole, frac);
    }
  }


  /** A run of digits is its own leading digit run. */
  lemma LeadingDigitsAll(d: string)
    requires AllDigits(d)
    ensures LeadingDigits(d) == d
  {
    LeadingDigitsOf(d, []);
    assert d + [] == d;
  }

  /** `parseFloat` on unsigned text that is one digit run and nothing after. */
  lemma DecimalPrefixNoPoint(body: string)
    requires body != [] && body[0] != '-' && AllDigits(body) && LeadingDigits(body) == body
    ensures ParseDecimalPrefix(body) == Some(Magnitude(body, []))
  {
    assert body[|body|..] == [];
  }

  /** A whole number without a point reads as its value. */
  lemma DecimalPrefixWhole(whole: string)
    requires AllDigits(whole) && whole != []
    ensures ParseDecimalPrefix(whole) == Some(DigitsValue(whole) as real)
  {
    LeadingDigitsAll(whole);
    assert IsDigit(whole[0]);
    DecimalPrefixNoPoint(whole);
    assert Magnitude(whole, []) == DigitsValue(whole) as real;
  }

  /** A whole number after a minus sign reads as its negation. */
  lemma DecimalPrefixNegativeWhole(whole: string)
    requires AllDigits(whole) && whole != []
    ensures ParseDecimalPrefix("-" + whole) == Some(-(DigitsValue(whole) as real))
  {
    DecimalPrefixWhole(whole);
    assert whole[0] != '-';
    DecimalPrefixSigned(whole);
  }

  /** Digits, with or without a minus sign in front, pass the filter unchanged. */
  lemma WholeNumeric(whole: string)
    requires AllDigits(whole)
    ensures KeepNumeric(whole) == whole && KeepNumeric("-" + whole) == "-" + whole
  {
    assert forall i :: 0 <= i < |whole| ==> IsNumericChar(whole[i]);
    KeepNumericKeeps(whole);
    var s := "-" + whole;
    assert forall i :: 0 <= i < |s| ==> IsNumericChar(s[i]);
    KeepNumericKeeps(s);
  }

  /** A whole number, with or without a minus sign, reads as its value. */
  lemma ParseNumInteger(whole: string)
    requires AllDigits(whole) && whole != []
    ensures ParseNum(whole) == Some(DigitsValue(whole) as real)
    ensures ParseNum("-" + whole) == Some(-(DigitsValue(whole) as real))
  {
    WholeNumeric(whole);
    DecimalPrefixWhole(whole);
    DecimalPrefixNegativeWhole(whole);
  }

  /** The printed form of a natural number, and its negation, read back as
      that number: the table cells a template literal fills in round-trip. */
  lemma ParseNumNat(n: nat)
    ensures ParseNum(NatToString(n)) == Some(n as real)
    ensures ParseNum("-" + NatToString(n)) == Some(-(n as real))
  {
    var w := NatToString(n);
    DigitsValueOfNat(n);
    assert AllDigits(w) && DigitsValue(w) as real == n as real;
    ParseNumInteger(w);
  }

  /** A decimal printed from two naturals reads back as whole part plus
      fraction part scaled by its number of digits. */
  lemma ParseNumNatDecimal(a: nat, b: nat)
    ensures ParseNum(NatToString(a) + "." + NatToString(b))
      == Some(a as real + b as real / Pow10(|NatToString(b)|) as real)
  {
    var whole, frac := NatToString(a), NatToString(b);
    NatDecimalValue(a, b);
    ParseNumUnsigned(whole, frac);
    assert ParseNum(whole + "." + frac) == Some(DecimalValue(false, whole, frac));
  }

  lemma NatDecimalValue(a: nat, b: nat)
    ensures var whole, frac := NatToString(a), NatToString(b);
      && AllDigits(whole) && AllDigits(frac) && whole != []
      && DecimalValue(false, whole, frac) == a as real + b as real / Pow10(|frac|) as real
  {
    DigitsValueOfNat(a);
    DigitsValueOfNat(b);
  }



  /** Examples: a whole number, a fraction without an integer part, a
      percentage sign that is stripped, and a word with no digits. */
  lemma ParseNumWhole()
    ensures ParseNum("42") == Some(42.0)
  {
    assert KeepNumeric("42") == "42" by {
      assert "42"[1..] == "2";
      assert KeepNumeric("2") == "2";
    }
    DecimalFortyTwo();
  }

  lemma DecimalFortyTwo()
    ensures ParseDecimalPrefix("42") == Some(42.0)
  {
    assert LeadingDigits("42") == "42" by {
      assert "42"[1..] == "2";
      assert LeadingDigits("2") == "2";
    }
    assert "42"[2..] == [];
    assert DigitsValue("42") == 42 by {
      assert "42"[..1] == "4";
    }
  }

  lemma ParseNumFraction()
    ensures ParseNum("-.5") == Some(-0.5)
  {
    assert KeepNumeric("-.5") == "-.5";
    assert "-.5"[1..] == ".5";
    assert LeadingDigits(".5") == [];
    assert ".5"[1..] == "5";
    assert LeadingDigits("5") == "5";
  }

  lemma ParseNumPercent()
    ensures ParseNum("12.5%") == Some(12.5)
  {
    KeepNumericPercent();
    DecimalTwelveAndAHalf();
  }

  lemma KeepNumericPercent()
    ensures KeepNumeric("12.5%") == "12.5"
  {
    assert KeepNumeric("%") == [];
    assert KeepNumeric("5%") == "5";
    assert KeepNumeric(".5%") == ".5";
    assert KeepNumeric("2.5%") == "2.5";
  }

  lemma DecimalTwelveAndAHalf()
    ensures ParseDecimalPrefix("12.5") == Some(12.5)
  {
    assert LeadingDigits("12.5") == "12" by {
      assert "12.5"[1..] == "2.5";
      assert "2.5"[1..] == ".5";
    }
    assert "12.5"[2..] == ".5";
    assert ".5"[1..] == "5";
    assert LeadingDigits("5") == "5";
    assert DigitsValue("12") == 12 by {
      assert "12"[..1] == "1";
    }
    assert DigitsValue("5") == 5;
    assert Pow10(1) == 10;
  }

  lemma ParseNumWord()
    ensures ParseNum("high") == None
  {
    assert KeepNumeric("high") == [];
  }
}
