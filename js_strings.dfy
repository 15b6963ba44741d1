/**
 * Models of the JavaScript string primitives the barcode validators use:
 * `replace(/[^...]/g, "")`, `/^[...]+$/.test`, the case-insensitive flag,
 * `trim()` and `parseInt(s, 10)` on digit strings. A bracketed character
 * class `[...]` is modelled by the predicate on characters it denotes.
 */
module JsStrings {

  predicate IsAsciiDigit(c: char) {
    '0' <= c <= '9'
  }

  /** Every character of `s` is in the class. */
  ghost predicate AllIn(s: string, cls: char -> bool) {
    forall i :: 0 <= i < |s| ==> cls(s[i])
  }

  /**
   * `s.replace(/[^cls]/g, "")`: every character outside the class is removed,
   * the others are kept in order.
   */
  function KeepOnly(s: string, cls: char -> bool): (r: string)
    decreases |s|
  {
    if |s| == 0 then ""
    else if cls(s[0]) then [s[0]] + KeepOnly(s[1..], cls)
    else KeepOnly(s[1..], cls)
  }

  /** `s.replace(/[^0-9]/g, "")`: only ASCII digits remain, and none are invented. */
  function Digits(s: string): (r: string)
    ensures |r| <= |s|
    ensures AllIn(r, IsAsciiDigit)
  {
    KeepOnlyInClass(s, IsAsciiDigit);
    KeepOnly(s, IsAsciiDigit)
  }

  /** What is kept is in the class, and nothing is added. */
  lemma {:induction false} KeepOnlyInClass(s: string, cls: char -> bool)
    ensures |KeepOnly(s, cls)| <= |s|
    ensures AllIn(KeepOnly(s, cls), cls)
    decreases |s|
  {
    if |s| > 0 {
      KeepOnlyInClass(s[1..], cls);
    }
  }

  /** Removing characters distributes over concatenation, so what is kept stays in the order of `s`. */
  lemma {:induction false} KeepOnlyConcat(a: string, b: string, cls: char -> bool)
    ensures KeepOnly(a + b, cls) == KeepOnly(a, cls) + KeepOnly(b, cls)
    decreases |a|
  {
    if |a| > 0 {
      assert (a + b)[0] == a[0];
      assert (a + b)[1..] == a[1..] + b;
      KeepOnlyConcat(a[1..], b, cls);
    } else {
      assert a + b == b;
    }
  }

  /** A string made only of class characters is left as it is. */
  lemma {:induction false} KeepOnlyIdentity(s: string, cls: char -> bool)
    requires AllIn(s, cls)
    ensures KeepOnly(s, cls) == s
    decreases |s|
  {
    if |s| > 0 {
      KeepOnlyIdentity(s[1..], cls);
    }
  }

  /** A string with no class characters disappears entirely. */
  lemma {:induction false} KeepOnlyNone(s: string, cls: char -> bool)
    requires forall i :: 0 <= i < |s| ==> !cls(s[i])
    ensures KeepOnly(s, cls) == ""
    decreases |s|
  {
    if |s| > 0 {
      KeepOnlyNone(s[1..], cls);
    }
  }

  /** Inserting characters outside the class anywhere does not change what is kept. */
  lemma KeepOnlyIgnoresInsertion(a: string, sep: string, b: string, cls: char -> bool)
    requires forall i :: 0 <= i < |sep| ==> !cls(sep[i])
    ensures KeepOnly(a + sep + b, cls) == KeepOnly(a + b, cls)
  {
    KeepOnlyConcat(a + sep, b, cls);
    KeepOnlyConcat(a, sep, cls);
    KeepOnlyNone(sep, cls);
    KeepOnlyConcat(a, b, cls);
  }

  /** Removing a second time removes nothing more. */
  lemma KeepOnlyIdempotent(s: string, cls: char -> bool)
    ensures KeepOnly(KeepOnly(s, cls), cls) == KeepOnly(s, cls)
  {
    KeepOnlyInClass(s, cls);
    KeepOnlyIdentity(KeepOnly(s, cls), cls);
  }

  /** `/^[cls]+$/.test(s)`: one or more characters, all in the class. */
  function MatchesPlus(s: string, cls: char -> bool): (r: bool)
    ensures r <==> |s| > 0 && AllIn(s, cls)
    decreases |s|
  {
    if |s| == 0 then false
    else cls(s[0]) && (|s| == 1 || MatchesPlus(s[1..], cls))
  }

  /**
   * Canonical form of a character under the `i` flag of a non-Unicode regular
   * expression, as far as the classes used here can tell: the ASCII lower-case
   * letters become upper case, and no other character canonicalises into
   * ASCII.
   */
  function FoldCase(c: char): (u: char)
    ensures 'a' <= c <= 'z' ==> u as int == c as int - 32
    ensures !('a' <= c <= 'z') ==> u == c
  {
    if 'a' <= c <= 'z' then (c as int - 32) as char else c
  }

  /**
   * The characters that `String.prototype.trim` removes: the ECMAScript
   * WhiteSpace (tab, vertical tab, form feed, no-break space, the byte order
   * mark and the Unicode space separators) and LineTerminator characters.
   */
  predicate IsJsWhitespace(c: char) {
    c == '\t' || c == '\n' || c == '\U{000B}' || c == '\U{000C}' || c == '\r' || c == ' '
    || c == '\U{00A0}' || c == '\U{1680}' || ('\U{2000}' <= c <= '\U{200A}')
    || c == '\U{2028}' || c == '\U{2029}' || c == '\U{202F}' || c == '\U{205F}'
    || c == '\U{3000}' || c == '\U{FEFF}'
  }

  ghost predicate AllWhitespace(s: string) {
    forall i :: 0 <= i < |s| ==> IsJsWhitespace(s[i])
  }

  /** A string that keeps a digit is not blank: no digit is whitespace. */
  lemma {:induction false} DigitsExcludeBlank(s: string)
    ensures |KeepOnly(s, IsAsciiDigit)| > 0 ==> !AllWhitespace(s)
    decreases |s|
  {
    if |s| > 0 && !IsAsciiDigit(s[0]) {
      DigitsExcludeBlank(s[1..]);
      if AllWhitespace(s) {
        assert forall i :: 0 <= i < |s| - 1 ==> s[1..][i] == s[i + 1];
      }
    }
  }

  function TrimStart(s: string): (r: string)
    ensures |r| <= |s|
    ensures |r| > 0 ==> !IsJsWhitespace(r[0])
    ensures s[|s| - |r|..] == r
    decreases |s|
  {
    if |s| > 0 && IsJsWhitespace(s[0]) then TrimStart(s[1..]) else s
  }

  function TrimEnd(s: string): (r: string)
    ensures |r| <= |s|
    ensures |r| > 0 ==> !IsJsWhitespace(r[|r| - 1])
    ensures s[..|r|] == r
    decreases |s|
  {
    if |s| > 0 && IsJsWhitespace(s[|s| - 1]) then TrimEnd(s[..|s| - 1]) else s
  }

  /** `s.trim()`: only strings made entirely of whitespace trim to the empty string. */
  function Trim(s: string): (r: string)
    ensures |r| == 0 <==> AllWhitespace(s)
  {
    TrimEmptyIff(s);
    TrimEnd(TrimStart(s))
  }

  lemma TrimEmptyIff(s: string)
    ensures |TrimEnd(TrimStart(s))| == 0 <==> AllWhitespace(s)
  {
    var t := TrimStart(s);
    if AllWhitespace(s) {
      TrimStartAllWhitespace(s);
    } else {
      var i :| 0 <= i < |s| && !IsJsWhitespace(s[i]);
      TrimStartKeeps(s, i);
      // the first character of `t` is not whitespace, so TrimEnd keeps it
      TrimEndKeepsFirst(t);
    }
  }

  lemma {:induction false} TrimStartAllWhitespace(s: string)
    requires AllWhitespace(s)
    ensures TrimStart(s) == ""
    decreases |s|
  {
    if |s| > 0 {
      TrimStartAllWhitespace(s[1..]);
    }
  }

  /** A non-whitespace character at index `i` survives trimming the start. */
  lemma {:induction false} TrimStartKeeps(s: string, i: nat)
    requires i < |s| && !IsJsWhitespace(s[i])
    ensures |TrimStart(s)| > 0
    decreases |s|
  {
    if IsJsWhitespace(s[0]) {
      TrimStartKeeps(s[1..], i - 1);
    }
  }

  lemma {:induction false} TrimEndKeepsFirst(t: string)
    requires |t| > 0 && !IsJsWhitespace(t[0])
    ensures |TrimEnd(t)| > 0
    decreases |t|
  {
    if |t| > 1 && IsJsWhitespace(t[|t| - 1]) {
      TrimEndKeepsFirst(t[..|t| - 1]);
    }
  }

  function DigitValue(c: char): (d: nat)
    requires IsAsciiDigit(c)
    ensures d < 10
  {
    c as int - '0' as int
  }

  function Pow10(n: nat): (p: nat)
    ensures p >= 1
  {
    if n == 0 then 1 else 10 * Pow10(n - 1)
  }

  /**
   * `parseInt(s, 10)` on a string of ASCII digits: its decimal value, leading
   * zeros included. (Callers pass at least one digit; `parseInt("")` is NaN.)
   */
  function DecimalValue(s: string): (v: nat)
    requires AllIn(s, IsAsciiDigit)
    ensures v < Pow10(|s|)
    decreases |s|
  {
    if |s| == 0 then 0
    else
      var d, rest := DigitValue(s[0]), DecimalValue(s[1..]);
      LeadingDigitBound(d, rest, Pow10(|s| - 1));
      d * Pow10(|s| - 1) + rest
  }

  lemma LeadingDigitBound(d: nat, rest: nat, p: nat)
    requires d < 10 && rest < p
    ensures d * p + rest < 10 * p
  {
    assert d * p <= 9 * p;
  }

  /** Leading zeros do not change the value `parseInt` reads. */
  lemma {:induction false} DecimalValueLeadingZeros(zeros: string, s: string)
    requires forall i :: 0 <= i < |zeros| ==> zeros[i] == '0'
    requires AllIn(s, IsAsciiDigit)
    ensures AllIn(zeros + s, IsAsciiDigit)
    ensures DecimalValue(zeros + s) == DecimalValue(s)
    decreases |zeros|
  {
    assert forall i :: 0 <= i < |zeros + s| ==> (zeros + s)[i] == if i < |zeros| then zeros[i] else s[i - |zeros|];
    if |zeros| > 0 {
      assert (zeros + s)[1..] == zeros[1..] + s;
      DecimalValueLeadingZeros(zeros[1..], s);
    } else {
      assert zeros + s == s;
    }
  }

}
