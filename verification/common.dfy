/** Small pieces of JavaScript semantics that several parts of the system rely on:
    an optional value, truthiness, String.prototype.trim, String.prototype.split on one
    character, the decimal text of whole numbers, and parseInt with and without
    a radix. */
module Common {

  datatype Option<+T> = None | Some(value: T)

  /** Regrouping a concatenation, for loops that append a piece at a time. */
  lemma AppendGrouping<T>(x: seq<T>, y: seq<T>, z: seq<T>)
    ensures x + y + z == x + (y + z)
  {
  }

  /** A value as a JSON body or a query string delivers it. Numbers are kept
      as reals; NaN is not modelled. */
  datatype JsValue = Undefined | Null | Bool(b: bool) | Num(x: real) | Str(s: string)

  /** JavaScript truthiness: undefined, null, false, 0 and "" are falsy. */
  predicate Truthy(v: JsValue) {
    match v
    case Undefined => false
    case Null => false
    case Bool(b) => b
    case Num(x) => x != 0.0
    case Str(s) => s != ""
  }

  /** v || null. */
  function OrNull(v: JsValue): JsValue {
    if Truthy(v) then v else Null
  }

  /** A JavaScript number where NaN matters: finite, or NaN. */
  datatype JsNumber = Finite(x: real) | NaN

  /** The code points that String.prototype.trim removes: the ECMAScript
      WhiteSpace and LineTerminator productions. */
  predicate IsJsSpace(c: char) {
    c == '\t' || c == '\n' || c == '\U{000B}' || c == '\U{000C}' || c == '\r'
    || c == ' ' || c == '\U{00A0}' || c == '\U{1680}'
    || ('\U{2000}' <= c <= '\U{200A}')
    || c == '\U{2028}' || c == '\U{2029}' || c == '\U{202F}' || c == '\U{205F}'
    || c == '\U{3000}' || c == '\U{FEFF}'
  }

  predicate AllSpace(s: string) {
    forall i :: 0 <= i < |s| ==> IsJsSpace(s[i])
  }

  /** Leading white space removed. */
  function TrimStart(s: string): (r: string)
    ensures |r| <= |s| && r == s[|s| - |r|..]
    ensures r == [] || !IsJsSpace(r[0])
  {
    if s == [] || !IsJsSpace(s[0]) then s else TrimStart(s[1..])
  }

  /** What TrimStart removes is white space. */
  lemma {:induction false} TrimStartRemovesSpace(s: string)
    ensures AllSpace(s[..|s| - |TrimStart(s)|])
    decreases |s|
  {
    if s != [] && IsJsSpace(s[0]) {
      var rest := s[1..];
      var n := |s| - |TrimStart(rest)|;
      TrimStartStep(s);
      TrimStartRemovesSpace(rest);
      forall k | 0 <= k < n
        ensures IsJsSpace(s[..n][k])
      {
        if k > 0 {
          assert s[..n][k] == rest[..n - 1][k - 1];
        }
      }
    }
  }

  /** Trailing white space removed. */
  function TrimEnd(s: string): (r: string)
    ensures |r| <= |s| && r == s[..|r|]
    ensures r == [] || !IsJsSpace(r[|r| - 1])
  {
    if s == [] || !IsJsSpace(s[|s| - 1]) then s else TrimEnd(s[..|s| - 1])
  }

  /** String.prototype.trim. */
  function Trim(s: string): (r: string)
    ensures |r| <= |s|
    ensures r == [] || (!IsJsSpace(r[0]) && !IsJsSpace(r[|r| - 1]))
  {
    TrimEnd(TrimStart(s))
  }

  /** Leading white space is dropped one character at a time. */
  lemma TrimStartStep(s: string)
    requires s != [] && IsJsSpace(s[0])
    ensures TrimStart(s) == TrimStart(s[1..])
  {
  }

  lemma TrimEndStep(s: string)
    requires s != [] && IsJsSpace(s[|s| - 1])
    ensures TrimEnd(s) == TrimEnd(s[..|s| - 1])
  {
  }

  lemma {:induction false} TrimStartOfSpaces(w: string, s: string)
    requires AllSpace(w)
    ensures TrimStart(w + s) == TrimStart(s)
    decreases |w|
  {
    if w == [] {
      assert w + s == s;
    } else {
      var ws := w + s;
      assert ws[0] == w[0];
      assert ws[1..] == w[1..] + s;
      TrimStartStep(ws);
      assert AllSpace(w[1..]) by {
        forall i | 0 <= i < |w| - 1 ensures IsJsSpace(w[1..][i]) {
          assert w[1..][i] == w[i + 1];
        }
      }
      TrimStartOfSpaces(w[1..], s);
    }
  }

  lemma {:induction false} TrimEndOfSpaces(s: string, w: string)
    requires AllSpace(w)
    ensures TrimEnd(s + w) == TrimEnd(s)
    decreases |w|
  {
    if w == [] {
      assert s + w == s;
    } else {
      var sw := s + w;
      var w' := w[..|w| - 1];
      assert sw[|sw| - 1] == w[|w| - 1];
      assert sw[..|sw| - 1] == s + w';
      TrimEndStep(sw);
      assert AllSpace(w') by {
        forall i | 0 <= i < |w'| ensures IsJsSpace(w'[i]) {
          assert w'[i] == w[i];
        }
      }
      TrimEndOfSpaces(s, w');
    }
  }

  lemma TrimEndKeepsClean(s: string)
    requires s != [] && !IsJsSpace(s[0])
    ensures TrimEnd(s) != [] && TrimEnd(s)[0] == s[0]
  {
  }

  /** Padding a text with white space on either side does not change what
      trim returns: the reason a blank-only edit is never a change. */
  lemma {:induction false} TrimIgnoresPadding(before: string, s: string, after: string)
    requires AllSpace(before) && AllSpace(after)
    ensures Trim(before + s + after) == Trim(s)
  {
    assert before + s + after == before + (s + after);
    TrimStartOfSpaces(before, s + after);
    TrimStartPadded(s, after);
    var t := TrimStart(s);
    if t != [] {
      TrimEndOfSpaces(t, after);
    }
  }

  /** White space after a text survives TrimStart unless the text is blank. */
  lemma TrimStartPadded(s: string, after: string)
    requires AllSpace(after)
    ensures TrimStart(s) == [] ==> TrimStart(s + after) == []
    ensures TrimStart(s) != [] ==> TrimStart(s + after) == TrimStart(s) + after
  {
    var t := TrimStart(s);
    var cut := s[..|s| - |t|];
    TrimStartRemovesSpace(s);
    assert s + after == cut + (t + after);
    TrimStartOfSpaces(cut, t + after);
    if t == [] {
      assert t + after == after + [];
      TrimStartOfSpaces(after, []);
    }
  }

  /** A text that neither starts nor ends with white space is its own trim. */
  lemma TrimOfClean(s: string)
    requires s == [] || (!IsJsSpace(s[0]) && !IsJsSpace(s[|s| - 1]))
    ensures Trim(s) == s
  {
  }

  // ---------------------------------------------------------------------
  // Splitting on one character, as String.prototype.split(c) does

  function IndexOf(s: string, c: char): (i: nat)
    requires c in s
    ensures i < |s| && s[i] == c && c !in s[..i]
  {
    if s[0] == c then 0 else 1 + IndexOf(s[1..], c)
  }

  /** Joins pieces with the separator in between: the inverse of Split. */
  function Join(parts: seq<string>, sep: char): string
    requires |parts| >= 1
  {
    if |parts| == 1 then parts[0] else parts[0] + [sep] + Join(parts[1..], sep)
  }

  /** The pieces between occurrences of sep: at least one piece, and none of
      them containing sep. */
  function Split(s: string, sep: char): (parts: seq<string>)
    ensures |parts| >= 1
    ensures forall i :: 0 <= i < |parts| ==> sep !in parts[i]
    decreases |s|
  {
    if sep !in s then [s]
    else
      var i := IndexOf(s, sep);
      [s[..i]] + Split(s[i + 1..], sep)
  }

  /** Joining the pieces back with the separator gives the input. */
  lemma {:induction false} JoinSplit(s: string, sep: char)
    ensures Join(Split(s, sep), sep) == s
    decreases |s|
  {
    if sep in s {
      var i := IndexOf(s, sep);
      var rest := s[i + 1..];
      var parts := Split(rest, sep);
      assert Split(s, sep) == [s[..i]] + parts;
      JoinSplit(rest, sep);
      assert ([s[..i]] + parts)[1..] == parts;
      assert Join([s[..i]] + parts, sep) == s[..i] + [sep] + Join(parts, sep);
      assert s == s[..i] + [sep] + rest;
    }
  }

  lemma SplitAfterPiece(a: string, sep: char, b: string)
    requires sep !in a
    ensures Split(a + [sep] + b, sep) == [a] + Split(b, sep)
  {
    var s := a + [sep] + b;
    assert s[|a|] == sep;
    assert s[..|a|] == a;
    var i := IndexOf(s, sep);
    assert forall j :: 0 <= j < |a| ==> s[j] == a[j];
    assert i == |a|;
    assert s[..i] == a;
    assert s[i + 1..] == b;
  }

  /** The text before the first occurrence of sep (all of it when sep does not
      occur): what split(sep)[0] gives. */
  function BeforeFirst(s: string, sep: char): (r: string)
    ensures sep !in r
    ensures sep in s ==> r == s[..IndexOf(s, sep)]
    ensures sep !in s ==> r == s
  {
    Split(s, sep)[0]
  }

  // ---------------------------------------------------------------------
  // Decimal text of whole numbers

  predicate IsDigit(c: char) {
    '0' <= c <= '9'
  }

  predicate AllDigits(s: string) {
    forall i :: 0 <= i < |s| ==> IsDigit(s[i])
  }

  function DigitChar(d: nat): (c: char)
    requires d < 10
    ensures IsDigit(c)
  {
    ('0' as int + d) as char
  }

  function DigitValue(c: char): (d: nat)
    requires IsDigit(c)
    ensures d < 10 && DigitChar(d) == c
  {
    c as int - '0' as int
  }

  /** The decimal text of n, as Number.prototype.toString gives it for a
      whole number: digits only, no leading zero. */
  function NatToString(n: nat): (s: string)
    ensures s != [] && AllDigits(s)
    ensures |s| > 1 ==> s[0] != '0'
  {
    if n < 10 then [DigitChar(n)] else NatToString(n / 10) + [DigitChar(n % 10)]
  }

  /** The value of a run of decimal digits. */
  function DigitsValue(s: string): nat
    requires AllDigits(s)
  {
    if s == [] then 0 else DigitsValue(s[..|s| - 1]) * 10 + DigitValue(s[|s| - 1])
  }

  lemma {:induction false} DigitsValueOfNatToString(n: nat)
    ensures DigitsValue(NatToString(n)) == n
  {
    if n >= 10 {
      var s := NatToString(n);
      assert s[..|s| - 1] == NatToString(n / 10);
      DigitsValueOfNatToString(n / 10);
    }
  }

  /** Number(text) for the texts a select holds: a run of decimal digits
      gives its value; every other non-empty text is NaN here. */
  function NumberOfText(s: string): (n: JsNumber)
    requires s != ""
    ensures n.Finite? <==> AllDigits(s)
    ensures n.Finite? ==> n.x >= 0.0
  {
    if AllDigits(s) then Finite(DigitsValue(s) as real) else NaN
  }

  /** A select option holding an id gives that id back. */
  lemma NumberOfIdText(id: nat)
    ensures NumberOfText(NatToString(id)) == Finite(id as real)
  {
    DigitsValueOfNatToString(id);
  }

  /** The number a text of decimal digits denotes; None for any other text. */
  function ParseNat(s: string): (r: Option<nat>)
    ensures r.Some? <==> s != [] && AllDigits(s)
  {
    if s != [] && AllDigits(s) then Some(DigitsValue(s)) else None
  }

  /** Reading back the decimal text of a number gives that number. */
  lemma ParseNatToString(n: nat)
    ensures ParseNat(NatToString(n)) == Some(n)
  {
    DigitsValueOfNatToString(n);
  }

  lemma NatToStringInjective(m: nat, n: nat)
    requires NatToString(m) == NatToString(n)
    ensures m == n
  {
    ParseNatToString(m);
    ParseNatToString(n);
  }

  /** The decimal text of an integer, with a leading minus sign when negative. */
  function IntToString(i: int): (s: string)
    ensures s != []
    ensures i >= 0 ==> s == NatToString(i)
    ensures i < 0 ==> s == "-" + NatToString(-i)
  {
    if i < 0 then "-" + NatToString(-i) else NatToString(i)
  }

  // ---------------------------------------------------------------------
  // parseInt

  /** What parseInt reads after the leading white space and one optional
      sign. */
  function UnsignedPart(s: string): string {
    var t := TrimStart(s);
    if t != [] && (t[0] == '-' || t[0] == '+') then t[1..] else t
  }

  /** The sign parseInt reads is a minus. */
  predicate IsNegative(s: string) {
    var t := TrimStart(s);
    t != [] && t[0] == '-'
  }

  /** Length of the longest prefix made of decimal digits. */
  function DigitPrefixLength(s: string): (n: nat)
    ensures n <= |s| && AllDigits(s[..n])
    ensures n < |s| ==> !IsDigit(s[n])
  {
    if s == [] || !IsDigit(s[0]) then 0
    else
      var n := 1 + DigitPrefixLength(s[1..]);
      assert forall i :: 1 <= i < n ==> s[..n][i] == s[1..][..n - 1][i - 1];
      n
  }

  /** parseInt(s, 10): leading white space is skipped, one optional sign is
      read, then the longest run of decimal digits; with no digit the result
      is NaN, here None. */
  function ParseIntRadix10(s: string): (r: Option<int>)
    ensures r.None? <==> UnsignedPart(s) == [] || !IsDigit(UnsignedPart(s)[0])
    ensures r.Some? && !IsNegative(s) ==> r.value >= 0
  {
    var body := UnsignedPart(s);
    var n := DigitPrefixLength(body);
    if n == 0 then None
    else
      var v: int := DigitsValue(body[..n]);
      Some(if IsNegative(s) then -v else v)
  }

  predicate IsHexDigit(c: char) {
    IsDigit(c) || 'a' <= c <= 'f' || 'A' <= c <= 'F'
  }

  predicate AllHexDigits(s: string) {
    forall i :: 0 <= i < |s| ==> IsHexDigit(s[i])
  }

  function HexDigitValue(c: char): (d: nat)
    requires IsHexDigit(c)
    ensures d < 16
    ensures IsDigit(c) ==> d == DigitValue(c)
  {
    if IsDigit(c) then DigitValue(c)
    else if 'a' <= c <= 'f' then c as int - 'a' as int + 10
    else c as int - 'A' as int + 10
  }

  /** The value of a run of hexadecimal digits. */
  function HexValue(s: string): nat
    requires AllHexDigits(s)
  {
    if s == [] then 0 else HexValue(s[..|s| - 1]) * 16 + HexDigitValue(s[|s| - 1])
  }

  /** Length of the longest prefix made of hexadecimal digits. */
  function HexPrefixLength(s: string): (n: nat)
    ensures n <= |s| && AllHexDigits(s[..n])
    ensures n < |s| ==> !IsHexDigit(s[n])
  {
    if s == [] || !IsHexDigit(s[0]) then 0
    else
      var n := 1 + HexPrefixLength(s[1..]);
      assert forall i :: 1 <= i < n ==> s[..n][i] == s[1..][..n - 1][i - 1];
      n
  }

  /** Text that parseInt with no radix reads as hexadecimal. */
  predicate HasHexPrefix(body: string) {
    |body| >= 2 && body[0] == '0' && (body[1] == 'x' || body[1] == 'X')
  }

  /** The global parseInt with no radix: after the white space and the sign,
      a 0x or 0X prefix selects base 16 and the longest run of hexadecimal
      digits after it is read (NaN when there is none); any other text is
      read as parseInt(s, 10). NaN is None. */
  function ParseInt(s: string): (r: Option<int>)
    ensures !HasHexPrefix(UnsignedPart(s)) ==> r == ParseIntRadix10(s)
    ensures HasHexPrefix(UnsignedPart(s)) ==>
              (r.None? <==> UnsignedPart(s)[2..] == [] || !IsHexDigit(UnsignedPart(s)[2]))
    ensures r.Some? && !IsNegative(s) ==> r.value >= 0
  {
    var body := UnsignedPart(s);
    if HasHexPrefix(body) then
      var digits := body[2..];
      var n := HexPrefixLength(digits);
      if n == 0 then None
      else
        var v: int := HexValue(digits[..n]);
        Some(if IsNegative(s) then -v else v)
    else ParseIntRadix10(s)
  }

  lemma {:induction false} DigitPrefixOfDigits(s: string)
    requires AllDigits(s)
    ensures DigitPrefixLength(s) == |s|
  {
    if s != [] {
      DigitPrefixOfDigits(s[1..]);
    }
  }

  lemma {:induction false} HexPrefixOfHexDigits(s: string)
    requires AllHexDigits(s)
    ensures HexPrefixLength(s) == |s|
  {
    if s != [] {
      HexPrefixOfHexDigits(s[1..]);
    }
  }

  /** parseInt(s, 10) of a run of digits. */
  lemma ParseIntRadix10OfDigits(digits: string)
    requires digits != [] && AllDigits(digits)
    ensures ParseIntRadix10(digits) == Some(DigitsValue(digits) as int)
  {
    assert TrimStart(digits) == digits by {
      assert IsDigit(digits[0]);
    }
    assert digits[0] != '-' && digits[0] != '+';
    ParseIntRadix10OfBody(digits);
  }

  /** parseInt(s, 10) of a run of digits after a minus sign. */
  lemma ParseIntRadix10OfMinusDigits(digits: string)
    requires digits != [] && AllDigits(digits)
    ensures ParseIntRadix10("-" + digits) == Some(-(DigitsValue(digits) as int))
  {
    var s := "-" + digits;
    MinusBodyOf(s, digits);
    ParseIntRadix10OfBody(s);
  }

  /** When everything after the sign is digits, parseInt(s, 10) is their
      value, negated after a minus. */
  lemma ParseIntRadix10OfBody(s: string)
    requires UnsignedPart(s) != [] && AllDigits(UnsignedPart(s))
    ensures var v: int := DigitsValue(UnsignedPart(s));
            ParseIntRadix10(s) == Some(if IsNegative(s) then -v else v)
  {
    var body := UnsignedPart(s);
    DigitPrefixOfDigits(body);
    assert body[..|body|] == body;
  }

  /** parseInt(s, 10) reads back the decimal text of a number. */
  lemma ParseIntRadix10OfNatToString(n: nat)
    ensures ParseIntRadix10(NatToString(n)) == Some(n)
  {
    ParseIntRadix10OfDigits(NatToString(n));
    DigitsValueOfNatToString(n);
  }

  /** The decimal text of a number never starts with 0x, so parseInt with
      no radix reads it in base 10. */
  lemma NatToStringIsNotHex(n: nat)
    ensures !HasHexPrefix(NatToString(n))
  {
  }

  /** parseInt reads back the decimal text of a number. */
  lemma ParseIntOfNatToString(n: nat)
    ensures ParseInt(NatToString(n)) == Some(n)
  {
    var s := NatToString(n);
    assert TrimStart(s) == s by {
      assert IsDigit(s[0]);
    }
    assert UnsignedPart(s) == s;
    NatToStringIsNotHex(n);
    ParseIntRadix10OfNatToString(n);
  }

  /** parseInt reads back the decimal text of every integer. */
  lemma ParseIntOfIntToString(i: int)
    ensures ParseInt(IntToString(i)) == Some(i)
  {
    if i >= 0 {
      ParseIntOfNatToString(i);
    } else {
      var digits := NatToString(-i);
      var s := "-" + digits;
      assert TrimStart(s) == s by {
        assert s[0] == '-';
      }
      assert UnsignedPart(s) == digits;
      NatToStringIsNotHex(-i);
      ParseIntRadix10OfMinusDigits(digits);
      DigitsValueOfNatToString(-i);
    }
  }

  /** When all that follows the 0x prefix is hexadecimal digits, parseInt
      reads all of them. */
  lemma ParseIntOfHexBody(s: string, hex: string)
    requires HasHexPrefix(UnsignedPart(s)) && UnsignedPart(s)[2..] == hex
    requires hex != [] && AllHexDigits(hex)
    ensures var v: int := HexValue(hex);
            ParseInt(s) == Some(if IsNegative(s) then -v else v)
  {
    HexPrefixOfHexDigits(hex);
    assert hex[..|hex|] == hex;
  }

  /** parseInt with no radix reads 0x and 0X followed by hexadecimal digits
      in base 16. */
  lemma ParseIntOfHex(prefix: string, hex: string)
    requires prefix == "0x" || prefix == "0X"
    requires hex != [] && AllHexDigits(hex)
    ensures ParseInt(prefix + hex) == Some(HexValue(hex) as int)
  {
    var s := prefix + hex;
    HexBodyOf(s, prefix, hex);
    ParseIntOfHexBody(s, hex);
  }

  /** ... and with a minus sign, the negated value. */
  lemma ParseIntOfMinusHex(prefix: string, hex: string)
    requires prefix == "0x" || prefix == "0X"
    requires hex != [] && AllHexDigits(hex)
    ensures ParseInt("-" + (prefix + hex)) == Some(-(HexValue(hex) as int))
  {
    MinusHexBodyOf(prefix, hex);
    ParseIntOfHexBody("-" + (prefix + hex), hex);
  }

  lemma MinusHexBodyOf(prefix: string, hex: string)
    requires prefix == "0x" || prefix == "0X"
    ensures var m := "-" + (prefix + hex);
            IsNegative(m) && HasHexPrefix(UnsignedPart(m)) && UnsignedPart(m)[2..] == hex
  {
    var s := prefix + hex;
    HexBodyOf(s, prefix, hex);
    MinusBodyOf("-" + s, s);
  }

  lemma HexBodyOf(s: string, prefix: string, hex: string)
    requires prefix == "0x" || prefix == "0X"
    requires s == prefix + hex
    ensures UnsignedPart(s) == s && !IsNegative(s) && HasHexPrefix(s) && s[2..] == hex
  {
    assert s[0] == '0';
    assert TrimStart(s) == s;
  }

  /** After a minus sign, parseInt reads the rest of the text. */
  lemma MinusBodyOf(m: string, s: string)
    requires m == "-" + s
    ensures UnsignedPart(m) == s && IsNegative(m)
  {
    assert m[0] == '-';
    assert TrimStart(m) == m;
    assert m[1..] == s;
  }

  /** The two readings differ: with no radix "0x10" is sixteen and "0x" is
      NaN; in base 10 both stop at the x and read 0. */
  lemma HexPrefixReadings()
    ensures ParseInt("0x10") == Some(16) && ParseIntRadix10("0x10") == Some(0)
    ensures ParseInt("0x") == None && ParseIntRadix10("0x") == Some(0)
    ensures ParseInt("-0x1") == Some(-1)
  {
    HexSixteen();
    HexMinusOne();
    Radix10StopsAtX("0x10");
    Radix10StopsAtX("0x");
    HexWithoutDigits("0x");
  }

  /** 0x with nothing after it is NaN. */
  lemma HexWithoutDigits(t: string)
    requires |t| == 2 && t[0] == '0' && t[1] == 'x'
    ensures ParseInt(t) == None
  {
    assert t == "0x" + [];
    HexBodyOf(t, "0x", []);
  }

  lemma HexSixteen()
    ensures ParseInt("0x10") == Some(16)
  {
    var hex := "10";
    assert AllHexDigits(hex);
    assert HexValue(hex) == 16 by {
      assert hex[..1] == "1";
      assert HexValue("1") == 1 by {
        assert "1"[..0] == [];
      }
    }
    ParseIntOfHex("0x", hex);
    assert "0x" + hex == "0x10";
  }

  lemma HexMinusOne()
    ensures ParseInt("-0x1") == Some(-1)
  {
    var hex := "1";
    assert AllHexDigits(hex);
    assert HexValue(hex) == 1 by {
      assert hex[..0] == [];
    }
    ParseIntOfMinusHex("0x", hex);
    assert "-" + ("0x" + hex) == "-0x1";
  }

  /** parseInt(s, 10) of a text that starts with 0x reads the single 0. */
  lemma Radix10StopsAtX(t: string)
    requires |t| >= 2 && t[0] == '0' && t[1] == 'x'
    ensures ParseIntRadix10(t) == Some(0)
  {
    assert TrimStart(t) == t;
    assert UnsignedPart(t) == t && !IsNegative(t);
    assert DigitPrefixLength(t[1..]) == 0;
    assert DigitPrefixLength(t) == 1;
    assert t[..1] == "0";
    assert DigitsValue("0") == 0 by {
      assert "0"[..0] == [];
    }
  }
}
