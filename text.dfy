/**
 * The JavaScript string operations the dispatch code relies on:
 * String.prototype.trim, String.prototype.toUpperCase, Number.prototype.toString
 * for non-negative integers, and the global parseInt without a radix.
 */
module Text {

  /** WhiteSpace and LineTerminator code points, the set that trim() and parseInt() skip. */
  predicate IsJsWhitespace(c: char)
  {
    var n := c as int;
    (9 <= n <= 13) || n == 0x20 || n == 0xA0 || n == 0x1680 || (0x2000 <= n <= 0x200A)
    || n == 0x2028 || n == 0x2029 || n == 0x202F || n == 0x205F || n == 0x3000 || n == 0xFEFF
  }

  predicate AllWhitespace(s: string)
  {
    forall i :: 0 <= i < |s| ==> IsJsWhitespace(s[i])
  }

  /** Drops leading whitespace: every character it drops is whitespace and what it keeps does not start with any. */
  function TrimStart(s: string): (r: string)
    ensures |r| <= |s|
    ensures forall i :: 0 <= i < |s| - |r| ==> IsJsWhitespace(s[i])
    ensures r == [] || !IsJsWhitespace(r[0])
  {
    if s != [] && IsJsWhitespace(s[0]) then TrimStart(s[1..]) else s
  }

  /** What TrimStart keeps is a suffix of its input, so it is the longest suffix not starting with whitespace. */
  lemma {:induction false} TrimStartSuffix(s: string)
    ensures TrimStart(s) == s[|s| - |TrimStart(s)|..]
  {
    if s != [] && IsJsWhitespace(s[0]) {
      TrimStartSuffix(s[1..]);
    }
  }

  /** Drops trailing whitespace: the result is the longest prefix that does not end with whitespace. */
  function TrimEnd(s: string): (r: string)
    ensures |r| <= |s| && r == s[..|r|]
    ensures forall i :: |r| <= i < |s| ==> IsJsWhitespace(s[i])
    ensures r == [] || !IsJsWhitespace(r[|r| - 1])
  {
    if s != [] && IsJsWhitespace(s[|s| - 1]) then TrimEnd(s[..|s| - 1]) else s
  }

  /** String.prototype.trim. */
  function Trim(s: string): string
  {
    TrimEnd(TrimStart(s))
  }

  /** A trimmed string neither starts nor ends with whitespace, and is a slice of the input. */
  lemma TrimShape(s: string)
    ensures var r := Trim(s);
      exists i, j :: 0 <= i <= j <= |s| && r == s[i..j]
        && AllWhitespace(s[..i]) && AllWhitespace(s[j..])
        && (r == [] || (!IsJsWhitespace(r[0]) && !IsJsWhitespace(r[|r| - 1])))
  {
    var u := TrimStart(s);
    var r := TrimEnd(u);
    var i := |s| - |u|;
    TrimStartSuffix(s);
    var j := i + |r|;
    assert r == s[i..j];
    assert AllWhitespace(s[..i]) by {
      forall k | 0 <= k < i ensures IsJsWhitespace(s[..i][k]) {
        assert s[..i][k] == s[k];
      }
    }
    assert AllWhitespace(s[j..]) by {
      forall k | 0 <= k < |s| - j ensures IsJsWhitespace(s[j..][k]) {
        assert s[j..][k] == u[|r| + k];
      }
    }
    if r != [] {
      assert r[0] == u[0];
    }
  }

  /** Trimming twice is trimming once. */
  lemma {:induction false} TrimIdempotent(s: string)
    ensures Trim(Trim(s)) == Trim(s)
  {
    var r := Trim(s);
    var u := TrimStart(s);
    if r != [] {
      assert r[0] == u[0];
      assert !IsJsWhitespace(r[0]);
      assert TrimStart(r) == r;
      assert TrimEnd(r) == r;
    } else {
      assert TrimStart(r) == r;
    }
  }

  /** A string trims to "" exactly when it is whitespace only (the JavaScript test `!s.trim()`). */
  lemma {:induction false} TrimEmptyIffBlank(s: string)
    ensures Trim(s) == "" <==> AllWhitespace(s)
  {
    var u := TrimStart(s);
    TrimStartSuffix(s);
    if u != [] {
      assert u[0] == s[|s| - |u|] && !IsJsWhitespace(u[0]);
      assert TrimEnd(u)[0] == u[0];
    }
  }

  /** toUpperCase on one character; only ASCII letters are mapped. */
  function UpperChar(c: char): (r: char)
    ensures ('a' <= c <= 'z') ==> r as int == c as int - 32
    ensures !('a' <= c <= 'z') ==> r == c
  {
    if 'a' <= c <= 'z' then (c as int - 32) as char else c
  }

  /** String.prototype.toUpperCase, character by character. */
  function ToUpper(s: string): (r: string)
    ensures |r| == |s|
    ensures forall i :: 0 <= i < |s| ==> r[i] == UpperChar(s[i])
  {
    if s == [] then [] else [UpperChar(s[0])] + ToUpper(s[1..])
  }

  /** Upper-casing an upper-cased string changes nothing. */
  lemma UpperIdempotent(s: string)
    ensures ToUpper(ToUpper(s)) == ToUpper(s)
  {
    assert forall i :: 0 <= i < |s| ==> UpperChar(UpperChar(s[i])) == UpperChar(s[i]);
  }

  /** `x.trim().toUpperCase()`: the key under which codes and order ids are compared. */
  function Normalize(s: string): string
  {
    ToUpper(Trim(s))
  }

  /** Trimming a code before normalizing it makes no difference. */
  lemma NormalizeTrim(s: string)
    ensures Normalize(Trim(s)) == Normalize(s)
  {
    TrimIdempotent(s);
  }

  // ---------------------------------------------------------------- numbers

  predicate IsDecimalDigit(c: char)
  {
    '0' <= c <= '9'
  }

  function DigitChar(d: nat): (c: char)
    requires d < 10
    ensures IsDecimalDigit(c)
  {
    ('0' as int + d) as char
  }

  /** Number.prototype.toString() of a non-negative integer: its decimal digits, no leading zero. */
  function NatToString(n: nat): (r: string)
    ensures |r| >= 1
    ensures forall i :: 0 <= i < |r| ==> IsDecimalDigit(r[i])
    ensures |r| > 1 ==> r[0] != '0'
    ensures n < 10 <==> |r| == 1
  {
    if n < 10 then [DigitChar(n)] else NatToString(n / 10) + [DigitChar(n % 10)]
  }

  /** The value of a digit in any radix up to 16; 99 for a character that is no digit. */
  function CharValue(c: char): (v: nat)
    ensures IsDecimalDigit(c) ==> v == c as int - '0' as int
    ensures v < 10 ==> IsDecimalDigit(c)
  {
    if '0' <= c <= '9' then c as int - '0' as int
    else if 'a' <= c <= 'f' then c as int - 'a' as int + 10
    else if 'A' <= c <= 'F' then c as int - 'A' as int + 10
    else 99
  }

  predicate IsRadixDigit(c: char, radix: nat)
  {
    CharValue(c) < radix
  }

  /** The longest prefix of `s` made of digits of `radix`. */
  function DigitPrefix(s: string, radix: nat): (r: string)
    ensures |r| <= |s| && r == s[..|r|]
    ensures forall i :: 0 <= i < |r| ==> IsRadixDigit(r[i], radix)
    ensures |r| < |s| ==> !IsRadixDigit(s[|r|], radix)
  {
    if s != [] && IsRadixDigit(s[0], radix) then [s[0]] + DigitPrefix(s[1..], radix) else []
  }

  /** The value of a string of digits, most significant first. */
  function RadixValue(d: string, radix: nat): nat
    requires forall i :: 0 <= i < |d| ==> IsRadixDigit(d[i], radix)
  {
    if d == [] then 0 else RadixValue(d[..|d| - 1], radix) * radix + CharValue(d[|d| - 1])
  }

  /** A JavaScript number as far as parseInt can produce one. */
  datatype Number = NaN | Num(value: int)

  /**
   * parseInt(text) with no radix: skip leading whitespace, read an optional sign,
   * switch to radix 16 after a "0x"/"0X" prefix, then read the longest run of digits;
   * no digits at all gives NaN.
   */
  function ParseInt(text: string): (r: Number)
    ensures r.Num? ==> exists i :: 0 <= i < |text| && IsRadixDigit(text[i], 16)
  {
    var t := TrimStart(text);
    TrimStartSuffix(text);
    var sign: int := if |t| > 0 && t[0] == '-' then -1 else 1;
    var u := if |t| > 0 && (t[0] == '-' || t[0] == '+') then t[1..] else t;
    var hex := |u| >= 2 && u[0] == '0' && (u[1] == 'x' || u[1] == 'X');
    var radix: nat := if hex then 16 else 10;
    var v := if hex then u[2..] else u;
    var d := DigitPrefix(v, radix);
    if d == [] then NaN
    else
      assert d[0] == text[|text| - |v|];
      Num(sign * RadixValue(d, radix))
  }

  /** Reading back the decimal digits of n gives n. */
  lemma {:induction false} DecimalRoundTrip(n: nat)
    ensures RadixValue(NatToString(n), 10) == n
  {
    var s := NatToString(n);
    if n >= 10 {
      DecimalRoundTrip(n / 10);
      assert s[..|s| - 1] == NatToString(n / 10);
    }
  }

  /** parseInt reads back what toString wrote: parseInt(String(n)) == n. */
  lemma ParseIntOfNatToString(n: nat)
    ensures ParseInt(NatToString(n)) == Num(n)
  {
    var s := NatToString(n);
    assert IsDecimalDigit(s[0]) && !IsJsWhitespace(s[0]);
    assert TrimStart(s) == s;
    assert s[0] != '-' && s[0] != '+';
    assert !(|s| >= 2 && s[0] == '0');
    var d := DigitPrefix(s, 10);
    assert forall i :: 0 <= i < |s| ==> IsRadixDigit(s[i], 10);
    assert |d| == |s|;
    assert d == s;
    DecimalRoundTrip(n);
  }

  /** Distinct numbers print as distinct strings. */
  lemma NatToStringInjective(a: nat, b: nat)
    requires NatToString(a) == NatToString(b)
    ensures a == b
  {
    ParseIntOfNatToString(a);
    ParseIntOfNatToString(b);
  }
}
