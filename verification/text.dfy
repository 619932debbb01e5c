/**
  * The JavaScript string operations the collectors use on command output:
  * the white-space set of String.prototype.trim and of the regex class \s,
  * trim, split('\n'), trim().split(/\s+/), includes, startsWith, parseInt,
  * parseFloat and BigInt of a decimal token.
  */
module Text {
  import opened Util

  /** White space and line terminators as ECMAScript defines them. */
  predicate IsSpace(c: char)
  {
    c == ' ' || c == '\t' || c == '\n' || c == '\r' || c == '\U{B}' || c == '\U{C}'
    || c == '\U{A0}' || c == '\U{1680}' || ('\U{2000}' <= c <= '\U{200A}')
    || c == '\U{2028}' || c == '\U{2029}' || c == '\U{202F}' || c == '\U{205F}'
    || c == '\U{3000}' || c == '\U{FEFF}'
  }

  predicate IsDigit(c: char)
  {
    '0' <= c <= '9'
  }

  /** The regex class \w. */
  predicate IsWordChar(c: char)
  {
    IsDigit(c) || 'a' <= c <= 'z' || 'A' <= c <= 'Z' || c == '_'
  }

  predicate IsDigits(s: string)
  {
    |s| > 0 && forall i :: 0 <= i < |s| ==> IsDigit(s[i])
  }

  function TrimStart(s: string): (r: string)
    ensures |r| <= |s|
  {
    if |s| > 0 && IsSpace(s[0]) then TrimStart(s[1..]) else s
  }

  /** What is left after trimming the start does not start with a space. */
  lemma {:induction false} TrimStartFirst(s: string)
    ensures |TrimStart(s)| > 0 ==> !IsSpace(TrimStart(s)[0])
  {
    if |s| > 0 && IsSpace(s[0]) {
      TrimStartFirst(s[1..]);
    }
  }

  function TrimEnd(s: string): (r: string)
    ensures |r| <= |s| && r == s[..|r|]
  {
    if |s| > 0 && IsSpace(s[|s| - 1]) then TrimEnd(s[..|s| - 1]) else s
  }

  /** String.prototype.trim. */
  function Trim(s: string): (r: string)
    ensures |r| <= |s|
  {
    TrimEnd(TrimStart(s))
  }

  /** `s.trim() === ''`, which is also `!s` for the empty string. */
  predicate IsBlank(s: string)
  {
    Trim(s) == []
  }

  /** String.prototype.split with a one-character separator. */
  function SplitOn(s: string, sep: char): (r: seq<string>)
    ensures |r| >= 1
  {
    if |s| == 0 then [""]
    else
      var rest := SplitOn(s[1..], sep);
      if s[0] == sep then [""] + rest else [[s[0]] + rest[0]] + rest[1..]
  }

  /** `s.replace(/\r\n/g, '\n')`. */
  function NormalizeNewlines(s: string): (r: string)
    ensures |r| <= |s|
  {
    if |s| >= 2 && s[0] == '\r' && s[1] == '\n' then "\n" + NormalizeNewlines(s[2..])
    else if |s| == 0 then ""
    else [s[0]] + NormalizeNewlines(s[1..])
  }

  /** Length of the longest prefix of s made of non-space characters. */
  function WordLength(s: string): (n: nat)
    ensures n <= |s|
    ensures forall i :: 0 <= i < n ==> !IsSpace(s[i])
    ensures n == |s| || IsSpace(s[n])
  {
    if |s| > 0 && !IsSpace(s[0]) then 1 + WordLength(s[1..]) else 0
  }

  /** The maximal runs of non-space characters of s, in order. */
  function Words(s: string): (r: seq<string>)
    decreases |s|
  {
    var t := TrimStart(s);
    if t == [] then []
    else
      TrimStartFirst(s);
      var n := WordLength(t);
      [t[..n]] + Words(t[n..])
  }

  /** `s.trim().split(/\s+/)`: the words of s, or [""] when s is blank. */
  function Fields(s: string): (r: seq<string>)
    ensures |r| >= 1
  {
    if IsBlank(s) then [""]
    else
      var w := Words(s);
      if w == [] then [""] else w
  }

  predicate StartsWith(s: string, prefix: string)
  {
    |prefix| <= |s| && s[..|prefix|] == prefix
  }

  /** String.prototype.includes. */
  predicate Contains(s: string, sub: string)
    decreases |s|
  {
    StartsWith(s, sub) || (|s| > 0 && Contains(s[1..], sub))
  }

  /** A text contains whatever starts at one of its positions. */
  lemma {:induction false} ContainsAt(s: string, q: nat, sub: string)
    requires q <= |s| && StartsWith(s[q..], sub)
    ensures Contains(s, sub)
    decreases q
  {
    if q == 0 {
      assert s[0..] == s;
    } else {
      assert s[1..][q - 1..] == s[q..];
      ContainsAt(s[1..], q - 1, sub);
    }
  }

  function DigitValue(c: char): nat
  {
    if IsDigit(c) then (c as int - '0' as int) else 0
  }

  /** The value of a string of decimal digits. */
  function DigitsValue(s: string): nat
  {
    if s == [] then 0 else 10 * DigitsValue(s[..|s| - 1]) + DigitValue(s[|s| - 1])
  }

  /** Length of the longest prefix of s made of decimal digits. */
  function DigitRun(s: string): (n: nat)
    ensures n <= |s|
    ensures forall i :: 0 <= i < n ==> IsDigit(s[i])
    ensures n == |s| || !IsDigit(s[n])
  {
    if |s| > 0 && IsDigit(s[0]) then 1 + DigitRun(s[1..]) else 0
  }

  lemma DigitsAreWhole(s: string)
    requires IsDigits(s)
    ensures TrimStart(s) == s && DigitRun(s) == |s|
  {
    assert !IsSpace(s[0]);
    if |s| > 1 {
      DigitsAreWhole(s[1..]);
    }
  }

  /** parseInt(s, 10): leading white space, an optional sign, then the
      longest run of digits; NaN (None) when there is no digit. */
  function ParseInt(s: string): Option<int>
  {
    var t := TrimStart(s);
    var signed := |t| > 0 && (t[0] == '-' || t[0] == '+');
    var body := if signed then t[1..] else t;
    var n := DigitRun(body);
    if n == 0 then None
    else if signed && t[0] == '-' then Some(-(DigitsValue(body[..n]) as int))
    else Some(DigitsValue(body[..n]))
  }

  lemma ParseIntOfDigits(s: string)
    requires IsDigits(s)
    ensures ParseInt(s) == Some(DigitsValue(s))
  {
    DigitsAreWhole(s);
    assert s[..|s|] == s;
  }

  /** What TrimEnd removes is white space. */
  lemma {:induction false} TrimEndDropsSpaces(s: string)
    ensures forall i :: |TrimEnd(s)| <= i < |s| ==> IsSpace(s[i])
    decreases |s|
  {
    if |s| > 0 && IsSpace(s[|s| - 1]) {
      TrimEndDropsSpaces(s[..|s| - 1]);
    }
  }

  /** A digit run does not reach into trailing white space. */
  lemma {:induction false} DigitRunOfPrefix(b: string, m: nat)
    requires m <= |b|
    requires forall i :: m <= i < |b| ==> IsSpace(b[i])
    ensures DigitRun(b[..m]) == DigitRun(b)
    decreases m
  {
    if m > 0 && IsDigit(b[0]) {
      assert b[..m][1..] == b[1..][..m - 1];
      DigitRunOfPrefix(b[1..], m - 1);
    } else if m == 0 && |b| > 0 {
      assert IsSpace(b[0]);
    }
  }

  /** Cutting trailing white space off a text that does not start with
      white space leaves parseInt's reading as it was. */
  lemma ParseIntOfSpacedPrefix(t: string, m: nat)
    requires m <= |t| && (|t| > 0 ==> !IsSpace(t[0]))
    requires forall i :: m <= i < |t| ==> IsSpace(t[i])
    ensures ParseInt(t[..m]) == ParseInt(t)
  {
    var r := t[..m];
    assert TrimStart(t) == t;
    if m == 0 {
      assert r == [] && t == [];
    } else {
      assert r[0] == t[0];
      assert TrimStart(r) == r;
      var signed := t[0] == '-' || t[0] == '+';
      var body := if signed then t[1..] else t;
      var body' := if signed then r[1..] else r;
      var k := if signed then m - 1 else m;
      assert body' == body[..k];
      DigitRunOfPrefix(body, k);
      var n := DigitRun(body);
      assert body'[..n] == body[..n];
    }
  }

  /** parseInt(s.trim()) is parseInt(s): parseInt skips the leading white
      space itself and stops before the trailing white space. */
  lemma ParseIntOfTrim(s: string)
    ensures ParseInt(Trim(s)) == ParseInt(s)
  {
    var t := TrimStart(s);
    TrimStartFirst(s);
    TrimEndDropsSpaces(t);
    assert TrimStart(t) == t by {
      if |t| > 0 { assert !IsSpace(t[0]); }
    }
    assert ParseInt(s) == ParseInt(t);
    ParseIntOfSpacedPrefix(t, |Trim(s)|);
  }

  function Pow10(n: nat): (r: nat)
    ensures r >= 1
  {
    if n == 0 then 1 else 10 * Pow10(n - 1)
  }

  /** parseFloat(s) for plain decimal notation: leading white space, an
      optional sign, digits, optionally a dot and more digits; NaN when no
      digit is found. */
  function ParseFloat(s: string): Num
  {
    var t := TrimStart(s);
    var signed := |t| > 0 && (t[0] == '-' || t[0] == '+');
    var body := if signed then t[1..] else t;
    var n := DigitRun(body);
    var frac := if n < |body| && body[n] == '.' then body[n + 1..][..DigitRun(body[n + 1..])] else "";
    if n == 0 && frac == [] then NaN
    else
      var magnitude := DigitsValue(body[..n]) as real + DigitsValue(frac) as real / Pow10(|frac|) as real;
      Fin(if signed && t[0] == '-' then -magnitude else magnitude)
  }

  lemma ParseFloatOfDigits(s: string)
    requires IsDigits(s)
    ensures ParseFloat(s) == Fin(DigitsValue(s) as real)
  {
    DigitsAreWhole(s);
    assert s[..|s|] == s;
  }

  /** The value of a hexadecimal digit character (either case), 16 for any
      other character. */
  function HexDigitValue(c: char): (v: nat)
    ensures v <= 16
    ensures IsDigit(c) ==> v == DigitValue(c)
  {
    if IsDigit(c) then c as int - '0' as int
    else if 'a' <= c <= 'f' then c as int - 'a' as int + 10
    else if 'A' <= c <= 'F' then c as int - 'A' as int + 10
    else 16
  }

  /** The base announced by the prefix of a non-decimal integer literal:
      16 for `0x`, 8 for `0o`, 2 for `0b` (either case), 0 for anything
      else. */
  function RadixOf(prefix: string): (radix: nat)
    ensures radix == 0 || radix == 2 || radix == 8 || radix == 16
  {
    if |prefix| != 2 || prefix[0] != '0' then 0
    else if prefix[1] == 'x' || prefix[1] == 'X' then 16
    else if prefix[1] == 'o' || prefix[1] == 'O' then 8
    else if prefix[1] == 'b' || prefix[1] == 'B' then 2
    else 0
  }

  /** A non-empty run of digits of the given base. */
  predicate IsRadixDigits(s: string, radix: nat)
  {
    |s| > 0 && forall i :: 0 <= i < |s| ==> HexDigitValue(s[i]) < radix
  }

  /** The value of a string of digits in the given base. */
  function RadixValue(s: string, radix: nat): nat
  {
    if s == [] then 0 else radix * RadixValue(s[..|s| - 1], radix) + HexDigitValue(s[|s| - 1])
  }

  /** Read in base 10, a string of decimal digits has its decimal value:
      the radix reading extends the decimal one. */
  lemma {:induction false} RadixTenIsDecimal(s: string)
    requires IsDigits(s)
    ensures IsRadixDigits(s, 10)
    ensures RadixValue(s, 10) == DigitsValue(s)
    decreases |s|
  {
    if |s| > 1 {
      var init := s[..|s| - 1];
      assert forall i :: 0 <= i < |init| ==> init[i] == s[i];
      RadixTenIsDecimal(init);
    }
  }

  /** BigInt(token) for a token without white space: the empty token is 0;
      an optional sign and decimal digits; or an unsigned `0x`, `0o` or
      `0b` literal (either case) with at least one digit of its base.
      Anything else throws a SyntaxError (None). */
  function BigIntOf(token: string): (r: Option<int>)
    ensures token == "" ==> r == Some(0)
    ensures IsDigits(token) ==> r == Some(DigitsValue(token))
    ensures r.Some? && r.value < 0 ==> |token| > 1 && token[0] == '-' && IsDigits(token[1..])
    ensures |token| > 2 && RadixOf(token[..2]) != 0 ==>
              r == (if IsRadixDigits(token[2..], RadixOf(token[..2]))
                    then Some(RadixValue(token[2..], RadixOf(token[..2])) as int) else None)
    ensures r.Some? && token != "" && !IsDigit(token[0]) ==>
              (token[0] == '-' || token[0] == '+') && IsDigits(token[1..])
  {
    if token == "" then Some(0)
    else if IsDigits(token) then Some(DigitsValue(token))
    else if |token| > 1 && token[0] == '-' && IsDigits(token[1..]) then Some(-(DigitsValue(token[1..]) as int))
    else if |token| > 1 && token[0] == '+' && IsDigits(token[1..]) then Some(DigitsValue(token[1..]))
    else if |token| > 2 && RadixOf(token[..2]) != 0 && IsRadixDigits(token[2..], RadixOf(token[..2])) then
      Some(RadixValue(token[2..], RadixOf(token[..2])))
    else None
  }

  /** BigInt reads a hexadecimal literal in base 16. */
  lemma HexLiteral()
    ensures BigIntOf("0x1F") == Some(31)
  {
    assert !IsDigits("0x1F") by { assert !IsDigit("0x1F"[1]); }
    assert "0x1F"[..2] == "0x" && "0x1F"[2..] == "1F";
    assert RadixValue("1F", 16) == 31 by {
      assert "1F"[..1] == "1" && "1"[..0] == "";
      assert RadixValue("1", 16) == 1;
    }
  }

  /** BigInt reads an octal literal in base 8. */
  lemma OctalLiteral()
    ensures BigIntOf("0o17") == Some(15)
  {
    assert !IsDigits("0o17") by { assert !IsDigit("0o17"[1]); }
    assert "0o17"[..2] == "0o" && "0o17"[2..] == "17";
    assert RadixValue("17", 8) == 15 by {
      assert "17"[..1] == "1" && "1"[..0] == "";
      assert RadixValue("1", 8) == 1;
    }
  }

  /** BigInt reads a binary literal, with an upper-case prefix, in base 2. */
  lemma BinaryLiteral()
    ensures BigIntOf("0B101") == Some(5)
  {
    assert !IsDigits("0B101") by { assert !IsDigit("0B101"[1]); }
    assert "0B101"[..2] == "0B" && "0B101"[2..] == "101";
    assert RadixValue("101", 2) == 5 by {
      assert "101"[..2] == "10" && "10"[..1] == "1" && "1"[..0] == "";
      assert RadixValue("1", 2) == 1;
      assert RadixValue("10", 2) == 2;
    }
  }

  /** BigInt reads a signed decimal, and rejects a sign before a radix
      prefix, a bare prefix, a digit outside the base and a decimal point. */
  lemma BigIntSyntax()
    ensures BigIntOf("-42") == Some(-42)
    ensures BigIntOf("-0x1") == None
    ensures BigIntOf("0x") == None
    ensures BigIntOf("0b2") == None
    ensures BigIntOf("1.5") == None
  {
    assert !IsDigits("-42") by { assert !IsDigit("-42"[0]); }
    assert "-42"[1..] == "42" && "42"[..1] == "4" && "4"[..0] == "";
    assert !IsDigits("-0x1") by { assert !IsDigit("-0x1"[0]); }
    assert !IsDigits("-0x1"[1..]) by { assert "-0x1"[1..][1] == 'x'; }
    assert RadixOf("-0x1"[..2]) == 0 by { assert "-0x1"[..2][0] == '-'; }
    assert !IsDigits("0x") by { assert !IsDigit("0x"[1]); }
    assert !IsDigits("0b2") by { assert !IsDigit("0b2"[1]); }
    assert "0b2"[..2] == "0b" && "0b2"[2..] == "2";
    assert !IsRadixDigits("2", 2) by { assert HexDigitValue("2"[0]) == 2; }
    assert !IsDigits("1.5") by { assert !IsDigit("1.5"[1]); }
  }

  /** String.prototype.toLowerCase on the characters of \w. */
  function ToLowerAscii(s: string): (r: string)
    ensures |r| == |s|
    ensures forall i :: 0 <= i < |s| ==> !('A' <= r[i] <= 'Z')
    ensures forall i :: 0 <= i < |s| && !('A' <= s[i] <= 'Z') ==> r[i] == s[i]
    ensures forall i :: 0 <= i < |s| && 'A' <= s[i] <= 'Z' ==> r[i] as int == s[i] as int + 32
  {
    if s == [] then ""
    else
      var c := s[0];
      [if 'A' <= c <= 'Z' then (c as int + 32) as char else c] + ToLowerAscii(s[1..])
  }

  /** `s.replace(/["']/g, '')`. */
  function RemoveQuotes(s: string): (r: string)
    ensures forall i :: 0 <= i < |r| ==> r[i] != '"' && r[i] != '\''
  {
    if s == [] then ""
    else (if s[0] == '"' || s[0] == '\'' then "" else [s[0]]) + RemoveQuotes(s[1..])
  }
}
