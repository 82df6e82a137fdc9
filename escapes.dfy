/** The line-end setting of key2ser/config.py. In "literal" mode the text is
    taken as written. In "escape" mode it is encoded as UTF-8 and decoded with
    Python's unicode_escape codec, restricted here to the escapes that codec
    has apart from \N{name}. The codec reads every non-escape byte as a Latin-1
    character, so a non-ASCII line end comes back as mojibake: the model has the
    behaviour as written (ParseLineEndAsWritten) and the intended one
    (ParseLineEnd), which decodes escapes over the characters themselves. */
module Escapes {
  import opened Common

  const Backslash: int := '\\' as int
  const MaxCodePoint: int := 0x10FFFF

  /** A string as its sequence of Unicode code points. */
  function CodePoints(s: string): (r: seq<int>)
    ensures |r| == |s|
    ensures forall i :: 0 <= i < |s| ==> r[i] == s[i] as int
  {
    if s == [] then [] else [s[0] as int] + CodePoints(s[1..])
  }

  predicate IsScalar(x: int) {
    (0 <= x < 0xD800) || (0xDFFF < x <= MaxCodePoint)
  }

  /** Code points back to a string; None when one of them is a lone surrogate
      or out of range, which a Dafny string cannot hold. */
  function FromCodePoints(u: seq<int>): (r: Option<string>)
    ensures r.Some? <==> forall i :: 0 <= i < |u| ==> IsScalar(u[i])
    ensures r.Some? ==> CodePoints(r.value) == u
  {
    if u == [] then Some([])
    else if !IsScalar(u[0]) then None
    else match FromCodePoints(u[1..])
      case None => None
      case Some(t) => Some([u[0] as char] + t)
  }

  /** The bytes of one character in UTF-8. */
  function Utf8Char(c: char): (r: seq<int>)
    ensures 1 <= |r| <= 4
    ensures forall i :: 0 <= i < |r| ==> 0 <= r[i] < 256
    ensures c as int < 0x80 ==> r == [c as int]
    ensures c as int >= 0x80 ==> |r| >= 2 && forall i :: 0 <= i < |r| ==> r[i] >= 0x80
  {
    var x := c as int;
    if x < 0x80 then [x]
    else if x < 0x800 then [0xC0 + x / 0x40, 0x80 + x % 0x40]
    else if x < 0x10000 then [0xE0 + x / 0x1000, 0x80 + (x / 0x40) % 0x40, 0x80 + x % 0x40]
    else [0xF0 + x / 0x40000, 0x80 + (x / 0x1000) % 0x40, 0x80 + (x / 0x40) % 0x40, 0x80 + x % 0x40]
  }

  /** bytes(s, "utf-8"). */
  function Utf8(s: string): (r: seq<int>)
    ensures |r| >= |s|
    ensures forall i :: 0 <= i < |r| ==> 0 <= r[i] < 256
  {
    if s == [] then [] else Utf8Char(s[0]) + Utf8(s[1..])
  }

  /** The value of a hexadecimal digit, 16 for anything else. */
  function HexDigit(x: int): (r: nat)
    ensures r <= 16
  {
    if '0' as int <= x <= '9' as int then x - '0' as int
    else if 'a' as int <= x <= 'f' as int then x - 'a' as int + 10
    else if 'A' as int <= x <= 'F' as int then x - 'A' as int + 10
    else 16
  }

  predicate AllHex(u: seq<int>) {
    forall i :: 0 <= i < |u| ==> HexDigit(u[i]) < 16
  }

  /** The number a run of hexadecimal digits denotes. */
  function HexValue(u: seq<int>): nat
    requires AllHex(u)
  {
    if u == [] then 0 else HexValue(u[..|u| - 1]) * 16 + HexDigit(u[|u| - 1])
  }

  predicate IsOctal(x: int) {
    '0' as int <= x <= '7' as int
  }

  /** How many octal digits (at most three) start `u`. */
  function OctalRun(u: seq<int>): (k: nat)
    ensures k <= 3 && k <= |u|
    ensures forall i :: 0 <= i < k ==> IsOctal(u[i])
    ensures k < 3 && k < |u| ==> !IsOctal(u[k])
  {
    if |u| >= 1 && IsOctal(u[0]) then
      if |u| >= 2 && IsOctal(u[1]) then
        if |u| >= 3 && IsOctal(u[2]) then 3 else 2
      else 1
    else 0
  }

  function OctalValue(u: seq<int>): nat
    requires forall i :: 0 <= i < |u| ==> IsOctal(u[i])
  {
    if u == [] then 0
    else
      assert IsOctal(u[|u| - 1]);
      OctalValue(u[..|u| - 1]) * 8 + (u[|u| - 1] - '0' as int)
  }

  /** The one-character escapes: \\ \' \" \a \b \f \n \r \t \v. */
  function SimpleEscape(x: int): Option<int> {
    if x == Backslash then Some(Backslash)
    else if x == '\'' as int then Some('\'' as int)
    else if x == '"' as int then Some('"' as int)
    else if x == 'a' as int then Some(7)
    else if x == 'b' as int then Some(8)
    else if x == 'f' as int then Some(12)
    else if x == 'n' as int then Some(10)
    else if x == 'r' as int then Some(13)
    else if x == 't' as int then Some(9)
    else if x == 'v' as int then Some(11)
    else None
  }

  /** The number of hex digits \x, \u and \U take; 0 for any other letter. */
  function HexCount(x: int): nat {
    if x == 'x' as int then 2 else if x == 'u' as int then 4 else if x == 'U' as int then 8 else 0
  }

  function Prepend(prefix: seq<int>, r: Option<seq<int>>): (q: Option<seq<int>>)
    ensures q.Some? <==> r.Some?
    ensures q.Some? ==> q.value == prefix + r.value
  {
    match r
    case None => None
    case Some(t) => Some(prefix + t)
  }

  /** One escape sequence: the units it stands for and how many units it
      spans, backslash included, or Invalid. */
  datatype Escape = Invalid | Escape(output: seq<int>, length: nat)

  /** Reads the escape sequence at the start of `u`. Invalid is the
      UnicodeDecodeError: a backslash at the end, too few or non-hex digits
      after \x, \u or \U, a value beyond U+10FFFF, and \N, whose named form
      is not modelled. An unknown escape keeps the backslash and the unit
      after it; backslash-newline stands for nothing. */
  function ReadEscape(u: seq<int>): (e: Escape)
    requires |u| >= 1 && u[0] == Backslash
    ensures e.Escape? ==> 2 <= e.length <= |u|
  {
    if |u| == 1 then Invalid
    else
      var c := u[1];
      if c == '\n' as int then Escape([], 2)
      else if SimpleEscape(c).Some? then Escape([SimpleEscape(c).value], 2)
      else if IsOctal(c) then
        var k := OctalRun(u[1..]);
        Escape([OctalValue(u[1..1 + k])], 1 + k)
      else if HexCount(c) > 0 then
        var n := HexCount(c);
        if |u| < 2 + n || !AllHex(u[2..2 + n]) then Invalid
        else if HexValue(u[2..2 + n]) > MaxCodePoint then Invalid
        else Escape([HexValue(u[2..2 + n])], 2 + n)
      else if c == 'N' as int then Invalid
      else Escape([Backslash, c], 2)
  }

  /** The unicode_escape decoder over a sequence of units (bytes, or code
      points in the corrected reading): a unit that is not a backslash stands
      for itself, and None is the UnicodeDecodeError. */
  function Decode(u: seq<int>): Option<seq<int>>
    decreases |u|
  {
    if u == [] then Some([])
    else if u[0] != Backslash then Prepend([u[0]], Decode(u[1..]))
    else match ReadEscape(u)
      case Invalid => None
      case Escape(output, length) => Prepend(output, Decode(u[length..]))
  }

  /** The ValueError message: "output.line_end has an invalid escape sequence". */
  const EscapeErrorMessage: string := "output.line_end に無効なエスケープシーケンスがあります。"

  /** Decodes units to the line-end string, or the ValueError. A code point
      that is a lone surrogate (from a \u escape) is reported as the error
      too, since a Dafny string cannot hold it. */
  function DecodeLineEnd(u: seq<int>): (r: Result<string, string>)
    ensures Decode(u).None? ==> r == Err(EscapeErrorMessage)
    ensures r.Ok? ==> Decode(u) == Some(CodePoints(r.value))
    ensures r.Err? ==> r.error == EscapeErrorMessage
  {
    match Decode(u)
    case None => Err(EscapeErrorMessage)
    case Some(v) =>
      match FromCodePoints(v)
      case None => Err(EscapeErrorMessage)
      case Some(t) => Ok(t)
  }

  /** _parse_line_end as written: "literal" keeps the text, any other mode
      decodes bytes(text, "utf-8") with unicode_escape. */
  function ParseLineEndAsWritten(lineEnd: string, mode: string): (r: Result<string, string>)
    ensures mode == "literal" ==> r == Ok(lineEnd)
    ensures mode != "literal" ==> r == DecodeLineEnd(Utf8(lineEnd))
  {
    if mode == "literal" then Ok(lineEnd) else DecodeLineEnd(Utf8(lineEnd))
  }

  /** _parse_line_end as intended: escapes are decoded over the characters of
      the text, so characters outside escapes are kept as they are. */
  function ParseLineEnd(lineEnd: string, mode: string): (r: Result<string, string>)
    ensures mode == "literal" ==> r == Ok(lineEnd)
    ensures mode != "literal" ==> r == DecodeLineEnd(CodePoints(lineEnd))
  {
    if mode == "literal" then Ok(lineEnd) else DecodeLineEnd(CodePoints(lineEnd))
  }

  /** The inverse of escape decoding: backslash, CR, LF and tab written as
      escapes, every other character as itself. */
  function EscapeChar(c: char): (r: string)
    ensures 1 <= |r| <= 2
    ensures c as int < 0x80 ==> forall i :: 0 <= i < |r| ==> r[i] as int < 0x80
  {
    if c == '\\' then "\\\\"
    else if c == '\r' then "\\r"
    else if c == '\n' then "\\n"
    else if c == '\t' then "\\t"
    else [c]
  }

  function EscapeText(s: string): (r: string)
    ensures |r| >= |s|
  {
    if s == [] then [] else EscapeChar(s[0]) + EscapeText(s[1..])
  }

  predicate IsAscii(s: string) {
    forall i :: 0 <= i < |s| ==> s[i] as int < 0x80
  }

  predicate NoBackslash(s: string) {
    forall i :: 0 <= i < |s| ==> s[i] != '\\'
  }
}

/** What the two readings of the line end do: literal mode is the identity,
    escape mode inverts EscapeText, text without backslashes is kept by the
    intended reading and by the as-written one exactly when it is ASCII. */
module EscapeFacts {
  import opened Common
  import opened Escapes

  predicate NoBackslashUnit(u: seq<int>) {
    forall i :: 0 <= i < |u| ==> u[i] != Backslash
  }

  /** One decoding step over a unit that is not a backslash. */
  lemma DecodePlainStep(x: int, rest: seq<int>)
    requires x != Backslash
    ensures Decode([x] + rest) == Prepend([x], Decode(rest))
  {
    assert ([x] + rest)[1..] == rest;
  }

  /** One decoding step over a one-character escape. */
  lemma DecodeSimpleStep(c: int, rest: seq<int>)
    requires SimpleEscape(c).Some?
    ensures Decode([Backslash, c] + rest) == Prepend([SimpleEscape(c).value], Decode(rest))
  {
    var u := [Backslash, c] + rest;
    assert u[1] == c && u[2..] == rest;
    assert ReadEscape(u) == Escape([SimpleEscape(c).value], 2);
  }

  /** Backslash-free units in front of the rest pass through decoding. */
  lemma {:induction false} DecodePlainPrefix(p: seq<int>, rest: seq<int>)
    requires NoBackslashUnit(p)
    ensures Decode(rest).None? ==> Decode(p + rest).None?
    ensures Decode(rest).Some? ==> Decode(p + rest) == Some(p + Decode(rest).value)
  {
    if p != [] {
      DecodePlainPrefix(p[1..], rest);
      assert p + rest == [p[0]] + (p[1..] + rest);
      DecodePlainStep(p[0], p[1..] + rest);
      if Decode(rest).Some? {
        assert [p[0]] + (p[1..] + Decode(rest).value) == p + Decode(rest).value;
      }
    } else if Decode(rest).Some? {
      assert p + Decode(rest).value == Decode(rest).value;
      assert p + rest == rest;
    } else {
      assert p + rest == rest;
    }
  }

  /** Units without a backslash decode to themselves. */
  lemma DecodePlain(u: seq<int>)
    requires NoBackslashUnit(u)
    ensures Decode(u) == Some(u)
  {
    DecodePlainPrefix(u, []);
    assert u + [] == u;
  }

  lemma CodePointsAppend(a: string, b: string)
    ensures CodePoints(a + b) == CodePoints(a) + CodePoints(b)
  {
  }

  lemma CodePointsInjective(s: string, t: string)
    requires CodePoints(s) == CodePoints(t)
    ensures s == t
  {
    assert |s| == |t|;
    forall i | 0 <= i < |s|
      ensures s[i] == t[i]
    {
      assert CodePoints(s)[i] == CodePoints(t)[i];
    }
  }

  /** Every string survives the trip to code points and back. */
  lemma FromCodePointsOfString(s: string)
    ensures FromCodePoints(CodePoints(s)) == Some(s)
  {
    var u := CodePoints(s);
    assert forall i :: 0 <= i < |u| ==> IsScalar(u[i]) by {
      forall i | 0 <= i < |u|
        ensures IsScalar(u[i])
      {
        assert u[i] == s[i] as int;
      }
    }
    CodePointsInjective(FromCodePoints(u).value, s);
  }

  /** Units that decode to the code points of a string give that string. */
  lemma DecodesTo(u: seq<int>, s: string)
    requires Decode(u) == Some(CodePoints(s))
    ensures DecodeLineEnd(u) == Ok(s)
  {
    FromCodePointsOfString(s);
  }

  /** Decoding the escape of one character gives that character back, in
      front of whatever follows. */
  lemma DecodeEscapedChar(c: char, rest: seq<int>)
    ensures Decode(CodePoints(EscapeChar(c)) + rest) == Prepend([c as int], Decode(rest))
  {
    var e := CodePoints(EscapeChar(c));
    if c == '\\' {
      assert e == [Backslash, Backslash];
      DecodeSimpleStep(Backslash, rest);
    } else if c == '\r' {
      assert e == [Backslash, 'r' as int];
      DecodeSimpleStep('r' as int, rest);
    } else if c == '\n' {
      assert e == [Backslash, 'n' as int];
      DecodeSimpleStep('n' as int, rest);
    } else if c == '\t' {
      assert e == [Backslash, 't' as int];
      DecodeSimpleStep('t' as int, rest);
    } else {
      assert e == [c as int];
      DecodePlainStep(c as int, rest);
    }
  }

  lemma {:induction false} DecodeEscapeText(s: string)
    ensures Decode(CodePoints(EscapeText(s))) == Some(CodePoints(s))
  {
    if s != [] {
      DecodeEscapeText(s[1..]);
      CodePointsAppend(EscapeChar(s[0]), EscapeText(s[1..]));
      DecodeEscapedChar(s[0], CodePoints(EscapeText(s[1..])));
      assert CodePoints(s) == [s[0] as int] + CodePoints(s[1..]);
    }
  }

  /** Escape mode reads back exactly what EscapeText wrote, for every string. */
  lemma EscapeRoundTrip(s: string)
    ensures ParseLineEnd(EscapeText(s), "escape") == Ok(s)
  {
    DecodeEscapeText(s);
    DecodesTo(CodePoints(EscapeText(s)), s);
  }

  /** Text without a backslash is kept as it is in escape mode. */
  lemma PlainTextKept(s: string)
    requires NoBackslash(s)
    ensures ParseLineEnd(s, "escape") == Ok(s)
  {
    DecodePlain(CodePoints(s));
    DecodesTo(CodePoints(s), s);
  }

  lemma {:induction false} Utf8OfAscii(s: string)
    requires IsAscii(s)
    ensures Utf8(s) == CodePoints(s)
  {
    if s != [] {
      Utf8OfAscii(s[1..]);
    }
  }

  lemma {:induction false} Utf8Longer(s: string)
    requires !IsAscii(s)
    ensures |Utf8(s)| > |s|
  {
    if s[0] as int < 0x80 {
      Utf8Longer(s[1..]);
    }
  }

  lemma {:induction false} Utf8NoBackslash(s: string)
    requires NoBackslash(s)
    ensures NoBackslashUnit(Utf8(s))
  {
    if s != [] {
      Utf8NoBackslash(s[1..]);
      var h := Utf8Char(s[0]);
      assert forall i :: 0 <= i < |h| ==> h[i] != Backslash;
    }
  }

  /** On ASCII text the two readings agree, in either mode. */
  lemma AsWrittenAgreesOnAscii(s: string, mode: string)
    requires IsAscii(s)
    ensures ParseLineEndAsWritten(s, mode) == ParseLineEnd(s, mode)
  {
    Utf8OfAscii(s);
  }

  /** As written, backslash-free text is kept in escape mode if and only if it
      is ASCII: any other character comes back as its UTF-8 bytes read one by
      one as Latin-1 characters. */
  lemma AsWrittenKeepsPlainIffAscii(s: string)
    requires NoBackslash(s)
    ensures ParseLineEndAsWritten(s, "escape") == Ok(s) <==> IsAscii(s)
  {
    if IsAscii(s) {
      AsWrittenAgreesOnAscii(s, "escape");
      PlainTextKept(s);
    } else {
      Utf8NoBackslash(s);
      DecodePlain(Utf8(s));
      Utf8Longer(s);
      var r := ParseLineEndAsWritten(s, "escape");
      if r.Ok? {
        assert |CodePoints(r.value)| == |Utf8(s)|;
      }
    }
  }

  /** The default escape-mode setting "\\r\\n" is CR LF in both readings. */
  lemma CrLfExample()
    ensures ParseLineEndAsWritten("\\r\\n", "escape") == Ok("\r\n")
    ensures ParseLineEnd("\\r\\n", "escape") == Ok("\r\n")
  {
    var text := "\\r\\n";
    var u := CodePoints(text);
    assert u == [Backslash, 'r' as int] + [Backslash, 'n' as int];
    DecodeSimpleStep('n' as int, []);
    DecodeSimpleStep('r' as int, [Backslash, 'n' as int]);
    assert CodePoints("\r\n") == [13, 10];
    DecodesTo(u, "\r\n");
    assert IsAscii(text);
    AsWrittenAgreesOnAscii(text, "escape");
  }

  /** A backslash at the end of the text is an error. */
  lemma TrailingBackslashRejected(s: string)
    requires NoBackslash(s)
    ensures ParseLineEnd(s + "\\", "escape") == Err(EscapeErrorMessage)
  {
    CodePointsAppend(s, "\\");
    assert CodePoints("\\") == [Backslash];
    assert Decode([Backslash]).None?;
    DecodePlainPrefix(CodePoints(s), [Backslash]);
  }

  /** \x needs two hex digits: one digit before the end of the text is an error. */
  lemma TruncatedHexRejected(s: string, d: char)
    requires NoBackslash(s)
    ensures ParseLineEnd(s + "\\x" + [d], "escape") == Err(EscapeErrorMessage)
  {
    var tail := [Backslash, 'x' as int, d as int];
    CodePointsAppend(s, "\\x" + [d]);
    assert CodePoints("\\x" + [d]) == tail;
    assert ReadEscape(tail) == Invalid;
    assert s + "\\x" + [d] == s + ("\\x" + [d]);
    DecodePlainPrefix(CodePoints(s), tail);
  }

  /** An unknown escape keeps its backslash. */
  lemma UnknownEscapeKept()
    ensures ParseLineEnd("\\q", "escape") == Ok("\\q")
  {
    var u := CodePoints("\\q");
    assert u == [Backslash, 'q' as int];
    var q := 'q' as int;
    assert SimpleEscape(q).None? && !IsOctal(q) && HexCount(q) == 0;
    assert ReadEscape(u) == Escape([Backslash, q], 2);
    assert u[2..] == [] && [Backslash, q] + [] == u;
    assert Decode(u) == Some(u);
    DecodesTo(u, "\\q");
  }

  /** "é" in escape mode: the as-written reading returns "Ã©". */
  lemma MojibakeExample()
    ensures ParseLineEndAsWritten("\U{E9}", "escape") == Ok("\U{C3}\U{A9}")
    ensures ParseLineEnd("\U{E9}", "escape") == Ok("\U{E9}")
  {
    PlainTextKept("\U{E9}");
    assert Utf8("\U{E9}") == [0xC3, 0xA9];
    DecodePlain([0xC3, 0xA9]);
    assert CodePoints("\U{C3}\U{A9}") == [0xC3, 0xA9];
    DecodesTo([0xC3, 0xA9], "\U{C3}\U{A9}");
  }
}
