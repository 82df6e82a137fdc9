/** Integer literals as Python's int() reads them: `int(text, 0)` for the
    optional VID/PID fields (decimal, or 0x/0o/0b prefixed) and `int(text)`
    for configparser's getint (decimal, leading zeros allowed). Both accept a
    sign and single underscores between digits. */
module IntParse {
  import opened Common

  /** The value of a hexadecimal-or-lower digit, 16 for any other character. */
  function DigitValue(c: char): (r: nat)
    ensures r <= 16
  {
    if '0' <= c <= '9' then c as int - '0' as int
    else if 'a' <= c <= 'f' then c as int - 'a' as int + 10
    else if 'A' <= c <= 'F' then c as int - 'A' as int + 10
    else 16
  }

  predicate IsDigitIn(c: char, base: nat) {
    DigitValue(c) < base
  }

  /** Python's integer body: digits of `base` separated by single underscores,
      not ending in one; `leadingUnderscore` admits one underscore before the
      first digit, as Python does right after a 0x/0o/0b prefix. */
  predicate WellFormedDigits(s: string, base: nat, leadingUnderscore: bool) {
    && |s| > 0
    && s[|s| - 1] != '_'
    && (s[0] == '_' ==> leadingUnderscore)
    && (forall i :: 0 <= i < |s| ==> s[i] == '_' || IsDigitIn(s[i], base))
    && (forall i :: 0 <= i < |s| - 1 ==> s[i] == '_' ==> s[i + 1] != '_')
  }

  /** The number the digits of `s` denote in `base`, underscores skipped. */
  function DigitsValue(s: string, base: nat): nat
    requires forall i :: 0 <= i < |s| ==> s[i] == '_' || IsDigitIn(s[i], base)
  {
    if s == [] then 0
    else if s[|s| - 1] == '_' then DigitsValue(s[..|s| - 1], base)
    else
      var high := DigitsValue(s[..|s| - 1], base);
      MulNonNegative(high, base);
      high * base + DigitValue(s[|s| - 1])
  }

  lemma MulNonNegative(a: nat, b: nat)
    ensures a * b >= 0
  {
  }

  predicate AllZeros(s: string) {
    forall i :: 0 <= i < |s| ==> s[i] == '0' || s[i] == '_'
  }

  /** The unsigned part of `int(text, 0)`: the prefix picks the base; without
      one the literal is decimal and may not start with 0 unless it is zero. */
  function ParseUnsignedBase0(b: string): (r: Option<nat>)
    ensures r.Some? ==> |b| > 0
  {
    if |b| >= 2 && b[0] == '0' && (b[1] == 'x' || b[1] == 'X') then
      if WellFormedDigits(b[2..], 16, true) then Some(DigitsValue(b[2..], 16)) else None
    else if |b| >= 2 && b[0] == '0' && (b[1] == 'o' || b[1] == 'O') then
      if WellFormedDigits(b[2..], 8, true) then Some(DigitsValue(b[2..], 8)) else None
    else if |b| >= 2 && b[0] == '0' && (b[1] == 'b' || b[1] == 'B') then
      if WellFormedDigits(b[2..], 2, true) then Some(DigitsValue(b[2..], 2)) else None
    else if WellFormedDigits(b, 10, false) && (b[0] == '0' ==> AllZeros(b)) then
      Some(DigitsValue(b, 10))
    else None
  }

  /** Splits an optional leading sign off a literal. */
  function SplitSign(s: string): (bool, string) {
    if s != [] && (s[0] == '-' || s[0] == '+') then (s[0] == '-', s[1..]) else (false, s)
  }

  function Signed(negative: bool, n: nat): int {
    if negative then -(n as int) else n
  }

  /** `int(text, 0)` on a stripped text; None stands for the ValueError. */
  function ParseIntBase0(s: string): Option<int> {
    var (negative, body) := SplitSign(s);
    match ParseUnsignedBase0(body)
    case None => None
    case Some(n) => Some(Signed(negative, n))
  }

  /** `int(text)` (base 10) as configparser's getint applies it: surrounding
      whitespace ignored, leading zeros allowed. */
  function ParseIntBase10(text: string): Option<int> {
    var (negative, body) := SplitSign(Strip(text));
    if WellFormedDigits(body, 10, false) then Some(Signed(negative, DigitsValue(body, 10))) else None
  }

  function OptionalIntMessage(fieldName: string): string {
    fieldName + " must be integer (decimal or hex)"
  }

  /** _parse_optional_int: an absent or blank value means "not given";
      otherwise the stripped text must be a Python integer literal, and a
      malformed one is a ValueError whose message names the field. */
  function ParseOptionalInt(value: Option<string>, fieldName: string): (r: Result<Option<int>, string>)
    ensures value.None? ==> r == Ok(None)
    ensures value.Some? && Strip(value.value) == [] ==> r == Ok(None)
    ensures r.Ok? && r.value.Some? ==> value.Some? && ParseIntBase0(Strip(value.value)) == r.value
    ensures r.Err? ==> r.error == OptionalIntMessage(fieldName)
    ensures value.Some? && Strip(value.value) != [] ==>
      r == (if ParseIntBase0(Strip(value.value)).None? then Err(OptionalIntMessage(fieldName))
            else Ok(ParseIntBase0(Strip(value.value))))
  {
    match value
    case None => Ok(None)
    case Some(text) =>
      var stripped := Strip(text);
      if stripped == [] then Ok(None)
      else match ParseIntBase0(stripped)
        case None => Err(OptionalIntMessage(fieldName))
        case Some(n) => Ok(Some(n))
  }

  /** A value made of whitespace only counts as not given. */
  lemma BlankIsAbsent(text: string, fieldName: string)
    requires forall i :: 0 <= i < |text| ==> IsSpace(text[i])
    ensures ParseOptionalInt(Some(text), fieldName) == Ok(None)
  {
    StripEmptyIffBlank(text);
  }
  // Rendering integers as text: the inverse direction of the parsing above.

  function DigitChar(d: nat): (c: char)
    requires d < 16
    ensures DigitValue(c) == d
  {
    if d < 10 then ('0' as int + d) as char else ('a' as int + d - 10) as char
  }

  /** The digits of `n` in `base`, most significant first, no leading zero. */
  function Digits(n: nat, base: nat): (s: string)
    requires 2 <= base <= 16
    ensures |s| > 0
  {
    if n < base then [DigitChar(n)] else Digits(n / base, base) + [DigitChar(n % base)]
  }

  /** Python's str(n). */
  function DecimalText(n: int): string {
    if n < 0 then "-" + Digits(-n, 10) else Digits(n, 10)
  }

  /** Python's hex(n) for a natural number: 0x and lower-case digits. */
  function HexText(n: nat): (r: string)
    ensures |r| > 2 && r[..2] == "0x"
  {
    "0x" + Digits(n, 16)
  }

  /** Appending a digit shifts the value one place. */
  lemma DigitsValueAppend(p: string, c: char, base: nat)
    requires forall i :: 0 <= i < |p| ==> p[i] == '_' || IsDigitIn(p[i], base)
    requires base <= 16 && IsDigitIn(c, base)
    ensures forall i :: 0 <= i < |p + [c]| ==> (p + [c])[i] == '_' || IsDigitIn((p + [c])[i], base)
    ensures DigitsValue(p + [c], base) == DigitsValue(p, base) * base + DigitValue(c)
  {
    assert (p + [c])[..|p|] == p;
  }

  lemma DivFacts(n: nat, base: nat)
    requires 2 <= base <= 16 && n >= base
    ensures 1 <= n / base < n
    ensures n == (n / base) * base + n % base
  {
    var q, r := n / base, n % base;
    assert n == base * q + r;
  }

  /** The rendered digits are digits of `base`, with no underscore, and start with 0 only for zero. */
  lemma {:induction false} DigitsShape(n: nat, base: nat)
    requires 2 <= base <= 16
    ensures forall i :: 0 <= i < |Digits(n, base)| ==> Digits(n, base)[i] != '_' && IsDigitIn(Digits(n, base)[i], base)
    ensures Digits(n, base)[0] == '0' <==> n == 0
  {
    if n >= base {
      var q := n / base;
      DivFacts(n, base);
      DigitsShape(q, base);
      var d := Digits(n, base);
      assert d == Digits(q, base) + [DigitChar(n % base)];
      assert d[0] == Digits(q, base)[0];
    }
  }

  /** The rendered digits are well formed and denote `n`. */
  lemma {:induction false} DigitsCorrect(n: nat, base: nat)
    requires 2 <= base <= 16
    ensures WellFormedDigits(Digits(n, base), base, false)
    ensures DigitsValue(Digits(n, base), base) == n
    ensures Digits(n, base)[0] == '0' <==> n == 0
    ensures forall i :: 0 <= i < |Digits(n, base)| ==> Digits(n, base)[i] != '_'
  {
    DigitsShape(n, base);
    if n < base {
      assert DigitsValue([DigitChar(n)], base) == DigitsValue([], base) * base + n;
    } else {
      var q, r := n / base, n % base;
      DivFacts(n, base);
      var p := Digits(q, base);
      assert Digits(n, base) == p + [DigitChar(r)];
      DigitsShape(q, base);
      DigitsCorrect(q, base);
      var c := DigitChar(r);
      DigitsValueAppend(p, c, base);
      assert DigitsValue(Digits(n, base), base) == q * base + r;
    }
  }

}

/** Facts about the renderings that the round trips below are built from. */
module IntText {
  import opened Common
  import opened IntParse

  lemma NoSpaceInDigits(s: string)
    requires forall i :: 0 <= i < |s| ==> s[i] != '_' && DigitValue(s[i]) < 16
    ensures s == [] || (!IsSpace(s[0]) && !IsSpace(s[|s| - 1]))
  {
  }

  /** A decimal rendering parses back without its sign. */
  lemma DecimalDigitsParse(m: nat)
    ensures ParseUnsignedBase0(Digits(m, 10)) == Some(m)
  {
    var d := Digits(m, 10);
    DigitsCorrect(m, 10);
    if d[0] == '0' {
      assert d == "0";
    } else {
      assert !(|d| >= 2 && d[0] == '0');
    }
  }

  /** A rendering has no whitespace to strip. */
  lemma StripDecimalText(n: int)
    ensures Strip(DecimalText(n)) == DecimalText(n)
  {
    var m: nat := if n < 0 then -n else n;
    var d := Digits(m, 10);
    DigitsShape(m, 10);
    NoSpaceInDigits(d);
    var text := DecimalText(n);
    assert text[|text| - 1] == d[|d| - 1];
    StripNoSpace(text);
  }

  lemma ParseDecimalText(n: int)
    ensures ParseIntBase0(DecimalText(n)) == Some(n)
  {
    var m: nat := if n < 0 then -n else n;
    var d := Digits(m, 10);
    DecimalDigitsParse(m);
    var text := DecimalText(n);
    if n < 0 {
      assert SplitSign(text) == (true, d);
    } else {
      DigitsShape(m, 10);
      assert SplitSign(text) == (false, d);
    }
  }

  /** A stripped text that int(text, 0) accepts is parsed as that integer. */
  lemma ParsesAs(text: string, n: int, fieldName: string)
    requires text != [] && Strip(text) == text && ParseIntBase0(text) == Some(n)
    ensures ParseOptionalInt(Some(text), fieldName) == Ok(Some(n))
  {
  }

  lemma ParseHexDigits(d: string, n: nat, fieldName: string)
    requires WellFormedDigits(d, 16, false) && DigitsValue(d, 16) == n
    requires forall i :: 0 <= i < |d| ==> d[i] != '_'
    ensures ParseOptionalInt(Some("0x" + d), fieldName) == Ok(Some(n))
  {
    var text := "0x" + d;
    assert text[2..] == d;
    assert ParseUnsignedBase0(text) == Some(n);
    assert SplitSign(text) == (false, text);
    assert text[|text| - 1] == d[|d| - 1];
    NoSpaceInDigits(d);
    StripNoSpace(text);
    ParsesAs(text, n, fieldName);
  }
}

/** Rendering then parsing gives the number back, for both renderings the
    configuration accepts, and the VID/PID examples of tests/test_config.py. */
module IntRoundTrip {
  import opened Common
  import opened IntParse
  import opened IntText

  /** Every integer's decimal rendering reads back as that integer. */
  lemma DecimalRoundTrip(n: int, fieldName: string)
    ensures ParseOptionalInt(Some(DecimalText(n)), fieldName) == Ok(Some(n))
  {
    StripDecimalText(n);
    ParseDecimalText(n);
  }

  /** Every natural number's 0x rendering reads back as that number. */
  lemma HexRoundTrip(n: nat, fieldName: string)
    ensures ParseOptionalInt(Some(HexText(n)), fieldName) == Ok(Some(n))
  {
    DigitsCorrect(n, 16);
    ParseHexDigits(Digits(n, 16), n, fieldName);
  }

  lemma HexTextExamples()
    ensures HexText(0x1234) == "0x1234" && HexText(0xABCD) == "0xabcd"
  {
    assert Digits(0x12, 16) == "12";
    assert Digits(0x123, 16) == "123";
    assert Digits(0xAB, 16) == "ab";
    assert Digits(0xABC, 16) == "abc";
  }

  /** The VID/PID values of tests/test_config.py. */
  lemma HexExamples()
    ensures ParseOptionalInt(Some("0x1234"), "vendor_id") == Ok(Some(0x1234))
    ensures ParseOptionalInt(Some("0xabcd"), "product_id") == Ok(Some(0xABCD))
  {
    HexRoundTrip(0x1234, "vendor_id");
    HexRoundTrip(0xABCD, "product_id");
    HexTextExamples();
  }
}
