/** Python values as they travel through requests (decoded JSON plus UUID objects), the
    builtin conversions `int(...)`, `float(...)` and `str(...)` the modelled code applies to
    them, and `uuid.UUID(...)` with its printed form. */
module PyCore {
  import opened Outcomes
  import opened PyStrings

  /** A UUID object, held as its 32 hexadecimal digits in lower case. */
  datatype Uuid = Uuid(hex: string)

  predicate IsLowerHex(c: char) {
    ('0' <= c <= '9') || ('a' <= c <= 'f')
  }

  predicate IsHex(c: char) {
    IsLowerHex(c) || ('A' <= c <= 'F')
  }

  predicate ValidUuid(u: Uuid) {
    |u.hex| == 32 && forall i :: 0 <= i < 32 ==> IsLowerHex(u.hex[i])
  }

  /** A decoded JSON value, or a UUID object standing in a reply. */
  datatype Value =
    | VNone
    | VBool(b: bool)
    | VInt(i: int)
    | VFloat(r: real)
    | VStr(s: string)
    | VList(items: seq<Value>)
    | VUuid(u: Uuid)

  // ---------------------------------------------------------------------------
  // Decimal digits
  // ---------------------------------------------------------------------------

  predicate IsDigit(c: char) {
    '0' <= c <= '9'
  }

  predicate AllDigits(s: string) {
    forall i :: 0 <= i < |s| ==> IsDigit(s[i])
  }

  function DigitValue(c: char): nat
    requires IsDigit(c)
  {
    c as int - '0' as int
  }

  /** The number a run of decimal digits denotes. */
  function DigitsValue(s: string): nat
    requires AllDigits(s)
  {
    if s == [] then 0 else DigitsValue(s[..|s| - 1]) * 10 + DigitValue(s[|s| - 1])
  }

  function Pow10(k: nat): (r: nat)
    ensures r >= 1
  {
    if k == 0 then 1 else 10 * Pow10(k - 1)
  }

  /** `str(n)` for a natural number: its decimal digits without leading zeros. */
  function NatStr(n: nat): (r: string)
    ensures r != [] && AllDigits(r)
  {
    if n < 10 then [('0' as int + n) as char] else NatStr(n / 10) + [('0' as int + n % 10) as char]
  }

  /** `str(n)` for an integer. */
  function IntStr(n: int): string {
    if n < 0 then "-" + NatStr(-n) else NatStr(n)
  }

  lemma {:induction false} NatStrValue(n: nat)
    ensures DigitsValue(NatStr(n)) == n
  {
    if n >= 10 {
      NatStrValue(n / 10);
      var s := NatStr(n);
      assert s[..|s| - 1] == NatStr(n / 10);
    }
  }

  // ---------------------------------------------------------------------------
  // int(str) and float(str)
  // ---------------------------------------------------------------------------

  /** An optional sign followed by the rest: (negative, rest). */
  function SplitSign(t: string): (bool, string) {
    if |t| > 0 && (t[0] == '-' || t[0] == '+') then (t[0] == '-', t[1..]) else (false, t)
  }

  predicate DigitsOrUnderscores(d: string) {
    forall i :: 0 <= i < |d| ==> IsDigit(d[i]) || d[i] == '_'
  }

  /** A run of decimal digits in which single underscores may stand between two digits,
      as `int()` and `float()` read them (PEP 515). */
  predicate DigitRun(d: string) {
    d != [] && IsDigit(d[0]) && IsDigit(d[|d| - 1]) && DigitsOrUnderscores(d) &&
    forall i :: 0 <= i < |d| - 1 ==> IsDigit(d[i]) || IsDigit(d[i + 1])
  }

  /** The number a run denotes, its underscores skipped. */
  function RunValue(d: string): nat
    requires DigitsOrUnderscores(d)
  {
    if d == [] then 0
    else if d[|d| - 1] == '_' then RunValue(d[..|d| - 1])
    else RunValue(d[..|d| - 1]) * 10 + DigitValue(d[|d| - 1])
  }

  /** The number of digits in a run. */
  function RunLength(d: string): nat {
    if d == [] then 0 else RunLength(d[..|d| - 1]) + (if d[|d| - 1] == '_' then 0 else 1)
  }

  /** `int(s)` for a string: surrounding whitespace, an optional sign and a run of decimal
      digits; None where Python raises ValueError. */
  function ParseInt(s: string): Option<int> {
    var (neg, d) := SplitSign(Strip(s));
    if DigitRun(d) then
      Some(if neg then -(RunValue(d) as int) else RunValue(d))
    else None
  }

  /** Position of the first '.' in s, or |s| when there is none. */
  function DotAt(s: string): (k: nat)
    ensures k <= |s|
    ensures forall i :: 0 <= i < k ==> s[i] != '.'
    ensures k < |s| ==> s[k] == '.'
  {
    if s == [] || s[0] == '.' then 0 else 1 + DotAt(s[1..])
  }

  /** Position of the first 'e' or 'E' in s, or |s| when there is none. */
  function ExpAt(s: string): (k: nat)
    ensures k <= |s|
    ensures forall i :: 0 <= i < k ==> s[i] != 'e' && s[i] != 'E'
    ensures k < |s| ==> s[k] == 'e' || s[k] == 'E'
  {
    if s == [] || s[0] == 'e' || s[0] == 'E' then 0 else 1 + ExpAt(s[1..])
  }

  /** Ten to an integer power. */
  function Scale(e: int): (r: real)
    ensures r > 0.0
  {
    if e >= 0 then Pow10(e) as real else 1.0 / Pow10(-e) as real
  }

  /** `float(s)` for a string in decimal notation: surrounding whitespace, an optional sign
      and an unsigned decimal. None where Python raises ValueError. */
  function ParseFloat(s: string): Option<real> {
    var (neg, d) := SplitSign(Strip(s));
    match DecimalValue(d)
    case None => None
    case Some(mag) => Some(if neg then -mag else mag)
  }

  /** An unsigned decimal: a mantissa of digit runs with at most one decimal point and at
      least one digit, and an optional exponent 'e' or 'E' with its own sign and digit run.
      Its value is the exact decimal the string denotes. */
  function DecimalValue(d: string): Option<real> {
    var e := ExpAt(d);
    var mant := d[..e];
    var k := DotAt(mant);
    var whole := mant[..k];
    var frac := if k < |mant| then mant[k + 1..] else [];
    var (expNeg, expDigits) := if e < |d| then SplitSign(d[e + 1..]) else (false, "0");
    if (whole == [] || DigitRun(whole)) && (frac == [] || DigitRun(frac)) && whole + frac != [] && DigitRun(expDigits) then
      var ex := if expNeg then -(RunValue(expDigits) as int) else RunValue(expDigits);
      Some((RunValue(whole) as real + RunValue(frac) as real / Pow10(RunLength(frac)) as real) * Scale(ex))
    else None
  }

  /** Single underscores group digits, and surrounding whitespace, a sign and leading
      zeros are read. */
  lemma IntForms()
    ensures ParseInt(" 1_000 ") == Some(1000) && ParseInt("-07") == Some(-7)
  {
    assert StripWsLeft(" 1_000 ") == "1_000 " by { assert " 1_000 "[1..] == "1_000 "; }
    assert StripWsRight("1_000 ") == "1_000" by { assert "1_000 "[..5] == "1_000"; }
    GroupedThousand();
    SignedLeadingZero();
  }

  lemma GroupedThousand()
    ensures DigitRun("1_000") && RunValue("1_000") == 1000
  {
    assert "1_000"[..4] == "1_00" && "1_00"[..3] == "1_0";
    GroupedTen();
  }

  lemma GroupedTen()
    ensures RunValue("1_0") == 10
  {
    assert "1_0"[..2] == "1_" && "1_"[..1] == "1";
  }

  lemma SignedLeadingZero()
    ensures ParseInt("-07") == Some(-7)
  {
    StripNoEdgeSpace("-07");
    assert SplitSign("-07") == (true, "07");
    assert RunValue("07") == 7 by { assert "07"[..1] == "0"; }
  }

  /** A doubled, leading or trailing underscore is refused. */
  lemma IntRefusals()
    ensures ParseInt("1__0") == None && ParseInt("_1") == None && ParseInt("1_") == None
  {
    StripNoEdgeSpace("1__0");
    StripNoEdgeSpace("_1");
    StripNoEdgeSpace("1_");
    assert !DigitRun("1__0") by { assert !(IsDigit("1__0"[1]) || IsDigit("1__0"[2])); }
  }

  /** An exponent scales the mantissa either way, underscores group its digits, and a
      mantissa or exponent without digits is refused (PlainDecimal carries these to
      `float(...)`). */
  lemma DecimalForms()
    ensures DecimalValue("1e3") == Some(1000.0) && DecimalValue("2E-1") == Some(0.2)
    ensures DecimalValue("1_0.5") == Some(10.5) && DecimalValue("e3") == None && DecimalValue("1e") == None
  {
    DecimalPositiveExponent();
    DecimalNegativeExponent();
    DecimalGrouped();
    DecimalRefusals();
  }

  /** A string without surrounding whitespace or a sign is read as an unsigned decimal. */
  lemma PlainDecimal(s: string)
    requires s != [] && !IsSpace(s[0]) && !IsSpace(s[|s| - 1]) && s[0] != '-' && s[0] != '+'
    ensures ParseFloat(s) == DecimalValue(s)
  {
    StripNoEdgeSpace(s);
  }

  lemma DecimalPositiveExponent()
    ensures DecimalValue("1e3") == Some(1000.0)
  {
    assert ExpAt("1e3") == 1 && "1e3"[..1] == "1" && "1e3"[2..] == "3";
    assert DotAt("1") == 1 && "1"[..1] == "1";
    assert Pow10(3) == 1000;
  }

  lemma DecimalNegativeExponent()
    ensures DecimalValue("2E-1") == Some(0.2)
  {
    assert ExpAt("2E-1") == 1 && "2E-1"[..1] == "2" && "2E-1"[2..] == "-1";
    assert DotAt("2") == 1 && "2"[..1] == "2";
    assert SplitSign("-1") == (true, "1");
    assert Pow10(1) == 10;
  }

  lemma DecimalGrouped()
    ensures DecimalValue("1_0.5") == Some(10.5)
  {
    GroupedParts();
    GroupedTen();
    assert RunLength("5") == 1 && Pow10(1) == 10;
  }

  lemma GroupedParts()
    ensures ExpAt("1_0.5") == 5 && "1_0.5"[..5] == "1_0.5"
    ensures DotAt("1_0.5") == 3 && "1_0.5"[..3] == "1_0" && "1_0.5"[4..] == "5"
  {
    assert "1_0.5"[1..] == "_0.5" && "_0.5"[1..] == "0.5" && "0.5"[1..] == ".5" && ".5"[1..] == "5";
  }

  lemma DecimalRefusals()
    ensures DecimalValue("e3") == None && DecimalValue("1e") == None
  {
    assert ExpAt("e3") == 0 && "e3"[..0] == "";
    assert ExpAt("1e") == 1 && "1e"[2..] == "";
  }

  /** `str(n)` reads back as n through `int(...)`, and through `float(...)` as the same number. */
  lemma IntStrRoundTrip(n: int)
    ensures ParseInt(IntStr(n)) == Some(n)
    ensures ParseFloat(IntStr(n)) == Some(n as real)
  {
    var m: nat := if n < 0 then -n else n;
    IntStrShape(n);
    NatStrValue(m);
    DigitsAreRun(NatStr(m));
    DecimalOfDigits(NatStr(m));
  }

  /** Plain digits read as an unsigned decimal with their value. */
  lemma DecimalOfDigits(d: string)
    requires d != [] && AllDigits(d)
    ensures DecimalValue(d) == Some(DigitsValue(d) as real)
  {
    DigitsAreRun(d);
    NoDotInDigits(d);
    NoExpInDigits(d);
    assert d[..|d|] == d;
    assert RunValue("0") == 0;
  }

  /** Plain digits form a run whose value is their value. */
  lemma {:induction false} DigitsAreRun(d: string)
    requires d != [] && AllDigits(d)
    ensures DigitRun(d) && RunValue(d) == DigitsValue(d)
  {
    DigitsRunValue(d);
  }

  lemma {:induction false} DigitsRunValue(d: string)
    requires AllDigits(d)
    ensures DigitsOrUnderscores(d) && RunValue(d) == DigitsValue(d)
  {
    if d != [] {
      var p := d[..|d| - 1];
      assert AllDigits(p) by {
        forall i | 0 <= i < |p| ensures IsDigit(p[i]) { assert p[i] == d[i]; }
      }
      DigitsRunValue(p);
    }
  }

  /** The printed form of an integer has no surrounding whitespace and splits into its sign
      and the digits of its magnitude. */
  lemma IntStrShape(n: int)
    ensures Strip(IntStr(n)) == IntStr(n)
    ensures SplitSign(IntStr(n)) == (n < 0, NatStr(if n < 0 then -n else n))
  {
    var m: nat := if n < 0 then -n else n;
    var digits := NatStr(m);
    var s := IntStr(n);
    assert !IsSpace(s[0]);
    assert s[|s| - 1] == digits[|digits| - 1];
    StripNoEdgeSpace(s);
    if n < 0 {
      assert ("-" + digits)[1..] == digits;
    }
  }

  lemma {:induction false} NoExpInDigits(d: string)
    requires AllDigits(d)
    ensures ExpAt(d) == |d|
  {
    if d != [] {
      assert AllDigits(d[1..]) by {
        forall i | 0 <= i < |d[1..]| ensures IsDigit(d[1..][i]) { assert d[1..][i] == d[i + 1]; }
      }
      NoExpInDigits(d[1..]);
    }
  }

  lemma {:induction false} NoDotInDigits(d: string)
    requires AllDigits(d)
    ensures DotAt(d) == |d|
  {
    if d != [] {
      assert AllDigits(d[1..]) by {
        forall i | 0 <= i < |d[1..]| ensures IsDigit(d[1..][i]) { assert d[1..][i] == d[i + 1]; }
      }
      NoDotInDigits(d[1..]);
    }
  }

  /** `int(x)` of a float truncates toward zero. */
  function TruncToZero(r: real): (n: int)
    ensures r >= 0.0 ==> 0.0 <= n as real <= r < n as real + 1.0
    ensures r < 0.0 ==> n as real - 1.0 < r <= n as real <= 0.0
  {
    if r >= 0.0 then r.Floor else -((-r).Floor)
  }

  /** The number 32 hexadecimal digits denote (`int(u)` of a UUID). */
  function HexValue(s: string): nat
    requires forall i :: 0 <= i < |s| ==> IsHex(s[i])
  {
    if s == [] then 0 else HexValue(s[..|s| - 1]) * 16 + HexDigit(s[|s| - 1])
  }

  function HexDigit(c: char): nat
    requires IsHex(c)
  {
    if '0' <= c <= '9' then c as int - '0' as int
    else if 'a' <= c <= 'f' then c as int - 'a' as int + 10
    else c as int - 'A' as int + 10
  }

  /** `float(v)`. */
  function ToFloat(v: Value): Result<real> {
    match v
    case VBool(b) => Ok(if b then 1.0 else 0.0)
    case VInt(i) => Ok(i as real)
    case VFloat(r) => Ok(r)
    case VStr(s) => (match ParseFloat(s) case Some(r) => Ok(r) case None => Raise(ValueError))
    case _ => Raise(TypeError)
  }

  /** `int(v)`. */
  function ToInt(v: Value): Result<int> {
    match v
    case VBool(b) => Ok(if b then 1 else 0)
    case VInt(i) => Ok(i)
    case VFloat(r) => Ok(TruncToZero(r))
    case VStr(s) => (match ParseInt(s) case Some(n) => Ok(n) case None => Raise(ValueError))
    case VUuid(u) =>
      if forall i :: 0 <= i < |u.hex| ==> IsHex(u.hex[i]) then Ok(HexValue(u.hex)) else Raise(ValueError)
    case _ => Raise(TypeError)
  }

  /** The casts raise ValueError exactly on strings they cannot read, TypeError on values
      that are not numbers, booleans or strings, and otherwise agree with each other on
      whole numbers. */
  lemma CastErrors(v: Value)
    ensures ToFloat(v) == Raise(ValueError) <==> v.VStr? && ParseFloat(v.s).None?
    ensures ToFloat(v) == Raise(TypeError) <==> v.VNone? || v.VList? || v.VUuid?
    ensures ToInt(v) == Raise(TypeError) <==> v.VNone? || v.VList?
    ensures v.VInt? ==> ToFloat(v) == Ok(v.i as real) && ToInt(v) == Ok(v.i)
  {
  }

  // ---------------------------------------------------------------------------
  // str(v)
  // ---------------------------------------------------------------------------

  /** Up to `places` decimal digits of a fraction 0 <= f < 1, trailing zeros dropped. */
  function FracDigits(f: real, places: nat): string
    requires 0.0 <= f < 1.0
    decreases places
  {
    if places == 0 || f == 0.0 then ""
    else
      var d := (f * 10.0).Floor;
      var rest := f * 10.0 - d as real;
      [('0' as int + d) as char] + FracDigits(rest, places - 1)
  }

  /** `str(x)` of a float: an integral value prints with ".0"; other values print with up to
      17 decimal places. */
  function FloatStr(r: real): string {
    if r < 0.0 then "-" + NonNegFloatStr(-r) else NonNegFloatStr(r)
  }

  function NonNegFloatStr(r: real): string
    requires r >= 0.0
  {
    var w := r.Floor;
    if w as real == r then NatStr(w) + ".0" else NatStr(w) + "." + FracDigits(r - w as real, 17)
  }

  /** The printed form of a UUID: 8-4-4-4-12 hexadecimal digits separated by hyphens. */
  function UuidStr(u: Uuid): string
    requires |u.hex| == 32
  {
    var h := u.hex;
    h[..8] + "-" + h[8..12] + "-" + h[12..16] + "-" + h[16..20] + "-" + h[20..]
  }

  /** `str(v)`. */
  function PyStr(v: Value): string
    decreases v, 1
  {
    match v
    case VNone => "None"
    case VBool(b) => if b then "True" else "False"
    case VInt(i) => IntStr(i)
    case VFloat(r) => FloatStr(r)
    case VStr(s) => s
    case VList(items) =>
      "[" + Join(seq(|items|, k requires 0 <= k < |items| => PyRepr(items[k])), ", ") + "]"
    case VUuid(u) => if |u.hex| == 32 then UuidStr(u) else u.hex
  }

  /** `repr(v)`: strings are quoted (escaping is not modelled), everything else prints as str. */
  function PyRepr(v: Value): string
    decreases v, 2
  {
    if v.VStr? then "'" + v.s + "'" else PyStr(v)
  }

  // ---------------------------------------------------------------------------
  // uuid.UUID(s)
  // ---------------------------------------------------------------------------

  function Lower(c: char): char {
    if 'A' <= c <= 'F' then (c as int - 'A' as int + 'a' as int) as char else c
  }

  function LowerAll(s: string): (r: string)
    ensures |r| == |s|
    ensures forall i :: 0 <= i < |s| ==> r[i] == Lower(s[i])
  {
    if s == [] then [] else [Lower(s[0])] + LowerAll(s[1..])
  }

  /** `uuid.UUID(s)`: braces at either end are stripped and hyphens removed; what remains
      must be 32 hexadecimal digits in either case. None where Python raises ValueError. */
  function ParseUuid(s: string): (r: Option<Uuid>)
    ensures r.Some? ==> ValidUuid(r.value)
  {
    var h := RemoveChar(StripChars(s, {'{', '}'}), '-');
    if |h| == 32 && (forall i :: 0 <= i < 32 ==> IsHex(h[i])) then Some(Uuid(LowerAll(h))) else None
  }

  /** The printed form of a UUID reads back as the same UUID, and so do its upper-case and
      braced spellings. */
  lemma UuidRoundTrip(u: Uuid)
    requires ValidUuid(u)
    ensures ParseUuid(UuidStr(u)) == Some(u)
    ensures ParseUuid("{" + UuidStr(u) + "}") == Some(u)
  {
    var s := UuidStr(u);
    HyphensRemoved(u);
    assert IsLowerHex(s[0]) && IsLowerHex(s[|s| - 1]);
    BracesStripped(s);
    ParseOfDigits(s, u);
    ParseOfDigits("{" + s + "}", u);
  }

  /** A string whose digits, once braces and hyphens are gone, are a valid UUID's reads back
      as that UUID. */
  lemma ParseOfDigits(s: string, u: Uuid)
    requires ValidUuid(u) && RemoveChar(StripChars(s, {'{', '}'}), '-') == u.hex
    ensures ParseUuid(s) == Some(u)
  {
    assert forall i :: 0 <= i < 32 ==> IsHex(u.hex[i]);
    assert LowerAll(u.hex) == u.hex;
  }

  lemma BracesStripped(s: string)
    requires s != [] && s[0] != '{' && s[0] != '}' && s[|s| - 1] != '{' && s[|s| - 1] != '}'
    ensures StripChars(s, {'{', '}'}) == s
    ensures StripChars("{" + s + "}", {'{', '}'}) == s
  {
    var b := "{" + s + "}";
    assert b[1..] == s + "}";
    assert LStripChars(b, {'{', '}'}) == s + "}";
    assert (s + "}")[..|s|] == s;
  }

  lemma HyphensRemoved(u: Uuid)
    requires ValidUuid(u)
    ensures RemoveChar(UuidStr(u), '-') == u.hex
    ensures UuidStr(u)[0] == u.hex[0] && UuidStr(u)[|UuidStr(u)| - 1] == u.hex[31]
  {
    var h := u.hex;
    var g1, g2, g3, g4, g5 := h[..8], h[8..12], h[12..16], h[16..20], h[20..];
    GroupsHyphenFree(h);
    DashJoinGroups(g1, g2, g3, g4, g5);
    assert UuidStr(u) == g1 + "-" + g2 + "-" + g3 + "-" + g4 + "-" + g5;
    assert g1 + g2 + g3 + g4 + g5 == h;
  }

  /** Five hyphen-free groups joined by hyphens lose exactly the hyphens. */
  lemma DashJoinGroups(g1: string, g2: string, g3: string, g4: string, g5: string)
    requires NoChar(g1, '-') && NoChar(g2, '-') && NoChar(g3, '-') && NoChar(g4, '-') && NoChar(g5, '-')
    ensures RemoveChar(g1 + "-" + g2 + "-" + g3 + "-" + g4 + "-" + g5, '-') == g1 + g2 + g3 + g4 + g5
  {
    var x2 := g1 + "-" + g2;
    var x3 := x2 + "-" + g3;
    var x4 := x3 + "-" + g4;
    RemoveCharNone(g1, '-');
    DashJoin(g1, g2);
    DashJoin(x2, g3);
    DashJoin(x3, g4);
    DashJoin(x4, g5);
  }

  /** The five groups of 32 hexadecimal digits hold no hyphen. */
  lemma GroupsHyphenFree(h: string)
    requires |h| == 32 && forall i :: 0 <= i < 32 ==> IsLowerHex(h[i])
    ensures NoChar(h[..8], '-') && NoChar(h[8..12], '-') && NoChar(h[12..16], '-')
    ensures NoChar(h[16..20], '-') && NoChar(h[20..], '-')
  {
    assert NoChar(h, '-');
  }

  /** Removing the hyphen before a hyphen-free group keeps the group. */
  lemma DashJoin(a: string, b: string)
    requires NoChar(b, '-')
    ensures RemoveChar(a + "-" + b, '-') == RemoveChar(a, '-') + b
  {
    var ad := a + "-";
    RemoveCharAppend(ad, b, '-');
    RemoveCharAppend(a, "-", '-');
    RemoveCharNone(b, '-');
    assert RemoveChar("-", '-') == [] by {
      assert "-"[0] == '-' && "-"[1..] == [];
    }
    assert RemoveChar(ad, '-') == RemoveChar(a, '-');
  }

  /** A string with no 32 hexadecimal digits in it is not a cookie. */
  lemma ParseUuidRejectsShort(s: string)
    requires |s| < 32
    ensures ParseUuid(s) == None
  {
    assert |RemoveChar(StripChars(s, {'{', '}'}), '-')| <= |s| by {
      RemoveCharShorter(StripChars(s, {'{', '}'}), '-');
    }
  }

  lemma {:induction false} RemoveCharShorter(s: string, c: char)
    ensures |RemoveChar(s, c)| <= |s|
  {
    if s != [] { RemoveCharShorter(s[1..], c); }
  }
}
