/** The few JavaScript string built-ins the backend and the client rely on:
    `String.prototype.trim`, `toLowerCase`, a case-insensitive `RegExp` over a
    plain word, the global `parseInt` and the decimal rendering of a
    non-negative integer in a template literal. */
module JsText {
  import opened Common

  // ---------------------------------------------------------------------------
  // Whitespace and trim()

  /** The WhiteSpace and LineTerminator code points of ECMAScript, which
      `trim()` removes and `parseInt` skips. */
  predicate IsJsSpace(c: char)
  {
    || c == ' ' || c == '\t' || c == '\n' || c == '\r'
    || c == '\U{B}' || c == '\U{C}' || c == '\U{A0}' || c == '\U{FEFF}'
    || c == '\U{1680}' || ('\U{2000}' <= c <= '\U{200A}')
    || c == '\U{2028}' || c == '\U{2029}' || c == '\U{202F}' || c == '\U{205F}'
    || c == '\U{3000}'
  }

  /** Empty, or made of whitespace only. */
  predicate IsBlank(s: string)
  {
    forall i :: 0 <= i < |s| ==> IsJsSpace(s[i])
  }

  /** `s` with its leading whitespace removed: a suffix of `s`. */
  function TrimStart(s: string): (r: string)
    ensures |r| <= |s| && r == s[|s| - |r|..]
    ensures r == [] || !IsJsSpace(r[0])
    ensures r == [] <==> IsBlank(s)
  {
    if s == [] || !IsJsSpace(s[0]) then s else TrimStart(s[1..])
  }

  /** `s` with its trailing whitespace removed: a prefix of `s`. */
  function TrimEnd(s: string): (r: string)
    ensures |r| <= |s| && r == s[..|r|]
    ensures r == [] || !IsJsSpace(r[|r| - 1])
    ensures r == [] <==> IsBlank(s)
  {
    if s == [] || !IsJsSpace(s[|s| - 1]) then s else TrimEnd(s[..|s| - 1])
  }

  /** `s.trim()`: empty exactly when `s` is blank; otherwise it neither starts
      nor ends with whitespace. */
  function Trim(s: string): (r: string)
    ensures |r| <= |s|
    ensures r == "" <==> IsBlank(s)
    ensures r != "" ==> !IsJsSpace(r[0]) && !IsJsSpace(r[|r| - 1])
  {
    TrimEnd(TrimStart(s))
  }

  /** Leading whitespace stops at the first other character. */
  lemma {:induction false} TrimStartKeeps(s: string, i: nat)
    requires i < |s| && !IsJsSpace(s[i])
    ensures |TrimStart(s)| >= |s| - i
  {
    if i > 0 && IsJsSpace(s[0]) {
      TrimStartKeeps(s[1..], i - 1);
    }
  }

  /** Trailing whitespace stops at the last other character. */
  lemma {:induction false} TrimEndKeeps(s: string, j: nat)
    requires j < |s| && !IsJsSpace(s[j])
    ensures |TrimEnd(s)| >= j + 1
  {
    if j < |s| - 1 && IsJsSpace(s[|s| - 1]) {
      TrimEndKeeps(s[..|s| - 1], j);
    }
  }

  /** `trim()` keeps everything from the first non-space character `s[i]`
      to the last one `s[j]`. */
  lemma TrimKeepsSpan(s: string, i: nat, j: nat)
    requires i <= j < |s| && !IsJsSpace(s[i]) && !IsJsSpace(s[j])
    ensures |Trim(s)| >= j - i + 1
  {
    TrimStartKeeps(s, i);
    var t := TrimStart(s);
    var k := |s| - |t|;
    assert k <= i && t == s[k..];
    assert t[j - k] == s[j];
    TrimEndKeeps(t, j - k);
    assert Trim(s) == TrimEnd(t);
  }

  // ---------------------------------------------------------------------------
  // toLowerCase() and case-insensitive search

  function LowerChar(c: char): char
  {
    if 'A' <= c <= 'Z' then (c as int - 'A' as int + 'a' as int) as char else c
  }

  /** `s.toLowerCase()` on the Latin letters. */
  function ToLower(s: string): (r: string)
    ensures |r| == |s|
    ensures forall i :: 0 <= i < |s| ==> r[i] == LowerChar(s[i])
  {
    seq(|s|, i requires 0 <= i < |s| => LowerChar(s[i]))
  }

  /** Lower-casing twice is lower-casing once. */
  lemma ToLowerIdempotent(s: string)
    ensures ToLower(ToLower(s)) == ToLower(s)
  {
  }

  function UpperChar(c: char): char
  {
    if 'a' <= c <= 'z' then (c as int - 'a' as int + 'A' as int) as char else c
  }

  /** `s.toUpperCase()` on the Latin letters. */
  function ToUpper(s: string): (r: string)
    ensures |r| == |s|
    ensures forall i :: 0 <= i < |s| ==> r[i] == UpperChar(s[i])
  {
    seq(|s|, i requires 0 <= i < |s| => UpperChar(s[i]))
  }

  /** `s.charAt(0).toUpperCase() + s.slice(1)`. */
  function Capitalize(s: string): (r: string)
    ensures |r| == |s| && (s != [] ==> r[0] == UpperChar(s[0]) && r[1..] == s[1..])
  {
    if s == [] then [] else [UpperChar(s[0])] + s[1..]
  }

  /** `needle` occurs somewhere in `haystack`. */
  predicate HasInfix(haystack: string, needle: string)
    decreases |haystack|
  {
    needle <= haystack || (haystack != [] && HasInfix(haystack[1..], needle))
  }

  /** `new RegExp(needle, 'i').test(haystack)` for a needle without
      regular-expression metacharacters. */
  predicate MatchesIgnoreCase(haystack: string, needle: string)
  {
    HasInfix(ToLower(haystack), ToLower(needle))
  }

  // ---------------------------------------------------------------------------
  // parseInt(s)

  predicate IsDecimalDigit(c: char) { '0' <= c <= '9' }

  predicate IsHexDigit(c: char) { '0' <= c <= '9' || 'a' <= c <= 'f' || 'A' <= c <= 'F' }

  function HexDigitValue(c: char): (v: nat)
    requires IsHexDigit(c)
    ensures v < 16
  {
    if '0' <= c <= '9' then c as int - '0' as int
    else if 'a' <= c <= 'f' then c as int - 'a' as int + 10
    else c as int - 'A' as int + 10
  }

  /** Every character of `s` is a digit of base 16 (`hex`) or base 10. */
  predicate IsDigits(s: string, hex: bool)
  {
    forall i :: 0 <= i < |s| ==> if hex then IsHexDigit(s[i]) else IsDecimalDigit(s[i])
  }

  /** The longest prefix of `s` whose characters satisfy the digit class. */
  function DigitPrefix(s: string, hex: bool): (r: string)
    ensures r <= s
    ensures IsDigits(r, hex)
    ensures |r| < |s| ==> !(if hex then IsHexDigit(s[|r|]) else IsDecimalDigit(s[|r|]))
  {
    if s == [] || !(if hex then IsHexDigit(s[0]) else IsDecimalDigit(s[0])) then []
    else [s[0]] + DigitPrefix(s[1..], hex)
  }

  /** The value of a digit string in base 10 or 16, most significant digit first. */
  function DigitsValue(d: string, hex: bool): nat
    requires IsDigits(d, hex)
  {
    if d == [] then 0
    else DigitsValue(d[..|d| - 1], hex) * (if hex then 16 else 10) + HexDigitValue(d[|d| - 1])
  }

  /** The longest run of digits at the start of `s`, read in base 16 or 10;
      `None` when there is none. */
  function ReadRun(s: string, hex: bool): Option<nat>
  {
    var d := DigitPrefix(s, hex);
    if d == [] then None else Some(DigitsValue(d, hex))
  }

  /** The unsigned part: a `0x`/`0X` prefix selects base 16. */
  function ParseMagnitude(u: string): Option<nat>
  {
    if |u| >= 2 && u[0] == '0' && (u[1] == 'x' || u[1] == 'X') then ReadRun(u[2..], true)
    else ReadRun(u, false)
  }

  /** The global `parseInt(s)` with its radix left out: leading whitespace and
      one sign are skipped, a `0x`/`0X` prefix selects base 16, and the longest
      run of digits that follows is read; `None` stands for `NaN`, the result
      when that run is empty. */
  function ParseInt(s: string): Option<int>
  {
    var t := TrimStart(s);
    if |t| > 0 && t[0] == '-' then
      match ParseMagnitude(t[1..])
      case None => None
      case Some(m) => var v: int := m; Some(-v)
    else if |t| > 0 && t[0] == '+' then
      match ParseMagnitude(t[1..])
      case None => None
      case Some(m) => Some(m)
    else
      match ParseMagnitude(t)
      case None => None
      case Some(m) => Some(m)
  }

  // ---------------------------------------------------------------------------
  // Decimal rendering of a non-negative integer

  function DecimalDigit(d: nat): (c: char)
    requires d < 10
    ensures IsDecimalDigit(c) && HexDigitValue(c) == d
  {
    ('0' as int + d) as char
  }

  /** `${n}` for a non-negative integer `n`: its decimal digits, without
      leading zeros. */
  function NatToString(n: nat): (r: string)
    ensures |r| >= 1
    ensures IsDigits(r, false)
    ensures |r| > 1 ==> r[0] != '0'
  {
    if n < 10 then [DecimalDigit(n)] else NatToString(n / 10) + [DecimalDigit(n % 10)]
  }

  lemma {:induction false} DigitsValueOfNatToString(n: nat)
    ensures DigitsValue(NatToString(n), false) == n
  {
    if n >= 10 {
      var prefix := NatToString(n / 10);
      var s := prefix + [DecimalDigit(n % 10)];
      assert s[..|s| - 1] == prefix;
      DigitsValueOfNatToString(n / 10);
    }
  }

  lemma {:induction false} DigitPrefixOfDigits(s: string)
    requires IsDigits(s, false)
    ensures DigitPrefix(s, false) == s
  {
    if s != [] {
      DigitPrefixOfDigits(s[1..]);
    }
  }

  /** A digit string without a hexadecimal prefix reads as its decimal value. */
  lemma ParseIntOfDigits(s: string)
    requires s != [] && IsDigits(s, false)
    ensures ParseInt(s) == Some(DigitsValue(s, false))
  {
    assert IsDecimalDigit(s[0]);
    MagnitudeOfDigits(s);
    UnsignedParse(s);
  }

  /** Text that starts with neither whitespace nor a sign is read as an
      unsigned magnitude. */
  lemma UnsignedParse(s: string)
    requires s != [] && IsDecimalDigit(s[0])
    ensures ParseInt(s) == match ParseMagnitude(s) case None => None case Some(m) => Some(m)
  {
    assert TrimStart(s) == s;
  }

  lemma MagnitudeOfDigits(s: string)
    requires s != [] && IsDigits(s, false)
    ensures ParseMagnitude(s) == Some(DigitsValue(s, false))
  {
    DigitPrefixOfDigits(s);
  }

  /** Reading back the rendering of `n` gives `n`: `parseInt(`${n}`) === n`. */
  lemma ParseIntOfNatToString(n: nat)
    ensures ParseInt(NatToString(n)) == Some(n)
  {
    var s := NatToString(n);
    ParseIntOfDigits(s);
    DigitsValueOfNatToString(n);
  }
}
