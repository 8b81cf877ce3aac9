/** The pieces of Go's `strings`, `strconv` and UTF-8 string semantics the
    model relies on. A Go string is a sequence of bytes; the model keeps Go
    strings as Dafny strings and obtains their bytes through `Encode`, the
    UTF-8 encoding Go uses for string literals and conversions. */
module GoStrings {
  import opened Outcomes

  type Byte = b: int | 0 <= b < 256

  const INT64_MIN: int := -0x8000_0000_0000_0000
  const INT64_MAX: int := 0x7FFF_FFFF_FFFF_FFFF
  const UINT64_MAX: int := 0xFFFF_FFFF_FFFF_FFFF

  // ---------------------------------------------------------------- UTF-8

  /** The UTF-8 encoding of one Unicode scalar value. */
  function EncodeChar(c: char): (r: seq<Byte>)
    ensures 1 <= |r| <= 4
    ensures (|r| == 1) <==> (c as int < 0x80)
    ensures |r| == 1 ==> r[0] == c as int
    ensures |r| > 1 ==> forall i :: 0 <= i < |r| ==> r[i] >= 0x80
  {
    var n := c as int;
    if n < 0x80 then [n]
    else if n < 0x800 then [0xC0 + n / 64, 0x80 + n % 64]
    else if n < 0x1_0000 then [0xE0 + n / 4096, 0x80 + (n / 64) % 64, 0x80 + n % 64]
    else [0xF0 + n / 0x4_0000, 0x80 + (n / 4096) % 64, 0x80 + (n / 64) % 64, 0x80 + n % 64]
  }

  /** The bytes of a Go string (`[]byte(s)`). */
  function Encode(s: string): seq<Byte>
  {
    if s == [] then [] else EncodeChar(s[0]) + Encode(s[1..])
  }

  /** Go's `len(s)`: the number of bytes, not of characters. */
  function ByteLen(s: string): nat
  {
    |Encode(s)|
  }

  predicate IsAscii(s: string)
  {
    forall i :: 0 <= i < |s| ==> s[i] as int < 0x80
  }

  predicate AsciiBytes(b: seq<Byte>)
  {
    forall i :: 0 <= i < |b| ==> b[i] < 0x80
  }

  /** An ASCII string is its own byte sequence, one byte per character. */
  lemma {:induction false} EncodeAscii(s: string)
    requires IsAscii(s)
    ensures |Encode(s)| == |s| && ByteLen(s) == |s|
    ensures forall i :: 0 <= i < |s| ==> Encode(s)[i] == s[i] as int
  {
    if s != [] {
      EncodeAscii(s[1..]);
    }
  }

  /** A character never encodes to fewer bytes than one, so `len` of a Go
      string is at least its number of characters. */
  lemma {:induction false} ByteLenAtLeastChars(s: string)
    ensures ByteLen(s) >= |s|
  {
    if s != [] {
      ByteLenAtLeastChars(s[1..]);
    }
  }

  /** The string whose characters are the given ASCII bytes. */
  function AsciiString(b: seq<Byte>): (s: string)
    requires AsciiBytes(b)
    ensures |s| == |b| && IsAscii(s)
    ensures forall i :: 0 <= i < |b| ==> s[i] as int == b[i]
  {
    seq(|b|, i requires 0 <= i < |b| => b[i] as char)
  }

  /** A lower-case hexadecimal digit, as `strconv.AppendInt(_, _, 16)` writes it. */
  function HexDigit(d: int): (c: char)
    requires 0 <= d < 16
    ensures c as int < 0x80
  {
    "0123456789abcdef"[d]
  }

  // ---------------------------------------------------------------- strings

  /** `strings.Index(s, string(c))` for a single character: -1 when absent. */
  function IndexOf(s: string, c: char): (r: int)
    ensures -1 <= r < |s|
    ensures r == -1 <==> c !in s
    ensures r >= 0 ==> s[r] == c && c !in s[..r]
  {
    if s == [] then -1
    else if s[0] == c then 0
    else var k := IndexOf(s[1..], c); if k == -1 then -1 else k + 1
  }

  /** The index of the last occurrence of `c`, or -1. */
  function LastIndexOf(s: string, c: char): (r: int)
    ensures -1 <= r < |s|
    ensures r == -1 <==> c !in s
    ensures r >= 0 ==> s[r] == c && c !in s[r + 1..]
  {
    if s == [] then -1
    else if s[|s| - 1] == c then |s| - 1
    else
      var init := s[..|s| - 1];
      var k := LastIndexOf(init, c);
      assert s == init + [s[|s| - 1]];
      assert k >= 0 ==> s[k + 1..] == init[k + 1..] + [s[|s| - 1]];
      k
  }

  /** `strings.Split(s, ":")[0]`: the text before the first separator, or all of it. */
  function BeforeFirst(s: string, sep: char): (r: string)
    ensures sep !in r
    ensures sep in s ==> |r| < |s| && s[|r|] == sep && s[..|r|] == r
    ensures sep !in s ==> r == s
  {
    var i := IndexOf(s, sep);
    if i == -1 then s else s[..i]
  }

  function HasSuffix(s: string, suffix: string): bool
  {
    |suffix| <= |s| && s[|s| - |suffix|..] == suffix
  }

  /** `strings.Join(elems, sep)`. */
  function Join(elems: seq<string>, sep: string): string
  {
    if elems == [] then ""
    else if |elems| == 1 then elems[0]
    else elems[0] + sep + Join(elems[1..], sep)
  }

  // ---------------------------------------------------------------- strconv

  predicate IsDigit(c: char)
  {
    '0' <= c <= '9'
  }

  predicate IsUpper(c: char)
  {
    'A' <= c <= 'Z'
  }

  predicate IsAsciiLetter(c: char)
  {
    'a' <= c <= 'z' || IsUpper(c)
  }

  predicate AllDigits(s: string)
  {
    forall i :: 0 <= i < |s| ==> IsDigit(s[i])
  }

  /** The value of a non-empty run of decimal digits. */
  function DigitsValue(s: string): nat
    requires AllDigits(s)
  {
    if s == [] then 0
    else DigitsValue(s[..|s| - 1]) * 10 + (s[|s| - 1] as int - '0' as int)
  }

  /** The decimal text of a natural number, without leading zeros. */
  function NatToString(n: nat): string
  {
    if n < 10 then ["0123456789"[n]]
    else NatToString(n / 10) + ["0123456789"[n % 10]]
  }

  /** `strconv.Itoa`. */
  function Itoa(n: int): string
  {
    if n < 0 then "-" + NatToString(-n) else NatToString(n)
  }

  /** `strconv.Quote`, for the plain printable text the model's messages carry;
      the escaping of quotes, backslashes and control characters is not modelled. */
  function Quote(s: string): string
  {
    "\"" + s + "\""
  }

  function SyntaxError(fn: string, s: string): string
  {
    "strconv." + fn + ": parsing " + Quote(s) + ": invalid syntax"
  }

  function RangeError(fn: string, s: string): string
  {
    "strconv." + fn + ": parsing " + Quote(s) + ": value out of range"
  }

  /** The longest run of decimal digits that `s` starts with. */
  function LeadingDigits(s: string): (p: string)
    ensures AllDigits(p) && |p| <= |s| && p == s[..|p|]
    ensures |p| < |s| ==> !IsDigit(s[|p|])
  {
    if s == [] || !IsDigit(s[0]) then []
    else [s[0]] + LeadingDigits(s[1..])
  }

  /** `strconv.Atoi` on a 64-bit platform: an optional sign, then one or more
      decimal digits, whose value must fit in an `int64`. Text of 19 bytes or
      more goes through `ParseUint`, which reads digits left to right and
      reports "value out of range" as soon as the value read passes
      2^64 - 1, before it reaches a later non-digit; shorter text cannot
      pass that bound. */
  function Atoi(s: string): Result<int>
  {
    var signed := |s| > 0 && (s[0] == '-' || s[0] == '+');
    var digits := if signed then s[1..] else s;
    if digits == [] then Err(SyntaxError("Atoi", s))
    else if DigitsValue(LeadingDigits(digits)) > UINT64_MAX then Err(RangeError("Atoi", s))
    else if !AllDigits(digits) then Err(SyntaxError("Atoi", s))
    else
      var v: int := if signed && s[0] == '-' then 0 - (DigitsValue(digits) as int) else DigitsValue(digits) as int;
      if v < INT64_MIN || INT64_MAX < v then Err(RangeError("Atoi", s)) else Ok(v)
  }

  /** `strconv.ParseBool`: the six spellings of each truth value. */
  function ParseBool(s: string): Result<bool>
  {
    if s in {"1", "t", "T", "TRUE", "true", "True"} then Ok(true)
    else if s in {"0", "f", "F", "FALSE", "false", "False"} then Ok(false)
    else Err(SyntaxError("ParseBool", s))
  }

  /** The decimal digit character of a value below ten. */
  lemma DigitChar(d: int)
    requires 0 <= d < 10
    ensures IsDigit("0123456789"[d]) && "0123456789"[d] as int - '0' as int == d
  {
  }

  lemma {:induction false} NatToStringDigits(n: nat)
    ensures |NatToString(n)| > 0 && AllDigits(NatToString(n))
    ensures DigitsValue(NatToString(n)) == n
  {
    if n < 10 {
      DigitChar(n);
    } else {
      NatToStringDigits(n / 10);
      DigitChar(n % 10);
      var p := NatToString(n / 10);
      var s := NatToString(n);
      assert s == p + ["0123456789"[n % 10]];
      assert s[..|s| - 1] == p;
      assert DigitsValue(s) == DigitsValue(p) * 10 + n % 10;
    }
  }

  /** A run of digits is its own leading run. */
  lemma AllLeading(s: string)
    requires AllDigits(s)
    ensures LeadingDigits(s) == s
  {
  }

  /** The text of a natural number is read back without a sign. */
  lemma AtoiUnsigned(m: nat)
    requires m <= INT64_MAX
    ensures Atoi(NatToString(m)) == Ok(m)
  {
    NatToStringDigits(m);
    var s := NatToString(m);
    assert IsDigit(s[0]);
    AllLeading(s);
  }

  /** A minus sign before that text negates it. */
  lemma AtoiNegative(m: nat)
    requires m <= -INT64_MIN
    ensures Atoi("-" + NatToString(m)) == Ok(-(m as int))
  {
    NatToStringDigits(m);
    var s := "-" + NatToString(m);
    assert s[0] == '-' && s[1..] == NatToString(m);
    AllLeading(NatToString(m));
  }

  /** `Atoi` inverts `Itoa` on every `int64`. */
  lemma AtoiItoa(n: int)
    requires INT64_MIN <= n <= INT64_MAX
    ensures Atoi(Itoa(n)) == Ok(n)
  {
    if n < 0 {
      AtoiNegative(-n);
    } else {
      AtoiUnsigned(n);
    }
  }

  /** An empty string, a sign alone, and a sign or nothing followed by text
      holding a non-digit are syntax errors, unless the digits before the
      first non-digit already pass 2^64 - 1. */
  lemma AtoiSyntaxError(sign: string, body: string)
    requires sign == "" || sign == "-" || sign == "+"
    requires body == [] || !AllDigits(body)
    requires sign == "" && body != [] ==> body[0] != '-' && body[0] != '+'
    requires DigitsValue(LeadingDigits(body)) <= UINT64_MAX
    ensures Atoi(sign + body) == Err(SyntaxError("Atoi", sign + body))
  {
    var s := sign + body;
    if sign != "" {
      assert s[0] == sign[0] && s[1..] == body;
    } else {
      assert s == body;
    }
  }

  /** A prefix of a run of digits has no greater value than the run. */
  lemma {:induction false} DigitsValuePrefix(s: string, k: int)
    requires AllDigits(s) && 0 <= k <= |s|
    ensures DigitsValue(s[..k]) <= DigitsValue(s)
  {
    if k < |s| {
      var init := s[..|s| - 1];
      assert init[..k] == s[..k];
      assert AllDigits(init) && DigitsValue(s) == DigitsValue(init) * 10 + (s[|s| - 1] as int - '0' as int);
      DigitsValuePrefix(init, k);
    } else {
      assert s[..k] == s;
    }
  }

  /** Digits whose value passes 2^64 - 1 are out of range, whatever follows
      them: the range error is reported before a later non-digit is read. */
  lemma AtoiDigitOverflow(sign: string, digits: string, rest: string)
    requires sign == "" || sign == "-" || sign == "+"
    requires AllDigits(digits) && DigitsValue(digits) > UINT64_MAX
    ensures Atoi(sign + digits + rest) == Err(RangeError("Atoi", sign + digits + rest))
  {
    var s := sign + digits + rest;
    var body := digits + rest;
    assert digits != [] && IsDigit(digits[0]);
    if sign != "" {
      assert s[0] == sign[0] && s[1..] == body;
    } else {
      assert s == body;
    }
    var p := LeadingDigits(body);
    assert |p| >= |digits|;
    assert p[..|digits|] == digits;
    DigitsValuePrefix(p, |digits|);
  }

  /** Decimal text beyond `INT64_MAX` is out of range. */
  lemma AtoiUnsignedOverflow(m: nat)
    requires m > INT64_MAX
    ensures Atoi(NatToString(m)) == Err(RangeError("Atoi", NatToString(m)))
  {
    NatToStringDigits(m);
    var s := NatToString(m);
    assert IsDigit(s[0]);
    AllLeading(s);
  }

  /** Negated decimal text below `INT64_MIN` is out of range. */
  lemma AtoiNegativeOverflow(m: nat)
    requires m > -INT64_MIN
    ensures Atoi("-" + NatToString(m)) == Err(RangeError("Atoi", "-" + NatToString(m)))
  {
    NatToStringDigits(m);
    var s := "-" + NatToString(m);
    assert s[0] == '-' && s[1..] == NatToString(m);
    AllLeading(NatToString(m));
  }

  /** The decimal text of a number beyond 2^64 - 1, followed by a letter, is
      out of range rather than a syntax error. */
  lemma AtoiOverflowBeforeJunk(m: nat)
    requires m > UINT64_MAX
    ensures Atoi(NatToString(m) + "x") == Err(RangeError("Atoi", NatToString(m) + "x"))
  {
    NatToStringDigits(m);
    AtoiDigitOverflow("", NatToString(m), "x");
    assert "" + NatToString(m) + "x" == NatToString(m) + "x";
  }
}
