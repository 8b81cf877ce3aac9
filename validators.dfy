/** The `validators` package: each validator checks one parameter of a
    request and contributes to the parameter's OpenAPI schema. The type
    checks here admit an absent parameter and accept whatever the panicking
    getters coerce; the value checks call a getter whose panic they do not
    recover. */
module Validators {
  import opened Outcomes
  import opened GoStrings
  import opened Values
  import opened Requests
  import P = PanickingGetters

  datatype Validator =
    | Required
    | IsString
    | IsInt
    | IsFloat
    | IsBool
    | IsArray
    | IsMap
    | StringLength(minLength: int, maxLength: int)
    | Range(min: real, max: real)
    | IsEmail
    | IsUUID
    | Password(minLength: int, maxLength: int, requireSymbols: bool, requireNumbers: bool, requireUpper: bool)

  /** `Validate`'s outcome: a nil error, an error, or a panic that escapes
      the validator. */
  datatype Verdict = Pass | Fail(error: ValidationError) | Abort(reason: string)

  /** The calls whose behaviour is not modelled: `strconv.ParseFloat(_, 64)`
      and whether `fmt.Sscanf(_, "%x", &struct{}{})` reports no error. */
  datatype Foreign = Foreign(parseFloat: string -> Result<real>, scanHex: string -> bool)

  // ---------------------------------------------------------------- checks

  /** A type check: the getter runs only for a present parameter, and its
      panic is recovered into the type error. */
  function TypeCheck<T>(r: Request, name: string, get: Guarded<T>, typeName: string): Verdict
  {
    if name in r.parameters && get.Aborts? then
      Fail(Message("parameter " + name + " must be of type '" + typeName + "'"))
    else Pass
  }

  predicate HasSymbol(s: string)
  {
    exists i :: 0 <= i < |s| && s[i] in PASSWORD_SYMBOLS
  }

  predicate HasDigit(s: string)
  {
    exists i :: 0 <= i < |s| && IsDigit(s[i])
  }

  predicate HasUpper(s: string)
  {
    exists i :: 0 <= i < |s| && IsUpper(s[i])
  }

  /** The symbol class of the password rules. */
  const PASSWORD_SYMBOLS := "!@#$%^&*()_+{}[]:;<>?,.|\\/~"

  function Validate(v: Validator, r: Request, name: string, env: Foreign): Verdict
  {
    match v
    case Required =>
      if name in r.parameters then Pass else Fail(Message("parameter " + name + " is required"))
    case IsString => TypeCheck(r, name, P.GetString(r, name), "string")
    case IsInt => TypeCheck(r, name, P.GetInt(r, name), "int")
    case IsFloat => TypeCheck(r, name, P.GetFloat(r, name, env.parseFloat), "float")
    case IsBool => TypeCheck(r, name, P.GetBool(r, name), "bool")
    case IsArray => TypeCheck(r, name, P.GetArray(r, name), "array")
    case IsMap => TypeCheck(r, name, P.GetMap(r, name), "map")
    case StringLength(lo, hi) =>
      var e := TypeCheck(r, name, P.GetString(r, name), "string");
      if !e.Pass? then e
      else
        (match P.GetString(r, name)
         case Aborts(why) => Abort(why)
         case Returns(s) =>
           if ByteLen(s) < lo || ByteLen(s) > hi then
             Fail(Message("parameter " + name + " length must be between " + Itoa(lo) + " and " + Itoa(hi) + " characters"))
           else Pass)
    case Range(lo, hi) =>
      var e := TypeCheck(r, name, P.GetFloat(r, name, env.parseFloat), "float");
      if !e.Pass? then e
      else
        (match P.GetFloat(r, name, env.parseFloat)
         case Aborts(why) => Abort(why)
         case Returns(f) => if f < lo || f > hi then Fail(NotBetween(name, lo, hi)) else Pass)
    case IsEmail =>
      (match P.GetString(r, name)
       case Aborts(why) => Abort(why)
       case Returns(s) =>
         if IsEmailAddress(s) then Pass else Fail(Message("parameter " + name + " must be a valid email address")))
    case IsUUID =>
      (match P.GetString(r, name)
       case Aborts(why) => Abort(why)
       case Returns(s) =>
         if !UuidPattern(s) || !env.scanHex(RemoveDashes(s)) then
           Fail(Message("parameter " + name + " must be a valid UUID"))
         else Pass)
    case Password(lo, hi, symbols, numbers, upper) =>
      (match P.GetString(r, name)
       case Aborts(why) => Abort(why)
       case Returns(s) =>
         if ByteLen(s) < lo || ByteLen(s) > hi then
           Fail(Message("parameter " + name + " must have length between " + Itoa(lo) + " and " + Itoa(hi)))
         else if symbols && !HasSymbol(s) then Fail(Message("password must contain at least one symbol"))
         else if numbers && !HasDigit(s) then Fail(Message("password must contain at least one number"))
         else if upper && !HasUpper(s) then Fail(Message("password must contain at least one uppercase letter"))
         else Pass)
  }

  // ---------------------------------------------------------------- email

  predicate EmailLocalChar(c: char)
  {
    IsAsciiLetter(c) || IsDigit(c) || c == '.' || c == '_' || c == '%' || c == '+' || c == '-'
  }

  predicate EmailDomainChar(c: char)
  {
    IsAsciiLetter(c) || IsDigit(c) || c == '.' || c == '-'
  }

  /** `s` splits as local part, '@' at `at`, domain, '.' at `dot`, and a
      top-level part of at least two letters. */
  predicate EmailSplit(s: string, at: int, dot: int)
  {
    && 0 < at && at + 1 < dot && dot + 2 < |s|
    && s[at] == '@' && s[dot] == '.'
    && (forall i :: 0 <= i < at ==> EmailLocalChar(s[i]))
    && (forall i :: at < i < dot ==> EmailDomainChar(s[i]))
    && (forall i :: dot < i < |s| ==> IsAsciiLetter(s[i]))
  }

  /** The language of the address pattern: one or more local characters, '@',
      one or more domain characters, '.', two or more letters, and nothing else. */
  predicate IsEmailAddress(s: string)
  {
    exists at, dot :: 0 < at < |s| && 0 < dot < |s| && EmailSplit(s, at, dot)
  }

  /** An accepted address has exactly one '@', with a local part before it and
      a '.' somewhere after it. */
  lemma AcceptedEmailHasOneAt(s: string)
    requires IsEmailAddress(s)
    ensures exists at :: 0 < at < |s| && s[at] == '@' && '.' in s[at + 1..] &&
               (forall i :: 0 <= i < |s| && s[i] == '@' ==> i == at)
  {
    var at, dot :| 0 < at < |s| && 0 < dot < |s| && EmailSplit(s, at, dot);
    assert s[at + 1..][dot - at - 1] == s[dot] == '.';
    assert forall i :: 0 <= i < |s| && s[i] == '@' ==> i == at;
  }

  lemma EmailExamples()
    ensures IsEmailAddress("user@example.com")
    ensures !IsEmailAddress("user@example.c")
    ensures !IsEmailAddress("user.example.com")
  {
    assert EmailSplit("user@example.com", 4, 12);
  }

  // ---------------------------------------------------------------- UUID

  predicate LowerHex(c: char)
  {
    IsDigit(c) || 'a' <= c <= 'f'
  }

  predicate IsDashPosition(i: int)
  {
    i == 8 || i == 13 || i == 18 || i == 23
  }

  /** The UUID pattern: 8-4-4-4-12 lower-case hexadecimal digits, version
      digit 1 to 5 at index 14, variant digit 8, 9, a or b at index 19. */
  predicate UuidPattern(s: string)
  {
    && |s| == 36
    && (forall i :: 0 <= i < 36 && IsDashPosition(i) ==> s[i] == '-')
    && (forall i :: 0 <= i < 36 && !IsDashPosition(i) ==> LowerHex(s[i]))
    && '1' <= s[14] <= '5'
    && (s[19] == '8' || s[19] == '9' || s[19] == 'a' || s[19] == 'b')
  }

  /** `strings.ReplaceAll(s, "-", "")`. The `strings.ToLower` before it
      changes nothing on a string that passed the pattern, which admits lower
      case only. */
  function RemoveDashes(s: string): (t: string)
    ensures '-' !in t && |t| <= |s|
  {
    if s == [] then []
    else if s[0] == '-' then RemoveDashes(s[1..])
    else [s[0]] + RemoveDashes(s[1..])
  }

  lemma {:induction false} RemoveDashesAppend(a: string, b: string)
    ensures RemoveDashes(a + b) == RemoveDashes(a) + RemoveDashes(b)
  {
    if a == [] {
      assert a + b == b;
    } else {
      assert (a + b)[0] == a[0];
      assert (a + b)[1..] == a[1..] + b;
      RemoveDashesAppend(a[1..], b);
      if a[0] == '-' {
        calc {
          RemoveDashes(a + b);
          RemoveDashes(a[1..] + b);
          RemoveDashes(a[1..]) + RemoveDashes(b);
          RemoveDashes(a) + RemoveDashes(b);
        }
      } else {
        calc {
          RemoveDashes(a + b);
          [a[0]] + RemoveDashes(a[1..] + b);
          [a[0]] + (RemoveDashes(a[1..]) + RemoveDashes(b));
          ([a[0]] + RemoveDashes(a[1..])) + RemoveDashes(b);
          RemoveDashes(a) + RemoveDashes(b);
        }
      }
    }
  }

  lemma {:induction false} RemoveDashesNoDash(a: string)
    requires '-' !in a
    ensures RemoveDashes(a) == a
  {
    if a != [] {
      assert a == [a[0]] + a[1..];
      RemoveDashesNoDash(a[1..]);
    }
  }

  predicate AllLowerHex(t: string)
  {
    forall i :: 0 <= i < |t| ==> LowerHex(t[i])
  }

  /** Removing dashes from a dash-free prefix, a dash and a rest. */
  lemma RemoveDashesSkip(x: string, y: string)
    requires AllLowerHex(x)
    ensures RemoveDashes(x + "-" + y) == x + RemoveDashes(y)
  {
    assert x + "-" + y == x + ("-" + y);
    RemoveDashesAppend(x, "-" + y);
    assert ("-" + y)[0] == '-' && ("-" + y)[1..] == y;
    RemoveDashesNoDash(x);
  }

  /** One group of a UUID: `k` hexadecimal digits, then a dash. */
  lemma RemoveDashesGroup(t: string, k: nat)
    requires k < |t| && t[k] == '-' && AllLowerHex(t[..k])
    ensures RemoveDashes(t) == t[..k] + RemoveDashes(t[k + 1..])
  {
    assert t == t[..k] + "-" + t[k + 1..];
    RemoveDashesSkip(t[..k], t[k + 1..]);
  }

  lemma AllLowerHexAppend(x: string, y: string)
    requires AllLowerHex(x) && AllLowerHex(y)
    ensures AllLowerHex(x + y)
  {
  }

  /** The first `k` characters of `t` are hexadecimal digits, then comes a
      dash: removing the dashes keeps the digits and drops that dash. */
  lemma PeelGroup(t: string, k: nat)
    requires k < |t| && t[k] == '-' && AllLowerHex(t[..k]) && AllLowerHex(RemoveDashes(t[k + 1..]))
    ensures RemoveDashes(t) == t[..k] + RemoveDashes(t[k + 1..])
    ensures AllLowerHex(RemoveDashes(t))
  {
    RemoveDashesGroup(t, k);
    AllLowerHexAppend(t[..k], RemoveDashes(t[k + 1..]));
  }

  /** The last two groups of a UUID-shaped string. */
  lemma LastGroups(s: string)
    requires |s| == 36 && s[23] == '-' && AllLowerHex(s[19..23]) && AllLowerHex(s[24..])
    ensures RemoveDashes(s[19..]) == s[19..23] + s[24..] && AllLowerHex(RemoveDashes(s[19..]))
  {
    var t := s[19..];
    assert t[..4] == s[19..23] && t[5..] == s[24..];
    RemoveDashesNoDash(s[24..]);
    PeelGroup(t, 4);
  }

  lemma MiddleGroups(s: string)
    requires |s| == 36 && s[18] == '-' && s[23] == '-'
    requires AllLowerHex(s[14..18]) && AllLowerHex(s[19..23]) && AllLowerHex(s[24..])
    ensures RemoveDashes(s[14..]) == s[14..18] + (s[19..23] + s[24..]) && AllLowerHex(RemoveDashes(s[14..]))
  {
    var t := s[14..];
    assert t[..4] == s[14..18] && t[5..] == s[19..];
    LastGroups(s);
    PeelGroup(t, 4);
  }

  lemma UpperGroups(s: string)
    requires |s| == 36 && s[13] == '-' && s[18] == '-' && s[23] == '-'
    requires AllLowerHex(s[9..13]) && AllLowerHex(s[14..18]) && AllLowerHex(s[19..23]) && AllLowerHex(s[24..])
    ensures RemoveDashes(s[9..]) == s[9..13] + (s[14..18] + (s[19..23] + s[24..])) && AllLowerHex(RemoveDashes(s[9..]))
  {
    var t := s[9..];
    assert t[..4] == s[9..13] && t[5..] == s[14..];
    MiddleGroups(s);
    PeelGroup(t, 4);
  }

  /** Thirty-six characters in five hexadecimal groups separated by dashes
      at 8, 13, 18 and 23 lose exactly those dashes. */
  lemma DashedGroups(s: string)
    requires |s| == 36 && s[8] == '-' && s[13] == '-' && s[18] == '-' && s[23] == '-'
    requires AllLowerHex(s[..8]) && AllLowerHex(s[9..13]) && AllLowerHex(s[14..18])
    requires AllLowerHex(s[19..23]) && AllLowerHex(s[24..])
    ensures RemoveDashes(s) == s[..8] + s[9..13] + s[14..18] + s[19..23] + s[24..]
    ensures |RemoveDashes(s)| == 32 && AllLowerHex(RemoveDashes(s))
  {
    UpperGroups(s);
    assert s[9..] == s[8 + 1..];
    PeelGroup(s, 8);
    var a, b, c, d, e := s[..8], s[9..13], s[14..18], s[19..23], s[24..];
    assert a + (b + (c + (d + e))) == a + b + c + d + e;
  }

  /** What reaches the hexadecimal scan: the 32 lower-case hexadecimal digits
      of the UUID, in order. */
  lemma UuidHexDigits(s: string)
    requires UuidPattern(s)
    ensures RemoveDashes(s) == s[..8] + s[9..13] + s[14..18] + s[19..23] + s[24..]
    ensures |RemoveDashes(s)| == 32 && AllLowerHex(RemoveDashes(s))
  {
    assert IsDashPosition(8) && IsDashPosition(13) && IsDashPosition(18) && IsDashPosition(23);
    HexGroup(s, 0, 8);
    HexGroup(s, 9, 13);
    HexGroup(s, 14, 18);
    HexGroup(s, 19, 23);
    HexGroup(s, 24, 36);
    assert s[24..36] == s[24..];
    DashedGroups(s);
  }

  /** One of the five dash-free groups of a UUID is all hexadecimal. */
  lemma HexGroup(s: string, a: int, b: int)
    requires UuidPattern(s)
    requires (a, b) in [(0, 8), (9, 13), (14, 18), (19, 23), (24, 36)]
    ensures AllLowerHex(s[a..b])
  {
    forall i | 0 <= i < b - a
      ensures LowerHex(s[a..b][i])
    {
      assert s[a..b][i] == s[a + i];
      assert !IsDashPosition(a + i);
    }
  }

  /** A UUID with an upper-case digit is rejected, whatever the scan says. */
  lemma UuidRejectsUpperCase(s: string, i: int)
    requires 0 <= i < |s| && IsUpper(s[i])
    ensures !UuidPattern(s)
  {
  }

  lemma UuidExample()
    ensures UuidPattern("123e4567-e89b-12d3-a456-426614174000")
    ensures !UuidPattern("123e4567-e89b-62d3-a456-426614174000")
  {
    var s := "123e4567-e89b-12d3-a456-426614174000";
    assert forall i :: 0 <= i < 36 && !IsDashPosition(i) ==> LowerHex(s[i]);
  }

  // ---------------------------------------------------------------- properties

  predicate IsTypeCheck(v: Validator)
  {
    v.IsString? || v.IsInt? || v.IsFloat? || v.IsBool? || v.IsArray? || v.IsMap?
  }

  /** The values a type check lets through, stated on the value itself: the
      native type, or a string the matching parse accepts. */
  predicate Coercible(v: Validator, x: Value, env: Foreign)
  {
    match v
    case IsString => x.Str?
    case IsInt => x.Int? || (x.Str? && Atoi(x.s).Ok?)
    case IsFloat => x.Float? || (x.Str? && env.parseFloat(x.s).Ok?)
    case IsBool => x.Bool? || (x.Str? && ParseBool(x.s).Ok?)
    case IsArray => x.List?
    case IsMap => x.Object?
    case _ => true
  }

  /** `Required` passes iff the name is present, whatever its value. */
  lemma RequiredIffPresent(r: Request, name: string, env: Foreign)
    ensures Validate(Required, r, name, env).Pass? <==> name in r.parameters
    ensures name !in r.parameters ==> Validate(Required, r, name, env) == Fail(Message("parameter " + name + " is required"))
  {
  }

  /** A type check passes an absent parameter: optionality is left to `Required`. */
  lemma TypeCheckAdmitsAbsence(v: Validator, r: Request, name: string, env: Foreign)
    requires IsTypeCheck(v) && name !in r.parameters
    ensures Validate(v, r, name, env) == Pass
  {
  }

  /** A present value passes a type check iff it is coercible, and a type check
      never panics: a failure is always the type error. */
  lemma TypeCheckAccepts(v: Validator, r: Request, name: string, env: Foreign)
    requires IsTypeCheck(v) && name in r.parameters
    ensures Validate(v, r, name, env).Pass? <==> Coercible(v, r.parameters[name], env)
    ensures !Validate(v, r, name, env).Abort?
  {
  }

  /** The decimal text of any `int64` passes `IsInt`. */
  lemma {:induction false} DecimalTextIsInt(r: Request, name: string, n: int, env: Foreign)
    requires name in r.parameters && r.parameters[name] == Str(Itoa(n))
    requires INT64_MIN <= n <= INT64_MAX
    ensures Validate(IsInt, r, name, env) == Pass
  {
    AtoiItoa(n);
  }

  /** `StringLength`: an absent parameter escapes as a panic, a non-string is
      `IsString`'s error, and a string passes iff its byte length lies in
      [Min, Max]. */
  lemma StringLengthOutcomes(lo: int, hi: int, r: Request, name: string, env: Foreign)
    ensures name !in r.parameters ==> Validate(StringLength(lo, hi), r, name, env).Abort?
    ensures name in r.parameters && !r.parameters[name].Str? ==>
      Validate(StringLength(lo, hi), r, name, env) == Validate(IsString, r, name, env)
    ensures name in r.parameters && r.parameters[name].Str? ==>
      (Validate(StringLength(lo, hi), r, name, env).Pass? <==> lo <= ByteLen(r.parameters[name].s) <= hi)
    ensures name in r.parameters && r.parameters[name].Str? && !(lo <= ByteLen(r.parameters[name].s) <= hi) ==>
      Validate(StringLength(lo, hi), r, name, env) ==
        Fail(Message("parameter " + name + " length must be between " + Itoa(lo) + " and " + Itoa(hi) + " characters"))
  {
  }

  /** `Range`: an absent parameter escapes as a panic, a value `IsFloat`
      rejects is its error, and a float, or a string that parses to one,
      passes iff it lies in [Min, Max]; otherwise it gets the range message. */
  lemma RangeOutcomes(lo: real, hi: real, r: Request, name: string, env: Foreign)
    ensures name !in r.parameters ==> Validate(Range(lo, hi), r, name, env).Abort?
    ensures Validate(IsFloat, r, name, env).Fail? ==>
      Validate(Range(lo, hi), r, name, env) == Validate(IsFloat, r, name, env)
    ensures name in r.parameters && r.parameters[name].Float? ==>
      (Validate(Range(lo, hi), r, name, env).Pass? <==> lo <= r.parameters[name].f <= hi)
    ensures name in r.parameters && r.parameters[name].Float? && !(lo <= r.parameters[name].f <= hi) ==>
      Validate(Range(lo, hi), r, name, env) == Fail(NotBetween(name, lo, hi))
    ensures name in r.parameters && r.parameters[name].Str? && env.parseFloat(r.parameters[name].s).Ok? ==>
      var f := env.parseFloat(r.parameters[name].s).value;
      (Validate(Range(lo, hi), r, name, env).Pass? <==> lo <= f <= hi) &&
      (!(lo <= f <= hi) ==> Validate(Range(lo, hi), r, name, env) == Fail(NotBetween(name, lo, hi)))
    ensures (name in r.parameters && !r.parameters[name].Float? &&
             (r.parameters[name].Str? ==> env.parseFloat(r.parameters[name].s).Err?)) ==>
      Validate(Range(lo, hi), r, name, env) == Fail(Message("parameter " + name + " must be of type 'float'"))
  {
    if name in r.parameters && !r.parameters[name].Float? &&
       (r.parameters[name].Str? ==> env.parseFloat(r.parameters[name].s).Err?) {
      assert Requests.GetFloat(r, name, env.parseFloat).Err?;
      assert "parameter " + name + " must be of type '" + "float" + "'" == "parameter " + name + " must be of type 'float'";
    }
  }

  /** `IsEmail` passes exactly the strings in the address language, and a
      missing or non-string parameter escapes as a panic. */
  lemma EmailOutcomes(r: Request, name: string, env: Foreign)
    ensures !(name in r.parameters && r.parameters[name].Str?) ==> Validate(IsEmail, r, name, env).Abort?
    ensures name in r.parameters && r.parameters[name].Str? ==>
      (Validate(IsEmail, r, name, env).Pass? <==> IsEmailAddress(r.parameters[name].s))
    ensures name in r.parameters && r.parameters[name].Str? && !IsEmailAddress(r.parameters[name].s) ==>
      Validate(IsEmail, r, name, env) == Fail(Message("parameter " + name + " must be a valid email address"))
  {
  }

  /** `IsUUID` passes iff the string matches the pattern and the scan accepts
      its 32 hexadecimal digits. */
  lemma UuidOutcomes(r: Request, name: string, env: Foreign)
    ensures !(name in r.parameters && r.parameters[name].Str?) ==> Validate(IsUUID, r, name, env).Abort?
    ensures name in r.parameters && r.parameters[name].Str? ==>
      (Validate(IsUUID, r, name, env).Pass? <==>
         UuidPattern(r.parameters[name].s) && env.scanHex(RemoveDashes(r.parameters[name].s)))
    ensures (name in r.parameters && r.parameters[name].Str? &&
             !(UuidPattern(r.parameters[name].s) && env.scanHex(RemoveDashes(r.parameters[name].s)))) ==>
      Validate(IsUUID, r, name, env) == Fail(Message("parameter " + name + " must be a valid UUID"))
  {
  }

  /** Scanning with `%x` into a struct value reports an error for every input
      in Go's `fmt`; when the scan rejects everything, no parameter passes. */
  lemma UuidRejectsWhenScanRejects(r: Request, name: string, env: Foreign)
    requires forall t :: !env.scanHex(t)
    ensures !Validate(IsUUID, r, name, env).Pass?
  {
  }

  /** `IsUUID` without the hexadecimal scan, which the pattern already
      implies (`UuidHexDigits`): a string passes iff it matches the pattern. */
  function ValidateUuidCorrected(r: Request, name: string): (v: Verdict)
    ensures !(name in r.parameters && r.parameters[name].Str?) ==> v.Abort?
    ensures name in r.parameters && r.parameters[name].Str? ==>
      (v.Pass? <==> UuidPattern(r.parameters[name].s)) &&
      (v.Fail? ==> v.error == Message("parameter " + name + " must be a valid UUID"))
  {
    match P.GetString(r, name)
    case Aborts(why) => Abort(why)
    case Returns(s) => if UuidPattern(s) then Pass else Fail(Message("parameter " + name + " must be a valid UUID"))
  }

  /** A well-formed version-1 UUID is accepted by the corrected check and
      rejected as written. */
  lemma UuidExampleOutcomes(r: Request, name: string, env: Foreign)
    requires name in r.parameters && r.parameters[name] == Str("123e4567-e89b-12d3-a456-426614174000")
    requires forall t :: !env.scanHex(t)
    ensures ValidateUuidCorrected(r, name) == Pass
    ensures Validate(IsUUID, r, name, env) == Fail(Message("parameter " + name + " must be a valid UUID"))
  {
    UuidExample();
  }

  /** Every problem a password has, in the order the rules are checked. */
  function PasswordProblems(s: string, name: string, lo: int, hi: int, symbols: bool, numbers: bool, upper: bool): seq<string>
  {
    (if lo <= ByteLen(s) <= hi then [] else ["parameter " + name + " must have length between " + Itoa(lo) + " and " + Itoa(hi)])
    + (if !symbols || HasSymbol(s) then [] else ["password must contain at least one symbol"])
    + (if !numbers || HasDigit(s) then [] else ["password must contain at least one number"])
    + (if !upper || HasUpper(s) then [] else ["password must contain at least one uppercase letter"])
  }

  /** `Password` passes iff the password has no problem, and otherwise reports
      the first one. */
  lemma PasswordReportsFirstProblem(r: Request, name: string, lo: int, hi: int, symbols: bool, numbers: bool, upper: bool, env: Foreign)
    requires name in r.parameters && r.parameters[name].Str?
    ensures var problems := PasswordProblems(r.parameters[name].s, name, lo, hi, symbols, numbers, upper);
      var verdict := Validate(Password(lo, hi, symbols, numbers, upper), r, name, env);
      && (verdict.Pass? <==> problems == [])
      && (problems != [] ==> verdict == Fail(Message(problems[0])))
  {
  }

  /** "Secret#1" meets every rule with lengths 8 to 64, and is one byte
      short of a minimum of 9. */
  lemma PasswordExample(name: string)
    ensures PasswordProblems("Secret#1", name, 8, 64, true, true, true) == []
    ensures PasswordProblems("Secret#1", name, 9, 64, false, false, false) != []
  {
    var s := "Secret#1";
    EncodeAscii(s);
    assert s[6] in PASSWORD_SYMBOLS;
    assert IsDigit(s[7]);
    assert IsUpper(s[0]);
  }

  // ---------------------------------------------------------------- schema

  /** The fields of an OpenAPI schema the validators write. `minLength` and
      `maxLength` are unsigned 64-bit values. */
  datatype SchemaValue = SchemaValue(
    typ: string,
    format: string,
    min: Option<real>,
    max: Option<real>,
    minLength: nat,
    maxLength: Option<nat>)

  /** `openapi3.NewSchema()`: every field at its zero value. */
  const EmptySchema := SchemaValue("", "", None, None, 0, None)

  /** Go's conversion of an `int` to `uint64`: two's-complement wrap-around. */
  function ToUint64(i: int): (u: nat)
    ensures u < 0x1_0000_0000_0000_0000
    ensures 0 <= i < 0x1_0000_0000_0000_0000 ==> u == i
    ensures -0x1_0000_0000_0000_0000 <= i < 0 ==> u == i + 0x1_0000_0000_0000_0000
  {
    i % 0x1_0000_0000_0000_0000
  }

  /** What `UpdateOpenAPISchema` does to a schema. */
  function Contribute(v: Validator, s: SchemaValue): SchemaValue
  {
    match v
    case Required => s
    case IsString => s.(typ := "string")
    case IsInt => s.(typ := "integer", format := "int64")
    case IsFloat => s.(typ := "number", format := "float")
    case IsBool => s.(typ := "boolean")
    case IsArray => s.(typ := "array")
    case IsMap => s.(typ := "object")
    case StringLength(lo, hi) => s.(typ := "string", minLength := ToUint64(lo), maxLength := Some(ToUint64(hi)))
    case Range(lo, hi) => s.(min := Some(lo), max := Some(hi))
    case IsEmail => s.(format := "email")
    case IsUUID => s.(format := "uuid")
    case Password(_, _, _, _, _) => s
  }

  /** A schema object that validators update in place. */
  class Schema {
    var typ: string
    var format: string
    var min: Option<real>
    var max: Option<real>
    var minLength: nat
    var maxLength: Option<nat>

    function Value(): SchemaValue
      reads this
    {
      SchemaValue(typ, format, min, max, minLength, maxLength)
    }

    /** `openapi3.NewSchema()`. */
    constructor ()
      ensures Value() == EmptySchema
    {
      typ, format, min, max, minLength, maxLength := "", "", None, None, 0, None;
    }
  }

  /** `UpdateOpenAPISchema`: writes this validator's fields into the schema
      and leaves the others as they were. */
  method UpdateOpenAPISchema(v: Validator, schema: Schema)
    modifies schema
    ensures schema.Value() == Contribute(v, old(schema.Value()))
  {
    match v
    case Required =>
    case IsString => schema.typ := "string";
    case IsInt => schema.typ := "integer"; schema.format := "int64";
    case IsFloat => schema.typ := "number"; schema.format := "float";
    case IsBool => schema.typ := "boolean";
    case IsArray => schema.typ := "array";
    case IsMap => schema.typ := "object";
    case StringLength(lo, hi) =>
      schema.typ := "string";
      schema.minLength := ToUint64(lo);
      schema.maxLength := Some(ToUint64(hi));
    case Range(lo, hi) => schema.min := Some(lo); schema.max := Some(hi);
    case IsEmail => schema.format := "email";
    case IsUUID => schema.format := "uuid";
    case Password(_, _, _, _, _) =>
  }

  /** The schema a chain of validators produces from a fresh schema, applied
      in chain order. */
  function ChainSchema(vs: seq<Validator>): SchemaValue
  {
    if vs == [] then EmptySchema else Contribute(vs[|vs| - 1], ChainSchema(vs[..|vs| - 1]))
  }

  predicate SetsType(v: Validator)
  {
    IsTypeCheck(v) || v.StringLength?
  }

  /** The OpenAPI type each type-setting validator writes. */
  function TypeOf(v: Validator): string
    requires SetsType(v)
  {
    match v
    case IsString => "string"
    case IsInt => "integer"
    case IsFloat => "number"
    case IsBool => "boolean"
    case IsArray => "array"
    case IsMap => "object"
    case StringLength(_, _) => "string"
  }

  /** The last type-setting validator of a chain decides the schema's type. */
  lemma {:induction false} LastTypeWins(vs: seq<Validator>, j: int)
    requires 0 <= j < |vs| && SetsType(vs[j])
    requires forall k :: j < k < |vs| ==> !SetsType(vs[k])
    ensures ChainSchema(vs).typ == TypeOf(vs[j])
  {
    var last := |vs| - 1;
    if j < last {
      assert vs[..last][j] == vs[j];
      LastTypeWins(vs[..last], j);
      assert !SetsType(vs[last]);
    }
  }

  /** A chain without a type-setting validator leaves the type empty. */
  lemma {:induction false} NoTypeWithoutTypeCheck(vs: seq<Validator>)
    requires forall k :: 0 <= k < |vs| ==> !SetsType(vs[k])
    ensures ChainSchema(vs).typ == ""
  {
    if vs != [] {
      var last := |vs| - 1;
      assert forall k :: 0 <= k < last ==> vs[..last][k] == vs[k];
      NoTypeWithoutTypeCheck(vs[..last]);
    }
  }

  /** A later type check does not clear the format an earlier one wrote. */
  lemma FormatOutlivesType()
    ensures ChainSchema([IsInt, IsString]).typ == "string"
    ensures ChainSchema([IsInt, IsString]).format == "int64"
  {
    assert [IsInt, IsString][..1] == [IsInt];
    assert [IsInt][..0] == [];
  }

  /** `Required`, `IsInt`, `Range(lo, hi)` document an `int64` integer with
      those bounds. */
  lemma RequiredIntRangeSchemaAt(lo: real, hi: real)
    ensures ChainSchema([Required, IsInt, Range(lo, hi)]) ==
      SchemaValue("integer", "int64", Some(lo), Some(hi), 0, None)
  {
    var vs := [Required, IsInt, Range(lo, hi)];
    assert vs[..2] == [Required, IsInt];
    assert vs[..2][..1] == [Required];
    assert vs[..2][..1][..0] == [];
    assert ChainSchema([Required]) == EmptySchema;
    assert ChainSchema([Required, IsInt]) == EmptySchema.(typ := "integer", format := "int64");
  }

  /** A negative minimum length wraps around to a huge unsigned value. */
  lemma NegativeMinLengthWraps()
    ensures Contribute(StringLength(-1, 5), EmptySchema).minLength == 0xFFFF_FFFF_FFFF_FFFF
  {
  }
}
