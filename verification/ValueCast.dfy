/**
 Conversion of column texts to integers: the decimal conversions of the C library
 (section 7.22.1.4 of ISO/IEC 9899:2011, with a 64-bit long) and the casts that
 follow them. The length of the text is ignored: a conversion stops at the first
 character that is not a digit, the terminator at the latest.
 */
module ValueCasts {

  const LONG_MAX := 0x7FFF_FFFF_FFFF_FFFF
  const LONG_MIN := -0x8000_0000_0000_0000
  const ULONG_MAX := 0xFFFF_FFFF_FFFF_FFFF

  // Texts.

  predicate IsSpace(c: char) {
    c == ' ' || '\t' <= c <= '\r'
  }

  predicate IsDigit(c: char) {
    '0' <= c <= '9'
  }

  function SkipSpaces(s: string): string {
    if s != [] && IsSpace(s[0]) then SkipSpaces(s[1..]) else s
  }

  predicate Signed(s: string) {
    s != [] && (s[0] == '-' || s[0] == '+')
  }

  /** The number a text goes on with, after digits worth `before`. */
  function Magnitude(s: string, before: nat): nat {
    if s == [] || !IsDigit(s[0]) then before
    else Magnitude(s[1..], 10 * before + (s[0] as int - '0' as int))
  }

  /** Space, a sign, and the digits; no digits at all count as zero. */
  datatype Numeral = Numeral(negative: bool, magnitude: nat) {
    function Value(): int {
      if negative then 0 - magnitude else magnitude
    }
  }

  function Parse(s: string): Numeral {
    var t := SkipSpaces(s);
    Numeral(t != [] && t[0] == '-', Magnitude(if Signed(t) then t[1..] else t, 0))
  }

  // How a text is read, told from its parts.

  /** Space, tab, line feed, vertical tab, form feed or carriage return. */
  predicate Spaces(s: string) {
    forall i | 0 <= i < |s| :: s[i] == ' ' || 9 <= s[i] as int <= 13
  }

  predicate AllDigits(s: string) {
    forall i | 0 <= i < |s| :: '0' <= s[i] <= '9'
  }

  /** The decimal value of digits, leading zeros included: the last one counts once, the others ten times. */
  function PlaceValue(digits: string): nat
    requires AllDigits(digits)
  {
    if digits == [] then 0
    else 10 * PlaceValue(digits[..|digits| - 1]) + (digits[|digits| - 1] as int - '0' as int)
  }

  /** Nothing that would be taken for a further digit. */
  predicate Terminates(rest: string) {
    rest == [] || !IsDigit(rest[0])
  }

  lemma {:induction false} SpacesSkipped(spaces: string, t: string)
    requires Spaces(spaces) && (t == [] || !IsSpace(t[0]))
    ensures SkipSpaces(spaces + t) == t
  {
    if spaces == [] {
      assert spaces + t == t;
    } else {
      assert (spaces + t)[1..] == spaces[1..] + t;
      SpacesSkipped(spaces[1..], t);
    }
  }

  lemma {:induction false} MagnitudeSplit(digits: string, rest: string, before: nat)
    requires AllDigits(digits)
    ensures Magnitude(digits + rest, before) == Magnitude(rest, Magnitude(digits, before))
  {
    if digits == [] {
      assert digits + rest == rest;
    } else {
      assert (digits + rest)[1..] == digits[1..] + rest;
      MagnitudeSplit(digits[1..], rest, 10 * before + (digits[0] as int - '0' as int));
    }
  }

  lemma {:induction false} MagnitudeIsPlaceValue(digits: string)
    requires AllDigits(digits)
    ensures Magnitude(digits, 0) == PlaceValue(digits)
  {
    if digits != [] {
      var last := |digits| - 1;
      MagnitudeIsPlaceValue(digits[..last]);
      assert digits == digits[..last] + [digits[last]];
      MagnitudeSplit(digits[..last], [digits[last]], 0);
    }
  }

  /** White space and an optional sign before at least one digit are read as the number the digits denote. */
  lemma {:induction false} ReadsNumber(spaces: string, sign: string, digits: string, rest: string)
    requires Spaces(spaces) && (sign == "" || sign == "+" || sign == "-")
    requires digits != "" && AllDigits(digits) && Terminates(rest)
    ensures var n := Parse(spaces + sign + digits + rest);
            && n.magnitude == PlaceValue(digits)
            && n.Value() == if sign == "-" then 0 - PlaceValue(digits) else PlaceValue(digits)
  {
    var t := sign + (digits + rest);
    assert spaces + sign + digits + rest == spaces + t;
    SpacesSkipped(spaces, t);
    assert (if Signed(t) then t[1..] else t) == digits + rest;
    MagnitudeSplit(digits, rest, 0);
    MagnitudeIsPlaceValue(digits);
  }

  /** Without a digit where the number should be, the text is read as zero. */
  lemma {:induction false} ReadsNothing(spaces: string, sign: string, rest: string)
    requires Spaces(spaces) && Terminates(rest)
    requires sign == "+" || sign == "-" || (sign == "" && (rest == [] || (!IsSpace(rest[0]) && !Signed(rest))))
    ensures Parse(spaces + sign + rest).Value() == 0
  {
    var t := sign + rest;
    assert spaces + sign + rest == spaces + t;
    SpacesSkipped(spaces, t);
    assert (if Signed(t) then t[1..] else t) == rest;
  }

  // The library conversions.

  function Strtol(s: string): (v: int)
    ensures LONG_MIN <= v <= LONG_MAX
  {
    var v := Parse(s).Value();
    if v < LONG_MIN then LONG_MIN else if v > LONG_MAX then LONG_MAX else v
  }

  /** A magnitude that fits is negated in the unsigned type; one that does not saturates, whatever the sign. */
  function Strtoul(s: string): (v: nat)
    ensures v <= ULONG_MAX
  {
    var n := Parse(s);
    if n.magnitude > ULONG_MAX then ULONG_MAX else n.Value() % (ULONG_MAX + 1)
  }

  function Distance(a: int, b: int): nat {
    if a < b then b - a else a - b
  }

  /** The signed conversion returns the long nearest to the number: no other long is as close. */
  lemma {:induction false} StrtolNearest(s: string, other: int)
    requires LONG_MIN <= other <= LONG_MAX && other != Strtol(s)
    ensures Distance(Strtol(s), Parse(s).Value()) < Distance(other, Parse(s).Value())
  {
  }

  /**
   The unsigned conversion returns the unsigned long congruent to the number, and
   only that one, as long as the digits alone fit; otherwise the largest.
   */
  lemma {:induction false} StrtoulResidue(s: string, other: nat)
    requires other <= ULONG_MAX
    ensures Parse(s).magnitude <= ULONG_MAX ==>
              (other == Strtoul(s) <==> (other - Parse(s).Value()) % (ULONG_MAX + 1) == 0)
    ensures Parse(s).magnitude > ULONG_MAX ==> Strtoul(s) == ULONG_MAX
  {
  }

  // The casts.

  datatype IntType = IntType(signed: bool, modulus: Modulus)

  type Modulus = m: int |
    m == 0x100 || m == 0x1_0000 || m == 0x1_0000_0000 || m == 0x1_0000_0000_0000_0000
    witness 0x100

  const INT16 := IntType(true, 0x1_0000)
  const INT64 := IntType(true, 0x1_0000_0000_0000_0000)
  const UINT16 := IntType(false, 0x1_0000)
  const UINT64 := IntType(false, 0x1_0000_0000_0000_0000)

  predicate InRange(t: IntType, v: int) {
    if t.signed then 0 - t.modulus <= 2 * v < t.modulus else 0 <= v < t.modulus
  }

  /** static_cast to a type of this width and signedness. */
  function Wrap(t: IntType, v: int): int {
    var u := v % t.modulus;
    if t.signed && 2 * u >= t.modulus then u - t.modulus else u
  }

  function ValueCast(t: IntType, s: string): int {
    if t.signed then if t == INT64 then Strtol(s) else Wrap(t, Strtol(s))
    else if t == UINT64 then Strtoul(s)
    else if t == UINT16 then Wrap(UINT16, Wrap(INT16, Strtoul(s)))
    else Wrap(t, Strtoul(s))
  }

  predicate BoolCast(s: string) {
    Strtol(s) != 0
  }

  // Decimal texts.

  function Digit(n: nat): char
    requires n < 10
  {
    (n + '0' as int) as char
  }

  function Digits(n: nat): string {
    if n < 10 then [Digit(n)] else Digits(n / 10) + [Digit(n % 10)]
  }

  function Decimal(v: int): string {
    if v < 0 then "-" + Digits(-v) else Digits(v)
  }

  lemma {:induction false} DigitsMagnitude(n: nat, rest: string)
    ensures Magnitude(Digits(n) + rest, 0) == Magnitude(rest, n)
    ensures Digits(n) != [] && IsDigit(Digits(n)[0])
    decreases n
  {
    if n < 10 {
      assert ([Digit(n)] + rest)[1..] == rest;
    } else {
      var d := [Digit(n % 10)];
      DigitsMagnitude(n / 10, d + rest);
      assert Digits(n) + rest == Digits(n / 10) + (d + rest);
      assert (d + rest)[1..] == rest;
    }
  }

  lemma {:induction false} DecimalParses(v: int, rest: string)
    requires Terminates(rest)
    ensures Parse(Decimal(v) + rest).Value() == v
  {
    DigitsMagnitude(if v < 0 then -v else v, rest);
    if v < 0 {
      assert (Decimal(v) + rest)[1..] == Digits(-v) + rest;
    }
  }

  lemma {:induction false} WrapCongruent(t: IntType, v: int)
    ensures InRange(t, Wrap(t, v)) && (Wrap(t, v) - v) % t.modulus == 0
  {
  }

  /** There is only one value of a type in each residue class. */
  lemma {:induction false} CongruentInRange(t: IntType, a: int, b: int)
    requires InRange(t, a) && InRange(t, b) && (a - b) % t.modulus == 0
    ensures a == b
  {
  }

  /** The library value the cast of a text starts from. */
  function Saturated(t: IntType, s: string): int {
    if t.signed then Strtol(s) else Strtoul(s)
  }

  /** The detour of the unsigned 16-bit cast through a signed type changes nothing. */
  lemma {:induction false} CastIsWrap(t: IntType, s: string)
    ensures ValueCast(t, s) == Wrap(t, Saturated(t, s))
  {
  }

  /** Every cast is the value of the type that is congruent to the saturated library value. */
  lemma {:induction false} CastIsCongruent(t: IntType, s: string)
    ensures var r := ValueCast(t, s); InRange(t, r) && (r - Saturated(t, s)) % t.modulus == 0
  {
    CastIsWrap(t, s);
    WrapCongruent(t, Saturated(t, s));
  }

  lemma {:induction false} NothingSaturates(t: IntType, s: string)
    requires InRange(t, Parse(s).Value())
    ensures Saturated(t, s) == Parse(s).Value()
  {
  }

  /** A cast returns the number the text denotes exactly if the type has it. */
  lemma {:induction false} ExactIffInRange(t: IntType, s: string)
    ensures ValueCast(t, s) == Parse(s).Value() <==> InRange(t, Parse(s).Value())
  {
    CastIsCongruent(t, s);
    if InRange(t, Parse(s).Value()) {
      NothingSaturates(t, s);
      CongruentInRange(t, ValueCast(t, s), Parse(s).Value());
    }
  }

  /** The printed digits of a number denote it. */
  lemma {:induction false} DigitsDenote(n: nat)
    ensures Digits(n) != "" && AllDigits(Digits(n)) && PlaceValue(Digits(n)) == n
  {
    if n >= 10 { DigitsDenote(n / 10); }
  }

  /**
   Round trip: a value of a type survives being printed and cast, whatever follows
   its digits, after any white space, and with a plus sign if it is not negative.
   */
  lemma {:induction false} RoundTrip(t: IntType, v: int, spaces: string, rest: string)
    requires InRange(t, v) && Spaces(spaces) && Terminates(rest)
    ensures ValueCast(t, spaces + Decimal(v) + rest) == v
    ensures v >= 0 ==> ValueCast(t, spaces + "+" + Decimal(v) + rest) == v
  {
    hide ValueCast, InRange;
    if v < 0 {
      PrintedCast(t, -v, spaces, "-", rest);
      assert spaces + "-" + Digits(-v) + rest == spaces + Decimal(v) + rest;
    } else {
      PrintedCast(t, v, spaces, "", rest);
      PrintedCast(t, v, spaces, "+", rest);
      assert spaces + "" + Digits(v) + rest == spaces + Decimal(v) + rest;
    }
  }

  lemma {:induction false} PrintedCast(t: IntType, n: nat, spaces: string, sign: string, rest: string)
    requires Spaces(spaces) && (sign == "" || sign == "+" || sign == "-") && Terminates(rest)
    requires InRange(t, if sign == "-" then 0 - n else n)
    ensures ValueCast(t, spaces + sign + Digits(n) + rest) == if sign == "-" then 0 - n else n
  {
    hide ValueCast, InRange;
    DigitsDenote(n);
    ReadsNumber(spaces, sign, Digits(n), rest);
    ExactIffInRange(t, spaces + sign + Digits(n) + rest);
  }

  /** A number of any length: narrow casts keep the residue of what the 64-bit conversion saturates to. */
  lemma {:induction false} LongDigits(t: IntType, n: nat, rest: string)
    requires Terminates(rest)
    ensures var max := if t.signed then LONG_MAX else ULONG_MAX;
            ValueCast(t, Decimal(n) + rest) == Wrap(t, if n > max then max else n)
  {
    DecimalParses(n, rest);
    CastIsWrap(t, Decimal(n) + rest);
  }

  /** A text is true exactly if it denotes a number other than zero. */
  lemma {:induction false} BoolIsNonZero(s: string)
    ensures BoolCast(s) <==> Parse(s).magnitude != 0
  {
  }
}
