/** The quantity literal of an order body: rendered as a plain decimal, it is a JSON number (section 6 of
    RFC 8259) that reads back as exactly the authorized quantity, with the sign of the side. */
module DecimalLiteral {
  import opened Wrappers
  import opened Ledger

  /** A decimal as the code holds it: coefficient times ten to the exponent. */
  datatype Decimal = Decimal(negative: bool, coefficient: nat, exponent: int)

  // ---------------------------------------------------------------- digits

  predicate Digit(c: char) {
    '0' <= c <= '9'
  }

  function DigitOf(n: nat): char
    requires n < 10
  {
    ('0' as int + n) as char
  }

  function ValueOf(c: char): nat
    requires Digit(c)
  {
    c as int - '0' as int
  }

  ghost predicate AllDigits(s: string) {
    forall i :: 0 <= i < |s| ==> Digit(s[i])
  }

  function Digits(n: nat): (s: string)
    ensures s != [] && AllDigits(s)
  {
    if n < 10 then [DigitOf(n)] else Digits(n / 10) + [DigitOf(n % 10)]
  }

  function Zeros(n: nat): (s: string)
    ensures |s| == n && forall i :: 0 <= i < n ==> s[i] == '0'
  {
    if n == 0 then "" else Zeros(n - 1) + "0"
  }

  function Pow10(n: nat): nat {
    if n == 0 then 1 else 10 * Pow10(n - 1)
  }

  /** Reading digits left to right. */
  function Value(s: string): nat
    requires AllDigits(s)
  {
    if s == [] then 0 else 10 * Value(s[..|s| - 1]) + ValueOf(s[|s| - 1])
  }

  lemma {:induction false} DigitsRead(n: nat)
    ensures Value(Digits(n)) == n
    ensures n > 0 ==> Digits(n)[0] != '0'
  {
    var s := Digits(n);
    if n >= 10 {
      DigitsRead(n / 10);
      assert s[..|s| - 1] == Digits(n / 10);
    } else {
      assert s[..|s| - 1] == [];
    }
  }

  lemma {:induction false} ZerosScale(s: string, k: nat)
    requires AllDigits(s)
    ensures AllDigits(s + Zeros(k)) && Value(s + Zeros(k)) == Value(s) * Pow10(k)
  {
    if k == 0 {
      assert s + Zeros(0) == s;
    } else {
      ZerosScale(s, k - 1);
      var t := s + Zeros(k);
      assert t[..|t| - 1] == s + Zeros(k - 1);
      assert t[|t| - 1] == '0';
    }
  }

  lemma {:induction false} LeadingZeros(s: string, k: nat)
    requires AllDigits(s)
    ensures AllDigits(Zeros(k) + s) && Value(Zeros(k) + s) == Value(s)
    decreases |s|, k
  {
    if s != [] {
      LeadingZeros(s[..|s| - 1], k);
      var t := Zeros(k) + s;
      assert t[..|t| - 1] == Zeros(k) + s[..|s| - 1];
    } else if k > 0 {
      LeadingZeros(s, k - 1);
      var t := Zeros(k) + s;
      assert t == Zeros(k - 1) + "0";
      assert t[..|t| - 1] == Zeros(k - 1) + s;
    } else {
      assert Zeros(0) + s == [];
    }
  }

  // ---------------------------------------------------------------- rendering

  /** format(q, 'f'): the point is placed among the digits, padded with zeros on either side. */
  function Whole(d: Decimal): string {
    var digits := Digits(d.coefficient);
    var place := |digits| + d.exponent;
    if place <= 0 then "0" else if place > |digits| then digits + Zeros(place - |digits|) else digits[..place]
  }

  function Fraction(d: Decimal): string {
    var digits := Digits(d.coefficient);
    var place := |digits| + d.exponent;
    if place < 0 then Zeros(-place) + digits else if place > |digits| then "" else digits[place..]
  }

  function Format(d: Decimal): string {
    (if d.negative then "-" else "") + Plain(Whole(d), Fraction(d))
  }

  function Plain(whole: string, fraction: string): string {
    if fraction == "" then whole else whole + "." + fraction
  }

  /** The sign is a function of the side, never an input. */
  function Signed(side: Side, coefficient: nat, exponent: int): Decimal {
    Decimal(side == Sell, coefficient, exponent)
  }

  // ---------------------------------------------------------------- reading

  /** A JSON number without an exponent part: its sign, its digits read as one integer, and how many
      of them follow the point. */
  datatype Number = Number(negative: bool, digits: nat, places: nat)

  function Leading(s: string): (n: nat)
    ensures n <= |s| && AllDigits(s[..n]) && (n < |s| ==> !Digit(s[n]))
  {
    if s == [] || !Digit(s[0]) then 0
    else
      var n := 1 + Leading(s[1..]);
      assert forall i :: 0 < i < n ==> s[i] == s[1..][i - 1];
      n
  }

  /** A scanner for the grammar: an optional minus, then a zero or digits that do not start with one,
      then optionally a point and at least one digit, and nothing after that. */
  function Parse(s: string): Option<Number> {
    if s != [] && s[0] == '-' then ParseUnsigned(s[1..], true) else ParseUnsigned(s, false)
  }

  function ParseUnsigned(t: string, negative: bool): Option<Number> {
    var n := Leading(t);
    if n == 0 || (t[0] == '0' && n > 1) then None
    else if n == |t| then
      assert t[..n] == t;
      Some(Number(negative, Value(t), 0))
    else if t[n] != '.' then None
    else
      var f := t[n + 1..];
      if f == [] || Leading(f) != |f| then None
      else
        assert f[..|f|] == f;
        Some(Number(negative, Value(t[..n] + f), |f|))
  }

  lemma {:induction false} LeadingOfDigits(s: string, rest: string)
    requires AllDigits(s) && (rest != [] ==> !Digit(rest[0]))
    ensures Leading(s + rest) == |s|
  {
    if s == [] {
      assert s + rest == rest;
    } else {
      assert (s + rest)[1..] == s[1..] + rest;
      LeadingOfDigits(s[1..], rest);
    }
  }

  /** The text before and after the point is a JSON number's, and together it is `digits`. */
  ghost predicate Shape(whole: string, fraction: string, digits: nat) {
    && AllDigits(whole) && AllDigits(fraction) && whole != [] && (whole[0] == '0' ==> |whole| == 1)
    && AllDigits(whole + fraction) && Value(whole + fraction) == digits
  }

  lemma ParseWhole(whole: string, digits: nat, negative: bool)
    requires Shape(whole, "", digits)
    ensures ParseUnsigned(whole, negative) == Some(Number(negative, digits, 0))
  {
    hide Value, Leading;
    assert whole + "" == whole;
    LeadingOfDigits(whole, "");
  }

  lemma ParseFraction(whole: string, fraction: string, digits: nat, negative: bool)
    requires Shape(whole, fraction, digits) && fraction != ""
    ensures ParseUnsigned(whole + "." + fraction, negative) == Some(Number(negative, digits, |fraction|))
  {
    hide Value, Leading;
    var t := whole + "." + fraction;
    assert t == whole + ("." + fraction);
    LeadingOfDigits(whole, "." + fraction);
    assert t[..|whole|] == whole && t[|whole| + 1..] == fraction && t[0] == whole[0];
    assert fraction + "" == fraction;
    LeadingOfDigits(fraction, "");
  }

  lemma ParsePlain(whole: string, fraction: string, digits: nat, negative: bool)
    requires Shape(whole, fraction, digits)
    ensures Parse((if negative then "-" else "") + Plain(whole, fraction)) == Some(Number(negative, digits, |fraction|))
  {
    hide Value, Leading, ParseUnsigned;
    var t := Plain(whole, fraction);
    if fraction == "" { ParseWhole(whole, digits, negative); } else { ParseFraction(whole, fraction, digits, negative); }
    assert t[0] == whole[0];
    assert "" + t == t && ("-" + t)[1..] == t;
  }

  // ---------------------------------------------------------------- the literal reads back

  /** The integer the digits of a literal make, and how many of them follow the point. */
  function Mantissa(coefficient: nat, exponent: int): nat {
    if exponent < 0 then coefficient else coefficient * Pow10(exponent)
  }

  function Places(exponent: int): nat {
    if exponent < 0 then -exponent else 0
  }

  lemma ShapeGrown(d: Decimal)
    requires d.coefficient > 0 && d.exponent >= 0
    ensures Shape(Whole(d), Fraction(d), Mantissa(d.coefficient, d.exponent)) && Fraction(d) == ""
  {
    var digits := Digits(d.coefficient);
    DigitsRead(d.coefficient);
    hide Digits, Value, Pow10;
    ZerosScale(digits, d.exponent);
    if d.exponent == 0 { assert digits + Zeros(0) == digits; }
    assert Whole(d) == digits + Zeros(d.exponent);
    assert Whole(d) + "" == Whole(d);
  }

  lemma ShapeSplit(d: Decimal)
    requires d.coefficient > 0 && d.exponent < 0 && |Digits(d.coefficient)| + d.exponent > 0
    ensures Shape(Whole(d), Fraction(d), d.coefficient) && |Fraction(d)| == -d.exponent
  {
    var digits := Digits(d.coefficient);
    DigitsRead(d.coefficient);
    hide Digits, Value;
    var place := |digits| + d.exponent;
    assert digits[..place] + digits[place..] == digits;
  }

  lemma ShapePadded(d: Decimal)
    requires d.coefficient > 0 && d.exponent < 0 && |Digits(d.coefficient)| + d.exponent <= 0
    ensures Shape(Whole(d), Fraction(d), d.coefficient) && |Fraction(d)| == -d.exponent
  {
    var digits := Digits(d.coefficient);
    var place := |digits| + d.exponent;
    DigitsRead(d.coefficient);
    hide Digits, Value;
    var fraction := Zeros(-place) + digits;
    assert Fraction(d) == fraction;
    LeadingZeros(digits, -place);
    LeadingZeros(fraction, 1);
    assert Zeros(1) == "0";
  }

  /** The literal is a JSON number and reads back exactly: for every positive quantity, whatever its
      coefficient and exponent, the sign is the side's, and the digits read are the coefficient scaled
      so that digits / 10^places == coefficient * 10^exponent. */
  lemma ReadsBackExactly(side: Side, coefficient: nat, exponent: int)
    requires coefficient > 0
    ensures Parse(Format(Signed(side, coefficient, exponent))) ==
              Some(Number(side == Sell, Mantissa(coefficient, exponent), Places(exponent)))
  {
    var d := Signed(side, coefficient, exponent);
    hide Shape, Parse, Plain, Whole, Fraction, Digits;
    if exponent >= 0 { ShapeGrown(d); }
    else if |Digits(coefficient)| + exponent > 0 { ShapeSplit(d); }
    else { ShapePadded(d); }
    ParsePlain(Whole(d), Fraction(d), Mantissa(coefficient, exponent), d.negative);
  }

  /** Two quantities with the same literal are the same quantity on the same side: nothing is lost. */
  lemma LiteralDeterminesQuantity(side: Side, c: nat, e: int, side': Side, c': nat, e': int)
    requires c > 0 && c' > 0
    requires Format(Signed(side, c, e)) == Format(Signed(side', c', e'))
    ensures side == side' && Places(e) == Places(e') && Mantissa(c, e) == Mantissa(c', e')
  {
    hide Format, Parse, Mantissa, Places;
    ReadsBackExactly(side, c, e);
    ReadsBackExactly(side', c', e');
  }
}
