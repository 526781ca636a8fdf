/**
 * Naira as written in a spreadsheet, to kobo, exactly
 * (src/modules/catalog/product-import.ts:706-736).
 */
module Naira {
  import opened Common

  /** The largest whole number JavaScript holds exactly. */
  const MAX_SAFE: nat := 9007199254740991

  datatype Error = NotAnAmount | TooLarge

  // -- What an amount is ------------------------------------------------------

  predicate IsDigit(c: char) {
    '0' <= c <= '9'
  }

  predicate AllDigits(s: string) {
    forall i :: 0 <= i < |s| ==> IsDigit(s[i])
  }

  function DigitOf(c: char): (d: nat)
    ensures IsDigit(c) ==> d <= 9
  {
    if IsDigit(c) then c as int - '0' as int else 0
  }

  /** The number some digits write. */
  function NumberOf(digits: string): nat
    decreases |digits|
  {
    if digits == "" then 0 else 10 * NumberOf(digits[..|digits| - 1]) + DigitOf(digits[|digits| - 1])
  }

  function Pow10(n: nat): (p: nat)
    ensures p > 0
  {
    if n == 0 then 1 else 10 * Pow10(n - 1)
  }

  /** `digits` times ten to the `power`, to the nearest whole number, halves going up. */
  function RoundHalfUp(digits: nat, power: int): int {
    if power >= 0 then digits * Pow10(power) else Nearest(digits, Pow10(-power))
  }

  /** `x` over `p` to the nearest whole number, halves going up. */
  function Nearest(x: nat, p: nat): int
    requires p > 0
  {
    (2 * x + p) / (2 * p)
  }

  datatype Exponent = Exponent(mark: char, sign: string, digits: string)

  /** An amount as written: whole digits, digits after a point, and a power of ten. */
  datatype Amount = Amount(whole: string, point: Option<string>, exponent: Option<Exponent>)

  function Fraction(a: Amount): string {
    if a.point.Some? then a.point.value else ""
  }

  function PowerOf(a: Amount): int {
    if a.exponent.None? then 0
    else if a.exponent.value.sign == "-" then 0 - NumberOf(a.exponent.value.digits)
    else NumberOf(a.exponent.value.digits)
  }

  predicate WellWritten(a: Amount) {
    && AllDigits(a.whole) && AllDigits(Fraction(a))
    && (a.exponent.Some? ==>
          && (a.exponent.value.mark == 'e' || a.exponent.value.mark == 'E')
          && (a.exponent.value.sign == "" || a.exponent.value.sign == "+" || a.exponent.value.sign == "-")
          && a.exponent.value.digits != "" && AllDigits(a.exponent.value.digits))
  }

  function WrittenPower(e: Option<Exponent>): string {
    if e.None? then "" else [e.value.mark] + e.value.sign + e.value.digits
  }

  function Written(a: Amount): string {
    a.whole + (if a.point.Some? then "." + a.point.value else "") + WrittenPower(a.exponent)
  }

  /** The amount in kobo: the digits, moved by the power and the two places of a kobo, rounded half up. */
  function InKobo(a: Amount): int {
    RoundHalfUp(NumberOf(a.whole + Fraction(a)), PowerOf(a) - |Fraction(a)| + 2)
  }

  // -- Reading the text -------------------------------------------------------

  function LeadingDigits(s: string): (n: nat)
    ensures n <= |s| && AllDigits(s[..n])
    ensures n < |s| ==> !IsDigit(s[n])
  {
    if s == "" || !IsDigit(s[0]) then 0
    else
      var n := 1 + LeadingDigits(s[1..]);
      assert forall i :: 0 < i < n ==> s[i] == s[1..][i - 1];
      n
  }

  function ReadPower(s: string): Result<Option<Exponent>, ()> {
    if s == "" then Ok(None)
    else if s[0] != 'e' && s[0] != 'E' then Err(())
    else
      var sign := if |s| > 1 && (s[1] == '+' || s[1] == '-') then [s[1]] else "";
      var digits := s[1 + |sign|..];
      if digits == "" || LeadingDigits(digits) != |digits| then Err(()) else Ok(Some(Exponent(s[0], sign, digits)))
  }

  /** The pattern: digits, a point and digits, a power of ten, and nothing else. */
  function Read(s: string): Result<Amount, ()> {
    var n := LeadingDigits(s);
    var rest := s[n..];
    if rest != "" && rest[0] == '.' then
      var m := LeadingDigits(rest[1..]);
      var power :- ReadPower(rest[1 + m..]);
      Ok(Amount(s[..n], Some(rest[1..][..m]), power))
    else
      var power :- ReadPower(rest);
      Ok(Amount(s[..n], None, power))
  }

  lemma {:induction false} LeadingExactly(digits: string, rest: string)
    requires AllDigits(digits) && (rest == "" || !IsDigit(rest[0]))
    ensures LeadingDigits(digits + rest) == |digits|
  {
    if digits == "" {
      assert digits + rest == rest;
    } else {
      assert (digits + rest)[1..] == digits[1..] + rest;
      LeadingExactly(digits[1..], rest);
    }
  }

  lemma {:induction false} ReadsPower(e: Option<Exponent>)
    requires WellWritten(Amount("", None, e))
    ensures ReadPower(WrittenPower(e)) == Ok(e)
    ensures WrittenPower(e) == "" || !IsDigit(WrittenPower(e)[0])
    ensures WrittenPower(e) == "" || WrittenPower(e)[0] != '.'
  {
    if e.Some? {
      var s := WrittenPower(e);
      assert s[0] == e.value.mark && s[1..] == e.value.sign + e.value.digits;
      LeadingExactly(e.value.digits, "");
      assert e.value.digits + "" == e.value.digits;
      if e.value.sign == "" {
        assert IsDigit(s[1]);
        assert s[1..] == e.value.digits;
      } else {
        assert s[1] == e.value.sign[0];
        assert [s[1]] == e.value.sign;
        assert s[2..] == e.value.digits;
      }
    }
  }

  /** A text is read as an amount exactly when it writes it. */
  lemma {:induction false} ReadExactly(s: string, a: Amount)
    ensures Read(s) == Ok(a) <==> WellWritten(a) && s == Written(a)
  {
    if Read(s) == Ok(a) {
      ReadIsWritten(s, a);
    }
    if WellWritten(a) && s == Written(a) {
      WrittenIsRead(a);
    }
  }

  lemma {:induction false} PowerIsWritten(s: string)
    requires ReadPower(s).Ok?
    ensures WrittenPower(ReadPower(s).value) == s && WellWritten(Amount("", None, ReadPower(s).value))
  {
    if s != "" {
      var e := ReadPower(s).value.value;
      assert e.digits[..LeadingDigits(e.digits)] == e.digits;
      assert s == [s[0]] + e.sign + e.digits;
    }
  }

  lemma {:induction false} ReadIsWritten(s: string, a: Amount)
    requires Read(s) == Ok(a)
    ensures WellWritten(a) && s == Written(a)
  {
    hide ReadPower, WrittenPower, LeadingDigits;
    var n := LeadingDigits(s);
    var rest := s[n..];
    if rest != "" && rest[0] == '.' {
      var m := LeadingDigits(rest[1..]);
      PowerIsWritten(rest[1 + m..]);
      PowerAlone(a);
      Pointed(rest, m);
    } else {
      PowerIsWritten(rest);
      PowerAlone(a);
    }
  }

  lemma {:induction false} PowerAlone(a: Amount)
    requires AllDigits(a.whole) && AllDigits(Fraction(a)) && WellWritten(Amount("", None, a.exponent))
    ensures WellWritten(a)
  {
  }

  lemma {:induction false} Pointed(rest: string, m: nat)
    requires rest != "" && rest[0] == '.' && m <= |rest| - 1
    ensures rest == "." + rest[1..][..m] + rest[1 + m..]
  {
  }

  lemma {:induction false} WrittenIsRead(a: Amount)
    requires WellWritten(a)
    ensures Read(Written(a)) == Ok(a)
  {
    hide ReadPower, WrittenPower, LeadingDigits, AllDigits;
    var power := WrittenPower(a.exponent);
    assert WellWritten(Amount("", None, a.exponent)) by {
      NoDigits();
    }
    ReadsPower(a.exponent);
    if a.point.Some? {
      var point := a.point.value;
      var tail := "." + point + power;
      Joined(a.whole, "." + point, power);
      LeadingExactly(a.whole, tail);
      Apart(a.whole, tail);
      assert tail[1..] == point + power;
      LeadingExactly(point, power);
      Apart(point, power);
      assert tail[1 + |point|..] == tail[1..][|point|..];
    } else {
      Joined(a.whole, "", power);
      LeadingExactly(a.whole, power);
      Apart(a.whole, power);
    }
  }

  lemma {:induction false} NoDigits()
    ensures AllDigits("")
  {
  }

  lemma {:induction false} Joined(x: string, y: string, z: string)
    ensures x + y + z == x + (y + z)
    ensures y == "" ==> y + z == z
  {
  }

  lemma {:induction false} Apart(x: string, y: string)
    ensures (x + y)[..|x|] == x && (x + y)[|x|..] == y
  {
  }

  // -- What is taken off first ------------------------------------------------

  predicate IsN(c: char) {
    c == 'N' || c == 'n'
  }

  /** The naira sign, NGN or N, once, at the front. */
  function WithoutSign(s: string): string {
    if s != "" && s[0] == '\U{20A6}' then s[1..]
    else if |s| >= 3 && IsN(s[0]) && (s[1] == 'G' || s[1] == 'g') && IsN(s[2]) then s[3..]
    else if s != "" && IsN(s[0]) then s[1..]
    else s
  }

  /** Commas and spaces, wherever they are. */
  function WithoutSeparators(s: string): string {
    if s == "" then ""
    else (if s[0] == ',' || IsSpace(s[0]) then "" else [s[0]]) + WithoutSeparators(s[1..])
  }

  function Cleaned(raw: string): string {
    WithoutSeparators(WithoutSign(Trim(raw)))
  }

  // -- Arithmetic of digits ---------------------------------------------------

  lemma {:induction false} NumberSnoc(digits: string, c: char)
    ensures NumberOf(digits + [c]) == 10 * NumberOf(digits) + DigitOf(c)
  {
    assert (digits + [c])[..|digits|] == digits;
  }

  lemma {:induction false} NumberConcat(x: string, y: string)
    ensures NumberOf(x + y) == NumberOf(x) * Pow10(|y|) + NumberOf(y)
    decreases |y|
  {
    if y == "" {
      assert x + y == x;
    } else {
      var y', c := y[..|y| - 1], y[|y| - 1];
      assert y == y' + [c] && x + y == (x + y') + [c];
      NumberConcat(x, y');
      NumberSnoc(x + y', c);
      NumberSnoc(y', c);
      TenTimes(NumberOf(x), Pow10(|y'|));
    }
  }

  lemma {:induction false} TenTimes(x: nat, p: nat)
    ensures 10 * (x * p) == x * (10 * p)
  {
  }

  function Zeros(n: nat): (s: string)
    ensures |s| == n && AllDigits(s) && forall i :: 0 <= i < n ==> s[i] == '0'
  {
    if n == 0 then "" else Zeros(n - 1) + "0"
  }

  lemma {:induction false} ZerosAreNothing(n: nat)
    ensures NumberOf(Zeros(n)) == 0
  {
    if n > 0 {
      ZerosAreNothing(n - 1);
      NumberSnoc(Zeros(n - 1), '0');
    }
  }

  lemma {:induction false} BelowPower(digits: string)
    requires AllDigits(digits)
    ensures NumberOf(digits) < Pow10(|digits|)
    decreases |digits|
  {
    if digits != "" {
      BelowPower(digits[..|digits| - 1]);
    }
  }

  lemma {:induction false} PowerAdds(m: nat, n: nat)
    ensures Pow10(m + n) == Pow10(m) * Pow10(n)
  {
    if m > 0 {
      PowerAdds(m - 1, n);
      TenOfProduct(Pow10(m - 1), Pow10(n));
    }
  }

  lemma {:induction false} TenOfProduct(x: nat, y: nat)
    ensures 10 * (x * y) == (10 * x) * y
  {
  }

  /** The nearest whole number, halves going up, said without dividing. */
  lemma {:induction false} RoundHalfUpIsNearest(digits: nat, places: nat)
    requires places > 0
    ensures var r := RoundHalfUp(digits, 0 - places);
      (2 * r - 1) * Pow10(places) <= 2 * digits < (2 * r + 1) * Pow10(places)
  {
    var p, r := Pow10(places), RoundHalfUp(digits, 0 - places);
    var x := 2 * digits + p;
    assert x == (2 * p) * (x / (2 * p)) + x % (2 * p);
    Twice(r, p);
  }

  lemma {:induction false} Twice(r: int, p: int)
    ensures (2 * r - 1) * p == (2 * p) * r - p && (2 * r + 1) * p == (2 * p) * r + p
  {
  }

  // -- From digits to kobo ----------------------------------------------------

  function PadEnd(s: string, n: nat): (r: string)
    ensures r == if |s| < n then s + Zeros(n - |s|) else s
  {
    if |s| < n then s + Zeros(n - |s|) else s
  }

  function PadStart(s: string, n: nat): (r: string)
    ensures r == if |s| < n then Zeros(n - |s|) + s else s
  {
    if |s| < n then Zeros(n - |s|) + s else s
  }

  /** The point has been moved by `power` places. */
  ghost predicate PointMoved(whole: string, fraction: string, power: int, w: string, f: string) {
    && AllDigits(w) && AllDigits(f)
    && (if power > |fraction|
        then f == "" && NumberOf(w) == NumberOf(whole + fraction) * Pow10(power - |fraction|)
        else |f| == |fraction| - power && NumberOf(w + f) == NumberOf(whole + fraction))
  }

  lemma {:induction false} MovedRight(whole: string, fraction: string, power: nat)
    requires AllDigits(whole) && AllDigits(fraction) && power > 0
    ensures var moved := PadEnd(fraction, power);
      |moved| >= power && PointMoved(whole, fraction, power, whole + moved[..power], moved[power..])
  {
    var moved := PadEnd(fraction, power);
    if power > |fraction| {
      assert whole + moved[..power] == (whole + fraction) + Zeros(power - |fraction|);
      NumberConcat(whole + fraction, Zeros(power - |fraction|));
      ZerosAreNothing(power - |fraction|);
    } else {
      assert whole + moved[..power] + moved[power..] == whole + fraction;
    }
  }

  lemma {:induction false} CutAnywhere(padded: string, cut: nat, fraction: string)
    requires cut <= |padded|
    ensures padded[..cut] + (padded[cut..] + fraction) == padded + fraction
  {
  }

  lemma {:induction false} PaddingIsNothing(n: nat, whole: string, fraction: string)
    ensures NumberOf(Zeros(n) + whole + fraction) == NumberOf(whole + fraction)
  {
    hide NumberOf, Pow10;
    Joined(Zeros(n), whole, fraction);
    NumberConcat(Zeros(n), whole + fraction);
    ZerosAreNothing(n);
  }

  lemma {:induction false} MovedLeft(whole: string, fraction: string, power: nat)
    requires AllDigits(whole) && AllDigits(fraction) && power > 0
    ensures var padded := PadStart(whole, power + 1);
      var cut := |padded| - power;
      cut >= 1 && PointMoved(whole, fraction, 0 - power, padded[..cut], padded[cut..] + fraction)
  {
    hide NumberOf, Pow10;
    var padded := PadStart(whole, power + 1);
    var cut := |padded| - power;
    CutAnywhere(padded, cut, fraction);
    if |whole| < power + 1 {
      PaddingIsNothing(power + 1 - |whole|, whole, fraction);
    }
  }

  /** Kobo from the digits either side of the point. */
  function Kobo(whole: string, fraction: string): nat {
    NumberOf(whole) * 100 + NumberOf(PadEnd(fraction, 2)[..2])
      + if |fraction| > 2 && DigitOf(fraction[2]) >= 5 then 1 else 0
  }

  /** The third decimal alone says whether what follows the second is a half or more. */
  lemma {:induction false} ThirdDecimalDecides(rest: string)
    requires AllDigits(rest) && rest != ""
    ensures 2 * NumberOf(rest) >= Pow10(|rest|) <==> DigitOf(rest[0]) >= 5
  {
    assert rest == [rest[0]] + rest[1..];
    NumberConcat([rest[0]], rest[1..]);
    NumberSnoc("", rest[0]);
    assert "" + [rest[0]] == [rest[0]];
    BelowPower(rest[1..]);
    var d, p, r := DigitOf(rest[0]), Pow10(|rest| - 1), NumberOf(rest[1..]);
    HalfOrMore(d, p, r);
  }

  lemma {:induction false} HalfOrMore(d: nat, p: nat, r: nat)
    requires r < p && d <= 9
    ensures 2 * (d * p + r) >= 10 * p <==> d >= 5
  {
    if d >= 5 {
      assert d * p >= 5 * p;
    } else {
      assert d * p <= 4 * p;
    }
  }

  lemma {:induction false} Rounded(q: nat, r: nat, p: nat)
    requires r < p
    ensures Nearest(q * p + r, p) == q + if 2 * r >= p then 1 else 0
  {
    var up := if 2 * r >= p then 1 else 0;
    var left := 2 * r + p - up * (2 * p);
    assert 0 <= left < 2 * p;
    Spread(q, up, p);
    DivideBack(q + up, 2 * p, left);
  }

  lemma {:induction false} Spread(q: nat, up: nat, p: nat)
    ensures (q + up) * (2 * p) == 2 * (q * p) + up * (2 * p)
  {
  }

  lemma {:induction false} DivideBack(q: nat, d: nat, left: nat)
    requires left < d
    ensures (q * d + left) / d == q
  {
    var x := q * d + left;
    var y := x / d;
    assert x == d * y + x % d;
    Swap(d, y);
    if y < q {
      MulGrows(y + 1, q, d);
      OneMore(y, d);
    } else if y > q {
      MulGrows(q + 1, y, d);
      OneMore(q, d);
    }
  }

  lemma {:induction false} Swap(x: int, y: int)
    ensures x * y == y * x
  {
  }

  lemma {:induction false} OneMore(x: int, d: int)
    ensures (x + 1) * d == x * d + d
  {
  }

  lemma {:induction false} MulGrows(x: int, y: int, d: nat)
    requires x <= y
    ensures x * d <= y * d
    decreases y - x
  {
    if x < y {
      MulGrows(x, y - 1, d);
      OneMore(y - 1, d);
    }
  }

  lemma {:induction false} ShortKobo(whole: string, fraction: string)
    requires |fraction| <= 2
    ensures Kobo(whole, fraction) == NumberOf(whole + fraction) * Pow10(2 - |fraction|)
  {
    var n := 2 - |fraction|;
    var padded := PadEnd(fraction, 2);
    assert padded[..2] == fraction + Zeros(n);
    NumberConcat(whole, padded[..2]);
    assert Pow10(2) == 100;
    Joined(whole, fraction, Zeros(n));
    NumberConcat(whole + fraction, Zeros(n));
    ZerosAreNothing(n);
  }

  lemma {:induction false} LongKobo(whole: string, fraction: string)
    requires AllDigits(whole) && AllDigits(fraction) && |fraction| > 2
    ensures Kobo(whole, fraction) == Nearest(NumberOf(whole + fraction), Pow10(|fraction| - 2))
  {
    hide NumberOf, Pow10, Nearest;
    var two, rest := fraction[..2], fraction[2..];
    assert PadEnd(fraction, 2)[..2] == two && rest[0] == fraction[2];
    NumberConcat(whole, two);
    Hundred();
    assert whole + fraction == (whole + two) + rest;
    NumberConcat(whole + two, rest);
    BelowPower(rest);
    ThirdDecimalDecides(rest);
    Rounded(NumberOf(whole + two), NumberOf(rest), Pow10(|rest|));
  }

  lemma {:induction false} Hundred()
    ensures Pow10(2) == 100
  {
    assert Pow10(1) == 10;
  }

  /** Taking two decimals and looking at the third is rounding the exact value half up. */
  lemma {:induction false} KoboIsRounded(whole: string, fraction: string)
    requires AllDigits(whole) && AllDigits(fraction)
    ensures Kobo(whole, fraction) == RoundHalfUp(NumberOf(whole + fraction), 2 - |fraction|)
  {
    hide Kobo, NumberOf, Pow10, Nearest;
    if |fraction| <= 2 {
      ShortKobo(whole, fraction);
    } else {
      LongKobo(whole, fraction);
    }
  }

  /** So moving the point and taking the kobo is the exact amount, rounded half up. */
  lemma {:induction false} MovedIsExact(whole: string, fraction: string, power: int, w: string, f: string)
    requires PointMoved(whole, fraction, power, w, f)
    ensures Kobo(w, f) == RoundHalfUp(NumberOf(whole + fraction), power - |fraction| + 2)
  {
    hide Kobo, NumberOf, Pow10, Nearest;
    KoboIsRounded(w, f);
    if power > |fraction| {
      var d, n := NumberOf(whole + fraction), power - |fraction|;
      assert w + f == w;
      PowerAdds(n, 2);
      TimesTwice(d, Pow10(n), Pow10(2));
    }
  }

  lemma {:induction false} TimesTwice(d: nat, x: nat, y: nat)
    ensures (d * x) * y == d * (x * y)
  {
  }

  /** The point moved by a power of ten: noughts are added where the digits run out. */
  method MovePoint(whole: string, fraction: string, exponent: int) returns (w: string, f: string)
    requires AllDigits(whole) && AllDigits(fraction)
    ensures PointMoved(whole, fraction, exponent, w, f)
  {
    hide PointMoved, PadEnd, PadStart;
    if exponent > 0 {
      var moved := PadEnd(fraction, exponent);
      MovedRight(whole, fraction, exponent);
      w, f := whole + moved[..exponent], moved[exponent..];
    } else if exponent < 0 {
      var padded := PadStart(whole, -exponent + 1);
      MovedLeft(whole, fraction, -exponent);
      w, f := padded[..|padded| + exponent], padded[|padded| + exponent..] + fraction;
    } else {
      w, f := whole, fraction;
      NotMoved(whole, fraction);
    }
  }

  lemma {:induction false} NotMoved(whole: string, fraction: string)
    requires AllDigits(whole) && AllDigits(fraction)
    ensures PointMoved(whole, fraction, 0, whole, fraction)
  {
  }

  /** Nothing before the point, nor after it. */
  predicate Empty(a: Amount) {
    a.whole == "" && Fraction(a) == ""
  }

  /** What a cell says, in kobo: the exact amount rounded half up, unless it is no amount or too large to hold. */
  function Parse(raw: string): Result<int, Error> {
    var read := Read(Cleaned(raw));
    if read.Err? || Empty(read.value) then Err(NotAnAmount)
    else if InKobo(read.value) > MAX_SAFE then Err(TooLarge)
    else Ok(InKobo(read.value))
  }

  /**
   * `parseNaira`. The result is the exact amount in kobo rounded half up, for any
   * number of decimals and any power of ten; an error exactly when the text is not
   * an amount, or the amount is past what can be held exactly.
   */
  method ParseNaira(raw: string) returns (r: Result<int, Error>)
    ensures r == Parse(raw)
    ensures r.Ok? ==> r.value >= 0
  {
    hide Read, Cleaned, NumberOf, RoundHalfUp, PointMoved;
    var read := Read(Cleaned(raw));
    if read.Err? {
      return Err(NotAnAmount);
    }
    var amount := read.value;
    ReadIsWritten(Cleaned(raw), amount);
    if Empty(amount) {
      return Err(NotAnAmount);
    }
    var whole := if amount.whole == "" then "0" else amount.whole;
    LeadingNought(amount.whole, Fraction(amount));
    var w, f := MovePoint(whole, Fraction(amount), PowerOf(amount));
    MovedIsExact(whole, Fraction(amount), PowerOf(amount), w, f);
    var kobo := NumberOf(PadEnd(f, 2)[..2]);
    var roundUp := if |f| > 2 && DigitOf(f[2]) >= 5 then 1 else 0;
    var total := NumberOf(w) * 100 + kobo + roundUp;
    if total > MAX_SAFE {
      return Err(TooLarge);
    }
    r := Ok(total);
  }

  /** No whole digits read as a nought. */
  lemma {:induction false} LeadingNought(whole: string, fraction: string)
    ensures NumberOf((if whole == "" then "0" else whole) + fraction) == NumberOf(whole + fraction)
  {
    if whole == "" {
      NumberConcat("0", fraction);
      NumberSnoc("", '0');
      assert "" + ['0'] == "0" && whole + fraction == fraction;
    }
  }
}
