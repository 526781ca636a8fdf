/**
 * GS1 check digits, section 7.9.1 of the GS1 General Specifications
 * (src/modules/catalog/barcode.ts:33-122).
 */
module Barcode {
  import opened Common

  /** One digit, as a number. */
  type Digit = d: nat | d < 10

  datatype Symbology = EAN8 | UPCA | EAN13 | ITF14 | INTERNAL | CODE128

  /** Three for the digits at odd places from the right, the last one first. */
  function Weight(fromRight: nat): nat {
    if fromRight % 2 == 0 then 3 else 1
  }

  /** The weighted sum, the last digit weighing `Weight(at)`. */
  function Weighted(data: seq<Digit>, at: nat): nat
    decreases |data|
  {
    if data == [] then 0
    else data[|data| - 1] * Weight(at) + Weighted(data[..|data| - 1], at + 1)
  }

  /** `gs1CheckDigit`. */
  function CheckDigit(data: seq<Digit>): Digit {
    (10 - Weighted(data, 0) % 10) % 10
  }

  /** A whole code's sum: its last digit is the check digit and weighs one. */
  function CodeSum(code: seq<Digit>): nat {
    if code == [] then 0 else code[|code| - 1] + Weighted(code[..|code| - 1], 0)
  }

  /** The last digit is the check digit of the rest. */
  predicate Checks(code: seq<Digit>) {
    code != [] && code[|code| - 1] == CheckDigit(code[..|code| - 1])
  }

  /** A code carries its check digit exactly when its weighted sum is a multiple of ten, whatever its length. */
  lemma {:induction false} ChecksExactly(code: seq<Digit>)
    requires code != []
    ensures Checks(code) <==> CodeSum(code) % 10 == 0
  {
    var s, c := Weighted(code[..|code| - 1], 0), code[|code| - 1];
    TenComplement(s, c);
  }

  lemma {:induction false} TenComplement(s: nat, c: nat)
    requires c < 10
    ensures c == (10 - s % 10) % 10 <==> (c + s) % 10 == 0
  {
    assert s == 10 * (s / 10) + s % 10;
    assert (c + s) % 10 == (c + s % 10) % 10;
  }

  /** The digit `gs1CheckDigit` gives brings the sum to a multiple of ten. */
  lemma {:induction false} AppendingChecks(data: seq<Digit>)
    ensures Checks(data + [CheckDigit(data)])
    ensures CodeSum(data + [CheckDigit(data)]) % 10 == 0
  {
    var code := data + [CheckDigit(data)];
    assert code[..|code| - 1] == data;
    ChecksExactly(code);
  }

  // -- What a mistake does ----------------------------------------------------

  /** The weight of the digit at `i` in a code: one for the check digit, then three and one in turn. */
  function WeightAt(n: nat, i: nat): nat
    requires i < n
  {
    if (n - 1 - i) % 2 == 0 then 1 else 3
  }

  lemma {:induction false} WeightedChange(data: seq<Digit>, at: nat, i: nat, d: Digit)
    requires i < |data|
    ensures Weighted(data[i := d], at) == Weighted(data, at) + (d as int - data[i] as int) * Weight(at + |data| - 1 - i)
    decreases |data|
  {
    var n := |data| - 1;
    if i == n {
      assert data[i := d][..n] == data[..n];
      Spread(d as int, data[i] as int, Weight(at));
    } else {
      assert data[i := d][..n] == data[..n][i := d];
      WeightedChange(data[..n], at + 1, i, d);
    }
  }

  lemma {:induction false} Spread(x: int, y: int, w: int)
    ensures x * w == y * w + (x - y) * w
  {
  }

  lemma {:induction false} CodeSumChange(code: seq<Digit>, i: nat, d: Digit)
    requires i < |code|
    ensures CodeSum(code[i := d]) == CodeSum(code) + (d as int - code[i] as int) * WeightAt(|code|, i)
  {
    var n := |code| - 1;
    if i < n {
      assert code[i := d][..n] == code[..n][i := d];
      WeightedChange(code[..n], 0, i, d);
      assert Weight(n - 1 - i) == WeightAt(|code|, i);
    } else {
      assert code[i := d][..n] == code[..n];
    }
  }

  /** Any single digit read wrong is caught, in a code of any length. */
  lemma {:induction false} SubstitutionIsCaught(code: seq<Digit>, i: nat, d: Digit)
    requires Checks(code) && i < |code| && d != code[i]
    ensures !Checks(code[i := d])
  {
    CodeSumChange(code, i, d);
    ChecksExactly(code);
    ChecksExactly(code[i := d]);
    NoMultiple(CodeSum(code), d as int - code[i] as int, WeightAt(|code|, i));
  }

  lemma {:induction false} NoMultiple(s: int, e: int, w: int)
    requires s % 10 == 0 && -10 < e < 10 && e != 0 && (w == 1 || w == 3)
    ensures (s + e * w) % 10 != 0
  {
  }

  function Swapped(code: seq<Digit>, i: nat): seq<Digit>
    requires i + 1 < |code|
  {
    code[i := code[i + 1]][i + 1 := code[i]]
  }

  /** Two neighbours swapped are caught, except when they are equal or five apart. */
  lemma {:induction false} SwapIsMissedExactly(code: seq<Digit>, i: nat)
    requires Checks(code) && i + 1 < |code|
    ensures Checks(Swapped(code, i)) <==> Abs(code[i] as int - code[i + 1] as int) in {0, 5}
  {
    hide Checks, CodeSum, WeightAt;
    ChecksExactly(code);
    ChecksExactly(Swapped(code, i));
    SwapChange(code, i);
    NeighbouringWeights(|code|, i);
    TwiceTheDifference(CodeSum(code), code[i + 1] as int - code[i] as int, WeightAt(|code|, i));
  }

  lemma {:induction false} SwapChange(code: seq<Digit>, i: nat)
    requires i + 1 < |code|
    ensures var e := code[i + 1] as int - code[i] as int;
      CodeSum(Swapped(code, i)) == CodeSum(code) + e * WeightAt(|code|, i) - e * WeightAt(|code|, i + 1)
  {
    hide CodeSum, WeightAt;
    var x, y := code[i], code[i + 1];
    CodeSumChange(code, i, y);
    CodeSumChange(code[i := y], i + 1, x);
    Opposite(y as int - x as int, WeightAt(|code|, i + 1));
  }

  lemma {:induction false} Opposite(e: int, w: int)
    ensures (0 - e) * w == 0 - e * w
  {
  }

  lemma {:induction false} NeighbouringWeights(n: nat, i: nat)
    requires i + 1 < n
    ensures WeightAt(n, i + 1) == 4 - WeightAt(n, i) && (WeightAt(n, i) == 1 || WeightAt(n, i) == 3)
  {
  }

  lemma {:induction false} TwiceTheDifference(s: int, e: int, w: int)
    requires s % 10 == 0 && -10 < e < 10 && (w == 1 || w == 3)
    ensures (s + e * w - e * (4 - w)) % 10 == 0 <==> e == 0 || e == 5 || e == -5
  {
    if w == 1 {
      assert s + e * w - e * (4 - w) == s - 2 * e;
    } else {
      assert s + e * w - e * (4 - w) == s + 2 * e;
    }
  }

  // -- Texts ------------------------------------------------------------------

  predicate IsDigits(code: string) {
    code != "" && forall i :: 0 <= i < |code| ==> '0' <= code[i] <= '9'
  }

  function DigitsOf(code: string): (r: seq<Digit>)
    requires forall i :: 0 <= i < |code| ==> '0' <= code[i] <= '9'
    ensures |r| == |code|
    ensures forall i :: 0 <= i < |r| ==> r[i] == code[i] as int - '0' as int
  {
    if code == "" then [] else [code[0] as int - '0' as int] + DigitsOf(code[1..])
  }

  function Shown(d: Digit): char {
    ('0' as int + d) as char
  }

  function Gs1Length(n: nat): Option<Symbology> {
    if n == 8 then Some(EAN8) else if n == 12 then Some(UPCA)
    else if n == 13 then Some(EAN13) else if n == 14 then Some(ITF14) else None
  }

  /** `hasValidCheckDigit`: digits only, of a length that carries a check digit, and the check digit right. */
  predicate HasValidCheckDigit(code: string) {
    IsDigits(code) && Gs1Length(|code|).Some? && Checks(DigitsOf(code))
  }

  /** `detectSymbology`. */
  function DetectSymbology(code: string): Symbology {
    var trimmed := Trim(code);
    if IsDigits(trimmed) && Gs1Length(|trimmed|).Some? then
      var symbology := Gs1Length(|trimmed|).value;
      if symbology == EAN13 && trimmed[0] == '2' then INTERNAL else symbology
    else
      CODE128
  }

  /** `requiresCheckDigit`. */
  predicate RequiresCheckDigit(symbology: Symbology) {
    symbology != CODE128
  }

  /** A mistyped digit in any code that must carry a check digit is refused. */
  lemma {:induction false} MistypedIsRefused(code: string, i: nat, c: char)
    requires HasValidCheckDigit(code) && i < |code| && c != code[i]
    ensures !HasValidCheckDigit(code[i := c])
  {
    hide Checks, Gs1Length;
    if IsDigits(code[i := c]) {
      assert code[i := c][i] == c;
      var d := c as int - '0' as int;
      OneDigit(code, i, c);
      SubstitutionIsCaught(DigitsOf(code), i, d);
    }
  }

  lemma {:induction false} OneDigit(code: string, i: nat, c: char)
    requires IsDigits(code) && i < |code| && '0' <= c <= '9'
    ensures IsDigits(code[i := c])
    ensures DigitsOf(code[i := c]) == DigitsOf(code)[i := c as int - '0' as int]
  {
    var changed := code[i := c];
    forall j | 0 <= j < |code|
      ensures '0' <= changed[j] <= '9'
    {
      assert changed[j] == if j == i then c else code[j];
    }
  }

  /** Digits as text. */
  function Text(digits: seq<Digit>): (r: string)
    ensures |r| == |digits| && forall i :: 0 <= i < |r| ==> r[i] == Shown(digits[i]) && '0' <= r[i] <= '9'
  {
    if digits == [] then "" else [Shown(digits[0])] + Text(digits[1..])
  }

  lemma {:induction false} TextIsRead(digits: seq<Digit>)
    ensures DigitsOf(Text(digits)) == digits
  {
  }

  /** Twelve digits from a two, and their check digit, are a valid code of the internal kind. */
  lemma {:induction false} InternalIsValid(body: seq<Digit>)
    requires |body| == 12 && body[0] == 2
    ensures var code := Text(body + [CheckDigit(body)]);
      HasValidCheckDigit(code) && DetectSymbology(code) == INTERNAL
  {
    hide Checks, CheckDigit, Trim, DigitsOf, Text;
    var digits := body + [CheckDigit(body)];
    AppendingChecks(body);
    TextIsRead(digits);
    NothingToTrim(Text(digits));
    assert Text(digits)[0] == Shown(2);
  }

  function WithoutSpaces(s: string): string {
    if s == "" then "" else (if IsSpace(s[0]) then "" else [s[0]]) + WithoutSpaces(s[1..])
  }

  /** `resolveBarcode`, of a code somebody gave: spaces dropped, and refused when its check digit is wrong. */
  function Resolve(code: string): Option<string> {
    var plain := WithoutSpaces(Trim(code));
    if RequiresCheckDigit(DetectSymbology(plain)) && !HasValidCheckDigit(plain) then None else Some(plain)
  }

  lemma {:induction false} NoSpaces(code: string)
    requires IsDigits(code)
    ensures Trim(code) == code && WithoutSpaces(code) == code
  {
    NothingToTrim(code);
    DigitsStay(code);
  }

  lemma {:induction false} DigitsStay(code: string)
    requires forall i :: 0 <= i < |code| ==> '0' <= code[i] <= '9'
    ensures WithoutSpaces(code) == code
  {
    if code != "" {
      DigitsStay(code[1..]);
    }
  }

  /**
   * A code of digits is told by its length and, of thirteen, by a leading two; one
   * that carries a check digit is taken as it is exactly when its weighted sum is a
   * multiple of ten, and one of any other length is taken as it is.
   */
  lemma {:induction false} DigitsResolveExactly(code: string)
    requires IsDigits(code)
    ensures DetectSymbology(code) ==
      if |code| == 8 then EAN8 else if |code| == 12 then UPCA
      else if |code| == 13 then (if code[0] == '2' then INTERNAL else EAN13)
      else if |code| == 14 then ITF14 else CODE128
    ensures Resolve(code) ==
      if |code| in {8, 12, 13, 14} && CodeSum(DigitsOf(code)) % 10 != 0 then None else Some(code)
  {
    hide Checks, CodeSum, Trim, WithoutSpaces, DigitsOf;
    NoSpaces(code);
    ChecksExactly(DigitsOf(code));
  }

  // -- The loops --------------------------------------------------------------

  /** `gs1CheckDigit` as it runs, left to right. */
  method Gs1CheckDigit(data: seq<Digit>) returns (check: Digit)
    ensures check == CheckDigit(data)
    ensures CodeSum(data + [check]) % 10 == 0
  {
    AppendingChecks(data);
    var sum: nat := 0;
    for i := 0 to |data|
      invariant sum == Weighted(data[..i], |data| - i)
    {
      var fromRight := |data| - 1 - i;
      var weight := if fromRight % 2 == 0 then 3 else 1;
      sum := sum + data[i] as int * weight;
      assert data[..i + 1][..i] == data[..i];
    }
    assert data[..|data|] == data;
    check := (10 - sum % 10) % 10;
  }

  /** `generateInternalCode`, from eleven drawn digits. */
  method GenerateInternalCode(drawn: seq<Digit>) returns (code: string)
    requires |drawn| == 11
    ensures |code| == 13 && code[0] == '2' && forall i :: 0 <= i < 11 ==> code[i + 1] == Shown(drawn[i])
    ensures HasValidCheckDigit(code) && DetectSymbology(code) == INTERNAL
  {
    var body: seq<Digit> := [2];
    for i := 0 to 11
      invariant body == [2] + drawn[..i]
    {
      body := body + [drawn[i]];
      assert drawn[..i + 1] == drawn[..i] + [drawn[i]];
    }
    var check := Gs1CheckDigit(body);
    InternalIsValid(body);
    code := Text(body + [check]);
  }

  lemma {:induction false} NothingToTrim(code: string)
    requires IsDigits(code)
    ensures Trim(code) == code
  {
  }
}
