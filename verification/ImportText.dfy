/**
 * Reading the cells of an imported row
 * (src/modules/catalog/product-import.ts:751-944, src/modules/catalog/variants.ts:17-45).
 */
module ImportText {
  import opened Common
  import Naira

  function LowerChar(c: char): char {
    if 'A' <= c <= 'Z' then (c as int + 32) as char else c
  }

  /** Lower case, of unaccented letters. */
  function Lower(s: string): (r: string)
    ensures |r| == |s|
  {
    if s == "" then "" else [LowerChar(s[0])] + Lower(s[1..])
  }

  /** What makes two products the same one. */
  function ProductKey(name: string, size: string): string {
    Lower(Trim(name)) + "|" + Lower(Trim(size))
  }

  // -- Counts -----------------------------------------------------------------

  predicate AllZeros(s: string) {
    forall i :: 0 <= i < |s| ==> s[i] == '0'
  }

  /** A whole number of two or more, as a cell writes one. */
  function ReadCount(raw: string): (r: Option<nat>)
    ensures r.Some? ==> r.value >= 2
  {
    var s := Naira.WithoutSeparators(raw);
    var n := Naira.LeadingDigits(s);
    if n == 0 then None
    else if n < |s| && !(s[n] == '.' && n + 1 < |s| && AllZeros(s[n + 1..])) then None
    else
      var count := Naira.NumberOf(s[..n]);
      if 2 <= count <= Naira.MAX_SAFE then Some(count) else None
  }

  function TrailingZeros(s: string): (n: nat)
    ensures n <= |s|
    decreases |s|
  {
    if s == "" || s[|s| - 1] != '0' then 0 else 1 + TrailingZeros(s[..|s| - 1])
  }

  /** A count cell with separators and a trailing `.0` taken off, to be compared as text. */
  function PlainCount(raw: string): string {
    var s := Naira.WithoutSeparators(raw);
    var z := TrailingZeros(s);
    if z > 0 && z < |s| && s[|s| - z - 1] == '.' then s[..|s| - z - 1] else s
  }

  function Decimal(n: nat): (s: string)
    ensures s != ""
  {
    (if n < 10 then "" else Decimal(n / 10)) + [('0' as int + n % 10) as char]
  }

  lemma {:induction false} DecimalIsRead(n: nat)
    ensures Naira.NumberOf(Decimal(n)) == n
  {
    var d := ('0' as int + n % 10) as char;
    if n < 10 {
      Naira.NumberSnoc("", d);
      assert "" + [d] == Decimal(n);
    } else {
      DecimalIsRead(n / 10);
      Naira.NumberSnoc(Decimal(n / 10), d);
    }
  }

  // -- Portions ---------------------------------------------------------------

  /** "1/2 carton": a half of the carton. */
  datatype Portion = Portion(numerator: nat, denominator: nat, unit: string)

  predicate LineBreak(c: char) {
    c == '\n' || c == '\r' || c == '\U{2028}' || c == '\U{2029}'
  }

  function ReadPortion(name: string): (r: Option<Portion>)
    ensures r.Some? ==> 1 <= r.value.numerator < r.value.denominator
  {
    var s := Trim(name);
    var n := Naira.LeadingDigits(s);
    var slash := TrimStart(s[n..]);
    if n == 0 || slash == "" || slash[0] != '/' then None
    else
      var rest := TrimStart(slash[1..]);
      var m := Naira.LeadingDigits(rest);
      if m == 0 || m == |rest| || !IsSpace(rest[m]) then None
      else
        var unit := Trim(rest[m..]);
        var numerator, denominator := Naira.NumberOf(s[..n]), Naira.NumberOf(rest[..m]);
        if unit == "" || exists i :: 0 <= i < |unit| && LineBreak(unit[i]) then None
        else if numerator < 1 || denominator < 2 || numerator >= denominator then None
        else Some(Portion(numerator, denominator, unit))
  }

  // -- Options ----------------------------------------------------------------

  function Split(text: string): (r: seq<string>)
    ensures r != []
  {
    if text == "" then [""]
    else
      var rest := Split(text[1..]);
      if text[0] == '/' then [""] + rest else [[text[0]] + rest[0]] + rest[1..]
  }

  /** Runs of spaces made one. */
  function Collapse(s: string): string {
    if s == "" then ""
    else if IsSpace(s[0]) then
      if |s| > 1 && IsSpace(s[1]) then Collapse(s[1..]) else " " + Collapse(s[1..])
    else [s[0]] + Collapse(s[1..])
  }

  /** `cleanVariantText`. */
  function Clean(text: string): string {
    Collapse(Trim(text))
  }

  function CleanAll(parts: seq<string>): (r: seq<string>)
    ensures |r| == |parts|
  {
    if parts == [] then [] else [Clean(parts[0])] + CleanAll(parts[1..])
  }

  function LowerAll(parts: seq<string>): (r: seq<string>)
    ensures |r| == |parts| && forall i :: 0 <= i < |r| ==> r[i] == Lower(parts[i])
  {
    if parts == [] then [] else [Lower(parts[0])] + LowerAll(parts[1..])
  }

  function Join(parts: seq<string>): string {
    if parts == [] then "" else if |parts| == 1 then parts[0] else parts[0] + " / " + Join(parts[1..])
  }

  function NotEmpty(parts: seq<string>): seq<string> {
    if parts == [] then [] else (if parts[0] == "" then [] else [parts[0]]) + NotEmpty(parts[1..])
  }

  /** `variantKey`: what two options of one product may not share. */
  function VariantKey(values: seq<string>): string {
    Lower(Join(NotEmpty(CleanAll(values))))
  }

  predicate Distinct(parts: seq<string>) {
    forall i, j :: 0 <= i < j < |parts| ==> parts[i] != parts[j]
  }

  datatype OptionProblem =
    | NoOption
    | TypeDiffers
    | TypeHasEmptyPart
    | TooManyParts
    | PartsRepeat
    | TypeNeeded
    | WrongParts
    | OptionTooLong

  datatype ReadOption = ReadOption(attributes: seq<string>, values: seq<string>)

  const MAX_ATTRIBUTES: nat := 2
  const OPTION_LIMIT: nat := 40

  /** The names an option's values are given under. */
  function AttributeNames(rawType: string, rawOption: string, values: seq<string>, attributes: Option<seq<string>>): Result<seq<string>, OptionProblem> {
    var typed := CleanAll(Split(rawType));
    if attributes.Some? then
      if rawType != "" && Lower(Join(typed)) != Lower(Join(attributes.value)) then Err(TypeDiffers) else Ok(attributes.value)
    else if rawType != "" then
      if "" in typed then Err(TypeHasEmptyPart)
      else if |typed| > MAX_ATTRIBUTES then Err(TooManyParts)
      else if !Distinct(LowerAll(typed)) then Err(PartsRepeat)
      else Ok(typed)
    else if |values| == 1 then Ok(["Option"])
    else Err(TypeNeeded)
  }

  /** `readOption`. */
  function ReadOptionCells(rawType: string, rawOption: string, attributes: Option<seq<string>>): Result<ReadOption, OptionProblem> {
    if rawOption == "" then Err(NoOption)
    else
      var values := CleanAll(Split(rawOption));
      var names :- AttributeNames(rawType, rawOption, values, attributes);
      if |values| != |names| || "" in values then Err(WrongParts)
      else if exists part :: part in names + values && |part| > OPTION_LIMIT then Err(OptionTooLong)
      else Ok(ReadOption(names, values))
  }

  // -- Codes ------------------------------------------------------------------

  /** A long code a spreadsheet has turned into a rounded number: `6.154E+12`. */
  predicate RoundedCode(raw: string) {
    var n := Naira.LeadingDigits(raw);
    && n > 0
    && var rest := raw[n..];
    && var m := if rest != "" && rest[0] == '.' then Naira.LeadingDigits(rest[1..]) else 0;
    && var power := if m > 0 then rest[1 + m..] else rest;
    && power != "" && (power[0] == 'e' || power[0] == 'E')
    && var digits := if |power| > 1 && power[1] == '+' then power[2..] else power[1..];
    && digits != "" && Naira.AllDigits(digits)
  }

  predicate Alphanumeric(c: char) {
    '0' <= c <= '9' || 'a' <= c <= 'z' || 'A' <= c <= 'Z'
  }

  function Upper(c: char): char {
    if 'a' <= c <= 'z' then (c as int - 32) as char else c
  }

  /** Letters and digits in capitals, every run of anything else a dash. */
  function Dashed(s: string): string {
    if s == "" then ""
    else if Alphanumeric(s[0]) then [Upper(s[0])] + Dashed(s[1..])
    else if |s| > 1 && !Alphanumeric(s[1]) then Dashed(s[1..])
    else "-" + Dashed(s[1..])
  }

  function WithoutEndDashes(s: string): string {
    var from := if s != "" && s[0] == '-' then s[1..] else s;
    if from != "" && from[|from| - 1] == '-' then from[..|from| - 1] else from
  }

  /** `generateSku`. */
  function GenerateSku(name: string): string {
    var slug := WithoutEndDashes(Dashed(name));
    var cut := if |slug| <= 48 then slug else slug[..48];
    if cut == "" then "PRODUCT" else cut
  }

  /** The `n`th try for a code: the plain one, then `-2`, `-3` and so on. */
  function Numbered(sku: string, n: nat): string {
    if n <= 1 then sku else sku + "-" + Decimal(n)
  }

  lemma {:induction false} Suffix(sku: string, n: nat)
    requires n >= 2
    ensures |Numbered(sku, n)| > |sku| && Numbered(sku, n)[|sku| + 1..] == Decimal(n)
  {
  }

  lemma {:induction false} NumberedDiffer(sku: string, m: nat, n: nat)
    requires 1 <= m < n
    ensures Numbered(sku, m) != Numbered(sku, n)
  {
    Suffix(sku, n);
    DecimalIsRead(n);
    if m > 1 {
      Suffix(sku, m);
      DecimalIsRead(m);
    }
  }

  /** The first try nobody uses. `left` holds every code that could still be in the way. */
  function FirstFree(sku: string, used: set<string>, left: set<string>, n: nat): (r: string)
    requires n >= 1 && left <= used
    requires forall k :: k >= n && Numbered(sku, k) in used ==> Numbered(sku, k) in left
    ensures r !in used
    decreases |left|
  {
    var s := Numbered(sku, n);
    if s !in used then s
    else
      StillLeft(sku, used, left, n);
      FirstFree(sku, used, left - {s}, n + 1)
  }

  lemma {:induction false} StillLeft(sku: string, used: set<string>, left: set<string>, n: nat)
    requires n >= 1 && Numbered(sku, n) in used
    requires forall k :: k >= n && Numbered(sku, k) in used ==> Numbered(sku, k) in left
    ensures Numbered(sku, n) in left
    ensures forall k :: k >= n + 1 && Numbered(sku, k) in used ==> Numbered(sku, k) in left - {Numbered(sku, n)}
  {
    forall k | k >= n + 1 && Numbered(sku, k) in used
      ensures Numbered(sku, k) in left - {Numbered(sku, n)}
    {
      NumberedDiffer(sku, n, k);
    }
  }

  /** The `n`th try, and every one before it in use. */
  ghost predicate IsFirstFree(plain: string, used: set<string>, n: nat, sku: string) {
    sku == Numbered(plain, n) && forall k :: 1 <= k < n ==> Numbered(plain, k) in used
  }

  /** `uniqueSku`: the search ends, because only finitely many codes are in use and every try is a new one. */
  method UniqueSku(name: string, used: set<string>) returns (sku: string, after: set<string>)
    ensures sku == FirstFree(GenerateSku(name), used, used, 1)
    ensures sku !in used && after == used + {sku}
    ensures exists n :: n >= 1 && IsFirstFree(GenerateSku(name), used, n, sku)
  {
    var plain := GenerateSku(name);
    sku := plain;
    var n := 1;
    ghost var left := used;
    while sku in used
      invariant n >= 1 && sku == Numbered(plain, n) && left <= used
      invariant forall k :: k >= n && Numbered(plain, k) in used ==> Numbered(plain, k) in left
      invariant FirstFree(plain, used, left, n) == FirstFree(plain, used, used, 1)
      invariant forall k :: 1 <= k < n ==> Numbered(plain, k) in used
      decreases |left|
    {
      StillLeft(plain, used, left, n);
      left := left - {sku};
      n := n + 1;
      sku := plain + "-" + Decimal(n);
    }
    assert IsFirstFree(plain, used, n, sku);
    after := used + {sku};
  }
}
