/**
 * What an imported row becomes, said of its cells: its units, how many pieces each
 * holds and what each sells for, and the product and options made of it
 * (src/modules/catalog/product-import.ts:288-665, 745-880).
 */
module ImportOutcomes {
  import opened Common
  import opened ImportText
  import opened SellingUnits
  import opened ProductImport
  import opened ImportTheorems
  import Barcode
  import Naira

  // -- Counts and portions as they are written --------------------------------

  lemma {:induction false} DecimalIsDigits(n: nat)
    ensures Naira.AllDigits(Decimal(n))
  {
    if n >= 10 {
      DecimalIsDigits(n / 10);
    }
  }

  lemma {:induction false} LeadingOfDigits(digits: string, rest: string)
    requires Naira.AllDigits(digits) && (rest == "" || !Naira.IsDigit(rest[0]))
    ensures Naira.LeadingDigits(digits + rest) == |digits|
  {
    if digits == "" {
      assert digits + rest == rest;
    } else {
      assert (digits + rest)[1..] == digits[1..] + rest;
      LeadingOfDigits(digits[1..], rest);
    }
  }

  lemma {:induction false} DigitsStand(digits: string)
    requires Naira.AllDigits(digits)
    ensures Naira.WithoutSeparators(digits) == digits
  {
    if digits != "" {
      DigitsStand(digits[1..]);
      assert Naira.IsDigit(digits[0]);
    }
  }

  /** A whole number of two or more, written plainly, is read as itself. */
  lemma {:induction false} CountIsRead(n: nat)
    requires 2 <= n <= Naira.MAX_SAFE
    ensures ReadCount(Decimal(n)) == Some(n)
  {
    DecimalIsDigits(n);
    DigitsStand(Decimal(n));
    LeadingOfDigits(Decimal(n), "");
    assert Decimal(n) + "" == Decimal(n);
    assert Decimal(n)[..|Decimal(n)|] == Decimal(n);
    DecimalIsRead(n);
  }

  /** A unit name that may stand after a fraction: it begins and ends with no space and breaks no line. */
  predicate PlainName(unit: string) {
    unit != "" && Trim(unit) == unit && !IsSpace(unit[0]) && forall i :: 0 <= i < |unit| ==> !LineBreak(unit[i])
  }

  lemma {:induction false} StartStands(s: string)
    requires s == "" || !IsSpace(s[0])
    ensures TrimStart(s) == s
  {
  }

  lemma {:induction false} EndStands(x: string, y: string)
    requires y != "" && TrimEnd(y) == y
    ensures TrimEnd(x + y) == x + y
  {
    assert (x + y)[|x + y| - 1] == y[|y| - 1];
    if IsSpace(y[|y| - 1]) {
      TrimEndShrinks(y[..|y| - 1]);
    }
  }

  lemma {:induction false} TrimEndShrinks(s: string)
    ensures |TrimEnd(s)| <= |s|
    decreases |s|
  {
    if s != "" && IsSpace(s[|s| - 1]) {
      TrimEndShrinks(s[..|s| - 1]);
    }
  }

  lemma {:induction false} NamedEnds(unit: string)
    requires PlainName(unit)
    ensures TrimEnd(unit) == unit
  {
    StartStands(unit);
  }

  /** A fraction below one written before a unit's name, "1/2 carton", is read as that part of that unit. */
  lemma {:induction false} PortionIsRead(n: nat, m: nat, unit: string)
    requires 1 <= n < m && PlainName(unit)
    ensures ReadPortion(Decimal(n) + "/" + Decimal(m) + " " + unit) == Some(Portion(n, m, unit))
  {
    hide TrimStart, TrimEnd, Decimal, Naira.NumberOf, Naira.LeadingDigits, Trim;
    var a, c := Decimal(n), Decimal(m);
    var name := a + "/" + c + " " + unit;
    var rest := c + (" " + unit);
    assert name == a + ("/" + rest);
    NameStands(n, m, unit);
    LeadingDecimal(n, "/" + rest);
    assert name[|a|..] == "/" + rest && name[..|a|] == a;
    SlashStands(n, m, unit);
    assert ("/" + rest)[1..] == rest;
    LeadingDecimal(m, " " + unit);
    assert rest[|c|..] == " " + unit && rest[..|c|] == c;
    SpaceGoes(unit);
    DecimalIsRead(n);
    DecimalIsRead(m);
  }

  lemma {:induction false} LeadingDecimal(n: nat, rest: string)
    requires rest == "" || !Naira.IsDigit(rest[0])
    ensures Decimal(n) != "" && Naira.LeadingDigits(Decimal(n) + rest) == |Decimal(n)| > 0
  {
    DecimalIsDigits(n);
    LeadingOfDigits(Decimal(n), rest);
  }

  lemma {:induction false} DecimalStarts(n: nat)
    ensures !IsSpace(Decimal(n)[0])
  {
    DecimalIsDigits(n);
    assert Naira.IsDigit(Decimal(n)[0]);
  }

  lemma {:induction false} NameStands(n: nat, m: nat, unit: string)
    requires PlainName(unit)
    ensures Trim(Decimal(n) + "/" + Decimal(m) + " " + unit) == Decimal(n) + "/" + Decimal(m) + " " + unit
  {
    hide Decimal, TrimStart, TrimEnd;
    NamedEnds(unit);
    EndStands(Decimal(n) + "/" + Decimal(m) + " ", unit);
    DecimalStarts(n);
    assert (Decimal(n) + "/" + Decimal(m) + " " + unit)[0] == Decimal(n)[0];
    StartStands(Decimal(n) + "/" + Decimal(m) + " " + unit);
  }

  lemma {:induction false} SlashStands(n: nat, m: nat, unit: string)
    ensures TrimStart("/" + (Decimal(m) + (" " + unit))) == "/" + (Decimal(m) + (" " + unit))
    ensures TrimStart(Decimal(m) + (" " + unit)) == Decimal(m) + (" " + unit)
  {
    hide Decimal;
    DecimalStarts(m);
    StartStands("/" + (Decimal(m) + (" " + unit)));
    StartStands(Decimal(m) + (" " + unit));
  }

  lemma {:induction false} SpaceGoes(unit: string)
    requires PlainName(unit)
    ensures Trim(" " + unit) == unit && IsSpace((" " + unit)[0])
  {
    assert (" " + unit)[1..] == unit;
    StartStands(unit);
  }

  // -- A row's units ----------------------------------------------------------

  /** The cell holds this price, or is blank for none. */
  predicate PriceReads(cell: string, price: Option<int>) {
    if cell == "" then price == None else Naira.Parse(cell).Ok? && price == Some(Naira.Parse(cell).value)
  }

  predicate CalledBefore(units: seq<Draft>, i: nat, name: string)
    requires i <= |units|
  {
    exists w :: 0 <= w < i && Lower(units[w].name) == Lower(name)
  }

  /**
   * The unit holds as many pieces as its column says: the number in its count cell,
   * or, for a part of a unit already listed, that part of what the other holds.
   */
  predicate Sized(slot: Slot, units: seq<Draft>, i: nat)
    requires i < |units|
  {
    match ReadPortion(slot.name)
    case None => ReadCount(slot.count) == Some(units[i].factor)
    case Some(part) =>
      && (forall w :: 0 <= w < i && Lower(units[w].name) == Lower(part.unit) ==>
            units[i].factor * part.denominator == part.numerator * units[w].factor)
      && ((CalledBefore(units, i, part.unit) && slot.count == "") || ReadCount(slot.count) == Some(units[i].factor))
  }

  predicate FromSlot(slot: Slot, units: seq<Draft>, i: nat)
    requires i < |units|
  {
    units[i].name == slot.name && PriceReads(slot.price, units[i].price) && Sized(slot, units, i)
  }

  lemma {:induction false} PriceIsRead(cell: string)
    ensures ReadPrice(cell).problems == [] ==> PriceReads(cell, ReadPrice(cell).value)
  {
  }

  // The columns that name a unit outright, and those that name a part of one.

  function Plain(slots: seq<Slot>): seq<Slot> {
    if slots == [] then []
    else (if slots[0].name != "" && ReadPortion(slots[0].name).None? then [slots[0]] else []) + Plain(slots[1..])
  }

  function Parts(slots: seq<Slot>): seq<Slot> {
    if slots == [] then []
    else (if slots[0].name != "" && ReadPortion(slots[0].name).Some? then [slots[0]] else []) + Parts(slots[1..])
  }

  lemma {:induction false} PlainOrPart(slots: seq<Slot>, slot: Slot)
    ensures slot in Plain(slots) <==> slot in slots && slot.name != "" && ReadPortion(slot.name).None?
    ensures slot in Parts(slots) <==> slot in slots && slot.name != "" && ReadPortion(slot.name).Some?
  {
    hide ReadPortion;
    if slots != [] {
      assert slots == [slots[0]] + slots[1..];
      PlainOrPart(slots[1..], slot);
    }
  }

  predicate PlainDraft(d: Draft, slot: Slot) {
    d.name == slot.name && PriceReads(slot.price, d.price) && ReadCount(slot.count) == Some(d.factor)
  }

  predicate PartDraft(p: PortionDraft, slot: Slot) {
    && p.name == slot.name && PriceReads(slot.price, p.price) && ReadPortion(slot.name) == Some(p.part)
    && if slot.count == "" then p.count == None else p.count.Some? && ReadCount(slot.count) == p.count
  }

  /** The columns read, when none of them has anything wrong with it. */
  lemma {:induction false} SlotsAreRead(d: Drafting, slots: seq<Slot>)
    requires ReadSlots(d, slots).problems == []
    ensures d.problems == []
    ensures var r := ReadSlots(d, slots);
      && |r.drafts| == |d.drafts| + |Plain(slots)| && r.drafts[..|d.drafts|] == d.drafts
      && (forall k :: 0 <= k < |Plain(slots)| ==> PlainDraft(r.drafts[|d.drafts| + k], Plain(slots)[k]))
      && |r.portions| == |d.portions| + |Parts(slots)| && r.portions[..|d.portions|] == d.portions
      && (forall k :: 0 <= k < |Parts(slots)| ==> PartDraft(r.portions[|d.portions| + k], Parts(slots)[k]))
    decreases slots
  {
    hide ReadPortion, ReadCount, ReadPrice, PriceReads, ReadSlot;
    if slots != [] {
      var d1 := ReadSlot(d, slots[0]);
      SlotsAreRead(d1, slots[1..]);
      OneSlotIsRead(d, slots[0]);
      var r := ReadSlots(d, slots);
      assert r.drafts[..|d.drafts|] == r.drafts[..|d1.drafts|][..|d.drafts|];
      assert r.portions[..|d.portions|] == r.portions[..|d1.portions|][..|d.portions|];
      forall k | 0 <= k < |Plain(slots)|
        ensures PlainDraft(r.drafts[|d.drafts| + k], Plain(slots)[k])
      {
        if |d1.drafts| > |d.drafts| && k == 0 {
          assert r.drafts[|d.drafts|] == r.drafts[..|d1.drafts|][|d.drafts|];
        }
      }
      forall k | 0 <= k < |Parts(slots)|
        ensures PartDraft(r.portions[|d.portions| + k], Parts(slots)[k])
      {
        if |d1.portions| > |d.portions| && k == 0 {
          assert r.portions[|d.portions|] == r.portions[..|d1.portions|][|d.portions|];
        }
      }
    }
  }

  lemma {:induction false} OneSlotIsRead(d: Drafting, slot: Slot)
    requires ReadSlot(d, slot).problems == []
    ensures d.problems == []
    ensures var r := ReadSlot(d, slot);
      && r.drafts[..|d.drafts|] == d.drafts && r.portions[..|d.portions|] == d.portions
      && (if slot.name != "" && ReadPortion(slot.name).None?
          then |r.drafts| == |d.drafts| + 1 && PlainDraft(r.drafts[|d.drafts|], slot) else r.drafts == d.drafts)
      && (if slot.name != "" && ReadPortion(slot.name).Some?
          then |r.portions| == |d.portions| + 1 && PartDraft(r.portions[|d.portions|], slot) else r.portions == d.portions)
  {
    hide ReadPortion, ReadCount, ReadPrice, PriceReads;
    PriceIsRead(slot.price);
  }

  /** A part, settled against the units listed before it. */
  predicate SettledAs(units: seq<Draft>, i: nat, p: PortionDraft)
    requires i < |units|
  {
    && units[i].name == p.name && units[i].price == p.price
    && (forall w :: 0 <= w < i && Lower(units[w].name) == Lower(p.part.unit) ==>
          units[i].factor * p.part.denominator == p.part.numerator * units[w].factor)
    && (p.count.Some? ==> p.count == Some(units[i].factor))
    && (p.count.None? ==> CalledBefore(units, i, p.part.unit))
  }

  lemma {:induction false} NamedIs(drafts: seq<Draft>, name: string)
    ensures match DraftNamed(drafts, name)
      case None => !CalledBefore(drafts, |drafts|, name)
      case Some(d) => exists w :: 0 <= w < |drafts| && drafts[w] == d && Lower(drafts[w].name) == Lower(name)
  {
    if drafts != [] && Lower(drafts[0].name) != Lower(name) {
      NamedIs(drafts[1..], name);
      assert forall w :: 0 < w < |drafts| ==> drafts[w] == drafts[1..][w - 1];
      if DraftNamed(drafts[1..], name).Some? {
        var w :| 0 <= w < |drafts[1..]| && drafts[1..][w] == DraftNamed(drafts[1..], name).value;
        assert drafts[w + 1] == drafts[1..][w];
      }
    }
  }

  predicate NamesDiffer(units: seq<Draft>) {
    forall i, j :: 0 <= i < j < |units| ==> Lower(units[i].name) != Lower(units[j].name)
  }

  lemma {:induction false} Exactly(times: nat, m: nat)
    requires m > 0 && times % m == 0
    ensures times / m * m == times
  {
  }

  lemma {:induction false} OnePartSettles(drafts: seq<Draft>, p: PortionDraft)
    requires p.part.denominator > 0 && SettlePortion(drafts, p).problems == [] && NamesDiffer(drafts)
    ensures var r := SettlePortion(drafts, p).value;
      |r| == |drafts| + 1 && r[..|drafts|] == drafts && SettledAs(r, |drafts|, p)
  {
    hide Lower, SettledAs, NamesDiffer, CalledBefore, DraftNamed;
    NamedIs(drafts, p.part.unit);
    var whole := DraftNamed(drafts, p.part.unit);
    var r := SettlePortion(drafts, p).value;
    if whole.Some? {
      var w :| 0 <= w < |drafts| && drafts[w] == whole.value && Lower(drafts[w].name) == Lower(p.part.unit);
      var times := whole.value.factor * p.part.numerator;
      Exactly(times, p.part.denominator);
      PartOf(drafts, p, w, r[|drafts|]);
    } else {
      OnItsOwn(drafts, p);
    }
  }

  lemma {:induction false} PartOf(drafts: seq<Draft>, p: PortionDraft, w: nat, d: Draft)
    requires NamesDiffer(drafts) && w < |drafts| && Lower(drafts[w].name) == Lower(p.part.unit)
    requires d.name == p.name && d.price == p.price && (p.count.Some? ==> p.count.value == d.factor)
    requires d.factor * p.part.denominator == drafts[w].factor * p.part.numerator
    ensures SettledAs(drafts + [d], |drafts|, p)
  {
    hide Lower;
    var r := drafts + [d];
    assert r[w] == drafts[w];
    forall v | 0 <= v < |drafts| && Lower(r[v].name) == Lower(p.part.unit)
      ensures v == w
    {
    }
  }

  lemma {:induction false} OnItsOwn(drafts: seq<Draft>, p: PortionDraft)
    requires p.count.Some? && !CalledBefore(drafts, |drafts|, p.part.unit)
    ensures SettledAs(drafts + [Draft(p.name, p.count.value, p.price)], |drafts|, p)
  {
    hide Lower;
  }

  lemma {:induction false} PrefixDiffers(units: seq<Draft>, n: nat)
    requires NamesDiffer(units) && n <= |units|
    ensures NamesDiffer(units[..n])
  {
  }

  lemma {:induction false} SettledStays(units: seq<Draft>, n: nat, i: nat, p: PortionDraft)
    requires i < n <= |units| && SettledAs(units[..n], i, p)
    ensures SettledAs(units, i, p)
  {
    hide Lower;
    assert forall w :: 0 <= w < n ==> units[..n][w] == units[w];
  }

  lemma {:induction false} PartsOnlyGrow(drafts: seq<Draft>, portions: seq<PortionDraft>)
    requires forall i :: 0 <= i < |portions| ==> portions[i].part.denominator > 0
    ensures drafts <= SettlePortions(drafts, portions).value
    decreases portions
  {
    if portions != [] {
      PartsOnlyGrow(SettlePortion(drafts, portions[0]).value, portions[1..]);
    }
  }

  lemma {:induction false} PartsSettle(drafts: seq<Draft>, portions: seq<PortionDraft>)
    requires forall i :: 0 <= i < |portions| ==> portions[i].part.denominator > 0
    requires SettlePortions(drafts, portions).problems == [] && NamesDiffer(SettlePortions(drafts, portions).value)
    ensures var r := SettlePortions(drafts, portions).value;
      && |r| == |drafts| + |portions| && r[..|drafts|] == drafts
      && forall k :: 0 <= k < |portions| ==> SettledAs(r, |drafts| + k, portions[k])
    decreases portions
  {
    hide SettlePortion, SettledAs, NamesDiffer;
    if portions != [] {
      var one := SettlePortion(drafts, portions[0]);
      PartsOnlyGrow(one.value, portions[1..]);
      PartsSettle(one.value, portions[1..]);
      var r := SettlePortions(drafts, portions).value;
      OneOnlyGrows(drafts, portions[0]);
      PrefixDiffers(r, |drafts|);
      assert r[..|drafts|] == drafts;
      OnePartSettles(drafts, portions[0]);
      assert r[..|one.value|] == one.value;
      SettledStays(r, |one.value|, |drafts|, portions[0]);
      forall k | 0 <= k < |portions|
        ensures SettledAs(r, |drafts| + k, portions[k])
      {
        if k > 0 {
          assert portions[k] == portions[1..][k - 1];
          assert SettledAs(r, |one.value| + (k - 1), portions[1..][k - 1]);
        }
      }
    }
  }

  lemma {:induction false} OneOnlyGrows(drafts: seq<Draft>, p: PortionDraft)
    requires p.part.denominator > 0
    ensures drafts <= SettlePortion(drafts, p).value
  {
  }

  /** The units are a row's: its base unit, of one piece, and one for each column that names a unit, as the column says. */
  ghost predicate UnitsAsWritten(cells: Cells, units: seq<Draft>) {
    && units != [] && units[0] == Draft(if cells.countedIn == "" then "piece" else cells.countedIn, 1, None)
    && NamesDiffer(units)
    && (forall i :: 0 < i < |units| ==> FromSome(cells.slots, units, i))
    && (forall slot :: slot in cells.slots && slot.name != "" ==> exists i :: 0 < i < |units| && FromSlot(slot, units, i))
  }

  ghost predicate FromSome(slots: seq<Slot>, units: seq<Draft>, i: nat)
    requires i < |units|
  {
    exists slot :: slot in slots && slot.name != "" && FromSlot(slot, units, i)
  }

  lemma {:induction false} PlainFromSlot(slot: Slot, units: seq<Draft>, i: nat)
    requires i < |units| && PlainDraft(units[i], slot) && ReadPortion(slot.name).None?
    ensures FromSlot(slot, units, i)
  {
  }

  lemma {:induction false} PartFromSlot(slot: Slot, p: PortionDraft, units: seq<Draft>, i: nat)
    requires i < |units| && SettledAs(units, i, p) && PartDraft(p, slot)
    ensures FromSlot(slot, units, i)
  {
    hide ReadPortion, ReadCount, Lower, PriceReads;
  }

  /** What became of each column, in the order the units come: base, named outright, parts. */
  lemma {:induction false} UnitsInOrder(cells: Cells)
    requires ReadUnits(cells).problems == []
    ensures var units, plain, parts := ReadUnits(cells).value, Plain(cells.slots), Parts(cells.slots);
      && |units| == 1 + |plain| + |parts| && NamesDiffer(units) && units[0] == Draft(BaseName(cells), 1, None)
      && (forall k :: 0 <= k < |plain| ==> FromSlot(plain[k], units, 1 + k))
      && (forall k :: 0 <= k < |parts| ==> FromSlot(parts[k], units, 1 + |plain| + k))
  {
    hide ReadSlots, SettlePortions, Plain, Parts, SettledAs, PlainDraft, PartDraft, FromSlot, FactorsOk;
    var base := Draft(BaseName(cells), 1, None);
    var start := Drafting([base], [], []);
    SlotsAreOk(start, cells.slots);
    var d := ReadSlots(start, cells.slots);
    var units, plain, parts := ReadUnits(cells).value, Plain(cells.slots), Parts(cells.slots);
    assert d.problems == [] && SettlePortions(d.drafts, d.portions).problems == [];
    DraftsAreOk(cells);
    assert NamesDiffer(units) by {
      assert forall i :: 0 <= i < |units| ==> DraftNames(units)[i] == Lower(units[i].name);
    }
    SlotsAreRead(start, cells.slots);
    PartsSettle(d.drafts, d.portions);
    assert units[0] == units[..|d.drafts|][0] == d.drafts[..1][0];
    forall k | 0 <= k < |plain|
      ensures FromSlot(plain[k], units, 1 + k)
    {
      assert units[1 + k] == units[..|d.drafts|][1 + k];
      PlainOrPart(cells.slots, plain[k]);
      PlainFromSlot(plain[k], units, 1 + k);
    }
    forall k | 0 <= k < |parts|
      ensures FromSlot(parts[k], units, 1 + |plain| + k)
    {
      PartFromSlot(parts[k], d.portions[k], units, 1 + |plain| + k);
    }
  }

  /** A row with nothing wrong with its units has the units its cells write. */
  lemma {:induction false} RowUnitsAsWritten(cells: Cells)
    requires ReadUnits(cells).problems == []
    ensures UnitsAsWritten(cells, ReadUnits(cells).value)
  {
    hide ReadUnits, FromSlot, Plain, Parts, NamesDiffer, ReadPortion;
    UnitsInOrder(cells);
    var units, plain, parts := ReadUnits(cells).value, Plain(cells.slots), Parts(cells.slots);
    forall i | 0 < i < |units|
      ensures FromSome(cells.slots, units, i)
    {
      var slot := if i <= |plain| then plain[i - 1] else parts[i - 1 - |plain|];
      PlainOrPart(cells.slots, slot);
      assert FromSlot(slot, units, i);
    }
    forall slot | slot in cells.slots && slot.name != ""
      ensures exists i :: 0 < i < |units| && FromSlot(slot, units, i)
    {
      PlainOrPart(cells.slots, slot);
      if slot in plain {
        var k :| 0 <= k < |plain| && plain[k] == slot;
        assert FromSlot(slot, units, 1 + k);
      } else {
        var k :| 0 <= k < |parts| && parts[k] == slot;
        assert FromSlot(slot, units, 1 + |plain| + k);
      }
    }
  }

  lemma {:induction false} NameOfSlot(slot: Slot, units: seq<Draft>, i: nat)
    requires i < |units| && FromSlot(slot, units, i)
    ensures units[i].name == slot.name
  {
  }

  /** The part of a unit named outright in the row, wherever its column stands, is that part of it. */
  lemma {:induction false} PartOfAUnitInTheRow(cells: Cells, i: nat, w: nat)
    requires ReadUnits(cells).problems == [] && i < |ReadUnits(cells).value| && w < |ReadUnits(cells).value|
    requires i > 0 && ReadPortion(ReadUnits(cells).value[i].name).Some? && (w == 0 || ReadPortion(ReadUnits(cells).value[w].name).None?)
    requires Lower(ReadPortion(ReadUnits(cells).value[i].name).value.unit) == Lower(ReadUnits(cells).value[w].name)
    ensures var u, part := ReadUnits(cells).value, ReadPortion(ReadUnits(cells).value[i].name).value;
      u[i].factor * part.denominator == part.numerator * u[w].factor
  {
    hide ReadUnits, Plain, Parts, NamesDiffer, ReadPortion, ReadCount, PriceReads, Lower;
    UnitsInOrder(cells);
    var units, plain, parts := ReadUnits(cells).value, Plain(cells.slots), Parts(cells.slots);
    if i <= |plain| {
      PlainOrPart(cells.slots, plain[i - 1]);
      NameOfSlot(plain[i - 1], units, i);
    } else {
      assert FromSlot(parts[i - 1 - |plain|], units, i);
      if w > |plain| {
        PlainOrPart(cells.slots, parts[w - 1 - |plain|]);
        NameOfSlot(parts[w - 1 - |plain|], units, w);
      }
    }
  }

  // -- Half a carton of twenty-four -------------------------------------------

  const HALF_CARTON: seq<Slot> := [Slot("1/2 carton", "", ""), Slot("carton", "24", "")]

  const CARTONS := Cells("rice", "", "", "", "", HALF_CARTON, "", "", "")

  lemma {:induction false} CartonIsPlain()
    ensures ReadPortion("carton").None? && Trim("carton") == "carton" && PlainName("carton")
  {
    assert TrimEnd("carton") == "carton" && TrimStart("carton") == "carton";
    assert Naira.LeadingDigits("carton") == 0;
  }

  lemma {:induction false} Figures()
    ensures Decimal(1) == "1" && Decimal(2) == "2" && Decimal(24) == "24"
  {
    assert Decimal(24) == Decimal(2) + "4";
  }

  lemma {:induction false} TheirText()
    ensures ReadCount("24") == Some(24)
    ensures ReadPortion("1/2 carton") == Some(Portion(1, 2, "carton"))
  {
    hide ReadCount, ReadPortion, Decimal, PlainName;
    Figures();
    CountIsRead(24);
    CartonIsPlain();
    PortionIsRead(1, 2, "carton");
    assert "1" + "/" + "2" + " " + "carton" == "1/2 carton";
  }

  lemma {:induction false} SmallLetters()
    ensures Lower("carton") == "carton" && Lower("piece") == "piece" && Lower("1/2 carton") == "1/2 carton"
  {
    LowerStands("carton");
    LowerStands("piece");
    LowerStands("1/2 carton");
  }

  lemma {:induction false} LowerStands(s: string)
    requires forall i :: 0 <= i < |s| ==> !('A' <= s[i] <= 'Z')
    ensures Lower(s) == s
  {
    if s != "" {
      LowerStands(s[1..]);
    }
  }

  lemma {:induction false} HalfOf24()
    ensures 24 * 1 % 2 == 0 && 24 * 1 / 2 == 12
  {
  }

  const PIECE := Draft("piece", 1, None)
  const CARTON := Draft("carton", 24, None)
  const HALF := PortionDraft("1/2 carton", None, None, Portion(1, 2, "carton"))
  const THREE_UNITS: seq<Draft> := [PIECE, CARTON, Draft("1/2 carton", 12, None)]

  lemma {:induction false} CartonsAreRead()
    ensures ReadSlots(Drafting([PIECE], [], []), HALF_CARTON) == Drafting([PIECE, CARTON], [HALF], [])
  {
    hide ReadPortion, ReadCount;
    TheirText();
    CartonIsPlain();
    var d1 := Drafting([PIECE], [HALF], []);
    var d2 := Drafting([PIECE, CARTON], [HALF], []);
    assert ReadSlot(Drafting([PIECE], [], []), HALF_CARTON[0]) == d1;
    assert ReadSlot(d1, HALF_CARTON[1]) == d2;
    assert HALF_CARTON[1..][0] == HALF_CARTON[1] && HALF_CARTON[1..][1..] == [];
    assert ReadSlots(d1, HALF_CARTON[1..]) == ReadSlots(d2, []) == d2;
  }

  lemma {:induction false} HalfIsSettled()
    ensures SettlePortions([PIECE, CARTON], [HALF]) == Reading(THREE_UNITS, [])
  {
    hide Lower;
    SmallLetters();
    HalfOf24();
    assert [PIECE, CARTON][1..] == [CARTON] && [HALF][1..] == [];
    assert DraftNamed([CARTON], "carton") == Some(CARTON);
    assert DraftNamed([PIECE, CARTON], "carton") == Some(CARTON);
    assert [PIECE, CARTON] + [Draft("1/2 carton", 12, None)] == THREE_UNITS;
    assert SettlePortion([PIECE, CARTON], HALF) == Reading(THREE_UNITS, []);
    assert SettlePortions(THREE_UNITS, []) == Reading(THREE_UNITS, []);
  }

  /** A carton of twenty-four and half of one, whichever column comes first, with the half's count left blank: twelve pieces. */
  lemma {:induction false} HalfACarton()
    ensures ReadUnits(CARTONS) == Reading(THREE_UNITS, [])
  {
    hide ReadSlots, SettlePortions, Lower;
    CartonsAreRead();
    HalfIsSettled();
    SmallLetters();
    var names := DraftNames(THREE_UNITS);
    assert |names| == 3 && names[0] == "piece" && names[1] == "carton" && names[2] == "1/2 carton";
  }
}
