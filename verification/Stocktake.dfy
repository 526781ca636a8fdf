/**
 * Posting a physical count: what the count writes, why it is never refused, and
 * where it leaves every item (src/modules/inventory/stocktake.service.ts:254-406).
 */
module Stocktake {
  import opened Common
  import opened Ledger
  import opened Stock

  /** One counted item: a product, or one of its options. */
  datatype Line = Line(product: Id, option: Option<Id>, counted: nat)

  /** A line that disagrees with the ledger: counted minus on hand. */
  datatype Variance = Variance(line: Line, variance: int)

  /** Part of a lot that left a short option and has not arrived at another yet. */
  datatype Freed = Freed(lot: Id, quantity: int)

  /** The count being posted; `found` holds the id a lot invented for a product would get. */
  datatype Sheet = Sheet(id: Id, location: Id, now: Time, found: map<Id, Id>)

  // -- The short options ------------------------------------------------------

  function OutFor(c: Sheet, line: Line, quantity: int, kind: Kind): OutboundInput {
    OutboundInput(line.product, line.option, c.location, quantity, kind, Some(Count(c.id)), None, false, "", false, c.now)
  }

  function FreedBy(out: seq<Movement>): seq<Freed> {
    if out == [] then [] else [Freed(out[0].key.lot, -out[0].quantity)] + FreedBy(out[1..])
  }

  datatype Shortened = Shortened(books: Books, freed: seq<Freed>)

  /** One short option: what moves leaves as a transfer, the rest is written off. */
  function OneShort(b: Books, c: Sheet, v: Variance, moving: int): Result<Shortened, Refusal> {
    var moved :- if moving > 0 then Outbound(b, OutFor(c, v.line, moving, TransferOut), 0) else Ok(Taken(b, []));
    var lost :-
      if -v.variance > moving then Outbound(moved.books, OutFor(c, v.line, -v.variance - moving, Adjustment), 0)
      else Ok(Taken(moved.books, []));
    Ok(Shortened(lost.books, FreedBy(moved.written)))
  }

  function Shorts(b: Books, c: Sheet, shorts: seq<Variance>, toMove: int, freed: seq<Freed>): Result<Shortened, Refusal>
    decreases shorts
  {
    if shorts == [] then Ok(Shortened(b, freed))
    else
      var moving := Min(toMove, -shorts[0].variance);
      var s :- OneShort(b, c, shorts[0], moving);
      Shorts(s.books, c, shorts[1..], toMove - moving, freed + s.freed)
  }

  // -- The over options -------------------------------------------------------

  datatype Filled = Filled(books: Books, wanted: int, freed: seq<Freed>)

  function InKey(c: Sheet, line: Line, lot: Id): Key {
    Key(line.product, line.option, c.location, lot)
  }

  /** The queue after `taking` from its head. */
  function AfterTaking(freed: seq<Freed>, taking: int): seq<Freed>
    requires freed != []
  {
    if freed[0].quantity == taking then freed[1..]
    else [Freed(freed[0].lot, freed[0].quantity - taking)] + freed[1..]
  }

  /** Fills an over option from the queue of freed lots, lot for lot. */
  function Fill(b: Books, c: Sheet, line: Line, wanted: int, freed: seq<Freed>): Result<Filled, Refusal>
    decreases |freed|, Max(wanted, 0)
  {
    if wanted <= 0 || freed == [] then Ok(Filled(b, wanted, freed))
    else
      var taking := Min(wanted, freed[0].quantity);
      var b1 :- Inbound(b, InKey(c, line, freed[0].lot), taking, TransferIn, Some(Count(c.id)));
      Fill(b1, c, line, wanted - taking, AfterTaking(freed, taking))
  }

  /** The most recently received lot of the product that still holds stock here, whichever option holds it. */
  function NewestHere(lots: map<Id, Lot>, rows: seq<Row>, product: Id, location: Id): Option<Id> {
    if rows == [] then None
    else
      var rest := NewestHere(lots, rows[1..], product, location);
      if rows[0].key.product != product || rows[0].key.location != location || rows[0].quantity <= 0 then rest
      else if rest.None? || ReceivedAt(lots, rows[0].key.lot) >= ReceivedAt(lots, rest.value) then Some(rows[0].key.lot)
      else rest
  }

  function ReceivedAt(lots: map<Id, Lot>, lot: Id): Time {
    if lot in lots then lots[lot].receivedAt else 0
  }

  predicate Bought(lots: map<Id, Lot>, product: Id, lot: Id) {
    lot in lots && lots[lot].product == product && lots[lot].quantityReceived > 0
  }

  predicate NewestBought(lots: map<Id, Lot>, product: Id, lot: Id) {
    && Bought(lots, product, lot)
    && forall other :: other in lots && Bought(lots, product, other) ==>
         lots[other].receivedAt < lots[lot].receivedAt
         || (lots[other].receivedAt == lots[lot].receivedAt && other <= lot)
  }

  lemma {:induction false} NewestExists(lots: map<Id, Lot>, among: set<Id>, product: Id) returns (lot: Id)
    requires among <= lots.Keys
    requires exists l :: l in among && Bought(lots, product, l)
    ensures lot in among && Bought(lots, product, lot)
    ensures forall other :: other in among && Bought(lots, product, other) ==>
      lots[other].receivedAt < lots[lot].receivedAt
      || (lots[other].receivedAt == lots[lot].receivedAt && other <= lot)
    decreases |among|
  {
    var l :| l in among && Bought(lots, product, l);
    var rest := among - {l};
    if exists m :: m in rest && Bought(lots, product, m) {
      var m := NewestExists(lots, rest, product);
      lot := if lots[m].receivedAt < lots[l].receivedAt
             || (lots[m].receivedAt == lots[l].receivedAt && m <= l) then l else m;
    } else {
      lot := l;
    }
  }

  /** The newest lot of the product that received anything, anywhere; ties go to the later id. */
  function NewestAnywhere(lots: map<Id, Lot>, product: Id): (r: Option<Id>)
    ensures r.Some? ==> NewestBought(lots, product, r.value)
    ensures r.None? ==> forall lot :: lot in lots ==> !Bought(lots, product, lot)
  {
    if exists lot :: lot in lots && Bought(lots, product, lot) then
      assert exists lot :: lot in lots && NewestBought(lots, product, lot) by {
        var lot := NewestExists(lots, lots.Keys, product);
        assert NewestBought(lots, product, lot);
      }
      var lot :| lot in lots && NewestBought(lots, product, lot);
      Some(lot)
    else
      None
  }

  datatype Surplus = Surplus(lot: Id, lots: map<Id, Lot>)

  /** `batchForSurplus`: here, else anywhere, else a lot invented with nothing received. */
  function SurplusLot(b: Books, c: Sheet, product: Id): Result<Surplus, Refusal> {
    var here := NewestHere(b.lots, b.balances, product, c.location);
    if here.Some? then Ok(Surplus(here.value, b.lots))
    else
      var anywhere := NewestAnywhere(b.lots, product);
      if anywhere.Some? then Ok(Surplus(anywhere.value, b.lots))
      else if product !in c.found || c.found[product] in b.lots then Err(IdTaken)
      else Ok(Surplus(c.found[product], b.lots[c.found[product] := Lot(product, None, c.now, 0, 0, 0)]))
  }

  /** One over option: filled from the queue, and what is still wanted is written on. */
  function OneOver(b: Books, c: Sheet, v: Variance, freed: seq<Freed>): Result<Shortened, Refusal> {
    var f :- Fill(b, c, v.line, v.variance, freed);
    if f.wanted > 0 then
      var s :- SurplusLot(f.books, c, v.line.product);
      var b1 :- Inbound(f.books.(lots := s.lots), InKey(c, v.line, s.lot), f.wanted, Adjustment, Some(Count(c.id)));
      Ok(Shortened(b1, f.freed))
    else
      Ok(Shortened(f.books, f.freed))
  }

  function Overs(b: Books, c: Sheet, overs: seq<Variance>, freed: seq<Freed>): Result<Shortened, Refusal>
    decreases overs
  {
    if overs == [] then Ok(Shortened(b, freed))
    else
      var s :- OneOver(b, c, overs[0], freed);
      Overs(s.books, c, overs[1..], s.freed)
  }

  // -- One product ------------------------------------------------------------

  function ShortOf(vs: seq<Variance>): seq<Variance> {
    if vs == [] then [] else (if vs[0].variance < 0 then [vs[0]] else []) + ShortOf(vs[1..])
  }

  function OverOf(vs: seq<Variance>): seq<Variance> {
    if vs == [] then [] else (if vs[0].variance > 0 then [vs[0]] else []) + OverOf(vs[1..])
  }

  function Net(vs: seq<Variance>): int {
    if vs == [] then 0 else vs[0].variance + Net(vs[1..])
  }

  function ToMove(vs: seq<Variance>): int {
    Min(-Net(ShortOf(vs)), Net(OverOf(vs)))
  }

  /** `postProduct`, with the queue it ends on. */
  function PostProduct(b: Books, c: Sheet, vs: seq<Variance>): Result<Shortened, Refusal> {
    var s :- Shorts(b, c, ShortOf(vs), ToMove(vs), []);
    Overs(s.books, c, OverOf(vs), s.freed)
  }

  // -- The whole count --------------------------------------------------------

  datatype Group = Group(product: Id, variances: seq<Variance>)

  /** Adds a variance to its product's group, or opens one at the end. */
  function AddTo(groups: seq<Group>, v: Variance): seq<Group> {
    if groups == [] then [Group(v.line.product, [v])]
    else if groups[0].product == v.line.product then
      [Group(groups[0].product, groups[0].variances + [v])] + groups[1..]
    else
      [groups[0]] + AddTo(groups[1..], v)
  }

  /** The lines that disagree with the ledger, by product in the order first met. */
  function Disagreeing(b: Books, c: Sheet, lines: seq<Line>): seq<Group>
    decreases |lines|
  {
    if lines == [] then []
    else
      var line := lines[|lines| - 1];
      var groups := Disagreeing(b, c, lines[..|lines| - 1]);
      var variance := line.counted - OnHand(b, line.product, line.option, c.location);
      if variance == 0 then groups else AddTo(groups, Variance(line, variance))
  }

  function PostGroups(b: Books, c: Sheet, groups: seq<Group>): Result<Books, Refusal>
    decreases groups
  {
    if groups == [] then Ok(b)
    else
      var s :- PostProduct(b, c, groups[0].variances);
      PostGroups(s.books, c, groups[1..])
  }

  /** `assertCountable` at posting: every line names an option if its product has any, retired or not. */
  predicate Countable(b: Books, line: Line) {
    VariantAllowed(OptionsOf(b, line.product), line.option, true)
  }

  function PostCount(b: Books, c: Sheet, lines: seq<Line>): Result<Books, Refusal> {
    if lines == [] then Err(NothingCounted)
    else if exists i :: 0 <= i < |lines| && !Countable(b, lines[i]) then Err(CountedBeforeOptions)
    else PostGroups(b, c, Disagreeing(b, c, lines))
  }
}
