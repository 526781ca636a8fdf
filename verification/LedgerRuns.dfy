/**
 * Everything that can happen to the ledger, in any order: what holds after every
 * run (README.md:56, src/modules/inventory/stock.service.ts:104-118).
 */
module LedgerRuns {
  import opened Common
  import opened Ledger
  import opened Stock
  import opened Operations
  import opened StockLevels
  import Stocktake
  import StocktakeTheorems
  import CountTheorems

  /** One transaction. New ids come with the step, as the source's UUIDs do. */
  datatype Step =
    | StockIn(key: Key, quantity: int, kind: Kind, reference: Option<Cause>)
    | StockOut(inp: OutboundInput, placeholder: Id)
    | OpenLots(newLots: seq<NewLotLine>, ids: seq<Id>)
    | Move(inp: OutboundInput, to: Id, placeholder: Id)
    | Correct(inp: OutboundInput, delta: int, totalCost: int, expiry: Option<Time>, newLot: Id)
    | NameOptions(product: Id, variants: seq<KnownVariant>)
    | IntoOption(product: Id, option: Id)
    | PostSheet(sheet: Stocktake.Sheet, lines: seq<Stocktake.Line>)
    | RebuildAll

  function Kept(b: Books, r: Result<Books, Refusal>): Books {
    if r.Ok? then r.value else b
  }

  /** A refused step, or one whose new id is already taken, changes nothing. */
  function Next(b: Books, step: Step): Books {
    match step
    case StockIn(key, quantity, kind, reference) => Kept(b, Inbound(b, key, quantity, kind, reference))
    case StockOut(inp, placeholder) =>
      var r := Outbound(b, inp, placeholder);
      if r.Ok? && placeholder !in b.lots then r.value.books else b
    case OpenLots(lines, ids) =>
      if |ids| == |lines| && Fresh(b, ids) then Kept(b, NewLots(b, lines, ids)) else b
    case Move(inp, to, placeholder) =>
      if placeholder in b.lots then b else Kept(b, Transfer(b, inp, to, placeholder))
    case Correct(inp, delta, totalCost, expiry, newLot) =>
      if newLot in b.lots then b else Kept(b, Adjust(b, inp, delta, totalCost, expiry, newLot))
    case NameOptions(product, variants) => b.(options := b.options[product := variants])
    case IntoOption(product, option) => MoveIntoVariant(b, product, option)
    case PostSheet(sheet, lines) =>
      if CountTheorems.DistinctLines(lines) && CountTheorems.FreshIds(b, sheet, lines)
      then Kept(b, Stocktake.PostCount(b, sheet, lines)) else b
    case RebuildAll => Rebuild(b).books
  }

  function Run(b: Books, steps: seq<Step>): Books
    decreases steps
  {
    if steps == [] then b else Run(Next(b, steps[0]), steps[1..])
  }

  lemma {:induction false} NextKeeps(b: Books, step: Step)
    requires Sound(b) && Accounted(b)
    ensures Sound(Next(b, step)) && Accounted(Next(b, step))
  {
    hide Sound, Accounted, Outbound, Inbound, Transfer, Adjust, NewLots, MoveIntoVariant, Rebuild;
    match step
    case StockIn(key, quantity, kind, reference) =>
      if Inbound(b, key, quantity, kind, reference).Ok? {
        InboundKeeps(b, key, quantity, kind, reference);
      }
    case StockOut(inp, placeholder) =>
      if Outbound(b, inp, placeholder).Ok? {
        OutboundSound(b, inp, placeholder);
        OutboundAccounted(b, inp, placeholder);
      }
    case OpenLots(lines, ids) =>
      if |ids| == |lines| && Fresh(b, ids) && NewLots(b, lines, ids).Ok? {
        NewLotsKeeps(b, lines, ids);
      }
    case Move(inp, to, placeholder) =>
      if Transfer(b, inp, to, placeholder).Ok? {
        TransferKeeps(b, inp, to, placeholder);
      }
    case Correct(inp, delta, totalCost, expiry, newLot) =>
      if Adjust(b, inp, delta, totalCost, expiry, newLot).Ok? {
        AdjustKeeps(b, inp, delta, totalCost, expiry, newLot);
      }
    case NameOptions(product, variants) => OptionsDoNotMatter(b, b.options[product := variants]);
    case IntoOption(product, option) => MoveIntoVariantKeeps(b, product, option);
    case PostSheet(sheet, lines) =>
      if CountTheorems.DistinctLines(lines) && CountTheorems.FreshIds(b, sheet, lines) {
        CountTheorems.PostingSettlesTheCount(b, sheet, lines);
        if Stocktake.PostCount(b, sheet, lines).Ok? {
          CountKeeps(b, Stocktake.PostCount(b, sheet, lines).value);
        }
      }
    case RebuildAll => RebuildFindsNothingOnSound(b);
  }

  lemma {:induction false} CountKeeps(b: Books, b1: Books)
    requires StocktakeTheorems.Wrote(b, b1) && Accounted(b)
    ensures Sound(b1) && Accounted(b1)
  {
  }

  lemma {:induction false} OptionsDoNotMatter(b: Books, options: map<Id, seq<KnownVariant>>)
    requires Sound(b) && Accounted(b)
    ensures Sound(b.(options := options)) && Accounted(b.(options := options))
  {
  }

  lemma {:induction false} RunKeeps(b: Books, steps: seq<Step>)
    requires Sound(b) && Accounted(b)
    ensures Sound(Run(b, steps)) && Accounted(Run(b, steps))
    decreases steps
  {
    hide Sound, Accounted, Next;
    if steps != [] {
      NextKeeps(b, steps[0]);
      RunKeeps(Next(b, steps[0]), steps[1..]);
    }
  }

  /**
   * In every reachable state: there is one balance a key, the balances answer
   * every question as the movements do, and a rebuild would find nothing.
   */
  lemma {:induction false} CacheAlwaysAgrees(steps: seq<Step>, s: Scope)
    ensures var b := Run(EMPTY, steps);
      && UniqueKeys(b.balances)
      && RowSum(b.balances, s) == MoveSum(b.movements, s)
      && Rebuild(b).drifted == []
  {
    RunKeeps(EMPTY, steps);
    RebuildFindsNothingOnSound(Run(EMPTY, steps));
  }

  /**
   * In every reachable state a negative balance was forced, with a reason, on the
   * same product, location and lot; so a run in which nothing was forced never
   * goes negative anywhere.
   */
  lemma {:induction false} NegativeIsAlwaysForced(steps: seq<Step>, k: Key)
    ensures var b := Run(EMPTY, steps);
      RowSum(b.balances, AtKey(k)) < 0 ==>
        exists i :: 0 <= i < |b.movements| && Explains(b.movements[i], k)
    ensures var b := Run(EMPTY, steps);
      (forall i :: 0 <= i < |b.movements| ==> !b.movements[i].forced) ==> RowSum(b.balances, AtKey(k)) >= 0
  {
    RunKeeps(EMPTY, steps);
    var b := Run(EMPTY, steps);
    assert RowSum(b.balances, AtKey(k)) < 0 ==> Explained(b.movements, k);
  }

  // -- The ledger is only added to --------------------------------------------

  /** Movements are appended and lots added; nothing already written changes. */
  ghost predicate OnlyAdds(b: Books, b': Books) {
    b.movements <= b'.movements && LotsKept(b.lots, b'.lots)
  }

  /** The step is not a delivery's own. */
  predicate DeliveryFree(step: Step) {
    match step
    case StockIn(_, _, _, reference) => reference.None? || !reference.value.Delivery?
    case StockOut(inp, _) => inp.reference.None? || !inp.reference.value.Delivery?
    case Correct(inp, _, _, _, _) => inp.reference.None? || !inp.reference.value.Delivery?
    case _ => true
  }

  ghost predicate Added(b: Books, b': Books, deliveryFree: bool) {
    && OnlyAdds(b, b')
    && (deliveryFree ==> NoDelivery(b'.movements[|b.movements|..]))
  }

  lemma {:induction false} AddedBy(b: Books, ms: seq<Movement>, b': Books, deliveryFree: bool)
    requires b'.movements == b.movements + ms && LotsKept(b.lots, b'.lots)
    requires deliveryFree ==> NoDelivery(ms)
    ensures Added(b, b', deliveryFree)
  {
    assert b'.movements[|b.movements|..] == ms;
  }

  lemma {:induction false} OutboundAdds(b: Books, inp: OutboundInput, placeholder: Id)
    requires Sound(b) && Outbound(b, inp, placeholder).Ok? && placeholder !in b.lots
    ensures Added(b, Outbound(b, inp, placeholder).value.books, inp.reference.None? || !inp.reference.value.Delivery?)
  {
    OutboundAppends(b, inp, placeholder);
    OutboundShape(b, inp, placeholder);
    AddedBy(b, Outbound(b, inp, placeholder).value.written, Outbound(b, inp, placeholder).value.books,
            inp.reference.None? || !inp.reference.value.Delivery?);
  }

  lemma {:induction false} NewLotsAdds(b: Books, lines: seq<NewLotLine>, ids: seq<Id>)
    requires |ids| == |lines| && Fresh(b, ids) && NewLots(b, lines, ids).Ok?
    ensures Added(b, NewLots(b, lines, ids).value, true)
  {
    LineMovesPlain(lines, ids);
    LineLotsKept(b.lots, lines, ids);
    AddedBy(b, LineMoves(lines, ids), NewLots(b, lines, ids).value, true);
  }

  lemma {:induction false} LineMovesPlain(lines: seq<NewLotLine>, ids: seq<Id>)
    requires |ids| == |lines|
    ensures NoDelivery(LineMoves(lines, ids))
  {
    if lines != [] {
      LineMovesPlain(lines[1..], ids[1..]);
    }
  }

  lemma {:induction false} LineLotsKept(lots: map<Id, Lot>, lines: seq<NewLotLine>, ids: seq<Id>)
    requires |ids| == |lines| && Distinct(ids)
    requires forall i :: 0 <= i < |ids| ==> ids[i] !in lots
    ensures LotsKept(lots, LineLots(lots, lines, ids))
    decreases lines
  {
    if lines != [] {
      LineLotsKept(lots[ids[0] := LineLot(lines[0])], lines[1..], ids[1..]);
    }
  }

  lemma {:induction false} HalvesPlain(rows: seq<Row>, product: Id, option: Id)
    ensures NoDelivery(Halves(rows, product, option))
  {
    if rows != [] {
      HalvesPlain(rows[1..], product, option);
    }
  }

  lemma {:induction false} ArrivalsPlain(left: seq<Movement>, to: Id)
    ensures NoDelivery(Arrivals(left, to))
  {
    if left != [] {
      ArrivalsPlain(left[1..], to);
    }
  }

  lemma {:induction false} ArrivalsAdd(b: Books, left: seq<Movement>, to: Id)
    requires Sound(b)
    ensures Added(b, PostAll(b, Arrivals(left, to)), true)
  {
    PostAllWrites(b, Arrivals(left, to));
    ArrivalsPlain(left, to);
    AddedBy(b, Arrivals(left, to), PostAll(b, Arrivals(left, to)), true);
  }

  lemma {:induction false} AddedThen(b: Books, b': Books, b'': Books)
    requires Added(b, b', true) && Added(b', b'', true)
    ensures Added(b, b'', true)
  {
    var w, w' := b'.movements[|b.movements|..], b''.movements[|b'.movements|..];
    assert b'.movements == b.movements + w && b''.movements == b'.movements + w';
    assert b''.movements == b.movements + (w + w');
    AddedBy(b, w + w', b'', true);
  }

  lemma {:induction false} TransferAdds(b: Books, inp: OutboundInput, to: Id, placeholder: Id)
    requires Sound(b) && Transfer(b, inp, to, placeholder).Ok? && placeholder !in b.lots
    ensures Added(b, Transfer(b, inp, to, placeholder).value, true)
  {
    hide Outbound, Sound, Added;
    var inp' := inp.(kind := TransferOut, pinned := None, reference := None);
    var t := Outbound(b, inp', placeholder).value;
    OutboundAdds(b, inp', placeholder);
    OutboundSound(b, inp', placeholder);
    ArrivalsAdd(t.books, t.written, to);
    AddedThen(b, t.books, PostAll(t.books, Arrivals(t.written, to)));
  }

  lemma {:induction false} AdjustAdds(b: Books, inp: OutboundInput, delta: int, totalCost: int, expiry: Option<Time>, newLot: Id)
    requires Sound(b) && Adjust(b, inp, delta, totalCost, expiry, newLot).Ok? && newLot !in b.lots
    ensures Added(b, Adjust(b, inp, delta, totalCost, expiry, newLot).value, inp.reference.None? || !inp.reference.value.Delivery?)
  {
    hide Outbound, Sound;
    if delta < 0 {
      OutboundAdds(b, inp.(quantity := -delta, kind := if inp.kind == Damage then Damage else Adjustment), newLot);
    } else {
      var lot := if inp.pinned.Some? then inp.pinned.value else newLot;
      AddedBy(b, [Movement(LotKey(inp, lot), delta, Adjustment, None, false, "")],
              Adjust(b, inp, delta, totalCost, expiry, newLot).value, inp.reference.None? || !inp.reference.value.Delivery?);
    }
  }

  lemma {:induction false} CountAdds(b: Books, b': Books)
    requires StocktakeTheorems.Wrote(b, b')
    ensures Added(b, b', true)
  {
  }

  lemma {:induction false} NothingAdded(b: Books, b': Books)
    requires b'.movements == b.movements && b'.lots == b.lots
    ensures Added(b, b', true)
  {
    AddedBy(b, [], b', true);
  }

  lemma {:induction false} NextAdds(b: Books, step: Step)
    requires Sound(b)
    ensures Added(b, Next(b, step), DeliveryFree(step))
  {
    hide Sound, Outbound, Transfer, Adjust, NewLots, Rebuild, Added;
    NothingAdded(b, b);
    AnyFree(b, b, DeliveryFree(step));
    match step
    case StockIn(key, quantity, kind, reference) =>
      if Inbound(b, key, quantity, kind, reference).Ok? {
        AddedBy(b, [Movement(key, quantity, kind, reference, false, "")], Next(b, step), DeliveryFree(step));
      }
    case StockOut(inp, placeholder) =>
      if Outbound(b, inp, placeholder).Ok? && placeholder !in b.lots {
        OutboundAdds(b, inp, placeholder);
      }
    case OpenLots(lines, ids) =>
      if |ids| == |lines| && Fresh(b, ids) && NewLots(b, lines, ids).Ok? {
        NewLotsAdds(b, lines, ids);
      }
    case Move(inp, to, placeholder) =>
      if Transfer(b, inp, to, placeholder).Ok? && placeholder !in b.lots {
        TransferAdds(b, inp, to, placeholder);
      }
    case Correct(inp, delta, totalCost, expiry, newLot) =>
      if Adjust(b, inp, delta, totalCost, expiry, newLot).Ok? && newLot !in b.lots {
        AdjustAdds(b, inp, delta, totalCost, expiry, newLot);
      }
    case NameOptions(product, variants) => NothingAdded(b, Next(b, step));
    case IntoOption(product, option) => MoveAdds(b, product, option);
    case PostSheet(sheet, lines) =>
      if CountTheorems.DistinctLines(lines) && CountTheorems.FreshIds(b, sheet, lines) {
        CountTheorems.PostingSettlesTheCount(b, sheet, lines);
        if Stocktake.PostCount(b, sheet, lines).Ok? {
          CountAdds(b, Stocktake.PostCount(b, sheet, lines).value);
        }
      }
    case RebuildAll =>
      RebuildFindsNothingOnSound(b);
  }

  lemma {:induction false} AnyFree(b: Books, b': Books, deliveryFree: bool)
    requires Added(b, b', true)
    ensures Added(b, b', deliveryFree)
  {
  }

  lemma {:induction false} MoveAdds(b: Books, product: Id, option: Id)
    requires Sound(b)
    ensures Added(b, MoveIntoVariant(b, product, option), true)
  {
    var ms := Halves(b.balances, product, option);
    PostAllWrites(b, ms);
    HalvesPlain(b.balances, product, option);
    AddedBy(b, ms, MoveIntoVariant(b, product, option), true);
  }

  lemma {:induction false} AddsOnTop(b: Books, b': Books, b'': Books)
    requires OnlyAdds(b, b') && OnlyAdds(b', b'')
    ensures OnlyAdds(b, b'')
  {
  }

  lemma {:induction false} AddedOnlyAdds(b: Books, b': Books, deliveryFree: bool)
    requires Added(b, b', deliveryFree)
    ensures OnlyAdds(b, b')
  {
  }

  /** Over any run the ledger is only added to: every movement and every lot stays as it was written. */
  lemma {:induction false} RunOnlyAdds(b: Books, steps: seq<Step>)
    requires Sound(b) && Accounted(b)
    ensures OnlyAdds(b, Run(b, steps))
    decreases steps
  {
    hide Sound, Accounted, Next, OnlyAdds, Added;
    if steps == [] {
      AddsNothing(b);
    } else {
      NextKeeps(b, steps[0]);
      NextAdds(b, steps[0]);
      AddedOnlyAdds(b, Next(b, steps[0]), DeliveryFree(steps[0]));
      RunOnlyAdds(Next(b, steps[0]), steps[1..]);
      AddsOnTop(b, Next(b, steps[0]), Run(Next(b, steps[0]), steps[1..]));
    }
  }

  lemma {:induction false} AddsNothing(b: Books)
    ensures OnlyAdds(b, b)
  {
  }
}
