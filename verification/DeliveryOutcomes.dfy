/**
 * What a correction leaves, said of what was stated and what was recorded: every
 * line's figures, its stock, and its vendor's bill
 * (src/modules/inventory/delivery-correction.ts:118-208,
 * src/modules/inventory/delivery-correction.service.ts:105-338, 352-571).
 */
module DeliveryOutcomes {
  import opened Common
  import opened Ledger
  import opened Stock
  import opened Deliveries
  import opened DeliveryTheorems
  import opened DeliveryRuns
  import Fee = DeliveryFee
  import Fefo
  import Payables
  import StockOutcomes

  // -- The plan, one stated line at a time ------------------------------------

  /** The changes an accepted plan makes, in the order stated. */
  function ChangesFor(recorded: seq<Line>, truths: seq<Truth>): seq<Change> {
    if truths == [] then []
    else
      var found := FindLine(recorded, truths[0].line);
      (if found.None? || Unchanged(found.value, truths[0]) then [] else [ChangeTo(found.value, truths[0])])
      + ChangesFor(recorded, truths[1..])
  }

  predicate DistinctTruths(truths: seq<Truth>, seen: set<Id>) {
    && (forall i :: 0 <= i < |truths| ==> truths[i].line !in seen)
    && (forall i, j :: 0 <= i < j < |truths| ==> truths[i].line != truths[j].line)
  }

  lemma {:induction false} PlanSays(recorded: seq<Line>, truths: seq<Truth>, seen: set<Id>, plan: Plan)
    requires PlanFrom(recorded, truths, seen, plan).problems == []
    ensures PlanFrom(recorded, truths, seen, plan).changes == plan.changes + ChangesFor(recorded, truths)
    ensures DistinctTruths(truths, seen)
    ensures forall i :: 0 <= i < |truths| ==>
      FindLine(recorded, truths[i].line).Some? && ProblemWith(FindLine(recorded, truths[i].line).value, truths[i]).None?
    decreases truths
  {
    if truths == [] {
      assert plan.changes + [] == plan.changes;
    } else {
      var t, rest := truths[0], truths[1..];
      var plan1, seen1 := PlanOne(recorded, t, seen, plan), SeenAfter(recorded, t, seen);
      if plan1.problems != [] {
        ProblemsOnlyGrow(recorded, rest, seen1, plan1);
        assert false;
      }
      PlanSays(recorded, rest, seen1, plan1);
      assert truths == [t] + rest;
      assert plan.problems == [];
    }
  }

  // -- The lines, one change at a time ----------------------------------------

  /** The product a change puts on its line. */
  function ProductAfter(ch: Change): Id {
    if ch.newProduct.Some? then ch.newProduct.value else ch.line.product
  }

  /** The lot its line is on after it: one of its own for another product. */
  function LotAfter(ch: Change, newLots: map<Id, Id>): Id {
    if ch.newProduct.None? then ch.line.lot else if ch.line.id in newLots then newLots[ch.line.id] else 0
  }

  function Made(ch: Change, newLots: map<Id, Id>): Line {
    ch.line.(product := ProductAfter(ch), option := ch.option, lot := LotAfter(ch, newLots),
             received := ch.received, paidFor := ch.paidFor, totalCost := ch.totalCost)
  }

  /** The line a change is about is as the change makes it, and a line no change is about is as it was. */
  ghost predicate MadeOf(before: Line, changes: seq<Change>, newLots: map<Id, Id>, after: Line) {
    && (forall i :: 0 <= i < |changes| && changes[i].line.id == before.id ==> after == Made(changes[i], newLots))
    && ((forall i :: 0 <= i < |changes| ==> changes[i].line.id != before.id) ==> after == before)
  }

  lemma {:induction false} OneChangeMakes(b: Books, lines: seq<Line>, stocked: set<Id>, site: Site, ch: Change, inp: Correction, k: nat)
    requires Sound(b) && LinesOk(b, site.delivery, lines) && ShapeOk(ch) && IsLine(lines, k, ch.line)
    requires ApplyChange(b, lines, stocked, site, ch, inp).Ok?
    ensures ApplyChange(b, lines, stocked, site, ch, inp).value.lines == lines[k := Made(ch, inp.newLots)]
  {
    hide ApplyChange, LinesOk, Elsewhere, Sound;
    if ch.newProduct.None? {
      SameProductKeeps(b, lines, site, ch, inp, k, stocked);
    } else {
      ToRightProductKeeps(b, lines, site, ch, inp, k, stocked);
    }
  }

  lemma {:induction false} MadeThen(lines: seq<Line>, changes: seq<Change>, newLots: map<Id, Id>, k: nat, i: nat, after: Line)
    requires changes != [] && DistinctChanges(changes) && k < |lines| && i < |lines|
    requires forall j :: 0 <= j < |lines| && j != k ==> lines[j].id != lines[k].id
    requires changes[0].line.id == lines[k].id
    requires MadeOf(lines[k := Made(changes[0], newLots)][i], changes[1..], newLots, after)
    ensures MadeOf(lines[i], changes, newLots, after)
  {
    hide Made;
    assert changes == [changes[0]] + changes[1..];
    MadeKeepsId(changes[0], newLots);
    if i == k {
      forall j | 0 <= j < |changes[1..]|
        ensures changes[1..][j].line.id != lines[k].id
      {
        assert changes[0].line.id != changes[j + 1].line.id;
      }
    }
  }

  lemma {:induction false} MadeKeepsId(ch: Change, newLots: map<Id, Id>)
    ensures Made(ch, newLots).id == ch.line.id
  {
  }

  lemma {:induction false} IdsApart(lines: seq<Line>, k: nat)
    requires DistinctLines(lines) && k < |lines|
    ensures forall j :: 0 <= j < |lines| && j != k ==> lines[j].id != lines[k].id
  {
  }

  lemma {:induction false} ChangesMake(b: Books, lines: seq<Line>, stocked: set<Id>, site: Site, changes: seq<Change>, inp: Correction)
    requires Sound(b) && LinesOk(b, site.delivery, lines) && ChangesOk(lines, changes)
    requires ApplyChanges(b, lines, stocked, site, changes, inp).Ok?
    ensures var after := ApplyChanges(b, lines, stocked, site, changes, inp).value.lines;
      |after| == |lines| && forall i :: 0 <= i < |lines| ==> MadeOf(lines[i], changes, inp.newLots, after[i])
    decreases changes
  {
    hide ApplyChange, LinesOk, Elsewhere, Sound, ShapeOk, Made, MadeOf;
    if changes == [] {
      forall i | 0 <= i < |lines|
        ensures MadeOf(lines[i], changes, inp.newLots, lines[i])
      {
        NothingMade(lines[i], inp.newLots);
      }
    } else {
      var ch := changes[0];
      assert ShapeOk(ch) && OnLine(lines, ch);
      var k: nat :| k < |lines| && IsLine(lines, k, ch.line);
      OneChangeKeeps(b, lines, stocked, site, ch, inp, k);
      OneChangeMakes(b, lines, stocked, site, ch, inp, k);
      LinesApart(b, site.delivery, lines);
      IdsApart(lines, k);
      var a := ApplyChange(b, lines, stocked, site, ch, inp).value;
      MadeKeepsId(ch, inp.newLots);
      StillOnLines(lines, changes, k, Made(ch, inp.newLots));
      ElsewhereSound(b, a.books, site.delivery, lines, a.lines);
      ChangesMake(a.books, a.lines, stocked, site, changes[1..], inp);
      var after := ApplyChanges(a.books, a.lines, stocked, site, changes[1..], inp).value.lines;
      forall i | 0 <= i < |lines|
        ensures MadeOf(lines[i], changes, inp.newLots, after[i])
      {
        MadeThen(lines, changes, inp.newLots, k, i, after[i]);
      }
    }
  }

  lemma {:induction false} NothingMade(line: Line, newLots: map<Id, Id>)
    ensures MadeOf(line, [], newLots, line)
  {
  }

  // -- What was stated --------------------------------------------------------

  /** The option a line's stock is in: the one recorded, or the first its lot was moved into at the delivery's location. */
  function OptionNow(s: Shop, d: Id, line: Line): Option<Id>
    requires d in s.receipts
  {
    WithCurrentOption(s.books.movements, s.receipts[d].location, line).option
  }

  /** The option stated: of another product the one given or none; else the one given, or the one the stock is in. */
  function OptionStated(line: Line, now: Option<Id>, t: Truth): Option<Id> {
    if t.option.Some? then t.option.value
    else if t.product.Some? && t.product.value != line.product then None
    else now
  }

  function ProductStated(line: Line, t: Truth): Id {
    if t.product.Some? then t.product.value else line.product
  }

  /**
   * The line is as stated: its figures, its product and its option. Where only its
   * own recorded figures were stated over again it may keep the option it was recorded under.
   */
  predicate AsStated(before: Line, now: Option<Id>, t: Truth, after: Line) {
    && after.id == before.id
    && after.received == t.received && after.paidFor == t.paidFor && after.totalCost == t.totalCost
    && after.product == ProductStated(before, t)
    && (after.option == OptionStated(before, now, t)
        || (after == before.(deliveryCost := after.deliveryCost) && OptionStated(before, now, t) == now))
    && (after.product == before.product ==> after.lot == before.lot)
  }

  lemma {:induction false} ChangesForAt(recorded: seq<Line>, truths: seq<Truth>, i: nat)
    requires i < |truths| && FindLine(recorded, truths[i].line).Some?
    requires !Unchanged(FindLine(recorded, truths[i].line).value, truths[i])
    ensures ChangeTo(FindLine(recorded, truths[i].line).value, truths[i]) in ChangesFor(recorded, truths)
  {
    if i > 0 {
      ChangesForAt(recorded, truths[1..], i - 1);
    }
  }

  lemma {:induction false} ChangesComeFrom(recorded: seq<Line>, truths: seq<Truth>, ch: Change)
    requires ch in ChangesFor(recorded, truths)
    ensures exists i :: 0 <= i < |truths| && ComesFrom(recorded, truths[i], ch)
  {
    if truths != [] {
      if ch in ChangesFor(recorded, truths[1..]) {
        ChangesComeFrom(recorded, truths[1..], ch);
        var i :| 0 <= i < |truths[1..]| && ComesFrom(recorded, truths[1..][i], ch);
        assert ComesFrom(recorded, truths[i + 1], ch);
      } else {
        assert ComesFrom(recorded, truths[0], ch);
      }
    }
  }

  predicate ComesFrom(recorded: seq<Line>, t: Truth, ch: Change) {
    && FindLine(recorded, t.line).Some? && !Unchanged(FindLine(recorded, t.line).value, t)
    && ch == ChangeTo(FindLine(recorded, t.line).value, t)
  }

  /** A line of a delivery, found by its id as its stock is now. */
  lemma {:induction false} FoundNow(ms: seq<Movement>, location: Id, lines: seq<Line>, k: nat)
    requires DistinctLines(lines) && k < |lines|
    ensures FindLine(WithCurrentOptions(ms, location, lines), lines[k].id) == Some(WithCurrentOption(ms, location, lines[k]))
  {
    if k > 0 {
      assert lines[0].id != lines[k].id;
      FoundNow(ms, location, lines[1..], k - 1);
    }
  }

  /** One stated line, made as the plan for it says, is as stated. */
  lemma {:induction false} StatedIsMade(lines: seq<Line>, ms: seq<Movement>, location: Id, truths: seq<Truth>, newLots: map<Id, Id>,
                                         k: nat, i: nat, after: Line)
    requires DistinctLines(lines) && k < |lines| && i < |truths| && truths[i].line == lines[k].id && DistinctTruths(truths, {})
    requires MadeOf(lines[k], ChangesFor(WithCurrentOptions(ms, location, lines), truths), newLots, after)
    ensures AsStated(lines[k], WithCurrentOption(ms, location, lines[k]).option, truths[i], after)
  {
    hide WithCurrentOptions, MovedInto;
    var recorded := WithCurrentOptions(ms, location, lines);
    var now := WithCurrentOption(ms, location, lines[k]);
    var t := truths[i];
    FoundNow(ms, location, lines, k);
    FoundLine(recorded, t.line);
    var changes := ChangesFor(recorded, truths);
    if Unchanged(now, t) {
      forall j | 0 <= j < |changes|
        ensures changes[j].line.id != lines[k].id
      {
        ChangesComeFrom(recorded, truths, changes[j]);
        var n :| 0 <= n < |truths| && ComesFrom(recorded, truths[n], changes[j]);
        FoundLine(recorded, truths[n].line);
        assert n != i;
      }
    } else {
      ChangesForAt(recorded, truths, i);
      var j :| 0 <= j < |changes| && changes[j] == ChangeTo(now, t);
      assert after == Made(changes[j], newLots);
    }
  }

  lemma {:induction false} UnstatedIsKept(lines: seq<Line>, ms: seq<Movement>, location: Id, truths: seq<Truth>, newLots: map<Id, Id>,
                                           k: nat, after: Line)
    requires DistinctLines(lines) && k < |lines| && forall i :: 0 <= i < |truths| ==> truths[i].line != lines[k].id
    requires MadeOf(lines[k], ChangesFor(WithCurrentOptions(ms, location, lines), truths), newLots, after)
    ensures after == lines[k]
  {
    var recorded := WithCurrentOptions(ms, location, lines);
    var changes := ChangesFor(recorded, truths);
    forall j | 0 <= j < |changes|
      ensures changes[j].line.id != lines[k].id
    {
      ChangesComeFrom(recorded, truths, changes[j]);
      var n :| 0 <= n < |truths| && ComesFrom(recorded, truths[n], changes[j]);
      FoundLine(recorded, truths[n].line);
    }
  }

  // -- A whole correction -----------------------------------------------------

  /** A delivery's lines, if there is one. */
  function LinesOf(s: Shop, d: Id): seq<Line> {
    if d in s.receipts then s.receipts[d].lines else []
  }

  function LinesAsTheyAre(s: Shop, d: Id): seq<Line> {
    if d in s.receipts then WithCurrentOptions(s.books.movements, s.receipts[d].location, s.receipts[d].lines) else []
  }

  /** The line as the changes make it, but for its share of the fee. */
  ghost predicate MadeAndShared(before: Line, changes: seq<Change>, newLots: map<Id, Id>, after: Line) {
    exists made: Line :: MadeOf(before, changes, newLots, made) && after == made.(deliveryCost := after.deliveryCost)
  }

  /** What an accepted correction did to the lines, before and after the fee is shared. */
  lemma {:induction false} CorrectMakes(s: Shop, d: Id, inp: Correction)
    requires ShopOk(s) && Correct(s, d, inp).Ok?
    ensures d in s.receipts && DistinctLines(s.receipts[d].lines)
    ensures DistinctTruths(inp.truths, {})
    ensures PlanFor(s, d, inp).changes == ChangesFor(LinesAsTheyAre(s, d), inp.truths)
    ensures forall i :: 0 <= i < |inp.truths| ==> FindLine(LinesAsTheyAre(s, d), inp.truths[i].line).Some?
    ensures var before, after := LinesOf(s, d), LinesOf(Correct(s, d, inp).value, d);
      && |after| == |before|
      && forall k :: 0 <= k < |after| ==>
           MadeAndShared(before[k], ChangesFor(LinesAsTheyAre(s, d), inp.truths), inp.newLots, after[k])
  {
    hide Sound, Accounted, Payables.NeverOverpaid, ApplyChanges, LinesOk, SharesOk, BillAfter, Fee.Split, WithCurrentOptions, MadeOf,
         LotsApart, RefsKnown, ChangesOk, ChangesFor, DistinctTruths;
    var r := s.receipts[d];
    assert ReceiptOk(s.books, d, r);
    LinesApart(s.books, d, r.lines);
    var recorded := LinesAsTheyAre(s, d);
    var feeChanged := inp.fee.Some? && inp.fee.value != r.fee;
    PlanIsAboutLines(s.books.movements, r.location, r.lines, inp.truths, feeChanged);
    PlanSays(recorded, inp.truths, {}, Plan([], []));
    var changes := PlanFor(s, d, inp).changes;
    ChangesMake(s.books, r.lines, s.stocked, SiteOf(d, r), changes, inp);
    var changed := ApplyChanges(s.books, r.lines, s.stocked, SiteOf(d, r), changes, inp).value;
    var after := LinesOf(Correct(s, d, inp).value, d);
    forall k | 0 <= k < |after|
      ensures MadeAndShared(r.lines[k], changes, inp.newLots, after[k])
    {
      assert MadeOf(r.lines[k], changes, inp.newLots, changed.lines[k]);
    }
  }

  /**
   * An accepted correction leaves every line stated with the figures, the product
   * and the option stated, and every other line as it was but for its share of the
   * fee; and every line stated is one of the delivery's, stated once.
   */
  lemma {:induction false} CorrectLeavesWhatWasStated(s: Shop, d: Id, inp: Correction, k: nat)
    requires ShopOk(s) && Correct(s, d, inp).Ok? && d in s.receipts && k < |s.receipts[d].lines|
    ensures d in Correct(s, d, inp).value.receipts
    ensures var before, after := s.receipts[d].lines, Correct(s, d, inp).value.receipts[d].lines;
      && |after| == |before|
      && (forall i :: 0 <= i < |inp.truths| && inp.truths[i].line == before[k].id ==>
            AsStated(before[k], OptionNow(s, d, before[k]), inp.truths[i], after[k]))
      && ((forall i :: 0 <= i < |inp.truths| ==> inp.truths[i].line != before[k].id) ==>
            after[k] == before[k].(deliveryCost := after[k].deliveryCost))
    ensures forall i, j :: 0 <= i < j < |inp.truths| ==> inp.truths[i].line != inp.truths[j].line
    ensures Correct(s, d, inp).value.receipts[d]
      == s.receipts[d].(fee := if inp.fee.Some? then inp.fee.value else s.receipts[d].fee,
                        lines := Correct(s, d, inp).value.receipts[d].lines)
  {
    hide Correct, ShopOk, WithCurrentOption, ChangesFor, MadeOf, DistinctLines, AsStated;
    CorrectKeepsRest(s, d, inp);
    var made := LineMade(s, d, inp, k);
    var r := s.receipts[d];
    var after := Correct(s, d, inp).value.receipts[d].lines;
    forall i | 0 <= i < |inp.truths| && inp.truths[i].line == r.lines[k].id
      ensures AsStated(r.lines[k], OptionNow(s, d, r.lines[k]), inp.truths[i], after[k])
    {
      StatedIsMade(r.lines, s.books.movements, r.location, inp.truths, inp.newLots, k, i, made);
      SharedAsStated(r.lines[k], OptionNow(s, d, r.lines[k]), inp.truths[i], made, after[k]);
    }
    if forall i :: 0 <= i < |inp.truths| ==> inp.truths[i].line != r.lines[k].id {
      UnstatedIsKept(r.lines, s.books.movements, r.location, inp.truths, inp.newLots, k, made);
    }
  }

  lemma {:induction false} LineMade(s: Shop, d: Id, inp: Correction, k: nat) returns (made: Line)
    requires ShopOk(s) && Correct(s, d, inp).Ok? && d in s.receipts && k < |s.receipts[d].lines|
    ensures DistinctLines(s.receipts[d].lines) && DistinctTruths(inp.truths, {})
    ensures d in Correct(s, d, inp).value.receipts
    ensures var r, after := s.receipts[d], Correct(s, d, inp).value.receipts[d].lines;
      && |after| == |r.lines|
      && MadeOf(r.lines[k], ChangesFor(WithCurrentOptions(s.books.movements, r.location, r.lines), inp.truths), inp.newLots, made)
      && after[k] == made.(deliveryCost := after[k].deliveryCost)
  {
    hide Correct, ShopOk, WithCurrentOption, ChangesFor, MadeOf, DistinctLines, PlanFor;
    CorrectKeepsRest(s, d, inp);
    CorrectMakes(s, d, inp);
    var after := LinesOf(Correct(s, d, inp).value, d);
    assert MadeAndShared(s.receipts[d].lines[k], ChangesFor(LinesAsTheyAre(s, d), inp.truths), inp.newLots, after[k]);
    made :| MadeOf(s.receipts[d].lines[k], ChangesFor(LinesAsTheyAre(s, d), inp.truths), inp.newLots, made)
            && after[k] == made.(deliveryCost := after[k].deliveryCost);
  }

  lemma {:induction false} SharedAsStated(before: Line, now: Option<Id>, t: Truth, made: Line, after: Line)
    requires AsStated(before, now, t, made) && after == made.(deliveryCost := after.deliveryCost)
    ensures AsStated(before, now, t, after)
  {
  }

  lemma {:induction false} CorrectKeepsRest(s: Shop, d: Id, inp: Correction)
    requires d in s.receipts && Correct(s, d, inp).Ok?
    ensures d in Correct(s, d, inp).value.receipts
    ensures Correct(s, d, inp).value.receipts[d]
      == s.receipts[d].(fee := if inp.fee.Some? then inp.fee.value else s.receipts[d].fee,
                        lines := Correct(s, d, inp).value.receipts[d].lines)
    ensures forall e :: e != d ==> (e in Correct(s, d, inp).value.receipts <==> e in s.receipts)
    ensures forall e :: e != d && e in s.receipts ==> Correct(s, d, inp).value.receipts[e] == s.receipts[e]
  {
    hide PlanFor, BillAfter, ApplyChanges, ShareTheFee;
  }

  // -- The bill ---------------------------------------------------------------

  /** What was recorded as charged for a line. */
  function ChargedFor(lines: seq<Line>, id: Id): int {
    if lines == [] then 0 else if lines[0].id == id then lines[0].totalCost else ChargedFor(lines[1..], id)
  }

  /** By how much the figures stated change what the vendor charged. */
  function StatedRise(lines: seq<Line>, truths: seq<Truth>): int {
    if truths == [] then 0 else truths[0].totalCost - ChargedFor(lines, truths[0].line) + StatedRise(lines, truths[1..])
  }

  lemma {:induction false} ChargedIsFound(ms: seq<Movement>, location: Id, lines: seq<Line>, id: Id)
    ensures var found := FindLine(WithCurrentOptions(ms, location, lines), id);
      ChargedFor(lines, id) == if found.Some? then found.value.totalCost else 0
  {
    hide MovedInto;
    if lines != [] {
      ChargedIsFound(ms, location, lines[1..], id);
    }
  }

  lemma {:induction false} DeltaIsStated(ms: seq<Movement>, location: Id, lines: seq<Line>, truths: seq<Truth>)
    requires forall i :: 0 <= i < |truths| ==> FindLine(WithCurrentOptions(ms, location, lines), truths[i].line).Some?
    ensures ValueDelta(ChangesFor(WithCurrentOptions(ms, location, lines), truths)) == StatedRise(lines, truths)
  {
    hide WithCurrentOptions;
    if truths != [] {
      ChargedIsFound(ms, location, lines, truths[0].line);
      var recorded := WithCurrentOptions(ms, location, lines);
      DeltaIsStated(ms, location, lines, truths[1..]);
      var rest := ChangesFor(recorded, truths[1..]);
      var ch := ChangeTo(FindLine(recorded, truths[0].line).value, truths[0]);
      assert ([ch] + rest)[1..] == rest;
      assert [] + rest == rest;
    }
  }

  /** A delivery's live bill moves by exactly what the figures stated add to what the vendor charged; no other bill, no payment and no rebate moves. */
  lemma {:induction false} BillMovesAsStated(s: Shop, d: Id, inp: Correction)
    requires ShopOk(s) && Correct(s, d, inp).Ok?
    ensures d in s.receipts
    ensures var bill, v, v1 := s.receipts[d].bill, s.vendors, Correct(s, d, inp).value.vendors;
      && v1.payments == v.payments && v1.rebates == v.rebates && |v1.bills| == |v.bills|
      && (bill < |v.bills| ==> v1.bills[bill] == v.bills[bill].(amountDue :=
            v.bills[bill].amountDue + if v.bills[bill].deleted then 0 else StatedRise(s.receipts[d].lines, inp.truths)))
      && forall other :: 0 <= other < |v.bills| && other != bill ==> v1.bills[other] == v.bills[other]
  {
    hide ShopOk, WithCurrentOptions, MadeOf, PlanFor, ApplyChanges, ShareTheFee;
    CorrectMakes(s, d, inp);
    var r := s.receipts[d];
    DeltaIsStated(s.books.movements, r.location, r.lines, inp.truths);
  }

  // -- What is accepted -------------------------------------------------------

  predicate OneLineAnId(lines: seq<Line>) {
    forall i, j :: 0 <= i < j < |lines| ==> lines[i].id != lines[j].id
  }

  /** No more was paid for than came, something came of what is newly named, and nothing that did not come is charged. */
  predicate StatesSense(line: Line, t: Truth) {
    && t.paidFor <= t.received
    && (t.received == 0 ==>
          (t.totalCost == 0 && ProductStated(line, t) == line.product && OptionStated(line, line.option, t) == line.option))
  }

  predicate StatesNews(line: Line, t: Truth) {
    || ProductStated(line, t) != line.product || OptionStated(line, line.option, t) != line.option
    || t.received != line.received || t.paidFor != line.paidFor || t.totalCost != line.totalCost
  }

  lemma {:induction false} FoundExactly(lines: seq<Line>, k: nat)
    requires OneLineAnId(lines) && k < |lines|
    ensures FindLine(lines, lines[k].id) == Some(lines[k])
  {
    if k > 0 {
      assert lines[0].id != lines[k].id;
      FoundExactly(lines[1..], k - 1);
    }
  }

  lemma {:induction false} SensibleExactly(recorded: seq<Line>, truths: seq<Truth>, seen: set<Id>)
    ensures Sensible(recorded, truths, seen) <==>
      && DistinctTruths(truths, seen)
      && forall i :: 0 <= i < |truths| ==>
           FindLine(recorded, truths[i].line).Some? && ProblemWith(FindLine(recorded, truths[i].line).value, truths[i]).None?
    decreases truths
  {
    hide FindLine, ProblemWith;
    if truths != [] {
      var t, rest := truths[0], truths[1..];
      SensibleExactly(recorded, rest, seen + {t.line});
      assert truths == [t] + rest;
      if DistinctTruths(truths, seen) {
        forall i | 0 <= i < |rest|
          ensures rest[i].line !in seen + {t.line}
        {
          assert rest[i] == truths[i + 1];
        }
        assert DistinctTruths(rest, seen + {t.line});
      }
    }
  }

  lemma {:induction false} SenseExactly(line: Line, t: Truth)
    ensures ProblemWith(line, t).None? <==> StatesSense(line, t)
    ensures Unchanged(line, t) <==> !StatesNews(line, t)
  {
  }

  predicate StatedOf(recorded: seq<Line>, t: Truth) {
    exists k :: 0 <= k < |recorded| && recorded[k].id == t.line && StatesSense(recorded[k], t)
  }

  predicate NewsOf(recorded: seq<Line>, t: Truth) {
    exists k :: 0 <= k < |recorded| && recorded[k].id == t.line && StatesNews(recorded[k], t)
  }

  lemma {:induction false} FoundAndStated(recorded: seq<Line>, t: Truth)
    requires OneLineAnId(recorded)
    ensures StatedOf(recorded, t) <==> FindLine(recorded, t.line).Some? && ProblemWith(FindLine(recorded, t.line).value, t).None?
    ensures NewsOf(recorded, t) <==> FindLine(recorded, t.line).Some? && !Unchanged(FindLine(recorded, t.line).value, t)
  {
    hide ProblemWith, StatesSense, StatesNews, Unchanged;
    FoundLine(recorded, t.line);
    forall k | 0 <= k < |recorded| && recorded[k].id == t.line
      ensures FindLine(recorded, t.line) == Some(recorded[k])
    {
      FoundExactly(recorded, k);
    }
    if FindLine(recorded, t.line).Some? {
      SenseExactly(FindLine(recorded, t.line).value, t);
    }
  }

  /**
   * A correction is planned exactly when every line stated is on the delivery, each
   * once, each in figures that make sense, and something stated is news, or the fee is.
   */
  lemma {:induction false} PlannedExactly(recorded: seq<Line>, truths: seq<Truth>, feeChanged: bool)
    requires OneLineAnId(recorded)
    ensures PlanCorrection(recorded, truths, feeChanged).problems == [] <==>
      && (forall i :: 0 <= i < |truths| ==> StatedOf(recorded, truths[i]))
      && (forall i, j :: 0 <= i < j < |truths| ==> truths[i].line != truths[j].line)
      && (feeChanged || exists i :: 0 <= i < |truths| && NewsOf(recorded, truths[i]))
  {
    hide FindLine, ProblemWith, Unchanged, StatedOf, NewsOf, PlanCorrection;
    PlanAcceptsExactly(recorded, truths, feeChanged);
    SensibleExactly(recorded, truths, {});
    forall i | 0 <= i < |truths|
      ensures StatedOf(recorded, truths[i]) <==>
        FindLine(recorded, truths[i].line).Some? && ProblemWith(FindLine(recorded, truths[i].line).value, truths[i]).None?
      ensures NewsOf(recorded, truths[i]) <==>
        FindLine(recorded, truths[i].line).Some? && !Unchanged(FindLine(recorded, truths[i].line).value, truths[i])
    {
      FoundAndStated(recorded, truths[i]);
    }
  }

  /** A correction is refused for its bill exactly when the bill stands, its value moves, and it would fall below what was paid and credited. */
  lemma {:induction false} BillAllowsExactly(s: Shop, bill: nat, delta: int)
    requires bill < |s.vendors.bills|
    ensures BillAfter(s, bill, delta).Err? <==>
      && !s.vendors.bills[bill].deleted && delta != 0
      && s.vendors.bills[bill].amountDue + delta < Payables.Paid(s.vendors.payments, bill) + Payables.Rebated(s.vendors.rebates, bill)
  {
  }

  /** The option a line's stock is in: its own, or that of the first movement that took its lot into an option at this location. */
  lemma {:induction false} OptionNowIsTheFirst(ms: seq<Movement>, location: Id, line: Line, i: nat)
    requires i < |ms| && ms[i].kind == TransferIn && ms[i].key.lot == line.lot && ms[i].key.location == location && ms[i].key.option.Some?
    requires forall j :: 0 <= j < i ==>
      !(ms[j].kind == TransferIn && ms[j].key.lot == line.lot && ms[j].key.location == location && ms[j].key.option.Some?)
    ensures WithCurrentOption(ms, location, line).option == if line.option.Some? then line.option else ms[i].key.option
  {
    if i > 0 {
      OptionNowIsTheFirst(ms[1..], location, line, i - 1);
    }
  }

  lemma {:induction false} OptionNowIsNone(ms: seq<Movement>, location: Id, line: Line)
    requires forall j :: 0 <= j < |ms| ==>
      !(ms[j].kind == TransferIn && ms[j].key.lot == line.lot && ms[j].key.location == location && ms[j].key.option.Some?)
    ensures WithCurrentOption(ms, location, line).option == line.option
  {
    if ms != [] {
      OptionNowIsNone(ms[1..], location, line);
    }
  }

  // -- The stock --------------------------------------------------------------

  lemma {:induction false} TakenFromOne(a: seq<Fefo.Allocation>, lot: Id, l: Id)
    requires forall i :: 0 <= i < |a| ==> a[i].lot == lot
    ensures Fefo.TakenFrom(a, l) == if l == lot then Fefo.Taken(a) else 0
  {
    if a != [] {
      TakenFromOne(a[1..], lot, l);
    }
  }

  lemma {:induction false} TakeBackAtKey(b: Books, site: Site, inp: Correction, product: Id, option: Option<Id>, lot: Id, quantity: int, k: Key)
    requires Sound(b) && TakeBack(b, site, inp, product, option, lot, quantity).Ok?
    ensures RowSum(TakeBack(b, site, inp, product, option, lot, quantity).value.balances, AtKey(k))
         == RowSum(b.balances, AtKey(k)) - if k == Key(product, option, site.location, lot) then quantity else 0
  {
    hide Outbound, Allocations;
    var out := OutOfLot(site, inp, product, option, lot, quantity);
    OutboundAtKey(b, out, 0, k);
    PinnedStays(b, out, 0);
    AllocationsTotal(b, out, 0);
    TakenFromOne(Allocations(b, out, 0), lot, k.lot);
  }

  lemma {:induction false} PutInAtKey(b: Books, site: Site, product: Id, option: Option<Id>, lot: Id, quantity: int, k: Key)
    requires Sound(b) && PutIn(b, site, product, option, lot, quantity).Ok?
    ensures RowSum(PutIn(b, site, product, option, lot, quantity).value.balances, AtKey(k))
         == RowSum(b.balances, AtKey(k)) + if k == Key(product, option, site.location, lot) then quantity else 0
  {
    StockOutcomes.InboundExactly(b, Key(product, option, site.location, lot), quantity, Adjustment, Some(Delivery(site.delivery)), k);
  }

  /** What one change does to one balance: what was recorded leaves where its stock is, what came arrives where it belongs. */
  function StockOf(ch: Change, newLots: map<Id, Id>, location: Id, k: Key): int {
    (if k == Key(ProductAfter(ch), ch.option, location, LotAfter(ch, newLots)) then ch.received else 0)
    - (if k == Key(ch.line.product, ch.line.option, location, ch.line.lot) then ch.line.received else 0)
  }

  /** A change of figures alone leaves the option alone. */
  predicate KeepsOption(ch: Change) {
    ch.newProduct.None? && !ch.newOption ==> ch.option == ch.line.option
  }

  lemma {:induction false} SameProductStock(b: Books, site: Site, ch: Change, inp: Correction, k: Key)
    requires Sound(b) && ShapeOk(ch) && KeepsOption(ch) && ch.newProduct.None? && SameProduct(b, site, ch, inp).Ok?
    ensures RowSum(SameProduct(b, site, ch, inp).value.balances, AtKey(k))
         == RowSum(b.balances, AtKey(k)) + StockOf(ch, inp.newLots, site.location, k)
  {
    hide Sound, TakeBack, PutIn, VariantAllowed, Moved;
    var lot := ch.line.lot;
    if ch.newOption {
      var b1 := if ch.line.received > 0
                then TakeBack(b, site, inp, ch.line.product, ch.line.option, lot, ch.line.received).value else b;
      if ch.line.received > 0 {
        TakeBackAtKey(b, site, inp, ch.line.product, ch.line.option, lot, ch.line.received, k);
        TakeBackMoves(b, site, inp, ch.line.product, ch.line.option, lot, ch.line.received);
        MovedSound(b, b1, site.delivery, lot, 0 - ch.line.received);
      }
      PutInAtKey(b1, site, ch.line.product, ch.option, lot, ch.received, k);
    } else if ch.stockDelta < 0 {
      TakeBackAtKey(b, site, inp, ch.line.product, ch.option, lot, -ch.stockDelta, k);
    } else if ch.stockDelta > 0 {
      PutInAtKey(b, site, ch.line.product, ch.option, lot, ch.stockDelta, k);
    }
  }

  lemma {:induction false} ToRightProductStock(b: Books, stocked: set<Id>, site: Site, ch: Change, inp: Correction, k: Key)
    requires Sound(b) && ch.newProduct.Some? && ToRightProduct(b, stocked, site, ch, ch.newProduct.value, inp).Ok?
    ensures RowSum(ToRightProduct(b, stocked, site, ch, ch.newProduct.value, inp).value.balances, AtKey(k))
         == RowSum(b.balances, AtKey(k)) + StockOf(ch, inp.newLots, site.location, k)
  {
    hide Sound, TakeBack, PutIn, VariantAllowed, Moved;
    var product := ch.newProduct.value;
    var b1 := if ch.line.received > 0
              then TakeBack(b, site, inp, ch.line.product, ch.line.option, ch.line.lot, ch.line.received).value else b;
    if ch.line.received > 0 {
      TakeBackAtKey(b, site, inp, ch.line.product, ch.line.option, ch.line.lot, ch.line.received, k);
      TakeBackMoves(b, site, inp, ch.line.product, ch.line.option, ch.line.lot, ch.line.received);
      MovedSound(b, b1, site.delivery, ch.line.lot, 0 - ch.line.received);
    }
    var lots2 := SetLot(b1.lots, ch.line.lot, 0, 0, 0);
    var lot := inp.newLots[ch.line.id];
    var expiry := if ch.line.lot in b.lots then b.lots[ch.line.lot].expiry else None;
    var lots3 := lots2[lot := Lot(product, expiry, site.receivedAt, ch.received, ch.paidFor, ch.totalCost)];
    FiguresSound(b1, lots3);
    PutInAtKey(b1.(lots := lots3), site, product, ch.option, lot, ch.received, k);
  }

  function StockOfAll(changes: seq<Change>, newLots: map<Id, Id>, location: Id, k: Key): int {
    if changes == [] then 0 else StockOf(changes[0], newLots, location, k) + StockOfAll(changes[1..], newLots, location, k)
  }

  lemma {:induction false} OneChangeStock(b: Books, lines: seq<Line>, stocked: set<Id>, site: Site, ch: Change, inp: Correction, k: Key)
    requires Sound(b) && ShapeOk(ch) && KeepsOption(ch) && ApplyChange(b, lines, stocked, site, ch, inp).Ok?
    ensures RowSum(ApplyChange(b, lines, stocked, site, ch, inp).value.books.balances, AtKey(k))
         == RowSum(b.balances, AtKey(k)) + StockOf(ch, inp.newLots, site.location, k)
  {
    hide Sound, ToRightProduct, SameProduct, ReplaceLine, SetLot, ShapeOk, StockOf;
    if ch.newProduct.Some? {
      ToRightProductStock(b, stocked, site, ch, inp, k);
    } else {
      SameProductStock(b, site, ch, inp, k);
    }
  }

  lemma {:induction false} ChangesStock(b: Books, lines: seq<Line>, stocked: set<Id>, site: Site, changes: seq<Change>, inp: Correction, q: Key)
    requires Sound(b) && LinesOk(b, site.delivery, lines) && ChangesOk(lines, changes)
    requires forall i :: 0 <= i < |changes| ==> KeepsOption(changes[i])
    requires ApplyChanges(b, lines, stocked, site, changes, inp).Ok?
    ensures RowSum(ApplyChanges(b, lines, stocked, site, changes, inp).value.books.balances, AtKey(q))
         == RowSum(b.balances, AtKey(q)) + StockOfAll(changes, inp.newLots, site.location, q)
    decreases changes
  {
    hide ApplyChange, LinesOk, Elsewhere, Sound, ShapeOk, StockOf, KeepsOption;
    if changes != [] {
      var ch := changes[0];
      assert ShapeOk(ch) && OnLine(lines, ch) && KeepsOption(ch);
      var k: nat :| k < |lines| && IsLine(lines, k, ch.line);
      OneChangeKeeps(b, lines, stocked, site, ch, inp, k);
      OneChangeStock(b, lines, stocked, site, ch, inp, q);
      var a := ApplyChange(b, lines, stocked, site, ch, inp).value;
      var line: Line :| line.id == lines[k].id && a.lines == lines[k := line];
      StillOnLines(lines, changes, k, line);
      ElsewhereSound(b, a.books, site.delivery, lines, a.lines);
      ChangesStock(a.books, a.lines, stocked, site, changes[1..], inp, q);
    }
  }

  /** What the figures stated of one line do to one balance. */
  function StatedStock(line: Line, now: Option<Id>, t: Truth, newLots: map<Id, Id>, location: Id, k: Key): int {
    var product := ProductStated(line, t);
    var lot := if product == line.product then line.lot else if line.id in newLots then newLots[line.id] else 0;
    (if k == Key(product, OptionStated(line, now, t), location, lot) then t.received else 0)
    - (if k == Key(line.product, now, location, line.lot) then line.received else 0)
  }

  function LineWithId(lines: seq<Line>, id: Id): Option<Line> {
    if lines == [] then None else if lines[0].id == id then Some(lines[0]) else LineWithId(lines[1..], id)
  }

  function StatedStockOfAll(s: Shop, d: Id, truths: seq<Truth>, newLots: map<Id, Id>, k: Key): int
    requires d in s.receipts
  {
    if truths == [] then 0
    else
      var line := LineWithId(s.receipts[d].lines, truths[0].line);
      (if line.None? then 0
       else StatedStock(line.value, OptionNow(s, d, line.value), truths[0], newLots, s.receipts[d].location, k))
      + StatedStockOfAll(s, d, truths[1..], newLots, k)
  }

  lemma {:induction false} FoundAsItIsNow(ms: seq<Movement>, location: Id, lines: seq<Line>, id: Id)
    ensures var found, line := FindLine(WithCurrentOptions(ms, location, lines), id), LineWithId(lines, id);
      && (found.Some? <==> line.Some?)
      && (line.Some? ==> found.value == WithCurrentOption(ms, location, line.value))
  {
    hide MovedInto;
    if lines != [] {
      FoundAsItIsNow(ms, location, lines[1..], id);
    }
  }

  lemma {:induction false} StockIsStated(line: Line, now: Line, t: Truth, newLots: map<Id, Id>, location: Id, k: Key)
    requires now == line.(option := now.option)
    ensures Unchanged(now, t) ==> StatedStock(line, now.option, t, newLots, location, k) == 0
    ensures !Unchanged(now, t) ==>
      StockOf(ChangeTo(now, t), newLots, location, k) == StatedStock(line, now.option, t, newLots, location, k)
    ensures KeepsOption(ChangeTo(now, t))
  {
  }

  lemma {:induction false} StockOfFirst(ch: Change, rest: seq<Change>, newLots: map<Id, Id>, location: Id, k: Key)
    ensures StockOfAll([ch] + rest, newLots, location, k) == StockOf(ch, newLots, location, k) + StockOfAll(rest, newLots, location, k)
  {
    assert ([ch] + rest)[1..] == rest;
  }

  lemma {:induction false} AllStockIsStated(s: Shop, d: Id, truths: seq<Truth>, newLots: map<Id, Id>, k: Key)
    requires d in s.receipts
    ensures var recorded := WithCurrentOptions(s.books.movements, s.receipts[d].location, s.receipts[d].lines);
      var changes := ChangesFor(recorded, truths);
      && StockOfAll(changes, newLots, s.receipts[d].location, k) == StatedStockOfAll(s, d, truths, newLots, k)
      && forall i :: 0 <= i < |changes| ==> KeepsOption(changes[i])
  {
    hide WithCurrentOptions, MovedInto, Unchanged, ChangeTo, StockOf, StatedStock, KeepsOption;
    if truths != [] {
      AllStockIsStated(s, d, truths[1..], newLots, k);
      var r := s.receipts[d];
      var recorded := WithCurrentOptions(s.books.movements, r.location, r.lines);
      FoundAsItIsNow(s.books.movements, r.location, r.lines, truths[0].line);
      var found := FindLine(recorded, truths[0].line);
      var rest := ChangesFor(recorded, truths[1..]);
      assert [] + rest == rest;
      if found.Some? {
        var ch := ChangeTo(found.value, truths[0]);
        StockOfFirst(ch, rest, newLots, r.location, k);
        StockIsStated(LineWithId(r.lines, truths[0].line).value, found.value, truths[0], newLots, r.location, k);
      }
    }
  }

  /**
   * An accepted correction moves exactly this stock, balance by balance: what was
   * recorded of every line stated leaves the lot and option it is in, and what was
   * stated arrives on the lot and under the option it belongs to, at the delivery's location.
   */
  lemma {:induction false} StockMovesAsStated(s: Shop, d: Id, inp: Correction, k: Key)
    requires ShopOk(s) && Correct(s, d, inp).Ok?
    ensures d in s.receipts
    ensures RowSum(Correct(s, d, inp).value.books.balances, AtKey(k))
         == RowSum(s.books.balances, AtKey(k)) + StatedStockOfAll(s, d, inp.truths, inp.newLots, k)
  {
    hide Sound, Accounted, Payables.NeverOverpaid, ApplyChanges, LinesOk, SharesOk, BillAfter, Fee.Split, WithCurrentOptions, MadeOf,
         LotsApart, RefsKnown, ChangesOk, ChangesFor, StockOfAll, StatedStockOfAll, Share;
    CorrectMakes(s, d, inp);
    var r := s.receipts[d];
    assert ReceiptOk(s.books, d, r);
    AllStockIsStated(s, d, inp.truths, inp.newLots, k);
    PlanIsAboutLines(s.books.movements, r.location, r.lines, inp.truths, inp.fee.Some? && inp.fee.value != r.fee);
    ChangesStock(s.books, r.lines, s.stocked, SiteOf(d, r), PlanFor(s, d, inp).changes, inp, k);
  }

  // -- The lots ---------------------------------------------------------------

  /** Lots keep what they are of and when they go off and came in; only their figures may move. */
  predicate DatesKept(before: map<Id, Lot>, after: map<Id, Lot>) {
    && before.Keys <= after.Keys
    && forall lot :: lot in before ==> SameOrigin(before[lot], after[lot])
  }

  predicate SameOrigin(x: Lot, y: Lot) {
    y.product == x.product && y.expiry == x.expiry && y.receivedAt == x.receivedAt
  }

  lemma {:induction false} TakeBackKeepsLots(b: Books, site: Site, inp: Correction, product: Id, option: Option<Id>, lot: Id, quantity: int)
    requires Sound(b) && TakeBack(b, site, inp, product, option, lot, quantity).Ok?
    ensures TakeBack(b, site, inp, product, option, lot, quantity).value.lots == b.lots
  {
    TakeBackMoves(b, site, inp, product, option, lot, quantity);
  }

  /** A line of another product leaves its old lot with nothing to its name, and a new one with the old one's expiry and the delivery's day. */
  predicate NewLotOk(before: map<Id, Lot>, after: map<Id, Lot>, ch: Change, newLots: map<Id, Id>, receivedAt: Time) {
    ch.newProduct.Some? && ch.line.lot in before ==>
      && ch.line.id in newLots && newLots[ch.line.id] in after
      && after[newLots[ch.line.id]].product == ch.newProduct.value
      && after[newLots[ch.line.id]].expiry == before[ch.line.lot].expiry
      && after[newLots[ch.line.id]].receivedAt == receivedAt
      && newLots[ch.line.id] !in before
  }

  lemma {:induction false} OneChangeLots(b: Books, lines: seq<Line>, stocked: set<Id>, site: Site, ch: Change, inp: Correction)
    requires Sound(b) && ch.line.lot in b.lots && ApplyChange(b, lines, stocked, site, ch, inp).Ok?
    ensures var after := ApplyChange(b, lines, stocked, site, ch, inp).value.books.lots;
      DatesKept(b.lots, after) && NewLotOk(b.lots, after, ch, inp.newLots, site.receivedAt)
  {
    hide Sound, TakeBack, VariantAllowed, ReplaceLine, Moved;
    if ch.line.received > 0 && TakeBack(b, site, inp, ch.line.product, ch.line.option, ch.line.lot, ch.line.received).Ok? {
      TakeBackKeepsLots(b, site, inp, ch.line.product, ch.line.option, ch.line.lot, ch.line.received);
    }
    if ch.stockDelta < 0 && TakeBack(b, site, inp, ch.line.product, ch.option, ch.line.lot, -ch.stockDelta).Ok? {
      TakeBackKeepsLots(b, site, inp, ch.line.product, ch.option, ch.line.lot, -ch.stockDelta);
    }
  }

  lemma {:induction false} ChangesLots(b: Books, lines: seq<Line>, stocked: set<Id>, site: Site, changes: seq<Change>, inp: Correction)
    requires Sound(b) && LinesOk(b, site.delivery, lines) && ChangesOk(lines, changes)
    requires ApplyChanges(b, lines, stocked, site, changes, inp).Ok?
    ensures var after := ApplyChanges(b, lines, stocked, site, changes, inp).value.books.lots;
      && DatesKept(b.lots, after)
      && forall i :: 0 <= i < |changes| ==> NewLotOk(b.lots, after, changes[i], inp.newLots, site.receivedAt)
    decreases changes
  {
    hide ApplyChange, LinesOk, Elsewhere, Sound, ShapeOk;
    if changes != [] {
      var ch := changes[0];
      assert ShapeOk(ch) && OnLine(lines, ch);
      var k: nat :| k < |lines| && IsLine(lines, k, ch.line);
      LinesHaveLots(b, site.delivery, lines);
      OneChangeKeeps(b, lines, stocked, site, ch, inp, k);
      OneChangeLots(b, lines, stocked, site, ch, inp);
      var a := ApplyChange(b, lines, stocked, site, ch, inp).value;
      var line: Line :| line.id == lines[k].id && a.lines == lines[k := line];
      StillOnLines(lines, changes, k, line);
      ElsewhereSound(b, a.books, site.delivery, lines, a.lines);
      ChangesLots(a.books, a.lines, stocked, site, changes[1..], inp);
      var after := ApplyChanges(a.books, a.lines, stocked, site, changes[1..], inp).value.books.lots;
      forall i | 0 <= i < |changes|
        ensures NewLotOk(b.lots, after, changes[i], inp.newLots, site.receivedAt)
      {
        NewLotThen(b.lots, a.books.lots, after, changes, i, inp.newLots, site.receivedAt);
      }
    }
  }

  lemma {:induction false} NewLotThen(b0: map<Id, Lot>, b1: map<Id, Lot>, b2: map<Id, Lot>, changes: seq<Change>, i: nat,
                                       newLots: map<Id, Id>, receivedAt: Time)
    requires i < |changes| && DatesKept(b0, b1) && DatesKept(b1, b2)
    requires i == 0 ==> NewLotOk(b0, b1, changes[0], newLots, receivedAt)
    requires i > 0 ==> NewLotOk(b1, b2, changes[1..][i - 1], newLots, receivedAt)
    ensures NewLotOk(b0, b2, changes[i], newLots, receivedAt)
  {
    if i == 0 {
      NewLotStays(b0, b1, b2, changes[0], newLots, receivedAt);
    } else {
      assert changes[1..][i - 1] == changes[i];
      assert changes[i].line.lot in b0 ==> SameOrigin(b0[changes[i].line.lot], b1[changes[i].line.lot]);
    }
  }

  lemma {:induction false} ShareKeepsDates(lots: map<Id, Lot>, lines: seq<Line>, shares: seq<nat>)
    requires |shares| == |lines|
    ensures DatesKept(lots, Share(lots, lines, shares).0)
    decreases lines
  {
    if lines != [] {
      var line := lines[0];
      var lots1 := if line.lot in lots then lots[line.lot := lots[line.lot].(totalCost := line.totalCost + shares[0])] else lots;
      ShareKeepsDates(lots1, lines[1..], shares[1..]);
    }
  }

  /**
   * A correction never changes what a lot is of, when it goes off or when it came
   * in. A line of another product gets a lot of its own, of that product, going off
   * when the old one did and dated the delivery's day.
   */
  lemma {:induction false} CorrectLots(s: Shop, d: Id, inp: Correction, k: nat)
    requires ShopOk(s) && Correct(s, d, inp).Ok? && d in s.receipts && k < |s.receipts[d].lines|
    ensures d in Correct(s, d, inp).value.receipts && k < |Correct(s, d, inp).value.receipts[d].lines|
    ensures var before, after := s.receipts[d].lines[k], Correct(s, d, inp).value.receipts[d].lines[k];
      var lots, lots1 := s.books.lots, Correct(s, d, inp).value.books.lots;
      && DatesKept(lots, lots1)
      && before.lot in lots && after.lot in lots1
      && lots1[after.lot].expiry == lots[before.lot].expiry
      && (after.product == before.product ==> after.lot == before.lot)
      && (after.product != before.product ==> after.lot !in lots && lots1[after.lot].receivedAt == s.receipts[d].receivedAt)
  {
    hide Correct, ShopOk, ChangesFor, MadeOf, DistinctLines, DatesKept, NewLotOk, Made, WithCurrentOptions;
    CorrectDates(s, d, inp);
    var made := LineMade(s, d, inp, k);
    CorrectMakes(s, d, inp);
    var r := s.receipts[d];
    var changes := PlanFor(s, d, inp).changes;
    ReceiptLots(s, d, k);
    OneLineLots(r.lines[k], changes, inp.newLots, made, s.books.lots, Correct(s, d, inp).value.books.lots, r.receivedAt);
  }

  lemma {:induction false} ReceiptLots(s: Shop, d: Id, k: nat)
    requires ShopOk(s) && d in s.receipts && k < |s.receipts[d].lines|
    ensures s.receipts[d].lines[k].lot in s.books.lots
    ensures s.books.lots[s.receipts[d].lines[k].lot].product == s.receipts[d].lines[k].product
  {
    assert ReceiptOk(s.books, d, s.receipts[d]);
    assert LineOk(s.books, d, s.receipts[d].lines[k]);
  }

  lemma {:induction false} OneLineLots(line: Line, changes: seq<Change>, newLots: map<Id, Id>, made: Line,
                                        lots: map<Id, Lot>, after: map<Id, Lot>, receivedAt: Time)
    requires MadeOf(line, changes, newLots, made) && line.lot in lots && DatesKept(lots, after)
    requires forall i :: 0 <= i < |changes| && changes[i].line.id == line.id ==>
      changes[i].line == line.(option := changes[i].line.option) && NewLotOk(lots, after, changes[i], newLots, receivedAt)
      && (changes[i].newProduct.Some? ==> changes[i].newProduct.value != line.product)
    ensures made.lot in after && after[made.lot].expiry == lots[line.lot].expiry
    ensures made.product == line.product ==> made.lot == line.lot
    ensures made.product != line.product ==> made.lot !in lots && after[made.lot].receivedAt == receivedAt
  {
    if exists i :: 0 <= i < |changes| && changes[i].line.id == line.id {
      var i :| 0 <= i < |changes| && changes[i].line.id == line.id;
      assert made == Made(changes[i], newLots);
    }
  }

  lemma {:induction false} CorrectDates(s: Shop, d: Id, inp: Correction)
    requires ShopOk(s) && Correct(s, d, inp).Ok?
    ensures d in s.receipts
    ensures var r, changes := s.receipts[d], PlanFor(s, d, inp).changes;
      var lots1 := Correct(s, d, inp).value.books.lots;
      && DatesKept(s.books.lots, lots1)
      && forall i, k :: 0 <= i < |changes| && 0 <= k < |r.lines| && changes[i].line.id == r.lines[k].id ==>
           && changes[i].line == r.lines[k].(option := changes[i].line.option)
           && NewLotOk(s.books.lots, lots1, changes[i], inp.newLots, r.receivedAt)
           && (changes[i].newProduct.Some? ==> changes[i].newProduct.value != r.lines[k].product)
  {
    hide Sound, Accounted, Payables.NeverOverpaid, ApplyChanges, SharesOk, BillAfter, Fee.Split, WithCurrentOptions, MadeOf, LotsApart,
         RefsKnown, ChangesFor, Share, LinesOk, DatesKept, NewLotOk, DistinctLines;
    CorrectMakes(s, d, inp);
    var r := s.receipts[d];
    assert ReceiptOk(s.books, d, r);
    var recorded := WithCurrentOptions(s.books.movements, r.location, r.lines);
    var changes := PlanFor(s, d, inp).changes;
    PlanIsAboutLines(s.books.movements, r.location, r.lines, inp.truths, inp.fee.Some? && inp.fee.value != r.fee);
    ChangesLots(s.books, r.lines, s.stocked, SiteOf(d, r), changes, inp);
    var changed := ApplyChanges(s.books, r.lines, s.stocked, SiteOf(d, r), changes, inp).value;
    var fee := if inp.fee.Some? then inp.fee.value else r.fee;
    SplitLength(fee.amount, FeeLines(changed.lines));
    var shares := Fee.Split(fee.amount, FeeLines(changed.lines)).value;
    ShareKeepsDates(changed.books.lots, changed.lines, shares);
    var lots1 := Share(changed.books.lots, changed.lines, shares).0;
    assert Correct(s, d, inp).value.books.lots == lots1;
    DatesThen(s.books.lots, changed.books.lots, lots1);
    forall i, k | 0 <= i < |changes| && 0 <= k < |r.lines| && changes[i].line.id == r.lines[k].id
      ensures changes[i].line == r.lines[k].(option := changes[i].line.option)
      ensures NewLotOk(s.books.lots, lots1, changes[i], inp.newLots, r.receivedAt)
      ensures changes[i].newProduct.Some? ==> changes[i].newProduct.value != r.lines[k].product
    {
      ChangesComeFrom(recorded, inp.truths, changes[i]);
      FoundNow(s.books.movements, r.location, r.lines, k);
      FoundChange(recorded, inp.truths, changes[i], r.lines[k]);
      NewLotStays(s.books.lots, changed.books.lots, lots1, changes[i], inp.newLots, r.receivedAt);
    }
  }

  lemma {:induction false} FoundChange(recorded: seq<Line>, truths: seq<Truth>, ch: Change, line: Line)
    requires exists i :: 0 <= i < |truths| && ComesFrom(recorded, truths[i], ch)
    requires ch.line.id == line.id && FindLine(recorded, line.id).Some?
    requires FindLine(recorded, line.id).value == line.(option := FindLine(recorded, line.id).value.option)
    ensures ch.line == line.(option := ch.line.option)
    ensures ch.newProduct.Some? ==> ch.newProduct.value != line.product
  {
    var i :| 0 <= i < |truths| && ComesFrom(recorded, truths[i], ch);
    FoundLine(recorded, truths[i].line);
  }

  lemma {:induction false} DatesThen(b0: map<Id, Lot>, b1: map<Id, Lot>, b2: map<Id, Lot>)
    requires DatesKept(b0, b1) && DatesKept(b1, b2)
    ensures DatesKept(b0, b2)
  {
  }

  lemma {:induction false} NewLotStays(b0: map<Id, Lot>, b1: map<Id, Lot>, b2: map<Id, Lot>, ch: Change, newLots: map<Id, Id>, receivedAt: Time)
    requires NewLotOk(b0, b1, ch, newLots, receivedAt) && DatesKept(b1, b2)
    ensures NewLotOk(b0, b2, ch, newLots, receivedAt)
  {
    if ch.newProduct.Some? && ch.line.lot in b0 {
      var lot := newLots[ch.line.id];
      assert lot in b1 && SameOrigin(b1[lot], b2[lot]);
    }
  }
}
