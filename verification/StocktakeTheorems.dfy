/**
 * What posting a count does and why it is never refused
 * (src/modules/inventory/stocktake.service.ts:254-406).
 */
module StocktakeTheorems {
  import opened Common
  import opened Ledger
  import opened Stock
  import opened Stocktake
  import Fefo

  // -- Measures of what was written and what is in the queue ------------------

  predicate IsTransfer(m: Movement) {
    m.kind == TransferIn || m.kind == TransferOut
  }

  /** Net units the transfers among `ms` put on one lot. */
  function TransferSum(ms: seq<Movement>, lot: Id): int {
    if ms == [] then 0
    else (if IsTransfer(ms[0]) && ms[0].key.lot == lot then ms[0].quantity else 0) + TransferSum(ms[1..], lot)
  }

  /** Net units the adjustments among `ms` wrote. */
  function AdjustSum(ms: seq<Movement>): int {
    if ms == [] then 0 else (if ms[0].kind == Adjustment then ms[0].quantity else 0) + AdjustSum(ms[1..])
  }

  predicate OnlyKinds(ms: seq<Movement>) {
    forall i :: 0 <= i < |ms| ==> IsTransfer(ms[i]) || ms[i].kind == Adjustment
  }

  /** Every adjustment among `ms` has the sign of `sign`; none at all when it is zero. */
  predicate AdjustSign(ms: seq<Movement>, sign: int) {
    forall i :: 0 <= i < |ms| && ms[i].kind == Adjustment ==> ms[i].quantity != 0 && Sign(ms[i].quantity) == sign
  }

  function FreedTotal(freed: seq<Freed>): int {
    if freed == [] then 0 else freed[0].quantity + FreedTotal(freed[1..])
  }

  function FreedOn(freed: seq<Freed>, lot: Id): int {
    if freed == [] then 0 else (if freed[0].lot == lot then freed[0].quantity else 0) + FreedOn(freed[1..], lot)
  }

  /** The queue never holds an empty entry, and only lots that exist. */
  predicate Queue(freed: seq<Freed>, lots: map<Id, Lot>) {
    forall i :: 0 <= i < |freed| ==> freed[i].quantity > 0 && freed[i].lot in lots
  }

  lemma {:induction false} SumsConcat(x: seq<Movement>, y: seq<Movement>)
    ensures AdjustSum(x + y) == AdjustSum(x) + AdjustSum(y)
    ensures forall lot :: TransferSum(x + y, lot) == TransferSum(x, lot) + TransferSum(y, lot)
  {
    if x == [] {
      assert x + y == y;
    } else {
      assert (x + y)[1..] == x[1..] + y;
      SumsConcat(x[1..], y);
    }
  }

  lemma {:induction false} FreedConcat(x: seq<Freed>, y: seq<Freed>)
    ensures FreedTotal(x + y) == FreedTotal(x) + FreedTotal(y)
    ensures forall lot :: FreedOn(x + y, lot) == FreedOn(x, lot) + FreedOn(y, lot)
  {
    if x == [] {
      assert x + y == y;
    } else {
      assert (x + y)[1..] == x[1..] + y;
      FreedConcat(x[1..], y);
    }
  }

  lemma {:induction false} QueueTotal(freed: seq<Freed>, lots: map<Id, Lot>)
    requires Queue(freed, lots)
    ensures FreedTotal(freed) >= 0 && (FreedTotal(freed) == 0 <==> freed == [])
  {
    if freed != [] {
      QueueTotal(freed[1..], lots);
    }
  }

  lemma {:induction false} FreedByFacts(out: seq<Movement>, lots: map<Id, Lot>)
    requires forall i :: 0 <= i < |out| ==> out[i].kind == TransferOut && out[i].quantity < 0 && out[i].key.lot in lots
    ensures Queue(FreedBy(out), lots)
    ensures forall lot :: TransferSum(out, lot) == -FreedOn(FreedBy(out), lot)
    ensures FreedTotal(FreedBy(out)) == -MoveSum(out, Everything)
    ensures AdjustSum(out) == 0
  {
    if out != [] {
      FreedByFacts(out[1..], lots);
    }
  }

  lemma {:induction false} AdjustmentsFacts(out: seq<Movement>)
    requires forall i :: 0 <= i < |out| ==> out[i].kind == Adjustment
    ensures forall lot :: TransferSum(out, lot) == 0
    ensures AdjustSum(out) == MoveSum(out, Everything)
  {
    if out != [] {
      AdjustmentsFacts(out[1..]);
    }
  }

  // -- What one step did ------------------------------------------------------

  /** The movements written between two states. */
  function Since(b0: Books, b1: Books): seq<Movement> {
    if |b0.movements| <= |b1.movements| then b1.movements[|b0.movements|..] else []
  }

  /** `b1` is `b0` with transfers and adjustments appended, and as sound as it was. */
  ghost predicate Wrote(b0: Books, b1: Books) {
    && b0.movements <= b1.movements
    && b1.options == b0.options
    && LotsKept(b0.lots, b1.lots)
    && Sound(b1)
    && (Accounted(b0) ==> Accounted(b1))
    && OnlyKinds(Since(b0, b1))
    && NoDelivery(Since(b0, b1))
  }

  /** The summed variance of one item at one location. */
  function Change(vs: seq<Variance>, c: Sheet, p: Id, o: Option<Id>, l: Id): int {
    if vs == [] then 0
    else (if p == vs[0].line.product && o == vs[0].line.option && l == c.location then vs[0].variance else 0)
         + Change(vs[1..], c, p, o, l)
  }

  ghost predicate Changed(b0: Books, b1: Books, c: Sheet, vs: seq<Variance>) {
    forall p: Id, o: Option<Id>, l: Id :: OnHand(b1, p, o, l) == OnHand(b0, p, o, l) + Change(vs, c, p, o, l)
  }

  /** On every lot, what the transfers put there and what the queue still holds of it come to what the queue held. */
  ghost predicate LotsBalance(ms: seq<Movement>, f0: seq<Freed>, f1: seq<Freed>) {
    forall lot :: TransferSum(ms, lot) + FreedOn(f1, lot) == FreedOn(f0, lot)
  }

  /** The state moved by exactly the variances `vs`, with the queue going from `f0` to `f1`. */
  ghost predicate Step(b0: Books, b1: Books, c: Sheet, vs: seq<Variance>, f0: seq<Freed>, f1: seq<Freed>) {
    && Wrote(b0, b1)
    && Changed(b0, b1, c, vs)
    && LotsBalance(Since(b0, b1), f0, f1)
    && AdjustSum(Since(b0, b1)) == Net(vs) + FreedTotal(f1) - FreedTotal(f0)
    && Queue(f1, b1.lots)
  }

  lemma {:induction false} ChangeConcat(x: seq<Variance>, y: seq<Variance>, c: Sheet, p: Id, o: Option<Id>, l: Id)
    ensures Change(x + y, c, p, o, l) == Change(x, c, p, o, l) + Change(y, c, p, o, l)
  {
    if x == [] {
      assert x + y == y;
    } else {
      assert (x + y)[1..] == x[1..] + y;
      ChangeConcat(x[1..], y, c, p, o, l);
    }
  }

  lemma {:induction false} NetConcat(x: seq<Variance>, y: seq<Variance>)
    ensures Net(x + y) == Net(x) + Net(y)
  {
    if x == [] {
      assert x + y == y;
    } else {
      assert (x + y)[1..] == x[1..] + y;
      NetConcat(x[1..], y);
    }
  }

  lemma {:induction false} SinceThen(b0: Books, b1: Books, b2: Books)
    requires Wrote(b0, b1) && Wrote(b1, b2)
    ensures Since(b0, b2) == Since(b0, b1) + Since(b1, b2)
    ensures Wrote(b0, b2)
  {
    var w1, w2 := Since(b0, b1), Since(b1, b2);
    assert b1.movements == b0.movements + w1;
    assert b2.movements == b1.movements + w2;
    assert b2.movements == b0.movements + (w1 + w2);
  }

  lemma {:induction false} ChangedThen(b0: Books, b1: Books, b2: Books, c: Sheet, x: seq<Variance>, y: seq<Variance>)
    requires Changed(b0, b1, c, x) && Changed(b1, b2, c, y)
    ensures Changed(b0, b2, c, x + y)
  {
    forall p: Id, o: Option<Id>, l: Id
      ensures OnHand(b2, p, o, l) == OnHand(b0, p, o, l) + Change(x + y, c, p, o, l)
    {
      ChangeConcat(x, y, c, p, o, l);
      assert OnHand(b1, p, o, l) == OnHand(b0, p, o, l) + Change(x, c, p, o, l);
    }
  }

  /** Steps compose. */
  lemma {:induction false} StepThen(b0: Books, b1: Books, b2: Books, c: Sheet, x: seq<Variance>, y: seq<Variance>,
                 f0: seq<Freed>, f1: seq<Freed>, f2: seq<Freed>)
    requires Step(b0, b1, c, x, f0, f1) && Step(b1, b2, c, y, f1, f2)
    ensures Step(b0, b2, c, x + y, f0, f2)
  {
    SinceThen(b0, b1, b2);
    ChangedThen(b0, b1, b2, c, x, y);
    NetConcat(x, y);
    SumsConcat(Since(b0, b1), Since(b1, b2));
  }

  lemma {:induction false} StepGives(b0: Books, b1: Books, c: Sheet, vs: seq<Variance>, f0: seq<Freed>, f1: seq<Freed>)
    requires Step(b0, b1, c, vs, f0, f1)
    ensures Sound(b1) && Queue(f1, b1.lots)
  {
  }

  lemma {:induction false} NoStep(b: Books, c: Sheet, f: seq<Freed>)
    requires Sound(b) && Queue(f, b.lots)
    ensures Step(b, b, c, [], f, f)
  {
    assert Since(b, b) == [];
  }

  /** Two variances of one line are one variance of their sum. */
  lemma {:induction false} MergeVariances(b0: Books, b1: Books, c: Sheet, line: Line, q1: int, q2: int, f0: seq<Freed>, f1: seq<Freed>)
    requires Step(b0, b1, c, [Variance(line, q1)] + [Variance(line, q2)], f0, f1)
    ensures Step(b0, b1, c, [Variance(line, q1 + q2)], f0, f1)
  {
    NetConcat([Variance(line, q1)], [Variance(line, q2)]);
    forall p: Id, o: Option<Id>, l: Id
      ensures OnHand(b1, p, o, l) == OnHand(b0, p, o, l) + Change([Variance(line, q1 + q2)], c, p, o, l)
    {
      ChangeConcat([Variance(line, q1)], [Variance(line, q2)], c, p, o, l);
    }
  }

  // -- The short options ------------------------------------------------------

  lemma {:induction false} MoveSumEverything(inp: OutboundInput, a: seq<Fefo.Allocation>, forced: bool)
    ensures MoveSum(OutMoves(inp, a, forced), Everything) == 0 - Fefo.Taken(a)
  {
    if a != [] {
      MoveSumEverything(inp, a[1..], forced);
    }
  }

  predicate AllOf(ms: seq<Movement>, kind: Kind, lots: map<Id, Lot>) {
    forall i :: 0 <= i < |ms| ==> ms[i].kind == kind && ms[i].quantity < 0 && ms[i].key.lot in lots
  }

  lemma {:induction false} OutFacts(b: Books, c: Sheet, line: Line, quantity: int, kind: Kind)
    requires Sound(b) && kind in {TransferOut, Adjustment}
    requires Outbound(b, OutFor(c, line, quantity, kind), 0).Ok?
    ensures var t := Outbound(b, OutFor(c, line, quantity, kind), 0).value;
      && Wrote(b, t.books) && Since(b, t.books) == t.written && t.books.lots == b.lots
      && Changed(b, t.books, c, [Variance(line, -quantity)])
      && MoveSum(t.written, Everything) == -quantity
      && AllOf(t.written, kind, b.lots)
  {
    var inp := OutFor(c, line, quantity, kind);
    var t := Outbound(b, inp, 0).value;
    OutboundShape(b, inp, 0);
    OutboundSound(b, inp, 0);
    OutboundAppends(b, inp, 0);
    OutboundOnLots(b, inp, 0);
    Fefo.TakenIsCovered(Fefo.SortFefo(Available(b.lots, b.balances, inp)), quantity);
    AllocationsTotal(b, inp, 0);
    MoveSumEverything(inp, Allocations(b, inp, 0), IsForced(b, inp));
    if Accounted(b) {
      OutboundAccounted(b, inp, 0);
    }
    forall p: Id, o: Option<Id>, l: Id
      ensures OnHand(t.books, p, o, l) == OnHand(b, p, o, l) + Change([Variance(line, -quantity)], c, p, o, l)
    {
      OutboundOnHand(b, inp, 0, p, o, l);
    }
  }

  /** What moves leaves as transfers, and joins the queue lot for lot. */
  lemma {:induction false} MovingStep(b: Books, c: Sheet, line: Line, moving: int, freed: seq<Freed>)
    requires Sound(b) && Queue(freed, b.lots) && Outbound(b, OutFor(c, line, moving, TransferOut), 0).Ok?
    ensures var t := Outbound(b, OutFor(c, line, moving, TransferOut), 0).value;
      && Step(b, t.books, c, [Variance(line, -moving)], freed, freed + FreedBy(t.written))
      && FreedTotal(freed + FreedBy(t.written)) == FreedTotal(freed) + moving
      && t.books.lots == b.lots
  {
    var t := Outbound(b, OutFor(c, line, moving, TransferOut), 0).value;
    OutFacts(b, c, line, moving, TransferOut);
    FreedByFacts(t.written, b.lots);
    FreedConcat(freed, FreedBy(t.written));
  }

  /** What is lost is written off, and the queue is untouched. */
  lemma {:induction false} LosingStep(b: Books, c: Sheet, line: Line, lost: int, freed: seq<Freed>)
    requires Sound(b) && Queue(freed, b.lots) && Outbound(b, OutFor(c, line, lost, Adjustment), 0).Ok?
    ensures var t := Outbound(b, OutFor(c, line, lost, Adjustment), 0).value;
      && Step(b, t.books, c, [Variance(line, -lost)], freed, freed)
      && t.books.lots == b.lots
  {
    OutFacts(b, c, line, lost, Adjustment);
    AdjustmentsFacts(Outbound(b, OutFor(c, line, lost, Adjustment), 0).value.written);
  }

  lemma {:induction false} ZeroStep(b: Books, c: Sheet, line: Line, f: seq<Freed>)
    requires Sound(b) && Queue(f, b.lots)
    ensures Step(b, b, c, [Variance(line, 0)], f, f)
  {
    NoStep(b, c, f);
    assert Net([Variance(line, 0)]) == Net([]);
  }

  lemma {:induction false} OneShortStep(b: Books, c: Sheet, v: Variance, moving: int, freed: seq<Freed>)
    requires Sound(b) && Queue(freed, b.lots) && 0 <= moving <= -v.variance && OneShort(b, c, v, moving).Ok?
    ensures var s := OneShort(b, c, v, moving).value;
      && Step(b, s.books, c, [v], freed, freed + s.freed)
      && FreedTotal(freed + s.freed) == FreedTotal(freed) + moving
      && s.books.lots == b.lots
  {
    hide Step, Outbound, Sound, Queue, FreedTotal;
    var moved := if moving > 0 then Outbound(b, OutFor(c, v.line, moving, TransferOut), 0).value else Taken(b, []);
    var rest := -v.variance - moving;
    var freed' := freed + FreedBy(moved.written);
    if moving > 0 {
      MovingStep(b, c, v.line, moving, freed);
    } else {
      assert freed' == freed;
      ZeroStep(b, c, v.line, freed);
    }
    StepGives(b, moved.books, c, [Variance(v.line, -moving)], freed, freed');
    var s := OneShort(b, c, v, moving).value;
    if rest > 0 {
      LosingStep(moved.books, c, v.line, rest, freed');
    } else {
      ZeroStep(moved.books, c, v.line, freed');
    }
    StepThen(b, moved.books, s.books, c, [Variance(v.line, -moving)], [Variance(v.line, -rest)], freed, freed', freed');
    MergeVariances(b, s.books, c, v.line, -moving, -rest, freed, freed');
  }

  predicate AllShort(vs: seq<Variance>) {
    forall i :: 0 <= i < |vs| ==> vs[i].variance < 0
  }

  predicate AllOver(vs: seq<Variance>) {
    forall i :: 0 <= i < |vs| ==> vs[i].variance > 0
  }

  lemma {:induction false} NetOfShort(vs: seq<Variance>)
    requires AllShort(vs)
    ensures Net(vs) <= 0 && (vs != [] ==> Net(vs) <= vs[0].variance)
  {
    if vs != [] {
      NetOfShort(vs[1..]);
    }
  }

  lemma {:induction false} NetOfOver(vs: seq<Variance>)
    requires AllOver(vs)
    ensures Net(vs) >= 0 && (vs != [] ==> Net(vs) >= vs[0].variance)
  {
    if vs != [] {
      NetOfOver(vs[1..]);
    }
  }

  lemma {:induction false} NetOfFirst(vs: seq<Variance>)
    ensures Net(vs) == if vs == [] then 0 else vs[0].variance + Net(vs[1..])
  {
  }

  lemma {:induction false} NothingToMove(toMove: int)
    requires toMove >= 0
    ensures Min(toMove, 0) == 0
  {
  }

  /** Moving what the first wants and then what the rest want is moving what they want together. */
  lemma {:induction false} MovingAdds(toMove: int, first: int, rest: int)
    requires toMove >= 0 && first >= 0 && rest >= 0
    ensures 0 <= Min(toMove, first) <= first && Min(toMove, first) <= toMove
    ensures Min(toMove, first) + Min(toMove - Min(toMove, first), rest) == Min(toMove, first + rest)
  {
  }

  lemma {:induction false} ShortsStep(b: Books, c: Sheet, shorts: seq<Variance>, toMove: int, freed: seq<Freed>)
    requires Sound(b) && AllShort(shorts) && toMove >= 0 && Queue(freed, b.lots)
    requires Shorts(b, c, shorts, toMove, freed).Ok?
    ensures var s := Shorts(b, c, shorts, toMove, freed).value;
      && Step(b, s.books, c, shorts, freed, s.freed)
      && FreedTotal(s.freed) == FreedTotal(freed) + Min(toMove, -Net(shorts))
      && s.books.lots == b.lots
    decreases shorts
  {
    hide Step, OneShort, Sound, Queue, FreedTotal, Min, Net;
    NetOfShort(shorts);
    NetOfFirst(shorts);
    if shorts == [] {
      NoStep(b, c, freed);
      NothingToMove(toMove);
    } else {
      MovingAdds(toMove, -shorts[0].variance, -Net(shorts[1..]));
      var moving := Min(toMove, -shorts[0].variance);
      var s := OneShort(b, c, shorts[0], moving).value;
      OneShortStep(b, c, shorts[0], moving, freed);
      StepGives(b, s.books, c, [shorts[0]], freed, freed + s.freed);
      ShortsStep(s.books, c, shorts[1..], toMove - moving, freed + s.freed);
      NetOfShort(shorts[1..]);
      assert [shorts[0]] + shorts[1..] == shorts;
      StepThen(b, s.books, Shorts(b, c, shorts, toMove, freed).value.books, c, [shorts[0]], shorts[1..],
               freed, freed + s.freed, Shorts(b, c, shorts, toMove, freed).value.freed);
    }
  }

  // -- The over options -------------------------------------------------------

  lemma {:induction false} OneInbound(b: Books, c: Sheet, line: Line, lot: Id, quantity: int, kind: Kind)
    requires Sound(b) && Inbound(b, InKey(c, line, lot), quantity, kind, Some(Count(c.id))).Ok?
    requires kind in {TransferIn, Adjustment}
    ensures var b1 := Inbound(b, InKey(c, line, lot), quantity, kind, Some(Count(c.id))).value;
      && Wrote(b, b1) && b1.lots == b.lots
      && Since(b, b1) == [Movement(InKey(c, line, lot), quantity, kind, Some(Count(c.id)), false, "")]
      && Changed(b, b1, c, [Variance(line, quantity)])
      && AdjustSum(Since(b, b1)) == (if kind == Adjustment then quantity else 0)
      && (forall other :: TransferSum(Since(b, b1), other) == if kind == TransferIn && other == lot then quantity else 0)
      && quantity > 0 && lot in b.lots
  {
    assert [Movement(InKey(c, line, lot), quantity, kind, Some(Count(c.id)), false, "")][1..] == [];
    var key := InKey(c, line, lot);
    var b1 := Inbound(b, key, quantity, kind, Some(Count(c.id))).value;
    InboundKeeps(b, key, quantity, kind, Some(Count(c.id)));
    forall p: Id, o: Option<Id>, l: Id
      ensures OnHand(b1, p, o, l) == OnHand(b, p, o, l) + Change([Variance(line, quantity)], c, p, o, l)
    {
      InboundOnHand(b, key, quantity, kind, Some(Count(c.id)), p, o, l);
    }
  }

  lemma {:induction false} TakingFromQueue(freed: seq<Freed>, taking: int, lots: map<Id, Lot>)
    requires freed != [] && Queue(freed, lots) && 0 < taking <= freed[0].quantity
    ensures Queue(AfterTaking(freed, taking), lots)
    ensures FreedTotal(AfterTaking(freed, taking)) == FreedTotal(freed) - taking
    ensures forall lot :: FreedOn(AfterTaking(freed, taking), lot) == FreedOn(freed, lot) - (if lot == freed[0].lot then taking else 0)
  {
    if freed[0].quantity != taking {
      assert AfterTaking(freed, taking)[1..] == freed[1..];
    }
  }

  /** A lot from the head of the queue arrives at the over option. */
  lemma {:induction false} FillingStep(b: Books, c: Sheet, line: Line, taking: int, freed: seq<Freed>)
    requires Sound(b) && freed != [] && Queue(freed, b.lots) && 0 < taking <= freed[0].quantity
    requires Inbound(b, InKey(c, line, freed[0].lot), taking, TransferIn, Some(Count(c.id))).Ok?
    ensures var b1 := Inbound(b, InKey(c, line, freed[0].lot), taking, TransferIn, Some(Count(c.id))).value;
      && Step(b, b1, c, [Variance(line, taking)], freed, AfterTaking(freed, taking))
      && b1.lots == b.lots
  {
    OneInbound(b, c, line, freed[0].lot, taking, TransferIn);
    assert Net([Variance(line, taking)]) == taking + Net([]);
    TakingFromQueue(freed, taking, b.lots);
  }

  /** What is found is written on, and the queue is untouched. */
  lemma {:induction false} FindingStep(b: Books, c: Sheet, line: Line, lot: Id, found: int, freed: seq<Freed>)
    requires Sound(b) && Queue(freed, b.lots)
    requires Inbound(b, InKey(c, line, lot), found, Adjustment, Some(Count(c.id))).Ok?
    ensures var b1 := Inbound(b, InKey(c, line, lot), found, Adjustment, Some(Count(c.id))).value;
      && Step(b, b1, c, [Variance(line, found)], freed, freed)
      && b1.lots == b.lots
  {
    OneInbound(b, c, line, lot, found, Adjustment);
    assert Net([Variance(line, found)]) == found + Net([]);
  }

  /** An over option takes from the queue until it has enough or the queue is empty. */
  lemma {:induction false} FillStep(b: Books, c: Sheet, line: Line, wanted: int, freed: seq<Freed>)
    requires Sound(b) && Queue(freed, b.lots) && wanted >= 0 && Fill(b, c, line, wanted, freed).Ok?
    ensures var f := Fill(b, c, line, wanted, freed).value;
      && Step(b, f.books, c, [Variance(line, wanted - f.wanted)], freed, f.freed)
      && f.wanted == Max(0, wanted - FreedTotal(freed))
      && FreedTotal(f.freed) == Max(0, FreedTotal(freed) - wanted)
      && f.books.lots == b.lots
    decreases |freed|, wanted
  {
    hide Step, Inbound, Sound;
    QueueTotal(freed, b.lots);
    if wanted == 0 || freed == [] {
      ZeroStep(b, c, line, freed);
    } else {
      var taking := Min(wanted, freed[0].quantity);
      var b1 := Inbound(b, InKey(c, line, freed[0].lot), taking, TransferIn, Some(Count(c.id))).value;
      var freed' := AfterTaking(freed, taking);
      FillingStep(b, c, line, taking, freed);
      StepGives(b, b1, c, [Variance(line, taking)], freed, freed');
      TakingFromQueue(freed, taking, b.lots);
      QueueTotal(freed', b.lots);
      FillStep(b1, c, line, wanted - taking, freed');
      var f := Fill(b1, c, line, wanted - taking, freed').value;
      StepThen(b, b1, f.books, c, [Variance(line, taking)], [Variance(line, wanted - taking - f.wanted)],
               freed, freed', f.freed);
      MergeVariances(b, f.books, c, line, taking, wanted - taking - f.wanted, freed, f.freed);
    }
  }

  lemma {:induction false} MoreLotsStep(b: Books, lots: map<Id, Lot>, b2: Books, c: Sheet, vs: seq<Variance>, f0: seq<Freed>, f1: seq<Freed>)
    requires LotsKept(b.lots, lots) && Sound(b)
    requires Step(b.(lots := lots), b2, c, vs, f0, f1)
    ensures Step(b, b2, c, vs, f0, f1)
  {
    assert Since(b, b2) == Since(b.(lots := lots), b2);
    forall p: Id, o: Option<Id>, l: Id
      ensures OnHand(b2, p, o, l) == OnHand(b, p, o, l) + Change(vs, c, p, o, l)
    {
      assert OnHand(b.(lots := lots), p, o, l) == OnHand(b, p, o, l);
    }
  }

  lemma {:induction false} SurplusGrowsLots(b: Books, c: Sheet, product: Id)
    requires SurplusLot(b, c, product).Ok?
    ensures LotsKept(b.lots, SurplusLot(b, c, product).value.lots)
    ensures b.lots.Keys <= SurplusLot(b, c, product).value.lots.Keys
    ensures SurplusLot(b, c, product).value.lots.Keys <= b.lots.Keys + (if product in c.found then {c.found[product]} else {})
  {
  }

  lemma {:induction false} QueueOnMoreLots(freed: seq<Freed>, lots: map<Id, Lot>, more: map<Id, Lot>)
    requires Queue(freed, lots) && lots.Keys <= more.Keys
    ensures Queue(freed, more)
  {
  }

  lemma {:induction false} OneOverStep(b: Books, c: Sheet, v: Variance, freed: seq<Freed>)
    requires Sound(b) && Queue(freed, b.lots) && v.variance >= 0 && OneOver(b, c, v, freed).Ok?
    ensures var s := OneOver(b, c, v, freed).value;
      && Step(b, s.books, c, [v], freed, s.freed)
      && FreedTotal(s.freed) == Max(0, FreedTotal(freed) - v.variance)
      && s.books.lots.Keys <= b.lots.Keys + (if v.line.product in c.found then {c.found[v.line.product]} else {})
  {
    hide Step, Inbound, Sound, SurplusLot;
    var f := Fill(b, c, v.line, v.variance, freed).value;
    FillStep(b, c, v.line, v.variance, freed);
    StepGives(b, f.books, c, [Variance(v.line, v.variance - f.wanted)], freed, f.freed);
    if f.wanted > 0 {
      var surplus := SurplusLot(f.books, c, v.line.product).value;
      SurplusGrowsLots(f.books, c, v.line.product);
      MoreLots(f.books, surplus.lots);
      QueueOnMoreLots(f.freed, f.books.lots, surplus.lots);
      var more := f.books.(lots := surplus.lots);
      FindingStep(more, c, v.line, surplus.lot, f.wanted, f.freed);
      var b2 := Inbound(more, InKey(c, v.line, surplus.lot), f.wanted, Adjustment, Some(Count(c.id))).value;
      MoreLotsStep(f.books, surplus.lots, b2, c, [Variance(v.line, f.wanted)], f.freed, f.freed);
      StepThen(b, f.books, b2, c, [Variance(v.line, v.variance - f.wanted)], [Variance(v.line, f.wanted)],
               freed, f.freed, f.freed);
      MergeVariances(b, b2, c, v.line, v.variance - f.wanted, f.wanted, freed, f.freed);
    }
  }

  /** Lots of one product's count grow by at most the one that may be invented for it. */
  ghost predicate LotsWithin(lots: map<Id, Lot>, before: map<Id, Lot>, c: Sheet, product: Id) {
    lots.Keys <= before.Keys + (if product in c.found then {c.found[product]} else {})
  }

  predicate OneProduct(vs: seq<Variance>, product: Id) {
    forall i :: 0 <= i < |vs| ==> vs[i].line.product == product
  }

  lemma {:induction false} OversStep(b: Books, c: Sheet, overs: seq<Variance>, freed: seq<Freed>, product: Id)
    requires Sound(b) && AllOver(overs) && Queue(freed, b.lots) && Overs(b, c, overs, freed).Ok?
    requires OneProduct(overs, product)
    ensures var s := Overs(b, c, overs, freed).value;
      && Step(b, s.books, c, overs, freed, s.freed)
      && FreedTotal(s.freed) == Max(0, FreedTotal(freed) - Net(overs))
      && LotsWithin(s.books.lots, b.lots, c, product)
    decreases overs
  {
    hide Step, OneOver, Sound;
    QueueTotal(freed, b.lots);
    NetOfOver(overs);
    if overs == [] {
      NoStep(b, c, freed);
    } else {
      var s := OneOver(b, c, overs[0], freed).value;
      var last := Overs(b, c, overs, freed).value;
      OneOverStep(b, c, overs[0], freed);
      StepGives(b, s.books, c, [overs[0]], freed, s.freed);
      NetOfOver(overs[1..]);
      OversStep(s.books, c, overs[1..], s.freed, product);
      assert [overs[0]] + overs[1..] == overs;
      StepThen(b, s.books, last.books, c, [overs[0]], overs[1..], freed, s.freed, last.freed);
    }
  }

  // -- One product ------------------------------------------------------------

  lemma {:induction false} Parts(vs: seq<Variance>, product: Id)
    requires OneProduct(vs, product)
    ensures AllShort(ShortOf(vs)) && OneProduct(ShortOf(vs), product)
    ensures AllOver(OverOf(vs)) && OneProduct(OverOf(vs), product)
  {
    if vs != [] {
      Parts(vs[1..], product);
    }
  }

  lemma {:induction false} PartsNet(vs: seq<Variance>)
    ensures Net(ShortOf(vs)) + Net(OverOf(vs)) == Net(vs)
  {
    if vs != [] {
      PartsNet(vs[1..]);
      NetConcat(if vs[0].variance < 0 then [vs[0]] else [], ShortOf(vs[1..]));
      NetConcat(if vs[0].variance > 0 then [vs[0]] else [], OverOf(vs[1..]));
    }
  }

  lemma {:induction false} PartsChange(vs: seq<Variance>, c: Sheet, p: Id, o: Option<Id>, l: Id)
    ensures Change(ShortOf(vs) + OverOf(vs), c, p, o, l) == Change(vs, c, p, o, l)
  {
    ChangeConcat(ShortOf(vs), OverOf(vs), c, p, o, l);
    if vs != [] {
      PartsChange(vs[1..], c, p, o, l);
      ChangeConcat(ShortOf(vs[1..]), OverOf(vs[1..]), c, p, o, l);
      ChangeConcat(if vs[0].variance < 0 then [vs[0]] else [], ShortOf(vs[1..]), c, p, o, l);
      ChangeConcat(if vs[0].variance > 0 then [vs[0]] else [], OverOf(vs[1..]), c, p, o, l);
    }
  }

  /**
   * One product's corrections: the freed-lot queue ends empty, the transfers net
   * to nothing on every lot, the adjustments come to the product's net variance,
   * and every item moves by exactly its own.
   */
  lemma {:induction false} PostProductBalances(b: Books, c: Sheet, vs: seq<Variance>, product: Id)
    requires Sound(b) && OneProduct(vs, product) && PostProduct(b, c, vs).Ok?
    ensures var s := PostProduct(b, c, vs).value;
      && s.freed == []
      && Wrote(b, s.books)
      && (forall lot :: TransferSum(Since(b, s.books), lot) == 0)
      && AdjustSum(Since(b, s.books)) == Net(vs)
      && Changed(b, s.books, c, vs)
      && LotsWithin(s.books.lots, b.lots, c, product)
  {
    PostProductStep(b, c, vs, product);
    var s := PostProduct(b, c, vs).value;
    forall p: Id, o: Option<Id>, l: Id
      ensures OnHand(s.books, p, o, l) == OnHand(b, p, o, l) + Change(vs, c, p, o, l)
    {
      PartsChange(vs, c, p, o, l);
    }
    PartsNet(vs);
    NetConcat(ShortOf(vs), OverOf(vs));
  }

  /** What is to move is never more than either side has. */
  lemma {:induction false} ToMoveFits(vs: seq<Variance>, product: Id)
    requires OneProduct(vs, product)
    ensures 0 <= ToMove(vs)
    ensures Min(ToMove(vs), -Net(ShortOf(vs))) == ToMove(vs)
    ensures Max(0, ToMove(vs) - Net(OverOf(vs))) == 0
  {
    Parts(vs, product);
    NetOfShort(ShortOf(vs));
    NetOfOver(OverOf(vs));
  }

  lemma {:induction false} PostProductStep(b: Books, c: Sheet, vs: seq<Variance>, product: Id)
    requires Sound(b) && OneProduct(vs, product) && PostProduct(b, c, vs).Ok?
    ensures var s := PostProduct(b, c, vs).value;
      && Step(b, s.books, c, ShortOf(vs) + OverOf(vs), [], s.freed)
      && s.freed == []
      && LotsWithin(s.books.lots, b.lots, c, product)
  {
    hide Step, Sound, Overs, Shorts, ShortOf, OverOf, ToMove, AllShort, AllOver, OneProduct;
    var shorts, overs := ShortOf(vs), OverOf(vs);
    Parts(vs, product);
    ToMoveFits(vs, product);
    var s1 := Shorts(b, c, shorts, ToMove(vs), []).value;
    ShortsStep(b, c, shorts, ToMove(vs), []);
    StepGives(b, s1.books, c, shorts, [], s1.freed);
    var s2 := Overs(s1.books, c, overs, s1.freed).value;
    OversStep(s1.books, c, overs, s1.freed, product);
    StepGives(s1.books, s2.books, c, overs, s1.freed, s2.freed);
    QueueTotal(s2.freed, s2.books.lots);
    StepThen(b, s1.books, s2.books, c, shorts, overs, [], s1.freed, s2.freed);
  }

  // -- One sign of adjustment -------------------------------------------------

  lemma {:induction false} SignConcat(x: seq<Movement>, y: seq<Movement>, sign: int)
    requires AdjustSign(x, sign) && AdjustSign(y, sign)
    ensures AdjustSign(x + y, sign)
  {
  }

  lemma {:induction false} OneShortSign(b: Books, c: Sheet, v: Variance, moving: int)
    requires Sound(b) && 0 <= moving <= -v.variance && OneShort(b, c, v, moving).Ok?
    ensures AdjustSign(Since(b, OneShort(b, c, v, moving).value.books), -1)
    ensures moving == -v.variance ==> AdjustSign(Since(b, OneShort(b, c, v, moving).value.books), 0)
  {
    hide Outbound, Sound;
    var moved := if moving > 0 then Outbound(b, OutFor(c, v.line, moving, TransferOut), 0).value else Taken(b, []);
    var rest := -v.variance - moving;
    NothingSince(b);
    if moving > 0 {
      OutFacts(b, c, v.line, moving, TransferOut);
    }
    if rest > 0 {
      var last := OneShort(b, c, v, moving).value.books;
      if moving > 0 {
        WroteGives(b, moved.books);
      }
      OutFacts(moved.books, c, v.line, rest, Adjustment);
      if moving > 0 {
        SinceThen(b, moved.books, last);
      }
    }
  }

  lemma {:induction false} NothingSince(b: Books)
    ensures Since(b, b) == []
  {
  }

  lemma {:induction false} WroteGives(b0: Books, b1: Books)
    requires Wrote(b0, b1)
    ensures Sound(b1)
  {
  }

  lemma {:induction false} StepWrote(b0: Books, b1: Books, c: Sheet, vs: seq<Variance>, f0: seq<Freed>, f1: seq<Freed>)
    requires Step(b0, b1, c, vs, f0, f1)
    ensures Wrote(b0, b1)
  {
  }

  lemma {:induction false} ShortsSign(b: Books, c: Sheet, shorts: seq<Variance>, toMove: int, freed: seq<Freed>)
    requires Sound(b) && AllShort(shorts) && toMove >= 0 && Queue(freed, b.lots)
    requires Shorts(b, c, shorts, toMove, freed).Ok?
    ensures var s := Shorts(b, c, shorts, toMove, freed).value;
      && AdjustSign(Since(b, s.books), -1)
      && (toMove >= -Net(shorts) ==> AdjustSign(Since(b, s.books), 0))
    decreases shorts
  {
    hide Step, OneShort, Sound, Wrote, AdjustSign;
    if shorts == [] {
      NothingSince(b);
      NoAdjustments(-1);
      NoAdjustments(0);
    } else {
      var moving := Min(toMove, -shorts[0].variance);
      var s := OneShort(b, c, shorts[0], moving).value;
      var last := Shorts(b, c, shorts, toMove, freed).value;
      OneShortStep(b, c, shorts[0], moving, freed);
      StepGives(b, s.books, c, [shorts[0]], freed, freed + s.freed);
      StepWrote(b, s.books, c, [shorts[0]], freed, freed + s.freed);
      ShortsStep(s.books, c, shorts[1..], toMove - moving, freed + s.freed);
      StepWrote(s.books, last.books, c, shorts[1..], freed + s.freed, last.freed);
      SinceThen(b, s.books, last.books);
      OneShortSign(b, c, shorts[0], moving);
      ShortsSign(s.books, c, shorts[1..], toMove - moving, freed + s.freed);
      SignConcat(Since(b, s.books), Since(s.books, last.books), -1);
      NetOfShort(shorts[1..]);
      if toMove >= -Net(shorts) {
        SignConcat(Since(b, s.books), Since(s.books, last.books), 0);
      }
    }
  }

  lemma {:induction false} NoAdjustments(sign: int)
    ensures AdjustSign([], sign)
  {
  }

  lemma {:induction false} FillSign(b: Books, c: Sheet, line: Line, wanted: int, freed: seq<Freed>, sign: int)
    requires Sound(b) && Queue(freed, b.lots) && wanted >= 0 && Fill(b, c, line, wanted, freed).Ok?
    ensures AdjustSign(Since(b, Fill(b, c, line, wanted, freed).value.books), sign)
    decreases |freed|, wanted
  {
    hide Step, Inbound, Sound, Wrote;
    NothingSince(b);
    if wanted > 0 && freed != [] {
      var taking := Min(wanted, freed[0].quantity);
      var b1 := Inbound(b, InKey(c, line, freed[0].lot), taking, TransferIn, Some(Count(c.id))).value;
      var freed' := AfterTaking(freed, taking);
      FillingStep(b, c, line, taking, freed);
      StepGives(b, b1, c, [Variance(line, taking)], freed, freed');
      OneInbound(b, c, line, freed[0].lot, taking, TransferIn);
      FillStep(b1, c, line, wanted - taking, freed');
      var f := Fill(b1, c, line, wanted - taking, freed').value;
      StepWrote(b1, f.books, c, [Variance(line, wanted - taking - f.wanted)], freed', f.freed);
      SinceThen(b, b1, f.books);
      FillSign(b1, c, line, wanted - taking, freed', sign);
    }
  }

  lemma {:induction false} MoreLotsSince(b: Books, lots: map<Id, Lot>, b1: Books)
    ensures Since(b, b1) == Since(b.(lots := lots), b1)
  {
  }

  lemma {:induction false} OneAdjustment(m: Movement)
    ensures m.quantity > 0 ==> AdjustSign([m], 1)
  {
  }

  lemma {:induction false} OneOverSign(b: Books, c: Sheet, v: Variance, freed: seq<Freed>)
    requires Sound(b) && Queue(freed, b.lots) && v.variance >= 0 && OneOver(b, c, v, freed).Ok?
    ensures AdjustSign(Since(b, OneOver(b, c, v, freed).value.books), 1)
    ensures FreedTotal(freed) >= v.variance ==> AdjustSign(Since(b, OneOver(b, c, v, freed).value.books), 0)
  {
    hide Step, Inbound, Sound, SurplusLot, Wrote, Queue, AdjustSign, Since;
    var f := Fill(b, c, v.line, v.variance, freed).value;
    FillStep(b, c, v.line, v.variance, freed);
    StepGives(b, f.books, c, [Variance(v.line, v.variance - f.wanted)], freed, f.freed);
    StepWrote(b, f.books, c, [Variance(v.line, v.variance - f.wanted)], freed, f.freed);
    FillSign(b, c, v.line, v.variance, freed, 1);
    FillSign(b, c, v.line, v.variance, freed, 0);
    if f.wanted > 0 {
      var surplus := SurplusLot(f.books, c, v.line.product).value;
      SurplusGrowsLots(f.books, c, v.line.product);
      MoreLots(f.books, surplus.lots);
      var more := f.books.(lots := surplus.lots);
      OneInbound(more, c, v.line, surplus.lot, f.wanted, Adjustment);
      QueueOnMoreLots(f.freed, f.books.lots, surplus.lots);
      FindingStep(more, c, v.line, surplus.lot, f.wanted, f.freed);
      var b2 := Inbound(more, InKey(c, v.line, surplus.lot), f.wanted, Adjustment, Some(Count(c.id))).value;
      MoreLotsStep(f.books, surplus.lots, b2, c, [Variance(v.line, f.wanted)], f.freed, f.freed);
      StepWrote(f.books, b2, c, [Variance(v.line, f.wanted)], f.freed, f.freed);
      SinceThen(b, f.books, b2);
      MoreLotsSince(f.books, surplus.lots, b2);
      OneAdjustment(Since(f.books, b2)[0]);
      SignConcat(Since(b, f.books), Since(f.books, b2), 1);
    }
  }

  lemma {:induction false} OversSign(b: Books, c: Sheet, overs: seq<Variance>, freed: seq<Freed>, product: Id)
    requires Sound(b) && AllOver(overs) && Queue(freed, b.lots) && Overs(b, c, overs, freed).Ok?
    requires OneProduct(overs, product)
    ensures var s := Overs(b, c, overs, freed).value;
      && AdjustSign(Since(b, s.books), 1)
      && (FreedTotal(freed) >= Net(overs) ==> AdjustSign(Since(b, s.books), 0))
    decreases overs
  {
    hide Step, OneOver, Sound, Wrote, AdjustSign;
    NothingSince(b);
    NoAdjustments(1);
    NoAdjustments(0);
    if overs != [] {
      var s := OneOver(b, c, overs[0], freed).value;
      var last := Overs(b, c, overs, freed).value;
      OneOverStep(b, c, overs[0], freed);
      StepGives(b, s.books, c, [overs[0]], freed, s.freed);
      StepWrote(b, s.books, c, [overs[0]], freed, s.freed);
      OversStep(s.books, c, overs[1..], s.freed, product);
      StepWrote(s.books, last.books, c, overs[1..], s.freed, last.freed);
      SinceThen(b, s.books, last.books);
      OneOverSign(b, c, overs[0], freed);
      OversSign(s.books, c, overs[1..], s.freed, product);
      SignConcat(Since(b, s.books), Since(s.books, last.books), 1);
      NetOfOver(overs[1..]);
      if FreedTotal(freed) >= Net(overs) {
        SignConcat(Since(b, s.books), Since(s.books, last.books), 0);
      }
    }
  }

  /** The adjustments left over all have the sign of the product's net variance, and there are none when it is zero. */
  lemma {:induction false} PostProductAdjustsOneWay(b: Books, c: Sheet, vs: seq<Variance>, product: Id)
    requires Sound(b) && OneProduct(vs, product) && PostProduct(b, c, vs).Ok?
    ensures AdjustSign(Since(b, PostProduct(b, c, vs).value.books), Sign(Net(vs)))
  {
    hide Step, Sound, Overs, Shorts, ShortOf, OverOf, AllShort, AllOver, OneProduct, Wrote, AdjustSign;
    var shorts, overs := ShortOf(vs), OverOf(vs);
    Parts(vs, product);
    NetOfShort(shorts);
    NetOfOver(overs);
    ToMoveFits(vs, product);
    PartsNet(vs);
    var s1 := Shorts(b, c, shorts, ToMove(vs), []).value;
    ShortsStep(b, c, shorts, ToMove(vs), []);
    StepGives(b, s1.books, c, shorts, [], s1.freed);
    StepWrote(b, s1.books, c, shorts, [], s1.freed);
    var s2 := Overs(s1.books, c, overs, s1.freed).value;
    OversStep(s1.books, c, overs, s1.freed, product);
    StepWrote(s1.books, s2.books, c, overs, s1.freed, s2.freed);
    SinceThen(b, s1.books, s2.books);
    ShortsSign(b, c, shorts, ToMove(vs), []);
    OversSign(s1.books, c, overs, s1.freed, product);
    OneSign(Since(b, s1.books), Since(s1.books, s2.books), Net(shorts), Net(overs), ToMove(vs));
  }

  /** Whichever side is the larger, the other leaves nothing to adjust. */
  lemma {:induction false} OneSign(w1: seq<Movement>, w2: seq<Movement>, shorts: int, overs: int, toMove: int)
    requires shorts <= 0 <= overs && toMove == Min(-shorts, overs)
    requires AdjustSign(w1, -1) && (toMove >= -shorts ==> AdjustSign(w1, 0))
    requires AdjustSign(w2, 1) && (toMove >= overs ==> AdjustSign(w2, 0))
    ensures AdjustSign(w1 + w2, Sign(shorts + overs))
  {
    NoneIsAnySign(w1, 1);
    NoneIsAnySign(w2, -1);
    SignConcatAny(w1, w2);
  }

  lemma {:induction false} NoneIsAnySign(ms: seq<Movement>, sign: int)
    ensures AdjustSign(ms, 0) ==> AdjustSign(ms, sign)
  {
  }

  lemma {:induction false} SignConcatAny(x: seq<Movement>, y: seq<Movement>)
    ensures forall sign :: AdjustSign(x, sign) && AdjustSign(y, sign) ==> AdjustSign(x + y, sign)
  {
  }
}
