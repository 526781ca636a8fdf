/**
 * The stock service as it runs: one object whose methods append movements and
 * move balance rows, each proved to leave exactly the books its specification
 * says, and to change nothing when it refuses.
 */
module StockServices {
  import opened Common
  import opened Ledger
  import opened Stock
  import opened Operations
  import opened Stocktake
  import opened StockLevels
  import StocktakeTheorems
  import CountTheorems
  import Fefo

  class StockService {
    var movements: seq<Movement>
    var balances: seq<Row>
    var lots: map<Id, Lot>
    var options: map<Id, seq<KnownVariant>>

    /** The tables as one value. */
    function View(): Books
      reads this
    {
      Books(movements, balances, lots, options)
    }

    constructor ()
      ensures View() == EMPTY
    {
      movements, balances, lots, options := [], [], map[], map[];
    }

    /** Undoes everything since `saved`: the transaction rolls back. */
    method RollBack(saved: Books)
      modifies this
      ensures View() == saved
    {
      movements, balances, lots, options := saved.movements, saved.balances, saved.lots, saved.options;
    }

    // -- One movement ---------------------------------------------------------

    /** `applyToBalance`: moves every row of the key and counts them; creates the row when there were none. */
    method ApplyToBalance(key: Key, delta: int)
      modifies this`balances
      ensures balances == Increment(old(balances), key, delta)
    {
      var rows := balances;
      ghost var bumped := Bumped(rows, key, delta);
      var count := 0;
      var i := 0;
      while i < |rows|
        invariant 0 <= i <= |rows| && |balances| == |rows|
        invariant forall j :: 0 <= j < |rows| ==> balances[j] == if j < i then bumped[j] else rows[j]
        invariant count == 0 <==> forall j :: 0 <= j < i ==> rows[j].key != key
        invariant count >= 0
      {
        if rows[i].key == key {
          balances := balances[i := Row(key, rows[i].quantity + delta)];
          count := count + 1;
        }
        i := i + 1;
      }
      assert balances == bumped;
      if count == 0 {
        BumpedElsewhere(rows, key, delta);
        balances := balances + [Row(key, delta)];
      } else {
        assert HasRow(rows, key);
      }
    }

    method Write(m: Movement)
      modifies this`movements, this`balances
      ensures View() == Post(old(View()), m)
    {
      movements := movements + [m];
      ApplyToBalance(m.key, m.quantity);
    }

    /** `recordInbound`. */
    method RecordInbound(key: Key, quantity: int, kind: Kind, reference: Option<Cause>) returns (r: Result<Movement, Refusal>)
      modifies this`movements, this`balances
      ensures match Inbound(old(View()), key, quantity, kind, reference)
        case Ok(b) => r == Ok(Movement(key, quantity, kind, reference, false, "")) && View() == b
        case Err(e) => r == Err(e) && View() == old(View())
    {
      if quantity <= 0 {
        return Err(NotPositive);
      }
      if !VariantAllowed(OptionsOf(View(), key.product), key.option, AllowsRetired(kind)) {
        return Err(OptionRefused);
      }
      if key.lot !in lots {
        return Err(NoSuchLot);
      }
      var m := Movement(key, quantity, kind, reference, false, "");
      Write(m);
      r := Ok(m);
    }

    /** Writes a list of movements in order. */
    method WriteAll(ms: seq<Movement>)
      modifies this`movements, this`balances
      ensures View() == PostAll(old(View()), ms)
    {
      var i := 0;
      while i < |ms|
        invariant 0 <= i <= |ms|
        invariant PostAll(View(), ms[i..]) == PostAll(old(View()), ms)
        invariant lots == old(lots) && options == old(options)
      {
        assert ms[i..][1..] == ms[i + 1..];
        Write(ms[i]);
        i := i + 1;
      }
    }

    /** Settles a shortfall: refused, or put on the lot that bears it, making a placeholder when there is none. */
    method CoverShortfall(inp: OutboundInput, shortfall: nat, placeholder: Id) returns (r: Result<Id, Refusal>)
      modifies this`lots
      ensures match Cover(old(View()), inp, shortfall, placeholder)
        case Ok(covered) => r == Ok(covered.lot) && lots == covered.lots
        case Err(e) => r == Err(e) && lots == old(lots)
    {
      if !inp.force {
        return Err(NotEnough(shortfall));
      }
      if !inp.mayForce {
        return Err(MayNotForce);
      }
      if Blank(inp.forcedReason) {
        return Err(NoForcedReason);
      }
      var bearer := Bearer(View(), inp);
      if bearer.Some? {
        if bearer.value !in lots {
          return Err(NoSuchLot);
        }
        return Ok(bearer.value);
      }
      lots := lots[placeholder := Placeholder(inp)];
      r := Ok(placeholder);
    }

    /** `recordOutbound`: picks by expiry, refuses or forces a shortfall, and writes a movement a lot. */
    method RecordOutbound(inp: OutboundInput, placeholder: Id) returns (r: Result<seq<Movement>, Refusal>)
      modifies this
      ensures match Outbound(old(View()), inp, placeholder)
        case Ok(t) => r == Ok(t.written) && View() == t.books
        case Err(e) => r == Err(e) && View() == old(View())
    {
      hide Cover, VariantAllowed, Available, Fefo.SortFefo;
      if inp.quantity <= 0 {
        return Err(NotPositive);
      }
      if !VariantAllowed(OptionsOf(View(), inp.product), inp.option, AllowsRetired(inp.kind)) {
        return Err(OptionRefused);
      }
      var picked := Fefo.AllocateFefo(Available(lots, balances, inp), inp.quantity);
      var allocations, shortfall := picked.value.allocations, picked.value.shortfall;
      if shortfall > 0 {
        var bearer := CoverShortfall(inp, shortfall, placeholder);
        if bearer.Err? {
          return Err(bearer.error);
        }
        allocations := allocations + [Fefo.Allocation(bearer.value, shortfall)];
      }
      var ms := OutMoves(inp, allocations, shortfall > 0);
      WriteAll(ms);
      r := Ok(ms);
    }

    // -- Several movements in one transaction ---------------------------------

    /** `recordNewLots`: three bulk inserts. */
    method RecordNewLots(lines: seq<NewLotLine>, ids: seq<Id>) returns (r: Result<(), Refusal>)
      requires |ids| == |lines|
      modifies this
      ensures match NewLots(old(View()), lines, ids)
        case Ok(b) => r == Ok(()) && View() == b
        case Err(e) => r == Err(e) && View() == old(View())
    {
      if exists i :: 0 <= i < |lines| && lines[i].quantity <= 0 {
        return Err(NotPositive);
      }
      if exists i :: 0 <= i < |lines| && !VariantAllowed(OptionsOf(View(), lines[i].product), lines[i].option, false) {
        return Err(OptionRefused);
      }
      lots := LineLots(lots, lines, ids);
      movements := movements + LineMoves(lines, ids);
      balances := balances + RowsOf(LineMoves(lines, ids));
      r := Ok(());
    }

    /** `moveIntoVariant`: for each balance under no option, out of none and into the option. */
    method MoveAllIntoVariant(product: Id, option: Id)
      modifies this`movements, this`balances
      ensures View() == MoveIntoVariant(old(View()), product, option)
    {
      var rows := balances;
      var i := 0;
      while i < |rows|
        invariant 0 <= i <= |rows|
        invariant PostAll(View(), Halves(rows[i..], product, option)) == PostAll(old(View()), Halves(rows, product, option))
        invariant lots == old(lots) && options == old(options)
      {
        var balance := rows[i];
        assert rows[i..][1..] == rows[i + 1..];
        if balance.key.product == product && balance.key.option.None? && balance.quantity != 0 {
          var out := Movement(balance.key, -balance.quantity, TransferOut, None, false, "");
          var into := Movement(balance.key.(option := Some(option)), balance.quantity, TransferIn, None, false, "");
          PostAllConcat(View(), [out, into], Halves(rows[i + 1..], product, option));
          PostTwo(View(), out, into);
          Write(out);
          Write(into);
        }
        i := i + 1;
      }
    }

    /** `transfer`: out of one location, and lot for lot into the other. */
    method TransferStock(inp: OutboundInput, to: Id, placeholder: Id) returns (r: Result<(), Refusal>)
      modifies this
      ensures match Transfer(old(View()), inp, to, placeholder)
        case Ok(b) => r == Ok(()) && View() == b
        case Err(e) => r == Err(e) && View() == old(View())
    {
      if inp.location == to {
        return Err(SameLocation);
      }
      var out := RecordOutbound(inp.(kind := TransferOut, pinned := None, reference := None), placeholder);
      if out.Err? {
        return Err(out.error);
      }
      WriteAll(Arrivals(out.value, to));
      r := Ok(());
    }

    // -- Rebuilding -----------------------------------------------------------

    /** `rebuild`: strikes each cached row off the truth, reports what differs, and replaces everything if anything did. */
    method RebuildBalances() returns (drifted: seq<Drift>)
      modifies this`balances
      ensures drifted == Rebuild(old(View())).drifted
      ensures View() == Rebuild(old(View())).books
    {
      var truth := Summed(movements);
      drifted := [];
      var i := 0;
      while i < |balances|
        invariant 0 <= i <= |balances|
        invariant drifted + DriftOf(balances[i..], truth) == DriftOf(balances, Summed(movements))
      {
        var balance := balances[i];
        assert balances[i..][1..] == balances[i + 1..];
        var expected := Expected(truth, balance.key);
        if expected != balance.quantity {
          drifted := drifted + [Drift(balance.key, balance.quantity, expected)];
        }
        truth := Without(truth, balance.key);
        i := i + 1;
      }
      i := 0;
      while i < |truth|
        invariant 0 <= i <= |truth|
        invariant drifted + Missing(truth[i..]) == DriftOf(balances, Summed(movements))
      {
        assert truth[i..][1..] == truth[i + 1..];
        drifted := drifted + [Drift(truth[i].key, 0, truth[i].quantity)];
        i := i + 1;
      }
      if |drifted| > 0 {
        balances := Summed(movements);
      }
    }

    // -- Posting a count ------------------------------------------------------

    /** One short option: what moves leaves as a transfer, the rest is written off. */
    method PostShort(c: Sheet, v: Variance, leaving: int) returns (r: Result<seq<Freed>, Refusal>)
      modifies this
      ensures match OneShort(old(View()), c, v, leaving)
        case Ok(s) => r == Ok(s.freed) && View() == s.books
        case Err(e) => r == Err(e)
    {
      hide Outbound;
      var out: seq<Movement> := [];
      if leaving > 0 {
        var moved := RecordOutbound(OutFor(c, v.line, leaving, TransferOut), 0);
        if moved.Err? {
          return Err(moved.error);
        }
        out := moved.value;
      }
      if -v.variance > leaving {
        var lost := RecordOutbound(OutFor(c, v.line, -v.variance - leaving, Adjustment), 0);
        if lost.Err? {
          return Err(lost.error);
        }
      }
      r := Ok(FreedBy(out));
    }

    /** The short options of one product, each queueing the lots it frees. */
    method PostShorts(c: Sheet, shorts: seq<Variance>, moving: int) returns (r: Result<seq<Freed>, Refusal>)
      modifies this
      ensures match Shorts(old(View()), c, shorts, moving, [])
        case Ok(s) => r == Ok(s.freed) && View() == s.books
        case Err(e) => r == Err(e)
    {
      hide OneShort;
      var toMove := moving;
      var freed: seq<Freed> := [];
      var i := 0;
      while i < |shorts|
        invariant 0 <= i <= |shorts|
        invariant Shorts(View(), c, shorts[i..], toMove, freed) == Shorts(old(View()), c, shorts, moving, [])
      {
        assert shorts[i..][1..] == shorts[i + 1..];
        var leaving := Min(toMove, -shorts[i].variance);
        var out := PostShort(c, shorts[i], leaving);
        if out.Err? {
          return Err(out.error);
        }
        toMove := toMove - leaving;
        freed := freed + out.value;
        i := i + 1;
      }
      r := Ok(freed);
    }

    /** One over option: takes lots off the head of the queue while it still wants stock. */
    method FillFrom(c: Sheet, line: Line, variance: int, queue: seq<Freed>)
      returns (r: Result<(int, seq<Freed>), Refusal>)
      modifies this`movements, this`balances
      ensures match Fill(old(View()), c, line, variance, queue)
        case Ok(f) => r == Ok((f.wanted, f.freed)) && View() == f.books
        case Err(e) => r == Err(e)
    {
      var wanted, freed := variance, queue;
      while wanted > 0 && |freed| > 0
        invariant Fill(View(), c, line, wanted, freed) == Fill(old(View()), c, line, variance, queue)
        decreases |freed|, Max(wanted, 0)
      {
        var lot := freed[0];
        var taking := Min(wanted, lot.quantity);
        var arrived := RecordInbound(InKey(c, line, lot.lot), taking, TransferIn, Some(Count(c.id)));
        if arrived.Err? {
          return Err(arrived.error);
        }
        freed := AfterTaking(freed, taking);
        wanted := wanted - taking;
      }
      r := Ok((wanted, freed));
    }

    method PostOvers(c: Sheet, overs: seq<Variance>, queue: seq<Freed>) returns (r: Result<seq<Freed>, Refusal>)
      modifies this
      ensures match Overs(old(View()), c, overs, queue)
        case Ok(s) => r == Ok(s.freed) && View() == s.books
        case Err(e) => r == Err(e)
    {
      var freed := queue;
      var i := 0;
      while i < |overs|
        invariant 0 <= i <= |overs|
        invariant Overs(View(), c, overs[i..], freed) == Overs(old(View()), c, overs, queue)
      {
        assert overs[i..][1..] == overs[i + 1..];
        var v := overs[i];
        var filled := FillFrom(c, v.line, v.variance, freed);
        if filled.Err? {
          return Err(filled.error);
        }
        freed := filled.value.1;
        if filled.value.0 > 0 {
          var surplus := SurplusLot(View(), c, v.line.product);
          if surplus.Err? {
            return Err(surplus.error);
          }
          lots := surplus.value.lots;
          var found := RecordInbound(InKey(c, v.line, surplus.value.lot), filled.value.0, Adjustment, Some(Count(c.id)));
          if found.Err? {
            return Err(found.error);
          }
        }
        i := i + 1;
      }
      r := Ok(freed);
    }

    /** `postProduct`. */
    method PostOneProduct(c: Sheet, vs: seq<Variance>) returns (r: Result<(), Refusal>)
      modifies this
      ensures match PostProduct(old(View()), c, vs)
        case Ok(s) => r == Ok(()) && View() == s.books
        case Err(e) => r == Err(e)
    {
      var freed := PostShorts(c, ShortOf(vs), ToMove(vs));
      if freed.Err? {
        return Err(freed.error);
      }
      var left := PostOvers(c, OverOf(vs), freed.value);
      if left.Err? {
        return Err(left.error);
      }
      r := Ok(());
    }

    /** The lines that disagree, gathered by product. */
    method Gather(c: Sheet, lines: seq<Line>) returns (byProduct: seq<Group>)
      ensures byProduct == Disagreeing(View(), c, lines)
    {
      byProduct := [];
      for i := 0 to |lines|
        invariant byProduct == Disagreeing(View(), c, lines[..i])
      {
        var line := lines[i];
        assert lines[..i + 1][..i] == lines[..i];
        var variance := line.counted - OnHand(View(), line.product, line.option, c.location);
        if variance != 0 {
          byProduct := AddTo(byProduct, Variance(line, variance));
        }
      }
      assert lines[..|lines|] == lines;
    }

    /** The ledger's part of `post`, as one transaction. */
    method PostSheet(c: Sheet, lines: seq<Line>) returns (r: Result<(), Refusal>)
      modifies this
      ensures match PostCount(old(View()), c, lines)
        case Ok(b) => r == Ok(()) && View() == b
        case Err(e) => r == Err(e) && View() == old(View())
    {
      hide PostProduct, Disagreeing, Countable;
      if lines == [] {
        return Err(NothingCounted);
      }
      if exists i :: 0 <= i < |lines| && !Countable(View(), lines[i]) {
        return Err(CountedBeforeOptions);
      }
      var saved := View();
      var groups := Gather(c, lines);
      var i := 0;
      while i < |groups|
        invariant 0 <= i <= |groups|
        invariant PostGroups(View(), c, groups[i..]) == PostGroups(saved, c, groups)
      {
        assert groups[i..][1..] == groups[i + 1..];
        var posted := PostOneProduct(c, groups[i].variances);
        if posted.Err? {
          RollBack(saved);
          return Err(posted.error);
        }
        i := i + 1;
      }
      r := Ok(());
    }
  }

  // -- The count itself -------------------------------------------------------

  datatype Status = Open | Posted | Cancelled

  /** A count line as the device sends it. */
  function WithLine(lines: seq<Line>, line: Line): seq<Line> {
    if lines == [] then [line]
    else if CountTheorems.SameItem(lines[0], line) then [line] + lines[1..]
    else [lines[0]] + WithLine(lines[1..], line)
  }

  /** What the sheet says of one item, if anything. */
  function CountFor(lines: seq<Line>, product: Id, option: Option<Id>): Option<nat> {
    if lines == [] then None
    else if lines[0].product == product && lines[0].option == option then Some(lines[0].counted)
    else CountFor(lines[1..], product, option)
  }

  /** What the sheet says of an item once `line` is written on it. */
  function Recounted(lines: seq<Line>, line: Line, p: Id, o: Option<Id>): Option<nat> {
    if p == line.product && o == line.option then Some(line.counted) else CountFor(lines, p, o)
  }

  lemma {:induction false} WithLineFacts(lines: seq<Line>, line: Line)
    requires CountTheorems.DistinctLines(lines)
    ensures CountTheorems.DistinctLines(WithLine(lines, line))
    ensures forall l :: l in WithLine(lines, line) ==> l == line || l in lines
    ensures forall p, o :: CountFor(WithLine(lines, line), p, o) == Recounted(lines, line, p, o)
  {
    if lines != [] && !CountTheorems.SameItem(lines[0], line) {
      WithLineFacts(lines[1..], line);
      var rest := WithLine(lines[1..], line);
      forall i | 0 <= i < |rest|
        ensures !CountTheorems.SameItem(lines[0], rest[i])
      {
        assert rest[i] in rest;
      }
      assert ([lines[0]] + WithLine(lines[1..], line))[1..] == WithLine(lines[1..], line);
    }
  }

  /** The last count given for an item, looking from the end. */
  function LastCount(input: seq<Line>, product: Id, option: Option<Id>): Option<nat>
    decreases |input|
  {
    if input == [] then None
    else
      var last := input[|input| - 1];
      if last.product == product && last.option == option then Some(last.counted)
      else LastCount(input[..|input| - 1], product, option)
  }

  /** The last count given for an item, or else what the sheet already said. */
  function LaterOf(input: seq<Line>, before: seq<Line>, p: Id, o: Option<Id>): Option<nat> {
    if LastCount(input, p, o).Some? then LastCount(input, p, o) else CountFor(before, p, o)
  }

  /**
   * `assertCountable` while counting: the first line of a product that is not in
   * the catalog, or keeps no stock, or whose option will not do. `catalog` says of
   * each product not deleted whether it keeps stock.
   */
  function FirstProblem(b: Books, catalog: map<Id, bool>, input: seq<Line>): (r: Result<(), Refusal>)
    ensures r.Ok? <==> forall i :: 0 <= i < |input| ==>
      input[i].product in catalog && catalog[input[i].product] && Countable(b, input[i])
  {
    if input == [] then Ok(())
    else if input[0].product !in catalog then Err(NoSuchProduct)
    else if !catalog[input[0].product] then Err(NotCountable)
    else if !Countable(b, input[0]) then Err(OptionRefused)
    else
      assert input == [input[0]] + input[1..];
      FirstProblem(b, catalog, input[1..])
  }

  class StocktakeSheet {
    const id: Id
    const location: Id
    var status: Status
    var lines: seq<Line>

    constructor (id: Id, location: Id)
      ensures this.id == id && this.location == location && status == Open && lines == []
    {
      this.id, this.location, status, lines := id, location, Open, [];
    }

    /**
     * `count`: one line an item, a recount replacing the first; refused once the
     * sheet is closed, and for the first line that cannot be counted.
     */
    method Count(stock: StockService, catalog: map<Id, bool>, input: seq<Line>) returns (r: Result<(), Refusal>)
      requires CountTheorems.DistinctLines(lines)
      modifies this`lines
      ensures CountTheorems.DistinctLines(lines)
      ensures r == if status != Open then Err(NotOpen) else FirstProblem(stock.View(), catalog, input)
      ensures r.Err? ==> lines == old(lines)
      ensures r.Ok? ==> forall p, o :: CountFor(lines, p, o) == LaterOf(input, old(lines), p, o)
    {
      if status != Open {
        return Err(NotOpen);
      }
      for i := 0 to |input|
        invariant FirstProblem(stock.View(), catalog, input) == FirstProblem(stock.View(), catalog, input[i..])
      {
        assert input[i..][1..] == input[i + 1..];
        if input[i].product !in catalog {
          return Err(NoSuchProduct);
        }
        if !catalog[input[i].product] {
          return Err(NotCountable);
        }
        if !Countable(stock.View(), input[i]) {
          return Err(OptionRefused);
        }
      }
      for i := 0 to |input|
        invariant CountTheorems.DistinctLines(lines)
        invariant forall p, o :: CountFor(lines, p, o) == LaterOf(input[..i], old(lines), p, o)
      {
        WithLineFacts(lines, input[i]);
        assert input[..i + 1][..i] == input[..i];
        lines := WithLine(lines, input[i]);
      }
      assert input[..|input|] == input;
      r := Ok(());
    }

    /**
     * `post`: an open sheet becomes movements once. On success every counted
     * item is left at its count and nothing else moves; on refusal neither the
     * ledger nor the sheet changes.
     */
    method Post(stock: StockService, now: Time, found: map<Id, Id>) returns (r: Result<(), Refusal>)
      requires CountTheorems.DistinctLines(lines)
      requires Sound(stock.View())
      requires CountTheorems.FreshIds(stock.View(), Sheet(id, location, now, found), lines)
      modifies this`status, stock
      ensures r.Ok? <==> old(status) == Open && lines != []
                         && forall i :: 0 <= i < |lines| ==> Countable(old(stock.View()), lines[i])
      ensures r.Err? ==> stock.View() == old(stock.View()) && status == old(status)
      ensures r.Ok? ==> status == Posted && Sound(stock.View())
      ensures r.Ok? ==> forall i :: 0 <= i < |lines| ==>
        OnHand(stock.View(), lines[i].product, lines[i].option, location) == lines[i].counted
      ensures r.Ok? ==> forall p: Id, o: Option<Id>, l: Id :: (l != location || CountFor(lines, p, o).None?) ==>
        OnHand(stock.View(), p, o, l) == OnHand(old(stock.View()), p, o, l)
    {
      if status != Open {
        return Err(NotOpen);
      }
      var c := Sheet(id, location, now, found);
      ghost var before := stock.View();
      CountTheorems.PostingSettlesTheCount(before, c, lines);
      r := stock.PostSheet(c, lines);
      if r.Ok? {
        status := Posted;
        forall p: Id, o: Option<Id>, l: Id | l != location || CountFor(lines, p, o).None?
          ensures OnHand(stock.View(), p, o, l) == OnHand(before, p, o, l)
        {
          if l == location {
            NotCounted(lines, p, o);
          }
        }
        forall i | 0 <= i < |lines|
          ensures OnHand(stock.View(), lines[i].product, lines[i].option, location) == lines[i].counted
        {
          assert CountTheorems.OnHandOf(stock.View(), c, lines[i]) == lines[i].counted;
        }
      }
    }

    /** `cancel`: nothing reaches the ledger. */
    method Cancel() returns (r: Result<(), Refusal>)
      modifies this`status
      ensures r.Ok? <==> old(status) == Open
      ensures status == if r.Ok? then Cancelled else old(status)
    {
      if status != Open {
        return Err(NotOpen);
      }
      status := Cancelled;
      r := Ok(());
    }
  }

  lemma {:induction false} NotCounted(lines: seq<Line>, p: Id, o: Option<Id>)
    requires CountFor(lines, p, o).None?
    ensures forall i :: 0 <= i < |lines| ==> !(lines[i].product == p && lines[i].option == o)
  {
    if lines != [] {
      NotCounted(lines[1..], p, o);
    }
  }
}
