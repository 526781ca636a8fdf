/**
 * Whose hands the shop's cash is in, the banking that takes it out of them, and
 * the oldest of it still there
 * (src/modules/cash/cash.ts:34-71, src/modules/cash/cash.service.ts:218-330, 341-486).
 */
module Cash {
  import opened Common

  // -- The oldest cash not banked ---------------------------------------------

  datatype Receipt = Receipt(amount: nat, at: Time)

  function Total(receipts: seq<Receipt>): nat {
    if receipts == [] then 0 else receipts[0].amount + Total(receipts[1..])
  }

  /** Newest first, until the takings cover what is held; the last read, should they run out. */
  function Walk(held: int, receipts: seq<Receipt>): Option<Time> {
    if receipts == [] then None
    else if receipts[0].amount >= held || |receipts| == 1 then Some(receipts[0].at)
    else Walk(held - receipts[0].amount, receipts[1..])
  }

  /** `oldestUnbanked`. */
  function OldestUnbanked(held: int, newestFirst: seq<Receipt>): Option<Time> {
    if held <= 0 then None else Walk(held, newestFirst)
  }

  /** First in, first out: what left went out of the oldest takings first; the oldest any of which is left. */
  function FirstLeft(gone: nat, oldestFirst: seq<Receipt>): Option<Time>
    decreases oldestFirst
  {
    if oldestFirst == [] then None
    else if gone >= oldestFirst[0].amount then FirstLeft(gone - oldestFirst[0].amount, oldestFirst[1..])
    else Some(oldestFirst[0].at)
  }

  function Reversed(receipts: seq<Receipt>): (r: seq<Receipt>)
    ensures |r| == |receipts|
  {
    if receipts == [] then [] else Reversed(receipts[1..]) + [receipts[0]]
  }

  lemma {:induction false} TotalConcat(x: seq<Receipt>, y: seq<Receipt>)
    ensures Total(x + y) == Total(x) + Total(y)
  {
    if x == [] {
      assert x + y == y;
    } else {
      assert (x + y)[1..] == x[1..] + y;
      TotalConcat(x[1..], y);
    }
  }

  /** The walk stops where the takings cover what is held, and sees nothing after it. */
  lemma {:induction false} WalkStops(held: int, x: seq<Receipt>, y: seq<Receipt>)
    requires held > 0 && x != []
    ensures Total(x) >= held ==> Walk(held, x + y) == Walk(held, x)
    ensures Total(x) < held && |y| == 1 ==> Walk(held, x + y) == Some(y[0].at)
    decreases x
  {
    assert (x + y)[1..] == x[1..] + y;
    if x[0].amount < held {
      if |x| == 1 {
        assert x[1..] + y == y;
        assert Total(x) == x[0].amount + Total(x[1..]);
      } else {
        WalkStops(held - x[0].amount, x[1..], y);
      }
    }
  }

  lemma {:induction false} ReversedTotal(receipts: seq<Receipt>)
    ensures Total(Reversed(receipts)) == Total(receipts)
  {
    if receipts != [] {
      ReversedTotal(receipts[1..]);
      TotalConcat(Reversed(receipts[1..]), [receipts[0]]);
      assert [receipts[0]][1..] == [];
    }
  }

  /**
   * The walk back from the newest takings lands on the receipt that first in,
   * first out would leave as the oldest: everything that left the person's hands
   * was the oldest money there was.
   */
  lemma {:induction false} WalkIsFirstInFirstOut(held: int, oldestFirst: seq<Receipt>)
    requires 0 < held
    ensures held <= Total(oldestFirst) ==>
      OldestUnbanked(held, Reversed(oldestFirst)) == FirstLeft(Total(oldestFirst) - held, oldestFirst)
    ensures held > Total(oldestFirst) ==>
      OldestUnbanked(held, Reversed(oldestFirst)) == if oldestFirst == [] then None else Some(oldestFirst[0].at)
    decreases oldestFirst
  {
    if oldestFirst != [] {
      var first, rest := oldestFirst[0], oldestFirst[1..];
      ReversedTotal(rest);
      if rest != [] {
        WalkStops(held, Reversed(rest), [first]);
        WalkIsFirstInFirstOut(held, rest);
      }
    }
  }

  const RECEIPT_PAGE: nat := 200

  function Slice(receipts: seq<Receipt>, skip: nat, take: nat): seq<Receipt> {
    if skip >= |receipts| then [] else if |receipts| - skip <= take then receipts[skip..] else receipts[skip..skip + take]
  }

  /** `oldestUnbankedFor`: a page at a time, no further back than what is held reaches; the same answer as reading everything. */
  method OldestUnbankedFor(held: int, newestFirst: seq<Receipt>) returns (at: Option<Time>)
    ensures at == OldestUnbanked(held, newestFirst)
  {
    var receipts: seq<Receipt> := [];
    var covered, skip: nat := 0, 0;
    var short := false;
    while covered < held && !short
      invariant skip <= |newestFirst| || short
      invariant receipts == if skip <= |newestFirst| && !short then newestFirst[..skip] else newestFirst
      invariant covered == Total(receipts)
      decreases !short, |newestFirst| - skip
    {
      var page := Slice(newestFirst, skip, RECEIPT_PAGE);
      TotalConcat(receipts, page);
      assert newestFirst[..skip] + page == if |page| < RECEIPT_PAGE then newestFirst else newestFirst[..skip + RECEIPT_PAGE];
      receipts := receipts + page;
      covered := covered + Total(page);
      if |page| < RECEIPT_PAGE {
        short := true;
      } else {
        skip := skip + RECEIPT_PAGE;
      }
    }
    if 0 < held && receipts != [] {
      WalkStops(held, receipts, newestFirst[|receipts|..]);
      assert receipts + newestFirst[|receipts|..] == newestFirst;
    }
    at := OldestUnbanked(held, receipts);
  }

  // -- Taking, paying out and banking -----------------------------------------

  datatype Role = Owner | Manager | Accountant | Staff

  datatype Person = Person(id: Id, role: Role)

  /** Cash leaving somebody's hands. A row marked not received is kept and stops counting. */
  datatype Banking = Banking(heldBy: Id, amount: nat, confirmedBy: Option<Person>, voided: bool)

  /**
   * Cash somebody took or paid out. A row voided or deleted is kept and stops
   * counting; a row not in cash, or from before counting started, counts for
   * nothing and has no amount here.
   */
  datatype Move = Move(who: Id, amount: nat, gone: bool)

  datatype Book = Book(takings: seq<Move>, spending: seq<Move>, bankings: seq<Banking>)

  const EMPTY := Book([], [], [])

  datatype Figures = Figures(received: nat, paidOut: nat, banked: nat, waiting: nat)

  datatype Refusal =
    | NotTheirs
    | NothingBanked
    | MoreThanHeld
    | NoSuchBanking
    | NotReceived
    | AlreadyConfirmed
    | OwnBanking
    | NotFound
    | AlreadyVoided

  function Adds(m: Move, who: Id): nat {
    if m.who == who && !m.gone then m.amount else 0
  }

  function SumFor(moves: seq<Move>, who: Id): nat {
    if moves == [] then 0 else Adds(moves[0], who) + SumFor(moves[1..], who)
  }

  /** Bankings of one person not marked not received, confirmed or not. */
  function BankedFor(bankings: seq<Banking>, who: Id, confirmed: bool): nat {
    if bankings == [] then 0
    else
      (if bankings[0].heldBy == who && !bankings[0].voided && bankings[0].confirmedBy.Some? == confirmed
       then bankings[0].amount else 0)
      + BankedFor(bankings[1..], who, confirmed)
  }

  function FiguresOf(b: Book, who: Id): Figures {
    Figures(SumFor(b.takings, who), SumFor(b.spending, who), BankedFor(b.bankings, who, true), BankedFor(b.bankings, who, false))
  }

  /** `stillHolding`. */
  function StillHolding(f: Figures): int {
    f.received - f.paidOut - f.banked - f.waiting
  }

  function Held(b: Book, who: Id): int {
    StillHolding(FiguresOf(b, who))
  }

  /** `mayConfirm`: the owner anything; a manager anybody's but their own. */
  predicate MayConfirm(me: Person, heldBy: Id) {
    me.role == Owner || (me.role == Manager && heldBy != me.id)
  }

  /** `create`: recorded confirmed when the one recording could have confirmed it. */
  function Record(b: Book, me: Person, heldBy: Id, amount: int): Result<Book, Refusal> {
    if heldBy != me.id && me.role != Owner && me.role != Manager then Err(NotTheirs)
    else if amount <= 0 then Err(NothingBanked)
    else if amount > Held(b, heldBy) then Err(MoreThanHeld)
    else Ok(b.(bankings := b.bankings + [Banking(heldBy, amount, if MayConfirm(me, heldBy) then Some(me) else None, false)]))
  }

  /** `findOne`: staff see only their own rows. */
  predicate Sees(b: Book, me: Person, i: nat) {
    i < |b.bankings| && (me.role == Staff ==> b.bankings[i].heldBy == me.id)
  }

  /** `confirm`. */
  function Confirm(b: Book, me: Person, i: nat): Result<Book, Refusal> {
    if !Sees(b, me, i) then Err(NoSuchBanking)
    else if b.bankings[i].voided then Err(NotReceived)
    else if b.bankings[i].confirmedBy.Some? then Err(AlreadyConfirmed)
    else if !MayConfirm(me, b.bankings[i].heldBy) then Err(OwnBanking)
    else Ok(b.(bankings := b.bankings[i := b.bankings[i].(confirmedBy := Some(me))]))
  }

  /** `voidBanking`. */
  function MarkNotReceived(b: Book, me: Person, i: nat): Result<Book, Refusal> {
    if !Sees(b, me, i) then Err(NoSuchBanking)
    else if b.bankings[i].voided then Err(NotReceived)
    else Ok(b.(bankings := b.bankings[i := b.bankings[i].(voided := true)]))
  }

  /** The row is there and counts. */
  predicate Stands(moves: seq<Move>, i: nat) {
    i < |moves| && !moves[i].gone
  }

  /** `voidPayment` of money taken: what its taker still holds is not looked at. */
  function VoidReceipt(b: Book, i: nat): Result<Book, Refusal> {
    if i >= |b.takings| then Err(NotFound)
    else if b.takings[i].gone then Err(AlreadyVoided)
    else Ok(b.(takings := b.takings[i := b.takings[i].(gone := true)]))
  }

  /** A price correction: the receipt voided, and what is left of it taken by the same person, at once. */
  function CorrectReceipt(b: Book, i: nat, truth: nat): Result<Book, Refusal> {
    var voided :- VoidReceipt(b, i);
    Ok(if truth == 0 then voided else voided.(takings := voided.takings + [Move(b.takings[i].who, truth, false)]))
  }

  /** An expense edited, or a delivery fee corrected: another amount, or out of other hands. */
  function AmendPaidOut(b: Book, i: nat, payer: Id, truth: nat): Result<Book, Refusal> {
    if !Stands(b.spending, i) then Err(NotFound) else Ok(b.(spending := b.spending[i := Move(payer, truth, false)]))
  }

  /** An expense deleted, or a refund or a payment to a vendor voided. */
  function UndoPaidOut(b: Book, i: nat): Result<Book, Refusal> {
    if !Stands(b.spending, i) then Err(NotFound) else Ok(b.(spending := b.spending[i := b.spending[i].(gone := true)]))
  }

  datatype Step =
    | TakeCash(who: Id, amount: nat)
    | PayOut(who: Id, amount: nat)
    | VoidTaking(row: nat)
    | CorrectTaking(row: nat, truth: nat)
    | AmendPayOut(row: nat, payer: Id, truth: nat)
    | UndoPayOut(row: nat)
    | BankIt(me: Person, heldBy: Id, banked: int)
    | ConfirmIt(me: Person, i: nat)
    | NotArrived(me: Person, i: nat)

  function Kept(b: Book, r: Result<Book, Refusal>): Book {
    if r.Ok? then r.value else b
  }

  function Next(b: Book, step: Step): Book {
    match step
    case TakeCash(who, amount) => b.(takings := b.takings + [Move(who, amount, false)])
    case PayOut(who, amount) => b.(spending := b.spending + [Move(who, amount, false)])
    case VoidTaking(row) => Kept(b, VoidReceipt(b, row))
    case CorrectTaking(row, truth) => Kept(b, CorrectReceipt(b, row, truth))
    case AmendPayOut(row, payer, truth) => Kept(b, AmendPaidOut(b, row, payer, truth))
    case UndoPayOut(row) => Kept(b, UndoPaidOut(b, row))
    case BankIt(me, heldBy, banked) => Kept(b, Record(b, me, heldBy, banked))
    case ConfirmIt(me, i) => Kept(b, Confirm(b, me, i))
    case NotArrived(me, i) => Kept(b, MarkNotReceived(b, me, i))
  }

  function Run(b: Book, steps: seq<Step>): Book
    decreases steps
  {
    if steps == [] then b else Run(Next(b, steps[0]), steps[1..])
  }

  lemma {:induction false} SumForAppend(moves: seq<Move>, m: Move, who: Id)
    ensures SumFor(moves + [m], who) == SumFor(moves, who) + Adds(m, who)
  {
    if moves == [] {
      assert [] + [m] == [m] && [m][1..] == [];
    } else {
      assert (moves + [m])[1..] == moves[1..] + [m];
      SumForAppend(moves[1..], m, who);
    }
  }

  lemma {:induction false} SumForUpdate(moves: seq<Move>, i: nat, m: Move, who: Id)
    requires i < |moves|
    ensures SumFor(moves[i := m], who) == SumFor(moves, who) - Adds(moves[i], who) + Adds(m, who)
  {
    if i == 0 {
      assert moves[0 := m][1..] == moves[1..];
    } else {
      assert moves[i := m][1..] == moves[1..][i - 1 := m];
      SumForUpdate(moves[1..], i - 1, m, who);
    }
  }

  function Counts(row: Banking, who: Id, confirmed: bool): nat {
    if row.heldBy == who && !row.voided && row.confirmedBy.Some? == confirmed then row.amount else 0
  }

  lemma {:induction false} BankedAppend(bankings: seq<Banking>, row: Banking, who: Id, confirmed: bool)
    ensures BankedFor(bankings + [row], who, confirmed) == BankedFor(bankings, who, confirmed) + Counts(row, who, confirmed)
  {
    if bankings == [] {
      assert [] + [row] == [row] && [row][1..] == [];
    } else {
      assert (bankings + [row])[1..] == bankings[1..] + [row];
      BankedAppend(bankings[1..], row, who, confirmed);
    }
  }

  lemma {:induction false} BankedUpdate(bankings: seq<Banking>, i: nat, row: Banking, who: Id, confirmed: bool)
    requires i < |bankings|
    ensures BankedFor(bankings[i := row], who, confirmed)
         == BankedFor(bankings, who, confirmed) - Counts(bankings[i], who, confirmed) + Counts(row, who, confirmed)
  {
    if i == 0 {
      assert bankings[0 := row][1..] == bankings[1..];
    } else {
      assert bankings[i := row][1..] == bankings[1..][i - 1 := row];
      BankedUpdate(bankings[1..], i - 1, row, who, confirmed);
    }
  }

  /** What one step does to what somebody holds. */
  lemma {:induction false} StepMoves(b: Book, step: Step, who: Id)
    ensures var before, after := Held(b, who), Held(Next(b, step), who);
      match step
      case TakeCash(w, amount) => after == before + if w == who then amount else 0
      case PayOut(w, amount) => after == before - if w == who then amount else 0
      case VoidTaking(i) => after == before - if Stands(b.takings, i) then Adds(b.takings[i], who) else 0
      case CorrectTaking(i, truth) =>
        after == before - if Stands(b.takings, i) && b.takings[i].who == who then b.takings[i].amount - truth else 0
      case AmendPayOut(i, payer, truth) =>
        after == before + if Stands(b.spending, i) then Adds(b.spending[i], who) - (if payer == who then truth else 0) else 0
      case UndoPayOut(i) => after == before + if Stands(b.spending, i) then Adds(b.spending[i], who) else 0
      case BankIt(me, heldBy, banked) =>
        if Record(b, me, heldBy, banked).Ok? && heldBy == who then after == before - banked && 0 <= after < before else after == before
      case ConfirmIt(me, i) => after == before
      case NotArrived(me, i) =>
        after == before + if MarkNotReceived(b, me, i).Ok? && b.bankings[i].heldBy == who then b.bankings[i].amount else 0
  {
    hide SumFor, BankedFor, Record, Confirm, MarkNotReceived;
    match step
    case TakeCash(w, amount) => SumForAppend(b.takings, Move(w, amount, false), who);
    case PayOut(w, amount) => SumForAppend(b.spending, Move(w, amount, false), who);
    case VoidTaking(i) =>
      if Stands(b.takings, i) {
        SumForUpdate(b.takings, i, b.takings[i].(gone := true), who);
      }
    case CorrectTaking(i, truth) =>
      if Stands(b.takings, i) {
        var voided := b.takings[i := b.takings[i].(gone := true)];
        SumForUpdate(b.takings, i, b.takings[i].(gone := true), who);
        SumForAppend(voided, Move(b.takings[i].who, truth, false), who);
      }
    case AmendPayOut(i, payer, truth) =>
      if Stands(b.spending, i) {
        SumForUpdate(b.spending, i, Move(payer, truth, false), who);
      }
    case UndoPayOut(i) =>
      if Stands(b.spending, i) {
        SumForUpdate(b.spending, i, b.spending[i].(gone := true), who);
      }
    case BankIt(me, heldBy, banked) => BankItMoves(b, me, heldBy, banked, who);
    case ConfirmIt(me, i) => ConfirmMovesNothing(b, me, i, who);
    case NotArrived(me, i) => NotArrivedMoves(b, me, i, who);
  }

  lemma {:induction false} BankItMoves(b: Book, me: Person, heldBy: Id, banked: int, who: Id)
    ensures var before, after := Held(b, who), Held(Kept(b, Record(b, me, heldBy, banked)), who);
      if Record(b, me, heldBy, banked).Ok? && heldBy == who then after == before - banked && 0 <= after < before else after == before
  {
    hide SumFor, BankedFor;
    if Record(b, me, heldBy, banked).Ok? {
      var row := Banking(heldBy, banked, if MayConfirm(me, heldBy) then Some(me) else None, false);
      BankedAppend(b.bankings, row, who, true);
      BankedAppend(b.bankings, row, who, false);
    }
  }

  lemma {:induction false} ConfirmMovesNothing(b: Book, me: Person, i: nat, who: Id)
    ensures Held(Kept(b, Confirm(b, me, i)), who) == Held(b, who)
  {
    hide SumFor, BankedFor;
    if Confirm(b, me, i).Ok? {
      BankedUpdate(b.bankings, i, b.bankings[i].(confirmedBy := Some(me)), who, true);
      BankedUpdate(b.bankings, i, b.bankings[i].(confirmedBy := Some(me)), who, false);
    }
  }

  lemma {:induction false} NotArrivedMoves(b: Book, me: Person, i: nat, who: Id)
    ensures Held(Kept(b, MarkNotReceived(b, me, i)), who) == Held(b, who)
      + if MarkNotReceived(b, me, i).Ok? && b.bankings[i].heldBy == who then b.bankings[i].amount else 0
  {
    hide SumFor, BankedFor;
    if MarkNotReceived(b, me, i).Ok? {
      BankedUpdate(b.bankings, i, b.bankings[i].(voided := true), who, true);
      BankedUpdate(b.bankings, i, b.bankings[i].(voided := true), who, false);
    }
  }

  /**
   * What the step takes out of somebody's hands is no more than they hold: cash
   * paid out, a receipt voided, what a correction takes off a receipt, and what an
   * amended pay-out adds to what its payer had paid.
   */
  predicate Covered(b: Book, step: Step) {
    match step
    case PayOut(who, amount) => amount <= Held(b, who)
    case VoidTaking(i) => Stands(b.takings, i) ==> b.takings[i].amount <= Held(b, b.takings[i].who)
    case CorrectTaking(i, truth) => Stands(b.takings, i) ==> b.takings[i].amount - truth <= Held(b, b.takings[i].who)
    case AmendPayOut(i, payer, truth) => Stands(b.spending, i) ==> truth - Adds(b.spending[i], payer) <= Held(b, payer)
    case _ => true
  }

  /** Whose hands the step may take cash out of. */
  function OutOf(b: Book, step: Step): Id {
    match step
    case PayOut(who, _) => who
    case VoidTaking(i) => if i < |b.takings| then b.takings[i].who else 0
    case CorrectTaking(i, _) => if i < |b.takings| then b.takings[i].who else 0
    case AmendPayOut(_, payer, _) => payer
    case _ => 0
  }

  predicate AllCovered(b: Book, steps: seq<Step>)
    decreases steps
  {
    steps == [] || (Covered(b, steps[0]) && AllCovered(Next(b, steps[0]), steps[1..]))
  }

  ghost predicate NobodyShort(b: Book) {
    forall who :: Held(b, who) >= 0
  }

  ghost predicate NeverShort(b: Book, steps: seq<Step>)
    decreases steps
  {
    NobodyShort(b) && (steps == [] || NeverShort(Next(b, steps[0]), steps[1..]))
  }

  lemma {:induction false} NextNobodyShort(b: Book, step: Step)
    requires NobodyShort(b)
    ensures NobodyShort(Next(b, step)) <==> Covered(b, step)
  {
    hide Held, Next;
    forall who | Covered(b, step)
      ensures Held(Next(b, step), who) >= 0
    {
      StepMoves(b, step, who);
      assert Held(b, who) >= 0;
    }
    if !Covered(b, step) {
      StepMoves(b, step, OutOf(b, step));
      assert Held(Next(b, step), OutOf(b, step)) < 0;
    }
  }

  /**
   * Over any run nobody's holding goes below zero exactly when, before each step,
   * whatever it takes out of somebody's hands is no more than they hold. Banking
   * sees to that itself; paying out, voiding a receipt, correcting one down and
   * raising a pay-out do not.
   */
  lemma {:induction false} ShortExactlyWhenNotCovered(b: Book, steps: seq<Step>)
    requires NobodyShort(b)
    ensures NeverShort(b, steps) <==> AllCovered(b, steps)
    decreases steps
  {
    hide NobodyShort, Next, Covered;
    if steps != [] {
      NextNobodyShort(b, steps[0]);
      if Covered(b, steps[0]) {
        ShortExactlyWhenNotCovered(Next(b, steps[0]), steps[1..]);
      }
    }
  }

  lemma {:induction false} SumForOne(moves: seq<Move>, who: Id)
    requires |moves| <= 1
    ensures SumFor(moves, who) == if moves == [] then 0 else Adds(moves[0], who)
  {
    assert moves != [] ==> moves[1..] == [];
  }

  lemma {:induction false} BankedForOne(bankings: seq<Banking>, who: Id, confirmed: bool)
    requires |bankings| <= 1
    ensures BankedFor(bankings, who, confirmed) == if bankings == [] then 0 else Counts(bankings[0], who, confirmed)
  {
    assert bankings != [] ==> bankings[1..] == [];
  }

  /** What is held by a book of one row of a kind at most. */
  lemma {:induction false} HeldOfAFew(b: Book, who: Id)
    requires |b.takings| <= 1 && |b.spending| <= 1 && |b.bankings| <= 1
    ensures Held(b, who) ==
      (if b.takings == [] then 0 else Adds(b.takings[0], who))
      - (if b.spending == [] then 0 else Adds(b.spending[0], who))
      - (if b.bankings == [] then 0 else Counts(b.bankings[0], who, true) + Counts(b.bankings[0], who, false))
  {
    hide SumFor, BankedFor;
    SumForOne(b.takings, who);
    SumForOne(b.spending, who);
    BankedForOne(b.bankings, who, true);
    BankedForOne(b.bankings, who, false);
  }

  const TOOK_100 := Book([Move(1, 100, false)], [], [])
  const BANKED_100 := TOOK_100.(bankings := [Banking(1, 100, None, false)])

  const BANKED_THEN_VOIDED: seq<Step> := [TakeCash(1, 100), BankIt(Person(1, Staff), 1, 100), VoidTaking(0)]

  /** A receipt voided after its cash was banked leaves its taker a hundred short, and nothing was paid out. */
  lemma {:induction false} VoidingAfterBankingGoesShort()
    ensures Held(Run(EMPTY, BANKED_THEN_VOIDED), 1) == -100
    ensures NeverShort(EMPTY, BANKED_THEN_VOIDED[..2])
  {
    hide Held, NobodyShort;
    NobodyIsShort();
    HeldOfAFew(TOOK_100, 1);
    assert Next(EMPTY, BANKED_THEN_VOIDED[0]) == TOOK_100;
    assert Next(TOOK_100, BANKED_THEN_VOIDED[1]) == BANKED_100;
    ThreeSteps(EMPTY, BANKED_THEN_VOIDED);
    HeldOfAFew(Next(BANKED_100, BANKED_THEN_VOIDED[2]), 1);
    TwoNeverShort(EMPTY, BANKED_THEN_VOIDED[..2]);
  }

  const BANKED_THEN_RAISED: seq<Step> := [PayOut(1, 0), BankIt(Person(1, Staff), 1, 100), AmendPayOut(0, 1, 30)]

  /** So does an expense raised after what was left was banked: thirty short of a hundred taken. */
  lemma {:induction false} RaisingAfterBankingGoesShort()
    ensures Held(Run(TOOK_100, BANKED_THEN_RAISED), 1) == -30
  {
    hide Held;
    var b1 := TOOK_100.(spending := [Move(1, 0, false)]);
    var b2 := BANKED_100.(spending := b1.spending);
    HeldOfAFew(b1, 1);
    assert Next(TOOK_100, BANKED_THEN_RAISED[0]) == b1;
    assert Next(b1, BANKED_THEN_RAISED[1]) == b2;
    ThreeSteps(TOOK_100, BANKED_THEN_RAISED);
    HeldOfAFew(Next(b2, BANKED_THEN_RAISED[2]), 1);
  }

  lemma {:induction false} NobodyIsShort()
    ensures NobodyShort(EMPTY) && NobodyShort(TOOK_100) && NobodyShort(BANKED_100)
  {
    hide Held;
    forall who
      ensures Held(EMPTY, who) >= 0 && Held(TOOK_100, who) >= 0 && Held(BANKED_100, who) >= 0
    {
      HeldOfAFew(EMPTY, who);
      HeldOfAFew(TOOK_100, who);
      HeldOfAFew(BANKED_100, who);
    }
  }

  lemma {:induction false} ThreeSteps(b: Book, steps: seq<Step>)
    requires |steps| == 3
    ensures Run(b, steps) == Next(Next(Next(b, steps[0]), steps[1]), steps[2])
  {
    hide Next;
    assert steps[1..][0] == steps[1] && steps[1..][1..] == steps[2..] && steps[2..][1..] == [];
    var b1 := Next(b, steps[0]);
    var b2 := Next(b1, steps[1]);
    assert Run(b2, steps[2..]) == Run(Next(b2, steps[2]), []);
    assert Run(b1, steps[1..]) == Run(b2, steps[2..]);
  }

  lemma {:induction false} TwoNeverShort(b: Book, steps: seq<Step>)
    requires |steps| == 2 && NobodyShort(b) && NobodyShort(Next(b, steps[0])) && NobodyShort(Next(Next(b, steps[0]), steps[1]))
    ensures NeverShort(b, steps)
  {
    hide Next, NobodyShort;
    var b1 := Next(b, steps[0]);
    var b2 := Next(b1, steps[1]);
    assert steps[1..][0] == steps[1] && steps[1..][1..] == [];
    assert NeverShort(b2, []);
    assert NeverShort(b1, steps[1..]);
  }

  /** Every confirmed banking was confirmed by the owner, or by a manager it was not held by. */
  predicate RightlyConfirmed(b: Book) {
    forall i :: 0 <= i < |b.bankings| && b.bankings[i].confirmedBy.Some? ==>
      MayConfirm(b.bankings[i].confirmedBy.value, b.bankings[i].heldBy)
  }

  /** Over any run: a banking is never confirmed by the manager who held it, nor by anybody of less authority. */
  lemma {:induction false} ConfirmedWithAuthority(b: Book, steps: seq<Step>)
    requires RightlyConfirmed(b)
    ensures RightlyConfirmed(Run(b, steps))
    decreases steps
  {
    if steps != [] {
      ConfirmedWithAuthority(Next(b, steps[0]), steps[1..]);
    }
  }

  /** A banking standing and unconfirmed is confirmed by its own holder exactly when the holder is the owner. */
  lemma {:induction false} OwnIsConfirmedByOwnerAlone(b: Book, me: Person, i: nat)
    requires i < |b.bankings| && b.bankings[i].heldBy == me.id && !b.bankings[i].voided && b.bankings[i].confirmedBy.None?
    ensures Confirm(b, me, i).Ok? <==> me.role == Owner
  {
  }

  /** Some banking was confirmed by the one who held it. */
  predicate SelfConfirmed(b: Book) {
    exists i :: 0 <= i < |b.bankings| && ByItsHolder(b.bankings[i])
  }

  predicate ByItsHolder(row: Banking) {
    row.confirmedBy.Some? && row.confirmedBy.value.id == row.heldBy
  }

  /** An owner records some of the cash they hold as banked, or confirms a banking of theirs that waits. */
  predicate OwnersOwn(b: Book, step: Step) {
    match step
    case BankIt(me, heldBy, banked) => me.role == Owner && heldBy == me.id && 0 < banked <= Held(b, me.id)
    case ConfirmIt(me, i) =>
      && me.role == Owner && i < |b.bankings| && b.bankings[i].heldBy == me.id
      && !b.bankings[i].voided && b.bankings[i].confirmedBy.None?
    case _ => false
  }

  predicate EverOwnersOwn(b: Book, steps: seq<Step>)
    decreases steps
  {
    steps != [] && (OwnersOwn(b, steps[0]) || EverOwnersOwn(Next(b, steps[0]), steps[1..]))
  }

  lemma {:induction false} NextSelfConfirmed(b: Book, step: Step)
    ensures SelfConfirmed(Next(b, step)) <==> SelfConfirmed(b) || OwnersOwn(b, step)
  {
    hide Held;
    var b1 := Next(b, step);
    forall i | 0 <= i < |b.bankings| && ByItsHolder(b.bankings[i])
      ensures ByItsHolder(b1.bankings[i])
    {
    }
    if OwnersOwn(b, step) {
      assert ByItsHolder(b1.bankings[if step.BankIt? then |b.bankings| else step.i]);
    }
  }

  /**
   * Over any run: somebody comes to have confirmed their own banking exactly when
   * an owner records, or confirms, a banking of cash the owner held.
   */
  lemma {:induction false} SelfConfirmedExactly(b: Book, steps: seq<Step>)
    ensures SelfConfirmed(Run(b, steps)) <==> SelfConfirmed(b) || EverOwnersOwn(b, steps)
    decreases steps
  {
    hide Next, OwnersOwn, SelfConfirmed;
    if steps != [] {
      NextSelfConfirmed(b, steps[0]);
      SelfConfirmedExactly(Next(b, steps[0]), steps[1..]);
    }
  }

  const OWNERS_BANKING: seq<Step> := [TakeCash(1, 100), BankIt(Person(1, Owner), 1, 100)]

  /** An owner banks the cash in the owner's own hands, and it is confirmed as it is written. */
  lemma {:induction false} AnOwnerConfirmsTheirOwn()
    ensures Run(EMPTY, OWNERS_BANKING).bankings == [Banking(1, 100, Some(Person(1, Owner)), false)]
    ensures SelfConfirmed(Run(EMPTY, OWNERS_BANKING))
  {
    hide Held;
    HeldOfAFew(TOOK_100, 1);
    assert Next(EMPTY, OWNERS_BANKING[0]) == TOOK_100;
    assert OWNERS_BANKING[1..][0] == OWNERS_BANKING[1] && OWNERS_BANKING[1..][1..] == [];
    assert Run(EMPTY, OWNERS_BANKING) == Run(TOOK_100, OWNERS_BANKING[1..]) == Next(TOOK_100, OWNERS_BANKING[1]);
    assert ByItsHolder(Run(EMPTY, OWNERS_BANKING).bankings[0]);
  }

  /** Marking a banking not received gives its holder back exactly what it took. */
  lemma {:induction false} NotReceivedGivesBack(b: Book, me: Person, heldBy: Id, amount: int, other: Person, who: Id)
    requires Record(b, me, heldBy, amount).Ok?
    requires MarkNotReceived(Record(b, me, heldBy, amount).value, other, |b.bankings|).Ok?
    ensures Held(MarkNotReceived(Record(b, me, heldBy, amount).value, other, |b.bankings|).value, who) == Held(b, who)
  {
    var row := Banking(heldBy, amount, if MayConfirm(me, heldBy) then Some(me) else None, false);
    var rows := b.bankings + [row];
    forall confirmed: bool
      ensures BankedFor(rows[|b.bankings| := row.(voided := true)], who, confirmed) == BankedFor(b.bankings, who, confirmed)
    {
      BankedAppend(b.bankings, row, who, confirmed);
      BankedUpdate(rows, |b.bankings|, row.(voided := true), who, confirmed);
    }
  }

  // -- The service ------------------------------------------------------------

  /** The cash service over its rows. */
  class CashService {
    var takings: seq<Move>
    var spending: seq<Move>
    var bankings: seq<Banking>

    function View(): Book
      reads this
    {
      Book(takings, spending, bankings)
    }

    constructor ()
      ensures View() == EMPTY
    {
      takings, spending, bankings := [], [], [];
    }

    /** `figures`, for one person: every row added to the figure it belongs to. */
    method FiguresFor(who: Id) returns (f: Figures)
      ensures f == FiguresOf(View(), who)
    {
      var received, paidOut, banked, waiting: nat := 0, 0, 0, 0;
      for i := 0 to |takings|
        invariant received + SumFor(takings[i..], who) == SumFor(takings, who)
      {
        assert takings[i..][1..] == takings[i + 1..];
        if takings[i].who == who && !takings[i].gone {
          received := received + takings[i].amount;
        }
      }
      for i := 0 to |spending|
        invariant paidOut + SumFor(spending[i..], who) == SumFor(spending, who)
      {
        assert spending[i..][1..] == spending[i + 1..];
        if spending[i].who == who && !spending[i].gone {
          paidOut := paidOut + spending[i].amount;
        }
      }
      for i := 0 to |bankings|
        invariant banked + BankedFor(bankings[i..], who, true) == BankedFor(bankings, who, true)
        invariant waiting + BankedFor(bankings[i..], who, false) == BankedFor(bankings, who, false)
      {
        assert bankings[i..][1..] == bankings[i + 1..];
        if bankings[i].heldBy == who && !bankings[i].voided {
          if bankings[i].confirmedBy.Some? {
            banked := banked + bankings[i].amount;
          } else {
            waiting := waiting + bankings[i].amount;
          }
        }
      }
      f := Figures(received, paidOut, banked, waiting);
    }

    /** `create`. */
    method Create(me: Person, heldBy: Id, amount: int) returns (r: Result<(), Refusal>)
      modifies this`bankings
      ensures match Record(old(View()), me, heldBy, amount)
        case Ok(b) => r == Ok(()) && View() == b && Held(b, heldBy) == Held(old(View()), heldBy) - amount >= 0
        case Err(e) => r == Err(e) && View() == old(View())
    {
      StepMoves(View(), BankIt(me, heldBy, amount), heldBy);
      if heldBy != me.id && me.role != Owner && me.role != Manager {
        return Err(NotTheirs);
      }
      if amount <= 0 {
        return Err(NothingBanked);
      }
      var figures := FiguresFor(heldBy);
      if amount > StillHolding(figures) {
        return Err(MoreThanHeld);
      }
      var row := Banking(heldBy, amount, if MayConfirm(me, heldBy) then Some(me) else None, false);
      BankedAppend(bankings, row, heldBy, true);
      BankedAppend(bankings, row, heldBy, false);
      bankings := bankings + [row];
      r := Ok(());
    }

    /** `confirm`. */
    method ConfirmBanking(me: Person, i: nat) returns (r: Result<(), Refusal>)
      modifies this`bankings
      ensures match Confirm(old(View()), me, i)
        case Ok(b) => r == Ok(()) && View() == b
        case Err(e) => r == Err(e) && View() == old(View())
    {
      if !Sees(View(), me, i) {
        return Err(NoSuchBanking);
      }
      if bankings[i].voided {
        return Err(NotReceived);
      }
      if bankings[i].confirmedBy.Some? {
        return Err(AlreadyConfirmed);
      }
      if !MayConfirm(me, bankings[i].heldBy) {
        return Err(OwnBanking);
      }
      bankings := bankings[i := bankings[i].(confirmedBy := Some(me))];
      r := Ok(());
    }

    /** `voidBanking`. */
    method VoidBanking(me: Person, i: nat) returns (r: Result<(), Refusal>)
      modifies this`bankings
      ensures match MarkNotReceived(old(View()), me, i)
        case Ok(b) => r == Ok(()) && View() == b
        case Err(e) => r == Err(e) && View() == old(View())
    {
      if !Sees(View(), me, i) {
        return Err(NoSuchBanking);
      }
      if bankings[i].voided {
        return Err(NotReceived);
      }
      bankings := bankings[i := bankings[i].(voided := true)];
      r := Ok(());
    }
  }
}
