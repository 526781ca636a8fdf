/**
 * Which banking calls are accepted, and the row each leaves
 * (src/modules/cash/cash.service.ts:218-331, 489-497).
 */
module CashOutcomes {
  import opened Common
  import opened Cash

  /**
   * Banking is recorded exactly when it is one's own cash or an owner or manager
   * records it, it is of something, and of no more than is held. It is confirmed as
   * it is written when the owner records it, or a manager somebody else's.
   */
  lemma {:induction false} RecordExactly(b: Book, me: Person, heldBy: Id, amount: int)
    ensures Record(b, me, heldBy, amount).Ok? <==>
      (heldBy == me.id || me.role == Owner || me.role == Manager) && 0 < amount <= Held(b, heldBy)
    ensures Record(b, me, heldBy, amount).Ok? ==>
      var b1 := Record(b, me, heldBy, amount).value;
      && b1.takings == b.takings && b1.spending == b.spending && |b1.bankings| == |b.bankings| + 1
      && b1.bankings[..|b.bankings|] == b.bankings
      && var row := b1.bankings[|b.bankings|];
         && row.heldBy == heldBy && row.amount == amount && !row.voided
         && (row.confirmedBy == if me.role == Owner || (me.role == Manager && heldBy != me.id) then Some(me) else None)
  {
    hide Held;
  }

  /** A banking is confirmed exactly when it stands unconfirmed where the one confirming can see it, by the owner, or by a manager who did not hold the cash. */
  lemma {:induction false} ConfirmExactly(b: Book, me: Person, i: nat)
    ensures Confirm(b, me, i).Ok? <==>
      && i < |b.bankings| && !b.bankings[i].voided && b.bankings[i].confirmedBy.None?
      && (me.role == Owner || (me.role == Manager && b.bankings[i].heldBy != me.id))
    ensures Confirm(b, me, i).Ok? ==>
      Confirm(b, me, i).value == b.(bankings := b.bankings[i := Banking(b.bankings[i].heldBy, b.bankings[i].amount, Some(me), false)])
  {
  }

  /** A manager's confirmation of somebody else's standing banking goes through. */
  lemma {:induction false} AManagerConfirmsOthers(b: Book, me: Person, i: nat)
    requires me.role == Manager && i < |b.bankings| && b.bankings[i].heldBy != me.id
    requires !b.bankings[i].voided && b.bankings[i].confirmedBy.None?
    ensures Confirm(b, me, i).Ok? && Confirm(b, me, i).value.bankings[i].confirmedBy == Some(me)
  {
  }

  /** A banking is marked not received exactly once, by anybody who sees it: staff see their own. */
  lemma {:induction false} NotReceivedExactly(b: Book, me: Person, i: nat)
    ensures MarkNotReceived(b, me, i).Ok? <==>
      i < |b.bankings| && !b.bankings[i].voided && (me.role != Staff || b.bankings[i].heldBy == me.id)
    ensures MarkNotReceived(b, me, i).Ok? ==>
      MarkNotReceived(b, me, i).value
        == b.(bankings := b.bankings[i := Banking(b.bankings[i].heldBy, b.bankings[i].amount, b.bankings[i].confirmedBy, true)])
  {
  }
}
