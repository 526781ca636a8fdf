/**
 * What a request is told and what it leaves behind: that a key is claimed when it
 * is free, given back by a failure, kept by a success, and taken over when it is
 * stale (src/common/idempotency/idempotency.interceptor.ts:57-253).
 */
module IdempotencyProgress {
  import opened Common
  import opened Idempotency

  const TWO_DAYS: Time := 172800000
  const TWO_MINUTES: Time := 120000

  // -- Claiming a free key ----------------------------------------------------

  /** An insert claims a key nobody holds, for two days from when it was asked for, and sends the request to look when somebody does. */
  lemma {:induction false} InsertExactly(s: State, r: nat, stamp: Time)
    requires r < |s.requests| && s.requests[r].phase.Inserting? && s.requests[r].phase.asked <= stamp <= s.clock
    ensures var q, s1 := s.requests[r], Next(s, Insert(r, stamp));
      && |s1.requests| == |s.requests|
      && (q.key !in s.table ==>
            && s1.requests[r] == q.(phase := Running(|s.won|))
            && s1.table == s.table[q.key := Row(|s.issued|, stamp, None)]
            && s1.issued == s.issued + [Issued(q.key, q.operation, q.phase.asked + TWO_DAYS)]
            && s1.won == s.won + [Claim(r, |s.issued|, stamp, None)])
      && (q.key in s.table ==>
            s1.requests[r] == q.(phase := Finding(q.phase.attempt)) && s1.table == s.table && s1.won == s.won)
      && forall p :: 0 <= p < |s.requests| && p != r ==> s1.requests[p] == s.requests[p]
  {
  }

  /**
   * A request sent to look, that finds the row gone, tries for the key once more and
   * claims it if it is still free; the second time it finds it gone it is told to wait.
   */
  lemma {:induction false} ARowGoneIsTriedForOnceMore(s: State, r: nat)
    requires r < |s.requests| && s.requests[r].phase.Finding? && s.requests[r].key !in s.table
    ensures var s1 := Next(s, Find(r));
      && |s1.requests| == |s.requests| && s1.table == s.table
      && (s.requests[r].phase.attempt == 1 ==> Next(s1, Insert(r, s.clock)).requests[r].phase == Running(|s.won|))
      && (s.requests[r].phase.attempt == 2 ==> s1.requests[r].phase == Answered(InFlight))
  {
  }

  // -- Giving it back ---------------------------------------------------------

  /** The release of a failed request takes its row, and only its row, out of the table. */
  lemma {:induction false} ReleaseGivesTheKeyBack(s: State, r: nat, claim: nat)
    requires Inv(s) && r < |s.requests| && s.requests[r].phase == Releasing(claim)
    requires claim < |s.won| && Stands(s, s.won[claim].row)
    ensures var s1 := Next(s, Release(r, false));
      && s.requests[r].key in s.table && s1.table == s.table - {s.requests[r].key}
      && |s1.requests| == |s.requests| && s1.requests[r].phase == Answered(Failed)
  {
    hide Chained, TableOk;
    assert PhaseOk(s, r);
  }

  /** And the next request of the key to insert runs. */
  lemma {:induction false} AfterAReleaseTheNextRuns(s: State, r: nat, claim: nat, q: nat, stamp: Time)
    requires Inv(s) && r < |s.requests| && s.requests[r].phase == Releasing(claim)
    requires claim < |s.won| && Stands(s, s.won[claim].row)
    requires q < |s.requests| && s.requests[q].key == s.requests[r].key
    requires s.requests[q].phase.Inserting? && s.requests[q].phase.asked <= stamp <= s.clock
    ensures var s2 := Next(Next(s, Release(r, false)), Insert(q, stamp));
      q < |s2.requests| && s2.requests[q].phase == Running(|s.won|)
  {
    ReleaseGivesTheKeyBack(s, r, claim);
    InsertExactly(Next(s, Release(r, false)), q, stamp);
  }

  /** A request that fails, and lets its row go, can be retried at once: the retry does the work. */
  lemma {:induction false} AFailureMayBeRetried(s: State, r: nat, claim: nat, operation: Operation)
    requires Inv(s) && r < |s.requests| && s.requests[r].phase == Running(claim)
    requires claim < |s.won| && Stands(s, s.won[claim].row)
    ensures var n := |s.requests|;
      var s4 := Run(s, [Finish(r, None), Release(r, false), Begin(s.requests[r].key, operation), Insert(n, s.clock)]);
      |s4.requests| == n + 1 && s4.requests[n].phase == Running(|s.won|)
  {
    hide Chained;
    var n, key := |s.requests|, s.requests[r].key;
    var steps := [Finish(r, None), Release(r, false), Begin(key, operation), Insert(n, s.clock)];
    var s1 := To(s, r, Releasing(claim));
    assert PhaseOk(s, r);
    assert Next(s, steps[0]) == s1;
    NextKeeps(s, steps[0]);
    ReleaseGivesTheKeyBack(s1, r, claim);
    var s2 := Next(s1, steps[1]);
    var s3 := Next(s2, steps[2]);
    InsertExactly(s3, n, s.clock);
    FourStepsOn(s, steps);
  }

  lemma {:induction false} FourStepsOn(s: State, steps: seq<Step>)
    requires |steps| == 4
    ensures Run(s, steps) == Next(Next(Next(Next(s, steps[0]), steps[1]), steps[2]), steps[3])
  {
    hide Next;
    var s1 := Next(s, steps[0]);
    var s2 := Next(s1, steps[1]);
    var s3 := Next(s2, steps[2]);
    assert steps[1..][0] == steps[1] && steps[1..][1..] == steps[2..] && steps[2..][1..] == steps[3..] && steps[3..][1..] == [];
    assert Run(s3, steps[3..]) == Run(Next(s3, steps[3]), []);
    assert Run(s2, steps[2..]) == Run(s3, steps[3..]);
    assert Run(s1, steps[1..]) == Run(s2, steps[2..]);
  }

  // -- Keeping the answer -----------------------------------------------------

  /** A success whose answer is stored leaves it on its row, which keeps its place and its stamp. */
  lemma {:induction false} ASuccessIsStored(s: State, r: nat, claim: nat, answer: Answer)
    requires Inv(s) && r < |s.requests| && s.requests[r].phase == Running(claim)
    requires claim < |s.won| && Stands(s, s.won[claim].row)
    ensures var key := s.requests[r].key;
      var s2 := Next(Next(s, Finish(r, Some(answer))), Store(r, false));
      && key in s.table && s2.table == s.table[key := s.table[key].(answer := Some(answer))]
      && r < |s2.requests| && s2.requests[r].phase == Answered(Succeeded(claim, answer))
  {
    hide Chained;
    assert PhaseOk(s, r);
  }

  // -- Taking over ------------------------------------------------------------

  /** A claim two minutes old or more, read and still untouched, is taken over by an identical request. */
  lemma {:induction false} AStaleClaimIsTakenOver(s: State, r: nat, later: State, stamp: Time)
    requires r < |s.requests| && s.requests[r].phase.Judging? && s.requests[r].phase.seen.id < |s.issued|
    requires var seen := s.requests[r].phase.seen;
      seen.answer.None? && s.issued[seen.id].operation == s.requests[r].operation && s.clock - seen.createdAt >= TWO_MINUTES
    requires |later.requests| >= |s.requests| && later.requests[r] == Next(s, Judge(r)).requests[r]
    requires Untouched(later, s.requests[r].phase.seen.id, s.requests[r].phase.seen.createdAt)
    requires s.clock <= stamp <= later.clock
    ensures var seen, s1 := s.requests[r].phase.seen, Next(later, Take(r, stamp));
      && |s1.requests| == |later.requests| && s1.requests[r].phase == Running(|later.won|)
      && s1.table == later.table[later.issued[seen.id].key := Row(seen.id, stamp, None)]
      && s1.issued == later.issued
  {
  }

  // -- The sweep --------------------------------------------------------------

  /** A sweep takes out the rows whose time was over when it began, and no others. */
  lemma {:induction false} SweepExactly(s: State, now: Time, key: Id)
    requires Inv(s) && now <= s.clock && key in s.table
    ensures s.table[key].id < |s.issued|
    ensures var s1 := Next(s, Sweep(now));
      && (key in s1.table <==> s.issued[s.table[key].id].expiresAt >= now)
      && (key in s1.table ==> s1.table[key] == s.table[key])
      && s1.requests == s.requests
  {
    hide Chained;
    assert Stands(s, s.table[key].id);
  }

  // -- A request with nobody in between ---------------------------------------

  /** What an identical request, a different one and a row mean to each other. */
  function Told(s: State, row: Row, operation: Operation): Outcome
    requires row.id < |s.issued|
  {
    if s.issued[row.id].operation != operation then Mismatch
    else if row.answer.Some? then Replayed(row.answer.value, row.id)
    else InFlight
  }

  function AllCalls(s: State, key: Id, operation: Operation): seq<Step> {
    var n := |s.requests|;
    [Begin(key, operation), Insert(n, s.clock), Find(n), Judge(n), Take(n, s.clock)]
  }

  /**
   * A request that makes its calls with nobody in between does the work exactly
   * when its key is free, or is held by an identical request that has had no answer
   * for two minutes or more; otherwise it changes nothing and is told: of another
   * request on the key, that they differ; of an identical one, its answer, or that
   * it is still under way.
   */
  lemma {:induction false} WhatARequestIsTold(s: State, key: Id, operation: Operation)
    requires Inv(s)
    ensures key in s.table ==> s.table[key].id < |s.issued|
    ensures var n, s1 := |s.requests|, Run(s, AllCalls(s, key, operation));
      && |s1.requests| == n + 1 && s1.clock == s.clock
      && (key !in s.table ==>
            s1.requests[n].phase == Running(|s.won|) && s1.table == s.table[key := Row(|s.issued|, s.clock, None)])
      && (key in s.table ==>
            var row := s.table[key];
            if s.issued[row.id].operation == operation && row.answer.None? && s.clock - row.createdAt >= TWO_MINUTES
            then s1.requests[n].phase == Running(|s.won|) && s1.table == s.table[key := Row(row.id, s.clock, None)]
            else s1.requests[n].phase == Answered(Told(s, row, operation)) && s1.table == s.table && s1.won == s.won)
  {
    hide Chained;
    var n := |s.requests|;
    var steps := AllCalls(s, key, operation);
    var s1 := Next(s, steps[0]);
    InsertExactly(s1, n, s.clock);
    var s2 := Next(s1, steps[1]);
    if key in s.table {
      assert Stands(s, s.table[key].id);
      KeyIsHeld(s2, n, s.table[key], steps);
    } else {
      NothingMoreToDo(s2, n, steps);
    }
    FiveStepsOn(s, steps);
  }

  lemma {:induction false} NothingMoreToDo(s: State, n: nat, steps: seq<Step>)
    requires n < |s.requests| && s.requests[n].phase.Running? && |steps| == 5
    requires steps[2] == Find(n) && steps[3] == Judge(n) && steps[4].Take? && steps[4].r == n
    ensures Next(Next(Next(s, steps[2]), steps[3]), steps[4]) == s
  {
  }

  lemma {:induction false} KeyIsHeld(s: State, n: nat, row: Row, steps: seq<Step>)
    requires n < |s.requests| && s.requests[n].phase == Finding(1) && s.requests[n].key in s.table && s.table[s.requests[n].key] == row
    requires |steps| == 5 && steps[2] == Find(n) && steps[3] == Judge(n) && steps[4] == Take(n, s.clock)
    requires row.id < |s.issued| && s.issued[row.id].key == s.requests[n].key
    ensures var q, s1 := s.requests[n], Next(Next(Next(s, steps[2]), steps[3]), steps[4]);
      && |s1.requests| == |s.requests| && s1.clock == s.clock
      && if s.issued[row.id].operation == q.operation && row.answer.None? && s.clock - row.createdAt >= TWO_MINUTES
         then s1.requests[n].phase == Running(|s.won|) && s1.table == s.table[q.key := Row(row.id, s.clock, None)]
         else s1.requests[n].phase == Answered(Told(s, row, q.operation)) && s1.table == s.table && s1.won == s.won
  {
    var s1 := Next(s, steps[2]);
    assert s1 == To(s, n, Judging(row));
    var s2 := Next(s1, steps[3]);
    if s.issued[row.id].operation == s.requests[n].operation && row.answer.None? && s.clock - row.createdAt >= TWO_MINUTES {
      assert s2 == To(s1, n, Taking(row.id, row.createdAt, s.clock));
      assert Untouched(s2, row.id, row.createdAt);
    }
  }

  lemma {:induction false} FiveStepsOn(s: State, steps: seq<Step>)
    requires |steps| == 5
    ensures Run(s, steps) == Next(Next(Next(Next(Next(s, steps[0]), steps[1]), steps[2]), steps[3]), steps[4])
  {
    hide Next;
    FourStepsOn(Next(s, steps[0]), steps[1..]);
  }
}
