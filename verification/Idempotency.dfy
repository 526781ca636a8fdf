/**
 * The idempotency claim as a protocol: every database call of every request is a
 * step of its own, and steps of different requests come in any order
 * (src/common/idempotency/idempotency.interceptor.ts:57-253).
 */
module Idempotency {
  import opened Common

  const RETENTION: Time := 48 * 3600000
  const STALE_CLAIM_MS: Time := 120000

  /** What makes two requests the same one: method and address, and the hash of the body. */
  datatype Operation = Operation(endpoint: Id, bodyHash: Id)

  datatype Answer = Answer(statusCode: int, body: Id)

  /** The columns of a key row that are written once. A row's id is its place in the order of insertion. */
  datatype Issued = Issued(key: Id, operation: Operation, expiresAt: Time)

  /** The rest of the row. No answer means the status code is still null. */
  datatype Row = Row(id: nat, createdAt: Time, answer: Option<Answer>)

  /** One time the work was claimed: the row, its new stamp, and the stamp it was taken over from, if it was. */
  datatype Claim = Claim(holder: nat, row: nat, at: Time, from: Option<Time>)

  datatype Outcome =
    | Mismatch
    | InFlight
    | Replayed(told: Answer, of: nat)
    | Succeeded(done: nat, gave: Answer)
    | Failed

  /** Where a request has got to, named after the call it makes next. */
  datatype Phase =
    | Inserting(attempt: nat, asked: Time)
    | Finding(attempt: nat)
    | Judging(seen: Row)
    | Taking(row: nat, stale: Time, decided: Time)
    | Running(claim: nat)
    | Storing(claim: nat, answer: Answer)
    | Releasing(claim: nat)
    | Answered(outcome: Outcome)

  /** `key` stands for the organization and the key together. */
  datatype Request = Request(key: Id, operation: Operation, phase: Phase)

  /** The table holds one row a key; `issued` and `won` remember what it no longer shows. */
  datatype State = State(clock: Time, issued: seq<Issued>, table: map<Id, Row>, requests: seq<Request>, won: seq<Claim>)

  const START := State(0, [], map[], [], [])

  // -- Steps ------------------------------------------------------------------

  datatype Step =
    | Tick(ms: nat)
    | Begin(key: Id, operation: Operation)
    | Insert(r: nat, stamp: Time)
    | Find(r: nat)
    | Judge(r: nat)
    | Take(r: nat, stamp: Time)
    | Finish(r: nat, result: Option<Answer>)
    | Store(r: nat, fails: bool)
    | Release(r: nat, fails: bool)
    | Sweep(now: Time)

  function To(s: State, r: nat, phase: Phase): State
    requires r < |s.requests|
  {
    s.(requests := s.requests[r := s.requests[r].(phase := phase)])
  }

  /** The row with this id is still in the table. */
  predicate Stands(s: State, row: nat) {
    row < |s.issued| && s.issued[row].key in s.table && s.table[s.issued[row].key].id == row
  }

  /** The row still carries this stamp and no answer. */
  predicate Untouched(s: State, row: nat, stamp: Time) {
    Stands(s, row) && s.table[s.issued[row].key] == Row(row, stamp, None)
  }

  /** The insert: the unique constraint lets it through, or sends the request to look. */
  function InsertRow(s: State, r: nat, stamp: Time): State
    requires r < |s.requests| && s.requests[r].phase.Inserting?
  {
    var q := s.requests[r];
    if q.key in s.table then To(s, r, Finding(q.phase.attempt))
    else
      var row := |s.issued|;
      To(s, r, Running(|s.won|)).(
        issued := s.issued + [Issued(q.key, q.operation, q.phase.asked + RETENTION)],
        table := s.table[q.key := Row(row, stamp, None)],
        won := s.won + [Claim(r, row, stamp, None)])
  }

  /** The read after a failed insert. A row gone in between is tried for once more. */
  function FindRow(s: State, r: nat): State
    requires r < |s.requests| && s.requests[r].phase.Finding?
  {
    var q := s.requests[r];
    if q.key in s.table then To(s, r, Judging(s.table[q.key]))
    else if q.phase.attempt >= 2 then To(s, r, Answered(InFlight))
    else To(s, r, Inserting(q.phase.attempt + 1, s.clock))
  }

  /** What the row read means for this request. */
  function JudgeRow(s: State, r: nat): State
    requires r < |s.requests| && s.requests[r].phase.Judging? && s.requests[r].phase.seen.id < |s.issued|
  {
    var q := s.requests[r];
    var seen := q.phase.seen;
    if s.issued[seen.id].operation != q.operation then To(s, r, Answered(Mismatch))
    else if seen.answer.Some? then To(s, r, Answered(Replayed(seen.answer.value, seen.id)))
    else if s.clock - seen.createdAt < STALE_CLAIM_MS then To(s, r, Answered(InFlight))
    else To(s, r, Taking(seen.id, seen.createdAt, s.clock))
  }

  /** The takeover: only a row still unanswered and still stamped as it was read. */
  function TakeRow(s: State, r: nat, stamp: Time): State
    requires r < |s.requests| && s.requests[r].phase.Taking?
  {
    var row, stale := s.requests[r].phase.row, s.requests[r].phase.stale;
    if Untouched(s, row, stale) then
      To(s, r, Running(|s.won|)).(
        table := s.table[s.issued[row].key := Row(row, stamp, None)],
        won := s.won + [Claim(r, row, stamp, Some(stale))])
    else
      To(s, r, Answered(InFlight))
  }

  function RowOf(s: State, claim: nat): nat {
    if claim < |s.won| then s.won[claim].row else |s.issued|
  }

  /** `complete`: by id. It fails quietly, or finds the row gone, and the request is answered all the same. */
  function StoreAnswer(s: State, r: nat, fails: bool): State
    requires r < |s.requests| && s.requests[r].phase.Storing?
  {
    var claim, answer := s.requests[r].phase.claim, s.requests[r].phase.answer;
    var row := RowOf(s, claim);
    var after := To(s, r, Answered(Succeeded(claim, answer)));
    if fails || !Stands(s, row) then after
    else after.(table := s.table[s.issued[row].key := s.table[s.issued[row].key].(answer := Some(answer))])
  }

  /** `release`: by id, and quietly when it cannot. */
  function ReleaseRow(s: State, r: nat, fails: bool): State
    requires r < |s.requests| && s.requests[r].phase.Releasing?
  {
    var row := RowOf(s, s.requests[r].phase.claim);
    var after := To(s, r, Answered(Failed));
    if fails || !Stands(s, row) then after else after.(table := s.table - {s.issued[row].key})
  }

  function Expiry(s: State, row: nat): Time {
    if row < |s.issued| then s.issued[row].expiresAt else s.clock
  }

  /** The hourly sweep of rows past their time, judged when the sweep began. */
  function Swept(s: State, now: Time): State {
    s.(table := map k | k in s.table && Expiry(s, s.table[k].id) >= now :: s.table[k])
  }

  /** A step that is not the request's next call changes nothing. */
  function Next(s: State, step: Step): State {
    match step
    case Tick(ms) => s.(clock := s.clock + ms)
    case Begin(key, operation) => s.(requests := s.requests + [Request(key, operation, Inserting(1, s.clock))])
    case Insert(r, stamp) =>
      if r < |s.requests| && s.requests[r].phase.Inserting? && s.requests[r].phase.asked <= stamp <= s.clock
      then InsertRow(s, r, stamp) else s
    case Find(r) => if r < |s.requests| && s.requests[r].phase.Finding? then FindRow(s, r) else s
    case Judge(r) =>
      if r < |s.requests| && s.requests[r].phase.Judging? && s.requests[r].phase.seen.id < |s.issued|
      then JudgeRow(s, r) else s
    case Take(r, stamp) =>
      if r < |s.requests| && s.requests[r].phase.Taking? && s.requests[r].phase.decided <= stamp <= s.clock
      then TakeRow(s, r, stamp) else s
    case Finish(r, result) =>
      if r < |s.requests| && s.requests[r].phase.Running? then
        var claim := s.requests[r].phase.claim;
        To(s, r, if result.Some? then Storing(claim, result.value) else Releasing(claim))
      else s
    case Store(r, fails) => if r < |s.requests| && s.requests[r].phase.Storing? then StoreAnswer(s, r, fails) else s
    case Release(r, fails) => if r < |s.requests| && s.requests[r].phase.Releasing? then ReleaseRow(s, r, fails) else s
    case Sweep(now) => if now <= s.clock then Swept(s, now) else s
  }

  function Run(s: State, steps: seq<Step>): State
    decreases steps
  {
    if steps == [] then s else Run(Next(s, steps[0]), steps[1..])
  }

  // -- Claims -----------------------------------------------------------------

  /** The claim a request holds or finished on. */
  function ClaimOf(p: Phase): Option<nat> {
    match p
    case Running(claim) => Some(claim)
    case Storing(claim, _) => Some(claim)
    case Releasing(claim) => Some(claim)
    case Answered(Succeeded(done, _)) => Some(done)
    case _ => None
  }

  /** The handler, or the storing or release after it, is not over. */
  predicate Holding(p: Phase) {
    p.Running? || p.Storing? || p.Releasing?
  }

  /** Claims on one row come one after another, each taken over from no earlier a stamp than the last one's. */
  ghost predicate Chained(won: seq<Claim>) {
    && (forall j :: 0 <= j < |won| && won[j].from.Some? ==> won[j].from.value < won[j].at)
    && (forall j, k :: 0 <= j < k < |won| && won[j].row == won[k].row ==>
          won[k].from.Some? && won[j].at <= won[k].from.value)
  }

  ghost predicate TableOk(s: State) {
    && (forall k :: k in s.table ==> Stands(s, s.table[k].id) && s.issued[s.table[k].id].key == k)
    && (forall c :: 0 <= c < |s.won| ==>
          && s.won[c].row < |s.issued| && s.won[c].holder < |s.requests|
          && (Stands(s, s.won[c].row) ==> s.won[c].at <= s.table[s.issued[s.won[c].row].key].createdAt))
  }

  ghost predicate PhaseOk(s: State, r: nat)
    requires r < |s.requests|
  {
    var q := s.requests[r];
    && (q.phase.Judging? ==> q.phase.seen.id < |s.issued| && s.issued[q.phase.seen.id].key == q.key)
    && (q.phase.Taking? ==>
          && q.phase.row < |s.issued| && s.issued[q.phase.row].key == q.key && s.issued[q.phase.row].operation == q.operation
          && q.phase.stale + STALE_CLAIM_MS <= q.phase.decided)
    && (ClaimOf(q.phase).Some? ==>
          var c := ClaimOf(q.phase).value;
          && c < |s.won| && s.won[c].holder == r && s.won[c].row < |s.issued|
          && s.issued[s.won[c].row].key == q.key && s.issued[s.won[c].row].operation == q.operation)
    && (q.phase.Answered? && q.phase.outcome.Replayed? ==>
          && q.phase.outcome.of < |s.issued|
          && s.issued[q.phase.outcome.of].key == q.key && s.issued[q.phase.outcome.of].operation == q.operation)
  }

  ghost predicate Inv(s: State) {
    && Chained(s.won) && TableOk(s)
    && forall r :: 0 <= r < |s.requests| ==> PhaseOk(s, r)
  }

  lemma {:induction false} SameClaim(s: State, c: nat, d: nat)
    requires Chained(s.won) && c < |s.won| && d < |s.won|
    requires s.won[c].row == s.won[d].row
    requires s.won[c].at == s.won[d].at || (s.won[c].from.Some? && s.won[c].from == s.won[d].from)
    ensures c == d
  {
  }

  lemma {:induction false} InsertKeeps(s: State, r: nat, stamp: Time)
    requires Inv(s) && r < |s.requests| && s.requests[r].phase.Inserting?
    ensures Inv(InsertRow(s, r, stamp))
  {
    var s1 := InsertRow(s, r, stamp);
    forall q | 0 <= q < |s1.requests|
      ensures PhaseOk(s1, q)
    {
      assert PhaseOk(s, q);
    }
  }

  lemma {:induction false} TakeKeeps(s: State, r: nat, stamp: Time)
    requires Inv(s) && r < |s.requests| && s.requests[r].phase.Taking? && s.requests[r].phase.decided <= stamp
    ensures Inv(TakeRow(s, r, stamp))
  {
    hide Chained, TableOk, PhaseOk;
    TakeChained(s, r, stamp);
    forall q | 0 <= q < |TakeRow(s, r, stamp).requests|
      ensures PhaseOk(TakeRow(s, r, stamp), q)
    {
      TakePhase(s, r, stamp, q);
    }
  }

  lemma {:induction false} TakeChained(s: State, r: nat, stamp: Time)
    requires Inv(s) && r < |s.requests| && s.requests[r].phase.Taking? && s.requests[r].phase.decided <= stamp
    ensures Chained(TakeRow(s, r, stamp).won) && TableOk(TakeRow(s, r, stamp))
  {
    assert PhaseOk(s, r);
  }

  lemma {:induction false} TakePhase(s: State, r: nat, stamp: Time, q: nat)
    requires Inv(s) && r < |s.requests| && s.requests[r].phase.Taking? && q < |s.requests|
    ensures |TakeRow(s, r, stamp).requests| == |s.requests| && PhaseOk(TakeRow(s, r, stamp), q)
  {
    hide Chained, TableOk;
    assert PhaseOk(s, r) && PhaseOk(s, q);
  }

  /** A request moving on its own. */
  lemma {:induction false} ToKeeps(s: State, r: nat, phase: Phase)
    requires Inv(s) && r < |s.requests| && PhaseOk(To(s, r, phase), r)
    ensures Inv(To(s, r, phase))
  {
    hide Chained;
    var s1 := To(s, r, phase);
    forall q | 0 <= q < |s1.requests|
      ensures PhaseOk(s1, q)
    {
      assert PhaseOk(s, q);
    }
  }

  /** Rows answered or gone. */
  lemma {:induction false} TableKeeps(s: State, table: map<Id, Row>)
    requires Inv(s)
    requires forall k :: k in table ==> k in s.table && table[k] == s.table[k].(answer := table[k].answer)
    ensures Inv(s.(table := table))
  {
    hide Chained;
    var s1 := s.(table := table);
    forall q | 0 <= q < |s1.requests|
      ensures PhaseOk(s1, q)
    {
      assert PhaseOk(s, q);
    }
  }

  lemma {:induction false} BeginKeeps(s: State, key: Id, operation: Operation)
    requires Inv(s)
    ensures Inv(Next(s, Begin(key, operation)))
  {
    hide Chained;
    var s1 := Next(s, Begin(key, operation));
    forall q | 0 <= q < |s1.requests|
      ensures PhaseOk(s1, q)
    {
      if q < |s.requests| {
        assert PhaseOk(s, q);
      }
    }
  }

  lemma {:induction false} TickKeeps(s: State, ms: nat)
    requires Inv(s)
    ensures Inv(s.(clock := s.clock + ms))
  {
    hide Chained;
    var s1 := s.(clock := s.clock + ms);
    forall q | 0 <= q < |s1.requests|
      ensures PhaseOk(s1, q)
    {
      assert PhaseOk(s, q);
    }
  }

  lemma {:induction false} NextKeeps(s: State, step: Step)
    requires Inv(s)
    ensures Inv(Next(s, step))
  {
    hide Inv, PhaseOk, TableOk, Chained, InsertRow, TakeRow;
    var s1 := Next(s, step);
    if s1 != s {
      match step
      case Tick(ms) => TickKeeps(s, ms);
      case Begin(key, operation) => BeginKeeps(s, key, operation);
      case Insert(r, stamp) => InsertKeeps(s, r, stamp);
      case Take(r, stamp) => TakeKeeps(s, r, stamp);
      case Find(r) => FindKeeps(s, r);
      case Judge(r) => JudgeKeeps(s, r);
      case Finish(r, result) => FinishKeeps(s, r, s1.requests[r].phase);
      case Store(r, fails) => EndKeeps(s, r, s1, s1.requests[r].phase);
      case Release(r, fails) => EndKeeps(s, r, s1, s1.requests[r].phase);
      case Sweep(_) => TableKeeps(s, s1.table);
    }
  }

  lemma {:induction false} FindKeeps(s: State, r: nat)
    requires Inv(s) && r < |s.requests| && s.requests[r].phase.Finding?
    ensures Inv(FindRow(s, r))
  {
    hide Chained;
    ToKeeps(s, r, FindRow(s, r).requests[r].phase);
  }

  lemma {:induction false} JudgeKeeps(s: State, r: nat)
    requires Inv(s) && r < |s.requests| && s.requests[r].phase.Judging? && s.requests[r].phase.seen.id < |s.issued|
    ensures Inv(JudgeRow(s, r))
  {
    hide Chained;
    assert PhaseOk(s, r);
    ToKeeps(s, r, JudgeRow(s, r).requests[r].phase);
  }

  lemma {:induction false} FinishKeeps(s: State, r: nat, phase: Phase)
    requires Inv(s) && r < |s.requests| && ClaimOf(phase) == ClaimOf(s.requests[r].phase) && ClaimOf(phase).Some?
    ensures Inv(To(s, r, phase))
  {
    hide Chained;
    assert PhaseOk(s, r);
    ToKeeps(s, r, phase);
  }

  lemma {:induction false} EndKeeps(s: State, r: nat, s1: State, phase: Phase)
    requires Inv(s) && r < |s.requests| && s1 == To(s, r, phase).(table := s1.table)
    requires phase == Answered(Failed) || (ClaimOf(phase).Some? && ClaimOf(phase) == ClaimOf(s.requests[r].phase) && phase.Answered?)
    requires forall k :: k in s1.table ==> k in s.table && s1.table[k] == s.table[k].(answer := s1.table[k].answer)
    ensures Inv(s1)
  {
    hide Chained;
    assert PhaseOk(s, r);
    ToKeeps(s, r, phase);
    TableKeeps(To(s, r, phase), s1.table);
  }

  lemma {:induction false} StartIsOk()
    ensures Inv(START)
  {
  }

  lemma {:induction false} RunKeeps(s: State, steps: seq<Step>)
    requires Inv(s)
    ensures Inv(Run(s, steps))
    decreases steps
  {
    hide Inv, Next;
    if steps != [] {
      NextKeeps(s, steps[0]);
      RunKeeps(Next(s, steps[0]), steps[1..]);
    }
  }

  // -- Racing for a stale claim -----------------------------------------------

  lemma {:induction false} ClaimsStay(s: State, steps: seq<Step>)
    ensures s.won <= Run(s, steps).won
    decreases steps
  {
    if steps != [] {
      ClaimsStay(Next(s, steps[0]), steps[1..]);
    }
  }

  /**
   * However long anything takes: of the requests racing to take over one stale
   * claim, the first to reach the untouched row wins it, and in no continuation
   * does another ever win it from the same stamp.
   */
  lemma {:induction false} RaceHasOneWinner(s: State, r: nat, stamp: Time, steps: seq<Step>, c: nat)
    requires Inv(s) && r < |s.requests| && s.requests[r].phase.Taking?
    requires s.requests[r].phase.decided <= stamp <= s.clock
    requires Untouched(s, s.requests[r].phase.row, s.requests[r].phase.stale)
    ensures var s1 := Next(s, Take(r, stamp));
      s1.requests[r].phase == Running(|s.won|) && s1.won[|s.won|].row == s.requests[r].phase.row
    ensures var after := Run(Next(s, Take(r, stamp)), steps);
      c < |after.won| && after.won[c].row == s.requests[r].phase.row && after.won[c].from == Some(s.requests[r].phase.stale) ==>
        c == |s.won| && after.won[c].holder == r
  {
    hide Run, Chained;
    assert PhaseOk(s, r);
    var s1 := Next(s, Take(r, stamp));
    assert s1.won == s.won + [Claim(r, s.requests[r].phase.row, stamp, Some(s.requests[r].phase.stale))];
    NextKeeps(s, Take(r, stamp));
    RunKeeps(s1, steps);
    ClaimsStay(s1, steps);
    var after := Run(s1, steps);
    assert after.won[|s.won|] == s1.won[|s.won|];
    if c < |after.won| && after.won[c].row == s.requests[r].phase.row && after.won[c].from == Some(s.requests[r].phase.stale) {
      SameClaim(after, c, |s.won|);
    }
  }

  // -- One at a time ----------------------------------------------------------

  /** Nobody has been at work as long as it takes to be thought dead. */
  predicate Timely(s: State) {
    forall r :: 0 <= r < |s.requests| && Holding(s.requests[r].phase) ==>
      var claim := ClaimOf(s.requests[r].phase).value;
      claim < |s.won| ==> s.clock < s.won[claim].at + STALE_CLAIM_MS
  }

  /** No answer fails to be stored. */
  predicate Lossless(step: Step) {
    step.Store? ==> !step.fails
  }

  /** At every point nobody is late, and no answer is lost. */
  predicate GoodRun(s: State, steps: seq<Step>)
    decreases steps
  {
    Timely(s) && (steps == [] || (Lossless(steps[0]) && GoodRun(Next(s, steps[0]), steps[1..])))
  }

  /** The request is at work on its claim, or succeeded by it, and the row has not run out. */
  predicate Owns(s: State, r: nat)
    requires r < |s.requests|
  {
    var claim := ClaimOf(s.requests[r].phase);
    claim.Some? && claim.value < |s.won| && s.clock <= Expiry(s, s.won[claim.value].row)
  }

  /** The table shows an owner's row as it left it. */
  ghost predicate OwnerOk(s: State, r: nat)
    requires r < |s.requests|
  {
    Owns(s, r) ==>
      var p, key := s.requests[r].phase, s.requests[r].key;
      var c := s.won[ClaimOf(p).value];
      && key in s.table
      && s.table[key] == Row(c.row, c.at, if p.Answered? then Some(p.outcome.gave) else None)
  }

  ghost predicate Owned(s: State) {
    forall r :: 0 <= r < |s.requests| ==> OwnerOk(s, r)
  }

  /** Two owners of one key are one request. */
  lemma {:induction false} OneOwner(s: State, q: nat, r: nat)
    requires Inv(s) && Owned(s) && q < |s.requests| && r < |s.requests|
    requires s.requests[q].key == s.requests[r].key && Owns(s, q) && Owns(s, r)
    ensures q == r
  {
    hide Chained, TableOk;
    assert PhaseOk(s, q) && PhaseOk(s, r) && OwnerOk(s, q) && OwnerOk(s, r);
    SameClaim(s, ClaimOf(s.requests[q].phase).value, ClaimOf(s.requests[r].phase).value);
  }

  /** A row an owner holds unanswered cannot yet have been judged stale. */
  lemma {:induction false} NotStale(s: State, r: nat, q: nat)
    requires Inv(s) && Owned(s) && Timely(s) && q < |s.requests| && r < |s.requests|
    requires Owns(s, q) && s.requests[r].phase.Taking? && s.requests[r].key == s.requests[q].key
    requires s.requests[r].phase.decided <= s.clock
    ensures !Untouched(s, s.requests[r].phase.row, s.requests[r].phase.stale)
  {
    assert PhaseOk(s, q) && PhaseOk(s, r) && OwnerOk(s, q);
  }

  lemma {:induction false} InsertOwned(s: State, r: nat, stamp: Time)
    requires Inv(s) && Owned(s) && r < |s.requests| && s.requests[r].phase.Inserting?
    ensures Owned(InsertRow(s, r, stamp))
  {
    hide Chained;
    var s1 := InsertRow(s, r, stamp);
    forall q | 0 <= q < |s1.requests|
      ensures OwnerOk(s1, q)
    {
      assert OwnerOk(s, q) && PhaseOk(s, q);
    }
  }

  lemma {:induction false} TakeOwned(s: State, r: nat, stamp: Time)
    requires Inv(s) && Owned(s) && Timely(s) && r < |s.requests| && s.requests[r].phase.Taking?
    requires s.requests[r].phase.decided <= stamp <= s.clock
    ensures Owned(TakeRow(s, r, stamp))
  {
    hide Chained, Timely;
    var s1 := TakeRow(s, r, stamp);
    assert PhaseOk(s, r);
    forall q | 0 <= q < |s1.requests|
      ensures OwnerOk(s1, q)
    {
      assert OwnerOk(s, q) && PhaseOk(s, q);
      if q != r && Owns(s, q) && s.requests[q].key == s.requests[r].key {
        NotStale(s, r, q);
      }
    }
  }

  /** Ending one's own claim, by row id, touches no other owner's row. */
  lemma {:induction false} EndOwned(s: State, r: nat, s1: State)
    requires Inv(s) && Owned(s) && r < |s.requests| && Holding(s.requests[r].phase)
    requires r < |s1.requests| && s1 == To(s, r, s1.requests[r].phase).(table := s1.table)
    requires forall k :: k in s.table && s.table[k].id != RowOf(s, ClaimOf(s.requests[r].phase).value) ==>
      k in s1.table && s1.table[k] == s.table[k]
    requires OwnerOk(s1, r)
    ensures Owned(s1)
  {
    hide Chained, TableOk;
    assert PhaseOk(s, r);
    forall q | 0 <= q < |s1.requests|
      ensures OwnerOk(s1, q)
    {
      assert OwnerOk(s, q) && PhaseOk(s, q);
      if q != r && Owns(s, q) && s.won[ClaimOf(s.requests[q].phase).value].row == s.won[ClaimOf(s.requests[r].phase).value].row {
        OneOwner(s, q, r);
      }
    }
  }

  lemma {:induction false} StoreOwned(s: State, r: nat)
    requires Inv(s) && Owned(s) && r < |s.requests| && s.requests[r].phase.Storing?
    ensures Owned(StoreAnswer(s, r, false))
  {
    hide Chained;
    assert PhaseOk(s, r) && OwnerOk(s, r);
    EndOwned(s, r, StoreAnswer(s, r, false));
  }

  lemma {:induction false} ReleaseOwned(s: State, r: nat, fails: bool)
    requires Inv(s) && Owned(s) && r < |s.requests| && s.requests[r].phase.Releasing?
    ensures Owned(ReleaseRow(s, r, fails))
  {
    hide Chained;
    assert PhaseOk(s, r) && OwnerOk(s, r);
    EndOwned(s, r, ReleaseRow(s, r, fails));
  }

  /** A request moving on without claiming or ending anything. */
  lemma {:induction false} ToOwned(s: State, r: nat, phase: Phase)
    requires Owned(s) && r < |s.requests|
    requires ClaimOf(phase) == ClaimOf(s.requests[r].phase) && (ClaimOf(phase).Some? ==> !phase.Answered? && !s.requests[r].phase.Answered?)
    ensures Owned(To(s, r, phase))
  {
    var s1 := To(s, r, phase);
    forall q | 0 <= q < |s1.requests|
      ensures OwnerOk(s1, q)
    {
      assert OwnerOk(s, q);
    }
  }

  lemma {:induction false} BeginOwned(s: State, key: Id, operation: Operation)
    requires Owned(s)
    ensures Owned(Next(s, Begin(key, operation)))
  {
    var s1 := Next(s, Begin(key, operation));
    forall q | 0 <= q < |s1.requests|
      ensures OwnerOk(s1, q)
    {
      if q < |s.requests| {
        assert OwnerOk(s, q);
      }
    }
  }

  /** Time passing, and a sweep of what has run out. */
  lemma {:induction false} LaterOwned(s: State, s1: State)
    requires Inv(s) && Owned(s) && s1 == s.(clock := s1.clock, table := s1.table) && s.clock <= s1.clock
    requires forall k :: k in s.table && Expiry(s, s.table[k].id) >= s1.clock ==> k in s1.table && s1.table[k] == s.table[k]
    ensures Owned(s1)
  {
    hide Chained;
    forall q | 0 <= q < |s1.requests|
      ensures OwnerOk(s1, q)
    {
      assert OwnerOk(s, q);
    }
  }

  lemma {:induction false} NextOwned(s: State, step: Step)
    requires Inv(s) && Owned(s) && Timely(s) && Lossless(step)
    ensures Owned(Next(s, step))
  {
    hide Inv, Owned, Timely, InsertRow, TakeRow;
    var s1 := Next(s, step);
    if s1 != s {
      match step
      case Tick(_) => LaterOwned(s, s1);
      case Begin(key, operation) => BeginOwned(s, key, operation);
      case Insert(r, stamp) => InsertOwned(s, r, stamp);
      case Take(r, stamp) => TakeOwned(s, r, stamp);
      case Find(r) => ToOwned(s, r, s1.requests[r].phase);
      case Judge(r) => ToOwned(s, r, s1.requests[r].phase);
      case Finish(r, _) => ToOwned(s, r, s1.requests[r].phase);
      case Store(r, _) => StoreOwned(s, r);
      case Release(r, fails) => ReleaseOwned(s, r, fails);
      case Sweep(now) => LaterOwned(s, s1);
    }
  }

  lemma {:induction false} GoodRunOwned(s: State, steps: seq<Step>)
    requires Inv(s) && Owned(s) && GoodRun(s, steps)
    ensures Inv(Run(s, steps)) && Owned(Run(s, steps))
    decreases steps
  {
    hide Inv, Owned, Next, Timely, Lossless;
    if steps != [] {
      NextKeeps(s, steps[0]);
      NextOwned(s, steps[0]);
      GoodRunOwned(Next(s, steps[0]), steps[1..]);
    }
  }

  /**
   * While no handler outlives the stale limit and no answer is lost: for one key
   * at most one request is at work or has succeeded, until its row runs out. So
   * the work is done at most once, and never while somebody has done it.
   */
  lemma {:induction false} AtMostOnce(steps: seq<Step>, q: nat, r: nat)
    requires GoodRun(START, steps)
    requires q < |Run(START, steps).requests| && r < |Run(START, steps).requests|
    requires Run(START, steps).requests[q].key == Run(START, steps).requests[r].key
    requires Owns(Run(START, steps), q) && Owns(Run(START, steps), r)
    ensures q == r
  {
    hide Run, GoodRun, Inv, Owned, Owns;
    StartIsOk();
    NobodyOwns();
    GoodRunOwned(START, steps);
    OneOwner(Run(START, steps), q, r);
  }

  lemma {:induction false} NobodyOwns()
    ensures Owned(START)
  {
  }

  // -- Replays ----------------------------------------------------------------

  /** Some request succeeded on this row with this answer. */
  ghost predicate Gave(s: State, row: nat, answer: Answer) {
    exists w :: 0 <= w < |s.requests| && GaveIt(s, w, row, answer)
  }

  predicate GaveIt(s: State, w: nat, row: nat, answer: Answer)
    requires w < |s.requests|
  {
    var p := s.requests[w].phase;
    p.Answered? && p.outcome.Succeeded? && p.outcome.gave == answer && RowOf(s, p.outcome.done) == row && p.outcome.done < |s.won|
  }

  /** Every answer anybody can see was given. */
  ghost predicate Told(s: State) {
    && (forall k :: k in s.table && s.table[k].answer.Some? ==> Gave(s, s.table[k].id, s.table[k].answer.value))
    && (forall r :: 0 <= r < |s.requests| ==> ToldOk(s, s.requests[r].phase))
  }

  ghost predicate ToldOk(s: State, p: Phase) {
    && (p.Judging? && p.seen.answer.Some? ==> Gave(s, p.seen.id, p.seen.answer.value))
    && (p.Answered? && p.outcome.Replayed? ==> Gave(s, p.outcome.of, p.outcome.told))
  }

  /** Successes are never taken back. */
  predicate Later(s: State, s1: State) {
    && |s.requests| <= |s1.requests| && s.won <= s1.won
    && (forall w :: 0 <= w < |s.requests| && s.requests[w].phase.Answered? ==> s1.requests[w] == s.requests[w])
  }

  lemma {:induction false} GaveLater(s: State, s1: State, row: nat, answer: Answer)
    requires Later(s, s1) && Gave(s, row, answer)
    ensures Gave(s1, row, answer)
  {
    var w :| 0 <= w < |s.requests| && GaveIt(s, w, row, answer);
    assert GaveIt(s1, w, row, answer);
  }

  lemma {:induction false} ToldLater(s: State, s1: State, p: Phase)
    requires Later(s, s1) && ToldOk(s, p)
    ensures ToldOk(s1, p)
  {
    hide Later, Gave;
    if p.Judging? && p.seen.answer.Some? {
      GaveLater(s, s1, p.seen.id, p.seen.answer.value);
    }
    if p.Answered? && p.outcome.Replayed? {
      GaveLater(s, s1, p.outcome.of, p.outcome.told);
    }
  }

  lemma {:induction false} NextLater(s: State, step: Step)
    ensures Later(s, Next(s, step))
  {
  }

  /** A step shows nobody an answer nobody gave. */
  lemma {:induction false} NextTold(s: State, step: Step)
    requires Inv(s) && Told(s)
    ensures Told(Next(s, step))
  {
    hide Later, Gave, Chained, TableOk;
    var s1 := Next(s, step);
    NextLater(s, step);
    forall k | k in s1.table && s1.table[k].answer.Some?
      ensures Gave(s1, s1.table[k].id, s1.table[k].answer.value)
    {
      if k in s.table && s1.table[k] == s.table[k] {
        GaveLater(s, s1, s.table[k].id, s.table[k].answer.value);
      } else {
        StoredIsGiven(s, step, k);
      }
    }
    forall r | 0 <= r < |s1.requests|
      ensures ToldOk(s1, s1.requests[r].phase)
    {
      if r < |s.requests| {
        ToldLater(s, s1, s.requests[r].phase);
        if s1.requests[r].phase != s.requests[r].phase {
          FoundIsTold(s, step, r);
        }
      }
    }
  }

  lemma {:induction false} StoredIsGiven(s: State, step: Step, k: Id)
    requires Inv(s) && k in Next(s, step).table && Next(s, step).table[k].answer.Some?
    requires k !in s.table || Next(s, step).table[k] != s.table[k]
    ensures Gave(Next(s, step), Next(s, step).table[k].id, Next(s, step).table[k].answer.value)
  {
    hide Chained;
    var s1 := Next(s, step);
    assert step.Store?;
    assert PhaseOk(s, step.r);
    assert GaveIt(s1, step.r, s1.table[k].id, s1.table[k].answer.value);
  }

  lemma {:induction false} FoundIsTold(s: State, step: Step, r: nat)
    requires Told(s) && r < |s.requests| && Next(s, step).requests[r].phase != s.requests[r].phase
    ensures ToldOk(Next(s, step), Next(s, step).requests[r].phase)
  {
    hide Later, Gave;
    var s1 := Next(s, step);
    NextLater(s, step);
    var p := s1.requests[r].phase;
    if p.Judging? && p.seen.answer.Some? {
      GaveLater(s, s1, p.seen.id, p.seen.answer.value);
    }
    if p.Answered? && p.outcome.Replayed? {
      assert ToldOk(s, s.requests[r].phase);
      GaveLater(s, s1, p.outcome.of, p.outcome.told);
    }
  }

  lemma {:induction false} RunTold(s: State, steps: seq<Step>)
    requires Inv(s) && Told(s)
    ensures Told(Run(s, steps))
    decreases steps
  {
    hide Inv, Told, Next;
    if steps != [] {
      NextKeeps(s, steps[0]);
      NextTold(s, steps[0]);
      RunTold(Next(s, steps[0]), steps[1..]);
    }
  }

  /**
   * Whatever the timing: a replay is word for word the answer an identical
   * request was given, on the same key.
   */
  lemma {:induction false} ReplayIsAGivenAnswer(steps: seq<Step>, r: nat)
    ensures var s := Run(START, steps);
      r < |s.requests| && s.requests[r].phase.Answered? && s.requests[r].phase.outcome.Replayed? ==>
        exists w :: 0 <= w < |s.requests| && s.requests[w] == Request(s.requests[r].key, s.requests[r].operation, s.requests[w].phase)
          && s.requests[w].phase.Answered? && s.requests[w].phase.outcome.Succeeded?
          && s.requests[w].phase.outcome.gave == s.requests[r].phase.outcome.told
  {
    hide Run, Chained, TableOk;
    StartIsOk();
    RunKeeps(START, steps);
    RunTold(START, steps);
    var s := Run(START, steps);
    if r < |s.requests| && s.requests[r].phase.Answered? && s.requests[r].phase.outcome.Replayed? {
      var o := s.requests[r].phase.outcome;
      assert PhaseOk(s, r) && ToldOk(s, s.requests[r].phase);
      var w :| 0 <= w < |s.requests| && GaveIt(s, w, o.of, o.told);
      assert PhaseOk(s, w);
    }
  }

  // -- After a success --------------------------------------------------------

  predicate Success(s: State, w: nat) {
    && w < |s.requests| && s.requests[w].phase.Answered? && s.requests[w].phase.outcome.Succeeded?
    && s.requests[w].phase.outcome.done < |s.won|
  }

  /** The row a success left behind. */
  function Left(s: State, w: nat): Row
    requires Success(s, w)
  {
    var o := s.requests[w].phase.outcome;
    Row(s.won[o.done].row, s.won[o.done].at, Some(o.gave))
  }

  /** Where a request on the same key can have got to, when it began after the success. */
  predicate Follows(s: State, w: nat, r: nat)
    requires Success(s, w) && r < |s.requests|
  {
    var p := s.requests[r].phase;
    s.requests[r].key == s.requests[w].key ==>
      || p.Inserting? || p.Finding?
      || p == Judging(Left(s, w))
      || p == Answered(if s.requests[r].operation == s.requests[w].operation
                       then Replayed(s.requests[w].phase.outcome.gave, Left(s, w).id) else Mismatch)
  }

  lemma {:induction false} NextFollows(s: State, step: Step, w: nat, r: nat)
    requires Inv(s) && OwnerOk'(s, w) && Success(s, w) && r < |Next(s, step).requests|
    requires r < |s.requests| ==> Follows(s, w, r)
    requires r >= |s.requests| ==> step.Begin?
    ensures Success(Next(s, step), w) && Left(Next(s, step), w) == Left(s, w)
    ensures Follows(Next(s, step), w, r)
  {
    hide Chained, TableOk;
    var s1 := Next(s, step);
    NextLater(s, step);
    assert s1.won[..|s.won|] == s.won;
    assert PhaseOk(s, w);
    if r < |s.requests| && s1.requests[r] != s.requests[r] {
      assert s1.requests[r] == s.requests[r].(phase := s1.requests[r].phase);
    }
  }

  /** The success's row is in the table. */
  predicate OwnerOk'(s: State, w: nat) {
    Success(s, w) && s.requests[w].key in s.table && s.table[s.requests[w].key] == Left(s, w)
  }

  lemma {:induction false} ClockOnlyAdvances(s: State, steps: seq<Step>)
    ensures s.clock <= Run(s, steps).clock
    decreases steps
  {
    if steps != [] {
      ClockOnlyAdvances(Next(s, steps[0]), steps[1..]);
    }
  }

  lemma {:induction false} SuccessIsThere(s: State, w: nat)
    requires Owned(s) && Success(s, w) && s.clock <= Expiry(s, Left(s, w).id)
    ensures OwnerOk'(s, w)
  {
    assert OwnerOk(s, w);
  }

  lemma {:induction false} SuccessStays(s: State, step: Step, w: nat)
    requires Success(s, w)
    ensures Success(Next(s, step), w) && Left(Next(s, step), w) == Left(s, w)
  {
    NextLater(s, step);
    assert Next(s, step).won[..|s.won|] == s.won;
  }

  lemma {:induction false} BirthsBegin(s: State, step: Step)
    ensures |Next(s, step).requests| > |s.requests| ==> step.Begin?
    ensures |Next(s, step).requests| >= |s.requests|
  {
  }

  lemma {:induction false} ExpiryStands(s: State, step: Step, row: nat)
    requires row < |s.issued|
    ensures row < |Next(s, step).issued| && Expiry(Next(s, step), row) == Expiry(s, row)
  {
  }

  /**
   * Once a request has succeeded, and until its row runs out, every request on
   * the key begun since that has its answer has exactly the stored one, or was
   * told it is a different request: none is kept waiting and none does the work.
   */
  lemma {:induction false} LaterRequestsAreReplayed(s: State, steps: seq<Step>, w: nat, n: nat, r: nat)
    requires Inv(s) && Owned(s) && Success(s, w) && GoodRun(s, steps)
    requires Left(s, w).id < |s.issued| && Run(s, steps).clock <= Expiry(s, Left(s, w).id)
    requires forall q :: n <= q < |s.requests| ==> Follows(s, w, q)
    requires n <= r < |Run(s, steps).requests|
    ensures Success(Run(s, steps), w) && Left(Run(s, steps), w) == Left(s, w)
    ensures Follows(Run(s, steps), w, r)
    decreases steps
  {
    hide Inv, Owned, Next, Timely, Lossless, Follows, Left;
    ClockOnlyAdvances(s, steps);
    SuccessIsThere(s, w);
    if steps != [] {
      var s1 := Next(s, steps[0]);
      NextKeeps(s, steps[0]);
      NextOwned(s, steps[0]);
      BirthsBegin(s, steps[0]);
      ExpiryStands(s, steps[0], Left(s, w).id);
      SuccessStays(s, steps[0], w);
      forall q | n <= q < |s1.requests|
        ensures Follows(s1, w, q)
      {
        NextFollows(s, steps[0], w, q);
      }
      LaterRequestsAreReplayed(s1, steps[1..], w, n, r);
    }
  }

  /** The same of any moment of any good run. */
  lemma {:induction false} AfterASuccess(before: seq<Step>, after: seq<Step>, w: nat, r: nat)
    requires GoodRun(START, before) && GoodRun(Run(START, before), after)
    requires Success(Run(START, before), w)
    requires Run(Run(START, before), after).clock <= Expiry(Run(START, before), Left(Run(START, before), w).id)
    requires |Run(START, before).requests| <= r < |Run(Run(START, before), after).requests|
    ensures Success(Run(Run(START, before), after), w) && Follows(Run(Run(START, before), after), w, r)
  {
    hide Run, GoodRun, Owned, Follows, Chained, TableOk;
    StartIsOk();
    NobodyOwns();
    GoodRunOwned(START, before);
    var s := Run(START, before);
    assert PhaseOk(s, w);
    LaterRequestsAreReplayed(s, after, w, |s.requests|, r);
  }

  // -- What the retention covers ----------------------------------------------

  /** Whoever holds this claim must be done, not to be late, by the time its row may be swept. */
  predicate Within(s: State, claim: nat)
    requires claim < |s.won|
  {
    s.won[claim].at + STALE_CLAIM_MS <= Expiry(s, s.won[claim].row) + 1
  }

  ghost predicate AllWithin(s: State) {
    forall c :: 0 <= c < |s.won| ==> Within(s, c)
  }

  lemma {:induction false} HoldingWithinOwns(s: State, r: nat)
    requires Inv(s) && Timely(s) && r < |s.requests| && Holding(s.requests[r].phase)
    ensures var claim := ClaimOf(s.requests[r].phase).value;
      claim < |s.won| && (Within(s, claim) ==> Owns(s, r))
  {
    hide Chained, TableOk;
    assert PhaseOk(s, r);
  }

  /** While every claim won is within its row's time, no two requests of one key are ever at work at once. */
  lemma {:induction false} AloneWhileWithin(steps: seq<Step>, q: nat, r: nat)
    requires GoodRun(START, steps) && AllWithin(Run(START, steps))
    requires q < |Run(START, steps).requests| && r < |Run(START, steps).requests|
    requires Run(START, steps).requests[q].key == Run(START, steps).requests[r].key
    requires Holding(Run(START, steps).requests[q].phase) && Holding(Run(START, steps).requests[r].phase)
    ensures q == r
  {
    hide Run, GoodRun, Inv, Owned, Owns;
    StartIsOk();
    NobodyOwns();
    GoodRunOwned(START, steps);
    GoodRunIsTimely(START, steps);
    HoldingWithinOwns(Run(START, steps), q);
    HoldingWithinOwns(Run(START, steps), r);
    OneOwner(Run(START, steps), q, r);
  }

  lemma {:induction false} GoodRunIsTimely(s: State, steps: seq<Step>)
    requires GoodRun(s, steps)
    ensures Timely(Run(s, steps))
    decreases steps
  {
    hide Timely, Next, Lossless;
    if steps != [] {
      GoodRunIsTimely(Next(s, steps[0]), steps[1..]);
    }
  }

  // -- Work that outlives its row ---------------------------------------------

  /** The request is at work on this claim. */
  predicate At(s: State, r: nat, claim: nat) {
    r < |s.requests| && Holding(s.requests[r].phase) && ClaimOf(s.requests[r].phase) == Some(claim)
  }

  /** A claim on the key won after the first `n`, whose request is at work. */
  ghost predicate SecondAtWork(s: State, key: Id, n: nat) {
    exists q: nat, d: nat :: n <= d && At(s, q, d) && s.requests[q].key == key
  }

  /** The request is at work on this claim, and its row is still the key's. */
  predicate OnItsRow(s: State, r: nat, claim: nat) {
    At(s, r, claim) && claim < |s.won| && Stands(s, s.won[claim].row)
  }

  /** Nobody late and no answer lost, another request can come to work beside this one. */
  ghost predicate CanBeJoined(s: State, r: nat, claim: nat)
    requires r < |s.requests|
  {
    exists later :: GoodRun(s, later) && At(Run(s, later), r, claim)
      && SecondAtWork(Run(s, later), s.requests[r].key, |s.won|)
  }

  /** While an owner's row is the key's, no claim on the key is won. */
  lemma {:induction false} NoClaimIsWon(s: State, step: Step, r: nat, d: nat)
    requires Inv(s) && Owned(s) && Timely(s) && r < |s.requests| && Owns(s, r)
    requires |s.won| <= d < |Next(s, step).won|
    ensures var s1 := Next(s, step);
      s1.won[d].row < |s1.issued| && s1.issued[s1.won[d].row].key != s.requests[r].key
  {
    hide Chained, Timely, Owns;
    assert OwnerOk(s, r);
    if step.Take? {
      assert PhaseOk(s, step.r);
      if s.requests[step.r].key == s.requests[r].key {
        NotStale(s, step.r, r);
      }
    }
  }

  /** No claim on the key since the first `n`. */
  ghost predicate NoneSince(s: State, key: Id, n: nat) {
    forall d :: n <= d < |s.won| ==> s.won[d].row < |s.issued| && s.issued[s.won[d].row].key != key
  }

  lemma {:induction false} ClaimsAndRowsStay(s: State, step: Step)
    ensures s.won <= Next(s, step).won && s.issued <= Next(s, step).issued
    ensures |s.requests| <= |Next(s, step).requests|
    ensures forall q :: 0 <= q < |s.requests| ==> Next(s, step).requests[q].key == s.requests[q].key
  {
  }

  /** At work, a request stays on its claim until it is answered, for good. */
  lemma {:induction false} StillAt(s: State, step: Step, r: nat, claim: nat)
    requires At(s, r, claim)
    ensures At(Next(s, step), r, claim) || (r < |Next(s, step).requests| && Next(s, step).requests[r].phase.Answered?)
  {
  }

  lemma {:induction false} AnsweredStays(s: State, steps: seq<Step>, r: nat)
    requires r < |s.requests| && s.requests[r].phase.Answered?
    ensures r < |Run(s, steps).requests| && Run(s, steps).requests[r].phase.Answered?
    decreases steps
  {
    hide Next;
    if steps != [] {
      NextLater(s, steps[0]);
      AnsweredStays(Next(s, steps[0]), steps[1..], r);
    }
  }

  lemma {:induction false} WithinStays(s: State, step: Step, claim: nat)
    requires claim < |s.won| && s.won[claim].row < |s.issued|
    ensures claim < |Next(s, step).won| && (Within(Next(s, step), claim) <==> Within(s, claim))
  {
    hide Next;
    ClaimsAndRowsStay(s, step);
  }

  /** A claim within its row's time is joined by no other while it is worked on. */
  lemma {:induction false} NobodyJoins(s: State, later: seq<Step>, r: nat, claim: nat, n: nat)
    requires Inv(s) && Owned(s) && GoodRun(s, later) && At(s, r, claim) && claim < |s.won| && Within(s, claim)
    requires NoneSince(s, s.requests[r].key, n)
    requires At(Run(s, later), r, claim)
    ensures r < |s.requests| && NoneSince(Run(s, later), s.requests[r].key, n) && Inv(Run(s, later))
    decreases later
  {
    hide Inv, Owned, Next, Timely, Lossless, Within, Owns;
    if later != [] {
      var s1 := Next(s, later[0]);
      HoldingWithinOwns(s, r);
      forall d | |s.won| <= d < |s1.won|
        ensures s1.won[d].row < |s1.issued| && s1.issued[s1.won[d].row].key != s.requests[r].key
      {
        NoClaimIsWon(s, later[0], r, d);
      }
      ClaimsAndRowsStay(s, later[0]);
      ClaimIsOnARow(s, claim);
      WithinStays(s, later[0], claim);
      NextKeeps(s, later[0]);
      NextOwned(s, later[0]);
      StillAt(s, later[0], r, claim);
      if s1.requests[r].phase.Answered? {
        AnsweredStays(s1, later[1..], r);
      }
      NobodyJoins(s1, later[1..], r, claim, n);
    }
  }

  lemma {:induction false} ClaimIsOnARow(s: State, claim: nat)
    requires Inv(s) && claim < |s.won|
    ensures s.won[claim].row < |s.issued|
  {
  }

  lemma {:induction false} NoneIsAtWork(s: State, key: Id, n: nat)
    requires Inv(s) && NoneSince(s, key, n)
    ensures !SecondAtWork(s, key, n)
  {
    hide Chained, TableOk;
    forall q: nat, d: nat | n <= d && At(s, q, d)
      ensures s.requests[q].key != key
    {
      assert PhaseOk(s, q);
    }
  }

  // The other way: whoever else is at work finishes, the row runs out and is
  // swept, and a retry comes.

  lemma {:induction false} RunThen(s: State, x: seq<Step>, y: seq<Step>)
    ensures Run(s, x + y) == Run(Run(s, x), y)
    ensures GoodRun(s, x) && GoodRun(Run(s, x), y) ==> GoodRun(s, x + y)
    decreases x
  {
    hide Next, Timely, Lossless;
    if x == [] {
      assert x + y == y;
    } else {
      assert (x + y)[1..] == x[1..] + y;
      RunThen(Next(s, x[0]), x[1..], y);
    }
  }

  /** What somebody at work does next to be done: releases with no effect, or stores. */
  function StepAside(s: State, q: nat): Step
    requires q < |s.requests|
  {
    match s.requests[q].phase
    case Running(_) => Finish(q, None)
    case Storing(_, _) => Store(q, false)
    case _ => Release(q, true)
  }

  /** Nothing but the requests and the answers in the rows has changed, and the one at work is. */
  predicate Aside(s: State, s1: State, r: nat) {
    && r < |s.requests| == |s1.requests| && s1.requests[r] == s.requests[r]
    && s1.clock == s.clock && s1.issued == s.issued && s1.won == s.won
    && s1.table.Keys == s.table.Keys && forall k :: k in s.table ==> s1.table[k].id == s.table[k].id
  }

  lemma {:induction false} SteppingAside(s: State, q: nat, r: nat)
    requires Timely(s) && q < |s.requests| && r < |s.requests| && q != r && Holding(s.requests[q].phase)
    ensures var s1 := Next(s, StepAside(s, q));
      && Aside(s, s1, r) && Timely(s1) && Lossless(StepAside(s, q))
      && (forall p :: 0 <= p < |s.requests| && p != q ==> s1.requests[p] == s.requests[p])
      && if s.requests[q].phase.Running? then s1.requests[q].phase.Releasing? else !Holding(s1.requests[q].phase)
  {
  }

  lemma {:induction false} OthersFinish(s: State, r: nat, n: nat) returns (later: seq<Step>)
    requires Timely(s) && r < |s.requests| && n <= |s.requests|
    requires forall q :: n <= q < |s.requests| && q != r ==> !Holding(s.requests[q].phase)
    ensures GoodRun(s, later) && Aside(s, Run(s, later), r) && Timely(Run(s, later))
    ensures forall q :: 0 <= q < |s.requests| && q != r ==> !Holding(Run(s, later).requests[q].phase)
    decreases n, if n > 0 && s.requests[n - 1].phase.Running? then 1 else 0
  {
    hide Next, Timely, Lossless, StepAside;
    if n == 0 {
      later := [];
    } else if n - 1 == r || !Holding(s.requests[n - 1].phase) {
      later := OthersFinish(s, r, n - 1);
    } else {
      var step := StepAside(s, n - 1);
      SteppingAside(s, n - 1, r);
      var rest := OthersFinish(Next(s, step), r, if s.requests[n - 1].phase.Running? then n else n - 1);
      later := [step] + rest;
      assert later[1..] == rest;
    }
  }

  /** With nobody else at work, a retry as the row runs out joins in. */
  lemma {:induction false} RetryJoins(s: State, r: nat, claim: nat) returns (later: seq<Step>)
    requires Inv(s) && Timely(s) && OnItsRow(s, r, claim) && !Within(s, claim)
    requires forall q :: 0 <= q < |s.requests| && q != r ==> !Holding(s.requests[q].phase)
    ensures GoodRun(s, later) && At(Run(s, later), r, claim)
    ensures SecondAtWork(Run(s, later), s.requests[r].key, |s.won|)
  {
    hide Chained, Timely, Within;
    assert PhaseOk(s, r);
    var q := s.requests[r];
    var expiry := Expiry(s, s.won[claim].row);
    var now := if s.clock <= expiry then expiry + 1 else s.clock;
    var n := |s.requests|;
    var s1 := s.(clock := now);
    var s2 := Swept(s1, now);
    var s3 := s2.(requests := s.requests + [Request(q.key, q.operation, Inserting(1, now))]);
    var s4 := Next(s3, Insert(n, now));
    later := [Tick(now - s.clock), Sweep(now), Begin(q.key, q.operation), Insert(n, now)];
    StillTimely(s, r, claim, s1);
    StillTimely(s, r, claim, s2);
    StillTimely(s, r, claim, s3);
    RowIsSwept(s1, r, claim, now);
    NewcomerWorks(s3, s4, r, n, now);
    FourSteps(s, later, s1, s2, s3, s4);
    assert At(s4, n, |s.won|);
  }

  lemma {:induction false} RowIsSwept(s: State, r: nat, claim: nat, now: Time)
    requires OnItsRow(s, r, claim) && Expiry(s, s.won[claim].row) < now
    requires s.issued[s.won[claim].row].key == s.requests[r].key
    ensures s.requests[r].key !in Swept(s, now).table
  {
  }

  /** The only one at work is not late as its row runs out. */
  lemma {:induction false} StillTimely(s: State, r: nat, claim: nat, s1: State)
    requires Timely(s) && OnItsRow(s, r, claim) && !Within(s, claim)
    requires forall q :: 0 <= q < |s.requests| && q != r ==> !Holding(s.requests[q].phase)
    requires s1.won == s.won && s.requests <= s1.requests
    requires forall q :: |s.requests| <= q < |s1.requests| ==> !Holding(s1.requests[q].phase)
    requires s1.clock == if s.clock <= Expiry(s, s.won[claim].row) then Expiry(s, s.won[claim].row) + 1 else s.clock
    ensures Timely(s1)
  {
  }

  lemma {:induction false} NewcomerWorks(s: State, s1: State, r: nat, n: nat, now: Time)
    requires s.clock == now && n < |s.requests| && s.requests[n].phase == Inserting(1, now) && s.requests[n].key !in s.table
    requires s1 == Next(s, Insert(n, now)) && Timely(s)
    ensures s1.requests == s.requests[n := s.requests[n].(phase := Running(|s.won|))] && Timely(s1)
  {
  }

  lemma {:induction false} FourSteps(s: State, later: seq<Step>, s1: State, s2: State, s3: State, s4: State)
    requires |later| == 4 && s1 == Next(s, later[0]) && s2 == Next(s1, later[1]) && s3 == Next(s2, later[2]) && s4 == Next(s3, later[3])
    requires Timely(s) && Timely(s1) && Timely(s2) && Timely(s3) && Timely(s4)
    requires forall i :: 0 <= i < 4 ==> Lossless(later[i])
    ensures Run(s, later) == s4 && GoodRun(s, later)
  {
    hide Next, Timely, Lossless;
    assert later[1..][0] == later[1] && later[1..][1..] == later[2..] && later[2..][1..] == later[3..] && later[3..][1..] == [];
    assert GoodRun(s4, []) && Run(s4, []) == s4;
    assert GoodRun(s3, later[3..]) && Run(s3, later[3..]) == s4;
    assert GoodRun(s2, later[2..]) && Run(s2, later[2..]) == s4;
    assert GoodRun(s1, later[1..]) && Run(s1, later[1..]) == s4;
  }

  lemma {:induction false} OutlivedIsJoined(s: State, r: nat, claim: nat)
    requires Inv(s) && Timely(s) && OnItsRow(s, r, claim) && !Within(s, claim)
    ensures CanBeJoined(s, r, claim)
  {
    hide Inv, Next, Timely, Lossless, Run, GoodRun;
    var aside := OthersFinish(s, r, |s.requests|);
    var s1 := Run(s, aside);
    RunKeeps(s, aside);
    var join := RetryJoins(s1, r, claim);
    RunThen(s, aside, join);
  }

  /**
   * A request at work on the key's row can be joined by another, with nobody ever
   * late and no answer ever lost, exactly when its claim, with the stale limit after
   * it, goes past the first moment the row may be swept.
   */
  lemma {:induction false} JoinedExactly(s: State, r: nat, claim: nat)
    requires Inv(s) && Owned(s) && Timely(s) && OnItsRow(s, r, claim)
    ensures CanBeJoined(s, r, claim) <==> !Within(s, claim)
  {
    hide Inv, Owned, Timely, Within, Run, GoodRun, Stands;
    if Within(s, claim) {
      forall later | GoodRun(s, later) && At(Run(s, later), r, claim)
        ensures !SecondAtWork(Run(s, later), s.requests[r].key, |s.won|)
      {
        NobodyJoins(s, later, r, claim, |s.won|);
        NoneIsAtWork(Run(s, later), s.requests[r].key, |s.won|);
      }
    } else {
      OutlivedIsJoined(s, r, claim);
    }
  }

  /** What a takeover can tell before it writes: by the row's expiry, whether its work can be joined. */
  lemma {:induction false} TakeoverIsJoinedExactly(s: State, r: nat, stamp: Time)
    requires Inv(s) && Owned(s) && Timely(s) && r < |s.requests| && s.requests[r].phase.Taking?
    requires s.requests[r].phase.decided <= stamp <= s.clock < stamp + STALE_CLAIM_MS
    requires Untouched(s, s.requests[r].phase.row, s.requests[r].phase.stale)
    ensures CanBeJoined(Next(s, Take(r, stamp)), r, |s.won|) <==>
      stamp + STALE_CLAIM_MS > s.issued[s.requests[r].phase.row].expiresAt + 1
  {
    hide Inv, Owned, CanBeJoined;
    NextKeeps(s, Take(r, stamp));
    NextOwned(s, Take(r, stamp));
    JoinedExactly(Next(s, Take(r, stamp)), r, |s.won|);
  }

  ghost predicate SomebodyCanBeJoined(s: State) {
    exists r: nat, claim: nat :: OnItsRow(s, r, claim) && CanBeJoined(s, r, claim)
  }

  ghost predicate EverJoinable(s: State, steps: seq<Step>)
    decreases steps
  {
    SomebodyCanBeJoined(s) || (steps != [] && EverJoinable(Next(s, steps[0]), steps[1..]))
  }

  lemma {:induction false} WithinThroughout(s: State, steps: seq<Step>, claim: nat)
    requires Inv(s) && claim < |s.won|
    ensures claim < |Run(s, steps).won| && (Within(Run(s, steps), claim) <==> Within(s, claim))
    decreases steps
  {
    hide Inv, Next, Within;
    if steps != [] {
      ClaimIsOnARow(s, claim);
      WithinStays(s, steps[0], claim);
      NextKeeps(s, steps[0]);
      WithinThroughout(Next(s, steps[0]), steps[1..], claim);
    }
  }

  lemma {:induction false} WonIsOnItsRow(s: State, step: Step, claim: nat)
    requires Inv(s) && |s.won| <= claim < |Next(s, step).won|
    ensures OnItsRow(Next(s, step), Next(s, step).won[claim].holder, claim)
  {
    hide Chained;
  }

  lemma {:induction false} JoinableIsOutlived(s: State, steps: seq<Step>)
    requires Inv(s) && Owned(s) && GoodRun(s, steps) && EverJoinable(s, steps)
    ensures !AllWithin(Run(s, steps))
    decreases steps
  {
    hide Inv, Owned, Next, Timely, Lossless, Within, CanBeJoined, Stands;
    if SomebodyCanBeJoined(s) {
      var r: nat, claim: nat :| OnItsRow(s, r, claim) && CanBeJoined(s, r, claim);
      JoinedExactly(s, r, claim);
      WithinThroughout(s, steps, claim);
    } else {
      NextKeeps(s, steps[0]);
      NextOwned(s, steps[0]);
      JoinableIsOutlived(Next(s, steps[0]), steps[1..]);
    }
  }

  lemma {:induction false} OutlivedIsJoinable(s: State, steps: seq<Step>, claim: nat)
    requires Inv(s) && Owned(s) && GoodRun(s, steps)
    requires |s.won| <= claim < |Run(s, steps).won| && !Within(Run(s, steps), claim)
    ensures EverJoinable(s, steps)
    decreases steps
  {
    hide Inv, Owned, Next, Timely, Lossless, Within, CanBeJoined, OnItsRow;
    var s1 := Next(s, steps[0]);
    NextKeeps(s, steps[0]);
    NextOwned(s, steps[0]);
    if claim < |s1.won| {
      WithinThroughout(s1, steps[1..], claim);
      WonIsOnItsRow(s, steps[0], claim);
      JoinedExactly(s1, s1.won[claim].holder, claim);
      assert SomebodyCanBeJoined(s1);
    } else {
      OutlivedIsJoinable(s1, steps[1..], claim);
    }
  }

  /**
   * Exactly what the retention covers, over any run in which nobody is late and no
   * answer is lost: at some point of it a second request could have come to work
   * beside a first, nobody late and nothing lost, if and only if some claim won, with
   * the stale limit after it, goes past the first moment its row may be swept.
   */
  lemma {:induction false} RetentionCoversExactly(steps: seq<Step>)
    requires GoodRun(START, steps)
    ensures EverJoinable(START, steps) <==> !AllWithin(Run(START, steps))
  {
    hide Run, GoodRun, Inv, Owned, EverJoinable, Within;
    StartIsOk();
    NobodyOwns();
    if EverJoinable(START, steps) {
      JoinableIsOutlived(START, steps);
    }
    if !AllWithin(Run(START, steps)) {
      var claim :| 0 <= claim < |Run(START, steps).won| && !Within(Run(START, steps), claim);
      OutlivedIsJoinable(START, steps, claim);
    }
  }

  // -- A run it does not cover ------------------------------------------------

  const DAY_AFTER: seq<Step> := [
    Begin(1, Operation(1, 1)), Insert(0, 0), Finish(0, None), Release(0, true),
    Tick(RETENTION), Begin(1, Operation(1, 1)), Insert(1, RETENTION), Find(1), Judge(1), Take(1, RETENTION),
    Tick(1), Sweep(RETENTION + 1), Begin(1, Operation(1, 1)), Insert(2, RETENTION + 1)]

  function Seen(p: Phase): Request {
    Request(1, Operation(1, 1), p)
  }

  const LATE: Time := RETENTION + 1
  const FIRST_ROW := Issued(1, Operation(1, 1), RETENTION)
  const STUCK := map[1 := Row(0, 0, None)]
  const TAKEN := map[1 := Row(0, RETENTION, None)]
  const CLAIMS := [Claim(0, 0, 0, None), Claim(1, 0, RETENTION, Some(0))]
  const FAILED := Seen(Answered(Failed))

  /** The state before each step of that run, and the last one. */
  function Scene(k: nat): State {
    match k
    case 0 => START
    case 1 => State(0, [], map[], [Seen(Inserting(1, 0))], [])
    case 2 => State(0, [FIRST_ROW], STUCK, [Seen(Running(0))], CLAIMS[..1])
    case 3 => State(0, [FIRST_ROW], STUCK, [Seen(Releasing(0))], CLAIMS[..1])
    case 4 => State(0, [FIRST_ROW], STUCK, [FAILED], CLAIMS[..1])
    case 5 => State(RETENTION, [FIRST_ROW], STUCK, [FAILED], CLAIMS[..1])
    case 6 => State(RETENTION, [FIRST_ROW], STUCK, [FAILED, Seen(Inserting(1, RETENTION))], CLAIMS[..1])
    case 7 => State(RETENTION, [FIRST_ROW], STUCK, [FAILED, Seen(Finding(1))], CLAIMS[..1])
    case 8 => State(RETENTION, [FIRST_ROW], STUCK, [FAILED, Seen(Judging(Row(0, 0, None)))], CLAIMS[..1])
    case 9 => State(RETENTION, [FIRST_ROW], STUCK, [FAILED, Seen(Taking(0, 0, RETENTION))], CLAIMS[..1])
    case 10 => State(RETENTION, [FIRST_ROW], TAKEN, [FAILED, Seen(Running(1))], CLAIMS)
    case 11 => State(LATE, [FIRST_ROW], TAKEN, [FAILED, Seen(Running(1))], CLAIMS)
    case 12 => State(LATE, [FIRST_ROW], map[], [FAILED, Seen(Running(1))], CLAIMS)
    case 13 => State(LATE, [FIRST_ROW], map[], [FAILED, Seen(Running(1)), Seen(Inserting(1, LATE))], CLAIMS)
    case _ =>
      State(LATE, [FIRST_ROW, Issued(1, Operation(1, 1), LATE + RETENTION)], map[1 := Row(1, LATE, None)],
            [FAILED, Seen(Running(1)), Seen(Running(2))], CLAIMS + [Claim(2, 1, LATE, None)])
  }

  lemma {:induction false} ClaimAndLose(k: nat)
    requires 0 <= k < 5
    ensures Next(Scene(k), DAY_AFTER[k]) == Scene(k + 1) && Timely(Scene(k))
  {
  }

  lemma {:induction false} FindAndJudge(k: nat)
    requires 5 <= k < 8
    ensures Next(Scene(k), DAY_AFTER[k]) == Scene(k + 1) && Timely(Scene(k))
  {
  }

  lemma {:induction false} TakeOver(k: nat)
    requires 8 <= k < 10
    ensures Next(Scene(k), DAY_AFTER[k]) == Scene(k + 1) && Timely(Scene(k))
  {
  }

  lemma {:induction false} RunOut(k: nat)
    requires 10 <= k < 12
    ensures Next(Scene(k), DAY_AFTER[k]) == Scene(k + 1) && Timely(Scene(k))
  {
  }

  lemma {:induction false} ClaimAgain(k: nat)
    requires 12 <= k < 14
    ensures Next(Scene(k), DAY_AFTER[k]) == Scene(k + 1) && Timely(Scene(k))
  {
  }

  lemma {:induction false} PlayFrom(k: nat)
    requires k <= 14
    ensures Run(Scene(k), DAY_AFTER[k..]) == Scene(14) && GoodRun(Scene(k), DAY_AFTER[k..])
    decreases 14 - k
  {
    hide Scene, Next, Timely;
    if k == 14 {
      LastScene();
    } else {
      if k < 5 {
        ClaimAndLose(k);
      } else if k < 8 {
        FindAndJudge(k);
      } else if k < 10 {
        TakeOver(k);
      } else if k < 12 {
        RunOut(k);
      } else {
        ClaimAgain(k);
      }
      assert DAY_AFTER[k..][1..] == DAY_AFTER[k + 1..];
      PlayFrom(k + 1);
    }
  }

  lemma {:induction false} LastScene()
    ensures Timely(Scene(14))
  {
  }

  /**
   * A takeover does not renew the row. A claim whose release was lost, taken over
   * as its two days run out, is swept while the work goes on, and a second
   * request then works beside it: nobody is late and no answer was lost.
   */
  lemma {:induction false} ExpiryLetsTwoRun()
    ensures GoodRun(START, DAY_AFTER)
    ensures var s := Run(START, DAY_AFTER);
      && |s.requests| == 3 && s.requests[1].key == s.requests[2].key
      && s.requests[1].phase == Running(1) && s.requests[2].phase == Running(2)
  {
    hide Run, GoodRun;
    assert DAY_AFTER[0..] == DAY_AFTER;
    PlayFrom(0);
  }
}
