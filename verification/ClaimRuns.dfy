/** How many claims one backup run can make, over every clock and every way its uploads may end
    (the claim loop of runBackup in mobile/src/backup.ts). */
module ClaimRuns {
  import opened Numbers
  import opened Options
  import Sets
  import opened TransferQueue

  /** How one upload of a run ends; `jitter` are the thousandths that the delay draws above eight tenths. */
  datatype Outcome =
    | Uploaded(offset: int)
    | Skipped(fileSize: int)
    | Blocked
    | Raised(retryable: bool, pauses: bool, jitter: nat)

  /** What the clock and the upload bring in one turn of the loop: the times of the claim and of the last update. */
  datatype Turn = Turn(claimedAt: int, outcome: Outcome, endedAt: int)

  const MAX_JITTER := 400
  const MAX_DELAY := 4_320_000

  /** retryDelay, to the millisecond: five seconds doubled with every attempt, an hour at most, give or take a fifth. */
  function RetryDelay(attempts: nat, jitter: nat): (d: int)
    ensures 0 <= d <= MAX_DELAY
  {
    Power2Grows(0, Min(attempts, 9));
    Min(3_600_000, 5_000 * Power2(Min(attempts, 9))) * (800 + Min(jitter, MAX_JITTER)) / 1000
  }

  /** The change that ends a turn. A failure is final when it is not retryable or was the last attempt. */
  function Verdict(attempts: nat, turn: Turn): Option<Change> {
    match turn.outcome
    case Uploaded(offset) => Some(Done(offset))
    case Skipped(fileSize) => Some(Done(fileSize))
    case Blocked => None
    case Raised(retryable, _, jitter) =>
      var tries := attempts + 1;
      Some(if !retryable || tries >= MAX_ATTEMPTS then GiveUp(tries)
           else Defer(tries, turn.endedAt + RetryDelay(tries, jitter)))
  }

  predicate Stops(outcome: Outcome) {
    outcome.Blocked? || (outcome.Raised? && outcome.pauses)
  }

  function Concluded(rows: Rows, v: Version, owner: Owner, turn: Turn): Rows
    requires v in rows
  {
    match Verdict(rows[v].attempts, turn)
    case None => rows
    case Some(change) => Update(rows, v, owner, change, turn.endedAt)
  }

  /** The rows after a turn that claims `v`. */
  function AfterTurn(rows: Rows, scope: Scope, owner: Owner, v: Version, turn: Turn): Rows
    requires v in rows
  {
    Concluded(ClaimRows(rows, scope, owner, Some(v), turn.claimedAt), v, owner, turn)
  }

  /** The loop may claim `vs` one after the other from these rows, taking the turns from number `i` on. */
  ghost predicate IsRun(rows: Rows, scope: Scope, owner: Owner, turns: nat -> Turn, i: nat, vs: seq<Version>)
    decreases |vs|
  {
    vs == [] || (
      && vs[0] in rows && IsNext(Expire(rows, scope, turns(i).claimedAt), scope, turns(i).claimedAt, vs[0])
      && (|vs| == 1 || (!Stops(turns(i).outcome)
                        && IsRun(AfterTurn(rows, scope, owner, vs[0], turns(i)), scope, owner, turns, i + 1, vs[1..]))))
  }

  lemma OneMoreClaim(rows: Rows, scope: Scope, owner: Owner, turns: nat -> Turn, i: nat, v: Version, vs: seq<Version>)
    requires v in rows && IsNext(Expire(rows, scope, turns(i).claimedAt), scope, turns(i).claimedAt, v)
    requires !Stops(turns(i).outcome)
             && IsRun(AfterTurn(rows, scope, owner, v, turns(i)), scope, owner, turns, i + 1, vs)
    ensures IsRun(rows, scope, owner, turns, i, [v] + vs)
  {
    assert ([v] + vs)[1..] == vs;
  }

  // ---------------------------------------------------------------- the bound

  /** A turn costs its row an attempt, unless policy blocked it. */
  lemma TurnCosts(rows: Rows, scope: Scope, owner: Owner, v: Version, turn: Turn)
    requires RowsOk(rows) && v in rows && IsNext(Expire(rows, scope, turn.claimedAt), scope, turn.claimedAt, v)
    ensures RowsOk(AfterTurn(rows, scope, owner, v, turn)) && AttemptsLeft(rows, scope) >= 1
    ensures var left := AttemptsLeft(AfterTurn(rows, scope, owner, v, turn), scope);
            if turn.outcome.Blocked? then left == AttemptsLeft(rows, scope) else left < AttemptsLeft(rows, scope)
    ensures turn.outcome.Raised? && turn.outcome.retryable ==>
              AttemptsLeft(AfterTurn(rows, scope, owner, v, turn), scope) == AttemptsLeft(rows, scope) - 1
  {
    ClaimCostsNothing(rows, scope, owner, turn.claimedAt, v);
    ConcludingCosts(ClaimRows(rows, scope, owner, Some(v), turn.claimedAt), scope, owner, v, turn);
  }

  lemma ConcludingCosts(rows: Rows, scope: Scope, owner: Owner, v: Version, turn: Turn)
    requires RowsOk(rows) && Owns(rows, v, owner) && rows[v].scope == scope
    ensures var after := Concluded(rows, v, owner, turn);
            && RowsOk(after) && after.Keys == rows.Keys && AttemptsLeft(rows, scope) >= 1
            && (if turn.outcome.Blocked? then after == rows else AttemptsLeft(after, scope) < AttemptsLeft(rows, scope))
            && (turn.outcome.Raised? && turn.outcome.retryable ==>
                  AttemptsLeft(after, scope) == AttemptsLeft(rows, scope) - 1)
  {
    SomeAttemptLeft(rows, scope, v);
    if !turn.outcome.Blocked? { OneRowChanges(rows, scope, v, Concluded(rows, v, owner, turn)[v]); }
  }

  /** No run makes more claims than the unfinished rows of the scope have attempts left. */
  lemma {:induction false} ClaimsAreBounded(rows: Rows, scope: Scope, owner: Owner, turns: nat -> Turn, i: nat,
                                            vs: seq<Version>)
    requires RowsOk(rows) && IsRun(rows, scope, owner, turns, i, vs)
    ensures |vs| <= AttemptsLeft(rows, scope)
    decreases |vs|
  {
    if vs != [] {
      TurnCosts(rows, scope, owner, vs[0], turns(i));
      if |vs| > 1 {
        ClaimsAreBounded(AfterTurn(rows, scope, owner, vs[0], turns(i)), scope, owner, turns, i + 1, vs[1..]);
      }
    }
  }

  // ---------------------------------------------------------------- the bound is reached

  /** Every unfinished row can be claimed at this time. */
  ghost predicate AllDue(rows: Rows, scope: Scope, now: int) {
    forall v :: v in rows && Unfinished(rows[v], scope) ==>
      rows[v].retryAt <= now && (rows[v].state.Uploading? ==> rows[v].leaseExpires <= now)
  }

  lemma {:induction false} FirstExists(rows: Rows, scope: Scope, now: int, vs: set<Version>) returns (v: Version)
    requires vs <= rows.Keys && vs != {} && forall w :: w in vs ==> Candidate(rows[w], scope, now)
    ensures v in vs && forall w :: w in vs ==> !Before(rows[w], rows[v])
  {
    v :| v in vs;
    if vs != {v} {
      var other := FirstExists(rows, scope, now, vs - {v});
      if Before(rows[other], rows[v]) { v := other; }
    }
  }

  lemma {:induction false} LeftSomewhere(rows: Rows, scope: Scope, vs: set<Version>) returns (v: Version)
    requires RowsOk(rows) && vs <= rows.Keys && AttemptsIn(rows, scope, vs) > 0
    ensures v in vs && Unfinished(rows[v], scope)
  {
    v := Sets.Pick(vs);
    if !Unfinished(rows[v], scope) { v := LeftSomewhere(rows, scope, vs - {v}); }
  }

  /** While attempts are left and everything is due, there is a row to claim. */
  lemma SomethingIsNext(rows: Rows, scope: Scope, now: int) returns (v: Version)
    requires RowsOk(rows) && AllDue(rows, scope, now) && AttemptsLeft(rows, scope) > 0
    ensures v in rows && IsNext(Expire(rows, scope, now), scope, now, v)
  {
    var left := Expire(rows, scope, now);
    var w := LeftSomewhere(rows, scope, rows.Keys);
    var candidates := set u | u in left && Candidate(left[u], scope, now);
    assert w in candidates;
    v := FirstExists(left, scope, now, candidates);
  }

  /** Every upload fails and may be retried, and the clock jumps past every delay. */
  function Failing(start: int): nat -> Turn {
    n => Turn(start + n * MAX_DELAY, Raised(true, false, MAX_JITTER), start + n * MAX_DELAY)
  }

  /** A turn leaves the other rows as they were but for leases that ran out. */
  lemma OthersAfterTurn(rows: Rows, scope: Scope, owner: Owner, v: Version, turn: Turn, w: Version)
    requires v in rows && w != v
    ensures var after := AfterTurn(rows, scope, owner, v, turn);
            w in after <==> w in rows
    ensures w in rows ==> AfterTurn(rows, scope, owner, v, turn)[w] == Expire(rows, scope, turn.claimedAt)[w]
  {
  }

  lemma StillDue(rows: Rows, scope: Scope, owner: Owner, v: Version, start: int, i: nat)
    requires RowsOk(rows) && AllDue(rows, scope, start + i * MAX_DELAY) && v in rows
    requires IsNext(Expire(rows, scope, start + i * MAX_DELAY), scope, start + i * MAX_DELAY, v)
    ensures AllDue(AfterTurn(rows, scope, owner, v, Failing(start)(i)), scope, start + (i + 1) * MAX_DELAY)
  {
    var turn := Failing(start)(i);
    var after := AfterTurn(rows, scope, owner, v, turn);
    forall w | w in after && Unfinished(after[w], scope)
      ensures after[w].retryAt <= turn.claimedAt + MAX_DELAY
              && (after[w].state.Uploading? ==> after[w].leaseExpires <= turn.claimedAt + MAX_DELAY)
    {
      if w != v { OthersAfterTurn(rows, scope, owner, v, turn, w); }
    }
  }

  lemma FailingTurn(rows: Rows, scope: Scope, owner: Owner, turns: nat -> Turn, start: int, i: nat) returns (v: Version)
    requires RowsOk(rows) && AllDue(rows, scope, start + i * MAX_DELAY) && AttemptsLeft(rows, scope) > 0
    requires turns(i) == Failing(start)(i)
    ensures v in rows && IsNext(Expire(rows, scope, turns(i).claimedAt), scope, turns(i).claimedAt, v)
    ensures var after := AfterTurn(rows, scope, owner, v, turns(i));
            && RowsOk(after) && AllDue(after, scope, start + (i + 1) * MAX_DELAY)
            && AttemptsLeft(after, scope) == AttemptsLeft(rows, scope) - 1
  {
    v := SomethingIsNext(rows, scope, turns(i).claimedAt);
    TurnCosts(rows, scope, owner, v, turns(i));
    StillDue(rows, scope, owner, v, start, i);
  }

  /** Then the loop claims as often as there are attempts left. */
  lemma {:induction false} BoundIsReached(rows: Rows, scope: Scope, owner: Owner, turns: nat -> Turn, start: int,
                                          i: nat)
    returns (vs: seq<Version>)
    requires RowsOk(rows) && AllDue(rows, scope, start + i * MAX_DELAY)
    requires forall k: nat :: turns(k) == Failing(start)(k)
    ensures IsRun(rows, scope, owner, turns, i, vs) && |vs| == AttemptsLeft(rows, scope)
    decreases AttemptsLeft(rows, scope)
  {
    vs := [];
    if AttemptsLeft(rows, scope) > 0 {
      var v := FailingTurn(rows, scope, owner, turns, start, i);
      var rest := BoundIsReached(AfterTurn(rows, scope, owner, v, turns(i)), scope, owner, turns, start, i + 1);
      OneMoreClaim(rows, scope, owner, turns, i, v, rest);
      vs := [v] + rest;
    }
  }

  lemma {:induction false} DueSometime(rows: Rows, scope: Scope, vs: set<Version>) returns (now: int)
    requires vs <= rows.Keys
    ensures forall v :: v in vs ==> rows[v].retryAt <= now && rows[v].leaseExpires <= now
  {
    now := 0;
    if vs != {} {
      var v :| v in vs;
      var rest := DueSometime(rows, scope, vs - {v});
      now := Max(rest, Max(rows[v].retryAt, rows[v].leaseExpires));
    }
  }

  // ---------------------------------------------------------------- queued and waiting rows alone

  ghost function Waiting(rows: Rows): set<Version> {
    set v | v in rows && !rows[v].state.Uploading?
  }

  /** The attempts left in the queued and waiting rows of the scope. */
  ghost function WaitingAttempts(rows: Rows, scope: Scope): nat
    requires RowsOk(rows)
  {
    AttemptsIn(rows, scope, Waiting(rows))
  }

  ghost predicate NoneUploading(rows: Rows, scope: Scope) {
    forall v :: v in rows && rows[v].scope == scope ==> !rows[v].state.Uploading?
  }

  /** Leaving rows out leaves out exactly what they have left. */
  lemma {:induction false} AttemptsSplit(rows: Rows, scope: Scope, vs: set<Version>, ws: set<Version>)
    requires RowsOk(rows) && ws <= vs <= rows.Keys
    ensures AttemptsIn(rows, scope, vs) == AttemptsIn(rows, scope, ws) + AttemptsIn(rows, scope, vs - ws)
    decreases |ws|
  {
    if ws == {} {
      assert vs - ws == vs;
    } else {
      var v := Sets.Pick(ws);
      AttemptsWithout(rows, scope, vs, v);
      AttemptsSplit(rows, scope, vs - {v}, ws - {v});
      assert (vs - {v}) - (ws - {v}) == vs - ws;
    }
  }

  lemma {:induction false} NothingIn(rows: Rows, scope: Scope, vs: set<Version>)
    requires RowsOk(rows) && vs <= rows.Keys && forall v :: v in vs ==> !Unfinished(rows[v], scope)
    ensures AttemptsIn(rows, scope, vs) == 0
  {
    if vs != {} { NothingIn(rows, scope, vs - {Sets.Pick(vs)}); }
  }

  lemma WaitingIsAll(rows: Rows, scope: Scope)
    requires RowsOk(rows)
    ensures WaitingAttempts(rows, scope) <= AttemptsLeft(rows, scope)
    ensures WaitingAttempts(rows, scope) == AttemptsLeft(rows, scope) <==> NoneUploading(rows, scope)
  {
    var rest := rows.Keys - Waiting(rows);
    AttemptsSplit(rows, scope, rows.Keys, Waiting(rows));
    if NoneUploading(rows, scope) {
      NothingIn(rows, scope, rest);
    } else {
      var v :| v in rows && rows[v].scope == scope && rows[v].state.Uploading?;
      AttemptsWithout(rows, scope, rest, v);
    }
  }

  ghost predicate WaitingBoundHolds(rows: Rows, scope: Scope, owner: Owner)
    requires RowsOk(rows)
  {
    forall turns: nat -> Turn, vs :: IsRun(rows, scope, owner, turns, 0, vs) ==> |vs| <= WaitingAttempts(rows, scope)
  }

  lemma BoundExceeded(rows: Rows, scope: Scope, owner: Owner, turns: nat -> Turn, vs: seq<Version>)
    requires RowsOk(rows) && IsRun(rows, scope, owner, turns, 0, vs) && |vs| > WaitingAttempts(rows, scope)
    ensures !WaitingBoundHolds(rows, scope, owner)
  {
  }

  /** The attempts left in queued and waiting rows bound the claims of a run, for every clock and every outcome,
      exactly when no row of the scope is uploading as the loop begins: a lease of a dead run can run out meanwhile. */
  lemma WaitingRowsBoundTheClaims(rows: Rows, scope: Scope, owner: Owner)
    requires RowsOk(rows)
    ensures WaitingBoundHolds(rows, scope, owner) <==> NoneUploading(rows, scope)
  {
    WaitingIsAll(rows, scope);
    if NoneUploading(rows, scope) {
      forall turns: nat -> Turn, vs | IsRun(rows, scope, owner, turns, 0, vs)
        ensures |vs| <= WaitingAttempts(rows, scope)
      {
        ClaimsAreBounded(rows, scope, owner, turns, 0, vs);
      }
    } else {
      var start := DueSometime(rows, scope, rows.Keys);
      var turns := Failing(start);
      var vs := BoundIsReached(rows, scope, owner, turns, start, 0);
      BoundExceeded(rows, scope, owner, turns, vs);
    }
  }
}
