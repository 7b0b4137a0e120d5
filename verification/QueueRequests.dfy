/** What the phone's queue does with its rows, told without the statements that do it: which row is claimed, how an
    upload ends, what a scan files and what a user's command drops (mobile/src/queue.ts, mobile/src/backup.ts). */
module QueueRequests {
  import opened Numbers
  import opened Options
  import opened TransferQueue
  import opened ClaimRuns

  /** Every row but one is as it was. */
  predicate OnlyRow(before: Rows, after: Rows, v: Version) {
    after.Keys == before.Keys && forall w | w in before :: w != v ==> after[w] == before[w]
  }

  // ---------------------------------------------------------------- claiming

  /** Its upload was abandoned: the lease has run out. */
  predicate Abandoned(r: Row, scope: Scope, now: int) {
    r.scope == scope && r.state == Uploading && r.leaseExpires <= now
  }

  /** The row waits for an upload and may have one now. */
  predicate Waits(r: Row, scope: Scope, now: int) {
    r.scope == scope && r.retryAt <= now && (r.state == Queued || r.state == Retry || Abandoned(r, scope, now))
  }

  predicate TriedBefore(r: Row, scope: Scope, now: int) {
    r.state == Retry || Abandoned(r, scope, now)
  }

  /** When the row was last touched; finding it abandoned touches it. */
  function Touched(r: Row, scope: Scope, now: int): int {
    if Abandoned(r, scope, now) then now else r.updatedAt
  }

  /** The row has its turn: those tried before go first, and then the one untouched for longest. */
  predicate HasItsTurn(rows: Rows, scope: Scope, now: int, v: Version) {
    && v in rows && Waits(rows[v], scope, now)
    && forall w | w in rows :: Waits(rows[w], scope, now) ==>
         if TriedBefore(rows[w], scope, now) == TriedBefore(rows[v], scope, now)
         then Touched(rows[v], scope, now) <= Touched(rows[w], scope, now)
         else TriedBefore(rows[v], scope, now)
  }

  /** The row is leased to the run for five minutes; abandoned rows wait again, and no other row changes. */
  predicate ClaimDone(before: Rows, after: Rows, scope: Scope, owner: Owner, now: int, claimed: Option<Version>) {
    && after.Keys == before.Keys
    && (forall v | v in before :: Some(v) != claimed ==>
          after[v] == if Abandoned(before[v], scope, now)
                      then before[v].(state := Retry, owner := None, leaseExpires := 0, updatedAt := now)
                      else before[v])
    && match claimed
       case None => forall v | v in before :: !Waits(before[v], scope, now)
       case Some(v) =>
         && HasItsTurn(before, scope, now, v)
         && after[v] == before[v].(state := Uploading, owner := Some(owner), leaseExpires := now + 300_000,
                                   updatedAt := now)
  }

  lemma WaitsIsCandidate(rows: Rows, scope: Scope, now: int, v: Version)
    requires v in rows
    ensures Waits(rows[v], scope, now) <==> Candidate(Expire(rows, scope, now)[v], scope, now)
  {
  }

  lemma ClaimExactly(rows: Rows, scope: Scope, owner: Owner, claimed: Option<Version>, now: int)
    requires Enabled(Queue(rows, map[]), ClaimStep(scope, owner, claimed), now)
    ensures ClaimDone(rows, ClaimRows(rows, scope, owner, claimed, now), scope, owner, now, claimed)
  {
    var left := Expire(rows, scope, now);
    forall v | v in rows
      ensures Waits(rows[v], scope, now) <==> Candidate(left[v], scope, now)
    {
      WaitsIsCandidate(rows, scope, now, v);
    }
    if claimed != None {
      var v := claimed.value;
      forall w | w in rows && Waits(rows[w], scope, now)
        ensures !Before(left[w], left[v])
      {
      }
    }
  }

  /** The rows the run was uploading wait again, and no other row changes. */
  predicate ReleaseDone(before: Rows, after: Rows, scope: Scope, owner: Owner, now: int) {
    && after.Keys == before.Keys
    && forall v | v in before ::
         after[v] == if before[v].scope == scope && before[v].state == Uploading && before[v].owner == Some(owner)
                     then before[v].(state := Retry, owner := None, leaseExpires := 0, updatedAt := now)
                     else before[v]
  }

  lemma ReleaseExactly(rows: Rows, scope: Scope, owner: Owner, now: int)
    ensures ReleaseDone(rows, ReleaseRows(rows, scope, owner, now), scope, owner, now)
  {
  }

  // ---------------------------------------------------------------- how an upload ends

  /** The lease is over and the row is in the state. */
  predicate LeftIn(before: Row, after: Row, state: State, attempts: nat, retryAt: int, endedAt: int) {
    && after.state == state && after.attempts == attempts && after.retryAt == retryAt
    && after.owner == None && after.leaseExpires == 0 && after.updatedAt == endedAt
    && after.scope == before.scope && after.localId == before.localId && after.fileSize == before.fileSize
  }

  /** A failure is final when trying again cannot help or this was the eighth attempt. */
  predicate IsFinal(attempts: nat, retryable: bool) {
    !retryable || attempts >= 7
  }

  predicate EndDone(before: Row, after: Row, turn: Turn) {
    match turn.outcome
    case Uploaded(offset) => LeftIn(before, after, Complete, 0, 0, turn.endedAt) && after.offset == offset
    case Skipped(fileSize) => LeftIn(before, after, Complete, 0, 0, turn.endedAt) && after.offset == fileSize
    case Blocked => after == before
    case Raised(retryable, _, jitter) =>
      && after.offset == before.offset
      && if IsFinal(before.attempts, retryable)
         then LeftIn(before, after, Failed, before.attempts + 1, 0, turn.endedAt)
         else LeftIn(before, after, Retry, before.attempts + 1,
                     turn.endedAt + RetryDelay(before.attempts + 1, jitter), turn.endedAt)
  }

  lemma EndExactly(rows: Rows, v: Version, owner: Owner, turn: Turn)
    requires Owns(rows, v, owner)
    ensures var after := Concluded(rows, v, owner, turn);
            OnlyRow(rows, after, v) && EndDone(rows[v], after[v], turn)
  {
  }

  /** The middle of the range a delay is drawn from. */
  function Middle(attempts: nat): int {
    RetryDelay(attempts, 200)
  }

  lemma MiddleIs(attempts: nat) returns (fifth: int)
    ensures Middle(attempts) == Min(3_600_000, 5_000 * Power2(Min(attempts, 9))) == 5 * fifth
  {
    var steps := 1_000 * Power2(Min(attempts, 9));
    fifth := Min(720_000, steps);
  }

  lemma AFifthAround(middle: int, fifth: int, jitter: nat)
    requires middle == 5 * fifth && 0 <= fifth && jitter <= 400
    ensures 4 * fifth <= middle * (800 + jitter) / 1000 <= 6 * fifth
  {
    assert middle * (800 + jitter) == 1000 * (4 * fifth) + middle * jitter;
    assert middle * (800 + jitter) == 1000 * (6 * fifth) - middle * (400 - jitter);
    assert middle * jitter >= 0 && middle * (400 - jitter) >= 0;
  }

  /** The middle of the delays is ten seconds after the first attempt and doubles with each up to the ninth, short of
      the hour; a delay misses it by a fifth at most. */
  lemma DelayDoubles(attempts: nat, jitter: nat)
    ensures Middle(1) == 10_000
    ensures attempts < 9 ==> Middle(attempts + 1) == 2 * Middle(attempts)
    ensures attempts >= 9 ==> Middle(attempts) == 5_000 * 512
    ensures 4 * Middle(attempts) <= 5 * RetryDelay(attempts, jitter) <= 6 * Middle(attempts)
  {
    var first := MiddleIs(1);
    assert Power2(1) == 2 * Power2(0);
    var next := MiddleIs(attempts + 1);
    var fifth := MiddleIs(attempts);
    AFifthAround(Middle(attempts), fifth, Min(jitter, MAX_JITTER));
  }

  // ---------------------------------------------------------------- filing, cancelling, locking

  /** The photo is filed once; an unfinished row follows the photo, a completed one stays, and completed rows of other
      versions of the photo go. */
  ghost predicate FileDone(before: Rows, after: Rows, p: Photo, now: int) {
    && p.version in after
    && (after[p.version] ==
          if p.version !in before then Row(p.scope, p.localId, Queued, 0, 0, None, 0, now, 0, p.fileSize)
          else if before[p.version].state == Complete then before[p.version]
          else before[p.version].(scope := p.scope, localId := p.localId, updatedAt := now,
                                  fileSize := if p.fileSize > 0 then p.fileSize else before[p.version].fileSize))
    && forall v :: v != p.version ==>
         if v in before && !(before[v].scope == p.scope && before[v].localId == p.localId
                             && before[v].state == Complete)
         then v in after && after[v] == before[v] else v !in after
  }

  lemma FileExactly(rows: Rows, p: Photo, now: int)
    ensures FileDone(rows, Enqueue(rows, p, now), p, now)
  {
  }

  /** Exactly the rows of the scope that are neither complete nor being uploaded go. */
  ghost predicate CancelDone(before: Rows, after: Rows, scope: Scope) {
    forall v :: (v in after <==> v in before && (before[v].scope != scope || before[v].state == Complete
                                                 || before[v].state == Uploading))
                && (v in after ==> after[v] == before[v])
  }

  lemma CancelExactly(rows: Rows, scope: Scope)
    ensures CancelDone(rows, CancelPending(rows, scope), scope)
  {
  }

  /** A free, expired or own lock is taken for five minutes; every lock that has run out is cleared. */
  ghost predicate LockDone(before: map<Scope, Lock>, after: map<Scope, Lock>, scope: Scope, owner: Owner, now: int,
                     acquired: bool) {
    && acquired == (scope in before && before[scope].expires > now ==> before[scope].owner == owner)
    && (acquired ==> scope in after && after[scope] == Lock(owner, now + 300_000))
    && forall s :: s != scope || !acquired ==>
         if s in before && before[s].expires > now then s in after && after[s] == before[s] else s !in after
  }

  lemma LockExactly(locks: map<Scope, Lock>, scope: Scope, owner: Owner, now: int)
    ensures LockDone(locks, Acquire(locks, scope, owner, now), scope, owner, now,
                     CanAcquire(locks, scope, owner, now))
  {
  }
}
