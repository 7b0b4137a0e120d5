/** The queue functions over the two tables, and the claim loop of a backup run
    (mobile/src/queue.ts, runBackup in mobile/src/backup.ts). */
module TransferStore {
  import opened ClaimRuns
  import opened LibraryScans
  import opened Options
  import opened QueueRequests
  import opened TransferQueue

  /** What the run is told before it starts: policy, permission and connection. */
  datatype Entry = Allowed | PolicyBlocks | NoPermission

  datatype Progress = Progress(uploaded: nat, skipped: nat, failed: nat, deferred: nat, blocked: bool)

  const NOTHING_YET := Progress(0, 0, 0, 0, false)

  class Store {
    var rows: Rows
    var locks: map<Scope, Lock>

    ghost function View(): Queue
      reads this
    {
      Queue(rows, locks)
    }

    constructor ()
      ensures View() == Queue(map[], map[])
    {
      rows, locks := map[], map[];
    }

    /** enqueueTransfer. */
    method EnqueueTransfer(p: Photo, now: int) returns (outcome: Enqueued)
      modifies this`rows
      ensures rows == Enqueue(old(rows), p, now)
      ensures outcome.AlreadyComplete? <==> p.version in old(rows) && old(rows)[p.version].state.Complete?
      ensures outcome.NewlyQueued? <==> p.version !in old(rows)
      ensures p.version in rows
      ensures FileDone(old(rows), rows, p, now)
    {
      FileExactly(rows, p, now);
      outcome := NewlyQueued;
      if p.version in rows { outcome := if rows[p.version].state.Complete? then AlreadyComplete else AlreadyPending; }
      if p.version !in rows {
        rows := rows[p.version := Row(p.scope, p.localId, Queued, 0, 0, None, 0, now, 0, p.fileSize)];
      } else if !rows[p.version].state.Complete? {
        var r := rows[p.version];
        rows := rows[p.version := r.(scope := p.scope, localId := p.localId, updatedAt := now,
                                     fileSize := if p.fileSize > 0 then p.fileSize else r.fileSize)];
      }
      rows := map v | v in rows && !Outdated(rows[v], v, p) :: rows[v];
    }

    /** acquireBackupRun. */
    method AcquireBackupRun(scope: Scope, owner: Owner, now: int) returns (acquired: bool)
      modifies this`locks
      ensures locks == Acquire(old(locks), scope, owner, now)
      ensures acquired <==> CanAcquire(old(locks), scope, owner, now)
      ensures acquired <==> HoldsRun(locks, scope, owner)
      ensures LockDone(old(locks), locks, scope, owner, now, acquired)
    {
      LockExactly(locks, scope, owner, now);
      locks := Unexpired(locks, now);
      if scope !in locks || locks[scope].owner == owner {
        locks := locks[scope := Lock(owner, now + RUN_LEASE)];
        return true;
      }
      return false;
    }

    /** renewBackupRun. */
    method RenewBackupRun(scope: Scope, owner: Owner, now: int) returns (renewed: bool)
      modifies this`locks
      ensures locks == Renew(old(locks), scope, owner, now)
      ensures renewed <==> scope in old(locks) && old(locks)[scope].owner == owner
      ensures locks == if renewed then old(locks)[scope := Lock(owner, now + 300_000)] else old(locks)
    {
      if scope !in locks || locks[scope].owner != owner { return false; }
      locks := locks[scope := Lock(owner, now + RUN_LEASE)];
      return true;
    }

    /** releaseBackupRun, two statements. */
    method ReleaseBackupRun(scope: Scope, owner: Owner, now: int)
      modifies this
      ensures !HoldsRun(locks, scope, owner)
      ensures forall v :: Owns(rows, v, owner) && rows[v].state.Uploading? ==> rows[v].scope != scope
      ensures View() == Next(Next(old(View()), ReleaseLockStep(scope, owner), now), ReleaseRowsStep(scope, owner), now)
      ensures ReleaseDone(old(rows), rows, scope, owner, now)
      ensures forall s :: (s in locks <==> s in old(locks) && (s != scope || old(locks)[s].owner != owner))
                          && (s in locks ==> locks[s] == old(locks)[s])
    {
      ReleaseExactly(rows, scope, owner, now);
      locks := ReleaseLock(locks, scope, owner);
      rows := ReleaseRows(rows, scope, owner, now);
    }

    /** The first row in claim order, by one pass over the candidates. */
    method FirstCandidate(scope: Scope, now: int) returns (found: Option<Version>)
      ensures found.Some? ==> IsNext(rows, scope, now, found.value)
      ensures found.None? ==> forall v :: v in rows ==> !Candidate(rows[v], scope, now)
    {
      found := None;
      var todo := rows.Keys;
      while todo != {}
        invariant todo <= rows.Keys
        invariant found.Some? ==> found.value in rows && Candidate(rows[found.value], scope, now)
        invariant forall w :: w in rows && w !in todo && Candidate(rows[w], scope, now) ==>
                    found.Some? && !Before(rows[w], rows[found.value])
        decreases |todo|
      {
        var v :| v in todo;
        todo := todo - {v};
        if Candidate(rows[v], scope, now) && (found.None? || Before(rows[v], rows[found.value])) { found := Some(v); }
      }
    }

    /** claimNextTransfer. */
    method ClaimNextTransfer(scope: Scope, owner: Owner, now: int) returns (claimed: Option<Version>)
      modifies this`rows
      ensures Enabled(old(View()), ClaimStep(scope, owner, claimed), now)
      ensures View() == Next(old(View()), ClaimStep(scope, owner, claimed), now)
      ensures ClaimDone(old(rows), rows, scope, owner, now, claimed)
      ensures claimed.Some? ==> Owns(rows, claimed.value, owner) && rows[claimed.value].scope == scope
    {
      ghost var was := rows;
      rows := Expire(rows, scope, now);
      claimed := FirstCandidate(scope, now);
      if claimed.Some? {
        rows := rows[claimed.value := Claimed(rows[claimed.value], owner, now)];
      }
      ClaimExactly(was, scope, owner, claimed, now);
    }

    /** updateTransfer under a lease. */
    method UpdateTransfer(v: Version, owner: Owner, change: Change, now: int) returns (changed: bool)
      modifies this`rows
      ensures rows == Update(old(rows), v, owner, change, now)
      ensures changed <==> Owns(old(rows), v, owner)
    {
      if v !in rows || rows[v].owner != Some(owner) { return false; }
      rows := rows[v := Changed(rows[v], change, now)];
      return true;
    }

    /** retryFailedTransfers. */
    method RetryFailedTransfers(scope: Scope, now: int)
      modifies this`rows
      ensures rows == RetryFailed(old(rows), scope, now)
      ensures rows.Keys == old(rows).Keys
      ensures forall v :: v in rows ==>
                rows[v] == if old(rows)[v].scope == scope && old(rows)[v].state == Failed
                           then old(rows)[v].(state := Retry, owner := None, leaseExpires := 0, updatedAt := now,
                                              attempts := 0, retryAt := 0)
                           else old(rows)[v]
    {
      rows := RetryFailed(rows, scope, now);
    }

    /** cancelPendingTransfers. */
    method CancelPendingTransfers(scope: Scope) returns (removed: nat)
      modifies this`rows
      ensures rows == CancelPending(old(rows), scope)
      ensures CancelDone(old(rows), rows, scope) && removed + |rows| == |old(rows)|
    {
      CancelExactly(rows, scope);
      var before := |rows|;
      ghost var gone := set v | v in rows && Cancellable(rows[v], scope);
      ghost var was := rows;
      rows := CancelPending(rows, scope);
      assert was.Keys == rows.Keys + gone && rows.Keys * gone == {};
      removed := before - |rows|;
    }

    /** What one ended upload writes, and the progress it counts. */
    method Conclude(v: Version, attempts: nat, owner: Owner, turn: Turn, p: Progress) returns (p': Progress, stop: bool)
      requires Owns(rows, v, owner) && rows[v].attempts == attempts
      modifies this`rows
      ensures rows == Concluded(old(rows), v, owner, turn)
      ensures stop <==> Stops(turn.outcome)
      ensures OnlyRow(old(rows), rows, v) && EndDone(old(rows)[v], rows[v], turn)
      ensures p' == Counted(p, attempts, turn) && CountDone(p, p', attempts, turn)
    {
      EndExactly(rows, v, owner, turn);
      var tries := attempts + 1;
      match turn.outcome {
        case Uploaded(offset) =>
          var done := UpdateTransfer(v, owner, Done(offset), turn.endedAt);
          return p.(uploaded := p.uploaded + 1), false;
        case Skipped(fileSize) =>
          var done := UpdateTransfer(v, owner, Done(fileSize), turn.endedAt);
          return p.(skipped := p.skipped + 1), false;
        case Blocked =>
          return p.(blocked := true), true;
        case Raised(retryable, pauses, jitter) =>
          if !retryable || tries >= MAX_ATTEMPTS {
            var done := UpdateTransfer(v, owner, GiveUp(tries), turn.endedAt);
            p' := p.(failed := p.failed + 1);
          } else {
            var done := UpdateTransfer(v, owner, Defer(tries, turn.endedAt + RetryDelay(tries, jitter)), turn.endedAt);
            p' := p.(deferred := p.deferred + 1);
          }
          return if pauses then p'.(blocked := true) else p', pauses;
      }
    }

    /** The claim loop of runBackup, for any clock and any uploads: it claims the rows of a run, at most as many as
        the unfinished rows of the scope have attempts left, and ends with nothing to claim unless something
        stops it. */
    method ClaimLoop(scope: Scope, owner: Owner, turns: nat -> Turn, start: Progress)
      returns (p: Progress, claimed: seq<Version>, ghost told: seq<Progress>)
      requires RowsOk(rows)
      modifies this`rows
      ensures RowsOk(rows)
      ensures Tells(start, p, turns, told, |claimed|)
      ensures IsRun(old(rows), scope, owner, turns, 0, claimed) && |claimed| <= AttemptsLeft(old(rows), scope)
      ensures !p.blocked ==> start.blocked || forall v :: v in rows ==>
                !Candidate(rows[v], scope, turns(|claimed|).claimedAt)
    {
      ghost var was := rows;
      p, claimed, told := start, [], [start];
      NothingClaimedYet(rows, scope, owner, turns);
      while true
        invariant RowsOk(rows) && p.blocked == start.blocked
        invariant Continues(was, rows, scope, owner, turns, claimed)
        invariant Tells(start, p, turns, told, |claimed|)
        decreases AttemptsLeft(rows, scope)
      {
        ghost var before, last := rows, p;
        var next, stop;
        next, p, stop := ClaimTurn(scope, owner, turns(|claimed|), p);
        if next.None? {
          Ends(was, before, scope, owner, turns, claimed, []);
          return;
        }
        TellsOneMore(start, last, p, before[next.value].attempts, turns, told, |claimed|);
        told := told + [p];
        if stop {
          Ends(was, before, scope, owner, turns, claimed, [next.value]);
          claimed := claimed + [next.value];
          return;
        }
        OneClaimOn(was, before, scope, owner, turns, claimed, next.value);
        claimed := claimed + [next.value];
      }
    }

    /** One turn of the claim loop. */
    method ClaimTurn(scope: Scope, owner: Owner, turn: Turn, p: Progress)
      returns (next: Option<Version>, p': Progress, stop: bool)
      requires RowsOk(rows)
      modifies this`rows
      ensures RowsOk(rows)
      ensures next.None? ==> p' == p && !stop && forall v :: v in rows ==> !Candidate(rows[v], scope, turn.claimedAt)
      ensures next.Some? ==> && next.value in old(rows)
                             && rows == AfterTurn(old(rows), scope, owner, next.value, turn)
                             && IsNext(Expire(old(rows), scope, turn.claimedAt), scope, turn.claimedAt, next.value)
                             && CountDone(p, p', old(rows)[next.value].attempts, turn)
                             && stop == Stops(turn.outcome)
                             && (if stop then p'.blocked else p'.blocked == p.blocked)
                             && (!stop ==> AttemptsLeft(rows, scope) < AttemptsLeft(old(rows), scope))
    {
      ghost var before := rows;
      next := ClaimNextTransfer(scope, owner, turn.claimedAt);
      ExpireKeepsOk(before, scope, turn.claimedAt);
      if next.None? { return next, p, false; }
      TurnCosts(before, scope, owner, next.value, turn);
      p', stop := Conclude(next.value, rows[next.value].attempts, owner, turn, p);
    }

    /** The photos of one page, in order. */
    method FilePage(photos: seq<Photo>, now: int)
      modifies this`rows
      ensures rows == Filed(old(rows), photos, now)
    {
      for k := 0 to |photos|
        invariant rows == Filed(old(rows), photos[..k], now)
      {
        var outcome := EnqueueTransfer(photos[k], now);
        assert photos[..k + 1][..k] == photos[..k];
      }
      assert photos[..|photos|] == photos;
    }

    /** scanLibrary: every page is filed, another run may ask for the lock meanwhile, the lock is renewed, and losing
        it ends the scan. */
    method ScanLibrary(scope: Scope, owner: Owner, pages: seq<Page>) returns (held: bool)
      modifies this
      ensures held <==> KeepsLock(old(locks), scope, owner, pages)
      ensures var filed := pages[..PagesFiled(old(locks), scope, owner, pages)];
              rows == AllFiled(old(rows), filed) && locks == AfterPages(old(locks), scope, owner, filed)
    {
      for k := 0 to |pages|
        invariant KeepsLock(old(locks), scope, owner, pages[..k])
        invariant rows == AllFiled(old(rows), pages[..k])
        invariant locks == AfterPages(old(locks), scope, owner, pages[..k])
      {
        var page := pages[k];
        assert pages[..k + 1][..k] == pages[..k] && pages[..k + 1][k] == page;
        FilePage(page.photos, page.filedAt);
        if page.rival.Some? {
          var taken := AcquireBackupRun(scope, page.rival.value.owner, page.rival.value.askedAt);
        }
        held := RenewBackupRun(scope, owner, page.renewedAt);
        if !held {
          ScanEnds(old(locks), scope, owner, pages, k + 1);
          return;
        }
      }
      assert pages[..|pages|] == pages;
      return true;
    }

    /** The part of runBackup that holds the lock: the scan, and the claim loop when the lock was kept. */
    method ScanAndClaim(scope: Scope, owner: Owner, pages: seq<Page>, turns: nat -> Turn)
      returns (p: Progress, raised: bool, claimed: seq<Version>, ghost told: seq<Progress>)
      requires RowsOk(rows)
      modifies this
      ensures RowsOk(rows) && (raised <==> !KeepsLock(old(locks), scope, owner, pages))
      ensures if !raised then ClaimsFrom(AllFiled(old(rows), pages), scope, owner, turns, claimed)
              else claimed == [] && rows == AllFiled(old(rows), pages[..PagesFiled(old(locks), scope, owner, pages)])
      ensures if !raised then Tells(NOTHING_YET, p, turns, told, |claimed|) else p == NOTHING_YET
    {
      p, raised, claimed, told := NOTHING_YET, false, [], [];
      AllFiledKeepsOk(rows, pages[..PagesFiled(locks, scope, owner, pages)]);
      assert pages[..|pages|] == pages;
      var held := ScanLibrary(scope, owner, pages);
      if held {
        p, claimed, told := ClaimLoop(scope, owner, turns, p);
      } else {
        raised := true;
      }
    }

    /** runBackup: nothing happens while another run holds the scope; otherwise policy and permission are asked, the
        library is filed as long as the lock can be renewed, and the claim loop runs on what is there then. However
        it ends, neither the lock nor any lease of this run is left; a run that was not let in has changed no row but
        its own leases. */
    method RunBackup(scope: Scope, owner: Owner, entry: Entry, pages: seq<Page>, startedAt: int,
                     turns: nat -> Turn, endedAt: int)
      returns (p: Progress, raised: bool, claimed: seq<Version>, ghost told: seq<Progress>)
      requires RowsOk(rows)
      modifies this
      ensures RowsOk(rows) && !HoldsRun(locks, scope, owner)
      ensures var free := CanAcquire(old(locks), scope, owner, startedAt);
              var got := Acquire(old(locks), scope, owner, startedAt);
              var scanned := free && entry.Allowed?;
              var kept := scanned && KeepsLock(got, scope, owner, pages);
              var filed := pages[..PagesFiled(got, scope, owner, pages)];
              && (raised <==> free && (entry.NoPermission? || (entry.Allowed? && !kept)))
              && (!free ==> p.blocked && rows == old(rows))
              && (free ==> forall v :: v in rows && rows[v].scope == scope ==> rows[v].owner != Some(owner))
              && (free && !scanned ==> rows == ReleaseRows(old(rows), scope, owner, endedAt))
              && (scanned && !kept ==> rows == ReleaseRows(AllFiled(old(rows), filed), scope, owner, endedAt))
              && (if kept then ClaimsFrom(AllFiled(old(rows), pages), scope, owner, turns, claimed)
                  else claimed == [] && p == NOTHING_YET.(blocked := !raised))
              && (kept ==> Tells(NOTHING_YET, p, turns, told, |claimed|))
    {
      p, raised, claimed, told := NOTHING_YET, false, [], [];
      var acquired := AcquireBackupRun(scope, owner, startedAt);
      if !acquired { return p.(blocked := true), false, [], []; }
      match entry {
        case PolicyBlocks => p := p.(blocked := true);
        case NoPermission => raised := true;
        case Allowed =>
          p, raised, claimed, told := ScanAndClaim(scope, owner, pages, turns);
      }
      NextKeeps(View(), ReleaseRowsStep(scope, owner), endedAt);
      ReleaseBackupRun(scope, owner, endedAt);
    }
  }

  /** The claims are a run of the loop, no more than the attempts left. */
  ghost predicate ClaimsFrom(rows: Rows, scope: Scope, owner: Owner, turns: nat -> Turn, claimed: seq<Version>) {
    RowsOk(rows) && IsRun(rows, scope, owner, turns, 0, claimed) && |claimed| <= AttemptsLeft(rows, scope)
  }

  /** How the progress counts one ended upload. */
  function Counted(p: Progress, attempts: nat, turn: Turn): Progress {
    match turn.outcome
    case Uploaded(_) => p.(uploaded := p.uploaded + 1)
    case Skipped(_) => p.(skipped := p.skipped + 1)
    case Blocked => p.(blocked := true)
    case Raised(_, pauses, _) =>
      var p' := if Verdict(attempts, turn).value.GiveUp? then p.(failed := p.failed + 1)
                else p.(deferred := p.deferred + 1);
      if pauses then p'.(blocked := true) else p'
  }

  /** An upload is counted once, under how it ended; a blocked one only stops the run. */
  predicate CountDone(p: Progress, p': Progress, attempts: nat, turn: Turn) {
    && p'.uploaded == p.uploaded + (if turn.outcome.Uploaded? then 1 else 0)
    && p'.skipped == p.skipped + (if turn.outcome.Skipped? then 1 else 0)
    && p'.failed == p.failed + (if turn.outcome.Raised? && IsFinal(attempts, turn.outcome.retryable) then 1 else 0)
    && p'.deferred == p.deferred + (if turn.outcome.Raised? && !IsFinal(attempts, turn.outcome.retryable) then 1 else 0)
    && p'.blocked == (p.blocked || turn.outcome.Blocked? || (turn.outcome.Raised? && turn.outcome.pauses))
  }

  /** One more upload is counted. */
  ghost predicate CountsOne(p: Progress, p': Progress, turn: Turn) {
    exists attempts: nat :: CountDone(p, p', attempts, turn)
  }

  /** The progress as it was told, upload after upload. */
  ghost predicate Tells(start: Progress, p: Progress, turns: nat -> Turn, told: seq<Progress>, n: nat) {
    && |told| == n + 1 && told[0] == start && told[n] == p
    && forall k: nat :: k < n ==> CountsOne(told[k], told[k + 1], turns(k))
  }

  lemma TellsOneMore(start: Progress, p: Progress, p': Progress, attempts: nat, turns: nat -> Turn,
                     told: seq<Progress>, n: nat)
    requires Tells(start, p, turns, told, n) && CountDone(p, p', attempts, turns(n))
    ensures Tells(start, p', turns, told + [p'], n + 1)
  {
    var more := told + [p'];
    forall k: nat | k < n + 1
      ensures CountsOne(more[k], more[k + 1], turns(k))
    {
      if k < n { assert CountsOne(told[k], told[k + 1], turns(k)); }
    }
  }

  /** Every run from here continues the claims made into a run from the start. */
  ghost predicate Continues(was: Rows, rows: Rows, scope: Scope, owner: Owner, turns: nat -> Turn,
                            claimed: seq<Version>) {
    forall vs :: IsRun(rows, scope, owner, turns, |claimed|, vs) ==> IsRun(was, scope, owner, turns, 0, claimed + vs)
  }

  lemma NothingClaimedYet(rows: Rows, scope: Scope, owner: Owner, turns: nat -> Turn)
    ensures Continues(rows, rows, scope, owner, turns, [])
  {
    forall vs | IsRun(rows, scope, owner, turns, 0, vs)
      ensures IsRun(rows, scope, owner, turns, 0, [] + vs)
    {
      assert [] + vs == vs;
    }
  }

  lemma OneClaimOn(was: Rows, rows: Rows, scope: Scope, owner: Owner, turns: nat -> Turn, claimed: seq<Version>,
                   v: Version)
    requires Continues(was, rows, scope, owner, turns, claimed) && !Stops(turns(|claimed|).outcome)
    requires v in rows && IsNext(Expire(rows, scope, turns(|claimed|).claimedAt), scope, turns(|claimed|).claimedAt, v)
    ensures Continues(was, AfterTurn(rows, scope, owner, v, turns(|claimed|)), scope, owner, turns, claimed + [v])
  {
    var after, more := AfterTurn(rows, scope, owner, v, turns(|claimed|)), claimed + [v];
    forall vs | IsRun(after, scope, owner, turns, |more|, vs)
      ensures IsRun(was, scope, owner, turns, 0, more + vs)
    {
      assert IsRun(rows, scope, owner, turns, |claimed|, [v] + vs) by {
        OneMoreClaim(rows, scope, owner, turns, |claimed|, v, vs);
      }
      assert claimed + ([v] + vs) == more + vs;
    }
  }

  lemma Ends(was: Rows, rows: Rows, scope: Scope, owner: Owner, turns: nat -> Turn, claimed: seq<Version>,
             last: seq<Version>)
    requires RowsOk(was) && Continues(was, rows, scope, owner, turns, claimed)
    requires |last| == 1 ==> last[0] in rows && IsNext(Expire(rows, scope, turns(|claimed|).claimedAt), scope,
                                                       turns(|claimed|).claimedAt, last[0])
    requires |last| <= 1
    ensures IsRun(was, scope, owner, turns, 0, claimed + last) && |claimed + last| <= AttemptsLeft(was, scope)
    ensures claimed + [] == claimed
  {
    assert IsRun(rows, scope, owner, turns, |claimed|, last);
    ClaimsAreBounded(was, scope, owner, turns, 0, claimed + last);
  }

  lemma ExpireKeepsOk(rows: Rows, scope: Scope, now: int)
    requires RowsOk(rows)
    ensures RowsOk(Expire(rows, scope, now))
  {
  }
}
