/** The phone's leased transfer queue as a state machine over its two tables (mobile/src/queue.ts). Every
    transaction or single statement is one step; runs of the backup interleave freely. */
module TransferQueue {
  import opened Options
  import opened Sets

  type Version = string
  type Scope = string
  type Owner = string

  datatype State = Queued | Uploading | Retry | Complete | Failed

  datatype Row = Row(
    scope: Scope,
    localId: string,
    state: State,
    attempts: nat,
    retryAt: int,
    owner: Option<Owner>,
    leaseExpires: int,
    updatedAt: int,
    offset: int,
    fileSize: int)

  datatype Lock = Lock(owner: Owner, expires: int)

  type Rows = map<Version, Row>

  datatype Queue = Queue(rows: Rows, locks: map<Scope, Lock>)

  const TRANSFER_LEASE := 5 * 60 * 1000
  const RUN_LEASE := 5 * 60 * 1000
  const MAX_ATTEMPTS := 8

  // ---------------------------------------------------------------- enqueueing

  datatype Photo = Photo(version: Version, scope: Scope, localId: string, fileSize: int)

  datatype Enqueued = NewlyQueued | AlreadyPending | AlreadyComplete

  function Upserted(rows: Rows, p: Photo, now: int): Rows {
    if p.version !in rows then
      rows[p.version := Row(p.scope, p.localId, Queued, 0, 0, None, 0, now, 0, p.fileSize)]
    else
      var r := rows[p.version];
      if r.state.Complete? then rows
      else rows[p.version := r.(scope := p.scope, localId := p.localId, updatedAt := now,
                                fileSize := if p.fileSize > 0 then p.fileSize else r.fileSize)]
  }

  /** A completed record of an older version of the photo. */
  predicate Outdated(r: Row, version: Version, p: Photo) {
    r.scope == p.scope && r.localId == p.localId && version != p.version && r.state.Complete?
  }

  function Enqueue(rows: Rows, p: Photo, now: int): Rows {
    var upserted := Upserted(rows, p, now);
    map v | v in upserted && !Outdated(upserted[v], v, p) :: upserted[v]
  }

  // ---------------------------------------------------------------- the run lock

  function Unexpired(locks: map<Scope, Lock>, now: int): map<Scope, Lock> {
    map s | s in locks && locks[s].expires > now :: locks[s]
  }

  predicate CanAcquire(locks: map<Scope, Lock>, scope: Scope, owner: Owner, now: int) {
    scope !in locks || locks[scope].expires <= now || locks[scope].owner == owner
  }

  function Acquire(locks: map<Scope, Lock>, scope: Scope, owner: Owner, now: int): map<Scope, Lock> {
    var left := Unexpired(locks, now);
    if CanAcquire(locks, scope, owner, now) then left[scope := Lock(owner, now + RUN_LEASE)] else left
  }

  predicate HoldsRun(locks: map<Scope, Lock>, scope: Scope, owner: Owner) {
    scope in locks && locks[scope].owner == owner
  }

  /** renewBackupRun asks only for the owner: a lock that has run out but was not taken over is revived. */
  function Renew(locks: map<Scope, Lock>, scope: Scope, owner: Owner, now: int): map<Scope, Lock> {
    if HoldsRun(locks, scope, owner) then locks[scope := Lock(owner, now + RUN_LEASE)] else locks
  }

  function ReleaseLock(locks: map<Scope, Lock>, scope: Scope, owner: Owner): map<Scope, Lock> {
    map s | s in locks && !(s == scope && locks[s].owner == owner) :: locks[s]
  }

  // ---------------------------------------------------------------- claiming

  function BackToRetry(r: Row, now: int): Row {
    r.(state := Retry, owner := None, leaseExpires := 0, updatedAt := now)
  }

  function ReleaseRows(rows: Rows, scope: Scope, owner: Owner, now: int): Rows {
    map v | v in rows ::
      if rows[v].scope == scope && rows[v].state.Uploading? && rows[v].owner == Some(owner)
      then BackToRetry(rows[v], now) else rows[v]
  }

  predicate LeaseOver(r: Row, scope: Scope, now: int) {
    r.scope == scope && r.state.Uploading? && r.leaseExpires <= now
  }

  /** Leases that have run out, whoever held them. */
  function Expire(rows: Rows, scope: Scope, now: int): Rows {
    map v | v in rows :: if LeaseOver(rows[v], scope, now) then BackToRetry(rows[v], now) else rows[v]
  }

  predicate Candidate(r: Row, scope: Scope, now: int) {
    r.scope == scope && (r.state.Queued? || r.state.Retry?) && r.retryAt <= now
  }

  /** Retries first, then the longest untouched. */
  predicate Before(a: Row, b: Row) {
    (a.state.Retry? && !b.state.Retry?) || (a.state.Retry? == b.state.Retry? && a.updatedAt < b.updatedAt)
  }

  ghost predicate IsNext(rows: Rows, scope: Scope, now: int, v: Version) {
    && v in rows && Candidate(rows[v], scope, now)
    && forall w :: w in rows && Candidate(rows[w], scope, now) ==> !Before(rows[w], rows[v])
  }

  function Claimed(r: Row, owner: Owner, now: int): Row {
    r.(state := Uploading, owner := Some(owner), leaseExpires := now + TRANSFER_LEASE, updatedAt := now)
  }

  // ---------------------------------------------------------------- what a run writes to its row

  /** The updates a backup run makes, all of them under its own lease: bookkeeping, a longer lease, completion,
      a pause by policy, and the two ways a failure ends. */
  datatype Change =
    | Note(offset: int, fileSize: int)
    | Extend(expires: int)
    | Done(offset: int)
    | Pause(offset: int)
    | Defer(attempts: nat, retryAt: int)
    | GiveUp(attempts: nat)

  function Changed(r: Row, change: Change, now: int): Row {
    var t := r.(updatedAt := now);
    match change
    case Note(offset, fileSize) => t.(offset := offset, fileSize := fileSize)
    case Extend(expires) => t.(leaseExpires := expires)
    case Done(offset) => t.(state := Complete, offset := offset, attempts := 0, retryAt := 0, owner := None,
        leaseExpires := 0)
    case Pause(offset) => t.(state := Retry, offset := offset, retryAt := 0, owner := None, leaseExpires := 0)
    case Defer(attempts, retryAt) => t.(state := Retry, attempts := attempts, retryAt := retryAt, owner := None,
        leaseExpires := 0)
    case GiveUp(attempts) => t.(state := Failed, attempts := attempts, retryAt := 0, owner := None, leaseExpires := 0)
  }

  predicate Owns(rows: Rows, v: Version, owner: Owner) {
    v in rows && rows[v].owner == Some(owner)
  }

  /** updateTransfer with an owner: no row, or a row under another lease, is not changed. */
  function Update(rows: Rows, v: Version, owner: Owner, change: Change, now: int): Rows {
    if Owns(rows, v, owner) then rows[v := Changed(rows[v], change, now)] else rows
  }

  // ---------------------------------------------------------------- commands of the user

  function RetryFailed(rows: Rows, scope: Scope, now: int): Rows {
    map v | v in rows ::
      if rows[v].scope == scope && rows[v].state.Failed?
      then BackToRetry(rows[v], now).(attempts := 0, retryAt := 0) else rows[v]
  }

  predicate Cancellable(r: Row, scope: Scope) {
    r.scope == scope && (r.state.Queued? || r.state.Retry? || r.state.Failed?)
  }

  function CancelPending(rows: Rows, scope: Scope): Rows {
    map v | v in rows && !Cancellable(rows[v], scope) :: rows[v]
  }

  // ---------------------------------------------------------------- runs

  datatype Step =
    | EnqueueStep(photo: Photo)
    | AcquireStep(scope: Scope, owner: Owner)
    | RenewStep(scope: Scope, owner: Owner)
    | ReleaseLockStep(scope: Scope, owner: Owner)
    | ReleaseRowsStep(scope: Scope, owner: Owner)
    | ClaimStep(scope: Scope, owner: Owner, claimed: Option<Version>)
    | UpdateStep(version: Version, owner: Owner, change: Change)
    | RetryStep(scope: Scope)
    | CancelStep(scope: Scope)

  /** A claim takes a row that comes first, and none only when there is none; failures are counted up to the limit. */
  ghost predicate Enabled(q: Queue, step: Step, now: int) {
    match step
    case ClaimStep(scope, owner, claimed) =>
      var rows := Expire(q.rows, scope, now);
      if claimed.Some? then IsNext(rows, scope, now, claimed.value)
      else forall v :: v in rows ==> !Candidate(rows[v], scope, now)
    case UpdateStep(v, owner, change) => change.Defer? ==> change.attempts < MAX_ATTEMPTS
    case _ => true
  }

  function Next(q: Queue, step: Step, now: int): Queue {
    match step
    case EnqueueStep(p) => q.(rows := Enqueue(q.rows, p, now))
    case AcquireStep(scope, owner) => q.(locks := Acquire(q.locks, scope, owner, now))
    case RenewStep(scope, owner) => q.(locks := Renew(q.locks, scope, owner, now))
    case ReleaseLockStep(scope, owner) => q.(locks := ReleaseLock(q.locks, scope, owner))
    case ReleaseRowsStep(scope, owner) => q.(rows := ReleaseRows(q.rows, scope, owner, now))
    case ClaimStep(scope, owner, claimed) => q.(rows := ClaimRows(q.rows, scope, owner, claimed, now))
    case UpdateStep(v, owner, change) => q.(rows := Update(q.rows, v, owner, change, now))
    case RetryStep(scope) => q.(rows := RetryFailed(q.rows, scope, now))
    case CancelStep(scope) => q.(rows := CancelPending(q.rows, scope))
  }

  function ClaimRows(rows: Rows, scope: Scope, owner: Owner, claimed: Option<Version>, now: int): Rows {
    var left := Expire(rows, scope, now);
    if claimed.Some? && claimed.value in left then left[claimed.value := Claimed(left[claimed.value], owner, now)]
        else left
  }

  /** A step at its moment; clocks may jump. */
  datatype Event = Event(step: Step, now: int)

  ghost function Run(q: Queue, events: seq<Event>): Queue
    decreases |events|
  {
    if events == [] then q
    else
      var e := events[0];
      Run(if Enabled(q, e.step, e.now) then Next(q, e.step, e.now) else q, events[1..])
  }

  // ---------------------------------------------------------------- the invariant

  /** A row has a lease owner exactly while it is uploading, and an unfinished row has attempts left. */
  predicate RowOk(r: Row) {
    && (r.owner.Some? <==> r.state.Uploading?)
    && (r.state.Queued? || r.state.Retry? || r.state.Uploading? ==> r.attempts < MAX_ATTEMPTS)
  }

  ghost predicate Inv(q: Queue) {
    forall v :: v in q.rows ==> RowOk(q.rows[v])
  }

  lemma NextKeeps(q: Queue, step: Step, now: int)
    requires Inv(q) && Enabled(q, step, now)
    ensures Inv(Next(q, step, now))
  {
  }

  lemma {:induction false} LeaseExactlyWhileUploading(q: Queue, events: seq<Event>)
    requires Inv(q)
    ensures Inv(Run(q, events))
    decreases |events|
  {
    if events != [] {
      if Enabled(q, events[0].step, events[0].now) { NextKeeps(q, events[0].step, events[0].now); }
      LeaseExactlyWhileUploading(if Enabled(q, events[0].step, events[0].now) then Next(q, events[0].step,
          events[0].now) else q,
                                 events[1..]);
    }
  }

  /** The step files another version of the photo that the row is about. */
  predicate Replaces(step: Step, v: Version, r: Row) {
    step.EnqueueStep? && step.photo.version != v && step.photo.scope == r.scope && step.photo.localId == r.localId
  }

  ghost predicate NeverReplaced(events: seq<Event>, v: Version, r: Row) {
    forall k :: 0 <= k < |events| ==> !Replaces(events[k].step, v, r)
  }

  lemma CompleteStepKeeps(q: Queue, step: Step, now: int, v: Version)
    requires Inv(q) && v in q.rows && q.rows[v].state.Complete? && Enabled(q, step, now)
    ensures var q' := Next(q, step, now);
            if Replaces(step, v, q.rows[v]) then v !in q'.rows else v in q'.rows && q'.rows[v] == q.rows[v]
  {
  }

  /** A completed row is never claimed or changed again, by any run, command or scan. It goes only when another
      version of its photo is filed. */
  lemma {:induction false} CompleteRowsStay(q: Queue, events: seq<Event>, v: Version)
    requires Inv(q) && v in q.rows && q.rows[v].state.Complete? && NeverReplaced(events, v, q.rows[v])
    ensures v in Run(q, events).rows && Run(q, events).rows[v] == q.rows[v]
    decreases |events|
  {
    if events != [] {
      var q' := if Enabled(q, events[0].step, events[0].now) then Next(q, events[0].step, events[0].now) else q;
      if Enabled(q, events[0].step, events[0].now) {
        NextKeeps(q, events[0].step, events[0].now);
        CompleteStepKeeps(q, events[0].step, events[0].now, v);
      }
      assert forall k :: 0 <= k < |events[1..]| ==> events[1..][k] == events[k + 1];
      CompleteRowsStay(q', events[1..], v);
    }
  }

  /** The run that makes the step. */
  function Actor(step: Step): Option<Owner> {
    match step
    case AcquireStep(_, owner) => Some(owner)
    case RenewStep(_, owner) => Some(owner)
    case ReleaseLockStep(_, owner) => Some(owner)
    case ReleaseRowsStep(_, owner) => Some(owner)
    case ClaimStep(_, owner, _) => Some(owner)
    case UpdateStep(_, owner, _) => Some(owner)
    case _ => None
  }

  /** What a lease protects: everything the holder's next update relies on. */
  predicate SameLease(a: Row, b: Row) {
    && a.owner == b.owner && a.state == b.state && a.leaseExpires == b.leaseExpires
    && a.attempts == b.attempts && a.retryAt == b.retryAt && a.offset == b.offset
  }

  /** A step of another run or of nobody, and a claim only before `expires` by its own clock. */
  predicate Foreign(e: Event, holder: Owner, expires: int) {
    Actor(e.step) != Some(holder) && (e.step.ClaimStep? ==> e.now < expires)
  }

  lemma ForeignKeepsLease(q: Queue, e: Event, v: Version, holder: Owner)
    requires Inv(q) && Owns(q.rows, v, holder) && Enabled(q, e.step, e.now)
    requires Foreign(e, holder, q.rows[v].leaseExpires)
    ensures var rows := Next(q, e.step, e.now).rows; v in rows && SameLease(q.rows[v], rows[v])
  {
  }

  /** Whatever other runs, scans and commands of the user do, in any number and order, a row stays exactly as its
      holder left it as long as no claim is made after its lease has run out. */
  lemma {:induction false} LeaseIsExclusive(q: Queue, events: seq<Event>, v: Version, holder: Owner)
    requires Inv(q) && Owns(q.rows, v, holder)
    requires forall k :: 0 <= k < |events| ==> Foreign(events[k], holder, q.rows[v].leaseExpires)
    ensures var rows := Run(q, events).rows; v in rows && SameLease(q.rows[v], rows[v])
    decreases |events|
  {
    if events != [] {
      var e := events[0];
      var q' := if Enabled(q, e.step, e.now) then Next(q, e.step, e.now) else q;
      if Enabled(q, e.step, e.now) {
        NextKeeps(q, e.step, e.now);
        ForeignKeepsLease(q, e, v, holder);
      }
      LeaseIsExclusive(q', events[1..], v, holder);
    }
  }

  /** The bound on the clocks is exact: any claim of another run in the scope after that ends the lease. */
  lemma LateClaimEndsTheLease(q: Queue, step: Step, now: int, v: Version, holder: Owner)
    requires Inv(q) && Owns(q.rows, v, holder) && Enabled(q, step, now)
    requires step.ClaimStep? && step.owner != holder && step.scope == q.rows[v].scope
    ensures q.rows[v].leaseExpires <= now <==> !Owns(Next(q, step, now).rows, v, holder)
  {
    assert q.rows[v].state.Uploading?;
  }

  /** The holder does not release the lock, and nobody but the holder acquires a lock, of any scope, when this one
      has run out; acquiring clears every lock that has. */
  predicate KeepsRunLock(locks: map<Scope, Lock>, e: Event, scope: Scope, holder: Owner) {
    && e.step != ReleaseLockStep(scope, holder)
    && (e.step.AcquireStep? && (e.step.scope != scope || e.step.owner != holder) && scope in locks ==>
          e.now < locks[scope].expires)
  }

  ghost predicate AllKeepRunLock(q: Queue, events: seq<Event>, scope: Scope, holder: Owner)
    decreases |events|
  {
    events == [] ||
      (var e := events[0];
       && KeepsRunLock(q.locks, e, scope, holder)
       && AllKeepRunLock(if Enabled(q, e.step, e.now) then Next(q, e.step, e.now) else q, events[1..], scope, holder))
  }

  /** Exactly those steps leave the lock with its holder. */
  lemma RunLockPasses(q: Queue, e: Event, scope: Scope, holder: Owner)
    requires HoldsRun(q.locks, scope, holder) && Enabled(q, e.step, e.now)
    ensures HoldsRun(Next(q, e.step, e.now).locks, scope, holder) <==> KeepsRunLock(q.locks, e, scope, holder)
  {
  }

  /** One run at a time: over every run of the queue a lock stays with its holder as long as the holder does not
      release it and renews it before anybody else asks for a lock. */
  lemma {:induction false} RunLockIsExclusive(q: Queue, events: seq<Event>, scope: Scope, holder: Owner)
    requires HoldsRun(q.locks, scope, holder) && AllKeepRunLock(q, events, scope, holder)
    ensures HoldsRun(Run(q, events).locks, scope, holder)
    decreases |events|
  {
    if events != [] {
      var e := events[0];
      if Enabled(q, e.step, e.now) { RunLockPasses(q, e, scope, holder); }
      RunLockIsExclusive(if Enabled(q, e.step, e.now) then Next(q, e.step, e.now) else q, events[1..], scope, holder);
    }
  }

  // ---------------------------------------------------------------- how long the claim loop can go on

  /** A row that a claim may still take, now or once its lease has run out. */
  predicate Unfinished(r: Row, scope: Scope) {
    r.scope == scope && (r.state.Queued? || r.state.Retry? || r.state.Uploading?)
  }

  function Left(r: Row, scope: Scope): nat
    requires RowOk(r)
  {
    if Unfinished(r, scope) then MAX_ATTEMPTS - r.attempts else 0
  }

  ghost predicate RowsOk(rows: Rows) {
    forall v :: v in rows ==> RowOk(rows[v])
  }

  /** The attempts left in a set of rows. */
  ghost function AttemptsIn(rows: Rows, scope: Scope, vs: set<Version>): nat
    requires RowsOk(rows) && vs <= rows.Keys
  {
    if vs == {} then 0 else var v := Pick(vs); Left(rows[v], scope) + AttemptsIn(rows, scope, vs - {v})
  }

  /** All attempts left in a scope. */
  ghost function AttemptsLeft(rows: Rows, scope: Scope): nat
    requires RowsOk(rows)
  {
    AttemptsIn(rows, scope, rows.Keys)
  }

  lemma {:induction false} AttemptsSame(a: Rows, b: Rows, scope: Scope, vs: set<Version>)
    requires RowsOk(a) && RowsOk(b) && vs <= a.Keys && vs <= b.Keys
    requires forall v :: v in vs ==> Left(a[v], scope) == Left(b[v], scope)
    ensures AttemptsIn(a, scope, vs) == AttemptsIn(b, scope, vs)
  {
    if vs != {} { AttemptsSame(a, b, scope, vs - {Pick(vs)}); }
  }

  lemma {:induction false} AttemptsWithout(rows: Rows, scope: Scope, vs: set<Version>, v: Version)
    requires RowsOk(rows) && vs <= rows.Keys && v in vs
    ensures AttemptsIn(rows, scope, vs) == Left(rows[v], scope) + AttemptsIn(rows, scope, vs - {v})
  {
    var first := Pick(vs);
    if first != v {
      AttemptsWithout(rows, scope, vs - {first}, v);
      AttemptsWithout(rows, scope, vs - {v}, first);
      assert vs - {first} - {v} == vs - {v} - {first};
    }
  }

  /** An unfinished row has an attempt left. */
  lemma SomeAttemptLeft(rows: Rows, scope: Scope, v: Version)
    requires RowsOk(rows) && v in rows && Unfinished(rows[v], scope)
    ensures AttemptsLeft(rows, scope) >= 1
  {
    AttemptsWithout(rows, scope, rows.Keys, v);
  }

  /** Changing one row changes the attempts left by what that row has left. */
  lemma OneRowChanges(rows: Rows, scope: Scope, v: Version, r: Row)
    requires RowsOk(rows) && v in rows && RowOk(r)
    ensures AttemptsLeft(rows[v := r], scope) == AttemptsLeft(rows, scope) - Left(rows[v], scope) + Left(r, scope)
  {
    var after := rows[v := r];
    assert after.Keys == rows.Keys;
    AttemptsWithout(rows, scope, rows.Keys, v);
    AttemptsWithout(after, scope, rows.Keys, v);
    AttemptsSame(rows, after, scope, rows.Keys - {v});
  }

  /** Claiming costs no attempt. */
  lemma ClaimCostsNothing(rows: Rows, scope: Scope, owner: Owner, now: int, v: Version)
    requires RowsOk(rows) && IsNext(Expire(rows, scope, now), scope, now, v)
    ensures RowsOk(ClaimRows(rows, scope, owner, Some(v), now))
    ensures AttemptsLeft(ClaimRows(rows, scope, owner, Some(v), now), scope) == AttemptsLeft(rows, scope)
  {
    var left := Expire(rows, scope, now);
    assert left.Keys == rows.Keys;
    AttemptsSame(rows, left, scope, rows.Keys);
    OneRowChanges(left, scope, v, Claimed(left[v], owner, now));
  }
}
