/** How long rows and bytes stay, over every schedule of PathLocks: rows outlive their deadline, kept rows have
    their bytes, and the one way to lose them, which is a restore after the deadline
    (backend/app/services/lifecycle.py). */
module Retention {
  import opened Numbers
  import opened Options
  import opened PathLocks

  ghost function Step1(s: State, step: Step): State {
    if Enabled(s, step) then Next(s, step) else s
  }

  lemma StepKeepsSafe(s: State, step: Step)
    requires Safe(s)
    ensures Safe(Step1(s, step))
  {
    if Enabled(s, step) { NextKeeps(s, step); }
  }

  // ---------------------------------------------------------------- bytes

  predicate RowBacked(row: Row, files: set<Path>, now: int) {
    row.kind.AssetRow? && Kept(row.phase, now) ==> row.names <= files
  }

  /** Every asset row that may still be asked for has its bytes. */
  ghost predicate BytesThere(s: State) {
    && (forall r :: r in s.rows ==> RowBacked(s.rows[r], s.files, s.now))
    && (forall r :: r in s.writes && s.writes[r].Put? ==> RowBacked(s.writes[r].row, s.files, s.now))
  }

  /** The deadline of the restored row has not passed. The code does not check this. */
  ghost predicate Timely(s: State, step: Step) {
    step.Restore? && Enabled(s, step) ==> Seen(s, step.t, step.r).phase.purgeAfter > s.now
  }

  lemma UnlinkKeepsBytes(s: State, t: Tid, p: Path)
    requires Safe(s) && BytesThere(s) && Enabled(s, Unlink(t, p))
    ensures BytesThere(Next(s, Unlink(t, p)))
  {
    assert Free(s, p, t);
  }

  lemma PutKeepsBytes(s: State, t: Tid, r: RowId, row: Row)
    requires BytesThere(s) && RowBacked(row, s.files, s.now)
    ensures BytesThere(PutRow(s, t, r, row))
  {
  }

  lemma RewriteKeepsBytes(s: State, t: Tid, r: RowId, row: Row)
    requires BytesThere(s) && Visible(s, t, r) && row.kind == Seen(s, t, r).kind && row.names == Seen(s, t, r).names
    requires Kept(row.phase, s.now) ==> Kept(Seen(s, t, r).phase, s.now)
    ensures BytesThere(PutRow(s, t, r, row))
  {
    PutKeepsBytes(s, t, r, row);
  }

  lemma EndKeepsBytes(s: State, t: Tid)
    requires BytesThere(s)
    ensures BytesThere(Next(s, Commit(t))) && BytesThere(Next(s, Abort(t)))
  {
  }

  lemma LifecycleKeepsBytes(s: State, step: Step)
    requires BytesThere(s) && Enabled(s, step) && Timely(s, step)
    requires step.Trash? || step.Restore? || step.Condemn? || step.BeginPurge?
    ensures BytesThere(Next(s, step))
  {
    match step
    case Trash(t, r, days) =>
      RewriteKeepsBytes(s, t, r, Seen(s, t, r).(phase := Trashed(s.now, s.now + days * SECONDS_PER_DAY)));
    case Restore(t, r) => RewriteKeepsBytes(s, t, r, Seen(s, t, r).(phase := Live));
    case Condemn(t, r) => RewriteKeepsBytes(s, t, r, Seen(s, t, r).(phase := Purging(s.now)));
    case BeginPurge(t, r) =>
      RewriteKeepsBytes(Doom(s, t, r), t, r, s.rows[r].(phase := Purging(s.rows[r].phase.purgeAfter)));
  }

  lemma PublishKeepsBytes(s: State, step: Step)
    requires BytesThere(s) && Enabled(s, step) && (step.Insert? || step.Rename? || step.Clone? || step.Adopt?)
    ensures BytesThere(Next(s, step))
  {
    match step
    case Insert(t, r, row) => PutKeepsBytes(s, t, r, row);
    case Rename(t, r, names) => PutKeepsBytes(s, t, r, Seen(s, t, r).(names := names));
    case Clone(t, source, r) => PutKeepsBytes(s, t, r, Seen(s, t, source));
    case Adopt(t, r, p) => PutKeepsBytes(s, t, r, Adopted(Seen(s, t, r), p));
  }

  lemma StepKeepsBytes(s: State, step: Step)
    requires Safe(s) && BytesThere(s) && Timely(s, step)
    ensures BytesThere(Step1(s, step))
  {
    if Enabled(s, step) {
      if step.Unlink? {
        UnlinkKeepsBytes(s, step.t, step.p);
      } else if step.Insert? || step.Rename? || step.Clone? || step.Adopt? {
        PublishKeepsBytes(s, step);
      } else if step.Trash? || step.Restore? || step.Condemn? || step.BeginPurge? {
        LifecycleKeepsBytes(s, step);
      } else if step.Commit? || step.Abort? {
        EndKeepsBytes(s, step.t);
      }
    }
  }

  ghost predicate AllTimely(s: State, steps: seq<Step>)
    decreases |steps|
  {
    steps == [] || (Timely(s, steps[0]) && AllTimely(Step1(s, steps[0]), steps[1..]))
  }

  /** While nobody restores a revision whose deadline has passed, every live revision and every revision still
      inside its retention has all its bytes, under every interleaving, crash and retry. */
  lemma {:induction false} KeptRowsHaveBytes(s: State, steps: seq<Step>)
    requires Safe(s) && BytesThere(s) && AllTimely(s, steps)
    ensures Safe(Run(s, steps)) && BytesThere(Run(s, steps))
    decreases |steps|
  {
    if steps != [] {
      StepKeepsSafe(s, steps[0]);
      StepKeepsBytes(s, steps[0]);
      KeptRowsHaveBytes(Step1(s, steps[0]), steps[1..]);
    }
  }

  /** So a restore that is in time finds the bytes. */
  lemma RestoreInTimeFindsBytes(start: State, steps: seq<Step>, t: Tid, r: RowId)
    requires Idle(start) && BytesThere(start) && AllTimely(start, steps + [Restore(t, r)])
    requires Enabled(Run(start, steps), Restore(t, r))
    ensures var s := Run(start, steps); Seen(s, t, r).names <= s.files
  {
    AllTimelySplits(start, steps, Restore(t, r));
    KeptRowsHaveBytes(start, steps);
  }

  lemma {:induction false} AllTimelySplits(s: State, steps: seq<Step>, last: Step)
    requires AllTimely(s, steps + [last])
    ensures AllTimely(s, steps) && Timely(Run(s, steps), last)
    decreases |steps|
  {
    if steps != [] {
      assert (steps + [last])[1..] == steps[1..] + [last];
      AllTimelySplits(Step1(s, steps[0]), steps[1..], last);
    }
  }

  // ---------------------------------------------------------------- the late restore

  /** A purge of the row that dies between its unlink and its commit. */
  function CrashedPurge(t: Tid, r: RowId, p: Path): seq<Step> {
    [LockRow(t, r), BeginPurge(t, r), LockPath(t, p), Check(t, p), Unlink(t, p), Abort(t)]
  }

  function RestoreRequest(t: Tid, r: RowId): seq<Step> {
    [LockRow(t, r), Restore(t, r), Commit(t)]
  }

  ghost predicate OnlyNamedBy(s: State, p: Path, r: RowId) {
    && r in s.rows && s.rows[r].kind.AssetRow? && p in s.rows[r].names
    && forall q :: q in s.rows ==> s.rows[q].external != Some(p) && (p in s.rows[q].names ==> q == r)
  }

  lemma RunFirst(s: State, steps: seq<Step>)
    requires steps != []
    ensures Run(s, steps) == Run(Step1(s, steps[0]), steps[1..])
  {
  }

  /** The state in which transaction `t` has rewritten the one row `r`. */
  predicate Rewriting(s: State, s': State, t: Tid, r: RowId) {
    && s'.rows == s.rows && s'.now == s.now && s'.files == s.files && s'.used == s.used && s'.cleared == {}
    && s'.writes.Keys == {r} && s'.writes[r].tid == t && s'.rowLock == map[r := t]
  }

  lemma PurgeBegins(s: State, t: Tid, r: RowId, rest: seq<Step>) returns (s': State)
    requires Idle(s) && r in s.rows && s.rows[r].kind.AssetRow? && Due(s.rows[r].phase, s.now)
    ensures Run(s, [LockRow(t, r), BeginPurge(t, r)] + rest) == Run(s', rest)
    ensures Rewriting(s, s', t, r) && s'.pathLock == map[] && s'.doomed == {(r, t)}
    ensures s'.writes[r] == Put(t, s.rows[r].(phase := Purging(s.rows[r].phase.purgeAfter)))
  {
    var steps := [LockRow(t, r), BeginPurge(t, r)] + rest;
    RunFirst(s, steps);
    var s1 := Next(s, LockRow(t, r));
    assert steps[1..] == [BeginPurge(t, r)] + rest;
    RunFirst(s1, steps[1..]);
    s' := Next(s1, BeginPurge(t, r));
    assert steps[1..][1..] == rest;
  }

  lemma LockThenCheck(s: State, t: Tid, p: Path, rest: seq<Step>) returns (s': State)
    requires p !in s.pathLock
    ensures Run(s, [LockPath(t, p)] + rest) == Run(s', rest)
    ensures s' == s.(pathLock := s.pathLock[p := t])
  {
    RunFirst(s, [LockPath(t, p)] + rest);
    s' := Next(s, LockPath(t, p));
    assert ([LockPath(t, p)] + rest)[1..] == rest;
  }

  lemma CheckPasses(s: State, s': State, t: Tid, r: RowId, p: Path)
    requires Idle(s) && OnlyNamedBy(s, p, r) && Rewriting(s, s', t, r)
    requires s'.pathLock == map[p := t] && s'.doomed == {(r, t)}
    requires s'.writes[r].Put? && s'.writes[r].row.external == s.rows[r].external
    ensures Enabled(s', Check(t, p))
  {
    assert Unreferenced(s', t, p);
  }

  lemma PurgePrefix(s: State, t: Tid, r: RowId, p: Path) returns (s': State)
    requires Idle(s) && OnlyNamedBy(s, p, r) && Due(s.rows[r].phase, s.now)
    ensures Run(s, CrashedPurge(t, r, p)) == Run(s', [Check(t, p), Unlink(t, p), Abort(t)])
    ensures Enabled(s', Check(t, p))
    ensures Rewriting(s, s', t, r) && s'.pathLock == map[p := t] && s'.doomed == {(r, t)}
  {
    var rest := [LockPath(t, p), Check(t, p), Unlink(t, p), Abort(t)];
    assert CrashedPurge(t, r, p) == [LockRow(t, r), BeginPurge(t, r)] + rest;
    var s2 := PurgeBegins(s, t, r, rest);
    s' := LockThenCheck(s2, t, p, [Check(t, p), Unlink(t, p), Abort(t)]);
    assert [LockPath(t, p)] + [Check(t, p), Unlink(t, p), Abort(t)] == rest;
    CheckPasses(s, s', t, r, p);
  }

  lemma AbortEnds(s: State, s': State, t: Tid, r: RowId)
    requires Idle(s) && s'.rows == s.rows && s'.now == s.now && s'.used == s.used
    requires s'.writes.Keys == {r} && s'.writes[r].tid == t && s'.rowLock == map[r := t]
    requires forall p :: p in s'.pathLock ==> s'.pathLock[p] == t
    requires (forall d :: d in s'.doomed ==> d.1 == t) && (forall c :: c in s'.cleared ==> c.1 == t)
    ensures Ended(s', t) == s.(files := s'.files)
  {
    var e := Ended(s', t);
    assert e.writes == map[] && e.pathLock == map[] && e.rowLock == map[];
    assert e.doomed == {} && e.cleared == {};
  }

  lemma CheckAndUnlink(s: State, t: Tid, p: Path) returns (s': State)
    requires Enabled(s, Check(t, p)) && s.cleared == {}
    ensures Run(s, [Check(t, p), Unlink(t, p), Abort(t)]) == Run(s', [Abort(t)])
    ensures s' == s.(files := s.files - {p}, cleared := {(p, t)})
  {
    var steps := [Check(t, p), Unlink(t, p), Abort(t)];
    RunFirst(s, steps);
    var s1 := Next(s, Check(t, p));
    assert steps[1..] == [Unlink(t, p), Abort(t)];
    RunFirst(s1, steps[1..]);
    s' := Next(s1, Unlink(t, p));
    assert steps[1..][1..] == [Abort(t)];
  }

  lemma AbortRuns(s: State, t: Tid)
    ensures Run(s, [Abort(t)]) == Ended(s, t)
  {
    RunFirst(s, [Abort(t)]);
  }

  /** The crashed purge leaves every row as it was, and the bytes gone. */
  lemma CrashedPurgeLosesBytes(s: State, t: Tid, r: RowId, p: Path)
    requires Idle(s) && OnlyNamedBy(s, p, r) && Due(s.rows[r].phase, s.now)
    ensures Run(s, CrashedPurge(t, r, p)) == s.(files := s.files - {p})
  {
    var s3 := PurgePrefix(s, t, r, p);
    var s5 := CheckAndUnlink(s3, t, p);
    AbortRuns(s5, t);
    AbortEnds(s, s5, t, r);
  }

  lemma RestoreBegins(s: State, t: Tid, r: RowId) returns (s': State)
    requires Idle(s) && r in s.rows && s.rows[r].kind.AssetRow? && s.rows[r].phase.Trashed?
    ensures Run(s, RestoreRequest(t, r)) == Run(s', [Commit(t)])
    ensures Rewriting(s, s', t, r) && s'.pathLock == map[] && s'.doomed == {}
    ensures s'.writes[r] == Put(t, s.rows[r].(phase := Live))
  {
    var steps := RestoreRequest(t, r);
    RunFirst(s, steps);
    var s1 := Next(s, LockRow(t, r));
    assert steps[1..] == [Restore(t, r), Commit(t)];
    RunFirst(s1, steps[1..]);
    s' := Next(s1, Restore(t, r));
    assert steps[1..][1..] == [Commit(t)];
  }

  lemma RestoreSucceeds(s: State, t: Tid, r: RowId)
    requires Idle(s) && r in s.rows && s.rows[r].kind.AssetRow? && s.rows[r].phase.Trashed?
    ensures Run(s, RestoreRequest(t, r)) == s.(rows := s.rows[r := s.rows[r].(phase := Live)])
  {
    var s2 := RestoreBegins(s, t, r);
    RunFirst(s2, [Commit(t)]);
    var s3 := Next(s2, Commit(t));
    assert s3.rows == s.rows[r := s.rows[r].(phase := Live)];
    AbortEnds(s, s2, t, r);
    assert s3 == Ended(s2, t).(rows := s3.rows);
  }

  /** The condition is exact: from the moment the deadline of a trashed revision has passed, there is a
      schedule, one crashed purge, after which a restore succeeds and the live revision has lost an object that
      only it named. */
  lemma LateRestoreMayLoseBytes(s: State, t: Tid, u: Tid, r: RowId, p: Path)
    requires Idle(s) && OnlyNamedBy(s, p, r) && s.rows[r].phase.Trashed? && Due(s.rows[r].phase, s.now)
    ensures var s' := Run(Run(s, CrashedPurge(t, r, p)), RestoreRequest(u, r));
            && r in s'.rows && s'.rows[r] == s.rows[r].(phase := Live)
            && p in s'.rows[r].names && p !in s'.files
            && !BytesThere(s')
  {
    CrashedPurgeLosesBytes(s, t, r, p);
    RestoreSucceeds(Run(s, CrashedPurge(t, r, p)), u, r);
    var s' := Run(Run(s, CrashedPurge(t, r, p)), RestoreRequest(u, r));
    assert !RowBacked(s'.rows[r], s'.files, s'.now);
  }

  // ---------------------------------------------------------------- the repointed replica

  /** A transaction that gives replica row `r` the object `q`, collects its old object `p`, and dies. */
  function AbortedRepointing(t: Tid, r: RowId, p: Path, q: Path): seq<Step> {
    Repointing(t, r, q) + ([LockPath(t, p)] + [Check(t, p), Unlink(t, p), Abort(t)])
  }

  function Repointing(t: Tid, r: RowId, q: Path): seq<Step> {
    [LockPath(t, q), WriteBytes(t, q), LockRow(t, r), Rename(t, r, {q})]
  }

  /** The only row that names `p` is a replica row. */
  ghost predicate OnlyReplicaNames(s: State, p: Path, r: RowId) {
    && r in s.rows && s.rows[r].kind.ReplicaRow? && s.rows[r].phase.Live? && s.rows[r].names == {p}
    && s.rows[r].external.None?
    && forall a :: a in s.rows ==> s.rows[a].external != Some(p) && (p in s.rows[a].names ==> a == r)
  }

  lemma RunTwo(s: State, s': State, s'': State, a: Step, b: Step, rest: seq<Step>)
    requires Enabled(s, a) && s' == Next(s, a) && Enabled(s', b) && s'' == Next(s', b)
    ensures Run(s, [a, b] + rest) == Run(s'', rest)
  {
    var steps := [a, b] + rest;
    RunFirst(s, steps);
    assert steps[1..] == [b] + rest;
    RunFirst(s', steps[1..]);
    assert steps[1..][1..] == rest;
  }

  lemma WritingRuns(s: State, t: Tid, q: Path, rest: seq<Step>) returns (s': State)
    requires Idle(s)
    ensures Run(s, [LockPath(t, q), WriteBytes(t, q)] + rest) == Run(s', rest)
    ensures s' == s.(pathLock := map[q := t], files := s.files + {q})
  {
    var s1 := Next(s, LockPath(t, q));
    s' := Next(s1, WriteBytes(t, q));
    RunTwo(s, s1, s', LockPath(t, q), WriteBytes(t, q), rest);
  }

  lemma RenamingRuns(s: State, t: Tid, r: RowId, q: Path, rest: seq<Step>) returns (s': State)
    requires s.writes == map[] && s.rowLock == map[] && s.doomed == {} && s.cleared == {} && s.rows.Keys <= s.used
    requires r in s.rows && s.rows[r].kind.ReplicaRow? && s.rows[r].phase.Live? && OwnsPath(s, t, q) && q in s.files
    ensures Run(s, [LockRow(t, r), Rename(t, r, {q})] + rest) == Run(s', rest)
    ensures s' == s.(rowLock := map[r := t], writes := map[r := Put(t, s.rows[r].(names := {q}))])
  {
    var s1 := Next(s, LockRow(t, r));
    s' := Next(s1, Rename(t, r, {q}));
    RunTwo(s, s1, s', LockRow(t, r), Rename(t, r, {q}), rest);
  }

  lemma RepointingRuns(s: State, t: Tid, r: RowId, q: Path, rest: seq<Step>) returns (s': State)
    requires Idle(s) && r in s.rows && s.rows[r].kind.ReplicaRow? && s.rows[r].phase.Live?
    ensures Run(s, Repointing(t, r, q) + rest) == Run(s', rest)
    ensures s' == s.(pathLock := map[q := t], files := s.files + {q}, rowLock := map[r := t],
                     writes := map[r := Put(t, s.rows[r].(names := {q}))])
  {
    var last := [LockRow(t, r), Rename(t, r, {q})] + rest;
    assert Repointing(t, r, q) + rest == [LockPath(t, q), WriteBytes(t, q)] + last;
    var s2 := WritingRuns(s, t, q, last);
    s' := RenamingRuns(s2, t, r, q, rest);
  }

  /** A transaction that writes an object and files a row for it. */
  function Publishing(t: Tid, r: RowId, row: Row, p: Path): seq<Step> {
    [LockPath(t, p), WriteBytes(t, p)] + ([Insert(t, r, row), Commit(t)] + [])
  }

  /** Undisturbed, it leaves the object and the row. */
  lemma PublishingSucceeds(s: State, t: Tid, r: RowId, row: Row, p: Path)
    requires Idle(s) && r !in s.used && row.phase.Live? && row.names == {p} && row.external == None
    ensures Run(s, Publishing(t, r, row, p))
            == s.(files := s.files + {p}, rows := s.rows[r := row], used := s.used + {r})
  {
    var s2 := WritingRuns(s, t, p, [Insert(t, r, row), Commit(t)] + []);
    var s3 := s2.(writes := map[r := Put(t, row)], rowLock := map[r := t], used := s.used + {r});
    assert s3 == Next(s2, Insert(t, r, row));
    RunTwo(s2, s3, Next(s3, Commit(t)), Insert(t, r, row), Commit(t), []);
    PutCommit(s, s3, t, r, row);
  }

  /** A purge of the row that runs to its commit. */
  function WholePurge(t: Tid, r: RowId, p: Path): seq<Step> {
    [LockRow(t, r), BeginPurge(t, r)]
    + ([LockPath(t, p)] + ([Check(t, p), Unlink(t, p)] + ([DropRow(t, r), Commit(t)] + [])))
  }

  /** Undisturbed and due, it removes the row and the object that only the row named. */
  lemma WholePurgeSucceeds(s: State, t: Tid, r: RowId, p: Path)
    requires Idle(s) && OnlyNamedBy(s, p, r) && Due(s.rows[r].phase, s.now)
    ensures Run(s, WholePurge(t, r, p)) == s.(files := s.files - {p}, rows := s.rows - {r})
  {
    var last := [DropRow(t, r), Commit(t)] + [];
    var s2 := PurgeBegins(s, t, r, [LockPath(t, p)] + ([Check(t, p), Unlink(t, p)] + last));
    var s3 := LockThenCheck(s2, t, p, [Check(t, p), Unlink(t, p)] + last);
    CheckPasses(s, s3, t, r, p);
    var s5 := Next(Next(s3, Check(t, p)), Unlink(t, p));
    RunTwo(s3, Next(s3, Check(t, p)), s5, Check(t, p), Unlink(t, p), last);
    DropsRow(s, s5, t, r, p);
  }

  lemma DropsRow(s: State, s': State, t: Tid, r: RowId, p: Path)
    requires Idle(s) && r in s.rows && s'.rows == s.rows && s'.now == s.now && s'.used == s.used
    requires s'.files == s.files - {p} && s'.writes.Keys == {r} && s'.writes[r].tid == t
    requires s'.rowLock == map[r := t] && s'.pathLock == map[p := t]
    requires s'.doomed == {(r, t)} && s'.cleared == {(p, t)}
    ensures Run(s', [DropRow(t, r), Commit(t)] + []) == s.(files := s.files - {p}, rows := s.rows - {r})
  {
    var s1 := s'.(writes := map[r := Drop(t)]);
    DropIsEnabled(s', s1, t, r);
    DroppedCommit(s, s1, t, r);
    RunTwo(s', s1, s.(files := s.files - {p}, rows := s.rows - {r}), DropRow(t, r), Commit(t), []);
  }

  lemma DropIsEnabled(s: State, s': State, t: Tid, r: RowId)
    requires r in s.rows && s.writes.Keys == {r} && s.writes[r].tid == t && s.rowLock == map[r := t]
    requires (r, t) in s.doomed && s' == s.(writes := map[r := Drop(t)])
    ensures Enabled(s, DropRow(t, r)) && Next(s, DropRow(t, r)) == s'
  {
    assert s.writes[r := Drop(t)] == map[r := Drop(t)];
  }

  lemma DroppedCommit(s: State, s1: State, t: Tid, r: RowId)
    requires Idle(s) && r in s.rows && s1.rows == s.rows && s1.now == s.now && s1.used == s.used
    requires s1.writes == map[r := Drop(t)] && s1.rowLock == map[r := t]
    requires forall p :: p in s1.pathLock ==> s1.pathLock[p] == t
    requires (forall d :: d in s1.doomed ==> d.1 == t) && (forall c :: c in s1.cleared ==> c.1 == t)
    ensures Next(s1, Commit(t)) == s.(files := s1.files, rows := s.rows - {r})
  {
    AbortEnds(s, s1, t, r);
    assert Committed(s1, t) == s.rows - {r};
  }

  lemma PutCommit(s: State, s1: State, t: Tid, r: RowId, row: Row)
    requires Idle(s) && s1.rows == s.rows && s1.now == s.now
    requires s1.writes == map[r := Put(t, row)] && s1.rowLock == map[r := t]
    requires forall p :: p in s1.pathLock ==> s1.pathLock[p] == t
    requires s1.doomed == {} && s1.cleared == {} && s1.used == s.used + {r}
    ensures Next(s1, Commit(t)) == s.(files := s1.files, used := s1.used, rows := s.rows[r := row])
  {
    AbortEnds(s.(used := s1.used), s1, t, r);
    assert Committed(s1, t) == s.rows[r := row];
  }

  /** Why the collector's freedom has its one exception: the check does not see the committed version of a row that
      the transaction has repointed, so when the transaction dies after the unlink, that row is back and names an
      object that is gone. */
  lemma AbortedRepointingLosesTheObject(s: State, t: Tid, r: RowId, p: Path, q: Path)
    requires Idle(s) && OnlyReplicaNames(s, p, r) && p != q
    ensures var s' := Run(s, AbortedRepointing(t, r, p, q));
            s' == s.(files := s.files + {q} - {p}) && p in s'.rows[r].names && p !in s'.files
  {
    var s4 := RepointingRuns(s, t, r, q, [LockPath(t, p)] + [Check(t, p), Unlink(t, p), Abort(t)]);
    var s5 := LockThenCheck(s4, t, p, [Check(t, p), Unlink(t, p), Abort(t)]);
    RepointedCheckPasses(s, s5, t, r, p, q);
    var s7 := CheckAndUnlink(s5, t, p);
    AbortRuns(s7, t);
    AbortEnds(s, s7, t, r);
  }

  lemma RepointedCheckPasses(s: State, s': State, t: Tid, r: RowId, p: Path, q: Path)
    requires Idle(s) && OnlyReplicaNames(s, p, r) && p != q && s'.rows == s.rows
    requires OwnsPath(s', t, p) && s'.writes == map[r := Put(t, s.rows[r].(names := {q}))] && s'.doomed == {}
    ensures Enabled(s', Check(t, p)) && Repointed(s', t, r) && !RepointedElsewhere(Next(s', Check(t, p)), t, p)
  {
    var s'' := Next(s', Check(t, p));
    assert s''.doomed == s'.doomed && Repointed(s'', t, r);
  }

  // ---------------------------------------------------------------- deadlines

  /** The phase allows no removal before `due`, now or after a later trash. */
  predicate Lasting(phase: Phase, due: int, now: int) {
    if phase.Live? then due <= now + SECONDS_PER_DAY else phase.purgeAfter >= due
  }

  /** Until `due` the row is in the catalogue and nobody is collecting it. */
  ghost predicate Retained(s: State, r: RowId, due: int) {
    s.now < due ==>
      && r in s.rows && s.rows[r].kind.AssetRow? && Lasting(s.rows[r].phase, due, s.now)
      && (r in s.writes ==>
            s.writes[r].Put? && s.writes[r].row.kind.AssetRow? && Lasting(s.writes[r].row.phase, due, s.now))
      && (forall t :: (r, t) !in s.doomed)
  }

  lemma PutRetains(s: State, t: Tid, q: RowId, row: Row, r: RowId, due: int)
    requires Retained(s, r, due)
    requires q == r && s.now < due ==> row.kind.AssetRow? && Lasting(row.phase, due, s.now)
    ensures Retained(PutRow(s, t, q, row), r, due)
  {
  }

  lemma RewriteRetains(s: State, step: Step, r: RowId, due: int)
    requires Safe(s) && Retained(s, r, due) && Enabled(s, step)
    requires step.Insert? || step.Rename? || step.Clone? || step.Adopt?
    ensures Retained(Next(s, step), r, due)
  {
    match step
    case Insert(t, q, row) => PutRetains(s, t, q, row, r, due);
    case Rename(t, q, names) => PutRetains(s, t, q, Seen(s, t, q).(names := names), r, due);
    case Clone(t, source, q) => PutRetains(s, t, q, Seen(s, t, source), r, due);
    case Adopt(t, q, p) => PutRetains(s, t, q, Adopted(Seen(s, t, q), p), r, due);
  }

  lemma PhaseRetains(s: State, step: Step, r: RowId, due: int)
    requires Safe(s) && Retained(s, r, due) && Enabled(s, step)
    requires step.Trash? || step.Restore? || step.Condemn? || step.BeginPurge?
    requires step.Condemn? ==> step.r != r
    requires step.Restore? ==> due <= s.now + SECONDS_PER_DAY || step.r != r
    ensures Retained(Next(s, step), r, due)
  {
    match step
    case Trash(t, q, days) =>
      PutRetains(s, t, q, Seen(s, t, q).(phase := Trashed(s.now, s.now + days * SECONDS_PER_DAY)), r, due);
    case Restore(t, q) => PutRetains(s, t, q, Seen(s, t, q).(phase := Live), r, due);
    case Condemn(t, q) => PutRetains(s, t, q, Seen(s, t, q).(phase := Purging(s.now)), r, due);
    case BeginPurge(t, q) =>
      PutRetains(Doom(s, t, q), t, q, s.rows[q].(phase := Purging(s.rows[q].phase.purgeAfter)), r, due);
  }

  lemma StepRetains(s: State, step: Step, r: RowId, due: int)
    requires Safe(s) && Retained(s, r, due)
    requires step.Condemn? ==> step.r != r
    requires step.Restore? ==> due <= s.now + SECONDS_PER_DAY || step.r != r
    ensures Retained(Step1(s, step), r, due)
    ensures Step1(s, step).now >= s.now
  {
    if Enabled(s, step) {
      if step.Insert? || step.Rename? || step.Clone? || step.Adopt? {
        RewriteRetains(s, step, r, due);
      } else if step.Trash? || step.Restore? || step.Condemn? || step.BeginPurge? {
        PhaseRetains(s, step, r, due);
      }
    }
  }

  ghost predicate NeverCondemned(steps: seq<Step>, r: RowId) {
    forall k :: 0 <= k < |steps| ==> !(steps[k].Condemn? && steps[k].r == r)
  }

  ghost predicate NoneRestores(steps: seq<Step>, r: RowId) {
    forall k :: 0 <= k < |steps| ==> !(steps[k].Restore? && steps[k].r == r)
  }

  /** Retention: unless the deletion of its own account takes the revision, a live one is in the catalogue for at
      least another day, and one in the trash until its deadline if it is left there, whatever else happens
      meanwhile, the deletion of other accounts included. */
  lemma {:induction false} NotRemovedEarly(s: State, steps: seq<Step>, r: RowId, due: int)
    requires Safe(s) && Retained(s, r, due)
    requires NeverCondemned(steps, r) && (due <= s.now + SECONDS_PER_DAY || NoneRestores(steps, r))
    ensures Retained(Run(s, steps), r, due)
    decreases |steps|
  {
    if steps != [] {
      StepKeepsSafe(s, steps[0]);
      StepRetains(s, steps[0], r, due);
      assert forall k :: 0 <= k < |steps[1..]| ==> steps[1..][k] == steps[k + 1];
      NotRemovedEarly(Step1(s, steps[0]), steps[1..], r, due);
    }
  }

  /** The row is being purged, or gone for good. */
  ghost predicate Leaving(s: State, r: RowId) {
    && r in s.used
    && (r in s.rows ==> s.rows[r].kind.AssetRow? && s.rows[r].phase.Purging?)
    && (r in s.writes && s.writes[r].Put? ==> s.writes[r].row.phase.Purging?)
    && (r !in s.rows ==> r !in s.writes)
  }

  lemma PutLeaves(s: State, t: Tid, q: RowId, row: Row, r: RowId)
    requires Leaving(s, r) && (q == r ==> r in s.rows && row.phase.Purging?)
    ensures Leaving(PutRow(s, t, q, row), r)
  {
  }

  lemma RewriteLeaves(s: State, step: Step, r: RowId)
    requires Safe(s) && Leaving(s, r) && Enabled(s, step)
    requires step.Insert? || step.Rename? || step.Clone? || step.Adopt?
    ensures Leaving(Next(s, step), r)
  {
    match step
    case Insert(t, q, row) => PutLeaves(s, t, q, row, r);
    case Rename(t, q, names) => PutLeaves(s, t, q, Seen(s, t, q).(names := names), r);
    case Clone(t, source, q) => PutLeaves(s, t, q, Seen(s, t, source), r);
    case Adopt(t, q, p) => PutLeaves(s, t, q, Adopted(Seen(s, t, q), p), r);
  }

  lemma StepLeaves(s: State, step: Step, r: RowId)
    requires Safe(s) && Leaving(s, r)
    ensures Leaving(Step1(s, step), r)
  {
    if Enabled(s, step) && (step.Insert? || step.Rename? || step.Clone? || step.Adopt?) {
      RewriteLeaves(s, step, r);
    }
  }

  /** Purging is never reversed. */
  lemma {:induction false} PurgingIsFinal(s: State, steps: seq<Step>, r: RowId)
    requires Safe(s) && Leaving(s, r)
    ensures Leaving(Run(s, steps), r)
    decreases |steps|
  {
    if steps != [] {
      StepKeepsSafe(s, steps[0]);
      StepLeaves(s, steps[0], r);
      PurgingIsFinal(Step1(s, steps[0]), steps[1..], r);
    }
  }
}
