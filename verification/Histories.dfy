/** Whole runs: journal requests mixed with uploads, trash, restore, rollback, purge and staged account
    deletion, in any order, and what holds at the end of every run. */
module Histories {
  import opened Options
  import opened Catalog
  import opened Journal
  import opened JournalInvariants
  import opened JournalRuns
  import opened Revisions

  /** Every committed transaction the catalogue and the journal share. */
  datatype Step =
    | Register(user: UserId)
    | AddRoot(root: RootId, user: UserId)
    | Ingest(user: UserId, logical: LogicalId, checksum: string)
    | Push(root: RootId, client: string, inputs: seq<Input>, env: Env)
    | ResolveConflict(conflict: ConflictId, choice: Choice, env: Env)
    | TrashAsset(asset: AssetId, env: Env)
    | RestoreAsset(asset: AssetId)
    | RollbackAsset(current: AssetId, target: AssetId)
    | MarkPurging(asset: AssetId, now: int)
    | PurgeAsset(asset: AssetId, now: int)
    | StageDeletion(user: UserId, now: int)

  predicate Enabled(s: State, user: UserId) {
    user in s.users && user !in s.disabled
  }

  /** persist_managed_asset with a fresh logical id: equal active content of the account is adopted. */
  ghost function IngestAsset(s: State, user: UserId, logical: LogicalId, checksum: string): State {
    if !Enabled(s, user)
       || (exists i :: IsActiveOf(s.assets, i, user) && s.assets[i].checksum == checksum)
       || (exists i :: i in s.assets && s.assets[i].logical == logical)
    then s
    else s.(assets := s.assets[s.nextAsset := Asset(user, logical, 1, checksum, Active, false, None)],
            nextAsset := s.nextAsset + 1)
  }

  /** Deleting the row nulls the asset of every sync item that names it. */
  function Purged(s: State, i: AssetId): State {
    s.(assets := s.assets - {i}, tables := map r | r in s.tables :: Mask(s.tables[r], s.assets.Keys - {i}))
  }

  ghost function WithAssets(s: State, r: Result<Assets, Refusal>): State {
    if r.Ok? then s.(assets := r.value) else s
  }

  ghost function Next(s: State, step: Step): State
    requires RowsOk(s)
  {
    match step
    case Register(user) => s.(users := s.users + {user})
    case AddRoot(root, user) =>
      if root in s.roots then s
      else s.(roots := s.roots[root := Root(user, 0, true)], tables := s.tables[root := map[]])
    case Ingest(user, logical, checksum) => IngestAsset(s, user, logical, checksum)
    case Push(root, client, inputs, env) =>
      (match ApplyBatch(s, root, client, inputs, env) case Ok(s') => s' case Err(_) => s)
    case ResolveConflict(c, choice, env) =>
      (match Resolve(s, c, choice, env) case Ok(s') => s' case Err(_) => s)
    case TrashAsset(i, env) => WithAssets(s, Trash(s.assets, i, env.now, env.days))
    case RestoreAsset(i) =>
      if i in s.assets && Enabled(s, s.assets[i].user) then WithAssets(s, RestoreFromTrash(s.assets, i)) else s
    case RollbackAsset(current, target) =>
      if target in s.assets && Enabled(s, s.assets[target].user)
      then WithAssets(s, Rollback(s.assets, current, target)) else s
    case MarkPurging(i, now) =>
      if Purgeable(s.assets, i, now) then s.(assets := s.assets[i := s.assets[i].(life := Purging)]) else s
    case PurgeAsset(i, now) => if Purgeable(s.assets, i, now) then Purged(s, i) else s
    case StageDeletion(user, now) =>
      s.(disabled := s.disabled + {user}, assets := StageForDeletion(s.assets, user, now))
  }

  // ---------------------------------------------------------------- every step keeps the invariant

  lemma {:induction false} BatchKeeps(s: State, root: RootId, client: string, inputs: seq<Input>, env: Env)
    requires Inv(s) && root in s.roots
    ensures Inv(ApplyInputs(s, root, client, inputs, env)) && Extends(s, ApplyInputs(s, root, client, inputs, env))
  {
    if inputs != [] {
      var before := ApplyInputs(s, root, client, inputs[..|inputs| - 1], env);
      BatchKeeps(s, root, client, inputs[..|inputs| - 1], env);
      ApplyOneKeeps(before, root, client, inputs[|inputs| - 1], env);
      ExtendsTransitive(s, before, ApplyInputs(s, root, client, inputs, env));
    }
  }

  /** Without new operations or resolutions the pairing of conflicts and the chains stay. */
  lemma QuietKeeps(s: State, s': State)
    requires LogOk(s) && ConflictsOk(s) && LinearOk(s) && LogOk(s') && Extends(s, s')
    requires s'.ops == s.ops && s'.conflicts == s.conflicts && s'.nextConflict == s.nextConflict
    ensures ConflictsOk(s') && LinearOk(s')
  {
    RecordingKeepsLinear(s, s', "");
  }

  lemma LifecycleGrows(s: State, s': State)
    requires LogOk(s) && ItemsOk(s) && s' == s.(users := s'.users, disabled := s'.disabled, assets := s'.assets)
    requires SameRows(s.assets, s'.assets)
    ensures LogOk(s') && Extends(s, s') && ItemsOk(s')
  {
  }

  /** A transition that keeps every row's account and history leaves the journal as it was. */
  lemma LifecycleKeeps(s: State, s': State)
    requires Inv(s) && s' == s.(users := s'.users, disabled := s'.disabled, assets := s'.assets)
    requires Constraints(s'.assets, s'.nextAsset) && SameRows(s.assets, s'.assets)
    ensures Inv(s') && Extends(s, s')
  {
    LifecycleGrows(s, s');
    ReplayUnchanged(s, s');
    QuietKeeps(s, s');
  }

  lemma PurgeGrows(s: State, i: AssetId)
    requires LogOk(s)
    ensures LogOk(Purged(s, i)) && Extends(s, Purged(s, i))
  {
  }

  lemma PurgeKeepsReplay(s: State, i: AssetId)
    requires ReplayOk(s) && ItemsOk(s) && Constraints(s.assets, s.nextAsset) && i in s.assets
    ensures ReplayOk(Purged(s, i)) && ItemsOk(Purged(s, i)) && Constraints(s.assets - {i}, s.nextAsset)
  {
    assert (s.assets - {i}).Keys == s.assets.Keys - {i};
  }

  lemma PurgeKeeps(s: State, i: AssetId)
    requires Inv(s) && i in s.assets
    ensures Inv(Purged(s, i)) && Extends(s, Purged(s, i))
  {
    PurgeGrows(s, i);
    PurgeKeepsReplay(s, i);
    QuietKeeps(s, Purged(s, i));
  }

  lemma AddRootExtends(s: State, root: RootId, user: UserId)
    requires RowsOk(s) && root !in s.roots
    ensures Extends(s, Next(s, AddRoot(root, user)))
  {
  }

  lemma AddRootGrows(s: State, root: RootId, user: UserId)
    requires LogOk(s) && RowsOk(s) && root !in s.roots
    ensures var s' := Next(s, AddRoot(root, user)); LogOk(s') && Extends(s, s')
  {
    AddRootExtends(s, root, user);
  }

  lemma AddRootKeepsItems(s: State, root: RootId, user: UserId)
    requires ItemsOk(s) && RowsOk(s) && root !in s.roots
    ensures ItemsOk(Next(s, AddRoot(root, user)))
  {
  }

  lemma AddRootReplays(s: State, root: RootId, user: UserId)
    requires ReplayOk(s) && RowsOk(s) && root !in s.roots
    ensures ReplayOk(Next(s, AddRoot(root, user)))
  {
    assert Replay(s.ops, root, 0) == map[];
  }

  lemma AddRootKeeps(s: State, root: RootId, user: UserId)
    requires Inv(s) && root !in s.roots
    ensures Inv(Next(s, AddRoot(root, user))) && Extends(s, Next(s, AddRoot(root, user)))
  {
    AddRootGrows(s, root, user);
    AddRootKeepsItems(s, root, user);
    AddRootReplays(s, root, user);
    QuietKeeps(s, Next(s, AddRoot(root, user)));
  }

  lemma IngestKeepsReplay(s: State, user: UserId, logical: LogicalId, checksum: string)
    requires LogOk(s) && ReplayOk(s) && Constraints(s.assets, s.nextAsset)
    ensures ReplayOk(IngestAsset(s, user, logical, checksum))
  {
    var s' := IngestAsset(s, user, logical, checksum);
    forall r | r in s.roots
      ensures s'.tables[r] == Mask(Replay(s'.ops, r, s'.roots[r].cursor), s'.assets.Keys)
    {
      ReplayAssetsBelow(s, r, s.roots[r].cursor);
      MaskIgnoresFresh(Replay(s.ops, r, s.roots[r].cursor), s.assets.Keys, s'.assets.Keys, s.nextAsset);
    }
  }

  lemma IngestKeepsItems(s: State, user: UserId, logical: LogicalId, checksum: string)
    requires ItemsOk(s) && Constraints(s.assets, s.nextAsset)
    ensures var s' := IngestAsset(s, user, logical, checksum);
            Constraints(s'.assets, s'.nextAsset) && ItemsOk(s')
  {
  }

  lemma IngestGrows(s: State, user: UserId, logical: LogicalId, checksum: string)
    requires LogOk(s)
    ensures LogOk(IngestAsset(s, user, logical, checksum)) && Extends(s, IngestAsset(s, user, logical, checksum))
  {
  }

  lemma IngestKeeps(s: State, user: UserId, logical: LogicalId, checksum: string)
    requires Inv(s)
    ensures Inv(IngestAsset(s, user, logical, checksum)) && Extends(s, IngestAsset(s, user, logical, checksum))
  {
    IngestKeepsReplay(s, user, logical, checksum);
    IngestKeepsItems(s, user, logical, checksum);
    IngestGrows(s, user, logical, checksum);
    QuietKeeps(s, IngestAsset(s, user, logical, checksum));
  }

  lemma WithAssetsKeeps(s: State, r: Result<Assets, Refusal>)
    requires Inv(s) && (r.Ok? ==> Constraints(r.value, s.nextAsset) && SameRows(s.assets, r.value))
    ensures Inv(WithAssets(s, r)) && Extends(s, WithAssets(s, r))
  {
    if r.Ok? { LifecycleKeeps(s, WithAssets(s, r)); }
  }

  lemma TrashStepKeeps(s: State, i: AssetId, env: Env)
    requires Inv(s)
    ensures Inv(Next(s, TrashAsset(i, env))) && Extends(s, Next(s, TrashAsset(i, env)))
  {
    var r := Trash(s.assets, i, env.now, env.days);
    if r.Ok? { TrashKeeps(s.assets, s.nextAsset, i, env.now, env.days); }
    WithAssetsKeeps(s, r);
  }

  lemma RestoreStepKeeps(s: State, i: AssetId)
    requires Inv(s)
    ensures Inv(Next(s, RestoreAsset(i))) && Extends(s, Next(s, RestoreAsset(i)))
  {
    var r := RestoreFromTrash(s.assets, i);
    if r.Ok? { RestoreKeeps(s.assets, s.nextAsset, i); }
    WithAssetsKeeps(s, r);
  }

  lemma RollbackStepKeeps(s: State, current: AssetId, target: AssetId)
    requires Inv(s)
    ensures Inv(Next(s, RollbackAsset(current, target))) && Extends(s, Next(s, RollbackAsset(current, target)))
  {
    var r := Rollback(s.assets, current, target);
    if r.Ok? {
      RollbackKeeps(s.assets, s.nextAsset, current, target);
      RollbackKeepsRows(s.assets, current, target);
    }
    WithAssetsKeeps(s, r);
  }

  lemma MarkStepKeeps(s: State, i: AssetId, now: int)
    requires Inv(s)
    ensures Inv(Next(s, MarkPurging(i, now))) && Extends(s, Next(s, MarkPurging(i, now)))
  {
    if Purgeable(s.assets, i, now) {
      MarkKeeps(s.assets, s.nextAsset, i, now);
      LifecycleKeeps(s, Next(s, MarkPurging(i, now)));
    } else {
      assert Next(s, MarkPurging(i, now)) == s;
    }
  }

  lemma StageStepKeeps(s: State, user: UserId, now: int)
    requires Inv(s)
    ensures Inv(Next(s, StageDeletion(user, now))) && Extends(s, Next(s, StageDeletion(user, now)))
  {
    StageKeeps(s.assets, s.nextAsset, user, now);
    LifecycleKeeps(s, Next(s, StageDeletion(user, now)));
  }

  lemma PushStepKeeps(s: State, root: RootId, client: string, inputs: seq<Input>, env: Env)
    requires Inv(s)
    ensures Inv(Next(s, Push(root, client, inputs, env))) && Extends(s, Next(s, Push(root, client, inputs, env)))
  {
    if Writable(s, root) {
      BatchKeeps(s, root, client, inputs, env);
    } else {
      assert Next(s, Push(root, client, inputs, env)) == s;
    }
  }

  lemma ResolveStepKeeps(s: State, c: ConflictId, choice: Choice, env: Env)
    requires Inv(s)
    ensures Inv(Next(s, ResolveConflict(c, choice, env))) && Extends(s, Next(s, ResolveConflict(c, choice, env)))
  {
    if Resolve(s, c, choice, env).Ok? {
      ResolveKeeps(s, c, choice, env);
    } else {
      assert Next(s, ResolveConflict(c, choice, env)) == s;
    }
  }

  lemma RegisterKeeps(s: State, user: UserId)
    requires Inv(s)
    ensures Inv(Next(s, Register(user))) && Extends(s, Next(s, Register(user)))
  {
    LifecycleKeeps(s, Next(s, Register(user)));
  }

  lemma AddRootStepKeeps(s: State, root: RootId, user: UserId)
    requires Inv(s)
    ensures Inv(Next(s, AddRoot(root, user))) && Extends(s, Next(s, AddRoot(root, user)))
  {
    if root !in s.roots {
      AddRootKeeps(s, root, user);
    } else {
      assert Next(s, AddRoot(root, user)) == s;
    }
  }

  lemma AccountStepKeeps(s: State, step: Step)
    requires Inv(s) && (step.Register? || step.AddRoot? || step.Ingest?)
    ensures Inv(Next(s, step)) && Extends(s, Next(s, step))
  {
    match step
    case Register(user) => RegisterKeeps(s, user);
    case AddRoot(root, user) => AddRootStepKeeps(s, root, user);
    case Ingest(user, logical, checksum) => IngestKeeps(s, user, logical, checksum);
  }

  lemma RevisionStepKeeps(s: State, step: Step)
    requires Inv(s) && (step.TrashAsset? || step.RestoreAsset? || step.RollbackAsset?)
    ensures Inv(Next(s, step)) && Extends(s, Next(s, step))
  {
    match step
    case TrashAsset(i, env) => TrashStepKeeps(s, i, env);
    case RestoreAsset(i) => RestoreStepKeeps(s, i);
    case RollbackAsset(current, target) => RollbackStepKeeps(s, current, target);
  }

  lemma PurgeAssetKeeps(s: State, i: AssetId, now: int)
    requires Inv(s)
    ensures Inv(Next(s, PurgeAsset(i, now))) && Extends(s, Next(s, PurgeAsset(i, now)))
  {
    if Purgeable(s.assets, i, now) {
      PurgeKeeps(s, i);
    } else {
      assert Next(s, PurgeAsset(i, now)) == s;
    }
  }

  lemma PurgeStepKeeps(s: State, step: Step)
    requires Inv(s) && (step.MarkPurging? || step.PurgeAsset? || step.StageDeletion?)
    ensures Inv(Next(s, step)) && Extends(s, Next(s, step))
  {
    match step
    case MarkPurging(i, now) => MarkStepKeeps(s, i, now);
    case StageDeletion(user, now) => StageStepKeeps(s, user, now);
    case PurgeAsset(i, now) => PurgeAssetKeeps(s, i, now);
  }

  lemma NextKeeps(s: State, step: Step)
    requires Inv(s)
    ensures Inv(Next(s, step)) && Extends(s, Next(s, step))
  {
    if step.TrashAsset? || step.RestoreAsset? || step.RollbackAsset? {
      RevisionStepKeeps(s, step);
    } else if step.MarkPurging? || step.PurgeAsset? || step.StageDeletion? {
      PurgeStepKeeps(s, step);
    } else if step.Push? {
      PushStepKeeps(s, step.root, step.client, step.inputs, step.env);
    } else if step.ResolveConflict? {
      ResolveStepKeeps(s, step.conflict, step.choice, step.env);
    } else {
      AccountStepKeeps(s, step);
    }
  }

  // ---------------------------------------------------------------- runs

  const EMPTY := State({}, {}, map[], 0, map[], map[], map[], map[], 0)

  ghost function Run(s: State, steps: seq<Step>): (s': State)
    requires Inv(s)
    ensures RowsOk(s')
    decreases |steps|
  {
    if steps == [] then s
    else
      NextKeeps(s, steps[0]);
      Run(Next(s, steps[0]), steps[1..])
  }

  lemma EmptyIsSound()
    ensures Inv(EMPTY)
  {
  }

  /** The state after a run of a new installation. */
  ghost function Reached(steps: seq<Step>): State {
    EmptyIsSound();
    Run(EMPTY, steps)
  }

  /** Every run keeps the invariant, and only ever extends the journal. */
  lemma {:induction false} RunExtends(s: State, steps: seq<Step>)
    requires Inv(s)
    ensures Inv(Run(s, steps)) && Extends(s, Run(s, steps))
    decreases |steps|
  {
    if steps != [] {
      NextKeeps(s, steps[0]);
      RunExtends(Next(s, steps[0]), steps[1..]);
      ExtendsTransitive(s, Next(s, steps[0]), Run(s, steps));
    }
  }

  /** In every run from an empty installation the item tables are the replay of the applied operations in
      cursor order, apart from assets nulled by a purge; items stay inside their own history; the constraints
      of the assets table are never violated. */
  lemma TablesAreReplays(steps: seq<Step>)
    ensures var s := Reached(steps);
            && (forall r :: r in s.roots ==> s.tables[r] == Mask(Replay(s.ops, r, s.roots[r].cursor), s.assets.Keys))
            && Constraints(s.assets, s.nextAsset)
            && ItemsOk(s)
  {
    ReachedIsSound(steps);
  }

  lemma ReachedIsSound(steps: seq<Step>)
    ensures Inv(Reached(steps))
  {
    EmptyIsSound();
    RunExtends(EMPTY, steps);
  }

  /** A reader that has the table of some earlier moment gets the current table by replaying only the
      operations beyond the cursor it had seen. */
  lemma ReaderCatchesUp(s: State, steps: seq<Step>, r: RootId)
    requires Inv(s) && r in s.roots
    ensures var s' := Run(s, steps);
            var seen := Replay(s.ops, r, s.roots[r].cursor);
            && r in s'.roots
            && s.roots[r].cursor <= s'.roots[r].cursor
            && s'.tables[r] == Mask(ReplayFrom(seen, s'.ops, r, s.roots[r].cursor, s'.roots[r].cursor), s'.assets.Keys)
  {
    var s' := Run(s, steps);
    RunExtends(s, steps);
    ReplayFrozen(s, s', r, s.roots[r].cursor);
    ReplaySplits(s'.ops, r, s.roots[r].cursor, s'.roots[r].cursor);
  }

  // ---------------------------------------------------------------- linear history

  lemma ApplyOneKeepsRevisions(s: State, root: RootId, client: string, input: Input, env: Env)
    requires RowsOk(s) && RevisionsOk(s) && root in s.roots
    ensures RevisionsOk(ApplyOne(s, root, client, input, env))
  {
  }

  lemma {:induction false} BatchKeepsRevisions(s: State, root: RootId, client: string, inputs: seq<Input>, env: Env)
    requires RowsOk(s) && RevisionsOk(s) && root in s.roots
    ensures RevisionsOk(ApplyInputs(s, root, client, inputs, env))
  {
    if inputs != [] {
      BatchKeepsRevisions(s, root, client, inputs[..|inputs| - 1], env);
      ApplyOneKeepsRevisions(ApplyInputs(s, root, client, inputs[..|inputs| - 1], env), root, client,
          inputs[|inputs| - 1], env);
    }
  }

  lemma ResolveKeepsRevisions(s: State, c: ConflictId, choice: Choice, env: Env)
    requires RowsOk(s) && RevisionsOk(s) && Resolve(s, c, choice, env).Ok?
    ensures RevisionsOk(Resolve(s, c, choice, env).value)
  {
  }

  lemma NextKeepsRevisions(s: State, step: Step)
    requires RowsOk(s) && RevisionsOk(s)
    ensures RevisionsOk(Next(s, step))
  {
    match step {
      case Push(root, client, inputs, env) => if root in s.roots { BatchKeepsRevisions(s, root, client, inputs, env); }
      case ResolveConflict(c, choice, env) => if Resolve(s, c, choice, env).Ok? { ResolveKeepsRevisions(s, c,
          choice, env); }
      case _ => assert Next(s, step).ops == s.ops;
    }
  }

  lemma {:induction false} RunKeepsRevisions(s: State, steps: seq<Step>)
    requires Inv(s) && RevisionsOk(s)
    ensures RevisionsOk(Run(s, steps))
    decreases |steps|
  {
    if steps != [] {
      NextKeeps(s, steps[0]);
      NextKeepsRevisions(s, steps[0]);
      RunKeepsRevisions(Next(s, steps[0]), steps[1..]);
    }
  }

  /** `p` is the last operation applied to the item at or below cursor `n`. */
  ghost predicate Writer(ops: Ops, p: OpId, root: RootId, logical: LogicalId, n: nat) {
    && AppliedOn(ops, p, root, logical) && ops[p].cursor <= n
    && forall q :: AppliedOn(ops, q, root, logical) && ops[q].cursor <= n ==> ops[q].cursor <= ops[p].cursor
  }

  /** The revision of a replayed item is the revision of the last operation applied to it. */
  lemma {:induction false} RevisionOfWriter(s: State, root: RootId, logical: LogicalId, n: nat) returns (p: OpId)
    requires LogOk(s) && logical in Replay(s.ops, root, n)
    ensures Writer(s.ops, p, root, logical, n)
    ensures Replay(s.ops, root, n)[logical].revision == s.ops[p].revision
  {
    if o :| AppliedAt(s.ops, o, root, n) && s.ops[o].logical == logical {
      p := o;
      OpAtIs(s, o);
    } else {
      assert forall q :: AppliedOn(s.ops, q, root, logical) && s.ops[q].cursor == n ==> AppliedAt(s.ops, q, root, n);
      p := RevisionOfWriter(s, root, logical, n - 1);
    }
  }

  /** An item that was applied once is in every later replay. */
  lemma {:induction false} AppliedStays(s: State, p: OpId, n: nat)
    requires p in s.ops && s.ops[p].logical in Replay(s.ops, s.ops[p].root, s.ops[p].cursor) && s.ops[p].cursor <= n
    ensures s.ops[p].logical in Replay(s.ops, s.ops[p].root, n)
  {
    if n > s.ops[p].cursor {
      AppliedStays(s, p, n - 1);
    }
  }

  lemma ChainsToWriter(s: State, p: OpId, o: OpId)
    requires LogOk(s) && o in s.ops && s.ops[o].cursor >= 1 && Chains(s, o)
    requires s.ops[o].logical in Replay(s.ops, s.ops[o].root, s.ops[o].cursor - 1)
    requires Writer(s.ops, p, s.ops[o].root, s.ops[o].logical, s.ops[o].cursor - 1)
    ensures s.ops[o].base == Some(s.ops[p].revision) || KeptLocal(s, o)
  {
    var w := RevisionOfWriter(s, s.ops[o].root, s.ops[o].logical, s.ops[o].cursor - 1);
    assert w == p;
  }

  lemma AppliedChains(s: State, p: OpId, o: OpId)
    requires LogOk(s) && o in s.ops && s.ops[o].cursor >= 1 && Chains(s, o)
    requires Writer(s.ops, p, s.ops[o].root, s.ops[o].logical, s.ops[o].cursor - 1) && s.ops[p].cursor >= 1
             && Chains(s, p)
    ensures s.ops[o].base == Some(s.ops[p].revision) || KeptLocal(s, o)
  {
    AppliedStays(s, p, s.ops[o].cursor - 1);
    ChainsToWriter(s, p, o);
  }

  /** History is linear: an applied operation is based on the revision its predecessor on the item produced,
      unless a person chose to keep it over that revision. */
  lemma HistoryIsLinear(steps: seq<Step>, p: OpId, o: OpId)
    requires var s := Reached(steps);
             && o in s.ops && s.ops[o].status.Applied? && s.ops[o].cursor >= 1
             && Writer(s.ops, p, s.ops[o].root, s.ops[o].logical, s.ops[o].cursor - 1)
    ensures var s := Reached(steps);
            s.ops[o].base == Some(s.ops[p].revision) || KeptLocal(s, o)
  {
    ReachedIsSound(steps);
    AppliedChains(Reached(steps), p, o);
  }

  /** The operation was accepted on top of an existing item, by its base revision alone. */
  ghost predicate Accepted(s: State, o: OpId) {
    && o in s.ops && s.ops[o].status.Applied? && !KeptLocal(s, o) && s.ops[o].cursor >= 1
    && s.ops[o].logical in Replay(s.ops, s.ops[o].root, s.ops[o].cursor - 1)
  }

  lemma BasesDiffer(s: State, o: OpId, o': OpId)
    requires LogOk(s) && RevisionsOk(s) && Accepted(s, o) && Accepted(s, o') && Chains(s, o) && Chains(s, o')
    requires s.ops[o].root == s.ops[o'].root && s.ops[o].cursor < s.ops[o'].cursor
    ensures s.ops[o].base != s.ops[o'].base
  {
    var w := RevisionOfWriter(s, s.ops[o].root, s.ops[o].logical, s.ops[o].cursor - 1);
    var w' := RevisionOfWriter(s, s.ops[o'].root, s.ops[o'].logical, s.ops[o'].cursor - 1);
    if s.ops[w].revision == s.ops[w'].revision {
      RevisionNamesItsCursor(s.ops[w].cursor, w, s.ops[w'].cursor, w');
      assert w == w';
      assert AppliedOn(s.ops, o, s.ops[o'].root, s.ops[o'].logical);
    }
  }

  /** No lost update and no reuse of a base: in every run, two operations accepted on existing items of one
      root never name the same base revision. */
  lemma NoBaseAcceptedTwice(steps: seq<Step>, o: OpId, o': OpId)
    requires o != o'
    requires var s := Reached(steps);
             Accepted(s, o) && Accepted(s, o') && s.ops[o].root == s.ops[o'].root
    ensures Reached(steps).ops[o].base != Reached(steps).ops[o'].base
  {
    var s := Reached(steps);
    ReachedIsSound(steps);
    EmptyIsSound();
    RunKeepsRevisions(EMPTY, steps);
    if s.ops[o].cursor < s.ops[o'].cursor {
      BasesDiffer(s, o, o');
    } else {
      BasesDiffer(s, o', o);
    }
  }

  // ---------------------------------------------------------------- retries

  ghost predicate AllKnown(ops: Ops, root: RootId, client: string, inputs: seq<Input>) {
    forall k :: 0 <= k < |inputs| ==> Known(ops, root, client, inputs[k])
  }

  lemma KnownStays(s: State, s': State, root: RootId, client: string, input: Input)
    requires Extends(s, s') && Known(s.ops, root, client, input)
    ensures Known(s'.ops, root, client, input)
  {
    if input.id !in s.ops {
      var o :| o in s.ops && s.ops[o].root == root && s.ops[o].client == client && s.ops[o].sequence == input.sequence;
      assert SameRequest(s.ops[o], s'.ops[o]);
    }
  }

  lemma AllKnownStays(s: State, s': State, root: RootId, client: string, inputs: seq<Input>)
    requires Extends(s, s') && AllKnown(s.ops, root, client, inputs)
    ensures AllKnown(s'.ops, root, client, inputs)
  {
    forall k | 0 <= k < |inputs|
      ensures Known(s'.ops, root, client, inputs[k])
    {
      KnownStays(s, s', root, client, inputs[k]);
    }
  }

  lemma {:induction false} BatchIsKnown(s: State, root: RootId, client: string, inputs: seq<Input>, env: Env)
    requires Inv(s) && root in s.roots
    ensures AllKnown(ApplyInputs(s, root, client, inputs, env).ops, root, client, inputs)
  {
    if inputs != [] {
      var init, last := inputs[..|inputs| - 1], inputs[|inputs| - 1];
      var before := ApplyInputs(s, root, client, init, env);
      var after := ApplyOne(before, root, client, last, env);
      BatchIsKnown(s, root, client, init, env);
      assert Extends(before, after) by {
        BatchKeeps(s, root, client, init, env);
        ApplyOneKeeps(before, root, client, last, env);
      }
      AllKnownStays(before, after, root, client, init);
      LastIsKnown(before, root, client, inputs, env);
    }
  }

  lemma LastIsKnown(s: State, root: RootId, client: string, inputs: seq<Input>, env: Env)
    requires RowsOk(s) && root in s.roots && inputs != []
    requires AllKnown(ApplyOne(s, root, client, inputs[|inputs| - 1], env).ops, root, client, inputs[..|inputs| - 1])
    ensures AllKnown(ApplyOne(s, root, client, inputs[|inputs| - 1], env).ops, root, client, inputs)
  {
    var ops := ApplyOne(s, root, client, inputs[|inputs| - 1], env).ops;
    assert forall k :: 0 <= k < |inputs| - 1 ==> inputs[k] == inputs[..|inputs| - 1][k];
    assert Known(ops, root, client, inputs[|inputs| - 1]);
  }

  lemma {:induction false} KnownChangesNothing(s: State, root: RootId, client: string, inputs: seq<Input>, env: Env)
    requires RowsOk(s) && root in s.roots && AllKnown(s.ops, root, client, inputs)
    ensures ApplyInputs(s, root, client, inputs, env) == s
  {
    if inputs != [] {
      KnownChangesNothing(s, root, client, inputs[..|inputs| - 1], env);
      assert Known(s.ops, root, client, inputs[|inputs| - 1]);
    }
  }

  lemma KnownPushChangesNothing(s: State, root: RootId, client: string, inputs: seq<Input>, env: Env)
    requires RowsOk(s) && root in s.roots && AllKnown(s.ops, root, client, inputs)
    ensures Next(s, Push(root, client, inputs, env)) == s
  {
    KnownChangesNothing(s, root, client, inputs, env);
  }

  lemma KnownStaysKnown(s: State, root: RootId, client: string, inputs: seq<Input>, steps: seq<Step>)
    requires Inv(s) && root in s.roots && AllKnown(s.ops, root, client, inputs)
    ensures var now := Run(s, steps); root in now.roots && AllKnown(now.ops, root, client, inputs)
  {
    RunExtends(s, steps);
    AllKnownStays(s, Run(s, steps), root, client, inputs);
  }

  lemma AcceptedIsKnown(s: State, root: RootId, client: string, inputs: seq<Input>, env: Env)
    requires Inv(s) && ApplyBatch(s, root, client, inputs, env).Ok?
    ensures var accepted := ApplyBatch(s, root, client, inputs, env).value;
            Inv(accepted) && root in accepted.roots && AllKnown(accepted.ops, root, client, inputs)
  {
    BatchKeeps(s, root, client, inputs, env);
    BatchIsKnown(s, root, client, inputs, env);
  }

  /** Retrying an accepted batch at any later time, after any other steps, changes no row. */
  lemma RetryChangesNothing(s: State, root: RootId, client: string, inputs: seq<Input>, env: Env,
                            steps: seq<Step>, later: Env)
    requires Inv(s) && ApplyBatch(s, root, client, inputs, env).Ok?
    ensures Inv(ApplyBatch(s, root, client, inputs, env).value)
    ensures var now := Run(ApplyBatch(s, root, client, inputs, env).value, steps);
            Next(now, Push(root, client, inputs, later)) == now
  {
    var accepted := ApplyBatch(s, root, client, inputs, env).value;
    AcceptedIsKnown(s, root, client, inputs, env);
    KnownStaysKnown(accepted, root, client, inputs, steps);
    KnownPushChangesNothing(Run(accepted, steps), root, client, inputs, later);
  }

  // ---------------------------------------------------------------- conflicts and promotion

  ghost function OpenConflicts(s: State): set<ConflictId> {
    set c | c in s.conflicts && s.conflicts[c].choice.None?
  }

  ghost function ConflictedOps(s: State): set<OpId> {
    set o | o in s.ops && s.ops[o].status.Conflicted?
  }

  /** In every run the open conflicts and the operations in status conflict pair off. */
  lemma OpenConflictsPairOff(steps: seq<Step>)
    ensures var s := Reached(steps);
            && (forall c :: c in OpenConflicts(s) ==> s.conflicts[c].op in ConflictedOps(s))
            && (forall c, d :: c in OpenConflicts(s) && d in OpenConflicts(s) && c != d ==>
                s.conflicts[c].op != s.conflicts[d].op)
            && (forall o :: o in ConflictedOps(s) ==> exists c :: c in OpenConflicts(s) && s.conflicts[c].op == o)
  {
    var s := Reached(steps);
    ReachedIsSound(steps);
    forall o | o in ConflictedOps(s)
      ensures exists c :: c in OpenConflicts(s) && s.conflicts[c].op == o
    {
      var c :| c in s.conflicts && s.conflicts[c].op == o;
      assert c in OpenConflicts(s);
    }
  }

  /** An accepted upsert makes the uploaded content the one active revision of the item, above all others. */
  lemma UpsertPromotes(s: State, root: RootId, input: Input, revision: string)
    requires Inv(s) && root in s.roots && UpsertItem(s, root, input, revision).Changed?
    ensures var change := UpsertItem(s, root, input, revision);
            var user := s.roots[root].user;
            && change.item.asset == ActiveTarget(change.assets, user, input.logical)
            && change.item.asset.Some?
            && change.assets[change.item.asset.value].checksum == s.assets[input.asset.value].checksum
            && (s.assets[input.asset.value].logical != input.logical ==>
                  forall j :: InHistory(change.assets, j, user, input.logical) && Some(j) != change.item.asset ==>
                    change.assets[j].version < change.assets[change.item.asset.value].version)
  {
    var change := UpsertItem(s, root, input, revision);
    var user := s.roots[root].user;
    ApplyItemKeepsConstraints(s, root, input.(kind := Upsert), revision, Env(0, 1));
    assert InHistory(change.assets, change.item.asset.value, user, input.logical);
  }

  /** The revision keeps its account and content, and its place unless it stands alone and no item points to it. */
  ghost predicate StaysPut(s: State, after: Assets, i: AssetId)
    requires i in s.assets
  {
    && i in after
    && after[i].user == s.assets[i].user && after[i].checksum == s.assets[i].checksum
    && ((after[i].logical == s.assets[i].logical && after[i].version == s.assets[i].version)
        || (!HasHistory(s.assets, i) && forall r, l :: r in s.tables && l in s.tables[r] ==>
              s.tables[r][l].asset != Some(i)))
  }

  lemma UpsertMovesOnlyItsAsset(s: State, root: RootId, input: Input, revision: string, i: AssetId)
    requires RowsOk(s) && root in s.roots && UpsertItem(s, root, input, revision).Changed? && i in s.assets
    requires input.asset != Some(i) && i < s.nextAsset
    ensures StaysPut(s, UpsertItem(s, root, input, revision).assets, i)
  {
  }

  lemma UpsertMovesOnlyALoneAsset(s: State, root: RootId, input: Input, revision: string, i: AssetId)
    requires ItemsOk(s) && RowsOk(s) && root in s.roots && UpsertItem(s, root, input, revision).Changed?
    requires Constraints(s.assets, s.nextAsset) && i in s.assets && input.asset == Some(i)
    ensures StaysPut(s, UpsertItem(s, root, input, revision).assets, i)
  {
    if s.assets[i].logical == input.logical { ReuseBranchUnreachable(s, root, i, input.logical); }
  }

  lemma DeleteStaysPut(s: State, root: RootId, input: Input, revision: string, env: Env, i: AssetId)
    requires RowsOk(s) && root in s.roots && DeleteItem(s, root, input, revision, env).Changed? && i in s.assets
    ensures StaysPut(s, DeleteItem(s, root, input, revision, env).assets, i)
  {
  }

  /** Content and place in history are immutable: an item operation re-homes at most the uploaded asset, and
      only while it is the sole revision of its history and no item points to it. */
  lemma RevisionsAreImmutable(s: State, root: RootId, input: Input, revision: string, env: Env, i: AssetId)
    requires Inv(s) && root in s.roots && ApplyItem(s, root, input, revision, env).Changed? && i in s.assets
    ensures StaysPut(s, ApplyItem(s, root, input, revision, env).assets, i)
  {
    match input.kind
    case Upsert =>
      if input.asset == Some(i) {
        UpsertMovesOnlyALoneAsset(s, root, input, revision, i);
      } else {
        UpsertMovesOnlyItsAsset(s, root, input, revision, i);
      }
    case Move =>
    case Delete => DeleteStaysPut(s, root, input, revision, env, i);
  }

  // ---------------------------------------------------------------- accounts staged for deletion

  /** Every row the account has afterwards it had before. */
  ghost predicate GainsNoRow(before: Assets, after: Assets, user: UserId) {
    forall i :: i in after && after[i].user == user ==> i in before && before[i].user == user
  }

  lemma ItemGainsNoRow(s: State, root: RootId, input: Input, revision: string, env: Env, user: UserId)
    requires RowsOk(s) && root in s.roots && s.roots[root].user != user
             && ApplyItem(s, root, input, revision, env).Changed?
    ensures GainsNoRow(s.assets, ApplyItem(s, root, input, revision, env).assets, user)
  {
  }

  lemma OperationGainsNoRow(s: State, root: RootId, client: string, input: Input, env: Env, user: UserId)
    requires RowsOk(s) && root in s.roots && s.roots[root].user != user
    ensures GainsNoRow(s.assets, ApplyOne(s, root, client, input, env).assets, user)
  {
    if !Known(s.ops, root, client, input) && StaleKind(s.tables[root], input).None? {
      var revision := NextRevision(s.roots[root].cursor + 1, input.id);
      if ApplyItem(s, root, input, revision, env).Changed? { ItemGainsNoRow(s, root, input, revision, env, user); }
    }
  }

  lemma {:induction false} BatchGainsNoRow(s: State, root: RootId, client: string, inputs: seq<Input>, env: Env,
      user: UserId)
    requires Inv(s) && root in s.roots && s.roots[root].user != user
    ensures GainsNoRow(s.assets, ApplyInputs(s, root, client, inputs, env).assets, user)
  {
    if inputs != [] {
      var before := ApplyInputs(s, root, client, inputs[..|inputs| - 1], env);
      BatchGainsNoRow(s, root, client, inputs[..|inputs| - 1], env, user);
      BatchKeeps(s, root, client, inputs[..|inputs| - 1], env);
      OperationGainsNoRow(before, root, client, inputs[|inputs| - 1], env, user);
    }
  }

  lemma ResolutionGainsNoRow(s: State, c: ConflictId, choice: Choice, env: Env, user: UserId)
    requires RowsOk(s) && Resolve(s, c, choice, env).Ok? && user in s.disabled
    ensures GainsNoRow(s.assets, Resolve(s, c, choice, env).value.assets, user)
  {
    var root := s.conflicts[c].root;
    if s.conflicts[c].choice.None? && choice.KeepLocal? {
      var id := s.conflicts[c].op;
      var op := s.ops[id];
      ItemGainsNoRow(s, root, Input(id, op.sequence, op.kind, op.logical, None, op.payload.path, op.payload.asset),
                     op.revision, env, user);
    }
  }

  lemma StepGainsNoRow(s: State, step: Step, user: UserId)
    requires Inv(s) && user in s.disabled
    ensures GainsNoRow(s.assets, Next(s, step).assets, user)
  {
    match step
    case Push(root, client, inputs, env) =>
      if Writable(s, root) { BatchGainsNoRow(s, root, client, inputs, env, user); }
    case ResolveConflict(c, choice, env) =>
      if Resolve(s, c, choice, env).Ok? { ResolutionGainsNoRow(s, c, choice, env, user); }
    case RollbackAsset(current, target) => RollbackGainsNoRow(s, current, target, user);
    case Ingest(u, logical, checksum) =>
    case _ => LifecycleGainsNoRow(s, step, user);
  }

  lemma RollbackGainsNoRow(s: State, current: AssetId, target: AssetId, user: UserId)
    requires RowsOk(s)
    ensures GainsNoRow(s.assets, Next(s, RollbackAsset(current, target)).assets, user)
  {
    if Rollback(s.assets, current, target).Ok? { RollbackKeepsRows(s.assets, current, target); }
  }

  lemma LifecycleGainsNoRow(s: State, step: Step, user: UserId)
    requires RowsOk(s) && !step.Push? && !step.ResolveConflict? && !step.RollbackAsset? && !step.Ingest?
    ensures GainsNoRow(s.assets, Next(s, step).assets, user)
  {
  }

  lemma StepKeepsDisabled(s: State, step: Step, user: UserId)
    requires Inv(s) && user in s.disabled
    ensures user in Next(s, step).disabled
  {
    match step
    case Push(root, client, inputs, env) => if Writable(s, root) { BatchKeepsAccounts(s, root, client, inputs, env); }
    case _ =>
  }

  lemma {:induction false} BatchKeepsAccounts(s: State, root: RootId, client: string, inputs: seq<Input>, env: Env)
    requires RowsOk(s) && root in s.roots
    ensures ApplyInputs(s, root, client, inputs, env).disabled == s.disabled
  {
    if inputs != [] { BatchKeepsAccounts(s, root, client, inputs[..|inputs| - 1], env); }
  }

  /** From the moment an account is staged for deletion no upload, sync operation, resolution or lifecycle
      request gives it another revision, so the deletion job only ever has fewer rows ahead of it. */
  lemma {:induction false} StagedAccountGainsNoRow(s: State, steps: seq<Step>, user: UserId)
    requires Inv(s) && user in s.disabled
    ensures GainsNoRow(s.assets, Run(s, steps).assets, user)
    decreases |steps|
  {
    if steps != [] {
      NextKeeps(s, steps[0]);
      StepGainsNoRow(s, steps[0], user);
      StepKeepsDisabled(s, steps[0], user);
      StagedAccountGainsNoRow(Next(s, steps[0]), steps[1..], user);
    }
  }
}
