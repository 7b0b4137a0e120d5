/** A revision keeps its account, its place in its history and its content as long as the history has another
    revision, over every run of Histories (backend/app/services/sync.py, lifecycle.py). */
module RevisionIdentity {
  import opened Options
  import opened Catalog
  import opened Journal
  import opened JournalInvariants
  import opened Histories
  import opened Revisions

  predicate SameIdentity(a: Asset, b: Asset) {
    SameHistory(a, b) && a.version == b.version && a.checksum == b.checksum
  }

  /** The revision is still there, is the same, and is not alone in its history. */
  ghost predicate Fixed(before: Assets, after: Assets, i: AssetId)
    requires i in before
  {
    i in after && SameIdentity(before[i], after[i]) && HasHistory(after, i)
  }

  lemma FixedTransitive(a: Assets, b: Assets, c: Assets, i: AssetId)
    requires i in a && Fixed(a, b, i) && Fixed(b, c, i)
    ensures Fixed(a, c, i)
  {
  }

  /** An item operation re-homes only revisions that stand alone, so neither this one nor its companions. */
  lemma ItemKeepsHistory(s: State, root: RootId, input: Input, revision: string, env: Env, i: AssetId)
    requires Inv(s) && root in s.roots && ApplyItem(s, root, input, revision, env).Changed?
    requires i in s.assets && HasHistory(s.assets, i)
    ensures Fixed(s.assets, ApplyItem(s, root, input, revision, env).assets, i)
  {
    var j :| j in s.assets && j != i && SameHistory(s.assets[j], s.assets[i]);
    assert HasHistory(s.assets, j);
    RevisionsAreImmutable(s, root, input, revision, env, i);
    RevisionsAreImmutable(s, root, input, revision, env, j);
  }

  lemma OperationKeepsHistory(s: State, root: RootId, client: string, input: Input, env: Env, i: AssetId)
    requires Inv(s) && root in s.roots && i in s.assets && HasHistory(s.assets, i)
    ensures Fixed(s.assets, ApplyOne(s, root, client, input, env).assets, i)
  {
    if !Known(s.ops, root, client, input) && StaleKind(s.tables[root], input).None? {
      var revision := NextRevision(s.roots[root].cursor + 1, input.id);
      if ApplyItem(s, root, input, revision, env).Changed? { ItemKeepsHistory(s, root, input, revision, env, i); }
    }
  }

  lemma {:induction false} BatchKeepsHistory(s: State, root: RootId, client: string, inputs: seq<Input>, env: Env,
      i: AssetId)
    requires Inv(s) && root in s.roots && i in s.assets && HasHistory(s.assets, i)
    ensures Fixed(s.assets, ApplyInputs(s, root, client, inputs, env).assets, i)
  {
    if inputs != [] {
      var before := ApplyInputs(s, root, client, inputs[..|inputs| - 1], env);
      BatchKeepsHistory(s, root, client, inputs[..|inputs| - 1], env, i);
      BatchKeeps(s, root, client, inputs[..|inputs| - 1], env);
      OperationKeepsHistory(before, root, client, inputs[|inputs| - 1], env, i);
      FixedTransitive(s.assets, before.assets, ApplyInputs(s, root, client, inputs, env).assets, i);
    }
  }

  lemma ResolutionKeepsHistory(s: State, c: ConflictId, choice: Choice, env: Env, i: AssetId)
    requires Inv(s) && Resolve(s, c, choice, env).Ok? && i in s.assets && HasHistory(s.assets, i)
    ensures Fixed(s.assets, Resolve(s, c, choice, env).value.assets, i)
  {
    if s.conflicts[c].choice.None? && choice.KeepLocal? {
      var id := s.conflicts[c].op;
      var op := s.ops[id];
      ItemKeepsHistory(s, s.conflicts[c].root, Input(id, op.sequence, op.kind, op.logical, None, op.payload.path,
          op.payload.asset),
                       op.revision, env, i);
    }
  }

  lemma LifecycleKeepsIdentity(s: State, step: Step, i: AssetId)
    requires RowsOk(s) && !step.Push? && !step.ResolveConflict? && !step.RollbackAsset?
    requires i in s.assets && i < s.nextAsset && i in Next(s, step).assets
    ensures SameIdentity(s.assets[i], Next(s, step).assets[i])
  {
  }

  lemma RollbackKeepsIdentity(s: State, current: AssetId, target: AssetId, i: AssetId)
    requires RowsOk(s) && i in s.assets
    ensures var after := Next(s, RollbackAsset(current, target)).assets;
            i in after && SameIdentity(s.assets[i], after[i])
  {
    if Rollback(s.assets, current, target).Ok? { RollbackKeepsRows(s.assets, current, target); }
  }

  lemma JournalKeepsIdentity(s: State, step: Step, i: AssetId)
    requires Inv(s) && (step.Push? || step.ResolveConflict?) && i in s.assets && HasHistory(s.assets, i)
    ensures i in Next(s, step).assets && SameIdentity(s.assets[i], Next(s, step).assets[i])
  {
    match step
    case Push(root, client, inputs, env) =>
      if Writable(s, root) { BatchKeepsHistory(s, root, client, inputs, env, i); }
    case ResolveConflict(c, choice, env) =>
      if Resolve(s, c, choice, env).Ok? { ResolutionKeepsHistory(s, c, choice, env, i); }
  }

  /** Whatever one step does, a revision with a companion in its history is the same afterwards, or purged. */
  lemma StepKeepsIdentity(s: State, step: Step, i: AssetId)
    requires Inv(s) && i in s.assets && HasHistory(s.assets, i) && i in Next(s, step).assets
    ensures SameIdentity(s.assets[i], Next(s, step).assets[i])
  {
    if step.Push? || step.ResolveConflict? {
      JournalKeepsIdentity(s, step, i);
    } else if step.RollbackAsset? {
      RollbackKeepsIdentity(s, step.current, step.target, i);
    } else {
      LifecycleKeepsIdentity(s, step, i);
    }
  }

  // ---------------------------------------------------------------- ids are never used again

  /** Every revision that is new has a fresh id. */
  ghost predicate OnlyFresh(s: State, s': State) {
    s.nextAsset <= s'.nextAsset && forall i :: i in s'.assets ==> i in s.assets || i >= s.nextAsset
  }

  lemma OperationOnlyFresh(s: State, root: RootId, client: string, input: Input, env: Env)
    requires Inv(s) && root in s.roots
    ensures OnlyFresh(s, ApplyOne(s, root, client, input, env))
  {
    if !Known(s.ops, root, client, input) && StaleKind(s.tables[root], input).None? {
      var revision := NextRevision(s.roots[root].cursor + 1, input.id);
      if ApplyItem(s, root, input, revision, env).Changed? { ApplyItemKeepsConstraints(s, root, input, revision, env); }
    }
  }

  lemma {:induction false} BatchOnlyFresh(s: State, root: RootId, client: string, inputs: seq<Input>, env: Env)
    requires Inv(s) && root in s.roots
    ensures OnlyFresh(s, ApplyInputs(s, root, client, inputs, env))
  {
    if inputs != [] {
      BatchOnlyFresh(s, root, client, inputs[..|inputs| - 1], env);
      BatchKeeps(s, root, client, inputs[..|inputs| - 1], env);
      OperationOnlyFresh(ApplyInputs(s, root, client, inputs[..|inputs| - 1], env), root, client,
                         inputs[|inputs| - 1], env);
    }
  }

  lemma ResolutionOnlyFresh(s: State, c: ConflictId, choice: Choice, env: Env)
    requires Inv(s) && Resolve(s, c, choice, env).Ok?
    ensures OnlyFresh(s, Resolve(s, c, choice, env).value)
  {
    if s.conflicts[c].choice.None? && choice.KeepLocal? {
      var id := s.conflicts[c].op;
      var op := s.ops[id];
      ApplyItemKeepsConstraints(s, s.conflicts[c].root, Input(id, op.sequence, op.kind, op.logical, None,
          op.payload.path, op.payload.asset), op.revision, env);
    }
  }

  lemma LifecycleOnlyFresh(s: State, step: Step)
    requires RowsOk(s) && !step.Push? && !step.ResolveConflict? && !step.RollbackAsset?
    ensures OnlyFresh(s, Next(s, step))
  {
  }

  lemma StepOnlyFresh(s: State, step: Step)
    requires Inv(s)
    ensures OnlyFresh(s, Next(s, step))
  {
    match step
    case Push(root, client, inputs, env) =>
      if Writable(s, root) { BatchOnlyFresh(s, root, client, inputs, env); }
    case ResolveConflict(c, choice, env) =>
      if Resolve(s, c, choice, env).Ok? { ResolutionOnlyFresh(s, c, choice, env); }
    case RollbackAsset(current, target) =>
      if Rollback(s.assets, current, target).Ok? { RollbackKeepsRows(s.assets, current, target); }
    case _ => LifecycleOnlyFresh(s, step);
  }

  lemma {:induction false} GoneForGood(s: State, steps: seq<Step>, i: AssetId)
    requires Inv(s) && i !in s.assets && i < s.nextAsset
    ensures i !in Run(s, steps).assets
    decreases |steps|
  {
    if steps != [] {
      StepOnlyFresh(s, steps[0]);
      NextKeeps(s, steps[0]);
      GoneForGood(Next(s, steps[0]), steps[1..], i);
    }
  }

  // ---------------------------------------------------------------- runs

  /** Whenever a step finds the revision, it is not alone in its history. */
  ghost predicate Accompanied(s: State, steps: seq<Step>, i: AssetId)
    requires Inv(s)
    decreases |steps|
  {
    if steps == [] then true
    else
      NextKeeps(s, steps[0]);
      (i in s.assets ==> HasHistory(s.assets, i)) && Accompanied(Next(s, steps[0]), steps[1..], i)
  }

  /** Over every run in which the revision always has a companion in its history, it keeps its account, logical id,
      version and content until it is purged. */
  lemma {:induction false} RevisionKeepsIdentity(s: State, steps: seq<Step>, i: AssetId)
    requires Inv(s) && i in s.assets && Accompanied(s, steps, i)
    ensures i in Run(s, steps).assets ==> SameIdentity(s.assets[i], Run(s, steps).assets[i])
    decreases |steps|
  {
    if steps != [] {
      NextKeeps(s, steps[0]);
      if i in Next(s, steps[0]).assets {
        StepKeepsIdentity(s, steps[0], i);
        RevisionKeepsIdentity(Next(s, steps[0]), steps[1..], i);
      } else {
        StepOnlyFresh(s, steps[0]);
        GoneForGood(Next(s, steps[0]), steps[1..], i);
      }
    }
  }
}
