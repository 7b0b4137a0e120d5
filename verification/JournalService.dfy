/** The journal and lifecycle requests as they run: methods that update the rows in place, each proved to take
    the state exactly where its specification takes it (backend/app/services/sync.py, lifecycle.py). */
module JournalService {
  import opened Numbers
  import opened Options
  import opened Catalog
  import opened Revisions
  import opened Journal
  import opened JournalInvariants
  import opened SyncRequests
  import opened LifecycleRequests
  import Histories

  /** The part of the invariant the requests rely on. */
  ghost predicate Ready(s: State) {
    RowsOk(s) && Constraints(s.assets, s.nextAsset) && CursorsDistinct(s.ops)
  }

  lemma InvIsReady(s: State)
    requires Inv(s)
    ensures Ready(s)
  {
  }

  // ---------------------------------------------------------------- queries

  method Choose<T(==)>(s: set<T>) returns (x: T)
    requires s != {}
    ensures x in s
  {
    x :| x in s;
  }

  lemma ActiveTargetUnique(assets: Assets, next: AssetId, user: UserId, logical: LogicalId, i: AssetId)
    requires Constraints(assets, next) && InHistory(assets, i, user, logical) && assets[i].life.Active?
    ensures ActiveTarget(assets, user, logical) == Some(i)
  {
  }

  /** The active revision of a history. */
  method FindActive(assets: Assets, ghost next: AssetId, user: UserId, logical: LogicalId) returns (t: Option<AssetId>)
    requires Constraints(assets, next)
    ensures t == ActiveTarget(assets, user, logical)
  {
    var todo := assets.Keys;
    while todo != {}
      invariant todo <= assets.Keys
      invariant forall i :: i in assets && i !in todo ==>
                  !(InHistory(assets, i, user, logical) && assets[i].life.Active?)
      decreases |todo|
    {
      var i := Choose(todo);
      if InHistory(assets, i, user, logical) && assets[i].life.Active? {
        ActiveTargetUnique(assets, next, user, logical, i);
        return Some(i);
      }
      todo := todo - {i};
    }
    return None;
  }

  /** The highest version of a history, zero when it is empty. */
  method MaxVersion(assets: Assets, user: UserId, logical: LogicalId) returns (v: int)
    requires forall i :: i in assets ==> assets[i].version > 0
    ensures v == HighestVersion(assets, user, logical)
  {
    v := 0;
    var todo := assets.Keys;
    while todo != {}
      invariant todo <= assets.Keys && v >= 0
      invariant forall i :: i !in todo && InHistory(assets, i, user, logical) ==> assets[i].version <= v
      invariant v == 0 || exists i :: InHistory(assets, i, user, logical) && assets[i].version == v
      decreases |todo|
    {
      var i := Choose(todo);
      if InHistory(assets, i, user, logical) && assets[i].version > v { v := assets[i].version; }
      todo := todo - {i};
    }
    assert IsHighest(assets, user, logical, v);
  }

  /** The latest operation applied to an item. */
  method Latest(ops: Ops, root: RootId, logical: LogicalId) returns (r: Option<OpId>)
    requires CursorsDistinct(ops)
    ensures r == LastApplied(ops, root, logical)
  {
    r := None;
    var todo := ops.Keys;
    while todo != {}
      invariant todo <= ops.Keys
      invariant r.Some? ==> AppliedOn(ops, r.value, root, logical)
      invariant forall o :: o !in todo && AppliedOn(ops, o, root, logical) ==>
                r.Some? && ops[o].cursor <= ops[r.value].cursor
      decreases |todo|
    {
      var o := Choose(todo);
      if AppliedOn(ops, o, root, logical) && (r.None? || ops[r.value].cursor < ops[o].cursor) { r := Some(o); }
      todo := todo - {o};
    }
    if r.Some? {
      assert AppliedOn(ops, r.value, root, logical)
             && forall p :: AppliedOn(ops, p, root, logical) ==> ops[p].cursor <= ops[r.value].cursor;
    }
  }

  /** The operation answers the input: it is the input's own, or the one that took its sequence number. */
  predicate Answers(ops: Ops, op: OpId, root: RootId, client: string, input: Input) {
    op in ops && (op == input.id || (ops[op].root == root && ops[op].client == client
        && ops[op].sequence == input.sequence))
  }

  ghost predicate AllAnswered(ops: Ops, operations: seq<OpId>, root: RootId, client: string, inputs: seq<Input>) {
    && |operations| <= |inputs|
    && forall k :: 0 <= k < |operations| ==> Answers(ops, operations[k], root, client, inputs[k])
  }

  /** The conflicts the list adds. */
  ghost predicate Opened(before: set<ConflictId>, after: set<ConflictId>, found: seq<ConflictId>) {
    forall c :: c in after <==> c in before || c in found
  }

  lemma OpenedMore(before: set<ConflictId>, middle: set<ConflictId>, after: set<ConflictId>,
                   found: seq<ConflictId>, more: seq<ConflictId>)
    requires Opened(before, middle, found) && Opened(middle, after, more)
    ensures Opened(before, after, found + more)
  {
  }

  lemma AnsweredOneMore(ops: Ops, ops': Ops, operations: seq<OpId>, op: OpId, root: RootId, client: string,
      inputs: seq<Input>)
    requires AllAnswered(ops, operations, root, client, inputs) && |operations| < |inputs|
    requires Answers(ops', op, root, client, inputs[|operations|])
    requires forall o :: o in ops ==> o in ops' && ops'[o] == ops[o]
    ensures AllAnswered(ops', operations + [op], root, client, inputs)
  {
  }

  /** The named revisions other than the target superseded where they were active. */
  ghost function SupersedeIn(assets: Assets, target: AssetId, ids: seq<AssetId>): Assets {
    map i | i in assets :: if i in ids && i != target
        && assets[i].life.Active? then assets[i].(life := Superseded) else assets[i]
  }

  lemma SupersedeNext(assets: Assets, target: AssetId, ids: seq<AssetId>, i: AssetId)
    requires i in assets
    ensures var before := SupersedeIn(assets, target, ids);
            SupersedeIn(assets, target, ids + [i])
            == if i != target && before[i].life.Active? then Supersede(before, i) else before
  {
  }

  lemma SupersedeAll(assets: Assets, target: AssetId, ids: seq<AssetId>)
    requires target in assets && forall i :: i in ids <==> i in assets && SameHistory(assets[i], assets[target])
    ensures SupersedeIn(assets, target, ids) == SupersedeOthers(assets, target)
  {
  }

  lemma QuietedSameHistory(assets: Assets, target: Option<AssetId>, i: AssetId)
    requires i in assets && (target.Some? ==> target.value in assets)
    ensures var quiet := Quieted(assets, target, i);
            quiet.Keys == assets.Keys && quiet[i] == assets[i] && HasHistory(quiet, i) == HasHistory(assets, i)
  {
    var quiet := Quieted(assets, target, i);
    assert forall j :: j in assets ==> SameHistory(quiet[j], assets[i]) == SameHistory(assets[j], assets[i]);
  }

  /** What an upsert amounts to when the asset comes from another history. */
  lemma UpsertAttaches(s: State, root: RootId, input: Input, revision: string, final: AssetId)
    requires RowsOk(s) && root in s.roots && input.path.Some? && input.asset.Some?
    requires IsActiveOf(s.assets, input.asset.value, s.roots[root].user)
    requires s.assets[input.asset.value].logical != input.logical
    requires var i := input.asset.value;
             final == if ReferencedElsewhere(s.tables, i, root, input.logical) || HasHistory(s.assets, i)
                      then s.nextAsset else i
    ensures var user, i := s.roots[root].user, input.asset.value;
            var version := HighestVersion(s.assets, user, input.logical) + 1;
            UpsertItem(s, root, input, revision)
            == Changed(Quieted(s.assets, ActiveTarget(s.assets, user, input.logical), i)
                         [final := Activated(s.assets[i].(logical := input.logical, version := version))],
                       if ReferencedElsewhere(s.tables, i, root, input.logical) || HasHistory(s.assets, i)
                       then s.nextAsset + 1 else s.nextAsset,
                       Item(Some(final), input.path.value, revision, false), Payload(input.path, Some(final)))
  {
  }

  /** What it amounts to when the asset is in the history already. */
  lemma UpsertActivates(s: State, root: RootId, input: Input, revision: string)
    requires RowsOk(s) && Constraints(s.assets, s.nextAsset) && root in s.roots && input.path.Some? && input.asset.Some?
    requires IsActiveOf(s.assets, input.asset.value, s.roots[root].user)
    requires s.assets[input.asset.value].logical == input.logical
    ensures var user, i := s.roots[root].user, input.asset.value;
            UpsertItem(s, root, input, revision)
            == Changed(Quieted(s.assets, ActiveTarget(s.assets, user, input.logical), i)
                         [i := Activated(s.assets[i])], s.nextAsset,
                       Item(Some(i), input.path.value, revision, false), Payload(input.path, Some(i)))
  {
    ActiveTargetUnique(s.assets, s.nextAsset, s.roots[root].user, input.logical, input.asset.value);
  }

  // ---------------------------------------------------------------- the service

  class Service {
    var users: set<UserId>
    var disabled: set<UserId>
    var assets: Assets
    var nextAsset: AssetId
    var roots: map<RootId, Root>
    var tables: map<RootId, Table>
    var ops: Ops
    var conflicts: map<ConflictId, Conflict>
    var nextConflict: ConflictId

    ghost function View(): State
      reads this
    {
      State(users, disabled, assets, nextAsset, roots, tables, ops, conflicts, nextConflict)
    }

    constructor ()
      ensures View() == Histories.EMPTY
    {
      users, disabled, assets, nextAsset := {}, {}, map[], 0;
      roots, tables, ops, conflicts, nextConflict := map[], map[], map[], map[], 0;
    }

    /** The item row of one logical id, if there is one. */
    function ItemOf(root: RootId, logical: LogicalId): Option<Item>
      reads this
      requires root in tables
    {
      if logical in tables[root] then Some(tables[root][logical]) else None
    }

    /** Moves a standalone revision into the history, or clones one that is used elsewhere. */
    method Attach(root: RootId, i: AssetId, logical: LogicalId, version: int) returns (final: AssetId)
      requires i in assets
      modifies this`assets, this`nextAsset
      ensures var clone := ReferencedElsewhere(tables, i, root, logical) || HasHistory(old(assets), i);
              && final == (if clone then old(nextAsset) else i)
              && nextAsset == old(nextAsset) + (if clone then 1 else 0)
              && final in assets
              && assets[final := Activated(assets[final])]
                 == old(assets)[final := Activated(old(assets)[i].(logical := logical, version := version))]
    {
      if ReferencedElsewhere(tables, i, root, logical) || HasHistory(assets, i) {
        final := CloneRevision(assets[i], logical, version);
      } else {
        final := i;
        assets := assets[i := assets[i].(logical := logical, version := version)];
      }
    }

    /** The row to activate: the revision itself when it is in the history, or what Attach makes of it. */
    method Place(ghost was: Assets, root: RootId, i: AssetId, logical: LogicalId, version: int,
        target: Option<AssetId>) returns (final: AssetId)
      requires Constraints(was, nextAsset) && root in roots && root in tables && IsActiveOf(was, i, roots[root].user)
      requires target == ActiveTarget(was, roots[root].user, logical) && assets == Quieted(was, target, i)
      modifies this`assets, this`nextAsset
      ensures var foreign := was[i].logical != logical;
              var clone := foreign && (ReferencedElsewhere(tables, i, root, logical) || HasHistory(was, i));
              && final == (if clone then old(nextAsset) else i)
              && nextAsset == old(nextAsset) + (if clone then 1 else 0)
              && final in assets
              && assets[final := Activated(assets[final])]
                 == old(assets)[final := Activated(if foreign then was[i].(logical := logical, version := version)
                                                   else was[i])]
    {
      QuietedSameHistory(was, target, i);
      if assets[i].logical != logical {
        final := Attach(root, i, logical, version);
      } else {
        if ReusesOldRevision(tables[root], i, logical, target) {
          // The branch that would clone an older active revision is dead: the active revision is the target.
          ActiveTargetUnique(was, nextAsset, roots[root].user, logical, i);
          assert false;
        }
        final := i;
      }
    }

    /** Makes the uploaded revision the active one of the item's history: in place when it stands alone, as a
        clone when it does not. */
    method Promote(root: RootId, input: Input, ghost revision: string) returns (final: AssetId)
      requires RowsOk(View()) && Constraints(assets, nextAsset) && root in roots && input.path.Some?
      requires input.asset.Some? && IsActiveOf(assets, input.asset.value, roots[root].user)
      modifies this`assets, this`nextAsset
      ensures UpsertItem(old(View()), root, input, revision)
              == Changed(assets, nextAsset, Item(Some(final), input.path.value, revision, false),
                  Payload(input.path, Some(final)))
    {
      var user, i, logical := roots[root].user, input.asset.value, input.logical;
      var highest := MaxVersion(assets, user, logical);
      var target := FindActive(assets, nextAsset, user, logical);
      ghost var was := assets;
      if target.Some? && target.value != i { assets := Supersede(assets, target.value); }
      final := Place(was, root, i, logical, highest + 1, target);
      assets := assets[final := Activated(assets[final])];
      if was[i].logical != logical {
        UpsertAttaches(old(View()), root, input, revision, final);
      } else {
        UpsertActivates(old(View()), root, input, revision);
      }
    }

    /** The upsert branch of _apply_item_operation. */
    method Upsert(root: RootId, input: Input, revision: string) returns (r: Result<Payload, SyncError>)
      requires Ready(View()) && root in roots
      modifies this`assets, this`nextAsset, this`tables
      ensures Effect(old(View()), UpsertItem(old(View()), root, input, revision), root, input.logical, r)
    {
      if input.asset.None? || input.path.None? { return Err(NeedsAssetAndPath); }
      var i := input.asset.value;
      if !IsActiveOf(assets, i, roots[root].user) { return Err(AssetUnavailable); }
      var final := Promote(root, input, revision);
      tables := tables[root := tables[root][input.logical := Item(Some(final), input.path.value, revision, false)]];
      return Ok(Payload(input.path, Some(final)));
    }

    /** clone_asset_revision and the insertion of its row. */
    method CloneRevision(source: Asset, logical: LogicalId, version: int) returns (id: AssetId)
      modifies this`assets, this`nextAsset
      ensures id == old(nextAsset) && nextAsset == id + 1
      ensures assets == old(assets)[id := Activated(source.(logical := logical, version := version))]
    {
      id := nextAsset;
      assets := assets[id := Activated(source.(logical := logical, version := version))];
      nextAsset := nextAsset + 1;
    }

    /** The move branch of _apply_item_operation. */
    method Move(root: RootId, input: Input, revision: string) returns (r: Result<Payload, SyncError>)
      requires Ready(View()) && root in roots
      modifies this`tables
      ensures Effect(old(View()), MoveItem(old(View()), root, input, revision), root, input.logical, r)
    {
      var item := ItemOf(root, input.logical);
      if item.None? || item.value.deleted || input.path.None? {
        return Err(NeedsLiveItem);
      }
      if item.value.asset.Some? && !IsActiveOf(assets, item.value.asset.value, roots[root].user) {
        return Err(BeingDeleted);
      }
      tables := tables[root := tables[root][input.logical := item.value.(path := input.path.value,
          revision := revision)]];
      return Ok(Payload(input.path, item.value.asset));
    }

    /** The delete branch of _apply_item_operation. */
    method Delete(root: RootId, input: Input, revision: string, env: Env) returns (r: Result<Payload, SyncError>)
      requires Ready(View()) && root in roots
      modifies this`assets, this`tables
      ensures Effect(old(View()), DeleteItem(old(View()), root, input, revision, env), root, input.logical, r)
    {
      var item := ItemOf(root, input.logical);
      if item.None? {
        var path := if input.path.Some? then input.path.value else "";
        tables := tables[root := tables[root][input.logical := Item(None, path, revision, false)]];
        return Ok(Payload(Some(path), None));
      }
      if item.value.asset.Some? {
        var i := item.value.asset.value;
        if !IsActiveOf(assets, i, roots[root].user) { return Err(BeingDeleted); }
        var trashed := TrashAsset(i, env);
        if trashed.Err? { return Err(Lifecycle(trashed.error)); }
      }
      tables := tables[root := tables[root][input.logical := item.value.(deleted := true, revision := revision)]];
      return Ok(Payload(Some(item.value.path), None));
    }

    /** The rows after an item operation: the change applied, or nothing. */
    ghost predicate Effect(was: State, change: Change, root: RootId, logical: LogicalId, r: Result<Payload, SyncError>)
      reads this
      requires root in was.tables
    {
      match change
      case Refused => r.Err? && View() == was
      case Changed(a, n, item, payload) =>
        r == Ok(payload)
        && View() == was.(assets := a, nextAsset := n, tables := was.tables[root := was.tables[root][logical := item]])
    }

    /** _apply_item_operation. */
    method ApplyItemOperation(root: RootId, input: Input, revision: string, env: Env)
      returns (r: Result<Payload, SyncError>)
      requires Ready(View()) && root in roots
      modifies this`assets, this`nextAsset, this`tables
      ensures Effect(old(View()), ApplyItem(old(View()), root, input, revision, env), root, input.logical, r)
    {
      match input.kind
      case Upsert => r := Upsert(root, input, revision);
      case Move => r := Move(root, input, revision);
      case Delete => r := Delete(root, input, revision, env);
    }

    /** trash_asset. */
    method TrashAsset(i: AssetId, env: Env) returns (r: Result<bool, Refusal>)
      modifies this`assets
      ensures match Trash(old(assets), i, env.now, env.days)
              case Ok(a) => r.Ok? && assets == a
              case Err(e) => r == Err(e) && assets == old(assets)
      ensures TrashDone(old(assets), assets, i, env, r.Ok?)
    {
      TrashExactly(assets, i, env);
      if i !in assets { return Err(NoLongerExists); }
      var asset := assets[i];
      if asset.life.Trashed? { return Ok(false); }
      if !asset.life.Active? { return Err(NotActive); }
      if env.days < 1 { return Err(RetentionTooShort); }
      assets := assets[i := asset.(life := Trashed, trashed := true,
          purgeAfter := Some(env.now + env.days * SECONDS_PER_DAY))];
      return Ok(true);
    }

    /** An operation accepted earlier under the same client sequence number. */
    method FindSequence(root: RootId, client: string, sequence: nat) returns (found: Option<OpId>)
      ensures found.Some? ==> found.value in ops && ops[found.value].root == root
                              && ops[found.value].client == client && ops[found.value].sequence == sequence
      ensures found.None? ==> !SequenceTaken(ops, root, client, sequence)
    {
      var todo := ops.Keys;
      while todo != {}
        invariant todo <= ops.Keys
        invariant forall o :: o in ops && o !in todo ==>
                  !(ops[o].root == root && ops[o].client == client && ops[o].sequence == sequence)
        decreases |todo|
      {
        var o := Choose(todo);
        if ops[o].root == root && ops[o].client == client && ops[o].sequence == sequence { return Some(o); }
        todo := todo - {o};
      }
      return None;
    }

    /** Records a conflicted operation and opens its conflict. */
    method OpenConflict(root: RootId, id: OpId, op: Op, kind: ConflictKind) returns (c: ConflictId)
      requires CursorsDistinct(ops) && op.status.Conflicted? && op.root == root && id !in ops
      modifies this`ops, this`conflicts, this`nextConflict
      ensures ops == old(ops)[id := op] && c == old(nextConflict) && nextConflict == c + 1
      ensures conflicts == old(conflicts)[c := Conflict(root, id, LastApplied(old(ops), root, op.logical), kind, None)]
    {
      var previous := Latest(ops, root, op.logical);
      ops := ops[id := op];
      c := nextConflict;
      conflicts := conflicts[c := Conflict(root, id, previous, kind, None)];
      nextConflict := nextConflict + 1;
    }

    /** The stale check and then the item operation. */
    method Attempt(root: RootId, input: Input, revision: string, env: Env)
      returns (outcome: Result<Payload, SyncError>, stale: Option<ConflictKind>)
      requires Ready(View()) && root in roots
      modifies this`assets, this`nextAsset, this`tables
      ensures stale == StaleKind(old(tables)[root], input)
      ensures Effect(old(View()),
                     if stale.Some? then Refused else ApplyItem(old(View()), root, input, revision, env),
                     root, input.logical, outcome)
    {
      stale := StaleKind(tables[root], input);
      if stale.Some? { return Err(Unavailable), stale; }
      outcome := ApplyItemOperation(root, input, revision, env);
    }

    /** An operation seen for the first time. */
    method ApplyNewOperation(root: RootId, client: string, input: Input, env: Env)
      returns (conflict: Option<ConflictId>)
      requires Ready(View()) && root in roots && !Known(ops, root, client, input)
      modifies this
      ensures View() == ApplyOne(old(View()), root, client, input, env)
      ensures input.id in ops && ops == old(ops)[input.id := ops[input.id]]
      ensures Opened(old(conflicts).Keys, conflicts.Keys, if conflict.Some? then [conflict.value] else [])
    {
      ghost var was := View();
      roots := roots[root := roots[root].(cursor := roots[root].cursor + 1)];
      var cursor, revision := roots[root].cursor, NextRevision(roots[root].cursor, input.id);
      CursorDoesNotMatter(was, View(), root, input, revision, env);
      var outcome, stale := Attempt(root, input, revision, env);
      if outcome.Ok? {
        ops := ops[input.id := Op(root, cursor, client, input.sequence, input.kind, input.logical, input.base, revision,
                                  outcome.value, Applied)];
        conflict := None;
      } else {
        var c := OpenConflict(root, input.id,
                              Op(root, cursor, client, input.sequence, input.kind, input.logical, input.base, revision,
                                 Payload(input.path, input.asset), Conflicted),
                              if stale.Some? then stale.value else InvalidTransition);
        conflict := Some(c);
      }
    }

    /** One round of the loop of apply_operations. */
    method ApplyOperation(root: RootId, client: string, input: Input, env: Env)
      returns (op: OpId, conflict: Option<ConflictId>)
      requires Ready(View()) && root in roots
      modifies this
      ensures View() == ApplyOne(old(View()), root, client, input, env)
      ensures Recorded(old(View()), View(), root, client, input, env)
      ensures Answers(ops, op, root, client, input)
      ensures forall o :: o in old(ops) ==> o in ops && ops[o] == old(ops)[o]
      ensures Opened(old(conflicts).Keys, conflicts.Keys, if conflict.Some? then [conflict.value] else [])
    {
      OperationIsRecorded(View(), root, client, input, env);
      if input.id in ops { return input.id, None; }
      var duplicate := FindSequence(root, client, input.sequence);
      if duplicate.Some? { return duplicate.value, None; }
      conflict := ApplyNewOperation(root, client, input, env);
      op := input.id;
    }

    /** The round for one position of the batch. */
    method ApplyNext(ghost was: State, root: RootId, client: string, inputs: seq<Input>, k: nat, env: Env)
      returns (op: OpId, conflict: Option<ConflictId>)
      requires RowsOk(was) && root in was.roots && ReadyThroughout(was, root, client, inputs, env, |inputs|)
      requires k < |inputs| && View() == ApplyInputs(was, root, client, inputs[..k], env)
      modifies this
      ensures View() == ApplyInputs(was, root, client, inputs[..k + 1], env)
      ensures Answers(ops, op, root, client, inputs[k])
      ensures forall o :: o in old(ops) ==> o in ops && ops[o] == old(ops)[o]
      ensures Opened(old(conflicts).Keys, conflicts.Keys, if conflict.Some? then [conflict.value] else [])
    {
      ReadyAt(was, root, client, inputs, env, |inputs|, k);
      op, conflict := ApplyOperation(root, client, inputs[k], env);
      LastInput(was, root, client, inputs, env, k);
    }

    /** The loop of apply_operations. */
    method ApplyAll(root: RootId, client: string, inputs: seq<Input>, env: Env)
      returns (operations: seq<OpId>, found: seq<ConflictId>)
      requires RowsOk(View()) && root in roots && ReadyThroughout(View(), root, client, inputs, env, |inputs|)
      modifies this
      ensures View() == ApplyInputs(old(View()), root, client, inputs, env)
      ensures BatchRecorded(old(View()), View(), root, client, inputs, env)
      ensures |operations| == |inputs| && AllAnswered(ops, operations, root, client, inputs)
      ensures Opened(old(conflicts).Keys, conflicts.Keys, found)
    {
      ghost var was := View();
      operations, found := [], [];
      for k := 0 to |inputs|
        invariant View() == ApplyInputs(was, root, client, inputs[..k], env)
        invariant Opened(was.conflicts.Keys, conflicts.Keys, found)
        invariant |operations| == k && AllAnswered(ops, operations, root, client, inputs)
      {
        ghost var before, open := ops, conflicts.Keys;
        var op, conflict := ApplyNext(was, root, client, inputs, k, env);
        AnsweredOneMore(before, ops, operations, op, root, client, inputs);
        operations := operations + [op];
        var more := if conflict.Some? then [conflict.value] else [];
        OpenedMore(was.conflicts.Keys, open, conflicts.Keys, found, more);
        found := found + more;
      }
      assert inputs[..|inputs|] == inputs;
      BatchIsRecorded(was, root, client, inputs, env);
    }

    /** apply_operations: the whole batch in order, one acknowledged operation for each input. */
    method ApplyOperations(root: RootId, client: string, inputs: seq<Input>, env: Env)
      returns (r: Result<(seq<OpId>, seq<ConflictId>), SyncError>)
      requires Inv(View())
      modifies this
      ensures Inv(View())
      ensures match ApplyBatch(old(View()), root, client, inputs, env)
              case Ok(s) => r.Ok? && View() == s
              case Err(_) => r.Err? && View() == old(View())
      ensures r.Ok? <==> && root in old(roots) && old(roots)[root].active
                         && old(roots)[root].user in old(users) && old(roots)[root].user !in old(disabled)
      ensures r.Ok? ==> BatchRecorded(old(View()), View(), root, client, inputs, env)
      ensures r.Ok? ==> |r.value.0| == |inputs| && AllAnswered(ops, r.value.0, root, client, inputs)
      ensures r.Ok? ==> Opened(old(conflicts).Keys, conflicts.Keys, r.value.1)
    {
      if root !in roots || !roots[root].active || roots[root].user !in users || roots[root].user in disabled {
        return Err(Unavailable);
      }
      AlwaysReady(View(), root, client, inputs, env, |inputs|);
      Histories.BatchKeeps(View(), root, client, inputs, env);
      assert ApplyBatch(View(), root, client, inputs, env) == Ok(ApplyInputs(View(), root, client, inputs, env));
      var operations, found := ApplyAll(root, client, inputs, env);
      return Ok((operations, found));
    }

    /** The keep_local branch of resolve_conflict: the stored operation is applied again on top of whatever is
        there and published under a new cursor. */
    method KeepLocal(root: RootId, id: OpId, env: Env) returns (ok: bool)
      requires Ready(View()) && root in roots && id in ops && ops[id].root == root
      modifies this
      ensures conflicts == old(conflicts) && nextConflict == old(nextConflict)
      ensures !ok ==> View() == old(View())
      ensures ok == Kept(old(View()), id, env).Some?
      ensures ok ==> View() == Kept(old(View()), id, env).value
    {
      var operation := ops[id];
      var input := Input(id, operation.sequence, operation.kind, operation.logical, None, operation.payload.path,
                         operation.payload.asset);
      var outcome := ApplyItemOperation(root, input, operation.revision, env);
      if outcome.Err? { return false; }
      var cursor := roots[root].cursor + 1;
      roots := roots[root := roots[root].(cursor := cursor)];
      var revision := NextRevision(cursor, id);
      ops := ops[id := operation.(cursor := cursor, revision := revision, payload := outcome.value, status := Applied)];
      var item := tables[root][operation.logical];
      tables := tables[root := tables[root][operation.logical := item.(revision := revision)]];
      assert tables[root] == old(tables)[root][operation.logical := item.(revision := revision)];
      assert tables == old(tables)[root := tables[root]];
      return true;
    }

    /** resolve_conflict. */
    method ResolveConflict(c: ConflictId, choice: Choice, env: Env) returns (ok: bool)
      requires Ready(View())
      modifies this
      ensures match Resolve(old(View()), c, choice, env)
              case Ok(s) => ok && View() == s
              case Err(_) => !ok && View() == old(View())
      ensures Settled(old(View()), View(), c, choice, env, ok)
    {
      ResolutionIsSettled(View(), c, choice, env);
      if c !in conflicts || conflicts[c].root !in roots { return false; }
      var conflict := conflicts[c];
      var root := conflict.root;
      if !roots[root].active || roots[root].user !in users || roots[root].user in disabled { return false; }
      if conflict.choice.Some? { return true; }
      if conflict.op !in ops || ops[conflict.op].root != root { return false; }
      if choice.KeepLocal? {
        ok := KeepLocal(root, conflict.op, env);
        if !ok { return; }
      } else {
        ops := ops[conflict.op := ops[conflict.op].(status := Rejected)];
      }
      conflicts := conflicts[c := conflict.(choice := Some(choice))];
      return true;
    }

    /** Some revision of the history other than `i` is active. */
    method OtherActive(i: AssetId) returns (found: bool)
      requires i in assets
      ensures found <==> exists j ::
                j != i && j in assets && SameHistory(assets[j], assets[i]) && assets[j].life.Active?
    {
      var todo := assets.Keys;
      while todo != {}
        invariant todo <= assets.Keys
        invariant forall j :: j in assets && j !in todo ==>
                  !(j != i && SameHistory(assets[j], assets[i]) && assets[j].life.Active?)
        decreases |todo|
      {
        var j := Choose(todo);
        if j != i && SameHistory(assets[j], assets[i]) && assets[j].life.Active? { return true; }
        todo := todo - {j};
      }
      return false;
    }

    /** restore_asset_from_trash. */
    method RestoreAssetFromTrash(i: AssetId) returns (ok: bool)
      requires RowsOk(View())
      modifies this`assets
      ensures View() == Histories.Next(old(View()), Histories.RestoreAsset(i))
      ensures ok <==> && i in old(assets) && Histories.Enabled(old(View()), old(assets)[i].user)
                      && RestoreFromTrash(old(assets), i).Ok?
      ensures RestoreDone(old(assets), assets, i,
                          i in old(assets) && old(assets)[i].user in users && old(assets)[i].user !in disabled, ok)
    {
      RestoreExactly(View(), i);
      if i !in assets || assets[i].user !in users || assets[i].user in disabled { return false; }
      if !assets[i].life.Trashed? { return false; }
      var active := OtherActive(i);
      if active { return false; }
      assets := assets[i := Activated(assets[i])];
      return true;
    }

    /** The revisions of the target's history, each once. */
    method History(target: AssetId) returns (revisions: seq<AssetId>)
      requires target in assets
      ensures forall i :: i in revisions <==> i in assets && SameHistory(assets[i], assets[target])
    {
      revisions := [];
      var todo := assets.Keys;
      while todo != {}
        invariant todo <= assets.Keys
        invariant forall i :: i in revisions <==> i in assets && i !in todo && SameHistory(assets[i], assets[target])
        decreases |todo|
      {
        var i := Choose(todo);
        if SameHistory(assets[i], assets[target]) { revisions := revisions + [i]; }
        todo := todo - {i};
      }
    }

    /** The loop of rollback_asset: supersedes every other active revision and says whether there was one. */
    method Deactivate(target: AssetId) returns (previous: seq<AssetId>)
      requires target in assets
      modifies this`assets
      ensures assets == SupersedeOthers(old(assets), target)
      ensures previous == [] <==> NoOtherActive(old(assets), target)
    {
      ghost var was := assets;
      var revisions := History(target);
      previous := [];
      for k := 0 to |revisions|
        invariant assets == SupersedeIn(was, target, revisions[..k])
        invariant previous == [] <==> assets == was
      {
        var i := revisions[k];
        SupersedeNext(was, target, revisions[..k], i);
        assert revisions[..k + 1] == revisions[..k] + [i];
        if i != target && assets[i].life.Active? {
          assets := Supersede(assets, i);
          assert assets[i] != was[i];
          previous := previous + [i];
        }
      }
      assert revisions[..|revisions|] == revisions;
      SupersedeAll(was, target, revisions);
      assert NoOtherActive(was, target) <==> assets == was by {
        forall i | i in was && i != target && SameHistory(was[i], was[target]) && was[i].life.Active?
          ensures assets != was
        {
          assert assets[i] != was[i];
        }
      }
    }

    /** rollback_asset. */
    method RollbackAsset(current: AssetId, target: AssetId) returns (ok: bool)
      requires RowsOk(View())
      modifies this`assets
      ensures View() == Histories.Next(old(View()), Histories.RollbackAsset(current, target))
      ensures ok <==> target in old(assets) && Histories.Enabled(old(View()), old(assets)[target].user)
                      && Rollback(old(assets), current, target).Ok?
      ensures RollbackDone(old(assets), assets, current, target, target in old(assets)
                           && old(assets)[target].user in users && old(assets)[target].user !in disabled, ok)
    {
      RollbackExactly(View(), current, target);
      if target !in assets || assets[target].user !in users || assets[target].user in disabled { return false; }
      if current !in assets || !SameHistory(assets[current], assets[target]) { return false; }
      if !assets[current].life.Active? { return false; }
      if assets[target].life.Trashed? || assets[target].life.Purging? { return false; }
      var previous := Deactivate(target);
      if assets[target].life.Active? && previous == [] { return true; }
      assets := assets[target := Activated(assets[target])];
      return true;
    }
  }

  /** The state after keep_local, but for the conflict row itself. */
  ghost function Kept(s: State, id: OpId, env: Env): Option<State>
    requires RowsOk(s) && id in s.ops && s.ops[id].root in s.roots
  {
    var op := s.ops[id];
    var input := Input(id, op.sequence, op.kind, op.logical, None, op.payload.path, op.payload.asset);
    match ApplyItem(s, op.root, input, op.revision, env)
    case Refused => None
    case Changed(assets, nextAsset, item, payload) =>
      var cursor := s.roots[op.root].cursor + 1;
      var published := op.(cursor := cursor, revision := NextRevision(cursor, id), payload := payload,
          status := Applied);
      Some(Publish(s, id, published, Changed(assets, nextAsset, item.(revision := published.revision), payload)))
  }

  /** Every prefix of the first `n` inputs leaves a state in which the next operation can be applied. */
  ghost predicate ReadyThroughout(s: State, root: RootId, client: string, inputs: seq<Input>, env: Env, n: nat)
    requires RowsOk(s) && root in s.roots && n <= |inputs|
  {
    Ready(ApplyInputs(s, root, client, inputs[..n], env)) && (n > 0 ==>
        ReadyThroughout(s, root, client, inputs, env, n - 1))
  }

  lemma {:induction false} ReadyAt(s: State, root: RootId, client: string, inputs: seq<Input>, env: Env, n: nat, k: nat)
    requires RowsOk(s) && root in s.roots && k <= n <= |inputs| && ReadyThroughout(s, root, client, inputs, env, n)
    ensures Ready(ApplyInputs(s, root, client, inputs[..k], env))
  {
    if k < n { ReadyAt(s, root, client, inputs, env, n - 1, k); }
  }

  lemma {:induction false} AlwaysReady(s: State, root: RootId, client: string, inputs: seq<Input>, env: Env, n: nat)
    requires Inv(s) && root in s.roots && n <= |inputs|
    ensures RowsOk(s) && ReadyThroughout(s, root, client, inputs, env, n)
  {
    Histories.BatchKeeps(s, root, client, inputs[..n], env);
    InvIsReady(ApplyInputs(s, root, client, inputs[..n], env));
    if n > 0 { AlwaysReady(s, root, client, inputs, env, n - 1); }
  }

  lemma InputIsRecorded(s: State, root: RootId, client: string, inputs: seq<Input>, env: Env, k: nat)
    requires RowsOk(s) && root in s.roots && k < |inputs|
    requires ReadyThroughout(s, root, client, inputs, env, |inputs|)
    ensures Recording(root, client, env)(ApplyInputs(s, root, client, inputs[..k], env),
                                         ApplyInputs(s, root, client, inputs[..k + 1], env), inputs[k])
  {
    ReadyAt(s, root, client, inputs, env, |inputs|, k);
    OperationIsRecorded(ApplyInputs(s, root, client, inputs[..k], env), root, client, inputs[k], env);
    LastInput(s, root, client, inputs, env, k);
  }

  lemma BatchIsRecorded(s: State, root: RootId, client: string, inputs: seq<Input>, env: Env)
    requires RowsOk(s) && root in s.roots && ReadyThroughout(s, root, client, inputs, env, |inputs|)
    ensures BatchRecorded(s, ApplyInputs(s, root, client, inputs, env), root, client, inputs, env)
  {
    var at := (k: int) => if 0 <= k <= |inputs| then ApplyInputs(s, root, client, inputs[..k], env) else s;
    forall k | 0 <= k < |inputs|
      ensures Recording(root, client, env)(at(k), at(k + 1), inputs[k])
    {
      InputIsRecorded(s, root, client, inputs, env, k);
    }
    TakenInTurn(Recording(root, client, env), at, inputs);
    assert inputs[..|inputs|] == inputs;
  }

  lemma LastInput(s: State, root: RootId, client: string, inputs: seq<Input>, env: Env, k: nat)
    requires RowsOk(s) && root in s.roots && k < |inputs|
    ensures ApplyInputs(s, root, client, inputs[..k + 1], env)
            == ApplyOne(ApplyInputs(s, root, client, inputs[..k], env), root, client, inputs[k], env)
  {
    assert inputs[..k + 1][..k] == inputs[..k];
  }

  /** An item operation reads its root only for the account. */
  lemma CursorDoesNotMatter(s: State, s': State, root: RootId, input: Input, revision: string, env: Env)
    requires RowsOk(s) && root in s.roots
    requires s' == s.(roots := s'.roots) && s'.roots.Keys == s.roots.Keys && s'.roots[root].user == s.roots[root].user
    ensures ApplyItem(s', root, input, revision, env) == ApplyItem(s, root, input, revision, env)
  {
  }
}
