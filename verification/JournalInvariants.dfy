/** The invariant of the journal and what one operation or one resolution keeps. */
module JournalInvariants {
  import opened Options
  import opened Catalog
  import opened Journal
  import opened Revisions

  // ---------------------------------------------------------------- the invariant

  /** Operations carry cursors of their root, and applied payloads name issued assets. */
  ghost predicate RowsInRange(s: State) {
    && s.tables.Keys == s.roots.Keys
    && forall o :: o in s.ops ==>
         && s.ops[o].root in s.roots
         && 1 <= s.ops[o].cursor <= s.roots[s.ops[o].root].cursor
         && (s.ops[o].status.Applied? && s.ops[o].payload.asset.Some? ==> s.ops[o].payload.asset.value < s.nextAsset)
  }

  ghost predicate CursorsDistinct(ops: Ops) {
    forall o, p :: o in ops && p in ops && o != p && ops[o].root == ops[p].root ==> ops[o].cursor != ops[p].cursor
  }

  ghost predicate SequencesDistinct(ops: Ops) {
    forall o, p :: o in ops && p in ops && o != p && ops[o].root == ops[p].root && ops[o].client == ops[p].client ==>
      ops[o].sequence != ops[p].sequence
  }

  ghost predicate LogOk(s: State) {
    RowsInRange(s) && CursorsDistinct(s.ops) && SequencesDistinct(s.ops)
  }

  /** Every operation carries the revision name of its current cursor. */
  ghost predicate RevisionsOk(s: State) {
    forall o :: o in s.ops ==> s.ops[o].revision == NextRevision(s.ops[o].cursor, o)
  }

  /** The item table of every root is the replay of its applied operations, less purged assets. */
  ghost predicate ReplayOk(s: State) {
    && s.tables.Keys == s.roots.Keys
    && forall r :: r in s.roots ==> s.tables[r] == Mask(Replay(s.ops, r, s.roots[r].cursor), s.assets.Keys)
  }

  /** An item's asset belongs to the root's account and to the item's own logical id. */
  ghost predicate ItemsOk(s: State) {
    && s.tables.Keys == s.roots.Keys
    && forall r, l :: r in s.tables && l in s.tables[r] && s.tables[r][l].asset.Some? ==>
         InHistory(s.assets, s.tables[r][l].asset.value, s.roots[r].user, l)
  }

  /** A conflict row is open exactly while its operation is in status conflict; operation and row pair off. */
  ghost predicate ConflictsOk(s: State) {
    && (forall c :: c in s.conflicts ==>
          && c < s.nextConflict
          && s.conflicts[c].op in s.ops
          && s.ops[s.conflicts[c].op].root == s.conflicts[c].root
          && (s.conflicts[c].choice.None? <==> s.ops[s.conflicts[c].op].status.Conflicted?))
    && (forall c, d :: c in s.conflicts && d in s.conflicts && c != d ==> s.conflicts[c].op != s.conflicts[d].op)
    && (forall o :: o in s.ops && !s.ops[o].status.Applied? ==> exists c :: c in s.conflicts && s.conflicts[c].op == o)
  }

  ghost predicate KeptLocal(s: State, o: OpId) {
    exists c :: c in s.conflicts && s.conflicts[c].op == o && s.conflicts[c].choice == Some(KeepLocal)
  }

  /** The item exists once `o` is applied; if it existed before, `o` extends the revision it had then. */
  ghost predicate Chains(s: State, o: OpId)
    requires o in s.ops && s.ops[o].cursor >= 1
  {
    var before := Replay(s.ops, s.ops[o].root, s.ops[o].cursor - 1);
    && s.ops[o].logical in Replay(s.ops, s.ops[o].root, s.ops[o].cursor)
    && (s.ops[o].logical in before ==> s.ops[o].base == Some(before[s.ops[o].logical].revision) || KeptLocal(s, o))
  }

  /** Every applied operation chains, unless a person kept it. */
  ghost predicate LinearOk(s: State) {
    forall o :: o in s.ops && s.ops[o].status.Applied? ==> s.ops[o].cursor >= 1 && Chains(s, o)
  }

  ghost predicate Inv(s: State) {
    && LogOk(s)
    && Constraints(s.assets, s.nextAsset)
    && ItemsOk(s)
    && ReplayOk(s)
    && ConflictsOk(s)
    && LinearOk(s)
  }

  // ---------------------------------------------------------------- how the journal grows

  ghost predicate SameRequest(o: Op, p: Op) {
    o.root == p.root && o.client == p.client && o.sequence == p.sequence && o.kind == p.kind
    && o.logical == p.logical && o.base == p.base
  }

  /** Operations are never lost, applied ones never change, and newly applied ones lie beyond the old cursor. */
  ghost predicate Extends(s: State, s': State) {
    && (forall r :: r in s.roots ==> r in s'.roots && s.roots[r].user == s'.roots[r].user
                                     && s.roots[r].cursor <= s'.roots[r].cursor)
    && (forall o :: o in s.ops ==>
          && o in s'.ops && SameRequest(s.ops[o], s'.ops[o])
          && (s.ops[o].status.Applied? ==> s'.ops[o] == s.ops[o]))
    && (forall o :: o in s'.ops && s'.ops[o].status.Applied? && !(o in s.ops && s.ops[o].status.Applied?) ==>
          s'.ops[o].root in s.roots ==> s'.ops[o].cursor > s.roots[s'.ops[o].root].cursor)
  }

  lemma ExtendsTransitive(s: State, s': State, s'': State)
    requires Extends(s, s') && Extends(s', s'')
    ensures Extends(s, s'')
  {
  }

  // ---------------------------------------------------------------- replay

  lemma OpAtIs(s: State, o: OpId)
    requires LogOk(s) && o in s.ops && s.ops[o].status.Applied?
    ensures OpAt(s.ops, s.ops[o].root, s.ops[o].cursor) == Some(s.ops[o])
  {
    assert AppliedAt(s.ops, o, s.ops[o].root, s.ops[o].cursor);
  }

  /** Positions up to the old cursor read the same after the journal has grown. */
  lemma OpAtFrozen(s: State, s': State, r: RootId, n: nat)
    requires LogOk(s) && LogOk(s') && Extends(s, s') && r in s.roots && n <= s.roots[r].cursor
    ensures OpAt(s'.ops, r, n) == OpAt(s.ops, r, n)
  {
    if o :| AppliedAt(s.ops, o, r, n) {
      OpAtIs(s, o);
      OpAtIs(s', o);
    } else if o :| AppliedAt(s'.ops, o, r, n) {
      assert AppliedAt(s.ops, o, r, n);
    }
  }

  lemma {:induction false} ReplayFrozen(s: State, s': State, r: RootId, n: nat)
    requires LogOk(s) && LogOk(s') && Extends(s, s') && r in s.roots && n <= s.roots[r].cursor
    ensures Replay(s'.ops, r, n) == Replay(s.ops, r, n)
  {
    if n > 0 {
      ReplayFrozen(s, s', r, n - 1);
      OpAtFrozen(s, s', r, n);
    }
  }

  lemma {:induction false} ReplaySplits(ops: Ops, r: RootId, from: nat, to: nat)
    requires from <= to
    ensures Replay(ops, r, to) == ReplayFrom(Replay(ops, r, from), ops, r, from, to)
  {
    if from < to {
      ReplaySplits(ops, r, from, to - 1);
    }
  }

  /** Growing the log without applying anything leaves every table a replay. */
  lemma ReplayUnchanged(s: State, s': State)
    requires LogOk(s) && LogOk(s') && Extends(s, s') && ReplayOk(s)
    requires s'.tables == s.tables && s'.assets.Keys == s.assets.Keys && s'.roots.Keys == s.roots.Keys
    requires forall o :: o in s'.ops && s'.ops[o].status.Applied? ==> o in s.ops && s.ops[o].status.Applied?
    requires forall r :: r in s.roots ==> s'.roots[r].cursor <= s.roots[r].cursor + 1
    ensures ReplayOk(s')
  {
    forall r | r in s'.roots
      ensures Replay(s'.ops, r, s'.roots[r].cursor) == Replay(s.ops, r, s.roots[r].cursor)
    {
      ReplayFrozen(s, s', r, s.roots[r].cursor);
      var next := s.roots[r].cursor + 1;
      assert forall o :: !AppliedAt(s'.ops, o, r, next);
    }
  }

  ghost predicate AssetsBelow(t: Table, next: AssetId) {
    forall l :: l in t && t[l].asset.Some? ==> t[l].asset.value < next
  }

  lemma {:induction false} ReplayAssetsBelow(s: State, r: RootId, n: nat)
    requires LogOk(s)
    ensures AssetsBelow(Replay(s.ops, r, n), s.nextAsset)
  {
    if n > 0 {
      ReplayAssetsBelow(s, r, n - 1);
    }
  }

  /** Rows added at fresh ids do not change what a replay shows. */
  lemma MaskIgnoresFresh(t: Table, live: set<AssetId>, live': set<AssetId>, next: AssetId)
    requires AssetsBelow(t, next) && live <= live' && forall i :: i in live' ==> i in live || i >= next
    ensures Mask(t, live) == Mask(t, live')
  {
    forall l | l in t
      ensures Mask(t, live)[l] == Mask(t, live')[l]
    {
    }
  }

  // ---------------------------------------------------------------- one item operation

  /** No row is lost and new rows take fresh ids. */
  ghost predicate GrowsFresh(s: State, change: Change)
    requires change.Changed?
  {
    && s.nextAsset <= change.nextAsset
    && s.assets.Keys <= change.assets.Keys
    && (forall i :: i in change.assets.Keys ==> i in s.assets.Keys || i >= s.nextAsset)
  }

  /** Under the constraints the branch that reuses an older revision of the same item cannot be taken. */
  lemma ReuseBranchUnreachable(s: State, root: RootId, i: AssetId, logical: LogicalId)
    requires Constraints(s.assets, s.nextAsset) && root in s.roots && root in s.tables
    requires IsActiveOf(s.assets, i, s.roots[root].user) && s.assets[i].logical == logical
    ensures !ReusesOldRevision(s.tables[root], i, logical, ActiveTarget(s.assets, s.roots[root].user, logical))
  {
    assert InHistory(s.assets, i, s.roots[root].user, logical);
  }

  /** No revision of the history but `i` is active any more. */
  lemma QuietedKeeps(assets: Assets, next: AssetId, user: UserId, logical: LogicalId, i: AssetId)
    requires Constraints(assets, next)
    ensures var quiet := Quieted(assets, ActiveTarget(assets, user, logical), i);
            && Constraints(quiet, next) && SameRows(assets, quiet)
            && forall j :: InHistory(quiet, j, user, logical) && j != i ==> !quiet[j].life.Active?
  {
    var target := ActiveTarget(assets, user, logical);
    forall j | InHistory(assets, j, user, logical) && assets[j].life.Active?
      ensures target == Some(j)
    {
      assert InHistory(assets, target.value, user, logical);
    }
  }

  /** A new or moved row may become the active one of a history without another of its version or another active
      one. */
  lemma PutActiveKeeps(assets: Assets, next: AssetId, i: AssetId, row: Asset)
    requires Constraints(assets, next) && i <= next && row.version > 0
    requires forall j :: j in assets && j != i && SameHistory(assets[j], row) ==>
               assets[j].version != row.version && !assets[j].life.Active?
    ensures Constraints(assets[i := Activated(row)], if i == next then next + 1 else next)
  {
  }

  /** Attaching to a history, above its versions. */
  lemma AttachKeeps(assets: Assets, next: AssetId, user: UserId, logical: LogicalId, i: AssetId, final: AssetId,
                    version: int)
    requires Constraints(assets, next) && IsActiveOf(assets, i, user) && assets[i].logical != logical
    requires (final == next || final == i) && version > 0
    requires forall j :: InHistory(assets, j, user, logical) ==> assets[j].version < version
    ensures var quiet := Quieted(assets, ActiveTarget(assets, user, logical), i);
            Constraints(quiet[final := Activated(assets[i].(logical := logical, version := version))],
                        if final == next then next + 1 else next)
  {
    var quiet := Quieted(assets, ActiveTarget(assets, user, logical), i);
    QuietedKeeps(assets, next, user, logical, i);
    var row := assets[i].(logical := logical, version := version);
    forall j | j in quiet && j != final && SameHistory(quiet[j], row)
      ensures quiet[j].version != version && !quiet[j].life.Active?
    {
      assert InHistory(quiet, j, user, logical) && InHistory(assets, j, user, logical) && j != i;
    }
    PutActiveKeeps(quiet, next, final, row);
  }

  /** Activating a revision of the history itself. */
  lemma ActivateKeeps(assets: Assets, next: AssetId, user: UserId, logical: LogicalId, i: AssetId)
    requires Constraints(assets, next) && InHistory(assets, i, user, logical)
    ensures var quiet := Quieted(assets, ActiveTarget(assets, user, logical), i);
            Constraints(quiet[i := Activated(assets[i])], next)
  {
    var quiet := Quieted(assets, ActiveTarget(assets, user, logical), i);
    QuietedKeeps(assets, next, user, logical, i);
    forall j | j in quiet && j != i && SameHistory(quiet[j], assets[i])
      ensures quiet[j].version != assets[i].version && !quiet[j].life.Active?
    {
      assert InHistory(quiet, j, user, logical);
    }
    PutActiveKeeps(quiet, next, i, assets[i]);
  }

  lemma AttachingUpsertKeeps(s: State, root: RootId, input: Input, revision: string)
    requires Constraints(s.assets, s.nextAsset) && root in s.roots && root in s.tables
    requires UpsertItem(s, root, input, revision).Changed? && s.assets[input.asset.value].logical != input.logical
    ensures var change := UpsertItem(s, root, input, revision); Constraints(change.assets, change.nextAsset)
  {
    var user, i := s.roots[root].user, input.asset.value;
    var clone := ReferencedElsewhere(s.tables, i, root, input.logical) || HasHistory(s.assets, i);
    AttachKeeps(s.assets, s.nextAsset, user, input.logical, i, if clone then s.nextAsset else i,
                HighestVersion(s.assets, user, input.logical) + 1);
  }

  lemma ActivatingUpsertKeeps(s: State, root: RootId, input: Input, revision: string)
    requires Constraints(s.assets, s.nextAsset) && root in s.roots && root in s.tables
    requires UpsertItem(s, root, input, revision).Changed? && s.assets[input.asset.value].logical == input.logical
    ensures var change := UpsertItem(s, root, input, revision); Constraints(change.assets, change.nextAsset)
  {
    ReuseBranchUnreachable(s, root, input.asset.value, input.logical);
    ActivateKeeps(s.assets, s.nextAsset, s.roots[root].user, input.logical, input.asset.value);
  }

  lemma UpsertKeepsConstraints(s: State, root: RootId, input: Input, revision: string)
    requires Constraints(s.assets, s.nextAsset) && root in s.roots && root in s.tables
    requires UpsertItem(s, root, input, revision).Changed?
    ensures var change := UpsertItem(s, root, input, revision); Constraints(change.assets, change.nextAsset)
  {
    if s.assets[input.asset.value].logical != input.logical {
      AttachingUpsertKeeps(s, root, input, revision);
    } else {
      ActivatingUpsertKeeps(s, root, input, revision);
    }
  }

  lemma DeleteKeepsConstraints(s: State, root: RootId, input: Input, revision: string, env: Env)
    requires Constraints(s.assets, s.nextAsset) && root in s.roots && root in s.tables
    requires DeleteItem(s, root, input, revision, env).Changed?
    ensures var change := DeleteItem(s, root, input, revision, env);
            Constraints(change.assets, change.nextAsset) && GrowsFresh(s, change)
  {
    if input.logical in s.tables[root] && s.tables[root][input.logical].asset.Some? {
      var i := s.tables[root][input.logical].asset.value;
      if Trash(s.assets, i, env.now, env.days).Ok? {
        TrashKeeps(s.assets, s.nextAsset, i, env.now, env.days);
      }
    }
  }

  /** The catalogue after an item operation still satisfies the constraints of the assets table. */
  lemma ApplyItemKeepsConstraints(s: State, root: RootId, input: Input, revision: string, env: Env)
    requires Constraints(s.assets, s.nextAsset) && root in s.roots && root in s.tables
    requires ApplyItem(s, root, input, revision, env).Changed?
    ensures var change := ApplyItem(s, root, input, revision, env);
            Constraints(change.assets, change.nextAsset) && GrowsFresh(s, change)
  {
    match input.kind
    case Upsert => UpsertKeepsConstraints(s, root, input, revision);
    case Move =>
    case Delete => DeleteKeepsConstraints(s, root, input, revision, env);
  }

  /** The item points into its own history, and no other item loses its asset. */
  ghost predicate ItemsPointHome(s: State, root: RootId, logical: LogicalId, change: Change)
    requires root in s.roots && s.tables.Keys == s.roots.Keys && change.Changed?
  {
    && (change.item.asset.Some? ==> InHistory(change.assets, change.item.asset.value, s.roots[root].user, logical))
    && (forall r, l ::
          r in s.tables && l in s.tables[r] && s.tables[r][l].asset.Some? && (r != root || l != logical) ==>
          InHistory(change.assets, s.tables[r][l].asset.value, s.roots[r].user, l))
  }

  lemma UpsertKeepsItems(s: State, root: RootId, input: Input, revision: string)
    requires Constraints(s.assets, s.nextAsset) && ItemsOk(s) && root in s.roots
    requires UpsertItem(s, root, input, revision).Changed?
    ensures ItemsPointHome(s, root, input.logical, UpsertItem(s, root, input, revision))
  {
  }

  lemma ApplyItemKeepsItems(s: State, root: RootId, input: Input, revision: string, env: Env)
    requires Constraints(s.assets, s.nextAsset) && ItemsOk(s) && root in s.roots
    requires ApplyItem(s, root, input, revision, env).Changed?
    ensures ItemsPointHome(s, root, input.logical, ApplyItem(s, root, input, revision, env))
  {
    if input.kind.Upsert? { UpsertKeepsItems(s, root, input, revision); }
  }

  // ---------------------------------------------------------------- recording an operation

  /** `s'` has the row `op` at the next cursor of its root, new or in place of an operation not applied before. */
  ghost predicate Records(s: State, s': State, id: OpId, op: Op)
    requires LogOk(s)
  {
    && op.root in s.roots
    && op.cursor == s.roots[op.root].cursor + 1
    && (id in s.ops ==> SameRequest(s.ops[id], op) && !s.ops[id].status.Applied?)
    && (id !in s.ops ==> !SequenceTaken(s.ops, op.root, op.client, op.sequence))
    && (op.status.Applied? && op.payload.asset.Some? ==> op.payload.asset.value < s'.nextAsset)
    && s'.ops == s.ops[id := op]
    && s'.roots == s.roots[op.root := s.roots[op.root].(cursor := op.cursor)]
    && s'.tables.Keys == s.tables.Keys
    && s.nextAsset <= s'.nextAsset
  }

  lemma RecordsRows(s: State, s': State, id: OpId, op: Op)
    requires LogOk(s) && Records(s, s', id, op)
    ensures RowsInRange(s')
  {
  }

  lemma RecordsExtends(s: State, s': State, id: OpId, op: Op)
    requires LogOk(s) && Records(s, s', id, op)
    ensures Extends(s, s')
  {
  }

  lemma RecordsDistinct(s: State, s': State, id: OpId, op: Op)
    requires LogOk(s) && Records(s, s', id, op)
    ensures CursorsDistinct(s'.ops) && SequencesDistinct(s'.ops)
  {
    forall o | o in s.ops && o != id && s.ops[o].root == op.root
      ensures s.ops[o].cursor != op.cursor
      ensures s.ops[o].client == op.client ==> s.ops[o].sequence != op.sequence
    {
      if id in s.ops {
        assert SameRequest(s.ops[id], op);
      }
    }
  }

  lemma RecordsLog(s: State, s': State, id: OpId, op: Op)
    requires LogOk(s) && Records(s, s', id, op)
    ensures LogOk(s') && Extends(s, s')
  {
    RecordsRows(s, s', id, op);
    RecordsExtends(s, s', id, op);
    RecordsDistinct(s, s', id, op);
  }

  // ---------------------------------------------------------------- publishing an operation

  /** What an operation and its effect must satisfy to be recorded at the next cursor of its root. */
  ghost predicate Sound(s: State, id: OpId, op: Op, change: Change)
    requires LogOk(s)
  {
    && op.root in s.roots && op.status.Applied? && change.Changed?
    && op.cursor == s.roots[op.root].cursor + 1
    && (op.payload.asset.Some? ==> op.payload.asset.value < change.nextAsset)
    && (id in s.ops ==> SameRequest(s.ops[id], op) && !s.ops[id].status.Applied?)
    && (id !in s.ops ==> !SequenceTaken(s.ops, op.root, op.client, op.sequence))
    && Constraints(change.assets, change.nextAsset)
    && GrowsFresh(s, change)
    && (change.item.asset.Some? ==>
          InHistory(change.assets, change.item.asset.value, s.roots[op.root].user, op.logical))
    && (forall r, l ::
          r in s.tables && l in s.tables[r] && s.tables[r][l].asset.Some? && (r != op.root || l != op.logical) ==>
          InHistory(change.assets, s.tables[r][l].asset.value, s.roots[r].user, l))
    && s.tables[op.root][op.logical := change.item]
       == Mask(ReplayStep(Replay(s.ops, op.root, op.cursor - 1), op), change.assets.Keys)
  }

  /** A reader replaying the published operation gets the item the server wrote. */
  lemma ItemFollowsReplay(s: State, input: Input, revision: string, env: Env, op: Op)
    requires Inv(s) && op.root in s.roots && ApplyItem(s, op.root, input, revision, env).Changed?
    requires op.kind == input.kind && op.logical == input.logical
    requires op.payload == ApplyItem(s, op.root, input, revision, env).payload
    ensures var change := ApplyItem(s, op.root, input, revision, env);
            var before := Replay(s.ops, op.root, s.roots[op.root].cursor);
            s.tables[op.root][op.logical := change.item.(revision := op.revision)]
                == Mask(ReplayStep(before, op), change.assets.Keys)
  {
    var change := ApplyItem(s, op.root, input, revision, env);
    var before := Replay(s.ops, op.root, s.roots[op.root].cursor);
    ReplayAssetsBelow(s, op.root, s.roots[op.root].cursor);
    ApplyItemKeepsConstraints(s, op.root, input, revision, env);
    ApplyItemKeepsItems(s, op.root, input, revision, env);
    MaskIgnoresFresh(before, s.assets.Keys, change.assets.Keys, s.nextAsset);
    MaskedStep(before, op, change.assets.Keys, change.item.(revision := op.revision));
  }

  /** Replaying a step and then masking is writing the masked item. */
  lemma MaskedStep(t: Table, op: Op, live: set<AssetId>, item: Item)
    requires item.revision == op.revision && (item.asset.Some? ==> item.asset.value in live)
    requires var path := if op.payload.path.Some? then op.payload.path.value else "";
             match op.kind
             case Upsert => item == Item(op.payload.asset, path, op.revision, false)
             case Move => op.logical in t && item == Mask(t, live)[op.logical].(path := path, revision := op.revision)
             case Delete =>
               if op.logical in t then item == Mask(t, live)[op.logical].(deleted := true, revision := op.revision)
               else item == Item(None, path, op.revision, false)
    ensures Mask(t, live)[op.logical := item] == Mask(ReplayStep(t, op), live)
  {
  }

  /** The payload names an asset the catalogue has issued. */
  lemma PayloadIssued(s: State, root: RootId, input: Input, revision: string, env: Env)
    requires Constraints(s.assets, s.nextAsset) && ItemsOk(s) && root in s.roots
    requires ApplyItem(s, root, input, revision, env).Changed?
    ensures var change := ApplyItem(s, root, input, revision, env);
            change.payload.asset.Some? ==> change.payload.asset.value < change.nextAsset
  {
    ApplyItemKeepsConstraints(s, root, input, revision, env);
  }

  lemma ApplyItemSound(s: State, id: OpId, input: Input, revision: string, env: Env, op: Op)
    requires Inv(s) && op.root in s.roots && ApplyItem(s, op.root, input, revision, env).Changed?
    requires op.kind == input.kind && op.logical == input.logical
    requires op.payload == ApplyItem(s, op.root, input, revision, env).payload
    requires op.cursor == s.roots[op.root].cursor + 1 && op.status.Applied?
    requires id in s.ops ==> SameRequest(s.ops[id], op) && !s.ops[id].status.Applied?
    requires id !in s.ops ==> !SequenceTaken(s.ops, op.root, op.client, op.sequence)
    ensures var change := ApplyItem(s, op.root, input, revision, env);
            Sound(s, id, op, change.(item := change.item.(revision := op.revision)))
  {
    ApplyItemKeepsConstraints(s, op.root, input, revision, env);
    ApplyItemKeepsItems(s, op.root, input, revision, env);
    ItemFollowsReplay(s, input, revision, env, op);
    PayloadIssued(s, op.root, input, revision, env);
  }
}
