/** One operation, one conflict and one resolution each keep the invariant of the journal. */
module JournalRuns {
  import opened Options
  import opened Catalog
  import opened Journal
  import opened JournalInvariants

  // ---------------------------------------------------------------- publishing keeps the invariant

  /** `s'` has the published operation and its effect; nothing is said of its conflict rows. */
  ghost predicate Publishes(s: State, s': State, id: OpId, op: Op, change: Change)
    requires LogOk(s)
  {
    && Sound(s, id, op, change)
    && s' == Publish(s, id, op, change).(conflicts := s'.conflicts)
  }

  lemma PublishGrows(s: State, s': State, id: OpId, op: Op, change: Change)
    requires LogOk(s) && Publishes(s, s', id, op, change)
    ensures LogOk(s') && Extends(s, s')
  {
    RecordsLog(s, s', id, op);
  }

  lemma PublishKeepsReplay(s: State, s': State, id: OpId, op: Op, change: Change)
    requires LogOk(s) && ReplayOk(s) && Publishes(s, s', id, op, change)
    ensures ReplayOk(s') && op.logical in Replay(s'.ops, op.root, op.cursor)
  {
    PublishGrows(s, s', id, op, change);
    forall r | r in s'.roots
      ensures s'.tables[r] == Mask(Replay(s'.ops, r, s'.roots[r].cursor), s'.assets.Keys)
    {
      ReplayFrozen(s, s', r, s.roots[r].cursor);
      if r == op.root {
        OpAtIs(s', id);
      } else {
        ReplayAssetsBelow(s, r, s.roots[r].cursor);
        MaskIgnoresFresh(Replay(s.ops, r, s.roots[r].cursor), s.assets.Keys, s'.assets.Keys, s.nextAsset);
      }
    }
    assert op.logical in s'.tables[op.root];
  }

  lemma PublishKeepsItems(s: State, s': State, id: OpId, op: Op, change: Change)
    requires LogOk(s) && ItemsOk(s) && Publishes(s, s', id, op, change)
    ensures ItemsOk(s') && Constraints(s'.assets, s'.nextAsset)
  {
  }

  lemma PublishKeeps(s: State, s': State, id: OpId, op: Op, change: Change)
    requires LogOk(s) && ReplayOk(s) && ItemsOk(s) && Publishes(s, s', id, op, change)
    ensures LogOk(s') && Extends(s, s') && ReplayOk(s') && ItemsOk(s') && Constraints(s'.assets, s'.nextAsset)
    ensures op.logical in Replay(s'.ops, op.root, op.cursor)
  {
    PublishGrows(s, s', id, op, change);
    PublishKeepsReplay(s, s', id, op, change);
    PublishKeepsItems(s, s', id, op, change);
  }

  /** Operations that were chained stay chained when the journal grows and no keep_local record is lost. */
  lemma ChainsFrozen(s: State, s': State, o: OpId)
    requires LogOk(s) && LinearOk(s) && LogOk(s') && Extends(s, s') && o in s.ops && s.ops[o].status.Applied?
    requires KeptLocal(s, o) ==> KeptLocal(s', o)
    ensures s'.ops[o].cursor >= 1 && Chains(s', o)
  {
    ReplayFrozen(s, s', s.ops[o].root, s.ops[o].cursor - 1);
    ReplayFrozen(s, s', s.ops[o].root, s.ops[o].cursor);
  }

  lemma RecordingKeepsLinear(s: State, s': State, id: OpId)
    requires LogOk(s) && LinearOk(s) && LogOk(s') && Extends(s, s')
    requires forall o :: o in s'.ops && s'.ops[o].status.Applied? && o != id ==> o in s.ops && s.ops[o].status.Applied?
    requires forall c :: c in s.conflicts && s.conflicts[c].choice.Some? ==>
             c in s'.conflicts && s'.conflicts[c] == s.conflicts[c]
    requires id in s'.ops && s'.ops[id].status.Applied? ==> Chains(s', id)
    ensures LinearOk(s')
  {
    KeptLocalKept(s, s');
    forall o | o in s'.ops && s'.ops[o].status.Applied? && o != id
      ensures s'.ops[o].cursor >= 1 && Chains(s', o)
    {
      ChainsFrozen(s, s', o);
    }
  }

  lemma KeptLocalKept(s: State, s': State)
    requires forall c :: c in s.conflicts && s.conflicts[c].choice.Some? ==>
             c in s'.conflicts && s'.conflicts[c] == s.conflicts[c]
    ensures forall o :: KeptLocal(s, o) ==> KeptLocal(s', o)
  {
    forall o, c | c in s.conflicts && s.conflicts[c].op == o && s.conflicts[c].choice == Some(KeepLocal)
      ensures KeptLocal(s', o)
    {
      assert s'.conflicts[c].op == o;
    }
  }

  lemma NewOperationKeeps(s: State, root: RootId, client: string, input: Input, env: Env)
    requires Inv(s) && root in s.roots && !Known(s.ops, root, client, input)
    ensures Inv(ApplyOne(s, root, client, input, env))
    ensures Extends(s, ApplyOne(s, root, client, input, env))
  {
    if ApplyOne(s, root, client, input, env).ops[input.id].status.Applied? {
      AcceptKeeps(s, root, client, input, env);
    } else {
      ConflictKeeps(s, root, client, input, env);
    }
  }

  lemma ApplyOneKeeps(s: State, root: RootId, client: string, input: Input, env: Env)
    requires Inv(s) && root in s.roots
    ensures Inv(ApplyOne(s, root, client, input, env))
    ensures Extends(s, ApplyOne(s, root, client, input, env))
  {
    if !Known(s.ops, root, client, input) {
      NewOperationKeeps(s, root, client, input, env);
    } else {
      assert ApplyOne(s, root, client, input, env) == s;
    }
  }

  /** An accepted operation is published with the change it makes. */
  lemma AcceptPublishes(s: State, root: RootId, client: string, input: Input, env: Env)
    requires RowsOk(s) && root in s.roots && !Known(s.ops, root, client, input)
    requires ApplyOne(s, root, client, input, env).ops[input.id].status.Applied?
    ensures var s' := ApplyOne(s, root, client, input, env);
            var op := s'.ops[input.id];
            var change := ApplyItem(s, root, input, op.revision, env);
            && op.root == root && op.kind == input.kind && op.logical == input.logical && op.base == input.base
            && op.cursor == s.roots[root].cursor + 1 && op.client == client && op.sequence == input.sequence
            && StaleKind(s.tables[root], input).None?
            && change.Changed? && op.payload == change.payload && change.item.(revision := op.revision) == change.item
            && s' == Publish(s, input.id, op, change)
  {
  }

  lemma AcceptKeeps(s: State, root: RootId, client: string, input: Input, env: Env)
    requires Inv(s) && root in s.roots && !Known(s.ops, root, client, input)
    requires ApplyOne(s, root, client, input, env).ops[input.id].status.Applied?
    ensures Inv(ApplyOne(s, root, client, input, env))
    ensures Extends(s, ApplyOne(s, root, client, input, env))
  {
    var s' := ApplyOne(s, root, client, input, env);
    var op := s'.ops[input.id];
    var change := ApplyItem(s, root, input, op.revision, env);
    AcceptPublishes(s, root, client, input, env);
    ApplyItemSound(s, input.id, input, op.revision, env, op);
    AcceptedInv(s, input.id, op, change);
  }

  /** A new operation chains when it is based on the revision its item has, or on no item at all. */
  lemma AcceptedLinear(s: State, s': State, id: OpId, op: Op)
    requires LogOk(s) && ReplayOk(s) && LinearOk(s) && LogOk(s') && Extends(s, s') && op.root in s.roots
    requires op.logical in s.tables[op.root] ==> op.base == Some(s.tables[op.root][op.logical].revision)
    requires s'.ops == s.ops[id := op] && op.cursor == s.roots[op.root].cursor + 1 && s'.conflicts == s.conflicts
    requires op.logical in Replay(s'.ops, op.root, op.cursor)
    ensures LinearOk(s')
  {
    ReplayFrozen(s, s', op.root, s.roots[op.root].cursor);
    RecordingKeepsLinear(s, s', id);
  }

  lemma AcceptedPairs(s: State, s': State, id: OpId, op: Op)
    requires ConflictsOk(s) && id !in s.ops && op.status.Applied? && s'.ops == s.ops[id := op]
    requires s'.conflicts == s.conflicts && s'.nextConflict == s.nextConflict
    ensures ConflictsOk(s')
  {
    forall o | o in s'.ops && !s'.ops[o].status.Applied?
      ensures exists c :: c in s'.conflicts && s'.conflicts[c].op == o
    {
      assert o in s.ops;
    }
  }

  lemma AcceptedInv(s: State, id: OpId, op: Op, change: Change)
    requires Inv(s) && Sound(s, id, op, change) && id !in s.ops
    requires op.logical in s.tables[op.root] ==> op.base == Some(s.tables[op.root][op.logical].revision)
    ensures Inv(Publish(s, id, op, change))
    ensures Extends(s, Publish(s, id, op, change))
  {
    var s' := Publish(s, id, op, change);
    PublishKeeps(s, s', id, op, change);
    AcceptedLinear(s, s', id, op);
    AcceptedPairs(s, s', id, op);
  }

  /** The state in which an operation was only recorded, as a conflict. */
  ghost predicate RecordedConflict(s: State, s': State, id: OpId, op: Op, conflict: Conflict)
    requires LogOk(s)
  {
    && op.root in s.roots && op.status.Conflicted? && id !in s.ops
    && op.cursor == s.roots[op.root].cursor + 1
    && !SequenceTaken(s.ops, op.root, op.client, op.sequence)
    && conflict.op == id && conflict.root == op.root && conflict.choice.None?
    && s' == s.(roots := s.roots[op.root := s.roots[op.root].(cursor := op.cursor)], ops := s.ops[id := op],
                conflicts := s.conflicts[s.nextConflict := conflict], nextConflict := s.nextConflict + 1)
  }

  lemma ConflictGrows(s: State, s': State, id: OpId, op: Op, conflict: Conflict)
    requires LogOk(s) && ConflictsOk(s) && RecordedConflict(s, s', id, op, conflict)
    ensures LogOk(s') && Extends(s, s') && ConflictsOk(s')
  {
    RecordsLog(s, s', id, op);
    ConflictPairs(s, s', id, op, conflict);
  }

  lemma ConflictPairs(s: State, s': State, id: OpId, op: Op, conflict: Conflict)
    requires LogOk(s) && ConflictsOk(s) && RecordedConflict(s, s', id, op, conflict)
    ensures ConflictsOk(s')
  {
    assert s'.conflicts[s.nextConflict].op == id;
    forall o | o in s'.ops && !s'.ops[o].status.Applied?
      ensures exists c :: c in s'.conflicts && s'.conflicts[c].op == o
    {
      if o != id {
        var c :| c in s.conflicts && s.conflicts[c].op == o;
        assert s'.conflicts[c].op == o;
      }
    }
  }

  lemma ConflictLinear(s: State, s': State, id: OpId, op: Op, conflict: Conflict)
    requires LogOk(s) && LinearOk(s) && RecordedConflict(s, s', id, op, conflict)
    requires LogOk(s') && Extends(s, s') && s.nextConflict !in s.conflicts
    ensures LinearOk(s')
  {
    RecordingKeepsLinear(s, s', id);
  }

  lemma ConflictReplays(s: State, s': State, id: OpId, op: Op, conflict: Conflict)
    requires LogOk(s) && ReplayOk(s) && ItemsOk(s) && RecordedConflict(s, s', id, op, conflict)
    requires LogOk(s') && Extends(s, s')
    ensures ReplayOk(s') && ItemsOk(s')
  {
    ReplayUnchanged(s, s');
  }

  lemma ConflictInv(s: State, s': State, id: OpId, op: Op, conflict: Conflict)
    requires Inv(s) && RecordedConflict(s, s', id, op, conflict)
    ensures Inv(s') && Extends(s, s')
  {
    ConflictGrows(s, s', id, op, conflict);
    ConflictReplays(s, s', id, op, conflict);
    ConflictLinear(s, s', id, op, conflict);
  }

  /** A conflicted operation is only recorded: items and assets stay as they are. */
  lemma ConflictKeeps(s: State, root: RootId, client: string, input: Input, env: Env)
    requires Inv(s) && root in s.roots && !Known(s.ops, root, client, input)
    requires ApplyOne(s, root, client, input, env).ops[input.id].status.Conflicted?
    ensures Inv(ApplyOne(s, root, client, input, env))
    ensures Extends(s, ApplyOne(s, root, client, input, env))
    ensures ApplyOne(s, root, client, input, env).assets == s.assets
    ensures ApplyOne(s, root, client, input, env).tables == s.tables
  {
    var s' := ApplyOne(s, root, client, input, env);
    ConflictInv(s, s', input.id, s'.ops[input.id], s'.conflicts[s.nextConflict]);
  }

  lemma ResolveKeeps(s: State, c: ConflictId, choice: Choice, env: Env)
    requires Inv(s) && Resolve(s, c, choice, env).Ok?
    ensures Inv(Resolve(s, c, choice, env).value)
    ensures Extends(s, Resolve(s, c, choice, env).value)
  {
    if s.conflicts[c].choice.Some? {
      assert Resolve(s, c, choice, env).value == s;
    } else if choice.KeepRemote? {
      KeepRemoteKeeps(s, c, env);
    } else {
      KeepLocalKeeps(s, c, env);
    }
  }

  lemma ResolvingKeepsConflicts(s: State, s': State, c: ConflictId, choice: Choice)
    requires ConflictsOk(s) && c in s.conflicts && s.conflicts[c].choice.None?
    requires s'.conflicts == s.conflicts[c := s.conflicts[c].(choice := Some(choice))]
             && s'.nextConflict == s.nextConflict
    requires s'.ops.Keys == s.ops.Keys
    requires forall o :: o in s.ops ==> s'.ops[o].root == s.ops[o].root
    requires forall o :: o in s.ops && o != s.conflicts[c].op ==> s'.ops[o] == s.ops[o]
    requires !s'.ops[s.conflicts[c].op].status.Conflicted?
    ensures ConflictsOk(s')
    ensures choice.KeepLocal? ==> KeptLocal(s', s.conflicts[c].op)
  {
    assert s'.conflicts[c].op == s.conflicts[c].op;
    forall o | o in s'.ops && !s'.ops[o].status.Applied?
      ensures exists d :: d in s'.conflicts && s'.conflicts[d].op == o
    {
      if o == s.conflicts[c].op {
        assert s'.conflicts[c].op == o;
      } else {
        var d :| d in s.conflicts && s.conflicts[d].op == o;
        assert s'.conflicts[d].op == o;
      }
    }
  }

  /** Resolving one conflict keeps the pairing of rows and the chains of the other operations. */
  lemma ResolvedPairs(s: State, s': State, c: ConflictId, choice: Choice)
    requires LogOk(s) && ConflictsOk(s) && LinearOk(s) && LogOk(s') && Extends(s, s') && c in s.conflicts
             && s.conflicts[c].choice.None?
    requires s'.conflicts == s.conflicts[c := s.conflicts[c].(choice := Some(choice))]
             && s'.nextConflict == s.nextConflict
    requires s.conflicts[c].op in s.ops && s'.ops == s.ops[s.conflicts[c].op := s'.ops[s.conflicts[c].op]]
    requires s'.ops[s.conflicts[c].op].status == if choice.KeepLocal? then Applied else Rejected
    requires var op := s'.ops[s.conflicts[c].op];
             choice.KeepLocal? ==> op.cursor >= 1 && op.logical in Replay(s'.ops, op.root, op.cursor)
    ensures ConflictsOk(s') && LinearOk(s')
  {
    ResolvingKeepsConflicts(s, s', c, choice);
    ResolvedLinear(s, s', c, choice);
  }

  lemma ResolvedLinear(s: State, s': State, c: ConflictId, choice: Choice)
    requires LogOk(s) && LinearOk(s) && LogOk(s') && Extends(s, s') && c in s.conflicts && s.conflicts[c].choice.None?
    requires s'.conflicts == s.conflicts[c := s.conflicts[c].(choice := Some(choice))]
    requires s.conflicts[c].op in s.ops && s'.ops == s.ops[s.conflicts[c].op := s'.ops[s.conflicts[c].op]]
    requires s'.ops[s.conflicts[c].op].status == if choice.KeepLocal? then Applied else Rejected
    requires var op := s'.ops[s.conflicts[c].op];
             choice.KeepLocal? ==> KeptLocal(s', s.conflicts[c].op) && op.cursor >= 1
                                   && op.logical in Replay(s'.ops, op.root, op.cursor)
    ensures LinearOk(s')
  {
    RecordingKeepsLinear(s, s', s.conflicts[c].op);
  }

  lemma RejectExtends(s: State, s': State, id: OpId)
    requires id in s.ops && s.ops[id].status.Conflicted?
    requires s'.ops == s.ops[id := s.ops[id].(status := Rejected)] && s'.roots == s.roots
    ensures Extends(s, s')
  {
  }

  lemma RejectKeepsKeys(s: State, s': State, id: OpId)
    requires LogOk(s) && id in s.ops && s.ops[id].status.Conflicted?
    requires s'.ops == s.ops[id := s.ops[id].(status := Rejected)]
    ensures CursorsDistinct(s'.ops) && SequencesDistinct(s'.ops)
  {
    assert forall o :: o in s'.ops ==> o in s.ops && SameRequest(s.ops[o], s'.ops[o])
                                       && s'.ops[o].cursor == s.ops[o].cursor;
  }

  lemma RejectGrows(s: State, s': State, id: OpId)
    requires LogOk(s) && id in s.ops && s.ops[id].status.Conflicted?
    requires s'.ops == s.ops[id := s.ops[id].(status := Rejected)]
    requires s'.roots == s.roots && s'.tables == s.tables && s'.nextAsset == s.nextAsset
    ensures LogOk(s') && Extends(s, s')
  {
    RejectExtends(s, s', id);
    RejectKeepsKeys(s, s', id);
  }

  lemma RejectedInv(s: State, s': State, c: ConflictId)
    requires Inv(s) && c in s.conflicts && s.conflicts[c].choice.None?
    requires var id := s.conflicts[c].op;
             s' == s.(ops := s.ops[id := s.ops[id].(status := Rejected)],
                      conflicts := s.conflicts[c := s.conflicts[c].(choice := Some(KeepRemote))])
    ensures Inv(s') && Extends(s, s')
  {
    RejectGrows(s, s', s.conflicts[c].op);
    ReplayUnchanged(s, s');
    ResolvedPairs(s, s', c, KeepRemote);
  }

  lemma KeepRemoteKeeps(s: State, c: ConflictId, env: Env)
    requires Inv(s) && Resolve(s, c, KeepRemote, env).Ok? && s.conflicts[c].choice.None?
    ensures Inv(Resolve(s, c, KeepRemote, env).value)
    ensures Extends(s, Resolve(s, c, KeepRemote, env).value)
  {
    RejectedInv(s, Resolve(s, c, KeepRemote, env).value, c);
  }

  lemma KeptInv(s: State, s': State, c: ConflictId, op: Op, change: Change)
    requires Inv(s) && c in s.conflicts && s.conflicts[c].choice.None?
             && Publishes(s, s', s.conflicts[c].op, op, change)
    requires s'.conflicts == s.conflicts[c := s.conflicts[c].(choice := Some(KeepLocal))]
    ensures Inv(s') && Extends(s, s')
  {
    PublishKeeps(s, s', s.conflicts[c].op, op, change);
    ResolvedPairs(s, s', c, KeepLocal);
  }

  lemma KeepLocalKeeps(s: State, c: ConflictId, env: Env)
    requires Inv(s) && Resolve(s, c, KeepLocal, env).Ok? && s.conflicts[c].choice.None?
    ensures Inv(Resolve(s, c, KeepLocal, env).value)
    ensures Extends(s, Resolve(s, c, KeepLocal, env).value)
  {
    var s' := Resolve(s, c, KeepLocal, env).value;
    var id := s.conflicts[c].op;
    var before := s.ops[id];
    var op := s'.ops[id];
    var input := Input(id, before.sequence, before.kind, before.logical, None, before.payload.path,
        before.payload.asset);
    var change := ApplyItem(s, op.root, input, before.revision, env);
    ApplyItemSound(s, id, input, before.revision, env, op);
    KeptInv(s, s', c, op, change.(item := change.item.(revision := op.revision)));
  }
}
