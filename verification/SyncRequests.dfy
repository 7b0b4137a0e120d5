/** What a client is told to expect of a synchronization request, in terms of the rows alone: when it is accepted,
    what it then does, which conflict it opens otherwise, and what a resolution does
    (backend/app/services/sync.py). */
module SyncRequests {
  import opened Options
  import opened Catalog
  import opened Journal
  import opened JournalInvariants
  import opened Revisions

  // ---------------------------------------------------------------- when a request can be carried out

  /** What is asked for, by an input or by the payload of a conflicted operation. */
  datatype Request = Request(kind: Kind, logical: LogicalId, path: Option<string>, asset: Option<AssetId>)

  function Asked(input: Input): Request {
    Request(input.kind, input.logical, input.path, input.asset)
  }

  function Stored(op: Op): Request {
    Request(op.kind, op.logical, op.payload.path, op.payload.asset)
  }

  /** The asset is an active one of the account of the root. */
  predicate Available(s: State, root: RootId, i: AssetId)
    requires root in s.roots
  {
    i in s.assets && s.assets[i].user == s.roots[root].user && s.assets[i].life == Active
  }

  /** The rows allow the request. */
  predicate Admissible(s: State, root: RootId, q: Request, days: int)
    requires root in s.roots && root in s.tables
  {
    var items := s.tables[root];
    match q.kind
    case Upsert => q.path != None && q.asset != None && Available(s, root, q.asset.value)
    case Move =>
      && q.path != None && q.logical in items && !items[q.logical].deleted
      && (items[q.logical].asset == None || Available(s, root, items[q.logical].asset.value))
    case Delete =>
      q.logical in items && items[q.logical].asset != None ==>
        Available(s, root, items[q.logical].asset.value) && days >= 1
  }

  /** The client has seen the item as it is, or there is none yet. */
  predicate UpToDate(s: State, root: RootId, input: Input)
    requires root in s.tables
  {
    input.logical in s.tables[root] ==> Some(s.tables[root][input.logical].revision) == input.base
  }

  // ---------------------------------------------------------------- what a request does

  /** Only the asset `i` may have changed. */
  predicate OnlyAsset(before: Assets, after: Assets, i: AssetId) {
    after.Keys == before.Keys && forall j | j in before :: j != i ==> after[j] == before[j]
  }

  /** Only the one item may have changed. */
  predicate OnlyItem(before: map<RootId, Table>, after: map<RootId, Table>, root: RootId, logical: LogicalId)
    requires root in before
  {
    && after.Keys == before.Keys && (forall r | r in before :: r != root ==> after[r] == before[r])
    && after[root].Keys == before[root].Keys + {logical}
    && forall l | l in before[root] :: l != logical ==> after[root][l] == before[root][l]
  }

  /** The uploaded asset serves another item, or has older revisions of its own, and so is copied to a new row. */
  predicate NeedsCopy(s: State, root: RootId, q: Request)
    requires q.asset != None && q.asset.value in s.assets
  {
    var uploaded := s.assets[q.asset.value];
    && uploaded.logical != q.logical
    && ((exists r, l | r in s.tables && l in s.tables[r] ::
           s.tables[r][l].asset == q.asset && (r != root || l != q.logical))
        || exists j | j in s.assets ::
             j != q.asset.value && s.assets[j].user == uploaded.user && s.assets[j].logical == uploaded.logical)
  }

  /** An asset new to the history of the item comes next after its newest revision. */
  predicate Numbered(s: State, user: UserId, logical: LogicalId, uploaded: Asset, version: int) {
    if uploaded.logical == logical then version == uploaded.version
    else
      && (forall j | j in s.assets :: s.assets[j].user == user && s.assets[j].logical == logical ==>
            s.assets[j].version < version)
      && (version == 1 || exists j | j in s.assets ::
            s.assets[j].user == user && s.assets[j].logical == logical && s.assets[j].version == version - 1)
  }

  /** The row `i` is new or rewritten, and what was active in the history before is superseded. */
  predicate OthersSuperseded(before: Assets, after: Assets, i: AssetId, user: UserId, logical: LogicalId) {
    && after.Keys == before.Keys + {i}
    && forall j | j in before :: j != i ==>
         if before[j].user == user && before[j].logical == logical && before[j].life == Active
         then after[j] == before[j].(life := Superseded) else after[j] == before[j]
  }

  /** The upserted item shows the uploaded content at the path, as an active asset of its own history. */
  predicate Upserted(s: State, s': State, root: RootId, q: Request, revision: string)
    requires root in s.roots && root in s'.tables && q.logical in s'.tables[root]
  {
    var item, user := s'.tables[root][q.logical], s.roots[root].user;
    && Some(item.path) == q.path && !item.deleted && item.revision == revision
    && q.asset != None && q.asset.value in s.assets
    && (if NeedsCopy(s, root, q) then item.asset == Some(s.nextAsset) && s'.nextAsset == s.nextAsset + 1
        else item.asset == q.asset && s'.nextAsset == s.nextAsset)
    && item.asset != None && item.asset.value in s'.assets
    && OthersSuperseded(s.assets, s'.assets, item.asset.value, user, q.logical)
    && var row, uploaded := s'.assets[item.asset.value], s.assets[q.asset.value];
       && row.checksum == uploaded.checksum && row.user == user && row.logical == q.logical
       && row.life == Active && !row.trashed && row.purgeAfter == None
       && Numbered(s, user, q.logical, uploaded, row.version)
  }

  predicate MovedTo(s: State, s': State, root: RootId, q: Request, revision: string)
    requires root in s.tables && root in s'.tables && q.logical in s.tables[root] && q.logical in s'.tables[root]
  {
    var was, item := s.tables[root][q.logical], s'.tables[root][q.logical];
    && Some(item.path) == q.path && item.revision == revision
    && item.asset == was.asset && item.deleted == was.deleted
    && s'.assets == s.assets && s'.nextAsset == s.nextAsset
  }

  /** The asset is in the trash until the retention is over. */
  predicate InTrash(before: Asset, after: Asset, env: Env) {
    && after.life == Trashed && after.trashed && after.purgeAfter == Some(env.now + env.days * 86_400)
    && after.user == before.user && after.logical == before.logical
    && after.version == before.version && after.checksum == before.checksum
  }

  predicate Deleted(s: State, s': State, root: RootId, q: Request, revision: string, env: Env)
    requires root in s.tables && root in s'.tables && q.logical in s'.tables[root]
  {
    var item := s'.tables[root][q.logical];
    && item.revision == revision && s'.nextAsset == s.nextAsset
    && if q.logical !in s.tables[root] then
         && item.asset == None && !item.deleted && s'.assets == s.assets
         && item.path == (if q.path == None then "" else q.path.value)
       else
         var was := s.tables[root][q.logical];
         && item.deleted && item.path == was.path && item.asset == was.asset
         && if was.asset == None then s'.assets == s.assets
            else && was.asset.value in s.assets && OnlyAsset(s.assets, s'.assets, was.asset.value)
                 && InTrash(s.assets[was.asset.value], s'.assets[was.asset.value], env)
  }

  /** What is left for other readers of the journal. */
  predicate Published(q: Request, payload: Payload, item: Item) {
    if q.kind == Delete then payload == Payload(Some(item.path), None) else payload == Payload(q.path, item.asset)
  }

  /** The request has been carried out on its item, which carries the revision, and on no other. */
  predicate CarriedOut(s: State, s': State, root: RootId, q: Request, payload: Payload, revision: string, env: Env)
    requires root in s.roots && root in s.tables
  {
    && OnlyItem(s.tables, s'.tables, root, q.logical)
    && Published(q, payload, s'.tables[root][q.logical])
    && match q.kind
       case Upsert => Upserted(s, s', root, q, revision)
       case Move => q.logical in s.tables[root] && MovedTo(s, s', root, q, revision)
       case Delete => Deleted(s, s', root, q, revision, env)
  }

  // ---------------------------------------------------------------- one operation

  /** The input was accepted before, under its id or its sequence number. */
  predicate Seen(s: State, root: RootId, client: string, input: Input) {
    || input.id in s.ops
    || exists o | o in s.ops ::
         s.ops[o].root == root && s.ops[o].client == client && s.ops[o].sequence == input.sequence
  }

  /** Only the cursor of the root has moved, by one. */
  predicate CursorMoved(before: map<RootId, Root>, after: map<RootId, Root>, root: RootId)
    requires root in before
  {
    && after.Keys == before.Keys && (forall r | r in before :: r != root ==> after[r] == before[r])
    && after[root].cursor == before[root].cursor + 1
    && after[root].user == before[root].user && after[root].active == before[root].active
  }

  /** The operation of the input stands at the new cursor. */
  predicate OperationOf(op: Op, root: RootId, cursor: nat, client: string, input: Input) {
    && op.root == root && op.cursor == cursor && op.client == client && op.sequence == input.sequence
    && op.kind == input.kind && op.logical == input.logical && op.base == input.base
    && op.revision == NextRevision(cursor, input.id)
  }

  /** The conflict points at the operation applied last to the item, if there is one. */
  predicate PointsBack(s: State, root: RootId, logical: LogicalId, previous: Option<OpId>) {
    if previous == None then
      forall o | o in s.ops :: s.ops[o].root == root && s.ops[o].logical == logical ==> s.ops[o].status != Applied
    else
      && previous.value in s.ops && s.ops[previous.value].root == root && s.ops[previous.value].logical == logical
      && s.ops[previous.value].status == Applied
      && forall o | o in s.ops ::
           s.ops[o].root == root && s.ops[o].logical == logical && s.ops[o].status == Applied ==>
             s.ops[o].cursor <= s.ops[previous.value].cursor
  }

  /** The kind of the conflict says what went wrong. */
  predicate Explains(s: State, root: RootId, input: Input, kind: ConflictKind)
    requires root in s.tables
  {
    if UpToDate(s, root, input) then kind == InvalidTransition
    else if input.kind == Delete || s.tables[root][input.logical].deleted then kind == DeleteVsChange
    else kind == ConcurrentChange
  }

  /** One new open conflict, about this operation. */
  predicate ConflictOpened(s: State, s': State, root: RootId, input: Input)
    requires root in s.tables
  {
    var c := s.nextConflict;
    && s'.nextConflict == c + 1 && s'.conflicts.Keys == s.conflicts.Keys + {c}
    && (forall d | d in s.conflicts :: d != c ==> s'.conflicts[d] == s.conflicts[d])
    && s'.conflicts[c].op == input.id && s'.conflicts[c].root == root && s'.conflicts[c].choice == None
    && Explains(s, root, input, s'.conflicts[c].kind)
    && PointsBack(s, root, input.logical, s'.conflicts[c].previous)
  }

  /** The operation is filed under its id at the new cursor, beside those there were. */
  ghost predicate Registered(s: State, s': State, root: RootId, client: string, input: Input)
    requires root in s.roots
  {
    && s'.users == s.users && s'.disabled == s.disabled && CursorMoved(s.roots, s'.roots, root)
    && s'.ops.Keys == s.ops.Keys + {input.id} && (forall o :: o in s.ops ==> s'.ops[o] == s.ops[o])
    && OperationOf(s'.ops[input.id], root, s.roots[root].cursor + 1, client, input)
  }

  predicate AppliedNow(s: State, s': State, root: RootId, input: Input, env: Env)
    requires root in s.roots && root in s.tables && input.id in s'.ops
  {
    var op := s'.ops[input.id];
    && op.status == Applied
    && s'.conflicts == s.conflicts && s'.nextConflict == s.nextConflict
    && CarriedOut(s, s', root, Asked(input), op.payload, op.revision, env)
  }

  predicate SetAside(s: State, s': State, root: RootId, input: Input)
    requires root in s.tables && input.id in s'.ops
  {
    && s'.ops[input.id].status == Conflicted && s'.ops[input.id].payload == Payload(input.path, input.asset)
    && s'.tables == s.tables && s'.assets == s.assets && s'.nextAsset == s.nextAsset
    && ConflictOpened(s, s', root, input)
  }

  /** What one round of the loop has to do with its input. An input seen before changes nothing. A new one is applied
      exactly when it is up to date and admissible, and then carried out; otherwise it opens a conflict and changes no
      item and no asset. */
  ghost predicate Recorded(s: State, s': State, root: RootId, client: string, input: Input, env: Env)
    requires root in s.roots && root in s.tables
  {
    if Seen(s, root, client, input) then s' == s
    else
      && Registered(s, s', root, client, input)
      && if UpToDate(s, root, input) && Admissible(s, root, Asked(input), env.days)
         then AppliedNow(s, s', root, input, env) else SetAside(s, s', root, input)
  }

  // ---------------------------------------------------------------- the item operation does it

  lemma ChangedExactly(s: State, root: RootId, input: Input, revision: string, env: Env)
    requires RowsOk(s) && root in s.roots
    ensures ApplyItem(s, root, input, revision, env).Changed? <==> Admissible(s, root, Asked(input), env.days)
  {
  }

  /** The rows after a change to the item. */
  function After(s: State, root: RootId, logical: LogicalId, change: Change): State
    requires root in s.tables && change.Changed?
  {
    s.(assets := change.assets, nextAsset := change.nextAsset,
       tables := s.tables[root := s.tables[root][logical := change.item]])
  }

  lemma CopiesExactly(s: State, root: RootId, input: Input, revision: string)
    requires RowsOk(s) && Constraints(s.assets, s.nextAsset) && root in s.roots
    requires UpsertItem(s, root, input, revision).Changed?
    ensures var change := UpsertItem(s, root, input, revision);
            if NeedsCopy(s, root, Asked(input)) then
              change.item.asset == Some(s.nextAsset) && change.nextAsset == s.nextAsset + 1
            else change.item.asset == input.asset && change.nextAsset == s.nextAsset
  {
    var i := input.asset.value;
    if s.assets[i].logical == input.logical {
      ReuseBranchUnreachable(s, root, i, input.logical);
    } else {
      assert HasHistory(s.assets, i) <==> exists j | j in s.assets ::
          j != i && s.assets[j].user == s.assets[i].user && s.assets[j].logical == s.assets[i].logical;
    }
  }

  /** Only the one active revision of the history makes room. */
  lemma RoomIsMade(assets: Assets, next: AssetId, user: UserId, logical: LogicalId, i: AssetId, final: AssetId,
                   row: Asset)
    requires Constraints(assets, next) && IsActiveOf(assets, i, user)
    requires final != i ==> final !in assets && assets[i].logical != logical
    ensures OthersSuperseded(assets, Quieted(assets, ActiveTarget(assets, user, logical), i)[final := row], final, user,
                             logical)
  {
    var target := ActiveTarget(assets, user, logical);
    forall j | j in assets && InHistory(assets, j, user, logical) && assets[j].life.Active?
      ensures target == Some(j)
    {
    }
  }

  lemma NextNumber(assets: Assets, next: AssetId, user: UserId, logical: LogicalId)
    requires Constraints(assets, next)
    ensures var version := HighestVersion(assets, user, logical) + 1;
            && (forall j | j in assets :: assets[j].user == user && assets[j].logical == logical ==>
                  assets[j].version < version)
            && (version == 1 || exists j | j in assets ::
                  assets[j].user == user && assets[j].logical == logical && assets[j].version == version - 1)
  {
    var v := HighestVersion(assets, user, logical);
    assert forall j | j in assets :: assets[j].user == user && assets[j].logical == logical ==>
             InHistory(assets, j, user, logical);
    if v != 0 {
      var j :| InHistory(assets, j, user, logical) && assets[j].version == v;
    }
  }

  lemma UpsertRows(s: State, root: RootId, input: Input, revision: string)
    requires RowsOk(s) && Constraints(s.assets, s.nextAsset) && root in s.roots
    requires UpsertItem(s, root, input, revision).Changed?
    ensures var change, user := UpsertItem(s, root, input, revision), s.roots[root].user;
            var final := change.item.asset.value;
            && OthersSuperseded(s.assets, change.assets, final, user, input.logical)
            && Numbered(s, user, input.logical, s.assets[input.asset.value], change.assets[final].version)
  {
    var change, user, i := UpsertItem(s, root, input, revision), s.roots[root].user, input.asset.value;
    var final := change.item.asset.value;
    RoomIsMade(s.assets, s.nextAsset, user, input.logical, i, final, change.assets[final]);
    assert change.assets == Quieted(s.assets, ActiveTarget(s.assets, user, input.logical), i)[final
                                    := change.assets[final]];
    NextNumber(s.assets, s.nextAsset, user, input.logical);
  }

  lemma UpsertIsCarriedOut(s: State, root: RootId, input: Input, revision: string, env: Env)
    requires RowsOk(s) && Constraints(s.assets, s.nextAsset) && root in s.roots
    requires UpsertItem(s, root, input, revision).Changed? && input.kind == Upsert
    ensures var change := UpsertItem(s, root, input, revision);
            CarriedOut(s, After(s, root, input.logical, change), root, Asked(input), change.payload, revision, env)
  {
    var change := UpsertItem(s, root, input, revision);
    CopiesExactly(s, root, input, revision);
    UpsertRows(s, root, input, revision);
    assert Upserted(s, After(s, root, input.logical, change), root, Asked(input), revision);
  }

  lemma MoveIsCarriedOut(s: State, root: RootId, input: Input, revision: string, env: Env)
    requires RowsOk(s) && root in s.roots && MoveItem(s, root, input, revision).Changed? && input.kind == Move
    ensures var change := MoveItem(s, root, input, revision);
            CarriedOut(s, After(s, root, input.logical, change), root, Asked(input), change.payload, revision, env)
  {
  }

  lemma DeleteIsCarriedOut(s: State, root: RootId, input: Input, revision: string, env: Env)
    requires RowsOk(s) && root in s.roots && DeleteItem(s, root, input, revision, env).Changed? && input.kind == Delete
    ensures var change := DeleteItem(s, root, input, revision, env);
            CarriedOut(s, After(s, root, input.logical, change), root, Asked(input), change.payload, revision, env)
  {
  }

  lemma ChangeIsCarriedOut(s: State, root: RootId, input: Input, revision: string, env: Env)
    requires RowsOk(s) && Constraints(s.assets, s.nextAsset) && root in s.roots
    requires ApplyItem(s, root, input, revision, env).Changed?
    ensures var change := ApplyItem(s, root, input, revision, env);
            CarriedOut(s, After(s, root, input.logical, change), root, Asked(input), change.payload, revision, env)
  {
    match input.kind
    case Upsert => UpsertIsCarriedOut(s, root, input, revision, env);
    case Move => MoveIsCarriedOut(s, root, input, revision, env);
    case Delete => DeleteIsCarriedOut(s, root, input, revision, env);
  }

  // ---------------------------------------------------------------- one round of the loop

  lemma LatestExists(ops: Ops, root: RootId, logical: LogicalId, some: OpId) returns (last: OpId)
    requires AppliedOn(ops, some, root, logical)
    ensures AppliedOn(ops, last, root, logical)
    ensures forall p :: AppliedOn(ops, p, root, logical) ==> ops[p].cursor <= ops[last].cursor
  {
    var cursors := set o | o in ops && AppliedOn(ops, o, root, logical) :: ops[o].cursor;
    assert forall o :: AppliedOn(ops, o, root, logical) ==> ops[o].cursor in cursors;
    var highest := MaximumExists(cursors);
    last :| last in ops && AppliedOn(ops, last, root, logical) && ops[last].cursor == highest;
  }

  lemma LastAppliedPointsBack(s: State, root: RootId, logical: LogicalId)
    ensures PointsBack(s, root, logical, LastApplied(s.ops, root, logical))
  {
    if o :| AppliedOn(s.ops, o, root, logical) {
      var last := LatestExists(s.ops, root, logical, o);
    }
  }

  lemma StaleExactly(s: State, root: RootId, input: Input)
    requires root in s.tables
    ensures StaleKind(s.tables[root], input) == None <==> UpToDate(s, root, input)
    ensures var stale := StaleKind(s.tables[root], input);
            Explains(s, root, input, if stale == None then InvalidTransition else stale.value)
  {
  }

  lemma SeenExactly(s: State, root: RootId, client: string, input: Input)
    ensures Known(s.ops, root, client, input) <==> Seen(s, root, client, input)
  {
  }

  lemma CursorIsMoved(s: State, root: RootId, client: string, input: Input, env: Env)
    requires RowsOk(s) && root in s.roots && !Seen(s, root, client, input)
    ensures var s' := ApplyOne(s, root, client, input, env);
            s'.users == s.users && s'.disabled == s.disabled && CursorMoved(s.roots, s'.roots, root)
  {
    SeenExactly(s, root, client, input);
    var s' := ApplyOne(s, root, client, input, env);
    assert s'.roots == s.roots[root := s.roots[root].(cursor := s.roots[root].cursor + 1)];
  }

  lemma OperationIsRegistered(s: State, root: RootId, client: string, input: Input, env: Env)
    requires RowsOk(s) && root in s.roots && !Seen(s, root, client, input)
    ensures Registered(s, ApplyOne(s, root, client, input, env), root, client, input)
  {
    SeenExactly(s, root, client, input);
    CursorIsMoved(s, root, client, input, env);
    var s' := ApplyOne(s, root, client, input, env);
    assert s'.ops == s.ops[input.id := s'.ops[input.id]];
  }

  lemma OperationIsRecorded(s: State, root: RootId, client: string, input: Input, env: Env)
    requires RowsOk(s) && Constraints(s.assets, s.nextAsset) && root in s.roots
    ensures Recorded(s, ApplyOne(s, root, client, input, env), root, client, input, env)
  {
    SeenExactly(s, root, client, input);
    if !Seen(s, root, client, input) {
      OperationIsRegistered(s, root, client, input, env);
      if UpToDate(s, root, input) && Admissible(s, root, Asked(input), env.days) {
        AppliedIsCarriedOut(s, root, client, input, env);
      } else {
        OthersAreSetAside(s, root, client, input, env);
      }
    }
  }

  lemma OthersAreSetAside(s: State, root: RootId, client: string, input: Input, env: Env)
    requires RowsOk(s) && root in s.roots && !Seen(s, root, client, input)
    requires !(UpToDate(s, root, input) && Admissible(s, root, Asked(input), env.days))
    ensures var s' := ApplyOne(s, root, client, input, env);
            input.id in s'.ops && SetAside(s, s', root, input)
  {
    SeenExactly(s, root, client, input);
    StaleExactly(s, root, input);
    ChangedExactly(s, root, input, NextRevision(s.roots[root].cursor + 1, input.id), env);
    LastAppliedPointsBack(s, root, input.logical);
  }

  lemma AppliedIsCarriedOut(s: State, root: RootId, client: string, input: Input, env: Env)
    requires RowsOk(s) && Constraints(s.assets, s.nextAsset) && root in s.roots && !Seen(s, root, client, input)
    requires UpToDate(s, root, input) && Admissible(s, root, Asked(input), env.days)
    ensures var s' := ApplyOne(s, root, client, input, env);
            input.id in s'.ops && AppliedNow(s, s', root, input, env)
  {
    var s' := ApplyOne(s, root, client, input, env);
    var revision := NextRevision(s.roots[root].cursor + 1, input.id);
    SeenExactly(s, root, client, input);
    StaleExactly(s, root, input);
    ChangedExactly(s, root, input, revision, env);
    ChangeIsCarriedOut(s, root, input, revision, env);
    CarriedOutAsWell(s, After(s, root, input.logical, ApplyItem(s, root, input, revision, env)), s', root,
                     Asked(input), s'.ops[input.id].payload, revision, env);
  }

  /** The effect is in the tables and the asset rows alone. */
  lemma CarriedOutAsWell(s: State, t: State, t': State, root: RootId, q: Request, payload: Payload, revision: string,
                         env: Env)
    requires root in s.roots && root in s.tables && CarriedOut(s, t, root, q, payload, revision, env)
    requires t'.tables == t.tables && t'.assets == t.assets && t'.nextAsset == t.nextAsset
    ensures CarriedOut(s, t', root, q, payload, revision, env)
  {
  }

  // ---------------------------------------------------------------- a batch

  /** The inputs are taken one after the other, from the first state to the last. */
  ghost predicate InTurn(step: (State, State, Input) -> bool, states: seq<State>, inputs: seq<Input>) {
    |states| == |inputs| + 1 && forall k :: 0 <= k < |inputs| ==> step(states[k], states[k + 1], inputs[k])
  }

  ghost predicate Leads(step: (State, State, Input) -> bool, s: State, s': State, inputs: seq<Input>) {
    exists states :: InTurn(step, states, inputs) && states[0] == s && states[|inputs|] == s'
  }

  ghost function Recording(root: RootId, client: string, env: Env): (State, State, Input) -> bool {
    (s: State, s': State, input: Input) =>
      root in s.roots && root in s.tables && Recorded(s, s', root, client, input, env)
  }

  /** Every input of the batch is recorded, in the order of the batch. */
  ghost predicate BatchRecorded(s: State, s': State, root: RootId, client: string, inputs: seq<Input>, env: Env) {
    Leads(Recording(root, client, env), s, s', inputs)
  }

  lemma TakenInTurn(step: (State, State, Input) -> bool, at: int -> State, inputs: seq<Input>)
    requires forall k :: 0 <= k < |inputs| ==> step(at(k), at(k + 1), inputs[k])
    ensures Leads(step, at(0), at(|inputs|), inputs)
  {
    var states := seq(|inputs| + 1, at);
    assert InTurn(step, states, inputs);
  }

  // ---------------------------------------------------------------- one resolution

  /** The conflict belongs to an active root of an enabled account, and its operation is there. */
  predicate Resolvable(s: State, c: ConflictId) {
    && c in s.conflicts && s.conflicts[c].root in s.roots
    && var root := s.roots[s.conflicts[c].root];
       && root.active && root.user in s.users && root.user !in s.disabled
       && (s.conflicts[c].choice == None ==>
             s.conflicts[c].op in s.ops && s.ops[s.conflicts[c].op].root == s.conflicts[c].root)
  }

  /** The answer is written to the conflict, and to no other. */
  predicate Answered(before: map<ConflictId, Conflict>, after: map<ConflictId, Conflict>, c: ConflictId,
                     choice: Choice)
    requires c in before
  {
    after == before[c := before[c].(choice := Some(choice))]
  }

  /** Only the operation itself has changed. */
  predicate OnlyOperation(before: Ops, after: Ops, o: OpId) {
    after.Keys == before.Keys && forall p | p in before :: p != o ==> after[p] == before[p]
  }

  /** The server's version stays: the operation is rejected, and no cursor, item or asset changes. */
  predicate RemoteKept(s: State, s': State, c: ConflictId)
    requires c in s.conflicts && s.conflicts[c].op in s.ops
  {
    var o := s.conflicts[c].op;
    && Answered(s.conflicts, s'.conflicts, c, KeepRemote) && s'.nextConflict == s.nextConflict
    && s'.ops == s.ops[o := s.ops[o].(status := Rejected)]
    && s'.roots == s.roots && s'.tables == s.tables && s'.assets == s.assets && s'.nextAsset == s.nextAsset
    && s'.users == s.users && s'.disabled == s.disabled
  }

  /** The client's version wins: the stored request is carried out, and published at a new cursor. */
  predicate LocalKept(s: State, s': State, c: ConflictId, env: Env)
    requires c in s.conflicts && s.conflicts[c].op in s.ops
    requires s.conflicts[c].root in s.roots && s.conflicts[c].root in s.tables
  {
    var root, o := s.conflicts[c].root, s.conflicts[c].op;
    var was, cursor := s.ops[o], s.roots[root].cursor + 1;
    && Answered(s.conflicts, s'.conflicts, c, KeepLocal) && s'.nextConflict == s.nextConflict
    && CursorMoved(s.roots, s'.roots, root) && s'.users == s.users && s'.disabled == s.disabled
    && OnlyOperation(s.ops, s'.ops, o) && o in s'.ops
    && var op := s'.ops[o];
       && op == was.(cursor := cursor, revision := NextRevision(cursor, o), status := Applied, payload := op.payload)
       && CarriedOut(s, s', root, Stored(was), op.payload, op.revision, env)
  }

  /** What a resolution has to do. A resolved conflict keeps its answer; keep_remote always succeeds, and keep_local
      succeeds exactly when the rows allow the stored request. A failure leaves everything as it was. */
  predicate Settled(s: State, s': State, c: ConflictId, choice: Choice, env: Env, ok: bool)
    requires s.tables.Keys == s.roots.Keys
  {
    if !Resolvable(s, c) then !ok && s' == s
    else if s.conflicts[c].choice != None then ok && s' == s
    else if choice == KeepRemote then ok && RemoteKept(s, s', c)
    else
      && ok == Admissible(s, s.conflicts[c].root, Stored(s.ops[s.conflicts[c].op]), env.days)
      && if ok then LocalKept(s, s', c, env) else s' == s
  }

  /** The new revision replaces the one the effect was computed with. */
  lemma CarriedOutAgain(s: State, t: State, t': State, root: RootId, q: Request, payload: Payload, stale: string,
                        revision: string, env: Env)
    requires root in s.roots && root in s.tables && CarriedOut(s, t, root, q, payload, stale, env)
    requires t'.assets == t.assets && t'.nextAsset == t.nextAsset
    requires t.tables.Keys == s.tables.Keys && t'.tables == s.tables[root :=
               s.tables[root][q.logical := t.tables[root][q.logical].(revision := revision)]]
    ensures CarriedOut(s, t', root, q, payload, revision, env)
  {
  }

  /** The input under which the stored request is applied again. */
  function Again(o: OpId, op: Op): Input {
    Input(o, op.sequence, op.kind, op.logical, None, op.payload.path, op.payload.asset)
  }

  /** The rows after keep_local. */
  lemma KeptRows(s: State, c: ConflictId, env: Env)
    requires RowsOk(s) && Resolvable(s, c) && s.conflicts[c].choice == None
    requires var o := s.conflicts[c].op;
             ApplyItem(s, s.conflicts[c].root, Again(o, s.ops[o]), s.ops[o].revision, env).Changed?
    ensures var root, o := s.conflicts[c].root, s.conflicts[c].op;
            var cursor, op := s.roots[root].cursor + 1, s.ops[o];
            var change, r := ApplyItem(s, root, Again(o, op), op.revision, env), Resolve(s, c, KeepLocal, env);
            var item := change.item.(revision := NextRevision(cursor, o));
            && r.Ok? && r.value == s.(
                 roots := s.roots[root := s.roots[root].(cursor := cursor)],
                 ops := s.ops[o := op.(cursor := cursor, revision := item.revision, payload := change.payload,
                                       status := Applied)],
                 tables := s.tables[root := s.tables[root][op.logical := item]],
                 assets := change.assets, nextAsset := change.nextAsset,
                 conflicts := s.conflicts[c := s.conflicts[c].(choice := Some(KeepLocal))])
  {
  }

  lemma LocalIsKept(s: State, c: ConflictId, env: Env)
    requires RowsOk(s) && Constraints(s.assets, s.nextAsset)
    requires Resolvable(s, c) && s.conflicts[c].choice == None
    requires Admissible(s, s.conflicts[c].root, Stored(s.ops[s.conflicts[c].op]), env.days)
    ensures var r := Resolve(s, c, KeepLocal, env);
            r.Ok? && LocalKept(s, r.value, c, env)
  {
    var root, o := s.conflicts[c].root, s.conflicts[c].op;
    var op := s.ops[o];
    assert Asked(Again(o, op)) == Stored(op);
    ChangedExactly(s, root, Again(o, op), op.revision, env);
    ChangeIsCarriedOut(s, root, Again(o, op), op.revision, env);
    KeptRows(s, c, env);
    var change := ApplyItem(s, root, Again(o, op), op.revision, env);
    CarriedOutAgain(s, After(s, root, op.logical, change), Resolve(s, c, KeepLocal, env).value, root, Stored(op),
                    change.payload, op.revision, NextRevision(s.roots[root].cursor + 1, o), env);
  }

  lemma ResolutionIsSettled(s: State, c: ConflictId, choice: Choice, env: Env)
    requires RowsOk(s) && Constraints(s.assets, s.nextAsset)
    ensures match Resolve(s, c, choice, env)
            case Ok(s') => Settled(s, s', c, choice, env, true)
            case Err(_) => Settled(s, s, c, choice, env, false)
  {
    if Resolvable(s, c) && s.conflicts[c].choice == None && choice == KeepLocal {
      var root, o := s.conflicts[c].root, s.conflicts[c].op;
      var op := s.ops[o];
      ChangedExactly(s, root, Again(o, op), op.revision, env);
      assert Asked(Again(o, op)) == Stored(op);
      if Admissible(s, root, Stored(op), env.days) { LocalIsKept(s, c, env); }
    }
  }
}
