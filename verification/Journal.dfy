/** The per-root operation journal: publishing, conflict resolution and replay
    (backend/app/services/sync.py). */
module Journal {
  import opened Options
  import opened Catalog
  import opened Revisions

  type RootId = int
  type OpId = string
  type ConflictId = int

  datatype Kind = Upsert | Move | Delete
  datatype OpStatus = Applied | Conflicted | Rejected
  datatype ConflictKind = DeleteVsChange | ConcurrentChange | InvalidTransition
  datatype Choice = KeepLocal | KeepRemote

  datatype Root = Root(user: UserId, cursor: nat, active: bool)
  datatype Item = Item(asset: Option<AssetId>, path: string, revision: string, deleted: bool)
  datatype Payload = Payload(path: Option<string>, asset: Option<AssetId>)

  datatype Op = Op(
    root: RootId,
    cursor: nat,
    client: string,
    sequence: nat,
    kind: Kind,
    logical: LogicalId,
    base: Option<string>,
    revision: string,
    payload: Payload,
    status: OpStatus)

  /** `choice` is the resolution; an open conflict has none. */
  datatype Conflict = Conflict(
    root: RootId,
    op: OpId,
    previous: Option<OpId>,
    kind: ConflictKind,
    choice: Option<Choice>)

  datatype Input = Input(
    id: OpId,
    sequence: nat,
    kind: Kind,
    logical: LogicalId,
    base: Option<string>,
    path: Option<string>,
    asset: Option<AssetId>)

  type Ops = map<OpId, Op>
  type Table = map<LogicalId, Item>

  /** The rows the journal shares with the lifecycle transitions. `disabled` holds the accounts whose
      disabled_at is set; `nextAsset` and `nextConflict` stand for fresh UUIDs. */
  datatype State = State(
    users: set<UserId>,
    disabled: set<UserId>,
    assets: Assets,
    nextAsset: AssetId,
    roots: map<RootId, Root>,
    tables: map<RootId, Table>,
    ops: Ops,
    conflicts: map<ConflictId, Conflict>,
    nextConflict: ConflictId)

  /** Retention policy in days and the clock, both read during a request. */
  datatype Env = Env(now: int, days: int)

  /** The errors of the journal; the first five are those of one item operation. */
  datatype SyncError =
    | NeedsAssetAndPath
    | AssetUnavailable
    | NeedsLiveItem
    | BeingDeleted
    | Lifecycle(refusal: Refusal)
    | Incomplete
    | Inapplicable
    | Unavailable

  // ---------------------------------------------------------------- applying one operation to its item

  datatype Change =
    | Refused
    | Changed(assets: Assets, nextAsset: AssetId, item: Item, payload: Payload)

  /** Some other sync item points at the asset. */
  predicate ReferencedElsewhere(tables: map<RootId, Table>, i: AssetId, root: RootId, logical: LogicalId) {
    exists r, l | r in tables && l in tables[r] ::
      tables[r][l].asset == Some(i) && (r != root || l != logical)
  }

  /** Another revision belongs to the asset's own history. */
  predicate HasHistory(assets: Assets, i: AssetId)
    requires i in assets
  {
    exists j | j in assets :: j != i && SameHistory(assets[j], assets[i])
  }

  /** The branch that reuses the bytes of an older revision of the same logical item. */
  predicate ReusesOldRevision(table: Table, i: AssetId, logical: LogicalId, target: Option<AssetId>) {
    logical in table && table[logical].asset != Some(i) && target != Some(i)
  }

  ghost function UpsertItem(s: State, root: RootId, input: Input, revision: string): Change
    requires root in s.roots && root in s.tables
    requires forall i :: i in s.assets ==> s.assets[i].version > 0
  {
    var user := s.roots[root].user;
    if input.asset.None? || input.path.None? || !IsActiveOf(s.assets, input.asset.value, user) then Refused
    else
      var i := input.asset.value;
      var version := HighestVersion(s.assets, user, input.logical) + 1;
      var target := ActiveTarget(s.assets, user, input.logical);
      var quiet := Quieted(s.assets, target, i);
      var attach := s.assets[i].logical != input.logical;
      var clone :=
        if attach then ReferencedElsewhere(s.tables, i, root, input.logical) || HasHistory(s.assets, i)
        else ReusesOldRevision(s.tables[root], i, input.logical, target);
      var final := if clone then s.nextAsset else i;
      var row := if clone || attach then s.assets[i].(logical := input.logical, version := version) else s.assets[i];
      Changed(
        quiet[final := Activated(row)],
        if clone then s.nextAsset + 1 else s.nextAsset,
        Item(Some(final), input.path.value, revision, false),
        Payload(input.path, Some(final)))
  }

  function MoveItem(s: State, root: RootId, input: Input, revision: string): Change
    requires root in s.roots && root in s.tables
  {
    var table := s.tables[root];
    if input.logical !in table || table[input.logical].deleted || input.path.None? then Refused
    else
      var item := table[input.logical];
      if item.asset.Some? && !IsActiveOf(s.assets, item.asset.value, s.roots[root].user) then Refused
      else Changed(s.assets, s.nextAsset, item.(path := input.path.value, revision := revision),
                   Payload(input.path, item.asset))
  }

  /** Deleting an unknown logical id creates an item that is not marked deleted. */
  function DeleteItem(s: State, root: RootId, input: Input, revision: string, env: Env): Change
    requires root in s.roots && root in s.tables
  {
    var table := s.tables[root];
    if input.logical !in table then
      var path := if input.path.Some? then input.path.value else "";
      Changed(s.assets, s.nextAsset, Item(None, path, revision, false), Payload(Some(path), None))
    else
      var item := table[input.logical];
      var gone := item.(deleted := true, revision := revision);
      if item.asset.None? then Changed(s.assets, s.nextAsset, gone, Payload(Some(item.path), None))
      else if !IsActiveOf(s.assets, item.asset.value, s.roots[root].user) then Refused
      else
        match Trash(s.assets, item.asset.value, env.now, env.days)
        case Ok(assets) => Changed(assets, s.nextAsset, gone, Payload(Some(item.path), None))
        case Err(_) => Refused
  }

  /** _apply_item_operation; Refused stands for its ValueErrors, all raised before any row changes. */
  ghost function ApplyItem(s: State, root: RootId, input: Input, revision: string, env: Env): Change
    requires root in s.roots && root in s.tables
    requires forall i :: i in s.assets ==> s.assets[i].version > 0
  {
    match input.kind
    case Upsert => UpsertItem(s, root, input, revision)
    case Move => MoveItem(s, root, input, revision)
    case Delete => DeleteItem(s, root, input, revision, env)
  }

  // ---------------------------------------------------------------- publishing

  predicate SequenceTaken(ops: Ops, root: RootId, client: string, sequence: nat) {
    exists o | o in ops :: ops[o].root == root && ops[o].client == client && ops[o].sequence == sequence
  }

  /** The input was accepted before, under its operation id or its client sequence number. */
  predicate Known(ops: Ops, root: RootId, client: string, input: Input) {
    input.id in ops || SequenceTaken(ops, root, client, input.sequence)
  }

  function StaleKind(table: Table, input: Input): Option<ConflictKind> {
    if input.logical !in table || input.base == Some(table[input.logical].revision) then None
    else if input.kind.Delete? || table[input.logical].deleted then Some(DeleteVsChange)
    else Some(ConcurrentChange)
  }

  predicate AppliedOn(ops: Ops, o: OpId, root: RootId, logical: LogicalId) {
    o in ops && ops[o].root == root && ops[o].logical == logical && ops[o].status.Applied?
  }

  /** The applied operation with the highest cursor on one item. */
  ghost function LastApplied(ops: Ops, root: RootId, logical: LogicalId): (r: Option<OpId>)
    ensures r.Some? ==> AppliedOn(ops, r.value, root, logical)
  {
    if o :| AppliedOn(ops, o, root, logical) &&
            forall p :: AppliedOn(ops, p, root, logical) ==> ops[p].cursor <= ops[o].cursor
    then Some(o) else None
  }

  ghost predicate RowsOk(s: State) {
    && s.tables.Keys == s.roots.Keys
    && (forall i :: i in s.assets ==> s.assets[i].version > 0)
  }

  /** Records an applied operation at its cursor together with its effect. */
  function Publish(s: State, id: OpId, op: Op, change: Change): State
    requires change.Changed? && op.root in s.roots && op.root in s.tables
  {
    s.(roots := s.roots[op.root := s.roots[op.root].(cursor := op.cursor)],
       assets := change.assets, nextAsset := change.nextAsset,
       tables := s.tables[op.root := s.tables[op.root][op.logical := change.item]],
       ops := s.ops[id := op])
  }

  /** One round of the loop of apply_operations. */
  ghost function ApplyOne(s: State, root: RootId, client: string, input: Input, env: Env): (s': State)
    requires RowsOk(s) && root in s.roots
  {
    if Known(s.ops, root, client, input) then s
    else
      var cursor := s.roots[root].cursor + 1;
      var revision := NextRevision(cursor, input.id);
      var stale := StaleKind(s.tables[root], input);
      var change := if stale.Some? then Refused else ApplyItem(s, root, input, revision, env);
      match change
      case Changed(_, _, _, payload) =>
        Publish(s, input.id, Op(root, cursor, client, input.sequence, input.kind, input.logical, input.base,
                                revision, payload, Applied), change)
      case Refused =>
        s.(roots := s.roots[root := s.roots[root].(cursor := cursor)],
           ops := s.ops[input.id := Op(root, cursor, client, input.sequence, input.kind, input.logical, input.base,
                                       revision, Payload(input.path, input.asset), Conflicted)],
           conflicts := s.conflicts[s.nextConflict :=
                          Conflict(root, input.id, LastApplied(s.ops, root, input.logical),
                                   if stale.Some? then stale.value else InvalidTransition, None)],
           nextConflict := s.nextConflict + 1)
  }

  /** The account is enabled and the root belongs to it and is active. */
  predicate Writable(s: State, root: RootId) {
    && root in s.roots && s.roots[root].active
    && s.roots[root].user in s.users && s.roots[root].user !in s.disabled
  }

  /** resolve_conflict; an error leaves the rows as they were. */
  ghost function Resolve(s: State, c: ConflictId, choice: Choice, env: Env): Result<State, SyncError>
    requires RowsOk(s)
  {
    if c !in s.conflicts || !Writable(s, s.conflicts[c].root) then Err(Incomplete)
    else if s.conflicts[c].choice.Some? then Ok(s)
    else
      var conflict := s.conflicts[c];
      var root := conflict.root;
      if conflict.op !in s.ops || s.ops[conflict.op].root != root then Err(Incomplete)
      else
        var op := s.ops[conflict.op];
        var resolved := s.conflicts[c := conflict.(choice := Some(choice))];
        if choice.KeepRemote? then
          Ok(s.(ops := s.ops[conflict.op := op.(status := Rejected)], conflicts := resolved))
        else
          var input := Input(conflict.op, op.sequence, op.kind, op.logical, None, op.payload.path, op.payload.asset);
          match ApplyItem(s, root, input, op.revision, env)
          case Refused => Err(Inapplicable)
          case Changed(assets, nextAsset, item, payload) =>
            var cursor := s.roots[root].cursor + 1;
            var published := op.(cursor := cursor, revision := NextRevision(cursor, conflict.op), payload := payload,
                                 status := Applied);
            Ok(Publish(s, conflict.op, published, Changed(assets, nextAsset, item.(revision := published.revision),
                payload))
               .(conflicts := resolved))
  }

  ghost function ApplyInputs(s: State, root: RootId, client: string, inputs: seq<Input>, env: Env): (s': State)
    requires RowsOk(s) && root in s.roots
    ensures RowsOk(s') && root in s'.roots
  {
    if inputs == [] then s
    else
      var before := ApplyInputs(s, root, client, inputs[..|inputs| - 1], env);
      ApplyOneKeepsRows(before, root, client, inputs[|inputs| - 1], env);
      ApplyOne(before, root, client, inputs[|inputs| - 1], env)
  }

  lemma ApplyOneKeepsRows(s: State, root: RootId, client: string, input: Input, env: Env)
    requires RowsOk(s) && root in s.roots
    ensures RowsOk(ApplyOne(s, root, client, input, env)) && root in ApplyOne(s, root, client, input, env).roots
  {
  }

  /** apply_operations. */
  ghost function ApplyBatch(s: State, root: RootId, client: string, inputs: seq<Input>, env: Env)
    : Result<State, SyncError>
    requires RowsOk(s)
  {
    if Writable(s, root) then Ok(ApplyInputs(s, root, client, inputs, env)) else Err(Unavailable)
  }

  // ---------------------------------------------------------------- replay

  /** What a reader does with one applied operation. */
  function ReplayStep(t: Table, op: Op): Table {
    var path := if op.payload.path.Some? then op.payload.path.value else "";
    match op.kind
    case Upsert => t[op.logical := Item(op.payload.asset, path, op.revision, false)]
    case Move =>
      if op.logical in t then t[op.logical := t[op.logical].(path := path, revision := op.revision)] else t
    case Delete =>
      if op.logical in t then t[op.logical := t[op.logical].(deleted := true, revision := op.revision)]
      else t[op.logical := Item(None, path, op.revision, false)]
  }

  predicate AppliedAt(ops: Ops, o: OpId, root: RootId, n: nat) {
    o in ops && ops[o].root == root && ops[o].cursor == n && ops[o].status.Applied?
  }

  ghost function OpAt(ops: Ops, root: RootId, n: nat): Option<Op> {
    if o :| AppliedAt(ops, o, root, n) then Some(ops[o]) else None
  }

  /** Replays the applied operations with cursors in (from, to] on top of `t`, in cursor order. */
  ghost function ReplayFrom(t: Table, ops: Ops, root: RootId, from: nat, to: nat): Table
    decreases to
  {
    if to <= from then t
    else
      var before := ReplayFrom(t, ops, root, from, to - 1);
      match OpAt(ops, root, to)
      case None => before
      case Some(op) => ReplayStep(before, op)
  }

  ghost function Replay(ops: Ops, root: RootId, n: nat): Table {
    ReplayFrom(map[], ops, root, 0, n)
  }

  /** Nulls the asset of every item whose asset is no longer in the catalogue. */
  function Mask(t: Table, live: set<AssetId>): Table {
    map l | l in t :: if t[l].asset.Some? && t[l].asset.value !in live then t[l].(asset := None) else t[l]
  }
}
