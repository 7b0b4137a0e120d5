/** Publishers and collectors of bytes, interleaved at every lock, check, file and commit step. Advisory path
    locks and row locks are held until commit or rollback; a rollback restores rows but not files
    (backend/app/services/lifecycle.py, ingestion.py, replication.py, sync.py, storage.py). */
module PathLocks {
  import opened Numbers
  import opened Options

  type RowId = string
  type Tid = string
  type Path = string

  datatype Kind = AssetRow | ReplicaRow

  /** Live covers the active and superseded states. */
  datatype Phase = Live | Trashed(at: int, purgeAfter: int) | Purging(purgeAfter: int)

  /** `external` is the original of a read-only library asset. */
  datatype Row = Row(kind: Kind, names: set<Path>, external: Option<Path>, phase: Phase)

  /** An uncommitted write and the transaction that made it. */
  datatype Write = Put(tid: Tid, row: Row) | Drop(tid: Tid)

  /** `used` are the row ids ever given out, `doomed` pairs a row with the transaction collecting it, `cleared`
      an object with the transaction that found it unreferenced and has not written it since. */
  datatype State = State(
    rows: map<RowId, Row>,
    writes: map<RowId, Write>,
    files: set<Path>,
    used: set<RowId>,
    pathLock: map<Path, Tid>,
    rowLock: map<RowId, Tid>,
    doomed: set<(RowId, Tid)>,
    cleared: set<(Path, Tid)>,
    now: int)

  predicate OwnsPath(s: State, t: Tid, p: Path) { p in s.pathLock && s.pathLock[p] == t }

  predicate OwnsRow(s: State, t: Tid, r: RowId) { r in s.rowLock && s.rowLock[r] == t }

  predicate WrittenBy(s: State, t: Tid, r: RowId) { r in s.writes && s.writes[r].tid == t }

  /** The deadline of a retained row has passed. */
  predicate Due(phase: Phase, now: int) {
    !phase.Live? && phase.purgeAfter <= now
  }

  /** The row whose bytes its owner may still ask for. */
  predicate Kept(phase: Phase, now: int) {
    phase.Live? || (phase.Trashed? && phase.purgeAfter > now)
  }

  /** What transaction `t` reads: committed rows under its own uncommitted writes. */
  predicate Visible(s: State, t: Tid, r: RowId) {
    if WrittenBy(s, t, r) then s.writes[r].Put? else r in s.rows
  }

  function Seen(s: State, t: Tid, r: RowId): Row
    requires Visible(s, t, r)
  {
    if WrittenBy(s, t, r) then s.writes[r].row else s.rows[r]
  }

  // ---------------------------------------------------------------- steps

  /** `Insert` stands for ingestion, an external import or a new replica, `Rename` for every update of
      a path column, `Clone` for a sync revision that shares the bytes of an active one, `Adopt` for a restored
      external asset, which from then on has a managed original. */
  datatype Step =
    | LockPath(t: Tid, p: Path)
    | LockRow(t: Tid, r: RowId)
    | WriteBytes(t: Tid, p: Path)
    | Insert(t: Tid, r: RowId, row: Row)
    | Rename(t: Tid, r: RowId, names: set<Path>)
    | Clone(t: Tid, source: RowId, r: RowId)
    | Adopt(t: Tid, r: RowId, p: Path)
    | Trash(t: Tid, r: RowId, days: int)
    | Restore(t: Tid, r: RowId)
    | Condemn(t: Tid, r: RowId)
    | BeginPurge(t: Tid, r: RowId)
    | CollectReplica(t: Tid, r: RowId)
    | Check(t: Tid, p: Path)
    | Unlink(t: Tid, p: Path)
    | DropRow(t: Tid, r: RowId)
    | Commit(t: Tid)
    | Abort(t: Tid)
    | Tick(now: int)

  /** The path is locked and its bytes are there: what a publisher establishes before naming it. */
  predicate Backed(s: State, t: Tid, p: Path) {
    OwnsPath(s, t, p) && p in s.files && (p, t) !in s.cleared
  }

  /** The transaction has selected the row for update and is not collecting it. */
  predicate Loaded(s: State, t: Tid, r: RowId) {
    Visible(s, t, r) && OwnsRow(s, t, r) && (r, t) !in s.doomed
  }

  predicate LoadedAsset(s: State, t: Tid, r: RowId) {
    Loaded(s, t, r) && Seen(s, t, r).kind.AssetRow?
  }

  /** The reference check of the collector: every row it sees that names the object is one it is collecting, and
      no external original is the object. */
  ghost predicate Unreferenced(s: State, t: Tid, p: Path) {
    forall r :: Visible(s, t, r) ==>
      Seen(s, t, r).external != Some(p) && (p in Seen(s, t, r).names ==> (r, t) in s.doomed)
  }

  /** Whoever moves an asset off its objects commits that before it collects them; replica rows are repointed and
      their old objects collected in one transaction. */
  ghost predicate AssetsLeftBefore(s: State, t: Tid, p: Path) {
    forall r :: WrittenBy(s, t, r) && r in s.rows && s.rows[r].kind.AssetRow? && (r, t) !in s.doomed ==>
      s.rows[r].external != Some(p) && p !in s.rows[r].names
  }

  ghost predicate Enabled(s: State, step: Step) {
    match step
    case LockPath(t, p) => p !in s.pathLock
    case LockRow(t, r) => r in s.rows && r !in s.rowLock
    case WriteBytes(t, p) => OwnsPath(s, t, p)
    case Insert(t, r, row) =>
      && r !in s.used && row.phase.Live?
      && (forall p :: p in row.names ==> Backed(s, t, p))
      && (row.external.Some? ==> Backed(s, t, row.external.value))
    case Rename(t, r, names) =>
      && Loaded(s, t, r) && Seen(s, t, r).phase.Live?
      && (forall p :: p in names ==> Backed(s, t, p) || (Seen(s, t, r).kind.AssetRow? && p in Seen(s, t, r).names))
    case Clone(t, source, r) => LoadedAsset(s, t, source) && Seen(s, t, source).phase.Live? && r !in s.used
    case Adopt(t, r, p) =>
      LoadedAsset(s, t, r) && Seen(s, t, r).phase.Live? && Seen(s, t, r).external.Some? && Backed(s, t, p)
    case Trash(t, r, days) => LoadedAsset(s, t, r) && Seen(s, t, r).phase.Live? && days >= 1
    case Restore(t, r) => LoadedAsset(s, t, r) && Seen(s, t, r).phase.Trashed?
    case Condemn(t, r) => LoadedAsset(s, t, r)
    case BeginPurge(t, r) => LoadedAsset(s, t, r) && r !in s.writes && Due(s.rows[r].phase, s.now)
    case CollectReplica(t, r) => r in s.rows && s.rows[r].kind.ReplicaRow?
    case Check(t, p) => OwnsPath(s, t, p) && Unreferenced(s, t, p) && AssetsLeftBefore(s, t, p)
    case Unlink(t, p) => (p, t) in s.cleared
    case DropRow(t, r) =>
      && r in s.rows && (r, t) in s.doomed
      && (r in s.rowLock ==> s.rowLock[r] == t) && (r in s.writes ==> s.writes[r].tid == t)
    case Commit(t) => true
    case Abort(t) => true
    case Tick(now) => s.now <= now
  }

  function Released<K>(locks: map<K, Tid>, t: Tid): map<K, Tid> {
    map k | k in locks && locks[k] != t :: locks[k]
  }

  /** The end of a transaction: its locks and uncommitted writes go. */
  function Ended(s: State, t: Tid): State {
    s.(writes := map r | r in s.writes && s.writes[r].tid != t :: s.writes[r],
       pathLock := Released(s.pathLock, t), rowLock := Released(s.rowLock, t),
       doomed := (set d | d in s.doomed && d.1 != t),
       cleared := (set c | c in s.cleared && c.1 != t))
  }

  function Committed(s: State, t: Tid): map<RowId, Row> {
    map r | r in s.rows.Keys + s.writes.Keys && Visible(s, t, r) :: Seen(s, t, r)
  }

  function PutRow(s: State, t: Tid, r: RowId, row: Row): State {
    s.(writes := s.writes[r := Put(t, row)], rowLock := s.rowLock[r := t], used := s.used + {r})
  }

  function Adopted(row: Row, p: Path): Row {
    row.(names := row.names + {p}, external := None)
  }

  function Rephase(s: State, t: Tid, r: RowId, phase: Phase): State
    requires Visible(s, t, r)
  {
    PutRow(s, t, r, Seen(s, t, r).(phase := phase))
  }

  function Doom(s: State, t: Tid, r: RowId): State {
    s.(doomed := s.doomed + {(r, t)})
  }

  ghost function Next(s: State, step: Step): State
    requires Enabled(s, step)
  {
    match step
    case LockPath(t, p) => s.(pathLock := s.pathLock[p := t])
    case LockRow(t, r) => s.(rowLock := s.rowLock[r := t])
    case WriteBytes(t, p) => s.(files := s.files + {p}, cleared := s.cleared - {(p, t)})
    case Insert(t, r, row) => PutRow(s, t, r, row)
    case Rename(t, r, names) => PutRow(s, t, r, Seen(s, t, r).(names := names))
    case Clone(t, source, r) => PutRow(s, t, r, Seen(s, t, source))
    case Adopt(t, r, p) => PutRow(s, t, r, Adopted(Seen(s, t, r), p))
    case Trash(t, r, days) => Rephase(s, t, r, Trashed(s.now, s.now + days * SECONDS_PER_DAY))
    case Restore(t, r) => Rephase(s, t, r, Live)
    case Condemn(t, r) => Rephase(s, t, r, Purging(s.now))
    case BeginPurge(t, r) => PutRow(Doom(s, t, r), t, r, s.rows[r].(phase := Purging(s.rows[r].phase.purgeAfter)))
    case CollectReplica(t, r) => Doom(s, t, r)
    case Check(t, p) => s.(cleared := s.cleared + {(p, t)})
    case Unlink(t, p) => s.(files := s.files - {p})
    case DropRow(t, r) => s.(writes := s.writes[r := Drop(t)], rowLock := s.rowLock[r := t])
    case Commit(t) => Ended(s, t).(rows := Committed(s, t))
    case Abort(t) => Ended(s, t)
    case Tick(now) => s.(now := now)
  }

  /** A schedule; a step whose lock is held or whose check fails is skipped. */
  ghost function Run(s: State, steps: seq<Step>): State
    decreases |steps|
  {
    if steps == [] then s
    else Run(if Enabled(s, steps[0]) then Next(s, steps[0]) else s, steps[1..])
  }

  /** No transaction is open. */
  predicate Idle(s: State) {
    s.writes == map[] && s.pathLock == map[] && s.rowLock == map[] && s.doomed == {} && s.cleared == {}
    && s.rows.Keys <= s.used
  }

  // ---------------------------------------------------------------- the invariant

  /** A rewritten row keeps its kind; only an asset row that its writer is not collecting may change its external
      original. */
  predicate Rewrites(s: State, t: Tid, r: RowId, was: Row, row: Row) {
    && row.kind == was.kind
    && (row.external == was.external || (row.kind.AssetRow? && (r, t) !in s.doomed))
  }

  /** Every uncommitted write is on a row its transaction has locked. */
  ghost predicate WritesLocked(s: State) {
    && (forall r :: r in s.writes ==> OwnsRow(s, s.writes[r].tid, r))
    && (forall r :: r in s.writes && s.writes[r].Put? && r in s.rows ==>
          Rewrites(s, s.writes[r].tid, r, s.rows[r], s.writes[r].row))
  }

  ghost predicate IdsUsed(s: State) {
    && (forall r :: r in s.rows || r in s.writes || r in s.rowLock ==> r in s.used)
    && (forall r, t :: (r, t) in s.doomed ==> r in s.used && (r in s.rows || r !in s.writes))
  }

  /** A committed asset row that `t` has locked names the path. */
  ghost predicate Anchored(s: State, t: Tid, p: Path) {
    exists a :: a in s.rows && OwnsRow(s, t, a) && s.rows[a].kind.AssetRow? && p in s.rows[a].names
  }

  ghost predicate AnchoredExternal(s: State, t: Tid, p: Path) {
    exists a :: a in s.rows && OwnsRow(s, t, a) && s.rows[a].external == Some(p)
  }

  /** Every path the row names is locked by the transaction or named by an asset row it has locked. */
  ghost predicate Held(s: State, t: Tid, row: Row) {
    && (forall p :: p in row.names ==> OwnsPath(s, t, p) || Anchored(s, t, p))
    && (row.external.Some? ==> OwnsPath(s, t, row.external.value) || AnchoredExternal(s, t, row.external.value))
  }

  ghost predicate NamesHeld(s: State) {
    forall r :: r in s.writes && s.writes[r].Put? ==> Held(s, s.writes[r].tid, s.writes[r].row)
  }

  /** An asset row is collected only under its lock and after its deadline. */
  ghost predicate DoomedDue(s: State) {
    forall r, t :: (r, t) in s.doomed && r in s.rows && s.rows[r].kind.AssetRow? ==>
      OwnsRow(s, t, r) && Due(s.rows[r].phase, s.now)
  }

  /** A collected asset row is only rewritten as purging, and only collected rows are deleted. */
  ghost predicate DoomedPurging(s: State) {
    && (forall r :: r in s.writes && s.writes[r].Put? && (r, s.writes[r].tid) in s.doomed ==>
          s.writes[r].row.kind.AssetRow? ==> s.writes[r].row.phase.Purging?)
    && (forall r :: r in s.writes && s.writes[r].Drop? ==> (r, s.writes[r].tid) in s.doomed)
  }

  /** What a row may say about an object that `t` has cleared. */
  ghost predicate Spares(s: State, t: Tid, p: Path, r: RowId, row: Row) {
    row.external != Some(p) && (p in row.names ==> (r, t) in s.doomed)
  }

  predicate Deleted(s: State, t: Tid, r: RowId) {
    WrittenBy(s, t, r) && s.writes[r].Drop? && (r, t) in s.doomed
  }

  /** `t` has given a committed replica row another object and not committed that yet. */
  predicate Repointed(s: State, t: Tid, r: RowId) {
    WrittenBy(s, t, r) && s.writes[r].Put? && r in s.rows && s.rows[r].kind.ReplicaRow?
  }

  /** Only rows its collector is collecting name the object, committed or not, apart from the committed version of
      a replica row that the collector itself has repointed; no external original is the object unless the
      collector has already deleted its row. */
  ghost predicate Free(s: State, p: Path, t: Tid) {
    && OwnsPath(s, t, p)
    && (forall r :: r in s.rows ==>
          || Spares(s, t, p, r, s.rows[r])
          || Deleted(s, t, r)
          || (Repointed(s, t, r) && s.rows[r].external != Some(p)))
    && (forall r :: r in s.writes && s.writes[r].Put? ==>
          Spares(s, t, p, r, s.writes[r].row) && (p in s.writes[r].row.names ==> s.writes[r].tid == t))
  }

  ghost predicate ClearedFree(s: State) {
    forall p, t :: (p, t) in s.cleared ==> Free(s, p, t)
  }

  ghost predicate Safe(s: State) {
    WritesLocked(s) && IdsUsed(s) && NamesHeld(s) && DoomedDue(s) && DoomedPurging(s) && ClearedFree(s)
  }

  // ---------------------------------------------------------------- writing a row

  /** What every step that writes a row establishes first. */
  ghost predicate MayPut(s: State, t: Tid, r: RowId, row: Row) {
    && ((OwnsRow(s, t, r) && (r in s.rows || r in s.writes)) || r !in s.used)
    && (r in s.rows ==> Rewrites(s, t, r, s.rows[r], row))
    && Held(s, t, row)
    && ((r, t) in s.doomed && row.kind.AssetRow? ==> row.phase.Purging?)
    && (forall p, w :: (p, w) in s.cleared ==> Spares(s, w, p, r, row) && (p in row.names ==> w == t))
  }

  /** Locks only grow within transactions, so whatever a transaction holds stays held. */
  ghost predicate LocksGrow(s: State, s': State) {
    && s'.rows == s.rows
    && (forall u, p :: OwnsPath(s, u, p) ==> OwnsPath(s', u, p))
    && (forall u, r :: OwnsRow(s, u, r) ==> OwnsRow(s', u, r))
  }

  lemma HeldStays(s: State, s': State)
    requires LocksGrow(s, s')
    ensures forall u, row :: Held(s, u, row) ==> Held(s', u, row)
  {
    assert forall u, p :: Anchored(s, u, p) ==> Anchored(s', u, p);
    assert forall u, p :: AnchoredExternal(s, u, p) ==> AnchoredExternal(s', u, p);
  }

  lemma PutKeepsLocks(s: State, t: Tid, r: RowId, row: Row)
    requires Safe(s) && MayPut(s, t, r, row)
    ensures var s' := PutRow(s, t, r, row); WritesLocked(s') && IdsUsed(s') && NamesHeld(s')
  {
    var s' := PutRow(s, t, r, row);
    HeldStays(s, s');
  }

  lemma PutKeepsDoomed(s: State, t: Tid, r: RowId, row: Row)
    requires Safe(s) && MayPut(s, t, r, row)
    ensures var s' := PutRow(s, t, r, row); DoomedDue(s') && DoomedPurging(s')
  {
    var s' := PutRow(s, t, r, row);
    assert forall u, a :: OwnsRow(s, u, a) ==> OwnsRow(s', u, a);
  }

  lemma PutKeepsFree(s: State, t: Tid, r: RowId, row: Row)
    requires Safe(s) && MayPut(s, t, r, row)
    requires r in s.writes ==> s.writes[r].Put?
    ensures ClearedFree(PutRow(s, t, r, row))
  {
    var s' := PutRow(s, t, r, row);
    forall p, w | (p, w) in s'.cleared
      ensures Free(s', p, w)
    {
      assert Free(s, p, w);
    }
  }

  lemma PutKeeps(s: State, t: Tid, r: RowId, row: Row)
    requires Safe(s) && MayPut(s, t, r, row)
    requires r in s.writes ==> s.writes[r].Put?
    ensures Safe(PutRow(s, t, r, row))
  {
    PutKeepsLocks(s, t, r, row);
    PutKeepsDoomed(s, t, r, row);
    PutKeepsFree(s, t, r, row);
  }

  /** A row the transaction has loaded names only held paths and nothing that anybody has cleared. */
  lemma LoadedAssetIsHeld(s: State, t: Tid, r: RowId)
    requires Safe(s) && LoadedAsset(s, t, r)
    ensures Held(s, t, Seen(s, t, r))
    ensures forall p, w :: (p, w) in s.cleared ==> Seen(s, t, r).external != Some(p) && p !in Seen(s, t, r).names
  {
    forall p, w | (p, w) in s.cleared
      ensures Seen(s, t, r).external != Some(p) && p !in Seen(s, t, r).names
    {
      assert Free(s, p, w);
    }
  }

  /** Rewriting a loaded asset row in place, or copying it to a fresh row. */
  lemma RewriteKeeps(s: State, t: Tid, r: RowId, phase: Phase, s': State)
    requires Safe(s) && LoadedAsset(s, t, r) && s' == Rephase(s, t, r, phase)
    ensures Safe(s')
  {
    LoadedAssetIsHeld(s, t, r);
    PutKeeps(s, t, r, Seen(s, t, r).(phase := phase));
  }

  lemma CloneKeeps(s: State, t: Tid, source: RowId, r: RowId)
    requires Safe(s) && LoadedAsset(s, t, source) && r !in s.used
    ensures Safe(PutRow(s, t, r, Seen(s, t, source)))
  {
    LoadedAssetIsHeld(s, t, source);
    PutKeeps(s, t, r, Seen(s, t, source));
  }

  lemma InsertKeeps(s: State, t: Tid, r: RowId, row: Row)
    requires Safe(s) && Enabled(s, Insert(t, r, row))
    ensures Safe(PutRow(s, t, r, row))
  {
    forall p, w | (p, w) in s.cleared
      ensures row.external != Some(p) && p !in row.names
    {
      assert Free(s, p, w);
    }
    PutKeeps(s, t, r, row);
  }

  lemma RenameKeeps(s: State, t: Tid, r: RowId, names: set<Path>)
    requires Safe(s) && Enabled(s, Rename(t, r, names))
    ensures Safe(Next(s, Rename(t, r, names)))
  {
    var row := Seen(s, t, r).(names := names);
    if Seen(s, t, r).kind.AssetRow? { LoadedAssetIsHeld(s, t, r); }
    forall p, w | (p, w) in s.cleared
      ensures row.external != Some(p) && p !in row.names
    {
      assert Free(s, p, w);
      RenamedExternal(s, t, r, p, w);
    }
    assert row.external.Some? ==> Held(s, t, row) by {
      if row.external.Some? { ExternalIsHeld(s, t, r); }
    }
    PutKeeps(s, t, r, row);
  }

  /** A restored external asset lets go of its external original and names its new one under the path lock. */
  lemma AdoptKeeps(s: State, t: Tid, r: RowId, p: Path)
    requires Safe(s) && Enabled(s, Adopt(t, r, p))
    ensures Safe(Next(s, Adopt(t, r, p)))
  {
    LoadedAssetIsHeld(s, t, r);
    forall q, w | (q, w) in s.cleared
      ensures q != p
    {
      assert Free(s, q, w);
    }
    PutKeeps(s, t, r, Adopted(Seen(s, t, r), p));
  }

  lemma ExternalIsHeld(s: State, t: Tid, r: RowId)
    requires Safe(s) && Loaded(s, t, r) && Seen(s, t, r).external.Some?
    ensures OwnsPath(s, t, Seen(s, t, r).external.value) || AnchoredExternal(s, t, Seen(s, t, r).external.value)
  {
    if !WrittenBy(s, t, r) {
      assert r in s.rows && OwnsRow(s, t, r);
    }
  }

  lemma RenamedExternal(s: State, t: Tid, r: RowId, p: Path, w: Tid)
    requires Safe(s) && Loaded(s, t, r) && (p, w) in s.cleared
    ensures Seen(s, t, r).external != Some(p)
  {
    assert Free(s, p, w);
  }

  // ---------------------------------------------------------------- collecting

  /** Condemned or not, collecting one more row keeps everything. */
  lemma DoomKeeps(s: State, t: Tid, r: RowId)
    requires Safe(s) && r in s.rows
    requires s.rows[r].kind.AssetRow? ==> OwnsRow(s, t, r) && Due(s.rows[r].phase, s.now) && r !in s.writes
    ensures Safe(Doom(s, t, r))
  {
    var s' := Doom(s, t, r);
    HeldStays(s, s');
    forall p, w | (p, w) in s'.cleared
      ensures Free(s', p, w)
    {
      assert Free(s, p, w);
    }
  }

  lemma BeginPurgeKeeps(s: State, t: Tid, r: RowId)
    requires Safe(s) && Enabled(s, BeginPurge(t, r))
    ensures Safe(Next(s, BeginPurge(t, r)))
  {
    LoadedAssetIsHeld(s, t, r);
    DoomKeeps(s, t, r);
    var d := Doom(s, t, r);
    var row := s.rows[r].(phase := Purging(s.rows[r].phase.purgeAfter));
    HeldStays(s, d);
    PutKeeps(d, t, r, row);
  }

  /** The heart of the matter: the check the collector makes on the rows it sees also holds of every row it
      cannot see, because whoever is about to name the object would hold its path lock, or the lock of a row
      that names it already. */
  lemma CheckClears(s: State, t: Tid, p: Path)
    requires Safe(s) && OwnsPath(s, t, p) && Unreferenced(s, t, p) && AssetsLeftBefore(s, t, p)
    ensures Free(s, p, t)
  {
    forall r | r in s.writes && s.writes[r].Put?
      ensures Spares(s, t, p, r, s.writes[r].row) && (p in s.writes[r].row.names ==> s.writes[r].tid == t)
    {
      var u := s.writes[r].tid;
      if u == t {
        assert Visible(s, t, r);
      } else {
        assert Held(s, u, s.writes[r].row);
        NotAnchored(s, t, p, u);
      }
    }
    forall r | r in s.rows
      ensures Spares(s, t, p, r, s.rows[r]) || Deleted(s, t, r) || (Repointed(s, t, r) && s.rows[r].external != Some(p))
    {
      if !WrittenBy(s, t, r) {
        assert Visible(s, t, r);
      } else if s.writes[r].Put? {
        assert Visible(s, t, r);
      }
    }
  }

  lemma NotAnchored(s: State, t: Tid, p: Path, u: Tid)
    requires Safe(s) && OwnsPath(s, t, p) && Unreferenced(s, t, p) && u != t
    ensures !OwnsPath(s, u, p) && !Anchored(s, u, p) && !AnchoredExternal(s, u, p)
  {
    forall a | a in s.rows && OwnsRow(s, u, a)
      ensures !(s.rows[a].kind.AssetRow? && p in s.rows[a].names) && s.rows[a].external != Some(p)
    {
      assert !WrittenBy(s, t, a);
      assert Visible(s, t, a);
    }
  }

  // ---------------------------------------------------------------- locks, drops and the ends of transactions

  lemma LockKeeps(s: State, step: Step)
    requires Safe(s) && Enabled(s, step) && (step.LockPath? || step.LockRow?)
    ensures Safe(Next(s, step))
  {
    var s' := Next(s, step);
    HeldStays(s, s');
    forall p, w | (p, w) in s'.cleared
      ensures Free(s', p, w)
    {
      assert Free(s, p, w);
    }
  }

  lemma DropKeepsFree(s: State, t: Tid, r: RowId)
    requires Safe(s) && Enabled(s, DropRow(t, r))
    ensures ClearedFree(Next(s, DropRow(t, r)))
  {
    var s' := Next(s, DropRow(t, r));
    forall p, w | (p, w) in s'.cleared
      ensures Free(s', p, w)
    {
      assert Free(s, p, w);
    }
  }

  lemma DropKeepsLocks(s: State, t: Tid, r: RowId)
    requires Safe(s) && Enabled(s, DropRow(t, r))
    ensures var s' := Next(s, DropRow(t, r)); WritesLocked(s') && IdsUsed(s') && NamesHeld(s')
  {
    HeldStays(s, Next(s, DropRow(t, r)));
  }

  lemma DropKeeps(s: State, t: Tid, r: RowId)
    requires Safe(s) && Enabled(s, DropRow(t, r))
    ensures Safe(Next(s, DropRow(t, r)))
  {
    DropKeepsLocks(s, t, r);
    DropKeepsFree(s, t, r);
  }

  /** Only the files, the clock or the objects cleared differ. */
  predicate SameLocks(s: State, s': State) {
    s' == s.(files := s'.files, cleared := s'.cleared, now := s'.now)
  }

  lemma SameLocksKeepFree(s: State, s': State, p: Path, t: Tid)
    requires SameLocks(s, s') && Free(s, p, t)
    ensures Free(s', p, t)
  {
  }

  lemma SameLocksKeep(s: State, s': State)
    requires Safe(s) && SameLocks(s, s') && s.now <= s'.now
    requires forall p, t :: (p, t) in s'.cleared ==> Free(s, p, t)
    ensures Safe(s')
  {
    HeldStays(s, s');
    forall p, t | (p, t) in s'.cleared
      ensures Free(s', p, t)
    {
      SameLocksKeepFree(s, s', p, t);
    }
  }

  /** Files, the clock and the reference check touch no row. */
  lemma PlainKeeps(s: State, step: Step)
    requires Safe(s) && Enabled(s, step) && (step.WriteBytes? || step.Unlink? || step.Tick? || step.Check?)
    ensures Safe(Next(s, step))
  {
    if step.Check? { CheckClears(s, step.t, step.p); }
    SameLocksKeep(s, Next(s, step));
  }

  /** Another transaction's locks, and the rows it has locked, outlive the end of `t`. */
  lemma OthersKeepLocks(s: State, t: Tid, rows: map<RowId, Row>, u: Tid)
    requires Safe(s) && u != t && (rows == s.rows || rows == Committed(s, t))
    ensures var s' := Ended(s, t).(rows := rows);
            && (forall p :: OwnsPath(s, u, p) ==> OwnsPath(s', u, p))
            && (forall r :: OwnsRow(s, u, r) ==>
                  OwnsRow(s', u, r) && (r in s.rows ==> r in rows && rows[r] == s.rows[r]))
            && (forall p :: Anchored(s, u, p) ==> Anchored(s', u, p))
            && (forall p :: AnchoredExternal(s, u, p) ==> AnchoredExternal(s', u, p))
  {
    var s' := Ended(s, t).(rows := rows);
    forall p | Anchored(s, u, p)
      ensures Anchored(s', u, p)
    {
      var a :| a in s.rows && OwnsRow(s, u, a) && s.rows[a].kind.AssetRow? && p in s.rows[a].names;
      assert a in s'.rows && OwnsRow(s', u, a) && s'.rows[a] == s.rows[a];
    }
    forall p | AnchoredExternal(s, u, p)
      ensures AnchoredExternal(s', u, p)
    {
      var a :| a in s.rows && OwnsRow(s, u, a) && s.rows[a].external == Some(p);
      assert a in s'.rows && OwnsRow(s', u, a) && s'.rows[a] == s.rows[a];
    }
  }

  lemma EndKeepsLocks(s: State, t: Tid, rows: map<RowId, Row>)
    requires Safe(s) && (rows == s.rows || rows == Committed(s, t))
    ensures var s' := Ended(s, t).(rows := rows); WritesLocked(s') && IdsUsed(s') && NamesHeld(s')
  {
    var s' := Ended(s, t).(rows := rows);
    forall r | r in s'.writes && s'.writes[r].Put?
      ensures Held(s', s'.writes[r].tid, s'.writes[r].row)
      ensures r in s'.rows ==> r in s.rows && s'.rows[r] == s.rows[r]
    {
      OthersKeepLocks(s, t, rows, s.writes[r].tid);
      assert Held(s, s.writes[r].tid, s.writes[r].row);
    }
  }

  lemma EndKeepsDoomed(s: State, t: Tid, rows: map<RowId, Row>)
    requires Safe(s) && (rows == s.rows || rows == Committed(s, t))
    ensures var s' := Ended(s, t).(rows := rows); DoomedDue(s') && DoomedPurging(s')
  {
    var s' := Ended(s, t).(rows := rows);
    forall r, u | (r, u) in s'.doomed && r in s'.rows && s'.rows[r].kind.AssetRow?
      ensures OwnsRow(s', u, r) && Due(s'.rows[r].phase, s'.now)
    {
      OthersKeepLocks(s, t, rows, u);
    }
  }

  lemma EndKeepsOneFree(s: State, t: Tid, rows: map<RowId, Row>, p: Path, w: Tid)
    requires WritesLocked(s) && Free(s, p, w) && (rows == s.rows || rows == Committed(s, t)) && w != t
    ensures Free(Ended(s, t).(rows := rows), p, w)
  {
  }

  lemma EndKeepsFree(s: State, t: Tid, rows: map<RowId, Row>)
    requires Safe(s) && (rows == s.rows || rows == Committed(s, t))
    ensures ClearedFree(Ended(s, t).(rows := rows))
  {
    var s' := Ended(s, t).(rows := rows);
    forall p, w | (p, w) in s'.cleared
      ensures Free(s', p, w)
    {
      assert Free(s, p, w);
      EndKeepsOneFree(s, t, rows, p, w);
    }
  }

  lemma EndKeeps(s: State, t: Tid, rows: map<RowId, Row>)
    requires Safe(s) && (rows == s.rows || rows == Committed(s, t))
    ensures Safe(Ended(s, t).(rows := rows))
  {
    EndKeepsLocks(s, t, rows);
    EndKeepsDoomed(s, t, rows);
    EndKeepsFree(s, t, rows);
  }

  lemma PublishKeeps(s: State, step: Step)
    requires Safe(s) && Enabled(s, step) && (step.Insert? || step.Rename? || step.Clone? || step.Adopt?)
    ensures Safe(Next(s, step))
  {
    match step
    case Insert(t, r, row) => InsertKeeps(s, t, r, row);
    case Rename(t, r, names) => RenameKeeps(s, t, r, names);
    case Clone(t, source, r) => CloneKeeps(s, t, source, r);
    case Adopt(t, r, p) => AdoptKeeps(s, t, r, p);
  }

  lemma LifecycleKeeps(s: State, step: Step)
    requires Safe(s) && Enabled(s, step) && (step.Trash? || step.Restore? || step.Condemn?)
    ensures Safe(Next(s, step))
  {
    match step
    case Trash(t, r, days) => RewriteKeeps(s, t, r, Trashed(s.now, s.now + days * SECONDS_PER_DAY), Next(s, step));
    case Restore(t, r) => RewriteKeeps(s, t, r, Live, Next(s, step));
    case Condemn(t, r) => RewriteKeeps(s, t, r, Purging(s.now), Next(s, step));
  }

  lemma CollectKeeps(s: State, step: Step)
    requires Safe(s) && Enabled(s, step) && (step.BeginPurge? || step.CollectReplica? || step.DropRow?)
    ensures Safe(Next(s, step))
  {
    match step
    case BeginPurge(t, r) => BeginPurgeKeeps(s, t, r);
    case CollectReplica(t, r) => DoomKeeps(s, t, r);
    case DropRow(t, r) => DropKeeps(s, t, r);
  }

  lemma NextKeeps(s: State, step: Step)
    requires Safe(s) && Enabled(s, step)
    ensures Safe(Next(s, step))
  {
    if step.Insert? || step.Rename? || step.Clone? || step.Adopt? {
      PublishKeeps(s, step);
    } else if step.Trash? || step.Restore? || step.Condemn? {
      LifecycleKeeps(s, step);
    } else if step.BeginPurge? || step.CollectReplica? || step.DropRow? {
      CollectKeeps(s, step);
    } else if step.LockPath? || step.LockRow? {
      LockKeeps(s, step);
    } else if step.Commit? || step.Abort? {
      EndKeeps(s, step.t, if step.Commit? then Committed(s, step.t) else s.rows);
    } else {
      PlainKeeps(s, step);
    }
  }

  lemma {:induction false} RunKeeps(s: State, steps: seq<Step>)
    requires Safe(s)
    ensures Safe(Run(s, steps))
    decreases |steps|
  {
    if steps != [] {
      if Enabled(s, steps[0]) { NextKeeps(s, steps[0]); }
      RunKeeps(if Enabled(s, steps[0]) then Next(s, steps[0]) else s, steps[1..]);
    }
  }

  /** No row names the object, committed or not, but those its collector is collecting. */
  ghost predicate OnlyCollected(s: State, p: Path, t: Tid) {
    && (forall r :: r in s.rows ==> Spares(s, t, p, r, s.rows[r]) || Deleted(s, t, r))
    && (forall r :: r in s.writes && s.writes[r].Put? ==> Spares(s, t, p, r, s.writes[r].row))
  }

  /** The committed version of every replica row that `t` has repointed names another object. */
  ghost predicate RepointedElsewhere(s: State, t: Tid, p: Path) {
    forall r :: Repointed(s, t, r) && (r, t) !in s.doomed ==> p !in s.rows[r].names
  }

  /** Under every interleaving, when a collector is about to unlink an object, no row names it but those the
      collector itself is collecting, whether the row is committed or still being published, and it is no external
      original, exactly when no replica row that the collector has repointed in the same transaction named it. */
  lemma CollectorFreesNothingNamed(start: State, steps: seq<Step>, t: Tid, p: Path)
    requires Idle(start)
    requires Enabled(Run(start, steps), Unlink(t, p))
    ensures Free(Run(start, steps), p, t)
    ensures OnlyCollected(Run(start, steps), p, t) <==> RepointedElsewhere(Run(start, steps), t, p)
  {
    RunKeeps(start, steps);
    FreeExactly(Run(start, steps), p, t);
  }

  lemma FreeExactly(s: State, p: Path, t: Tid)
    requires Free(s, p, t)
    ensures OnlyCollected(s, p, t) <==> RepointedElsewhere(s, t, p)
  {
  }
}
