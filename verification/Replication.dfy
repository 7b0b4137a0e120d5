/** Verified replica copies: placing one, moving one to another drive, and exactly when that costs a copy
    (_copy_verified, _upsert_replica and rebalance_replicas in backend/app/services/replication.py). */
module Replication {
  import opened Options
  import opened Sets

  type RowId = int
  type AssetId = string
  type Drive = string
  type Path = string
  type Checksum = string

  /** A row without a drive belongs to the default replica root. */
  datatype Replica = Replica(asset: AssetId, drive: Option<Drive>, path: Path, metadata: Option<Path>, verified: bool)

  /** `files` gives the checksum of every object, `sums` the storage checksum of every asset, `others` the paths
      that asset rows, uploads and external originals name. */
  datatype Stock = Stock(
    files: map<Path, Checksum>,
    rows: map<RowId, Replica>,
    sums: map<AssetId, Checksum>,
    others: set<Path>)

  predicate Named(rows: map<RowId, Replica>, a: AssetId, p: Path) {
    exists r | r in rows :: rows[r].asset == a && rows[r].path == p
  }

  /** The objects that are valid copies of an asset: a replica row of it names them and their checksum is right. */
  function Copies(s: Stock, a: AssetId): set<Path>
    requires a in s.sums
  {
    set p | p in s.files && s.files[p] == s.sums[a] && Named(s.rows, a, p)
  }

  /** No asset has fewer valid copies. */
  ghost predicate NoFewer(s: Stock, s': Stock) {
    s'.sums == s.sums && forall a :: a in s.sums ==> |Copies(s, a)| <= |Copies(s', a)|
  }

  /** Another row of the asset names the object. */
  predicate OtherRowNames(rows: map<RowId, Replica>, a: AssetId, p: Path, r: RowId) {
    exists q | q in rows :: q != r && rows[q].asset == a && rows[q].path == p
  }

  /** A row other than `r`, or anything else in the catalogue, names the object. */
  predicate OtherReference(rows: map<RowId, Replica>, others: set<Path>, p: Path, r: RowId) {
    p in others || exists q | q in rows :: q != r && (rows[q].path == p || rows[q].metadata == Some(p))
  }

  predicate OnDrive(rows: map<RowId, Replica>, a: AssetId, d: Option<Drive>) {
    exists q | q in rows :: rows[q].asset == a && rows[q].drive == d
  }

  /** Where a drive keeps the object of an asset, and where its sidecar lies. */
  datatype Layout = Layout(place: (Option<Drive>, AssetId) -> Path, sidecar: (Path, AssetId) -> Path)

  /** The part of LayoutOk that depends on no stock. */
  ghost predicate PlacesApart(l: Layout) {
    forall d, b, p, a :: l.place(d, b) != l.sidecar(p, a)
  }

  /** Sidecars carry a suffix that no object has. Nothing is said of drives: their roots may coincide, and a row's
      path need not lie under its drive. */
  ghost predicate LayoutOk(l: Layout, s: Stock) {
    && (forall r :: r in s.rows ==> s.rows[r].asset in s.sums)
    && (forall r, p, a :: r in s.rows ==> s.rows[r].path != l.sidecar(p, a))
    && (forall d, b, p, a :: l.place(d, b) != l.sidecar(p, a))
  }

  // ---------------------------------------------------------------- what the code does

  /** What may go wrong in one turn: the copy raises, the written object holds something else, or writing the
      sidecar, unlinking the old object or unlinking its sidecar raises. */
  datatype Faults = Faults(copy: bool, content: Option<Checksum>, sidecar: bool, unlink: bool, metadata: bool)

  const NO_FAULTS := Faults(false, None, false, false, false)

  const SIDECAR := "metadata"

  /** _copy_verified: a valid destination is left alone, anything else there is replaced, and the result is
      verified again. */
  function Copied(files: map<Path, Checksum>, source: Path, dest: Path, sum: Checksum, f: Faults)
    : (map<Path, Checksum>, bool)
  {
    if dest in files && files[dest] == sum then (files, true)
    else
      var cleared := files - {dest};
      if f.copy || source !in cleared then (cleared, false)
      else
        var content := if f.content.Some? then f.content.value else cleared[source];
        (cleared[dest := content], content == sum)
  }

  function NewRow(l: Layout, a: AssetId, d: Option<Drive>): Replica {
    Replica(a, d, l.place(d, a), Some(l.sidecar(l.place(d, a), a)), true)
  }

  /** _upsert_replica: the verified copy, its sidecar, then the row of the asset on the drive, which is `existing`
      or a new one. */
  function Upserted(l: Layout, s: Stock, id: RowId, existing: Option<RowId>, a: AssetId, d: Option<Drive>,
                    source: Path, f: Faults): (Stock, bool)
    requires a in s.sums
  {
    var (files, ok) := Copied(s.files, source, l.place(d, a), s.sums[a], f);
    if !ok || f.sidecar then (s.(files := files), false)
    else
      (s.(files := files[l.sidecar(l.place(d, a), a) := SIDECAR],
          rows := s.rows[(if existing.Some? then existing.value else id) := NewRow(l, a, d)]), true)
  }

  function Unlinked(s: Stock, p: Path, r: RowId): Stock {
    if OtherReference(s.rows, s.others, p, r) then s else s.(files := s.files - {p})
  }

  /** The second half of a turn: the old object, its sidecar, then its row. */
  function Dropped(s: Stock, r: RowId, f: Faults): (Stock, bool)
    requires r in s.rows
  {
    if f.unlink then (s, false)
    else
      var row := s.rows[r];
      var s1 := Unlinked(s, row.path, r);
      if row.metadata.Some? && f.metadata then (s1, false)
      else
        var s2 := if row.metadata.Some? then Unlinked(s1, row.metadata.value, r) else s1;
        (s2.(rows := s2.rows - {r}), true)
  }

  /** One turn of the loop of rebalance_replicas: row `r` goes to drive `low`. */
  function Turn(l: Layout, s: Stock, id: RowId, r: RowId, low: Drive, f: Faults): (Stock, bool)
    requires r in s.rows && id !in s.rows && s.rows[r].asset in s.sums
  {
    var row := s.rows[r];
    if OnDrive(s.rows, row.asset, Some(low)) || row.path !in s.files then (s, false)
    else
      var (s1, ok) := Upserted(l, s, id, None, row.asset, Some(low), row.path, f);
      if !ok then (s1, false) else Dropped(s1, r, f)
  }

  // ---------------------------------------------------------------- one object at a time

  /** Same object, or same absence. */
  predicate SameFile(files: map<Path, Checksum>, files': map<Path, Checksum>, p: Path) {
    (p in files <==> p in files') && (p in files ==> files'[p] == files[p])
  }

  lemma CopiedFrame(files: map<Path, Checksum>, source: Path, dest: Path, sum: Checksum, f: Faults)
    ensures var (files', ok) := Copied(files, source, dest, sum, f);
            && (forall p :: p != dest ==> SameFile(files, files', p))
            && (ok <==> dest in files' && files'[dest] == sum)
            && (dest in files && files[dest] == sum ==> files' == files)
  {
  }

  /** Placing a copy changes no object but the destination and its sidecar. */
  lemma UpsertedFrame(l: Layout, s: Stock, id: RowId, existing: Option<RowId>, a: AssetId, d: Option<Drive>,
                      source: Path, f: Faults, p: Path)
    requires a in s.sums && PlacesApart(l) && p != l.sidecar(l.place(d, a), a)
    ensures var (s', ok) := Upserted(l, s, id, existing, a, d, source, f);
            && (p != l.place(d, a) ==> SameFile(s.files, s'.files, p))
            && (ok ==> l.place(d, a) in s'.files && s'.files[l.place(d, a)] == s.sums[a])
            && (l.place(d, a) in s.files && s.files[l.place(d, a)] == s.sums[a] ==>
                  SameFile(s.files, s'.files, l.place(d, a)))
  {
    CopiedFrame(s.files, source, l.place(d, a), s.sums[a], f);
  }

  /** Dropping a row changes no object that anything else names. */
  lemma DroppedFrame(s: Stock, r: RowId, f: Faults, p: Path)
    requires r in s.rows && OtherReference(s.rows, s.others, p, r)
    ensures SameFile(s.files, Dropped(s, r, f).0.files, p)
  {
  }

  /** The old object goes exactly when nothing else names it. */
  lemma DroppedObject(s: Stock, r: RowId, f: Faults)
    requires r in s.rows && !f.unlink && !OtherReference(s.rows, s.others, s.rows[r].path, r)
    ensures s.rows[r].path !in Dropped(s, r, f).0.files
  {
  }

  // ---------------------------------------------------------------- what a turn has to do

  /** A valid copy is on the other drive already, or one is made of the row's object there. */
  predicate CopySucceeds(l: Layout, s: Stock, row: Replica, low: Drive, f: Faults)
    requires row.asset in s.sums && row.path in s.files
  {
    var dest, sum := l.place(Some(low), row.asset), s.sums[row.asset];
    || (dest in s.files && s.files[dest] == sum)
    || (!f.copy && row.path != dest && (if f.content != None then f.content.value else s.files[row.path]) == sum)
  }

  /** The asset is not on the drive yet, and its new row is written. */
  predicate Placed(l: Layout, s: Stock, r: RowId, low: Drive, f: Faults)
    requires r in s.rows && s.rows[r].asset in s.sums
  {
    var row := s.rows[r];
    && (forall q | q in s.rows :: s.rows[q].asset == row.asset ==> s.rows[q].drive != Some(low))
    && row.path in s.files && CopySucceeds(l, s, row, low, f) && !f.sidecar
  }

  function MovedRow(l: Layout, a: AssetId, low: Drive): Replica {
    var dest := l.place(Some(low), a);
    Replica(a, Some(low), dest, Some(l.sidecar(dest, a)), true)
  }

  /** Anything but the row itself names the path once the new row is there. */
  predicate Kept(l: Layout, s: Stock, r: RowId, low: Drive, p: Path)
    requires r in s.rows
  {
    var row := MovedRow(l, s.rows[r].asset, low);
    || p == row.path || Some(p) == row.metadata || p in s.others
    || exists q | q in s.rows :: q != r && (s.rows[q].path == p || s.rows[q].metadata == Some(p))
  }

  /** The object is on the other drive under the new row, and the old object and its sidecar are gone unless something
      else names them. */
  ghost predicate MovedOver(l: Layout, s: Stock, s': Stock, id: RowId, r: RowId, low: Drive)
    requires r in s.rows && s.rows[r].asset in s.sums
  {
    var was, row := s.rows[r], MovedRow(l, s.rows[r].asset, low);
    && s'.rows == (s.rows - {r})[id := row]
    && row.path in s'.files && s'.files[row.path] == s.sums[was.asset] && row.metadata.value in s'.files
    && forall p :: p != row.path && Some(p) != row.metadata ==>
         if p in s.files && ((p != was.path && Some(p) != was.metadata) || Kept(l, s, r, low, p))
         then p in s'.files && s'.files[p] == s.files[p] else p !in s'.files
  }

  /** A row moves exactly when its object is there, the asset is not on the other drive, and neither the copy nor
      removing the old object fails; short of that no row goes, and one is added only when the copy is complete. */
  ghost predicate TurnDone(l: Layout, s: Stock, s': Stock, id: RowId, r: RowId, low: Drive, f: Faults, moved: bool)
    requires r in s.rows && s.rows[r].asset in s.sums
  {
    && moved == (Placed(l, s, r, low, f) && !f.unlink && (s.rows[r].metadata == None || !f.metadata))
    && (if moved then MovedOver(l, s, s', id, r, low)
        else if Placed(l, s, r, low, f) then s'.rows == s.rows[id := MovedRow(l, s.rows[r].asset, low)]
        else s'.rows == s.rows)
  }

  lemma TurnIsDone(l: Layout, s: Stock, id: RowId, r: RowId, low: Drive, f: Faults)
    requires PlacesApart(l) && r in s.rows && id !in s.rows && s.rows[r].asset in s.sums
    ensures var (s', moved) := Turn(l, s, id, r, low, f);
            TurnDone(l, s, s', id, r, low, f, moved)
  {
    PlacedExactly(l, s, id, r, low, f);
    var row := s.rows[r];
    var s1 := Upserted(l, s, id, None, row.asset, Some(low), row.path, f).0;
    if Placed(l, s, r, low, f) && !f.unlink && (row.metadata == None || !f.metadata) {
      PlacedRow(l, s, id, r, low, f);
      DroppedExactly(s1, r, f);
      forall p
        ensures OtherReference(s1.rows, s1.others, p, r) <==> Kept(l, s, r, low, p)
      {
        KeptExactly(l, s, id, r, low, s1, p);
      }
    }
  }

  lemma PlacedExactly(l: Layout, s: Stock, id: RowId, r: RowId, low: Drive, f: Faults)
    requires r in s.rows && id !in s.rows && s.rows[r].asset in s.sums
    ensures var row := s.rows[r];
            Placed(l, s, r, low, f) <==>
              && !OnDrive(s.rows, row.asset, Some(low)) && row.path in s.files
              && Upserted(l, s, id, None, row.asset, Some(low), row.path, f).1
  {
  }

  lemma PlacedRow(l: Layout, s: Stock, id: RowId, r: RowId, low: Drive, f: Faults)
    requires PlacesApart(l) && r in s.rows && id !in s.rows && s.rows[r].asset in s.sums && Placed(l, s, r, low, f)
    ensures var row, placed := s.rows[r], MovedRow(l, s.rows[r].asset, low);
            var s1 := Upserted(l, s, id, None, row.asset, Some(low), row.path, f).0;
            && s1.rows == s.rows[id := placed] && s1.others == s.others
            && placed.path in s1.files && s1.files[placed.path] == s.sums[row.asset]
            && placed.metadata.value in s1.files
            && forall p :: p != placed.path && Some(p) != placed.metadata ==> SameFile(s.files, s1.files, p)
  {
    CopiedFrame(s.files, s.rows[r].path, l.place(Some(low), s.rows[r].asset), s.sums[s.rows[r].asset], f);
  }

  lemma KeptExactly(l: Layout, s: Stock, id: RowId, r: RowId, low: Drive, s1: Stock, p: Path)
    requires r in s.rows && id !in s.rows
    requires s1.rows == s.rows[id := MovedRow(l, s.rows[r].asset, low)] && s1.others == s.others
    ensures OtherReference(s1.rows, s1.others, p, r) <==> Kept(l, s, r, low, p)
  {
    if q :| q in s.rows && q != r && (s.rows[q].path == p || s.rows[q].metadata == Some(p)) {
      assert s1.rows[q] == s.rows[q];
    }
    assert s1.rows[id] == MovedRow(l, s.rows[r].asset, low);
  }

  /** What dropping a row removes when nothing fails. */
  lemma DroppedExactly(s: Stock, r: RowId, f: Faults)
    requires r in s.rows && !f.unlink && (s.rows[r].metadata == None || !f.metadata)
    ensures var (s', dropped) := Dropped(s, r, f);
            && dropped && s'.rows == s.rows - {r}
            && forall p :: if p in s.files && ((p != s.rows[r].path && Some(p) != s.rows[r].metadata)
                                               || OtherReference(s.rows, s.others, p, r))
                           then p in s'.files && s'.files[p] == s.files[p] else p !in s'.files
  {
  }

  // ---------------------------------------------------------------- one copy at a time

  /** A copy that lies elsewhere is untouched by placing one. */
  lemma UpsertKeepsElsewhere(l: Layout, s: Stock, id: RowId, a: AssetId, d: Option<Drive>, source: Path, f: Faults,
                             b: AssetId, p: Path)
    requires a in s.sums && b in s.sums && LayoutOk(l, s) && id !in s.rows && p != l.place(d, a)
    ensures p in Copies(Upserted(l, s, id, None, a, d, source, f).0, b) <==> p in Copies(s, b)
  {
    var s' := Upserted(l, s, id, None, a, d, source, f).0;
    assert Named(s'.rows, b, p) <==> Named(s.rows, b, p) by {
      if r :| r in s.rows && s.rows[r].asset == b && s.rows[r].path == p { assert s'.rows[r] == s.rows[r]; }
    }
    if Named(s.rows, b, p) { UpsertedFrame(l, s, id, None, a, d, source, f, p); }
  }

  /** What happens to the copies at the destination: the asset has one there when the placing succeeds, assets of
      equal content keep theirs, and a success costs assets of other content theirs. */
  lemma UpsertAtDestination(l: Layout, s: Stock, id: RowId, a: AssetId, d: Option<Drive>, source: Path, f: Faults,
                            b: AssetId)
    requires a in s.sums && b in s.sums && LayoutOk(l, s) && id !in s.rows
    ensures var dest := l.place(d, a);
            var (s', ok) := Upserted(l, s, id, None, a, d, source, f);
            && (ok ==> dest in Copies(s', a))
            && (dest in Copies(s, b) && s.sums[b] == s.sums[a] ==> dest in Copies(s', b))
            && (ok && s.sums[b] != s.sums[a] ==> dest !in Copies(s', b))
            && (dest in Copies(s, a) && !f.sidecar ==> ok)
  {
    var dest := l.place(d, a);
    var (s', ok) := Upserted(l, s, id, None, a, d, source, f);
    UpsertedFrame(l, s, id, None, a, d, source, f, dest);
    if r :| r in s.rows && s.rows[r].asset == b && s.rows[r].path == dest { assert s'.rows[r] == s.rows[r]; }
    if ok { assert s'.rows[id] == NewRow(l, a, d); }
  }

  /** Dropping a row spares every copy but the one the row names. */
  lemma DropSparesOthers(s: Stock, r: RowId, f: Faults, b: AssetId, p: Path)
    requires r in s.rows && b in s.sums && (b != s.rows[r].asset || p != s.rows[r].path)
    ensures p in Copies(Dropped(s, r, f).0, b) <==> p in Copies(s, b)
  {
    var s' := Dropped(s, r, f).0;
    if q :| q in s.rows && s.rows[q].asset == b && s.rows[q].path == p {
      assert q in s'.rows && s'.rows[q] == s.rows[q];
      DroppedFrame(s, r, f, p);
    }
  }

  /** The named copy survives exactly when another row of the asset names it too, or, when the row stays because
      its sidecar could not be unlinked, when anything else names it. */
  lemma DropCosts(s: Stock, r: RowId, f: Faults)
    requires r in s.rows && s.rows[r].asset in s.sums && s.rows[r].path in Copies(s, s.rows[r].asset)
    ensures var (s', dropped) := Dropped(s, r, f);
            var a, p := s.rows[r].asset, s.rows[r].path;
            p in Copies(s', a) <==>
              f.unlink || (if dropped then OtherRowNames(s.rows, a, p, r) else OtherReference(s.rows, s.others, p, r))
  {
    var (s', dropped) := Dropped(s, r, f);
    var a, p := s.rows[r].asset, s.rows[r].path;
    if OtherReference(s.rows, s.others, p, r) {
      DroppedFrame(s, r, f, p);
      if q :| q in s.rows && q != r && s.rows[q].asset == a && s.rows[q].path == p {
        assert q in s'.rows && s'.rows[q] == s.rows[q];
      }
      if !dropped { assert s'.rows[r] == s.rows[r]; }
    } else if !f.unlink {
      DroppedObject(s, r, f);
    } else {
      assert s' == s;
    }
  }

  // ---------------------------------------------------------------- placing a copy again

  /** Pointing the existing row of an asset on a drive at a new copy costs the asset a valid copy exactly when the
      row named one elsewhere that no other row of the asset names and the new one was a copy already; a new row
      never does. */
  lemma UpsertCosts(l: Layout, s: Stock, id: RowId, existing: Option<RowId>, a: AssetId, d: Option<Drive>,
                    source: Path, f: Faults)
    requires a in s.sums && LayoutOk(l, s) && id !in s.rows
    requires existing.Some? ==> existing.value in s.rows && s.rows[existing.value].asset == a
    ensures var dest := l.place(d, a);
            var (s', ok) := Upserted(l, s, id, existing, a, d, source, f);
            |Copies(s', a)| < |Copies(s, a)| <==>
              && ok && existing.Some? && s.rows[existing.value].path != dest
              && s.rows[existing.value].path in Copies(s, a) && dest in Copies(s, a)
              && !OtherRowNames(s.rows, a, s.rows[existing.value].path, existing.value)
  {
    var dest := l.place(d, a);
    var (s', ok) := Upserted(l, s, id, existing, a, d, source, f);
    var before, after := Copies(s, a), Copies(s', a);
    UpsertedFrame(l, s, id, existing, a, d, source, f, dest);
    if ok { assert s'.rows[if existing.Some? then existing.value else id] == NewRow(l, a, d); }
    var former := if ok && existing.Some? then s.rows[existing.value].path else dest;
    forall q | q != dest && q != former
      ensures q in after <==> q in before
    {
      UpsertKeepsOwnElsewhere(l, s, id, existing, a, d, source, f, q);
    }
    assert dest in before || ok ==> dest in after by {
      if r :| r in s.rows && s.rows[r].asset == a && s.rows[r].path == dest && !ok { assert s'.rows[r] == s.rows[r]; }
    }
    if former != dest { RepointedFormer(l, s, id, existing.value, a, d, source, f); }
    if former == dest || former !in before || former in after {
      SubsetSmaller(before, after);
    } else if dest in before {
      assert after == before - {former};
    } else {
      SwapKeepsCount(before, after, former, dest);
    }
  }

  lemma UpsertKeepsOwnElsewhere(l: Layout, s: Stock, id: RowId, existing: Option<RowId>, a: AssetId, d: Option<Drive>,
                                source: Path, f: Faults, p: Path)
    requires a in s.sums && LayoutOk(l, s) && id !in s.rows && p != l.place(d, a)
    requires existing.Some? ==> existing.value in s.rows && s.rows[existing.value].asset == a
    requires existing.Some? && Upserted(l, s, id, existing, a, d, source, f).1 ==> p != s.rows[existing.value].path
    ensures p in Copies(Upserted(l, s, id, existing, a, d, source, f).0, a) <==> p in Copies(s, a)
  {
    var s' := Upserted(l, s, id, existing, a, d, source, f).0;
    if r :| r in s.rows && s.rows[r].asset == a && s.rows[r].path == p {
      UpsertedFrame(l, s, id, existing, a, d, source, f, p);
      assert s'.rows[r] == s.rows[r];
    }
  }

  lemma RepointedFormer(l: Layout, s: Stock, id: RowId, r: RowId, a: AssetId, d: Option<Drive>, source: Path, f: Faults)
    requires a in s.sums && LayoutOk(l, s) && r in s.rows && s.rows[r].asset == a && s.rows[r].path != l.place(d, a)
    requires Upserted(l, s, id, Some(r), a, d, source, f).1
    ensures s.rows[r].path in Copies(Upserted(l, s, id, Some(r), a, d, source, f).0, a)
            <==> s.rows[r].path in Copies(s, a) && OtherRowNames(s.rows, a, s.rows[r].path, r)
  {
    var s' := Upserted(l, s, id, Some(r), a, d, source, f).0;
    UpsertedFrame(l, s, id, Some(r), a, d, source, f, s.rows[r].path);
    if q :| q in s.rows && q != r && s.rows[q].asset == a && s.rows[q].path == s.rows[r].path {
      assert s'.rows[q] == s.rows[q];
    }
  }

  // ---------------------------------------------------------------- one turn

  /** The new copy is placed: the turn gets past the copy and the sidecar. */
  predicate Places(l: Layout, s: Stock, r: RowId, low: Drive, f: Faults)
    requires r in s.rows && s.rows[r].asset in s.sums
  {
    var row := s.rows[r];
    && !OnDrive(s.rows, row.asset, Some(low)) && row.path in s.files && !f.sidecar
    && Copied(s.files, row.path, l.place(Some(low), row.asset), s.sums[row.asset], f).1
  }

  /** Placing the copy adds no second name for the old object, unless it is the destination. */
  lemma NewRowNamesNothingElse(l: Layout, s: Stock, id: RowId, r: RowId, d: Option<Drive>, p: Path)
    requires r in s.rows && id !in s.rows && LayoutOk(l, s) && p == s.rows[r].path
    ensures var a := s.rows[r].asset;
            var rows := s.rows[id := NewRow(l, a, d)];
            if p == l.place(d, a) then OtherRowNames(rows, a, p, r) && OtherReference(rows, s.others, p, r)
            else && (OtherRowNames(rows, a, p, r) <==> OtherRowNames(s.rows, a, p, r))
                 && (OtherReference(rows, s.others, p, r) <==> OtherReference(s.rows, s.others, p, r))
  {
    var a := s.rows[r].asset;
    var rows := s.rows[id := NewRow(l, a, d)];
    assert rows[id].path == l.place(d, a);
    if q :| q in s.rows && q != r && (s.rows[q].path == p || s.rows[q].metadata == Some(p)) {
      assert rows[q] == s.rows[q];
    }
    if q :| q in s.rows && q != r && s.rows[q].asset == a && s.rows[q].path == p { assert rows[q] == s.rows[q]; }
  }

  /** The asset of the row finds its copies where they were, but for the old place and the destination. */
  lemma TurnElsewhere(l: Layout, s: Stock, id: RowId, r: RowId, low: Drive, f: Faults, p: Path)
    requires r in s.rows && id !in s.rows && LayoutOk(l, s)
    requires p != s.rows[r].path && p != l.place(Some(low), s.rows[r].asset)
    ensures p in Copies(Turn(l, s, id, r, low, f).0, s.rows[r].asset) <==> p in Copies(s, s.rows[r].asset)
  {
    var a := s.rows[r].asset;
    var (s1, ok) := Upserted(l, s, id, None, a, Some(low), s.rows[r].path, f);
    UpsertKeepsElsewhere(l, s, id, a, Some(low), s.rows[r].path, f, a, p);
    if ok { DropSparesOthers(s1, r, f, a, p); }
  }

  /** At the destination it keeps what it had, and has a copy when one is placed. */
  lemma TurnAtDestination(l: Layout, s: Stock, id: RowId, r: RowId, low: Drive, f: Faults)
    requires r in s.rows && id !in s.rows && LayoutOk(l, s)
    ensures var a, dest := s.rows[r].asset, l.place(Some(low), s.rows[r].asset);
            Places(l, s, r, low, f) || dest in Copies(s, a) ==> dest in Copies(Turn(l, s, id, r, low, f).0, a)
    ensures var a, dest := s.rows[r].asset, l.place(Some(low), s.rows[r].asset);
            dest in Copies(s, a) && !OnDrive(s.rows, a, Some(low)) && s.rows[r].path in s.files && !f.sidecar ==>
              Places(l, s, r, low, f)
  {
    var a, dest := s.rows[r].asset, l.place(Some(low), s.rows[r].asset);
    var (s1, ok) := Upserted(l, s, id, None, a, Some(low), s.rows[r].path, f);
    UpsertAtDestination(l, s, id, a, Some(low), s.rows[r].path, f, a);
    if ok {
      if dest == s.rows[r].path {
        NewRowNamesNothingElse(l, s, id, r, Some(low), dest);
        DropCosts(s1, r, f);
      } else {
        DropSparesOthers(s1, r, f, a, dest);
      }
    }
  }

  /** The old copy is lost by the turn. */
  predicate LosesOld(l: Layout, s: Stock, r: RowId, low: Drive, f: Faults)
    requires r in s.rows && s.rows[r].asset in s.sums
  {
    var row := s.rows[r];
    && Places(l, s, r, low, f) && !f.unlink
    && row.path != l.place(Some(low), row.asset) && row.path in Copies(s, row.asset)
    && (if row.metadata.Some? && f.metadata then !OtherReference(s.rows, s.others, row.path, r)
        else !OtherRowNames(s.rows, row.asset, row.path, r))
  }

  lemma TurnAtOldPlace(l: Layout, s: Stock, id: RowId, r: RowId, low: Drive, f: Faults)
    requires r in s.rows && id !in s.rows && LayoutOk(l, s)
    requires s.rows[r].path != l.place(Some(low), s.rows[r].asset)
    requires s.rows[r].path in Copies(s, s.rows[r].asset)
    ensures s.rows[r].path !in Copies(Turn(l, s, id, r, low, f).0, s.rows[r].asset) <==> LosesOld(l, s, r, low, f)
  {
    var a, p := s.rows[r].asset, s.rows[r].path;
    var (s1, ok) := Upserted(l, s, id, None, a, Some(low), p, f);
    UpsertKeepsElsewhere(l, s, id, a, Some(low), p, f, a, p);
    if ok {
      NewRowNamesNothingElse(l, s, id, r, Some(low), p);
      DropCosts(s1, r, f);
    }
  }

  /** Exactly when a turn, however it ends, leaves its asset fewer valid copies: it loses the copy at the old place
      and the destination held one already. */
  predicate Costs(l: Layout, s: Stock, r: RowId, low: Drive, f: Faults)
    requires r in s.rows && s.rows[r].asset in s.sums
  {
    LosesOld(l, s, r, low, f) && l.place(Some(low), s.rows[r].asset) in Copies(s, s.rows[r].asset)
  }

  /** Its copies but for the old one are all still there, and the new one is when the old one is lost. */
  lemma TurnKeepsOwn(l: Layout, s: Stock, id: RowId, r: RowId, low: Drive, f: Faults)
    requires r in s.rows && id !in s.rows && LayoutOk(l, s)
    ensures var a, p := s.rows[r].asset, s.rows[r].path;
            var after := Copies(Turn(l, s, id, r, low, f).0, a);
            && Copies(s, a) - (if LosesOld(l, s, r, low, f) then {p} else {}) <= after
            && (LosesOld(l, s, r, low, f) ==> p !in after && l.place(Some(low), a) in after)
  {
    var a, p, dest := s.rows[r].asset, s.rows[r].path, l.place(Some(low), s.rows[r].asset);
    TurnAtDestination(l, s, id, r, low, f);
    if p != dest && p in Copies(s, a) { TurnAtOldPlace(l, s, id, r, low, f); }
    forall q | q in Copies(s, a) && q != p
      ensures q in Copies(Turn(l, s, id, r, low, f).0, a)
    {
      if q != dest { TurnElsewhere(l, s, id, r, low, f, q); }
    }
  }

  lemma TurnCosts(l: Layout, s: Stock, id: RowId, r: RowId, low: Drive, f: Faults)
    requires r in s.rows && id !in s.rows && LayoutOk(l, s)
    ensures |Copies(Turn(l, s, id, r, low, f).0, s.rows[r].asset)| < |Copies(s, s.rows[r].asset)|
            <==> Costs(l, s, r, low, f)
  {
    var a, p, dest := s.rows[r].asset, s.rows[r].path, l.place(Some(low), s.rows[r].asset);
    var before, after := Copies(s, a), Copies(Turn(l, s, id, r, low, f).0, a);
    TurnKeepsOwn(l, s, id, r, low, f);
    if !LosesOld(l, s, r, low, f) {
      SubsetSmaller(before, after);
    } else if dest in before {
      forall q | q in after
        ensures q in before - {p}
      {
        if q != dest { TurnElsewhere(l, s, id, r, low, f, q); }
      }
      assert after == before - {p};
    } else {
      SwapKeepsCount(before, after, p, dest);
    }
  }

  lemma OthersElsewhere(l: Layout, s: Stock, id: RowId, r: RowId, low: Drive, f: Faults, b: AssetId, p: Path)
    requires r in s.rows && id !in s.rows && LayoutOk(l, s) && b in s.sums && b != s.rows[r].asset
    requires p != l.place(Some(low), s.rows[r].asset)
    ensures p in Copies(Turn(l, s, id, r, low, f).0, b) <==> p in Copies(s, b)
  {
    var a := s.rows[r].asset;
    var (s1, ok) := Upserted(l, s, id, None, a, Some(low), s.rows[r].path, f);
    UpsertKeepsElsewhere(l, s, id, a, Some(low), s.rows[r].path, f, b, p);
    if ok { DropSparesOthers(s1, r, f, b, p); }
  }

  lemma OthersAtDestination(l: Layout, s: Stock, id: RowId, r: RowId, low: Drive, f: Faults, b: AssetId)
    requires r in s.rows && id !in s.rows && LayoutOk(l, s) && b in s.sums && b != s.rows[r].asset
    requires l.place(Some(low), s.rows[r].asset) in Copies(s, b)
    ensures var dest, after := l.place(Some(low), s.rows[r].asset), Copies(Turn(l, s, id, r, low, f).0, b);
            && (s.sums[b] == s.sums[s.rows[r].asset] ==> dest in after)
            && (s.sums[b] != s.sums[s.rows[r].asset] && Places(l, s, r, low, f) ==> dest !in after)
  {
    var a, dest := s.rows[r].asset, l.place(Some(low), s.rows[r].asset);
    var (s1, ok) := Upserted(l, s, id, None, a, Some(low), s.rows[r].path, f);
    UpsertAtDestination(l, s, id, a, Some(low), s.rows[r].path, f, b);
    if ok { DropSparesOthers(s1, r, f, b, dest); }
  }

  /** The destination held other content, which the turn replaces: whatever happens after that, the old content is
      gone, unless the copy is garbled into the very same. */
  predicate Replaces(l: Layout, s: Stock, r: RowId, low: Drive, f: Faults, b: AssetId)
    requires r in s.rows && s.rows[r].asset in s.sums && b in s.sums
  {
    var row := s.rows[r];
    var dest := l.place(Some(low), row.asset);
    && s.sums[b] != s.sums[row.asset] && dest in Copies(s, b)
    && !OnDrive(s.rows, row.asset, Some(low)) && row.path in s.files
    && !(!f.copy && row.path != dest
         && (if f.content.Some? then f.content.value else s.files[row.path]) == s.sums[b])
  }

  /** What the copy leaves at a destination that held other content. */
  lemma CopiedOver(files: map<Path, Checksum>, source: Path, dest: Path, sum: Checksum, f: Faults, was: Checksum)
    requires source in files && dest in files && files[dest] == was != sum
    ensures var (files', ok) := Copied(files, source, dest, sum, f);
            dest in files' && files'[dest] == was
            <==> !f.copy && source != dest && (if f.content.Some? then f.content.value else files[source]) == was
  {
  }

  lemma OtherContentAtDestination(l: Layout, s: Stock, id: RowId, r: RowId, low: Drive, f: Faults, b: AssetId)
    requires r in s.rows && id !in s.rows && LayoutOk(l, s) && b in s.sums && b != s.rows[r].asset
    requires l.place(Some(low), s.rows[r].asset) in Copies(s, b) && s.sums[b] != s.sums[s.rows[r].asset]
    ensures l.place(Some(low), s.rows[r].asset) in Copies(Turn(l, s, id, r, low, f).0, b)
            <==> !Replaces(l, s, r, low, f, b)
  {
    var a, dest := s.rows[r].asset, l.place(Some(low), s.rows[r].asset);
    if !OnDrive(s.rows, a, Some(low)) && s.rows[r].path in s.files {
      CopiedOver(s.files, s.rows[r].path, dest, s.sums[a], f, s.sums[b]);
      if Upserted(l, s, id, None, a, Some(low), s.rows[r].path, f).1 {
        OthersAtDestination(l, s, id, r, low, f, b);
      } else if q :| q in s.rows && s.rows[q].asset == b && s.rows[q].path == dest {
        assert Turn(l, s, id, r, low, f).0.rows[q] == s.rows[q];
      }
    }
  }

  /** Exactly when a turn, however it ends, costs another asset a copy, which is then the one at the destination. */
  lemma TurnSparesOthers(l: Layout, s: Stock, id: RowId, r: RowId, low: Drive, f: Faults, b: AssetId)
    requires r in s.rows && id !in s.rows && LayoutOk(l, s) && b in s.sums && b != s.rows[r].asset
    ensures var dest := l.place(Some(low), s.rows[r].asset);
            var before, after := Copies(s, b), Copies(Turn(l, s, id, r, low, f).0, b);
            && before - (if Replaces(l, s, r, low, f, b) then {dest} else {}) <= after
            && (|after| < |before| <==> Replaces(l, s, r, low, f, b))
  {
    var dest := l.place(Some(low), s.rows[r].asset);
    var before, after := Copies(s, b), Copies(Turn(l, s, id, r, low, f).0, b);
    forall p | p != dest
      ensures p in after <==> p in before
    {
      OthersElsewhere(l, s, id, r, low, f, b, p);
    }
    if dest in before {
      if s.sums[b] == s.sums[s.rows[r].asset] {
        OthersAtDestination(l, s, id, r, low, f, b);
      } else {
        OtherContentAtDestination(l, s, id, r, low, f, b);
      }
    }
    if before <= after {
      SubsetSmaller(before, after);
    } else {
      assert after == before - {dest};
    }
  }

  // ---------------------------------------------------------------- a lost commit

  /** The database after a turn whose commit fails: the rows are back, the files are not. */
  function RolledBack(before: Stock, after: Stock): Stock {
    before.(files := after.files)
  }

  /** The objects that rows other than `r` name survive a turn, and the destination holds the content. */
  lemma TurnFiles(l: Layout, s: Stock, id: RowId, r: RowId, low: Drive, f: Faults, q: RowId)
    requires r in s.rows && id !in s.rows && LayoutOk(l, s) && Turn(l, s, id, r, low, f).1 && q in s.rows && q != r
    ensures s.rows[q].path != l.place(Some(low), s.rows[r].asset) ==>
              SameFile(s.files, Turn(l, s, id, r, low, f).0.files, s.rows[q].path)
  {
    var a, p := s.rows[r].asset, s.rows[q].path;
    var (s1, ok) := Upserted(l, s, id, None, a, Some(low), s.rows[r].path, f);
    UpsertedFrame(l, s, id, None, a, Some(low), s.rows[r].path, f, p);
    assert s1.rows[q] == s.rows[q];
    DroppedFrame(s1, r, f, p);
  }

  lemma TurnFilesHere(l: Layout, s: Stock, id: RowId, r: RowId, low: Drive, f: Faults)
    requires r in s.rows && id !in s.rows && LayoutOk(l, s) && Turn(l, s, id, r, low, f).1
    ensures var p, dest := s.rows[r].path, l.place(Some(low), s.rows[r].asset);
            var files := Turn(l, s, id, r, low, f).0.files;
            && dest in files && files[dest] == s.sums[s.rows[r].asset]
            && (p != dest ==>
                  && (p in files <==> OtherReference(s.rows, s.others, p, r))
                  && (p in files ==> files[p] == s.files[p]))
  {
    var a, p, dest := s.rows[r].asset, s.rows[r].path, l.place(Some(low), s.rows[r].asset);
    var (s1, ok) := Upserted(l, s, id, None, a, Some(low), p, f);
    UpsertedFrame(l, s, id, None, a, Some(low), p, f, p);
    UpsertedFrame(l, s, id, None, a, Some(low), p, f, dest);
    assert s1.rows[id].path == dest;
    DroppedFrame(s1, r, f, dest);
    NewRowNamesNothingElse(l, s, id, r, Some(low), p);
    if OtherReference(s1.rows, s1.others, p, r) { DroppedFrame(s1, r, f, p); } else { DroppedObject(s1, r, f); }
  }

  /** The order copy, unlink, commit does not protect against a failed commit. A completed turn that is rolled
      back costs its asset a copy exactly when the old place held one that nothing else names, unless a stale row
      of the asset happens to name the destination, which now is valid. */
  lemma LostCommitCosts(l: Layout, s: Stock, id: RowId, r: RowId, low: Drive, f: Faults)
    requires r in s.rows && id !in s.rows && LayoutOk(l, s) && Turn(l, s, id, r, low, f).1
    ensures var a, p, dest := s.rows[r].asset, s.rows[r].path, l.place(Some(low), s.rows[r].asset);
            |Copies(RolledBack(s, Turn(l, s, id, r, low, f).0), a)| < |Copies(s, a)|
            <==> && p in Copies(s, a) && p != dest && !OtherReference(s.rows, s.others, p, r)
                 && (Named(s.rows, a, dest) ==> dest in Copies(s, a))
  {
    var a, p, dest := s.rows[r].asset, s.rows[r].path, l.place(Some(low), s.rows[r].asset);
    var before, after := Copies(s, a), Copies(RolledBack(s, Turn(l, s, id, r, low, f).0), a);
    TurnFilesHere(l, s, id, r, low, f);
    forall q | q != p && q != dest
      ensures q in after <==> q in before
    {
      if i :| i in s.rows && s.rows[i].asset == a && s.rows[i].path == q { TurnFiles(l, s, id, r, low, f, i); }
    }
    assert dest in after <==> Named(s.rows, a, dest);
    if p == dest || p !in before || OtherReference(s.rows, s.others, p, r) {
      SubsetSmaller(before, after);
    } else if dest in after && dest !in before {
      SwapKeepsCount(before, after, p, dest);
    } else {
      assert after == before - {p};
    }
  }

  // ---------------------------------------------------------------- a row of the default root

  /** Drives A and B, and a row written while no drive was configured: it has no drive, and its object lies where
      drive A, added later on the same root, keeps objects. */
  function DefaultRow(l: Layout, a: AssetId, b: Drive, sum: Checksum, drive: Drive): Stock {
    var p, q := l.place(Some(drive), a), l.place(Some(b), a);
    Stock(map[p := sum, q := sum],
          map[1 := Replica(a, None, p, None, true), 2 := Replica(a, Some(b), q, None, true)],
          map[a := sum], {})
  }

  /** Rebalancing B to A then adopts the object that is there and unlinks the one on B: two valid copies become
      one, although the roots of A and B differ and nothing fails. */
  lemma DefaultRowCostsACopy(l: Layout, a: AssetId, b: Drive, sum: Checksum, drive: Drive)
    requires b != drive && l.place(Some(b), a) != l.place(Some(drive), a)
             && LayoutOk(l, DefaultRow(l, a, b, sum, drive))
    ensures var s := DefaultRow(l, a, b, sum, drive);
            var (s', moved) := Turn(l, s, 3, 2, drive, NO_FAULTS);
            moved && |Copies(s, a)| == 2 && |Copies(s', a)| == 1
  {
    var s, f := DefaultRow(l, a, b, sum, drive), NO_FAULTS;
    var p, q := l.place(Some(drive), a), l.place(Some(b), a);
    assert s.rows[1].path == p && s.rows[2].path == q;
    assert Copies(s, a) == {p, q};
    TurnCosts(l, s, 3, 2, drive, f);
    TurnAtDestination(l, s, 3, 2, drive, f);
    assert p in Copies(Turn(l, s, 3, 2, drive, f).0, a);
    SubsetSmaller({p}, Copies(Turn(l, s, 3, 2, drive, f).0, a));
  }
}
