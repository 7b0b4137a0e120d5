/** What is lost when the one commit after a whole rebalancing pass fails: the database forgets every turn, the
    files remember them all (rebalance_replicas in backend/app/services/replication.py, rebalance_user_storage in
    backend/app/worker/tasks.py). */
module LostCommits {
  import opened Options
  import opened Rebalancing
  import opened Replication
  import opened Sets

  predicate Mentions(row: Replica, p: Path) {
    row.path == p || row.metadata == Some(p)
  }

  // ---------------------------------------------------------------- one turn and one object

  /** The turn completes: its row goes. */
  predicate Drops(l: Layout, s: Stock, r: RowId, low: Drive, f: Faults)
    requires r in s.rows && s.rows[r].asset in s.sums
  {
    Places(l, s, r, low, f) && !f.unlink && !(s.rows[r].metadata.Some? && f.metadata)
  }

  /** The turn gets to the point of unlinking the object, unless something names it. */
  predicate Tries(l: Layout, s: Stock, r: RowId, low: Drive, f: Faults, p: Path)
    requires r in s.rows && s.rows[r].asset in s.sums
  {
    && Places(l, s, r, low, f) && !f.unlink
    && (s.rows[r].path == p || (s.rows[r].metadata == Some(p) && !f.metadata))
  }

  /** The object is no place of a copy that the turn may write and no sidecar. */
  ghost predicate Beside(l: Layout, p: Path, dest: Path) {
    p != dest && forall q, a :: p != l.sidecar(q, a)
  }

  lemma DroppedOn(s: Stock, r: RowId, f: Faults, p: Path)
    requires r in s.rows
    ensures var files := Dropped(s, r, f).0.files;
            && (p in files <==>
                  p in s.files && !(&& !f.unlink && !OtherReference(s.rows, s.others, p, r)
                                    && (s.rows[r].path == p || (s.rows[r].metadata == Some(p) && !f.metadata))))
            && (p in files ==> files[p] == s.files[p])
  {
  }

  /** The new row names its copy and its sidecar only. */
  lemma NewRowIsBeside(l: Layout, s: Stock, id: RowId, a: AssetId, d: Option<Drive>, p: Path, r: RowId)
    requires id !in s.rows && r in s.rows && Beside(l, p, l.place(d, a))
    ensures OtherReference(s.rows[id := NewRow(l, a, d)], s.others, p, r) <==> OtherReference(s.rows, s.others, p, r)
  {
    var rows := s.rows[id := NewRow(l, a, d)];
    if q :| q in s.rows && q != r && (s.rows[q].path == p || s.rows[q].metadata == Some(p)) {
      assert rows[q] == s.rows[q];
    }
  }

  /** What one turn does to an object beside its destination: it goes exactly when the turn gets to it and nothing
      but the row of the turn names it. */
  lemma TurnOn(l: Layout, s: Stock, id: RowId, r: RowId, low: Drive, f: Faults, p: Path)
    requires r in s.rows && id !in s.rows && s.rows[r].asset in s.sums && PlacesApart(l)
    requires Beside(l, p, l.place(Some(low), s.rows[r].asset))
    ensures var files := Turn(l, s, id, r, low, f).0.files;
            && (p in files <==>
                  p in s.files && !(Tries(l, s, r, low, f, p) && !OtherReference(s.rows, s.others, p, r)))
            && (p in files ==> files[p] == s.files[p])
  {
    var a := s.rows[r].asset;
    UpsertedFrame(l, s, id, None, a, Some(low), s.rows[r].path, f, p);
    var (s1, ok) := Upserted(l, s, id, None, a, Some(low), s.rows[r].path, f);
    if ok {
      NewRowIsBeside(l, s, id, a, Some(low), p, r);
      DroppedOn(s1, r, f, p);
    }
  }

  /** The rows after a turn. */
  lemma TurnKeepsRows(l: Layout, s: Stock, id: RowId, r: RowId, low: Drive, f: Faults)
    requires r in s.rows && id !in s.rows && s.rows[r].asset in s.sums
    ensures var (s', done) := Turn(l, s, id, r, low, f);
            && (done <==> Drops(l, s, r, low, f))
            && s'.others == s.others
            && s'.rows == (if Places(l, s, r, low, f) then s.rows[id := NewRow(l, s.rows[r].asset, Some(low))]
                           else s.rows) - (if Drops(l, s, r, low, f) then {r} else {})
  {
  }

  // ---------------------------------------------------------------- a pass and one object

  function AssetOf(b: Balancing, k: nat): (a: AssetId)
    requires Fit(b) && k < |b.rows|
    ensures a in b.start.sums
  {
    var r := b.rows[k];
    assert r < b.next;
    b.start.rows[r].asset
  }

  function DestOf(b: Balancing, k: nat): Path
    requires Fit(b) && k < |b.rows|
  {
    b.layout.place(Some(b.low), AssetOf(b, k))
  }

  /** The turn number `k` completes. */
  predicate DropsAt(b: Balancing, k: nat)
    requires Fit(b) && k < |b.rows|
  {
    Drops(b.layout, At(b, k).stock, b.rows[k], b.low, b.faults(k))
  }

  predicate TriesAt(b: Balancing, k: nat, p: Path)
    requires Fit(b) && k < |b.rows|
  {
    Tries(b.layout, At(b, k).stock, b.rows[k], b.low, b.faults(k), p)
  }

  /** One of the first `n` turns has moved the row. */
  predicate Moved(b: Balancing, r: RowId, n: nat)
    requires Fit(b) && n <= |b.rows|
  {
    exists k: nat | k < n :: b.rows[k] == r && DropsAt(b, k)
  }

  /** The object is no destination of the pass and no sidecar. */
  ghost predicate Apart(b: Balancing, p: Path)
    requires Fit(b)
  {
    && (forall k: nat :: k < |b.rows| ==> p != DestOf(b, k))
    && (forall q, a :: p != b.layout.sidecar(q, a))
  }

  lemma {:induction false} OthersAt(b: Balancing, n: nat)
    requires Fit(b) && n <= |b.rows|
    ensures At(b, n).stock.others == b.start.others
  {
    if n > 0 {
      OthersAt(b, n - 1);
      var p := At(b, n - 1);
      TurnKeepsSums(b.layout, p.stock, p.next, b.rows[n - 1], b.low, b.faults(n - 1));
    }
  }

  lemma MovedByTurn(b: Balancing, r: RowId, n: nat)
    requires Fit(b) && n < |b.rows|
    ensures Moved(b, r, n + 1) <==> Moved(b, r, n) || (b.rows[n] == r && DropsAt(b, n))
  {
  }

  /** Who names an object beside the pass: the rows that did, less those that have been moved. */
  ghost predicate StillNames(b: Balancing, n: nat, p: Path, q: RowId)
    requires Fit(b) && n <= |b.rows|
  {
    q in b.start.rows && Mentions(b.start.rows[q], p) && !Moved(b, q, n)
  }

  lemma RowStep(b: Balancing, n: nat, q: RowId)
    requires Fit(b) && 0 < n <= |b.rows| && q in b.start.rows
    requires q in At(b, n - 1).stock.rows ==> At(b, n - 1).stock.rows[q] == b.start.rows[q]
    ensures q in At(b, n).stock.rows ==> At(b, n).stock.rows[q] == b.start.rows[q]
    ensures q in At(b, n).stock.rows <==> q in At(b, n - 1).stock.rows && !(b.rows[n - 1] == q && DropsAt(b, n - 1))
  {
    var pass := At(b, n - 1);
    TurnKeepsRows(b.layout, pass.stock, pass.next, b.rows[n - 1], b.low, b.faults(n - 1));
  }

  /** The old rows are there unchanged until they are moved. */
  lemma {:induction false} RowAfter(b: Balancing, n: nat, q: RowId)
    requires Fit(b) && n <= |b.rows| && q in b.start.rows
    ensures q in At(b, n).stock.rows <==> !Moved(b, q, n)
    ensures q in At(b, n).stock.rows ==> At(b, n).stock.rows[q] == b.start.rows[q]
  {
    if n > 0 {
      RowAfter(b, n - 1, q);
      RowStep(b, n, q);
      MovedByTurn(b, q, n - 1);
    }
  }

  lemma NewRowStep(b: Balancing, n: nat, p: Path, q: RowId)
    requires Fit(b) && 0 < n <= |b.rows| && Apart(b, p) && q !in b.start.rows
    requires q in At(b, n - 1).stock.rows ==> !Mentions(At(b, n - 1).stock.rows[q], p)
    ensures q in At(b, n).stock.rows ==> !Mentions(At(b, n).stock.rows[q], p)
  {
    var pass := At(b, n - 1);
    TurnKeepsRows(b.layout, pass.stock, pass.next, b.rows[n - 1], b.low, b.faults(n - 1));
    assert DestOf(b, n - 1) != p;
  }

  /** New rows name destinations and sidecars only. */
  lemma {:induction false} NewRowAfter(b: Balancing, n: nat, p: Path, q: RowId)
    requires Fit(b) && n <= |b.rows| && Apart(b, p) && q !in b.start.rows
    ensures q in At(b, n).stock.rows ==> !Mentions(At(b, n).stock.rows[q], p)
  {
    if n > 0 {
      NewRowAfter(b, n - 1, p, q);
      NewRowStep(b, n, p, q);
    } else {
      assert At(b, 0).stock == b.start;
    }
  }

  lemma NamedAfter(b: Balancing, n: nat, p: Path, q: RowId)
    requires Fit(b) && n <= |b.rows| && Apart(b, p)
    ensures q in At(b, n).stock.rows && Mentions(At(b, n).stock.rows[q], p) <==> StillNames(b, n, p, q)
  {
    if q in b.start.rows { RowAfter(b, n, q); } else { NewRowAfter(b, n, p, q); }
  }

  /** The turn that unlinks the object: it gets to it when every other row that named it has been moved. */
  ghost predicate LastToName(b: Balancing, k: nat, p: Path)
    requires Fit(b) && k < |b.rows|
  {
    TriesAt(b, k, p) && forall q :: q != b.rows[k] ==> !StillNames(b, k, p, q)
  }

  ghost predicate Gone(b: Balancing, n: nat, p: Path)
    requires Fit(b) && n <= |b.rows|
  {
    p !in b.start.others && exists k: nat :: k < n && LastToName(b, k, p)
  }

  lemma OthersStillName(b: Balancing, k: nat, p: Path)
    requires Fit(b) && k < |b.rows| && Apart(b, p)
    ensures OtherReference(At(b, k).stock.rows, At(b, k).stock.others, p, b.rows[k])
            <==> p in b.start.others || exists q :: q != b.rows[k] && StillNames(b, k, p, q)
  {
    var s := At(b, k).stock;
    OthersAt(b, k);
    if q :| q in s.rows && q != b.rows[k] && (s.rows[q].path == p || s.rows[q].metadata == Some(p)) {
      NamedAfter(b, k, p, q);
    }
    if q :| q != b.rows[k] && StillNames(b, k, p, q) {
      NamedAfter(b, k, p, q);
      assert s.rows[q].path == p || s.rows[q].metadata == Some(p);
    }
  }

  function ObjectIn(s: Stock, p: Path): Option<Checksum> {
    if p in s.files then Some(s.files[p]) else None
  }

  /** What the object holds after `n` turns, if it is there. */
  function Content(b: Balancing, n: nat, p: Path): Option<Checksum>
    requires Fit(b) && n <= |b.rows|
  {
    ObjectIn(At(b, n).stock, p)
  }

  lemma ObjectStep(b: Balancing, n: nat, p: Path)
    requires Fit(b) && 0 < n <= |b.rows| && Apart(b, p) && PlacesApart(b.layout)
    ensures Content(b, n, p)
            == if p !in b.start.others && LastToName(b, n - 1, p) then None else Content(b, n - 1, p)
  {
    var k: nat := n - 1;
    OthersStillName(b, k, p);
    assert Beside(b.layout, p, DestOf(b, k));
    TurnOn(b.layout, At(b, k).stock, At(b, k).next, b.rows[k], b.low, b.faults(k), p);
  }

  lemma GoneStep(b: Balancing, n: nat, p: Path)
    requires Fit(b) && 0 < n <= |b.rows|
    ensures Gone(b, n, p) <==> Gone(b, n - 1, p) || (p !in b.start.others && LastToName(b, n - 1, p))
  {
  }

  /** What becomes of an object beside the pass. */
  lemma {:induction false} ObjectAfter(b: Balancing, n: nat, p: Path)
    requires Fit(b) && n <= |b.rows| && Apart(b, p) && PlacesApart(b.layout)
    ensures Content(b, n, p) == if Gone(b, n, p) then None else Content(b, 0, p)
  {
    if n > 0 {
      ObjectAfter(b, n - 1, p);
      ObjectStep(b, n, p);
      GoneStep(b, n, p);
    }
  }

  // ---------------------------------------------------------------- a destination that is a copy already

  /** What lies there is a copy of the asset, whoever has it as destination has equal content, and a row that the
      pass does not touch names it, as a row of the default root does. */
  ghost predicate Steady(b: Balancing, a: AssetId, d: Path)
    requires Fit(b) && a in b.start.sums
  {
    && d in Copies(b.start, a)
    && (forall k: nat :: k < |b.rows| && DestOf(b, k) == d ==> b.start.sums[AssetOf(b, k)] == b.start.sums[a])
    && (exists q :: q in b.start.rows && q !in b.rows && b.start.rows[q].path == d)
  }

  lemma TurnKeepsSteady(l: Layout, s: Stock, id: RowId, r: RowId, low: Drive, f: Faults, d: Path, q: RowId)
    requires r in s.rows && id !in s.rows && s.rows[r].asset in s.sums && PlacesApart(l)
    requires q in s.rows && q != r && s.rows[q].path == d && forall p, a :: d != l.sidecar(p, a)
    requires d in s.files && (d == l.place(Some(low), s.rows[r].asset) ==> s.files[d] == s.sums[s.rows[r].asset])
    ensures SameFile(s.files, Turn(l, s, id, r, low, f).0.files, d)
  {
    var a := s.rows[r].asset;
    UpsertedFrame(l, s, id, None, a, Some(low), s.rows[r].path, f, d);
    var (s1, ok) := Upserted(l, s, id, None, a, Some(low), s.rows[r].path, f);
    if ok {
      assert s1.rows[q] == s.rows[q];
      DroppedFrame(s1, r, f, d);
    }
  }

  lemma SteadyStep(b: Balancing, n: nat, a: AssetId, d: Path, q: RowId)
    requires Fit(b) && 0 < n <= |b.rows| && LayoutOk(b.layout, b.start) && a in b.start.sums && Steady(b, a, d)
    requires q in b.start.rows && q !in b.rows && b.start.rows[q].path == d
    requires Content(b, n - 1, d) == Some(b.start.sums[a])
    ensures Content(b, n, d) == Some(b.start.sums[a])
  {
    var k: nat := n - 1;
    StaysNamed(b, k, q);
    assert DestOf(b, k) == d ==> b.start.sums[AssetOf(b, k)] == b.start.sums[a];
    TurnKeepsSteady(b.layout, At(b, k).stock, At(b, k).next, b.rows[k], b.low, b.faults(k), d, q);
  }

  lemma {:induction false} SteadyStays(b: Balancing, n: nat, a: AssetId, d: Path)
    requires Fit(b) && n <= |b.rows| && LayoutOk(b.layout, b.start) && a in b.start.sums && Steady(b, a, d)
    ensures Content(b, n, d) == Some(b.start.sums[a])
  {
    if n > 0 {
      var q :| q in b.start.rows && q !in b.rows && b.start.rows[q].path == d;
      SteadyStays(b, n - 1, a, d);
      SteadyStep(b, n, a, d, q);
    }
  }

  /** Rows that the pass does not touch stay. */
  lemma StaysNamed(b: Balancing, n: nat, q: RowId)
    requires Fit(b) && n <= |b.rows| && q in b.start.rows && q !in b.rows
    ensures q in At(b, n).stock.rows && At(b, n).stock.rows[q] == b.start.rows[q]
  {
    RowAfter(b, n, q);
  }

  /** Every destination that a row of the asset names is steady; most often there is none. */
  ghost predicate Settled(b: Balancing, a: AssetId)
    requires Fit(b) && a in b.start.sums
  {
    forall k: nat :: k < |b.rows| && Named(b.start.rows, a, DestOf(b, k)) ==> Steady(b, a, DestOf(b, k))
  }

  // ---------------------------------------------------------------- the lost commit

  /** The rows as they were, the files as they are after the pass. */
  function Forgotten(b: Balancing): Stock
    requires Fit(b)
  {
    RolledBack(b.start, At(b, |b.rows|).stock)
  }

  lemma CopyAfter(b: Balancing, a: AssetId, p: Path)
    requires Fit(b) && LayoutOk(b.layout, b.start) && a in b.start.sums && Settled(b, a) && Named(b.start.rows, a, p)
    ensures p in Copies(Forgotten(b), a) <==> p in Copies(b.start, a) && !Gone(b, |b.rows|, p)
  {
    if k: nat :| k < |b.rows| && p == DestOf(b, k) {
      SteadyStays(b, |b.rows|, a, p);
      SteadyIsNotGone(b, a, p);
    } else {
      ObjectAfter(b, |b.rows|, p);
    }
  }

  lemma SteadyIsNotGone(b: Balancing, a: AssetId, d: Path)
    requires Fit(b) && a in b.start.sums && Steady(b, a, d)
    ensures !Gone(b, |b.rows|, d)
  {
    var q :| q in b.start.rows && q !in b.rows && b.start.rows[q].path == d;
    forall k: nat | k < |b.rows|
      ensures !LastToName(b, k, d)
    {
      assert StillNames(b, k, d, q) && q != b.rows[k];
    }
  }

  /** The order copy, unlink, commit does not protect against a failed commit. When the commit after a pass is lost
      an asset has fewer valid copies exactly when the pass has unlinked one of them, which the turn did that came
      last of those that named it, whatever stopped the others. */
  lemma LostCommitCosts(b: Balancing, a: AssetId)
    requires Fit(b) && LayoutOk(b.layout, b.start) && a in b.start.sums && Settled(b, a)
    ensures |Copies(Forgotten(b), a)| < |Copies(b.start, a)|
            <==> exists p :: p in Copies(b.start, a) && Gone(b, |b.rows|, p)
  {
    var before, after := Copies(b.start, a), Copies(Forgotten(b), a);
    forall p
      ensures p in after <==> p in before && !Gone(b, |b.rows|, p)
    {
      if Named(b.start.rows, a, p) { CopyAfter(b, a, p); }
    }
    if p :| p in before && Gone(b, |b.rows|, p) {
      assert after <= before - {p};
      SubsetSmaller(after, before - {p});
    } else {
      SubsetSmaller(before, after);
    }
  }

  // ---------------------------------------------------------------- in terms of the rows that were moved

  /** Only rows that the first `n` turns have moved name the object, and there is one. */
  ghost predicate OnlyMovedNames(b: Balancing, n: nat, p: Path)
    requires Fit(b) && n <= |b.rows|
  {
    && p !in b.start.others
    && (exists q :: q in b.start.rows && Mentions(b.start.rows[q], p))
    && (forall q :: !StillNames(b, n, p, q))
  }

  lemma LeftByTurn(b: Balancing, k: nat, p: Path, q: RowId)
    requires Fit(b) && k < |b.rows| && StillNames(b, k, p, q) && !StillNames(b, k + 1, p, q)
    ensures b.rows[k] == q && DropsAt(b, k) && TriesAt(b, k, p)
  {
    MovedByTurn(b, q, k);
  }

  lemma LastWasFirstLeft(b: Balancing, n: nat, p: Path)
    requires Fit(b) && 0 < n <= |b.rows| && OnlyMovedNames(b, n, p) && !OnlyMovedNames(b, n - 1, p)
    ensures LastToName(b, n - 1, p)
  {
    var k: nat := n - 1;
    var q :| StillNames(b, k, p, q);
    LeftByTurn(b, k, p, q);
    forall r | r != q
      ensures !StillNames(b, k, p, r)
    {
      if StillNames(b, k, p, r) { LeftByTurn(b, k, p, r); }
    }
  }

  lemma MovedStays(b: Balancing, k: nat, n: nat, p: Path)
    requires Fit(b) && k < n <= |b.rows| && LastToName(b, k, p) && DropsAt(b, k) && p !in b.start.others
    ensures OnlyMovedNames(b, n, p)
  {
    assert Mentions(b.start.rows[b.rows[k]], p);
    assert Moved(b, b.rows[k], n);
    forall q
      ensures !StillNames(b, n, p, q)
    {
      assert q != b.rows[k] ==> !StillNames(b, k, p, q);
    }
  }

  /** When no turn stops between the old object and its sidecar, what is gone is what only moved rows named. */
  lemma {:induction false} GoneExactly(b: Balancing, n: nat, p: Path)
    requires Fit(b) && n <= |b.rows| && forall k: nat :: k < |b.rows| ==> !b.faults(k).metadata
    ensures Gone(b, n, p) <==> OnlyMovedNames(b, n, p)
  {
    if k: nat :| k < n && LastToName(b, k, p) && p !in b.start.others { MovedStays(b, k, n, p); }
    if OnlyMovedNames(b, n, p) {
      if n == 0 {
        var q :| q in b.start.rows && Mentions(b.start.rows[q], p);
        assert StillNames(b, 0, p, q);
      } else if OnlyMovedNames(b, n - 1, p) {
        GoneExactly(b, n - 1, p);
      } else {
        LastWasFirstLeft(b, n, p);
      }
    }
  }

  /** A lost commit then costs an asset a copy exactly when some copy of it was named by moved rows only. */
  lemma LostCommitCostsMovedCopies(b: Balancing, a: AssetId)
    requires Fit(b) && LayoutOk(b.layout, b.start) && a in b.start.sums && Settled(b, a)
    requires forall k: nat :: k < |b.rows| ==> !b.faults(k).metadata
    ensures |Copies(Forgotten(b), a)| < |Copies(b.start, a)|
            <==> exists p :: p in Copies(b.start, a) && OnlyMovedNames(b, |b.rows|, p)
  {
    LostCommitCosts(b, a);
    forall p
      ensures Gone(b, |b.rows|, p) <==> OnlyMovedNames(b, |b.rows|, p)
    {
      GoneExactly(b, |b.rows|, p);
    }
  }

  // ---------------------------------------------------------------- a pass in which nothing fails

  /** All that can be seen before the pass: every row that the query returned names a valid copy, its asset is not on
      the other drive and not twice among them, no destination is one of their objects, and nothing will fail. */
  ghost predicate Smooth(b: Balancing)
    requires Fit(b)
  {
    && (forall k: nat :: k < |b.rows| ==> b.faults(k) == NO_FAULTS)
    && (forall k: nat :: k < |b.rows| ==> b.start.rows[b.rows[k]].path in Copies(b.start, AssetOf(b, k)))
    && (forall k: nat :: k < |b.rows| ==> !OnDrive(b.start.rows, AssetOf(b, k), Some(b.low)))
    && (forall j: nat, k: nat :: j < k < |b.rows| ==> AssetOf(b, j) != AssetOf(b, k))
    && (forall j: nat, k: nat :: j < |b.rows| && k < |b.rows| ==> DestOf(b, j) != b.start.rows[b.rows[k]].path)
  }

  /** New rows belong to the assets of earlier turns. */
  ghost predicate FromEarlierTurn(b: Balancing, n: nat, a: AssetId)
    requires Fit(b) && n <= |b.rows|
  {
    exists j: nat :: j < n && AssetOf(b, j) == a
  }

  lemma {:induction false} NewRowsAsset(b: Balancing, n: nat, q: RowId)
    requires Fit(b) && n <= |b.rows| && q !in b.start.rows && q in At(b, n).stock.rows
    ensures FromEarlierTurn(b, n, At(b, n).stock.rows[q].asset)
  {
    if n > 0 {
      var pass := At(b, n - 1);
      TurnKeepsRows(b.layout, pass.stock, pass.next, b.rows[n - 1], b.low, b.faults(n - 1));
      if q in pass.stock.rows && At(b, n).stock.rows[q] == pass.stock.rows[q] {
        NewRowsAsset(b, n - 1, q);
      } else {
        assert AssetOf(b, n - 1) == At(b, n).stock.rows[q].asset;
      }
    }
  }

  lemma NotYetOnDrive(b: Balancing, k: nat)
    requires Fit(b) && Smooth(b) && k < |b.rows|
    ensures !OnDrive(At(b, k).stock.rows, AssetOf(b, k), Some(b.low))
  {
    var rows := At(b, k).stock.rows;
    if q :| q in rows && rows[q].asset == AssetOf(b, k) && rows[q].drive == Some(b.low) {
      if q in b.start.rows {
        RowAfter(b, k, q);
      } else {
        NewRowsAsset(b, k, q);
      }
    }
  }

  lemma SourceStillThere(b: Balancing, k: nat)
    requires Fit(b) && Smooth(b) && k < |b.rows| && LayoutOk(b.layout, b.start)
    ensures Content(b, k, b.start.rows[b.rows[k]].path) == Some(b.start.sums[AssetOf(b, k)])
  {
    var p := b.start.rows[b.rows[k]].path;
    forall j: nat | j < k
      ensures !LastToName(b, j, p)
    {
      assert StillNames(b, j, p, b.rows[k]);
    }
    ObjectAfter(b, k, p);
  }

  lemma SmoothMoves(b: Balancing, k: nat)
    requires Fit(b) && Smooth(b) && k < |b.rows| && LayoutOk(b.layout, b.start)
    ensures DropsAt(b, k)
  {
    NotYetOnDrive(b, k);
    SourceStillThere(b, k);
    assert DestOf(b, k) != b.start.rows[b.rows[k]].path;
    assert b.faults(k) == NO_FAULTS;
  }

  /** So before a pass in which nothing fails it can be seen which assets a lost commit will cost a copy: those with a
      copy that is named by rows of the pass only. */
  lemma LostCommitOfASmoothPass(b: Balancing, a: AssetId)
    requires Fit(b) && Smooth(b) && LayoutOk(b.layout, b.start) && a in b.start.sums && Settled(b, a)
    ensures |Copies(Forgotten(b), a)| < |Copies(b.start, a)|
            <==> exists p :: p in Copies(b.start, a) && NamedByThePass(b, p)
  {
    LostCommitCostsMovedCopies(b, a);
    forall q | q in b.start.rows
      ensures Moved(b, q, |b.rows|) <==> q in b.rows
    {
      if q in b.rows {
        var k: nat :| k < |b.rows| && b.rows[k] == q;
        SmoothMoves(b, k);
      }
    }
    forall p | p in Copies(b.start, a)
      ensures OnlyMovedNames(b, |b.rows|, p) <==> NamedByThePass(b, p)
    {
      NamedIsMentioned(b, a, p);
    }
  }

  /** Nothing but rows of the pass names the object. */
  ghost predicate NamedByThePass(b: Balancing, p: Path) {
    p !in b.start.others && forall q :: q in b.start.rows && Mentions(b.start.rows[q], p) ==> q in b.rows
  }

  lemma NamedIsMentioned(b: Balancing, a: AssetId, p: Path)
    requires Fit(b) && a in b.start.sums && p in Copies(b.start, a)
    requires forall q :: q in b.start.rows ==> (Moved(b, q, |b.rows|) <==> q in b.rows)
    ensures OnlyMovedNames(b, |b.rows|, p) <==> NamedByThePass(b, p)
  {
    var q :| q in b.start.rows && b.start.rows[q].asset == a && b.start.rows[q].path == p;
    assert Mentions(b.start.rows[q], p);
    forall r
      ensures StillNames(b, |b.rows|, p, r) <==> r in b.start.rows && Mentions(b.start.rows[r], p) && r !in b.rows
    {
    }
  }

  // ---------------------------------------------------------------- a copy that two assets share

  /** Two assets of equal content, as a clone and its source are, with one object on the fuller drive. */
  function SharedCopy(a: AssetId, b: AssetId, p: Path, sum: Checksum, high: Drive): Stock {
    Stock(map[p := sum], map[1 := Replica(a, Some(high), p, None, true), 2 := Replica(b, Some(high), p, None, true)],
          map[a := sum, b := sum], {})
  }

  lemma SharedCopies(a: AssetId, b: AssetId, p: Path, sum: Checksum, high: Drive)
    requires a != b
    ensures var s := SharedCopy(a, b, p, sum, high); Copies(s, a) == {p} && Copies(s, b) == {p}
  {
    var s := SharedCopy(a, b, p, sum, high);
    assert s.rows[1].path == p && s.rows[2].path == p;
  }

  /** Either turn alone, rolled back, costs nothing, because the other row names the object. */
  lemma SharedCopySurvivesOneTurn(l: Layout, a: AssetId, b: AssetId, p: Path, sum: Checksum, high: Drive, low: Drive,
                                  r: RowId)
    requires a != b && p != l.place(Some(low), a) && p != l.place(Some(low), b) && (r == 1 || r == 2)
    requires LayoutOk(l, SharedCopy(a, b, p, sum, high))
    ensures var s := SharedCopy(a, b, p, sum, high);
            var after := RolledBack(s, Turn(l, s, 3, r, low, NO_FAULTS).0);
            Copies(after, a) == Copies(s, a) && Copies(after, b) == Copies(s, b)
  {
    var s := SharedCopy(a, b, p, sum, high);
    assert s.rows[3 - r].path == p && s.rows[1].path == p;
    TurnOn(l, s, 3, r, low, NO_FAULTS, p);
    var after := RolledBack(s, Turn(l, s, 3, r, low, NO_FAULTS).0);
    assert p in after.files && after.files[p] == sum && after.rows == s.rows;
    assert forall q :: Named(s.rows, a, q) || Named(s.rows, b, q) ==> q == p;
  }

  lemma SharedPassIsSmooth(l: Layout, a: AssetId, b: AssetId, p: Path, sum: Checksum, high: Drive, low: Drive)
    requires a != b && high != low && p != l.place(Some(low), a) && p != l.place(Some(low), b)
    ensures var pass := Balancing(l, SharedCopy(a, b, p, sum, high), 3, [1, 2], low, _ => NO_FAULTS);
            Fit(pass) && Smooth(pass)
  {
    var pass := Balancing(l, SharedCopy(a, b, p, sum, high), 3, [1, 2], low, _ => NO_FAULTS);
    SharedCopies(a, b, p, sum, high);
    assert AssetOf(pass, 0) == a && AssetOf(pass, 1) == b;
  }

  lemma SharedPassIsSettled(l: Layout, a: AssetId, b: AssetId, p: Path, sum: Checksum, high: Drive, low: Drive)
    requires a != b && p != l.place(Some(low), a) && p != l.place(Some(low), b)
    ensures var pass := Balancing(l, SharedCopy(a, b, p, sum, high), 3, [1, 2], low, _ => NO_FAULTS);
            Fit(pass) && Settled(pass, a)
  {
    var pass := Balancing(l, SharedCopy(a, b, p, sum, high), 3, [1, 2], low, _ => NO_FAULTS);
    assert AssetOf(pass, 0) == a && AssetOf(pass, 1) == b;
  }

  /** Both turns, rolled back together, leave the two rows naming an object that is gone. */
  lemma SharedCopyIsLost(l: Layout, a: AssetId, b: AssetId, p: Path, sum: Checksum, high: Drive, low: Drive)
    requires a != b && high != low && p != l.place(Some(low), a) && p != l.place(Some(low), b)
    requires LayoutOk(l, SharedCopy(a, b, p, sum, high))
    ensures var s := SharedCopy(a, b, p, sum, high);
            var pass := Balancing(l, s, 3, [1, 2], low, _ => NO_FAULTS);
            Copies(s, a) == {p} && Fit(pass) && Copies(Forgotten(pass), a) == {}
  {
    var s := SharedCopy(a, b, p, sum, high);
    var pass := Balancing(l, s, 3, [1, 2], low, _ => NO_FAULTS);
    SharedCopies(a, b, p, sum, high);
    SharedPassIsSmooth(l, a, b, p, sum, high, low);
    SharedPassIsSettled(l, a, b, p, sum, high, low);
    LostCommitOfASmoothPass(pass, a);
    assert p in Copies(s, a) && forall q :: q in s.rows && Mentions(s.rows[q], p) ==> q in pass.rows;
  }
}
