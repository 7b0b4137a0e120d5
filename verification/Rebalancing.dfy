/** The loop of rebalance_replicas over the rows of the fuller drive, with the methods it calls
    (backend/app/services/replication.py). */
module Rebalancing {
  import opened Options
  import opened Replication
  import opened Sets

  function Dest(l: Layout, s: Stock, low: Drive, r: RowId): Path
    requires r in s.rows
  {
    l.place(Some(low), s.rows[r].asset)
  }

  /** What the caller can check of the rows the query returned: one row an asset, as the table guarantees for one
      drive; no destination is a valid copy of its asset already; and what lies at a destination, or is to lie
      there, belongs to equal content. */
  ghost predicate Movable(l: Layout, s: Stock, low: Drive, rows: seq<RowId>) {
    && (forall k :: 0 <= k < |rows| ==> rows[k] in s.rows && s.rows[rows[k]].asset in s.sums)
    && (forall j, k :: 0 <= j < k < |rows| ==> s.rows[rows[j]].asset != s.rows[rows[k]].asset)
    && (forall k :: 0 <= k < |rows| ==> Dest(l, s, low, rows[k]) !in Copies(s, s.rows[rows[k]].asset))
    && (forall k, b :: 0 <= k < |rows| && b in s.sums && Dest(l, s, low, rows[k]) in Copies(s, b) ==>
          s.sums[b] == s.sums[s.rows[rows[k]].asset])
    && (forall j, k :: 0 <= j < |rows| && 0 <= k < |rows| && Dest(l, s, low, rows[j]) == Dest(l, s, low, rows[k]) ==>
          s.sums[s.rows[rows[j]].asset] == s.sums[s.rows[rows[k]].asset])
  }

  type Floor = map<AssetId, set<Path>>

  /** Every asset still has the copies of its floor, which are as many as it had at the start. */
  ghost predicate Held(s0: Stock, s: Stock, floor: Floor) {
    && s.sums == s0.sums && floor.Keys == s0.sums.Keys
    && (forall b :: b in floor ==> floor[b] <= Copies(s, b))
    && (forall b :: b in floor ==> |Copies(s0, b)| <= |floor[b]|)
  }

  /** After `k` turns only the destinations of these turns are new in the floors. */
  ghost predicate Explained(l: Layout, s0: Stock, low: Drive, rows: seq<RowId>, k: nat, floor: Floor)
    requires Movable(l, s0, low, rows) && k <= |rows| && floor.Keys == s0.sums.Keys
  {
    && (forall j :: k <= j < |rows| ==> floor[s0.rows[rows[j]].asset] == Copies(s0, s0.rows[rows[j]].asset))
    && (forall b, p :: b in s0.sums && p in floor[b] ==>
          p in Copies(s0, b) || exists j :: 0 <= j < k && s0.rows[rows[j]].asset == b && p == Dest(l, s0, low, rows[j]))
  }

  /** What the turn of row `r` leaves of the floors. */
  ghost function Lowered(l: Layout, s: Stock, low: Drive, r: RowId, f: Faults, floor: Floor): Floor
    requires r in s.rows && s.rows[r].asset in s.sums && s.rows[r].asset in floor
  {
    var a := s.rows[r].asset;
    if LosesOld(l, s, r, low, f) then floor[a := floor[a] - {s.rows[r].path} + {Dest(l, s, low, r)}] else floor
  }

  lemma OwnFloorHeld(l: Layout, s0: Stock, s: Stock, id: RowId, r: RowId, low: Drive, f: Faults, floor: Floor)
    requires LayoutOk(l, s) && r in s.rows && id !in s.rows && s.sums == s0.sums
    requires s.rows[r].asset in floor && floor[s.rows[r].asset] == Copies(s0, s.rows[r].asset)
    requires floor[s.rows[r].asset] <= Copies(s, s.rows[r].asset) && Dest(l, s, low, r) !in floor[s.rows[r].asset]
    ensures var a, after := s.rows[r].asset, Lowered(l, s, low, r, f, floor);
            && after[a] <= Copies(Turn(l, s, id, r, low, f).0, a)
            && |Copies(s0, a)| <= |after[a]|
            && after[a] <= Copies(s0, a) + {Dest(l, s, low, r)}
  {
    var a := s.rows[r].asset;
    TurnKeepsOwn(l, s, id, r, low, f);
    if LosesOld(l, s, r, low, f) {
      SwapKeepsCount(floor[a], floor[a] - {s.rows[r].path} + {Dest(l, s, low, r)}, s.rows[r].path, Dest(l, s, low, r));
    }
  }

  /** What the turn of row `r` may rely on: its asset has the copies it had at the start, none of them at the
      destination, and what lies there and counts for another asset has equal content. */
  ghost predicate Clear(l: Layout, s0: Stock, s: Stock, low: Drive, r: RowId, floor: Floor)
    requires r in s.rows && floor.Keys == s.sums.Keys == s0.sums.Keys && s.rows[r].asset in s.sums
  {
    var a, dest := s.rows[r].asset, Dest(l, s, low, r);
    && floor[a] == Copies(s0, a) && dest !in floor[a]
    && forall b :: b in floor && dest in floor[b] ==> s.sums[b] == s.sums[a]
  }

  lemma NextIsClear(l: Layout, s0: Stock, s: Stock, low: Drive, rows: seq<RowId>, k: nat, floor: Floor)
    requires Movable(l, s0, low, rows) && k < |rows| && floor.Keys == s0.sums.Keys
    requires Explained(l, s0, low, rows, k, floor) && s.sums == s0.sums
    requires rows[k] in s.rows && s.rows[rows[k]] == s0.rows[rows[k]]
    ensures Clear(l, s0, s, low, rows[k], floor)
  {
    forall b | b in floor && Dest(l, s, low, rows[k]) in floor[b] && Dest(l, s, low, rows[k]) !in Copies(s0, b)
      ensures s.sums[b] == s.sums[s.rows[rows[k]].asset]
    {
      var j :| 0 <= j < k && s0.rows[rows[j]].asset == b && Dest(l, s0, low, rows[k]) == Dest(l, s0, low, rows[j]);
    }
  }

  lemma OtherFloorHeld(l: Layout, s: Stock, id: RowId, r: RowId, low: Drive, f: Faults, b: AssetId, kept: set<Path>)
    requires LayoutOk(l, s) && r in s.rows && id !in s.rows && b in s.sums && b != s.rows[r].asset
    requires kept <= Copies(s, b) && (Dest(l, s, low, r) in kept ==> s.sums[b] == s.sums[s.rows[r].asset])
    ensures kept <= Copies(Turn(l, s, id, r, low, f).0, b)
  {
    TurnSparesOthers(l, s, id, r, low, f, b);
  }

  lemma TurnKeepsSums(l: Layout, s: Stock, id: RowId, r: RowId, low: Drive, f: Faults)
    requires r in s.rows && id !in s.rows && s.rows[r].asset in s.sums
    ensures Turn(l, s, id, r, low, f).0.sums == s.sums && Turn(l, s, id, r, low, f).0.others == s.others
  {
  }

  lemma OthersHold(l: Layout, s: Stock, low: Drive, r: RowId, id: RowId, f: Faults, floor: Floor)
    requires LayoutOk(l, s) && r in s.rows && id !in s.rows && floor.Keys == s.sums.Keys
    requires forall b :: b in floor ==> floor[b] <= Copies(s, b)
    requires forall b :: b in floor && Dest(l, s, low, r) in floor[b] ==> s.sums[b] == s.sums[s.rows[r].asset]
    ensures forall b :: b in floor && b != s.rows[r].asset ==> floor[b] <= Copies(Turn(l, s, id, r, low, f).0, b)
  {
    forall b | b in floor && b != s.rows[r].asset
      ensures floor[b] <= Copies(Turn(l, s, id, r, low, f).0, b)
    {
      OtherFloorHeld(l, s, id, r, low, f, b, floor[b]);
    }
  }

  lemma LoweredElsewhere(l: Layout, s: Stock, low: Drive, r: RowId, f: Faults, floor: Floor)
    requires r in s.rows && s.rows[r].asset in s.sums && s.rows[r].asset in floor
    ensures var after := Lowered(l, s, low, r, f, floor);
            after.Keys == floor.Keys && forall b :: b in floor && b != s.rows[r].asset ==> after[b] == floor[b]
  {
  }

  lemma OneFloorChanged(s0: Stock, s: Stock, s': Stock, floor: Floor, floor': Floor, a: AssetId)
    requires Held(s0, s, floor) && s'.sums == s.sums && a in s0.sums
    requires floor'.Keys == floor.Keys && forall b :: b in floor && b != a ==> floor'[b] == floor[b]
    requires floor'[a] <= Copies(s', a) && |Copies(s0, a)| <= |floor'[a]|
    requires forall b :: b in floor && b != a ==> floor[b] <= Copies(s', b)
    ensures Held(s0, s', floor')
  {
  }

  /** A turn keeps every floor, its own lowered as it may be. */
  lemma TurnHolds(l: Layout, s0: Stock, s: Stock, low: Drive, r: RowId, id: RowId, f: Faults, floor: Floor)
    requires Held(s0, s, floor) && LayoutOk(l, s) && r in s.rows && id !in s.rows
    requires Clear(l, s0, s, low, r, floor)
    ensures Held(s0, Turn(l, s, id, r, low, f).0, Lowered(l, s, low, r, f, floor))
  {
    TurnKeepsSums(l, s, id, r, low, f);
    OwnFloorHeld(l, s0, s, id, r, low, f, floor);
    OthersHold(l, s, low, r, id, f, floor);
    LoweredElsewhere(l, s, low, r, f, floor);
    OneFloorChanged(s0, s, Turn(l, s, id, r, low, f).0, floor, Lowered(l, s, low, r, f, floor), s.rows[r].asset);
  }

  lemma TurnExplained(l: Layout, s0: Stock, s: Stock, low: Drive, rows: seq<RowId>, k: nat, f: Faults, floor: Floor)
    requires Movable(l, s0, low, rows) && k < |rows| && floor.Keys == s0.sums.Keys
    requires Explained(l, s0, low, rows, k, floor)
    requires s.sums == s0.sums && rows[k] in s.rows && s.rows[rows[k]] == s0.rows[rows[k]]
    ensures var after := Lowered(l, s, low, rows[k], f, floor);
            after.Keys == s0.sums.Keys && Explained(l, s0, low, rows, k + 1, after)
  {
    var a, after := s.rows[rows[k]].asset, Lowered(l, s, low, rows[k], f, floor);
    forall b, p | b in s0.sums && p in after[b] && p !in Copies(s0, b)
      ensures exists j :: 0 <= j < k + 1 && s0.rows[rows[j]].asset == b && p == Dest(l, s0, low, rows[j])
    {
      if b == a && p == Dest(l, s, low, rows[k]) {
        assert s0.rows[rows[k]].asset == b && p == Dest(l, s0, low, rows[k]);
      } else {
        var j :| 0 <= j < k && s0.rows[rows[j]].asset == b && p == Dest(l, s0, low, rows[j]);
      }
    }
  }

  /** A turn leaves the other rows alone, and its new row takes the given id. */
  lemma TurnRows(l: Layout, s: Stock, id: RowId, r: RowId, low: Drive, f: Faults)
    requires r in s.rows && id !in s.rows && s.rows[r].asset in s.sums
    ensures var rows := Turn(l, s, id, r, low, f).0.rows;
            && (forall q :: q in s.rows && q != r ==> q in rows && rows[q] == s.rows[q])
            && (forall q :: q in rows ==> (q in s.rows && rows[q] == s.rows[q])
                                          || (q == id && rows[q] == NewRow(l, s.rows[r].asset, Some(low))))
  {
    UpsertedRows(l, s, id, s.rows[r].asset, Some(low), s.rows[r].path, f);
  }

  lemma UpsertedRows(l: Layout, s: Stock, id: RowId, a: AssetId, d: Option<Drive>, source: Path, f: Faults)
    requires a in s.sums
    ensures var (s', ok) := Upserted(l, s, id, None, a, d, source, f);
            s'.rows == if ok then s.rows[id := NewRow(l, a, d)] else s.rows
  {
  }

  lemma LayoutStays(l: Layout, s: Stock, id: RowId, r: RowId, low: Drive, f: Faults)
    requires LayoutOk(l, s) && r in s.rows && id !in s.rows
    ensures LayoutOk(l, Turn(l, s, id, r, low, f).0)
  {
    TurnKeepsSums(l, s, id, r, low, f);
    TurnRows(l, s, id, r, low, f);
  }

  /** The loop after `k` turns. */
  ghost predicate Underway(l: Layout, s0: Stock, s: Stock, next: RowId, low: Drive, rows: seq<RowId>, k: nat,
                           floor: Floor)
    requires Movable(l, s0, low, rows) && k <= |rows|
  {
    && LayoutOk(l, s) && (forall r :: r in s.rows ==> r < next)
    && Held(s0, s, floor) && Explained(l, s0, low, rows, k, floor)
    && (forall j :: k <= j < |rows| ==> rows[j] in s.rows && s.rows[rows[j]] == s0.rows[rows[j]])
  }

  lemma TurnUnderway(l: Layout, s0: Stock, s: Stock, id: RowId, low: Drive, rows: seq<RowId>, k: nat, f: Faults,
                     floor: Floor, next: RowId)
    requires Movable(l, s0, low, rows) && k < |rows| && Underway(l, s0, s, id, low, rows, k, floor)
    requires next >= id && (id in Turn(l, s, id, rows[k], low, f).0.rows ==> next > id)
    ensures Underway(l, s0, Turn(l, s, id, rows[k], low, f).0, next, low, rows, k + 1,
                     Lowered(l, s, low, rows[k], f, floor))
  {
    NextIsClear(l, s0, s, low, rows, k, floor);
    TurnHolds(l, s0, s, low, rows[k], id, f, floor);
    TurnExplained(l, s0, s, low, rows, k, f, floor);
    LayoutStays(l, s, id, rows[k], low, f);
    TurnRows(l, s, id, rows[k], low, f);
  }

  // ---------------------------------------------------------------- the loop

  /** One pass over the rows that the query returned, from a stock in which new rows get ids from `next` on. */
  datatype Balancing = Balancing(
    layout: Layout,
    start: Stock,
    next: RowId,
    rows: seq<RowId>,
    low: Drive,
    faults: nat -> Faults)

  /** The loop after some turns. */
  datatype Pass = Pass(stock: Stock, next: RowId, moved: nat)

  /** The query returns rows that exist, each once; ids are fresh and assets known. */
  ghost predicate Fit(b: Balancing) {
    && (forall r :: r in b.start.rows ==> r < b.next && b.start.rows[r].asset in b.start.sums)
    && (forall k :: 0 <= k < |b.rows| ==> b.rows[k] in b.start.rows)
    && (forall j, k :: 0 <= j < k < |b.rows| ==> b.rows[j] != b.rows[k])
  }

  /** Ids stay fresh and assets known. */
  ghost predicate Sound(b: Balancing, p: Pass) {
    && p.stock.sums == b.start.sums && p.next >= b.next
    && (forall r :: r in p.stock.rows ==> r < p.next && p.stock.rows[r].asset in p.stock.sums)
  }

  /** The turns that are still to come find their rows as the query found them. */
  ghost predicate Onwards(b: Balancing, p: Pass, k: nat)
    requires Fit(b)
  {
    forall j :: k <= j < |b.rows| ==>
      b.rows[j] in p.stock.rows && p.stock.rows[b.rows[j]] == b.start.rows[b.rows[j]]
  }

  function OneMore(l: Layout, p: Pass, r: RowId, low: Drive, f: Faults): Pass
    requires r in p.stock.rows && p.next !in p.stock.rows && p.stock.rows[r].asset in p.stock.sums
  {
    var (s, done) := Turn(l, p.stock, p.next, r, low, f);
    Pass(s, if p.next in s.rows then p.next + 1 else p.next, if done then p.moved + 1 else p.moved)
  }

  lemma OneMoreSound(b: Balancing, p: Pass, r: RowId, f: Faults)
    requires Sound(b, p) && r in p.stock.rows
    ensures Sound(b, OneMore(b.layout, p, r, b.low, f))
  {
    TurnKeepsSums(b.layout, p.stock, p.next, r, b.low, f);
    TurnRows(b.layout, p.stock, p.next, r, b.low, f);
  }

  lemma OneMoreOnwards(b: Balancing, p: Pass, k: nat)
    requires Fit(b) && 0 < k <= |b.rows| && Sound(b, p) && Onwards(b, p, k - 1)
    ensures Onwards(b, OneMore(b.layout, p, b.rows[k - 1], b.low, b.faults(k - 1)), k)
  {
    TurnRows(b.layout, p.stock, p.next, b.rows[k - 1], b.low, b.faults(k - 1));
  }

  /** The loop after `k` turns. */
  function At(b: Balancing, k: nat): (p: Pass)
    requires Fit(b) && k <= |b.rows|
    ensures Sound(b, p) && Onwards(b, p, k)
  {
    if k == 0 then Pass(b.start, b.next, 0)
    else
      var p := At(b, k - 1);
      OneMoreSound(b, p, b.rows[k - 1], b.faults(k - 1));
      OneMoreOnwards(b, p, k);
      OneMore(b.layout, p, b.rows[k - 1], b.low, b.faults(k - 1))
  }

  lemma NextPass(b: Balancing, k: nat)
    requires Fit(b) && k < |b.rows|
    ensures At(b, k + 1) == OneMore(b.layout, At(b, k), b.rows[k], b.low, b.faults(k))
    ensures b.rows[k] in At(b, k).stock.rows && Sound(b, At(b, k))
  {
  }

  lemma {:induction false} LoopUnderway(b: Balancing, k: nat) returns (floor: Floor)
    requires Fit(b) && LayoutOk(b.layout, b.start) && Movable(b.layout, b.start, b.low, b.rows) && k <= |b.rows|
    ensures Underway(b.layout, b.start, At(b, k).stock, At(b, k).next, b.low, b.rows, k, floor)
  {
    if k == 0 {
      floor := map a | a in b.start.sums :: Copies(b.start, a);
    } else {
      var before := LoopUnderway(b, k - 1);
      var p := At(b, k - 1);
      TurnUnderway(b.layout, b.start, p.stock, p.next, b.low, b.rows, k - 1, b.faults(k - 1), before, At(b, k).next);
      floor := Lowered(b.layout, p.stock, b.low, b.rows[k - 1], b.faults(k - 1), before);
    }
  }

  /** With anything failing at any row, no asset ends with fewer valid copies than it had. */
  lemma LoopCostsNothing(b: Balancing)
    requires Fit(b)
    ensures LayoutOk(b.layout, b.start) && Movable(b.layout, b.start, b.low, b.rows) ==>
              NoFewer(b.start, At(b, |b.rows|).stock)
  {
    if LayoutOk(b.layout, b.start) && Movable(b.layout, b.start, b.low, b.rows) {
      var floor := LoopUnderway(b, |b.rows|);
      HeldIsNoFewer(b.start, At(b, |b.rows|).stock, floor);
    }
  }

  lemma HeldIsNoFewer(s0: Stock, s: Stock, floor: Floor)
    requires Held(s0, s, floor)
    ensures NoFewer(s0, s)
  {
    forall b | b in s0.sums
      ensures |Copies(s0, b)| <= |Copies(s, b)|
    {
      SubsetSmaller(floor[b], Copies(s, b));
    }
  }

  // ---------------------------------------------------------------- the balancer

  class Balancer {
    var files: map<Path, Checksum>
    var rows: map<RowId, Replica>
    var nextRow: RowId
    const sums: map<AssetId, Checksum>
    const others: set<Path>
    const layout: Layout

    ghost function View(): Stock
      reads this
    {
      Stock(files, rows, sums, others)
    }

    constructor (s: Stock, nextRow: RowId, layout: Layout)
      ensures View() == s && this.nextRow == nextRow && this.layout == layout
    {
      files, rows, sums, others := s.files, s.rows, s.sums, s.others;
      this.nextRow, this.layout := nextRow, layout;
    }

    /** _copy_verified. */
    method CopyVerified(source: Path, destination: Path, expected: Checksum, f: Faults) returns (ok: bool)
      modifies this`files
      ensures (files, ok) == Copied(old(files), source, destination, expected, f)
      ensures ok <==> destination in files && files[destination] == expected
      ensures forall p :: p != destination ==> SameFile(old(files), files, p)
    {
      CopiedFrame(files, source, destination, expected, f);
      assert destination !in files ==> files - {destination} == files;
      if destination in files && files[destination] != expected { files := files - {destination}; }
      if destination !in files {
        if f.copy || source !in files { return false; }
        files := files[destination := if f.content.Some? then f.content.value else files[source]];
      }
      return files[destination] == expected;
    }

    /** safely_unlink_catalog_path, excluding one replica row. */
    method SafelyUnlink(p: Path, r: RowId)
      modifies this`files
      ensures View() == Unlinked(old(View()), p, r)
    {
      if !OtherReference(rows, others, p, r) { files := files - {p}; }
    }

    /** _upsert_replica; `existing` is the row its query found for the asset on the drive. */
    method UpsertReplica(a: AssetId, d: Option<Drive>, existing: Option<RowId>, source: Path, f: Faults)
      returns (ok: bool)
      requires a in sums
      modifies this
      ensures (View(), ok) == Upserted(layout, old(View()), old(nextRow), existing, a, d, source, f)
      ensures nextRow == if ok && existing.None? then old(nextRow) + 1 else old(nextRow)
    {
      var destination := layout.place(d, a);
      ok := CopyVerified(source, destination, sums[a], f);
      if !ok || f.sidecar { return false; }
      files := files[layout.sidecar(destination, a) := SIDECAR];
      if existing.None? {
        rows := rows[nextRow := NewRow(layout, a, d)];
        nextRow := nextRow + 1;
      } else {
        rows := rows[existing.value := NewRow(layout, a, d)];
      }
      return true;
    }

    /** One turn of the loop: the copy on the other drive first, then the old object, its sidecar and its row. */
    method MoveReplica(r: RowId, low: Drive, f: Faults) returns (moved: bool)
      requires r in rows && nextRow !in rows && rows[r].asset in sums
      modifies this
      ensures (View(), moved) == Turn(layout, old(View()), old(nextRow), r, low, f)
      ensures nextRow == if old(nextRow) in rows then old(nextRow) + 1 else old(nextRow)
    {
      var replica := rows[r];
      if OnDrive(rows, replica.asset, Some(low)) || replica.path !in files { return false; }
      moved := UpsertReplica(replica.asset, Some(low), None, replica.path, f);
      if !moved { return; }
      assert rows[r] == replica;
      if f.unlink { return false; }
      SafelyUnlink(replica.path, r);
      if replica.metadata.Some? {
        if f.metadata { return false; }
        SafelyUnlink(replica.metadata.value, r);
      }
      rows := rows - {r};
      return true;
    }

    /** The loop over the rows. */
    method MoveAll(ghost b: Balancing, candidates: seq<RowId>, low: Drive, faults: nat -> Faults) returns (moved: nat)
      requires Fit(b) && b == Balancing(layout, View(), nextRow, candidates, low, faults)
      modifies this
      ensures Pass(View(), nextRow, moved) == At(b, |candidates|)
    {
      moved := 0;
      for k := 0 to |candidates|
        invariant Pass(View(), nextRow, moved) == At(b, k)
      {
        NextPass(b, k);
        var ok := MoveReplica(candidates[k], low, faults(k));
        if ok { moved := moved + 1; }
      }
    }

    /** The whole loop, with anything failing at any row, and how many rows it moved. */
    method RebalanceReplicas(candidates: seq<RowId>, low: Drive, faults: nat -> Faults) returns (moved: nat)
      requires Fit(Balancing(layout, View(), nextRow, candidates, low, faults))
      modifies this
      ensures var b := Balancing(layout, old(View()), old(nextRow), candidates, low, faults);
              && Pass(View(), nextRow, moved) == At(b, |candidates|)
              && (LayoutOk(b.layout, b.start) && Movable(b.layout, b.start, b.low, b.rows) ==> NoFewer(b.start, View()))
    {
      ghost var b := Balancing(layout, View(), nextRow, candidates, low, faults);
      moved := MoveAll(b, candidates, low, faults);
      LoopCostsNothing(b);
    }
  }
}
