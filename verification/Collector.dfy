/** Permanent deletion of one asset: unlinking every path it holds and then dropping its rows
    (safely_unlink_catalog_path and safely_purge_asset in backend/app/services/lifecycle.py). */
module Collector {
  import opened Options
  import opened References

  /** Every object the asset's own rows name: its original when managed, its derivatives, its replicas and
      their sidecars. */
  ghost predicate Holds(c: Catalogue, asset: RowId, path: string) {
    || (asset in c.assets && HoldsDirectly(c.assets[asset], path))
    || (exists r :: r in c.replicas && c.replicas[r].asset == asset && HoldsReplica(c.replicas[r], path))
  }

  predicate HoldsDirectly(row: AssetRow, path: string) {
    (row.source.Managed? && row.original == path) || row.thumbnail == Some(path) || row.preview == Some(path)
  }

  predicate HoldsReplica(row: ReplicaRow, path: string) {
    row.path == path || row.metadata == Some(path)
  }

  /** A row of another asset, an upload, or any external original names the object. */
  ghost predicate OthersName(c: Catalogue, canon: Canon, asset: RowId, target: string) {
    || IsExternalOriginal(c, canon, target)
    || (exists a | a in c.assets :: a != asset && AssetNames(canon, c.assets[a], target))
    || (exists r | r in c.replicas :: c.replicas[r].asset != asset && ReplicaNames(canon, c.replicas[r], target))
    || (exists u | u in c.uploads :: Names(canon, c.uploads[u], target))
  }

  /** The catalogue without the asset and its replicas. */
  function Without(c: Catalogue, asset: RowId): Catalogue {
    Catalogue(c.assets - {asset},
              map r | r in c.replicas && c.replicas[r].asset != asset :: c.replicas[r],
              c.uploads)
  }

  /** One-shot mark and sweep: what remains when exactly the held objects nobody else names are removed. */
  ghost function Swept(c: Catalogue, canon: Canon, files: set<string>, asset: RowId): set<string> {
    set f | f in files && (!Holds(c, asset, f) || OthersName(c, canon, asset, f))
  }

  /** The guard of safely_purge_asset. */
  predicate PurgeDue(row: AssetRow, now: int) {
    (row.lifecycle.Trashed? || row.lifecycle.Purging?) && row.purgeAfter.Some? && row.purgeAfter.value <= now
  }

  function MarkedPurging(c: Catalogue, asset: RowId): Catalogue
    requires asset in c.assets
  {
    c.(assets := c.assets[asset := c.assets[asset].(lifecycle := Purging)])
  }

  /** The durable mark changes no name and no other row. */
  lemma MarkingNamesTheSame(c: Catalogue, canon: Canon, files: set<string>, asset: RowId)
    requires asset in c.assets
    ensures Without(MarkedPurging(c, asset), asset) == Without(c, asset)
    ensures Swept(MarkedPurging(c, asset), canon, files, asset) == Swept(c, canon, files, asset)
    ensures forall f :: Holds(MarkedPurging(c, asset), asset, f) == Holds(c, asset, f)
  {
    var c' := MarkedPurging(c, asset);
    forall f
      ensures Holds(c', asset, f) == Holds(c, asset, f)
      ensures OthersName(c', canon, asset, f) == OthersName(c, canon, asset, f)
    {
      assert forall a :: a in c.assets ==>
          c'.assets[a].source == c.assets[a].source && c'.assets[a].original == c.assets[a].original;
      assert forall a :: a in c.assets ==> AssetNames(canon, c'.assets[a], f) == AssetNames(canon, c.assets[a], f);
    }
  }

  /** Canonical paths are absolute, so none looks like a placeholder. */
  ghost predicate AbsolutePaths(canon: Canon) {
    forall p :: !IsPlaceholder(canon(p))
  }

  /** Leaving a replica row out of the check is checking without the row. */
  lemma ExcludingReplica(c: Catalogue, canon: Canon, target: string, r: RowId)
    requires r in c.replicas
    ensures Referenced(c, canon, target, Excluding(None, Some(r), None))
            == Referenced(c.(replicas := c.replicas - {r}), canon, target, NOTHING)
  {
    var c' := c.(replicas := c.replicas - {r});
    assert forall q :: q in c'.replicas <==> q in c.replicas && q != r;
  }

  ghost function OwnReplicas(c: Catalogue, asset: RowId): set<RowId> {
    set r | r in c.replicas && c.replicas[r].asset == asset
  }

  /** The query result lists every replica row of the asset once. */
  ghost predicate Lists(c: Catalogue, asset: RowId, rows: seq<RowId>) {
    && (forall r :: r in rows <==> r in c.replicas && c.replicas[r].asset == asset)
    && (forall i, j :: 0 <= i < j < |rows| ==> rows[i] != rows[j])
  }

  lemma WithoutOwn(c: Catalogue, asset: RowId, done: set<RowId>)
    requires done <= OwnReplicas(c, asset)
    ensures Without(c.(replicas := c.replicas - done), asset) == Without(c, asset)
    ensures done == OwnReplicas(c, asset) ==> c.replicas - done == Without(c, asset).replicas
  {
  }

  /** Once its replica rows are gone, leaving the asset row out of the check asks for the other rows. */
  lemma ExcludingAsset(c: Catalogue, canon: Canon, target: string, asset: RowId)
    ensures Referenced(c.(replicas := Without(c, asset).replicas), canon, target, Excluding(Some(asset), None, None))
            == OthersName(c, canon, asset, target)
  {
    var rest := Without(c, asset).replicas;
    assert forall r :: r in rest <==> r in c.replicas && c.replicas[r].asset != asset;
  }

  /** What no row but an own replica names, no other asset's row names. */
  lemma UnreferencedIsOwn(c: Catalogue, canon: Canon, asset: RowId, done: set<RowId>, r: RowId, target: string)
    requires r in c.replicas && c.replicas[r].asset == asset
    requires forall d :: d in done ==> d in c.replicas && c.replicas[d].asset == asset
    requires !Referenced(c.(replicas := c.replicas - done), canon, target, Excluding(None, Some(r), None))
    ensures !OthersName(c, canon, asset, target)
  {
    var c' := c.(replicas := c.replicas - done);
    assert forall q :: q in c.replicas && c.replicas[q].asset != asset ==> q in c'.replicas && Some(q) != Some(r);
  }

  /** After the sweep no held object is orphaned: it is named by a remaining row or is an external original. */
  lemma PurgeLeavesNoOrphan(c: Catalogue, canon: Canon, files: set<string>, asset: RowId, f: string)
    requires f in Swept(c, canon, files, asset) && Holds(c, asset, f)
    ensures Referenced(Without(c, asset), canon, f, NOTHING) || IsExternalOriginal(c, canon, f)
  {
    var left := Without(c, asset);
    if a :| a in c.assets && a != asset && AssetNames(canon, c.assets[a], f) {
      assert a in left.assets && AssetNames(canon, left.assets[a], f);
    } else if r :| r in c.replicas && c.replicas[r].asset != asset && ReplicaNames(canon, c.replicas[r], f) {
      assert r in left.replicas && ReplicaNames(canon, left.replicas[r], f);
    }
  }

  /** The sweep frees nothing a remaining row names, and no external original. */
  lemma PurgeFreesNothingNamed(c: Catalogue, canon: Canon, files: set<string>, asset: RowId, f: string)
    requires f in files && (Referenced(Without(c, asset), canon, f, NOTHING) || IsExternalOriginal(c, canon, f))
    ensures f in Swept(c, canon, files, asset)
  {
    assert forall r :: r in Without(c, asset).replicas <==> r in c.replicas && c.replicas[r].asset != asset;
  }

  /** The path is outside its root or its drive is not there, or it is a legacy alias. */
  datatype UnlinkError = Unavailable | Noncanonical

  /** A database session and the files it may unlink. `usable` says which paths lie under an approved root on
      a drive that accepts the unlink. */
  class PurgeSession {
    var catalogue: Catalogue
    var files: set<string>
    const canon: Canon
    const usable: string -> bool

    constructor (catalogue: Catalogue, files: set<string>, canon: Canon, usable: string -> bool)
      ensures this.catalogue == catalogue && this.files == files && this.canon == canon && this.usable == usable
    {
      this.catalogue, this.files, this.canon, this.usable := catalogue, files, canon, usable;
    }

    /** safely_unlink_catalog_path: true when the object was unlinked, false when a reference kept it. */
    method SafelyUnlink(path: string, without: Excluding) returns (r: Result<bool, UnlinkError>)
      requires AbsolutePaths(canon)
      modifies this`files
      ensures r.Ok? <==> usable(path) && canon(path) == path
      ensures r.Ok? && r.value ==> !Referenced(catalogue, canon, path, without) && files == old(files) - {path}
      ensures r.Ok? && !r.value ==> Referenced(catalogue, canon, path, without) && files == old(files)
      ensures r.Err? ==> files == old(files)
    {
      if !usable(path) { return Err(Unavailable); }
      if canon(path) != path { return Err(Noncanonical); }
      assert !IsPlaceholder(canon(path));
      var referenced := PhysicalPathHasOtherReference(catalogue, canon, path, without);
      if referenced { return Ok(false); }
      files := files - {path};
      return Ok(true);
    }

    /** The path lies under an approved root on a drive that accepts the unlink, and is no alias. */
    predicate Unlinkable(p: string) {
      usable(p) && canon(p) == p
    }

    predicate ReplicaUnlinkable(row: ReplicaRow) {
      Unlinkable(row.path) && (row.metadata.Some? ==> Unlinkable(row.metadata.value))
    }

    /** Only held objects that nobody else names are gone. */
    ghost predicate OnlyOwnGone(c: Catalogue, before: set<string>, asset: RowId)
      reads this
    {
      files <= before && forall f :: f in before - files ==> Holds(c, asset, f) && !OthersName(c, canon, asset, f)
    }

    /** Every object of a replica row that has been removed is gone or named by a row that is still there. */
    ghost predicate RemovedAreCovered(c: Catalogue)
      reads this
    {
      forall r, f :: r in c.replicas && r !in catalogue.replicas && f in files && HoldsReplica(c.replicas[r], f) ==>
        Referenced(catalogue, canon, f, NOTHING)
    }

    /** Held replica objects still on disk are named by a row that is still there. */
    ghost predicate Covered(c: Catalogue, done: set<RowId>)
      reads this
    {
      forall r, f :: r in done && r in c.replicas && f in files && HoldsReplica(c.replicas[r], f) ==>
        Referenced(catalogue, canon, f, NOTHING)
    }

    /** Removes one replica row after the objects it names; false leaves the row for a later pass. */
    method PurgeReplica(ghost c: Catalogue, ghost before: set<string>, asset: RowId, r: RowId, ghost done: set<RowId>)
      returns (ok: bool)
      requires AbsolutePaths(canon) && r in catalogue.replicas && r !in done
      requires catalogue == c.(replicas := c.replicas - done)
      requires c.replicas[r].asset == asset && forall d :: d in done ==> d in c.replicas && c.replicas[d].asset == asset
      requires OnlyOwnGone(c, before, asset) && Covered(c, done)
      modifies this
      ensures ok <==> ReplicaUnlinkable(c.replicas[r])
      ensures OnlyOwnGone(c, before, asset)
      ensures ok ==> catalogue == c.(replicas := c.replicas - (done + {r})) && Covered(c, done + {r})
      ensures !ok ==> catalogue == old(catalogue) && Covered(c, done)
    {
      var row := catalogue.replicas[r];
      var without := Excluding(None, Some(r), None);
      assert row == c.replicas[r];
      var path := SafelyUnlink(row.path, without);
      if path.Err? { return false; }
      if path.value { UnreferencedIsOwn(c, canon, asset, done, r, row.path); }
      assert OnlyOwnGone(c, before, asset);
      if row.metadata.Some? {
        var metadata := SafelyUnlink(row.metadata.value, without);
        if metadata.Err? { return false; }
        if metadata.value { UnreferencedIsOwn(c, canon, asset, done, r, row.metadata.value); }
      }
      assert OnlyOwnGone(c, before, asset);
      assert forall f :: f in files && HoldsReplica(row, f) ==> Referenced(catalogue, canon, f, without);
      catalogue := catalogue.(replicas := catalogue.replicas - {r});
      assert c.replicas - done - {r} == c.replicas - (done + {r});
      StillCovered(old(catalogue), r, c, done);
      return true;
    }

    /** Dropping a row keeps its objects covered when they were referenced without it. */
    lemma StillCovered(was: Catalogue, r: RowId, c: Catalogue, done: set<RowId>)
      requires r in was.replicas && catalogue == was.(replicas := was.replicas - {r}) && r in c.replicas
               && was.replicas[r] == c.replicas[r]
      requires forall d, f :: d in done && d in c.replicas && f in files && HoldsReplica(c.replicas[d], f) ==>
               Referenced(was, canon, f, NOTHING)
      requires forall f :: f in files && HoldsReplica(c.replicas[r], f) ==>
               Referenced(was, canon, f, Excluding(None, Some(r), None))
      requires canon(c.replicas[r].path) == c.replicas[r].path
      requires c.replicas[r].metadata.Some? ==> canon(c.replicas[r].metadata.value) == c.replicas[r].metadata.value
      ensures Covered(c, done + {r})
    {
      forall d, f | d in done + {r} && d in c.replicas && f in files && HoldsReplica(c.replicas[d], f)
        ensures Referenced(catalogue, canon, f, NOTHING)
      {
        if !HoldsReplica(c.replicas[r], f) {
          assert !ReplicaNames(canon, was.replicas[r], f);
        }
        ExcludingReplica(was, canon, f, r);
      }
    }

    /** The loop over the replica rows of the asset, in the order the query returned them. */
    method PurgeReplicas(asset: RowId, rows: seq<RowId>) returns (ok: bool)
      requires AbsolutePaths(canon) && Lists(catalogue, asset, rows)
      modifies this
      ensures ok <==> forall r :: r in OwnReplicas(old(catalogue), asset) ==>
                        ReplicaUnlinkable(old(catalogue).replicas[r])
      ensures OnlyOwnGone(old(catalogue), old(files), asset)
      ensures Without(catalogue, asset) == Without(old(catalogue), asset)
      ensures catalogue.assets == old(catalogue).assets && catalogue.uploads == old(catalogue).uploads
      ensures catalogue.replicas.Items <= old(catalogue).replicas.Items
      ensures ok ==> catalogue.replicas == Without(old(catalogue), asset).replicas
      ensures ok ==> Covered(old(catalogue), OwnReplicas(old(catalogue), asset))
      ensures RemovedAreCovered(old(catalogue))
    {
      ghost var c, before := catalogue, files;
      ghost var done: set<RowId> := {};
      for i := 0 to |rows|
        invariant forall r :: r in done <==> r in rows[..i]
        invariant done <= OwnReplicas(c, asset)
        invariant forall r :: r in done ==> ReplicaUnlinkable(c.replicas[r])
        invariant catalogue == c.(replicas := c.replicas - done)
        invariant OnlyOwnGone(c, before, asset) && Covered(c, done)
      {
        assert rows[i] in rows && rows[i] !in rows[..i];
        ok := PurgeReplica(c, before, asset, rows[i], done);
        if !ok {
          WithoutOwn(c, asset, done);
          return;
        }
        done := done + {rows[i]};
      }
      assert rows[..|rows|] == rows;
      assert forall r :: r in OwnReplicas(c, asset) ==> r in rows;
      assert OwnReplicas(c, asset) <= done;
      WithoutOwn(c, asset, done);
      return true;
    }

    /** The asset's own path `p` is dealt with: canonical, and kept only if somebody else names it. */
    ghost predicate Settled(c: Catalogue, asset: RowId, p: string)
      reads this
    {
      canon(p) == p && (p in files ==> OthersName(c, canon, asset, p))
    }

    /** Unlinks one path of the asset row itself, its replica rows being gone. */
    method UnlinkOwn(ghost c: Catalogue, ghost before: set<string>, asset: RowId, path: string,
        ghost own: set<RowId>) returns (ok: bool)
      requires AbsolutePaths(canon) && asset in c.assets && HoldsDirectly(c.assets[asset], path)
      requires catalogue == c.(replicas := Without(c, asset).replicas)
      requires OnlyOwnGone(c, before, asset) && Covered(c, own)
      modifies this`files
      ensures files <= old(files) && OnlyOwnGone(c, before, asset) && Covered(c, own)
      ensures ok <==> Unlinkable(path)
      ensures ok ==> Settled(c, asset, path)
      ensures forall p :: old(Settled(c, asset, p)) ==> Settled(c, asset, p)
    {
      ExcludingAsset(c, canon, path, asset);
      var r := SafelyUnlink(path, Excluding(Some(asset), None, None));
      return r.Ok?;
    }

    /** The thumbnail and the preview, each once, in any order. */
    method UnlinkDerivatives(ghost c: Catalogue, ghost before: set<string>, asset: RowId, derivatives: set<string>,
        ghost own: set<RowId>) returns (ok: bool)
      requires AbsolutePaths(canon) && asset in c.assets
      requires forall d :: d in derivatives ==> HoldsDirectly(c.assets[asset], d)
      requires catalogue == c.(replicas := Without(c, asset).replicas)
      requires OnlyOwnGone(c, before, asset) && Covered(c, own)
      modifies this`files
      ensures files <= old(files) && OnlyOwnGone(c, before, asset) && Covered(c, own)
      ensures ok <==> forall d :: d in derivatives ==> Unlinkable(d)
      ensures ok ==> forall d :: d in derivatives ==> Settled(c, asset, d)
      ensures forall p :: old(Settled(c, asset, p)) ==> Settled(c, asset, p)
    {
      var todo := derivatives;
      while todo != {}
        invariant todo <= derivatives && files <= old(files)
        invariant OnlyOwnGone(c, before, asset) && Covered(c, own)
        invariant forall d :: d in derivatives - todo ==> Settled(c, asset, d) && Unlinkable(d)
        invariant forall p :: old(Settled(c, asset, p)) ==> Settled(c, asset, p)
        decreases |todo|
      {
        var d :| d in todo;
        ok := UnlinkOwn(c, before, asset, d, own);
        if !ok { return; }
        todo := todo - {d};
      }
      return true;
    }

    /** Everything the asset holds, path by path: success is exactly one mark and sweep. */
    method PurgeObjects(asset: RowId, rows: seq<RowId>) returns (purged: bool)
      requires AbsolutePaths(canon) && asset in catalogue.assets && Lists(catalogue, asset, rows)
      modifies this
      ensures purged <==> forall p :: Holds(old(catalogue), asset, p) ==> Unlinkable(p)
      ensures catalogue.assets == old(catalogue).assets && catalogue.uploads == old(catalogue).uploads
      ensures Without(catalogue, asset) == Without(old(catalogue), asset)
      ensures catalogue.replicas.Items <= old(catalogue).replicas.Items
      ensures purged ==> catalogue.replicas == Without(old(catalogue), asset).replicas
      ensures purged ==> files == Swept(old(catalogue), canon, old(files), asset)
      ensures Swept(old(catalogue), canon, old(files), asset) <= files <= old(files)
      ensures RemovedAreCovered(old(catalogue))
    {
      ghost var c, before := catalogue, files;
      ghost var own := OwnReplicas(catalogue, asset);
      HeldUnlinkable(c, asset);
      purged := PurgeReplicas(asset, rows);
      if !purged { return; }
      var row := catalogue.assets[asset];
      if row.source.Managed? {
        purged := UnlinkOwn(c, before, asset, row.original, own);
        if !purged { return; }
      }
      var derivatives := (if row.thumbnail.Some? then {row.thumbnail.value} else {})
                         + (if row.preview.Some? then {row.preview.value} else {});
      purged := UnlinkDerivatives(c, before, asset, derivatives, own);
      if !purged { return; }
      assert forall p :: HoldsDirectly(row, p) ==> p in derivatives || (row.source.Managed? && p == row.original);
      SweepComplete(c, before, asset, own);
    }

    /** Everything the asset holds can be unlinked exactly when it can row by row and column by column. */
    lemma HeldUnlinkable(c: Catalogue, asset: RowId)
      requires asset in c.assets
      ensures (forall p :: Holds(c, asset, p) ==> Unlinkable(p)) <==>
              && (forall r :: r in OwnReplicas(c, asset) ==> ReplicaUnlinkable(c.replicas[r]))
              && var row := c.assets[asset];
                 && (row.source.Managed? ==> Unlinkable(row.original))
                 && (row.thumbnail.Some? ==> Unlinkable(row.thumbnail.value))
                 && (row.preview.Some? ==> Unlinkable(row.preview.value))
    {
      if forall p :: Holds(c, asset, p) ==> Unlinkable(p) {
        var row := c.assets[asset];
        assert row.source.Managed? ==> Holds(c, asset, row.original);
        assert row.thumbnail.Some? ==> Holds(c, asset, row.thumbnail.value);
        assert row.preview.Some? ==> Holds(c, asset, row.preview.value);
        forall r | r in OwnReplicas(c, asset)
          ensures ReplicaUnlinkable(c.replicas[r])
        {
          var replica := c.replicas[r];
          assert HoldsReplica(replica, replica.path) && Holds(c, asset, replica.path);
          if replica.metadata.Some? {
            assert HoldsReplica(replica, replica.metadata.value) && Holds(c, asset, replica.metadata.value);
          }
        }
      } else {
        var p :| Holds(c, asset, p) && !Unlinkable(p);
      }
    }

    /** safely_purge_asset. Success is exactly one mark and sweep over everything the asset holds, and only of an
        asset whose deadline has passed; a failure removes a part of that, leaves no object behind that only a
        removed replica row named, and keeps the asset, marked as purging, for a later pass; and an asset that is
        not due loses nothing. */
    method SafelyPurgeAsset(asset: RowId, rows: seq<RowId>, now: int) returns (purged: bool)
      requires AbsolutePaths(canon) && asset in catalogue.assets && Lists(catalogue, asset, rows)
      modifies this
      ensures var row := old(catalogue).assets[asset];
              purged <==> && (row.lifecycle == Trashed || row.lifecycle == Purging)
                          && row.purgeAfter != None && row.purgeAfter.value <= now
                          && forall p :: Holds(old(catalogue), asset, p) ==> usable(p) && canon(p) == p
      ensures var row := old(catalogue).assets[asset];
              if (row.lifecycle == Trashed || row.lifecycle == Purging)
                 && row.purgeAfter != None && row.purgeAfter.value <= now then
                !purged ==> && catalogue.assets == old(catalogue).assets[asset := row.(lifecycle := Purging)]
                            && catalogue.uploads == old(catalogue).uploads
              else catalogue == old(catalogue) && files == old(files)
      ensures purged ==> catalogue == Without(old(catalogue), asset)
      ensures purged ==> files == Swept(old(catalogue), canon, old(files), asset)
      ensures !purged ==> Without(catalogue, asset) == Without(old(catalogue), asset)
      ensures !purged ==> RemovedAreCovered(old(catalogue))
      ensures catalogue.replicas.Items <= old(catalogue).replicas.Items
      ensures Swept(old(catalogue), canon, old(files), asset) <= files <= old(files)
    {
      if !PurgeDue(catalogue.assets[asset], now) { return false; }
      MarkingNamesTheSame(catalogue, canon, files, asset);
      catalogue := MarkedPurging(catalogue, asset);
      purged := PurgeObjects(asset, rows);
      if purged {
        catalogue := catalogue.(assets := catalogue.assets - {asset});
      }
    }

    /** With every held path processed, what is left is exactly what the sweep leaves. */
    lemma SweepComplete(c: Catalogue, before: set<string>, asset: RowId, own: set<RowId>)
      requires asset in c.assets && catalogue == c.(replicas := Without(c, asset).replicas)
      requires own == OwnReplicas(c, asset)
      requires OnlyOwnGone(c, before, asset) && Covered(c, own)
      requires forall p :: HoldsDirectly(c.assets[asset], p) ==> Settled(c, asset, p)
      ensures files == Swept(c, canon, before, asset)
    {
      forall f | f in files && Holds(c, asset, f)
        ensures OthersName(c, canon, asset, f)
      {
        if !HoldsDirectly(c.assets[asset], f) {
          var r :| r in own && HoldsReplica(c.replicas[r], f);
          assert Referenced(catalogue, canon, f, NOTHING);
          ExcludingAsset(c, canon, f, asset);
          var row := c.assets[asset];
          assert row.thumbnail.Some? ==> HoldsDirectly(row, row.thumbnail.value);
          assert row.preview.Some? ==> HoldsDirectly(row, row.preview.value);
          assert row.source.Managed? ==> HoldsDirectly(row, row.original);
          assert AssetNames(canon, row, f) ==> row.source.External? && canon(row.original) == f;
        }
      }
    }
  }
}
