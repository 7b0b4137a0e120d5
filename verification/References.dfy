/** Which catalogue rows name a physical object, and permanent deletion of one asset's bytes
    (backend/app/services/lifecycle.py). Physical identity is an arbitrary function `canon` on paths. */
module References {
  import opened Options

  type RowId = int

  datatype Source = Managed | External
  datatype Lifecycle = Active | Superseded | Trashed | Purging
  datatype AssetRow = AssetRow(source: Source, original: string, thumbnail: Option<string>, preview: Option<string>,
                               lifecycle: Lifecycle, purgeAfter: Option<int>)
  datatype ReplicaRow = ReplicaRow(asset: RowId, path: string, metadata: Option<string>)

  datatype Catalogue = Catalogue(
    assets: map<RowId, AssetRow>,
    replicas: map<RowId, ReplicaRow>,
    uploads: map<RowId, string>)

  /** The row ids a reference check leaves out. */
  datatype Excluding = Excluding(asset: Option<RowId>, replica: Option<RowId>, upload: Option<RowId>)

  const NOTHING := Excluding(None, None, None)

  type Canon = string -> string

  /** Placeholder staging paths name no object. */
  predicate IsPlaceholder(value: string) {
    "duplicate:" <= value
  }

  predicate Names(canon: Canon, value: string, target: string) {
    !IsPlaceholder(value) && canon(value) == target
  }

  // ---------------------------------------------------------------- the simple specification

  predicate AssetNames(canon: Canon, row: AssetRow, target: string) {
    || Names(canon, row.original, target)
    || (row.thumbnail.Some? && Names(canon, row.thumbnail.value, target))
    || (row.preview.Some? && Names(canon, row.preview.value, target))
  }

  predicate ReplicaNames(canon: Canon, row: ReplicaRow, target: string) {
    Names(canon, row.path, target) || (row.metadata.Some? && Names(canon, row.metadata.value, target))
  }

  predicate IsExternalOriginal(c: Catalogue, canon: Canon, target: string) {
    exists a | a in c.assets :: c.assets[a].source.External? && canon(c.assets[a].original) == target
  }

  /** Some row that is not excluded names the object, or it is any external original. */
  predicate Referenced(c: Catalogue, canon: Canon, target: string, without: Excluding) {
    || IsExternalOriginal(c, canon, target)
    || (exists a | a in c.assets :: Some(a) != without.asset && AssetNames(canon, c.assets[a], target))
    || (exists r | r in c.replicas :: Some(r) != without.replica && ReplicaNames(canon, c.replicas[r], target))
    || (exists u | u in c.uploads :: Some(u) != without.upload && Names(canon, c.uploads[u], target))
  }

  // ---------------------------------------------------------------- physical_path_has_other_reference

  predicate AssetMatches(row: AssetRow, path: string) {
    row.original == path || row.thumbnail == Some(path) || row.preview == Some(path)
  }

  /** The four exact-equality queries. */
  predicate ExactReference(c: Catalogue, path: string, without: Excluding) {
    || (exists a | a in c.assets :: c.assets[a].source.External? && c.assets[a].original == path)
    || (exists a | a in c.assets :: Some(a) != without.asset && AssetMatches(c.assets[a], path))
    || (exists r | r in c.replicas ::
          Some(r) != without.replica && (c.replicas[r].path == path || c.replicas[r].metadata == Some(path)))
    || (exists u | u in c.uploads :: Some(u) != without.upload && c.uploads[u] == path)
  }

  /** One column of the alias scan. */
  method Aliases(values: set<string>, canon: Canon, target: string) returns (found: bool)
    ensures found <==> exists v :: v in values && Names(canon, v, target)
  {
    var todo := values;
    while todo != {}
      invariant todo <= values
      invariant forall v :: v in values - todo ==> !Names(canon, v, target)
      decreases |todo|
    {
      var v :| v in todo;
      if Names(canon, v, target) { return true; }
      todo := todo - {v};
    }
    return false;
  }

  function Originals(c: Catalogue, without: Excluding): set<string> {
    set a | a in c.assets && Some(a) != without.asset :: c.assets[a].original
  }

  function Thumbnails(c: Catalogue, without: Excluding): set<string> {
    set a | a in c.assets && Some(a) != without.asset && c.assets[a].thumbnail.Some? :: c.assets[a].thumbnail.value
  }

  function Previews(c: Catalogue, without: Excluding): set<string> {
    set a | a in c.assets && Some(a) != without.asset && c.assets[a].preview.Some? :: c.assets[a].preview.value
  }

  function ReplicaPaths(c: Catalogue, without: Excluding): set<string> {
    set r | r in c.replicas && Some(r) != without.replica :: c.replicas[r].path
  }

  function Sidecars(c: Catalogue, without: Excluding): set<string> {
    set r | r in c.replicas && Some(r) != without.replica && c.replicas[r].metadata.Some? ::
      c.replicas[r].metadata.value
  }

  function StagingPaths(c: Catalogue, without: Excluding): set<string> {
    set u | u in c.uploads && Some(u) != without.upload :: c.uploads[u]
  }

  /** Exact equality first, then every column by canonical identity. */
  method PhysicalPathHasOtherReference(c: Catalogue, canon: Canon, path: string, without: Excluding)
    returns (found: bool)
    ensures found <==> ExactReference(c, path, without) || Referenced(c, canon, canon(path), without)
    ensures !IsPlaceholder(path) ==> found == Referenced(c, canon, canon(path), without)
  {
    if !IsPlaceholder(path) && ExactReference(c, path, without) { ExactIsReferenced(c, canon, path, without); }
    if ExactReference(c, path, without) { return true; }
    var target := canon(path);
    if IsExternalOriginal(c, canon, target) { return true; }
    var originals := Aliases(Originals(c, without), canon, target);
    var thumbnails := Aliases(Thumbnails(c, without), canon, target);
    var previews := Aliases(Previews(c, without), canon, target);
    assert originals || thumbnails || previews <==>
           exists a | a in c.assets :: Some(a) != without.asset && AssetNames(canon, c.assets[a], target) by {
      forall a | a in c.assets && Some(a) != without.asset && AssetNames(canon, c.assets[a], target)
        ensures originals || thumbnails || previews
      {
        var row := c.assets[a];
        assert row.original in Originals(c, without);
        assert row.thumbnail.Some? ==> row.thumbnail.value in Thumbnails(c, without);
        assert row.preview.Some? ==> row.preview.value in Previews(c, without);
      }
    }
    if originals || thumbnails || previews { return true; }
    var replicas := Aliases(ReplicaPaths(c, without), canon, target);
    var sidecars := Aliases(Sidecars(c, without), canon, target);
    assert replicas || sidecars <==>
           exists r | r in c.replicas :: Some(r) != without.replica && ReplicaNames(canon, c.replicas[r], target) by {
      forall r | r in c.replicas && Some(r) != without.replica && ReplicaNames(canon, c.replicas[r], target)
        ensures replicas || sidecars
      {
        var row := c.replicas[r];
        assert row.path in ReplicaPaths(c, without);
        assert row.metadata.Some? ==> row.metadata.value in Sidecars(c, without);
      }
    }
    if replicas || sidecars { return true; }
    found := Aliases(StagingPaths(c, without), canon, target);
    assert found <==> exists u | u in c.uploads :: Some(u) != without.upload && Names(canon, c.uploads[u], target) by {
      forall u | u in c.uploads && Some(u) != without.upload && Names(canon, c.uploads[u], target)
        ensures found
      {
        assert c.uploads[u] in StagingPaths(c, without);
      }
    }
  }

  /** An exact match of a real path is a match of identities. */
  lemma ExactIsReferenced(c: Catalogue, canon: Canon, path: string, without: Excluding)
    requires !IsPlaceholder(path) && ExactReference(c, path, without)
    ensures Referenced(c, canon, canon(path), without)
  {
  }
}
