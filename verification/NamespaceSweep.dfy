/** The last look into an account's own directories before its deletion completes
    (_canonical_live_paths and sweep_account_namespaces in backend/app/services/account_deletion.py). */
module NamespaceSweep {
  import opened Options
  import opened References
  import opened Collector

  /** What the directory walk meets: something that may not be followed, a file, or a directory. */
  datatype Entry = Suspect | File(path: string) | Directory

  /** Every value of every path column. */
  function PathValues(c: Catalogue): set<string> {
    Originals(c, NOTHING) + Thumbnails(c, NOTHING) + Previews(c, NOTHING)
    + ReplicaPaths(c, NOTHING) + Sidecars(c, NOTHING) + StagingPaths(c, NOTHING)
  }

  /** The canonical identity of every path in the catalogue that is not a placeholder. */
  function LivePaths(c: Catalogue, canon: Canon): set<string> {
    set v | v in PathValues(c) && !IsPlaceholder(v) :: canon(v)
  }

  /** Placeholders are staging paths of uploads, never originals of external libraries. */
  ghost predicate ExternalsAreReal(c: Catalogue) {
    forall a :: a in c.assets && c.assets[a].source.External? ==> !IsPlaceholder(c.assets[a].original)
  }

  lemma LiveIsReferenced(c: Catalogue, canon: Canon, target: string)
    requires target in LivePaths(c, canon)
    ensures Referenced(c, canon, target, NOTHING)
  {
    var v :| v in PathValues(c) && !IsPlaceholder(v) && canon(v) == target;
    assert Names(canon, v, target);
    if v in Originals(c, NOTHING) {
      var a :| a in c.assets && c.assets[a].original == v;
      assert AssetNames(canon, c.assets[a], target);
    } else if v in Thumbnails(c, NOTHING) {
      var a :| a in c.assets && c.assets[a].thumbnail.Some? && c.assets[a].thumbnail.value == v;
      assert AssetNames(canon, c.assets[a], target);
    } else if v in Previews(c, NOTHING) {
      var a :| a in c.assets && c.assets[a].preview.Some? && c.assets[a].preview.value == v;
      assert AssetNames(canon, c.assets[a], target);
    } else if v in ReplicaPaths(c, NOTHING) {
      var r :| r in c.replicas && c.replicas[r].path == v;
      assert ReplicaNames(canon, c.replicas[r], target);
    } else if v in Sidecars(c, NOTHING) {
      var r :| r in c.replicas && c.replicas[r].metadata.Some? && c.replicas[r].metadata.value == v;
      assert ReplicaNames(canon, c.replicas[r], target);
    }
  }

  lemma ReferencedIsLive(c: Catalogue, canon: Canon, target: string)
    requires ExternalsAreReal(c) && Referenced(c, canon, target, NOTHING)
    ensures target in LivePaths(c, canon)
  {
    if a :| a in c.assets && (AssetNames(canon, c.assets[a], target)
                              || (c.assets[a].source.External? && canon(c.assets[a].original) == target)) {
      var row := c.assets[a];
      assert row.original in Originals(c, NOTHING);
      assert row.thumbnail.Some? ==> row.thumbnail.value in Thumbnails(c, NOTHING);
      assert row.preview.Some? ==> row.preview.value in Previews(c, NOTHING);
    } else if r :| r in c.replicas && ReplicaNames(canon, c.replicas[r], target) {
      var row := c.replicas[r];
      assert row.path in ReplicaPaths(c, NOTHING);
      assert row.metadata.Some? ==> row.metadata.value in Sidecars(c, NOTHING);
    } else {
      var u :| u in c.uploads && Names(canon, c.uploads[u], target);
      assert c.uploads[u] in StagingPaths(c, NOTHING);
    }
  }

  /** The set built up front answers exactly the reference check made before every unlink. */
  lemma LivePathsAreTheReferencedOnes(c: Catalogue, canon: Canon, target: string)
    requires ExternalsAreReal(c)
    ensures target in LivePaths(c, canon) <==> Referenced(c, canon, target, NOTHING)
  {
    if target in LivePaths(c, canon) { LiveIsReferenced(c, canon, target); }
    if Referenced(c, canon, target, NOTHING) { ReferencedIsLive(c, canon, target); }
  }

  /** The entry is left for an operator: it may not be followed, or the catalogue names it. */
  predicate Retained(c: Catalogue, canon: Canon, e: Entry) {
    e.Suspect? || (e.File? && Referenced(c, canon, canon(e.path), NOTHING))
  }

  function RetainedCount(c: Catalogue, canon: Canon, entries: seq<Entry>): nat {
    if entries == [] then 0
    else RetainedCount(c, canon, entries[..|entries| - 1]) + if Retained(c, canon, entries[|entries| - 1]) then 1 else 0
  }

  /** The files that the walk may remove. */
  function Orphans(c: Catalogue, canon: Canon, entries: seq<Entry>): set<string> {
    set e | e in entries && e.File? && !Retained(c, canon, e) :: canon(e.path)
  }

  /** The walk met a file of this identity. */
  predicate Met(canon: Canon, entries: seq<Entry>, f: string) {
    exists e | e in entries :: e.File? && canon(e.path) == f
  }

  /** The positions at which the walk met something that may not be followed, or a file that the catalogue names. */
  function Suspects(c: Catalogue, canon: Canon, entries: seq<Entry>): set<int> {
    set k | 0 <= k < |entries|
            && (entries[k].Suspect? || (entries[k].File? && Referenced(c, canon, canon(entries[k].path), NOTHING)))
  }

  lemma {:induction false} RetainedAreSuspects(c: Catalogue, canon: Canon, entries: seq<Entry>)
    ensures RetainedCount(c, canon, entries) == |Suspects(c, canon, entries)|
  {
    if entries != [] {
      var last := |entries| - 1;
      RetainedAreSuspects(c, canon, entries[..last]);
      assert Suspects(c, canon, entries)
             == Suspects(c, canon, entries[..last]) + if Retained(c, canon, entries[last]) then {last} else {};
    }
  }

  lemma OrphansAreMet(c: Catalogue, canon: Canon, entries: seq<Entry>, f: string)
    ensures f in Orphans(c, canon, entries) <==> Met(canon, entries, f) && !Referenced(c, canon, f, NOTHING)
  {
  }

  /** sweep_account_namespaces: removes exactly the files nothing in the catalogue names, counts exactly what it
      leaves, and stops at the first file it cannot remove. */
  method SweepAccountNamespaces(session: PurgeSession, entries: seq<Entry>) returns (retained: Result<nat, UnlinkError>)
    requires AbsolutePaths(session.canon) && ExternalsAreReal(session.catalogue)
    requires forall p :: session.canon(session.canon(p)) == session.canon(p)
    modifies session`files
    ensures retained.Ok? ==> session.files == old(session.files) - Orphans(session.catalogue, session.canon, entries)
    ensures retained.Ok? ==> forall f :: f in session.files <==>
              f in old(session.files) && (Referenced(session.catalogue, session.canon, f, NOTHING)
                                          || !Met(session.canon, entries, f))
    ensures retained.Ok? ==> retained.value == |Suspects(session.catalogue, session.canon, entries)|
    ensures retained.Ok? <==> forall e | e in entries && e.File? ::
              Referenced(session.catalogue, session.canon, session.canon(e.path), NOTHING)
              || session.usable(session.canon(e.path))
    ensures old(session.files) - Orphans(session.catalogue, session.canon, entries) <= session.files
    ensures session.files <= old(session.files)
  {
    var live := LivePaths(session.catalogue, session.canon);
    var count: nat := 0;
    for k := 0 to |entries|
      invariant session.files == old(session.files) - Orphans(session.catalogue, session.canon, entries[..k])
      invariant count == RetainedCount(session.catalogue, session.canon, entries[..k])
      invariant forall e | e in entries[..k] && e.File? ::
                  Referenced(session.catalogue, session.canon, session.canon(e.path), NOTHING)
                  || session.usable(session.canon(e.path))
    {
      var e := entries[k];
      OneMoreEntry(session.catalogue, session.canon, entries, k);
      match e
      case Suspect => count := count + 1;
      case Directory =>
      case File(path) =>
        var canonical := session.canon(path);
        LivePathsAreTheReferencedOnes(session.catalogue, session.canon, canonical);
        if canonical in live {
          count := count + 1;
        } else {
          var removed := session.SafelyUnlink(canonical, NOTHING);
          if removed.Err? {
            OrphansGrow(session.catalogue, session.canon, entries, k);
            return Err(removed.error);
          }
        }
    }
    assert entries[..|entries|] == entries;
    RetainedAreSuspects(session.catalogue, session.canon, entries);
    forall f
      ensures f in Orphans(session.catalogue, session.canon, entries)
              <==> Met(session.canon, entries, f) && !Referenced(session.catalogue, session.canon, f, NOTHING)
    {
      OrphansAreMet(session.catalogue, session.canon, entries, f);
    }
    return Ok(count);
  }

  lemma OneMoreEntry(c: Catalogue, canon: Canon, entries: seq<Entry>, k: nat)
    requires k < |entries|
    ensures RetainedCount(c, canon, entries[..k + 1])
            == RetainedCount(c, canon, entries[..k]) + if Retained(c, canon, entries[k]) then 1 else 0
    ensures Orphans(c, canon, entries[..k + 1])
            == Orphans(c, canon, entries[..k])
               + if entries[k].File? && !Retained(c, canon, entries[k]) then {canon(entries[k].path)} else {}
  {
    assert entries[..k + 1][..k] == entries[..k];
    assert entries[..k + 1] == entries[..k] + [entries[k]];
  }

  lemma OrphansGrow(c: Catalogue, canon: Canon, entries: seq<Entry>, k: nat)
    requires k <= |entries|
    ensures Orphans(c, canon, entries[..k]) <= Orphans(c, canon, entries)
  {
    assert forall e :: e in entries[..k] ==> e in entries;
  }

  /** So a sweep that retains nothing leaves none of the files it met. */
  lemma {:induction false} NothingRetainedNothingLeft(c: Catalogue, canon: Canon, entries: seq<Entry>,
                                                      files: set<string>, e: Entry)
    requires RetainedCount(c, canon, entries) == 0 && e in entries
    ensures !e.Suspect?
    ensures e.File? ==> canon(e.path) !in files - Orphans(c, canon, entries)
  {
    var last := |entries| - 1;
    if e != entries[last] {
      assert entries == entries[..last] + [entries[last]];
      NothingRetainedNothingLeft(c, canon, entries[..last], files, e);
      OrphansGrow(c, canon, entries, last);
    }
  }
}
