/** Asset revisions, their lifecycle transitions, and the database constraints on them
    (backend/app/models/asset.py, backend/app/services/lifecycle.py). */
module Catalog {
  import opened Numbers
  import opened Options
  import opened Sets

  type UserId = int
  type LogicalId = int
  type AssetId = int

  datatype Life = Active | Superseded | Trashed | Purging

  /** One immutable revision. `trashed` says that trashed_at is set. */
  datatype Asset = Asset(
    user: UserId,
    logical: LogicalId,
    version: int,
    checksum: string,
    life: Life,
    trashed: bool,
    purgeAfter: Option<int>)

  type Assets = map<AssetId, Asset>

  // ---------------------------------------------------------------- constraints

  /** ck_assets_version_positive and ck_assets_retention_state. */
  predicate RowOk(a: Asset) {
    && a.version > 0
    && (if a.life.Trashed? || a.life.Purging? then a.trashed && a.purgeAfter.Some? else a.purgeAfter.None?)
  }

  predicate SameHistory(a: Asset, b: Asset) {
    a.user == b.user && a.logical == b.logical
  }

  /** The four constraints of the assets table; ids are below the next fresh id. */
  ghost predicate Constraints(assets: Assets, next: AssetId) {
    && (forall i :: i in assets ==> i < next && RowOk(assets[i]))
    && (forall i, j :: i in assets && j in assets && i != j && SameHistory(assets[i], assets[j]) ==>
          assets[i].version != assets[j].version && !(assets[i].life.Active? && assets[j].life.Active?))
  }

  // ---------------------------------------------------------------- queries

  predicate IsActiveOf(assets: Assets, i: AssetId, user: UserId) {
    i in assets && assets[i].user == user && assets[i].life.Active?
  }

  predicate InHistory(assets: Assets, i: AssetId, user: UserId, logical: LogicalId) {
    i in assets && assets[i].user == user && assets[i].logical == logical
  }

  /** coalesce(max(version), 0) over one history. */
  ghost predicate IsHighest(assets: Assets, user: UserId, logical: LogicalId, v: int) {
    && (forall i :: InHistory(assets, i, user, logical) ==> assets[i].version <= v)
    && (v == 0 || exists i :: InHistory(assets, i, user, logical) && assets[i].version == v)
  }

  ghost function Versions(assets: Assets, user: UserId, logical: LogicalId): set<int> {
    set i | i in assets && InHistory(assets, i, user, logical) :: assets[i].version
  }

  lemma {:induction false} MaximumExists(s: set<int>) returns (m: int)
    requires s != {}
    ensures m in s && forall x :: x in s ==> x <= m
  {
    var x := Pick(s);
    m := x;
    if s - {x} != {} {
      var rest := MaximumExists(s - {x});
      if rest > x { m := rest; }
    }
    assert forall y :: y in s ==> y == x || y in s - {x};
  }

  ghost function HighestVersion(assets: Assets, user: UserId, logical: LogicalId): (v: int)
    requires forall i :: i in assets ==> assets[i].version > 0
    ensures IsHighest(assets, user, logical, v)
    ensures v >= 0
  {
    HighestExists(assets, user, logical);
    var v :| IsHighest(assets, user, logical, v) && v >= 0;
    v
  }

  lemma HighestExists(assets: Assets, user: UserId, logical: LogicalId)
    requires forall i :: i in assets ==> assets[i].version > 0
    ensures exists v :: IsHighest(assets, user, logical, v) && v >= 0
  {
    var versions := Versions(assets, user, logical);
    if versions == {} {
      assert forall i :: InHistory(assets, i, user, logical) ==> assets[i].version in versions;
      assert IsHighest(assets, user, logical, 0);
    } else {
      var m := MaximumExists(versions);
      assert forall i :: InHistory(assets, i, user, logical) ==> assets[i].version in versions;
      assert IsHighest(assets, user, logical, m);
    }
  }

  /** The active revision of a history, when there is one. */
  ghost function ActiveTarget(assets: Assets, user: UserId, logical: LogicalId): (t: Option<AssetId>)
    ensures t.Some? ==> InHistory(assets, t.value, user, logical) && assets[t.value].life.Active?
    ensures t.None? ==> forall i :: InHistory(assets, i, user, logical) ==> !assets[i].life.Active?
  {
    if i :| InHistory(assets, i, user, logical) && assets[i].life.Active? then Some(i) else None
  }

  // ---------------------------------------------------------------- transitions

  /** Why a lifecycle request is turned down, one for each ValueError. */
  datatype Refusal =
    | NoLongerExists
    | NotActive
    | RetentionTooShort
    | NotInTrash
    | NewerActive
    | OtherHistory
    | CurrentNotActive
    | TargetTrashed
    | TargetPurging

  function Supersede(assets: Assets, i: AssetId): Assets
    requires i in assets
  {
    assets[i := assets[i].(life := Superseded)]
  }

  /** The history's other active revision makes room for `i`. */
  function Quieted(assets: Assets, target: Option<AssetId>, i: AssetId): Assets
    requires target.Some? ==> target.value in assets
  {
    if target.Some? && target.value != i then Supersede(assets, target.value) else assets
  }

  function Activated(a: Asset): Asset {
    a.(life := Active, trashed := false, purgeAfter := None)
  }

  /** trash_asset: only the active revision can be trashed, and trashing twice changes nothing. */
  function Trash(assets: Assets, i: AssetId, now: int, days: int): Result<Assets, Refusal> {
    if i !in assets then Err(NoLongerExists)
    else if assets[i].life.Trashed? then Ok(assets)
    else if !assets[i].life.Active? then Err(NotActive)
    else if days < 1 then Err(RetentionTooShort)
    else Ok(assets[i := assets[i].(life := Trashed, trashed := true, purgeAfter := Some(now + days * SECONDS_PER_DAY))])
  }

  /** restore_asset_from_trash, for an enabled account. */
  ghost function RestoreFromTrash(assets: Assets, i: AssetId): Result<Assets, Refusal> {
    if i !in assets then Err(NoLongerExists)
    else if !assets[i].life.Trashed? then Err(NotInTrash)
    else if exists j :: j != i && j in assets && SameHistory(assets[j], assets[i]) && assets[j].life.Active? then
      Err(NewerActive)
    else Ok(assets[i := Activated(assets[i])])
  }

  /** Every active revision of the history of `target` other than `target` itself becomes superseded. */
  function SupersedeOthers(assets: Assets, target: AssetId): Assets
    requires target in assets
  {
    map i | i in assets ::
      if i != target && SameHistory(assets[i], assets[target]) && assets[i].life.Active?
      then assets[i].(life := Superseded) else assets[i]
  }

  /** No other revision of the history is active. */
  predicate NoOtherActive(assets: Assets, target: AssetId)
    requires target in assets
  {
    forall i | i in assets :: i != target && SameHistory(assets[i], assets[target]) ==> !assets[i].life.Active?
  }

  /** rollback_asset, for an enabled account. */
  ghost function Rollback(assets: Assets, current: AssetId, target: AssetId): Result<Assets, Refusal> {
    if target !in assets || current !in assets || !SameHistory(assets[current], assets[target]) then
      Err(OtherHistory)
    else if !assets[current].life.Active? then
      Err(CurrentNotActive)
    else if assets[target].life.Trashed? then Err(TargetTrashed)
    else if assets[target].life.Purging? then
      Err(TargetPurging)
    else if assets[target].life.Active? && NoOtherActive(assets, target) then Ok(assets)
    else Ok(SupersedeOthers(assets, target)[target := Activated(assets[target])])
  }

  /** The bulk update of prepare_account_deletion: every revision of the user is purging from `now`. */
  function StageForDeletion(assets: Assets, user: UserId, now: int): Assets {
    map i | i in assets ::
      if assets[i].user == user
      then assets[i].(life := Purging, trashed := true, purgeAfter := Some(now)) else assets[i]
  }

  /** A retained row may go only when its deadline has passed (safely_purge_asset). */
  predicate Purgeable(assets: Assets, i: AssetId, now: int) {
    && i in assets
    && (assets[i].life.Trashed? || assets[i].life.Purging?)
    && assets[i].purgeAfter.Some?
    && assets[i].purgeAfter.value <= now
  }

  // ---------------------------------------------------------------- what the transitions keep

  /** No row appears, disappears or changes its account, history, version or content. */
  ghost predicate SameRows(before: Assets, after: Assets) {
    && after.Keys == before.Keys
    && forall i :: i in before ==>
         && SameHistory(before[i], after[i])
         && before[i].version == after[i].version && before[i].checksum == after[i].checksum
  }

  lemma TrashKeeps(assets: Assets, next: AssetId, i: AssetId, now: int, days: int)
    requires Constraints(assets, next) && Trash(assets, i, now, days).Ok?
    ensures Constraints(Trash(assets, i, now, days).value, next)
    ensures SameRows(assets, Trash(assets, i, now, days).value)
  {
  }

  lemma RestoreKeeps(assets: Assets, next: AssetId, i: AssetId)
    requires Constraints(assets, next) && RestoreFromTrash(assets, i).Ok?
    ensures Constraints(RestoreFromTrash(assets, i).value, next)
    ensures SameRows(assets, RestoreFromTrash(assets, i).value)
  {
  }

  lemma RollbackKeepsRows(assets: Assets, current: AssetId, target: AssetId)
    requires Rollback(assets, current, target).Ok?
    ensures SameRows(assets, Rollback(assets, current, target).value)
  {
  }

  lemma SupersedeOthersKeeps(assets: Assets, next: AssetId, target: AssetId)
    requires Constraints(assets, next) && target in assets
    ensures Constraints(SupersedeOthers(assets, target), next)
    ensures forall i :: i in assets && i != target && SameHistory(assets[i], assets[target]) ==>
              !SupersedeOthers(assets, target)[i].life.Active?
  {
  }

  lemma RollbackKeeps(assets: Assets, next: AssetId, current: AssetId, target: AssetId)
    requires Constraints(assets, next) && Rollback(assets, current, target).Ok?
    ensures Constraints(Rollback(assets, current, target).value, next)
  {
    SupersedeOthersKeeps(assets, next, target);
    var quiet := SupersedeOthers(assets, target);
    assert quiet[target] == assets[target];
    assert forall i :: i in quiet ==> SameHistory(quiet[i], assets[i]);
  }

  /** Rolling back leaves the target as the one active revision of its history. */
  lemma RollbackActivates(assets: Assets, next: AssetId, current: AssetId, target: AssetId)
    requires Constraints(assets, next) && Rollback(assets, current, target).Ok?
    ensures ActiveTarget(Rollback(assets, current, target).value, assets[target].user, assets[target].logical)
            == Some(target)
  {
    RollbackKeeps(assets, next, current, target);
    var after := Rollback(assets, current, target).value;
    assert InHistory(after, target, assets[target].user, assets[target].logical) && after[target].life.Active?;
  }

  lemma MarkKeeps(assets: Assets, next: AssetId, i: AssetId, now: int)
    requires Constraints(assets, next) && Purgeable(assets, i, now)
    ensures Constraints(assets[i := assets[i].(life := Purging)], next)
    ensures SameRows(assets, assets[i := assets[i].(life := Purging)])
  {
  }

  lemma StageKeeps(assets: Assets, next: AssetId, user: UserId, now: int)
    requires Constraints(assets, next)
    ensures Constraints(StageForDeletion(assets, user, now), next)
    ensures SameRows(assets, StageForDeletion(assets, user, now))
  {
  }
}
