/** What a client is told to expect of the lifecycle requests, row by row: when each is granted and which rows it then
    changes (backend/app/services/lifecycle.py). */
module LifecycleRequests {
  import opened Options
  import opened Catalog
  import opened Journal
  import opened JournalInvariants
  import opened SyncRequests
  import opened Histories

  /** The revision is the current one again, with its content and its number. */
  predicate CurrentAgain(before: Asset, after: Asset) {
    && after.life == Active && !after.trashed && after.purgeAfter == None
    && after.user == before.user && after.logical == before.logical
    && after.version == before.version && after.checksum == before.checksum
  }

  predicate OneHistory(a: Asset, b: Asset) {
    a.user == b.user && a.logical == b.logical
  }

  /** No other revision of its history is current. */
  predicate OnlyCurrent(assets: Assets, i: AssetId)
    requires i in assets
  {
    forall j | j in assets :: j != i && OneHistory(assets[j], assets[i]) ==> assets[j].life != Active
  }

  /** An active revision goes to the trash for at least a day; one that is there already stays as it is. */
  predicate TrashDone(before: Assets, after: Assets, i: AssetId, env: Env, ok: bool) {
    && ok == (i in before && (before[i].life == Trashed || (before[i].life == Active && env.days >= 1)))
    && if ok && before[i].life == Active
       then OnlyAsset(before, after, i) && InTrash(before[i], after[i], env) else after == before
  }

  /** A trashed revision comes back unless its history has a newer current one. */
  predicate RestoreDone(before: Assets, after: Assets, i: AssetId, enabled: bool, ok: bool) {
    && ok == (enabled && i in before && before[i].life == Trashed && OnlyCurrent(before, i))
    && if ok then OnlyAsset(before, after, i) && CurrentAgain(before[i], after[i]) else after == before
  }

  /** The target takes the place of whatever was current in its history. */
  predicate TookOver(before: Assets, after: Assets, target: AssetId)
    requires target in before
  {
    && after.Keys == before.Keys
    && (if before[target].life == Active && OnlyCurrent(before, target) then after[target] == before[target]
        else CurrentAgain(before[target], after[target]))
    && forall j | j in before :: j != target ==>
         after[j] == if OneHistory(before[j], before[target]) && before[j].life == Active
                     then before[j].(life := Superseded) else before[j]
  }

  /** A rollback is granted from the current revision to one that is current or superseded. */
  predicate RollbackDone(before: Assets, after: Assets, current: AssetId, target: AssetId, enabled: bool, ok: bool) {
    && ok == (enabled && target in before && current in before && OneHistory(before[current], before[target])
              && before[current].life == Active
              && (before[target].life == Active || before[target].life == Superseded))
    && if ok then TookOver(before, after, target) else after == before
  }

  lemma TrashExactly(assets: Assets, i: AssetId, env: Env)
    ensures match Trash(assets, i, env.now, env.days)
            case Ok(after) => TrashDone(assets, after, i, env, true)
            case Err(_) => TrashDone(assets, assets, i, env, false)
  {
  }

  lemma RestoreExactly(s: State, i: AssetId)
    requires RowsOk(s)
    ensures var enabled := i in s.assets && s.assets[i].user in s.users && s.assets[i].user !in s.disabled;
            RestoreDone(s.assets, Next(s, RestoreAsset(i)).assets, i, enabled,
                        enabled && RestoreFromTrash(s.assets, i).Ok?)
  {
  }

  lemma RollbackExactly(s: State, current: AssetId, target: AssetId)
    requires RowsOk(s)
    ensures var enabled := target in s.assets && s.assets[target].user in s.users
                           && s.assets[target].user !in s.disabled;
            RollbackDone(s.assets, Next(s, RollbackAsset(current, target)).assets, current, target, enabled,
                         enabled && Rollback(s.assets, current, target).Ok?)
  {
  }

  /** An upload becomes version one of a new history, unless the account has the same content current or the name is
      taken. */
  lemma IngestExactly(s: State, user: UserId, logical: LogicalId, checksum: string)
    requires RowsOk(s)
    ensures var s' := Next(s, Ingest(user, logical, checksum));
            if user in s.users && user !in s.disabled
               && forall i | i in s.assets ::
                    && s.assets[i].logical != logical
                    && !(s.assets[i].user == user && s.assets[i].life == Active && s.assets[i].checksum == checksum)
            then s' == s.(assets := s.assets[s.nextAsset := Asset(user, logical, 1, checksum, Active, false, None)],
                          nextAsset := s.nextAsset + 1)
            else s' == s
  {
  }

  /** The row goes exactly when its date has passed in the trash or in deletion; items keep all but its name. */
  lemma PurgeExactly(s: State, i: AssetId, now: int)
    requires RowsOk(s)
    ensures var s' := Next(s, PurgeAsset(i, now));
            if i in s.assets && (s.assets[i].life == Trashed || s.assets[i].life == Purging)
               && s.assets[i].purgeAfter != None && s.assets[i].purgeAfter.value <= now
            then && s'.assets.Keys == s.assets.Keys - {i}
                 && (forall j | j in s.assets :: j != i ==> s'.assets[j] == s.assets[j])
                 && s'.roots == s.roots && s'.ops == s.ops && s'.conflicts == s.conflicts
                 && s'.tables.Keys == s.tables.Keys
                 && forall r, l | r in s.tables && l in s.tables[r] ::
                      l in s'.tables[r] && s'.tables[r][l].path == s.tables[r][l].path
                      && s'.tables[r][l].deleted == s.tables[r][l].deleted
                      && s'.tables[r][l].revision == s.tables[r][l].revision
                      && (s.tables[r][l].asset == Some(i) ==> s'.tables[r][l].asset == None)
            else s' == s
  {
  }

  /** Account deletion disables the account and makes each of its revisions due at once, and no other. */
  lemma StageExactly(s: State, user: UserId, now: int)
    requires RowsOk(s)
    ensures var s' := Next(s, StageDeletion(user, now));
            && s'.disabled == s.disabled + {user} && s'.assets.Keys == s.assets.Keys
            && forall i | i in s.assets ::
                 if s.assets[i].user == user then
                   && s'.assets[i].life == Purging && s'.assets[i].trashed && s'.assets[i].purgeAfter == Some(now)
                   && s'.assets[i].user == user && s'.assets[i].logical == s.assets[i].logical
                   && s'.assets[i].version == s.assets[i].version && s'.assets[i].checksum == s.assets[i].checksum
                 else s'.assets[i] == s.assets[i]
  {
  }
}
