/** The deletion job as the worker runs it, field by field (claim_account_deletion_job,
    process_account_deletion_batch and record_account_deletion_publish in
    backend/app/services/account_deletion.py). */
module DeletionWorker {
  import opened Options
  import opened DeletionJob
  import opened DeletionOutcomes

  /** The job row, the rows of its subject, and the clock. */
  class Store {
    const settings: Settings
    var status: Status
    var subject: bool
    var attempts: nat
    var failures: nat
    var assetsPurged: nat
    var uploadsPurged: nat
    var retained: nat
    var notBefore: int
    var nextAttempt: int
    var token: Option<Token>
    var expires: Option<int>
    var uploads: set<RowId>
    var assets: set<RowId>
    var user: bool
    var now: int
    ghost var used: set<Token>
    ghost var otherUploads: nat
    ghost var otherAssets: nat

    ghost function Row(): Job
      reads this
    {
      Job(status, subject, attempts, failures, assetsPurged, uploadsPurged, retained, notBefore, nextAttempt, token,
          expires)
    }

    ghost function View(): World
      reads this
    {
      World(Row(), uploads, assets, user, now, used, otherUploads, otherAssets)
    }

    /** prepare_account_deletion stages a pending job with no lease. */
    constructor (settings: Settings, uploads: set<RowId>, assets: set<RowId>, requestedAt: int, quiescence: nat)
      ensures this.settings == settings
      ensures Inv(View()) && status.Pending? && this.uploads == uploads && this.assets == assets
      ensures notBefore == requestedAt + quiescence && nextAttempt == requestedAt && now == requestedAt
      ensures used == {} && assetsPurged == 0 && uploadsPurged == 0 && otherUploads == 0 && otherAssets == 0
    {
      this.settings := settings;
      status, subject, attempts, failures, assetsPurged, uploadsPurged, retained := Pending, true, 0, 0, 0, 0, 0;
      notBefore, nextAttempt, token, expires := requestedAt + quiescence, requestedAt, None, None;
      this.uploads, this.assets, user, now := uploads, assets, true, requestedAt;
      used, otherUploads, otherAssets := {}, 0, 0;
    }

    method ReleaseLease()
      modifies this`token, this`expires
      ensures token.None? && expires.None?
    {
      token, expires := None, None;
    }

    method ExtendLease()
      modifies this`failures, this`expires
      ensures failures == 0 && expires == Some(now + settings.lease)
    {
      failures := 0;
      expires := Some(now + settings.lease);
    }

    method TakeLease(drawn: Token)
      modifies this`status, this`token, this`expires, this`attempts, this`used
      ensures View() == Taken(settings, old(View()), drawn)
    {
      status := Running;
      token := Some(drawn);
      expires := Some(now + settings.lease);
      attempts := attempts + 1;
      used := used + {drawn};
    }

    /** claim_account_deletion_job; the fresh token is drawn by the caller. */
    method ClaimAccountDeletionJob(drawn: Token) returns (claimed: bool)
      requires drawn !in used
      modifies this`status, this`token, this`expires, this`attempts, this`used
      ensures claimed <==> Claimable(old(Row()), old(now))
      ensures claimed <==> && old(status) in {Pending, Queued, Retry, Running} && old(notBefore) <= now
                           && (old(status) == Queued || old(nextAttempt) <= now)
                           && (old(status) == Running && old(expires) != None ==> old(expires).value <= now)
      ensures claimed ==> && status == Running && token == Some(drawn) && expires == Some(now + settings.lease)
                          && attempts == old(attempts) + 1
      ensures View() == if claimed then Taken(settings, old(View()), drawn) else old(View())
    {
      if !Open(status) || notBefore > now || (!status.Queued? && nextAttempt > now) { return false; }
      if status.Running? && expires.Some? && expires.value > now { return false; }
      TakeLease(drawn);
      return true;
    }

    /** The exception branch: the failure and the date of the next attempt are recorded, if the lease still holds. */
    method Defer(lease: Token) returns (verdict: Verdict)
      modifies this`status, this`token, this`expires, this`failures, this`nextAttempt
      ensures var holds := old(status).Running? && old(token) == Some(lease);
              verdict == (if holds then RetryLater else Stale)
              && Row() == if holds then Released(old(Row()), Retry).(failures := old(failures) + 1,
                                          nextAttempt := now + RetryDelay(settings, old(failures) + 1))
                          else old(Row())
    {
      if !status.Running? || token != Some(lease) { return Stale; }
      status := Retry;
      ReleaseLease();
      failures := failures + 1;
      nextAttempt := now + RetryDelay(settings, failures);
      return RetryLater;
    }

    /** A legacy path that may not be unlinked stops the job for an operator, if the lease still holds. */
    method Retain(lease: Token, legacy: nat) returns (verdict: Verdict)
      modifies this`status, this`token, this`expires, this`retained
      ensures var holds := old(status).Running? && old(token) == Some(lease);
              verdict == (if holds then NeedsReview else Stale)
              && Row() == if holds then Released(old(Row()), ManualReview).(retained := old(retained) + legacy)
                  else old(Row())
    {
      if !status.Running? || token != Some(lease) { return Stale; }
      status := ManualReview;
      retained := retained + legacy;
      ReleaseLease();
      return NeedsReview;
    }

    /** The last step of an account without rows: leftover files are for an operator, otherwise the account row
        goes and the job forgets its subject. */
    method Finalize(orphans: nat) returns (verdict: Verdict)
      modifies this`status, this`token, this`expires, this`retained, this`user, this`subject, this`nextAttempt
      ensures View() == if orphans > 0
                        then old(View()).(job := Released(old(Row()), ManualReview)
                                                   .(retained := old(retained) + orphans))
                        else old(View()).(user := false, job := Released(old(Row()), Completed).(subject := false,
                            nextAttempt := old(now)))
      ensures verdict == if orphans > 0 then NeedsReview else Done
    {
      ReleaseLease();
      if orphans > 0 {
        status := ManualReview;
        retained := retained + orphans;
        return NeedsReview;
      }
      user := false;
      status := Completed;
      subject := false;
      nextAttempt := now;
      return Done;
    }

    method PurgeUpload(upload: RowId)
      modifies this`uploads, this`uploadsPurged, this`failures, this`expires
      ensures View() == old(View()).(uploads := old(uploads) - {upload},
                          job := Progress(settings, old(View())).(uploadsPurged := old(uploadsPurged) + 1))
    {
      uploads := uploads - {upload};
      uploadsPurged := uploadsPurged + 1;
      ExtendLease();
    }

    method PurgeAsset(asset: RowId)
      modifies this`assets, this`assetsPurged, this`failures, this`expires
      ensures View() == old(View()).(assets := old(assets) - {asset},
                          job := Progress(settings, old(View())).(assetsPurged := old(assetsPurged) + 1))
    {
      assets := assets - {asset};
      assetsPurged := assetsPurged + 1;
      ExtendLease();
    }

    /** One pass of the loop of process_account_deletion_batch. */
    method ProcessRound(lease: Token, round: Round) returns (verdict: Verdict)
      requires Possible(View(), round)
      modifies this
      ensures (View(), verdict) == OneRound(settings, old(View()), lease, round)
      ensures Explained(settings, old(View()), lease, round, View(), verdict)
    {
      RoundIsExplained(settings, View(), lease, round);
      if token != Some(lease) || !subject { return Stale; }
      if round.fails {
        verdict := Defer(lease);
        return;
      }
      if round.upload.Some? {
        PurgeUpload(round.upload.value);
        return Continue;
      }
      if round.asset.Some? {
        if round.legacy > 0 {
          verdict := Retain(lease, round.legacy);
          return;
        }
        PurgeAsset(round.asset.value);
        return Continue;
      }
      if uploads != {} || assets != {} { return Continue; }
      verdict := Finalize(round.orphans);
    }

    /** The job is due again at once. */
    method HandBack(lease: Token)
      modifies this`status, this`token, this`expires, this`nextAttempt
      ensures View() == EndBatch(old(View()), lease)
    {
      if status.Running? && token == Some(lease) {
        status := Pending;
        ReleaseLease();
        nextAttempt := now;
      }
    }

    /** process_account_deletion_batch: as many rounds as the batch size, and the job handed back at the end. */
    method ProcessAccountDeletionBatch(lease: Token, rounds: seq<Round>) returns (verdict: Verdict)
      requires AllPossible(settings, View(), lease, rounds)
      modifies this
      ensures (View(), verdict) == Batch(settings, old(View()), lease, rounds)
      ensures BatchExplained(settings, old(View()), lease, rounds, View(), verdict)
    {
      BatchIsExplained(settings, View(), lease, rounds);
      ghost var was := View();
      for k := 0 to |rounds|
        invariant AllPossible(settings, View(), lease, rounds[k..])
        invariant Batch(settings, View(), lease, rounds[k..]) == Batch(settings, was, lease, rounds)
      {
        assert rounds[k..][0] == rounds[k] && rounds[k..][1..] == rounds[k + 1..];
        verdict := ProcessRound(lease, rounds[k]);
        if !verdict.Continue? { return; }
      }
      HandBack(lease);
      return Continue;
    }

    /** record_account_deletion_publish: never overwrites a worker that already ran. */
    method RecordAccountDeletionPublish(published: bool)
      modifies this`status, this`token, this`expires, this`failures, this`nextAttempt
      ensures View() == old(View()).(job := Publish(settings, old(Row()), published, old(now)))
      ensures old(status) !in {Pending, Queued, Retry} ==> View() == old(View())
      ensures old(status) in {Pending, Queued, Retry} ==>
                && status == (if published then Queued else Retry) && token == None && expires == None
                && nextAttempt == now + (if published then settings.lease else Wait(settings, old(failures)))
                && failures == (if published then old(failures) else old(failures) + 1)
    {
      if !status.Pending? && !status.Queued? && !status.Retry? { return; }
      ReleaseLease();
      if published {
        status := Queued;
        nextAttempt := now + settings.lease;
      } else {
        status := Retry;
        failures := failures + 1;
        nextAttempt := now + RetryDelay(settings, failures);
      }
    }
  }
}
