/** What an operator is told to expect of the deletion job, field by field: which outcome a round has and why, what a
    failure costs, and what brings a job before a person (backend/app/services/account_deletion.py). */
module DeletionOutcomes {
  import opened Numbers
  import opened Options
  import opened DeletionJob

  // ---------------------------------------------------------------- one round

  /** The lease is given up and the job waits for a worker in the status. */
  predicate GivenUp(job: Job, job': Job, status: Status) {
    && job'.status == status && job'.token == None && job'.expires == None
    && job'.attempts == job.attempts && job'.notBefore == job.notBefore
    && job'.assetsPurged == job.assetsPurged && job'.uploadsPurged == job.uploadsPurged
  }

  /** Nothing but the job row has changed. */
  predicate OnlyJob(w: World, w': World) {
    w' == w.(job := w'.job)
  }

  /** The wait after so many failures in a row before this one. */
  function Wait(c: Settings, failures: nat): int {
    var doubled := c.retryBase * Power2(if failures < 10 then failures else 10);
    if doubled < c.retryMax then doubled else c.retryMax
  }

  /** A failure costs time and nothing else. */
  predicate Deferred(c: Settings, w: World, w': World) {
    && OnlyJob(w, w') && GivenUp(w.job, w'.job, Retry)
    && w'.job.failures == w.job.failures + 1 && w'.job.nextAttempt == w.now + Wait(c, w.job.failures)
    && w'.job.subject == w.job.subject && w'.job.retained == w.job.retained
  }

  /** So many paths are left to a person. */
  predicate HandedOver(w: World, w': World, paths: nat) {
    && paths > 0 && OnlyJob(w, w') && GivenUp(w.job, w'.job, ManualReview)
    && w'.job.retained == w.job.retained + paths
    && w'.job.failures == w.job.failures && w'.job.nextAttempt == w.job.nextAttempt
    && w'.job.subject == w.job.subject
  }

  /** The account is gone. */
  predicate Closed(w: World, w': World) {
    && w.uploads == {} && w.assets == {} && w' == w.(job := w'.job, user := false)
    && GivenUp(w.job, w'.job, Completed) && !w'.job.subject
    && w'.job.retained == w.job.retained && w'.job.failures == w.job.failures && w'.job.nextAttempt == w.now
  }

  /** One upload or one asset is gone and counted; the lease runs afresh and the failures are forgotten. */
  predicate Progressed(c: Settings, w: World, w': World, upload: set<RowId>, asset: set<RowId>) {
    && w' == w.(uploads := w.uploads - upload, assets := w.assets - asset, job := w'.job)
    && w'.job == w.job.(failures := 0, expires := Some(w.now + c.lease),
                        uploadsPurged := w.job.uploadsPurged + |upload|, assetsPurged := w.job.assetsPurged + |asset|)
  }

  predicate Held(w: World, token: Token) {
    w.job.token == Some(token) && w.job.subject
  }

  /** Nothing raised, and no upload was found. */
  predicate Reached(w: World, token: Token, round: Round) {
    Held(w, token) && !round.fails && round.upload == None
  }

  /** The only reason for each verdict, and its whole effect. */
  predicate Explained(c: Settings, w: World, token: Token, round: Round, w': World, verdict: Verdict) {
    match verdict
    case Stale => w' == w && (!Held(w, token) || w.job.status != Running)
    case RetryLater => Held(w, token) && round.fails && Deferred(c, w, w')
    case NeedsReview =>
      && Reached(w, token, round)
      && HandedOver(w, w', if round.asset != None then round.legacy else round.orphans)
      && (round.asset == None ==> w.uploads == {} && w.assets == {})
    case Done => Reached(w, token, round) && round.asset == None && round.orphans == 0 && Closed(w, w')
    case Continue =>
      && Held(w, token) && !round.fails
      && if round.upload != None then Progressed(c, w, w', {round.upload.value}, {})
         else if round.asset != None then round.legacy == 0 && Progressed(c, w, w', {}, {round.asset.value})
         else w' == w && (w.uploads != {} || w.assets != {})
  }

  lemma WaitIsRetryDelay(c: Settings, failures: nat)
    ensures RetryDelay(c, failures + 1) == Wait(c, failures)
  {
  }

  lemma RoundIsExplained(c: Settings, w: World, token: Token, round: Round)
    requires Possible(w, round)
    ensures var (w', verdict) := OneRound(c, w, token, round);
            Explained(c, w, token, round, w', verdict)
  {
    WaitIsRetryDelay(c, w.job.failures);
  }

  // ---------------------------------------------------------------- a batch

  /** A worker that still holds the lease hands the job back at once. */
  predicate HandedBack(w: World, token: Token, w': World) {
    if w.job.status == Running && w.job.token == Some(token) then
      OnlyJob(w, w')
      && w'.job == w.job.(status := Pending, token := None, expires := None, nextAttempt := w.now)
    else w' == w
  }

  /** Round after round until one of them ends the batch, or all of them are over. */
  ghost predicate BatchExplained(c: Settings, w: World, token: Token, rounds: seq<Round>, w': World, verdict: Verdict)
    decreases |rounds|
  {
    if rounds == [] then verdict == Continue && HandedBack(w, token, w')
    else
      exists m, v :: Explained(c, w, token, rounds[0], m, v) &&
        if v == Continue then BatchExplained(c, m, token, rounds[1..], w', verdict) else w' == m && verdict == v
  }

  ghost predicate AllPossible(c: Settings, w: World, token: Token, rounds: seq<Round>)
    decreases |rounds|
  {
    rounds == [] ||
    (Possible(w, rounds[0]) && AllPossible(c, OneRound(c, w, token, rounds[0]).0, token, rounds[1..]))
  }

  lemma {:induction false} BatchIsExplained(c: Settings, w: World, token: Token, rounds: seq<Round>)
    requires AllPossible(c, w, token, rounds)
    ensures var (w', verdict) := Batch(c, w, token, rounds);
            BatchExplained(c, w, token, rounds, w', verdict)
    decreases |rounds|
  {
    if rounds != [] {
      var (after, verdict) := OneRound(c, w, token, rounds[0]);
      RoundIsExplained(c, w, token, rounds[0]);
      if verdict == Continue { BatchIsExplained(c, after, token, rounds[1..]); }
    }
  }

  // ---------------------------------------------------------------- failures and reviews

  /** The delay doubles with each failure up to the eleventh attempt, never beyond the maximum. */
  lemma RetryDelayDoubles(c: Settings, attempt: int)
    ensures attempt <= 1 ==> RetryDelay(c, attempt) == Min(c.retryBase, c.retryMax)
    ensures 1 <= attempt <= 10 ==> RetryDelay(c, attempt + 1) == Min(2 * RetryDelay(c, attempt), c.retryMax)
    ensures attempt >= 11 ==> RetryDelay(c, attempt) == RetryDelay(c, 11)
  {
    if 1 <= attempt <= 10 {
      assert c.retryBase * (2 * Power2(attempt - 1)) == 2 * (c.retryBase * Power2(attempt - 1));
    }
  }

  /** A round that raises loses nothing: the job stays open under its subject with every row, and is due again exactly
      when the wait is over. */
  lemma FailedRoundIsRetried(c: Settings, w: World, token: Token, round: Round, now: int)
    requires Inv(w) && Possible(w, round) && Held(w, token) && round.fails
    ensures var w' := Next(c, w, Work(token, round));
            && !Terminal(w'.job.status) && w'.job.subject && w'.job.failures == w.job.failures + 1
            && w'.uploads == w.uploads && w'.assets == w.assets && w'.user == w.user
            && (Due(w'.job, now) <==> now >= Max(w.now + Wait(c, w.job.failures), w.job.notBefore))
  {
    WaitIsRetryDelay(c, w.job.failures);
  }

  /** The step meets paths that must be kept. */
  predicate FindsPaths(step: Step) {
    step.Work? && !step.round.fails && (step.round.legacy > 0 || step.round.orphans > 0)
  }

  /** A job comes before a person only in a run that met a path which must be kept, and says so in its count; whatever
      raises, however often, never brings it there. */
  lemma {:induction false} ReviewNeedsAPath(c: Settings, w: World, steps: seq<Step>)
    requires w.job.status != ManualReview && Run(c, w, steps).job.status == ManualReview
    ensures exists k :: 0 <= k < |steps| && FindsPaths(steps[k])
    ensures Run(c, w, steps).job.retained > w.job.retained
    decreases |steps|
  {
    var w' := Next(c, w, steps[0]);
    if w'.job.status == ManualReview {
      assert FindsPaths(steps[0]);
      ReviewStays(c, w', steps[1..]);
    } else {
      ReviewNeedsAPath(c, w', steps[1..]);
      var k :| 0 <= k < |steps| - 1 && FindsPaths(steps[1..][k]);
      assert steps[1..][k] == steps[k + 1];
    }
  }

  /** The count of kept paths never falls. */
  lemma {:induction false} ReviewStays(c: Settings, w: World, steps: seq<Step>)
    ensures Run(c, w, steps).job.retained >= w.job.retained
    decreases |steps|
  {
    if steps != [] { ReviewStays(c, Next(c, w, steps[0]), steps[1..]); }
  }
}
