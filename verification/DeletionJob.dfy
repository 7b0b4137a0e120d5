/** The leased job that removes a deleted account: claims, bounded batches, retries and terminal states, under
    crashes, expired leases and duplicate deliveries (backend/app/services/account_deletion.py). */
module DeletionJob {
  import opened Numbers
  import opened Options

  type Token = string
  type RowId = string

  datatype Status = Pending | Queued | Retry | Running | ManualReview | Completed

  datatype Job = Job(
    status: Status,
    subject: bool,
    attempts: nat,
    failures: nat,
    assetsPurged: nat,
    uploadsPurged: nat,
    retained: nat,
    notBefore: int,
    nextAttempt: int,
    token: Option<Token>,
    expires: Option<int>)

  datatype Settings = Settings(lease: nat, retryBase: nat, retryMax: nat)

  /** One job with the rows of its subject. `used` are the tokens ever drawn; `otherUploads` and `otherAssets`
      count rows that other workers removed. */
  datatype World = World(
    job: Job,
    uploads: set<RowId>,
    assets: set<RowId>,
    user: bool,
    now: int,
    used: set<Token>,
    otherUploads: nat,
    otherAssets: nat)

  /** retry_delay: doubles from the base with every failure, ten times at most, up to the maximum. */
  function RetryDelay(c: Settings, attempt: int): int {
    Min(c.retryBase * Power2(Min(Max(attempt - 1, 0), 10)), c.retryMax)
  }

  // ---------------------------------------------------------------- claiming

  predicate Open(status: Status) {
    status.Pending? || status.Queued? || status.Retry? || status.Running?
  }

  /** claim_account_deletion_job accepts the job. */
  predicate Claimable(job: Job, now: int) {
    && Open(job.status) && job.notBefore <= now
    && (job.status.Queued? || job.nextAttempt <= now)
    && !(job.status.Running? && job.expires.Some? && job.expires.value > now)
  }

  /** due_account_deletion_job_ids lists the job. */
  predicate Due(job: Job, now: int) {
    && Open(job.status) && job.notBefore <= now && job.nextAttempt <= now
    && (!job.status.Running? || job.expires.None? || job.expires.value <= now)
  }

  function Claimed(c: Settings, job: Job, token: Token, now: int): Job {
    job.(status := Running, token := Some(token), expires := Some(now + c.lease), attempts := job.attempts + 1)
  }

  function Taken(c: Settings, w: World, token: Token): World {
    w.(job := Claimed(c, w.job, token, w.now), used := w.used + {token})
  }

  /** Leaves the lease with a new status. */
  function Released(job: Job, status: Status): Job {
    job.(status := status, token := None, expires := None)
  }

  // ---------------------------------------------------------------- one round of a batch

  /** What the environment answers in one round: the first upload and the first asset that are not locked by
      somebody else, whether anything raises, how many legacy paths must be kept, and how many files of the
      account are left over. */
  datatype Round = Round(upload: Option<RowId>, asset: Option<RowId>, fails: bool, legacy: nat, orphans: nat)

  datatype Verdict = Continue | Stale | RetryLater | NeedsReview | Done

  /** The answers name rows that are there. */
  predicate Possible(w: World, round: Round) {
    && (round.upload.Some? ==> round.upload.value in w.uploads)
    && (round.asset.Some? ==> round.asset.value in w.assets)
  }

  /** A committed deletion of one row resets the failures and extends the lease. */
  function Progress(c: Settings, w: World): Job {
    w.job.(failures := 0, expires := Some(w.now + c.lease))
  }

  function Holds(w: World, token: Token): bool {
    w.job.token == Some(token) && w.job.subject
  }

  function OneRound(c: Settings, w: World, token: Token, round: Round): (World, Verdict) {
    if !Holds(w, token) then (w, Stale)
    else if round.fails then
      if w.job.status.Running?
      then (w.(job := Released(w.job, Retry).(failures := w.job.failures + 1,
                                              nextAttempt := w.now + RetryDelay(c, w.job.failures + 1))), RetryLater)
      else (w, Stale)
    else if round.upload.Some? then
      (w.(uploads := w.uploads - {round.upload.value},
          job := Progress(c, w).(uploadsPurged := w.job.uploadsPurged + 1)), Continue)
    else if round.asset.Some? then
      if round.legacy > 0 then
        if w.job.status.Running?
        then (w.(job := Released(w.job, ManualReview).(retained := w.job.retained + round.legacy)), NeedsReview)
        else (w, Stale)
      else (w.(assets := w.assets - {round.asset.value},
               job := Progress(c, w).(assetsPurged := w.job.assetsPurged + 1)), Continue)
    else if w.uploads != {} || w.assets != {} then (w, Continue)
    else if round.orphans > 0 then
      (w.(job := Released(w.job, ManualReview).(retained := w.job.retained + round.orphans)), NeedsReview)
    else (w.(user := false, job := Released(w.job, Completed).(subject := false, nextAttempt := w.now)), Done)
  }

  /** After the last round of a batch the job is handed back at once. */
  function EndBatch(w: World, token: Token): World {
    if w.job.status.Running? && w.job.token == Some(token)
    then w.(job := Released(w.job, Pending).(nextAttempt := w.now))
    else w
  }

  /** record_account_deletion_publish. */
  function Publish(c: Settings, job: Job, published: bool, now: int): Job {
    if !(job.status.Pending? || job.status.Queued? || job.status.Retry?) then job
    else if published then Released(job, Queued).(nextAttempt := now + c.lease)
    else Released(job, Retry).(failures := job.failures + 1, nextAttempt := now + RetryDelay(c, job.failures + 1))
  }

  // ---------------------------------------------------------------- runs

  datatype Step =
    | Claim(token: Token)
    | Work(worker: Token, round: Round)
    | Finish(ender: Token)
    | Record(published: bool)
    | OtherUpload(upload: RowId)
    | OtherAsset(asset: RowId)
    | Tick(now: int)

  predicate Enabled(w: World, step: Step) {
    match step
    case Claim(token) => token !in w.used
    case Work(t, round) => Possible(w, round)
    case OtherUpload(id) => id in w.uploads
    case OtherAsset(id) => id in w.assets
    case Tick(now) => w.now <= now
    case _ => true
  }

  function Next(c: Settings, w: World, step: Step): World {
    if !Enabled(w, step) then w
    else
      match step
      case Claim(token) =>
        if Claimable(w.job, w.now) then Taken(c, w, token) else w
      case Work(t, round) => OneRound(c, w, t, round).0
      case Finish(t) => EndBatch(w, t)
      case Record(published) => w.(job := Publish(c, w.job, published, w.now))
      case OtherUpload(id) => w.(uploads := w.uploads - {id}, otherUploads := w.otherUploads + 1)
      case OtherAsset(id) => w.(assets := w.assets - {id}, otherAssets := w.otherAssets + 1)
      case Tick(now) => w.(now := now)
  }

  function Run(c: Settings, w: World, steps: seq<Step>): World
    decreases |steps|
  {
    if steps == [] then w else Run(c, Next(c, w, steps[0]), steps[1..])
  }

  // ---------------------------------------------------------------- the invariant

  /** The lease is set exactly while the job runs, its token was drawn, and a job without a subject has no rows. */
  predicate Inv(w: World) {
    && (w.job.token.Some? <==> w.job.status.Running?) && (w.job.expires.Some? <==> w.job.status.Running?)
    && (w.job.token.Some? ==> w.job.token.value in w.used)
    && (w.job.subject <==> !w.job.status.Completed?)
    && (w.job.status.Completed? ==> w.uploads == {} && w.assets == {} && !w.user)
  }

  function Uploads(w: World): nat { |w.uploads| + w.job.uploadsPurged + w.otherUploads }

  function Assets(w: World): nat { |w.assets| + w.job.assetsPurged + w.otherAssets }

  predicate Terminal(status: Status) {
    status.ManualReview? || status.Completed?
  }

  lemma RoundCounts(c: Settings, w: World, token: Token, round: Round)
    requires Possible(w, round)
    ensures var w' := OneRound(c, w, token, round).0; Uploads(w') == Uploads(w) && Assets(w') == Assets(w)
  {
  }

  lemma RoundLeases(c: Settings, w: World, token: Token, round: Round)
    requires Inv(w)
    ensures var w' := OneRound(c, w, token, round).0;
            w'.used == w.used && w'.now == w.now && (w'.job.token == w.job.token || w'.job.token.None?)
    ensures Inv(OneRound(c, w, token, round).0)
  {
  }

  lemma RoundKeeps(c: Settings, w: World, token: Token, round: Round)
    requires Inv(w) && Possible(w, round)
    ensures var w' := OneRound(c, w, token, round).0;
            && Inv(w') && Uploads(w') == Uploads(w) && Assets(w') == Assets(w)
            && w'.used == w.used && w'.now == w.now
            && (w'.job.token == w.job.token || w'.job.token.None?)
  {
    RoundLeases(c, w, token, round);
    RoundCounts(c, w, token, round);
  }

  lemma NextKeeps(c: Settings, w: World, step: Step)
    requires Inv(w)
    ensures var w' := Next(c, w, step);
            && Inv(w') && Uploads(w') == Uploads(w) && Assets(w') == Assets(w)
            && w.used <= w'.used && w.now <= w'.now
            && (w'.job.token == w.job.token || w'.job.token.None? || w'.job.token.value !in w.used)
  {
    if step.Work? && Enabled(w, step) { RoundKeeps(c, w, step.worker, step.round); }
  }

  /** In every run the lease is set exactly while the job runs; every upload and every asset is counted once, by
      the job or by whoever else removed it; and a completed job leaves no upload, asset or account row. */
  lemma {:induction false} RunKeeps(c: Settings, w: World, steps: seq<Step>)
    requires Inv(w)
    ensures var w' := Run(c, w, steps);
            Inv(w') && Uploads(w') == Uploads(w) && Assets(w') == Assets(w) && w.used <= w'.used && w.now <= w'.now
    decreases |steps|
  {
    if steps != [] {
      NextKeeps(c, w, steps[0]);
      RunKeeps(c, Next(c, w, steps[0]), steps[1..]);
    }
  }

  /** A terminal job is never left and its record never changes. */
  lemma {:induction false} TerminalForever(c: Settings, w: World, steps: seq<Step>)
    requires Inv(w) && Terminal(w.job.status)
    ensures Run(c, w, steps).job == w.job
    decreases |steps|
  {
    if steps != [] {
      NextKeeps(c, w, steps[0]);
      TerminalForever(c, Next(c, w, steps[0]), steps[1..]);
    }
  }

  /** A token that was drawn and is not the current one never becomes current again. */
  lemma {:induction false} SupersededForever(c: Settings, w: World, steps: seq<Step>, token: Token)
    requires Inv(w) && token in w.used && w.job.token != Some(token)
    ensures Run(c, w, steps).job.token != Some(token)
    decreases |steps|
  {
    if steps != [] {
      NextKeeps(c, w, steps[0]);
      SupersededForever(c, Next(c, w, steps[0]), steps[1..], token);
    }
  }

  /** Fencing: once another claim has superseded a worker, or its lease has been given up, nothing it still does
      changes anything, at any later time. */
  lemma SupersededWorkerChangesNothing(c: Settings, w: World, steps: seq<Step>, token: Token, round: Round)
    requires Inv(w) && token in w.used && w.job.token != Some(token)
    ensures var s := Run(c, w, steps); Next(c, s, Work(token, round)) == s && Next(c, s, Finish(token)) == s
  {
    SupersededForever(c, w, steps, token);
  }

  // ---------------------------------------------------------------- progress

  /** Every job that is listed can be claimed. */
  lemma DueIsClaimable(job: Job, now: int)
    requires Due(job, now)
    ensures Claimable(job, now)
  {
  }

  /** A job that is not terminal is listed from the latest of its three dates on, and before that date only a
      delivery that was already published can claim it. */
  lemma BecomesDue(w: World)
    requires Inv(w) && !Terminal(w.job.status)
    ensures var date := Max(Max(w.job.notBefore, w.job.nextAttempt),
            if w.job.expires.Some? then w.job.expires.value else w.job.notBefore);
            && (Due(w.job, w.now) <==> w.now >= date)
            && (Claimable(w.job, w.now) && w.now < date ==> w.job.status.Queued?)
  {
  }

  lemma ProductGrows(base: nat, p: nat, q: nat)
    requires 1 <= p <= q
    ensures base <= base * p <= base * q
  {
    assert base * q == base * p + base * (q - p);
  }

  /** Delays grow with the failures and stay between the smaller of base and maximum and the maximum. */
  lemma RetryDelayGrows(c: Settings, a: int, b: int)
    requires a <= b
    ensures Min(c.retryBase, c.retryMax) <= RetryDelay(c, a) <= RetryDelay(c, b) <= c.retryMax
  {
    var m, n := Min(Max(a - 1, 0), 10), Min(Max(b - 1, 0), 10);
    Power2Grows(m, n);
    ProductGrows(c.retryBase, Power2(m), Power2(n));
  }

  /** Nobody fails, holds a row lock or leaves a file: every round sees a row while there is one. */
  predicate Clean(w: World, round: Round) {
    && Possible(w, round) && !round.fails && round.legacy == 0 && round.orphans == 0
    && (w.uploads != {} ==> round.upload.Some?)
    && (w.uploads == {} && w.assets != {} ==> round.asset.Some?)
  }

  function Rows(w: World): nat { |w.uploads| + |w.assets| }

  /** A batch: the rounds one after the other until one returns, then the end of the batch. */
  function Batch(c: Settings, w: World, token: Token, rounds: seq<Round>): (World, Verdict)
    decreases |rounds|
  {
    if rounds == [] then (EndBatch(w, token), Continue)
    else
      var (after, verdict) := OneRound(c, w, token, rounds[0]);
      if verdict.Continue? then Batch(c, after, token, rounds[1..]) else (after, verdict)
  }

  predicate AllClean(c: Settings, w: World, token: Token, rounds: seq<Round>)
    decreases |rounds|
  {
    rounds == [] || (Clean(w, rounds[0]) && AllClean(c, OneRound(c, w, token, rounds[0]).0, token, rounds[1..]))
  }

  lemma CleanRound(c: Settings, w: World, token: Token, round: Round)
    requires Inv(w) && Holds(w, token) && Clean(w, round)
    ensures var (w', verdict) := OneRound(c, w, token, round);
            && Inv(w') && w'.now == w.now && w'.job.notBefore == w.job.notBefore
            && (if Rows(w) > 0
                then verdict.Continue? && Holds(w', token) && Rows(w') == Rows(w) - 1 && w'.user == w.user
                else verdict.Done? && w'.job.status.Completed?)
  {
    RoundKeeps(c, w, token, round);
  }

  /** A clean batch removes one row a round; it completes the job exactly when it has a round to spare. */
  lemma {:induction false} CleanBatch(c: Settings, w: World, token: Token, rounds: seq<Round>)
    requires Inv(w) && Holds(w, token) && AllClean(c, w, token, rounds)
    ensures var w' := Batch(c, w, token, rounds).0;
            && Inv(w') && w'.now == w.now && w'.job.notBefore == w.job.notBefore
            && (if Rows(w) < |rounds| then w'.job.status.Completed?
                else && w'.job.status.Pending? && Rows(w') == Rows(w) - |rounds|
                     && w'.job.nextAttempt == w.now && w'.used == w.used)
    decreases |rounds|
  {
    if rounds != [] {
      CleanRound(c, w, token, rounds[0]);
      RoundKeeps(c, w, token, rounds[0]);
      if Rows(w) > 0 { CleanBatch(c, OneRound(c, w, token, rounds[0]).0, token, rounds[1..]); }
    }
  }

  /** One delivery, some time after the one before: a claim followed by a batch of `rounds`. */
  datatype Delivery = Delivery(wait: nat, token: Token, rounds: seq<Round>)

  function Later(w: World, wait: nat): World {
    w.(now := w.now + wait)
  }

  function Deliver(c: Settings, w: World, d: Delivery): World {
    var due := Later(w, d.wait);
    if d.token in w.used || !Claimable(w.job, due.now) then due
    else Batch(c, Next(c, due, Claim(d.token)), d.token, d.rounds).0
  }

  function Deliveries(c: Settings, w: World, ds: seq<Delivery>): World
    decreases |ds|
  {
    if ds == [] then w else Deliveries(c, Deliver(c, w, ds[0]), ds[1..])
  }

  /** Clean deliveries with fresh tokens and full batches of `size` rounds. */
  predicate CleanDeliveries(c: Settings, w: World, ds: seq<Delivery>, size: nat)
    decreases |ds|
  {
    ds == [] || (
      && ds[0].token !in w.used && |ds[0].rounds| == size
      && AllClean(c, Next(c, Later(w, ds[0].wait), Claim(ds[0].token)), ds[0].token, ds[0].rounds)
      && CleanDeliveries(c, Deliver(c, w, ds[0]), ds[1..], size))
  }

  lemma FewerRows(rows: nat, size: nat)
    requires rows >= size >= 1
    ensures (rows - size) / size == rows / size - 1
  {
    var d := rows / size - 1 - (rows - size) / size;
    assert size * d == (rows - size) % size - rows % size;
    NoMultipleBetween(size, d);
  }

  lemma NoMultipleBetween(size: int, d: int)
    requires size > 0 && -size < size * d < size
    ensures d == 0
  {
    Scaled(size, d);
  }

  lemma Scaled(size: int, d: int)
    requires size > 0
    ensures d >= 1 ==> size * d >= size
    ensures d <= -1 ==> size * d <= -size
  {
    if d >= 1 { assert size * d == size + size * (d - 1); }
    if d <= -1 { assert size * d == -size + size * (d + 1); }
  }

  /** What can be claimed can be claimed later. */
  lemma StaysClaimable(job: Job, now: int, later: int)
    requires Claimable(job, now) && now <= later
    ensures Claimable(job, later)
  {
  }

  /** One clean delivery completes the job or removes as many rows as it has rounds and leaves it claimable. */
  lemma CleanDelivery(c: Settings, w: World, d: Delivery)
    requires Inv(w) && Claimable(w.job, w.now) && d.token !in w.used
    requires AllClean(c, Next(c, Later(w, d.wait), Claim(d.token)), d.token, d.rounds)
    ensures var w' := Deliver(c, w, d);
            if Rows(w) < |d.rounds| then w'.job.status.Completed?
            else Inv(w') && Claimable(w'.job, w'.now) && Rows(w') == Rows(w) - |d.rounds|
  {
    StaysClaimable(w.job, w.now, w.now + d.wait);
    var claimed := Next(c, Later(w, d.wait), Claim(d.token));
    assert Inv(claimed) && Rows(claimed) == Rows(w);
    CleanBatch(c, claimed, d.token, d.rounds);
  }

  /** Progress: with N rows and batches of B rounds an undisturbed job completes in exactly N / B + 1 claims, however
      far apart: not in fewer, and it stays completed. */
  lemma {:induction false} CompletesInExactly(c: Settings, w: World, ds: seq<Delivery>, size: nat)
    requires size >= 1 && Inv(w) && Claimable(w.job, w.now) && CleanDeliveries(c, w, ds, size)
    ensures Deliveries(c, w, ds).job.status.Completed? <==> |ds| >= Rows(w) / size + 1
    decreases |ds|
  {
    if ds != [] {
      CleanDelivery(c, w, ds[0]);
      var after := Deliver(c, w, ds[0]);
      if Rows(w) < size {
        CompletedStays(c, after, ds[1..]);
      } else {
        FewerRows(Rows(w), size);
        CompletesInExactly(c, after, ds[1..], size);
      }
    }
  }

  lemma {:induction false} CompletedStays(c: Settings, w: World, ds: seq<Delivery>)
    requires w.job.status.Completed?
    ensures Deliveries(c, w, ds).job == w.job
    decreases |ds|
  {
    if ds != [] { CompletedStays(c, Deliver(c, w, ds[0]), ds[1..]); }
  }
}
