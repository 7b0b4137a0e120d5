/** Deletion intent that survives crashes and the restoration of older dumps: the marker ledger beside the
    database (backend/app/services/account_deletion.py, backend/app/api/v1/auth.py, tools/account_recovery.py).
    The keyed fingerprint is injective, so a marker names its subject. */
module Suppression {
  import opened Options

  type Subject = string
  type JobId = string
  type Request = string

  /** A completed job has no subject. */
  datatype Job = Job(subject: Option<Subject>, requestedAt: int)
  datatype Marker = Marker(subject: Subject, requestedAt: int)

  /** A deletion that holds the row of its account, with its marker durable and its job not yet committed. */
  datatype Staged = Staged(job: JobId, requestedAt: int)

  /** One committed database: accounts with "disabled_at is set", and deletion jobs. */
  datatype Database = Database(users: map<Subject, bool>, jobs: map<JobId, Job>)

  type Ledger = map<JobId, Marker>

  // ---------------------------------------------------------------- the ledger

  predicate Marked(ledger: Ledger, u: Subject) {
    exists j | j in ledger :: ledger[j].subject == u
  }

  /** No subject is marked under two job ids; otherwise every read of the ledger raises. */
  ghost predicate Readable(ledger: Ledger) {
    forall i, j :: i in ledger && j in ledger && i != j ==> ledger[i].subject != ledger[j].subject
  }

  predicate HasJob(db: Database, u: Subject) {
    exists j | j in db.jobs :: db.jobs[j].subject == Some(u)
  }

  ghost function JobOf(db: Database, u: Subject): (r: Option<JobId>)
    ensures r.Some? ==> r.value in db.jobs && db.jobs[r.value].subject == Some(u)
    ensures r.None? ==> !HasJob(db, u)
  {
    if j :| j in db.jobs && db.jobs[j].subject == Some(u) then Some(j) else None
  }

  /** prepare_account_deletion: an existing job of the subject is returned and nothing changes. */
  function Prepared(db: Database, u: Subject, j: JobId, at: int): Database {
    if HasJob(db, u) then db else Database(db.users[u := true], db.jobs[j := Job(Some(u), at)])
  }

  /** What reconciling is for: every surviving marked account disabled, every job of a surviving marked account
      present, everything else as it was. */
  function Reconciled(db: Database, ledger: Ledger): Database {
    Database(
      map u | u in db.users :: db.users[u] || Marked(ledger, u),
      map j | j in db.jobs.Keys + ledger.Keys && (j in db.jobs || ledger[j].subject in db.users) ::
        if j in db.jobs then db.jobs[j] else Job(Some(ledger[j].subject), ledger[j].requestedAt))
  }

  /** The markers a reconciliation gets to: those of accounts whose rows no open deletion holds. */
  function Within(ledger: Ledger, busy: set<Subject>): Ledger {
    map j | j in ledger && ledger[j].subject !in busy :: ledger[j]
  }

  // ---------------------------------------------------------------- whole installations

  /** `inflight` are deletion requests that have passed authentication, `begun` the staged ones by account. */
  datatype World = World(
    db: Database,
    ledger: Ledger,
    dumps: seq<Database>,
    inflight: map<Request, Subject>,
    begun: map<Subject, Staged>,
    usedSubjects: set<Subject>,
    usedJobs: set<JobId>)

  /** Authentication: an enabled account, and a ledger that can be read and does not name it. */
  ghost predicate Access(w: World, u: Subject) {
    u in w.db.users && !w.db.users[u] && Readable(w.ledger) && !Marked(w.ledger, u)
  }

  datatype Step =
    | Register(u: Subject)
    | Authenticate(q: Request, u: Subject)
    | Begin(q: Request, j: JobId, at: int)
    | Finish(u: Subject, committed: bool)
    | Reconcile
    | Complete(j: JobId)
    | Recover(u: Subject)
    | Dump
    | RestoreDump(k: nat)

  ghost predicate Enabled(w: World, step: Step) {
    match step
    case Register(u) => u !in w.usedSubjects
    case Authenticate(q, u) => Access(w, u) && q !in w.inflight
    case Begin(q, j, at) => q in w.inflight && w.inflight[q] !in w.begun && j !in w.usedJobs
    case Finish(u, committed) => u in w.begun
    case Reconcile => Readable(w.ledger)
    case Complete(j) => j in w.db.jobs && w.db.jobs[j].subject.Some? && w.db.jobs[j].subject.value !in w.begun
    case Recover(u) =>
      u in w.db.users && u !in w.begun && Readable(w.ledger) && !Marked(w.ledger, u) && !HasJob(w.db, u)
    case Dump => true
    case RestoreDump(k) => k < |w.dumps|
  }

  /** The request after it has locked the account: nothing for an account that is gone or already being deleted,
      otherwise the job is staged and its marker written before the commit. A job that exists already keeps its id. */
  ghost function Begun(w: World, u: Subject, j: JobId, at: int): World {
    if u !in w.db.users || (HasJob(w.db, u) && w.db.users[u]) then w
    else
      var existing := JobOf(w.db, u);
      var id := if existing.Some? then existing.value else j;
      var marker := Marker(u, if existing.Some? then w.db.jobs[id].requestedAt else at);
      if id in w.ledger && w.ledger[id] != marker then w
      else w.(ledger := w.ledger[id := marker], begun := w.begun[u := Staged(id, marker.requestedAt)],
          usedJobs := w.usedJobs + {j})
  }

  ghost function Next(w: World, step: Step): World
    requires Enabled(w, step)
  {
    match step
    case Register(u) => w.(db := w.db.(users := w.db.users[u := false]), usedSubjects := w.usedSubjects + {u})
    case Authenticate(q, u) => w.(inflight := w.inflight[q := u])
    case Begin(q, j, at) => Begun(w.(inflight := w.inflight - {q}), w.inflight[q], j, at)
    case Finish(u, committed) =>
      w.(begun := w.begun - {u}, db := if committed then Prepared(w.db, u, w.begun[u].job, w.begun[u].requestedAt)
          else w.db)
    case Reconcile => w.(db := Reconciled(w.db, Within(w.ledger, w.begun.Keys)))
    case Complete(j) =>
      w.(db := Database(w.db.users - {w.db.jobs[j].subject.value}, w.db.jobs[j := w.db.jobs[j].(subject := None)]))
    case Recover(u) => w.(db := w.db.(users := w.db.users[u := false]))
    case Dump => w.(dumps := w.dumps + [w.db])
    case RestoreDump(k) => w.(db := w.dumps[k], inflight := map[], begun := map[])
  }

  ghost function Run(w: World, steps: seq<Step>): World
    decreases |steps|
  {
    if steps == [] then w else Run(if Enabled(w, steps[0]) then Next(w, steps[0]) else w, steps[1..])
  }

  const EMPTY := World(Database(map[], map[]), map[], [], map[], map[], {}, {})

  // ---------------------------------------------------------------- the invariant

  /** Every job has its marker; a job with a subject disables it; the job of a surviving marked account names it. */
  ghost predicate DatabaseOk(db: Database, ledger: Ledger) {
    && (forall j :: j in db.jobs ==> j in ledger)
    && (forall j :: j in db.jobs && db.jobs[j].subject.Some? ==>
          && db.jobs[j].subject.value == ledger[j].subject && db.jobs[j].requestedAt == ledger[j].requestedAt)
    && (forall j :: j in db.jobs && ledger[j].subject in db.users ==>
          db.jobs[j].subject.Some? && db.users[ledger[j].subject])
  }

  ghost predicate UsersKnown(db: Database, used: set<Subject>) {
    forall u :: u in db.users ==> u in used
  }

  predicate Marks(ledger: Ledger, j: JobId, m: Marker) {
    j in ledger && ledger[j] == m
  }

  /** Markers are never removed or rewritten. */
  ghost predicate LedgerGrows(before: Ledger, after: Ledger) {
    forall j :: j in before ==> j in after && after[j] == before[j]
  }

  ghost predicate Inv(w: World) {
    && DatabaseOk(w.db, w.ledger) && UsersKnown(w.db, w.usedSubjects)
    && (forall k :: 0 <= k < |w.dumps| ==> DatabaseOk(w.dumps[k], w.ledger) && UsersKnown(w.dumps[k], w.usedSubjects))
    && (forall j :: j in w.ledger ==> j in w.usedJobs && w.ledger[j].subject in w.usedSubjects)
    && (forall u :: u in w.begun ==> Marks(w.ledger, w.begun[u].job, Marker(u, w.begun[u].requestedAt)))
    && (forall u :: u in w.begun ==> u in w.db.users && !HasJob(w.db, u) && w.begun[u].job !in w.db.jobs)
    && (forall q :: q in w.inflight ==> w.inflight[q] in w.usedSubjects)
  }

  /** A database stays sound when a marker with a fresh job id is added. */
  lemma FreshMarker(db: Database, ledger: Ledger, j: JobId, m: Marker)
    requires DatabaseOk(db, ledger) && j !in ledger
    ensures DatabaseOk(db, ledger[j := m])
  {
  }

  /** In a sound database an account with a job is disabled, so a request that goes on has no job yet. */
  lemma JobDisables(db: Database, ledger: Ledger, u: Subject)
    requires DatabaseOk(db, ledger) && HasJob(db, u) && u in db.users
    ensures db.users[u]
  {
  }

  lemma BeginKeeps(w: World, q: Request, j: JobId, at: int)
    requires Inv(w) && Enabled(w, Begin(q, j, at))
    ensures Inv(Next(w, Begin(q, j, at)))
    ensures var w' := Next(w, Begin(q, j, at));
            w'.ledger == w.ledger || w'.ledger == w.ledger[j := Marker(w.inflight[q], at)]
  {
    var u, waiting := w.inflight[q], w.(inflight := w.inflight - {q});
    if u in w.db.users && HasJob(w.db, u) { JobDisables(w.db, w.ledger, u); }
    if u in w.db.users && !HasJob(w.db, u) { StagingKeeps(waiting, u, j, at); }
  }

  /** The account has no job yet, so the marker is new. */
  lemma StagingKeeps(w: World, u: Subject, j: JobId, at: int)
    requires Inv(w) && u in w.db.users && !HasJob(w.db, u) && u !in w.begun && j !in w.usedJobs
    ensures Inv(w.(ledger := w.ledger[j := Marker(u, at)], begun := w.begun[u := Staged(j, at)],
                   usedJobs := w.usedJobs + {j}))
  {
    FreshMarkerEverywhere(w, j, Marker(u, at));
  }

  lemma FreshMarkerEverywhere(w: World, j: JobId, m: Marker)
    requires Inv(w) && j !in w.ledger
    ensures DatabaseOk(w.db, w.ledger[j := m])
    ensures forall k :: 0 <= k < |w.dumps| ==> DatabaseOk(w.dumps[k], w.ledger[j := m])
  {
    FreshMarker(w.db, w.ledger, j, m);
    forall k | 0 <= k < |w.dumps|
      ensures DatabaseOk(w.dumps[k], w.ledger[j := m])
    {
      FreshMarker(w.dumps[k], w.ledger, j, m);
    }
  }

  lemma FinishKeeps(w: World, u: Subject, committed: bool)
    requires Inv(w) && Enabled(w, Finish(u, committed))
    ensures Inv(Next(w, Finish(u, committed)))
  {
    var db := Prepared(w.db, u, w.begun[u].job, w.begun[u].requestedAt);
    assert forall v :: v != u && HasJob(db, v) ==> HasJob(w.db, v);
    assert DatabaseOk(db, w.ledger);
  }

  lemma ReconciledOk(db: Database, ledger: Ledger, busy: set<Subject>)
    requires DatabaseOk(db, ledger)
    ensures DatabaseOk(Reconciled(db, Within(ledger, busy)), ledger)
  {
  }

  /** Reconciling past an open deletion leaves its account without a job, as the open deletion found it. */
  lemma ReconciledSparesBusy(db: Database, ledger: Ledger, busy: set<Subject>, u: Subject)
    requires u in busy
    ensures var after := Reconciled(db, Within(ledger, busy));
            && (HasJob(after, u) <==> HasJob(db, u))
            && (u in after.users <==> u in db.users) && (u in db.users ==> after.users[u] == db.users[u])
            && (forall j :: j in ledger && ledger[j].subject == u ==> (j in after.jobs <==> j in db.jobs))
  {
    var after := Reconciled(db, Within(ledger, busy));
    if j :| j in db.jobs && db.jobs[j].subject == Some(u) { assert after.jobs[j] == db.jobs[j]; }
  }

  lemma ReconcileKeeps(w: World)
    requires Inv(w) && Enabled(w, Reconcile)
    ensures Inv(Next(w, Reconcile))
  {
    ReconciledOk(w.db, w.ledger, w.begun.Keys);
    forall u | u in w.begun
      ensures u in Next(w, Reconcile).db.users && !HasJob(Next(w, Reconcile).db, u)
      ensures w.begun[u].job !in Next(w, Reconcile).db.jobs
    {
      ReconciledSparesBusy(w.db, w.ledger, w.begun.Keys, u);
    }
  }

  lemma CompleteKeeps(w: World, j: JobId)
    requires Inv(w) && Enabled(w, Complete(j))
    ensures Inv(Next(w, Complete(j)))
  {
    var w' := Next(w, Complete(j));
    assert DatabaseOk(w'.db, w.ledger);
    assert forall v :: HasJob(w'.db, v) ==> HasJob(w.db, v);
  }

  lemma NextKeeps(w: World, step: Step)
    requires Inv(w) && Enabled(w, step)
    ensures Inv(Next(w, step)) && LedgerGrows(w.ledger, Next(w, step).ledger)
  {
    match step
    case Begin(q, j, at) => BeginKeeps(w, q, j, at);
    case Finish(u, committed) => FinishKeeps(w, u, committed);
    case Reconcile => ReconcileKeeps(w);
    case Complete(j) => CompleteKeeps(w, j);
    case Dump => DumpKeeps(w, step);
    case RestoreDump(k) => DumpKeeps(w, step);
    case Recover(u) => RecoverKeeps(w, u);
    case _ => AccessKeeps(w, step);
  }

  lemma RecoverKeeps(w: World, u: Subject)
    requires Inv(w) && Enabled(w, Recover(u))
    ensures Inv(Next(w, Recover(u)))
  {
    assert DatabaseOk(Next(w, Recover(u)).db, w.ledger);
  }

  lemma AccessKeeps(w: World, step: Step)
    requires Inv(w) && Enabled(w, step) && (step.Register? || step.Authenticate?)
    ensures Inv(Next(w, step))
  {
  }

  lemma DumpKeeps(w: World, step: Step)
    requires Inv(w) && Enabled(w, step) && (step.Dump? || step.RestoreDump?)
    ensures Inv(Next(w, step))
  {
  }

  lemma {:induction false} RunKeeps(w: World, steps: seq<Step>)
    requires Inv(w)
    ensures Inv(Run(w, steps)) && LedgerGrows(w.ledger, Run(w, steps).ledger)
    decreases |steps|
  {
    if steps != [] {
      if Enabled(w, steps[0]) { NextKeeps(w, steps[0]); }
      RunKeeps(if Enabled(w, steps[0]) then Next(w, steps[0]) else w, steps[1..]);
    }
  }

  // ---------------------------------------------------------------- what the ledger guarantees

  /** Access is denied from the moment the marker is durable, through crashes, dumps, administrators and all. */
  lemma DeniedForever(w: World, steps: seq<Step>, u: Subject)
    requires Inv(w) && Marked(w.ledger, u)
    ensures !Access(Run(w, steps), u)
  {
    RunKeeps(w, steps);
    var j :| j in w.ledger && w.ledger[j].subject == u;
    assert Run(w, steps).ledger[j].subject == u;
  }

  /** What reconciliation brings back: every marked account that exists and that no open deletion holds is
      disabled and has a job. */
  ghost predicate IntentHolds(db: Database, ledger: Ledger, busy: set<Subject>) {
    forall u :: u in db.users && Marked(ledger, u) && u !in busy ==> db.users[u] && HasJob(db, u)
  }

  /** Accounts without a marker, accounts that an open deletion holds, and jobs that exist are as they were. */
  ghost predicate OthersUntouched(before: Database, after: Database, ledger: Ledger, busy: set<Subject>) {
    && after.users.Keys == before.users.Keys
    && (forall u :: u in before.users && (u in busy || !Marked(ledger, u)) ==>
          after.users[u] == before.users[u] && (HasJob(after, u) <==> HasJob(before, u)))
    && (forall j :: j in before.jobs ==> j in after.jobs && after.jobs[j] == before.jobs[j])
  }

  lemma ReconciledHolds(db: Database, ledger: Ledger, busy: set<Subject>)
    requires DatabaseOk(db, ledger)
    ensures IntentHolds(Reconciled(db, Within(ledger, busy)), ledger, busy)
  {
    var after := Reconciled(db, Within(ledger, busy));
    forall u | u in after.users && Marked(ledger, u) && u !in busy
      ensures after.users[u] && HasJob(after, u)
    {
      var j :| j in ledger && ledger[j].subject == u;
      assert j in Within(ledger, busy) && Within(ledger, busy)[j].subject == u;
      assert j in after.jobs && after.jobs[j].subject == Some(u);
    }
  }

  lemma ReconciledSpares(db: Database, ledger: Ledger, busy: set<Subject>)
    ensures OthersUntouched(db, Reconciled(db, Within(ledger, busy)), ledger, busy)
  {
    var after := Reconciled(db, Within(ledger, busy));
    forall u | u in db.users && (u in busy || !Marked(ledger, u))
      ensures after.users[u] == db.users[u] && (HasJob(after, u) <==> HasJob(db, u))
    {
      if u in busy {
        ReconciledSparesBusy(db, ledger, busy, u);
      } else {
        ReconciledSparesUnmarked(db, ledger, busy, u);
      }
    }
  }

  lemma ReconciledSparesUnmarked(db: Database, ledger: Ledger, busy: set<Subject>, u: Subject)
    requires u in db.users && !Marked(ledger, u)
    ensures var after := Reconciled(db, Within(ledger, busy));
            after.users[u] == db.users[u] && (HasJob(after, u) <==> HasJob(db, u))
  {
    var after := Reconciled(db, Within(ledger, busy));
    if j :| j in db.jobs && db.jobs[j].subject == Some(u) { assert after.jobs[j] == db.jobs[j]; }
  }

  /** In every run, a reconciliation leaves every surviving account with a marker disabled and with a job, unless a
      deletion of that very account stands between its marker and its commit; it leaves all other accounts
      untouched, and a second one nothing to do. */
  lemma ReconcileRestoresIntent(steps: seq<Step>)
    requires Enabled(Run(EMPTY, steps), Reconcile)
    ensures var w := Run(EMPTY, steps);
            var after := Next(w, Reconcile);
            && IntentHolds(after.db, w.ledger, w.begun.Keys)
            && OthersUntouched(w.db, after.db, w.ledger, w.begun.Keys)
            && Enabled(after, Reconcile) && Next(after, Reconcile) == after
  {
    RunKeeps(EMPTY, steps);
    var w := Run(EMPTY, steps);
    ReconciledHolds(w.db, w.ledger, w.begun.Keys);
    ReconciledSpares(w.db, w.ledger, w.begun.Keys);
    ReconciledTwice(w.db, Within(w.ledger, w.begun.Keys));
  }

  lemma ReconciledTwice(db: Database, ledger: Ledger)
    ensures Reconciled(Reconciled(db, ledger), ledger) == Reconciled(db, ledger)
  {
    var once := Reconciled(db, ledger);
    assert Reconciled(once, ledger).jobs == once.jobs;
  }

  // ---------------------------------------------------------------- when the ledger stays readable

  /** Some marker of the subject stands under another job id. */
  ghost predicate MarkedElsewhere(ledger: Ledger, u: Subject, j: JobId) {
    exists i :: i in ledger && i != j && ledger[i].subject == u
  }

  /** Exactly when a write keeps the ledger readable. */
  lemma MarkerKeepsReadable(ledger: Ledger, u: Subject, j: JobId, at: int)
    requires Readable(ledger) && j !in ledger
    ensures Readable(ledger[j := Marker(u, at)]) <==> !MarkedElsewhere(ledger, u, j)
  {
    var after := ledger[j := Marker(u, at)];
    if MarkedElsewhere(ledger, u, j) {
      var i :| i in ledger && i != j && ledger[i].subject == u;
      assert after[i].subject == after[j].subject;
    }
  }

  ghost function Step1(w: World, step: Step): World {
    if Enabled(w, step) then Next(w, step) else w
  }

  lemma RunFirst(w: World, step: Step, rest: seq<Step>)
    ensures Run(w, [step] + rest) == Run(Step1(w, step), rest)
  {
    assert ([step] + rest)[1..] == rest;
  }

  /** Two deletion requests of one account pass authentication, and the commit of the first is lost. */
  function LostCommit(q1: Request, q2: Request, u: Subject, j1: JobId, j2: JobId, at: int): seq<Step> {
    [Authenticate(q1, u)] + ([Authenticate(q2, u)]
    + ([Begin(q1, j1, at)] + ([Finish(u, false)] + ([Begin(q2, j2, at)] + []))))
  }

  lemma BothAuthenticate(w: World, q1: Request, q2: Request, u: Subject) returns (w': World)
    requires Access(w, u) && q1 != q2 && q1 !in w.inflight && q2 !in w.inflight
    ensures w' == Step1(Step1(w, Authenticate(q1, u)), Authenticate(q2, u))
    ensures w' == w.(inflight := w.inflight[q1 := u][q2 := u])
  {
    w' := w.(inflight := w.inflight[q1 := u][q2 := u]);
  }

  lemma MarkAndLose(w: World, q: Request, u: Subject, j: JobId, at: int) returns (w': World)
    requires (forall i :: i in w.ledger ==> i in w.usedJobs) && q in w.inflight && w.inflight[q] == u
             && u !in w.begun && j !in w.usedJobs
    requires u in w.db.users && !HasJob(w.db, u)
    ensures w' == Step1(Step1(w, Begin(q, j, at)), Finish(u, false))
    ensures w' == w.(inflight := w.inflight - {q}, ledger := w.ledger[j := Marker(u, at)], usedJobs := w.usedJobs + {j})
  {
    assert JobOf(w.db, u).None?;
    var begun := Step1(w, Begin(q, j, at));
    assert begun.begun - {u} == w.begun;
    w' := Step1(begun, Finish(u, false));
  }

  /** From any moment at which an account has access, such a pair of requests leaves two markers of one subject:
      from then on no account at all can sign in, and no reconciliation runs. */
  lemma LostCommitLocksEverybody(w: World, q1: Request, q2: Request, u: Subject, j1: JobId, j2: JobId, at: int,
                                 later: seq<Step>, v: Subject)
    requires Inv(w) && Access(w, u) && u !in w.begun
    requires q1 != q2 && q1 !in w.inflight && q2 !in w.inflight
    requires j1 != j2 && j1 !in w.usedJobs && j2 !in w.usedJobs
    ensures var s := Run(w, LostCommit(q1, q2, u, j1, j2, at));
            !Access(Run(s, later), v) && !Enabled(Run(s, later), Reconcile)
  {
    var s := TwoMarkers(w, q1, q2, u, j1, j2, at);
    TwoMarkersForever(s, u, j1, j2, later);
  }

  lemma TwoMarkers(w: World, q1: Request, q2: Request, u: Subject, j1: JobId, j2: JobId, at: int) returns (s: World)
    requires Inv(w) && Access(w, u) && u !in w.begun
    requires q1 != q2 && q1 !in w.inflight && q2 !in w.inflight
    requires j1 != j2 && j1 !in w.usedJobs && j2 !in w.usedJobs
    ensures s == Run(w, LostCommit(q1, q2, u, j1, j2, at)) && Inv(s)
    ensures j1 in s.ledger && j2 in s.ledger && s.ledger[j1].subject == u && s.ledger[j2].subject == u
  {
    var w4 := LostCommitRuns(w, q1, q2, u, j1, j2, at);
    s := Step1(w4, Begin(q2, j2, at));
    RunKeeps(w, LostCommit(q1, q2, u, j1, j2, at));
    SecondMarker(w4, q2, u, j1, j2, at);
  }

  lemma LostCommitRuns(w: World, q1: Request, q2: Request, u: Subject, j1: JobId, j2: JobId, at: int)
    returns (w': World)
    requires Inv(w) && Access(w, u) && u !in w.begun
    requires q1 != q2 && q1 !in w.inflight && q2 !in w.inflight && j1 !in w.usedJobs
    ensures Run(w, LostCommit(q1, q2, u, j1, j2, at)) == Step1(w', Begin(q2, j2, at))
    ensures w' == w.(inflight := w.inflight[q1 := u][q2 := u] - {q1}, ledger := w.ledger[j1 := Marker(u, at)],
                     usedJobs := w.usedJobs + {j1})
    ensures !HasJob(w.db, u)
  {
    var steps := LostCommit(q1, q2, u, j1, j2, at);
    RunFirst(w, Authenticate(q1, u), steps[1..]);
    RunFirst(Step1(w, Authenticate(q1, u)), Authenticate(q2, u), steps[2..]);
    var w2 := BothAuthenticate(w, q1, q2, u);
    NoJobWhenEnabled(w, u);
    RunFirst(w2, Begin(q1, j1, at), steps[3..]);
    RunFirst(Step1(w2, Begin(q1, j1, at)), Finish(u, false), steps[4..]);
    w' := MarkAndLose(w2, q1, u, j1, at);
    RunFirst(w', Begin(q2, j2, at), []);
  }

  lemma SecondMarker(w: World, q: Request, u: Subject, j1: JobId, j2: JobId, at: int)
    requires q in w.inflight && w.inflight[q] == u && u !in w.begun && j2 !in w.usedJobs && j1 != j2
    requires u in w.db.users && !HasJob(w.db, u) && j1 in w.ledger && w.ledger[j1].subject == u
    requires j2 !in w.ledger
    ensures var w' := Step1(w, Begin(q, j2, at));
            && j1 in w'.ledger && j2 in w'.ledger
            && w'.ledger[j1].subject == u && w'.ledger[j2].subject == u
  {
    assert JobOf(w.db, u).None?;
  }

  lemma TwoMarkersForever(w: World, u: Subject, j1: JobId, j2: JobId, steps: seq<Step>)
    requires Inv(w) && j1 != j2 && j1 in w.ledger && j2 in w.ledger
    requires w.ledger[j1].subject == u && w.ledger[j2].subject == u
    ensures !Readable(Run(w, steps).ledger)
  {
    RunKeeps(w, steps);
    assert Run(w, steps).ledger[j1].subject == Run(w, steps).ledger[j2].subject;
  }

  lemma NoJobWhenEnabled(w: World, u: Subject)
    requires Inv(w) && u in w.db.users && !w.db.users[u]
    ensures !HasJob(w.db, u)
  {
    if HasJob(w.db, u) { JobDisables(w.db, w.ledger, u); }
  }

  /** An account that registers can sign in, as long as the ledger can be read. */
  lemma NewAccountHasAccess(w: World, u: Subject)
    requires Inv(w) && Readable(w.ledger) && u !in w.usedSubjects
    ensures Access(Next(w, Register(u)), u)
  {
  }

  /** One deletion request, from authentication to its commit. */
  function Deletion(q: Request, u: Subject, j: JobId, at: int): seq<Step> {
    [Authenticate(q, u)] + ([Begin(q, j, at)] + ([Finish(u, true)] + []))
  }

  /** A request of an account with access goes through: one marker and one job of the time it was made, the account is
      disabled, and nothing else has changed. */
  lemma DeletionGoesThrough(w: World, q: Request, u: Subject, j: JobId, at: int)
    requires Inv(w) && Access(w, u) && u !in w.begun && q !in w.inflight && j !in w.usedJobs
    ensures Run(w, Deletion(q, u, j, at))
            == w.(ledger := w.ledger[j := Marker(u, at)], usedJobs := w.usedJobs + {j},
                  db := Database(w.db.users[u := true], w.db.jobs[j := Job(Some(u), at)]))
  {
    var steps := Deletion(q, u, j, at);
    NoJobWhenEnabled(w, u);
    RunFirst(w, Authenticate(q, u), steps[1..]);
    var asked := Step1(w, Authenticate(q, u));
    assert asked.inflight - {q} == w.inflight;
    RunFirst(asked, Begin(q, j, at), steps[2..]);
    RunFirst(Step1(asked, Begin(q, j, at)), Finish(u, true), []);
    var done := MarkAndCommit(asked, q, u, j, at);
  }

  lemma MarkAndCommit(w: World, q: Request, u: Subject, j: JobId, at: int) returns (w': World)
    requires (forall i :: i in w.ledger ==> i in w.usedJobs) && q in w.inflight && w.inflight[q] == u
             && u !in w.begun && j !in w.usedJobs
    requires u in w.db.users && !HasJob(w.db, u)
    ensures w' == Step1(Step1(w, Begin(q, j, at)), Finish(u, true))
    ensures w' == w.(inflight := w.inflight - {q}, ledger := w.ledger[j := Marker(u, at)],
                     usedJobs := w.usedJobs + {j},
                     db := Database(w.db.users[u := true], w.db.jobs[j := Job(Some(u), at)]))
  {
    assert JobOf(w.db, u).None?;
    var begun := Step1(w, Begin(q, j, at));
    assert begun.begun - {u} == w.begun;
    w' := Step1(begun, Finish(u, true));
  }

  /** At most one deletion request of an account is in flight, and none once the account is marked. */
  ghost predicate SingleFlight(w: World) {
    && (forall q, p :: q in w.inflight && p in w.inflight && q != p ==> w.inflight[q] != w.inflight[p])
    && (forall q :: q in w.inflight ==> !Marked(w.ledger, w.inflight[q]))
  }

  /** The step authenticates no second request of an account whose first is still in flight. */
  ghost predicate KeepsSingle(w: World, step: Step) {
    step.Authenticate? ==> forall q :: q in w.inflight ==> w.inflight[q] != step.u
  }

  ghost predicate OneAtATime(w: World, steps: seq<Step>)
    decreases |steps|
  {
    steps == [] || (KeepsSingle(w, steps[0])
                    && OneAtATime(if Enabled(w, steps[0]) then Next(w, steps[0]) else w, steps[1..]))
  }

  lemma SingleStep(w: World, step: Step)
    requires Inv(w) && SingleFlight(w) && Readable(w.ledger) && KeepsSingle(w, step) && Enabled(w, step)
    ensures SingleFlight(Next(w, step)) && Readable(Next(w, step).ledger)
  {
    if step.Begin? {
      BeginKeeps(w, step.q, step.j, step.at);
      MarkerKeepsReadable(w.ledger, w.inflight[step.q], step.j, step.at);
    }
  }

  /** While requests of one account come one at a time the ledger stays readable, whatever is lost or restored. */
  lemma {:induction false} OneAtATimeStaysReadable(w: World, steps: seq<Step>)
    requires Inv(w) && SingleFlight(w) && Readable(w.ledger) && OneAtATime(w, steps)
    ensures Readable(Run(w, steps).ledger)
    decreases |steps|
  {
    if steps != [] {
      if Enabled(w, steps[0]) {
        NextKeeps(w, steps[0]);
        SingleStep(w, steps[0]);
      }
      OneAtATimeStaysReadable(if Enabled(w, steps[0]) then Next(w, steps[0]) else w, steps[1..]);
    }
  }
}
