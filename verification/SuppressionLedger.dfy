/** Reading the marker ledger and reconciling the database with it, as the loops the backend runs
    (backend/app/services/account_deletion.py). */
module SuppressionLedger {
  import opened Options
  import opened Suppression

  /** The part of the ledger whose job ids are in `ids`. */
  ghost function Restrict(ledger: Ledger, ids: set<JobId>): Ledger {
    map j | j in ledger && j in ids :: ledger[j]
  }

  /** With only the markers of existing jobs there is nothing to reconcile. */
  lemma NothingMissing(db: Database, ledger: Ledger)
    requires DatabaseOk(db, ledger)
    ensures Reconciled(db, Restrict(ledger, db.jobs.Keys)) == db
  {
    var part := Restrict(ledger, db.jobs.Keys);
    assert forall u :: u in db.users && Marked(part, u) ==> db.users[u];
    assert Reconciled(db, part).users == db.users;
    assert Reconciled(db, part).jobs == db.jobs;
  }

  lemma RestrictedMarks(ledger: Ledger, ids: set<JobId>, j: JobId, u: Subject)
    requires j in ledger
    ensures Marked(Restrict(ledger, ids + {j}), u) <==> Marked(Restrict(ledger, ids), u) || u == ledger[j].subject
  {
    var part, more := Restrict(ledger, ids), Restrict(ledger, ids + {j});
    assert more[j].subject == ledger[j].subject;
    if i :| i in part && part[i].subject == u { assert more[i].subject == u; }
    if i :| i in more && more[i].subject == u && i != j { assert part[i].subject == u; }
  }

  /** In a readable ledger no other marker has brought a job for this subject yet. */
  lemma NoJobYet(db: Database, ledger: Ledger, done: set<JobId>, j: JobId)
    requires DatabaseOk(db, ledger) && Readable(ledger) && db.jobs.Keys <= done && j in ledger && j !in done
    ensures !HasJob(Reconciled(db, Restrict(ledger, done)), ledger[j].subject)
  {
  }

  lemma MoreUsers(db: Database, ledger: Ledger, done: set<JobId>, j: JobId)
    requires j in ledger && ledger[j].subject in db.users
    ensures Reconciled(db, Restrict(ledger, done)).users[ledger[j].subject := true]
            == Reconciled(db, Restrict(ledger, done + {j})).users
  {
    forall v
      ensures Marked(Restrict(ledger, done + {j}), v) <==> Marked(Restrict(ledger, done), v) || v == ledger[j].subject
    {
      RestrictedMarks(ledger, done, j, v);
    }
  }

  lemma MoreJobs(db: Database, ledger: Ledger, done: set<JobId>, j: JobId)
    requires j in ledger && j !in db.jobs && ledger[j].subject in db.users
    ensures Reconciled(db, Restrict(ledger, done)).jobs[j := Job(Some(ledger[j].subject), ledger[j].requestedAt)]
            == Reconciled(db, Restrict(ledger, done + {j})).jobs
  {
  }

  /** Preparing the job of the next missing marker is reconciling with one more marker. */
  lemma OneMoreMarker(db: Database, ledger: Ledger, done: set<JobId>, j: JobId)
    requires DatabaseOk(db, ledger) && Readable(ledger) && db.jobs.Keys <= done && j in ledger && j !in done
    requires ledger[j].subject in db.users
    ensures Prepared(Reconciled(db, Restrict(ledger, done)), ledger[j].subject, j, ledger[j].requestedAt)
            == Reconciled(db, Restrict(ledger, done + {j}))
  {
    NoJobYet(db, ledger, done, j);
    MoreUsers(db, ledger, done, j);
    MoreJobs(db, ledger, done, j);
  }

  /** The marker of an account that no longer exists changes nothing. */
  lemma OrphanMarker(db: Database, ledger: Ledger, done: set<JobId>, j: JobId)
    requires j in ledger && j !in db.jobs && ledger[j].subject !in db.users
    ensures Reconciled(db, Restrict(ledger, done)) == Reconciled(db, Restrict(ledger, done + {j}))
  {
    OrphanJobs(db, ledger, done, j);
    forall v | v in db.users
      ensures Marked(Restrict(ledger, done + {j}), v) <==> Marked(Restrict(ledger, done), v)
    {
      RestrictedMarks(ledger, done, j, v);
    }
    assert Reconciled(db, Restrict(ledger, done)).users == Reconciled(db, Restrict(ledger, done + {j})).users;
  }

  lemma OrphanJobs(db: Database, ledger: Ledger, done: set<JobId>, j: JobId)
    requires j in ledger && j !in db.jobs && ledger[j].subject !in db.users
    ensures Reconciled(db, Restrict(ledger, done)).jobs == Reconciled(db, Restrict(ledger, done + {j})).jobs
  {
  }

  /** The job ids dealt with after a prefix of the files: those that had a job and those of accounts that are free. */
  ghost function Handled(ledger: Ledger, existing: set<JobId>, busy: set<Subject>, files: seq<JobId>): set<JobId> {
    existing + (set j | j in files && j in ledger && ledger[j].subject !in busy)
  }

  lemma NextFile(ledger: Ledger, existing: set<JobId>, busy: set<Subject>, files: seq<JobId>, k: nat)
    requires k < |files| && files[k] in ledger && forall i, j :: 0 <= i < j < |files| ==> files[i] != files[j]
    ensures var before := Handled(ledger, existing, busy, files[..k]);
            var after := Handled(ledger, existing, busy, files[..k + 1]);
            && existing <= before
            && (if files[k] in existing || ledger[files[k]].subject in busy then after == before
                else files[k] !in before && after == before + {files[k]})
  {
    assert files[..k + 1] == files[..k] + [files[k]];
  }

  /** When every file has been handled the database is the reconciled one: markers of jobs that exist add nothing. */
  lemma AllHandled(db: Database, ledger: Ledger, busy: set<Subject>, files: seq<JobId>)
    requires DatabaseOk(db, ledger) && forall j :: j in files <==> j in ledger
    ensures Reconciled(db, Restrict(ledger, Handled(ledger, db.jobs.Keys, busy, files)))
            == Reconciled(db, Within(ledger, busy))
  {
    var part, free := Restrict(ledger, Handled(ledger, db.jobs.Keys, busy, files)), Within(ledger, busy);
    forall u | u in db.users
      ensures db.users[u] || Marked(part, u) <==> db.users[u] || Marked(free, u)
    {
      if j :| j in part && part[j].subject == u && j !in db.jobs { assert j in free && free[j].subject == u; }
      if j :| j in free && free[j].subject == u { assert j in part && part[j].subject == u; }
    }
    assert Reconciled(db, part).users == Reconciled(db, free).users;
    assert Reconciled(db, part).jobs == Reconciled(db, free).jobs;
  }

  class Registry {
    var users: map<Subject, bool>
    var jobs: map<JobId, Job>
    var ledger: Ledger

    ghost function Db(): Database
      reads this`users, this`jobs
    {
      Database(users, jobs)
    }

    constructor (db: Database, ledger: Ledger)
      ensures Db() == db && this.ledger == ledger
    {
      users, jobs, this.ledger := db.users, db.jobs, ledger;
    }

    /** The records cover the ledger, each once. */
    ghost predicate Covers(records: seq<JobId>)
      reads this`ledger
    {
      && (forall j :: j in records <==> j in ledger)
      && (forall i, k :: 0 <= i < k < |records| ==> records[i] != records[k])
    }

    /** read_suppression_markers over the files in the order the directory listed them: a subject that appears
        under two job ids makes the whole ledger invalid. */
    method ReadMarkers(files: seq<JobId>) returns (r: Result<seq<JobId>, string>)
      requires Covers(files)
      ensures r.Ok? <==> Readable(ledger)
      ensures r.Ok? ==> r.value == files
    {
      var seen: map<Subject, JobId> := map[];
      for k := 0 to |files|
        invariant forall i :: 0 <= i < k ==>
                    ledger[files[i]].subject in seen && seen[ledger[files[i]].subject] == files[i]
        invariant forall u :: u in seen ==> seen[u] in files[..k] && seen[u] in ledger && ledger[seen[u]].subject == u
      {
        var job := files[k];
        assert job in files;
        var subject := ledger[job].subject;
        if subject !in seen { seen := seen[subject := job]; }
        assert files[..k + 1] == files[..k] + [job];
        if seen[subject] != job { return Err("Account-deletion suppression ledger is invalid"); }
      }
      forall i, j | i in ledger && j in ledger && i != j
        ensures ledger[i].subject != ledger[j].subject
      {
        assert i in files && j in files;
      }
      return Ok(files);
    }

    /** suppression_subject_is_denied. */
    method SubjectIsDenied(files: seq<JobId>, u: Subject) returns (r: Result<bool, string>)
      requires Covers(files)
      ensures r.Ok? <==> Readable(ledger)
      ensures r.Ok? ==> r.value == Marked(ledger, u)
    {
      var records := ReadMarkers(files);
      if records.Err? { return Err(records.error); }
      for k := 0 to |files|
        invariant forall i :: 0 <= i < k ==> ledger[files[i]].subject != u
      {
        assert files[k] in files;
        if ledger[files[k]].subject == u { return Ok(true); }
      }
      return Ok(false);
    }

    /** prepare_account_deletion. */
    method PrepareAccountDeletion(u: Subject, j: JobId, at: int) returns (job: JobId)
      modifies this`users, this`jobs
      ensures Db() == Prepared(old(Db()), u, j, at)
      ensures job in jobs && jobs[job].subject == Some(u)
    {
      var todo := jobs.Keys;
      while todo != {}
        invariant todo <= jobs.Keys
        invariant forall i :: i in jobs && i !in todo ==> jobs[i].subject != Some(u)
        decreases |todo|
      {
        var i :| i in todo;
        if jobs[i].subject == Some(u) { return i; }
        todo := todo - {i};
      }
      users := users[u := true];
      jobs := jobs[j := Job(Some(u), at)];
      return j;
    }

    /** The list names the jobs that are new. */
    ghost predicate Created(before: set<JobId>, made: seq<JobId>)
      reads this`jobs
    {
      forall j :: j in made <==> j in jobs && j !in before
    }

    /** One missing marker of the loop of reconcile_suppression_ledger. */
    method ReconcileMarker(ghost was: Database, ghost done: set<JobId>, job: JobId) returns (made: seq<JobId>)
      requires DatabaseOk(was, ledger) && Readable(ledger) && was.jobs.Keys <= done && job in ledger && job !in done
      requires Db() == Reconciled(was, Restrict(ledger, done))
      modifies this`users, this`jobs
      ensures Db() == Reconciled(was, Restrict(ledger, done + {job}))
      ensures Created(old(jobs).Keys, made)
    {
      if ledger[job].subject !in users {
        OrphanMarker(was, ledger, done, job);
        return [];
      }
      OneMoreMarker(was, ledger, done, job);
      NoJobYet(was, ledger, done, job);
      var prepared := PrepareAccountDeletion(ledger[job].subject, job, ledger[job].requestedAt);
      return [job];
    }

    /** The loop of reconcile_suppression_ledger. `busy` are the accounts whose rows are locked by an open deletion
        for the whole pass. */
    method ReconcileRecords(files: seq<JobId>, busy: set<Subject>) returns (made: seq<JobId>)
      requires DatabaseOk(Db(), ledger) && Readable(ledger) && Covers(files)
      modifies this`users, this`jobs
      ensures Db() == Reconciled(old(Db()), Restrict(ledger, Handled(ledger, old(jobs).Keys, busy, files)))
      ensures Created(old(jobs).Keys, made)
    {
      ghost var was := Db();
      var existing := jobs.Keys;
      made := [];
      NothingMissing(was, ledger);
      assert Handled(ledger, existing, busy, files[..0]) == existing;
      for k := 0 to |files|
        invariant Db() == Reconciled(was, Restrict(ledger, Handled(ledger, existing, busy, files[..k])))
        invariant Created(existing, made)
      {
        assert files[k] in files;
        NextFile(ledger, existing, busy, files, k);
        if files[k] !in existing && ledger[files[k]].subject !in busy {
          var more := ReconcileMarker(was, Handled(ledger, existing, busy, files[..k]), files[k]);
          made := made + more;
        }
      }
      assert files[..|files|] == files;
    }

    /** reconcile_suppression_ledger: one pass over the missing markers, in whatever order the files are read, brings
        the database exactly to the reconciled one and names the jobs it created. */
    method ReconcileSuppressionLedger(files: seq<JobId>, busy: set<Subject>)
      returns (created: Result<seq<JobId>, string>)
      requires DatabaseOk(Db(), ledger) && Covers(files)
      modifies this`users, this`jobs
      ensures created.Ok? <==> Readable(ledger)
      ensures created.Ok? ==> Db() == Reconciled(old(Db()), Within(ledger, busy))
      ensures created.Ok? ==> Created(old(jobs).Keys, created.value)
      ensures created.Err? ==> Db() == old(Db())
    {
      var records := ReadMarkers(files);
      if records.Err? { return Err(records.error); }
      AllHandled(Db(), ledger, busy, files);
      var made := ReconcileRecords(records.value, busy);
      return Ok(made);
    }
  }
}
