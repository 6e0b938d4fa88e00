/**
 The index worker's transactions (services/index_worker/worker.py, index_document.py) on the shared
 rows, each proved against its function in IndexSteps.
 */
module IndexWorker {

  import opened Outcome
  import opened Corpus
  import opened SourceSteps
  import opened SourceWorker
  import opened IndexSteps

  method ClaimJob(store: Store, j: JobId)
    requires CanStart(store.Rows(), j)
    modifies store`jobs, store`documents
    ensures store.Rows() == Claimed(old(store.Rows()), j)
  {
    var job := store.jobs[j];
    store.jobs := store.jobs[j := job.(status := JobRunning, attempts := job.attempts + 1)];
    store.documents := store.documents[job.document := store.documents[job.document].(status := Indexing)];
  }

  // The read before the work: nothing to read raises, and an overtaken job is dropped.
  method StartProcess(store: Store, j: JobId) returns (started: Result<Option<Process>>)
    modifies store`jobs, store`documents
    ensures started.Raised? <==> !Readable(old(store.Rows()), j)
    ensures started.Returned? ==>
      var job := old(store.jobs[j]);
      if Overtaken(old(store.Rows()), old(store.documents[job.document]), job.revision, job.config)
      then started.value == None && store.Rows() == Dropped(old(store.Rows()), j)
      else started.value == Some(ProcessOf(old(store.Rows()), j)) && store.Rows() == old(store.Rows())
    ensures started.Raised? ==> store.Rows() == old(store.Rows())
  {
    if !Readable(store.Rows(), j) {
      return Raised;
    }
    var job := store.jobs[j];
    var id := job.document;
    if !Overtaken(store.Rows(), store.documents[id], job.revision, job.config) {
      return Returned(Some(Process(j, id, job.revision, store.documents[id].revision, job.config)));
    }
    store.jobs := store.jobs[j := job.(status := JobSuperseded)];
    if !OtherActiveJob(store.jobs, j, id) && store.documents[id].status == Indexing {
      store.documents := store.documents[id := store.documents[id].(status := Uploaded)];
    }
    return Returned(None);
  }

  method Publish(store: Store, p: Process) returns (published: bool)
    modifies store`jobs, store`documents, store`indexes
    ensures published == !Refused(old(store.Rows()), p)
    ensures store.Rows() == Published(old(store.Rows()), p)
  {
    if Refused(store.Rows(), p) {
      store.jobs := SupersedeJob(store.jobs, p.job);
      return false;
    }
    store.indexes := store.indexes[p.document := Index(Some(IndexedRevision(p)), true)];
    store.documents := store.documents[p.document := store.documents[p.document].(status := Ready, eligible := true)];
    if p.job in store.jobs {
      store.jobs := store.jobs[p.job := store.jobs[p.job].(status := JobCompleted)];
    }
    return true;
  }

  method Skip(store: Store, p: Process)
    modifies store`jobs, store`documents
    ensures store.Rows() == SkippedBy(old(store.Rows()), p)
  {
    if p.document in store.documents {
      store.documents := store.documents[p.document := store.documents[p.document].(status := DocumentStatus.Skipped)];
    }
    if p.job in store.jobs {
      store.jobs := store.jobs[p.job := store.jobs[p.job].(status := JobCompleted)];
    }
  }

  method FailDocumentJob(store: Store, j: JobId, failure: Failure)
    modifies store`jobs, store`documents, store`items, store`indexes
    ensures store.Rows() == AfterFailure(old(store.Rows()), j, failure)
  {
    if !Readable(store.Rows(), j) {
      return;
    }
    var job := store.jobs[j];
    var id := job.document;
    var document := store.documents[id];
    if Overtaken(store.Rows(), document, job.revision, job.config) {
      store.jobs := store.jobs[j := job.(status := JobSuperseded)];
    } else if failure.AccessDenied? {
      store.jobs := store.jobs[j := job.(status := JobStatus.JobFailed)];
      store.documents := store.documents[id := document.(status := DocumentFailed, lifecycle := ItemAccessRevoked, eligible := false)];
      if id in store.items {
        store.items := store.items[id := store.items[id].(lifecycle := ItemAccessRevoked)];
      }
      store.indexes := RetireIndex(store.indexes, id);
    } else if Retries(job, failure) {
      store.jobs := store.jobs[j := job.(status := JobQueued)];
      if document.expectedRevision == job.revision {
        store.documents := store.documents[id := document.(status := Uploaded)];
      }
    } else {
      store.jobs := store.jobs[j := job.(status := JobStatus.JobFailed)];
      store.documents := store.documents[id := document.(status := DocumentFailed)];
    }
  }

  // What becomes of a failed job: an overtaken one is dropped and changes nothing else; a transient
  // failure below its limit is queued again; any other fails. Only a refusal of access by a source that
  // is still wanted revokes the document, its item and its index.
  lemma FailureVerdict(db: Db, j: JobId, failure: Failure)
    requires Readable(db, j)
    ensures var job, after := db.jobs[j], AfterFailure(db, j, failure);
      var id := job.document;
      var overtaken := Overtaken(db, db.documents[id], job.revision, job.config);
      && j in after.jobs && id in after.documents && after.jobs == db.jobs[j := job.(status := after.jobs[j].status)]
      && (after.jobs[j].status == JobSuperseded <==> overtaken)
      && (after.jobs[j].status == JobQueued <==> !overtaken && failure.Transient? && job.attempts < RetryLimit(failure))
      && (after.jobs[j].status in {JobQueued, JobSuperseded, JobStatus.JobFailed})
      && after.documents == db.documents[id := after.documents[id]]
      && (overtaken ==> after == db.(jobs := after.jobs))
      && (after.documents[id].lifecycle != db.documents[id].lifecycle <==> failure.AccessDenied? && !overtaken)
      && (after.documents[id].status == Ready ==> db.documents[id].status == Ready)
      && (if failure.AccessDenied? && !overtaken
          then CurrentIndex(after, id) == None && !after.documents[id].eligible && (id in after.items ==> after.items[id].lifecycle == ItemAccessRevoked)
          else after.items == db.items && after.indexes == db.indexes)
  {
  }

  // ---- Restart -----------------------------------------------------------------------------

  function RunningJobs(jobs: map<JobId, Job>): set<JobId> {
    set j | j in jobs && jobs[j].status == JobRunning
  }

  // A job settled by a failure: no longer running unless it cannot be read, and otherwise as it was.
  ghost predicate Settled(job: Job, after: Job) {
    && after == job.(status := after.status)
    && after.status in {JobQueued, JobStatus.JobFailed, JobSuperseded}
    && (after.status == JobQueued ==> job.attempts < ABRUPT_WORKER_FAILURE_MAX_ATTEMPTS)
  }

  ghost predicate OrphansFailed(db: Db, left: set<JobId>, after: Db) {
    && after.jobs.Keys == db.jobs.Keys && after.documents.Keys == db.documents.Keys
    && after.projects == db.projects
    && (forall id :: id in db.documents ==> after.documents[id].collection == db.documents[id].collection)
    && forall j :: j in db.jobs ==> OrphanFailed(db, left, after, j)
  }

  ghost predicate OrphanFailed(db: Db, left: set<JobId>, after: Db, j: JobId)
    requires j in db.jobs && j in after.jobs
  {
    if Readable(db, j) && j !in left then Settled(db.jobs[j], after.jobs[j]) else after.jobs[j] == db.jobs[j]
  }

  // A failure touches one job, and no document's collection.
  lemma FailureSettles(db: Db, j: JobId, failure: Failure)
    requires j in db.jobs
    ensures var after := AfterFailure(db, j, failure);
      && after.jobs.Keys == db.jobs.Keys && (forall k :: k in db.jobs && k != j ==> after.jobs[k] == db.jobs[k])
      && after.projects == db.projects && after.documents.Keys == db.documents.Keys
      && forall id :: id in db.documents ==> after.documents[id].collection == db.documents[id].collection
    ensures Readable(db, j) && failure == Transient(true) ==> Settled(db.jobs[j], AfterFailure(db, j, failure).jobs[j])
    ensures !Readable(db, j) ==> AfterFailure(db, j, failure) == db
  {
  }

  lemma FailNext(db: Db, left: set<JobId>, before: Db, j: JobId)
    requires OrphansFailed(db, left, before) && j in left && j in db.jobs
    ensures OrphansFailed(db, left - {j}, AfterFailure(before, j, Transient(true)))
  {
    assert OrphanFailed(db, left, before, j);
    FailureSettles(before, j, Transient(true));
    var after := AfterFailure(before, j, Transient(true));
    assert Readable(before, j) == Readable(db, j);
    forall k | k in db.jobs ensures OrphanFailed(db, left - {j}, after, k) {
      assert OrphanFailed(db, left, before, k);
    }
  }

  // Jobs left running by a worker that died are failed one by one: every job that was running and can
  // be read is queued again, failed or superseded, and it is queued again at most once.
  method FailOrphanedRunningJobs(store: Store)
    modifies store`jobs, store`documents, store`items, store`indexes
    ensures OrphansFailed(old(store.Rows()), {}, store.Rows())
  {
    ghost var before := store.Rows();
    var left := RunningJobs(store.jobs);
    assert OrphansFailed(before, left, store.Rows());
    while left != {}
      invariant left <= RunningJobs(before.jobs)
      invariant OrphansFailed(before, left, store.Rows())
      decreases left
    {
      var j :| j in left;
      FailNext(before, left, store.Rows(), j);
      FailDocumentJob(store, j, Transient(true));
      left := left - {j};
    }
  }
}
