/**
 The transactions of the index worker (services/index_worker/worker.py, index_document.py) as
 functions from the rows before to the rows after.
 */
module IndexSteps {

  import opened Outcome
  import opened Corpus
  import opened SourceSteps

  const MAX_ATTEMPTS := 6
  const ABRUPT_WORKER_FAILURE_MAX_ATTEMPTS := 2

  // What a job's process reads before it goes to work outside any transaction.
  datatype Process = Process(job: JobId, document: ExternalId, revision: Revision, documentRevision: Revision, config: nat)

  // How a process ended badly, as far as the failure handling tells causes apart.
  datatype Failure = AccessDenied | Transient(abrupt: bool) | Permanent

  // The document, its collection and its project are no longer what the job was queued for.
  predicate Overtaken(db: Db, document: Document, revision: Revision, config: nat) {
    || revision != document.expectedRevision
    || config != db.source.configRevision
    || db.source.state != SourceActive
    || document.collection !in db.collections
    || !db.collections[document.collection].selected
    || db.collections[document.collection].lifecycle in {CollectionInactive, CollectionMissing, CollectionPendingPurge}
    || document.collection !in db.projects
    || db.projects[document.collection].lifecycle !in {ProjectPending, ProjectActive}
    || document.lifecycle != ItemActive
  }

  predicate CanStart(db: Db, j: JobId) {
    j in db.jobs && db.jobs[j].status == JobQueued && db.jobs[j].document in db.documents && !LiveMigration(db)
  }

  function Claimed(db: Db, j: JobId): Db
    requires CanStart(db, j)
  {
    var job := db.jobs[j];
    db.(jobs := db.jobs[j := job.(status := JobRunning, attempts := job.attempts + 1)],
        documents := db.documents[job.document := db.documents[job.document].(status := Indexing)])
  }

  // A job whose row can be read together with its document and project.
  predicate Readable(db: Db, j: JobId) {
    && j in db.jobs && db.jobs[j].status == JobRunning
    && db.jobs[j].document in db.documents
    && db.documents[db.jobs[j].document].collection in db.projects
  }

  function ProcessOf(db: Db, j: JobId): Process
    requires Readable(db, j)
  {
    var job := db.jobs[j];
    Process(j, job.document, job.revision, db.documents[job.document].revision, job.config)
  }

  predicate OtherActiveJob(jobs: map<JobId, Job>, j: JobId, id: ExternalId) {
    exists k :: k in jobs && k != j && jobs[k].document == id && jobs[k].status in {JobQueued, JobRunning}
  }

  function SupersedeJob(jobs: map<JobId, Job>, j: JobId): map<JobId, Job> {
    if j in jobs then jobs[j := jobs[j].(status := JobSuperseded)] else jobs
  }

  // A job overtaken before its process went to work.
  function Dropped(db: Db, j: JobId): Db
    requires Readable(db, j)
  {
    var id := db.jobs[j].document;
    var jobs := SupersedeJob(db.jobs, j);
    db.(jobs := jobs,
        documents := if !OtherActiveJob(jobs, j, id) && db.documents[id].status == Indexing
                     then db.documents[id := db.documents[id].(status := Uploaded)] else db.documents)
  }

  predicate Refused(db: Db, p: Process) {
    || p.document !in db.documents
    || Overtaken(db, db.documents[p.document], p.revision, p.config)
  }

  // The revision recorded on the index.
  function IndexedRevision(p: Process): Revision {
    if p.revision != "" then p.revision else p.documentRevision
  }

  // Publishing reads the fence again, in the transaction that writes.
  function Published(db: Db, p: Process): Db {
    var accepted := !Refused(db, p);
    var outcome := if accepted then JobCompleted else JobSuperseded;
    db.(indexes := if accepted then db.indexes[p.document := Index(Some(IndexedRevision(p)), true)] else db.indexes,
        documents := if accepted && p.document in db.documents
                     then db.documents[p.document := db.documents[p.document].(status := Ready, eligible := true)] else db.documents,
        jobs := if p.job in db.jobs then db.jobs[p.job := db.jobs[p.job].(status := outcome)] else db.jobs)
  }

  // Skipping does not read the fence.
  function SkippedBy(db: Db, p: Process): Db {
    db.(documents := if p.document in db.documents
                     then db.documents[p.document := db.documents[p.document].(status := DocumentStatus.Skipped)] else db.documents,
        jobs := if p.job in db.jobs then db.jobs[p.job := db.jobs[p.job].(status := JobCompleted)] else db.jobs)
  }

  function RetryLimit(failure: Failure): nat {
    if failure == Transient(true) then ABRUPT_WORKER_FAILURE_MAX_ATTEMPTS else MAX_ATTEMPTS
  }

  predicate Retries(job: Job, failure: Failure) {
    failure.Transient? && job.attempts < RetryLimit(failure)
  }

  datatype Verdict = Drop | Revoke | Retry | GiveUp

  function VerdictOn(db: Db, j: JobId, failure: Failure): Verdict
    requires Readable(db, j)
  {
    var job := db.jobs[j];
    if Overtaken(db, db.documents[job.document], job.revision, job.config) then Drop
    else if failure.AccessDenied? then Revoke
    else if Retries(job, failure) then Retry
    else GiveUp
  }

  function JobAfter(job: Job, verdict: Verdict): Job {
    job.(status := match verdict
                   case Drop => JobSuperseded
                   case Retry => JobQueued
                   case _ => JobStatus.JobFailed)
  }

  // The source refusing an item takes its document out of retrieval; a retry returns it to the queue
  // unless it has moved on.
  function DocumentAfterVerdict(document: Document, job: Job, verdict: Verdict): Document {
    match verdict
    case Drop => document
    case Revoke => document.(status := DocumentFailed, lifecycle := ItemAccessRevoked, eligible := false)
    case Retry => if document.expectedRevision == job.revision then document.(status := Uploaded) else document
    case GiveUp => document.(status := DocumentFailed)
  }

  function AfterFailure(db: Db, j: JobId, failure: Failure): Db {
    if !Readable(db, j) then db
    else
      var job, verdict := db.jobs[j], VerdictOn(db, j, failure);
      var id := job.document;
      db.(jobs := db.jobs[j := JobAfter(job, verdict)],
          documents := db.documents[id := DocumentAfterVerdict(db.documents[id], job, verdict)],
          items := if verdict == Revoke && id in db.items then db.items[id := db.items[id].(lifecycle := ItemAccessRevoked)] else db.items,
          indexes := if verdict == Revoke then RetireIndex(db.indexes, id) else db.indexes)
  }

  function RetireIndex(indexes: map<ExternalId, Index>, id: ExternalId): map<ExternalId, Index> {
    if id in indexes then indexes[id := indexes[id].(current := false)] else indexes
  }
}
