/**
 What single transactions of both workers leave, each case under the conditions that the rows must meet,
 spelled out (services/source_worker/engine.py, services/index_worker).
 */
module Transactions {

  import opened Outcome
  import opened Corpus
  import opened Reconciliation
  import opened SourceSteps
  import opened SourceWorker
  import opened SyncRuns
  import opened Migrations
  import opened IndexSteps
  import opened Interleaving
  import opened Publication
  import opened Completing

  // ---- The index worker ----------------------------------------------------------------------

  // The document is still wanted at this revision and configuration: its source is active, its collection
  // chosen and in service, its project pending or active, and it has not been taken out itself.
  ghost predicate Wanted(db: Db, id: ExternalId, revision: Revision, config: nat) {
    && id in db.documents && db.documents[id].expectedRevision == revision && db.documents[id].lifecycle == ItemActive
    && db.source.configRevision == config && db.source.state == SourceActive
    && db.documents[id].collection in db.collections
    && db.collections[db.documents[id].collection].selected
    && db.collections[db.documents[id].collection].lifecycle in
         {CollectionPending, CollectionActive, CollectionExcluded, CollectionAccessRevoked}
    && db.documents[id].collection in db.projects
    && db.projects[db.documents[id].collection].lifecycle in {ProjectPending, ProjectActive}
  }

  lemma WantedExactly(db: Db, id: ExternalId, revision: Revision, config: nat)
    requires id in db.documents
    ensures Overtaken(db, db.documents[id], revision, config) <==> !Wanted(db, id, revision, config)
  {
    var c := db.documents[id].collection;
    if c in db.collections {
      var k := db.collections[c].lifecycle;
      assert k.CollectionPending? || k.CollectionInactive? || k.CollectionActive? || k.CollectionExcluded? || k.CollectionMissing?
             || k.CollectionAccessRevoked? || k.CollectionPendingPurge?;
    }
  }

  // Publishing a document that is still wanted makes it ready with an index of the revision that was read,
  // and completes the job; anything else only supersedes the job.
  lemma PublishOutcome(db: Db, p: Process)
    ensures Published(db, p) ==
      if Wanted(db, p.document, p.revision, p.config) then
        db.(indexes := db.indexes[p.document := Index(Some(if p.revision != "" then p.revision else p.documentRevision), true)],
            documents := db.documents[p.document := db.documents[p.document].(status := DocumentStatus.Ready, eligible := true)],
            jobs := if p.job in db.jobs then db.jobs[p.job := db.jobs[p.job].(status := JobCompleted)] else db.jobs)
      else db.(jobs := if p.job in db.jobs then db.jobs[p.job := db.jobs[p.job].(status := JobSuperseded)] else db.jobs)
  {
    if p.document in db.documents { WantedExactly(db, p.document, p.revision, p.config); }
  }

  // Skipping marks the document and completes the job, wanted or not.
  lemma SkipOutcome(db: Db, p: Process)
    ensures SkippedBy(db, p) ==
      db.(documents := if p.document in db.documents
                       then db.documents[p.document := db.documents[p.document].(status := DocumentStatus.Skipped)] else db.documents,
          jobs := if p.job in db.jobs then db.jobs[p.job := db.jobs[p.job].(status := JobCompleted)] else db.jobs)
  {
  }

  // A job is worked on while it runs and its document and project are there; a failure of any other changes
  // nothing.
  lemma UnderWork(db: Db, j: JobId, failure: Failure)
    ensures var readable := j in db.jobs && db.jobs[j].status == JobRunning && db.jobs[j].document in db.documents
                            && db.documents[db.jobs[j].document].collection in db.projects;
      (Readable(db, j) <==> readable) && (!readable ==> AfterFailure(db, j, failure) == db)
  {
  }

  ghost predicate AnotherActive(db: Db, j: JobId)
    requires j in db.jobs
  {
    exists k :: k in db.jobs && k != j && db.jobs[k].document == db.jobs[j].document && db.jobs[k].status in {JobQueued, JobRunning}
  }

  // A process that starts for a document that is no longer wanted supersedes its job, and returns the
  // document to be indexed if it was being indexed for this job alone.
  lemma BeginOutcome(s: System, j: JobId)
    requires Readable(s.db, j)
    ensures var job, after := s.db.jobs[j], Begun(s, j);
      if Wanted(s.db, job.document, job.revision, job.config) then
        after == s.(processes := s.processes + {Process(j, job.document, job.revision, s.db.documents[job.document].revision, job.config)})
      else
        && after == s.(db := s.db.(jobs := s.db.jobs[j := job.(status := JobSuperseded)], documents := after.db.documents))
        && after.db.documents == (if s.db.documents[job.document].status == Indexing && !AnotherActive(s.db, j)
                                  then s.db.documents[job.document := s.db.documents[job.document].(status := Uploaded)] else s.db.documents)
  {
    WantedExactly(s.db, s.db.jobs[j].document, s.db.jobs[j].revision, s.db.jobs[j].config);
    OthersActive(s.db.jobs, j);
  }

  lemma OthersActive(jobs: map<JobId, Job>, j: JobId)
    requires j in jobs
    ensures OtherActiveJob(SupersedeJob(jobs, j), j, jobs[j].document) <==>
      exists k :: k in jobs && k != j && jobs[k].document == jobs[j].document && jobs[k].status in {JobQueued, JobRunning}
  {
    var after := SupersedeJob(jobs, j);
    assert forall k :: k in jobs && k != j ==> after[k] == jobs[k];
  }

  // A claim takes a queued job unless a migration is under way, counts the attempt, and marks the document.
  lemma ClaimOutcome(db: Db, j: JobId)
    ensures CanStart(db, j) <==>
      j in db.jobs && db.jobs[j].status == JobQueued && db.jobs[j].document in db.documents && !UnderWay(db)
    ensures CanStart(db, j) ==> (var job := db.jobs[j];
      Claimed(db, j) == db.(jobs := db.jobs[j := job.(status := JobRunning, attempts := job.attempts + 1)],
                            documents := db.documents[job.document := db.documents[job.document].(status := Indexing)]))
  {
  }

  // A migration that has been asked for and is not over.
  ghost predicate UnderWay(db: Db) {
    exists m :: m in db.migrations && db.migrations[m].status in {MigrationStatus.Requested, MigrationValidating, Syncing, MigrationStatus.Applying}
  }

  // A job that fails: dropped when its document is no longer wanted; with access refused, it fails and the
  // document, its item and its index are revoked; after a transient failure, below two attempts if the worker
  // died and below six otherwise, it is queued again and its document too; and otherwise both have failed.
  lemma FailureOutcome(db: Db, j: JobId, failure: Failure)
    requires Readable(db, j)
    ensures var job, after := db.jobs[j], AfterFailure(db, j, failure);
      var id := job.document;
      if !Wanted(db, id, job.revision, job.config) then after == db.(jobs := db.jobs[j := job.(status := JobSuperseded)])
      else if failure.AccessDenied? then
        after == db.(jobs := db.jobs[j := job.(status := JobStatus.JobFailed)],
                     documents := db.documents[id := db.documents[id].(status := DocumentFailed, lifecycle := ItemAccessRevoked, eligible := false)],
                     items := if id in db.items then db.items[id := db.items[id].(lifecycle := ItemAccessRevoked)] else db.items,
                     indexes := if id in db.indexes then db.indexes[id := db.indexes[id].(current := false)] else db.indexes)
      else if failure.Transient? && job.attempts < (if failure.abrupt then 2 else 6) then
        after == db.(jobs := db.jobs[j := job.(status := JobQueued)], documents := db.documents[id := db.documents[id].(status := Uploaded)])
      else
        after == db.(jobs := db.jobs[j := job.(status := JobStatus.JobFailed)], documents := db.documents[id := db.documents[id].(status := DocumentFailed)])
  {
    WantedExactly(db, db.jobs[j].document, db.jobs[j].revision, db.jobs[j].config);
  }

  // ---- Runs --------------------------------------------------------------------------------

  // A run is current while its collection takes part, at the configuration and for the rules it was queued
  // for, and its migration, if it has one, is scanning.
  lemma CurrentExactly(db: Db, run: Run)
    ensures Current(db, run) <==>
      && TakesPart(db, run.collection)
      && run.configRevision == db.source.configRevision && run.filterRevision == db.collections[run.collection].filterRevision
      && match run.migration
         case None => true
         case Some(m) => m in db.migrations && db.migrations[m].status == Syncing
  {
    PartExactly(db, run.collection);
  }

  lemma PartExactly(db: Db, c: CollectionId)
    ensures Eligible(db, c) <==> TakesPart(db, c)
  {
    if c in db.collections {
      var k := db.collections[c].lifecycle;
      assert k.CollectionPending? || k.CollectionInactive? || k.CollectionActive? || k.CollectionExcluded? || k.CollectionMissing?
             || k.CollectionAccessRevoked? || k.CollectionPendingPurge?;
    }
  }

  // It can be claimed if, besides, no migration is under way, or it is one's own.
  lemma ClaimableExactly(db: Db, run: Run)
    ensures Claimable(db, run) <==> Current(db, run) && (run.migration.Some? || !UnderWay(db))
  {
  }

  // A superseded run is withdrawn while it is pending, and loses its observations; a new one is queued, for
  // what set it off, if and only if nothing but the rules has moved, the collection takes part, no migration
  // is under way and no other run is pending.
  lemma SupersedeOutcome(db: Db, r: RunId, now: nat)
    requires r in db.runs
    ensures var after, run := Supersede(db, r, now), db.runs[r];
      var withdrawn := db.runs[r := if run.status in {RunQueued, RunRunning} then run.(status := RunSuperseded) else run];
      && after == db.(runs := after.runs, observed := db.observed - {r})
      && (if TakesPart(db, run.collection) && run.configRevision == db.source.configRevision
             && run.filterRevision != db.collections[run.collection].filterRevision && !UnderWay(db) && NonePending(withdrawn, run.collection)
          then exists k: RunId :: k !in db.runs && after.runs == withdrawn[k := Replacement(db, run, now)]
          else after.runs == withdrawn)
  {
    var run := db.runs[r];
    var withdrawn := db.(runs := db.runs[r := SourceSteps.Withdrawn(run)], observed := db.observed - {r});
    PartExactly(db, run.collection);
    PartExactly(withdrawn, run.collection);
    QueueRunKeeps(withdrawn, run.collection, db.source.configRevision, run.trigger, now);
    assert withdrawn.runs.Keys == db.runs.Keys;
    assert Above(db.runs.Keys) !in db.runs;
  }

  ghost predicate NonePending(runs: map<RunId, Run>, c: CollectionId) {
    forall r :: r in runs && runs[r].collection == c ==> runs[r].status !in {RunQueued, RunRunning}
  }

  // The failure of an ordinary run: it has failed and its observations are gone; if the collection denied
  // access, collection and project are revoked, none of its documents is eligible and none of its jobs
  // queued. Nothing else changes.
  lemma FailureOfRun(db: Db, r: RunId, denied: bool)
    requires r in db.runs && db.runs[r].migration.None?
    ensures var after, c := FailRun(db, r, denied), db.runs[r].collection;
      && after.runs == db.runs[r := db.runs[r].(status := RunFailed)] && after.observed == db.observed - {r}
      && after.source == db.source && after.migrations == db.migrations && after.items == db.items && after.indexes == db.indexes
      && (!denied ==> after == db.(runs := after.runs, observed := after.observed))
      && (denied ==> Revoked(db, c, after))
  {
  }

  ghost predicate Revoked(db: Db, c: CollectionId, after: Db) {
    && after.collections == (if c in db.collections then db.collections[c := db.collections[c].(lifecycle := CollectionAccessRevoked)] else db.collections)
    && after.projects == (if c in db.projects
                          then db.projects[c := db.projects[c].(lifecycle := ProjectAccessRevoked, eligible := false)] else db.projects)
    && after.documents.Keys == db.documents.Keys && after.jobs.Keys == db.jobs.Keys
    && (forall k :: k in db.documents ==> after.documents[k] == RevokedDocument(db.documents[k], c))
    && forall j :: j in db.jobs ==> after.jobs[j] == RevokedJob(db.jobs[j], c)
  }

  function RevokedDocument(d: Document, c: CollectionId): Document {
    if d.collection == c && !d.deleted then d.(eligible := false) else d
  }

  function RevokedJob(job: Job, c: CollectionId): Job {
    if job.collection == c && job.status == JobQueued then job.(status := JobSuperseded) else job
  }

  // A restart fails the runs that were running, drops what they had observed, and ends the migrations under
  // way with their runs; what waits, and every other migration, stays.
  lemma RestartOutcome(db: Db, after: Db, r: RunId, m: MigrationId)
    requires RecoveredRows(db, UnderwayMigrations(db), after)
    ensures m in db.migrations ==>
      after.migrations[m] == if EndedWith(db, Some(m)) then db.migrations[m].(status := MigrationFailed) else db.migrations[m]
    ensures r in db.runs ==>
      var ended := EndedWith(db, db.runs[r].migration);
      && after.runs[r] == (if db.runs[r].status == RunRunning then db.runs[r].(status := RunFailed)
                           else if ended && db.runs[r].status in {RunQueued, RunScanned} then db.runs[r].(status := RunSuperseded)
                           else db.runs[r])
      && ScanOf(after, r) == (if db.runs[r].status == RunRunning || ended then map[] else ScanOf(db, r))
  {
    assert r in after.observed <==> ObservationKept(db, UnderwayMigrations(db), r);
  }

  ghost predicate EndedWith(db: Db, migration: Option<MigrationId>) {
    migration.Some? && migration.value in db.migrations
    && db.migrations[migration.value].status in {MigrationValidating, Syncing, MigrationStatus.Applying}
  }

  // ---- Migrations --------------------------------------------------------------------------

  // The runs of a migration that is given up: those not done are withdrawn, and their observations dropped.
  ghost predicate RunsGivenUp(db: Db, m: MigrationId, after: Db) {
    && after.runs.Keys == db.runs.Keys
    && (forall r :: r in db.runs ==> after.runs[r] == GivenUp(db.runs[r], m))
    && forall r :: (r in after.observed <==> r in db.observed && !(r in db.runs && db.runs[r].migration == Some(m)))
                   && (r in after.observed ==> after.observed[r] == db.observed[r])
  }

  function GivenUp(run: Run, m: MigrationId): Run {
    if run.migration == Some(m) && run.status in {RunQueued, RunRunning, RunScanned} then run.(status := RunSuperseded) else run
  }

  // A migration that is cancelled, has failed or is rejected: it is over, unless it was over before and keeps
  // its end, and its runs are given up. Nothing else changes.
  lemma CancelOutcome(db: Db, m: MigrationId, failed: bool)
    requires m in db.migrations
    ensures var after, status := CancelMigration(db, m, failed), db.migrations[m].status;
      && RunsGivenUp(db, m, after) && LibraryUntouched(db, after)
      && after.migrations == db.migrations[m := db.migrations[m].(status :=
           if status in {MigrationCompleted, Cancelled, MigrationFailed} then status else if failed then MigrationFailed else Cancelled)]
  {
  }

  lemma RejectOutcome(db: Db, m: MigrationId)
    requires m in db.migrations
    ensures var after := RejectMigration(db, m);
      && RunsGivenUp(db, m, after) && LibraryUntouched(db, after)
      && after.migrations == db.migrations[m := db.migrations[m].(status := MigrationFailed)]
  {
  }

  // A start is outdated if and only if the configuration has moved since it was asked for or the source is
  // out of service; and otherwise refused if and only if a chosen collection is gone or revoked, or one that
  // takes part has a pending run.
  lemma StartOutcome(db: Db, m: MigrationId, now: nat, start: Start, after: Db)
    requires m in db.migrations && StartedAs(db, m, now, start, after)
    ensures var moved := db.source.configRevision != db.migrations[m].sourceConfigRevision || db.source.state != SourceActive;
      var refused := (exists c :: c in db.collections && Gone(db.collections[c])) || exists c :: TakesPart(db, c) && !NonePending(db.runs, c);
      && (start == Outdated <==> moved)
      && (start == Declined <==> !moved && refused)
      && (start == AppliedAtOnce <==> !moved && !refused && forall c :: !TakesPart(db, c))
    ensures start == Started ==> forall c :: TakesPart(db, c) ==> QueuedFor(db, m, now, after, c)
    ensures start == Started ==> forall r :: r in after.runs && r !in db.runs ==> TakesPart(db, after.runs[r].collection)
  {
    forall c ensures c in MigrationCollections(db) <==> TakesPart(db, c) { PartExactly(db, c); }
    forall c ensures HasPendingRun(db.runs, c) <==> !NonePending(db.runs, c) {}
    if start == Started {
      forall c | TakesPart(db, c) ensures QueuedFor(db, m, now, after, c) {
        assert HasNewRun(db, after.runs, c);
      }
    }
  }

  ghost predicate Gone(k: Collection) {
    k.selected && k.registered && k.valid && !k.deleted && k.lifecycle in {CollectionMissing, CollectionAccessRevoked}
  }

  // One run of the migration is new for the collection, at the configuration asked for and its present rules.
  ghost predicate QueuedFor(db: Db, m: MigrationId, now: nat, after: Db, c: CollectionId)
    requires m in db.migrations && c in db.collections
  {
    exists r :: r in after.runs && r !in db.runs
      && after.runs[r] == Run(c, Some(m), db.migrations[m].sourceConfigRevision, db.collections[c].filterRevision, ForMigration, RunQueued, false, now)
  }

  // The switch changes the endpoint and what is expected of documents and queued jobs; what can be retrieved
  // stays the same.
  lemma SwitchOutcome(db: Db, m: MigrationId, id: ExternalId)
    requires m in db.migrations
    ensures var after, migration, next := SwitchSource(db, m), db.migrations[m], db.source.configRevision + 1;
      && after.source == Source(db.source.state, next, migration.targetScope, migration.targetConfig, migration.credentials, db.source.maxDocumentSize)
      && after.migrations == db.migrations[m := migration.(status := MigrationCompleted)]
      && after == db.(source := after.source, migrations := after.migrations, documents := after.documents, jobs := after.jobs)
      && after.documents.Keys == db.documents.Keys && after.jobs.Keys == db.jobs.Keys
      && (id in db.documents ==> after.documents[id] == db.documents[id].(expectedConfig := next))
      && (forall j :: j in db.jobs ==> after.jobs[j] == if db.jobs[j].status == JobQueued then db.jobs[j].(config := next) else db.jobs[j])
      && (Visible(after, id) <==> Visible(db, id))
  {
  }
}
