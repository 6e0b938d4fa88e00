/**
 What the interleaved workers keep: a document that can be retrieved has an index built from its
 current revision, and work done for an older revision or configuration never reaches the library.
 */
module Publication {

  import opened Outcome
  import opened Corpus
  import opened Reconciliation
  import opened SourceSteps
  import opened SourceWorker
  import opened SyncRuns
  import opened Migrations
  import opened IndexSteps
  import opened Interleaving

  // The filter of the retrieval query (services/retrieval_api/query_engine.py).
  predicate Visible(db: Db, id: ExternalId) {
    && id in db.documents && id in db.indexes
    && var d := db.documents[id];
       && d.status == DocumentStatus.Ready && !d.deleted && d.lifecycle == ItemActive && d.eligible
       && db.indexes[id].current
       && d.collection in db.projects && !db.projects[d.collection].deleted
       && db.projects[d.collection].lifecycle == ProjectActive && db.projects[d.collection].eligible
       && db.source.state == SourceActive
       && d.collection in db.collections
       && var c := db.collections[d.collection];
          !c.deleted && c.selected && c.registered && c.valid && c.lifecycle == CollectionActive
  }

  // ---- The invariant -----------------------------------------------------------------------

  // A document expects the revision it has; one that is ready and active has no current index from
  // another revision.
  ghost predicate SoundRow(d: Document, index: Option<Index>) {
    && d.expectedRevision == d.revision
    && (d.status == DocumentStatus.Ready && d.lifecycle == ItemActive && index.Some? && index.value.revision.Some?
        ==> index.value.revision.value == d.revision)
  }

  ghost predicate SoundDocuments(db: Db) {
    forall id :: id in db.documents ==> SoundRow(db.documents[id], CurrentIndex(db, id))
  }

  ghost predicate BoundedDocuments(db: Db) {
    forall id :: id in db.documents ==> db.documents[id].expectedConfig <= db.source.configRevision
  }

  // No job or run is ahead of the configuration, and no job outlives its attempts.
  ghost predicate BoundedJob(job: Job, config: nat) {
    && job.config <= config
    && (job.status == JobQueued ==> job.attempts < MAX_ATTEMPTS)
    && (job.status == JobRunning ==> job.attempts <= MAX_ATTEMPTS)
  }

  ghost predicate BoundedJobs(jobs: map<JobId, Job>, config: nat) {
    forall j :: j in jobs ==> BoundedJob(jobs[j], config)
  }

  ghost predicate BoundedRuns(runs: map<RunId, Run>, config: nat) {
    forall r :: r in runs ==> runs[r].configRevision <= config
  }

  ghost predicate BoundedProcesses(processes: set<Process>, config: nat) {
    forall p :: p in processes ==> p.config <= config && p.documentRevision == p.revision
  }

  ghost predicate Rows(db: Db) {
    && SoundDocuments(db) && BoundedDocuments(db)
    && BoundedJobs(db.jobs, db.source.configRevision) && BoundedRuns(db.runs, db.source.configRevision)
  }

  ghost predicate Invariant(s: System) {
    Rows(s.db) && BoundedProcesses(s.processes, s.db.source.configRevision)
  }

  // ---- Reconciling -------------------------------------------------------------------------

  lemma QueueJobKeeps(jobs: map<JobId, Job>, id: ExternalId, c: CollectionId, revision: Revision, config: nat, bound: nat)
    requires BoundedJobs(jobs, bound) && config <= bound
    ensures BoundedJobs(QueueJob(jobs, id, c, revision, config), bound)
  {
  }

  lemma SupersedeJobsKeeps(jobs: map<JobId, Job>, ids: set<ExternalId>, bound: nat)
    requires BoundedJobs(jobs, bound)
    ensures BoundedJobs(SupersedeJobs(jobs, ids), bound)
  {
  }

  lemma ReconcileDocumentKeeps(db: Db, pass: Pass, config: nat, id: ExternalId, o: Observation, lifecycle: ItemState, preserveIndex: bool)
    requires Rows(db) && config <= db.source.configRevision
    ensures Rows(ReconcileDocument(db, pass, config, id, o, lifecycle, preserveIndex))
  {
    var after := ReconcileDocument(db, pass, config, id, o, lifecycle, preserveIndex);
    SupersedeJobsKeeps(db.jobs, {id}, db.source.configRevision);
    var jobs := if lifecycle == ItemExcluded then SupersedeJobs(db.jobs, {id}) else db.jobs;
    QueueJobKeeps(jobs, id, pass.collection, o.revision, config, db.source.configRevision);
    forall k | k in after.documents ensures SoundRow(after.documents[k], CurrentIndex(after, k)) {
      if k != id { assert CurrentIndex(after, k) == CurrentIndex(db, k); }
    }
  }

  lemma ReconcileOneKeeps(db: Db, pass: Pass, config: nat, id: ExternalId, o: Observation, preserveIndex: bool)
    requires Rows(db) && config <= db.source.configRevision
    ensures Rows(ReconcileOne(db, pass, config, id, o, preserveIndex))
  {
    var placed := db.(items := ReconcileItem(db.items, id, o, pass));
    OnlyOtherTables(db, placed);
    if o.isDocument {
      ReconcileDocumentKeeps(placed, pass, config, id, o, Classify(id, o, pass), preserveIndex);
    } else {
      var below := Descendants(db.items[id := ItemOf(db.items, id, o, pass)], id);
      HidingKeeps(placed, below);
    }
  }

  lemma OnlyOtherTables(db: Db, after: Db)
    requires Rows(db)
    requires after.documents == db.documents && after.indexes == db.indexes && after.jobs == db.jobs && after.runs == db.runs
    requires after.source.configRevision >= db.source.configRevision
    ensures Rows(after)
  {
    forall k | k in after.documents ensures SoundRow(after.documents[k], CurrentIndex(after, k)) {
      assert CurrentIndex(after, k) == CurrentIndex(db, k);
    }
  }

  lemma HidingKeeps(db: Db, ids: set<ExternalId>)
    requires Rows(db)
    ensures Rows(db.(documents := HideDocuments(db.documents, ids), jobs := SupersedeJobs(db.jobs, ids)))
  {
    var after := db.(documents := HideDocuments(db.documents, ids), jobs := SupersedeJobs(db.jobs, ids));
    SupersedeJobsKeeps(db.jobs, ids, db.source.configRevision);
    forall k | k in after.documents ensures SoundRow(after.documents[k], CurrentIndex(after, k)) {
      assert CurrentIndex(after, k) == CurrentIndex(db, k);
    }
  }

  lemma {:induction false} ReconcileManyKeeps(db: Db, pass: Pass, config: nat, seen: Scan, order: seq<ExternalId>, preserveIndex: bool)
    requires Rows(db) && config <= db.source.configRevision && forall id :: id in order ==> id in seen
    ensures Rows(ReconcileMany(db, pass, config, seen, order, preserveIndex))
    decreases |order|
  {
    if order != [] {
      ReconcileOneKeeps(db, pass, config, order[0], seen[order[0]], preserveIndex);
      OneFrame(db, pass, config, order[0], seen[order[0]], preserveIndex);
      ReconcileManyKeeps(ReconcileOne(db, pass, config, order[0], seen[order[0]], preserveIndex), pass, config, seen, order[1..], preserveIndex);
    }
  }

  // ---- Transactions of the source worker -----------------------------------------------------

  // Only runs, and tables that no document depends on, have changed.
  lemma OnlyRuns(db: Db, after: Db)
    requires Rows(db)
    requires after.documents == db.documents && after.indexes == db.indexes && after.jobs == db.jobs && after.source == db.source
    requires BoundedRuns(after.runs, db.source.configRevision)
    ensures Rows(after)
  {
    forall k | k in after.documents ensures SoundRow(after.documents[k], CurrentIndex(after, k)) {
      assert CurrentIndex(after, k) == CurrentIndex(db, k);
    }
  }

  lemma QueueRunRows(db: Db, c: CollectionId, config: nat, trigger: Trigger, now: nat)
    requires Rows(db)
    ensures Rows(QueueRun(db, c, config, trigger, now))
  {
    OnlyRuns(db, QueueRun(db, c, config, trigger, now));
  }

  lemma SupersedeRows(db: Db, r: RunId, now: nat)
    requires Rows(db) && r in db.runs
    ensures Rows(Supersede(db, r, now))
  {
    var run := db.runs[r];
    var withdrawn := db.(runs := db.runs[r := Withdrawn(run)], observed := db.observed - {r});
    OnlyRuns(db, withdrawn);
    if FilterMoved(db, run) && Eligible(db, run.collection) {
      QueueRunRows(withdrawn, run.collection, db.source.configRevision, run.trigger, now);
    }
  }

  lemma SweptRows(db: Db, swept: set<RunId>, after: Db, now: nat)
    requires Rows(db) && Swept(db, swept, after, now)
    ensures Rows(after)
  {
    forall r | r in after.runs ensures after.runs[r].configRevision <= db.source.configRevision {
      if r in db.runs {
        assert SweptRun(db, swept, after, r);
      } else {
        var s :| s in swept && s in db.runs && ReplacementOf(db, db.runs[s], after, r, now);
      }
    }
    OnlyRuns(db, after);
  }

  lemma ClaimRows(s: System, now: nat, t: System)
    requires Rows(s.db) && ClaimStep(s, now, t)
    ensures Rows(t.db)
  {
    var swept: Db :| Swept(s.db, Stale(s.db), swept, now) && TakesOne(s, swept, now, t);
    SweptRows(s.db, Stale(s.db), swept, now);
    if t != s.(db := swept) {
      TakenRows(s, swept, t.phase.run, now, t);
    }
  }

  lemma TakenRows(s: System, swept: Db, r: RunId, now: nat, t: System)
    requires Rows(swept) && TakesRun(s, swept, r, now, t)
    ensures Rows(t.db)
  {
    OnlyRuns(swept, swept.(runs := swept.runs[r := swept.runs[r].(status := RunRunning, startedAt := now)]));
  }

  lemma BatchKeeps(db: Db, pass: Pass, size: nat)
    requires Rows(db) && pass.run in db.runs
    ensures Rows(BatchRows(db, pass, size))
  {
    var order := BatchOrder(db, pass, size);
    var seen := ScanOf(db, pass.run);
    ReconcileManyKeeps(db, pass, db.runs[pass.run].configRevision, seen, order, false);
    OnlyOtherTables(ReconcileMany(db, pass, db.runs[pass.run].configRevision, seen, order, false), BatchRows(db, pass, size));
  }

  lemma CloseScanKeeps(db: Db, pass: Pass)
    requires Rows(db) && pass.run in db.runs
    ensures Rows(CloseScan(db, pass))
  {
    var after := CloseScan(db, pass);
    forall k | k in after.documents ensures SoundRow(after.documents[k], CurrentIndex(after, k)) {
      assert CurrentIndex(after, k) == CurrentIndex(db, k);
    }
  }

  lemma CompleteRunKeeps(db: Db, r: RunId, now: nat)
    requires Rows(db) && r in db.runs
    ensures Rows(CompleteRun(db, r, now))
  {
    var run := db.runs[r];
    SupersedeRows(db, r, now);
    if Current(db, run) {
      var pass := PassOf(db, r, db.collections[run.collection].rules);
      CloseScanKeeps(db, pass);
      var closed := CloseScan(db, pass);
      var reopened := closed.(collections := db.collections[run.collection := db.collections[run.collection].(lifecycle := CollectionActive)]);
      OnlyRuns(closed, reopened);
      QueueRunRows(reopened, run.collection, run.configRevision, Manual, now);
    }
  }

  lemma CancelRows(db: Db, m: MigrationId, failed: bool)
    requires Rows(db) && m in db.migrations
    ensures Rows(CancelMigration(db, m, failed)) && Rows(RejectMigration(db, m))
  {
    OnlyRuns(db, CancelMigration(db, m, failed));
    OnlyRuns(db, RejectMigration(db, m));
  }

  lemma RevokeKeeps(db: Db, c: CollectionId)
    requires Rows(db)
    ensures Rows(RevokeCollection(db, c))
  {
    var after := RevokeCollection(db, c);
    forall k | k in after.documents ensures SoundRow(after.documents[k], CurrentIndex(after, k)) {
      assert CurrentIndex(after, k) == CurrentIndex(db, k);
    }
  }

  lemma FailRunKeeps(db: Db, r: RunId, denied: bool)
    requires Rows(db) && r in db.runs && (db.runs[r].migration.Some? ==> db.runs[r].migration.value in db.migrations)
    ensures Rows(FailRun(db, r, denied))
  {
    var run := db.runs[r];
    var failed := db.(runs := db.runs[r := run.(status := RunFailed)]);
    OnlyRuns(db, failed);
    if run.migration.Some? {
      CancelRows(failed, run.migration.value, true);
    } else {
      var cleared := failed.(observed := db.observed - {r});
      OnlyRuns(failed, cleared);
      RevokeKeeps(cleared, run.collection);
    }
  }

  lemma RecoveredKeeps(db: Db, cancelled: set<MigrationId>, after: Db)
    requires Rows(db) && RecoveredRows(db, cancelled, after)
    ensures Rows(after)
  {
    OnlyRuns(db, after);
  }

  lemma ApplyRunRows(db: Db, r: RunId)
    requires Rows(db) && r in db.runs && ApplyRun(db, r).Returned?
    ensures Rows(ApplyRun(db, r).value)
  {
    var run := db.runs[r];
    if run.collection in db.collections {
      var seen := ScanOf(db, r);
      var pass := PassOf(db, r, db.collections[run.collection].rules);
      ReconcileManyKeeps(db, pass, run.configRevision, seen, InOrder(seen, seen.Keys), true);
      ManyFrame(db, pass, run.configRevision, seen, InOrder(seen, seen.Keys), true);
      var reconciled := ReconcileMany(db, pass, run.configRevision, seen, InOrder(seen, seen.Keys), true);
      assert reconciled.(runs := db.runs) == reconciled;
      CloseScanKeeps(reconciled, pass);
    }
  }

  lemma {:induction false} ApplyRunsRows(db: Db, runs: seq<RunId>)
    requires Rows(db) && ApplyRuns(db, runs).Returned?
    ensures Rows(ApplyRuns(db, runs).value)
    decreases |runs|
  {
    if runs != [] {
      ApplyRunRows(db, runs[0]);
      ApplyRunsRows(ApplyRun(db, runs[0]).value, runs[1..]);
    }
  }

  lemma SwitchKeeps(db: Db, m: MigrationId)
    requires Rows(db) && m in db.migrations
    ensures Rows(SwitchSource(db, m))
  {
    var after := SwitchSource(db, m);
    forall k | k in after.documents ensures SoundRow(after.documents[k], CurrentIndex(after, k)) {
      assert CurrentIndex(after, k) == CurrentIndex(db, k);
    }
  }

  lemma DecidedKeeps(db: Db, m: MigrationId, decision: Decision, order: seq<RunId>, after: Db)
    requires Rows(db) && Decided(db, m, decision, order, after)
    ensures Rows(after)
  {
    if decision == Rejected {
      CancelRows(db, m, false);
    } else if decision == Applied {
      ApplyRunsRows(db, order);
      SwitchKeeps(ApplyRuns(db, order).value, m);
    }
  }

  lemma StartedKeeps(db: Db, m: MigrationId, now: nat, start: Start, after: Db)
    requires Rows(db) && m in db.migrations && StartedAs(db, m, now, start, after)
    ensures Rows(after)
  {
    match start
    case Outdated => CancelRows(db, m, false);
    case Declined =>
    case Started => OnlyRuns(db, after);
    case AppliedAtOnce => SwitchKeeps(db, m);
  }

  // ---- Transactions of the index worker ------------------------------------------------------

  lemma DocumentKeeps(db: Db, id: ExternalId, d: Document, after: Db)
    requires Rows(db) && id in db.documents
    requires after.documents == db.documents[id := d] && after.indexes == db.indexes && after.source == db.source && after.runs == db.runs
    requires d.revision == db.documents[id].revision && d.expectedRevision == db.documents[id].expectedRevision
    requires d.expectedConfig == db.documents[id].expectedConfig && (d.status != DocumentStatus.Ready || d == db.documents[id])
    requires BoundedJobs(after.jobs, db.source.configRevision)
    ensures Rows(after)
  {
    forall k | k in after.documents ensures SoundRow(after.documents[k], CurrentIndex(after, k)) {
      assert CurrentIndex(after, k) == CurrentIndex(db, k);
    }
  }

  lemma OneJob(jobs: map<JobId, Job>, j: JobId, job: Job, bound: nat)
    requires BoundedJobs(jobs, bound) && BoundedJob(job, bound)
    ensures BoundedJobs(jobs[j := job], bound)
  {
  }

  lemma ClaimedKeeps(db: Db, j: JobId)
    requires Rows(db) && CanStart(db, j)
    ensures Rows(Claimed(db, j))
  {
    var job := db.jobs[j];
    assert BoundedJob(job, db.source.configRevision);
    OneJob(db.jobs, j, job.(status := JobRunning, attempts := job.attempts + 1), db.source.configRevision);
    DocumentKeeps(db, job.document, db.documents[job.document].(status := Indexing), Claimed(db, j));
  }

  lemma SupersedeJobKeeps(db: Db, j: JobId)
    requires Rows(db)
    ensures Rows(db.(jobs := SupersedeJob(db.jobs, j)))
  {
    var after := db.(jobs := SupersedeJob(db.jobs, j));
    if j in db.jobs {
      assert BoundedJob(db.jobs[j], db.source.configRevision);
      OneJob(db.jobs, j, db.jobs[j].(status := JobSuperseded), db.source.configRevision);
    }
    forall k | k in after.documents ensures SoundRow(after.documents[k], CurrentIndex(after, k)) {
      assert CurrentIndex(after, k) == CurrentIndex(db, k);
    }
  }

  lemma DroppedKeeps(db: Db, j: JobId)
    requires Rows(db) && Readable(db, j)
    ensures Rows(Dropped(db, j))
  {
    SupersedeJobKeeps(db, j);
    var id := db.jobs[j].document;
    var superseded := db.(jobs := SupersedeJob(db.jobs, j));
    if Dropped(db, j) != superseded {
      DocumentKeeps(superseded, id, db.documents[id].(status := Uploaded), Dropped(db, j));
    }
  }

  // The publish step restores the invariant it breaks: what it publishes was built from the revision
  // the document still has.
  lemma PublishedKeeps(db: Db, p: Process)
    requires Rows(db) && p.documentRevision == p.revision
    ensures Rows(Published(db, p))
  {
    SupersedeJobKeeps(db, p.job);
    if !Refused(db, p) {
      var after := Published(db, p);
      assert SoundRow(db.documents[p.document], CurrentIndex(db, p.document));
      forall k | k in after.documents ensures SoundRow(after.documents[k], CurrentIndex(after, k)) {
        if k != p.document { assert CurrentIndex(after, k) == CurrentIndex(db, k); }
      }
      if p.job in db.jobs { assert BoundedJob(db.jobs[p.job], db.source.configRevision); }
    }
  }

  lemma JobsKeep(db: Db, jobs: map<JobId, Job>)
    requires Rows(db) && BoundedJobs(jobs, db.source.configRevision)
    ensures Rows(db.(jobs := jobs))
  {
    forall k | k in db.documents ensures SoundRow(db.documents[k], CurrentIndex(db.(jobs := jobs), k)) {
      assert CurrentIndex(db.(jobs := jobs), k) == CurrentIndex(db, k);
    }
  }

  lemma CompletedJobKeeps(db: Db, j: JobId)
    requires Rows(db) && j in db.jobs
    ensures BoundedJobs(db.jobs[j := db.jobs[j].(status := JobCompleted)], db.source.configRevision)
  {
    assert BoundedJob(db.jobs[j], db.source.configRevision);
  }

  lemma SkippedKeeps(db: Db, p: Process)
    requires Rows(db)
    ensures Rows(SkippedBy(db, p))
  {
    if p.job in db.jobs { CompletedJobKeeps(db, p.job); }
    var settled := db.(jobs := SkippedBy(db, p).jobs);
    JobsKeep(db, settled.jobs);
    if p.document in db.documents {
      DocumentKeeps(settled, p.document, db.documents[p.document].(status := DocumentStatus.Skipped), SkippedBy(db, p));
    }
  }

  lemma RetiredKeeps(db: Db, id: ExternalId, after: Db)
    requires Rows(db) && after == db.(items := after.items, indexes := RetireIndex(db.indexes, id))
    ensures Rows(after)
  {
    forall k | k in after.documents ensures SoundRow(after.documents[k], CurrentIndex(after, k)) {
      if k != id { assert CurrentIndex(after, k) == CurrentIndex(db, k); }
    }
  }

  lemma FailureKeeps(db: Db, j: JobId, failure: Failure)
    requires Rows(db)
    ensures Rows(AfterFailure(db, j, failure))
  {
    if Readable(db, j) {
      var job, verdict := db.jobs[j], VerdictOn(db, j, failure);
      var id := job.document;
      assert BoundedJob(job, db.source.configRevision);
      OneJob(db.jobs, j, JobAfter(job, verdict), db.source.configRevision);
      var settled := db.(jobs := db.jobs[j := JobAfter(job, verdict)],
                         documents := db.documents[id := DocumentAfterVerdict(db.documents[id], job, verdict)]);
      DocumentKeeps(db, id, DocumentAfterVerdict(db.documents[id], job, verdict), settled);
      if verdict == Revoke {
        RetiredKeeps(settled, id, AfterFailure(db, j, failure));
      } else {
        assert AfterFailure(db, j, failure) == settled;
      }
    }
  }

  lemma AdministeredKeeps(db: Db, after: Db)
    requires Rows(db) && Administered(db, after)
    ensures Rows(after)
  {
    forall k | k in after.documents ensures SoundRow(after.documents[k], CurrentIndex(after, k)) {
      assert AdministeredDocument(db.documents[k], after.documents[k]);
      assert CurrentIndex(after, k).Some? ==> CurrentIndex(after, k) == CurrentIndex(db, k);
      assert SoundRow(db.documents[k], CurrentIndex(db, k));
    }
    AdministeredJobsKeep(db, after);
  }

  lemma AdministeredJobsKeep(db: Db, after: Db)
    requires BoundedDocuments(db) && BoundedJobs(db.jobs, db.source.configRevision) && Administered(db, after)
    ensures BoundedJobs(after.jobs, after.source.configRevision)
  {
    forall j | j in after.jobs ensures BoundedJob(after.jobs[j], after.source.configRevision) {
      if j in db.jobs {
        assert BoundedJob(db.jobs[j], db.source.configRevision);
        assert AdministeredJob(db, db.jobs[j], after.jobs[j]);
      }
    }
  }

  // ---- Every step --------------------------------------------------------------------------

  ghost predicate SourceWorkerAction(a: Action) {
    Checks(a) || a.Queue? || a.Claim? || a.Observe? || a.MarkScanned? || a.Batch? || a.Close? || a.GiveUp? || a.Fail? || a.Restart?
  }

  lemma MarkRows(db: Db, r: RunId)
    requires Rows(db) && r in db.runs
    ensures Rows(db.(runs := MarkedScanned(db.runs, r)))
  {
    OnlyRuns(db, db.(runs := MarkedScanned(db.runs, r)));
  }

  lemma BatchStepRows(s: System, size: nat, t: System)
    requires Rows(s.db) && BatchStep(s, size, t)
    ensures Rows(t.db)
  {
    BatchKeeps(s.db, s.phase.pass, size);
  }

  lemma CloseStepRows(s: System, now: nat, t: System)
    requires Rows(s.db) && CloseStep(s, now, t)
    ensures Rows(t.db)
  {
    CompleteRunKeeps(s.db, s.phase.pass.run, now);
  }

  lemma ReconcilingKeepsRows(s: System, a: Action, t: System)
    requires Rows(s.db) && Step(s, a, t) && (a.Batch? || a.Close?)
    ensures Rows(t.db)
  {
    if a.Batch? { BatchStepRows(s, a.size, t); } else { CloseStepRows(s, a.now, t); }
  }

  lemma LeavingKeepsRows(s: System, a: Action, t: System)
    requires Rows(s.db) && Step(s, a, t) && (a.GiveUp? || a.Fail?)
    ensures Rows(t.db)
  {
    match a
    case GiveUp(now) => SupersedeRows(s.db, s.phase.run, now);
    case Fail => FailRunKeeps(s.db, s.phase.run, s.phase.denied);
  }

  lemma SourceWorkerKeepsRows(s: System, a: Action, t: System)
    requires Rows(s.db) && Step(s, a, t) && SourceWorkerAction(a)
    ensures Rows(t.db)
  {
    if Checks(a) {
      ChecksOnly(s, a, t);
    } else if a.Batch? || a.Close? {
      ReconcilingKeepsRows(s, a, t);
    } else if a.GiveUp? || a.Fail? {
      LeavingKeepsRows(s, a, t);
    } else {
      match a
      case Queue(c, config, trigger, now) => QueueRunRows(s.db, c, config, trigger, now);
      case Claim(now) => ClaimRows(s, now, t);
      case Restart => RecoveredKeeps(s.db, UnderwayMigrations(s.db), t.db);
      case Observe(_) => OnlyRuns(s.db, t.db);
      case MarkScanned => MarkRows(s.db, s.phase.pass.run);
    }
  }

  lemma OthersKeepRows(s: System, a: Action, t: System)
    requires Rows(s.db) && BoundedProcesses(s.processes, s.db.source.configRevision) && Step(s, a, t) && !SourceWorkerAction(a)
    ensures Rows(t.db)
  {
    match a
    case StartMigrating(m, now, start) => StartedKeeps(s.db, m, now, start, t.db);
    case Decide(m, decision, order) => DecidedKeeps(s.db, m, decision, order, t.db);
    case Cancel(m, failed) => CancelRows(s.db, m, failed);
    case ClaimNext(j) => ClaimedKeeps(s.db, j);
    case Begin(j) => DroppedKeeps(s.db, j);
    case Publish(p) => PublishedKeeps(s.db, p);
    case Skip(p) => SkippedKeeps(s.db, p);
    case FailJob(j, failure) => FailureKeeps(s.db, j, failure);
    case Administer => AdministeredKeeps(s.db, t.db);
  }

  // ---- The configuration only moves forward --------------------------------------------------

  lemma QueueRunSource(db: Db, c: CollectionId, config: nat, trigger: Trigger, now: nat)
    ensures QueueRun(db, c, config, trigger, now).source == db.source
  {
  }

  lemma SupersedeSource(db: Db, r: RunId, now: nat)
    requires r in db.runs
    ensures Supersede(db, r, now).source == db.source
  {
    var run := db.runs[r];
    var withdrawn := db.(runs := db.runs[r := SourceSteps.Withdrawn(run)], observed := db.observed - {r});
    QueueRunSource(withdrawn, run.collection, db.source.configRevision, run.trigger, now);
  }

  lemma CompleteRunSource(db: Db, r: RunId, now: nat)
    requires r in db.runs
    ensures CompleteRun(db, r, now).source == db.source
  {
    SupersedeSource(db, r, now);
  }

  lemma BatchSource(db: Db, pass: Pass, size: nat)
    requires pass.run in db.runs
    ensures BatchRows(db, pass, size).source == db.source
  {
    ManyFrame(db, pass, db.runs[pass.run].configRevision, ScanOf(db, pass.run), BatchOrder(db, pass, size), false);
  }

  lemma DecidedSource(db: Db, m: MigrationId, decision: Decision, order: seq<RunId>, after: Db)
    requires Decided(db, m, decision, order, after)
    ensures after.source.configRevision == if decision == Applied then db.source.configRevision + 1 else db.source.configRevision
  {
    if decision == Applied { ApplyRunsKeep(db, order); }
  }

  ghost predicate SameSource(s: System, t: System) {
    t.db.source == s.db.source && t.processes == s.processes
  }

  lemma ClaimConfig(s: System, now: nat, t: System)
    requires ClaimStep(s, now, t)
    ensures SameSource(s, t)
  {
    var swept: Db :| Swept(s.db, Stale(s.db), swept, now) && TakesOne(s, swept, now, t);
  }

  lemma BatchConfig(s: System, size: nat, t: System)
    requires BatchStep(s, size, t)
    ensures SameSource(s, t)
  {
    BatchSource(s.db, s.phase.pass, size);
  }

  lemma FailSource(db: Db, r: RunId, denied: bool)
    requires r in db.runs && (db.runs[r].migration.Some? ==> db.runs[r].migration.value in db.migrations)
    ensures FailRun(db, r, denied).source == db.source
  {
  }

  lemma SourceWorkerConfig(s: System, a: Action, t: System)
    requires Step(s, a, t) && SourceWorkerAction(a)
    ensures SameSource(s, t)
  {
    if Checks(a) {
      ChecksOnly(s, a, t);
    } else {
      match a
      case Queue(c, config, trigger, now) => QueueRunSource(s.db, c, config, trigger, now);
      case Claim(now) => ClaimConfig(s, now, t);
      case Observe(more) =>
      case MarkScanned =>
      case Batch(size) => BatchConfig(s, size, t);
      case Close(now) => CompleteRunSource(s.db, s.phase.pass.run, now);
      case GiveUp(now) => SupersedeSource(s.db, s.phase.run, now);
      case Fail => FailSource(s.db, s.phase.run, s.phase.denied);
      case Restart =>
    }
  }

  lemma ConfigNeverFalls(s: System, a: Action, t: System)
    requires Step(s, a, t)
    ensures t.db.source.configRevision >= s.db.source.configRevision
    ensures s.processes <= t.processes
  {
    if SourceWorkerAction(a) {
      SourceWorkerConfig(s, a, t);
    } else if a.Decide? {
      DecidedSource(s.db, a.migration, a.decision, a.order, t.db);
    }
  }

  lemma BoundedKeeps(s: System, a: Action, t: System)
    requires Invariant(s) && Step(s, a, t)
    ensures BoundedProcesses(t.processes, t.db.source.configRevision)
  {
    ConfigNeverFalls(s, a, t);
    if a.Begin? {
      var job := s.db.jobs[a.job];
      assert BoundedJob(job, s.db.source.configRevision);
      assert SoundRow(s.db.documents[job.document], CurrentIndex(s.db, job.document));
    } else if SourceWorkerAction(a) {
      SourceWorkerConfig(s, a, t);
    }
  }

  lemma StepKeeps(s: System, a: Action, t: System)
    requires Invariant(s) && Step(s, a, t)
    ensures Invariant(t)
  {
    BoundedKeeps(s, a, t);
    if SourceWorkerAction(a) {
      SourceWorkerKeepsRows(s, a, t);
    } else {
      OthersKeepRows(s, a, t);
    }
  }

  // ---- Whole runs --------------------------------------------------------------------------

  // A new deployment, or one whose documents and indexes were imported without revisions on the
  // indexes: no job or run exists yet.
  ghost predicate Initial(s: System) {
    && s.phase == Idle && s.processes == {} && s.ended == {}
    && s.db.jobs == map[] && s.db.runs == map[] && s.db.observed == map[]
    && (forall id :: id in s.db.indexes ==> s.db.indexes[id].revision == None)
    && forall id :: id in s.db.documents ==>
         s.db.documents[id].expectedRevision == s.db.documents[id].revision
         && s.db.documents[id].expectedConfig <= s.db.source.configRevision
  }

  ghost predicate Execution(states: seq<System>, actions: seq<Action>) {
    && |states| == |actions| + 1
    && Initial(states[0])
    && forall i :: 0 <= i < |actions| ==> StepAt(states, actions, i)
  }

  ghost predicate StepAt(states: seq<System>, actions: seq<Action>, i: int)
    requires |states| == |actions| + 1 && 0 <= i < |actions|
  {
    Step(states[i], actions[i], states[i + 1])
  }

  lemma StepTaken(states: seq<System>, actions: seq<Action>, i: nat)
    requires Execution(states, actions) && i < |actions|
    ensures Step(states[i], actions[i], states[i + 1])
  {
    assert StepAt(states, actions, i);
  }

  // Some execution leads to this state.
  ghost predicate Reachable(s: System) {
    exists states, actions :: Reaches(states, actions, s)
  }

  ghost predicate Reaches(states: seq<System>, actions: seq<Action>, s: System) {
    Execution(states, actions) && states[|actions|] == s
  }

  lemma ReachableFirst(s: System)
    requires Initial(s)
    ensures Reachable(s)
  {
    assert Reaches([s], [], s);
  }

  lemma ReachableNext(s: System, a: Action, t: System)
    requires Reachable(s) && Step(s, a, t)
    ensures Reachable(t)
  {
    var states, actions :| Reaches(states, actions, s);
    var more, done := states + [t], actions + [a];
    forall i | 0 <= i < |done| ensures StepAt(more, done, i) {
      if i < |actions| { assert StepAt(states, actions, i); }
    }
    assert Reaches(more, done, t);
  }

  lemma {:induction false} ExecutionKeeps(states: seq<System>, actions: seq<Action>, i: nat)
    requires Execution(states, actions) && i < |states|
    ensures Invariant(states[i])
  {
    if i > 0 {
      ExecutionKeeps(states, actions, i - 1);
      StepTaken(states, actions, i - 1);
      StepKeeps(states[i - 1], actions[i - 1], states[i]);
    }
  }

  // In every state of every interleaving, a document that the retrieval query can see has a current
  // index, and that index was built from the document's current revision or is an imported one.
  lemma VisibleIsCurrent(states: seq<System>, actions: seq<Action>, i: nat, id: ExternalId)
    requires Execution(states, actions) && i < |states| && Visible(states[i].db, id)
    ensures var db := states[i].db;
      CurrentIndex(db, id).Some?
      && (CurrentIndex(db, id).value.revision == Some(db.documents[id].revision) || CurrentIndex(db, id).value.revision == None)
  {
    ExecutionKeeps(states, actions, i);
    assert SoundRow(states[i].db.documents[id], CurrentIndex(states[i].db, id));
  }

  // What a slow process publishes: nothing in the library, unless revision and configuration are the
  // ones it started from.
  lemma PublishFenced(db: Db, p: Process)
    ensures var after := Published(db, p);
      if p.document in db.documents && p.revision == db.documents[p.document].expectedRevision && p.config == db.source.configRevision
         && !Overtaken(db, db.documents[p.document], p.revision, p.config)
      then after.documents[p.document].status == DocumentStatus.Ready && CurrentIndex(after, p.document) == Some(Index(Some(IndexedRevision(p)), true))
      else after == db.(jobs := after.jobs)
  {
  }

  lemma ConfigStep(states: seq<System>, actions: seq<Action>, i: nat)
    requires Execution(states, actions) && i < |actions|
    ensures states[i].db.source.configRevision <= states[i + 1].db.source.configRevision
    ensures states[i].processes <= states[i + 1].processes
  {
    StepTaken(states, actions, i);
    ConfigNeverFalls(states[i], actions[i], states[i + 1]);
  }

  lemma {:induction false} ConfigAlong(states: seq<System>, actions: seq<Action>, i: nat, j: nat)
    requires Execution(states, actions) && i <= j < |states|
    ensures states[i].db.source.configRevision <= states[j].db.source.configRevision && states[i].processes <= states[j].processes
    decreases j - i
  {
    if i < j {
      ConfigStep(states, actions, i);
      ConfigAlong(states, actions, i + 1, j);
    }
  }

  ghost predicate QueuedAtCurrent(db: Db) {
    forall j :: j in db.jobs && db.jobs[j].status == JobQueued ==> db.jobs[j].config == db.source.configRevision
  }

  // ---- The switch --------------------------------------------------------------------------

  ghost predicate MigrationAction(a: Action) {
    a.StartMigrating? || a.Decide? || a.Cancel?
  }

  // When a step may switch: no run of the migration is queued or running, the configuration stands,
  // and the target has been checked, was confirmed, or there is no collection to check.
  ghost predicate MaySwitch(db: Db, m: MigrationId)
    requires m in db.migrations
  {
    && db.source.configRevision == db.migrations[m].sourceConfigRevision
    && (forall r :: r in db.runs && db.runs[r].migration == Some(m) ==> db.runs[r].status != RunQueued && db.runs[r].status != RunRunning)
    && (MigrationCollections(db) == {} || TargetResembles(db, m) || db.migrations[m].allowRisk)
  }

  // In every step of both workers: the source keeps its endpoint, credentials and revision, or
  // everything switches at once and may; and a step of a migration that does not switch leaves the
  // library untouched.
  lemma MigrationAllOrNothing(s: System, a: Action, t: System)
    requires Step(s, a, t) && !a.Administer?
    ensures !Switches(a) ==> t.db.source == s.db.source
    ensures MigrationAction(a) && !Switches(a) ==> LibraryUntouched(s.db, t.db)
    ensures Switches(a) ==> a.migration in s.db.migrations && MaySwitch(s.db, a.migration) && Switched(s.db, a.migration, t.db)
  {
    if MigrationAction(a) { MigratingAllOrNothing(s, a, t); } else { OthersKeepSource(s, a, t); }
  }

  lemma OthersKeepSource(s: System, a: Action, t: System)
    requires Step(s, a, t) && !a.Administer? && !MigrationAction(a)
    ensures t.db.source == s.db.source
  {
    if SourceWorkerAction(a) { SourceWorkerConfig(s, a, t); } else { IndexStepSide(s, a, t); }
  }

  lemma MigratingAllOrNothing(s: System, a: Action, t: System)
    requires Step(s, a, t) && MigrationAction(a)
    ensures !Switches(a) ==> LibraryUntouched(s.db, t.db)
    ensures Switches(a) ==> a.migration in s.db.migrations && MaySwitch(s.db, a.migration) && Switched(s.db, a.migration, t.db)
  {
    match a
    case StartMigrating(m, now, start) =>
      StartAllOrNothing(s.db, m, now, start, t.db);
      NoneLive(s.db.runs, m);
    case Decide(m, decision, order) => DecisionAllOrNothing(s.db, m, decision, order, t.db);
    case Cancel(m, failed) => CancellingTouchesNothing(s.db, m, failed);
  }

  lemma NoneLive(runs: map<RunId, Run>, m: MigrationId)
    requires LiveRunsOf(runs, m) == {}
    ensures forall r :: r in runs && runs[r].migration == Some(m) ==> runs[r].status != RunQueued && runs[r].status != RunRunning
  {
    forall r | r in runs && runs[r].migration == Some(m) ensures !Unfinished(runs[r]) {
      assert r !in LiveRunsOf(runs, m);
    }
  }

  // What a switch leaves of the jobs: the queued ones at the new revision, and the running ones behind.
  lemma SwitchedJobs(s: System, a: Action, t: System)
    requires Rows(s.db) && Step(s, a, t) && Switches(a)
    ensures t.db.source.configRevision == s.db.source.configRevision + 1 && QueuedAtCurrent(t.db)
    ensures forall j :: j in t.db.jobs && t.db.jobs[j].status == JobRunning ==> t.db.jobs[j].config < t.db.source.configRevision
  {
    MigrationAllOrNothing(s, a, t);
    if a.Decide? {
      ApplyRunsRows(s.db, a.order);
      ApplyRunsKeep(s.db, a.order);
      RunningBehind(ApplyRuns(s.db, a.order).value, a.migration);
    } else {
      RunningBehind(s.db, a.migration);
    }
  }

  lemma RunningBehind(db: Db, m: MigrationId)
    requires Rows(db) && m in db.migrations
    ensures var after := SwitchSource(db, m);
      forall j :: j in after.jobs && after.jobs[j].status == JobRunning ==> after.jobs[j].config < after.source.configRevision
  {
    var after := SwitchSource(db, m);
    forall j | j in after.jobs && after.jobs[j].status == JobRunning ensures after.jobs[j].config < after.source.configRevision {
      assert BoundedJob(db.jobs[j], db.source.configRevision);
    }
  }

  // Once the source has been switched, in whichever step, every job still queued carries the new
  // revision, and every process that had started before is refused at publish, however late it comes.
  lemma SwitchFencesJobs(states: seq<System>, actions: seq<Action>, i: nat, j: nat, p: Process)
    requires Execution(states, actions) && i < j < |states| && Switches(actions[i])
    requires p in states[i].processes
    ensures QueuedAtCurrent(states[i + 1].db)
    ensures Published(states[j].db, p) == states[j].db.(jobs := Published(states[j].db, p).jobs)
  {
    ExecutionKeeps(states, actions, i);
    StepTaken(states, actions, i);
    SwitchedJobs(states[i], actions[i], states[i + 1]);
    ConfigAlong(states, actions, i + 1, j);
    assert p.config < states[j].db.source.configRevision;
    PublishFenced(states[j].db, p);
  }

  // ---- What the index worker's transactions do to retrieval -----------------------------------

  // Everything the retrieval filter asks of a document but its index.
  predicate Presentable(db: Db, id: ExternalId) {
    && id in db.documents
    && var d := db.documents[id];
       && !d.deleted && d.lifecycle == ItemActive
       && d.collection in db.projects && !db.projects[d.collection].deleted
       && db.projects[d.collection].lifecycle == ProjectActive && db.projects[d.collection].eligible
       && db.source.state == SourceActive
       && d.collection in db.collections
       && var c := db.collections[d.collection];
          !c.deleted && c.selected && c.registered && c.valid && c.lifecycle == CollectionActive
  }

  // A claimed document is out of retrieval until its job is done, and no other is.
  lemma ClaimHides(db: Db, j: JobId, id: ExternalId)
    requires CanStart(db, j)
    ensures Visible(Claimed(db, j), id) <==> Visible(db, id) && id != db.jobs[j].document
  {
  }

  // Publishing brings in its own document, when it is not refused, and never takes one out.
  lemma PublishShows(db: Db, p: Process, id: ExternalId)
    ensures Visible(Published(db, p), id) <==> Visible(db, id) || (id == p.document && !Refused(db, p) && Presentable(db, id))
    ensures id != p.document ==> CurrentIndex(Published(db, p), id) == CurrentIndex(db, id)
    ensures p.document in db.documents && Visible(Published(db, p), p.document) && !Visible(db, p.document) ==>
      CurrentIndex(Published(db, p), p.document) == Some(Index(Some(IndexedRevision(p)), true))
  {
  }

  // A failure brings nothing in, and takes out at most the document of a job that was not overtaken.
  lemma FailureHides(db: Db, j: JobId, failure: Failure, id: ExternalId)
    requires Readable(db, j)
    ensures Visible(AfterFailure(db, j, failure), id) ==> Visible(db, id)
    ensures Visible(db, id) && !Visible(AfterFailure(db, j, failure), id) ==>
      id == db.jobs[j].document && VerdictOn(db, j, failure) != Drop
  {
  }

  // A failed run takes out the documents of its collection if access to the collection was denied, and
  // none otherwise; the failure of a migration's run takes out none.
  lemma DenialHides(db: Db, r: RunId, denied: bool, id: ExternalId)
    requires r in db.runs && (db.runs[r].migration.Some? ==> db.runs[r].migration.value in db.migrations)
    ensures Visible(FailRun(db, r, denied), id) <==>
      Visible(db, id) && !(denied && db.runs[r].migration.None? && db.documents[id].collection == db.runs[r].collection)
  {
    var run := db.runs[r];
    var failed := db.(runs := db.runs[r := run.(status := RunFailed)]);
    if run.migration.Some? {
      FailedRunTouchesNothing(db, r, denied);
    } else {
      RevocationHides(failed.(observed := db.observed - {r}), run.collection, id);
    }
  }

  lemma RevocationHides(db: Db, c: CollectionId, id: ExternalId)
    ensures Visible(RevokeCollection(db, c), id) <==> Visible(db, id) && db.documents[id].collection != c
  {
    if id in db.documents {
      if db.documents[id].collection == c { RevokedIsHidden(db, c, id); } else { RevocationSpares(db, c, id); }
    }
  }

  lemma RevokedIsHidden(db: Db, c: CollectionId, id: ExternalId)
    requires id in db.documents && db.documents[id].collection == c
    ensures !Visible(RevokeCollection(db, c), id)
  {
    var d := RevokeCollection(db, c).documents[id];
    assert d.collection == c && (d.deleted || !d.eligible);
  }

  lemma RevocationSpares(db: Db, c: CollectionId, id: ExternalId)
    requires id in db.documents && db.documents[id].collection != c
    ensures Visible(RevokeCollection(db, c), id) <==> Visible(db, id)
  {
    var after, k := RevokeCollection(db, c), db.documents[id].collection;
    assert after.documents[id] == db.documents[id] && after.indexes == db.indexes && after.source == db.source;
    assert k in db.projects ==> after.projects[k] == db.projects[k];
    assert k in db.collections ==> after.collections[k] == db.collections[k];
  }

  // Whatever happens, a job is queued only below the attempts it has, and never runs beyond them.
  lemma AttemptsBounded(states: seq<System>, actions: seq<Action>, i: nat, j: JobId)
    requires Execution(states, actions) && i < |states| && j in states[i].db.jobs
    ensures var job := states[i].db.jobs[j];
      (job.status == JobQueued ==> job.attempts < MAX_ATTEMPTS) && (job.status == JobRunning ==> job.attempts <= MAX_ATTEMPTS)
  {
    ExecutionKeeps(states, actions, i);
    assert BoundedJob(states[i].db.jobs[j], states[i].db.source.configRevision);
  }

  // ---- The unfenced skip -------------------------------------------------------------------

  // Skipping does not read the fence: it costs retrieval nothing if and only if its document cannot be
  // retrieved anyway. A document that can be is lost to an overtaken process exactly when its revision
  // or the configuration has moved since, where publishing would have changed nothing.
  lemma SkipIsUnfenced(db: Db, p: Process)
    ensures (forall id :: Visible(db, id) ==> Visible(SkippedBy(db, p), id)) <==> !Visible(db, p.document)
    ensures Visible(db, p.document) ==>
      (Refused(db, p) <==> p.revision != db.documents[p.document].expectedRevision || p.config != db.source.configRevision)
    ensures Refused(db, p) ==> forall id :: Visible(Published(db, p), id) <==> Visible(db, id)
  {
    if Visible(db, p.document) {
      assert !Visible(SkippedBy(db, p), p.document);
    }
  }
}
