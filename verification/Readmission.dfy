/**
 The same over whole executions: a document that stays out of the library while both workers and the
 administration go on, and the batch or the applied migration that lets it back in.
 */
module Readmission {

  import opened Outcome
  import opened Corpus
  import opened Reconciliation
  import opened SourceSteps
  import opened SourceWorker
  import opened SyncRuns
  import opened Migrations
  import opened IndexSteps
  import opened Interleaving
  import opened Publication
  import opened Restoration

  // Excluded, with its index and nothing under way, whatever its status.
  ghost predicate Held(db: Db, id: ExternalId, revision: Revision) {
    Retained(db, id, revision) && db.documents[id].lifecycle == ItemExcluded
  }

  // Still so, and not failed unless it was before.
  ghost predicate HeldOn(db: Db, after: Db, id: ExternalId, revision: Revision)
    requires id in db.documents
  {
    Held(after, id, revision) && (after.documents[id].status == DocumentFailed ==> db.documents[id].status == DocumentFailed)
  }

  // ---- What leaves a document out ------------------------------------------------------------

  // When a scan comes to the document itself, its own rule excludes it.
  ghost predicate ScanLeavesOut(seen: Scan, order: seq<ExternalId>, pass: Pass, id: ExternalId) {
    id in order && id in seen && seen[id].isDocument ==> Classify(id, seen[id], pass) == ItemExcluded
  }

  // And the run has seen it, or hidden it with its folder, when it ends.
  ghost predicate CloseLeavesOut(db: Db, pass: Pass, id: ExternalId) {
    id in db.items ==> !Unseen(db.items[id], pass)
  }

  ghost predicate RunLeavesOut(db: Db, r: RunId, id: ExternalId)
    requires r in db.runs
  {
    db.runs[r].collection in db.collections ==>
      var seen, pass := ScanOf(db, r), PassOf(db, r, RulesOf(db, r));
      && ScanLeavesOut(seen, InOrder(seen, seen.Keys), pass, id)
      && CloseLeavesOut(ReconcileMany(db, pass, db.runs[r].configRevision, seen, InOrder(seen, seen.Keys), true), pass, id)
  }

  ghost predicate RunsLeaveOut(db: Db, runs: seq<RunId>, id: ExternalId)
    decreases |runs|
  {
    runs != [] && runs[0] in db.runs ==>
      && RunLeavesOut(db, runs[0], id)
      && (ApplyRun(db, runs[0]).Returned? ==> RunsLeaveOut(ApplyRun(db, runs[0]).value, runs[1..], id))
  }

  // A step that lets the document be: no scan readmits it and no run ends without it, and the
  // administration neither restores nor reindexes it. Everything else both workers do is allowed.
  ghost predicate LeavesOut(s: System, a: Action, t: System, id: ExternalId) {
    match a
    case Batch(size) =>
      s.phase.Reconciling? && s.phase.pass.run in s.db.runs ==>
        ScanLeavesOut(ScanOf(s.db, s.phase.pass.run), BatchOrder(s.db, s.phase.pass, size), s.phase.pass, id)
    case Close(_) => s.phase.Closing? && s.phase.pass.run in s.db.runs ==> ClosingLeavesOut(s.db, s.phase.pass.run, id)
    case Decide(_, decision, order) => decision == Applied ==> RunsLeaveOut(s.db, order, id)
    case Administer => CurrentIndex(t.db, id) == CurrentIndex(s.db, id) && ActiveJobs(t.db.jobs, id) == {}
    case _ => true
  }

  ghost predicate ClosingLeavesOut(db: Db, r: RunId, id: ExternalId)
    requires r in db.runs
  {
    Current(db, db.runs[r]) ==> CloseLeavesOut(db, PassOf(db, r, RulesOf(db, r)), id)
  }

  // ---- Reconciling -------------------------------------------------------------------------

  lemma DocumentStaysOut(db: Db, pass: Pass, config: nat, k: ExternalId, o: Observation, lifecycle: ItemState, preserveIndex: bool,
                         id: ExternalId, revision: Revision)
    requires Held(db, id, revision) && (k == id ==> lifecycle == ItemExcluded)
    ensures HeldOn(db, ReconcileDocument(db, pass, config, k, o, lifecycle, preserveIndex), id, revision)
    ensures k != id ==> Unread(db, ReconcileDocument(db, pass, config, k, o, lifecycle, preserveIndex), id)
  {
    DocumentHeld(db, pass, config, k, o, lifecycle, preserveIndex, id, revision);
  }

  // Its own row has not been read again.
  ghost predicate Unread(db: Db, after: Db, id: ExternalId)
    requires id in db.documents
  {
    id in after.documents && after.documents[id].status == db.documents[id].status && after.documents[id].revision == db.documents[id].revision
  }

  lemma HiddenStaysOut(db: Db, below: set<ExternalId>, id: ExternalId, revision: Revision)
    requires Held(db, id, revision)
    ensures var after := db.(documents := HideDocuments(db.documents, below), jobs := SupersedeJobs(db.jobs, below));
      HeldOn(db, after, id, revision) && Unread(db, after, id)
  {
    SupersededIdle(db.jobs, below, id);
  }

  lemma OneStaysOut(db: Db, pass: Pass, config: nat, k: ExternalId, o: Observation, preserveIndex: bool, id: ExternalId, revision: Revision)
    requires Held(db, id, revision) && (k == id && o.isDocument ==> Classify(id, o, pass) == ItemExcluded)
    ensures HeldOn(db, ReconcileOne(db, pass, config, k, o, preserveIndex), id, revision)
    ensures k != id ==> Unread(db, ReconcileOne(db, pass, config, k, o, preserveIndex), id)
  {
    var placed := db.(items := ReconcileItem(db.items, k, o, pass));
    if o.isDocument {
      DocumentStaysOut(placed, pass, config, k, o, Classify(k, o, pass), preserveIndex, id, revision);
    } else if Classify(k, o, pass) == ItemExcluded {
      HiddenStaysOut(placed, Descendants(db.items[k := ItemOf(db.items, k, o, pass)], k), id, revision);
    }
  }

  lemma {:induction false} ManyStayOut(db: Db, pass: Pass, config: nat, seen: Scan, order: seq<ExternalId>, preserveIndex: bool,
                                       id: ExternalId, revision: Revision)
    requires Held(db, id, revision) && ScanLeavesOut(seen, order, pass, id) && forall k :: k in order ==> k in seen
    ensures HeldOn(db, ReconcileMany(db, pass, config, seen, order, preserveIndex), id, revision)
    ensures id !in order ==> Unread(db, ReconcileMany(db, pass, config, seen, order, preserveIndex), id)
    decreases |order|
  {
    if order != [] {
      assert order[0] == id ==> id in order;
      assert id in order[1..] ==> id in order;
      OneStaysOut(db, pass, config, order[0], seen[order[0]], preserveIndex, id, revision);
      ManyStayOut(ReconcileOne(db, pass, config, order[0], seen[order[0]], preserveIndex), pass, config, seen, order[1..], preserveIndex,
                  id, revision);
    }
  }

  lemma CloseStaysOut(db: Db, pass: Pass, id: ExternalId, revision: Revision)
    requires Held(db, id, revision) && CloseLeavesOut(db, pass, id) && pass.run in db.runs
    ensures HeldOn(db, CloseScan(db, pass), id, revision) && Unread(db, CloseScan(db, pass), id)
  {
  }

  // ---- Runs and migrations -------------------------------------------------------------------

  // Nothing that the document's place depends on has changed.
  lemma SameLibrary(db: Db, after: Db, id: ExternalId, revision: Revision)
    requires Held(db, id, revision) && after.documents == db.documents && after.indexes == db.indexes && after.jobs == db.jobs
    ensures HeldOn(db, after, id, revision)
  {
  }

  lemma SupersedeLibrary(db: Db, r: RunId, now: nat)
    requires r in db.runs
    ensures var after := Supersede(db, r, now);
      after.documents == db.documents && after.indexes == db.indexes && after.jobs == db.jobs
  {
    var run := db.runs[r];
    var withdrawn := db.(runs := db.runs[r := SourceSteps.Withdrawn(run)], observed := db.observed - {r});
    QueueRunKeeps(withdrawn, run.collection, db.source.configRevision, run.trigger, now);
  }

  lemma CompleteStaysOut(db: Db, r: RunId, now: nat, id: ExternalId, revision: Revision)
    requires Held(db, id, revision) && r in db.runs && ClosingLeavesOut(db, r, id)
    ensures HeldOn(db, CompleteRun(db, r, now), id, revision)
  {
    var run := db.runs[r];
    if Current(db, run) {
      var pass := PassOf(db, r, db.collections[run.collection].rules);
      CloseStaysOut(db, pass, id, revision);
      var closed := CloseScan(db, pass);
      var reopened := closed.(collections := db.collections[run.collection := db.collections[run.collection].(lifecycle := CollectionActive)]);
      QueueRunKeeps(reopened, run.collection, run.configRevision, Manual, now);
      SameLibrary(closed, CompleteRun(db, r, now), id, revision);
    } else {
      SupersedeLibrary(db, r, now);
      SameLibrary(db, CompleteRun(db, r, now), id, revision);
    }
  }

  lemma RevokeStaysOut(db: Db, c: CollectionId, id: ExternalId, revision: Revision)
    requires Held(db, id, revision)
    ensures HeldOn(db, RevokeCollection(db, c), id, revision)
  {
    var after := RevokeCollection(db, c);
    forall j | j in after.jobs ensures j !in ActiveJobs(after.jobs, id) {
      assert j !in ActiveJobs(db.jobs, id);
    }
  }

  lemma FailStaysOut(db: Db, r: RunId, denied: bool, id: ExternalId, revision: Revision)
    requires Held(db, id, revision) && r in db.runs && (db.runs[r].migration.Some? ==> db.runs[r].migration.value in db.migrations)
    ensures HeldOn(db, FailRun(db, r, denied), id, revision)
  {
    var run := db.runs[r];
    var failed := db.(runs := db.runs[r := run.(status := RunFailed)]);
    if run.migration.Some? {
      SameLibrary(db, CancelMigration(failed, run.migration.value, true), id, revision);
    } else {
      var cleared := failed.(observed := db.observed - {r});
      SameLibrary(db, cleared, id, revision);
      RevokeStaysOut(cleared, run.collection, id, revision);
    }
  }

  lemma ApplyStaysOut(db: Db, r: RunId, id: ExternalId, revision: Revision)
    requires Held(db, id, revision) && r in db.runs && RunLeavesOut(db, r, id) && ApplyRun(db, r).Returned?
    ensures HeldOn(db, ApplyRun(db, r).value, id, revision)
    ensures id !in ScanOf(db, r) ==> Unread(db, ApplyRun(db, r).value, id)
  {
    if db.runs[r].collection in db.collections {
      var seen := ScanOf(db, r);
      var reconciled, pass := ApplyRunIs(db, r);
      ManyStayOut(db, pass, db.runs[r].configRevision, seen, InOrder(seen, seen.Keys), true, id, revision);
      CloseStaysOut(reconciled, pass, id, revision);
    }
  }

  lemma {:induction false} ApplyAllStaysOut(db: Db, runs: seq<RunId>, id: ExternalId, revision: Revision)
    requires Held(db, id, revision) && RunsLeaveOut(db, runs, id) && ApplyRuns(db, runs).Returned?
    ensures HeldOn(db, ApplyRuns(db, runs).value, id, revision)
    decreases |runs|
  {
    if runs != [] {
      ApplyStaysOut(db, runs[0], id, revision);
      ApplyAllStaysOut(ApplyRun(db, runs[0]).value, runs[1..], id, revision);
    }
  }

  lemma SwitchStaysOut(db: Db, m: MigrationId, id: ExternalId, revision: Revision)
    requires Held(db, id, revision) && m in db.migrations
    ensures HeldOn(db, SwitchSource(db, m), id, revision)
  {
    var after := SwitchSource(db, m);
    forall j | j in after.jobs ensures j !in ActiveJobs(after.jobs, id) {
      assert j !in ActiveJobs(db.jobs, id);
    }
  }

  lemma MigrationStaysOut(s: System, a: Action, t: System, id: ExternalId, revision: Revision)
    requires Step(s, a, t) && MigrationAction(a) && LeavesOut(s, a, t, id) && Held(s.db, id, revision)
    ensures HeldOn(s.db, t.db, id, revision)
  {
    if Switches(a) {
      MigratingAllOrNothing(s, a, t);
      if a.Decide? {
        ApplyAllStaysOut(s.db, a.order, id, revision);
        ApplyRunsKeep(s.db, a.order);
        SwitchStaysOut(ApplyRuns(s.db, a.order).value, a.migration, id, revision);
      } else {
        SwitchStaysOut(s.db, a.migration, id, revision);
      }
    } else {
      MigratingAllOrNothing(s, a, t);
      SameLibrary(s.db, t.db, id, revision);
    }
  }

  // ---- The index worker ----------------------------------------------------------------------

  lemma NotItsJob(jobs: map<JobId, Job>, j: JobId, id: ExternalId)
    requires ActiveJobs(jobs, id) == {} && j in jobs && jobs[j].status in {JobQueued, JobRunning}
    ensures jobs[j].document != id
  {
    assert j !in ActiveJobs(jobs, id);
  }

  // A job that is settled, or belongs to another document, gives this one nothing to do.
  lemma OtherJob(jobs: map<JobId, Job>, j: JobId, job: Job, id: ExternalId)
    requires ActiveJobs(jobs, id) == {} && (job.document != id || job.status !in {JobQueued, JobRunning})
    ensures ActiveJobs(jobs[j := job], id) == {}
  {
    var after := jobs[j := job];
    forall k | k in after ensures k !in ActiveJobs(after, id) {
      if k != j { assert k !in ActiveJobs(jobs, id); }
    }
  }

  lemma ClaimStaysOut(db: Db, j: JobId, id: ExternalId, revision: Revision)
    requires Held(db, id, revision) && CanStart(db, j)
    ensures HeldOn(db, Claimed(db, j), id, revision)
  {
    NotItsJob(db.jobs, j, id);
    OtherJob(db.jobs, j, Claimed(db, j).jobs[j], id);
  }

  lemma BeginStaysOut(s: System, j: JobId, id: ExternalId, revision: Revision)
    requires Held(s.db, id, revision) && Readable(s.db, j)
    ensures HeldOn(s.db, Begun(s, j).db, id, revision)
  {
    NotItsJob(s.db.jobs, j, id);
    OtherJob(s.db.jobs, j, s.db.jobs[j].(status := JobSuperseded), id);
  }

  // A process of the document itself is refused: the document is not in the library.
  lemma PublishStaysOut(db: Db, p: Process, id: ExternalId, revision: Revision)
    requires Held(db, id, revision)
    ensures HeldOn(db, Published(db, p), id, revision)
  {
    if p.job in db.jobs { OtherJob(db.jobs, p.job, Published(db, p).jobs[p.job], id); }
    assert p.document == id ==> Refused(db, p);
  }

  lemma SkipStaysOut(db: Db, p: Process, id: ExternalId, revision: Revision)
    requires Held(db, id, revision)
    ensures HeldOn(db, SkippedBy(db, p), id, revision)
  {
    if p.job in db.jobs { OtherJob(db.jobs, p.job, SkippedBy(db, p).jobs[p.job], id); }
  }

  lemma FailureStaysOut(db: Db, j: JobId, failure: Failure, id: ExternalId, revision: Revision)
    requires Held(db, id, revision)
    ensures HeldOn(db, AfterFailure(db, j, failure), id, revision)
  {
    if Readable(db, j) {
      NotItsJob(db.jobs, j, id);
      OtherJob(db.jobs, j, AfterFailure(db, j, failure).jobs[j], id);
    }
  }

  lemma WorkingStaysOut(s: System, a: Action, t: System, id: ExternalId, revision: Revision)
    requires Step(s, a, t) && (a.ClaimNext? || a.Begin?) && Held(s.db, id, revision)
    ensures HeldOn(s.db, t.db, id, revision)
  {
    if a.ClaimNext? { ClaimStaysOut(s.db, a.job, id, revision); } else { BeginStaysOut(s, a.job, id, revision); }
  }

  lemma SettlingStaysOut(s: System, a: Action, t: System, id: ExternalId, revision: Revision)
    requires Step(s, a, t) && (a.Publish? || a.Skip? || a.FailJob?) && Held(s.db, id, revision)
    ensures HeldOn(s.db, t.db, id, revision)
  {
    match a
    case Publish(p) => PublishStaysOut(s.db, p, id, revision);
    case Skip(p) => SkipStaysOut(s.db, p, id, revision);
    case FailJob(j, failure) => FailureStaysOut(s.db, j, failure, id, revision);
  }

  lemma IndexingStaysOut(s: System, a: Action, t: System, id: ExternalId, revision: Revision)
    requires Step(s, a, t) && IndexAction(a) && Held(s.db, id, revision)
    ensures HeldOn(s.db, t.db, id, revision)
  {
    if a.ClaimNext? || a.Begin? {
      WorkingStaysOut(s, a, t, id, revision);
    } else {
      SettlingStaysOut(s, a, t, id, revision);
    }
  }

  // ---- Every step --------------------------------------------------------------------------

  lemma BatchStaysOut(s: System, size: nat, t: System, id: ExternalId, revision: Revision)
    requires BatchStep(s, size, t) && LeavesOut(s, Batch(size), t, id) && Held(s.db, id, revision)
    ensures HeldOn(s.db, t.db, id, revision)
  {
    var pass := s.phase.pass;
    var seen, order := ScanOf(s.db, pass.run), BatchOrder(s.db, pass, size);
    ManyStayOut(s.db, pass, s.db.runs[pass.run].configRevision, seen, order, false, id, revision);
    SameLibrary(ReconcileMany(s.db, pass, s.db.runs[pass.run].configRevision, seen, order, false), BatchRows(s.db, pass, size), id, revision);
  }

  lemma ClaimedRunStaysOut(s: System, now: nat, t: System, id: ExternalId, revision: Revision)
    requires ClaimStep(s, now, t) && Held(s.db, id, revision)
    ensures HeldOn(s.db, t.db, id, revision)
  {
    var swept: Db :| Swept(s.db, Stale(s.db), swept, now) && TakesOne(s, swept, now, t);
    SameLibrary(s.db, t.db, id, revision);
  }

  lemma SourceStaysOut(s: System, a: Action, t: System, id: ExternalId, revision: Revision)
    requires Step(s, a, t) && SourceWorkerAction(a) && LeavesOut(s, a, t, id) && Held(s.db, id, revision)
    ensures HeldOn(s.db, t.db, id, revision)
  {
    if Checks(a) {
      ChecksOnly(s, a, t);
    } else {
      match a
      case Queue(c, config, trigger, now) =>
        QueueRunKeeps(s.db, c, config, trigger, now);
        SameLibrary(s.db, t.db, id, revision);
      case Claim(now) => ClaimedRunStaysOut(s, now, t, id, revision);
      case Observe(_) => SameLibrary(s.db, t.db, id, revision);
      case MarkScanned => SameLibrary(s.db, t.db, id, revision);
      case Batch(size) => BatchStaysOut(s, size, t, id, revision);
      case Close(now) => CompleteStaysOut(s.db, s.phase.pass.run, now, id, revision);
      case GiveUp(now) =>
        SupersedeLibrary(s.db, s.phase.run, now);
        SameLibrary(s.db, t.db, id, revision);
      case Fail => FailStaysOut(s.db, s.phase.run, s.phase.denied, id, revision);
      case Restart => SameLibrary(s.db, t.db, id, revision);
    }
  }

  lemma AdministrationStaysOut(s: System, t: System, id: ExternalId, revision: Revision)
    requires Step(s, Administer, t) && LeavesOut(s, Administer, t, id) && Held(s.db, id, revision)
    ensures HeldOn(s.db, t.db, id, revision)
  {
    assert AdministeredDocument(s.db.documents[id], t.db.documents[id]);
  }

  lemma StepStaysOut(s: System, a: Action, t: System, id: ExternalId, revision: Revision)
    requires Step(s, a, t) && LeavesOut(s, a, t, id) && Held(s.db, id, revision)
    ensures HeldOn(s.db, t.db, id, revision)
  {
    if SourceWorkerAction(a) {
      SourceStaysOut(s, a, t, id, revision);
    } else if IndexAction(a) {
      IndexingStaysOut(s, a, t, id, revision);
    } else if MigrationAction(a) {
      MigrationStaysOut(s, a, t, id, revision);
    } else {
      AdministrationStaysOut(s, t, id, revision);
    }
  }

  // ---- Reconciling the document again ----------------------------------------------------------

  // Folders come before documents, and no id comes twice.
  ghost predicate Sorted(seen: Scan, order: seq<ExternalId>) {
    && (forall k :: k in order ==> k in seen)
    && forall a, b :: 0 <= a < b < |order| ==> order[a] != order[b] && Before(seen, order[a], order[b])
  }

  lemma {:induction false} OrderSorted(seen: Scan, ids: set<ExternalId>)
    requires ids <= seen.Keys
    ensures Sorted(seen, InOrder(seen, ids))
    decreases |ids|
  {
    if ids != {} {
      var m := FirstExists(seen, ids);
      OrderStep(seen, ids, m);
      OrderSorted(seen, ids - {m});
      var rest := InOrder(seen, ids - {m});
      forall k | k in rest ensures k != m && Before(seen, m, k) {
        assert k in ids - {m};
      }
      SortedBehind(seen, m, rest);
    }
  }

  lemma SortedBehind(seen: Scan, m: ExternalId, rest: seq<ExternalId>)
    requires Sorted(seen, rest) && m in seen && forall k :: k in rest ==> k != m && Before(seen, m, k)
    ensures Sorted(seen, [m] + rest)
  {
    var order := [m] + rest;
    forall a, b | 0 <= a < b < |order| ensures order[a] != order[b] && Before(seen, order[a], order[b]) {
      assert order[b] == rest[b - 1];
      if a > 0 { assert order[a] == rest[a - 1]; }
    }
  }

  lemma BatchSorted(db: Db, pass: Pass, size: nat)
    ensures Sorted(ScanOf(db, pass.run), BatchOrder(db, pass, size))
  {
    OrderSorted(ScanOf(db, pass.run), ScanOf(db, pass.run).Keys - DoneOf(db, pass.run));
  }

  lemma {:induction false} ManyAppend(db: Db, pass: Pass, config: nat, seen: Scan, a: seq<ExternalId>, b: seq<ExternalId>, preserveIndex: bool)
    requires forall id :: id in a + b ==> id in seen
    ensures (forall id :: id in a ==> id in seen) && (forall id :: id in b ==> id in seen)
    ensures ReconcileMany(db, pass, config, seen, a + b, preserveIndex)
         == ReconcileMany(ReconcileMany(db, pass, config, seen, a, preserveIndex), pass, config, seen, b, preserveIndex)
    decreases |a|
  {
    forall id | id in a || id in b ensures id in seen { assert id in a + b; }
    if a == [] {
      assert a + b == b;
    } else {
      assert (a + b)[0] == a[0] && (a + b)[1..] == a[1..] + b;
      ManyAppend(ReconcileOne(db, pass, config, a[0], seen[a[0]], preserveIndex), pass, config, seen, a[1..], b, preserveIndex);
    }
  }

  // How a document comes back: with what status, and whether its index is kept whatever it was built
  // from.
  datatype Return = Return(collection: CollectionId, config: nat, revision: Revision, status: DocumentStatus, keepsIndex: bool)

  // Ready and eligible with its index; or to be indexed, with exactly one job for the observed revision;
  // or failed as before. The index of another revision is current only where it is kept.
  ghost predicate Readmitted(db: Db, id: ExternalId, back: Return, indexed: Revision) {
    var ready := back.status == DocumentStatus.Ready;
    && id in db.documents
    && db.documents[id] == Document(back.collection, back.status, back.revision, back.revision, back.config, ItemActive, ready, false)
    && CurrentIndex(db, id) == (if ready || back.keepsIndex then Some(Index(Some(indexed), true)) else None)
    && |ActiveJobs(db.jobs, id)| == (if back.status == Uploaded then 1 else 0)
    && forall j :: j in ActiveJobs(db.jobs, id) ==> db.jobs[j] == Job(id, back.collection, JobQueued, back.revision, back.config, 0)
  }

  function Back(db: Db, c: CollectionId, config: nat, id: ExternalId, o: Observation, keepsIndex: bool, indexed: Revision): Return {
    Return(c, config, o.revision, Returning(db, id, o, indexed), keepsIndex)
  }

  lemma OneReadmits(db: Db, pass: Pass, config: nat, id: ExternalId, o: Observation, preserveIndex: bool, revision: Revision)
    requires Held(db, id, revision) && o.isDocument && Classify(id, o, pass) == ItemActive
    ensures Readmitted(ReconcileOne(db, pass, config, id, o, preserveIndex), id,
                       Back(db, pass.collection, config, id, o, preserveIndex, revision), revision)
  {
    QueuedOnce(db.jobs, id, pass.collection, o.revision, config);
    ReturnedDocument(db, id, revision, pass, config, o, preserveIndex);
  }

  // The jobs of a document are its own.
  lemma SupersededElsewhere(jobs: map<JobId, Job>, ids: set<ExternalId>, id: ExternalId)
    requires id !in ids
    ensures ActiveJobs(SupersedeJobs(jobs, ids), id) == ActiveJobs(jobs, id)
    ensures forall j :: j in ActiveJobs(jobs, id) ==> SupersedeJobs(jobs, ids)[j] == jobs[j]
  {
  }

  lemma QueuedForAnother(jobs: map<JobId, Job>, k: ExternalId, c: CollectionId, revision: Revision, config: nat, id: ExternalId)
    requires k != id
    ensures var after := QueueJob(jobs, k, c, revision, config);
      ActiveJobs(after, id) == ActiveJobs(jobs, id) && forall j :: j in ActiveJobs(jobs, id) ==> after[j] == jobs[j]
  {
  }

  lemma AnotherDocument(db: Db, pass: Pass, config: nat, k: ExternalId, p: Observation, lifecycle: ItemState, preserveIndex: bool,
                        id: ExternalId, back: Return, indexed: Revision)
    requires Readmitted(db, id, back, indexed) && k != id
    ensures Readmitted(ReconcileDocument(db, pass, config, k, p, lifecycle, preserveIndex), id, back, indexed)
  {
    var jobs := if lifecycle == ItemExcluded then SupersedeJobs(db.jobs, {k}) else db.jobs;
    SupersededElsewhere(db.jobs, {k}, id);
    QueuedForAnother(jobs, k, pass.collection, p.revision, config, id);
  }

  // An observation of something else, that does not hide the document with its folder.
  lemma AnotherReconciled(db: Db, pass: Pass, config: nat, k: ExternalId, p: Observation, preserveIndex: bool, id: ExternalId, back: Return,
                          indexed: Revision)
    requires Readmitted(db, id, back, indexed) && k != id
    requires p.isDocument || Classify(k, p, pass) != ItemExcluded || id !in Descendants(db.items[k := ItemOf(db.items, k, p, pass)], k)
    ensures Readmitted(ReconcileOne(db, pass, config, k, p, preserveIndex), id, back, indexed)
  {
    var placed := db.(items := ReconcileItem(db.items, k, p, pass));
    assert Readmitted(placed, id, back, indexed);
    if p.isDocument {
      AnotherDocument(placed, pass, config, k, p, Classify(k, p, pass), preserveIndex, id, back, indexed);
    } else if Classify(k, p, pass) == ItemExcluded {
      SupersededElsewhere(db.jobs, Descendants(db.items[k := ItemOf(db.items, k, p, pass)], k), id);
    }
  }

  lemma {:induction false} OthersReconciled(db: Db, pass: Pass, config: nat, seen: Scan, order: seq<ExternalId>, preserveIndex: bool,
                                            id: ExternalId, back: Return, indexed: Revision)
    requires Readmitted(db, id, back, indexed)
    requires forall k :: k in order ==> k in seen && k != id && seen[k].isDocument
    ensures Readmitted(ReconcileMany(db, pass, config, seen, order, preserveIndex), id, back, indexed)
    decreases |order|
  {
    if order != [] {
      AnotherReconciled(db, pass, config, order[0], seen[order[0]], preserveIndex, id, back, indexed);
      OthersReconciled(ReconcileOne(db, pass, config, order[0], seen[order[0]], preserveIndex), pass, config, seen, order[1..], preserveIndex,
                       id, back, indexed);
    }
  }

  lemma AroundId(seen: Scan, order: seq<ExternalId>, id: ExternalId) returns (before: seq<ExternalId>, behind: seq<ExternalId>)
    requires Sorted(seen, order) && id in order && seen[id].isDocument
    ensures order == before + ([id] + behind)
    ensures forall k :: k in before ==> k in seen && k != id
    ensures forall k :: k in behind ==> k in seen && k != id && seen[k].isDocument
  {
    var i :| 0 <= i < |order| && order[i] == id;
    before, behind := order[..i], order[i + 1..];
    forall k | k in behind ensures k in seen && k != id && seen[k].isDocument {
      var j :| i < j < |order| && order[j] == k;
      assert Before(seen, order[i], order[j]);
    }
  }

  // Whatever else is reconciled with it: folders and documents before it, only documents behind it.
  lemma ManyReadmit(db: Db, pass: Pass, config: nat, seen: Scan, order: seq<ExternalId>, preserveIndex: bool, id: ExternalId, revision: Revision)
    requires Held(db, id, revision) && Sorted(seen, order) && id in order
    requires seen[id].isDocument && Classify(id, seen[id], pass) == ItemActive
    ensures Readmitted(ReconcileMany(db, pass, config, seen, order, preserveIndex), id,
                       Back(db, pass.collection, config, id, seen[id], preserveIndex, revision), revision)
  {
    var before, behind := AroundId(seen, order, id);
    ManyAppend(db, pass, config, seen, before, [id] + behind, preserveIndex);
    ManyStayOut(db, pass, config, seen, before, preserveIndex, id, revision);
    var reached := ReconcileMany(db, pass, config, seen, before, preserveIndex);
    OneReadmits(reached, pass, config, id, seen[id], preserveIndex, revision);
    assert ([id] + behind)[1..] == behind;
    OthersReconciled(ReconcileOne(reached, pass, config, id, seen[id], preserveIndex), pass, config, seen, behind, preserveIndex, id,
                     Back(db, pass.collection, config, id, seen[id], preserveIndex, revision), revision);
  }

  // ---- The batch that readmits ---------------------------------------------------------------

  // A batch whose scan lets the document back in.
  ghost predicate Readmits(s: System, a: Action, id: ExternalId) {
    && a.Batch? && s.phase.Reconciling? && s.phase.pass.run in s.db.runs
    && BatchResult(s.db, s.phase.pass, a.size) == BatchOutcome.Reconciled(true)
    && id in BatchOrder(s.db, s.phase.pass, a.size)
    && var o := ScanOf(s.db, s.phase.pass.run)[id];
       o.isDocument && Classify(id, o, s.phase.pass) == ItemActive
  }

  // What it comes back as.
  ghost function BatchBack(s: System, id: ExternalId, revision: Revision): Return
    requires s.phase.Reconciling? && s.phase.pass.run in s.db.runs && id in ScanOf(s.db, s.phase.pass.run)
  {
    var pass := s.phase.pass;
    Back(s.db, pass.collection, s.db.runs[pass.run].configRevision, id, ScanOf(s.db, pass.run)[id], false, revision)
  }

  lemma BatchReadmits(s: System, a: Action, t: System, id: ExternalId, revision: Revision)
    requires Step(s, a, t) && Held(s.db, id, revision) && Readmits(s, a, id)
    ensures Readmitted(t.db, id, BatchBack(s, id, revision), revision)
  {
    var pass := s.phase.pass;
    BatchSorted(s.db, pass, a.size);
    ManyReadmit(s.db, pass, s.db.runs[pass.run].configRevision, ScanOf(s.db, pass.run), BatchOrder(s.db, pass, a.size), false, id, revision);
  }

  // ---- The migration that readmits -------------------------------------------------------------

  // A scanned run that lets the document back in when it is applied.
  ghost predicate RunReadmits(db: Db, r: RunId, id: ExternalId) {
    && r in db.runs && db.runs[r].collection in db.collections && id in ScanOf(db, r)
    && var o := ScanOf(db, r)[id];
       o.isDocument && Classify(id, o, PassOf(db, r, RulesOf(db, r))) == ItemActive
  }

  // A run that leaves the row of the item alone.
  ghost predicate PassesBy(db: Db, r: RunId, id: ExternalId) {
    && r in db.runs && ApplyRun(db, r).Returned? && id in db.items && db.items[id].lastSeen != Some(r)
    && id in ApplyRun(db, r).value.items && ApplyRun(db, r).value.items[id] == db.items[id]
  }

  ghost predicate AllPassBy(db: Db, runs: seq<RunId>, id: ExternalId)
    decreases |runs|
  {
    runs != [] ==> PassesBy(db, runs[0], id) && AllPassBy(ApplyRun(db, runs[0]).value, runs[1..], id)
  }

  // Run `r` of those applied lets the document back in; those before it leave it out without reading it,
  // and those behind it pass it by.
  ghost predicate RunsReadmit(db: Db, runs: seq<RunId>, r: RunId, id: ExternalId)
    decreases |runs|
  {
    && runs != [] && runs[0] in db.runs && ApplyRun(db, runs[0]).Returned?
    && var next := ApplyRun(db, runs[0]).value;
       if runs[0] == r then RunReadmits(db, r, id) && AllPassBy(next, runs[1..], id)
       else RunLeavesOut(db, runs[0], id) && id !in ScanOf(db, runs[0]) && RunsReadmit(next, runs[1..], r, id)
  }

  // A run of another collection passes the document by, over path-shaped ids.
  lemma OtherCollectionPassesBy(db: Db, r: RunId, id: ExternalId)
    requires Applicable(db, r) && id in db.items && db.items[id].collection != db.runs[r].collection
    ensures PassesBy(db, r, id)
  {
    AppliedRunItems(db, r);
    OtherCollectionsUntouched(db.items, ScanOf(db, r), PassOf(db, r, RulesOf(db, r)), id);
  }

  lemma ApplyReadmits(db: Db, r: RunId, id: ExternalId, revision: Revision)
    requires Held(db, id, revision) && RunReadmits(db, r, id) && ApplyRun(db, r).Returned?
    ensures Readmitted(ApplyRun(db, r).value, id, RunBack(db, r, id, revision), revision)
  {
    var seen := ScanOf(db, r);
    var reconciled, pass := ApplyRunIs(db, r);
    OrderSorted(seen, seen.Keys);
    ManyReadmit(db, pass, db.runs[r].configRevision, seen, InOrder(seen, seen.Keys), true, id, revision);
    ManyFrame(db, pass, db.runs[r].configRevision, seen, InOrder(seen, seen.Keys), true);
    if id in reconciled.items { UnstampedRow(db.items, seen, InOrder(seen, seen.Keys), pass, id); }
  }

  // What the run does not stamp, it does not hide.
  lemma {:induction false} UnstampedStays(db: Db, pass: Pass, config: nat, seen: Scan, order: seq<ExternalId>, id: ExternalId, back: Return,
                                          indexed: Revision)
    requires Readmitted(db, id, back, indexed) && (forall k :: k in order ==> k in seen)
    requires var rows := ReconcileItems(db.items, seen, order, pass); id in rows && rows[id].lastSeen != Some(pass.run)
    ensures Readmitted(ReconcileMany(db, pass, config, seen, order, true), id, back, indexed)
    decreases |order|
  {
    if order != [] {
      var k := order[0];
      var next := ReconcileItem(db.items, k, seen[k], pass);
      UnstampedRow(next, seen, order[1..], pass, id);
      OneFrame(db, pass, config, k, seen[k], true);
      UnstampedNotHidden(db.items, k, seen[k], pass, id);
      AnotherReconciled(db, pass, config, k, seen[k], true, id, back, indexed);
      UnstampedStays(ReconcileOne(db, pass, config, k, seen[k], true), pass, config, seen, order[1..], id, back, indexed);
    }
  }

  lemma UnstampedNotHidden(items: Items, k: ExternalId, p: Observation, pass: Pass, id: ExternalId)
    requires id in ReconcileItem(items, k, p, pass) && ReconcileItem(items, k, p, pass)[id].lastSeen != Some(pass.run)
    ensures k != id && (!p.isDocument && Classify(k, p, pass) == ItemExcluded ==> id !in Descendants(items[k := ItemOf(items, k, p, pass)], k))
  {
  }

  lemma PassedBy(db: Db, r: RunId, id: ExternalId, back: Return, indexed: Revision)
    requires Readmitted(db, id, back, indexed) && PassesBy(db, r, id)
    ensures Readmitted(ApplyRun(db, r).value, id, back, indexed)
  {
    if db.runs[r].collection in db.collections {
      var seen := ScanOf(db, r);
      var reconciled, pass := ApplyRunIs(db, r);
      ManyFrame(db, pass, db.runs[r].configRevision, seen, InOrder(seen, seen.Keys), true);
      RowBeforeClosing(reconciled, pass, id, db.items[id]);
      UnstampedRow(db.items, seen, InOrder(seen, seen.Keys), pass, id);
      UnstampedStays(db, pass, db.runs[r].configRevision, seen, InOrder(seen, seen.Keys), id, back, indexed);
      ClosedPassesBy(reconciled, pass, id, back, indexed);
    }
  }

  lemma RowBeforeClosing(db: Db, pass: Pass, id: ExternalId, row: Item)
    requires pass.run in db.runs && id in CloseScan(db, pass).items && CloseScan(db, pass).items[id] == row && row.lastSeen != Some(pass.run)
    ensures id in db.items && db.items[id].lastSeen != Some(pass.run)
    ensures db.items[id] == row ==> !Unseen(db.items[id], pass)
  {
  }

  lemma ClosedPassesBy(db: Db, pass: Pass, id: ExternalId, back: Return, indexed: Revision)
    requires Readmitted(db, id, back, indexed) && pass.run in db.runs && id in db.items && !Unseen(db.items[id], pass)
    ensures Readmitted(CloseScan(db, pass), id, back, indexed)
  {
  }

  lemma {:induction false} AllPassedBy(db: Db, runs: seq<RunId>, id: ExternalId, back: Return, indexed: Revision)
    requires Readmitted(db, id, back, indexed) && AllPassBy(db, runs, id) && ApplyRuns(db, runs).Returned?
    ensures Readmitted(ApplyRuns(db, runs).value, id, back, indexed)
    decreases |runs|
  {
    if runs != [] {
      PassedBy(db, runs[0], id, back, indexed);
      AllPassedBy(ApplyRun(db, runs[0]).value, runs[1..], id, back, indexed);
    }
  }

  // What the document comes back as from run `r`, whatever is applied before.
  ghost function RunBack(db: Db, r: RunId, id: ExternalId, revision: Revision): Return
    requires r in db.runs && id in ScanOf(db, r)
  {
    Back(db, db.runs[r].collection, db.runs[r].configRevision, id, ScanOf(db, r)[id], true, revision)
  }

  lemma BackUnread(db: Db, next: Db, r: RunId, id: ExternalId, revision: Revision)
    requires id in db.documents && Unread(db, next, id) && r in db.runs && r in next.runs && next.runs[r] == db.runs[r]
    requires ScanOf(next, r) == ScanOf(db, r) && id in ScanOf(db, r)
    ensures RunBack(next, r, id, revision) == RunBack(db, r, id, revision)
  {
  }

  lemma {:induction false} ApplyAllReadmit(db: Db, runs: seq<RunId>, r: RunId, id: ExternalId, revision: Revision)
    requires Held(db, id, revision) && RunsReadmit(db, runs, r, id) && ApplyRuns(db, runs).Returned?
    ensures r in db.runs && id in ScanOf(db, r)
    ensures Readmitted(ApplyRuns(db, runs).value, id, RunBack(db, r, id, revision), revision)
    decreases |runs|
  {
    var next := ApplyRun(db, runs[0]).value;
    if runs[0] == r {
      ApplyReadmits(db, r, id, revision);
      AllPassedBy(next, runs[1..], id, RunBack(db, r, id, revision), revision);
    } else {
      ApplyStaysOut(db, runs[0], id, revision);
      ApplyRunKeeps(db, runs[0]);
      ApplyAllReadmit(next, runs[1..], r, id, revision);
      BackUnread(db, next, r, id, revision);
    }
  }

  lemma SwitchReadmits(db: Db, m: MigrationId, id: ExternalId, back: Return, indexed: Revision)
    requires Readmitted(db, id, back, indexed) && m in db.migrations
    ensures Readmitted(SwitchSource(db, m), id, back.(config := db.source.configRevision + 1), indexed)
  {
    var after := SwitchSource(db, m);
    assert ActiveJobs(after.jobs, id) == ActiveJobs(db.jobs, id);
  }

  // An applied migration one of whose scanned runs lets the document back in.
  ghost predicate MigrationReadmits(s: System, a: Action, r: RunId, id: ExternalId) {
    a.Decide? && a.decision == Applied && RunsReadmit(s.db, a.order, r, id)
  }

  ghost function MigrationBack(s: System, r: RunId, id: ExternalId, revision: Revision): Return
    requires r in s.db.runs && id in ScanOf(s.db, r)
  {
    RunBack(s.db, r, id, revision).(config := s.db.source.configRevision + 1)
  }

  lemma DecisionReadmits(s: System, a: Action, t: System, r: RunId, id: ExternalId, revision: Revision)
    requires Step(s, a, t) && Held(s.db, id, revision) && MigrationReadmits(s, a, r, id)
    ensures r in s.db.runs && id in ScanOf(s.db, r) && Readmitted(t.db, id, MigrationBack(s, r, id, revision), revision)
  {
    ApplyAllReadmit(s.db, a.order, r, id, revision);
    ApplyRunsKeep(s.db, a.order);
    SwitchReadmits(ApplyRuns(s.db, a.order).value, a.migration, id, RunBack(s.db, r, id, revision), revision);
  }

  // ---- Whole executions ----------------------------------------------------------------------

  lemma {:induction false} StaysOut(states: seq<System>, actions: seq<Action>, i: nat, j: nat, id: ExternalId, revision: Revision)
    requires Execution(states, actions) && i <= j <= |actions| && Held(states[i].db, id, revision)
    requires forall k :: i <= k < j ==> LeavesOut(states[k], actions[k], states[k + 1], id)
    ensures HeldOn(states[i].db, states[j].db, id, revision)
    decreases j - i
  {
    if i < j {
      StaysOut(states, actions, i, j - 1, id, revision);
      StepTaken(states, actions, j - 1);
      StepStaysOut(states[j - 1], actions[j - 1], states[j], id, revision);
    }
  }

  // In every execution: an indexed document that is excluded and left out, over any steps of both workers
  // and the administration, is not visible, and the batch whose scan finds it again readmits it with its
  // old index and no new job at the indexed revision, and otherwise with that index retired and exactly
  // one job for the new revision, unless it was failed and stays so.
  lemma ReadmittedExactly(states: seq<System>, actions: seq<Action>, i: nat, j: nat, id: ExternalId, revision: Revision)
    requires Execution(states, actions) && i <= j < |actions| && Held(states[i].db, id, revision)
    requires forall k :: i <= k < j ==> LeavesOut(states[k], actions[k], states[k + 1], id)
    requires Readmits(states[j], actions[j], id)
    ensures !Visible(states[j].db, id) && Readmitted(states[j + 1].db, id, BatchBack(states[j], id, revision), revision)
    ensures states[i].db.documents[id].status != DocumentFailed ==> !Settled(states[j].db, id, ScanOf(states[j].db, states[j].phase.pass.run)[id])
  {
    StaysOut(states, actions, i, j, id, revision);
    StepTaken(states, actions, j);
    BatchReadmits(states[j], actions[j], states[j + 1], id, revision);
  }

  // The same for an applied migration, whose scan readmits it at the configuration switched to: the
  // index is kept at any revision.
  lemma ReadmittedByMigration(states: seq<System>, actions: seq<Action>, i: nat, j: nat, r: RunId, id: ExternalId, revision: Revision)
    requires Execution(states, actions) && i <= j < |actions| && Held(states[i].db, id, revision)
    requires forall k :: i <= k < j ==> LeavesOut(states[k], actions[k], states[k + 1], id)
    requires MigrationReadmits(states[j], actions[j], r, id)
    ensures !Visible(states[j].db, id) && r in states[j].db.runs && id in ScanOf(states[j].db, r)
    ensures Readmitted(states[j + 1].db, id, MigrationBack(states[j], r, id, revision), revision)
    ensures states[i].db.documents[id].status != DocumentFailed ==> !Settled(states[j].db, id, ScanOf(states[j].db, r)[id])
  {
    StaysOut(states, actions, i, j, id, revision);
    StepTaken(states, actions, j);
    DecisionReadmits(states[j], actions[j], states[j + 1], r, id, revision);
  }

  // The step that lets the document back in, and the revision it found.
  ghost predicate LetsIn(s: System, a: Action, r: RunId, id: ExternalId, found: Revision) {
    || (Readmits(s, a, id) && r == s.phase.pass.run && found == ScanOf(s.db, r)[id].revision)
    || (MigrationReadmits(s, a, r, id) && id in ScanOf(s.db, r) && found == ScanOf(s.db, r)[id].revision)
  }

  // However the document comes back: its index is retired if and only if it comes back in a batch at
  // another revision, and it can be retrieved if and only if it comes back at the indexed one and its
  // surroundings allow it.
  lemma RetiredExactly(states: seq<System>, actions: seq<Action>, i: nat, j: nat, r: RunId, id: ExternalId, revision: Revision, found: Revision)
    requires Execution(states, actions) && i <= j < |actions| && Held(states[i].db, id, revision)
    requires forall k :: i <= k < j ==> LeavesOut(states[k], actions[k], states[k + 1], id)
    requires LetsIn(states[j], actions[j], r, id, found)
    ensures CurrentIndex(states[j + 1].db, id) == None <==> actions[j].Batch? && found != revision
    ensures Visible(states[j + 1].db, id) <==> found == revision && Presentable(states[j + 1].db, id)
  {
    if actions[j].Batch? {
      ReadmittedExactly(states, actions, i, j, id, revision);
      RetrievedAgain(states[j + 1].db, id, BatchBack(states[j], id, revision), revision);
    } else {
      ReadmittedByMigration(states, actions, i, j, r, id, revision);
      RetrievedAgain(states[j + 1].db, id, MigrationBack(states[j], r, id, revision), revision);
    }
  }

  lemma RetrievedAgain(db: Db, id: ExternalId, back: Return, indexed: Revision)
    requires Readmitted(db, id, back, indexed)
    ensures CurrentIndex(db, id) == None <==> back.status != DocumentStatus.Ready && !back.keepsIndex
    ensures Visible(db, id) <==> back.status == DocumentStatus.Ready && Presentable(db, id)
  {
  }
}
