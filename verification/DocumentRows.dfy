/**
 What one observation and one scan do to the documents and their jobs, told from the rows before and
 after (services/source_worker/engine.py).
 */
module DocumentRows {

  import opened Outcome
  import opened Corpus
  import opened Reconciliation
  import opened SourceSteps
  import opened SourceWorker
  import opened SyncRuns
  import opened Migrations
  import opened IndexSteps
  import opened Interleaving
  import opened Publication
  import opened Restoration

  // ---- The lifecycle of what was observed ------------------------------------------------------

  // A rule comes first; a document that no rule excludes must be of a supported type and within the size
  // limit, and a folder is active.
  lemma ClassifiedExactly(id: ExternalId, o: Observation, pass: Pass)
    ensures var excluded := if o.isDocument then id in pass.plan.documents else id in pass.plan.folders;
      && (Classify(id, o, pass) == ItemExcluded <==> excluded)
      && (Classify(id, o, pass) == ItemUnsupported <==> !excluded && o.isDocument && !o.supported)
      && (Classify(id, o, pass) == ItemOversized <==> !excluded && o.isDocument && o.supported && o.size > pass.maxSize)
      && (Classify(id, o, pass) == ItemActive <==> !excluded && (o.isDocument ==> o.supported && o.size <= pass.maxSize))
  {
  }

  // In an applied run, under the rules and the size limit of the day.
  lemma AppliedLifecycle(db: Db, r: RunId, id: ExternalId)
    requires Applicable(db, r) && id in ScanOf(db, r) && ScanOf(db, r)[id].isDocument
    ensures var o, rules, after := ScanOf(db, r)[id], db.collections[db.runs[r].collection].rules, ApplyRun(db, r).value.items;
      && id in after && after[id].collection == db.runs[r].collection && after[id].revision == o.revision && after[id].lastSeen == Some(r)
      && (after[id].lifecycle == ItemExcluded <==> id in rules.documents)
      && (after[id].lifecycle == ItemActive <==> id !in rules.documents && o.supported && o.size <= db.source.maxDocumentSize)
  {
    AppliedRunItems(db, r);
    SeenRow(db.items, ScanOf(db, r), PassOf(db, r, RulesOf(db, r)), id);
  }

  lemma SeenRow(items: Items, seen: Scan, pass: Pass, id: ExternalId)
    requires ItemsShaped(items) && LinkedScan(seen, pass.collection) && id in seen && seen[id].isDocument
    ensures var row := ItemsCompleted(items, seen, pass)[id];
      && row.collection == pass.collection && row.revision == seen[id].revision && row.lastSeen == Some(pass.run)
      && (row.lifecycle == ItemExcluded <==> id in pass.plan.documents)
      && (row.lifecycle == ItemActive <==> id !in pass.plan.documents && seen[id].supported && seen[id].size <= pass.maxSize)
  {
    ClassifiedExactly(id, seen[id], pass);
  }

  // ---- An observed document ----------------------------------------------------------------------

  ghost predicate Active(job: Job, id: ExternalId, revision: Revision) {
    job.document == id && job.revision == revision && job.status in {JobQueued, JobRunning}
  }

  ghost predicate HasJob(jobs: map<JobId, Job>, id: ExternalId, revision: Revision) {
    exists j :: j in jobs && Active(jobs[j], id, revision)
  }

  // The document has the observed revision, waits for no other, and was asked for by this configuration.
  ghost predicate AsObserved(d: Document, c: CollectionId, config: nat, o: Observation) {
    && d.collection == c && d.revision == o.revision && d.expectedRevision == o.revision && d.expectedConfig == config && !d.deleted
    && (d.eligible <==> d.lifecycle == ItemActive && d.status == DocumentStatus.Ready)
  }

  // An index built from the observed revision, or an imported one while the revision stands still.
  ghost predicate Fresh(db: Db, id: ExternalId, o: Observation) {
    && id in db.documents && id in db.indexes && db.indexes[id].current
    && match db.indexes[id].revision
       case Some(revision) => revision == o.revision
       case None => db.documents[id].revision == o.revision
  }

  // Nothing about any other document has changed.
  ghost predicate OthersAlike(db: Db, after: Db, id: ExternalId) {
    && (forall k :: k != id ==> (k in after.documents <==> k in db.documents) && (k in db.documents ==> after.documents[k] == db.documents[k]))
    && (forall k :: k != id ==> (k in after.indexes <==> k in db.indexes) && (k in db.indexes ==> after.indexes[k] == db.indexes[k]))
    && (forall j :: j in db.jobs && db.jobs[j].document != id ==> j in after.jobs && after.jobs[j] == db.jobs[j])
    && (forall j :: j in after.jobs && after.jobs[j].document != id ==> j in db.jobs)
  }

  lemma QueuedJobAlike(jobs: map<JobId, Job>, id: ExternalId, c: CollectionId, revision: Revision, config: nat)
    ensures var after := QueueJob(jobs, id, c, revision, config);
      && (forall j :: j in jobs ==> j in after && after[j] == jobs[j])
      && (forall j :: j in after && j !in jobs ==> after[j] == Job(id, c, JobQueued, revision, config, 0))
      && HasJob(after, id, revision)
      && (HasJob(jobs, id, revision) ==> after == jobs)
  {
    var after := QueueJob(jobs, id, c, revision, config);
    if HasActiveJob(jobs, id, revision) {
      var j :| j in jobs && jobs[j].document == id && jobs[j].revision == revision && jobs[j].status in {JobQueued, JobRunning};
      assert Active(after[j], id, revision);
    } else {
      assert Active(after[Above(jobs.Keys)], id, revision);
    }
  }

  // A document that is classified active, new or known, is ready with an index to show for it; or has
  // failed at this very revision before; or waits to be indexed, with an active job for this revision.
  lemma ActiveDocument(db: Db, pass: Pass, config: nat, id: ExternalId, o: Observation, preserveIndex: bool)
    requires o.isDocument && Classify(id, o, pass) == ItemActive
    ensures var after := ReconcileOne(db, pass, config, id, o, preserveIndex);
      && id in after.documents && AsObserved(after.documents[id], pass.collection, config, o) && after.documents[id].lifecycle == ItemActive
      && OthersAlike(db, after, id)
      && (if Fresh(db, id, o) then
            after.documents[id].status == DocumentStatus.Ready && after.indexes == db.indexes && after.jobs == db.jobs
          else if id in db.documents && db.documents[id].revision == o.revision && db.documents[id].status == DocumentFailed then
            after.documents[id].status == DocumentFailed && after.jobs == db.jobs
          else after.documents[id].status == Uploaded && HasJob(after.jobs, id, o.revision))
  {
    var placed := db.(items := ReconcileItem(db.items, id, o, pass));
    QueuedJobAlike(db.jobs, id, pass.collection, o.revision, config);
    ActivePlaced(placed, pass, config, id, o, preserveIndex);
  }

  lemma ActivePlaced(db: Db, pass: Pass, config: nat, id: ExternalId, o: Observation, preserveIndex: bool)
    ensures var after := ReconcileDocument(db, pass, config, id, o, ItemActive, preserveIndex);
      var settled := id in db.documents && db.documents[id].revision == o.revision && db.documents[id].status == DocumentFailed;
      var status := if Fresh(db, id, o) then DocumentStatus.Ready else if settled then DocumentFailed else Uploaded;
      && after == db.(documents := after.documents, indexes := after.indexes, jobs := after.jobs)
      && after.documents == db.documents[id := Document(pass.collection, status, o.revision, o.revision, config, ItemActive, status == DocumentStatus.Ready, false)]
      && after.indexes == (if id in db.documents && id in db.indexes && !Fresh(db, id, o) && !preserveIndex
                           then db.indexes[id := db.indexes[id].(current := false)] else db.indexes)
      && after.jobs == (if status == Uploaded then QueueJob(db.jobs, id, pass.collection, o.revision, config) else db.jobs)
  {
    assert IndexMatches(db, id, o) <==> Fresh(db, id, o);
  }

  // A document that is seen for the first time gets its row and, unless one is under way for this
  // revision, one job, and nothing else changes.
  lemma NewDocument(db: Db, pass: Pass, config: nat, id: ExternalId, o: Observation, preserveIndex: bool)
    requires o.isDocument && Classify(id, o, pass) == ItemActive && id !in db.documents
    ensures var after := ReconcileOne(db, pass, config, id, o, preserveIndex);
      && after.documents == db.documents[id := Document(pass.collection, Uploaded, o.revision, o.revision, config, ItemActive, false, false)]
      && after.indexes == db.indexes
      && (if HasJob(db.jobs, id, o.revision) then after.jobs == db.jobs
          else exists j: JobId :: j !in db.jobs && after.jobs == db.jobs[j := Job(id, pass.collection, JobQueued, o.revision, config, 0)])
  {
    var placed := db.(items := ReconcileItem(db.items, id, o, pass));
    ActivePlaced(placed, pass, config, id, o, preserveIndex);
    JobAdded(db.jobs, id, pass.collection, o.revision, config);
  }

  lemma JobAdded(jobs: map<JobId, Job>, id: ExternalId, c: CollectionId, revision: Revision, config: nat)
    ensures var after := QueueJob(jobs, id, c, revision, config);
      if HasJob(jobs, id, revision) then after == jobs
      else exists j: JobId :: j !in jobs && after == jobs[j := Job(id, c, JobQueued, revision, config, 0)]
  {
    QueuedJobAlike(jobs, id, c, revision, config);
    if !HasActiveJob(jobs, id, revision) {
      assert Above(jobs.Keys) !in jobs;
    } else {
      var j :| j in jobs && jobs[j].document == id && jobs[j].revision == revision && jobs[j].status in {JobQueued, JobRunning};
      assert Active(jobs[j], id, revision);
    }
  }

  // A known one whose revision has moved away from its index loses the index, unless a migration keeps it,
  // and has exactly one active job for the new revision, whatever it had before.
  lemma RevisedDocument(db: Db, pass: Pass, config: nat, id: ExternalId, o: Observation, preserveIndex: bool)
    requires o.isDocument && Classify(id, o, pass) == ItemActive && id in db.documents && OneActiveJob(db.jobs)
    requires db.documents[id].revision != o.revision && !Fresh(db, id, o)
    ensures var after := ReconcileOne(db, pass, config, id, o, preserveIndex);
      && (CurrentIndex(after, id) == if preserveIndex then CurrentIndex(db, id) else None)
      && exists j :: j in after.jobs && Active(after.jobs[j], id, o.revision)
           && forall k :: k in after.jobs && Active(after.jobs[k], id, o.revision) ==> k == j
  {
    var placed := db.(items := ReconcileItem(db.items, id, o, pass));
    ActivePlaced(placed, pass, config, id, o, preserveIndex);
    QueuedJobIsOne(db.jobs, id, pass.collection, o.revision, config);
    var after := QueueJob(db.jobs, id, pass.collection, o.revision, config);
    var j :| j in after && ActiveFor(after[j], id, o.revision);
    assert Active(after[j], id, o.revision);
    forall k | k in after && Active(after[k], id, o.revision) ensures k == j {
      assert ActiveFor(after[k], id, o.revision);
    }
  }

  // A document that is not active is not retrieved: excluded, it keeps its status and loses its queued
  // jobs; unsupported or too large, it is skipped. In either case its index stays and no job is queued.
  lemma InactiveDocument(db: Db, pass: Pass, config: nat, id: ExternalId, o: Observation, preserveIndex: bool)
    requires o.isDocument && Classify(id, o, pass) != ItemActive
    ensures var after := ReconcileOne(db, pass, config, id, o, preserveIndex);
      && id in after.documents && AsObserved(after.documents[id], pass.collection, config, o)
      && after.documents[id].lifecycle == Classify(id, o, pass) && !after.documents[id].eligible
      && after.documents[id].status == (if id in db.documents && Classify(id, o, pass) == ItemExcluded then db.documents[id].status else Skipped)
      && after.indexes == db.indexes && after.jobs.Keys == db.jobs.Keys && OthersAlike(db, after, id)
      && forall j :: j in db.jobs && db.jobs[j].document == id ==>
           after.jobs[j] == if Classify(id, o, pass) == ItemExcluded && db.jobs[j].status == JobQueued
                            then db.jobs[j].(status := JobSuperseded) else db.jobs[j]
  {
  }

  // ---- An observed folder ------------------------------------------------------------------------

  function HiddenIf(d: Document, hidden: bool): Document {
    if hidden && !d.deleted then d.(lifecycle := ItemExcluded, eligible := false) else d
  }

  function WithdrawnIf(job: Job, hidden: bool): Job {
    if hidden && job.status == JobQueued then job.(status := JobSuperseded) else job
  }

  // A folder touches documents only when it is excluded: those below it leave retrieval and their queued
  // jobs are superseded; every other document and job, and every index, stays.
  lemma ObservedFolder(db: Db, pass: Pass, config: nat, id: ExternalId, o: Observation, preserveIndex: bool)
    requires !o.isDocument
    ensures var after, hidden := ReconcileOne(db, pass, config, id, o, preserveIndex), Classify(id, o, pass) == ItemExcluded;
      && after.indexes == db.indexes && after.documents.Keys == db.documents.Keys && after.jobs.Keys == db.jobs.Keys
      && (forall k :: k in db.documents ==> after.documents[k] == HiddenIf(db.documents[k], hidden && Under(after.items, k, id)))
      && forall j :: j in db.jobs ==> after.jobs[j] == WithdrawnIf(db.jobs[j], hidden && Under(after.items, db.jobs[j].document, id))
  {
    var placed := db.items[id := ItemOf(db.items, id, o, pass)];
    if Classify(id, o, pass) == ItemExcluded {
      forall k ensures Under(ExcludeUnder(placed, id, pass.run), k, id) <==> Under(placed, k, id) {
        UnderStays(placed, id, pass.run, k);
      }
    }
  }

  // Excluding what is below a folder moves nothing.
  lemma UnderStays(items: Items, folder: ExternalId, run: RunId, k: ExternalId)
    ensures Under(ExcludeUnder(items, folder, run), k, folder) <==> Under(items, k, folder)
  {
    SameParents(items, ExcludeUnder(items, folder, run), k, folder);
  }

  lemma {:induction false} SameParents(items: Items, after: Items, k: ExternalId, folder: ExternalId)
    requires after.Keys == items.Keys && forall i :: i in items ==> after[i].parent == items[i].parent
    ensures Under(after, k, folder) <==> Under(items, k, folder)
    decreases |k|
  {
    if k in items && items[k].parent.Some? && |items[k].parent.value| < |k| {
      SameParents(items, after, items[k].parent.value, folder);
    }
  }

  // ---- A batch ---------------------------------------------------------------------------------

  // A batch takes the next pending observations in order, as many as it has room for.
  lemma BatchTakes(db: Db, pass: Pass, size: nat)
    ensures var seen, order := ScanOf(db, pass.run), BatchOrder(db, pass, size);
      var pending := seen.Keys - DoneOf(db, pass.run);
      order <= InOrder(seen, pending) && |order| == if |pending| > size then size else |pending|
  {
  }

  // It is superseded if and only if the run is no longer current, and fails if and only if one of its
  // documents has no project to go to; and there is nothing left exactly when all is reconciled.
  lemma BatchEnds(db: Db, pass: Pass, size: nat)
    requires pass.run in db.runs && size > 0
    ensures var result, current := BatchResult(db, pass, size), Current(db, db.runs[pass.run]);
      && (result == BatchOutcome.Superseded <==> !current)
      && (result == BatchOutcome.Failed <==> current && Homeless(db, pass, BatchOrder(db, pass, size)))
      && (result == BatchOutcome.Reconciled(false) <==> current && ScanOf(db, pass.run).Keys <= DoneOf(db, pass.run))
  {
    var seen, order := ScanOf(db, pass.run), BatchOrder(db, pass, size);
    BatchTakes(db, pass, size);
    NonePendingLeft(seen.Keys, DoneOf(db, pass.run));
    DocumentAt(seen, order);
  }

  ghost predicate Homeless(db: Db, pass: Pass, order: seq<ExternalId>) {
    pass.collection !in db.projects && HasDocument(ScanOf(db, pass.run), order)
  }

  ghost predicate HasDocument(seen: Scan, order: seq<ExternalId>) {
    exists id :: id in order && id in seen && seen[id].isDocument
  }

  lemma DocumentAt(seen: Scan, order: seq<ExternalId>)
    requires forall id :: id in order ==> id in seen
    ensures HasDocument(seen, order) <==> exists i :: 0 <= i < |order| && seen[order[i]].isDocument
  {
    if i :| 0 <= i < |order| && seen[order[i]].isDocument { assert order[i] in order; }
    if HasDocument(seen, order) {
      var id :| id in order && id in seen && seen[id].isDocument;
      var i :| 0 <= i < |order| && order[i] == id;
      assert seen[order[i]].isDocument;
    }
  }

  lemma NonePendingLeft(seen: set<ExternalId>, done: set<ExternalId>)
    ensures |seen - done| == 0 <==> seen <= done
  {
    if seen <= done {
      assert seen - done == {};
    } else {
      var id :| id in seen && id !in done;
      assert id in seen - done;
    }
  }

  // ---- An item row -----------------------------------------------------------------------------

  // The row an observation writes: as observed, under its parent if that has a row, and stamped by the run.
  lemma ObservedItem(items: Items, id: ExternalId, o: Observation, pass: Pass)
    requires o.isDocument
    ensures var lifecycle := Classify(id, o, pass);
      ReconcileItem(items, id, o, pass) ==
        items[id := Item(pass.collection, if o.parent.Some? && o.parent.value in items then o.parent else None, true, o.revision, lifecycle, Some(pass.run))]
  {
  }
}
