/**
 The source worker (services/source_worker/engine.py): each method is one transaction on the shared
 rows, or the loop that runs several of them, proved against the functions of SourceSteps.
 */
module SourceWorker {

  import opened Outcome
  import opened Corpus
  import opened Reconciliation
  import opened SourceSteps

  // The rows as they stand. Statements update the tables in place.
  class Store {
    var source: Source
    var collections: map<CollectionId, Collection>
    var projects: map<CollectionId, Project>
    var migrations: map<MigrationId, Migration>
    var runs: map<RunId, Run>
    var observed: map<RunId, Observed>
    var items: map<ExternalId, Item>
    var documents: map<ExternalId, Document>
    var indexes: map<ExternalId, Index>
    var jobs: map<JobId, Job>

    function Rows(): Db
      reads this
    {
      Db(source, collections, projects, migrations, runs, observed, items, documents, indexes, jobs)
    }

    constructor (db: Db)
      ensures Rows() == db
    {
      source, collections, projects, migrations := db.source, db.collections, db.projects, db.migrations;
      runs, observed, items, documents, indexes, jobs := db.runs, db.observed, db.items, db.documents, db.indexes, db.jobs;
    }
  }

  // ---- Queueing ----------------------------------------------------------------------------

  method QueueSyncRun(store: Store, c: CollectionId, config: nat, trigger: Trigger, now: nat)
    modifies store
    ensures store.Rows() == QueueRun(old(store.Rows()), c, config, trigger, now)
  {
    if !Eligible(store.Rows(), c) || store.source.configRevision != config || LiveMigration(store.Rows()) {
      return;
    }
    if HasPendingRun(store.runs, c) {
      return;
    }
    var id := Above(store.runs.Keys);
    store.runs := store.runs[id := Run(c, None, config, store.collections[c].filterRevision, trigger, RunQueued, false, now)];
  }

  method SupersedeSyncRun(store: Store, r: RunId, now: nat)
    requires r in store.runs
    modifies store
    ensures store.Rows() == Supersede(old(store.Rows()), r, now)
  {
    var run := store.runs[r];
    if run.status == RunQueued || run.status == RunRunning {
      store.runs := store.runs[r := run.(status := RunSuperseded)];
    }
    assert store.runs == old(store.runs)[r := Withdrawn(run)];
    store.observed := store.observed - {r};
    if run.collection !in store.collections {
      return;
    }
    var filterChanged := store.source.configRevision == run.configRevision
                         && store.collections[run.collection].filterRevision != run.filterRevision;
    if filterChanged && Eligible(store.Rows(), run.collection) {
      QueueSyncRun(store, run.collection, store.source.configRevision, run.trigger, now);
    }
  }

  // ---- Reconciling -------------------------------------------------------------------------

  // Parent links of path-shaped ids lead to shorter ids.
  ghost predicate ParentsShorter(items: Items) {
    forall k :: k in items && items[k].parent.Some? ==> |items[k].parent.value| < |k|
  }

  ghost predicate ScanShorter(seen: Scan) {
    forall k :: k in seen && seen[k].parent.Some? ==> |seen[k].parent.value| < |k|
  }

  // The rows below a folder, found level by level over the stored parent links.
  method KnownDescendants(items: Items, folder: ExternalId) returns (below: set<ExternalId>)
    requires ParentsShorter(items)
    ensures below == Descendants(items, folder)
  {
    below := set k | k in items && items[k].parent == Some(folder);
    var grown := true;
    while grown
      invariant below <= Descendants(items, folder)
      invariant forall k :: k in items && items[k].parent == Some(folder) ==> k in below
      invariant !grown ==> forall k :: k in items && items[k].parent.Some? && items[k].parent.value in below ==> k in below
      decreases items.Keys - below, grown
    {
      var children := set k | k in items && k !in below && items[k].parent.Some? && items[k].parent.value in below;
      grown := children != {};
      below := below + children;
    }
    forall k | Under(items, k, folder) ensures k in below {
      UnderCollected(items, folder, below, k);
    }
  }

  lemma {:induction false} UnderCollected(items: Items, folder: ExternalId, below: set<ExternalId>, k: ExternalId)
    requires Under(items, k, folder)
    requires forall k :: k in items && items[k].parent == Some(folder) ==> k in below
    requires forall k :: k in items && items[k].parent.Some? && items[k].parent.value in below ==> k in below
    ensures k in below
    decreases |k|
  {
    var parent := items[k].parent.value;
    if parent != folder {
      UnderCollected(items, folder, below, parent);
    }
  }

  method QueueIndexJob(store: Store, id: ExternalId, c: CollectionId, revision: Revision, config: nat)
    modifies store`jobs
    ensures store.jobs == QueueJob(old(store.jobs), id, c, revision, config)
  {
    if HasActiveJob(store.jobs, id, revision) {
      return;
    }
    store.jobs := store.jobs[Above(store.jobs.Keys) := Job(id, c, JobQueued, revision, config, 0)];
  }

  // No document has two active jobs for one revision.
  ghost predicate OneActiveJob(jobs: map<JobId, Job>) {
    forall a, b, id, revision ::
      a in jobs && b in jobs && ActiveFor(jobs[a], id, revision) && ActiveFor(jobs[b], id, revision) ==> a == b
  }

  ghost predicate ActiveFor(job: Job, id: ExternalId, revision: Revision) {
    job.document == id && job.revision == revision && job.status in {JobQueued, JobRunning}
  }

  // Queueing a job, however often, leaves exactly one active job for the document's revision.
  lemma QueuedJobIsOne(jobs: map<JobId, Job>, id: ExternalId, c: CollectionId, revision: Revision, config: nat)
    requires OneActiveJob(jobs)
    ensures var after := QueueJob(jobs, id, c, revision, config);
      && OneActiveJob(after) && QueueJob(after, id, c, revision, config) == after
      && (exists j :: j in after && ActiveFor(after[j], id, revision))
      && forall j :: j in jobs ==> j in after && after[j] == jobs[j]
  {
    var after := QueueJob(jobs, id, c, revision, config);
    if HasActiveJob(jobs, id, revision) {
      var j :| j in jobs && jobs[j].document == id && jobs[j].revision == revision && jobs[j].status in {JobQueued, JobRunning};
      assert ActiveFor(after[j], id, revision);
    } else {
      var next := Above(jobs.Keys);
      assert next in after && ActiveFor(after[next], id, revision);
      assert after[next].document == id && HasActiveJob(after, id, revision);
    }
  }

  method ReconcileDocumentRow(store: Store, pass: Pass, config: nat, id: ExternalId, o: Observation, lifecycle: ItemState,
                              preserveIndex: bool)
    modifies store`documents, store`indexes, store`jobs
    ensures store.Rows() == ReconcileDocument(old(store.Rows()), pass, config, id, o, lifecycle, preserveIndex)
  {
    var known := id in store.documents;
    var supported := lifecycle == ItemActive;
    var revisionChanged := !known || store.documents[id].revision != o.revision;
    var status := if lifecycle == ItemExcluded && known then store.documents[id].status
                  else if supported then Uploaded else Skipped;
    var matches := false;
    if known {
      matches := id in store.indexes && store.indexes[id].current
                 && (store.indexes[id].revision == Some(o.revision)
                     || (store.indexes[id].revision == None && !revisionChanged));
      if supported && matches {
        status := Ready;
      } else if supported && !revisionChanged && store.documents[id].status == DocumentFailed {
        status := DocumentFailed;
      }
    }
    ghost var before := store.Rows();
    assert status == StatusAfter(before, id, o, lifecycle);
    store.documents := store.documents[id :=
      Document(pass.collection, status, o.revision, o.revision, config, lifecycle, known && supported && status == Ready, false)];
    if supported && known && !matches && !preserveIndex && id in store.indexes {
      store.indexes := store.indexes[id := store.indexes[id].(current := false)];
    }
    if lifecycle == ItemExcluded {
      store.jobs := SupersedeJobs(store.jobs, {id});
    }
    if supported && status == Uploaded {
      QueueIndexJob(store, id, pass.collection, o.revision, config);
    }
  }

  method ExcludeKnownDescendants(store: Store, folder: ExternalId, run: RunId)
    requires ParentsShorter(store.items)
    modifies store`items, store`documents, store`jobs
    ensures store.items == ExcludeUnder(old(store.items), folder, run)
    ensures store.documents == HideDocuments(old(store.documents), Descendants(old(store.items), folder))
    ensures store.jobs == SupersedeJobs(old(store.jobs), Descendants(old(store.items), folder))
  {
    var below := KnownDescendants(store.items, folder);
    store.items := map k | k in store.items ::
      if k in below then store.items[k].(lifecycle := ItemExcluded, lastSeen := Some(run)) else store.items[k];
    store.documents := HideDocuments(store.documents, below);
    store.jobs := SupersedeJobs(store.jobs, below);
  }

  lemma ReconcileKeepsShorter(items: Items, id: ExternalId, o: Observation, pass: Pass)
    requires ParentsShorter(items) && (o.parent.Some? ==> |o.parent.value| < |id|)
    ensures ParentsShorter(items[id := ItemOf(items, id, o, pass)])
    ensures ParentsShorter(ReconcileItem(items, id, o, pass))
  {
  }

  method ReconcileObservation(store: Store, pass: Pass, config: nat, id: ExternalId, o: Observation, preserveIndex: bool)
    requires ParentsShorter(store.items) && (o.parent.Some? ==> |o.parent.value| < |id|)
    modifies store`items, store`documents, store`indexes, store`jobs
    ensures store.Rows() == ReconcileOne(old(store.Rows()), pass, config, id, o, preserveIndex)
    ensures ParentsShorter(store.items)
  {
    ReconcileKeepsShorter(store.items, id, o, pass);
    var parent := if o.parent.Some? && o.parent.value in store.items then o.parent else None;
    var lifecycle := Classify(id, o, pass);
    var item := Item(pass.collection, parent, o.isDocument, o.revision, lifecycle, Some(pass.run));
    assert item == ItemOf(store.items, id, o, pass);
    store.items := store.items[id := item];
    if o.isDocument {
      ReconcileDocumentRow(store, pass, config, id, o, lifecycle, preserveIndex);
    } else if lifecycle == ItemExcluded {
      ExcludeKnownDescendants(store, id, pass.run);
    }
  }

  datatype BatchOutcome = Superseded | Failed | Reconciled(any: bool)

  method ReconcileRows(store: Store, pass: Pass, config: nat, seen: Scan, rows: seq<ExternalId>, preserveIndex: bool)
    requires ParentsShorter(store.items) && ScanShorter(seen) && forall id :: id in rows ==> id in seen
    modifies store`items, store`documents, store`indexes, store`jobs
    ensures store.Rows() == ReconcileMany(old(store.Rows()), pass, config, seen, rows, preserveIndex)
    ensures ParentsShorter(store.items)
  {
    ghost var before := store.Rows();
    assert rows[0..] == rows;
    for i := 0 to |rows|
      invariant ParentsShorter(store.items)
      invariant ReconcileMany(before, pass, config, seen, rows, preserveIndex)
             == ReconcileMany(store.Rows(), pass, config, seen, rows[i..], preserveIndex)
    {
      assert rows[i..][0] == rows[i] && rows[i..][1..] == rows[i + 1..];
      ReconcileObservation(store, pass, config, rows[i], seen[rows[i]], preserveIndex);
    }
  }

  // One batch in one transaction: nothing is written when the run is no longer current, or when a
  // document has no project to go to.
  method ReconcilePendingBatch(store: Store, pass: Pass, batchSize: nat) returns (outcome: BatchOutcome)
    requires batchSize > 0
    requires pass.run in store.runs && pass == PassOf(store.Rows(), pass.run, pass.plan)
    requires ParentsShorter(store.items) && ScanShorter(ScanOf(store.Rows(), pass.run))
    modifies store
    ensures outcome == BatchResult(old(store.Rows()), pass, batchSize)
    ensures store.Rows() == if outcome == Reconciled(true) then BatchRows(old(store.Rows()), pass, batchSize) else old(store.Rows())
    ensures ParentsShorter(store.items)
  {
    var run := store.runs[pass.run];
    var seen := ScanOf(store.Rows(), pass.run);
    if !Current(store.Rows(), run) {
      return Superseded;
    }
    var pending := InOrder(seen, seen.Keys - DoneOf(store.Rows(), pass.run));
    var rows := if |pending| > batchSize then pending[..batchSize] else pending;
    if rows == [] {
      return Reconciled(false);
    }
    if pass.collection !in store.projects && exists i :: 0 <= i < |rows| && seen[rows[i]].isDocument {
      return Failed;
    }
    WriteBatch(store, pass, batchSize, rows);
    return Reconciled(true);
  }

  // The writing half of a batch: its rows, then the mark that they are reconciled.
  method WriteBatch(store: Store, pass: Pass, batchSize: nat, rows: seq<ExternalId>)
    requires pass.run in store.runs && rows == BatchOrder(store.Rows(), pass, batchSize)
    requires ParentsShorter(store.items) && ScanShorter(ScanOf(store.Rows(), pass.run))
    modifies store
    ensures store.Rows() == BatchRows(old(store.Rows()), pass, batchSize)
    ensures ParentsShorter(store.items)
  {
    var seen, done := ScanOf(store.Rows(), pass.run), DoneOf(store.Rows(), pass.run);
    ReconcileRows(store, pass, store.runs[pass.run].configRevision, seen, rows, false);
    store.observed := store.observed[pass.run := Observed(seen, done + Members(rows))];
  }

  function Members(ids: seq<ExternalId>): set<ExternalId> {
    set id | id in ids
  }

  // The rows a batch takes.
  function BatchOrder(db: Db, pass: Pass, batchSize: nat): (r: seq<ExternalId>)
    ensures forall id :: id in r ==> id in ScanOf(db, pass.run)
  {
    var seen := ScanOf(db, pass.run);
    var pending := InOrder(seen, seen.Keys - DoneOf(db, pass.run));
    if |pending| > batchSize then
      assert forall id :: id in pending[..batchSize] ==> id in pending;
      pending[..batchSize]
    else pending
  }

  function BatchResult(db: Db, pass: Pass, batchSize: nat): BatchOutcome
    requires pass.run in db.runs
  {
    var order := BatchOrder(db, pass, batchSize);
    if !Current(db, db.runs[pass.run]) then Superseded
    else if order == [] then Reconciled(false)
    else if pass.collection !in db.projects && exists i :: 0 <= i < |order| && ScanOf(db, pass.run)[order[i]].isDocument then Failed
    else Reconciled(true)
  }

  function BatchRows(db: Db, pass: Pass, batchSize: nat): Db
    requires pass.run in db.runs
  {
    var order, seen := BatchOrder(db, pass, batchSize), ScanOf(db, pass.run);
    ReconcileMany(db, pass, db.runs[pass.run].configRevision, seen, order, false)
      .(observed := db.observed[pass.run := Observed(seen, DoneOf(db, pass.run) + Members(order))])
  }

  // ---- The reconcile loop ------------------------------------------------------------------

  // The tables that reconciling one observation leaves alone.
  ghost predicate SameFrame(db: Db, after: Db) {
    && after.source == db.source && after.collections == db.collections && after.projects == db.projects
    && after.migrations == db.migrations && after.runs == db.runs && after.observed == db.observed
  }

  lemma DocumentFrame(db: Db, pass: Pass, config: nat, id: ExternalId, o: Observation, lifecycle: ItemState, preserveIndex: bool)
    ensures var after := ReconcileDocument(db, pass, config, id, o, lifecycle, preserveIndex);
      SameFrame(db, after) && after.items == db.items
  {
  }

  lemma OneFrame(db: Db, pass: Pass, config: nat, id: ExternalId, o: Observation, preserveIndex: bool)
    ensures var after := ReconcileOne(db, pass, config, id, o, preserveIndex);
      SameFrame(db, after) && after.items == ReconcileItem(db.items, id, o, pass)
  {
    var placed := db.(items := ReconcileItem(db.items, id, o, pass));
    DocumentFrame(placed, pass, config, id, o, Classify(id, o, pass), preserveIndex);
  }

  lemma {:induction false} ManyFrame(db: Db, pass: Pass, config: nat, seen: Scan, order: seq<ExternalId>, preserveIndex: bool)
    requires forall id :: id in order ==> id in seen
    ensures var after := ReconcileMany(db, pass, config, seen, order, preserveIndex);
      SameFrame(db, after) && after.items == ReconcileItems(db.items, seen, order, pass)
    decreases |order|
  {
    if order != [] {
      OneFrame(db, pass, config, order[0], seen[order[0]], preserveIndex);
      ManyFrame(ReconcileOne(db, pass, config, order[0], seen[order[0]], preserveIndex), pass, config, seen, order[1..], preserveIndex);
    }
  }

  lemma {:induction false} ItemsAppend(items: Items, seen: Scan, a: seq<ExternalId>, b: seq<ExternalId>, pass: Pass)
    requires forall id :: id in a + b ==> id in seen
    ensures (forall id :: id in a ==> id in seen) && (forall id :: id in b ==> id in seen)
    ensures ReconcileItems(items, seen, a + b, pass) == ReconcileItems(ReconcileItems(items, seen, a, pass), seen, b, pass)
    decreases |a|
  {
    forall id | id in a || id in b ensures id in seen { assert id in a + b; }
    if a == [] {
      assert a + b == b;
    } else {
      assert (a + b)[0] == a[0] && (a + b)[1..] == a[1..] + b;
      ItemsAppend(ReconcileItem(items, a[0], seen[a[0]], pass), seen, a[1..], b, pass);
    }
  }

  // Taking a prefix of the order leaves the order of the rest.
  lemma {:induction false} OrderAfterPrefix(seen: Scan, ids: set<ExternalId>, k: nat)
    requires ids <= seen.Keys && k <= |ids|
    ensures InOrder(seen, ids - Members(InOrder(seen, ids)[..k])) == InOrder(seen, ids)[k..]
    decreases k
  {
    var order := InOrder(seen, ids);
    if k == 0 {
      assert ids - Members(order[..0]) == ids;
    } else {
      var m := FirstExists(seen, ids);
      OrderAfterPrefix(seen, ids - {m}, k - 1);
      PrefixStep(seen, ids, m, k);
    }
  }

  lemma PrefixStep(seen: Scan, ids: set<ExternalId>, m: ExternalId, k: nat)
    requires ids <= seen.Keys && 0 < k <= |ids| && IsFirst(seen, ids, m)
    ensures ids - Members(InOrder(seen, ids)[..k]) == (ids - {m}) - Members(InOrder(seen, ids - {m})[..k - 1])
    ensures InOrder(seen, ids)[k..] == InOrder(seen, ids - {m})[k - 1..]
  {
    OrderStep(seen, ids, m);
    var order, rest := InOrder(seen, ids), InOrder(seen, ids - {m});
    PrependedSlices(m, rest, k);
    MembersPrepend(m, rest[..k - 1]);
    Regroup(ids, m, Members(rest[..k - 1]));
  }

  lemma PrependedSlices(m: ExternalId, rest: seq<ExternalId>, k: nat)
    requires 0 < k <= |rest| + 1
    ensures ([m] + rest)[..k] == [m] + rest[..k - 1] && ([m] + rest)[k..] == rest[k - 1..]
  {
  }

  lemma Regroup(ids: set<ExternalId>, m: ExternalId, more: set<ExternalId>)
    ensures ids - ({m} + more) == (ids - {m}) - more
  {
  }

  lemma MembersPrepend(m: ExternalId, rest: seq<ExternalId>)
    ensures Members([m] + rest) == {m} + Members(rest)
  {
  }

  // What a batch leaves alone, and what it does to items and observations.
  lemma BatchTables(db: Db, pass: Pass, batchSize: nat)
    requires pass.run in db.runs
    ensures var seen, rows, after := ScanOf(db, pass.run), BatchOrder(db, pass, batchSize), BatchRows(db, pass, batchSize);
      && after.source == db.source && after.collections == db.collections && after.projects == db.projects
      && after.migrations == db.migrations && after.runs == db.runs
      && after.observed == db.observed[pass.run := Observed(seen, DoneOf(db, pass.run) + Members(rows))]
      && after.items == ReconcileItems(db.items, seen, rows, pass)
  {
    ManyFrame(db, pass, db.runs[pass.run].configRevision, ScanOf(db, pass.run), BatchOrder(db, pass, batchSize), false);
  }

  // What the rest of a reconciliation will make of the items.
  ghost function Remaining(db: Db, pass: Pass): Items {
    var seen := ScanOf(db, pass.run);
    ReconcileItems(db.items, seen, InOrder(seen, seen.Keys - DoneOf(db, pass.run)), pass)
  }

  // One batch of any size advances the fold over everything that is pending.
  lemma BatchAdvances(db: Db, pass: Pass, batchSize: nat)
    requires pass.run in db.runs && batchSize > 0
    requires DoneOf(db, pass.run) <= ScanOf(db, pass.run).Keys
    requires BatchResult(db, pass, batchSize) == Reconciled(true)
    ensures var seen, after := ScanOf(db, pass.run), BatchRows(db, pass, batchSize);
      && after.source == db.source && after.collections == db.collections && after.projects == db.projects
      && after.migrations == db.migrations && after.runs == db.runs
      && ScanOf(after, pass.run) == seen
      && NoneTurnedMissing(db.items, after.items)
      && DoneOf(db, pass.run) < DoneOf(after, pass.run) <= seen.Keys
      && Remaining(after, pass) == Remaining(db, pass)
  {
    var seen, reconciled := ScanOf(db, pass.run), DoneOf(db, pass.run);
    var rows := BatchOrder(db, pass, batchSize);
    BatchTables(db, pass, batchSize);
    BatchStepsOn(db.items, seen, reconciled, rows, pass);
  }

  lemma BatchStepsOn(items: Items, seen: Scan, reconciled: set<ExternalId>, rows: seq<ExternalId>, pass: Pass)
    requires reconciled <= seen.Keys && rows != [] && rows <= InOrder(seen, seen.Keys - reconciled)
    requires forall id :: id in rows ==> id in seen
    ensures var after := ReconcileItems(items, seen, rows, pass);
      && NoneTurnedMissing(items, after)
      && reconciled < reconciled + Members(rows) <= seen.Keys
      && ReconcileItems(after, seen, InOrder(seen, seen.Keys - (reconciled + Members(rows))), pass)
         == ReconcileItems(items, seen, InOrder(seen, seen.Keys - reconciled), pass)
  {
    var pending := seen.Keys - reconciled;
    ReconcilingLosesNothing(items, seen, rows, pass);
    RowsArePending(seen, pending, rows);
    RestOfOrder(items, seen, pending, rows, pass);
    assert seen.Keys - (reconciled + Members(rows)) == pending - Members(rows);
  }

  lemma RowsArePending(seen: Scan, pending: set<ExternalId>, rows: seq<ExternalId>)
    requires pending <= seen.Keys && rows <= InOrder(seen, pending) && rows != []
    ensures Members(rows) <= pending && Members(rows) != {}
  {
    assert rows[0] in Members(rows);
    forall id | id in rows ensures id in pending { assert id in InOrder(seen, pending); }
  }

  lemma PrefixSeen(seen: Scan, pending: set<ExternalId>, k: nat)
    requires pending <= seen.Keys && k <= |pending|
    ensures forall id :: id in InOrder(seen, pending)[..k] ==> id in seen
    ensures forall id :: id in InOrder(seen, pending)[k..] ==> id in seen
  {
    var order := InOrder(seen, pending);
    forall id | id in order[..k] || id in order[k..] ensures id in seen { assert id in order; }
  }

  lemma RestOfOrder(items: Items, seen: Scan, pending: set<ExternalId>, rows: seq<ExternalId>, pass: Pass)
    requires pending <= seen.Keys && rows <= InOrder(seen, pending)
    requires forall id :: id in rows ==> id in seen
    ensures ReconcileItems(ReconcileItems(items, seen, rows, pass), seen, InOrder(seen, pending - Members(rows)), pass)
         == ReconcileItems(items, seen, InOrder(seen, pending), pass)
  {
    var order := InOrder(seen, pending);
    var k := |rows|;
    PrefixSeen(seen, pending, k);
    OrderAfterPrefix(seen, pending, k);
    CutAt(order, rows);
    ItemsAppend(items, seen, rows, order[k..], pass);
  }

  lemma CutAt(order: seq<ExternalId>, rows: seq<ExternalId>)
    requires rows <= order
    ensures rows == order[..|rows|] && order == rows + order[|rows|..]
  {
  }

  // Where a reconciliation stands that began with `before`.
  ghost predicate OnCourse(before: Db, db: Db, pass: Pass) {
    && db.source == before.source && db.collections == before.collections && db.projects == before.projects
    && db.migrations == before.migrations && db.runs == before.runs
    && ScanOf(db, pass.run) == ScanOf(before, pass.run) && DoneOf(db, pass.run) <= ScanOf(db, pass.run).Keys
    && NoneTurnedMissing(before.items, db.items) && Remaining(db, pass) == Remaining(before, pass)
  }

  lemma BatchStaysOnCourse(before: Db, db: Db, pass: Pass, batchSize: nat)
    requires OnCourse(before, db, pass) && pass.run in db.runs && batchSize > 0
    requires BatchResult(db, pass, batchSize) == Reconciled(true)
    ensures OnCourse(before, BatchRows(db, pass, batchSize), pass)
    ensures DoneOf(db, pass.run) < DoneOf(BatchRows(db, pass, batchSize), pass.run)
  {
    BatchAdvances(db, pass, batchSize);
    MissingAcross(before.items, db.items, BatchRows(db, pass, batchSize).items);
  }

  lemma MissingAcross(a: Items, b: Items, c: Items)
    requires NoneTurnedMissing(a, b) && NoneTurnedMissing(b, c)
    ensures NoneTurnedMissing(a, c)
  {
  }

  lemma EndOfCourse(before: Db, db: Db, pass: Pass, batchSize: nat)
    requires OnCourse(before, db, pass) && batchSize > 0 && BatchOrder(db, pass, batchSize) == []
    ensures var seen := ScanOf(before, pass.run);
      db.items == ReconcileItems(before.items, seen, InOrder(seen, seen.Keys - DoneOf(before, pass.run)), pass)
  {
  }

  // Batches follow one another until nothing is pending.
  method ReconcileAll(store: Store, pass: Pass, batchSize: nat) returns (outcome: BatchOutcome)
    requires batchSize > 0
    requires pass.run in store.runs && pass == PassOf(store.Rows(), pass.run, pass.plan)
    requires DoneOf(store.Rows(), pass.run) <= ScanOf(store.Rows(), pass.run).Keys
    requires ParentsShorter(store.items) && ScanShorter(ScanOf(store.Rows(), pass.run))
    modifies store
    ensures outcome != Reconciled(true)
    ensures outcome == Superseded <==> !Current(old(store.Rows()), old(store.runs[pass.run]))
    ensures store.source == old(store.source) && store.collections == old(store.collections)
    ensures store.projects == old(store.projects) && store.migrations == old(store.migrations) && store.runs == old(store.runs)
    ensures NoneTurnedMissing(old(store.items), store.items)
    ensures outcome == Failed ==> pass.collection !in store.projects
    ensures outcome == Reconciled(false) ==>
      var seen := old(ScanOf(store.Rows(), pass.run));
      store.items == ReconcileItems(old(store.items), seen, InOrder(seen, seen.Keys - old(DoneOf(store.Rows(), pass.run))), pass)
  {
    ghost var before := store.Rows();
    while true
      invariant OnCourse(before, store.Rows(), pass) && ParentsShorter(store.items)
      decreases ScanOf(before, pass.run).Keys - DoneOf(store.Rows(), pass.run)
    {
      ghost var current := store.Rows();
      outcome := ReconcilePendingBatch(store, pass, batchSize);
      if outcome == Reconciled(true) {
        BatchStaysOnCourse(before, current, pass, batchSize);
      } else {
        if outcome == Reconciled(false) { EndOfCourse(before, current, pass, batchSize); }
        return;
      }
    }
  }
}
