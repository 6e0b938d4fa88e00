/**
 The transactions of the source worker (services/source_worker/engine.py) as functions from the rows
 before to the rows after.
 */
module SourceSteps {

  import opened Outcome
  import opened Corpus
  import opened Reconciliation

  // ---- Guards ------------------------------------------------------------------------------

  predicate Live(status: MigrationStatus) {
    status in {Requested, MigrationValidating, Syncing, Applying}
  }

  predicate LiveMigration(db: Db) {
    exists m :: m in db.migrations && Live(db.migrations[m].status)
  }

  // The source and the collection still take part in synchronization.
  predicate Eligible(db: Db, c: CollectionId) {
    && c in db.collections
    && db.source.state == SourceActive
    && db.collections[c].selected && db.collections[c].registered && db.collections[c].valid
    && db.collections[c].lifecycle != CollectionMissing && db.collections[c].lifecycle != CollectionAccessRevoked
    && !db.collections[c].deleted
    && !db.collections[c].rules.collection
  }

  predicate Current(db: Db, run: Run) {
    && Eligible(db, run.collection)
    && db.source.configRevision == run.configRevision
    && db.collections[run.collection].filterRevision == run.filterRevision
    && (run.migration.Some? ==>
         run.migration.value in db.migrations && db.migrations[run.migration.value].status == Syncing)
  }

  predicate Claimable(db: Db, run: Run) {
    Current(db, run) && (run.migration.None? ==> !LiveMigration(db))
  }

  predicate Pending(run: Run) {
    run.status == RunQueued || run.status == RunRunning
  }

  predicate HasPendingRun(runs: map<RunId, Run>, c: CollectionId) {
    exists r :: r in runs && runs[r].collection == c && Pending(runs[r])
  }

  // ---- Queueing and superseding runs -------------------------------------------------------

  function QueueRun(db: Db, c: CollectionId, config: nat, trigger: Trigger, now: nat): Db {
    if !Eligible(db, c) || db.source.configRevision != config || LiveMigration(db) || HasPendingRun(db.runs, c) then db
    else db.(runs := db.runs[Above(db.runs.Keys) := Run(c, None, config, db.collections[c].filterRevision, trigger, RunQueued, false, now)])
  }

  function Withdrawn(run: Run): Run {
    if Pending(run) then run.(status := RunSuperseded) else run
  }

  predicate FilterMoved(db: Db, run: Run) {
    && run.collection in db.collections
    && db.source.configRevision == run.configRevision
    && db.collections[run.collection].filterRevision != run.filterRevision
  }

  // A superseded run gives way to a fresh one when only the exclusion rules moved.
  function Supersede(db: Db, r: RunId, now: nat): Db
    requires r in db.runs
  {
    var run := db.runs[r];
    var withdrawn := db.(runs := db.runs[r := Withdrawn(run)], observed := db.observed - {r});
    if FilterMoved(db, run) && Eligible(db, run.collection)
    then QueueRun(withdrawn, run.collection, db.source.configRevision, run.trigger, now)
    else withdrawn
  }

  // ---- Reconciling one observation -----------------------------------------------------------

  function PassOf(db: Db, r: RunId, plan: Exclusions): Pass
    requires r in db.runs
  {
    Pass(r, db.runs[r].collection, plan, db.source.maxDocumentSize)
  }

  function CurrentIndex(db: Db, id: ExternalId): Option<Index> {
    if id in db.indexes && db.indexes[id].current then Some(db.indexes[id]) else None
  }

  predicate RevisionChanged(db: Db, id: ExternalId, o: Observation) {
    id !in db.documents || db.documents[id].revision != o.revision
  }

  // The current index was built from the observed revision; one without a revision is trusted while
  // the revision stands still.
  predicate IndexMatches(db: Db, id: ExternalId, o: Observation) {
    && id in db.documents
    && CurrentIndex(db, id).Some?
    && (CurrentIndex(db, id).value.revision == Some(o.revision)
        || (CurrentIndex(db, id).value.revision == None && !RevisionChanged(db, id, o)))
  }

  function StatusAfter(db: Db, id: ExternalId, o: Observation, lifecycle: ItemState): DocumentStatus {
    var known := id in db.documents;
    if lifecycle == ItemExcluded && known then db.documents[id].status
    else if lifecycle != ItemActive then Skipped
    else if IndexMatches(db, id, o) then Ready
    else if known && !RevisionChanged(db, id, o) && db.documents[id].status == DocumentFailed then DocumentFailed
    else Uploaded
  }

  function DocumentAfter(db: Db, pass: Pass, config: nat, id: ExternalId, o: Observation, lifecycle: ItemState): Document {
    var status := StatusAfter(db, id, o, lifecycle);
    Document(pass.collection, status, o.revision, o.revision, config, lifecycle,
             id in db.documents && lifecycle == ItemActive && status == Ready, false)
  }

  function SupersedeJobs(jobs: map<JobId, Job>, ids: set<ExternalId>): map<JobId, Job> {
    map j | j in jobs ::
      if jobs[j].document in ids && jobs[j].status == JobQueued then jobs[j].(status := JobSuperseded) else jobs[j]
  }

  predicate HasActiveJob(jobs: map<JobId, Job>, id: ExternalId, revision: Revision) {
    exists j :: j in jobs && jobs[j].document == id && jobs[j].revision == revision && jobs[j].status in {JobQueued, JobRunning}
  }

  function QueueJob(jobs: map<JobId, Job>, id: ExternalId, c: CollectionId, revision: Revision, config: nat): map<JobId, Job> {
    if HasActiveJob(jobs, id, revision) then jobs
    else jobs[Above(jobs.Keys) := Job(id, c, JobQueued, revision, config, 0)]
  }

  function ReconcileDocument(db: Db, pass: Pass, config: nat, id: ExternalId, o: Observation, lifecycle: ItemState,
                             preserveIndex: bool): Db
  {
    var document := DocumentAfter(db, pass, config, id, o, lifecycle);
    var retire := lifecycle == ItemActive && id in db.documents && !IndexMatches(db, id, o) && !preserveIndex;
    var jobs := if lifecycle == ItemExcluded then SupersedeJobs(db.jobs, {id}) else db.jobs;
    db.(documents := db.documents[id := document],
        indexes := if retire && id in db.indexes then db.indexes[id := db.indexes[id].(current := false)] else db.indexes,
        jobs := if lifecycle == ItemActive && document.status == Uploaded
                then QueueJob(jobs, id, pass.collection, o.revision, config) else jobs)
  }

  function Descendants(items: Items, folder: ExternalId): set<ExternalId> {
    set k | k in items && Under(items, k, folder)
  }

  function HideDocuments(documents: map<ExternalId, Document>, ids: set<ExternalId>): map<ExternalId, Document> {
    map k | k in documents ::
      if k in ids && !documents[k].deleted then documents[k].(lifecycle := ItemExcluded, eligible := false) else documents[k]
  }

  function ReconcileOne(db: Db, pass: Pass, config: nat, id: ExternalId, o: Observation, preserveIndex: bool): Db {
    var lifecycle := Classify(id, o, pass);
    var below := Descendants(db.items[id := ItemOf(db.items, id, o, pass)], id);
    var placed := db.(items := ReconcileItem(db.items, id, o, pass));
    if o.isDocument then ReconcileDocument(placed, pass, config, id, o, lifecycle, preserveIndex)
    else if lifecycle == ItemExcluded then
      placed.(documents := HideDocuments(db.documents, below), jobs := SupersedeJobs(db.jobs, below))
    else placed
  }

  function ReconcileMany(db: Db, pass: Pass, config: nat, seen: Scan, order: seq<ExternalId>, preserveIndex: bool): Db
    requires forall id :: id in order ==> id in seen
    decreases |order|
  {
    if order == [] then db
    else ReconcileMany(ReconcileOne(db, pass, config, order[0], seen[order[0]], preserveIndex), pass, config, seen, order[1..], preserveIndex)
  }

  // The observations of a run, and which of them are reconciled; a run without a row has none.
  function ScanOf(db: Db, r: RunId): Scan {
    if r in db.observed then db.observed[r].seen else map[]
  }

  function DoneOf(db: Db, r: RunId): set<ExternalId> {
    if r in db.observed then db.observed[r].reconciled else {}
  }

  // ---- Completing and failing runs -----------------------------------------------------------

  predicate Unseen(item: Item, pass: Pass) {
    item.collection == pass.collection && item.lastSeen != Some(pass.run) && item.lifecycle != ItemMissing
  }

  function RemoveDocuments(db: Db, pass: Pass): map<ExternalId, Document> {
    map k | k in db.documents ::
      if k in db.items && Unseen(db.items[k], pass)
      then db.documents[k].(lifecycle := ItemMissing, eligible := false, status := DocumentDeleted, deleted := true)
      else db.documents[k]
  }

  function OpenProject(projects: map<CollectionId, Project>, c: CollectionId): map<CollectionId, Project> {
    if c in projects then projects[c := Project(ProjectActive, true, false)] else projects
  }

  function CloseScan(db: Db, pass: Pass): Db
    requires pass.run in db.runs
  {
    db.(documents := RemoveDocuments(db, pass),
        items := MarkMissing(db.items, pass),
        projects := OpenProject(db.projects, pass.collection),
        runs := db.runs[pass.run := db.runs[pass.run].(status := RunCompleted)],
        observed := db.observed - {pass.run})
  }

  function CompleteRun(db: Db, r: RunId, now: nat): Db
    requires r in db.runs
  {
    var run := db.runs[r];
    if !Current(db, run) then Supersede(db, r, now)
    else
      var pass := PassOf(db, r, db.collections[run.collection].rules);
      var closed := CloseScan(db, pass);
      var reopened := closed.(collections := db.collections[run.collection := db.collections[run.collection].(lifecycle := CollectionActive)]);
      if run.followUp then QueueRun(reopened, run.collection, run.configRevision, Manual, now) else reopened
  }

  function CancelMigration(db: Db, m: MigrationId, failed: bool): Db
    requires m in db.migrations
  {
    var status := db.migrations[m].status;
    db.(migrations := if status in {MigrationCompleted, Cancelled, MigrationFailed} then db.migrations
                      else db.migrations[m := db.migrations[m].(status := if failed then MigrationFailed else Cancelled)],
        runs := WithdrawMigrationRuns(db.runs, m),
        observed := db.observed - RunsOf(db.runs, m))
  }

  function RunsOf(runs: map<RunId, Run>, m: MigrationId): set<RunId> {
    set r | r in runs && runs[r].migration == Some(m)
  }

  predicate Unfinished(run: Run) {
    run.status in {RunQueued, RunRunning, RunScanned}
  }

  function WithdrawMigrationRuns(runs: map<RunId, Run>, m: MigrationId): map<RunId, Run> {
    map r | r in runs ::
      if runs[r].migration == Some(m) && Unfinished(runs[r]) then runs[r].(status := RunSuperseded) else runs[r]
  }

  // The scan failed; `denied` when the whole collection refused access.
  function FailRun(db: Db, r: RunId, denied: bool): Db
    requires r in db.runs && (db.runs[r].migration.Some? ==> db.runs[r].migration.value in db.migrations)
  {
    var run := db.runs[r];
    var failed := db.(runs := db.runs[r := run.(status := RunFailed)]);
    if run.migration.Some? then CancelMigration(failed, run.migration.value, true)
    else
      var cleared := failed.(observed := db.observed - {r});
      if denied then RevokeCollection(cleared, run.collection) else cleared
  }

  function RevokeCollection(db: Db, c: CollectionId): Db {
    db.(collections := if c in db.collections then db.collections[c := db.collections[c].(lifecycle := CollectionAccessRevoked)] else db.collections,
        projects := if c in db.projects then db.projects[c := db.projects[c].(lifecycle := ProjectAccessRevoked, eligible := false)] else db.projects,
        documents := map k | k in db.documents ::
          if db.documents[k].collection == c && !db.documents[k].deleted then db.documents[k].(eligible := false) else db.documents[k],
        jobs := map j | j in db.jobs ::
          if db.jobs[j].collection == c && db.jobs[j].status == JobQueued then db.jobs[j].(status := JobSuperseded) else db.jobs[j])
  }

  // ---- Endpoint migration ------------------------------------------------------------------

  function LiveRunsOf(runs: map<RunId, Run>, m: MigrationId): set<RunId> {
    set r | r in runs && runs[r].migration == Some(m) && Unfinished(runs[r])
  }

  predicate AllScanned(db: Db, m: MigrationId) {
    && LiveRunsOf(db.runs, m) != {}
    && forall r :: r in LiveRunsOf(db.runs, m) ==> db.runs[r].status == RunScanned
  }

  function KnownIds(db: Db, c: CollectionId): set<ExternalId> {
    set k | k in db.items && db.items[k].collection == c
            && db.items[k].lifecycle !in {ItemMissing, ItemAccessRevoked, ItemExcluded}
  }

  // The target library does not look like the known one.
  predicate Doubtful(existing: set<ExternalId>, observed: set<ExternalId>) {
    var overlap := |existing * observed|;
    existing == {} || observed == {} || overlap == 0 || 2 * overlap < |existing| || 2 * overlap < |observed|
  }

  predicate RequiresConfirmation(db: Db, m: MigrationId) {
    exists r :: r in LiveRunsOf(db.runs, m) && db.runs[r].collection in db.collections
      && Doubtful(KnownIds(db, db.runs[r].collection), ScanOf(db, r).Keys)
  }

  function RejectMigration(db: Db, m: MigrationId): Db
    requires m in db.migrations
  {
    db.(migrations := db.migrations[m := db.migrations[m].(status := MigrationFailed)],
        runs := WithdrawMigrationRuns(db.runs, m),
        observed := db.observed - RunsOf(db.runs, m))
  }

  // One scanned run of the migration, applied; a document without a project raises.
  function ApplyRun(db: Db, r: RunId): Result<Db>
    requires r in db.runs
  {
    var run := db.runs[r];
    if run.collection !in db.collections then Returned(db)
    else
      var seen := ScanOf(db, r);
      if run.collection !in db.projects && (exists id :: id in seen && seen[id].isDocument) then Raised
      else
        var pass := PassOf(db, r, db.collections[run.collection].rules);
        var reconciled := ReconcileMany(db, pass, run.configRevision, seen, InOrder(seen, seen.Keys), true);
        Returned(CloseScan(reconciled.(runs := db.runs), pass))
  }

  function ApplyRuns(db: Db, runs: seq<RunId>): Result<Db>
    decreases |runs|
  {
    if runs == [] then Returned(db)
    else if runs[0] !in db.runs then Raised
    else
      var next :- ApplyRun(db, runs[0]);
      ApplyRuns(next, runs[1..])
  }

  // The switch itself: scope, config, credentials and config revision in one step.
  function SwitchSource(db: Db, m: MigrationId): Db
    requires m in db.migrations
  {
    var migration := db.migrations[m];
    var next := db.source.configRevision + 1;
    db.(source := db.source.(scope := migration.targetScope, config := migration.targetConfig,
                             credentials := migration.credentials, configRevision := next),
        documents := map k | k in db.documents :: db.documents[k].(expectedConfig := next),
        jobs := map j | j in db.jobs :: if db.jobs[j].status == JobQueued then db.jobs[j].(config := next) else db.jobs[j],
        migrations := db.migrations[m := migration.(status := MigrationCompleted)])
  }

  // All scanned runs are applied and the source switched, or nothing happens.
  function ApplyMigration(db: Db, m: MigrationId, order: seq<RunId>): Result<Db>
    requires m in db.migrations
  {
    var applied :- ApplyRuns(db, order);
    if applied.source.configRevision != db.migrations[m].sourceConfigRevision || m !in applied.migrations then Raised
    else Returned(SwitchSource(applied, m))
  }
}
