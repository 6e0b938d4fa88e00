/**
 Both workers and the administration on one database, interleaved transaction by transaction. The
 source worker carries its position in a run between transactions; a job's process carries what it
 read when it started, and may publish at any later time.
 */
module Interleaving {

  import opened Outcome
  import opened Corpus
  import opened Reconciliation
  import opened SourceSteps
  import opened SourceWorker
  import opened SyncRuns
  import opened Migrations
  import opened IndexSteps

  // Where the source worker stands in the run it has claimed. A check of the run and the write it leads
  // to are separate transactions, so what a check has decided is a phase of its own.
  datatype Phase =
    | Idle
    | Taken(run: RunId)
    | Scanning(pass: Pass)
    | Scanned(pass: Pass)
    | Reconciling(pass: Pass)
    | Closing(pass: Pass)
    | Deciding(run: RunId)
    | Raising(run: RunId)
    | GivingUp(run: RunId)
    | Failing(run: RunId, denied: bool)

  // `processes` holds every process ever started, and `ended` every run whose scan was iterated to the
  // end while the run was still current.
  datatype System = System(db: Db, phase: Phase, processes: set<Process>, ended: set<RunId>)

  datatype Action =
    | Queue(collection: CollectionId, config: nat, trigger: Trigger, now: nat)
    | Claim(now: nat)
    | LoadPlan
    | Observe(more: Scan)
    | EndScan
    | MarkScanned
    | Batch(size: nat)
    | Close(now: nat)
    | Break(denied: bool)
    | GiveUp(now: nat)
    | Fail
    | Restart
    | StartMigrating(migration: MigrationId, now: nat, start: Start)
    | Decide(migration: MigrationId, decision: Decision, order: seq<RunId>)
    | Cancel(migration: MigrationId, failed: bool)
    | ClaimNext(job: JobId)
    | Begin(job: JobId)
    | Publish(process: Process)
    | Skip(process: Process)
    | FailJob(job: JobId, failure: Failure)
    | Administer

  // ---- Steps of the source worker ------------------------------------------------------------

  ghost predicate ClaimStep(s: System, now: nat, t: System) {
    exists swept: Db :: Swept(s.db, Stale(s.db), swept, now) && TakesOne(s, swept, now, t)
  }

  ghost predicate TakesOne(s: System, swept: Db, now: nat, t: System) {
    || t == s.(db := swept)
    || (t.phase.Taken? && TakesRun(s, swept, t.phase.run, now, t))
  }

  ghost predicate TakesRun(s: System, swept: Db, r: RunId, now: nat, t: System) {
    && r in swept.runs && swept.runs[r].status == RunQueued && Claimable(swept, swept.runs[r])
    && t == s.(db := swept.(runs := swept.runs[r := swept.runs[r].(status := RunRunning, startedAt := now)]), phase := Taken(r))
  }

  ghost predicate LoadStep(s: System, t: System) {
    && s.phase.Taken? && s.phase.run in s.db.runs
    && var run := s.db.runs[s.phase.run];
       t == s.(phase := if Current(s.db, run) then Scanning(PassOf(s.db, s.phase.run, s.db.collections[run.collection].rules))
                        else GivingUp(s.phase.run))
  }

  function Observed(db: Db, r: RunId, more: Scan): map<RunId, Corpus.Observed> {
    db.observed[r := Corpus.Observed(ScanOf(db, r) + more, DoneOf(db, r))]
  }

  ghost predicate ObserveStep(s: System, more: Scan, t: System) {
    && s.phase.Scanning?
    && t == s.(db := s.db.(observed := Observed(s.db, s.phase.pass.run, more)))
  }

  // The end of the scan: the run goes on to reconciliation, or waits for its migration.
  ghost predicate EndStep(s: System, t: System) {
    && s.phase.Scanning? && s.phase.pass.run in s.db.runs
    && var pass := s.phase.pass;
       t == if !Current(s.db, s.db.runs[pass.run]) then s.(phase := GivingUp(pass.run))
            else s.(phase := if s.db.runs[pass.run].migration.Some? then Scanned(pass) else Reconciling(pass), ended := s.ended + {pass.run})
  }

  function MarkedScanned(runs: map<RunId, Run>, r: RunId): map<RunId, Run>
    requires r in runs
  {
    if runs[r].status == RunRunning then runs[r := runs[r].(status := RunScanned)] else runs
  }

  ghost predicate MarkStep(s: System, t: System) {
    && s.phase.Scanned? && s.phase.pass.run in s.db.runs
    && t == s.(db := s.db.(runs := MarkedScanned(s.db.runs, s.phase.pass.run)), phase := Deciding(s.phase.pass.run))
  }

  // The last act of a scanned run is to decide on its migration; a decision that raises is an error of
  // the run.
  ghost predicate DecideStep(s: System, m: MigrationId, decision: Decision, order: seq<RunId>, t: System) {
    && s.phase.Deciding? && s.phase.run in s.db.runs && s.db.runs[s.phase.run].migration == Some(m)
    && Decided(s.db, m, decision, order, t.db)
    && t == s.(db := t.db, phase := if decision == Aborted then Raising(s.phase.run) else Idle)
  }

  ghost predicate BatchStep(s: System, size: nat, t: System) {
    && s.phase.Reconciling? && size > 0 && s.phase.pass.run in s.db.runs
    && var pass := s.phase.pass;
       match BatchResult(s.db, pass, size)
       case Superseded => t == s.(phase := GivingUp(pass.run))
       case Failed => t == s
       case Reconciled(any) =>
         t == if any then s.(db := BatchRows(s.db, pass, size)) else s.(phase := Closing(pass))
  }

  ghost predicate CloseStep(s: System, now: nat, t: System) {
    && s.phase.Closing? && s.phase.pass.run in s.db.runs
    && t == s.(db := CompleteRun(s.db, s.phase.pass.run, now), phase := Idle)
  }

  function RunOf(phase: Phase): RunId
    requires !phase.Idle?
  {
    match phase
    case Taken(r) => r
    case Deciding(r) => r
    case Raising(r) => r
    case GivingUp(r) => r
    case Failing(r, _) => r
    case Scanning(pass) => pass.run
    case Scanned(pass) => pass.run
    case Reconciling(pass) => pass.run
    case Closing(pass) => pass.run
  }

  // An error anywhere in the run.
  ghost predicate BreakStep(s: System, denied: bool, t: System) {
    && !s.phase.Idle? && RunOf(s.phase) in s.db.runs
    && var r := RunOf(s.phase);
       t == s.(phase := if Current(s.db, s.db.runs[r]) then Failing(r, denied) else GivingUp(r))
  }

  ghost predicate GiveUpStep(s: System, now: nat, t: System) {
    && s.phase.GivingUp? && s.phase.run in s.db.runs
    && t == s.(db := Supersede(s.db, s.phase.run, now), phase := Idle)
  }

  ghost predicate FailStep(s: System, t: System) {
    && s.phase.Failing? && s.phase.run in s.db.runs
    && var run := s.db.runs[s.phase.run];
       && (run.migration.Some? ==> run.migration.value in s.db.migrations)
       && t == s.(db := FailRun(s.db, s.phase.run, s.phase.denied), phase := Idle)
  }

  // ---- Steps of the index worker -------------------------------------------------------------

  function Begun(s: System, j: JobId): System
    requires Readable(s.db, j)
  {
    var job := s.db.jobs[j];
    if Overtaken(s.db, s.db.documents[job.document], job.revision, job.config) then s.(db := Dropped(s.db, j))
    else s.(processes := s.processes + {ProcessOf(s.db, j)})
  }

  // The tables that only the source worker and the administration write.
  ghost predicate SourceSide(db: Db, after: Db) {
    && after.source == db.source && after.collections == db.collections && after.projects == db.projects
    && after.migrations == db.migrations && after.runs == db.runs && after.observed == db.observed
  }

  ghost predicate IndexAction(a: Action) {
    a.ClaimNext? || a.Begin? || a.Publish? || a.Skip? || a.FailJob?
  }

  lemma BegunSide(s: System, j: JobId)
    requires Readable(s.db, j)
    ensures SourceSide(s.db, Begun(s, j).db) && Begun(s, j).db.items == s.db.items
    ensures Begun(s, j).phase == s.phase && Begun(s, j).ended == s.ended
  {
  }

  lemma FailureSide(db: Db, j: JobId, failure: Failure)
    ensures SourceSide(db, AfterFailure(db, j, failure))
  {
  }

  lemma ClaimedSide(db: Db, j: JobId)
    requires CanStart(db, j)
    ensures SourceSide(db, Claimed(db, j)) && Claimed(db, j).items == db.items
  {
  }

  lemma SkippedSide(db: Db, p: Process)
    ensures SourceSide(db, SkippedBy(db, p)) && SkippedBy(db, p).items == db.items
  {
  }

  lemma PublishedSide(db: Db, p: Process)
    ensures SourceSide(db, Published(db, p)) && Published(db, p).items == db.items
  {
  }

  // ---- Administration ------------------------------------------------------------------------

  ghost predicate AdministeredRun(run: Run, after: Run) {
    && (after.configRevision == run.configRevision || run.status == RunQueued)
    && after.migration == run.migration && after.collection == run.collection
    && (after.status == run.status || after.status == RunSuperseded)
  }

  ghost predicate AdministeredItem(item: Item, after: Item) {
    after == item || after == item.(lifecycle := ItemExcluded)
  }

  ghost predicate AdministeredDocument(document: Document, after: Document) {
    || after == document
    || after == document.(lifecycle := ItemExcluded, eligible := false)
    || (!document.deleted && after == document.(status := Uploaded))
  }

  // A job asked for by hand is queued for what its document expects.
  ghost predicate Requested(db: Db, job: Job) {
    && job.status == JobQueued && job.attempts == 0 && job.document in db.documents
    && job.revision == db.documents[job.document].expectedRevision && job.config == db.documents[job.document].expectedConfig
  }

  ghost predicate AdministeredJob(db: Db, job: Job, after: Job) {
    after == job || (job.status == JobQueued && (after == job.(status := JobSuperseded) || Requested(db, after)))
  }

  // Anything the web application and the maintenance task do: sources, collections, projects and rules
  // change freely; rows are excluded, withdrawn, reset for indexing, asked for or purged, never made
  // missing.
  ghost predicate Administered(db: Db, after: Db) {
    && after.source.configRevision >= db.source.configRevision
    && after.items.Keys == db.items.Keys && (forall k :: k in db.items ==> AdministeredItem(db.items[k], after.items[k]))
    && after.documents.Keys == db.documents.Keys
    && (forall k :: k in db.documents ==> AdministeredDocument(db.documents[k], after.documents[k]))
    && (forall k :: k in after.indexes ==> k in db.indexes && after.indexes[k] == db.indexes[k])
    && db.jobs.Keys <= after.jobs.Keys
    && (forall j :: j in db.jobs ==> AdministeredJob(db, db.jobs[j], after.jobs[j]))
    && (forall j :: j in after.jobs && j !in db.jobs ==> Requested(db, after.jobs[j]))
    && AdministeredRuns(db, after)
    && (forall r :: r in after.observed ==> r in db.observed && after.observed[r] == db.observed[r])
  }

  // Runs are queued or withdrawn, within the schema's unique index.
  ghost predicate AdministeredRuns(db: Db, after: Db) {
    && db.runs.Keys <= after.runs.Keys && OnePending(after.runs)
    && (forall r :: r in db.runs ==> AdministeredRun(db.runs[r], after.runs[r]))
    && (forall r :: r in after.runs && r !in db.runs ==> after.runs[r].status == RunQueued)
    && (forall r :: r in after.runs ==> (r in db.runs && after.runs[r].configRevision == db.runs[r].configRevision)
                                        || after.runs[r].configRevision <= after.source.configRevision)
  }

  // ---- A step ------------------------------------------------------------------------------

  // A migration is started after it has been asked for, and asked for again only when its runs have been
  // withdrawn; its status may change while it is being validated.
  ghost predicate Step(s: System, a: Action, t: System) {
    match a
    case Queue(c, config, trigger, now) => t == s.(db := QueueRun(s.db, c, config, trigger, now))
    case Claim(now) => s.phase.Idle? && ClaimStep(s, now, t)
    case LoadPlan => LoadStep(s, t)
    case Observe(more) => ObserveStep(s, more, t)
    case EndScan => EndStep(s, t)
    case MarkScanned => MarkStep(s, t)
    case Batch(size) => BatchStep(s, size, t)
    case Close(now) => CloseStep(s, now, t)
    case Break(denied) => BreakStep(s, denied, t)
    case GiveUp(now) => GiveUpStep(s, now, t)
    case Fail => FailStep(s, t)
    case Restart => RecoveredRows(s.db, UnderwayMigrations(s.db), t.db) && t == s.(db := t.db, phase := Idle)
    case StartMigrating(m, now, start) =>
      m in s.db.migrations && LiveRunsOf(s.db.runs, m) == {} && StartedAs(s.db, m, now, start, t.db) && t == s.(db := t.db)
    case Decide(m, decision, order) => DecideStep(s, m, decision, order, t)
    case Cancel(m, failed) => m in s.db.migrations && t == s.(db := CancelMigration(s.db, m, failed))
    case ClaimNext(j) => CanStart(s.db, j) && t == s.(db := Claimed(s.db, j))
    case Begin(j) => Readable(s.db, j) && t == Begun(s, j)
    case Publish(p) => p in s.processes && t == s.(db := Published(s.db, p))
    case Skip(p) => p in s.processes && t == s.(db := SkippedBy(s.db, p))
    case FailJob(j, failure) => t == s.(db := AfterFailure(s.db, j, failure))
    case Administer => Administered(s.db, t.db) && t == s.(db := t.db)
  }

  // The actions that read the run's currency and decide, and write nothing.
  ghost predicate Checks(a: Action) {
    a.LoadPlan? || a.EndScan? || a.Break?
  }

  // The two actions that can move the source to a migration's target.
  ghost predicate Switches(a: Action) {
    (a.Decide? && a.decision == Applied) || (a.StartMigrating? && a.start == AppliedAtOnce)
  }

  lemma ChecksOnly(s: System, a: Action, t: System)
    requires Step(s, a, t) && Checks(a)
    ensures t.db == s.db && t.processes == s.processes
    ensures !a.EndScan? ==> t.ended == s.ended
  {
  }

  lemma WorkingSide(s: System, a: Action, t: System)
    requires Step(s, a, t) && (a.ClaimNext? || a.Begin?)
    ensures SourceSide(s.db, t.db) && t.phase == s.phase && t.ended == s.ended && t.db.items == s.db.items
  {
    if a.ClaimNext? { ClaimedSide(s.db, a.job); } else { BegunSide(s, a.job); }
  }

  lemma SettlingSide(s: System, a: Action, t: System)
    requires Step(s, a, t) && (a.Publish? || a.Skip?)
    ensures SourceSide(s.db, t.db) && t.phase == s.phase && t.ended == s.ended && t.db.items == s.db.items
  {
    if a.Publish? { PublishedSide(s.db, a.process); } else { SkippedSide(s.db, a.process); }
  }

  lemma FailingSide(s: System, a: Action, t: System)
    requires Step(s, a, t) && a.FailJob?
    ensures SourceSide(s.db, t.db) && t.phase == s.phase && t.ended == s.ended
  {
    FailureSide(s.db, a.job, a.failure);
  }

  // The index worker leaves the source side alone.
  lemma IndexStepSide(s: System, a: Action, t: System)
    requires Step(s, a, t) && IndexAction(a)
    ensures SourceSide(s.db, t.db) && t.phase == s.phase && t.ended == s.ended
    ensures !a.FailJob? ==> t.db.items == s.db.items
  {
    if a.ClaimNext? || a.Begin? {
      WorkingSide(s, a, t);
    } else if a.FailJob? {
      FailingSide(s, a, t);
    } else {
      SettlingSide(s, a, t);
    }
  }
}
