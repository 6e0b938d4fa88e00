/**
 Executions of the interleaved workers in which a property fails that the other modules give the exact
 condition of.
 */
module Counterexamples {

  import opened Outcome
  import opened Corpus
  import opened Reconciliation
  import opened SourceSteps
  import opened SourceWorker
  import opened SyncRuns
  import opened Migrations
  import opened IndexSteps
  import opened Interleaving
  import opened Publication
  import opened Restoration
  import opened Readmission

  const SHARE: CollectionId := "s"
  const REPORT: ExternalId := "s/r"

  function Library(runs: map<RunId, Run>, observed: map<RunId, Corpus.Observed>, items: Items, document: Document, index: Index,
                   jobs: map<JobId, Job>): Db
  {
    Db(Source(SourceActive, 0, "", "", "", 0),
       map[SHARE := Collection(0, true, true, true, CollectionActive, false, Exclusions(false, {}, {}))],
       map[SHARE := Project(ProjectActive, true, false)],
       map[], runs, observed, items, map[REPORT := document], map[REPORT := index], jobs)
  }

  lemma AboveNone()
    ensures Above({}) == 0
  {
  }

  lemma AboveZero()
    ensures Above({0}) == 1
  {
    GreatestIs({0});
  }

  // ---- One step further --------------------------------------------------------------------

  lemma AfterAdministration(s: System, db: Db)
    requires Reachable(s) && Administered(s.db, db)
    ensures Reachable(s.(db := db))
  {
    ReachableNext(s, Administer, s.(db := db));
  }

  lemma AfterQueue(s: System, c: CollectionId, config: nat, trigger: Trigger, now: nat)
    requires Reachable(s)
    ensures Reachable(s.(db := QueueRun(s.db, c, config, trigger, now)))
  {
    ReachableNext(s, Queue(c, config, trigger, now), s.(db := QueueRun(s.db, c, config, trigger, now)));
  }

  lemma AfterClaim(s: System, now: nat, t: System)
    requires Reachable(s) && s.phase.Idle? && ClaimStep(s, now, t)
    ensures Reachable(t)
  {
    ReachableNext(s, Claim(now), t);
  }

  lemma AfterLoad(s: System, t: System)
    requires Reachable(s) && LoadStep(s, t)
    ensures Reachable(t)
  {
    ReachableNext(s, LoadPlan, t);
  }

  lemma AfterObserve(s: System, more: Scan, t: System)
    requires Reachable(s) && ObserveStep(s, more, t)
    ensures Reachable(t)
  {
    ReachableNext(s, Observe(more), t);
  }

  lemma AfterEnd(s: System, t: System)
    requires Reachable(s) && EndStep(s, t)
    ensures Reachable(t)
  {
    ReachableNext(s, EndScan, t);
  }

  lemma AfterMark(s: System, t: System)
    requires Reachable(s) && MarkStep(s, t)
    ensures Reachable(t)
  {
    ReachableNext(s, MarkScanned, t);
  }

  lemma AfterBatch(s: System, size: nat, t: System)
    requires Reachable(s) && BatchStep(s, size, t)
    ensures Reachable(t)
  {
    ReachableNext(s, Batch(size), t);
  }

  lemma AfterJobClaim(s: System, j: JobId)
    requires Reachable(s) && CanStart(s.db, j)
    ensures Reachable(s.(db := Claimed(s.db, j)))
  {
    ReachableNext(s, ClaimNext(j), s.(db := Claimed(s.db, j)));
  }

  lemma AfterBegin(s: System, j: JobId)
    requires Reachable(s) && Readable(s.db, j)
    ensures Reachable(Begun(s, j))
  {
    ReachableNext(s, Begin(j), Begun(s, j));
  }

  lemma AfterPublish(s: System, p: Process)
    requires Reachable(s) && p in s.processes
    ensures Reachable(s.(db := Published(s.db, p)))
  {
    ReachableNext(s, Publish(p), s.(db := Published(s.db, p)));
  }

  // ---- A skip that should have been refused --------------------------------------------------

  function ReportAt(revision: Revision, status: DocumentStatus, eligible: bool): Document {
    Document(SHARE, status, revision, revision, 0, ItemActive, eligible, false)
  }

  function JobAt(revision: Revision, status: JobStatus, attempts: nat): Job {
    Job(REPORT, SHARE, status, revision, 0, attempts)
  }

  const SLOW := Process(0, REPORT, "1", "1", 0)
  const QUICK := Process(1, REPORT, "2", "2", 0)

  function RunWith(status: RunStatus): Run {
    Run(SHARE, None, 0, 0, Scheduled, status, false, 0)
  }

  const SEEN: Scan := map[REPORT := Observation(None, true, "2", true, 0)]
  const PASS := Pass(0, SHARE, Exclusions(false, {}, {}), 0)

  function AtWork(document: Document, jobs: map<JobId, Job>, processes: set<Process>): System {
    System(Library(map[], map[], map[], document, Index(None, true), jobs), Idle, processes, {})
  }

  // An imported document is indexed again by hand, and its process takes its time.
  lemma AskedByHand()
    ensures Reachable(AtWork(ReportAt("1", Uploaded, true), map[0 := JobAt("1", JobQueued, 0)], {}))
  {
    var first, asked := AtWork(ReportAt("1", DocumentStatus.Ready, true), map[], {}),
                        AtWork(ReportAt("1", Uploaded, true), map[0 := JobAt("1", JobQueued, 0)], {});
    ReachableFirst(first);
    Reindexed(first.db, asked.db);
    AfterAdministration(first, asked.db);
  }

  lemma Reindexed(before: Db, after: Db)
    requires before == Library(map[], map[], map[], ReportAt("1", DocumentStatus.Ready, true), Index(None, true), map[])
    requires after == Library(map[], map[], map[], ReportAt("1", Uploaded, true), Index(None, true), map[0 := JobAt("1", JobQueued, 0)])
    ensures Administered(before, after)
  {
    assert Interleaving.Requested(before, after.jobs[0]);
  }

  lemma SlowJobClaimed()
    ensures Reachable(AtWork(ReportAt("1", Indexing, true), map[0 := JobAt("1", JobRunning, 1)], {}))
  {
    var asked, claimed := AtWork(ReportAt("1", Uploaded, true), map[0 := JobAt("1", JobQueued, 0)], {}),
                          AtWork(ReportAt("1", Indexing, true), map[0 := JobAt("1", JobRunning, 1)], {});
    AskedByHand();
    AfterJobClaim(asked, 0);
    assert claimed.db == Claimed(asked.db, 0);
  }

  lemma SlowProcessStarts()
    ensures Reachable(AtWork(ReportAt("1", Indexing, true), map[0 := JobAt("1", JobRunning, 1)], {SLOW}))
  {
    var claimed, begun := AtWork(ReportAt("1", Indexing, true), map[0 := JobAt("1", JobRunning, 1)], {}),
                          AtWork(ReportAt("1", Indexing, true), map[0 := JobAt("1", JobRunning, 1)], {SLOW});
    SlowJobClaimed();
    AfterBegin(claimed, 0);
    assert begun == Begun(claimed, 0);
  }

  lemma NothingSwept(db: Db, now: nat)
    requires Stale(db) == {} && OnePending(db.runs)
    ensures Swept(db, Stale(db), db, now)
  {
    assert db.observed - {} == db.observed;
    assert forall r :: r in db.runs ==> SweptRun(db, {}, db, r);
  }

  // A queued run can be claimed while none is stale.
  lemma QueuedRunTaken(s: System, r: RunId, after: Db)
    requires Reachable(s) && s.phase == Idle && Stale(s.db) == {} && OnePending(s.db.runs)
    requires r in s.db.runs && s.db.runs[r].status == RunQueued && Claimable(s.db, s.db.runs[r])
    requires after == s.db.(runs := s.db.runs[r := s.db.runs[r].(status := RunRunning, startedAt := 0)])
    ensures Reachable(s.(db := after, phase := Taken(r)))
  {
    var t := s.(db := after, phase := Taken(r));
    NothingSwept(s.db, 0);
    assert TakesRun(s, s.db, r, 0, t);
    AfterClaim(s, 0, t);
  }

  // The one run there is.
  lemma OneRunTaken(s: System, run: Run)
    requires Reachable(s) && s.phase == Idle && s.db.runs == map[0 := run] && run.status == RunQueued && Claimable(s.db, run)
    ensures Reachable(s.(db := s.db.(runs := map[0 := run.(status := RunRunning, startedAt := 0)]), phase := Taken(0)))
  {
    assert Stale(s.db) == {};
    assert s.db.runs[0 := run.(status := RunRunning, startedAt := 0)] == map[0 := run.(status := RunRunning, startedAt := 0)];
    QueuedRunTaken(s, 0, s.db.(runs := map[0 := run.(status := RunRunning, startedAt := 0)]));
  }

  // Meanwhile a run is queued and claimed.
  lemma RunTaken(s: System) returns (t: System)
    requires Reachable(s) && s.phase == Idle && s.db.runs == map[] && Claimable(s.db, RunWith(RunQueued))
    ensures Reachable(t) && t == s.(db := s.db.(runs := map[0 := RunWith(RunRunning)]), phase := Taken(0))
  {
    AboveNone();
    assert s.db.runs.Keys == {};
    var queued := s.(db := s.db.(runs := map[0 := RunWith(RunQueued)]));
    assert queued.db == QueueRun(s.db, SHARE, 0, Scheduled, 0);
    AfterQueue(s, SHARE, 0, Scheduled, 0);
    OneRunTaken(queued, RunWith(RunQueued));
    t := s.(db := s.db.(runs := map[0 := RunWith(RunRunning)]), phase := Taken(0));
  }

  // A run's scan finds a new revision.
  lemma NewRevisionSeen(s: System, r: RunId, pass: Pass)
    requires Reachable(s) && s.phase == Taken(r) && r in s.db.runs && r !in s.db.observed && Current(s.db, s.db.runs[r])
    requires pass == PassOf(s.db, r, s.db.collections[s.db.runs[r].collection].rules)
    ensures Reachable(s.(db := s.db.(observed := s.db.observed[r := Corpus.Observed(SEEN, {})]),
                         phase := if s.db.runs[r].migration.Some? then Scanned(pass) else Reconciling(pass), ended := s.ended + {r}))
  {
    var scanning := s.(phase := Scanning(pass));
    AfterLoad(s, scanning);
    var seen := scanning.(db := s.db.(observed := s.db.observed[r := Corpus.Observed(SEEN, {})]));
    assert map[] + SEEN == SEEN;
    AfterObserve(scanning, SEEN, seen);
    AfterEnd(seen, seen.(phase := if s.db.runs[r].migration.Some? then Scanned(pass) else Reconciling(pass), ended := s.ended + {r}));
  }

  lemma OrderOfOne(seen: Scan, id: ExternalId)
    requires id in seen
    ensures InOrder(seen, {id}) == [id]
  {
    var order := InOrder(seen, {id});
    assert order[0] in order;
  }

  // And its first batch reconciles it.
  lemma NewRevisionReconciled(s: System, r: RunId, pass: Pass, after: Db)
    requires Reachable(s) && s.phase == Reconciling(pass) && pass.run == r && r in s.db.runs && Current(s.db, s.db.runs[r])
    requires r in s.db.observed && s.db.observed[r] == Corpus.Observed(SEEN, {}) && pass.collection in s.db.projects
    requires after == ReconcileOne(s.db, pass, s.db.runs[r].configRevision, REPORT, SEEN[REPORT], false)
                        .(observed := s.db.observed[r := Corpus.Observed(SEEN, {REPORT})])
    ensures Reachable(s.(db := after))
  {
    assert SEEN.Keys - {} == {REPORT};
    OrderOfOne(SEEN, REPORT);
    assert BatchOrder(s.db, pass, 250) == [REPORT];
    BatchOfOne(s.db, pass);
    AfterBatch(s, 250, s.(db := after));
  }

  lemma BatchOfOne(db: Db, pass: Pass)
    requires pass.run in db.runs && pass.run in db.observed && db.observed[pass.run] == Corpus.Observed(SEEN, {})
    requires BatchOrder(db, pass, 250) == [REPORT]
    ensures BatchRows(db, pass, 250) == ReconcileOne(db, pass, db.runs[pass.run].configRevision, REPORT, SEEN[REPORT], false)
                                          .(observed := db.observed[pass.run := Corpus.Observed(SEEN, {REPORT})])
  {
    var config := db.runs[pass.run].configRevision;
    assert [REPORT][1..] == [] && Members([REPORT]) == {REPORT};
    assert ReconcileMany(db, pass, config, SEEN, [REPORT], false) == ReconcileOne(db, pass, config, REPORT, SEEN[REPORT], false);
  }

  // The index is retired and a job queued for the new revision.
  function Reconciled(): Db {
    Library(map[0 := RunWith(RunRunning)], map[0 := Corpus.Observed(SEEN, {REPORT})],
            map[REPORT := Item(SHARE, None, true, "2", ItemActive, Some(0))], ReportAt("2", Uploaded, false),
            Index(None, false), map[0 := JobAt("1", JobRunning, 1), 1 := JobAt("2", JobQueued, 0)])
  }

  function Observed(): Db {
    Library(map[0 := RunWith(RunRunning)], map[0 := Corpus.Observed(SEEN, {})], map[], ReportAt("1", Indexing, true),
            Index(None, true), map[0 := JobAt("1", JobRunning, 1)])
  }

  lemma NewJobQueued()
    ensures QueueJob(map[0 := JobAt("1", JobRunning, 1)], REPORT, SHARE, "2", 0)
         == map[0 := JobAt("1", JobRunning, 1), 1 := JobAt("2", JobQueued, 0)]
  {
    AboveZero();
    assert map[0 := JobAt("1", JobRunning, 1)].Keys == {0};
  }

  lemma OneObserved()
    ensures ReconcileOne(Observed(), PASS, 0, REPORT, SEEN[REPORT], false) == Reconciled().(observed := Observed().observed)
  {
    NewJobQueued();
    var placed := Observed().(items := map[REPORT := Item(SHARE, None, true, "2", ItemActive, Some(0))]);
    DocumentObserved(placed);
  }

  lemma DocumentObserved(placed: Db)
    requires placed == Observed().(items := map[REPORT := Item(SHARE, None, true, "2", ItemActive, Some(0))])
    ensures ReconcileDocument(placed, PASS, 0, REPORT, SEEN[REPORT], ItemActive, false)
         == placed.(documents := map[REPORT := ReportAt("2", Uploaded, false)], indexes := map[REPORT := Index(None, false)],
                    jobs := QueueJob(placed.jobs, REPORT, SHARE, "2", 0))
  {
  }

  // The library once the job for the new revision has been worked off.
  function PublishedQuickly(): Db {
    Library(map[0 := RunWith(RunRunning)], map[0 := Corpus.Observed(SEEN, {REPORT})],
            map[REPORT := Item(SHARE, None, true, "2", ItemActive, Some(0))], ReportAt("2", DocumentStatus.Ready, true),
            Index(Some("2"), true), map[0 := JobAt("1", JobRunning, 1), 1 := JobAt("2", JobCompleted, 1)])
  }

  // And while that job runs.
  function RunningQuickly(): Db {
    Reconciled().(documents := map[REPORT := ReportAt("2", Indexing, false)],
                  jobs := map[0 := JobAt("1", JobRunning, 1), 1 := JobAt("2", JobRunning, 1)])
  }

  lemma QuickJob()
    ensures CanStart(Reconciled(), 1) && Claimed(Reconciled(), 1) == RunningQuickly()
  {
  }

  lemma QuickProcess(s: System)
    requires s.db == RunningQuickly()
    ensures Readable(s.db, 1) && Begun(s, 1) == s.(processes := s.processes + {QUICK})
  {
  }

  lemma QuickPublication()
    ensures Published(RunningQuickly(), QUICK) == PublishedQuickly()
  {
    assert !Refused(RunningQuickly(), QUICK);
  }

  lemma NewRevisionPublished(s: System)
    requires Reachable(s) && s.db == Reconciled()
    ensures Reachable(s.(db := PublishedQuickly(), processes := s.processes + {QUICK}))
  {
    QuickJob();
    AfterJobClaim(s, 1);
    var claimed := s.(db := RunningQuickly());
    QuickProcess(claimed);
    AfterBegin(claimed, 1);
    QuickPublication();
    AfterPublish(claimed.(processes := s.processes + {QUICK}), QUICK);
  }

  lemma NewRevisionTaken(taken: System)
    requires taken == System(Observed().(observed := map[]), Taken(0), {SLOW}, {})
    ensures Reachable(taken)
  {
    SlowProcessStarts();
    var t := RunTaken(AtWork(ReportAt("1", Indexing, true), map[0 := JobAt("1", JobRunning, 1)], {SLOW}));
    assert t == taken;
  }

  lemma NewRevisionObserved()
    ensures Reachable(System(Observed(), Reconciling(PASS), {SLOW}, {0}))
  {
    var taken := System(Observed().(observed := map[]), Taken(0), {SLOW}, {});
    NewRevisionTaken(taken);
    NewRevisionSeen(taken, 0, PASS);
    assert {} + {0} == {0};
    assert Observed() == taken.db.(observed := taken.db.observed[0 := Corpus.Observed(SEEN, {})]);
  }

  lemma ObservedCurrent()
    ensures Current(Observed(), RunWith(RunRunning)) && SHARE in Observed().projects && Observed().runs[0] == RunWith(RunRunning)
    ensures Reconciled() == ReconcileOne(Observed(), PASS, 0, REPORT, SEEN[REPORT], false)
                              .(observed := Observed().observed[0 := Corpus.Observed(SEEN, {REPORT})])
  {
    OneObserved();
    assert Reconciled().observed == Observed().observed[0 := Corpus.Observed(SEEN, {REPORT})];
  }

  lemma NewRevisionQueued()
    ensures Reachable(System(Reconciled(), Reconciling(PASS), {SLOW}, {0}))
  {
    NewRevisionObserved();
    ObservedCurrent();
    NewRevisionReconciled(System(Observed(), Reconciling(PASS), {SLOW}, {0}), 0, PASS, Reconciled());
  }

  lemma NewRevisionReady(s: System)
    requires s == System(PublishedQuickly(), Reconciling(PASS), {SLOW, QUICK}, {0})
    ensures Reachable(s)
  {
    NewRevisionQueued();
    NewRevisionPublished(System(Reconciled(), Reconciling(PASS), {SLOW}, {0}));
    assert {SLOW} + {QUICK} == {SLOW, QUICK};
  }

  // A process that started for an old revision skips, and the newer document, published meanwhile and
  // retrievable, is lost to retrieval, where publishing would have been refused.
  lemma OvertakenSkipHides() returns (s: System, p: Process, t: System)
    ensures Reachable(s) && p in s.processes && Step(s, Skip(p), t)
    ensures Refused(s.db, p) && Visible(s.db, p.document) && !Visible(t.db, p.document)
  {
    s, p := System(PublishedQuickly(), Reconciling(PASS), {SLOW, QUICK}, {0}), SLOW;
    t := s.(db := SkippedBy(s.db, p));
    NewRevisionReady(s);
  }

  // ---- A cancellation that is lost -----------------------------------------------------------

  const TARGET := Migration(MigrationValidating, 0, "new", "", "", false)

  // A source in migration, with its one collection chosen or not.
  function InMigration(status: MigrationStatus, selected: bool, runs: map<RunId, Run>): Db {
    Db(Source(SourceActive, 0, "old", "", "", 0),
       map[SHARE := Collection(0, selected, true, true, CollectionActive, false, Exclusions(false, {}, {}))],
       map[SHARE := Project(ProjectActive, true, false)],
       map[0 := TARGET.(status := status)], runs, map[], map[], map[], map[], map[])
  }

  lemma CancelledBetween(selected: bool)
    ensures CancelMigration(InMigration(MigrationValidating, selected, map[]), 0, false) == InMigration(Cancelled, selected, map[])
  {
  }

  const TARGET_RUN := Run(SHARE, Some(0), 0, 0, ForMigration, RunQueued, false, 0)

  lemma StartsAnyway()
    ensures StartedAs(InMigration(Cancelled, true, map[]), 0, 0, Started, InMigration(Syncing, true, map[0 := TARGET_RUN]))
  {
    var db, after := InMigration(Cancelled, true, map[]), InMigration(Syncing, true, map[0 := TARGET_RUN]);
    assert SHARE in MigrationCollections(db);
    assert 0 in after.runs && after.runs[0].collection == SHARE;
    assert HasNewRun(db, after.runs, SHARE);
  }

  // A migration cancelled while its target is being validated queues its scans all the same.
  lemma CancelledGoesOn() returns (s: System, t: System, u: System)
    ensures Reachable(s) && 0 in s.db.migrations && s.db.migrations[0].status == MigrationValidating
    ensures Step(s, Cancel(0, false), t) && 0 in t.db.migrations && t.db.migrations[0].status == Cancelled
    ensures Step(t, StartMigrating(0, 0, Started), u) && 0 in u.db.migrations && u.db.migrations[0].status == Syncing
  {
    s := System(InMigration(MigrationValidating, true, map[]), Idle, {}, {});
    t := s.(db := InMigration(Cancelled, true, map[]));
    u := s.(db := InMigration(Syncing, true, map[0 := TARGET_RUN]));
    ReachableFirst(s);
    CancelledBetween(true);
    StartsAnyway();
  }

  lemma SwitchesAnyway()
    ensures var db := InMigration(Cancelled, false, map[]);
      && StartedAs(db, 0, 0, AppliedAtOnce, SwitchSource(db, 0)) && Switched(db, 0, SwitchSource(db, 0))
      && SwitchSource(db, 0).source.scope != db.source.scope && LiveRunsOf(db.runs, 0) == {}
  {
    assert MigrationCollections(InMigration(Cancelled, false, map[])) == {};
  }

  // With nothing to scan it even moves the source to the target.
  lemma CancelledSwitches() returns (s: System, t: System, u: System)
    ensures Reachable(s) && 0 in s.db.migrations && s.db.migrations[0].status == MigrationValidating
    ensures Step(s, Cancel(0, false), t) && 0 in t.db.migrations && t.db.migrations[0].status == Cancelled
    ensures Step(t, StartMigrating(0, 0, AppliedAtOnce), u) && Switched(t.db, 0, u.db) && u.db.source.scope != t.db.source.scope
  {
    s := System(InMigration(MigrationValidating, false, map[]), Idle, {}, {});
    t := s.(db := InMigration(Cancelled, false, map[]));
    u := s.(db := SwitchSource(t.db, 0));
    ReachableFirst(s);
    CancelledBetween(false);
    SwitchesAnyway();
  }

  // ---- A rule withdrawn before the switch ----------------------------------------------------

  const FOLDER: ExternalId := "s/a"
  const INSIDE: ExternalId := "s/a/x"

  const NO_RULES := Exclusions(false, {}, {})
  const FOLDER_RULE := Exclusions(false, {FOLDER}, {})

  // The items of a collection with an excluded folder, which a migration scans.
  function Hiding(status: MigrationStatus, filter: nat, rules: Exclusions, runs: map<RunId, Run>, observed: map<RunId, Corpus.Observed>): Db {
    Db(Source(SourceActive, 0, "old", "", "", 0),
       map[SHARE := Collection(filter, true, true, true, CollectionActive, false, rules)],
       map[SHARE := Project(ProjectActive, true, false)],
       map[0 := TARGET.(status := status, allowRisk := true)], runs, observed,
       map[FOLDER := Item(SHARE, None, false, "", ItemExcluded, None),
           INSIDE := Item(SHARE, Some(FOLDER), true, "1", ItemExcluded, None)],
       map[INSIDE := Document(SHARE, DocumentStatus.Ready, "1", "1", 0, ItemExcluded, false, false)],
       map[INSIDE := Index(None, true)], map[])
  }

  const FOLDER_SEEN: Scan := map[FOLDER := Observation(None, false, "", true, 0)]
  const FOLDER_PASS := Pass(0, SHARE, FOLDER_RULE, 0)

  function TargetRun(status: RunStatus): Run {
    TARGET_RUN.(status := status)
  }

  lemma TargetStarts()
    ensures StartedAs(Hiding(MigrationValidating, 0, FOLDER_RULE, map[], map[]), 0, 0, Started,
                      Hiding(Syncing, 0, FOLDER_RULE, map[0 := TargetRun(RunQueued)], map[]))
  {
    var db, after := Hiding(MigrationValidating, 0, FOLDER_RULE, map[], map[]),
                     Hiding(Syncing, 0, FOLDER_RULE, map[0 := TargetRun(RunQueued)], map[]);
    assert SHARE in MigrationCollections(db);
    assert 0 in after.runs && after.runs[0].collection == SHARE;
    assert HasNewRun(db, after.runs, SHARE);
  }

  lemma TargetQueued()
    ensures Reachable(System(Hiding(Syncing, 0, FOLDER_RULE, map[0 := TargetRun(RunQueued)], map[]), Idle, {}, {}))
  {
    var first := System(Hiding(MigrationValidating, 0, FOLDER_RULE, map[], map[]), Idle, {}, {});
    ReachableFirst(first);
    TargetStarts();
    ReachableNext(first, StartMigrating(0, 0, Started), first.(db := Hiding(Syncing, 0, FOLDER_RULE, map[0 := TargetRun(RunQueued)], map[])));
  }

  lemma TargetTaken()
    ensures Reachable(System(Hiding(Syncing, 0, FOLDER_RULE, map[0 := TargetRun(RunRunning)], map[]), Taken(0), {}, {}))
  {
    TargetQueued();
    OneRunTaken(System(Hiding(Syncing, 0, FOLDER_RULE, map[0 := TargetRun(RunQueued)], map[]), Idle, {}, {}), TargetRun(RunQueued));
  }

  lemma TargetSeen()
    ensures Reachable(System(Hiding(Syncing, 0, FOLDER_RULE, map[0 := TargetRun(RunRunning)], map[0 := Corpus.Observed(FOLDER_SEEN, {})]),
                             Scanning(FOLDER_PASS), {}, {}))
  {
    TargetTaken();
    var taken := System(Hiding(Syncing, 0, FOLDER_RULE, map[0 := TargetRun(RunRunning)], map[]), Taken(0), {}, {});
    var scanning := taken.(phase := Scanning(FOLDER_PASS));
    AfterLoad(taken, scanning);
    assert map[] + FOLDER_SEEN == FOLDER_SEEN;
    AfterObserve(scanning, FOLDER_SEEN,
                 scanning.(db := Hiding(Syncing, 0, FOLDER_RULE, map[0 := TargetRun(RunRunning)], map[0 := Corpus.Observed(FOLDER_SEEN, {})])));
  }

  lemma TargetScanned()
    ensures Reachable(System(Hiding(Syncing, 0, FOLDER_RULE, map[0 := TargetRun(RunScanned)], map[0 := Corpus.Observed(FOLDER_SEEN, {})]),
                             Deciding(0), {}, {0}))
  {
    TargetSeen();
    var seen := System(Hiding(Syncing, 0, FOLDER_RULE, map[0 := TargetRun(RunRunning)], map[0 := Corpus.Observed(FOLDER_SEEN, {})]),
                       Scanning(FOLDER_PASS), {}, {});
    var ended := seen.(phase := Scanned(FOLDER_PASS), ended := {0});
    AfterEnd(seen, ended);
    AfterMark(ended, System(Hiding(Syncing, 0, FOLDER_RULE, map[0 := TargetRun(RunScanned)], map[0 := Corpus.Observed(FOLDER_SEEN, {})]),
                            Deciding(0), {}, {0}));
  }

  // The rule is withdrawn, and the scanned run stays as it is.
  function Withdrawn(): Db {
    Hiding(Syncing, 1, NO_RULES, map[0 := TargetRun(RunScanned)], map[0 := Corpus.Observed(FOLDER_SEEN, {})])
  }

  lemma RuleTakenBack(before: Db)
    requires before == Hiding(Syncing, 0, FOLDER_RULE, map[0 := TargetRun(RunScanned)], map[0 := Corpus.Observed(FOLDER_SEEN, {})])
    ensures Administered(before, Withdrawn())
  {
  }

  lemma RuleWithdrawn()
    ensures Reachable(System(Withdrawn(), Deciding(0), {}, {0}))
  {
    TargetScanned();
    var before := Hiding(Syncing, 0, FOLDER_RULE, map[0 := TargetRun(RunScanned)], map[0 := Corpus.Observed(FOLDER_SEEN, {})]);
    RuleTakenBack(before);
    AfterAdministration(System(before, Deciding(0), {}, {0}), Withdrawn());
  }

  lemma Paths()
    ensures CollectionOf(FOLDER) == SHARE && ParentOf(FOLDER) == None
    ensures CollectionOf(INSIDE) == SHARE && ParentOf(INSIDE) == Some(FOLDER)
  {
    assert LastSlash(FOLDER, 2) == 1 && FOLDER[..1] == "s";
    assert LastSlash(INSIDE, 4) == 3 && INSIDE[..3] == FOLDER && FOLDER[1] == '/';
    assert FOLDER[1..] == "/a" && INSIDE[1..] == "/a/x" && INSIDE[..1] == "s";
  }

  lemma WithdrawnShaped()
    ensures ItemsShaped(Withdrawn().items)
  {
    Paths();
  }

  lemma FolderLinked()
    ensures LinkedScan(FOLDER_SEEN, SHARE)
  {
    Paths();
  }

  lemma WithdrawnUnobstructed()
    ensures !RunRaises(Withdrawn(), 0) && ApplyRun(Withdrawn(), 0).Returned? && !Obstructed(Withdrawn(), 0)
  {
    RaisesExactly(Withdrawn(), 0);
    assert forall r :: r in ScannedRuns(Withdrawn(), 0) ==> r == 0;
  }

  lemma WithdrawnApplicable()
    ensures Applicable(Withdrawn(), 0)
  {
    WithdrawnShaped();
    FolderLinked();
    WithdrawnUnobstructed();
  }

  lemma WithdrawnReady()
    ensures Migrations.Ready(Withdrawn(), 0) && ListsScanned(Withdrawn(), 0, [0])
  {
    assert 0 in LiveRunsOf(Withdrawn().runs, 0);
    assert 0 in ScannedRuns(Withdrawn(), 0);
  }

  // A migration with one scanned run is applied.
  lemma OneRunDecided(db: Db, m: MigrationId, r: RunId)
    requires Migrations.Ready(db, m) && db.migrations[m].allowRisk && ListsScanned(db, m, [r])
    requires !Obstructed(db, m) && r in db.runs && ApplyRun(db, r).Returned?
    ensures m in ApplyRun(db, r).value.migrations && Decided(db, m, Applied, [r], SwitchSource(ApplyRun(db, r).value, m))
  {
    ApplyRunKeeps(db, r);
    var next := ApplyRun(db, r).value;
    assert [r][1..] == [];
    assert ApplyRuns(next, []) == Returned(next);
    assert ApplyRuns(db, [r]) == Returned(next);
  }

  lemma HiddenInside()
    ensures Hidden(FOLDER_SEEN, FOLDER_SEEN.Keys, FOLDER_RULE, INSIDE) && !Hidden(FOLDER_SEEN, FOLDER_SEEN.Keys, NO_RULES, INSIDE)
  {
    Paths();
    assert Below(INSIDE, FOLDER);
  }

  lemma InsideLost()
    ensures Applicable(Withdrawn(), 0) && INSIDE in ApplyRun(Withdrawn(), 0).value.items
    ensures ApplyRun(Withdrawn(), 0).value.items[INSIDE].lifecycle == ItemMissing
  {
    WithdrawnApplicable();
    HiddenInside();
    UnseenAtApply(Withdrawn(), 0, INSIDE);
  }

  // The folder was excluded when the migration scanned it, so what is inside was not looked at; once the
  // rule has been withdrawn the switch makes it missing, where the rules of the scan excused it.
  lemma WithdrawnRuleLosesItem() returns (s: System, t: System, k: ExternalId)
    ensures Reachable(s) && Step(s, Decide(0, Applied, [0]), t)
    ensures k in s.db.items && s.db.items[k].lifecycle == ItemExcluded && k in t.db.items && t.db.items[k].lifecycle == ItemMissing
    ensures 0 in s.db.runs && Hidden(ScanOf(s.db, 0), ScanOf(s.db, 0).Keys, FOLDER_RULE, k)
  {
    s, k := System(Withdrawn(), Deciding(0), {}, {0}), INSIDE;
    RuleWithdrawn();
    InsideLost();
    HiddenInside();
    WithdrawnReady();
    WithdrawnUnobstructed();
    OneRunDecided(s.db, 0, 0);
    t := s.(db := SwitchSource(ApplyRun(s.db, 0).value, 0), phase := Idle);
    assert Decided(s.db, 0, Applied, [0], t.db);
  }

  // ---- An imported index that outlives its revision --------------------------------------------

  const REPORT_RULE := Exclusions(false, {}, {REPORT})
  const OUT_PASS := Pass(0, SHARE, REPORT_RULE, 0)
  const IN_PASS := Pass(1, SHARE, NO_RULES, 0)

  function RunAt(filter: nat, status: RunStatus): Run {
    RunWith(status).(filterRevision := filter)
  }

  function ReportItem(lifecycle: ItemState, run: RunId): Items {
    map[REPORT := Item(SHARE, None, true, "2", lifecycle, Some(run))]
  }

  // The library under a rule and at a filter revision.
  function Ruled(filter: nat, rules: Exclusions, runs: map<RunId, Run>, observed: map<RunId, Corpus.Observed>, items: Items,
                 document: Document): Db
  {
    Library(runs, observed, items, document, Index(None, true), map[])
      .(collections := map[SHARE := Collection(filter, true, true, true, CollectionActive, false, rules)])
  }

  function Out(revision: Revision): Document {
    ReportAt(revision, DocumentStatus.Ready, false).(lifecycle := ItemExcluded)
  }

  // A rule takes the imported document out, and a run is claimed under it.
  lemma RuledOut()
    ensures Reachable(System(Ruled(1, REPORT_RULE, map[], map[], map[], Out("1")), Idle, {}, {}))
  {
    var first := AtWork(ReportAt("1", DocumentStatus.Ready, true), map[], {});
    ReachableFirst(first);
    RuleAdded(first.db);
    AfterAdministration(first, Ruled(1, REPORT_RULE, map[], map[], map[], Out("1")));
  }

  lemma RuleAdded(db: Db)
    requires db == Library(map[], map[], map[], ReportAt("1", DocumentStatus.Ready, true), Index(None, true), map[])
    ensures Administered(db, Ruled(1, REPORT_RULE, map[], map[], map[], Out("1")))
  {
  }

  lemma QueuedUnderRule()
    ensures Reachable(System(Ruled(1, REPORT_RULE, map[0 := RunAt(1, RunQueued)], map[], map[], Out("1")), Idle, {}, {}))
  {
    RuledOut();
    QueuedFirst();
    AfterQueue(System(Ruled(1, REPORT_RULE, map[], map[], map[], Out("1")), Idle, {}, {}), SHARE, 0, Scheduled, 0);
  }

  lemma QueuedFirst()
    ensures QueueRun(Ruled(1, REPORT_RULE, map[], map[], map[], Out("1")), SHARE, 0, Scheduled, 0)
         == Ruled(1, REPORT_RULE, map[0 := RunAt(1, RunQueued)], map[], map[], Out("1"))
  {
    AboveNone();
    assert Ruled(1, REPORT_RULE, map[], map[], map[], Out("1")).runs.Keys == {};
  }

  lemma TakenUnderRule()
    ensures Reachable(System(Ruled(1, REPORT_RULE, map[0 := RunAt(1, RunRunning)], map[], map[], Out("1")), Taken(0), {}, {}))
  {
    QueuedUnderRule();
    OneRunTaken(System(Ruled(1, REPORT_RULE, map[0 := RunAt(1, RunQueued)], map[], map[], Out("1")), Idle, {}, {}), RunAt(1, RunQueued));
  }

  function SeenOut(done: set<ExternalId>, items: Items, document: Document): Db {
    Ruled(1, REPORT_RULE, map[0 := RunAt(1, RunRunning)], map[0 := Corpus.Observed(SEEN, done)], items, document)
  }

  // The run finds the document at revision 2, and its row moves while it is out.
  lemma SeenUnderRule()
    ensures Reachable(System(SeenOut({REPORT}, ReportItem(ItemExcluded, 0), Out("2")), Reconciling(OUT_PASS), {}, {0}))
  {
    TakenUnderRule();
    var taken := System(Ruled(1, REPORT_RULE, map[0 := RunAt(1, RunRunning)], map[], map[], Out("1")), Taken(0), {}, {});
    NewRevisionSeen(taken, 0, OUT_PASS);
    assert {} + {0} == {0};
    var seen := System(SeenOut({}, map[], Out("1")), Reconciling(OUT_PASS), {}, {0});
    assert seen == taken.(db := taken.db.(observed := taken.db.observed[0 := Corpus.Observed(SEEN, {})]), phase := Reconciling(OUT_PASS), ended := {0});
    MovedOut();
    NewRevisionReconciled(seen, 0, OUT_PASS, SeenOut({REPORT}, ReportItem(ItemExcluded, 0), Out("2")));
  }

  lemma MovedOut()
    ensures ReconcileOne(SeenOut({}, map[], Out("1")), OUT_PASS, 0, REPORT, SEEN[REPORT], false)
              .(observed := SeenOut({}, map[], Out("1")).observed[0 := Corpus.Observed(SEEN, {REPORT})])
         == SeenOut({REPORT}, ReportItem(ItemExcluded, 0), Out("2"))
  {
    assert map[0 := Corpus.Observed(SEEN, {})][0 := Corpus.Observed(SEEN, {REPORT})] == map[0 := Corpus.Observed(SEEN, {REPORT})];
    var placed := SeenOut({}, ReportItem(ItemExcluded, 0), Out("1"));
    assert DocumentAfter(placed, OUT_PASS, 0, REPORT, SEEN[REPORT], ItemExcluded) == Out("2");
    assert SupersedeJobs(map[], {REPORT}) == map[];
  }

  // The rule is withdrawn, and the run gives way to another.
  lemma RuleGone()
    ensures Reachable(System(WithoutRule(), Reconciling(OUT_PASS), {}, {0}))
  {
    SeenUnderRule();
    var seen := System(SeenOut({REPORT}, ReportItem(ItemExcluded, 0), Out("2")), Reconciling(OUT_PASS), {}, {0});
    RuleRemoved(seen.db);
    AfterAdministration(seen, WithoutRule());
  }

  lemma NoLongerCurrent()
    ensures BatchResult(WithoutRule(), OUT_PASS, 250) == Superseded
  {
    assert !Current(WithoutRule(), WithoutRule().runs[0]);
  }

  lemma RunReplaced()
    ensures Reachable(System(Replaced(), Idle, {}, {0}))
  {
    RuleGone();
    NoLongerCurrent();
    var left := System(WithoutRule(), GivingUp(0), {}, {0});
    AfterBatch(System(WithoutRule(), Reconciling(OUT_PASS), {}, {0}), 250, left);
    Superseding();
    ReachableNext(left, Action.GiveUp(0), System(Replaced(), Idle, {}, {0}));
  }

  function WithoutRule(): Db {
    Ruled(2, NO_RULES, map[0 := RunAt(1, RunRunning)], map[0 := Corpus.Observed(SEEN, {REPORT})], ReportItem(ItemExcluded, 0), Out("2"))
  }

  lemma RuleRemoved(db: Db)
    requires db == SeenOut({REPORT}, ReportItem(ItemExcluded, 0), Out("2"))
    ensures Administered(db, WithoutRule())
  {
  }

  lemma Superseding()
    ensures Supersede(WithoutRule(), 0, 0) == Replaced()
  {
    var db := WithoutRule();
    var withdrawn := db.(runs := db.runs[0 := SourceSteps.Withdrawn(db.runs[0])], observed := db.observed - {0});
    assert withdrawn == Ruled(2, NO_RULES, map[0 := RunAt(1, RunSuperseded)], map[], ReportItem(ItemExcluded, 0), Out("2"));
    AboveZero();
    assert withdrawn.runs.Keys == {0};
  }

  function SeenAgain(observed: map<RunId, Corpus.Observed>): Db {
    Ruled(2, NO_RULES, map[0 := RunAt(1, RunSuperseded), 1 := RunAt(2, RunRunning)], observed, ReportItem(ItemExcluded, 0), Out("2"))
  }

  function Replaced(): Db {
    Ruled(2, NO_RULES, map[0 := RunAt(1, RunSuperseded), 1 := RunAt(2, RunQueued)], map[], ReportItem(ItemExcluded, 0), Out("2"))
  }

  lemma ReplacedClaimable()
    ensures Stale(Replaced()) == {} && OnePending(Replaced().runs) && 1 in Replaced().runs
    ensures Replaced().runs[1].status == RunQueued && Claimable(Replaced(), Replaced().runs[1])
    ensures SeenAgain(map[]) == Replaced().(runs := Replaced().runs[1 := Replaced().runs[1].(status := RunRunning, startedAt := 0)])
  {
    assert Replaced().runs[1 := RunAt(2, RunRunning)] == SeenAgain(map[]).runs;
  }

  lemma TakenAgain()
    ensures Reachable(System(SeenAgain(map[]), Taken(1), {}, {0}))
  {
    RunReplaced();
    ReplacedClaimable();
    QueuedRunTaken(System(Replaced(), Idle, {}, {0}), 1, SeenAgain(map[]));
  }

  lemma SeenWithoutRule()
    ensures Reachable(System(SeenAgain(map[1 := Corpus.Observed(SEEN, {})]), Reconciling(IN_PASS), {}, {0, 1}))
  {
    TakenAgain();
    NewRevisionSeen(System(SeenAgain(map[]), Taken(1), {}, {0}), 1, IN_PASS);
    assert {0} + {1} == {0, 1};
    assert map[][1 := Corpus.Observed(SEEN, {})] == map[1 := Corpus.Observed(SEEN, {})];
  }

  lemma BackReached()
    ensures Reachable(System(BackAgain(), Reconciling(IN_PASS), {}, {0, 1}))
  {
    SeenWithoutRule();
    MovedIn();
    NewRevisionReconciled(System(SeenAgain(map[1 := Corpus.Observed(SEEN, {})]), Reconciling(IN_PASS), {}, {0, 1}), 1, IN_PASS, BackAgain());
  }

  function BackAgain(): Db {
    Ruled(2, NO_RULES, map[0 := RunAt(1, RunSuperseded), 1 := RunAt(2, RunRunning)], map[1 := Corpus.Observed(SEEN, {REPORT})],
          ReportItem(ItemActive, 1), ReportAt("2", DocumentStatus.Ready, true))
  }

  lemma MovedIn()
    ensures ReconcileOne(SeenAgain(map[1 := Corpus.Observed(SEEN, {})]), IN_PASS, 0, REPORT, SEEN[REPORT], false)
              .(observed := SeenAgain(map[1 := Corpus.Observed(SEEN, {})]).observed[1 := Corpus.Observed(SEEN, {REPORT})]) == BackAgain()
  {
    assert map[1 := Corpus.Observed(SEEN, {})][1 := Corpus.Observed(SEEN, {REPORT})] == map[1 := Corpus.Observed(SEEN, {REPORT})];
    var placed := SeenAgain(map[1 := Corpus.Observed(SEEN, {})]).(items := ReportItem(ItemActive, 1));
    assert IndexMatches(placed, REPORT, SEEN[REPORT]);
    assert DocumentAfter(placed, IN_PASS, 0, REPORT, SEEN[REPORT], ItemActive) == ReportAt("2", DocumentStatus.Ready, true);
  }

  // An imported document at revision 1 can be retrieved; it is excluded, moves to revision 2 while it is
  // out, and can be retrieved at revision 2 with the index it was imported with.
  lemma ImportedIndexGoesStale() returns (s: System, t: System)
    ensures Initial(s) && Reachable(s) && Visible(s.db, REPORT) && s.db.documents[REPORT].revision == "1"
    ensures Reachable(t) && Visible(t.db, REPORT) && t.db.documents[REPORT].revision == "2"
    ensures CurrentIndex(s.db, REPORT) == Some(Index(None, true)) && t.db.indexes == s.db.indexes
  {
    s := AtWork(ReportAt("1", DocumentStatus.Ready, true), map[], {});
    ReachableFirst(s);
    BackReached();
    t := System(BackAgain(), Reconciling(IN_PASS), {}, {0, 1});
  }

  // ---- A migration that keeps an index of another revision ---------------------------------------

  function Indexing1(document: Document): Db {
    Library(map[], map[], map[], document, Index(Some("1"), true), map[0 := JobAt("1", JobCompleted, 1)])
  }

  lemma PublishedOnce()
    ensures Reachable(System(Indexing1(ReportAt("1", DocumentStatus.Ready, true)), Idle, {SLOW}, {}))
  {
    SlowProcessStarts();
    var begun := AtWork(ReportAt("1", Indexing, true), map[0 := JobAt("1", JobRunning, 1)], {SLOW});
    AfterPublish(begun, SLOW);
    PublishedFirst();
  }

  lemma PublishedFirst()
    ensures Published(AtWork(ReportAt("1", Indexing, true), map[0 := JobAt("1", JobRunning, 1)], {SLOW}).db, SLOW)
         == Indexing1(ReportAt("1", DocumentStatus.Ready, true))
  {
  }

  function Excluding(): Db {
    Indexing1(Out("1")).(collections := map[SHARE := Collection(1, true, true, true, CollectionActive, false, REPORT_RULE)])
  }

  lemma RuleForReport(db: Db)
    requires db == Indexing1(ReportAt("1", DocumentStatus.Ready, true))
    ensures Administered(db, Excluding())
  {
  }

  // The rule withdrawn again, and a migration asked for.
  function Relocating(status: MigrationStatus, runs: map<RunId, Run>, observed: map<RunId, Corpus.Observed>): Db {
    Indexing1(Out("1")).(collections := map[SHARE := Collection(2, true, true, true, CollectionActive, false, NO_RULES)],
                         migrations := map[0 := TARGET.(status := status, allowRisk := true)], runs := runs, observed := observed)
  }

  lemma MigrationAskedFor(db: Db)
    requires db == Excluding()
    ensures Administered(db, Relocating(MigrationValidating, map[], map[]))
  {
  }

  lemma MigrationAsked()
    ensures Reachable(System(Relocating(MigrationValidating, map[], map[]), Idle, {SLOW}, {}))
  {
    PublishedOnce();
    var published := System(Indexing1(ReportAt("1", DocumentStatus.Ready, true)), Idle, {SLOW}, {});
    RuleForReport(published.db);
    AfterAdministration(published, Excluding());
    MigrationAskedFor(Excluding());
    AfterAdministration(published.(db := Excluding()), Relocating(MigrationValidating, map[], map[]));
  }

  function MovingRun(status: RunStatus): Run {
    TARGET_RUN.(filterRevision := 2, status := status)
  }

  lemma RelocationStarts()
    ensures StartedAs(Relocating(MigrationValidating, map[], map[]), 0, 0, Started, Relocating(Syncing, map[0 := MovingRun(RunQueued)], map[]))
  {
    var db, after := Relocating(MigrationValidating, map[], map[]), Relocating(Syncing, map[0 := MovingRun(RunQueued)], map[]);
    assert SHARE in MigrationCollections(db);
    assert 0 in after.runs && after.runs[0].collection == SHARE;
    assert HasNewRun(db, after.runs, SHARE);
  }

  lemma RelocationTaken()
    ensures Reachable(System(Relocating(Syncing, map[0 := MovingRun(RunRunning)], map[]), Taken(0), {SLOW}, {}))
  {
    MigrationAsked();
    RelocationStarts();
    var asked := System(Relocating(MigrationValidating, map[], map[]), Idle, {SLOW}, {});
    var started := asked.(db := Relocating(Syncing, map[0 := MovingRun(RunQueued)], map[]));
    ReachableNext(asked, StartMigrating(0, 0, Started), started);
    OneRunTaken(started, MovingRun(RunQueued));
  }

  // The migration's scan finds the document at revision 2.
  function Relocated(): Db {
    Relocating(Syncing, map[0 := MovingRun(RunScanned)], map[0 := Corpus.Observed(SEEN, {})])
  }

  lemma RelocationScanned()
    ensures Reachable(System(Relocated(), Deciding(0), {SLOW}, {0}))
  {
    RelocationTaken();
    var taken := System(Relocating(Syncing, map[0 := MovingRun(RunRunning)], map[]), Taken(0), {SLOW}, {});
    NewRevisionSeen(taken, 0, PASS);
    assert {} + {0} == {0};
    var seen := System(Relocating(Syncing, map[0 := MovingRun(RunRunning)], map[0 := Corpus.Observed(SEEN, {})]), Scanned(PASS), {SLOW}, {0});
    assert seen.db == taken.db.(observed := taken.db.observed[0 := Corpus.Observed(SEEN, {})]);
    assert Relocated() == seen.db.(runs := MarkedScanned(seen.db.runs, 0));
    AfterMark(seen, System(Relocated(), Deciding(0), {SLOW}, {0}));
  }

  lemma RelocatedUnobstructed()
    ensures ApplyRun(Relocated(), 0).Returned? && !Obstructed(Relocated(), 0)
  {
    RaisesExactly(Relocated(), 0);
    assert forall r :: r in ScannedRuns(Relocated(), 0) ==> r == 0;
  }

  lemma RelocatedReady()
    ensures Migrations.Ready(Relocated(), 0) && ListsScanned(Relocated(), 0, [0])
  {
    assert 0 in LiveRunsOf(Relocated().runs, 0);
    assert 0 in ScannedRuns(Relocated(), 0);
  }

  lemma RelocatedHeld()
    ensures Held(Relocated(), REPORT, "1")
  {
    assert ActiveJobs(Relocated().jobs, REPORT) == {};
  }

  lemma RelocatedReadmits()
    ensures ApplyRun(Relocated(), 0).Returned? && RunsReadmit(Relocated(), [0], 0, REPORT)
  {
    RelocatedUnobstructed();
    RelocatedRun();
    OneReadmitted(Relocated(), 0, REPORT);
  }

  lemma RelocatedRun()
    ensures RunReadmits(Relocated(), 0, REPORT)
  {
    assert Classify(REPORT, SEEN[REPORT], PassOf(Relocated(), 0, RulesOf(Relocated(), 0))) == ItemActive;
  }

  lemma OneReadmitted(db: Db, r: RunId, id: ExternalId)
    requires RunReadmits(db, r, id) && ApplyRun(db, r).Returned?
    ensures RunsReadmit(db, [r], r, id)
  {
    assert [r][1..] == [];
    assert AllPassBy(ApplyRun(db, r).value, [], id);
  }

  lemma RelocationDecided()
    ensures 0 in ApplyRun(Relocated(), 0).value.migrations
    ensures Decided(Relocated(), 0, Applied, [0], SwitchSource(ApplyRun(Relocated(), 0).value, 0))
  {
    RelocatedReady();
    RelocatedUnobstructed();
    OneRunDecided(Relocated(), 0, 0);
  }

  lemma RelocatedBack(s: System)
    requires s.db == Relocated()
    ensures MigrationBack(s, 0, REPORT, "1") == Return(SHARE, 1, "2", Uploaded, true)
  {
  }

  // A migration lets the document back in at revision 2 with its index of revision 1 still current,
  // where a batch would have retired it.
  lemma MigrationKeepsOldIndex() returns (s: System, t: System)
    ensures Reachable(s) && Step(s, Decide(0, Applied, [0]), t) && Held(s.db, REPORT, "1")
    ensures CurrentIndex(t.db, REPORT) == Some(Index(Some("1"), true))
    ensures REPORT in t.db.documents && t.db.documents[REPORT] == Document(SHARE, Uploaded, "2", "2", 1, ItemActive, false, false)
    ensures !Visible(t.db, REPORT) && |ActiveJobs(t.db.jobs, REPORT)| == 1
  {
    s := System(Relocated(), Deciding(0), {SLOW}, {0});
    RelocationScanned();
    RelocatedHeld();
    RelocationDecided();
    t := s.(db := SwitchSource(ApplyRun(s.db, 0).value, 0), phase := Idle);
    BackAtRevision2(s, t);
  }

  lemma BackAtRevision2(s: System, t: System)
    requires s.db == Relocated() && Step(s, Decide(0, Applied, [0]), t) && Held(s.db, REPORT, "1")
    ensures Readmitted(t.db, REPORT, Return(SHARE, 1, "2", Uploaded, true), "1") && !Visible(t.db, REPORT)
  {
    RelocatedReadmits();
    DecisionReadmits(s, Decide(0, Applied, [0]), t, 0, REPORT, "1");
    RelocatedBack(s);
    RetrievedAgain(t.db, REPORT, Return(SHARE, 1, "2", Uploaded, true), "1");
  }

  // ---- A follow-up that is lost --------------------------------------------------------------

  const QUIET := System(Library(map[], map[], map[], ReportAt("1", DocumentStatus.Ready, true), Index(None, true), map[]), Idle, {}, {})

  // The rules change under a running run, which is asked to be followed up, and so does the configuration.
  function Reconfigured(runs: map<RunId, Run>): Db {
    QUIET.db.(source := QUIET.db.source.(configRevision := 1),
              collections := map[SHARE := QUIET.db.collections[SHARE].(filterRevision := 1)], runs := runs)
  }

  lemma ReconfiguredUnderRun()
    ensures Administered(QUIET.db.(runs := map[0 := RunWith(RunRunning)]), Reconfigured(map[0 := RunWith(RunRunning).(followUp := true)]))
  {
  }

  lemma GivingUpReached()
    ensures Reachable(QUIET.(db := Reconfigured(map[0 := RunWith(RunRunning).(followUp := true)]), phase := GivingUp(0)))
  {
    ReachableFirst(QUIET);
    var taken := RunTaken(QUIET);
    ReconfiguredUnderRun();
    var changed := taken.(db := Reconfigured(map[0 := RunWith(RunRunning).(followUp := true)]));
    AfterAdministration(taken, changed.db);
    AfterLoad(changed, changed.(phase := GivingUp(0)));
  }

  // The run gives way, the collection could be synchronized, and no run follows.
  lemma FollowUpLost() returns (s: System, t: System)
    ensures Reachable(s) && s.phase == GivingUp(0) && 0 in s.db.runs && s.db.runs[0].followUp && s.db.runs[0].collection == SHARE
    ensures Step(s, Action.GiveUp(0), t) && Eligible(t.db, SHARE) && !LiveMigration(t.db) && !HasPendingRun(t.db.runs, SHARE)
  {
    s := QUIET.(db := Reconfigured(map[0 := RunWith(RunRunning).(followUp := true)]), phase := GivingUp(0));
    t := s.(db := Supersede(s.db, 0, 0), phase := Idle);
    GivingUpReached();
    NotReplaced(s.db);
  }

  lemma NotReplaced(db: Db)
    requires db == Reconfigured(map[0 := RunWith(RunRunning).(followUp := true)])
    ensures var after := Supersede(db, 0, 0); Eligible(after, SHARE) && !LiveMigration(after) && !HasPendingRun(after.runs, SHARE)
  {
  }
}
