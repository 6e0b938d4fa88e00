/**
 Completion over whole runs: whatever earlier runs did, failed, were superseded or stopped midway, the
 items of a completed run are the closed form over its own scan.
 */
module Completion {

  import opened Outcome
  import opened Corpus
  import opened Reconciliation
  import opened SourceSteps
  import opened SourceWorker
  import opened SyncRuns
  import opened Migrations
  import opened IndexSteps
  import opened Interleaving
  import opened Publication
  import opened History

  // ---- Shape through reconciliation ------------------------------------------------------------

  // The reconciled part of a scan: parents first, and all of it among the items.
  ghost predicate DoneIn(items: Items, seen: Scan, done: set<ExternalId>) {
    done <= seen.Keys && done <= items.Keys && ParentsClosed(done)
  }

  lemma PlacedKeepsShape(items: Items, seen: Scan, id: ExternalId, pass: Pass)
    requires ItemsShaped(items) && LinkedScan(seen, pass.collection) && id in seen
    requires ParentOf(id).Some? ==> ParentOf(id).value in items
    ensures ItemsShaped(ReconcileItem(items, id, seen[id], pass))
    ensures ReconcileItem(items, id, seen[id], pass).Keys == items.Keys + {id}
  {
    PlacedShaped(items, id, ItemOf(items, id, seen[id], pass));
  }

  lemma FirstParentDone(seen: Scan, c: CollectionId, pending: set<ExternalId>, m: ExternalId)
    requires LinkedScan(seen, c) && pending <= seen.Keys && IsFirst(seen, pending, m)
    ensures ParentOf(m).Some? ==> ParentOf(m).value in seen.Keys - pending
  {
    if ParentOf(m).Some? {
      var parent := ParentOf(m).value;
      PrefixLess(parent, m);
      LessIrreflexive(m);
      assert Before(seen, parent, m);
      if Before(seen, m, parent) { BeforeTransitive(seen, m, parent, m); }
    }
  }

  lemma FirstKeepsShape(items: Items, seen: Scan, done: set<ExternalId>, m: ExternalId, pass: Pass)
    requires ItemsShaped(items) && LinkedScan(seen, pass.collection) && DoneIn(items, seen, done)
    requires IsFirst(seen, seen.Keys - done, m)
    ensures var after := ReconcileItem(items, m, seen[m], pass);
      ItemsShaped(after) && DoneIn(after, seen, done + {m})
  {
    FirstParentDone(seen, pass.collection, seen.Keys - done, m);
    PlacedKeepsShape(items, seen, m, pass);
  }

  lemma HeadOfOrder(seen: Scan, pending: set<ExternalId>, order: seq<ExternalId>)
    requires pending <= seen.Keys && order != [] && order <= InOrder(seen, pending)
    ensures IsFirst(seen, pending, order[0]) && order[1..] <= InOrder(seen, pending - {order[0]})
  {
    assert order[0] in InOrder(seen, pending);
    var m := FirstExists(seen, pending);
    OrderStep(seen, pending, m);
    TailOfPrefix(order, m, InOrder(seen, pending - {m}));
  }

  lemma TailOfPrefix(order: seq<ExternalId>, m: ExternalId, rest: seq<ExternalId>)
    requires order != [] && order <= [m] + rest
    ensures order[0] == m && order[1..] <= rest
  {
    assert ([m] + rest)[1..|order|] == rest[..|order| - 1];
  }

  lemma HeadMembers(done: set<ExternalId>, order: seq<ExternalId>)
    requires order != []
    ensures done + Members(order) == (done + {order[0]}) + Members(order[1..])
  {
    assert order == [order[0]] + order[1..];
    MembersPrepend(order[0], order[1..]);
  }

  // `order` comes next once `done` is reconciled.
  ghost predicate Upcoming(seen: Scan, done: set<ExternalId>, order: seq<ExternalId>) {
    order <= InOrder(seen, seen.Keys - done)
  }

  lemma UpcomingNext(seen: Scan, done: set<ExternalId>, order: seq<ExternalId>)
    requires Upcoming(seen, done, order) && order != []
    ensures IsFirst(seen, seen.Keys - done, order[0]) && Upcoming(seen, done + {order[0]}, order[1..])
  {
    HeadOfOrder(seen, seen.Keys - done, order);
    assert seen.Keys - done - {order[0]} == seen.Keys - (done + {order[0]});
  }

  // Where reconciliation stands: the items are path-shaped, and `done` is reconciled.
  ghost predicate Midway(items: Items, seen: Scan, done: set<ExternalId>, order: seq<ExternalId>) {
    ItemsShaped(items) && DoneIn(items, seen, done) && Upcoming(seen, done, order) && forall id :: id in order ==> id in seen
  }

  lemma MidwayNext(items: Items, seen: Scan, done: set<ExternalId>, order: seq<ExternalId>, pass: Pass)
    requires LinkedScan(seen, pass.collection) && Midway(items, seen, done, order) && order != []
    ensures Midway(ReconcileItem(items, order[0], seen[order[0]], pass), seen, done + {order[0]}, order[1..])
  {
    UpcomingNext(seen, done, order);
    FirstKeepsShape(items, seen, done, order[0], pass);
  }

  // Reconciling the next ids in order keeps the items path-shaped.
  lemma {:induction false} OrderKeepsShape(items: Items, seen: Scan, done: set<ExternalId>, order: seq<ExternalId>, pass: Pass)
    requires LinkedScan(seen, pass.collection) && Midway(items, seen, done, order)
    ensures ItemsShaped(ReconcileItems(items, seen, order, pass))
    ensures DoneIn(ReconcileItems(items, seen, order, pass), seen, done + Members(order))
    decreases |order|
  {
    if order == [] {
      assert done + Members(order) == done;
    } else {
      MidwayNext(items, seen, done, order, pass);
      HeadMembers(done, order);
      OrderKeepsShape(ReconcileItem(items, order[0], seen[order[0]], pass), seen, done + {order[0]}, order[1..], pass);
    }
  }

  // Only the run that reconciles stamps the items.
  ghost predicate StampedBy(items: Items, after: Items, r: RunId) {
    forall k :: k in after ==> after[k].lastSeen == Some(r) || (k in items && after[k].lastSeen == items[k].lastSeen)
  }

  lemma {:induction false} ReconcilingStamps(items: Items, seen: Scan, order: seq<ExternalId>, pass: Pass)
    requires forall id :: id in order ==> id in seen
    ensures StampedBy(items, ReconcileItems(items, seen, order, pass), pass.run)
    decreases |order|
  {
    if order != [] {
      var next := ReconcileItem(items, order[0], seen[order[0]], pass);
      StampsOne(items, order[0], seen[order[0]], pass);
      ReconcilingStamps(next, seen, order[1..], pass);
    }
  }

  lemma StampsOne(items: Items, id: ExternalId, o: Observation, pass: Pass)
    ensures StampedBy(items, ReconcileItem(items, id, o, pass), pass.run)
  {
  }

  // ---- The invariant -----------------------------------------------------------------------

  // The items are path-shaped and stamped only by runs whose scan has ended.
  ghost predicate SoundItems(items: Items, ended: set<RunId>) {
    && ItemsShaped(items)
    && forall k :: k in items && items[k].lastSeen.Some? ==> items[k].lastSeen.value in ended
  }

  // Nothing of a run is reconciled before its scan has ended, and what has ended is path-shaped.
  ghost predicate SoundScans(db: Db, ended: set<RunId>) {
    forall r :: r in db.observed ==>
      && (r !in ended ==> db.observed[r].reconciled == {})
      && (r in ended ==> r in db.runs && LinkedScan(db.observed[r].seen, db.runs[r].collection))
  }

  // A run whose scan has ended is not queued again.
  ghost predicate EndedRuns(runs: map<RunId, Run>, ended: set<RunId>) {
    forall r :: r in ended ==> r in runs && runs[r].status != RunQueued
  }

  ghost predicate SoundPhase(s: System) {
    && (s.phase.Taken? || s.phase.Scanning? ==>
          RunOf(s.phase) in s.db.runs && RunOf(s.phase) !in s.ended && s.db.runs[RunOf(s.phase)].status != RunQueued)
    && (s.phase.Scanning? || s.phase.Scanned? || s.phase.Reconciling? || s.phase.Closing? ==>
          s.phase.pass.run in s.db.runs && s.phase.pass.collection == s.db.runs[s.phase.pass.run].collection)
    && (s.phase.Reconciling? ==> DoneIn(s.db.items, ScanOf(s.db, s.phase.pass.run), DoneOf(s.db, s.phase.pass.run)))
    && (s.phase.Scanned? || s.phase.Reconciling? || s.phase.Closing? ==> s.phase.pass.run in s.ended)
  }

  ghost predicate Sound(s: System) {
    SoundItems(s.db.items, s.ended) && SoundScans(s.db, s.ended) && EndedRuns(s.db.runs, s.ended) && SoundPhase(s)
  }

  // ---- Runs stay what they are ---------------------------------------------------------------

  // Runs are never dropped, moved or queued again.
  ghost predicate Steady(runs: map<RunId, Run>, after: map<RunId, Run>) {
    && runs.Keys <= after.Keys
    && forall r :: r in runs ==> after[r].collection == runs[r].collection && (after[r].status == RunQueued ==> runs[r].status == RunQueued)
  }

  lemma SteadyAcross(a: map<RunId, Run>, b: map<RunId, Run>, c: map<RunId, Run>)
    requires Steady(a, b) && Steady(b, c)
    ensures Steady(a, c)
  {
  }

  lemma SupersedeSteady(db: Db, r: RunId, now: nat)
    requires r in db.runs
    ensures Steady(db.runs, Supersede(db, r, now).runs)
  {
    var run := db.runs[r];
    var withdrawn := db.(runs := db.runs[r := SourceSteps.Withdrawn(run)], observed := db.observed - {r});
    QueueRunKeeps(withdrawn, run.collection, db.source.configRevision, run.trigger, now);
  }

  lemma CompleteSteady(db: Db, r: RunId, now: nat)
    requires r in db.runs
    ensures Steady(db.runs, CompleteRun(db, r, now).runs)
  {
    var run := db.runs[r];
    SupersedeSteady(db, r, now);
    if Current(db, run) {
      var closed := CloseScan(db, PassOf(db, r, db.collections[run.collection].rules));
      var reopened := closed.(collections := db.collections[run.collection := db.collections[run.collection].(lifecycle := CollectionActive)]);
      QueueRunKeeps(reopened, run.collection, run.configRevision, Manual, now);
    }
  }

  lemma SweptSteady(db: Db, swept: set<RunId>, after: Db, now: nat)
    requires Swept(db, swept, after, now)
    ensures Steady(db.runs, after.runs)
  {
    assert forall r :: r in db.runs ==> SweptRun(db, swept, after, r);
  }

  lemma TakesSteady(s: System, swept: Db, r: RunId, now: nat, t: System)
    requires TakesRun(s, swept, r, now, t)
    ensures Steady(swept.runs, t.db.runs) && t.db.runs[r].status == RunRunning
  {
  }

  lemma ClaimSteady(s: System, now: nat, t: System)
    requires ClaimStep(s, now, t) && s.phase.Idle? && EndedRuns(s.db.runs, s.ended)
    ensures Steady(s.db.runs, t.db.runs)
    ensures t.phase.Taken? ==> t.phase.run in t.db.runs && t.db.runs[t.phase.run].status == RunRunning && t.phase.run !in s.ended
    ensures t.phase.Idle? || t.phase.Taken?
  {
    var swept: Db :| Swept(s.db, Stale(s.db), swept, now) && TakesOne(s, swept, now, t);
    SweptSteady(s.db, Stale(s.db), swept, now);
    if t != s.(db := swept) {
      TakesSteady(s, swept, t.phase.run, now, t);
      SteadyAcross(s.db.runs, swept.runs, t.db.runs);
    }
  }

  lemma FailSteady(db: Db, r: RunId, denied: bool)
    requires r in db.runs && (db.runs[r].migration.Some? ==> db.runs[r].migration.value in db.migrations)
    ensures Steady(db.runs, FailRun(db, r, denied).runs)
  {
    var run := db.runs[r];
    var failed := db.(runs := db.runs[r := run.(status := RunFailed)]);
    assert Steady(db.runs, failed.runs);
    if run.migration.Some? { CancelSteady(failed, run.migration.value, true); }
  }

  lemma ApplyRunSteady(db: Db, r: RunId)
    requires r in db.runs && ApplyRun(db, r).Returned?
    ensures Steady(db.runs, ApplyRun(db, r).value.runs)
  {
    ApplyRunKeeps(db, r);
    var run := db.runs[r];
    if run.collection in db.collections {
      assert ApplyRun(db, r).value.runs == db.runs[r := run.(status := RunCompleted)];
    }
  }

  lemma {:induction false} ApplyRunsSteady(db: Db, runs: seq<RunId>)
    requires ApplyRuns(db, runs).Returned?
    ensures Steady(db.runs, ApplyRuns(db, runs).value.runs)
    decreases |runs|
  {
    if runs != [] {
      ApplyRunSteady(db, runs[0]);
      ApplyRunsSteady(ApplyRun(db, runs[0]).value, runs[1..]);
      SteadyAcross(db.runs, ApplyRun(db, runs[0]).value.runs, ApplyRuns(db, runs).value.runs);
    }
  }

  lemma DecidedSteady(db: Db, m: MigrationId, decision: Decision, order: seq<RunId>, after: Db)
    requires Decided(db, m, decision, order, after)
    ensures Steady(db.runs, after.runs)
  {
    if decision == Applied { ApplyRunsSteady(db, order); }
  }

  lemma AdministeredSteady(db: Db, after: Db)
    requires AdministeredRuns(db, after)
    ensures Steady(db.runs, after.runs)
  {
    assert forall r :: r in db.runs ==> AdministeredRun(db.runs[r], after.runs[r]);
  }

  lemma BatchSteady(s: System, size: nat, t: System)
    requires BatchStep(s, size, t)
    ensures Steady(s.db.runs, t.db.runs)
  {
    BatchFrame(s.db, s.phase.pass, size);
  }

  lemma SourceSteady(s: System, a: Action, t: System)
    requires Step(s, a, t) && (Checks(a) || a.Queue? || a.Observe? || a.MarkScanned? || a.Restart?)
    ensures Steady(s.db.runs, t.db.runs)
  {
    if Checks(a) {
      ChecksOnly(s, a, t);
    } else if a.Queue? {
      QueueRunKeeps(s.db, a.collection, a.config, a.trigger, a.now);
    }
  }

  lemma ReconcilingSteady(s: System, a: Action, t: System)
    requires Step(s, a, t) && (a.Batch? || a.Close? || a.GiveUp? || a.Fail?)
    ensures Steady(s.db.runs, t.db.runs)
  {
    match a
    case Batch(size) => BatchSteady(s, size, t);
    case Close(now) => CompleteSteady(s.db, s.phase.pass.run, now);
    case GiveUp(now) => SupersedeSteady(s.db, s.phase.run, now);
    case Fail => FailSteady(s.db, s.phase.run, s.phase.denied);
  }

  lemma CancelSteady(db: Db, m: MigrationId, failed: bool)
    requires m in db.migrations
    ensures Steady(db.runs, CancelMigration(db, m, failed).runs)
  {
  }

  lemma StartedSteady(db: Db, m: MigrationId, now: nat, start: Start, after: Db)
    requires m in db.migrations && StartedAs(db, m, now, start, after)
    ensures Steady(db.runs, after.runs)
  {
    match start
    case Outdated => CancelSteady(db, m, false);
    case Declined =>
    case Started =>
    case AppliedAtOnce => SwitchedTables(db, m);
  }

  lemma MigrationSteady(s: System, a: Action, t: System)
    requires Step(s, a, t) && (a.StartMigrating? || a.Decide? || a.Cancel? || a.Administer?)
    ensures Steady(s.db.runs, t.db.runs)
  {
    match a
    case StartMigrating(m, now, start) => StartedSteady(s.db, m, now, start, t.db);
    case Decide(m, decision, order) => DecidedSteady(s.db, m, decision, order, t.db);
    case Cancel(m, failed) => CancelSteady(s.db, m, failed);
    case Administer => AdministeredSteady(s.db, t.db);
  }

  lemma StepSteady(s: System, a: Action, t: System)
    requires Step(s, a, t) && !a.Claim?
    ensures Steady(s.db.runs, t.db.runs)
  {
    if IndexAction(a) {
      IndexStepSide(s, a, t);
    } else if a.StartMigrating? || a.Decide? || a.Cancel? || a.Administer? {
      MigrationSteady(s, a, t);
    } else if a.Batch? || a.Close? || a.GiveUp? || a.Fail? {
      ReconcilingSteady(s, a, t);
    } else {
      SourceSteady(s, a, t);
    }
  }

  // ---- Items and scans ---------------------------------------------------------------------

  ghost predicate OnlyLifecycles(items: Items, after: Items) {
    after.Keys == items.Keys && forall k :: k in items ==> after[k] == items[k].(lifecycle := after[k].lifecycle)
  }

  lemma SupersedeItems(db: Db, r: RunId, now: nat)
    requires r in db.runs
    ensures Supersede(db, r, now).items == db.items
  {
    var run := db.runs[r];
    var withdrawn := db.(runs := db.runs[r := SourceSteps.Withdrawn(run)], observed := db.observed - {r});
    QueueRunKeeps(withdrawn, run.collection, db.source.configRevision, run.trigger, now);
  }

  lemma ClaimItems(s: System, now: nat, t: System)
    requires ClaimStep(s, now, t)
    ensures t.db.items == s.db.items && t.ended == s.ended
  {
    var swept: Db :| Swept(s.db, Stale(s.db), swept, now) && TakesOne(s, swept, now, t);
  }

  lemma FailItems(db: Db, r: RunId, denied: bool)
    requires r in db.runs && (db.runs[r].migration.Some? ==> db.runs[r].migration.value in db.migrations)
    ensures FailRun(db, r, denied).items == db.items
  {
  }

  lemma FailureItems(db: Db, j: JobId, failure: Failure)
    ensures OnlyLifecycles(db.items, AfterFailure(db, j, failure).items)
  {
  }

  lemma AdministeredItems(db: Db, after: Db)
    requires Administered(db, after)
    ensures OnlyLifecycles(db.items, after.items)
  {
    assert forall k :: k in db.items ==> AdministeredItem(db.items[k], after.items[k]);
  }

  lemma DecidedItems(db: Db, m: MigrationId, decision: Decision, order: seq<RunId>, after: Db)
    requires Decided(db, m, decision, order, after) && decision != Applied
    ensures after.items == db.items
  {
    DecisionAllOrNothing(db, m, decision, order, after);
  }

  // The actions that neither scan, reconcile nor complete.
  ghost predicate Aside(a: Action) {
    !a.Observe? && !a.EndScan? && !a.Batch? && !a.Close? && !(a.Decide? && a.decision == Applied)
  }

  lemma SourceAsideItems(s: System, a: Action, t: System)
    requires Step(s, a, t) && Aside(a) && QuietAction(a)
    ensures t.db.items == s.db.items && t.ended == s.ended
  {
    if Checks(a) {
      ChecksOnly(s, a, t);
    } else {
      match a
      case Queue(c, config, trigger, now) => QueueRunKeeps(s.db, c, config, trigger, now);
      case Claim(now) => ClaimItems(s, now, t);
      case MarkScanned =>
      case GiveUp(now) => SupersedeItems(s.db, s.phase.run, now);
      case Fail => FailItems(s.db, s.phase.run, s.phase.denied);
      case Restart =>
    }
  }

  lemma StartedItems(db: Db, m: MigrationId, now: nat, start: Start, after: Db)
    requires m in db.migrations && StartedAs(db, m, now, start, after)
    ensures after.items == db.items
  {
    match start
    case Outdated =>
    case Declined =>
    case Started =>
    case AppliedAtOnce => SwitchedTables(db, m);
  }

  lemma CancelledItems(db: Db, m: MigrationId, failed: bool)
    requires m in db.migrations
    ensures CancelMigration(db, m, failed).items == db.items
  {
  }

  lemma MigrationAsideItems(s: System, a: Action, t: System)
    requires Step(s, a, t) && (a.StartMigrating? || (a.Decide? && a.decision != Applied) || a.Cancel?)
    ensures t.db.items == s.db.items && t.ended == s.ended
  {
    match a
    case StartMigrating(m, now, start) => StartedItems(s.db, m, now, start, t.db);
    case Decide(m, decision, order) => DecidedItems(s.db, m, decision, order, t.db);
    case Cancel(m, failed) => CancelledItems(s.db, m, failed);
  }

  lemma AsideItems(s: System, a: Action, t: System)
    requires Step(s, a, t) && Aside(a)
    ensures OnlyLifecycles(s.db.items, t.db.items) && t.ended == s.ended
  {
    if IndexAction(a) {
      IndexStepSide(s, a, t);
      if a.FailJob? { FailureItems(s.db, a.job, a.failure); }
    } else if a.Administer? {
      AdministeredItems(s.db, t.db);
    } else if a.StartMigrating? || a.Decide? || a.Cancel? {
      MigrationAsideItems(s, a, t);
    } else {
      SourceAsideItems(s, a, t);
    }
  }

  lemma LifecyclesSound(items: Items, after: Items, ended: set<RunId>)
    requires SoundItems(items, ended) && OnlyLifecycles(items, after)
    ensures SoundItems(after, ended)
  {
    forall id | id in after
      ensures after[id].collection == CollectionOf(id) && after[id].parent == ParentOf(id)
              && (ParentOf(id).Some? ==> ParentOf(id).value in after)
    {
      assert id in items;
    }
  }

  lemma ShrunkScans(db: Db, after: Db, ended: set<RunId>)
    requires SoundScans(db, ended) && ObservedShrinks(db, after) && Steady(db.runs, after.runs)
    ensures SoundScans(after, ended)
  {
  }

  lemma SteadyEnded(runs: map<RunId, Run>, after: map<RunId, Run>, ended: set<RunId>)
    requires EndedRuns(runs, ended) && Steady(runs, after)
    ensures EndedRuns(after, ended)
  {
  }

  // The actions that move the source worker without reconciling or completing.
  ghost predicate Moves(a: Action) {
    a.Claim? || a.LoadPlan? || a.MarkScanned? || a.Decide? || a.Break? || a.GiveUp? || a.Fail? || a.Restart?
  }

  lemma PhaseAside(s: System, a: Action, t: System)
    requires Step(s, a, t) && Aside(a) && !Moves(a)
    ensures t.phase == s.phase
  {
    if IndexAction(a) { IndexStepSide(s, a, t); }
  }

  lemma PhaseStays(s: System, t: System)
    requires SoundPhase(s) && t.phase == s.phase && t.ended == s.ended
    requires Steady(s.db.runs, t.db.runs) && ObservedShrinks(s.db, t.db) && s.db.items.Keys <= t.db.items.Keys
    ensures SoundPhase(t)
  {
  }

  lemma LoadPhase(s: System, t: System)
    requires SoundPhase(s) && LoadStep(s, t)
    ensures SoundPhase(t)
  {
  }

  lemma AsideSound(s: System, a: Action, t: System)
    requires Sound(s) && Step(s, a, t) && Aside(a)
    ensures Sound(t)
  {
    AsideItems(s, a, t);
    QuietStep(s, a, t);
    if a.Claim? { ClaimSteady(s, a.now, t); } else { StepSteady(s, a, t); }
    LifecyclesSound(s.db.items, t.db.items, s.ended);
    ShrunkScans(s.db, t.db, s.ended);
    SteadyEnded(s.db.runs, t.db.runs, s.ended);
    AsidePhase(s, a, t);
  }

  lemma AsidePhase(s: System, a: Action, t: System)
    requires Sound(s) && Step(s, a, t) && Aside(a)
    requires Steady(s.db.runs, t.db.runs) && ObservedShrinks(s.db, t.db) && t.db.items.Keys == s.db.items.Keys && t.ended == s.ended
    ensures SoundPhase(t)
  {
    if a.Claim? {
      ClaimSteady(s, a.now, t);
    } else if a.LoadPlan? {
      LoadPhase(s, t);
    } else if Moves(a) {
      LeavesRun(s, a, t);
    } else {
      PhaseAside(s, a, t);
      PhaseStays(s, t);
    }
  }

  lemma LeavesRun(s: System, a: Action, t: System)
    requires Step(s, a, t) && (a.MarkScanned? || a.Decide? || a.Break? || a.GiveUp? || a.Fail? || a.Restart?)
    ensures t.phase.Idle? || t.phase.Deciding? || t.phase.Raising? || t.phase.GivingUp? || t.phase.Failing?
  {
  }

  lemma ObserveSound(s: System, more: Scan, t: System)
    requires Sound(s) && ObserveStep(s, more, t)
    ensures Sound(t)
  {
    var r := s.phase.pass.run;
    forall k | k in t.db.observed
      ensures (k !in t.ended ==> t.db.observed[k].reconciled == {})
              && (k in t.ended ==> k in t.db.runs && LinkedScan(t.db.observed[k].seen, t.db.runs[k].collection))
    {
      if k != r { assert t.db.observed[k] == s.db.observed[k]; }
    }
  }

  // What the connector promises of a scan it has finished.
  ghost predicate ScannedWell(s: System, a: Action) {
    a.EndScan? && s.phase.Scanning? ==> LinkedScan(ScanOf(s.db, s.phase.pass.run), s.phase.pass.collection)
  }

  lemma EndSound(s: System, t: System)
    requires Sound(s) && EndStep(s, t) && ScannedWell(s, EndScan)
    ensures Sound(t)
  {
    assert DoneOf(s.db, s.phase.pass.run) == {};
  }

  lemma BatchScans(db: Db, pass: Pass, size: nat, ended: set<RunId>)
    requires pass.run in db.runs && pass.run in db.observed && pass.run in ended && SoundScans(db, ended)
    ensures SoundScans(BatchRows(db, pass, size), ended)
  {
    ManyFrame(db, pass, db.runs[pass.run].configRevision, ScanOf(db, pass.run), BatchOrder(db, pass, size), false);
  }

  lemma BatchPrefix(db: Db, pass: Pass, size: nat)
    requires DoneOf(db, pass.run) <= ScanOf(db, pass.run).Keys
    ensures Upcoming(ScanOf(db, pass.run), DoneOf(db, pass.run), BatchOrder(db, pass, size))
  {
  }

  lemma BatchItemsSound(db: Db, pass: Pass, size: nat, ended: set<RunId>)
    requires pass.run in db.runs && pass.run in db.observed && pass.run in ended && SoundItems(db.items, ended)
    requires pass.collection == db.runs[pass.run].collection && SoundScans(db, ended)
    requires DoneIn(db.items, ScanOf(db, pass.run), DoneOf(db, pass.run))
    ensures var after := BatchRows(db, pass, size);
      SoundItems(after.items, ended) && pass.run in after.observed
      && DoneIn(after.items, ScanOf(after, pass.run), DoneOf(after, pass.run))
  {
    var seen, done, order := ScanOf(db, pass.run), DoneOf(db, pass.run), BatchOrder(db, pass, size);
    ManyFrame(db, pass, db.runs[pass.run].configRevision, seen, order, false);
    BatchPrefix(db, pass, size);
    OrderKeepsShape(db.items, seen, done, order, pass);
    ReconcilingStamps(db.items, seen, order, pass);
  }

  lemma BatchSound(s: System, size: nat, t: System)
    requires Sound(s) && BatchStep(s, size, t)
    ensures Sound(t)
  {
    var pass := s.phase.pass;
    BatchSteady(s, size, t);
    SteadyEnded(s.db.runs, t.db.runs, s.ended);
    if BatchResult(s.db, pass, size) == Reconciled(true) {
      SomethingObserved(s.db, pass, size);
      BatchItemsSound(s.db, pass, size, s.ended);
      BatchScans(s.db, pass, size, s.ended);
      BatchFrame(s.db, pass, size);
    }
  }

  lemma SomethingObserved(db: Db, pass: Pass, size: nat)
    requires pass.run in db.runs && BatchResult(db, pass, size) == Reconciled(true)
    ensures pass.run in db.observed
  {
    var order := BatchOrder(db, pass, size);
    assert order[0] in order;
  }

  lemma MarkedSound(items: Items, pass: Pass, ended: set<RunId>)
    requires SoundItems(items, ended)
    ensures SoundItems(MarkMissing(items, pass), ended)
  {
    LifecyclesSound(items, MarkMissing(items, pass), ended);
  }

  lemma CloseSound(s: System, now: nat, t: System)
    requires Sound(s) && CloseStep(s, now, t)
    ensures Sound(t)
  {
    var r := s.phase.pass.run;
    CompleteSteady(s.db, r, now);
    SteadyEnded(s.db.runs, t.db.runs, s.ended);
    CompleteRows(s.db, r, now);
    ShrunkScans(s.db, t.db, s.ended);
    if Current(s.db, s.db.runs[r]) {
      MarkedSound(s.db.items, PassOf(s.db, r, s.db.collections[s.db.runs[r].collection].rules), s.ended);
    }
  }

  // What the end of a run does to items and observations.
  lemma CompleteRows(db: Db, r: RunId, now: nat)
    requires r in db.runs
    ensures ObservedShrinks(db, CompleteRun(db, r, now))
    ensures CompleteRun(db, r, now).items ==
      if Current(db, db.runs[r]) then MarkMissing(db.items, PassOf(db, r, db.collections[db.runs[r].collection].rules)) else db.items
  {
    SupersedeItems(db, r, now);
    SupersedeQuiet(db, r, now);
    if Current(db, db.runs[r]) {
      CompletedItems(db, PassOf(db, r, db.collections[db.runs[r].collection].rules), now);
      CompletedObserved(db, r, now);
    }
  }

  lemma CompletedObserved(db: Db, r: RunId, now: nat)
    requires r in db.runs && Current(db, db.runs[r])
    ensures ObservedShrinks(db, CompleteRun(db, r, now))
  {
    var run := db.runs[r];
    var closed := CloseScan(db, PassOf(db, r, db.collections[run.collection].rules));
    var reopened := closed.(collections := db.collections[run.collection := db.collections[run.collection].(lifecycle := CollectionActive)]);
    QueueRunKeeps(reopened, run.collection, run.configRevision, Manual, now);
  }

  lemma FromNothing(items: Items, seen: Scan)
    requires ItemsShaped(items)
    ensures Midway(items, seen, {}, InOrder(seen, seen.Keys))
  {
    assert seen.Keys - {} == seen.Keys;
  }

  lemma WholeScanShaped(items: Items, seen: Scan, pass: Pass)
    requires ItemsShaped(items) && LinkedScan(seen, pass.collection)
    ensures ItemsShaped(ReconcileItems(items, seen, InOrder(seen, seen.Keys), pass))
  {
    FromNothing(items, seen);
    OrderKeepsShape(items, seen, {}, InOrder(seen, seen.Keys), pass);
  }

  lemma StampedSound(items: Items, after: Items, r: RunId, ended: set<RunId>)
    requires SoundItems(items, ended) && ItemsShaped(after) && StampedBy(items, after, r) && r in ended
    ensures SoundItems(after, ended)
  {
  }

  lemma WholeScanSound(items: Items, seen: Scan, pass: Pass, ended: set<RunId>)
    requires SoundItems(items, ended) && LinkedScan(seen, pass.collection) && pass.run in ended
    ensures SoundItems(MarkMissing(ReconcileItems(items, seen, InOrder(seen, seen.Keys), pass), pass), ended)
  {
    var after := ReconcileItems(items, seen, InOrder(seen, seen.Keys), pass);
    WholeScanShaped(items, seen, pass);
    ReconcilingStamps(items, seen, InOrder(seen, seen.Keys), pass);
    StampedSound(items, after, pass.run, ended);
    MarkedSound(after, pass, ended);
  }

  lemma ScanLinked(db: Db, r: RunId, ended: set<RunId>)
    requires r in db.runs && r in ended && SoundScans(db, ended)
    ensures LinkedScan(ScanOf(db, r), db.runs[r].collection)
  {
  }

  lemma ApplyRunItems(db: Db, r: RunId)
    requires r in db.runs && ApplyRun(db, r).Returned? && db.runs[r].collection in db.collections
    ensures var seen := ScanOf(db, r);
      var pass := PassOf(db, r, db.collections[db.runs[r].collection].rules);
      ApplyRun(db, r).value.items == MarkMissing(ReconcileItems(db.items, seen, InOrder(seen, seen.Keys), pass), pass)
  {
    var seen := ScanOf(db, r);
    var reconciled, pass := ApplyRunIs(db, r);
    ManyFrame(db, pass, db.runs[r].configRevision, seen, InOrder(seen, seen.Keys), true);
    ClosedItems(reconciled, pass);
  }

  lemma ClosedItems(db: Db, pass: Pass)
    requires pass.run in db.runs
    ensures CloseScan(db, pass).items == MarkMissing(db.items, pass)
  {
  }

  lemma ApplyRunSound(db: Db, r: RunId, ended: set<RunId>)
    requires r in db.runs && ApplyRun(db, r).Returned? && r in ended
    requires SoundItems(db.items, ended) && SoundScans(db, ended)
    ensures var after := ApplyRun(db, r).value; SoundItems(after.items, ended) && SoundScans(after, ended)
  {
    ApplyRunShrinks(db, r);
    ApplyRunSteady(db, r);
    ShrunkScans(db, ApplyRun(db, r).value, ended);
    if db.runs[r].collection in db.collections {
      ScanLinked(db, r, ended);
      ApplyRunItems(db, r);
      WholeScanSound(db.items, ScanOf(db, r), PassOf(db, r, db.collections[db.runs[r].collection].rules), ended);
    }
  }

  lemma {:induction false} ApplyRunsSound(db: Db, runs: seq<RunId>, ended: set<RunId>)
    requires ApplyRuns(db, runs).Returned? && forall r :: r in runs ==> r in ended
    requires SoundItems(db.items, ended) && SoundScans(db, ended)
    ensures var after := ApplyRuns(db, runs).value; SoundItems(after.items, ended) && SoundScans(after, ended)
    decreases |runs|
  {
    if runs != [] {
      ApplyRunSound(db, runs[0], ended);
      ApplyRunsSound(ApplyRun(db, runs[0]).value, runs[1..], ended);
    }
  }

  lemma {:induction false} ApplyRunsKeys(db: Db, runs: seq<RunId>)
    requires ApplyRuns(db, runs).Returned?
    ensures db.items.Keys <= ApplyRuns(db, runs).value.items.Keys
    decreases |runs|
  {
    if runs != [] {
      var r := runs[0];
      var next := ApplyRun(db, r).value;
      if db.runs[r].collection in db.collections {
        var seen := ScanOf(db, r);
        ApplyRunItems(db, r);
        ReconcilingLosesNothing(db.items, seen, InOrder(seen, seen.Keys), PassOf(db, r, db.collections[db.runs[r].collection].rules));
      }
      ApplyRunsKeys(next, runs[1..]);
    }
  }

  lemma ScannedEnded(db: Db, m: MigrationId, order: seq<RunId>, ended: set<RunId>)
    requires ListsScanned(db, m, order) && ScansEnded(db.runs, ended)
    ensures forall r :: r in order ==> r in ended
  {
    assert forall r :: r in order ==> r in ScannedRuns(db, m);
  }

  lemma AppliedSound(s: System, m: MigrationId, order: seq<RunId>, t: System)
    requires Sound(s) && Kept(s) && DecideStep(s, m, Applied, order, t)
    ensures Sound(t)
  {
    ScannedEnded(s.db, m, order, s.ended);
    ApplyRunsSound(s.db, order, s.ended);
    ApplyRunsKeys(s.db, order);
    DecidedSteady(s.db, m, Applied, order, t.db);
    DecidedShrinks(s.db, m, Applied, order, t.db);
    SwitchedTables(ApplyRuns(s.db, order).value, m);
    SteadyEnded(s.db.runs, t.db.runs, s.ended);
    ShrunkScans(s.db, t.db, s.ended);
  }

  lemma SwitchedTables(db: Db, m: MigrationId)
    requires m in db.migrations
    ensures var after := SwitchSource(db, m); after.items == db.items && after.observed == db.observed && after.runs == db.runs
  {
  }

  lemma StepSound(s: System, a: Action, t: System)
    requires Sound(s) && Kept(s) && Step(s, a, t) && ScannedWell(s, a)
    ensures Sound(t)
  {
    if Aside(a) { AsideSound(s, a, t); } else { ScanningSound(s, a, t); }
  }

  lemma ScanningSound(s: System, a: Action, t: System)
    requires Sound(s) && Kept(s) && Step(s, a, t) && ScannedWell(s, a) && !Aside(a)
    ensures Sound(t)
  {
    match a
    case Observe(more) => ObserveSound(s, more, t);
    case EndScan => EndSound(s, t);
    case Batch(size) => BatchSound(s, size, t);
    case Close(now) => CloseSound(s, now, t);
    case Decide(m, decision, order) => AppliedSound(s, m, order, t);
  }

  // ---- Whole runs --------------------------------------------------------------------------

  // An execution over a path-shaped source, from items that no run has seen yet.
  ghost predicate PathShaped(states: seq<System>, actions: seq<Action>) {
    && Execution(states, actions)
    && ItemsShaped(states[0].db.items)
    && (forall k :: k in states[0].db.items ==> states[0].db.items[k].lastSeen == None)
    && forall i :: 0 <= i < |actions| ==> ScannedWell(states[i], actions[i])
  }

  lemma {:induction false} SoundAlways(states: seq<System>, actions: seq<Action>, i: nat)
    requires PathShaped(states, actions) && i < |states|
    ensures Sound(states[i])
  {
    if i == 0 {
      SoundAtFirst(states[0]);
    } else {
      SoundAlways(states, actions, i - 1);
      ExecutionKept(states, actions, i - 1);
      SoundNext(states, actions, i - 1);
    }
  }

  lemma SoundAtFirst(s: System)
    requires Initial(s) && ItemsShaped(s.db.items) && forall k :: k in s.db.items ==> s.db.items[k].lastSeen == None
    ensures Sound(s)
  {
  }

  lemma SoundNext(states: seq<System>, actions: seq<Action>, i: nat)
    requires PathShaped(states, actions) && i < |actions| && Sound(states[i]) && Kept(states[i])
    ensures Sound(states[i + 1])
  {
    StepTaken(states, actions, i);
    StepSound(states[i], actions[i], states[i + 1]);
  }

  // Nothing reconciles, completes or excludes items, or drops the run's observations.
  ghost predicate Bystander(s: System, t: System, r: RunId) {
    && t.db.items == s.db.items && t.phase == s.phase
    && (r in t.db.observed <==> r in s.db.observed) && (r in s.db.observed ==> t.db.observed[r] == s.db.observed[r])
  }

  // From the end of its scan on, the run is reconciled in batches of any size, with any other steps in
  // between that leave the items alone.
  ghost predicate Undisturbed(states: seq<System>, actions: seq<Action>, i: nat, j: nat, r: RunId)
    requires |states| == |actions| + 1 && i <= j <= |actions|
  {
    forall k :: i <= k < j ==> actions[k].Batch? || Bystander(states[k], states[k + 1], r)
  }

  ghost predicate OnTheWay(s: System, pass: Pass, seen: Scan, result: Items) {
    && (s.phase == Reconciling(pass) || s.phase == Closing(pass))
    && pass.run in s.db.runs && ScanOf(s.db, pass.run) == seen
    && DoneOf(s.db, pass.run) <= seen.Keys
    && (s.phase.Closing? ==> DoneOf(s.db, pass.run) == seen.Keys)
    && Remaining(s.db, pass) == result
  }

  lemma BatchOnTheWay(s: System, size: nat, t: System, pass: Pass, seen: Scan, result: Items)
    requires OnTheWay(s, pass, seen, result) && BatchStep(s, size, t)
    ensures OnTheWayOrLeft(t, pass, seen, result)
  {
    if BatchResult(s.db, pass, size) == Reconciled(true) {
      BatchAdvances(s.db, pass, size);
    } else if BatchResult(s.db, pass, size) == Reconciled(false) {
      NothingPending(s.db, pass, size);
    }
  }

  // On the way, or given up.
  ghost predicate OnTheWayOrLeft(s: System, pass: Pass, seen: Scan, result: Items) {
    OnTheWay(s, pass, seen, result) || (!s.phase.Reconciling? && !s.phase.Closing?)
  }

  lemma BystanderOnTheWay(s: System, t: System, pass: Pass, seen: Scan, result: Items)
    requires OnTheWay(s, pass, seen, result) && Bystander(s, t, pass.run) && Steady(s.db.runs, t.db.runs)
    ensures OnTheWay(t, pass, seen, result)
  {
  }

  lemma OneStepOn(s: System, a: Action, t: System, pass: Pass, seen: Scan, result: Items)
    requires Step(s, a, t) && (a.Batch? || Bystander(s, t, pass.run)) && OnTheWayOrLeft(s, pass, seen, result)
    ensures OnTheWayOrLeft(t, pass, seen, result)
  {
    if a.Batch? {
      BatchOnTheWay(s, a.size, t, pass, seen, result);
    } else if OnTheWay(s, pass, seen, result) {
      assert !a.Claim?;
      StepSteady(s, a, t);
      BystanderOnTheWay(s, t, pass, seen, result);
    }
  }

  lemma OneStepAt(states: seq<System>, actions: seq<Action>, k: nat, pass: Pass, seen: Scan, result: Items)
    requires Execution(states, actions) && k < |actions| && (actions[k].Batch? || Bystander(states[k], states[k + 1], pass.run))
    requires OnTheWayOrLeft(states[k], pass, seen, result)
    ensures OnTheWayOrLeft(states[k + 1], pass, seen, result)
  {
    StepTaken(states, actions, k);
    OneStepOn(states[k], actions[k], states[k + 1], pass, seen, result);
  }

  lemma {:induction false} StaysOnTheWay(states: seq<System>, actions: seq<Action>, i: nat, j: nat, pass: Pass, seen: Scan, result: Items)
    requires Execution(states, actions) && i <= j <= |actions| && Undisturbed(states, actions, i, j, pass.run)
    requires OnTheWayOrLeft(states[i], pass, seen, result)
    ensures OnTheWayOrLeft(states[j], pass, seen, result)
    decreases j - i
  {
    if i < j {
      OneStepAt(states, actions, i, pass, seen, result);
      StaysOnTheWay(states, actions, i + 1, j, pass, seen, result);
    }
  }

  // A scan that has just ended starts its reconciliation from scratch.
  lemma StartsFresh(s: System, t: System, pass: Pass)
    requires Sound(s) && EndStep(s, t) && t.phase == Reconciling(pass) && ScannedWell(s, EndScan)
    ensures var seen := ScanOf(t.db, pass.run);
      && t.db == s.db && DoneOf(t.db, pass.run) == {} && ItemsShaped(t.db.items) && LinkedScan(seen, pass.collection)
      && (forall k :: k in t.db.items ==> t.db.items[k].lastSeen != Some(pass.run))
      && OnTheWay(t, pass, seen, Remaining(t.db, pass))
  {
  }

  lemma ClosesExactly(s: System, now: nat, t: System, pass: Pass, items: Items, seen: Scan)
    requires CloseStep(s, now, t) && s.phase == Closing(pass) && pass.run in s.db.runs && Current(s.db, s.db.runs[pass.run])
    requires pass.collection == s.db.runs[pass.run].collection
    requires OnTheWay(s, pass, seen, ReconcileItems(items, seen, InOrder(seen, seen.Keys), pass))
    requires ItemsShaped(items) && LinkedScan(seen, pass.collection) && forall k :: k in items ==> items[k].lastSeen != Some(pass.run)
    ensures t.db.items == ItemsCompleted(items, seen, pass)
  {
    var own := PassOf(s.db, pass.run, s.db.collections[s.db.runs[pass.run].collection].rules);
    CompleteRows(s.db, pass.run, now);
    assert MarkMissing(s.db.items, own) == MarkMissing(s.db.items, pass);
    assert seen.Keys - seen.Keys == {};
    assert Remaining(s.db, pass) == s.db.items;
    CompletedRun(items, seen, pass);
  }

  // In every execution over a path-shaped source: from the end of a run's scan to its completion, in
  // batches of any size and among any steps that leave the items alone, the items become the closed
  // form over that scan, whatever the runs before it did or left undone.
  lemma CompletedExactly(states: seq<System>, actions: seq<Action>, i: nat, j: nat, pass: Pass)
    requires PathShaped(states, actions) && i < j < |actions|
    requires actions[i].EndScan? && states[i + 1].phase == Reconciling(pass)
    requires Undisturbed(states, actions, i + 1, j, pass.run)
    requires actions[j].Close? && states[j].phase == Closing(pass) && pass.run in states[j].db.runs
    requires Current(states[j].db, states[j].db.runs[pass.run])
    ensures states[j + 1].db.items == ItemsCompleted(states[i + 1].db.items, ScanOf(states[i + 1].db, pass.run), pass)
  {
    var begun := states[i + 1];
    var items, seen := begun.db.items, ScanOf(begun.db, pass.run);
    BegunAt(states, actions, i, pass);
    StaysOnTheWay(states, actions, i + 1, j, pass, seen, Remaining(begun.db, pass));
    ClosedAt(states, actions, j, pass, items, seen);
  }

  lemma BegunAt(states: seq<System>, actions: seq<Action>, i: nat, pass: Pass)
    requires PathShaped(states, actions) && i < |actions| && actions[i].EndScan?
    requires states[i + 1].phase == Reconciling(pass)
    ensures var begun := states[i + 1];
      var items, seen := begun.db.items, ScanOf(begun.db, pass.run);
      && ItemsShaped(items) && LinkedScan(seen, pass.collection) && (forall k :: k in items ==> items[k].lastSeen != Some(pass.run))
      && Remaining(begun.db, pass) == ReconcileItems(items, seen, InOrder(seen, seen.Keys), pass)
      && OnTheWayOrLeft(begun, pass, seen, Remaining(begun.db, pass))
  {
    SoundAlways(states, actions, i);
    StepTaken(states, actions, i);
    StartsFresh(states[i], states[i + 1], pass);
    var seen := ScanOf(states[i + 1].db, pass.run);
    assert seen.Keys - {} == seen.Keys;
  }

  lemma ClosedAt(states: seq<System>, actions: seq<Action>, j: nat, pass: Pass, items: Items, seen: Scan)
    requires PathShaped(states, actions) && j < |actions| && actions[j].Close? && states[j].phase == Closing(pass)
    requires pass.run in states[j].db.runs && Current(states[j].db, states[j].db.runs[pass.run])
    requires OnTheWayOrLeft(states[j], pass, seen, ReconcileItems(items, seen, InOrder(seen, seen.Keys), pass))
    requires ItemsShaped(items) && LinkedScan(seen, pass.collection) && forall k :: k in items ==> items[k].lastSeen != Some(pass.run)
    ensures states[j + 1].db.items == ItemsCompleted(items, seen, pass)
  {
    SoundAlways(states, actions, j);
    StepTaken(states, actions, j);
    ClosesExactly(states[j], actions[j].now, states[j + 1], pass, items, seen);
  }
}
