/**
 What every interleaving of the workers keeps about runs and items: one pending run a collection, and
 an item turns missing only after a scan that was iterated to the end.
 */
module History {

  import opened Outcome
  import opened Corpus
  import opened Reconciliation
  import opened SourceSteps
  import opened SourceWorker
  import opened SyncRuns
  import opened Migrations
  import opened IndexSteps
  import opened Interleaving
  import opened Publication

  // ---- The invariant -----------------------------------------------------------------------

  // Only runs whose scan has ended are scanned.
  ghost predicate ScansEnded(runs: map<RunId, Run>, ended: set<RunId>) {
    forall r :: r in runs && runs[r].status == RunScanned ==> r in ended
  }

  ghost predicate AllReconciled(db: Db, r: RunId) {
    r in db.observed ==> db.observed[r].seen.Keys <= db.observed[r].reconciled
  }

  ghost predicate PhaseEnded(s: System) {
    && (s.phase.Scanned? || s.phase.Reconciling? || s.phase.Closing? ==> s.phase.pass.run in s.ended)
    && (s.phase.Closing? ==> AllReconciled(s.db, s.phase.pass.run))
  }

  ghost predicate RunsKept(runs: map<RunId, Run>, ended: set<RunId>) {
    OnePending(runs) && ScansEnded(runs, ended)
  }

  ghost predicate Kept(s: System) {
    RunsKept(s.db.runs, s.ended) && PhaseEnded(s)
  }

  // ---- Runs --------------------------------------------------------------------------------

  // Runs that change only by being settled keep the collection's one pending run.
  ghost predicate OnlySettled(runs: map<RunId, Run>, after: map<RunId, Run>) {
    && after.Keys == runs.Keys
    && forall r :: r in runs ==> after[r].collection == runs[r].collection && (Pending(after[r]) ==> Pending(runs[r]))
                                 && (after[r].status == RunScanned ==> runs[r].status == RunScanned)
  }

  lemma SettledKeeps(runs: map<RunId, Run>, after: map<RunId, Run>, ended: set<RunId>)
    requires RunsKept(runs, ended) && OnlySettled(runs, after)
    ensures RunsKept(after, ended)
  {
  }

  lemma QueueRunOne(db: Db, c: CollectionId, config: nat, trigger: Trigger, now: nat, ended: set<RunId>)
    requires RunsKept(db.runs, ended)
    ensures RunsKept(QueueRun(db, c, config, trigger, now).runs, ended)
  {
  }

  lemma SupersedeOne(db: Db, r: RunId, now: nat, ended: set<RunId>)
    requires r in db.runs && RunsKept(db.runs, ended)
    ensures RunsKept(Supersede(db, r, now).runs, ended)
  {
    var run := db.runs[r];
    var withdrawn := db.(runs := db.runs[r := SourceSteps.Withdrawn(run)], observed := db.observed - {r});
    SettledKeeps(db.runs, withdrawn.runs, ended);
    QueueRunOne(withdrawn, run.collection, db.source.configRevision, run.trigger, now, ended);
  }

  lemma CompleteOne(db: Db, r: RunId, now: nat, ended: set<RunId>)
    requires r in db.runs && RunsKept(db.runs, ended)
    ensures RunsKept(CompleteRun(db, r, now).runs, ended)
  {
    var run := db.runs[r];
    SupersedeOne(db, r, now, ended);
    if Current(db, run) {
      var closed := CloseScan(db, PassOf(db, r, db.collections[run.collection].rules));
      SettledKeeps(db.runs, closed.runs, ended);
      var reopened := closed.(collections := db.collections[run.collection := db.collections[run.collection].(lifecycle := CollectionActive)]);
      QueueRunOne(reopened, run.collection, run.configRevision, Manual, now, ended);
    }
  }

  lemma CancelOne(db: Db, m: MigrationId, failed: bool, ended: set<RunId>)
    requires m in db.migrations && RunsKept(db.runs, ended)
    ensures RunsKept(CancelMigration(db, m, failed).runs, ended) && RunsKept(RejectMigration(db, m).runs, ended)
  {
    SettledKeeps(db.runs, WithdrawMigrationRuns(db.runs, m), ended);
  }

  lemma FailOne(db: Db, r: RunId, denied: bool, ended: set<RunId>)
    requires r in db.runs && (db.runs[r].migration.Some? ==> db.runs[r].migration.value in db.migrations)
    requires RunsKept(db.runs, ended)
    ensures RunsKept(FailRun(db, r, denied).runs, ended)
  {
    var failed := db.(runs := db.runs[r := db.runs[r].(status := RunFailed)]);
    SettledKeeps(db.runs, failed.runs, ended);
    if db.runs[r].migration.Some? { CancelOne(failed, db.runs[r].migration.value, true, ended); }
  }

  lemma SweptScans(db: Db, swept: set<RunId>, after: Db, now: nat, ended: set<RunId>)
    requires RunsKept(db.runs, ended) && Swept(db, swept, after, now)
    ensures RunsKept(after.runs, ended)
  {
    forall r | r in after.runs && r !in db.runs ensures after.runs[r].status == RunQueued {
      var s :| s in swept && s in db.runs && ReplacementOf(db, db.runs[s], after, r, now);
    }
    forall r | r in after.runs && after.runs[r].status == RunScanned ensures r in ended {
      assert SweptRun(db, swept, after, r);
    }
  }

  lemma ClaimOne(s: System, now: nat, t: System)
    requires ClaimStep(s, now, t) && RunsKept(s.db.runs, s.ended)
    ensures RunsKept(t.db.runs, t.ended)
  {
    var swept: Db :| Swept(s.db, Stale(s.db), swept, now) && TakesOne(s, swept, now, t);
    SweptScans(s.db, Stale(s.db), swept, now, s.ended);
    if t != s.(db := swept) { TakenOne(s, swept, t.phase.run, now, t); }
  }

  lemma TakenOne(s: System, swept: Db, r: RunId, now: nat, t: System)
    requires TakesRun(s, swept, r, now, t) && RunsKept(swept.runs, s.ended)
    ensures RunsKept(t.db.runs, t.ended)
  {
    SettledKeeps(swept.runs, t.db.runs, s.ended);
  }

  lemma ScannedOne(runs: map<RunId, Run>, r: RunId, ended: set<RunId>)
    requires r in runs && r in ended && RunsKept(runs, ended)
    ensures RunsKept(MarkedScanned(runs, r), ended)
  {
  }

  lemma BatchOne(s: System, size: nat, t: System)
    requires BatchStep(s, size, t) && RunsKept(s.db.runs, s.ended)
    ensures RunsKept(t.db.runs, t.ended)
  {
    BatchFrame(s.db, s.phase.pass, size);
  }

  lemma BatchFrame(db: Db, pass: Pass, size: nat)
    requires pass.run in db.runs
    ensures BatchRows(db, pass, size).runs == db.runs && NoneTurnedMissing(db.items, BatchRows(db, pass, size).items)
  {
    var seen, order := ScanOf(db, pass.run), BatchOrder(db, pass, size);
    ManyFrame(db, pass, db.runs[pass.run].configRevision, seen, order, false);
    ReconcilingLosesNothing(db.items, seen, order, pass);
  }

  lemma ApplyRunOne(db: Db, r: RunId, ended: set<RunId>)
    requires r in db.runs && ApplyRun(db, r).Returned? && RunsKept(db.runs, ended)
    ensures RunsKept(ApplyRun(db, r).value.runs, ended)
  {
    var run := db.runs[r];
    if run.collection in db.collections {
      SettledKeeps(db.runs, db.runs[r := run.(status := RunCompleted)], ended);
    }
  }

  lemma {:induction false} ApplyRunsOne(db: Db, runs: seq<RunId>, ended: set<RunId>)
    requires ApplyRuns(db, runs).Returned? && RunsKept(db.runs, ended)
    ensures RunsKept(ApplyRuns(db, runs).value.runs, ended)
    decreases |runs|
  {
    if runs != [] {
      ApplyRunOne(db, runs[0], ended);
      ApplyRunsOne(ApplyRun(db, runs[0]).value, runs[1..], ended);
    }
  }

  lemma DecidedOne(db: Db, m: MigrationId, decision: Decision, order: seq<RunId>, after: Db, ended: set<RunId>)
    requires Decided(db, m, decision, order, after) && RunsKept(db.runs, ended)
    ensures RunsKept(after.runs, ended)
  {
    if decision == Rejected {
      CancelOne(db, m, false, ended);
    } else if decision == Applied {
      ApplyRunsOne(db, order, ended);
    }
  }

  lemma StartedOne(db: Db, m: MigrationId, now: nat, start: Start, after: Db, ended: set<RunId>)
    requires m in db.migrations && StartedAs(db, m, now, start, after) && RunsKept(db.runs, ended)
    ensures RunsKept(after.runs, ended)
  {
    if start == Outdated {
      CancelOne(db, m, false, ended);
    } else if start == Started {
      forall r | r in after.runs && after.runs[r].status == RunScanned ensures r in ended {
        assert r in db.runs;
      }
    }
  }

  lemma StartingRuns(s: System, a: Action, t: System)
    requires Step(s, a, t) && RunsKept(s.db.runs, s.ended) && (Checks(a) || a.Queue? || a.Claim? || a.Observe? || a.Restart?)
    ensures RunsKept(t.db.runs, t.ended)
  {
    if Checks(a) {
      ChecksOnly(s, a, t);
    } else {
      QueuedOrClaimed(s, a, t);
    }
  }

  lemma QueuedOrClaimed(s: System, a: Action, t: System)
    requires Step(s, a, t) && RunsKept(s.db.runs, s.ended) && (a.Queue? || a.Claim? || a.Observe? || a.Restart?)
    ensures RunsKept(t.db.runs, t.ended)
  {
    match a
    case Queue(c, config, trigger, now) => QueueRunOne(s.db, c, config, trigger, now, s.ended);
    case Claim(now) => ClaimOne(s, now, t);
    case Observe(more) =>
    case Restart => RestartOne(s.db, t.db, s.ended);
  }

  lemma RestartOne(db: Db, after: Db, ended: set<RunId>)
    requires RecoveredRows(db, UnderwayMigrations(db), after) && RunsKept(db.runs, ended)
    ensures RunsKept(after.runs, ended)
  {
    SettledKeeps(db.runs, after.runs, ended);
  }

  lemma FinishingRuns(s: System, a: Action, t: System)
    requires Step(s, a, t) && Kept(s) && (a.MarkScanned? || a.Batch? || a.Close? || a.GiveUp? || a.Fail?)
    ensures RunsKept(t.db.runs, t.ended)
  {
    match a
    case MarkScanned => ScannedOne(s.db.runs, s.phase.pass.run, s.ended);
    case Batch(size) => BatchOne(s, size, t);
    case Close(now) => CompleteOne(s.db, s.phase.pass.run, now, s.ended);
    case GiveUp(now) => SupersedeOne(s.db, s.phase.run, now, s.ended);
    case Fail => FailOne(s.db, s.phase.run, s.phase.denied, s.ended);
  }

  lemma MigratingRuns(s: System, a: Action, t: System)
    requires Step(s, a, t) && RunsKept(s.db.runs, s.ended) && (a.StartMigrating? || a.Decide? || a.Cancel? || a.Administer?)
    ensures RunsKept(t.db.runs, t.ended)
  {
    match a
    case StartMigrating(m, now, start) => StartedOne(s.db, m, now, start, t.db, s.ended);
    case Decide(m, decision, order) => DecidedOne(s.db, m, decision, order, t.db, s.ended);
    case Cancel(m, failed) => CancelOne(s.db, m, failed, s.ended);
    case Administer => AdministeredScans(s.db, t.db, s.ended);
  }

  lemma IndexingRuns(s: System, a: Action, t: System)
    requires Step(s, a, t) && RunsKept(s.db.runs, s.ended) && IndexAction(a)
    ensures RunsKept(t.db.runs, t.ended)
  {
    IndexStepSide(s, a, t);
  }

  lemma AdministeredScans(db: Db, after: Db, ended: set<RunId>)
    requires AdministeredRuns(db, after) && RunsKept(db.runs, ended)
    ensures RunsKept(after.runs, ended)
  {
    forall r | r in after.runs && after.runs[r].status == RunScanned ensures r in ended {
      if r in db.runs { assert AdministeredRun(db.runs[r], after.runs[r]); }
    }
  }

  // ---- Observations and items ----------------------------------------------------------------

  // Observations are only dropped.
  ghost predicate ObservedShrinks(db: Db, after: Db) {
    forall r :: r in after.observed ==> r in db.observed && after.observed[r] == db.observed[r]
  }

  // Nothing but the phase's own step touches what the phase relies on, and no item turns missing.
  ghost predicate Quiet(db: Db, after: Db) {
    ObservedShrinks(db, after) && NoneTurnedMissing(db.items, after.items)
  }

  lemma SupersedeQuiet(db: Db, r: RunId, now: nat)
    requires r in db.runs
    ensures Quiet(db, Supersede(db, r, now))
  {
    var run := db.runs[r];
    var withdrawn := db.(runs := db.runs[r := SourceSteps.Withdrawn(run)], observed := db.observed - {r});
    QueueRunKeeps(withdrawn, run.collection, db.source.configRevision, run.trigger, now);
  }

  lemma ClaimQuiet(s: System, now: nat, t: System)
    requires ClaimStep(s, now, t)
    ensures Quiet(s.db, t.db)
  {
    var swept: Db :| Swept(s.db, Stale(s.db), swept, now) && TakesOne(s, swept, now, t);
  }

  lemma BatchQuiet(s: System, size: nat, t: System)
    requires BatchStep(s, size, t)
    ensures NoneTurnedMissing(s.db.items, t.db.items)
    ensures t.phase.Closing? ==> t.phase == Closing(s.phase.pass) && AllReconciled(t.db, t.phase.pass.run)
  {
    var pass := s.phase.pass;
    BatchFrame(s.db, pass, size);
    if BatchOrder(s.db, pass, size) == [] { NothingPending(s.db, pass, size); }
  }

  lemma NothingPending(db: Db, pass: Pass, size: nat)
    requires size > 0 && BatchOrder(db, pass, size) == []
    ensures AllReconciled(db, pass.run)
  {
    var seen, done := ScanOf(db, pass.run), DoneOf(db, pass.run);
    var pending := seen.Keys - done;
    assert |InOrder(seen, pending)| == |pending|;
    assert pending == {};
    assert forall k :: k in seen.Keys ==> k in done || k in pending;
  }

  lemma FailQuiet(db: Db, r: RunId, denied: bool)
    requires r in db.runs && (db.runs[r].migration.Some? ==> db.runs[r].migration.value in db.migrations)
    ensures Quiet(db, FailRun(db, r, denied))
  {
  }

  lemma CloseItems(s: System, now: nat, t: System, id: ExternalId)
    requires CloseStep(s, now, t)
    requires id in t.db.items && t.db.items[id].lifecycle == ItemMissing && !(id in s.db.items && s.db.items[id].lifecycle == ItemMissing)
    ensures var r := s.phase.pass.run;
      && Current(s.db, s.db.runs[r])
      && id in s.db.items && s.db.items[id].collection == s.db.runs[r].collection && s.db.items[id].lastSeen != Some(r)
  {
    var r := s.phase.pass.run;
    SupersedeQuiet(s.db, r, now);
    if Current(s.db, s.db.runs[r]) {
      var pass := PassOf(s.db, r, s.db.collections[s.db.runs[r].collection].rules);
      CompletedItems(s.db, pass, now);
    }
  }

  lemma DecidedShrinks(db: Db, m: MigrationId, decision: Decision, order: seq<RunId>, after: Db)
    requires Decided(db, m, decision, order, after)
    ensures ObservedShrinks(db, after) && (decision != Applied ==> Quiet(db, after))
  {
    if decision == Applied {
      ApplyRunsShrink(db, order);
      SwitchedObserved(ApplyRuns(db, order).value, m);
    } else {
      UnappliedQuiet(db, m, decision, order, after);
    }
  }

  lemma SwitchedObserved(db: Db, m: MigrationId)
    requires m in db.migrations
    ensures SwitchSource(db, m).observed == db.observed
  {
  }

  lemma UnappliedQuiet(db: Db, m: MigrationId, decision: Decision, order: seq<RunId>, after: Db)
    requires Decided(db, m, decision, order, after) && decision != Applied
    ensures Quiet(db, after)
  {
  }

  lemma ApplyRunShrinks(db: Db, r: RunId)
    requires r in db.runs && ApplyRun(db, r).Returned?
    ensures ObservedShrinks(db, ApplyRun(db, r).value)
  {
    var run := db.runs[r];
    if run.collection in db.collections {
      var seen := ScanOf(db, r);
      var pass := PassOf(db, r, db.collections[run.collection].rules);
      ManyFrame(db, pass, run.configRevision, seen, InOrder(seen, seen.Keys), true);
    }
  }

  lemma {:induction false} ApplyRunsShrink(db: Db, runs: seq<RunId>)
    requires ApplyRuns(db, runs).Returned?
    ensures ObservedShrinks(db, ApplyRuns(db, runs).value)
    decreases |runs|
  {
    if runs != [] {
      ApplyRunShrinks(db, runs[0]);
      ApplyRunsShrink(ApplyRun(db, runs[0]).value, runs[1..]);
    }
  }

  lemma StartedQuiet(db: Db, m: MigrationId, now: nat, start: Start, after: Db)
    requires m in db.migrations && StartedAs(db, m, now, start, after)
    ensures Quiet(db, after)
  {
  }

  lemma FailureQuiet(db: Db, j: JobId, failure: Failure)
    ensures Quiet(db, AfterFailure(db, j, failure))
  {
  }

  lemma AdministeredQuiet(db: Db, after: Db)
    requires Administered(db, after)
    ensures Quiet(db, after)
  {
    forall k | k in after.items && after.items[k].lifecycle == ItemMissing ensures k in db.items && db.items[k].lifecycle == ItemMissing {
      assert AdministeredItem(db.items[k], after.items[k]);
    }
  }

  ghost predicate QuietAction(a: Action) {
    Checks(a) || a.Queue? || a.Claim? || a.MarkScanned? || a.GiveUp? || a.Fail? || a.Restart?
  }

  lemma QuietSource(s: System, a: Action, t: System)
    requires Step(s, a, t) && QuietAction(a)
    ensures Quiet(s.db, t.db)
  {
    if Checks(a) {
      ChecksOnly(s, a, t);
    } else {
      match a
      case Queue(c, config, trigger, now) => QueueRunKeeps(s.db, c, config, trigger, now);
      case Claim(now) => ClaimQuiet(s, now, t);
      case MarkScanned =>
      case GiveUp(now) => SupersedeQuiet(s.db, s.phase.run, now);
      case Fail => FailQuiet(s.db, s.phase.run, s.phase.denied);
      case Restart => RestartQuiet(s.db, t.db);
    }
  }

  lemma QuietMigration(s: System, a: Action, t: System)
    requires Step(s, a, t) && (a.StartMigrating? || (a.Decide? && a.decision != Applied) || a.Cancel? || a.Administer?)
    ensures Quiet(s.db, t.db)
  {
    match a
    case StartMigrating(m, now, start) => StartedQuiet(s.db, m, now, start, t.db);
    case Decide(m, decision, order) => DecidedShrinks(s.db, m, decision, order, t.db);
    case Cancel(_, _) =>
    case Administer => AdministeredQuiet(s.db, t.db);
  }

  lemma QuietIndexing(s: System, a: Action, t: System)
    requires Step(s, a, t) && IndexAction(a)
    ensures Quiet(s.db, t.db)
  {
    IndexStepSide(s, a, t);
    if a.FailJob? { FailureQuiet(s.db, a.job, a.failure); }
  }

  // Every action but observing, reconciling and the two completions is quiet.
  lemma QuietStep(s: System, a: Action, t: System)
    requires Step(s, a, t) && !a.Observe? && !a.Batch? && !a.Close? && !(a.Decide? && a.decision == Applied)
    ensures Quiet(s.db, t.db)
  {
    if a.StartMigrating? || a.Decide? || a.Cancel? || a.Administer? {
      QuietMigration(s, a, t);
    } else if IndexAction(a) {
      QuietIndexing(s, a, t);
    } else {
      QuietSource(s, a, t);
    }
  }

  lemma RestartQuiet(db: Db, after: Db)
    requires RecoveredRows(db, UnderwayMigrations(db), after)
    ensures Quiet(db, after)
  {
  }

  lemma PhaseKept(s: System, a: Action, t: System)
    requires Step(s, a, t) && PhaseEnded(s)
    ensures PhaseEnded(t)
  {
    if a.Batch? {
      BatchQuiet(s, a.size, t);
    } else if a.Decide? {
      DecidedShrinks(s.db, a.migration, a.decision, a.order, t.db);
    } else if !a.Observe? && !a.Close? {
      QuietStep(s, a, t);
      QuietPhase(s, a, t);
    }
  }

  lemma QuietPhase(s: System, a: Action, t: System)
    requires Step(s, a, t) && PhaseEnded(s) && ObservedShrinks(s.db, t.db)
    requires !a.Batch? && !a.Decide? && !a.Observe? && !a.Close?
    ensures PhaseEnded(t)
  {
    if IndexAction(a) { IndexStepSide(s, a, t); }
  }

  lemma StepKept(s: System, a: Action, t: System)
    requires Kept(s) && Step(s, a, t)
    ensures Kept(t)
  {
    PhaseKept(s, a, t);
    if a.StartMigrating? || a.Decide? || a.Cancel? || a.Administer? {
      MigratingRuns(s, a, t);
    } else if IndexAction(a) {
      IndexingRuns(s, a, t);
    } else if Checks(a) || a.Queue? || a.Claim? || a.Observe? || a.Restart? {
      StartingRuns(s, a, t);
    } else {
      FinishingRuns(s, a, t);
    }
  }

  // ---- Whole runs --------------------------------------------------------------------------

  lemma {:induction false} ExecutionKept(states: seq<System>, actions: seq<Action>, i: nat)
    requires Execution(states, actions) && i < |states|
    ensures Kept(states[i])
  {
    if i > 0 {
      ExecutionKept(states, actions, i - 1);
      StepTaken(states, actions, i - 1);
      StepKept(states[i - 1], actions[i - 1], states[i]);
    }
  }

  // In every reachable state a collection has at most one queued or running run.
  lemma OnePendingAlways(states: seq<System>, actions: seq<Action>, i: nat)
    requires Execution(states, actions) && i < |states|
    ensures OnePending(states[i].db.runs)
  {
    ExecutionKept(states, actions, i);
  }

  lemma ApplyRunMisses(db: Db, r: RunId, id: ExternalId)
    requires r in db.runs && ApplyRun(db, r).Returned?
    ensures var after := ApplyRun(db, r).value.items;
      id in after && after[id].lifecycle == ItemMissing && !(id in db.items && db.items[id] == after[id]) ==> MissedBy(db, r, id, after[id])
  {
    if db.runs[r].collection in db.collections {
      var reconciled, pass := ApplyRunIs(db, r);
      var seen := ScanOf(db, r);
      ManyFrame(db, pass, db.runs[r].configRevision, seen, InOrder(seen, seen.Keys), true);
      if id in reconciled.items { UnstampedRow(db.items, seen, InOrder(seen, seen.Keys), pass, id); }
    }
  }

  // A row that turns missing while runs are applied was missed by one of them.
  lemma {:induction false} ApplyRunsMiss(db: Db, runs: seq<RunId>, id: ExternalId) returns (r: RunId)
    requires ApplyRuns(db, runs).Returned? && forall i, j :: 0 <= i < j < |runs| ==> runs[i] != runs[j]
    requires var after := ApplyRuns(db, runs).value.items;
      id in after && after[id].lifecycle == ItemMissing && !(id in db.items && db.items[id] == after[id])
    ensures r in runs && MissedBy(db, r, id, ApplyRuns(db, runs).value.items[id])
    decreases |runs|
  {
    r := runs[0];
    var next, after := ApplyRun(db, r).value, ApplyRuns(db, runs).value.items;
    ApplyRunMisses(db, r, id);
    ApplyRunKeeps(db, r);
    if !(id in next.items && next.items[id] == after[id]) {
      r := ApplyRunsMiss(next, runs[1..], id);
    }
  }

  lemma AppliedMisses(db: Db, m: MigrationId, order: seq<RunId>, after: Db, id: ExternalId)
    requires Decided(db, m, Applied, order, after)
    requires id in after.items && after.items[id].lifecycle == ItemMissing && !(id in db.items && db.items[id].lifecycle == ItemMissing)
    ensures exists r :: r in ScannedRuns(db, m) && MissedBy(db, r, id, after.items[id])
  {
    var r := ApplyRunsMiss(db, order, id);
  }

  // The end of a run that was current, whose scan had been iterated to the end while it was current,
  // with every observation reconciled, and which has not seen the item.
  ghost predicate LostToRun(s: System, a: Action, id: ExternalId) {
    && a.Close? && s.phase.Closing? && s.phase.pass.run in s.db.runs
    && var r := s.phase.pass.run;
       && r in s.ended && Current(s.db, s.db.runs[r]) && AllReconciled(s.db, r)
       && id in s.db.items && s.db.items[id].collection == s.db.runs[r].collection && s.db.items[id].lastSeen != Some(r)
  }

  // Run `r` has neither seen the item nor excluded it with its folder, and the item is of its collection.
  ghost predicate MissedBy(db: Db, r: RunId, id: ExternalId, item: Item) {
    r in db.runs && item.collection == db.runs[r].collection && item.lastSeen != Some(r) && id !in ScanOf(db, r)
  }

  // The switch of a migration all of whose live runs were scanned to the end, one of which has missed
  // the item.
  ghost predicate LostToMigration(s: System, a: Action, t: System, id: ExternalId) {
    && a.Decide? && a.decision == Applied && AllScanned(s.db, a.migration)
    && LiveRunsOf(s.db.runs, a.migration) <= s.ended
    && id in t.db.items
    && exists r :: r in ScannedRuns(s.db, a.migration) && MissedBy(s.db, r, id, t.db.items[id])
  }

  // Over every interleaving, an item turns missing in no other step: failures, supersessions, restarts
  // and the index worker never cause it.
  lemma MissingOnlyAfterFullScan(states: seq<System>, actions: seq<Action>, i: nat, id: ExternalId)
    requires Execution(states, actions) && i < |actions|
    requires id in states[i + 1].db.items && states[i + 1].db.items[id].lifecycle == ItemMissing
    requires !(id in states[i].db.items && states[i].db.items[id].lifecycle == ItemMissing)
    ensures LostToRun(states[i], actions[i], id) || LostToMigration(states[i], actions[i], states[i + 1], id)
  {
    ExecutionKept(states, actions, i);
    StepTaken(states, actions, i);
    TurnsMissing(states[i], actions[i], states[i + 1], id);
  }

  lemma TurnsMissing(s: System, a: Action, t: System, id: ExternalId)
    requires Kept(s) && Step(s, a, t)
    requires id in t.db.items && t.db.items[id].lifecycle == ItemMissing && !(id in s.db.items && s.db.items[id].lifecycle == ItemMissing)
    ensures LostToRun(s, a, id) || LostToMigration(s, a, t, id)
  {
    if a.Close? {
      CloseItems(s, a.now, t, id);
    } else if a.Batch? {
      BatchQuiet(s, a.size, t);
    } else if a.Decide? && a.decision == Applied {
      AppliedMisses(s.db, a.migration, a.order, t.db, id);
    } else if !a.Observe? {
      QuietStep(s, a, t);
    }
  }
}
