/**
 What a switch means for the jobs that were running when it happened, however long they go on: they
 are dropped by whatever looks at them next, and none of them starts another process.
 */
module Fencing {

  import opened Outcome
  import opened Corpus
  import opened Reconciliation
  import opened SourceSteps
  import opened SourceWorker
  import opened SyncRuns
  import opened Migrations
  import opened IndexSteps
  import opened Interleaving
  import opened Publication

  // ---- The source worker writes queued jobs only -----------------------------------------------

  // A job that has left the queue is as it was, and a queued one keeps its attempts.
  ghost predicate Stands(jobs: map<JobId, Job>, after: map<JobId, Job>, j: JobId) {
    j in jobs ==> j in after && after[j].attempts == jobs[j].attempts && (jobs[j].status != JobQueued ==> after[j] == jobs[j])
  }

  lemma OneStands(db: Db, pass: Pass, config: nat, id: ExternalId, o: Observation, preserveIndex: bool, j: JobId)
    ensures Stands(db.jobs, ReconcileOne(db, pass, config, id, o, preserveIndex).jobs, j)
  {
    var placed := db.(items := ReconcileItem(db.items, id, o, pass));
    DocumentStands(placed, pass, config, id, o, Classify(id, o, pass), preserveIndex, j);
  }

  lemma DocumentStands(db: Db, pass: Pass, config: nat, id: ExternalId, o: Observation, lifecycle: ItemState, preserveIndex: bool, j: JobId)
    ensures Stands(db.jobs, ReconcileDocument(db, pass, config, id, o, lifecycle, preserveIndex).jobs, j)
  {
  }

  lemma {:induction false} ManyStand(db: Db, pass: Pass, config: nat, seen: Scan, order: seq<ExternalId>, preserveIndex: bool, j: JobId)
    requires forall id :: id in order ==> id in seen
    ensures Stands(db.jobs, ReconcileMany(db, pass, config, seen, order, preserveIndex).jobs, j)
    decreases |order|
  {
    if order != [] {
      OneStands(db, pass, config, order[0], seen[order[0]], preserveIndex, j);
      ManyStand(ReconcileOne(db, pass, config, order[0], seen[order[0]], preserveIndex), pass, config, seen, order[1..], preserveIndex, j);
    }
  }

  lemma BatchStands(db: Db, pass: Pass, size: nat, j: JobId)
    requires pass.run in db.runs
    ensures Stands(db.jobs, BatchRows(db, pass, size).jobs, j)
  {
    ManyStand(db, pass, db.runs[pass.run].configRevision, ScanOf(db, pass.run), BatchOrder(db, pass, size), false, j);
  }

  lemma SupersedeStands(db: Db, r: RunId, now: nat)
    requires r in db.runs
    ensures Supersede(db, r, now).jobs == db.jobs
  {
    var run := db.runs[r];
    var withdrawn := db.(runs := db.runs[r := SourceSteps.Withdrawn(run)], observed := db.observed - {r});
    QueueRunKeeps(withdrawn, run.collection, db.source.configRevision, run.trigger, now);
  }

  lemma CompleteStands(db: Db, r: RunId, now: nat)
    requires r in db.runs
    ensures CompleteRun(db, r, now).jobs == db.jobs
  {
    var run := db.runs[r];
    SupersedeStands(db, r, now);
    if Current(db, run) {
      var closed := CloseScan(db, PassOf(db, r, db.collections[run.collection].rules));
      var reopened := closed.(collections := db.collections[run.collection := db.collections[run.collection].(lifecycle := CollectionActive)]);
      QueueRunKeeps(reopened, run.collection, run.configRevision, Manual, now);
    }
  }

  lemma FailStands(db: Db, r: RunId, denied: bool, j: JobId)
    requires r in db.runs && (db.runs[r].migration.Some? ==> db.runs[r].migration.value in db.migrations)
    ensures Stands(db.jobs, FailRun(db, r, denied).jobs, j)
  {
  }

  lemma ClaimStands(s: System, now: nat, t: System)
    requires ClaimStep(s, now, t)
    ensures t.db.jobs == s.db.jobs
  {
    var swept: Db :| Swept(s.db, Stale(s.db), swept, now) && TakesOne(s, swept, now, t);
  }

  lemma FinishingStands(s: System, a: Action, t: System, j: JobId)
    requires Step(s, a, t) && (a.Batch? || a.Close?)
    ensures Stands(s.db.jobs, t.db.jobs, j)
  {
    if a.Batch? { BatchStands(s.db, s.phase.pass, a.size, j); } else { CompleteStands(s.db, s.phase.pass.run, a.now); }
  }

  lemma LeavingStands(s: System, a: Action, t: System, j: JobId)
    requires Step(s, a, t) && (a.GiveUp? || a.Fail?)
    ensures Stands(s.db.jobs, t.db.jobs, j)
  {
    if a.GiveUp? { SupersedeStands(s.db, s.phase.run, a.now); } else { FailStands(s.db, s.phase.run, s.phase.denied, j); }
  }

  lemma SourceStands(s: System, a: Action, t: System, j: JobId)
    requires Step(s, a, t) && SourceWorkerAction(a)
    ensures Stands(s.db.jobs, t.db.jobs, j)
  {
    if Checks(a) {
      ChecksOnly(s, a, t);
    } else if a.Batch? || a.Close? {
      FinishingStands(s, a, t, j);
    } else if a.GiveUp? || a.Fail? {
      LeavingStands(s, a, t, j);
    } else if a.Claim? {
      ClaimStands(s, a.now, t);
    } else if a.Queue? {
      QueueRunKeeps(s.db, a.collection, a.config, a.trigger, a.now);
    }
  }

  lemma ApplyRunStands(db: Db, r: RunId, j: JobId)
    requires r in db.runs && ApplyRun(db, r).Returned?
    ensures Stands(db.jobs, ApplyRun(db, r).value.jobs, j)
  {
    if db.runs[r].collection in db.collections {
      var reconciled, pass := ApplyRunIs(db, r);
      ManyStand(db, pass, db.runs[r].configRevision, ScanOf(db, r), InOrder(ScanOf(db, r), ScanOf(db, r).Keys), true, j);
    }
  }

  lemma {:induction false} ApplyRunsStand(db: Db, runs: seq<RunId>, j: JobId)
    requires ApplyRuns(db, runs).Returned?
    ensures Stands(db.jobs, ApplyRuns(db, runs).value.jobs, j)
    decreases |runs|
  {
    if runs != [] {
      ApplyRunStands(db, runs[0], j);
      ApplyRunsStand(ApplyRun(db, runs[0]).value, runs[1..], j);
    }
  }

  lemma MigrationStands(s: System, a: Action, t: System, j: JobId)
    requires Step(s, a, t) && MigrationAction(a)
    ensures Stands(s.db.jobs, t.db.jobs, j)
  {
    MigratingAllOrNothing(s, a, t);
    if Switches(a) && a.Decide? {
      ApplyRunsStand(s.db, a.order, j);
      ApplyRunsKeep(s.db, a.order);
    }
  }

  // ---- Behind ------------------------------------------------------------------------------

  // A job that has left the queue, for a configuration that has been replaced.
  ghost predicate Behind(db: Db, j: JobId) {
    j in db.jobs && db.jobs[j].status != JobQueued && db.jobs[j].config < db.source.configRevision
  }

  lemma BehindIsOvertaken(s: System, j: JobId)
    requires Behind(s.db, j) && Readable(s.db, j)
    ensures var job := s.db.jobs[j]; Overtaken(s.db, s.db.documents[job.document], job.revision, job.config)
    ensures Begun(s, j).processes == s.processes
  {
  }

  lemma ClaimedBehind(db: Db, k: JobId, j: JobId)
    requires CanStart(db, k) && Behind(db, j)
    ensures Behind(Claimed(db, k), j)
  {
  }

  lemma BegunBehind(s: System, k: JobId, j: JobId)
    requires Readable(s.db, k) && Behind(s.db, j)
    ensures Behind(Begun(s, k).db, j)
  {
  }

  lemma SettledBehind(db: Db, p: Process, j: JobId)
    requires Behind(db, j)
    ensures Behind(Published(db, p), j) && Behind(SkippedBy(db, p), j)
  {
  }

  // A failure of such a job cannot return it to the queue.
  lemma FailureBehind(db: Db, k: JobId, failure: Failure, j: JobId)
    requires Behind(db, j)
    ensures Behind(AfterFailure(db, k, failure), j)
  {
  }

  lemma WorkingBehind(s: System, a: Action, t: System, j: JobId)
    requires Step(s, a, t) && (a.ClaimNext? || a.Begin?) && Behind(s.db, j)
    ensures Behind(t.db, j)
  {
    if a.ClaimNext? { ClaimedBehind(s.db, a.job, j); } else { BegunBehind(s, a.job, j); }
  }

  lemma SettlingBehind(s: System, a: Action, t: System, j: JobId)
    requires Step(s, a, t) && (a.Publish? || a.Skip? || a.FailJob?) && Behind(s.db, j)
    ensures Behind(t.db, j)
  {
    if a.FailJob? { FailureBehind(s.db, a.job, a.failure, j); } else { SettledBehind(s.db, a.process, j); }
  }

  lemma IndexingBehind(s: System, a: Action, t: System, j: JobId)
    requires Step(s, a, t) && IndexAction(a) && Behind(s.db, j)
    ensures Behind(t.db, j)
  {
    if a.ClaimNext? || a.Begin? { WorkingBehind(s, a, t, j); } else { SettlingBehind(s, a, t, j); }
  }

  lemma AdministeredBehind(db: Db, after: Db, j: JobId)
    requires Administered(db, after) && Behind(db, j)
    ensures Behind(after, j)
  {
    assert AdministeredJob(db, db.jobs[j], after.jobs[j]);
  }

  lemma StepBehind(s: System, a: Action, t: System, j: JobId)
    requires Step(s, a, t) && Behind(s.db, j)
    ensures Behind(t.db, j)
  {
    ConfigNeverFalls(s, a, t);
    if SourceWorkerAction(a) {
      SourceStands(s, a, t, j);
    } else if MigrationAction(a) {
      MigrationStands(s, a, t, j);
    } else if IndexAction(a) {
      IndexingBehind(s, a, t, j);
    } else {
      AdministeredBehind(s.db, t.db, j);
    }
  }

  // The processes a job has started.
  function StartedBy(processes: set<Process>, j: JobId): set<Process> {
    set p | p in processes && p.job == j
  }

  lemma StepStartsNone(s: System, a: Action, t: System, j: JobId)
    requires Step(s, a, t) && Behind(s.db, j)
    ensures StartedBy(t.processes, j) == StartedBy(s.processes, j)
  {
    if a.Begin? {
      if a.job == j { BehindIsOvertaken(s, j); }
    } else if SourceWorkerAction(a) {
      SourceWorkerConfig(s, a, t);
    }
  }

  lemma BehindNext(states: seq<System>, actions: seq<Action>, i: nat, j: JobId)
    requires Execution(states, actions) && i < |actions| && Behind(states[i].db, j)
    ensures Behind(states[i + 1].db, j) && StartedBy(states[i + 1].processes, j) == StartedBy(states[i].processes, j)
  {
    StepTaken(states, actions, i);
    StepBehind(states[i], actions[i], states[i + 1], j);
    StepStartsNone(states[i], actions[i], states[i + 1], j);
  }

  lemma {:induction false} BehindAlong(states: seq<System>, actions: seq<Action>, i: nat, k: nat, j: JobId)
    requires Execution(states, actions) && i <= k < |states| && Behind(states[i].db, j)
    ensures Behind(states[k].db, j) && StartedBy(states[k].processes, j) == StartedBy(states[i].processes, j)
    decreases k - i
  {
    if i < k {
      BehindAlong(states, actions, i, k - 1, j);
      BehindNext(states, actions, k - 1, j);
    }
  }

  // Every job that was running when the source was switched, in every later state: it is not queued
  // again, a process that would start for it is dropped instead, and the only processes it has are those
  // it had started by then.
  lemma SwitchDropsRunningJobs(states: seq<System>, actions: seq<Action>, i: nat, k: nat, j: JobId)
    requires Execution(states, actions) && i < k < |states| && Switches(actions[i])
    requires j in states[i + 1].db.jobs && states[i + 1].db.jobs[j].status == JobRunning
    ensures j in states[k].db.jobs && states[k].db.jobs[j].status != JobQueued
    ensures StartedBy(states[k].processes, j) == StartedBy(states[i + 1].processes, j)
    ensures Readable(states[k].db, j) ==>
      var db := states[k].db;
      && Overtaken(db, db.documents[db.jobs[j].document], db.jobs[j].revision, db.jobs[j].config)
      && Begun(states[k], j).processes == states[k].processes
      && Begun(states[k], j).db.jobs[j].status == JobSuperseded
  {
    ExecutionKeeps(states, actions, i);
    StepTaken(states, actions, i);
    SwitchedJobs(states[i], actions[i], states[i + 1]);
    BehindAlong(states, actions, i + 1, k, j);
    if Readable(states[k].db, j) { BehindIsOvertaken(states[k], j); }
  }

  // ---- Attempts ----------------------------------------------------------------------------

  lemma IndexingAttempts(s: System, a: Action, t: System, j: JobId)
    requires Step(s, a, t) && IndexAction(a) && j in s.db.jobs
    ensures j in t.db.jobs && t.db.jobs[j].attempts == s.db.jobs[j].attempts + if a == ClaimNext(j) then 1 else 0
  {
    if a.ClaimNext? || a.Begin? { WorkingAttempts(s, a, t, j); } else { SettlingAttempts(s, a, t, j); }
  }

  lemma WorkingAttempts(s: System, a: Action, t: System, j: JobId)
    requires Step(s, a, t) && (a.ClaimNext? || a.Begin?) && j in s.db.jobs
    ensures j in t.db.jobs && t.db.jobs[j].attempts == s.db.jobs[j].attempts + if a == ClaimNext(j) then 1 else 0
  {
  }

  lemma SettlingAttempts(s: System, a: Action, t: System, j: JobId)
    requires Step(s, a, t) && (a.Publish? || a.Skip? || a.FailJob?) && j in s.db.jobs
    ensures j in t.db.jobs && t.db.jobs[j].attempts == s.db.jobs[j].attempts
  {
    if a.FailJob? { FailureAttempts(s.db, a.job, a.failure, j); }
  }

  lemma FailureAttempts(db: Db, k: JobId, failure: Failure, j: JobId)
    requires j in db.jobs
    ensures j in AfterFailure(db, k, failure).jobs && AfterFailure(db, k, failure).jobs[j].attempts == db.jobs[j].attempts
  {
  }

  lemma StepAttempts(s: System, a: Action, t: System, j: JobId)
    requires Step(s, a, t) && !a.Administer? && j in s.db.jobs
    ensures j in t.db.jobs && t.db.jobs[j].attempts == s.db.jobs[j].attempts + if a == ClaimNext(j) then 1 else 0
  {
    if SourceWorkerAction(a) {
      SourceStands(s, a, t, j);
    } else if MigrationAction(a) {
      MigrationStands(s, a, t, j);
    } else {
      IndexingAttempts(s, a, t, j);
    }
  }

  // How often the job is claimed from step `i` on and before `k`.
  function Claims(actions: seq<Action>, i: nat, k: nat, j: JobId): nat
    requires i <= k <= |actions|
  {
    if i == k then 0 else Claims(actions, i, k - 1, j) + if actions[k - 1] == ClaimNext(j) then 1 else 0
  }

  lemma {:induction false} AttemptsCount(states: seq<System>, actions: seq<Action>, i: nat, k: nat, j: JobId)
    requires Execution(states, actions) && i <= k <= |actions| && j in states[i].db.jobs
    requires forall n :: i <= n < k ==> !actions[n].Administer?
    ensures j in states[k].db.jobs && states[k].db.jobs[j].attempts == states[i].db.jobs[j].attempts + Claims(actions, i, k, j)
    decreases k
  {
    if i < k {
      AttemptsCount(states, actions, i, k - 1, j);
      StepTaken(states, actions, k - 1);
      StepAttempts(states[k - 1], actions[k - 1], states[k], j);
    }
  }

  // Unless it is asked for again by hand, a job is claimed no more than six times, however often its process
  // fails, dies or is stopped: every claim counts as an attempt.
  lemma ClaimsBounded(states: seq<System>, actions: seq<Action>, i: nat, k: nat, j: JobId)
    requires Execution(states, actions) && i <= k <= |actions| && j in states[i].db.jobs
    requires forall n :: i <= n < k ==> !actions[n].Administer?
    ensures Claims(actions, i, k, j) + states[i].db.jobs[j].attempts <= 6 || Claims(actions, i, k, j) == 0
    decreases k
  {
    if i < k {
      ClaimsBounded(states, actions, i, k - 1, j);
      if actions[k - 1] == ClaimNext(j) {
        AttemptsCount(states, actions, i, k - 1, j);
        StepTaken(states, actions, k - 1);
        AttemptsBounded(states, actions, k - 1, j);
      }
    }
  }
}
