/**
 The life of a sync run (services/source_worker/engine.py): the stale sweep, claiming, completion,
 failure and restart recovery.
 */
module SyncRuns {

  import opened Outcome
  import opened Corpus
  import opened Reconciliation
  import opened SourceSteps
  import opened SourceWorker

  // ---- Completion --------------------------------------------------------------------------

  method CompleteSyncRun(store: Store, r: RunId, now: nat) returns (completed: bool)
    requires r in store.runs
    modifies store
    ensures completed == Current(old(store.Rows()), old(store.runs[r]))
    ensures store.Rows() == CompleteRun(old(store.Rows()), r, now)
  {
    var run := store.runs[r];
    if !Current(store.Rows(), run) {
      SupersedeSyncRun(store, r, now);
      return false;
    }
    var pass := PassOf(store.Rows(), r, store.collections[run.collection].rules);
    store.documents := RemoveDocuments(store.Rows(), pass);
    store.items := MarkMissing(store.items, pass);
    store.projects := OpenProject(store.projects, run.collection);
    store.collections := store.collections[run.collection := store.collections[run.collection].(lifecycle := CollectionActive)];
    store.runs := store.runs[r := run.(status := RunCompleted)];
    store.observed := store.observed - {r};
    if run.followUp {
      QueueSyncRun(store, run.collection, run.configRevision, Manual, now);
    }
    return true;
  }

  method FailSyncRun(store: Store, r: RunId, denied: bool)
    requires r in store.runs && (store.runs[r].migration.Some? ==> store.runs[r].migration.value in store.migrations)
    modifies store
    ensures store.Rows() == FailRun(old(store.Rows()), r, denied)
  {
    var run := store.runs[r];
    store.runs := store.runs[r := run.(status := RunFailed)];
    if run.migration.Some? {
      CancelMigrationRow(store, run.migration.value, true);
      return;
    }
    store.observed := store.observed - {r};
    if denied {
      RevokeCollectionRows(store, run.collection);
    }
  }

  method RevokeCollectionRows(store: Store, c: CollectionId)
    modifies store`collections, store`projects, store`documents, store`jobs
    ensures store.Rows() == RevokeCollection(old(store.Rows()), c)
  {
    if c in store.collections {
      store.collections := store.collections[c := store.collections[c].(lifecycle := CollectionAccessRevoked)];
    }
    if c in store.projects {
      store.projects := store.projects[c := store.projects[c].(lifecycle := ProjectAccessRevoked, eligible := false)];
    }
    store.documents := map k | k in store.documents ::
      if store.documents[k].collection == c && !store.documents[k].deleted then store.documents[k].(eligible := false) else store.documents[k];
    store.jobs := map j | j in store.jobs ::
      if store.jobs[j].collection == c && store.jobs[j].status == JobQueued then store.jobs[j].(status := JobSuperseded) else store.jobs[j];
  }

  method CancelMigrationRow(store: Store, m: MigrationId, failed: bool)
    requires m in store.migrations
    modifies store`migrations, store`runs, store`observed
    ensures store.Rows() == CancelMigration(old(store.Rows()), m, failed)
  {
    if store.migrations[m].status !in {MigrationCompleted, Cancelled, MigrationFailed} {
      store.migrations := store.migrations[m := store.migrations[m].(status := if failed then MigrationFailed else Cancelled)];
    }
    store.observed := store.observed - RunsOf(store.runs, m);
    store.runs := WithdrawMigrationRuns(store.runs, m);
  }

  // A finished scan is reconciled batch by batch and closed. When the run completes, the items are
  // the closed form over its scan; when it does not, no item has become missing.
  method FinishSyncRun(store: Store, pass: Pass, batchSize: nat, now: nat) returns (completed: bool)
    requires batchSize > 0
    requires pass.run in store.runs && pass == PassOf(store.Rows(), pass.run, pass.plan)
    requires pass.collection in store.collections ==> store.collections[pass.collection].rules == pass.plan
    requires store.runs[pass.run].migration.None?
    requires DoneOf(store.Rows(), pass.run) == {}
    requires ItemsShaped(store.items) && LinkedScan(ScanOf(store.Rows(), pass.run), pass.collection)
    requires forall k :: k in store.items ==> store.items[k].lastSeen != Some(pass.run)
    modifies store
    ensures completed ==> Current(old(store.Rows()), old(store.runs[pass.run]))
    ensures completed ==> store.items == ItemsCompleted(old(store.items), old(ScanOf(store.Rows(), pass.run)), pass)
    ensures completed ==> pass.run in store.runs && store.runs[pass.run].status == RunCompleted && ItemsShaped(store.items)
    ensures !completed ==> NoneTurnedMissing(old(store.items), store.items)
    ensures !completed && Current(old(store.Rows()), old(store.runs[pass.run])) ==> pass.collection !in store.projects
  {
    ghost var items, seen := store.items, ScanOf(store.Rows(), pass.run);
    ShapedIsShorter(items, seen, pass);
    assert seen.Keys - {} == seen.Keys;
    var outcome := ReconcileAll(store, pass, batchSize);
    if outcome != Reconciled(false) {
      LeaveRun(store, pass.run, outcome == Superseded, now);
      return false;
    }
    CompletedItems(store.Rows(), pass, now);
    FinishedItems(items, seen, pass, store.items);
    completed := CompleteSyncRun(store, pass.run, now);
  }

  // An ordinary run that does not complete gives up or fails.
  method LeaveRun(store: Store, r: RunId, superseded: bool, now: nat)
    requires r in store.runs && store.runs[r].migration.None?
    modifies store
    ensures store.items == old(store.items) && store.projects == old(store.projects)
  {
    if superseded {
      SupersedeSyncRun(store, r, now);
    } else {
      FailSyncRun(store, r, false);
    }
  }

  lemma FinishedItems(items: Items, seen: Scan, pass: Pass, reconciled: Items)
    requires ItemsShaped(items) && LinkedScan(seen, pass.collection) && forall k :: k in items ==> items[k].lastSeen != Some(pass.run)
    requires reconciled == ReconcileItems(items, seen, InOrder(seen, seen.Keys), pass)
    ensures MarkMissing(reconciled, pass) == ItemsCompleted(items, seen, pass) && ItemsShaped(ItemsCompleted(items, seen, pass))
  {
    CompletedRun(items, seen, pass);
    CompletedShaped(items, seen, pass);
  }

  // A current run that completes marks what it has not seen, and is closed.
  lemma CompletedItems(db: Db, pass: Pass, now: nat)
    requires pass.run in db.runs && Current(db, db.runs[pass.run]) && pass == PassOf(db, pass.run, pass.plan)
    ensures CompleteRun(db, pass.run, now).items == MarkMissing(db.items, pass)
    ensures pass.run in CompleteRun(db, pass.run, now).runs && CompleteRun(db, pass.run, now).runs[pass.run].status == RunCompleted
  {
    var run := db.runs[pass.run];
    var own := PassOf(db, pass.run, db.collections[run.collection].rules);
    assert MarkMissing(db.items, own) == MarkMissing(db.items, pass);
    var closed := CloseScan(db, own);
    var reopened := closed.(collections := db.collections[run.collection := db.collections[run.collection].(lifecycle := CollectionActive)]);
    QueueRunKeeps(reopened, run.collection, run.configRevision, Manual, now);
  }

  lemma QueueRunKeeps(db: Db, c: CollectionId, config: nat, trigger: Trigger, now: nat)
    ensures var after := QueueRun(db, c, config, trigger, now);
      && after == db.(runs := after.runs)
      && forall r :: r in db.runs ==> r in after.runs && after.runs[r] == db.runs[r]
  {
  }

  lemma ShapedIsShorter(items: Items, seen: Scan, pass: Pass)
    requires ItemsShaped(items) && LinkedScan(seen, pass.collection)
    ensures ParentsShorter(items) && ScanShorter(seen)
  {
  }

  // ---- The stale sweep and the claim ---------------------------------------------------------

  // The schema's unique index: a collection has at most one queued or running run.
  ghost predicate OnePending(runs: map<RunId, Run>) {
    forall a, b :: a in runs && b in runs && Pending(runs[a]) && Pending(runs[b]) && runs[a].collection == runs[b].collection ==> a == b
  }

  function Stale(db: Db): set<RunId> {
    set r | r in db.runs && db.runs[r].status == RunQueued && !Claimable(db, db.runs[r])
  }

  // A stale run whose exclusion rules alone have moved is replaced.
  predicate Requeues(db: Db, run: Run) {
    FilterMoved(db, run) && Eligible(db, run.collection) && !LiveMigration(db)
  }

  function Replacement(db: Db, run: Run, now: nat): Run
    requires run.collection in db.collections
  {
    Run(run.collection, None, db.source.configRevision, db.collections[run.collection].filterRevision, run.trigger, RunQueued, false, now)
  }

  ghost predicate SweptRun(db: Db, swept: set<RunId>, after: Db, r: RunId)
    requires r in db.runs
  {
    r in after.runs && after.runs[r] == if r in swept then db.runs[r].(status := RunSuperseded) else db.runs[r]
  }

  ghost predicate ReplacementOf(db: Db, run: Run, after: Db, r: RunId, now: nat) {
    r in after.runs && r !in db.runs && Requeues(db, run) && after.runs[r] == Replacement(db, run, now)
  }

  // The rows once the stale runs in `swept` have been withdrawn: each is superseded, exactly the
  // replaceable ones have a replacement, and nothing else has changed.
  ghost predicate Swept(db: Db, swept: set<RunId>, after: Db, now: nat) {
    && after == db.(runs := after.runs, observed := db.observed - swept)
    && (forall r :: r in db.runs ==> SweptRun(db, swept, after, r))
    && (forall r :: r in after.runs && r !in db.runs ==>
          exists s :: s in swept && s in db.runs && ReplacementOf(db, db.runs[s], after, r, now))
    && (forall s :: s in swept && s in db.runs && Requeues(db, db.runs[s]) ==>
          exists r :: ReplacementOf(db, db.runs[s], after, r, now))
    && OnePending(after.runs)
  }

  lemma SupersedeQueued(db: Db, r: RunId, now: nat)
    requires r in db.runs && db.runs[r].status == RunQueued && OnePending(db.runs)
    ensures var after := Supersede(db, r, now);
      var withdrawn := db.runs[r := db.runs[r].(status := RunSuperseded)];
      && after == db.(runs := after.runs, observed := db.observed - {r})
      && after.runs == (if Requeues(db, db.runs[r]) then withdrawn[Above(withdrawn.Keys) := Replacement(db, db.runs[r], now)] else withdrawn)
      && OnePending(after.runs)
  {
    var run := db.runs[r];
    var withdrawn := db.(runs := db.runs[r := run.(status := RunSuperseded)], observed := db.observed - {r});
    assert !HasPendingRun(withdrawn.runs, run.collection);
    assert LiveMigration(withdrawn) == LiveMigration(db);
    assert Eligible(withdrawn, run.collection) == Eligible(db, run.collection);
  }

  // Only runs and observations differ, so every guard reads the same.
  ghost predicate SameTables(db: Db, after: Db) {
    after == db.(runs := after.runs, observed := after.observed)
  }

  lemma GuardsAgree(db: Db, after: Db, run: Run)
    requires SameTables(db, after)
    ensures Claimable(after, run) == Claimable(db, run)
    ensures Requeues(after, run) == Requeues(db, run)
    ensures forall now: nat :: run.collection in db.collections ==> Replacement(after, run, now) == Replacement(db, run, now)
  {
  }

  // Asking for a synchronization of an eligible collection, at the configuration that stands and with no
  // migration under way, leaves exactly one pending run; one that is new can be claimed. Otherwise
  // nothing is queued.
  lemma QueueLeavesOne(db: Db, c: CollectionId, config: nat, trigger: Trigger, now: nat)
    requires OnePending(db.runs)
    ensures var after := QueueRun(db, c, config, trigger, now);
      && OnePending(after.runs) && after == db.(runs := after.runs) && db.runs.Keys <= after.runs.Keys
      && (Eligible(db, c) && db.source.configRevision == config && !LiveMigration(db) ==> HasPendingRun(after.runs, c))
      && (forall r :: r in after.runs && r !in db.runs ==> after.runs[r].collection == c && Claimable(after, after.runs[r]))
      && ((exists r :: r in after.runs && r !in db.runs) <==>
            Eligible(db, c) && db.source.configRevision == config && !LiveMigration(db) && !HasPendingRun(db.runs, c))
  {
    var after, id := QueueRun(db, c, config, trigger, now), Above(db.runs.Keys);
    if Eligible(db, c) && db.source.configRevision == config && !LiveMigration(db) && !HasPendingRun(db.runs, c) {
      GuardsAgree(db, after, after.runs[id]);
      assert id in after.runs && id !in db.runs && Pending(after.runs[id]) && after.runs[id].collection == c;
    }
  }

  lemma ReplacementClaimable(db: Db, run: Run, now: nat)
    requires Requeues(db, run)
    ensures Claimable(db, Replacement(db, run, now))
  {
  }

  // One run has been superseded in place, and at most one run has been added, as its replacement.
  ghost predicate OneWithdrawn(db: Db, before: Db, after: Db, r: RunId, now: nat)
    requires r in db.runs && r in before.runs
  {
    && before.runs.Keys <= after.runs.Keys
    && (forall k :: k in before.runs ==> after.runs[k] == if k == r then before.runs[r].(status := RunSuperseded) else before.runs[k])
    && (forall k :: k in after.runs && k !in before.runs ==>
          Requeues(db, db.runs[r]) && after.runs[k] == Replacement(db, db.runs[r], now))
    && (Requeues(db, db.runs[r]) ==> exists k :: k in after.runs && k !in before.runs)
  }

  lemma SweptRunsNext(db: Db, swept: set<RunId>, before: Db, after: Db, r: RunId, now: nat)
    requires Swept(db, swept, before, now) && r in db.runs && r !in swept && r in before.runs
    requires before.runs[r] == db.runs[r] && OneWithdrawn(db, before, after, r, now)
    ensures forall k :: k in db.runs ==> SweptRun(db, swept + {r}, after, k)
  {
    forall k | k in db.runs ensures SweptRun(db, swept + {r}, after, k) {
      assert SweptRun(db, swept, before, k);
    }
  }

  lemma NewRunsNext(db: Db, swept: set<RunId>, before: Db, after: Db, r: RunId, now: nat)
    requires Swept(db, swept, before, now) && r in db.runs && r in before.runs && OneWithdrawn(db, before, after, r, now)
    ensures forall k :: k in after.runs && k !in db.runs ==>
      exists s :: s in swept + {r} && s in db.runs && ReplacementOf(db, db.runs[s], after, k, now)
  {
    forall k | k in after.runs && k !in db.runs
      ensures exists s :: s in swept + {r} && s in db.runs && ReplacementOf(db, db.runs[s], after, k, now)
    {
      if k in before.runs {
        var s :| s in swept && s in db.runs && ReplacementOf(db, db.runs[s], before, k, now);
        assert ReplacementOf(db, db.runs[s], after, k, now);
      } else {
        assert ReplacementOf(db, db.runs[r], after, k, now);
      }
    }
  }

  lemma ReplacedNext(db: Db, swept: set<RunId>, before: Db, after: Db, r: RunId, now: nat)
    requires Swept(db, swept, before, now) && r in db.runs && r in before.runs && OneWithdrawn(db, before, after, r, now)
    requires forall k :: k in db.runs ==> k in before.runs
    ensures forall s :: s in swept + {r} && s in db.runs && Requeues(db, db.runs[s]) ==>
      exists k :: ReplacementOf(db, db.runs[s], after, k, now)
  {
    forall s | s in swept + {r} && s in db.runs && Requeues(db, db.runs[s])
      ensures exists k :: ReplacementOf(db, db.runs[s], after, k, now)
    {
      if s == r {
        var k :| k in after.runs && k !in before.runs;
        assert ReplacementOf(db, db.runs[r], after, k, now);
      } else {
        ReplacementPersists(db, before, after, r, s, now);
      }
    }
  }

  lemma ReplacementPersists(db: Db, before: Db, after: Db, r: RunId, s: RunId, now: nat)
    requires r in db.runs && s in db.runs && r in before.runs && OneWithdrawn(db, before, after, r, now)
    requires exists k :: ReplacementOf(db, db.runs[s], before, k, now)
    ensures exists k :: ReplacementOf(db, db.runs[s], after, k, now)
  {
    var k :| ReplacementOf(db, db.runs[s], before, k, now);
    assert ReplacementOf(db, db.runs[s], after, k, now);
  }

  lemma SupersededIsOneWithdrawn(db: Db, before: Db, r: RunId, now: nat)
    requires r in db.runs && r in before.runs && before.runs[r] == db.runs[r] && db.runs[r].status == RunQueued
    requires SameTables(db, before) && OnePending(before.runs)
    ensures OneWithdrawn(db, before, Supersede(before, r, now), r, now)
    ensures OnePending(Supersede(before, r, now).runs)
    ensures SameTables(before, Supersede(before, r, now)) && Supersede(before, r, now).observed == before.observed - {r}
  {
    SupersedeQueued(before, r, now);
    GuardsAgree(db, before, db.runs[r]);
    var after := Supersede(before, r, now);
    if Requeues(db, db.runs[r]) {
      var withdrawn := before.runs[r := before.runs[r].(status := RunSuperseded)];
      assert withdrawn.Keys == before.runs.Keys;
      assert Above(withdrawn.Keys) in after.runs && Above(withdrawn.Keys) !in before.runs;
    }
  }

  // Withdrawing one more stale run.
  lemma SweepNext(db: Db, swept: set<RunId>, before: Db, r: RunId, now: nat)
    requires Swept(db, swept, before, now) && r in db.runs && r !in swept && db.runs[r].status == RunQueued
    ensures r in before.runs && Swept(db, swept + {r}, Supersede(before, r, now), now)
  {
    assert forall k :: k in db.runs ==> SweptRun(db, swept, before, k);
    assert SweptRun(db, swept, before, r);
    SupersededIsOneWithdrawn(db, before, r, now);
    var after := Supersede(before, r, now);
    SweptRunsNext(db, swept, before, after, r, now);
    NewRunsNext(db, swept, before, after, r, now);
    ReplacedNext(db, swept, before, after, r, now);
    assert db.observed - swept - {r} == db.observed - (swept + {r});
  }

  method SweepStaleRuns(store: Store, now: nat)
    requires OnePending(store.runs)
    modifies store
    ensures Swept(old(store.Rows()), Stale(old(store.Rows())), store.Rows(), now)
  {
    ghost var before := store.Rows();
    var stale := Stale(store.Rows());
    ghost var swept: set<RunId> := {};
    assert before.observed - {} == before.observed;
    while stale != {}
      invariant stale + swept == Stale(before) && stale !! swept
      invariant Swept(before, swept, store.Rows(), now)
      decreases stale
    {
      var r :| r in stale;
      assert SweptRun(before, swept, store.Rows(), r);
      SweepNext(before, swept, store.Rows(), r, now);
      SupersedeSyncRun(store, r, now);
      stale := stale - {r};
      swept := swept + {r};
    }
  }

  // After the sweep every run that is still queued can be claimed.
  lemma SweepLeavesClaimable(db: Db, after: Db, now: nat, r: RunId)
    requires Swept(db, Stale(db), after, now) && r in after.runs && after.runs[r].status == RunQueued
    ensures Claimable(after, after.runs[r])
  {
    GuardsAgree(db, after, after.runs[r]);
    if r in db.runs {
      assert SweptRun(db, Stale(db), after, r);
    } else {
      var s :| s in Stale(db) && s in db.runs && ReplacementOf(db, db.runs[s], after, r, now);
      ReplacementClaimable(db, db.runs[s], now);
    }
  }

  // A queued run that can be claimed survives the sweep unchanged.
  lemma SweepKeepsClaimable(db: Db, after: Db, now: nat, r: RunId)
    requires Swept(db, Stale(db), after, now) && r in db.runs && Claimable(db, db.runs[r])
    ensures r in after.runs && after.runs[r] == db.runs[r]
  {
    assert SweptRun(db, Stale(db), after, r);
  }

  lemma OnlyPending(runs: map<RunId, Run>, r: RunId)
    requires OnePending(runs) && r in runs && Pending(runs[r])
    ensures forall k :: k in runs && runs[k].collection == runs[r].collection && Pending(runs[k]) ==> k == r
  {
  }

  lemma ReplacementAfter(db: Db, after: Db, now: nat, s: RunId) returns (r: RunId)
    requires Swept(db, Stale(db), after, now)
    requires s in db.runs && db.runs[s].status == RunQueued && Requeues(db, db.runs[s])
    ensures ReplacementOf(db, db.runs[s], after, r, now)
  {
    assert s in Stale(db);
    r :| ReplacementOf(db, db.runs[s], after, r, now);
  }

  // A rule change on a collection that stays eligible leaves exactly one queued run, at the new filter
  // revision, in place of the stale one.
  lemma FilterChangeRequeues(db: Db, after: Db, now: nat, s: RunId) returns (r: RunId)
    requires OnePending(db.runs) && Swept(db, Stale(db), after, now)
    requires s in db.runs && db.runs[s].status == RunQueued && FilterMoved(db, db.runs[s])
    requires Eligible(db, db.runs[s].collection) && !LiveMigration(db)
    ensures r in after.runs && after.runs[r] == Replacement(db, db.runs[s], now)
    ensures after.runs[r].filterRevision == after.collections[db.runs[s].collection].filterRevision
    ensures forall k :: k in after.runs && after.runs[k].collection == db.runs[s].collection && Pending(after.runs[k]) ==> k == r
  {
    r := ReplacementAfter(db, after, now, s);
    OnlyPending(after.runs, r);
  }

  predicate Sooner(a: Run, b: Run) {
    if a.trigger == Manual && b.trigger != Manual then true
    else if a.trigger != Manual && b.trigger == Manual then false
    else a.startedAt <= b.startedAt
  }

  method SoonestOf(runs: map<RunId, Run>, queued: set<RunId>) returns (best: RunId)
    requires queued != {} && queued <= runs.Keys
    ensures best in queued && forall r :: r in queued ==> Sooner(runs[best], runs[r])
  {
    best :| best in queued;
    var rest := queued - {best};
    while rest != {}
      invariant best in queued && rest <= queued
      invariant forall r :: r in queued && r !in rest ==> Sooner(runs[best], runs[r])
      decreases rest
    {
      var r :| r in rest;
      if !Sooner(runs[best], runs[r]) {
        best := r;
      }
      rest := rest - {r};
    }
  }

  // The sweep followed by the choice of one queued run: manual runs first, then the oldest.
  method ClaimSyncRun(store: Store, now: nat) returns (claimed: Option<RunId>, ghost swept: Db)
    requires OnePending(store.runs)
    modifies store
    ensures Swept(old(store.Rows()), Stale(old(store.Rows())), swept, now)
    ensures claimed.None? <==> forall r :: r in swept.runs ==> swept.runs[r].status != RunQueued
    ensures claimed.None? ==> store.Rows() == swept
    ensures claimed.Some? ==>
      && claimed.value in swept.runs && swept.runs[claimed.value].status == RunQueued
      && Claimable(swept, swept.runs[claimed.value])
      && store.Rows() == swept.(runs := swept.runs[claimed.value := swept.runs[claimed.value].(status := RunRunning, startedAt := now)])
      && forall r :: r in swept.runs && swept.runs[r].status == RunQueued ==> Sooner(swept.runs[claimed.value], swept.runs[r])
    ensures OnePending(store.runs)
  {
    ghost var before := store.Rows();
    SweepStaleRuns(store, now);
    swept := store.Rows();
    var queued := set r | r in store.runs && store.runs[r].status == RunQueued;
    if queued == {} {
      assert forall r :: r in swept.runs ==> r !in queued;
      return None, swept;
    }
    var best := SoonestOf(store.runs, queued);
    SweepLeavesClaimable(before, swept, now, best);
    store.runs := store.runs[best := store.runs[best].(status := RunRunning, startedAt := now)];
    return Some(best), swept;
  }

  // ---- Restart -----------------------------------------------------------------------------

  function Interrupted(runs: map<RunId, Run>): set<RunId> {
    set r | r in runs && runs[r].status == RunRunning
  }

  function FailRunning(runs: map<RunId, Run>): map<RunId, Run> {
    map r | r in runs :: if runs[r].status == RunRunning then runs[r].(status := RunFailed) else runs[r]
  }

  predicate Underway(status: MigrationStatus) {
    status in {MigrationValidating, Syncing, Applying}
  }

  function UnderwayMigrations(db: Db): set<MigrationId> {
    set m | m in db.migrations && Underway(db.migrations[m].status)
  }

  function RecoveredRun(run: Run, cancelled: set<MigrationId>): Run {
    if run.status == RunRunning then run.(status := RunFailed)
    else if run.migration.Some? && run.migration.value in cancelled && Unfinished(run) then run.(status := RunSuperseded)
    else run
  }

  // The observations that survive: not those of an interrupted run, nor of a cancelled migration.
  predicate ObservationKept(db: Db, cancelled: set<MigrationId>, r: RunId) {
    && r in db.observed && r !in Interrupted(db.runs)
    && !(r in db.runs && db.runs[r].migration.Some? && db.runs[r].migration.value in cancelled)
  }

  // What a restart leaves: running runs failed with their observations dropped, migrations under way
  // failed with their runs withdrawn, and every other table as it was.
  ghost predicate RecoveredRows(db: Db, cancelled: set<MigrationId>, after: Db) {
    && after.source == db.source && after.collections == db.collections && after.projects == db.projects
    && after.items == db.items && after.documents == db.documents && after.indexes == db.indexes && after.jobs == db.jobs
    && after.runs.Keys == db.runs.Keys && after.migrations.Keys == db.migrations.Keys
    && (forall r :: r in db.runs ==> after.runs[r] == RecoveredRun(db.runs[r], cancelled))
    && (forall m :: m in db.migrations ==>
          after.migrations[m] == (if m in cancelled then db.migrations[m].(status := MigrationFailed) else db.migrations[m]))
    && (forall r :: r in after.observed <==> ObservationKept(db, cancelled, r))
    && (forall r :: r in after.observed ==> after.observed[r] == db.observed[r])
  }

  lemma CancelNextRuns(db: Db, cancelled: set<MigrationId>, before: Db, m: MigrationId)
    requires RecoveredRows(db, cancelled, before) && m in db.migrations
    ensures var after := WithdrawMigrationRuns(before.runs, m);
      after.Keys == db.runs.Keys && forall r :: r in db.runs ==> after[r] == RecoveredRun(db.runs[r], cancelled + {m})
  {
    forall r | r in db.runs ensures WithdrawMigrationRuns(before.runs, m)[r] == RecoveredRun(db.runs[r], cancelled + {m}) {
      assert before.runs[r] == RecoveredRun(db.runs[r], cancelled);
    }
  }

  lemma CancelNextObserved(db: Db, cancelled: set<MigrationId>, before: Db, m: MigrationId)
    requires RecoveredRows(db, cancelled, before) && m in db.migrations
    ensures var after := before.observed - RunsOf(before.runs, m);
      && (forall r :: r in after <==> ObservationKept(db, cancelled + {m}, r))
      && forall r :: r in after ==> after[r] == db.observed[r]
  {
    forall r ensures r in before.observed - RunsOf(before.runs, m) <==> ObservationKept(db, cancelled + {m}, r) {
      assert r in before.observed <==> ObservationKept(db, cancelled, r);
      if r in db.runs { assert before.runs[r] == RecoveredRun(db.runs[r], cancelled); }
    }
  }

  lemma CancelNext(db: Db, cancelled: set<MigrationId>, before: Db, m: MigrationId)
    requires RecoveredRows(db, cancelled, before) && m in db.migrations && m !in cancelled && Underway(db.migrations[m].status)
    ensures RecoveredRows(db, cancelled + {m}, CancelMigration(before, m, true))
  {
    assert before.migrations[m] == db.migrations[m];
    CancelNextRuns(db, cancelled, before, m);
    CancelNextObserved(db, cancelled, before, m);
  }

  method RecoverAbandonedWork(store: Store)
    modifies store
    ensures RecoveredRows(old(store.Rows()), UnderwayMigrations(old(store.Rows())), store.Rows())
  {
    ghost var before := store.Rows();
    store.observed := store.observed - Interrupted(store.runs);
    store.runs := FailRunning(store.runs);
    var left := UnderwayMigrations(store.Rows());
    ghost var cancelled: set<MigrationId> := {};
    while left != {}
      invariant left + cancelled == UnderwayMigrations(before) && left !! cancelled
      invariant RecoveredRows(before, cancelled, store.Rows())
      decreases left
    {
      var m :| m in left;
      CancelNext(before, cancelled, store.Rows(), m);
      CancelMigrationRow(store, m, true);
      left := left - {m};
      cancelled := cancelled + {m};
    }
  }
}
