/**
 Changing the exclusion rules of a collection (web/lib/repos/source-exclusion-store.ts): the filter
 revision moves and a synchronization is queued, or the pending one takes the change over.
 */
module FilterChanges {

  import opened Outcome
  import opened Corpus
  import opened SourceSteps
  import opened SourceWorker
  import opened SyncRuns

  predicate Synchronizes(db: Db, c: CollectionId) {
    && c in db.collections && !db.collections[c].deleted && db.source.state == SourceActive
    && db.collections[c].selected && db.collections[c].valid && db.collections[c].registered
  }

  function Rearmed(db: Db, run: Run): Run
    requires run.collection in db.collections
  {
    if run.status == RunQueued then
      run.(configRevision := db.source.configRevision, filterRevision := db.collections[run.collection].filterRevision, trigger := FilterChange)
    else run.(followUp := true)
  }

  function FilterRun(db: Db, c: CollectionId, now: nat): Run
    requires c in db.collections
  {
    Run(c, None, db.source.configRevision, db.collections[c].filterRevision, FilterChange, RunQueued, false, now)
  }

  ghost predicate PendingFor(runs: map<RunId, Run>, c: CollectionId, r: RunId) {
    r in runs && runs[r].collection == c && Pending(runs[r])
  }

  // The pending run takes the change over; without one a new run is queued.
  ghost predicate FilterSynced(db: Db, c: CollectionId, now: nat, after: Db) {
    if !Synchronizes(db, c) then after == db
    else if HasPendingRun(db.runs, c) then
      exists r :: PendingFor(db.runs, c, r) && after == db.(runs := db.runs[r := Rearmed(db, db.runs[r])])
    else after == db.(runs := db.runs[Above(db.runs.Keys) := FilterRun(db, c, now)])
  }

  function Ruled(db: Db, c: CollectionId, rules: Exclusions): Db
    requires c in db.collections
  {
    var collection := db.collections[c];
    db.(collections := db.collections[c := collection.(rules := rules, filterRevision := collection.filterRevision + 1)])
  }

  method QueueFilterSync(store: Store, c: CollectionId, now: nat)
    modifies store`runs
    ensures FilterSynced(old(store.Rows()), c, now, store.Rows())
  {
    if !Synchronizes(store.Rows(), c) {
      return;
    }
    if HasPendingRun(store.runs, c) {
      var r :| r in store.runs && store.runs[r].collection == c && Pending(store.runs[r]);
      assert PendingFor(store.runs, c, r);
      store.runs := store.runs[r := Rearmed(store.Rows(), store.runs[r])];
      return;
    }
    store.runs := store.runs[Above(store.runs.Keys) := FilterRun(store.Rows(), c, now)];
  }

  method ChangeRules(store: Store, c: CollectionId, rules: Exclusions, now: nat)
    requires c in store.collections
    modifies store`collections, store`runs
    ensures FilterSynced(Ruled(old(store.Rows()), c, rules), c, now, store.Rows())
  {
    var collection := store.collections[c];
    store.collections := store.collections[c := collection.(rules := rules, filterRevision := collection.filterRevision + 1)];
    QueueFilterSync(store, c, now);
  }

  ghost predicate InService(db: Db, c: CollectionId)
    requires c in db.collections
  {
    && db.source.state == SourceActive && !db.collections[c].deleted
    && db.collections[c].selected && db.collections[c].valid && db.collections[c].registered
  }

  // The rules are written and the revision moves by one.
  lemma RulesWritten(db: Db, c: CollectionId, rules: Exclusions, now: nat, after: Db)
    requires c in db.collections && FilterSynced(Ruled(db, c, rules), c, now, after)
    ensures after == db.(collections := after.collections, runs := after.runs)
    ensures after.collections == db.collections[c := db.collections[c].(rules := rules, filterRevision := db.collections[c].filterRevision + 1)]
  {
    OnlyRunsSynced(Ruled(db, c, rules), c, now, after);
  }

  lemma OnlyRunsSynced(ruled: Db, c: CollectionId, now: nat, after: Db)
    requires FilterSynced(ruled, c, now, after)
    ensures after == ruled.(runs := after.runs)
  {
    if Synchronizes(ruled, c) && HasPendingRun(ruled.runs, c) {
      var r :| PendingFor(ruled.runs, c, r) && after == ruled.(runs := ruled.runs[r := Rearmed(ruled, ruled.runs[r])]);
    }
  }

  // The change reaches the runs if and only if source and collection are in service: the pending run is asked to
  // carry it, and without one a run is queued.
  lemma ChangeReaches(db: Db, c: CollectionId, rules: Exclusions, now: nat, after: Db)
    requires c in db.collections && FilterSynced(Ruled(db, c, rules), c, now, after)
    ensures if !InService(db, c) then after.runs == db.runs
            else if HasPendingRun(db.runs, c) then exists r :: PendingFor(db.runs, c, r) && after.runs == db.runs[r := Carrying(db, c, db.runs[r])]
            else exists r: RunId :: r !in db.runs && after.runs == db.runs[r := NewFor(db, c, now)]
  {
    var ruled := Ruled(db, c, rules);
    assert Synchronizes(ruled, c) <==> InService(db, c);
    if InService(db, c) {
      if HasPendingRun(ruled.runs, c) { Carried(db, c, ruled, now, after); } else { Added(db, c, ruled, now, after); }
    }
  }

  lemma Carried(db: Db, c: CollectionId, ruled: Db, now: nat, after: Db)
    requires c in db.collections && c in ruled.collections && ruled == db.(collections := ruled.collections)
    requires ruled.collections[c].filterRevision == db.collections[c].filterRevision + 1
    requires FilterSynced(ruled, c, now, after) && Synchronizes(ruled, c) && HasPendingRun(ruled.runs, c)
    ensures exists r :: PendingFor(db.runs, c, r) && after.runs == db.runs[r := Carrying(db, c, db.runs[r])]
  {
    var r :| PendingFor(ruled.runs, c, r) && after == ruled.(runs := ruled.runs[r := Rearmed(ruled, ruled.runs[r])]);
    assert Rearmed(ruled, ruled.runs[r]) == Carrying(db, c, db.runs[r]);
  }

  lemma Added(db: Db, c: CollectionId, ruled: Db, now: nat, after: Db)
    requires c in db.collections && c in ruled.collections && ruled == db.(collections := ruled.collections)
    requires ruled.collections[c].filterRevision == db.collections[c].filterRevision + 1
    requires FilterSynced(ruled, c, now, after) && Synchronizes(ruled, c) && !HasPendingRun(ruled.runs, c)
    ensures exists r: RunId :: r !in db.runs && after.runs == db.runs[r := NewFor(db, c, now)]
  {
    var r := Above(db.runs.Keys);
    assert r !in db.runs && after.runs == db.runs[r := NewFor(db, c, now)];
  }

  function NewFor(db: Db, c: CollectionId, now: nat): Run
    requires c in db.collections
  {
    Run(c, None, db.source.configRevision, db.collections[c].filterRevision + 1, FilterChange, RunQueued, false, now)
  }

  // A queued run is set to the present configuration and the new rules, and one that runs is followed up.
  function Carrying(db: Db, c: CollectionId, run: Run): Run
    requires c in db.collections
  {
    if run.status == RunQueued
    then run.(configRevision := db.source.configRevision, filterRevision := db.collections[c].filterRevision + 1, trigger := FilterChange)
    else run.(followUp := true)
  }

  // Exactly one run of the collection is pending: it is queued for the present rules, and claimable.
  ghost predicate OneQueuedAtPresent(db: Db, c: CollectionId, r: RunId) {
    && r in db.runs && db.runs[r].collection == c && db.runs[r].status == RunQueued
    && c in db.collections && db.runs[r].filterRevision == db.collections[c].filterRevision
    && db.runs[r].configRevision == db.source.configRevision
    && forall k :: k in db.runs && db.runs[k].collection == c && Pending(db.runs[k]) ==> k == r
  }

  // No run is ahead of the rules of its collection.
  ghost predicate NoneAhead(db: Db) {
    forall r :: r in db.runs && db.runs[r].collection in db.collections ==>
      db.runs[r].filterRevision <= db.collections[db.runs[r].collection].filterRevision
  }

  lemma TakenOver(ruled: Db, c: CollectionId, r: RunId, after: Db)
    requires OnePending(ruled.runs) && NoneAhead(ruled) && PendingFor(ruled.runs, c, r) && c in ruled.collections
    requires after == ruled.(runs := ruled.runs[r := Rearmed(ruled, ruled.runs[r])])
    ensures OnePending(after.runs) && PendingFor(after.runs, c, r)
    ensures after.runs[r].status == RunQueued ==> OneQueuedAtPresent(after, c, r)
    ensures after.runs[r].status == RunRunning ==> after.runs[r] == ruled.runs[r].(followUp := true)
  {
  }

  lemma NewlyQueued(ruled: Db, c: CollectionId, now: nat, after: Db)
    requires OnePending(ruled.runs) && !HasPendingRun(ruled.runs, c) && c in ruled.collections
    requires after == ruled.(runs := ruled.runs[Above(ruled.runs.Keys) := FilterRun(ruled, c, now)])
    ensures OnePending(after.runs) && OneQueuedAtPresent(after, c, Above(ruled.runs.Keys))
  {
  }

  lemma BumpedFilter(db: Db, c: CollectionId, rules: Exclusions, r: RunId)
    requires NoneAhead(db) && c in db.collections && PendingFor(db.runs, c, r)
    ensures NoneAhead(Ruled(db, c, rules)) && db.runs[r].filterRevision < Ruled(db, c, rules).collections[c].filterRevision
  {
  }

  ghost predicate GivingWay(db: Db, c: CollectionId, r: RunId) {
    && r in db.runs && c in db.collections && db.runs[r].collection == c
    && db.runs[r].followUp && db.runs[r].filterRevision < db.collections[c].filterRevision
  }

  lemma SyncedRun(db: Db, c: CollectionId, rules: Exclusions, now: nat, after: Db) returns (r: RunId)
    requires OnePending(db.runs) && NoneAhead(db) && c in db.collections
    requires FilterSynced(Ruled(db, c, rules), c, now, after) && Synchronizes(Ruled(db, c, rules), c)
    ensures OnePending(after.runs) && PendingFor(after.runs, c, r)
    ensures after.runs[r].status == RunQueued ==> OneQueuedAtPresent(after, c, r)
    ensures after.runs[r].status == RunRunning ==> GivingWay(after, c, r)
  {
    var ruled := Ruled(db, c, rules);
    if HasPendingRun(ruled.runs, c) {
      var k :| PendingFor(ruled.runs, c, k) && after == ruled.(runs := ruled.runs[k := Rearmed(ruled, ruled.runs[k])]);
      r := k;
      BumpedFilter(db, c, rules, r);
      TakenOver(ruled, c, r, after);
    } else {
      r := Above(ruled.runs.Keys);
      NewlyQueued(ruled, c, now, after);
    }
  }

  lemma StillSynchronizes(db: Db, c: CollectionId, now: nat, after: Db)
    requires FilterSynced(db, c, now, after) && Eligible(after, c)
    ensures Synchronizes(db, c)
  {
    if HasPendingRun(db.runs, c) && Synchronizes(db, c) {
      var k :| PendingFor(db.runs, c, k) && after == db.(runs := db.runs[k := Rearmed(db, db.runs[k])]);
    }
  }

  // A rule change on a collection that is still eligible, with no live migration, leaves exactly one
  // pending run. A queued one is at the new rules, and an ordinary one can be claimed. A running one is
  // asked to be followed up and is no longer current, so that it gives way at its next transaction.
  lemma FilterChangeReaches(db: Db, c: CollectionId, rules: Exclusions, now: nat, after: Db) returns (r: RunId)
    requires OnePending(db.runs) && NoneAhead(db) && c in db.collections
    requires FilterSynced(Ruled(db, c, rules), c, now, after) && Eligible(after, c) && !LiveMigration(after)
    ensures OnePending(after.runs) && PendingFor(after.runs, c, r)
    ensures after.runs[r].status == RunQueued ==>
      OneQueuedAtPresent(after, c, r) && (after.runs[r].migration.None? ==> Claimable(after, after.runs[r]))
    ensures after.runs[r].status == RunRunning ==> GivingWay(after, c, r) && !Current(after, after.runs[r])
  {
    StillSynchronizes(Ruled(db, c, rules), c, now, after);
    r := SyncedRun(db, c, rules, now, after);
  }

  // The running run gives way to exactly one run queued for the present rules if and only if the
  // configuration it was claimed for still stands.
  lemma RunningGivesWay(db: Db, c: CollectionId, r: RunId, now: nat)
    requires OnePending(db.runs) && PendingFor(db.runs, c, r) && Eligible(db, c) && !LiveMigration(db)
    requires db.runs[r].filterRevision != db.collections[c].filterRevision
    ensures (exists k :: OneQueuedAtPresent(Supersede(db, r, now), c, k)) <==> db.runs[r].configRevision == db.source.configRevision
  {
    var run := db.runs[r];
    var withdrawn := db.(runs := db.runs[r := SourceSteps.Withdrawn(run)], observed := db.observed - {r});
    assert !HasPendingRun(withdrawn.runs, c);
    assert LiveMigration(withdrawn) == LiveMigration(db) && Eligible(withdrawn, c) == Eligible(db, c);
    var after := Supersede(db, r, now);
    if run.configRevision == db.source.configRevision {
      assert OneQueuedAtPresent(after, c, Above(withdrawn.runs.Keys));
    } else {
      assert after == withdrawn;
    }
  }
}
