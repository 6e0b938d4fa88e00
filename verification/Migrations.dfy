/**
 Endpoint migration (services/source_worker/engine.py): the target is scanned beside the live library,
 checked, and switched to in one transaction, or left without a trace.
 */
module Migrations {

  import opened Outcome
  import opened Corpus
  import opened Reconciliation
  import opened SourceSteps
  import opened SourceWorker
  import opened SyncRuns

  // ---- Applying ----------------------------------------------------------------------------

  // The scanned runs of a migration, each once.
  ghost predicate ListsScanned(db: Db, m: MigrationId, order: seq<RunId>) {
    && (forall i, j :: 0 <= i < j < |order| ==> order[i] != order[j])
    && forall r :: r in order <==> r in ScannedRuns(db, m)
  }

  function ScannedRuns(db: Db, m: MigrationId): set<RunId> {
    set r | r in db.runs && db.runs[r].migration == Some(m) && db.runs[r].status == RunScanned
  }

  method Restore(store: Store, rows: Db)
    modifies store
    ensures store.Rows() == rows
  {
    store.source, store.collections, store.projects, store.migrations := rows.source, rows.collections, rows.projects, rows.migrations;
    store.runs, store.observed, store.items, store.documents := rows.runs, rows.observed, rows.items, rows.documents;
    store.indexes, store.jobs := rows.indexes, rows.jobs;
  }

  method CloseScanRows(store: Store, pass: Pass)
    requires pass.run in store.runs && ParentsShorter(store.items)
    modifies store`documents, store`items, store`projects, store`runs, store`observed
    ensures store.Rows() == CloseScan(old(store.Rows()), pass)
    ensures ParentsShorter(store.items)
  {
    store.documents := RemoveDocuments(store.Rows(), pass);
    store.items := MarkMissing(store.items, pass);
    store.projects := OpenProject(store.projects, pass.collection);
    store.runs := store.runs[pass.run := store.runs[pass.run].(status := RunCompleted)];
    store.observed := store.observed - {pass.run};
  }

  method ReconcileScan(store: Store, pass: Pass, config: nat, seen: Scan)
    requires pass.run in store.runs && ParentsShorter(store.items) && ScanShorter(seen)
    modifies store
    ensures pass.run in ReconcileMany(old(store.Rows()), pass, config, seen, InOrder(seen, seen.Keys), true).runs
    ensures store.Rows() == CloseScan(ReconcileMany(old(store.Rows()), pass, config, seen, InOrder(seen, seen.Keys), true), pass)
    ensures ParentsShorter(store.items)
  {
    ManyFrame(store.Rows(), pass, config, seen, InOrder(seen, seen.Keys), true);
    ReconcileRows(store, pass, config, seen, InOrder(seen, seen.Keys), true);
    CloseScanRows(store, pass);
  }

  // One scanned run: its observations reconciled with the indexes kept, then closed.
  method ApplyScannedRun(store: Store, r: RunId) returns (applied: bool)
    requires r in store.runs && ParentsShorter(store.items) && ScanShorter(ScanOf(store.Rows(), r))
    modifies store
    ensures applied <==> ApplyRun(old(store.Rows()), r).Returned?
    ensures applied ==> store.Rows() == ApplyRun(old(store.Rows()), r).value
    ensures applied ==> ParentsShorter(store.items)
  {
    var run := store.runs[r];
    if run.collection !in store.collections {
      return true;
    }
    var seen := ScanOf(store.Rows(), r);
    if run.collection !in store.projects && exists id :: id in seen && seen[id].isDocument {
      return false;
    }
    var pass := PassOf(store.Rows(), r, store.collections[run.collection].rules);
    ghost var reconciled, own := ApplyRunIs(store.Rows(), r);
    ReconcileScan(store, pass, run.configRevision, seen);
    return true;
  }

  // A document that has no project to go to raises.
  predicate RunRaises(db: Db, r: RunId)
    requires r in db.runs
  {
    && db.runs[r].collection in db.collections && db.runs[r].collection !in db.projects
    && exists id :: id in ScanOf(db, r) && ScanOf(db, r)[id].isDocument
  }

  lemma RaisesExactly(db: Db, r: RunId)
    requires r in db.runs
    ensures ApplyRun(db, r).Raised? <==> RunRaises(db, r)
  {
  }

  // What keeps a scanned migration from being applied.
  ghost predicate Obstructed(db: Db, m: MigrationId)
    requires m in db.migrations
  {
    || db.source.configRevision != db.migrations[m].sourceConfigRevision
    || exists r :: r in ScannedRuns(db, m) && RunRaises(db, r)
  }

  // An applied run is its reconciliation, closed.
  lemma ApplyRunIs(db: Db, r: RunId) returns (reconciled: Db, pass: Pass)
    requires r in db.runs && ApplyRun(db, r).Returned? && db.runs[r].collection in db.collections
    ensures pass == PassOf(db, r, db.collections[db.runs[r].collection].rules)
    ensures SameFrame(db, reconciled) && ApplyRun(db, r).value == CloseScan(reconciled, pass)
    ensures reconciled == ReconcileMany(db, pass, db.runs[r].configRevision, ScanOf(db, r), InOrder(ScanOf(db, r), ScanOf(db, r).Keys), true)
  {
    var run, seen := db.runs[r], ScanOf(db, r);
    pass := PassOf(db, r, db.collections[run.collection].rules);
    ManyFrame(db, pass, run.configRevision, seen, InOrder(seen, seen.Keys), true);
    reconciled := ReconcileMany(db, pass, run.configRevision, seen, InOrder(seen, seen.Keys), true);
    assert reconciled.(runs := db.runs) == reconciled;
  }

  lemma ApplyRunKeeps(db: Db, r: RunId)
    requires r in db.runs && ApplyRun(db, r).Returned?
    ensures var after := ApplyRun(db, r).value;
      && after.source == db.source && after.migrations == db.migrations && after.collections == db.collections
      && after.projects.Keys == db.projects.Keys && after.runs.Keys == db.runs.Keys
      && (forall k :: k in db.runs && k != r ==> after.runs[k] == db.runs[k])
      && (forall k :: k != r ==> ScanOf(after, k) == ScanOf(db, k))
  {
    if db.runs[r].collection in db.collections {
      var reconciled, pass := ApplyRunIs(db, r);
      ClosedKeeps(db, reconciled, pass);
    }
  }

  lemma ClosedKeeps(db: Db, reconciled: Db, pass: Pass)
    requires SameFrame(db, reconciled) && pass.run in db.runs
    ensures var after := CloseScan(reconciled, pass);
      && after.source == db.source && after.migrations == db.migrations && after.collections == db.collections
      && after.projects.Keys == db.projects.Keys && after.runs.Keys == db.runs.Keys
      && (forall k :: k in db.runs && k != pass.run ==> after.runs[k] == db.runs[k])
      && (forall k :: k != pass.run ==> ScanOf(after, k) == ScanOf(db, k))
  {
    CloseScanKeepsOthers(reconciled, pass);
  }

  lemma CloseScanKeepsOthers(db: Db, pass: Pass)
    requires pass.run in db.runs
    ensures var after := CloseScan(db, pass);
      && after.source == db.source && after.migrations == db.migrations && after.collections == db.collections
      && after.projects.Keys == db.projects.Keys
      && after.runs == db.runs[pass.run := db.runs[pass.run].(status := RunCompleted)]
      && forall k :: k != pass.run ==> ScanOf(after, k) == ScanOf(db, k)
  {
  }

  lemma {:induction false} ApplyRunsSnoc(db: Db, runs: seq<RunId>, r: RunId)
    ensures ApplyRuns(db, runs + [r]) ==
      match ApplyRuns(db, runs)
      case Raised => Raised
      case Returned(next) => if r in next.runs then ApplyRun(next, r) else Raised
    decreases |runs|
  {
    if runs == [] {
      assert [] + [r] == [r] && [r][1..] == [];
    } else {
      assert (runs + [r])[0] == runs[0] && (runs + [r])[1..] == runs[1..] + [r];
      if runs[0] in db.runs && ApplyRun(db, runs[0]).Returned? {
        ApplyRunsSnoc(ApplyRun(db, runs[0]).value, runs[1..], r);
      }
    }
  }

  ghost predicate Applying(saved: Db, m: MigrationId, order: seq<RunId>, left: set<RunId>, rows: Db) {
    && ApplyRuns(saved, order) == Returned(rows)
    && left <= ScannedRuns(saved, m)
    && (forall r :: r in order <==> r in ScannedRuns(saved, m) - left)
    && (forall i, j :: 0 <= i < j < |order| ==> order[i] != order[j])
    && rows.source == saved.source && rows.migrations == saved.migrations && rows.runs.Keys == saved.runs.Keys
    && rows.collections == saved.collections && rows.projects.Keys == saved.projects.Keys
    && (forall r :: r in left ==> rows.runs[r] == saved.runs[r] && ScanOf(rows, r) == ScanOf(saved, r))
    && forall r :: r in ScannedRuns(saved, m) - left ==> !RunRaises(saved, r)
  }

  lemma ApplyNext(saved: Db, m: MigrationId, order: seq<RunId>, left: set<RunId>, rows: Db, r: RunId)
    requires Applying(saved, m, order, left, rows) && r in left && r in rows.runs && ApplyRun(rows, r).Returned?
    ensures Applying(saved, m, order + [r], left - {r}, ApplyRun(rows, r).value)
  {
    ApplyRunsSnoc(saved, order, r);
    ApplyRunKeeps(rows, r);
    RaisesAlike(saved, m, order, left, rows, r);
  }

  lemma RaisesAlike(saved: Db, m: MigrationId, order: seq<RunId>, left: set<RunId>, rows: Db, r: RunId)
    requires Applying(saved, m, order, left, rows) && r in left && r in rows.runs
    ensures ApplyRun(rows, r).Raised? <==> RunRaises(saved, r)
  {
    RaisesExactly(rows, r);
  }

  method ApplyScannedRuns(store: Store, m: MigrationId) returns (applied: bool, ghost order: seq<RunId>)
    requires ParentsShorter(store.items) && forall r :: r in ScannedRuns(store.Rows(), m) ==> ScanShorter(ScanOf(store.Rows(), r))
    modifies store
    ensures applied ==> ListsScanned(old(store.Rows()), m, order) && ApplyRuns(old(store.Rows()), order) == Returned(store.Rows())
    ensures applied <==> forall r :: r in ScannedRuns(old(store.Rows()), m) ==> !RunRaises(old(store.Rows()), r)
  {
    ghost var saved := store.Rows();
    order := [];
    var left := ScannedRuns(store.Rows(), m);
    while left != {}
      invariant Applying(saved, m, order, left, store.Rows())
      invariant ParentsShorter(store.items)
      decreases left
    {
      var r :| r in left;
      ghost var before := store.Rows();
      var ok := ApplyScannedRun(store, r);
      RaisesAlike(saved, m, order, left, before, r);
      if !ok {
        return false, order;
      }
      ApplyNext(saved, m, order, left, before, r);
      order := order + [r];
      left := left - {r};
    }
    return true, order;
  }

  // The application in one transaction: every scanned run and the switch, or nothing.
  method ApplyMigrationRows(store: Store, m: MigrationId) returns (applied: bool, ghost order: seq<RunId>)
    requires m in store.migrations
    requires ParentsShorter(store.items) && forall r :: r in ScannedRuns(store.Rows(), m) ==> ScanShorter(ScanOf(store.Rows(), r))
    modifies store
    ensures applied ==> ListsScanned(old(store.Rows()), m, order)
    ensures applied ==> ApplyMigration(old(store.Rows()), m, order) == Returned(store.Rows())
    ensures !applied ==> store.Rows() == old(store.Rows())
    ensures applied <==> !Obstructed(old(store.Rows()), m)
  {
    var saved := store.Rows();
    applied, order := ApplyScannedRuns(store, m);
    if applied {
      ApplyRunsKeep(saved, order);
    }
    if !applied || store.source.configRevision != store.migrations[m].sourceConfigRevision {
      Restore(store, saved);
      return false, order;
    }
    SwitchRows(store, m);
  }

  method SwitchRows(store: Store, m: MigrationId)
    requires m in store.migrations
    modifies store
    ensures store.Rows() == SwitchSource(old(store.Rows()), m)
  {
    var migration := store.migrations[m];
    var next := store.source.configRevision + 1;
    store.source := store.source.(scope := migration.targetScope, config := migration.targetConfig,
                                  credentials := migration.credentials, configRevision := next);
    store.documents := map k | k in store.documents :: store.documents[k].(expectedConfig := next);
    store.jobs := map j | j in store.jobs :: if store.jobs[j].status == JobQueued then store.jobs[j].(config := next) else store.jobs[j];
    store.migrations := store.migrations[m := migration.(status := MigrationCompleted)];
  }

  // ---- The decision ------------------------------------------------------------------------

  datatype Decision = NotReady | Rejected | Applied | Aborted

  method MaybeApplyMigration(store: Store, m: MigrationId) returns (decision: Decision, ghost order: seq<RunId>)
    requires ParentsShorter(store.items) && forall r :: r in ScannedRuns(store.Rows(), m) ==> ScanShorter(ScanOf(store.Rows(), r))
    modifies store
    ensures Decided(old(store.Rows()), m, decision, order, store.Rows())
  {
    order := [];
    if m !in store.migrations || store.migrations[m].status != Syncing {
      return NotReady, order;
    }
    var live := LiveRunsOf(store.runs, m);
    if live == {} || exists r :: r in live && store.runs[r].status != RunScanned {
      return NotReady, order;
    }
    if RequiresConfirmation(store.Rows(), m) && !store.migrations[m].allowRisk {
      store.migrations := store.migrations[m := store.migrations[m].(status := MigrationFailed)];
      store.observed := store.observed - RunsOf(store.runs, m);
      store.runs := WithdrawMigrationRuns(store.runs, m);
      return Rejected, order;
    }
    var applied;
    applied, order := ApplyMigrationRows(store, m);
    return if applied then Applied else Aborted, order;
  }

  ghost predicate Ready(db: Db, m: MigrationId) {
    m in db.migrations && db.migrations[m].status == Syncing && AllScanned(db, m)
  }

  ghost predicate Decided(db: Db, m: MigrationId, decision: Decision, order: seq<RunId>, after: Db) {
    match decision
    case NotReady => !Ready(db, m) && after == db
    case Rejected => Ready(db, m) && RequiresConfirmation(db, m) && !db.migrations[m].allowRisk && after == RejectMigration(db, m)
    case Applied =>
      && Ready(db, m) && (RequiresConfirmation(db, m) ==> db.migrations[m].allowRisk) && !Obstructed(db, m)
      && ListsScanned(db, m, order) && ApplyMigration(db, m, order) == Returned(after)
    case Aborted =>
      Ready(db, m) && (RequiresConfirmation(db, m) ==> db.migrations[m].allowRisk) && Obstructed(db, m) && after == db
  }

  // ---- All or nothing ----------------------------------------------------------------------

  ghost predicate LibraryUntouched(db: Db, after: Db) {
    && after.source == db.source && after.items == db.items && after.documents == db.documents
    && after.indexes == db.indexes && after.jobs == db.jobs && after.projects == db.projects && after.collections == db.collections
  }

  ghost predicate Switched(db: Db, m: MigrationId, after: Db)
    requires m in db.migrations
  {
    && after.source == db.source.(scope := db.migrations[m].targetScope, config := db.migrations[m].targetConfig,
                                  credentials := db.migrations[m].credentials, configRevision := db.source.configRevision + 1)
    && m in after.migrations && after.migrations[m].status == MigrationCompleted
    && (forall k :: k in after.documents ==> after.documents[k].expectedConfig == after.source.configRevision)
    && (forall j :: j in after.jobs && after.jobs[j].status == JobQueued ==> after.jobs[j].config == after.source.configRevision)
  }

  lemma {:induction false} ApplyRunsKeep(db: Db, runs: seq<RunId>)
    requires ApplyRuns(db, runs).Returned?
    ensures var after := ApplyRuns(db, runs).value; after.source == db.source && after.migrations == db.migrations && after.collections == db.collections
    decreases |runs|
  {
    if runs != [] {
      ApplyRunKeeps(db, runs[0]);
      ApplyRunsKeep(ApplyRun(db, runs[0]).value, runs[1..]);
    }
  }

  // ---- The check of the target -----------------------------------------------------------------

  // Two libraries that are both known, share ids, and share half of either or more.
  ghost predicate Resembles(known: set<ExternalId>, scanned: set<ExternalId>) {
    && known != {} && scanned != {} && (exists id :: id in known && id in scanned)
    && 2 * |known * scanned| >= |known| && 2 * |known * scanned| >= |scanned|
  }

  // Every run of the migration that is not done, of a collection that is there, has scanned what resembles
  // the collection's items that are neither missing, nor revoked, nor excluded.
  ghost predicate TargetResembles(db: Db, m: MigrationId) {
    forall r :: r in db.runs && db.runs[r].migration == Some(m) && db.runs[r].status in {RunQueued, RunRunning, RunScanned} ==>
      RunResembles(db, r)
  }

  ghost predicate RunResembles(db: Db, r: RunId)
    requires r in db.runs
  {
    db.runs[r].collection in db.collections ==>
      Resembles(PresentIds(db, db.runs[r].collection), ScanOf(db, r).Keys)
  }

  ghost function PresentIds(db: Db, c: CollectionId): set<ExternalId> {
    set k | k in db.items && db.items[k].collection == c && db.items[k].lifecycle in {ItemActive, ItemUnsupported, ItemOversized}
  }

  lemma DoubtfulExactly(known: set<ExternalId>, scanned: set<ExternalId>)
    ensures Doubtful(known, scanned) <==> !Resembles(known, scanned)
  {
    if id :| id in known && id in scanned {
      assert id in known * scanned;
    }
    if known * scanned != {} {
      var id :| id in known * scanned;
      assert id in known && id in scanned;
    }
  }

  lemma PresentAre(db: Db, c: CollectionId)
    ensures KnownIds(db, c) == PresentIds(db, c)
  {
    forall k | k in db.items
      ensures db.items[k].lifecycle !in {ItemMissing, ItemAccessRevoked, ItemExcluded}
         <==> db.items[k].lifecycle in {ItemActive, ItemUnsupported, ItemOversized}
    {
      var state := db.items[k].lifecycle;
      assert state.ItemActive? || state.ItemExcluded? || state.ItemMissing? || state.ItemUnsupported? || state.ItemOversized? || state.ItemAccessRevoked?;
    }
  }

  lemma ConfirmationExactly(db: Db, m: MigrationId)
    ensures RequiresConfirmation(db, m) <==> !TargetResembles(db, m)
  {
    forall r | r in db.runs && db.runs[r].collection in db.collections
      ensures Doubtful(KnownIds(db, db.runs[r].collection), ScanOf(db, r).Keys) <==> !RunResembles(db, r)
    {
      DoubtfulExactly(KnownIds(db, db.runs[r].collection), ScanOf(db, r).Keys);
      PresentAre(db, db.runs[r].collection);
    }
    if RequiresConfirmation(db, m) {
      var r :| r in LiveRunsOf(db.runs, m) && db.runs[r].collection in db.collections
               && Doubtful(KnownIds(db, db.runs[r].collection), ScanOf(db, r).Keys);
      assert !RunResembles(db, r);
    }
    if !TargetResembles(db, m) {
      var r :| r in db.runs && db.runs[r].migration == Some(m) && db.runs[r].status in {RunQueued, RunRunning, RunScanned} && !RunResembles(db, r);
      assert r in LiveRunsOf(db.runs, m);
    }
  }

  // A migration that is ready, and nobody has confirmed, is rejected if and only if its target does not
  // resemble the known library.
  lemma RejectedExactly(db: Db, m: MigrationId, decision: Decision, order: seq<RunId>, after: Db)
    requires Decided(db, m, decision, order, after) && decision != NotReady
    ensures decision == Rejected <==> !db.migrations[m].allowRisk && !TargetResembles(db, m)
  {
    ConfirmationExactly(db, m);
  }

  // It is ready if and only if it is under way and its runs, of which there are some, have all been scanned.
  lemma NotReadyExactly(db: Db, m: MigrationId, decision: Decision, order: seq<RunId>, after: Db)
    requires Decided(db, m, decision, order, after)
    ensures decision != NotReady <==>
      && m in db.migrations && db.migrations[m].status == Syncing
      && (exists r :: r in db.runs && db.runs[r].migration == Some(m) && db.runs[r].status == RunScanned)
      && forall r :: r in db.runs && db.runs[r].migration == Some(m) ==> db.runs[r].status !in {RunQueued, RunRunning}
  {
    if m in db.migrations && db.migrations[m].status == Syncing {
      if LiveRunsOf(db.runs, m) != {} {
        var r :| r in LiveRunsOf(db.runs, m);
        assert r in db.runs && db.runs[r].migration == Some(m);
      }
      forall r | r in db.runs && db.runs[r].migration == Some(m)
        ensures r in LiveRunsOf(db.runs, m) <==> db.runs[r].status in {RunQueued, RunRunning, RunScanned}
      {
      }
    }
  }

  // What is applied are the runs of the migration that have been scanned, each once, and so all that is left of
  // it.
  lemma AppliesScanned(db: Db, m: MigrationId, order: seq<RunId>, after: Db, r: RunId)
    requires Decided(db, m, Applied, order, after)
    ensures r in order <==> r in db.runs && db.runs[r].migration == Some(m) && db.runs[r].status == RunScanned
    ensures r in order <==> r in db.runs && db.runs[r].migration == Some(m) && db.runs[r].status in {RunQueued, RunRunning, RunScanned}
    ensures forall i, j :: 0 <= i < j < |order| ==> order[i] != order[j]
  {
    assert r in order <==> r in ScannedRuns(db, m);
    assert r in LiveRunsOf(db.runs, m) ==> db.runs[r].status == RunScanned;
  }

  // Whatever is decided, either the library and its endpoint are untouched, or everything switches at
  // once; and it switches only when no run of the migration is queued or running, the configuration
  // has not moved, and the target resembles the known library or was confirmed.
  lemma DecisionAllOrNothing(db: Db, m: MigrationId, decision: Decision, order: seq<RunId>, after: Db)
    requires Decided(db, m, decision, order, after)
    ensures decision != Applied ==> LibraryUntouched(db, after)
    ensures decision == Applied ==>
      && m in db.migrations && Switched(db, m, after)
      && db.source.configRevision == db.migrations[m].sourceConfigRevision
      && (forall r :: r in db.runs && db.runs[r].migration == Some(m) ==> db.runs[r].status != RunQueued && db.runs[r].status != RunRunning)
      && (TargetResembles(db, m) || db.migrations[m].allowRisk)
  {
    ConfirmationExactly(db, m);
    if decision == Applied {
      ApplyRunsKeep(db, order);
      forall r | r in db.runs && db.runs[r].migration == Some(m)
        ensures db.runs[r].status != RunQueued && db.runs[r].status != RunRunning
      {
        if Unfinished(db.runs[r]) { assert r in LiveRunsOf(db.runs, m); }
      }
    }
  }

  // Cancelling or failing a migration, by the administrator, by an error, or by the failure of one of
  // its runs, leaves the library as it was.
  lemma CancellingTouchesNothing(db: Db, m: MigrationId, failed: bool)
    requires m in db.migrations
    ensures LibraryUntouched(db, CancelMigration(db, m, failed))
    ensures !Live(CancelMigration(db, m, failed).migrations[m].status)
    ensures LiveRunsOf(CancelMigration(db, m, failed).runs, m) == {}
  {
  }

  lemma FailedRunTouchesNothing(db: Db, r: RunId, denied: bool)
    requires r in db.runs && db.runs[r].migration.Some? && db.runs[r].migration.value in db.migrations
    ensures LibraryUntouched(db, FailRun(db, r, denied))
  {
  }

  // The rules a scanned run is applied under.
  function RulesOf(db: Db, r: RunId): Exclusions
    requires r in db.runs && db.runs[r].collection in db.collections
  {
    db.collections[db.runs[r].collection].rules
  }

  // A scanned run that can be applied, over path-shaped ids.
  ghost predicate Applicable(db: Db, r: RunId) {
    && r in db.runs && db.runs[r].collection in db.collections && ApplyRun(db, r).Returned?
    && ItemsShaped(db.items) && LinkedScan(ScanOf(db, r), db.runs[r].collection)
    && forall k :: k in db.items ==> db.items[k].lastSeen != Some(r)
  }

  // Each applied run leaves the closed form over its scan, under the rules of the day.
  lemma AppliedRunItems(db: Db, r: RunId)
    requires Applicable(db, r)
    ensures ApplyRun(db, r).value.items == ItemsCompleted(db.items, ScanOf(db, r), PassOf(db, r, RulesOf(db, r)))
  {
    var seen := ScanOf(db, r);
    var pass := PassOf(db, r, RulesOf(db, r));
    ManyFrame(db, pass, db.runs[r].configRevision, seen, InOrder(seen, seen.Keys), true);
    CompletedRun(db.items, seen, pass);
  }

  // What the closed form says of a known item that was not seen.
  lemma UnseenItem(items: Items, seen: Scan, pass: Pass, k: ExternalId)
    requires k in items && k !in seen && items[k].collection == pass.collection
    ensures ItemsCompleted(items, seen, pass)[k].lifecycle == if Hidden(seen, seen.Keys, pass.plan, k) then ItemExcluded else ItemMissing
  {
  }

  // A scanned run is applied under the rules of the day, and its filter revision is not compared again.
  // So a known item that the scan did not see, be it for a rule that held at the time, turns missing
  // unless a rule of the day excludes a scanned folder above it.
  lemma UnseenAtApply(db: Db, r: RunId, k: ExternalId)
    requires Applicable(db, r) && k in db.items && db.items[k].collection == db.runs[r].collection && k !in ScanOf(db, r)
    ensures var seen, after := ScanOf(db, r), ApplyRun(db, r).value.items;
      k in after && (after[k].lifecycle == ItemMissing <==> !Hidden(seen, seen.Keys, RulesOf(db, r), k))
  {
    AppliedRunItems(db, r);
    UnseenItem(db.items, ScanOf(db, r), PassOf(db, r, RulesOf(db, r)), k);
  }

  // Two sets of rules decide alike on everything seen, and hide the same known items that were not.
  ghost predicate DecideAlike(items: Items, seen: Scan, c: CollectionId, a: Exclusions, b: Exclusions) {
    && (forall id :: id in seen ==> a.Excludes(id, seen[id].isDocument) == b.Excludes(id, seen[id].isDocument))
    && forall k :: k in items && k !in seen && items[k].collection == c ==> (Hidden(seen, seen.Keys, a, k) <==> Hidden(seen, seen.Keys, b, k))
  }

  // The application leaves what it would have left under the rules of the scan if and only if the rules
  // of both days decide alike.
  lemma RulesMovedBeforeApply(db: Db, r: RunId, scanned: Exclusions)
    requires Applicable(db, r)
    ensures ApplyRun(db, r).value.items == ItemsCompleted(db.items, ScanOf(db, r), PassOf(db, r, scanned))
      <==> DecideAlike(db.items, ScanOf(db, r), db.runs[r].collection, scanned, RulesOf(db, r))
  {
    var seen, before, today := ScanOf(db, r), PassOf(db, r, scanned), PassOf(db, r, RulesOf(db, r));
    AppliedRunItems(db, r);
    if ItemsCompleted(db.items, seen, before) == ItemsCompleted(db.items, seen, today) {
      AlikeFromItems(db.items, seen, before, today);
    }
    if DecideAlike(db.items, seen, db.runs[r].collection, scanned, RulesOf(db, r)) {
      ItemsFromAlike(db.items, seen, before, today);
    }
  }

  lemma AlikeFromItems(items: Items, seen: Scan, a: Pass, b: Pass)
    requires b == a.(plan := b.plan) && ItemsCompleted(items, seen, a) == ItemsCompleted(items, seen, b)
    ensures DecideAlike(items, seen, a.collection, a.plan, b.plan)
  {
    var x, y := ItemsCompleted(items, seen, a), ItemsCompleted(items, seen, b);
    forall id | id in seen ensures a.plan.Excludes(id, seen[id].isDocument) == b.plan.Excludes(id, seen[id].isDocument) {
      assert x[id] == y[id];
    }
    forall k | k in items && k !in seen && items[k].collection == a.collection
      ensures Hidden(seen, seen.Keys, a.plan, k) <==> Hidden(seen, seen.Keys, b.plan, k)
    {
      UnseenItem(items, seen, a, k);
      UnseenItem(items, seen, b, k);
    }
  }

  lemma ItemsFromAlike(items: Items, seen: Scan, a: Pass, b: Pass)
    requires ItemsShaped(items) && LinkedScan(seen, a.collection) && b == a.(plan := b.plan)
    requires DecideAlike(items, seen, a.collection, a.plan, b.plan)
    ensures ItemsCompleted(items, seen, a) == ItemsCompleted(items, seen, b)
  {
    forall k | k in items.Keys + seen.Keys ensures ItemsCompleted(items, seen, a)[k] == ItemsCompleted(items, seen, b)[k] {
      RowFromAlike(items, seen, a, b, k);
    }
    assert ItemsCompleted(items, seen, a) == ItemsCompleted(items, seen, b);
  }

  lemma RowFromAlike(items: Items, seen: Scan, a: Pass, b: Pass, k: ExternalId)
    requires ItemsShaped(items) && LinkedScan(seen, a.collection) && b == a.(plan := b.plan)
    requires DecideAlike(items, seen, a.collection, a.plan, b.plan) && k in items.Keys + seen.Keys
    ensures ItemsCompleted(items, seen, a)[k] == ItemsCompleted(items, seen, b)[k]
  {
    if k !in seen && items[k].collection != a.collection {
      OtherCollectionsUntouched(items, seen, a, k);
      OtherCollectionsUntouched(items, seen, b, k);
    }
  }

  // ---- Starting ----------------------------------------------------------------------------

  function MigrationCollections(db: Db): set<CollectionId> {
    set c | c in db.collections && Eligible(db, c)
  }

  predicate Blocked(db: Db) {
    exists c :: c in db.collections && db.collections[c].selected && db.collections[c].registered && db.collections[c].valid
      && db.collections[c].lifecycle in {CollectionMissing, CollectionAccessRevoked} && !db.collections[c].deleted
  }

  function MigrationRun(db: Db, m: MigrationId, c: CollectionId, now: nat): Run
    requires m in db.migrations && c in db.collections
  {
    Run(c, Some(m), db.migrations[m].sourceConfigRevision, db.collections[c].filterRevision, ForMigration, RunQueued, false, now)
  }

  // Every collection in `queued` has a new run for the migration, and nothing else is new.
  ghost predicate Queueing(saved: Db, m: MigrationId, now: nat, queued: set<CollectionId>, rows: Db)
    requires m in saved.migrations
  {
    && rows == saved.(migrations := saved.migrations[m := saved.migrations[m].(status := Syncing)], runs := rows.runs)
    && OnePending(rows.runs)
    && (forall r :: r in saved.runs ==> r in rows.runs && rows.runs[r] == saved.runs[r])
    && (forall r :: r in rows.runs && r !in saved.runs ==>
          rows.runs[r].collection in queued && rows.runs[r].collection in saved.collections
          && rows.runs[r] == MigrationRun(saved, m, rows.runs[r].collection, now))
    && forall c :: c in queued ==> HasNewRun(saved, rows.runs, c)
  }

  ghost predicate HasNewRun(saved: Db, runs: map<RunId, Run>, c: CollectionId) {
    exists r :: r in runs && r !in saved.runs && runs[r].collection == c
  }

  lemma NewRunFor(saved: Db, runs: map<RunId, Run>, c: CollectionId, id: RunId, run: Run, d: CollectionId)
    requires id !in runs && saved.runs.Keys <= runs.Keys && run.collection == c
    requires d == c || HasNewRun(saved, runs, d)
    ensures HasNewRun(saved, runs[id := run], d)
  {
    var more := runs[id := run];
    if d == c {
      assert id in more && id !in saved.runs && more[id].collection == c;
    } else {
      var r :| r in runs && r !in saved.runs && runs[r].collection == d;
      assert r in more && more[r].collection == d;
    }
  }

  lemma OneMorePending(runs: map<RunId, Run>, id: RunId, run: Run)
    requires OnePending(runs) && !HasPendingRun(runs, run.collection) && id !in runs
    ensures OnePending(runs[id := run])
  {
  }

  lemma QueueNext(saved: Db, m: MigrationId, now: nat, queued: set<CollectionId>, rows: Db, c: CollectionId, id: RunId)
    requires m in saved.migrations && Queueing(saved, m, now, queued, rows) && c in saved.collections
    requires !HasPendingRun(rows.runs, c) && id !in rows.runs
    ensures Queueing(saved, m, now, queued + {c}, rows.(runs := rows.runs[id := MigrationRun(saved, m, c, now)]))
  {
    var run := MigrationRun(saved, m, c, now);
    OneMorePending(rows.runs, id, run);
    forall d | d in queued + {c} ensures HasNewRun(saved, rows.runs[id := run], d) {
      NewRunFor(saved, rows.runs, c, id, run, d);
    }
  }

  ghost predicate Crowded(db: Db, collections: set<CollectionId>) {
    exists c :: c in collections && HasPendingRun(db.runs, c)
  }

  // A collection whose turn has not come has the pending runs it had.
  lemma PendingAsBefore(saved: Db, m: MigrationId, now: nat, queued: set<CollectionId>, rows: Db, c: CollectionId)
    requires m in saved.migrations && Queueing(saved, m, now, queued, rows) && c !in queued
    ensures HasPendingRun(rows.runs, c) <==> HasPendingRun(saved.runs, c)
  {
  }

  method QueueMigrationRuns(store: Store, m: MigrationId, now: nat) returns (queued: bool)
    requires m in store.migrations && OnePending(store.runs)
    modifies store
    ensures queued ==> Queueing(old(store.Rows()), m, now, MigrationCollections(old(store.Rows())), store.Rows())
    ensures queued <==> !Crowded(old(store.Rows()), MigrationCollections(old(store.Rows())))
  {
    ghost var saved := store.Rows();
    var left := MigrationCollections(store.Rows());
    store.migrations := store.migrations[m := store.migrations[m].(status := Syncing)];
    ghost var done: set<CollectionId> := {};
    while left != {}
      invariant done + left == MigrationCollections(saved) && done !! left
      invariant Queueing(saved, m, now, done, store.Rows()) && !Crowded(saved, done)
      decreases left
    {
      var c :| c in left;
      PendingAsBefore(saved, m, now, done, store.Rows(), c);
      if HasPendingRun(store.runs, c) {
        return false;
      }
      var id := Above(store.runs.Keys);
      QueueNext(saved, m, now, done, store.Rows(), c, id);
      store.runs := store.runs[id := Run(c, Some(m), store.migrations[m].sourceConfigRevision, store.collections[c].filterRevision,
                                         ForMigration, RunQueued, false, now)];
      left := left - {c};
      done := done + {c};
    }
    return true;
  }

  datatype Start = Outdated | Declined | Started | AppliedAtOnce

  // The configuration has moved since the migration was asked for, or the source is out of service.
  predicate Outdates(db: Db, m: MigrationId)
    requires m in db.migrations
  {
    db.source.configRevision != db.migrations[m].sourceConfigRevision || db.source.state != SourceActive
  }

  // A collection is missing or revoked, or one to be scanned already has a pending run.
  ghost predicate Refuses(db: Db) {
    Blocked(db) || Crowded(db, MigrationCollections(db))
  }

  ghost predicate StartedAs(db: Db, m: MigrationId, now: nat, start: Start, after: Db)
    requires m in db.migrations
  {
    match start
    case Outdated => Outdates(db, m) && after == CancelMigration(db, m, false)
    case Declined => !Outdates(db, m) && Refuses(db) && after == db
    case Started =>
      && !Outdates(db, m) && !Refuses(db) && MigrationCollections(db) != {}
      && Queueing(db, m, now, MigrationCollections(db), after)
    case AppliedAtOnce => !Outdates(db, m) && !Refuses(db) && MigrationCollections(db) == {} && after == SwitchSource(db, m)
  }

  // The scans of a validated migration are queued, one for each eligible collection; a collection that
  // already has a pending run, or one that is missing or revoked, refuses the start and nothing is
  // written.
  method StartMigration(store: Store, m: MigrationId, now: nat) returns (start: Start)
    requires m in store.migrations && OnePending(store.runs) && ScannedRuns(store.Rows(), m) == {}
    requires ParentsShorter(store.items)
    modifies store
    ensures StartedAs(old(store.Rows()), m, now, start, store.Rows())
  {
    if Outdates(store.Rows(), m) {
      CancelMigrationRow(store, m, false);
      return Outdated;
    }
    if Blocked(store.Rows()) {
      return Declined;
    }
    var saved := store.Rows();
    if MigrationCollections(saved) == {} {
      ApplyWithoutRuns(store, m);
      return AppliedAtOnce;
    }
    var queued := QueueMigrationRuns(store, m, now);
    if !queued {
      Restore(store, saved);
      return Declined;
    }
    return Started;
  }

  lemma NothingScanned(db: Db, m: MigrationId, order: seq<RunId>)
    requires ListsScanned(db, m, order) && ScannedRuns(db, m) == {}
    ensures order == []
  {
    assert forall r :: r !in order;
    NoElements(order);
  }

  lemma NoElements(order: seq<RunId>)
    ensures order != [] ==> exists r :: r in order
  {
    if order != [] { assert order[0] in order; }
  }

  method ApplyWithoutRuns(store: Store, m: MigrationId)
    requires m in store.migrations && ScannedRuns(store.Rows(), m) == {} && ParentsShorter(store.items)
    requires store.source.configRevision == store.migrations[m].sourceConfigRevision
    modifies store
    ensures store.Rows() == SwitchSource(old(store.Rows()), m)
  {
    ghost var saved := store.Rows();
    store.migrations := store.migrations[m := store.migrations[m].(status := Syncing)];
    ghost var before := store.Rows();
    assert ScannedRuns(before, m) == ScannedRuns(saved, m);
    var applied;
    ghost var order;
    applied, order := ApplyMigrationRows(store, m);
    NothingScanned(before, m, order);
    assert SwitchSource(before, m) == SwitchSource(saved, m);
  }

  // So does the start: it switches everything at once when there is no collection to scan, and
  // otherwise leaves the library alone.
  lemma StartAllOrNothing(db: Db, m: MigrationId, now: nat, start: Start, after: Db)
    requires m in db.migrations && StartedAs(db, m, now, start, after)
    ensures start != AppliedAtOnce ==> LibraryUntouched(db, after)
    ensures start == AppliedAtOnce ==>
      Switched(db, m, after) && db.source.configRevision == db.migrations[m].sourceConfigRevision && MigrationCollections(db) == {}
  {
  }

  // The start does not read the status again: a migration cancelled while its target was being
  // validated stays cancelled, also through the failure recorded for a refused start, if and only if
  // the start is outdated or refused for another reason. Otherwise it goes on, or is applied at once.
  lemma CancelDuringValidation(db: Db, m: MigrationId, now: nat, start: Start, after: Db)
    requires m in db.migrations && db.migrations[m].status == Cancelled && StartedAs(db, m, now, start, after)
    ensures m in after.migrations
    ensures after.migrations[m].status == Cancelled <==> Outdates(db, m) || Refuses(db)
    ensures start == Declined ==> CancelMigration(after, m, true).migrations[m].status == Cancelled
    ensures start == Started ==> after.migrations[m].status == Syncing
    ensures start == AppliedAtOnce ==> Switched(db, m, after)
  {
  }

  // ---- A decision that raises ----------------------------------------------------------------

  // The error branch of a run: failed while it is current, superseded otherwise.
  function AfterError(db: Db, r: RunId, denied: bool, now: nat): Db
    requires r in db.runs && (db.runs[r].migration.Some? ==> db.runs[r].migration.value in db.migrations)
  {
    if Current(db, db.runs[r]) then FailRun(db, r, denied) else Supersede(db, r, now)
  }

  // A decision that raises ends a live migration if and only if the run that decided is still current.
  // Otherwise the run stays scanned, without its observations, and the migration stays under way with
  // nothing left to be scanned: none of its runs and no ordinary run can be claimed any more.
  lemma RaisedDecision(db: Db, m: MigrationId, r: RunId, denied: bool, now: nat)
    requires m in db.migrations && Live(db.migrations[m].status) && AllScanned(db, m) && r in LiveRunsOf(db.runs, m)
    ensures var after := AfterError(db, r, denied, now);
      && m in after.migrations && (Live(after.migrations[m].status) <==> !Current(db, db.runs[r]))
      && (Current(db, db.runs[r]) ==> LiveRunsOf(after.runs, m) == {})
      && (!Current(db, db.runs[r]) ==> after.runs == db.runs && ScanOf(after, r) == map[] && NoneClaimable(after, m))
  {
    if Current(db, db.runs[r]) {
      FailedMigrationEnds(db, m, r, denied);
    } else {
      var withdrawn := db.(runs := db.runs[r := SourceSteps.Withdrawn(db.runs[r])], observed := db.observed - {r});
      assert withdrawn.runs == db.runs && Live(withdrawn.migrations[m].status);
      NothingClaimable(withdrawn, m);
    }
  }

  ghost predicate NoneClaimable(db: Db, m: MigrationId) {
    forall k :: k in db.runs && db.runs[k].status == RunQueued && db.runs[k].migration in {None, Some(m)} ==> !Claimable(db, db.runs[k])
  }

  lemma FailedMigrationEnds(db: Db, m: MigrationId, r: RunId, denied: bool)
    requires m in db.migrations && r in db.runs && db.runs[r].migration == Some(m)
    ensures var after := FailRun(db, r, denied);
      m in after.migrations && !Live(after.migrations[m].status) && LiveRunsOf(after.runs, m) == {}
  {
  }

  lemma NothingClaimable(db: Db, m: MigrationId)
    requires m in db.migrations && Live(db.migrations[m].status) && AllScanned(db, m)
    ensures NoneClaimable(db, m)
  {
    forall k | k in db.runs && db.runs[k].status == RunQueued && db.runs[k].migration in {None, Some(m)}
      ensures !Claimable(db, db.runs[k])
    {
      assert k in LiveRunsOf(db.runs, m) <==> db.runs[k].migration == Some(m);
    }
  }
}
