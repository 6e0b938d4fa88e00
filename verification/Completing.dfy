/**
 What the end of a run does to the library besides the items: documents that are gone are removed, the
 collection is opened for retrieval, and a follow-up that was asked for is queued
 (services/source_worker/engine.py).
 */
module Completing {

  import opened Outcome
  import opened Corpus
  import opened Reconciliation
  import opened SourceSteps
  import opened SourceWorker
  import opened SyncRuns
  import opened Migrations
  import opened IndexSteps
  import opened Interleaving
  import opened Publication
  import opened Restoration
  import opened DocumentRows
  import opened Readmission

  // ---- Removed documents ---------------------------------------------------------------------

  function Removed(d: Document): Document {
    d.(lifecycle := ItemMissing, eligible := false, status := DocumentDeleted, deleted := true)
  }

  ghost predicate TurnsMissing(db: Db, after: Db, id: ExternalId) {
    id in after.items && after.items[id].lifecycle == ItemMissing && !(id in db.items && db.items[id].lifecycle == ItemMissing)
  }

  // Exactly the documents whose items turn missing are removed.
  ghost predicate RemovesMissing(db: Db, after: Db) {
    && after.documents.Keys == db.documents.Keys && after.indexes == db.indexes && after.jobs == db.jobs
    && forall id :: id in db.documents ==>
         after.documents[id] == if TurnsMissing(db, after, id) then Removed(db.documents[id]) else db.documents[id]
  }

  lemma ClosingRemoves(db: Db, pass: Pass)
    requires pass.run in db.runs
    ensures RemovesMissing(db, CloseScan(db, pass))
  {
  }

  lemma RemovedIsHidden(db: Db, id: ExternalId)
    requires id in db.documents && db.documents[id].deleted
    ensures !Visible(db, id)
  {
  }

  lemma CompletionLibrary(db: Db, r: RunId, now: nat)
    requires r in db.runs && Current(db, db.runs[r])
    ensures var pass := PassOf(db, r, db.collections[db.runs[r].collection].rules);
      var closed, after := CloseScan(db, pass), CompleteRun(db, r, now);
      && after == closed.(collections := after.collections, runs := after.runs)
      && after.collections == db.collections[db.runs[r].collection := db.collections[db.runs[r].collection].(lifecycle := CollectionActive)]
  {
    var run := db.runs[r];
    var closed := CloseScan(db, PassOf(db, r, db.collections[run.collection].rules));
    var reopened := closed.(collections := db.collections[run.collection := db.collections[run.collection].(lifecycle := CollectionActive)]);
    QueueRunKeeps(reopened, run.collection, run.configRevision, Manual, now);
  }

  // Of the collection, not missing yet, and not seen by the run.
  ghost predicate Unstamped(item: Item, c: CollectionId, r: RunId) {
    item.collection == c && item.lastSeen != Some(r) && item.lifecycle != ItemMissing
  }

  // A current run that completes removes exactly the documents of the items it has not seen: they are
  // deleted and can no longer be retrieved. Every other document row stays.
  lemma CompletionRemoves(db: Db, r: RunId, now: nat, id: ExternalId)
    requires r in db.runs && Current(db, db.runs[r])
    ensures RemovesMissing(db, CompleteRun(db, r, now))
    ensures id in db.documents && TurnsMissing(db, CompleteRun(db, r, now), id) ==> !Visible(CompleteRun(db, r, now), id)
    ensures id in db.items && Unstamped(db.items[id], db.runs[r].collection, r) ==> TurnsMissing(db, CompleteRun(db, r, now), id)
  {
    CompletionLibrary(db, r, now);
    ClosingRemoves(db, PassOf(db, r, db.collections[db.runs[r].collection].rules));
    if id in db.documents && TurnsMissing(db, CompleteRun(db, r, now), id) { RemovedIsHidden(CompleteRun(db, r, now), id); }
  }

  // ---- What can be retrieved after a completion ------------------------------------------------

  // All that retrieval asks of the document itself.
  predicate Servable(db: Db, id: ExternalId) {
    && id in db.documents && id in db.indexes && db.indexes[id].current
    && var d := db.documents[id];
       d.status == DocumentStatus.Ready && !d.deleted && d.lifecycle == ItemActive && d.eligible
  }

  // In its own collection a completed run leaves exactly what is servable and not missing to be retrieved,
  // if the collection has a project; in every other collection it changes nothing.
  lemma CompletionShows(db: Db, r: RunId, now: nat, id: ExternalId)
    requires r in db.runs && Current(db, db.runs[r]) && id in db.documents
    ensures var after, c := CompleteRun(db, r, now), db.runs[r].collection;
      Visible(after, id) <==>
        && !TurnsMissing(db, after, id)
        && if db.documents[id].collection == c then c in db.projects && Servable(db, id) else Visible(db, id)
  {
    var after, c := CompleteRun(db, r, now), db.runs[r].collection;
    CompletionRemoves(db, r, now, id);
    CompletionOpens(db, r, now);
    if !TurnsMissing(db, after, id) {
      if db.documents[id].collection == c { OwnShown(db, after, c, id); } else { OtherShown(db, after, id); }
    }
  }

  lemma OwnShown(db: Db, after: Db, c: CollectionId, id: ExternalId)
    requires id in db.documents && db.documents[id].collection == c && id in after.documents && after.documents[id] == db.documents[id]
    requires after.indexes == db.indexes && after.source.state == SourceActive && c in after.collections
    requires (c in after.projects <==> c in db.projects) && (c in after.projects ==> after.projects[c] == Project(ProjectActive, true, false))
    requires var k := after.collections[c]; !k.deleted && k.selected && k.registered && k.valid && k.lifecycle == CollectionActive
    ensures Visible(after, id) <==> c in db.projects && Servable(db, id)
  {
  }

  lemma OtherShown(db: Db, after: Db, id: ExternalId)
    requires id in db.documents && id in after.documents && after.documents[id] == db.documents[id]
    requires after.indexes == db.indexes && after.source == db.source
    requires var c := db.documents[id].collection;
      && (c in after.projects <==> c in db.projects) && (c in after.projects ==> after.projects[c] == db.projects[c])
      && (c in after.collections <==> c in db.collections) && (c in after.collections ==> after.collections[c] == db.collections[c])
    ensures Visible(after, id) <==> Visible(db, id)
  {
  }

  // The run is completed and its observations dropped, its collection and project are opened, and no other
  // collection, project or known run is touched.
  lemma CompletionOpens(db: Db, r: RunId, now: nat)
    requires r in db.runs && Current(db, db.runs[r])
    ensures var after, c := CompleteRun(db, r, now), db.runs[r].collection;
      && after.source == db.source && after.migrations == db.migrations
      && r in after.runs && after.runs[r] == db.runs[r].(status := RunCompleted) && r !in after.observed
      && (forall k :: k in db.runs && k != r ==> k in after.runs && after.runs[k] == db.runs[k])
      && (forall k :: k != r ==> ScanOf(after, k) == ScanOf(db, k) && DoneOf(after, k) == DoneOf(db, k))
      && after.collections == db.collections[c := db.collections[c].(lifecycle := CollectionActive)]
      && after.projects == (if c in db.projects then db.projects[c := Project(ProjectActive, true, false)] else db.projects)
  {
    var run := db.runs[r];
    CompletionLibrary(db, r, now);
    var closed := CloseScan(db, PassOf(db, r, db.collections[run.collection].rules));
    var reopened := closed.(collections := db.collections[run.collection := db.collections[run.collection].(lifecycle := CollectionActive)]);
    QueueRunKeeps(reopened, run.collection, run.configRevision, Manual, now);
  }

  // ---- The follow-up -------------------------------------------------------------------------

  // After a run has completed its collection has a pending run if and only if a follow-up was asked for
  // and no migration is under way; it is queued by hand for the present rules and configuration.
  lemma FollowUpExactly(db: Db, r: RunId, now: nat)
    requires r in db.runs && Current(db, db.runs[r]) && Pending(db.runs[r]) && OnePending(db.runs)
    ensures var after, run := CompleteRun(db, r, now), db.runs[r];
      && (HasPendingRun(after.runs, run.collection) <==> run.followUp && !LiveMigration(db))
      && forall k :: k in after.runs && k !in db.runs ==>
           after.runs[k] == Run(run.collection, None, db.source.configRevision, db.collections[run.collection].filterRevision, Manual, RunQueued, false, now)
  {
    var run := db.runs[r];
    var closed := CloseScan(db, PassOf(db, r, db.collections[run.collection].rules));
    var reopened := closed.(collections := db.collections[run.collection := db.collections[run.collection].(lifecycle := CollectionActive)]);
    assert Eligible(reopened, run.collection) && reopened.migrations == db.migrations;
    assert !HasPendingRun(reopened.runs, run.collection);
    QueuedExactly(reopened, run.collection, run.configRevision, Manual, now);
  }

  // A run is queued if and only if its collection takes part, at the standing configuration, with no
  // migration under way and none pending, and it is for the present rules.
  lemma QueuedExactly(db: Db, c: CollectionId, config: nat, trigger: Trigger, now: nat)
    ensures var after := QueueRun(db, c, config, trigger, now).runs;
      var queues := TakesPart(db, c) && db.source.configRevision == config && !LiveMigration(db) && !HasPendingRun(db.runs, c);
      && (!queues ==> after == db.runs)
      && (queues ==> exists k: RunId ::
            k !in db.runs && after == db.runs[k := Run(c, None, config, db.collections[c].filterRevision, trigger, RunQueued, false, now)])
      && (queues ==> HasPendingRun(after, c))
  {
    var k := Above(db.runs.Keys);
    if TakesPart(db, c) && db.source.configRevision == config && !LiveMigration(db) && !HasPendingRun(db.runs, c) {
      var after := QueueRun(db, c, config, trigger, now).runs;
      assert k !in db.runs && k in after && Pending(after[k]) && after[k].collection == c;
    }
  }

  // The source is active, and the collection is chosen, registered and valid, neither gone nor revoked, and
  // not excluded as a whole.
  ghost predicate TakesPart(db: Db, c: CollectionId) {
    && db.source.state == SourceActive && c in db.collections
    && var k := db.collections[c];
       && k.selected && k.registered && k.valid && !k.deleted && !k.rules.collection
       && k.lifecycle in {CollectionPending, CollectionInactive, CollectionActive, CollectionExcluded, CollectionPendingPurge}
  }

  // ---- Applied runs --------------------------------------------------------------------------

  // Of a document that the scan did not report: hidden with a folder above it, or as it was.
  lemma {:induction false} UnseenDocument(db: Db, pass: Pass, config: nat, seen: Scan, order: seq<ExternalId>, preserveIndex: bool, id: ExternalId)
    requires (forall k :: k in order ==> k in seen) && id !in order && id in db.documents
    ensures var after := ReconcileMany(db, pass, config, seen, order, preserveIndex);
      && id in after.documents
      && (id in db.indexes <==> id in after.indexes) && (id in db.indexes ==> after.indexes[id] == db.indexes[id])
      && (id in db.items <==> id in after.items)
      && (after.documents[id] == db.documents[id]
          || (id in after.items && after.items[id].lastSeen == Some(pass.run) && after.documents[id] == HiddenIf(db.documents[id], true)))
      && (id in db.items && db.items[id].lastSeen != Some(pass.run) && after.items[id].lastSeen == Some(pass.run) ==>
            after.documents[id] == HiddenIf(db.documents[id], true))
    decreases |order|
  {
    if order != [] {
      var next := ReconcileOne(db, pass, config, order[0], seen[order[0]], preserveIndex);
      UnseenOnce(db, pass, config, order[0], seen[order[0]], preserveIndex, id);
      UnseenDocument(next, pass, config, seen, order[1..], preserveIndex, id);
      ManyFrame(next, pass, config, seen, order[1..], preserveIndex);
      if id in next.items && next.items[id].lastSeen == Some(pass.run) { StampStays(next.items, seen, order[1..], pass, id); }
    }
  }

  lemma UnseenOnce(db: Db, pass: Pass, config: nat, k: ExternalId, o: Observation, preserveIndex: bool, id: ExternalId)
    requires k != id && id in db.documents
    ensures var after := ReconcileOne(db, pass, config, k, o, preserveIndex);
      && id in after.documents
      && (id in db.indexes <==> id in after.indexes) && (id in db.indexes ==> after.indexes[id] == db.indexes[id])
      && (id in db.items <==> id in after.items)
      && (id in db.items ==> after.items[id] == db.items[id] || after.items[id].lastSeen == Some(pass.run))
      && (after.documents[id] == db.documents[id]
          || (id in after.items && after.items[id].lastSeen == Some(pass.run) && after.documents[id] == HiddenIf(db.documents[id], true)))
      && (id in db.items && db.items[id].lastSeen != Some(pass.run) && after.items[id].lastSeen == Some(pass.run) ==>
            after.documents[id] == HiddenIf(db.documents[id], true))
  {
    OneFrame(db, pass, config, k, o, preserveIndex);
    if !o.isDocument { ObservedFolder(db, pass, config, k, o, preserveIndex); }
  }

  // Once stamped by the run, a row stays stamped.
  lemma {:induction false} StampStays(items: Items, seen: Scan, order: seq<ExternalId>, pass: Pass, id: ExternalId)
    requires (forall k :: k in order ==> k in seen) && id in items && items[id].lastSeen == Some(pass.run)
    ensures var after := ReconcileItems(items, seen, order, pass); id in after && after[id].lastSeen == Some(pass.run)
    decreases |order|
  {
    if order != [] {
      StampStays(ReconcileItem(items, order[0], seen[order[0]], pass), seen, order[1..], pass, id);
    }
  }

  // An applied run removes exactly the documents whose items it makes missing, hides those behind an
  // excluded folder, and leaves every other one that it did not see as it was; it never touches the index
  // of one.
  lemma AppliedUnseen(db: Db, r: RunId, id: ExternalId)
    requires r in db.runs && db.runs[r].collection in db.collections && ApplyRun(db, r).Returned?
    requires id in db.documents && id in db.items && db.items[id].lastSeen != Some(r) && id !in ScanOf(db, r)
    ensures var after := ApplyRun(db, r).value;
      && id in after.documents && id in after.items && CurrentIndex(after, id) == CurrentIndex(db, id)
      && after.documents[id] == (if TurnsMissing(db, after, id) then Removed(db.documents[id])
                                 else HiddenIf(db.documents[id], after.items[id].lastSeen == Some(r)))
      && (TurnsMissing(db, after, id) ==> !Visible(after, id))
  {
    var seen := ScanOf(db, r);
    var reconciled, pass := ApplyRunIs(db, r);
    var order := InOrder(seen, seen.Keys);
    UnseenDocument(db, pass, db.runs[r].configRevision, seen, order, true, id);
    ManyFrame(db, pass, db.runs[r].configRevision, seen, order, true);
    UnstampedRow(db.items, seen, order, pass, id);
    UnseenClosed(db, reconciled, pass, id);
    if TurnsMissing(db, ApplyRun(db, r).value, id) { RemovedIsHidden(ApplyRun(db, r).value, id); }
  }

  lemma UnseenClosed(db: Db, reconciled: Db, pass: Pass, id: ExternalId)
    requires pass.run in reconciled.runs && id in db.documents && id in db.items && id in reconciled.documents && id in reconciled.items
    requires var stamped := reconciled.items[id].lastSeen == Some(pass.run);
      && reconciled.documents[id] == HiddenIf(db.documents[id], stamped)
      && (if stamped then reconciled.items[id].lifecycle != ItemMissing else reconciled.items[id] == db.items[id])
    ensures var after := CloseScan(reconciled, pass);
      && id in after.documents && id in after.items && after.indexes == reconciled.indexes
      && after.items[id].lastSeen == reconciled.items[id].lastSeen
      && after.documents[id] == (if TurnsMissing(db, after, id) then Removed(db.documents[id])
                                 else HiddenIf(db.documents[id], after.items[id].lastSeen == Some(pass.run)))
  {
    ClosingRemoves(reconciled, pass);
  }

  // How an active document comes out, given what was known of it.
  ghost predicate ComesOut(db: Db, after: Db, c: CollectionId, config: nat, id: ExternalId, o: Observation) {
    && id in after.documents && AsObserved(after.documents[id], c, config, o) && after.documents[id].lifecycle == ItemActive
    && CurrentIndex(after, id) == CurrentIndex(db, id)
    && (if Fresh(db, id, o) then after.documents[id].status == DocumentStatus.Ready
        else if id in db.documents && db.documents[id].revision == o.revision && db.documents[id].status == DocumentFailed
        then after.documents[id].status == DocumentFailed
        else after.documents[id].status == Uploaded && HasJob(after.jobs, id, o.revision))
  }

  // What the outcome depends on is the same.
  ghost predicate KnownAlike(db: Db, reached: Db, id: ExternalId) {
    && (id in db.documents <==> id in reached.documents)
    && (id in db.documents ==> reached.documents[id].revision == db.documents[id].revision && reached.documents[id].status == db.documents[id].status)
    && (id in db.indexes <==> id in reached.indexes) && (id in db.indexes ==> reached.indexes[id] == db.indexes[id])
  }

  lemma AlikeOnce(db: Db, pass: Pass, config: nat, k: ExternalId, o: Observation, preserveIndex: bool, id: ExternalId)
    requires k != id
    ensures KnownAlike(db, ReconcileOne(db, pass, config, k, o, preserveIndex), id)
  {
    if !o.isDocument { ObservedFolder(db, pass, config, k, o, preserveIndex); }
  }

  lemma {:induction false} AlikeBefore(db: Db, pass: Pass, config: nat, seen: Scan, order: seq<ExternalId>, preserveIndex: bool, id: ExternalId)
    requires (forall k :: k in order ==> k in seen) && id !in order
    ensures KnownAlike(db, ReconcileMany(db, pass, config, seen, order, preserveIndex), id)
    decreases |order|
  {
    if order != [] {
      AlikeOnce(db, pass, config, order[0], seen[order[0]], preserveIndex, id);
      AlikeBefore(ReconcileOne(db, pass, config, order[0], seen[order[0]], preserveIndex), pass, config, seen, order[1..], preserveIndex, id);
    }
  }

  lemma ActiveComesOut(db: Db, reached: Db, pass: Pass, config: nat, id: ExternalId, o: Observation)
    requires KnownAlike(db, reached, id) && o.isDocument && Classify(id, o, pass) == ItemActive
    ensures ComesOut(db, ReconcileOne(reached, pass, config, id, o, true), pass.collection, config, id, o)
  {
    ActiveDocument(reached, pass, config, id, o, true);
    var placed := reached.(items := ReconcileItem(reached.items, id, o, pass));
    ActivePlaced(placed, pass, config, id, o, true);
    assert Fresh(db, id, o) <==> Fresh(reached, id, o);
  }

  lemma AnotherDocumentSeen(db: Db, rows: Db, pass: Pass, config: nat, k: ExternalId, p: Observation, id: ExternalId, c: CollectionId, o: Observation)
    requires ComesOut(db, rows, c, config, id, o) && k != id && p.isDocument
    ensures ComesOut(db, ReconcileOne(rows, pass, config, k, p, true), c, config, id, o)
  {
    var after := ReconcileOne(rows, pass, config, k, p, true);
    if Classify(k, p, pass) == ItemActive { ActiveDocument(rows, pass, config, k, p, true); } else { InactiveDocument(rows, pass, config, k, p, true); }
    assert OthersAlike(rows, after, k);
    if HasJob(rows.jobs, id, o.revision) {
      var j :| j in rows.jobs && Active(rows.jobs[j], id, o.revision);
      assert j in after.jobs && Active(after.jobs[j], id, o.revision);
    }
  }

  lemma {:induction false} DocumentsBehind(db: Db, rows: Db, pass: Pass, config: nat, seen: Scan, order: seq<ExternalId>, id: ExternalId,
                                           c: CollectionId, o: Observation)
    requires ComesOut(db, rows, c, config, id, o) && forall k :: k in order ==> k in seen && k != id && seen[k].isDocument
    ensures ComesOut(db, ReconcileMany(rows, pass, config, seen, order, true), c, config, id, o)
    decreases |order|
  {
    if order != [] {
      AnotherDocumentSeen(db, rows, pass, config, order[0], seen[order[0]], id, c, o);
      DocumentsBehind(db, ReconcileOne(rows, pass, config, order[0], seen[order[0]], true), pass, config, seen, order[1..], id, c, o);
    }
  }

  lemma ScanComesOut(db: Db, pass: Pass, config: nat, seen: Scan, order: seq<ExternalId>, id: ExternalId)
    requires Readmission.Sorted(seen, order) && id in order && seen[id].isDocument && Classify(id, seen[id], pass) == ItemActive
    ensures ComesOut(db, ReconcileMany(db, pass, config, seen, order, true), pass.collection, config, id, seen[id])
  {
    var before, behind := AroundId(seen, order, id);
    ManyAppend(db, pass, config, seen, before, [id] + behind, true);
    AlikeBefore(db, pass, config, seen, before, true, id);
    var reached := ReconcileMany(db, pass, config, seen, before, true);
    ActiveComesOut(db, reached, pass, config, id, seen[id]);
    assert ([id] + behind)[1..] == behind;
    DocumentsBehind(db, ReconcileOne(reached, pass, config, id, seen[id], true), pass, config, seen, behind, id, pass.collection, seen[id]);
  }

  // Every document that an applied run has seen and no rule of the day excludes comes out ready, failed or
  // to be indexed as it would from one observation, with its index kept, whatever else the run has seen.
  lemma AppliedSeen(db: Db, r: RunId, id: ExternalId)
    requires r in db.runs && db.runs[r].collection in db.collections && ApplyRun(db, r).Returned?
    requires id in ScanOf(db, r) && ScanOf(db, r)[id].isDocument
    requires Classify(id, ScanOf(db, r)[id], PassOf(db, r, RulesOf(db, r))) == ItemActive
    ensures ComesOut(db, ApplyRun(db, r).value, db.runs[r].collection, db.runs[r].configRevision, id, ScanOf(db, r)[id])
  {
    var seen := ScanOf(db, r);
    var reconciled, pass := ApplyRunIs(db, r);
    var order := InOrder(seen, seen.Keys);
    OrderSorted(seen, seen.Keys);
    ScanComesOut(db, pass, db.runs[r].configRevision, seen, order, id);
    ManyFrame(db, pass, db.runs[r].configRevision, seen, order, true);
    if id in reconciled.items { UnstampedRow(db.items, seen, order, pass, id); }
    ClosingRemoves(reconciled, pass);
  }
}
