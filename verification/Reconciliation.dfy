/**
 What reconciling one complete scan does to the known items of a source
 (services/source_worker/engine.py): one observation at a time, parents first, and the closed form of
 the result.
 */
module Reconciliation {

  import opened Outcome
  import opened Corpus

  // One run's pass over a collection: its rules and size limit stay fixed while it is current.
  datatype Pass = Pass(run: RunId, collection: CollectionId, plan: Exclusions, maxSize: nat)

  type Items = map<ExternalId, Item>
  type Scan = map<ExternalId, Observation>

  function Classify(id: ExternalId, o: Observation, pass: Pass): ItemState {
    if pass.plan.Excludes(id, o.isDocument) then ItemExcluded
    else if !o.isDocument then ItemActive
    else if !o.supported then ItemUnsupported
    else if o.size > pass.maxSize then ItemOversized
    else ItemActive
  }

  // `id` is reached from `folder` over the stored parent links.
  predicate Under(items: Items, id: ExternalId, folder: ExternalId)
    decreases |id|
  {
    && id in items
    && items[id].parent.Some?
    && |items[id].parent.value| < |id|
    && (items[id].parent.value == folder || Under(items, items[id].parent.value, folder))
  }

  function ExcludeUnder(items: Items, folder: ExternalId, run: RunId): Items {
    map k | k in items :: if Under(items, k, folder) then items[k].(lifecycle := ItemExcluded, lastSeen := Some(run)) else items[k]
  }

  // The item row an observation writes; the parent link is kept only when the parent row exists.
  function ItemOf(items: Items, id: ExternalId, o: Observation, pass: Pass): Item {
    Item(pass.collection,
         if o.parent.Some? && o.parent.value in items then o.parent else None,
         o.isDocument, o.revision, Classify(id, o, pass), Some(pass.run))
  }

  function ReconcileItem(items: Items, id: ExternalId, o: Observation, pass: Pass): Items
  {
    var item := ItemOf(items, id, o, pass);
    var placed := items[id := item];
    if !o.isDocument && item.lifecycle == ItemExcluded then ExcludeUnder(placed, id, pass.run) else placed
  }

  function ReconcileItems(items: Items, seen: Scan, order: seq<ExternalId>, pass: Pass): Items
    requires forall id :: id in order ==> id in seen
    decreases |order|
  {
    if order == [] then items
    else
      ReconcileItems(ReconcileItem(items, order[0], seen[order[0]], pass),
                     seen, order[1..], pass)
  }

  // Completion: whatever the run did not see is missing.
  function MarkMissing(items: Items, pass: Pass): Items {
    map k | k in items ::
      if items[k].collection == pass.collection && items[k].lastSeen != Some(pass.run) then items[k].(lifecycle := ItemMissing) else items[k]
  }

  // ---- Path-shaped sources -------------------------------------------------------------------

  const ROOT_COLLECTION: CollectionId := "__root__"

  function FirstSlash(id: ExternalId): (r: nat)
    ensures r <= |id| && (r < |id| ==> id[r] == '/') && forall i :: 0 <= i < r ==> id[i] != '/'
  {
    if id == "" || id[0] == '/' then 0 else 1 + FirstSlash(id[1..])
  }

  function CollectionOf(id: ExternalId): CollectionId {
    var cut := FirstSlash(id);
    if cut == |id| then ROOT_COLLECTION else id[..cut]
  }

  ghost predicate ItemsShaped(items: Items) {
    forall id :: id in items ==>
      && items[id].collection == CollectionOf(id)
      && items[id].parent == ParentOf(id)
      && (ParentOf(id).Some? ==> ParentOf(id).value in items)
  }

  // A path-shaped scan: parents are reported with their children.
  ghost predicate LinkedScan(seen: Scan, c: CollectionId) {
    forall id :: id in seen ==>
      && CollectionOf(id) == c && seen[id].parent == ParentOf(id)
      && (ParentOf(id).Some? ==> ParentOf(id).value in seen && !seen[ParentOf(id).value].isDocument)
  }

  // What a walk over the source's folders reports: nothing inside an excluded folder.
  ghost predicate ScanShaped(seen: Scan, pass: Pass) {
    && LinkedScan(seen, pass.collection)
    && forall id :: id in seen && ParentOf(id).Some? ==> ParentOf(id).value !in pass.plan.folders
  }

  lemma FirstSlashOfPrefix(id: ExternalId, folder: ExternalId)
    requires folder <= id && '/' in folder
    ensures FirstSlash(folder) == FirstSlash(id) && FirstSlash(folder) < |folder|
  {
    var i, j := FirstSlash(folder), FirstSlash(id);
    assert i < |folder| && id[i] == folder[i];
    assert j < |folder| ==> folder[j] == id[j];
  }

  lemma ParentCollection(id: ExternalId)
    requires ParentOf(id).Some?
    ensures CollectionOf(ParentOf(id).value) == CollectionOf(id)
  {
    FirstSlashOfPrefix(id, ParentOf(id).value);
  }

  lemma {:induction false} BelowCollection(id: ExternalId, folder: ExternalId)
    requires Below(id, folder)
    ensures CollectionOf(folder) == CollectionOf(id)
    decreases |id|
  {
    ParentCollection(id);
    if ParentOf(id).value != folder { BelowCollection(ParentOf(id).value, folder); }
  }

  lemma {:induction false} UnderIsBelow(items: Items, id: ExternalId, folder: ExternalId)
    requires ItemsShaped(items)
    ensures Under(items, id, folder) <==> id in items && Below(id, folder)
    decreases |id|
  {
    if id in items && ParentOf(id).Some? { UnderIsBelow(items, ParentOf(id).value, folder); }
  }

  // A scan reports nothing below a folder it found excluded.
  lemma {:induction false} NothingSeenBelowExcluded(seen: Scan, pass: Pass, id: ExternalId, folder: ExternalId)
    requires ScanShaped(seen, pass) && id in seen && Below(id, folder)
    ensures folder in seen && !seen[folder].isDocument && folder !in pass.plan.folders
    decreases |id|
  {
    var parent := ParentOf(id).value;
    if parent != folder { NothingSeenBelowExcluded(seen, pass, parent, folder); }
  }

  // ---- The closed form -----------------------------------------------------------------------

  // `id` lies below an excluded folder among the reconciled ones.
  ghost predicate Hidden(seen: Scan, done: set<ExternalId>, plan: Exclusions, id: ExternalId) {
    exists f :: f in done && f in seen && !seen[f].isDocument && f in plan.folders && Below(id, f)
  }

  ghost function SeenItem(id: ExternalId, o: Observation, pass: Pass): Item {
    Item(pass.collection, ParentOf(id), o.isDocument, o.revision, Classify(id, o, pass), Some(pass.run))
  }

  ghost function Concealed(item: Item, pass: Pass): Item {
    item.(lifecycle := ItemExcluded, lastSeen := Some(pass.run))
  }

  ghost function ItemAfter(items: Items, seen: Scan, done: set<ExternalId>, pass: Pass, k: ExternalId): Item
    requires done <= seen.Keys && k in items.Keys + done
  {
    if k in done then SeenItem(k, seen[k], pass)
    else if Hidden(seen, done, pass.plan, k) then Concealed(items[k], pass)
    else items[k]
  }

  // The items once exactly `done` of the scan has been reconciled.
  ghost function ItemsAfter(items: Items, seen: Scan, done: set<ExternalId>, pass: Pass): Items
    requires done <= seen.Keys
  {
    map k | k in items.Keys + done :: ItemAfter(items, seen, done, pass, k)
  }

  ghost predicate ParentsClosed(ids: set<ExternalId>) {
    forall id :: id in ids && ParentOf(id).Some? ==> ParentOf(id).value in ids
  }

  lemma ItemsAfterShaped(items: Items, seen: Scan, done: set<ExternalId>, pass: Pass)
    requires ItemsShaped(items) && LinkedScan(seen, pass.collection) && done <= seen.Keys && ParentsClosed(done)
    ensures ItemsShaped(ItemsAfter(items, seen, done, pass))
  {
    var after := ItemsAfter(items, seen, done, pass);
    forall k | k in after
      ensures after[k].collection == CollectionOf(k) && after[k].parent == ParentOf(k)
              && (ParentOf(k).Some? ==> ParentOf(k).value in after)
    {
      assert after[k] == ItemAfter(items, seen, done, pass, k);
    }
  }

  lemma HiddenNext(seen: Scan, done: set<ExternalId>, plan: Exclusions, k: ExternalId, id: ExternalId)
    requires id in seen
    ensures Hidden(seen, done + {id}, plan, k) <==>
      Hidden(seen, done, plan, k) || (!seen[id].isDocument && id in plan.folders && Below(k, id))
  {
    if Hidden(seen, done + {id}, plan, k) {
      var f :| f in done + {id} && f in seen && !seen[f].isDocument && f in plan.folders && Below(k, f);
      assert f == id || f in done;
    }
  }

  lemma PlacedShaped(before: Items, id: ExternalId, item: Item)
    requires ItemsShaped(before)
    requires item.collection == CollectionOf(id) && item.parent == ParentOf(id)
    requires ParentOf(id).Some? ==> ParentOf(id).value in before
    ensures ItemsShaped(before[id := item])
  {
  }

  // Ancestors come before what lies below them.
  lemma {:induction false} AncestorsIn(ids: set<ExternalId>, k: ExternalId, folder: ExternalId)
    requires ParentsClosed(ids) && k in ids && Below(k, folder)
    ensures folder in ids && |folder| < |k|
    decreases |k|
  {
    var parent := ParentOf(k).value;
    if parent != folder { AncestorsIn(ids, parent, folder); }
  }

  lemma NotBelowNext(done: set<ExternalId>, id: ExternalId, k: ExternalId)
    requires ParentsClosed(done) && id !in done && k in done + {id} && (ParentOf(id).Some? ==> ParentOf(id).value in done)
    ensures !Below(k, id)
  {
    if Below(k, id) {
      AncestorsIn(done + {id}, k, id);
      AncestorsIn(done, k, id);
    }
  }

  // One more observation changes one row of the closed form, and the rows below it when it is an
  // excluded folder.
  lemma ReconcileNextAt(items: Items, seen: Scan, done: set<ExternalId>, id: ExternalId, pass: Pass, placed: Items, k: ExternalId)
    requires ItemsShaped(items) && LinkedScan(seen, pass.collection) && done <= seen.Keys && ParentsClosed(done)
    requires id in seen && id !in done && (ParentOf(id).Some? ==> ParentOf(id).value in done)
    requires placed == ItemsAfter(items, seen, done, pass)[id := SeenItem(id, seen[id], pass)] && ItemsShaped(placed)
    requires k in placed
    ensures ItemAfter(items, seen, done + {id}, pass, k) ==
      if !seen[id].isDocument && id in pass.plan.folders && Under(placed, k, id) then Concealed(placed[k], pass) else placed[k]
  {
    UnderIsBelow(placed, k, id);
    HiddenNext(seen, done, pass.plan, k, id);
    if k in done + {id} {
      if !seen[id].isDocument && id in pass.plan.folders && Below(k, id) {
        NotBelowNext(done, id, k);
        assert false;
      }
    } else {
      assert placed[k] == ItemAfter(items, seen, done, pass, k);
    }
  }

  lemma PlacedAfter(items: Items, seen: Scan, done: set<ExternalId>, id: ExternalId, pass: Pass)
    requires ItemsShaped(items) && LinkedScan(seen, pass.collection) && done <= seen.Keys && ParentsClosed(done)
    requires id in seen && id !in done && (ParentOf(id).Some? ==> ParentOf(id).value in done)
    ensures var before, item := ItemsAfter(items, seen, done, pass), SeenItem(id, seen[id], pass);
      && ItemOf(before, id, seen[id], pass) == item && ItemsShaped(before[id := item])
      && ItemsAfter(items, seen, done + {id}, pass).Keys == before[id := item].Keys
  {
    ItemsAfterShaped(items, seen, done, pass);
    PlacedShaped(ItemsAfter(items, seen, done, pass), id, SeenItem(id, seen[id], pass));
  }

  // The next observation takes the closed form one id further.
  lemma ReconcileNext(items: Items, seen: Scan, done: set<ExternalId>, id: ExternalId, pass: Pass)
    requires ItemsShaped(items) && LinkedScan(seen, pass.collection) && done <= seen.Keys && ParentsClosed(done)
    requires id in seen && id !in done && (ParentOf(id).Some? ==> ParentOf(id).value in done)
    ensures ReconcileItem(ItemsAfter(items, seen, done, pass), id, seen[id], pass) == ItemsAfter(items, seen, done + {id}, pass)
  {
    var before := ItemsAfter(items, seen, done, pass);
    var item := SeenItem(id, seen[id], pass);
    var placed, after := before[id := item], ItemsAfter(items, seen, done + {id}, pass);
    PlacedAfter(items, seen, done, id, pass);
    forall k | k in placed
      ensures after[k] == if !seen[id].isDocument && id in pass.plan.folders && Under(placed, k, id) then Concealed(placed[k], pass) else placed[k]
    {
      RowAfter(items, seen, done + {id}, pass, k);
      ReconcileNextAt(items, seen, done, id, pass, placed, k);
    }
    ReconcileByRow(before, id, seen[id], pass, placed, after);
  }

  lemma RowAfter(items: Items, seen: Scan, done: set<ExternalId>, pass: Pass, k: ExternalId)
    requires done <= seen.Keys && k in items.Keys + done
    ensures k in ItemsAfter(items, seen, done, pass) && ItemsAfter(items, seen, done, pass)[k] == ItemAfter(items, seen, done, pass, k)
  {
  }

  lemma ReconcileByRow(before: Items, id: ExternalId, o: Observation, pass: Pass, placed: Items, after: Items)
    requires placed == before[id := ItemOf(before, id, o, pass)] && after.Keys == placed.Keys
    requires forall k :: k in placed ==>
      after[k] == if !o.isDocument && id in pass.plan.folders && Under(placed, k, id) then Concealed(placed[k], pass) else placed[k]
    ensures ReconcileItem(before, id, o, pass) == after
  {
    if !o.isDocument && id in pass.plan.folders {
      assert ReconcileItem(before, id, o, pass) == ExcludeUnder(placed, id, pass.run);
      assert ExcludeUnder(placed, id, pass.run) == after;
    } else {
      assert placed == after;
    }
  }

  lemma FirstHasNoPendingParent(seen: Scan, pass: Pass, pending: set<ExternalId>, m: ExternalId)
    requires LinkedScan(seen, pass.collection) && pending <= seen.Keys && IsFirst(seen, pending, m)
    ensures ParentOf(m).Some? ==> ParentOf(m).value !in pending
  {
    if ParentOf(m).Some? {
      var parent := ParentOf(m).value;
      PrefixLess(parent, m);
      LessIrreflexive(m);
      assert Before(seen, parent, m);
      if Before(seen, m, parent) { BeforeTransitive(seen, m, parent, m); }
    }
  }

  lemma ReconcileFirst(items: Items, seen: Scan, pending: set<ExternalId>, m: ExternalId, pass: Pass)
    requires ItemsShaped(items) && LinkedScan(seen, pass.collection) && pending <= seen.Keys && ParentsClosed(seen.Keys - pending)
    requires IsFirst(seen, pending, m)
    ensures ReconcileItem(ItemsAfter(items, seen, seen.Keys - pending, pass), m, seen[m], pass)
         == ItemsAfter(items, seen, seen.Keys - (pending - {m}), pass)
    ensures ParentsClosed(seen.Keys - (pending - {m}))
  {
    FirstHasNoPendingParent(seen, pass, pending, m);
    ReconcileNext(items, seen, seen.Keys - pending, m, pass);
    assert seen.Keys - pending + {m} == seen.Keys - (pending - {m});
  }

  // Reconciling the pending ids in order reaches the closed form over the whole scan.
  lemma {:induction false} ReconcilePending(items: Items, seen: Scan, pending: set<ExternalId>, pass: Pass)
    requires ItemsShaped(items) && LinkedScan(seen, pass.collection) && pending <= seen.Keys && ParentsClosed(seen.Keys - pending)
    ensures ReconcileItems(ItemsAfter(items, seen, seen.Keys - pending, pass), seen, InOrder(seen, pending), pass)
         == ItemsAfter(items, seen, seen.Keys, pass)
    decreases |pending|
  {
    var done := seen.Keys - pending;
    if pending == {} {
      assert done == seen.Keys;
    } else {
      var m := FirstExists(seen, pending);
      ReconcileFirst(items, seen, pending, m, pass);
      ReconcilePending(items, seen, pending - {m}, pass);
      OrderStep(seen, pending, m);
      TakeFirst(ItemsAfter(items, seen, done, pass), seen, m, InOrder(seen, pending - {m}), pass);
    }
  }

  lemma OrderStep(seen: Scan, pending: set<ExternalId>, m: ExternalId)
    requires pending <= seen.Keys && IsFirst(seen, pending, m)
    ensures InOrder(seen, pending) == [m] + InOrder(seen, pending - {m})
  {
    FirstIs(seen, pending);
  }

  lemma TakeFirst(items: Items, seen: Scan, m: ExternalId, rest: seq<ExternalId>, pass: Pass)
    requires m in seen && forall id :: id in rest ==> id in seen
    ensures ReconcileItems(items, seen, [m] + rest, pass) == ReconcileItems(ReconcileItem(items, m, seen[m], pass), seen, rest, pass)
  {
    assert ([m] + rest)[1..] == rest;
  }

  // What a completed run leaves of the known items: observed items carry their classified lifecycle,
  // known items below an excluded folder are excluded, every other item of the collection is missing,
  // and other collections are untouched.
  ghost function ItemsCompleted(items: Items, seen: Scan, pass: Pass): Items {
    map k | k in items.Keys + seen.Keys ::
      if k in seen then SeenItem(k, seen[k], pass)
      else if Hidden(seen, seen.Keys, pass.plan, k) then Concealed(items[k], pass)
      else if items[k].collection == pass.collection then items[k].(lifecycle := ItemMissing)
      else items[k]
  }

  lemma CompletedRun(items: Items, seen: Scan, pass: Pass)
    requires ItemsShaped(items) && LinkedScan(seen, pass.collection)
    requires forall k :: k in items ==> items[k].lastSeen != Some(pass.run)
    ensures MarkMissing(ReconcileItems(items, seen, InOrder(seen, seen.Keys), pass), pass) == ItemsCompleted(items, seen, pass)
  {
    NothingDone(items, seen, pass);
    assert seen.Keys - seen.Keys == {};
    ReconcilePending(items, seen, seen.Keys, pass);
    MissingAfter(items, seen, pass);
  }

  lemma NothingDone(items: Items, seen: Scan, pass: Pass)
    ensures ItemsAfter(items, seen, {}, pass) == items
  {
  }

  lemma MissingAfter(items: Items, seen: Scan, pass: Pass)
    requires forall k :: k in items ==> items[k].lastSeen != Some(pass.run)
    ensures MarkMissing(ItemsAfter(items, seen, seen.Keys, pass), pass) == ItemsCompleted(items, seen, pass)
  {
    var after := ItemsAfter(items, seen, seen.Keys, pass);
    forall k | k in after ensures MarkMissing(after, pass)[k] == ItemsCompleted(items, seen, pass)[k] {
      assert after[k] == ItemAfter(items, seen, seen.Keys, pass, k);
    }
  }

  // A completed run keeps the rows path-shaped for the next one.
  lemma CompletedShaped(items: Items, seen: Scan, pass: Pass)
    requires ItemsShaped(items) && LinkedScan(seen, pass.collection)
    ensures ItemsShaped(ItemsCompleted(items, seen, pass))
  {
    var completed := ItemsCompleted(items, seen, pass);
    forall k | k in completed
      ensures completed[k].collection == CollectionOf(k) && completed[k].parent == ParentOf(k)
              && (ParentOf(k).Some? ==> ParentOf(k).value in completed)
    {
      CompletedRow(items, seen, pass, k);
    }
  }

  lemma CompletedRow(items: Items, seen: Scan, pass: Pass, k: ExternalId)
    requires ItemsShaped(items) && LinkedScan(seen, pass.collection) && k in items.Keys + seen.Keys
    ensures var completed := ItemsCompleted(items, seen, pass);
      && completed[k].collection == CollectionOf(k) && completed[k].parent == ParentOf(k)
      && (ParentOf(k).Some? ==> ParentOf(k).value in items.Keys + seen.Keys)
  {
  }

  // The lifecycles a completed run leaves depend on its scan and rules and on which ids were known,
  // not on what earlier runs, finished or not, wrote into the known rows.
  lemma HistoryIrrelevant(a: Items, b: Items, seen: Scan, pass: Pass, other: RunId, id: ExternalId)
    requires ItemsShaped(a) && ItemsShaped(b) && LinkedScan(seen, pass.collection)
    requires CollectionOf(id) == pass.collection && (id in a <==> id in b)
    ensures var x, y := ItemsCompleted(a, seen, pass), ItemsCompleted(b, seen, pass.(run := other));
      (id in x <==> id in y) && (id in x ==> x[id].lifecycle == y[id].lifecycle)
  {
  }

  // Items of other collections are left as they were.
  lemma OtherCollectionsUntouched(items: Items, seen: Scan, pass: Pass, id: ExternalId)
    requires ItemsShaped(items) && LinkedScan(seen, pass.collection)
    requires id in items && items[id].collection != pass.collection
    ensures ItemsCompleted(items, seen, pass)[id] == items[id]
  {
    if Hidden(seen, seen.Keys, pass.plan, id) {
      var f :| f in seen.Keys && f in seen && !seen[f].isDocument && f in pass.plan.folders && Below(id, f);
      BelowCollection(id, f);
    }
  }

  // ---- Missing -----------------------------------------------------------------------------

  ghost predicate NoneTurnedMissing(before: Items, after: Items) {
    forall k :: k in after && after[k].lifecycle == ItemMissing ==> k in before && before[k].lifecycle == ItemMissing
  }

  // Reconciling observations never makes an item missing.
  lemma {:induction false} ReconcilingLosesNothing(items: Items, seen: Scan, order: seq<ExternalId>, pass: Pass)
    requires forall id :: id in order ==> id in seen
    ensures NoneTurnedMissing(items, ReconcileItems(items, seen, order, pass))
    ensures items.Keys <= ReconcileItems(items, seen, order, pass).Keys
    decreases |order|
  {
    if order != [] {
      ReconcilingOneLosesNothing(items, order[0], seen[order[0]], pass);
      ReconcilingLosesNothing(ReconcileItem(items, order[0], seen[order[0]], pass), seen, order[1..], pass);
    }
  }

  lemma ReconcilingOneLosesNothing(items: Items, id: ExternalId, o: Observation, pass: Pass)
    ensures NoneTurnedMissing(items, ReconcileItem(items, id, o, pass))
    ensures items.Keys <= ReconcileItem(items, id, o, pass).Keys
  {
  }

  // A row that reconciliation has not stamped is as it was, and one that is missing was so before.
  lemma {:induction false} UnstampedRow(items: Items, seen: Scan, order: seq<ExternalId>, pass: Pass, k: ExternalId)
    requires (forall id :: id in order ==> id in seen) && k in ReconcileItems(items, seen, order, pass)
    ensures var row := ReconcileItems(items, seen, order, pass)[k];
      row.lifecycle == ItemMissing || row.lastSeen != Some(pass.run) ==> k in items && items[k] == row && k !in order
    decreases |order|
  {
    if order != [] {
      assert order == [order[0]] + order[1..];
      UnstampedRow(ReconcileItem(items, order[0], seen[order[0]], pass), seen, order[1..], pass, k);
    }
  }
}
