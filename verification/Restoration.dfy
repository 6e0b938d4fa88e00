/**
 A document taken out of the library by an exclusion rule and let back in, across any number of scans
 (services/source_worker/engine.py).
 */
module Restoration {

  import opened Outcome
  import opened Corpus
  import opened Reconciliation
  import opened SourceSteps
  import opened SourceWorker
  import opened SyncRuns
  import opened Migrations
  import opened IndexSteps
  import opened Interleaving
  import opened Publication

  // What reconciliation does while the document is excluded: observations of any id, and the ends of
  // runs.
  datatype Event = Seen(pass: Pass, config: nat, id: ExternalId, observation: Observation) | Closed(pass: Pass)

  function After(db: Db, event: Event): Db {
    match event
    case Seen(pass, config, id, o) => ReconcileOne(db, pass, config, id, o, false)
    case Closed(pass) => if pass.run in db.runs then CloseScan(db, pass) else db
  }

  // The document itself is only observed under its own rule, and no run ends without having seen it
  // or excluded it with its folder.
  ghost predicate KeepsOut(db: Db, event: Event, id: ExternalId) {
    match event
    case Seen(pass, _, k, o) => k == id && o.isDocument ==> Classify(id, o, pass) == ItemExcluded
    case Closed(pass) => id in db.items ==> !Unseen(db.items[id], pass)
  }

  function AfterAll(db: Db, events: seq<Event>): Db
    decreases |events|
  {
    if events == [] then db else AfterAll(After(db, events[0]), events[1..])
  }

  ghost predicate KeepOut(db: Db, events: seq<Event>, id: ExternalId)
    decreases |events|
  {
    events == [] || (KeepsOut(db, events[0], id) && KeepOut(After(db, events[0]), events[1..], id))
  }

  function ActiveJobs(jobs: map<JobId, Job>, id: ExternalId): set<JobId> {
    set j | j in jobs && jobs[j].document == id && jobs[j].status in {JobQueued, JobRunning}
  }

  // The index is the one built from `revision`, with nothing under way for the document.
  ghost predicate Retained(db: Db, id: ExternalId, revision: Revision) {
    && id in db.documents
    && CurrentIndex(db, id) == Some(Index(Some(revision), true))
    && ActiveJobs(db.jobs, id) == {}
  }

  // The document is ready besides.
  ghost predicate Indexed(db: Db, id: ExternalId, revision: Revision) {
    Retained(db, id, revision) && db.documents[id].status == DocumentStatus.Ready
  }

  ghost predicate RetainedAs(db: Db, after: Db, id: ExternalId, revision: Revision)
    requires id in db.documents
  {
    Retained(after, id, revision) && after.documents[id].status == db.documents[id].status
  }

  // ---- Held while excluded -------------------------------------------------------------------

  lemma SupersededIdle(jobs: map<JobId, Job>, ids: set<ExternalId>, id: ExternalId)
    requires ActiveJobs(jobs, id) == {}
    ensures ActiveJobs(SupersedeJobs(jobs, ids), id) == {}
  {
    var after := SupersedeJobs(jobs, ids);
    forall j | j in after ensures j !in ActiveJobs(after, id) {
      assert j in jobs && j !in ActiveJobs(jobs, id);
    }
  }

  lemma QueuedElsewhere(jobs: map<JobId, Job>, k: ExternalId, c: CollectionId, revision: Revision, config: nat, id: ExternalId)
    requires ActiveJobs(jobs, id) == {} && k != id
    ensures ActiveJobs(QueueJob(jobs, k, c, revision, config), id) == {}
  {
    var after := QueueJob(jobs, k, c, revision, config);
    forall j | j in after ensures j !in ActiveJobs(after, id) {
      if j in jobs { assert j !in ActiveJobs(jobs, id); }
    }
  }

  lemma DocumentHeld(db: Db, pass: Pass, config: nat, k: ExternalId, o: Observation, lifecycle: ItemState, preserveIndex: bool,
                     id: ExternalId, revision: Revision)
    requires Retained(db, id, revision) && (k == id ==> lifecycle == ItemExcluded)
    ensures RetainedAs(db, ReconcileDocument(db, pass, config, k, o, lifecycle, preserveIndex), id, revision)
  {
    SupersededIdle(db.jobs, {k}, id);
    var jobs := if lifecycle == ItemExcluded then SupersedeJobs(db.jobs, {k}) else db.jobs;
    if k != id { QueuedElsewhere(jobs, k, pass.collection, o.revision, config, id); }
  }

  lemma EventHeld(db: Db, event: Event, id: ExternalId, revision: Revision)
    requires Retained(db, id, revision) && KeepsOut(db, event, id)
    ensures RetainedAs(db, After(db, event), id, revision)
  {
    match event
    case Seen(pass, config, k, o) =>
      var placed := db.(items := ReconcileItem(db.items, k, o, pass));
      assert RetainedAs(db, placed, id, revision);
      if o.isDocument {
        DocumentHeld(placed, pass, config, k, o, Classify(k, o, pass), false, id, revision);
      } else {
        SupersededIdle(db.jobs, Descendants(db.items[k := ItemOf(db.items, k, o, pass)], k), id);
      }
    case Closed(pass) =>
  }

  lemma {:induction false} EventsHeld(db: Db, events: seq<Event>, id: ExternalId, revision: Revision)
    requires Retained(db, id, revision) && KeepOut(db, events, id)
    ensures RetainedAs(db, AfterAll(db, events), id, revision)
    decreases |events|
  {
    if events != [] {
      EventHeld(db, events[0], id, revision);
      EventsHeld(After(db, events[0]), events[1..], id, revision);
    }
  }

  // ---- Hidden while excluded -----------------------------------------------------------------

  // Its own rule, or an excluded folder above it, takes an indexed document out of retrieval and
  // leaves its index alone.
  lemma ExclusionHides(db: Db, pass: Pass, config: nat, k: ExternalId, o: Observation, id: ExternalId, revision: Revision)
    requires Indexed(db, id, revision) && !db.documents[id].deleted && Classify(k, o, pass) == ItemExcluded
    requires (k == id && o.isDocument)
             || (!o.isDocument && Under(db.items[k := ItemOf(db.items, k, o, pass)], id, k))
    ensures var after := ReconcileOne(db, pass, config, k, o, false);
      Indexed(after, id, revision) && !after.documents[id].eligible && after.documents[id].lifecycle == ItemExcluded
  {
    EventHeld(db, Seen(pass, config, k, o), id, revision);
    var placed := db.(items := ReconcileItem(db.items, k, o, pass));
    if !o.isDocument {
      assert id in Descendants(db.items[k := ItemOf(db.items, k, o, pass)], k);
    }
  }

  // ---- Let back in -------------------------------------------------------------------------

  lemma ActiveIsCounted(jobs: map<JobId, Job>, id: ExternalId, revision: Revision)
    ensures HasActiveJob(jobs, id, revision) ==> ActiveJobs(jobs, id) != {}
  {
    if HasActiveJob(jobs, id, revision) {
      var j :| j in jobs && jobs[j].document == id && jobs[j].revision == revision && jobs[j].status in {JobQueued, JobRunning};
      assert j in ActiveJobs(jobs, id);
    }
  }

  lemma QueuedOnce(jobs: map<JobId, Job>, id: ExternalId, c: CollectionId, revision: Revision, config: nat)
    requires ActiveJobs(jobs, id) == {}
    ensures var after := QueueJob(jobs, id, c, revision, config);
      && |ActiveJobs(after, id)| == 1
      && forall j :: j in ActiveJobs(after, id) ==> after[j] == Job(id, c, JobQueued, revision, config, 0)
  {
    var next := Above(jobs.Keys);
    var after := QueueJob(jobs, id, c, revision, config);
    ActiveIsCounted(jobs, id, revision);
    assert forall j :: j in ActiveJobs(after, id) ==> j == next || j in ActiveJobs(jobs, id);
    assert ActiveJobs(after, id) == {next};
  }

  // However long the document was excluded and whatever was scanned meanwhile: at the indexed revision
  // it returns ready and eligible, with its old index and no new job; at any other revision the old
  // index is retired and exactly one job, for the new revision, is active.
  lemma RestoredDocument(db: Db, events: seq<Event>, id: ExternalId, revision: Revision, pass: Pass, config: nat, o: Observation)
    requires Indexed(db, id, revision) && KeepOut(db, events, id)
    requires o.isDocument && Classify(id, o, pass) == ItemActive
    ensures var out := AfterAll(db, events);
      var after := ReconcileOne(out, pass, config, id, o, false);
      && id in after.documents && after.documents[id].lifecycle == ItemActive && after.documents[id].revision == o.revision
      && (o.revision == revision ==>
            && after.documents[id].status == Ready && after.documents[id].eligible
            && after.indexes == out.indexes && CurrentIndex(after, id) == Some(Index(Some(revision), true))
            && after.jobs == out.jobs && ActiveJobs(after.jobs, id) == {})
      && (o.revision != revision ==>
            && after.documents[id].status == Uploaded && !after.documents[id].eligible
            && CurrentIndex(after, id) == None
            && |ActiveJobs(after.jobs, id)| == 1
            && forall j :: j in ActiveJobs(after.jobs, id) ==>
                 after.jobs[j] == Job(id, pass.collection, JobQueued, o.revision, config, 0))
  {
    EventsHeld(db, events, id, revision);
    var out := AfterAll(db, events);
    QueuedOnce(out.jobs, id, pass.collection, o.revision, config);
    ReturnedDocument(out, id, revision, pass, config, o, false);
  }

  // A document whose last attempt failed, at a revision it is not tried again at.
  predicate Settled(db: Db, id: ExternalId, o: Observation) {
    id in db.documents && db.documents[id].status == DocumentFailed && db.documents[id].revision == o.revision
  }

  // What a document returns as: at the indexed revision ready, at another one to be indexed, or failed
  // where it has been settled.
  function Returning(db: Db, id: ExternalId, o: Observation, revision: Revision): DocumentStatus {
    if o.revision == revision then Ready else if Settled(db, id, o) then DocumentFailed else Uploaded
  }

  lemma ReturnedDocument(out: Db, id: ExternalId, revision: Revision, pass: Pass, config: nat, o: Observation, preserveIndex: bool)
    requires Retained(out, id, revision) && o.isDocument && Classify(id, o, pass) == ItemActive
    ensures var after, status := ReconcileOne(out, pass, config, id, o, preserveIndex), Returning(out, id, o, revision);
      && id in after.documents
      && after.documents[id] == Document(pass.collection, status, o.revision, o.revision, config, ItemActive, status == Ready, false)
      && after.indexes == (if status == Ready || preserveIndex then out.indexes else out.indexes[id := out.indexes[id].(current := false)])
      && after.jobs == (if status == Uploaded then QueueJob(out.jobs, id, pass.collection, o.revision, config) else out.jobs)
  {
    var placed := out.(items := ReconcileItem(out.items, id, o, pass));
    assert CurrentIndex(placed, id) == CurrentIndex(out, id);
    assert IndexMatches(placed, id, o) <==> o.revision == revision;
  }

  // ---- Imported indexes --------------------------------------------------------------------

  // An imported index carries no revision: it is trusted exactly when the revision has not moved since
  // the last observation, whatever it was built from.
  lemma ImportedIndexRestored(db: Db, id: ExternalId, pass: Pass, config: nat, o: Observation)
    requires id in db.documents && CurrentIndex(db, id) == Some(Index(None, true))
    requires o.isDocument && Classify(id, o, pass) == ItemActive
    ensures ReconcileOne(db, pass, config, id, o, false).documents[id].status == Ready <==> o.revision == db.documents[id].revision
  {
    var placed := db.(items := ReconcileItem(db.items, id, o, pass));
    assert CurrentIndex(placed, id) == CurrentIndex(db, id);
  }

  // So a revision that moves while the document is excluded goes unnoticed: the document returns ready
  // with an index built from the revision before.
  lemma ImportedIndexOutlivesRevision(db: Db, id: ExternalId, out: Pass, pass: Pass, config: nat, hidden: Observation, o: Observation)
    requires id in db.documents && db.documents[id].status == DocumentStatus.Ready && CurrentIndex(db, id) == Some(Index(None, true))
    requires hidden.isDocument && Classify(id, hidden, out) == ItemExcluded && hidden.revision != db.documents[id].revision
    requires o.isDocument && Classify(id, o, pass) == ItemActive && o.revision == hidden.revision
    ensures var after := ReconcileOne(ReconcileOne(db, out, config, id, hidden, false), pass, config, id, o, false);
      && after.documents[id].status == Ready && after.documents[id].eligible
      && after.documents[id].revision != db.documents[id].revision && after.indexes == db.indexes
  {
    var excluded := ReconcileOne(db, out, config, id, hidden, false);
    assert CurrentIndex(excluded, id) == CurrentIndex(db, id);
    ImportedIndexRestored(excluded, id, pass, config, o);
    var placed := excluded.(items := ReconcileItem(excluded.items, id, o, pass));
    assert IndexMatches(placed, id, o);
  }

  // ---- Failed documents --------------------------------------------------------------------

  // A document that had failed, and whose new revision was first noticed while it was out, is not tried
  // at that revision: it returns failed, its index is retired, and no job is queued.
  lemma FailedStaysFailed(db: Db, id: ExternalId, revision: Revision, out: Pass, pass: Pass, config: nat, hidden: Observation, o: Observation)
    requires Retained(db, id, revision) && db.documents[id].status == DocumentFailed
    requires hidden.isDocument && Classify(id, hidden, out) == ItemExcluded && hidden.revision != revision
    requires o.isDocument && Classify(id, o, pass) == ItemActive && o.revision == hidden.revision
    ensures var after := ReconcileOne(ReconcileOne(db, out, config, id, hidden, false), pass, config, id, o, false);
      && after.documents[id].status == DocumentFailed && after.documents[id].lifecycle == ItemActive && after.documents[id].revision == o.revision
      && CurrentIndex(after, id) == None && ActiveJobs(after.jobs, id) == {}
  {
    EventHeld(db, Seen(out, config, id, hidden), id, revision);
    var excluded := ReconcileOne(db, out, config, id, hidden, false);
    assert Settled(excluded, id, o);
    ReturnedDocument(excluded, id, revision, pass, config, o, false);
  }
}
