/**
 The rows shared by the source worker, the index worker and the retrieval service, for one corpus
 source. Each table is a map from its key; a transaction is one step from one `Db` to the next.
 */
module Corpus {

  import opened Outcome

  type CollectionId = string
  type ExternalId = string
  type Revision = string
  type RunId = nat
  type MigrationId = nat
  type JobId = nat

  // ---- Rows --------------------------------------------------------------------------------

  datatype SourceState = Draft | Validating | SourceActive | NeedsAttention | Disabled | PendingPurge | ValidationPending

  datatype Source = Source(
    state: SourceState,
    configRevision: nat,
    scope: string,
    config: string,
    credentials: string,
    maxDocumentSize: nat)

  datatype CollectionState =
    CollectionPending | CollectionInactive | CollectionActive | CollectionExcluded | CollectionMissing
    | CollectionAccessRevoked | CollectionPendingPurge

  // The exclusion rules of one collection.
  datatype Exclusions = Exclusions(collection: bool, folders: set<ExternalId>, documents: set<ExternalId>)
  {
    predicate Excludes(id: ExternalId, isDocument: bool) {
      if isDocument then id in documents else id in folders
    }
  }

  datatype Collection = Collection(
    filterRevision: nat,
    selected: bool,
    registered: bool,
    valid: bool,
    lifecycle: CollectionState,
    deleted: bool,
    rules: Exclusions)

  datatype ProjectState =
    ProjectPending | ProjectActive | ProjectInactive | ProjectExcluded | ProjectAccessRevoked | ProjectPendingPurge

  datatype Project = Project(lifecycle: ProjectState, eligible: bool, deleted: bool)

  datatype MigrationStatus =
    Requested | MigrationValidating | Syncing | Applying | MigrationCompleted | Cancelled | MigrationFailed

  datatype Migration = Migration(
    status: MigrationStatus,
    sourceConfigRevision: nat,
    targetScope: string,
    targetConfig: string,
    credentials: string,
    allowRisk: bool)

  datatype Trigger = Manual | Scheduled | FilterChange | ForMigration

  datatype RunStatus = RunQueued | RunRunning | RunScanned | RunCompleted | RunFailed | RunSuperseded

  datatype Run = Run(
    collection: CollectionId,
    migration: Option<MigrationId>,
    configRevision: nat,
    filterRevision: nat,
    trigger: Trigger,
    status: RunStatus,
    followUp: bool,
    startedAt: nat)

  datatype Observation = Observation(
    parent: Option<ExternalId>,
    isDocument: bool,
    revision: Revision,
    supported: bool,
    size: nat)

  // What a scan has reported for one run, and which of it has been reconciled.
  datatype Observed = Observed(seen: map<ExternalId, Observation>, reconciled: set<ExternalId>)

  datatype ItemState = ItemActive | ItemExcluded | ItemMissing | ItemUnsupported | ItemOversized | ItemAccessRevoked

  datatype Item = Item(
    collection: CollectionId,
    parent: Option<ExternalId>,
    isDocument: bool,
    revision: Revision,
    lifecycle: ItemState,
    lastSeen: Option<RunId>)

  datatype DocumentStatus = Uploaded | Indexing | Ready | Skipped | DocumentFailed | DocumentDeleted

  datatype Document = Document(
    collection: CollectionId,
    status: DocumentStatus,
    revision: Revision,
    expectedRevision: Revision,
    expectedConfig: nat,
    lifecycle: ItemState,
    eligible: bool,
    deleted: bool)

  // An index built before revisions were recorded has none.
  datatype Index = Index(revision: Option<Revision>, current: bool)

  datatype JobStatus = JobQueued | JobRunning | JobCompleted | JobFailed | JobSuperseded

  datatype Job = Job(
    document: ExternalId,
    collection: CollectionId,
    status: JobStatus,
    revision: Revision,
    config: nat,
    attempts: nat)

  datatype Db = Db(
    source: Source,
    collections: map<CollectionId, Collection>,
    projects: map<CollectionId, Project>,
    migrations: map<MigrationId, Migration>,
    runs: map<RunId, Run>,
    observed: map<RunId, Observed>,
    items: map<ExternalId, Item>,
    documents: map<ExternalId, Document>,
    indexes: map<ExternalId, Index>,
    jobs: map<JobId, Job>)

  // ---- Fresh keys --------------------------------------------------------------------------

  predicate IsGreatest(keys: set<nat>, m: nat) {
    m in keys && forall k :: k in keys ==> k <= m
  }

  lemma GreatestIs(keys: set<nat>)
    requires keys != {}
    ensures exists m :: m in keys && IsGreatest(keys, m)
  {
    var m := GreatestKey(keys);
  }

  // A key above all those in use.
  function Above(keys: set<nat>): (bound: nat)
    ensures forall k :: k in keys ==> k < bound
  {
    if keys == {} then 0
    else
      GreatestIs(keys);
      var m :| m in keys && IsGreatest(keys, m);
      m + 1
  }

  lemma {:induction false} GreatestKey(keys: set<nat>) returns (m: nat)
    requires keys != {}
    ensures IsGreatest(keys, m)
  {
    m :| m in keys;
    if exists k :: k in keys && m < k {
      var higher :| higher in keys && m < higher;
      var above := set k | k in keys && m < k;
      assert m in keys - above && higher in above;
      m := GreatestKey(above);
      assert forall k :: k in keys && k !in above ==> k <= m;
    }
  }

  // ---- Path-shaped ids ---------------------------------------------------------------------

  // The position of the last slash, or the length when there is none.
  function LastSlash(id: ExternalId, n: nat): (r: nat)
    requires n <= |id|
    ensures r < n || r == |id|
    ensures r < |id| ==> id[r] == '/'
  {
    if n == 0 then |id| else if id[n - 1] == '/' then n - 1 else LastSlash(id, n - 1)
  }

  // The folder an id lies in; top-level entries of a collection have none.
  function ParentOf(id: ExternalId): (r: Option<ExternalId>)
    ensures r.Some? ==> |r.value| < |id| && r.value < id
  {
    var cut := LastSlash(id, |id|);
    if cut == |id| then None
    else
      var folder := id[..cut];
      if '/' in folder then Some(folder) else None
  }

  // `id` lies below `folder`.
  predicate Below(id: ExternalId, folder: ExternalId)
    decreases |id|
  {
    var parent := ParentOf(id);
    parent.Some? && (parent.value == folder || Below(parent.value, folder))
  }

  // ---- The order of reconciliation -----------------------------------------------------------

  // Text comparison by code point.
  predicate Less(a: string, b: string) {
    b != "" && (a == "" || a[0] < b[0] || (a[0] == b[0] && Less(a[1..], b[1..])))
  }

  // Folders first, then by id.
  predicate Before(seen: map<ExternalId, Observation>, a: ExternalId, b: ExternalId)
    requires a in seen && b in seen
  {
    if seen[a].isDocument != seen[b].isDocument then seen[b].isDocument else Less(a, b)
  }

  lemma {:induction false} LessIrreflexive(a: string)
    ensures !Less(a, a)
  {
    if a != "" { LessIrreflexive(a[1..]); }
  }

  lemma {:induction false} LessTransitive(a: string, b: string, c: string)
    requires Less(a, b) && Less(b, c)
    ensures Less(a, c)
  {
    if a != "" && a[0] == b[0] && b[0] == c[0] { LessTransitive(a[1..], b[1..], c[1..]); }
  }

  lemma {:induction false} LessTotal(a: string, b: string)
    ensures a == b || Less(a, b) || Less(b, a)
  {
    if a != "" && b != "" && a[0] == b[0] {
      LessTotal(a[1..], b[1..]);
      assert a == [a[0]] + a[1..] && b == [b[0]] + b[1..];
    }
  }

  lemma {:induction false} PrefixLess(a: string, b: string)
    requires a < b
    ensures Less(a, b)
  {
    if a != "" {
      assert a[1..] < b[1..];
      PrefixLess(a[1..], b[1..]);
    }
  }

  lemma BeforeTransitive(seen: map<ExternalId, Observation>, a: ExternalId, b: ExternalId, c: ExternalId)
    requires a in seen && b in seen && c in seen && Before(seen, a, b) && Before(seen, b, c)
    ensures Before(seen, a, c)
  {
    if Less(a, b) && Less(b, c) { LessTransitive(a, b, c); }
  }

  predicate IsFirst(seen: map<ExternalId, Observation>, ids: set<ExternalId>, m: ExternalId)
    requires ids <= seen.Keys
  {
    m in ids && forall k :: k in ids && k != m ==> Before(seen, m, k)
  }

  lemma {:induction false} FirstExists(seen: map<ExternalId, Observation>, ids: set<ExternalId>) returns (m: ExternalId)
    requires ids != {} && ids <= seen.Keys
    ensures IsFirst(seen, ids, m)
  {
    var x :| x in ids;
    m := x;
    LessIrreflexive(x);
    if exists k :: k in ids && Before(seen, k, x) {
      var earlier :| earlier in ids && Before(seen, earlier, x);
      var below := set k | k in ids && Before(seen, k, x);
      assert x in ids - below && earlier in below;
      m := FirstExists(seen, below);
      forall k | k in ids && k != m ensures Before(seen, m, k) {
        if k !in below && k != x {
          LessTotal(k, x);
          BeforeTransitive(seen, m, x, k);
        }
      }
    } else {
      forall k | k in ids && k != x ensures Before(seen, x, k) {
        LessTotal(k, x);
      }
    }
  }

  lemma FirstIs(seen: map<ExternalId, Observation>, ids: set<ExternalId>)
    requires ids != {} && ids <= seen.Keys
    ensures exists m :: m in ids && IsFirst(seen, ids, m)
    ensures forall a, b :: IsFirst(seen, ids, a) && IsFirst(seen, ids, b) ==> a == b
  {
    var m := FirstExists(seen, ids);
    forall a, b | IsFirst(seen, ids, a) && IsFirst(seen, ids, b) ensures a == b {
      FirstUnique(seen, ids, a, b);
    }
  }

  lemma FirstUnique(seen: map<ExternalId, Observation>, ids: set<ExternalId>, a: ExternalId, b: ExternalId)
    requires ids <= seen.Keys && IsFirst(seen, ids, a) && IsFirst(seen, ids, b)
    ensures a == b
  {
    LessIrreflexive(a);
    if a != b {
      BeforeTransitive(seen, a, b, a);
    }
  }

  // The ids in the order they are taken.
  function InOrder(seen: map<ExternalId, Observation>, ids: set<ExternalId>): (r: seq<ExternalId>)
    requires ids <= seen.Keys
    ensures |r| == |ids|
    ensures forall id :: id in r <==> id in ids
    decreases |ids|
  {
    if ids == {} then []
    else
      FirstIs(seen, ids);
      var m :| m in ids && IsFirst(seen, ids, m);
      [m] + InOrder(seen, ids - {m})
  }
}
