/**
 The semantic index (services/common/semantic_index.py): a generation of embeddings for each embedding
 configuration, filled one document at a time beside the active one and switched to when complete.
 Embeddings are given by the provider; a document stands for its document profile.
 */
module SemanticIndex {

  import opened Outcome
  import Corpus

  const SEMANTIC_BACKFILL_LEASE_SECONDS := 300
  const SEMANTIC_RETRY_SECONDS := 60

  type GenerationId = nat
  type DocumentId = string
  type Owner = nat
  type Vector = seq<real>

  datatype Configuration = Configuration(model: string, baseUrl: string)

  datatype GenerationStatus = Validating | Backfilling | Ready | Degraded | Retired

  datatype Lease = Lease(owner: Owner, expiresAt: nat)

  datatype Generation = Generation(
    configuration: Configuration,
    dimension: Option<nat>,
    status: GenerationStatus,
    active: bool,
    lease: Option<Lease>,
    retryAt: Option<nat>)

  // `current` are the documents with a current index, and `ready` those among them that retrieval can
  // see.
  datatype Rows = Rows(
    generations: map<GenerationId, Generation>,
    embeddings: map<(GenerationId, DocumentId), Vector>,
    current: set<DocumentId>,
    ready: set<DocumentId>)

  // ---- Transactions ------------------------------------------------------------------------

  predicate Serves(rows: Rows, g: GenerationId, configuration: Configuration) {
    g in rows.generations && rows.generations[g].configuration == configuration && rows.generations[g].status != Retired
  }

  predicate Served(rows: Rows, configuration: Configuration) {
    exists g :: g in rows.generations && Serves(rows, g, configuration)
  }

  function Update(rows: Rows, g: GenerationId, generation: Generation): Rows {
    rows.(generations := rows.generations[g := generation])
  }

  // The schema's unique index: another generation that is not retired has the configuration.
  predicate Occupied(rows: Rows, g: GenerationId)
    requires g in rows.generations
  {
    exists h :: h in rows.generations && h != g && Serves(rows, h, rows.generations[g].configuration)
  }

  // A write that leaves the generation in service, which that index may refuse.
  function Written(rows: Rows, g: GenerationId, generation: Generation): Rows
    requires g in rows.generations
  {
    if Occupied(rows, g) then rows else Update(rows, g, generation)
  }

  predicate SameUse(a: Generation, b: Generation) {
    a.status != Retired && b.status != Retired && a.configuration == b.configuration
  }

  // The schema's unique index: one generation in use for each configuration.
  ghost predicate OneEach(rows: Rows) {
    forall g, h :: g in rows.generations && h in rows.generations && SameUse(rows.generations[g], rows.generations[h]) ==> g == h
  }

  function Created(rows: Rows, configuration: Configuration): Rows {
    if Served(rows, configuration) then rows
    else Update(rows, Corpus.Above(rows.generations.Keys), Generation(configuration, None, Validating, false, None, None))
  }

  predicate Free(rows: Rows, g: GenerationId, now: nat) {
    g in rows.generations && (rows.generations[g].lease.None? || rows.generations[g].lease.value.expiresAt <= now)
  }

  function LeaseClaimed(rows: Rows, g: GenerationId, owner: Owner, now: nat): Rows {
    if Free(rows, g, now)
    then Update(rows, g, rows.generations[g].(lease := Some(Lease(owner, now + SEMANTIC_BACKFILL_LEASE_SECONDS))))
    else rows
  }

  function LeaseReleased(rows: Rows, g: GenerationId, owner: Owner): Rows {
    if g in rows.generations && rows.generations[g].lease.Some? && rows.generations[g].lease.value.owner == owner
    then Update(rows, g, rows.generations[g].(lease := None))
    else rows
  }

  function Validated(rows: Rows, g: GenerationId, dimension: nat): Rows
    requires g in rows.generations
  {
    Written(rows, g, rows.generations[g].(dimension := Some(dimension), status := Backfilling, retryAt := None))
  }

  function Missing(rows: Rows, g: GenerationId): set<DocumentId> {
    set d | d in rows.ready && (g, d) !in rows.embeddings
  }

  // A document whose index has been retired meanwhile is not stored.
  function Persisted(rows: Rows, g: GenerationId, d: DocumentId, vector: Vector): Rows {
    if d in rows.current then rows.(embeddings := rows.embeddings[(g, d) := vector]) else rows
  }

  function Counted(rows: Rows, g: GenerationId): Rows
    requires g in rows.generations
  {
    Written(rows, g, rows.generations[g].(status := Backfilling, retryAt := None))
  }

  function Deactivated(generation: Generation): Generation {
    if generation.active then generation.(active := false, status := Retired) else generation
  }

  // The same index when the active generations are retired first.
  predicate Collides(rows: Rows, g: GenerationId)
    requires g in rows.generations
  {
    exists h :: h in rows.generations && h != g && !rows.generations[h].active
      && rows.generations[h].status != Retired && rows.generations[h].configuration == rows.generations[g].configuration
  }

  // The switch: every other active generation is retired, and this one is active, in one transaction.
  function Activated(rows: Rows, g: GenerationId): Rows
    requires g in rows.generations
  {
    if Collides(rows, g) then rows
    else rows.(generations := map h | h in rows.generations ::
      if h == g then rows.generations[g].(active := true, status := Ready, retryAt := None) else Deactivated(rows.generations[h]))
  }

  function MarkedDegraded(rows: Rows, g: GenerationId, now: nat): Rows
    requires g in rows.generations
  {
    Written(rows, g, rows.generations[g].(status := Degraded, retryAt := Some(now + SEMANTIC_RETRY_SECONDS)))
  }

  // ---- Interleaved workers -----------------------------------------------------------------

  datatype Holding = Holding(generation: GenerationId, owner: Owner, expiresAt: nat)

  // `held` are the claims granted and not yet given back.
  datatype System = System(rows: Rows, now: nat, held: set<Holding>)

  datatype Action =
    | Create(configuration: Configuration)
    | Claim(generation: GenerationId, owner: Owner)
    | Validate(generation: GenerationId, dimension: nat)
    | Persist(generation: GenerationId, document: DocumentId, vector: Vector)
    | Count(generation: GenerationId)
    | Activate(generation: GenerationId)
    | Degrade(generation: GenerationId)
    | Release(generation: GenerationId, owner: Owner)
    | Wait(until: nat)
    | Reindex(current: set<DocumentId>, ready: set<DocumentId>)

  ghost predicate Fresh(s: System, owner: Owner) {
    forall h :: h in s.held ==> h.owner != owner
  }

  ghost predicate Step(s: System, a: Action, t: System) {
    match a
    case Create(configuration) => t == s.(rows := Created(s.rows, configuration))
    case Claim(g, owner) =>
      Fresh(s, owner)
      && t == s.(rows := LeaseClaimed(s.rows, g, owner, s.now),
                 held := if Free(s.rows, g, s.now) then s.held + {Holding(g, owner, s.now + SEMANTIC_BACKFILL_LEASE_SECONDS)} else s.held)
    case Validate(g, dimension) => g in s.rows.generations && t == s.(rows := Validated(s.rows, g, dimension))
    case Persist(g, d, vector) => t == s.(rows := Persisted(s.rows, g, d, vector))
    case Count(g) => g in s.rows.generations && t == s.(rows := Counted(s.rows, g))
    case Activate(g) => g in s.rows.generations && t == s.(rows := Activated(s.rows, g))
    case Degrade(g) => g in s.rows.generations && t == s.(rows := MarkedDegraded(s.rows, g, s.now))
    case Release(g, owner) =>
      t == s.(rows := LeaseReleased(s.rows, g, owner), held := set h | h in s.held && h.owner != owner)
    case Wait(until) => until >= s.now && t == s.(now := until)
    case Reindex(current, ready) => ready <= current && t == s.(rows := s.rows.(current := current, ready := ready))
  }

  ghost predicate Execution(states: seq<System>, actions: seq<Action>) {
    && |states| == |actions| + 1
    && states[0].rows.generations == map[] && states[0].rows.embeddings == map[] && states[0].held == {}
    && states[0].rows.ready <= states[0].rows.current
    && forall i :: 0 <= i < |actions| ==> Step(states[i], actions[i], states[i + 1])
  }

  function ActiveOnes(rows: Rows): set<GenerationId> {
    set g | g in rows.generations && rows.generations[g].active
  }

  // A claim that has not run out is the one the row records.
  ghost predicate Recorded(s: System, h: Holding) {
    h.expiresAt > s.now ==>
      h.generation in s.rows.generations && s.rows.generations[h.generation].lease == Some(Lease(h.owner, h.expiresAt))
  }

  ghost predicate Leased(s: System) {
    forall h :: h in s.held ==> Recorded(s, h)
  }

  // Only activation moves the active flag, and only claims and releases move leases.
  ghost predicate KeepsFlags(rows: Rows, after: Rows) {
    && rows.generations.Keys <= after.generations.Keys
    && (forall g :: g in rows.generations ==> after.generations[g].active == rows.generations[g].active)
    && (forall g :: g in after.generations && g !in rows.generations ==> !after.generations[g].active)
  }

  ghost predicate KeepsLeases(rows: Rows, after: Rows) {
    && rows.generations.Keys <= after.generations.Keys
    && (forall g :: g in rows.generations ==> after.generations[g].lease == rows.generations[g].lease)
  }

  lemma StepFlags(s: System, a: Action, t: System)
    requires Step(s, a, t) && !a.Activate?
    ensures KeepsFlags(s.rows, t.rows)
  {
  }

  lemma StepLeases(s: System, a: Action, t: System)
    requires Step(s, a, t) && !a.Claim? && !a.Release?
    ensures KeepsLeases(s.rows, t.rows)
  {
  }

  lemma KeptFlags(rows: Rows, after: Rows)
    requires KeepsFlags(rows, after)
    ensures ActiveOnes(after) == ActiveOnes(rows)
  {
  }

  lemma ActivatedOnly(rows: Rows, g: GenerationId)
    requires g in rows.generations
    ensures ActiveOnes(Activated(rows, g)) == if Collides(rows, g) then ActiveOnes(rows) else {g}
  {
  }

  lemma StepActive(s: System, a: Action, t: System)
    requires Step(s, a, t) && |ActiveOnes(s.rows)| <= 1
    ensures |ActiveOnes(t.rows)| <= 1 && (|ActiveOnes(s.rows)| == 1 ==> |ActiveOnes(t.rows)| == 1)
  {
    if a.Activate? {
      ActivatedOnly(s.rows, a.generation);
    } else {
      StepFlags(s, a, t);
      KeptFlags(s.rows, t.rows);
    }
  }

  lemma {:induction false} AtMostOneActive(states: seq<System>, actions: seq<Action>, i: nat)
    requires Execution(states, actions) && i < |states|
    ensures |ActiveOnes(states[i].rows)| <= 1
  {
    if i > 0 {
      AtMostOneActive(states, actions, i - 1);
      StepActive(states[i - 1], actions[i - 1], states[i]);
    }
  }

  // Once a generation has been activated, exactly one stays active in every later state.
  lemma {:induction false} OneStaysActive(states: seq<System>, actions: seq<Action>, i: nat, j: nat)
    requires Execution(states, actions) && i <= j < |states| && ActiveOnes(states[i].rows) != {}
    ensures |ActiveOnes(states[j].rows)| == 1
    decreases j - i
  {
    AtMostOneActive(states, actions, i);
    if i < j {
      OneStaysActive(states, actions, i, j - 1);
      StepActive(states[j - 1], actions[j - 1], states[j]);
    }
  }

  lemma WrittenOneEach(rows: Rows, g: GenerationId, generation: Generation)
    requires OneEach(rows) && g in rows.generations && generation.configuration == rows.generations[g].configuration
    ensures OneEach(Written(rows, g, generation))
  {
  }

  lemma NotOccupied(rows: Rows, g: GenerationId)
    requires OneEach(rows) && g in rows.generations && rows.generations[g].status != Retired
    ensures !Occupied(rows, g)
  {
  }

  lemma StepOneEach(s: System, a: Action, t: System)
    requires Step(s, a, t) && OneEach(s.rows)
    ensures OneEach(t.rows)
  {
    match a
    case Create(_) =>
    case Claim(_, _) =>
    case Validate(g, dimension) =>
      WrittenOneEach(s.rows, g, s.rows.generations[g].(dimension := Some(dimension), status := Backfilling, retryAt := None));
    case Persist(_, _, _) =>
    case Count(g) => WrittenOneEach(s.rows, g, s.rows.generations[g].(status := Backfilling, retryAt := None));
    case Activate(_) =>
    case Degrade(g) =>
      WrittenOneEach(s.rows, g, s.rows.generations[g].(status := Degraded, retryAt := Some(s.now + SEMANTIC_RETRY_SECONDS)));
    case Release(_, _) =>
    case Wait(_) =>
    case Reindex(_, _) =>
  }

  // A configuration never has two generations in service, whatever late workers write.
  lemma {:induction false} OneEachAlways(states: seq<System>, actions: seq<Action>, i: nat)
    requires Execution(states, actions) && i < |states|
    ensures OneEach(states[i].rows)
  {
    if i > 0 {
      OneEachAlways(states, actions, i - 1);
      StepOneEach(states[i - 1], actions[i - 1], states[i]);
    }
  }

  lemma StepLeased(s: System, a: Action, t: System)
    requires Step(s, a, t) && Leased(s)
    ensures Leased(t)
  {
    forall h | h in t.held ensures Recorded(t, h) {
      if h in s.held {
        assert Recorded(s, h);
        if !a.Claim? && !a.Release? { StepLeases(s, a, t); }
      }
    }
  }

  lemma {:induction false} LeasedAlways(states: seq<System>, actions: seq<Action>, i: nat)
    requires Execution(states, actions) && i < |states|
    ensures Leased(states[i])
  {
    if i > 0 {
      LeasedAlways(states, actions, i - 1);
      StepLeased(states[i - 1], actions[i - 1], states[i]);
    }
  }

  // However many workers claim, finish late or never come back, a generation has at most one holder
  // whose lease has not run out.
  lemma OneHolder(states: seq<System>, actions: seq<Action>, i: nat, a: Holding, b: Holding)
    requires Execution(states, actions) && i < |states|
    requires a in states[i].held && b in states[i].held && a.generation == b.generation
    requires a.expiresAt > states[i].now && b.expiresAt > states[i].now
    ensures a == b
  {
    LeasedAlways(states, actions, i);
    assert Recorded(states[i], a) && Recorded(states[i], b);
  }

  // ---- Progress ----------------------------------------------------------------------------

  // The action stores the document for the generation: a document whose index has been retired since it
  // was chosen is passed over.
  ghost predicate Stores(s: System, a: Action, g: GenerationId, d: DocumentId) {
    a.Persist? && a.generation == g && a.document == d && d in s.rows.current
  }

  // A step stores at most the document it persists, and only reindexing makes more documents ready.
  lemma StepMissing(s: System, a: Action, t: System, g: GenerationId)
    requires Step(s, a, t)
    ensures forall d :: (g, d) in t.rows.embeddings <==> (g, d) in s.rows.embeddings || Stores(s, a, g, d)
    ensures !a.Reindex? ==> t.rows.ready == s.rows.ready && t.rows.current == s.rows.current
    ensures !a.Reindex? ==> Missing(t.rows, g) == set d | d in Missing(s.rows, g) && !Stores(s, a, g, d)
  {
  }

  // The document is stored for the generation by a step from `i` on and before `j`.
  ghost predicate StoredBetween(states: seq<System>, actions: seq<Action>, i: nat, j: nat, g: GenerationId, d: DocumentId)
    requires |states| == |actions| + 1 && i <= j <= |actions|
  {
    exists k :: i <= k < j && Stores(states[k], actions[k], g, d)
  }

  lemma StoredLater(states: seq<System>, actions: seq<Action>, i: nat, j: nat, g: GenerationId, d: DocumentId)
    requires |states| == |actions| + 1 && i <= j < |actions|
    ensures StoredBetween(states, actions, i, j + 1, g, d) <==>
      StoredBetween(states, actions, i, j, g, d) || Stores(states[j], actions[j], g, d)
  {
    if StoredBetween(states, actions, i, j + 1, g, d) {
      var k :| i <= k < j + 1 && Stores(states[k], actions[k], g, d);
      assert k == j || k < j;
    }
  }

  // What is stored for a generation stays stored, and nothing else is.
  lemma {:induction false} StoredAlong(states: seq<System>, actions: seq<Action>, i: nat, j: nat, g: GenerationId, d: DocumentId)
    requires Execution(states, actions) && i <= j <= |actions|
    ensures (g, d) in states[j].rows.embeddings <==>
      (g, d) in states[i].rows.embeddings || StoredBetween(states, actions, i, j, g, d)
    decreases j - i
  {
    if i < j {
      StoredAlong(states, actions, i, j - 1, g, d);
      StepMissing(states[j - 1], actions[j - 1], states[j], g);
      StoredLater(states, actions, i, j - 1, g, d);
    }
  }

  lemma {:induction false} ReadyIsCurrent(states: seq<System>, actions: seq<Action>, i: nat)
    requires Execution(states, actions) && i < |states|
    ensures states[i].rows.ready <= states[i].rows.current
  {
    if i > 0 {
      ReadyIsCurrent(states, actions, i - 1);
      StepMissing(states[i - 1], actions[i - 1], states[i], 0);
    }
  }

  ghost predicate NoReindex(actions: seq<Action>, i: nat, j: nat)
    requires i <= j <= |actions|
  {
    forall k :: i <= k < j ==> !actions[k].Reindex?
  }

  lemma {:induction false} SameDocuments(states: seq<System>, actions: seq<Action>, i: nat, j: nat)
    requires Execution(states, actions) && i <= j <= |actions| && NoReindex(actions, i, j)
    ensures states[j].rows.ready == states[i].rows.ready && states[j].rows.current == states[i].rows.current
    decreases j - i
  {
    if i < j {
      SameDocuments(states, actions, i, j - 1);
      StepMissing(states[j - 1], actions[j - 1], states[j], 0);
    }
  }

  ghost predicate PersistedBetween(actions: seq<Action>, i: nat, j: nat, g: GenerationId, d: DocumentId)
    requires i <= j <= |actions|
  {
    exists k :: i <= k < j && actions[k].Persist? && actions[k].generation == g && actions[k].document == d
  }

  // However many workers fill a generation, claim it, lose their lease or give it up: while no document
  // is indexed again, what is missing is what was missing less what has been persisted.
  lemma BackfillAccount(states: seq<System>, actions: seq<Action>, i: nat, j: nat, g: GenerationId)
    requires Execution(states, actions) && i <= j <= |actions| && NoReindex(actions, i, j)
    ensures Missing(states[j].rows, g) == set d | d in Missing(states[i].rows, g) && !PersistedBetween(actions, i, j, g, d)
  {
    ReadyIsCurrent(states, actions, i);
    SameDocuments(states, actions, i, j);
    forall d | d in states[i].rows.ready
      ensures (g, d) in states[j].rows.embeddings <==> (g, d) in states[i].rows.embeddings || PersistedBetween(actions, i, j, g, d)
    {
      StoredAlong(states, actions, i, j, g, d);
      PersistedIsStored(states, actions, i, j, g, d);
    }
  }

  lemma PersistedIsStored(states: seq<System>, actions: seq<Action>, i: nat, j: nat, g: GenerationId, d: DocumentId)
    requires Execution(states, actions) && i <= j <= |actions| && NoReindex(actions, i, j) && d in states[i].rows.current
    ensures StoredBetween(states, actions, i, j, g, d) <==> PersistedBetween(actions, i, j, g, d)
  {
    if PersistedBetween(actions, i, j, g, d) {
      var k :| i <= k < j && actions[k].Persist? && actions[k].generation == g && actions[k].document == d;
      SameDocuments(states, actions, i, k);
      assert Stores(states[k], actions[k], g, d);
    }
  }

  // A worker that has found the document missing persists it some time later: it is stored for good if
  // and only if its index is still current then, or another worker was faster.
  lemma PersistLater(states: seq<System>, actions: seq<Action>, j: nat, k: nat, g: GenerationId, d: DocumentId)
    requires Execution(states, actions) && j < k < |states| && actions[j].Persist?
    requires actions[j].generation == g && actions[j].document == d
    ensures (g, d) in states[j + 1].rows.embeddings <==> (g, d) in states[j].rows.embeddings || d in states[j].rows.current
    ensures (g, d) in states[j + 1].rows.embeddings ==> d !in Missing(states[k].rows, g)
  {
    StepMissing(states[j], actions[j], states[j + 1], g);
    StoredAlong(states, actions, j + 1, k, g, d);
  }

  // The document was not ready and is made so by a step from `i` on and before `j`.
  ghost predicate MadeReady(states: seq<System>, actions: seq<Action>, i: nat, j: nat, d: DocumentId)
    requires |states| == |actions| + 1 && i <= j <= |actions|
  {
    exists k :: i <= k < j && actions[k].Reindex? && d !in states[k].rows.ready && d in states[k + 1].rows.ready
  }

  lemma {:induction false} BecameReady(states: seq<System>, actions: seq<Action>, i: nat, j: nat, d: DocumentId)
    requires Execution(states, actions) && i <= j <= |actions| && d !in states[i].rows.ready && d in states[j].rows.ready
    ensures MadeReady(states, actions, i, j, d)
    decreases j - i
  {
    StepMissing(states[j - 1], actions[j - 1], states[j], 0);
    if d in states[j - 1].rows.ready {
      BecameReady(states, actions, i, j - 1, d);
      var k :| i <= k < j - 1 && actions[k].Reindex? && d !in states[k].rows.ready && d in states[k + 1].rows.ready;
      assert i <= k < j;
    } else {
      assert i <= j - 1 < j;
    }
  }

  // A worker switches to a generation some time after it has found nothing missing, without looking
  // again: missing is then exactly what reindexing has made ready since and no worker has stored.
  lemma ActivationCovers(states: seq<System>, actions: seq<Action>, i: nat, j: nat, g: GenerationId)
    requires Execution(states, actions) && i <= j < |actions| && Missing(states[i].rows, g) == {} && actions[j] == Activate(g)
    ensures forall d :: d in Missing(states[j + 1].rows, g) <==>
      && d in states[j].rows.ready && d !in states[i].rows.ready && MadeReady(states, actions, i, j, d)
      && (g, d) !in states[i].rows.embeddings && !StoredBetween(states, actions, i, j, g, d)
    ensures NoReindex(actions, i, j) ==> Missing(states[j + 1].rows, g) == {}
  {
    StepMissing(states[j], actions[j], states[j + 1], g);
    forall d | d in states[j].rows.ready
      ensures d in Missing(states[j + 1].rows, g) <==>
        (g, d) !in states[i].rows.embeddings && !StoredBetween(states, actions, i, j, g, d)
      ensures (g, d) !in states[i].rows.embeddings ==> d !in states[i].rows.ready && MadeReady(states, actions, i, j, d)
    {
      StoredAlong(states, actions, i, j, g, d);
      if (g, d) !in states[i].rows.embeddings {
        assert d !in Missing(states[i].rows, g);
        BecameReady(states, actions, i, j, d);
      }
    }
    if NoReindex(actions, i, j) { BackfillAccount(states, actions, i, j, g); }
  }

  // A document becomes ready between the check and the switch, and the active generation lacks it.
  lemma ActivatedIncomplete() returns (states: seq<System>, actions: seq<Action>, d: DocumentId)
    ensures Execution(states, actions) && |actions| == 4 && actions[3] == Activate(0)
    ensures Missing(states[2].rows, 0) == {}
    ensures ActiveOnes(states[4].rows) == {0} && d in Missing(states[4].rows, 0)
  {
    d := "report";
    var configuration := Configuration("model", "url");
    var empty := Rows(map[], map[], {}, {});
    var created := empty.(generations := map[0 := Generation(configuration, None, Validating, false, None, None)]);
    var validated := empty.(generations := map[0 := Generation(configuration, Some(1), Backfilling, false, None, None)]);
    var reindexed := validated.(current := {d}, ready := {d});
    var activated := reindexed.(generations := map[0 := Generation(configuration, Some(1), Ready, true, None, None)]);
    actions := [Create(configuration), Validate(0, 1), Reindex({d}, {d}), Activate(0)];
    states := [System(empty, 0, {}), System(created, 0, {}), System(validated, 0, {}), System(reindexed, 0, {}), System(activated, 0, {})];
    FirstCreated(configuration);
    assert Activated(reindexed, 0) == activated;
  }

  lemma FirstCreated(configuration: Configuration)
    ensures Created(Rows(map[], map[], {}, {}), configuration)
         == Rows(map[0 := Generation(configuration, None, Validating, false, None, None)], map[], {}, {})
  {
    assert Rows(map[], map[], {}, {}).generations.Keys == {};
  }

  // ---- One backfill step -------------------------------------------------------------------

  class Store {
    var generations: map<GenerationId, Generation>
    var embeddings: map<(GenerationId, DocumentId), Vector>
    var current: set<DocumentId>
    var ready: set<DocumentId>

    function Table(): Rows
      reads this
    {
      Rows(generations, embeddings, current, ready)
    }

    constructor (rows: Rows)
      ensures Table() == rows
    {
      generations, embeddings, current, ready := rows.generations, rows.embeddings, rows.current, rows.ready;
    }
  }

  method DesiredGeneration(store: Store, configuration: Configuration) returns (g: GenerationId)
    requires OneEach(store.Table())
    modifies store`generations
    ensures store.Table() == Created(old(store.Table()), configuration)
    ensures Serves(store.Table(), g, configuration) && OneEach(store.Table())
    ensures Missing(store.Table(), g) == Missing(old(store.Table()), g)
  {
    if Served(store.Table(), configuration) {
      g :| g in store.generations && Serves(store.Table(), g, configuration);
      return;
    }
    g := Corpus.Above(store.generations.Keys);
    store.generations := store.generations[g := Generation(configuration, None, Validating, false, None, None)];
  }

  // What a step made of the generation: it failed and will be tried again, stored one missing document,
  // found none missing and switched, or found none missing and the settings moved on.
  datatype Progress = Failed | Stored(document: DocumentId) | Switched | SettingsMoved

  ghost predicate Filled(rows: Rows, g: GenerationId, outcome: Progress, embed: DocumentId -> Result<Vector>, after: Rows)
    requires g in rows.generations
  {
    && after.generations.Keys == rows.generations.Keys && after.current == rows.current && after.ready == rows.ready
    && g in after.generations
    && match outcome
       case Failed => after.embeddings == rows.embeddings && after.generations[g].status == Degraded && OtherGenerations(rows, g, after)
       case Stored(d) =>
         && d in Missing(rows, g) && embed(d).Returned? && after.embeddings == rows.embeddings[(g, d) := embed(d).value]
         && after.generations[g].status == Backfilling && after.generations[g].dimension == Some(|embed(d).value|)
         && OtherGenerations(rows, g, after)
       case Switched => Missing(rows, g) == {} && after.embeddings == rows.embeddings && OnlyActive(rows, g, after)
       case SettingsMoved => Missing(rows, g) == {} && after.embeddings == rows.embeddings && OtherGenerations(rows, g, after)
  }

  ghost predicate OtherGenerations(rows: Rows, g: GenerationId, after: Rows)
    requires after.generations.Keys == rows.generations.Keys
  {
    && (forall h :: h in rows.generations && h != g ==> after.generations[h] == rows.generations[h])
    && (g in rows.generations ==> after.generations[g].active == rows.generations[g].active
                                  && after.generations[g].configuration == rows.generations[g].configuration)
  }

  ghost predicate OnlyActive(rows: Rows, g: GenerationId, after: Rows)
    requires after.generations.Keys == rows.generations.Keys
  {
    && (g in rows.generations ==> after.generations[g].active && after.generations[g].status == Ready
                                  && after.generations[g].configuration == rows.generations[g].configuration)
    && forall h :: h in rows.generations && h != g ==> after.generations[h] == Deactivated(rows.generations[h])
  }

  // The provider does not answer, or answers with another dimension.
  ghost predicate Fails(rows: Rows, g: GenerationId, probe: Result<nat>, embed: DocumentId -> Result<Vector>)
    requires g in rows.generations
  {
    var dimension := rows.generations[g].dimension;
    || (dimension.None? && probe.Raised?)
    || exists d :: d in Missing(rows, g)
         && (embed(d).Raised? || Some(|embed(d).value|) != if dimension.None? then Some(probe.value) else dimension)
  }

  // A generation in service is written without running into the unique index.
  method WriteGeneration(store: Store, g: GenerationId, generation: Generation)
    requires g in store.generations && store.generations[g].status != Retired && OneEach(store.Table())
    requires generation.configuration == store.generations[g].configuration
    modifies store`generations
    ensures store.generations == old(store.generations)[g := generation] && OneEach(store.Table())
  {
    NotOccupied(store.Table(), g);
    WrittenOneEach(store.Table(), g, generation);
    store.generations := Written(store.Table(), g, generation).generations;
  }

  // The counts are written, and then the switch.
  method SwitchTo(store: Store, g: GenerationId)
    requires g in store.generations && store.generations[g].status != Retired && OneEach(store.Table())
    modifies store`generations
    ensures store.generations.Keys == old(store.generations).Keys && OnlyActive(old(store.Table()), g, store.Table())
    ensures store.generations[g].lease == old(store.generations[g].lease)
  {
    WriteGeneration(store, g, store.generations[g].(status := Backfilling, retryAt := None));
    assert !Collides(store.Table(), g);
    store.generations := Activated(store.Table(), g).generations;
  }

  // The work under the lease. `probe` is the provider's answer to the dimension test, `embed` its
  // answer for a document, and `wanted` whether the settings still ask for this generation.
  method FillGeneration(store: Store, g: GenerationId, now: nat, probe: Result<nat>, embed: DocumentId -> Result<Vector>, wanted: bool)
    returns (outcome: Progress)
    requires g in store.generations && store.generations[g].status != Retired && OneEach(store.Table()) && store.ready <= store.current
    modifies store`generations, store`embeddings
    ensures Filled(old(store.Table()), g, outcome, embed, store.Table())
    ensures store.generations[g].lease == old(store.generations[g].lease)
    ensures outcome == Failed ==> Fails(old(store.Table()), g, probe, embed)
    ensures outcome == SettingsMoved ==> !wanted
  {
    if store.generations[g].dimension.None? {
      if probe.Raised? {
        WriteGeneration(store, g, store.generations[g].(status := Degraded, retryAt := Some(now + SEMANTIC_RETRY_SECONDS)));
        return Failed;
      }
      WriteGeneration(store, g, store.generations[g].(dimension := Some(probe.value), status := Backfilling, retryAt := None));
    }
    var missing := Missing(store.Table(), g);
    if missing == {} {
      if wanted {
        SwitchTo(store, g);
        return Switched;
      }
      return SettingsMoved;
    }
    var d :| d in missing;
    if embed(d).Raised? || Some(|embed(d).value|) != store.generations[g].dimension {
      WriteGeneration(store, g, store.generations[g].(status := Degraded, retryAt := Some(now + SEMANTIC_RETRY_SECONDS)));
      return Failed;
    }
    store.embeddings := Persisted(store.Table(), g, d, embed(d).value).embeddings;
    WriteGeneration(store, g, store.generations[g].(status := Backfilling, retryAt := None));
    return Stored(d);
  }

  method ClaimLease(store: Store, g: GenerationId, owner: Owner, now: nat) returns (claimed: bool)
    modifies store`generations
    ensures claimed == Free(old(store.Table()), g, now)
    ensures store.Table() == LeaseClaimed(old(store.Table()), g, owner, now)
  {
    if !Free(store.Table(), g, now) {
      return false;
    }
    store.generations := store.generations[g := store.generations[g].(lease := Some(Lease(owner, now + SEMANTIC_BACKFILL_LEASE_SECONDS)))];
    return true;
  }

  method ReleaseLease(store: Store, g: GenerationId, owner: Owner)
    modifies store`generations
    ensures store.Table() == LeaseReleased(old(store.Table()), g, owner)
  {
    if g in store.generations && store.generations[g].lease.Some? && store.generations[g].lease.value.owner == owner {
      store.generations := store.generations[g := store.generations[g].(lease := None)];
    }
  }

  datatype Advance = Unconfigured | NotDue | UpToDate | LeasedElsewhere | Worked(progress: Progress)

  // Whether the generation is to be worked on now.
  function Due(rows: Rows, g: GenerationId, now: nat): Option<Advance>
    requires g in rows.generations
  {
    var generation := rows.generations[g];
    if generation.status == Degraded && generation.retryAt.Some? && generation.retryAt.value > now then Some(NotDue)
    else if generation.status == Ready && generation.active && Missing(rows, g) == {} then Some(UpToDate)
    else if !Free(rows, g, now) then Some(LeasedElsewhere)
    else None
  }

  // Another generation of the same configuration is in service.
  ghost predicate Taken(rows: Rows, g: GenerationId, activeToo: bool)
    requires g in rows.generations
  {
    exists h :: h in rows.generations && h != g && rows.generations[h].configuration == rows.generations[g].configuration
      && rows.generations[h].status in {Validating, Backfilling, Ready, Degraded} && (activeToo || !rows.generations[h].active)
  }

  // A worker writes the row of its generation and nothing else, unless another one has taken its place: tested,
  // counted, or failed, to be tried again in a minute.
  lemma WorkWritten(rows: Rows, g: GenerationId, dimension: nat, now: nat)
    requires g in rows.generations
    ensures var row := rows.generations[g];
      if Taken(rows, g, true) then Validated(rows, g, dimension) == Counted(rows, g) == MarkedDegraded(rows, g, now) == rows
      else
        && Validated(rows, g, dimension) ==
             rows.(generations := rows.generations[g := row.(dimension := Some(dimension), status := Backfilling, retryAt := None)])
        && Counted(rows, g) == rows.(generations := rows.generations[g := row.(status := Backfilling, retryAt := None)])
        && MarkedDegraded(rows, g, now) == rows.(generations := rows.generations[g := row.(status := Degraded, retryAt := Some(now + 60))])
  {
    StatusCases(rows);
  }

  lemma StatusCases(rows: Rows)
    ensures forall h :: h in rows.generations ==>
      (rows.generations[h].status != Retired <==> rows.generations[h].status in {Validating, Backfilling, Ready, Degraded})
  {
    forall h | h in rows.generations
      ensures rows.generations[h].status != Retired <==> rows.generations[h].status in {Validating, Backfilling, Ready, Degraded}
    {
      var status := rows.generations[h].status;
      assert status.Validating? || status.Backfilling? || status.Ready? || status.Degraded? || status.Retired?;
    }
  }

  // The switch retires the active generations and no other, and is refused if and only if an inactive one of the
  // same configuration is in service.
  lemma SwitchWritten(rows: Rows, g: GenerationId)
    requires g in rows.generations
    ensures var after := Activated(rows, g);
      if Taken(rows, g, false) then after == rows
      else
        && after == rows.(generations := after.generations) && after.generations.Keys == rows.generations.Keys
        && after.generations[g] == rows.generations[g].(active := true, status := Ready, retryAt := None)
        && forall h :: h in rows.generations && h != g ==> (
             if rows.generations[h].active then after.generations[h] == rows.generations[h].(active := false, status := Retired)
             else after.generations[h] == rows.generations[h])
  {
    StatusCases(rows);
  }

  // A generation that was marked degraded is left alone for a minute, and then no longer for that.
  lemma DegradedWaits(rows: Rows, g: GenerationId, now: nat, later: nat)
    requires g in rows.generations && !Occupied(rows, g) && now <= later
    ensures var after := MarkedDegraded(rows, g, now);
      g in after.generations && after.generations[g].status == Degraded && (Due(after, g, later) == Some(NotDue) <==> later < now + 60)
  {
  }

  // A lease that is taken keeps everyone out for five minutes, and no longer, unless it is given back.
  lemma LeaseLasts(rows: Rows, g: GenerationId, owner: Owner, now: nat, later: nat)
    requires Free(rows, g, now) && now <= later
    ensures var after := LeaseClaimed(rows, g, owner, now);
      && (Free(after, g, later) <==> later >= now + 300)
      && Free(LeaseReleased(after, g, owner), g, later)
      && forall other :: other != owner ==> LeaseReleased(after, g, other) == after
  {
  }

  // There is work to do unless the generation is waiting, complete and active, or leased.
  lemma DueExactly(rows: Rows, g: GenerationId, now: nat)
    requires g in rows.generations
    ensures var generation := rows.generations[g];
      Due(rows, g, now) == None <==>
        && !(generation.status == Degraded && generation.retryAt.Some? && now < generation.retryAt.value)
        && !(generation.status == Ready && generation.active && forall d :: d in rows.ready ==> (g, d) in rows.embeddings)
        && (generation.lease.Some? ==> generation.lease.value.expiresAt <= now)
  {
    if Missing(rows, g) != {} {
      var d :| d in Missing(rows, g);
    }
    assert forall d :: d in rows.ready && (g, d) !in rows.embeddings ==> d in Missing(rows, g);
  }

  // What one call leaves: nothing but, perhaps, the generation's row when there is nothing to do; else
  // the work done under the lease, and the lease given back.
  ghost predicate Advances(rows: Rows, g: GenerationId, configuration: Configuration, now: nat,
                           embed: DocumentId -> Result<Vector>, advance: Advance, after: Rows)
  {
    var created := Created(rows, configuration);
    && g in created.generations && Serves(created, g, configuration)
    && match Due(created, g, now)
       case Some(reason) => advance == reason && after == created
       case None =>
         && advance.Worked? && g in after.generations && after.generations[g].lease == None
         && FilledButLease(created, g, advance.progress, embed, after)
  }

  ghost predicate FilledButLease(rows: Rows, g: GenerationId, progress: Progress, embed: DocumentId -> Result<Vector>, after: Rows)
    requires g in rows.generations && g in after.generations
  {
    exists lease :: Filled(rows, g, progress, embed, Update(after, g, after.generations[g].(lease := lease)))
  }

  lemma FilledLeased(rows: Rows, lease: Option<Lease>, g: GenerationId, progress: Progress, embed: DocumentId -> Result<Vector>, after: Rows)
    requires g in rows.generations && Filled(Update(rows, g, rows.generations[g].(lease := lease)), g, progress, embed, after)
    ensures g in after.generations && Filled(rows, g, progress, embed, after)
  {
    var leased := Update(rows, g, rows.generations[g].(lease := lease));
    assert Missing(leased, g) == Missing(rows, g);
    assert leased.generations.Keys == rows.generations.Keys;
  }

  lemma LeasedMeanwhile(rows: Rows, g: GenerationId, lease: Option<Lease>, probe: Result<nat>, embed: DocumentId -> Result<Vector>)
    requires g in rows.generations && OneEach(rows)
    ensures var leased := Update(rows, g, rows.generations[g].(lease := lease));
      OneEach(leased) && (Fails(leased, g, probe, embed) ==> Fails(rows, g, probe, embed))
  {
    var leased := Update(rows, g, rows.generations[g].(lease := lease));
    assert Missing(leased, g) == Missing(rows, g);
  }

  // The lease is taken, the work done, and the lease given back.
  method WorkUnderLease(store: Store, g: GenerationId, owner: Owner, now: nat, probe: Result<nat>,
                        embed: DocumentId -> Result<Vector>, wanted: bool)
    returns (progress: Progress)
    requires g in store.generations && store.generations[g].status != Retired && Free(store.Table(), g, now)
    requires OneEach(store.Table()) && store.ready <= store.current
    modifies store`generations, store`embeddings
    ensures g in store.generations && store.generations[g].lease == None
    ensures FilledButLease(old(store.Table()), g, progress, embed, store.Table())
    ensures progress == Failed ==> Fails(old(store.Table()), g, probe, embed)
    ensures progress == SettingsMoved ==> !wanted
  {
    ghost var before := store.Table();
    var claimed := ClaimLease(store, g, owner, now);
    ghost var lease := store.generations[g].lease;
    LeasedMeanwhile(before, g, lease, probe, embed);
    progress := FillGeneration(store, g, now, probe, embed, wanted);
    FilledLeased(before, lease, g, progress, embed, store.Table());
    ReleasedLease(store.Table(), g, owner, lease);
    ReleaseLease(store, g, owner);
  }

  lemma ReleasedLease(filled: Rows, g: GenerationId, owner: Owner, lease: Option<Lease>)
    requires g in filled.generations && filled.generations[g].lease == lease && lease.Some? && lease.value.owner == owner
    ensures var after := LeaseReleased(filled, g, owner);
      && g in after.generations && after.generations[g].lease == None
      && filled == Update(after, g, after.generations[g].(lease := lease))
  {
  }

  // One call of the backfill with nothing between its transactions; what other workers and reindexing
  // may do in between is the subject of the interleaving above.
  method AdvanceBackfill(store: Store, settings: Option<Configuration>, later: Option<Configuration>, owner: Owner, now: nat,
                         probe: Result<nat>, embed: DocumentId -> Result<Vector>)
    returns (advance: Advance, g: GenerationId)
    requires OneEach(store.Table()) && store.ready <= store.current
    modifies store`generations, store`embeddings
    ensures settings.None? ==> advance == Unconfigured && store.Table() == old(store.Table())
    ensures settings.Some? ==> Advances(old(store.Table()), g, settings.value, now, embed, advance, store.Table())
    ensures advance == Worked(Failed) ==> settings.Some? && FailsFor(old(store.Table()), settings.value, g, probe, embed)
    ensures advance == Worked(SettingsMoved) ==> later != settings
  {
    if settings.None? {
      return Unconfigured, 0;
    }
    g := DesiredGeneration(store, settings.value);
    var due := Due(store.Table(), g, now);
    if due.Some? {
      return due.value, g;
    }
    var progress := WorkUnderLease(store, g, owner, now, probe, embed, later == settings);
    return Worked(progress), g;
  }

  ghost predicate FailsFor(rows: Rows, configuration: Configuration, g: GenerationId, probe: Result<nat>, embed: DocumentId -> Result<Vector>) {
    var created := Created(rows, configuration);
    g in created.generations && Fails(created, g, probe, embed)
  }

  // A step that works and does not fail brings the generation closer: one document less is missing,
  // until none is and the generation is switched to.
  lemma StepsForward(rows: Rows, g: GenerationId, configuration: Configuration, now: nat,
                     embed: DocumentId -> Result<Vector>, progress: Progress, after: Rows)
    requires Advances(rows, g, configuration, now, embed, Worked(progress), after)
    requires progress.Stored? || progress.Switched?
    ensures progress.Stored? ==> Missing(after, g) == Missing(rows, g) - {progress.document} && progress.document in Missing(rows, g)
    ensures progress.Switched? ==> Missing(rows, g) == {} && Missing(after, g) == {} && ActiveOnes(after) == {g}
  {
    var created := Created(rows, configuration);
    assert Missing(created, g) == Missing(rows, g);
    var lease :| Filled(created, g, progress, embed, Update(after, g, after.generations[g].(lease := lease)));
    if progress.Switched? {
      SwitchedIsOnly(created, g, after, Update(after, g, after.generations[g].(lease := lease)));
    }
  }

  lemma SwitchedIsOnly(rows: Rows, g: GenerationId, after: Rows, leased: Rows)
    requires g in rows.generations && g in after.generations && leased.generations.Keys == rows.generations.Keys
    requires OnlyActive(rows, g, leased) && leased == Update(after, g, leased.generations[g])
    requires after.generations[g].active == leased.generations[g].active
    ensures ActiveOnes(after) == {g}
  {
    assert leased.generations == after.generations[g := leased.generations[g]];
    forall h | h in after.generations && h != g ensures !after.generations[h].active {
      assert leased.generations[h] == Deactivated(rows.generations[h]);
    }
  }

  // So as many steps store a document as were missing to begin with, and no more.
  lemma {:induction false} StoredSteps(tables: seq<Rows>, g: GenerationId, configuration: Configuration, nows: seq<nat>,
                                       embed: DocumentId -> Result<Vector>, stored: seq<DocumentId>)
    requires |tables| == |stored| + 1 == |nows| + 1
    requires forall i :: 0 <= i < |stored| ==>
      Advances(tables[i], g, configuration, nows[i], embed, Worked(Stored(stored[i])), tables[i + 1])
    ensures |Missing(tables[|stored|], g)| + |stored| == |Missing(tables[0], g)|
    decreases |stored|
  {
    if stored != [] {
      var n := |stored| - 1;
      StoredSteps(tables[..n + 1], g, configuration, nows[..n], embed, stored[..n]);
      StepsForward(tables[n], g, configuration, nows[n], embed, Stored(stored[n]), tables[n + 1]);
    }
  }

  // ---- Search ------------------------------------------------------------------------------

  datatype SearchStatus = EmptyScope | NotConfigured | NotReady | ProviderChanged | Incomplete | ProviderError | Found

  datatype SearchResult = SearchResult(status: SearchStatus, scores: seq<(DocumentId, real)>)

  function ActiveGeneration(rows: Rows): Option<GenerationId> {
    if ActiveOnes(rows) == {} then None
    else
      SomeActive(rows);
      var g :| g in ActiveOnes(rows) && forall h :: h in ActiveOnes(rows) ==> g <= h;
      Some(g)
  }

  lemma {:induction false} LeastOf(ids: set<GenerationId>) returns (g: GenerationId)
    requires ids != {}
    ensures g in ids && forall h :: h in ids ==> g <= h
  {
    var some :| some in ids;
    var below := set h | h in ids && h < some;
    assert forall h :: h in ids && h !in below ==> some <= h;
    if below == {} {
      g := some;
    } else {
      assert some in ids - below;
      g := LeastOf(below);
    }
  }

  lemma SomeActive(rows: Rows)
    requires ActiveOnes(rows) != {}
    ensures exists g :: g in ActiveOnes(rows) && forall h :: h in ActiveOnes(rows) ==> g <= h
  {
    var g := LeastOf(ActiveOnes(rows));
  }

  // The allowed documents whose stored embedding belongs to a current index.
  function Covered(rows: Rows, g: GenerationId, allowed: set<DocumentId>): set<DocumentId> {
    set d | d in allowed && d in rows.current && (g, d) in rows.embeddings
  }

  // Best score first; equal scores by id.
  predicate Better(a: (DocumentId, real), b: (DocumentId, real)) {
    a.1 > b.1 || (a.1 == b.1 && (a.0 == b.0 || Corpus.Less(a.0, b.0)))
  }

  // A better score, or the same and the lesser id.
  lemma BetterExactly(a: (DocumentId, real), b: (DocumentId, real))
    requires a.0 != b.0
    ensures Better(a, b) <==> a.1 > b.1 || (a.1 == b.1 && Corpus.Less(a.0, b.0))
  {
  }

  ghost predicate Ordered(scores: seq<(DocumentId, real)>) {
    forall i, j :: 0 <= i < j < |scores| ==> Better(scores[i], scores[j]) && scores[i].0 != scores[j].0
  }

  // The place of one more score.
  method InsertScore(scores: seq<(DocumentId, real)>, entry: (DocumentId, real)) returns (longer: seq<(DocumentId, real)>)
    requires Ordered(scores) && forall i :: 0 <= i < |scores| ==> scores[i].0 != entry.0
    ensures Ordered(longer) && forall e :: e in longer <==> e == entry || e in scores
  {
    var k := 0;
    while k < |scores| && Better(scores[k], entry)
      invariant 0 <= k <= |scores| && forall i :: 0 <= i < k ==> Better(scores[i], entry)
    {
      k := k + 1;
    }
    longer := scores[..k] + [entry] + scores[k..];
    InsertedAt(scores, entry, k);
  }

  lemma InsertedAt(scores: seq<(DocumentId, real)>, entry: (DocumentId, real), k: nat)
    requires Ordered(scores) && k <= |scores| && (forall i :: 0 <= i < |scores| ==> scores[i].0 != entry.0)
    requires (forall i :: 0 <= i < k ==> Better(scores[i], entry)) && (k < |scores| ==> !Better(scores[k], entry))
    ensures var longer := scores[..k] + [entry] + scores[k..];
      Ordered(longer) && forall e :: e in longer <==> e == entry || e in scores
  {
    var longer := scores[..k] + [entry] + scores[k..];
    forall j | k <= j < |scores| ensures Better(entry, scores[j]) {
      BetterTotal(entry, scores[k]);
      if j > k { BetterTransitive(entry, scores[k], scores[j]); }
    }
    forall i, j | 0 <= i < j < |longer| ensures Better(longer[i], longer[j]) && longer[i].0 != longer[j].0 {
      assert longer[i] == if i < k then scores[i] else if i == k then entry else scores[i - 1];
      assert longer[j] == if j < k then scores[j] else if j == k then entry else scores[j - 1];
    }
    assert scores == scores[..k] + scores[k..];
  }

  lemma BetterTotal(a: (DocumentId, real), b: (DocumentId, real))
    ensures Better(a, b) || Better(b, a)
  {
    Corpus.LessTotal(a.0, b.0);
  }

  lemma BetterTransitive(a: (DocumentId, real), b: (DocumentId, real), c: (DocumentId, real))
    requires Better(a, b) && Better(b, c)
    ensures Better(a, c)
  {
    if Corpus.Less(a.0, b.0) && Corpus.Less(b.0, c.0) { Corpus.LessTransitive(a.0, b.0, c.0); }
  }

  ghost predicate ScoresOf(rows: Rows, g: GenerationId, query: Vector, similarity: (Vector, Vector) -> real, done: set<DocumentId>,
                           scores: seq<(DocumentId, real)>)
    requires forall d :: d in done ==> (g, d) in rows.embeddings
  {
    && Ordered(scores)
    && (forall e :: e in scores ==> e.0 in done && e.1 == similarity(query, rows.embeddings[(g, e.0)]))
    && forall d :: d in done ==> (d, similarity(query, rows.embeddings[(g, d)])) in scores
  }

  method ScoreDocuments(rows: Rows, g: GenerationId, documents: set<DocumentId>, query: Vector, similarity: (Vector, Vector) -> real)
    returns (scores: seq<(DocumentId, real)>)
    requires forall d :: d in documents ==> (g, d) in rows.embeddings
    ensures ScoresOf(rows, g, query, similarity, documents, scores)
  {
    scores := [];
    var left := documents;
    while left != {}
      invariant left <= documents && ScoresOf(rows, g, query, similarity, documents - left, scores)
      decreases left
    {
      var d :| d in left;
      scores := InsertScore(scores, (d, similarity(query, rows.embeddings[(g, d)])));
      left := left - {d};
    }
    assert documents - {} == documents;
  }

  // A search answers with every allowed document, each once and best first, or with none: documents
  // outside the scope are never scored, and a generation that does not cover the scope is not used.
  method SearchDocuments(rows: Rows, blank: bool, scope: set<DocumentId>, settings: Option<Configuration>, query: Result<Vector>,
                         similarity: (Vector, Vector) -> real)
    returns (result: SearchResult)
    ensures result.status != Found ==> result.scores == []
    ensures result.status == EmptyScope <==> blank || scope - {""} == {}
    ensures result.status == NotConfigured <==> !blank && scope - {""} != {} && settings.None?
    ensures result.status == NotReady <==> !blank && scope - {""} != {} && settings.Some? && forall g :: g in rows.generations ==> !rows.generations[g].active
    ensures result.status == Incomplete ==>
      exists g, d :: g in rows.generations && rows.generations[g].active && d in scope && d != "" && !(d in rows.current && (g, d) in rows.embeddings)
    ensures result.status == Found <==> Answerable(rows, blank, scope - {""}, settings, query)
    ensures result.status == Found ==>
      ScoresOf(rows, ActiveGeneration(rows).value, query.value, similarity, scope - {""}, result.scores)
  {
    var allowed := scope - {""};
    if blank || allowed == {} {
      return SearchResult(EmptyScope, []);
    }
    if settings.None? {
      return SearchResult(NotConfigured, []);
    }
    var active := ActiveGeneration(rows);
    if active.None? {
      NoneActive(rows);
      return SearchResult(NotReady, []);
    }
    var g := active.value;
    assert g in ActiveOnes(rows);
    if rows.generations[g].configuration.baseUrl != settings.value.baseUrl {
      return SearchResult(ProviderChanged, []);
    }
    if Covered(rows, g, allowed) != allowed {
      var d :| d in allowed && d !in Covered(rows, g, allowed);
      return SearchResult(Incomplete, []);
    }
    AllCovered(rows, g, allowed);
    if query.Raised? || Some(|query.value|) != rows.generations[g].dimension {
      return SearchResult(ProviderError, []);
    }
    if exists d :: d in allowed && |rows.embeddings[(g, d)]| != |query.value| {
      return SearchResult(ProviderError, []);
    }
    var scores := ScoreDocuments(rows, g, allowed, query.value, similarity);
    return SearchResult(Found, scores);
  }

  lemma NoneActive(rows: Rows)
    requires ActiveOnes(rows) == {}
    ensures forall g :: g in rows.generations ==> !rows.generations[g].active
  {
    forall g | g in rows.generations ensures !rows.generations[g].active {
      assert g !in ActiveOnes(rows);
    }
  }

  lemma AllCovered(rows: Rows, g: GenerationId, allowed: set<DocumentId>)
    requires Covered(rows, g, allowed) == allowed
    ensures forall d :: d in allowed ==> d in rows.current && (g, d) in rows.embeddings
  {
    forall d | d in allowed ensures d in rows.current && (g, d) in rows.embeddings {
      assert d in Covered(rows, g, allowed);
    }
  }

  // A query over a scope that the active generation covers with embeddings of the query's dimension.
  ghost predicate Answerable(rows: Rows, blank: bool, allowed: set<DocumentId>, settings: Option<Configuration>, query: Result<Vector>) {
    && !blank && allowed != {} && settings.Some? && ActiveGeneration(rows).Some? && query.Returned?
    && var g := ActiveGeneration(rows).value;
       && g in rows.generations && rows.generations[g].configuration.baseUrl == settings.value.baseUrl
       && rows.generations[g].dimension == Some(|query.value|)
       && forall d :: d in allowed ==> d in rows.current && (g, d) in rows.embeddings && |rows.embeddings[(g, d)]| == |query.value|
  }
}
