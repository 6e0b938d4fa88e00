/**
 The document scheduler (services/retrieval_api/query_engine.py): documents are worked on side by side,
 their events reach one queue in any interleaving, and the results come out as if the documents had
 been worked on one by one. Cancellation and deadlines are not modelled.
 */
module Scheduler {

  import opened Outcome

  const MAX_PARALLEL_DOCUMENT_RETRIEVALS := 5

  // What one document's retrieval yields, in order: progress to pass on, or a result to keep.
  datatype Event<P, R> = Progress(progress: P) | Found(result: R)

  datatype Item<P, R> = Sent(event: Event<P, R>) | Done

  type Script<P, R> = seq<Event<P, R>>

  // `running` holds what the submitted documents still have to send, `futures` the submitted documents
  // whose end has not been taken from the queue, and `taken` what has been taken for each document.
  datatype State<P, R> = State(
    queue: seq<(nat, Item<P, R>)>,
    running: map<nat, Script<P, R>>,
    futures: set<nat>,
    next: nat,
    completed: nat,
    taken: seq<Script<P, R>>)

  function Concurrency(requested: Option<int>): (limit: nat)
    ensures 1 <= limit <= MAX_PARALLEL_DOCUMENT_RETRIEVALS
  {
    var wanted := if requested.None? || requested.value == 0 then MAX_PARALLEL_DOCUMENT_RETRIEVALS else requested.value;
    var atLeastOne := if wanted < 1 then 1 else wanted;
    if atLeastOne > MAX_PARALLEL_DOCUMENT_RETRIEVALS then MAX_PARALLEL_DOCUMENT_RETRIEVALS else atLeastOne
  }

  // Anything from one to the maximum is granted, more is cut down, and nothing asked for is the maximum.
  lemma ConcurrencyIs(requested: int)
    ensures Concurrency(None) == MAX_PARALLEL_DOCUMENT_RETRIEVALS == Concurrency(Some(0)) == 5
    ensures 1 <= requested <= MAX_PARALLEL_DOCUMENT_RETRIEVALS ==> Concurrency(Some(requested)) == requested
    ensures requested > MAX_PARALLEL_DOCUMENT_RETRIEVALS ==> Concurrency(Some(requested)) == MAX_PARALLEL_DOCUMENT_RETRIEVALS
    ensures requested < 0 ==> Concurrency(Some(requested)) == 1
  {
  }

  // ---- One by one --------------------------------------------------------------------------

  // Later results replace earlier ones.
  function LastFound<P, R>(script: Script<P, R>): Option<R> {
    if script == [] then None
    else
      var last := script[|script| - 1];
      if last.Found? then Some(last.result) else LastFound(script[..|script| - 1])
  }

  function ProgressOf<P, R>(script: Script<P, R>): seq<P> {
    if script == [] then []
    else
      var last := script[|script| - 1];
      ProgressOf(script[..|script| - 1]) + if last.Progress? then [last.progress] else []
  }

  function OneByOne<P, R>(scripts: seq<Script<P, R>>): seq<Option<R>> {
    seq(|scripts|, i requires 0 <= i < |scripts| => LastFound(scripts[i]))
  }

  function Retained<R>(results: seq<Option<R>>): seq<R> {
    if results == [] then []
    else (if results[0].Some? then [results[0].value] else []) + Retained(results[1..])
  }

  // The result kept of a document is the last one it yields.
  lemma {:induction false} LastFoundIs<P, R>(script: Script<P, R>)
    ensures match LastFound(script)
      case Some(result) => exists i :: 0 <= i < |script| && script[i] == Found(result) && forall j :: i < j < |script| ==> script[j].Progress?
      case None => forall i :: 0 <= i < |script| ==> script[i].Progress?
  {
    if script != [] {
      var n := |script| - 1;
      LastFoundIs(script[..n]);
      if script[n].Found? {
        assert script[n] == Found(script[n].result);
      } else if LastFound(script[..n]).Some? {
        var i :| 0 <= i < n && script[..n][i] == Found(LastFound(script[..n]).value) && forall j :: i < j < n ==> script[..n][j].Progress?;
        assert script[i] == script[..n][i];
        assert forall j :: i < j < n ==> script[j] == script[..n][j];
      }
    }
  }

  // Results are kept in the order of the selection, and only those that are missing are left out.
  lemma {:induction false} RetainedInOrder<R>(a: seq<Option<R>>, b: seq<Option<R>>)
    ensures Retained(a + b) == Retained(a) + Retained(b)
    ensures forall result: R :: Retained([Some(result)]) == [result]
    ensures Retained<R>([None]) == []
    decreases |a|
  {
    assert forall r: Option<R> :: [r][1..] == [];
    if a == [] {
      assert a + b == b;
    } else {
      assert (a + b)[0] == a[0] && (a + b)[1..] == a[1..] + b;
      RetainedInOrder(a[1..], b);
    }
  }

  function PassedOn<P>(emitted: seq<(nat, P)>, i: nat): seq<P> {
    if emitted == [] then []
    else
      var last := emitted[|emitted| - 1];
      PassedOn(emitted[..|emitted| - 1], i) + if last.0 == i then [last.1] else []
  }

  lemma PassedOnAppend<P>(emitted: seq<(nat, P)>, k: nat, p: P, i: nat)
    ensures PassedOn(emitted + [(k, p)], i) == PassedOn(emitted, i) + if k == i then [p] else []
  {
    assert (emitted + [(k, p)])[..|emitted|] == emitted;
  }

  lemma TakenAppend<P, R>(script: Script<P, R>, e: Event<P, R>)
    ensures LastFound(script + [e]) == if e.Found? then Some(e.result) else LastFound(script)
    ensures ProgressOf(script + [e]) == ProgressOf(script) + if e.Progress? then [e.progress] else []
  {
    assert (script + [e])[..|script|] == script;
  }

  // ---- The queue ---------------------------------------------------------------------------

  function QueuedFor<P, R>(queue: seq<(nat, Item<P, R>)>, i: nat): Script<P, R> {
    if queue == [] then []
    else (if queue[0].0 == i && queue[0].1.Sent? then [queue[0].1.event] else []) + QueuedFor(queue[1..], i)
  }

  lemma QueuedOne<P, R>(k: nat, item: Item<P, R>, i: nat)
    ensures QueuedFor([(k, item)], i) == if k == i && item.Sent? then [item.event] else []
  {
    assert [(k, item)][1..] == [];
  }

  lemma {:induction false} QueuedAppend<P, R>(queue: seq<(nat, Item<P, R>)>, k: nat, item: Item<P, R>, i: nat)
    ensures QueuedFor(queue + [(k, item)], i) == QueuedFor(queue, i) + if k == i && item.Sent? then [item.event] else []
    decreases |queue|
  {
    if queue == [] {
      QueuedOne(k, item, i);
      assert queue + [(k, item)] == [(k, item)];
    } else {
      assert (queue + [(k, item)])[1..] == queue[1..] + [(k, item)];
      QueuedAppend(queue[1..], k, item, i);
    }
  }

  ghost predicate Absent<P, R>(queue: seq<(nat, Item<P, R>)>, i: nat) {
    forall p :: 0 <= p < |queue| ==> queue[p].0 != i
  }

  lemma {:induction false} AbsentQueuesNothing<P, R>(queue: seq<(nat, Item<P, R>)>, i: nat)
    requires Absent(queue, i)
    ensures QueuedFor(queue, i) == []
    decreases |queue|
  {
    if queue != [] { AbsentQueuesNothing(queue[1..], i); }
  }

  // Nothing of a document follows its end.
  ghost predicate EndsLast<P, R>(queue: seq<(nat, Item<P, R>)>) {
    forall p, q :: 0 <= p < q < |queue| && queue[p].1.Done? ==> queue[q].0 != queue[p].0
  }

  // ---- The invariant -----------------------------------------------------------------------

  // What a document has sent is either taken or queued, in order.
  ghost predicate Tracked<P, R>(script: Script<P, R>, s: State<P, R>, i: nat)
    requires i < |s.taken|
  {
    if i >= s.next then i !in s.running && i !in s.futures && s.taken[i] == [] && Absent(s.queue, i)
    else if i in s.running then
      i in s.futures && (i, Done) !in s.queue && script == s.taken[i] + QueuedFor(s.queue, i) + s.running[i]
    else if i in s.futures then (i, Done) in s.queue && script == s.taken[i] + QueuedFor(s.queue, i)
    else script == s.taken[i] && Absent(s.queue, i)
  }

  ghost predicate Counted<P, R>(n: nat, limit: nat, s: State<P, R>) {
    && s.next <= n && (forall i :: i in s.futures ==> i < s.next) && s.running.Keys <= s.futures
    && |s.futures| + s.completed == s.next && |s.futures| <= limit
    && (s.next < n ==> |s.futures| == limit)
  }

  ghost predicate Valid<P, R>(scripts: seq<Script<P, R>>, limit: nat, s: State<P, R>) {
    && |s.taken| == |scripts| && Counted(|scripts|, limit, s) && EndsLast(s.queue)
    && (forall p :: 0 <= p < |s.queue| ==> s.queue[p].0 < s.next)
    && forall i :: 0 <= i < |scripts| ==> Tracked(scripts[i], s, i)
  }

  // ---- Steps -------------------------------------------------------------------------------

  // The next document is handed to the executor.
  function Submitted<P, R>(scripts: seq<Script<P, R>>, s: State<P, R>): State<P, R>
    requires s.next < |scripts|
  {
    s.(running := s.running[s.next := scripts[s.next]], futures := s.futures + {s.next}, next := s.next + 1)
  }

  // A running document sends its next event, or ends.
  function Advanced<P, R>(s: State<P, R>, i: nat): State<P, R>
    requires i in s.running
  {
    if s.running[i] == [] then s.(queue := s.queue + [(i, Done)], running := s.running - {i})
    else s.(queue := s.queue + [(i, Sent(s.running[i][0]))], running := s.running[i := s.running[i][1..]])
  }

  // The request takes one item from the queue.
  function Taken<P, R>(s: State<P, R>): State<P, R>
    requires s.queue != [] && s.queue[0].0 < |s.taken|
  {
    var (i, item) := s.queue[0];
    var rest := s.(queue := s.queue[1..]);
    if item.Done? then rest.(futures := s.futures - {i}, completed := s.completed + 1)
    else rest.(taken := s.taken[i := s.taken[i] + [item.event]])
  }

  lemma SubmittedTracked<P, R>(scripts: seq<Script<P, R>>, limit: nat, s: State<P, R>, i: nat)
    requires s.next < |scripts| == |s.taken| && i < |scripts| && Tracked(scripts[i], s, i)
    ensures Tracked(scripts[i], Submitted(scripts, s), i)
  {
    if i == s.next { AbsentQueuesNothing(s.queue, i); }
  }

  lemma AdvancedTracked<P, R>(script: Script<P, R>, s: State<P, R>, k: nat, i: nat)
    requires k in s.running && k < s.next && i < |s.taken| && Tracked(script, s, i)
    ensures Tracked(script, Advanced(s, k), i)
  {
    var t := Advanced(s, k);
    var item := t.queue[|s.queue|].1;
    QueuedAppend(s.queue, k, item, i);
    if i == k && s.running[k] == [] {
      assert t.queue[|s.queue|] == (k, Done);
    }
  }

  lemma AdvancedKeeps<P, R>(scripts: seq<Script<P, R>>, limit: nat, s: State<P, R>, k: nat)
    requires Valid(scripts, limit, s) && k in s.running
    ensures Valid(scripts, limit, Advanced(s, k))
  {
    assert k in s.futures;
    assert Tracked(scripts[k], s, k);
    forall i | 0 <= i < |scripts| ensures Tracked(scripts[i], Advanced(s, k), i) {
      AdvancedTracked(scripts[i], s, k, i);
    }
  }

  lemma TakenTracked<P, R>(script: Script<P, R>, s: State<P, R>, i: nat)
    requires s.queue != [] && s.queue[0].0 < |s.taken| && i < |s.taken| && EndsLast(s.queue) && Tracked(script, s, i)
    requires s.queue[0].1.Done? ==> s.queue[0].0 !in s.running
    ensures Tracked(script, Taken(s), i)
  {
    var (k, item) := s.queue[0];
    var t := Taken(s);
    assert s.queue == [s.queue[0]] + t.queue;
    if i == k && item.Done? {
      EndTracked(script, s, i);
    } else if i == k {
      assert s.taken[i] + QueuedFor(s.queue, i) == (s.taken[i] + [item.event]) + QueuedFor(t.queue, i);
    }
  }

  lemma EndTracked<P, R>(script: Script<P, R>, s: State<P, R>, i: nat)
    requires s.queue != [] && s.queue[0] == (i, Done) && i < |s.taken| && EndsLast(s.queue) && Tracked(script, s, i)
    requires i !in s.running
    ensures Tracked(script, Taken(s), i)
  {
    assert s.queue[0] in s.queue;
    assert Absent(s.queue[1..], i);
    AbsentQueuesNothing(s.queue[1..], i);
  }

  lemma TakenKeeps<P, R>(scripts: seq<Script<P, R>>, limit: nat, s: State<P, R>)
    requires Valid(scripts, limit, s) && s.queue != []
    ensures s.queue[0].0 < |scripts|
    ensures s.queue[0].1.Sent? ==> Valid(scripts, limit, Taken(s))
    ensures s.queue[0].1.Done? && s.next < |scripts| ==> Valid(scripts, limit, Submitted(scripts, Taken(s)))
    ensures s.queue[0].1.Done? && s.next == |scripts| ==> Valid(scripts, limit, Taken(s))
  {
    var k := s.queue[0].0;
    assert Tracked(scripts[k], s, k);
    assert s.queue[0] in s.queue;
    var t := Taken(s);
    forall i | 0 <= i < |scripts| ensures Tracked(scripts[i], t, i) {
      assert Tracked(scripts[i], s, i);
      TakenTracked(scripts[i], s, i);
    }
    if s.next < |scripts| {
      forall i | 0 <= i < |scripts| ensures Tracked(scripts[i], Submitted(scripts, t), i) {
        SubmittedTracked(scripts, limit, t, i);
      }
    }
  }

  // ---- Progress ----------------------------------------------------------------------------

  // What is left to send for a document, its end included.
  function Left<P, R>(scripts: seq<Script<P, R>>, s: State<P, R>, i: nat): nat
    requires i < |scripts|
  {
    if i in s.running then |s.running[i]| + 1 else if i >= s.next then |scripts[i]| + 1 else 0
  }

  function LeftUpTo<P, R>(scripts: seq<Script<P, R>>, s: State<P, R>, n: nat): nat
    requires n <= |scripts|
  {
    if n == 0 then 0 else LeftUpTo(scripts, s, n - 1) + Left(scripts, s, n - 1)
  }

  // Sending moves work into the queue, and taking shortens the queue.
  function Work<P, R>(scripts: seq<Script<P, R>>, s: State<P, R>): nat {
    2 * LeftUpTo(scripts, s, |scripts|) + |s.queue|
  }

  lemma {:induction false} SameLeft<P, R>(scripts: seq<Script<P, R>>, s: State<P, R>, t: State<P, R>, n: nat)
    requires n <= |scripts| && forall i :: 0 <= i < n ==> Left(scripts, t, i) == Left(scripts, s, i)
    ensures LeftUpTo(scripts, t, n) == LeftUpTo(scripts, s, n)
  {
    if n > 0 { SameLeft(scripts, s, t, n - 1); }
  }

  lemma {:induction false} OneLess<P, R>(scripts: seq<Script<P, R>>, s: State<P, R>, t: State<P, R>, k: nat, n: nat)
    requires k < n <= |scripts| && Left(scripts, t, k) + 1 == Left(scripts, s, k)
    requires forall i :: 0 <= i < n && i != k ==> Left(scripts, t, i) == Left(scripts, s, i)
    ensures LeftUpTo(scripts, t, n) + 1 == LeftUpTo(scripts, s, n)
    decreases n
  {
    if k == n - 1 { SameLeft(scripts, s, t, n - 1); } else { OneLess(scripts, s, t, k, n - 1); }
  }

  lemma AdvancedWorks<P, R>(scripts: seq<Script<P, R>>, limit: nat, s: State<P, R>, k: nat)
    requires Valid(scripts, limit, s) && k in s.running
    ensures Work(scripts, Advanced(s, k)) < Work(scripts, s)
  {
    assert k in s.futures;
    OneLess(scripts, s, Advanced(s, k), k, |scripts|);
  }

  lemma TakenWorks<P, R>(scripts: seq<Script<P, R>>, s: State<P, R>)
    requires s.queue != [] && s.queue[0].0 < |s.taken|
    ensures Work(scripts, Taken(s)) < Work(scripts, s)
    ensures s.next < |scripts| && s.next !in s.running ==> Work(scripts, Submitted(scripts, Taken(s))) < Work(scripts, s)
  {
    var t := Taken(s);
    SameLeft(scripts, s, t, |scripts|);
    if s.next < |scripts| && s.next !in s.running {
      SameLeft(scripts, s, Submitted(scripts, t), |scripts|);
    }
  }

  // While documents are missing, one of them is running or has something in the queue.
  lemma NeverStuck<P, R>(scripts: seq<Script<P, R>>, limit: nat, s: State<P, R>)
    requires Valid(scripts, limit, s) && limit > 0 && s.completed < |scripts| && s.queue == []
    ensures s.running != map[]
  {
    if s.next < |scripts| { assert |s.futures| == limit; }
    assert s.futures != {};
    var i :| i in s.futures;
    assert Tracked(scripts[i], s, i);
  }

  lemma AllTaken<P, R>(scripts: seq<Script<P, R>>, limit: nat, s: State<P, R>)
    requires Valid(scripts, limit, s) && s.completed >= |scripts|
    ensures s.next == |scripts| && s.taken == scripts
  {
    assert s.futures == {};
    forall i | 0 <= i < |scripts| ensures s.taken[i] == scripts[i] {
      assert Tracked(scripts[i], s, i);
    }
  }

  // ---- The loop ----------------------------------------------------------------------------

  ghost predicate Reflects<P, R>(s: State<P, R>, slots: seq<Option<R>>, emitted: seq<(nat, P)>) {
    && |slots| == |s.taken|
    && forall i :: 0 <= i < |slots| ==> slots[i] == LastFound(s.taken[i]) && PassedOn(emitted, i) == ProgressOf(s.taken[i])
  }

  lemma ReflectsTaken<P, R>(s: State<P, R>, slots: seq<Option<R>>, emitted: seq<(nat, P)>)
    requires Reflects(s, slots, emitted) && s.queue != [] && s.queue[0].0 < |s.taken| && s.queue[0].1.Sent?
    ensures var (i, item) := s.queue[0];
      if item.event.Found? then Reflects(Taken(s), slots[i := Some(item.event.result)], emitted)
      else Reflects(Taken(s), slots, emitted + [(i, item.event.progress)])
  {
    var (k, item) := s.queue[0];
    TakenAppend(s.taken[k], item.event);
    if item.event.Progress? {
      forall i | 0 <= i < |slots|
        ensures PassedOn(emitted + [(k, item.event.progress)], i) == PassedOn(emitted, i) + if k == i then [item.event.progress] else []
      {
        PassedOnAppend(emitted, k, item.event.progress, i);
      }
    }
  }

  function Initial<P, R>(n: nat): State<P, R> {
    State([], map[], {}, 0, 0, seq(n, i => []))
  }

  // The first documents are submitted together.
  method Launch<P, R>(scripts: seq<Script<P, R>>, limit: nat) returns (s: State<P, R>)
    requires limit <= |scripts|
    ensures Valid(scripts, limit, s) && s.next == limit && s.queue == [] && s.taken == seq(|scripts|, i => [])
  {
    s := Initial(|scripts|);
    assert forall i :: 0 <= i < |scripts| ==> Tracked(scripts[i], s, i);
    while s.next < limit
      invariant s.next <= limit && |s.taken| == |scripts| && s.queue == [] && s.taken == seq(|scripts|, i => [])
      invariant |s.futures| == s.next && s.completed == 0 && s.running.Keys <= s.futures
      invariant forall i :: i in s.futures ==> i < s.next
      invariant forall i :: 0 <= i < |scripts| ==> Tracked(scripts[i], s, i)
      decreases limit - s.next
    {
      forall i | 0 <= i < |scripts| ensures Tracked(scripts[i], Submitted(scripts, s), i) {
        SubmittedTracked(scripts, limit, s, i);
      }
      s := Submitted(scripts, s);
    }
  }

  // One item leaves the queue: a result is kept in its document's slot, progress is passed on, and the
  // end of a document makes room for the next one.
  method TakeItem<P, R>(scripts: seq<Script<P, R>>, limit: nat, s: State<P, R>, slots: array<Option<R>>, emitted: seq<(nat, P)>)
    returns (t: State<P, R>, passed: seq<(nat, P)>)
    requires Valid(scripts, limit, s) && Reflects(s, slots[..], emitted) && s.queue != []
    modifies slots
    ensures Valid(scripts, limit, t) && Reflects(t, slots[..], passed) && Work(scripts, t) < Work(scripts, s)
    ensures t.next == s.next || (s.next < |scripts| && t.next == s.next + 1)
  {
    TakenKeeps(scripts, limit, s);
    TakenWorks(scripts, s);
    var (i, item) := s.queue[0];
    t, passed := Taken(s), emitted;
    if item.Sent? {
      ReflectsTaken(s, slots[..], emitted);
      if item.event.Found? {
        slots[i] := Some(item.event.result);
      } else {
        passed := emitted + [(i, item.event.progress)];
      }
    } else if t.next < |scripts| {
      NotYetRunning(scripts, limit, s);
      t := Submitted(scripts, t);
    }
  }

  lemma NotYetRunning<P, R>(scripts: seq<Script<P, R>>, limit: nat, s: State<P, R>)
    requires Valid(scripts, limit, s) && s.next < |scripts|
    ensures s.next !in s.running
  {
    assert Tracked(scripts[s.next], s, s.next);
  }

  lemma Counts(n: nat)
    ensures seq(n, i => i) + [n] == seq(n + 1, i => i)
  {
  }

  lemma SlotsAreOneByOne<P, R>(scripts: seq<Script<P, R>>, limit: nat, s: State<P, R>, slots: seq<Option<R>>, emitted: seq<(nat, P)>)
    requires Valid(scripts, limit, s) && s.completed >= |scripts| && Reflects(s, slots, emitted)
    ensures slots == OneByOne(scripts) && s.next == |scripts|
    ensures forall i :: 0 <= i < |scripts| ==> PassedOn(emitted, i) == ProgressOf(scripts[i])
  {
    AllTaken(scripts, limit, s);
  }

  // For every interleaving of the documents' work and the loop's own steps, the loop ends; each
  // document has been submitted once, in selection order; no more than the limit were in flight; each
  // document's progress was passed on in its order; and the results kept, in selection order, are those
  // of working on the documents one by one.
  method GatherEvidence<P, R>(scripts: seq<Script<P, R>>, requested: Option<int>)
    returns (results: seq<R>, emitted: seq<(nat, P)>, ghost submitted: seq<nat>, ghost peak: nat)
    ensures results == Retained(OneByOne(scripts))
    ensures forall i :: 0 <= i < |scripts| ==> PassedOn(emitted, i) == ProgressOf(scripts[i])
    ensures submitted == seq(|scripts|, i => i) && peak <= Concurrency(requested)
  {
    var n := |scripts|;
    var slots := new Option<R>[n](i => None);
    var limit := if Concurrency(requested) < n then Concurrency(requested) else n;
    var s := Launch(scripts, limit);
    emitted := [];
    peak := limit;
    submitted := seq(limit, i => i);
    assert Reflects(s, slots[..], emitted);
    while s.completed < n
      invariant Valid(scripts, limit, s) && Reflects(s, slots[..], emitted)
      invariant peak <= limit && submitted == seq(s.next, i => i)
      decreases Work(scripts, s)
    {
      var documentMoves: bool := *;
      if s.running != map[] && (s.queue == [] || documentMoves) {
        var i :| i in s.running;
        AdvancedKeeps(scripts, limit, s, i);
        AdvancedWorks(scripts, limit, s, i);
        s := Advanced(s, i);
      } else {
        if s.queue == [] { NeverStuck(scripts, limit, s); }
        Counts(s.next);
        ghost var before := s.next;
        s, emitted := TakeItem(scripts, limit, s, slots, emitted);
        submitted := if s.next == before then submitted else submitted + [before];
      }
      peak := if |s.futures| > peak then |s.futures| else peak;
    }
    SlotsAreOneByOne(scripts, limit, s, slots[..], emitted);
    results := Retained(slots[..]);
  }
}
