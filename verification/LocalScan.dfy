/**
 The local connector's walk over a folder tree (services/source_worker/connectors/local.py): what a
 scan of a collection reports, and what a completed run makes of it.
 */
module LocalScan {

  import opened Outcome
  import opened Corpus
  import opened Reconciliation

  // Directory entries in the order they are visited. Symbolic links, special files and ignored names
  // are `Passed` over.
  datatype Entry =
    | Folder(name: string, entries: seq<Entry>)
    | File(name: string, revision: Revision, supported: bool, size: nat)
    | Passed(name: string)

  type Report = (ExternalId, Observation)

  function Child(prefix: ExternalId, name: string): ExternalId {
    prefix + "/" + name
  }

  // Every entry of a folder is reported; a folder that is excluded is reported but not entered.
  function Walk(entries: seq<Entry>, prefix: ExternalId, parent: Option<ExternalId>, plan: Exclusions): seq<Report>
    decreases entries
  {
    if entries == [] then []
    else WalkEntry(entries[0], prefix, parent, plan) + Walk(entries[1..], prefix, parent, plan)
  }

  function WalkEntry(entry: Entry, prefix: ExternalId, parent: Option<ExternalId>, plan: Exclusions): seq<Report>
    decreases entry
  {
    var id := Child(prefix, entry.name);
    match entry
    case Passed(_) => []
    case File(_, revision, supported, size) => [(id, Observation(parent, true, revision, supported, size))]
    case Folder(_, inside) =>
      [(id, Observation(parent, false, "", true, 0))] + if plan.Excludes(id, false) then [] else Walk(inside, id, Some(id), plan)
  }

  // ---- Shape -------------------------------------------------------------------------------

  // Sibling names are distinct, and none contains a slash.
  ghost predicate Named(entries: seq<Entry>)
    decreases entries
  {
    && (forall i, j :: 0 <= i < j < |entries| ==> entries[i].name != entries[j].name)
    && forall i :: 0 <= i < |entries| ==> '/' !in entries[i].name && (entries[i].Folder? ==> Named(entries[i].entries))
  }

  lemma {:induction false} NoSlashIn(id: ExternalId, k: nat, n: nat)
    requires k <= n <= |id| && forall i :: k <= i < n ==> id[i] != '/'
    ensures LastSlash(id, n) == LastSlash(id, k)
    decreases n
  {
    if k < n { NoSlashIn(id, k, n - 1); }
  }

  lemma ParentOfChild(prefix: ExternalId, name: string)
    requires '/' !in name
    ensures ParentOf(Child(prefix, name)) == if '/' in prefix then Some(prefix) else None
  {
    var id := Child(prefix, name);
    assert id[|prefix|] == '/' && id[..|prefix|] == prefix;
    assert forall i :: |prefix| + 1 <= i < |id| ==> id[i] == name[i - |prefix| - 1];
    NoSlashIn(id, |prefix| + 1, |id|);
  }

  predicate Opened(report: Report, plan: Exclusions) {
    !report.1.isDocument && report.0 !in plan.folders
  }

  // The parent link of a report is the folder the walk started from, or an opened folder reported
  // before it.
  ghost predicate Linked(reports: seq<Report>, prefix: ExternalId, plan: Exclusions, i: nat)
    requires i < |reports|
  {
    var parent := ParentOf(reports[i].0);
    && Child(prefix, "") <= reports[i].0
    && reports[i].1.parent == parent
    && (parent == (if '/' in prefix then Some(prefix) else None)
        || (parent.Some? && exists j :: 0 <= j < i && reports[j].0 == parent.value && Opened(reports[j], plan)))
  }

  ghost predicate AllLinked(reports: seq<Report>, prefix: ExternalId, plan: Exclusions) {
    forall i :: 0 <= i < |reports| ==> Linked(reports, prefix, plan, i)
  }

  lemma LinkedAppend(a: seq<Report>, b: seq<Report>, prefix: ExternalId, plan: Exclusions)
    requires AllLinked(a, prefix, plan) && AllLinked(b, prefix, plan)
    ensures AllLinked(a + b, prefix, plan)
  {
    forall i | 0 <= i < |a + b| ensures Linked(a + b, prefix, plan, i) {
      if i < |a| {
        assert Linked(a, prefix, plan, i) && (a + b)[i] == a[i];
        LinkedShift([], a, b, prefix, plan, i);
        assert [] + a + b == a + b;
      } else {
        assert Linked(b, prefix, plan, i - |a|) && (a + b)[i] == b[i - |a|];
        LinkedShift(a, b, [], prefix, plan, i - |a|);
        assert a + b + [] == a + b;
      }
    }
  }

  lemma LinkedShift(a: seq<Report>, b: seq<Report>, c: seq<Report>, prefix: ExternalId, plan: Exclusions, i: nat)
    requires i < |b| && Linked(b, prefix, plan, i)
    ensures Linked(a + b + c, prefix, plan, |a| + i)
  {
    var all := a + b + c;
    assert all[|a| + i] == b[i];
    var parent := ParentOf(b[i].0);
    if parent.Some? && exists j :: 0 <= j < i && b[j].0 == parent.value && Opened(b[j], plan) {
      var j :| 0 <= j < i && b[j].0 == parent.value && Opened(b[j], plan);
      assert all[|a| + j] == b[j];
    }
  }

  // What is inside an opened folder, seen from the folder that holds it.
  lemma LinkedInside(folder: Report, inside: seq<Report>, prefix: ExternalId, name: string, plan: Exclusions)
    requires folder.0 == Child(prefix, name) && '/' !in name && Opened(folder, plan)
    requires folder.1.parent == (if '/' in prefix then Some(prefix) else None)
    requires AllLinked(inside, folder.0, plan)
    ensures AllLinked([folder] + inside, prefix, plan)
  {
    ParentOfChild(prefix, name);
    var all := [folder] + inside;
    forall i | 0 <= i < |all| ensures Linked(all, prefix, plan, i) {
      if i > 0 {
        assert Linked(inside, folder.0, plan, i - 1) && all[i] == inside[i - 1];
        assert Child(prefix, "") <= Child(folder.0, "");
        InsideParent(folder, inside, prefix, plan, i - 1);
      }
    }
  }

  lemma InsideParent(folder: Report, inside: seq<Report>, prefix: ExternalId, plan: Exclusions, i: nat)
    requires i < |inside| && Linked(inside, folder.0, plan, i) && Opened(folder, plan) && '/' in folder.0
    ensures var all := [folder] + inside; var parent := ParentOf(inside[i].0);
      parent.Some? && exists j :: 0 <= j < i + 1 && all[j].0 == parent.value && Opened(all[j], plan)
  {
    var all := [folder] + inside;
    var parent := ParentOf(inside[i].0);
    if parent == Some(folder.0) {
      assert all[0] == folder;
    } else {
      var j :| 0 <= j < i && inside[j].0 == parent.value && Opened(inside[j], plan);
      assert all[j + 1] == inside[j];
    }
  }

  lemma {:induction false} WalkLinked(entries: seq<Entry>, prefix: ExternalId, plan: Exclusions)
    requires Named(entries)
    ensures AllLinked(Walk(entries, prefix, if '/' in prefix then Some(prefix) else None, plan), prefix, plan)
    decreases entries
  {
    var parent := if '/' in prefix then Some(prefix) else None;
    if entries != [] {
      var id := Child(prefix, entries[0].name);
      ParentOfChild(prefix, entries[0].name);
      WalkLinked(entries[1..], prefix, plan);
      var first := WalkEntry(entries[0], prefix, parent, plan);
      assert AllLinked(first, prefix, plan) by {
        EntryLinked(entries[0], prefix, plan);
      }
      LinkedAppend(first, Walk(entries[1..], prefix, parent, plan), prefix, plan);
    }
  }

  lemma {:induction false} EntryLinked(entry: Entry, prefix: ExternalId, plan: Exclusions)
    requires '/' !in entry.name && (entry.Folder? ==> Named(entry.entries))
    ensures AllLinked(WalkEntry(entry, prefix, if '/' in prefix then Some(prefix) else None, plan), prefix, plan)
    decreases entry
  {
    var parent := if '/' in prefix then Some(prefix) else None;
    var id := Child(prefix, entry.name);
    ParentOfChild(prefix, entry.name);
    assert Child(prefix, "") <= id;
    match entry
    case Folder(name, inside) =>
      var folder := (id, Observation(parent, false, "", true, 0));
      if plan.Excludes(id, false) {
        assert AllLinked([folder], prefix, plan);
      } else {
        assert '/' in id by { assert id[|prefix|] == '/'; }
        WalkLinked(inside, id, plan);
        LinkedInside(folder, Walk(inside, id, Some(id), plan), prefix, name, plan);
      }
    case _ =>
  }

  // ---- What is reported --------------------------------------------------------------------

  function IdOf(prefix: ExternalId, names: seq<string>): ExternalId
    decreases |names|
  {
    if names == [] then prefix else IdOf(Child(prefix, names[0]), names[1..])
  }

  // The entry at a path of names.
  function Lookup(entries: seq<Entry>, names: seq<string>): Option<Entry>
    decreases entries
  {
    if names == [] || entries == [] then None
    else if entries[0].name != names[0] then Lookup(entries[1..], names)
    else if |names| == 1 then Some(entries[0])
    else if entries[0].Folder? then LookupInside(entries[0], names[1..])
    else None
  }

  function LookupInside(entry: Entry, names: seq<string>): Option<Entry>
    requires entry.Folder?
    decreases entry
  {
    Lookup(entry.entries, names)
  }

  // No folder on the way is excluded.
  predicate WayOpen(prefix: ExternalId, names: seq<string>, plan: Exclusions)
    decreases |names|
  {
    |names| <= 1 || (Child(prefix, names[0]) !in plan.folders && WayOpen(Child(prefix, names[0]), names[1..], plan))
  }

  ghost predicate SlashFree(names: seq<string>) {
    names != [] && forall i :: 0 <= i < |names| ==> '/' !in names[i]
  }

  // `id` is the entry `name` of the folder, or lies inside it.
  predicate Of(id: ExternalId, prefix: ExternalId, name: string) {
    id == Child(prefix, name) || Child(Child(prefix, name), "") <= id
  }

  lemma NameEnds(id: ExternalId, prefix: ExternalId, name: string)
    requires '/' !in name && Of(id, prefix, name)
    ensures |prefix| < |id| && name <= id[|prefix| + 1..] && FirstSlash(id[|prefix| + 1..]) == |name|
  {
    var start := |prefix| + 1;
    assert Child(prefix, name) <= id;
    var tail := id[start..];
    assert tail[..|name|] == name by {
      assert forall i :: 0 <= i < |name| ==> Child(prefix, name)[start + i] == name[i];
    }
    assert forall i :: 0 <= i < |name| ==> tail[i] == name[i] != '/';
    if |tail| > |name| {
      assert Child(Child(prefix, name), "")[start + |name|] == '/';
    }
  }

  lemma NamesApart(id: ExternalId, prefix: ExternalId, a: string, b: string)
    requires '/' !in a && '/' !in b && Of(id, prefix, a) && Of(id, prefix, b)
    ensures a == b
  {
    NameEnds(id, prefix, a);
    NameEnds(id, prefix, b);
  }

  lemma {:induction false} IdUnder(prefix: ExternalId, names: seq<string>)
    ensures prefix <= IdOf(prefix, names)
    ensures names != [] ==> Child(prefix, "") <= IdOf(prefix, names)
    decreases |names|
  {
    if names != [] { IdUnder(Child(prefix, names[0]), names[1..]); }
  }

  lemma IdOfFirst(prefix: ExternalId, names: seq<string>)
    requires names != []
    ensures Of(IdOf(prefix, names), prefix, names[0])
    ensures |names| == 1 ==> IdOf(prefix, names) == Child(prefix, names[0])
    ensures |names| > 1 ==> |IdOf(prefix, names)| > |Child(prefix, names[0])|
  {
    IdUnder(Child(prefix, names[0]), names[1..]);
  }

  lemma {:induction false} EntryReportsOf(entry: Entry, prefix: ExternalId, parent: Option<ExternalId>, plan: Exclusions)
    ensures forall r :: r in WalkEntry(entry, prefix, parent, plan) ==> Of(r.0, prefix, entry.name)
    decreases entry
  {
    if entry.Folder? {
      var id := Child(prefix, entry.name);
      WalkReportsUnder(entry.entries, id, Some(id), plan);
    }
  }

  lemma {:induction false} WalkReportsUnder(entries: seq<Entry>, prefix: ExternalId, parent: Option<ExternalId>, plan: Exclusions)
    ensures forall r :: r in Walk(entries, prefix, parent, plan) ==>
      Child(prefix, "") <= r.0 && exists i :: 0 <= i < |entries| && Of(r.0, prefix, entries[i].name)
    decreases entries
  {
    if entries != [] {
      EntryReportsOf(entries[0], prefix, parent, plan);
      WalkReportsUnder(entries[1..], prefix, parent, plan);
      forall r | r in Walk(entries, prefix, parent, plan)
        ensures Child(prefix, "") <= r.0 && exists i :: 0 <= i < |entries| && Of(r.0, prefix, entries[i].name)
      {
        if r in WalkEntry(entries[0], prefix, parent, plan) {
          assert Of(r.0, prefix, entries[0].name);
        } else {
          var i :| 0 <= i < |entries[1..]| && Of(r.0, prefix, entries[1..][i].name);
          assert Of(r.0, prefix, entries[i + 1].name);
        }
      }
    }
  }

  function ObservationOf(entry: Entry, parent: Option<ExternalId>): Observation
    requires !entry.Passed?
  {
    match entry
    case Folder(_, _) => Observation(parent, false, "", true, 0)
    case File(_, revision, supported, size) => Observation(parent, true, revision, supported, size)
  }

  ghost predicate Reports(reports: seq<Report>, id: ExternalId) {
    exists r :: r in reports && r.0 == id
  }

  ghost predicate Reachable(entries: seq<Entry>, prefix: ExternalId, names: seq<string>, plan: Exclusions) {
    Lookup(entries, names).Some? && !Lookup(entries, names).value.Passed? && WayOpen(prefix, names, plan)
  }

  lemma OtherNames(entries: seq<Entry>, prefix: ExternalId, parent: Option<ExternalId>, plan: Exclusions, id: ExternalId, name: string)
    requires '/' !in name && Of(id, prefix, name)
    requires forall i :: 0 <= i < |entries| ==> '/' !in entries[i].name && entries[i].name != name
    ensures !Reports(Walk(entries, prefix, parent, plan), id)
  {
    WalkReportsUnder(entries, prefix, parent, plan);
    forall r | r in Walk(entries, prefix, parent, plan) ensures r.0 != id {
      var i :| 0 <= i < |entries| && Of(r.0, prefix, entries[i].name);
      if Of(r.0, prefix, name) { NamesApart(r.0, prefix, name, entries[i].name); }
    }
  }

  // The walk reports the entry at a path exactly when there is one to report and no folder on the way
  // to it is excluded; what it reports is that entry.
  lemma {:induction false} WalkExact(entries: seq<Entry>, prefix: ExternalId, parent: Option<ExternalId>, plan: Exclusions, names: seq<string>)
    requires Named(entries) && SlashFree(names)
    ensures Reports(Walk(entries, prefix, parent, plan), IdOf(prefix, names)) <==> Reachable(entries, prefix, names, plan)
    decreases entries
  {
    var id := IdOf(prefix, names);
    IdOfFirst(prefix, names);
    if entries != [] {
      var first, rest := WalkEntry(entries[0], prefix, parent, plan), Walk(entries[1..], prefix, parent, plan);
      ReportsAppend(first, rest, id);
      if entries[0].name == names[0] {
        OtherNames(entries[1..], prefix, parent, plan, id, names[0]);
        EntryExact(entries[0], prefix, parent, plan, names);
        if |names| > 1 && entries[0].Folder? {
          assert Lookup(entries, names) == Lookup(entries[0].entries, names[1..]);
        }
      } else {
        assert '/' !in entries[0].name;
        EntryReportsOf(entries[0], prefix, parent, plan);
        if Reports(first, id) { NamesApart(id, prefix, names[0], entries[0].name); }
        WalkExact(entries[1..], prefix, parent, plan, names);
      }
    }
  }

  lemma ReportsAppend(a: seq<Report>, b: seq<Report>, id: ExternalId)
    ensures Reports(a + b, id) <==> Reports(a, id) || Reports(b, id)
  {
    if Reports(a, id) {
      var r :| r in a && r.0 == id;
      assert r in a + b;
    }
    if Reports(b, id) {
      var r :| r in b && r.0 == id;
      assert r in a + b;
    }
  }

  lemma {:induction false} EntryExact(entry: Entry, prefix: ExternalId, parent: Option<ExternalId>, plan: Exclusions, names: seq<string>)
    requires entry.Folder? ==> Named(entry.entries)
    requires SlashFree(names) && entry.name == names[0]
    ensures Reports(WalkEntry(entry, prefix, parent, plan), IdOf(prefix, names)) <==>
      if |names| == 1 then !entry.Passed? else entry.Folder? && Reachable(entry.entries, Child(prefix, names[0]), names[1..], plan)
                                               && Child(prefix, names[0]) !in plan.folders
    decreases entry
  {
    var id := Child(prefix, entry.name);
    var target := IdOf(prefix, names);
    IdOfFirst(prefix, names);
    var reports := WalkEntry(entry, prefix, parent, plan);
    match entry
    case Passed(_) =>
    case File(_, _, _, _) =>
      assert reports[0].0 == id;
      assert reports[0] in reports;
    case Folder(_, inside) =>
      var folder := reports[0];
      assert folder in reports && folder.0 == id;
      ReportsAppend([folder], reports[1..], target);
      assert [folder] + reports[1..] == reports;
      if |names| > 1 && !plan.Excludes(id, false) {
        assert reports[1..] == Walk(inside, id, Some(id), plan);
        WalkExact(inside, id, Some(id), plan, names[1..]);
      }
  }

  // What is reported for an entry is that entry.
  lemma {:induction false} WalkContent(entries: seq<Entry>, prefix: ExternalId, parent: Option<ExternalId>, plan: Exclusions, names: seq<string>)
    requires names != [] && Reachable(entries, prefix, names, plan)
    ensures exists link :: (IdOf(prefix, names), ObservationOf(Lookup(entries, names).value, link)) in Walk(entries, prefix, parent, plan)
    decreases entries
  {
    var id, first := IdOf(prefix, names), WalkEntry(entries[0], prefix, parent, plan);
    if entries[0].name != names[0] {
      WalkContent(entries[1..], prefix, parent, plan, names);
      var link :| (id, ObservationOf(Lookup(entries[1..], names).value, link)) in Walk(entries[1..], prefix, parent, plan);
      assert (id, ObservationOf(Lookup(entries, names).value, link)) in Walk(entries, prefix, parent, plan);
    } else if |names| == 1 {
      assert first[0] == (id, ObservationOf(entries[0], parent));
      assert first[0] in first;
    } else {
      assert Lookup(entries, names) == LookupInside(entries[0], names[1..]);
      assert Lookup(entries, names) == Lookup(entries[0].entries, names[1..]);
      EntryContent(entries[0], prefix, parent, plan, names);
      var link :| (id, ObservationOf(Lookup(entries[0].entries, names[1..]).value, link)) in first;
      assert (id, ObservationOf(Lookup(entries, names).value, link)) in Walk(entries, prefix, parent, plan);
    }
  }

  lemma {:induction false} EntryContent(entry: Entry, prefix: ExternalId, parent: Option<ExternalId>, plan: Exclusions, names: seq<string>)
    requires |names| > 1 && entry.name == names[0] && entry.Folder? && Child(prefix, names[0]) !in plan.folders
    requires Reachable(entry.entries, Child(prefix, names[0]), names[1..], plan)
    ensures exists link ::
      (IdOf(prefix, names), ObservationOf(Lookup(entry.entries, names[1..]).value, link)) in WalkEntry(entry, prefix, parent, plan)
    decreases entry
  {
    var id := Child(prefix, entry.name);
    WalkContent(entry.entries, id, Some(id), plan, names[1..]);
    var link :| (IdOf(prefix, names), ObservationOf(Lookup(entry.entries, names[1..]).value, link)) in Walk(entry.entries, id, Some(id), plan);
    assert (IdOf(prefix, names), ObservationOf(Lookup(entry.entries, names[1..]).value, link)) in WalkEntry(entry, prefix, parent, plan);
  }

  // ---- Each id once ------------------------------------------------------------------------

  ghost predicate Distinct(reports: seq<Report>) {
    forall i, j :: 0 <= i < j < |reports| ==> reports[i].0 != reports[j].0
  }

  lemma DistinctAppend(a: seq<Report>, b: seq<Report>)
    requires Distinct(a) && Distinct(b) && forall r, q :: r in a && q in b ==> r.0 != q.0
    ensures Distinct(a + b)
  {
  }

  lemma {:induction false} WalkDistinct(entries: seq<Entry>, prefix: ExternalId, parent: Option<ExternalId>, plan: Exclusions)
    requires Named(entries)
    ensures Distinct(Walk(entries, prefix, parent, plan))
    decreases entries
  {
    if entries != [] {
      var first, rest := WalkEntry(entries[0], prefix, parent, plan), Walk(entries[1..], prefix, parent, plan);
      EntryDistinct(entries[0], prefix, parent, plan);
      WalkDistinct(entries[1..], prefix, parent, plan);
      EntryReportsOf(entries[0], prefix, parent, plan);
      forall r, q | r in first && q in rest ensures r.0 != q.0 {
        OtherNames(entries[1..], prefix, parent, plan, r.0, entries[0].name);
      }
      DistinctAppend(first, rest);
    }
  }

  lemma {:induction false} EntryDistinct(entry: Entry, prefix: ExternalId, parent: Option<ExternalId>, plan: Exclusions)
    requires entry.Folder? ==> Named(entry.entries)
    ensures Distinct(WalkEntry(entry, prefix, parent, plan))
    decreases entry
  {
    if entry.Folder? {
      var id := Child(prefix, entry.name);
      if !plan.Excludes(id, false) {
        var inside := Walk(entry.entries, id, Some(id), plan);
        WalkDistinct(entry.entries, id, Some(id), plan);
        WalkReportsUnder(entry.entries, id, Some(id), plan);
        DistinctAppend([(id, Observation(parent, false, "", true, 0))], inside);
      }
    }
  }

  // ---- The stored scan ---------------------------------------------------------------------

  function Stored(reports: seq<Report>): Scan
    decreases |reports|
  {
    if reports == [] then map[] else Stored(reports[..|reports| - 1])[reports[|reports| - 1].0 := reports[|reports| - 1].1]
  }

  lemma {:induction false} StoredExactly(reports: seq<Report>)
    requires Distinct(reports)
    ensures forall r :: r in reports ==> r.0 in Stored(reports) && Stored(reports)[r.0] == r.1
    ensures forall id :: id in Stored(reports) <==> Reports(reports, id)
    decreases |reports|
  {
    if reports != [] {
      var n := |reports| - 1;
      StoredExactly(reports[..n]);
      assert reports == reports[..n] + [reports[n]];
      assert reports[n] in reports;
      forall id ensures id in Stored(reports) <==> Reports(reports, id) {
        ReportsAppend(reports[..n], [reports[n]], id);
        assert Reports([reports[n]], id) <==> id == reports[n].0 by { assert reports[n] in [reports[n]]; }
      }
    }
  }

  // The scan of the collection whose folder holds `entries`.
  function CollectionScan(entries: seq<Entry>, pass: Pass): Scan {
    Stored(Walk(entries, pass.collection, None, pass.plan))
  }

  lemma CollectionPrefix(c: CollectionId, id: ExternalId)
    requires '/' !in c && Child(c, "") <= id
    ensures CollectionOf(id) == c
  {
    assert id[|c|] == '/' by { assert Child(c, "")[|c|] == '/'; }
    assert id[..|c|] == c by { assert Child(c, "")[..|c|] == c; }
    assert forall i :: 0 <= i < |c| ==> id[i] == c[i];
  }

  // A walk over any tree has the shape that reconciliation relies on: parents are reported with their
  // children, and nothing is reported inside an excluded folder.
  lemma WalkShaped(entries: seq<Entry>, pass: Pass)
    requires Named(entries) && '/' !in pass.collection
    ensures ScanShaped(CollectionScan(entries, pass), pass)
  {
    var reports := Walk(entries, pass.collection, None, pass.plan);
    var seen := CollectionScan(entries, pass);
    WalkLinked(entries, pass.collection, pass.plan);
    WalkDistinct(entries, pass.collection, None, pass.plan);
    StoredExactly(reports);
    forall id | id in seen
      ensures CollectionOf(id) == pass.collection && seen[id].parent == ParentOf(id)
      ensures ParentOf(id).Some? ==>
        ParentOf(id).value in seen && !seen[ParentOf(id).value].isDocument && ParentOf(id).value !in pass.plan.folders
    {
      var r :| r in reports && r.0 == id;
      var i :| 0 <= i < |reports| && reports[i] == r;
      assert Linked(reports, pass.collection, pass.plan, i);
      CollectionPrefix(pass.collection, id);
      if ParentOf(id).Some? {
        var j :| 0 <= j < i && reports[j].0 == ParentOf(id).value && Opened(reports[j], pass.plan);
        assert reports[j] in reports;
      }
    }
  }

  // ---- What a completed run makes of a tree ----------------------------------------------------

  lemma {:induction false} IdOfLast(prefix: ExternalId, names: seq<string>)
    requires names != []
    ensures IdOf(prefix, names) == Child(IdOf(prefix, names[..|names| - 1]), names[|names| - 1])
    decreases |names|
  {
    var n := |names| - 1;
    if n > 0 {
      IdOfLast(Child(prefix, names[0]), names[1..]);
      assert names[1..][..n - 1] == names[..n][1..];
    }
  }

  lemma ParentOnPath(c: CollectionId, names: seq<string>)
    requires '/' !in c && SlashFree(names)
    ensures ParentOf(IdOf(c, names)) == if |names| == 1 then None else Some(IdOf(c, names[..|names| - 1]))
  {
    var n := |names| - 1;
    IdOfLast(c, names);
    ParentOfChild(IdOf(c, names[..n]), names[n]);
    if n > 0 {
      IdUnder(c, names[..n]);
      assert Child(c, "")[|c|] == '/';
      assert IdOf(c, names[..n])[|c|] == '/';
    }
  }

  // The folders above an entry are those on the path to it.
  lemma {:induction false} BelowOnPath(c: CollectionId, names: seq<string>, folder: ExternalId)
    requires '/' !in c && SlashFree(names)
    ensures Below(IdOf(c, names), folder) <==> exists k :: 0 < k < |names| && folder == IdOf(c, names[..k])
    decreases |names|
  {
    var n := |names| - 1;
    ParentOnPath(c, names);
    if n > 0 {
      BelowOnPath(c, names[..n], folder);
      assert forall k :: 0 < k < n ==> names[..n][..k] == names[..k];
      if exists k :: 0 < k < |names| && folder == IdOf(c, names[..k]) {
        var k :| 0 < k < |names| && folder == IdOf(c, names[..k]);
        if k < n { assert folder == IdOf(c, names[..n][..k]); }
      }
      if Below(IdOf(c, names[..n]), folder) {
        var k :| 0 < k < n && folder == IdOf(c, names[..n][..k]);
        assert folder == IdOf(c, names[..k]);
      }
    }
  }

  lemma WalkObserves(entries: seq<Entry>, pass: Pass, names: seq<string>)
    requires Named(entries) && '/' !in pass.collection && SlashFree(names)
    ensures var id, seen := IdOf(pass.collection, names), CollectionScan(entries, pass);
      && (id in seen <==> Reachable(entries, pass.collection, names, pass.plan))
      && (id in seen ==> seen[id] == ObservationOf(Lookup(entries, names).value, ParentOf(id)))
  {
    var reports := Walk(entries, pass.collection, None, pass.plan);
    WalkDistinct(entries, pass.collection, None, pass.plan);
    StoredExactly(reports);
    WalkExact(entries, pass.collection, None, pass.plan, names);
    if Reachable(entries, pass.collection, names, pass.plan) {
      WalkContent(entries, pass.collection, None, pass.plan, names);
      WalkShaped(entries, pass);
    }
  }

  // An excluded folder on the way that the walk still finds.
  ghost predicate BehindExcluded(entries: seq<Entry>, pass: Pass, names: seq<string>) {
    exists k :: 0 < k < |names| && ExcludedAt(entries, pass, names[..k])
  }

  ghost predicate ExcludedAt(entries: seq<Entry>, pass: Pass, names: seq<string>) {
    var id, seen := IdOf(pass.collection, names), CollectionScan(entries, pass);
    id in seen && !seen[id].isDocument && id in pass.plan.folders
  }

  lemma HiddenOnPath(entries: seq<Entry>, pass: Pass, names: seq<string>)
    requires '/' !in pass.collection && SlashFree(names)
    ensures var seen := CollectionScan(entries, pass);
      Hidden(seen, seen.Keys, pass.plan, IdOf(pass.collection, names)) <==> BehindExcluded(entries, pass, names)
  {
    var seen, id := CollectionScan(entries, pass), IdOf(pass.collection, names);
    if Hidden(seen, seen.Keys, pass.plan, id) {
      var f :| f in seen.Keys && f in seen && !seen[f].isDocument && f in pass.plan.folders && Below(id, f);
      BelowOnPath(pass.collection, names, f);
      var k :| 0 < k < |names| && f == IdOf(pass.collection, names[..k]);
      assert ExcludedAt(entries, pass, names[..k]);
    }
    if BehindExcluded(entries, pass, names) {
      var k :| 0 < k < |names| && ExcludedAt(entries, pass, names[..k]);
      BelowOnPath(pass.collection, names, IdOf(pass.collection, names[..k]));
    }
  }

  // After a completed run over a folder tree, whatever the items were before: an entry that the walk
  // reaches has its classified lifecycle; a known one it does not reach is excluded when it lies behind
  // an excluded folder of the tree, and missing otherwise.
  lemma TreeCompleted(entries: seq<Entry>, items: Items, pass: Pass, names: seq<string>)
    requires Named(entries) && '/' !in pass.collection && SlashFree(names)
    ensures var id, seen := IdOf(pass.collection, names), CollectionScan(entries, pass);
      var after := ItemsCompleted(items, seen, pass);
      if Reachable(entries, pass.collection, names, pass.plan) then
        id in after && after[id].lifecycle == Classify(id, ObservationOf(Lookup(entries, names).value, ParentOf(id)), pass)
      else
        (id in after <==> id in items)
        && (id in items && items[id].collection == pass.collection ==>
              after[id].lifecycle == if BehindExcluded(entries, pass, names) then ItemExcluded else ItemMissing)
  {
    WalkObserves(entries, pass, names);
    HiddenOnPath(entries, pass, names);
  }
}
