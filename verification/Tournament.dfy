/**
 Candidate selection (services/retrieval_api/select_documents.py, services/common/document_search.py):
 the scope is ranked, shown to an untrusted model batch by batch, and what the model picks is reduced
 round by round. The model's replies are arbitrary.
 */
module Tournament {

  import opened Outcome
  import opened Text

  const DEFAULT_PREFILTER_LIMIT := 50

  // `name` and the rest of a document stand for everything but its id.
  datatype Doc = Doc(id: string, name: string)

  function Id(d: Doc): string {
    Strip(d.id)
  }

  // ---- Ranking -----------------------------------------------------------------------------

  // The last document that carries an id.
  function ById(documents: seq<Doc>, id: string): Option<Doc> {
    if documents == [] then None
    else
      var last := documents[|documents| - 1];
      if last.id == id && id != "" then Some(last) else ById(documents[..|documents| - 1], id)
  }

  lemma {:induction false} ByIdFinds(documents: seq<Doc>, id: string)
    ensures ById(documents, id).Some? ==> ById(documents, id).value in documents && ById(documents, id).value.id == id != ""
    ensures (exists d :: d in documents && d.id == id != "") ==> ById(documents, id).Some?
  {
    if documents != [] {
      var n := |documents| - 1;
      ByIdFinds(documents[..n], id);
      assert documents == documents[..n] + [documents[n]];
    }
  }

  // No other document carries the id of `d`.
  ghost predicate UniqueId(documents: seq<Doc>, d: Doc) {
    d in documents && d.id != ""
    && forall i, j :: 0 <= i < j < |documents| && documents[i].id == d.id ==> documents[j].id != d.id
  }

  ghost predicate IdsDistinct(docs: seq<Doc>) {
    forall i, j :: 0 <= i < j < |docs| ==> docs[i].id != docs[j].id
  }

  function IdsOf(docs: seq<Doc>): set<string> {
    set i | 0 <= i < |docs| :: docs[i].id
  }

  lemma {:induction false} UniqueCount(documents: seq<Doc>, d: Doc)
    requires UniqueId(documents, d)
    ensures multiset(documents)[d] == 1
  {
    var i :| 0 <= i < |documents| && documents[i] == d;
    var before, after := documents[..i], documents[i + 1..];
    assert documents == before + [d] + after;
    assert d !in before && d !in after;
  }

  // The documents whose id is not among `ids`, in order.
  function Others(documents: seq<Doc>, ids: set<string>): seq<Doc> {
    if documents == [] then []
    else
      var n := |documents| - 1;
      Others(documents[..n], ids) + if documents[n].id in ids then [] else [documents[n]]
  }

  lemma {:induction false} OthersCount(documents: seq<Doc>, ids: set<string>, d: Doc)
    ensures multiset(Others(documents, ids))[d] == if d.id in ids then 0 else multiset(documents)[d]
  {
    if documents != [] {
      var n := |documents| - 1;
      OthersCount(documents[..n], ids, d);
      assert documents == documents[..n] + [documents[n]];
    }
  }

  datatype Match = Match(id: string, score: real)

  datatype Ranked = Ranked(document: Doc, score: real, matched: bool)

  function Documents(ranked: seq<Ranked>): seq<Doc> {
    seq(|ranked|, i requires 0 <= i < |ranked| => ranked[i].document)
  }

  function Matched(matches: seq<Match>): seq<string> {
    seq(|matches|, i requires 0 <= i < |matches| => matches[i].id)
  }

  // The first match of an id.
  ghost predicate FirstAt(matches: seq<string>, id: string, p: int) {
    0 <= p < |matches| && matches[p] == id && id !in matches[..p]
  }

  // Each entry carries the score of the first match of its document.
  ghost predicate Scored(ranked: seq<Ranked>, matches: seq<Match>) {
    forall i :: 0 <= i < |ranked| ==> ranked[i].matched && ScoredBy(ranked[i], matches)
  }

  ghost predicate ScoredBy(entry: Ranked, matches: seq<Match>) {
    exists p :: FirstAt(Matched(matches), entry.document.id, p) && entry.score == matches[p].score
  }

  // The documents stand in the order of their first matches.
  ghost predicate InMatchOrder(matches: seq<string>, first: seq<Doc>) {
    forall i, j, p, q :: 0 <= i < j < |first| && FirstAt(matches, first[i].id, p) && FirstAt(matches, first[j].id, q) ==> p < q
  }

  lemma DocumentsSnoc(ranked: seq<Ranked>, next: Ranked)
    ensures Documents(ranked + [next]) == Documents(ranked) + [next.document]
  {
  }

  method RankMatch(documents: seq<Doc>, matches: seq<Match>, i: nat, before: seq<Ranked>) returns (ranked: seq<Ranked>)
    requires i < |matches| && RankedFirst(documents, Matched(matches)[..i], Documents(before)) && Scored(before, matches)
    ensures RankedFirst(documents, Matched(matches)[..i + 1], Documents(ranked)) && Scored(ranked, matches)
  {
    var found := ById(documents, matches[i].id);
    ByIdFinds(documents, matches[i].id);
    RankNext(documents, Matched(matches), i, Documents(before));
    ranked := before;
    if found.Some? && found.value.id !in IdsOf(Documents(before)) {
      FirstMatch(documents, matches, i, Documents(before));
      DocumentsSnoc(before, Ranked(found.value, matches[i].score, true));
      ranked := before + [Ranked(found.value, matches[i].score, true)];
    }
  }

  // A match that adds a document is its first.
  lemma FirstMatch(documents: seq<Doc>, matches: seq<Match>, i: nat, first: seq<Doc>)
    requires i < |matches| && RankedFirst(documents, Matched(matches)[..i], first)
    requires ById(documents, matches[i].id).Some? && matches[i].id !in IdsOf(first)
    ensures FirstAt(Matched(matches), matches[i].id, i)
  {
    assert matches[i].id !in Matched(matches)[..i];
  }

  method RankMatches(documents: seq<Doc>, matches: seq<Match>) returns (ranked: seq<Ranked>)
    ensures RankedFirst(documents, Matched(matches), Documents(ranked)) && Scored(ranked, matches)
  {
    ranked := [];
    for i := 0 to |matches|
      invariant RankedFirst(documents, Matched(matches)[..i], Documents(ranked)) && Scored(ranked, matches)
    {
      ranked := RankMatch(documents, matches, i, ranked);
    }
    assert Matched(matches)[..|matches|] == Matched(matches);
  }

  // Matches first, in their order and each id once; then everything else in the stable order.
  method RankDocuments(documents: seq<Doc>, stable: seq<Doc>, matches: seq<Match>) returns (ranked: seq<Ranked>)
    requires multiset(stable) == multiset(documents)
    ensures forall d :: d in Documents(ranked) ==> d in documents
    ensures forall d :: UniqueId(documents, d) ==> multiset(Documents(ranked))[d] == 1
    ensures exists first ::
      && RankedFirst(documents, Matched(matches), Documents(first)) && Scored(first, matches) && first <= ranked
      && Documents(ranked) == Documents(first) + Others(stable, IdsOf(Documents(first)))
  {
    var first := RankMatches(documents, matches);
    var rest := Others(stable, IdsOf(Documents(first)));
    ranked := first + seq(|rest|, i requires 0 <= i < |rest| => Ranked(rest[i], 0.0, false));
    assert Documents(ranked) == Documents(first) + rest;
    RankedOnce(documents, stable, Matched(matches), Documents(first));
  }

  // The matched documents, each id once, in the order of their matches.
  ghost predicate RankedFirst(documents: seq<Doc>, matches: seq<string>, first: seq<Doc>) {
    && IdsDistinct(first) && InMatchOrder(matches, first)
    && (forall d :: d in first ==> d in documents && d.id in matches && ById(documents, d.id) == Some(d))
    && forall m :: m in matches && ById(documents, m).Some? ==> m in IdsOf(first)
  }

  lemma IdAdded(docs: seq<Doc>, d: Doc)
    ensures IdsOf(docs + [d]) == IdsOf(docs) + {d.id}
  {
    var longer := docs + [d];
    assert longer[|docs|].id in IdsOf(longer);
    forall id | id in IdsOf(docs) ensures id in IdsOf(longer) {
      var k :| 0 <= k < |docs| && docs[k].id == id;
      assert longer[k].id == id;
    }
  }

  lemma RankedKeeps(documents: seq<Doc>, before: seq<string>, m: string, first: seq<Doc>)
    requires RankedFirst(documents, before, first) && (ById(documents, m).None? || m in IdsOf(first))
    ensures RankedFirst(documents, before + [m], first)
  {
    FirstStays(before, m, first);
  }

  // The first match of an id that has one stays its first.
  lemma FirstStays(before: seq<string>, m: string, first: seq<Doc>)
    requires InMatchOrder(before, first) && forall d :: d in first ==> d.id in before
    ensures InMatchOrder(before + [m], first)
  {
    forall i, p | 0 <= i < |first| && FirstAt(before + [m], first[i].id, p) ensures FirstAt(before, first[i].id, p) {
      assert first[i] in first;
      FirstWithin(before, m, first[i].id, p);
    }
  }

  lemma FirstWithin(before: seq<string>, m: string, id: string, p: int)
    requires id in before && FirstAt(before + [m], id, p)
    ensures FirstAt(before, id, p)
  {
    var matches := before + [m];
    var k :| 0 <= k < |before| && before[k] == id;
    assert forall i :: 0 <= i < p ==> matches[i] == matches[..p][i];
    assert matches[k] == id;
    assert p <= k;
    assert matches[..p] == before[..p];
  }

  lemma RankedGrows(documents: seq<Doc>, before: seq<string>, d: Doc, first: seq<Doc>)
    requires RankedFirst(documents, before, first) && d in documents && ById(documents, d.id) == Some(d) && d.id !in IdsOf(first)
    ensures RankedFirst(documents, before + [d.id], first + [d])
  {
    IdAdded(first, d);
    OneMore(first, d);
    OrderGrows(documents, before, d, first);
  }

  lemma OrderGrows(documents: seq<Doc>, before: seq<string>, d: Doc, first: seq<Doc>)
    requires RankedFirst(documents, before, first) && ById(documents, d.id) == Some(d) && d.id !in IdsOf(first)
    ensures InMatchOrder(before + [d.id], first + [d])
  {
    var matches, more := before + [d.id], first + [d];
    FirstStays(before, d.id, first);
    forall i, j, p, q | 0 <= i < j < |more| && FirstAt(matches, more[i].id, p) && FirstAt(matches, more[j].id, q) ensures p < q {
      assert more[i] == first[i] && first[i] in first;
      FirstWithin(before, d.id, first[i].id, p);
      if j == |first| { assert d.id !in before; }
    }
  }

  lemma RankNext(documents: seq<Doc>, matches: seq<string>, i: nat, first: seq<Doc>)
    requires i < |matches| && RankedFirst(documents, matches[..i], first)
    ensures var found := ById(documents, matches[i]);
      RankedFirst(documents, matches[..i + 1], if found.Some? && found.value.id !in IdsOf(first) then first + [found.value] else first)
  {
    assert matches[..i + 1] == matches[..i] + [matches[i]];
    RankOne(documents, matches[..i], matches[i], first);
  }

  lemma RankOne(documents: seq<Doc>, before: seq<string>, m: string, first: seq<Doc>)
    requires RankedFirst(documents, before, first)
    ensures var found := ById(documents, m);
      RankedFirst(documents, before + [m], if found.Some? && found.value.id !in IdsOf(first) then first + [found.value] else first)
  {
    var found := ById(documents, m);
    ByIdFinds(documents, m);
    if found.Some? && found.value.id !in IdsOf(first) {
      RankedGrows(documents, before, found.value, first);
    } else {
      RankedKeeps(documents, before, m, first);
    }
  }

  lemma RankedOnce(documents: seq<Doc>, stable: seq<Doc>, matches: seq<string>, first: seq<Doc>)
    requires multiset(stable) == multiset(documents) && RankedFirst(documents, matches, first)
    ensures forall d :: d in first + Others(stable, IdsOf(first)) ==> d in documents
    ensures forall d :: UniqueId(documents, d) ==> multiset(first + Others(stable, IdsOf(first)))[d] == 1
  {
    forall d | d in Others(stable, IdsOf(first)) ensures d in documents {
      OthersCount(stable, IdsOf(first), d);
      assert d in multiset(Others(stable, IdsOf(first)));
      assert d in multiset(documents);
    }
    forall d | UniqueId(documents, d) ensures multiset(first + Others(stable, IdsOf(first)))[d] == 1 {
      OthersCount(stable, IdsOf(first), d);
      UniqueCount(documents, d);
      FirstCount(documents, matches, first, d);
    }
  }

  lemma CountOnce(docs: seq<Doc>, k: nat)
    requires IdsDistinct(docs) && k < |docs|
    ensures multiset(docs)[docs[k]] == 1
  {
    var before, after := docs[..k], docs[k + 1..];
    assert docs == before + [docs[k]] + after;
    assert docs[k] !in before && docs[k] !in after;
  }

  lemma NotCounted(docs: seq<Doc>, d: Doc)
    requires d.id !in IdsOf(docs)
    ensures multiset(docs)[d] == 0
  {
    assert forall k :: 0 <= k < |docs| ==> docs[k].id in IdsOf(docs);
    assert d !in docs;
  }

  lemma SameDocument(documents: seq<Doc>, d: Doc, e: Doc)
    requires UniqueId(documents, d) && e in documents && e.id == d.id
    ensures e == d
  {
    var i :| 0 <= i < |documents| && documents[i] == d;
    var j :| 0 <= j < |documents| && documents[j] == e;
    assert !(i < j) && !(j < i);
  }

  lemma FirstCount(documents: seq<Doc>, matches: seq<string>, first: seq<Doc>, d: Doc)
    requires RankedFirst(documents, matches, first) && UniqueId(documents, d)
    ensures multiset(first)[d] == if d.id in IdsOf(first) then 1 else 0
  {
    if d.id in IdsOf(first) {
      var k :| 0 <= k < |first| && first[k].id == d.id;
      assert first[k] in first;
      SameDocument(documents, d, first[k]);
      CountOnce(first, k);
    } else {
      NotCounted(first, d);
    }
  }

  // ---- Batches -----------------------------------------------------------------------------

  function Concat(batches: seq<seq<Doc>>): seq<Doc> {
    if batches == [] then [] else Concat(batches[..|batches| - 1]) + batches[|batches| - 1]
  }

  ghost predicate Batched(batches: seq<seq<Doc>>) {
    forall i :: 0 <= i < |batches| ==> 0 < |batches[i]| <= DEFAULT_PREFILTER_LIMIT
  }

  // A batch with what the ranking knows about it.
  datatype Batch = Batch(documents: seq<Doc>, topScore: real, boundaryScore: real, hasMatch: bool)

  function MatchedIn(ranked: seq<Ranked>): seq<Ranked> {
    if ranked == [] then []
    else
      var n := |ranked| - 1;
      MatchedIn(ranked[..n]) + if ranked[n].matched then [ranked[n]] else []
  }

  function BatchOf(ranked: seq<Ranked>): Batch {
    var matched := MatchedIn(ranked);
    if matched == [] then Batch(Documents(ranked), 0.0, 0.0, false)
    else Batch(Documents(ranked), matched[0].score, matched[|matched| - 1].score, true)
  }

  function DocumentsOf(batches: seq<Batch>): seq<seq<Doc>> {
    seq(|batches|, i requires 0 <= i < |batches| => batches[i].documents)
  }

  // Each batch is what the ranking holds between two places.
  ghost predicate CutFrom(batches: seq<Batch>, ranked: seq<Ranked>) {
    forall i :: 0 <= i < |batches| ==> CutAt(batches[i], ranked)
  }

  ghost predicate CutAt(batch: Batch, ranked: seq<Ranked>) {
    exists start, end :: 0 <= start <= end <= |ranked| && batch == BatchOf(ranked[start..end])
  }

  lemma NextCut(batches: seq<Batch>, ranked: seq<Ranked>, start: nat, end: nat)
    requires CutFrom(batches, ranked) && start <= end <= |ranked|
    requires Concat(DocumentsOf(batches)) == Documents(ranked)[..start]
    ensures CutFrom(batches + [BatchOf(ranked[start..end])], ranked)
    ensures Concat(DocumentsOf(batches + [BatchOf(ranked[start..end])])) == Documents(ranked)[..end]
  {
    OneMoreBatch(batches, BatchOf(ranked[start..end]));
    assert Documents(ranked[start..end]) == Documents(ranked)[start..end];
    assert Documents(ranked)[..end] == Documents(ranked)[..start] + Documents(ranked)[start..end];
  }

  method CandidateBatches(ranked: seq<Ranked>) returns (batches: seq<Batch>)
    ensures Concat(DocumentsOf(batches)) == Documents(ranked) && Batched(DocumentsOf(batches)) && CutFrom(batches, ranked)
    ensures forall i :: 0 <= i < |batches| - 1 ==> |batches[i].documents| == DEFAULT_PREFILTER_LIMIT
  {
    batches := [];
    var index := 0;
    while index < |ranked|
      invariant 0 <= index <= |ranked|
      invariant Concat(DocumentsOf(batches)) == Documents(ranked)[..index] && Batched(DocumentsOf(batches)) && CutFrom(batches, ranked)
      invariant forall i :: 0 <= i < |batches| && (i < |batches| - 1 || index < |ranked|) ==> |batches[i].documents| == DEFAULT_PREFILTER_LIMIT
    {
      var end := if index + DEFAULT_PREFILTER_LIMIT < |ranked| then index + DEFAULT_PREFILTER_LIMIT else |ranked|;
      NextCut(batches, ranked, index, end);
      OneMoreBatch(batches, BatchOf(ranked[index..end]));
      batches := batches + [BatchOf(ranked[index..end])];
      index := end;
    }
    assert Documents(ranked)[..|ranked|] == Documents(ranked);
  }

  lemma OneMoreBatch(batches: seq<Batch>, batch: Batch)
    ensures Concat(DocumentsOf(batches + [batch])) == Concat(DocumentsOf(batches)) + batch.documents
    ensures Batched(DocumentsOf(batches)) && 0 < |batch.documents| <= DEFAULT_PREFILTER_LIMIT ==>
      Batched(DocumentsOf(batches + [batch]))
  {
    var longer := DocumentsOf(batches + [batch]);
    assert longer[..|batches|] == DocumentsOf(batches);
  }

  // ---- One reply ---------------------------------------------------------------------------

  // A reply as the parser leaves it: no completion, nothing parseable, or identifiers with the number
  // of unusable items and whether the output was cut off.
  datatype Reply = NoCompletion | Unparsed | Answer(identifiers: seq<string>, invalid: nat, truncated: bool)

  datatype SelectionOutcome = Selected | ExplicitEmpty | ProviderError | Malformed | InvalidIds | Partial

  datatype Selection = Selection(documents: seq<Doc>, outcome: SelectionOutcome)

  predicate Technical(outcome: SelectionOutcome) {
    outcome in {ProviderError, Malformed, InvalidIds, Partial}
  }

  function Padded(digits: string): string
    decreases 3 - |digits|
  {
    if |digits| < 3 then Padded("0" + digits) else digits
  }

  // The short name of a position in the prompt.
  function Alias(index: nat): string {
    "D" + Padded(Decimal(index + 1))
  }

  // What an identifier names among the first `n` documents: later documents take names over from
  // earlier ones, and a document without an id has no name.
  function Named(docs: seq<Doc>, n: nat, identifier: string): Option<Doc>
    requires n <= |docs|
  {
    if n == 0 then None
    else
      var id := Id(docs[n - 1]);
      if id != "" && (identifier == id || identifier == Alias(n - 1)) then Some(docs[n - 1]) else Named(docs, n - 1, identifier)
  }

  datatype Picks = Picks(documents: seq<Doc>, invalid: nat)

  // One identifier after the other; picking stops at the limit.
  function Pick(docs: seq<Doc>, limit: nat, identifiers: seq<string>, picks: Picks): Picks
    decreases |identifiers|
  {
    if identifiers == [] then picks
    else
      match Named(docs, |docs|, identifiers[0])
      case None => Pick(docs, limit, identifiers[1..], picks.(invalid := picks.invalid + 1))
      case Some(d) =>
        if d.id in IdsOf(picks.documents) then Pick(docs, limit, identifiers[1..], picks)
        else
          var more := picks.(documents := picks.documents + [d]);
          if |more.documents| >= limit then more else Pick(docs, limit, identifiers[1..], more)
  }

  function SelectionFor(docs: seq<Doc>, limit: nat, reply: Reply): Selection {
    match reply
    case NoCompletion => Selection([], ProviderError)
    case Unparsed => Selection([], Malformed)
    case Answer(identifiers, invalid, truncated) =>
      if identifiers == [] then
        Selection([], if invalid > 0 then Malformed else if truncated then Partial else ExplicitEmpty)
      else
        var picks := Pick(docs, limit, identifiers, Picks([], invalid));
        if picks.documents == [] then Selection([], InvalidIds)
        else Selection(picks.documents, if picks.invalid > 0 || truncated then Partial else Selected)
  }

  method SelectDocuments(docs: seq<Doc>, limit: nat, reply: Reply) returns (selection: Selection)
    ensures selection == SelectionFor(docs, limit, reply)
  {
    match reply
    case NoCompletion => return Selection([], ProviderError);
    case Unparsed => return Selection([], Malformed);
    case Answer(identifiers, invalid, truncated) =>
      if identifiers == [] {
        return Selection([], if invalid > 0 then Malformed else if truncated then Partial else ExplicitEmpty);
      }
      var selected: seq<Doc>, unknown := [], invalid;
      var i := 0;
      while i < |identifiers|
        invariant 0 <= i <= |identifiers|
        invariant Pick(docs, limit, identifiers, Picks([], invalid)) == Pick(docs, limit, identifiers[i..], Picks(selected, unknown))
      {
        var named := Named(docs, |docs|, identifiers[i]);
        assert identifiers[i..][0] == identifiers[i] && identifiers[i..][1..] == identifiers[i + 1..];
        i := i + 1;
        if named.None? {
          unknown := unknown + 1;
        } else if named.value.id !in IdsOf(selected) {
          selected := selected + [named.value];
          if |selected| >= limit {
            break;
          }
        }
      }
      assert Pick(docs, limit, identifiers, Picks([], invalid)) == Picks(selected, unknown);
      if selected == [] {
        return Selection([], InvalidIds);
      }
      return Selection(selected, if unknown > 0 || truncated then Partial else Selected);
  }

  // ---- What a reply can pick -----------------------------------------------------------------

  lemma {:induction false} NamedIsThere(docs: seq<Doc>, n: nat, identifier: string)
    requires n <= |docs|
    ensures Named(docs, n, identifier).Some? ==> Named(docs, n, identifier).value in docs && Id(Named(docs, n, identifier).value) != ""
  {
    if n > 0 { NamedIsThere(docs, n - 1, identifier); }
  }

  // The document an alias is left to: the last one behind it whose id is spelled like the alias, or its
  // own.
  function Holder(docs: seq<Doc>, n: nat, i: nat): (k: nat)
    requires i < n <= |docs|
    ensures i <= k < n
    decreases n
  {
    if n - 1 == i || Id(docs[n - 1]) == Alias(i) then n - 1 else Holder(docs, n - 1, i)
  }

  lemma {:induction false} AliasHolder(docs: seq<Doc>, n: nat, i: nat)
    requires i < n <= |docs| && Id(docs[i]) != ""
    ensures Named(docs, n, Alias(i)) == Some(docs[Holder(docs, n, i)])
    ensures Holder(docs, n, i) == i <==> forall k :: i < k < n ==> Id(docs[k]) != Alias(i)
    ensures Holder(docs, n, i) != i ==> Id(docs[Holder(docs, n, i)]) == Alias(i)
  {
    if i < n - 1 {
      AliasesDiffer(i, n - 1);
      AliasHolder(docs, n - 1, i);
    }
  }

  // Among distinct documents an alias names its own position if and only if no document behind it has
  // taken it for an id.
  lemma AliasNames(docs: seq<Doc>, n: nat, i: nat)
    requires i < n <= |docs| && Id(docs[i]) != ""
    requires forall a, b :: 0 <= a < b < n ==> docs[a] != docs[b]
    ensures Named(docs, n, Alias(i)) == Some(docs[i]) <==> forall k :: i < k < n ==> Id(docs[k]) != Alias(i)
  {
    AliasHolder(docs, n, i);
  }

  // Two documents, where the model's choice of the first selects the second.
  lemma AliasTakenOver() returns (docs: seq<Doc>, selection: Selection)
    ensures |docs| == 2 && docs[0] != docs[1] && docs[0].id != docs[1].id
    ensures selection == SelectionFor(docs, 1, Answer([Alias(0)], 0, false)) && selection == Selection([docs[1]], Selected)
  {
    docs := [Doc("report", "first"), Doc("D001", "second")];
    selection := SelectionFor(docs, 1, Answer([Alias(0)], 0, false));
    FirstAlias();
    StripNothing("report");
    StripNothing("D001");
    assert Named(docs, 2, Alias(0)) == Some(docs[1]);
  }

  lemma FirstAlias()
    ensures Alias(0) == "D001"
  {
    assert Decimal(1) == "1";
    assert "0" + "1" == "01" && "0" + "01" == "001";
    assert Padded("001") == "001";
    assert Padded("01") == Padded("0" + "01");
    assert Padded("1") == Padded("0" + "1");
  }

  lemma {:induction false} PaddedValue(digits: string)
    requires AllDigits(digits)
    ensures AllDigits(Padded(digits)) && ParseDecimal(Padded(digits)) == ParseDecimal(digits)
    decreases 3 - |digits|
  {
    if |digits| < 3 {
      ZeroInFront(digits);
      PaddedValue("0" + digits);
    }
  }

  lemma {:induction false} ZeroInFront(digits: string)
    requires forall i :: 0 <= i < |digits| ==> IsDigit(digits[i])
    ensures ParseDecimal("0" + digits) == ParseDecimal(digits)
  {
    if digits == "" {
      assert "0" + digits == "0" && "0"[..0] == "";
      assert ParseDecimal("0") == 10 * ParseDecimal("") + DigitValue('0');
    } else {
      var n := |digits| - 1;
      assert ("0" + digits)[..n + 1] == "0" + digits[..n];
      ZeroInFront(digits[..n]);
    }
  }

  lemma AliasesDiffer(i: nat, j: nat)
    requires i != j
    ensures Alias(i) != Alias(j)
  {
    DecimalRoundTrip(i + 1);
    DecimalRoundTrip(j + 1);
    PaddedValue(Decimal(i + 1));
    PaddedValue(Decimal(j + 1));
    assert Alias(i)[1..] == Padded(Decimal(i + 1)) && Alias(j)[1..] == Padded(Decimal(j + 1));
  }

  ghost predicate From(docs: seq<Doc>, pool: seq<Doc>) {
    forall d :: d in docs ==> d in pool && Id(d) != ""
  }

  lemma {:induction false} PickSound(docs: seq<Doc>, limit: nat, identifiers: seq<string>, picks: Picks)
    requires IdsDistinct(picks.documents) && From(picks.documents, docs) && |picks.documents| < limit
    ensures var after := Pick(docs, limit, identifiers, picks);
      IdsDistinct(after.documents) && From(after.documents, docs) && |after.documents| <= limit
    decreases |identifiers|
  {
    if identifiers != [] {
      var named := Named(docs, |docs|, identifiers[0]);
      NamedIsThere(docs, |docs|, identifiers[0]);
      if named.None? {
        PickSound(docs, limit, identifiers[1..], picks.(invalid := picks.invalid + 1));
      } else if named.value.id in IdsOf(picks.documents) {
        PickSound(docs, limit, identifiers[1..], picks);
      } else {
        OneMore(picks.documents, named.value);
        var more := picks.(documents := picks.documents + [named.value]);
        if |more.documents| < limit { PickSound(docs, limit, identifiers[1..], more); }
      }
    }
  }

  lemma OneMore(docs: seq<Doc>, d: Doc)
    requires IdsDistinct(docs) && d.id !in IdsOf(docs)
    ensures IdsDistinct(docs + [d])
  {
    forall i | 0 <= i < |docs| ensures docs[i].id != d.id {
      assert docs[i].id in IdsOf(docs);
    }
  }

  // Whatever the model replies, it picks at most the limit, each document once, from what it was shown.
  lemma SelectionSound(docs: seq<Doc>, limit: nat, reply: Reply)
    requires limit > 0
    ensures var selection := SelectionFor(docs, limit, reply);
      IdsDistinct(selection.documents) && From(selection.documents, docs) && |selection.documents| <= limit
      && (selection.outcome == Selected ==> selection.documents != [])
  {
    if reply.Answer? {
      PickSound(docs, limit, reply.identifiers, Picks([], reply.invalid));
    }
  }

  // ---- Reduction ---------------------------------------------------------------------------

  // The first document for each id; documents without an id are dropped.
  function Deduplicated(docs: seq<Doc>): seq<Doc> {
    if docs == [] then []
    else
      var n := |docs| - 1;
      var before := Deduplicated(docs[..n]);
      if Id(docs[n]) == "" || Id(docs[n]) in KeysOf(before) then before else before + [docs[n]]
  }

  function KeysOf(docs: seq<Doc>): set<string> {
    set i | 0 <= i < |docs| :: Id(docs[i])
  }

  ghost predicate KeysDistinct(docs: seq<Doc>) {
    forall i, j :: 0 <= i < j < |docs| ==> Id(docs[i]) != Id(docs[j])
  }

  method Deduplicate(docs: seq<Doc>) returns (unique: seq<Doc>)
    ensures unique == Deduplicated(docs)
  {
    unique := [];
    for i := 0 to |docs|
      invariant unique == Deduplicated(docs[..i])
    {
      assert docs[..i + 1][..i] == docs[..i];
      if Id(docs[i]) != "" && Id(docs[i]) !in KeysOf(unique) {
        unique := unique + [docs[i]];
      }
    }
    assert docs[..|docs|] == docs;
  }

  lemma {:induction false} DeduplicatedSound(docs: seq<Doc>)
    ensures KeysDistinct(Deduplicated(docs)) && From(Deduplicated(docs), docs)
    ensures forall d :: d in docs && Id(d) != "" ==> Id(d) in KeysOf(Deduplicated(docs))
  {
    if docs != [] {
      var n := |docs| - 1;
      DeduplicatedSound(docs[..n]);
      var before := Deduplicated(docs[..n]);
      assert docs == docs[..n] + [docs[n]];
      KeyAdded(before, docs[n]);
    }
  }

  lemma KeyAdded(docs: seq<Doc>, d: Doc)
    ensures KeysOf(docs + [d]) == KeysOf(docs) + {Id(d)}
    ensures KeysDistinct(docs) && Id(d) !in KeysOf(docs) ==> KeysDistinct(docs + [d])
  {
    var longer := docs + [d];
    assert Id(longer[|docs|]) in KeysOf(longer);
    forall id | id in KeysOf(docs) ensures id in KeysOf(longer) {
      var k :| 0 <= k < |docs| && Id(docs[k]) == id;
      assert Id(longer[k]) == id;
    }
    assert forall k :: 0 <= k < |docs| ==> Id(docs[k]) in KeysOf(docs);
  }

  function Take(docs: seq<Doc>, n: nat): seq<Doc> {
    if |docs| <= n then docs else docs[..n]
  }

  // The first batch from `index` on.
  function BatchAt(docs: seq<Doc>, index: nat): seq<Doc>
    requires index < |docs|
  {
    Take(docs[index..], DEFAULT_PREFILTER_LIMIT)
  }

  // What a batch sends on: the model's picks, or its head when the model failed technically.
  function SentOn(batch: seq<Doc>, limit: nat, reply: Reply): seq<Doc> {
    var selection := SelectionFor(batch, limit, reply);
    if selection.documents != [] then selection.documents
    else if Technical(selection.outcome) then Take(batch, limit)
    else []
  }

  datatype Round = Round(documents: seq<Doc>, technical: bool, call: nat)

  function RoundFrom(docs: seq<Doc>, index: nat, limit: nat, replies: nat -> Reply, round: Round): Round
    decreases |docs| - index
  {
    if index >= |docs| then round
    else
      var batch := BatchAt(docs, index);
      var reply := replies(round.call);
      RoundFrom(docs, index + DEFAULT_PREFILTER_LIMIT, limit, replies,
                Round(round.documents + SentOn(batch, limit, reply),
                      round.technical || Technical(SelectionFor(batch, limit, reply).outcome),
                      round.call + 1))
  }

  // Rounds over batches until one batch is left, then one last choice from it. A round that does not
  // shrink the pool ends the tournament.
  function Reranked(docs: seq<Doc>, limit: nat, partial: bool, replies: nat -> Reply, call: nat): Selection
    decreases |docs|
  {
    if |docs| > DEFAULT_PREFILTER_LIMIT then
      var round := RoundFrom(docs, 0, limit, replies, Round([], partial, call));
      var reduced := Deduplicated(round.documents);
      if reduced == [] || |reduced| >= |docs| then Selection(Take(docs, limit), Partial)
      else Reranked(reduced, limit, round.technical, replies, round.call)
    else if |docs| <= limit then Selection(docs, if partial then Partial else Selected)
    else
      var selection := SelectionFor(docs, limit, replies(call));
      if selection.documents == [] then Selection(Take(docs, limit), Partial)
      else Selection(selection.documents, if partial || Technical(selection.outcome) then Partial else Selected)
  }

  method PlayRound(docs: seq<Doc>, limit: nat, partial: bool, replies: nat -> Reply, call: nat) returns (round: Round)
    ensures round == RoundFrom(docs, 0, limit, replies, Round([], partial, call))
  {
    round := Round([], partial, call);
    var index := 0;
    while index < |docs|
      invariant index >= 0
      invariant RoundFrom(docs, 0, limit, replies, Round([], partial, call)) == RoundFrom(docs, index, limit, replies, round)
    {
      var batch := BatchAt(docs, index);
      var selection := SelectDocuments(batch, limit, replies(round.call));
      var documents := round.documents;
      if selection.documents != [] {
        documents := documents + selection.documents;
      } else if Technical(selection.outcome) {
        documents := documents + Take(batch, limit);
      }
      assert documents == round.documents + SentOn(batch, limit, replies(round.call));
      round := Round(documents, round.technical || Technical(selection.outcome), round.call + 1);
      index := index + DEFAULT_PREFILTER_LIMIT;
    }
  }

  // The reduction loop over the pool left by the first pass. It ends for every sequence of replies,
  // because the pool shrinks in every round.
  method Rerank(documents: seq<Doc>, limit: nat, failed: bool, replies: nat -> Reply, first: nat) returns (selection: Selection)
    ensures selection == Reranked(Deduplicated(documents), limit, failed, replies, first)
  {
    var current := Deduplicate(documents);
    var partial, call := failed, first;
    while |current| > DEFAULT_PREFILTER_LIMIT
      invariant Reranked(Deduplicated(documents), limit, failed, replies, first) == Reranked(current, limit, partial, replies, call)
      decreases |current|
    {
      var round := PlayRound(current, limit, partial, replies, call);
      var reduced := Deduplicate(round.documents);
      if reduced == [] || |reduced| >= |current| {
        return Selection(Take(current, limit), Partial);
      }
      current, partial, call := reduced, round.technical, round.call;
    }
    if |current| <= limit {
      return Selection(current, if partial then Partial else Selected);
    }
    var last := SelectDocuments(current, limit, replies(call));
    if last.documents == [] {
      return Selection(Take(current, limit), Partial);
    }
    return Selection(last.documents, if partial || Technical(last.outcome) then Partial else Selected);
  }

  lemma DistinctPicks(picks: seq<Doc>, pool: seq<Doc>)
    requires KeysDistinct(pool) && From(picks, pool) && IdsDistinct(picks)
    ensures KeysDistinct(picks)
  {
    forall i, j | 0 <= i < j < |picks| ensures Id(picks[i]) != Id(picks[j]) {
      assert picks[i] in pool && picks[j] in pool;
    }
  }

  lemma {:induction false} RoundFromPool(docs: seq<Doc>, index: nat, limit: nat, replies: nat -> Reply, round: Round)
    requires limit > 0 && From(docs, docs) && From(round.documents, docs)
    ensures From(RoundFrom(docs, index, limit, replies, round).documents, docs)
    decreases |docs| - index
  {
    if index < |docs| {
      var batch := BatchAt(docs, index);
      SelectionSound(batch, limit, replies(round.call));
      assert forall d :: d in batch ==> d in docs;
      RoundFromPool(docs, index + DEFAULT_PREFILTER_LIMIT, limit, replies,
                    Round(round.documents + SentOn(batch, limit, replies(round.call)),
                          round.technical || Technical(SelectionFor(batch, limit, replies(round.call)).outcome), round.call + 1));
    }
  }

  // However the model behaves, the tournament leaves at most the limit, each id once, from the pool;
  // it leaves something of any pool, and a pool within the limit it leaves whole.
  lemma {:induction false} TournamentSound(docs: seq<Doc>, limit: nat, partial: bool, replies: nat -> Reply, call: nat)
    requires limit > 0 && KeysDistinct(docs) && From(docs, docs)
    ensures var result := Reranked(docs, limit, partial, replies, call).documents;
      && |result| <= limit && KeysDistinct(result) && From(result, docs)
      && (docs != [] ==> result != [])
      && (|docs| <= limit && |docs| <= DEFAULT_PREFILTER_LIMIT ==> result == docs)
    decreases |docs|
  {
    SelectionSound(docs, limit, replies(call));
    DistinctPicks(SelectionFor(docs, limit, replies(call)).documents, docs);
    if |docs| > DEFAULT_PREFILTER_LIMIT {
      var round := RoundFrom(docs, 0, limit, replies, Round([], partial, call));
      var reduced := Deduplicated(round.documents);
      RoundFromPool(docs, 0, limit, replies, Round([], partial, call));
      DeduplicatedSound(round.documents);
      if reduced != [] && |reduced| < |docs| {
        TournamentSound(reduced, limit, round.technical, replies, round.call);
      }
    }
  }

  // ---- The first pass ----------------------------------------------------------------------

  const ADAPTIVE_BOUNDARY_SCORE_RATIO := 0.85

  predicate ShouldExpand(previous: Batch, next: Batch, selected: nat, limit: nat) {
    next.hasMatch
    && (selected < limit || (previous.boundaryScore > 0.0 && next.topScore >= previous.boundaryScore * ADAPTIVE_BOUNDARY_SCORE_RATIO))
  }

  // What the batches shown so far have picked.
  function PickedFrom(batches: seq<Batch>, limit: nat, replies: nat -> Reply): seq<Doc> {
    if batches == [] then []
    else
      var n := |batches| - 1;
      PickedFrom(batches[..n], limit, replies) + SelectionFor(batches[n].documents, limit, replies(n)).documents
  }

  // Another batch is promising if it has a match and the selection is not full, or its best score comes close
  // to the worst of the batch before.
  lemma ShouldExpandExactly(previous: Batch, next: Batch, selected: nat, limit: nat)
    ensures ShouldExpand(previous, next, selected, limit) <==>
      next.hasMatch && (selected < limit || (previous.boundaryScore > 0.0 && 100.0 * next.topScore >= 85.0 * previous.boundaryScore))
  {
  }

  function OutcomeOf(batches: seq<Batch>, limit: nat, replies: nat -> Reply, i: nat): SelectionOutcome
    requires i < |batches|
  {
    SelectionFor(batches[i].documents, limit, replies(i)).outcome
  }

  // The first `n` batches were answered without a technical failure.
  ghost predicate Answered(batches: seq<Batch>, limit: nat, replies: nat -> Reply, n: nat)
    requires n <= |batches|
  {
    forall i :: 0 <= i < n ==> !Technical(OutcomeOf(batches, limit, replies, i))
  }

  function EmptyOutcome(outcomes: seq<SelectionOutcome>): SelectionOutcome {
    if ProviderError in outcomes then ProviderError
    else if Partial in outcomes then Partial
    else if Malformed in outcomes then Malformed
    else if InvalidIds in outcomes then InvalidIds
    else ExplicitEmpty
  }

  ghost predicate Occurs(batches: seq<Batch>, limit: nat, replies: nat -> Reply, n: nat, outcome: SelectionOutcome)
    requires n <= |batches|
  {
    exists i :: 0 <= i < n && OutcomeOf(batches, limit, replies, i) == outcome
  }

  // Why nothing was picked: the first of these that has occurred, and an explicit refusal otherwise.
  ghost predicate EmptyFor(batches: seq<Batch>, limit: nat, replies: nat -> Reply, n: nat, outcome: SelectionOutcome)
    requires n <= |batches|
  {
    && (outcome == ProviderError <==> Occurs(batches, limit, replies, n, ProviderError))
    && (outcome == Partial <==> Occurs(batches, limit, replies, n, Partial) && !Occurs(batches, limit, replies, n, ProviderError))
    && (outcome == Malformed <==>
          Occurs(batches, limit, replies, n, Malformed) && !Occurs(batches, limit, replies, n, ProviderError) && !Occurs(batches, limit, replies, n, Partial))
    && (outcome == ExplicitEmpty <==> forall o :: o in {ProviderError, Partial, Malformed, InvalidIds} ==> !Occurs(batches, limit, replies, n, o))
    && outcome != Selected
  }

  // Where a pass over the batches stands.
  datatype Pass = Pass(picked: seq<Doc>, outcomes: seq<SelectionOutcome>)

  ghost predicate Follows(batches: seq<Batch>, limit: nat, replies: nat -> Reply, pass: Pass) {
    && |pass.outcomes| <= |batches|
    && pass.picked == PickedFrom(batches[..|pass.outcomes|], limit, replies)
    && forall i :: 0 <= i < |pass.outcomes| ==> pass.outcomes[i] == OutcomeOf(batches, limit, replies, i)
  }

  lemma EmptyOutcomeIs(batches: seq<Batch>, limit: nat, replies: nat -> Reply, pass: Pass)
    requires Follows(batches, limit, replies, pass)
    ensures EmptyFor(batches, limit, replies, |pass.outcomes|, EmptyOutcome(pass.outcomes))
  {
    forall o ensures o in pass.outcomes <==> Occurs(batches, limit, replies, |pass.outcomes|, o) {
      if i :| 0 <= i < |pass.outcomes| && OutcomeOf(batches, limit, replies, i) == o { assert pass.outcomes[i] == o; }
    }
  }

  // One more batch is shown.
  method ShowNext(batches: seq<Batch>, limit: nat, replies: nat -> Reply, pass: Pass) returns (next: Pass)
    requires Follows(batches, limit, replies, pass) && |pass.outcomes| < |batches|
    ensures Follows(batches, limit, replies, next) && |next.outcomes| == |pass.outcomes| + 1
  {
    var n := |pass.outcomes|;
    var selection := SelectDocuments(batches[n].documents, limit, replies(n));
    assert batches[..n + 1][..n] == batches[..n];
    return Pass(pass.picked + selection.documents, pass.outcomes + [selection.outcome]);
  }

  // Why a pass ends: no batch is left, a reply failed, or the next batch is not promising.
  ghost predicate Ended(batches: seq<Batch>, limit: nat, exhaustive: bool, replies: nat -> Reply, pass: Pass)
    requires |pass.outcomes| <= |batches|
  {
    var n := |pass.outcomes|;
    || n == |batches|
    || !Answered(batches, limit, replies, n)
    || (!exhaustive && n > 0 && !ShouldExpand(batches[n - 1], batches[n], |Deduplicated(pass.picked)|, limit))
  }

  // Batches are shown in order, up to the first technical failure; an exhaustive pass stops nowhere
  // else, and an adaptive one only where the next batch is not promising.
  method FirstPass(batches: seq<Batch>, limit: nat, exhaustive: bool, replies: nat -> Reply) returns (pass: Pass)
    ensures Follows(batches, limit, replies, pass) && Ended(batches, limit, exhaustive, replies, pass)
    ensures pass.outcomes != [] ==> Answered(batches, limit, replies, |pass.outcomes| - 1)
  {
    pass := Pass([], []);
    while |pass.outcomes| < |batches|
      invariant Follows(batches, limit, replies, pass)
      invariant Answered(batches, limit, replies, |pass.outcomes|)
      decreases |batches| - |pass.outcomes|
    {
      var n := |pass.outcomes|;
      if n > 0 && !exhaustive {
        var unique := Deduplicate(pass.picked);
        if !ShouldExpand(batches[n - 1], batches[n], |unique|, limit) {
          return;
        }
      }
      pass := ShowNext(batches, limit, replies, pass);
      AnsweredNext(batches, limit, replies, n);
      if Technical(pass.outcomes[n]) {
        return;
      }
    }
  }

  lemma AnsweredNext(batches: seq<Batch>, limit: nat, replies: nat -> Reply, n: nat)
    requires n < |batches| && Answered(batches, limit, replies, n)
    ensures Answered(batches, limit, replies, n + 1) <==> !Technical(OutcomeOf(batches, limit, replies, n))
  {
  }

  lemma {:induction false} PickedFromShown(batches: seq<Batch>, limit: nat, replies: nat -> Reply)
    requires limit > 0
    ensures From(PickedFrom(batches, limit, replies), Concat(DocumentsOf(batches)))
    decreases |batches|
  {
    if batches != [] {
      var n := |batches| - 1;
      PickedFromShown(batches[..n], limit, replies);
      SelectionSound(batches[n].documents, limit, replies(n));
      assert DocumentsOf(batches)[..n] == DocumentsOf(batches[..n]);
    }
  }

  // The whole selection: the result holds at most the limit, each id once, from the batches shown; and
  // an exhaustive pass in which no reply failed has shown every batch.
  method SelectFromBatches(batches: seq<Batch>, limit: nat, exhaustive: bool, replies: nat -> Reply)
    returns (selection: Selection, attempted: nat)
    requires limit > 0
    ensures attempted <= |batches|
    ensures |selection.documents| <= limit && KeysDistinct(selection.documents)
    ensures From(selection.documents, Concat(DocumentsOf(batches[..attempted])))
    ensures selection.documents == [] ==> EmptyFor(batches, limit, replies, attempted, selection.outcome)
    ensures selection.documents == [] <==> PickedFrom(batches[..attempted], limit, replies) == []
    ensures selection.documents != [] ==>
      selection == Reranked(Deduplicated(PickedFrom(batches[..attempted], limit, replies)), limit,
                            !Answered(batches, limit, replies, attempted), replies, attempted)
    ensures exhaustive && Answered(batches, limit, replies, attempted) ==> attempted == |batches|
  {
    var pass := FirstPass(batches, limit, exhaustive, replies);
    attempted := |pass.outcomes|;
    PickedFromShown(batches[..attempted], limit, replies);
    if pass.picked == [] {
      EmptyOutcomeIs(batches, limit, replies, pass);
      return Selection([], EmptyOutcome(pass.outcomes)), attempted;
    }
    var partial := exists o :: o in pass.outcomes && Technical(o);
    FailureIsPartial(batches, limit, replies, pass);
    DeduplicatedSound(pass.picked);
    PickedSurvive(pass.picked);
    TournamentSound(Deduplicated(pass.picked), limit, partial, replies, attempted);
    selection := Rerank(pass.picked, limit, partial, replies, attempted);
  }

  lemma FailureIsPartial(batches: seq<Batch>, limit: nat, replies: nat -> Reply, pass: Pass)
    requires Follows(batches, limit, replies, pass)
    ensures (exists o :: o in pass.outcomes && Technical(o)) <==> !Answered(batches, limit, replies, |pass.outcomes|)
  {
    forall i | 0 <= i < |pass.outcomes| ensures pass.outcomes[i] in pass.outcomes {}
  }

  lemma PickedSurvive(picked: seq<Doc>)
    requires picked != [] && exists pool :: From(picked, pool)
    ensures Deduplicated(picked) != []
    ensures From(Deduplicated(picked), Deduplicated(picked))
  {
    DeduplicatedSound(picked);
    assert picked[0] in picked;
    assert Id(picked[0]) in KeysOf(Deduplicated(picked));
  }

  // From a scope to a selection. When the pass is exhaustive and no reply failed, every document with
  // an id of its own was shown exactly once; and however the model behaves, at most the limit is
  // selected, each id once, from the scope.
  method SelectCandidates(documents: seq<Doc>, stable: seq<Doc>, matches: seq<Match>, limit: nat, exhaustive: bool, replies: nat -> Reply)
    returns (selection: Selection, batches: seq<Batch>, attempted: nat)
    requires limit > 0 && multiset(stable) == multiset(documents)
    ensures attempted <= |batches| && Batched(DocumentsOf(batches))
    ensures |selection.documents| <= limit && KeysDistinct(selection.documents)
    ensures From(selection.documents, Concat(DocumentsOf(batches[..attempted]))) && From(selection.documents, documents)
    ensures exhaustive && Answered(batches, limit, replies, attempted) ==> attempted == |batches|
    ensures forall d :: UniqueId(documents, d) ==> multiset(Concat(DocumentsOf(batches)))[d] == 1
  {
    var ranked := RankDocuments(documents, stable, matches);
    batches := CandidateBatches(ranked);
    selection, attempted := SelectFromBatches(batches, limit, exhaustive, replies);
    ShownIsPrefix(batches, attempted);
  }

  lemma {:induction false} ShownIsPrefix(batches: seq<Batch>, n: nat)
    requires n <= |batches|
    ensures Concat(DocumentsOf(batches[..n])) <= Concat(DocumentsOf(batches))
    decreases |batches|
  {
    if n < |batches| {
      var last := |batches| - 1;
      assert batches[..last][..n] == batches[..n];
      assert DocumentsOf(batches)[..last] == DocumentsOf(batches[..last]);
      ShownIsPrefix(batches[..last], n);
    } else {
      assert batches[..n] == batches;
    }
  }
}
