/**
 The rounds of tree search over one document (services/retrieval_api/query_engine.py). Every reply of
 the model is arbitrary. The search keeps its page and round budget whatever they say, and ends with one
 terminal step unless a reply holds a page text that cannot be read.
 */
module TreeSearch {

  import opened Outcome
  import opened PageWindow
  import opened Text

  const MAX_TREE_SEARCH_ROUNDS := 3
  const MAX_TREE_SEARCH_PAGES_PER_ROUND := 8
  const MAX_TREE_SEARCH_PAGES := 16
  const ADAPTIVE_TREE_SEARCH_ROUNDS := 5
  const ADAPTIVE_TREE_SEARCH_PAGES_PER_ROUND := 8
  const ADAPTIVE_TREE_SEARCH_PAGES := 40
  const ADAPTIVE_TREE_SEARCH_INITIAL_PAGES := 8

  datatype Budget = Budget(maxRounds: nat, maxPages: nat, pagesPerRound: nat, initialPages: nat)

  function TreeSearchBudget(fixedPolicy: bool, complexQuery: bool): Budget {
    if fixedPolicy then
      Budget(MAX_TREE_SEARCH_ROUNDS, MAX_TREE_SEARCH_PAGES, MAX_TREE_SEARCH_PAGES_PER_ROUND, MAX_TREE_SEARCH_PAGES_PER_ROUND)
    else if complexQuery then
      Budget(ADAPTIVE_TREE_SEARCH_ROUNDS, ADAPTIVE_TREE_SEARCH_PAGES, ADAPTIVE_TREE_SEARCH_PAGES_PER_ROUND,
             ADAPTIVE_TREE_SEARCH_INITIAL_PAGES)
    else
      Budget(MAX_TREE_SEARCH_ROUNDS + 1, MAX_TREE_SEARCH_PAGES + MAX_TREE_SEARCH_PAGES_PER_ROUND,
             MAX_TREE_SEARCH_PAGES_PER_ROUND, ADAPTIVE_TREE_SEARCH_INITIAL_PAGES)
  }

  // A first round that fits the page budget and can be printed as a window that reads back.
  predicate Sensible(budget: Budget) {
    budget.initialPages <= budget.maxPages <= MAX_PAGE_SELECTION_SIZE
  }

  // A document as the search for one query sees it: its pages, whether it has a usable tree, the pages
  // with an excerpt, the pages that match the query's words, and, for a query that asks for a list, its
  // overview pages. Loading pages returns requested ones only.
  datatype Document = Document(available: set<nat>, searchable: bool, excerpts: set<nat>, anchors: set<nat>, overview: set<nat>)
  {
    function Load(pages: set<nat>): set<nat> {
      pages * excerpts
    }

    ghost predicate Valid() {
      PageNumbers(available) && anchors <= available && overview <= available
    }
  }

  // What a reply selects: the pages of the tree nodes it names, and a text of pages.
  datatype Payload = Payload(nodes: set<nat>, pages: Option<string>)

  // The first reply, and those that assess the evidence: no usable answer, enough, or something missing.
  datatype FirstReply = NoSelection | Selection(payload: Payload)

  datatype Assessment = Unusable | Sufficient | Unresolved(payload: Payload)

  datatype StopReason = NoSearchableTree | MaxPages | CoverageComplete | MaxRounds

  datatype EmptyReason = InvalidPageSelection | EmptyEvidence

  // Selected and inspected pages are told by their printed window, from which they can be read back.
  datatype Step =
    | PagesSelected(pages: set<nat>, round: nat, fallback: bool)
    | Empty(reason: EmptyReason)
    | Found(pages: set<nat>, evidence: set<nat>, roundsCompleted: nat, stop: StopReason)

  // The steps of a search, how many replies it asked for, and whether reading the last one raised.
  datatype Search = Search(steps: seq<Step>, asked: nat, raised: bool)

  // ---- Selecting pages ---------------------------------------------------------------------

  function FirstPages(pages: set<nat>, limit: int): set<nat> {
    set p | p in FirstOf(pages, limit)
  }

  lemma FirstPagesAre(pages: set<nat>, limit: int)
    ensures FirstPages(pages, limit) <= pages
    ensures |FirstPages(pages, limit)| == if limit <= 0 then 0 else if |pages| < limit then |pages| else limit
    ensures |pages| <= limit ==> FirstPages(pages, limit) == pages
  {
    FirstOfIs(pages, limit);
    ListingSize(FirstOf(pages, limit), FirstPages(pages, limit));
    if |pages| <= limit {
      SubsetSize(pages - FirstPages(pages, limit), pages);
      assert |pages - FirstPages(pages, limit)| == |pages| - |FirstPages(pages, limit)|;
    }
  }

  // The pages a reply selects: those of its nodes, or else those of its text, which may raise.
  function FromPayload(payload: Payload, available: set<nat>, exclude: set<nat>, limit: int): Result<set<nat>> {
    var named := payload.nodes * available - exclude;
    if limit <= 0 then Returned({})
    else if named != {} then Returned(FirstPages(named, limit))
    else
      match payload.pages
      case None => Returned({})
      case Some(text) => if Parse(text).Raised? then Raised else Returned(FirstPages(Eligible(text, available, exclude), limit))
  }

  predicate PayloadRaises(payload: Payload, available: set<nat>, exclude: set<nat>, limit: int) {
    && limit > 0 && payload.nodes * available - exclude == {}
    && payload.pages.Some? && Parse(payload.pages.value).Raised?
  }

  lemma FromPayloadIs(payload: Payload, available: set<nat>, exclude: set<nat>, limit: int)
    ensures var r := FromPayload(payload, available, exclude, limit);
      && (r.Raised? <==> PayloadRaises(payload, available, exclude, limit))
      && (r.Returned? ==> r.value <= available && r.value !! exclude && |r.value| <= if limit <= 0 then 0 else limit)
  {
    FirstPagesAre(payload.nodes * available - exclude, limit);
    if payload.pages.Some? { FirstPagesAre(Eligible(payload.pages.value, available, exclude), limit); }
  }

  method SelectionFromPayload(payload: Payload, available: set<nat>, exclude: set<nat>, limit: int) returns (r: Result<set<nat>>)
    ensures r == FromPayload(payload, available, exclude, limit)
  {
    if limit <= 0 {
      return Returned({});
    }
    var nodePages := SortedPages(payload.nodes * available - exclude);
    if nodePages != [] {
      assert nodePages[0] in payload.nodes * available - exclude;
      nodePages := if |nodePages| <= limit then nodePages else nodePages[..limit];
      return Returned(set p | p in nodePages);
    }
    if payload.pages.None? {
      return Returned({});
    }
    var numbers :- BoundedPageNumbers(payload.pages.value, available, exclude, limit);
    return Returned(set p | p in numbers);
  }

  // A printed selection reads back as the same pages.
  lemma ReadsBack(pages: set<nat>, available: set<nat>, exclude: set<nat>, limit: int)
    requires PageNumbers(available) && pages != {} && pages <= available && pages !! exclude
    requires |pages| <= limit && |pages| <= MAX_PAGE_SELECTION_SIZE
    ensures Parse(Window(pages)) == Returned(Some(pages)) && PagesIn(Window(pages)) == pages
    ensures FirstPages(Eligible(Window(pages), available, exclude), limit) == pages
  {
    WindowRoundTrip(pages);
    assert Eligible(Window(pages), available, exclude) == pages;
    FirstPagesAre(pages, limit);
  }

  // ---- The first window --------------------------------------------------------------------

  // Pages are added in order until the limit is reached.
  function Filled(base: set<nat>, candidates: seq<nat>, limit: nat): set<nat>
    decreases |candidates|
  {
    if |base| >= limit || candidates == [] then base else Filled(base + {candidates[0]}, candidates[1..], limit)
  }

  lemma {:induction false} FilledWithin(base: set<nat>, candidates: seq<nat>, limit: nat)
    ensures base <= Filled(base, candidates, limit)
    ensures forall p :: p in Filled(base, candidates, limit) ==> p in base || p in candidates
    decreases |candidates|
  {
    if |base| < limit && candidates != [] {
      FilledWithin(base + {candidates[0]}, candidates[1..], limit);
    }
  }

  function FilledUp(base: set<nat>, candidates: set<nat>, limit: nat): (retained: set<nat>)
    ensures base <= retained <= base + candidates
  {
    var numbers := SortedPages(candidates);
    FilledWithin(base, numbers, limit);
    Filled(base, numbers, limit)
  }

  method Fill(base: set<nat>, candidates: seq<nat>, limit: nat) returns (retained: set<nat>)
    ensures retained == Filled(base, candidates, limit)
  {
    retained := base;
    var i := 0;
    while i < |candidates|
      invariant 0 <= i <= |candidates|
      invariant Filled(base, candidates, limit) == Filled(retained, candidates[i..], limit)
    {
      if |retained| >= limit {
        return;
      }
      assert candidates[i..][0] == candidates[i] && candidates[i..][1..] == candidates[i + 1..];
      retained := retained + {candidates[i]};
      i := i + 1;
    }
  }

  // Overview pages and matching pages are put in front of what the model selected.
  function Listed(document: Document, selected: set<nat>): set<nat> {
    var merged := selected + document.overview;
    if document.overview == {} then selected
    else if |merged| <= MAX_TREE_SEARCH_PAGES_PER_ROUND then merged
    else FilledUp(document.overview, selected, MAX_TREE_SEARCH_PAGES_PER_ROUND)
  }

  function Anchored(document: Document, selected: set<nat>, initialPages: nat): set<nat> {
    var merged := selected + document.anchors;
    if document.anchors == {} then selected
    else if |merged| <= initialPages then merged
    else FilledUp(document.anchors, merged, initialPages)
  }

  function DefaultWindow(available: set<nat>): string {
    var numbers := SortedPages(available);
    if numbers == [] then "1"
    else if |numbers| == 1 then Decimal(numbers[0])
    else Decimal(numbers[0]) + "-" + Decimal(numbers[1])
  }

  function FallbackText(document: Document): string {
    if document.anchors != {} then Window(document.anchors) else DefaultWindow(document.available)
  }

  function ChosenText(document: Document, reply: FirstReply, budget: Budget): Result<string> {
    match reply
    case NoSelection => Returned(FallbackText(document))
    case Selection(payload) =>
      var selected :- FromPayload(payload, document.available, {}, budget.initialPages);
      Returned(if selected == {} then FallbackText(document)
               else Window(Anchored(document, Listed(document, selected), budget.initialPages)))
  }

  method ChoosePageWindow(document: Document, reply: FirstReply, budget: Budget) returns (r: Result<string>)
    requires document.Valid()
    ensures r == ChosenText(document, reply, budget)
  {
    var fallback := DefaultWindow(document.available);
    if document.anchors != {} {
      fallback := FormatPageWindow(document.anchors);
    }
    if reply.NoSelection? {
      return Returned(fallback);
    }
    var selected :- SelectionFromPayload(reply.payload, document.available, {}, budget.initialPages);
    if selected == {} {
      return Returned(fallback);
    }
    FromPayloadIs(reply.payload, document.available, {}, budget.initialPages);
    WidenedAvailable(document, selected, budget.initialPages);
    if document.overview != {} {
      if |selected + document.overview| <= MAX_TREE_SEARCH_PAGES_PER_ROUND {
        selected := selected + document.overview;
      } else {
        selected := Fill(document.overview, SortedPages(selected), MAX_TREE_SEARCH_PAGES_PER_ROUND);
      }
    }
    if document.anchors != {} {
      selected := selected + document.anchors;
      if |selected| > budget.initialPages {
        selected := Fill(document.anchors, SortedPages(selected), budget.initialPages);
      }
    }
    var window := FormatPageWindow(selected);
    return Returned(window);
  }

  lemma ListedAvailable(document: Document, selected: set<nat>)
    requires document.Valid() && selected <= document.available
    ensures Listed(document, selected) <= document.available && (selected != {} ==> Listed(document, selected) != {})
  {
  }

  lemma AnchoredAvailable(document: Document, listed: set<nat>, initialPages: nat)
    requires document.Valid() && listed <= document.available
    ensures Anchored(document, listed, initialPages) <= document.available
    ensures listed != {} ==> Anchored(document, listed, initialPages) != {}
  {
  }

  lemma WidenedAvailable(document: Document, selected: set<nat>, initialPages: nat)
    requires document.Valid() && selected <= document.available
    ensures Anchored(document, Listed(document, selected), initialPages) <= document.available
    ensures selected != {} ==> Anchored(document, Listed(document, selected), initialPages) != {}
  {
    ListedAvailable(document, selected);
    AnchoredAvailable(document, Listed(document, selected), initialPages);
  }

  // Printed and default windows can always be read.
  lemma PrintedReads(pages: set<nat>)
    requires pages != {} && PageNumbers(pages)
    ensures Parse(Window(pages)).Returned?
  {
    WindowRoundTrip(pages);
  }

  lemma DefaultReads(available: set<nat>)
    requires PageNumbers(available)
    ensures Parse(DefaultWindow(available)).Returned?
  {
    var numbers := SortedPages(available);
    if numbers == [] {
      OneRunReads(Run(1, 1));
      assert DefaultWindow(available) == PrintRun(Run(1, 1));
    } else {
      assert numbers[0] in available;
      var last := if |numbers| == 1 then numbers[0] else numbers[1];
      assert last in numbers && last in available;
      OneRunReads(Run(numbers[0], last));
    }
  }

  lemma OneRunReads(run: Run)
    requires 0 < run.low <= run.high && Printable(run.high)
    ensures Parse(PrintRun(run)) == Returned(if run.high + 1 - run.low <= MAX_PAGE_SELECTION_SIZE then Some(PagesFrom(run.low, run.high)) else None)
  {
    PrintedSplits([run]);
    assert PrintEach([run]) == [PrintRun(run)] && PrintRuns([run]) == PrintRun(run);
    RunTokenRead(run, {});
    TakeOne(PrintRun(run), [], {});
    assert [PrintRun(run)] + [] == [PrintRun(run)];
    assert {} + PagesFrom(run.low, run.high) == PagesFrom(run.low, run.high);
    assert run.low in PagesFrom(run.low, run.high);
  }

  lemma FallbackReads(document: Document)
    requires document.Valid()
    ensures Parse(FallbackText(document)).Returned?
  {
    if document.anchors != {} { PrintedReads(document.anchors); } else { DefaultReads(document.available); }
  }

  lemma ChosenReads(document: Document, reply: FirstReply, budget: Budget)
    requires document.Valid() && ChosenText(document, reply, budget).Returned?
    ensures Parse(ChosenText(document, reply, budget).value).Returned?
  {
    FallbackReads(document);
    if reply.Selection? {
      FromPayloadIs(reply.payload, document.available, {}, budget.initialPages);
      var selected := FromPayload(reply.payload, document.available, {}, budget.initialPages).value;
      if selected != {} {
        WidenedAvailable(document, selected, budget.initialPages);
        PrintedReads(Anchored(document, Listed(document, selected), budget.initialPages));
      }
    }
  }

  // ---- The search --------------------------------------------------------------------------

  function Pick(text: string, document: Document, budget: Budget): set<nat> {
    FirstPages(Eligible(text, document.available, {}), budget.initialPages)
  }

  // The fallback takes over from a selection that loads nothing.
  function ReplacedBy(document: Document, pages: set<nat>, fallback: set<nat>): Option<set<nat>> {
    if document.Load(pages) == {} && fallback != {} && pages != fallback then Some(fallback) else None
  }

  function Replacement(document: Document, pages: set<nat>, budget: Budget): Option<set<nat>> {
    ReplacedBy(document, pages, Pick(FallbackText(document), document, budget))
  }

  // The selections of the first round.
  function FirstSteps(document: Document, numbers: set<nat>, fallback: set<nat>): seq<Step> {
    var first := if numbers == {} then fallback else numbers;
    if first == {} then []
    else
      match ReplacedBy(document, first, fallback)
      case None => [PagesSelected(first, 1, numbers == {})]
      case Some(other) => [PagesSelected(first, 1, numbers == {}), PagesSelected(other, 1, true)]
  }

  function FirstRound(document: Document, chosen: string, budget: Budget): seq<Step> {
    FirstSteps(document, Pick(chosen, document, budget), Pick(FallbackText(document), document, budget))
  }

  function RoundLimit(inspected: set<nat>, budget: Budget): int {
    var left := budget.maxPages - |inspected|;
    if budget.pagesPerRound < left then budget.pagesPerRound else left
  }

  // The pages an assessment asks for; none when the evidence is taken to be enough.
  function NextPages(document: Document, assessment: Assessment, inspected: set<nat>, budget: Budget): Result<set<nat>> {
    match assessment
    case Unusable => Returned({})
    case Sufficient => Returned({})
    case Unresolved(payload) => FromPayload(payload, document.available, inspected, RoundLimit(inspected, budget))
  }

  // What a round selects, given what has been inspected.
  type Ask = (nat, set<nat>) -> Result<set<nat>>

  function Asking(document: Document, budget: Budget, replies: nat -> Assessment): Ask {
    (round, inspected) => NextPages(document, replies(round), inspected, budget)
  }

  // The rounds from `round` on.
  function Rounds(document: Document, budget: Budget, ask: Ask, steps: seq<Step>, inspected: set<nat>,
                  evidence: set<nat>, round: nat): Search
    requires round > 0
    decreases budget.maxRounds + 1 - round
  {
    if round > budget.maxRounds then Search(steps + [Found(inspected, evidence, round - 1, MaxRounds)], round - 1, false)
    else if |inspected| >= budget.maxPages then Search(steps + [Found(inspected, evidence, round - 1, MaxPages)], round - 1, false)
    else
      match ask(round, inspected)
      case Raised => Search(steps, round, true)
      case Returned(next) =>
        if next == {} then Search(steps + [Found(inspected, evidence, round, CoverageComplete)], round, false)
        else
          Rounds(document, budget, ask, steps + [PagesSelected(next, round, false)], inspected + next,
                 evidence + document.Load(next), round + 1)
  }

  function SearchFrom(document: Document, budget: Budget, chosen: string, replies: nat -> Assessment): Search {
    SearchAfter(document, budget, FirstRound(document, chosen, budget), replies)
  }

  function SearchAfter(document: Document, budget: Budget, first: seq<Step>, replies: nat -> Assessment): Search
    requires first != [] ==> first[|first| - 1].PagesSelected?
  {
    if first == [] then Search([Empty(InvalidPageSelection)], 1, false)
    else SearchOn(document, budget, Asking(document, budget, replies), first, first[|first| - 1].pages)
  }

  function SearchOn(document: Document, budget: Budget, ask: Ask, steps: seq<Step>, inspected: set<nat>): Search {
    var evidence := document.Load(inspected);
    if evidence == {} then Search(steps + [Empty(EmptyEvidence)], 1, false)
    else if !document.searchable then Search(steps + [Found(inspected, evidence, 1, NoSearchableTree)], 1, false)
    else Rounds(document, budget, ask, steps, inspected, evidence, 2)
  }

  function SearchOf(document: Document, budget: Budget, first: FirstReply, replies: nat -> Assessment): Search {
    match ChosenText(document, first, budget)
    case Raised => Search([], 1, true)
    case Returned(chosen) => SearchFrom(document, budget, chosen, replies)
  }

  method SelectWindow(text: string, document: Document, budget: Budget) returns (pages: set<nat>)
    requires Parse(text).Returned?
    ensures pages == Pick(text, document, budget)
  {
    var numbers := BoundedPageNumbers(text, document.available, {}, budget.initialPages);
    return set p | p in numbers.value;
  }

  lemma PickAvailable(text: string, document: Document, budget: Budget)
    ensures Pick(text, document, budget) <= document.available && |Pick(text, document, budget)| <= budget.initialPages
  {
    FirstPagesAre(Eligible(text, document.available, {}), budget.initialPages);
  }

  lemma PickPrints(text: string, document: Document, budget: Budget)
    requires document.Valid()
    ensures PageNumbers(Pick(text, document, budget))
  {
    PickAvailable(text, document, budget);
  }

  method FallbackPages(document: Document) returns (text: string)
    requires document.Valid()
    ensures text == FallbackText(document) && Parse(text).Returned?
  {
    FallbackReads(document);
    if document.anchors != {} {
      text := FormatPageWindow(document.anchors);
    } else {
      text := DefaultWindow(document.available);
    }
  }

  // Windows differ exactly when their pages do.
  lemma WindowsTellPages(a: set<nat>, b: set<nat>)
    requires a != {} && b != {} && PageNumbers(a) && PageNumbers(b)
    requires |a| <= MAX_PAGE_SELECTION_SIZE && |b| <= MAX_PAGE_SELECTION_SIZE
    ensures Window(a) == Window(b) <==> a == b
  {
    WindowRoundTrip(a);
    WindowRoundTrip(b);
  }

  method ReplaceSelection(document: Document, pages: set<nat>, budget: Budget) returns (replaced: Option<set<nat>>)
    requires document.Valid() && budget.initialPages <= MAX_PAGE_SELECTION_SIZE
    requires pages != {} && PageNumbers(pages) && |pages| <= budget.initialPages
    ensures replaced == Replacement(document, pages, budget)
  {
    var text := FallbackPages(document);
    var numbers := SelectWindow(text, document, budget);
    PickPrints(text, document, budget);
    PickAvailable(text, document, budget);
    if numbers == {} {
      return None;
    }
    WindowsTellPages(pages, numbers);
    var window := FormatPageWindow(pages);
    var fallbackWindow := FormatPageWindow(numbers);
    return if document.Load(pages) == {} && window != fallbackWindow then Some(numbers) else None;
  }

  method InitialSelection(document: Document, chosen: string, budget: Budget) returns (steps: seq<Step>)
    requires document.Valid() && budget.initialPages <= MAX_PAGE_SELECTION_SIZE && Parse(chosen).Returned?
    ensures steps == FirstRound(document, chosen, budget)
  {
    var numbers := SelectWindow(chosen, document, budget);
    PickPrints(chosen, document, budget);
    PickAvailable(chosen, document, budget);
    var usedFallback := numbers == {};
    if numbers == {} {
      var text := FallbackPages(document);
      numbers := SelectWindow(text, document, budget);
      PickPrints(text, document, budget);
      PickAvailable(text, document, budget);
    }
    if numbers == {} {
      return [];
    }
    var replaced := ReplaceSelection(document, numbers, budget);
    match replaced
    case None => return [PagesSelected(numbers, 1, usedFallback)];
    case Some(fallback) => return [PagesSelected(numbers, 1, usedFallback), PagesSelected(fallback, 1, true)];
  }

  // One assessed round: nothing when the evidence is taken to be enough, else the pages printed, which
  // the loop reads back.
  method AssessRound(document: Document, assessment: Assessment, inspected: set<nat>, budget: Budget)
    returns (next: Result<set<nat>>)
    requires document.Valid() && |inspected| < budget.maxPages && budget.maxPages <= MAX_PAGE_SELECTION_SIZE
    ensures next == NextPages(document, assessment, inspected, budget)
  {
    if !assessment.Unresolved? {
      return Returned({});
    }
    var limit := RoundLimit(inspected, budget);
    var selected :- SelectionFromPayload(assessment.payload, document.available, inspected, limit);
    if selected == {} {
      return Returned({});
    }
    FromPayloadIs(assessment.payload, document.available, inspected, limit);
    var window := FormatPageWindow(selected);
    ReadsBack(selected, document.available, inspected, limit);
    var numbers := BoundedPageNumbers(window, document.available, inspected, limit);
    return Returned(set p | p in numbers.value);
  }

  method SearchRounds(document: Document, budget: Budget, replies: nat -> Assessment, before: seq<Step>, seen: set<nat>, loaded: set<nat>)
    returns (search: Search)
    requires document.Valid() && budget.maxPages <= MAX_PAGE_SELECTION_SIZE
    ensures search == Rounds(document, budget, Asking(document, budget, replies), before, seen, loaded, 2)
  {
    var steps, inspected, evidence := before, seen, loaded;
    ghost var ask := Asking(document, budget, replies);
    var round := 2;
    while round <= budget.maxRounds
      invariant 2 <= round
      invariant Rounds(document, budget, ask, before, seen, loaded, 2) == Rounds(document, budget, ask, steps, inspected, evidence, round)
    {
      if |inspected| >= budget.maxPages {
        return Search(steps + [Found(inspected, evidence, round - 1, MaxPages)], round - 1, false);
      }
      var next := AssessRound(document, replies(round), inspected, budget);
      assert next == ask(round, inspected);
      if next.Raised? {
        return Search(steps, round, true);
      }
      if next.value == {} {
        return Search(steps + [Found(inspected, evidence, round, CoverageComplete)], round, false);
      }
      steps, inspected, evidence :=
        steps + [PagesSelected(next.value, round, false)], inspected + next.value, evidence + document.Load(next.value);
      round := round + 1;
    }
    return Search(steps + [Found(inspected, evidence, round - 1, MaxRounds)], round - 1, false);
  }

  lemma NextNumbers(document: Document, assessment: Assessment, inspected: set<nat>, budget: Budget)
    requires document.Valid() && NextPages(document, assessment, inspected, budget).Returned?
    ensures var next := NextPages(document, assessment, inspected, budget).value;
      next <= document.available && PageNumbers(next) && next !! inspected
    ensures |inspected| < budget.maxPages ==>
      var next := NextPages(document, assessment, inspected, budget).value;
      |next| <= budget.pagesPerRound && |inspected + next| <= budget.maxPages
  {
    if assessment.Unresolved? {
      FromPayloadIs(assessment.payload, document.available, inspected, RoundLimit(inspected, budget));
      UnionSize(inspected, NextPages(document, assessment, inspected, budget).value);
    }
  }

  method SearchWindow(document: Document, budget: Budget, chosen: string, replies: nat -> Assessment) returns (search: Search)
    requires document.Valid() && Sensible(budget) && Parse(chosen).Returned?
    ensures search == SearchFrom(document, budget, chosen, replies)
  {
    var steps := InitialSelection(document, chosen, budget);
    if steps == [] {
      return Search([Empty(InvalidPageSelection)], 1, false);
    }
    var inspected := steps[|steps| - 1].pages;
    var evidence := document.Load(inspected);
    if evidence == {} {
      return Search(steps + [Empty(EmptyEvidence)], 1, false);
    }
    if !document.searchable {
      return Search(steps + [Found(inspected, evidence, 1, NoSearchableTree)], 1, false);
    }
    search := SearchRounds(document, budget, replies, steps, inspected, evidence);
  }

  // The search itself. What it does whatever the replies say is proved of `SearchOf` below.
  method SearchDocument(document: Document, fixedPolicy: bool, complexQuery: bool, first: FirstReply, replies: nat -> Assessment)
    returns (search: Search)
    requires document.Valid()
    ensures search == SearchOf(document, TreeSearchBudget(fixedPolicy, complexQuery), first, replies)
  {
    var budget := TreeSearchBudget(fixedPolicy, complexQuery);
    var chosen := ChoosePageWindow(document, first, budget);
    if chosen.Raised? {
      return Search([], 1, true);
    }
    ChosenReads(document, first, budget);
    search := SearchWindow(document, budget, chosen.value, replies);
  }

  // ---- Budgets and the end -------------------------------------------------------------------

  // The pages looked at: those of the last first-round selection and of every later round.
  ghost function Inspected(steps: seq<Step>): set<nat> {
    if steps == [] then {}
    else
      var last := steps[|steps| - 1];
      if !last.PagesSelected? then Inspected(steps[..|steps| - 1])
      else if last.round == 1 then last.pages
      else Inspected(steps[..|steps| - 1]) + last.pages
  }

  // A selection of the first round: one, and a fallback in its place when it has loaded nothing.
  ghost predicate FirstAdmissible(before: seq<Step>, step: Step, document: Document, budget: Budget)
    requires step.PagesSelected?
  {
    && |step.pages| <= budget.initialPages && |before| <= 1
    && (before != [] ==>
          before[0].PagesSelected? && before[0].round == 1 && step.fallback
          && document.Load(before[0].pages) == {} && before[0].pages != step.pages)
  }

  // A selection of a later round: new pages, within the limits.
  ghost predicate LaterAdmissible(before: seq<Step>, step: Step, budget: Budget)
    requires step.PagesSelected?
  {
    && 1 < step.round <= budget.maxRounds && !step.fallback && before != []
    && |step.pages| <= budget.pagesPerRound
    && step.pages !! Inspected(before) && |Inspected(before) + step.pages| <= budget.maxPages
    && forall s :: s in before ==> s.PagesSelected? && s.round < step.round
  }

  ghost predicate Admissible(before: seq<Step>, step: Step, document: Document, budget: Budget) {
    && step.PagesSelected? && step.pages != {} && step.pages <= document.available
    && if step.round == 1 then FirstAdmissible(before, step, document, budget) else LaterAdmissible(before, step, budget)
  }

  ghost predicate Selections(steps: seq<Step>, document: Document, budget: Budget) {
    forall i :: 0 <= i < |steps| ==> AdmissibleAt(steps, i, document, budget)
  }

  ghost predicate AdmissibleAt(steps: seq<Step>, i: int, document: Document, budget: Budget)
    requires 0 <= i < |steps|
  {
    Admissible(steps[..i], steps[i], document, budget)
  }

  lemma SelectionsBefore(steps: seq<Step>, n: nat, document: Document, budget: Budget)
    requires n <= |steps| && Selections(steps, document, budget)
    ensures Selections(steps[..n], document, budget)
  {
    forall i | 0 <= i < n ensures AdmissibleAt(steps[..n], i, document, budget) {
      assert AdmissibleAt(steps, i, document, budget);
      assert steps[..n][..i] == steps[..i];
    }
  }

  lemma {:induction false} InspectedAvailable(steps: seq<Step>, document: Document, budget: Budget)
    requires Selections(steps, document, budget)
    ensures Inspected(steps) <= document.available
    ensures steps != [] ==> Inspected(steps) != {}
    ensures budget.initialPages <= budget.maxPages ==> |Inspected(steps)| <= budget.maxPages
    decreases |steps|
  {
    if steps != [] {
      var n := |steps| - 1;
      SelectionsBefore(steps, n, document, budget);
      InspectedAvailable(steps[..n], document, budget);
      assert AdmissibleAt(steps, n, document, budget);
    }
  }

  lemma SelectionsGrow(steps: seq<Step>, step: Step, document: Document, budget: Budget)
    requires Selections(steps, document, budget) && Admissible(steps, step, document, budget)
    ensures Selections(steps + [step], document, budget)
  {
    var more := steps + [step];
    forall i | 0 <= i < |more| ensures AdmissibleAt(more, i, document, budget) {
      assert more[..i] == steps[..i];
      if i < |steps| { assert AdmissibleAt(steps, i, document, budget); }
    }
  }

  // The final step tells what was inspected, everything that was loaded from it, and why the search
  // stopped.
  ghost predicate FoundTrue(before: seq<Step>, step: Step, document: Document, budget: Budget)
    requires step.Found?
  {
    && step.pages == Inspected(before) && step.evidence != {} && step.evidence == document.Load(Inspected(before))
    && 1 <= step.roundsCompleted && (step.roundsCompleted == 1 || step.roundsCompleted <= budget.maxRounds)
    && (step.stop == MaxPages ==> |Inspected(before)| >= budget.maxPages && step.roundsCompleted < budget.maxRounds)
    && (step.stop == CoverageComplete ==> |Inspected(before)| < budget.maxPages && step.roundsCompleted >= 2)
    && (step.stop == NoSearchableTree <==> !document.searchable)
    && (step.stop == MaxRounds ==> step.roundsCompleted >= budget.maxRounds)
  }

  // Selections, then exactly one terminal step.
  ghost predicate Complete(steps: seq<Step>, document: Document, budget: Budget) {
    && steps != []
    && var n := |steps| - 1;
    && Selections(steps[..n], document, budget)
    && !steps[n].PagesSelected?
    && (steps[n].Found? ==> FoundTrue(steps[..n], steps[n], document, budget))
  }

  // How many replies a search has asked for, told from its steps.
  function RepliesAsked(steps: seq<Step>): nat {
    if steps == [] then 1
    else
      match steps[|steps| - 1]
      case PagesSelected(_, round, _) => round + 1
      case Empty(_) => 1
      case Found(_, _, roundsCompleted, _) => roundsCompleted
  }

  // A search that did not raise is complete; one that did has selections only, and no terminal step.
  ghost predicate SearchSound(search: Search, document: Document, budget: Budget) {
    && search.asked == RepliesAsked(search.steps)
    && if search.raised then Selections(search.steps, document, budget) else Complete(search.steps, document, budget)
  }

  ghost predicate Searching(steps: seq<Step>, inspected: set<nat>, evidence: set<nat>, round: nat, document: Document, budget: Budget) {
    && Selections(steps, document, budget) && steps != [] && inspected == Inspected(steps)
    && evidence != {} && evidence == document.Load(inspected) && steps[|steps| - 1].PagesSelected? && steps[|steps| - 1].round + 1 == round
    && forall s :: s in steps ==> s.PagesSelected? && s.round < round
  }

  lemma RoundTaken(steps: seq<Step>, inspected: set<nat>, evidence: set<nat>, round: nat, document: Document, budget: Budget,
                   next: set<nat>)
    requires Searching(steps, inspected, evidence, round, document, budget) && 2 <= round <= budget.maxRounds
    requires next != {} && NewPages(next, inspected, document, budget)
    ensures Searching(steps + [PagesSelected(next, round, false)], inspected + next, evidence + document.Load(next), round + 1, document, budget)
  {
    var step := PagesSelected(next, round, false);
    SelectionsGrow(steps, step, document, budget);
    assert (steps + [step])[..|steps|] == steps;
    assert document.Load(inspected + next) == document.Load(inspected) + document.Load(next);
  }

  lemma FoundSound(steps: seq<Step>, inspected: set<nat>, evidence: set<nat>, round: nat, document: Document, budget: Budget,
                   roundsCompleted: nat, stop: StopReason)
    requires Searching(steps, inspected, evidence, round, document, budget)
    requires 1 <= roundsCompleted && (roundsCompleted == 1 || roundsCompleted <= budget.maxRounds)
    requires stop == MaxPages ==> |inspected| >= budget.maxPages && roundsCompleted < budget.maxRounds
    requires stop == CoverageComplete ==> |inspected| < budget.maxPages && roundsCompleted >= 2
    requires stop == NoSearchableTree <==> !document.searchable
    requires stop == MaxRounds ==> roundsCompleted >= budget.maxRounds
    ensures SearchSound(Search(steps + [Found(inspected, evidence, roundsCompleted, stop)], roundsCompleted, false), document, budget)
  {
    var found := Found(inspected, evidence, roundsCompleted, stop);
    assert (steps + [found])[..|steps|] == steps;
    assert FoundTrue(steps, found, document, budget);
  }

  lemma RaisedSound(steps: seq<Step>, inspected: set<nat>, evidence: set<nat>, round: nat, document: Document, budget: Budget)
    requires Searching(steps, inspected, evidence, round, document, budget)
    ensures SearchSound(Search(steps, round, true), document, budget)
  {
  }

  ghost predicate NewPages(next: set<nat>, inspected: set<nat>, document: Document, budget: Budget) {
    && next <= document.available && next !! inspected
    && |next| <= budget.pagesPerRound && |inspected + next| <= budget.maxPages
  }

  // What a round selects is new and within the limits.
  ghost predicate KeepsLimits(ask: Ask, document: Document, budget: Budget) {
    forall round, inspected ::
      |inspected| < budget.maxPages && ask(round, inspected).Returned? ==> NewPages(ask(round, inspected).value, inspected, document, budget)
  }

  lemma AskingKeepsLimits(document: Document, budget: Budget, replies: nat -> Assessment)
    requires document.Valid()
    ensures KeepsLimits(Asking(document, budget, replies), document, budget)
  {
    var ask := Asking(document, budget, replies);
    forall round, inspected | |inspected| < budget.maxPages && ask(round, inspected).Returned?
      ensures NewPages(ask(round, inspected).value, inspected, document, budget)
    {
      NextNumbers(document, replies(round), inspected, budget);
    }
  }

  lemma {:induction false} RoundsSound(document: Document, budget: Budget, ask: Ask, steps: seq<Step>, inspected: set<nat>,
                                       evidence: set<nat>, round: nat)
    requires document.searchable && KeepsLimits(ask, document, budget)
    requires 2 <= round && (round == 2 || round <= budget.maxRounds + 1)
    requires Searching(steps, inspected, evidence, round, document, budget)
    ensures SearchSound(Rounds(document, budget, ask, steps, inspected, evidence, round), document, budget)
    decreases budget.maxRounds + 1 - round
  {
    if round > budget.maxRounds {
      FoundSound(steps, inspected, evidence, round, document, budget, round - 1, MaxRounds);
    } else if |inspected| >= budget.maxPages {
      FoundSound(steps, inspected, evidence, round, document, budget, round - 1, MaxPages);
    } else if ask(round, inspected).Raised? {
      RaisedSound(steps, inspected, evidence, round, document, budget);
    } else {
      var next := ask(round, inspected).value;
      assert NewPages(next, inspected, document, budget);
      if next == {} {
        FoundSound(steps, inspected, evidence, round, document, budget, round, CoverageComplete);
      } else {
        RoundTaken(steps, inspected, evidence, round, document, budget, next);
        RoundsSound(document, budget, ask, steps + [PagesSelected(next, round, false)], inspected + next,
                    evidence + document.Load(next), round + 1);
      }
    }
  }

  lemma FirstSelects(document: Document, pages: set<nat>, fallback: bool, budget: Budget)
    requires pages != {} && pages <= document.available && |pages| <= budget.initialPages
    ensures Selections([PagesSelected(pages, 1, fallback)], document, budget)
  {
    var steps := [PagesSelected(pages, 1, fallback)];
    assert steps[..0] == [];
  }

  lemma FallbackSelects(document: Document, first: Step, pages: set<nat>, budget: Budget)
    requires pages != {} && pages <= document.available && |pages| <= budget.initialPages
    requires first.PagesSelected? && first.round == 1 && Selections([first], document, budget)
    requires document.Load(first.pages) == {} && first.pages != pages
    ensures Selections([first, PagesSelected(pages, 1, true)], document, budget)
  {
    var step := PagesSelected(pages, 1, true);
    SelectionsGrow([first], step, document, budget);
    assert [first] + [step] == [first, step];
  }

  lemma FirstRoundSelects(document: Document, chosen: string, budget: Budget)
    ensures Selections(FirstRound(document, chosen, budget), document, budget)
    ensures forall s :: s in FirstRound(document, chosen, budget) ==> s.PagesSelected? && s.round == 1
  {
    var numbers := Pick(chosen, document, budget);
    var fallback := Pick(FallbackText(document), document, budget);
    PickAvailable(chosen, document, budget);
    PickAvailable(FallbackText(document), document, budget);
    var first := if numbers == {} then fallback else numbers;
    if first != {} {
      FirstSelects(document, first, numbers == {}, budget);
      if Replacement(document, first, budget).Some? {
        FallbackSelects(document, PagesSelected(first, 1, numbers == {}), fallback, budget);
      }
    }
  }

  lemma EmptySound(steps: seq<Step>, document: Document, budget: Budget, reason: EmptyReason)
    requires Selections(steps, document, budget)
    ensures SearchSound(Search(steps + [Empty(reason)], 1, false), document, budget)
  {
    assert (steps + [Empty(reason)])[..|steps|] == steps;
  }

  lemma FirstSearching(steps: seq<Step>, document: Document, budget: Budget)
    requires steps != [] && Selections(steps, document, budget) && forall s :: s in steps ==> s.PagesSelected? && s.round == 1
    requires document.Load(steps[|steps| - 1].pages) != {}
    ensures var pages := steps[|steps| - 1].pages; Searching(steps, pages, document.Load(pages), 2, document, budget)
  {
    assert steps[|steps| - 1] in steps;
  }

  // Whatever the replies say: the budgets hold, and the search ends with exactly one terminal step or
  // raises and has none.
  lemma SearchKeepsBudget(document: Document, budget: Budget, first: FirstReply, replies: nat -> Assessment)
    requires document.Valid()
    ensures SearchSound(SearchOf(document, budget, first, replies), document, budget)
  {
    if ChosenText(document, first, budget).Returned? {
      WindowSound(document, budget, ChosenText(document, first, budget).value, replies);
    }
  }

  lemma WindowSound(document: Document, budget: Budget, chosen: string, replies: nat -> Assessment)
    requires document.Valid()
    ensures SearchSound(SearchFrom(document, budget, chosen, replies), document, budget)
  {
    var steps := FirstRound(document, chosen, budget);
    FirstRoundSelects(document, chosen, budget);
    if steps == [] {
      EmptySound([], document, budget, InvalidPageSelection);
      assert [] + [Empty(InvalidPageSelection)] == [Empty(InvalidPageSelection)];
    } else {
      AskingKeepsLimits(document, budget, replies);
      SearchOnSound(document, budget, Asking(document, budget, replies), steps);
    }
  }

  lemma SearchOnSound(document: Document, budget: Budget, ask: Ask, steps: seq<Step>)
    requires KeepsLimits(ask, document, budget)
    requires steps != [] && Selections(steps, document, budget) && forall s :: s in steps ==> s.PagesSelected? && s.round == 1
    ensures SearchSound(SearchOn(document, budget, ask, steps, steps[|steps| - 1].pages), document, budget)
  {
    var pages := steps[|steps| - 1].pages;
    if document.Load(pages) == {} {
      EmptySound(steps, document, budget, EmptyEvidence);
    } else {
      FirstSearching(steps, document, budget);
      if document.searchable {
        RoundsSound(document, budget, ask, steps, pages, document.Load(pages), 2);
      } else {
        FoundSound(steps, pages, document.Load(pages), 2, document, budget, 1, NoSearchableTree);
      }
    }
  }

  lemma PoliciesSensible(fixedPolicy: bool, complexQuery: bool)
    ensures Sensible(TreeSearchBudget(fixedPolicy, complexQuery))
  {
  }

  // ---- Replies that cannot be read -----------------------------------------------------------

  // The selections made when the reply of round `k` was asked for.
  function BeforeRound(steps: seq<Step>, k: nat): seq<Step> {
    if steps == [] then []
    else
      var last := steps[|steps| - 1];
      if last.PagesSelected? && last.round < k then steps else BeforeRound(steps[..|steps| - 1], k)
  }

  lemma {:induction false} BeforeRoundIs(steps: seq<Step>, more: seq<Step>, k: nat)
    requires steps != [] && steps[|steps| - 1].PagesSelected? && steps[|steps| - 1].round < k
    requires forall s :: s in more && s.PagesSelected? ==> s.round >= k
    ensures BeforeRound(steps + more, k) == steps
    decreases |more|
  {
    if more == [] {
      assert steps + more == steps;
    } else {
      var n := |more| - 1;
      assert (steps + more)[..|steps + more| - 1] == steps + more[..n];
      assert more[n] in more;
      BeforeRoundIs(steps, more[..n], k);
    }
  }

  predicate AskRaises(ask: Ask, inspected: set<nat>, k: nat) {
    ask(k, inspected).Raised?
  }

  // The steps that follow are of this round or later.
  ghost predicate Continues(steps: seq<Step>, round: nat, search: Search) {
    && steps <= search.steps && search.asked + 1 >= round
    && forall s :: s in search.steps[|steps|..] && s.PagesSelected? ==> s.round >= round
  }

  lemma ContinuesNext(steps: seq<Step>, step: Step, round: nat, search: Search)
    requires Continues(steps + [step], round + 1, search) && step.PagesSelected? && step.round == round
    ensures Continues(steps, round, search)
  {
    var tail := search.steps[|steps|..];
    assert tail == [step] + search.steps[|steps| + 1..];
  }

  lemma {:induction false} RoundsContinue(document: Document, budget: Budget, ask: Ask, steps: seq<Step>, inspected: set<nat>,
                                          evidence: set<nat>, round: nat)
    requires round > 0
    ensures Continues(steps, round, Rounds(document, budget, ask, steps, inspected, evidence, round))
    decreases budget.maxRounds + 1 - round
  {
    if round <= budget.maxRounds && |inspected| < budget.maxPages && ask(round, inspected).Returned? {
      var next := ask(round, inspected).value;
      if next != {} {
        var step := PagesSelected(next, round, false);
        RoundsContinue(document, budget, ask, steps + [step], inspected + next, evidence + document.Load(next), round + 1);
        ContinuesNext(steps, step, round,
                      Rounds(document, budget, ask, steps + [step], inspected + next, evidence + document.Load(next), round + 1));
      }
    }
  }

  // A round raises when its reply does, after the selections before it.
  ghost predicate RoundRaises(ask: Ask, steps: seq<Step>, k: nat) {
    AskRaises(ask, Inspected(BeforeRound(steps, k)), k)
  }

  lemma RoundRaisesIs(ask: Ask, steps: seq<Step>, inspected: set<nat>, round: nat, search: Search)
    requires Continues(steps, round, search) && inspected == Inspected(steps)
    requires steps != [] && steps[|steps| - 1].PagesSelected? && steps[|steps| - 1].round < round
    ensures RoundRaises(ask, search.steps, round) <==> AskRaises(ask, inspected, round)
  {
    BeforeRoundIs(steps, search.steps[|steps|..], round);
    assert steps + search.steps[|steps|..] == search.steps;
  }

  ghost predicate RaisedFrom(ask: Ask, search: Search, round: nat) {
    exists k :: round <= k <= search.asked && RoundRaises(ask, search.steps, k)
  }

  // The rounds end with this one.
  lemma LastRoundRaises(document: Document, budget: Budget, ask: Ask, steps: seq<Step>, inspected: set<nat>, evidence: set<nat>, round: nat)
    requires 2 <= round && Searching(steps, inspected, evidence, round, document, budget)
    requires round > budget.maxRounds || |inspected| >= budget.maxPages || ask(round, inspected) in {Raised, Returned({})}
    ensures var search := Rounds(document, budget, ask, steps, inspected, evidence, round);
      search.raised <==> RaisedFrom(ask, search, round)
  {
    var search := Rounds(document, budget, ask, steps, inspected, evidence, round);
    RoundsContinue(document, budget, ask, steps, inspected, evidence, round);
    RoundRaisesIs(ask, steps, inspected, round, search);
  }

  lemma RaisedLater(ask: Ask, steps: seq<Step>, inspected: set<nat>, round: nat, search: Search)
    requires Continues(steps, round, search) && inspected == Inspected(steps) && ask(round, inspected).Returned?
    requires steps != [] && steps[|steps| - 1].PagesSelected? && steps[|steps| - 1].round < round
    ensures RaisedFrom(ask, search, round) <==> RaisedFrom(ask, search, round + 1)
  {
    RoundRaisesIs(ask, steps, inspected, round, search);
    if k :| round <= k <= search.asked && RoundRaises(ask, search.steps, k) {
      assert k != round;
    }
  }

  lemma {:induction false} RoundsRaise(document: Document, budget: Budget, ask: Ask, steps: seq<Step>, inspected: set<nat>,
                                       evidence: set<nat>, round: nat)
    requires KeepsLimits(ask, document, budget) && 2 <= round && Searching(steps, inspected, evidence, round, document, budget)
    ensures var search := Rounds(document, budget, ask, steps, inspected, evidence, round);
      search.raised <==> RaisedFrom(ask, search, round)
    decreases budget.maxRounds + 1 - round
  {
    if round > budget.maxRounds || |inspected| >= budget.maxPages || ask(round, inspected) in {Raised, Returned({})} {
      LastRoundRaises(document, budget, ask, steps, inspected, evidence, round);
    } else {
      var next := ask(round, inspected).value;
      var search := Rounds(document, budget, ask, steps, inspected, evidence, round);
      NextSearching(ask, steps, inspected, evidence, round, document, budget, next);
      RoundsRaise(document, budget, ask, steps + [PagesSelected(next, round, false)], inspected + next, evidence + document.Load(next), round + 1);
      RoundsContinue(document, budget, ask, steps, inspected, evidence, round);
      RaisedLater(ask, steps, inspected, round, search);
    }
  }

  lemma NextSearching(ask: Ask, steps: seq<Step>, inspected: set<nat>, evidence: set<nat>, round: nat, document: Document, budget: Budget,
                      next: set<nat>)
    requires KeepsLimits(ask, document, budget) && 2 <= round <= budget.maxRounds && |inspected| < budget.maxPages
    requires Searching(steps, inspected, evidence, round, document, budget) && next != {} && ask(round, inspected) == Returned(next)
    ensures Searching(steps + [PagesSelected(next, round, false)], inspected + next, evidence + document.Load(next), round + 1, document, budget)
  {
    assert NewPages(ask(round, inspected).value, inspected, document, budget);
    RoundTaken(steps, inspected, evidence, round, document, budget, next);
  }

  // The reply of round `k` selects by a text that cannot be read, given what was inspected before.
  ghost predicate Unreadable(document: Document, budget: Budget, first: FirstReply, replies: nat -> Assessment, steps: seq<Step>, k: nat) {
    if k <= 1 then first.Selection? && PayloadRaises(first.payload, document.available, {}, budget.initialPages)
    else
      var inspected := Inspected(BeforeRound(steps, k));
      replies(k).Unresolved? && PayloadRaises(replies(k).payload, document.available, inspected, RoundLimit(inspected, budget))
  }

  lemma UnreadableRaises(document: Document, budget: Budget, first: FirstReply, replies: nat -> Assessment, steps: seq<Step>, k: nat)
    ensures k > 1 ==> (RoundRaises(Asking(document, budget, replies), steps, k) <==> Unreadable(document, budget, first, replies, steps, k))
  {
    var inspected := Inspected(BeforeRound(steps, k));
    if replies(k).Unresolved? { FromPayloadIs(replies(k).payload, document.available, inspected, RoundLimit(inspected, budget)); }
  }

  lemma WindowRaises(document: Document, budget: Budget, chosen: string, first: FirstReply, replies: nat -> Assessment)
    requires document.Valid() && !Unreadable(document, budget, first, replies, [], 1)
    ensures var search := SearchFrom(document, budget, chosen, replies);
      search.raised <==> exists k :: 1 <= k <= search.asked && Unreadable(document, budget, first, replies, search.steps, k)
  {
    var search := SearchFrom(document, budget, chosen, replies);
    var steps, ask := FirstRound(document, chosen, budget), Asking(document, budget, replies);
    forall k ensures k > 1 ==> (RoundRaises(ask, search.steps, k) <==> Unreadable(document, budget, first, replies, search.steps, k)) {
      UnreadableRaises(document, budget, first, replies, search.steps, k);
    }
    FirstRoundSelects(document, chosen, budget);
    if steps != [] && document.searchable {
      var pages := steps[|steps| - 1].pages;
      if document.Load(pages) != {} {
        FirstSearching(steps, document, budget);
        AskingKeepsLimits(document, budget, replies);
        RoundsRaise(document, budget, ask, steps, pages, document.Load(pages), 2);
        assert search.raised <==> RaisedFrom(ask, search, 2);
      }
    }
  }

  // The search has no terminal step if and only if one of the replies it reaches selects by a text that
  // cannot be read; nothing catches that, and the document is given up with what was found in it.
  lemma RaisesExactly(document: Document, budget: Budget, first: FirstReply, replies: nat -> Assessment)
    requires document.Valid()
    ensures var search := SearchOf(document, budget, first, replies);
      search.raised <==> exists k :: 1 <= k <= search.asked && Unreadable(document, budget, first, replies, search.steps, k)
  {
    var search := SearchOf(document, budget, first, replies);
    if first.Selection? { FromPayloadIs(first.payload, document.available, {}, budget.initialPages); }
    if ChosenText(document, first, budget).Returned? {
      WindowRaises(document, budget, ChosenText(document, first, budget).value, first, replies);
    } else {
      assert Unreadable(document, budget, first, replies, search.steps, 1);
    }
  }

  predicate Readable(payload: Payload) {
    payload.pages.Some? ==> Parse(payload.pages.value).Returned?
  }

  // So a search whose replies can all be read is complete.
  lemma ReadableCompletes(document: Document, budget: Budget, first: FirstReply, replies: nat -> Assessment)
    requires document.Valid() && (first.Selection? ==> Readable(first.payload))
    requires forall k :: replies(k).Unresolved? ==> Readable(replies(k).payload)
    ensures var search := SearchOf(document, budget, first, replies);
      !search.raised && Complete(search.steps, document, budget)
  {
    RaisesExactly(document, budget, first, replies);
    SearchKeepsBudget(document, budget, first, replies);
  }

  // ---- What is selected in all ---------------------------------------------------------------

  ghost function AllSelected(steps: seq<Step>): set<nat> {
    if steps == [] then {}
    else
      var last := steps[|steps| - 1];
      AllSelected(steps[..|steps| - 1]) + if last.PagesSelected? then last.pages else {}
  }

  // The first selection, when the fallback has taken its place.
  function Replaced(steps: seq<Step>): set<nat> {
    if |steps| >= 2 && steps[0].PagesSelected? && steps[1].PagesSelected? && steps[1].round == 1 then steps[0].pages else {}
  }

  lemma SelectedNext(before: seq<Step>, step: Step, document: Document, budget: Budget)
    requires Admissible(before, step, document, budget) && (before != [] ==> before[0].PagesSelected?)
    requires AllSelected(before) == Inspected(before) + Replaced(before)
    ensures AllSelected(before + [step]) == Inspected(before + [step]) + Replaced(before + [step])
  {
    var steps := before + [step];
    assert steps[..|steps| - 1] == before;
    if |before| == 1 {
      assert before[..0] == [];
      assert AllSelected(before) == {} + before[0].pages;
    }
  }

  lemma {:induction false} SelectedIs(steps: seq<Step>, document: Document, budget: Budget)
    requires Selections(steps, document, budget)
    ensures AllSelected(steps) == Inspected(steps) + Replaced(steps)
    decreases |steps|
  {
    if steps != [] {
      var n := |steps| - 1;
      SelectionsBefore(steps, n, document, budget);
      SelectedIs(steps[..n], document, budget);
      assert AdmissibleAt(steps, n, document, budget);
      assert AdmissibleAt(steps, 0, document, budget);
      SelectedNext(steps[..n], steps[n], document, budget);
      assert steps[..n] + [steps[n]] == steps;
    }
  }

  // A later round takes no page of any selection before it if and only if it takes none of a first
  // selection that was replaced.
  lemma LaterRoundNew(steps: seq<Step>, i: nat, document: Document, budget: Budget)
    requires Selections(steps, document, budget) && i < |steps| && steps[i].PagesSelected? && steps[i].round > 1
    ensures steps[i].pages !! AllSelected(steps[..i]) <==> steps[i].pages !! Replaced(steps)
  {
    SelectionsBefore(steps, i, document, budget);
    SelectedIs(steps[..i], document, budget);
    assert AdmissibleAt(steps, i, document, budget);
    if i >= 2 { assert steps[..i][0] == steps[0] && steps[..i][1] == steps[1]; }
    if i == 1 { assert |steps[..i]| == 1; }
  }

  // Only a first selection that loads nothing is replaced, and all that is selected exceeds the page
  // budget by no more than it.
  lemma ReplacedIsEmpty(steps: seq<Step>, document: Document, budget: Budget)
    requires Selections(steps, document, budget) && Sensible(budget)
    ensures document.Load(Replaced(steps)) == {} && |Replaced(steps)| <= budget.initialPages
    ensures steps != [] && steps[0].PagesSelected? && document.Load(steps[0].pages) != {} ==> Replaced(steps) == {}
    ensures |AllSelected(steps)| <= budget.maxPages + |Replaced(steps)|
  {
    SelectedIs(steps, document, budget);
    InspectedAvailable(steps, document, budget);
    UnionSize(Inspected(steps), Replaced(steps));
    if Replaced(steps) != {} {
      assert AdmissibleAt(steps, 1, document, budget) && AdmissibleAt(steps, 0, document, budget);
      assert steps[..1] == [steps[0]];
    }
  }

  lemma SelectionFits(steps: seq<Step>, i: nat, document: Document, budget: Budget)
    requires Sensible(budget) && Selections(steps, document, budget) && i < |steps|
    ensures steps[i].PagesSelected? && steps[i].pages != {} && steps[i].pages <= document.available && |steps[i].pages| <= budget.maxPages
  {
    assert AdmissibleAt(steps, i, document, budget);
    if steps[i].round > 1 { SubsetSize(steps[i].pages, Inspected(steps[..i]) + steps[i].pages); }
  }

  lemma WindowHolds(pages: set<nat>, document: Document)
    requires document.Valid() && pages != {} && pages <= document.available && |pages| <= MAX_PAGE_SELECTION_SIZE
    ensures PagesIn(Window(pages)) == pages
  {
    NumbersAmong(pages, document.available);
    WindowRead(pages);
  }

  lemma NumbersAmong(pages: set<nat>, available: set<nat>)
    requires PageNumbers(available) && pages <= available
    ensures PageNumbers(pages)
  {
  }

  lemma WindowRead(pages: set<nat>)
    requires PageNumbers(pages) && pages != {} && |pages| <= MAX_PAGE_SELECTION_SIZE
    ensures PagesIn(Window(pages)) == pages
  {
    WindowRoundTrip(pages);
  }

  // Every selection, and what was inspected in the end, can be read back from its printed window.
  lemma SelectionsReadBack(steps: seq<Step>, i: nat, document: Document, budget: Budget)
    requires document.Valid() && Sensible(budget) && Selections(steps, document, budget) && i < |steps|
    ensures steps[i].PagesSelected? && PagesIn(Window(steps[i].pages)) == steps[i].pages
    ensures PagesIn(Window(Inspected(steps))) == Inspected(steps)
  {
    SelectionFits(steps, i, document, budget);
    InspectedAvailable(steps, document, budget);
    WindowHolds(Inspected(steps), document);
    WindowHolds(steps[i].pages, document);
  }

  // ---- Two searches ------------------------------------------------------------------------

  // The fallback of a document without matching pages is its first two pages.
  lemma DefaultPages(document: Document, budget: Budget, n: nat, fallback: set<nat>)
    requires document.available == PagesFrom(1, n) && document.anchors == {} && 2 <= n <= MAX_PAGE_RANGE_SIZE && budget.initialPages >= 2
    requires fallback == PagesFrom(1, 2)
    ensures Pick(FallbackText(document), document, budget) == fallback
  {
    var numbers := SortedPages(document.available);
    ListingSize(numbers, document.available);
    PagesCount(1, n);
    assert 1 in numbers && 2 in numbers;
    LeastTwo(numbers, document.available);
    OneRunReads(Run(1, 2));
    assert FallbackText(document) == PrintRun(Run(1, 2));
    PagesCount(1, 2);
    assert Eligible(FallbackText(document), document.available, {}) == fallback;
    FirstPagesAre(fallback, budget.initialPages);
  }

  lemma LeastTwo(numbers: seq<nat>, pages: set<nat>)
    requires Lists(numbers, pages) && |numbers| >= 2 && 1 in pages && 2 in pages && 0 !in pages
    ensures numbers[0] == 1 && numbers[1] == 2
  {
    var i :| 0 <= i < |numbers| && numbers[i] == 1;
    var j :| 0 <= j < |numbers| && numbers[j] == 2;
    assert numbers[0] in pages;
    assert i == 0;
    assert numbers[0] < numbers[1] <= numbers[j];
  }

  lemma OneNode(document: Document, page: nat, exclude: set<nat>, limit: int)
    requires page in document.available && page !in exclude && limit >= 1
    ensures FromPayload(Payload({page}, None), document.available, exclude, limit) == Returned({page})
  {
    assert {page} * document.available - exclude == {page};
    FirstPagesAre({page}, limit);
  }

  // A document whose first two pages are the fallback, and another page without an excerpt.
  ghost predicate Unlucky(document: Document, budget: Budget, page: nat, fallback: set<nat>) {
    && document.Valid() && Sensible(budget) && document.searchable && document.anchors == {} && document.overview == {}
    && page in document.available && page !in document.excerpts && page !in fallback && budget.initialPages >= 1
    && Pick(FallbackText(document), document, budget) == fallback && document.Load(fallback) != {}
    && budget.maxRounds >= 2 && |fallback| < budget.maxPages && budget.pagesPerRound >= 1
  }

  lemma OnePicked(document: Document, budget: Budget, page: nat)
    requires document.Valid() && Sensible(budget) && document.anchors == {} && document.overview == {}
    requires page in document.available && budget.initialPages >= 1
    ensures ChosenText(document, Selection(Payload({page}, None)), budget) == Returned(Window({page}))
    ensures Pick(Window({page}), document, budget) == {page}
  {
    OneNode(document, page, {}, budget.initialPages);
    assert Listed(document, {page}) == {page} && Anchored(document, {page}, budget.initialPages) == {page};
    ReadsBack({page}, document.available, {}, budget.initialPages);
  }

  lemma FirstReplaced(document: Document, budget: Budget, page: nat, fallback: set<nat>)
    requires Unlucky(document, budget, page, fallback) && Pick(Window({page}), document, budget) == {page}
    ensures FirstRound(document, Window({page}), budget) == [PagesSelected({page}, 1, false), PagesSelected(fallback, 1, true)]
  {
    assert document.Load({page}) == {};
  }

  // Whenever the first selection loads nothing and the fallback takes its place, the next reply can select
  // the same page again.
  lemma ReplacedReturns(document: Document, budget: Budget, page: nat, fallback: set<nat>, replies: nat -> Assessment)
    requires Unlucky(document, budget, page, fallback) && replies(2) == Unresolved(Payload({page}, None))
    ensures [PagesSelected({page}, 1, false), PagesSelected(fallback, 1, true), PagesSelected({page}, 2, false)]
         <= SearchOf(document, budget, Selection(Payload({page}, None)), replies).steps
  {
    OnePicked(document, budget, page);
    FirstReplaced(document, budget, page, fallback);
    SelectedAgain(document, budget, Selection(Payload({page}, None)), Window({page}), page, fallback, replies);
  }

  lemma SelectedAgain(document: Document, budget: Budget, reply: FirstReply, chosen: string, page: nat, fallback: set<nat>,
                      replies: nat -> Assessment)
    requires Unlucky(document, budget, page, fallback) && replies(2) == Unresolved(Payload({page}, None))
    requires ChosenText(document, reply, budget) == Returned(chosen)
    requires FirstRound(document, chosen, budget) == [PagesSelected({page}, 1, false), PagesSelected(fallback, 1, true)]
    ensures [PagesSelected({page}, 1, false), PagesSelected(fallback, 1, true), PagesSelected({page}, 2, false)]
         <= SearchOf(document, budget, reply, replies).steps
  {
    var a, b, c := PagesSelected({page}, 1, false), PagesSelected(fallback, 1, true), PagesSelected({page}, 2, false);
    SearchGoesOn(document, budget, reply, chosen, [a, b], replies);
    SecondRound(document, budget, Asking(document, budget, replies), [a, b], page, fallback, replies);
    OneMoreStep(a, b, c);
  }

  lemma OneMoreStep(a: Step, b: Step, c: Step)
    ensures [a, b] + [c] == [a, b, c]
  {
  }

  lemma SearchGoesOn(document: Document, budget: Budget, reply: FirstReply, chosen: string, steps: seq<Step>, replies: nat -> Assessment)
    requires ChosenText(document, reply, budget) == Returned(chosen) && FirstRound(document, chosen, budget) == steps
    requires steps != [] && steps[|steps| - 1].PagesSelected? && document.searchable
    ensures var pages := steps[|steps| - 1].pages;
      document.Load(pages) != {} ==>
        SearchOf(document, budget, reply, replies)
          == Rounds(document, budget, Asking(document, budget, replies), steps, pages, document.Load(pages), 2)
  {
  }

  lemma SecondRound(document: Document, budget: Budget, ask: Ask, steps: seq<Step>, page: nat, fallback: set<nat>,
                    replies: nat -> Assessment)
    requires Unlucky(document, budget, page, fallback) && replies(2) == Unresolved(Payload({page}, None))
    requires ask == Asking(document, budget, replies)
    ensures steps + [PagesSelected({page}, 2, false)] <= Rounds(document, budget, ask, steps, fallback, document.Load(fallback), 2).steps
  {
    OneNode(document, page, fallback, RoundLimit(fallback, budget));
    assert ask(2, fallback) == NextPages(document, replies(2), fallback, budget) == Returned({page});
    var step := PagesSelected({page}, 2, false);
    RoundsContinue(document, budget, ask, steps + [step], fallback + {page}, document.Load(fallback) + document.Load({page}), 3);
  }

  // So it is in any document of three pages or more with an excerpt of the first one only.
  lemma SelectedTwice(n: nat) returns (document: Document, search: Search)
    requires 3 <= n <= MAX_PAGE_RANGE_SIZE
    ensures document == Document(PagesFrom(1, n), true, {1}, {}, {})
    ensures search == SearchOf(document, TreeSearchBudget(true, false), Selection(Payload({n}, None)), k => Unresolved(Payload({n}, None)))
    ensures [PagesSelected({n}, 1, false), PagesSelected(PagesFrom(1, 2), 1, true), PagesSelected({n}, 2, false)] <= search.steps
  {
    document := Document(PagesFrom(1, n), true, {1}, {}, {});
    var budget, replies := TreeSearchBudget(true, false), k => Unresolved(Payload({n}, None));
    var fallback := PagesFrom(1, 2);
    search := SearchOf(document, budget, Selection(Payload({n}, None)), replies);
    SmallNumbers(n);
    DefaultPages(document, budget, n, fallback);
    PagesCount(1, 2);
    assert 1 in document.Load(fallback);
    ReplacedReturns(document, budget, n, fallback, replies);
  }

  lemma SmallNumbers(n: nat)
    requires n <= MAX_PAGE_RANGE_SIZE
    ensures PageNumbers(PagesFrom(1, n))
  {
    FourDigits();
    PrintableRange(1, MAX_PAGE_RANGE_SIZE);
  }

  lemma FourDigits()
    ensures |Decimal(MAX_PAGE_RANGE_SIZE)| == 4
  {
    assert |Decimal(1)| == 1 && |Decimal(10)| == 2 && |Decimal(100)| == 3;
  }

  lemma UnreadableText(available: set<nat>, exclude: set<nat>, limit: int, text: string)
    requires limit > 0 && Parse(text).Raised?
    ensures FromPayload(Payload({}, Some(text)), available, exclude, limit) == Raised
  {
    assert {} * available - exclude == {};
  }

  lemma FallbackOnly(document: Document, budget: Budget, fallback: set<nat>)
    requires Pick(FallbackText(document), document, budget) == fallback != {}
    ensures FirstRound(document, FallbackText(document), budget) == [PagesSelected(fallback, 1, false)]
  {
  }

  // A second reply that cannot be read ends the search without a terminal step, though its first round has
  // found evidence.
  lemma SecondUnreadable(document: Document, budget: Budget, fallback: set<nat>, text: string, replies: nat -> Assessment)
    requires document.Valid() && Sensible(budget) && document.searchable && budget.maxRounds >= 2 && budget.pagesPerRound >= 1
    requires Pick(FallbackText(document), document, budget) == fallback && document.Load(fallback) != {} && |fallback| < budget.maxPages
    requires replies(2) == Unresolved(Payload({}, Some(text))) && Parse(text).Raised?
    ensures SearchOf(document, budget, NoSelection, replies) == Search([PagesSelected(fallback, 1, false)], 2, true)
  {
    var ask := Asking(document, budget, replies);
    UnreadableText(document.available, fallback, RoundLimit(fallback, budget), text);
    assert ask(2, fallback) == NextPages(document, replies(2), fallback, budget) == Raised;
    FallbackOnly(document, budget, fallback);
  }

  // Such a reply: one superscript two.
  lemma SuperscriptEndsSearch(n: nat) returns (document: Document, search: Search)
    requires 2 <= n <= MAX_PAGE_RANGE_SIZE
    ensures document == Document(PagesFrom(1, n), true, {1}, {}, {})
    ensures search == SearchOf(document, TreeSearchBudget(true, false), NoSelection, k => Unresolved(Payload({}, Some("\U{b2}"))))
    ensures search == Search([PagesSelected(PagesFrom(1, 2), 1, false)], 2, true) && 1 in document.Load(PagesFrom(1, 2))
  {
    document := Document(PagesFrom(1, n), true, {1}, {}, {});
    var budget, replies := TreeSearchBudget(true, false), k => Unresolved(Payload({}, Some("\U{b2}")));
    var fallback := PagesFrom(1, 2);
    search := SearchOf(document, budget, NoSelection, replies);
    SmallNumbers(n);
    DefaultPages(document, budget, n, fallback);
    PagesCount(1, 2);
    assert 1 in document.Load(fallback);
    DigitsBeyondAscii();
    SecondUnreadable(document, budget, fallback, "\U{b2}", replies);
  }
}
