/**
 What the replies have to do with the search: every selection is what its reply asked for, the first
 one widened by the pages that match the query, and the reason for stopping is the one that stopped it
 (services/retrieval_api/query_engine.py).
 */
module SearchReplies {

  import opened Outcome
  import opened Text
  import opened PageWindow
  import opened TreeSearch

  // As many of the pages as the limit allows, and no page that is left out comes before one of them.
  ghost predicate LeastOf(chosen: set<nat>, pages: set<nat>, limit: int) {
    && chosen <= pages
    && |chosen| == (if limit <= 0 then 0 else if |pages| < limit then |pages| else limit)
    && Precede(chosen, pages - chosen)
  }

  ghost predicate Precede(chosen: set<nat>, others: set<nat>) {
    forall p, q :: p in chosen && q in others ==> p < q
  }

  lemma FirstPagesAreLeast(pages: set<nat>, limit: int)
    ensures LeastOf(FirstPages(pages, limit), pages, limit)
  {
    FirstOfIs(pages, limit);
    FirstPagesAre(pages, limit);
  }

  // Rounds, pages, pages a round and pages in the first selection, under each policy.
  lemma Budgets()
    ensures forall complex :: TreeSearchBudget(true, complex) == Budget(3, 16, 8, 8)
    ensures TreeSearchBudget(false, true) == Budget(5, 40, 8, 8) && TreeSearchBudget(false, false) == Budget(4, 24, 8, 8)
  {
  }

  // ---- One reply ---------------------------------------------------------------------------

  // A reply that names tree nodes selects the least of their pages that are available and new; only one
  // that names none selects by its text.
  lemma PayloadSelects(payload: Payload, available: set<nat>, exclude: set<nat>, limit: int)
    requires FromPayload(payload, available, exclude, limit).Returned?
    ensures var chosen, named := FromPayload(payload, available, exclude, limit).value, payload.nodes * available - exclude;
      && (limit > 0 && named != {} ==> LeastOf(chosen, named, limit))
      && (limit > 0 && named == {} && payload.pages.Some? ==>
            Parse(payload.pages.value).Returned? && LeastOf(chosen, PagesIn(payload.pages.value) * available - exclude, limit))
      && (limit <= 0 || (named == {} && payload.pages.None?) ==> chosen == {})
  {
    FirstPagesAreLeast(payload.nodes * available - exclude, limit);
    if payload.pages.Some? { FirstPagesAreLeast(PagesIn(payload.pages.value) * available - exclude, limit); }
  }

  // ---- Later rounds ------------------------------------------------------------------------

  // What the reply of a round asks for, after what has been inspected: as many of its pages as the round
  // and the page budget allow, and none when the evidence is enough or the reply cannot be used.
  ghost predicate AsksFor(assessment: Assessment, document: Document, inspected: set<nat>, budget: Budget, pages: set<nat>) {
    var limit := if budget.pagesPerRound < budget.maxPages - |inspected| then budget.pagesPerRound else budget.maxPages - |inspected|;
    match assessment
    case Unusable => pages == {}
    case Sufficient => pages == {}
    case Unresolved(payload) =>
      var named := payload.nodes * document.available - inspected;
      if named != {} then LeastOf(pages, named, limit)
      else if payload.pages.None? then pages == {}
      else LeastOf(pages, PagesIn(payload.pages.value) * document.available - inspected, limit)
  }

  lemma AskedFor(document: Document, budget: Budget, assessment: Assessment, inspected: set<nat>)
    requires |inspected| < budget.maxPages && NextPages(document, assessment, inspected, budget).Returned?
    ensures AsksFor(assessment, document, inspected, budget, NextPages(document, assessment, inspected, budget).value)
  {
    if assessment.Unresolved? {
      PayloadSelects(assessment.payload, document.available, inspected, RoundLimit(inspected, budget));
      var named := assessment.payload.nodes * document.available - inspected;
      var limit := RoundLimit(inspected, budget);
      if limit <= 0 && named != {} { FirstPagesAreLeast(named, limit); }
      if limit <= 0 && assessment.payload.pages.Some? {
        FirstPagesAreLeast(PagesIn(assessment.payload.pages.value) * document.available - inspected, limit);
      }
    }
  }

  // Step `i` is what the reply of its round asked for, and the rounds are counted one by one.
  ghost predicate FollowsAt(steps: seq<Step>, i: int, document: Document, budget: Budget, replies: nat -> Assessment)
    requires 0 <= i < |steps|
  {
    match steps[i]
    case PagesSelected(pages, round, _) =>
      round > 1 ==>
        && i > 0 && steps[i - 1].PagesSelected? && steps[i - 1].round == round - 1
        && AsksFor(replies(round), document, Inspected(steps[..i]), budget, pages)
    case Found(_, _, roundsCompleted, stop) =>
      && i > 0 && steps[i - 1].PagesSelected?
      && (stop == CoverageComplete ==>
            steps[i - 1].round == roundsCompleted - 1 && AsksFor(replies(roundsCompleted), document, Inspected(steps[..i]), budget, {}))
      && (stop != CoverageComplete ==> steps[i - 1].round == roundsCompleted)
    case Empty(_) => true
  }

  ghost predicate Follows(steps: seq<Step>, document: Document, budget: Budget, replies: nat -> Assessment) {
    forall i :: 0 <= i < |steps| ==> FollowsAt(steps, i, document, budget, replies)
  }

  lemma FollowsGrow(steps: seq<Step>, step: Step, document: Document, budget: Budget, replies: nat -> Assessment)
    requires Follows(steps, document, budget, replies) && FollowsAt(steps + [step], |steps|, document, budget, replies)
    ensures Follows(steps + [step], document, budget, replies)
  {
    var more := steps + [step];
    forall i | 0 <= i < |more| ensures FollowsAt(more, i, document, budget, replies) {
      if i < |steps| {
        assert FollowsAt(steps, i, document, budget, replies);
        assert more[..i] == steps[..i];
      }
    }
  }

  // Where the rounds stand.
  ghost predicate Standing(steps: seq<Step>, inspected: set<nat>, round: nat, document: Document, budget: Budget, replies: nat -> Assessment) {
    && Follows(steps, document, budget, replies) && steps != [] && inspected == Inspected(steps)
    && steps[|steps| - 1].PagesSelected? && steps[|steps| - 1].round + 1 == round
  }

  lemma StoppedFollows(steps: seq<Step>, inspected: set<nat>, evidence: set<nat>, round: nat, document: Document, budget: Budget,
                       replies: nat -> Assessment, stop: StopReason)
    requires Standing(steps, inspected, round, document, budget, replies) && round > 1
    requires stop == CoverageComplete ==> AsksFor(replies(round), document, inspected, budget, {})
    ensures Follows(steps + [Found(inspected, evidence, if stop == CoverageComplete then round else round - 1, stop)], document, budget, replies)
  {
    var step := Found(inspected, evidence, if stop == CoverageComplete then round else round - 1, stop);
    assert (steps + [step])[..|steps|] == steps;
    FollowsGrow(steps, step, document, budget, replies);
  }

  lemma RoundFollows(steps: seq<Step>, inspected: set<nat>, round: nat, document: Document, budget: Budget, replies: nat -> Assessment,
                     next: set<nat>)
    requires Standing(steps, inspected, round, document, budget, replies) && round > 1
    requires AsksFor(replies(round), document, inspected, budget, next)
    ensures Standing(steps + [PagesSelected(next, round, false)], inspected + next, round + 1, document, budget, replies)
  {
    var step := PagesSelected(next, round, false);
    assert (steps + [step])[..|steps|] == steps;
    FollowsGrow(steps, step, document, budget, replies);
  }

  lemma {:induction false} RoundsFollow(document: Document, budget: Budget, replies: nat -> Assessment, ask: Ask, steps: seq<Step>,
                                        inspected: set<nat>, evidence: set<nat>, round: nat)
    requires round > 1 && Standing(steps, inspected, round, document, budget, replies) && ask == Asking(document, budget, replies)
    ensures Follows(Rounds(document, budget, ask, steps, inspected, evidence, round).steps, document, budget, replies)
    decreases budget.maxRounds + 1 - round
  {
    if round > budget.maxRounds {
      StoppedFollows(steps, inspected, evidence, round, document, budget, replies, MaxRounds);
    } else if |inspected| >= budget.maxPages {
      StoppedFollows(steps, inspected, evidence, round, document, budget, replies, MaxPages);
    } else if ask(round, inspected).Returned? {
      AskedFor(document, budget, replies(round), inspected);
      var next := ask(round, inspected).value;
      if next == {} {
        StoppedFollows(steps, inspected, evidence, round, document, budget, replies, CoverageComplete);
      } else {
        RoundFollows(steps, inspected, round, document, budget, replies, next);
        RoundsFollow(document, budget, replies, ask, steps + [PagesSelected(next, round, false)], inspected + next,
                     evidence + document.Load(next), round + 1);
      }
    }
  }

  lemma FirstFollows(document: Document, budget: Budget, chosen: string, replies: nat -> Assessment)
    ensures Follows(FirstRound(document, chosen, budget), document, budget, replies)
    ensures forall s :: s in FirstRound(document, chosen, budget) ==> s.PagesSelected? && s.round == 1
  {
    FirstRoundSelects(document, chosen, budget);
    var steps := FirstRound(document, chosen, budget);
    forall i | 0 <= i < |steps| ensures FollowsAt(steps, i, document, budget, replies) {
      assert steps[i] in steps;
    }
  }

  // Every later selection is what its reply asked for, round after round, and coverage is called complete
  // only by a reply that asks for nothing more.
  lemma SearchFollows(document: Document, budget: Budget, first: FirstReply, replies: nat -> Assessment)
    requires document.Valid()
    ensures Follows(SearchOf(document, budget, first, replies).steps, document, budget, replies)
  {
    if ChosenText(document, first, budget).Returned? {
      var steps := FirstRound(document, ChosenText(document, first, budget).value, budget);
      FirstFollows(document, budget, ChosenText(document, first, budget).value, replies);
      if steps != [] { SearchOnFollows(document, budget, replies, Asking(document, budget, replies), steps); }
    }
  }

  lemma SearchOnFollows(document: Document, budget: Budget, replies: nat -> Assessment, ask: Ask, steps: seq<Step>)
    requires ask == Asking(document, budget, replies)
    requires steps != [] && Follows(steps, document, budget, replies) && forall s :: s in steps ==> s.PagesSelected? && s.round == 1
    ensures Follows(SearchOn(document, budget, ask, steps, steps[|steps| - 1].pages).steps, document, budget, replies)
  {
    var last := steps[|steps| - 1];
    assert last in steps;
    if document.Load(last.pages) == {} {
      FollowsGrow(steps, Empty(EmptyEvidence), document, budget, replies);
    } else if !document.searchable {
      StoppedFollows(steps, last.pages, document.Load(last.pages), 2, document, budget, replies, NoSearchableTree);
    } else {
      RoundsFollow(document, budget, replies, ask, steps, last.pages, document.Load(last.pages), 2);
    }
  }

  // ---- The first window --------------------------------------------------------------------

  lemma {:induction false} FilledIs(base: set<nat>, numbers: seq<nat>, candidates: set<nat>, limit: nat)
    requires Lists(numbers, candidates)
    ensures base <= Filled(base, numbers, limit) && LeastOf(Filled(base, numbers, limit) - base, candidates - base, limit - |base|)
    decreases |numbers|
  {
    if |base| < limit && numbers != [] {
      var m := numbers[0];
      assert m in candidates;
      TailLists(numbers, candidates);
      FilledIs(base + {m}, numbers[1..], candidates - {m}, limit);
      LeastPrepended(base, numbers, candidates, limit, Filled(base, numbers, limit));
    } else if |base| < limit {
      assert candidates == {};
    }
  }

  lemma LeastPrepended(base: set<nat>, numbers: seq<nat>, candidates: set<nat>, limit: nat, filled: set<nat>)
    requires Lists(numbers, candidates) && numbers != [] && |base| < limit
    requires var wider := base + {numbers[0]};
      wider <= filled && LeastOf(filled - wider, candidates - {numbers[0]} - wider, limit - |wider|)
    ensures LeastOf(filled - base, candidates - base, limit - |base|)
  {
    var m, wider := numbers[0], base + {numbers[0]};
    assert m in candidates;
    forall p | p in candidates ensures m <= p { assert p in numbers; }
    assert candidates - {m} - wider == candidates - base - {m};
    if m in base {
      assert wider == base;
      assert candidates - base - {m} == candidates - base;
    } else {
      assert filled - wider == filled - base - {m};
      assert limit - |wider| == limit - |base| - 1;
      LeastWith(m, filled - base, candidates - base, limit - |base|);
    }
  }

  lemma LeastWith(m: nat, chosen: set<nat>, pages: set<nat>, limit: int)
    requires m in chosen && m in pages && limit >= 1 && (forall p :: p in pages ==> m <= p)
    requires LeastOf(chosen - {m}, pages - {m}, limit - 1)
    ensures LeastOf(chosen, pages, limit)
  {
    assert chosen == (chosen - {m}) + {m};
    assert pages - {m} - (chosen - {m}) == pages - chosen;
  }

  lemma FilledUpIs(base: set<nat>, candidates: set<nat>, limit: nat)
    ensures base <= FilledUp(base, candidates, limit) && LeastOf(FilledUp(base, candidates, limit) - base, candidates - base, limit - |base|)
  {
    FilledIs(base, SortedPages(candidates), candidates, limit);
  }

  // `wanted` is kept whole, and as many of the least other pages as the limit leaves room for.
  ghost predicate Widened(wanted: set<nat>, others: set<nat>, limit: nat, pages: set<nat>) {
    wanted <= pages && LeastOf(pages - wanted, others - wanted, limit - |wanted|)
  }

  lemma AllFit(wanted: set<nat>, others: set<nat>, limit: nat)
    requires |others + wanted| <= limit
    ensures Widened(wanted, others, limit, others + wanted)
  {
    assert others + wanted - wanted == others - wanted;
    assert others + wanted == wanted + (others - wanted);
    assert others - wanted - (others - wanted) == {};
  }

  lemma FilledFits(wanted: set<nat>, others: set<nat>, candidates: set<nat>, limit: nat)
    requires candidates - wanted == others - wanted
    ensures Widened(wanted, others, limit, FilledUp(wanted, candidates, limit))
  {
    FilledUpIs(wanted, candidates, limit);
  }

  // Overview pages are kept whole among the selected ones, and pages that match the query among both.
  lemma ListedIs(document: Document, selected: set<nat>)
    ensures document.overview != {} ==>
      Widened(document.overview, selected, MAX_TREE_SEARCH_PAGES_PER_ROUND, Listed(document, selected))
    ensures document.overview == {} ==> Listed(document, selected) == selected
  {
    if |selected + document.overview| <= MAX_TREE_SEARCH_PAGES_PER_ROUND {
      AllFit(document.overview, selected, MAX_TREE_SEARCH_PAGES_PER_ROUND);
    } else {
      FilledFits(document.overview, selected, selected, MAX_TREE_SEARCH_PAGES_PER_ROUND);
    }
  }

  lemma AnchoredIs(document: Document, listed: set<nat>, initialPages: nat)
    ensures document.anchors != {} ==> Widened(document.anchors, listed, initialPages, Anchored(document, listed, initialPages))
    ensures document.anchors == {} ==> Anchored(document, listed, initialPages) == listed
  {
    if |listed + document.anchors| <= initialPages {
      AllFit(document.anchors, listed, initialPages);
    } else {
      FilledFits(document.anchors, listed, listed + document.anchors, initialPages);
    }
  }

  lemma WidenedFits(wanted: set<nat>, others: set<nat>, limit: nat, pages: set<nat>)
    requires Widened(wanted, others, limit, pages) && |wanted| <= limit
    ensures |pages| <= limit && wanted <= pages <= wanted + others
    ensures |wanted + others| <= limit ==> pages == wanted + others
  {
    assert pages == wanted + (pages - wanted);
    if |wanted + others| <= limit {
      assert wanted + others == wanted + (others - wanted);
      SubsetSize((others - wanted) - (pages - wanted), others - wanted);
      assert |(others - wanted) - (pages - wanted)| == |others - wanted| - |pages - wanted|;
    }
  }

  // What the first reply selects by itself.
  ghost predicate SelectsPages(document: Document, reply: FirstReply, budget: Budget, selected: set<nat>) {
    reply.Selection? && FromPayload(reply.payload, document.available, {}, budget.initialPages) == Returned(selected) && selected != {}
  }

  // The pages that match the query are in the first selection, whatever the reply, if they fit in it.
  lemma MatchingPagesFirst(document: Document, budget: Budget, reply: FirstReply, replies: nat -> Assessment)
    requires document.Valid() && Sensible(budget) && document.anchors != {} && |document.anchors| <= budget.initialPages
    requires ChosenText(document, reply, budget).Returned?
    ensures var steps := SearchOf(document, budget, reply, replies).steps;
      steps != [] && steps[0].PagesSelected? && document.anchors <= steps[0].pages
  {
    var chosen := ChosenText(document, reply, budget).value;
    AnchorsChosen(document, budget, reply);
    SearchStarts(document, budget, chosen, replies);
  }

  lemma AnchorsChosen(document: Document, budget: Budget, reply: FirstReply)
    requires document.Valid() && Sensible(budget) && document.anchors != {} && |document.anchors| <= budget.initialPages
    requires ChosenText(document, reply, budget).Returned?
    ensures document.anchors <= Pick(ChosenText(document, reply, budget).value, document, budget)
  {
    var selected := if reply.Selection? then FromPayload(reply.payload, document.available, {}, budget.initialPages).value else {};
    if selected == {} {
      ReadsBack(document.anchors, document.available, {}, budget.initialPages);
    } else {
      FromPayloadIs(reply.payload, document.available, {}, budget.initialPages);
      WidenedAvailable(document, selected, budget.initialPages);
      AnchoredIs(document, Listed(document, selected), budget.initialPages);
      var pages := Anchored(document, Listed(document, selected), budget.initialPages);
      WidenedFits(document.anchors, Listed(document, selected), budget.initialPages, pages);
      ReadsBack(pages, document.available, {}, budget.initialPages);
    }
  }

  lemma StepsStay(document: Document, budget: Budget, ask: Ask, steps: seq<Step>, inspected: set<nat>)
    ensures steps <= SearchOn(document, budget, ask, steps, inspected).steps
  {
    if document.Load(inspected) != {} && document.searchable {
      RoundsContinue(document, budget, ask, steps, inspected, document.Load(inspected), 2);
    }
  }

  lemma FirstIsPicked(document: Document, budget: Budget, chosen: string)
    requires Pick(chosen, document, budget) != {}
    ensures var first := FirstRound(document, chosen, budget);
      first != [] && first[0] == PagesSelected(Pick(chosen, document, budget), 1, false)
  {
  }

  lemma SearchStarts(document: Document, budget: Budget, chosen: string, replies: nat -> Assessment)
    requires Pick(chosen, document, budget) != {}
    ensures var steps := SearchFrom(document, budget, chosen, replies).steps;
      steps != [] && steps[0] == PagesSelected(Pick(chosen, document, budget), 1, false)
  {
    var first := FirstRound(document, chosen, budget);
    FirstIsPicked(document, budget, chosen);
    StepsStay(document, budget, Asking(document, budget, replies), first, first[|first| - 1].pages);
  }

  lemma NamedPagesChosen(document: Document, budget: Budget, reply: FirstReply, selected: set<nat>)
    requires document.Valid() && Sensible(budget) && SelectsPages(document, reply, budget, selected)
    requires |selected + document.overview| <= MAX_TREE_SEARCH_PAGES_PER_ROUND || document.overview == {}
    requires |selected + document.overview + document.anchors| <= budget.initialPages
    ensures ChosenText(document, reply, budget) == Returned(Window(selected + document.overview + document.anchors))
  {
    var listed := selected + document.overview;
    assert document.overview == {} ==> listed == selected;
    assert Listed(document, selected) == listed;
    assert document.anchors == {} ==> listed + document.anchors == listed;
    assert Anchored(document, listed, budget.initialPages) == listed + document.anchors;
  }

  // What a reply names is selected together with overview and matching pages, if all of them fit.
  lemma NamedPagesFirst(document: Document, budget: Budget, reply: FirstReply, replies: nat -> Assessment, selected: set<nat>)
    requires document.Valid() && Sensible(budget) && SelectsPages(document, reply, budget, selected)
    requires |selected + document.overview| <= MAX_TREE_SEARCH_PAGES_PER_ROUND || document.overview == {}
    requires |selected + document.overview + document.anchors| <= budget.initialPages
    ensures var steps := SearchOf(document, budget, reply, replies).steps;
      steps != [] && steps[0] == PagesSelected(selected + document.overview + document.anchors, 1, false)
  {
    var pages := selected + document.overview + document.anchors;
    FromPayloadIs(reply.payload, document.available, {}, budget.initialPages);
    NamedPagesChosen(document, budget, reply, selected);
    ReadsBack(pages, document.available, {}, budget.initialPages);
    SearchStarts(document, budget, Window(pages), replies);
  }

  // ---- Evidence in the first round -----------------------------------------------------------

  lemma FirstStepsLoad(document: Document, picked: set<nat>, fallback: set<nat>)
    ensures var first := FirstSteps(document, picked, fallback);
      && (first == [] <==> picked + fallback == {})
      && (first != [] ==> first[|first| - 1].PagesSelected? && (document.Load(first[|first| - 1].pages) == {} <==> document.Load(picked + fallback) == {}))
  {
    assert document.Load(picked + fallback) == document.Load(picked) + document.Load(fallback);
  }

  // The search ends empty if and only if neither what was chosen nor the fallback has an excerpt, and
  // without any selection if and only if neither has an available page.
  lemma EmptyExactly(document: Document, budget: Budget, reply: FirstReply, replies: nat -> Assessment, picked: set<nat>, fallback: set<nat>)
    requires ChosenText(document, reply, budget).Returned?
    requires picked == Pick(ChosenText(document, reply, budget).value, document, budget)
    requires fallback == Pick(FallbackText(document), document, budget)
    ensures EndsEmptyOn(SearchOf(document, budget, reply, replies), document, picked + fallback)
  {
    FirstStepsLoad(document, picked, fallback);
    EmptyAfter(document, budget, FirstSteps(document, picked, fallback), picked, fallback, replies);
  }

  ghost predicate EndsEmptyOn(search: Search, document: Document, pages: set<nat>) {
    && search.steps != []
    && (search.steps[|search.steps| - 1].Empty? <==> document.Load(pages) == {})
    && (search.steps == [Empty(InvalidPageSelection)] <==> pages == {})
  }

  lemma EmptyAfter(document: Document, budget: Budget, first: seq<Step>, picked: set<nat>, fallback: set<nat>, replies: nat -> Assessment)
    requires first == FirstSteps(document, picked, fallback) && (first != [] ==> first[|first| - 1].PagesSelected?)
    ensures EndsEmptyOn(SearchAfter(document, budget, first, replies), document, picked + fallback)
  {
    FirstStepsLoad(document, picked, fallback);
    if first != [] {
      EndsEmpty(document, budget, Asking(document, budget, replies), first, first[|first| - 1].pages);
      StepsStay(document, budget, Asking(document, budget, replies), first, first[|first| - 1].pages);
    }
  }

  lemma {:induction false} RoundsNotEmpty(document: Document, budget: Budget, ask: Ask, steps: seq<Step>, inspected: set<nat>,
                                          evidence: set<nat>, round: nat)
    requires round > 0 && steps != [] && !steps[|steps| - 1].Empty?
    ensures var all := Rounds(document, budget, ask, steps, inspected, evidence, round).steps; all != [] && !all[|all| - 1].Empty?
    decreases budget.maxRounds + 1 - round
  {
    if round <= budget.maxRounds && |inspected| < budget.maxPages && ask(round, inspected).Returned? {
      var next := ask(round, inspected).value;
      if next != {} {
        RoundsNotEmpty(document, budget, ask, steps + [PagesSelected(next, round, false)], inspected + next,
                       evidence + document.Load(next), round + 1);
      }
    }
  }

  lemma EndsEmpty(document: Document, budget: Budget, ask: Ask, steps: seq<Step>, inspected: set<nat>)
    requires steps != [] && steps[|steps| - 1].PagesSelected?
    ensures var all := SearchOn(document, budget, ask, steps, inspected).steps;
      all != [] && (all[|all| - 1].Empty? <==> document.Load(inspected) == {})
  {
    if document.Load(inspected) != {} && document.searchable {
      RoundsNotEmpty(document, budget, ask, steps, inspected, document.Load(inspected), 2);
    }
  }

  // ---- The default window ------------------------------------------------------------------

  // Without matching pages and without a usable reply the window runs from the first available page to the
  // second. It selects these two if and only if it is no longer than a range may be; in a document with a
  // wider gap the search is given up without a selection.
  lemma DefaultSelects(document: Document, budget: Budget, first: nat, second: nat)
    requires document.Valid() && document.anchors == {} && budget.initialPages >= 2
    requires first < second && {first, second} <= document.available
    requires forall p :: p in document.available ==> p == first || p == second || second < p
    ensures Pick(FallbackText(document), document, budget) == if second - first < MAX_PAGE_RANGE_SIZE then {first, second} else {}
  {
    FirstTwo(document.available, first, second);
    OneRunReads(Run(first, second));
    if second - first < MAX_PAGE_RANGE_SIZE {
      assert Eligible(FallbackText(document), document.available, {}) == {first, second};
      FirstPagesAre({first, second}, budget.initialPages);
    } else {
      FirstPagesAre({}, budget.initialPages);
    }
  }

  lemma FirstTwo(available: set<nat>, first: nat, second: nat)
    requires first < second && {first, second} <= available
    requires forall p :: p in available ==> p == first || p == second || second < p
    ensures DefaultWindow(available) == PrintRun(Run(first, second))
  {
    var numbers := SortedPages(available);
    assert first in numbers && second in numbers;
    var i :| 0 <= i < |numbers| && numbers[i] == first;
    var j :| 0 <= j < |numbers| && numbers[j] == second;
    assert numbers[0] in numbers && numbers[1] in numbers;
  }

  lemma GapEndsSearch(document: Document, budget: Budget, replies: nat -> Assessment, first: nat, second: nat)
    requires document.Valid() && document.anchors == {} && budget.initialPages >= 2
    requires first < second && {first, second} <= document.available
    requires forall p :: p in document.available ==> p == first || p == second || second < p
    ensures SearchOf(document, budget, NoSelection, replies) == Search([Empty(InvalidPageSelection)], 1, false)
      <==> second - first >= MAX_PAGE_RANGE_SIZE
  {
    DefaultSelects(document, budget, first, second);
    if second - first < MAX_PAGE_RANGE_SIZE {
      SearchStarts(document, budget, FallbackText(document), replies);
    }
  }
}
