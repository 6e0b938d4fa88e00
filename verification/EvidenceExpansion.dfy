/**
 Expansion of validated evidence pages over table and list continuations
 (services/retrieval_api/query_engine.py). Which page reads like a continuation is an arbitrary
 predicate.
 */
module EvidenceExpansion {

  import opened Outcome
  import opened PageWindow

  type Continuation = nat -> bool

  // Pages p to q all belong to the selection: they lie in one contiguous run of it.
  ghost predicate SameRun(selected: set<nat>, p: nat, q: nat) {
    forall r :: p <= r <= q ==> r in selected
  }

  // Between two kept pages of one run nothing is missing.
  ghost predicate Convex(kept: set<nat>, selected: set<nat>) {
    forall p, q, r :: p in kept && q in kept && p <= r <= q && SameRun(selected, p, q) ==> r in kept
  }

  ghost predicate FullyContinued(kept: set<nat>, selected: set<nat>, continues: Continuation) {
    forall p: nat :: 0 < p && p in selected && p - 1 in kept && continues(p) ==> p in kept
  }

  ghost predicate Closed(kept: set<nat>, selected: set<nat>, continues: Continuation) {
    Convex(kept, selected) && FullyContinued(kept, selected, continues)
  }

  // The least closed page set around the support.
  ghost predicate Closure(kept: set<nat>, support: set<nat>, selected: set<nat>, continues: Continuation) {
    && support <= kept
    && Closed(kept, selected, continues)
    && forall other: set<nat> :: support <= other && Closed(other, selected, continues) ==> kept <= other
  }

  // ---- What a closure operator is ------------------------------------------------------------

  lemma ClosureMonotone(a: set<nat>, b: set<nat>, s: set<nat>, t: set<nat>, selected: set<nat>, continues: Continuation)
    requires s <= t && Closure(a, s, selected, continues) && Closure(b, t, selected, continues)
    ensures a <= b
  {
    assert s <= b;
  }

  lemma ClosureIdempotent(a: set<nat>, b: set<nat>, s: set<nat>, selected: set<nat>, continues: Continuation)
    requires Closure(a, s, selected, continues) && Closure(b, a, selected, continues)
    ensures a == b
  {
  }

  ghost predicate Linked(selected: set<nat>, p: nat, q: nat) {
    SameRun(selected, p, q) && SameRun(selected, q, p)
  }

  // The pages of the runs that hold support.
  ghost function RunsWithSupport(support: set<nat>, selected: set<nat>): set<nat> {
    set r | r in selected && exists p :: p in support && Linked(selected, p, r)
  }

  lemma LinkBetween(selected: set<nat>, s: nat, p: nat, q: nat, r: nat)
    requires Linked(selected, s, p) && SameRun(selected, p, q) && p <= r <= q
    ensures Linked(selected, s, r)
  {
  }

  lemma RunsWithSupportConvex(support: set<nat>, selected: set<nat>)
    ensures Convex(RunsWithSupport(support, selected), selected)
  {
    var runs := RunsWithSupport(support, selected);
    forall p, q, r | p in runs && q in runs && p <= r <= q && SameRun(selected, p, q) ensures r in runs {
      var s :| s in support && Linked(selected, s, p);
      LinkBetween(selected, s, p, q, r);
    }
  }

  lemma RunsWithSupportClosed(support: set<nat>, selected: set<nat>, continues: Continuation)
    requires support <= selected
    ensures support <= RunsWithSupport(support, selected)
    ensures Closed(RunsWithSupport(support, selected), selected, continues)
  {
    var runs := RunsWithSupport(support, selected);
    forall p | p in support ensures p in runs {
      assert Linked(selected, p, p);
    }
    RunsWithSupportConvex(support, selected);
    forall p: nat | 0 < p && p in selected && p - 1 in runs && continues(p) ensures p in runs {
      var s :| s in support && Linked(selected, s, p - 1);
      LinkBetween(selected, s, p - 1, p, p);
    }
  }

  // The expansion stays inside the runs that hold support, and inside the selection.
  lemma ClosureStaysInRuns(kept: set<nat>, support: set<nat>, selected: set<nat>, continues: Continuation)
    requires support <= selected && Closure(kept, support, selected, continues)
    ensures kept <= RunsWithSupport(support, selected)
  {
    RunsWithSupportClosed(support, selected, continues);
  }

  lemma ListingEnds(pages: seq<nat>, s: set<nat>)
    requires Lists(pages, s) && s != {}
    ensures pages != [] && pages[0] in s && pages[|pages| - 1] in s
    ensures forall p :: p in s ==> pages[0] <= p <= pages[|pages| - 1]
  {
    ListingSize(pages, s);
    assert pages[0] in pages && pages[|pages| - 1] in pages;
    forall p | p in s ensures pages[0] <= p <= pages[|pages| - 1] {
      assert p in pages;
      var i :| 0 <= i < |pages| && pages[i] == p;
    }
  }

  // Each run of the selection keeps one interval of pages, or none.
  lemma ClosureLeavesIntervals(kept: set<nat>, support: set<nat>, selected: set<nat>, continues: Continuation, run: Run)
    requires Closure(kept, support, selected, continues)
    requires run.low <= run.high && PagesFrom(run.low, run.high) <= selected
    requires kept * PagesFrom(run.low, run.high) != {}
    ensures exists low: nat, high: nat :: kept * PagesFrom(run.low, run.high) == PagesFrom(low, high)
  {
    var inside := kept * PagesFrom(run.low, run.high);
    var pages := SortedPages(inside);
    ListingEnds(pages, inside);
    var low, high := pages[0], pages[|pages| - 1];
    assert SameRun(selected, low, high);
    assert inside == PagesFrom(low, high);
  }

  // ---- The two passes ------------------------------------------------------------------------

  ghost predicate Bridged(r: nat, support: set<nat>, selected: set<nat>) {
    exists p, q :: p in support && q in support && p <= r <= q && SameRun(selected, p, q)
  }

  // Gaps closed between support pages of one run.
  ghost predicate Filled(kept: set<nat>, support: set<nat>, selected: set<nat>) {
    && support <= kept
    && (forall r :: r in kept ==> r in support || Bridged(r, support, selected))
    && (forall p, q, r :: p in support && q in support && p <= r <= q && SameRun(selected, p, q) ==> r in kept)
  }

  lemma FilledIsConvex(kept: set<nat>, support: set<nat>, selected: set<nat>)
    requires support <= selected && Filled(kept, support, selected)
    ensures Convex(kept, selected) && kept <= selected
  {
    forall p, q, r | p in kept && q in kept && p <= r <= q && SameRun(selected, p, q) ensures r in kept {
      var low := LowEnd(kept, support, selected, p);
      var high := HighEnd(kept, support, selected, q);
      assert SameRun(selected, low, high);
    }
  }

  lemma LowEnd(kept: set<nat>, support: set<nat>, selected: set<nat>, p: nat) returns (low: nat)
    requires support <= selected && Filled(kept, support, selected) && p in kept
    ensures low in support && low <= p && SameRun(selected, low, p)
  {
    if p in support {
      low := p;
    } else {
      var q;
      low, q :| low in support && q in support && low <= p <= q && SameRun(selected, low, q);
    }
  }

  lemma HighEnd(kept: set<nat>, support: set<nat>, selected: set<nat>, p: nat) returns (high: nat)
    requires support <= selected && Filled(kept, support, selected) && p in kept
    ensures high in support && p <= high && SameRun(selected, p, high)
  {
    if p in support {
      high := p;
    } else {
      var q;
      q, high :| q in support && high in support && q <= p <= high && SameRun(selected, q, high);
    }
  }

  lemma {:induction false} RunOfPage(runs: seq<Run>, selected: set<nat>, p: nat) returns (k: nat)
    requires MaximalRuns(runs, selected) && p in selected
    ensures k < |runs| && runs[k].low <= p <= runs[k].high
  {
    k := InRuns(runs, p);
  }

  lemma {:induction false} InRuns(runs: seq<Run>, p: nat) returns (k: nat)
    requires p in PagesOf(runs)
    ensures k < |runs| && runs[k].low <= p <= runs[k].high
  {
    var n := |runs| - 1;
    if runs[n].low <= p <= runs[n].high {
      k := n;
    } else {
      k := InRuns(runs[..n], p);
    }
  }

  lemma {:induction false} RunsApart(runs: seq<Run>, selected: set<nat>, i: nat, j: nat)
    requires MaximalRuns(runs, selected) && i < j < |runs|
    ensures runs[i].high + 1 < runs[j].low
    decreases j
  {
    if i + 1 < j {
      RunsApart(runs, selected, i, j - 1);
    }
  }

  // Pages of one contiguous stretch lie in one listed run.
  lemma StretchInRun(runs: seq<Run>, selected: set<nat>, p: nat, q: nat) returns (k: nat)
    requires MaximalRuns(runs, selected) && p <= q && SameRun(selected, p, q)
    ensures k < |runs| && runs[k].low <= p && q <= runs[k].high
  {
    k := RunOfPage(runs, selected, p);
    if runs[k].high < q {
      var j := RunOfPage(runs, selected, runs[k].high + 1);
      if j < k {
        RunsApart(runs, selected, j, k);
      } else if k < j {
        RunsApart(runs, selected, k, j);
      }
      assert false;
    }
  }

  lemma {:induction false} RunSelected(runs: seq<Run>, selected: set<nat>, k: nat)
    requires MaximalRuns(runs, selected) && k < |runs|
    ensures PagesFrom(runs[k].low, runs[k].high) <= selected
  {
    PagesBelow(runs, selected, k + 1);
    assert runs[..k + 1][..k] == runs[..k];
  }

  ghost predicate RunFilled(kept: set<nat>, support: set<nat>, run: Run) {
    forall p, q, r :: p in support && q in support && run.low <= p && q <= run.high && p <= r <= q ==> r in kept
  }

  ghost predicate OnlyBridged(kept: set<nat>, support: set<nat>, selected: set<nat>) {
    forall r :: r in kept ==> r in support || Bridged(r, support, selected)
  }

  lemma RunsFilledIsFilled(kept: set<nat>, support: set<nat>, selected: set<nat>, runs: seq<Run>)
    requires MaximalRuns(runs, selected) && support <= kept && OnlyBridged(kept, support, selected)
    requires forall k :: 0 <= k < |runs| ==> RunFilled(kept, support, runs[k])
    ensures Filled(kept, support, selected)
  {
    forall p, q, r | p in support && q in support && p <= r <= q && SameRun(selected, p, q) ensures r in kept {
      var k := StretchInRun(runs, selected, p, q);
      assert RunFilled(kept, support, runs[k]);
    }
  }

  method FillGaps(support: set<nat>, selected: set<nat>) returns (kept: set<nat>)
    ensures Filled(kept, support, selected)
  {
    var pages := SortedPages(selected);
    var runs := RunsOf(pages);
    RunsAreMaximal(pages, selected);
    kept := support;
    for k := 0 to |runs|
      invariant support <= kept && OnlyBridged(kept, support, selected)
      invariant forall j :: 0 <= j < k ==> RunFilled(kept, support, runs[j])
    {
      RunSelected(runs, selected, k);
      kept := FillRun(support, selected, runs[k], kept);
    }
    RunsFilledIsFilled(kept, support, selected, runs);
  }

  method FillRun(support: set<nat>, selected: set<nat>, run: Run, before: set<nat>) returns (kept: set<nat>)
    requires support <= before && PagesFrom(run.low, run.high) <= selected && OnlyBridged(before, support, selected)
    ensures before <= kept && OnlyBridged(kept, support, selected)
    ensures RunFilled(kept, support, run)
    ensures forall other :: RunFilled(before, support, other) ==> RunFilled(kept, support, other)
  {
    var inside := support * PagesFrom(run.low, run.high);
    var runSupport := SortedPages(inside);
    kept := before;
    if |runSupport| >= 2 {
      var first, last := runSupport[0], runSupport[|runSupport| - 1];
      ListingSize(runSupport, inside);
      ListingEnds(runSupport, inside);
      assert SameRun(selected, first, last);
      kept := kept + PagesFrom(first, last);
      assert forall p :: p in inside ==> first <= p <= last;
    } else {
      forall p, q | p in inside && q in inside ensures p == q {
        assert p in runSupport && q in runSupport;
      }
    }
    forall p, q, r | p in support && q in support && run.low <= p && q <= run.high && p <= r <= q ensures r in kept {
      assert p in inside && q in inside;
    }
  }

  // One more continuation page keeps every run convex.
  lemma ContinuationConvex(kept: set<nat>, selected: set<nat>, page: nat)
    requires Convex(kept, selected) && kept <= selected && page in selected && page !in kept && page > 0 && page - 1 in kept
    ensures Convex(kept + {page}, selected)
  {
    forall p, q, r | p in kept + {page} && q in kept + {page} && p <= r <= q && SameRun(selected, p, q) ensures r in kept + {page} {
      if q == page && p < page {
        assert SameRun(selected, p, page - 1);
      } else if p == page && page < q {
        assert SameRun(selected, page - 1, q);
      }
    }
  }

  ghost predicate ContinuedBefore(kept: set<nat>, pages: seq<nat>, n: nat, continues: Continuation)
    requires n <= |pages|
  {
    forall j :: 0 <= j < n && pages[j] > 0 && pages[j] - 1 in kept && continues(pages[j]) ==> pages[j] in kept
  }

  ghost predicate BelowEveryContinued(kept: set<nat>, filled: set<nat>, selected: set<nat>, continues: Continuation) {
    forall other: set<nat> :: filled <= other && FullyContinued(other, selected, continues) ==> kept <= other
  }

  // One ascending pass over the selection adds every page that continues a kept one.
  method FollowContinuations(filled: set<nat>, pages: seq<nat>, selected: set<nat>, continues: Continuation) returns (kept: set<nat>)
    requires Lists(pages, selected) && filled <= selected && Convex(filled, selected)
    ensures filled <= kept <= selected && Closed(kept, selected, continues)
    ensures BelowEveryContinued(kept, filled, selected, continues)
  {
    kept := filled;
    for i := 0 to |pages|
      invariant filled <= kept <= selected && Convex(kept, selected)
      invariant ContinuedBefore(kept, pages, i, continues)
      invariant BelowEveryContinued(kept, filled, selected, continues)
    {
      var page := pages[i];
      assert page in pages;
      if page !in kept && page > 0 && page - 1 in kept && continues(page) {
        ContinuationConvex(kept, selected, page);
        PassKeeps(kept, pages, i, continues);
        kept := kept + {page};
      }
    }
    forall p: nat | 0 < p && p in selected && p - 1 in kept && continues(p) ensures p in kept {
      ghost var j :| 0 <= j < |pages| && pages[j] == p;
    }
  }

  lemma PassKeeps(kept: set<nat>, pages: seq<nat>, i: nat, continues: Continuation)
    requires i < |pages| && Ascends(pages) && ContinuedBefore(kept, pages, i, continues)
    ensures ContinuedBefore(kept + {pages[i]}, pages, i + 1, continues)
  {
  }

  // On complete-list queries the result is the least closed page set around the support; otherwise
  // the support is returned unchanged. Only a window that cannot be read raises.
  method ExpandSupportingPages(completeList: bool, pages: string, support: set<nat>, continues: Continuation)
    returns (kept: Result<set<nat>>)
    requires Names(Parse(pages)) ==> support <= PagesIn(pages)
    ensures kept.Raised? <==> support != {} && completeList && Parse(pages).Raised?
    ensures kept.Returned? && (support == {} || !completeList || !Names(Parse(pages))) ==> kept.value == support
    ensures support != {} && completeList && Names(Parse(pages)) ==> Closure(kept.value, support, PagesIn(pages), continues)
  {
    if support == {} || !completeList {
      return Returned(support);
    }
    var parsed :- ParsePageWindow(pages);
    if parsed.None? {
      return Returned(support);
    }
    var selected := set p | p in parsed.value;
    assert selected == PagesIn(pages);
    var filled := FillGaps(support, selected);
    FilledIsConvex(filled, support, selected);
    var followed := FollowContinuations(filled, parsed.value, selected, continues);
    TwoPassesAreClosure(followed, filled, support, selected, continues);
    return Returned(followed);
  }

  lemma TwoPassesAreClosure(kept: set<nat>, filled: set<nat>, support: set<nat>, selected: set<nat>, continues: Continuation)
    requires Filled(filled, support, selected) && filled <= kept && Closed(kept, selected, continues)
    requires BelowEveryContinued(kept, filled, selected, continues)
    ensures Closure(kept, support, selected, continues)
  {
    forall other: set<nat> | support <= other && Closed(other, selected, continues) ensures kept <= other {
      forall r | r in filled ensures r in other {
        if r !in support {
          var p, q :| p in support && q in support && p <= r <= q && SameRun(selected, p, q);
          assert p in other && q in other;
        }
      }
    }
  }
}
