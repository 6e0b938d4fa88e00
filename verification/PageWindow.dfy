/**
 Page windows such as "3-5,9" (services/retrieval_api/query_engine.py): the parser, the printer, and
 the bounded selection made from a window that an untrusted model wrote.
 */
module PageWindow {

  import opened Outcome
  import opened Text

  const MAX_PAGE_RANGE_SIZE := 1000
  const MAX_PAGE_SELECTION_SIZE := 1000

  // ---- Page sets ---------------------------------------------------------------------------

  predicate Within(p: int, low: nat, high: int) {
    low <= p <= high
  }

  function PagesFrom(low: nat, high: int): set<nat> {
    set p: nat | low <= p <= high && Within(p, low, high)
  }

  lemma {:induction false} PagesCount(low: nat, high: int)
    requires low <= high + 1
    ensures |PagesFrom(low, high)| == high + 1 - low
    decreases high - low
  {
    if high < low {
      assert PagesFrom(low, high) == {};
    } else {
      PagesCount(low, high - 1);
      assert PagesFrom(low, high) == PagesFrom(low, high - 1) + {high};
    }
  }

  ghost predicate Ascends(pages: seq<nat>) {
    forall i, j :: 0 <= i < j < |pages| ==> pages[i] < pages[j]
  }

  ghost predicate Lists(pages: seq<nat>, s: set<nat>) {
    Ascends(pages) && forall p :: p in pages <==> p in s
  }

  ghost predicate IsLeast(m: nat, s: set<nat>) {
    m in s && forall p :: p in s ==> m <= p
  }

  lemma {:induction false} LeastExists(s: set<nat>) returns (m: nat)
    requires s != {}
    ensures IsLeast(m, s)
  {
    m :| m in s;
    if exists p :: p in s && p < m {
      var lower :| lower in s && lower < m;
      var below := set p | p in s && p < m;
      assert m in s - below && lower in below;
      m := LeastExists(below);
      assert forall p :: p in s && p !in below ==> m <= p;
    }
  }

  lemma LeastIs(s: set<nat>)
    requires s != {}
    ensures exists m :: m in s && forall p :: p in s ==> m <= p
  {
    var m := LeastExists(s);
    assert IsLeast(m, s);
  }

  // sorted(s)
  function SortedPages(s: set<nat>): (r: seq<nat>)
    ensures Lists(r, s)
  {
    if s == {} then []
    else
      LeastIs(s);
      var m :| m in s && forall p :: p in s ==> m <= p;
      PrependLists(m, SortedPages(s - {m}), s);
      [m] + SortedPages(s - {m})
  }

  lemma PrependLists(m: nat, rest: seq<nat>, s: set<nat>)
    requires m in s && (forall p :: p in s ==> m <= p) && Lists(rest, s - {m})
    ensures Lists([m] + rest, s)
  {
    var all := [m] + rest;
    forall j | 0 <= j < |rest| ensures m < rest[j] {
      assert rest[j] in rest;
    }
  }

  lemma {:induction false} ListingUnique(a: seq<nat>, b: seq<nat>, s: set<nat>)
    requires Lists(a, s) && Lists(b, s)
    ensures a == b
  {
    ListingSize(a, s);
    ListingSize(b, s);
    if a != [] {
      assert a[0] in s && b[0] in s;
      assert a[0] in b && b[0] in a;
      TailLists(a, s);
      TailLists(b, s);
      ListingUnique(a[1..], b[1..], s - {a[0]});
    }
  }

  lemma TailLists(a: seq<nat>, s: set<nat>)
    requires a != [] && Lists(a, s)
    ensures Lists(a[1..], s - {a[0]})
  {
    assert a == [a[0]] + a[1..];
  }

  lemma {:induction false} ListingSize(a: seq<nat>, s: set<nat>)
    requires Lists(a, s)
    ensures |a| == |s|
  {
    if a == [] {
      assert s == {};
    } else {
      assert a[0] in s;
      TailLists(a, s);
      ListingSize(a[1..], s - {a[0]});
    }
  }

  // ---- Parsing -----------------------------------------------------------------------------

  // The texts on either side of the first dash.
  function RangeEnds(part: string): (string, string)
    requires '-' in part
  {
    var cut := Find(part, '-');
    (Strip(part[..cut]), Strip(part[cut + 1..]))
  }

  // What reading a text comes to: it raises, is refused, or names pages.
  type Reading = Result<Option<set<nat>>>

  // One comma-separated part, added to the pages selected so far. A part of digits that are not all
  // decimal passes the test for digits and then raises.
  function AddToken(token: string, selected: set<nat>): Reading {
    var part := Strip(token);
    if part == "" then Returned(None)
    else if '-' in part then
      var (left, right) := RangeEnds(part);
      if !AllCountAsDigits(left) || !AllCountAsDigits(right) then Returned(None)
      else if !Convertible(left) || !Convertible(right) then Raised
      else
        var start, end := ParseDecimal(left), ParseDecimal(right);
        if start == 0 || end < start then Returned(None)
        else if end - start + 1 > MAX_PAGE_RANGE_SIZE then Returned(None)
        else if |selected| + (end - start + 1) > MAX_PAGE_SELECTION_SIZE then Returned(None)
        else Returned(Some(selected + PagesFrom(start, end)))
    else if !AllCountAsDigits(part) then Returned(None)
    else if !Convertible(part) then Raised
    else
      var page := ParseDecimal(part);
      if page == 0 || |selected + {page}| > MAX_PAGE_SELECTION_SIZE then Returned(None) else Returned(Some(selected + {page}))
  }

  function AddTokens(tokens: seq<string>, selected: set<nat>): Reading {
    if tokens == [] then Returned(Some(selected))
    else
      match AddToken(tokens[0], selected)
      case Raised => Raised
      case Returned(None) => Returned(None)
      case Returned(Some(more)) => AddTokens(tokens[1..], more)
  }

  function Parse(pages: string): Reading {
    var text := Strip(pages);
    if text == "" then Returned(None)
    else
      match AddTokens(Split(text, ','), {})
      case Raised => Raised
      case Returned(None) => Returned(None)
      case Returned(Some(selected)) => if selected == {} then Returned(None) else Returned(Some(selected))
  }

  predicate Names(reading: Reading) {
    reading.Returned? && reading.value.Some?
  }

  // The pages a text names, if it names any.
  function PagesIn(text: string): set<nat> {
    if Names(Parse(text)) then Parse(text).value.value else {}
  }

  // ---- Texts that raise --------------------------------------------------------------------

  // The part is made of digits, and `int` does not convert one of its numbers.
  predicate TokenRaises(token: string) {
    var part := Strip(token);
    if '-' in part then
      var (left, right) := RangeEnds(part);
      AllCountAsDigits(left) && AllCountAsDigits(right) && !(Convertible(left) && Convertible(right))
    else AllCountAsDigits(part) && !Convertible(part)
  }

  lemma TokenRaisesExactly(token: string, selected: set<nat>)
    ensures AddToken(token, selected).Raised? <==> TokenRaises(token)
  {
    var part := Strip(token);
    if part == "" { assert '-' !in part; }
  }

  // The parts before this one add their pages, and this one raises.
  predicate PartRaises(tokens: seq<string>, selected: set<nat>, k: int) {
    0 <= k < |tokens| && TokenRaises(tokens[k]) && Names(AddTokens(tokens[..k], selected))
  }

  lemma {:induction false} TokensRaiseExactly(tokens: seq<string>, selected: set<nat>)
    ensures AddTokens(tokens, selected).Raised? <==> exists k :: PartRaises(tokens, selected, k)
  {
    if tokens != [] {
      TokenRaisesExactly(tokens[0], selected);
      var first := AddToken(tokens[0], selected);
      if Names(first) {
        TokensRaiseExactly(tokens[1..], first.value.value);
        forall k | 0 < k <= |tokens| ensures AddTokens(tokens[..k], selected) == AddTokens(tokens[1..][..k - 1], first.value.value) {
          assert tokens[..k][0] == tokens[0] && tokens[..k][1..] == tokens[1..][..k - 1];
        }
        if AddTokens(tokens, selected).Raised? {
          var k :| PartRaises(tokens[1..], first.value.value, k);
          assert PartRaises(tokens, selected, k + 1);
        }
        if k :| PartRaises(tokens, selected, k) {
          assert k > 0;
          assert tokens[1..][k - 1] == tokens[k];
          assert PartRaises(tokens[1..], first.value.value, k - 1);
        }
      } else {
        NoneNamedBehind(tokens, selected);
        if first.Raised? { assert PartRaises(tokens, selected, 0); }
      }
    }
  }

  lemma NoneNamedBehind(tokens: seq<string>, selected: set<nat>)
    requires tokens != [] && !Names(AddToken(tokens[0], selected))
    ensures forall k :: 0 < k <= |tokens| ==> !Names(AddTokens(tokens[..k], selected))
  {
    forall k | 0 < k <= |tokens| ensures !Names(AddTokens(tokens[..k], selected)) {
      assert tokens[..k][0] == tokens[0];
    }
  }

  // In the order of the parts, the first that does not add pages is all digits, with a number that `int`
  // does not convert.
  ghost predicate SomePartRaises(tokens: seq<string>) {
    exists k :: PartRaises(tokens, {}, k)
  }

  // Reading a text raises for no other reason.
  lemma ParseRaisesExactly(pages: string)
    ensures Parse(pages).Raised? <==> Strip(pages) != "" && SomePartRaises(Split(Strip(pages), ','))
  {
    TokensRaiseExactly(Split(Strip(pages), ','), {});
  }

  // One superscript two is such a text; one full-width three is page 3.
  lemma DigitsBeyondAscii()
    ensures Parse("\U{b2}").Raised? && Parse("\U{ff13}") == Returned(Some({3}))
  {
    OnePart("\U{b2}");
    OnePart("\U{ff13}");
    assert DecimalValue('\U{b2}') == None && DecimalValue('\U{ff13}') == Some(3);
    assert "\U{ff13}"[..0] == "" && ParseDecimal("\U{ff13}") == 10 * ParseDecimal("") + 3;
    assert {} + {3} == {3};
  }

  lemma OnePart(text: string)
    requires |text| == 1 && !IsSpace(text[0]) && text[0] != ',' && text[0] != '-'
    ensures Strip(text) == text && Split(text, ',') == [text] && '-' !in text
    ensures Parse(text) == AddToken(text, {})
  {
    StripNothing(text);
    FindIs(text, ',', 1);
    assert [text][1..] == [];
    if Names(AddToken(text, {})) { assert ParseDecimal(text) in AddToken(text, {}).value.value; }
    assert AddTokens([text], {}) == AddToken(text, {});
  }

  // ---- What is read ------------------------------------------------------------------------

  // A page number that can be printed.
  predicate Printable(page: nat) {
    |Decimal(page)| <= MAX_INT_DIGITS
  }

  // Page numbers of a document: positive, and read from text themselves.
  ghost predicate PageNumbers(pages: set<nat>) {
    forall p :: p in pages ==> 0 < p && Printable(p)
  }

  lemma {:induction false} TokensKeepBounds(tokens: seq<string>, selected: set<nat>)
    requires |selected| <= MAX_PAGE_SELECTION_SIZE && PageNumbers(selected)
    ensures var r := AddTokens(tokens, selected);
      Names(r) ==> |r.value.value| <= MAX_PAGE_SELECTION_SIZE && PageNumbers(r.value.value)
  {
    if tokens != [] {
      TokenKeepsBounds(tokens[0], selected);
      var more := AddToken(tokens[0], selected);
      if Names(more) {
        TokensKeepBounds(tokens[1..], more.value.value);
      }
    }
  }

  lemma UnionSize(a: set<nat>, b: set<nat>)
    ensures |a + b| <= |a| + |b|
  {
    assert a + b == a + (b - a);
    assert b == (b - a) + (a * b);
  }

  lemma PrintableRange(start: nat, end: nat)
    requires 0 < start && Printable(end)
    ensures PageNumbers(PagesFrom(start, end))
  {
    forall p | p in PagesFrom(start, end) ensures Printable(p) {
      DecimalGrows(p, end);
    }
  }

  lemma TokenKeepsBounds(token: string, selected: set<nat>)
    requires |selected| <= MAX_PAGE_SELECTION_SIZE && PageNumbers(selected)
    ensures var r := AddToken(token, selected);
      Names(r) ==> |r.value.value| <= MAX_PAGE_SELECTION_SIZE && PageNumbers(r.value.value)
  {
    var part := Strip(token);
    if Names(AddToken(token, selected)) {
      if '-' in part {
        var (left, right) := RangeEnds(part);
        var start, end := ParseDecimal(left), ParseDecimal(right);
        UnionSize(selected, PagesFrom(start, end));
        PagesCount(start, end);
        DecimalShort(right);
        PrintableRange(start, end);
      } else {
        DecimalShort(part);
      }
    }
  }

  // Whatever the text, a window that is read holds between 1 and 1000 pages, all positive and printable.
  lemma ParsedWindowBounded(pages: string)
    ensures Names(Parse(pages)) ==> 0 < |PagesIn(pages)| <= MAX_PAGE_SELECTION_SIZE
    ensures |PagesIn(pages)| <= MAX_PAGE_SELECTION_SIZE && PageNumbers(PagesIn(pages))
  {
    TokensKeepBounds(Split(Strip(pages), ','), {});
  }

  lemma UnionGrows(before: set<nat>, more: set<nat>, page: nat)
    ensures before + (more + {page}) == (before + more) + {page}
  {
  }

  lemma PagesGrow(before: set<nat>, low: nat, high: nat)
    requires low <= high
    ensures before + PagesFrom(low, high) == (before + PagesFrom(low, high - 1)) + {high}
  {
    assert PagesFrom(low, high) == PagesFrom(low, high - 1) + {high};
    UnionGrows(before, PagesFrom(low, high - 1), high);
  }

  method AddRange(start: nat, end: nat, before: set<nat>) returns (selected: set<nat>)
    requires start <= end
    ensures selected == before + PagesFrom(start, end)
  {
    selected := before;
    var page := start;
    while page <= end
      invariant start <= page <= end + 1
      invariant selected == before + PagesFrom(start, page - 1)
    {
      PagesGrow(before, start, page);
      selected := selected + {page};
      page := page + 1;
    }
  }

  method TakeToken(token: string, before: set<nat>) returns (r: Reading)
    ensures r == AddToken(token, before)
  {
    var part := Strip(token);
    if part == "" {
      return Returned(None);
    }
    if '-' in part {
      var (left, right) := RangeEnds(part);
      if !AllCountAsDigits(left) || !AllCountAsDigits(right) {
        return Returned(None);
      }
      if !Convertible(left) || !Convertible(right) {
        return Raised;
      }
      var start, end := ParseDecimal(left), ParseDecimal(right);
      if start == 0 || end < start {
        return Returned(None);
      }
      var span := end - start + 1;
      if span > MAX_PAGE_RANGE_SIZE || |before| + span > MAX_PAGE_SELECTION_SIZE {
        return Returned(None);
      }
      var selected := AddRange(start, end, before);
      return Returned(Some(selected));
    }
    if !AllCountAsDigits(part) {
      return Returned(None);
    }
    if !Convertible(part) {
      return Raised;
    }
    var page := ParseDecimal(part);
    if page == 0 || |before + {page}| > MAX_PAGE_SELECTION_SIZE {
      return Returned(None);
    }
    return Returned(Some(before + {page}));
  }

  method ParsePageWindow(pages: string) returns (r: Result<Option<seq<nat>>>)
    ensures r.Raised? <==> Parse(pages).Raised?
    ensures r.Returned? ==> (r.value.Some? <==> Names(Parse(pages)))
    ensures r.Returned? && r.value.Some? ==> Lists(r.value.value, PagesIn(pages))
  {
    var text := Strip(pages);
    if text == "" {
      return Returned(None);
    }
    var selected: set<nat> := {};
    var tokens := Split(text, ',');
    for i := 0 to |tokens|
      invariant AddTokens(tokens, {}) == AddTokens(tokens[i..], selected)
    {
      assert tokens[i..][0] == tokens[i] && tokens[i..][1..] == tokens[i + 1..];
      var more :- TakeToken(tokens[i], selected);
      if more.None? {
        return Returned(None);
      }
      selected := more.value;
    }
    if selected == {} {
      return Returned(None);
    }
    return Returned(Some(SortedPages(selected)));
  }

  // ---- Printing ----------------------------------------------------------------------------

  datatype Run = Run(low: nat, high: nat)

  function PagesOf(runs: seq<Run>): set<nat> {
    if runs == [] then {}
    else PagesOf(runs[..|runs| - 1]) + PagesFrom(runs[|runs| - 1].low, runs[|runs| - 1].high)
  }

  // Ascending runs with a missing page between neighbours, covering exactly the set.
  ghost predicate MaximalRuns(runs: seq<Run>, s: set<nat>) {
    && (forall i :: 0 <= i < |runs| ==> runs[i].low <= runs[i].high)
    && (forall i :: 0 < i < |runs| ==> runs[i - 1].high + 1 < runs[i].low)
    && PagesOf(runs) == s
  }

  function PrintRun(run: Run): string {
    if run.low == run.high then Decimal(run.low) else Decimal(run.low) + "-" + Decimal(run.high)
  }

  function PrintEach(runs: seq<Run>): (r: seq<string>)
    ensures |r| == |runs|
    ensures forall i :: 0 <= i < |runs| ==> r[i] == PrintRun(runs[i])
  {
    if runs == [] then [] else PrintEach(runs[..|runs| - 1]) + [PrintRun(runs[|runs| - 1])]
  }

  function PrintRuns(runs: seq<Run>): string {
    Join(PrintEach(runs), ',')
  }

  // The runs of an ascending list, built left to right.
  function RunsOf(pages: seq<nat>): seq<Run> {
    if pages == [] then []
    else Extended(RunsOf(pages[..|pages| - 1]), pages[|pages| - 1])
  }

  lemma FrontOf(pages: seq<nat>, s: set<nat>)
    requires pages != [] && Lists(pages, s)
    ensures var n := |pages| - 1;
      Lists(pages[..n], s - {pages[n]}) && pages[n] in s && (n > 0 ==> pages[..n][n - 1] < pages[n])
  {
    var n := |pages| - 1;
    assert pages == pages[..n] + [pages[n]];
    FrontLists(pages[..n], pages[n], s);
  }

  lemma {:induction false} RunsAreMaximal(pages: seq<nat>, s: set<nat>)
    requires Lists(pages, s)
    ensures var runs := RunsOf(pages);
      MaximalRuns(runs, s) && (pages != [] ==> runs != [] && runs[|runs| - 1].high == pages[|pages| - 1])
  {
    if pages == [] {
      ListingSize(pages, s);
    } else {
      var n := |pages| - 1;
      FrontOf(pages, s);
      RunsAreMaximal(pages[..n], s - {pages[n]});
      if n == 0 { assert RunsOf(pages[..n]) == []; }
      RunsExtend(RunsOf(pages[..n]), s, pages[n]);
    }
  }

  lemma RunsExtend(front: seq<Run>, s: set<nat>, page: nat)
    requires MaximalRuns(front, s - {page}) && page in s
    requires front != [] ==> front[|front| - 1].high < page
    ensures MaximalRuns(Extended(front, page), s)
    ensures Extended(front, page) != [] && Extended(front, page)[|Extended(front, page)| - 1].high == page
  {
    ExtendRuns(front, s - {page}, page);
    assert (s - {page}) + {page} == s;
  }

  lemma FrontLists(before: seq<nat>, page: nat, s: set<nat>)
    requires Lists(before + [page], s)
    ensures Lists(before, s - {page}) && page in s
    ensures before != [] ==> before[|before| - 1] < page
  {
    var pages := before + [page];
    assert forall i :: 0 <= i < |before| ==> before[i] == pages[i];
    assert pages[|before|] == page;
    forall p ensures p in before <==> p in s - {page} {
      assert p in pages <==> p in before || p == page;
    }
  }

  // One more page, either closing up to the last run or opening a new one.
  function Extended(front: seq<Run>, page: nat): seq<Run> {
    if front != [] && page == front[|front| - 1].high + 1
    then front[..|front| - 1] + [Run(front[|front| - 1].low, page)]
    else front + [Run(page, page)]
  }

  lemma PagesOfSnoc(runs: seq<Run>, run: Run)
    ensures PagesOf(runs + [run]) == PagesOf(runs) + PagesFrom(run.low, run.high)
  {
    assert (runs + [run])[..|runs|] == runs;
  }

  lemma CloseUpPages(init: seq<Run>, last: Run)
    requires last.low <= last.high
    ensures PagesOf(init + [Run(last.low, last.high + 1)]) == PagesOf(init + [last]) + {last.high + 1}
  {
    PagesOfSnoc(init, last);
    PagesOfSnoc(init, Run(last.low, last.high + 1));
    PagesGrow(PagesOf(init), last.low, last.high + 1);
  }

  lemma OpenNewPages(front: seq<Run>, page: nat)
    ensures PagesOf(front + [Run(page, page)]) == PagesOf(front) + {page}
  {
    PagesOfSnoc(front, Run(page, page));
    assert PagesFrom(page, page) == {page};
  }

  lemma ExtendedShape(front: seq<Run>, page: nat)
    requires front != [] && page == front[|front| - 1].high + 1
    ensures var init, last := front[..|front| - 1], front[|front| - 1];
      front == init + [last] && Extended(front, page) == init + [Run(last.low, last.high + 1)]
  {
  }

  lemma ClosedUp(front: seq<Run>, page: nat)
    requires front != [] && page == front[|front| - 1].high + 1 && front[|front| - 1].low <= front[|front| - 1].high
    ensures PagesOf(Extended(front, page)) == PagesOf(front) + {page}
  {
    ExtendedShape(front, page);
    CloseUpPages(front[..|front| - 1], front[|front| - 1]);
  }

  lemma OpenedNew(front: seq<Run>, page: nat)
    requires front == [] || page != front[|front| - 1].high + 1
    ensures PagesOf(Extended(front, page)) == PagesOf(front) + {page}
  {
    OpenNewPages(front, page);
  }

  lemma ExtendRuns(front: seq<Run>, s: set<nat>, page: nat)
    requires MaximalRuns(front, s)
    requires front != [] ==> front[|front| - 1].high < page
    ensures MaximalRuns(Extended(front, page), s + {page})
  {
    if front != [] && page == front[|front| - 1].high + 1 { ClosedUp(front, page); } else { OpenedNew(front, page); }
  }

  lemma RunsStep(pages: seq<nat>, i: nat)
    requires i < |pages|
    ensures RunsOf(pages[..i + 1]) == Extended(RunsOf(pages[..i]), pages[i])
  {
    assert pages[..i + 1][..i] == pages[..i];
  }

  lemma ExtendedLast(closed: seq<Run>, last: Run, page: nat)
    ensures Extended(closed + [last], page) ==
      if page == last.high + 1 then closed + [Run(last.low, page)] else closed + [last] + [Run(page, page)]
  {
    assert (closed + [last])[..|closed|] == closed;
  }

  lemma PrintEachSnoc(runs: seq<Run>, run: Run)
    ensures PrintEach(runs + [run]) == PrintEach(runs) + [PrintRun(run)]
  {
    assert (runs + [run])[..|runs|] == runs;
  }

  method FormatPageWindow(pages: set<nat>) returns (text: string)
    requires forall p :: p in pages ==> Printable(p)
    ensures text == PrintRuns(RunsOf(SortedPages(pages)))
  {
    var sorted := SortedPages(pages);
    if sorted == [] {
      return "";
    }
    var ranges: seq<string> := [];
    var start, previous := sorted[0], sorted[0];
    ghost var closed: seq<Run> := [];
    RunsStep(sorted, 0);
    assert sorted[..0] == [];
    for i := 1 to |sorted|
      invariant RunsOf(sorted[..i]) == closed + [Run(start, previous)]
      invariant ranges == PrintEach(closed)
    {
      var page := sorted[i];
      RunsStep(sorted, i);
      ExtendedLast(closed, Run(start, previous), page);
      if page == previous + 1 {
        previous := page;
      } else {
        PrintEachSnoc(closed, Run(start, previous));
        ranges := ranges + [PrintRun(Run(start, previous))];
        closed := closed + [Run(start, previous)];
        start, previous := page, page;
      }
    }
    assert sorted[..|sorted|] == sorted;
    PrintEachSnoc(closed, Run(start, previous));
    ranges := ranges + [PrintRun(Run(start, previous))];
    return Join(ranges, ',');
  }

  // ---- Round trip --------------------------------------------------------------------------

  function Window(s: set<nat>): string {
    PrintRuns(RunsOf(SortedPages(s)))
  }

  // A printed run is a bare token: no comma, no surrounding space.
  lemma RunTokenIsBare(run: Run)
    ensures var token := PrintRun(run);
      token != "" && IsDigit(token[0]) && IsDigit(token[|token| - 1]) && ',' !in token && Strip(token) == token
  {
    var low, high := Decimal(run.low), Decimal(run.high);
    DigitsAreBare(low);
    DigitsAreBare(high);
    var token := PrintRun(run);
    if run.low != run.high {
      assert token[0] == low[0] && token[|token| - 1] == high[|high| - 1];
    }
    StripNothing(token);
  }

  lemma RangeEndsOfRun(run: Run)
    requires run.low != run.high
    ensures '-' in PrintRun(run) && RangeEnds(PrintRun(run)) == (Decimal(run.low), Decimal(run.high))
  {
    var low, high := Decimal(run.low), Decimal(run.high);
    DigitsAreBare(low);
    DigitsAreBare(high);
    var token := PrintRun(run);
    assert token == low + "-" + high;
    assert token[|low|] == '-';
    FindIs(token, '-', |low|);
    assert token[..|low|] == low && token[|low| + 1..] == high;
  }

  // Reading back a printed run adds its pages, unless the selection would grow beyond the limit.
  lemma RunTokenRead(run: Run, selected: set<nat>)
    requires 0 < run.low <= run.high && Printable(run.high) && selected !! PagesFrom(run.low, run.high)
    ensures AddToken(PrintRun(run), selected) == Returned(
      if |selected| + (run.high + 1 - run.low) <= MAX_PAGE_SELECTION_SIZE
      then Some(selected + PagesFrom(run.low, run.high)) else None)
  {
    RunTokenIsBare(run);
    DecimalRoundTrip(run.low);
    DecimalRoundTrip(run.high);
    PrintedConverts(run.high, run.high);
    PrintedConverts(run.low, run.high);
    if run.low == run.high {
      DigitsAreBare(Decimal(run.low));
      assert PagesFrom(run.low, run.low) == {run.low};
    } else {
      RangeEndsOfRun(run);
    }
  }

  lemma PrintedConverts(page: nat, last: nat)
    requires page <= last && Printable(last)
    ensures AllCountAsDigits(Decimal(page)) && Convertible(Decimal(page))
  {
    DecimalGrows(page, last);
    forall i | 0 <= i < |Decimal(page)| ensures DecimalValue(Decimal(page)[i]).Some? {
      assert IsDigit(Decimal(page)[i]);
    }
  }

  lemma {:induction false} PagesBelow(runs: seq<Run>, s: set<nat>, k: nat)
    requires MaximalRuns(runs, s) && k <= |runs|
    ensures forall p :: p in PagesOf(runs[..k]) ==> k > 0 && p <= runs[k - 1].high
    ensures PagesOf(runs[..k]) <= s
    decreases k
  {
    if k > 0 {
      assert runs[..k][..k - 1] == runs[..k - 1];
      PagesBelow(runs, s, k - 1);
      PagesWithin(runs, k);
    }
  }

  lemma {:induction false} PagesWithin(runs: seq<Run>, k: nat)
    requires k <= |runs|
    ensures PagesOf(runs[..k]) <= PagesOf(runs)
    decreases |runs| - k
  {
    if k < |runs| {
      assert runs[..k + 1][..k] == runs[..k];
      PagesWithin(runs, k + 1);
    } else {
      assert runs[..k] == runs;
    }
  }

  lemma DisjointSize(a: set<nat>, b: set<nat>)
    requires a !! b
    ensures |a + b| == |a| + |b|
  {
  }

  // The next run adds its own pages and no others.
  lemma NextRun(runs: seq<Run>, s: set<nat>, k: nat)
    requires MaximalRuns(runs, s) && 0 !in s && k < |runs|
    ensures var run, selected := runs[k], PagesOf(runs[..k]);
      && PagesOf(runs[..k + 1]) == selected + PagesFrom(run.low, run.high) <= s
      && |selected + PagesFrom(run.low, run.high)| == |selected| + (run.high + 1 - run.low)
      && selected !! PagesFrom(run.low, run.high) && 0 < run.low <= run.high
  {
    var run, selected := runs[k], PagesOf(runs[..k]);
    PagesBelow(runs, s, k);
    PagesBelow(runs, s, k + 1);
    assert runs[..k + 1] == runs[..k] + [run];
    PagesOfSnoc(runs[..k], run);
    assert selected !! PagesFrom(run.low, run.high);
    DisjointSize(selected, PagesFrom(run.low, run.high));
    PagesCount(run.low, run.high);
    assert run.low in PagesOf(runs[..k + 1]);
  }

  lemma PrintEachAt(runs: seq<Run>, k: nat)
    requires k < |runs|
    ensures PrintEach(runs)[k..] == [PrintRun(runs[k])] + PrintEach(runs)[k + 1..]
  {
    SliceAt(PrintEach(runs), k);
  }

  lemma SliceAt(all: seq<string>, k: nat)
    requires k < |all|
    ensures all[k..] == [all[k]] + all[k + 1..]
  {
  }

  lemma TakeOne(token: string, rest: seq<string>, selected: set<nat>)
    ensures AddTokens([token] + rest, selected) ==
      match AddToken(token, selected)
      case Raised => Raised
      case Returned(None) => Returned(None)
      case Returned(Some(more)) => AddTokens(rest, more)
  {
    assert ([token] + rest)[1..] == rest;
  }

  lemma NextToken(runs: seq<Run>, s: set<nat>, k: nat)
    requires MaximalRuns(runs, s) && PageNumbers(s) && k < |runs|
    ensures PagesOf(runs[..k + 1]) <= s
    ensures AddToken(PrintRun(runs[k]), PagesOf(runs[..k]))
         == Returned(if |PagesOf(runs[..k + 1])| <= MAX_PAGE_SELECTION_SIZE then Some(PagesOf(runs[..k + 1])) else None)
  {
    var run := runs[k];
    NextRun(runs, s, k);
    assert run.high in PagesFrom(run.low, run.high);
    RunTokenRead(run, PagesOf(runs[..k]));
  }

  lemma {:induction false} TokensRead(runs: seq<Run>, s: set<nat>, k: nat)
    requires MaximalRuns(runs, s) && PageNumbers(s) && k <= |runs|
    requires |PagesOf(runs[..k])| <= MAX_PAGE_SELECTION_SIZE
    ensures AddTokens(PrintEach(runs)[k..], PagesOf(runs[..k])) == Returned(if |s| <= MAX_PAGE_SELECTION_SIZE then Some(s) else None)
    decreases |runs| - k
  {
    if k == |runs| {
      assert runs[..k] == runs;
    } else {
      NextToken(runs, s, k);
      PrintEachAt(runs, k);
      TakeOne(PrintRun(runs[k]), PrintEach(runs)[k + 1..], PagesOf(runs[..k]));
      if |PagesOf(runs[..k + 1])| <= MAX_PAGE_SELECTION_SIZE {
        TokensRead(runs, s, k + 1);
      } else {
        SubsetSize(PagesOf(runs[..k + 1]), s);
      }
    }
  }

  lemma SubsetSize(a: set<nat>, b: set<nat>)
    requires a <= b
    ensures |a| <= |b|
  {
    assert b == a + (b - a);
  }

  lemma {:induction false} JoinEnds(parts: seq<string>)
    requires parts != [] && forall i :: 0 <= i < |parts| ==> parts[i] != ""
    ensures var text := Join(parts, ',');
      text != "" && text[0] == parts[0][0] && text[|text| - 1] == parts[|parts| - 1][|parts[|parts| - 1]| - 1]
  {
    if |parts| > 1 {
      JoinEnds(parts[1..]);
    }
  }

  // Printing a set of positive pages and parsing it back gives the set, or is refused beyond 1000 pages.
  lemma WindowRoundTrip(s: set<nat>)
    requires s != {} && PageNumbers(s)
    ensures Parse(Window(s)) == Returned(if |s| <= MAX_PAGE_SELECTION_SIZE then Some(s) else None)
  {
    var pages := SortedPages(s);
    ListingSize(pages, s);
    RunsAreMaximal(pages, s);
    var runs := RunsOf(pages);
    var tokens := PrintEach(runs);
    PrintedSplits(runs);
    assert runs[..0] == [] && tokens[0..] == tokens;
    TokensRead(runs, s, 0);
  }

  // The parts of a printed window are the printed runs.
  lemma PrintedSplits(runs: seq<Run>)
    requires runs != []
    ensures Strip(PrintRuns(runs)) == PrintRuns(runs) != "" && Split(PrintRuns(runs), ',') == PrintEach(runs)
  {
    var tokens := PrintEach(runs);
    forall i | 0 <= i < |tokens| ensures tokens[i] != "" && ',' !in tokens[i] {
      RunTokenIsBare(runs[i]);
    }
    RunTokenIsBare(runs[0]);
    RunTokenIsBare(runs[|runs| - 1]);
    JoinEnds(tokens);
    StripNothing(Join(tokens, ','));
    SplitJoin(tokens, ',');
  }

  // The printed form of any accepted window is canonical: its ranges are maximal, and reading and
  // printing it again changes nothing.
  lemma WindowCanonical(pages: string)
    requires Names(Parse(pages))
    ensures MaximalRuns(RunsOf(SortedPages(PagesIn(pages))), PagesIn(pages))
    ensures Parse(Window(PagesIn(pages))) == Parse(pages)
  {
    var s := PagesIn(pages);
    ParsedWindowBounded(pages);
    RunsAreMaximal(SortedPages(s), s);
    WindowRoundTrip(s);
  }

  // ---- Bounded selection -------------------------------------------------------------------

  // The pages of a window that are available and not excluded.
  function Eligible(pages: string, available: set<nat>, exclude: set<nat>): set<nat> {
    PagesIn(pages) * available - exclude
  }

  // The first pages of a set, in order.
  function FirstOf(pages: set<nat>, limit: int): seq<nat> {
    var sorted := SortedPages(pages);
    if limit <= 0 then [] else if |sorted| <= limit then sorted else sorted[..limit]
  }

  // The first `limit` eligible pages of a window, in order; a text that raises is not caught.
  method BoundedPageNumbers(pages: string, available: set<nat>, exclude: set<nat>, limit: int) returns (r: Result<seq<nat>>)
    ensures r.Raised? <==> Parse(pages).Raised?
    ensures r.Returned? ==> r.value == FirstOf(Eligible(pages, available, exclude), limit)
  {
    var parsed :- ParsePageWindow(pages);
    if parsed.None? || limit <= 0 {
      assert parsed.None? ==> Eligible(pages, available, exclude) == {};
      return Returned([]);
    }
    var kept: seq<nat> := [];
    for i := 0 to |parsed.value|
      invariant Ascends(kept)
      invariant forall p :: p in kept <==> p in parsed.value[..i] && p in available && p !in exclude
    {
      var page := parsed.value[i];
      assert parsed.value[..i + 1] == parsed.value[..i] + [page];
      forall k | 0 <= k < |kept| ensures kept[k] < page {
        assert kept[k] in kept;
        ghost var j :| 0 <= j < i && parsed.value[j] == kept[k];
      }
      if page in available && page !in exclude {
        kept := kept + [page];
      }
    }
    assert parsed.value[..|parsed.value|] == parsed.value;
    ListingUnique(kept, SortedPages(Eligible(pages, available, exclude)), Eligible(pages, available, exclude));
    return Returned(if |kept| <= limit then kept else kept[..limit]);
  }

  // They are eligible, as many as the limit allows, and none that is left out comes before them.
  lemma FirstOfIs(pages: set<nat>, limit: int)
    ensures var r := FirstOf(pages, limit);
      && Ascends(r) && (forall p :: p in r ==> p in pages)
      && |r| == (if limit <= 0 then 0 else if |pages| < limit then |pages| else limit)
      && forall p, q :: p in r && q in pages && q !in r ==> p < q
  {
    var sorted := SortedPages(pages);
    ListingSize(sorted, pages);
    if 0 < limit < |sorted| {
      forall p, q | p in sorted[..limit] && q in pages && q !in sorted[..limit] ensures p < q {
        var i :| 0 <= i < limit && sorted[i] == p;
        assert q in sorted;
        var j :| 0 <= j < |sorted| && sorted[j] == q;
        assert !(j < limit);
      }
    }
  }

  // ---- What a text names -------------------------------------------------------------------

  // Low and high of a part: the numbers on both sides of its first dash, or the same number twice.
  function Bounds(part: string): (string, string) {
    if '-' in part then RangeEnds(part) else (part, part)
  }

  // Both bounds are numbers, in order, from page 1 on, and a range is not too long.
  ghost predicate NamesPages(token: string) {
    var (low, high) := Bounds(Strip(token));
    && AllCountAsDigits(low) && AllCountAsDigits(high) && Convertible(low) && Convertible(high)
    && 1 <= ParseDecimal(low) <= ParseDecimal(high) && ParseDecimal(high) - ParseDecimal(low) < MAX_PAGE_RANGE_SIZE
  }

  // The pages between the bounds.
  ghost function PagesOfPart(token: string): (pages: set<nat>)
    requires NamesPages(token)
  {
    var (low, high) := Bounds(Strip(token));
    PagesFrom(ParseDecimal(low), ParseDecimal(high))
  }

  // A range must fit beside what has been named, a page of it counted again if it was named before; a
  // single page must fit among it.
  ghost predicate Fits(token: string, selected: set<nat>)
    requires NamesPages(token)
  {
    if '-' in Strip(token) then |selected| + |PagesOfPart(token)| <= MAX_PAGE_SELECTION_SIZE
    else |selected + PagesOfPart(token)| <= MAX_PAGE_SELECTION_SIZE
  }

  lemma TokenNames(token: string, selected: set<nat>)
    ensures Names(AddToken(token, selected)) <==> NamesPages(token) && Fits(token, selected)
    ensures Names(AddToken(token, selected)) ==> AddToken(token, selected).value.value == selected + PagesOfPart(token)
  {
    var part := Strip(token);
    if part == "" {
      assert '-' !in part;
    } else if NamesPages(token) {
      var (low, high) := Bounds(part);
      PagesCount(ParseDecimal(low), ParseDecimal(high));
      assert low == high ==> PagesFrom(ParseDecimal(low), ParseDecimal(high)) == {ParseDecimal(low)};
    }
  }

  // The parts name pages, and each fits beside those before it.
  ghost predicate AllFit(tokens: seq<string>, selected: set<nat>) {
    tokens != [] ==>
      NamesPages(tokens[0]) && Fits(tokens[0], selected) && AllFit(tokens[1..], selected + PagesOfPart(tokens[0]))
  }

  ghost function PagesOfParts(tokens: seq<string>): set<nat>
    requires forall i :: 0 <= i < |tokens| ==> NamesPages(tokens[i])
  {
    if tokens == [] then {} else PagesOfPart(tokens[0]) + PagesOfParts(tokens[1..])
  }

  lemma {:induction false} TokensName(tokens: seq<string>, selected: set<nat>)
    ensures Names(AddTokens(tokens, selected)) <==> AllFit(tokens, selected)
    ensures AllFit(tokens, selected) ==>
      (forall i :: 0 <= i < |tokens| ==> NamesPages(tokens[i]))
      && AddTokens(tokens, selected).value.value == selected + PagesOfParts(tokens)
  {
    if tokens != [] {
      TokenNames(tokens[0], selected);
      if Names(AddToken(tokens[0], selected)) {
        TokensName(tokens[1..], selected + PagesOfPart(tokens[0]));
      }
    }
  }

  // A text names pages if and only if it is not blank and its parts, taken in turn, name some and fit; it
  // then names those of all its parts.
  lemma WindowNames(text: string)
    ensures var tokens := Split(Strip(text), ',');
      && (Names(Parse(text)) <==> Strip(text) != "" && AllFit(tokens, {}))
      && (Names(Parse(text)) ==> (forall i :: 0 <= i < |tokens| ==> NamesPages(tokens[i])) && PagesIn(text) == PagesOfParts(tokens))
  {
    var tokens := Split(Strip(text), ',');
    TokensName(tokens, {});
    if AllFit(tokens, {}) { SomeNamed(tokens); }
  }

  lemma SomeNamed(tokens: seq<string>)
    requires tokens != [] && forall i :: 0 <= i < |tokens| ==> NamesPages(tokens[i])
    ensures PagesOfParts(tokens) != {}
  {
    var (low, high) := Bounds(Strip(tokens[0]));
    assert ParseDecimal(low) in PagesOfPart(tokens[0]);
  }

  // So pages that two ranges have in common are counted twice: a text may be refused though it names no
  // more than a thousand pages.
  lemma OverlapCounted(text: string, part: string)
    requires Strip(text) == text != "" && Split(text, ',') == [part, part] && '-' in Strip(part) && NamesPages(part)
    ensures Names(Parse(text)) <==> 2 * |PagesOfPart(part)| <= MAX_PAGE_SELECTION_SIZE
  {
    WindowNames(text);
    FitsOnce(part);
    FitsTwice(part, PagesOfPart(part));
  }

  lemma FitsOnce(part: string)
    requires NamesPages(part)
    ensures |PagesOfPart(part)| <= MAX_PAGE_SELECTION_SIZE
  {
    var (low, high) := Bounds(Strip(part));
    PagesCount(ParseDecimal(low), ParseDecimal(high));
  }

  lemma FitsTwice(part: string, pages: set<nat>)
    requires '-' in Strip(part) && NamesPages(part) && pages == PagesOfPart(part) && |pages| <= MAX_PAGE_SELECTION_SIZE
    ensures AllFit([part, part], {}) <==> 2 * |pages| <= MAX_PAGE_SELECTION_SIZE
  {
    assert [part, part][1..] == [part] && [part][1..] == [];
    assert {} + pages == pages;
    assert AllFit([part], pages) <==> Fits(part, pages);
  }
}
