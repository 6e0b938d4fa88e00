/**
 What the replies have to do with the selection: one reply selects the first documents it names, and
 the tournament ends with what its last reply selects
 (services/retrieval_api/select_documents.py).
 */
module TournamentReplies {

  import opened Outcome
  import opened Text
  import opened Tournament

  // ---- Order -------------------------------------------------------------------------------

  // What is kept of a front of the documents comes first: nothing later moves or replaces it.
  lemma {:induction false} OthersInOrder(docs: seq<Doc>, n: nat, ids: set<string>)
    requires n <= |docs|
    ensures Others(docs[..n], ids) <= Others(docs, ids)
  {
    if n < |docs| {
      var last := |docs| - 1;
      assert docs[..last][..n] == docs[..n];
      OthersInOrder(docs[..last], n, ids);
    } else {
      assert docs[..n] == docs;
    }
  }

  lemma FirstsNext(docs: seq<Doc>)
    requires docs != []
    ensures Deduplicated(docs[..|docs| - 1]) <= Deduplicated(docs)
  {
  }

  lemma {:induction false} FirstsInOrder(docs: seq<Doc>, n: nat)
    requires n <= |docs|
    ensures Deduplicated(docs[..n]) <= Deduplicated(docs)
  {
    if n < |docs| {
      var front := docs[..|docs| - 1];
      assert front[..n] == docs[..n];
      FirstsInOrder(front, n);
      FirstsNext(docs);
      PrefixAcross(Deduplicated(front[..n]), Deduplicated(front), Deduplicated(docs));
    } else {
      assert docs[..n] == docs;
    }
  }

  lemma PrefixAcross(a: seq<Doc>, b: seq<Doc>, c: seq<Doc>)
    requires a <= b <= c
    ensures a <= c
  {
  }

  lemma {:induction false} MatchedInOrder(ranked: seq<Ranked>, n: nat)
    requires n <= |ranked|
    ensures MatchedIn(ranked[..n]) <= MatchedIn(ranked)
    ensures forall entry :: entry in MatchedIn(ranked) <==> entry in ranked && entry.matched
  {
    if ranked != [] {
      var last := |ranked| - 1;
      assert ranked == ranked[..last] + [ranked[last]];
      if n < |ranked| {
        assert ranked[..last][..n] == ranked[..n];
        MatchedInOrder(ranked[..last], n);
      } else {
        assert ranked[..n] == ranked;
        MatchedInOrder(ranked[..last], last);
      }
    }
  }

  // A batch is scored by its first and its last match.
  lemma BatchScored(ranked: seq<Ranked>, i: nat, j: nat)
    requires i <= j < |ranked| && ranked[i].matched && ranked[j].matched
    requires forall k :: (0 <= k < i || j < k < |ranked|) ==> !ranked[k].matched
    ensures BatchOf(ranked) == Batch(Documents(ranked), ranked[i].score, ranked[j].score, true)
  {
    NoneMatched(ranked[..i]);
    MatchedSnoc(ranked[..i], ranked[i]);
    assert ranked[..i] + [ranked[i]] == ranked[..i + 1];
    MatchedInOrder(ranked, i + 1);
    MatchedUpTo(ranked, j);
  }

  lemma MatchedSnoc(ranked: seq<Ranked>, entry: Ranked)
    ensures MatchedIn(ranked + [entry]) == MatchedIn(ranked) + if entry.matched then [entry] else []
  {
    assert (ranked + [entry])[..|ranked|] == ranked;
  }

  lemma {:induction false} NoneMatched(ranked: seq<Ranked>)
    requires forall k :: 0 <= k < |ranked| ==> !ranked[k].matched
    ensures MatchedIn(ranked) == []
  {
    if ranked != [] { NoneMatched(ranked[..|ranked| - 1]); }
  }

  lemma {:induction false} MatchedUpTo(ranked: seq<Ranked>, j: nat)
    requires j < |ranked| && ranked[j].matched && forall k :: j < k < |ranked| ==> !ranked[k].matched
    ensures var matched := MatchedIn(ranked); matched != [] && matched[|matched| - 1] == ranked[j]
    decreases |ranked|
  {
    if j < |ranked| - 1 { MatchedUpTo(ranked[..|ranked| - 1], j); }
  }

  // Without a match it has no scores.
  lemma BatchUnmatched(ranked: seq<Ranked>)
    requires forall k :: 0 <= k < |ranked| ==> !ranked[k].matched
    ensures BatchOf(ranked) == Batch(Documents(ranked), 0.0, 0.0, false)
  {
    NoneMatched(ranked);
  }

  // ---- One reply ---------------------------------------------------------------------------

  ghost predicate Names(docs: seq<Doc>, k: int, identifier: string) {
    0 <= k < |docs| && Id(docs[k]) != "" && (identifier == Id(docs[k]) || identifier == Alias(k))
  }

  // An identifier names the last document that has it for an id or an alias, and nothing when there is none.
  lemma {:induction false} NamedExactly(docs: seq<Doc>, n: nat, identifier: string)
    requires n <= |docs|
    ensures match Named(docs, n, identifier)
      case Some(d) => exists k :: 0 <= k < n && Names(docs, k, identifier) && docs[k] == d && forall i :: k < i < n ==> !Names(docs, i, identifier)
      case None => forall i :: 0 <= i < n ==> !Names(docs, i, identifier)
  {
    if n > 0 {
      if Names(docs, n - 1, identifier) {
        assert Named(docs, n, identifier) == Some(docs[n - 1]);
      } else {
        assert Named(docs, n, identifier) == Named(docs, n - 1, identifier);
        NamedExactly(docs, n - 1, identifier);
      }
    }
  }

  // The documents that identifiers name, each once, in the order in which they are first named; and how
  // many identifiers name none.
  function NamedBy(docs: seq<Doc>, identifiers: seq<string>): seq<Doc> {
    if identifiers == [] then []
    else
      var n := |identifiers| - 1;
      var before, named := NamedBy(docs, identifiers[..n]), Named(docs, |docs|, identifiers[n]);
      if named.None? || named.value.id in IdsOf(before) then before else before + [named.value]
  }

  function Unnamed(docs: seq<Doc>, identifiers: seq<string>): nat {
    if identifiers == [] then 0
    else
      var n := |identifiers| - 1;
      Unnamed(docs, identifiers[..n]) + if Named(docs, |docs|, identifiers[n]).None? then 1 else 0
  }

  // The identifiers that are looked at: all of them, or as many as it takes to fill the selection.
  ghost predicate LookedAt(docs: seq<Doc>, limit: nat, identifiers: seq<string>, cut: nat) {
    && cut <= |identifiers|
    && (cut < |identifiers| ==> |NamedBy(docs, identifiers[..cut])| == limit)
    && |NamedBy(docs, identifiers[..cut])| <= limit
    && (cut > 0 ==> |NamedBy(docs, identifiers[..cut - 1])| < limit)
  }

  // What has been picked once `i` identifiers have been looked at.
  function PickedBy(docs: seq<Doc>, invalid: nat, identifiers: seq<string>, i: nat): Picks
    requires i <= |identifiers|
  {
    Picks(NamedBy(docs, identifiers[..i]), invalid + Unnamed(docs, identifiers[..i]))
  }

  lemma PickNext(docs: seq<Doc>, limit: nat, invalid: nat, identifiers: seq<string>, i: nat)
    requires i < |identifiers| && |NamedBy(docs, identifiers[..i])| < limit
    ensures Pick(docs, limit, identifiers[i..], PickedBy(docs, invalid, identifiers, i)) ==
      if |NamedBy(docs, identifiers[..i + 1])| >= limit then PickedBy(docs, invalid, identifiers, i + 1)
      else Pick(docs, limit, identifiers[i + 1..], PickedBy(docs, invalid, identifiers, i + 1))
  {
    assert identifiers[..i + 1][..i] == identifiers[..i];
    assert identifiers[i..][0] == identifiers[i] && identifiers[i..][1..] == identifiers[i + 1..];
  }

  lemma {:induction false} PickedAre(docs: seq<Doc>, limit: nat, invalid: nat, identifiers: seq<string>, i: nat) returns (cut: nat)
    requires i <= |identifiers| && |NamedBy(docs, identifiers[..i])| < limit
    ensures LookedAt(docs, limit, identifiers, cut)
    ensures Pick(docs, limit, identifiers[i..], PickedBy(docs, invalid, identifiers, i)) == PickedBy(docs, invalid, identifiers, cut)
    decreases |identifiers| - i
  {
    if i == |identifiers| {
      cut := i;
      if i > 0 { FewerNamed(docs, identifiers, i - 1); }
    } else {
      PickNext(docs, limit, invalid, identifiers, i);
      if |NamedBy(docs, identifiers[..i + 1])| >= limit {
        FewerNamed(docs, identifiers, i);
        cut := i + 1;
      } else {
        cut := PickedAre(docs, limit, invalid, identifiers, i + 1);
      }
    }
  }

  lemma FewerNamed(docs: seq<Doc>, identifiers: seq<string>, i: nat)
    requires i < |identifiers|
    ensures |NamedBy(docs, identifiers[..i])| <= |NamedBy(docs, identifiers[..i + 1])| <= |NamedBy(docs, identifiers[..i])| + 1
  {
    assert identifiers[..i + 1][..i] == identifiers[..i];
  }

  // A reply with identifiers selects the documents they name, in order, up to the limit, and is complete
  // if and only if it was not cut off and every item that was looked at names one. The other replies
  // select nothing, for the reason given.
  lemma ReplySelects(docs: seq<Doc>, limit: nat, reply: Reply) returns (cut: nat)
    requires limit > 0
    ensures var selection := SelectionFor(docs, limit, reply);
      && (reply.NoCompletion? ==> selection == Selection([], ProviderError))
      && (reply.Unparsed? ==> selection == Selection([], Malformed))
      && (reply.Answer? && reply.identifiers == [] ==>
            selection == Selection([], if reply.invalid > 0 then Malformed else if reply.truncated then Partial else ExplicitEmpty))
      && (reply.Answer? && reply.identifiers != [] ==> Answers(docs, limit, reply, cut, selection))
  {
    cut := 0;
    if reply.Answer? {
      cut := PickedAre(docs, limit, reply.invalid, reply.identifiers, 0);
      assert reply.identifiers[0..] == reply.identifiers;
    }
  }

  ghost predicate Answers(docs: seq<Doc>, limit: nat, reply: Reply, cut: nat, selection: Selection)
    requires reply.Answer?
  {
    && LookedAt(docs, limit, reply.identifiers, cut)
    && selection.documents == NamedBy(docs, reply.identifiers[..cut])
    && (selection.documents == [] <==> selection.outcome == InvalidIds)
    && (selection.outcome == Selected <==>
          selection.documents != [] && reply.invalid == 0 && Unnamed(docs, reply.identifiers[..cut]) == 0 && !reply.truncated)
    && selection.outcome in {Selected, Partial, InvalidIds}
  }

  // ---- One round ---------------------------------------------------------------------------

  // The batch that begins at a position, and what it sends on: what the reply picks, or its first documents
  // when the reply failed.
  ghost predicate Sends(docs: seq<Doc>, index: nat, limit: nat, reply: Reply, sent: seq<Doc>)
    requires index < |docs|
  {
    var batch := docs[index..if index + DEFAULT_PREFILTER_LIMIT < |docs| then index + DEFAULT_PREFILTER_LIMIT else |docs|];
    var selection := SelectionFor(batch, limit, reply);
    if selection.documents != [] then sent == selection.documents
    else if selection.outcome == ExplicitEmpty then sent == []
    else sent == batch[..if limit < |batch| then limit else |batch|]
  }

  lemma BatchIs(docs: seq<Doc>, index: nat)
    requires index < |docs|
    ensures BatchAt(docs, index) == docs[index..if index + DEFAULT_PREFILTER_LIMIT < |docs| then index + DEFAULT_PREFILTER_LIMIT else |docs|]
  {
    assert docs[index..][..|docs| - index] == docs[index..];
  }

  // A round takes the batches in turn, one reply each, and sends on what they send, in their order; it has
  // failed in part if it had before or one of its replies did.
  lemma RoundSends(docs: seq<Doc>, index: nat, limit: nat, replies: nat -> Reply, round: Round) returns (sent: seq<Doc>)
    requires index < |docs| && limit > 0
    ensures Sends(docs, index, limit, replies(round.call), sent)
    ensures RoundFrom(docs, index, limit, replies, round)
         == RoundFrom(docs, index + DEFAULT_PREFILTER_LIMIT, limit, replies,
                      Round(round.documents + sent,
                            round.technical || SelectionFor(BatchAt(docs, index), limit, replies(round.call)).outcome !in {Selected, ExplicitEmpty},
                            round.call + 1))
    ensures index + DEFAULT_PREFILTER_LIMIT >= |docs| ==>
      RoundFrom(docs, index, limit, replies, round).documents == round.documents + sent && RoundFrom(docs, index, limit, replies, round).call == round.call + 1
  {
    var batch, reply := BatchAt(docs, index), replies(round.call);
    BatchIs(docs, index);
    sent := SentOn(batch, limit, reply);
    SelectionSound(batch, limit, reply);
    var outcome := SelectionFor(batch, limit, reply).outcome;
    assert Technical(outcome) <==> outcome !in {Selected, ExplicitEmpty};
  }

  // ---- The end of the tournament ---------------------------------------------------------------

  // The last pool, the call whose reply decides, and how it does: a pool within the limit is taken whole; a
  // pool that fits one batch is left to that reply; and when the reply selects nothing, or the pool could
  // not be reduced, the first of the pool are taken for want of better.
  ghost predicate EndsWith(pool: seq<Doc>, limit: nat, partial: bool, replies: nat -> Reply, last: nat, result: Selection) {
    var picked := SelectionFor(pool, limit, replies(last));
    if |pool| > DEFAULT_PREFILTER_LIMIT then Stuck(pool, limit, partial, replies, last) && result == Selection(Take(pool, limit), Partial)
    else if |pool| <= limit then result == Selection(pool, if partial then Partial else Selected)
    else if picked.documents == [] then result == Selection(pool[..limit], Partial)
    else result == Selection(picked.documents, if partial || picked.outcome != Selected then Partial else Selected)
  }

  // A round over the pool sends nothing on, or no fewer documents.
  ghost predicate Stuck(pool: seq<Doc>, limit: nat, partial: bool, replies: nat -> Reply, call: nat) {
    var sent := Deduplicated(RoundFrom(pool, 0, limit, replies, Round([], partial, call)).documents);
    sent == [] || |sent| >= |pool|
  }

  // What comes out of the tournament is what its last reply selects from the last pool, or as much of that
  // pool as there is room for. The last pool is the first one if it fits one batch, and otherwise no larger,
  // of its documents, and each once.
  lemma {:induction false} TournamentEnds(docs: seq<Doc>, limit: nat, partial: bool, replies: nat -> Reply, call: nat)
    returns (pool: seq<Doc>, failed: bool, last: nat)
    requires limit > 0 && KeysDistinct(docs) && From(docs, docs)
    ensures EndsWith(pool, limit, failed, replies, last, Reranked(docs, limit, partial, replies, call))
    ensures |pool| <= |docs| && KeysDistinct(pool) && From(pool, docs) && (partial ==> failed) && call <= last
    ensures |docs| <= DEFAULT_PREFILTER_LIMIT ==> pool == docs && failed == partial && last == call
    decreases |docs|
  {
    pool, failed, last := docs, partial, call;
    SelectionSound(docs, limit, replies(call));
    if |docs| > DEFAULT_PREFILTER_LIMIT {
      var round := RoundFrom(docs, 0, limit, replies, Round([], partial, call));
      var reduced := Deduplicated(round.documents);
      RoundFromPool(docs, 0, limit, replies, Round([], partial, call));
      DeduplicatedSound(round.documents);
      RoundGrows(docs, 0, limit, replies, Round([], partial, call));
      if reduced != [] && |reduced| < |docs| {
        pool, failed, last := TournamentEnds(reduced, limit, round.technical, replies, round.call);
      }
    }
  }

  lemma {:induction false} RoundGrows(docs: seq<Doc>, index: nat, limit: nat, replies: nat -> Reply, round: Round)
    ensures var after := RoundFrom(docs, index, limit, replies, round);
      (round.technical ==> after.technical) && round.call <= after.call && round.documents <= after.documents
    decreases |docs| - index
  {
    if index < |docs| {
      var batch, reply := BatchAt(docs, index), replies(round.call);
      RoundGrows(docs, index + DEFAULT_PREFILTER_LIMIT, limit, replies,
                 Round(round.documents + SentOn(batch, limit, reply),
                       round.technical || Technical(SelectionFor(batch, limit, reply).outcome), round.call + 1));
    }
  }
}
