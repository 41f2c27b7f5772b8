/** One search: reranking, selection, trace and citations together. */
module Search {
  import opened Outcomes
  import opened Retrieval

  // ---- Accepting a rerank response ----------------------------------------------------------

  datatype Scored = Scored(ref: Ref, fused: real)

  datatype Reranked = Reranked(chunk: Scored, score: real)

  /** An entry of the response: an index with a finite score, one with a score that is not
      finite, or something that cannot be read. */
  datatype Entry = Entry(index: int, score: real) | NotFinite(index: int) | Malformed

  predicate EntryValid(entry: Entry, n: nat) {
    entry.Entry? && 0 <= entry.index < n
  }

  predicate DistinctIndexes(entries: seq<Entry>) {
    forall i, j :: 0 <= i < j < |entries| && entries[i].Entry? && entries[j].Entry? ==> entries[i].index != entries[j].index
  }

  /** What _parse_response demands: as many entries as chunks, each index in range and once. */
  predicate Accepted(entries: seq<Entry>, n: nat) {
    |entries| == n && (forall i :: 0 <= i < |entries| ==> EntryValid(entries[i], n)) && DistinctIndexes(entries)
  }

  function RerankedBy(entries: seq<Entry>, chunks: seq<Scored>): (reranked: seq<Reranked>)
    requires forall i :: 0 <= i < |entries| ==> EntryValid(entries[i], |chunks|)
    ensures |reranked| == |entries|
  {
    seq(|entries|, i requires 0 <= i < |entries| && EntryValid(entries[i], |chunks|) => Reranked(chunks[entries[i].index], entries[i].score))
  }

  method ParseResponse(entries: Option<seq<Entry>>, chunks: seq<Scored>) returns (outcome: Outcome<seq<Reranked>, ()>)
    ensures outcome.Ok? <==> entries.Some? && Accepted(entries.value, |chunks|)
    ensures outcome.Ok? ==> outcome.value == RerankedBy(entries.value, chunks)
  {
    if entries.None? || |entries.value| != |chunks| {
      return Err(());
    }
    var results := entries.value;
    var reranked: seq<Reranked>, seen: set<int> := [], {};
    var k := 0;
    while k < |results|
      invariant 0 <= k <= |results|
      invariant forall i :: 0 <= i < k ==> EntryValid(results[i], |chunks|)
      invariant DistinctIndexes(results[..k])
      invariant forall x :: x in seen <==> exists i :: 0 <= i < k && results[i].index == x
      invariant reranked == RerankedBy(results[..k], chunks)
    {
      var entry := results[k];
      if entry.Malformed? {
        return Err(());
      }
      if entry.index < 0 || entry.index >= |chunks| || entry.index in seen {
        return Err(());
      }
      if entry.NotFinite? {
        return Err(());
      }
      seen := seen + {entry.index};
      reranked := reranked + [Reranked(chunks[entry.index], entry.score)];
      assert results[..k + 1] == results[..k] + [entry];
      k := k + 1;
    }
    assert results[..k] == results;
    return Ok(reranked);
  }

  // ---- An accepted response is a permutation ---------------------------------------------------

  function Indexes(entries: seq<Entry>): (indexes: seq<int>)
    requires forall i :: 0 <= i < |entries| ==> entries[i].Entry?
    ensures |indexes| == |entries|
  {
    seq(|entries|, i requires 0 <= i < |entries| => entries[i].index)
  }

  predicate DistinctBelow(indexes: seq<int>, n: nat) {
    && (forall i :: 0 <= i < |indexes| ==> 0 <= indexes[i] < n)
    && (forall i, j :: 0 <= i < j < |indexes| ==> indexes[i] != indexes[j])
  }

  function Without<T>(xs: seq<T>, p: nat): seq<T>
    requires p < |xs|
  {
    xs[..p] + xs[p + 1..]
  }

  /** Distinct numbers below n are at most n many, and n of them include the greatest. */
  lemma {:induction false} Pigeonhole(indexes: seq<int>, n: nat)
    requires DistinctBelow(indexes, n)
    ensures |indexes| <= n
    ensures |indexes| == n > 0 ==> n - 1 in indexes
    decreases n
  {
    if indexes != [] {
      assert 0 <= indexes[0] < n;
      if p :| 0 <= p < |indexes| && indexes[p] == n - 1 {
        GreatestRemoved(indexes, n, p);
        Pigeonhole(Without(indexes, p), n - 1);
      } else {
        assert DistinctBelow(indexes, n - 1);
        Pigeonhole(indexes, n - 1);
      }
    }
  }

  function Picked<T>(xs: seq<T>, indexes: seq<int>): seq<T>
    requires DistinctBelow(indexes, |xs|)
  {
    seq(|indexes|, i requires 0 <= i < |indexes| => xs[indexes[i]])
  }

  lemma {:induction false} PickedIsPermutation<T>(xs: seq<T>, indexes: seq<int>)
    requires DistinctBelow(indexes, |xs|) && |indexes| == |xs|
    ensures multiset(Picked(xs, indexes)) == multiset(xs)
    decreases |xs|
  {
    hide DistinctBelow;
    if xs != [] {
      var n := |xs| - 1;
      Pigeonhole(indexes, |xs|);
      var p :| 0 <= p < |indexes| && indexes[p] == n;
      var rest := Without(indexes, p);
      GreatestRemoved(indexes, |xs|, p);
      PickedIsPermutation(xs[..n], rest);
      PickedSplit(xs, indexes, p);
      InsertedAnywhere(Picked(xs[..n], rest), p, xs[n]);
      assert xs == xs[..n] + [xs[n]];
    }
  }

  lemma GreatestRemoved(indexes: seq<int>, n: nat, p: nat)
    requires n > 0 && DistinctBelow(indexes, n) && p < |indexes| && indexes[p] == n - 1
    ensures DistinctBelow(Without(indexes, p), n - 1)
  {
  }

  lemma InsertedAnywhere<T>(xs: seq<T>, p: nat, x: T)
    requires p <= |xs|
    ensures multiset(xs[..p] + [x] + xs[p..]) == multiset(xs) + multiset{x}
  {
    assert xs == xs[..p] + xs[p..];
  }

  lemma PickedSplit<T>(xs: seq<T>, indexes: seq<int>, p: nat)
    requires xs != [] && DistinctBelow(indexes, |xs|) && p < |indexes| && indexes[p] == |xs| - 1
    requires DistinctBelow(Without(indexes, p), |xs| - 1)
    ensures var short := Picked(xs[..|xs| - 1], Without(indexes, p));
            Picked(xs, indexes) == short[..p] + [xs[|xs| - 1]] + short[p..]
  {
  }

  function ChunksOf(reranked: seq<Reranked>): (chunks: seq<Scored>)
    ensures |chunks| == |reranked|
  {
    seq(|reranked|, i requires 0 <= i < |reranked| => reranked[i].chunk)
  }

  /** An accepted response reorders the chunks: none is lost and none is repeated. */
  lemma AcceptedIsPermutation(entries: seq<Entry>, chunks: seq<Scored>)
    requires Accepted(entries, |chunks|)
    ensures multiset(ChunksOf(RerankedBy(entries, chunks))) == multiset(chunks)
  {
    assert DistinctBelow(Indexes(entries), |chunks|);
    PickedIsPermutation(chunks, Indexes(entries));
    assert ChunksOf(RerankedBy(entries, chunks)) == Picked(chunks, Indexes(entries));
  }

  /** IdentityReranker */
  function Unchanged(chunks: seq<Scored>): seq<Reranked> {
    seq(|chunks|, i requires 0 <= i < |chunks| => Reranked(chunks[i], chunks[i].fused))
  }

  // ---- _build_trace -------------------------------------------------------------------------------

  datatype Status = IsSelected | IsActive | IsFiltered

  datatype Trace = Trace(chunk: Id, rank: nat, score: real, status: Status, reason: Reason)

  function TraceAt(candidates: seq<Candidate>, rankById: map<Id, nat>, resolved: seq<Ref>, reasons: map<Id, Reason>, i: nat): Trace
    requires i < |candidates| && candidates[i].chunk in rankById
    requires HasChunk(resolved, candidates[i].chunk) ==> candidates[i].chunk in reasons
  {
    var c := candidates[i].chunk;
    if rankById[c] != i + 1 then
      Trace(c, i + 1, candidates[i].score, if HasChunk(resolved, c) then IsActive else IsFiltered, DuplicateChunk)
    else if !HasChunk(resolved, c) then Trace(c, i + 1, candidates[i].score, IsFiltered, FilteredOut)
    else Trace(c, i + 1, candidates[i].score, if reasons[c] == Selected then IsSelected else IsActive, reasons[c])
  }

  /** Every lookup of _build_trace finds its key. */
  predicate KeysPresent(candidates: seq<Candidate>, rankById: map<Id, nat>, resolved: seq<Ref>, reasons: map<Id, Reason>) {
    forall i :: 0 <= i < |candidates| ==>
      candidates[i].chunk in rankById && (HasChunk(resolved, candidates[i].chunk) ==> candidates[i].chunk in reasons)
  }

  method BuildTrace(candidates: seq<Candidate>, rankById: map<Id, nat>, resolved: seq<Ref>, reasons: map<Id, Reason>)
    returns (traced: seq<Trace>)
    requires KeysPresent(candidates, rankById, resolved, reasons)
    ensures |traced| == |candidates|
    ensures forall i :: 0 <= i < |candidates| ==> traced[i] == TraceAt(candidates, rankById, resolved, reasons, i)
  {
    var resolvedIds := set ref | ref in resolved :: ref.chunk;
    traced := [];
    var k := 0;
    while k < |candidates|
      invariant 0 <= k <= |candidates| && |traced| == k
      invariant forall i :: 0 <= i < k ==> traced[i] == TraceAt(candidates, rankById, resolved, reasons, i)
    {
      var candidate := candidates[k];
      var c := candidate.chunk;
      ResolvedIds(resolved, c);
      var status, reason := IsFiltered, FilteredOut;
      if rankById[c] != k + 1 {
        status := if c in resolvedIds then IsActive else IsFiltered;
        reason := DuplicateChunk;
      } else if c in resolvedIds {
        reason := reasons[c];
        status := if reason == Selected then IsSelected else IsActive;
      }
      traced := traced + [Trace(c, k + 1, candidate.score, status, reason)];
      k := k + 1;
    }
  }

  lemma ResolvedIds(resolved: seq<Ref>, c: Id)
    ensures c in (set ref | ref in resolved :: ref.chunk) <==> HasChunk(resolved, c)
  {
    if HasChunk(resolved, c) {
      var i :| 0 <= i < |resolved| && resolved[i].chunk == c;
      assert resolved[i] in resolved;
    }
    if c in (set ref | ref in resolved :: ref.chunk) {
      var ref :| ref in resolved && ref.chunk == c;
      var i :| 0 <= i < |resolved| && resolved[i] == ref;
    }
  }

  predicate IsSelectedEntry(trace: Trace) {
    trace.reason == Selected && trace.status == IsSelected
  }

  /** The trace of position i says "selected" exactly for the canonical occurrence of a chosen
      chunk. */
  predicate TraceAgrees(candidates: seq<Candidate>, ranked: seq<Ref>, traced: seq<Trace>) {
    && |traced| == |candidates|
    && (forall i :: 0 <= i < |traced| && IsSelectedEntry(traced[i]) ==> HasChunk(RefsAt(ranked, Chosen(ranked, |ranked|)), traced[i].chunk))
    && (forall x :: 0 <= x < |Chosen(ranked, |ranked|)| ==> HasSelectedEntry(traced, RefsAt(ranked, Chosen(ranked, |ranked|))[x].chunk))
    && (forall i, j :: 0 <= i < j < |traced| && IsSelectedEntry(traced[i]) && IsSelectedEntry(traced[j]) ==> traced[i].chunk != traced[j].chunk)
  }

  predicate HasSelectedEntry(traced: seq<Trace>, c: Id) {
    exists i :: 0 <= i < |traced| && traced[i].chunk == c && IsSelectedEntry(traced[i])
  }

  ghost predicate Consistent(candidates: seq<Candidate>, byId: map<Id, Candidate>, rankById: map<Id, nat>, ranked: seq<Ref>, reasons: map<Id, Reason>) {
    && Canonical(candidates, |candidates|, byId, rankById)
    && Distinct(ranked) && (forall i :: 0 <= i < |ranked| ==> ranked[i].chunk in rankById)
    && ReasonsFit(ranked, |ranked|, reasons)
  }

  lemma ConsistentHasKeys(candidates: seq<Candidate>, byId: map<Id, Candidate>, rankById: map<Id, nat>, ranked: seq<Ref>, reasons: map<Id, Reason>)
    requires Consistent(candidates, byId, rankById, ranked, reasons)
    ensures KeysPresent(candidates, rankById, ranked, reasons)
  {
    forall i | 0 <= i < |candidates| && HasChunk(ranked, candidates[i].chunk)
      ensures candidates[i].chunk in reasons
    {
      var x :| 0 <= x < |ranked| && ranked[x].chunk == candidates[i].chunk;
    }
  }

  lemma {:induction false} SelectedEntryIsChosen(candidates: seq<Candidate>, byId: map<Id, Candidate>, rankById: map<Id, nat>, ranked: seq<Ref>,
                              reasons: map<Id, Reason>, i: nat)
    requires Consistent(candidates, byId, rankById, ranked, reasons) && i < |candidates|
    requires KeysPresent(candidates, rankById, ranked, reasons) && IsSelectedEntry(TraceAt(candidates, rankById, ranked, reasons, i))
    ensures HasChunk(RefsAt(ranked, Chosen(ranked, |ranked|)), candidates[i].chunk) && rankById[candidates[i].chunk] == i + 1
  {
    hide ReasonAt, Chosen;
    var x :| 0 <= x < |ranked| && ranked[x].chunk == candidates[i].chunk;
    ChosenIff(ranked, |ranked|, x);
    var y :| 0 <= y < |Chosen(ranked, |ranked|)| && Chosen(ranked, |ranked|)[y] == x;
    assert RefsAt(ranked, Chosen(ranked, |ranked|))[y] == ranked[x];
  }

  lemma {:induction false} ChosenIsTraced(candidates: seq<Candidate>, byId: map<Id, Candidate>, rankById: map<Id, nat>, ranked: seq<Ref>,
                       reasons: map<Id, Reason>, y: nat)
    requires Consistent(candidates, byId, rankById, ranked, reasons) && KeysPresent(candidates, rankById, ranked, reasons)
    requires y < |Chosen(ranked, |ranked|)|
    ensures var c := RefsAt(ranked, Chosen(ranked, |ranked|))[y].chunk;
            && c in rankById && 1 <= rankById[c] <= |candidates|
            && candidates[rankById[c] - 1].chunk == c
            && IsSelectedEntry(TraceAt(candidates, rankById, ranked, reasons, rankById[c] - 1))
  {
    hide ReasonAt, Chosen;
    var x := Chosen(ranked, |ranked|)[y];
    var c := ranked[x].chunk;
    ChosenIff(ranked, |ranked|, x);
    assert EntryFits(candidates, |candidates|, c, byId[c], rankById[c]);
  }

  /** The entries of the trace marked selected and the citations match one to one. */
  lemma TraceMatchesCitations(candidates: seq<Candidate>, byId: map<Id, Candidate>, rankById: map<Id, nat>, ranked: seq<Ref>,
                              reasons: map<Id, Reason>, traced: seq<Trace>)
    requires Consistent(candidates, byId, rankById, ranked, reasons) && KeysPresent(candidates, rankById, ranked, reasons)
    requires |traced| == |candidates|
    requires forall i :: 0 <= i < |candidates| ==> traced[i] == TraceAt(candidates, rankById, ranked, reasons, i)
    ensures TraceAgrees(candidates, ranked, traced)
  {
    hide ReasonAt, Chosen, Consistent, KeysPresent;
    forall i | 0 <= i < |traced| && IsSelectedEntry(traced[i])
      ensures HasChunk(RefsAt(ranked, Chosen(ranked, |ranked|)), traced[i].chunk)
      ensures traced[i].chunk in rankById && rankById[traced[i].chunk] == i + 1
    {
      KeyAt(candidates, rankById, ranked, reasons, i);
      SelectedEntryIsChosen(candidates, byId, rankById, ranked, reasons, i);
    }
    forall y | 0 <= y < |Chosen(ranked, |ranked|)|
      ensures HasSelectedEntry(traced, RefsAt(ranked, Chosen(ranked, |ranked|))[y].chunk)
    {
      ChosenIsTraced(candidates, byId, rankById, ranked, reasons, y);
      var c := RefsAt(ranked, Chosen(ranked, |ranked|))[y].chunk;
      KeyAt(candidates, rankById, ranked, reasons, rankById[c] - 1);
      assert traced[rankById[c] - 1].chunk == c;
    }
  }

  lemma KeyAt(candidates: seq<Candidate>, rankById: map<Id, nat>, ranked: seq<Ref>, reasons: map<Id, Reason>, i: nat)
    requires KeysPresent(candidates, rankById, ranked, reasons) && i < |candidates|
    ensures candidates[i].chunk in rankById && (HasChunk(ranked, candidates[i].chunk) ==> candidates[i].chunk in reasons)
  {
  }

  // ---- The whole search ------------------------------------------------------------------------------

  predicate KeyDistinct<T(!new)>(xs: seq<T>, key: T -> Id) {
    forall i, j :: 0 <= i < j < |xs| ==> key(xs[i]) != key(xs[j])
  }

  lemma {:induction false} DistinctOnce<T(!new)>(xs: seq<T>, key: T -> Id, x: T)
    requires KeyDistinct(xs, key)
    ensures multiset(xs)[x] <= 1
  {
    if xs != [] {
      var init, last := xs[..|xs| - 1], xs[|xs| - 1];
      assert xs == init + [last];
      DistinctOnce(init, key, x);
      assert x == last ==> x !in init;
    }
  }

  lemma TwiceCounts<T>(xs: seq<T>, i: nat, j: nat)
    requires i < j < |xs| && xs[i] == xs[j]
    ensures multiset(xs)[xs[i]] >= 2
  {
    assert xs == xs[..j] + [xs[j]] + xs[j + 1..];
    assert xs[i] == xs[..j][i];
    assert xs[i] in multiset(xs[..j]);
  }

  /** Reordering keeps distinct keys distinct, and the elements the same. */
  lemma PermutedDistinct<T(!new)>(xs: seq<T>, ys: seq<T>, key: T -> Id)
    requires multiset(xs) == multiset(ys) && KeyDistinct(xs, key)
    ensures KeyDistinct(ys, key)
  {
    forall i, j | 0 <= i < j < |ys|
      ensures key(ys[i]) != key(ys[j])
    {
      if ys[i] == ys[j] {
        TwiceCounts(ys, i, j);
        DistinctOnce(xs, key, ys[i]);
      } else {
        assert ys[i] in multiset(xs) && ys[j] in multiset(xs);
        var p :| 0 <= p < |xs| && xs[p] == ys[i];
        var q :| 0 <= q < |xs| && xs[q] == ys[j];
        assert p < q || q < p;
      }
    }
  }

  lemma PermutedMembers<T>(xs: seq<T>, ys: seq<T>)
    requires multiset(xs) == multiset(ys)
    ensures forall y :: y in ys ==> y in xs
  {
    forall y | y in ys
      ensures y in xs
    {
      assert y in multiset(ys);
    }
  }

  function ScoredRefs(kept: seq<Ref>, byId: map<Id, Candidate>): (scored: seq<Scored>)
    ensures |scored| == |kept|
  {
    seq(|kept|, i requires 0 <= i < |kept| => Scored(kept[i], ScoreOf(byId, kept[i])))
  }

  function RefsOf(reranked: seq<Reranked>): (refs: seq<Ref>)
    ensures |refs| == |reranked|
  {
    seq(|reranked|, i requires 0 <= i < |reranked| => reranked[i].chunk.ref)
  }

  /** key = (rerank score, fused score), reverse=True */
  function HigherRank(): (Reranked, Reranked) -> bool {
    (x: Reranked, y: Reranked) => x.score > y.score || (x.score == y.score && x.chunk.fused > y.chunk.fused)
  }

  predicate Reorders(kept: seq<Ref>, ranked: seq<Ref>) {
    && |ranked| == |kept| && Distinct(ranked)
    && forall ref :: ref in ranked ==> ref in kept
  }

  /** Reranking and sorting reorder the chunks. */
  lemma {:induction false} RankingReorders(kept: seq<Ref>, byId: map<Id, Candidate>, reranked: seq<Reranked>)
    requires Distinct(kept) && multiset(ChunksOf(reranked)) == multiset(ScoredRefs(kept, byId))
    ensures Reorders(kept, RefsOf(SortBy(reranked, HigherRank())))
  {
    hide SortBy;
    var scored, sorted := ScoredRefs(kept, byId), SortBy(reranked, HigherRank());
    PermutedDistinct(scored, ChunksOf(reranked), (x: Scored) => x.ref.chunk);
    PermutedMembers(scored, ChunksOf(reranked));
    SortKeeps(reranked, HigherRank());
    DistinctThrough(reranked);
    PermutedDistinct(reranked, sorted, (x: Reranked) => x.chunk.ref.chunk);
    PermutedMembers(reranked, sorted);
    assert |multiset(ChunksOf(reranked))| == |reranked| && |multiset(scored)| == |kept|;
    forall i | 0 <= i < |sorted|
      ensures RefsOf(sorted)[i] in kept
    {
      assert sorted[i] in sorted;
      var j :| 0 <= j < |reranked| && reranked[j] == sorted[i];
      assert ChunksOf(reranked)[j] in ChunksOf(reranked);
    }
  }

  lemma DistinctThrough(reranked: seq<Reranked>)
    requires KeyDistinct(ChunksOf(reranked), (x: Scored) => x.ref.chunk)
    ensures KeyDistinct(reranked, (x: Reranked) => x.chunk.ref.chunk)
  {
    forall i, j | 0 <= i < j < |reranked|
      ensures reranked[i].chunk.ref.chunk != reranked[j].chunk.ref.chunk
    {
      var key := (x: Scored) => x.ref.chunk;
      assert key(ChunksOf(reranked)[i]) != key(ChunksOf(reranked)[j]);
    }
  }

  const MAX_DOCUMENTS := 500
  const MAX_DOCUMENT_TOKENS := 4000
  const MAX_REQUEST_TOKENS := 120000

  /** How the reranker answers: the compatibility default, or the service, with the response it
      gave to a query of so many tokens; none if it could not be asked. */
  datatype Reranker = Identity | Service(queryTokens: nat, response: Option<seq<Entry>>)

  function SumTokens(chunks: seq<Scored>): nat {
    if chunks == [] then 0 else SumTokens(chunks[..|chunks| - 1]) + chunks[|chunks| - 1].ref.tokens
  }

  /** What the service may be sent. */
  predicate Sendable(queryTokens: nat, chunks: seq<Scored>) {
    && |chunks| <= MAX_DOCUMENTS
    && (forall i :: 0 <= i < |chunks| ==> chunks[i].ref.tokens <= MAX_DOCUMENT_TOKENS)
    && queryTokens + SumTokens(chunks) <= MAX_REQUEST_TOKENS
  }

  function Reranking(reranker: Reranker, chunks: seq<Scored>): Outcome<seq<Reranked>, ()> {
    match reranker
    case Identity => Ok(Unchanged(chunks))
    case Service(queryTokens, response) =>
      if chunks == [] then Ok([])
      else if Sendable(queryTokens, chunks) && response.Some? && Accepted(response.value, |chunks|)
      then Ok(RerankedBy(response.value, chunks))
      else Err(())
  }

  method Rerank(reranker: Reranker, chunks: seq<Scored>) returns (outcome: Outcome<seq<Reranked>, ()>)
    ensures outcome == Reranking(reranker, chunks)
    ensures outcome.Ok? ==> multiset(ChunksOf(outcome.value)) == multiset(chunks)
  {
    match reranker
    case Identity =>
      assert ChunksOf(Unchanged(chunks)) == chunks;
      return Ok(Unchanged(chunks));
    case Service(queryTokens, response) =>
      if chunks == [] {
        return Ok([]);
      }
      if |chunks| > MAX_DOCUMENTS || (exists i :: 0 <= i < |chunks| && chunks[i].ref.tokens > MAX_DOCUMENT_TOKENS) {
        return Err(());
      }
      if queryTokens + SumTokens(chunks) > MAX_REQUEST_TOKENS {
        return Err(());
      }
      outcome := ParseResponse(response, chunks);
      if outcome.Ok? {
        AcceptedIsPermutation(response.value, chunks);
      } else {
        assert outcome.error == ();
      }
  }

  lemma RankIsRanking()
    ensures Ranks(HigherRank())
  {
  }

  predicate InCandidates(resolved: seq<Ref>, candidates: seq<Candidate>) {
    forall i :: 0 <= i < |resolved| ==> exists j :: 0 <= j < |candidates| && candidates[j].chunk == resolved[i].chunk
  }

  // ---- What a search promises, in numbers and positions -----------------------------------------------

  /** Position i holds the first occurrence of the highest score of its chunk. */
  predicate IsBest(candidates: seq<Candidate>, i: nat)
    requires i < |candidates|
  {
    forall j :: 0 <= j < |candidates| && candidates[j].chunk == candidates[i].chunk ==>
      candidates[j].score <= candidates[i].score && (j < i ==> candidates[j].score < candidates[i].score)
  }

  /** The fused score of a chunk is its highest among the candidates. */
  predicate HasBestScore(candidates: seq<Candidate>, x: Scored) {
    && (exists i :: 0 <= i < |candidates| && candidates[i].chunk == x.ref.chunk && candidates[i].score == x.fused)
    && (forall i :: 0 <= i < |candidates| && candidates[i].chunk == x.ref.chunk ==> candidates[i].score <= x.fused)
  }

  /** What the reranker is given: each resolved chunk once with its best score, best scores first. */
  predicate IsFused(candidates: seq<Candidate>, resolved: seq<Ref>, fused: seq<Scored>) {
    && (forall i, j :: 0 <= i < j < |fused| ==> fused[i].ref.chunk != fused[j].ref.chunk)
    && (forall i :: 0 <= i < |fused| ==> fused[i].ref in resolved && HasBestScore(candidates, fused[i]))
    && (forall ref :: ref in resolved ==> exists i :: 0 <= i < |fused| && fused[i].ref.chunk == ref.chunk)
    && (forall i, j :: 0 <= i < j < |fused| ==>
          || fused[i].fused > fused[j].fused
          || (fused[i].fused == fused[j].fused && Before(resolved, fused[i].ref, fused[j].ref)))
  }

  /** What the reranker answers: the default each chunk with its own score, in the given order; the
      service the chunk that each entry of its response names, with the score of the entry. */
  predicate Answers(reranker: Reranker, fused: seq<Scored>, answer: seq<Reranked>) {
    && |answer| == |fused|
    && match reranker
       case Identity => forall k :: 0 <= k < |fused| ==> answer[k] == Reranked(fused[k], fused[k].fused)
       case Service(_, response) =>
         fused != [] ==>
           && response.Some? && |response.value| == |fused|
           && forall k :: 0 <= k < |fused| ==>
                && response.value[k].Entry? && 0 <= response.value[k].index < |fused|
                && answer[k] == Reranked(fused[response.value[k].index], response.value[k].score)
  }

  /** When the reranker answers: the default always; the service for no chunks, or for at most 500 of
      at most 4000 tokens each and 120000 with the query, if its response names every chunk once. */
  predicate CanAnswer(reranker: Reranker, fused: seq<Scored>) {
    match reranker
    case Identity => true
    case Service(queryTokens, response) =>
      fused != [] ==>
        && |fused| <= 500 && (forall i :: 0 <= i < |fused| ==> fused[i].ref.tokens <= 4000)
        && queryTokens + TokenSum(RefsScored(fused)) <= 120000
        && response.Some? && |response.value| == |fused|
        && (forall i :: 0 <= i < |fused| ==> response.value[i].Entry? && 0 <= response.value[i].index < |fused|)
        && (forall i, j :: 0 <= i < j < |fused| ==> response.value[i].index != response.value[j].index)
  }

  function RefsScored(fused: seq<Scored>): (refs: seq<Ref>)
    ensures |refs| == |fused| && forall i :: 0 <= i < |fused| ==> refs[i] == fused[i].ref
  {
    seq(|fused|, i requires 0 <= i < |fused| => fused[i].ref)
  }

  /** The answer sorted: the higher rerank score first, then the higher fused score, and full ties in
      the order of the answer. */
  predicate IsBestFirst(answer: seq<Reranked>, ranked: seq<Reranked>) {
    && multiset(ranked) == multiset(answer)
    && forall i, j :: 0 <= i < j < |ranked| ==>
         || ranked[i].score > ranked[j].score
         || (ranked[i].score == ranked[j].score && ranked[i].chunk.fused > ranked[j].chunk.fused)
         || (ranked[i].score == ranked[j].score && ranked[i].chunk.fused == ranked[j].chunk.fused && Before(answer, ranked[i], ranked[j]))
  }

  /** What the trace says of position i: a repetition of a chunk, a chunk that the store did not confirm,
      or a ranked chunk with the reason for which it was or was not chosen. */
  ghost predicate EntryTells(candidates: seq<Candidate>, ranked: seq<Ref>, chosen: seq<nat>, i: nat, entry: Trace)
    requires i < |candidates|
  {
    && entry.chunk == candidates[i].chunk && entry.rank == i + 1 && entry.score == candidates[i].score
    && (!IsBest(candidates, i) ==>
          entry.reason == DuplicateChunk && entry.status == if HasChunk(ranked, entry.chunk) then IsActive else IsFiltered)
    && (IsBest(candidates, i) && !HasChunk(ranked, entry.chunk) ==> entry.reason == FilteredOut && entry.status == IsFiltered)
    && (IsBest(candidates, i) ==>
          forall x: nat, m: nat :: x < |ranked| && ranked[x].chunk == entry.chunk && IsTurn(chosen, x, m) ==>
            if x in chosen then entry.reason == Selected && entry.status == IsSelected
            else entry.status == IsActive && entry.reason == if m >= 5 then TopKExceeded else BudgetExceeded)
  }

  ghost predicate TraceTells(candidates: seq<Candidate>, ranked: seq<Ref>, chosen: seq<nat>, traced: seq<Trace>) {
    |traced| == |candidates| && forall i :: 0 <= i < |candidates| ==> EntryTells(candidates, ranked, chosen, i, traced[i])
  }

  /** The citations are the greedy choice from the ranked chunks, and the trace explains it. */
  ghost predicate IsChoice(candidates: seq<Candidate>, ranked: seq<Ref>, cited: seq<Ref>, traced: seq<Trace>) {
    exists chosen :: IsGreedy(ranked, chosen, cited) && TraceTells(candidates, ranked, chosen, traced)
  }

  // ---- Why it does ---------------------------------------------------------------------------------------

  lemma {:induction false} FusedIs(candidates: seq<Candidate>, byId: map<Id, Candidate>, rankById: map<Id, nat>, resolved: seq<Ref>)
    requires Canonical(candidates, |candidates|, byId, rankById) && InCandidates(resolved, candidates)
    ensures IsFused(candidates, resolved, ScoredRefs(FirstOnes(SortBy(resolved, HigherScore(byId))), byId))
  {
    hide SortBy, FirstOnes, Before;
    RankedUniquely(resolved, byId);
    var kept := FirstOnes(SortBy(resolved, HigherScore(byId)));
    var fused := ScoredRefs(kept, byId);
    forall i | 0 <= i < |kept|
      ensures kept[i].chunk in byId && HasBestScore(candidates, fused[i])
    {
      assert kept[i] in kept;
      RankedInTable(candidates, byId, rankById, resolved, kept);
      BestScore(candidates, byId, rankById, kept[i].chunk);
    }
    forall ref | ref in resolved
      ensures exists i :: 0 <= i < |fused| && fused[i].ref.chunk == ref.chunk
    {
      var i :| 0 <= i < |kept| && kept[i].chunk == ref.chunk;
      assert fused[i].ref.chunk == ref.chunk;
    }
  }

  lemma BestScore(candidates: seq<Candidate>, byId: map<Id, Candidate>, rankById: map<Id, nat>, c: Id)
    requires Canonical(candidates, |candidates|, byId, rankById) && c in rankById
    ensures forall ref: Ref :: ref.chunk == c ==> HasBestScore(candidates, Scored(ref, byId[c].score))
  {
    var r := rankById[c];
    assert EntryFits(candidates, |candidates|, c, byId[c], r);
    forall i | 0 <= i < |candidates| && candidates[i].chunk == c
      ensures candidates[i].score <= byId[c].score
    {
      assert SameChunk(candidates, i, r - 1);
    }
    assert candidates[r - 1] == byId[c];
  }

  lemma {:induction false} TokensSent(fused: seq<Scored>)
    ensures SumTokens(fused) == TokenSum(RefsScored(fused))
  {
    if fused != [] {
      TokensSent(fused[..|fused| - 1]);
      assert RefsScored(fused)[..|fused| - 1] == RefsScored(fused[..|fused| - 1]);
    }
  }

  lemma RerankingIs(reranker: Reranker, fused: seq<Scored>)
    ensures Reranking(reranker, fused).Ok? <==> CanAnswer(reranker, fused)
    ensures Reranking(reranker, fused).Ok? ==> Answers(reranker, fused, Reranking(reranker, fused).value)
  {
    hide SumTokens, TokenSum;
    TokensSent(fused);
  }

  /** Rank i + 1 is that of the chunk's canonical occurrence exactly if position i holds it. */
  lemma BestIsCanonical(candidates: seq<Candidate>, byId: map<Id, Candidate>, rankById: map<Id, nat>, i: nat)
    requires Canonical(candidates, |candidates|, byId, rankById) && i < |candidates|
    ensures candidates[i].chunk in rankById && (rankById[candidates[i].chunk] == i + 1 <==> IsBest(candidates, i))
  {
    var n := |candidates|;
    var r := rankById[candidates[i].chunk];
    assert EntryFits(candidates, n, candidates[i].chunk, byId[candidates[i].chunk], r);
    forall q: nat | 1 <= q <= n
      ensures IsCanonical(candidates, n, q) <==> IsBest(candidates, q - 1)
    {
      CanonicalIff(candidates, q);
    }
    if IsBest(candidates, i) {
      OneCanonical(candidates, r, i + 1);
    }
  }

  lemma CanonicalIff(candidates: seq<Candidate>, q: nat)
    requires 1 <= q <= |candidates|
    ensures IsCanonical(candidates, |candidates|, q) <==> IsBest(candidates, q - 1)
  {
    if IsBest(candidates, q - 1) {
      assert forall i: nat :: i < |candidates| && SameChunk(candidates, i, q - 1) ==> candidates[i].chunk == candidates[q - 1].chunk;
    }
    if IsCanonical(candidates, |candidates|, q) {
      forall j | 0 <= j < |candidates| && candidates[j].chunk == candidates[q - 1].chunk
        ensures candidates[j].score <= candidates[q - 1].score && (j < q - 1 ==> candidates[j].score < candidates[q - 1].score)
      {
        assert SameChunk(candidates, j, q - 1);
      }
    }
  }

  lemma {:induction false} EntryIs(candidates: seq<Candidate>, byId: map<Id, Candidate>, rankById: map<Id, nat>, ranked: seq<Ref>,
                                   reasons: map<Id, Reason>, i: nat)
    requires Consistent(candidates, byId, rankById, ranked, reasons) && KeysPresent(candidates, rankById, ranked, reasons) && i < |candidates|
    ensures EntryTells(candidates, ranked, Chosen(ranked, |ranked|), i, TraceAt(candidates, rankById, ranked, reasons, i))
  {
    hide Chosen, ReasonAt, IsBest, Canonical;
    var chosen, entry := Chosen(ranked, |ranked|), TraceAt(candidates, rankById, ranked, reasons, i);
    KeyAt(candidates, rankById, ranked, reasons, i);
    BestIsCanonical(candidates, byId, rankById, i);
    forall x: nat, m: nat | IsBest(candidates, i) && x < |ranked| && ranked[x].chunk == entry.chunk && IsTurn(chosen, x, m)
      ensures if x in chosen then entry.reason == Selected && entry.status == IsSelected
              else entry.status == IsActive && entry.reason == if m >= 5 then TopKExceeded else BudgetExceeded
    {
      assert HasChunk(ranked, entry.chunk);
      assert reasons[ranked[x].chunk] == ReasonAt(Chosen(ranked, x), ranked, x);
      ChosenIff(ranked, |ranked|, x);
      ReasonAtTurn(ranked, x, m);
    }
  }

  lemma {:induction false} ChoiceIs(candidates: seq<Candidate>, byId: map<Id, Candidate>, rankById: map<Id, nat>, ranked: seq<Ref>, reasons: map<Id, Reason>,
                 traced: seq<Trace>)
    requires Consistent(candidates, byId, rankById, ranked, reasons) && KeysPresent(candidates, rankById, ranked, reasons)
    requires |traced| == |candidates|
    requires forall i :: 0 <= i < |candidates| ==> traced[i] == TraceAt(candidates, rankById, ranked, reasons, i)
    ensures IsChoice(candidates, ranked, RefsAt(ranked, Chosen(ranked, |ranked|)), traced)
  {
    hide Chosen, ReasonAt, TraceAt, EntryTells, IsGreedy, Consistent, KeysPresent;
    ChoiceIsGreedy(ranked);
    forall i | 0 <= i < |candidates|
      ensures EntryTells(candidates, ranked, Chosen(ranked, |ranked|), i, traced[i])
    {
      EntryIs(candidates, byId, rankById, ranked, reasons, i);
    }
    assert TraceTells(candidates, ranked, Chosen(ranked, |ranked|), traced);
  }

  /** One search over the candidates and the refs that the store resolved among them.  It fails exactly
      if the reranker cannot answer; otherwise the fused chunks are answered, sorted, chosen from
      greedily within the limits, and traced. */
  method SearchOnce(candidates: seq<Candidate>, resolved: seq<Ref>, reranker: Reranker)
    returns (outcome: Outcome<(seq<Ref>, seq<Trace>), ()>, fused: seq<Scored>, ranked: seq<Reranked>)
    requires InCandidates(resolved, candidates)
    ensures IsFused(candidates, resolved, fused)
    ensures outcome.Ok? <==> CanAnswer(reranker, fused)
    ensures outcome.Ok? ==> exists answer :: Answers(reranker, fused, answer) && IsBestFirst(answer, ranked)
    ensures outcome.Ok? ==>
              var refs := RefsOf(ranked);
              && Distinct(refs)
              && (forall ref :: ref in refs ==> ref in resolved) && (forall ref :: ref in resolved ==> HasChunk(refs, ref.chunk))
              && IsChoice(candidates, refs, outcome.value.0, outcome.value.1)
              && Distinct(outcome.value.0) && TraceAgrees(candidates, refs, outcome.value.1)
  {
    hide SortBy, FirstOnes, Chosen, TokensOf, TraceAgrees, ReasonAt, EntryFits, TraceAt, Reranking, CanAnswer, Answers, IsFused, IsBestFirst, IsChoice;
    var byId, rankById := CanonicalCandidates(candidates);
    var kept := RankUnique(resolved, byId);
    RankedUniquely(resolved, byId);
    FusedIs(candidates, byId, rankById, resolved);
    fused, ranked := ScoredRefs(kept, byId), [];
    RerankingIs(reranker, fused);
    if candidates == [] {
      assert resolved == [] by {
        if resolved != [] {
          SomeCandidate(resolved, candidates);
        }
      }
      NothingRanked(reranker);
      return Ok(([], [])), fused, ranked;
    }
    var reranked := Rerank(reranker, fused);
    if reranked.Err? {
      return Err(()), fused, ranked;
    }
    RankingReorders(kept, byId, reranked.value);
    RankingIsOrdered(reranked.value);
    ranked := SortBy(reranked.value, HigherRank());
    var refs := RefsOf(ranked);
    ReordersAll(resolved, kept, refs);
    RankedInTable(candidates, byId, rankById, resolved, refs);
    var selected, reasons := SelectWithinBudget(refs);
    ChosenDistinct(refs);
    ConsistentHasKeys(candidates, byId, rankById, refs, reasons);
    var traced := BuildTrace(candidates, rankById, refs, reasons);
    ChoiceIs(candidates, byId, rankById, refs, reasons, traced);
    TraceMatchesCitations(candidates, byId, rankById, refs, reasons, traced);
    return Ok((selected, traced)), fused, ranked;
  }

  lemma SomeCandidate(resolved: seq<Ref>, candidates: seq<Candidate>)
    requires InCandidates(resolved, candidates) && resolved != []
    ensures candidates != []
  {
    var first := resolved[0];
    var j :| 0 <= j < |candidates| && candidates[j].chunk == first.chunk;
  }

  /** Without candidates there is nothing to rank or to trace, and no reranker is asked. */
  lemma NothingRanked(reranker: Reranker)
    ensures Reranking(reranker, []) == Ok([]) && IsBestFirst([], []) && RefsOf([]) == []
    ensures IsChoice([], [], [], []) && TraceAgrees([], [], [])
  {
    ChoiceIsGreedy([]);
    assert Unchanged([]) == [] && RefsOf([]) == [] && RefsAt([], Chosen([], 0)) == [];
    assert TraceTells([], [], [], []);
  }

  /** The search ranks by the score of the reranker, then by the best score of the chunk; ties
      keep the order of the reranker. */
  lemma {:induction false} RankingIsOrdered(reranked: seq<Reranked>)
    ensures IsBestFirst(reranked, SortBy(reranked, HigherRank()))
  {
    hide SortBy, Before;
    RankIsRanking();
    SortOrders(reranked, HigherRank());
    SortKeeps(reranked, HigherRank());
    var sorted := SortBy(reranked, HigherRank());
    forall i, j | 0 <= i < j < |sorted| && sorted[i].score == sorted[j].score && sorted[i].chunk.fused == sorted[j].chunk.fused
      ensures Before(reranked, sorted[i], sorted[j])
    {
      SortLeavesTies(reranked, HigherRank(), i, j);
    }
    forall i, j | 0 <= i < j < |sorted|
      ensures !HigherRank()(sorted[j], sorted[i])
    {
    }
  }

  lemma RankedInTable(candidates: seq<Candidate>, byId: map<Id, Candidate>, rankById: map<Id, nat>, resolved: seq<Ref>, ranked: seq<Ref>)
    requires Canonical(candidates, |candidates|, byId, rankById) && InCandidates(resolved, candidates)
    requires forall ref :: ref in ranked ==> ref in resolved
    ensures forall i :: 0 <= i < |ranked| ==> ranked[i].chunk in rankById
  {
    forall i | 0 <= i < |ranked|
      ensures ranked[i].chunk in rankById
    {
      assert ranked[i] in ranked;
      var k :| 0 <= k < |resolved| && resolved[k] == ranked[i];
      var j :| 0 <= j < |candidates| && candidates[j].chunk == resolved[k].chunk;
    }
  }

  /** A reordering of as many chunks keeps them all. */
  lemma ReordersAll(resolved: seq<Ref>, kept: seq<Ref>, ranked: seq<Ref>)
    requires Distinct(kept) && Reorders(kept, ranked)
    requires (forall ref :: ref in kept ==> ref in resolved) && (forall ref :: ref in resolved ==> HasChunk(kept, ref.chunk))
    ensures (forall ref :: ref in ranked ==> ref in resolved) && (forall ref :: ref in resolved ==> HasChunk(ranked, ref.chunk))
  {
    AllOf(kept, ranked);
    forall ref | ref in resolved
      ensures HasChunk(ranked, ref.chunk)
    {
      var i :| 0 <= i < |kept| && kept[i].chunk == ref.chunk;
      assert kept[i] in kept;
      var j :| 0 <= j < |ranked| && ranked[j] == kept[i];
    }
  }

  lemma {:induction false} SizeOfDistinct(refs: seq<Ref>)
    requires Distinct(refs)
    ensures |(set ref | ref in refs)| == |refs|
  {
    if refs != [] {
      var init, last := refs[..|refs| - 1], refs[|refs| - 1];
      SizeOfDistinct(init);
      assert refs == init + [last];
      assert (set ref | ref in refs) == (set ref | ref in init) + {last};
    }
  }

  lemma AllOf(kept: seq<Ref>, ranked: seq<Ref>)
    requires Distinct(kept) && Reorders(kept, ranked)
    ensures forall ref :: ref in kept ==> ref in ranked
  {
    var all, some := set ref | ref in kept, set ref | ref in ranked;
    SizeOfDistinct(kept);
    SizeOfDistinct(ranked);
    assert some <= all && |some| == |all|;
    SameSize(some, all);
    forall ref | ref in kept
      ensures ref in ranked
    {
      assert ref in all;
    }
  }

  lemma SameSize<T>(some: set<T>, all: set<T>)
    requires some <= all && |some| == |all|
    ensures some == all
  {
    assert all == some + (all - some);
  }
}
