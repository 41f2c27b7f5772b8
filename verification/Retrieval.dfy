/** Retrieval: one canonical occurrence per chunk, a reranking that is a permutation, a
    greedy choice within the budget, and a trace that agrees with the citations. */
module Retrieval {

  type Id = nat

  const TOP_K := 5
  const TOKEN_BUDGET := 3000

  /** A hit of the vector search.  Scores are compared and nothing else. */
  datatype Candidate = Candidate(chunk: Id, score: real)

  /** A chunk that the store confirmed as active. */
  datatype Ref = Ref(chunk: Id, tokens: nat)

  // ---- sorted(..., reverse=True) -----------------------------------------------------------

  /** Stable: an element stays before those that do not rank above it. */
  function Insert<T>(x: T, sorted: seq<T>, above: (T, T) -> bool): seq<T> {
    if sorted == [] then [x]
    else if above(sorted[0], x) then [sorted[0]] + Insert(x, sorted[1..], above)
    else [x] + sorted
  }

  function SortBy<T>(xs: seq<T>, above: (T, T) -> bool): seq<T> {
    if xs == [] then [] else Insert(xs[0], SortBy(xs[1..], above), above)
  }

  lemma {:induction false} InsertKeeps<T>(x: T, sorted: seq<T>, above: (T, T) -> bool)
    ensures multiset(Insert(x, sorted, above)) == multiset(sorted) + multiset{x}
  {
    if sorted != [] && above(sorted[0], x) {
      InsertKeeps(x, sorted[1..], above);
      assert sorted == [sorted[0]] + sorted[1..];
    }
  }

  lemma {:induction false} SortKeeps<T>(xs: seq<T>, above: (T, T) -> bool)
    ensures multiset(SortBy(xs, above)) == multiset(xs)
    ensures |SortBy(xs, above)| == |xs|
  {
    if xs != [] {
      SortKeeps(xs[1..], above);
      InsertKeeps(xs[0], SortBy(xs[1..], above), above);
      assert xs == [xs[0]] + xs[1..];
    }
    assert |multiset(SortBy(xs, above))| == |SortBy(xs, above)|;
  }

  ghost predicate Ordered<T(!new)>(xs: seq<T>, above: (T, T) -> bool) {
    forall i, j :: 0 <= i < j < |xs| ==> !above(xs[j], xs[i])
  }

  /** A ranking: what ranks above is never outranked, also through a third. */
  ghost predicate Ranks<T(!new)>(above: (T, T) -> bool) {
    && (forall x, y :: above(x, y) ==> !above(y, x))
    && (forall x, y, z :: !above(x, y) && !above(y, z) ==> !above(x, z))
  }

  lemma {:induction false} InsertOrders<T(!new)>(x: T, sorted: seq<T>, above: (T, T) -> bool)
    requires Ranks(above) && Ordered(sorted, above)
    ensures Ordered(Insert(x, sorted, above), above)
  {
    var result := Insert(x, sorted, above);
    if sorted != [] && above(sorted[0], x) {
      InsertOrders(x, sorted[1..], above);
      var rest := Insert(x, sorted[1..], above);
      InsertKeeps(x, sorted[1..], above);
      forall j | 0 <= j < |rest|
        ensures !above(rest[j], sorted[0])
      {
        assert rest[j] in multiset(rest);
        if rest[j] in sorted[1..] {
          var k :| 1 <= k < |sorted| && sorted[k] == rest[j];
        }
      }
    } else if sorted != [] {
      forall j | 0 <= j < |sorted|
        ensures !above(sorted[j], x)
      {
        assert j > 0 ==> !above(sorted[j], sorted[0]);
      }
    }
  }

  lemma {:induction false} SortOrders<T(!new)>(xs: seq<T>, above: (T, T) -> bool)
    requires Ranks(above)
    ensures Ordered(SortBy(xs, above), above)
  {
    if xs != [] {
      SortOrders(xs[1..], above);
      InsertOrders(xs[0], SortBy(xs[1..], above), above);
    }
  }

  /** Neither ranks above the other. */
  predicate Tied<T>(above: (T, T) -> bool, x: T, y: T) {
    !above(x, y) && !above(y, x)
  }

  function TiedWith<T>(xs: seq<T>, above: (T, T) -> bool, x: T): seq<T> {
    if xs == [] then [] else (if Tied(above, xs[0], x) then [xs[0]] else []) + TiedWith(xs[1..], above, x)
  }

  lemma {:induction false} InsertKeepsTies<T(!new)>(x: T, sorted: seq<T>, above: (T, T) -> bool, y: T)
    requires Ranks(above)
    ensures TiedWith(Insert(x, sorted, above), above, y) == TiedWith([x] + sorted, above, y)
  {
    assert ([x] + sorted)[1..] == sorted;
    if sorted != [] && above(sorted[0], x) {
      var first, rest := sorted[0], sorted[1..];
      InsertKeepsTies(x, rest, above, y);
      assert Insert(x, sorted, above) == [first] + Insert(x, rest, above);
      assert ([first] + Insert(x, rest, above))[1..] == Insert(x, rest, above);
      assert ([x] + rest)[1..] == rest;
      assert !(Tied(above, first, y) && Tied(above, x, y));
    }
  }

  /** Sorting is stable: elements that tie keep their order. */
  lemma {:induction false} SortKeepsTies<T(!new)>(xs: seq<T>, above: (T, T) -> bool, y: T)
    requires Ranks(above)
    ensures TiedWith(SortBy(xs, above), above, y) == TiedWith(xs, above, y)
  {
    if xs != [] {
      var rest := SortBy(xs[1..], above);
      SortKeepsTies(xs[1..], above, y);
      InsertKeepsTies(xs[0], rest, above, y);
      assert ([xs[0]] + rest)[1..] == rest;
    }
  }

  /** x stands before y. */
  predicate Before<T(==)>(xs: seq<T>, x: T, y: T) {
    exists p, q :: 0 <= p < q < |xs| && xs[p] == x && xs[q] == y
  }

  /** Where an insertion puts its element: after exactly those in front that rank above it. */
  lemma {:induction false} InsertedAt<T>(x: T, sorted: seq<T>, above: (T, T) -> bool) returns (k: nat)
    ensures k <= |sorted| && Insert(x, sorted, above) == sorted[..k] + [x] + sorted[k..]
    ensures forall i :: 0 <= i < k ==> above(sorted[i], x)
  {
    if sorted == [] || !above(sorted[0], x) {
      k := 0;
    } else {
      var r := InsertedAt(x, sorted[1..], above);
      k := r + 1;
      assert sorted == [sorted[0]] + sorted[1..];
    }
  }

  lemma FirstBefore<T>(xs: seq<T>, y: T)
    requires xs != [] && y in xs[1..]
    ensures Before(xs, xs[0], y)
  {
    var q :| 0 <= q < |xs[1..]| && xs[1..][q] == y;
    assert xs[q + 1] == y;
  }

  lemma LaterBefore<T>(xs: seq<T>, x: T, y: T)
    requires xs != [] && Before(xs[1..], x, y)
    ensures Before(xs, x, y)
  {
    var p, q :| 0 <= p < q < |xs[1..]| && xs[1..][p] == x && xs[1..][q] == y;
    assert xs[p + 1] == x && xs[q + 1] == y;
  }

  lemma {:induction false} SortedIsThere<T>(xs: seq<T>, above: (T, T) -> bool, i: nat)
    requires i < |SortBy(xs, above)|
    ensures SortBy(xs, above)[i] in xs
  {
    SortKeeps(xs, above);
    assert SortBy(xs, above)[i] in multiset(SortBy(xs, above));
  }

  /** What ties stands in the order it had before the sort. */
  lemma {:induction false} SortLeavesTies<T>(xs: seq<T>, above: (T, T) -> bool, i: nat, j: nat)
    requires i < j < |SortBy(xs, above)| && Tied(above, SortBy(xs, above)[i], SortBy(xs, above)[j])
    ensures Before(xs, SortBy(xs, above)[i], SortBy(xs, above)[j])
  {
    hide Insert, Before;
    var x, rest, sorted := xs[0], SortBy(xs[1..], above), SortBy(xs, above);
    var k := InsertedAt(x, rest, above);
    assert sorted == rest[..k] + [x] + rest[k..];
    if i == k {
      assert sorted[j] == rest[j - 1];
      SortedIsThere(xs[1..], above, j - 1);
      FirstBefore(xs, sorted[j]);
    } else {
      assert j != k;
      var (i', j') := (if i < k then i else i - 1, if j < k then j else j - 1);
      assert sorted[i] == rest[i'] && sorted[j] == rest[j'];
      SortLeavesTies(xs[1..], above, i', j');
      LaterBefore(xs, sorted[i], sorted[j]);
    }
  }

  // ---- _canonical_candidates ---------------------------------------------------------------------

  predicate SameChunk(candidates: seq<Candidate>, i: nat, j: nat)
    requires i < |candidates| && j < |candidates|
  {
    candidates[i].chunk == candidates[j].chunk
  }

  /** Among the first k, position r (from 1) holds the first occurrence with the highest score
      of its chunk. */
  predicate IsCanonical(candidates: seq<Candidate>, k: nat, r: nat)
    requires k <= |candidates|
  {
    && 1 <= r <= k
    && (forall i: nat :: i < k && SameChunk(candidates, i, r - 1) ==> candidates[i].score <= candidates[r - 1].score)
    && (forall i: nat :: i < r - 1 && SameChunk(candidates, i, r - 1) ==> candidates[i].score < candidates[r - 1].score)
  }

  predicate EntryFits(candidates: seq<Candidate>, k: nat, c: Id, candidate: Candidate, r: nat)
    requires k <= |candidates|
  {
    IsCanonical(candidates, k, r) && candidates[r - 1].chunk == c && candidate == candidates[r - 1]
  }

  /** The tables hold the canonical occurrence of every chunk among the first k. */
  predicate Canonical(candidates: seq<Candidate>, k: nat, byId: map<Id, Candidate>, rankById: map<Id, nat>)
    requires k <= |candidates|
  {
    && byId.Keys == rankById.Keys
    && (forall i :: 0 <= i < k ==> candidates[i].chunk in rankById)
    && (forall c :: c in rankById ==> EntryFits(candidates, k, c, byId[c], rankById[c]))
  }

  lemma EntryKept(candidates: seq<Candidate>, k: nat, c: Id, candidate: Candidate, r: nat)
    requires k < |candidates| && EntryFits(candidates, k, c, candidate, r)
    requires candidates[k].chunk == c ==> candidates[k].score <= candidate.score
    ensures EntryFits(candidates, k + 1, c, candidate, r)
  {
  }

  lemma EntryReplaced(candidates: seq<Candidate>, k: nat, candidate: Candidate, r: nat)
    requires k < |candidates| && EntryFits(candidates, k, candidates[k].chunk, candidate, r) && candidates[k].score > candidate.score
    ensures EntryFits(candidates, k + 1, candidates[k].chunk, candidates[k], k + 1)
  {
    forall i: nat | i < k && SameChunk(candidates, i, k)
      ensures candidates[i].score < candidates[k].score
    {
      assert SameChunk(candidates, i, r - 1);
    }
  }

  lemma EntryAdded(candidates: seq<Candidate>, k: nat)
    requires k < |candidates| && forall i :: 0 <= i < k ==> candidates[i].chunk != candidates[k].chunk
    ensures EntryFits(candidates, k + 1, candidates[k].chunk, candidates[k], k + 1)
  {
  }

  method CanonicalCandidates(candidates: seq<Candidate>) returns (byId: map<Id, Candidate>, rankById: map<Id, nat>)
    ensures Canonical(candidates, |candidates|, byId, rankById)
  {
    hide EntryFits;
    byId, rankById := map[], map[];
    var k := 0;
    while k < |candidates|
      invariant 0 <= k <= |candidates|
      invariant Canonical(candidates, k, byId, rankById)
    {
      var candidate := candidates[k];
      var c := candidate.chunk;
      forall d | d in rankById && (d != c || candidate.score <= byId[d].score)
        ensures EntryFits(candidates, k + 1, d, byId[d], rankById[d])
      {
        EntryKept(candidates, k, d, byId[d], rankById[d]);
      }
      if c !in byId {
        EntryAdded(candidates, k);
        byId, rankById := byId[c := candidate], rankById[c := k + 1];
      } else if candidate.score > byId[c].score {
        EntryReplaced(candidates, k, byId[c], rankById[c]);
        byId, rankById := byId[c := candidate], rankById[c := k + 1];
      }
      k := k + 1;
    }
  }

  /** Each chunk has exactly one canonical occurrence. */
  lemma OneCanonical(candidates: seq<Candidate>, r: nat, q: nat)
    requires IsCanonical(candidates, |candidates|, r) && IsCanonical(candidates, |candidates|, q) && SameChunk(candidates, r - 1, q - 1)
    ensures r == q
  {
    assert SameChunk(candidates, q - 1, r - 1);
  }

  // ---- _rank_unique ----------------------------------------------------------------------------------

  predicate Distinct(refs: seq<Ref>) {
    forall i, j :: 0 <= i < j < |refs| ==> refs[i].chunk != refs[j].chunk
  }

  function ScoreOf(byId: map<Id, Candidate>, ref: Ref): real {
    if ref.chunk in byId then byId[ref.chunk].score else 0.0
  }

  function HigherScore(byId: map<Id, Candidate>): (Ref, Ref) -> bool {
    (x: Ref, y: Ref) => ScoreOf(byId, x) > ScoreOf(byId, y)
  }

  predicate HasChunk(refs: seq<Ref>, c: Id) {
    exists i :: 0 <= i < |refs| && refs[i].chunk == c
  }

  /** The first occurrence of every chunk, in order. */
  function FirstOnes(refs: seq<Ref>): seq<Ref> {
    if refs == [] then []
    else
      var before, last := FirstOnes(refs[..|refs| - 1]), refs[|refs| - 1];
      if HasChunk(before, last.chunk) then before else before + [last]
  }

  method RankUnique(resolved: seq<Ref>, byId: map<Id, Candidate>) returns (kept: seq<Ref>)
    ensures kept == FirstOnes(SortBy(resolved, HigherScore(byId)))
  {
    hide SortBy;
    var ranked := SortBy(resolved, HigherScore(byId));
    kept := [];
    var seen: set<Id> := {};
    var k := 0;
    while k < |ranked|
      invariant 0 <= k <= |ranked|
      invariant kept == FirstOnes(ranked[..k])
      invariant forall c :: c in seen <==> HasChunk(kept, c)
    {
      assert ranked[..k + 1][..k] == ranked[..k];
      if ranked[k].chunk !in seen {
        SeenGrows(kept, ranked[k]);
        seen := seen + {ranked[k].chunk};
        kept := kept + [ranked[k]];
      }
      k := k + 1;
    }
    assert ranked[..k] == ranked;
  }

  lemma SeenGrows(kept: seq<Ref>, ref: Ref)
    ensures forall c :: HasChunk(kept + [ref], c) <==> HasChunk(kept, c) || c == ref.chunk
  {
    forall c
      ensures HasChunk(kept + [ref], c) <==> HasChunk(kept, c) || c == ref.chunk
    {
      if HasChunk(kept, c) {
        var i :| 0 <= i < |kept| && kept[i].chunk == c;
        assert (kept + [ref])[i].chunk == c;
      }
      assert (kept + [ref])[|kept|] == ref;
    }
  }

  /** What _rank_unique returns has every chunk once, best scores first. */
  lemma {:induction false} FirstOnesFit(refs: seq<Ref>, above: (Ref, Ref) -> bool)
    requires Ordered(refs, above)
    ensures Distinct(FirstOnes(refs)) && Ordered(FirstOnes(refs), above)
    ensures forall ref :: ref in FirstOnes(refs) ==> ref in refs
    ensures forall ref :: ref in refs ==> HasChunk(FirstOnes(refs), ref.chunk)
  {
    if refs != [] {
      var init, last := refs[..|refs| - 1], refs[|refs| - 1];
      FirstOnesFit(init, above);
      assert refs == init + [last];
      forall ref | ref in FirstOnes(init)
        ensures !above(last, ref)
      {
        var i :| 0 <= i < |init| && init[i] == ref;
        assert refs[i] == ref;
      }
      OneMoreFits(init, FirstOnes(init), last, above);
    }
  }

  lemma OneMoreFits(init: seq<Ref>, before: seq<Ref>, last: Ref, above: (Ref, Ref) -> bool)
    requires Distinct(before) && Ordered(before, above) && forall ref :: ref in before ==> ref in init && !above(last, ref)
    requires forall ref :: ref in init ==> HasChunk(before, ref.chunk)
    ensures var after := if HasChunk(before, last.chunk) then before else before + [last];
            && Distinct(after) && Ordered(after, above)
            && (forall ref :: ref in after ==> ref in init + [last])
            && (forall ref :: ref in init + [last] ==> HasChunk(after, ref.chunk))
  {
    hide HasChunk;
    SeenGrows(before, last);
    if !HasChunk(before, last.chunk) {
      NoSuchChunk(before, last.chunk);
    }
  }

  lemma NoSuchChunk(refs: seq<Ref>, c: Id)
    requires !HasChunk(refs, c)
    ensures forall i :: 0 <= i < |refs| ==> refs[i].chunk != c
  {
  }

  /** Each resolved chunk once, best scores first, and those of one score in the order in which the
      store resolved them. */
  lemma {:induction false} RankedUniquely(resolved: seq<Ref>, byId: map<Id, Candidate>)
    ensures var kept := FirstOnes(SortBy(resolved, HigherScore(byId)));
            && Distinct(kept)
            && (forall ref :: ref in kept ==> ref in resolved)
            && (forall ref :: ref in resolved ==> HasChunk(kept, ref.chunk))
            && BestScoresFirst(resolved, kept, byId)
  {
    hide SortBy, FirstOnes, Before;
    var sorted := SortBy(resolved, HigherScore(byId));
    var kept := FirstOnes(sorted);
    SortKeeps(resolved, HigherScore(byId));
    SortOrders(resolved, HigherScore(byId));
    FirstOnesFit(sorted, HigherScore(byId));
    forall ref | ref in sorted || ref in resolved
      ensures ref in sorted && ref in resolved
    {
      assert ref in multiset(sorted) && ref in multiset(resolved);
    }
    forall i, j | 0 <= i < j < |kept|
      ensures ScoreOf(byId, kept[i]) >= ScoreOf(byId, kept[j])
      ensures ScoreOf(byId, kept[i]) == ScoreOf(byId, kept[j]) ==> Before(resolved, kept[i], kept[j])
    {
      var p, q := FirstOnesInOrder(sorted, i, j);
      assert !HigherScore(byId)(sorted[q], sorted[p]);
      if !HigherScore(byId)(sorted[p], sorted[q]) {
        SortLeavesTies(resolved, HigherScore(byId), p, q);
      }
    }
  }

  predicate BestScoresFirst(resolved: seq<Ref>, kept: seq<Ref>, byId: map<Id, Candidate>) {
    forall i, j :: 0 <= i < j < |kept| && kept[i].chunk in byId && kept[j].chunk in byId ==>
      || byId[kept[i].chunk].score > byId[kept[j].chunk].score
      || (byId[kept[i].chunk].score == byId[kept[j].chunk].score && Before(resolved, kept[i], kept[j]))
  }

  lemma {:induction false} FirstOnesInOrder(refs: seq<Ref>, i: nat, j: nat) returns (p: nat, q: nat)
    requires i < j < |FirstOnes(refs)|
    ensures p < q < |refs| && refs[p] == FirstOnes(refs)[i] && refs[q] == FirstOnes(refs)[j]
  {
    var init, last := refs[..|refs| - 1], refs[|refs| - 1];
    if j < |FirstOnes(init)| {
      p, q := FirstOnesInOrder(init, i, j);
    } else {
      p := FirstOneAt(init, i);
      q := |refs| - 1;
    }
  }

  lemma {:induction false} FirstOneAt(refs: seq<Ref>, i: nat) returns (p: nat)
    requires i < |FirstOnes(refs)|
    ensures p < |refs| && refs[p] == FirstOnes(refs)[i]
  {
    var init := refs[..|refs| - 1];
    if i < |FirstOnes(init)| {
      p := FirstOneAt(init, i);
    } else {
      p := |refs| - 1;
    }
  }

  // ---- _select_within_budget ----------------------------------------------------------------------------

  datatype Reason = Selected | TopKExceeded | BudgetExceeded | DuplicateChunk | FilteredOut

  /** The greedy choice among the first k: the chosen positions in order. */
  function Chosen(ranked: seq<Ref>, k: nat): (chosen: seq<nat>)
    requires k <= |ranked|
    ensures forall i :: 0 <= i < |chosen| ==> chosen[i] < k
  {
    if k == 0 then []
    else
      var before := Chosen(ranked, k - 1);
      if ReasonAt(before, ranked, k - 1) == Selected then before + [k - 1] else before
  }

  function TokensOf(ranked: seq<Ref>, chosen: seq<nat>): nat
    requires forall i :: 0 <= i < |chosen| ==> chosen[i] < |ranked|
  {
    if chosen == [] then 0 else TokensOf(ranked, chosen[..|chosen| - 1]) + ranked[chosen[|chosen| - 1]].tokens
  }

  function ReasonAt(before: seq<nat>, ranked: seq<Ref>, k: nat): Reason
    requires k < |ranked| && forall i :: 0 <= i < |before| ==> before[i] < |ranked|
  {
    if |before| >= TOP_K then TopKExceeded
    else if TokensOf(ranked, before) + ranked[k].tokens > TOKEN_BUDGET then BudgetExceeded
    else Selected
  }

  function RefsAt(ranked: seq<Ref>, chosen: seq<nat>): (refs: seq<Ref>)
    requires forall i :: 0 <= i < |chosen| ==> chosen[i] < |ranked|
    ensures |refs| == |chosen|
  {
    seq(|chosen|, i requires 0 <= i < |chosen| => ranked[chosen[i]])
  }

  /** The choice stays within both limits. */
  lemma {:induction false} ChoiceWithinBudget(ranked: seq<Ref>, k: nat)
    requires k <= |ranked|
    ensures |Chosen(ranked, k)| <= TOP_K && TokensOf(ranked, Chosen(ranked, k)) <= TOKEN_BUDGET
  {
    if k > 0 {
      ChoiceWithinBudget(ranked, k - 1);
      if ReasonAt(Chosen(ranked, k - 1), ranked, k - 1) == Selected {
        ChosenGrows(ranked, k - 1);
      }
    }
  }

  /** A chunk is passed over only when, at its turn, one of the limits would be exceeded. */
  lemma {:induction false} ChosenIff(ranked: seq<Ref>, k: nat, i: nat)
    requires k <= |ranked| && i < k
    ensures i in Chosen(ranked, k) <==> ReasonAt(Chosen(ranked, i), ranked, i) == Selected
  {
    hide ReasonAt;
    if i < k - 1 {
      ChosenIff(ranked, k - 1, i);
    }
  }

  /** The chosen keep their order. */
  lemma {:induction false} ChosenIncreases(ranked: seq<Ref>, k: nat)
    requires k <= |ranked|
    ensures forall i, j :: 0 <= i < j < |Chosen(ranked, k)| ==> Chosen(ranked, k)[i] < Chosen(ranked, k)[j]
  {
    hide ReasonAt;
    if k > 0 {
      ChosenIncreases(ranked, k - 1);
    }
  }

  /** No chunk is chosen twice. */
  lemma {:induction false} ChosenDistinct(ranked: seq<Ref>)
    requires Distinct(ranked)
    ensures Distinct(RefsAt(ranked, Chosen(ranked, |ranked|)))
  {
    hide Chosen;
    ChosenIncreases(ranked, |ranked|);
  }

  /** Why each of the first k chunks was or was not chosen. */
  predicate ReasonsFit(ranked: seq<Ref>, k: nat, reasons: map<Id, Reason>)
    requires k <= |ranked|
  {
    forall i :: 0 <= i < k ==> ranked[i].chunk in reasons && reasons[ranked[i].chunk] == ReasonAt(Chosen(ranked, i), ranked, i)
  }

  method SelectWithinBudget(ranked: seq<Ref>) returns (selected: seq<Ref>, reasons: map<Id, Reason>)
    requires Distinct(ranked)
    ensures selected == RefsAt(ranked, Chosen(ranked, |ranked|))
    ensures ReasonsFit(ranked, |ranked|, reasons)
  {
    hide TokensOf, Chosen, RefsAt;
    selected, reasons := [], map[];
    var total := 0;
    NothingChosen(ranked);
    var k := 0;
    while k < |ranked|
      invariant 0 <= k <= |ranked|
      invariant selected == RefsAt(ranked, Chosen(ranked, k))
      invariant total == TokensOf(ranked, Chosen(ranked, k))
      invariant ReasonsFit(ranked, k, reasons)
    {
      var ref := ranked[k];
      ChosenStep(ranked, k);
      var reason := Selected;
      if |selected| >= TOP_K {
        reason := TopKExceeded;
      } else if total + ref.tokens > TOKEN_BUDGET {
        reason := BudgetExceeded;
      } else {
        selected := selected + [ref];
        total := total + ref.tokens;
      }
      ReasonAdded(ranked, k, reasons, reason);
      reasons := reasons[ref.chunk := reason];
      k := k + 1;
    }
  }

  /** One more chunk: chosen or not, by its reason. */
  lemma ChosenStep(ranked: seq<Ref>, k: nat)
    requires k < |ranked|
    ensures |RefsAt(ranked, Chosen(ranked, k))| == |Chosen(ranked, k)|
    ensures var now, after := Chosen(ranked, k), Chosen(ranked, k + 1);
            if ReasonAt(now, ranked, k) == Selected then
              RefsAt(ranked, after) == RefsAt(ranked, now) + [ranked[k]] && TokensOf(ranked, after) == TokensOf(ranked, now) + ranked[k].tokens
            else after == now
  {
    hide TokensOf;
    if ReasonAt(Chosen(ranked, k), ranked, k) == Selected {
      ChosenGrows(ranked, k);
    }
  }

  lemma {:induction false} NothingChosen(ranked: seq<Ref>)
    ensures RefsAt(ranked, Chosen(ranked, 0)) == [] && TokensOf(ranked, Chosen(ranked, 0)) == 0
  {
  }

  lemma {:induction false} ReasonAdded(ranked: seq<Ref>, k: nat, reasons: map<Id, Reason>, reason: Reason)
    requires k < |ranked| && Distinct(ranked) && ReasonsFit(ranked, k, reasons) && reason == ReasonAt(Chosen(ranked, k), ranked, k)
    ensures ReasonsFit(ranked, k + 1, reasons[ranked[k].chunk := reason])
  {
    hide ReasonAt, Chosen;
  }

  lemma ChosenGrows(ranked: seq<Ref>, k: nat)
    requires k < |ranked| && ReasonAt(Chosen(ranked, k), ranked, k) == Selected
    ensures RefsAt(ranked, Chosen(ranked, k + 1)) == RefsAt(ranked, Chosen(ranked, k)) + [ranked[k]]
    ensures TokensOf(ranked, Chosen(ranked, k + 1)) == TokensOf(ranked, Chosen(ranked, k)) + ranked[k].tokens
    ensures Chosen(ranked, k + 1) == Chosen(ranked, k) + [k]
  {
    assert Chosen(ranked, k + 1)[..|Chosen(ranked, k)|] == Chosen(ranked, k);
  }

  // ---- The choice, in numbers ---------------------------------------------------------------------------

  function TokenSum(refs: seq<Ref>): nat {
    if refs == [] then 0 else TokenSum(refs[..|refs| - 1]) + refs[|refs| - 1].tokens
  }

  /** When position i has its turn, exactly the first m of the chosen stand before it. */
  predicate IsTurn(chosen: seq<nat>, i: nat, m: nat) {
    && m <= |chosen|
    && (forall x :: 0 <= x < m ==> chosen[x] < i)
    && (forall x :: m <= x < |chosen| ==> i <= chosen[x])
  }

  /** The greedy choice: the chosen positions in order, and a position is one of them exactly if at its
      turn fewer than 5 are chosen and 3000 tokens still suffice. */
  ghost predicate IsGreedy(ranked: seq<Ref>, chosen: seq<nat>, cited: seq<Ref>) {
    && |cited| == |chosen| <= 5 && TokenSum(cited) <= 3000
    && (forall x :: 0 <= x < |chosen| ==> chosen[x] < |ranked| && cited[x] == ranked[chosen[x]])
    && (forall x, y :: 0 <= x < y < |chosen| ==> chosen[x] < chosen[y])
    && forall i: nat, m: nat :: i < |ranked| && IsTurn(chosen, i, m) ==>
         (i in chosen <==> m < 5 && TokenSum(cited[..m]) + ranked[i].tokens <= 3000)
  }

  lemma {:induction false} TokensAdd(ranked: seq<Ref>, chosen: seq<nat>)
    requires forall i :: 0 <= i < |chosen| ==> chosen[i] < |ranked|
    ensures TokensOf(ranked, chosen) == TokenSum(RefsAt(ranked, chosen))
  {
    if chosen != [] {
      var init := chosen[..|chosen| - 1];
      TokensAdd(ranked, init);
      assert RefsAt(ranked, chosen)[..|chosen| - 1] == RefsAt(ranked, init);
    }
  }

  /** What is chosen among the first i stays, and what is chosen later stands later. */
  lemma {:induction false} ChosenBefore(ranked: seq<Ref>, k: nat, i: nat)
    requires i <= k <= |ranked|
    ensures var (now, before) := (Chosen(ranked, k), Chosen(ranked, i));
            before <= now && forall x :: |before| <= x < |now| ==> i <= now[x]
  {
    hide ReasonAt;
    if i < k {
      ChosenBefore(ranked, k - 1, i);
    }
  }

  lemma {:induction false} TurnOf(ranked: seq<Ref>, i: nat, m: nat)
    requires i < |ranked| && IsTurn(Chosen(ranked, |ranked|), i, m)
    ensures Chosen(ranked, |ranked|)[..m] == Chosen(ranked, i)
  {
    hide Chosen;
    ChosenBefore(ranked, |ranked|, i);
    var (now, before) := (Chosen(ranked, |ranked|), Chosen(ranked, i));
    assert forall x :: 0 <= x < |before| ==> now[x] == before[x];
    OneTurn(now, i, m, |before|);
  }

  lemma {:induction false} OneTurn(chosen: seq<nat>, i: nat, m: nat, n: nat)
    requires IsTurn(chosen, i, m) && IsTurn(chosen, i, n)
    ensures m == n
  {
    if chosen != [] && chosen[|chosen| - 1] >= i {
      OneTurn(chosen[..|chosen| - 1], i, m, n);
    }
  }

  /** The reason at the turn of a position, in numbers. */
  lemma {:induction false} ReasonAtTurn(ranked: seq<Ref>, i: nat, m: nat)
    requires i < |ranked| && IsTurn(Chosen(ranked, |ranked|), i, m)
    ensures var cited := RefsAt(ranked, Chosen(ranked, |ranked|));
            ReasonAt(Chosen(ranked, i), ranked, i)
            == if m >= 5 then TopKExceeded else if TokenSum(cited[..m]) + ranked[i].tokens > 3000 then BudgetExceeded else Selected
  {
    hide Chosen, TokensOf, TokenSum;
    TurnOf(ranked, i, m);
    TokensAdd(ranked, Chosen(ranked, i));
    assert RefsAt(ranked, Chosen(ranked, |ranked|))[..m] == RefsAt(ranked, Chosen(ranked, i));
  }

  lemma {:induction false} ChoiceIsGreedy(ranked: seq<Ref>)
    ensures IsGreedy(ranked, Chosen(ranked, |ranked|), RefsAt(ranked, Chosen(ranked, |ranked|)))
  {
    hide Chosen, TokensOf, TokenSum, ReasonAt;
    var chosen, cited := Chosen(ranked, |ranked|), RefsAt(ranked, Chosen(ranked, |ranked|));
    ChosenIncreases(ranked, |ranked|);
    ChoiceWithinBudget(ranked, |ranked|);
    TokensAdd(ranked, chosen);
    forall i: nat, m: nat | i < |ranked| && IsTurn(chosen, i, m)
      ensures i in chosen <==> m < 5 && TokenSum(cited[..m]) + ranked[i].tokens <= 3000
    {
      ChosenIff(ranked, |ranked|, i);
      ReasonAtTurn(ranked, i, m);
    }
  }
}
