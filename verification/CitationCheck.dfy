/** The check of the final answer: its citation marks against what the turn's searches
    returned. */
module CitationCheck {
  import opened Outcomes
  import opened JsonValues

  // ---- The marks of an answer -------------------------------------------------------------------

  predicate IsDigit(c: char) {
    '0' <= c <= '9'
  }

  function DigitsFrom(s: string, i: nat): (end: nat)
    requires i <= |s|
    ensures i <= end <= |s| && (forall k :: i <= k < end ==> IsDigit(s[k])) && (end < |s| ==> !IsDigit(s[end]))
    decreases |s| - i
  {
    if i < |s| && IsDigit(s[i]) then DigitsFrom(s, i + 1) else i
  }

  /** The end of the mark [Cn] that starts at i, if one does; n has no leading zero. */
  function MarkEnd(s: string, i: nat): (end: Option<nat>)
    requires i <= |s|
    ensures end.Some? ==> i + 4 <= end.value <= |s|
  {
    if i + 4 > |s| || s[i] != '[' || s[i + 1] != 'C' || !('1' <= s[i + 2] <= '9') then None
    else
      var close := DigitsFrom(s, i + 2);
      if close < |s| && s[close] == ']' then Some(close + 1) else None
  }

  /** The parts of the pattern \[(C[1-9]\d*)\] for ASCII digits. */
  predicate IsMark(s: string, i: nat, end: nat) {
    && i + 4 <= end <= |s|
    && s[i] == '[' && s[i + 1] == 'C' && '1' <= s[i + 2] <= '9'
    && (forall k :: i + 2 <= k < end - 1 ==> IsDigit(s[k]))
    && s[end - 1] == ']'
  }

  lemma MarkEndIff(s: string, i: nat, end: nat)
    requires i <= |s|
    ensures MarkEnd(s, i) == Some(end) <==> IsMark(s, i, end)
  {
    if IsMark(s, i, end) {
      var close := DigitsFrom(s, i + 2);
      assert !IsDigit(s[end - 1]);
      assert close >= end - 1 && close <= end - 1;
    }
  }

  /** findall: the identifiers of the marks from position i on. */
  function Marks(s: string, i: nat): seq<string>
    requires i <= |s|
    decreases |s| - i
  {
    if i == |s| then []
    else
      match MarkEnd(s, i)
      case Some(end) => [s[i + 1..end - 1]] + Marks(s, end)
      case None => Marks(s, i + 1)
  }

  /** No mark starts inside another. */
  lemma MarksDoNotOverlap(s: string, i: nat, end: nat, k: nat)
    requires IsMark(s, i, end) && i < k < end
    ensures k <= |s| && MarkEnd(s, k) == None
  {
  }

  /** A mark that starts here is the only one that starts before its end. */
  lemma MarkStarts(s: string, i: nat, end: nat, k: nat, e: nat)
    requires i <= |s| && MarkEnd(s, i) == Some(end) && i <= k && IsMark(s, k, e)
    ensures (k == i && e == end) || end <= k
  {
    hide MarkEnd, IsMark;
    MarkEndIff(s, i, end);
    if k == i {
      MarkEndIff(s, i, e);
    } else if k < end {
      MarksDoNotOverlap(s, i, end, k);
      MarkEndIff(s, k, e);
    }
  }

  lemma NoMarkStarts(s: string, i: nat, k: nat, e: nat)
    requires i <= |s| && MarkEnd(s, i) == None && i <= k && IsMark(s, k, e)
    ensures i + 1 <= k
  {
    hide MarkEnd, IsMark;
    if k == i {
      MarkEndIff(s, i, e);
    }
  }

  /** The marks found are exactly the marks there are. */
  lemma {:induction false} MarksIff(s: string, i: nat, id: string)
    requires i <= |s|
    ensures id in Marks(s, i) <==> exists k: nat, end: nat :: i <= k && MarkSays(s, k, end, id)
    decreases |s| - i
  {
    hide MarkEnd, MarkSays;
    if i == |s| {
      forall k: nat, e: nat | i <= k
        ensures !MarkSays(s, k, e, id)
      {
        NothingSaid(s, k, e, id);
      }
      return;
    }
    match MarkEnd(s, i)
    case Some(end) =>
      MarksIff(s, end, id);
      MarkEndIff(s, i, end);
      MarkSaysIff(s, i, end, id);
      forall k: nat, e: nat | i <= k && MarkSays(s, k, e, id)
        ensures (k == i && e == end) || end <= k
      {
        MarkSaysIff(s, k, e, id);
        MarkStarts(s, i, end, k, e);
      }
    case None =>
      MarksIff(s, i + 1, id);
      forall k: nat, e: nat | i <= k && MarkSays(s, k, e, id)
        ensures i + 1 <= k
      {
        MarkSaysIff(s, k, e, id);
        NoMarkStarts(s, i, k, e);
      }
  }

  predicate MarkSays(s: string, k: nat, end: nat, id: string) {
    IsMark(s, k, end) && s[k + 1..end - 1] == id
  }

  lemma MarkSaysIff(s: string, k: nat, end: nat, id: string)
    ensures MarkSays(s, k, end, id) <==> IsMark(s, k, end) && s[k + 1..end - 1] == id
  {
  }

  lemma NothingSaid(s: string, k: nat, end: nat, id: string)
    requires k >= |s|
    ensures !MarkSays(s, k, end, id)
  {
  }

  /** The first occurrence of every mark, in order. */
  function FirstMarks(marks: seq<string>): seq<string> {
    if marks == [] then []
    else
      var before, last := FirstMarks(marks[..|marks| - 1]), marks[|marks| - 1];
      if last in before then before else before + [last]
  }

  lemma {:induction false} FirstMarksFit(marks: seq<string>)
    ensures forall id :: id in FirstMarks(marks) <==> id in marks
    ensures forall i, j :: 0 <= i < j < |FirstMarks(marks)| ==> FirstMarks(marks)[i] != FirstMarks(marks)[j]
  {
    if marks != [] {
      FirstMarksFit(marks[..|marks| - 1]);
      assert marks == marks[..|marks| - 1] + [marks[|marks| - 1]];
    }
  }

  // ---- _citation_allowlist --------------------------------------------------------------------------

  /** (payload or {}).get("data") or {} can be read: neither is anything but empty or an object. */
  predicate DataReads(payload: Json) {
    !Truthy(payload) || (payload.Object? && (!Truthy(Get(payload.fields, "data")) || Get(payload.fields, "data").Object?))
  }

  /** data.citations */
  function CitationsOf(payload: Json): Json {
    if payload.Object? && Get(payload.fields, "data").Object? then Get(Get(payload.fields, "data").fields, "citations") else Null
  }

  function ItemsOf(payload: Json): seq<Json> {
    if CitationsOf(payload).List? then CitationsOf(payload).items else []
  }

  /** An identifier is skipped if it is empty; otherwise it must be a possible key. */
  predicate CanBeKey(id: Json) {
    Truthy(id) ==> !id.List? && !id.Object?
  }

  predicate ItemsRead(items: seq<Json>) {
    forall i :: 0 <= i < |items| && items[i].Object? ==> CanBeKey(Get(items[i].fields, "citation_id"))
  }

  /** The loop over the citations of a search result goes through: they are empty, a list, or a
      text or an object, whose parts are skipped. */
  predicate CitationsRead(citations: Json) {
    match citations
    case List(items) => ItemsRead(items)
    case Text(_) => true
    case Object(_) => true
    case _ => !Truthy(citations)
  }

  predicate AllowlistReads(payloads: seq<Json>) {
    forall i :: 0 <= i < |payloads| ==> DataReads(payloads[i]) && CitationsRead(CitationsOf(payloads[i]))
  }

  predicate IsAllowed(item: Json) {
    item.Object? && Truthy(Get(item.fields, "citation_id"))
  }

  /** The citations of a search result that carry an identifier. */
  function Allow(allowed: map<Json, Json>, items: seq<Json>): map<Json, Json> {
    if items == [] then allowed
    else
      var before, last := Allow(allowed, items[..|items| - 1]), items[|items| - 1];
      if IsAllowed(last) then before[Get(last.fields, "citation_id") := last] else before
  }

  /** _citation_allowlist */
  function Allowlist(payloads: seq<Json>): map<Json, Json> {
    if payloads == [] then map[] else Allow(Allowlist(payloads[..|payloads| - 1]), ItemsOf(payloads[|payloads| - 1]))
  }

  function Keep(ids: seq<string>, allowed: map<Json, Json>): (kept: seq<string>)
    ensures forall id :: id in kept <==> id in ids && Text(id) in allowed
  {
    if ids == [] then []
    else
      var last := ids[|ids| - 1];
      Keep(ids[..|ids| - 1], allowed) + if Text(last) in allowed then [last] else []
  }

  function Drop(ids: seq<string>, allowed: map<Json, Json>): (dropped: seq<string>)
    ensures forall id :: id in dropped <==> id in ids && Text(id) !in allowed
  {
    if ids == [] then []
    else
      var last := ids[|ids| - 1];
      Drop(ids[..|ids| - 1], allowed) + if Text(last) in allowed then [] else [last]
  }

  method AllowItems(allowed: map<Json, Json>, items: seq<Json>) returns (after: Option<map<Json, Json>>)
    ensures after == if ItemsRead(items) then Some(Allow(allowed, items)) else None
  {
    var extended := allowed;
    var k := 0;
    while k < |items|
      invariant 0 <= k <= |items|
      invariant ItemsRead(items[..k]) && extended == Allow(allowed, items[..k])
    {
      assert items[..k + 1][..k] == items[..k];
      if IsAllowed(items[k]) {
        var id := Get(items[k].fields, "citation_id");
        if id.List? || id.Object? {
          return None;
        }
        extended := extended[id := items[k]];
      }
      k := k + 1;
    }
    assert items[..k] == items;
    return Some(extended);
  }

  /** None if it raises. */
  method CitationAllowlist(payloads: seq<Json>) returns (allowed: Option<map<Json, Json>>)
    ensures allowed == if AllowlistReads(payloads) then Some(Allowlist(payloads)) else None
  {
    hide Allow, ItemsRead, Truthy, CitationsOf;
    var extended: map<Json, Json> := map[];
    var p := 0;
    while p < |payloads|
      invariant 0 <= p <= |payloads|
      invariant AllowlistReads(payloads[..p]) && extended == Allowlist(payloads[..p])
    {
      assert payloads[..p + 1][..p] == payloads[..p];
      if !DataReads(payloads[p]) {
        return None;
      }
      match CitationsOf(payloads[p]) {
        case List(items) =>
          var after := AllowItems(extended, items);
          if after.None? {
            return None;
          }
          extended := after.value;
        case Text(_) =>
          NothingAllowed(extended);
        case Object(_) =>
          NothingAllowed(extended);
        case citations =>
          if Truthy(citations) {
            return None;
          }
          NothingAllowed(extended);
      }
      p := p + 1;
    }
    assert payloads[..p] == payloads;
    return Some(extended);
  }

  lemma {:induction false} NothingAllowed(allowed: map<Json, Json>)
    ensures Allow(allowed, []) == allowed
  {
  }

  // ---- Building the citations --------------------------------------------------------------------------

  const CITATION_FIELDS := {"citation_id", "document_id", "version_id", "chunk_id", "title", "heading_path", "content"}

  const OFFSET_FIELDS := {"start_offset", "end_offset"}

  /** Citation(**item) takes the fields: all that it needs and none that it does not know. */
  predicate Citable(item: Json) {
    item.Object? && CITATION_FIELDS <= item.fields.Keys <= CITATION_FIELDS + OFFSET_FIELDS
  }

  /** A citation is taken with its seven fields, with or without its two offsets, and with no other. */
  lemma CitableIff(item: Json)
    ensures Citable(item) <==>
              && item.Object?
              && (forall field :: field in ["citation_id", "document_id", "version_id", "chunk_id", "title", "heading_path", "content"] ==>
                    field in item.fields)
              && (forall field :: field in item.fields ==>
                    field in ["citation_id", "document_id", "version_id", "chunk_id", "title", "heading_path", "content", "start_offset", "end_offset"])
  {
    var required := ["citation_id", "document_id", "version_id", "chunk_id", "title", "heading_path", "content"];
    assert forall field :: field in required <==> field in CITATION_FIELDS;
    assert forall field :: field in required + ["start_offset", "end_offset"] <==> field in CITATION_FIELDS + OFFSET_FIELDS;
    assert required + ["start_offset", "end_offset"]
        == ["citation_id", "document_id", "version_id", "chunk_id", "title", "heading_path", "content", "start_offset", "end_offset"];
  }

  predicate CitationsBuild(ids: seq<string>, allowed: map<Json, Json>) {
    forall i :: 0 <= i < |ids| && Text(ids[i]) in allowed ==> Citable(allowed[Text(ids[i])])
  }

  // ---- _merge_retrieval_summaries ------------------------------------------------------------------------

  datatype Status = Sufficient | Insufficient | NotNeeded | Failed

  /** data.retrieval_summary, if it is an object */
  function SummaryOf(payload: Json): Option<map<string, Json>> {
    if payload.Object? && Get(payload.fields, "data").Object? then
      var summary := Get(Get(payload.fields, "data").fields, "retrieval_summary");
      if summary.Object? then Some(summary.fields) else None
    else None
  }

  function Summaries(payloads: seq<Json>): seq<map<string, Json>> {
    if payloads == [] then []
    else
      var last := SummaryOf(payloads[|payloads| - 1]);
      Summaries(payloads[..|payloads| - 1]) + if last.Some? then [last.value] else []
  }

  predicate SomeStatus(payloads: seq<Json>, status: string) {
    exists i :: 0 <= i < |payloads| && HasStatus(payloads[i], status)
  }

  predicate HasStatus(payload: Json, status: string) {
    SummaryOf(payload).Some? && Get(SummaryOf(payload).value, "evidence_status") == Text(status)
  }

  /** The best evidence of any round. */
  function MergedStatus(payloads: seq<Json>): Status {
    if SomeStatus(payloads, "sufficient") then Sufficient
    else if SomeStatus(payloads, "insufficient") then Insufficient
    else if SomeStatus(payloads, "not_needed") then NotNeeded
    else Failed
  }

  /** int(value or 0), if it does not raise */
  function Latency(value: Json, readers: Readers): Option<int> {
    match value
    case Number(n) => Some(n)
    case Flag(flag) => Some(if flag then 1 else 0)
    case Fraction(x) => Some(Truncated(x))
    case Text(text) => if text == "" then Some(0) else readers.number(text)
    case _ => if Truthy(value) then None else Some(0)
  }

  /** sum(int(...) for summary in summaries), if it does not raise */
  function TotalLatency(summaries: seq<map<string, Json>>, readers: Readers): Option<int> {
    if summaries == [] then Some(0)
    else
      var before := TotalLatency(summaries[..|summaries| - 1], readers);
      var last := Latency(Get(summaries[|summaries| - 1], "latency_ms"), readers);
      if before.Some? && last.Some? then Some(before.value + last.value) else None
  }

  datatype Summary = Summary(strategy: Json, rounds: nat, status: Status, latency: int)

  predicate SummariesRead(payloads: seq<Json>, readers: Readers) {
    (forall i :: 0 <= i < |payloads| ==> DataReads(payloads[i])) && TotalLatency(Summaries(payloads), readers).Some?
  }

  /** The strategy of the first round, the number of rounds, the best evidence, and the latency of
      all of them together. */
  function Merged(payloads: seq<Json>, readers: Readers): Option<Summary>
    requires SummariesRead(payloads, readers)
  {
    var summaries := Summaries(payloads);
    if summaries == [] then None
    else
      var strategy := Get(summaries[0], "strategy");
      Some(Summary(if Truthy(strategy) then strategy else Text(""), |summaries|, MergedStatus(payloads), TotalLatency(summaries, readers).value))
  }

  predicate IsSufficient(merged: Option<Summary>) {
    merged.Some? && merged.value.status == Sufficient
  }

  /** None if it raises. */
  method MergeRetrievalSummaries(payloads: seq<Json>, readers: Readers) returns (merged: Option<Option<Summary>>)
    ensures merged == if SummariesRead(payloads, readers) then Some(Merged(payloads, readers)) else None
  {
    hide SummaryOf, MergedStatus, TotalLatency, DataReads;
    var summaries: seq<map<string, Json>> := [];
    var p := 0;
    while p < |payloads|
      invariant 0 <= p <= |payloads|
      invariant summaries == Summaries(payloads[..p]) && forall i :: 0 <= i < p ==> DataReads(payloads[i])
    {
      assert payloads[..p + 1][..p] == payloads[..p];
      if !DataReads(payloads[p]) {
        return None;
      }
      var summary := SummaryOf(payloads[p]);
      if summary.Some? {
        summaries := summaries + [summary.value];
      }
      p := p + 1;
    }
    assert payloads[..p] == payloads;
    var latency := SumLatencies(summaries, readers);
    if latency.None? {
      return None;
    }
    if summaries == [] {
      return Some(None);
    }
    var strategy := Get(summaries[0], "strategy");
    return Some(Some(Summary(if Truthy(strategy) then strategy else Text(""), |summaries|, MergedStatus(payloads), latency.value)));
  }

  method SumLatencies(summaries: seq<map<string, Json>>, readers: Readers) returns (total: Option<int>)
    ensures total == TotalLatency(summaries, readers)
  {
    hide Latency;
    var sum := 0;
    var k := 0;
    while k < |summaries|
      invariant 0 <= k <= |summaries|
      invariant TotalLatency(summaries[..k], readers) == Some(sum)
    {
      assert summaries[..k + 1][..k] == summaries[..k];
      var latency := Latency(Get(summaries[k], "latency_ms"), readers);
      if latency.None? {
        NoTotal(summaries, k + 1, readers);
        return None;
      }
      sum := sum + latency.value;
      k := k + 1;
    }
    assert summaries[..k] == summaries;
    return Some(sum);
  }

  lemma {:induction false} NoTotal(summaries: seq<map<string, Json>>, k: nat, readers: Readers)
    requires k <= |summaries| && TotalLatency(summaries[..k], readers).None?
    ensures TotalLatency(summaries, readers).None?
    decreases |summaries| - k
  {
    hide Latency;
    if k < |summaries| {
      assert summaries[..k + 1][..k] == summaries[..k];
      NoTotal(summaries, k + 1, readers);
    } else {
      assert summaries[..k] == summaries;
    }
  }

  // ---- validate_final_citations ------------------------------------------------------------------------

  datatype Verdict = Verdict(cited: seq<string>, unknown: seq<string>, summary: Option<Summary>, missing: bool, incomplete: bool)

  /** The check goes through: the citations of all search results can be looked up, those that the
      answer cites have the fields of a citation, and the latencies can be added up. */
  predicate Checkable(answer: string, payloads: seq<Json>, readers: Readers) {
    && AllowlistReads(payloads)
    && CitationsBuild(FirstMarks(Marks(answer, 0)), Allowlist(payloads))
    && SummariesRead(payloads, readers)
  }

  /** None if the check raises. */
  function Validate(answer: string, payloads: seq<Json>, readers: Readers): Option<Verdict> {
    if !Checkable(answer, payloads, readers) then None
    else
      var found, allowed := FirstMarks(Marks(answer, 0)), Allowlist(payloads);
      var cited, unknown := Keep(found, allowed), Drop(found, allowed);
      var summary := Merged(payloads, readers);
      var missing := IsSufficient(summary) && allowed != map[] && cited == [];
      Some(Verdict(cited, unknown, summary, missing, unknown != [] || missing))
  }

  method ValidateFinalCitations(answer: string, payloads: seq<Json>, readers: Readers) returns (verdict: Option<Verdict>)
    ensures verdict == Validate(answer, payloads, readers)
  {
    hide MarkEnd, Merged, Allowlist, AllowlistReads, SummariesRead, Citable;
    var found := FindMarks(answer);
    var allowed := CitationAllowlist(payloads);
    if allowed.None? {
      return None;
    }
    var cited := BuildCitations(found, allowed.value);
    if cited.None? {
      return None;
    }
    var unknown := Drop(found, allowed.value);
    var summary := MergeRetrievalSummaries(payloads, readers);
    if summary.None? {
      return None;
    }
    var missing := IsSufficient(summary.value) && allowed.value != map[] && cited.value == [];
    return Some(Verdict(cited.value, unknown, summary.value, missing, unknown != [] || missing));
  }

  method FindMarks(answer: string) returns (found: seq<string>)
    ensures found == FirstMarks(Marks(answer, 0))
  {
    hide MarkEnd;
    var marks := Marks(answer, 0);
    found := [];
    var k := 0;
    while k < |marks|
      invariant 0 <= k <= |marks|
      invariant found == FirstMarks(marks[..k])
    {
      assert marks[..k + 1][..k] == marks[..k];
      if marks[k] !in found {
        found := found + [marks[k]];
      }
      k := k + 1;
    }
    assert marks[..k] == marks;
  }

  method BuildCitations(found: seq<string>, allowed: map<Json, Json>) returns (cited: Option<seq<string>>)
    ensures cited == if CitationsBuild(found, allowed) then Some(Keep(found, allowed)) else None
  {
    hide Citable;
    var kept: seq<string> := [];
    var k := 0;
    while k < |found|
      invariant 0 <= k <= |found|
      invariant CitationsBuild(found[..k], allowed) && kept == Keep(found[..k], allowed)
    {
      assert found[..k + 1][..k] == found[..k];
      if Text(found[k]) in allowed {
        if !Citable(allowed[Text(found[k])]) {
          return None;
        }
        kept := kept + [found[k]];
      }
      k := k + 1;
    }
    assert found[..k] == found;
    return Some(kept);
  }

  // ---- What the verdict says -----------------------------------------------------------------------------

  /** The identifiers of the citations of one search result. */
  function IdsIn(payload: Json): seq<Json> {
    IdsOf(ItemsOf(payload))
  }

  function IdsOf(items: seq<Json>): seq<Json> {
    if items == [] then []
    else
      var last := items[|items| - 1];
      IdsOf(items[..|items| - 1]) + if last.Object? then [Get(last.fields, "citation_id")] else []
  }

  function AllIds(payloads: seq<Json>): seq<Json> {
    if payloads == [] then [] else AllIds(payloads[..|payloads| - 1]) + IdsIn(payloads[|payloads| - 1])
  }

  lemma {:induction false} AllowIds(allowed: map<Json, Json>, items: seq<Json>, id: string)
    requires id != ""
    ensures Text(id) in Allow(allowed, items) <==> Text(id) in allowed || Text(id) in IdsOf(items)
  {
    if items != [] {
      AllowIds(allowed, items[..|items| - 1], id);
    }
  }

  lemma {:induction false} AllowlistIds(payloads: seq<Json>, id: string)
    requires id != ""
    ensures Text(id) in Allowlist(payloads) <==> Text(id) in AllIds(payloads)
  {
    if payloads != [] {
      AllowlistIds(payloads[..|payloads| - 1], id);
      AllowIds(Allowlist(payloads[..|payloads| - 1]), ItemsOf(payloads[|payloads| - 1]), id);
    }
  }

  /** The citations of all search results, in order. */
  function AllItems(payloads: seq<Json>): seq<Json> {
    if payloads == [] then [] else AllItems(payloads[..|payloads| - 1]) + ItemsOf(payloads[|payloads| - 1])
  }

  /** Item k is the last citation that carries this identifier. */
  predicate IsLastWith(items: seq<Json>, k: nat, id: Json) {
    && k < |items| && items[k].Object? && Get(items[k].fields, "citation_id") == id && Truthy(id)
    && forall l :: k < l < |items| && items[l].Object? ==> Get(items[l].fields, "citation_id") != id
  }

  lemma {:induction false} AllowAppend(allowed: map<Json, Json>, a: seq<Json>, b: seq<Json>)
    ensures Allow(Allow(allowed, a), b) == Allow(allowed, a + b)
  {
    if b == [] {
      assert a + b == a;
    } else {
      AllowAppend(allowed, a, b[..|b| - 1]);
      assert (a + b)[..|a + b| - 1] == a + b[..|b| - 1];
    }
  }

  lemma {:induction false} AllowlistOfAll(payloads: seq<Json>)
    ensures Allowlist(payloads) == Allow(map[], AllItems(payloads))
  {
    if payloads != [] {
      AllowlistOfAll(payloads[..|payloads| - 1]);
      AllowAppend(map[], AllItems(payloads[..|payloads| - 1]), ItemsOf(payloads[|payloads| - 1]));
    }
  }

  lemma {:induction false} AllowedIsLast(items: seq<Json>, id: Json) returns (k: nat)
    ensures id in Allow(map[], items) ==> IsLastWith(items, k, id) && Allow(map[], items)[id] == items[k]
  {
    if items == [] {
      k := 0;
    } else {
      var init, last := items[..|items| - 1], items[|items| - 1];
      if IsAllowed(last) && Get(last.fields, "citation_id") == id {
        k := |items| - 1;
      } else {
        k := AllowedIsLast(init, id);
        assert forall l :: 0 <= l < |init| ==> items[l] == init[l];
      }
    }
  }

  /** A citation that is looked up by its identifier is the last that any search returned under it. */
  lemma AllowlistIsLast(payloads: seq<Json>, id: Json) returns (k: nat)
    requires id in Allowlist(payloads)
    ensures IsLastWith(AllItems(payloads), k, id) && Allowlist(payloads)[id] == AllItems(payloads)[k]
  {
    AllowlistOfAll(payloads);
    k := AllowedIsLast(AllItems(payloads), id);
  }

  ghost predicate Cites(answer: string, id: string) {
    exists k: nat, end: nat :: MarkSays(answer, k, end, id)
  }

  lemma CitedIsNumber(answer: string, id: string)
    requires Cites(answer, id)
    ensures id != ""
  {
  }

  /** Every mark of the answer is either returned as a citation, and then some search of the
      turn returned that citation, or reported as unknown, and then none did. */
  lemma {:induction false} MarksAreAccounted(answer: string, payloads: seq<Json>, readers: Readers, id: string)
    ensures var verdict := Validate(answer, payloads, readers);
            verdict.Some? ==>
              && (id in verdict.value.cited <==> Cites(answer, id) && Text(id) in AllIds(payloads))
              && (id in verdict.value.unknown <==> Cites(answer, id) && Text(id) !in AllIds(payloads))
  {
    hide MarkEnd, IsMark, Merged, AllowlistReads, SummariesRead, CitationsBuild;
    var marks := Marks(answer, 0);
    FirstMarksFit(marks);
    MarksIff(answer, 0, id);
    if Cites(answer, id) {
      CitedIsNumber(answer, id);
      AllowlistIds(payloads, id);
    }
  }

  lemma {:induction false} SummaryIsThere(payloads: seq<Json>, i: nat)
    requires i < |payloads| && SummaryOf(payloads[i]).Some?
    ensures Summaries(payloads) != []
  {
    hide SummaryOf;
    if i < |payloads| - 1 {
      SummaryIsThere(payloads[..|payloads| - 1], i);
    }
  }

  lemma {:induction false} SufficientIff(payloads: seq<Json>, readers: Readers)
    requires SummariesRead(payloads, readers)
    ensures IsSufficient(Merged(payloads, readers)) <==> SomeStatus(payloads, "sufficient")
  {
    hide Summaries, TotalLatency, SummaryOf, DataReads;
    if i :| 0 <= i < |payloads| && HasStatus(payloads[i], "sufficient") {
      SummaryIsThere(payloads, i);
    }
  }

  /** An answer is reported incomplete exactly if it cites what no search returned, or cites
      nothing although a search brought sufficient evidence with citations. */
  lemma {:induction false} IncompleteIff(answer: string, payloads: seq<Json>, readers: Readers)
    ensures Validate(answer, payloads, readers).Some? ==>
              (Validate(answer, payloads, readers).value.incomplete <==>
                 || (exists id :: Cites(answer, id) && Text(id) !in AllIds(payloads))
                 || (&& SomeStatus(payloads, "sufficient")
                     && Allowlist(payloads) != map[]
                     && forall id :: Cites(answer, id) ==> Text(id) !in AllIds(payloads)))
  {
    hide Cites, Allowlist, AllIds, Merged, SomeStatus, AllowlistReads, SummariesRead, CitationsBuild, Citable;
    if Validate(answer, payloads, readers).None? {
      return;
    }
    SufficientIff(payloads, readers);
    var verdict := Validate(answer, payloads, readers).value;
    forall id
      ensures id in verdict.cited <==> Cites(answer, id) && Text(id) in AllIds(payloads)
      ensures id in verdict.unknown <==> Cites(answer, id) && Text(id) !in AllIds(payloads)
    {
      MarksAreAccounted(answer, payloads, readers, id);
    }
    if verdict.unknown != [] {
      assert verdict.unknown[0] in verdict.unknown;
    }
    if verdict.cited != [] {
      assert verdict.cited[0] in verdict.cited;
    }
  }

  // ---- The order of the verdict ------------------------------------------------------------------------------

  /** The marks that start from position i to position p are among these. */
  ghost predicate AreAmong(s: string, i: nat, p: nat, ids: seq<string>) {
    forall q: nat, e: nat, id :: i <= q <= p && MarkSays(s, q, e, id) ==> id in ids
  }

  lemma AmongWithFirst(s: string, i: nat, close: nat, p: nat, first: string, ids: seq<string>)
    requires i <= |s| && MarkEnd(s, i) == Some(close) && MarkSays(s, i, close, first)
    requires p < close || AreAmong(s, close, p, ids)
    ensures AreAmong(s, i, p, [first] + ids)
  {
    hide MarkEnd, MarkSays, IsMark;
    MarkSaysIff(s, i, close, first);
    forall q: nat, e: nat, id | i <= q <= p && MarkSays(s, q, e, id)
      ensures id in [first] + ids
    {
      MarkSaysIff(s, q, e, id);
      MarkStarts(s, i, close, q, e);
      assert ([first] + ids)[0] == first;
    }
  }

  lemma AmongWithoutFirst(s: string, i: nat, p: nat, ids: seq<string>)
    requires i <= |s| && MarkEnd(s, i) == None && AreAmong(s, i + 1, p, ids)
    ensures AreAmong(s, i, p, ids)
  {
    hide MarkEnd, MarkSays, IsMark;
    forall q: nat, e: nat, id | i <= q <= p && MarkSays(s, q, e, id)
      ensures id in ids
    {
      MarkSaysIff(s, q, e, id);
      NoMarkStarts(s, i, q, e);
    }
  }

  /** Where mark x stands: every mark that starts there or before is one of the first x + 1. */
  lemma {:induction false} MarkAt(s: string, i: nat, x: nat) returns (p: nat, end: nat)
    requires i <= |s| && x < |Marks(s, i)|
    ensures i <= p && MarkSays(s, p, end, Marks(s, i)[x]) && AreAmong(s, i, p, Marks(s, i)[..x + 1])
    decreases |s| - i
  {
    hide MarkEnd, MarkSays, AreAmong;
    match MarkEnd(s, i)
    case Some(close) =>
      MarkEndIff(s, i, close);
      var first := s[i + 1..close - 1];
      MarkSaysIff(s, i, close, first);
      if x == 0 {
        p, end := i, close;
        AmongWithFirst(s, i, close, p, first, []);
        assert Marks(s, i)[..1] == [first] + [];
      } else {
        p, end := MarkAt(s, close, x - 1);
        AmongWithFirst(s, i, close, p, first, Marks(s, close)[..x]);
        assert Marks(s, i)[..x + 1] == [first] + Marks(s, close)[..x];
      }
    case None =>
      p, end := MarkAt(s, i + 1, x);
      AmongWithoutFirst(s, i, p, Marks(s, i + 1)[..x + 1]);
  }

  lemma {:induction false} FirstMarkAt(marks: seq<string>, a: nat, b: nat) returns (x: nat)
    requires a < b < |FirstMarks(marks)|
    ensures x < |marks| && marks[x] == FirstMarks(marks)[a] && FirstMarks(marks)[b] !in marks[..x + 1]
  {
    var init := marks[..|marks| - 1];
    FirstMarksFit(init);
    if b < |FirstMarks(init)| {
      x := FirstMarkAt(init, a, b);
      assert marks[..x + 1] == init[..x + 1];
    } else {
      assert FirstMarks(init)[a] in init;
      x :| 0 <= x < |init| && init[x] == FirstMarks(init)[a];
      assert forall id :: id in marks[..x + 1] ==> id in init;
    }
  }

  lemma {:induction false} KeptInOrder(ids: seq<string>, allowed: map<Json, Json>, a: nat, b: nat) returns (x: nat, y: nat)
    requires a < b < |Keep(ids, allowed)|
    ensures x < y < |ids| && ids[x] == Keep(ids, allowed)[a] && ids[y] == Keep(ids, allowed)[b]
  {
    var init := ids[..|ids| - 1];
    if b < |Keep(init, allowed)| {
      x, y := KeptInOrder(init, allowed, a, b);
    } else {
      assert Keep(init, allowed)[a] in init;
      x :| 0 <= x < |init| && init[x] == Keep(init, allowed)[a];
      y := |ids| - 1;
    }
  }

  lemma {:induction false} DroppedInOrder(ids: seq<string>, allowed: map<Json, Json>, a: nat, b: nat) returns (x: nat, y: nat)
    requires a < b < |Drop(ids, allowed)|
    ensures x < y < |ids| && ids[x] == Drop(ids, allowed)[a] && ids[y] == Drop(ids, allowed)[b]
  {
    hide Drop;
    NothingDropped(allowed);
    var init := ids[..|ids| - 1];
    DropStep(ids, allowed);
    if b < |Drop(init, allowed)| {
      x, y := DroppedInOrder(init, allowed, a, b);
    } else {
      x := DroppedAt(init, allowed, a);
      y := |ids| - 1;
    }
  }

  lemma {:induction false} NothingDropped(allowed: map<Json, Json>)
    ensures Drop([], allowed) == []
  {
  }

  lemma {:induction false} DropStep(ids: seq<string>, allowed: map<Json, Json>)
    requires ids != []
    ensures var last := ids[|ids| - 1];
            Drop(ids, allowed) == Drop(ids[..|ids| - 1], allowed) + if Text(last) in allowed then [] else [last]
  {
  }

  lemma DroppedAt(ids: seq<string>, allowed: map<Json, Json>, a: nat) returns (x: nat)
    requires a < |Drop(ids, allowed)|
    ensures x < |ids| && ids[x] == Drop(ids, allowed)[a]
  {
    hide Drop;
    assert Drop(ids, allowed)[a] in ids;
    x :| 0 <= x < |ids| && ids[x] == Drop(ids, allowed)[a];
  }

  /** The answer says first before it ever says second, and they are two. */
  ghost predicate SaysBefore(answer: string, first: string, second: string) {
    exists p: nat, end: nat :: MarkSays(answer, p, end, first) && NotYet(answer, p, second)
  }

  ghost predicate NotYet(answer: string, p: nat, id: string) {
    forall q: nat, e: nat :: q <= p ==> !MarkSays(answer, q, e, id)
  }

  lemma {:induction false} MarksInOrder(answer: string, x: nat, y: nat)
    requires x < y < |FirstMarks(Marks(answer, 0))|
    ensures SaysBefore(answer, FirstMarks(Marks(answer, 0))[x], FirstMarks(Marks(answer, 0))[y])
  {
    hide MarkSays;
    var marks := Marks(answer, 0);
    var i := FirstMarkAt(marks, x, y);
    var p, end := MarkAt(answer, 0, i);
    assert NotYet(answer, p, FirstMarks(marks)[y]);
  }

  /** The citations of the verdict stand in the order in which the answer first makes them, each once,
      and so do the identifiers it does not know. */
  lemma VerdictInOrder(answer: string, payloads: seq<Json>, readers: Readers, a: nat, b: nat)
    requires Validate(answer, payloads, readers).Some? && a < b
    ensures var verdict := Validate(answer, payloads, readers).value;
            && (b < |verdict.cited| ==> SaysBefore(answer, verdict.cited[a], verdict.cited[b]))
            && (b < |verdict.unknown| ==> SaysBefore(answer, verdict.unknown[a], verdict.unknown[b]))
  {
    hide Marks, FirstMarks, Keep, Drop, Merged, Checkable, SaysBefore, IsSufficient;
    var verdict, found, allowed := Validate(answer, payloads, readers).value, FirstMarks(Marks(answer, 0)), Allowlist(payloads);
    if b < |verdict.cited| {
      var x, y := KeptInOrder(found, allowed, a, b);
      MarksInOrder(answer, x, y);
    }
    if b < |verdict.unknown| {
      var x, y := DroppedInOrder(found, allowed, a, b);
      MarksInOrder(answer, x, y);
    }
  }
}
