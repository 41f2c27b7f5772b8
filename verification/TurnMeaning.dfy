/** What one tool call and one answer leave, in the lists of the turn alone: the events, the replies
    the model reads, the searches with their numbers, and the approvals. */
module TurnMeaning {
  import opened Outcomes
  import opened JsonValues
  import opened CitationNumbers
  import opened CitationCheck
  import opened TurnLoop
  import opened TurnTheorems

  // ---- The numbers -----------------------------------------------------------------------------------

  function CountObjects(items: seq<Json>): nat {
    if items == [] then 0 else CountObjects(items[..|items| - 1]) + if items[|items| - 1].Object? then 1 else 0
  }

  /** Every citation that is an object has its number for an identifier, in order from first on, and
      nothing else of it changes, nor of any other item. */
  predicate AreNumbered(items: seq<Json>, numbered: seq<Json>, first: nat) {
    && |numbered| == |items|
    && forall i :: 0 <= i < |items| ==>
         numbered[i] == if items[i].Object? then Object(items[i].fields["citation_id" := Text(CitationId(first + CountObjects(items[..i])))])
                        else items[i]
  }

  lemma {:induction false} ItemsAreNumbered(items: seq<Json>, first: nat)
    ensures AreNumbered(items, Renumbered(items, first).0, first) && Renumbered(items, first).1 == first + CountObjects(items)
  {
    hide AreNumbered;
    if items == [] {
      NothingNumbered(first);
    } else {
      var init, last := items[..|items| - 1], items[|items| - 1];
      ItemsAreNumbered(init, first);
      var (before, number) := Renumbered(init, first);
      var shown := if last.Object? then Object(last.fields["citation_id" := Text(CitationId(number))]) else last;
      NumberedAfter(init, before, first, last, shown);
      assert init + [last] == items && Renumbered(items, first).0 == before + [shown];
    }
  }

  lemma NothingNumbered(first: nat)
    ensures AreNumbered([], [], first)
  {
  }

  lemma {:induction false} NumberedAfter(items: seq<Json>, numbered: seq<Json>, first: nat, last: Json, shown: Json)
    requires AreNumbered(items, numbered, first)
    requires shown == if last.Object? then Object(last.fields["citation_id" := Text(CitationId(first + CountObjects(items)))]) else last
    ensures AreNumbered(items + [last], numbered + [shown], first)
  {
    hide CountObjects;
    var all := items + [last];
    assert all[..|items|] == items;
    assert forall i :: 0 <= i < |items| ==> all[..i] == items[..i];
  }

  /** The result of a search: its data holds a summary. */
  predicate IsSearchResult(name: string, value: Json) {
    && name == "search_knowledge" && value.Object? && "data" in value.fields && value.fields["data"].Object?
    && "retrieval_summary" in value.fields["data"].fields && value.fields["data"].fields["retrieval_summary"].Object?
  }

  /** The same result but for the numbers of its citations, from first to before next. */
  predicate IsNumberedFrom(value: Json, shown: Json, first: nat, next: nat)
    requires value.Object? && "data" in value.fields && value.fields["data"].Object?
  {
    var data := value.fields["data"].fields;
    if "citations" in data && data["citations"].List? then
      && next == first + CountObjects(data["citations"].items)
      && shown.Object? && "data" in shown.fields && shown.fields["data"].Object?
      && "citations" in shown.fields["data"].fields && shown.fields["data"].fields["citations"].List?
      && var items := shown.fields["data"].fields["citations"].items;
      && AreNumbered(data["citations"].items, items, first)
      && shown == Object(value.fields["data" := Object(data["citations" := List(items)])])
    else shown == value && next == first
  }

  lemma SearchIsNumbered(name: string, value: Json, first: nat)
    ensures IsSearchResult(name, value) <==> CheckSearch(name, value) == IsSearch
    ensures IsSearchResult(name, value) ==> IsNumberedFrom(value, Renumber(value, first).0, first, Renumber(value, first).1)
  {
    hide Renumbered, CountObjects, AreNumbered;
    if IsSearchResult(name, value) && CitationsOf(value).List? {
      ItemsAreNumbered(CitationsOf(value).items, first);
    }
  }

  // ---- The approvals ------------------------------------------------------------------------------------

  const APPROVAL_FIELDS := {
    "run_id", "proposal_id", "approval_id", "action_type", "status", "amount_cents", "currency", "resume_required", "error_code"}

  /** A successful proposal whose data has every field of a pending approval. */
  predicate IsProposal(name: string, value: Json) {
    && (name == "propose_refund" || name == "propose_compensation")
    && value.Object? && "ok" in value.fields && value.fields["ok"] == Flag(true)
    && "data" in value.fields && value.fields["data"].Object? && APPROVAL_FIELDS <= value.fields["data"].fields.Keys
  }

  /** The approval holds those fields of the data and no others. */
  predicate IsApprovalOf(approval: Json, value: Json)
    requires value.Object? && "data" in value.fields && value.fields["data"].Object?
  {
    && approval.Object? && approval.fields.Keys == APPROVAL_FIELDS
    && forall field :: field in approval.fields ==>
         field in value.fields["data"].fields && approval.fields[field] == value.fields["data"].fields[field]
  }

  lemma ProposalIs(name: string, value: Json)
    ensures IsProposal(name, value) <==> PendingOf(name, value).Some?
    ensures IsProposal(name, value) ==> IsApprovalOf(PendingOf(name, value).value, value)
  {
  }

  // ---- One call ----------------------------------------------------------------------------------------

  /** A call that fails leaves its events and one reply with the code of the failure. */
  lemma FailedCallLeaves(t: Turn, call: ToolCall, outcome: ToolOutcome, w: World)
    requires AfterCall(t, call, outcome, w).stop.None? && !outcome.Returns?
    ensures call.id.Text? && call.name.Text?
    ensures var (id, name) := (call.id.text, call.name.text);
            var (first, second) := (Event(Requested, id, name, Null), Event(Started, id, name, Null));
            var (events, code) := match outcome
                                  case BadArguments => ([], "BAD_ARGUMENTS")
                                  case Unregistered => ([first], "UNREGISTERED_TOOL")
                                  case _ => ([first, second], "TOOL_EXECUTION_FAILED");
            AfterCall(t, call, outcome, w).turn == t.(
              events := t.events + events + [Event(FailedCall, id, name, Null)],
              messages := t.messages + [ToolReply(call.id, Problem(code))])
  {
    var (id, name) := (call.id.text, call.name.text);
    var (first, second) := (Event(Requested, id, name, Null), Event(Started, id, name, Null));
    assert t.events + [] == t.events;
    assert t.events + [first] + [second] == t.events + [first, second];
  }

  /** A call that returns leaves one value, which the listener hears and the model reads: the result
      itself, or, of a search, the result with the numbers under which the turn keeps it. */
  lemma ReturnedCallLeaves(t: Turn, call: ToolCall, value: Json, written: bool, w: World) returns (shown: Json)
    requires AfterCall(t, call, Returns(value, written), w).stop.None?
    ensures call.id.Text? && call.name.Text? && written
    ensures var (after, id, name) := (AfterCall(t, call, Returns(value, written), w).turn, call.id.text, call.name.text);
            && after.messages == t.messages + [ToolReply(call.id, Result(shown))]
            && after.events == t.events + [Event(Requested, id, name, Null), Event(Started, id, name, Null), Event(Completed, id, name, shown)]
            && (if IsSearchResult(name, value) then
                  && IsNumberedFrom(value, shown, t.next, after.next)
                  && after.payloads == t.payloads + [shown] && after.searches == t.searches + [id]
                else shown == value && after.next == t.next && after.payloads == t.payloads && after.searches == t.searches)
            && (if IsProposal(name, shown) then
                  exists approval :: IsApprovalOf(approval, shown) && after.pending == t.pending + [approval]
                else after.pending == t.pending)
  {
    hide CheckSearch, Renumber, PendingOf, IsSearchResult, IsProposal, IsNumberedFrom, IsApprovalOf;
    var (id, name) := (call.id.text, call.name.text);
    SearchIsNumbered(name, value, t.next);
    shown := if CheckSearch(name, value) == IsSearch then Renumber(value, t.next).0 else value;
    ProposalIs(name, shown);
    SearchHasData(name, value);
    ProposalHasData(name, shown);
    var (first, second, third) := (Event(Requested, id, name, Null), Event(Started, id, name, Null), Event(Completed, id, name, shown));
    assert t.events + [first] + [second] + [third] == t.events + [first, second, third];
  }

  lemma SearchHasData(name: string, value: Json)
    ensures IsSearchResult(name, value) ==> value.Object? && "data" in value.fields && value.fields["data"].Object?
  {
  }

  lemma ProposalHasData(name: string, value: Json)
    ensures IsProposal(name, value) ==> value.Object? && "data" in value.fields && value.fields["data"].Object?
  {
  }

  // ---- What the turn keeps, the model has read ----------------------------------------------------------------

  /** Everything that the turn keeps of a search stands in a reply to the model. */
  ghost predicate KeptIsTold(t: Turn) {
    forall i :: 0 <= i < |t.payloads| ==> IsTold(t.messages, t.payloads[i])
  }

  predicate IsTold(messages: seq<Message>, payload: Json) {
    exists k :: 0 <= k < |messages| && messages[k].ToolReply? && messages[k].reply == Result(payload)
  }

  lemma ToldStays(messages: seq<Message>, more: seq<Message>, payload: Json)
    requires IsTold(messages, payload)
    ensures IsTold(messages + more, payload)
  {
    var k :| 0 <= k < |messages| && messages[k].ToolReply? && messages[k].reply == Result(payload);
    assert (messages + more)[k] == messages[k];
  }

  /** One more reply, and perhaps what it says. */
  lemma ToldGrows(t: Turn, after: Turn, reply: Message)
    requires KeptIsTold(t) && after.messages == t.messages + [reply]
    requires after.payloads == t.payloads
             || (reply.ToolReply? && reply.reply.Result? && after.payloads == t.payloads + [reply.reply.value])
    ensures KeptIsTold(after)
  {
    hide IsTold;
    forall i | 0 <= i < |after.payloads|
      ensures IsTold(after.messages, after.payloads[i])
    {
      if i < |t.payloads| {
        assert IsTold(t.messages, t.payloads[i]);
        ToldStays(t.messages, [reply], t.payloads[i]);
      } else {
        LastIsTold(after.messages, reply.reply.value);
      }
    }
  }

  lemma LastIsTold(messages: seq<Message>, payload: Json)
    requires messages != [] && messages[|messages| - 1].ToolReply? && messages[|messages| - 1].reply == Result(payload)
    ensures IsTold(messages, payload)
  {
  }

  lemma {:induction false} CallsTell(t: Turn, calls: seq<ToolCall>, w: World)
    requires KeptIsTold(t) && AfterCalls(t, calls, w).stop.None?
    ensures KeptIsTold(AfterCalls(t, calls, w).turn)
  {
    hide KeptIsTold, AfterCall, IsSearchResult, IsProposal, IsNumberedFrom, IsApprovalOf;
    if calls != [] {
      var before, last := AfterCalls(t, calls[..|calls| - 1], w).turn, calls[|calls| - 1];
      CallsTell(t, calls[..|calls| - 1], w);
      match w.tools(before.messages, last)
      case Returns(value, written) =>
        var shown := ReturnedCallLeaves(before, last, value, written, w);
        ToldGrows(before, AfterCalls(t, calls, w).turn, ToolReply(last.id, Result(shown)));
      case outcome =>
        FailedCallLeaves(before, last, outcome, w);
        var after := AfterCalls(t, calls, w).turn;
        ToldGrows(before, after, after.messages[|before.messages|]);
    }
  }

  lemma {:induction false} LoopTells(t: Turn, rounds: nat, limit: nat, w: World)
    requires rounds <= limit && KeptIsTold(t)
    ensures Loop(t, rounds, limit, w).outcome.Ok? ==> KeptIsTold(Loop(t, rounds, limit, w).turn)
    decreases limit - rounds
  {
    hide AfterCalls, KeptIsTold, CheckedAnswer, AllReturnable, InvalidEvent;
    PlainTells(t);
    match w.model(t.messages)
    case Says(text, reasoning, calls) =>
      if calls != [] && rounds < limit {
        var asked := Asking(t, text, reasoning, calls);
        ToldGrows(t, asked, Assistant(text, reasoning, calls));
        if AfterCalls(asked, calls, w).stop.None? {
          CallsTell(asked, calls, w);
          LoopTells(AfterCalls(asked, calls, w).turn, rounds + 1, limit, w);
        }
      }
    case _ =>
  }

  lemma PlainTells(t: Turn)
    requires KeptIsTold(t)
    ensures forall t': Turn, m: Message :: t'.messages == t.messages + [m] && t'.payloads == t.payloads ==> KeptIsTold(t')
  {
    hide KeptIsTold;
    forall t': Turn, m: Message | t'.messages == t.messages + [m] && t'.payloads == t.payloads
      ensures KeptIsTold(t')
    {
      ToldGrows(t, t', m);
    }
  }

  /** Every search result from which an answered turn takes its citations stands, under the same
      numbers, in a reply that the model has read. */
  lemma {:induction false} CitationsAreTold(messages: seq<Message>, limit: int, w: World)
    requires RunOneTurn(messages, limit, w).outcome.Ok?
    ensures KeptIsTold(RunOneTurn(messages, limit, w).turn)
  {
    hide Loop;
    assert KeptIsTold(NewTurn(messages));
    LoopTells(NewTurn(messages), 0, limit, w);
  }

  // ---- The answer ----------------------------------------------------------------------------------------------

  /** What an answer leaves: the message, and exactly if the answer is incomplete one event, under the
      first search of the turn, that says what it cited in vain and whether it cited nothing. */
  lemma AnswerLeaves(t: Turn, text: Json, reasoning: Json, w: World)
    requires Answering(t, text, reasoning, w).outcome.Ok?
    ensures var ending := Answering(t, text, reasoning, w);
            && ending.outcome.value.verdict.Some?
            && var verdict := ending.outcome.value.verdict.value;
            && ending.outcome.value == Answer(text, Some(verdict), verdict.incomplete, t.pending)
            && ending.turn.messages == t.messages + [Assistant(text, reasoning, [])]
            && (!verdict.incomplete ==> ending.turn.events == t.events)
            && (verdict.incomplete ==>
                  && |ending.turn.events| == |t.events| + 1 && ending.turn.events[..|t.events|] == t.events
                  && IsComplaint(ending.turn.events[|t.events|], t.searches, verdict))
            && ending.turn == t.(messages := ending.turn.messages, events := ending.turn.events)
  {
    hide Validate, AllReturnable;
  }

  predicate IsComplaint(event: Event, searches: seq<string>, verdict: Verdict) {
    && event.kind == InvalidCitation
    && event.call == (if searches == [] then "final-answer" else searches[0])
    && event.name == (if searches == [] then "citation_validation" else "search_knowledge")
    && event.result.Object? && event.result.fields.Keys == {"unknown_citation_ids", "missing_required_citation"}
    && event.result.fields["missing_required_citation"] == Flag(verdict.missing)
    && event.result.fields["unknown_citation_ids"].List?
    && var ids := event.result.fields["unknown_citation_ids"].items;
    && |ids| == |verdict.unknown| && forall i :: 0 <= i < |ids| ==> ids[i] == Text(verdict.unknown[i])
  }

  // ---- The summary -----------------------------------------------------------------------------------------------

  function RankOf(status: Status): nat {
    match status case Sufficient => 3 case Insufficient => 2 case NotNeeded => 1 case Failed => 0
  }

  /** What a search says of its evidence; anything else counts as failed. */
  function RankOfWord(evidence: Json): nat {
    if evidence == Text("sufficient") then 3
    else if evidence == Text("insufficient") then 2
    else if evidence == Text("not_needed") then 1
    else 0
  }

  function EvidenceOf(payload: Json): Json {
    if SummaryOf(payload).Some? then Get(SummaryOf(payload).value, "evidence_status") else Null
  }

  /** No search has better evidence than the merged summary says, and some search has that much. */
  predicate IsBestEvidence(payloads: seq<Json>, status: Status) {
    && (forall i :: 0 <= i < |payloads| ==> RankOfWord(EvidenceOf(payloads[i])) <= RankOf(status))
    && (payloads != [] ==> exists i :: 0 <= i < |payloads| && RankOfWord(EvidenceOf(payloads[i])) == RankOf(status))
  }

  lemma EvidenceIsBest(payloads: seq<Json>)
    ensures IsBestEvidence(payloads, MergedStatus(payloads))
  {
    hide SummaryOf;
    forall i | 0 <= i < |payloads|
      ensures RankOfWord(EvidenceOf(payloads[i])) == 3 ==> HasStatus(payloads[i], "sufficient")
      ensures RankOfWord(EvidenceOf(payloads[i])) == 2 ==> HasStatus(payloads[i], "insufficient")
      ensures RankOfWord(EvidenceOf(payloads[i])) == 1 ==> HasStatus(payloads[i], "not_needed")
      ensures HasStatus(payloads[i], "sufficient") ==> RankOfWord(EvidenceOf(payloads[i])) == 3
      ensures HasStatus(payloads[i], "insufficient") ==> RankOfWord(EvidenceOf(payloads[i])) == 2
      ensures HasStatus(payloads[i], "not_needed") ==> RankOfWord(EvidenceOf(payloads[i])) == 1
    {
    }
    if MergedStatus(payloads) == Failed && payloads != [] {
      assert RankOfWord(EvidenceOf(payloads[0])) == 0;
    }
  }

  /** The latencies are added up: numbers as they are, fractions towards zero, and what is empty as
      nothing; one that cannot be read spoils the sum. */
  lemma {:induction false} LatenciesAdd(a: seq<map<string, Json>>, b: seq<map<string, Json>>, readers: Readers)
    ensures var (first, second, all) := (TotalLatency(a, readers), TotalLatency(b, readers), TotalLatency(a + b, readers));
            all == if first.Some? && second.Some? then Some(first.value + second.value) else None
  {
    hide Latency;
    if b == [] {
      assert a + b == a;
    } else {
      LatenciesAdd(a, b[..|b| - 1], readers);
      assert (a + b)[..|a + b| - 1] == a + b[..|b| - 1];
    }
  }

  lemma {:induction false} OneLatency(summary: map<string, Json>, value: Json, readers: Readers)
    requires "latency_ms" in summary && summary["latency_ms"] == value
    ensures var total := TotalLatency([summary], readers);
            match value
            case Number(n) => total == Some(n)
            case Fraction(x) =>
              && total.Some?
              && (x >= 0.0 ==> total.value as real <= x < total.value as real + 1.0)
              && (x < 0.0 ==> total.value as real - 1.0 < x <= total.value as real)
            case Text(text) => total == if text == "" then Some(0) else readers.number(text)
            case Null => total == Some(0)
            case Flag(flag) => total == Some(if flag then 1 else 0)
            case NotFinite => total == None
            case List(items) => total == if items == [] then Some(0) else None
            case Object(fields) => total == if fields == map[] then Some(0) else None
  {
    assert TotalLatency([], readers) == Some(0) && [summary][..0] == [];
    if value.Fraction? {
      var x := value.fraction;
      assert x.Floor as real <= x < x.Floor as real + 1.0;
      assert (-x).Floor as real <= -x < (-x).Floor as real + 1.0;
    }
  }

  /** The summary of an answered turn that has searched: the strategy of its first search, the best
      evidence of any, and the latencies of all. */
  lemma SummaryTells(messages: seq<Message>, limit: int, w: World)
    requires var ending := RunOneTurn(messages, limit, w);
             ending.outcome.Ok? && ending.outcome.value.verdict.Some? && ending.turn.payloads != []
    ensures var ending := RunOneTurn(messages, limit, w);
            var (summary, payloads) := (ending.outcome.value.verdict.value.summary, ending.turn.payloads);
            && summary.Some? && SummaryOf(payloads[0]).Some?
            && var strategy := Get(SummaryOf(payloads[0]).value, "strategy");
            && summary.value.strategy == (if Truthy(strategy) then strategy else Text(""))
            && IsBestEvidence(payloads, summary.value.status)
            && Some(summary.value.latency) == TotalLatency(Summaries(payloads), w.readers)
  {
    hide Loop, Adds, Announced, Shown, MergedStatus, TotalLatency, AllIds, Allowlist, Keep, Drop, IsBestEvidence, SummaryOf;
    TurnPromises(messages, limit, w);
    VerdictIsOfTurn(NewTurn(messages), 0, limit, w);
    var payloads := RunOneTurn(messages, limit, w).turn.payloads;
    EvidenceIsBest(payloads);
    FirstSummary(payloads);
  }

  lemma {:induction false} FirstSummary(payloads: seq<Json>)
    requires payloads != [] && SummaryOf(payloads[0]).Some?
    ensures Summaries(payloads) != [] && Summaries(payloads)[0] == SummaryOf(payloads[0]).value
  {
    hide SummaryOf;
    if |payloads| > 1 {
      FirstSummary(payloads[..|payloads| - 1]);
    } else {
      assert Summaries(payloads[..0]) == [];
    }
  }
}
