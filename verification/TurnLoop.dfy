/** One turn of the agent: the model is asked, its tool calls are carried out, and the loop
    goes on until the model answers, a limit is reached, or something raises that nobody handles. */
module TurnLoop {
  import opened Outcomes
  import opened JsonValues
  import opened CitationNumbers
  import opened CitationCheck
  import Strings = Text

  // ---- The transcript and the events ---------------------------------------------------------

  /** A call as the model wrote it: the identifier and the name need not be texts. */
  datatype ToolCall = ToolCall(id: Json, name: Json, arguments: Json)

  datatype Reply = Problem(code: string) | Result(value: Json)

  datatype Message =
    | Input(content: string)
    | Assistant(text: Json, reasoning: Json, calls: seq<ToolCall>)
    | ToolReply(call: Json, reply: Reply)

  /** What the model does when it is asked: it cannot be reached, its response has no first
      message, that message asks for calls without a function, or it can be read. */
  datatype ModelReply = Unavailable | NoMessage | BadCalls | Says(text: Json, reasoning: Json, calls: seq<ToolCall>)

  /** What comes of one tool call: the parser of its arguments refuses them or itself breaks, the
      tool is not registered, it raises, or it returns a value, which can be written as text or not. */
  datatype ToolOutcome = BadArguments | ParserBreaks | Unregistered | Fails | Returns(value: Json, written: bool)

  datatype EventKind = Requested | Started | Completed | FailedCall | InvalidCitation

  datatype Event = Event(kind: EventKind, call: string, name: string, result: Json)

  /** How a turn fails; the last five are exceptions that nothing handles. */
  datatype TurnError =
    | BadLimit | ModelUnavailable | RoundLimit
    | MalformedReply | MalformedCall | MalformedResult | ListenerRaised | MalformedAnswer

  const UNHANDLED := {MalformedReply, MalformedCall, MalformedResult, ListenerRaised, MalformedAnswer}

  /** The lists a turn keeps: the transcript, the events, the knowledge results and the calls they
      came from, the pending approvals, and the number of the next citation. */
  datatype Turn = Turn(
    messages: seq<Message>, events: seq<Event>, payloads: seq<Json>, searches: seq<string>, pending: seq<Json>, next: nat)

  /** Everything a turn does not choose: the model, the tools, the listener, which takes the last of
      the events so far or raises, and what outside code makes of values. */
  datatype World = World(
    model: seq<Message> -> ModelReply, tools: (seq<Message>, ToolCall) -> ToolOutcome, hears: seq<Event> -> bool, readers: Readers)

  // ---- extract_pending_approval -----------------------------------------------------------------

  const PENDING_FIELDS := {
    "run_id", "proposal_id", "approval_id", "action_type", "status", "amount_cents", "currency", "resume_required", "error_code"}

  function PendingOf(name: string, value: Json): Option<Json> {
    if name != "propose_refund" && name != "propose_compensation" then None
    else if !value.Object? || Get(value.fields, "ok") != Flag(true) then None
    else
      var data := Get(value.fields, "data");
      if !data.Object? || !(PENDING_FIELDS <= data.fields.Keys) then None
      else Some(Object(map field | field in PENDING_FIELDS :: data.fields[field]))
  }

  predicate TakenAsInt(value: Json, readers: Readers) {
    match value
    case Number(_) => true
    case Flag(_) => true
    case Text(_) => readers.amount(value)
    case Fraction(_) => readers.amount(value)
    case _ => false
  }

  predicate TakenAsFlag(value: Json, readers: Readers) {
    match value
    case Flag(_) => true
    case Number(n) => n == 0 || n == 1
    case Text(_) => readers.flag(value)
    case Fraction(_) => readers.flag(value)
    case _ => false
  }

  /** The response model takes an approval: the fields of PendingApproval have their types. */
  predicate Returnable(approval: Json, readers: Readers) {
    && approval.Object?
    && (forall field :: field in {"run_id", "proposal_id", "approval_id", "action_type", "status", "currency"} ==>
          Get(approval.fields, field).Text?)
    && TakenAsInt(Get(approval.fields, "amount_cents"), readers)
    && TakenAsFlag(Get(approval.fields, "resume_required"), readers)
    && IsTextOrNull(Get(approval.fields, "error_code"))
  }

  predicate AllReturnable(pending: seq<Json>, readers: Readers) {
    forall i :: 0 <= i < |pending| ==> Returnable(pending[i], readers)
  }

  // ---- Search results and citation numbers --------------------------------------------------------

  /** Whether a result counts as a search; a result whose data is neither empty nor an object
      makes the check itself raise. */
  datatype SearchCheck = IsSearch | NotSearch | CheckRaises

  function CheckSearch(name: string, value: Json): SearchCheck {
    if name != "search_knowledge" || !value.Object? then NotSearch
    else
      var data := Get(value.fields, "data");
      if !Truthy(data) then NotSearch
      else if !data.Object? then CheckRaises
      else if Get(data.fields, "retrieval_summary").Object? then IsSearch
      else NotSearch
  }

  /** Number the citations that are objects, in order, from next on. */
  function Renumbered(items: seq<Json>, next: nat): (seq<Json>, nat) {
    if items == [] then ([], next)
    else
      var (before, number) := Renumbered(items[..|items| - 1], next);
      var last := items[|items| - 1];
      if last.Object? then (before + [Object(last.fields["citation_id" := Text(CitationId(number))])], number + 1)
      else (before + [last], number)
  }

  /** _renumber_knowledge_citations */
  function Renumber(value: Json, next: nat): (Json, nat) {
    if !value.Object? then (value, next)
    else
      var data := Get(value.fields, "data");
      if !data.Object? then (value, next)
      else
        var citations := Get(data.fields, "citations");
        if !citations.List? then (value, next)
        else
          var (items, number) := Renumbered(citations.items, next);
          (Object(value.fields["data" := Object(data.fields["citations" := List(items)])]), number)
  }

  // ---- One tool call -----------------------------------------------------------------------------

  /** The turn so far, and the error if something has raised. */
  datatype Progress = Progress(turn: Turn, stop: Option<TurnError>)

  /** The event model takes the identifier and the name of a call. */
  predicate IsReadable(call: ToolCall) {
    call.id.Text? && call.name.Text?
  }

  function EventOf(kind: EventKind, call: ToolCall, result: Json): Event
    requires IsReadable(call)
  {
    Event(kind, call.id.text, call.name.text, result)
  }

  /** emit */
  function Emitted(t: Turn, event: Event, w: World): Progress {
    var told := t.(events := t.events + [event]);
    Progress(told, if w.hears(told.events) then None else Some(ListenerRaised))
  }

  function Requesting(t: Turn, call: ToolCall, w: World): Progress
    requires IsReadable(call)
  {
    Emitted(t, EventOf(Requested, call, Null), w)
  }

  function Starting(t: Turn, call: ToolCall, w: World): Progress
    requires IsReadable(call)
  {
    var asked := Requesting(t, call, w);
    if asked.stop.Some? then asked else Emitted(asked.turn, EventOf(Started, call, Null), w)
  }

  /** A call that failed: the event, then the reply. */
  function Failing(p: Progress, call: ToolCall, code: string, w: World): Progress
    requires IsReadable(call)
  {
    if p.stop.Some? then p
    else
      var told := Emitted(p.turn, EventOf(FailedCall, call, Null), w);
      if told.stop.Some? then told else Replied(told.turn, call, Problem(code))
  }

  function Replied(t: Turn, call: ToolCall, reply: Reply): Progress {
    Progress(t.(messages := t.messages + [ToolReply(call.id, reply)]), None)
  }

  /** A result that came back: search results are renumbered and kept, proposals noted. */
  function Noted(t: Turn, call: ToolCall, value: Json): (Json, Turn)
    requires IsReadable(call)
  {
    var search := CheckSearch(call.name.text, value) == IsSearch;
    var (shown, next) := if search then Renumber(value, t.next) else (value, t.next);
    var pending := PendingOf(call.name.text, shown);
    (shown, t.(
      payloads := if search then t.payloads + [shown] else t.payloads,
      searches := if search then t.searches + [call.id.text] else t.searches,
      pending := if pending.Some? then t.pending + [pending.value] else t.pending,
      next := next))
  }

  function Finishing(p: Progress, call: ToolCall, value: Json, written: bool, w: World): Progress
    requires IsReadable(call)
  {
    if p.stop.Some? then p
    else if CheckSearch(call.name.text, value) == CheckRaises then Progress(p.turn, Some(MalformedResult))
    else
      var (shown, noted) := Noted(p.turn, call, value);
      var told := Emitted(noted, EventOf(Completed, call, shown), w);
      if told.stop.Some? then told
      else if !written then Progress(told.turn, Some(MalformedResult))
      else Replied(told.turn, call, Result(shown))
  }

  function AfterCall(t: Turn, call: ToolCall, outcome: ToolOutcome, w: World): Progress {
    if outcome.ParserBreaks? || !IsReadable(call) then Progress(t, Some(MalformedCall))
    else
      match outcome
      case BadArguments => Failing(Progress(t, None), call, "BAD_ARGUMENTS", w)
      case Unregistered => Failing(Requesting(t, call, w), call, "UNREGISTERED_TOOL", w)
      case Fails => Failing(Starting(t, call, w), call, "TOOL_EXECUTION_FAILED", w)
      case Returns(value, written) => Finishing(Starting(t, call, w), call, value, written, w)
      case ParserBreaks => Progress(t, Some(MalformedCall))
  }

  /** All calls of one reply, one after the other, up to one that raises. */
  function AfterCalls(t: Turn, calls: seq<ToolCall>, w: World): Progress {
    if calls == [] then Progress(t, None)
    else
      var before := AfterCalls(t, calls[..|calls| - 1], w);
      if before.stop.Some? then before
      else AfterCall(before.turn, calls[|calls| - 1], w.tools(before.turn.messages, calls[|calls| - 1]), w)
  }

  // ---- The answer -----------------------------------------------------------------------------------

  /** What the caller gets; without a verdict it is the fallback. */
  datatype Answer = Answer(text: Json, verdict: Option<Verdict>, incomplete: bool, pending: seq<Json>)

  /** How a turn ends, after how many calls of the model. */
  datatype Ending = Ending(turn: Turn, asked: nat, outcome: Outcome<Answer, TurnError>)

  const FALLBACK_TEXT := Text("the proposal exists, the model cannot answer")

  function Plain(t: Turn, text: Json, reasoning: Json): Turn {
    t.(messages := t.messages + [Assistant(text, reasoning, [])])
  }

  /** pending_approval_fallback: the message first, then the response, which may not take the
      pending approvals. */
  function Fallback(t: Turn, w: World): Ending {
    Ending(Plain(t, FALLBACK_TEXT, Null), 1,
           if AllReturnable(t.pending, w.readers) then Ok(Answer(FALLBACK_TEXT, None, true, t.pending)) else Err(MalformedAnswer))
  }

  /** answer or "" */
  function AnswerText(text: Json): string {
    if text.Text? then text.text else ""
  }

  /** The citation.invalid event, under the identifier of the first search. */
  function InvalidEvent(t: Turn, verdict: Verdict): Event {
    var unknown := List(seq(|verdict.unknown|, i requires 0 <= i < |verdict.unknown| => Text(verdict.unknown[i])));
    Event(InvalidCitation,
          if t.searches != [] then t.searches[0] else "final-answer",
          if t.searches != [] then "search_knowledge" else "citation_validation",
          Object(map["unknown_citation_ids" := unknown, "missing_required_citation" := Flag(verdict.missing)]))
  }

  /** The marks of the answer can be looked for, and the check of its citations goes through. */
  function CheckedAnswer(t: Turn, text: Json, w: World): Option<Verdict> {
    if Truthy(text) && !text.Text? then None else Validate(AnswerText(text), t.payloads, w.readers)
  }

  function Reported(t: Turn, verdict: Verdict, w: World): Progress {
    if verdict.incomplete then Emitted(t, InvalidEvent(t, verdict), w) else Progress(t, None)
  }

  /** A plain answer: the message first, then the check, the event, and the response. */
  function Answering(t: Turn, text: Json, reasoning: Json, w: World): Ending {
    var said := Plain(t, text, reasoning);
    var checked := CheckedAnswer(t, text, w);
    if checked.None? then Ending(said, 1, Err(MalformedAnswer))
    else
      var reported := Reported(said, checked.value, w);
      if reported.stop.Some? then Ending(reported.turn, 1, Err(reported.stop.value))
      else if IsTextOrNull(text) && IsTextOrNull(reasoning) && AllReturnable(t.pending, w.readers) then
        Ending(reported.turn, 1, Ok(Answer(text, checked, checked.value.incomplete, t.pending)))
      else Ending(reported.turn, 1, Err(MalformedAnswer))
  }

  // ---- The loop -------------------------------------------------------------------------------------

  function AtLimit(t: Turn, w: World): Ending {
    if t.pending != [] then Fallback(t, w) else Ending(t, 1, Err(RoundLimit))
  }

  /** The turn with the message that asks for calls. */
  function Asking(t: Turn, text: Json, reasoning: Json, calls: seq<ToolCall>): Turn {
    t.(messages := t.messages + [Assistant(text, reasoning, calls)])
  }

  function Loop(t: Turn, rounds: nat, limit: nat, w: World): Ending
    requires rounds <= limit
    decreases limit - rounds
  {
    match w.model(t.messages)
    case Unavailable => if t.pending == [] then Ending(t, 1, Err(ModelUnavailable)) else Fallback(t, w)
    case NoMessage => Ending(t, 1, Err(MalformedReply))
    case BadCalls => if rounds >= limit then AtLimit(t, w) else Ending(t, 1, Err(MalformedReply))
    case Says(text, reasoning, calls) =>
      if calls == [] then Answering(t, text, reasoning, w)
      else if rounds >= limit then AtLimit(t, w)
      else
        var after := AfterCalls(Asking(t, text, reasoning, calls), calls, w);
        if after.stop.Some? then Ending(after.turn, 1, Err(after.stop.value))
        else
          var rest := Loop(after.turn, rounds + 1, limit, w);
          rest.(asked := rest.asked + 1)
  }

  function NewTurn(messages: seq<Message>): Turn {
    Turn(messages, [], [], [], [], 1)
  }

  function RunOneTurn(messages: seq<Message>, limit: int, w: World): Ending {
    if limit <= 0 then Ending(NewTurn(messages), 0, Err(BadLimit)) else Loop(NewTurn(messages), 0, limit, w)
  }

  // ---- The loop as written -----------------------------------------------------------------------------

  class AgentTurn {
    var messages: seq<Message>
    var events: seq<Event>
    var payloads: seq<Json>
    var searches: seq<string>
    var pending: seq<Json>
    var next: nat

    function State(): Turn
      reads this
    {
      Turn(messages, events, payloads, searches, pending, next)
    }

    constructor (messages: seq<Message>)
      ensures State() == NewTurn(messages)
    {
      this.messages, events, payloads, searches, pending, next := messages, [], [], [], [], 1;
    }

    method Emit(event: Event, w: World) returns (stop: Option<TurnError>)
      modifies `events
      ensures Progress(State(), stop) == Emitted(old(State()), event, w)
    {
      events := events + [event];
      return if w.hears(events) then None else Some(ListenerRaised);
    }

    /** The event and the reply of a call that failed. */
    method Fail(call: ToolCall, code: string, w: World) returns (stop: Option<TurnError>)
      requires IsReadable(call)
      modifies this
      ensures Progress(State(), stop) == Failing(Progress(old(State()), None), call, code, w)
    {
      stop := Emit(EventOf(FailedCall, call, Null), w);
      if stop.None? {
        messages := messages + [ToolReply(call.id, Problem(code))];
      }
    }

    /** One tool call; an error means that it raised. */
    method RunCall(call: ToolCall, outcome: ToolOutcome, w: World) returns (stop: Option<TurnError>)
      modifies this
      ensures Progress(State(), stop) == AfterCall(old(State()), call, outcome, w)
    {
      hide CheckSearch, Renumber, PendingOf;
      if outcome == ParserBreaks || !IsReadable(call) {
        return Some(MalformedCall);
      }
      if outcome == BadArguments {
        stop := Fail(call, "BAD_ARGUMENTS", w);
        return;
      }
      stop := Emit(EventOf(Requested, call, Null), w);
      if stop.Some? {
        return;
      }
      if outcome == Unregistered {
        stop := Fail(call, "UNREGISTERED_TOOL", w);
        return;
      }
      stop := Emit(EventOf(Started, call, Null), w);
      if stop.Some? {
        return;
      }
      if outcome == Fails {
        stop := Fail(call, "TOOL_EXECUTION_FAILED", w);
        return;
      }
      stop := TakeResult(call, outcome.value, outcome.written, w);
    }

    method TakeResult(call: ToolCall, result: Json, written: bool, w: World) returns (stop: Option<TurnError>)
      requires IsReadable(call)
      modifies this
      ensures Progress(State(), stop) == Finishing(Progress(old(State()), None), call, result, written, w)
    {
      hide Renumber, PendingOf;
      var value := result;
      var check := CheckSearch(call.name.text, value);
      if check == CheckRaises {
        return Some(MalformedResult);
      }
      if check == IsSearch {
        var renumbered := Renumber(value, next);
        value, next := renumbered.0, renumbered.1;
        payloads := payloads + [value];
        searches := searches + [call.id.text];
      }
      var found := PendingOf(call.name.text, value);
      if found.Some? {
        pending := pending + [found.value];
      }
      stop := Emit(EventOf(Completed, call, value), w);
      if stop.None? {
        if !written {
          return Some(MalformedResult);
        }
        messages := messages + [ToolReply(call.id, Result(value))];
      }
    }

    method RunCalls(calls: seq<ToolCall>, w: World) returns (stop: Option<TurnError>)
      modifies this
      ensures Progress(State(), stop) == AfterCalls(old(State()), calls, w)
    {
      hide AfterCall;
      var k := 0;
      while k < |calls|
        invariant 0 <= k <= |calls|
        invariant AfterCalls(old(State()), calls[..k], w) == Progress(State(), None)
      {
        assert calls[..k + 1][..k] == calls[..k];
        stop := RunCall(calls[k], w.tools(messages, calls[k]), w);
        if stop.Some? {
          FailedPrefix(old(State()), calls, k + 1, w);
          return;
        }
        k := k + 1;
      }
      assert calls[..k] == calls;
      return None;
    }

    method Run(limit: int, w: World) returns (asked: nat, outcome: Outcome<Answer, TurnError>)
      modifies this
      ensures Ending(State(), asked, outcome)
           == if limit <= 0 then Ending(old(State()), 0, Err(BadLimit)) else Loop(old(State()), 0, limit, w)
    {
      hide AfterCalls, Answering, Fallback;
      if limit <= 0 {
        return 0, Err(BadLimit);
      }
      var rounds := 0;
      asked := 0;
      ghost var start := State();
      while true
        invariant rounds <= limit && asked == rounds
        invariant var ending, rest := Loop(start, 0, limit, w), Loop(State(), rounds, limit, w);
                  ending == rest.(asked := rest.asked + asked)
        decreases limit - rounds
      {
        var reply := w.model(messages);
        asked := asked + 1;
        if reply == Unavailable {
          if pending == [] {
            return asked, Err(ModelUnavailable);
          }
          outcome := Degrade(w);
          return;
        }
        if reply == NoMessage {
          return asked, Err(MalformedReply);
        }
        if reply.Says? && reply.calls == [] {
          outcome := Finish(reply.text, reply.reasoning, w);
          return;
        }
        if rounds >= limit {
          if pending != [] {
            outcome := Degrade(w);
            return;
          }
          return asked, Err(RoundLimit);
        }
        rounds := rounds + 1;
        if reply == BadCalls {
          return asked, Err(MalformedReply);
        }
        messages := messages + [Assistant(reply.text, reply.reasoning, reply.calls)];
        var stop := RunCalls(reply.calls, w);
        if stop.Some? {
          return asked, Err(stop.value);
        }
      }
    }

    /** The branch of a reply without calls. */
    method Finish(text: Json, reasoning: Json, w: World) returns (outcome: Outcome<Answer, TurnError>)
      modifies this
      ensures Ending(State(), 1, outcome) == Answering(old(State()), text, reasoning, w)
    {
      hide Validate, AllReturnable, InvalidEvent;
      messages := messages + [Assistant(text, reasoning, [])];
      if Truthy(text) && !text.Text? {
        return Err(MalformedAnswer);
      }
      var verdict := ValidateFinalCitations(AnswerText(text), payloads, w.readers);
      if verdict.None? {
        return Err(MalformedAnswer);
      }
      if verdict.value.incomplete {
        var stop := Emit(InvalidEvent(State(), verdict.value), w);
        if stop.Some? {
          return Err(stop.value);
        }
      }
      if !IsTextOrNull(text) || !IsTextOrNull(reasoning) || !AllReturnable(pending, w.readers) {
        return Err(MalformedAnswer);
      }
      return Ok(Answer(text, verdict, verdict.value.incomplete, pending));
    }

    /** pending_approval_fallback */
    method Degrade(w: World) returns (outcome: Outcome<Answer, TurnError>)
      modifies `messages
      ensures Ending(State(), 1, outcome) == Fallback(old(State()), w)
    {
      hide AllReturnable;
      messages := messages + [Assistant(FALLBACK_TEXT, Null, [])];
      if !AllReturnable(pending, w.readers) {
        return Err(MalformedAnswer);
      }
      return Ok(Answer(FALLBACK_TEXT, None, true, pending));
    }
  }

  lemma {:induction false} FailedPrefix(t: Turn, calls: seq<ToolCall>, k: nat, w: World)
    requires k <= |calls| && AfterCalls(t, calls[..k], w).stop.Some?
    ensures AfterCalls(t, calls, w) == AfterCalls(t, calls[..k], w)
    decreases |calls| - k
  {
    hide AfterCall;
    if k < |calls| {
      assert calls[..k + 1][..k] == calls[..k];
      FailedPrefix(t, calls, k + 1, w);
    } else {
      assert calls[..k] == calls;
    }
  }

  // ---- _display_for_turn -------------------------------------------------------------------------------------------------------

  predicate IsPlain(message: Message) {
    message.Assistant? && message.calls == []
  }

  /** A citation as it is stored; its content may be blank. */
  datatype Stored = Stored(id: string, content: string)

  datatype MessageDisplay = MessageDisplay(citations: seq<Stored>, incomplete: bool)

  /** The citations that quote something, in their order. */
  function Quoting(citations: seq<Stored>): (kept: seq<Stored>)
    ensures forall c :: c in kept <==> c in citations && !Strings.AllSpace(c.content)
  {
    if citations == [] then []
    else
      var last := citations[|citations| - 1];
      Quoting(citations[..|citations| - 1]) + if Strings.AllSpace(last.content) then [] else [last]
  }

  /** The last plain assistant message of a turn, and no other, carries the completeness flag and
      the citations that quote something. */
  method DisplayForTurn(newMessages: seq<Message>, citations: seq<Stored>, incomplete: bool) returns (display: seq<Option<MessageDisplay>>)
    ensures |display| == |newMessages|
    ensures forall i :: 0 <= i < |display| ==>
              display[i] == if IsPlain(newMessages[i]) && (forall j :: i < j < |newMessages| ==> !IsPlain(newMessages[j]))
                            then Some(MessageDisplay(Quoting(citations), incomplete)) else None
  {
    display := seq(|newMessages|, i => None);
    var index := |newMessages|;
    while index > 0
      invariant 0 <= index <= |newMessages| && |display| == |newMessages|
      invariant forall i :: 0 <= i < |display| ==> display[i] == None
      invariant forall j :: index <= j < |newMessages| ==> !IsPlain(newMessages[j])
    {
      index := index - 1;
      if IsPlain(newMessages[index]) {
        var kept := KeepQuoting(citations);
        display := display[index := Some(MessageDisplay(kept, incomplete))];
        return;
      }
    }
  }

  method KeepQuoting(citations: seq<Stored>) returns (kept: seq<Stored>)
    ensures kept == Quoting(citations)
  {
    kept := [];
    var k := 0;
    while k < |citations|
      invariant 0 <= k <= |citations|
      invariant kept == Quoting(citations[..k])
    {
      assert citations[..k + 1][..k] == citations[..k];
      if !Strings.AllSpace(citations[k].content) {
        kept := kept + [citations[k]];
      }
      k := k + 1;
    }
    assert citations[..k] == citations;
  }
}
