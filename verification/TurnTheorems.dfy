/** What every turn promises, whatever the model, the tools and the listener do: bounded questions,
    the shape of the transcript, the fate of the approvals that were announced, and citations that
    resolve. */
module TurnTheorems {
  import opened Outcomes
  import opened JsonValues
  import opened CitationNumbers
  import opened CitationCheck
  import opened TurnLoop

  // ---- Bounds -------------------------------------------------------------------------------------------

  /** A turn asks the model at most limit + 1 times. */
  lemma {:induction false} CallsAreBounded(t: Turn, rounds: nat, limit: nat, w: World)
    requires rounds <= limit
    ensures 1 <= Loop(t, rounds, limit, w).asked <= limit - rounds + 1
    decreases limit - rounds
  {
    hide AfterCalls, CheckedAnswer, Reported, AllReturnable;
    match w.model(t.messages)
    case Says(text, reasoning, calls) =>
      if calls != [] && rounds < limit {
        var after := AfterCalls(Asking(t, text, reasoning, calls), calls, w);
        if after.stop.None? {
          CallsAreBounded(after.turn, rounds + 1, limit, w);
        }
      }
    case _ =>
  }

  // ---- One call, one answer -------------------------------------------------------------------------------

  /** A call that cannot be read or parsed, or whose result cannot be checked or written. */
  predicate CallBreaks(call: ToolCall, outcome: ToolOutcome) {
    || outcome.ParserBreaks?
    || !IsReadable(call)
    || (outcome.Returns? && (!outcome.written || CheckSearch(call.name.text, outcome.value) == CheckRaises))
  }

  /** The listener raised at the last event. */
  predicate Unheard(t: Turn, w: World) {
    t.events != [] && !w.hears(t.events)
  }

  /** A call that comes through adds its reply; one that raises adds no message, and does so because
      of itself or because of the listener. */
  lemma CallAdds(t: Turn, call: ToolCall, outcome: ToolOutcome, w: World)
    requires !Unheard(t, w)
    ensures var after := AfterCall(t, call, outcome, w);
            if after.stop.None? then
              && !CallBreaks(call, outcome) && !Unheard(after.turn, w)
              && exists reply :: after.turn.messages == t.messages + [ToolReply(call.id, reply)]
            else
              && (CallBreaks(call, outcome) || Unheard(after.turn, w))
              && after.turn.messages == t.messages
              && after.stop.value in {MalformedCall, MalformedResult, ListenerRaised}
  {
    hide CheckSearch, Renumber, PendingOf;
    var after := AfterCall(t, call, outcome, w);
    if after.stop.None? {
      var reply := after.turn.messages[|after.turn.messages| - 1].reply;
      assert after.turn.messages == t.messages + [ToolReply(call.id, reply)];
    }
  }

  /** What the response to a reply cannot be made of: pending approvals that its model does not
      take, or, for a plain answer, a text or reasoning that it does not take, or citations that
      cannot be checked. */
  predicate Unanswerable(t: Turn, reply: ModelReply, w: World) {
    || !AllReturnable(t.pending, w.readers)
    || (reply.Says? && reply.calls == []
        && (!IsTextOrNull(reply.text) || !IsTextOrNull(reply.reasoning) || !Checkable(AnswerText(reply.text), t.payloads, w.readers)))
  }

  /** An answer is one plain message and perhaps one event, and fails exactly if it is unanswerable
      or the listener raises. */
  lemma AnsweringAdds(t: Turn, text: Json, reasoning: Json, w: World)
    requires !Unheard(t, w)
    ensures var ending := Answering(t, text, reasoning, w);
            && ending.asked == 1
            && ending.turn == Plain(t, text, reasoning).(events := ending.turn.events)
            && (ending.turn.events == t.events || exists event: Event :: event.kind == InvalidCitation && ending.turn.events == t.events + [event])
            && (ending.outcome.Err? <==> Unanswerable(t, Says(text, reasoning, []), w) || Unheard(ending.turn, w))
            && match ending.outcome
               case Ok(answer) => answer.text == text && answer.pending == t.pending && answer.verdict == CheckedAnswer(t, text, w)
               case Err(error) => error in {MalformedAnswer, ListenerRaised}
  {
    hide Checkable, Merged, Keep, Drop, AllReturnable;
    var checked := CheckedAnswer(t, text, w);
    if checked.Some? {
      var event := InvalidEvent(Plain(t, text, reasoning), checked.value);
      assert event.kind == InvalidCitation;
    }
  }

  lemma FallbackAdds(t: Turn, reply: ModelReply, w: World)
    requires !(reply.Says? && reply.calls == [])
    ensures var ending := Fallback(t, w);
            && ending.asked == 1 && ending.turn == Plain(t, FALLBACK_TEXT, Null)
            && (ending.outcome.Err? <==> Unanswerable(t, reply, w))
            && match ending.outcome
               case Ok(answer) => answer == Answer(FALLBACK_TEXT, None, true, t.pending)
               case Err(error) => error == MalformedAnswer
  {
    hide AllReturnable;
  }

  // ---- The shape of the transcript --------------------------------------------------------------------------

  /** The replies to the first k calls, in order. */
  predicate RepliesTo(messages: seq<Message>, calls: seq<ToolCall>) {
    && |messages| == |calls|
    && forall i :: 0 <= i < |calls| ==> messages[i].ToolReply? && messages[i].call == calls[i].id
  }

  /** Complete rounds: each an assistant message with calls, followed by exactly one reply per
      call in order. */
  ghost predicate IsRounds(messages: seq<Message>)
    decreases |messages|
  {
    messages == [] ||
    exists k: nat :: IsRoundEnd(messages, k) && IsRounds(messages[..k])
  }

  /** The messages from k on are one round. */
  predicate IsRoundEnd(messages: seq<Message>, k: nat) {
    && k < |messages|
    && messages[k].Assistant? && messages[k].calls != []
    && RepliesTo(messages[k + 1..], messages[k].calls)
  }

  /** The messages from k on are a round that broke off: the first few calls have replies. */
  predicate IsBrokenRound(messages: seq<Message>, k: nat) {
    && k < |messages|
    && messages[k].Assistant? && |messages| - k - 1 < |messages[k].calls|
    && RepliesTo(messages[k + 1..], messages[k].calls[..|messages| - k - 1])
  }

  /** The calls that came through have their replies; one that raised has none. */
  lemma {:induction false} CallsReply(t: Turn, calls: seq<ToolCall>, w: World)
    requires !Unheard(t, w)
    ensures var after := AfterCalls(t, calls, w);
            var replied := |after.turn.messages| - |t.messages|;
            && t.messages <= after.turn.messages
            && (if after.stop.None? then replied == |calls| && !Unheard(after.turn, w)
                else replied < |calls| && after.stop.value in {MalformedCall, MalformedResult, ListenerRaised})
            && RepliesTo(after.turn.messages[|t.messages|..], calls[..replied])
  {
    hide AfterCall, Unheard, CallBreaks;
    if calls != [] {
      var init, last := calls[..|calls| - 1], calls[|calls| - 1];
      CallsReply(t, init, w);
      var before, after := AfterCalls(t, init, w), AfterCalls(t, calls, w);
      var replied := |before.turn.messages| - |t.messages|;
      assert calls[..replied] == init[..replied];
      if before.stop.None? {
        CallAdds(before.turn, last, w.tools(before.turn.messages, last), w);
        assert after.turn.messages[|t.messages|..] == before.turn.messages[|t.messages|..] + after.turn.messages[|before.turn.messages|..];
      }
    }
  }

  lemma {:induction false} RoundAdded(before: seq<Message>, round: seq<Message>)
    requires IsRounds(before) && round != [] && round[0].Assistant? && round[0].calls != [] && RepliesTo(round[1..], round[0].calls)
    ensures IsRounds(before + round)
  {
    var messages := before + round;
    assert messages[..|before|] == before && messages[|before| + 1..] == round[1..];
    assert IsRoundEnd(messages, |before|);
  }

  /** Complete rounds and then one plain assistant message, which is the last. */
  ghost predicate AddsPlain(added: seq<Message>) {
    added != [] && IsPlain(added[|added| - 1]) && IsRounds(added[..|added| - 1])
  }

  /** Complete rounds and then one that breaks off. */
  ghost predicate AddsBroken(added: seq<Message>) {
    exists k: nat :: IsBrokenRound(added, k) && IsRounds(added[..k])
  }

  /** What a turn adds to the transcript: complete rounds; then, if it gets to answer, one plain
      assistant message, also when the answer fails; or, if a call raises, a round that breaks off
      at that call. */
  ghost predicate Adds(start: seq<Message>, ending: Ending) {
    && start <= ending.turn.messages
    && var added := ending.turn.messages[|start|..];
    match ending.outcome
    case Ok(answer) => AddsPlain(added) && added[|added| - 1].text == answer.text
    case Err(MalformedAnswer) => AddsPlain(added)
    case Err(MalformedCall) => AddsBroken(added)
    case Err(MalformedResult) => AddsBroken(added)
    case Err(ListenerRaised) => AddsPlain(added) || AddsBroken(added)
    case Err(_) => IsRounds(added)
  }

  lemma PlainAdds(start: seq<Message>, t: Turn, text: Json, reasoning: Json, ending: Ending)
    requires start <= t.messages && IsRounds(t.messages[|start|..])
    requires ending.turn.messages == Plain(t, text, reasoning).messages
    requires match ending.outcome case Ok(answer) => answer.text == text case Err(error) => error in {MalformedAnswer, ListenerRaised}
    ensures Adds(start, ending)
  {
    hide IsRounds;
    var added := ending.turn.messages[|start|..];
    assert added[..|added| - 1] == t.messages[|start|..];
    assert AddsPlain(added);
  }

  lemma NothingAdded(start: seq<Message>, ending: Ending)
    requires start <= ending.turn.messages && IsRounds(ending.turn.messages[|start|..])
    requires ending.outcome.Err? && ending.outcome.error in {BadLimit, ModelUnavailable, RoundLimit, MalformedReply}
    ensures Adds(start, ending)
  {
    hide IsRounds, AddsPlain, AddsBroken;
  }

  lemma {:induction false} TranscriptShape(start: seq<Message>, t: Turn, rounds: nat, limit: nat, w: World)
    requires rounds <= limit && start <= t.messages && IsRounds(t.messages[|start|..]) && !Unheard(t, w)
    ensures Adds(start, Loop(t, rounds, limit, w))
    decreases limit - rounds
  {
    hide AfterCalls, IsRounds, Adds, Answering, Fallback, Unheard, Unanswerable;
    var ending, reply := Loop(t, rounds, limit, w), w.model(t.messages);
    if reply.Says? && reply.calls == [] {
      AnsweringAdds(t, reply.text, reply.reasoning, w);
      PlainAdds(start, t, reply.text, reply.reasoning, ending);
    } else if reply.Says? && rounds < limit {
      NextRound(start, t, reply, rounds, limit, w);
    } else if ending == Fallback(t, w) {
      FallbackAdds(t, reply, w);
      PlainAdds(start, t, FALLBACK_TEXT, Null, ending);
    } else {
      NothingAdded(start, ending);
    }
  }

  lemma {:induction false} NextRound(start: seq<Message>, t: Turn, reply: ModelReply, rounds: nat, limit: nat, w: World)
    requires rounds < limit && start <= t.messages && IsRounds(t.messages[|start|..]) && !Unheard(t, w)
    requires w.model(t.messages) == reply && reply.Says? && reply.calls != []
    ensures Adds(start, Loop(t, rounds, limit, w))
    decreases limit - rounds, 0
  {
    hide AfterCalls, IsRounds, AddsPlain, AddsBroken;
    var calls := reply.calls;
    var asked := Asking(t, reply.text, reply.reasoning, calls);
    var after := AfterCalls(asked, calls, w);
    CallsReply(asked, calls, w);
    var round := after.turn.messages[|t.messages|..];
    assert round[1..] == after.turn.messages[|asked.messages|..];
    assert after.turn.messages[|start|..] == t.messages[|start|..] + round;
    if after.stop.None? {
      assert calls[..|calls|] == calls;
      RoundAdded(t.messages[|start|..], round);
      TranscriptShape(start, after.turn, rounds + 1, limit, w);
    } else {
      RoundBreaks(start, t.messages[|start|..], round, Loop(t, rounds, limit, w));
    }
  }

  lemma {:induction false} RoundBreaks(start: seq<Message>, before: seq<Message>, round: seq<Message>, ending: Ending)
    requires IsRounds(before) && IsBrokenRound(round, 0)
    requires ending.outcome.Err? && ending.outcome.error in {MalformedCall, MalformedResult, ListenerRaised}
    requires start <= ending.turn.messages && ending.turn.messages[|start|..] == before + round
    ensures Adds(start, ending)
  {
    hide IsRounds;
    var added := before + round;
    assert added[..|before|] == before && added[|before| + 1..] == round[1..];
    assert IsBrokenRound(added, |before|);
    assert AddsBroken(added);
  }

  // ---- Approvals in the events ---------------------------------------------------------------------------------

  /** The approvals that the completed calls of a turn have announced. */
  function Announced(events: seq<Event>): seq<Json> {
    if events == [] then []
    else
      var last := events[|events| - 1];
      var approval := if last.kind == Completed then PendingOf(last.name, last.result) else None;
      Announced(events[..|events| - 1]) + if approval.Some? then [approval.value] else []
  }

  /** The pending approvals of a turn are those that its events announce. */
  predicate EventsAgree(t: Turn) {
    t.pending == Announced(t.events)
  }

  lemma {:induction false} OneEvent(events: seq<Event>, event: Event)
    ensures Announced(events + [event])
         == Announced(events) + if event.kind == Completed && PendingOf(event.name, event.result).Some?
                                then [PendingOf(event.name, event.result).value] else []
  {
    hide PendingOf;
    assert (events + [event])[..|events|] == events;
  }

  lemma {:induction false} EmittedAgrees(t: Turn, event: Event, w: World)
    requires EventsAgree(t) && event.kind != Completed
    ensures EventsAgree(Emitted(t, event, w).turn)
  {
    OneEvent(t.events, event);
  }

  lemma {:induction false} CallAgrees(t: Turn, call: ToolCall, outcome: ToolOutcome, w: World)
    requires EventsAgree(t)
    ensures EventsAgree(AfterCall(t, call, outcome, w).turn)
  {
    hide EventsAgree, Noted, CheckSearch;
    SameAgrees(t);
    if outcome.ParserBreaks? || !IsReadable(call) {
      return;
    }
    var requested, started := EventOf(Requested, call, Null), EventOf(Started, call, Null);
    EmittedAgrees(t, requested, w);
    EmittedAgrees(Requesting(t, call, w).turn, started, w);
    match outcome
    case BadArguments => FailingAgrees(Progress(t, None), call, "BAD_ARGUMENTS", w);
    case Unregistered => FailingAgrees(Requesting(t, call, w), call, "UNREGISTERED_TOOL", w);
    case Fails => FailingAgrees(Starting(t, call, w), call, "TOOL_EXECUTION_FAILED", w);
    case Returns(value, written) => FinishingAgrees(Starting(t, call, w), call, value, written, w);
  }

  lemma SameAgrees(t: Turn)
    ensures forall messages :: EventsAgree(t.(messages := messages)) <==> EventsAgree(t)
  {
  }

  lemma {:induction false} FailingAgrees(p: Progress, call: ToolCall, code: string, w: World)
    requires IsReadable(call) && EventsAgree(p.turn)
    ensures EventsAgree(Failing(p, call, code, w).turn)
  {
    hide EventsAgree;
    var event := EventOf(FailedCall, call, Null);
    EmittedAgrees(p.turn, event, w);
    SameAgrees(Emitted(p.turn, event, w).turn);
  }

  lemma {:induction false} FinishingAgrees(p: Progress, call: ToolCall, value: Json, written: bool, w: World)
    requires IsReadable(call) && EventsAgree(p.turn)
    ensures EventsAgree(Finishing(p, call, value, written, w).turn)
  {
    hide Renumber, PendingOf, CheckSearch, Announced;
    var (shown, noted) := Noted(p.turn, call, value);
    OneEvent(p.turn.events, EventOf(Completed, call, shown));
  }

  lemma {:induction false} CallsAgree(t: Turn, calls: seq<ToolCall>, w: World)
    requires EventsAgree(t)
    ensures EventsAgree(AfterCalls(t, calls, w).turn)
  {
    hide AfterCall, EventsAgree;
    if calls != [] {
      var before, last := AfterCalls(t, calls[..|calls| - 1], w), calls[|calls| - 1];
      CallsAgree(t, calls[..|calls| - 1], w);
      CallAgrees(before.turn, last, w.tools(before.turn.messages, last), w);
    }
  }

  // ---- Approvals in the transcript -----------------------------------------------------------------------------

  /** What one reply to a call announces. */
  function AnnouncedBy(call: ToolCall, reply: Reply): seq<Json> {
    if call.name.Text? && reply.Result? && PendingOf(call.name.text, reply.value).Some? then [PendingOf(call.name.text, reply.value).value]
    else []
  }

  /** The approvals that a transcript shows, read from the start: the calls are those that still
      wait for their replies. */
  function Shown(messages: seq<Message>, calls: seq<ToolCall>): seq<Json> {
    if messages == [] then []
    else
      match messages[0]
      case Input(_) => Shown(messages[1..], calls)
      case Assistant(_, _, asked) => Shown(messages[1..], asked)
      case ToolReply(_, reply) =>
        if calls == [] then Shown(messages[1..], []) else AnnouncedBy(calls[0], reply) + Shown(messages[1..], calls[1..])
  }

  /** The calls that still wait at the end of a transcript. */
  function Waiting(messages: seq<Message>, calls: seq<ToolCall>): seq<ToolCall> {
    if messages == [] then calls
    else
      match messages[0]
      case Input(_) => Waiting(messages[1..], calls)
      case Assistant(_, _, asked) => Waiting(messages[1..], asked)
      case ToolReply(_, _) => Waiting(messages[1..], if calls == [] then [] else calls[1..])
  }

  lemma {:induction false} ShownSplit(a: seq<Message>, b: seq<Message>, calls: seq<ToolCall>)
    ensures Shown(a + b, calls) == Shown(a, calls) + Shown(b, Waiting(a, calls))
    ensures Waiting(a + b, calls) == Waiting(b, Waiting(a, calls))
  {
    hide AnnouncedBy;
    if a == [] {
      assert a + b == b;
    } else {
      assert (a + b)[1..] == a[1..] + b;
      match a[0]
      case Input(_) => ShownSplit(a[1..], b, calls);
      case Assistant(_, _, asked) => ShownSplit(a[1..], b, asked);
      case ToolReply(_, reply) => ShownSplit(a[1..], b, if calls == [] then [] else calls[1..]);
    }
  }

  /** A call that comes through notes what its reply shows; one that raises may have noted more. */
  lemma CallShows(t: Turn, call: ToolCall, outcome: ToolOutcome, w: World)
    ensures var after := AfterCall(t, call, outcome, w);
            if after.stop.None? then
              && |after.turn.messages| == |t.messages| + 1 && t.messages <= after.turn.messages
              && after.turn.messages[|t.messages|].ToolReply?
              && after.turn.pending == t.pending + AnnouncedBy(call, after.turn.messages[|t.messages|].reply)
            else after.turn.messages == t.messages && t.pending <= after.turn.pending
  {
    hide Renumber, CheckSearch, PendingOf;
  }

  /** The replies to calls show what the turn notes; the first call without a reply, if there is
      one, is the one that raised. */
  lemma {:induction false} CallsShow(t: Turn, calls: seq<ToolCall>, more: seq<ToolCall>, w: World)
    requires !Unheard(t, w)
    ensures var after := AfterCalls(t, calls, w);
            && t.messages <= after.turn.messages
            && var added := after.turn.messages[|t.messages|..];
            var left := Waiting(added, calls + more);
            if after.stop.None? then
              after.turn.pending == t.pending + Shown(added, calls + more) && left == more && !Unheard(after.turn, w)
            else
              && t.pending + Shown(added, calls + more) <= after.turn.pending
              && left != [] && (CallBreaks(left[0], w.tools(after.turn.messages, left[0])) || Unheard(after.turn, w))
  {
    hide AfterCall, AnnouncedBy, CallBreaks, Unheard;
    if calls == [] {
      assert calls + more == more;
    } else {
      var init, last := calls[..|calls| - 1], calls[|calls| - 1];
      assert init + ([last] + more) == calls + more;
      CallsShow(t, init, [last] + more, w);
      var before := AfterCalls(t, init, w);
      if before.stop.None? {
        CallAdds(before.turn, last, w.tools(before.turn.messages, last), w);
        LastCallShows(t, before.turn, last, calls + more, more, w.tools(before.turn.messages, last), w);
      }
    }
  }

  lemma {:induction false} LastCallShows(t: Turn, before: Turn, last: ToolCall, all: seq<ToolCall>, more: seq<ToolCall>,
                                         outcome: ToolOutcome, w: World)
    requires t.messages <= before.messages && before.pending == t.pending + Shown(before.messages[|t.messages|..], all)
    requires Waiting(before.messages[|t.messages|..], all) == [last] + more
    ensures var after := AfterCall(before, last, outcome, w);
            && t.messages <= after.turn.messages
            && var added := after.turn.messages[|t.messages|..];
            if after.stop.None? then after.turn.pending == t.pending + Shown(added, all) && Waiting(added, all) == more
            else after.turn.messages == before.messages && t.pending + Shown(added, all) <= after.turn.pending
  {
    hide AfterCall, AnnouncedBy;
    var after := AfterCall(before, last, outcome, w);
    CallShows(before, last, outcome, w);
    if after.stop.None? {
      var added, reply := before.messages[|t.messages|..], after.turn.messages[|before.messages|];
      assert after.turn.messages[|t.messages|..] == added + [reply];
      ShownSplit(added, [reply], all);
      LastShown(reply, last, more);
      assert (t.pending + Shown(added, all)) + AnnouncedBy(last, reply.reply)
          == t.pending + (Shown(added, all) + AnnouncedBy(last, reply.reply));
    }
  }

  lemma {:induction false} LastShown(reply: Message, last: ToolCall, more: seq<ToolCall>)
    requires reply.ToolReply?
    ensures Shown([reply], [last] + more) == AnnouncedBy(last, reply.reply) && Waiting([reply], [last] + more) == more
  {
    assert ([last] + more)[1..] == more;
    assert Shown([], more) == [];
  }

  /** The calls of a turn that have no reply. */
  function Unanswered(start: seq<Message>, t: Turn): seq<ToolCall>
    requires start <= t.messages
  {
    Waiting(t.messages[|start|..], [])
  }

  /** Every call is answered, and the pending approvals are those that the transcript shows. */
  ghost predicate TranscriptAgrees(start: seq<Message>, t: Turn) {
    && start <= t.messages
    && t.pending == Shown(t.messages[|start|..], [])
    && Unanswered(start, t) == []
  }

  /** Nothing but complete rounds so far: the last message is a reply. */
  predicate IsOpen(start: seq<Message>, t: Turn) {
    start <= t.messages && (|t.messages| == |start| || t.messages[|t.messages| - 1].ToolReply?)
  }

  lemma PlainAgrees(start: seq<Message>, t: Turn, text: Json, reasoning: Json)
    requires TranscriptAgrees(start, t)
    ensures TranscriptAgrees(start, Plain(t, text, reasoning))
  {
    var added, message := t.messages[|start|..], Assistant(text, reasoning, []);
    assert (t.messages + [message])[|start|..] == added + [message];
    ShownSplit(added, [message], []);
    assert Shown([message], []) == [] && Waiting([message], []) == [];
  }

  lemma {:induction false} RoundShows(start: seq<Message>, t: Turn, text: Json, reasoning: Json, calls: seq<ToolCall>, w: World)
    requires TranscriptAgrees(start, t) && calls != [] && !Unheard(t, w)
    ensures var after := AfterCalls(Asking(t, text, reasoning, calls), calls, w);
            && start <= after.turn.messages
            && var left := Unanswered(start, after.turn);
            if after.stop.None? then TranscriptAgrees(start, after.turn) && IsOpen(start, after.turn) && !Unheard(after.turn, w)
            else
              && Shown(after.turn.messages[|start|..], []) <= after.turn.pending
              && after.stop.value in {MalformedCall, MalformedResult, ListenerRaised}
              && left != [] && (CallBreaks(left[0], w.tools(after.turn.messages, left[0])) || Unheard(after.turn, w))
  {
    hide AfterCalls, CallBreaks, AnnouncedBy, Unheard;
    var message := Assistant(text, reasoning, calls);
    var asked := Asking(t, text, reasoning, calls);
    var after := AfterCalls(asked, calls, w);
    SameHeard(t, asked, w);
    CallsShow(asked, calls, [], w);
    CallsReply(asked, calls, w);
    assert calls + [] == calls;
    var added, replies := t.messages[|start|..], after.turn.messages[|asked.messages|..];
    assert after.turn.messages[|start|..] == added + ([message] + replies);
    ShownSplit(added, [message] + replies, []);
    assert ([message] + replies)[1..] == replies;
  }

  lemma SameHeard(t: Turn, t': Turn, w: World)
    requires t'.events == t.events
    ensures Unheard(t', w) <==> Unheard(t, w)
  {
  }

  // ---- Approvals are returned --------------------------------------------------------------------------------

  /** However a turn ends, the pending approvals it holds are those that its events announce, and
      its transcript shows no others; if it answers, its transcript shows them all, and they are
      what it returns.  Only an exception that nothing handles ends a turn with any pending. */
  lemma {:induction false} PendingIsReturned(start: seq<Message>, t: Turn, rounds: nat, limit: nat, w: World)
    requires rounds <= limit && TranscriptAgrees(start, t) && EventsAgree(t) && !Unheard(t, w)
    ensures var ending := Loop(t, rounds, limit, w);
            && EventsAgree(ending.turn)
            && start <= ending.turn.messages && Shown(ending.turn.messages[|start|..], []) <= ending.turn.pending
            && match ending.outcome
               case Ok(answer) => TranscriptAgrees(start, ending.turn) && answer.pending == ending.turn.pending
               case Err(error) => ending.turn.pending != [] ==> error in UNHANDLED
    decreases limit - rounds
  {
    hide AfterCalls, TranscriptAgrees, EventsAgree, Shown, CallBreaks, Unheard, Answering, Fallback, Unanswerable;
    AgreementShows(start, t);
    var reply := w.model(t.messages);
    if reply.Says? && reply.calls == [] {
      AnswerAgrees(start, t, reply.text, reply.reasoning, w);
      AgreementShows(start, Answering(t, reply.text, reply.reasoning, w).turn);
    } else if reply.Says? && rounds < limit {
      var asked := Asking(t, reply.text, reply.reasoning, reply.calls);
      var after := AfterCalls(asked, reply.calls, w);
      RoundShows(start, t, reply.text, reply.reasoning, reply.calls, w);
      SameAgrees(t);
      CallsAgree(asked, reply.calls, w);
      if after.stop.None? {
        PendingIsReturned(start, after.turn, rounds + 1, limit, w);
      }
    } else {
      FallbackAgrees(start, t, reply, w);
      AgreementShows(start, Fallback(t, w).turn);
    }
  }

  lemma AgreementShows(start: seq<Message>, t: Turn)
    requires TranscriptAgrees(start, t)
    ensures start <= t.messages && Shown(t.messages[|start|..], []) <= t.pending
  {
  }

  lemma {:induction false} AnswerAgrees(start: seq<Message>, t: Turn, text: Json, reasoning: Json, w: World)
    requires TranscriptAgrees(start, t) && EventsAgree(t) && !Unheard(t, w)
    ensures var ending := Answering(t, text, reasoning, w);
            && EventsAgree(ending.turn) && TranscriptAgrees(start, ending.turn) && ending.turn.pending == t.pending
            && match ending.outcome case Ok(answer) => answer.pending == t.pending case Err(error) => error in UNHANDLED
  {
    hide Answering, Unanswerable, Announced, Unheard;
    AnsweringAdds(t, text, reasoning, w);
    PlainAgrees(start, t, text, reasoning);
    var ending := Answering(t, text, reasoning, w);
    if ending.turn.events != t.events {
      var event: Event :| event.kind == InvalidCitation && ending.turn.events == t.events + [event];
      OneEvent(t.events, event);
    }
  }

  lemma {:induction false} FallbackAgrees(start: seq<Message>, t: Turn, reply: ModelReply, w: World)
    requires TranscriptAgrees(start, t) && EventsAgree(t) && !(reply.Says? && reply.calls == [])
    ensures var ending := Fallback(t, w);
            && EventsAgree(ending.turn) && TranscriptAgrees(start, ending.turn) && ending.turn.pending == t.pending
            && match ending.outcome case Ok(answer) => answer.pending == t.pending case Err(error) => error in UNHANDLED
  {
    hide Fallback, Unanswerable, Announced;
    FallbackAdds(t, reply, w);
    PlainAgrees(start, t, FALLBACK_TEXT, Null);
  }

  // ---- Exactly when approvals are lost -----------------------------------------------------------------------

  /** The loop left by an exception that nothing handles, seen from where it stops: the listener
      raised at the last event; or the first call without a reply is one that breaks; or, with every
      call answered, the last reply of the model cannot be made a response; or it has no message,
      or, with rounds left, calls that cannot be read. */
  ghost predicate Breaks(start: seq<Message>, ending: Ending, limit: int, w: World) {
    var t := ending.turn;
    && limit > 0 && start <= t.messages
    && (|| Unheard(t, w)
        || if Unanswered(start, t) != [] then CallBreaks(Unanswered(start, t)[0], w.tools(t.messages, Unanswered(start, t)[0]))
           else if |start| < |t.messages| && IsPlain(t.messages[|t.messages| - 1]) then
             Unanswerable(t, w.model(t.messages[..|t.messages| - 1]), w)
           else w.model(t.messages).NoMessage? || (w.model(t.messages).BadCalls? && ending.asked <= limit))
  }

  /** A turn ends with an exception that nothing handles exactly if the loop breaks. */
  lemma {:induction false} BreaksIff(start: seq<Message>, t: Turn, rounds: nat, limit: nat, w: World)
    requires rounds <= limit && limit > 0
    requires TranscriptAgrees(start, t) && IsOpen(start, t) && !Unheard(t, w)
    ensures var ending := Loop(t, rounds, limit, w);
            Breaks(start, ending.(asked := ending.asked + rounds), limit, w) <==> ending.outcome.Err? && ending.outcome.error in UNHANDLED
    decreases limit - rounds
  {
    hide AfterCalls, CallBreaks, Shown, Unheard, Answering, Fallback, Unanswerable;
    var reply := w.model(t.messages);
    if reply.Says? && reply.calls == [] {
      AnsweringAdds(t, reply.text, reply.reasoning, w);
      PlainBreaks(start, t, reply.text, reply.reasoning, Answering(t, reply.text, reply.reasoning, w), limit, w);
    } else if reply.Says? && rounds < limit {
      var after := AfterCalls(Asking(t, reply.text, reply.reasoning, reply.calls), reply.calls, w);
      RoundShows(start, t, reply.text, reply.reasoning, reply.calls, w);
      if after.stop.None? {
        BreaksIff(start, after.turn, rounds + 1, limit, w);
      }
    } else {
      FallbackAdds(t, reply, w);
      SameHeard(t, Fallback(t, w).turn, w);
      PlainBreaks(start, t, FALLBACK_TEXT, Null, Fallback(t, w), limit, w);
    }
  }

  /** Where a plain message was added, what counts is the reply before it. */
  lemma PlainBreaks(start: seq<Message>, t: Turn, text: Json, reasoning: Json, ending: Ending, limit: nat, w: World)
    requires TranscriptAgrees(start, t) && limit > 0
    requires ending.turn == Plain(t, text, reasoning).(events := ending.turn.events)
    ensures forall asked :: Breaks(start, ending.(asked := asked), limit, w) <==> Unheard(ending.turn, w) || Unanswerable(t, w.model(t.messages), w)
  {
    hide Checkable, AllReturnable, CallBreaks, Unheard;
    PlainAgrees(start, t, text, reasoning);
    var messages := ending.turn.messages;
    assert messages[..|messages| - 1] == t.messages;
  }

  /** Exactly when approvals that a turn has announced do not reach the caller: the loop breaks
      after something was announced. */
  lemma ApprovalsAreLostIff(messages: seq<Message>, limit: int, w: World)
    ensures var ending := RunOneTurn(messages, limit, w);
            && messages <= ending.turn.messages
            && var announced := Announced(ending.turn.events);
            (ending.outcome.Ok? ==> ending.outcome.value.pending == announced == Shown(ending.turn.messages[|messages|..], []))
            && (ending.outcome.Err? && announced != [] <==> Breaks(messages, ending, limit, w) && announced != [])
  {
    hide Loop, Breaks;
    var t := NewTurn(messages);
    assert t.messages[|messages|..] == [];
    if limit <= 0 {
      return;
    }
    PendingIsReturned(messages, t, 0, limit, w);
    BreaksIff(messages, t, 0, limit, w);
  }

  // ---- Approvals do get lost ---------------------------------------------------------------------------------

  const PROPOSAL := ToolCall(Text("1"), Text("propose_refund"), Text("{}"))
  const SEARCH := ToolCall(Text("2"), Text("search_knowledge"), Text("{}"))
  const NAMELESS := ToolCall(Null, Text("search_knowledge"), Text("{}"))

  /** A pending approval with this amount, and the proposal that announces it. */
  function Approval(amount: Json): Json {
    Object(map["run_id" := Text("r"), "proposal_id" := Text("p"), "approval_id" := Text("a"), "action_type" := Text("refund"),
               "status" := Text("awaiting_approval"), "amount_cents" := amount, "currency" := Text("CNY"),
               "resume_required" := Flag(false), "error_code" := Null])
  }

  function Proposed(amount: Json): Json {
    Object(map["ok" := Flag(true), "data" := Approval(amount)])
  }

  /** A model that asks for these calls and then replies so, a proposal with this amount, a search
      with this result, and a listener that bears this many events. */
  function Sample(calls: seq<ToolCall>, reply: ModelReply, amount: Json, found: Json, patience: nat): World {
    World((messages: seq<Message>) => if messages == [] then Says(Null, Null, calls) else reply,
          (messages: seq<Message>, call: ToolCall) => Returns(if call == PROPOSAL then Proposed(amount) else found, true),
          (events: seq<Event>) => |events| <= patience,
          Readers((text: string) => None, (value: Json) => false, (value: Json) => false))
  }

  const DONE := Says(Text("done"), Null, [])

  /** A search result whose data is not an object, and one whose citations are a number. */
  const ODD_DATA := Object(map["data" := Number(1)])
  const ODD_CITATIONS := Object(map["data" := Object(map["retrieval_summary" := Object(map[]), "citations" := Number(1)])])

  /** How the turns of this section end: with this outcome, one approval announced. */
  predicate EndsSo(calls: seq<ToolCall>, reply: ModelReply, amount: Json, found: Json, patience: nat, error: Option<TurnError>) {
    var ending := RunOneTurn([], 1, Sample(calls, reply, amount, found, patience));
    && |Announced(ending.turn.events)| == 1
    && match error
       case Some(e) => ending.outcome == Err(e)
       case None => ending.outcome.Ok? && |ending.outcome.value.pending| == 1
  }

  /** After a proposal of an amount that is a number an ordinary answer returns it, and each of the
      exceptions loses it: a reply without a message, a search result whose data is not an object or
      whose citations are a number, a call without an identifier, a listener that raises; so does an
      amount that is no number, whatever follows. */
  lemma {:induction false} ApprovalsCanBeLost()
    ensures EndsSo([PROPOSAL], DONE, Number(100), Null, 9, None)
    ensures EndsSo([PROPOSAL], NoMessage, Number(100), Null, 9, Some(MalformedReply))
    ensures EndsSo([PROPOSAL, SEARCH], DONE, Number(100), ODD_DATA, 9, Some(MalformedResult))
    ensures EndsSo([PROPOSAL, SEARCH], DONE, Number(100), ODD_CITATIONS, 9, Some(MalformedAnswer))
    ensures EndsSo([PROPOSAL, NAMELESS], DONE, Number(100), Null, 9, Some(MalformedCall))
    ensures EndsSo([PROPOSAL], DONE, Number(100), Null, 2, Some(ListenerRaised))
    ensures EndsSo([PROPOSAL], DONE, Null, Null, 9, Some(MalformedAnswer))
    ensures EndsSo([PROPOSAL], Unavailable, Null, Null, 9, Some(MalformedAnswer))
  {
    hide EndsSo;
    OneProposalEnds(DONE, Number(100), None);
    OneProposalEnds(NoMessage, Number(100), Some(MalformedReply));
    OneProposalEnds(DONE, Null, Some(MalformedAnswer));
    OneProposalEnds(Unavailable, Null, Some(MalformedAnswer));
    SecondCallEnds(SEARCH, ODD_DATA, MalformedResult);
    SecondCallEnds(NAMELESS, Null, MalformedCall);
    OddCitationsEnd();
    ListenerEnds();
  }

  lemma ProposalIsNoted(amount: Json)
    ensures PendingOf("propose_refund", Proposed(amount)) == Some(Approval(amount))
  {
    var fields := Approval(amount).fields;
    assert Get(Proposed(amount).fields, "ok") == Flag(true) && Get(Proposed(amount).fields, "data") == Approval(amount);
    assert fields.Keys == PENDING_FIELDS;
    assert (map field | field in PENDING_FIELDS :: fields[field]) == fields;
  }

  /** The turn of such a world after the model's first reply. */
  function Begun(calls: seq<ToolCall>): Turn {
    Asking(NewTurn([]), Null, Null, calls)
  }

  lemma FirstCall(calls: seq<ToolCall>, reply: ModelReply, amount: Json, found: Json, patience: nat)
    ensures var after := AfterCall(Begun(calls), PROPOSAL, Returns(Proposed(amount), true), Sample(calls, reply, amount, found, patience));
            && after.turn.payloads == []
            && (patience >= 3 ==>
                  after.stop.None? && after.turn.pending == [Approval(amount)] && |after.turn.events| == 3 && after.turn.messages != [])
            && (patience == 2 ==> after.stop == Some(ListenerRaised) && after.turn.pending == [Approval(amount)])
  {
    hide PendingOf, Proposed, Approval, Renumber;
    ProposalIsNoted(amount);
  }

  lemma {:induction false} OneCall(calls: seq<ToolCall>, w: World)
    requires calls != []
    ensures AfterCalls(Begun(calls), calls[..1], w)
         == AfterCall(Begun(calls), calls[0], w.tools(Begun(calls).messages, calls[0]), w)
  {
    hide AfterCall;
    assert calls[..1][..0] == [];
    assert AfterCalls(Begun(calls), [], w) == Progress(Begun(calls), None);
  }

  /** What such a turn holds at its end it has announced. */
  lemma SampleAgrees(w: World)
    requires w.hears([])
    ensures var ending := RunOneTurn([], 1, w);
            |Announced(ending.turn.events)| == |ending.turn.pending|
            && (ending.outcome.Ok? ==> |ending.outcome.value.pending| == |ending.turn.pending|)
  {
    hide Loop;
    var t := NewTurn([]);
    assert t.messages[0..] == [];
    PendingIsReturned([], t, 0, 1, w);
  }

  lemma {:induction false} OneProposalEnds(reply: ModelReply, amount: Json, error: Option<TurnError>)
    requires amount == Number(100) || amount == Null
    requires reply in {DONE, NoMessage, Unavailable}
    requires error == if reply == NoMessage then Some(MalformedReply) else if amount == Null then Some(MalformedAnswer) else None
    ensures EndsSo([PROPOSAL], reply, amount, Null, 9, error)
  {
    hide AfterCall, AfterCalls, Announced, Answering, Fallback, AllReturnable;
    var calls := [PROPOSAL];
    var w := Sample(calls, reply, amount, Null, 9);
    SampleAgrees(w);
    FirstCall(calls, reply, amount, Null, 9);
    OneCall(calls, w);
    assert calls[..1] == calls;
    var t := AfterCalls(Begun(calls), calls, w).turn;
    DoneAnswers(t, amount, w);
    assert Loop(NewTurn([]), 0, 1, w).turn == Loop(t, 1, 1, w).turn;
  }

  /** An answer without marks after one such proposal and no search, and the fallback. */
  lemma {:induction false} DoneAnswers(t: Turn, amount: Json, w: World)
    requires t.pending == [Approval(amount)] && t.payloads == [] && (amount == Number(100) || amount == Null)
    ensures var ending := Answering(t, Text("done"), Null, w);
            ending.turn.pending == t.pending
            && if amount == Null then ending.outcome == Err(MalformedAnswer) else ending.outcome.Ok? && ending.outcome.value.pending == t.pending
    ensures var ending := Fallback(t, w);
            ending.turn.pending == t.pending && (ending.outcome.Ok? <==> amount != Null)
            && (ending.outcome.Err? ==> ending.outcome.error == MalformedAnswer)
  {
    hide Validate, InvalidEvent, Approval;
    NoMarksNoSearches(w.readers);
    ApprovalReturnable(amount, w.readers);
    assert t.pending[0] == Approval(amount);
    assert AllReturnable(t.pending, w.readers) <==> Returnable(t.pending[0], w.readers);
  }

  lemma ApprovalReturnable(amount: Json, readers: Readers)
    requires amount == Number(100) || amount == Null
    ensures Returnable(Approval(amount), readers) <==> amount != Null
  {
  }

  lemma {:induction false} NoMarksNoSearches(readers: Readers)
    ensures Validate("done", [], readers) == Some(Verdict([], [], None, false, false))
  {
    assert Marks("done", 4) == [] && Marks("done", 3) == [] && Marks("done", 2) == [] && Marks("done", 1) == [] && Marks("done", 0) == [];
    assert FirstMarks([]) == [] && Allowlist([]) == map[] && Summaries([]) == [];
  }

  lemma {:induction false} SecondCall(second: ToolCall, found: Json, w: World)
    requires w == Sample([PROPOSAL, second], DONE, Number(100), found, 9)
    ensures var calls := [PROPOSAL, second];
            var first := AfterCall(Begun(calls), PROPOSAL, Returns(Proposed(Number(100)), true), w).turn;
            AfterCalls(Begun(calls), calls, w) == AfterCall(first, second, Returns(if second == PROPOSAL then Proposed(Number(100)) else found, true), w)
  {
    hide AfterCall, Proposed;
    var calls := [PROPOSAL, second];
    FirstCall(calls, DONE, Number(100), found, 9);
    OneCall(calls, w);
    assert calls[..1] == calls[..|calls| - 1];
  }

  lemma {:induction false} SecondCallEnds(second: ToolCall, found: Json, error: TurnError)
    requires (second, found, error) == (SEARCH, ODD_DATA, MalformedResult) || (second, found, error) == (NAMELESS, Null, MalformedCall)
    ensures EndsSo([PROPOSAL, second], DONE, Number(100), found, 9, Some(error))
  {
    hide AfterCalls, Announced, Answering, Fallback, AllReturnable, Proposed, Approval, PendingOf;
    var calls := [PROPOSAL, second];
    var w := Sample(calls, DONE, Number(100), found, 9);
    SampleAgrees(w);
    FirstCall(calls, DONE, Number(100), found, 9);
    SecondCall(second, found, w);
    assert Get(ODD_DATA.fields, "data") == Number(1);
  }

  lemma {:induction false} OddCitationsEnd()
    ensures EndsSo([PROPOSAL, SEARCH], DONE, Number(100), ODD_CITATIONS, 9, Some(MalformedAnswer))
  {
    hide AfterCalls, Announced, Answering, Fallback, AllReturnable, AfterCall, Proposed, Approval, PendingOf, Renumber;
    var calls := [PROPOSAL, SEARCH];
    var w := Sample(calls, DONE, Number(100), ODD_CITATIONS, 9);
    SampleAgrees(w);
    var t := OddCitationsTurn(w);
    OddCitationsFail(t, w);
    assert Loop(NewTurn([]), 0, 1, w).turn == Loop(t, 1, 1, w).turn;
  }

  lemma {:induction false} OddCitationsTurn(w: World) returns (t: Turn)
    requires w == Sample([PROPOSAL, SEARCH], DONE, Number(100), ODD_CITATIONS, 9)
    ensures AfterCalls(Begun([PROPOSAL, SEARCH]), [PROPOSAL, SEARCH], w) == Progress(t, None)
    ensures |t.pending| == 1 && t.payloads == [ODD_CITATIONS] && t.messages != []
  {
    hide AfterCalls, AfterCall, Proposed, Approval, PendingOf, Renumber;
    var calls := [PROPOSAL, SEARCH];
    FirstCall(calls, DONE, Number(100), ODD_CITATIONS, 9);
    SecondCall(SEARCH, ODD_CITATIONS, w);
    OddCitationsKept(AfterCall(Begun(calls), PROPOSAL, Returns(Proposed(Number(100)), true), w).turn, w);
    t := AfterCalls(Begun(calls), calls, w).turn;
  }

  lemma OddCitationsKept(t: Turn, w: World)
    requires t.payloads == [] && |t.events| == 3 && forall events :: w.hears(events) <==> |events| <= 9
    ensures var after := AfterCall(t, SEARCH, Returns(ODD_CITATIONS, true), w);
            after.stop.None? && after.turn.pending == t.pending && after.turn.payloads == [ODD_CITATIONS] && after.turn.messages != []
  {
    hide CheckSearch, Renumber, PendingOf;
    OddSearch(t.next);
  }

  lemma OddSearch(next: nat)
    ensures CheckSearch("search_knowledge", ODD_CITATIONS) == IsSearch && Renumber(ODD_CITATIONS, next) == (ODD_CITATIONS, next)
    ensures PendingOf("search_knowledge", ODD_CITATIONS) == None
  {
    var data := Get(ODD_CITATIONS.fields, "data");
    assert Get(data.fields, "retrieval_summary") == Object(map[]) && Get(data.fields, "citations") == Number(1);
  }

  lemma OddCitationsFail(t: Turn, w: World)
    requires t.payloads == [ODD_CITATIONS]
    ensures var ending := Answering(t, Text("done"), Null, w); ending.turn.pending == t.pending && ending.outcome == Err(MalformedAnswer)
  {
    assert CitationsOf(ODD_CITATIONS) == Number(1);
    assert !CitationsRead(CitationsOf(t.payloads[0]));
    assert !AllowlistReads(t.payloads);
  }

  lemma {:induction false} ListenerEnds()
    ensures EndsSo([PROPOSAL], DONE, Number(100), Null, 2, Some(ListenerRaised))
  {
    hide AfterCalls, Announced, Answering, Fallback, AllReturnable, AfterCall;
    var calls := [PROPOSAL];
    var w := Sample(calls, DONE, Number(100), Null, 2);
    SampleAgrees(w);
    FirstCall(calls, DONE, Number(100), Null, 2);
    OneCall(calls, w);
    assert calls[..1] == calls;
  }

  // ---- Citation numbers ----------------------------------------------------------------------------------------------

  /** C1 to Cn */
  function Numbers(first: nat, next: nat): seq<Json>
    requires first <= next
  {
    seq(next - first, i requires 0 <= i < next - first => Text(CitationId(first + i)))
  }

  lemma {:induction false} RenumberedIds(items: seq<Json>, next: nat)
    ensures var (numbered, after) := Renumbered(items, next);
            next <= after && |numbered| == |items| && IdsOf(numbered) == Numbers(next, after) && ItemsRead(numbered)
  {
    if items != [] {
      RenumberedIds(items[..|items| - 1], next);
      var (before, number) := Renumbered(items[..|items| - 1], next);
      var (numbered, after) := Renumbered(items, next);
      assert numbered[..|numbered| - 1] == before;
    }
  }

  /** What the turn keeps of a search: its data is an object with a summary, and the citations of a
      list can be looked up. */
  predicate IsSearched(payload: Json) {
    && SummaryOf(payload).Some? && DataReads(payload)
    && (CitationsOf(payload).List? ==> ItemsRead(CitationsOf(payload).items))
  }

  lemma RenumberIds(value: Json, next: nat)
    ensures var (shown, after) := Renumber(value, next);
            next <= after
            && (CheckSearch("search_knowledge", value) == IsSearch ==> IdsIn(shown) == Numbers(next, after) && IsSearched(shown))
  {
    hide Renumbered, IdsOf, ItemsRead;
    NoIds();
    if CitationsOf(value).List? {
      RenumberedIds(CitationsOf(value).items, next);
    }
  }

  lemma {:induction false} NoIds()
    ensures IdsOf([]) == []
  {
  }

  /** The searches of a turn number their citations C1, C2, ... without a gap or repetition. */
  ghost predicate SearchesNumbered(t: Turn) {
    && t.next >= 1 && AllIds(t.payloads) == Numbers(1, t.next)
    && forall i :: 0 <= i < |t.payloads| ==> IsSearched(t.payloads[i])
  }

  lemma {:induction false} CallNumbers(t: Turn, call: ToolCall, outcome: ToolOutcome, w: World)
    requires SearchesNumbered(t)
    ensures SearchesNumbered(AfterCall(t, call, outcome, w).turn)
  {
    hide CheckSearch, Renumber, PendingOf, SearchesNumbered;
    SameSearches(t);
    if IsReadable(call) && outcome.Returns? {
      var started := Starting(t, call, w).turn;
      SearchNumbers(started, call, outcome.value);
      SameSearches(Noted(started, call, outcome.value).1);
    }
  }

  lemma SameSearches(t: Turn)
    ensures forall t': Turn :: t'.payloads == t.payloads && t'.next == t.next ==> (SearchesNumbered(t') <==> SearchesNumbered(t))
  {
  }

  lemma {:induction false} SearchNumbers(t: Turn, call: ToolCall, value: Json)
    requires SearchesNumbered(t) && IsReadable(call)
    ensures SearchesNumbered(Noted(t, call, value).1)
  {
    hide Renumber, PendingOf, AllIds, IdsIn, IsSearched;
    if CheckSearch(call.name.text, value) == IsSearch {
      RenumberIds(value, t.next);
      var (shown, after) := Renumber(value, t.next);
      SearchAdded(t.payloads, shown, t.next, after);
    }
  }

  lemma {:induction false} SearchAdded(payloads: seq<Json>, shown: Json, next: nat, after: nat)
    requires 1 <= next <= after && AllIds(payloads) == Numbers(1, next) && IdsIn(shown) == Numbers(next, after)
    ensures AllIds(payloads + [shown]) == Numbers(1, after)
  {
    assert (payloads + [shown])[..|payloads|] == payloads;
  }

  lemma {:induction false} CallsNumber(t: Turn, calls: seq<ToolCall>, w: World)
    requires SearchesNumbered(t)
    ensures SearchesNumbered(AfterCalls(t, calls, w).turn)
  {
    hide AfterCall, SearchesNumbered;
    if calls != [] {
      CallsNumber(t, calls[..|calls| - 1], w);
      var before := AfterCalls(t, calls[..|calls| - 1], w);
      CallNumbers(before.turn, calls[|calls| - 1], w.tools(before.turn.messages, calls[|calls| - 1]), w);
    }
  }

  /** The citations of all searches of a turn are numbered from C1 on, however it ends. */
  lemma {:induction false} TurnNumbers(t: Turn, rounds: nat, limit: nat, w: World)
    requires rounds <= limit && SearchesNumbered(t)
    ensures SearchesNumbered(Loop(t, rounds, limit, w).turn)
    decreases limit - rounds
  {
    hide AfterCalls, SearchesNumbered, CheckedAnswer, AllReturnable, InvalidEvent;
    SameSearches(t);
    match w.model(t.messages)
    case Says(text, reasoning, calls) =>
      if calls != [] && rounds < limit {
        var asked := Asking(t, text, reasoning, calls);
        CallsNumber(asked, calls, w);
        if AfterCalls(asked, calls, w).stop.None? {
          TurnNumbers(AfterCalls(asked, calls, w).turn, rounds + 1, limit, w);
        }
      }
    case _ =>
  }

  /** So no two citations of a turn share a number, whatever the searches returned. */
  lemma IdsAreUnique(t: Turn, i: nat, j: nat)
    requires SearchesNumbered(t) && i < j < |AllIds(t.payloads)|
    ensures AllIds(t.payloads)[i] != AllIds(t.payloads)[j]
  {
    DecimalInjective(1 + i, 1 + j);
    var a, b := CitationId(1 + i), CitationId(1 + j);
    assert a[1..] == Decimal(1 + i) && b[1..] == Decimal(1 + j);
  }

  // ---- The whole turn ------------------------------------------------------------------------------------------------------

  /** For any model, any tools and any listener: a turn asks the model at most limit + 1 times, adds
      complete rounds and what its ending calls for, returns every approval it announced unless it
      is left by an exception that nothing handles, and numbers its citations uniquely. */
  lemma TurnPromises(messages: seq<Message>, limit: int, w: World)
    ensures var ending := RunOneTurn(messages, limit, w);
            && ending.asked <= (if limit <= 0 then 0 else limit + 1)
            && Adds(messages, ending)
            && (match ending.outcome
                case Ok(answer) => answer.pending == Announced(ending.turn.events) == Shown(ending.turn.messages[|messages|..], [])
                case Err(error) => error in UNHANDLED || Announced(ending.turn.events) == [])
            && SearchesNumbered(ending.turn)
  {
    hide Loop, Adds, AllIds;
    var t := NewTurn(messages);
    assert t.messages[|messages|..] == [];
    assert SearchesNumbered(t) by {
      NoPayloads();
    }
    if limit <= 0 {
      NothingAdded(messages, Ending(t, 0, Err(BadLimit)));
      return;
    }
    CallsAreBounded(t, 0, limit, w);
    TranscriptShape(messages, t, 0, limit, w);
    PendingIsReturned(messages, t, 0, limit, w);
    TurnNumbers(t, 0, limit, w);
  }

  lemma {:induction false} NoPayloads()
    ensures AllIds([]) == [] == Numbers(1, 1)
  {
  }

  // ---- The answer of a turn ------------------------------------------------------------------------------------------------

  /** The verdict that a plain answer carries is that of its text and of all searches of the turn. */
  lemma {:induction false} VerdictIsOfTurn(t: Turn, rounds: nat, limit: nat, w: World)
    requires rounds <= limit && !Unheard(t, w)
    ensures var ending := Loop(t, rounds, limit, w);
            ending.outcome.Ok? && ending.outcome.value.verdict.Some? ==>
              ending.outcome.value.verdict == Validate(AnswerText(ending.outcome.value.text), ending.turn.payloads, w.readers)
    decreases limit - rounds
  {
    hide AfterCalls, Validate, Unanswerable, Answering, Unheard, AllReturnable;
    match w.model(t.messages)
    case Says(text, reasoning, calls) =>
      if calls == [] {
        AnsweringAdds(t, text, reasoning, w);
      } else if rounds < limit {
        var asked := Asking(t, text, reasoning, calls);
        SameHeard(t, asked, w);
        CallsReply(asked, calls, w);
        if AfterCalls(asked, calls, w).stop.None? {
          VerdictIsOfTurn(AfterCalls(asked, calls, w).turn, rounds + 1, limit, w);
        }
      }
    case _ =>
  }

  /** The answer of a turn resolves: each citation it returns is the citation of exactly one
      search result of that turn, so the mark cannot point to another one. */
  lemma AnswerResolvesUniquely(messages: seq<Message>, limit: int, w: World, id: string)
    requires var outcome := RunOneTurn(messages, limit, w).outcome;
             outcome.Ok? && outcome.value.verdict.Some? && id in outcome.value.verdict.value.cited
    ensures var ids := AllIds(RunOneTurn(messages, limit, w).turn.payloads);
            exists i :: 0 <= i < |ids| && ids[i] == Text(id) && forall j :: 0 <= j < |ids| && ids[j] == Text(id) ==> j == i
  {
    hide Loop, Validate, Adds, Announced, Shown, Cites;
    TurnPromises(messages, limit, w);
    VerdictIsOfTurn(NewTurn(messages), 0, limit, w);
    var ending := RunOneTurn(messages, limit, w);
    var ids := AllIds(ending.turn.payloads);
    MarksAreAccounted(AnswerText(ending.outcome.value.text), ending.turn.payloads, w.readers, id);
    var i :| 0 <= i < |ids| && ids[i] == Text(id);
    forall j | 0 <= j < |ids| && ids[j] == Text(id)
      ensures j == i
    {
      if j < i {
        IdsAreUnique(ending.turn, j, i);
      } else if i < j {
        IdsAreUnique(ending.turn, i, j);
      }
    }
  }

  lemma {:induction false} SummariesCount(payloads: seq<Json>)
    requires forall i :: 0 <= i < |payloads| ==> IsSearched(payloads[i])
    ensures |Summaries(payloads)| == |payloads|
  {
    hide SummaryOf;
    if payloads != [] {
      SummariesCount(payloads[..|payloads| - 1]);
    }
  }

  /** The merged summary of an answer counts every search of the turn, and is absent only if there
      was none. */
  lemma EverySearchIsCounted(messages: seq<Message>, limit: int, w: World)
    ensures var ending := RunOneTurn(messages, limit, w);
            ending.outcome.Ok? && ending.outcome.value.verdict.Some? ==>
              var summary := ending.outcome.value.verdict.value.summary;
              if ending.turn.payloads == [] then summary == None
              else summary.Some? && summary.value.rounds == |ending.turn.payloads|
  {
    hide Loop, Adds, Announced, Shown, IsSearched, MergedStatus, TotalLatency, AllIds, Allowlist, Keep, Drop;
    TurnPromises(messages, limit, w);
    if limit > 0 {
      VerdictIsOfTurn(NewTurn(messages), 0, limit, w);
    }
    SummariesCount(RunOneTurn(messages, limit, w).turn.payloads);
  }

  /** Of all that the check of an answer might stumble over, only three things can happen in a turn:
      citations that are neither empty nor iterable, a cited citation that lacks a field or has one
      too many, and latencies that cannot be added up. */
  lemma {:induction false} TurnCheckableIff(messages: seq<Message>, limit: int, w: World, answer: string)
    ensures var payloads := RunOneTurn(messages, limit, w).turn.payloads;
            Checkable(answer, payloads, w.readers) <==>
              && (forall i :: 0 <= i < |payloads| ==>
                    var citations := CitationsOf(payloads[i]); !Truthy(citations) || citations.List? || citations.Text? || citations.Object?)
              && CitationsBuild(FirstMarks(Marks(answer, 0)), Allowlist(payloads))
              && TotalLatency(Summaries(payloads), w.readers).Some?
  {
    hide RunOneTurn, Adds, Announced, Shown, TotalLatency, Allowlist, AllIds, CitationsOf, DataReads, ItemsRead;
    TurnPromises(messages, limit, w);
  }

  /** The messages of an answered turn show their citations in the last slot only. */
  lemma AnswerIsDisplayedLast(question: seq<Message>, start: seq<Message>, ending: Ending, i: nat)
    requires Adds(start, ending) && ending.outcome.Ok? && (forall j :: 0 <= j < |question| ==> question[j].Input?)
    requires var shown := question + ending.turn.messages[|start|..]; i < |shown|
    ensures var shown := question + ending.turn.messages[|start|..];
            IsPlain(shown[i]) && (forall j :: i < j < |shown| ==> !IsPlain(shown[j])) <==> i == |shown| - 1
  {
    var shown := question + ending.turn.messages[|start|..];
    assert IsPlain(shown[|shown| - 1]);
  }
}
