// What the tool.update facts of an OpenClaw run say, against the events the host sent.
module OpenClawTools {
  import opened Prelude
  import opened FactSequence
  import opened OpenClawRun

  // The last of the events reaches the run: it is neither completed nor told to stop.
  predicate Heard(s: Run, events: seq<Event>)
    requires events != []
  {
    !Exec(s, events[..|events| - 1]).Silenced()
  }

  // The tool call whose result came last.
  function ResultTarget(s: Run, events: seq<Event>): Option<string> {
    if events == [] then None
    else
      var last := events[|events| - 1];
      if last.ToolEvent? && last.isResult && Heard(s, events) then Some(last.toolCallId)
      else ResultTarget(s, events[..|events| - 1])
  }

  // The output the last of the events gives a call: that of a successful result, or the dispatcher's text for the
  // call whose result came last.
  function GivesOutput(s: Run, events: seq<Event>, toolCallId: string): Option<string>
    requires events != []
  {
    if !Heard(s, events) then None
    else
      match events[|events| - 1]
      case ToolEvent(id, isResult, isError, _, output) =>
        if id == toolCallId && isResult && !isError then output else None
      case DeliverTool(text) =>
        if text != "" && ResultTarget(s, events[..|events| - 1]) == Some(toolCallId) then Some(text) else None
      case _ => None
  }

  // The last output, respectively input, the history gives a call.
  function OutputOf(s: Run, events: seq<Event>, toolCallId: string): Option<string> {
    if events == [] then None
    else if GivesOutput(s, events, toolCallId).Some? then GivesOutput(s, events, toolCallId)
    else OutputOf(s, events[..|events| - 1], toolCallId)
  }

  function InputOf(s: Run, events: seq<Event>, toolCallId: string): Option<string> {
    if events == [] then None
    else
      var last := events[|events| - 1];
      if last.ToolEvent? && last.toolCallId == toolCallId && last.input.Some? && Heard(s, events) then last.input
      else InputOf(s, events[..|events| - 1], toolCallId)
  }

  function Payloads(text: Option<string>): Payload {
    match text
    case None => NoPayload
    case Some(value) => Text(value)
  }

  // What the run remembers of its tool calls is what the history says.
  ghost predicate Remembers(s: Run, events: seq<Event>) {
    var now := Exec(s, events);
    && now.pendingToolResultTarget == ResultTarget(s, events)
    && (now.pendingToolResultTarget.Some? ==> now.pendingToolResultTarget.value in now.tools)
    && forall id :: KnownTool(now, id) == ToolState(InputOf(s, events, id), OutputOf(s, events, id))
  }

  // Any other event leaves the tool calls alone.
  lemma OthersLeaveTools(s: Run, e: Event)
    requires !e.ToolEvent? && !e.DeliverTool?
    ensures Step(s, e).tools == s.tools && Step(s, e).pendingToolResultTarget == s.pendingToolResultTarget
  {
    match e
    case DeliverBlock(_) =>
    case DeliverFinal(_) =>
    case AssistantEvent(_, _) =>
    case ReasoningEvent(_, _) =>
    case ReplyCompletes(_) =>
    case SubagentCompletes(_) =>
    case BackgroundFails =>
    case Abort =>
    case StreamingResolved(_) =>
    case DispatcherTakesText =>
    case CloseSession =>
  }

  lemma ToolEventIsRemembered(s: Run, events: seq<Event>)
    requires events != [] && events[|events| - 1].ToolEvent? && Remembers(s, events[..|events| - 1])
    ensures Remembers(s, events)
  {
    var before, e := Exec(s, events[..|events| - 1]), events[|events| - 1];
    forall id ensures KnownTool(Exec(s, events), id) == ToolState(InputOf(s, events, id), OutputOf(s, events, id)) {
      assert KnownTool(before, id) ==
             ToolState(InputOf(s, events[..|events| - 1], id), OutputOf(s, events[..|events| - 1], id));
    }
  }

  lemma ToolTextIsRemembered(s: Run, events: seq<Event>)
    requires events != [] && events[|events| - 1].DeliverTool? && Remembers(s, events[..|events| - 1])
    ensures Remembers(s, events)
  {
    var before, e := Exec(s, events[..|events| - 1]), events[|events| - 1];
    forall id ensures KnownTool(Exec(s, events), id) == ToolState(InputOf(s, events, id), OutputOf(s, events, id)) {
      assert KnownTool(before, id) ==
             ToolState(InputOf(s, events[..|events| - 1], id), OutputOf(s, events[..|events| - 1], id));
    }
  }

  lemma OtherIsRemembered(s: Run, events: seq<Event>)
    requires events != [] && !events[|events| - 1].DeliverTool? && !events[|events| - 1].ToolEvent?
    requires Remembers(s, events[..|events| - 1])
    ensures Remembers(s, events)
  {
    var before, e := Exec(s, events[..|events| - 1]), events[|events| - 1];
    OthersLeaveTools(before, e);
    forall id ensures KnownTool(Exec(s, events), id) == ToolState(InputOf(s, events, id), OutputOf(s, events, id)) {
      assert KnownTool(before, id) ==
             ToolState(InputOf(s, events[..|events| - 1], id), OutputOf(s, events[..|events| - 1], id));
    }
  }

  lemma {:induction false} RunRemembers(s: Run, events: seq<Event>)
    requires IsInitial(s)
    ensures Remembers(s, events)
    decreases |events|
  {
    if events != [] {
      RunRemembers(s, events[..|events| - 1]);
      if events[|events| - 1].ToolEvent? {
        ToolEventIsRemembered(s, events);
      } else if events[|events| - 1].DeliverTool? {
        ToolTextIsRemembered(s, events);
      } else {
        OtherIsRemembered(s, events);
      }
    }
  }

  // The facts after one more fact, which may be the first of the message.
  predicate GrowsBy(before: Queue, after: Queue, fact: Fact) {
    && |after.facts| > |before.facts| && before.facts <= after.facts
    && after.facts[|after.facts| - 1] == fact
  }

  lemma EmittedGrows(s: Run, fact: Fact)
    requires !s.queue.closed
    ensures GrowsBy(s.queue, s.Emitted(fact), fact)
  {
  }

  /** Over every run: a tool event that is heard while the queue is open puts one tool.update of its call last, with
      the last input and the last output the history gives that call; none if there was none. An error result
      gives no output, and leaves an earlier one. */
  lemma ToolEventTellsTheHistory(s: Run, events: seq<Event>)
    requires IsInitial(s) && events != [] && events[|events| - 1].ToolEvent? && Heard(s, events)
    requires !Exec(s, events[..|events| - 1]).queue.closed
    ensures var id := events[|events| - 1].toolCallId;
            GrowsBy(Exec(s, events[..|events| - 1]).queue, Exec(s, events).queue,
                    ToolUpdate(s.ids.messageId, id,
                               Payloads(InputOf(s, events, id)), Payloads(OutputOf(s, events, id))))
  {
    var before, e := Exec(s, events[..|events| - 1]), events[|events| - 1];
    RunKeepsInv(s, events[..|events| - 1]);
    RunRemembers(s, events);
    assert KnownTool(Exec(s, events), e.toolCallId) ==
           ToolState(InputOf(s, events, e.toolCallId), OutputOf(s, events, e.toolCallId));
    ContentStep(before, e);
    EmittedGrows(before, Emits(before, e).value);
  }

  /** The dispatcher's tool text goes to the call whose result came last, as its output; before any result, or
      without text, nothing is sent. */
  lemma ToolTextGoesToTheLastResult(s: Run, events: seq<Event>)
    requires IsInitial(s) && events != [] && events[|events| - 1].DeliverTool? && Heard(s, events)
    requires !Exec(s, events[..|events| - 1]).queue.closed
    ensures var before, after := Exec(s, events[..|events| - 1]), Exec(s, events);
            var text, target := events[|events| - 1].text, ResultTarget(s, events[..|events| - 1]);
            if text == "" || target.None? then after.queue == before.queue
            else GrowsBy(before.queue, after.queue, ToolUpdate(s.ids.messageId, target.value, NoPayload, Text(text)))
  {
    var before, e := Exec(s, events[..|events| - 1]), events[|events| - 1];
    RunKeepsInv(s, events[..|events| - 1]);
    RunRemembers(s, events[..|events| - 1]);
    ContentStep(before, e);
    if Emits(before, e).Some? {
      EmittedGrows(before, Emits(before, e).value);
    }
  }
}
