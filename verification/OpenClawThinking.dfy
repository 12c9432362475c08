// The reasoning text of an OpenClaw run: deltas and the text that closes them.
module OpenClawThinking {
  import opened FactSequence
  import opened OpenClawRun

  function StreamedThinking(facts: seq<Fact>): string {
    if facts == [] then ""
    else
      StreamedThinking(facts[..|facts| - 1]) +
      (if facts[|facts| - 1].ThinkingDelta? then facts[|facts| - 1].content else "")
  }

  // Every thinking.done repeats the deltas before it.
  predicate DonesRepeatDeltas(facts: seq<Fact>) {
    facts == [] ||
    (DonesRepeatDeltas(facts[..|facts| - 1]) &&
     (facts[|facts| - 1].ThinkingDone? ==> facts[|facts| - 1].content == StreamedThinking(facts[..|facts| - 1])))
  }

  predicate QueueTells(q: Queue, thinking: string) {
    DonesRepeatDeltas(q.facts) && (!q.closed ==> StreamedThinking(q.facts) == thinking)
  }

  lemma PushTells(q: Queue, fact: Fact, thinking: string)
    requires QueueTells(q, thinking)
    requires fact.ThinkingDone? ==> fact.content == thinking
    ensures QueueTells(q.Push(fact), if fact.ThinkingDelta? then thinking + fact.content else thinking)
  {
    if !q.closed {
      assert (q.facts + [fact])[..|q.facts|] == q.facts;
    }
  }

  lemma StartedTells(s: Run)
    requires QueueTells(s.queue, s.accumulatedThinking)
    ensures QueueTells(s.StartedQueue(), s.accumulatedThinking)
  {
    PushTells(s.queue, SessionTitle, s.accumulatedThinking);
    PushTells(s.queue.Push(SessionTitle), MessageStart(s.ids.messageId), s.accumulatedThinking);
    PushTells(s.queue, MessageStart(s.ids.messageId), s.accumulatedThinking);
  }

  lemma EmittedTells(s: Run, fact: Fact)
    requires QueueTells(s.queue, s.accumulatedThinking) && !fact.ThinkingDone?
    ensures QueueTells(s.Emitted(fact),
        if fact.ThinkingDelta? then s.accumulatedThinking + fact.content else s.accumulatedThinking)
  {
    StartedTells(s);
    PushTells(s.StartedQueue(), fact, s.accumulatedThinking);
  }

  lemma ContentLeavesThinking(s: Run, e: Event)
    requires IsContentEvent(e)
    ensures Step(s, e).accumulatedThinking == s.accumulatedThinking
    ensures Emits(s, e).Some? ==> !Emits(s, e).value.ThinkingDone? && !Emits(s, e).value.ThinkingDelta?
  {
    match e
    case DeliverTool(_) =>
    case DeliverBlock(_) =>
    case ToolEvent(_, _, _, _, _) =>
    case AssistantEvent(_, _) =>
  }

  lemma ContentTells(s: Run, e: Event)
    requires QueueTells(s.queue, s.accumulatedThinking) && IsContentEvent(e)
    ensures QueueTells(Step(s, e).queue, Step(s, e).accumulatedThinking)
  {
    ContentStep(s, e);
    ContentLeavesThinking(s, e);
    if Emits(s, e).Some? {
      EmittedTells(s, Emits(s, e).value);
    }
  }

  lemma ReasoningTells(s: Run, finishing: bool, text: string)
    requires QueueTells(s.queue, s.accumulatedThinking)
    ensures QueueTells(ReasoningStep(s, finishing, text).queue, ReasoningStep(s, finishing, text).accumulatedThinking)
  {
    var thinking := if EmitsThinkingDelta(s, finishing, text) then s.accumulatedThinking + text
        else s.accumulatedThinking;
    StartedTells(s);
    EmittedTells(s, ThinkingDelta(s.ids.messageId, s.ids.thinkingPartId, text));
    PushTells(ThinkingQueue(s, finishing, text), ThinkingDone(s.ids.messageId, s.ids.thinkingPartId, thinking),
        thinking);
  }

  lemma CompletionTells(s: Run, text: string, observerThrows: bool)
    requires QueueTells(s.queue, s.accumulatedThinking)
    ensures var t := CompletionStep(s, text, observerThrows); QueueTells(t.queue, t.accumulatedThinking)
  {
    var done := TextDone(s.ids.messageId, s.ids.textPartId, text);
    EmittedTells(s, done);
    PushTells(s.Emitted(done), MessageDone(s.ids.messageId), s.accumulatedThinking);
  }

  lemma StepTells(s: Run, e: Event)
    requires QueueTells(s.queue, s.accumulatedThinking)
    ensures QueueTells(Step(s, e).queue, Step(s, e).accumulatedThinking)
  {
    match e
    case DeliverTool(_) => ContentTells(s, e);
    case DeliverBlock(_) => ContentTells(s, e);
    case ToolEvent(_, _, _, _, _) => ContentTells(s, e);
    case AssistantEvent(_, _) => ContentTells(s, e);
    case ReasoningEvent(finishing, text) => ReasoningTells(s, finishing, text);
    case ReplyCompletes(throws) => CompletionTells(s, CompletionText(s, e), throws);
    case SubagentCompletes(_) => CompletionTells(s, CompletionText(s, e), false);
    case BackgroundFails => PushTells(s.queue, SessionError, s.accumulatedThinking);
    case StreamingResolved(_) =>
    case DispatcherTakesText =>
    case DeliverFinal(_) =>
    case Abort =>
    case CloseSession =>
  }

  /** Over every interleaving: every thinking.done carries exactly the thinking deltas before it,
      concatenated, even when the host brings all reasoning in the finishing event. */
  lemma {:induction false} ThinkingAddsUp(s: Run, events: seq<Event>)
    requires IsInitial(s)
    ensures DonesRepeatDeltas(Exec(s, events).queue.facts)
    ensures !Exec(s, events).queue.closed ==>
        StreamedThinking(Exec(s, events).queue.facts) == Exec(s, events).accumulatedThinking
    decreases |events|
  {
    if events != [] {
      ThinkingAddsUp(s, events[..|events| - 1]);
      StepTells(Exec(s, events[..|events| - 1]), events[|events| - 1]);
    }
  }
}
