// One OpenClaw run: host callbacks, completion, abort and failure, and the facts that leave its queue
// (message-bridge-openclaw/src/sdk/OpenClawProviderAdapter.ts).
module OpenClawRun {
  import opened Prelude
  import opened FactSequence

  datatype Outcome = Completed | Aborted | Failed

  // The background coroutine may complete once, or fail once; a completion that throws still has to fail.
  datatype Background = Running | Failing | Finished

  // The message a run writes, and its two parts.
  datatype Ids = Ids(messageId: string, textPartId: string, thinkingPartId: string)

  // Tool payloads are kept as the text they are serialised to.
  datatype ToolState = ToolState(input: Option<string>, output: Option<string>)

  // The producer's end of the fact queue: a push after the close is dropped.
  datatype Queue = Queue(facts: seq<Fact>, closed: bool)
  {
    function Push(fact: Fact): Queue {
      Queue(if closed then facts else facts + [fact], closed)
    }

    function Close(): Queue {
      Queue(facts, true)
    }
  }

  /** The fields of ActiveRunState; `result` is the first resolution of its deferred. */
  datatype Run = Run(
    ids: Ids,
    accountStreaming: bool,
    started: bool,
    completed: bool,
    abortRequested: bool,
    accumulatedText: string,
    accumulatedThinking: string,
    textDeltaCount: nat,
    pendingFinalText: Option<string>,
    pendingToolResultTarget: Option<string>,
    streamingEnabled: bool,
    dispatcherOwnsText: bool,
    titleEmitted: bool,
    tools: map<string, ToolState>,
    queue: Queue,
    result: Option<Outcome>,
    background: Background)
  {
    // The queue once the message is started: the title and message.start go first, once.
    function StartedQueue(): Queue {
      if started then queue
      else (if titleEmitted then queue else queue.Push(SessionTitle)).Push(MessageStart(ids.messageId))
    }

    function TitleAfterStart(): bool {
      titleEmitted || !started
    }

    // The queue after `fact` is emitted on a started message.
    function Emitted(fact: Fact): Queue {
      StartedQueue().Push(fact)
    }

    // Resolving a deferred twice has no effect.
    function Resolved(outcome: Outcome): Option<Outcome> {
      if result.Some? then result else Some(outcome)
    }

    predicate Silenced() {
      abortRequested || completed
    }
  }

  datatype Event =
    | StreamingResolved(enabled: bool)
    | DispatcherTakesText
    | DeliverTool(text: string)
    | DeliverBlock(text: string)
    | DeliverFinal(text: string)
    | ToolEvent(toolCallId: string, isResult: bool, isError: bool, input: Option<string>, output: Option<string>)
    | AssistantEvent(fullText: string, delta: string)
    | ReasoningEvent(finishing: bool, text: string)
    | ReplyCompletes(observerThrows: bool)
    | SubagentCompletes(finalText: string)
    | BackgroundFails
    | Abort
    | CloseSession

  function InitialRun(ids: Ids, accountStreaming: bool): Run {
    Run(ids, accountStreaming, false, false, false, "", "", 0, None, None,
        accountStreaming, false, false, map[], Queue([], false), None, Running)
  }

  // ---- Handlers ----

  function OptionalText(text: Option<string>): Payload {
    if text.Some? then Text(text.value) else NoPayload
  }

  function DeliverToolStep(s: Run, text: string): Run {
    if s.Silenced() || s.pendingToolResultTarget.None? || s.pendingToolResultTarget.value !in s.tools ||
        text == "" then s
    else
      var id := s.pendingToolResultTarget.value;
      s.(tools := s.tools[id := s.tools[id].(output := Some(text))],
      started := true, titleEmitted := s.TitleAfterStart(),
      queue := s.Emitted(ToolUpdate(s.ids.messageId, id, NoPayload, Text(text))))
  }

  function DeliverBlockStep(s: Run, text: string): Run {
    if s.Silenced() || text == "" then s
    else if !s.streamingEnabled then s.(accumulatedText := s.accumulatedText + text)
    else
      s.(accumulatedText := s.accumulatedText + text, textDeltaCount := s.textDeltaCount + 1,
      started := true, titleEmitted := s.TitleAfterStart(),
      queue := s.Emitted(TextDelta(s.ids.messageId, s.ids.textPartId, text)))
  }

  function DeliverFinalStep(s: Run, text: string): Run {
    if s.Silenced() || text == "" then s else s.(pendingFinalText := Some(text))
  }

  function ToolAfter(tool: ToolState, isResult: bool, isError: bool, input: Option<string>,
      output: Option<string>): ToolState {
    ToolState(
      if input.Some? then input else tool.input,
      if isResult && !isError && output.Some? then output else tool.output)
  }

  function KnownTool(s: Run, toolCallId: string): ToolState {
    if toolCallId in s.tools then s.tools[toolCallId] else ToolState(None, None)
  }

  function ToolStep(s: Run, e: Event): Run
    requires e.ToolEvent?
  {
    if s.Silenced() then s
    else
      var tool := ToolAfter(KnownTool(s, e.toolCallId), e.isResult, e.isError, e.input, e.output);
      s.(tools := s.tools[e.toolCallId := tool],
      pendingToolResultTarget := if e.isResult then Some(e.toolCallId) else s.pendingToolResultTarget,
      started := true, titleEmitted := s.TitleAfterStart(),
      queue := s.Emitted(ToolUpdate(s.ids.messageId, e.toolCallId, OptionalText(tool.input),
          OptionalText(tool.output))))
  }

  predicate StartsWith(text: string, prefix: string) {
    prefix <= text
  }

  predicate EndsWith(text: string, suffix: string) {
    |suffix| <= |text| && text[|text| - |suffix|..] == suffix
  }

  // The part of an assistant event that is new; empty when there is nothing to emit.
  function NewText(accumulated: string, fullText: string, delta: string): string {
    if StartsWith(fullText, accumulated) then
      var suffix := fullText[|accumulated|..];
      if suffix != "" then suffix
      else if delta == "" || EndsWith(accumulated, delta) then ""
      else delta
    else delta
  }

  function AssistantStep(s: Run, fullText: string, delta: string): Run {
    var text := NewText(s.accumulatedText, fullText, delta);
    var nextText := if fullText != "" then fullText else s.accumulatedText + text;
    if s.dispatcherOwnsText || s.Silenced() || text == "" then s
    else if !s.streamingEnabled then s.(accumulatedText := nextText)
    else
      s.(accumulatedText := nextText, textDeltaCount := s.textDeltaCount + 1,
      started := true, titleEmitted := s.TitleAfterStart(),
      queue := s.Emitted(TextDelta(s.ids.messageId, s.ids.textPartId, text)))
  }

  // A finishing event brings its text as a delta only if no delta came before.
  predicate EmitsThinkingDelta(s: Run, finishing: bool, text: string) {
    text != "" && (!finishing || s.accumulatedThinking == "")
  }

  function ThinkingQueue(s: Run, finishing: bool, text: string): Queue {
    if EmitsThinkingDelta(s, finishing, text) then s.Emitted(ThinkingDelta(s.ids.messageId, s.ids.thinkingPartId, text))
    else if finishing then s.StartedQueue()
    else s.queue
  }

  function ReasoningStep(s: Run, finishing: bool, text: string): Run {
    var emits := EmitsThinkingDelta(s, finishing, text);
    var thinking := if emits then s.accumulatedThinking + text else s.accumulatedThinking;
    if s.Silenced() || !(emits || finishing) then s
    else
      var queue := ThinkingQueue(s, finishing, text);
      s.(accumulatedThinking := thinking, started := true, titleEmitted := s.TitleAfterStart(),
      queue := if finishing then queue.Push(ThinkingDone(s.ids.messageId, s.ids.thinkingPartId, thinking)) else queue)
  }

  // reconcileFinalText.ts: a non-empty final text wins over what was accumulated.
  function ReconciledText(accumulated: string, final: Option<string>): string {
    if final.Some? && final.value != "" then final.value else accumulated
  }

  predicate Completes(e: Event) {
    e.ReplyCompletes? || e.SubagentCompletes?
  }

  function CompletionText(s: Run, e: Event): string
    requires Completes(e)
  {
    if e.ReplyCompletes? then ReconciledText(s.accumulatedText, s.pendingFinalText) else e.finalText
  }

  // text.done, message.done, close.
  function FinishedQueue(s: Run, text: string): Queue {
    s.Emitted(TextDone(s.ids.messageId, s.ids.textPartId, text)).Push(MessageDone(s.ids.messageId)).Close()
  }

  function SettledOutcome(s: Run, otherwise: Outcome): Outcome {
    if s.abortRequested then Aborted else otherwise
  }

  // An observer that throws does so between closing the queue and resolving the result.
  function CompletionStep(s: Run, text: string, observerThrows: bool): Run {
    s.(accumulatedText := text, started := true, titleEmitted := s.TitleAfterStart(), queue := FinishedQueue(s, text),
    result := if observerThrows then s.result else s.Resolved(SettledOutcome(s, Completed)),
    completed := s.completed || !observerThrows,
    background := if observerThrows then Failing else Finished)
  }

  function BackgroundFailsStep(s: Run): Run {
    s.(queue := s.queue.Push(SessionError).Close(), result := s.Resolved(SettledOutcome(s, Failed)),
    completed := true, background := Finished)
  }

  function AbortStep(s: Run): Run {
    if s.completed then s
    else s.(abortRequested := true, queue := s.queue.Close(), result := s.Resolved(Aborted), completed := true)
  }

  function Step(s: Run, e: Event): Run {
    match e
    case StreamingResolved(enabled) => s.(streamingEnabled := s.accountStreaming && enabled)
    case DispatcherTakesText => s.(dispatcherOwnsText := true)
    case DeliverTool(text) => DeliverToolStep(s, text)
    case DeliverBlock(text) => DeliverBlockStep(s, text)
    case DeliverFinal(text) => DeliverFinalStep(s, text)
    case ToolEvent(_, _, _, _, _) => ToolStep(s, e)
    case AssistantEvent(fullText, delta) => AssistantStep(s, fullText, delta)
    case ReasoningEvent(finishing, text) => ReasoningStep(s, finishing, text)
    case ReplyCompletes(throws) => CompletionStep(s, CompletionText(s, e), throws)
    case SubagentCompletes(_) => CompletionStep(s, CompletionText(s, e), false)
    case BackgroundFails => BackgroundFailsStep(s)
    case Abort => AbortStep(s)
    case CloseSession => s.(abortRequested := true)
  }

  // Host callbacks, abort and close may come at any time; the background coroutine ends once.
  predicate Possible(s: Run, e: Event) {
    match e
    case ReplyCompletes(_) => s.background.Running?
    case SubagentCompletes(_) => s.background.Running?
    case BackgroundFails => !s.background.Finished?
    case _ => true
  }

  function Exec(s: Run, events: seq<Event>): Run {
    if events == [] then s else Step(Exec(s, events[..|events| - 1]), events[|events| - 1])
  }

  predicate IsRun(s: Run, events: seq<Event>) {
    events == [] ||
    (IsRun(s, events[..|events| - 1]) && Possible(Exec(s, events[..|events| - 1]), events[|events| - 1]))
  }

  predicate IsInitial(s: Run) {
    s == InitialRun(s.ids, s.accountStreaming)
  }

  // ---- The shape of the stream ----

  predicate Content(fact: Fact, ids: Ids) {
    match fact
    case TextDelta(m, p, _) => m == ids.messageId && p == ids.textPartId
    case TextDone(m, p, _) => m == ids.messageId && p == ids.textPartId
    case ThinkingDelta(m, p, _) => m == ids.messageId && p == ids.thinkingPartId
    case ThinkingDone(m, p, _) => m == ids.messageId && p == ids.thinkingPartId
    case ToolUpdate(m, _, _, _) => m == ids.messageId
    case _ => false
  }

  // title, start, content*, with the message still open.
  predicate OpenStream(facts: seq<Fact>, ids: Ids) {
    && |facts| >= 2 && facts[0] == SessionTitle && facts[1] == MessageStart(ids.messageId)
    && forall i :: 2 <= i < |facts| ==> Content(facts[i], ids)
  }

  // Nothing, a lone error, or an open stream that may have been ended by message.done or session.error.
  predicate Stream(facts: seq<Fact>, ids: Ids) {
    || facts == []
    || facts == [SessionError]
    || OpenStream(facts, ids)
    || (|facts| >= 3 && OpenStream(facts[..|facts| - 1], ids)
        && (facts[|facts| - 1] == MessageDone(ids.messageId) || facts[|facts| - 1] == SessionError))
  }

  predicate QueueInv(q: Queue, started: bool, ids: Ids) {
    && Stream(q.facts, ids)
    && (!q.closed ==> if started then OpenStream(q.facts, ids) else q.facts == [])
  }

  predicate Inv(s: Run) {
    && (s.started <==> s.titleEmitted)
    && QueueInv(s.queue, s.started, s.ids)
    && (s.result.Some? ==> s.queue.closed)
    && (s.completed ==> s.queue.closed)
    && (s.background.Failing? ==> s.queue.closed)
  }

  lemma AppendToStream(facts: seq<Fact>, fact: Fact, ids: Ids)
    requires OpenStream(facts, ids)
    ensures Content(fact, ids) ==> OpenStream(facts + [fact], ids)
    ensures fact == MessageDone(ids.messageId) || fact == SessionError ==> Stream(facts + [fact], ids)
  {
    assert (facts + [fact])[..|facts|] == facts;
  }

  lemma PushContent(q: Queue, fact: Fact, ids: Ids)
    requires QueueInv(q, true, ids) && Content(fact, ids)
    ensures QueueInv(q.Push(fact), true, ids)
  {
    if !q.closed {
      AppendToStream(q.facts, fact, ids);
    }
  }

  lemma StartedQueueInv(s: Run)
    requires Inv(s)
    ensures QueueInv(s.StartedQueue(), true, s.ids)
    ensures s.StartedQueue().closed == s.queue.closed && (s.queue.closed ==> s.StartedQueue() == s.queue)
  {
    if !s.started && !s.queue.closed {
      assert s.StartedQueue().facts == [SessionTitle, MessageStart(s.ids.messageId)];
    }
  }

  lemma EmittedInv(s: Run, fact: Fact)
    requires Inv(s) && Content(fact, s.ids)
    ensures QueueInv(s.Emitted(fact), true, s.ids)
    ensures s.Emitted(fact).closed == s.queue.closed && (s.queue.closed ==> s.Emitted(fact) == s.queue)
  {
    StartedQueueInv(s);
    PushContent(s.StartedQueue(), fact, s.ids);
  }

  lemma FinishedQueueInv(s: Run, text: string)
    requires Inv(s)
    ensures QueueInv(FinishedQueue(s, text), true, s.ids) && FinishedQueue(s, text).closed
    ensures s.queue.closed ==> FinishedQueue(s, text) == s.queue
    ensures !s.queue.closed ==>
              var facts := FinishedQueue(s, text).facts;
              && |facts| >= 4
              && facts[|facts| - 2] == TextDone(s.ids.messageId, s.ids.textPartId, text)
              && facts[|facts| - 1] == MessageDone(s.ids.messageId)
  {
    EmittedInv(s, TextDone(s.ids.messageId, s.ids.textPartId, text));
    if !s.queue.closed {
      AppendToStream(s.Emitted(TextDone(s.ids.messageId, s.ids.textPartId, text)).facts, MessageDone(s.ids.messageId),
          s.ids);
    }
  }

  predicate IsContentEvent(e: Event) {
    e.DeliverTool? || e.DeliverBlock? || e.ToolEvent? || e.AssistantEvent?
  }

  // The fact a content event emits, if it emits one.
  function Emits(s: Run, e: Event): Option<Fact>
    requires IsContentEvent(e)
  {
    match e
    case DeliverTool(text) =>
      if s.Silenced() || s.pendingToolResultTarget.None? || s.pendingToolResultTarget.value !in s.tools ||
          text == "" then None
      else Some(ToolUpdate(s.ids.messageId, s.pendingToolResultTarget.value, NoPayload, Text(text)))
    case DeliverBlock(text) =>
      if s.Silenced() || text == "" || !s.streamingEnabled then None
      else Some(TextDelta(s.ids.messageId, s.ids.textPartId, text))
    case ToolEvent(id, isResult, isError, input, output) =>
      if s.Silenced() then None
      else
        var tool := ToolAfter(KnownTool(s, id), isResult, isError, input, output);
        Some(ToolUpdate(s.ids.messageId, id, OptionalText(tool.input), OptionalText(tool.output)))
    case AssistantEvent(fullText, delta) =>
      var text := NewText(s.accumulatedText, fullText, delta);
      if s.dispatcherOwnsText || s.Silenced() || text == "" || !s.streamingEnabled then None
      else Some(TextDelta(s.ids.messageId, s.ids.textPartId, text))
  }

  // Neither settles the run nor ends its stream.
  predicate SettlesNothing(s: Run, t: Run) {
    && t.ids == s.ids && t.result == s.result && t.completed == s.completed
    && t.background == s.background && t.abortRequested == s.abortRequested
    && t.streamingEnabled == s.streamingEnabled && t.accountStreaming == s.accountStreaming
  }

  // A content event starts the message if it emits, emits at most one fact, and settles nothing.
  lemma ContentStep(s: Run, e: Event)
    requires IsContentEvent(e)
    ensures SettlesNothing(s, Step(s, e))
    ensures Step(s, e).queue == if Emits(s, e).Some? then s.Emitted(Emits(s, e).value) else s.queue
    ensures Step(s, e).started == (s.started || Emits(s, e).Some?)
    ensures Step(s, e).titleEmitted == if Emits(s, e).Some? then s.TitleAfterStart() else s.titleEmitted
  {
  }

  lemma ContentKeepsInv(s: Run, e: Event)
    requires Inv(s) && IsContentEvent(e)
    ensures Inv(Step(s, e)) && Step(s, e).ids == s.ids
  {
    ContentStep(s, e);
    if Emits(s, e).Some? {
      EmittedInv(s, Emits(s, e).value);
    }
  }

  lemma ReasoningKeepsInv(s: Run, finishing: bool, text: string)
    requires Inv(s)
    ensures Inv(ReasoningStep(s, finishing, text)) && SettlesNothing(s, ReasoningStep(s, finishing, text))
    ensures ReasoningStep(s, finishing, text).queue.closed == s.queue.closed
    ensures s.queue.closed ==> ReasoningStep(s, finishing, text).queue == s.queue
  {
    StartedQueueInv(s);
    EmittedInv(s, ThinkingDelta(s.ids.messageId, s.ids.thinkingPartId, text));
    var thinking := if EmitsThinkingDelta(s, finishing, text) then s.accumulatedThinking + text
        else s.accumulatedThinking;
    if EmitsThinkingDelta(s, finishing, text) || finishing {
      PushContent(ThinkingQueue(s, finishing, text), ThinkingDone(s.ids.messageId, s.ids.thinkingPartId, thinking),
          s.ids);
    }
  }

  lemma CompletionKeepsInv(s: Run, text: string, observerThrows: bool)
    requires Inv(s)
    ensures Inv(CompletionStep(s, text, observerThrows)) && CompletionStep(s, text, observerThrows).ids == s.ids
  {
    FinishedQueueInv(s, text);
  }

  lemma FailureKeepsInv(s: Run)
    requires Inv(s)
    ensures Inv(BackgroundFailsStep(s)) && BackgroundFailsStep(s).ids == s.ids
  {
    if !s.queue.closed && s.started {
      AppendToStream(s.queue.facts, SessionError, s.ids);
    }
  }

  lemma FlagsKeepInv(s: Run, e: Event)
    requires Inv(s)
    requires e.StreamingResolved? || e.DispatcherTakesText? || e.DeliverFinal? || e.Abort? || e.CloseSession?
    ensures Inv(Step(s, e)) && Step(s, e).ids == s.ids
  {
  }

  lemma {:induction false} StepKeepsInv(s: Run, e: Event)
    requires Inv(s)
    ensures Inv(Step(s, e)) && Step(s, e).ids == s.ids
  {
    match e
    case DeliverTool(_) => ContentKeepsInv(s, e);
    case DeliverBlock(_) => ContentKeepsInv(s, e);
    case ToolEvent(_, _, _, _, _) => ContentKeepsInv(s, e);
    case AssistantEvent(_, _) => ContentKeepsInv(s, e);
    case ReasoningEvent(finishing, text) => ReasoningKeepsInv(s, finishing, text);
    case ReplyCompletes(throws) => CompletionKeepsInv(s, CompletionText(s, e), throws);
    case SubagentCompletes(_) => CompletionKeepsInv(s, CompletionText(s, e), false);
    case BackgroundFails => FailureKeepsInv(s);
    case StreamingResolved(_) => FlagsKeepInv(s, e);
    case DispatcherTakesText => FlagsKeepInv(s, e);
    case DeliverFinal(_) => FlagsKeepInv(s, e);
    case Abort => FlagsKeepInv(s, e);
    case CloseSession => FlagsKeepInv(s, e);
  }

  lemma {:induction false} RunKeepsInv(s: Run, events: seq<Event>)
    requires IsInitial(s)
    ensures Inv(Exec(s, events))
    ensures Exec(s, events).ids == s.ids
    decreases |events|
  {
    if events != [] {
      RunKeepsInv(s, events[..|events| - 1]);
      StepKeepsInv(Exec(s, events[..|events| - 1]), events[|events| - 1]);
    }
  }
}
