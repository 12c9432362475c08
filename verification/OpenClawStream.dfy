// What the facts of an OpenClaw run guarantee to the reader of its stream, over every interleaving.
module OpenClawStream {
  import opened Prelude
  import opened FactSequence
  import opened OpenClawRun

  lemma OpenStreamIsOrdered(facts: seq<Fact>, ids: Ids, profile: Profile)
    requires OpenStream(facts, ids)
    ensures Ordered(facts, profile)
    ensures MayFollow(facts, MessageDone(ids.messageId), profile) && MayFollow(facts, SessionError, profile)
  {
    assert forall i :: 0 <= i < |facts| ==> !facts[i].MessageDone?;
    forall j | 0 <= j < |facts| && NeedsMessage(facts[j])
      ensures MessageStart(facts[j].messageId) in facts[..j]
    {
      assert facts[..j][1] == facts[1];
    }
  }

  /** Whatever the host does, the facts taken in obey the ordering rules of every profile;
      in particular nothing follows message.done. */
  lemma {:induction false} FactsAreOrdered(s: Run, events: seq<Event>, profile: Profile)
    requires IsInitial(s)
    ensures Ordered(Exec(s, events).queue.facts, profile)
    ensures EndsAtDone(Exec(s, events).queue.facts)
  {
    RunKeepsInv(s, events);
    var facts := Exec(s, events).queue.facts;
    StreamIsOrdered(facts, s.ids, profile);
    StreamIsOrdered(facts, s.ids, Outbound);
  }

  lemma StreamIsOrdered(facts: seq<Fact>, ids: Ids, profile: Profile)
    requires Stream(facts, ids)
    ensures Ordered(facts, profile)
  {
    if OpenStream(facts, ids) {
      OpenStreamIsOrdered(facts, ids, profile);
    } else if |facts| >= 3 {
      var front, last := facts[..|facts| - 1], facts[|facts| - 1];
      OpenStreamIsOrdered(front, ids, profile);
      OrderedAppend(front, last, profile);
      assert facts == front + [last];
    }
  }

  lemma StreamPositions(facts: seq<Fact>, ids: Ids, i: nat)
    requires Stream(facts, ids) && i < |facts|
    ensures facts[i].MessageStart? <==> i == 1
    ensures facts[i].SessionTitle? <==> i == 0 && facts != [SessionError]
    ensures i == 1 ==> facts[1] == MessageStart(ids.messageId)
    ensures 2 <= i < |facts| - 1 ==> Content(facts[i], ids)
  {
    if facts == [SessionError] {
    } else if OpenStream(facts, ids) {
    } else {
      assert facts[..|facts| - 1][0] == facts[0] && facts[..|facts| - 1][1] == facts[1];
      if i < |facts| - 1 {
        assert facts[..|facts| - 1][i] == facts[i];
      }
    }
  }

  /** message.start is emitted at most once, right after the title, and for the run's own message;
      every other fact but the final one is content of that message. */
  lemma {:induction false} OneMessagePerRun(s: Run, events: seq<Event>, i: nat)
    requires IsInitial(s) && i < |Exec(s, events).queue.facts|
    ensures var facts := Exec(s, events).queue.facts;
            && (facts[i].MessageStart? <==> i == 1)
            && (facts[i].SessionTitle? <==> i == 0 && facts != [SessionError])
            && (i == 1 ==> facts[1] == MessageStart(s.ids.messageId))
            && (2 <= i < |facts| - 1 ==> Content(facts[i], s.ids))
  {
    RunKeepsInv(s, events);
    StreamPositions(Exec(s, events).queue.facts, s.ids, i);
  }

  lemma ContentClosed(s: Run, e: Event)
    requires Inv(s) && IsContentEvent(e)
    ensures SettlesNothing(s, Step(s, e)) && Step(s, e).queue.closed == s.queue.closed
    ensures s.queue.closed ==> Step(s, e).queue == s.queue
  {
    ContentStep(s, e);
    if Emits(s, e).Some? {
      EmittedInv(s, Emits(s, e).value);
    }
  }

  lemma EndingIsFinal(s: Run, e: Event)
    requires Inv(s) && (e.ReplyCompletes? || e.SubagentCompletes? || e.BackgroundFails?)
    ensures s.queue.closed ==> Step(s, e).queue == s.queue
    ensures s.result.Some? ==> Step(s, e).result == s.result
  {
    if !e.BackgroundFails? {
      FinishedQueueInv(s, CompletionText(s, e));
    }
  }

  lemma ClosedQueueIsFinal(s: Run, e: Event)
    requires Inv(s)
    ensures s.queue.closed ==> Step(s, e).queue == s.queue
    ensures s.result.Some? ==> Step(s, e).result == s.result
  {
    match e
    case DeliverTool(_) => ContentClosed(s, e);
    case DeliverBlock(_) => ContentClosed(s, e);
    case ToolEvent(_, _, _, _, _) => ContentClosed(s, e);
    case AssistantEvent(_, _) => ContentClosed(s, e);
    case ReasoningEvent(finishing, text) => ReasoningKeepsInv(s, finishing, text);
    case ReplyCompletes(_) => EndingIsFinal(s, e);
    case SubagentCompletes(_) => EndingIsFinal(s, e);
    case BackgroundFails => EndingIsFinal(s, e);
    case StreamingResolved(_) =>
    case DispatcherTakesText =>
    case DeliverFinal(_) =>
    case Abort =>
    case CloseSession =>
  }

  /** The result is never resolved before the queue is closed; once closed no fact enters,
      and once resolved the result stays. */
  lemma {:induction false} ResolvedOnlyAfterClose(s: Run, events: seq<Event>, e: Event)
    requires IsInitial(s)
    ensures Exec(s, events).result.Some? ==> Exec(s, events).queue.closed
    ensures Exec(s, events).queue.closed ==> Step(Exec(s, events), e).queue == Exec(s, events).queue
    ensures Exec(s, events).result.Some? ==> Step(Exec(s, events), e).result == Exec(s, events).result
  {
    RunKeepsInv(s, events);
    ClosedQueueIsFinal(Exec(s, events), e);
  }

  // ---- Outcome and facts ----

  predicate EndsWithDone(s: Run) {
    && |s.queue.facts| >= 4 && s.queue.facts[|s.queue.facts| - 1] == MessageDone(s.ids.messageId)
    && s.queue.facts[|s.queue.facts| - 2].TextDone?
  }

  predicate EndsWithError(s: Run) {
    s.queue.facts != [] && s.queue.facts[|s.queue.facts| - 1] == SessionError
  }

  predicate OutcomeInv(s: Run) {
    && (s.completed <==> s.result.Some?)
    && (s.queue.closed ==> s.result.Some? || s.background.Failing?)
    && (s.background.Finished? ==> s.result.Some?)
    && (s.background.Failing? && s.result.None? ==> EndsWithDone(s))
    && (s.result == Some(Completed) ==> EndsWithDone(s))
    && (s.result == Some(Failed) ==> EndsWithDone(s) || EndsWithError(s))
    && (s.result == Some(Aborted) ==> s.abortRequested)
  }

  lemma CompletionKeepsOutcome(s: Run, text: string, observerThrows: bool)
    requires Inv(s) && OutcomeInv(s) && s.background.Running?
    ensures OutcomeInv(CompletionStep(s, text, observerThrows))
  {
    FinishedQueueInv(s, text);
    var t := CompletionStep(s, text, observerThrows);
    if s.queue.closed {
      assert EndsWithDone(t) <==> EndsWithDone(s);
      assert EndsWithError(t) <==> EndsWithError(s);
    } else {
      assert EndsWithDone(t);
    }
  }

  lemma EndingKeepsOutcome(s: Run, e: Event)
    requires Inv(s) && OutcomeInv(s) && Possible(s, e) && (e.BackgroundFails? || e.Abort? || e.CloseSession?)
    ensures OutcomeInv(Step(s, e))
  {
    var t := Step(s, e);
    if s.queue.closed || !e.BackgroundFails? {
      assert EndsWithDone(t) <==> EndsWithDone(s);
      assert EndsWithError(t) <==> EndsWithError(s);
    } else {
      assert EndsWithError(t);
    }
  }

  // A step that settles nothing and leaves a closed queue alone.
  lemma FrameKeepsOutcome(s: Run, t: Run)
    requires Inv(s) && OutcomeInv(s) && SettlesNothing(s, t)
    requires t.queue.closed == s.queue.closed && (s.queue.closed ==> t.queue == s.queue)
    ensures OutcomeInv(t)
  {
    assert s.queue.closed ==> (EndsWithDone(t) <==> EndsWithDone(s));
    assert s.queue.closed ==> (EndsWithError(t) <==> EndsWithError(s));
  }

  lemma ContentKeepsOutcome(s: Run, e: Event)
    requires Inv(s) && OutcomeInv(s) && IsContentEvent(e)
    ensures OutcomeInv(Step(s, e))
  {
    ContentClosed(s, e);
    FrameKeepsOutcome(s, Step(s, e));
  }

  lemma FlagsKeepOutcome(s: Run, e: Event)
    requires Inv(s) && OutcomeInv(s) && (e.StreamingResolved? || e.DispatcherTakesText? || e.DeliverFinal?)
    ensures OutcomeInv(Step(s, e))
  {
    var t := Step(s, e);
    assert t.queue == s.queue;
    assert EndsWithDone(t) <==> EndsWithDone(s);
    assert EndsWithError(t) <==> EndsWithError(s);
  }

  lemma StepKeepsOutcome(s: Run, e: Event)
    requires Inv(s) && OutcomeInv(s) && Possible(s, e)
    ensures OutcomeInv(Step(s, e))
  {
    match e
    case DeliverTool(_) => ContentKeepsOutcome(s, e);
    case DeliverBlock(_) => ContentKeepsOutcome(s, e);
    case ToolEvent(_, _, _, _, _) => ContentKeepsOutcome(s, e);
    case AssistantEvent(_, _) => ContentKeepsOutcome(s, e);
    case ReasoningEvent(finishing, text) =>
      ReasoningKeepsInv(s, finishing, text);
      FrameKeepsOutcome(s, Step(s, e));
    case ReplyCompletes(throws) => CompletionKeepsOutcome(s, CompletionText(s, e), throws);
    case SubagentCompletes(_) => CompletionKeepsOutcome(s, CompletionText(s, e), false);
    case BackgroundFails => EndingKeepsOutcome(s, e);
    case Abort => EndingKeepsOutcome(s, e);
    case CloseSession => EndingKeepsOutcome(s, e);
    case StreamingResolved(_) => FlagsKeepOutcome(s, e);
    case DispatcherTakesText => FlagsKeepOutcome(s, e);
    case DeliverFinal(_) => FlagsKeepOutcome(s, e);
  }

  lemma {:induction false} RunKeepsOutcome(s: Run, events: seq<Event>)
    requires IsInitial(s) && IsRun(s, events)
    ensures OutcomeInv(Exec(s, events))
    decreases |events|
  {
    if events != [] {
      var front := events[..|events| - 1];
      RunKeepsInv(s, front);
      RunKeepsOutcome(s, front);
      StepKeepsOutcome(Exec(s, front), events[|events| - 1]);
    }
  }

  /** `completed` promises a finished message, `failed` a session error or a finished message whose
      observer threw, `aborted` an abort or close; and a run whose background work is over has an outcome. */
  lemma {:induction false} OutcomeMatchesFacts(s: Run, events: seq<Event>)
    requires IsInitial(s) && IsRun(s, events)
    ensures var f := Exec(s, events);
            && (f.result == Some(Completed) ==> EndsWithDone(f))
            && (f.result == Some(Failed) ==> EndsWithDone(f) || EndsWithError(f))
            && (f.result == Some(Aborted) ==> f.abortRequested)
            && (f.background.Finished? ==> f.result.Some? && f.queue.closed)
            && (f.result.None? ==> !f.queue.closed || EndsWithDone(f))
  {
    RunKeepsInv(s, events);
    RunKeepsOutcome(s, events);
  }

  // ---- The validator's payload rule ----

  // A host tool event whose input reaches the queue.
  predicate Carries(s: Run, e: Event) {
    e.ToolEvent? && e.input.Some? && !s.Silenced() && !s.queue.closed
  }

  predicate InputReached(s: Run, events: seq<Event>) {
    events != [] &&
    (InputReached(s, events[..|events| - 1]) || Carries(Exec(s, events[..|events| - 1]), events[|events| - 1]))
  }

  ghost predicate PayloadInv(s: Run) {
    s.queue.closed || !AllPayloadsOk(s.queue.facts) || forall t :: t in s.tools ==> s.tools[t].input.None?
  }

  lemma PushPayload(q: Queue, fact: Fact)
    ensures AllPayloadsOk(q.Push(fact).facts) <==> AllPayloadsOk(q.facts) && (q.closed || PayloadsOk(fact))
  {
    var facts := q.Push(fact).facts;
    if !q.closed {
      assert facts[|q.facts|] == fact;
      assert forall i :: 0 <= i < |q.facts| ==> facts[i] == q.facts[i];
    }
  }

  lemma StartedPayload(s: Run)
    ensures AllPayloadsOk(s.StartedQueue().facts) <==> AllPayloadsOk(s.queue.facts)
    ensures s.StartedQueue().closed == s.queue.closed
  {
    PushPayload(s.queue, SessionTitle);
    PushPayload(s.queue.Push(SessionTitle), MessageStart(s.ids.messageId));
    PushPayload(s.queue, MessageStart(s.ids.messageId));
  }

  lemma EmittedPayload(s: Run, fact: Fact)
    ensures AllPayloadsOk(s.Emitted(fact).facts)
       <==> AllPayloadsOk(s.queue.facts) && (s.queue.closed || PayloadsOk(fact))
    ensures s.Emitted(fact).closed == s.queue.closed
  {
    StartedPayload(s);
    PushPayload(s.StartedQueue(), fact);
  }

  lemma CompletionPayload(s: Run, text: string, observerThrows: bool)
    ensures AllPayloadsOk(CompletionStep(s, text, observerThrows).queue.facts) <==> AllPayloadsOk(s.queue.facts)
  {
    var done := TextDone(s.ids.messageId, s.ids.textPartId, text);
    EmittedPayload(s, done);
    PushPayload(s.Emitted(done), MessageDone(s.ids.messageId));
  }

  lemma ToolsStep(s: Run, e: Event)
    requires IsContentEvent(e)
    requires forall t :: t in s.tools ==> s.tools[t].input.None?
    ensures !Carries(s, e) && !s.queue.closed ==> forall t :: t in Step(s, e).tools ==> Step(s, e).tools[t].input.None?
    ensures Emits(s, e).Some? && !s.queue.closed ==> (PayloadsOk(Emits(s, e).value) <==> !Carries(s, e))
  {
  }

  lemma ContentPayload(s: Run, e: Event)
    requires PayloadInv(s) && IsContentEvent(e)
    ensures AllPayloadsOk(Step(s, e).queue.facts) <==> AllPayloadsOk(s.queue.facts) && !Carries(s, e)
    ensures PayloadInv(Step(s, e))
  {
    ContentStep(s, e);
    if Emits(s, e).Some? {
      EmittedPayload(s, Emits(s, e).value);
    }
    if !s.queue.closed && AllPayloadsOk(s.queue.facts) {
      ToolsStep(s, e);
    }
  }

  lemma ReasoningPayload(s: Run, finishing: bool, text: string)
    ensures AllPayloadsOk(ReasoningStep(s, finishing, text).queue.facts) <==> AllPayloadsOk(s.queue.facts)
  {
    StartedPayload(s);
    EmittedPayload(s, ThinkingDelta(s.ids.messageId, s.ids.thinkingPartId, text));
    var thinking := if EmitsThinkingDelta(s, finishing, text) then s.accumulatedThinking + text
        else s.accumulatedThinking;
    PushPayload(ThinkingQueue(s, finishing, text), ThinkingDone(s.ids.messageId, s.ids.thinkingPartId, thinking));
  }

  lemma FlagsPayload(s: Run, e: Event)
    requires PayloadInv(s)
    requires e.StreamingResolved? || e.DispatcherTakesText? || e.DeliverFinal? || e.Abort? || e.CloseSession?
    ensures Step(s, e).queue.facts == s.queue.facts && PayloadInv(Step(s, e))
  {
  }

  lemma ReasoningKeepsPayload(s: Run, finishing: bool, text: string)
    requires Inv(s) && PayloadInv(s)
    ensures PayloadInv(ReasoningStep(s, finishing, text))
    ensures AllPayloadsOk(ReasoningStep(s, finishing, text).queue.facts) <==> AllPayloadsOk(s.queue.facts)
  {
    ReasoningPayload(s, finishing, text);
    ReasoningKeepsInv(s, finishing, text);
  }

  lemma EndingPayload(s: Run, e: Event)
    requires PayloadInv(s) && (Completes(e) || e.BackgroundFails?)
    ensures PayloadInv(Step(s, e))
    ensures AllPayloadsOk(Step(s, e).queue.facts) <==> AllPayloadsOk(s.queue.facts)
  {
    if Completes(e) {
      CompletionPayload(s, CompletionText(s, e), e.ReplyCompletes? && e.observerThrows);
    } else {
      PushPayload(s.queue, SessionError);
    }
  }

  lemma StepPayload(s: Run, e: Event)
    requires Inv(s) && PayloadInv(s)
    ensures AllPayloadsOk(Step(s, e).queue.facts) <==> AllPayloadsOk(s.queue.facts) && !Carries(s, e)
    ensures PayloadInv(Step(s, e))
  {
    match e
    case DeliverTool(_) => ContentPayload(s, e);
    case DeliverBlock(_) => ContentPayload(s, e);
    case ToolEvent(_, _, _, _, _) => ContentPayload(s, e);
    case AssistantEvent(_, _) => ContentPayload(s, e);
    case ReasoningEvent(finishing, text) => ReasoningKeepsPayload(s, finishing, text);
    case ReplyCompletes(_) => EndingPayload(s, e);
    case SubagentCompletes(_) => EndingPayload(s, e);
    case BackgroundFails => EndingPayload(s, e);
    case StreamingResolved(_) => FlagsPayload(s, e);
    case DispatcherTakesText => FlagsPayload(s, e);
    case DeliverFinal(_) => FlagsPayload(s, e);
    case Abort => FlagsPayload(s, e);
    case CloseSession => FlagsPayload(s, e);
  }

  lemma {:induction false} RunPayload(s: Run, events: seq<Event>)
    requires IsInitial(s)
    ensures PayloadInv(Exec(s, events))
    ensures AllPayloadsOk(Exec(s, events).queue.facts) <==> !InputReached(s, events)
    decreases |events|
  {
    if events != [] {
      RunKeepsInv(s, events[..|events| - 1]);
      RunPayload(s, events[..|events| - 1]);
      StepPayload(Exec(s, events[..|events| - 1]), events[|events| - 1]);
    }
  }

  /** The validator accepts a run's facts exactly when no host tool event carrying an input was
      handled while the run was live: the input is sent as text where the validator wants an object. */
  lemma {:induction false} AcceptedUnlessToolInput(s: Run, events: seq<Event>)
    requires IsInitial(s)
    ensures Accepts(Exec(s, events).queue.facts, RequestRun) <==> !InputReached(s, events)
  {
    FactsAreOrdered(s, events, RequestRun);
    RunPayload(s, events);
    AcceptsExactlyOrderedHistories(Exec(s, events).queue.facts, RequestRun);
  }

  /** A concrete run the validator rejects: one tool start that carries an input. */
  lemma {:induction false} ToolInputIsRejected(s: Run) returns (events: seq<Event>)
    requires IsInitial(s)
    ensures |events| == 1 && IsRun(s, events) && !Accepts(Exec(s, events).queue.facts, RequestRun)
  {
    events := [ToolEvent("call", false, false, Some("{}"), None)];
    assert events[..0] == [];
    assert Exec(s, []) == s && Carries(s, events[0]);
    AcceptedUnlessToolInput(s, events);
  }

  // ---- Streamed text and final text ----

  function StreamedText(facts: seq<Fact>): string {
    if facts == [] then ""
    else StreamedText(facts[..|facts| - 1]) + (if facts[|facts| - 1].TextDelta? then facts[|facts| - 1].content else "")
  }

  lemma PushText(q: Queue, fact: Fact)
    requires !q.closed
    ensures StreamedText(q.Push(fact).facts) == StreamedText(q.facts) + (if fact.TextDelta? then fact.content else "")
  {
    assert (q.facts + [fact])[..|q.facts|] == q.facts;
  }

  lemma StartedText(s: Run)
    requires !s.queue.closed
    ensures StreamedText(s.StartedQueue().facts) == StreamedText(s.queue.facts) && !s.StartedQueue().closed
  {
    PushText(s.queue, SessionTitle);
    PushText(s.queue.Push(SessionTitle), MessageStart(s.ids.messageId));
    PushText(s.queue, MessageStart(s.ids.messageId));
  }

  lemma EmittedText(s: Run, fact: Fact)
    requires !s.queue.closed
    ensures StreamedText(s.Emitted(fact).facts) ==
        StreamedText(s.queue.facts) + (if fact.TextDelta? then fact.content else "")
    ensures !s.Emitted(fact).closed
  {
    StartedText(s);
    PushText(s.StartedQueue(), fact);
  }

  /** A handled block is streamed; a handled assistant event that brings new text has a snapshot that extends
      the accumulated text by exactly that text, or, streaming being off, one that equals what was accumulated. */
  predicate Exact(s: Run, e: Event) {
    match e
    case DeliverBlock(text) => s.Silenced() || text == "" || s.streamingEnabled
    case AssistantEvent(fullText, delta) =>
      var text := NewText(s.accumulatedText, fullText, delta);
      || s.dispatcherOwnsText || s.Silenced() || text == ""
      || (if s.streamingEnabled then fullText == "" || fullText == s.accumulatedText + text
          else fullText != "" && fullText == s.accumulatedText)
    case _ => true
  }

  // The reader's concatenation of the deltas is what the run has accumulated.
  predicate InStep(s: Run) {
    StreamedText(s.queue.facts) == s.accumulatedText
  }

  // Text that comes with a content event goes both into the accumulated text and, if streaming, to the reader.
  lemma ContentAccumulates(s: Run, e: Event)
    requires IsContentEvent(e)
    ensures var streamed := if Emits(s, e).Some? && Emits(s, e).value.TextDelta? then Emits(s, e).value.content else "";
            Step(s, e).accumulatedText == s.accumulatedText + streamed <==> Exact(s, e)
  {
    if e.DeliverBlock? && e.text != "" {
      assert |s.accumulatedText + e.text| > |s.accumulatedText|;
    }
    if e.AssistantEvent? {
      var text := NewText(s.accumulatedText, e.fullText, e.delta);
      assert s.accumulatedText + "" == s.accumulatedText;
      assert text != "" ==> |s.accumulatedText + text| > |s.accumulatedText|;
    }
  }

  /** One content event keeps the reader in step exactly when it is exact. */
  lemma ContentText(s: Run, e: Event)
    requires !s.queue.closed && InStep(s) && IsContentEvent(e)
    ensures InStep(Step(s, e)) <==> Exact(s, e)
  {
    ContentStep(s, e);
    ContentAccumulates(s, e);
    if Emits(s, e).Some? {
      EmittedText(s, Emits(s, e).value);
    }
  }

  lemma ReasoningText(s: Run, finishing: bool, text: string)
    requires !s.queue.closed && InStep(s)
    ensures InStep(ReasoningStep(s, finishing, text))
  {
    StartedText(s);
    EmittedText(s, ThinkingDelta(s.ids.messageId, s.ids.thinkingPartId, text));
    var thinking := if EmitsThinkingDelta(s, finishing, text) then s.accumulatedThinking + text
        else s.accumulatedThinking;
    PushText(ThinkingQueue(s, finishing, text), ThinkingDone(s.ids.messageId, s.ids.thinkingPartId, thinking));
  }

  // No further delta comes, and what was accumulated stays.
  lemma FlagsKeepText(s: Run, e: Event)
    requires e.StreamingResolved? || e.DispatcherTakesText? || e.DeliverFinal? || e.Abort? || e.CloseSession?
    ensures Step(s, e).queue.facts == s.queue.facts && Step(s, e).accumulatedText == s.accumulatedText
  {
  }

  lemma StepText(s: Run, e: Event)
    requires !s.queue.closed && InStep(s) && !Completes(e)
    ensures InStep(Step(s, e)) <==> Exact(s, e)
  {
    match e
    case DeliverTool(_) => ContentText(s, e);
    case DeliverBlock(_) => ContentText(s, e);
    case ToolEvent(_, _, _, _, _) => ContentText(s, e);
    case AssistantEvent(_, _) => ContentText(s, e);
    case ReasoningEvent(finishing, text) => ReasoningText(s, finishing, text);
    case BackgroundFails => PushText(s.queue, SessionError);
    case StreamingResolved(_) => FlagsKeepText(s, e);
    case DispatcherTakesText => FlagsKeepText(s, e);
    case DeliverFinal(_) => FlagsKeepText(s, e);
    case Abort => FlagsKeepText(s, e);
    case CloseSession => FlagsKeepText(s, e);
  }

  // The queue is open up to and including the first `k` events.
  predicate OpenUpTo(s: Run, events: seq<Event>, k: nat)
    requires k <= |events|
  {
    !Exec(s, events[..k]).queue.closed
  }

  // The k-th event is exact, if it leaves the queue open.
  predicate ExactAt(s: Run, events: seq<Event>, k: nat)
    requires k < |events|
  {
    OpenUpTo(s, events, k + 1) ==> Exact(Exec(s, events[..k]), events[k])
  }

  // As long as the queue is open, every event is exact.
  ghost predicate AllExact(s: Run, events: seq<Event>) {
    forall k :: 0 <= k < |events| ==> ExactAt(s, events, k)
  }

  // At every moment while the queue is open, the reader is in step.
  ghost predicate AlwaysInStep(s: Run, events: seq<Event>) {
    forall k :: 0 <= k <= |events| && OpenUpTo(s, events, k) ==> InStep(Exec(s, events[..k]))
  }

  lemma NextPrefix(s: Run, events: seq<Event>, k: nat)
    requires IsInitial(s) && k < |events|
    ensures Exec(s, events[..k + 1]) == Step(Exec(s, events[..k]), events[k])
    ensures OpenUpTo(s, events, k + 1) ==> OpenUpTo(s, events, k) && !Completes(events[k])
  {
    assert events[..k + 1][..k] == events[..k];
    RunKeepsInv(s, events[..k]);
    ClosedQueueIsFinal(Exec(s, events[..k]), events[k]);
  }

  lemma {:induction false} ExactUpTo(s: Run, events: seq<Event>, n: nat)
    requires IsInitial(s) && AllExact(s, events) && n <= |events| && OpenUpTo(s, events, n)
    ensures InStep(Exec(s, events[..n]))
  {
    if n > 0 {
      NextPrefix(s, events, n - 1);
      ExactUpTo(s, events, n - 1);
      assert ExactAt(s, events, n - 1);
      StepText(Exec(s, events[..n - 1]), events[n - 1]);
    }
  }

  /** Streaming or not, on every run: while the queue is open the concatenated deltas are always exactly the
      accumulated text if and only if every event handled meanwhile is exact. */
  lemma {:induction false} DeltasAddUp(s: Run, events: seq<Event>)
    requires IsInitial(s)
    ensures AlwaysInStep(s, events) <==> AllExact(s, events)
  {
    if AllExact(s, events) {
      forall k | 0 <= k <= |events| && OpenUpTo(s, events, k) ensures InStep(Exec(s, events[..k])) {
        ExactUpTo(s, events, k);
      }
    }
    if AlwaysInStep(s, events) {
      forall k | 0 <= k < |events| ensures ExactAt(s, events, k) {
        if OpenUpTo(s, events, k + 1) {
          NextPrefix(s, events, k);
          assert InStep(Exec(s, events[..k])) && InStep(Exec(s, events[..k + 1]));
          StepText(Exec(s, events[..k]), events[k]);
        }
      }
    }
  }

  // The final text the completion brings along; to a reply, an empty one is none.
  function FinalText(s: Run, e: Event): Option<string>
    requires Completes(e)
  {
    if e.SubagentCompletes? then Some(e.finalText)
    else if s.pendingFinalText == Some("") then None
    else s.pendingFinalText
  }

  lemma CompletionKeepsDeltas(s: Run, e: Event)
    requires Inv(s) && !s.queue.closed && Completes(e)
    ensures var facts := Step(s, e).queue.facts;
            && |facts| >= 4 && facts[|facts| - 2].TextDone?
            && facts[|facts| - 2].content ==
               (if FinalText(s, e).Some? then FinalText(s, e).value else s.accumulatedText)
            && StreamedText(facts) == StreamedText(s.queue.facts)
  {
    CompletingFinishes(s, e);
    FinishingStreamsNothing(s, CompletionText(s, e));
  }

  lemma CompletingFinishes(s: Run, e: Event)
    requires Completes(e)
    ensures Step(s, e).queue == FinishedQueue(s, CompletionText(s, e))
    ensures CompletionText(s, e) == if FinalText(s, e).Some? then FinalText(s, e).value else s.accumulatedText
  {
    match e
    case ReplyCompletes(_) =>
    case SubagentCompletes(_) =>
  }

  lemma FinishingStreamsNothing(s: Run, text: string)
    requires Inv(s) && !s.queue.closed
    ensures var facts := FinishedQueue(s, text).facts;
            && |facts| >= 4 && facts[|facts| - 2].TextDone? && facts[|facts| - 2].content == text
            && StreamedText(facts) == StreamedText(s.queue.facts)
  {
    FinishedQueueInv(s, text);
    var done := TextDone(s.ids.messageId, s.ids.textPartId, text);
    EmittedText(s, done);
    PushText(s.Emitted(done), MessageDone(s.ids.messageId));
  }

  /** Completing adds no delta. The text.done that completes an open run carries the host's final text if there
      is one, else what was accumulated; so the deltas add up to it if and only if the final text equals them,
      or there is none and the reader is in step. After exact events, that is: no final text, or an equal one. */
  lemma {:induction false} DoneTextCompletesDeltas(s: Run, events: seq<Event>, e: Event)
    requires IsInitial(s) && !Exec(s, events).queue.closed && Completes(e)
    ensures var before := Exec(s, events);
            var facts, final := Step(before, e).queue.facts, FinalText(before, e);
            && |facts| >= 4 && facts[|facts| - 2].TextDone?
            && facts[|facts| - 2].content == (if final.Some? then final.value else before.accumulatedText)
            && StreamedText(facts) == StreamedText(before.queue.facts)
            && (facts[|facts| - 2].content == StreamedText(facts) <==>
                if final.Some? then final.value == StreamedText(before.queue.facts) else InStep(before))
            && (AllExact(s, events) ==>
                  (facts[|facts| - 2].content == StreamedText(facts) <==>
                   final.None? || final.value == StreamedText(before.queue.facts)))
  {
    RunKeepsInv(s, events);
    CompletionKeepsDeltas(Exec(s, events), e);
    if AllExact(s, events) {
      ExactRunIsInStep(s, events);
    }
  }

  lemma ExactRunIsInStep(s: Run, events: seq<Event>)
    requires IsInitial(s) && AllExact(s, events) && !Exec(s, events).queue.closed
    ensures InStep(Exec(s, events))
  {
    assert events[..|events|] == events;
    ExactUpTo(s, events, |events|);
  }

  // One possible event more.
  lemma Longer(s: Run, events: seq<Event>, e: Event) returns (longer: seq<Event>)
    requires IsRun(s, events) && Possible(Exec(s, events), e)
    ensures IsRun(s, longer) && Exec(s, longer) == Step(Exec(s, events), e)
    ensures AllExact(s, events) && Exact(Exec(s, events), e) ==> AllExact(s, longer)
  {
    longer := events + [e];
    assert longer[..|events|] == events;
    if AllExact(s, events) && Exact(Exec(s, events), e) {
      forall k | 0 <= k < |longer| ensures ExactAt(s, longer, k) {
        assert longer[..k] == events[..k];
        if k < |events| {
          assert longer[..k + 1] == events[..k + 1];
          assert ExactAt(s, events, k);
        } else {
          assert events[..k] == events;
        }
      }
    }
  }

  // Open, streaming, in the hands of the agent's events.
  predicate Speaks(s: Run, streamed: string, accumulated: string, final: Option<string>) {
    && !s.queue.closed && s.background.Running? && s.streamingEnabled && !s.dispatcherOwnsText && !s.Silenced()
    && StreamedText(s.queue.facts) == streamed && s.accumulatedText == accumulated && s.pendingFinalText == final
  }

  // Completed: what was streamed, and what text.done says.
  predicate Told(s: Run, streamed: string, done: string) {
    var facts := s.queue.facts;
    && |facts| >= 2 && facts[|facts| - 2].TextDone? && facts[|facts| - 2].content == done
    && StreamedText(facts) == streamed
  }

  lemma SayStep(s: Run, fullText: string, delta: string, streamed: string, accumulated: string)
    requires Speaks(s, streamed, accumulated, None) && fullText != "" && NewText(accumulated, fullText, delta) != ""
    ensures Speaks(Step(s, AssistantEvent(fullText, delta)),
                   streamed + NewText(accumulated, fullText, delta), fullText, None)
  {
    EmittedText(s, TextDelta(s.ids.messageId, s.ids.textPartId, NewText(accumulated, fullText, delta)));
  }

  lemma ReplyTells(s: Run, streamed: string, accumulated: string, final: Option<string>)
    requires Inv(s) && Speaks(s, streamed, accumulated, final) && final != Some("")
    ensures Told(Step(s, ReplyCompletes(false)), streamed, if final.Some? then final.value else accumulated)
  {
    CompletionKeepsDeltas(s, ReplyCompletes(false));
  }

  lemma HelloRun(s: Run, word: string) returns (events: seq<Event>)
    requires IsInitial(s) && s.accountStreaming && word != ""
    ensures IsRun(s, events) && AllExact(s, events) && Speaks(Exec(s, events), word, word, None)
  {
    SayStep(s, word, word, "", "");
    assert "" + word == word;
    events := Longer(s, [], AssistantEvent(word, word));
  }

  /** A second assistant message whose snapshot starts anew: both are streamed, text.done carries the second. */
  lemma RestartedSnapshotLosesText(s: Run) returns (events: seq<Event>)
    requires IsInitial(s) && s.accountStreaming
    ensures IsRun(s, events) && Told(Exec(s, events), "HelloWorld", "World")
  {
    events := HelloRun(s, "Hello");
    assert NewText("Hello", "World", "World") == "World" && "Hello" + "World" == "HelloWorld";
    SayStep(Exec(s, events), "World", "World", "Hello", "Hello");
    events := Longer(s, events, AssistantEvent("World", "World"));
    RunKeepsInv(s, events);
    ReplyTells(Exec(s, events), "HelloWorld", "World", None);
    events := Longer(s, events, ReplyCompletes(false));
  }

  /** Exact events throughout, but a final text that is not what was streamed. */
  lemma FinalTextReplacesDeltas(s: Run) returns (events: seq<Event>)
    requires IsInitial(s) && s.accountStreaming
    ensures IsRun(s, events) && AllExact(s, events) && Told(Exec(s, events), "ab", "xy")
  {
    events := HelloRun(s, "ab");
    events := Longer(s, events, DeliverFinal("xy"));
    RunKeepsInv(s, events);
    ReplyTells(Exec(s, events), "ab", "ab", Some("xy"));
    events := Longer(s, events, ReplyCompletes(false));
  }
}
