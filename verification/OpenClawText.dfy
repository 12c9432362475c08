// What an OpenClaw run makes of the text and the reasoning the host sends, against the history of the run.
module OpenClawText {
  import opened Prelude
  import opened FactSequence
  import opened OpenClawRun
  import opened OpenClawTools

  // ---- Modes and the final text, by history ----

  // Streaming as last resolved, never beyond what the account allows.
  function StreamsNow(s: Run, events: seq<Event>): bool {
    if events == [] then s.accountStreaming
    else if events[|events| - 1].StreamingResolved? then s.accountStreaming && events[|events| - 1].enabled
    else StreamsNow(s, events[..|events| - 1])
  }

  // The last final text the run heard that was not empty.
  function LastFinal(s: Run, events: seq<Event>): Option<string> {
    if events == [] then None
    else
      var last := events[|events| - 1];
      if last.DeliverFinal? && last.text != "" && Heard(s, events) then Some(last.text)
      else LastFinal(s, events[..|events| - 1])
  }

  predicate ModesOk(s: Run, events: seq<Event>) {
    var now := Exec(s, events);
    && now.accountStreaming == s.accountStreaming
    && now.streamingEnabled == StreamsNow(s, events)
    && now.dispatcherOwnsText == (DispatcherTakesText in events)
    && now.pendingFinalText == LastFinal(s, events)
  }

  lemma ContentLeavesModes(s: Run, e: Event)
    requires IsContentEvent(e) || e.ReasoningEvent?
    ensures Step(s, e).dispatcherOwnsText == s.dispatcherOwnsText && Step(s, e).pendingFinalText == s.pendingFinalText
    ensures Step(s, e).streamingEnabled == s.streamingEnabled && Step(s, e).accountStreaming == s.accountStreaming
  {
    match e
    case DeliverTool(_) =>
    case DeliverBlock(_) =>
    case ToolEvent(_, _, _, _, _) =>
    case AssistantEvent(_, _) =>
    case ReasoningEvent(_, _) =>
  }

  lemma EndingLeavesModes(s: Run, e: Event)
    requires Completes(e) || e.BackgroundFails? || e.Abort? || e.CloseSession?
    ensures Step(s, e).dispatcherOwnsText == s.dispatcherOwnsText && Step(s, e).pendingFinalText == s.pendingFinalText
    ensures Step(s, e).streamingEnabled == s.streamingEnabled && Step(s, e).accountStreaming == s.accountStreaming
  {
    match e
    case ReplyCompletes(_) =>
    case SubagentCompletes(_) =>
    case BackgroundFails =>
    case Abort =>
    case CloseSession =>
  }

  lemma StepMovesModes(s: Run, e: Event)
    ensures var t := Step(s, e);
            && t.accountStreaming == s.accountStreaming
            && t.streamingEnabled ==
               (if e.StreamingResolved? then s.accountStreaming && e.enabled else s.streamingEnabled)
            && t.dispatcherOwnsText == (s.dispatcherOwnsText || e.DispatcherTakesText?)
            && t.pendingFinalText ==
               (if e.DeliverFinal? && e.text != "" && !s.Silenced() then Some(e.text) else s.pendingFinalText)
  {
    if IsContentEvent(e) || e.ReasoningEvent? {
      ContentLeavesModes(s, e);
    } else if Completes(e) || e.BackgroundFails? || e.Abort? || e.CloseSession? {
      EndingLeavesModes(s, e);
    }
  }

  lemma StepKeepsModes(s: Run, events: seq<Event>)
    requires events != [] && ModesOk(s, events[..|events| - 1])
    ensures ModesOk(s, events)
  {
    StepMovesModes(Exec(s, events[..|events| - 1]), events[|events| - 1]);
    LastIsIn(events);
  }

  lemma LastIsIn(events: seq<Event>)
    requires events != []
    ensures DispatcherTakesText in events <==>
            DispatcherTakesText in events[..|events| - 1] || events[|events| - 1].DispatcherTakesText?
  {
    assert events == events[..|events| - 1] + [events[|events| - 1]];
  }

  /** On every run: streaming is on as last resolved, within the account; the dispatcher owns the text once it took
      it; and the final text is the last one the run heard that was not empty. */
  lemma {:induction false} ModesFollowTheHistory(s: Run, events: seq<Event>)
    requires IsInitial(s)
    ensures ModesOk(s, events)
    decreases |events|
  {
    if events != [] {
      ModesFollowTheHistory(s, events[..|events| - 1]);
      StepKeepsModes(s, events);
    }
  }

  /** A run that is completed or told to stop takes nothing more from the host. */
  lemma SilencedRunTakesNothing(s: Run, e: Event)
    requires s.abortRequested || s.completed
    requires IsContentEvent(e) || e.DeliverFinal? || e.ReasoningEvent?
    ensures Step(s, e) == s
  {
    match e
    case DeliverTool(_) =>
    case DeliverBlock(_) =>
    case DeliverFinal(_) =>
    case ToolEvent(_, _, _, _, _) =>
    case AssistantEvent(_, _) =>
    case ReasoningEvent(_, _) =>
  }

  // ---- Text ----

  // The run takes in `text` and goes on with `accumulated`; the reader gets `text` as a delta if streaming is on.
  predicate Takes(before: Run, after: Run, text: string, accumulated: string) {
    && after.accumulatedText == accumulated
    && (if before.streamingEnabled then
          && after.textDeltaCount == before.textDeltaCount + 1
          && (!before.queue.closed ==>
                GrowsBy(before.queue, after.queue, TextDelta(before.ids.messageId, before.ids.textPartId, text)))
        else after.textDeltaCount == before.textDeltaCount && after.queue == before.queue)
  }

  predicate TakesNothing(before: Run, after: Run) {
    && after.accumulatedText == before.accumulatedText && after.textDeltaCount == before.textDeltaCount
    && after.queue == before.queue
  }

  /** A block the run hears is taken in as it is. */
  lemma BlocksAreTaken(s: Run, events: seq<Event>)
    requires IsInitial(s) && events != [] && events[|events| - 1].DeliverBlock? && Heard(s, events)
    ensures var before, after := Exec(s, events[..|events| - 1]), Exec(s, events);
            var text := events[|events| - 1].text;
            if text == "" then TakesNothing(before, after)
            else Takes(before, after, text, before.accumulatedText + text)
  {
    var before, e := Exec(s, events[..|events| - 1]), events[|events| - 1];
    if before.streamingEnabled && e.text != "" && !before.queue.closed {
      EmittedGrows(before, TextDelta(before.ids.messageId, before.ids.textPartId, e.text));
    }
    RunKeepsInv(s, events[..|events| - 1]);
  }

  // The accumulated text ends in `tail`.
  ghost predicate EndsIn(text: string, tail: string) {
    exists head: string :: text == head + tail
  }

  lemma EndsWithIsEndsIn(text: string, tail: string)
    ensures EndsWith(text, tail) <==> EndsIn(text, tail)
  {
    if EndsWith(text, tail) {
      assert text == text[..|text| - |tail|] + tail;
    }
  }

  // What an assistant event adds, given what was accumulated: the rest of a snapshot that goes on from it, else the
  // event's delta, unless a snapshot without news has it as its end.
  ghost predicate Adds(accumulated: string, fullText: string, delta: string, text: string) {
    if accumulated <= fullText && accumulated != fullText then accumulated + text == fullText
    else if accumulated == fullText && EndsIn(accumulated, delta) then text == ""
    else text == delta
  }

  lemma NewTextAdds(accumulated: string, fullText: string, delta: string)
    ensures Adds(accumulated, fullText, delta, NewText(accumulated, fullText, delta))
  {
    EndsWithIsEndsIn(accumulated, delta);
    if delta == "" {
      assert accumulated == accumulated + delta;
    }
    if accumulated <= fullText {
      assert fullText == accumulated + fullText[|accumulated|..];
    }
  }

  /** An assistant event the run hears while the dispatcher does not own the text adds what its snapshot and delta
      bring beyond the accumulated text; the snapshot, if there is one, is then what was accumulated. */
  lemma AssistantTextIsTaken(s: Run, events: seq<Event>) returns (text: string)
    requires IsInitial(s) && events != [] && events[|events| - 1].AssistantEvent? && Heard(s, events)
    ensures var before, after := Exec(s, events[..|events| - 1]), Exec(s, events);
            var fullText, delta := events[|events| - 1].fullText, events[|events| - 1].delta;
            && Adds(before.accumulatedText, fullText, delta, text)
            && (if DispatcherTakesText in events || text == "" then TakesNothing(before, after)
                else Takes(before, after, text, if fullText != "" then fullText else before.accumulatedText + text))
  {
    var before, e := Exec(s, events[..|events| - 1]), events[|events| - 1];
    text := NewText(before.accumulatedText, e.fullText, e.delta);
    NewTextAdds(before.accumulatedText, e.fullText, e.delta);
    ModesFollowTheHistory(s, events[..|events| - 1]);
    assert events == events[..|events| - 1] + [e];
    if before.streamingEnabled && text != "" && !before.queue.closed {
      EmittedGrows(before, TextDelta(before.ids.messageId, before.ids.textPartId, text));
    }
    RunKeepsInv(s, events[..|events| - 1]);
  }

  // ---- Reasoning ----

  /** Reasoning the run hears: a text is added to what came before and sent as a delta, except that a finishing
      event brings its own text only if none came before; finishing then sends all of it once more as done. */
  lemma ReasoningIsTaken(s: Run, events: seq<Event>)
    requires IsInitial(s) && events != [] && events[|events| - 1].ReasoningEvent? && Heard(s, events)
    requires !Exec(s, events[..|events| - 1]).queue.closed
    ensures var before, after := Exec(s, events[..|events| - 1]), Exec(s, events);
            var finishing, text := events[|events| - 1].finishing, events[|events| - 1].text;
            var brings := text != "" && (!finishing || before.accumulatedThinking == "");
            var all := if brings then before.accumulatedThinking + text else before.accumulatedThinking;
            var done := ThinkingDone(s.ids.messageId, s.ids.thinkingPartId, all);
            && after.accumulatedThinking == all
            && (!brings && !finishing ==> after.queue == before.queue)
            && (brings && !finishing ==>
                  GrowsBy(before.queue, after.queue, ThinkingDelta(s.ids.messageId, s.ids.thinkingPartId, text)))
            && (finishing ==> GrowsBy(before.queue, after.queue, done))
            && (brings && finishing ==>
                  && |after.queue.facts| >= 2
                  && after.queue.facts[|after.queue.facts| - 2] ==
                     ThinkingDelta(s.ids.messageId, s.ids.thinkingPartId, text))
  {
    var before, e := Exec(s, events[..|events| - 1]), events[|events| - 1];
    RunKeepsInv(s, events[..|events| - 1]);
    ReasoningStepGrows(before, e.finishing, e.text);
  }

  lemma ReasoningStepGrows(s: Run, finishing: bool, text: string)
    requires !s.queue.closed && !s.Silenced()
    ensures var after := ReasoningStep(s, finishing, text);
            var brings := text != "" && (!finishing || s.accumulatedThinking == "");
            var all := if brings then s.accumulatedThinking + text else s.accumulatedThinking;
            && after.accumulatedThinking == all
            && (!brings && !finishing ==> after.queue == s.queue)
            && (brings && !finishing ==>
                  GrowsBy(s.queue, after.queue, ThinkingDelta(s.ids.messageId, s.ids.thinkingPartId, text)))
            && (finishing ==>
                  GrowsBy(s.queue, after.queue, ThinkingDone(s.ids.messageId, s.ids.thinkingPartId, all)))
            && (brings && finishing ==>
                  && |after.queue.facts| >= 2
                  && after.queue.facts[|after.queue.facts| - 2] ==
                     ThinkingDelta(s.ids.messageId, s.ids.thinkingPartId, text))
  {
    ThinkingQueueGrows(s, finishing, text);
    var queue, after := ThinkingQueue(s, finishing, text), ReasoningStep(s, finishing, text);
    if finishing {
      assert after.queue.facts[..|queue.facts|] == queue.facts;
    }
  }

  lemma ThinkingQueueGrows(s: Run, finishing: bool, text: string)
    requires !s.queue.closed
    ensures var queue := ThinkingQueue(s, finishing, text);
            && !queue.closed && s.queue.facts <= queue.facts
            && (if EmitsThinkingDelta(s, finishing, text) then
                  GrowsBy(s.queue, queue, ThinkingDelta(s.ids.messageId, s.ids.thinkingPartId, text))
                else !finishing ==> queue == s.queue)
  {
    if EmitsThinkingDelta(s, finishing, text) {
      EmittedGrows(s, ThinkingDelta(s.ids.messageId, s.ids.thinkingPartId, text));
    }
  }
}
