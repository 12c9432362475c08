// The run state as the adapter mutates it, over the real queue.
module OpenClawRuntime {
  import opened Prelude
  import opened FactSequence
  import opened OpenClawRun
  import OpenClawEndings
  import OpenClawStream
  import AsyncQueue

  class ActiveRunState {
    const ids: Ids
    const accountStreaming: bool
    const queue: AsyncQueue.AsyncQueueController<Fact, string>
    var result: Option<Outcome>
    var started: bool
    var completed: bool
    var abortRequested: bool
    var accumulatedText: string
    var accumulatedThinking: string
    var textDeltaCount: nat
    var pendingFinalText: Option<string>
    var pendingToolResultTarget: Option<string>
    var streamingEnabled: bool
    var replyDispatcherOwnsAssistantText: bool
    var titleEmitted: bool
    var toolStates: map<string, ToolState>
    ghost var background: Background

    ghost predicate Valid()
      reads this, queue
    {
      queue.Valid() && !queue.fifo.ending.Failed?
    }

    ghost function View(): Run
      reads this, queue
    {
      Run(ids, accountStreaming, started, completed, abortRequested,
          accumulatedText, accumulatedThinking, textDeltaCount, pendingFinalText, pendingToolResultTarget,
          streamingEnabled, replyDispatcherOwnsAssistantText, titleEmitted, toolStates,
          Queue(queue.fifo.accepted, !queue.fifo.ending.Open?), result, background)
    }

    constructor (ids: Ids, streaming: bool)
      ensures Valid() && fresh(queue) && queue.fifo.asked == 0
      ensures View() == InitialRun(ids, streaming)
    {
      this.ids := ids;
      accountStreaming, streamingEnabled := streaming, streaming;
      queue := new AsyncQueue.AsyncQueueController<Fact, string>();
      result, started, completed, abortRequested := None, false, false, false;
      accumulatedText, accumulatedThinking, textDeltaCount := "", "", 0;
      pendingFinalText, pendingToolResultTarget := None, None;
      replyDispatcherOwnsAssistantText, titleEmitted, toolStates := false, false, map[];
      background := Running;
    }

    method Push(fact: Fact)
      requires Valid()
      modifies queue
      ensures Valid() && View() == old(View()).(queue := old(View()).queue.Push(fact))
      ensures queue.fifo.asked == old(queue.fifo.asked)
    {
      queue.Push(fact);
    }

    method CloseQueue()
      requires Valid()
      modifies queue
      ensures Valid() && View() == old(View()).(queue := old(View()).queue.Close())
      ensures queue.fifo.asked == old(queue.fifo.asked)
    {
      queue.Close();
    }

    method Resolve(outcome: Outcome)
      modifies this`result
      ensures result == if old(result).Some? then old(result) else Some(outcome)
    {
      if result.None? {
        result := Some(outcome);
      }
    }

    method EnsureMessageStarted()
      requires Valid()
      modifies this`started, this`titleEmitted, queue
      ensures Valid()
      ensures View() == old(View()).(started := true, titleEmitted := old(View()).TitleAfterStart(),
                                     queue := old(View()).StartedQueue())
      ensures queue.fifo.asked == old(queue.fifo.asked)
    {
      if started {
        return;
      }
      started := true;
      if !titleEmitted {
        titleEmitted := true;
        Push(SessionTitle);
      }
      Push(MessageStart(ids.messageId));
    }

    method HandleReplyTool(text: string)
      requires Valid()
      modifies this, queue
      ensures Valid() && View() == DeliverToolStep(old(View()), text)
      ensures queue.fifo.asked == old(queue.fifo.asked)
    {
      if abortRequested || completed || pendingToolResultTarget.None? {
        return;
      }
      var toolCallId := pendingToolResultTarget.value;
      if toolCallId !in toolStates || text == "" {
        return;
      }
      toolStates := toolStates[toolCallId := toolStates[toolCallId].(output := Some(text))];
      EnsureMessageStarted();
      Push(ToolUpdate(ids.messageId, toolCallId, NoPayload, Text(text)));
    }

    method HandleReplyText(isFinal: bool, text: string)
      requires Valid()
      modifies this, queue
      ensures Valid()
      ensures View() == if isFinal then DeliverFinalStep(old(View()), text) else DeliverBlockStep(old(View()), text)
      ensures queue.fifo.asked == old(queue.fifo.asked)
    {
      if abortRequested || completed || text == "" {
        return;
      }
      if isFinal {
        pendingFinalText := Some(text);
        return;
      }
      if !streamingEnabled {
        accumulatedText := accumulatedText + text;
        return;
      }
      EnsureMessageStarted();
      accumulatedText := accumulatedText + text;
      textDeltaCount := textDeltaCount + 1;
      Push(TextDelta(ids.messageId, ids.textPartId, text));
    }

    // Later events of one tool call are merged into its state.
    method MergeToolState(toolCallId: string, isResult: bool, isError: bool,
                          input: Option<string>, output: Option<string>) returns (tool: ToolState)
      modifies this`toolStates, this`pendingToolResultTarget
      ensures tool == ToolAfter(if toolCallId in old(toolStates) then old(toolStates)[toolCallId]
          else ToolState(None, None),
                                isResult, isError, input, output)
      ensures toolStates == old(toolStates)[toolCallId := tool]
      ensures pendingToolResultTarget == if isResult then Some(toolCallId) else old(pendingToolResultTarget)
    {
      tool := if toolCallId in toolStates then toolStates[toolCallId] else ToolState(None, None);
      if input.Some? {
        tool := tool.(input := input);
      }
      if isResult {
        if !isError && output.Some? {
          tool := tool.(output := output);
        }
        pendingToolResultTarget := Some(toolCallId);
      }
      toolStates := toolStates[toolCallId := tool];
    }

    method HandleToolAgentEvent(toolCallId: string, isResult: bool, isError: bool,
                                input: Option<string>, output: Option<string>)
      requires Valid()
      modifies this, queue
      ensures Valid() && View() == ToolStep(old(View()), ToolEvent(toolCallId, isResult, isError, input, output))
      ensures queue.fifo.asked == old(queue.fifo.asked)
    {
      if abortRequested || completed {
        return;
      }
      EnsureMessageStarted();
      var tool := MergeToolState(toolCallId, isResult, isError, input, output);
      Push(ToolUpdate(ids.messageId, toolCallId, OptionalText(tool.input), OptionalText(tool.output)));
    }

    // What a snapshot or delta brings that is not accumulated yet.
    method UnseenText(fullText: string, delta: string) returns (text: string)
      ensures text == NewText(accumulatedText, fullText, delta)
    {
      text := delta;
      if StartsWith(fullText, accumulatedText) {
        var suffix := fullText[|accumulatedText|..];
        if |suffix| > 0 {
          text := suffix;
        } else if |text| == 0 || EndsWith(accumulatedText, text) {
          text := "";
        }
      }
    }

    method HandleAssistantAgentEvent(fullText: string, delta: string)
      requires Valid()
      modifies this, queue
      ensures Valid() && View() == AssistantStep(old(View()), fullText, delta)
      ensures queue.fifo.asked == old(queue.fifo.asked)
    {
      if completed || replyDispatcherOwnsAssistantText || abortRequested {
        return;
      }
      var deltaText := UnseenText(fullText, delta);
      if |deltaText| == 0 {
        return;
      }
      accumulatedText := if fullText != "" then fullText else accumulatedText + deltaText;
      if !streamingEnabled {
        return;
      }
      EnsureMessageStarted();
      textDeltaCount := textDeltaCount + 1;
      Push(TextDelta(ids.messageId, ids.textPartId, deltaText));
    }

    method HandleReasoningAgentEvent(finishing: bool, text: string)
      requires Valid()
      modifies this, queue
      ensures Valid() && View() == ReasoningStep(old(View()), finishing, text)
      ensures queue.fifo.asked == old(queue.fifo.asked)
    {
      if abortRequested || completed {
        return;
      }
      if |text| > 0 && (!finishing || |accumulatedThinking| == 0) {
        accumulatedThinking := accumulatedThinking + text;
        PushStarted(ThinkingDelta(ids.messageId, ids.thinkingPartId, text));
      }
      if finishing {
        PushStarted(ThinkingDone(ids.messageId, ids.thinkingPartId, accumulatedThinking));
      }
    }

    method PushStarted(fact: Fact)
      requires Valid()
      modifies this`started, this`titleEmitted, queue
      ensures Valid()
      ensures View() == old(View()).(started := true, titleEmitted := old(View()).TitleAfterStart(),
                                     queue := old(View()).Emitted(fact))
      ensures queue.fifo.asked == old(queue.fifo.asked)
    {
      EnsureMessageStarted();
      Push(fact);
    }

    // text.done, message.done and the close, shared by both completions.
    method FinishMessage(text: string)
      requires Valid()
      modifies this`started, this`titleEmitted, this`accumulatedText, queue
      ensures Valid()
      ensures View() == old(View()).(accumulatedText := text, started := true,
                                     titleEmitted := old(View()).TitleAfterStart(),
                                     queue := FinishedQueue(old(View()), text))
      ensures queue.fifo.asked == old(queue.fifo.asked)
    {
      EnsureMessageStarted();
      accumulatedText := text;
      Push(TextDone(ids.messageId, ids.textPartId, text));
      Push(MessageDone(ids.messageId));
      CloseQueue();
    }

    method CompleteReply(observerThrows: bool)
      requires Valid()
      modifies this, queue
      ensures Valid()
      ensures View() == CompletionStep(old(View()), CompletionText(old(View()), ReplyCompletes(observerThrows)),
                                       observerThrows)
      ensures queue.fifo.asked == old(queue.fifo.asked)
    {
      FinishMessage(ReconciledText(accumulatedText, pendingFinalText));
      if observerThrows {
        background := Failing;
        return;
      }
      Resolve(if abortRequested then Aborted else Completed);
      completed := true;
      background := Finished;
    }

    method CompleteSubagent(finalText: string)
      requires Valid()
      modifies this, queue
      ensures Valid() && View() == CompletionStep(old(View()), finalText, false)
      ensures queue.fifo.asked == old(queue.fifo.asked)
    {
      FinishMessage(finalText);
      Resolve(if abortRequested then Aborted else Completed);
      completed := true;
      background := Finished;
    }

    method FailQueue()
      requires Valid()
      modifies queue
      ensures Valid() && View() == old(View()).(queue := old(View()).queue.Push(SessionError).Close())
      ensures queue.fifo.asked == old(queue.fifo.asked)
    {
      Push(SessionError);
      CloseQueue();
    }

    // The catch of runInBackground.
    method FailInBackground()
      requires Valid()
      modifies this, queue
      ensures Valid() && View() == BackgroundFailsStep(old(View()))
      ensures queue.fifo.asked == old(queue.fifo.asked)
    {
      FailQueue();
      Resolve(if abortRequested then Aborted else Failed);
      completed := true;
      background := Finished;
    }

    method AbortActiveRun()
      requires Valid()
      modifies this, queue
      ensures Valid() && View() == AbortStep(old(View()))
      ensures queue.fifo.asked == old(queue.fifo.asked)
    {
      if completed {
        return;
      }
      abortRequested := true;
      CloseQueue();
      Resolve(Aborted);
      completed := true;
    }

    // The start of the reply path: the effective streaming mode, then who owns assistant text.
    method ResolveStreaming(enabled: bool)
      requires Valid()
      modifies this`streamingEnabled
      ensures Valid() && View() == Step(old(View()), StreamingResolved(enabled))
    {
      streamingEnabled := accountStreaming && enabled;
    }

    method TakeAssistantText()
      requires Valid()
      modifies this`replyDispatcherOwnsAssistantText
      ensures Valid() && View() == Step(old(View()), DispatcherTakesText)
    {
      replyDispatcherOwnsAssistantText := true;
    }

    // What closing the session does to its run.
    method CloseSession()
      requires Valid()
      modifies this`abortRequested
      ensures Valid() && View() == Step(old(View()), Event.CloseSession)
    {
      abortRequested := true;
    }

    // What the host's dispatcher and agent deliver.
    method HandleCallback(e: Event)
      requires Valid()
      requires IsContentEvent(e) || e.DeliverFinal? || e.ReasoningEvent?
      modifies this, queue
      ensures Valid() && View() == Step(old(View()), e)
      ensures queue.fifo.asked == old(queue.fifo.asked)
    {
      match e
      case DeliverTool(text) => HandleReplyTool(text);
      case DeliverBlock(text) => HandleReplyText(false, text);
      case DeliverFinal(text) => HandleReplyText(true, text);
      case ToolEvent(id, isResult, isError, input, output) =>
        HandleToolAgentEvent(id, isResult, isError, input, output);
      case AssistantEvent(fullText, delta) => HandleAssistantAgentEvent(fullText, delta);
      case ReasoningEvent(finishing, text) => HandleReasoningAgentEvent(finishing, text);
    }

    method Handle(e: Event)
      requires Valid()
      modifies this, queue
      ensures Valid() && View() == Step(old(View()), e)
      ensures queue.fifo.asked == old(queue.fifo.asked)
    {
      match e
      case StreamingResolved(enabled) => ResolveStreaming(enabled);
      case DispatcherTakesText => TakeAssistantText();
      case ReplyCompletes(throws) => CompleteReply(throws);
      case SubagentCompletes(finalText) => CompleteSubagent(finalText);
      case BackgroundFails => FailInBackground();
      case Abort => AbortActiveRun();
      case CloseSession => CloseSession();
      case _ => HandleCallback(e);
    }

    // The reader of the fact stream asks for one more.
    method Read()
      requires Valid()
      modifies queue
      ensures Valid() && View() == old(View())
      ensures queue.fifo.asked == old(queue.fifo.asked) + 1
    {
      var _ := queue.Next();
    }
  }

  // What can happen to a run and its stream: a host event, or a read.
  datatype Input = Host(event: Event) | Read

  function HostEvents(inputs: seq<Input>): seq<Event> {
    if inputs == [] then []
    else
      HostEvents(inputs[..|inputs| - 1]) +
      (if inputs[|inputs| - 1].Host? then [inputs[|inputs| - 1].event] else [])
  }

  function ReadsIn(inputs: seq<Input>): nat {
    if inputs == [] then 0 else ReadsIn(inputs[..|inputs| - 1]) + (if inputs[|inputs| - 1].Read? then 1 else 0)
  }

  lemma OneMoreInput(s: Run, inputs: seq<Input>, k: nat)
    requires k < |inputs|
    ensures Exec(s, HostEvents(inputs[..k + 1])) ==
            if inputs[k].Host? then Step(Exec(s, HostEvents(inputs[..k])), inputs[k].event)
            else Exec(s, HostEvents(inputs[..k]))
    ensures ReadsIn(inputs[..k + 1]) == ReadsIn(inputs[..k]) + (if inputs[k].Read? then 1 else 0)
  {
    assert inputs[..k + 1][..k] == inputs[..k];
    var events := HostEvents(inputs[..k]);
    assert events + [] == events;
    if inputs[k].Host? {
      assert (events + [inputs[k].event])[..|events|] == events;
    }
  }

  /** The run object over its real queue, driven through any interleaving of host events and reads: its facts
      are ordered, its result is that of the first ending and not there before the queue is closed, and the
      i-th read gets the i-th fact, or the end once the stream is closed, or waits. */
  method Drive(ids: Ids, streaming: bool, inputs: seq<Input>) returns (run: ActiveRunState)
    ensures fresh(run) && run.Valid() && run.View() == Exec(InitialRun(ids, streaming), HostEvents(inputs))
    ensures Ordered(run.View().queue.facts, RequestRun)
    ensures run.result.Some? ==> run.View().queue.closed
    ensures run.result == OpenClawEndings.ResultOf(HostEvents(inputs))
    ensures |run.queue.answers| == ReadsIn(inputs)
    ensures forall i :: 0 <= i < |run.queue.answers| ==>
              run.queue.answers[i] ==
              if i < |run.View().queue.facts| then Some(AsyncQueue.Value(run.View().queue.facts[i]))
              else if run.View().queue.closed then Some(AsyncQueue.Done) else None
  {
    run := new ActiveRunState(ids, streaming);
    ghost var start := InitialRun(ids, streaming);
    var k := 0;
    while k < |inputs|
      invariant 0 <= k <= |inputs| && fresh(run) && fresh(run.queue) && run.Valid()
      invariant run.View() == Exec(start, HostEvents(inputs[..k]))
      invariant run.queue.fifo.asked == ReadsIn(inputs[..k])
    {
      OneMoreInput(start, inputs, k);
      match inputs[k] {
        case Host(e) => run.Handle(e);
        case Read => run.Read();
      }
      k := k + 1;
    }
    assert inputs[..k] == inputs;
    OpenClawStream.FactsAreOrdered(start, HostEvents(inputs), RequestRun);
    OpenClawStream.ResolvedOnlyAfterClose(start, HostEvents(inputs), Abort);
    OpenClawEndings.TheFirstEndingDecides(start, HostEvents(inputs));
  }
}
