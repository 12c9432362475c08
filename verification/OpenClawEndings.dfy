// How an OpenClaw run ends: its result, and what may still end it, against the history of the run.
module OpenClawEndings {
  import opened Prelude
  import opened OpenClawRun

  // The first event that ends the run decides its result; a session closed before turns an ending into an abort.
  function ResultOf(events: seq<Event>): Option<Outcome> {
    if events == [] then None
    else
      var front := events[..|events| - 1];
      if ResultOf(front).Some? then ResultOf(front)
      else
        match events[|events| - 1]
        case Abort => Some(Aborted)
        case ReplyCompletes(observerThrows) =>
          if observerThrows then None else Some(if CloseSession in front then Aborted else Completed)
        case SubagentCompletes(_) => Some(if CloseSession in front then Aborted else Completed)
        case BackgroundFails => Some(if CloseSession in front then Aborted else Failed)
        case _ => None
  }

  // An abort that came before any result.
  function AbortTook(events: seq<Event>): bool {
    if events == [] then false
    else
      AbortTook(events[..|events| - 1])
      || (events[|events| - 1].Abort? && ResultOf(events[..|events| - 1]).None?)
  }

  predicate EndingOk(s: Run, events: seq<Event>) {
    var now := Exec(s, events);
    && now.result == ResultOf(events)
    && (now.completed <==> now.result.Some?)
    && (now.abortRequested <==> CloseSession in events || AbortTook(events))
  }

  lemma CallbacksEndNothing(s: Run, e: Event)
    requires IsContentEvent(e) || e.ReasoningEvent? || e.DeliverFinal? || e.StreamingResolved? || e.DispatcherTakesText?
    ensures SameEnding(s, Step(s, e))
  {
    match e
    case DeliverTool(_) =>
    case DeliverBlock(_) =>
    case DeliverFinal(_) =>
    case ToolEvent(_, _, _, _, _) =>
    case AssistantEvent(_, _) =>
    case ReasoningEvent(_, _) =>
    case StreamingResolved(_) =>
    case DispatcherTakesText =>
  }

  predicate SameEnding(s: Run, t: Run) {
    && t.result == s.result && t.completed == s.completed && t.abortRequested == s.abortRequested
    && t.background == s.background && (t.queue.closed <==> s.queue.closed)
  }

  /** What each ending does: the first result stands, an aborted or closed run ends aborted, and every ending
      closes the stream. A completion whose observer throws resolves nothing yet and leaves the background to fail. */
  lemma EndingsResolve(s: Run, e: Event)
    requires s.completed <==> s.result.Some?
    requires Completes(e) || e.BackgroundFails? || e.Abort? || e.CloseSession?
    ensures var t := Step(s, e);
            && (s.result.Some? ==> t.result == s.result && t.completed)
            && (s.result.None? ==>
                  match e
                  case Abort => t.result == Some(Aborted) && t.completed && t.abortRequested && t.queue.closed
                  case CloseSession => t.result.None? && !t.completed && t.abortRequested && t.queue == s.queue
                  case BackgroundFails =>
                    t.result == Some(if s.abortRequested then Aborted else Failed) && t.completed && t.queue.closed
                  case SubagentCompletes(text) =>
                    && t.result == Some(if s.abortRequested then Aborted else Completed) && t.completed
                    && t.queue.closed && t.accumulatedText == text
                  case ReplyCompletes(observerThrows) =>
                    && t.queue.closed
                    && (if observerThrows then t.result.None? && !t.completed && t.background.Failing?
                        else
                          && t.result == Some(if s.abortRequested then Aborted else Completed) && t.completed)
                  case _ => false)
            && (!e.Abort? && !e.CloseSession? ==> t.abortRequested == s.abortRequested)
  {
    match e
    case ReplyCompletes(_) =>
    case SubagentCompletes(_) =>
    case BackgroundFails =>
    case Abort =>
    case CloseSession =>
  }

  lemma LastIsIn(events: seq<Event>)
    requires events != []
    ensures CloseSession in events <==> CloseSession in events[..|events| - 1] || events[|events| - 1].CloseSession?
  {
    assert events == events[..|events| - 1] + [events[|events| - 1]];
  }

  // A run without a result has not been aborted.
  lemma {:induction false} AbortGivesAResult(events: seq<Event>)
    ensures AbortTook(events) ==> ResultOf(events).Some?
  {
    if events != [] {
      AbortGivesAResult(events[..|events| - 1]);
    }
  }

  lemma StepEnds(s: Run, events: seq<Event>)
    requires events != [] && EndingOk(s, events[..|events| - 1])
    ensures EndingOk(s, events)
  {
    var front, e := events[..|events| - 1], events[|events| - 1];
    LastIsIn(events);
    AbortGivesAResult(front);
    if Completes(e) || e.BackgroundFails? || e.Abort? || e.CloseSession? {
      EndingsResolve(Exec(s, front), e);
      AbortedRunStays(Exec(s, front), e);
    } else {
      CallbacksEndNothing(Exec(s, front), e);
    }
  }

  lemma AbortedRunStays(s: Run, e: Event)
    ensures e.Abort? && s.completed ==> Step(s, e) == s
  {
  }

  /** On every run, whatever the order of the host's callbacks: the result is that of the first ending, aborted if
      the session was closed before it; the run is completed exactly when it has one; and it is told to stop exactly
      by a closed session or by an abort that came before any result. */
  lemma {:induction false} TheFirstEndingDecides(s: Run, events: seq<Event>)
    requires IsInitial(s)
    ensures EndingOk(s, events)
    decreases |events|
  {
    if events != [] {
      TheFirstEndingDecides(s, events[..|events| - 1]);
      StepEnds(s, events);
    }
  }

  predicate EndsBackground(e: Event) {
    Completes(e) || e.BackgroundFails?
  }

  // What the background coroutine has done so far.
  function BackgroundOf(events: seq<Event>): Background {
    if events == [] then Running
    else
      match events[|events| - 1]
      case ReplyCompletes(observerThrows) => if observerThrows then Failing else Finished
      case SubagentCompletes(_) => Finished
      case BackgroundFails => Finished
      case _ => BackgroundOf(events[..|events| - 1])
  }

  /** The background coroutine ends once: it completes, or fails, or fails because the observer of its completion
      threw; once it has ended nothing ends it again. */
  lemma {:induction false} BackgroundEndsOnce(s: Run, events: seq<Event>, e: Event)
    requires IsInitial(s)
    ensures Exec(s, events).background == BackgroundOf(events)
    ensures EndsBackground(e) ==>
              (Possible(Exec(s, events), e) <==>
               BackgroundOf(events).Running? || (BackgroundOf(events).Failing? && e.BackgroundFails?))
    decreases |events|
  {
    if events != [] {
      BackgroundEndsOnce(s, events[..|events| - 1], e);
      StepMovesBackground(Exec(s, events[..|events| - 1]), events[|events| - 1]);
    }
  }

  lemma StepMovesBackground(s: Run, e: Event)
    ensures Step(s, e).background ==
            match e
            case ReplyCompletes(observerThrows) => if observerThrows then Failing else Finished
            case SubagentCompletes(_) => Finished
            case BackgroundFails => Finished
            case _ => s.background
  {
    if !Completes(e) && !e.BackgroundFails? && !e.Abort? && !e.CloseSession? {
      CallbacksEndNothing(s, e);
    }
  }
}
