// An OpenClaw run read by the runtime: what its facts become on the gateway.
module OpenClawEndToEnd {
  import opened Prelude
  import opened FactSequence
  import opened OpenClawRun
  import opened OpenClawStream
  import PermissionPresentation
  import P = RunPipeline

  // The facts of a run, each pulled with the shared registries in some state.
  ghost predicate Carry(deliveries: seq<P.Delivery>, facts: seq<Fact>) {
    |deliveries| == |facts| && forall i :: 0 <= i < |facts| ==> deliveries[i].fact == facts[i]
  }

  function Events(facts: seq<Fact>): seq<P.Uplink> {
    if facts == [] then []
    else Events(facts[..|facts| - 1]) + [P.ToolEvent(PermissionPresentation.Plain(facts[|facts| - 1]))]
  }

  predicate AsksNothing(fact: Fact) {
    !fact.QuestionAsk? && !fact.PermissionAsk? && !fact.PermissionReply?
  }

  ghost predicate AllAskNothing(facts: seq<Fact>) {
    forall i :: 0 <= i < |facts| ==> AsksNothing(facts[i])
  }

  lemma {:induction false} AllFactsAreKept(session: string, deliveries: seq<P.Delivery>, facts: seq<Fact>)
    requires Carry(deliveries, facts) && AllAskNothing(facts)
    ensures P.KeptFacts(session, deliveries) == facts
    ensures P.KeptEvents(session, deliveries) == Events(facts)
    decreases |facts|
  {
    if facts != [] {
      var n := |facts| - 1;
      AllFactsAreKept(session, deliveries[..n], facts[..n]);
      assert facts == facts[..n] + [facts[n]];
      assert deliveries[n].fact == facts[n];
    }
  }

  lemma StreamAsksNothing(facts: seq<Fact>, ids: Ids, i: nat)
    requires Stream(facts, ids) && i < |facts|
    ensures AsksNothing(facts[i])
  {
    StreamPositions(facts, ids, i);
  }

  function TerminalOf(outcome: Outcome, failure: P.ProviderFailure): P.Terminal {
    match outcome
    case Completed => P.Finished
    case Aborted => P.Aborted
    case Failed => P.Failed(Some(failure))
  }

  lemma NothingConflicts(session: string, deliveries: seq<P.Delivery>, facts: seq<Fact>)
    requires Carry(deliveries, facts) && AllAskNothing(facts)
    ensures !P.SomeAskConflicts(session, deliveries)
  {
    forall i | 0 <= i < |deliveries| ensures !P.Conflicts(session, deliveries[i]) {
      assert deliveries[i].fact == facts[i] && AsksNothing(facts[i]);
    }
  }

  lemma StreamIsKeptWhole(session: string, deliveries: seq<P.Delivery>, facts: seq<Fact>, ids: Ids)
    requires Stream(facts, ids) && Carry(deliveries, facts)
    ensures P.KeptFacts(session, deliveries) == facts
    ensures P.KeptEvents(session, deliveries) == Events(facts)
    ensures !P.SomeAskConflicts(session, deliveries)
  {
    assert AllAskNothing(facts) by {
      forall i | 0 <= i < |facts| ensures AsksNothing(facts[i]) {
        StreamAsksNothing(facts, ids, i);
      }
    }
    AllFactsAreKept(session, deliveries, facts);
    NothingConflicts(session, deliveries, facts);
  }

  lemma RunIsKeptWhole(s: Run, events: seq<Event>, session: string, deliveries: seq<P.Delivery>)
    requires IsInitial(s) && Carry(deliveries, Exec(s, events).queue.facts)
    ensures P.KeptFacts(session, deliveries) == Exec(s, events).queue.facts
    ensures P.KeptEvents(session, deliveries) == Events(Exec(s, events).queue.facts)
    ensures !P.SomeAskConflicts(session, deliveries)
    ensures Accepts(Exec(s, events).queue.facts, RequestRun) <==> !InputReached(s, events)
  {
    RunKeepsInv(s, events);
    StreamIsKeptWhole(session, deliveries, Exec(s, events).queue.facts, s.ids);
    AcceptedUnlessToolInput(s, events);
  }

  /** Whatever order the host's callbacks came in, a settled OpenClaw run to which no live tool input was
      delivered reaches the gateway whole: one event per fact in order, then one terminal, which is
      tool_error exactly when the run failed. */
  lemma {:induction false} RunReachesTheGateway(s: Run, events: seq<Event>, chat: P.Chat, failure: P.ProviderFailure)
    requires IsInitial(s) && Exec(s, events).result.Some? && !InputReached(s, events)
    requires !chat.rejected && chat.startError.None? && chat.ending.None?
    requires Carry(chat.deliveries, Exec(s, events).queue.facts)
    requires chat.settlement == P.Resolved(TerminalOf(Exec(s, events).result.value, failure))
    ensures P.Uplinks(chat) ==
            Events(Exec(s, events).queue.facts) + [P.TerminalUplink(chat.settlement.result)]
    ensures P.EventsThenTerminal(P.Uplinks(chat))
    ensures P.TerminalUplink(chat.settlement.result).ToolError? <==> Exec(s, events).result == Some(Failed)
  {
    RunIsKeptWhole(s, events, chat.session, chat.deliveries);
    WholeRunGoesOut(chat, Exec(s, events).queue.facts);
    OutcomeDecidesTerminal(Exec(s, events).result.value, failure);
  }

  lemma WholeRunGoesOut(chat: P.Chat, facts: seq<Fact>)
    requires !chat.rejected && chat.startError.None? && chat.ending.None? && chat.settlement.Resolved?
    requires P.KeptFacts(chat.session, chat.deliveries) == facts &&
        P.KeptEvents(chat.session, chat.deliveries) == Events(facts)
    requires Accepts(facts, RequestRun) && !P.SomeAskConflicts(chat.session, chat.deliveries)
    ensures P.Uplinks(chat) == Events(facts) + [P.TerminalUplink(chat.settlement.result)]
    ensures P.EventsThenTerminal(P.Uplinks(chat))
  {
    P.GoodChatDeliversEverything(chat);
    P.GoodChatEndsOnce(chat);
  }

  lemma OutcomeDecidesTerminal(outcome: Outcome, failure: P.ProviderFailure)
    ensures P.TerminalUplink(TerminalOf(outcome, failure)).ToolError? <==> outcome.Failed?
  {
  }

  /** With a live tool input the run is cut before the offending fact and ends in the fixed failure text. */
  lemma {:induction false} ToolInputCutsTheRun(s: Run, events: seq<Event>, chat: P.Chat)
    requires IsInitial(s) && InputReached(s, events)
    requires !chat.rejected && chat.startError.None?
    requires Carry(chat.deliveries, Exec(s, events).queue.facts)
    ensures P.EventsThenTerminal(P.Uplinks(chat))
    ensures |P.Uplinks(chat)| <= |Exec(s, events).queue.facts|
    ensures P.Uplinks(chat)[|P.Uplinks(chat)| - 1] == P.ToolError(P.RunFailedText, false)
  {
    RunIsKeptWhole(s, events, chat.session, chat.deliveries);
    P.RejectedStreamIsCut(chat);
    EventsAreFew(chat.session, chat.deliveries[..P.Consumed(chat.session, RequestRun, chat.deliveries).taken]);
  }

  lemma {:induction false} EventsAreFew(session: string, deliveries: seq<P.Delivery>)
    ensures |P.KeptEvents(session, deliveries)| <= |deliveries|
  {
    if deliveries != [] {
      EventsAreFew(session, deliveries[..|deliveries| - 1]);
    }
  }
}
