// From a provider's facts to uplinks: the fact loop, the run terminal, and the reports of failed commands
// (bridge-runtime-sdk/src/application/coordinators/RequestRunCoordinator.ts, OutboundCoordinator.ts,
// runtime-assembly/downstream.ts, projectors/CommandFailureToolErrorProjector.ts,
// projectors/DefaultRunTerminalSignalProjector.ts).
module RunPipeline {
  import opened Prelude
  import opened FactSequence
  import PendingInteractions
  import PermissionPresentation
  import SessionRuns

  datatype ContractCode =
    | SessionNotFound
    | SessionClosed
    | RunAlreadyActive
    | OutboundAlreadyActive
    | PendingInteractionConflict
    | PendingInteractionNotFound
    | FactSequenceInvalid

  // A RuntimeContractError, or anything else that was thrown, by its message.
  datatype Error = Contract(code: ContractCode) | Foreign(message: string)

  // The catalog's fixed texts, or a message passed on.
  datatype ErrorText =
    | RunAlreadyActiveText
    | InteractionNotFoundText
    | RunFailedText
    | DefaultFailureText
    | ContractText(code: ContractCode)
    | Message(text: string)

  datatype Uplink =
    | ToolEvent(shown: PermissionPresentation.Enriched)
    | ToolDone
    | ToolError(text: ErrorText, sessionNotFound: bool)

  predicate IsTerminal(uplink: Uplink) {
    uplink.ToolDone? || uplink.ToolError?
  }

  // A fact, with the shared registries as they stand when it is pulled: other runs use them in between.
  datatype Delivery = Delivery(
    fact: Fact,
    contexts: PermissionPresentation.Records,
    interactions: PendingInteractions.Records)

  // ---- The fact loop ----

  function Shown(session: string, d: Delivery): Option<PermissionPresentation.Enriched> {
    PermissionPresentation.Enrich(d.contexts, session, d.fact)
  }

  predicate Conflicts(session: string, d: Delivery) {
    var wanted := PendingInteractions.InteractionOf(session, d.fact);
    wanted.Some? && PendingInteractions.RegisterResult(d.interactions, wanted.value).ConflictCrossSession?
  }

  // `taken` counts the deliveries handled before a failure.
  datatype Progress = Progress(sent: seq<Uplink>, taken: nat, validation: Validation, failure: Option<Error>)

  function Deliver(session: string, profile: Profile, p: Progress, d: Delivery): Progress {
    var shown := Shown(session, d);
    var advanced := Advance(p.validation, d.fact, profile);
    if shown.None? then p.(taken := p.taken + 1)
    else if advanced.None? then p.(failure := Some(Contract(FactSequenceInvalid)))
    else if Conflicts(session, d) then
      p.(validation := advanced.value, failure := Some(Contract(PendingInteractionConflict)))
    else p.(validation := advanced.value, sent := p.sent + [ToolEvent(shown.value)], taken := p.taken + 1)
  }

  function Consumed(session: string, profile: Profile, deliveries: seq<Delivery>): Progress {
    if deliveries == [] then Progress([], 0, FRESH_VALIDATION, None)
    else
      var p := Consumed(session, profile, deliveries[..|deliveries| - 1]);
      if p.failure.Some? then p else Deliver(session, profile, p, deliveries[|deliveries| - 1])
  }

  // The loop's own failure comes before that of the stream.
  function StreamFailure(p: Progress, ending: Option<Error>): Option<Error> {
    if p.failure.Some? then p.failure else ending
  }

  // What the enricher lets through.
  function KeptFacts(session: string, deliveries: seq<Delivery>): seq<Fact> {
    if deliveries == [] then []
    else
      var d := deliveries[|deliveries| - 1];
      KeptFacts(session, deliveries[..|deliveries| - 1]) + (if Shown(session, d).None? then [] else [d.fact])
  }

  function KeptEvents(session: string, deliveries: seq<Delivery>): seq<Uplink> {
    if deliveries == [] then []
    else
      var shown := Shown(session, deliveries[|deliveries| - 1]);
      KeptEvents(session, deliveries[..|deliveries| - 1]) + (if shown.None? then [] else [ToolEvent(shown.value)])
  }

  ghost predicate SomeAskConflicts(session: string, deliveries: seq<Delivery>) {
    exists i :: 0 <= i < |deliveries| && Shown(session, deliveries[i]).Some? && Conflicts(session, deliveries[i])
  }

  lemma SomeAskConflictsAppend(session: string, deliveries: seq<Delivery>)
    requires deliveries != []
    ensures var front, d := deliveries[..|deliveries| - 1], deliveries[|deliveries| - 1];
            SomeAskConflicts(session, deliveries) <==>
            SomeAskConflicts(session, front) || (Shown(session, d).Some? && Conflicts(session, d))
  {
    var front := deliveries[..|deliveries| - 1];
    assert forall i :: 0 <= i < |front| ==> front[i] == deliveries[i];
    if SomeAskConflicts(session, deliveries) && !SomeAskConflicts(session, front) {
      var i :| 0 <= i < |deliveries| && Shown(session, deliveries[i]).Some? && Conflicts(session, deliveries[i]);
      assert i == |front|;
    }
  }

  /** The loop ends well exactly when the facts the enricher let through are accepted by the validator and
      no ask conflicts; one event per such fact has then been sent, in order. */
  lemma {:induction false} LoopEndsWell(session: string, profile: Profile, deliveries: seq<Delivery>)
    ensures var p := Consumed(session, profile, deliveries);
            && (p.failure.None? <==>
                Accepts(KeptFacts(session, deliveries), profile) && !SomeAskConflicts(session, deliveries))
            && (p.failure.None? ==>
                  && p.sent == KeptEvents(session, deliveries) && p.taken == |deliveries|
                  && AdvanceAll(FRESH_VALIDATION, KeptFacts(session, deliveries), profile) == Some(p.validation))
    decreases |deliveries|
  {
    if deliveries != [] {
      var front, d := deliveries[..|deliveries| - 1], deliveries[|deliveries| - 1];
      LoopEndsWell(session, profile, front);
      SomeAskConflictsAppend(session, deliveries);
      var kept := KeptFacts(session, front);
      if Shown(session, d).None? {
        assert KeptFacts(session, deliveries) == kept;
        assert KeptEvents(session, deliveries) == KeptEvents(session, front);
      } else {
        assert KeptFacts(session, deliveries)[..|kept|] == kept;
      }
    }
  }

  /** Failing or not, what was sent is exactly the events of the facts handled before the offence;
      and the loop fails with one of its two contract errors only. */
  lemma {:induction false} SentBeforeTheOffence(session: string, profile: Profile, deliveries: seq<Delivery>)
    ensures var p := Consumed(session, profile, deliveries);
            && p.taken <= |deliveries| && p.sent == KeptEvents(session, deliveries[..p.taken])
            && (p.failure.Some? ==>
                  && p.taken < |deliveries|
                  && IsLifecycleFailure(p.failure.value))
            && (p.failure.None? ==> p.taken == |deliveries|)
    decreases |deliveries|
  {
    if deliveries != [] {
      var n := |deliveries| - 1;
      SentBeforeTheOffence(session, profile, deliveries[..n]);
      var p := Consumed(session, profile, deliveries[..n]);
      if p.failure.Some? {
        assert deliveries[..n][..p.taken] == deliveries[..p.taken];
      } else {
        assert deliveries[..n][..n] == deliveries[..n] && deliveries[..n + 1] == deliveries;
        OneMoreSent(session, profile, deliveries, p);
      }
    }
  }

  lemma OneMoreSent(session: string, profile: Profile, deliveries: seq<Delivery>, p: Progress)
    requires deliveries != [] && p.sent == KeptEvents(session, deliveries[..|deliveries| - 1]) && p.failure.None?
    ensures var d := deliveries[|deliveries| - 1];
            var q := Deliver(session, profile, p, d);
            && (q.failure.None? ==> q.sent == KeptEvents(session, deliveries) && q.taken == p.taken + 1)
            && (q.failure.Some? ==> q.sent == p.sent && q.taken == p.taken && IsLifecycleFailure(q.failure.value))
  {
    assert p.sent + [] == p.sent;
  }

  /** The loop's error names the offence: an invalid sequence exactly when the facts let through, up to and
      including the offending one, are not accepted; otherwise the offending ask conflicts. */
  lemma {:induction false} OffenceIsNamed(session: string, profile: Profile, deliveries: seq<Delivery>)
    requires Consumed(session, profile, deliveries).failure.Some?
    ensures var p := Consumed(session, profile, deliveries);
            && p.taken < |deliveries| && Shown(session, deliveries[p.taken]).Some?
            && (p.failure == Some(Contract(FactSequenceInvalid)) <==>
                !Accepts(KeptFacts(session, deliveries[..p.taken + 1]), profile))
            && (p.failure != Some(Contract(FactSequenceInvalid)) ==>
                  p.failure == Some(Contract(PendingInteractionConflict)) && Conflicts(session, deliveries[p.taken]))
    decreases |deliveries|
  {
    var n := |deliveries| - 1;
    var front := deliveries[..n];
    SentBeforeTheOffence(session, profile, front);
    if Consumed(session, profile, front).failure.Some? {
      OffenceIsNamed(session, profile, front);
      var k := Consumed(session, profile, front).taken;
      assert front[..k + 1] == deliveries[..k + 1] && front[k] == deliveries[k];
    } else {
      assert deliveries[..n + 1] == deliveries;
      LastDeliveryOffends(session, profile, deliveries);
    }
  }

  lemma LastDeliveryOffends(session: string, profile: Profile, deliveries: seq<Delivery>)
    requires deliveries != []
    requires Consumed(session, profile, deliveries[..|deliveries| - 1]).failure.None?
    requires Consumed(session, profile, deliveries).failure.Some?
    ensures var p, d := Consumed(session, profile, deliveries), deliveries[|deliveries| - 1];
            && p.taken == |deliveries| - 1 && Shown(session, d).Some?
            && (p.failure == Some(Contract(FactSequenceInvalid)) <==> !Accepts(KeptFacts(session, deliveries), profile))
            && (p.failure != Some(Contract(FactSequenceInvalid)) ==>
                  p.failure == Some(Contract(PendingInteractionConflict)) && Conflicts(session, d))
  {
    var front := deliveries[..|deliveries| - 1];
    LoopEndsWell(session, profile, front);
    var kept := KeptFacts(session, front);
    assert (kept + [deliveries[|deliveries| - 1].fact])[..|kept|] == kept;
  }

  // What handling `d` leaves in the shared registries; the interaction is reached only past the validator.
  function ContextsLeft(session: string, d: Delivery): PermissionPresentation.Records {
    PermissionPresentation.AfterEnrich(d.contexts, session, d.fact)
  }

  function InteractionsLeft(session: string, d: Delivery, reached: bool): PendingInteractions.Records {
    var wanted := PendingInteractions.InteractionOf(session, d.fact);
    if !reached || wanted.None? then d.interactions else PendingInteractions.AfterRegister(d.interactions, wanted.value)
  }

  // Whether handling the last delivery pulled got as far as registering its interaction.
  predicate Registers(session: string, p: Progress, d: Delivery) {
    Shown(session, d).Some? && p.failure != Some(Contract(FactSequenceInvalid))
  }

  // How many deliveries were pulled.
  function Pulled(p: Progress): nat {
    if p.failure.Some? then p.taken + 1 else p.taken
  }

  // The registries after the loop: those the last delivery pulled left, or the ones it started with.
  predicate RegistriesLeft(session: string, p: Progress, deliveries: seq<Delivery>,
                           contexts: PermissionPresentation.Records, interactions: PendingInteractions.Records)
    requires 1 <= Pulled(p) <= |deliveries|
  {
    var d := deliveries[Pulled(p) - 1];
    contexts == ContextsLeft(session, d) && interactions == InteractionsLeft(session, d, Registers(session, p, d))
  }

  lemma OneMoreDelivery(session: string, profile: Profile, deliveries: seq<Delivery>, k: nat)
    requires k < |deliveries| && Consumed(session, profile, deliveries[..k]).failure.None?
    ensures Consumed(session, profile, deliveries[..k + 1]) ==
            Deliver(session, profile, Consumed(session, profile, deliveries[..k]), deliveries[k])
  {
    assert deliveries[..k + 1][..k] == deliveries[..k];
  }

  // One turn of the loop. Between two facts other runs do to the shared registries whatever they do: the
  // delivery says what.
  method HandleFact(session: string, profile: Profile, deliveries: seq<Delivery>, k: nat, sent: seq<Uplink>,
                    state: ValidationSessionState,
                    enricher: PermissionPresentation.ProviderFactEnricher,
                    interactions: PendingInteractions.InteractionCoordinator)
    returns (sentSoFar: seq<Uplink>, failure: Option<Error>)
    requires k < |deliveries|
    requires Consumed(session, profile, deliveries[..k]) == Progress(sent, k, state.View(), None)
    modifies state, enricher.registry, interactions.registry
    ensures var q := Consumed(session, profile, deliveries[..k + 1]);
            && q.sent == sentSoFar && q.failure == failure && Pulled(q) == k + 1
            && (failure.None? ==> q == Progress(sentSoFar, k + 1, state.View(), None))
            && RegistriesLeft(session, q, deliveries, enricher.registry.records, interactions.registry.records)
  {
    OneMoreDelivery(session, profile, deliveries, k);
    var d := deliveries[k];
    enricher.registry.records, interactions.registry.records := d.contexts, d.interactions;
    sentSoFar := sent;
    var shown := enricher.EnrichFact(session, d.fact);
    if shown.None? {
      return sentSoFar, None;
    }
    var accepted := state.Consume(d.fact, profile);
    if !accepted {
      return sentSoFar, Some(Contract(FactSequenceInvalid));
    }
    var conflict := interactions.RegisterFromFact(session, d.fact);
    if conflict {
      return sentSoFar, Some(Contract(PendingInteractionConflict));
    }
    return sentSoFar + [ToolEvent(shown.value)], None;
  }

  method ConsumeFacts(session: string, profile: Profile, deliveries: seq<Delivery>, ending: Option<Error>,
                      enricher: PermissionPresentation.ProviderFactEnricher,
                      interactions: PendingInteractions.InteractionCoordinator)
    returns (sent: seq<Uplink>, failure: Option<Error>)
    modifies enricher.registry, interactions.registry
    ensures var p := Consumed(session, profile, deliveries);
            && sent == p.sent && failure == StreamFailure(p, ending)
            && Pulled(p) <= |deliveries|
            && (Pulled(p) > 0 ==>
                  RegistriesLeft(session, p, deliveries, enricher.registry.records, interactions.registry.records))
  {
    var state := new ValidationSessionState();
    sent := [];
    var k := 0;
    while k < |deliveries|
      invariant 0 <= k <= |deliveries| && fresh(state)
      invariant Consumed(session, profile, deliveries[..k]) == Progress(sent, k, state.View(), None)
      invariant k > 0 ==>
                  RegistriesLeft(session, Consumed(session, profile, deliveries[..k]), deliveries,
                                 enricher.registry.records, interactions.registry.records)
    {
      var fault;
      sent, fault := HandleFact(session, profile, deliveries, k, sent, state, enricher, interactions);
      k := k + 1;
      if fault.Some? {
        StaysFailed(session, profile, deliveries, k);
        return sent, fault;
      }
    }
    assert deliveries[..k] == deliveries;
    failure := ending;
  }

  lemma {:induction false} StaysFailed(session: string, profile: Profile, deliveries: seq<Delivery>, k: nat)
    requires k <= |deliveries| && Consumed(session, profile, deliveries[..k]).failure.Some?
    ensures Consumed(session, profile, deliveries) == Consumed(session, profile, deliveries[..k])
    decreases |deliveries|
  {
    if k == |deliveries| {
      assert deliveries[..k] == deliveries;
    } else {
      var front := deliveries[..|deliveries| - 1];
      assert front[..k] == deliveries[..k];
      StaysFailed(session, profile, front, k);
    }
  }

  // ---- Terminals ----

  // How result() settled; `error` is what a failed result carries.
  datatype ProviderFailure = ProviderFailure(message: string, sessionNotFound: bool)

  datatype Terminal =
    | Finished
    | Aborted
    | Failed(error: Option<ProviderFailure>)

  datatype Settlement = Resolved(result: Terminal) | Rejected(error: Error)

  // DefaultRunTerminalSignalProjector.
  function TerminalUplink(result: Terminal): (uplink: Uplink)
    ensures IsTerminal(uplink)
    ensures uplink.ToolDone? <==> !result.Failed?
    ensures result.Failed? && result.error.Some? ==> uplink.text == Message(result.error.value.message)
    ensures uplink.ToolError? && uplink.sessionNotFound ==> result.error.Some? && result.error.value.sessionNotFound
  {
    match result
    case Finished => ToolDone
    case Aborted => ToolDone
    case Failed(error) =>
      if error.None? then ToolError(DefaultFailureText, false)
      else ToolError(Message(error.value.message), error.value.sessionNotFound)
  }

  predicate IsLifecycleFailure(error: Error) {
    error == Contract(FactSequenceInvalid) || error == Contract(PendingInteractionConflict)
  }

  datatype Execution = Execution(sent: seq<Uplink>, thrown: Option<Error>)

  function ExecuteRun(session: string, deliveries: seq<Delivery>, ending: Option<Error>,
      settlement: Settlement): Execution {
    var p := Consumed(session, RequestRun, deliveries);
    var failure := StreamFailure(p, ending);
    if failure.Some? then
      Execution(if IsLifecycleFailure(failure.value) then p.sent + [ToolError(RunFailedText, false)] else p.sent,
          failure)
    else match settlement
      case Rejected(error) => Execution(p.sent, Some(error))
      case Resolved(result) => Execution(p.sent + [TerminalUplink(result)], None)
  }

  // CommandFailureToolErrorProjector.resolveErrorMessage; None where it yields nothing or an empty text.
  function ReportText(error: Error): Option<ErrorText> {
    match error
    case Contract(code) => (
      match code
      case RunAlreadyActive => Some(RunAlreadyActiveText)
      case PendingInteractionNotFound => Some(InteractionNotFoundText)
      case _ => None)
    case Foreign(message) => if message == "" then None else Some(Message(message))
  }

  function CommandFailureReport(session: string, welink: string, error: Error): seq<Uplink> {
    if (session == "" && welink == "") || ReportText(error).None? then []
    else [ToolError(ReportText(error).value, false)]
  }

  // Everything the environment contributes to one chat command.
  datatype Chat = Chat(
    session: string,
    welink: string,
    rejected: bool,
    startError: Option<Error>,
    deliveries: seq<Delivery>,
    ending: Option<Error>,
    settlement: Settlement)

  // StartRequestRunUseCase.execute under the catch of the business-message handler.
  function Execute(chat: Chat): Execution {
    if chat.rejected then Execution([], Some(Contract(RunAlreadyActive)))
    else if chat.startError.Some? then Execution([], chat.startError)
    else ExecuteRun(chat.session, chat.deliveries, chat.ending, chat.settlement)
  }

  function Uplinks(chat: Chat): seq<Uplink> {
    var e := Execute(chat);
    e.sent + if e.thrown.Some? then CommandFailureReport(chat.session, chat.welink, e.thrown.value) else []
  }

  // Events, then one terminal.
  predicate EventsThenTerminal(uplinks: seq<Uplink>) {
    && |uplinks| > 0 && IsTerminal(uplinks[|uplinks| - 1])
    && forall i :: 0 <= i < |uplinks| - 1 ==> !IsTerminal(uplinks[i])
  }

  predicate OnlyEvents(uplinks: seq<Uplink>) {
    forall i :: 0 <= i < |uplinks| ==> !IsTerminal(uplinks[i])
  }

  // The stream itself failed with an error the run reports on its own.
  predicate RunReportsItself(chat: Chat) {
    var p := Consumed(chat.session, RequestRun, chat.deliveries);
    && !chat.rejected && chat.startError.None?
    && (p.failure.Some? || (chat.ending.Some? && IsLifecycleFailure(chat.ending.value)))
  }

  // The failure has no text, or one of the codes that are not reported again.
  predicate Silent(error: Error) {
    error in {
      Foreign(""), Contract(FactSequenceInvalid), Contract(PendingInteractionConflict),
      Contract(OutboundAlreadyActive), Contract(SessionClosed), Contract(SessionNotFound)}
  }

  // There is a text to report and a session to report it to.
  predicate Reportable(chat: Chat, error: Error) {
    (chat.session != "" || chat.welink != "") && !Silent(error)
  }

  lemma ConsumedSendsEvents(session: string, profile: Profile, deliveries: seq<Delivery>)
    ensures OnlyEvents(Consumed(session, profile, deliveries).sent)
  {
    if deliveries != [] {
      ConsumedSendsEvents(session, profile, deliveries[..|deliveries| - 1]);
    }
  }

  // What the run itself sends: its terminal, or events only when the error is thrown past it.
  lemma RunSends(chat: Chat)
    ensures var e := Execute(chat);
            && (e.thrown.None? || RunReportsItself(chat) ==> EventsThenTerminal(e.sent))
            && (e.thrown.Some? && !RunReportsItself(chat) ==> OnlyEvents(e.sent))
            && (RunReportsItself(chat) ==> e.thrown.Some? && IsLifecycleFailure(e.thrown.value))
  {
    ConsumedSendsEvents(chat.session, RequestRun, chat.deliveries);
    SentBeforeTheOffence(chat.session, RequestRun, chat.deliveries);
  }

  lemma SilentHasNoText(error: Error)
    ensures ReportText(error).None? <==> Silent(error)
    ensures IsLifecycleFailure(error) ==> Silent(error)
  {
  }

  /** Every chat that finishes processing sends events first and then at most one terminal; it sends exactly
      one unless the error that ended it is thrown past the run and cannot be reported: its text is empty,
      its code is one the projector suppresses, or the command names no session. */
  lemma OneTerminalPerChat(chat: Chat)
    ensures OnlyEvents(Uplinks(chat)) || EventsThenTerminal(Uplinks(chat))
    ensures var thrown := Execute(chat).thrown;
            EventsThenTerminal(Uplinks(chat)) <==>
            thrown.None? || RunReportsItself(chat) || Reportable(chat, thrown.value)
  {
    RunSends(chat);
    var e := Execute(chat);
    assert e.sent + [] == e.sent;
    if e.thrown.Some? {
      SilentHasNoText(e.thrown.value);
    }
  }

  /** A provider whose start throws a silent error, one without a text say, leaves its chat without any uplink. */
  lemma SilentStartSendsNothing(chat: Chat)
    requires !chat.rejected && chat.startError.Some?
    ensures Uplinks(chat) == [] <==> !Reportable(chat, chat.startError.value)
    ensures Uplinks(chat.(startError := Some(Foreign("")))) == []
  {
    SilentHasNoText(chat.startError.value);
  }

  /** The last uplink of a chat that fails past its run says why: the fixed text for an active run or for an
      unknown interaction, and otherwise the very message that was thrown. */
  lemma ReportNamesTheFailure(chat: Chat)
    requires Execute(chat).thrown.Some? && Reportable(chat, Execute(chat).thrown.value)
    ensures |Uplinks(chat)| > 0
    ensures Uplinks(chat)[|Uplinks(chat)| - 1] ==
            match Execute(chat).thrown.value
            case Foreign(message) => ToolError(Message(message), false)
            case Contract(code) =>
              ToolError(if code.RunAlreadyActive? then RunAlreadyActiveText else InteractionNotFoundText, false)
  {
    SilentHasNoText(Execute(chat).thrown.value);
  }

  /** Whichever of fact stream, result, validation, interaction registration or provider call fails, exactly
      one terminal goes out last, if the session is named, thrown messages are non-empty and the provider
      throws no runtime contract error of its own. */
  lemma WellBehavedChatHasOneTerminal(chat: Chat)
    requires chat.session != ""
    requires chat.startError.Some? ==> chat.startError.value.Foreign? && chat.startError.value.message != ""
    requires chat.ending.Some? ==> chat.ending.value.Foreign? && chat.ending.value.message != ""
    requires chat.settlement.Rejected? ==> chat.settlement.error.Foreign? && chat.settlement.error.message != ""
    ensures EventsThenTerminal(Uplinks(chat))
    ensures Uplinks(chat)[|Uplinks(chat)| - 1].ToolDone? <==>
            Execute(chat).thrown.None? && !chat.settlement.result.Failed?
  {
    OneTerminalPerChat(chat);
    var e := Execute(chat);
    assert e.sent + [] == e.sent;
    if e.thrown.None? {
      assert Uplinks(chat)[|Uplinks(chat)| - 1] == TerminalUplink(chat.settlement.result);
    } else {
      ThrownChatEndsInError(chat);
    }
  }

  lemma ThrownChatEndsInError(chat: Chat)
    requires Execute(chat).thrown.Some? && EventsThenTerminal(Uplinks(chat))
    ensures Uplinks(chat)[|Uplinks(chat)| - 1].ToolError?
  {
    var e := Execute(chat);
    var report := CommandFailureReport(chat.session, chat.welink, e.thrown.value);
    assert Uplinks(chat) == e.sent + report;
    if report == [] {
      ConsumedSendsEvents(chat.session, RequestRun, chat.deliveries);
      assert Uplinks(chat) == e.sent && e.sent[|e.sent| - 1] == ToolError(RunFailedText, false);
    } else {
      assert Uplinks(chat)[|Uplinks(chat)| - 1] == report[0];
    }
  }

  /** A chat that goes well delivers one event per fact let through, in order, and its own terminal. */
  lemma GoodChatDeliversEverything(chat: Chat)
    requires !chat.rejected && chat.startError.None? && chat.ending.None? && chat.settlement.Resolved?
    requires Accepts(KeptFacts(chat.session, chat.deliveries), RequestRun) &&
        !SomeAskConflicts(chat.session, chat.deliveries)
    ensures Uplinks(chat) == KeptEvents(chat.session, chat.deliveries) + [TerminalUplink(chat.settlement.result)]
  {
    LoopEndsWell(chat.session, RequestRun, chat.deliveries);
  }

  /** ... and that terminal is its only one. */
  lemma GoodChatEndsOnce(chat: Chat)
    requires !chat.rejected && chat.startError.None? && chat.ending.None? && chat.settlement.Resolved?
    requires Accepts(KeptFacts(chat.session, chat.deliveries), RequestRun) &&
        !SomeAskConflicts(chat.session, chat.deliveries)
    ensures EventsThenTerminal(Uplinks(chat))
  {
    LoopEndsWell(chat.session, RequestRun, chat.deliveries);
    OneTerminalPerChat(chat);
  }

  /** A stream the validator rejects, or an ask that conflicts, cuts the run before the offending fact:
      the events of the facts before it go out, then the run's fixed failure text and nothing else. */
  lemma RejectedStreamIsCut(chat: Chat)
    requires !chat.rejected && chat.startError.None?
    requires !Accepts(KeptFacts(chat.session, chat.deliveries), RequestRun) ||
        SomeAskConflicts(chat.session, chat.deliveries)
    ensures var p := Consumed(chat.session, RequestRun, chat.deliveries);
            && p.taken < |chat.deliveries|
            && Uplinks(chat) == KeptEvents(chat.session, chat.deliveries[..p.taken]) + [ToolError(RunFailedText, false)]
            && EventsThenTerminal(Uplinks(chat))
  {
    LoopEndsWell(chat.session, RequestRun, chat.deliveries);
    SentBeforeTheOffence(chat.session, RequestRun, chat.deliveries);
    OneTerminalPerChat(chat);
  }

  method ProcessChat(chat: Chat, enricher: PermissionPresentation.ProviderFactEnricher,
                     interactions: PendingInteractions.InteractionCoordinator) returns (uplinks: seq<Uplink>)
    modifies enricher.registry, interactions.registry
    ensures uplinks == Uplinks(chat)
  {
    uplinks := [];
    var thrown: Option<Error> := None;
    if chat.rejected {
      thrown := Some(Contract(RunAlreadyActive));
    } else if chat.startError.Some? {
      thrown := chat.startError;
    } else {
      var sent, failure := ConsumeFacts(
        chat.session, RequestRun, chat.deliveries, chat.ending, enricher, interactions);
      uplinks := sent;
      if failure.Some? {
        if IsLifecycleFailure(failure.value) {
          uplinks := uplinks + [ToolError(RunFailedText, false)];
        }
        thrown := failure;
      } else if chat.settlement.Rejected? {
        thrown := Some(chat.settlement.error);
      } else {
        uplinks := uplinks + [TerminalUplink(chat.settlement.result)];
      }
    }
    if thrown.Some? && (chat.session != "" || chat.welink != "") {
      var text := ReportText(thrown.value);
      if text.Some? {
        uplinks := uplinks + [ToolError(text.value, false)];
      }
    }
  }

  // ---- Outbound ----

  // A failed outbound run passes the error's text on.
  function FailureText(error: Error): ErrorText {
    match error
    case Foreign(message) => Message(message)
    case Contract(code) => ContractText(code)
  }

  function OutboundRunUplinks(session: string, deliveries: seq<Delivery>, ending: Option<Error>): seq<Uplink> {
    var p := Consumed(session, OutboundRun, deliveries);
    var failure := StreamFailure(p, ending);
    p.sent + [if failure.Some? then ToolError(FailureText(failure.value), false) else ToolDone]
  }

  /** An outbound run that got the slot sends its events and then exactly one terminal, tool_done exactly
      when its stream ended, every kept fact was accepted and no ask conflicted. */
  lemma OutboundRunHasOneTerminal(session: string, deliveries: seq<Delivery>, ending: Option<Error>)
    ensures var uplinks := OutboundRunUplinks(session, deliveries, ending);
            && EventsThenTerminal(uplinks)
            && (uplinks[|uplinks| - 1].ToolDone? <==>
                && ending.None? && Accepts(KeptFacts(session, deliveries), OutboundRun)
                && !SomeAskConflicts(session, deliveries))
  {
    ConsumedSendsEvents(session, OutboundRun, deliveries);
    LoopEndsWell(session, OutboundRun, deliveries);
  }

  class OutboundCoordinator {
    const registry: SessionRuns.InMemorySessionRuntimeRegistry
    const enricher: PermissionPresentation.ProviderFactEnricher
    const interactions: PendingInteractions.InteractionCoordinator

    constructor (registry: SessionRuns.InMemorySessionRuntimeRegistry,
                 enricher: PermissionPresentation.ProviderFactEnricher,
                 interactions: PendingInteractions.InteractionCoordinator)
      ensures this.registry == registry && this.enricher == enricher && this.interactions == interactions
    {
      this.registry, this.enricher, this.interactions := registry, enricher, interactions;
    }

    // `meanwhile` is what other coroutines have made of the registry by the time the stream is consumed.
    method EmitOutboundRun(session: string, runId: string, deliveries: seq<Delivery>, ending: Option<Error>,
                           meanwhile: SessionRuns.Records) returns (sent: seq<Uplink>, thrown: Option<Error>)
      modifies registry, enricher.registry, interactions.registry
      ensures if SessionRuns.CanAcquire(old(registry.records), session) then
                && sent == OutboundRunUplinks(session, deliveries, ending)
                && thrown == StreamFailure(Consumed(session, OutboundRun, deliveries), ending)
                && registry.records == SessionRuns.AfterReleaseOutbound(meanwhile, session, runId)
                && SessionRuns.RecordOf(registry.records, session).outbound != SessionRuns.Emitting(runId)
              else
                && sent == [] && thrown == Some(Contract(OutboundAlreadyActive))
                && registry.records == SessionRuns.AfterAcquire(old(registry.records), session, runId)
    {
      var acquired := registry.AcquireOutboundEmission(session, runId);
      if !acquired {
        return [], Some(Contract(OutboundAlreadyActive));
      }
      sent, thrown := ConsumeFacts(session, OutboundRun, deliveries, ending, enricher, interactions);
      if thrown.Some? {
        sent := sent + [ToolError(FailureText(thrown.value), false)];
      } else {
        sent := sent + [ToolDone];
      }
      registry.records := meanwhile;
      registry.ReleaseOutboundEmission(session, runId);
    }

    // A single outbound message: events only, in the profile that ends at the first message.done.
    method EmitOutbound(session: string, messageId: string, deliveries: seq<Delivery>, ending: Option<Error>,
                        meanwhile: SessionRuns.Records) returns (sent: seq<Uplink>, thrown: Option<Error>)
      modifies registry, enricher.registry, interactions.registry
      ensures if SessionRuns.CanAcquire(old(registry.records), session) then
                && sent == Consumed(session, Outbound, deliveries).sent && OnlyEvents(sent)
                && thrown == StreamFailure(Consumed(session, Outbound, deliveries), ending)
                && registry.records == SessionRuns.AfterReleaseOutbound(meanwhile, session, messageId)
              else
                && sent == [] && thrown == Some(Contract(OutboundAlreadyActive))
                && registry.records == SessionRuns.AfterAcquire(old(registry.records), session, messageId)
    {
      var acquired := registry.AcquireOutboundEmission(session, messageId);
      if !acquired {
        return [], Some(Contract(OutboundAlreadyActive));
      }
      ConsumedSendsEvents(session, Outbound, deliveries);
      sent, thrown := ConsumeFacts(session, Outbound, deliveries, ending, enricher, interactions);
      registry.records := meanwhile;
      registry.ReleaseOutboundEmission(session, messageId);
    }
  }
}
