// Which of the chats that interleave on the session registry are turned away, and what is sent for them
// (bridge-runtime-sdk/src/application/usecases/StartRequestRunUseCase.ts, runtime-assembly/downstream.ts).
module ChatAdmission {
  import opened Prelude
  import opened FactSequence
  import PermissionPresentation
  import PendingInteractions
  import P = RunPipeline
  import S = SessionRuns

  const ALREADY_ACTIVE := P.ToolError(P.RunAlreadyActiveText, false)

  // `chat` is the k-th event and finds the registry as the events before have left it.
  ghost predicate Issued(rejects: bool, events: seq<S.Event>, k: nat, chat: P.Chat) {
    && k < |events| && events[k].Chat? && events[k].session == chat.session && events[k].welink == chat.welink
    && chat.rejected == S.Rejected(S.Exec(rejects, events[..k]), chat.session)
  }

  // Among the first `l` events, the k-th is a chat of the session that was admitted, whose run has not finished
  // and whose session has not been closed since.
  ghost predicate Occupies(rejects: bool, events: seq<S.Event>, session: string, k: int, l: nat)
    requires l <= |events|
  {
    && 0 <= k < l && events[k].Chat? && events[k].session == session
    && !S.Rejected(S.Exec(rejects, events[..k]), session)
    && forall m :: k < m < l ==>
                     events[m] != S.Close(session) && !(events[m].Finish? && events[m].runId == events[k].runId)
  }

  // What one event does to a run registered for the session.
  lemma StepMovesFlight(s: S.System, e: S.Event, session: string, runId: string)
    ensures S.Flight(session, runId, false) in S.Step(s, e).flights <==>
            || (e.Chat? && e.session == session && e.runId == runId && !S.Rejected(s, session))
            || (S.Flight(session, runId, false) in s.flights && e != S.Close(session)
                && !(e.Finish? && e.runId == runId))
  {
    var f := S.Flight(session, runId, false);
    match e
    case Chat(_, _, _) =>
    case Finish(_, finished) => S.FlightsWithoutMembers(s.flights, finished);
    case Close(closed) =>
      var after := S.Orphaned(s.flights, closed);
      if f in after {
        var i :| 0 <= i < |after| && after[i] == f;
        assert s.flights[i] == f;
      }
      if f in s.flights && closed != session {
        var i :| 0 <= i < |s.flights| && s.flights[i] == f;
        assert after[i] == f;
      }
    case StartEmission(_, _) =>
    case EndEmission(_, _, _) =>
  }

  // How occupation goes on by one event.
  lemma OneEventMore(rejects: bool, events: seq<S.Event>, session: string, k: nat, l: nat)
    requires k <= l < |events|
    ensures Occupies(rejects, events, session, k, l + 1) <==>
            var e := events[l];
            if k == l then e.Chat? && e.session == session && !S.Rejected(S.Exec(rejects, events[..l]), session)
            else
              && Occupies(rejects, events, session, k, l)
              && e != S.Close(session) && !(e.Finish? && e.runId == events[k].runId)
  {
  }

  ghost predicate OccupiedByRun(rejects: bool, events: seq<S.Event>, session: string, runId: string, l: nat)
    requires l <= |events|
  {
    exists k :: Occupies(rejects, events, session, k, l) && events[k].runId == runId
  }

  lemma OccupationMoves(rejects: bool, events: seq<S.Event>, session: string, runId: string, l: nat)
    requires l < |events|
    ensures var s, e := S.Exec(rejects, events[..l]), events[l];
            OccupiedByRun(rejects, events, session, runId, l + 1) <==>
            || (e.Chat? && e.session == session && e.runId == runId && !S.Rejected(s, session))
            || (OccupiedByRun(rejects, events, session, runId, l) && e != S.Close(session)
                && !(e.Finish? && e.runId == runId))
  {
    OneEventMore(rejects, events, session, l, l);
    if OccupiedByRun(rejects, events, session, runId, l) {
      var k :| Occupies(rejects, events, session, k, l) && events[k].runId == runId;
      OneEventMore(rejects, events, session, k, l);
    }
    if OccupiedByRun(rejects, events, session, runId, l + 1) {
      var k :| Occupies(rejects, events, session, k, l + 1) && events[k].runId == runId;
      OneEventMore(rejects, events, session, k, l);
    }
  }

  // A run is registered exactly while the chat that started it occupies the session.
  lemma {:induction false} RegisteredExactly(rejects: bool, events: seq<S.Event>, session: string, runId: string,
                                             l: nat)
    requires l <= |events|
    ensures S.Flight(session, runId, false) in S.Exec(rejects, events[..l]).flights <==>
            OccupiedByRun(rejects, events, session, runId, l)
  {
    if l > 0 {
      RegisteredExactly(rejects, events, session, runId, l - 1);
      S.ExecOneMore(rejects, events, l - 1);
      StepMovesFlight(S.Exec(rejects, events[..l - 1]), events[l - 1], session, runId);
      OccupationMoves(rejects, events, session, runId, l - 1);
    }
  }

  /** Under policy `reject`, a chat is turned away exactly when some earlier chat of the session was admitted,
      its run has not finished, and the session has not been closed since. */
  lemma {:induction false} TurnedAwayByHistory(rejects: bool, events: seq<S.Event>, session: string, l: nat)
    requires S.IsRun(rejects, events) && l <= |events|
    ensures S.Rejected(S.Exec(rejects, events[..l]), session) <==>
            rejects && exists k :: Occupies(rejects, events, session, k, l)
  {
    S.PrefixesAreRuns(rejects, events, l);
    S.RejectedExactlyWhenRunning(rejects, events[..l], session);
    if k :| Occupies(rejects, events, session, k, l) {
      RegisteredExactly(rejects, events, session, events[k].runId, l);
    }
    if f :| f in S.Exec(rejects, events[..l]).flights && f.session == session && !f.orphaned {
      assert f == S.Flight(session, f.runId, false);
      RegisteredExactly(rejects, events, session, f.runId, l);
    }
  }

  predicate Named(chat: P.Chat) {
    chat.session != "" || chat.welink != ""
  }

  // The provider itself throws the error of a rejected chat.
  predicate ProviderSaysActive(chat: P.Chat) {
    P.Execute(chat.(rejected := false)).thrown == Some(P.Contract(P.RunAlreadyActive))
  }

  lemma RunNeverSaysActive(chat: P.Chat)
    ensures ALREADY_ACTIVE !in P.Execute(chat).sent
  {
    P.ConsumedSendsEvents(chat.session, RequestRun, chat.deliveries);
  }

  /** A chat is answered with the fixed text for an active run exactly when it names a session and either an
      earlier chat occupies that session under policy `reject`, or the provider throws that very error; and in
      the first case nothing else is sent for it. */
  lemma {:induction false} AnsweredActiveExactly(rejects: bool, events: seq<S.Event>, l: nat, chat: P.Chat)
    requires S.IsRun(rejects, events) && Issued(rejects, events, l, chat)
    ensures ALREADY_ACTIVE in P.Uplinks(chat) <==>
            && Named(chat)
            && ((rejects && exists k :: Occupies(rejects, events, chat.session, k, l)) || ProviderSaysActive(chat))
    ensures (rejects && exists k :: Occupies(rejects, events, chat.session, k, l)) ==>
              P.Uplinks(chat) == if Named(chat) then [ALREADY_ACTIVE] else []
  {
    TurnedAwayByHistory(rejects, events, chat.session, l);
    RunNeverSaysActive(chat);
    if !chat.rejected {
      assert chat.(rejected := false) == chat;
    }
  }

  /** The use case under its handler: the check and the registration, then the run, then the release. `meanwhile`
      is the registry as the other chats have left it when the run ends. */
  method HandleChat(useCase: S.StartRequestRunUseCase, chat: P.Chat, runId: string, meanwhile: S.Records,
                    ghost before: S.System, ghost during: S.System,
                    enricher: PermissionPresentation.ProviderFactEnricher,
                    interactions: PendingInteractions.InteractionCoordinator)
    returns (uplinks: seq<P.Uplink>)
    requires useCase.registry.records == before.records && useCase.rejects == before.rejects
    requires meanwhile == during.records
    modifies useCase.registry, enricher.registry, interactions.registry
    ensures uplinks == P.Uplinks(chat.(rejected := S.Rejected(before, chat.session)))
    ensures useCase.registry.records ==
            if S.Rejected(before, chat.session) then before.records
            else S.Step(during, S.Finish(chat.session, runId)).records
  {
    var started, _ := useCase.Begin(before, chat.session, runId, chat.welink);
    uplinks := P.ProcessChat(chat.(rejected := !started), enricher, interactions);
    if started {
      useCase.registry.records := meanwhile;
      useCase.End(during, chat.session, runId);
    }
  }
}
