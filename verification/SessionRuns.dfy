// Which runs and outbound emissions occupy a session, over every interleaving of concurrent chats
// (bridge-runtime-sdk/src/infrastructure/registries/InMemorySessionRuntimeRegistry.ts,
// application/usecases/StartRequestRunUseCase.ts, CloseSessionUseCase.ts,
// application/coordinators/OutboundCoordinator.ts).
module SessionRuns {
  datatype Slot = Idle | Emitting(messageId: string)

  // An empty welink session id is no id.
  datatype SessionRecord = SessionRecord(welinkSessionId: string, activeRunIds: seq<string>, outbound: Slot)

  type Records = map<string, SessionRecord>

  const EMPTY_RECORD := SessionRecord("", [], Idle)

  function RecordOf(records: Records, session: string): SessionRecord {
    if session in records then records[session] else EMPTY_RECORD
  }

  function AfterEnsure(records: Records, session: string, welink: string): Records {
    var record := RecordOf(records, session);
    records[session := if record.welinkSessionId == "" then record.(welinkSessionId := welink) else record]
  }

  function AfterRegister(records: Records, session: string, runId: string): Records {
    var record := RecordOf(records, session);
    records[session := if runId in record.activeRunIds then record
            else record.(activeRunIds := record.activeRunIds + [runId])]
  }

  function Without(ids: seq<string>, runId: string): seq<string> {
    if ids == [] then []
    else Without(ids[..|ids| - 1], runId) + (if ids[|ids| - 1] == runId then [] else [ids[|ids| - 1]])
  }

  function AfterRelease(records: Records, session: string, runId: string): Records {
    if session !in records || runId !in records[session].activeRunIds then records
    else records[session := records[session].(activeRunIds := Without(records[session].activeRunIds, runId))]
  }

  predicate CanAcquire(records: Records, session: string) {
    RecordOf(records, session).outbound.Idle?
  }

  function AfterAcquire(records: Records, session: string, messageId: string): Records {
    var record := RecordOf(records, session);
    records[session := if record.outbound.Idle? then record.(outbound := Emitting(messageId)) else record]
  }

  function AfterReleaseOutbound(records: Records, session: string, messageId: string): Records {
    if session in records && records[session].outbound == Emitting(messageId)
    then records[session := records[session].(outbound := Idle)]
    else records
  }

  // ---- The registry ----

  class InMemorySessionRuntimeRegistry {
    var records: Records

    constructor ()
      ensures records == map[]
    {
      records := map[];
    }

    method EnsureRecord(session: string, welink: string) returns (record: SessionRecord)
      modifies this
      ensures records == AfterEnsure(old(records), session, welink)
      ensures record == records[session]
    {
      if session in records {
        if welink != "" && records[session].welinkSessionId == "" {
          records := records[session := records[session].(welinkSessionId := welink)];
        }
        assert records == AfterEnsure(old(records), session, welink);
        return records[session];
      }
      records := records[session := SessionRecord(welink, [], Idle)];
      record := records[session];
    }

    method Delete(session: string)
      modifies this
      ensures records == old(records) - {session}
    {
      records := records - {session};
    }

    method RegisterRequestRun(session: string, runId: string)
      modifies this
      ensures records == AfterRegister(old(records), session, runId)
    {
      var record := EnsureRecord(session, "");
      if runId !in record.activeRunIds {
        records := records[session := record.(activeRunIds := record.activeRunIds + [runId])];
      }
    }

    method ReleaseRequestRun(session: string, runId: string)
      modifies this
      ensures records == AfterRelease(old(records), session, runId)
    {
      if session !in records {
        return;
      }
      var record := records[session];
      if runId in record.activeRunIds {
        var kept: seq<string> := [];
        var k := 0;
        while k < |record.activeRunIds|
          invariant 0 <= k <= |record.activeRunIds|
          invariant kept == Without(record.activeRunIds[..k], runId)
        {
          assert record.activeRunIds[..k + 1][..k] == record.activeRunIds[..k];
          if record.activeRunIds[k] != runId {
            kept := kept + [record.activeRunIds[k]];
          }
          k := k + 1;
        }
        assert record.activeRunIds[..k] == record.activeRunIds;
        records := records[session := record.(activeRunIds := kept)];
      }
    }

    method AcquireOutboundEmission(session: string, messageId: string) returns (ok: bool)
      modifies this
      ensures ok <==> CanAcquire(old(records), session)
      ensures records == AfterAcquire(old(records), session, messageId)
    {
      var record := EnsureRecord(session, "");
      if !record.outbound.Idle? {
        return false;
      }
      records := records[session := record.(outbound := Emitting(messageId))];
      ok := true;
    }

    method ReleaseOutboundEmission(session: string, messageId: string)
      modifies this
      ensures records == AfterReleaseOutbound(old(records), session, messageId)
    {
      if session in records && records[session].outbound == Emitting(messageId) {
        records := records[session := records[session].(outbound := Idle)];
      }
    }
  }

  // ---- The system: the registry and what is in flight ----

  // `orphaned`: the session was closed while this was in flight.
  datatype Flight = Flight(session: string, runId: string, orphaned: bool)

  datatype Emission = Emission(session: string, messageId: string, id: nat, orphaned: bool)

  datatype System = System(
    rejects: bool,
    records: Records,
    flights: seq<Flight>,
    emissions: set<Emission>,
    usedRunIds: set<string>,
    nextEmission: nat)

  datatype Event =
    | Chat(session: string, runId: string, welink: string)
    | Finish(session: string, runId: string)
    | Close(session: string)
    | StartEmission(session: string, messageId: string)
    | EndEmission(session: string, messageId: string, id: nat)

  function Initial(rejects: bool): System {
    System(rejects, map[], [], {}, {}, 0)
  }

  predicate Rejected(s: System, session: string) {
    s.rejects && RecordOf(s.records, session).activeRunIds != []
  }

  function ChatStep(s: System, session: string, runId: string, welink: string): System {
    var used := s.usedRunIds + {runId};
    if Rejected(s, session) then s.(usedRunIds := used)
    else
      s.(usedRunIds := used, flights := s.flights + [Flight(session, runId, false)],
      records := AfterEnsure(AfterRegister(s.records, session, runId), session, welink))
  }

  function FlightsWithout(flights: seq<Flight>, runId: string): seq<Flight> {
    if flights == [] then []
    else
      FlightsWithout(flights[..|flights| - 1], runId) +
      (if flights[|flights| - 1].runId == runId then [] else [flights[|flights| - 1]])
  }

  function Orphaned(flights: seq<Flight>, session: string): seq<Flight> {
    seq(|flights|, i requires 0 <= i < |flights| =>
      if flights[i].session == session then flights[i].(orphaned := true) else flights[i])
  }

  function OrphanedEmissions(emissions: set<Emission>, session: string): set<Emission> {
    set em | em in emissions :: if em.session == session then em.(orphaned := true) else em
  }

  function Step(s: System, e: Event): System {
    match e
    case Chat(session, runId, welink) => ChatStep(s, session, runId, welink)
    case Finish(session, runId) =>
      s.(flights := FlightsWithout(s.flights, runId), records := AfterRelease(s.records, session, runId))
    case Close(session) =>
      s.(records := s.records - {session}, flights := Orphaned(s.flights, session),
      emissions := OrphanedEmissions(s.emissions, session))
    case StartEmission(session, messageId) =>
      s.(records := AfterAcquire(s.records, session, messageId), nextEmission := s.nextEmission + 1,
      emissions := if CanAcquire(s.records, session)
      then s.emissions + {Emission(session, messageId, s.nextEmission, false)} else s.emissions)
    case EndEmission(session, messageId, id) =>
      s.(records := AfterReleaseOutbound(s.records, session, messageId),
      emissions := s.emissions - {Emission(session, messageId, id, false), Emission(session, messageId, id, true)})
  }

  // Run ids are random, hence new; only what is in flight can finish.
  predicate Possible(s: System, e: Event) {
    match e
    case Chat(_, runId, _) => runId !in s.usedRunIds
    case Finish(session, runId) => exists f :: f in s.flights && f.session == session && f.runId == runId
    case EndEmission(session, messageId, id) =>
      Emission(session, messageId, id, false) in s.emissions || Emission(session, messageId, id, true) in s.emissions
    case _ => true
  }

  function Exec(rejects: bool, events: seq<Event>): System {
    if events == [] then Initial(rejects)
    else Step(Exec(rejects, events[..|events| - 1]), events[|events| - 1])
  }

  predicate IsRun(rejects: bool, events: seq<Event>) {
    events == [] ||
    (IsRun(rejects, events[..|events| - 1]) &&
     Possible(Exec(rejects, events[..|events| - 1]), events[|events| - 1]))
  }

  // ---- Registered ids are the flights that were not orphaned, in start order ----

  function Registered(flights: seq<Flight>, session: string): seq<string> {
    if flights == [] then []
    else
      var last := flights[|flights| - 1];
      Registered(flights[..|flights| - 1], session) +
      (if last.session == session && !last.orphaned then [last.runId] else [])
  }

  ghost predicate DistinctRunIds(flights: seq<Flight>) {
    forall i, j :: 0 <= i < j < |flights| ==> flights[i].runId != flights[j].runId
  }

  ghost predicate RunsInv(s: System) {
    && DistinctRunIds(s.flights)
    && (forall i :: 0 <= i < |s.flights| ==> s.flights[i].runId in s.usedRunIds)
    && (forall session :: RecordOf(s.records, session).activeRunIds == Registered(s.flights, session))
  }

  lemma {:induction false} RegisteredMembers(flights: seq<Flight>, session: string, runId: string)
    ensures runId in Registered(flights, session) <==> Flight(session, runId, false) in flights
  {
    if flights != [] {
      RegisteredMembers(flights[..|flights| - 1], session, runId);
      assert flights == flights[..|flights| - 1] + [flights[|flights| - 1]];
    }
  }

  lemma {:induction false} RegisteredDistinct(flights: seq<Flight>, session: string)
    requires DistinctRunIds(flights)
    ensures forall i, j :: 0 <= i < j < |Registered(flights, session)| ==>
                             Registered(flights, session)[i] != Registered(flights, session)[j]
  {
    if flights != [] {
      var front, last := flights[..|flights| - 1], flights[|flights| - 1];
      assert forall i :: 0 <= i < |front| ==> front[i] == flights[i];
      RegisteredDistinct(front, session);
      RegisteredMembers(front, session, last.runId);
    }
  }

  lemma {:induction false} RegisteredWithout(flights: seq<Flight>, session: string, runId: string)
    ensures Registered(FlightsWithout(flights, runId), session) == Without(Registered(flights, session), runId)
  {
    if flights != [] {
      var front, last := flights[..|flights| - 1], flights[|flights| - 1];
      RegisteredWithout(front, session, runId);
      var rest := FlightsWithout(front, runId);
      assert (rest + [last])[..|rest|] == rest;
      assert rest + [] == rest;
      var ids := Registered(front, session);
      assert (ids + [last.runId])[..|ids|] == ids;
      assert ids + [] == ids;
    }
  }

  lemma {:induction false} RegisteredAfterClose(flights: seq<Flight>, closed: string, session: string)
    ensures Registered(Orphaned(flights, closed), session) ==
            if session == closed then [] else Registered(flights, session)
  {
    if flights != [] {
      var front := flights[..|flights| - 1];
      RegisteredAfterClose(front, closed, session);
      assert Orphaned(flights, closed)[..|front|] == Orphaned(front, closed);
    }
  }

  lemma {:induction false} WithoutAbsent(ids: seq<string>, runId: string)
    requires runId !in ids
    ensures Without(ids, runId) == ids
  {
    if ids != [] {
      WithoutAbsent(ids[..|ids| - 1], runId);
    }
  }

  lemma {:induction false} FlightsWithoutMembers(flights: seq<Flight>, runId: string)
    ensures forall f :: f in FlightsWithout(flights, runId) <==> f in flights && f.runId != runId
  {
    if flights != [] {
      var front, last := flights[..|flights| - 1], flights[|flights| - 1];
      FlightsWithoutMembers(front, runId);
      assert flights == front + [last];
    }
  }

  lemma {:induction false} FlightsWithoutDistinct(flights: seq<Flight>, runId: string)
    requires DistinctRunIds(flights)
    ensures DistinctRunIds(FlightsWithout(flights, runId))
  {
    if flights != [] {
      var front, last := flights[..|flights| - 1], flights[|flights| - 1];
      assert forall i :: 0 <= i < |front| ==> front[i] == flights[i];
      FlightsWithoutDistinct(front, runId);
      FlightsWithoutMembers(front, runId);
      var rest := FlightsWithout(front, runId);
      forall i | 0 <= i < |rest| ensures rest[i].runId != last.runId {
        assert rest[i] in front;
      }
    }
  }

  lemma ChatKeepsRuns(s: System, e: Event)
    requires RunsInv(s) && e.Chat? && Possible(s, e)
    ensures RunsInv(Step(s, e))
  {
    if !Rejected(s, e.session) {
      var s1 := Step(s, e);
      assert s1.flights[..|s.flights|] == s.flights;
      forall session ensures RecordOf(s1.records, session).activeRunIds == Registered(s1.flights, session) {
        RegisteredMembers(s.flights, e.session, e.runId);
      }
    }
  }

  // A run id in flight belongs to one session only.
  lemma RunIdIsLocal(s: System, session: string, runId: string, other: string)
    requires RunsInv(s) && Possible(s, Finish(session, runId)) && other != session
    ensures runId !in Registered(s.flights, other)
  {
    RegisteredMembers(s.flights, other, runId);
    var f :| f in s.flights && f.session == session && f.runId == runId;
    var i :| 0 <= i < |s.flights| && s.flights[i] == f;
    forall j | 0 <= j < |s.flights| ensures s.flights[j] != Flight(other, runId, false) {
      assert i == j || s.flights[i].runId != s.flights[j].runId;
    }
  }

  lemma ReleaseIds(records: Records, session: string, runId: string, other: string)
    ensures RecordOf(AfterRelease(records, session, runId), other).activeRunIds ==
            if other == session then Without(RecordOf(records, session).activeRunIds, runId)
            else RecordOf(records, other).activeRunIds
  {
    if runId !in RecordOf(records, session).activeRunIds {
      WithoutAbsent(RecordOf(records, session).activeRunIds, runId);
    }
  }

  lemma FinishIds(s: System, session: string, runId: string, other: string)
    requires RunsInv(s) && Possible(s, Finish(session, runId))
    ensures RecordOf(AfterRelease(s.records, session, runId), other).activeRunIds ==
            Registered(FlightsWithout(s.flights, runId), other)
  {
    ReleaseIds(s.records, session, runId, other);
    RegisteredWithout(s.flights, other, runId);
    if other != session {
      RunIdIsLocal(s, session, runId, other);
      WithoutAbsent(Registered(s.flights, other), runId);
    }
  }

  lemma FinishKeepsRuns(s: System, e: Event)
    requires RunsInv(s) && e.Finish? && Possible(s, e)
    ensures RunsInv(Step(s, e))
  {
    var s1 := Step(s, e);
    FlightsWithoutMembers(s.flights, e.runId);
    FlightsWithoutDistinct(s.flights, e.runId);
    forall i | 0 <= i < |s1.flights| ensures s1.flights[i].runId in s.usedRunIds {
      assert s1.flights[i] in s.flights;
    }
    forall session ensures RecordOf(s1.records, session).activeRunIds == Registered(s1.flights, session) {
      FinishIds(s, e.session, e.runId, session);
    }
  }

  lemma CloseKeepsRuns(s: System, e: Event)
    requires RunsInv(s) && e.Close?
    ensures RunsInv(Step(s, e))
  {
    forall session
      ensures RecordOf(Step(s, e).records, session).activeRunIds == Registered(Step(s, e).flights, session)
    {
      RegisteredAfterClose(s.flights, e.session, session);
    }
  }

  lemma StepKeepsRuns(s: System, e: Event)
    requires RunsInv(s) && Possible(s, e)
    ensures RunsInv(Step(s, e))
  {
    match e
    case Chat(_, _, _) => ChatKeepsRuns(s, e);
    case Finish(_, _) => FinishKeepsRuns(s, e);
    case Close(_) => CloseKeepsRuns(s, e);
    case StartEmission(_, _) =>
      assert forall session ::
          RecordOf(Step(s, e).records, session).activeRunIds == RecordOf(s.records, session).activeRunIds;
    case EndEmission(_, _, _) =>
      assert forall session ::
          RecordOf(Step(s, e).records, session).activeRunIds == RecordOf(s.records, session).activeRunIds;
  }

  lemma {:induction false} RunKeepsRuns(rejects: bool, events: seq<Event>)
    requires IsRun(rejects, events)
    ensures RunsInv(Exec(rejects, events)) && Exec(rejects, events).rejects == rejects
    decreases |events|
  {
    if events != [] {
      RunKeepsRuns(rejects, events[..|events| - 1]);
      StepKeepsRuns(Exec(rejects, events[..|events| - 1]), events[|events| - 1]);
    }
  }

  /** In every interleaving a session's registered ids are, in start order and without duplicates, exactly
      its runs in flight that no close_session has orphaned. */
  lemma {:induction false} RegisteredIdsAreLiveRuns(rejects: bool, events: seq<Event>, session: string)
    requires IsRun(rejects, events)
    ensures var s := Exec(rejects, events);
            var ids := RecordOf(s.records, session).activeRunIds;
            && ids == Registered(s.flights, session)
            && (forall runId :: runId in ids <==> Flight(session, runId, false) in s.flights)
            && (forall i, j :: 0 <= i < j < |ids| ==> ids[i] != ids[j])
  {
    RunKeepsRuns(rejects, events);
    var s := Exec(rejects, events);
    forall runId ensures runId in Registered(s.flights, session) <==> Flight(session, runId, false) in s.flights {
      RegisteredMembers(s.flights, session, runId);
    }
    RegisteredDistinct(s.flights, session);
  }

  // Whenever the session was closed, none of its runs was in flight.
  ghost predicate ClosedOnlyWhenIdle(rejects: bool, events: seq<Event>, session: string) {
    forall k :: 0 <= k < |events| && events[k] == Close(session) ==>
                  forall f :: f in Exec(rejects, events[..k]).flights ==> f.session != session
  }

  lemma StepOrphansNothing(s: System, e: Event, session: string)
    requires forall f :: f in s.flights && f.session == session ==> !f.orphaned
    requires e == Close(session) ==> forall f :: f in s.flights ==> f.session != session
    ensures forall f :: f in Step(s, e).flights && f.session == session ==> !f.orphaned
  {
    if e.Finish? {
      FlightsWithoutMembers(s.flights, e.runId);
    }
    if e.Close? {
      forall f | f in Step(s, e).flights && f.session == session ensures !f.orphaned {
        var i :| 0 <= i < |s.flights| && Orphaned(s.flights, e.session)[i] == f;
        assert s.flights[i] in s.flights;
      }
    }
  }

  lemma {:induction false} NothingIsOrphaned(rejects: bool, events: seq<Event>, session: string, n: nat)
    requires ClosedOnlyWhenIdle(rejects, events, session) && n <= |events|
    ensures forall f :: f in Exec(rejects, events[..n]).flights && f.session == session ==> !f.orphaned
  {
    if n > 0 {
      NothingIsOrphaned(rejects, events, session, n - 1);
      ExecOneMore(rejects, events, n - 1);
      StepOrphansNothing(Exec(rejects, events[..n - 1]), events[n - 1], session);
    }
  }

  /** If the session was only ever closed while idle, the registered ids are all its runs in flight. */
  lemma {:induction false} IdleClosesKeepAllRunsRegistered(rejects: bool, events: seq<Event>, session: string,
      runId: string)
    requires IsRun(rejects, events) && ClosedOnlyWhenIdle(rejects, events, session)
    ensures runId in RecordOf(Exec(rejects, events).records, session).activeRunIds <==>
            exists f :: f in Exec(rejects, events).flights && f.session == session && f.runId == runId
  {
    RegisteredIdsAreLiveRuns(rejects, events, session);
    NothingIsOrphaned(rejects, events, session, |events|);
    assert events[..|events|] == events;
    var flights := Exec(rejects, events).flights;
    if f :| f in flights && f.session == session && f.runId == runId {
      assert f == Flight(session, runId, false);
    }
  }

  // ---- Policy `reject` ----

  // No two runs of the session are in flight.
  ghost predicate OneInFlight(s: System, session: string) {
    forall f, g :: f in s.flights && g in s.flights && f.session == session && g.session == session ==> f == g
  }

  // A chat is admitted although a run that a close has orphaned is still in flight.
  ghost predicate AdmitsBesideOrphan(s: System, e: Event, session: string) {
    && e.Chat? && e.session == session && !Rejected(s, session)
    && exists f :: f in s.flights && f.session == session && f.orphaned
  }

  lemma ChatKeepsOneExactly(s: System, e: Event)
    requires RunsInv(s) && s.rejects && e.Chat? && Possible(s, e) && OneInFlight(s, e.session)
    ensures OneInFlight(Step(s, e), e.session) <==> !AdmitsBesideOrphan(s, e, e.session)
  {
    if !Rejected(s, e.session) {
      var added := Flight(e.session, e.runId, false);
      var flights := Step(s, e).flights;
      assert flights[|s.flights|] == added;
      assert forall f :: f in flights <==> f in s.flights || f == added;
      forall f | f in s.flights && f.session == e.session ensures f.orphaned && f != added {
        RegisteredMembers(s.flights, e.session, f.runId);
        assert RecordOf(s.records, e.session).activeRunIds == Registered(s.flights, e.session);
        assert f == Flight(e.session, f.runId, f.orphaned);
      }
    }
  }

  lemma StepKeepsOneExactly(s: System, e: Event, session: string)
    requires RunsInv(s) && s.rejects && Possible(s, e) && OneInFlight(s, session)
    ensures OneInFlight(Step(s, e), session) <==> !AdmitsBesideOrphan(s, e, session)
  {
    match e
    case Chat(chatted, _, _) =>
      if chatted == session {
        ChatKeepsOneExactly(s, e);
      }
    case Finish(_, runId) => FlightsWithoutMembers(s.flights, runId);
    case Close(_) =>
    case StartEmission(_, _) =>
    case EndEmission(_, _, _) =>
  }

  lemma PrefixesAreRuns(rejects: bool, events: seq<Event>, k: nat)
    requires IsRun(rejects, events) && k <= |events|
    ensures IsRun(rejects, events[..k])
    ensures k < |events| ==> Possible(Exec(rejects, events[..k]), events[k])
    decreases |events|
  {
    if k == |events| {
      assert events[..k] == events;
    } else if k < |events| - 1 {
      var front := events[..|events| - 1];
      assert front[..k] == events[..k] && front[k] == events[k];
      PrefixesAreRuns(rejects, front, k);
    }
  }

  lemma {:induction false} OneInFlightUpTo(events: seq<Event>, session: string, n: nat)
    requires IsRun(true, events) && n <= |events|
    requires forall k :: 0 <= k < n ==> !AdmitsBesideOrphan(Exec(true, events[..k]), events[k], session)
    ensures OneInFlight(Exec(true, events[..n]), session)
  {
    if n > 0 {
      OneInFlightUpTo(events, session, n - 1);
      NextPrefix(events, session, n - 1);
    }
  }

  lemma ExecOneMore(rejects: bool, events: seq<Event>, k: nat)
    requires k < |events|
    ensures Exec(rejects, events[..k + 1]) == Step(Exec(rejects, events[..k]), events[k])
  {
    assert events[..k + 1][..k] == events[..k];
  }

  lemma NextPrefix(events: seq<Event>, session: string, k: nat)
    requires IsRun(true, events) && k < |events| && OneInFlight(Exec(true, events[..k]), session)
    ensures OneInFlight(Exec(true, events[..k + 1]), session) <==>
            !AdmitsBesideOrphan(Exec(true, events[..k]), events[k], session)
  {
    PrefixesAreRuns(true, events, k);
    RunKeepsRuns(true, events[..k]);
    var s := Exec(true, events[..k]);
    ExecOneMore(true, events, k);
    StepKeepsOneExactly(s, events[k], session);
  }

  /** Under policy `reject`, closes or not: at most one run of the session is ever in flight if and only if no
      chat is admitted beside a run that a close has orphaned. */
  lemma {:induction false} OneInFlightExactly(events: seq<Event>, session: string)
    requires IsRun(true, events)
    ensures (forall k :: 0 <= k <= |events| ==> OneInFlight(Exec(true, events[..k]), session)) <==>
            (forall k :: 0 <= k < |events| ==> !AdmitsBesideOrphan(Exec(true, events[..k]), events[k], session))
  {
    if forall k :: 0 <= k <= |events| ==> OneInFlight(Exec(true, events[..k]), session) {
      forall k | 0 <= k < |events| ensures !AdmitsBesideOrphan(Exec(true, events[..k]), events[k], session) {
        assert OneInFlight(Exec(true, events[..k + 1]), session);
        NextPrefix(events, session, k);
      }
    }
    if forall k :: 0 <= k < |events| ==> !AdmitsBesideOrphan(Exec(true, events[..k]), events[k], session) {
      forall k | 0 <= k <= |events| ensures OneInFlight(Exec(true, events[..k]), session) {
        OneInFlightUpTo(events, session, k);
      }
    }
  }

  /** In particular if the session was only ever closed while idle. */
  lemma RejectMeansOneInFlight(events: seq<Event>, session: string, i: nat, j: nat)
    requires IsRun(true, events) && ClosedOnlyWhenIdle(true, events, session)
    requires i < |Exec(true, events).flights| && Exec(true, events).flights[i].session == session
    requires j < |Exec(true, events).flights| && Exec(true, events).flights[j].session == session
    ensures i == j
  {
    forall k | 0 <= k < |events| ensures !AdmitsBesideOrphan(Exec(true, events[..k]), events[k], session) {
      NothingIsOrphaned(true, events, session, k);
    }
    OneInFlightExactly(events, session);
    RunKeepsRuns(true, events);
    assert events[..|events|] == events;
    assert OneInFlight(Exec(true, events[..|events|]), session);
  }

  /** Closing the session lets a second run in beside the first. */
  lemma {:induction false} CloseAdmitsASecondRun(session: string) returns (events: seq<Event>)
    ensures IsRun(true, events)
    ensures Exec(true, events).flights == [Flight(session, "a", true), Flight(session, "b", false)]
  {
    var e0 := Chat(session, "a", "");
    var e1 := Close(session);
    var e2 := Chat(session, "b", "");
    events := [e0, e1, e2];
    assert events[..2] == [e0, e1];
    assert [e0, e1][..1] == [e0];
    assert [e0][..0] == [];
    var s1 := Exec(true, [e0]);
    assert Exec(true, []) == Initial(true) &&
        Initial(true).flights + [Flight(session, "a", false)] == [Flight(session, "a", false)];
    assert s1 == ChatStep(Initial(true), session, "a", "");
    assert s1.flights == [Flight(session, "a", false)];
    var s2 := Exec(true, [e0, e1]);
    assert s2 == Step(s1, e1);
    assert s2.flights == [Flight(session, "a", true)];
    assert s2.usedRunIds == {"a"};
    assert session !in s2.records && !Rejected(s2, session);
    assert IsRun(true, [e0]) && IsRun(true, [e0, e1]);
  }

  /** A chat is turned away exactly when the policy rejects and a run of the session is in flight unorphaned. */
  lemma RejectedExactlyWhenRunning(rejects: bool, events: seq<Event>, session: string)
    requires IsRun(rejects, events)
    ensures Rejected(Exec(rejects, events), session) <==>
            rejects && exists f :: f in Exec(rejects, events).flights && f.session == session && !f.orphaned
  {
    RegisteredIdsAreLiveRuns(rejects, events, session);
    RunKeepsRuns(rejects, events);
    var s := Exec(rejects, events);
    var ids := RecordOf(s.records, session).activeRunIds;
    if ids != [] {
      assert ids[0] in ids;
      assert Flight(session, ids[0], false) in s.flights;
    }
    forall f | f in s.flights && f.session == session && !f.orphaned ensures f.runId in ids {
      assert f == Flight(session, f.runId, false);
    }
  }

  /** The end of one run takes its own id off its own session's list and disturbs nothing else. */
  lemma ReleaseTakesOnlyItsOwn(rejects: bool, events: seq<Event>, session: string, runId: string, other: string,
      id: string)
    requires IsRun(rejects, events) && Possible(Exec(rejects, events), Finish(session, runId))
    requires other != session || id != runId
    ensures var s := Exec(rejects, events);
            id in RecordOf(Step(s, Finish(session, runId)).records, other).activeRunIds <==>
            id in RecordOf(s.records, other).activeRunIds
  {
    var s := Exec(rejects, events);
    RunKeepsRuns(rejects, events);
    WithoutKeepsOthers(RecordOf(s.records, session).activeRunIds, runId, id);
  }

  lemma {:induction false} WithoutKeepsOthers(ids: seq<string>, runId: string, id: string)
    ensures id in Without(ids, runId) <==> id in ids && id != runId
  {
    if ids != [] {
      WithoutKeepsOthers(ids[..|ids| - 1], runId, id);
      assert ids == ids[..|ids| - 1] + [ids[|ids| - 1]];
    }
  }

  /** A session's first welink id is kept until the session is closed. */
  lemma WelinkIsKept(s: System, e: Event, session: string)
    requires e != Close(session)
    ensures var before := RecordOf(s.records, session).welinkSessionId;
            var after := RecordOf(Step(s, e).records, session).welinkSessionId;
            after == if before == "" && e.Chat? && e.session == session && !Rejected(s, session) then e.welink
                     else before
  {
  }

  // ---- The use case's two synchronous ends; the run itself happens between them ----

  class StartRequestRunUseCase {
    const registry: InMemorySessionRuntimeRegistry
    const rejects: bool

    constructor (registry: InMemorySessionRuntimeRegistry, rejects: bool)
      ensures this.registry == registry && this.rejects == rejects
    {
      this.registry, this.rejects := registry, rejects;
    }

    // The check, the registration and the session record, in one synchronous stretch;
    // `!started` stands for the thrown run_already_active. Also yields the welink session id the run reports under.
    method Begin(ghost s: System, session: string, runId: string, welink: string)
      returns (started: bool, reportedUnder: string)
      requires registry.records == s.records && rejects == s.rejects
      modifies registry
      ensures started == !Rejected(s, session)
      ensures registry.records == Step(s, Chat(session, runId, welink)).records
      ensures started ==>
                reportedUnder == if welink != "" then welink else RecordOf(s.records, session).welinkSessionId
    {
      var activeRunIds := if session in registry.records then registry.records[session].activeRunIds else [];
      if |activeRunIds| > 0 && rejects {
        return false, "";
      }
      registry.RegisterRequestRun(session, runId);
      var record := registry.EnsureRecord(session, welink);
      return true, if welink != "" then welink else record.welinkSessionId;
    }

    // The `finally`.
    method End(ghost s: System, session: string, runId: string)
      requires registry.records == s.records
      modifies registry
      ensures registry.records == Step(s, Finish(session, runId)).records
    {
      registry.ReleaseRequestRun(session, runId);
    }
  }
}
