// The outbound slot of a session: one emission at a time, and when closing a session breaks that.
module OutboundSlot {
  import opened SessionRuns

  // An emission that gets the slot does not reuse the message id of one still in flight that a close orphaned.
  ghost predicate Careful(s: System, e: Event) {
    e.StartEmission? && CanAcquire(s.records, e.session) ==>
      forall em :: em in s.emissions && em.session == e.session && em.orphaned ==> em.messageId != e.messageId
  }

  ghost predicate IsCarefulRun(rejects: bool, events: seq<Event>) {
    events == [] ||
    (IsCarefulRun(rejects, events[..|events| - 1]) &&
     Possible(Exec(rejects, events[..|events| - 1]), events[|events| - 1]) &&
     Careful(Exec(rejects, events[..|events| - 1]), events[|events| - 1]))
  }

  predicate Holds(s: System, emission: Emission) {
    emission in s.emissions && !emission.orphaned
  }

  // A taken slot is held by an emission in flight.
  ghost predicate SlotIsHeld(s: System, session: string) {
    RecordOf(s.records, session).outbound.Emitting? ==> exists em :: Holds(s, em) && em.session == session
  }

  ghost predicate SlotInv(s: System) {
    && (forall em :: em in s.emissions ==> em.id < s.nextEmission)
    && IdsAreUnique(s.emissions)
    && (forall em :: Holds(s, em) ==> RecordOf(s.records, em.session).outbound == Emitting(em.messageId))
    && (forall em, other :: Holds(s, em) && Holds(s, other) && em.session == other.session ==> em == other)
    && (forall em, other :: Holds(s, em) && other in s.emissions && other.orphaned && em.session == other.session ==>
          em.messageId != other.messageId)
    && (forall session :: SlotIsHeld(s, session))
  }

  lemma StartKeepsSlot(s: System, e: Event)
    requires SlotInv(s) && e.StartEmission? && Careful(s, e)
    ensures SlotInv(Step(s, e))
  {
    if CanAcquire(s.records, e.session) {
      AcquireKeepsSlot(s, e);
    } else {
      forall session ensures SlotIsHeld(Step(s, e), session) {
        HeldTransfers(s, Step(s, e), session);
      }
    }
  }

  lemma AcquireKeepsIds(s: System, e: Event)
    requires SlotInv(s) && e.StartEmission? && CanAcquire(s.records, e.session)
    ensures var s1 := Step(s, e);
            (forall em :: em in s1.emissions ==> em.id < s1.nextEmission) && IdsAreUnique(s1.emissions)
  {
  }

  lemma AcquireKeepsSlot(s: System, e: Event)
    requires SlotInv(s) && e.StartEmission? && Careful(s, e) && CanAcquire(s.records, e.session)
    ensures SlotInv(Step(s, e))
  {
    var s1 := Step(s, e);
    var added := Emission(e.session, e.messageId, s.nextEmission, false);
    AcquireKeepsIds(s, e);
    assert Holds(s1, added);
    assert forall em :: Holds(s1, em) ==> em == added || (Holds(s, em) && em.session != e.session);
    forall session ensures SlotIsHeld(s1, session) {
      AcquiredIsHeld(s, e, session);
    }
  }

  lemma AcquiredIsHeld(s: System, e: Event, session: string)
    requires SlotInv(s) && e.StartEmission? && CanAcquire(s.records, e.session)
    ensures SlotIsHeld(Step(s, e), session)
  {
    assert SlotIsHeld(s, session);
    if session == e.session {
      assert Holds(Step(s, e), Emission(e.session, e.messageId, s.nextEmission, false));
    } else if RecordOf(s.records, session).outbound.Emitting? {
      var em :| Holds(s, em) && em.session == session;
      assert Holds(Step(s, e), em);
    }
  }

  lemma HeldTransfers(s: System, t: System, session: string)
    requires SlotIsHeld(s, session)
    requires RecordOf(t.records, session).outbound.Emitting? ==> RecordOf(s.records, session).outbound.Emitting?
    requires RecordOf(t.records, session).outbound.Emitting? ==>
               forall em :: Holds(s, em) && em.session == session ==> Holds(t, em)
    ensures SlotIsHeld(t, session)
  {
    if RecordOf(t.records, session).outbound.Emitting? {
      var em :| Holds(s, em) && em.session == session;
      assert Holds(t, em);
    }
  }

  // The end of an orphan finds the slot free or taken by another message.
  lemma OrphanEndLeavesSlot(s: System, orphan: Emission)
    requires SlotInv(s) && orphan in s.emissions && orphan.orphaned
    ensures RecordOf(s.records, orphan.session).outbound != Emitting(orphan.messageId)
  {
    assert SlotIsHeld(s, orphan.session);
    if RecordOf(s.records, orphan.session).outbound.Emitting? {
      var holder :| Holds(s, holder) && holder.session == orphan.session;
      assert holder.messageId != orphan.messageId;
    }
  }

  lemma EndKeepsSlot(s: System, e: Event)
    requires SlotInv(s) && e.EndEmission? && Possible(s, e)
    ensures SlotInv(Step(s, e))
  {
    var s1 := Step(s, e);
    var orphan, held := Emission(e.session, e.messageId, e.id, true), Emission(e.session, e.messageId, e.id, false);
    if orphan in s.emissions {
      OrphanEndLeavesSlot(s, orphan);
      assert held !in s.emissions;
      assert s1.records == s.records;
      forall session ensures SlotIsHeld(s1, session) {
        HeldTransfers(s, s1, session);
      }
    } else {
      assert Holds(s, held);
      assert forall em :: Holds(s1, em) ==> Holds(s, em) && em.session != e.session;
      forall session ensures SlotIsHeld(s1, session) {
        HeldTransfers(s, s1, session);
      }
    }
  }

  // Closing only marks emissions of the closed session.
  lemma OrphanedMember(emissions: set<Emission>, session: string, em: Emission)
    requires em in OrphanedEmissions(emissions, session)
    ensures em.session != session ==> em in emissions
    ensures em.session == session ==> em.orphaned && (em in emissions || em.(orphaned := false) in emissions)
  {
    var was :| was in emissions && em == if was.session == session then was.(orphaned := true) else was;
    assert em.session == session ==> was == em || was == em.(orphaned := false);
  }

  // No two emissions share an id.
  ghost predicate IdsAreUnique(emissions: set<Emission>) {
    forall em, other :: em in emissions && other in emissions && em.id == other.id ==> em == other
  }

  lemma OrphanedIdsAreUnique(emissions: set<Emission>, session: string)
    requires IdsAreUnique(emissions)
    ensures IdsAreUnique(OrphanedEmissions(emissions, session))
  {
    forall em, other | em in OrphanedEmissions(emissions, session) &&
        other in OrphanedEmissions(emissions, session) && em.id == other.id
      ensures em == other
    {
      OrphanedMember(emissions, session, em);
      OrphanedMember(emissions, session, other);
    }
  }

  lemma CloseKeepsSlot(s: System, e: Event)
    requires SlotInv(s) && e.Close?
    ensures SlotInv(Step(s, e))
  {
    var s1 := Step(s, e);
    OrphanedIdsAreUnique(s.emissions, e.session);
    forall em | em in s1.emissions
      ensures em.id < s1.nextEmission
      ensures em.session != e.session ==> em in s.emissions
      ensures em.session == e.session ==> em.orphaned
    {
      OrphanedMember(s.emissions, e.session, em);
    }
    forall session ensures SlotIsHeld(s1, session) {
      HeldTransfers(s, s1, session);
    }
  }

  lemma StepKeepsSlot(s: System, e: Event)
    requires SlotInv(s) && Careful(s, e) && Possible(s, e)
    ensures SlotInv(Step(s, e))
  {
    match e
    case StartEmission(_, _) => StartKeepsSlot(s, e);
    case EndEmission(_, _, _) => EndKeepsSlot(s, e);
    case Close(_) => CloseKeepsSlot(s, e);
    case Chat(_, _, _) => SlotUntouched(s, Step(s, e));
    case Finish(_, _) => SlotUntouched(s, Step(s, e));
  }

  lemma SlotUntouched(s: System, t: System)
    requires SlotInv(s) && t.emissions == s.emissions && t.nextEmission == s.nextEmission
    requires forall session :: RecordOf(t.records, session).outbound == RecordOf(s.records, session).outbound
    ensures SlotInv(t)
  {
    forall session ensures SlotIsHeld(t, session) {
      HeldTransfers(s, t, session);
    }
  }

  lemma {:induction false} RunKeepsSlot(rejects: bool, events: seq<Event>)
    requires IsCarefulRun(rejects, events)
    ensures SlotInv(Exec(rejects, events))
    decreases |events|
  {
    if events != [] {
      RunKeepsSlot(rejects, events[..|events| - 1]);
      StepKeepsSlot(Exec(rejects, events[..|events| - 1]), events[|events| - 1]);
    }
  }

  /** The slot is taken exactly while an emission started since the last close is in flight, by that one
      emission, provided no message id is reused while an orphan of it still runs. */
  lemma {:induction false} OneEmissionAtATime(rejects: bool, events: seq<Event>, session: string)
    requires IsCarefulRun(rejects, events)
    ensures var s := Exec(rejects, events);
            && (forall em :: Holds(s, em) && em.session == session ==>
                  RecordOf(s.records, session).outbound == Emitting(em.messageId))
            && (RecordOf(s.records, session).outbound.Emitting? ==> exists em :: Holds(s, em) && em.session == session)
            && (forall em, other ::
                  Holds(s, em) && Holds(s, other) && em.session == session && other.session == session ==>
                    em == other)
  {
    RunKeepsSlot(rejects, events);
    assert SlotIsHeld(Exec(rejects, events), session);
  }

  lemma ReusedIdIsFreed(s: System, orphan: Emission)
    requires SlotInv(s) && orphan in s.emissions && orphan.orphaned && CanAcquire(s.records, orphan.session)
    ensures var s1 := Step(s, StartEmission(orphan.session, orphan.messageId));
            var s2 := Step(s1, EndEmission(orphan.session, orphan.messageId, orphan.id));
            var second := Emission(orphan.session, orphan.messageId, s.nextEmission, false);
            && Possible(s1, EndEmission(orphan.session, orphan.messageId, orphan.id))
            && Holds(s2, second) && CanAcquire(s2.records, orphan.session) && s2.nextEmission == s.nextEmission + 1
  {
    assert orphan == Emission(orphan.session, orphan.messageId, orphan.id, true);
    assert orphan.id < s.nextEmission;
    var s1 := Step(s, StartEmission(orphan.session, orphan.messageId));
    var second := Emission(orphan.session, orphan.messageId, s.nextEmission, false);
    assert s1.emissions == s.emissions + {second};
    assert RecordOf(s1.records, orphan.session).outbound == Emitting(orphan.messageId);
  }

  /** Without any close no proviso is needed: nothing is ever orphaned. */
  lemma {:induction false} NoCloseIsCareful(rejects: bool, events: seq<Event>)
    requires IsRun(rejects, events) && forall i :: 0 <= i < |events| ==> !events[i].Close?
    ensures IsCarefulRun(rejects, events)
    ensures forall em :: em in Exec(rejects, events).emissions ==> !em.orphaned
    decreases |events|
  {
    if events != [] {
      var front := events[..|events| - 1];
      assert forall i :: 0 <= i < |front| ==> front[i] == events[i];
      NoCloseIsCareful(rejects, front);
    }
  }

  // No orphan in flight can free the slot when it ends.
  ghost predicate OrphansAreHarmless(s: System) {
    forall em :: em in s.emissions && em.orphaned ==>
                   AfterReleaseOutbound(s.records, em.session, em.messageId) == s.records
  }

  /** The proviso is exact: after careful steps, a further event leaves every orphan harmless if and only if it
      is careful too; a careless one puts the new emission's slot at the mercy of the orphan. */
  lemma HarmlessExactlyWhenCareful(rejects: bool, events: seq<Event>, e: Event)
    requires IsCarefulRun(rejects, events) && Possible(Exec(rejects, events), e)
    ensures Careful(Exec(rejects, events), e) <==> OrphansAreHarmless(Step(Exec(rejects, events), e))
  {
    RunKeepsSlot(rejects, events);
    var s := Exec(rejects, events);
    var t := Step(s, e);
    if Careful(s, e) {
      StepKeepsSlot(s, e);
      forall em | em in t.emissions && em.orphaned
        ensures AfterReleaseOutbound(t.records, em.session, em.messageId) == t.records
      {
        OrphanEndLeavesSlot(t, em);
      }
    } else {
      var em :| em in s.emissions && em.session == e.session && em.orphaned && em.messageId == e.messageId;
      assert em in t.emissions;
      assert RecordOf(t.records, em.session).outbound == Emitting(em.messageId);
    }
  }

  // Two emissions of the session, one started right after the other, hold its slot together.
  predicate TwoHold(s: System, session: string, first: string, second: string, id: nat) {
    Holds(s, Emission(session, first, id, false)) && Holds(s, Emission(session, second, id + 1, false))
  }

  lemma FreeSlotAdmits(s: System, session: string, held: string, messageId: string, id: nat)
    requires CanAcquire(s.records, session) && Holds(s, Emission(session, held, id, false)) && s.nextEmission == id + 1
    ensures TwoHold(Step(s, StartEmission(session, messageId)), session, held, messageId, id)
  {
  }

  // The orphan's message id is reused, then the orphan ends.
  function Overtaken(s: System, orphan: Emission): System {
    Step(Step(s, StartEmission(orphan.session, orphan.messageId)),
         EndEmission(orphan.session, orphan.messageId, orphan.id))
  }

  /** A careless start, that is, a message id reused beside its orphan while the slot is free: the orphan's end
      frees the slot under the new emission and a third one gets in. */
  lemma OrphanFreesForeignSlot(rejects: bool, events: seq<Event>, orphan: Emission, third: string)
    requires IsCarefulRun(rejects, events)
    requires orphan in Exec(rejects, events).emissions && orphan.orphaned
    requires CanAcquire(Exec(rejects, events).records, orphan.session)
    ensures var s := Exec(rejects, events);
            TwoHold(Step(Overtaken(s, orphan), StartEmission(orphan.session, third)),
                    orphan.session, orphan.messageId, third, s.nextEmission)
  {
    RunKeepsSlot(rejects, events);
    var s := Exec(rejects, events);
    ReusedIdIsFreed(s, orphan);
    FreeSlotAdmits(Overtaken(s, orphan), orphan.session, orphan.messageId, third, s.nextEmission);
  }

  lemma CloseOrphansTheHolder(s: System, held: Emission)
    requires Holds(s, held)
    ensures var t := Step(s, Close(held.session));
            held.(orphaned := true) in t.emissions && CanAcquire(t.records, held.session)
  {
  }

  /** Such an orphan is reached by starting an emission and closing the session; so two emissions of one session
      can hold its slot together. */
  lemma {:induction false} TwoEmissionsAtOnce(rejects: bool, session: string, messageId: string, third: string)
    returns (events: seq<Event>)
    ensures IsRun(rejects, events)
    ensures TwoHold(Exec(rejects, events), session, messageId, third, 1)
  {
    events := OneMore(rejects, [], StartEmission(session, messageId));
    CloseOrphansTheHolder(Exec(rejects, events), Emission(session, messageId, 0, false));
    events := OneMore(rejects, events, Close(session));
    var orphan := Emission(session, messageId, 0, true);
    OrphanFreesForeignSlot(rejects, events, orphan, third);
    RunKeepsSlot(rejects, events);
    ReusedIdIsFreed(Exec(rejects, events), orphan);
    events := OneMore(rejects, events, StartEmission(session, messageId));
    events := OneMore(rejects, events, EndEmission(session, messageId, 0));
    events := OneMore(rejects, events, StartEmission(session, third));
  }

  // One possible event more.
  lemma OneMore(rejects: bool, events: seq<Event>, e: Event) returns (longer: seq<Event>)
    requires IsRun(rejects, events) && Possible(Exec(rejects, events), e)
    ensures IsRun(rejects, longer) && Exec(rejects, longer) == Step(Exec(rejects, events), e)
    ensures IsCarefulRun(rejects, events) && Careful(Exec(rejects, events), e) ==> IsCarefulRun(rejects, longer)
  {
    longer := events + [e];
    assert longer[..|events|] == events;
  }
}
