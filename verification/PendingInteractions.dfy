// Reply tokens: which session a question or permission reply belongs to
// (bridge-runtime-sdk/src/infrastructure/registries/InMemoryPendingInteractionRegistry.ts,
// application/coordinators/InteractionCoordinator.ts).
module PendingInteractions {
  import opened Prelude
  import opened FactSequence

  datatype Kind = Question | Permission

  datatype Interaction = Interaction(toolSessionId: string, kind: Kind, tokenId: string, messageId: Option<string>)

  datatype Registration = Registered | DuplicateSameSession | ConflictCrossSession(existing: Interaction)

  function KindName(kind: Kind): string {
    if kind.Question? then "question" else "permission"
  }

  function Key(kind: Kind, tokenId: string): string {
    KindName(kind) + ":" + tokenId
  }

  /** The flat string key tells kinds and tokens apart. */
  lemma KeyIsInjective(kind: Kind, tokenId: string, otherKind: Kind, otherToken: string)
    ensures Key(kind, tokenId) == Key(otherKind, otherToken) <==> kind == otherKind && tokenId == otherToken
  {
    var key, other := Key(kind, tokenId), Key(otherKind, otherToken);
    var n := |KindName(kind)| + 1;
    assert key[0] == KindName(kind)[0] && other[0] == KindName(otherKind)[0];
    assert key[n..] == tokenId;
    assert kind == otherKind ==> other[n..] == otherToken;
  }

  type Records = map<string, Interaction>

  function RegisterResult(records: Records, record: Interaction): Registration {
    var key := Key(record.kind, record.tokenId);
    if key !in records then Registered
    else if records[key].toolSessionId == record.toolSessionId then DuplicateSameSession
    else ConflictCrossSession(records[key])
  }

  function AfterRegister(records: Records, record: Interaction): Records {
    if RegisterResult(records, record).Registered? then records[Key(record.kind, record.tokenId) := record] else records
  }

  function Find(records: Records, kind: Kind, tokenId: string): Option<Interaction> {
    if Key(kind, tokenId) in records then Some(records[Key(kind, tokenId)]) else None
  }

  function AfterConsume(records: Records, kind: Kind, tokenId: string): Records {
    records - {Key(kind, tokenId)}
  }

  // ---- Whole histories ----

  // `Pass`: nothing is asked of the registry.
  datatype Call = Ask(record: Interaction) | Reply(kind: Kind, tokenId: string) | Pass

  function Run(history: seq<Call>): Records {
    if history == [] then map[]
    else
      var records := Run(history[..|history| - 1]);
      match history[|history| - 1]
      case Ask(record) => AfterRegister(records, record)
      case Reply(kind, tokenId) => AfterConsume(records, kind, tokenId)
      case Pass => records
  }

  predicate Asks(call: Call, kind: Kind, tokenId: string) {
    call.Ask? && call.record.kind == kind && call.record.tokenId == tokenId
  }

  // The i-th call is the first ask of this token since its last reply, and no reply came after it.
  ghost predicate IsOpenAsk(history: seq<Call>, i: int, kind: Kind, tokenId: string) {
    && 0 <= i < |history| && Asks(history[i], kind, tokenId)
    && (forall j :: i < j < |history| ==> history[j] != Reply(kind, tokenId))
    && (forall j :: 0 <= j < i && Asks(history[j], kind, tokenId) ==>
          exists l :: j < l < i && history[l] == Reply(kind, tokenId))
  }

  // The number of calls that registered, respectively took, a record for this token.
  function Registers(history: seq<Call>, kind: Kind, tokenId: string): nat {
    if history == [] then 0
    else
      var front, last := history[..|history| - 1], history[|history| - 1];
      Registers(front, kind, tokenId) +
      if Asks(last, kind, tokenId) && RegisterResult(Run(front), last.record).Registered? then 1 else 0
  }

  function Consumes(history: seq<Call>, kind: Kind, tokenId: string): nat {
    if history == [] then 0
    else
      var front, last := history[..|history| - 1], history[|history| - 1];
      Consumes(front, kind, tokenId) +
      if last == Reply(kind, tokenId) && Find(Run(front), kind, tokenId).Some? then 1 else 0
  }

  // One call changes the entry of its own token only.
  lemma CallIsLocal(history: seq<Call>, kind: Kind, tokenId: string)
    requires history != []
    ensures var front, last := history[..|history| - 1], history[|history| - 1];
            var before, after := Find(Run(front), kind, tokenId), Find(Run(history), kind, tokenId);
            if Asks(last, kind, tokenId) then after == if before.None? then Some(last.record) else before
            else if last == Reply(kind, tokenId) then after.None?
            else after == before
  {
    var last := history[|history| - 1];
    match last
    case Ask(record) => KeyIsInjective(record.kind, record.tokenId, kind, tokenId);
    case Reply(k, t) => KeyIsInjective(k, t, kind, tokenId);
    case Pass =>
  }

  /** Successful registers minus successful consumes of a token is 0 or 1, and 1 exactly while it is pending. */
  lemma {:induction false} PendingBalance(history: seq<Call>, kind: Kind, tokenId: string)
    ensures Registers(history, kind, tokenId) ==
            Consumes(history, kind, tokenId) + if Find(Run(history), kind, tokenId).Some? then 1 else 0
  {
    if history != [] {
      PendingBalance(history[..|history| - 1], kind, tokenId);
      CallIsLocal(history, kind, tokenId);
    }
  }

  lemma OpenAskIsUnique(history: seq<Call>, i: int, j: int, kind: Kind, tokenId: string)
    requires IsOpenAsk(history, i, kind, tokenId) && IsOpenAsk(history, j, kind, tokenId)
    ensures i == j
  {
  }

  lemma OpenAskExtends(history: seq<Call>, i: nat, kind: Kind, tokenId: string)
    requires history != [] && i < |history| - 1
    ensures IsOpenAsk(history, i, kind, tokenId) <==>
            IsOpenAsk(history[..|history| - 1], i, kind, tokenId) && history[|history| - 1] != Reply(kind, tokenId)
  {
    var front := history[..|history| - 1];
    assert forall j :: 0 <= j < |front| ==> front[j] == history[j];
    if IsOpenAsk(history, i, kind, tokenId) {
      forall j | 0 <= j < i && Asks(front[j], kind, tokenId)
        ensures exists l :: j < l < i && front[l] == Reply(kind, tokenId)
      {
        var l :| j < l < i && history[l] == Reply(kind, tokenId);
        assert front[l] == Reply(kind, tokenId);
      }
    }
    if IsOpenAsk(front, i, kind, tokenId) {
      forall j | 0 <= j < i && Asks(history[j], kind, tokenId)
        ensures exists l :: j < l < i && history[l] == Reply(kind, tokenId)
      {
        assert Asks(front[j], kind, tokenId);
        var l :| j < l < i && front[l] == Reply(kind, tokenId);
        assert history[l] == Reply(kind, tokenId);
      }
    }
  }

  // With nothing pending, every earlier ask has been replied to.
  lemma {:induction false} NothingPendingMeansReplied(history: seq<Call>, j: nat, kind: Kind, tokenId: string)
    requires j < |history| && Asks(history[j], kind, tokenId) && Find(Run(history), kind, tokenId).None?
    ensures exists l :: j < l < |history| && history[l] == Reply(kind, tokenId)
    decreases |history|
  {
    CallIsLocal(history, kind, tokenId);
    var front, last := history[..|history| - 1], history[|history| - 1];
    if last == Reply(kind, tokenId) {
      if j == |history| - 1 {
        assert false;
      }
    } else {
      assert j < |front| && front[j] == history[j];
      NothingPendingMeansReplied(front, j, kind, tokenId);
      var l :| j < l < |front| && front[l] == Reply(kind, tokenId);
      assert history[l] == front[l];
    }
  }

  // ... and with something pending, none has been since the pending one was stored.
  lemma {:induction false} PendingIsAnOpenAsk(history: seq<Call>, kind: Kind, tokenId: string) returns (i: nat)
    requires Find(Run(history), kind, tokenId).Some?
    ensures IsOpenAsk(history, i, kind, tokenId)
    ensures history[i].record == Find(Run(history), kind, tokenId).value
    decreases |history|
  {
    assert history != [];
    CallIsLocal(history, kind, tokenId);
    var front, last := history[..|history| - 1], history[|history| - 1];
    if Find(Run(front), kind, tokenId).Some? {
      i := PendingIsAnOpenAsk(front, kind, tokenId);
      OpenAskExtends(history, i, kind, tokenId);
    } else {
      i := |history| - 1;
      forall j | 0 <= j < i && Asks(history[j], kind, tokenId)
        ensures exists l :: j < l < i && history[l] == Reply(kind, tokenId)
      {
        assert front[j] == history[j];
        NothingPendingMeansReplied(front, j, kind, tokenId);
        var l :| j < l < |front| && front[l] == Reply(kind, tokenId);
        assert history[l] == front[l];
      }
    }
  }

  /** A reply to a token reaches the record of the first ask since the token was last replied to;
      it is missed exactly when every ask of it has been replied to. */
  lemma ReplyReachesTheAsker(history: seq<Call>, kind: Kind, tokenId: string, record: Interaction)
    ensures Find(Run(history), kind, tokenId) == Some(record) <==>
            exists i :: IsOpenAsk(history, i, kind, tokenId) && history[i].record == record
  {
    if Find(Run(history), kind, tokenId).Some? {
      var k := PendingIsAnOpenAsk(history, kind, tokenId);
      forall i | IsOpenAsk(history, i, kind, tokenId) ensures i == k {
        OpenAskIsUnique(history, i, k, kind, tokenId);
      }
    } else {
      forall i | 0 <= i < |history| ensures !IsOpenAsk(history, i, kind, tokenId) {
        if IsOpenAsk(history, i, kind, tokenId) {
          NothingPendingMeansReplied(history, i, kind, tokenId);
          assert false;
        }
      }
    }
  }

  /** An ask conflicts exactly when a different session's ask of the same token is still open;
      the open one keeps the token. */
  lemma ConflictMeansForeignOpenAsk(history: seq<Call>, record: Interaction)
    ensures RegisterResult(Run(history), record).ConflictCrossSession? <==>
            exists i :: IsOpenAsk(history, i, record.kind, record.tokenId)
                        && history[i].record.toolSessionId != record.toolSessionId
    ensures RegisterResult(Run(history), record).ConflictCrossSession? ==>
              Run(history + [Ask(record)]) == Run(history)
  {
    assert (history + [Ask(record)])[..|history|] == history;
    var found := Find(Run(history), record.kind, record.tokenId);
    if found.Some? {
      var k := PendingIsAnOpenAsk(history, record.kind, record.tokenId);
      forall i | IsOpenAsk(history, i, record.kind, record.tokenId) ensures i == k {
        OpenAskIsUnique(history, i, k, record.kind, record.tokenId);
      }
    } else {
      forall i | 0 <= i < |history| ensures !IsOpenAsk(history, i, record.kind, record.tokenId) {
        if IsOpenAsk(history, i, record.kind, record.tokenId) {
          NothingPendingMeansReplied(history, i, record.kind, record.tokenId);
          assert false;
        }
      }
    }
  }

  // ---- The registry and its coordinator ----

  class InMemoryPendingInteractionRegistry {
    var records: Records

    constructor ()
      ensures records == Run([])
    {
      records := map[];
    }

    method Register(record: Interaction) returns (result: Registration)
      modifies this
      ensures result == RegisterResult(old(records), record)
      ensures records == AfterRegister(old(records), record)
    {
      var key := Key(record.kind, record.tokenId);
      if key in records {
        var existing := records[key];
        if existing.toolSessionId == record.toolSessionId {
          return DuplicateSameSession;
        }
        return ConflictCrossSession(existing);
      }
      records := records[key := record];
      result := Registered;
    }

    method Consume(kind: Kind, tokenId: string) returns (record: Option<Interaction>)
      modifies this
      ensures record == Find(old(records), kind, tokenId)
      ensures records == AfterConsume(old(records), kind, tokenId)
    {
      var key := Key(kind, tokenId);
      if key in records {
        record := Some(records[key]);
        records := map k | k in records && k != key :: records[k];
      } else {
        record := None;
      }
    }
  }

  // The interaction a fact asks for.
  function InteractionOf(toolSessionId: string, fact: Fact): Option<Interaction> {
    match fact
    case QuestionAsk(messageId, questionId) => Some(Interaction(toolSessionId, Question, questionId, Some(messageId)))
    case PermissionAsk(messageId, _, permissionId, _) =>
      Some(Interaction(toolSessionId, Permission, permissionId, messageId))
    case _ => None
  }

  class InteractionCoordinator {
    const registry: InMemoryPendingInteractionRegistry

    constructor (registry: InMemoryPendingInteractionRegistry)
      ensures this.registry == registry
    {
      this.registry := registry;
    }

    // `conflict` stands for the thrown pending_interaction_conflict.
    method RegisterFromFact(toolSessionId: string, fact: Fact) returns (conflict: bool)
      modifies registry
      ensures var wanted := InteractionOf(toolSessionId, fact);
              if wanted.None? then !conflict && registry.records == old(registry.records)
              else conflict == RegisterResult(old(registry.records), wanted.value).ConflictCrossSession?
                   && registry.records == AfterRegister(old(registry.records), wanted.value)
    {
      if fact.QuestionAsk? {
        var result := registry.Register(Interaction(toolSessionId, Question, fact.questionId, Some(fact.messageId)));
        return result.ConflictCrossSession?;
      }
      if fact.PermissionAsk? {
        var result := registry.Register(Interaction(toolSessionId, Permission, fact.permissionId, fact.askMessageId));
        return result.ConflictCrossSession?;
      }
      conflict := false;
    }

    // None stands for the thrown pending_interaction_not_found.
    method Consume(kind: Kind, tokenId: string) returns (toolSessionId: Option<string>)
      modifies registry
      ensures var found := Find(old(registry.records), kind, tokenId);
              toolSessionId == if found.Some? then Some(found.value.toolSessionId) else None
      ensures registry.records == AfterConsume(old(registry.records), kind, tokenId)
    {
      var interaction := registry.Consume(kind, tokenId);
      toolSessionId := if interaction.Some? then Some(interaction.value.toolSessionId) else None;
    }
  }

  // ---- Facts and replies, as they come in ----

  // A fact seen in the stream of a session, or a reply that names a token.
  datatype Happening = Seen(session: string, fact: Fact) | Replied(kind: Kind, tokenId: string)

  predicate AsksFor(h: Happening, kind: Kind, tokenId: string) {
    h.Seen? && match kind
               case Question => h.fact.QuestionAsk? && h.fact.questionId == tokenId
               case Permission => h.fact.PermissionAsk? && h.fact.permissionId == tokenId
  }

  // The message an asking fact belongs to.
  function AskedIn(fact: Fact): Option<string>
    requires fact.QuestionAsk? || fact.PermissionAsk?
  {
    if fact.QuestionAsk? then Some(fact.messageId) else fact.askMessageId
  }

  // The i-th happening is the first such ask since the token was last replied to, and no reply came after it.
  ghost predicate IsOpen(history: seq<Happening>, i: int, kind: Kind, tokenId: string) {
    && 0 <= i < |history| && AsksFor(history[i], kind, tokenId)
    && (forall j :: i < j < |history| ==> history[j] != Replied(kind, tokenId))
    && (forall j :: 0 <= j < i && AsksFor(history[j], kind, tokenId) ==>
          exists l :: j < l < i && history[l] == Replied(kind, tokenId))
  }

  function CallOf(h: Happening): Call {
    match h
    case Seen(session, fact) =>
      var wanted := InteractionOf(session, fact);
      if wanted.None? then Pass else Ask(wanted.value)
    case Replied(kind, tokenId) => Reply(kind, tokenId)
  }

  function Calls(history: seq<Happening>): seq<Call> {
    seq(|history|, i requires 0 <= i < |history| => CallOf(history[i]))
  }

  lemma AskingFactsCall(h: Happening, kind: Kind, tokenId: string)
    ensures Asks(CallOf(h), kind, tokenId) <==> AsksFor(h, kind, tokenId)
    ensures AsksFor(h, kind, tokenId) ==>
              CallOf(h).record == Interaction(h.session, kind, tokenId, AskedIn(h.fact))
    ensures CallOf(h) == Reply(kind, tokenId) <==> h == Replied(kind, tokenId)
  {
  }

  lemma OpenFactsAreOpenAsks(history: seq<Happening>, i: int, kind: Kind, tokenId: string)
    ensures IsOpen(history, i, kind, tokenId) <==> IsOpenAsk(Calls(history), i, kind, tokenId)
  {
    var calls := Calls(history);
    forall j | 0 <= j < |history|
      ensures Asks(calls[j], kind, tokenId) <==> AsksFor(history[j], kind, tokenId)
      ensures calls[j] == Reply(kind, tokenId) <==> history[j] == Replied(kind, tokenId)
    {
      AskingFactsCall(history[j], kind, tokenId);
    }
    if IsOpen(history, i, kind, tokenId) {
      forall j | 0 <= j < i && Asks(calls[j], kind, tokenId)
        ensures exists l :: j < l < i && calls[l] == Reply(kind, tokenId)
      {
        var l :| j < l < i && history[l] == Replied(kind, tokenId);
        assert calls[l] == Reply(kind, tokenId);
      }
    }
    if IsOpenAsk(calls, i, kind, tokenId) {
      forall j | 0 <= j < i && AsksFor(history[j], kind, tokenId)
        ensures exists l :: j < l < i && history[l] == Replied(kind, tokenId)
      {
        assert Asks(calls[j], kind, tokenId);
        var l :| j < l < i && calls[l] == Reply(kind, tokenId);
        assert history[l] == Replied(kind, tokenId);
      }
    }
  }

  /** Over every sequence of facts and replies: what is pending for a question or a permission is session and
      message of the first question.ask, respectively permission.ask, of its id since its last reply. */
  lemma PendingFactIsTheFirstAsk(history: seq<Happening>, kind: Kind, tokenId: string, i: int)
    ensures IsOpen(history, i, kind, tokenId) ==>
              Find(Run(Calls(history)), kind, tokenId) ==
              Some(Interaction(history[i].session, kind, tokenId, AskedIn(history[i].fact)))
    ensures Find(Run(Calls(history)), kind, tokenId).Some? <==> exists k :: IsOpen(history, k, kind, tokenId)
  {
    var calls := Calls(history);
    if IsOpen(history, i, kind, tokenId) {
      OpenFactsAreOpenAsks(history, i, kind, tokenId);
      AskingFactsCall(history[i], kind, tokenId);
      ReplyReachesTheAsker(calls, kind, tokenId, calls[i].record);
    }
    if Find(Run(calls), kind, tokenId).Some? {
      var k := PendingIsAnOpenAsk(calls, kind, tokenId);
      OpenFactsAreOpenAsks(history, k, kind, tokenId);
    }
    if k :| IsOpen(history, k, kind, tokenId) {
      OpenFactsAreOpenAsks(history, k, kind, tokenId);
      ReplyReachesTheAsker(calls, kind, tokenId, calls[k].record);
    }
  }

  /** A fact conflicts exactly when it asks for a token for which another session's ask is open. */
  lemma FactConflictsExactly(history: seq<Happening>, session: string, fact: Fact)
    ensures (var wanted := InteractionOf(session, fact);
             wanted.Some? && RegisterResult(Run(Calls(history)), wanted.value).ConflictCrossSession?) <==>
            exists kind, tokenId, i ::
              && AsksFor(Seen(session, fact), kind, tokenId)
              && IsOpen(history, i, kind, tokenId) && history[i].session != session
  {
    forall kind, tokenId, i | AsksFor(Seen(session, fact), kind, tokenId) && IsOpen(history, i, kind, tokenId)
      ensures InteractionOf(session, fact) == Some(Interaction(session, kind, tokenId, AskedIn(fact)))
      ensures Find(Run(Calls(history)), kind, tokenId) ==
              Some(Interaction(history[i].session, kind, tokenId, AskedIn(history[i].fact)))
    {
      PendingFactIsTheFirstAsk(history, kind, tokenId, i);
    }
    var wanted := InteractionOf(session, fact);
    if wanted.Some? {
      var kind, tokenId := wanted.value.kind, wanted.value.tokenId;
      AskingFactsCall(Seen(session, fact), kind, tokenId);
      if Find(Run(Calls(history)), kind, tokenId).Some? {
        PendingFactIsTheFirstAsk(history, kind, tokenId, 0);
        var k :| IsOpen(history, k, kind, tokenId);
        assert AsksFor(Seen(session, fact), kind, tokenId);
      }
    }
  }

  lemma OneMoreCall(history: seq<Happening>, n: nat)
    requires n < |history|
    ensures Calls(history[..n + 1])[..n] == Calls(history[..n])
    ensures Calls(history[..n + 1])[n] == CallOf(history[n])
  {
  }

  method Replay(history: seq<Happening>) returns (coordinator: InteractionCoordinator)
    ensures fresh(coordinator) && fresh(coordinator.registry)
    ensures coordinator.registry.records == Run(Calls(history))
  {
    var registry := new InMemoryPendingInteractionRegistry();
    coordinator := new InteractionCoordinator(registry);
    var n := 0;
    while n < |history|
      invariant 0 <= n <= |history| && registry == coordinator.registry && fresh(registry)
      invariant registry.records == Run(Calls(history[..n]))
    {
      OneMoreCall(history, n);
      match history[n] {
        case Seen(session, fact) => var _ := coordinator.RegisterFromFact(session, fact);
        case Replied(k, t) => var _ := coordinator.Consume(k, t);
      }
      n := n + 1;
    }
    assert history[..n] == history;
  }

  /** Any facts and replies driven through the coordinator, a reply is then delivered to the session whose fact
      asked first since the last reply, and to none exactly if no ask is open. */
  method Drive(history: seq<Happening>, kind: Kind, tokenId: string) returns (toolSessionId: Option<string>)
    ensures toolSessionId.Some? <==> exists i :: IsOpen(history, i, kind, tokenId)
    ensures forall i :: IsOpen(history, i, kind, tokenId) ==> toolSessionId == Some(history[i].session)
  {
    var coordinator := Replay(history);
    PendingFactIsTheFirstAsk(history, kind, tokenId, 0);
    forall i | IsOpen(history, i, kind, tokenId)
      ensures Find(Run(Calls(history)), kind, tokenId) ==
              Some(Interaction(history[i].session, kind, tokenId, AskedIn(history[i].fact)))
    {
      PendingFactIsTheFirstAsk(history, kind, tokenId, i);
    }
    toolSessionId := coordinator.Consume(kind, tokenId);
  }

  /** ... and one more fact conflicts exactly if it asks for a token another session's open ask holds. */
  method Offer(history: seq<Happening>, session: string, fact: Fact) returns (conflict: bool)
    ensures conflict <==>
            exists kind, tokenId, i ::
              && AsksFor(Seen(session, fact), kind, tokenId)
              && IsOpen(history, i, kind, tokenId) && history[i].session != session
  {
    var coordinator := Replay(history);
    FactConflictsExactly(history, session, fact);
    conflict := coordinator.RegisterFromFact(session, fact);
  }
}
