// What permission replies are shown with: the flat-keyed context map, its prefix clear, and the enricher
// (bridge-runtime-sdk/src/infrastructure/registries/InMemoryPermissionPresentationRegistry.ts,
// application/ProviderFactEnricher.ts).
module PermissionPresentation {
  import opened Prelude
  import opened FactSequence

  datatype Context = Context(
    toolSessionId: string,
    permissionId: string,
    partId: string,
    messageId: Option<string>,
    permType: string)

  type Records = map<string, Context>

  function Prefix(toolSessionId: string): string {
    toolSessionId + ":"
  }

  function Key(toolSessionId: string, permissionId: string): string {
    Prefix(toolSessionId) + permissionId
  }

  function AfterRegister(records: Records, context: Context): Records {
    var key := Key(context.toolSessionId, context.permissionId);
    if key in records then records else records[key := context]
  }

  function AfterClear(records: Records, toolSessionId: string): Records {
    map key | key in records && !(Prefix(toolSessionId) <= key) :: records[key]
  }

  function Get(records: Records, toolSessionId: string, permissionId: string): Option<Context> {
    var key := Key(toolSessionId, permissionId);
    if key in records then Some(records[key]) else None
  }

  // ---- Histories, on the flat map and on the nested map it stands for ----

  datatype Call = Register(context: Context) | Clear(toolSessionId: string)

  function SessionOf(call: Call): string {
    match call
    case Register(context) => context.toolSessionId
    case Clear(session) => session
  }

  function Flat(history: seq<Call>): Records {
    if history == [] then map[]
    else
      var records := Flat(history[..|history| - 1]);
      match history[|history| - 1]
      case Register(context) => AfterRegister(records, context)
      case Clear(session) => AfterClear(records, session)
  }

  // What is known of one permission of one session.
  function Nested(history: seq<Call>, toolSessionId: string, permissionId: string): Option<Context> {
    if history == [] then None
    else
      var before := Nested(history[..|history| - 1], toolSessionId, permissionId);
      match history[|history| - 1]
      case Register(context) =>
        if before.None? && context.toolSessionId == toolSessionId && context.permissionId == permissionId
        then Some(context) else before
      case Clear(session) => if session == toolSessionId then None else before
  }

  // Neither id followed by a colon begins the other.
  predicate Separable(session: string, other: string) {
    session == other || (!(Prefix(session) <= other) && !(Prefix(other) <= session))
  }

  predicate ColonFree(text: string) {
    ':' !in text
  }

  lemma PrefixHasColon(session: string, other: string)
    ensures Prefix(session) <= other ==> !ColonFree(other)
  {
    if Prefix(session) <= other {
      assert other[|session|] == Prefix(session)[|session|] == ':';
    }
  }

  lemma ColonFreeIsSeparable(session: string, other: string)
    requires ColonFree(session) && ColonFree(other)
    ensures Separable(session, other)
  {
    PrefixHasColon(session, other);
    PrefixHasColon(other, session);
  }

  // A prefix reaches a key of its own session, or of one of two ids that extend each other past a colon.
  lemma PrefixReachesOnly(session: string, other: string, permissionId: string)
    requires Prefix(session) <= Key(other, permissionId)
    ensures session == other || Prefix(session) <= other || Prefix(other) <= session
  {
    var key := Key(other, permissionId);
    var n := if |session| < |other| then |session| else |other|;
    assert session[..n] == key[..n] == other[..n];
    if |session| < |other| {
      assert Prefix(session) == key[..n + 1] == other[..n + 1];
    } else if |other| < |session| {
      assert Prefix(other) == key[..n + 1] == session[..n + 1];
    } else {
      assert session == session[..n] && other == other[..n];
    }
  }

  lemma PrefixReaches(session: string, other: string, permissionId: string)
    requires Separable(session, other)
    ensures Prefix(session) <= Key(other, permissionId) <==> session == other
  {
    assert Prefix(other) <= Key(other, permissionId);
    if Prefix(session) <= Key(other, permissionId) {
      PrefixReachesOnly(session, other, permissionId);
    }
  }

  lemma KeyIsInjective(session: string, permissionId: string, other: string, otherPermission: string)
    requires Separable(session, other)
    ensures Key(session, permissionId) == Key(other, otherPermission) <==>
            session == other && permissionId == otherPermission
  {
    PrefixReaches(session, other, otherPermission);
    assert Prefix(session) <= Key(session, permissionId);
    var n := |Prefix(session)|;
    assert Key(session, permissionId)[n..] == permissionId;
    assert session == other ==> Key(other, otherPermission)[n..] == otherPermission;
  }

  ghost predicate AllSeparable(history: seq<Call>, session: string) {
    forall i :: 0 <= i < |history| ==> Separable(SessionOf(history[i]), session)
  }

  /** For a session whose id no session of the history extends past a colon, nor it theirs, the flat map
      answers exactly as a map of maps would; in particular a clear removes that session and no other. */
  lemma {:induction false} FlatRefinesNested(history: seq<Call>, session: string, permissionId: string)
    requires AllSeparable(history, session)
    ensures Get(Flat(history), session, permissionId) == Nested(history, session, permissionId)
    decreases |history|
  {
    if history != [] {
      var front, last := history[..|history| - 1], history[|history| - 1];
      assert forall i :: 0 <= i < |front| ==> front[i] == history[i];
      FlatRefinesNested(front, session, permissionId);
      assert Separable(SessionOf(last), session);
      match last
      case Register(context) => KeyIsInjective(context.toolSessionId, context.permissionId, session, permissionId);
      case Clear(cleared) => PrefixReaches(cleared, session, permissionId);
    }
  }

  /** Ids without colons always qualify. */
  lemma ColonFreeSessionsRefine(history: seq<Call>, session: string, permissionId: string)
    requires ColonFree(session) && forall i :: 0 <= i < |history| ==> ColonFree(SessionOf(history[i]))
    ensures Get(Flat(history), session, permissionId) == Nested(history, session, permissionId)
  {
    forall i | 0 <= i < |history| ensures Separable(SessionOf(history[i]), session) {
      ColonFreeIsSeparable(SessionOf(history[i]), session);
    }
    FlatRefinesNested(history, session, permissionId);
  }

  lemma ClearingShorterLosesLonger(shorter: string, longer: string, permissionId: string)
    requires Prefix(shorter) <= longer
    ensures var history := [Register(Context(longer, permissionId, "part", None, "type")), Clear(shorter)];
            Nested(history, longer, permissionId).Some? && Get(Flat(history), longer, permissionId).None?
  {
    var call := Register(Context(longer, permissionId, "part", None, "type"));
    var history := [call, Clear(shorter)];
    assert history[..1] == [call];
    assert [call][..0] == [];
    assert Prefix(shorter) <= Key(longer, permissionId);
    assert longer != shorter;
  }

  /** The condition is exact: two sessions are kept apart in every history naming only them
      if and only if neither id, followed by a colon, begins the other. */
  lemma SeparableExactly(session: string, other: string)
    ensures Separable(session, other) <==>
            forall history: seq<Call>, permissionId: string
              | forall i :: 0 <= i < |history| ==> SessionOf(history[i]) in {session, other} ::
              && Get(Flat(history), session, permissionId) == Nested(history, session, permissionId)
              && Get(Flat(history), other, permissionId) == Nested(history, other, permissionId)
  {
    if Separable(session, other) {
      forall history: seq<Call>, permissionId: string
        | forall i :: 0 <= i < |history| ==> SessionOf(history[i]) in {session, other}
        ensures Get(Flat(history), session, permissionId) == Nested(history, session, permissionId)
        ensures Get(Flat(history), other, permissionId) == Nested(history, other, permissionId)
      {
        FlatRefinesNested(history, session, permissionId);
        FlatRefinesNested(history, other, permissionId);
      }
    } else {
      var shorter, longer := if Prefix(session) <= other then session else other,
          if Prefix(session) <= other then other else session;
      ClearingShorterLosesLonger(shorter, longer, "p");
      var history := [Register(Context(longer, "p", "part", None, "type")), Clear(shorter)];
      assert forall i :: 0 <= i < |history| ==> SessionOf(history[i]) in {session, other};
      assert Get(Flat(history), longer, "p") != Nested(history, longer, "p");
    }
  }

  // ---- Which ask a reply is shown with ----

  predicate Presents(call: Call, session: string, permissionId: string) {
    call.Register? && call.context.toolSessionId == session && call.context.permissionId == permissionId
  }

  // The i-th call is the first ask of the permission since the session was last cleared.
  ghost predicate IsFirstAsk(history: seq<Call>, i: int, session: string, permissionId: string) {
    && 0 <= i < |history| && Presents(history[i], session, permissionId)
    && (forall j :: i < j < |history| ==> history[j] != Clear(session))
    && (forall j :: 0 <= j < i && Presents(history[j], session, permissionId) ==>
          exists l :: j < l < i && history[l] == Clear(session))
  }

  lemma {:induction false} NothingKnownMeansCleared(history: seq<Call>, j: nat, session: string, permissionId: string)
    requires j < |history| && Presents(history[j], session, permissionId)
    requires Nested(history, session, permissionId).None?
    ensures exists l :: j < l < |history| && history[l] == Clear(session)
    decreases |history|
  {
    var front, last := history[..|history| - 1], history[|history| - 1];
    if last != Clear(session) {
      assert j < |front| && front[j] == history[j];
      NothingKnownMeansCleared(front, j, session, permissionId);
      var l :| j < l < |front| && front[l] == Clear(session);
      assert history[l] == front[l];
    } else {
      assert j < |history| - 1;
    }
  }

  lemma FirstAskExtends(history: seq<Call>, i: int, session: string, permissionId: string)
    requires history != [] && history[|history| - 1] != Clear(session)
    requires IsFirstAsk(history[..|history| - 1], i, session, permissionId)
    ensures IsFirstAsk(history, i, session, permissionId)
  {
    var front := history[..|history| - 1];
    assert forall j :: 0 <= j < |front| ==> front[j] == history[j];
    forall j | 0 <= j < i && Presents(history[j], session, permissionId)
      ensures exists l :: j < l < i && history[l] == Clear(session)
    {
      assert Presents(front[j], session, permissionId);
      var l :| j < l < i && front[l] == Clear(session);
      assert history[l] == Clear(session);
    }
  }

  lemma {:induction false} KnownIsAFirstAsk(history: seq<Call>, session: string, permissionId: string) returns (i: int)
    requires Nested(history, session, permissionId).Some?
    ensures IsFirstAsk(history, i, session, permissionId)
    ensures history[i].context == Nested(history, session, permissionId).value
    decreases |history|
  {
    var front := history[..|history| - 1];
    if Nested(front, session, permissionId).Some? {
      i := KnownIsAFirstAsk(front, session, permissionId);
      FirstAskExtends(history, i, session, permissionId);
    } else {
      i := |history| - 1;
      forall j | 0 <= j < i && Presents(history[j], session, permissionId)
        ensures exists l :: j < l < i && history[l] == Clear(session)
      {
        assert front[j] == history[j];
        NothingKnownMeansCleared(front, j, session, permissionId);
        var l :| j < l < |front| && front[l] == Clear(session);
        assert history[l] == front[l];
      }
    }
  }

  /** The context of a permission is that of the first ask since its session was last cleared. */
  lemma {:induction false} ContextIsTheFirstAsk(history: seq<Call>, session: string, permissionId: string,
      context: Context)
    ensures Nested(history, session, permissionId) == Some(context) <==>
            exists i :: IsFirstAsk(history, i, session, permissionId) && history[i].context == context
  {
    if Nested(history, session, permissionId).Some? {
      var k := KnownIsAFirstAsk(history, session, permissionId);
      assert forall i :: IsFirstAsk(history, i, session, permissionId) ==> i == k;
    } else {
      forall i | 0 <= i < |history| ensures !IsFirstAsk(history, i, session, permissionId) {
        if IsFirstAsk(history, i, session, permissionId) {
          NothingKnownMeansCleared(history, i, session, permissionId);
          assert false;
        }
      }
    }
  }

  // ---- The enricher ----

  datatype Enriched =
    | Plain(fact: Fact)
    | Reply(permissionId: string, partId: string, messageId: Option<string>, permType: string)

  // An empty message id counts as none.
  function ContextOf(session: string, ask: Fact): Context
    requires ask.PermissionAsk?
  {
    Context(session, ask.permissionId, ask.partId,
            if ask.askMessageId == Some("") then None else ask.askMessageId, ask.permType)
  }

  function ShownWith(reply: Fact, context: Context): Enriched
    requires reply.PermissionReply?
  {
    Reply(reply.permissionId, context.partId, context.messageId,
          if reply.replyPermType.Some? then reply.replyPermType.value else context.permType)
  }

  // None: the fact is dropped.
  function Enrich(records: Records, session: string, fact: Fact): Option<Enriched> {
    if fact.PermissionReply? then
      var context := Get(records, session, fact.permissionId);
      if context.None? then None else Some(ShownWith(fact, context.value))
    else Some(Plain(fact))
  }

  function AfterEnrich(records: Records, session: string, fact: Fact): Records {
    if fact.PermissionAsk? then AfterRegister(records, ContextOf(session, fact)) else records
  }

  /** A permission.ask whose permission is not known yet is recorded with its own part and type, and with its message
      unless that is empty; a known one stays as it was; and no other fact records anything. */
  lemma AsksAreRecorded(records: Records, session: string, fact: Fact)
    ensures !fact.PermissionAsk? ==> AfterEnrich(records, session, fact) == records
    ensures fact.PermissionAsk? ==>
              var known, now := Get(records, session, fact.permissionId),
                                Get(AfterEnrich(records, session, fact), session, fact.permissionId);
              if known.Some? then now == known && AfterEnrich(records, session, fact) == records
              else
                && now.Some? && now.value.toolSessionId == session && now.value.permissionId == fact.permissionId
                && now.value.partId == fact.partId && now.value.permType == fact.permType
                && (fact.askMessageId.Some? && fact.askMessageId.value != "" ==>
                      now.value.messageId == fact.askMessageId)
                && (fact.askMessageId.None? || fact.askMessageId == Some("") ==> now.value.messageId.None?)
  {
  }

  /** A reply passes exactly when its permission was asked since the session was last cleared, and it
      then carries part, message and type of the first such ask, its own type taking precedence. */
  lemma {:induction false} ReplyIsShownWithItsAsk(history: seq<Call>, session: string, reply: Fact, i: int)
    requires reply.PermissionReply? && AllSeparable(history, session)
    ensures Enrich(Flat(history), session, reply).Some? <==>
            exists k :: IsFirstAsk(history, k, session, reply.permissionId)
    ensures IsFirstAsk(history, i, session, reply.permissionId) ==>
              var shown := Enrich(Flat(history), session, reply);
              && shown.Some? && shown.value.Reply? && shown.value.permissionId == reply.permissionId
              && shown.value.partId == history[i].context.partId
              && shown.value.messageId == history[i].context.messageId
              && Some(shown.value.permType) ==
                 (if reply.replyPermType.Some? then reply.replyPermType else Some(history[i].context.permType))
  {
    FlatRefinesNested(history, session, reply.permissionId);
    var known := Nested(history, session, reply.permissionId);
    if known.Some? {
      ContextIsTheFirstAsk(history, session, reply.permissionId, known.value);
    }
    forall k | IsFirstAsk(history, k, session, reply.permissionId) ensures known == Some(history[k].context) {
      ContextIsTheFirstAsk(history, session, reply.permissionId, history[k].context);
    }
  }

  class InMemoryPermissionPresentationRegistry {
    var records: Records

    constructor ()
      ensures records == Flat([])
    {
      records := map[];
    }

    method Register(context: Context) returns (inserted: bool)
      modifies this
      ensures records == AfterRegister(old(records), context)
      ensures inserted <==> Get(old(records), context.toolSessionId, context.permissionId).None?
    {
      var key := Key(context.toolSessionId, context.permissionId);
      if key in records {
        return false;
      }
      records := records[key := context];
      inserted := true;
    }

    // Walks the keys once, deleting as it goes.
    method ClearSession(toolSessionId: string)
      modifies this
      ensures records == AfterClear(old(records), toolSessionId)
    {
      var prefix := Prefix(toolSessionId);
      var todo := records.Keys;
      while todo != {}
        invariant todo <= old(records).Keys
        invariant forall key :: key in records <==> key in old(records) && (key in todo || !(prefix <= key))
        invariant forall key :: key in records ==> records[key] == old(records)[key]
        decreases |todo|
      {
        var key :| key in todo;
        if prefix <= key {
          records := records - {key};
        }
        todo := todo - {key};
      }
    }
  }

  class ProviderFactEnricher {
    const registry: InMemoryPermissionPresentationRegistry

    constructor (registry: InMemoryPermissionPresentationRegistry)
      ensures this.registry == registry
    {
      this.registry := registry;
    }

    method EnrichFact(session: string, fact: Fact) returns (enriched: Option<Enriched>)
      modifies registry
      ensures enriched == Enrich(old(registry.records), session, fact)
      ensures registry.records == AfterEnrich(old(registry.records), session, fact)
    {
      if fact.PermissionAsk? {
        var _ := registry.Register(ContextOf(session, fact));
        return Some(Plain(fact));
      }
      if fact.PermissionReply? {
        var context := Get(registry.records, session, fact.permissionId);
        if context.None? {
          return None;
        }
        return Some(ShownWith(fact, context.value));
      }
      enriched := Some(Plain(fact));
    }
  }
}
