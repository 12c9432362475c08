// What a permission reply is shown with when it reaches the gateway: the run's facts woven into everything
// that happens to the shared context registry (RequestRunCoordinator.ts, ProviderFactEnricher.ts).
module PipelineReplies {
  import opened Prelude
  import opened FactSequence
  import opened RunPipeline
  import PP = PermissionPresentation

  /** `history` is every call the shared registry ever gets, of all runs, aborts and closes; `at[k]` how many of
      them came before the k-th fact of this run was enriched. Its own asks are among the calls. */
  ghost predicate Woven(session: string, deliveries: seq<Delivery>, history: seq<PP.Call>, at: seq<nat>) {
    && |at| == |deliveries|
    && (forall k :: 0 <= k < |at| ==> at[k] <= |history| && deliveries[k].contexts == PP.Flat(history[..at[k]]))
    && (forall k :: 0 <= k < |at| && deliveries[k].fact.PermissionAsk? ==>
          at[k] < |history| && history[at[k]] == PP.Register(PP.ContextOf(session, deliveries[k].fact)))
    && (forall i, j :: 0 <= i < j < |at| ==>
          if deliveries[i].fact.PermissionAsk? then at[i] < at[j] else at[i] <= at[j])
  }

  lemma SeparablePrefix(history: seq<PP.Call>, session: string, n: nat)
    requires PP.AllSeparable(history, session) && n <= |history|
    ensures PP.AllSeparable(history[..n], session)
  {
  }

  // Until the session is cleared, what is known of a permission stays.
  lemma {:induction false} KnownStaysKnown(history: seq<PP.Call>, session: string, permissionId: string, from: nat)
    requires from <= |history| && PP.Nested(history[..from], session, permissionId).Some?
    requires forall l :: from <= l < |history| ==> history[l] != PP.Clear(session)
    ensures PP.Nested(history, session, permissionId) == PP.Nested(history[..from], session, permissionId)
    decreases |history|
  {
    if from == |history| {
      assert history[..from] == history;
    } else {
      var front := history[..|history| - 1];
      assert front[..from] == history[..from];
      KnownStaysKnown(front, session, permissionId, from);
    }
  }

  // The ask of the i-th fact is known right after it was enriched: itself, or an earlier one.
  lemma AskIsKnown(session: string, deliveries: seq<Delivery>, history: seq<PP.Call>, at: seq<nat>, i: nat)
    requires Woven(session, deliveries, history, at) && i < |deliveries| && deliveries[i].fact.PermissionAsk?
    ensures var ask := deliveries[i].fact;
            var before := PP.Nested(history[..at[i]], session, ask.permissionId);
            PP.Nested(history[..at[i] + 1], session, ask.permissionId) ==
            if before.None? then Some(PP.ContextOf(session, ask)) else before
  {
    assert history[..at[i] + 1][..at[i]] == history[..at[i]];
  }

  /** A reply is shown, whichever runs interleave, exactly when its permission was asked since the session was
      last cleared, and then with part, message and type of the first such ask. */
  lemma ReplyShowsTheFirstAsk(session: string, deliveries: seq<Delivery>, history: seq<PP.Call>, at: seq<nat>,
                              j: nat, i: int)
    requires Woven(session, deliveries, history, at) && PP.AllSeparable(history, session)
    requires j < |deliveries| && deliveries[j].fact.PermissionReply?
    ensures var reply, seen := deliveries[j].fact, history[..at[j]];
            && (Shown(session, deliveries[j]).Some? <==>
                exists k :: PP.IsFirstAsk(seen, k, session, reply.permissionId))
            && (PP.IsFirstAsk(seen, i, session, reply.permissionId) ==>
                  Shown(session, deliveries[j]) == Some(PP.ShownWith(reply, seen[i].context)))
  {
    SeparablePrefix(history, session, at[j]);
    PP.ReplyIsShownWithItsAsk(history[..at[j]], session, deliveries[j].fact, i);
  }

  // The context a reply is shown with when the i-th fact asked for its permission.
  function ContextAfterAsk(session: string, d: Delivery): PP.Context
    requires d.fact.PermissionAsk?
  {
    var known := PP.Get(d.contexts, session, d.fact.permissionId);
    if known.Some? then known.value else PP.ContextOf(session, d.fact)
  }

  /** A run that asked for a permission and gets the reply in the same stream, with no abort or close of the
      session in between, has the reply shown, whatever other runs do: with the very part, message and type it
      asked with, unless an earlier ask of that permission was still known, which then wins. */
  lemma ReplyCarriesItsOwnAsk(session: string, deliveries: seq<Delivery>, history: seq<PP.Call>, at: seq<nat>,
                              i: nat, j: nat)
    requires Woven(session, deliveries, history, at) && PP.AllSeparable(history, session)
    requires i < j < |deliveries| && deliveries[i].fact.PermissionAsk? && deliveries[j].fact.PermissionReply?
    requires deliveries[i].fact.permissionId == deliveries[j].fact.permissionId
    requires forall l :: at[i] <= l < at[j] ==> history[l] != PP.Clear(session)
    ensures Shown(session, deliveries[j]) ==
            Some(PP.ShownWith(deliveries[j].fact, ContextAfterAsk(session, deliveries[i])))
    ensures PP.Get(deliveries[i].contexts, session, deliveries[i].fact.permissionId).None? ==>
              var ask, reply := deliveries[i].fact, deliveries[j].fact;
              Shown(session, deliveries[j]) == Some(PP.Reply(
                reply.permissionId, ask.partId,
                if ask.askMessageId == Some("") then None else ask.askMessageId,
                if reply.replyPermType.Some? then reply.replyPermType.value else ask.permType))
  {
    var permissionId := deliveries[i].fact.permissionId;
    var seen := history[..at[j]];
    AskIsKnown(session, deliveries, history, at, i);
    assert seen[..at[i] + 1] == history[..at[i] + 1];
    KnownStaysKnown(seen, session, permissionId, at[i] + 1);
    SeparablePrefix(history, session, at[i]);
    SeparablePrefix(history, session, at[j]);
    PP.FlatRefinesNested(history[..at[i]], session, permissionId);
    PP.FlatRefinesNested(seen, session, permissionId);
  }

  lemma {:induction false} KeptEventsContain(session: string, deliveries: seq<Delivery>, j: nat)
    requires j < |deliveries| && Shown(session, deliveries[j]).Some?
    ensures ToolEvent(Shown(session, deliveries[j]).value) in KeptEvents(session, deliveries)
    decreases |deliveries|
  {
    if j < |deliveries| - 1 {
      KeptEventsContain(session, deliveries[..|deliveries| - 1], j);
    }
  }

  /** ... and the loop, if it gets past the reply, sends it upward like that. */
  lemma HandledReplyIsSent(session: string, profile: Profile, deliveries: seq<Delivery>, history: seq<PP.Call>,
                           at: seq<nat>, i: nat, j: nat)
    requires Woven(session, deliveries, history, at) && PP.AllSeparable(history, session)
    requires i < j < Consumed(session, profile, deliveries).taken && j < |deliveries|
    requires deliveries[i].fact.PermissionAsk? && deliveries[j].fact.PermissionReply?
    requires deliveries[i].fact.permissionId == deliveries[j].fact.permissionId
    requires forall l :: at[i] <= l < at[j] ==> history[l] != PP.Clear(session)
    ensures ToolEvent(PP.ShownWith(deliveries[j].fact, ContextAfterAsk(session, deliveries[i])))
            in Consumed(session, profile, deliveries).sent
  {
    ReplyCarriesItsOwnAsk(session, deliveries, history, at, i, j);
    SentBeforeTheOffence(session, profile, deliveries);
    var handled := deliveries[..Consumed(session, profile, deliveries).taken];
    assert handled[j] == deliveries[j];
    KeptEventsContain(session, handled, j);
  }
}
