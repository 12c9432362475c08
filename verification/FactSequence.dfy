// Provider facts and the per-run ordering automaton that accepts or rejects them
// (bridge-runtime-sdk/src/application/fact-semantics.ts, fact-sequence-validator.ts).
module FactSequence {
  import opened Prelude

  // What a `tool.update` carries as input and output.
  datatype Payload = NoPayload | JsonObject | Text(text: string) | OtherValue

  datatype Fact =
    | MessageStart(messageId: string)
    | TextDelta(messageId: string, partId: string, content: string)
    | TextDone(messageId: string, partId: string, content: string)
    | ThinkingDelta(messageId: string, partId: string, content: string)
    | ThinkingDone(messageId: string, partId: string, content: string)
    | ToolUpdate(messageId: string, toolCallId: string, input: Payload, output: Payload)
    | QuestionAsk(messageId: string, questionId: string)
    | PermissionAsk(askMessageId: Option<string>, partId: string, permissionId: string, permType: string)
    | PermissionReply(permissionId: string, replyPermType: Option<string>)
    | MessageDone(messageId: string)
    | SessionTitle
    | SessionError

  datatype Profile = RequestRun | Outbound | OutboundRun

  datatype Classification = Classification(
    requiresOpenMessage: bool,
    marksOutboundTerminal: bool)

  // fact-semantics.ts; which events are observed is left out.
  function Classify(fact: Fact): Classification {
    match fact
    case MessageStart(_) => Classification(false, false)
    case MessageDone(_) => Classification(false, true)
    case PermissionAsk(_, _, _, _) => Classification(false, false)
    case PermissionReply(_, _) => Classification(false, false)
    case SessionTitle => Classification(false, false)
    case SessionError => Classification(false, false)
    case _ => Classification(true, false)
  }

  /** The fields of ValidationSessionState. */
  datatype Validation = Validation(
    terminalReached: bool,
    openMessages: set<string>,
    closedMessages: set<string>,
    openTextParts: set<string>,
    openThinkingParts: set<string>,
    knownToolCallIds: set<string>)
  {
    predicate IsOpen(messageId: string) {
      messageId in openMessages && messageId !in closedMessages
    }

    predicate AskIsOpen(messageId: Option<string>) {
      messageId.Some? && IsOpen(messageId.value)
    }
  }

  const FRESH_VALIDATION := Validation(false, {}, {}, {}, {}, {})

  function PartKey(messageId: string, partId: string): string {
    messageId + ":" + partId
  }

  predicate PayloadsOk(fact: Fact) {
    fact.ToolUpdate? ==>
      (fact.input.NoPayload? || fact.input.JsonObject?) && (fact.output.NoPayload? || fact.output.Text?)
  }

  /** FactSequenceValidator.consume: the next state, or None where it throws. */
  function Advance(v: Validation, fact: Fact, profile: Profile): Option<Validation> {
    if v.terminalReached then None
    else match fact
      case MessageStart(m) =>
        if m in v.closedMessages || m in v.openMessages then None
        else Some(v.(openMessages := v.openMessages + {m}))
      case MessageDone(m) =>
        if m !in v.openMessages then None
        else Some(v.(openMessages := v.openMessages - {m}, closedMessages := v.closedMessages + {m},
        terminalReached := profile.Outbound? && Classify(fact).marksOutboundTerminal))
      case PermissionAsk(m, _, _, _) =>
        if Classify(fact).requiresOpenMessage && !v.AskIsOpen(m) then None else Some(v)
      case PermissionReply(_, _) => Some(v)
      case SessionTitle => Some(v)
      case SessionError => Some(v)
      case _ =>
        if Classify(fact).requiresOpenMessage && !v.IsOpen(fact.messageId) then None
        else if !PayloadsOk(fact) then None
        else Some(NotedPart(v, fact))
  }

  // The bookkeeping of content facts.
  function NotedPart(v: Validation, fact: Fact): Validation {
    match fact
    case TextDelta(m, p, _) => v.(openTextParts := v.openTextParts + {PartKey(m, p)})
    case TextDone(m, p, _) => v.(openTextParts := v.openTextParts - {PartKey(m, p)})
    case ThinkingDelta(m, p, _) => v.(openThinkingParts := v.openThinkingParts + {PartKey(m, p)})
    case ThinkingDone(m, p, _) => v.(openThinkingParts := v.openThinkingParts - {PartKey(m, p)})
    case ToolUpdate(_, t, _, _) => v.(knownToolCallIds := v.knownToolCallIds + {t})
    case _ => v
  }

  // Feeding a whole stream.
  function AdvanceAll(v: Validation, facts: seq<Fact>, profile: Profile): Option<Validation>
    decreases |facts|
  {
    if facts == [] then Some(v)
    else
      var front := AdvanceAll(v, facts[..|facts| - 1], profile);
      if front.None? then None else Advance(front.value, facts[|facts| - 1], profile)
  }

  predicate Accepts(facts: seq<Fact>, profile: Profile) {
    AdvanceAll(FRESH_VALIDATION, facts, profile).Some?
  }

  // ---- The ordering rules, stated on the history alone ----

  // Content and done facts belong to a message and may appear only while it is open.
  predicate NeedsMessage(fact: Fact) {
    match fact
    case TextDelta(_, _, _) => true
    case TextDone(_, _, _) => true
    case ThinkingDelta(_, _, _) => true
    case ThinkingDone(_, _, _) => true
    case ToolUpdate(_, _, _, _) => true
    case QuestionAsk(_, _) => true
    case MessageDone(_) => true
    case _ => false
  }

  // No message is started twice.
  ghost predicate StartsOnce(h: seq<Fact>) {
    forall i, j :: 0 <= i < j < |h| && h[i].MessageStart? && h[j].MessageStart? ==> h[i] != h[j]
  }

  // Content and done come after the start of their message ...
  ghost predicate AfterStart(h: seq<Fact>) {
    forall j :: 0 <= j < |h| && NeedsMessage(h[j]) ==> MessageStart(h[j].messageId) in h[..j]
  }

  // ... and never after its done.
  ghost predicate BeforeDone(h: seq<Fact>) {
    forall i, j :: 0 <= i < j < |h| && h[i].MessageDone? && NeedsMessage(h[j]) ==> h[j].messageId != h[i].messageId
  }

  // In the outbound profile the first done is the last fact.
  ghost predicate EndsAtDone(h: seq<Fact>) {
    forall i :: 0 <= i < |h| - 1 ==> !h[i].MessageDone?
  }

  ghost predicate Ordered(h: seq<Fact>, profile: Profile) {
    StartsOnce(h) && AfterStart(h) && BeforeDone(h) && (profile.Outbound? ==> EndsAtDone(h))
  }

  ghost predicate AllPayloadsOk(h: seq<Fact>) {
    forall i :: 0 <= i < |h| ==> PayloadsOk(h[i])
  }

  // What the automaton remembers of a history.
  ghost predicate Remembers(v: Validation, h: seq<Fact>, profile: Profile) {
    && (forall m :: m in v.openMessages <==> MessageStart(m) in h && MessageDone(m) !in h)
    && (forall m :: m in v.closedMessages <==> MessageDone(m) in h)
    && (v.terminalReached <==> profile.Outbound? && exists m :: MessageDone(m) in h)
  }

  // The rules for one more fact.
  ghost predicate MayFollow(h: seq<Fact>, fact: Fact, profile: Profile) {
    && (fact.MessageStart? ==> fact !in h)
    && (NeedsMessage(fact) ==> MessageStart(fact.messageId) in h && MessageDone(fact.messageId) !in h)
    && (profile.Outbound? ==> forall m :: MessageDone(m) !in h)
  }

  lemma StartsOnceAppend(h: seq<Fact>, fact: Fact)
    ensures StartsOnce(h + [fact]) <==> StartsOnce(h) && (fact.MessageStart? ==> fact !in h)
  {
    var g := h + [fact];
    assert g[|h|] == fact;
    assert forall i :: 0 <= i < |h| ==> g[i] == h[i];
  }

  lemma AfterStartAppend(h: seq<Fact>, fact: Fact)
    ensures AfterStart(h + [fact]) <==>
            AfterStart(h) && (NeedsMessage(fact) ==> MessageStart(fact.messageId) in h)
  {
    var g := h + [fact];
    assert g[|h|] == fact;
    assert forall i :: 0 <= i < |h| ==> g[i] == h[i];
    assert forall i :: 0 <= i <= |h| ==> g[..i] == h[..i];
    assert g[..|h|] == h;
  }

  lemma BeforeDoneAppend(h: seq<Fact>, fact: Fact)
    ensures BeforeDone(h + [fact]) <==>
            BeforeDone(h) && (NeedsMessage(fact) ==> MessageDone(fact.messageId) !in h)
  {
    var g := h + [fact];
    assert g[|h|] == fact;
    assert forall i :: 0 <= i < |h| ==> g[i] == h[i];
    DoneByIndex(h);
  }

  // Membership and index form of "some message is done".
  lemma DoneByIndex(h: seq<Fact>)
    ensures forall i :: 0 <= i < |h| && h[i].MessageDone? ==> MessageDone(h[i].messageId) in h
    ensures (forall m :: MessageDone(m) !in h) <==> (forall i :: 0 <= i < |h| ==> !h[i].MessageDone?)
  {
    forall i | 0 <= i < |h| && h[i].MessageDone? ensures MessageDone(h[i].messageId) in h {
      assert h[i] == MessageDone(h[i].messageId);
    }
  }

  lemma OrderedAppend(h: seq<Fact>, fact: Fact, profile: Profile)
    ensures Ordered(h + [fact], profile) <==> Ordered(h, profile) && MayFollow(h, fact, profile)
  {
    StartsOnceAppend(h, fact);
    AfterStartAppend(h, fact);
    BeforeDoneAppend(h, fact);
    var g := h + [fact];
    assert forall i :: 0 <= i < |h| ==> g[i] == h[i];
    DoneByIndex(h);
  }

  // One fact: the automaton moves exactly when the rules allow it, and keeps remembering.
  lemma {:induction false} AdvanceFollowsRules(v: Validation, h: seq<Fact>, fact: Fact, profile: Profile)
    requires Remembers(v, h, profile) && Ordered(h, profile)
    ensures Advance(v, fact, profile).Some? <==> MayFollow(h, fact, profile) && PayloadsOk(fact)
    ensures Advance(v, fact, profile).Some? ==> Remembers(Advance(v, fact, profile).value, h + [fact], profile)
  {
    var g := h + [fact];
    assert forall f :: f in g <==> f in h || f == fact;
    if Advance(v, fact, profile).Some? && fact.MessageDone? {
      assert MessageDone(fact.messageId) in g;
    }
  }

  /** The set-based validator accepts a fact sequence exactly when the ordering rules hold of it and
      every tool payload has the right shape; and it then remembers exactly which messages are open,
      which are done and whether an outbound stream has ended. */
  lemma {:induction false} AcceptsExactlyOrderedHistories(facts: seq<Fact>, profile: Profile)
    ensures Accepts(facts, profile) <==> Ordered(facts, profile) && AllPayloadsOk(facts)
    ensures Accepts(facts, profile) ==> Remembers(AdvanceAll(FRESH_VALIDATION, facts, profile).value, facts, profile)
    decreases |facts|
  {
    if facts != [] {
      var front, last := facts[..|facts| - 1], facts[|facts| - 1];
      AcceptsExactlyOrderedHistories(front, profile);
      assert facts == front + [last];
      OrderedAppend(front, last, profile);
      if Accepts(front, profile) {
        AdvanceFollowsRules(AdvanceAll(FRESH_VALIDATION, front, profile).value, front, last, profile);
      }
    }
  }

  // ---- The parts and tool calls it notes ----

  // The last text fact of the part is a delta.
  ghost predicate TextGoesOn(h: seq<Fact>, key: string) {
    exists i :: 0 <= i < |h| && h[i].TextDelta? && PartKey(h[i].messageId, h[i].partId) == key &&
      forall j :: i < j < |h| && h[j].TextDone? ==> PartKey(h[j].messageId, h[j].partId) != key
  }

  ghost predicate ThinkingGoesOn(h: seq<Fact>, key: string) {
    exists i :: 0 <= i < |h| && h[i].ThinkingDelta? && PartKey(h[i].messageId, h[i].partId) == key &&
      forall j :: i < j < |h| && h[j].ThinkingDone? ==> PartKey(h[j].messageId, h[j].partId) != key
  }

  ghost predicate CallIsKnown(h: seq<Fact>, toolCallId: string) {
    exists i :: 0 <= i < |h| && h[i].ToolUpdate? && h[i].toolCallId == toolCallId
  }

  ghost predicate Notes(v: Validation, h: seq<Fact>) {
    && (forall key :: key in v.openTextParts <==> TextGoesOn(h, key))
    && (forall key :: key in v.openThinkingParts <==> ThinkingGoesOn(h, key))
    && (forall t :: t in v.knownToolCallIds <==> CallIsKnown(h, t))
  }

  lemma TextGoesOnAppend(h: seq<Fact>, fact: Fact, key: string)
    ensures TextGoesOn(h + [fact], key) <==>
            if fact.TextDelta? && PartKey(fact.messageId, fact.partId) == key then true
            else TextGoesOn(h, key) && !(fact.TextDone? && PartKey(fact.messageId, fact.partId) == key)
  {
    var g := h + [fact];
    assert g[|h|] == fact && forall i :: 0 <= i < |h| ==> g[i] == h[i];
    if TextGoesOn(h, key) {
      var i :| 0 <= i < |h| && h[i].TextDelta? && PartKey(h[i].messageId, h[i].partId) == key &&
        forall j :: i < j < |h| && h[j].TextDone? ==> PartKey(h[j].messageId, h[j].partId) != key;
      assert g[i] == h[i];
    }
  }

  lemma ThinkingGoesOnAppend(h: seq<Fact>, fact: Fact, key: string)
    ensures ThinkingGoesOn(h + [fact], key) <==>
            if fact.ThinkingDelta? && PartKey(fact.messageId, fact.partId) == key then true
            else ThinkingGoesOn(h, key) && !(fact.ThinkingDone? && PartKey(fact.messageId, fact.partId) == key)
  {
    var g := h + [fact];
    assert g[|h|] == fact && forall i :: 0 <= i < |h| ==> g[i] == h[i];
    if ThinkingGoesOn(h, key) {
      var i :| 0 <= i < |h| && h[i].ThinkingDelta? && PartKey(h[i].messageId, h[i].partId) == key &&
        forall j :: i < j < |h| && h[j].ThinkingDone? ==> PartKey(h[j].messageId, h[j].partId) != key;
      assert g[i] == h[i];
    }
  }

  lemma CallIsKnownAppend(h: seq<Fact>, fact: Fact, toolCallId: string)
    ensures CallIsKnown(h + [fact], toolCallId) <==>
            CallIsKnown(h, toolCallId) || (fact.ToolUpdate? && fact.toolCallId == toolCallId)
  {
    var g := h + [fact];
    assert g[|h|] == fact && forall i :: 0 <= i < |h| ==> g[i] == h[i];
  }

  lemma AdvanceNotes(v: Validation, h: seq<Fact>, fact: Fact, profile: Profile)
    requires Notes(v, h) && Advance(v, fact, profile).Some?
    ensures Notes(Advance(v, fact, profile).value, h + [fact])
  {
    var w := Advance(v, fact, profile).value;
    forall key ensures key in w.openTextParts <==> TextGoesOn(h + [fact], key) {
      TextGoesOnAppend(h, fact, key);
    }
    forall key ensures key in w.openThinkingParts <==> ThinkingGoesOn(h + [fact], key) {
      ThinkingGoesOnAppend(h, fact, key);
    }
    forall t ensures t in w.knownToolCallIds <==> CallIsKnown(h + [fact], t) {
      CallIsKnownAppend(h, fact, t);
    }
  }

  /** An accepted history leaves noted exactly the text and thinking parts whose last fact is a delta, and the
      tool calls it updated. */
  lemma {:induction false} PartsAreNoted(h: seq<Fact>, profile: Profile)
    requires Accepts(h, profile)
    ensures Notes(AdvanceAll(FRESH_VALIDATION, h, profile).value, h)
  {
    if h != [] {
      var front, last := h[..|h| - 1], h[|h| - 1];
      PartsAreNoted(front, profile);
      AdvanceNotes(AdvanceAll(FRESH_VALIDATION, front, profile).value, front, last, profile);
      assert front + [last] == h;
    }
  }

  /** A rejected stream was rejected at its first offending fact: every shorter prefix is accepted. */
  lemma {:induction false} RejectsAtFirstOffence(facts: seq<Fact>, k: nat, profile: Profile)
    requires k <= |facts| && Accepts(facts, profile)
    ensures Accepts(facts[..k], profile)
    decreases |facts|
  {
    if k < |facts| {
      var front := facts[..|facts| - 1];
      RejectsAtFirstOffence(front, k, profile);
      assert front[..k] == facts[..k];
    } else {
      assert facts[..k] == facts;
    }
  }

  class ValidationSessionState {
    var terminalReached: bool
    var openMessages: set<string>
    var closedMessages: set<string>
    var openTextParts: set<string>
    var openThinkingParts: set<string>
    var knownToolCallIds: set<string>

    constructor ()
      ensures View() == FRESH_VALIDATION
    {
      terminalReached := false;
      openMessages, closedMessages := {}, {};
      openTextParts, openThinkingParts, knownToolCallIds := {}, {}, {};
    }

    function View(): Validation
      reads this
    {
      Validation(terminalReached, openMessages, closedMessages, openTextParts, openThinkingParts, knownToolCallIds)
    }

    // The throw leaves the state as it was.
    method Consume(fact: Fact, profile: Profile) returns (accepted: bool)
      modifies this
      ensures accepted <==> Advance(old(View()), fact, profile).Some?
      ensures View() == if accepted then Advance(old(View()), fact, profile).value else old(View())
    {
      if terminalReached {
        return false;
      }
      match fact {
      case MessageStart(m) =>
        if m in closedMessages || m in openMessages {
          return false;
        }
        openMessages := openMessages + {m};
      case MessageDone(m) =>
        if m !in openMessages {
          return false;
        }
        openMessages := openMessages - {m};
        closedMessages := closedMessages + {m};
        if profile.Outbound? && Classify(fact).marksOutboundTerminal {
          terminalReached := true;
        }
      case PermissionAsk(m, _, _, _) =>
        if Classify(fact).requiresOpenMessage && !View().AskIsOpen(m) {
          return false;
        }
      case PermissionReply(_, _) =>
      case SessionTitle =>
      case SessionError =>
      case _ =>
        if Classify(fact).requiresOpenMessage
           && (fact.messageId !in openMessages || fact.messageId in closedMessages) {
          return false;
        }
        if !PayloadsOk(fact) {
          return false;
        }
        NotePart(fact);
      }
      accepted := true;
    }

    method NotePart(fact: Fact)
      modifies this
      ensures View() == NotedPart(old(View()), fact)
    {
      match fact
      case TextDelta(m, p, _) => openTextParts := openTextParts + {PartKey(m, p)};
      case TextDone(m, p, _) => openTextParts := openTextParts - {PartKey(m, p)};
      case ThinkingDelta(m, p, _) => openThinkingParts := openThinkingParts + {PartKey(m, p)};
      case ThinkingDone(m, p, _) => openThinkingParts := openThinkingParts - {PartKey(m, p)};
      case ToolUpdate(_, t, _, _) => knownToolCallIds := knownToolCallIds + {t};
      case _ =>
    }
  }
}
