// QR-code authorisation: poll, refresh on expiry, de-duplicate what is reported
// (skill-qrcode-auth/src/internal/QrCodeAuthSessionController.ts, buildSnapshotKey.ts).
module QrCodeAuth {
  import opened Prelude

  datatype Reason = Timeout | NetworkError | AuthServiceError

  datatype Snapshot =
    | QrCodeGenerated(qrcode: string)
    | Scanned(qrcode: string)
    | Expired(qrcode: string)
    | Cancelled(qrcode: string)
    | Confirmed(qrcode: string)
    | Failed(failedQrcode: Option<string>, reason: Reason)

  function ReasonCode(reason: Reason): string {
    match reason
    case Timeout => "timeout"
    case NetworkError => "network_error"
    case AuthServiceError => "auth_service_error"
  }

  function QrCodeOr(qrcode: Option<string>): string {
    if qrcode.Some? then qrcode.value else "session"
  }

  // buildSnapshotKey.ts.
  function Key(snapshot: Snapshot): string {
    match snapshot
    case QrCodeGenerated(q) => "qrcode_generated:" + q
    case Scanned(q) => "scanned:" + q
    case Expired(q) => "expired:" + q
    case Cancelled(q) => "cancelled:" + q
    case Confirmed(q) => "confirmed:" + q
    case Failed(q, reason) => "failed:" + (QrCodeOr(q) + (":" + ReasonCode(reason)))
  }

  predicate IsTerminal(snapshot: Snapshot) {
    snapshot.Cancelled? || snapshot.Confirmed? || snapshot.Failed?
  }

  // The same report: kind and QR code, and for a failure the reason; a failure without code counts as "session".
  predicate SameReport(a: Snapshot, b: Snapshot) {
    match a
    case QrCodeGenerated(q) => b == QrCodeGenerated(q)
    case Scanned(q) => b == Scanned(q)
    case Expired(q) => b == Expired(q)
    case Cancelled(q) => b == Cancelled(q)
    case Confirmed(q) => b == Confirmed(q)
    case Failed(q, reason) => b.Failed? && QrCodeOr(q) == QrCodeOr(b.failedQrcode) && reason == b.reason
  }

  lemma TailsDecide(head: string, q: string, other: string)
    ensures head + q == head + other <==> q == other
  {
    assert (head + q)[|head|..] == q;
    assert (head + other)[|head|..] == other;
  }

  lemma ReasonByLetters(reason: Reason, other: Reason)
    requires var code, otherCode := ":" + ReasonCode(reason), ":" + ReasonCode(other);
             code[|code| - 1] == otherCode[|otherCode| - 1] && code[|code| - 7] == otherCode[|otherCode| - 7]
    ensures reason == other
  {
  }

  // Reason codes differ in their last or seventh-last letter, so a failure key gives its reason away.
  lemma FailureTails(q: string, reason: Reason, other: string, otherReason: Reason)
    ensures q + (":" + ReasonCode(reason)) == other + (":" + ReasonCode(otherReason))
       <==> q == other && reason == otherReason
  {
    var tail, otherTail := ":" + ReasonCode(reason), ":" + ReasonCode(otherReason);
    var key, otherKey := q + tail, other + otherTail;
    assert key[|key| - 1] == tail[|tail| - 1] && key[|key| - 7] == tail[|tail| - 7];
    assert otherKey[|otherKey| - 1] == otherTail[|otherTail| - 1] &&
        otherKey[|otherKey| - 7] == otherTail[|otherTail| - 7];
    if key == otherKey {
      ReasonByLetters(reason, otherReason);
    }
    assert key[..|q|] == q && otherKey[..|other|] == other;
  }

  /** Two snapshots have the same key exactly when they are the same report. */
  lemma KeyIdentifiesTheReport(a: Snapshot, b: Snapshot)
    ensures Key(a) == Key(b) <==> SameReport(a, b)
  {
    assert Key(a)[0] == Key(b)[0] && Key(a)[1] == Key(b)[1] ==> a.Failed? == b.Failed?;
    match a {
      case QrCodeGenerated(q) => if b.QrCodeGenerated? { TailsDecide("qrcode_generated:", q, b.qrcode); }
      case Scanned(q) => if b.Scanned? { TailsDecide("scanned:", q, b.qrcode); }
      case Expired(q) => if b.Expired? { TailsDecide("expired:", q, b.qrcode); }
      case Cancelled(q) => if b.Cancelled? { TailsDecide("cancelled:", q, b.qrcode); }
      case Confirmed(q) => if b.Confirmed? { TailsDecide("confirmed:", q, b.qrcode); }
      case Failed(q, reason) =>
        if b.Failed? {
          var tail, otherTail := QrCodeOr(q) + (":" + ReasonCode(reason)),
              QrCodeOr(b.failedQrcode) + (":" + ReasonCode(b.reason));
          TailsDecide("failed:", tail, otherTail);
          FailureTails(QrCodeOr(q), reason, QrCodeOr(b.failedQrcode), b.reason);
        }
    }
    if a.Cancelled? && b.Confirmed? {
      assert Key(a)[1] != Key(b)[1];
    }
    if a.Confirmed? && b.Cancelled? {
      assert Key(a)[1] != Key(b)[1];
    }
  }

  // ---- One run, answer by answer ----

  datatype Policy = Policy(refreshOnExpired: bool, maxRefreshCount: int)

  datatype CreateResult = Created(qrcode: string) | CreateFailed(failedQrcode: Option<string>, reason: Reason)

  // Anything unknown is treated as waiting.
  datatype QueryResult =
    | StillWaiting
    | WasScanned(qrcode: string)
    | HasExpired(qrcode: string)
    | WasCancelled(qrcode: string)
    | WasConfirmed(qrcode: string)
    | QueryFailed(failedQrcode: Option<string>, reason: Reason)

  // What the loop waits for next.
  datatype Phase = Creating | Polling | Returned

  // What was reported, and under which keys.
  datatype Log = Log(keys: set<string>, snapshots: seq<Snapshot>)
  {
    function Emit(snapshot: Snapshot): Log {
      if Key(snapshot) in keys then this else Log(keys + {Key(snapshot)}, snapshots + [snapshot])
    }
  }

  datatype Controller = Controller(phase: Phase, refreshCount: nat, creations: nat, queries: nat, log: Log)

  const FRESH_CONTROLLER := Controller(Creating, 0, 0, 0, Log({}, []))

  function OnCreated(s: Controller, result: CreateResult): Controller {
    match result
    case Created(q) => s.(creations := s.creations + 1, log := s.log.Emit(QrCodeGenerated(q)), phase := Polling)
    case CreateFailed(q, reason) =>
        s.(creations := s.creations + 1, log := s.log.Emit(Failed(q, reason)), phase := Returned)
  }

  // handleQueryResult: what is reported, and whether the answer is final.
  function Reported(log: Log, result: QueryResult): Log {
    match result
    case StillWaiting => log
    case WasScanned(q) => log.Emit(Scanned(q))
    case HasExpired(q) => log.Emit(Expired(q))
    case WasCancelled(q) => log.Emit(Cancelled(q))
    case WasConfirmed(q) => log.Emit(Confirmed(q))
    case QueryFailed(q, reason) => log.Emit(Failed(q, reason))
  }

  predicate IsFinal(result: QueryResult) {
    result.WasCancelled? || result.WasConfirmed? || result.QueryFailed?
  }

  predicate RefreshesOver(policy: Policy, refreshCount: nat) {
    !policy.refreshOnExpired || refreshCount >= policy.maxRefreshCount
  }

  function OnQueried(policy: Policy, s: Controller, result: QueryResult): Controller {
    var s1 := s.(queries := s.queries + 1, log := Reported(s.log, result));
    if IsFinal(result) then s1.(phase := Returned)
    else if !result.HasExpired? then s1
    else if RefreshesOver(policy, s.refreshCount) then
      s1.(log := s1.log.Emit(Failed(Some(result.qrcode), Timeout)), phase := Returned)
    else s1.(refreshCount := s.refreshCount + 1, phase := Creating)
  }

  // The service's answers, in the order they are asked for.
  function Answered(policy: Policy, creates: nat -> CreateResult, queries: nat -> QueryResult,
      s: Controller): Controller {
    match s.phase
    case Creating => OnCreated(s, creates(s.creations))
    case Polling => OnQueried(policy, s, queries(s.queries))
    case Returned => s
  }

  function After(policy: Policy, creates: nat -> CreateResult, queries: nat -> QueryResult, answers: nat): Controller {
    if answers == 0 then FRESH_CONTROLLER
    else Answered(policy, creates, queries, After(policy, creates, queries, answers - 1))
  }

  lemma AfterNext(policy: Policy, creates: nat -> CreateResult, queries: nat -> QueryResult, answers: nat)
    ensures After(policy, creates, queries, 0) == FRESH_CONTROLLER
    ensures After(policy, creates, queries, answers + 1) ==
            Answered(policy, creates, queries, After(policy, creates, queries, answers))
  {
  }

  function RefreshBound(policy: Policy): nat {
    if policy.refreshOnExpired && policy.maxRefreshCount > 0 then policy.maxRefreshCount else 0
  }

  predicate CountsInv(policy: Policy, s: Controller) {
    s.refreshCount <= RefreshBound(policy) && s.creations == s.refreshCount + (if s.phase.Creating? then 0 else 1)
  }

  // The keys are those of the snapshots, each reported once.
  ghost predicate LogInv(log: Log) {
    && (forall key :: key in log.keys <==> exists i :: 0 <= i < |log.snapshots| && Key(log.snapshots[i]) == key)
    && (forall i, j :: 0 <= i < j < |log.snapshots| ==> Key(log.snapshots[i]) != Key(log.snapshots[j]))
  }

  predicate NoTerminal(snapshots: seq<Snapshot>) {
    forall i :: 0 <= i < |snapshots| ==> !IsTerminal(snapshots[i])
  }

  predicate EndsInTerminal(snapshots: seq<Snapshot>) {
    |snapshots| > 0 && NoTerminal(snapshots[..|snapshots| - 1]) && IsTerminal(snapshots[|snapshots| - 1])
  }

  ghost predicate Inv(policy: Policy, s: Controller) {
    && CountsInv(policy, s) && LogInv(s.log)
    && if s.phase.Returned? then EndsInTerminal(s.log.snapshots) else NoTerminal(s.log.snapshots)
  }

  lemma EmitKeepsLog(log: Log, snapshot: Snapshot)
    requires LogInv(log)
    ensures LogInv(log.Emit(snapshot))
    ensures NoTerminal(log.snapshots) && !IsTerminal(snapshot) ==> NoTerminal(log.Emit(snapshot).snapshots)
  {
    var after := log.Emit(snapshot);
    if Key(snapshot) !in log.keys {
      assert after.snapshots[|log.snapshots|] == snapshot;
      forall key
        ensures key in after.keys <==> exists i :: 0 <= i < |after.snapshots| && Key(after.snapshots[i]) == key
      {
        if key in log.keys {
          var i :| 0 <= i < |log.snapshots| && Key(log.snapshots[i]) == key;
          assert Key(after.snapshots[i]) == key;
        } else if key in after.keys {
          assert Key(after.snapshots[|log.snapshots|]) == key;
        }
      }
      forall i | 0 <= i < |log.snapshots| ensures Key(after.snapshots[i]) != Key(snapshot) {
        assert Key(log.snapshots[i]) in log.keys;
      }
    }
  }

  /** De-duplication never swallows the terminal snapshot: no earlier report can have its key. */
  lemma TerminalIsEmitted(log: Log, snapshot: Snapshot)
    requires LogInv(log) && NoTerminal(log.snapshots) && IsTerminal(snapshot)
    ensures log.Emit(snapshot).snapshots == log.snapshots + [snapshot]
    ensures LogInv(log.Emit(snapshot)) && EndsInTerminal(log.Emit(snapshot).snapshots)
  {
    EmitKeepsLog(log, snapshot);
    forall i | 0 <= i < |log.snapshots| ensures Key(log.snapshots[i]) != Key(snapshot) {
      KeyIdentifiesTheReport(log.snapshots[i], snapshot);
    }
    assert Key(snapshot) !in log.keys;
    assert (log.snapshots + [snapshot])[..|log.snapshots|] == log.snapshots;
  }

  lemma ReportKeepsLog(log: Log, result: QueryResult)
    requires LogInv(log) && NoTerminal(log.snapshots)
    ensures LogInv(Reported(log, result))
    ensures if IsFinal(result) then EndsInTerminal(Reported(log, result).snapshots)
            else NoTerminal(Reported(log, result).snapshots)
  {
    match result
    case StillWaiting =>
    case WasScanned(q) => EmitKeepsLog(log, Scanned(q));
    case HasExpired(q) => EmitKeepsLog(log, Expired(q));
    case WasCancelled(q) => TerminalIsEmitted(log, Cancelled(q));
    case WasConfirmed(q) => TerminalIsEmitted(log, Confirmed(q));
    case QueryFailed(q, reason) => TerminalIsEmitted(log, Failed(q, reason));
  }

  lemma CreatedKeepsInv(policy: Policy, s: Controller, result: CreateResult)
    requires Inv(policy, s) && s.phase.Creating?
    ensures Inv(policy, OnCreated(s, result))
  {
    match result
    case Created(q) => EmitKeepsLog(s.log, QrCodeGenerated(q));
    case CreateFailed(q, reason) => TerminalIsEmitted(s.log, Failed(q, reason));
  }

  lemma QueriedKeepsInv(policy: Policy, s: Controller, result: QueryResult)
    requires Inv(policy, s) && s.phase.Polling?
    ensures Inv(policy, OnQueried(policy, s, result))
  {
    ReportKeepsLog(s.log, result);
    if result.HasExpired? && RefreshesOver(policy, s.refreshCount) {
      TerminalIsEmitted(Reported(s.log, result), Failed(Some(result.qrcode), Timeout));
    }
  }

  lemma {:induction false} RunKeepsInv(policy: Policy, creates: nat -> CreateResult, queries: nat -> QueryResult,
      answers: nat)
    ensures Inv(policy, After(policy, creates, queries, answers))
  {
    if answers > 0 {
      RunKeepsInv(policy, creates, queries, answers - 1);
      var s := After(policy, creates, queries, answers - 1);
      if s.phase.Creating? {
        CreatedKeepsInv(policy, s, creates(s.creations));
      } else if s.phase.Polling? {
        QueriedKeepsInv(policy, s, queries(s.queries));
      }
    }
  }

  /** For every stream of service answers and at every moment: at most maxRefreshCount + 1 sessions have been
      asked for (one without refresh), and no report was emitted twice. */
  lemma BoundedSessionsAndNoRepeats(policy: Policy, creates: nat -> CreateResult, queries: nat -> QueryResult,
      answers: nat)
    ensures var s := After(policy, creates, queries, answers);
            && s.creations <= RefreshBound(policy) + 1
            && forall i, j :: 0 <= i < j < |s.log.snapshots| ==> !SameReport(s.log.snapshots[i], s.log.snapshots[j])
  {
    RunKeepsInv(policy, creates, queries, answers);
    var s := After(policy, creates, queries, answers);
    forall i, j | 0 <= i < j < |s.log.snapshots| ensures !SameReport(s.log.snapshots[i], s.log.snapshots[j]) {
      KeyIdentifiesTheReport(s.log.snapshots[i], s.log.snapshots[j]);
    }
  }

  /** The run has returned exactly when a terminal snapshot was emitted; it is then the last one and the only one. */
  lemma ReturnsWithOneTerminal(policy: Policy, creates: nat -> CreateResult, queries: nat -> QueryResult,
      answers: nat, i: nat)
    requires i < |After(policy, creates, queries, answers).log.snapshots|
    ensures var s := After(policy, creates, queries, answers);
            IsTerminal(s.log.snapshots[i]) <==> s.phase.Returned? && i == |s.log.snapshots| - 1
  {
    RunKeepsInv(policy, creates, queries, answers);
    OnlyTheLastIsTerminal(policy, After(policy, creates, queries, answers), i);
  }

  lemma OnlyTheLastIsTerminal(policy: Policy, s: Controller, i: nat)
    requires Inv(policy, s) && i < |s.log.snapshots|
    ensures IsTerminal(s.log.snapshots[i]) <==> s.phase.Returned? && i == |s.log.snapshots| - 1
  {
    var snapshots := s.log.snapshots;
    if i < |snapshots| - 1 {
      assert snapshots[..|snapshots| - 1][i] == snapshots[i];
    }
  }

  /** ... and a run that has returned did emit. */
  lemma ReturnedRunReported(policy: Policy, creates: nat -> CreateResult, queries: nat -> QueryResult, answers: nat)
    requires After(policy, creates, queries, answers).phase.Returned?
    ensures var s := After(policy, creates, queries, answers);
            |s.log.snapshots| > 0 && IsTerminal(s.log.snapshots[|s.log.snapshots| - 1])
    ensures After(policy, creates, queries, answers + 1) == After(policy, creates, queries, answers)
  {
    RunKeepsInv(policy, creates, queries, answers);
  }

  // ---- What is reported, against the answers themselves ----

  // What one emission adds: the snapshot, unless the same one was reported before.
  lemma EmitAdds(log: Log, snapshot: Snapshot)
    requires LogInv(log)
    ensures log.snapshots <= log.Emit(snapshot).snapshots
    ensures forall r: Snapshot :: !r.Failed? ==>
              (r in log.Emit(snapshot).snapshots <==> r in log.snapshots || r == snapshot)
    ensures log.Emit(snapshot).snapshots == log.snapshots || log.Emit(snapshot).snapshots == log.snapshots + [snapshot]
  {
    if Key(snapshot) in log.keys && !snapshot.Failed? {
      var i :| 0 <= i < |log.snapshots| && Key(log.snapshots[i]) == Key(snapshot);
      KeyIdentifiesTheReport(log.snapshots[i], snapshot);
    }
  }

  // The service has given this answer among the first n.
  ghost predicate HasMade(creates: nat -> CreateResult, n: nat, answer: CreateResult) {
    exists k :: 0 <= k < n && creates(k) == answer
  }

  ghost predicate HasSaid(queries: nat -> QueryResult, n: nat, answer: QueryResult) {
    exists k :: 0 <= k < n && queries(k) == answer
  }

  // A code that was created, scanned or expired is reported as such exactly if the service said so.
  ghost predicate ReportsCreated(s: Controller, creates: nat -> CreateResult) {
    forall q :: QrCodeGenerated(q) in s.log.snapshots <==> HasMade(creates, s.creations, Created(q))
  }

  ghost predicate ReportsProgress(s: Controller, queries: nat -> QueryResult) {
    && (forall q :: Scanned(q) in s.log.snapshots <==> HasSaid(queries, s.queries, WasScanned(q)))
    && (forall q :: Expired(q) in s.log.snapshots <==> HasSaid(queries, s.queries, HasExpired(q)))
  }

  lemma OneMoreMade(creates: nat -> CreateResult, n: nat, answer: CreateResult)
    ensures HasMade(creates, n + 1, answer) <==> HasMade(creates, n, answer) || creates(n) == answer
  {
  }

  lemma OneMoreSaid(queries: nat -> QueryResult, n: nat, answer: QueryResult)
    ensures HasSaid(queries, n + 1, answer) <==> HasSaid(queries, n, answer) || queries(n) == answer
  {
  }

  // The answer that ended a run, and what the last snapshot says about it.
  predicate TellsTheEnd(s: Controller, creates: nat -> CreateResult, queries: nat -> QueryResult)
    requires |s.log.snapshots| > 0 && s.creations > 0
  {
    var last := s.log.snapshots[|s.log.snapshots| - 1];
    match creates(s.creations - 1)
    case CreateFailed(q, reason) => last == Failed(q, reason)
    case Created(_) =>
      && s.queries > 0
      && match queries(s.queries - 1)
         case WasConfirmed(q) => last == Confirmed(q)
         case WasCancelled(q) => last == Cancelled(q)
         case QueryFailed(q, reason) => last == Failed(q, reason)
         case HasExpired(q) => last == Failed(Some(q), Timeout)
         case _ => false
  }

  ghost predicate ToldInv(s: Controller, creates: nat -> CreateResult, queries: nat -> QueryResult) {
    && ReportsCreated(s, creates) && ReportsProgress(s, queries)
    && (s.phase.Polling? ==> s.creations > 0 && creates(s.creations - 1).Created?)
    && (s.phase.Returned? ==> |s.log.snapshots| > 0 && s.creations > 0 && TellsTheEnd(s, creates, queries))
  }

  lemma CreatedIsTold(policy: Policy, s: Controller, creates: nat -> CreateResult, queries: nat -> QueryResult)
    requires Inv(policy, s) && ToldInv(s, creates, queries) && s.phase.Creating?
    ensures ToldInv(OnCreated(s, creates(s.creations)), creates, queries)
    ensures s.log.snapshots <= OnCreated(s, creates(s.creations)).log.snapshots
  {
    var result := creates(s.creations);
    var t := OnCreated(s, result);
    CreationAdds(policy, s, result);
    forall q ensures QrCodeGenerated(q) in t.log.snapshots <==> HasMade(creates, t.creations, Created(q)) {
      OneMoreMade(creates, s.creations, Created(q));
    }
  }

  lemma CreationAdds(policy: Policy, s: Controller, result: CreateResult)
    requires Inv(policy, s) && s.phase.Creating?
    ensures var t := OnCreated(s, result);
            && s.log.snapshots <= t.log.snapshots
            && t.creations == s.creations + 1 && t.queries == s.queries
            && (forall q :: QrCodeGenerated(q) in t.log.snapshots <==>
                  QrCodeGenerated(q) in s.log.snapshots || result == Created(q))
            && (forall q :: Scanned(q) in t.log.snapshots <==> Scanned(q) in s.log.snapshots)
            && (forall q :: Expired(q) in t.log.snapshots <==> Expired(q) in s.log.snapshots)
            && (if result.Created? then t.phase.Polling?
                else
                  && t.phase.Returned? && |t.log.snapshots| > 0
                  && t.log.snapshots[|t.log.snapshots| - 1] == Failed(result.failedQrcode, result.reason))
  {
    match result
    case Created(q) => EmitAdds(s.log, QrCodeGenerated(q));
    case CreateFailed(q, reason) =>
      EmitAdds(s.log, Failed(q, reason));
      TerminalIsEmitted(s.log, Failed(q, reason));
  }

  // The report an answer brings about a code that is not settled by it.
  function ProgressOf(result: QueryResult): Option<Snapshot> {
    match result
    case WasScanned(q) => Some(Scanned(q))
    case HasExpired(q) => Some(Expired(q))
    case _ => None
  }

  lemma ReportAdds(log: Log, result: QueryResult)
    requires LogInv(log) && NoTerminal(log.snapshots)
    ensures var after := Reported(log, result).snapshots;
            && log.snapshots <= after
            && (forall r: Snapshot :: !IsTerminal(r) ==>
                  (r in after <==> r in log.snapshots || ProgressOf(result) == Some(r)))
            && (IsFinal(result) ==>
                  && |after| > 0
                  && match result
                     case WasConfirmed(q) => after[|after| - 1] == Confirmed(q)
                     case WasCancelled(q) => after[|after| - 1] == Cancelled(q)
                     case QueryFailed(q, reason) => after[|after| - 1] == Failed(q, reason)
                     case _ => false)
  {
    match result
    case StillWaiting =>
    case WasScanned(q) => EmitAdds(log, Scanned(q));
    case HasExpired(q) => EmitAdds(log, Expired(q));
    case WasCancelled(q) => EmitAdds(log, Cancelled(q)); TerminalIsEmitted(log, Cancelled(q));
    case WasConfirmed(q) => EmitAdds(log, Confirmed(q)); TerminalIsEmitted(log, Confirmed(q));
    case QueryFailed(q, reason) => EmitAdds(log, Failed(q, reason)); TerminalIsEmitted(log, Failed(q, reason));
  }

  // Also counting the report of a run that an expiry ends.
  lemma QueryAdds(policy: Policy, s: Controller, result: QueryResult)
    requires Inv(policy, s) && s.phase.Polling?
    ensures var t := OnQueried(policy, s, result);
            && s.log.snapshots <= t.log.snapshots
            && t.creations == s.creations && t.queries == s.queries + 1
            && (forall r: Snapshot :: !IsTerminal(r) ==>
                  (r in t.log.snapshots <==> r in s.log.snapshots || ProgressOf(result) == Some(r)))
            && (t.phase.Returned? ==>
                  && |t.log.snapshots| > 0
                  && match result
                     case WasConfirmed(q) => t.log.snapshots[|t.log.snapshots| - 1] == Confirmed(q)
                     case WasCancelled(q) => t.log.snapshots[|t.log.snapshots| - 1] == Cancelled(q)
                     case QueryFailed(q, reason) => t.log.snapshots[|t.log.snapshots| - 1] == Failed(q, reason)
                     case HasExpired(q) => t.log.snapshots[|t.log.snapshots| - 1] == Failed(Some(q), Timeout)
                     case _ => false)
  {
    ReportAdds(s.log, result);
    ReportKeepsLog(s.log, result);
    if result.HasExpired? && RefreshesOver(policy, s.refreshCount) {
      var log, end := Reported(s.log, result), Failed(Some(result.qrcode), Timeout);
      EmitAdds(log, end);
      TerminalIsEmitted(log, end);
    }
  }

  // One more query answer, and the report it brings about its code.
  lemma ProgressIsTold(s: Controller, t: Controller, creates: nat -> CreateResult, queries: nat -> QueryResult)
    requires ReportsCreated(s, creates) && ReportsProgress(s, queries)
    requires t.creations == s.creations && t.queries == s.queries + 1
    requires forall r: Snapshot :: !IsTerminal(r) ==>
                 (r in t.log.snapshots <==> r in s.log.snapshots || ProgressOf(queries(s.queries)) == Some(r))
    ensures ReportsCreated(t, creates) && ReportsProgress(t, queries)
  {
    forall q ensures QrCodeGenerated(q) in t.log.snapshots <==> QrCodeGenerated(q) in s.log.snapshots {
      assert !IsTerminal(QrCodeGenerated(q));
    }
    forall q ensures Scanned(q) in t.log.snapshots <==> HasSaid(queries, t.queries, WasScanned(q)) {
      assert !IsTerminal(Scanned(q));
      OneMoreSaid(queries, s.queries, WasScanned(q));
    }
    forall q ensures Expired(q) in t.log.snapshots <==> HasSaid(queries, t.queries, HasExpired(q)) {
      assert !IsTerminal(Expired(q));
      OneMoreSaid(queries, s.queries, HasExpired(q));
    }
  }

  lemma QueriedEnds(policy: Policy, s: Controller, creates: nat -> CreateResult, queries: nat -> QueryResult)
    requires Inv(policy, s) && s.phase.Polling? && s.creations > 0 && creates(s.creations - 1).Created?
    ensures var t := OnQueried(policy, s, queries(s.queries));
            && t.creations == s.creations
            && (t.phase.Returned? ==> |t.log.snapshots| > 0 && TellsTheEnd(t, creates, queries))
  {
    QueryAdds(policy, s, queries(s.queries));
  }

  lemma QueriedProgress(policy: Policy, s: Controller, creates: nat -> CreateResult, queries: nat -> QueryResult)
    requires Inv(policy, s) && s.phase.Polling? && ReportsCreated(s, creates) && ReportsProgress(s, queries)
    ensures var t := OnQueried(policy, s, queries(s.queries));
            ReportsCreated(t, creates) && ReportsProgress(t, queries) && s.log.snapshots <= t.log.snapshots
  {
    QueryAdds(policy, s, queries(s.queries));
    ProgressIsTold(s, OnQueried(policy, s, queries(s.queries)), creates, queries);
  }

  lemma QueriedIsTold(policy: Policy, s: Controller, creates: nat -> CreateResult, queries: nat -> QueryResult)
    requires Inv(policy, s) && ToldInv(s, creates, queries) && s.phase.Polling?
    ensures ToldInv(OnQueried(policy, s, queries(s.queries)), creates, queries)
    ensures s.log.snapshots <= OnQueried(policy, s, queries(s.queries)).log.snapshots
  {
    QueriedProgress(policy, s, creates, queries);
    QueriedEnds(policy, s, creates, queries);
  }

  lemma AnswerIsTold(policy: Policy, creates: nat -> CreateResult, queries: nat -> QueryResult, s: Controller)
    requires Inv(policy, s) && ToldInv(s, creates, queries)
    ensures ToldInv(Answered(policy, creates, queries, s), creates, queries)
    ensures s.log.snapshots <= Answered(policy, creates, queries, s).log.snapshots
  {
    match s.phase
    case Creating => CreatedIsTold(policy, s, creates, queries);
    case Polling => QueriedIsTold(policy, s, creates, queries);
    case Returned =>
  }

  lemma {:induction false} RunIsTold(policy: Policy, creates: nat -> CreateResult, queries: nat -> QueryResult,
      answers: nat)
    ensures ToldInv(After(policy, creates, queries, answers), creates, queries)
  {
    if answers == 0 {
      NothingIsTold(creates, queries);
    } else {
      RunIsTold(policy, creates, queries, answers - 1);
      RunKeepsInv(policy, creates, queries, answers - 1);
      AnswerIsTold(policy, creates, queries, After(policy, creates, queries, answers - 1));
    }
  }

  lemma NothingIsTold(creates: nat -> CreateResult, queries: nat -> QueryResult)
    ensures ToldInv(FRESH_CONTROLLER, creates, queries)
  {
  }

  /** The last snapshot of a run that has returned names the answer that ended it, and its code: confirmed,
      cancelled, failed with its reason, a failed creation, or the expiry that was not refreshed any more. */
  lemma ReturnedRunTellsTheEnd(policy: Policy, creates: nat -> CreateResult, queries: nat -> QueryResult, answers: nat)
    requires After(policy, creates, queries, answers).phase.Returned?
    ensures var s := After(policy, creates, queries, answers);
            |s.log.snapshots| > 0 && s.creations > 0 && TellsTheEnd(s, creates, queries)
  {
    RunIsTold(policy, creates, queries, answers);
  }

  /** At every moment exactly the codes the service has created, scanned or expired so far are reported as that,
      and what was reported is only ever added to at the end. */
  lemma EveryAnswerIsReported(policy: Policy, creates: nat -> CreateResult, queries: nat -> QueryResult, answers: nat)
    ensures var s := After(policy, creates, queries, answers);
            ReportsCreated(s, creates) && ReportsProgress(s, queries)
    ensures After(policy, creates, queries, answers).log.snapshots <=
            After(policy, creates, queries, answers + 1).log.snapshots
  {
    RunIsTold(policy, creates, queries, answers);
    RunKeepsInv(policy, creates, queries, answers);
    AnswerIsTold(policy, creates, queries, After(policy, creates, queries, answers));
  }

  // How many of the first n query answers were expiries.
  function Expiries(queries: nat -> QueryResult, n: nat): nat {
    if n == 0 then 0 else Expiries(queries, n - 1) + (if queries(n - 1).HasExpired? then 1 else 0)
  }

  // The counts against the number of expiries seen.
  predicate ExpiriesInv(policy: Policy, s: Controller, expiries: nat) {
    && s.refreshCount <= expiries <= s.refreshCount + 1
    && (!s.phase.Returned? ==> expiries == s.refreshCount)
    && (expiries > s.refreshCount ==> RefreshesOver(policy, s.refreshCount))
  }

  lemma QueriedCountsExpiries(policy: Policy, s: Controller, result: QueryResult, expiries: nat)
    requires ExpiriesInv(policy, s, expiries) && s.phase.Polling?
    ensures ExpiriesInv(policy, OnQueried(policy, s, result), expiries + (if result.HasExpired? then 1 else 0))
    ensures OnQueried(policy, s, result).queries == s.queries + 1
  {
  }

  lemma {:induction false} RunCountsExpiries(policy: Policy, creates: nat -> CreateResult,
      queries: nat -> QueryResult, answers: nat)
    ensures var s := After(policy, creates, queries, answers);
            ExpiriesInv(policy, s, Expiries(queries, s.queries))
  {
    if answers > 0 {
      RunCountsExpiries(policy, creates, queries, answers - 1);
      var s := After(policy, creates, queries, answers - 1);
      if s.phase.Polling? {
        QueriedCountsExpiries(policy, s, queries(s.queries), Expiries(queries, s.queries));
      }
    }
  }

  /** Every expiry but a last one is answered with a new session; one expiry more than the policy refreshes
      ends the run. */
  lemma {:induction false} ExpiriesAreRefreshed(policy: Policy, creates: nat -> CreateResult,
      queries: nat -> QueryResult, answers: nat)
    ensures var s := After(policy, creates, queries, answers);
            && s.refreshCount <= Expiries(queries, s.queries) <= s.refreshCount + 1
            && (!s.phase.Returned? ==> Expiries(queries, s.queries) == s.refreshCount)
            && (Expiries(queries, s.queries) > RefreshBound(policy) ==> s.phase.Returned?)
  {
    RunKeepsInv(policy, creates, queries, answers);
    RunCountsExpiries(policy, creates, queries, answers);
  }

  /** A run that an expiry ends reports that very code as timed out; any other expiry asks for a new session. */
  lemma ExpiryRefreshesOrTimesOut(policy: Policy, creates: nat -> CreateResult, queries: nat -> QueryResult,
      answers: nat)
    requires After(policy, creates, queries, answers).phase.Polling?
    requires queries(After(policy, creates, queries, answers).queries).HasExpired?
    ensures var s, t := After(policy, creates, queries, answers), After(policy, creates, queries, answers + 1);
            if policy.refreshOnExpired && s.refreshCount < policy.maxRefreshCount then
              t.phase.Creating? && t.refreshCount == s.refreshCount + 1
            else
              && t.phase.Returned? && |t.log.snapshots| > 0
              && t.log.snapshots[|t.log.snapshots| - 1] == Failed(Some(queries(s.queries).qrcode), Timeout)
  {
    RunKeepsInv(policy, creates, queries, answers);
    var s := After(policy, creates, queries, answers);
    var result := queries(s.queries);
    AfterNext(policy, creates, queries, answers);
    ReportKeepsLog(s.log, result);
    TerminalIsEmitted(Reported(s.log, result), Failed(Some(result.qrcode), Timeout));
  }

  // ---- The controller ----

  class QrCodeAuthSessionController {
    const policy: Policy
    var emittedKeys: set<string>
    // What onSnapshot was called with.
    var snapshots: seq<Snapshot>
    // How many answers of each kind were asked for.
    var creations: nat
    var queries: nat

    constructor (policy: Policy)
      ensures this.policy == policy && Reports() == Log({}, []) && creations == 0 && queries == 0
    {
      this.policy := policy;
      emittedKeys, snapshots, creations, queries := {}, [], 0, 0;
    }

    function Reports(): Log
      reads this
    {
      Log(emittedKeys, snapshots)
    }

    method EmitSnapshot(snapshot: Snapshot)
      modifies this`emittedKeys, this`snapshots
      ensures Reports() == old(Reports()).Emit(snapshot)
    {
      var key := Key(snapshot);
      if key in emittedKeys {
        return;
      }
      emittedKeys := emittedKeys + {key};
      snapshots := snapshots + [snapshot];
    }

    method CreateAndEmitSession(creates: nat -> CreateResult, ghost refreshCount: nat) returns (active: bool)
      modifies this`creations, this`emittedKeys, this`snapshots
      ensures creations == old(creations) + 1
      ensures active <==> creates(old(creations)).Created?
      ensures Controller(if active then Polling else Returned, refreshCount, creations, queries, Reports()) ==
              OnCreated(Controller(Creating, refreshCount, old(creations), queries, old(Reports())),
                  creates(old(creations)))
    {
      var result := creates(creations);
      creations := creations + 1;
      if result.CreateFailed? {
        EmitSnapshot(Failed(result.failedQrcode, result.reason));
        return false;
      }
      EmitSnapshot(QrCodeGenerated(result.qrcode));
      active := true;
    }

    method HandleQueryResult(result: QueryResult) returns (terminal: bool)
      modifies this`emittedKeys, this`snapshots
      ensures terminal <==> IsFinal(result)
      ensures Reports() == Reported(old(Reports()), result)
    {
      match result
      case StillWaiting => return false;
      case WasScanned(q) => EmitSnapshot(Scanned(q)); return false;
      case HasExpired(q) => EmitSnapshot(Expired(q)); return false;
      case WasCancelled(q) => EmitSnapshot(Cancelled(q)); return true;
      case WasConfirmed(q) => EmitSnapshot(Confirmed(q)); return true;
      case QueryFailed(q, reason) => EmitSnapshot(Failed(q, reason)); return true;
    }

    // One turn of the loop, up to the creation of a new session.
    method Poll(result: QueryResult, refreshCount: nat) returns (phase: Phase, nextCount: nat)
      modifies this`queries, this`emittedKeys, this`snapshots
      ensures Controller(phase, nextCount, creations, queries, Reports()) ==
              OnQueried(policy, Controller(Polling, refreshCount, creations, old(queries), old(Reports())), result)
    {
      queries := queries + 1;
      var terminal := HandleQueryResult(result);
      if terminal {
        return Returned, refreshCount;
      }
      if !result.HasExpired? {
        return Polling, refreshCount;
      }
      if !policy.refreshOnExpired || refreshCount >= policy.maxRefreshCount {
        EmitSnapshot(Failed(Some(result.qrcode), Timeout));
        return Returned, refreshCount;
      }
      return Creating, refreshCount + 1;
    }

    // An expired code was refreshed: the next session.
    method Refresh(creates: nat -> CreateResult, ghost answers: nat -> QueryResult, ghost refreshCount: nat,
        ghost taken: nat)
      returns (active: bool)
      requires After(policy, creates, answers, taken) ==
          Controller(Creating, refreshCount, creations, queries, Reports())
      modifies this`creations, this`emittedKeys, this`snapshots
      ensures After(policy, creates, answers, taken + 1) ==
              Controller(if active then Polling else Returned, refreshCount, creations, queries, Reports())
    {
      AfterNext(policy, creates, answers, taken);
      active := CreateAndEmitSession(creates, refreshCount);
    }

    method PollNext(ghost creates: nat -> CreateResult, answers: nat -> QueryResult, refreshCount: nat,
                    ghost taken: nat)
      returns (phase: Phase, nextCount: nat)
      requires After(policy, creates, answers, taken) ==
               Controller(Polling, refreshCount, creations, queries, Reports())
      modifies this`queries, this`emittedKeys, this`snapshots
      ensures After(policy, creates, answers, taken + 1) ==
              Controller(phase, nextCount, creations, queries, Reports())
    {
      AfterNext(policy, creates, answers, taken);
      phase, nextCount := Poll(answers(queries), refreshCount);
    }

    // The endless loop of start(), followed up to `patience` answers.
    method PollUntilDone(creates: nat -> CreateResult, answers: nat -> QueryResult, patience: nat)
      returns (returned: bool, taken: nat)
      requires 1 <= patience
      requires After(policy, creates, answers, 1) == Controller(Polling, 0, creations, queries, Reports())
      modifies this
      ensures taken <= patience && (!returned ==> taken == patience)
      ensures var s := After(policy, creates, answers, taken);
              && Reports() == s.log && creations == s.creations && queries == s.queries
              && (returned <==> s.phase.Returned?)
    {
      var refreshCount: nat := 0;
      taken := 1;
      while taken < patience
        invariant 1 <= taken <= patience
        invariant After(policy, creates, answers, taken) ==
            Controller(Polling, refreshCount, creations, queries, Reports())
      {
        var phase, nextCount := PollNext(creates, answers, refreshCount, taken);
        refreshCount := nextCount;
        taken := taken + 1;
        if phase.Returned? {
          return true, taken;
        }
        if phase.Creating? {
          if taken == patience {
            return false, taken;
          }
          var active := Refresh(creates, answers, refreshCount, taken);
          taken := taken + 1;
          if !active {
            return true, taken;
          }
        }
      }
      returned := false;
    }

    // start(), followed for at most `patience` service answers; `returned` says whether it got to its end.
    method Start(creates: nat -> CreateResult, answers: nat -> QueryResult, patience: nat)
      returns (returned: bool, taken: nat)
      requires Reports() == Log({}, []) && creations == 0 && queries == 0
      modifies this
      ensures taken <= patience && (!returned ==> taken == patience)
      ensures var s := After(policy, creates, answers, taken);
              && Reports() == s.log && creations == s.creations && queries == s.queries
              && (returned <==> s.phase.Returned?)
    {
      if patience == 0 {
        return false, 0;
      }
      AfterNext(policy, creates, answers, 0);
      var active := Refresh(creates, answers, 0, 0);
      if !active {
        return true, 1;
      }
      returned, taken := PollUntilDone(creates, answers, patience);
    }
  }
}
