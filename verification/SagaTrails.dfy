/** What a workflow's row tells about its audit trail: all of it, event by event, exactly when no
    request committed on the workflow over a row it had not loaded. */
module SagaTrails {
  import opened Common
  import opened HttpClients
  import opened WorkflowRows
  import opened Saga
  import opened SagaSafety
  import opened SagaAudit

  // ---------------------------------------------------------------- the trails

  /** The policy was found active and the claim is about to be posted. */
  function VerifiedEvents(): seq<Event> {
    [StepChanged(PolicyVerification, StepPending, Succeeded, None),
     StateChanged(Pending, PolicyVerified, None),
     StepChanged(ClaimSubmission, StepPending, Running, None)]
  }

  /** What one run of a workflow logs when it ends in this state with this failure category. */
  function RunEvents(state: WorkflowState, failure: Option<Category>): seq<Event> {
    if state == Completed then
      VerifiedEvents() +
      [StepChanged(ClaimSubmission, Running, Succeeded, None),
       StateChanged(PolicyVerified, ClaimSubmitted, None),
       StateChanged(ClaimSubmitted, Completed, None)]
    else if state == ReconciliationNeeded then
      var category := Some(ClaimsServiceReconciliationRequired);
      VerifiedEvents() +
      [StateChanged(PolicyVerified, ReconciliationNeeded, category),
       StepChanged(ClaimSubmission, Running, Skipped, category),
       ReconciliationAlert(ClaimsServiceReconciliationRequired)]
    else if failure == Some(ClaimsServiceRejected) then
      VerifiedEvents() +
      [StateChanged(PolicyVerified, Failed, failure),
       StepChanged(ClaimSubmission, Running, Skipped, failure)]
    else
      [StateChanged(Pending, Failed, failure),
       StepChanged(PolicyVerification, StepPending, StepFailed, failure),
       StepChanged(ClaimSubmission, StepPending, Skipped, failure)]
  }

  function ClosingEvents(retry: nat, state: WorkflowState): seq<Event> {
    if retry == 0 then []
    else if state == Completed then [RetrySucceeded(retry)]
    else [RetryFinished(retry, state)]
  }

  function RestartEvents(retry: nat): seq<Event> {
    [RetryStarted(retry),
     StateChanged(Failed, Pending, None),
     StepChanged(PolicyVerification, StepFailed, StepPending, None),
     StepChanged(ClaimSubmission, Skipped, StepPending, None)]
  }

  /** Everything up to the beginning of the given retry, or of the first run: every run before it
      ended because the policy lookup was unavailable. */
  function EventsBefore(retry: nat): seq<Event> {
    if retry == 0 then [WorkflowCreated]
    else
      EventsBefore(retry - 1) + RunEvents(Failed, Some(PolicyServiceUnavailable)) + ClosingEvents(retry - 1, Failed) +
      RestartEvents(retry)
  }

  /** The whole trail of a committed row. */
  function TrailOf(state: WorkflowState, failure: Option<Category>, retries: nat): seq<Event> {
    if state == Pending then EventsBefore(0)
    else EventsBefore(retries) + RunEvents(state, failure) + ClosingEvents(retries, state)
  }

  predicate Tells(row: Row) { row.audit == TrailOf(row.state, row.failure, row.retries) }

  // ---------------------------------------------------------------- steps log what they should

  lemma VerifyLogs(w: Row)
    requires PendingShape(w)
    ensures VerifyPolicy(w).audit == w.audit + VerifiedEvents()
  {
  }

  lemma PolicyFailureLogs(w: Row, v: PolicyVerdict)
    requires PendingShape(w) && v in {NotFound, NotActive, PolicyUnavailable}
    ensures AfterPolicy(w, v).value.audit == w.audit + RunEvents(Failed, AfterPolicy(w, v).value.failure)
  {
    var c := PolicyFailure(v);
    var moved := SetState(w.(failure := Some(c)), Failed, Some(c));
    TwoFailSteps(moved, c);
  }

  lemma ClaimsLog(w: Row, v: ClaimsVerdict, before: seq<Event>)
    requires VerifiedShape(w) && Reachable(v) && AfterClaims(w, v).Some? && w.audit == before + VerifiedEvents()
    ensures var r := AfterClaims(w, v).value;
      r.audit == before + RunEvents(r.state, r.failure)
  {
    match v
    case Created(id) =>
    case ReconciliationRequired =>
      var c := ClaimsServiceReconciliationRequired;
      TwoFailSteps(SetState(w.(failure := Some(c)), ReconciliationNeeded, Some(c)), c);
    case Rejected(_) =>
      var c := ClaimsServiceRejected;
      TwoFailSteps(SetState(w.(failure := Some(c)), Failed, Some(c)), c);
    case _ =>
  }

  lemma RestartLogs(w: Row)
    requires PolicyFailedShape(w)
    ensures BeginRetry(w).audit == w.audit + RestartEvents(w.retries + 1)
  {
    TwoResets(Reopen(CountRetry(w)));
  }

  // ---------------------------------------------------------------- while nobody is overtaken

  /** A request's copy has logged the runs before it and its own so far. */
  predicate CopyTells(session: Session)
    requires session.Live?
  {
    var before := EventsBefore(session.work.retries);
    session.work.audit ==
    match session.phase
    case Verifying => before
    case Posting(_) => before + VerifiedEvents()
    case Waiting(_) => before + VerifiedEvents()
    case Settled => before + RunEvents(session.work.state, session.work.failure)
  }

  ghost predicate TellsOn(s: State, wf: nat) {
    && (wf in s.db ==> Tells(s.db[wf].row))
    && (forall r :: WorksOn(s, r, wf) ==> CopyTells(s.sessions[r]))
  }

  lemma MovedCopyTells(before: Session, after: Session, l: Label, r: nat)
    requires before.Live? && after.Live? && Moves(before, after, l, r) && PhaseOk(before) && CopyTells(before)
    ensures CopyTells(after)
  {
    var w := before.work;
    if l.PolicyAnswered? && before.phase.Verifying? {
      AfterPolicyShape(w, l.policy);
      if l.policy.Active? {
        VerifyLogs(w);
      } else if !l.policy.PolicyUncaught? {
        PolicyFailureLogs(w, l.policy);
      }
    } else if l.PostAnswered? && before.phase.Waiting? {
      var d := Decide(l.outcome, before.phase.attempt);
      if d.Some? && AfterClaims(w, d.value).Some? {
        AfterClaimsShape(w, d.value);
        ClaimsLog(w, d.value, EventsBefore(w.retries));
      }
    }
  }

  /** A retry of a row that tells its trail. */
  lemma RetryTells(row: FullRow, wf: nat, subject: string)
    requires SoundRow(row) && Tells(row) && OutageMeansFailed(row) && CanRetry(row)
    ensures CopyTells(Live(wf, subject, true, row, BeginRetry(row), Verifying))
  {
    RestartLogs(row);
    BeginRetryShape(row);
  }

  lemma OpenedTells(s: State, l: Label, r: nat, wf: nat)
    requires Enabled(s, l) && Opens(s, l, r) && WorksOn(Next(s, l), r, wf)
    requires SoundOn(s, wf) && TellsOn(s, wf) && OutagesOk(s)
    ensures CopyTells(Next(s, l).sessions[r])
  {
    if l.Retry? {
      RetryTells(s.db[wf].row, wf, l.subject);
    }
  }

  lemma FinalTells(session: Session)
    requires session.Live? && session.phase.Settled? && CopyOk(session) && PhaseOk(session) && CopyTells(session)
    ensures Tells(Final(session))
  {
    var w := session.work;
    if !session.isRetry {
      assert w.audit + [] == w.audit;
    }
  }

  lemma RowStillTells(s: State, l: Label, wf: nat)
    requires StoresOk(s) && SessionsOk(s) && Enabled(s, l) && TellsOn(s, wf) && !Overtakes(s, l, wf)
    requires wf in Next(s, l).db
    ensures Tells(Next(s, l).db[wf].row)
  {
    if wf !in s.db {
      NewRecordIsNew(s, l, wf);
    } else if Saves(s, l, wf) {
      assert SessionOk(s, l.request) && WorksOn(s, l.request, wf);
      SavedAlone(s, l.request);
      FinalTells(s.sessions[l.request]);
    } else {
      RecordFrame(s, l, wf);
    }
  }

  lemma CopyStillTells(s: State, l: Label, wf: nat, r: nat)
    requires SessionsOk(s) && Enabled(s, l) && SoundOn(s, wf) && TellsOn(s, wf) && OutagesOk(s)
    requires WorksOn(Next(s, l), r, wf)
    ensures CopyTells(Next(s, l).sessions[r])
  {
    if Opens(s, l, r) {
      OpenedTells(s, l, r, wf);
    } else {
      SessionOrigin(s, l, r);
      SessionMoves(s, l, r);
      assert SessionOk(s, r) && WorksOn(s, r, wf);
      MovedCopyTells(s.sessions[r], Next(s, l).sessions[r], l, r);
    }
  }

  lemma {:induction false} TellsHolds(ls: seq<Label>, wf: nat)
    requires Valid(ls) && !Overtaken(ls, wf)
    ensures TellsOn(Exec(ls), wf)
  {
    if ls != [] {
      var s, l := Exec(Init(ls)), Last(ls);
      TellsHolds(Init(ls), wf);
      TrailHolds(Init(ls), wf);
      InvHolds(Init(ls));
      OutagesHold(Init(ls));
      if wf in Exec(ls).db {
        RowStillTells(s, l, wf);
      }
      forall r | WorksOn(Exec(ls), r, wf)
        ensures CopyTells(Exec(ls).sessions[r])
      {
        CopyStillTells(s, l, wf, r);
      }
    }
  }

  // ---------------------------------------------------------------- otherwise

  /** A row at the beginning of a run, the `n`-th retry or the first, with its trail so far. */
  predicate RunBegins(w: Row, n: nat) {
    PendingShape(w) && w.retries == n && w.audit == EventsBefore(n) && Replays(w, n > 0)
  }

  /** A run that fails on its policy, whatever the category, is readable. */
  lemma PolicyFailureReadable(trail: seq<Event>, failure: Option<Category>)
    requires Replay(trail).Some? && failure != Some(ClaimsServiceRejected)
    requires var v := Replay(trail).value; v.state == Pending && v.policy.state == v.claim.state == StepPending
    ensures Replay(trail + RunEvents(Failed, failure)) == Some(Replay(trail).value.(
      state := Failed, failure := failure,
      policy := StepView(StepFailed, failure), claim := StepView(Skipped, failure)))
  {
    var es := RunEvents(Failed, failure);
    ReplayAppend(trail, es[0]);
    ReplayAppend(trail + [es[0]], es[1]);
    ReplayAppend(trail + [es[0]] + [es[1]], es[2]);
    assert trail + es == trail + [es[0]] + [es[1]] + [es[2]];
  }

  /** The end of a run of `RowBefore(n)`, with the retry closed if it is one. */
  function Closed(n: nat, r: FullRow): FullRow { if n == 0 then r else EndRetry(r) }

  lemma ClosedTells(n: nat, r: FullRow)
    requires r.retries == n && r.state in {Completed, Failed, ReconciliationNeeded}
    requires r.audit == EventsBefore(n) + RunEvents(r.state, r.failure) && Replays(r, n > 0)
    ensures Tells(Closed(n, r)) && Replays(Closed(n, r), false)
  {
    if n > 0 {
      EndRetryReplays(r);
    } else {
      assert r.audit + [] == r.audit;
    }
  }

  /** A run that ends with the policy lookup unavailable. */
  lemma OutageRun(w: FullRow, n: nat) returns (closed: FullRow)
    requires RunBegins(w, n)
    ensures PolicyFailedShape(closed) && closed.failure == Some(PolicyServiceUnavailable) && closed.retries == n
    ensures Tells(closed) && Replays(closed, false)
  {
    AfterPolicyShape(w, PolicyUnavailable);
    AfterPolicyReplays(w, PolicyUnavailable, n > 0);
    PolicyFailureLogs(w, PolicyUnavailable);
    var failed: FullRow := AfterPolicy(w, PolicyUnavailable).value;
    ClosedTells(n, failed);
    closed := Closed(n, failed);
  }

  lemma RestartedBegins(closed: FullRow, n: nat)
    requires PolicyFailedShape(closed) && closed.failure == Some(PolicyServiceUnavailable) && closed.retries == n
    requires Tells(closed) && Replays(closed, false)
    ensures RunBegins(BeginRetry(closed), n + 1)
  {
    BeginRetryReplays(closed);
    BeginRetryShape(closed);
    RestartLogs(closed);
  }

  /** There is such a row for every number of retries. */
  lemma {:induction false} RunsBegin(n: nat) returns (w: FullRow)
    ensures RunBegins(w, n)
  {
    if n == 0 {
      w := NewRow();
    } else {
      var before := RunsBegin(n - 1);
      var closed := OutageRun(before, n - 1);
      RestartedBegins(closed, n - 1);
      w := BeginRetry(closed);
    }
  }

  lemma ClaimRunReadable(w: FullRow, n: nat, v: ClaimsVerdict)
    requires RunBegins(w, n) && (v.Created? || v.Rejected? || v.ReconciliationRequired?)
    ensures var r := AfterClaims(VerifyPolicy(w), v).value;
      r.state in {Completed, Failed, ReconciliationNeeded} && Replay(TrailOf(r.state, r.failure, n)).Some?
      && (v.Rejected? ==> r.state == Failed && r.failure == Some(ClaimsServiceRejected))
      && (v.Created? ==> r.state == Completed) && (v.ReconciliationRequired? ==> r.state == ReconciliationNeeded)
  {
    AfterPolicyShape(w, Active);
    AfterPolicyReplays(w, Active, n > 0);
    VerifyLogs(w);
    ClaimEnds(VerifyPolicy(w), n, v);
  }

  lemma ClaimEnds(w: FullRow, n: nat, v: ClaimsVerdict)
    requires VerifiedShape(w) && w.retries == n && w.audit == EventsBefore(n) + VerifiedEvents() && Replays(w, n > 0)
    requires v.Created? || v.Rejected? || v.ReconciliationRequired?
    ensures var r := AfterClaims(w, v).value;
      r.state in {Completed, Failed, ReconciliationNeeded} && Replay(TrailOf(r.state, r.failure, n)).Some?
      && (v.Rejected? ==> r.state == Failed && r.failure == Some(ClaimsServiceRejected))
      && (v.Created? ==> r.state == Completed) && (v.ReconciliationRequired? ==> r.state == ReconciliationNeeded)
  {
    AfterClaimsShape(w, v);
    AfterClaimsReplays(w, v, n > 0);
    ClaimsLog(w, v, EventsBefore(n));
    ClosedTells(n, AfterClaims(w, v).value);
  }

  lemma FailureReadable(w: FullRow, n: nat, failure: Option<Category>)
    requires RunBegins(w, n) && failure != Some(ClaimsServiceRejected)
    ensures Replay(TrailOf(Failed, failure, n)).Some?
  {
    var trail := EventsBefore(n) + RunEvents(Failed, failure);
    PolicyFailureReadable(EventsBefore(n), failure);
    if n > 0 {
      ReplayAppend(trail, RetryFinished(n, Failed));
    } else {
      assert trail + [] == trail;
    }
  }

  /** Every trail of this form can be read. */
  lemma TrailReadable(state: WorkflowState, failure: Option<Category>, retries: nat)
    requires state in {Pending, Completed, Failed, ReconciliationNeeded}
    ensures Replay(TrailOf(state, failure, retries)).Some?
  {
    var w := RunsBegin(retries);
    if state == Completed {
      ClaimRunReadable(w, retries, Created(0));
    } else if state == ReconciliationNeeded {
      ClaimRunReadable(w, retries, ReconciliationRequired);
    } else if failure == Some(ClaimsServiceRejected) {
      ClaimRunReadable(w, retries, Rejected(400));
    } else if state == Failed {
      FailureReadable(w, retries, failure);
    }
  }

  /** The converse of reading the row off its trail: state, failure category and retry count of a
      committed workflow determine every event of its trail, in order, if and only if no request
      committed on it over a row it had not loaded. */
  lemma RowTellsTrailExactlyWhen(ls: seq<Label>, wf: nat)
    requires Valid(ls) && wf in Exec(ls).db
    ensures Tells(Exec(ls).db[wf].row) <==> !Overtaken(ls, wf)
  {
    var row := Exec(ls).db[wf].row;
    if Overtaken(ls, wf) {
      AuditRebuildsExactlyWhen(ls, wf);
      InvHolds(ls);
      assert RecordOk(Exec(ls), wf);
      TrailReadable(row.state, row.failure, row.retries);
    } else {
      TellsHolds(ls, wf);
    }
  }

  // ---------------------------------------------------------------- alerts

  predicate Alerted(audit: seq<Event>) { ReconciliationAlert(ClaimsServiceReconciliationRequired) in audit }

  /** A request that leaves its workflow to be reconciled has raised the alert since it loaded it. */
  predicate AlertsCopy(session: Session)
    requires session.Live?
  {
    && session.loaded.audit <= session.work.audit
    && (session.work.state == ReconciliationNeeded ==> Alerted(session.work.audit[|session.loaded.audit|..]))
  }

  ghost predicate AlertsOk(s: State) {
    && (forall wf :: wf in s.db && s.db[wf].row.state == ReconciliationNeeded ==> Alerted(s.db[wf].row.audit))
    && (forall r :: IsLive(s, r) ==> AlertsCopy(s.sessions[r]))
  }

  lemma FailureAlerts(w: Row, known: seq<Event>)
    requires VerifiedShape(w) && known <= w.audit
    ensures var r := MarkFailure(w, ClaimsServiceReconciliationRequired, true);
      known <= r.audit && Alerted(r.audit[|known|..])
  {
    MarkFailureSteps(w, ClaimsServiceReconciliationRequired, true);
    var r := MarkFailure(w, ClaimsServiceReconciliationRequired, true);
    assert w.audit <= r.audit && |w.audit| < |r.audit|;
    assert Last(r.audit) == ReconciliationAlert(ClaimsServiceReconciliationRequired);
    assert r.audit[|known|..][|r.audit| - |known| - 1] == Last(r.audit);
  }

  lemma MovedCopyAlerts(before: Session, after: Session, l: Label, r: nat)
    requires before.Live? && after.Live? && Moves(before, after, l, r) && PhaseOk(before) && AlertsCopy(before)
    requires after.loaded == before.loaded
    ensures AlertsCopy(after)
  {
    var w := before.work;
    if l.PolicyAnswered? && before.phase.Verifying? {
      AfterPolicyShape(w, l.policy);
    } else if l.PostAnswered? && before.phase.Waiting? {
      var d := Decide(l.outcome, before.phase.attempt);
      if d.Some? {
        AfterClaimsShape(w, d.value);
        FailureAlerts(w, before.loaded.audit);
      }
    }
  }

  lemma SavedAlerts(row: FullRow, session: Session)
    requires session.Live? && CopyOk(session) && session.phase.Settled? && PhaseOk(session) && AlertsCopy(session)
    requires row.state == ReconciliationNeeded ==> Alerted(row.audit)
    requires Flush(row, session.loaded, Final(session)).state == ReconciliationNeeded
    ensures Alerted(Flush(row, session.loaded, Final(session)).audit)
  {
    FinalFacts(session);
    var loaded, work, final := session.loaded.audit, session.work.audit, Final(session).audit;
    if session.work.state == ReconciliationNeeded {
      var alert := ReconciliationAlert(ClaimsServiceReconciliationRequired);
      var k :| 0 <= k < |work| - |loaded| && work[|loaded|..][k] == alert;
      assert work <= final && final[|loaded|..][k] == alert;
    }
  }

  lemma {:induction false} AlertsHold(ls: seq<Label>)
    requires Valid(ls)
    ensures AlertsOk(Exec(ls))
  {
    if ls != [] {
      var s, l := Exec(Init(ls)), Last(ls);
      AlertsHold(Init(ls));
      InvHolds(Init(ls));
      forall wf | wf in Exec(ls).db && Exec(ls).db[wf].row.state == ReconciliationNeeded
        ensures Alerted(Exec(ls).db[wf].row.audit)
      {
        RowStaysAlerted(s, l, wf);
      }
      forall r | IsLive(Exec(ls), r)
        ensures AlertsCopy(Exec(ls).sessions[r])
      {
        CopyStaysAlerted(s, l, r);
      }
    }
  }

  lemma RowStaysAlerted(s: State, l: Label, wf: nat)
    requires Inv(s) && Enabled(s, l) && AlertsOk(s)
    requires wf in Next(s, l).db && Next(s, l).db[wf].row.state == ReconciliationNeeded
    ensures Alerted(Next(s, l).db[wf].row.audit)
  {
    if wf !in s.db {
      NewRecordIsNew(s, l, wf);
    } else if Saves(s, l, wf) {
      assert SessionOk(s, l.request);
      SavedAlerts(s.db[wf].row, s.sessions[l.request]);
    } else {
      RecordFrame(s, l, wf);
    }
  }

  lemma CopyStaysAlerted(s: State, l: Label, r: nat)
    requires SessionsOk(s) && RecordsOk(s) && Enabled(s, l) && AlertsOk(s) && IsLive(Next(s, l), r)
    ensures AlertsCopy(Next(s, l).sessions[r])
  {
    if Opens(s, l, r) {
      if l.Retry? {
        BeginRetryShape(s.db[l.workflow].row);
      }
    } else {
      SessionOrigin(s, l, r);
      SessionMoves(s, l, r);
      assert SessionOk(s, r);
      MovedCopyAlerts(s.sessions[r], Next(s, l).sessions[r], l, r);
    }
  }

  /** In every run, overlapping retries and crashes included, a workflow is left to be reconciled only
      with the alert in its trail. */
  lemma ReconciliationIsAlerted(ls: seq<Label>, wf: nat)
    requires Valid(ls) && wf in Exec(ls).db && Exec(ls).db[wf].row.state == ReconciliationNeeded
    ensures Alerted(Exec(ls).db[wf].row.audit)
  {
    AlertsHold(ls);
  }
}
