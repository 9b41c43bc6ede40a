/** When the audit trail of a workflow tells its row. Retries take no lock, so one may commit on a
    row that has changed since it was loaded; exactly then the trail stops being readable. */
module SagaAudit {
  import opened Common
  import opened WorkflowRows
  import opened Saga
  import opened SagaSafety

  // ---------------------------------------------------------------- overtaken workflows

  /** The step commits on the workflow a copy of a row that is not the row any more. */
  predicate Overtakes(s: State, l: Label, wf: nat) {
    Saves(s, l, wf) && wf in s.db && s.sessions[l.request].loaded != s.db[wf].row
  }

  predicate Overtaken(ls: seq<Label>, wf: nat)
    requires Valid(ls)
  {
    ls != [] && (Overtaken(Init(ls), wf) || Overtakes(Exec(Init(ls)), Last(ls), wf))
  }

  predicate WorksOn(s: State, r: nat, wf: nat) { IsLive(s, r) && s.sessions[r].workflow == wf }

  // ---------------------------------------------------------------- while it is not overtaken

  predicate SoundRow(row: Row) {
    Replays(row, false) && (PendingShape(row) || SettledShape(row))
  }

  /** A request's copy replays, and that of a retry begins by counting itself. */
  predicate SoundCopy(session: Session) {
    && session.Live?
    && Replays(session.work, session.isRetry)
    && (session.isRetry ==>
          CanRetry(session.loaded) &&
            session.loaded.audit + [RetryStarted(session.loaded.retries + 1)] <= session.work.audit)
  }

  /** A request that did not load the row as it is now is a retry, and another one has been
      counted since. */
  predicate Behind(session: Session, row: Row)
    requires session.Live?
  {
    session.loaded == row || (session.isRetry && session.loaded.retries < row.retries)
  }

  ghost predicate SoundOn(s: State, wf: nat) {
    && (wf in s.db ==> SoundRow(s.db[wf].row))
    && (forall r :: WorksOn(s, r, wf) ==> wf in s.db && SoundCopy(s.sessions[r]) && Behind(s.sessions[r], s.db[wf].row))
  }

  /** A trail with an event that does not fit. */
  predicate Unreadable(row: Row) { row.audit != [] && Replay(row.audit).None? }

  lemma NewRowSound()
    ensures SoundRow(NewRow())
  {
  }

  /** When nobody else wrote in between, a commit stores the copy as it is. */
  lemma FlushAlone(current: FullRow, final: FullRow)
    requires InOrder(current) && InOrder(final) && current.audit <= final.audit
    ensures Flush(current, current, final) == final
  {
    assert current.audit + final.audit[|current.audit|..] == final.audit;
  }

  lemma FinalSound(session: Session)
    requires session.Live? && CopyOk(session) && session.phase.Settled? && PhaseOk(session)
    requires Replays(session.work, session.isRetry)
    ensures SoundRow(Final(session)) && SettledShape(Final(session))
    ensures Final(session).retries == session.work.retries
  {
    if session.isRetry {
      EndRetryReplays(session.work);
    }
  }

  lemma SavedAlone(s: State, r: nat)
    requires SessionOk(s, r) && Enabled(s, Save(r))
    requires s.sessions[r].loaded == s.db[s.sessions[r].workflow].row
    ensures Next(s, Save(r)).db[s.sessions[r].workflow].row == Final(s.sessions[r])
  {
    FinalFacts(s.sessions[r]);
    FlushAlone(s.sessions[r].loaded, Final(s.sessions[r]));
  }

  /** The row after a commit that overtook nobody. */
  lemma SavedSound(s: State, r: nat)
    requires SessionOk(s, r) && Enabled(s, Save(r)) && SoundCopy(s.sessions[r])
    requires s.sessions[r].loaded == s.db[s.sessions[r].workflow].row
    ensures var row := Next(s, Save(r)).db[s.sessions[r].workflow].row;
      SoundRow(row) && SettledShape(row) && row.retries == s.sessions[r].work.retries
  {
    SavedAlone(s, r);
    FinalSound(s.sessions[r]);
  }

  lemma MovedCopySound(before: Session, after: Session, l: Label, r: nat)
    requires before.Live? && after.Live? && Moves(before, after, l, r) && PhaseOk(before) && SoundCopy(before)
    requires after.isRetry == before.isRetry && after.loaded == before.loaded
    ensures SoundCopy(after)
  {
    if l.PolicyAnswered? && before.phase.Verifying? {
      AfterPolicyReplays(before.work, l.policy, before.isRetry);
      AfterPolicyShape(before.work, l.policy);
    } else if l.PostAnswered? && before.phase.Waiting? {
      var d := Decide(l.outcome, before.phase.attempt);
      if d.Some? {
        AfterClaimsReplays(before.work, d.value, before.isRetry);
        AfterClaimsShape(before.work, d.value);
      }
    }
  }

  lemma CopySound(s: State, l: Label, r: nat)
    requires SessionOk(s, r) && Enabled(s, l) && SoundCopy(s.sessions[r])
    requires IsLive(Next(s, l), r) && !Opens(s, l, r)
    ensures SoundCopy(Next(s, l).sessions[r])
  {
    SessionOrigin(s, l, r);
    SessionMoves(s, l, r);
    MovedCopySound(s.sessions[r], Next(s, l).sessions[r], l, r);
  }

  lemma BegunRetrySound(row: FullRow, wf: nat, subject: string)
    requires SoundRow(row) && CanRetry(row)
    ensures SoundCopy(Live(wf, subject, true, row, BeginRetry(row), Verifying))
  {
    BeginRetryReplays(row);
    assert CountRetry(row).audit <= BeginRetry(row).audit;
  }

  /** A request that has just loaded the row. */
  lemma OpenedSound(s: State, l: Label, r: nat, wf: nat)
    requires StoresOk(s) && Enabled(s, l) && Opens(s, l, r) && WorksOn(Next(s, l), r, wf) && SoundOn(s, wf)
    ensures var s' := Next(s, l);
      wf in s'.db && SoundCopy(s'.sessions[r]) && s'.sessions[r].loaded == s'.db[wf].row
  {
    if l.Retry? {
      BegunRetrySound(s.db[wf].row, wf, l.subject);
    } else {
      NewRowSound();
    }
  }

  /** Requests that had loaded the row before, after a commit that overtook nobody. */
  lemma BehindAfterSave(s: State, r: nat, q: nat)
    requires StoresOk(s) && SessionOk(s, r) && SessionOk(s, q)
    requires Enabled(s, Save(r)) && WorksOn(s, q, s.sessions[r].workflow) && q != r
    requires SoundCopy(s.sessions[r]) && s.sessions[r].loaded == s.db[s.sessions[r].workflow].row
    requires Behind(s.sessions[q], s.db[s.sessions[r].workflow].row)
    ensures Behind(s.sessions[q], Next(s, Save(r)).db[s.sessions[r].workflow].row)
  {
    assert SessionOk(s, r) && SessionOk(s, q);
    SavedSound(s, r);
    if !s.sessions[r].isRetry {
      SaverIsTheStarter(s, q, r);
      assert false;
    } else if !s.sessions[q].isRetry {
      SaverIsTheStarter(s, r, q);
      assert false;
    }
  }

  lemma CopiesStaySound(s: State, l: Label, wf: nat, r: nat)
    requires StoresOk(s) && SessionsOk(s) && Enabled(s, l) && SoundOn(s, wf) && !Overtakes(s, l, wf)
    requires WorksOn(Next(s, l), r, wf)
    ensures wf in Next(s, l).db && SoundCopy(Next(s, l).sessions[r]) &&
      Behind(Next(s, l).sessions[r], Next(s, l).db[wf].row)
  {
    if Opens(s, l, r) {
      OpenedSound(s, l, r, wf);
    } else {
      SessionOrigin(s, l, r);
      assert SessionOk(s, r) && WorksOn(s, r, wf);
      CopySound(s, l, r);
      StaysBehind(s, l, wf, r);
    }
  }

  lemma StaysBehind(s: State, l: Label, wf: nat, r: nat)
    requires StoresOk(s) && SessionsOk(s) && Enabled(s, l) && SoundOn(s, wf) && !Overtakes(s, l, wf)
    requires WorksOn(s, r, wf) && IsLive(Next(s, l), r)
    ensures wf in Next(s, l).db && Behind(s.sessions[r], Next(s, l).db[wf].row)
  {
    assert WorksOn(s, r, wf);
    if Saves(s, l, wf) {
      SaverIsGone(s, l.request);
      assert WorksOn(s, l.request, wf);
      BehindAfterSave(s, l.request, r);
    } else {
      BehindFramed(s, l, wf, s.sessions[r]);
    }
  }

  lemma BehindFramed(s: State, l: Label, wf: nat, session: Session)
    requires StoresOk(s) && Enabled(s, l) && wf in s.db && !Saves(s, l, wf)
    requires session.Live? && Behind(session, s.db[wf].row)
    ensures wf in Next(s, l).db && Behind(session, Next(s, l).db[wf].row)
  {
    RecordFrame(s, l, wf);
    RecordsExtend(s, l, wf);
  }

  lemma SaverIsGone(s: State, r: nat)
    requires Enabled(s, Save(r))
    ensures !IsLive(Next(s, Save(r)), r)
  {
  }

  lemma RowStaysSound(s: State, l: Label, wf: nat)
    requires StoresOk(s) && SessionsOk(s) && Enabled(s, l) && SoundOn(s, wf) && !Overtakes(s, l, wf)
    requires wf in Next(s, l).db
    ensures SoundRow(Next(s, l).db[wf].row)
  {
    if wf !in s.db {
      NewRecordIsNew(s, l, wf);
      NewRowSound();
    } else if Saves(s, l, wf) {
      assert SessionOk(s, l.request) && WorksOn(s, l.request, wf);
      SavedSound(s, l.request);
    } else {
      RecordFrame(s, l, wf);
    }
  }

  lemma SoundKept(s: State, l: Label, wf: nat)
    requires StoresOk(s) && SessionsOk(s) && Enabled(s, l) && SoundOn(s, wf) && !Overtakes(s, l, wf)
    ensures SoundOn(Next(s, l), wf)
  {
    if wf in Next(s, l).db {
      RowStaysSound(s, l, wf);
    }
    forall r | WorksOn(Next(s, l), r, wf)
      ensures wf in Next(s, l).db && SoundCopy(Next(s, l).sessions[r]) &&
        Behind(Next(s, l).sessions[r], Next(s, l).db[wf].row)
    {
      CopiesStaySound(s, l, wf, r);
    }
  }

  // ---------------------------------------------------------------- once it is

  /** A retry with a number other than the next one cannot be read. */
  lemma WrongNumber(trail: seq<Event>, added: seq<Event>, n: nat)
    requires Replay(trail).Some? && n != Replay(trail).value.retries + 1
    requires added != [] && added[0] == RetryStarted(n)
    ensures Replay(trail + added).None?
  {
    ReplayAppend(trail, RetryStarted(n));
    assert (trail + added)[..|trail| + 1] == trail + [RetryStarted(n)];
    BrokenStaysBroken(trail + added, |trail| + 1);
  }

  /** The events an overtaking retry adds begin with a number used before. */
  lemma StaleEvents(row: FullRow, session: Session)
    requires SoundRow(row) && SoundCopy(session) && CopyOk(session) && session.phase.Settled? && PhaseOk(session)
    requires session.loaded != row && Behind(session, row)
    ensures Unreadable(Flush(row, session.loaded, Final(session)))
  {
    FinalFacts(session);
    var loaded, final := session.loaded.audit, Final(session).audit;
    var started := RetryStarted(session.loaded.retries + 1);
    assert loaded + [started] <= final;
    assert final[|loaded|..][0] == (loaded + [started])[|loaded|] == started;
    WrongNumber(row.audit, final[|loaded|..], session.loaded.retries + 1);
  }

  lemma OvertakingBreaks(s: State, l: Label, wf: nat)
    requires SessionsOk(s) && Enabled(s, l) && SoundOn(s, wf) && Overtakes(s, l, wf)
    ensures wf in Next(s, l).db && Unreadable(Next(s, l).db[wf].row)
  {
    assert SessionOk(s, l.request) && WorksOn(s, l.request, wf);
    StaleEvents(s.db[wf].row, s.sessions[l.request]);
  }

  lemma UnreadableAppend(row: FullRow, session: Session)
    requires Unreadable(row) && session.Live?
    ensures Unreadable(Flush(row, session.loaded, Final(session)))
  {
    var longer := Flush(row, session.loaded, Final(session)).audit;
    assert longer[..|row.audit|] == row.audit;
    BrokenStaysBroken(longer, |row.audit|);
  }

  lemma UnreadableStays(s: State, l: Label, wf: nat)
    requires StoresOk(s) && Enabled(s, l) && wf in s.db && Unreadable(s.db[wf].row)
    ensures wf in Next(s, l).db && Unreadable(Next(s, l).db[wf].row)
  {
    if Saves(s, l, wf) {
      UnreadableAppend(s.db[wf].row, s.sessions[l.request]);
    } else {
      RecordFrame(s, l, wf);
    }
  }

  lemma {:induction false} TrailHolds(ls: seq<Label>, wf: nat)
    requires Valid(ls)
    ensures !Overtaken(ls, wf) ==> SoundOn(Exec(ls), wf)
    ensures Overtaken(ls, wf) ==> wf in Exec(ls).db && Unreadable(Exec(ls).db[wf].row)
  {
    if ls != [] {
      var s, l := Exec(Init(ls)), Last(ls);
      TrailHolds(Init(ls), wf);
      InvHolds(Init(ls));
      if Overtaken(Init(ls), wf) {
        UnreadableStays(s, l, wf);
      } else if Overtakes(s, l, wf) {
        OvertakingBreaks(s, l, wf);
      } else {
        SoundKept(s, l, wf);
      }
    }
  }

  // ---------------------------------------------------------------- theorems

  /** The audit trail of a committed workflow rebuilds its state, failure category, both steps with
      their error categories and its retry count if and only if no request committed on it over a
      row it had not loaded; otherwise it cannot be read at all. Any interleaving, with crashes at
      any point. */
  lemma AuditRebuildsExactlyWhen(ls: seq<Label>, wf: nat)
    requires Valid(ls) && wf in Exec(ls).db
    ensures Replays(Exec(ls).db[wf].row, false) <==> !Overtaken(ls, wf)
    ensures Replay(Exec(ls).db[wf].row.audit).None? <==> Overtaken(ls, wf)
  {
    TrailHolds(ls, wf);
  }

  /** The retries of a workflow that was not overtaken: as many started as the row counts, each
      closed by one outcome event. */
  lemma AuditCountsRetries(ls: seq<Label>, wf: nat)
    requires Valid(ls) && wf in Exec(ls).db && !Overtaken(ls, wf)
    ensures var row := Exec(ls).db[wf].row;
      Starts(row.audit) == Outcomes(row.audit) == row.retries <= 3
  {
    TrailHolds(ls, wf);
    InvHolds(ls);
    assert RecordOk(Exec(ls), wf);
    RetriesPair(Exec(ls).db[wf].row.audit);
  }

  /** A committed workflow that was not overtaken is in one of five shapes. */
  lemma CommittedShapes(ls: seq<Label>, wf: nat)
    requires Valid(ls) && wf in Exec(ls).db && !Overtaken(ls, wf)
    ensures var row := Exec(ls).db[wf].row;
      PendingShape(row) || CompletedShape(row) || PolicyFailedShape(row) || ClaimRejectedShape(row) ||
        ReconciliationShape(row)
  {
    TrailHolds(ls, wf);
  }

  // ---------------------------------------------------------------- what can be retried

  /** Holds of a committed row whatever overlaps: the category of a policy outage is written by
      starts only, and every other outcome overwrites it. */
  predicate OutageMeansFailed(row: Row) {
    && (row.failure == Some(PolicyServiceUnavailable) ==> row.state == Failed)
    && row.failure != Some(ClaimsServiceUnavailable)
  }

  ghost predicate OutagesOk(s: State) {
    && (forall wf :: wf in s.db ==> OutageMeansFailed(s.db[wf].row))
    && (forall r :: IsLive(s, r) && s.sessions[r].isRetry ==>
       s.sessions[r].loaded.failure == Some(PolicyServiceUnavailable))
  }

  lemma SavedOutage(row: FullRow, session: Session)
    requires OutageMeansFailed(row) && session.Live? && CopyOk(session) && session.phase.Settled? && PhaseOk(session)
    requires if session.isRetry then session.loaded.failure == Some(PolicyServiceUnavailable) else session.loaded == row
    ensures OutageMeansFailed(Flush(row, session.loaded, Final(session)))
  {
    FinalFacts(session);
  }

  lemma OutageKept(s: State, l: Label, wf: nat)
    requires StoresOk(s) && SessionsOk(s) && RecordsOk(s) && Enabled(s, l) && OutagesOk(s) && wf in Next(s, l).db
    ensures OutageMeansFailed(Next(s, l).db[wf].row)
  {
    if wf !in s.db {
      NewRecordIsNew(s, l, wf);
    } else if Saves(s, l, wf) {
      assert SessionOk(s, l.request) && RecordOk(s, wf);
      SavedOutage(s.db[wf].row, s.sessions[l.request]);
    } else {
      RecordFrame(s, l, wf);
    }
  }

  lemma OutagesKept(s: State, l: Label)
    requires StoresOk(s) && SessionsOk(s) && RecordsOk(s) && Enabled(s, l) && OutagesOk(s)
    ensures OutagesOk(Next(s, l))
  {
    var s' := Next(s, l);
    forall wf | wf in s'.db
      ensures OutageMeansFailed(s'.db[wf].row)
    {
      OutageKept(s, l, wf);
    }
    forall r | IsLive(s', r) && s'.sessions[r].isRetry
      ensures s'.sessions[r].loaded.failure == Some(PolicyServiceUnavailable)
    {
      if !Opens(s, l, r) {
        SessionOrigin(s, l, r);
      }
    }
  }

  lemma {:induction false} OutagesHold(ls: seq<Label>)
    requires Valid(ls)
    ensures OutagesOk(Exec(ls))
  {
    if ls != [] {
      OutagesHold(Init(ls));
      InvHolds(Init(ls));
      OutagesKept(Exec(Init(ls)), Last(ls));
    }
  }

  /** In every run, overlapping retries included, the only failure an operator can retry is a policy
      outage: the other category the check accepts never arises, and workflows to be reconciled
      are not retryable at all. */
  lemma RetryableExactlyWhen(ls: seq<Label>, wf: nat)
    requires Valid(ls) && wf in Exec(ls).db
    ensures var row := Exec(ls).db[wf].row;
      CanRetry(row) <==> row.failure == Some(PolicyServiceUnavailable) && row.retries < 3
  {
    OutagesHold(ls);
  }

  // ---------------------------------------------------------------- serialised retries

  ghost predicate Idle(s: State, wf: nat) {
    forall r :: IsLive(s, r) ==> s.sessions[r].workflow != wf
  }

  /** A retry of the workflow begins only while nobody is working on it. */
  ghost predicate SerialStep(s: State, l: Label, wf: nat) {
    l.Retry? && l.workflow == wf ==> Idle(s, wf)
  }

  ghost predicate Serial(ls: seq<Label>, wf: nat)
    requires Valid(ls)
  {
    ls == [] || (Serial(Init(ls), wf) && SerialStep(Exec(Init(ls)), Last(ls), wf))
  }

  /** One request at a time, on the row as it is. */
  ghost predicate Exclusive(s: State, wf: nat) {
    && (forall r, q :: WorksOn(s, r, wf) && WorksOn(s, q, wf) ==> r == q)
    && (forall r :: WorksOn(s, r, wf) ==> wf in s.db && s.sessions[r].loaded == s.db[wf].row)
  }

  /** A request that starts working on the workflow finds nobody there. */
  lemma OpensAlone(s: State, l: Label, wf: nat, r: nat, q: nat)
    requires StoresOk(s) && SessionsOk(s) && Enabled(s, l) && SerialStep(s, l, wf) && Opens(s, l, r)
    requires WorksOn(Next(s, l), r, wf)
    requires IsLive(s, q)
    ensures s.sessions[q].workflow != wf
  {
    assert SessionOk(s, q);
  }

  lemma OpensCurrent(s: State, l: Label, wf: nat, r: nat)
    requires Enabled(s, l) && Opens(s, l, r) && WorksOn(Next(s, l), r, wf)
    ensures wf in Next(s, l).db && Next(s, l).sessions[r].loaded == Next(s, l).db[wf].row
  {
  }

  lemma ExclusiveKept(s: State, l: Label, wf: nat)
    requires StoresOk(s) && SessionsOk(s) && Enabled(s, l) && SerialStep(s, l, wf) && Exclusive(s, wf)
    ensures Exclusive(Next(s, l), wf)
  {
    var s' := Next(s, l);
    forall r, q | WorksOn(s', r, wf) && WorksOn(s', q, wf)
      ensures r == q
    {
      if Opens(s, l, r) && !Opens(s, l, q) {
        SessionOrigin(s, l, q);
        OpensAlone(s, l, wf, r, q);
      } else if Opens(s, l, q) && !Opens(s, l, r) {
        SessionOrigin(s, l, r);
        OpensAlone(s, l, wf, q, r);
      } else if !Opens(s, l, r) && !Opens(s, l, q) {
        SessionOrigin(s, l, r);
        SessionOrigin(s, l, q);
        assert WorksOn(s, r, wf) && WorksOn(s, q, wf);
      }
    }
    forall r | WorksOn(s', r, wf)
      ensures wf in s'.db && s'.sessions[r].loaded == s'.db[wf].row
    {
      if Opens(s, l, r) {
        OpensCurrent(s, l, wf, r);
      } else {
        StaysCurrent(s, l, wf, r);
      }
    }
  }

  lemma StaysCurrent(s: State, l: Label, wf: nat, r: nat)
    requires StoresOk(s) && Enabled(s, l) && Exclusive(s, wf) && WorksOn(Next(s, l), r, wf) && !Opens(s, l, r)
    ensures wf in Next(s, l).db && Next(s, l).sessions[r].loaded == Next(s, l).db[wf].row
  {
    SessionOrigin(s, l, r);
    assert WorksOn(s, r, wf);
    if Saves(s, l, wf) {
      SaverIsGone(s, l.request);
      assert WorksOn(s, l.request, wf);
      assert false;
    }
    RecordFrame(s, l, wf);
  }

  /** Serialised retries of a workflow never overtake each other. */
  lemma {:induction false} SerialNeverOvertakes(ls: seq<Label>, wf: nat)
    requires Valid(ls) && Serial(ls, wf)
    ensures Exclusive(Exec(ls), wf) && !Overtaken(ls, wf)
  {
    if ls != [] {
      var s, l := Exec(Init(ls)), Last(ls);
      SerialNeverOvertakes(Init(ls), wf);
      InvHolds(Init(ls));
      ExclusiveKept(s, l, wf);
      assert Saves(s, l, wf) ==> WorksOn(s, l.request, wf);
    }
  }
}
