/** Which requests post a workflow's claim, and what its final state says about it, in every run:
    requests may die anywhere and retries may overlap. The theorems name the deaths and the
    commits that matter. */
module SagaPosts {
  import opened Common
  import opened WorkflowRows
  import opened Saga
  import opened SagaSafety
  import opened SagaTheorems
  import opened SagaAudit

  // ---------------------------------------------------------------- POSTs and their senders

  ghost predicate Sent(s: State, wf: nat) {
    exists p :: p in s.posts && s.posts[p].workflow == wf
  }

  ghost predicate HasPosted(s: State, r: nat, wf: nat) {
    exists p :: p in s.posts && p.Post? && p.request == r && s.posts[p].workflow == wf
  }

  /** The policy was verified and the outcome, if any, came from the Claims Service. */
  predicate ClaimStage(session: Session)
    requires session.Live?
  {
    !session.phase.Verifying? && (session.phase.Settled? ==> !PolicyFailedShape(session.work))
  }

  predicate AtClaim(s: State, r: nat, wf: nat) { WorksOn(s, r, wf) && ClaimStage(s.sessions[r]) }

  /** A request that has posted the workflow's claim dies in the step: whatever the answer, it
      will not be recorded. */
  ghost predicate Loses(s: State, l: Label, wf: nat)
    requires Enabled(s, l)
  {
    exists r :: Dies(s, l, r) && HasPosted(s, r, wf)
  }

  ghost predicate Lost(ls: seq<Label>, wf: nat)
    requires Valid(ls)
  {
    ls != [] && (Lost(Init(ls), wf) || Loses(Exec(Init(ls)), Last(ls), wf))
  }

  /** The step commits what the Claims Service, or its silence, made of the workflow. */
  predicate Reports(s: State, l: Label, wf: nat) {
    Saves(s, l, wf) && ClaimStage(s.sessions[l.request])
  }

  predicate Reported(ls: seq<Label>, wf: nat)
    requires Valid(ls)
  {
    ls != [] && (Reported(Init(ls), wf) || Reports(Exec(Init(ls)), Last(ls), wf))
  }

  /** The row says that a claim was posted. */
  predicate SaysSent(row: Row) {
    row.state == Completed || row.state == ReconciliationNeeded || row.failure == Some(ClaimsServiceRejected)
  }

  /** The step commits "policy not found" or "policy not active" over a rejection by the Claims
      Service that an overlapping request had committed. */
  predicate Hides(s: State, l: Label, wf: nat) {
    && Saves(s, l, wf) && wf in s.db
    && s.db[wf].row.state == Failed && s.db[wf].row.failure == Some(ClaimsServiceRejected)
    && s.sessions[l.request].work.failure in {Some(PolicyNotFound), Some(PolicyNotActive)}
  }

  predicate Hidden(ls: seq<Label>, wf: nat)
    requires Valid(ls)
  {
    ls != [] && (Hidden(Init(ls), wf) || Hides(Exec(Init(ls)), Last(ls), wf))
  }

  // ---------------------------------------------------------------- every POST has an account

  ghost predicate PostsAccounted(s: State, wf: nat, closed: bool) {
    forall p :: p in s.posts && p.Post? && s.posts[p].workflow == wf ==> closed || AtClaim(s, p.request, wf)
  }

  /** Nobody gets past its first POST without a POST. */
  ghost predicate StagesSent(s: State, wf: nat) {
    forall r :: AtClaim(s, r, wf) && s.sessions[r].phase != Posting(0) ==> Sent(s, wf)
  }

  lemma MovedStage(before: Session, after: Session, l: Label, r: nat)
    requires before.Live? && after.Live? && Moves(before, after, l, r) && CopyOk(before) && PhaseOk(before)
    ensures ClaimStage(before) ==> ClaimStage(after)
    ensures !ClaimStage(before) && ClaimStage(after) ==> after.phase == Posting(0)
  {
    if l.PolicyAnswered? {
      if before.phase.Verifying? {
        AfterPolicyShape(before.work, l.policy);
      }
    } else if l.PostAnswered? && before.phase.Waiting? {
      var d := Decide(l.outcome, before.phase.attempt);
      if d.Some? {
        AfterClaimsShape(before.work, d.value);
      }
    }
  }

  lemma SenderStays(s: State, l: Label, r: nat, wf: nat)
    requires StoresOk(s) && CallersOk(s) && SessionOk(s, r) && Enabled(s, l) && AtClaim(s, r, wf)
    requires !Dies(s, l, r) && l != Save(r)
    ensures AtClaim(Next(s, l), r, wf)
  {
    assert SessionOk(s, r);
    StaysOpen(s, l, r);
    SessionMoves(s, l, r);
    MovedStage(s.sessions[r], Next(s, l).sessions[r], l, r);
  }

  lemma NewPostAccounted(s: State, l: Label, p: CallId)
    requires Enabled(s, l) && p !in s.posts && p in Next(s, l).posts && p.Post?
    ensures AtClaim(Next(s, l), p.request, Next(s, l).posts[p].workflow)
  {
  }

  lemma AccountedKept(s: State, l: Label, wf: nat)
    requires StoresOk(s) && CallersOk(s) && SessionsOk(s) && Enabled(s, l) && SendsNew(s, l)
    requires PostsAccounted(s, wf, false)
    ensures PostsAccounted(Next(s, l), wf, Reports(s, l, wf) || Loses(s, l, wf))
  {
    var s' := Next(s, l);
    PostsStay(s, l);
    if !Reports(s, l, wf) && !Loses(s, l, wf) {
      forall p | p in s'.posts && p.Post? && s'.posts[p].workflow == wf
        ensures AtClaim(s', p.request, wf)
      {
        if p !in s.posts {
          NewPostAccounted(s, l, p);
        } else {
          assert HasPosted(s, p.request, wf);
          SenderStays(s, l, p.request, wf);
        }
      }
    }
  }

  lemma SentStays(s: State, l: Label, wf: nat)
    requires Enabled(s, l) && SendsNew(s, l) && Sent(s, wf)
    ensures Sent(Next(s, l), wf)
  {
    PostsStay(s, l);
    var p :| p in s.posts && s.posts[p].workflow == wf;
    assert p in Next(s, l).posts;
  }

  lemma StageSent(s: State, l: Label, r: nat, wf: nat)
    requires SessionsOk(s) && Enabled(s, l) && SendsNew(s, l) && StagesSent(s, wf)
    requires AtClaim(Next(s, l), r, wf) && Next(s, l).sessions[r].phase != Posting(0)
    ensures Sent(Next(s, l), wf)
  {
    if !Opens(s, l, r) {
      SessionOrigin(s, l, r);
      SessionMoves(s, l, r);
      assert SessionOk(s, r);
      var before := s.sessions[r];
      MovedStage(before, Next(s, l).sessions[r], l, r);
      if l == Send(r) {
        assert Next(s, l).posts[Post(r, before.phase.attempt)].workflow == wf;
      } else {
        assert AtClaim(s, r, wf) && before.phase != Posting(0);
        SentStays(s, l, wf);
      }
    }
  }

  /** A step that reports or loses a claim finds its POST sent. */
  lemma AccountWasSent(s: State, l: Label, wf: nat)
    requires Enabled(s, l) && StagesSent(s, wf) && (Reports(s, l, wf) || Loses(s, l, wf))
    ensures Sent(s, wf)
  {
    if Reports(s, l, wf) {
      assert AtClaim(s, l.request, wf) && s.sessions[l.request].phase != Posting(0);
    } else {
      var r :| Dies(s, l, r) && HasPosted(s, r, wf);
    }
  }

  lemma {:induction false} PostsHold(ls: seq<Label>, wf: nat)
    requires Valid(ls)
    ensures StagesSent(Exec(ls), wf)
    ensures Reported(ls, wf) || Lost(ls, wf) ==> Sent(Exec(ls), wf)
    ensures PostsAccounted(Exec(ls), wf, Reported(ls, wf) || Lost(ls, wf))
  {
    if ls != [] {
      var s, l := Exec(Init(ls)), Last(ls);
      PostsHold(Init(ls), wf);
      InvHolds(Init(ls));
      PostsAndDeliveriesKept(s, l);
      forall r | AtClaim(Exec(ls), r, wf) && Exec(ls).sessions[r].phase != Posting(0)
        ensures Sent(Exec(ls), wf)
      {
        StageSent(s, l, r, wf);
      }
      if Reported(ls, wf) || Lost(ls, wf) {
        if Reports(s, l, wf) || Loses(s, l, wf) {
          AccountWasSent(s, l, wf);
        }
        SentStays(s, l, wf);
      } else {
        AccountedKept(s, l, wf);
      }
    }
  }

  /** In every run: once nobody is working on a workflow, a POST for it has been sent if and only
      if a request committed what came of one or died after posting one. */
  lemma SentExactlyWhenReported(ls: seq<Label>, wf: nat)
    requires Valid(ls) && Idle(Exec(ls), wf)
    ensures Sent(Exec(ls), wf) <==> Reported(ls, wf) || Lost(ls, wf)
  {
    PostsHold(ls, wf);
    InvHolds(ls);
    if Sent(Exec(ls), wf) {
      var p :| p in Exec(ls).posts && Exec(ls).posts[p].workflow == wf;
      assert PostOk(Exec(ls), p);
    }
  }

  // ---------------------------------------------------------------- what the row says of them

  /** The commit overwrites the failure category, which is all the row has to say. */
  predicate TakesBack(row: Row, session: Session)
    requires session.Live?
  {
    && row.state != Completed && row.state != ReconciliationNeeded
    && session.work.failure in {Some(PolicyNotFound), Some(PolicyNotActive)}
  }

  /** What a commit makes of a row's word on the claim. */
  lemma SavedWord(row: FullRow, session: Session)
    requires session.Live? && CopyOk(session) && session.phase.Settled? && PhaseOk(session)
    requires if session.isRetry then session.loaded.failure == Some(PolicyServiceUnavailable) else session.loaded == row
    ensures var saved := Flush(row, session.loaded, Final(session));
      SaysSent(saved) <==> ClaimStage(session) || (SaysSent(row) && !TakesBack(row, session))
  {
    FinalFacts(session);
  }

  lemma HidesIsNoReport(s: State, r: nat, wf: nat)
    requires SessionOk(s, r) && Hides(s, Save(r), wf)
    ensures !ClaimStage(s.sessions[r])
  {
  }

  lemma SaveSays(s: State, r: nat, wf: nat)
    requires SessionOk(s, r) && RecordOk(s, wf) && OutagesOk(s) && Enabled(s, Save(r)) && s.sessions[r].workflow == wf
    ensures Says(Next(s, Save(r)), wf) <==>
      ClaimStage(s.sessions[r]) || (SaysSent(s.db[wf].row) && !Hides(s, Save(r), wf))
  {
    var row, session := s.db[wf].row, s.sessions[r];
    SavedWord(row, session);
    RejectedIsFailed(s, wf);
    assert Next(s, Save(r)).db[wf].row == Flush(row, session.loaded, Final(session));
  }

  lemma RejectedIsFailed(s: State, wf: nat)
    requires RecordOk(s, wf)
    ensures s.db[wf].row.state in {Pending, Completed, Failed, ReconciliationNeeded}
    ensures s.db[wf].row.state == Pending ==> !SaysSent(s.db[wf].row)
  {
  }

  ghost predicate Says(s: State, wf: nat) { wf in s.db && SaysSent(s.db[wf].row) }

  /** Step by step: a report makes the row say so, and only a hiding commit takes it back. */
  lemma SaysStep(s: State, l: Label, wf: nat)
    requires StoresOk(s) && SessionsOk(s) && RecordsOk(s) && OutagesOk(s) && Enabled(s, l)
    ensures Says(Next(s, l), wf) <==> Reports(s, l, wf) || (Says(s, wf) && !Hides(s, l, wf))
  {
    if wf !in s.db {
      if wf in Next(s, l).db {
        NewRecordIsNew(s, l, wf);
      }
    } else if Saves(s, l, wf) {
      assert SessionOk(s, l.request) && RecordOk(s, wf);
      SaveSays(s, l.request, wf);
      if Hides(s, l, wf) {
        HidesIsNoReport(s, l.request, wf);
      }
    } else {
      RecordFrame(s, l, wf);
      RecordsExtend(s, l, wf);
    }
  }

  lemma {:induction false} SaysExactlyWhen(ls: seq<Label>, wf: nat)
    requires Valid(ls)
    ensures Says(Exec(ls), wf) || Hidden(ls, wf) <==> Reported(ls, wf)
  {
    if ls != [] {
      var s, l := Exec(Init(ls)), Last(ls);
      SaysExactlyWhen(Init(ls), wf);
      InvHolds(Init(ls));
      OutagesHold(Init(ls));
      SaysStep(s, l, wf);
    }
  }

  /** What a final state says, in every run. Once nobody is working on a workflow, a POST for it has
      been sent if and only if the row says that its claim was accepted, rejected or left to be
      reconciled, or a request died after posting it, or a policy verdict was committed over the
      rejection of its claim. */
  lemma SentExactlyWhen(ls: seq<Label>, wf: nat)
    requires Valid(ls) && wf in Exec(ls).db && Idle(Exec(ls), wf)
    ensures Sent(Exec(ls), wf) <==> SaysSent(Exec(ls).db[wf].row) || Lost(ls, wf) || Hidden(ls, wf)
  {
    SentExactlyWhenReported(ls, wf);
    SaysExactlyWhen(ls, wf);
  }

  /** A rejection is hidden only by a commit that overtakes it. */
  lemma {:induction false} HiddenIsOvertaken(ls: seq<Label>, wf: nat)
    requires Valid(ls) && Hidden(ls, wf)
    ensures Overtaken(ls, wf)
  {
    if Hidden(Init(ls), wf) {
      HiddenIsOvertaken(Init(ls), wf);
    } else {
      OutagesHold(Init(ls));
      LiveCopyOk(Init(ls), Last(ls).request);
      HidesOvertakes(Exec(Init(ls)), Last(ls), wf);
    }
  }

  lemma LiveCopyOk(ls: seq<Label>, r: nat)
    requires Valid(ls) && IsLive(Exec(ls), r)
    ensures CopyOk(Exec(ls).sessions[r])
  {
    InvHolds(ls);
    assert SessionOk(Exec(ls), r);
  }

  lemma HidesOvertakes(s: State, l: Label, wf: nat)
    requires Hides(s, l, wf) && CopyOk(s.sessions[l.request]) && OutagesOk(s)
    ensures Overtakes(s, l, wf)
  {
  }

  /** In particular, a workflow that failed on its policy and was not overtaken has had a POST sent
      if and only if a request died after posting it. */
  lemma PolicyFailureHidesExactlyLost(ls: seq<Label>, wf: nat)
    requires Valid(ls) && !Overtaken(ls, wf) && wf in Exec(ls).db && Idle(Exec(ls), wf)
    requires PolicyFailedShape(Exec(ls).db[wf].row)
    ensures Sent(Exec(ls), wf) <==> Lost(ls, wf)
  {
    SentExactlyWhen(ls, wf);
    if Hidden(ls, wf) {
      HiddenIsOvertaken(ls, wf);
    }
  }

  /** No call of the Claims Service came from the workflow. */
  ghost predicate Unheard(s: State, wf: nat) {
    forall c :: c in s.claims.calls && c.Post? ==> c in s.posts && s.posts[c].workflow != wf
  }

  /** A workflow left pending, or failed on its policy, has no claim of its own, unless a request
      died after posting it or its rejection was hidden. */
  lemma NeverHeardOf(ls: seq<Label>, wf: nat)
    requires Valid(ls) && wf in Exec(ls).db && Idle(Exec(ls), wf)
    requires !SaysSent(Exec(ls).db[wf].row) && !Lost(ls, wf) && !Hidden(ls, wf)
    ensures Unheard(Exec(ls), wf)
  {
    SentExactlyWhen(ls, wf);
    InvHolds(ls);
    forall c | c in Exec(ls).claims.calls && c.Post?
      ensures c in Exec(ls).posts && Exec(ls).posts[c].workflow != wf
    {
      assert DeliveryOk(Exec(ls), c);
    }
  }

  // ---------------------------------------------------------------- one sender

  ghost predicate OneSender(s: State, wf: nat) {
    forall p, q :: p in s.posts && q in s.posts && p.Post? && q.Post? &&
      s.posts[p].workflow == s.posts[q].workflow == wf
      ==> p.request == q.request
  }

  /** A row that is being worked on as it is does not say that the claim was posted. */
  lemma WorkedOnSaysNothing(s: State, r: nat, wf: nat)
    requires SessionOk(s, r) && OutagesOk(s) && Exclusive(s, wf) && WorksOn(s, r, wf)
    ensures !Says(s, wf)
  {
  }

  /** All earlier POSTs of the workflow are the sender's own. */
  lemma SendsAlone(ls: seq<Label>, r: nat, wf: nat, q: CallId)
    requires Valid(ls) && Serial(ls, wf) && !Lost(ls, wf) && WorksOn(Exec(ls), r, wf)
    requires q in Exec(ls).posts && q.Post? && Exec(ls).posts[q].workflow == wf
    ensures q.request == r
  {
    SerialNeverOvertakes(ls, wf);
    PostsHold(ls, wf);
    if Reported(ls, wf) {
      SaysExactlyWhen(ls, wf);
      if Hidden(ls, wf) {
        HiddenIsOvertaken(ls, wf);
      } else {
        InvHolds(ls);
        OutagesHold(ls);
        assert SessionOk(Exec(ls), r);
        WorkedOnSaysNothing(Exec(ls), r, wf);
        assert false;
      }
    }
  }

  lemma OneSenderKept(s: State, l: Label, wf: nat)
    requires Enabled(s, l) && OneSender(s, wf)
    requires l.Send? && s.sessions[l.request].workflow == wf ==>
      forall q :: q in s.posts && q.Post? && s.posts[q].workflow == wf ==> q.request == l.request
    ensures OneSender(Next(s, l), wf)
  {
  }

  lemma {:induction false} OneSenderHolds(ls: seq<Label>, wf: nat)
    requires Valid(ls) && Serial(ls, wf) && !Lost(ls, wf)
    ensures OneSender(Exec(ls), wf)
  {
    if ls != [] {
      var s, l := Exec(Init(ls)), Last(ls);
      OneSenderHolds(Init(ls), wf);
      if l.Send? && s.sessions[l.request].workflow == wf {
        forall q | q in s.posts && q.Post? && s.posts[q].workflow == wf
          ensures q.request == l.request
        {
          SendsAlone(Init(ls), l.request, wf, q);
        }
      }
      OneSenderKept(s, l, wf);
    }
  }

  /** Over its first run and all its retries, a workflow's claim is posted by one request, in at
      most three POSTs, provided its retries do not overlap and no request died after posting
      it. Other workflows may do as they like. */
  lemma OneSubmission(ls: seq<Label>, wf: nat, p: CallId, q: CallId)
    requires Valid(ls) && Serial(ls, wf) && !Lost(ls, wf) && p in Exec(ls).posts && q in Exec(ls).posts
    requires Exec(ls).posts[p].workflow == Exec(ls).posts[q].workflow == wf
    ensures p.Post? && q.Post? && p.request == q.request && p.attempt < 3 && q.attempt < 3
  {
    OneSenderHolds(ls, wf);
    BoundsAlways(ls);
  }
}
