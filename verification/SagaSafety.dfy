/** What every interleaving of the saga keeps: lost and late messages, crashes, concurrent starts
    and concurrent retries included. */
module SagaSafety {
  import opened Common
  import opened HttpClients
  import opened WorkflowRows
  import opened Saga
  import Keys
  import G = GetOrCreate

  // ---------------------------------------------------------------- the invariant

  /** The claim `id` is the one stored for this subject and the workflow's key, and it was created
      from the workflow's request. */
  ghost predicate ClaimedBy(s: State, subject: string, wf: nat, id: nat)
    requires wf in s.db
  {
    var k := (subject, s.db[wf].owner.1);
    k in s.claims.keys && s.claims.keys[k] == G.Entry(s.db[wf].payload, id)
  }

  ghost predicate RecordOk(s: State, wf: nat) {
    && wf in s.db
    && var record := s.db[wf];
    var row := record.row;
    && record.owner in s.orch.keys && s.orch.keys[record.owner] == G.Entry(record.payload, wf)
    && InOrder(row)
    && row.retries <= MAX_RETRY_COUNT
    && (row.state == Pending ==> row == NewRow())
    && (row.state == Failed ==> row.claimId.None?)
    && row.state != PolicyVerified && row.state != ClaimSubmitted
    && (row.state == Completed ==>
          row.claimId.Some? && record.completedBy.Some? &&
            ClaimedBy(s, record.completedBy.value, wf, row.claimId.value))
  }

  predicate PhaseOk(session: Session)
    requires session.Live?
  {
    match session.phase
    case Verifying => PendingShape(session.work)
    case Posting(a) => VerifiedShape(session.work) && a <= MAX_RETRIES
    case Waiting(a) => VerifiedShape(session.work) && a <= MAX_RETRIES
    case Settled => SettledShape(session.work)
  }

  predicate CopyOk(session: Session)
    requires session.Live?
  {
    && InOrder(session.loaded)
    && session.loaded.claimId.None?
    && session.loaded.state == (if session.isRetry then Failed else Pending)
    && session.work.retries == session.loaded.retries + (if session.isRetry then 1 else 0)
    && session.work.retries <= MAX_RETRY_COUNT
    && session.loaded.audit <= session.work.audit
    && (!session.isRetry ==> session.loaded == NewRow())
  }

  /** How many POSTs a request may have sent by now. */
  function Budget(phase: Phase): nat {
    match phase
    case Verifying => 0
    case Posting(a) => a
    case Waiting(a) => a + 1
    case Settled => MAX_RETRIES + 1
  }

  /** A request's own POSTs: numbered below its budget, all carrying the same message. */
  ghost predicate OwnPosts(s: State, r: nat)
    requires IsLive(s, r) && s.sessions[r].workflow in s.db
  {
    var session := s.sessions[r];
    var message := Message(session.workflow, (session.subject, s.db[session.workflow].owner.1),
      s.db[session.workflow].payload);
    && (forall p :: p in s.posts && p.Post? && p.request == r ==>
       p.attempt < Budget(session.phase) && s.posts[p] == message)
    && (session.phase.Waiting? ==> Post(r, session.phase.attempt) in s.posts)
  }

  ghost predicate SessionOk(s: State, r: nat) {
    && IsLive(s, r)
    && var session := s.sessions[r];
    var wf := session.workflow;
    && wf in s.db
    && CopyOk(session)
    && PhaseOk(session)
    && OwnPosts(s, r)
    && (session.phase.Settled? && session.work.state == Completed ==>
          ClaimedBy(s, session.subject, wf, session.work.claimId.value))
    && (!session.isRetry ==>
          && s.db[wf].row.state == Pending
          && r in s.orch.calls
          && s.orch.calls[r] == G.Done(s.db[wf].owner, s.db[wf].payload, G.Made(wf)))
    && (session.isRetry ==> s.db[wf].row.state != Pending && r !in s.orch.calls)
  }

  ghost predicate PostOk(s: State, p: CallId) {
    && p in s.posts
    && var m := s.posts[p];
    && p.Post? && p.attempt <= MAX_RETRIES && p.request in s.sessions
    && m.workflow in s.db
    && m.key.1 == s.db[m.workflow].owner.1
    && m.payload == s.db[m.workflow].payload
  }

  ghost predicate DeliveryOk(s: State, c: CallId) {
    c in s.claims.calls && c.Post? ==>
      c in s.posts && s.claims.calls[c].key == s.posts[c].key && s.claims.calls[c].fp == s.posts[c].payload
  }

  ghost predicate StoresOk(s: State) {
    G.Inv(s.orch) && G.Inv(s.claims) && s.db.Keys == s.orch.rows.Keys
  }

  ghost predicate RecordsOk(s: State) { forall wf :: wf in s.db ==> RecordOk(s, wf) }

  ghost predicate SessionsOk(s: State) { forall r :: IsLive(s, r) ==> SessionOk(s, r) }

  ghost predicate PostsOk(s: State) { forall p :: p in s.posts ==> PostOk(s, p) }

  ghost predicate DeliveriesOk(s: State) { forall c :: c in s.claims.calls ==> DeliveryOk(s, c) }

  /** A start has a session only after its first commit, which ends its get-or-create call. */
  ghost predicate CallersOk(s: State) {
    forall r :: r in s.sessions && r in s.orch.calls ==> s.orch.calls[r].Done?
  }

  ghost predicate Inv(s: State) {
    CallersOk(s) && StoresOk(s) && RecordsOk(s) && SessionsOk(s) && PostsOk(s) && DeliveriesOk(s)
  }

  // ---------------------------------------------------------------- it is kept

  /** What no step takes back. */
  ghost predicate Extends(s: State, s': State) {
    && G.Grows(s.claims, s'.claims)
    && G.Grows(s.orch, s'.orch)
    && (forall wf :: wf in s.db ==>
       wf in s'.db && s'.db[wf].owner == s.db[wf].owner && s'.db[wf].payload == s.db[wf].payload)
    && s.sessions.Keys <= s'.sessions.Keys
  }

  lemma StoresExtend(s: State, l: Label)
    requires Enabled(s, l)
    ensures G.Grows(s.claims, Next(s, l).claims)
    ensures G.Grows(s.orch, Next(s, l).orch)
  {
    match l
    case Start(r, subject, header, payload) =>
    case Orchestrator(step) => G.StepGrows(s.orch, step);
    case ClaimsService(step) => G.StepGrows(s.claims, step);
    case _ =>
  }

  lemma RecordsExtend(s: State, l: Label, wf: nat)
    requires s.db.Keys == s.orch.rows.Keys && Enabled(s, l) && wf in s.db
    ensures wf in Next(s, l).db && Next(s, l).db[wf].owner == s.db[wf].owner &&
      Next(s, l).db[wf].payload == s.db[wf].payload
  {
  }

  lemma SessionsStay(s: State, l: Label)
    requires Enabled(s, l)
    ensures s.sessions.Keys <= Next(s, l).sessions.Keys
  {
  }

  lemma StepExtends(s: State, l: Label)
    requires StoresOk(s) && Enabled(s, l)
    ensures Extends(s, Next(s, l))
  {
    var s' := Next(s, l);
    StoresExtend(s, l);
    SessionsStay(s, l);
    forall wf | wf in s.db
      ensures wf in s'.db && s'.db[wf].owner == s.db[wf].owner && s'.db[wf].payload == s.db[wf].payload
    {
      RecordsExtend(s, l, wf);
    }
  }

  lemma StoresKept(s: State, l: Label)
    requires StoresOk(s) && Enabled(s, l)
    ensures StoresOk(Next(s, l))
  {
    match l
    case Start(r, subject, header, payload) =>
      if Keys.Strip(header) != "" {
        G.InvKept(s.orch, G.Begin(r, (subject, Keys.Strip(header)), payload));
      }
    case Orchestrator(step) => G.InvKept(s.orch, step);
    case ClaimsService(step) => G.InvKept(s.claims, step);
    case _ =>
  }

  lemma CallersKept(s: State, l: Label)
    requires CallersOk(s) && Enabled(s, l)
    ensures CallersOk(Next(s, l))
  {
  }

  lemma ClaimedStays(s: State, s': State, subject: string, wf: nat, id: nat)
    requires Extends(s, s') && wf in s.db && ClaimedBy(s, subject, wf, id)
    ensures ClaimedBy(s', subject, wf, id)
  {
  }

  /** The request whose session the step creates or moves. */
  predicate Acts(s: State, l: Label, r: nat)
    requires Enabled(s, l)
  {
    match l
    case Orchestrator(step) => G.Inserts(s.orch, step) && step.call == r
    case PolicyAnswered(q, _) => q == r
    case Send(q) => q == r
    case PostAnswered(q, _) => q == r
    case Save(q) => q == r
    case Retry(q, wf, _) => q == r && CanRetry(s.db[wf].row)
    case Crash(q) => q == r
    case _ => false
  }

  /** The step that gives a request its session. */
  predicate Opens(s: State, l: Label, r: nat)
    requires Enabled(s, l)
  {
    || (l.Retry? && l.request == r && CanRetry(s.db[l.workflow].row))
    || (l.Orchestrator? && G.Inserts(s.orch, l.orchStep) && l.orchStep.call == r)
  }

  /** A session keeps its workflow, its token and the row it loaded. */
  lemma SessionOrigin(s: State, l: Label, r: nat)
    requires Enabled(s, l) && IsLive(Next(s, l), r) && !Opens(s, l, r)
    ensures IsLive(s, r)
    ensures var before, after := s.sessions[r], Next(s, l).sessions[r];
      && after.workflow == before.workflow && after.subject == before.subject
      && after.isRetry == before.isRetry && after.loaded == before.loaded
  {
  }

  /** The ways a session moves on. */
  ghost predicate Moves(before: Session, after: Session, l: Label, r: nat)
    requires before.Live?
  {
    || after == before
    || (l == Send(r) && before.phase.Posting? && after == before.(phase := Waiting(before.phase.attempt)))
    || (l.PolicyAnswered? && l.request == r && before.phase.Verifying? && after == AfterPolicyAnswer(before, l.policy))
    || (l.PostAnswered? && l.request == r && before.phase.Waiting? && after == AfterPostAnswer(before, l.outcome))
  }

  lemma SessionMoves(s: State, l: Label, r: nat)
    requires Enabled(s, l) && IsLive(Next(s, l), r) && !Opens(s, l, r)
    ensures IsLive(s, r) && Moves(s.sessions[r], Next(s, l).sessions[r], l, r)
  {
  }

  lemma FinalFacts(session: Session)
    requires session.Live? && CopyOk(session) && session.phase.Settled? && PhaseOk(session)
    ensures var f := Final(session);
      && f.(audit := session.work.audit) == session.work
      && session.loaded.audit <= f.audit
  {
  }

  lemma OtherRecordKept(s: State, s': State, wf: nat)
    requires RecordOk(s, wf) && Extends(s, s') && s'.db[wf] == s.db[wf]
    ensures RecordOk(s', wf)
  {
  }

  /** What a record holds after a request committed on it, whatever else was committed since the
      request loaded it. */
  lemma SavedRow(record: Record, session: Session)
    requires session.Live? && CopyOk(session) && session.phase.Settled? && PhaseOk(session)
    requires InOrder(record.row) && record.row.retries <= MAX_RETRY_COUNT
    requires if session.isRetry then record.row.state != Pending else record.row.state == Pending
    requires record.row.state != PolicyVerified && record.row.state != ClaimSubmitted
    requires record.row.state == Pending || record.row.state == Failed ==> record.row.claimId.None?
    ensures var saved := Saved(record, session);
      && InOrder(saved.row) && saved.row.retries <= MAX_RETRY_COUNT
      && (saved.row.state == Failed ==> saved.row.claimId.None?)
      && saved.row.state in {Completed, Failed, ReconciliationNeeded}
      && (saved.row.state == Completed ==>
            || (session.work.state == Completed && saved.row.claimId == session.work.claimId &&
               saved.completedBy == Some(session.subject))
            || (record.row.state == Completed && saved.row.claimId == record.row.claimId &&
               saved.completedBy == record.completedBy))
  {
    FinalFacts(session);
    var final := Final(session);
    assert final.state == session.work.state && final.claimId == session.work.claimId &&
      final.retries == session.work.retries;
  }

  /** ... in the state: the claim a completed row names is still there. */
  lemma SavedRecordStands(s: State, s': State, r: nat, wf: nat)
    requires SessionOk(s, r) && RecordOk(s, wf) && s.sessions[r].workflow == wf && s.sessions[r].phase.Settled?
    requires Extends(s, s') && s'.db[wf] == Saved(s.db[wf], s.sessions[r])
    ensures RecordOk(s', wf) && s'.db[wf].row.state != Pending
  {
    var session, saved := s.sessions[r], s'.db[wf];
    SavedRow(s.db[wf], session);
    if saved.row.state == Completed {
      var id := saved.row.claimId.value;
      if
        && session.work.state == Completed
        && saved.row.claimId == session.work.claimId
        && saved.completedBy == Some(session.subject)
      {
        ClaimedStays(s, s', session.subject, wf, id);
      } else {
        ClaimedStays(s, s', s.db[wf].completedBy.value, wf, id);
      }
    }
  }

  lemma SavedRecordOk(s: State, r: nat)
    requires StoresOk(s) && SessionOk(s, r) && RecordOk(s, s.sessions[r].workflow) && Enabled(s, Save(r))
    ensures RecordOk(Next(s, Save(r)), s.sessions[r].workflow)
    ensures Next(s, Save(r)).db[s.sessions[r].workflow].row.state != Pending
  {
    StepExtends(s, Save(r));
    assert SessionOk(s, r) && RecordOk(s, s.sessions[r].workflow);
    SavedRecordStands(s, Next(s, Save(r)), r, s.sessions[r].workflow);
  }

  predicate Saves(s: State, l: Label, wf: nat) {
    l.Save? && Enabled(s, l) && s.sessions[l.request].workflow == wf
  }

  /** Only the commit of a request on it changes a committed workflow. */
  lemma RecordFrame(s: State, l: Label, wf: nat)
    requires StoresOk(s) && Enabled(s, l) && wf in s.db && !Saves(s, l, wf)
    ensures Next(s, l).db[wf] == s.db[wf]
  {
  }

  lemma NewRecordIsNew(s: State, l: Label, wf: nat)
    requires Enabled(s, l) && wf !in s.db && wf in Next(s, l).db
    ensures Next(s, l).db[wf].row == NewRow() && Next(s, l).db[wf].completedBy.None?
  {
  }

  lemma NewRecordOk(s: State, l: Label, wf: nat)
    requires StoresOk(s) && Enabled(s, l) && wf !in s.db && wf in Next(s, l).db
    ensures RecordOk(Next(s, l), wf)
  {
  }

  lemma RecordsKept(s: State, l: Label)
    requires Inv(s) && Enabled(s, l)
    ensures RecordsOk(Next(s, l))
  {
    var s' := Next(s, l);
    StepExtends(s, l);
    forall wf | wf in s'.db
      ensures RecordOk(s', wf)
    {
      if wf !in s.db {
        NewRecordOk(s, l, wf);
      } else if Saves(s, l, wf) {
        SavedRecordOk(s, l.request);
      } else {
        RecordFrame(s, l, wf);
        OtherRecordKept(s, s', wf);
      }
    }
  }

  lemma PolicySessionKept(s: State, r: nat, v: PolicyVerdict)
    requires SessionOk(s, r) && Enabled(s, PolicyAnswered(r, v)) && IsLive(Next(s, PolicyAnswered(r, v)), r)
    ensures SessionOk(Next(s, PolicyAnswered(r, v)), r)
  {
    assert SessionOk(s, r);
    AfterPolicyShape(s.sessions[r].work, v);
  }

  lemma SentSession(s: State, s': State, r: nat, a: nat)
    requires SessionOk(s, r) && s.sessions[r].phase == Posting(a)
    requires s'.db == s.db && s'.claims == s.claims && s'.orch == s.orch
    requires s'.sessions == s.sessions[r := s.sessions[r].(phase := Waiting(a))]
    requires s'.posts == s.posts[Post(r, a) := Message(s.sessions[r].workflow,
      (s.sessions[r].subject, s.db[s.sessions[r].workflow].owner.1), s.db[s.sessions[r].workflow].payload)]
    ensures SessionOk(s', r)
  {
  }

  lemma SendSessionKept(s: State, r: nat)
    requires SessionsOk(s) && Enabled(s, Send(r))
    ensures SessionOk(Next(s, Send(r)), r)
  {
    assert SessionOk(s, r);
    SentSession(s, Next(s, Send(r)), r, s.sessions[r].phase.attempt);
  }

  /** A claim id the client believes is the one stored under its own key. */
  lemma BelievedClaim(s: State, r: nat, o: Outcome<ClaimBody>)
    requires Inv(s) && Enabled(s, PostAnswered(r, o))
    requires !Ambiguous(o) && ClaimsAnswer(o).Created?
    ensures SessionOk(s, r)
    ensures ClaimedBy(s, s.sessions[r].subject, s.sessions[r].workflow, ClaimsAnswer(o).id)
  {
    assert SessionOk(s, r);
    var post := Post(r, s.sessions[r].phase.attempt);
    WaitingPost(s, r);
    assert DeliveryOk(s, post);
    AnsweredUnderKey(s, post, ClaimsAnswer(o).id);
  }

  /** The message a waiting request is waiting on. */
  lemma WaitingPost(s: State, r: nat)
    requires SessionOk(s, r) && s.sessions[r].phase.Waiting?
    ensures var session, post := s.sessions[r], Post(r, s.sessions[r].phase.attempt);
      && session.workflow in s.db && post in s.posts
      && s.posts[post].key == (session.subject, s.db[session.workflow].owner.1)
      && s.posts[post].payload == s.db[session.workflow].payload
  {
  }

  /** A POST is answered with the claim stored under its key, made from its payload. */
  lemma AnsweredUnderKey(s: State, post: CallId, id: nat)
    requires G.Inv(s.claims) && DeliveryOk(s, post) && post.Post? && post in s.claims.calls &&
      s.claims.calls[post].Done?
    requires s.claims.calls[post].reply in {G.Made(id), G.Found(id)}
    ensures post in s.posts && s.posts[post].key in s.claims.keys
    ensures s.claims.keys[s.posts[post].key] == G.Entry(s.posts[post].payload, id)
  {
  }

  lemma AnsweredSession(s: State, s': State, r: nat, after: Session)
    requires SessionOk(s, r) && s.sessions[r].phase.Waiting? && s' == SetSession(s, r, after)
    requires after.Live? && (after.phase.Posting? || after.phase.Settled?)
    requires after.(work := s.sessions[r].work, phase := s.sessions[r].phase) == s.sessions[r]
    requires after.phase.Posting? ==> after.phase.attempt == s.sessions[r].phase.attempt + 1
    requires CopyOk(after) && PhaseOk(after)
    requires after.phase.Settled? && after.work.state == Completed ==>
      ClaimedBy(s, after.subject, after.workflow, after.work.claimId.value)
    ensures SessionOk(s', r)
  {
  }

  lemma AnsweredCopy(session: Session, o: Outcome<ClaimBody>)
    requires session.Live? && session.phase.Waiting? && CopyOk(session) && PhaseOk(session)
    ensures var after := AfterPostAnswer(session, o);
      after.Live? ==>
        && CopyOk(after) && PhaseOk(after)
        && after.(work := session.work, phase := session.phase) == session
        && (if after.phase.Posting? then after.phase.attempt == session.phase.attempt + 1 else after.phase.Settled?)
        && (after.phase.Settled? && after.work.state == Completed ==>
              !Ambiguous(o) && ClaimsAnswer(o).Created? && after.work.claimId == Some(ClaimsAnswer(o).id))
  {
    var d := Decide(o, session.phase.attempt);
    if d.Some? {
      AfterClaimsShape(session.work, d.value);
    }
  }

  lemma AnsweredSessionKept(s: State, r: nat, o: Outcome<ClaimBody>)
    requires Inv(s) && Enabled(s, PostAnswered(r, o)) && IsLive(Next(s, PostAnswered(r, o)), r)
    ensures SessionOk(Next(s, PostAnswered(r, o)), r)
  {
    assert SessionOk(s, r);
    var after := AfterPostAnswer(s.sessions[r], o);
    AnsweredCopy(s.sessions[r], o);
    if after.phase.Settled? && after.work.state == Completed {
      BelievedClaim(s, r, o);
    }
    AnsweredSession(s, Next(s, PostAnswered(r, o)), r, after);
  }

  /** A retry that passes the checks. */
  lemma NewRetryOk(s: State, r: nat, wf: nat, subject: string)
    requires RecordOk(s, wf) && PostsOk(s) && Enabled(s, Retry(r, wf, subject)) && CanRetry(s.db[wf].row)
    ensures SessionOk(Next(s, Retry(r, wf, subject)), r)
  {
    assert RecordOk(s, wf);
    BeginRetryShape(s.db[wf].row);
    assert forall p :: p in s.posts ==> PostOk(s, p);
  }

  /** A start whose first commit just succeeded. */
  lemma NewStartOk(s: State, step: G.Label<nat, Key, Request, nat>)
    requires StoresOk(s) && CallersOk(s) && PostsOk(s) && Enabled(s, Orchestrator(step)) && G.Inserts(s.orch, step)
    ensures SessionOk(Next(s, Orchestrator(step)), step.call)
  {
    assert step.call !in s.sessions;
    assert forall p :: p in s.posts ==> PostOk(s, p);
  }

  lemma SessionFrame(s: State, s': State, r: nat)
    requires IsLive(s, r) && SessionOk(s, r) && Extends(s, s')
    requires r in s'.sessions && s'.sessions[r] == s.sessions[r]
    requires forall p: CallId :: p.Post? && p.request == r ==>
      (p in s'.posts <==> p in s.posts) && (p in s.posts ==> s'.posts[p] == s.posts[p])
    requires var wf := s.sessions[r].workflow;
      if s.sessions[r].isRetry then s'.db[wf].row.state != Pending && r !in s'.orch.calls
      else s'.db[wf].row.state == Pending && r in s'.orch.calls && s'.orch.calls[r] == s.orch.calls[r]
    ensures SessionOk(s', r)
  {
  }

  /** A request that has just committed on a workflow was the only start working on it. */
  lemma SaverIsTheStarter(s: State, q: nat, r: nat)
    requires StoresOk(s) && SessionOk(s, q) && SessionOk(s, r)
    requires s.sessions[q].workflow == s.sessions[r].workflow && !s.sessions[r].isRetry
    ensures q == r
  {
    assert SessionOk(s, q) && SessionOk(s, r);
  }

  lemma CallFrame(s: State, l: Label, r: nat)
    requires Enabled(s, l) && r in s.sessions && CallersOk(s)
    ensures r in Next(s, l).orch.calls <==> r in s.orch.calls
    ensures r in s.orch.calls ==> Next(s, l).orch.calls[r] == s.orch.calls[r]
  {
  }

  lemma PostFrame(s: State, l: Label, r: nat)
    requires Enabled(s, l) && IsLive(s, r) && !Acts(s, l, r)
    ensures Next(s, l).sessions[r] == s.sessions[r]
    ensures forall p: CallId :: p.Post? && p.request == r ==>
      (p in Next(s, l).posts <==> p in s.posts) && (p in s.posts ==> Next(s, l).posts[p] == s.posts[p])
  {
  }

  /** Sessions that did not act. */
  lemma OtherSessionKept(s: State, l: Label, r: nat)
    requires Inv(s) && Enabled(s, l) && !Acts(s, l, r)
    requires IsLive(s, r)
    ensures SessionOk(Next(s, l), r)
  {
    assert SessionOk(s, r);
    var wf := s.sessions[r].workflow;
    StepExtends(s, l);
    CallFrame(s, l, r);
    PostFrame(s, l, r);
    if Saves(s, l, wf) {
      SavedRecordOk(s, l.request);
      if !s.sessions[r].isRetry {
        SaverIsTheStarter(s, l.request, r);
      }
    } else {
      RecordFrame(s, l, wf);
    }
    SessionFrame(s, Next(s, l), r);
  }

  lemma ActingSessionKept(s: State, l: Label, r: nat)
    requires Inv(s) && Enabled(s, l) && Acts(s, l, r) && IsLive(Next(s, l), r)
    ensures SessionOk(Next(s, l), r)
  {
    match l
    case PolicyAnswered(_, v) => PolicySessionKept(s, r, v);
    case Send(_) => SendSessionKept(s, r);
    case PostAnswered(_, o) => AnsweredSessionKept(s, r, o);
    case Retry(_, wf, subject) => NewRetryOk(s, r, wf, subject);
    case Orchestrator(step) => NewStartOk(s, step);
    case _ =>
  }

  lemma IdleSessionsStayLive(s: State, l: Label, r: nat)
    requires Enabled(s, l) && IsLive(Next(s, l), r) && !Acts(s, l, r)
    ensures IsLive(s, r)
  {
  }

  lemma SessionsKept(s: State, l: Label)
    requires Inv(s) && Enabled(s, l)
    ensures SessionsOk(Next(s, l))
  {
    forall r | IsLive(Next(s, l), r)
      ensures SessionOk(Next(s, l), r)
    {
      if Acts(s, l, r) {
        ActingSessionKept(s, l, r);
      } else {
        IdleSessionsStayLive(s, l, r);
        OtherSessionKept(s, l, r);
      }
    }
  }

  /** A request never sends the same POST twice. */
  lemma SendsNewPost(s: State, r: nat)
    requires SessionOk(s, r) && Enabled(s, Send(r))
    ensures Post(r, s.sessions[r].phase.attempt) !in s.posts
    ensures s.sessions[r].phase.attempt <= MAX_RETRIES
  {
  }

  predicate SendsNew(s: State, l: Label)
    requires Enabled(s, l)
  {
    l.Send? ==> Post(l.request, s.sessions[l.request].phase.attempt) !in s.posts
  }

  lemma PostsStay(s: State, l: Label)
    requires Enabled(s, l) && SendsNew(s, l)
    ensures forall p :: p in s.posts ==> p in Next(s, l).posts && Next(s, l).posts[p] == s.posts[p]
  {
  }

  lemma PostsOkKept(s: State, l: Label)
    requires PostsOk(s) && Enabled(s, l) && SendsNew(s, l) && Extends(s, Next(s, l))
    requires l.Send? ==> s.sessions[l.request].phase.attempt <= MAX_RETRIES
    ensures PostsOk(Next(s, l))
  {
    var s' := Next(s, l);
    forall p | p in s'.posts
      ensures PostOk(s', p)
    {
      if p in s.posts {
        assert PostOk(s, p);
      }
    }
  }

  lemma DeliveriesOkKept(s: State, l: Label)
    requires DeliveriesOk(s) && Enabled(s, l) && SendsNew(s, l)
    ensures DeliveriesOk(Next(s, l))
  {
    var s' := Next(s, l);
    forall c | c in s'.claims.calls
      ensures DeliveryOk(s', c)
    {
      assert DeliveryOk(s, c);
    }
  }

  lemma PostsAndDeliveriesKept(s: State, l: Label)
    requires Inv(s) && Enabled(s, l)
    ensures PostsOk(Next(s, l)) && DeliveriesOk(Next(s, l)) && SendsNew(s, l)
  {
    if l.Send? {
      assert SessionOk(s, l.request);
      SendsNewPost(s, l.request);
    }
    StepExtends(s, l);
    PostsOkKept(s, l);
    DeliveriesOkKept(s, l);
  }

  lemma InvKept(s: State, l: Label)
    requires Inv(s) && Enabled(s, l)
    ensures Inv(Next(s, l))
  {
    CallersKept(s, l);
    StoresKept(s, l);
    RecordsKept(s, l);
    SessionsKept(s, l);
    PostsAndDeliveriesKept(s, l);
  }

  lemma {:induction false} InvHolds(ls: seq<Label>)
    requires Valid(ls)
    ensures Inv(Exec(ls))
  {
    if ls == [] {
    } else {
      var s, l := Exec(Init(ls)), Last(ls);
      InvHolds(Init(ls));
      InvKept(s, l);
    }
  }
}
