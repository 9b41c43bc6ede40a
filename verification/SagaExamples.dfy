/** Runs that show where the promises of the saga end. Each is a reachable run, step by step. */
module SagaExamples {
  import opened Common
  import opened HttpClients
  import opened WorkflowRows
  import opened Saga
  import opened SagaSafety
  import opened SagaTheorems
  import opened SagaAudit
  import opened SagaPosts
  import Keys
  import G = GetOrCreate

  /** `s` is reached by a run in which retries of workflow 7 do not overlap, or by any run. */
  ghost predicate Reaches(ls: seq<Label>, s: State, serial: bool) {
    Valid(ls) && Exec(ls) == s && (serial ==> Serial(ls, 7))
  }

  lemma Then(ls: seq<Label>, s: State, l: Label, s': State, serial: bool) returns (longer: seq<Label>)
    requires Reaches(ls, s, serial) && Enabled(s, l) && s' == Next(s, l)
    requires serial ==> SerialStep(s, l, 7)
    ensures Reaches(longer, s', serial) && longer == ls + [l]
  {
    longer := ls + [l];
    assert Init(longer) == ls && Last(longer) == l;
  }

  function SomeRequest(): Request { Request(1, 2, "10.00", 3, "hail", None) }

  lemma KeyIsStripped()
    ensures Keys.Strip("k") == "k"
  {
    assert Keys.TrimLeft("k") == "k";
  }

  function FailedRow(): FullRow { MarkFailure(NewRow(), PolicyServiceUnavailable, false) }

  lemma FailedRowFacts()
    ensures PolicyFailedShape(FailedRow()) && CanRetry(FailedRow()) && Replays(FailedRow(), false)
    ensures FailedRow().retries == 0
    ensures Flush(NewRow(), NewRow(), FailedRow()) == FailedRow()
  {
    AfterPolicyShape(NewRow(), PolicyUnavailable);
    AfterPolicyReplays(NewRow(), PolicyUnavailable, false);
    FlushAlone(NewRow(), FailedRow());
  }

  /** The state after Ann's start 0 created workflow 7 and nothing else happened. */
  function Started(): State {
    State(AnnStore(), map[7 := Record(("ann", "k"), SomeRequest(), NewRow(), None)],
          map[0 := Live(7, "ann", false, NewRow(), NewRow(), Verifying)], map[], G.Empty())
  }

  function AnnStore(): G.Store<nat, Key, Request, nat> {
    G.Store(map[("ann", "k") := G.Entry(SomeRequest(), 7)], map[7 := SomeRequest()],
            map[0 := G.Done(("ann", "k"), SomeRequest(), G.Made(7))])
  }

  /** ... and after that start is over and left `row`. */
  function Outage(row: FullRow): State {
    State(AnnStore(), map[7 := Record(("ann", "k"), SomeRequest(), row, None)], map[0 := Over], map[], G.Empty())
  }

  function Asks(s: State, r: nat, c: G.Call<Key, Request, nat>): State {
    s.(orch := s.orch.(calls := s.orch.calls[r := c]))
  }

  lemma FindsNoKey(start: seq<Label>, s: State, r: nat, subject: string, serial: bool) returns (ls: seq<Label>)
    requires Reaches(start, s, serial) && NewRequest(s, r) && (subject, "k") !in s.orch.keys
    ensures Reaches(ls, Asks(s, r, G.Guarding((subject, "k"), SomeRequest())), serial)
  {
    KeyIsStripped();
    var k, q := (subject, "k"), SomeRequest();
    var asked := Asks(s, r, G.Looking(k, q));
    ls := Then(start, s, Start(r, subject, "k", q), asked, serial);
    assert asked.orch.calls[r := G.Guarding(k, q)] == s.orch.calls[r := G.Guarding(k, q)];
    ls := Then(ls, asked, Orchestrator(G.Lookup(r)), Asks(s, r, G.Guarding(k, q)), serial);
  }

  lemma ReadyToCommit(start: seq<Label>, s: State, r: nat, subject: string, serial: bool) returns (ls: seq<Label>)
    requires Reaches(start, s, serial) && NewRequest(s, r) && (subject, "k") !in s.orch.keys
    ensures Reaches(ls, Asks(s, r, G.Committing((subject, "k"), SomeRequest())), serial)
  {
    var k, q := (subject, "k"), SomeRequest();
    ls := FindsNoKey(start, s, r, subject, serial);
    var found, passed := Asks(s, r, G.Guarding(k, q)), Asks(s, r, G.Committing(k, q));
    assert found.orch.calls[r := G.Committing(k, q)] == passed.orch.calls;
    ls := Then(ls, found, Orchestrator(G.Guard(r, true)), passed, serial);
  }

  lemma ReachStarted() returns (ls: seq<Label>)
    ensures Reaches(ls, Started(), true)
  {
    assert Reaches([], Initial(), true);
    ls := ReadyToCommit([], Initial(), 0, "ann", true);
    var ready := Asks(Initial(), 0, G.Committing(("ann", "k"), SomeRequest()));
    ls := Then(ls, ready, Orchestrator(G.Commit(0, 7)), Started(), true);
  }

  function Answered(failed: FullRow): State {
    SetSession(Started(), 0, Live(7, "ann", false, NewRow(), failed, Settled))
  }

  lemma OutageAnswered(start: seq<Label>) returns (ls: seq<Label>)
    requires Reaches(start, Started(), true)
    ensures Reaches(ls, Answered(FailedRow()), true)
  {
    ls := Then(start, Started(), PolicyAnswered(0, PolicyUnavailable), Answered(FailedRow()), true);
  }

  lemma OutageSaved(start: seq<Label>, failed: FullRow) returns (ls: seq<Label>)
    requires Reaches(start, Answered(failed), true)
    requires Flush(NewRow(), NewRow(), failed) == failed && failed.state != Completed
    ensures Reaches(ls, Outage(failed), true)
  {
    ls := Then(start, Answered(failed), Save(0), Outage(failed), true);
  }

  lemma ReachFailure() returns (ls: seq<Label>, failed: FullRow)
    ensures Reaches(ls, Outage(failed), true)
    ensures PolicyFailedShape(failed) && CanRetry(failed) && Replays(failed, false) && failed.retries == 0
  {
    failed := FailedRow();
    FailedRowFacts();
    ls := ReachStarted();
    ls := OutageAnswered(ls);
    ls := OutageSaved(ls, failed);
  }

  // ---------------------------------------------------------------- overlapping retries

  function Retrying(subject: string, failed: FullRow): Session
  {
    Live(7, subject, true, failed, BeginRetry(failed), Verifying)
  }

  /** Workflow 7 with requests 1 and 2 on it. */
  function Two(row: FullRow, one: Session, two: Session): State {
    Outage(row).(sessions := map[0 := Over, 1 := one, 2 := two])
  }

  function One(row: FullRow, one: Session): State {
    Outage(row).(sessions := map[0 := Over, 1 := one])
  }

  /** The row one retry of `failed` commits when the policy turns out not to exist. */
  function RetriedOnce(failed: FullRow): FullRow {
    EndRetry(MarkFailure(BeginRetry(failed), PolicyNotFound, false))
  }

  lemma RetriedOnceFacts(failed: FullRow)
    requires PolicyFailedShape(failed) && CanRetry(failed) && Replays(failed, false)
    ensures Replays(RetriedOnce(failed), false) && RetriedOnce(failed).retries == failed.retries + 1
    ensures failed.audit + [RetryStarted(failed.retries + 1)] <= RetriedOnce(failed).audit
    ensures Flush(failed, failed, RetriedOnce(failed)) == RetriedOnce(failed)
  {
    var restarted := BeginRetry(failed);
    BeginRetryShape(failed);
    BeginRetryReplays(failed);
    AfterPolicyShape(restarted, NotFound);
    AfterPolicyReplays(restarted, NotFound, true);
    EndRetryReplays(MarkFailure(restarted, PolicyNotFound, false));
    assert CountRetry(failed).audit <= restarted.audit;
    FlushAlone(failed, RetriedOnce(failed));
  }

  lemma StartsTwice(first: seq<Event>, added: seq<Event>, n: nat)
    requires Starts(first) == n && Starts(first + added) == n + 1
    ensures Starts(first + added + added) == n + 2
  {
    StartsAppend(first, added);
    StartsAppend(first + added, added);
  }

  /** Two retries that both think they are number `n + 1` make a trail nobody can read back. */
  lemma TwiceTheSameNumber(first: seq<Event>, added: seq<Event>, n: nat)
    requires Replay(first).Some? && Replay(first).value.retries == n
    requires Replay(first + added).Some? && Replay(first + added).value.retries == n + 1
    requires added != [] && added[0] == RetryStarted(n + 1)
    ensures Replay(first + added + added).None?
    ensures Starts(first + added + added) == n + 2
  {
    WrongNumber(first + added, added, n + 1);
    RetriesPair(first);
    RetriesPair(first + added);
    StartsTwice(first, added, n);
  }

  function GivenUp(failed: FullRow): Session {
    AfterPolicyAnswer(Retrying("ann", failed), NotFound)
  }

  lemma GivenUpFacts(failed: FullRow)
    requires PolicyFailedShape(failed) && CanRetry(failed) && Replays(failed, false)
    ensures var session := GivenUp(failed);
      Unsuccessful(session) && session.loaded == failed && Final(session) == RetriedOnce(failed)
  {
    BeginRetryShape(failed);
    AfterPolicyShape(BeginRetry(failed), NotFound);
  }

  /** Two operators retry the same failed workflow, neither seeing the other. */
  lemma BothRetry(start: seq<Label>, failed: FullRow) returns (ls: seq<Label>)
    requires Reaches(start, Outage(failed), false) && CanRetry(failed)
    ensures Reaches(ls, Two(failed, Retrying("ann", failed), Retrying("ann", failed)), false)
  {
    var retrying := Retrying("ann", failed);
    ls := Then(start, Outage(failed), Retry(1, 7, "ann"), One(failed, retrying), false);
    ls := Then(ls, One(failed, retrying), Retry(2, 7, "ann"), Two(failed, retrying, retrying), false);
  }

  /** A retry finds its policy gone ... */
  lemma FirstIsAnswered(start: seq<Label>, failed: FullRow) returns (ls: seq<Label>)
    requires Reaches(start, Two(failed, Retrying("ann", failed), Retrying("ann", failed)), false)
    ensures Reaches(ls, Two(failed, GivenUp(failed), Retrying("ann", failed)), false)
  {
    var retrying, given := Retrying("ann", failed), GivenUp(failed);
    ls := Then(start, Two(failed, retrying, retrying), PolicyAnswered(1, NotFound),
      Two(failed, given, retrying), false);
  }

  lemma SecondIsAnswered(start: seq<Label>, failed: FullRow, once: FullRow) returns (ls: seq<Label>)
    requires Reaches(start, Two(once, Over, Retrying("ann", failed)), false)
    ensures Reaches(ls, Two(once, Over, GivenUp(failed)), false)
  {
    var retrying, given := Retrying("ann", failed), GivenUp(failed);
    ls := Then(start, Two(once, Over, retrying), PolicyAnswered(2, NotFound), Two(once, Over, given), false);
  }

  /** A settled request on workflow 7 that did not complete it. */
  predicate Unsuccessful(session: Session) {
    session.Live? && session.phase.Settled? && session.workflow == 7 && session.work.state != Completed
  }

  lemma FirstSaves(start: seq<Label>, row: FullRow, one: Session, two: Session) returns (ls: seq<Label>)
    requires Reaches(start, Two(row, one, two), false) && Unsuccessful(one)
    ensures Reaches(ls, Two(Flush(row, one.loaded, Final(one)), Over, two), false)
  {
    ls := Then(start, Two(row, one, two), Save(1), Two(Flush(row, one.loaded, Final(one)), Over, two), false);
  }

  lemma SecondSaves(start: seq<Label>, row: FullRow, two: Session) returns (ls: seq<Label>)
    requires Reaches(start, Two(row, Over, two), false) && Unsuccessful(two)
    ensures Reaches(ls, Two(Flush(row, two.loaded, Final(two)), Over, Over), false)
  {
    ls := Then(start, Two(row, Over, two), Save(2), Two(Flush(row, two.loaded, Final(two)), Over, Over), false);
  }

  /** ... and saves. */
  lemma FirstGivesUp(start: seq<Label>, failed: FullRow) returns (ls: seq<Label>)
    requires Reaches(start, Two(failed, Retrying("ann", failed), Retrying("ann", failed)), false)
    requires PolicyFailedShape(failed) && CanRetry(failed) && Replays(failed, false)
    ensures Reaches(ls, Two(RetriedOnce(failed), Over, Retrying("ann", failed)), false)
  {
    GivenUpFacts(failed);
    RetriedOnceFacts(failed);
    ls := FirstIsAnswered(start, failed);
    ls := FirstSaves(ls, failed, GivenUp(failed), Retrying("ann", failed));
  }

  lemma SecondGivesUp(start: seq<Label>, failed: FullRow) returns (ls: seq<Label>)
    requires Reaches(start, Two(RetriedOnce(failed), Over, Retrying("ann", failed)), false)
    requires PolicyFailedShape(failed) && CanRetry(failed) && Replays(failed, false)
    ensures Reaches(ls, Two(Flush(RetriedOnce(failed), failed, RetriedOnce(failed)), Over, Over), false)
  {
    GivenUpFacts(failed);
    ls := SecondIsAnswered(start, failed, RetriedOnce(failed));
    ls := SecondSaves(ls, RetriedOnce(failed), GivenUp(failed));
  }

  lemma OverlapBreaksTheTrail(failed: FullRow)
    requires PolicyFailedShape(failed) && CanRetry(failed) && Replays(failed, false) && failed.retries == 0
    ensures var row := Flush(RetriedOnce(failed), failed, RetriedOnce(failed));
      row.retries == 1 && Starts(row.audit) == 2 && Replay(row.audit).None?
  {
    RetriedOnceFacts(failed);
    var first, once := failed.audit, RetriedOnce(failed).audit;
    var added := once[|first|..];
    assert once == first + added;
    assert added[0] == (first + [RetryStarted(1)])[|first|];
    TwiceTheSameNumber(first, added, 0);
  }

  /** Without serialised retries the trail no longer tells the row: two retries that load the same
      failed row both count themselves as the first. The counter says one, the trail two. */
  lemma OverlappingRetriesBreakTheTrail() returns (ls: seq<Label>)
    ensures Valid(ls) && 7 in Exec(ls).db
    ensures var row := Exec(ls).db[7].row;
      row.retries == 1 && Starts(row.audit) == 2 && Replay(row.audit).None?
    ensures Overtaken(ls, 7)
  {
    var failed;
    ls, failed := ReachFailure();
    ls := BothRetry(ls, failed);
    ls := FirstGivesUp(ls, failed);
    ls := SecondGivesUp(ls, failed);
    OverlapBreaksTheTrail(failed);
    AuditRebuildsExactlyWhen(ls, 7);
  }

  // ---------------------------------------------------------------- a crashed retry

  function AnnPost(): Message { Message(7, ("ann", "k"), SomeRequest()) }

  /** A verified retry sends its first POST and dies. */
  lemma SendAndCrash(start: seq<Label>, failed: FullRow, work: FullRow) returns (ls: seq<Label>)
    requires Reaches(start, One(failed, Live(7, "ann", true, failed, work, Posting(0))), true)
    ensures Reaches(ls, One(failed, Over).(posts := map[Post(1, 0) := AnnPost()]), true)
  {
    var posting := One(failed, Live(7, "ann", true, failed, work, Posting(0)));
    var waiting := One(failed, Live(7, "ann", true, failed, work, Waiting(0))).(posts := map[Post(1, 0) := AnnPost()]);
    var crashed := One(failed, Over).(posts := map[Post(1, 0) := AnnPost()]);
    ls := Then(start, posting, Send(1), waiting, true);
    ls := Then(ls, waiting, Saga.Crash(1), crashed, true);
  }

  lemma RetryStep(start: seq<Label>, failed: FullRow) returns (ls: seq<Label>)
    requires Reaches(start, Outage(failed), true) && CanRetry(failed)
    ensures Reaches(ls, One(failed, Retrying("ann", failed)), true)
  {
    ls := Then(start, Outage(failed), Retry(1, 7, "ann"), One(failed, Retrying("ann", failed)), true);
  }

  lemma VerifyStep(start: seq<Label>, failed: FullRow, work: FullRow) returns (ls: seq<Label>)
    requires Reaches(start, One(failed, Live(7, "ann", true, failed, work, Verifying)), true)
    ensures Reaches(ls, One(failed, Live(7, "ann", true, failed, VerifyPolicy(work), Posting(0))), true)
  {
    var retrying := Live(7, "ann", true, failed, work, Verifying);
    ls := Then(start, One(failed, retrying), PolicyAnswered(1, Active),
      One(failed, AfterPolicyAnswer(retrying, Active)), true);
  }

  /** A retry that crashes after posting leaves the workflow failed on its policy although a claim
      POST is on its way: `SentExactlyWhen` needs its clause about lost POSTs. */
  lemma CrashHidesAPost() returns (ls: seq<Label>)
    ensures Valid(ls) && Serial(ls, 7) && 7 in Exec(ls).db && Idle(Exec(ls), 7)
    ensures PolicyFailedShape(Exec(ls).db[7].row) && Sent(Exec(ls), 7) && Lost(ls, 7)
  {
    var failed;
    ls, failed := ReachFailure();
    ls := RetryStep(ls, failed);
    ls := VerifyStep(ls, failed, BeginRetry(failed));
    ls := SendAndCrash(ls, failed, VerifyPolicy(BeginRetry(failed)));
    assert Exec(ls).posts[Post(1, 0)].workflow == 7;
    SerialNeverOvertakes(ls, 7);
    PolicyFailureHidesExactlyLost(ls, 7);
  }

  // ---------------------------------------------------------------- one claim for two workflows

  /** A start that creates workflow `wf` under a new key. */
  lemma StartsWorkflow(start: seq<Label>, s: State, r: nat, subject: string, wf: nat)
    returns (ls: seq<Label>, s': State)
    requires Reaches(start, s, false) && NewRequest(s, r) && (subject, "k") !in s.orch.keys && wf !in s.orch.rows
    ensures Reaches(ls, s', false)
    ensures s'.sessions == s.sessions[r := Live(wf, subject, false, NewRow(), NewRow(), Verifying)]
    ensures s'.db == s.db[wf := Record((subject, "k"), SomeRequest(), NewRow(), None)]
    ensures s'.posts == s.posts && s'.claims == s.claims
    ensures s'.orch.calls.Keys == s.orch.calls.Keys + {r}
  {
    var passed := Asks(s, r, G.Committing((subject, "k"), SomeRequest()));
    ls := ReadyToCommit(start, s, r, subject, false);
    s' := Next(passed, Orchestrator(G.Commit(r, wf)));
    ls := Then(ls, passed, Orchestrator(G.Commit(r, wf)), s', false);
  }

  /** The policy is active and the first POST goes out. */
  lemma Posts(start: seq<Label>, s: State, r: nat) returns (ls: seq<Label>, s': State)
    requires Reaches(start, s, false) && IsLive(s, r) && s.sessions[r].phase.Verifying? &&
      s.sessions[r].workflow in s.db
    ensures Reaches(ls, s', false)
    ensures var session := s.sessions[r];
      && s'.sessions == s.sessions[r := session.(work := VerifyPolicy(session.work), phase := Waiting(0))]
      && s'.posts == s.posts[Post(r, 0) :=
           Message(session.workflow, (session.subject, s.db[session.workflow].owner.1), s.db[session.workflow].payload)]
    ensures s'.db == s.db && s'.claims == s.claims && s'.orch == s.orch
  {
    var verified := Next(s, PolicyAnswered(r, Active));
    ls := Then(start, s, PolicyAnswered(r, Active), verified, false);
    s' := Next(verified, Send(r));
    ls := Then(ls, verified, Send(r), s', false);
  }

  function Asking(s: State, p: CallId, c: G.Call<Key, Request, nat>): State {
    s.(claims := s.claims.(calls := s.claims.calls[p := c]))
  }

  /** The POST is delivered and its key looked up. */
  lemma LooksUp(start: seq<Label>, s: State, p: CallId) returns (ls: seq<Label>)
    requires Reaches(start, s, false) && p in s.posts && p.Post? && p !in s.claims.calls
    ensures var m := s.posts[p];
      Reaches(ls, Asking(s, p, if m.key in s.claims.keys
        then G.Done(m.key, m.payload, G.Answer(s.claims.keys[m.key], m.payload))
        else G.Guarding(m.key, m.payload)), false)
  {
    var m := s.posts[p];
    var asked := Asking(s, p, G.Looking(m.key, m.payload));
    ls := Then(start, s, ClaimsService(G.Begin(p, m.key, m.payload)), asked, false);
    ls := Then(ls, asked, ClaimsService(G.Lookup(p)), Next(asked, ClaimsService(G.Lookup(p))), false);
    assert Next(asked, ClaimsService(G.Lookup(p))) == Asking(s, p, G.Advance(asked.claims, G.Lookup(p)));
  }

  /** A new claim is created for it. */
  lemma Makes(start: seq<Label>, s: State, p: CallId, m: Message, candidate: nat) returns (ls: seq<Label>)
    requires Reaches(start, Asking(s, p, G.Guarding(m.key, m.payload)), false)
    requires m.key !in s.claims.keys && candidate !in s.claims.rows
    ensures Reaches(ls, s.(claims := G.Store(
      s.claims.keys[m.key := G.Entry(m.payload, candidate)],
      s.claims.rows[candidate := m.payload],
      s.claims.calls[p := G.Done(m.key, m.payload, G.Made(candidate))])), false)
  {
    var guarding := Asking(s, p, G.Guarding(m.key, m.payload));
    var committing := Asking(s, p, G.Committing(m.key, m.payload));
    ls := Then(start, guarding, ClaimsService(G.Guard(p, true)), committing, false);
    ls := Then(ls, committing, ClaimsService(G.Commit(p, candidate)),
               Next(committing, ClaimsService(G.Commit(p, candidate))), false);
  }

  /** The Claims Service answers the POST with a claim: a new one, or the one under its key. */
  lemma Delivered(start: seq<Label>, s: State, p: CallId, candidate: nat)
    returns (ls: seq<Label>, s': State)
    requires Reaches(start, s, false) && p in s.posts && p.Post? && p !in s.claims.calls && candidate !in s.claims.rows
    requires s.posts[p].key in s.claims.keys ==> s.claims.keys[s.posts[p].key].fp == s.posts[p].payload
    ensures Reaches(ls, s', false)
    ensures s' == s.(claims := s'.claims)
    ensures GotClaim(s', p) && s.posts[p].key in s'.claims.keys &&
      s'.claims.keys[s.posts[p].key].fp == s.posts[p].payload
    ensures s'.claims.calls.Keys == s.claims.calls.Keys + {p} && s'.claims.rows.Keys <= s.claims.rows.Keys + {candidate}
  {
    var m := s.posts[p];
    ls := LooksUp(start, s, p);
    if m.key in s.claims.keys {
      s' := Asking(s, p, G.Done(m.key, m.payload, G.Found(s.claims.keys[m.key].row)));
    } else {
      ls := Makes(ls, s, p, m, candidate);
      s' := s.(claims := G.Store(
        s.claims.keys[m.key := G.Entry(m.payload, candidate)],
        s.claims.rows[candidate := m.payload],
        s.claims.calls[p := G.Done(m.key, m.payload, G.Made(candidate))]));
    }
  }

  function Accepted(s: State, r: nat): Label
    requires GotClaim(s, Post(r, 0))
  {
    PostAnswered(r, Response(201, ClaimId(s.claims.calls[Post(r, 0)].reply.row)))
  }

  lemma AcceptedSession(session: Session, id: nat)
    requires session.Live? && session.phase == Waiting(0) && VerifiedShape(session.work)
    ensures AfterPostAnswer(session, Response(201, ClaimId(id)))
      == session.(work := SubmitClaim(session.work, id), phase := Settled)
    ensures CompletedShape(SubmitClaim(session.work, id))
  {
    AfterClaimsShape(session.work, HttpClients.Created(id));
  }

  /** The client sees that answer. */
  lemma Accepts(s: State, r: nat)
    requires IsLive(s, r) && s.sessions[r].phase == Waiting(0) && GotClaim(s, Post(r, 0)) && SessionOk(s, r)
    ensures Enabled(s, Accepted(s, r))
    ensures exists work: FullRow ::
      CompletedShape(work) &&
        Next(s, Accepted(s, r)) == SetSession(s, r, s.sessions[r].(work := work, phase := Settled))
  {
    var id := s.claims.calls[Post(r, 0)].reply.row;
    AcceptedSession(s.sessions[r], id);
    var work := SubmitClaim(s.sessions[r].work, id);
    assert Next(s, Accepted(s, r)) == SetSession(s, r, s.sessions[r].(work := work, phase := Settled));
  }

  /** A session that completed its copy saves it. */
  lemma SavesCompleted(s: State, r: nat)
    requires SessionOk(s, r) && Enabled(s, Save(r)) && CompletedShape(s.sessions[r].work)
    ensures Next(s, Save(r)).db[s.sessions[r].workflow].row.state == Completed
  {
    FinalFacts(s.sessions[r]);
  }

  predicate CompletedTo(s: State, s': State, wf: nat, subject: string)
    requires wf in s.db
  {
    && wf in s'.db
    && s'.db == s.db[wf := s'.db[wf]]
    && s'.db[wf].row.state == Completed && s'.db[wf].completedBy == Some(subject) && s'.db[wf].owner == s.db[wf].owner
  }

  lemma SaveStep(start: seq<Label>, s: State, r: nat) returns (ls: seq<Label>, s': State)
    requires Reaches(start, s, false) && Enabled(s, Save(r)) && CompletedShape(s.sessions[r].work)
    ensures Reaches(ls, s', false)
    ensures CompletedTo(s, s', s.sessions[r].workflow, s.sessions[r].subject)
    ensures s' == s.(sessions := s.sessions[r := Over], db := s'.db)
  {
    InvHolds(start);
    assert SessionOk(s, r);
    SavesCompleted(s, r);
    s' := Next(s, Save(r));
    ls := Then(start, s, Save(r), s', false);
  }

  lemma AcceptStep(start: seq<Label>, s: State, r: nat) returns (ls: seq<Label>, work: FullRow)
    requires Reaches(start, s, false) && IsLive(s, r) && s.sessions[r].phase == Waiting(0) && GotClaim(s, Post(r, 0))
    ensures CompletedShape(work)
    ensures Reaches(ls, SetSession(s, r, s.sessions[r].(work := work, phase := Settled)), false)
  {
    InvHolds(start);
    assert SessionOk(s, r);
    Accepts(s, r);
    work :| CompletedShape(work) &&
      Next(s, Accepted(s, r)) == SetSession(s, r, s.sessions[r].(work := work, phase := Settled));
    ls := Then(start, s, Accepted(s, r), Next(s, Accepted(s, r)), false);
  }

  /** The client sees that answer and the request completes its workflow. */
  lemma Completes(start: seq<Label>, s: State, r: nat) returns (ls: seq<Label>, s': State)
    requires Reaches(start, s, false) && IsLive(s, r) && s.sessions[r].phase == Waiting(0) && GotClaim(s, Post(r, 0))
    requires s.sessions[r].workflow in s.db
    ensures Reaches(ls, s', false)
    ensures CompletedTo(s, s', s.sessions[r].workflow, s.sessions[r].subject)
    ensures s' == s.(sessions := s.sessions[r := Over], db := s'.db)
  {
    var work;
    ls, work := AcceptStep(start, s, r);
    var t := SetSession(s, r, s.sessions[r].(work := work, phase := Settled));
    ls, s' := SaveStep(ls, t, r);
    assert t.sessions[r := Over] == s.sessions[r := Over];
  }

  /** Bob completes his own workflow 8 with the request and the key Ann used, and then retries
      Ann's workflow 7, which had failed: both end up with Bob's claim. */
  lemma ForeignRetrySharesAClaim() returns (ls: seq<Label>)
    ensures Valid(ls) && IsCompleted(Exec(ls), 7) && IsCompleted(Exec(ls), 8)
    ensures Exec(ls).db[7].owner.0 != Exec(ls).db[8].owner.0
    ensures Exec(ls).db[7].row.claimId == Exec(ls).db[8].row.claimId
  {
    var failed, s;
    ls, failed := ReachFailure();
    ls, s := OwnWorkflow(ls, failed);
    ls := ForeignRetry(ls, s, failed);
    SharedClaimExactlyWhen(ls, 7, 8);
  }

  lemma BobPosts(start: seq<Label>, before: State, failed: FullRow) returns (ls: seq<Label>, s: State)
    requires Reaches(start, before, false) && before.db == map[7 := Record(("ann", "k"), SomeRequest(), failed, None)]
    requires NewRequest(before, 3) && NewRequest(before, 4) && before.claims == G.Empty()
    requires ("bob", "k") !in before.orch.keys && 8 !in before.orch.rows
    ensures Reaches(ls, s, false) && NewRequest(s, 4)
    ensures s.db.Keys == {7, 8} && s.db[7] == Record(("ann", "k"), SomeRequest(), failed, None)
    ensures s.db[8].owner == ("bob", "k")
    ensures IsLive(s, 3) && s.sessions[3].phase == Waiting(0) && s.sessions[3].workflow == 8 &&
      s.sessions[3].subject == "bob"
    ensures Post(3, 0) in s.posts && s.posts[Post(3, 0)] == Message(8, ("bob", "k"), SomeRequest())
    ensures s.claims == G.Empty()
  {
    ls, s := StartsWorkflow(start, before, 3, "bob", 8);
    ls, s := Posts(ls, s, 3);
  }

  lemma OwnWorkflow(start: seq<Label>, failed: FullRow) returns (ls: seq<Label>, s: State)
    requires Reaches(start, Outage(failed), false)
    ensures Reaches(ls, s, false) && NewRequest(s, 4)
    ensures 7 in s.db && s.db[7] == Record(("ann", "k"), SomeRequest(), failed, None)
    ensures IsCompleted(s, 8) && s.db[8].owner == ("bob", "k") && s.db[8].completedBy == Some("bob")
    ensures ("bob", "k") in s.claims.keys && s.claims.keys[("bob", "k")].fp == SomeRequest()
    ensures Post(4, 0) !in s.claims.calls
    ensures s.claims.rows.Keys <= {5}
  {
    ls, s := BobPosts(start, Outage(failed), failed);
    ls, s := Delivered(ls, s, Post(3, 0), 5);
    ls, s := Completes(ls, s, 3);
  }

  lemma ForeignRetry(start: seq<Label>, s: State, failed: FullRow) returns (ls: seq<Label>)
    requires Reaches(start, s, false) && CanRetry(failed) && NewRequest(s, 4)
    requires 7 in s.db && s.db[7] == Record(("ann", "k"), SomeRequest(), failed, None)
    requires IsCompleted(s, 8) && s.db[8].owner == ("bob", "k") && s.db[8].completedBy == Some("bob")
    requires ("bob", "k") in s.claims.keys && s.claims.keys[("bob", "k")].fp == SomeRequest()
    requires Post(4, 0) !in s.claims.calls && 6 !in s.claims.rows
    ensures Valid(ls) && IsCompleted(Exec(ls), 7) && IsCompleted(Exec(ls), 8)
    ensures Exec(ls).db[7].completedBy == Exec(ls).db[8].completedBy == Some("bob")
    ensures Exec(ls).db[7].owner == ("ann", "k") && Exec(ls).db[8].owner == ("bob", "k")
  {
    var s';
    ls, s' := BobRetries(start, s, failed);
    ls, s' := Delivered(ls, s', Post(4, 0), 6);
    ls, s' := Completes(ls, s', 4);
  }

  lemma BobRetries(start: seq<Label>, s: State, failed: FullRow) returns (ls: seq<Label>, s': State)
    requires Reaches(start, s, false) && CanRetry(failed) && NewRequest(s, 4)
    requires 7 in s.db && s.db[7] == Record(("ann", "k"), SomeRequest(), failed, None)
    ensures Reaches(ls, s', false) && s'.db == s.db && s'.claims == s.claims
    ensures IsLive(s', 4) && s'.sessions[4].phase == Waiting(0)
    ensures s'.sessions[4].workflow == 7 && s'.sessions[4].subject == "bob"
    ensures Post(4, 0) in s'.posts && s'.posts[Post(4, 0)] == Message(7, ("bob", "k"), SomeRequest())
  {
    s' := SetSession(s, 4, Live(7, "bob", true, failed, BeginRetry(failed), Verifying));
    ls := Then(start, s, Retry(4, 7, "bob"), s', false);
    ls, s' := Posts(ls, s', 4);
  }

  // ---------------------------------------------------------------- rejections

  /** The first POST gets no answer and a second one goes out. */
  lemma TimesOut(start: seq<Label>, s: State, r: nat) returns (ls: seq<Label>, s': State)
    requires Reaches(start, s, false) && IsLive(s, r) && s.sessions[r].phase == Waiting(0) &&
      s.sessions[r].workflow in s.db
    ensures Reaches(ls, s', false)
    ensures s'.sessions == s.sessions[r := s.sessions[r].(phase := Waiting(1))]
    ensures s'.db == s.db && s'.claims == s.claims && s'.orch == s.orch
  {
    var again := SetSession(s, r, s.sessions[r].(phase := Posting(1)));
    ls := Then(start, s, PostAnswered(r, TransportFailure), again, false);
    s' := Next(again, Send(r));
    ls := Then(ls, again, Send(r), s', false);
    assert s'.sessions == s.sessions[r := s.sessions[r].(phase := Waiting(1))];
  }

  lemma RejectedCopy(session: Session)
    requires session.Live? && session.phase.Waiting? && VerifiedShape(session.work)
    ensures AfterPostAnswer(session, Response(409, NoId)).Live?
    ensures ClaimRejectedShape(AfterPostAnswer(session, Response(409, NoId)).work)
    ensures AfterPostAnswer(session, Response(409, NoId)).phase == Settled
  {
    AfterClaimsShape(session.work, Rejected(409));
  }

  /** A POST is answered with a rejection. */
  lemma Rejects(start: seq<Label>, s: State, r: nat) returns (ls: seq<Label>, after: Session)
    requires Reaches(start, s, false) && IsLive(s, r) && s.sessions[r].phase.Waiting?
    ensures after.Live? && after.phase == Settled && ClaimRejectedShape(after.work)
    ensures after.(phase := s.sessions[r].phase, work := s.sessions[r].work) == s.sessions[r]
    ensures Reaches(ls, SetSession(s, r, after), false)
  {
    InvHolds(start);
    assert SessionOk(s, r);
    RejectedCopy(s.sessions[r]);
    after := AfterPostAnswer(s.sessions[r], Response(409, NoId));
    ls := Then(start, s, PostAnswered(r, Response(409, NoId)), SetSession(s, r, after), false);
  }

  /** The request commits it on the row it loaded. */
  lemma SavesRejection(start: seq<Label>, s: State, r: nat) returns (ls: seq<Label>, s': State)
    requires Reaches(start, s, false) && IsLive(s, r) && s.sessions[r].phase == Settled
    requires ClaimRejectedShape(s.sessions[r].work)
    requires s.sessions[r].workflow in s.db && s.sessions[r].loaded == s.db[s.sessions[r].workflow].row
    ensures Reaches(ls, s', false)
    ensures var wf := s.sessions[r].workflow;
      && s' == s.(sessions := s.sessions[r := Over], db := s'.db)
      && wf in s'.db && s'.db == s.db[wf := s'.db[wf]] && ClaimRejectedShape(s'.db[wf].row)
      && s'.db[wf].owner == s.db[wf].owner
  {
    InvHolds(start);
    assert SessionOk(s, r);
    SavedAlone(s, r);
    FinalFacts(s.sessions[r]);
    s' := Next(s, Save(r));
    ls := Then(start, s, Save(r), s', false);
  }

  /** A rejection does not mean that there is no claim. The first POST made one, its answer was
      lost, and the second was refused. */
  lemma RejectedWorkflowHasAClaim() returns (ls: seq<Label>)
    ensures Valid(ls) && 7 in Exec(ls).db && ClaimRejectedShape(Exec(ls).db[7].row)
    ensures Exec(ls).db[7].owner in Exec(ls).claims.keys && Exec(ls).db[7].owner == ("ann", "k")
  {
    var s;
    ls, s := AnnPosts();
    ls, s := Delivered(ls, s, Post(0, 0), 5);
    ls, s := TimesOut(ls, s, 0);
    ls, s := IsRefused(ls, s);
  }

  /** Ann's start has posted and waits. */
  predicate AnnWaits(s: State, attempt: nat) {
    && s.db == map[7 := Record(("ann", "k"), SomeRequest(), NewRow(), None)]
    && IsLive(s, 0) && s.sessions[0].workflow == 7 && s.sessions[0].loaded == NewRow()
    && s.sessions[0].phase == Waiting(attempt)
  }

  lemma AnnPosts() returns (ls: seq<Label>, s: State)
    ensures Reaches(ls, s, false) && AnnWaits(s, 0) && s.claims == G.Empty()
    ensures Post(0, 0) in s.posts && s.posts[Post(0, 0)] == AnnPost()
  {
    ls := ReachStarted();
    ls, s := Posts(ls, Started(), 0);
  }

  lemma IsRefused(start: seq<Label>, s: State) returns (ls: seq<Label>, s': State)
    requires Reaches(start, s, false) && AnnWaits(s, 1)
    ensures Reaches(ls, s', false) && s'.claims == s.claims
    ensures 7 in s'.db && ClaimRejectedShape(s'.db[7].row) && s'.db[7].owner == ("ann", "k")
  {
    var after;
    ls, after := Rejects(start, s, 0);
    ls, s' := SavesRejection(ls, SetSession(s, 0, after), 0);
  }

  /** The first of two overlapping retries is rejected and commits. */
  lemma FirstIsRejected(start: seq<Label>, failed: FullRow) returns (ls: seq<Label>, s: State)
    requires Reaches(start, Two(failed, Retrying("ann", failed), Retrying("ann", failed)), false)
    ensures Reaches(ls, s, false)
    ensures 7 in s.db && ClaimRejectedShape(s.db[7].row)
    ensures 2 in s.sessions && s.sessions[2] == Retrying("ann", failed)
  {
    var after;
    ls, s := Posts(start, Two(failed, Retrying("ann", failed), Retrying("ann", failed)), 1);
    ls, after := Rejects(ls, s, 1);
    ls, s := SavesRejection(ls, SetSession(s, 1, after), 1);
  }

  /** The second finds its policy gone and commits that over the rejection. */
  lemma SecondHides(start: seq<Label>, s: State, failed: FullRow) returns (ls: seq<Label>)
    requires Reaches(start, s, false) && 7 in s.db && ClaimRejectedShape(s.db[7].row)
    requires 2 in s.sessions && s.sessions[2] == Retrying("ann", failed)
    requires PolicyFailedShape(failed) && CanRetry(failed) && Replays(failed, false)
    ensures Valid(ls) && Hidden(ls, 7) && 7 in Exec(ls).db && !SaysSent(Exec(ls).db[7].row)
  {
    GivenUpFacts(failed);
    HidingCopy(failed);
    var given := SetSession(s, 2, GivenUp(failed));
    ls := Then(start, s, PolicyAnswered(2, NotFound), given, false);
    ls := HidingStep(ls, given);
  }

  lemma HidingStep(start: seq<Label>, s: State) returns (ls: seq<Label>)
    requires Reaches(start, s, false) && Enabled(s, Save(2)) && Hides(s, Save(2), 7)
    ensures Valid(ls) && Hidden(ls, 7) && 7 in Exec(ls).db && !SaysSent(Exec(ls).db[7].row)
  {
    InvHolds(start);
    OutagesHold(start);
    assert SessionOk(s, 2);
    HidesIsNoReport(s, 2, 7);
    SaysStep(s, Save(2), 7);
    ls := Then(start, s, Save(2), Next(s, Save(2)), false);
    assert Init(ls) == start && Last(ls) == Save(2);
  }

  lemma HidingCopy(failed: FullRow)
    requires PolicyFailedShape(failed)
    ensures GivenUp(failed).Live? && GivenUp(failed).work.failure == Some(PolicyNotFound)
  {
    BeginRetryShape(failed);
    AfterPolicyShape(BeginRetry(failed), NotFound);
  }

  /** No request dies, a POST was sent and rejected, and the row says that the policy was not
      found: `SentExactlyWhen` needs its clause about hidden rejections, too. */
  lemma OverlapHidesARejection() returns (ls: seq<Label>)
    ensures Valid(ls) && Hidden(ls, 7)
    ensures 7 in Exec(ls).db && !SaysSent(Exec(ls).db[7].row) && Sent(Exec(ls), 7)
  {
    var failed, s;
    ls, failed := ReachFailure();
    ls := BothRetry(ls, failed);
    ls, s := FirstIsRejected(ls, failed);
    ls := SecondHides(ls, s, failed);
    SaysExactlyWhen(ls, 7);
    PostsHold(ls, 7);
  }
}
