/** The claim saga as one transition system: any number of orchestrator requests (starts and
    retries), a network that loses, delays and forges failures, the Claims Service with any number
    of calls in flight, and direct users of the Claims Service. Steps of different participants
    interleave freely.

    A request works on its own copy of a workflow row and writes it back in one commit; a crash
    before that commit loses the copy. Committing writes only the columns the request changed. */
module Saga {
  import opened Common
  import opened HttpClients
  import opened WorkflowRows
  import Keys
  import G = GetOrCreate

  /** The subject of the caller's token and the stripped Idempotency-Key. */
  type Key = (string, string)

  /** The fields of a claim request. Both services compare requests by a hash of all of them,
      taken to be injective, so equality of requests stands for equality of fingerprints. */
  datatype Request = Request(
    policyId: nat,
    policyholderId: nat,
    claimAmount: string,
    incidentDate: int,
    description: string,
    adjusterNotes: Option<string>)

  /** A call of the Claims Service: the `attempt`-th POST of an orchestrator request, or a claim
      created by somebody else through the same endpoint. */
  datatype CallId = Post(request: nat, attempt: nat) | Direct(number: nat)

  /** A claim POST on the wire. It may be delivered now, later or never. */
  datatype Message = Message(workflow: nat, key: Key, payload: Request)

  type FullRow = w: Row | |w.steps| == 2 witness NewRow()

  /** A committed workflow. `completedBy` has no column: it remembers whose token the request carried that
      completed the workflow. */
  datatype Record = Record(owner: Key, payload: Request, row: FullRow, completedBy: Option<string>)

  datatype Phase = Verifying | Posting(attempt: nat) | Waiting(attempt: nat) | Settled

  /** A request past its first commit: the row as it loaded it, its working copy, and where it is.
      `Over` is a request that ended, by finishing or by crashing. */
  datatype Session =
    | Live(workflow: nat, subject: string, isRetry: bool, loaded: FullRow, work: FullRow, phase: Phase)
    | Over

  datatype State = State(
    orch: G.Store<nat, Key, Request, nat>,
    db: map<nat, Record>,
    sessions: map<nat, Session>,
    posts: map<CallId, Message>,
    claims: G.Store<CallId, Key, Request, nat>)

  datatype Label =
    | Start(request: nat, subject: string, header: string, payload: Request)
    | Orchestrator(orchStep: G.Label<nat, Key, Request, nat>)
    | PolicyAnswered(request: nat, policy: PolicyVerdict)
    | Send(request: nat)
    | ClaimsService(claimStep: G.Label<CallId, Key, Request, nat>)
    | PostAnswered(request: nat, outcome: Outcome<ClaimBody>)
    | Save(request: nat)
    | Retry(request: nat, workflow: nat, subject: string)
    | Crash(request: nat)

  function Initial(): State { State(G.Empty(), map[], map[], map[], G.Empty()) }

  // ---------------------------------------------------------------- steps

  predicate IsLive(s: State, r: nat) { r in s.sessions && s.sessions[r].Live? }

  predicate NewRequest(s: State, r: nat) { r !in s.sessions && r !in s.orch.calls }

  /** What the client may see of its POST. Anything can happen on the way, but a claim id in a
      successful response comes from the Claims Service's answer to that very POST. */
  predicate Believable(s: State, post: CallId, o: Outcome<ClaimBody>) {
    o.Response? && Success(o.code) && o.body.ClaimId? ==>
      && post in s.claims.calls
      && s.claims.calls[post].Done?
      && var reply := s.claims.calls[post].reply;
      (reply.Made? || reply.Found?) && reply.row == o.body.id
  }

  /** What the client makes of the outcome of one attempt; None is "try again". */
  function Decide(o: Outcome<ClaimBody>, attempt: nat): Option<ClaimsVerdict> {
    if !Ambiguous(o) then Some(ClaimsAnswer(o))
    else if attempt < MAX_RETRIES then None
    else Some(ReconciliationRequired)
  }

  /** Deciding attempt by attempt is what `HttpClients.CreateClaim` is proved to do in one go. */
  lemma DecideIsTheClientLoop(net: nat -> Outcome<ClaimBody>, n: nat)
    ensures FirstDecisive(net, n) ==>
      && (forall i: nat :: i < n && i < MAX_RETRIES ==> Decide(net(i), i) == None)
      && (n <= MAX_RETRIES ==> Decide(net(n), n) == Some(ClaimsAnswer(net(n))))
      && (n > MAX_RETRIES ==> Decide(net(MAX_RETRIES), MAX_RETRIES) == Some(ReconciliationRequired))
  {
  }

  predicate Enabled(s: State, l: Label) {
    match l
    case Start(r, _, _, _) => NewRequest(s, r)
    case Orchestrator(step) => !step.Begin? && G.Enabled(s.orch, step) && (step.Guard? ==> step.pass)
    case PolicyAnswered(r, _) => IsLive(s, r) && s.sessions[r].phase.Verifying?
    case Send(r) => IsLive(s, r) && s.sessions[r].phase.Posting? && s.sessions[r].workflow in s.db
    case ClaimsService(step) =>
      && G.Enabled(s.claims, step)
      && (step.Begin? && step.call.Post? ==>
            step.call in s.posts && step.key == s.posts[step.call].key && step.fp == s.posts[step.call].payload)
    case PostAnswered(r, o) =>
      && IsLive(s, r) && s.sessions[r].phase.Waiting?
      && Believable(s, Post(r, s.sessions[r].phase.attempt), o)
    case Save(r) => IsLive(s, r) && s.sessions[r].phase.Settled? && s.sessions[r].workflow in s.db
    case Retry(r, wf, _) => NewRequest(s, r) && wf in s.db
    case Crash(r) => IsLive(s, r)
  }

  /** A request goes on with a new copy, or ends because an exception escaped. */
  function Continue(session: Session, copy: Option<FullRow>, phase: Phase): Session
    requires session.Live?
  {
    if copy.None? then Over else session.(work := copy.value, phase := phase)
  }

  function AfterPolicyAnswer(session: Session, v: PolicyVerdict): Session
    requires session.Live?
  {
    Continue(session, AfterPolicy(session.work, v), if v.Active? then Posting(0) else Settled)
  }

  function AfterPostAnswer(session: Session, o: Outcome<ClaimBody>): Session
    requires session.Live? && session.phase.Waiting?
  {
    match Decide(o, session.phase.attempt)
    case None => session.(phase := Posting(session.phase.attempt + 1))
    case Some(v) => Continue(session, AfterClaims(session.work, v), Settled)
  }

  function FlushStep(current: Step, loaded: Step, final: Step): Step {
    Step(current.name, Written(current.state, loaded.state, final.state),
      Written(current.error, loaded.error, final.error))
  }

  /** The row after a commit: changed columns and new events, on top of what is there now. */
  function Flush(current: FullRow, loaded: FullRow, final: FullRow): FullRow {
    Row(Written(current.state, loaded.state, final.state),
        Written(current.claimId, loaded.claimId, final.claimId),
        Written(current.failure, loaded.failure, final.failure),
        Written(current.retries, loaded.retries, final.retries),
        [FlushStep(current.steps[0], loaded.steps[0], final.steps[0]),
         FlushStep(current.steps[1], loaded.steps[1], final.steps[1])],
        current.audit + (if loaded.audit <= final.audit then final.audit[|loaded.audit|..] else []))
  }

  /** The copy a request commits. */
  function Final(session: Session): FullRow
    requires session.Live?
  {
    if session.isRetry then EndRetry(session.work) else session.work
  }

  function Saved(record: Record, session: Session): Record
    requires session.Live?
  {
    record.(row := Flush(record.row, session.loaded, Final(session)),
            completedBy := if session.work.state == Completed then Some(session.subject) else record.completedBy)
  }

  /** The commit that creates a workflow also starts its execution; every other step of a start
      changes nothing but the call itself. */
  function OrchestratorStep(s: State, step: G.Label<nat, Key, Request, nat>): State
    requires G.Enabled(s.orch, step)
  {
    var s' := s.(orch := G.Next(s.orch, step));
    if G.Inserts(s.orch, step) then
      var call := s.orch.calls[step.call];
      s'.(db := s.db[step.newRow := Record(call.key, call.fp, NewRow(), None)],
          sessions := s.sessions[step.call := Live(step.newRow, call.key.0, false, NewRow(), NewRow(), Verifying)])
    else s'
  }

  function SetSession(s: State, r: nat, session: Session): State {
    s.(sessions := s.sessions[r := session])
  }

  function Next(s: State, l: Label): State
    requires Enabled(s, l)
  {
    match l
    case Start(r, subject, header, payload) =>
      // A blank key is refused before anything is read or written.
      if Keys.Strip(header) == "" then s
      else s.(orch := G.Next(s.orch, G.Begin(r, (subject, Keys.Strip(header)), payload)))
    case Orchestrator(step) => OrchestratorStep(s, step)
    case PolicyAnswered(r, v) => SetSession(s, r, AfterPolicyAnswer(s.sessions[r], v))
    case Send(r) =>
      var session := s.sessions[r];
      var record := s.db[session.workflow];
      var message := Message(session.workflow, (session.subject, record.owner.1), record.payload);
      SetSession(s, r, session.(phase := Waiting(session.phase.attempt)))
        .(posts := s.posts[Post(r, session.phase.attempt) := message])
    case ClaimsService(step) => s.(claims := G.Next(s.claims, step))
    case PostAnswered(r, o) => SetSession(s, r, AfterPostAnswer(s.sessions[r], o))
    case Save(r) =>
      var session := s.sessions[r];
      SetSession(s, r, Over).(db := s.db[session.workflow := Saved(s.db[session.workflow], session)])
    case Retry(r, wf, subject) =>
      // A refused retry changes nothing.
      var row := s.db[wf].row;
      if CanRetry(row) then SetSession(s, r, Live(wf, subject, true, row, BeginRetry(row), Verifying)) else s
    case Crash(r) => SetSession(s, r, Over)
  }

  predicate Valid(ls: seq<Label>)
    decreases |ls|, 0
  {
    ls == [] || (Valid(Init(ls)) && Enabled(Exec(Init(ls)), Last(ls)))
  }

  function Exec(ls: seq<Label>): State
    requires Valid(ls)
    decreases |ls|, 1
  {
    if ls == [] then Initial() else Next(Exec(Init(ls)), Last(ls))
  }
}
