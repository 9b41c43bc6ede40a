/** A workflow row, its two steps and its audit trail as values, and the transitions of
    `workflow_service.py` as functions on them. The class in `WorkflowService` is proved to
    perform exactly these transitions; the protocol in `Saga` runs them concurrently.

    Timestamps are not modelled. Audit events are read back in the order they were added. */
module WorkflowRows {
  import opened Common
  import opened HttpClients

  datatype WorkflowState = Pending | PolicyVerified | ClaimSubmitted | Completed | Failed | ReconciliationNeeded

  datatype StepState = StepPending | Running | Succeeded | StepFailed | Skipped

  datatype StepName = PolicyVerification | ClaimSubmission

  /** The exception class names stored as failure and error categories. */
  datatype Category =
    | PolicyNotFound
    | PolicyNotActive
    | PolicyServiceUnavailable
    | ClaimsServiceRejected
    | ClaimsServiceUnavailable
    | ClaimsServiceReconciliationRequired

  datatype Step = Step(name: StepName, state: StepState, error: Option<Category>)

  datatype Event =
    | WorkflowCreated
    | StateChanged(source: WorkflowState, target: WorkflowState, reason: Option<Category>)
    | StepChanged(step: StepName, oldStep: StepState, targetStep: StepState, error: Option<Category>)
    | ReconciliationAlert(reasonGiven: Category)
    | RetryStarted(count: nat)
    | RetrySucceeded(count: nat)
    | RetryFinished(count: nat, outcome: WorkflowState)

  datatype Row = Row(
    state: WorkflowState,
    claimId: Option<nat>,
    failure: Option<Category>,
    retries: nat,
    steps: seq<Step>,
    audit: seq<Event>)

  const MAX_RETRY_COUNT: nat := 3

  // ---------------------------------------------------------------- transitions

  /** The row `start_claim_workflow` commits before it calls any other service. */
  function NewRow(): Row {
    Row(Pending, None, None, 0,
        [Step(PolicyVerification, StepPending, None), Step(ClaimSubmission, StepPending, None)],
        [WorkflowCreated])
  }

  function Log(w: Row, e: Event): Row { w.(audit := w.audit + [e]) }

  function SetState(w: Row, target: WorkflowState, reason: Option<Category>): Row {
    if w.state == target then w
    else Log(w.(state := target), StateChanged(w.state, target, reason))
  }

  function SetStep(w: Row, i: nat, target: StepState, error: Option<Category>): Row
    requires i < |w.steps|
  {
    var step := w.steps[i];
    if step.state == target && step.error == error then w
    else Log(w.(steps := w.steps[i := Step(step.name, target, error)]),
             StepChanged(step.name, step.state, target, error))
  }

  /** The loops over the steps touch nothing else, keep each step's name, and only add events. */
  predicate OnlyStepsChanged(w: Row, r: Row) {
    && r.(steps := w.steps, audit := w.audit) == w
    && |r.steps| == |w.steps|
    && (forall i :: 0 <= i < |w.steps| ==> r.steps[i].name == w.steps[i].name)
    && w.audit <= r.audit
  }

  /** The first step fails and every later one is skipped, unless it already has an outcome. */
  function FailStep(w: Row, i: nat, category: Category): Row
    requires i < |w.steps|
  {
    if w.steps[i].state in {StepPending, Running}
    then SetStep(w, i, if i == 0 then StepFailed else Skipped, Some(category))
    else w
  }

  function FailSteps(w: Row, upTo: nat, category: Category): (r: Row)
    requires upTo <= |w.steps|
    ensures OnlyStepsChanged(w, r)
  {
    if upTo == 0 then w else FailStep(FailSteps(w, upTo - 1, category), upTo - 1, category)
  }

  function MarkFailure(w: Row, category: Category, reconciliation: bool): Row {
    var target := if reconciliation then ReconciliationNeeded else Failed;
    var failed := FailSteps(SetState(w.(failure := Some(category)), target, Some(category)), |w.steps|, category);
    if reconciliation then Log(failed, ReconciliationAlert(category)) else failed
  }

  /** After the policy lookup said "active" and before the claim is posted. */
  function VerifyPolicy(w: Row): Row
    requires |w.steps| == 2
  {
    SetStep(SetState(SetStep(w, 0, Succeeded, None), PolicyVerified, None), 1, Running, None)
  }

  /** After the Claims Service returned a claim. */
  function SubmitClaim(w: Row, id: nat): Row
    requires |w.steps| == 2
  {
    SetState(SetState(SetStep(w.(claimId := Some(id)), 1, Succeeded, None), ClaimSubmitted, None), Completed, None)
  }

  function PolicyFailure(v: PolicyVerdict): Category
    requires v.NotFound? || v.NotActive? || v.PolicyUnavailable?
  {
    match v
    case NotFound => PolicyNotFound
    case NotActive => PolicyNotActive
    case PolicyUnavailable => PolicyServiceUnavailable
  }

  /** The row once the policy verdict is in, or None when an exception escapes. */
  function AfterPolicy(w: Row, v: PolicyVerdict): Option<Row>
    requires |w.steps| == 2
  {
    if v.Active? then Some(VerifyPolicy(w))
    else if v.PolicyUncaught? then None
    else Some(MarkFailure(w, PolicyFailure(v), false))
  }

  /** The row once the claims verdict is in, or None when an exception escapes. */
  function AfterClaims(w: Row, v: ClaimsVerdict): Option<Row>
    requires |w.steps| == 2
  {
    match v
    case Created(id) => Some(SubmitClaim(w, id))
    case ReconciliationRequired => Some(MarkFailure(w, ClaimsServiceReconciliationRequired, true))
    case Rejected(_) => Some(MarkFailure(w, ClaimsServiceRejected, false))
    case ClaimsUnavailable => Some(MarkFailure(w, ClaimsServiceUnavailable, false))
    case CreatedOddId => None
    case ClaimsUncaught => None
  }

  /** `_execute_workflow` as a whole; `cv` matters only when the policy is active. */
  function Execute(w: Row, pv: PolicyVerdict, cv: ClaimsVerdict): Option<Row>
    requires |w.steps| == 2
  {
    var verified := AfterPolicy(w, pv);
    if pv.Active? then AfterClaims(verified.value, cv) else verified
  }

  /** The checks a retry passes before it changes anything. */
  predicate CanRetry(w: Row) {
    && w.state == Failed
    && (w.failure == Some(ClaimsServiceUnavailable) || w.failure == Some(PolicyServiceUnavailable))
    && w.retries < MAX_RETRY_COUNT
  }

  function ResetSteps(w: Row, upTo: nat): (r: Row)
    requires upTo <= |w.steps|
    ensures OnlyStepsChanged(w, r)
  {
    if upTo == 0 then w else SetStep(ResetSteps(w, upTo - 1), upTo - 1, StepPending, None)
  }

  function CountRetry(w: Row): Row {
    Log(w.(retries := w.retries + 1), RetryStarted(w.retries + 1))
  }

  /** Back to pending, and the failure forgotten. */
  function Reopen(w: Row): Row {
    SetState(w, Pending, None).(failure := None)
  }

  function BeginRetry(w: Row): Row {
    ResetSteps(Reopen(CountRetry(w)), |w.steps|)
  }

  function EndRetry(w: Row): Row {
    if w.state == Completed then Log(w, RetrySucceeded(w.retries))
    else Log(w, RetryFinished(w.retries, w.state))
  }

  // ---------------------------------------------------------------- reading the trail back

  datatype StepView = StepView(state: StepState, error: Option<Category>)

  /** What a reader of the audit trail knows; `open` is a retry that has started and not ended. */
  datatype View = View(
    state: WorkflowState,
    failure: Option<Category>,
    policy: StepView,
    claim: StepView,
    retries: nat,
    open: bool)

  function Fresh(): View { View(Pending, None, StepView(StepPending, None), StepView(StepPending, None), 0, false) }

  /** One event applied to what is known so far; None if the event does not fit: a wrong "from"
      state, an alert without its state, a retry numbered wrongly, nested or without an outcome. */
  function Apply(v: View, e: Event): Option<View> {
    match e
    case WorkflowCreated => None
    case StateChanged(source, target, reason) =>
      if v.state == source && source != target then Some(v.(state := target, failure := reason)) else None
    case StepChanged(PolicyVerification, source, target, error) =>
      if v.policy.state == source then Some(v.(policy := StepView(target, error))) else None
    case StepChanged(ClaimSubmission, source, target, error) =>
      if v.claim.state == source then Some(v.(claim := StepView(target, error))) else None
    case ReconciliationAlert(reason) =>
      if v.state == ReconciliationNeeded && v.failure == Some(reason) then Some(v) else None
    case RetryStarted(n) =>
      if !v.open && n == v.retries + 1 then Some(v.(retries := n, open := true)) else None
    case RetrySucceeded(n) =>
      if v.open && n == v.retries && v.state == Completed then Some(v.(open := false)) else None
    case RetryFinished(n, st) =>
      if v.open && n == v.retries && v.state == st && st != Completed then Some(v.(open := false)) else None
  }

  /** Folding a whole trail; it must begin with the creation of the workflow. */
  function Replay(trail: seq<Event>): Option<View> {
    if trail == [] then None
    else if |trail| == 1 then (if trail[0] == WorkflowCreated then Some(Fresh()) else None)
    else match Replay(Init(trail))
      case None => None
      case Some(v) => Apply(v, Last(trail))
  }

  lemma ReplayAppend(trail: seq<Event>, e: Event)
    requires Replay(trail).Some?
    ensures Replay(trail + [e]) == Apply(Replay(trail).value, e)
  {
    assert Init(trail + [e]) == trail;
  }

  function Starts(trail: seq<Event>): nat {
    if trail == [] then 0 else Starts(Init(trail)) + (if Last(trail).RetryStarted? then 1 else 0)
  }

  function Outcomes(trail: seq<Event>): nat {
    if trail == [] then 0
    else Outcomes(Init(trail)) + (if Last(trail).RetrySucceeded? || Last(trail).RetryFinished? then 1 else 0)
  }

  /** In a trail that replays, the retry count is the number of retries started, and each of them
      but one still running has its one outcome event. */
  lemma {:induction false} RetriesPair(trail: seq<Event>)
    requires Replay(trail).Some?
    ensures var v := Replay(trail).value;
      Starts(trail) == v.retries && Outcomes(trail) == v.retries - (if v.open then 1 else 0)
  {
    if |trail| == 1 {
      assert Init(trail) == [];
    } else {
      RetriesPair(Init(trail));
    }
  }

  lemma {:induction false} StartsAppend(a: seq<Event>, b: seq<Event>)
    ensures Starts(a + b) == Starts(a) + Starts(b)
  {
    if b == [] {
      assert a + b == a;
    } else {
      assert Init(a + b) == a + Init(b);
      StartsAppend(a, Init(b));
    }
  }

  /** A trail with an event that does not fit stays unreadable. */
  lemma {:induction false} BrokenStaysBroken(trail: seq<Event>, n: nat)
    requires 0 < n <= |trail| && Replay(trail[..n]).None?
    ensures Replay(trail).None?
  {
    if n == |trail| {
      assert trail[..n] == trail;
    } else {
      assert Init(trail)[..n] == trail[..n];
      BrokenStaysBroken(Init(trail), n);
    }
  }

  /** Both steps are there, in either order. */
  predicate TwoSteps(w: Row) {
    |w.steps| == 2 && w.steps[0].name != w.steps[1].name
  }

  function Named(w: Row, name: StepName): StepView
    requires TwoSteps(w)
  {
    var step := if w.steps[0].name == name then w.steps[0] else w.steps[1];
    StepView(step.state, step.error)
  }

  function ViewOf(w: Row, open: bool): View
    requires TwoSteps(w)
  {
    View(w.state, w.failure, Named(w, PolicyVerification), Named(w, ClaimSubmission), w.retries, open)
  }

  /** The trail alone rebuilds the row: state, failure category, both steps with their error
      categories, and the retry count. */
  predicate Replays(w: Row, open: bool) {
    TwoSteps(w) && Replay(w.audit) == Some(ViewOf(w, open))
  }

  lemma SetStateReplays(w: Row, before: Option<Category>, target: WorkflowState, reason: Option<Category>, open: bool)
    requires Replays(w.(failure := before), open) && w.state != target && w.failure == reason
    ensures Replays(SetState(w, target, reason), open)
  {
    ReplayAppend(w.audit, StateChanged(w.state, target, reason));
  }

  lemma SetStepReplays(w: Row, i: nat, target: StepState, error: Option<Category>, open: bool)
    requires Replays(w, open) && i < 2
    ensures Replays(SetStep(w, i, target, error), open)
  {
    ReplayAppend(w.audit, StepChanged(w.steps[i].name, w.steps[i].state, target, error));
  }

  lemma {:induction false} FailStepsReplays(w: Row, upTo: nat, category: Category, open: bool)
    requires Replays(w, open) && upTo <= 2
    ensures Replays(FailSteps(w, upTo, category), open)
    ensures FailSteps(w, upTo, category).state == w.state && FailSteps(w, upTo, category).failure == w.failure
  {
    if upTo > 0 {
      FailStepsReplays(w, upTo - 1, category, open);
      var v := FailSteps(w, upTo - 1, category);
      SetStepReplays(v, upTo - 1, if upTo == 1 then StepFailed else Skipped, Some(category), open);
    }
  }

  lemma {:induction false} ResetStepsReplays(w: Row, upTo: nat, open: bool)
    requires Replays(w, open) && upTo <= 2
    ensures Replays(ResetSteps(w, upTo), open)
  {
    if upTo > 0 {
      ResetStepsReplays(w, upTo - 1, open);
      SetStepReplays(ResetSteps(w, upTo - 1), upTo - 1, StepPending, None, open);
    }
  }

  lemma MarkFailureReplays(w: Row, category: Category, reconciliation: bool, open: bool)
    requires Replays(w, open)
    requires w.state != ReconciliationNeeded && w.state != Failed
    ensures Replays(MarkFailure(w, category, reconciliation), open)
  {
    var target := if reconciliation then ReconciliationNeeded else Failed;
    var noted := w.(failure := Some(category));
    assert noted.(failure := w.failure) == w;
    SetStateReplays(noted, w.failure, target, Some(category), open);
    var moved := SetState(noted, target, Some(category));
    FailStepsReplays(moved, 2, category, open);
    if reconciliation {
      ReplayAppend(FailSteps(moved, 2, category).audit, ReconciliationAlert(category));
    }
  }

  lemma AfterPolicyReplays(w: Row, v: PolicyVerdict, open: bool)
    requires Replays(w, open) && w.state == Pending && w.failure == None
    ensures AfterPolicy(w, v).Some? ==> Replays(AfterPolicy(w, v).value, open)
  {
    if v.Active? {
      SetStepReplays(w, 0, Succeeded, None, open);
      var first := SetStep(w, 0, Succeeded, None);
      assert first.(failure := None) == first;
      SetStateReplays(first, None, PolicyVerified, None, open);
      SetStepReplays(SetState(first, PolicyVerified, None), 1, Running, None, open);
    } else if !v.PolicyUncaught? {
      MarkFailureReplays(w, PolicyFailure(v), false, open);
    }
  }

  lemma AfterClaimsReplays(w: Row, v: ClaimsVerdict, open: bool)
    requires Replays(w, open) && w.state == PolicyVerified && w.failure == None
    ensures AfterClaims(w, v).Some? ==> Replays(AfterClaims(w, v).value, open)
  {
    match v
    case Created(id) =>
      var linked := w.(claimId := Some(id));
      SetStepReplays(linked, 1, Succeeded, None, open);
      var done := SetStep(linked, 1, Succeeded, None);
      assert done.(failure := None) == done;
      SetStateReplays(done, None, ClaimSubmitted, None, open);
      var submitted := SetState(done, ClaimSubmitted, None);
      assert submitted.(failure := None) == submitted;
      SetStateReplays(submitted, None, Completed, None, open);
    case ReconciliationRequired => MarkFailureReplays(w, ClaimsServiceReconciliationRequired, true, open);
    case Rejected(_) => MarkFailureReplays(w, ClaimsServiceRejected, false, open);
    case ClaimsUnavailable => MarkFailureReplays(w, ClaimsServiceUnavailable, false, open);
    case CreatedOddId =>
    case ClaimsUncaught =>
  }

  lemma CountRetryReplays(w: Row)
    requires Replays(w, false)
    ensures Replays(CountRetry(w), true)
  {
    ReplayAppend(w.audit, RetryStarted(w.retries + 1));
  }

  lemma ReopenReplays(w: Row)
    requires Replays(w, true) && w.state == Failed
    ensures Replays(Reopen(w), true)
  {
    ReplayAppend(w.audit, StateChanged(w.state, Pending, None));
  }

  lemma BeginRetryReplays(w: Row)
    requires Replays(w, false) && w.state == Failed
    ensures Replays(BeginRetry(w), true)
  {
    CountRetryReplays(w);
    ReopenReplays(CountRetry(w));
    ResetStepsReplays(Reopen(CountRetry(w)), 2, true);
  }

  lemma EndRetryReplays(w: Row)
    requires Replays(w, true)
    ensures Replays(EndRetry(w), false)
  {
    ReplayAppend(w.audit, if w.state == Completed then RetrySucceeded(w.retries)
      else RetryFinished(w.retries, w.state));
  }

  // ---------------------------------------------------------------- shapes

  /** Insertion order, which both steps share one creation time to fall back on. */
  predicate InOrder(w: Row) {
    |w.steps| == 2 && w.steps[0].name == PolicyVerification && w.steps[1].name == ClaimSubmission
  }

  predicate StepsAre(w: Row, first: StepView, second: StepView) {
    InOrder(w) && Named(w, PolicyVerification) == first && Named(w, ClaimSubmission) == second
  }

  predicate PendingShape(w: Row) {
    && w.state == Pending && w.claimId.None? && w.failure.None?
    && StepsAre(w, StepView(StepPending, None), StepView(StepPending, None))
  }

  predicate VerifiedShape(w: Row) {
    && w.state == PolicyVerified && w.claimId.None? && w.failure.None?
    && StepsAre(w, StepView(Succeeded, None), StepView(Running, None))
  }

  predicate CompletedShape(w: Row) {
    && w.state == Completed && w.claimId.Some? && w.failure.None?
    && StepsAre(w, StepView(Succeeded, None), StepView(Succeeded, None))
  }

  predicate PolicyCategory(c: Category) {
    c in {PolicyNotFound, PolicyNotActive, PolicyServiceUnavailable}
  }

  predicate PolicyFailedShape(w: Row) {
    && w.state == Failed && w.claimId.None? && w.failure.Some? && PolicyCategory(w.failure.value)
    && StepsAre(w, StepView(StepFailed, w.failure), StepView(Skipped, w.failure))
  }

  /** A rejected claim leaves its step skipped, not failed. */
  predicate ClaimRejectedShape(w: Row) {
    && w.state == Failed && w.claimId.None? && w.failure == Some(ClaimsServiceRejected)
    && StepsAre(w, StepView(Succeeded, None), StepView(Skipped, w.failure))
  }

  predicate ReconciliationShape(w: Row) {
    && w.state == ReconciliationNeeded && w.claimId.None? && w.failure == Some(ClaimsServiceReconciliationRequired)
    && StepsAre(w, StepView(Succeeded, None), StepView(Skipped, w.failure))
  }

  /** The outcomes a workflow can be left in. */
  predicate SettledShape(w: Row) {
    CompletedShape(w) || PolicyFailedShape(w) || ClaimRejectedShape(w) || ReconciliationShape(w)
  }

  /** Verdicts the claims client can return (`CreateClaim` never returns the other one). */
  predicate Reachable(v: ClaimsVerdict) { !v.ClaimsUnavailable? }

  lemma TwoFailSteps(w: Row, category: Category)
    requires |w.steps| == 2
    ensures FailSteps(w, 2, category) == FailStep(FailStep(w, 0, category), 1, category)
  {
    assert FailSteps(w, 1, category) == FailStep(FailSteps(w, 0, category), 0, category);
  }

  lemma TwoResets(w: Row)
    requires |w.steps| == 2
    ensures ResetSteps(w, 2) == SetStep(SetStep(w, 0, StepPending, None), 1, StepPending, None)
  {
    assert ResetSteps(w, 1) == SetStep(ResetSteps(w, 0), 0, StepPending, None);
  }

  lemma MarkFailureSteps(w: Row, category: Category, reconciliation: bool)
    requires |w.steps| == 2
    ensures var r := MarkFailure(w, category, reconciliation);
      && r.state == (if reconciliation then ReconciliationNeeded else Failed)
      && r.failure == Some(category) && r.claimId == w.claimId && r.retries == w.retries
      && r.steps == FailStep(FailStep(w, 0, category), 1, category).steps
      && w.audit <= r.audit
  {
    var target := if reconciliation then ReconciliationNeeded else Failed;
    var moved := SetState(w.(failure := Some(category)), target, Some(category));
    TwoFailSteps(moved, category);
    assert w.audit <= moved.audit;
    assert FailStep(moved, 0, category).steps == FailStep(w, 0, category).steps;
  }

  lemma AfterPolicyShape(w: Row, v: PolicyVerdict)
    requires PendingShape(w)
    ensures AfterPolicy(w, v).Some? ==>
      var r := AfterPolicy(w, v).value;
      (if v.Active? then VerifiedShape(r) else PolicyFailedShape(r) && r.failure == Some(PolicyFailure(v)))
      && r.retries == w.retries && w.audit <= r.audit
  {
    if !v.Active? && !v.PolicyUncaught? {
      MarkFailureSteps(w, PolicyFailure(v), false);
    }
  }

  lemma AfterClaimsShape(w: Row, v: ClaimsVerdict)
    requires VerifiedShape(w) && Reachable(v)
    ensures AfterClaims(w, v).Some? ==>
      var r := AfterClaims(w, v).value;
      && (v.Created? ==> CompletedShape(r) && r.claimId == Some(v.id))
      && (v.Rejected? ==> ClaimRejectedShape(r))
      && (v.ReconciliationRequired? ==> ReconciliationShape(r))
      && SettledShape(r)
      && r.retries == w.retries && w.audit <= r.audit
  {
    if v.ReconciliationRequired? {
      MarkFailureSteps(w, ClaimsServiceReconciliationRequired, true);
    } else if v.Rejected? {
      MarkFailureSteps(w, ClaimsServiceRejected, false);
    }
  }

  /** What a run makes of a pending workflow, verdict by verdict. */
  lemma OutcomeOfVerdicts(w: Row, pv: PolicyVerdict, cv: ClaimsVerdict)
    requires PendingShape(w)
    ensures Execute(w, pv, cv).None? <==> pv == PolicyUncaught || (pv == Active && cv in {ClaimsUncaught, CreatedOddId})
    ensures Execute(w, pv, cv).Some? ==>
      var r := Execute(w, pv, cv).value;
      && (pv == NotFound ==> r.state == Failed && r.failure == Some(PolicyNotFound))
      && (pv == NotActive ==> r.state == Failed && r.failure == Some(PolicyNotActive))
      && (pv == PolicyUnavailable ==> r.state == Failed && r.failure == Some(PolicyServiceUnavailable))
      && (pv == Active ==>
            match cv
            case Created(id) => r.state == Completed && r.failure == None && r.claimId == Some(id)
            case ReconciliationRequired =>
              r.state == ReconciliationNeeded && r.failure == Some(ClaimsServiceReconciliationRequired)
            case Rejected(_) => r.state == Failed && r.failure == Some(ClaimsServiceRejected)
            case _ => r.state == Failed && r.failure == Some(ClaimsServiceUnavailable))
      && (r.claimId.Some? <==> pv == Active && cv.Created?)
      && r.retries == w.retries
  {
    AfterPolicyShape(w, pv);
    if pv == Active && cv == ClaimsUnavailable {
      MarkFailureSteps(VerifyPolicy(w), ClaimsServiceUnavailable, false);
    } else if pv == Active {
      AfterClaimsShape(VerifyPolicy(w), cv);
    }
  }

  /** A run leaves a workflow that can be retried if and only if the policy lookup was unavailable:
      not for a missing or inactive policy, and not for anything the claims client can say. */
  lemma RetryableExactlyAfterOutage(w: Row, pv: PolicyVerdict, cv: ClaimsVerdict)
    requires PendingShape(w) && w.retries < 3 && Reachable(cv) && Execute(w, pv, cv).Some?
    ensures CanRetry(Execute(w, pv, cv).value) <==> pv == PolicyUnavailable
  {
    OutcomeOfVerdicts(w, pv, cv);
  }

  lemma BeginRetryShape(w: Row)
    requires InOrder(w) && w.claimId.None?
    ensures PendingShape(BeginRetry(w))
    ensures BeginRetry(w).retries == w.retries + 1 && w.audit <= BeginRetry(w).audit
  {
    TwoResets(Reopen(CountRetry(w)));
  }

  // ---------------------------------------------------------------- the order of the steps

  lemma BegunRetrySteps(w: Row)
    requires |w.steps| == 2
    ensures var b := BeginRetry(w);
      b.state == Pending && b.failure == None
      && b.steps == [Step(w.steps[0].name, StepPending, None), Step(w.steps[1].name, StepPending, None)]
  {
    TwoResets(Reopen(CountRetry(w)));
  }

  lemma VerifiedSteps(w: Row)
    requires |w.steps| == 2 && w.state == Pending && w.failure == None
    ensures var v := VerifyPolicy(w);
      v.state == PolicyVerified && v.failure == None
      && v.steps == [Step(w.steps[0].name, Succeeded, None), Step(w.steps[1].name, Running, None)]
  {
  }

  /** What a retry whose claim is rejected makes of the steps, in the order it loaded them. */
  lemma RejectedRetrySteps(w: Row, code: int)
    requires |w.steps| == 2
    ensures Execute(BeginRetry(w), Active, Rejected(code)).Some?
    ensures Execute(BeginRetry(w), Active, Rejected(code)).value.steps ==
            [Step(w.steps[0].name, Succeeded, None), Step(w.steps[1].name, Skipped, Some(ClaimsServiceRejected))]
  {
    BegunRetrySteps(w);
    VerifiedSteps(BeginRetry(w));
    MarkFailureSteps(VerifyPolicy(BeginRetry(w)), ClaimsServiceRejected, false);
  }

  lemma RetryReplays(w: Row, pv: PolicyVerdict, cv: ClaimsVerdict)
    requires Replays(w, false) && w.state == Failed && Execute(BeginRetry(w), pv, cv).Some?
    ensures Replays(EndRetry(Execute(BeginRetry(w), pv, cv).value), false)
  {
    BeginRetryReplays(w);
    BegunRetrySteps(w);
    AfterPolicyReplays(BeginRetry(w), pv, true);
    if pv.Active? {
      VerifiedSteps(BeginRetry(w));
      AfterClaimsReplays(VerifyPolicy(BeginRetry(w)), cv, true);
    }
    EndRetryReplays(Execute(BeginRetry(w), pv, cv).value);
  }

  /** The order in which a retry loads the steps matters: both carry the same creation time, so the
      database may hand them back swapped. When the claim is then rejected, the claim step is the
      skipped one if and only if the steps came in the order they were inserted; otherwise the
      row says that the claim succeeded and the policy was skipped. The trail replays either
      way, because events name their step. */
  lemma RejectedStepExactlyWhen(w: Row, code: int)
    requires TwoSteps(w) && Replays(w, false) && CanRetry(w)
    ensures Execute(BeginRetry(w), Active, Rejected(code)).Some?
    ensures var r := EndRetry(Execute(BeginRetry(w), Active, Rejected(code)).value);
      && TwoSteps(r) && Replays(r, false)
      && (Named(r, ClaimSubmission) == StepView(Skipped, Some(ClaimsServiceRejected)) <==> InOrder(w))
      && (Named(r, ClaimSubmission) == StepView(Succeeded, None) <==> !InOrder(w))
  {
    RejectedRetrySteps(w, code);
    RetryReplays(w, Active, Rejected(code));
  }

  /** The row a policy outage leaves, re-loaded with its steps swapped, is such a row. */
  lemma SwappedStepsCanBeRetried()
    ensures var failed := MarkFailure(NewRow(), PolicyServiceUnavailable, false);
      && InOrder(failed)
      && var w := failed.(steps := [failed.steps[1], failed.steps[0]]);
      TwoSteps(w) && !InOrder(w) && Replays(w, false) && CanRetry(w)
  {
    AfterPolicyShape(NewRow(), PolicyUnavailable);
    AfterPolicyReplays(NewRow(), PolicyUnavailable, false);
  }
}
