/** `workflow_service.py` as the objects it works on: a workflow whose fields and steps are
    updated in place and whose session collects audit events. Every method is proved to take the
    object from one row value to the one `WorkflowRows` says. */
module WorkflowService {
  import opened Common
  import opened HttpClients
  import opened WorkflowRows

  class WorkflowStep {
    const name: StepName
    var state: StepState
    var error: Option<Category>

    constructor (name: StepName)
      ensures this.name == name && Value() == Step(name, StepPending, None)
    {
      this.name := name;
      state, error := StepPending, None;
    }

    function Value(): Step
      reads this
    {
      Step(name, state, error)
    }
  }

  /** The workflow object of one request, with the events added to its session. */
  class Workflow {
    var state: WorkflowState
    var claimId: Option<nat>
    var failure: Option<Category>
    var retries: nat
    const policyStep: WorkflowStep
    const claimStep: WorkflowStep
    var audit: seq<Event>

    ghost predicate Valid()
    {
      policyStep != claimStep && policyStep.name == PolicyVerification && claimStep.name == ClaimSubmission
    }

    /** `workflow.steps`, in the order the steps were inserted. */
    function StepAt(i: nat): WorkflowStep
      requires i < 2
    {
      if i == 0 then policyStep else claimStep
    }

    /** The row as it would be flushed now. */
    function Snapshot(): (w: Row)
      reads this, policyStep, claimStep
      ensures Valid() ==> InOrder(w)
    {
      Row(state, claimId, failure, retries, [policyStep.Value(), claimStep.Value()], audit)
    }

    /** A new workflow, as `start_claim_workflow` builds and commits it. */
    constructor ()
      ensures Valid() && fresh(policyStep) && fresh(claimStep)
      ensures Snapshot() == NewRow()
      ensures state == Pending && claimId == None && failure == None && retries == 0 && audit == [WorkflowCreated]
      ensures policyStep.state == claimStep.state == StepPending && policyStep.error == claimStep.error == None
    {
      state, claimId, failure, retries := Pending, None, None, 0;
      policyStep := new WorkflowStep(PolicyVerification);
      claimStep := new WorkflowStep(ClaimSubmission);
      audit := [];
      new;
      Audit(WorkflowCreated);
    }

    method Audit(e: Event)
      modifies this`audit
      ensures Snapshot() == Log(old(Snapshot()), e)
    {
      audit := audit + [e];
    }

    method ChangeState(target: WorkflowState, reason: Option<Category>)
      modifies this`state, this`audit
      ensures Snapshot() == SetState(old(Snapshot()), target, reason)
      ensures state == target
      ensures audit == old(audit) + if old(state) == target then [] else [StateChanged(old(state), target, reason)]
    {
      if state == target {
        return;
      }
      var source := state;
      state := target;
      Audit(StateChanged(source, target, reason));
    }

    method ChangeStep(i: nat, target: StepState, error: Option<Category>)
      requires Valid() && i < 2
      modifies this`audit, StepAt(i)
      ensures Snapshot() == SetStep(old(Snapshot()), i, target, error)
      ensures StepAt(i).Value() == Step(StepAt(i).name, target, error)
      ensures audit == old(audit) + if old(StepAt(i).state) == target && old(StepAt(i).error) == error then []
        else [StepChanged(StepAt(i).name, old(StepAt(i).state), target, error)]
    {
      var step := StepAt(i);
      if step.state == target && step.error == error {
        return;
      }
      var source := step.state;
      step.state := target;
      step.error := error;
      Audit(StepChanged(step.name, source, target, error));
    }

    method RecordFailure(category: Category, reconciliation: bool)
      requires Valid()
      modifies this, policyStep, claimStep
      ensures Snapshot() == MarkFailure(old(Snapshot()), category, reconciliation)
      ensures failure == Some(category) && state == (if reconciliation then ReconciliationNeeded else Failed)
      ensures claimId == old(claimId) && retries == old(retries)
      ensures reconciliation ==> audit != [] && Last(audit) == ReconciliationAlert(category)
    {
      failure := Some(category);
      ChangeState(if reconciliation then ReconciliationNeeded else Failed, Some(category));
      ghost var moved := Snapshot();
      var i := 0;
      while i < 2
        invariant i <= 2
        invariant Snapshot() == FailSteps(moved, i, category)
      {
        if StepAt(i).state == StepPending || StepAt(i).state == Running {
          ChangeStep(i, if i == 0 then StepFailed else Skipped, Some(category));
        }
        i := i + 1;
      }
      if reconciliation {
        Audit(ReconciliationAlert(category));
      }
    }

    /** The part of `_execute_workflow` after the claim was posted. */
    method TakeClaimsVerdict(cv: ClaimsVerdict) returns (ok: bool)
      requires Valid()
      modifies this, policyStep, claimStep
      ensures ok <==> AfterClaims(old(Snapshot()), cv).Some?
      ensures ok ==> Snapshot() == AfterClaims(old(Snapshot()), cv).value
    {
      match cv {
        case ClaimsUncaught => return false;
        case CreatedOddId => return false;
        case ReconciliationRequired => RecordFailure(ClaimsServiceReconciliationRequired, true);
        case Rejected(_) => RecordFailure(ClaimsServiceRejected, false);
        case ClaimsUnavailable => RecordFailure(ClaimsServiceUnavailable, false);
        case Created(id) =>
          claimId := Some(id);
          ChangeStep(1, Succeeded, None);
          ChangeState(ClaimSubmitted, None);
          ChangeState(Completed, None);
      }
      return true;
    }

    /** The body of `_execute_workflow` with the two clients' verdicts given; false means an
        exception nobody catches escaped, and the session is thrown away. */
    method ExecuteWorkflow(pv: PolicyVerdict, cv: ClaimsVerdict) returns (ok: bool)
      requires Valid()
      modifies this, policyStep, claimStep
      ensures ok <==> Execute(old(Snapshot()), pv, cv).Some?
      ensures ok ==> Snapshot() == Execute(old(Snapshot()), pv, cv).value
    {
      match pv {
        case PolicyUncaught => return false;
        case NotFound => RecordFailure(PolicyNotFound, false); return true;
        case NotActive => RecordFailure(PolicyNotActive, false); return true;
        case PolicyUnavailable => RecordFailure(PolicyServiceUnavailable, false); return true;
        case Active =>
      }
      ChangeStep(0, Succeeded, None);
      ChangeState(PolicyVerified, None);
      ChangeStep(1, Running, None);
      ok := TakeClaimsVerdict(cv);
    }

    /** Counting the retry and putting the workflow back to its initial state. */
    method Restart()
      requires Valid()
      modifies this, policyStep, claimStep
      ensures Snapshot() == BeginRetry(old(Snapshot()))
      ensures state == Pending && failure == None && claimId == old(claimId) && retries == old(retries) + 1
      ensures policyStep.Value() == Step(PolicyVerification, StepPending, None)
      ensures claimStep.Value() == Step(ClaimSubmission, StepPending, None)
    {
      retries := retries + 1;
      Audit(RetryStarted(retries));
      assert Snapshot() == CountRetry(old(Snapshot()));
      ChangeState(Pending, None);
      failure := None;
      ghost var reopened := Snapshot();
      assert reopened == Reopen(CountRetry(old(Snapshot())));
      var i := 0;
      while i < 2
        invariant i <= 2
        invariant Snapshot() == ResetSteps(reopened, i)
      {
        ChangeStep(i, StepPending, None);
        i := i + 1;
      }
    }

    method Close()
      modifies this`audit
      ensures Snapshot() == EndRetry(old(Snapshot()))
      ensures audit == old(audit) +
        [if state == Completed then RetrySucceeded(retries) else RetryFinished(retries, state)]
    {
      if state == Completed {
        Audit(RetrySucceeded(retries));
      } else {
        Audit(RetryFinished(retries, state));
      }
    }

    /** The checks a retry makes first; `Ran` lets it run. */
    method CheckRetry() returns (outcome: RetryOutcome)
      ensures outcome == if state == Completed then AlreadyCompleted else if CanRetry(Snapshot()) then Ran
        else NotRetryable
      ensures outcome == AlreadyCompleted <==> state == Completed
      ensures outcome == Ran <==>
        state == Failed && retries < 3 && failure in {Some(ClaimsServiceUnavailable), Some(PolicyServiceUnavailable)}
    {
      if state == Completed {
        return AlreadyCompleted;
      }
      if state != Failed {
        return NotRetryable;
      }
      if failure != Some(ClaimsServiceUnavailable) && failure != Some(PolicyServiceUnavailable) {
        return NotRetryable;
      }
      if retries >= MAX_RETRY_COUNT {
        return NotRetryable;
      }
      return Ran;
    }

    /** A retry that passed them. */
    method Rerun(pv: PolicyVerdict, cv: ClaimsVerdict) returns (ok: bool)
      requires Valid()
      modifies this, policyStep, claimStep
      ensures ok <==> Execute(BeginRetry(old(Snapshot())), pv, cv).Some?
      ensures ok ==> Snapshot() == EndRetry(Execute(BeginRetry(old(Snapshot())), pv, cv).value)
    {
      Restart();
      ok := ExecuteWorkflow(pv, cv);
      if ok {
        Close();
      }
    }

    /** `retry_claim_workflow` on the workflow it loaded. A refused retry changes nothing. */
    method Retry(pv: PolicyVerdict, cv: ClaimsVerdict) returns (outcome: RetryOutcome)
      requires Valid()
      modifies this, policyStep, claimStep
      ensures outcome == RetryResult(old(Snapshot()), pv, cv)
      ensures outcome.AlreadyCompleted? || outcome.NotRetryable? ==> Snapshot() == old(Snapshot())
      ensures outcome.Ran? ==> Snapshot() == EndRetry(Execute(BeginRetry(old(Snapshot())), pv, cv).value)
    {
      outcome := CheckRetry();
      if !outcome.Ran? {
        return;
      }
      var ok := Rerun(pv, cv);
      return if ok then Ran else Escaped;
    }
  }

  datatype RetryOutcome = AlreadyCompleted | NotRetryable | Escaped | Ran

  /** Which of the four ways a retry ends. */
  function RetryResult(w: Row, pv: PolicyVerdict, cv: ClaimsVerdict): RetryOutcome
    requires |w.steps| == 2
  {
    if w.state == Completed then AlreadyCompleted
    else if !CanRetry(w) then NotRetryable
    else if Execute(BeginRetry(w), pv, cv).None? then Escaped
    else Ran
  }

  /** A retry is let through exactly for a failed workflow with retries left whose failure was an
      outage; then it runs, unless an exception escapes. */
  lemma RetryEndsExactlyWhen(w: Row, pv: PolicyVerdict, cv: ClaimsVerdict)
    requires |w.steps| == 2
    ensures var outcome := RetryResult(w, pv, cv);
      && (outcome == AlreadyCompleted <==> w.state == Completed)
      && (outcome == Ran || outcome == Escaped <==>
            && w.state == Failed && w.retries < 3
            && w.failure in {Some(ClaimsServiceUnavailable), Some(PolicyServiceUnavailable)})
      && (outcome == Escaped ==> pv == PolicyUncaught || (pv == Active && cv in {ClaimsUncaught, CreatedOddId}))
      && (outcome == Ran ==> pv != PolicyUncaught && !(pv == Active && cv in {ClaimsUncaught, CreatedOddId}))
  {
  }
}
