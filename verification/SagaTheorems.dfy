/** The promises of the saga under every interleaving, read off the invariant. */
module SagaTheorems {
  import opened Common
  import opened WorkflowRows
  import opened Saga
  import opened SagaSafety
  import Keys
  import C = GetOrCreateCalls
  import G = GetOrCreate

  predicate IsCompleted(s: State, wf: nat) {
    wf in s.db && s.db[wf].row.state == Completed
  }

  // ---------------------------------------------------------------- exactly once

  /** A completed workflow names an existing claim, created from exactly its request, and the only
      claim stored for the submitter and the workflow's key. */
  lemma CompletedMeansClaimed(ls: seq<Label>, wf: nat)
    requires Valid(ls) && IsCompleted(Exec(ls), wf)
    ensures var s := Exec(ls);
      var record := s.db[wf];
      && record.row.claimId.Some? && record.completedBy.Some?
      && record.row.claimId.value in s.claims.rows
      && s.claims.rows[record.row.claimId.value] == record.payload
      && forall k :: k in s.claims.keys ==>
           (s.claims.keys[k].row == record.row.claimId.value <==> k == (record.completedBy.value, record.owner.1))
  {
    InvHolds(ls);
    var s := Exec(ls);
    assert RecordOk(s, wf);
    var mine := (s.db[wf].completedBy.value, s.db[wf].owner.1);
    assert mine in s.claims.keys;
  }

  /** Two completed workflows share a claim exactly when they were submitted under one token
      subject with one key. They can: a retry submits under the retrier's token. */
  lemma SharedClaimExactlyWhen(ls: seq<Label>, a: nat, b: nat)
    requires Valid(ls) && IsCompleted(Exec(ls), a) && IsCompleted(Exec(ls), b)
    ensures var x, y := Exec(ls).db[a], Exec(ls).db[b];
      x.row.claimId == y.row.claimId <==> x.completedBy == y.completedBy && x.owner.1 == y.owner.1
  {
    CompletedMeansClaimed(ls, a);
    CompletedMeansClaimed(ls, b);
    InvHolds(ls);
    assert RecordOk(Exec(ls), a) && RecordOk(Exec(ls), b);
  }

  /** A POST that reached the Claims Service and was answered with a claim. */
  predicate GotClaim(s: State, p: CallId) {
    && p in s.posts && p in s.claims.calls && s.claims.calls[p].Done?
    && (s.claims.calls[p].reply.Made? || s.claims.calls[p].reply.Found?)
  }

  /** However many POSTs of a workflow get through, from first runs, client retries, operator
      retries and crashed requests alike, two of them get the same claim exactly when they
      carried tokens of one subject. */
  lemma OneClaimPerSubject(ls: seq<Label>, p: CallId, q: CallId)
    requires Valid(ls) && GotClaim(Exec(ls), p) && GotClaim(Exec(ls), q)
    requires Exec(ls).posts[p].workflow == Exec(ls).posts[q].workflow
    ensures var s := Exec(ls);
      s.claims.calls[p].reply.row == s.claims.calls[q].reply.row <==> s.posts[p].key.0 == s.posts[q].key.0
  {
    InvHolds(ls);
    var s := Exec(ls);
    assert PostOk(s, p) && PostOk(s, q) && DeliveryOk(s, p) && DeliveryOk(s, q);
  }

  /** Every retry carries a token of the workflow's owner. */
  predicate OwnRetries(ls: seq<Label>)
    requires Valid(ls)
  {
    ls == [] || (OwnRetries(Init(ls)) &&
                 (Last(ls).Retry? ==> Last(ls).subject == Exec(Init(ls)).db[Last(ls).workflow].owner.0))
  }

  ghost predicate OwnSessions(s: State) {
    forall r :: IsLive(s, r) && s.sessions[r].workflow in s.db ==>
      s.sessions[r].subject == s.db[s.sessions[r].workflow].owner.0
  }

  ghost predicate OwnRecords(s: State) {
    forall wf :: IsCompleted(s, wf) ==> s.db[wf].completedBy == Some(s.db[wf].owner.0)
  }

  lemma OwnSessionsKept(s: State, l: Label)
    requires StoresOk(s) && SessionsOk(s) && Enabled(s, l) && OwnSessions(s)
    requires l.Retry? ==> l.subject == s.db[l.workflow].owner.0
    ensures OwnSessions(Next(s, l))
  {
    var s' := Next(s, l);
    StepExtends(s, l);
    forall r | IsLive(s', r) && s'.sessions[r].workflow in s'.db
      ensures s'.sessions[r].subject == s'.db[s'.sessions[r].workflow].owner.0
    {
      if !Opens(s, l, r) {
        SessionOrigin(s, l, r);
        assert SessionOk(s, r);
      }
    }
  }

  lemma OwnRecordKept(s: State, l: Label, wf: nat)
    requires StoresOk(s) && SessionsOk(s) && Enabled(s, l) && OwnSessions(s) && OwnRecords(s) && wf in s.db
    requires IsCompleted(Next(s, l), wf)
    ensures Next(s, l).db[wf].completedBy == Some(Next(s, l).db[wf].owner.0)
  {
    if Saves(s, l, wf) {
      SavedSubmitter(s, l.request);
    } else {
      RecordFrame(s, l, wf);
    }
    assert s.db[wf].row.state == Completed ==> IsCompleted(s, wf);
  }

  lemma OwnRecordsKept(s: State, l: Label)
    requires StoresOk(s) && SessionsOk(s) && Enabled(s, l) && OwnSessions(s) && OwnRecords(s)
    ensures OwnRecords(Next(s, l))
  {
    forall wf | IsCompleted(Next(s, l), wf)
      ensures Next(s, l).db[wf].completedBy == Some(Next(s, l).db[wf].owner.0)
    {
      if wf in s.db {
        OwnRecordKept(s, l, wf);
      } else {
        NewRecordIsNew(s, l, wf);
      }
    }
  }

  lemma SavedSubmitter(s: State, r: nat)
    requires SessionOk(s, r) && Enabled(s, Save(r))
    ensures var wf := s.sessions[r].workflow;
      var before, after := s.db[wf], Next(s, Save(r)).db[wf];
      && after.owner == before.owner
      && (after.row.state == Completed ==>
            || (before.row.state == Completed && after.completedBy == before.completedBy)
            || after.completedBy == Some(s.sessions[r].subject))
  {
    assert SessionOk(s, r);
    FinalFacts(s.sessions[r]);
  }

  lemma {:induction false} OwnSubmissionsHold(ls: seq<Label>)
    requires Valid(ls) && OwnRetries(ls)
    ensures OwnSessions(Exec(ls)) && OwnRecords(Exec(ls))
  {
    if ls != [] {
      OwnSubmissionsHold(Init(ls));
      InvHolds(Init(ls));
      OwnSessionsKept(Exec(Init(ls)), Last(ls));
      OwnRecordsKept(Exec(Init(ls)), Last(ls));
    }
  }

  /** As long as owners retry their own workflows, no two completed workflows share a claim. */
  lemma OwnRetriesNeverShare(ls: seq<Label>, a: nat, b: nat)
    requires Valid(ls) && OwnRetries(ls) && IsCompleted(Exec(ls), a) && IsCompleted(Exec(ls), b) && a != b
    ensures Exec(ls).db[a].row.claimId != Exec(ls).db[b].row.claimId
  {
    SharedClaimExactlyWhen(ls, a, b);
    OwnSubmissionsHold(ls);
    InvHolds(ls);
    assert RecordOk(Exec(ls), a) && RecordOk(Exec(ls), b);
  }

  // ---------------------------------------------------------------- the two stores inside the saga

  /** The Claims Service's own steps of a run. */
  function ClaimsRun(ls: seq<Label>): seq<G.Label<CallId, Key, Request, nat>> {
    if ls == [] then []
    else if Last(ls).ClaimsService? then ClaimsRun(Init(ls)) + [Last(ls).claimStep]
    else ClaimsRun(Init(ls))
  }

  /** The get-or-create step of the orchestrator's starts that a step is, if any. */
  function StartSteps(l: Label): seq<G.Label<nat, Key, Request, nat>> {
    match l
    case Start(r, subject, header, payload) =>
      if Keys.Strip(header) == "" then [] else [G.Begin(r, (subject, Keys.Strip(header)), payload)]
    case Orchestrator(step) => [step]
    case _ => []
  }

  function StartRun(ls: seq<Label>): seq<G.Label<nat, Key, Request, nat>> {
    if ls == [] then [] else StartRun(Init(ls)) + StartSteps(Last(ls))
  }

  lemma StartStep(s: State, l: Label)
    requires Enabled(s, l)
    ensures StartSteps(l) == [] ==> Next(s, l).orch == s.orch
    ensures StartSteps(l) != [] ==>
      StartSteps(l) == [StartSteps(l)[0]] && G.Enabled(s.orch, StartSteps(l)[0]) &&
        Next(s, l).orch == G.Next(s.orch, StartSteps(l)[0])
  {
  }

  lemma ClaimsStep(s: State, l: Label)
    requires Enabled(s, l)
    ensures if l.ClaimsService?
            then G.Enabled(s.claims, l.claimStep) && Next(s, l).claims == G.Next(s.claims, l.claimStep)
            else Next(s, l).claims == s.claims
  {
  }

  lemma {:induction false} ClaimsRunIsARun(ls: seq<Label>)
    requires Valid(ls)
    ensures G.Valid(ClaimsRun(ls)) && G.Exec(ClaimsRun(ls)) == Exec(ls).claims
  {
    if ls != [] {
      ClaimsRunIsARun(Init(ls));
      ClaimsStep(Exec(Init(ls)), Last(ls));
      if Last(ls).ClaimsService? {
        G.RunOneMore(ClaimsRun(Init(ls)), Last(ls).claimStep);
      }
    }
  }

  lemma {:induction false} StartRunIsARun(ls: seq<Label>)
    requires Valid(ls)
    ensures G.Valid(StartRun(ls)) && G.Exec(StartRun(ls)) == Exec(ls).orch
  {
    if ls != [] {
      StartRunIsARun(Init(ls));
      StartStep(Exec(Init(ls)), Last(ls));
      if StartSteps(Last(ls)) == [] {
        assert StartRun(ls) == StartRun(Init(ls));
      } else {
        G.RunOneMore(StartRun(Init(ls)), StartSteps(Last(ls))[0]);
      }
    }
  }

  /** Whatever the orchestrator, the network and other users do, the Claims Service is an atomic
      get-or-create map from (subject, key) to claims, and no claim exists without an "active"
      policy answer received during the very call that created it. */
  lemma ClaimsServiceIsAtomic(ls: seq<Label>)
    requires Valid(ls)
    ensures var run := ClaimsRun(ls);
      && G.Valid(run)
      && G.Sequential(G.Ops(run)).0 == Exec(ls).claims.keys
      && G.OncePerCall(G.Ops(run))
      && G.HistoryMatches(G.Ops(run), Exec(ls).claims)
      && G.Bijection(Exec(ls).claims)
  {
    ClaimsRunIsARun(ls);
    G.RefinesAtomicMap(ClaimsRun(ls));
    G.InvHolds(ClaimsRun(ls));
  }

  /** The orchestrator's starts, whatever becomes of the workflows they create, are an atomic
      get-or-create map from (subject, stripped key) to workflows. */
  lemma StartsAreAtomic(ls: seq<Label>)
    requires Valid(ls)
    ensures var run := StartRun(ls);
      && G.Valid(run)
      && G.Sequential(G.Ops(run)).0 == Exec(ls).orch.keys
      && G.OncePerCall(G.Ops(run))
      && G.HistoryMatches(G.Ops(run), Exec(ls).orch)
      && G.Bijection(Exec(ls).orch)
  {
    StartRunIsARun(ls);
    G.RefinesAtomicMap(StartRun(ls));
    G.InvHolds(StartRun(ls));
  }

  lemma ClaimsNeedAnActivePolicy(ls: seq<Label>, claim: nat)
    returns (call: CallId, k: Key, began: int, active: int, committed: int)
    requires Valid(ls) && claim in Exec(ls).claims.rows
    ensures var run := ClaimsRun(ls);
      && G.Guarded(run, call, k, Exec(ls).claims.rows[claim], began, active)
      && active < committed < |run| && run[committed] == G.Commit(call, claim)
  {
    ClaimsRunIsARun(ls);
    call, k, began, active, committed := G.RowsAreGuarded(ClaimsRun(ls), claim);
  }

  /** A claim is stored under a subject and key if and only if some call made it: a claim filed
      directly, or a POST of some workflow carrying that very subject and key. What the
      orchestrator was told, if anything, does not matter. */
  lemma ClaimExactlyWhenMade(ls: seq<Label>, k: Key)
    requires Valid(ls)
    ensures k in Exec(ls).claims.keys <==> exists c :: C.Makes(Exec(ls).claims, c, k)
    ensures forall c :: C.Makes(Exec(ls).claims, c, k) && c.Post? ==> c in Exec(ls).posts && Exec(ls).posts[c].key == k
  {
    ClaimsRunIsARun(ls);
    C.KeyExactlyWhenMade(ClaimsRun(ls), k);
    InvHolds(ls);
    forall c | C.Makes(Exec(ls).claims, c, k) && c.Post?
      ensures c in Exec(ls).posts && Exec(ls).posts[c].key == k
    {
      assert DeliveryOk(Exec(ls), c);
    }
  }

  // ---------------------------------------------------------------- concurrent starts

  /** What a start has been told. */
  predicate StartTold(s: State, r: nat) {
    r in s.orch.calls && s.orch.calls[r].Done? && !s.orch.calls[r].reply.Refused?
  }

  /** One workflow per (subject, stripped key), and none without its key record: what losing
      starts inserted is gone. */
  lemma OneWorkflowPerKey(ls: seq<Label>)
    requires Valid(ls)
    ensures var s := Exec(ls);
      && (forall k :: k in s.orch.keys ==> s.orch.keys[k].row in s.db && s.db[s.orch.keys[k].row].owner == k)
      && (forall wf :: wf in s.db ==>
         s.db[wf].owner in s.orch.keys && s.orch.keys[s.db[wf].owner] == G.Entry(s.db[wf].payload, wf))
      && (forall a, b :: a in s.db && b in s.db && s.db[a].owner == s.db[b].owner ==> a == b)
  {
    InvHolds(ls);
    var s := Exec(ls);
    forall wf | wf in s.db
      ensures s.db[wf].owner in s.orch.keys && s.orch.keys[s.db[wf].owner] == G.Entry(s.db[wf].payload, wf)
    {
      assert RecordOk(s, wf);
    }
    forall k | k in s.orch.keys
      ensures s.orch.keys[k].row in s.db && s.db[s.orch.keys[k].row].owner == k
    {
      assert RecordOk(s, s.orch.keys[k].row);
    }
  }

  /** Starts that used one key: those with the request the key was first used with get its one
      workflow, the others a conflict, and only the one that created the workflow ever executes
      it as a start. */
  lemma ConcurrentStarts(ls: seq<Label>, r: nat)
    requires Valid(ls) && StartTold(Exec(ls), r)
    ensures var s := Exec(ls);
      var call := s.orch.calls[r];
      && call.key in s.orch.keys
      && var wf := s.orch.keys[call.key].row;
         && wf in s.db && s.db[wf].owner == call.key
         && (call.reply.Conflict? <==> call.fp != s.db[wf].payload)
         && (!call.reply.Conflict? ==> call.reply.row == wf)
         && (forall q :: IsLive(s, q) && s.sessions[q].workflow == wf && !s.sessions[q].isRetry ==>
               q in s.orch.calls && s.orch.calls[q].Done? && s.orch.calls[q].reply == G.Made(wf)
               && (call.reply.Made? ==> q == r))
  {
    InvHolds(ls);
    OneWorkflowPerKey(ls);
    var s := Exec(ls);
    var wf := s.orch.keys[s.orch.calls[r].key].row;
    forall q | IsLive(s, q) && s.sessions[q].workflow == wf && !s.sessions[q].isRetry
      ensures q in s.orch.calls && s.orch.calls[q].Done? && s.orch.calls[q].reply == G.Made(wf)
      ensures s.orch.calls[r].reply.Made? ==> q == r
    {
      assert SessionOk(s, q);
    }
  }

  /** A call of the orchestrator keeps the key and the request it began with. */
  lemma CallKeeps(s: State, l: Label, r: nat)
    requires Enabled(s, l) && r in s.orch.calls
    ensures r in Next(s, l).orch.calls
    ensures Next(s, l).orch.calls[r].key == s.orch.calls[r].key && Next(s, l).orch.calls[r].fp == s.orch.calls[r].fp
  {
  }

  /** A start works under the subject of its token and its stripped header, for as long as the run
      goes on; a start with a blank header does nothing. */
  lemma {:induction false} StartKeepsItsKey(ls: seq<Label>, i: nat)
    requires Valid(ls) && i < |ls| && ls[i].Start?
    ensures Valid(ls[..i]) && Valid(ls[..i + 1])
    ensures Keys.AllSpace(ls[i].header) ==> Exec(ls[..i + 1]) == Exec(ls[..i])
    ensures !Keys.AllSpace(ls[i].header) ==>
      var calls, r := Exec(ls).orch.calls, ls[i].request;
      r in calls && calls[r].key == (ls[i].subject, Keys.Strip(ls[i].header)) && calls[r].fp == ls[i].payload
  {
    Keys.BlankExactlyWhitespace(ls[i].header);
    if i == |ls| - 1 {
      assert ls[..i] == Init(ls) && ls[..i + 1] == ls;
    } else {
      assert Init(ls)[..i] == ls[..i] && Init(ls)[..i + 1] == ls[..i + 1];
      StartKeepsItsKey(Init(ls), i);
      if !Keys.AllSpace(ls[i].header) {
        CallKeeps(Exec(Init(ls)), Last(ls), ls[i].request);
      }
    }
  }

  /** Any two starts of a run that are told a workflow are told the same one exactly when they came
      from one subject with headers that agree but for outer whitespace; and then they asked for
      the same. */
  lemma StartsShareExactlyWhen(ls: seq<Label>, i: nat, j: nat)
    requires Valid(ls) && i < |ls| && ls[i].Start? && j < |ls| && ls[j].Start?
    requires !Keys.AllSpace(ls[i].header) && !Keys.AllSpace(ls[j].header)
    requires StartTold(Exec(ls), ls[i].request) && !Exec(ls).orch.calls[ls[i].request].reply.Conflict?
    requires StartTold(Exec(ls), ls[j].request) && !Exec(ls).orch.calls[ls[j].request].reply.Conflict?
    ensures var x, y := Exec(ls).orch.calls[ls[i].request].reply.row, Exec(ls).orch.calls[ls[j].request].reply.row;
      && (x == y <==> ls[i].subject == ls[j].subject && Keys.Strip(ls[i].header) == Keys.Strip(ls[j].header))
      && (x == y ==> ls[i].payload == ls[j].payload)
  {
    StartKeepsItsKey(ls, i);
    StartKeepsItsKey(ls, j);
    ConcurrentStarts(ls, ls[i].request);
    ConcurrentStarts(ls, ls[j].request);
  }

  /** A key no service will strip any further, nor refuse. */
  predicate Stripped(k: Key) { k.1 != "" && Keys.Strip(k.1) == k.1 }

  ghost predicate KeysStripped(s: State) {
    && (forall r :: r in s.orch.calls ==> Stripped(s.orch.calls[r].key))
    && (forall wf :: wf in s.db ==> Stripped(s.db[wf].owner))
    && (forall p :: p in s.posts ==> Stripped(s.posts[p].key))
  }

  lemma CallKeysStayStripped(s: State, l: Label, r: nat)
    requires Enabled(s, l) && KeysStripped(s) && r in Next(s, l).orch.calls
    ensures Stripped(Next(s, l).orch.calls[r].key)
  {
    if r in s.orch.calls {
      CallKeeps(s, l, r);
    } else {
      Keys.StripIdempotent(l.header);
    }
  }

  lemma WorkflowKeysStayStripped(s: State, l: Label, wf: nat)
    requires StoresOk(s) && Enabled(s, l) && KeysStripped(s) && wf in Next(s, l).db
    ensures Stripped(Next(s, l).db[wf].owner)
  {
    if wf in s.db {
      RecordsExtend(s, l, wf);
    }
  }

  lemma PostKeysStayStripped(s: State, l: Label, p: CallId)
    requires Enabled(s, l) && KeysStripped(s) && p in Next(s, l).posts
    ensures Stripped(Next(s, l).posts[p].key)
  {
  }

  /** Every workflow has a stripped key that is not blank, and every POST for it carries that key:
      what the Claims Service makes of the header is the key the orchestrator knows. */
  lemma {:induction false} KeysAreStripped(ls: seq<Label>)
    requires Valid(ls)
    ensures KeysStripped(Exec(ls))
    ensures forall p :: p in Exec(ls).posts ==>
      var m := Exec(ls).posts[p];
      m.workflow in Exec(ls).db && m.key.1 == Exec(ls).db[m.workflow].owner.1
  {
    InvHolds(ls);
    forall p | p in Exec(ls).posts
      ensures PostOk(Exec(ls), p)
    {
    }
    if ls != [] {
      var s, l := Exec(Init(ls)), Last(ls);
      KeysAreStripped(Init(ls));
      InvHolds(Init(ls));
      forall r | r in Exec(ls).orch.calls
        ensures Stripped(Exec(ls).orch.calls[r].key)
      {
        CallKeysStayStripped(s, l, r);
      }
      forall wf | wf in Exec(ls).db
        ensures Stripped(Exec(ls).db[wf].owner)
      {
        WorkflowKeysStayStripped(s, l, wf);
      }
      forall p | p in Exec(ls).posts
        ensures Stripped(Exec(ls).posts[p].key)
      {
        PostKeysStayStripped(s, l, p);
      }
    }
  }

  // ---------------------------------------------------------------- bounds without any assumption

  /** Each request sends at most three POSTs, the retry counter never passes its limit, and the two
      intermediate states are never committed, even when retries of one workflow overlap. */
  lemma BoundsAlways(ls: seq<Label>)
    requires Valid(ls)
    ensures forall p :: p in Exec(ls).posts ==> p.Post? && p.attempt < 3
    ensures forall wf :: wf in Exec(ls).db ==>
      Exec(ls).db[wf].row.retries <= 3 && Exec(ls).db[wf].row.state !in {PolicyVerified, ClaimSubmitted}
  {
    InvHolds(ls);
    forall p | p in Exec(ls).posts
      ensures p.Post? && p.attempt < 3
    {
      assert PostOk(Exec(ls), p);
    }
    forall wf | wf in Exec(ls).db
      ensures Exec(ls).db[wf].row.retries <= 3 && Exec(ls).db[wf].row.state !in {PolicyVerified, ClaimSubmitted}
    {
      assert RecordOk(Exec(ls), wf);
    }
  }

  // ---------------------------------------------------------------- a crashed start is stuck

  /** Pending, with nobody working on it. */
  ghost predicate Abandoned(s: State, wf: nat) {
    && wf in s.db && s.db[wf].row.state == Pending
    && forall r :: IsLive(s, r) ==> s.sessions[r].workflow != wf
  }

  lemma AbandonedKept(s: State, l: Label, wf: nat)
    requires StoresOk(s) && SessionsOk(s) && Enabled(s, l) && Abandoned(s, wf)
    ensures Abandoned(Next(s, l), wf) && Next(s, l).db[wf] == s.db[wf]
  {
    RecordFrame(s, l, wf);
    forall r | IsLive(Next(s, l), r)
      ensures Next(s, l).sessions[r].workflow != wf
    {
      if !Opens(s, l, r) {
        SessionOrigin(s, l, r);
      }
    }
  }

  /** A workflow whose start crashed after its first commit stays pending for ever, whatever
      anyone does: replays of its key only read it, and only failed workflows can be retried. */
  lemma {:induction false} CrashedStartIsStuck(ls: seq<Label>, n: nat, wf: nat)
    requires Valid(ls) && n <= |ls| && Valid(ls[..n]) && Abandoned(Exec(ls[..n]), wf)
    ensures Abandoned(Exec(ls), wf) && Exec(ls).db[wf] == Exec(ls[..n]).db[wf]
  {
    if n == |ls| {
      assert ls[..n] == ls;
    } else {
      assert Init(ls)[..n] == ls[..n];
      CrashedStartIsStuck(Init(ls), n, wf);
      InvHolds(Init(ls));
      AbandonedKept(Exec(Init(ls)), Last(ls), wf);
    }
  }

  /** The request dies without saving: it crashes, or an exception escapes. */
  predicate Dies(s: State, l: Label, r: nat)
    requires Enabled(s, l)
  {
    !l.Save? && IsLive(s, r) && !IsLive(Next(s, l), r)
  }

  lemma DeathAbandons(s: State, l: Label, wf: nat, r: nat)
    requires StoresOk(s) && SessionsOk(s) && Enabled(s, l) && Dies(s, l, r)
    requires wf in s.db && s.db[wf].row.state == Pending
    requires s.sessions[r].workflow == wf && !s.sessions[r].isRetry
    ensures Abandoned(Next(s, l), wf)
  {
    var s' := Next(s, l);
    RecordFrame(s, l, wf);
    forall q | IsLive(s', q)
      ensures s'.sessions[q].workflow != wf
    {
      if !Opens(s, l, q) {
        SessionOrigin(s, l, q);
        if s.sessions[q].workflow == wf {
          SaverIsTheStarter(s, q, r);
        }
      }
    }
  }

  /** While its start is alive, a pending workflow is abandoned by the death of that start and by
      nothing else. */
  lemma OnlyDeathAbandons(s: State, l: Label, wf: nat, r: nat)
    requires Inv(s) && Enabled(s, l)
    requires wf in s.db && s.db[wf].row.state == Pending
    requires IsLive(s, r) && s.sessions[r].workflow == wf
    ensures Abandoned(Next(s, l), wf) <==> Dies(s, l, r)
  {
    assert !s.sessions[r].isRetry by {
      assert SessionOk(s, r);
    }
    if Dies(s, l, r) {
      DeathAbandons(s, l, wf, r);
    } else if l.Save? && l.request == r {
      SavedRecordOk(s, r);
    } else {
      StaysOpen(s, l, r);
    }
  }

  lemma StaysOpen(s: State, l: Label, r: nat)
    requires StoresOk(s) && CallersOk(s) && Enabled(s, l) && IsLive(s, r) && !Dies(s, l, r) &&
      !(l.Save? && l.request == r)
    ensures IsLive(Next(s, l), r) && Next(s, l).sessions[r].workflow == s.sessions[r].workflow
  {
    assert !Opens(s, l, r);
    if l.Save? {
      PostFrame(s, l, r);
    } else {
      SessionOrigin(s, l, r);
    }
  }
}
