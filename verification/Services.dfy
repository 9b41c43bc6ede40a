/** `create_claim`, `start_claim_workflow` and `ingest_claim` as imperative code. Each method gets the
    tables as other calls leave them between its lookup and its commit, so it takes every path of
    the source, the unique violation and the second lookup included, and is proved to be a run
    of the machine that `GetOrCreate`, `Saga` and `Legacy` interleave. */
module Services {
  import opened Common
  import opened HttpClients
  import opened WorkflowRows
  import C = GetOrCreateCalls
  import G = GetOrCreate
  import Keys
  import L = Legacy
  import S = Saga
  import W = WorkflowService

  type Table = G.Store<nat, S.Key, S.Request, nat>

  /** The verdict `HttpClients.GetPolicy` reaches when request `n` is the first decisive one. */
  function PolicyVerdictAt(net: nat -> Outcome<PolicyBody>, n: nat): PolicyVerdict
    requires n <= MAX_RETRIES ==> !Ambiguous(net(n))
  {
    if n <= MAX_RETRIES then PolicyAnswer(net(n)) else PolicyUnavailable
  }

  method LookUpPolicy(net: nat -> Outcome<PolicyBody>) returns (verdict: PolicyVerdict)
    ensures forall n: nat :: FirstDecisive(net, n) ==> verdict == PolicyVerdictAt(net, n)
  {
    var v, _, _ := GetPolicy(net);
    return v;
  }

  datatype ClaimResult = BlankKey | Answered(reply: G.Reply<nat>) | PolicyProblem(verdict: PolicyVerdict)

  class ClaimsService {
    var keys: map<S.Key, G.Entry<S.Request, nat>>
    var claims: map<nat, S.Request>

    ghost function Tables(): Table
      reads this
    {
      G.Store(keys, claims, map[])
    }

    constructor ()
      ensures Tables() == G.Empty()
    {
      keys, claims := map[], map[];
    }

    /** A blank key and a key already used end the call before the policy is looked up; a key used
        by others since then ends it after its insert was rolled back. */
    method CreateClaim(subject: string, header: string, request: S.Request, net: nat -> Outcome<PolicyBody>,
      newId: nat, others: Table)
      returns (result: ClaimResult)
      requires newId !in others.rows
      modifies this
      ensures result.BlankKey? <==> Keys.Strip(header) == ""
      ensures result.BlankKey? ==> Tables() == old(Tables())
      ensures forall n: nat :: FirstDecisive(net, n) && !result.BlankKey? ==>
        var verdict := PolicyVerdictAt(net, n);
        var after := C.Contended(old(Tables()), 0, (subject, Keys.Strip(header)), request, verdict.Active?,
          others, newId);
        && Tables() == after.(calls := map[])
        && result == if after.calls[0].reply.Refused? then PolicyProblem(verdict) else Answered(after.calls[0].reply)
    {
      var key := (subject, Keys.Strip(header));
      if key.1 == "" {
        return BlankKey;
      }
      ghost var before := Tables();
      if key in keys {
        return Answered(G.Answer(keys[key], request));
      }
      var verdict := LookUpPolicy(net);
      ghost var n := FirstDecisiveExists(net);
      if !verdict.Active? {
        return PolicyProblem(verdict);
      }
      keys, claims := others.keys, others.rows;
      if key in keys {
        C.ContendedLost(before, 0, key, request, others, newId);
        return Answered(G.Answer(keys[key], request));
      }
      C.ContendedWon(before, 0, key, request, others, newId);
      claims := claims[newId := request];
      keys := keys[key := G.Entry(request, newId)];
      return Answered(G.Made(newId));
    }
  }

  datatype StartResult = KeyIsBlank | Told(reply: G.Reply<nat>) | Escaped(workflow: nat)

  class Orchestrator {
    var keys: map<S.Key, G.Entry<S.Request, nat>>
    var payloads: map<nat, S.Request>
    var rows: map<nat, Row>

    ghost function Tables(): Table
      reads this
    {
      G.Store(keys, payloads, map[])
    }

    constructor ()
      ensures Tables() == G.Empty() && rows == map[]
    {
      keys, payloads, rows := map[], map[], map[];
    }

    /** The workflow's own rows: committed when it is created, and again when it was executed. */
    method ExecuteNew(id: nat, pv: PolicyVerdict, cv: ClaimsVerdict) returns (ok: bool)
      modifies this`rows
      ensures ok <==> Execute(NewRow(), pv, cv).Some?
      ensures rows == old(rows)[id := if ok then Execute(NewRow(), pv, cv).value else NewRow()]
    {
      var created, outcome := CreateAndExecute(pv, cv);
      rows := rows[id := created];
      ok := outcome.Some?;
      if ok {
        rows := rows[id := outcome.value];
      }
    }

    /** The workflow object of a start: what it is at the first commit and at the second, if there is
        one. */
    method CreateAndExecute(pv: PolicyVerdict, cv: ClaimsVerdict) returns (created: Row, outcome: Option<Row>)
      ensures created == NewRow() && outcome == Execute(NewRow(), pv, cv)
    {
      var workflow := new W.Workflow();
      created := workflow.Snapshot();
      var ok := workflow.ExecuteWorkflow(pv, cv);
      outcome := if ok then Some(workflow.Snapshot()) else None;
    }

    /** The first commit: the key and the payload of a new workflow, unless the key is taken, now
        or by the time of the commit. */
    method Reserve(key: S.Key, request: S.Request, newId: nat, others: Table, othersRows: map<nat, Row>)
      returns (reply: G.Reply<nat>)
      requires newId !in others.rows
      modifies this
      ensures var after := C.Contended(old(Tables()), 0, key, request, true, others, newId);
        Tables() == after.(calls := map[]) && reply == after.calls[0].reply
      ensures rows == if key in old(keys) then old(rows) else othersRows
    {
      ghost var before := Tables();
      if key in keys {
        C.ContendedHit(before, 0, key, request, true, others, newId);
        return G.Answer(keys[key], request);
      }
      keys, payloads, rows := others.keys, others.rows, othersRows;
      if key in keys {
        C.ContendedLost(before, 0, key, request, others, newId);
        return G.Answer(keys[key], request);
      }
      C.ContendedWon(before, 0, key, request, others, newId);
      payloads := payloads[newId := request];
      keys := keys[key := G.Entry(request, newId)];
      return G.Made(newId);
    }

    /** Two commits: the new workflow with its key first, and the outcome of its execution after.
        An exception that escapes in between leaves the first, and a start that loses the race for
        its key leaves the tables as the others made them. */
    method StartClaimWorkflow(
        subject: string, header: string, request: S.Request, pv: PolicyVerdict, cv: ClaimsVerdict, newId: nat,
        others: Table, othersRows: map<nat, Row>)
      returns (result: StartResult)
      requires newId !in others.rows
      modifies this
      ensures result.KeyIsBlank? <==> Keys.Strip(header) == ""
      ensures result.KeyIsBlank? ==> Tables() == old(Tables()) && rows == old(rows)
      ensures !result.KeyIsBlank? ==>
        var key := (subject, Keys.Strip(header));
        var after := C.Contended(old(Tables()), 0, key, request, true, others, newId);
        var reply := after.calls[0].reply;
        var before := if key in old(keys) then old(rows) else othersRows;
        var done := Execute(NewRow(), pv, cv);
        && Tables() == after.(calls := map[])
        && rows == (if !reply.Made? then before else before[newId := if done.Some? then done.value else NewRow()])
        && result == if reply.Made? && done.None? then Escaped(newId) else Told(reply)
    {
      var key := (subject, Keys.Strip(header));
      if key.1 == "" {
        return KeyIsBlank;
      }
      var reply := Reserve(key, request, newId, others, othersRows);
      if !reply.Made? {
        return Told(reply);
      }
      var ok := ExecuteNew(newId, pv, cv);
      return if ok then Told(reply) else Escaped(newId);
    }
  }

  class LegacyAdapter {
    var rows: seq<L.Row>

    constructor ()
      ensures rows == []
    {
      rows := [];
    }

    /** `call` names the call in the machine this one is a run of. */
    method IngestClaim(record: L.Record, newId: nat, today: int, others: seq<L.Row>, ghost call: nat)
      returns (reply: L.Reply)
      requires L.Acceptable(record, today) && L.Unused(others, newId)
      modifies this
      ensures var looked := L.Next(L.Next(L.State(today, old(rows), map[]), L.Begin(call, record)), L.Lookup(call));
        var committed := if looked.calls[call].Done? then looked
          else L.Next(looked.(rows := others), L.Commit(call, newId));
        var after := if committed.calls[call].Resolving? then L.Next(committed, L.Resolve(call)) else committed;
        after == L.State(today, rows, map[call := L.Done(record, reply)])
      // In columns: a record is stored exactly when nobody has stored its source system and id.
      ensures reply.Created? <==> forall row :: row in old(rows) || row in others ==> !L.SameClaim(row, record)
      ensures reply.Created? ==> rows == others + [L.Row(newId, record.(rawPayload := L.Dump(record)))]
    {
      L.FindsExactly(rows, record);
      L.FindsExactly(others, record);
      var found := L.Find(rows, L.KeyOf(record));
      if found.Some? {
        return L.Compare(found.value, record, today);
      }
      rows := others;
      found := L.Find(rows, L.KeyOf(record));
      if found.Some? {
        return L.Compare(found.value, record, today);
      }
      rows := rows + [L.RowFor(newId, record)];
      return L.Created(newId);
    }
  }
}
