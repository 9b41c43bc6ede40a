/** Status changes with an audit trail, as the Claims Service and the Policy Service share them.

    An update loads the entity without a lock, checks the transition against what it loaded, and
    writes the new status together with an audit record in one commit. Between its load and its
    commit other updates may commit; the machine below interleaves any number of them. Since no
    transition leads from a status to itself, the status column is always written. */
module Lifecycles {
  import opened Common

  /** An audit record. */
  datatype Change<S> = Change(id: nat, actor: string, oldStatus: S, newStatus: S)

  /** The committed tables, and the updates between load and commit. */
  datatype State<S> = State(status: map<nat, S>, audit: seq<Change<S>>, open: map<nat, Change<S>>)

  datatype Label<S> =
    | Create(id: nat)
    | Load(session: nat, id: nat, target: S, actor: string)
    | Commit(session: nat)
    | Crash(session: nat)

  /** The table of allowed transitions, and the status a new entity gets. */
  datatype Rules<!S> = Rules(initial: S, valid: (S, S) -> bool)

  function Empty<S>(): State<S> { State(map[], [], map[]) }

  predicate Enabled<S>(s: State<S>, l: Label<S>) {
    match l
    case Create(id) => id !in s.status
    case Load(session, _, _, _) => session !in s.open
    case Commit(session) => session in s.open
    case Crash(session) => session in s.open
  }

  /** An update of a missing entity or along a forbidden transition ends at its load. */
  function Next<S>(r: Rules<S>, s: State<S>, l: Label<S>): State<S>
    requires Enabled(s, l)
  {
    match l
    case Create(id) => s.(status := s.status[id := r.initial])
    case Load(session, id, target, actor) =>
      if id in s.status && r.valid(s.status[id], target)
      then s.(open := s.open[session := Change(id, actor, s.status[id], target)])
      else s
    case Commit(session) =>
      var change := s.open[session];
      State(s.status[change.id := change.newStatus], s.audit + [change], s.open - {session})
    case Crash(session) => s.(open := s.open - {session})
  }

  predicate Valid<S>(r: Rules<S>, ls: seq<Label<S>>)
    decreases |ls|, 0
  {
    ls == [] || (Valid(r, Init(ls)) && Enabled(Exec(r, Init(ls)), Last(ls)))
  }

  function Exec<S>(r: Rules<S>, ls: seq<Label<S>>): State<S>
    requires Valid(r, ls)
    decreases |ls|, 1
  {
    if ls == [] then Empty() else Next(r, Exec(r, Init(ls)), Last(ls))
  }

  // ---------------------------------------------------------------- trails

  /** One entity's audit records, in commit order. */
  function Trail<S>(audit: seq<Change<S>>, id: nat): seq<Change<S>> {
    if audit == [] then []
    else if Last(audit).id == id then Trail(Init(audit), id) + [Last(audit)]
    else Trail(Init(audit), id)
  }

  /** Where a trail leads to. */
  function End<S>(initial: S, trail: seq<Change<S>>): S {
    if trail == [] then initial else Last(trail).newStatus
  }

  /** Every record starts where the one before it ended. */
  predicate Contiguous<S(==)>(initial: S, trail: seq<Change<S>>) {
    trail == [] || (Contiguous(initial, Init(trail)) && Last(trail).oldStatus == End(initial, Init(trail)))
  }

  /** Every record is an allowed transition from a status the entity once had. */
  ghost predicate Justified<S>(r: Rules<S>, trail: seq<Change<S>>) {
    forall k :: 0 <= k < |trail| ==>
      && r.valid(trail[k].oldStatus, trail[k].newStatus)
      && OnceHad(r, trail[..k], trail[k].oldStatus)
  }

  ghost predicate OnceHad<S>(r: Rules<S>, trail: seq<Change<S>>, status: S) {
    status == r.initial || exists j :: 0 <= j < |trail| && trail[j].newStatus == status
  }

  ghost predicate Recorded<S(!new)>(r: Rules<S>, s: State<S>) {
    && (forall id :: id in s.status ==>
          && s.status[id] == End(r.initial, Trail(s.audit, id))
          && Justified(r, Trail(s.audit, id)))
    && (forall id :: id !in s.status ==> Trail(s.audit, id) == [])
    && (forall session :: session in s.open ==>
          var c := s.open[session];
          c.id in s.status && r.valid(c.oldStatus, c.newStatus) && OnceHad(r, Trail(s.audit, c.id), c.oldStatus))
  }

  lemma TrailAppend<S>(audit: seq<Change<S>>, c: Change<S>, id: nat)
    ensures Trail(audit + [c], id) == if c.id == id then Trail(audit, id) + [c] else Trail(audit, id)
  {
    assert Init(audit + [c]) == audit;
  }

  lemma EndIsOnceHad<S>(r: Rules<S>, trail: seq<Change<S>>)
    ensures OnceHad(r, trail, End(r.initial, trail))
  {
    if trail != [] {
      assert trail[|trail| - 1].newStatus == End(r.initial, trail);
    }
  }

  lemma OnceHadAppend<S>(r: Rules<S>, trail: seq<Change<S>>, more: seq<Change<S>>, status: S)
    requires OnceHad(r, trail, status)
    ensures OnceHad(r, trail + more, status)
  {
    if status != r.initial {
      var j :| 0 <= j < |trail| && trail[j].newStatus == status;
      assert (trail + more)[j].newStatus == status;
    }
  }

  lemma JustifiedAppend<S>(r: Rules<S>, trail: seq<Change<S>>, c: Change<S>)
    requires Justified(r, trail) && r.valid(c.oldStatus, c.newStatus) && OnceHad(r, trail, c.oldStatus)
    ensures Justified(r, trail + [c])
  {
    var all := trail + [c];
    forall k | 0 <= k < |all|
      ensures r.valid(all[k].oldStatus, all[k].newStatus) && OnceHad(r, all[..k], all[k].oldStatus)
    {
      assert all[..k] == trail[..k];
      assert trail[..|trail|] == trail;
    }
  }

  lemma CommitTrail<S(!new)>(r: Rules<S>, s: State<S>, session: nat, id: nat)
    requires Recorded(r, s) && session in s.open && id in s.status
    ensures var s' := Next(r, s, Commit(session));
      s'.status[id] == End(r.initial, Trail(s'.audit, id)) && Justified(r, Trail(s'.audit, id))
  {
    var c := s.open[session];
    TrailAppend(s.audit, c, id);
    if id == c.id {
      JustifiedAppend(r, Trail(s.audit, id), c);
    }
  }

  lemma CommitOthers<S(!new)>(r: Rules<S>, s: State<S>, session: nat, other: nat)
    requires Recorded(r, s) && session in s.open && other in s.open
    ensures OnceHad(r, Trail(Next(r, s, Commit(session)).audit, s.open[other].id), s.open[other].oldStatus)
  {
    var c, o := s.open[session], s.open[other];
    TrailAppend(s.audit, c, o.id);
    if o.id == c.id {
      OnceHadAppend(r, Trail(s.audit, o.id), [c], o.oldStatus);
    }
  }

  lemma CommitRecorded<S(!new)>(r: Rules<S>, s: State<S>, session: nat)
    requires Recorded(r, s) && session in s.open
    ensures Recorded(r, Next(r, s, Commit(session)))
  {
    var s' := Next(r, s, Commit(session));
    forall id | id in s.status
      ensures s'.status[id] == End(r.initial, Trail(s'.audit, id)) && Justified(r, Trail(s'.audit, id))
    {
      CommitTrail(r, s, session, id);
    }
    forall id | id !in s.status
      ensures Trail(s'.audit, id) == []
    {
      TrailAppend(s.audit, s.open[session], id);
    }
    forall other | other in s.open
      ensures OnceHad(r, Trail(s'.audit, s.open[other].id), s.open[other].oldStatus)
    {
      CommitOthers(r, s, session, other);
    }
  }

  /** In any interleaving, crashes included: an entity's status is the one its last record names,
      and every record is an allowed transition from a status the entity had before. */
  lemma {:induction false} StatusIsLastRecord<S(!new)>(r: Rules<S>, ls: seq<Label<S>>)
    requires Valid(r, ls)
    ensures Recorded(r, Exec(r, ls))
  {
    if ls != [] {
      var s, l := Exec(r, Init(ls)), Last(ls);
      StatusIsLastRecord(r, Init(ls));
      match l
      case Create(_) =>
      case Load(_, id, _, _) =>
        EndIsOnceHad(r, Trail(s.audit, id));
      case Commit(session) => CommitRecorded(r, s, session);
      case Crash(_) =>
    }
  }

  /** The step commits an update of `id` over a status it did not load. */
  predicate Overtakes<S(==)>(s: State<S>, l: Label<S>, id: nat) {
    && l.Commit? && l.session in s.open && s.open[l.session].id == id
    && id in s.status && s.status[id] != s.open[l.session].oldStatus
  }

  predicate Overtaken<S(==)>(r: Rules<S>, ls: seq<Label<S>>, id: nat)
    requires Valid(r, ls)
  {
    ls != [] && (Overtaken(r, Init(ls), id) || Overtakes(Exec(r, Init(ls)), Last(ls), id))
  }

  lemma ContiguousAppend<S>(initial: S, trail: seq<Change<S>>, c: Change<S>)
    ensures Contiguous(initial, trail + [c]) <==> Contiguous(initial, trail) && c.oldStatus == End(initial, trail)
  {
    assert Init(trail + [c]) == trail;
  }

  /** A trail is one unbroken path from the initial to the current status exactly when no update
      of the entity was committed over a status it had not loaded. */
  lemma {:induction false} ContiguousExactlyWhen<S(!new)>(r: Rules<S>, ls: seq<Label<S>>, id: nat)
    requires Valid(r, ls)
    ensures Contiguous(r.initial, Trail(Exec(r, ls).audit, id)) <==> !Overtaken(r, ls, id)
  {
    if ls != [] {
      var s, l := Exec(r, Init(ls)), Last(ls);
      ContiguousExactlyWhen(r, Init(ls), id);
      StatusIsLastRecord(r, Init(ls));
      if l.Commit? {
        TrailAppend(s.audit, s.open[l.session], id);
        assert s.open[l.session].id in s.status;
        ContiguousAppend(r.initial, Trail(s.audit, id), s.open[l.session]);
      }
    }
  }

  /** Serialised updates of one entity: it is loaded only while no update of it is open. */
  ghost predicate Serial<S>(r: Rules<S>, ls: seq<Label<S>>, id: nat)
    requires Valid(r, ls)
  {
    ls == [] || (
      && Serial(r, Init(ls), id)
      && (Last(ls).Load? && Last(ls).id == id ==> NoneOpen(Exec(r, Init(ls)), id)))
  }

  ghost predicate NoneOpen<S>(s: State<S>, id: nat) { forall i :: i in s.open ==> s.open[i].id != id }

  ghost predicate UpToDate<S>(s: State<S>, id: nat) {
    && (forall i, j :: i in s.open && j in s.open && s.open[i].id == s.open[j].id == id ==> i == j)
    && (forall i :: i in s.open && s.open[i].id == id ==> id in s.status && s.status[id] == s.open[i].oldStatus)
  }

  /** Updates of other entities may overlap as they like. */
  lemma {:induction false} SerialNeverOvertakes<S(!new)>(r: Rules<S>, ls: seq<Label<S>>, id: nat)
    requires Valid(r, ls) && Serial(r, ls, id)
    ensures UpToDate(Exec(r, ls), id) && !Overtaken(r, ls, id)
  {
    if ls != [] {
      SerialNeverOvertakes(r, Init(ls), id);
    }
  }

  // ---------------------------------------------------------------- final statuses

  /** No transition leads away from the status. */
  ghost predicate IsFinal<S(!new)>(r: Rules<S>, status: S) { forall target :: !r.valid(status, target) }

  ghost predicate Has<S>(s: State<S>, id: nat, status: S) { id in s.status && s.status[id] == status }

  /** The step commits an update of `id` that was decided on another status than the entity's, and
      leads elsewhere. */
  predicate Overrides<S(==)>(s: State<S>, l: Label<S>, id: nat) {
    Overtakes(s, l, id) && s.open[l.session].newStatus != s.status[id]
  }

  /** An entity leaves a final status in a step if and only if the step overrides it. */
  lemma LeavesFinalExactlyWhen<S(!new)>(r: Rules<S>, s: State<S>, l: Label<S>, id: nat, status: S)
    requires Recorded(r, s) && Enabled(s, l) && Has(s, id, status) && IsFinal(r, status)
    ensures !Has(Next(r, s, l), id, status) <==> Overrides(s, l, id)
  {
  }

  /** Some step after the first `n` overrides the status. */
  ghost predicate OverriddenSince<S>(r: Rules<S>, ls: seq<Label<S>>, n: nat, id: nat)
    requires Valid(r, ls)
  {
    |ls| > n && (OverriddenSince(r, Init(ls), n, id) || Overrides(Exec(r, Init(ls)), Last(ls), id))
  }

  /** The entity has the status after step `n` and after every later one. */
  ghost predicate Stays<S>(r: Rules<S>, ls: seq<Label<S>>, n: nat, id: nat, status: S)
    requires Valid(r, ls)
  {
    Has(Exec(r, ls), id, status) && (|ls| > n ==> Stays(r, Init(ls), n, id, status))
  }

  /** Once in a final status, an entity stays there if and only if no later update is committed that
      was decided on another status and leads elsewhere. */
  lemma {:induction false} FinalStaysExactlyWhen<S(!new)>(r: Rules<S>, ls: seq<Label<S>>, n: nat, id: nat, status: S)
    requires Valid(r, ls) && n <= |ls| && Valid(r, ls[..n]) && Has(Exec(r, ls[..n]), id, status) && IsFinal(r, status)
    ensures Stays(r, ls, n, id, status) <==> !OverriddenSince(r, ls, n, id)
  {
    if |ls| == n {
      assert ls[..n] == ls;
    } else {
      assert Init(ls)[..n] == ls[..n];
      FinalStaysExactlyWhen(r, Init(ls), n, id, status);
      if Stays(r, Init(ls), n, id, status) {
        StatusIsLastRecord(r, Init(ls));
        LeavesFinalExactlyWhen(r, Exec(r, Init(ls)), Last(ls), id, status);
      }
    }
  }

  // ---------------------------------------------------------------- claims

  datatype ClaimStatus = Submitted | UnderReview | Approved | Denied | Paid | Closed

  predicate ClaimMoves(current: ClaimStatus, target: ClaimStatus) {
    match current
    case Submitted => target == UnderReview
    case UnderReview => target in {Approved, Denied, ClaimStatus.Closed}
    case Approved => target == Paid
    case Denied => false
    case Paid => false
    case Closed => false
  }

  function ClaimRules(): Rules<ClaimStatus> { Rules(Submitted, ClaimMoves) }

  /** The only way to a status. */
  function Route(status: ClaimStatus): seq<ClaimStatus> {
    match status
    case Submitted => []
    case UnderReview => [UnderReview]
    case Approved => [UnderReview, Approved]
    case Denied => [UnderReview, Denied]
    case Paid => [UnderReview, Approved, Paid]
    case Closed => [UnderReview, ClaimStatus.Closed]
  }

  function Visited<S>(trail: seq<Change<S>>): seq<S> {
    if trail == [] then [] else Visited(Init(trail)) + [Last(trail).newStatus]
  }

  lemma {:induction false} ContiguousRoute(trail: seq<Change<ClaimStatus>>)
    requires Contiguous(Submitted, trail)
    requires forall k :: 0 <= k < |trail| ==> ClaimMoves(trail[k].oldStatus, trail[k].newStatus)
    ensures Visited(trail) == Route(End(Submitted, trail)) && |Visited(trail)| == |trail|
  {
    if trail != [] {
      ContiguousRoute(Init(trail));
    }
  }

  /** Unless an update was overtaken, a claim's status says all of its history: a paid claim was
      taken into review, approved and paid, in three records, and no claim has more. */
  lemma ClaimStatusTellsHistory(ls: seq<Label<ClaimStatus>>, id: nat)
    requires Valid(ClaimRules(), ls) && !Overtaken(ClaimRules(), ls, id)
    requires id in Exec(ClaimRules(), ls).status
    ensures var s := Exec(ClaimRules(), ls);
      Visited(Trail(s.audit, id)) == Route(s.status[id]) && |Trail(s.audit, id)| <= 3
  {
    StatusIsLastRecord(ClaimRules(), ls);
    ContiguousExactlyWhen(ClaimRules(), ls, id);
    ContiguousRoute(Trail(Exec(ClaimRules(), ls).audit, id));
  }

  /** From any run, an update that nothing overlaps. */
  lemma UpdateAlone(ls: seq<Label<ClaimStatus>>, id: nat, session: nat, target: ClaimStatus)
    returns (longer: seq<Label<ClaimStatus>>)
    requires Valid(ClaimRules(), ls) && session !in Exec(ClaimRules(), ls).open
    requires id in Exec(ClaimRules(), ls).status && ClaimMoves(Exec(ClaimRules(), ls).status[id], target)
    ensures Valid(ClaimRules(), longer) && Exec(ClaimRules(), longer).open == Exec(ClaimRules(), ls).open
    ensures Exec(ClaimRules(), longer).status == Exec(ClaimRules(), ls).status[id := target]
    ensures Overtaken(ClaimRules(), longer, id) == Overtaken(ClaimRules(), ls, id)
  {
    var r, loaded := ClaimRules(), ls + [Load(session, id, target, "")];
    Extend(r, ls, Last(loaded));
    longer := loaded + [Commit(session)];
    Extend(r, loaded, Last(longer));
    assert Init(loaded) == ls && Init(longer) == loaded;
  }

  /** ... and each of these histories happens: every status is reached by its route. */
  lemma {:induction false} EveryRouteHappens(status: ClaimStatus, id: nat) returns (ls: seq<Label<ClaimStatus>>)
    ensures Valid(ClaimRules(), ls) && Exec(ClaimRules(), ls).open == map[] && !Overtaken(ClaimRules(), ls, id)
    ensures Has(Exec(ClaimRules(), ls), id, status)
    ensures Visited(Trail(Exec(ClaimRules(), ls).audit, id)) == Route(status)
    decreases |Route(status)|
  {
    if status == Submitted {
      ls := [Create(id)];
      assert Init(ls) == [];
    } else {
      var before := EveryRouteHappens(
        if status == Paid then Approved else if status == UnderReview then Submitted else UnderReview, id);
      ls := UpdateAlone(before, id, 0, status);
    }
    ClaimStatusTellsHistory(ls, id);
  }

  /** However updates interleave, a claim is paid only after an approval was recorded. */
  lemma PaidAfterApproval(ls: seq<Label<ClaimStatus>>, id: nat)
    returns (approval: int, payment: int)
    requires Valid(ClaimRules(), ls)
    requires id in Exec(ClaimRules(), ls).status && Exec(ClaimRules(), ls).status[id] == Paid
    ensures var trail := Trail(Exec(ClaimRules(), ls).audit, id);
      0 <= approval < payment == |trail| - 1 && trail[approval].newStatus == Approved &&
        trail[payment].newStatus == Paid
  {
    StatusIsLastRecord(ClaimRules(), ls);
    var trail := Trail(Exec(ClaimRules(), ls).audit, id);
    payment := |trail| - 1;
    assert OnceHad(ClaimRules(), trail[..payment], trail[payment].oldStatus);
    approval :| 0 <= approval < payment && trail[..payment][approval].newStatus == Approved;
  }

  /** Denied, paid and closed claims stay so exactly while nothing overrides them. */
  lemma ClosedClaimStaysExactlyWhen(ls: seq<Label<ClaimStatus>>, n: nat, id: nat, status: ClaimStatus)
    requires Valid(ClaimRules(), ls) && n <= |ls| && status in {Denied, Paid, ClaimStatus.Closed}
    ensures Valid(ClaimRules(), ls[..n]) && Has(Exec(ClaimRules(), ls[..n]), id, status) ==>
      (Stays(ClaimRules(), ls, n, id, status) <==> !OverriddenSince(ClaimRules(), ls, n, id))
  {
    if Valid(ClaimRules(), ls[..n]) && Has(Exec(ClaimRules(), ls[..n]), id, status) {
      FinalStaysExactlyWhen(ClaimRules(), ls, n, id, status);
    }
  }

  lemma Extend<S>(r: Rules<S>, ls: seq<Label<S>>, l: Label<S>)
    requires Valid(r, ls) && Enabled(Exec(r, ls), l)
    ensures Valid(r, ls + [l]) && Exec(r, ls + [l]) == Next(r, Exec(r, ls), l)
  {
    assert Init(ls + [l]) == ls;
  }

  /** Overlapping updates break the rule a reader expects of a denial. From any point at which a
      claim is under review and no update is open, one update approves it, a second one, loaded
      before, denies it, and a third one, loaded in between, pays the denied claim. */
  lemma DeniedClaimIsPaid(ls: seq<Label<ClaimStatus>>, id: nat, a: nat, b: nat, c: nat)
    returns (denied: seq<Label<ClaimStatus>>, paid: seq<Label<ClaimStatus>>)
    requires Valid(ClaimRules(), ls) && Exec(ClaimRules(), ls).open == map[]
    requires id in Exec(ClaimRules(), ls).status && Exec(ClaimRules(), ls).status[id] == UnderReview
    requires a != b && b != c && a != c
    ensures ls <= denied && Valid(ClaimRules(), denied)
    ensures id in Exec(ClaimRules(), denied).status && Exec(ClaimRules(), denied).status[id] == Denied
    ensures paid == denied + [Commit(c)] && Valid(ClaimRules(), paid)
    ensures Overrides(Exec(ClaimRules(), denied), Commit(c), id)
    ensures Exec(ClaimRules(), paid).status == Exec(ClaimRules(), denied).status[id := Paid]
  {
    var r := ClaimRules();
    var first := ls + [Load(a, id, Approved, "")];
    Extend(r, ls, Last(first));
    var second := first + [Load(b, id, Denied, "")];
    Extend(r, first, Last(second));
    var third := second + [Commit(a)];
    Extend(r, second, Last(third));
    var fourth := third + [Load(c, id, Paid, "")];
    Extend(r, third, Last(fourth));
    denied := fourth + [Commit(b)];
    Extend(r, fourth, Last(denied));
    paid := denied + [Commit(c)];
    Extend(r, denied, Last(paid));
  }

  // ---------------------------------------------------------------- policies

  datatype PolicyStatus = Draft | PendingUnderwriting | Active | Cancelled | Expired | Renewed

  predicate PolicyMoves(current: PolicyStatus, target: PolicyStatus) {
    match current
    case Draft => target == PendingUnderwriting
    case PendingUnderwriting => target == Active
    case Active => target in {Cancelled, Expired, Renewed}
    case Cancelled => false
    case Expired => target == Renewed
    case Renewed => target == PendingUnderwriting
  }

  function PolicyRules(): Rules<PolicyStatus> { Rules(Draft, PolicyMoves) }

  function Entries<S(==)>(trail: seq<Change<S>>, status: S): nat {
    if trail == [] then 0 else Entries(Init(trail), status) + (if Last(trail).newStatus == status then 1 else 0)
  }

  function One(b: bool): nat { if b then 1 else 0 }

  /** The balance of a policy's trail: underwriting against activation, renewals against
      underwriting, and cancellation as the end. */
  predicate Balanced(trail: seq<Change<PolicyStatus>>, status: PolicyStatus) {
    && Entries(trail, PendingUnderwriting) == Entries(trail, Active) + One(status == PendingUnderwriting)
    && Entries(trail, PendingUnderwriting) + One(status == Renewed) == Entries(trail, Renewed) + One(status != Draft)
    && Entries(trail, Cancelled) == One(status == Cancelled)
  }

  lemma {:induction false} ContiguousBalanced(trail: seq<Change<PolicyStatus>>)
    requires Contiguous(Draft, trail)
    requires forall k :: 0 <= k < |trail| ==> PolicyMoves(trail[k].oldStatus, trail[k].newStatus)
    ensures Balanced(trail, End(Draft, trail))
  {
    if trail != [] {
      ContiguousBalanced(Init(trail));
    }
  }

  /** Unless an update was overtaken, underwriting and activation alternate for ever: a policy was
      sent to underwriting as often as it was activated, plus once if it is there now. It was
      renewed once before every underwriting but the first, and a cancellation is its last
      record. */
  lemma UnderwritingAlternates(ls: seq<Label<PolicyStatus>>, id: nat)
    requires Valid(PolicyRules(), ls) && !Overtaken(PolicyRules(), ls, id)
    requires id in Exec(PolicyRules(), ls).status
    ensures var s := Exec(PolicyRules(), ls);
      Balanced(Trail(s.audit, id), s.status[id])
  {
    StatusIsLastRecord(PolicyRules(), ls);
    ContiguousExactlyWhen(PolicyRules(), ls, id);
    ContiguousBalanced(Trail(Exec(PolicyRules(), ls).audit, id));
  }

  /** A cancelled policy stays cancelled exactly while nothing overrides it. */
  lemma CancelledPolicyStaysExactlyWhen(ls: seq<Label<PolicyStatus>>, n: nat, id: nat)
    requires Valid(PolicyRules(), ls) && n <= |ls|
    ensures Valid(PolicyRules(), ls[..n]) && Has(Exec(PolicyRules(), ls[..n]), id, Cancelled) ==>
      (Stays(PolicyRules(), ls, n, id, Cancelled) <==> !OverriddenSince(PolicyRules(), ls, n, id))
  {
    if Valid(PolicyRules(), ls[..n]) && Has(Exec(PolicyRules(), ls[..n]), id, Cancelled) {
      FinalStaysExactlyWhen(PolicyRules(), ls, n, id, Cancelled);
    }
  }

  /** No other status of a policy is final. */
  lemma OnlyCancelledIsFinal(status: PolicyStatus)
    ensures IsFinal(PolicyRules(), status) <==> status == Cancelled
  {
    assert PolicyMoves(Draft, PendingUnderwriting) && PolicyMoves(PendingUnderwriting, Active);
    assert PolicyMoves(Active, Expired) && PolicyMoves(Expired, Renewed) && PolicyMoves(Renewed, PendingUnderwriting);
  }

  // ---------------------------------------------------------------- the services

  datatype Update<S> =
    | NotFound
    | InvalidTransition(current: S, target: S)
    | Updated(status: S)

  /** The answer to an update that runs alone. */
  function Verdict<S>(r: Rules<S>, status: map<nat, S>, id: nat, target: S): Update<S> {
    if id !in status then NotFound
    else if !r.valid(status[id], target) then InvalidTransition(status[id], target)
    else Updated(target)
  }

  class ClaimService {
    var status: map<nat, ClaimStatus>
    var audit: seq<Change<ClaimStatus>>

    ghost function Tables(): State<ClaimStatus>
      reads this
    {
      State(status, audit, map[])
    }

    constructor ()
      ensures Tables() == Empty()
    {
      status, audit := map[], [];
    }

    /** The row `create_claim` inserts. */
    method Insert(id: nat)
      requires id !in status
      modifies this
      ensures Tables() == Next(ClaimRules(), old(Tables()), Create(id))
      ensures status == old(status)[id := Submitted] && audit == old(audit)
    {
      status := status[id := Submitted];
    }

    /** An update that runs alone loads and commits; a refused one changes nothing. */
    method UpdateStatus(id: nat, target: ClaimStatus, actor: string) returns (result: Update<ClaimStatus>)
      modifies this
      ensures result == Verdict(ClaimRules(), old(status), id, target)
      // The moves that are accepted, and what they write.
      ensures result.NotFound? <==> id !in old(status)
      ensures result.Updated? <==> id in old(status) && (old(status)[id], target) in {
        (Submitted, UnderReview), (UnderReview, Approved), (UnderReview, Denied),
        (UnderReview, ClaimStatus.Closed), (Approved, Paid)}
      ensures result.Updated? ==>
        && result.status == target && status == old(status)[id := target]
        && audit == old(audit) + [Change(id, actor, old(status)[id], target)]
      ensures result.InvalidTransition? ==> result.current == old(status)[id] && result.target == target
      ensures !result.Updated? ==> Tables() == old(Tables())
      ensures result.Updated? ==> forall session ::
        var loaded := Next(ClaimRules(), old(Tables()), Load(session, id, target, actor));
        session in loaded.open && Tables() == Next(ClaimRules(), loaded, Commit(session))
    {
      if id !in status {
        return NotFound;
      }
      var oldStatus := status[id];
      if !ClaimMoves(oldStatus, target) {
        return InvalidTransition(oldStatus, target);
      }
      status := status[id := target];
      audit := audit + [Change(id, actor, oldStatus, target)];
      return Updated(target);
    }
  }

  class PolicyService {
    var status: map<nat, PolicyStatus>
    var audit: seq<Change<PolicyStatus>>

    ghost function Tables(): State<PolicyStatus>
      reads this
    {
      State(status, audit, map[])
    }

    constructor ()
      ensures Tables() == Empty()
    {
      status, audit := map[], [];
    }

    method CreatePolicy(id: nat)
      requires id !in status
      modifies this
      ensures Tables() == Next(PolicyRules(), old(Tables()), Create(id))
      ensures status == old(status)[id := Draft] && audit == old(audit)
    {
      status := status[id := Draft];
    }

    method UpdateStatus(id: nat, target: PolicyStatus, actor: string) returns (result: Update<PolicyStatus>)
      modifies this
      ensures result == Verdict(PolicyRules(), old(status), id, target)
      // The moves that are accepted, and what they write.
      ensures result.NotFound? <==> id !in old(status)
      ensures result.Updated? <==> id in old(status) && (old(status)[id], target) in {
        (Draft, PendingUnderwriting), (PendingUnderwriting, Active), (Active, Cancelled), (Active, Expired),
        (Active, Renewed), (Expired, Renewed), (Renewed, PendingUnderwriting)}
      ensures result.Updated? ==>
        && result.status == target && status == old(status)[id := target]
        && audit == old(audit) + [Change(id, actor, old(status)[id], target)]
      ensures result.InvalidTransition? ==> result.current == old(status)[id] && result.target == target
      ensures !result.Updated? ==> Tables() == old(Tables())
      ensures result.Updated? ==> forall session ::
        var loaded := Next(PolicyRules(), old(Tables()), Load(session, id, target, actor));
        session in loaded.open && Tables() == Next(PolicyRules(), loaded, Commit(session))
    {
      if id !in status {
        return NotFound;
      }
      var oldStatus := status[id];
      if !PolicyMoves(oldStatus, target) {
        return InvalidTransition(oldStatus, target);
      }
      status := status[id := target];
      audit := audit + [Change(id, actor, oldStatus, target)];
      return Updated(target);
    }
  }
}
