/** An event of the outbox when every live worker that holds it finishes within the lease it took: time
    never passes the lease of a worker that still holds the event. Its leases then exclude each
    other, its "published" is final, and it is published again only after a crash lost its mark.
    Workers that hold other events may be as late as they like. */
module OutboxLeases {
  import opened Common
  import opened Outbox
  import opened OutboxProtocol

  predicate Holding(worker: Worker) { worker.Selected? || worker.Busy? || worker.Marking? || worker.Writing? }

  function Deadline(worker: Worker): real
    requires Holding(worker)
  {
    if worker.Selected? then worker.at + LOCK_SECONDS else worker.deadline
  }

  function Ids(todo: seq<Item>): seq<nat> {
    seq(|todo|, i requires 0 <= i < |todo| => todo[i].id)
  }

  /** The events a worker is working on. */
  function Held(worker: Worker): seq<nat> {
    match worker
    case Selected(picked, _) => picked
    case Busy(todo, _) => Ids(todo)
    case Marking(item, _, todo, _) => [item.id] + Ids(todo)
    case Writing(item, _, todo, _, _, _) => [item.id] + Ids(todo)
    case _ => []
  }

  predicate Holds(s: State, w: nat, id: nat) { w in s.workers && id in Held(s.workers[w]) }

  ghost predicate TimelyStep(s: State, l: Label, id: nat) {
    l.Tick? ==> forall w :: Holds(s, w, id) ==> s.now + l.seconds <= Deadline(s.workers[w])
  }

  ghost predicate Timely(start: real, ls: seq<Label>, id: nat)
    requires Valid(start, ls)
  {
    ls == [] || (Timely(start, Init(ls), id) && TimelyStep(Exec(start, Init(ls)), Last(ls), id))
  }

  ghost predicate CrashFree(ls: seq<Label>) {
    forall i :: 0 <= i < |ls| ==> !ls[i].Crash?
  }

  // ---------------------------------------------------------------- the lease invariant

  /** A claim in progress sees the row unclaimed; after it, the row carries the worker's lease. */
  ghost predicate LeaseOk(s: State, w: nat, id: nat) {
    Holds(s, w, id) ==>
      var worker := s.workers[w];
      && s.now <= Deadline(worker)
      && id in s.rows
      && (worker.Selected? ==> Eligible(s.rows[id], worker.at) && worker.at <= s.now)
      && (!worker.Selected? ==> s.rows[id].status == Pending && s.rows[id].lockedUntil == Some(worker.deadline))
      && (worker.Writing? && worker.item.id == id ==>
            worker.loaded == s.rows[id] && worker.final.status == (if worker.failure.None? then Published else Pending))
  }

  /** No worker has an event twice. */
  ghost predicate BatchOk(s: State, w: nat) { w in s.workers ==> Distinct(Held(s.workers[w])) }

  ghost predicate BatchesOk(s: State) { forall w :: BatchOk(s, w) }

  ghost predicate LeasesOk(s: State, id: nat) { forall w :: LeaseOk(s, w, id) }

  ghost predicate Exclusive(s: State, id: nat) {
    forall w, v :: Holds(s, w, id) && Holds(s, v, id) ==> w == v
  }

  ghost predicate Acts(l: Label, w: nat) {
    !l.Append? && !l.Tick? && l.worker == w
  }

  /** Only a holder's commit or write changes a row. */
  lemma RowFrame(s: State, l: Label, id: nat)
    requires Enabled(s, l) && id in s.rows
    requires l.Commit? || l.Write? ==> id !in Held(s.workers[l.worker])
    ensures id in Next(s, l).rows && Next(s, l).rows[id] == s.rows[id]
  {
  }

  lemma ItemsIds(t: Table, picked: seq<nat>)
    requires forall id :: id in picked ==> id in t
    ensures Ids(Items(t, picked)) == picked
  {
  }

  lemma RestHeld(todo: seq<Item>, deadline: real)
    ensures Held(Rest(todo, deadline)) == Ids(todo)
  {
  }

  /** A worker's next set of events: the same, a fresh selection, or one fewer. */
  lemma HeldAfter(s: State, l: Label, w: nat)
    requires Enabled(s, l) && w in s.workers && Acts(l, w)
    ensures w in Next(s, l).workers
    ensures var before, after := Held(s.workers[w]), Held(Next(s, l).workers[w]);
      match l
      case Select(_, _, ids) => after == ids && before == []
      case Write(_) => after == before[1..] && before != [] && before[0] == s.workers[w].item.id
      case Crash(_) => after == []
      case _ => after == before
  {
    match l
    case Commit(_) =>
      var deadline := s.workers[w].at + LOCK_SECONDS;
      ItemsIds(Leased(s.rows, s.workers[w].picked, deadline), s.workers[w].picked);
      RestHeld(Items(Leased(s.rows, s.workers[w].picked, deadline), s.workers[w].picked), deadline);
    case Publish(_, _) =>
      var todo := s.workers[w].todo;
      assert Ids(todo) == [todo[0].id] + Ids(todo[1..]);
    case Write(_) =>
      RestHeld(s.workers[w].todo, s.workers[w].deadline);
    case _ =>
  }

  lemma BatchKept(s: State, l: Label, w: nat)
    requires Enabled(s, l) && BatchOk(s, w)
    ensures BatchOk(Next(s, l), w)
  {
    if w in s.workers && Acts(l, w) {
      HeldAfter(s, l, w);
    }
  }

  lemma {:induction false} BatchesHold(start: real, ls: seq<Label>)
    requires Valid(start, ls)
    ensures BatchesOk(Exec(start, ls))
  {
    if ls != [] {
      BatchesHold(start, Init(ls));
      forall w
        ensures BatchOk(Exec(start, ls), w)
      {
        BatchKept(Exec(start, Init(ls)), Last(ls), w);
      }
    }
  }

  /** Nobody holds what a claim selects. */
  lemma SelectionIsFree(s: State, w: nat, limit: nat, ids: seq<nat>, v: nat, id: nat)
    requires LeasesOk(s, id) && Enabled(s, Select(w, limit, ids)) && id in ids
    ensures !Holds(s, v, id)
  {
    assert LeaseOk(s, v, id);
    assert id in Candidates(s.rows, LockedRows(s), s.now);
    assert v in s.workers && s.workers[v].Selected? && id in s.workers[v].picked ==> Locked(s, id);
  }

  lemma HeldComesFrom(s: State, l: Label, w: nat, id: nat)
    requires Enabled(s, l) && Holds(Next(s, l), w, id)
    ensures w in s.workers
    ensures Holds(s, w, id) || (l.Select? && l.worker == w && id in l.ids)
  {
    if w in s.workers && Acts(l, w) {
      HeldAfter(s, l, w);
    }
  }

  lemma ExclusiveKept(s: State, l: Label, id: nat)
    requires LeasesOk(s, id) && Exclusive(s, id) && Enabled(s, l)
    ensures Exclusive(Next(s, l), id)
  {
    forall w: nat, v: nat | Holds(Next(s, l), w, id) && Holds(Next(s, l), v, id)
      ensures w == v
    {
      HeldComesFrom(s, l, w, id);
      HeldComesFrom(s, l, v, id);
      if l.Select? && id in l.ids && l.worker in {w, v} {
        SelectionIsFree(s, l.worker, l.limit, l.ids, v, id);
        SelectionIsFree(s, l.worker, l.limit, l.ids, w, id);
      }
    }
  }

  lemma CommittedLeaseOk(s: State, w: nat, id: nat)
    requires LeaseOk(s, w, id) && Enabled(s, Commit(w))
    ensures LeaseOk(Next(s, Commit(w)), w, id)
  {
    HeldAfter(s, Commit(w), w);
  }

  lemma PublishedLeaseOk(s: State, w: nat, failure: Option<string>, id: nat)
    requires LeaseOk(s, w, id) && Enabled(s, Publish(w, failure))
    ensures LeaseOk(Next(s, Publish(w, failure)), w, id)
  {
    HeldAfter(s, Publish(w, failure), w);
  }

  lemma LoadedLeaseOk(s: State, w: nat, id: nat)
    requires LeaseOk(s, w, id) && Enabled(s, Load(w))
    ensures LeaseOk(Next(s, Load(w)), w, id)
  {
    HeldAfter(s, Load(w), w);
  }

  lemma WrittenLeaseOk(s: State, w: nat, id: nat)
    requires LeaseOk(s, w, id) && BatchOk(s, w) && Enabled(s, Write(w))
    ensures LeaseOk(Next(s, Write(w)), w, id)
  {
    HeldAfter(s, Write(w), w);
    var before := Held(s.workers[w]);
    if id in before[1..] {
      assert id in before && id != before[0];
    }
  }

  /** Leases of workers that did not act. */
  lemma OtherLeaseKept(s: State, l: Label, w: nat, id: nat)
    requires LeasesOk(s, id) && Exclusive(s, id) && Enabled(s, l) && TimelyStep(s, l, id) && !Acts(l, w)
    ensures LeaseOk(Next(s, l), w, id)
  {
    if Holds(Next(s, l), w, id) {
      HeldComesFrom(s, l, w, id);
      assert LeaseOk(s, w, id);
      if l.Commit? || l.Write? {
        assert !Holds(s, l.worker, id);
      }
      RowFrame(s, l, id);
    }
  }

  lemma LeaseKept(s: State, l: Label, w: nat, id: nat)
    requires LeasesOk(s, id) && Exclusive(s, id) && BatchesOk(s) && Enabled(s, l) && TimelyStep(s, l, id)
    ensures LeaseOk(Next(s, l), w, id)
  {
    assert LeaseOk(s, w, id) && BatchOk(s, w);
    if !Acts(l, w) {
      OtherLeaseKept(s, l, w, id);
    } else {
      match l
      case Commit(_) => CommittedLeaseOk(s, w, id);
      case Publish(_, failure) => PublishedLeaseOk(s, w, failure, id);
      case Load(_) => LoadedLeaseOk(s, w, id);
      case Write(_) => WrittenLeaseOk(s, w, id);
      case _ =>
    }
  }

  lemma {:induction false} LeasesHold(start: real, ls: seq<Label>, id: nat)
    requires Valid(start, ls) && Timely(start, ls, id)
    ensures LeasesOk(Exec(start, ls), id) && Exclusive(Exec(start, ls), id)
  {
    if ls != [] {
      var s, l := Exec(start, Init(ls)), Last(ls);
      LeasesHold(start, Init(ls), id);
      BatchesHold(start, Init(ls));
      ExclusiveKept(s, l, id);
      forall w
        ensures LeaseOk(Exec(start, ls), w, id)
      {
        LeaseKept(s, l, w, id);
      }
    }
  }

  /** No two workers ever hold the event, claims in progress included. */
  lemma LeaseExclusion(start: real, ls: seq<Label>, w: nat, v: nat, id: nat)
    requires Valid(start, ls) && Timely(start, ls, id) && w != v
    ensures !(Holds(Exec(start, ls), w, id) && Holds(Exec(start, ls), v, id))
  {
    LeasesHold(start, ls, id);
  }

  // ---------------------------------------------------------------- published is final

  lemma PublishedStays(s: State, l: Label, id: nat)
    requires LeasesOk(s, id) && Enabled(s, l) && id in s.rows && s.rows[id].status == Published
    ensures id in Next(s, l).rows && Next(s, l).rows[id] == s.rows[id]
  {
    if l.Commit? || l.Write? {
      assert LeaseOk(s, l.worker, id);
    }
    RowFrame(s, l, id);
  }

  lemma {:induction false} PublishedIsFinal(start: real, ls: seq<Label>, n: nat, id: nat)
    requires Valid(start, ls) && Timely(start, ls, id) && n <= |ls| && Valid(start, ls[..n])
    requires id in Exec(start, ls[..n]).rows && Exec(start, ls[..n]).rows[id].status == Published
    ensures id in Exec(start, ls).rows && Exec(start, ls).rows[id] == Exec(start, ls[..n]).rows[id]
  {
    if n == |ls| {
      assert ls[..n] == ls;
    } else {
      assert Init(ls)[..n] == ls[..n];
      PublishedIsFinal(start, Init(ls), n, id);
      LeasesHold(start, Init(ls), id);
      PublishedStays(Exec(start, Init(ls)), Last(ls), id);
    }
  }

  // ---------------------------------------------------------------- how often

  /** A publication that succeeded and is not marked yet. */
  ghost predicate Unmarked(s: State, w: nat, id: nat) {
    && w in s.workers
    && var worker := s.workers[w];
    (worker.Marking? || worker.Writing?) && worker.failure.None? && worker.item.id == id
  }

  lemma UnmarkedIsHeld(s: State, id: nat)
    ensures forall w :: Unmarked(s, w, id) ==> id in Held(s.workers[w])
  {
    forall w | Unmarked(s, w, id)
      ensures id in Held(s.workers[w])
    {
      assert Held(s.workers[w])[0] == id;
    }
  }

  /** The row is marked published, or about to be. */
  ghost predicate Delivered(s: State, id: nat) {
    (id in s.rows && s.rows[id].status == Published) || exists w :: Unmarked(s, w, id)
  }

  /** The step is a crash between publishing the event and marking it. */
  ghost predicate LosesMark(s: State, l: Label, id: nat) {
    l.Crash? && Unmarked(s, l.worker, id)
  }

  ghost predicate CountIs(s: State, id: nat, losses: nat) {
    s.broker[id] == losses + (if Delivered(s, id) then 1 else 0)
  }

  /** Steps that neither publish nor write nor crash leave everything the count depends on. */
  lemma QuietCount(s: State, l: Label, id: nat, losses: nat)
    requires Enabled(s, l) && CountIs(s, id, losses) && !l.Crash? && !l.Publish? && !l.Write?
    ensures CountIs(Next(s, l), id, losses)
  {
    var s' := Next(s, l);
    assert s'.broker == s.broker;
    forall w
      ensures Unmarked(s', w, id) <==> Unmarked(s, w, id)
    {
    }
  }

  /** The holder of an event is the only one that can have it unmarked. */
  lemma OnlyHolder(s: State, w: nat, id: nat)
    requires Exclusive(s, id) && Holds(s, w, id)
    ensures forall v :: Unmarked(s, v, id) ==> v == w
  {
    UnmarkedIsHeld(s, id);
    assert forall v :: Unmarked(s, v, id) ==> Holds(s, v, id);
  }

  /** What others have unmarked does not change. */
  lemma OthersUnmarked(s: State, l: Label, w: nat, id: nat)
    requires Enabled(s, l) && w in s.workers && Acts(l, w) && !l.Join?
    ensures forall v :: v != w ==> (Unmarked(Next(s, l), v, id) <==> Unmarked(s, v, id))
  {
  }

  lemma PublishCount(s: State, w: nat, failure: Option<string>, id: nat, losses: nat)
    requires LeasesOk(s, id) && Exclusive(s, id) && Enabled(s, Publish(w, failure)) && CountIs(s, id, losses)
    ensures CountIs(Next(s, Publish(w, failure)), id, losses)
  {
    var s' := Next(s, Publish(w, failure));
    var mine := s.workers[w].todo[0].id;
    assert LeaseOk(s, w, id);
    assert Held(s.workers[w])[0] == mine;
    if id == mine {
      OnlyHolder(s, w, id);
    }
    OthersUnmarked(s, Publish(w, failure), w, id);
    assert !Unmarked(s, w, id);
    assert Unmarked(s', w, id) <==> id == mine && failure.None?;
  }

  lemma WriteCount(s: State, w: nat, id: nat, losses: nat)
    requires LeasesOk(s, id) && Exclusive(s, id) && Enabled(s, Write(w)) && CountIs(s, id, losses)
    ensures CountIs(Next(s, Write(w)), id, losses)
  {
    var s' := Next(s, Write(w));
    var mine := s.workers[w].item.id;
    assert LeaseOk(s, w, id);
    assert Held(s.workers[w])[0] == mine;
    if id == mine {
      OnlyHolder(s, w, id);
    }
    OthersUnmarked(s, Write(w), w, id);
    assert !Unmarked(s', w, id);
    assert Unmarked(s, w, id) <==> id == mine && s.workers[w].failure.None?;
  }

  lemma CrashCount(s: State, w: nat, id: nat, losses: nat)
    requires LeasesOk(s, id) && Exclusive(s, id) && Enabled(s, Crash(w)) && CountIs(s, id, losses)
    ensures CountIs(Next(s, Crash(w)), id, losses + (if LosesMark(s, Crash(w), id) then 1 else 0))
  {
    UnmarkedIsHeld(s, id);
    OthersUnmarked(s, Crash(w), w, id);
    assert !Unmarked(Next(s, Crash(w)), w, id);
    if Unmarked(s, w, id) {
      assert LeaseOk(s, w, id);
      OnlyHolder(s, w, id);
    }
  }

  /** How often a crash lost the mark of an event that had been published. */
  ghost function Losses(start: real, ls: seq<Label>, id: nat): nat
    requires Valid(start, ls)
  {
    if ls == [] then 0
    else Losses(start, Init(ls), id) + (if LosesMark(Exec(start, Init(ls)), Last(ls), id) then 1 else 0)
  }

  /** Crashes included, an event has been successfully published once for every mark a crash lost,
      and once more if its mark is committed or still to come. */
  lemma {:induction false} PublicationsCounted(start: real, ls: seq<Label>, id: nat)
    requires Valid(start, ls) && Timely(start, ls, id)
    ensures Exec(start, ls).broker[id] == Losses(start, ls, id) + (if Delivered(Exec(start, ls), id) then 1 else 0)
  {
    if ls != [] {
      var s, l, losses := Exec(start, Init(ls)), Last(ls), Losses(start, Init(ls), id);
      PublicationsCounted(start, Init(ls), id);
      LeasesHold(start, Init(ls), id);
      match l
      case Publish(w, failure) => PublishCount(s, w, failure, id, losses);
      case Write(w) => WriteCount(s, w, id, losses);
      case Crash(w) => CrashCount(s, w, id, losses);
      case _ => QuietCount(s, l, id, losses);
    }
  }

  /** At most once, exactly when: no crash lost the event's mark, or one did and the event has not
      been published again. */
  lemma AtMostOnceExactlyWhen(start: real, ls: seq<Label>, id: nat)
    requires Valid(start, ls) && Timely(start, ls, id)
    ensures Exec(start, ls).broker[id] <= 1 <==>
      Losses(start, ls, id) == 0 || (Losses(start, ls, id) == 1 && !Delivered(Exec(start, ls), id))
  {
    PublicationsCounted(start, ls, id);
  }

  lemma {:induction false} NoCrashNoLoss(start: real, ls: seq<Label>, id: nat)
    requires Valid(start, ls) && CrashFree(ls)
    ensures Losses(start, ls, id) == 0
  {
    if ls != [] {
      assert forall i :: 0 <= i < |Init(ls)| ==> Init(ls)[i] == ls[i];
      NoCrashNoLoss(start, Init(ls), id);
    }
  }

  /** Without crashes every event is successfully published at most once; and once its mark is
      committed, exactly once. */
  lemma AtMostOnce(start: real, ls: seq<Label>, id: nat)
    requires Valid(start, ls) && Timely(start, ls, id) && CrashFree(ls)
    ensures Exec(start, ls).broker[id] <= 1
    ensures id in Exec(start, ls).rows && Exec(start, ls).rows[id].status == Published ==>
      Exec(start, ls).broker[id] == 1
  {
    PublicationsCounted(start, ls, id);
    NoCrashNoLoss(start, ls, id);
  }
}
