/** The outbox with any number of workers, a clock, crashes and a broker that receives what they
    publish. A worker leases a batch in one transaction, publishes outside any transaction, and
    marks each event in a transaction of its own that first loads the row and then writes the
    columns it changed. */
module OutboxProtocol {
  import opened Common
  import opened Outbox

  /** `Selected` holds row locks until its claim commits. `Marking` knows how the publication of
      `item` ended; `Writing` has loaded the row and decided what it should become. */
  datatype Worker =
    | Idle
    | Selected(picked: seq<nat>, at: real)
    | Busy(todo: seq<Item>, deadline: real)
    | Marking(item: Item, failure: Option<string>, todo: seq<Item>, deadline: real)
    | Writing(item: Item, failure: Option<string>, todo: seq<Item>, deadline: real, loaded: Row, final: Row)
    | Dead

  /** `broker[id]` counts the successful publications of an event. */
  datatype State = State(rows: Table, workers: map<nat, Worker>, now: real, broker: multiset<nat>)

  datatype Label =
    | Append(event: Envelope)
    | Join(worker: nat)
    | Select(worker: nat, limit: nat, ids: seq<nat>)
    | Commit(worker: nat)
    | Publish(worker: nat, failure: Option<string>)
    | Load(worker: nat)
    | Write(worker: nat)
    | Crash(worker: nat)
    | Tick(seconds: real)

  function Initial(start: real): State { State(map[], map[], start, multiset{}) }

  /** Rows locked by claims that have selected and not committed. */
  ghost predicate Locked(s: State, id: nat) {
    exists w :: w in s.workers && s.workers[w].Selected? && id in s.workers[w].picked
  }

  ghost function LockedRows(s: State): set<nat> {
    set id | id in s.rows && Locked(s, id)
  }

  ghost predicate Enabled(s: State, l: Label) {
    match l
    case Append(e) => e.eventId !in s.rows && forall id :: id in s.rows ==> !SameKey(s.rows[id].event, e)
    case Join(w) => w !in s.workers
    case Select(w, limit, ids) => w in s.workers && s.workers[w].Idle? &&
      Selection(s.rows, LockedRows(s), s.now, limit, ids)
    case Commit(w) =>
      w in s.workers && s.workers[w].Selected? && forall id :: id in s.workers[w].picked ==> id in s.rows
    case Publish(w, _) => w in s.workers && s.workers[w].Busy? && s.workers[w].todo != []
    case Load(w) => w in s.workers && s.workers[w].Marking? && s.workers[w].item.id in s.rows
    case Write(w) => w in s.workers && s.workers[w].Writing? && s.workers[w].item.id in s.rows &&
      !Locked(s, s.workers[w].item.id)
    case Crash(w) => w in s.workers && !s.workers[w].Dead?
    case Tick(d) => d >= 0.0
  }

  function Rest(todo: seq<Item>, deadline: real): Worker {
    if todo == [] then Idle else Busy(todo, deadline)
  }

  function Flush(current: Row, loaded: Row, final: Row): Row {
    Row(current.event,
        Written(current.status, loaded.status, final.status),
        Written(current.attempts, loaded.attempts, final.attempts),
        Written(current.availableAt, loaded.availableAt, final.availableAt),
        Written(current.lockedUntil, loaded.lockedUntil, final.lockedUntil),
        Written(current.publishedAt, loaded.publishedAt, final.publishedAt),
        Written(current.lastError, loaded.lastError, final.lastError),
        current.createdAt)
  }

  /** The acting worker's next phase. */
  function Advance(s: State, w: nat, l: Label): Worker
    requires w in s.workers
    requires l.Commit? ==> s.workers[w].Selected? && forall id :: id in s.workers[w].picked ==> id in s.rows
    requires l.Publish? ==> s.workers[w].Busy? && s.workers[w].todo != []
    requires l.Load? ==> s.workers[w].Marking? && s.workers[w].item.id in s.rows
    requires l.Write? ==> s.workers[w].Writing?
  {
    var worker := s.workers[w];
    match l
    case Select(_, _, ids) => Selected(ids, s.now)
    case Commit(_) =>
      var deadline := worker.at + LOCK_SECONDS;
      Rest(Items(Leased(s.rows, worker.picked, deadline), worker.picked), deadline)
    case Publish(_, failure) => Marking(worker.todo[0], failure, worker.todo[1..], worker.deadline)
    case Load(_) =>
      var row := s.rows[worker.item.id];
      Writing(worker.item, worker.failure, worker.todo, worker.deadline, row,
        Mark(row, worker.item, worker.failure, s.now))
    case Write(_) => Rest(worker.todo, worker.deadline)
    case Crash(_) => Dead
    case _ => worker
  }

  function NextRows(s: State, l: Label): Table
    requires l.Commit? ==> l.worker in s.workers && s.workers[l.worker].Selected?
    requires l.Write? ==> l.worker in s.workers && s.workers[l.worker].Writing? && s.workers[l.worker].item.id in s.rows
  {
    match l
    case Append(e) => s.rows[e.eventId := Outbox.NewRow(e, s.now)]
    case Commit(w) => Leased(s.rows, s.workers[w].picked, s.workers[w].at + LOCK_SECONDS)
    case Write(w) =>
      var id := s.workers[w].item.id;
      s.rows[id := Flush(s.rows[id], s.workers[w].loaded, s.workers[w].final)]
    case _ => s.rows
  }

  ghost function Next(s: State, l: Label): State
    requires Enabled(s, l)
  {
    match l
    case Append(e) => s.(rows := NextRows(s, l))
    case Join(w) => s.(workers := s.workers[w := Idle])
    case Tick(d) => s.(now := s.now + d)
    case Publish(w, failure) =>
      s.(workers := s.workers[w := Advance(s, w, l)],
         broker := if failure.None? then s.broker + multiset{s.workers[w].todo[0].id} else s.broker)
    case _ => s.(rows := NextRows(s, l), workers := s.workers[l.worker := Advance(s, l.worker, l)])
  }

  ghost predicate Valid(start: real, ls: seq<Label>)
    decreases |ls|, 0
  {
    ls == [] || (Valid(start, Init(ls)) && Enabled(Exec(start, Init(ls)), Last(ls)))
  }

  ghost function Exec(start: real, ls: seq<Label>): State
    requires Valid(start, ls)
    decreases |ls|, 1
  {
    if ls == [] then Initial(start) else Next(Exec(start, Init(ls)), Last(ls))
  }

  // ---------------------------------------------------------------- whatever the timing

  ghost predicate RowOk(s: State, id: nat) {
    && id in s.rows
    && var row := s.rows[id];
    && row.event.eventId == id
    && (row.publishedAt.Some? ==> id in s.broker)
    && (row.status == Published ==> row.publishedAt.Some?)
    && row.availableAt <= s.now + 256.0
    && (row.lockedUntil.Some? ==> row.lockedUntil.value <= s.now + LOCK_SECONDS)
  }

  ghost predicate WorkerOk(s: State, w: nat) {
    && w in s.workers
    && var worker := s.workers[w];
    && (worker.Selected? ==> worker.at <= s.now && forall id :: id in worker.picked ==> id in s.rows)
    && (worker.Busy? || worker.Marking? || worker.Writing? ==>
          forall i :: 0 <= i < |worker.todo| ==> worker.todo[i].id in s.rows)
    && (worker.Marking? || worker.Writing? ==>
       worker.item.id in s.rows && (worker.failure.None? ==> worker.item.id in s.broker))
    && (worker.Writing? ==> WriteOk(s, worker))
  }

  /** A mark about to be written: it changes neither identity nor attempts, a publication date in
      it is backed by the broker, and a date it does not set was not there when it loaded. */
  ghost predicate WriteOk(s: State, worker: Worker)
    requires worker.Writing? && worker.item.id in s.rows
  {
    var loaded, final, row := worker.loaded, worker.final, s.rows[worker.item.id];
    && final.attempts == loaded.attempts
    && (loaded.publishedAt.Some? ==> row.publishedAt.Some?)
    && (final.publishedAt != loaded.publishedAt ==> final.publishedAt.Some? && worker.failure.None?)
    && (final.status == Published ==> final.publishedAt.Some?)
    && (loaded.status == Published ==> loaded.publishedAt.Some?)
    && final.availableAt <= s.now + 256.0
    && final.lockedUntil.None?
  }

  ghost predicate KeysOk(s: State) { WellKeyed(s.rows) }

  ghost predicate Inv(s: State) {
    && KeysOk(s)
    && (forall id :: id in s.rows ==> RowOk(s, id))
    && (forall w :: w in s.workers ==> WorkerOk(s, w))
  }

  /** What never changes about a row. */
  ghost predicate Persists(t: Table, t': Table) {
    forall id :: id in t ==> id in t' && t'[id].event == t[id].event && t'[id].createdAt == t[id].createdAt
  }

  lemma StepPersists(s: State, l: Label)
    requires Enabled(s, l)
    ensures Persists(s.rows, Next(s, l).rows)
    ensures s.broker <= Next(s, l).broker && s.now <= Next(s, l).now
  {
  }

  lemma KeysKept(s: State, l: Label)
    requires KeysOk(s) && Enabled(s, l)
    ensures KeysOk(Next(s, l))
  {
    StepPersists(s, l);
    var s' := Next(s, l);
    forall a, b | a in s'.rows && b in s'.rows && SameKey(s'.rows[a].event, s'.rows[b].event)
      ensures a == b
    {
      if l.Append? && (a !in s.rows || b !in s.rows) {
        assert SameKey(s'.rows[b].event, s'.rows[a].event);
      }
    }
  }

  lemma WrittenRowOk(s: State, w: nat)
    requires Inv(s) && Enabled(s, Write(w))
    ensures RowOk(Next(s, Write(w)), s.workers[w].item.id)
  {
    assert WorkerOk(s, w) && RowOk(s, s.workers[w].item.id);
  }

  lemma RowsKept(s: State, l: Label, id: nat)
    requires Inv(s) && Enabled(s, l) && id in Next(s, l).rows
    ensures RowOk(Next(s, l), id)
  {
    if id in s.rows {
      assert RowOk(s, id);
    }
    if l.Write? && s.workers[l.worker].item.id == id {
      WrittenRowOk(s, l.worker);
    } else if l.Commit? {
      assert WorkerOk(s, l.worker);
    }
  }

  /** Marks stay sound while other workers write. */
  lemma WriteStaysOk(s: State, l: Label, w: nat)
    requires Inv(s) && Enabled(s, l) && w in s.workers && s.workers[w].Writing?
    requires w in Next(s, l).workers && Next(s, l).workers[w] == s.workers[w]
    ensures s.workers[w].item.id in Next(s, l).rows && WriteOk(Next(s, l), s.workers[w])
  {
    assert WorkerOk(s, w);
    StepPersists(s, l);
    if l.Write? {
      assert WorkerOk(s, l.worker);
    }
  }

  lemma LoadedOk(s: State, w: nat)
    requires Inv(s) && Enabled(s, Load(w))
    ensures WorkerOk(Next(s, Load(w)), w)
  {
    var item := s.workers[w].item;
    assert WorkerOk(s, w) && RowOk(s, item.id);
    DelayIsCappedDoubling(item.attempts, item.attempts);
  }

  lemma CommittedOk(s: State, w: nat)
    requires Inv(s) && Enabled(s, Commit(w))
    ensures WorkerOk(Next(s, Commit(w)), w)
  {
    assert WorkerOk(s, w);
    var picked := s.workers[w].picked;
    assert forall i :: 0 <= i < |picked| ==> picked[i] in picked;
  }

  lemma WorkersKept(s: State, l: Label, w: nat)
    requires Inv(s) && Enabled(s, l) && w in Next(s, l).workers
    ensures WorkerOk(Next(s, l), w)
  {
    StepPersists(s, l);
    if w in s.workers {
      assert WorkerOk(s, w);
      if l == Load(w) {
        LoadedOk(s, w);
      } else if l == Commit(w) {
        CommittedOk(s, w);
      } else if s.workers[w].Writing? && Next(s, l).workers[w] == s.workers[w] {
        WriteStaysOk(s, l, w);
      }
    }
  }

  lemma InvKept(s: State, l: Label)
    requires Inv(s) && Enabled(s, l)
    ensures Inv(Next(s, l))
  {
    KeysKept(s, l);
    forall id | id in Next(s, l).rows
      ensures RowOk(Next(s, l), id)
    {
      RowsKept(s, l, id);
    }
    forall w | w in Next(s, l).workers
      ensures WorkerOk(Next(s, l), w)
    {
      WorkersKept(s, l, w);
    }
  }

  lemma {:induction false} InvHolds(start: real, ls: seq<Label>)
    requires Valid(start, ls)
    ensures Inv(Exec(start, ls))
  {
    if ls != [] {
      InvHolds(start, Init(ls));
      InvKept(Exec(start, Init(ls)), Last(ls));
    }
  }

  /** At least once: a row with a publication date was successfully published, however many
      workers are stale or crashed. */
  lemma PublishedWasDelivered(start: real, ls: seq<Label>, id: nat)
    requires Valid(start, ls) && id in Exec(start, ls).rows
    requires Exec(start, ls).rows[id].publishedAt.Some? || Exec(start, ls).rows[id].status == Published
    ensures id in Exec(start, ls).broker
  {
    InvHolds(start, ls);
    assert RowOk(Exec(start, ls), id);
  }

  /** Nothing is lost: every row stays, with its content, under its own id; and no two rows share
      a producer and key. */
  lemma {:induction false} NothingIsLost(start: real, ls: seq<Label>, n: nat)
    requires Valid(start, ls) && n <= |ls|
    ensures Valid(start, ls[..n]) && Persists(Exec(start, ls[..n]).rows, Exec(start, ls).rows)
    ensures WellKeyed(Exec(start, ls).rows)
  {
    InvHolds(start, ls);
    if n == |ls| {
      assert ls[..n] == ls;
    } else {
      assert Init(ls)[..n] == ls[..n];
      NothingIsLost(start, Init(ls), n);
      StepPersists(Exec(start, Init(ls)), Last(ls));
    }
  }

  /** No row gets stuck: a pending row nobody touches can be claimed 256 seconds from now at the
      latest. */
  lemma NeverStuck(start: real, ls: seq<Label>, id: nat, later: real)
    requires Valid(start, ls) && id in Exec(start, ls).rows && Exec(start, ls).rows[id].status == Pending
    requires later >= Exec(start, ls).now + 256.0
    ensures Eligible(Exec(start, ls).rows[id], later)
  {
    InvHolds(start, ls);
    assert RowOk(Exec(start, ls), id);
  }

  /** How often a row was claimed in a run. */
  ghost function Claims(start: real, ls: seq<Label>, id: nat): nat
    requires Valid(start, ls)
  {
    if ls == [] then 0
    else
      var s, l := Exec(start, Init(ls)), Last(ls);
      Claims(start, Init(ls), id) + (if l.Commit? && id in s.workers[l.worker].picked then 1 else 0)
  }

  /** `attempts` counts claims, and only them: marks never touch it. */
  lemma {:induction false} AttemptsCountClaims(start: real, ls: seq<Label>, id: nat)
    requires Valid(start, ls)
    ensures id in Exec(start, ls).rows ==> Exec(start, ls).rows[id].attempts == Claims(start, ls, id)
    ensures id !in Exec(start, ls).rows ==> Claims(start, ls, id) == 0
  {
    if ls != [] {
      var s, l := Exec(start, Init(ls)), Last(ls);
      AttemptsCountClaims(start, Init(ls), id);
      InvHolds(start, Init(ls));
      if l.Write? {
        assert WorkerOk(s, l.worker);
      }
    }
  }

  // ---------------------------------------------------------------- claims in progress

  /** The worker has selected the row and not committed its claim. */
  ghost predicate Picks(s: State, w: nat, id: nat) {
    w in s.workers && s.workers[w].Selected? && id in s.workers[w].picked
  }

  lemma PickedWasFree(s: State, l: Label, w: nat, v: nat, id: nat)
    requires Enabled(s, l) && Picks(Next(s, l), w, id) && !Picks(s, w, id)
    ensures !Picks(s, v, id)
  {
    assert l.Select? && l.worker == w && id in Candidates(s.rows, LockedRows(s), s.now);
    assert Picks(s, v, id) ==> Locked(s, id);
  }

  /** Claims running at the same time return disjoint rows, whatever the timing. */
  lemma {:induction false} ConcurrentClaimsDisjoint(start: real, ls: seq<Label>, w: nat, v: nat, id: nat)
    requires Valid(start, ls) && Picks(Exec(start, ls), w, id) && Picks(Exec(start, ls), v, id)
    ensures w == v
  {
    if ls != [] {
      var s, l := Exec(start, Init(ls)), Last(ls);
      if Picks(s, w, id) && Picks(s, v, id) {
        ConcurrentClaimsDisjoint(start, Init(ls), w, v, id);
      } else if !Picks(s, w, id) {
        PickedWasFree(s, l, w, v, id);
      } else {
        PickedWasFree(s, l, v, w, id);
      }
    }
  }
}
