/** The transactional outbox table (`EventRepository`) and one pass of its delivery worker
    (`OutboxWorker.run_once`). Times are reals in seconds. */
module Outbox {
  import opened Common

  datatype Envelope = Envelope(
    eventId: nat,
    eventType: string,
    aggregateType: string,
    aggregateId: string,
    occurredAt: real,
    producer: string,
    idempotencyKey: string,
    payload: string,
    metadata: string)

  datatype Status = Pending | Published

  datatype Row = Row(
    event: Envelope,
    status: Status,
    attempts: nat,
    availableAt: real,
    lockedUntil: Option<real>,
    publishedAt: Option<real>,
    lastError: Option<string>,
    createdAt: real)

  type Table = map<nat, Row>

  const LOCK_SECONDS: real := 60.0
  const MAX_ERROR: nat := 4000

  // ---------------------------------------------------------------- appending

  predicate SameKey(a: Envelope, b: Envelope) {
    a.producer == b.producer && a.idempotencyKey == b.idempotencyKey
  }

  /** Primary key and unique constraint. */
  ghost predicate WellKeyed(t: Table) {
    && (forall id :: id in t ==> t[id].event.eventId == id)
    && (forall a, b :: a in t && b in t && SameKey(t[a].event, t[b].event) ==> a == b)
  }

  function NewRow(e: Envelope, now: real): Row { Row(e, Pending, 0, now, None, None, None, now) }

  /** `IdTaken` is the primary-key violation, which the insert does not absorb. */
  datatype AppendResult = Inserted(id: nat) | Duplicate(id: nat) | IdTaken

  ghost predicate IsAppend(t: Table, e: Envelope, now: real, r: AppendResult, t': Table) {
    match r
    case Duplicate(id) => t' == t && id in t && SameKey(t[id].event, e)
    case IdTaken => t' == t && e.eventId in t && forall id :: id in t ==> !SameKey(t[id].event, e)
    case Inserted(id) =>
      && id == e.eventId && id !in t && (forall k :: k in t ==> !SameKey(t[k].event, e))
      && t' == t[id := NewRow(e, now)]
  }

  /** The contract of `append` leaves it no choice. */
  lemma AppendIsDetermined(t: Table, e: Envelope, now: real, r: AppendResult, t1: Table, r': AppendResult, t2: Table)
    requires WellKeyed(t) && IsAppend(t, e, now, r, t1) && IsAppend(t, e, now, r', t2)
    ensures r == r' && t1 == t2 && WellKeyed(t1)
  {
    if r.Duplicate? && r'.Duplicate? {
      assert SameKey(t[r.id].event, t[r'.id].event);
    }
  }

  // ---------------------------------------------------------------- claiming

  predicate Eligible(row: Row, now: real) {
    && row.status == Pending
    && row.availableAt <= now
    && (row.lockedUntil.None? || row.lockedUntil.value < now)
  }

  /** What the claim query ranges over: `locked` are the rows other transactions hold, which
      `SKIP LOCKED` passes over. */
  function Candidates(t: Table, locked: set<nat>, now: real): set<nat> {
    set id | id in t && Eligible(t[id], now) && id !in locked
  }

  ghost predicate Distinct(ids: seq<nat>) {
    forall i, j :: 0 <= i < j < |ids| ==> ids[i] != ids[j]
  }

  /** Everything before position `n` is at least as old as everything else. */
  ghost predicate OldestFirst(t: Table, all: set<nat>, picked: seq<nat>)
    requires all <= t.Keys
  {
    && (forall i, j :: 0 <= i < j < |picked| && picked[i] in all && picked[j] in all ==>
       t[picked[i]].createdAt <= t[picked[j]].createdAt)
    && (forall i, id :: 0 <= i < |picked| && picked[i] in all && id in all && id !in picked ==>
       t[picked[i]].createdAt <= t[id].createdAt)
  }

  /** A result of the claim query: as many candidates as the limit allows, oldest first, and no
      candidate left behind is older than one returned. Ties go either way. */
  ghost predicate Selection(t: Table, locked: set<nat>, now: real, limit: nat, picked: seq<nat>) {
    var all := Candidates(t, locked, now);
    && Distinct(picked)
    && (forall id :: id in picked ==> id in all)
    && |picked| == (if limit < |all| then limit else |all|)
    && OldestFirst(t, all, picked)
  }

  /** The same row by row: whoever is returned is pending, due, not leased and not locked by another
      claim; and unless the limit is reached, so is nobody else. */
  ghost predicate SelectsDue(t: Table, locked: set<nat>, now: real, limit: nat, picked: seq<nat>) {
    && |picked| <= limit
    && (forall i, j :: 0 <= i < j < |picked| ==> picked[i] != picked[j])
    && (forall id :: id in picked ==>
          && id in t && id !in locked && t[id].status == Pending && t[id].availableAt <= now
          && (t[id].lockedUntil == None || t[id].lockedUntil.value < now))
    && (forall id ::
          && id in t && id !in locked && t[id].status == Pending && t[id].availableAt <= now
          && (t[id].lockedUntil == None || t[id].lockedUntil.value < now) && id !in picked ==>
            |picked| == limit && forall i :: 0 <= i < limit ==> t[picked[i]].createdAt <= t[id].createdAt)
    && (forall i, j :: 0 <= i < j < |picked| ==> t[picked[i]].createdAt <= t[picked[j]].createdAt)
  }

  /** A claim that returns fewer rows than its limit leaves no candidate behind. */
  lemma SelectionIsDue(t: Table, locked: set<nat>, now: real, limit: nat, picked: seq<nat>)
    requires Selection(t, locked, now, limit, picked)
    ensures SelectsDue(t, locked, now, limit, picked)
  {
    var all, chosen := Candidates(t, locked, now), set id | id in picked;
    assert forall i :: 0 <= i < |picked| ==> picked[i] in picked;
    DistinctSize(picked, chosen);
    forall id | id in all && id !in picked
      ensures |picked| == limit
    {
      SubsetSize(chosen, all - {id});
    }
  }

  function Lease(row: Row, deadline: real): Row {
    row.(lockedUntil := Some(deadline), attempts := row.attempts + 1)
  }

  function Leased(t: Table, picked: seq<nat>, deadline: real): (t': Table)
    ensures t'.Keys == t.Keys
  {
    map id | id in t :: if id in picked then Lease(t[id], deadline) else t[id]
  }

  lemma LeaseOneMore(t: Table, picked: seq<nat>, i: nat, deadline: real)
    requires i < |picked| && Distinct(picked) && picked[i] in t
    ensures Leased(t, picked[..i], deadline)[picked[i] := Lease(t[picked[i]], deadline)] ==
      Leased(t, picked[..i + 1], deadline)
    ensures Leased(t, picked[..i], deadline)[picked[i]] == t[picked[i]]
  {
    assert picked[..i + 1] == picked[..i] + [picked[i]];
    assert picked[i] !in picked[..i];
  }

  lemma LeasedWellKeyed(t: Table, picked: seq<nat>, deadline: real)
    requires WellKeyed(t)
    ensures WellKeyed(Leased(t, picked, deadline))
  {
    var t' := Leased(t, picked, deadline);
    assert forall id :: id in t ==> t'[id].event == t[id].event;
  }

  // ---------------------------------------------------------------- marking

  function Min(a: int, b: int): int { if a < b then a else b }

  function Delay(attempts: nat): nat {
    Min(300, Pow2(Min(attempts, 8)))
  }

  lemma {:induction false} Pow2Grows(m: nat, n: nat)
    requires m <= n
    ensures 1 <= Pow2(m) <= Pow2(n)
  {
    if m < n {
      Pow2Grows(m, n - 1);
    } else if m > 0 {
      Pow2Grows(m - 1, m - 1);
    }
  }

  /** The backoff doubles up to 256 seconds and never shrinks; the outer cap of 300 never binds. */
  lemma DelayIsCappedDoubling(attempts: nat, more: nat)
    requires attempts <= more
    ensures Delay(attempts) == Pow2(Min(attempts, 8)) <= 256
    ensures Delay(attempts) <= Delay(more)
    ensures attempts < 8 ==> Delay(attempts + 1) == 2 * Delay(attempts)
  {
    Pow2Grows(Min(attempts, 8), Min(more, 8));
    assert Pow2(8) == 256 by {
      assert Pow2(4) == 16;
    }
    Pow2Grows(Min(attempts, 8), 8);
    Pow2Grows(Min(more, 8), 8);
    if attempts < 8 {
      Pow2Grows(attempts + 1, 8);
    }
  }

  function MarkedPublished(row: Row, now: real): Row {
    row.(status := Published, publishedAt := Some(now), lockedUntil := None)
  }

  function Truncated(error: string): string { if |error| <= MAX_ERROR then error else error[..MAX_ERROR] }

  /** The status is set back to pending whatever it was. */
  function MarkedRetry(row: Row, error: string, delay: nat, now: real): Row {
    row.(status := Pending, availableAt := now + delay as real, lockedUntil := None,
      lastError := Some(Truncated(error)))
  }

  // ---------------------------------------------------------------- the repository

  class EventRepository {
    var rows: Table

    ghost predicate Valid()
      reads this
    {
      WellKeyed(rows)
    }

    constructor ()
      ensures Valid() && rows == map[]
    {
      rows := map[];
    }

    method Append(e: Envelope, now: real) returns (r: AppendResult)
      requires Valid()
      modifies this
      ensures Valid() && IsAppend(old(rows), e, now, r, rows)
      // An event is a duplicate exactly when its producer has used its key before.
      ensures r.Duplicate? <==> exists id ::
        && id in old(rows)
        && old(rows)[id].event.producer == e.producer && old(rows)[id].event.idempotencyKey == e.idempotencyKey
      ensures r.Duplicate? ==>
        && r.id in rows && rows == old(rows)
        && rows[r.id].event.producer == e.producer && rows[r.id].event.idempotencyKey == e.idempotencyKey
      ensures r.IdTaken? ==> rows == old(rows) && e.eventId in rows
      ensures r.Inserted? ==>
        && r.id == e.eventId && r.id !in old(rows)
        && rows == old(rows)[r.id := Row(e, Pending, 0, now, None, None, None, now)]
    {
      if exists id :: id in rows && SameKey(rows[id].event, e) {
        var id :| id in rows && SameKey(rows[id].event, e);
        return Duplicate(id);
      }
      if e.eventId in rows {
        return IdTaken;
      }
      rows := rows[e.eventId := NewRow(e, now)];
      return Inserted(e.eventId);
    }

    /** One of the oldest rows of a non-empty set. */
    method Oldest(ids: set<nat>) returns (oldest: nat)
      requires ids != {} && ids <= rows.Keys
      ensures oldest in ids && forall id :: id in ids ==> rows[oldest].createdAt <= rows[id].createdAt
    {
      oldest :| oldest in ids;
      var rest := ids - {oldest};
      while rest != {}
        invariant oldest in ids && rest <= ids
        invariant forall id :: id in ids && id !in rest ==> rows[oldest].createdAt <= rows[id].createdAt
        decreases rest
      {
        var id :| id in rest;
        if rows[id].createdAt < rows[oldest].createdAt {
          oldest := id;
        }
        rest := rest - {id};
      }
    }

    /** The claim query, ordered and limited. */
    method Select(limit: nat, locked: set<nat>, now: real) returns (picked: seq<nat>)
      ensures Selection(rows, locked, now, limit, picked)
      ensures SelectsDue(rows, locked, now, limit, picked)
    {
      var all := Candidates(rows, locked, now);
      var left := all;
      picked := [];
      while |picked| < limit && left != {}
        invariant left <= all && |left| + |picked| == |all| && |picked| <= limit
        invariant forall id :: id in all <==> id in left || id in picked
        invariant forall id :: id in picked ==> id !in left
        invariant Distinct(picked)
        invariant OldestFirst(rows, all, picked)
        decreases left
      {
        var id := Oldest(left);
        picked := picked + [id];
        left := left - {id};
      }
      SelectionIsDue(rows, locked, now, limit, picked);
    }

    method Claim(limit: nat, locked: set<nat>, now: real) returns (picked: seq<nat>)
      requires Valid()
      modifies this
      ensures Valid()
      ensures Selection(old(rows), locked, now, limit, picked) && SelectsDue(old(rows), locked, now, limit, picked)
      ensures rows == Leased(old(rows), picked, now + LOCK_SECONDS)
      ensures rows.Keys == old(rows).Keys
      ensures forall id :: id in old(rows) ==>
        var row := old(rows)[id];
        rows[id] == if id in picked then row.(lockedUntil := Some(now + 60.0), attempts := row.attempts + 1) else row
    {
      picked := Select(limit, locked, now);
      var i := 0;
      while i < |picked|
        invariant i <= |picked| && rows == Leased(old(rows), picked[..i], now + LOCK_SECONDS)
      {
        assert picked[i] in picked;
        LeaseOneMore(old(rows), picked, i, now + LOCK_SECONDS);
        rows := rows[picked[i] := Lease(rows[picked[i]], now + LOCK_SECONDS)];
        i := i + 1;
      }
      assert picked[..i] == picked;
      LeasedWellKeyed(old(rows), picked, now + LOCK_SECONDS);
    }

    method MarkPublished(id: nat, now: real)
      requires Valid()
      modifies this
      ensures Valid()
      ensures rows == if id in old(rows) then old(rows)[id := MarkedPublished(old(rows)[id], now)] else old(rows)
      ensures id in old(rows) ==>
        rows[id] == old(rows)[id].(status := Published, publishedAt := Some(now), lockedUntil := None)
    {
      if id in rows {
        rows := rows[id := MarkedPublished(rows[id], now)];
      }
    }

    method MarkRetry(id: nat, error: string, delay: nat, now: real)
      requires Valid()
      modifies this
      ensures Valid()
      ensures rows == if id in old(rows) then old(rows)[id := MarkedRetry(old(rows)[id], error, delay, now)]
        else old(rows)
      ensures id in old(rows) ==>
        rows[id] == old(rows)[id].(status := Pending, availableAt := now + delay as real, lockedUntil := None,
          lastError := Some(if |error| <= 4000 then error else error[..4000]))
    {
      if id in rows {
        rows := rows[id := MarkedRetry(rows[id], error, delay, now)];
      }
    }
  }

  // ---------------------------------------------------------------- one pass of the worker

  /** An event object a worker holds: its id and the attempts it was claimed with. */
  datatype Item = Item(id: nat, attempts: nat)

  function Items(t: Table, picked: seq<nat>): (items: seq<Item>)
    requires forall id :: id in picked ==> id in t
    ensures |items| == |picked|
  {
    seq(|picked|, i requires 0 <= i < |picked| => Item(picked[i], t[picked[i]].attempts))
  }

  /** How publishing ends: None is success, otherwise the exception's text. */
  type Publisher = nat -> Option<string>

  /** When the outcome of each event is marked: publishing takes time. */
  type Schedule = nat -> real

  /** What a mark makes of a row. */
  function Mark(row: Row, item: Item, failure: Option<string>, now: real): Row {
    match failure
    case None => MarkedPublished(row, now)
    case Some(error) => MarkedRetry(row, error, Delay(item.attempts), now)
  }

  function MarkIn(t: Table, item: Item, failure: Option<string>, now: real): Table {
    if item.id in t then t[item.id := Mark(t[item.id], item, failure, now)] else t
  }

  /** The number of events of a batch whose publication succeeds. */
  function Successes(batch: seq<Item>, publish: Publisher): nat {
    if batch == [] then 0
    else Successes(Init(batch), publish) + (if publish(Last(batch).id).None? then 1 else 0)
  }

  /** Each event of a batch is delivered or not, once. */
  lemma {:induction false} SuccessesCounted(t: Table, picked: seq<nat>, publish: Publisher, done: set<nat>)
    requires Distinct(picked) && forall id :: id in picked ==> id in t
    requires forall id :: id in done <==> id in picked && publish(id).None?
    ensures Successes(Items(t, picked), publish) == |done|
  {
    if picked != [] {
      assert picked == Init(picked) + [Last(picked)];
      assert Init(Items(t, picked)) == Items(t, Init(picked));
      SuccessesCounted(t, Init(picked), publish, done - {Last(picked)});
    }
  }

  lemma SuccessesOneMore(batch: seq<Item>, i: nat, publish: Publisher)
    requires i < |batch|
    ensures Successes(batch[..i + 1], publish) ==
      Successes(batch[..i], publish) + (if publish(batch[i].id).None? then 1 else 0)
  {
    assert Init(batch[..i + 1]) == batch[..i];
  }

  /** The tables of a pass: `tables[0]` after its claim and `tables[i + 1]` after its `i`-th mark, which
      finds the table as other workers have left it, `others(i)`. */
  ghost predicate Traces(
    tables: seq<Table>, batch: seq<Item>, publish: Publisher, at: Schedule, others: nat -> Table)
  {
    && |tables| == |batch| + 1
    && forall i: nat :: i < |batch| ==>
         tables[i + 1] == MarkIn(others(i), batch[i], publish(batch[i].id), at(batch[i].id))
  }

  /** The body of the delivery loop for one event. */
  method Deliver(repository: EventRepository, item: Item, publish: Publisher, now: real) returns (ok: bool)
    requires repository.Valid()
    modifies repository
    ensures repository.Valid()
    ensures repository.rows == MarkIn(old(repository.rows), item, publish(item.id), now)
    ensures ok <==> publish(item.id).None?
  {
    match publish(item.id) {
      case Some(error) =>
        var delay := Delay(item.attempts);
        repository.MarkRetry(item.id, error, delay, now);
        ok := false;
      case None =>
        repository.MarkPublished(item.id, now);
        ok := true;
    }
  }

  /** The delivery loop over a claimed batch. */
  method DeliverAll(
      repository: EventRepository, events: seq<Item>, publish: Publisher, at: Schedule, others: nat -> Table)
    returns (delivered: nat, ghost tables: seq<Table>)
    requires repository.Valid() && forall i: nat :: i < |events| ==> WellKeyed(others(i))
    modifies repository
    ensures repository.Valid()
    ensures Traces(tables, events, publish, at, others)
    ensures tables[0] == old(repository.rows) && Last(tables) == repository.rows
    ensures delivered == Successes(events, publish)
  {
    delivered := 0;
    tables := [repository.rows];
    var i := 0;
    while i < |events|
      invariant i <= |events| && repository.Valid()
      invariant Traces(tables, events[..i], publish, at, others)
      invariant tables[0] == old(repository.rows) && tables[i] == repository.rows
      invariant delivered == Successes(events[..i], publish)
    {
      SuccessesOneMore(events, i, publish);
      repository.rows := others(i);
      var ok := Deliver(repository, events[i], publish, at(events[i].id));
      tables := tables + [repository.rows];
      if ok {
        delivered := delivered + 1;
      }
      i := i + 1;
    }
    assert events[..i] == events;
  }

  /** `OutboxWorker.run_once` with other workers at work around it: it claims a batch at `now`, passing
      over rows that others have locked, and marks each event of it by its own outcome, on the
      table as it finds it then. */
  method RunOnce(
      repository: EventRepository, publish: Publisher, limit: nat, locked: set<nat>, now: real, at: Schedule,
      others: nat -> Table)
    returns (delivered: nat, ghost picked: seq<nat>, ghost tables: seq<Table>)
    requires repository.Valid() && forall i: nat :: WellKeyed(others(i))
    modifies repository
    ensures repository.Valid()
    ensures Selection(old(repository.rows), locked, now, limit, picked)
    ensures |tables| == |picked| + 1 && tables[0] == Leased(old(repository.rows), picked, now + LOCK_SECONDS)
    ensures forall id :: id in picked ==> id in tables[0]
    ensures Traces(tables, Items(tables[0], picked), publish, at, others) && Last(tables) == repository.rows
    ensures delivered == Successes(Items(tables[0], picked), publish)
    ensures delivered == |set id | id in picked && publish(id).None?|
  {
    var ids := repository.Claim(limit, locked, now);
    picked := ids;
    var events := Items(repository.rows, ids);
    delivered, tables := DeliverAll(repository, events, publish, at, others);
    SuccessesCounted(tables[0], picked, publish, set id | id in picked && publish(id).None?);
  }

  // ---------------------------------------------------------------- a pass on its own

  /** The table a pass leaves behind, said once per event instead of step by step. */
  ghost predicate PassOutcome(
    before: Table, after: Table, picked: seq<nat>, publish: Publisher, now: real, at: Schedule)
  {
    && after.Keys == before.Keys
    && forall id :: id in before ==>
         after[id] == if id in picked then Settled(before[id], id, publish, now, at) else before[id]
  }

  /** A row that is claimed at `now` and marked afterwards. */
  function Settled(row: Row, id: nat, publish: Publisher, now: real, at: Schedule): Row {
    Mark(Lease(row, now + LOCK_SECONDS), Item(id, row.attempts + 1), publish(id), at(id))
  }

  /** Every mark finds the table as the one before it left it. */
  ghost predicate Chains(tables: seq<Table>, batch: seq<Item>, publish: Publisher, at: Schedule) {
    && |tables| == |batch| + 1
    && forall i: nat :: i < |batch| ==>
         tables[i + 1] == MarkIn(tables[i], batch[i], publish(batch[i].id), at(batch[i].id))
  }

  lemma {:induction false} MarkedSoFar(
    before: Table, tables: seq<Table>, picked: seq<nat>, publish: Publisher, now: real, at: Schedule, n: nat)
    requires Distinct(picked) && n <= |picked| && |tables| == |picked| + 1
    requires tables[0] == Leased(before, picked, now + LOCK_SECONDS) && forall id :: id in picked ==> id in before
    requires Chains(tables, Items(tables[0], picked), publish, at)
    ensures tables[n].Keys == before.Keys
    ensures forall id :: id in before ==>
      tables[n][id] == if id in picked[..n] then Settled(before[id], id, publish, now, at) else tables[0][id]
  {
    if n > 0 {
      MarkedSoFar(before, tables, picked, publish, now, at, n - 1);
      var id := picked[n - 1];
      assert id in picked && id !in picked[..n - 1];
      assert picked[..n] == picked[..n - 1] + [id];
      assert Items(tables[0], picked)[n - 1] == Item(id, before[id].attempts + 1);
    }
  }

  lemma MarkedAll(
    before: Table, tables: seq<Table>, picked: seq<nat>, publish: Publisher, now: real, at: Schedule)
    requires Distinct(picked) && |tables| == |picked| + 1
    requires tables[0] == Leased(before, picked, now + LOCK_SECONDS) && forall id :: id in picked ==> id in before
    requires Chains(tables, Items(tables[0], picked), publish, at)
    ensures PassOutcome(before, Last(tables), picked, publish, now, at)
  {
    MarkedSoFar(before, tables, picked, publish, now, at, |picked|);
    assert picked[..|picked|] == picked;
  }

  /** If nobody else touches the table during a pass, every event of the batch ends up either
      published or pending, unlocked and due again once its backoff has passed since it was
      marked, in seconds two to the number of times it was claimed, or 256; and every other row is
      as it was. */
  lemma PassAlone(
    before: Table, tables: seq<Table>, picked: seq<nat>, publish: Publisher, now: real, at: Schedule,
    others: nat -> Table)
    requires Distinct(picked) && |tables| == |picked| + 1
    requires tables[0] == Leased(before, picked, now + LOCK_SECONDS) && forall id :: id in picked ==> id in before
    requires Traces(tables, Items(tables[0], picked), publish, at, others)
    requires forall i: nat :: i < |picked| ==> others(i) == tables[i]
    ensures Last(tables).Keys == before.Keys
    ensures forall id :: id in before && id !in picked ==> Last(tables)[id] == before[id]
    ensures forall id :: id in picked && publish(id).None? ==>
      Last(tables)[id] == before[id].(status := Published, attempts := before[id].attempts + 1,
        lockedUntil := None, publishedAt := Some(at(id)))
    ensures forall id :: id in picked && publish(id).Some? ==>
      var row, error := Last(tables)[id], publish(id).value;
      && row.availableAt == at(id) + Pow2(Min(before[id].attempts + 1, 8)) as real
      && row == before[id].(status := Pending, attempts := before[id].attempts + 1, availableAt := row.availableAt,
           lockedUntil := None, lastError := Some(if |error| <= 4000 then error else error[..4000]))
  {
    AloneChains(tables, Items(tables[0], picked), publish, at, others);
    MarkedAll(before, tables, picked, publish, now, at);
    forall id | id in picked && publish(id).Some?
      ensures Last(tables)[id].availableAt == at(id) + Pow2(Min(before[id].attempts + 1, 8)) as real
    {
      DelayIsCappedDoubling(before[id].attempts + 1, before[id].attempts + 1);
    }
  }

  lemma AloneChains(tables: seq<Table>, batch: seq<Item>, publish: Publisher, at: Schedule, others: nat -> Table)
    requires Traces(tables, batch, publish, at, others) && forall i: nat :: i < |batch| ==> others(i) == tables[i]
    ensures Chains(tables, batch, publish, at)
  {
  }
}
