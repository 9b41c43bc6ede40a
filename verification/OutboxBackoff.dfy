/** When an event may be claimed again. After a failed publication it waits two seconds to the power
    of its claims so far, at most 256, counted from the moment its mark was decided. */
module OutboxBackoff {
  import opened Common
  import opened Outbox
  import opened OutboxProtocol
  import opened OutboxLeases

  // ---------------------------------------------------------------- in every run

  /** The moment at which the worker last loaded a row to mark it. */
  ghost function LoadTime(start: real, ls: seq<Label>, w: nat): real
    requires Valid(start, ls)
  {
    if ls == [] then start
    else if Last(ls) == Load(w) then Exec(start, Init(ls)).now
    else LoadTime(start, Init(ls), w)
  }

  /** The step writes the mark of a failed publication of the event. */
  ghost predicate Defers(s: State, l: Label, id: nat) {
    && l.Write? && l.worker in s.workers && s.workers[l.worker].Writing?
    && s.workers[l.worker].item.id == id && s.workers[l.worker].failure.Some?
  }

  /** The end of the backoff that a failed mark, decided after the run by a worker, gives the event. */
  ghost function BackoffEnd(start: real, ls: seq<Label>, w: nat): real
    requires Valid(start, ls) && w in Exec(start, ls).workers && Exec(start, ls).workers[w].Writing?
  {
    LoadTime(start, ls, w) + Pow2(Min(Exec(start, ls).workers[w].item.attempts, 8)) as real
  }

  /** When the event is due, told from the run alone: at once when it is appended, and after a failed
      mark at the end of its backoff. A mark that would set the very time its transaction had
      loaded writes nothing. */
  ghost function Due(start: real, ls: seq<Label>, id: nat): real
    requires Valid(start, ls)
  {
    if ls == [] then start
    else
      var s, l := Exec(start, Init(ls)), Last(ls);
      if l.Append? && l.event.eventId == id then s.now
      else if Defers(s, l, id) && BackoffEnd(start, Init(ls), l.worker) != s.workers[l.worker].loaded.availableAt
      then BackoffEnd(start, Init(ls), l.worker)
      else Due(start, Init(ls), id)
  }

  /** What a mark about to be written makes of the time its row is due. */
  ghost predicate FinalDue(start: real, ls: seq<Label>, w: nat)
    requires Valid(start, ls)
  {
    w in Exec(start, ls).workers && Exec(start, ls).workers[w].Writing? ==>
      var worker := Exec(start, ls).workers[w];
      worker.final.availableAt == if worker.failure.Some? then BackoffEnd(start, ls, w) else worker.loaded.availableAt
  }

  lemma {:induction false} FinalDueHolds(start: real, ls: seq<Label>, w: nat)
    requires Valid(start, ls)
    ensures FinalDue(start, ls, w)
  {
    if ls != [] {
      FinalDueHolds(start, Init(ls), w);
      if Last(ls) == Load(w) {
        var item := Exec(start, Init(ls)).workers[w].item;
        DelayIsCappedDoubling(item.attempts, item.attempts);
      }
    }
  }

  /** In every run, however late workers are, an event is due when its appending and its failed marks
      say. */
  lemma {:induction false} DueIsKept(start: real, ls: seq<Label>, id: nat)
    requires Valid(start, ls)
    ensures id in Exec(start, ls).rows ==> Exec(start, ls).rows[id].availableAt == Due(start, ls, id)
  {
    if ls != [] {
      DueIsKept(start, Init(ls), id);
      if Last(ls).Write? {
        FinalDueHolds(start, Init(ls), Last(ls).worker);
      }
    }
  }

  /** Nobody claims an event before it is due, or while a lease on it lasts. */
  lemma ClaimedOnlyWhenDue(start: real, ls: seq<Label>, w: nat, limit: nat, ids: seq<nat>, id: nat)
    requires Valid(start, ls) && Enabled(Exec(start, ls), Select(w, limit, ids)) && id in ids
    ensures var s := Exec(start, ls);
      && id in s.rows && s.rows[id].status == Pending
      && Due(start, ls, id) <= s.now
      && (s.rows[id].lockedUntil.Some? ==> s.rows[id].lockedUntil.value < s.now)
  {
    DueIsKept(start, ls, id);
    SelectionIsDue(Exec(start, ls).rows, LockedRows(Exec(start, ls)), Exec(start, ls).now, limit, ids);
  }

  // ---------------------------------------------------------------- within the leases

  /** A worker that has committed its claim knows how often the event has been claimed. */
  ghost predicate AttemptsOk(s: State, w: nat, id: nat) {
    Holds(s, w, id) && !s.workers[w].Selected? ==>
      var worker := s.workers[w];
      && id in s.rows
      && (forall i :: 0 <= i < |worker.todo| && worker.todo[i].id == id ==>
            worker.todo[i].attempts == s.rows[id].attempts)
      && (!worker.Busy? && worker.item.id == id ==> worker.item.attempts == s.rows[id].attempts)
  }

  lemma AttemptsKept(s: State, l: Label, w: nat, id: nat)
    requires LeasesOk(s, id) && Exclusive(s, id) && BatchesOk(s) && Enabled(s, l) && AttemptsOk(s, w, id)
    ensures AttemptsOk(Next(s, l), w, id)
  {
    if Holds(Next(s, l), w, id) && !Next(s, l).workers[w].Selected? {
      HeldComesFrom(s, l, w, id);
      assert LeaseOk(s, w, id) && BatchOk(s, w);
      if Acts(l, w) {
        HeldAfter(s, l, w);
      } else {
        assert (l.Commit? || l.Write?) ==> !Holds(s, l.worker, id);
        RowFrame(s, l, id);
      }
    }
  }

  lemma {:induction false} AttemptsHold(start: real, ls: seq<Label>, w: nat, id: nat)
    requires Valid(start, ls) && Timely(start, ls, id)
    ensures AttemptsOk(Exec(start, ls), w, id)
  {
    if ls != [] {
      AttemptsHold(start, Init(ls), w, id);
      LeasesHold(start, Init(ls), id);
      BatchesHold(start, Init(ls));
      AttemptsKept(Exec(start, Init(ls)), Last(ls), w, id);
    }
  }

  /** Nobody holds the event and it is due at `due`, or that time has come. */
  ghost predicate Waits(s: State, id: nat, due: real) {
    s.now >= due || (id in s.rows && s.rows[id].availableAt == due && forall w :: !Holds(s, w, id))
  }

  lemma WaitsKept(s: State, l: Label, id: nat, due: real)
    requires Enabled(s, l) && Waits(s, id, due)
    ensures Waits(Next(s, l), id, due)
  {
    if s.now < due {
      if l.Select? {
        SelectionIsDue(s.rows, LockedRows(s), s.now, l.limit, l.ids);
      }
      forall w
        ensures !Holds(Next(s, l), w, id)
      {
        if Holds(Next(s, l), w, id) {
          HeldComesFrom(s, l, w, id);
        }
      }
      assert l.Commit? || l.Write? ==> !Holds(s, l.worker, id);
      RowFrame(s, l, id);
    }
  }

  /** A holder that writes a failed mark lets go of the event until its backoff ends. */
  lemma DeferredWaits(s: State, l: Label, id: nat)
    requires LeasesOk(s, id) && Exclusive(s, id) && BatchesOk(s) && Enabled(s, l) && Defers(s, l, id)
    ensures Waits(Next(s, l), id, s.workers[l.worker].final.availableAt)
  {
    var held := Held(s.workers[l.worker]);
    HeldAfter(s, l, l.worker);
    assert held[0] == id && Holds(s, l.worker, id);
    assert LeaseOk(s, l.worker, id) && BatchOk(s, l.worker);
    forall w
      ensures !Holds(Next(s, l), w, id)
    {
      if Holds(Next(s, l), w, id) {
        HeldComesFrom(s, l, w, id);
      }
    }
  }

  lemma {:induction false} WaitsSince(start: real, ls: seq<Label>, n: nat, id: nat)
    requires Valid(start, ls) && Timely(start, ls, id) && n < |ls| && Valid(start, ls[..n])
    requires Defers(Exec(start, ls[..n]), ls[n], id)
    ensures Timely(start, ls[..n], id)
    ensures Waits(Exec(start, ls), id, Exec(start, ls[..n]).workers[ls[n].worker].final.availableAt)
  {
    if |ls| == n + 1 {
      assert ls[..n] == Init(ls);
      LeasesHold(start, Init(ls), id);
      BatchesHold(start, Init(ls));
      DeferredWaits(Exec(start, Init(ls)), Last(ls), id);
    } else {
      assert Init(ls)[..n] == ls[..n];
      WaitsSince(start, Init(ls), n, id);
      WaitsKept(Exec(start, Init(ls)), Last(ls), id, Exec(start, ls[..n]).workers[ls[n].worker].final.availableAt);
    }
  }

  /** After a failed publication nobody claims the event until two seconds to the number of times it
      was claimed, at most 256, have passed since its mark was decided. */
  lemma BackoffIsKept(
    start: real, ls: seq<Label>, n: nat, id: nat, w: nat, limit: nat, ids: seq<nat>)
    requires Valid(start, ls) && Timely(start, ls, id) && n < |ls| && Valid(start, ls[..n])
    requires Defers(Exec(start, ls[..n]), ls[n], id)
    requires Enabled(Exec(start, ls), Select(w, limit, ids)) && id in ids
    ensures Exec(start, ls).now >=
      LoadTime(start, ls[..n], ls[n].worker) + Pow2(Min(Claims(start, ls[..n], id), 8)) as real
  {
    var before, marker := ls[..n], ls[n].worker;
    WaitsSince(start, ls, n, id);
    FinalDueHolds(start, before, marker);
    AttemptsHold(start, before, marker, id);
    AttemptsCountClaims(start, before, id);
    assert Held(Exec(start, before).workers[marker])[0] == id;
    SelectionIsDue(Exec(start, ls).rows, LockedRows(Exec(start, ls)), Exec(start, ls).now, limit, ids);
  }
}
