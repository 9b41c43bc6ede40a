/** Runs that show what the assumptions of `OutboxLeases` are for. */
module OutboxExamples {
  import opened Common
  import opened Outbox
  import opened OutboxProtocol
  import opened OutboxLeases

  ghost predicate Reaches(ls: seq<Label>, s: State, timely: bool) {
    Valid(0.0, ls) && Exec(0.0, ls) == s && (timely ==> Timely(0.0, ls, 7))
  }

  lemma Then(ls: seq<Label>, s: State, l: Label, s': State, timely: bool) returns (longer: seq<Label>)
    requires Reaches(ls, s, timely) && Enabled(s, l) && s' == Next(s, l) && (timely ==> TimelyStep(s, l, 7))
    ensures Reaches(longer, s', timely) && longer == ls + [l]
  {
    longer := ls + [l];
    assert Init(longer) == ls && Last(longer) == l;
  }

  function SomeEvent(): Envelope { Envelope(7, "claim.created", "claim", "c", 0.0, "claims-service", "k", "{}", "{}") }

  /** Event 7, the workers, and how often the broker has the event. */
  function At(row: Row, now: real, n: nat, workers: map<nat, Worker>): State {
    State(map[7 := row], workers, now, multiset{}[7 := n])
  }

  /** The only row of the table is what a claim selects. */
  lemma SelectsOnlyRow(s: State)
    requires s.rows.Keys == {7} && Eligible(s.rows[7], s.now)
    requires forall w :: w in s.workers ==> !s.workers[w].Selected?
    ensures Selection(s.rows, LockedRows(s), s.now, 10, [7])
  {
    var all := Candidates(s.rows, LockedRows(s), s.now);
    assert all == {7};
  }

  function Claimed(row: Row, deadline: real): Worker { Busy([Item(7, row.attempts)], deadline) }

  lemma SelectStep(start: seq<Label>, row: Row, now: real, n: nat, ws: map<nat, Worker>, w: nat, timely: bool)
    returns (ls: seq<Label>)
    requires Reaches(start, At(row, now, n, ws), timely) && Eligible(row, now)
    requires w in ws && ws[w].Idle? && forall v :: v in ws ==> !ws[v].Selected?
    ensures Reaches(ls, At(row, now, n, ws[w := Selected([7], now)]), timely)
    ensures CrashFree(start) ==> CrashFree(ls)
  {
    SelectsOnlyRow(At(row, now, n, ws));
    ls := Then(start, At(row, now, n, ws), Select(w, 10, [7]), At(row, now, n, ws[w := Selected([7], now)]), timely);
  }

  lemma CommitStep(start: seq<Label>, row: Row, now: real, n: nat, ws: map<nat, Worker>, w: nat, timely: bool)
    returns (ls: seq<Label>)
    requires Reaches(start, At(row, now, n, ws), timely) && w in ws && ws[w] == Selected([7], now)
    ensures var leased := Lease(row, now + 60.0);
      Reaches(ls, At(leased, now, n, ws[w := Claimed(leased, now + 60.0)]), timely)
    ensures CrashFree(start) ==> CrashFree(ls)
  {
    var s := At(row, now, n, ws);
    var leased := Lease(row, now + 60.0);
    assert Leased(s.rows, [7], now + 60.0) == map[7 := leased];
    assert Items(Leased(s.rows, [7], now + 60.0), [7]) == [Item(7, leased.attempts)];
    ls := Then(start, s, Commit(w), At(leased, now, n, ws[w := Claimed(leased, now + 60.0)]), timely);
  }

  /** Worker `w` claims the event. */
  lemma Claims(start: seq<Label>, row: Row, now: real, n: nat, ws: map<nat, Worker>, w: nat, timely: bool)
    returns (ls: seq<Label>)
    requires Reaches(start, At(row, now, n, ws), timely) && Eligible(row, now)
    requires w in ws && ws[w].Idle? && forall v :: v in ws ==> !ws[v].Selected?
    ensures var leased := Lease(row, now + 60.0);
      Reaches(ls, At(leased, now, n, ws[w := Claimed(leased, now + 60.0)]), timely)
    ensures CrashFree(start) ==> CrashFree(ls)
  {
    ls := SelectStep(start, row, now, n, ws, w, timely);
    var ws' := ws[w := Selected([7], now)];
    ls := CommitStep(ls, row, now, n, ws', w, timely);
    var done := Claimed(Lease(row, now + 60.0), now + 60.0);
    assert ws'[w := done] == ws[w := done];
  }

  lemma PublishStep(start: seq<Label>, row: Row, now: real, n: nat, ws: map<nat, Worker>, w: nat, item: Item,
    deadline: real, failure: Option<string>, timely: bool)
    returns (ls: seq<Label>)
    requires Reaches(start, At(row, now, n, ws), timely) && w in ws && ws[w] == Busy([item], deadline) && item.id == 7
    ensures var count := if failure.None? then n + 1 else n;
      Reaches(ls, At(row, now, count, ws[w := Marking(item, failure, [], deadline)]), timely)
    ensures CrashFree(start) ==> CrashFree(ls)
    ensures start <= ls
  {
    assert [item][1..] == [];
    var s := At(row, now, n, ws);
    var s' := At(row, now, if failure.None? then n + 1 else n, ws[w := Marking(item, failure, [], deadline)]);
    assert Next(s, Publish(w, failure)).broker == s'.broker;
    ls := Then(start, s, Publish(w, failure), s', timely);
  }

  lemma MarkStep(start: seq<Label>, row: Row, now: real, n: nat, ws: map<nat, Worker>, w: nat, item: Item,
    deadline: real, failure: Option<string>)
    returns (ls: seq<Label>)
    requires Reaches(start, At(row, now, n, ws), false) && item.id == 7
    requires w in ws && ws[w] == Marking(item, failure, [], deadline) && forall v :: v in ws ==> !ws[v].Selected?
    ensures Reaches(ls, At(Flush(row, row, Mark(row, item, failure, now)), now, n, ws[w := Idle]), false)
    ensures CrashFree(start) ==> CrashFree(ls)
    ensures start <= ls
  {
    var writing := Writing(item, failure, [], deadline, row, Mark(row, item, failure, now));
    var ws' := ws[w := writing];
    ls := Then(start, At(row, now, n, ws), Load(w), At(row, now, n, ws'), false);
    assert ws'[w := Idle] == ws[w := Idle];
    ls := Then(ls, At(row, now, n, ws'), Write(w),
      At(Flush(row, row, Mark(row, item, failure, now)), now, n, ws[w := Idle]), false);
  }

  /** Worker `w` publishes the event, with or without success, and marks it. */
  lemma Finishes(start: seq<Label>, row: Row, now: real, n: nat, ws: map<nat, Worker>, w: nat, item: Item,
    deadline: real, failure: Option<string>)
    returns (ls: seq<Label>)
    requires Reaches(start, At(row, now, n, ws), false) && item.id == 7
    requires w in ws && ws[w] == Busy([item], deadline) && forall v :: v in ws ==> !ws[v].Selected?
    ensures var count := if failure.None? then n + 1 else n;
      Reaches(ls, At(Flush(row, row, Mark(row, item, failure, now)), now, count, ws[w := Idle]), false)
    ensures CrashFree(start) ==> CrashFree(ls)
    ensures start <= ls
  {
    ls := PublishStep(start, row, now, n, ws, w, item, deadline, failure, false);
    var ws' := ws[w := Marking(item, failure, [], deadline)];
    ls := MarkStep(ls, row, now, if failure.None? then n + 1 else n, ws', w, item, deadline, failure);
    assert ws'[w := Idle] == ws[w := Idle];
  }

  function Appended(): Row { Outbox.NewRow(SomeEvent(), 0.0) }

  /** One event is appended and two workers start. */
  lemma Begins() returns (ls: seq<Label>)
    ensures Reaches(ls, At(Appended(), 0.0, 0, map[1 := Idle, 2 := Idle]), true) && CrashFree(ls)
  {
    ls := [];
    ls := Then(ls, Initial(0.0), Append(SomeEvent()), At(Appended(), 0.0, 0, map[]), true);
    ls := Then(ls, At(Appended(), 0.0, 0, map[]), Join(1), At(Appended(), 0.0, 0, map[1 := Idle]), true);
    ls := Then(ls, At(Appended(), 0.0, 0, map[1 := Idle]), Join(2),
      At(Appended(), 0.0, 0, map[1 := Idle, 2 := Idle]), true);
  }

  lemma FirstClaim() returns (ls: seq<Label>, row: Row, item: Item)
    ensures item.id == 7 && row.status == Pending && row.availableAt <= 61.0 && row.lockedUntil == Some(60.0)
    ensures Reaches(ls, At(row, 0.0, 0, map[1 := Busy([item], 60.0), 2 := Idle]), true) && CrashFree(ls)
  {
    ls := Begins();
    ls := Claims(ls, Appended(), 0.0, 0, map[1 := Idle, 2 := Idle], 1, true);
    row, item := Lease(Appended(), 60.0), Item(7, 1);
    assert map[1 := Idle, 2 := Idle][1 := Busy([item], 60.0)] == map[1 := Busy([item], 60.0), 2 := Idle];
  }

  // ---------------------------------------------------------------- a stale worker

  lemma Reopens(start: seq<Label>, row: Row, item: Item) returns (ls: seq<Label>, n: nat)
    requires item.id == 7 && row.status == Pending && row.availableAt <= 61.0 && row.lockedUntil == Some(60.0)
    requires Reaches(start, At(row, 0.0, 0, map[1 := Busy([item], 60.0), 2 := Idle]), false) && CrashFree(start)
    ensures n <= |ls| && Valid(0.0, ls[..n]) && Valid(0.0, ls) && CrashFree(ls)
    ensures 7 in Exec(0.0, ls[..n]).rows && Exec(0.0, ls[..n]).rows[7].status == Published
    ensures 7 in Exec(0.0, ls).rows && Exec(0.0, ls).rows[7].status == Pending
    ensures Exec(0.0, ls).rows[7].publishedAt.Some? && Exec(0.0, ls).broker[7] == 1
  {
    var ws := map[1 := Busy([item], 60.0), 2 := Idle];
    ls := Then(start, At(row, 0.0, 0, ws), Tick(61.0), At(row, 61.0, 0, ws), false);
    ls := Claims(ls, row, 61.0, 0, ws, 2, false);
    var leased := Lease(row, 121.0);
    var again := Item(7, leased.attempts);
    var ws' := ws[2 := Claimed(leased, 121.0)];
    ls := Finishes(ls, leased, 61.0, 0, ws', 2, again, 121.0, None);
    var published := Flush(leased, leased, Mark(leased, again, None, 61.0));
    n := |ls|;
    var early := ls;
    ls := Finishes(ls, published, 61.0, 1, ws'[2 := Idle], 1, item, 60.0, Some("timeout"));
    assert ls[..n] == early;
  }

  /** A worker that outlives its lease. Worker 1 is still publishing when its lease ends; worker 2
      claims the event, publishes it and marks it published; then worker 1's publication fails,
      and its mark makes the published event pending again. So "published" is final only under
      the timing assumption. */
  lemma StaleWorkerReopens() returns (ls: seq<Label>, n: nat)
    ensures n <= |ls| && Valid(0.0, ls[..n]) && Valid(0.0, ls) && CrashFree(ls)
    ensures 7 in Exec(0.0, ls[..n]).rows && Exec(0.0, ls[..n]).rows[7].status == Published
    ensures 7 in Exec(0.0, ls).rows && Exec(0.0, ls).rows[7].status == Pending
    ensures Exec(0.0, ls).rows[7].publishedAt.Some? && Exec(0.0, ls).broker[7] == 1
  {
    var row, item;
    ls, row, item := FirstClaim();
    ls, n := Reopens(ls, row, item);
  }

  // ---------------------------------------------------------------- a crashed worker

  lemma CrashAndWait(start: seq<Label>, row: Row, n: nat, one: Worker) returns (ls: seq<Label>)
    requires Reaches(start, At(row, 0.0, n, map[1 := one, 2 := Idle]), true) && !one.Dead?
    ensures Reaches(ls, At(row, 61.0, n, map[1 := Dead, 2 := Idle]), true)
  {
    var ws, dead := map[1 := one, 2 := Idle], map[1 := Dead, 2 := Idle];
    assert ws[1 := Dead] == dead;
    ls := Then(start, At(row, 0.0, n, ws), Crash(1), At(row, 0.0, n, dead), true);
    ls := Then(ls, At(row, 0.0, n, dead), Tick(61.0), At(row, 61.0, n, dead), true);
  }

  lemma Redelivers(start: seq<Label>, row: Row) returns (ls: seq<Label>)
    requires row.status == Pending && row.availableAt <= 61.0 && row.lockedUntil == Some(60.0)
    requires Reaches(start, At(row, 61.0, 1, map[1 := Dead, 2 := Idle]), true)
    ensures Valid(0.0, ls) && Timely(0.0, ls, 7) && Exec(0.0, ls).broker[7] == 2
  {
    var dead := map[1 := Dead, 2 := Idle];
    ls := Claims(start, row, 61.0, 1, dead, 2, true);
    var leased := Lease(row, 121.0);
    ls := PublishStep(ls, leased, 61.0, 1, dead[2 := Claimed(leased, 121.0)], 2, Item(7, leased.attempts),
      121.0, None, true);
  }

  /** A crash between publishing and marking: the lease runs out and the event is published again,
      although every live worker was in time. */
  lemma CrashDeliversTwice() returns (ls: seq<Label>)
    ensures Valid(0.0, ls) && Timely(0.0, ls, 7) && Exec(0.0, ls).broker[7] == 2
  {
    var row, item;
    ls, row, item := FirstClaim();
    var ws := map[1 := Busy([item], 60.0), 2 := Idle];
    var marking := Marking(item, None, [], 60.0);
    ls := PublishStep(ls, row, 0.0, 0, ws, 1, item, 60.0, None, true);
    assert ws[1 := marking] == map[1 := marking, 2 := Idle];
    ls := CrashAndWait(ls, row, 1, marking);
    ls := Redelivers(ls, row);
  }
}
