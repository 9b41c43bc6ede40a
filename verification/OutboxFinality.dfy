/** When a published event becomes pending again, and how often an event is published, in every run
    of the outbox: no worker is assumed to finish within its lease, and any may crash. */
module OutboxFinality {
  import opened Common
  import opened Outbox
  import opened OutboxProtocol
  import opened OutboxLeases

  /** A mark about to be written sets the status its publication deserves. */
  ghost predicate MarkOk(s: State, w: nat) {
    w in s.workers && s.workers[w].Writing? ==>
      s.workers[w].final.status == if s.workers[w].failure.None? then Published else Pending
  }

  lemma MarkKept(s: State, l: Label, w: nat)
    requires Enabled(s, l) && MarkOk(s, w)
    ensures MarkOk(Next(s, l), w)
  {
  }

  lemma {:induction false} MarksHold(start: real, ls: seq<Label>, w: nat)
    requires Valid(start, ls)
    ensures MarkOk(Exec(start, ls), w)
  {
    if ls != [] {
      MarksHold(start, Init(ls), w);
      MarkKept(Exec(start, Init(ls)), Last(ls), w);
    }
  }

  ghost predicate IsPublished(s: State, id: nat) { id in s.rows && s.rows[id].status == Published }

  /** The step writes a failed publication onto a row its transaction had loaded as published: the
      status that `mark_retry` does not check. */
  ghost predicate Reopens(s: State, l: Label, id: nat) {
    && l.Write? && l.worker in s.workers && s.workers[l.worker].Writing?
    && var worker := s.workers[l.worker];
    worker.item.id == id && worker.failure.Some? && worker.loaded.status == Published
  }

  /** A published row becomes pending in a step if and only if that step reopens it. */
  lemma ReopenedExactlyWhen(s: State, l: Label, id: nat)
    requires Enabled(s, l) && IsPublished(s, id) && forall w :: MarkOk(s, w)
    ensures !IsPublished(Next(s, l), id) <==> Reopens(s, l, id)
    ensures id in Next(s, l).rows
  {
    if l.Write? {
      assert MarkOk(s, l.worker);
    }
  }

  /** Some step after the first `n` reopens the row. */
  ghost predicate ReopenedSince(start: real, ls: seq<Label>, n: nat, id: nat)
    requires Valid(start, ls)
  {
    |ls| > n && (ReopenedSince(start, Init(ls), n, id) || Reopens(Exec(start, Init(ls)), Last(ls), id))
  }

  /** The row is published after step `n` and after every later one. */
  ghost predicate StaysPublished(start: real, ls: seq<Label>, n: nat, id: nat)
    requires Valid(start, ls)
  {
    IsPublished(Exec(start, ls), id) && (|ls| > n ==> StaysPublished(start, Init(ls), n, id))
  }

  /** Once published, an event stays published if and only if no later step writes a failed
      publication onto it that was decided on a published row. */
  lemma {:induction false} PublishedIsFinalExactlyWhen(start: real, ls: seq<Label>, n: nat, id: nat)
    requires Valid(start, ls) && n <= |ls| && Valid(start, ls[..n]) && IsPublished(Exec(start, ls[..n]), id)
    ensures StaysPublished(start, ls, n, id) <==> !ReopenedSince(start, ls, n, id)
  {
    if |ls| == n {
      assert ls[..n] == ls;
    } else {
      assert Init(ls)[..n] == ls[..n];
      PublishedIsFinalExactlyWhen(start, Init(ls), n, id);
      if StaysPublished(start, Init(ls), n, id) {
        forall w
          ensures MarkOk(Exec(start, Init(ls)), w)
        {
          MarksHold(start, Init(ls), w);
        }
        ReopenedExactlyWhen(Exec(start, Init(ls)), Last(ls), id);
      }
    }
  }

  // ---------------------------------------------------------------- every publication counted

  /** The workers that published the event and have not marked it. */
  ghost function Markers(s: State, id: nat): set<nat> {
    set w | w in s.workers && Unmarked(s, w, id)
  }

  /** The step writes the mark of a successful publication of the event. */
  ghost predicate Marks(s: State, l: Label, id: nat) {
    l.Write? && Unmarked(s, l.worker, id)
  }

  ghost function MarksWritten(start: real, ls: seq<Label>, id: nat): nat
    requires Valid(start, ls)
  {
    if ls == [] then 0
    else MarksWritten(start, Init(ls), id) + (if Marks(Exec(start, Init(ls)), Last(ls), id) then 1 else 0)
  }

  /** A step adds a marker where it publishes, and removes one where it marks or loses. */
  lemma MarkersStep(s: State, l: Label, id: nat)
    requires Enabled(s, l)
    ensures var before, after := Markers(s, id), Markers(Next(s, l), id);
      if l.Publish? && l.failure.None? && s.workers[l.worker].todo[0].id == id
      then after == before + {l.worker} && l.worker !in before && Next(s, l).broker[id] == s.broker[id] + 1
      else Next(s, l).broker[id] == s.broker[id]
           && (if Marks(s, l, id) || LosesMark(s, l, id) then after == before - {l.worker} && l.worker in before
              else after == before)
  {
    var s' := Next(s, l);
    if !l.Append? && !l.Tick? && !l.Join? {
      OthersUnmarked(s, l, l.worker, id);
    } else {
      assert forall w :: Unmarked(s', w, id) <==> Unmarked(s, w, id);
    }
  }

  /** Conservation: every successful publication has been marked, lost in a crash, or is still to
      be marked by the worker that made it. */
  lemma {:induction false} PublicationsConserved(start: real, ls: seq<Label>, id: nat)
    requires Valid(start, ls)
    ensures Exec(start, ls).broker[id] ==
      MarksWritten(start, ls, id) + Losses(start, ls, id) + |Markers(Exec(start, ls), id)|
  {
    if ls == [] {
      assert Markers(Exec(start, ls), id) == {};
    } else {
      PublicationsConserved(start, Init(ls), id);
      MarkersStep(Exec(start, Init(ls)), Last(ls), id);
    }
  }
}
