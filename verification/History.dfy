/** The operations portal's workflow history (`store.ts`): a bounded most-recently-used list kept
    in browser storage that may be missing, corrupt or full. */
module History {
  import opened Common

  const MAX_LIVE_ENTRIES: nat := 40

  /** A workflow as the portal receives and stores it. Nothing checks a response against the type,
      so its `state` need not be a string nor its `steps` an array; `body` stands for the rest. */
  datatype Workflow = Workflow(id: string, stateIsString: bool, stepsIsArray: bool, body: string)

  /** An element of stored JSON: an object with a string `id`, or anything else. */
  datatype Element = Entry(workflow: Workflow) | Junk

  /** What parsing the stored text gives: nothing stored, no readable array, or an array. */
  datatype Stored = Absent | Unreadable | Elements(elements: seq<Element>)

  /** What the filter on stored elements asks for. */
  predicate IsComplete(w: Workflow) { w.stateIsString && w.stepsIsArray }

  predicate IsWorkflow(e: Element) { e.Entry? && IsComplete(e.workflow) }

  // ---------------------------------------------------------------- list operations

  function Others(live: seq<Workflow>, id: string): seq<Workflow> {
    if live == [] then []
    else (if live[0].id == id then [] else [live[0]]) + Others(live[1..], id)
  }

  function Truncate(live: seq<Workflow>): seq<Workflow> {
    if |live| <= MAX_LIVE_ENTRIES then live else live[..MAX_LIVE_ENTRIES]
  }

  function Recorded(live: seq<Workflow>, w: Workflow): seq<Workflow> {
    Truncate([w] + Others(live, w.id))
  }

  function Workflows(elements: seq<Element>): seq<Workflow> {
    if elements == [] then []
    else (if IsWorkflow(elements[0]) then [elements[0].workflow] else []) + Workflows(elements[1..])
  }

  function Readable(stored: Stored): seq<Workflow> {
    if stored.Elements? then Workflows(stored.elements) else []
  }

  function Serialised(live: seq<Workflow>): Stored {
    Elements(seq(|live|, i requires 0 <= i < |live| => Entry(live[i])))
  }

  predicate HasId(entries: seq<Workflow>, id: string) {
    exists i :: 0 <= i < |entries| && entries[i].id == id
  }

  function WithoutIdsOf(samples: seq<Workflow>, live: seq<Workflow>): seq<Workflow> {
    if samples == [] then []
    else (if HasId(live, samples[0].id) then [] else [samples[0]]) + WithoutIdsOf(samples[1..], live)
  }

  function First(entries: seq<Workflow>, id: string): Option<Workflow> {
    if entries == [] then None
    else if entries[0].id == id then Some(entries[0])
    else First(entries[1..], id)
  }

  /** `w` stands at `i` and is the first entry with the id. */
  predicate FoundAt(entries: seq<Workflow>, i: int, id: string, w: Workflow) {
    0 <= i < |entries| && entries[i] == w && w.id == id && forall j :: 0 <= j < i ==> entries[j].id != id
  }

  lemma {:induction false} FirstFound(entries: seq<Workflow>, id: string)
    ensures First(entries, id).Some? <==> HasId(entries, id)
    ensures First(entries, id).Some? ==> exists i :: FoundAt(entries, i, id, First(entries, id).value)
  {
    if entries != [] {
      FirstFound(entries[1..], id);
      HasIdHeadTail(entries, id);
      if entries[0].id == id {
        assert FoundAt(entries, 0, id, entries[0]);
      } else if First(entries, id).Some? {
        var i :| FoundAt(entries[1..], i, id, First(entries, id).value);
        assert FoundAt(entries, i + 1, id, First(entries, id).value);
      }
    }
  }

  lemma {:induction false} WithoutIdsHas(samples: seq<Workflow>, live: seq<Workflow>)
    ensures forall w :: w in WithoutIdsOf(samples, live) <==> w in samples && !HasId(live, w.id)
  {
    if samples != [] {
      WithoutIdsHas(samples[1..], live);
    }
  }

  /** Loading keeps, in their order, exactly the elements that are objects with a string for their
      state and an array for their steps. */
  lemma {:induction false} ReadableIsFiltered(before: seq<Element>, e: Element)
    ensures Readable(Elements([])) == Readable(Absent) == Readable(Unreadable) == []
    ensures Readable(Elements(before + [e])) == Readable(Elements(before)) +
      if e.Entry? && e.workflow.stateIsString && e.workflow.stepsIsArray then [e.workflow] else []
  {
    if before == [] {
      assert before + [e] == [e];
    } else {
      assert (before + [e])[1..] == before[1..] + [e];
      ReadableIsFiltered(before[1..], e);
    }
  }

  // ---------------------------------------------------------------- the object

  /** Browser storage: `full` says whether a write would throw, and may change at any time. */
  class HistoryStorage {
    var stored: Stored
    var full: bool

    constructor (stored: Stored, full: bool)
      ensures this.stored == stored && this.full == full
    {
      this.stored, this.full := stored, full;
    }

    method SetItem(text: Stored) returns (ok: bool)
      modifies this`stored
      ensures ok <==> !full
      ensures stored == if full then old(stored) else text
    {
      if full {
        return false;
      }
      stored := text;
      return true;
    }
  }

  class WorkflowHistory {
    var live: seq<Workflow>
    const storage: HistoryStorage?
    const samples: seq<Workflow>

    constructor (storage: HistoryStorage?, samples: seq<Workflow>)
      ensures this.storage == storage && this.samples == samples
      ensures live == if storage == null then [] else Readable(storage.stored)
    {
      this.storage := storage;
      this.samples := samples;
      this.live := if storage == null then [] else Readable(storage.stored);
    }

    /** The stored text after an update: a failing write leaves it as it was. */
    ghost predicate SavedOr(before: Stored)
      requires storage != null
      reads this, storage
    {
      storage.stored == if storage.full then before else Serialised(live)
    }

    method Persist()
      modifies storage
      ensures storage != null ==> SavedOr(old(storage.stored)) && storage.full == old(storage.full)
    {
      if storage != null {
        var ok := storage.SetItem(Serialised(live));
      }
    }

    method Record(w: Workflow)
      modifies this, storage
      ensures live == Recorded(old(live), w)
      ensures storage != null ==> SavedOr(old(storage.stored))
    {
      live := Truncate([w] + Others(live, w.id));
      Persist();
    }

    method Clear()
      modifies this, storage
      ensures live == []
      ensures storage != null ==> SavedOr(old(storage.stored))
    {
      live := [];
      Persist();
    }

    /** The live list, and after it the samples it does not replace. */
    function All(): (all: seq<Workflow>)
      reads this
      ensures live <= all
      ensures forall w :: w in all <==> w in live || (w in samples && !HasId(live, w.id))
    {
      WithoutIdsHas(samples, live);
      live + WithoutIdsOf(samples, live)
    }

    /** The first entry with the id: a live one if there is one, otherwise a sample. */
    function Find(id: string): (found: Option<Workflow>)
      reads this
      ensures found.None? <==> !HasId(live, id) && !HasId(samples, id)
      ensures found.Some? ==> exists i ::
        if HasId(live, id) then FoundAt(live, i, id, found.value) else FoundAt(samples, i, id, found.value)
    {
      FirstAppend(live, WithoutIdsOf(samples, live), id);
      FirstFound(live, id);
      FirstFound(samples, id);
      SampleFound(samples, live, id);
      First(All(), id)
    }
  }

  // ---------------------------------------------------------------- whole histories

  datatype Command = Record(workflow: Workflow) | Clear

  /** The live list after the commands, from empty storage: truncated at every step. */
  function Run(commands: seq<Command>): seq<Workflow> {
    if commands == [] then []
    else match Last(commands)
      case Clear => []
      case Record(w) => Recorded(Run(Init(commands)), w)
  }

  /** Everything recorded since the last clear, oldest first. */
  function SinceClear(commands: seq<Command>): seq<Workflow> {
    if commands == [] then []
    else match Last(commands)
      case Clear => []
      case Record(w) => SinceClear(Init(commands)) + [w]
  }

  /** No later record has the id of record `i`. */
  predicate IsLatest(records: seq<Workflow>, i: nat)
    requires i < |records|
  {
    forall j :: i < j < |records| ==> records[j].id != records[i].id
  }

  /** The latest record of each id among the first `n`, newest first. */
  function Latest(records: seq<Workflow>, n: nat): seq<Workflow>
    requires n <= |records|
  {
    if n == 0 then []
    else (if IsLatest(records, n - 1) then [records[n - 1]] else []) + Latest(records, n - 1)
  }

  predicate DistinctIds(live: seq<Workflow>) {
    forall i, j :: 0 <= i < j < |live| ==> live[i].id != live[j].id
  }

  lemma {:induction false} OthersAppend(a: seq<Workflow>, b: seq<Workflow>, id: string)
    ensures Others(a + b, id) == Others(a, id) + Others(b, id)
  {
    if a == [] {
      assert a + b == b;
    } else {
      assert (a + b)[1..] == a[1..] + b;
      OthersAppend(a[1..], b, id);
    }
  }

  lemma HasIdHeadTail(live: seq<Workflow>, id: string)
    requires live != []
    ensures HasId(live, id) <==> live[0].id == id || HasId(live[1..], id)
  {
    if HasId(live, id) {
      var i :| 0 <= i < |live| && live[i].id == id;
      assert i > 0 ==> live[1..][i - 1].id == id;
    }
    forall i | 0 <= i < |live[1..]| && live[1..][i].id == id
      ensures HasId(live, id)
    {
      assert live[i + 1].id == id;
    }
  }

  lemma DistinctHeadTail(live: seq<Workflow>)
    requires live != []
    ensures DistinctIds(live) <==> DistinctIds(live[1..]) && !HasId(live[1..], live[0].id)
  {
    var tail := live[1..];
    assert forall i :: 0 <= i < |tail| ==> tail[i] == live[i + 1];
    if DistinctIds(live) {
      assert forall i :: 0 <= i < |tail| ==> tail[i].id != live[0].id;
    }
    if DistinctIds(tail) && !HasId(tail, live[0].id) {
      forall i, j | 0 <= i < j < |live|
        ensures live[i].id != live[j].id
      {
        assert live[j] == tail[j - 1];
        assert i > 0 ==> live[i] == tail[i - 1];
      }
    }
  }

  /** Filtering drops the id and nothing else. */
  lemma {:induction false} OthersHas(live: seq<Workflow>, id: string, k: string)
    ensures HasId(Others(live, id), k) <==> HasId(live, k) && k != id
  {
    if live != [] {
      var all, rest := Others(live, id), Others(live[1..], id);
      OthersHas(live[1..], id, k);
      HasIdHeadTail(live, k);
      if live[0].id != id {
        assert all == [live[0]] + rest && all[1..] == rest;
        HasIdHeadTail(all, k);
      } else {
        assert all == rest;
      }
    }
  }

  lemma {:induction false} OthersUnchanged(live: seq<Workflow>, id: string)
    requires !HasId(live, id)
    ensures Others(live, id) == live
  {
    if live != [] {
      HasIdHeadTail(live, id);
      OthersUnchanged(live[1..], id);
    }
  }

  /** From distinct ids it drops one entry at most. */
  lemma {:induction false} OthersKeeps(live: seq<Workflow>, id: string)
    requires DistinctIds(live)
    ensures DistinctIds(Others(live, id)) && |live| - 1 <= |Others(live, id)| <= |live|
  {
    if live != [] {
      var all, rest := Others(live, id), Others(live[1..], id);
      DistinctHeadTail(live);
      OthersKeeps(live[1..], id);
      if live[0].id == id {
        OthersUnchanged(live[1..], id);
      } else {
        assert all == [live[0]] + rest && all[1..] == rest;
        OthersHas(live[1..], id, live[0].id);
        DistinctHeadTail(all);
      }
    }
  }

  /** Recording on a list that was truncated before shows the same as recording on the whole. */
  lemma TruncationLosesNothing(whole: seq<Workflow>, w: Workflow)
    requires DistinctIds(whole)
    ensures Recorded(Truncate(whole), w) == Recorded(whole, w)
  {
    if |whole| > MAX_LIVE_ENTRIES {
      var shown, hidden := whole[..MAX_LIVE_ENTRIES], whole[MAX_LIVE_ENTRIES..];
      assert whole == shown + hidden;
      OthersAppend(shown, hidden, w.id);
      OthersKeeps(shown, w.id);
      assert Truncate([w] + Others(whole, w.id)) == ([w] + Others(shown, w.id))[..MAX_LIVE_ENTRIES];
    }
  }

  lemma {:induction false} LatestStep(records: seq<Workflow>, w: Workflow, n: nat)
    requires n <= |records|
    ensures Latest(records + [w], n) == Others(Latest(records, n), w.id)
  {
    if n > 0 {
      LatestStep(records, w, n - 1);
      var more := records + [w];
      var head := if IsLatest(records, n - 1) then [records[n - 1]] else [];
      assert IsLatest(more, n - 1) <==> IsLatest(records, n - 1) && records[n - 1].id != w.id by {
        assert more[|records|] == w;
        assert forall j :: n - 1 < j < |records| ==> more[j] == records[j];
      }
      OthersAppend(head, Latest(records, n - 1), w.id);
    }
  }

  lemma {:induction false} LatestDistinct(records: seq<Workflow>, n: nat)
    requires n <= |records|
    ensures DistinctIds(Latest(records, n))
    ensures forall w :: w in Latest(records, n) <==> exists i :: 0 <= i < n && IsLatest(records, i) && records[i] == w
  {
    if n > 0 {
      LatestDistinct(records, n - 1);
      var rest := Latest(records, n - 1);
      if IsLatest(records, n - 1) {
        forall j | 0 <= j < |rest|
          ensures rest[j].id != records[n - 1].id
        {
          assert rest[j] in rest;
          var i :| 0 <= i < n - 1 && IsLatest(records, i) && records[i] == rest[j];
        }
      }
    }
  }

  /** The whole recorded history, newest first, one entry per id. */
  function Whole(commands: seq<Command>): seq<Workflow> {
    Latest(SinceClear(commands), |SinceClear(commands)|)
  }

  /** After any commands from empty storage, the live list is the first 40 of the distinct ids
      ordered by latest record, each with its latest value; truncating at every step has lost
      nothing against truncating once at the end. */
  lemma {:induction false} LiveIsTruncatedHistory(commands: seq<Command>)
    ensures Run(commands) == Truncate(Whole(commands))
    ensures DistinctIds(Run(commands))
  {
    LatestDistinct(SinceClear(commands), |SinceClear(commands)|);
    if commands != [] && Last(commands).Record? {
      var before := SinceClear(Init(commands));
      var w := Last(commands).workflow;
      LiveIsTruncatedHistory(Init(commands));
      LatestDistinct(before, |before|);
      TruncationLosesNothing(Latest(before, |before|), w);
      LatestStep(before, w, |before|);
      assert IsLatest(before + [w], |before|);
    }
  }

  /** Forty of them, or all if there are fewer. */
  lemma LiveIsTheLatestForty(commands: seq<Command>)
    ensures Run(commands) == if |Whole(commands)| <= 40 then Whole(commands) else Whole(commands)[..40]
  {
    LiveIsTruncatedHistory(commands);
  }

  lemma {:induction false} FirstAppend(a: seq<Workflow>, b: seq<Workflow>, id: string)
    ensures First(a + b, id) == if HasId(a, id) then First(a, id) else First(b, id)
    ensures HasId(a, id) <==> First(a, id).Some?
    ensures First(a, id).Some? ==> First(a, id).value in a && First(a, id).value.id == id
  {
    if a == [] {
      assert a + b == b;
    } else {
      assert (a + b)[1..] == a[1..] + b;
      FirstAppend(a[1..], b, id);
      if a[0].id != id {
        if HasId(a, id) {
          var i :| 0 <= i < |a| && a[i].id == id;
          assert a[1..][i - 1].id == id;
        }
        if HasId(a[1..], id) {
          var i :| 0 <= i < |a[1..]| && a[1..][i].id == id;
          assert a[i + 1].id == id;
        }
      }
    }
  }

  lemma {:induction false} SampleFound(samples: seq<Workflow>, live: seq<Workflow>, id: string)
    ensures !HasId(live, id) ==> First(WithoutIdsOf(samples, live), id) == First(samples, id)
  {
    if samples != [] {
      SampleFound(samples[1..], live, id);
      var head := if HasId(live, samples[0].id) then [] else [samples[0]];
      FirstAppend(head, WithoutIdsOf(samples[1..], live), id);
    }
  }

  /** What a lookup finds: the latest recorded value if the id is among the 40 shown, and the
      bundled sample otherwise. */
  lemma FindIsLatestOrSample(commands: seq<Command>, samples: seq<Workflow>, id: string)
    ensures var live := Run(commands);
      var found := First(live + WithoutIdsOf(samples, live), id);
      if HasId(live, id)
      then found.Some? && found.value.id == id
           && exists i ::
                && 0 <= i < |SinceClear(commands)| && IsLatest(SinceClear(commands), i)
                && SinceClear(commands)[i] == found.value
      else found == First(samples, id)
  {
    var live, records := Run(commands), SinceClear(commands);
    FirstAppend(live, WithoutIdsOf(samples, live), id);
    if HasId(live, id) {
      LiveIsTruncatedHistory(commands);
      LatestDistinct(records, |records|);
      assert First(live, id).value in Latest(records, |records|);
    } else {
      SampleFound(samples, live, id);
    }
  }

  /** Reloading the page after a write that succeeded never shows more than before, and shows the
      same list if and only if every entry passes the filter on stored elements. */
  lemma {:induction false} ReloadShowsTheSameExactlyWhen(live: seq<Workflow>)
    ensures |Readable(Serialised(live))| <= |live|
    ensures Readable(Serialised(live)) == live <==> forall i :: 0 <= i < |live| ==> IsComplete(live[i])
  {
    if live != [] {
      var elements, rest := Serialised(live).elements, live[1..];
      ReloadShowsTheSameExactlyWhen(rest);
      assert elements[1..] == Serialised(rest).elements;
      if IsComplete(live[0]) {
        assert Readable(Serialised(live))[1..] == Readable(Serialised(rest));
        assert live == [live[0]] + rest;
        assert forall i :: 0 <= i < |rest| ==> rest[i] == live[i + 1];
      }
    }
  }
}
