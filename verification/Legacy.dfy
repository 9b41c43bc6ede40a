/** Ingestion of claims from older systems. A record is stored together with the JSON it was read
    from; a later delivery under the same key is compared by reading that JSON again, which runs
    the date check against the day of the delivery. */
module Legacy {
  import opened Common
  import G = GetOrCreate

  // ---------------------------------------------------------------- records and their JSON

  /** JSON as the model needs it. `Uuid`, `Money` and `Day` are texts whose parsing belongs to the
      validation library; an amount keeps its digits, so 1.5 and 1.50 are different texts. */
  datatype Json =
    | Null
    | Text(text: string)
    | Uuid(uuid: nat)
    | Money(units: int, places: nat)
    | Day(day: int)
    | Object(fields: map<string, Json>)

  datatype Record = Record(
    sourceSystem: string,
    legacyClaimId: string,
    policyNumber: Option<string>,
    policyholderId: Option<nat>,
    units: int,
    places: nat,
    incidentDate: int,
    description: string,
    status: string,
    rawPayload: map<string, Json>)

  predicate Fits(s: string, low: nat, high: nat) { low <= |s| <= high }

  /** The checks on field values; `today` is the day they run. */
  predicate Acceptable(r: Record, today: int) {
    && Fits(r.sourceSystem, 1, 100)
    && Fits(r.legacyClaimId, 1, 255)
    && (r.policyNumber.Some? ==> Fits(r.policyNumber.value, 0, 255))
    && r.units >= 0 && r.places <= 2
    && Fits(r.description, 1, 10000)
    && Fits(r.status, 1, 50)
    && r.incidentDate <= today
  }

  /** `model_dump(mode="json")`. */
  function Dump(r: Record): map<string, Json> {
    map[
      "source_system" := Text(r.sourceSystem),
      "legacy_claim_id" := Text(r.legacyClaimId),
      "policy_number" := if r.policyNumber.Some? then Text(r.policyNumber.value) else Null,
      "policyholder_id" := if r.policyholderId.Some? then Uuid(r.policyholderId.value) else Null,
      "claim_amount" := Money(r.units, r.places),
      "incident_date" := Day(r.incidentDate),
      "description" := Text(r.description),
      "status" := Text(r.status),
      "raw_payload" := Object(r.rawPayload)]
  }

  function Field(j: map<string, Json>, name: string): Json {
    if name in j then j[name] else Null
  }

  /** Required fields are there, and every field has its type; other fields are ignored. */
  predicate HasShape(j: map<string, Json>) {
    && Field(j, "source_system").Text?
    && Field(j, "legacy_claim_id").Text?
    && (Field(j, "policy_number").Null? || Field(j, "policy_number").Text?)
    && (Field(j, "policyholder_id").Null? || Field(j, "policyholder_id").Uuid?)
    && Field(j, "claim_amount").Money?
    && Field(j, "incident_date").Day?
    && Field(j, "description").Text?
    && ("status" !in j || j["status"].Text?)
    && ("raw_payload" !in j || j["raw_payload"].Object?)
  }

  function Read(j: map<string, Json>): Record
    requires HasShape(j)
  {
    Record(
      Field(j, "source_system").text,
      Field(j, "legacy_claim_id").text,
      if Field(j, "policy_number").Text? then Some(Field(j, "policy_number").text) else None,
      if Field(j, "policyholder_id").Uuid? then Some(Field(j, "policyholder_id").uuid) else None,
      Field(j, "claim_amount").units,
      Field(j, "claim_amount").places,
      Field(j, "incident_date").day,
      Field(j, "description").text,
      if "status" in j then j["status"].text else "submitted",
      if "raw_payload" in j then j["raw_payload"].fields else map[])
  }

  /** `model_validate`: the record, or a validation error. */
  function Validate(j: map<string, Json>, today: int): Option<Record> {
    if HasShape(j) && Acceptable(Read(j), today) then Some(Read(j)) else None
  }

  /** What was dumped is read back, or refused for its texts' lengths, its amount or its date. */
  lemma DumpReadsBack(r: Record, today: int)
    ensures Validate(Dump(r), today) ==
      if
        && 1 <= |r.sourceSystem| <= 100 && 1 <= |r.legacyClaimId| <= 255
        && (r.policyNumber.None? || |r.policyNumber.value| <= 255)
        && r.units >= 0 && r.places <= 2
        && 1 <= |r.description| <= 10000 && 1 <= |r.status| <= 50
        && r.incidentDate <= today
      then Some(r) else None
  {
    var j := Dump(r);
    assert HasShape(j);
    assert Read(j) == r;
  }

  /** A record without a status is a submitted one, and without a payload it has an empty one. */
  lemma DefaultsFilled(j: map<string, Json>, today: int)
    requires Validate(j, today).Some?
    ensures "status" !in j ==> Validate(j, today).value.status == "submitted"
    ensures "raw_payload" !in j ==> Validate(j, today).value.rawPayload == map[]
  {
  }

  lemma DumpInjective(r: Record, r': Record)
    ensures Dump(r) == Dump(r') <==> r == r'
  {
    if Dump(r) == Dump(r') {
      assert Read(Dump(r)) == r;
      assert Read(Dump(r')) == r';
    }
  }

  // ---------------------------------------------------------------- the calls

  type Key = (string, string)

  /** A stored row. Its `raw_payload` column holds the whole dump, not the record's own field. */
  datatype Row = Row(id: nat, columns: Record)

  datatype Reply = Created(id: nat) | Existing(id: nat) | Rejected

  datatype Call =
    | Looking(record: Record)
    | Inserting(record: Record)
    | Resolving(record: Record)
    | Done(record: Record, reply: Reply)
    | Dead(record: Record)

  datatype State = State(today: int, rows: seq<Row>, calls: map<nat, Call>)

  datatype Label =
    | Pass(days: nat)
    | Begin(call: nat, record: Record)
    | Lookup(call: nat)
    | Commit(call: nat, id: nat)
    | Resolve(call: nat)
    | Crash(call: nat)

  function KeyOf(r: Record): Key { (r.sourceSystem, r.legacyClaimId) }

  function RowFor(id: nat, r: Record): Row { Row(id, r.(rawPayload := Dump(r))) }

  function Find(rows: seq<Row>, key: Key): Option<Row> {
    if rows == [] then None
    else if KeyOf(rows[0].columns) == key then Some(rows[0])
    else Find(rows[1..], key)
  }

  /** The answer for a key that has a row. A stored payload that no longer validates raises the
      same kind of error as one that differs. */
  function Compare(row: Row, record: Record, today: int): Reply {
    match Validate(row.columns.rawPayload, today)
    case None => Rejected
    case Some(stored) => if Dump(stored) == Dump(record) then Existing(row.id) else Rejected
  }

  predicate Unused(rows: seq<Row>, id: nat) {
    forall i :: 0 <= i < |rows| ==> rows[i].id != id
  }

  predicate Enabled(s: State, l: Label) {
    match l
    case Pass(_) => true
    case Begin(call, record) => call !in s.calls && Acceptable(record, s.today)
    case Lookup(call) => call in s.calls && s.calls[call].Looking?
    case Commit(call, id) => call in s.calls && s.calls[call].Inserting? && Unused(s.rows, id)
    case Resolve(call) => call in s.calls && s.calls[call].Resolving?
    case Crash(call) => call in s.calls && !s.calls[call].Done? && !s.calls[call].Dead?
  }

  /** The call's next phase. A call that finds no row after the violation re-raises it. */
  function Advance(s: State, l: Label): Call
    requires Enabled(s, l) && !l.Pass?
  {
    if l.Begin? then Looking(l.record)
    else
      var record := s.calls[l.call].record;
      var found := Find(s.rows, KeyOf(record));
      match l
      case Lookup(_) => if found.Some? then Done(record, Compare(found.value, record, s.today)) else Inserting(record)
      case Commit(_, id) => if found.Some? then Resolving(record) else Done(record, Created(id))
      case Resolve(_) => if found.Some? then Done(record, Compare(found.value, record, s.today)) else Dead(record)
      case _ => Dead(record)
  }

  function Next(s: State, l: Label): State
    requires Enabled(s, l)
  {
    if l.Pass? then s.(today := s.today + l.days)
    else
      var calls := s.calls[l.call := Advance(s, l)];
      if l.Commit? && Find(s.rows, KeyOf(s.calls[l.call].record)).None?
      then s.(calls := calls, rows := s.rows + [RowFor(l.id, s.calls[l.call].record)])
      else s.(calls := calls)
  }

  predicate Valid(start: int, ls: seq<Label>)
    decreases |ls|, 0
  {
    ls == [] || (Valid(start, Init(ls)) && Enabled(Exec(start, Init(ls)), Last(ls)))
  }

  function Exec(start: int, ls: seq<Label>): State
    requires Valid(start, ls)
    decreases |ls|, 1
  {
    if ls == [] then State(start, [], map[]) else Next(Exec(start, Init(ls)), Last(ls))
  }

  // ---------------------------------------------------------------- ingestion is a get-or-create

  type Store = G.Store<nat, Key, Record, nat>
  type Step = G.Label<nat, Key, Record, nat>

  function Told(reply: Reply): G.Reply<nat> {
    match reply
    case Created(id) => G.Made(id)
    case Existing(id) => G.Found(id)
    case Rejected => G.Conflict
  }

  function Plain(c: Call): G.Call<Key, Record, nat> {
    match c
    case Looking(r) => G.Looking(KeyOf(r), r)
    case Inserting(r) => G.Committing(KeyOf(r), r)
    case Resolving(r) => G.Resolving(KeyOf(r), r)
    case Done(r, reply) => G.Done(KeyOf(r), r, Told(reply))
    case Dead(r) => G.Dead(KeyOf(r), r)
  }

  /** The abstract steps a step stands for: none for the clock, two for a lookup that misses. */
  function Steps(s: State, l: Label): seq<Step>
    requires Enabled(s, l)
  {
    match l
    case Pass(_) => []
    case Begin(call, record) => [G.Begin(call, KeyOf(record), record)]
    case Lookup(call) =>
      if Advance(s, l).Inserting? then [G.Lookup(call), G.Guard(call, true)] else [G.Lookup(call)]
    case Commit(call, id) => [G.Commit(call, id)]
    case Resolve(call) => [G.Resolve(call)]
    case Crash(call) => [G.Crash(call)]
  }

  function Lift(start: int, ls: seq<Label>): seq<Step>
    requires Valid(start, ls)
  {
    if ls == [] then [] else Lift(start, Init(ls)) + Steps(Exec(start, Init(ls)), Last(ls))
  }

  /** The row of a key is what its entry says, made from a record that validates to this day. */
  predicate RowMatches(row: Option<Row>, entry: Option<G.Entry<Record, nat>>, today: int) {
    && (row.Some? <==> entry.Some?)
    && (row.Some? ==> row.value == RowFor(entry.value.row, entry.value.fp) && Acceptable(entry.value.fp, today))
  }

  function EntryOf(g: Store, key: Key): Option<G.Entry<Record, nat>> {
    if key in g.keys then Some(g.keys[key]) else None
  }

  ghost predicate TablesMatch(s: State, g: Store) {
    && (forall key :: RowMatches(Find(s.rows, key), EntryOf(g, key), s.today))
    && (forall i :: 0 <= i < |s.rows| ==> s.rows[i].id in g.rows)
    && (forall id :: id in g.rows ==> !Unused(s.rows, id))
  }

  ghost predicate CallsMatch(s: State, g: Store) {
    && (forall c :: c in s.calls <==> c in g.calls)
    && (forall c :: c in s.calls ==> g.calls[c] == Plain(s.calls[c]) && Acceptable(s.calls[c].record, s.today))
  }

  ghost predicate Matches(s: State, g: Store) { TablesMatch(s, g) && CallsMatch(s, g) }

  lemma {:induction false} FindAppend(rows: seq<Row>, row: Row, key: Key)
    ensures Find(rows + [row], key) ==
            if Find(rows, key).Some? then Find(rows, key)
            else if KeyOf(row.columns) == key then Some(row) else None
  {
    if rows != [] {
      assert (rows + [row])[1..] == rows[1..] + [row];
      FindAppend(rows[1..], row, key);
    }
  }

  /** Reading the stored JSON back decides like comparing the records. */
  lemma CompareIsAnswer(s: State, g: Store, record: Record)
    requires TablesMatch(s, g) && Find(s.rows, KeyOf(record)).Some?
    ensures KeyOf(record) in g.keys
    ensures Told(Compare(Find(s.rows, KeyOf(record)).value, record, s.today)) == G.Answer(g.keys[KeyOf(record)], record)
  {
    assert RowMatches(Find(s.rows, KeyOf(record)), EntryOf(g, KeyOf(record)), s.today);
    var stored := g.keys[KeyOf(record)].fp;
    DumpReadsBack(stored, s.today);
    DumpInjective(stored, record);
  }

  /** An insert keeps the tables in step. */
  lemma InsertMatches(s: State, g: Store, id: nat, record: Record)
    requires TablesMatch(s, g) && Acceptable(record, s.today) && Find(s.rows, KeyOf(record)).None?
    ensures TablesMatch(
              s.(rows := s.rows + [RowFor(id, record)]),
              g.(keys := g.keys[KeyOf(record) := G.Entry(record, id)], rows := g.rows[id := record]))
  {
    var rows := s.rows + [RowFor(id, record)];
    var g' := g.(keys := g.keys[KeyOf(record) := G.Entry(record, id)], rows := g.rows[id := record]);
    forall key
      ensures RowMatches(Find(rows, key), EntryOf(g', key), s.today)
    {
      FindAppend(s.rows, RowFor(id, record), key);
      assert RowMatches(Find(s.rows, key), EntryOf(g, key), s.today);
    }
    assert rows[|s.rows|].id == id;
    forall v | v in g'.rows
      ensures !Unused(rows, v)
    {
      if v != id {
        var i :| 0 <= i < |s.rows| && s.rows[i].id == v;
        assert rows[i].id == v;
      }
    }
  }

  ghost predicate StepsTo(g: Store, steps: seq<Step>, g': Store)
    decreases |steps|
  {
    if steps == [] then g' == g
    else G.Enabled(g, steps[0]) && StepsTo(G.Next(g, steps[0]), steps[1..], g')
  }

  /** A call moves on while the tables stay as they are. */
  lemma CallMoves(s: State, g: Store, call: nat, next: Call)
    requires Matches(s, g) && Acceptable(next.record, s.today)
    ensures Matches(s.(calls := s.calls[call := next]), g.(calls := g.calls[call := Plain(next)]))
  {
  }

  lemma PassMatches(s: State, g: Store, days: nat)
    requires Matches(s, g)
    ensures Matches(Next(s, Pass(days)), g)
  {
    forall key
      ensures RowMatches(Find(s.rows, key), EntryOf(g, key), s.today + days)
    {
      assert RowMatches(Find(s.rows, key), EntryOf(g, key), s.today);
    }
  }

  lemma LookupHits(s: State, g: Store, l: Label)
    requires Matches(s, g) && Enabled(s, l) && l.Lookup? && Find(s.rows, KeyOf(s.calls[l.call].record)).Some?
    ensures Steps(s, l) == [G.Lookup(l.call)] && G.Enabled(g, G.Lookup(l.call))
    ensures Matches(Next(s, l), G.Next(g, G.Lookup(l.call)))
  {
    CompareIsAnswer(s, g, s.calls[l.call].record);
    CallMoves(s, g, l.call, Advance(s, l));
  }

  lemma LookupMisses(s: State, g: Store, l: Label) returns (g': Store)
    requires Matches(s, g) && Enabled(s, l) && l.Lookup? && Find(s.rows, KeyOf(s.calls[l.call].record)).None?
    ensures StepsTo(g, Steps(s, l), g') && Matches(Next(s, l), g')
  {
    var record := s.calls[l.call].record;
    assert RowMatches(Find(s.rows, KeyOf(record)), EntryOf(g, KeyOf(record)), s.today);
    CallMoves(s, g, l.call, Inserting(record));
    g' := LookupThenGuard(g, l.call, record);
  }

  /** The two abstract steps of a lookup that misses. */
  lemma LookupThenGuard(g: Store, call: nat, record: Record) returns (g': Store)
    requires call in g.calls && g.calls[call] == Plain(Looking(record)) && KeyOf(record) !in g.keys
    ensures g' == g.(calls := g.calls[call := Plain(Inserting(record))])
    ensures StepsTo(g, [G.Lookup(call), G.Guard(call, true)], g')
  {
    var lookup, guard := G.Lookup(call), G.Guard(call, true);
    assert [lookup, guard][1..] == [guard];
    g' := SingleStep(G.Next(g, lookup), guard);
    assert g' == g.(calls := g.calls[call := Plain(Inserting(record))]);
  }

  lemma ResolveMatches(s: State, g: Store, l: Label)
    requires Matches(s, g) && Enabled(s, l) && l.Resolve?
    ensures Steps(s, l) == [G.Resolve(l.call)] && G.Enabled(g, G.Resolve(l.call))
    ensures Matches(Next(s, l), G.Next(g, G.Resolve(l.call)))
  {
    var c := s.calls[l.call];
    assert RowMatches(Find(s.rows, KeyOf(c.record)), EntryOf(g, KeyOf(c.record)), s.today);
    if Find(s.rows, KeyOf(c.record)).Some? {
      CompareIsAnswer(s, g, c.record);
    }
    CallMoves(s, g, l.call, Advance(s, l));
  }

  lemma CommitMatches(s: State, g: Store, l: Label)
    requires Matches(s, g) && Enabled(s, l) && l.Commit?
    ensures Steps(s, l) == [G.Commit(l.call, l.id)] && G.Enabled(g, G.Commit(l.call, l.id))
    ensures Matches(Next(s, l), G.Next(g, G.Commit(l.call, l.id)))
  {
    var c := s.calls[l.call];
    assert RowMatches(Find(s.rows, KeyOf(c.record)), EntryOf(g, KeyOf(c.record)), s.today);
    CallMoves(s, g, l.call, Advance(s, l));
    if Find(s.rows, KeyOf(c.record)).None? {
      InsertMatches(s, g, l.id, c.record);
    }
  }

  lemma StepMatches(s: State, g: Store, l: Label) returns (g': Store)
    requires Matches(s, g) && Enabled(s, l)
    ensures StepsTo(g, Steps(s, l), g') && Matches(Next(s, l), g')
  {
    match l
    case Pass(days) =>
      PassMatches(s, g, days);
      g' := g;
    case Lookup(call) =>
      if Find(s.rows, KeyOf(s.calls[call].record)).Some? {
        LookupHits(s, g, l);
        g' := SingleStep(g, G.Lookup(call));
      } else {
        g' := LookupMisses(s, g, l);
      }
    case Resolve(call) =>
      ResolveMatches(s, g, l);
      g' := SingleStep(g, G.Resolve(call));
    case Commit(call, id) =>
      CommitMatches(s, g, l);
      g' := SingleStep(g, G.Commit(call, id));
    case Begin(call, record) =>
      CallMoves(s, g, call, Looking(record));
      g' := SingleStep(g, G.Begin(call, KeyOf(record), record));
    case Crash(call) =>
      CallMoves(s, g, call, Dead(s.calls[call].record));
      g' := SingleStep(g, G.Crash(call));
  }

  lemma SingleStep(g: Store, step: Step) returns (g': Store)
    requires G.Enabled(g, step)
    ensures g' == G.Next(g, step) && StepsTo(g, [step], g')
  {
    g' := G.Next(g, step);
    assert [step][1..] == [];
    assert StepsTo(g', [], g');
  }

  lemma Reassociate<T>(a: seq<T>, head: T, tail: seq<T>, b: seq<T>)
    requires b == [head] + tail
    ensures a + [head] + tail == a + b
  {
  }

  lemma {:induction false} RunExtends(ls: seq<Step>, steps: seq<Step>, g': Store)
    requires G.Valid(ls) && StepsTo(G.Exec(ls), steps, g')
    ensures G.Valid(ls + steps) && G.Exec(ls + steps) == g'
    decreases |steps|
  {
    if steps == [] {
      assert ls + steps == ls;
    } else {
      var head, tail := steps[0], steps[1..];
      G.RunOneMore(ls, head);
      RunExtends(ls + [head], tail, g');
      Reassociate(ls, head, tail, steps);
    }
  }

  /** Ingestion, clock and JSON included, is a run of the get-or-create machine in which records
      themselves are compared. */
  lemma {:induction false} IngestIsGetOrCreate(start: int, ls: seq<Label>)
    requires Valid(start, ls)
    ensures G.Valid(Lift(start, ls)) && Matches(Exec(start, ls), G.Exec(Lift(start, ls)))
  {
    if ls == [] {
      assert Matches(Exec(start, ls), G.Empty());
    } else {
      IngestIsGetOrCreate(start, Init(ls));
      var g' := StepMatches(Exec(start, Init(ls)), G.Exec(Lift(start, Init(ls))), Last(ls));
      RunExtends(Lift(start, Init(ls)), Steps(Exec(start, Init(ls)), Last(ls)), g');
    }
  }

  // ---------------------------------------------------------------- what senders can rely on

  /** The row holds a claim with the record's source system and id. */
  predicate SameClaim(row: Row, record: Record) {
    row.columns.sourceSystem == record.sourceSystem && row.columns.legacyClaimId == record.legacyClaimId
  }

  /** Every delivery is judged by the one row stored for its source system and id, on both lookup
      paths: it is rejected exactly when that row holds other content, and otherwise told the row,
      whose columns are the delivered ones. */
  lemma AnswerExactlyWhen(start: int, ls: seq<Label>, call: nat)
    requires Valid(start, ls)
    requires call in Exec(start, ls).calls && Exec(start, ls).calls[call].Done?
    ensures var s := Exec(start, ls);
      var record, reply := s.calls[call].record, s.calls[call].reply;
      && (reply.Rejected? <==>
            exists row :: row in s.rows && SameClaim(row, record) && row.columns.rawPayload != Dump(record))
      && (!reply.Rejected? ==> Row(reply.id, record.(rawPayload := Dump(record))) in s.rows)
  {
    var s := Exec(start, ls);
    var record := s.calls[call].record;
    IngestIsGetOrCreate(start, ls);
    G.InvHolds(Lift(start, ls));
    JudgedByRow(s, G.Exec(Lift(start, ls)), call);
    FindsExactly(s.rows, record);
    StoredOnce(start, ls);
    forall row | row in s.rows && SameClaim(row, record)
      ensures Find(s.rows, KeyOf(record)) == Some(row)
    {
      FindsTheOne(s.rows, row);
    }
  }

  /** A lookup finds a row with the record's source system and id, if there is one. */
  lemma {:induction false} FindsExactly(rows: seq<Row>, record: Record)
    ensures var found := Find(rows, KeyOf(record));
      && (found.Some? ==> found.value in rows && SameClaim(found.value, record))
      && (found.None? ==> forall row :: row in rows ==> !SameClaim(row, record))
  {
    if rows != [] {
      FindsExactly(rows[1..], record);
    }
  }

  ghost predicate DistinctClaims(rows: seq<Row>) {
    forall i, j :: 0 <= i < j < |rows| ==> !SameClaim(rows[i], rows[j].columns)
  }

  lemma {:induction false} FindsTheOne(rows: seq<Row>, row: Row)
    requires row in rows && DistinctClaims(rows)
    ensures Find(rows, KeyOf(row.columns)) == Some(row)
  {
    var i :| 0 <= i < |rows| && rows[i] == row;
    if i > 0 {
      assert rows[1..][i - 1] == row;
      FindsTheOne(rows[1..], row);
    }
  }

  lemma JudgedByRow(s: State, g: Store, call: nat)
    requires Matches(s, g) && G.Truthful(g) && call in s.calls && s.calls[call].Done?
    ensures var record, reply := s.calls[call].record, s.calls[call].reply;
      var row := Find(s.rows, KeyOf(record));
      && row.Some?
      && (reply.Rejected? <==> row.value.columns.rawPayload != Dump(record))
      && (!reply.Rejected? ==> row.value == RowFor(reply.id, record))
  {
    var record := s.calls[call].record;
    assert g.calls[call] == Plain(s.calls[call]);
    assert RowMatches(Find(s.rows, KeyOf(record)), EntryOf(g, KeyOf(record)), s.today);
    DumpInjective(g.keys[KeyOf(record)].fp, record);
  }

  /** Two deliveries under one source system and id: the same content is told the same row whichever came first,
      different content cannot be accepted twice, and one of them at most created the row. */
  lemma ReplayReturnsOriginal(start: int, ls: seq<Label>, call: nat, other: nat)
    requires Valid(start, ls)
    requires call in Exec(start, ls).calls && Exec(start, ls).calls[call].Done?
    requires other in Exec(start, ls).calls && Exec(start, ls).calls[other].Done?
    requires Exec(start, ls).calls[call].record.sourceSystem == Exec(start, ls).calls[other].record.sourceSystem
    requires Exec(start, ls).calls[call].record.legacyClaimId == Exec(start, ls).calls[other].record.legacyClaimId
    requires !Exec(start, ls).calls[call].reply.Rejected?
    ensures var x, y := Exec(start, ls).calls[call], Exec(start, ls).calls[other];
      && (y.reply.Rejected? <==> x.record != y.record)
      && (x.record == y.record ==> y.reply.id == x.reply.id)
      && (x.reply.Created? && y.reply.Created? ==> call == other)
  {
    IngestIsGetOrCreate(start, ls);
    var s, g := Exec(start, ls), G.Exec(Lift(start, ls));
    assert g.calls[call] == Plain(s.calls[call]) && g.calls[other] == Plain(s.calls[other]);
    G.AnswersAgree(Lift(start, ls), call, other);
  }

  /** A claim of a source system is stored at most once. */
  lemma {:induction false} StoredOnce(start: int, ls: seq<Label>)
    requires Valid(start, ls)
    ensures DistinctClaims(Exec(start, ls).rows)
    ensures forall i, j :: 0 <= i < j < |Exec(start, ls).rows| ==>
      Exec(start, ls).rows[i].id != Exec(start, ls).rows[j].id
  {
    if ls != [] {
      StoredOnce(start, Init(ls));
      var s, l := Exec(start, Init(ls)), Last(ls);
      if l.Commit? {
        FindsExactly(s.rows, s.calls[l.call].record);
      }
    }
  }

  /** All of it rests on the clock not running backwards: on an earlier day than the incident, an
      identical delivery is rejected, and only then. */
  lemma ReplayNeedsTheClock(record: Record, id: nat, accepted: int, today: int)
    requires Acceptable(record, accepted)
    ensures Compare(RowFor(id, record), record, today) ==
            if today < record.incidentDate then Rejected else Existing(id)
  {
    DumpReadsBack(record, today);
  }
}
