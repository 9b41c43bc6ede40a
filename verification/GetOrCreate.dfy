/** Get-or-create under a unique constraint: look the key up, run a guard, insert, and when the
    commit trips the constraint roll back and look the key up again. The Claims Service, the
    orchestrator and the legacy adapter all use it, with any number of calls in flight.

    Each step below is one atomic database interaction of one call; steps of different calls
    interleave freely and a call may stop for ever between two of its steps. PostgreSQL is
    assumed to commit atomically, to show every statement the latest committed rows, and to
    enforce the unique constraint on commit. */
module GetOrCreate {
  import opened Common

  /** A row of the key table: the fingerprint of the request and the row it points to. */
  datatype Entry<F, V> = Entry(fp: F, row: V)

  /** How a call ends. `Refused` is the guard saying no (the policy lookup of the Claims
      Service); the other two services have no guard. */
  datatype Reply<V> = Found(row: V) | Made(row: V) | Conflict | Refused

  datatype Call<K, F, V> =
    | Looking(key: K, fp: F)
    | Guarding(key: K, fp: F)
    | Committing(key: K, fp: F)
    | Resolving(key: K, fp: F)
    | Done(key: K, fp: F, reply: Reply<V>)
    | Dead(key: K, fp: F)

  /** `rows` is the table of created things, each with the request it was created from. */
  datatype Store<C, K, F, V> =
    Store(keys: map<K, Entry<F, V>>, rows: map<V, F>, calls: map<C, Call<K, F, V>>)

  datatype Label<C, K, F, V> =
    | Begin(call: C, key: K, fp: F)
    | Lookup(call: C)
    | Guard(call: C, pass: bool)
    | Commit(call: C, newRow: V)
    | Resolve(call: C)
    | Crash(call: C)

  function Empty<C, K, F, V>(): Store<C, K, F, V> { Store(map[], map[], map[]) }

  /** What finding an entry means for a request: its row, or a conflict. */
  function Answer<F(==), V>(e: Entry<F, V>, fp: F): Reply<V> {
    if e.fp == fp then Found(e.row) else Conflict
  }

  /** When a step can happen. A fresh row id is one no row carries (random UUIDs). */
  predicate Enabled<C(==), K(==), F(==), V(==)>(s: Store<C, K, F, V>, l: Label<C, K, F, V>) {
    if l.Begin? then l.call !in s.calls
    else
      && l.call in s.calls
      && var c := s.calls[l.call];
      match l
      case Lookup(_) => c.Looking?
      case Guard(_, _) => c.Guarding?
      case Commit(_, newRow) => c.Committing? && newRow !in s.rows
      case Resolve(_) => c.Resolving?
      case Crash(_) => !c.Done? && !c.Dead?
      case Begin(_, _, _) => false
  }

  /** The call's next phase. */
  function Advance<C(==), K(==), F(==), V(==)>(s: Store<C, K, F, V>, l: Label<C, K, F, V>): Call<K, F, V>
    requires Enabled(s, l)
  {
    if l.Begin? then Looking(l.key, l.fp)
    else
      var c := s.calls[l.call];
      var k, fp := c.key, c.fp;
      match l
      case Lookup(_) => if k in s.keys then Done(k, fp, Answer(s.keys[k], fp)) else Guarding(k, fp)
      case Guard(_, pass) => if pass then Committing(k, fp) else Done(k, fp, Refused)
      case Commit(_, newRow) => if k in s.keys then Resolving(k, fp) else Done(k, fp, Made(newRow))
      case Resolve(_) => if k in s.keys then Done(k, fp, Answer(s.keys[k], fp)) else Dead(k, fp)
      case Crash(_) => Dead(k, fp)
      case Begin(_, _, _) => c
  }

  /** Whether the step commits a new row; a commit that trips the constraint changes no table. */
  predicate Inserts<C(==), K(==), F(==), V(==)>(s: Store<C, K, F, V>, l: Label<C, K, F, V>)
    requires Enabled(s, l)
  {
    l.Commit? && s.calls[l.call].key !in s.keys
  }

  function Next<C(==), K(==), F(==), V(==)>(s: Store<C, K, F, V>, l: Label<C, K, F, V>): Store<C, K, F, V>
    requires Enabled(s, l)
  {
    var calls := s.calls[l.call := Advance(s, l)];
    if Inserts(s, l) then
      var c := s.calls[l.call];
      Store(s.keys[c.key := Entry(c.fp, l.newRow)], s.rows[l.newRow := c.fp], calls)
    else
      s.(calls := calls)
  }

  // ---------------------------------------------------------------- state invariant

  /** Key records and rows are in bijection, and agree on the request. */
  ghost predicate Bijection<C, K(!new), F, V(!new)>(s: Store<C, K, F, V>) {
    && (forall k :: k in s.keys ==> s.keys[k].row in s.rows && s.rows[s.keys[k].row] == s.keys[k].fp)
    && (forall v :: v in s.rows ==> exists k :: k in s.keys && s.keys[k].row == v)
    && (forall k, k' :: k in s.keys && k' in s.keys && s.keys[k].row == s.keys[k'].row ==> k == k')
  }

  /** What a call has been told, or is about to be told, is what the key table says. */
  ghost predicate Truthful<C(!new), K, F, V>(s: Store<C, K, F, V>) {
    forall c :: c in s.calls ==>
      var call := s.calls[c];
      && (call.Resolving? ==> call.key in s.keys)
      && (call.Done? && !call.reply.Refused? ==>
            && call.key in s.keys
            && (call.reply.Conflict? <==> s.keys[call.key].fp != call.fp)
            && (call.reply.Made? || call.reply.Found? ==> s.keys[call.key].row == call.reply.row))
  }

  /** Each row has one maker. */
  ghost predicate OneMaker<C(!new), K, F, V>(s: Store<C, K, F, V>) {
    && (forall c :: c in s.calls && s.calls[c].Done? && s.calls[c].reply.Made? ==> s.calls[c].reply.row in s.rows)
    && (forall c, c' ::
          && c in s.calls && s.calls[c].Done? && s.calls[c].reply.Made?
          && c' in s.calls && s.calls[c'].Done? && s.calls[c'].reply.Made?
          && s.calls[c].reply.row == s.calls[c'].reply.row
          ==> c == c')
  }

  ghost predicate Inv<C(!new), K(!new), F, V(!new)>(s: Store<C, K, F, V>) {
    Bijection(s) && Truthful(s) && OneMaker(s)
  }

  lemma BijectionKept<C(!new), K(!new), F, V(!new)>(s: Store<C, K, F, V>, l: Label<C, K, F, V>)
    requires Bijection(s) && Enabled(s, l)
    ensures Bijection(Next(s, l))
  {
    var s' := Next(s, l);
    if Inserts(s, l) {
      var key := s.calls[l.call].key;
      forall v | v in s'.rows
        ensures exists k :: k in s'.keys && s'.keys[k].row == v
      {
        if v == l.newRow {
          assert key in s'.keys && s'.keys[key].row == v;
        } else {
          var k :| k in s.keys && s.keys[k].row == v;
          assert k in s'.keys && s'.keys[k].row == v;
        }
      }
    }
  }

  lemma TruthfulKept<C(!new), K(!new), F, V(!new)>(s: Store<C, K, F, V>, l: Label<C, K, F, V>)
    requires Truthful(s) && Enabled(s, l)
    ensures Truthful(Next(s, l))
  {
  }

  lemma OneMakerKept<C(!new), K(!new), F, V(!new)>(s: Store<C, K, F, V>, l: Label<C, K, F, V>)
    requires OneMaker(s) && Enabled(s, l)
    ensures OneMaker(Next(s, l))
  {
  }

  lemma InvKept<C(!new), K(!new), F, V(!new)>(s: Store<C, K, F, V>, l: Label<C, K, F, V>)
    requires Inv(s) && Enabled(s, l)
    ensures Inv(Next(s, l))
  {
    BijectionKept(s, l);
    TruthfulKept(s, l);
    OneMakerKept(s, l);
  }

  /** Committed keys and rows are never changed or removed. */
  ghost predicate Grows<C, K(!new), F, V(!new)>(s: Store<C, K, F, V>, s': Store<C, K, F, V>) {
    && (forall k :: k in s.keys ==> k in s'.keys && s'.keys[k] == s.keys[k])
    && (forall v :: v in s.rows ==> v in s'.rows && s'.rows[v] == s.rows[v])
  }

  lemma StepGrows<C(!new), K(!new), F, V(!new)>(s: Store<C, K, F, V>, l: Label<C, K, F, V>)
    requires Enabled(s, l)
    ensures Grows(s, Next(s, l))
  {
  }

  // ---------------------------------------------------------------- runs

  /** `ls` is a run from the empty store. */
  predicate Valid<C(==), K(==), F(==), V(==)>(ls: seq<Label<C, K, F, V>>)
    decreases |ls|, 0
  {
    ls == [] || (Valid(Init(ls)) && Enabled(Exec(Init(ls)), Last(ls)))
  }

  function Exec<C(==), K(==), F(==), V(==)>(ls: seq<Label<C, K, F, V>>): Store<C, K, F, V>
    requires Valid(ls)
    decreases |ls|, 1
  {
    if ls == [] then Empty() else Next(Exec(Init(ls)), Last(ls))
  }

  lemma {:induction false} InvHolds<C(!new), K(!new), F, V(!new)>(ls: seq<Label<C, K, F, V>>)
    requires Valid(ls)
    ensures Inv(Exec(ls))
  {
    if ls != [] {
      InvHolds(Init(ls));
      InvKept(Exec(Init(ls)), Last(ls));
    }
  }

  lemma RunOneMore<C(!new), K(!new), F, V(!new)>(ls: seq<Label<C, K, F, V>>, l: Label<C, K, F, V>)
    requires Valid(ls) && Enabled(Exec(ls), l)
    ensures Valid(ls + [l]) && Exec(ls + [l]) == Next(Exec(ls), l)
  {
    assert Init(ls + [l]) == ls;
  }

  // ---------------------------------------------------------------- the atomic map it refines

  /** One atomic get-or-create: `candidate` is the row to install if the key is new. */
  datatype Op<C, K, F, V> = Op(call: C, key: K, fp: F, candidate: V)

  function Atomic<C, K(==), F(==), V>(m: map<K, Entry<F, V>>, op: Op<C, K, F, V>): (map<K, Entry<F, V>>, Reply<V>) {
    if op.key in m then (m, Answer(m[op.key], op.fp))
    else (m[op.key := Entry(op.fp, op.candidate)], Made(op.candidate))
  }

  /** Running the operations one after the other: the final map, and what each call was told. */
  function Sequential<C(==), K(==), F(==), V>(ops: seq<Op<C, K, F, V>>): (map<K, Entry<F, V>>, map<C, Reply<V>>) {
    if ops == [] then (map[], map[])
    else
      var (m, told) := Sequential(Init(ops));
      var (m', reply) := Atomic(m, Last(ops));
      (m', told[Last(ops).call := reply])
  }

  /** The atomic operation a step stands for, if it is the one at which its call takes effect:
      a lookup that hits, or a commit that succeeds. */
  function Effect<C(==), K(==), F(==), V(==)>(s: Store<C, K, F, V>, l: Label<C, K, F, V>): Option<Op<C, K, F, V>>
    requires Enabled(s, l)
  {
    if l.Begin? then None
    else
      var c := s.calls[l.call];
      if (l.Lookup? || l.Resolve?) && c.key in s.keys then Some(Op(l.call, c.key, c.fp, s.keys[c.key].row))
      else if Inserts(s, l) then Some(Op(l.call, c.key, c.fp, l.newRow))
      else None
  }

  /** The sequential history of a run. */
  function Ops<C(==), K(==), F(==), V(==)>(ls: seq<Label<C, K, F, V>>): seq<Op<C, K, F, V>>
    requires Valid(ls)
  {
    if ls == [] then []
    else match Effect(Exec(Init(ls)), Last(ls))
      case None => Ops(Init(ls))
      case Some(op) => Ops(Init(ls)) + [op]
  }

  ghost predicate Occurs<C(!new), K, F, V>(ops: seq<Op<C, K, F, V>>, c: C) {
    exists i :: 0 <= i < |ops| && ops[i].call == c
  }

  ghost predicate OncePerCall<C, K, F, V>(ops: seq<Op<C, K, F, V>>) {
    forall i, j :: 0 <= i < j < |ops| ==> ops[i].call != ops[j].call
  }

  /** A call has taken effect in the history exactly when it is over with an answer; a dead call
      or one still running has not. */
  ghost predicate HistoryMatches<C(!new), K, F, V>(ops: seq<Op<C, K, F, V>>, s: Store<C, K, F, V>) {
    && (forall c :: Occurs(ops, c) <==> Answered(s, c))
    && (forall c :: Answered(s, c) ==> c in Sequential(ops).1 && Sequential(ops).1[c] == s.calls[c].reply)
    && (forall i :: 0 <= i < |ops| ==> ops[i].call in s.calls && AsksFor(s.calls[ops[i].call], ops[i]))
  }

  ghost predicate Answered<C, K, F, V>(s: Store<C, K, F, V>, c: C) {
    c in s.calls && s.calls[c].Done? && !s.calls[c].reply.Refused?
  }

  ghost predicate AsksFor<C, K, F, V>(call: Call<K, F, V>, op: Op<C, K, F, V>) {
    op.key == call.key && op.fp == call.fp
  }

  lemma OccursAppend<C(!new), K, F, V>(ops: seq<Op<C, K, F, V>>, op: Op<C, K, F, V>)
    ensures forall c :: Occurs(ops + [op], c) <==> Occurs(ops, c) || c == op.call
  {
    var all := ops + [op];
    forall c
      ensures Occurs(all, c) <==> Occurs(ops, c) || c == op.call
    {
      if Occurs(ops, c) {
        var i :| 0 <= i < |ops| && ops[i].call == c;
        assert all[i].call == c;
      }
      assert all[|ops|] == op;
    }
  }

  /** A step that is not its call's effect changes neither the table nor who has been answered. */
  lemma SilentStep<C(!new), K(!new), F, V(!new)>(ops: seq<Op<C, K, F, V>>, s: Store<C, K, F, V>, l: Label<C, K, F, V>)
    requires HistoryMatches(ops, s) && Enabled(s, l) && Effect(s, l).None?
    ensures Next(s, l).keys == s.keys
    ensures HistoryMatches(ops, Next(s, l))
  {
    var s' := Next(s, l);
    forall c
      ensures Answered(s', c) <==> Answered(s, c)
      ensures Answered(s, c) ==> s'.calls[c] == s.calls[c]
    {
    }
    forall i | 0 <= i < |ops|
      ensures ops[i].call in s'.calls && AsksFor(s'.calls[ops[i].call], ops[i])
    {
      assert AsksFor(s.calls[ops[i].call], ops[i]);
    }
  }

  /** The effect of a call is the atomic operation on the table as it stands at that moment. */
  lemma EffectStep<C(!new), K(!new), F, V(!new)>(
    ops: seq<Op<C, K, F, V>>, s: Store<C, K, F, V>, l: Label<C, K, F, V>, op: Op<C, K, F, V>)
    requires HistoryMatches(ops, s) && OncePerCall(ops) && Sequential(ops).0 == s.keys
    requires Enabled(s, l) && Effect(s, l) == Some(op)
    ensures Sequential(ops + [op]).0 == Next(s, l).keys
    ensures OncePerCall(ops + [op])
    ensures HistoryMatches(ops + [op], Next(s, l))
  {
    var s', all := Next(s, l), ops + [op];
    assert Init(all) == ops && Last(all) == op;
    OccursAppend(ops, op);
    assert !Answered(s, op.call);
    assert !Occurs(ops, op.call);
    assert s'.calls[op.call] == Done(op.key, op.fp, Atomic(s.keys, op).1);
    forall c
      ensures Occurs(all, c) <==> Answered(s', c)
      ensures Answered(s', c) ==> c in Sequential(all).1 && Sequential(all).1[c] == s'.calls[c].reply
    {
      if c != op.call {
        assert Answered(s', c) <==> Answered(s, c);
      }
    }
    forall i | 0 <= i < |all|
      ensures all[i].call in s'.calls && AsksFor(s'.calls[all[i].call], all[i])
    {
      if i < |ops| {
        assert AsksFor(s.calls[ops[i].call], ops[i]);
        assert Occurs(ops, ops[i].call);
      }
    }
    forall i, j | 0 <= i < j < |all|
      ensures all[i].call != all[j].call
    {
      assert Occurs(ops, ops[i].call);
    }
  }

  /** Linearizability: every interleaving behaves like the calls that got an answer, run one at a
      time against an atomic map. Each such call took effect once, was told what the atomic
      operation says, and the table ends up as that sequential run leaves it. */
  lemma {:induction false} RefinesAtomicMap<C(!new), K(!new), F, V(!new)>(ls: seq<Label<C, K, F, V>>)
    requires Valid(ls)
    ensures Sequential(Ops(ls)).0 == Exec(ls).keys
    ensures OncePerCall(Ops(ls))
    ensures HistoryMatches(Ops(ls), Exec(ls))
  {
    if ls != [] {
      RefinesAtomicMap(Init(ls));
      var before, l := Exec(Init(ls)), Last(ls);
      match Effect(before, l)
      case None => SilentStep(Ops(Init(ls)), before, l);
      case Some(op) => EffectStep(Ops(Init(ls)), before, l, op);
    }
  }

  /** The history respects real time: if one call was answered in the first part of a run and another
      began after it, the first call comes first. */
  lemma RespectsRealTime<C(!new), K(!new), F, V(!new)>(
    first: seq<Label<C, K, F, V>>, rest: seq<Label<C, K, F, V>>, early: C, late: C)
    requires Valid(first) && Valid(first + rest)
    requires Answered(Exec(first), early) && late !in Exec(first).calls
    ensures var all := Ops(first + rest);
      forall i, j :: 0 <= i < |all| && 0 <= j < |all| && all[i].call == early && all[j].call == late ==> i < j
  {
    HistoryGrows(first, rest);
    RefinesAtomicMap(first);
    RefinesAtomicMap(first + rest);
    OrderedByPrefix(Ops(first), Ops(first + rest), early, late);
  }

  lemma OrderedByPrefix<C(!new), K, F, V>(
    some: seq<Op<C, K, F, V>>, all: seq<Op<C, K, F, V>>, early: C, late: C)
    requires some <= all && OncePerCall(all) && Occurs(some, early) && !Occurs(some, late)
    ensures forall i, j :: 0 <= i < |all| && 0 <= j < |all| && all[i].call == early && all[j].call == late ==> i < j
  {
    var e :| 0 <= e < |some| && some[e].call == early;
    assert forall k :: 0 <= k < |some| ==> all[k] == some[k] && some[k].call != late;
    forall i, j | 0 <= i < |all| && 0 <= j < |all| && all[i].call == early && all[j].call == late
      ensures i < j
    {
      assert all[e].call == early && i == e;
    }
  }

  lemma {:induction false} HistoryGrows<C(!new), K(!new), F, V(!new)>(
    first: seq<Label<C, K, F, V>>, rest: seq<Label<C, K, F, V>>)
    requires Valid(first + rest)
    ensures Valid(first) && Ops(first) <= Ops(first + rest)
    decreases |rest|
  {
    if rest == [] {
      assert first + rest == first;
    } else {
      assert Init(first + rest) == first + Init(rest);
      HistoryGrows(first, Init(rest));
    }
  }

  // ---------------------------------------------------------------- the guard

  /** The call's own steps up to a passed guard, at positions `b < g` of the run. */
  ghost predicate Guarded<C, K, F, V>(ls: seq<Label<C, K, F, V>>, c: C, k: K, fp: F, b: int, g: int) {
    0 <= b < g < |ls| && ls[b] == Begin(c, k, fp) && ls[g] == Guard(c, true)
  }

  ghost predicate Began<C, K, F, V>(ls: seq<Label<C, K, F, V>>, c: C, k: K, fp: F, b: int) {
    0 <= b < |ls| && ls[b] == Begin(c, k, fp)
  }

  ghost predicate GuardHistory<C(!new), K, F, V>(ls: seq<Label<C, K, F, V>>, s: Store<C, K, F, V>) {
    forall c :: c in s.calls ==>
      var call := s.calls[c];
      && (exists b :: Began(ls, c, call.key, call.fp, b))
      && (call.Committing? ==> exists b, g :: Guarded(ls, c, call.key, call.fp, b, g))
  }

  lemma {:induction false} GuardHistoryHolds<C(!new), K(!new), F, V(!new)>(ls: seq<Label<C, K, F, V>>)
    requires Valid(ls)
    ensures GuardHistory(ls, Exec(ls))
  {
    if ls != [] {
      var init, l := Init(ls), Last(ls);
      var s, s' := Exec(init), Exec(ls);
      GuardHistoryHolds(init);
      forall c | c in s'.calls
        ensures var call := s'.calls[c];
          && (exists b :: Began(ls, c, call.key, call.fp, b))
          && (call.Committing? ==> exists b, g :: Guarded(ls, c, call.key, call.fp, b, g))
      {
        var k, fp := s'.calls[c].key, s'.calls[c].fp;
        if l.Begin? && l.call == c {
          assert Began(ls, c, k, fp, |init|);
        } else {
          var b :| Began(init, c, k, fp, b);
          assert Began(ls, c, k, fp, b);
          if s.calls[c].Committing? {
            var b', g' :| Guarded(init, c, k, fp, b', g');
            assert Guarded(ls, c, k, fp, b', g');
          } else if s'.calls[c].Committing? {
            assert Guarded(ls, c, k, fp, b, |init|);
          }
        }
      }
    }
  }

  /** No row without a guard passed during the very call that committed it, between the call's
      beginning at position `b` with the row's request and its commit at position `m`. */
  lemma {:induction false} RowsAreGuarded<C(!new), K(!new), F, V(!new)>(ls: seq<Label<C, K, F, V>>, v: V)
    returns (c: C, k: K, b: int, g: int, m: int)
    requires Valid(ls) && v in Exec(ls).rows
    ensures Guarded(ls, c, k, Exec(ls).rows[v], b, g) && g < m < |ls| && ls[m] == Commit(c, v)
    ensures k in Exec(ls).keys && Exec(ls).keys[k].row == v
  {
    var init, l := Init(ls), Last(ls);
    if v in Exec(init).rows {
      c, k, b, g, m := RowsAreGuarded(init, v);
    } else {
      GuardHistoryHolds(init);
      c, m := l.call, |init|;
      k := Exec(init).calls[c].key;
      b, g :| Guarded(init, c, k, Exec(ls).rows[v], b, g);
    }
  }

  // ---------------------------------------------------------------- what callers rely on

  /** Two answered calls with one key: equal requests are told the same row, different requests
      cannot both be told a row, and neither "not found after the violation" nor a record without
      its row ever arises. */
  lemma AnswersAgree<C(!new), K(!new), F, V(!new)>(ls: seq<Label<C, K, F, V>>, c: C, c': C)
    requires Valid(ls)
    requires c in Exec(ls).calls && Exec(ls).calls[c].Done? && !Exec(ls).calls[c].reply.Refused?
    requires c' in Exec(ls).calls && Exec(ls).calls[c'].Done? && !Exec(ls).calls[c'].reply.Refused?
    requires Exec(ls).calls[c].key == Exec(ls).calls[c'].key
    requires !Exec(ls).calls[c].reply.Conflict?
    ensures var x, y := Exec(ls).calls[c], Exec(ls).calls[c'];
      && (y.reply.Conflict? <==> x.fp != y.fp)
      && (x.fp == y.fp ==> y.reply.row == x.reply.row)
      && x.reply.row in Exec(ls).rows && Exec(ls).rows[x.reply.row] == x.fp
      && (x.reply.Made? && y.reply.Made? ==> c == c')
  {
    InvHolds(ls);
  }

  /** The second lookup, after a unique violation, always finds the record. */
  lemma ResolveFinds<C(!new), K(!new), F, V(!new)>(ls: seq<Label<C, K, F, V>>, c: C)
    requires Valid(ls) && Enabled(Exec(ls), Resolve(c))
    ensures Advance(Exec(ls), Resolve(c)).Done?
  {
    InvHolds(ls);
  }
}
