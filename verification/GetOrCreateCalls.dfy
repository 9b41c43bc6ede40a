/** Single calls of the get-or-create machine: which of them made a row, and what one call does when
    others are at work between its lookup and its commit. */
module GetOrCreateCalls {
  import opened Common
  import opened GetOrCreate

  // ---------------------------------------------------------------- makers

  /** The call installed the key. */
  ghost predicate Makes<C, K, F, V>(s: Store<C, K, F, V>, c: C, k: K) {
    c in s.calls && s.calls[c].key == k && s.calls[c].Done? && s.calls[c].reply.Made?
  }

  /** A key is in the table if and only if some call was told that it made its row. */
  lemma {:induction false} KeyExactlyWhenMade<C(!new), K(!new), F, V(!new)>(ls: seq<Label<C, K, F, V>>, k: K)
    requires Valid(ls)
    ensures k in Exec(ls).keys <==> exists c :: Makes(Exec(ls), c, k)
  {
    if ls != [] {
      var s, l := Exec(Init(ls)), Last(ls);
      KeyExactlyWhenMade(Init(ls), k);
      InvHolds(ls);
      if k in s.keys {
        var c :| Makes(s, c, k);
        assert Makes(Exec(ls), c, k);
      } else if k in Exec(ls).keys {
        assert Makes(Exec(ls), l.call, k);
      }
    }
  }

  // ---------------------------------------------------------------- one call at a time

  /** What a call does from its beginning to its end when other calls leave the tables as `others`
      between its lookup and its commit. A key that is there stays as it is, so nothing that
      happens later can change what the second lookup finds. */
  function Contended<C(==), K(==), F(==), V(==)>(
    s: Store<C, K, F, V>, c: C, k: K, fp: F, pass: bool, others: Store<C, K, F, V>, newRow: V): Store<C, K, F, V>
    requires c !in s.calls && newRow !in others.rows
  {
    var looked := Next(Next(s, Begin(c, k, fp)), Lookup(c));
    if k in s.keys then looked
    else
      var guarded := Next(looked, Guard(c, pass));
      if !pass then guarded
      else
        var committed := Next(guarded.(keys := others.keys, rows := others.rows), Commit(c, newRow));
        if k in others.keys then Next(committed, Resolve(c)) else committed
  }

  lemma ContendedHit<C(!new), K(!new), F, V(!new)>(
    s: Store<C, K, F, V>, c: C, k: K, fp: F, pass: bool, others: Store<C, K, F, V>, newRow: V)
    requires c !in s.calls && newRow !in others.rows && k in s.keys
    ensures Contended(s, c, k, fp, pass, others, newRow) ==
      s.(calls := s.calls[c := Done(k, fp, Answer(s.keys[k], fp))])
  {
    assert s.calls[c := Looking(k, fp)][c := Done(k, fp, Answer(s.keys[k], fp))] ==
      s.calls[c := Done(k, fp, Answer(s.keys[k], fp))];
  }

  lemma ContendedLost<C(!new), K(!new), F, V(!new)>(
    s: Store<C, K, F, V>, c: C, k: K, fp: F, others: Store<C, K, F, V>, newRow: V)
    requires c !in s.calls && newRow !in others.rows && k !in s.keys && k in others.keys
    ensures Contended(s, c, k, fp, true, others, newRow) ==
      Store(others.keys, others.rows, s.calls[c := Done(k, fp, Answer(others.keys[k], fp))])
  {
    assert s.calls[c := Resolving(k, fp)][c := Done(k, fp, Answer(others.keys[k], fp))] ==
      s.calls[c := Done(k, fp, Answer(others.keys[k], fp))];
  }

  lemma ContendedWon<C(!new), K(!new), F, V(!new)>(
    s: Store<C, K, F, V>, c: C, k: K, fp: F, others: Store<C, K, F, V>, newRow: V)
    requires c !in s.calls && newRow !in others.rows && k !in s.keys && k !in others.keys
    ensures Contended(s, c, k, fp, true, others, newRow) ==
      Store(others.keys[k := Entry(fp, newRow)], others.rows[newRow := fp], s.calls[c := Done(k, fp, Made(newRow))])
  {
    assert s.calls[c := Committing(k, fp)][c := Done(k, fp, Made(newRow))] == s.calls[c := Done(k, fp, Made(newRow))];
  }

  /** Unless the guard refuses a new row, the call is the atomic operation on the tables as its
      lookup or, failing that, its commit finds them. */
  lemma ContendedIsAtomic<C(!new), K(!new), F, V(!new)>(
    s: Store<C, K, F, V>, c: C, k: K, fp: F, pass: bool, others: Store<C, K, F, V>, newRow: V)
    requires c !in s.calls && newRow !in others.rows
    ensures var after := Contended(s, c, k, fp, pass, others, newRow);
      var op := Op(c, k, fp, newRow);
      && c in after.calls && after.calls[c].Done?
      && (after.calls[c].reply.Refused? <==> k !in s.keys && !pass)
      && (after.calls[c].reply.Refused? ==> after.keys == s.keys && after.rows == s.rows)
      && (k in s.keys ==> (after.keys, after.calls[c].reply) == Atomic(s.keys, op))
      && (k !in s.keys && pass ==> (after.keys, after.calls[c].reply) == Atomic(others.keys, op))
  {
    if k in s.keys {
      ContendedHit(s, c, k, fp, pass, others, newRow);
    } else if pass {
      if k in others.keys {
        ContendedLost(s, c, k, fp, others, newRow);
      } else {
        ContendedWon(s, c, k, fp, others, newRow);
      }
    }
  }
}
