/** Small vocabulary shared by the other modules. */
module Common {

  datatype Option<+T> = None | Some(value: T)

  /** What a column holds after a session flushes. The ORM emits only the columns whose value
      differs from the one the session loaded; every other column keeps what the table holds
      now, which another session may have changed in the meantime. */
  function Written<T(==)>(current: T, loaded: T, final: T): T {
    if final == loaded then current else final
  }

  function Pow2(n: nat): nat { if n == 0 then 1 else 2 * Pow2(n - 1) }

  function Last<T>(s: seq<T>): T
    requires s != []
  {
    s[|s| - 1]
  }

  function Init<T>(s: seq<T>): seq<T>
    requires s != []
  {
    s[..|s| - 1]
  }

  lemma {:induction false} SubsetSize<T>(a: set<T>, b: set<T>)
    requires a <= b
    ensures |a| <= |b|
    decreases a
  {
    if a != {} {
      var x :| x in a;
      SubsetSize(a - {x}, b - {x});
    }
  }

  /** A set that lists the same elements as a sequence without repetitions. */
  lemma {:induction false} DistinctSize<T>(s: seq<T>, all: set<T>)
    requires forall i, j :: 0 <= i < j < |s| ==> s[i] != s[j]
    requires forall x :: x in s <==> x in all
    ensures |all| == |s|
  {
    if s != [] {
      assert s == Init(s) + [Last(s)];
      DistinctSize(Init(s), all - {Last(s)});
    }
  }
}
