/** Claim references: the Python formatter, the database default, and the migration that numbers
    the claims already there. */
module References {
  import opened Common

  const DIGITS: nat := 6
  const MILLION: nat := 1000000

  function Digit(d: nat): char
    requires d < 10
  {
    ['0', '1', '2', '3', '4', '5', '6', '7', '8', '9'][d]
  }

  function DigitValue(c: char): nat {
    if '0' <= c <= '9' then (c as int - '0' as int) else 0
  }

  predicate IsDigits(s: string) { forall i :: 0 <= i < |s| ==> '0' <= s[i] <= '9' }

  /** A number in decimal, without leading zeros. */
  function Decimal(n: nat): string {
    if n < 10 then [Digit(n)] else Decimal(n / 10) + [Digit(n % 10)]
  }

  function Value(s: string): nat {
    if s == "" then 0 else 10 * Value(Init(s)) + DigitValue(Last(s))
  }

  function Zeros(n: nat): string { seq(n, _ => '0') }

  /** Python's `0<width>d`: pads, and lets longer numbers be longer. */
  function ZeroPad(s: string, width: nat): string {
    if |s| < width then Zeros(width - |s|) + s else s
  }

  /** PostgreSQL's `lpad(s, width, '0')`: pads, and cuts longer text on the right. */
  function LPad(s: string, width: nat): string {
    if |s| < width then Zeros(width - |s|) + s else s[..width]
  }

  function Format(year: nat, sequence: nat): string {
    "CLM-" + (ZeroPad(Decimal(year), 4) + "-" + ZeroPad(Decimal(sequence), DIGITS))
  }

  /** The column default. `to_char(now(), 'YYYY')` is taken to print years like the formatter. */
  function Default(year: nat, sequence: nat): string {
    "CLM-" + (ZeroPad(Decimal(year), 4) + "-" + LPad(Decimal(sequence), DIGITS))
  }

  // ---------------------------------------------------------------- reading a reference back

  lemma {:induction false} DecimalFacts(n: nat)
    ensures Value(Decimal(n)) == n && IsDigits(Decimal(n)) && Decimal(n) != ""
  {
    if n >= 10 {
      DecimalFacts(n / 10);
      assert Init(Decimal(n)) == Decimal(n / 10);
    } else {
      assert Init(Decimal(n)) == "";
    }
  }

  function Pow10(k: nat): nat { if k == 0 then 1 else 10 * Pow10(k - 1) }

  /** The number of digits is what the size says. */
  lemma {:induction false} DecimalLength(n: nat, k: nat)
    requires k > 0
    ensures |Decimal(n)| <= k <==> n < Pow10(k)
  {
    if n < 10 {
      Pow10AtLeastTen(k);
    } else if k == 1 {
      assert |Decimal(n / 10)| >= 1;
    } else {
      DecimalLength(n / 10, k - 1);
    }
  }

  lemma {:induction false} Pow10AtLeastTen(k: nat)
    requires k > 0
    ensures Pow10(k) >= 10
  {
    if k > 1 {
      Pow10AtLeastTen(k - 1);
    }
  }

  lemma SixDigits(n: nat)
    ensures |Decimal(n)| <= DIGITS <==> n < MILLION
  {
    DecimalLength(n, 6);
    assert Pow10(3) == 1000;
    assert Pow10(6) == MILLION;
  }

  lemma {:induction false} ZerosAddNothing(k: nat, s: string)
    ensures Value(Zeros(k) + s) == Value(s)
  {
    if s == "" {
      if k > 0 {
        assert Init(Zeros(k) + s) == Zeros(k - 1) + "";
        ZerosAddNothing(k - 1, "");
      }
    } else {
      assert Init(Zeros(k) + s) == Zeros(k) + Init(s);
      ZerosAddNothing(k, Init(s));
    }
  }

  lemma PaddedFacts(n: nat, width: nat)
    ensures Value(ZeroPad(Decimal(n), width)) == n && IsDigits(ZeroPad(Decimal(n), width))
  {
    DecimalFacts(n);
    var d := Decimal(n);
    if |d| < width {
      ZerosAddNothing(width - |d|, d);
    }
  }

  /** The position of the first dash, or the length. */
  function Dash(s: string): (i: nat)
    ensures i <= |s|
  {
    if s == "" || s[0] == '-' then 0 else 1 + Dash(s[1..])
  }

  lemma {:induction false} DashAfterDigits(digits: string, rest: string)
    requires IsDigits(digits)
    ensures Dash(digits + "-" + rest) == |digits|
  {
    var s := digits + "-" + rest;
    if digits != "" {
      assert s[1..] == digits[1..] + "-" + rest;
      DashAfterDigits(digits[1..], rest);
    }
  }

  /** Reads year and sequence value off a reference. */
  function Parse(reference: string): (nat, nat) {
    if |reference| < 4 then (0, 0)
    else
      var body := reference[4..];
      var dash := Dash(body);
      if dash == |body| then (0, 0) else (Value(body[..dash]), Value(body[dash + 1..]))
  }

  /** The form of a reference from year 0 to 9999: `CLM`, four digits for the year, and six for a
      sequence value below a million. */
  lemma FormatHasForm(year: nat, sequence: nat)
    requires year < 10000 && sequence < MILLION
    ensures var r := Format(year, sequence);
      && |r| == 15 && r[..4] == "CLM-" && r[8] == '-'
      && IsDigits(r[4..8]) && IsDigits(r[9..])
      && Value(r[4..8]) == year && Value(r[9..]) == sequence
  {
    var y, q := ZeroPad(Decimal(year), 4), ZeroPad(Decimal(sequence), 6);
    DecimalLength(year, 4);
    SixDigits(sequence);
    assert Pow10(4) == 10000;
    PaddedFacts(year, 4);
    PaddedFacts(sequence, 6);
    var r := Format(year, sequence);
    assert |y| == 4 && |q| == 6;
    assert r == "CLM-" + (y + "-" + q);
    assert r[..4] == "CLM-" && r[4..8] == y && r[8] == '-' && r[9..] == q;
  }

  /** A formatted reference determines its year and sequence value. */
  lemma ParseFormat(year: nat, sequence: nat)
    ensures Parse(Format(year, sequence)) == (year, sequence)
  {
    var y, q := ZeroPad(Decimal(year), 4), ZeroPad(Decimal(sequence), DIGITS);
    PaddedFacts(year, 4);
    PaddedFacts(sequence, DIGITS);
    ParseParts(y, q);
  }

  lemma ParseParts(y: string, q: string)
    requires IsDigits(y)
    ensures Parse("CLM-" + (y + "-" + q)) == (Value(y), Value(q))
  {
    var body := y + "-" + q;
    assert ("CLM-" + body)[4..] == body;
    DashAfterDigits(y, q);
    assert body[..|y|] == y && body[|y| + 1..] == q;
  }

  lemma FormatInjective(year: nat, sequence: nat, year': nat, sequence': nat)
    requires Format(year, sequence) == Format(year', sequence')
    ensures year == year' && sequence == sequence'
  {
    ParseFormat(year, sequence);
    ParseFormat(year', sequence');
  }

  /** The formatter and the database agree exactly up to six digits, although the formatter's
      documentation promises it formats "the same way". */
  lemma DefaultAgreesExactlyWhen(year: nat, sequence: nat)
    ensures Default(year, sequence) == Format(year, sequence) <==> sequence < MILLION
  {
    SixDigits(sequence);
    var d := Decimal(sequence);
    if |d| > DIGITS {
      assert |Default(year, sequence)| < |Format(year, sequence)|;
    }
  }

  /** Cutting gives a seven-digit value and more the reference of the value without its last
      digit. */
  lemma TruncationCollides(year: nat, sequence: nat)
    requires sequence >= MILLION
    ensures Default(year, sequence) == Default(year, sequence / 10)
    ensures 0 < sequence / 10 < sequence
  {
    SixDigits(sequence);
    var d := Decimal(sequence);
    assert d == Decimal(sequence / 10) + [Digit(sequence % 10)];
    var e := Decimal(sequence / 10);
    assert d[..DIGITS] == e[..DIGITS];
    assert LPad(e, DIGITS) == e[..DIGITS];
  }

  /** The leading six digits of a number, or all of a shorter one. */
  function Cut(n: nat): (r: nat)
    ensures r < MILLION
  {
    if n < MILLION then n else Cut(n / 10)
  }

  lemma {:induction false} DefaultIsFormatOfCut(year: nat, sequence: nat)
    ensures Default(year, sequence) == Format(year, Cut(sequence))
  {
    if sequence < MILLION {
      DefaultAgreesExactlyWhen(year, sequence);
    } else {
      TruncationCollides(year, sequence);
      DefaultIsFormatOfCut(year, sequence / 10);
    }
  }

  /** Two references from the database are equal exactly for one year and the same leading six
      digits. */
  lemma DefaultsEqualExactlyWhen(year: nat, sequence: nat, year': nat, sequence': nat)
    ensures Default(year, sequence) == Default(year', sequence') <==> year == year' && Cut(sequence) == Cut(sequence')
  {
    DefaultIsFormatOfCut(year, sequence);
    DefaultIsFormatOfCut(year', sequence');
    if Default(year, sequence) == Default(year', sequence') {
      FormatInjective(year, Cut(sequence), year', Cut(sequence'));
    }
  }

  /** The defaults of a year's first `n` sequence values are distinct exactly while `n` stays below
      a million: the next insert is refused by the unique index. */
  lemma DefaultsDistinctExactlyWhen(year: nat, n: nat)
    ensures (forall a: nat, b: nat :: 1 <= a < b <= n ==> Default(year, a) != Default(year, b)) <==> n < MILLION
  {
    if n < MILLION {
      forall a: nat, b: nat | 1 <= a < b <= n
        ensures Default(year, a) != Default(year, b)
      {
        DefaultsEqualExactlyWhen(year, a, year, b);
      }
    } else {
      TruncationCollides(year, MILLION);
      assert 1 <= MILLION / 10 < MILLION <= n;
    }
  }

  // ---------------------------------------------------------------- the migration

  datatype Claim = Claim(id: nat, createdAt: int, year: nat, reference: Option<string>)

  predicate Before(a: Claim, b: Claim) {
    a.createdAt < b.createdAt || (a.createdAt == b.createdAt && a.id < b.id)
  }

  /** The rows ahead of row `i` in `(created_at, id)` order. */
  function Ahead(claims: seq<Claim>, i: nat): set<nat>
    requires i < |claims|
  {
    set j: nat | j < |claims| && Before(claims[j], claims[i])
  }

  /** `row_number() OVER (ORDER BY created_at, id)`. */
  function Position(claims: seq<Claim>, i: nat): nat
    requires i < |claims|
  {
    |Ahead(claims, i)| + 1
  }

  predicate DistinctClaims(claims: seq<Claim>) {
    forall i, j :: 0 <= i < j < |claims| ==> claims[i].id != claims[j].id
  }

  lemma SmallerSet<T>(a: set<T>, b: set<T>)
    requires a < b
    ensures |a| < |b|
  {
    var x :| x in b && x !in a;
    assert a <= b - {x};
    SubsetSize(a, b - {x});
  }

  /** Positions follow filing order: an earlier claim has a smaller number, and only it does. */
  lemma PositionsFollowOrder(claims: seq<Claim>, i: nat, j: nat)
    requires i < |claims| && j < |claims| && DistinctClaims(claims)
    ensures Position(claims, i) < Position(claims, j) <==>
      || claims[i].createdAt < claims[j].createdAt
      || (claims[i].createdAt == claims[j].createdAt && claims[i].id < claims[j].id)
    ensures Position(claims, i) == Position(claims, j) ==> i == j
    ensures 1 <= Position(claims, i) <= |claims|
  {
    AheadGrows(claims, i, j);
    AheadGrows(claims, j, i);
    assert i != j ==> claims[i].id != claims[j].id;
    var all := Below(|claims|);
    BelowSize(|claims|);
    BelowHoldsRange(|claims|, i);
    forall k | k in Ahead(claims, i)
      ensures k in all
    {
      BelowHoldsRange(|claims|, k);
    }
    assert i in all && i !in Ahead(claims, i);
    assert Ahead(claims, i) < all;
    SmallerSet(Ahead(claims, i), all);
  }

  lemma AheadGrows(claims: seq<Claim>, i: nat, j: nat)
    requires i < |claims| && j < |claims|
    ensures Before(claims[i], claims[j]) ==> Position(claims, i) < Position(claims, j)
  {
    if Before(claims[i], claims[j]) {
      assert i in Ahead(claims, j) && i !in Ahead(claims, i);
      assert Ahead(claims, i) < Ahead(claims, j);
      SmallerSet(Ahead(claims, i), Ahead(claims, j));
    }
  }

  function Below(n: nat): set<nat> {
    if n == 0 then {} else Below(n - 1) + {n - 1}
  }

  lemma {:induction false} BelowHoldsRange(n: nat, k: nat)
    ensures k in Below(n) <==> k < n
  {
    if n > 0 {
      BelowHoldsRange(n - 1, k);
    }
  }

  lemma {:induction false} BelowSize(n: nat)
    ensures |Below(n)| == n
  {
    if n > 0 {
      BelowSize(n - 1);
      BelowHoldsRange(n - 1, n - 1);
    }
  }

  /** Where `setval` leaves the sequence: never below 1, so the first claim filed into an empty
      table gets number 2 or more. */
  function Start(n: nat): nat { if n >= 1 then n else 1 }

  /** The year and the sequence value a reference is made of. */
  datatype Number = Number(year: nat, value: nat)

  function Reference(n: Number): string { Default(n.year, n.value) }

  /** What the migration gives the claims already there. */
  function Backfill(claims: seq<Claim>): seq<Number> {
    seq(|claims|, i requires 0 <= i < |claims| => Number(claims[i].year, Position(claims, i)))
  }

  predicate DistinctValues(ns: seq<Number>) {
    forall i, j :: 0 <= i < j < |ns| ==> ns[i].value != ns[j].value
  }

  /** Numbers handed out after the migration of `n` claims: the sequence never repeats a value, and
      what it hands out lies above what the migration used. Values may be skipped, and claims may
      be stored in another order than their values were taken. */
  predicate HandedOut(n: nat, ns: seq<Number>, lastValue: nat) {
    && DistinctValues(ns)
    && (forall i :: 0 <= i < |ns| ==> Start(n) < ns[i].value <= lastValue)
  }

  lemma BackfillDistinct(claims: seq<Claim>)
    requires DistinctClaims(claims)
    ensures DistinctValues(Backfill(claims))
    ensures forall i :: 0 <= i < |claims| ==> 1 <= Backfill(claims)[i].value <= |claims|
  {
    forall i, j | 0 <= i < |claims| && 0 <= j < |claims|
      ensures Backfill(claims)[i].value == Backfill(claims)[j].value ==> i == j
      ensures 1 <= Backfill(claims)[i].value <= |claims|
    {
      PositionsFollowOrder(claims, i, j);
    }
  }

  lemma AllDistinct(numbered: seq<Claim>, later: seq<Number>, lastValue: nat)
    requires DistinctClaims(numbered) && HandedOut(|numbered|, later, lastValue)
    ensures DistinctValues(Backfill(numbered) + later)
    ensures Start(|numbered|) <= lastValue ==>
      forall i :: 0 <= i < |numbered| + |later| ==> (Backfill(numbered) + later)[i].value <= lastValue
  {
    BackfillDistinct(numbered);
    var all := Backfill(numbered) + later;
    forall i | 0 <= i < |all|
      ensures if i < |numbered| then all[i].value <= |numbered| else Start(|numbered|) < all[i].value <= lastValue
    {
    }
  }

  /** While the sequence value stays below a million, all references differ, whether the migration
      backfilled them or they were issued later, whatever the years, however many values rolled
      back inserts skipped and in whatever order claims were committed. */
  lemma ReferencesDistinct(numbered: seq<Claim>, later: seq<Number>, lastValue: nat, i: nat, j: nat)
    requires DistinctClaims(numbered) && HandedOut(|numbered|, later, lastValue)
    requires Start(|numbered|) <= lastValue < MILLION
    requires i < j < |numbered| + |later|
    ensures var all := Backfill(numbered) + later;
      Reference(all[i]) != Reference(all[j])
  {
    AllDistinct(numbered, later, lastValue);
    var all := Backfill(numbered) + later;
    DefaultsEqualExactlyWhen(all[i].year, all[i].value, all[j].year, all[j].value);
  }

  /** Flushed inserts hold numbers nobody else has. */
  predicate TakenApart(n: nat, taken: map<nat, Number>, later: seq<Number>, lastValue: nat) {
    && (forall c :: c in taken ==> Start(n) < taken[c].value <= lastValue)
    && (forall c, i :: c in taken && 0 <= i < |later| ==> taken[c].value != later[i].value)
    && (forall c, d :: c in taken && d in taken && taken[c].value == taken[d].value ==> c == d)
  }

  predicate FlushedAs(flushed: map<nat, Claim>, taken: map<nat, Number>) {
    taken.Keys == flushed.Keys && forall c :: c in taken ==> flushed[c].reference == Some(Reference(taken[c]))
  }

  predicate Referenced(claims: seq<Claim>, numbers: seq<Number>) {
    |claims| == |numbers| && forall i :: 0 <= i < |claims| ==> claims[i].reference == Some(Reference(numbers[i]))
  }

  lemma CommitTaken(n: nat, taken: map<nat, Number>, later: seq<Number>, lastValue: nat, c: nat)
    requires HandedOut(n, later, lastValue) && TakenApart(n, taken, later, lastValue) && c in taken
    ensures HandedOut(n, later + [taken[c]], lastValue)
    ensures TakenApart(n, taken - {c}, later + [taken[c]], lastValue)
  {
  }

  lemma FlushTaken(n: nat, taken: map<nat, Number>, later: seq<Number>, lastValue: nat, c: nat, year: nat)
    requires Start(n) <= lastValue && HandedOut(n, later, lastValue) &&
      TakenApart(n, taken, later, lastValue) && c !in taken
    ensures HandedOut(n, later, lastValue + 1)
    ensures TakenApart(n, taken[c := Number(year, lastValue + 1)], later, lastValue + 1)
  {
  }

  lemma ReferencedAppend(claims: seq<Claim>, numbered: seq<Claim>, later: seq<Number>, c: Claim, number: Number)
    requires Referenced(claims, Backfill(numbered) + later) && c.reference == Some(Reference(number))
    ensures Referenced(claims + [c], Backfill(numbered) + (later + [number]))
  {
    assert Backfill(numbered) + (later + [number]) == Backfill(numbered) + later + [number];
  }

  /** The claim table, the sequence behind new references, and the inserts that are flushed and not
      yet committed. */
  class ClaimTable {
    var claims: seq<Claim>
    var lastValue: nat
    var flushed: map<nat, Claim>
    ghost var later: seq<Number>
    ghost var taken: map<nat, Number>

    constructor (claims: seq<Claim>)
      ensures this.claims == claims && flushed == map[]
    {
      this.claims, lastValue, flushed := claims, 0, map[];
      later, taken := [], map[];
    }

    /** The state after the migration numbered `numbered`, whatever was filed since. */
    ghost predicate Holds(numbered: seq<Claim>)
      reads this
    {
      && Start(|numbered|) <= lastValue
      && HandedOut(|numbered|, later, lastValue)
      && TakenApart(|numbered|, taken, later, lastValue)
      && FlushedAs(flushed, taken)
      && Referenced(claims, Backfill(numbered) + later)
      && (forall i :: 0 <= i < |numbered| ==> claims[i].(reference := None) == numbered[i].(reference := None))
    }

    /** The backfill and the sequence advance of `upgrade`. */
    method Upgrade()
      requires flushed == map[]
      modifies this
      ensures Holds(old(claims)) && |claims| == |old(claims)| && flushed == map[]
      ensures lastValue == if |claims| == 0 then 1 else |claims|
      ensures forall i: nat :: i < |claims| ==>
        var source := old(claims)[i];
        claims[i] == source.(reference := Some(Default(source.year, Position(old(claims), i))))
    {
      var source := claims;
      claims := seq(|source|, i requires 0 <= i < |source| =>
        source[i].(reference := Some(Default(source[i].year, Position(source, i)))));
      lastValue := if |claims| >= 1 then |claims| else 1;
      later, taken := [], map[];
    }

    /** Flushing a new claim takes the next sequence value for its reference. */
    method Flush(call: nat, id: nat, createdAt: int, year: nat, ghost numbered: seq<Claim>)
      requires Holds(numbered) && call !in flushed
      modifies this
      ensures Holds(numbered) && claims == old(claims) && lastValue == old(lastValue) + 1
      ensures flushed == old(flushed)[call := Claim(id, createdAt, year, Some(Default(year, lastValue)))]
    {
      FlushTaken(|numbered|, taken, later, lastValue, call, year);
      lastValue := lastValue + 1;
      flushed := flushed[call := Claim(id, createdAt, year, Some(Default(year, lastValue)))];
      taken := taken[call := Number(year, lastValue)];
    }

    method Commit(call: nat, ghost numbered: seq<Claim>)
      requires Holds(numbered) && call in flushed
      modifies this
      ensures Holds(numbered) && lastValue == old(lastValue)
      ensures claims == old(claims) + [old(flushed)[call]] && flushed == old(flushed) - {call}
    {
      CommitTaken(|numbered|, taken, later, lastValue, call);
      ReferencedAppend(claims, numbered, later, flushed[call], taken[call]);
      claims := claims + [flushed[call]];
      flushed := flushed - {call};
      later := later + [taken[call]];
      taken := taken - {call};
    }

    /** The references in the table are pairwise different while the sequence value is below a
        million. */
    lemma TableReferencesDistinct(numbered: seq<Claim>, i: nat, j: nat)
      requires Holds(numbered) && DistinctClaims(numbered) && lastValue < MILLION && i < j < |claims|
      ensures claims[i].reference != claims[j].reference
    {
      ReferencesDistinct(numbered, later, lastValue, i, j);
    }

    /** A rollback, as the loser of a race makes it, does not give the sequence value back. */
    method Rollback(call: nat, ghost numbered: seq<Claim>)
      requires Holds(numbered) && call in flushed
      modifies this
      ensures Holds(numbered) && lastValue == old(lastValue) && claims == old(claims)
      ensures flushed == old(flushed) - {call}
    {
      flushed := flushed - {call};
      taken := taken - {call};
    }
  }
}
