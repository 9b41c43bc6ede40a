/** Ranked retrieval over stored knowledge: which words of a question a row shares, and the rows
    that share the most. */
module Retrieval {
  import opened Common

  datatype Row = Row(
    id: string, title: string, content: string,
    policyId: Option<string>, claimId: Option<string>, source: string, createdAt: string)

  datatype Scored = Scored(score: nat, row: Row)

  // ---------------------------------------------------------------- words

  /** `str.lower`, as far as `[a-z0-9]` can see it: besides A to Z only the Kelvin sign and the
      dotted capital I have lower-case forms that contain an ASCII letter or digit; every other
      character outside `[a-z0-9]` stays outside and may as well stay itself. */
  function LowerChar(c: char): string {
    if 'A' <= c <= 'Z' then [(c as int + 32) as char]
    else if c == '\U{212A}' then "k"
    else if c == '\U{0130}' then ['i', '\U{0307}']
    else [c]
  }

  function Lower(s: string): string {
    if s == "" then "" else LowerChar(s[0]) + Lower(s[1..])
  }

  /** Capitals A to Z become small, and nothing else changes but the two characters above. */
  lemma {:induction false} LowerIsPointwise(s: string)
    requires '\U{212A}' !in s && '\U{0130}' !in s
    ensures |Lower(s)| == |s|
    ensures forall k :: 0 <= k < |s| ==>
      Lower(s)[k] as int == if 'A' <= s[k] <= 'Z' then s[k] as int + 32 else s[k] as int
  {
    if s != "" {
      LowerIsPointwise(s[1..]);
    }
  }

  predicate IsWordChar(c: char) { 'a' <= c <= 'z' || '0' <= c <= '9' }

  /** How many word characters `s` begins with. */
  function RunLength(s: string): (n: nat)
    ensures n <= |s| && (forall k :: 0 <= k < n ==> IsWordChar(s[k]))
    ensures n < |s| ==> !IsWordChar(s[n])
  {
    if s == "" || !IsWordChar(s[0]) then 0 else 1 + RunLength(s[1..])
  }

  /** The matches of `[a-z0-9]{2,}`, scanning from the left and taking each match as long as it
      can be. */
  function Scan(s: string): set<string> {
    if s == "" then {}
    else if !IsWordChar(s[0]) then Scan(s[1..])
    else
      var n := RunLength(s);
      (if n >= 2 then {s[..n]} else {}) + Scan(s[n..])
  }

  function Tokens(text: string): set<string> { Scan(Lower(text)) }

  /** `s[i..j]` is a run of word characters that cannot be extended on either side. */
  predicate MaximalRun(s: string, i: int, j: int) {
    && 0 <= i < j <= |s|
    && (forall k :: i <= k < j ==> IsWordChar(s[k]))
    && (i > 0 ==> !IsWordChar(s[i - 1]))
    && (j < |s| ==> !IsWordChar(s[j]))
  }

  /** `w` is a word of two characters or more, found at `i..j`. */
  predicate Found(s: string, i: int, j: int, w: string) {
    |w| >= 2 && MaximalRun(s, i, j) && s[i..j] == w
  }

  ghost predicate IsWordOf(s: string, w: string) {
    exists i, j :: Found(s, i, j, w)
  }

  /** Where a rest of `s` starts that cuts no run in two. */
  predicate Cut(s: string, n: nat) {
    0 < n <= |s| && (!IsWordChar(s[n - 1]) || (n < |s| ==> !IsWordChar(s[n])))
  }

  lemma RunPast(s: string, n: nat, i: int, j: int)
    requires Cut(s, n) && n <= i
    ensures MaximalRun(s, i, j) <==> MaximalRun(s[n..], i - n, j - n)
  {
    var t := s[n..];
    assert forall k :: n <= k < |s| ==> s[k] == t[k - n];
    assert forall k :: 0 <= k < |t| ==> t[k] == s[k + n];
  }

  /** Past a cut the words of `s` are the words of its rest. */
  lemma FoundPast(s: string, n: nat, i: int, j: int, w: string)
    requires Cut(s, n) && n <= i
    ensures Found(s, i, j, w) <==> Found(s[n..], i - n, j - n, w)
  {
    if i <= j <= |s| {
      RunPast(s, n, i, j);
      SliceOfRest(s, n, i, j);
    }
  }

  lemma SliceOfRest(s: string, n: nat, i: nat, j: nat)
    requires n <= i <= j <= |s|
    ensures s[i..j] == s[n..][i - n..j - n]
  {
  }

  lemma WordsPast(s: string, n: nat, w: string)
    requires Cut(s, n)
    ensures IsWordOf(s[n..], w) <==> exists i, j :: n <= i && Found(s, i, j, w)
  {
    if IsWordOf(s[n..], w) {
      var i, j :| Found(s[n..], i, j, w);
      FoundPast(s, n, i + n, j + n, w);
      assert Found(s, i + n, j + n, w);
    }
    if i, j :| n <= i && Found(s, i, j, w) {
      FoundPast(s, n, i, j, w);
      assert Found(s[n..], i - n, j - n, w);
    }
  }

  /** The only word before the first cut is the run `s` begins with. */
  lemma WordsBefore(s: string, w: string)
    requires s != ""
    ensures var n := if IsWordChar(s[0]) then RunLength(s) else 1;
      (exists i, j :: i < n && Found(s, i, j, w)) <==> IsWordChar(s[0]) && n >= 2 && w == s[..n]
  {
    var n := if IsWordChar(s[0]) then RunLength(s) else 1;
    assert s[0..n] == s[..n];
    if i, j :| i < n && Found(s, i, j, w) {
      assert i == 0 && j == n;
    }
    if IsWordChar(s[0]) && n >= 2 && w == s[..n] {
      assert Found(s, 0, n, w);
    }
  }

  /** The scanner finds exactly the maximal runs of at least two word characters. */
  lemma {:induction false} TokensAreMaximalRuns(s: string, w: string)
    ensures w in Scan(s) <==> IsWordOf(s, w)
    decreases |s|
  {
    if s != "" {
      var n := if IsWordChar(s[0]) then RunLength(s) else 1;
      TokensAreMaximalRuns(s[n..], w);
      WordsPast(s, n, w);
      WordsBefore(s, w);
    }
  }

  // ---------------------------------------------------------------- scope, score, rank

  /** An empty or missing id asks for no particular policy or claim; a row without one serves
      every question. */
  predicate Admits(asked: Option<string>, has: Option<string>) {
    asked == None || asked == Some("") || has == None || has == asked
  }

  predicate InScope(row: Row, policyId: Option<string>, claimId: Option<string>) {
    Admits(policyId, row.policyId) && Admits(claimId, row.claimId)
  }

  function Score(question: string, row: Row): nat {
    |Tokens(question) * Tokens(row.title + " " + row.content)|
  }

  /** `w` stands at `i..j`: two ASCII letters or digits or more, cut off on both sides by the ends of
      the text or by other characters. */
  predicate StandsAt(s: string, i: int, j: int, w: string) {
    && 0 <= i && i + 2 <= j <= |s| && s[i..j] == w
    && (forall k :: i <= k < j ==> s[k] in "abcdefghijklmnopqrstuvwxyz0123456789")
    && (i > 0 ==> s[i - 1] !in "abcdefghijklmnopqrstuvwxyz0123456789")
    && (j < |s| ==> s[j] !in "abcdefghijklmnopqrstuvwxyz0123456789")
  }

  ghost predicate WordIn(text: string, w: string) {
    exists i, j :: StandsAt(Lower(text), i, j, w)
  }

  lemma WordCharacters(c: char)
    ensures IsWordChar(c) <==> c in "abcdefghijklmnopqrstuvwxyz0123456789"
  {
  }

  lemma FoundStands(s: string, i: int, j: int, w: string)
    ensures Found(s, i, j, w) <==> StandsAt(s, i, j, w)
  {
    forall k | 0 <= k < |s|
      ensures IsWordChar(s[k]) <==> s[k] in "abcdefghijklmnopqrstuvwxyz0123456789"
    {
      WordCharacters(s[k]);
    }
  }

  lemma TokensAreWords(text: string, w: string)
    ensures w in Tokens(text) <==> WordIn(text, w)
  {
    var s := Lower(text);
    TokensAreMaximalRuns(s, w);
    forall i, j
      ensures Found(s, i, j, w) <==> StandsAt(s, i, j, w)
    {
      FoundStands(s, i, j, w);
    }
  }

  /** Python's order on strings: by code point. */
  predicate Less(a: string, b: string) {
    b != "" && (a == "" || a[0] < b[0] || (a[0] == b[0] && Less(a[1..], b[1..])))
  }

  lemma {:induction false} LessIsTotalOrder(a: string, b: string, c: string)
    ensures !(Less(a, b) && Less(b, a)) && !Less(a, a)
    ensures Less(a, b) || Less(b, a) || a == b
    ensures Less(a, b) && Less(b, c) ==> Less(a, c)
  {
    if a != "" && b != "" {
      LessIsTotalOrder(a[1..], b[1..], if c != "" then c[1..] else "");
      assert a == [a[0]] + a[1..] && b == [b[0]] + b[1..];
    } else if a != "" {
      LessIsTotalOrder(a[1..], "", "");
    } else if b != "" {
      assert Less(b, c) ==> c != "";
    }
  }

  /** A proper prefix comes first, and otherwise the first difference decides. */
  lemma {:induction false} LessIsLexicographic(a: string, b: string)
    ensures Less(a, b) <==> exists n ::
      && 0 <= n <= |a| && n < |b| && a[..n] == b[..n]
      && (n == |a| || a[n] < b[n])
  {
    if a == "" {
      assert b != "" ==> a[..0] == b[..0];
    } else if b != "" {
      LessIsLexicographic(a[1..], b[1..]);
      if a[0] < b[0] {
        assert a[..0] == b[..0];
      }
      forall n | 0 <= n < |a| && n < |b|
        ensures a[..n + 1] == b[..n + 1] <==> a[0] == b[0] && a[1..][..n] == b[1..][..n]
      {
        assert a[..n + 1] == [a[0]] + a[1..][..n] && b[..n + 1] == [b[0]] + b[1..][..n];
      }
    }
  }

  /** The sort key: score descending, then `created_at`, then `id`. */
  predicate Before(a: Scored, b: Scored) {
    || a.score > b.score
    || (a.score == b.score && Less(a.row.createdAt, b.row.createdAt))
    || (a.score == b.score && a.row.createdAt == b.row.createdAt && Less(a.row.id, b.row.id))
  }

  lemma BeforeIsTotalOrder(a: Scored, b: Scored, c: Scored)
    ensures !(Before(a, b) && Before(b, a))
    ensures a.row.id != b.row.id ==> Before(a, b) || Before(b, a)
    ensures Before(a, b) && Before(b, c) ==> Before(a, c)
  {
    LessIsTotalOrder(a.row.createdAt, b.row.createdAt, c.row.createdAt);
    LessIsTotalOrder(a.row.id, b.row.id, c.row.id);
  }

  predicate Ranked(s: seq<Scored>) {
    forall i, j :: 0 <= i < j < |s| ==> Before(s[i], s[j])
  }

  /** The primary key. */
  predicate DistinctIds(rows: seq<Row>) {
    forall i, j :: 0 <= i < j < |rows| ==> rows[i].id != rows[j].id
  }

  ghost predicate Identified(e: set<Scored>) {
    forall x, y :: x in e && y in e && x.row.id == y.row.id ==> x == y
  }

  /** The rows a question may be answered from, with their scores. */
  function Eligible(rows: seq<Row>, question: string, policyId: Option<string>, claimId: Option<string>): set<Scored> {
    set row | row in rows && InScope(row, policyId, claimId) && Score(question, row) > 0
      :: Scored(Score(question, row), row)
  }

  /** `r` is the `limit` best of `e`, best first. */
  ghost predicate IsTop(r: seq<Scored>, e: set<Scored>, limit: nat) {
    && |r| == (if limit < |e| then limit else |e|)
    && Ranked(r)
    && (forall x :: x in r ==> x in e)
    && (forall x, y :: x in r && y in e && y !in r ==> Before(x, y))
  }

  // ---------------------------------------------------------------- the method

  lemma EligibleExtends(rows: seq<Row>, i: nat, question: string, policyId: Option<string>, claimId: Option<string>)
    requires i < |rows| && DistinctIds(rows)
    ensures var before, row := Eligible(rows[..i], question, policyId, claimId), rows[i];
      var item := Scored(Score(question, row), row);
      && (forall x :: x in before ==> x.row.id != row.id)
      && Eligible(rows[..i + 1], question, policyId, claimId) ==
         (if InScope(row, policyId, claimId) && Score(question, row) > 0 then before + {item} else before)
  {
    assert rows[..i + 1] == rows[..i] + [rows[i]];
  }

  lemma EligibleIdentified(rows: seq<Row>, question: string, policyId: Option<string>, claimId: Option<string>)
    requires DistinctIds(rows)
    ensures Identified(Eligible(rows, question, policyId, claimId))
  {
  }

  /** `scored` lists `e`, each row once. */
  ghost predicate Lists(scored: seq<Scored>, e: set<Scored>) {
    && |scored| == |e|
    && (forall x :: x in scored <==> x in e)
    && (forall i, j :: 0 <= i < j < |scored| ==> scored[i].row.id != scored[j].row.id)
  }

  lemma ListsOneMore(scored: seq<Scored>, e: set<Scored>, item: Scored)
    requires Lists(scored, e) && forall x :: x in e ==> x.row.id != item.row.id
    ensures Lists(scored + [item], e + {item})
  {
    var all := scored + [item];
    forall i, j | 0 <= i < j < |all|
      ensures all[i].row.id != all[j].row.id
    {
      assert all[i] in scored;
    }
  }

  /** What one pass of the loop makes of the list. */
  lemma ListsNextRow(
    scored: seq<Scored>, rows: seq<Row>, i: nat, question: string, policyId: Option<string>, claimId: Option<string>)
    requires i < |rows| && DistinctIds(rows) && Lists(scored, Eligible(rows[..i], question, policyId, claimId))
    ensures var item := Scored(Score(question, rows[i]), rows[i]);
      Lists(if InScope(rows[i], policyId, claimId) && item.score > 0 then scored + [item] else scored,
            Eligible(rows[..i + 1], question, policyId, claimId))
  {
    EligibleExtends(rows, i, question, policyId, claimId);
    var item := Scored(Score(question, rows[i]), rows[i]);
    if InScope(rows[i], policyId, claimId) && item.score > 0 {
      ListsOneMore(scored, Eligible(rows[..i], question, policyId, claimId), item);
    }
  }

  /** Puts `item` where it belongs in a ranked list. */
  method Insert(ranked: seq<Scored>, item: Scored) returns (r: seq<Scored>)
    requires Ranked(ranked) && (forall x :: x in ranked ==> x.row.id != item.row.id)
    ensures Ranked(r) && |r| == |ranked| + 1
    ensures forall x :: x in r <==> x in ranked || x == item
  {
    var p := 0;
    while p < |ranked| && Before(ranked[p], item)
      invariant p <= |ranked|
      invariant forall k :: 0 <= k < p ==> Before(ranked[k], item)
    {
      p := p + 1;
    }
    r := ranked[..p] + [item] + ranked[p..];
    forall k | p <= k < |ranked|
      ensures Before(item, ranked[k])
    {
      BeforeIsTotalOrder(item, ranked[p], ranked[k]);
    }
    assert forall x :: x in ranked <==> x in ranked[..p] || x in ranked[p..];
  }

  /** `list.sort` with the key above. Any correct sort gives this list: the keys are distinct. */
  method Sort(scored: seq<Scored>) returns (ranked: seq<Scored>)
    requires forall i, j :: 0 <= i < j < |scored| ==> scored[i].row.id != scored[j].row.id
    ensures Ranked(ranked) && |ranked| == |scored|
    ensures forall x :: x in ranked <==> x in scored
  {
    ranked := [];
    var i := 0;
    while i < |scored|
      invariant i <= |scored| && |ranked| == i && Ranked(ranked)
      invariant forall x :: x in ranked <==> x in scored[..i]
    {
      assert scored[..i + 1] == scored[..i] + [scored[i]];
      ranked := Insert(ranked, scored[i]);
      i := i + 1;
    }
    assert scored[..i] == scored;
  }

  lemma TopOfRanked(ranked: seq<Scored>, e: set<Scored>, limit: nat)
    requires Ranked(ranked) && |ranked| == |e| && (forall x :: x in ranked <==> x in e)
    ensures IsTop(if limit < |ranked| then ranked[..limit] else ranked, e, limit)
  {
    var r := if limit < |ranked| then ranked[..limit] else ranked;
    assert forall k :: 0 <= k < |r| ==> ranked[k] in r;
    forall x, y | x in r && y in e && y !in r
      ensures Before(x, y)
    {
      var i :| 0 <= i < |r| && r[i] == x;
      var k :| 0 <= k < |ranked| && ranked[k] == y;
    }
  }

  method Retrieve(rows: seq<Row>, question: string, policyId: Option<string>, claimId: Option<string>, limit: nat)
    returns (result: seq<Scored>)
    requires DistinctIds(rows)
    ensures IsTop(result, Eligible(rows, question, policyId, claimId), limit)
  {
    var scored: seq<Scored> := [];
    var i := 0;
    while i < |rows|
      invariant i <= |rows|
      invariant Lists(scored, Eligible(rows[..i], question, policyId, claimId))
    {
      var row := rows[i];
      ListsNextRow(scored, rows, i, question, policyId, claimId);
      if InScope(row, policyId, claimId) {
        var score := Score(question, row);
        if score > 0 {
          scored := scored + [Scored(score, row)];
        }
      }
      i := i + 1;
    }
    assert rows[..i] == rows;
    var ranked := Sort(scored);
    TopOfRanked(ranked, Eligible(rows, question, policyId, claimId), limit);
    result := if limit < |ranked| then ranked[..limit] else ranked;
  }

  // ---------------------------------------------------------------- what callers see

  /** Two best-of lists of the same rows agree as far as both go: a smaller limit gives a prefix
      of a larger one, and one limit gives one list. */
  lemma SmallerLimitIsPrefix(r: seq<Scored>, r': seq<Scored>, e: set<Scored>, limit: nat, limit': nat)
    requires Identified(e) && limit <= limit'
    requires IsTop(r, e, limit) && IsTop(r', e, limit')
    ensures r <= r'
  {
    AgreeUpTo(r, r', e, limit, limit', |r|);
    assert r == r'[..|r|];
  }

  lemma {:induction false} AgreeUpTo(r: seq<Scored>, r': seq<Scored>, e: set<Scored>, limit: nat, limit': nat, n: nat)
    requires Identified(e) && limit <= limit'
    requires IsTop(r, e, limit) && IsTop(r', e, limit')
    requires n <= |r|
    ensures n <= |r'| && forall k :: 0 <= k < n ==> r[k] == r'[k]
  {
    if n > 0 {
      AgreeUpTo(r, r', e, limit, limit', n - 1);
      AgreeAt(r, r', e, limit, limit', n - 1);
    }
  }

  lemma AgreeAt(r: seq<Scored>, r': seq<Scored>, e: set<Scored>, limit: nat, limit': nat, i: nat)
    requires Identified(e) && IsTop(r, e, limit) && IsTop(r', e, limit') && i < |r| && i < |r'|
    requires forall k :: 0 <= k < i ==> r[k] == r'[k]
    ensures r[i] == r'[i]
  {
    assert r[i] in r && r'[i] in r';
    NotBefore(r, r', e, limit', i);
    NotBefore(r', r, e, limit, i);
    BeforeIsTotalOrder(r[i], r'[i], r[i]);
  }

  /** If two lists agree before `i`, neither can have the better row at `i`: the other would have
      it too. */
  lemma NotBefore(r: seq<Scored>, r': seq<Scored>, e: set<Scored>, limit': nat, i: nat)
    requires i < |r| && i < |r'| && Ranked(r) && r[i] in e && IsTop(r', e, limit')
    requires forall k :: 0 <= k < i ==> r[k] == r'[k]
    ensures !Before(r[i], r'[i])
  {
    var x := r[i];
    BeforeIsTotalOrder(x, r'[i], x);
    if x in r' {
      var j :| 0 <= j < |r'| && r'[j] == x;
      if j < i {
        assert r[j] == x && Before(r[j], r[i]);
        BeforeIsTotalOrder(x, x, x);
      } else if j > i {
        assert Before(r'[i], r'[j]);
      } else {
        BeforeIsTotalOrder(x, x, x);
      }
    } else {
      assert r'[i] in r';
    }
  }

  /** The answer depends on which rows are stored, not on the order the query returns them in. */
  lemma OrderOfRowsIsIrrelevant(
    rows: seq<Row>, rows': seq<Row>, question: string, policyId: Option<string>, claimId: Option<string>, limit: nat,
    r: seq<Scored>, r': seq<Scored>)
    requires DistinctIds(rows) && forall row :: row in rows <==> row in rows'
    requires IsTop(r, Eligible(rows, question, policyId, claimId), limit)
    requires IsTop(r', Eligible(rows', question, policyId, claimId), limit)
    ensures r == r'
  {
    var e := Eligible(rows, question, policyId, claimId);
    assert e == Eligible(rows', question, policyId, claimId);
    EligibleIdentified(rows, question, policyId, claimId);
    SmallerLimitIsPrefix(r, r', e, limit, limit);
    SmallerLimitIsPrefix(r', r, e, limit, limit);
  }

  lemma {:induction false} LowerSplits(a: string, b: string)
    ensures Lower(a + b) == Lower(a) + Lower(b)
  {
    if a == "" {
      assert a + b == b;
    } else {
      assert (a + b)[1..] == a[1..] + b;
      LowerSplits(a[1..], b);
    }
  }

  /** Joining title and content with a blank neither loses a word nor makes a new one. */
  lemma TitleAndContentWords(title: string, content: string)
    ensures Tokens(title + " " + content) == Tokens(title) + Tokens(content)
  {
    var a, b := Lower(title), Lower(content);
    LowerSplits(title + " ", content);
    LowerSplits(title, " ");
    assert Lower(" ") == " ";
    assert Lower(title + " " + content) == a + " " + b;
    forall w
      ensures w in Scan(a + " " + b) <==> w in Scan(a) || w in Scan(b)
    {
      TokensAreMaximalRuns(a, w);
      TokensAreMaximalRuns(b, w);
      TokensAreMaximalRuns(a + " " + b, w);
      WordsOfJoin(a, b, w);
    }
  }

  lemma WordsOfJoin(a: string, b: string, w: string)
    ensures IsWordOf(a + " " + b, w) <==> IsWordOf(a, w) || IsWordOf(b, w)
  {
    var s, n := a + " " + b, |a| + 1;
    assert s[n..] == b;
    WordsPast(s, n, w);
    if IsWordOf(a, w) {
      var i, j :| Found(a, i, j, w);
      FoundBefore(a, b, i, j, w);
      assert Found(s, i, j, w);
    }
    if i, j :| i < n && Found(s, i, j, w) {
      FoundBefore(a, b, i, j, w);
      assert Found(a, i, j, w);
    }
  }

  lemma FoundBefore(a: string, b: string, i: int, j: int, w: string)
    requires i <= |a|
    ensures Found(a + " " + b, i, j, w) <==> Found(a, i, j, w)
  {
    var s := a + " " + b;
    assert forall k :: 0 <= k < |a| ==> s[k] == a[k];
    assert s[|a|] == ' ';
    assert 0 <= i <= j <= |a| ==> s[i..j] == a[i..j];
  }

  // ---------------------------------------------------------------- the answer in plain terms

  /** A word of the question that the row's title or content has too. */
  ghost predicate Shares(question: string, row: Row, w: string) {
    WordIn(question, w) && (WordIn(row.title, w) || WordIn(row.content, w))
  }

  /** The score counts the shared words, each once, however often and in whichever of title and
      content it occurs. */
  lemma ScoreCountsSharedWords(question: string, row: Row) returns (shared: set<string>)
    ensures |shared| == Score(question, row)
    ensures forall w :: w in shared <==> Shares(question, row, w)
  {
    TitleAndContentWords(row.title, row.content);
    shared := Tokens(question) * (Tokens(row.title) + Tokens(row.content));
    forall w
      ensures w in shared <==> Shares(question, row, w)
    {
      TokensAreWords(question, w);
      TokensAreWords(row.title, w);
      TokensAreWords(row.content, w);
    }
  }

  lemma ScoresWhenShared(question: string, row: Row)
    ensures Score(question, row) > 0 <==> exists w :: Shares(question, row, w)
  {
    var shared := ScoreCountsSharedWords(question, row);
    if Score(question, row) > 0 {
      assert shared != {};
      var w :| w in shared;
    }
    if w :| Shares(question, row, w) {
      assert w in shared;
    }
  }

  /** The question may be answered from the row: neither names another policy or claim than the
      row's, if the row has one. */
  predicate Concerns(row: Row, policyId: Option<string>, claimId: Option<string>) {
    && (policyId.Some? && policyId.value != "" && row.policyId.Some? ==> row.policyId.value == policyId.value)
    && (claimId.Some? && claimId.value != "" && row.claimId.Some? ==> row.claimId.value == claimId.value)
  }

  /** More shared words first, then the earlier creation time, then the smaller id. */
  predicate Outranks(a: Scored, b: Scored) {
    if a.score != b.score then a.score > b.score
    else if a.row.createdAt != b.row.createdAt then Less(a.row.createdAt, b.row.createdAt)
    else Less(a.row.id, b.row.id)
  }

  /** What `Retrieve` returns: rows that concern the question and share a word with it, with the
      number of words shared, best first; and unless the limit is reached, all of them. */
  lemma RetrievedExactly(
    rows: seq<Row>, question: string, policyId: Option<string>, claimId: Option<string>, limit: nat, r: seq<Scored>)
    requires IsTop(r, Eligible(rows, question, policyId, claimId), limit)
    ensures |r| <= limit && forall i, j :: 0 <= i < j < |r| ==> Outranks(r[i], r[j])
    ensures forall x :: x in r ==>
      && x.row in rows && Concerns(x.row, policyId, claimId)
      && x.score == Score(question, x.row) && exists w :: Shares(question, x.row, w)
    ensures forall row, w ::
      row in rows && Concerns(row, policyId, claimId) && Shares(question, row, w) ==>
        var item := Scored(Score(question, row), row);
        item in r || (|r| == limit && forall x :: x in r ==> Outranks(x, item))
  {
    var e := Eligible(rows, question, policyId, claimId);
    forall x | x in r
      ensures x.row in rows && Concerns(x.row, policyId, claimId)
      ensures x.score == Score(question, x.row) && exists w :: Shares(question, x.row, w)
    {
      EligibleExactlyWhen(rows, question, policyId, claimId, x);
      ScoresWhenShared(question, x.row);
    }
    forall i, j | 0 <= i < j < |r|
      ensures Outranks(r[i], r[j])
    {
      RankedOutranks(r[i], r[j]);
    }
    forall row, w | row in rows && Concerns(row, policyId, claimId) && Shares(question, row, w)
      ensures var item := Scored(Score(question, row), row);
        item in r || (|r| == limit && forall x :: x in r ==> Outranks(x, item))
    {
      var item := Scored(Score(question, row), row);
      EligibleExactlyWhen(rows, question, policyId, claimId, item);
      ScoresWhenShared(question, row);
      LeftOut(r, e, limit, item);
    }
  }

  lemma EligibleExactlyWhen(
    rows: seq<Row>, question: string, policyId: Option<string>, claimId: Option<string>, x: Scored)
    ensures x in Eligible(rows, question, policyId, claimId) <==>
      && x.row in rows && Concerns(x.row, policyId, claimId)
      && x.score == Score(question, x.row) && x.score > 0
  {
  }

  lemma RankedOutranks(a: Scored, b: Scored)
    requires Before(a, b)
    ensures Outranks(a, b)
  {
    LessIsTotalOrder(a.row.createdAt, b.row.createdAt, a.row.createdAt);
  }

  /** A row that could have been returned and was not. */
  lemma LeftOut(r: seq<Scored>, e: set<Scored>, limit: nat, item: Scored)
    requires IsTop(r, e, limit) && item in e
    ensures item in r || (|r| == limit && forall x :: x in r ==> Outranks(x, item))
  {
    if item !in r {
      forall x | x in r
        ensures Outranks(x, item)
      {
        RankedOutranks(x, item);
      }
      if |r| < limit {
        var chosen := set x | x in r;
        forall i, j | 0 <= i < j < |r|
          ensures r[i] != r[j]
        {
          BeforeIsTotalOrder(r[i], r[j], item);
        }
        DistinctSize(r, chosen);
        SubsetSize(chosen, e - {item});
      }
    }
  }
}
