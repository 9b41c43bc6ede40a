/** Idempotency-Key normalisation: both services strip the header before using it. */
module Keys {

  /** The whitespace `str.strip` removes, restricted to the characters an HTTP header can carry. */
  predicate IsSpace(c: char) {
    9 as char <= c <= 13 as char || 28 as char <= c <= 32 as char || c == 133 as char || c == 160 as char
  }

  /** Tabs, line ends, the four separators, the blank, next line and the no-break space. */
  lemma SpaceCharacters(c: char)
    ensures IsSpace(c) <==>
      || c in {'\t', '\n', '\U{000B}', '\U{000C}', '\r', ' '}
      || c in {'\U{001C}', '\U{001D}', '\U{001E}', '\U{001F}', '\U{0085}', '\U{00A0}'}
  {
  }

  predicate AllSpace(s: string) {
    forall i :: 0 <= i < |s| ==> IsSpace(s[i])
  }

  function TrimLeft(s: string): string {
    if s != "" && IsSpace(s[0]) then TrimLeft(s[1..]) else s
  }

  function TrimRight(s: string): string {
    if s != "" && IsSpace(s[|s| - 1]) then TrimRight(s[..|s| - 1]) else s
  }

  function Strip(s: string): string {
    TrimRight(TrimLeft(s))
  }

  /** `core` is what stripping should leave of `s`: `s` without its outer whitespace. */
  predicate IsCore(s: string, pre: string, core: string, post: string) {
    && s == pre + core + post
    && AllSpace(pre) && AllSpace(post)
    && (core != "" ==> !IsSpace(core[0]) && !IsSpace(core[|core| - 1]))
  }

  lemma {:induction false} TrimLeftSplits(s: string) returns (pre: string)
    ensures s == pre + TrimLeft(s) && AllSpace(pre)
    ensures TrimLeft(s) != "" ==> !IsSpace(TrimLeft(s)[0])
  {
    if s != "" && IsSpace(s[0]) {
      var head, tail := s[..1], s[1..];
      var rest := TrimLeftSplits(tail);
      pre := head + rest;
      assert s == head + tail;
      assert head + (rest + TrimLeft(tail)) == pre + TrimLeft(tail);
    } else {
      pre := "";
    }
  }

  lemma {:induction false} TrimRightSplits(s: string) returns (post: string)
    ensures s == TrimRight(s) + post && AllSpace(post)
    ensures TrimRight(s) != "" ==> !IsSpace(TrimRight(s)[|TrimRight(s)| - 1])
  {
    if s != "" && IsSpace(s[|s| - 1]) {
      var init, last := s[..|s| - 1], s[|s| - 1..];
      var rest := TrimRightSplits(init);
      post := rest + last;
      assert s == init + last;
      assert TrimRight(init) + rest + last == TrimRight(init) + post;
    } else {
      post := "";
    }
  }

  /** Stripping removes exactly the outer whitespace. */
  lemma StripIsCore(s: string) returns (pre: string, post: string)
    ensures IsCore(s, pre, Strip(s), post)
  {
    pre := TrimLeftSplits(s);
    post := TrimRightSplits(TrimLeft(s));
    var left, core := TrimLeft(s), Strip(s);
    if core != "" {
      assert core[0] == left[0];
    }
  }

  /** A key that already begins and ends with a visible character is left alone, so the key the
      orchestrator forwards is the key the Claims Service stores. */
  lemma StripIdempotent(s: string)
    ensures Strip(Strip(s)) == Strip(s)
  {
    var pre, post := StripIsCore(s);
  }

  /** A header counts as blank exactly when it holds nothing but whitespace. */
  lemma BlankExactlyWhitespace(s: string)
    ensures Strip(s) == "" <==> AllSpace(s)
  {
    var pre, post := StripIsCore(s);
    var core := Strip(s);
    if core != "" {
      assert s[|pre|] == core[0];
    }
  }
}
