/** What a stream of terminal output means to the benchmark display: which
    characters are shown, which terminal queries are answered, and what is held
    back because it could still grow into a query. */
module QueryScan {

  datatype Query = Query(text: string, reply: string)

  /** One thing the display does: feed a character to the screen, or answer a query. */
  datatype Output = Shown(c: char) | Answered(query: Query)

  datatype Scan = Scan(output: seq<Output>, pending: string)

  type Table = seq<Query>

  predicate MatchAt(s: string, i: int, q: Query) {
    0 <= i && i + |q.text| <= |s| && s[i..i + |q.text|] == q.text
  }

  ghost predicate Matches(t: Table, s: string, i: int, q: Query) {
    q in t && MatchAt(s, i, q)
  }

  ghost predicate Contains(t: Table, s: string) {
    exists i, q :: Matches(t, s, i, q)
  }

  /** No query starts earlier than `i`. */
  ghost predicate Leftmost(t: Table, s: string, i: int, q: Query) {
    && Matches(t, s, i, q)
    && forall i', q' :: Matches(t, s, i', q') ==> i <= i'
  }

  /** `s` is a non-empty proper prefix of a query. */
  predicate Held(t: Table, s: string) {
    0 < |s| && exists k | 0 <= k < |t| :: |s| < |t[k].text| && t[k].text[..|s|] == s
  }

  /** The property of the table that everything rests on: queries are not empty,
      none occurs inside another, and none starts inside another and ends after it. */
  ghost predicate Unambiguous(t: Table) {
    && (forall q <- t :: 0 < |q.text|)
    && (forall p <- t, q <- t, k | 0 <= k < |p.text| :: Clash(p, q, k) ==> k == 0 && p == q)
  }

  /** Reading `q` at offset `k` of `p` agrees with `p` on every character both cover. */
  predicate Clash(p: Query, q: Query, k: nat)
    requires k < |p.text|
  {
    forall j | 0 <= j < |q.text| && k + j < |p.text| :: p.text[k + j] == q.text[j]
  }

  predicate HeldFrom(t: Table, s: string, i: int) {
    0 <= i < |s| && Held(t, s[i..])
  }

  /** The first offset at or after `i` from which `s` is held to its end, or `|s|`. */
  function HoldFrom(t: Table, s: string, i: nat): (from: nat)
    requires i <= |s|
    ensures i <= from <= |s|
    ensures from < |s| ==> HeldFrom(t, s, from)
    ensures forall j | i <= j < from :: !HeldFrom(t, s, j)
    decreases |s| - i
  {
    if i == |s| || HeldFrom(t, s, i) then i else HoldFrom(t, s, i + 1)
  }

  function Show(s: string): (out: seq<Output>)
    ensures |out| == |s|
    ensures forall j | 0 <= j < |s| :: out[j] == Shown(s[j])
  {
    seq(|s|, j requires 0 <= j < |s| => Shown(s[j]))
  }

  /** Leftmost queries are answered and erased; the rest is shown, except the
      longest tail that a later chunk could complete to a query. */
  ghost function ScanAll(t: Table, s: string): (r: Scan)
    requires Unambiguous(t)
    decreases |s|
  {
    if !Contains(t, s) then
      var from := HoldFrom(t, s, 0);
      Scan(Show(s[..from]), s[from..])
    else
      LeftmostExists(t, s);
      var i, q :| Leftmost(t, s, i, q);
      var rest := ScanAll(t, s[i + |q.text|..]);
      After(Show(s[..i]) + [Answered(q)], rest)
  }

  function After(done: seq<Output>, rest: Scan): (r: Scan) {
    Scan(done + rest.output, rest.pending)
  }

  lemma AfterAfter(a: seq<Output>, b: seq<Output>, rest: Scan)
    ensures After(a, After(b, rest)) == After(a + b, rest)
  {
    assert a + (b + rest.output) == a + b + rest.output;
  }

  lemma LeftmostExists(t: Table, s: string)
    requires Contains(t, s)
    ensures exists i, q :: Leftmost(t, s, i, q)
  {
    var i, q :| Matches(t, s, i, q);
    while !Leftmost(t, s, i, q)
      invariant Matches(t, s, i, q)
      decreases i
    {
      var j, p :| Matches(t, s, j, p) && j < i;
      i, q := j, p;
    }
  }

  /** Two matches never share a character unless they are the same match. */
  lemma MatchesApart(t: Table, s: string, i: int, p: Query, j: int, q: Query)
    requires Unambiguous(t)
    requires Matches(t, s, i, p) && Matches(t, s, j, q)
    requires i <= j < i + |p.text|
    ensures i == j && p == q
  {
    assert Clash(p, q, j - i) by {
      forall k | 0 <= k < |q.text| && j - i + k < |p.text|
        ensures p.text[j - i + k] == q.text[k]
      {
        assert p.text[j - i + k] == s[i..i + |p.text|][j - i + k] == s[j + k];
        assert q.text[k] == s[j..j + |q.text|][k];
      }
    }
  }

  lemma ScanLeftmost(t: Table, s: string, i: int, q: Query)
    requires Unambiguous(t)
    requires Leftmost(t, s, i, q)
    ensures |s[i + |q.text|..]| < |s|
    ensures ScanAll(t, s) == After(Show(s[..i]) + [Answered(q)], ScanAll(t, s[i + |q.text|..]))
  {
    forall i', q' | Leftmost(t, s, i', q') ensures i' == i && q' == q {
      MatchesApart(t, s, i, q, i', q');
    }
  }

  lemma ScanHeld(t: Table, s: string)
    requires Unambiguous(t) && !Contains(t, s)
    ensures ScanAll(t, s) == Scan(Show(s[..HoldFrom(t, s, 0)]), s[HoldFrom(t, s, 0)..])
  {
  }

  /** A match moves with the text around it. */
  lemma MatchShifts(t: Table, s: string, from: nat, u: string, i: int, q: Query)
    requires from <= |s| && from <= i
    ensures Matches(t, s + u, i, q) <==> Matches(t, s[from..] + u, i - from, q)
  {
    assert s + u == s[..from] + (s[from..] + u);
    if i + |q.text| <= |s + u| {
      assert (s + u)[i..i + |q.text|] == (s[from..] + u)[i - from..i - from + |q.text|];
    }
  }

  lemma HeldShifts(t: Table, s: string, from: nat, u: string, i: int)
    requires from <= |s| && from <= i
    ensures HeldFrom(t, s + u, i) <==> HeldFrom(t, s[from..] + u, i - from)
  {
    if i < |s + u| {
      assert (s + u)[i..] == (s[from..] + u)[i - from..];
    }
  }

  /** Reading on from where a query-free text left off: nothing that starts
      before the held tail can take part in a match or be held any more. */
  lemma NothingBeforeTail(t: Table, s: string, u: string)
    requires Unambiguous(t) && !Contains(t, s)
    ensures var from := HoldFrom(t, s, 0);
            && (forall i, q :: Matches(t, s + u, i, q) ==> from <= i)
            && (forall i :: HeldFrom(t, s + u, i) ==> from <= i)
  {
    var from := HoldFrom(t, s, 0);
    forall i, q | Matches(t, s + u, i, q) ensures from <= i {
      if i + |q.text| <= |s| {
        assert (s + u)[i..i + |q.text|] == s[i..i + |q.text|];
        assert Matches(t, s, i, q);
      } else if i < |s| {
        assert q.text[..|s| - i] == (s + u)[i..i + |q.text|][..|s| - i] == s[i..];
        assert HeldFrom(t, s, i);
      }
    }
    forall i | HeldFrom(t, s + u, i) ensures from <= i {
      if i < |s| {
        var k :| 0 <= k < |t| && |(s + u)[i..]| < |t[k].text| && t[k].text[..|(s + u)[i..]|] == (s + u)[i..];
        assert t[k].text[..|s| - i] == (s + u)[i..][..|s| - i] == s[i..];
        assert HeldFrom(t, s, i);
      }
    }
  }

  /** Scanning resumes: the outputs of two consecutive reads add up, and only
      the held tail needs to be remembered between them. */
  lemma {:induction false} ScanResumes(t: Table, s: string, u: string)
    requires Unambiguous(t)
    ensures ScanAll(t, s + u) == After(ScanAll(t, s).output, ScanAll(t, ScanAll(t, s).pending + u))
    decreases |s|
  {
    hide ScanAll, HoldFrom, Show;
    if Contains(t, s) {
      LeftmostExists(t, s);
      var i, q :| Leftmost(t, s, i, q);
      LeftmostStays(t, s, u, i, q);
      ScanLeftmost(t, s, i, q);
      ScanLeftmost(t, s + u, i, q);
      var rest := s[i + |q.text|..];
      assert (s + u)[i + |q.text|..] == rest + u && (s + u)[..i] == s[..i];
      ScanResumes(t, rest, u);
      AfterAfter(Show(s[..i]) + [Answered(q)], ScanAll(t, rest).output, ScanAll(t, ScanAll(t, rest).pending + u));
    } else {
      ScanHeld(t, s);
      ScanTail(t, s, u);
    }
  }

  lemma LeftmostStays(t: Table, s: string, u: string, i: int, q: Query)
    requires Unambiguous(t)
    requires Leftmost(t, s, i, q)
    ensures Leftmost(t, s + u, i, q)
  {
    assert (s + u)[i..i + |q.text|] == s[i..i + |q.text|];
    forall i', q' | Matches(t, s + u, i', q') ensures i <= i' {
      if i' + |q'.text| <= |s| {
        assert (s + u)[i'..i' + |q'.text|] == s[i'..i' + |q'.text|];
        assert Matches(t, s, i', q');
      } else if i' < i {
        MatchesApart(t, s + u, i', q', i, q);
      }
    }
  }

  lemma ScanTail(t: Table, s: string, u: string)
    requires Unambiguous(t) && !Contains(t, s)
    ensures var from := HoldFrom(t, s, 0);
            ScanAll(t, s + u) == After(Show(s[..from]), ScanAll(t, s[from..] + u))
  {
    var from := HoldFrom(t, s, 0);
    NothingBeforeTail(t, s, u);
    if Contains(t, s + u) {
      LeftmostExists(t, s + u);
      var i, q :| Leftmost(t, s + u, i, q);
      TailWithQuery(t, s, from, u, i, q);
    } else {
      QueryFreeTail(t, s, from, u);
      HeldTail(t, s, from, u);
    }
  }

  lemma TailWithQuery(t: Table, s: string, from: nat, u: string, i: int, q: Query)
    requires Unambiguous(t) && from <= |s| && from <= i
    requires Leftmost(t, s + u, i, q)
    ensures ScanAll(t, s + u) == After(Show(s[..from]), ScanAll(t, s[from..] + u))
  {
    hide ScanAll;
    var tail := s[from..] + u;
    LeftmostInTail(t, s, from, u, i, q);
    ScanLeftmost(t, s + u, i, q);
    ScanLeftmost(t, tail, i - from, q);
    ShowSplits(s, from, u, i, [Answered(q)]);
    DropSplits(s, from, u, i + |q.text|);
    AfterAfter(Show(s[..from]), Show(tail[..i - from]) + [Answered(q)], ScanAll(t, tail[i - from + |q.text|..]));
  }

  lemma ShowSplits(s: string, from: nat, u: string, i: nat, more: seq<Output>)
    requires from <= |s| && from <= i <= |s + u|
    ensures Show((s + u)[..i]) + more == Show(s[..from]) + (Show((s[from..] + u)[..i - from]) + more)
  {
    assert (s + u)[..i] == s[..from] + (s[from..] + u)[..i - from];
  }

  lemma DropSplits(s: string, from: nat, u: string, i: nat)
    requires from <= |s| && from <= i <= |s + u|
    ensures (s + u)[i..] == (s[from..] + u)[i - from..]
  {
  }

  lemma HeldTail(t: Table, s: string, from: nat, u: string)
    requires Unambiguous(t) && from <= |s|
    requires !Contains(t, s + u) && !Contains(t, s[from..] + u)
    requires forall i :: HeldFrom(t, s + u, i) ==> from <= i
    ensures ScanAll(t, s + u) == After(Show(s[..from]), ScanAll(t, s[from..] + u))
  {
    hide ScanAll, HoldFrom, Show, HeldFrom;
    var tail := s[from..] + u;
    var a, b := HoldFrom(t, s + u, 0), HoldFrom(t, tail, 0);
    HoldShifts(t, s, from, u);
    ScanHeld(t, s + u);
    ScanHeld(t, tail);
    ShowSplits(s, from, u, a, []);
    NothingMore((s + u)[..a]);
    NothingMore(tail[..b]);
    DropSplits(s, from, u, a);
  }

  lemma NothingMore(s: string)
    ensures Show(s) + [] == Show(s)
  {
  }

  lemma HoldShifts(t: Table, s: string, from: nat, u: string)
    requires from <= |s| && forall i :: HeldFrom(t, s + u, i) ==> from <= i
    ensures HoldFrom(t, s + u, 0) == HoldFrom(t, s[from..] + u, 0) + from
  {
    hide HeldFrom;
    var tail := s[from..] + u;
    var a, b := HoldFrom(t, s + u, 0), HoldFrom(t, tail, 0);
    HeldShifts(t, s, from, u, a);
    HeldShifts(t, s, from, u, b + from);
  }

  lemma LeftmostInTail(t: Table, s: string, from: nat, u: string, i: int, q: Query)
    requires from <= |s| && from <= i
    requires Leftmost(t, s + u, i, q)
    ensures Leftmost(t, s[from..] + u, i - from, q)
  {
    MatchShifts(t, s, from, u, i, q);
    forall i', q' | Matches(t, s[from..] + u, i', q') ensures i - from <= i' {
      MatchShifts(t, s, from, u, i' + from, q');
    }
  }

  lemma QueryFreeTail(t: Table, s: string, from: nat, u: string)
    requires from <= |s| && !Contains(t, s + u)
    ensures !Contains(t, s[from..] + u)
  {
    forall i, q | Matches(t, s[from..] + u, i, q) ensures false {
      MatchShifts(t, s, from, u, i + from, q);
    }
  }

  // ----- Chunks

  /** What the display has done after reading `chunk` on top of `done`. */
  ghost function FeedOne(t: Table, done: Scan, chunk: string): (r: Scan)
    requires Unambiguous(t)
  {
    After(done.output, ScanAll(t, done.pending + chunk))
  }

  ghost function FeedAll(t: Table, done: Scan, chunks: seq<string>): (r: Scan)
    requires Unambiguous(t)
    decreases |chunks|
  {
    if chunks == [] then done else FeedAll(t, FeedOne(t, done, chunks[0]), chunks[1..])
  }

  function Join(chunks: seq<string>): (r: string) {
    if chunks == [] then "" else chunks[0] + Join(chunks[1..])
  }

  /** However a text is cut, feeding the pieces (at least one, possibly empty)
      does what feeding it whole does, and holds back the same tail. */
  lemma {:induction false} ChunksDoNotMatter(t: Table, done: Scan, chunks: seq<string>)
    requires Unambiguous(t) && chunks != []
    ensures FeedAll(t, done, chunks) == FeedOne(t, done, Join(chunks))
    decreases |chunks|
  {
    hide ScanAll;
    var first, rest := chunks[0], chunks[1..];
    if rest == [] {
      assert Join(rest) == "" && Join(chunks) == first;
      assert FeedAll(t, FeedOne(t, done, first), []) == FeedOne(t, done, first);
    } else {
      var next := FeedOne(t, done, first);
      ChunksDoNotMatter(t, next, rest);
      ScanResumes(t, done.pending + first, Join(rest));
      assert done.pending + first + Join(rest) == done.pending + Join(chunks);
      var a := ScanAll(t, done.pending + first);
      AfterAfter(done.output, a.output, ScanAll(t, a.pending + Join(rest)));
    }
  }

  lemma AnyTwoCutsAgree(t: Table, done: Scan, left: seq<string>, right: seq<string>)
    requires Unambiguous(t) && left != [] && right != []
    requires Join(left) == Join(right)
    ensures FeedAll(t, done, left) == FeedAll(t, done, right)
  {
    ChunksDoNotMatter(t, done, left);
    ChunksDoNotMatter(t, done, right);
  }

  // ----- What was read

  function Read(out: Output): (r: string) {
    match out
    case Shown(c) => [c]
    case Answered(q) => q.text
  }

  /** The input that a list of outputs accounts for. */
  function Source(out: seq<Output>): (r: string) {
    if out == [] then "" else Read(out[0]) + Source(out[1..])
  }

  /** An answer to `q` was sent for the occurrence at offset `i` of the input. */
  predicate AnsweredAt(out: seq<Output>, i: int, q: Query) {
    && out != []
    && ((out[0] == Answered(q) && i == 0) || AnsweredAt(out[1..], i - |Read(out[0])|, q))
  }

  lemma {:induction false} SourceAppend(a: seq<Output>, b: seq<Output>)
    ensures Source(a + b) == Source(a) + Source(b)
  {
    if a == [] {
      assert a + b == b;
    } else {
      assert (a + b)[0] == a[0] && (a + b)[1..] == a[1..] + b;
      SourceAppend(a[1..], b);
    }
  }

  lemma {:induction false} AnsweredAppend(a: seq<Output>, b: seq<Output>, i: int, q: Query)
    ensures AnsweredAt(a + b, i, q) <==> AnsweredAt(a, i, q) || AnsweredAt(b, i - |Source(a)|, q)
    decreases |a|
  {
    if a == [] {
      assert a + b == b;
    } else {
      assert (a + b)[0] == a[0] && (a + b)[1..] == a[1..] + b;
      AnsweredAppend(a[1..], b, i - |Read(a[0])|, q);
    }
  }

  lemma {:induction false} ShowReads(s: string, i: int, q: Query)
    ensures Source(Show(s)) == s
    ensures !AnsweredAt(Show(s), i, q)
    decreases |s|
  {
    if s != "" {
      assert Show(s)[1..] == Show(s[1..]);
      ShowReads(s[1..], i - 1, q);
    }
  }

  lemma PutBack(s: string, i: nat, q: Query, rest: Scan)
    requires i + |q.text| <= |s| && s[i..i + |q.text|] == q.text
    requires Source(rest.output) + rest.pending == s[i + |q.text|..]
    ensures (s[..i] + q.text + Source(rest.output)) + rest.pending == s
  {
    hide Source;
    assert s[..i] + q.text == s[..i + |q.text|];
    assert (s[..i] + q.text + Source(rest.output)) + rest.pending == (s[..i] + q.text) + (Source(rest.output) + rest.pending);
  }

  /** Nothing is lost, repeated or reordered: what was shown, what was answered
      and what is held back spell the input. */
  lemma {:induction false} ScanConserves(t: Table, s: string)
    requires Unambiguous(t)
    ensures Source(ScanAll(t, s).output) + ScanAll(t, s).pending == s
    decreases |s|
  {
    hide ScanAll, HoldFrom;
    if Contains(t, s) {
      LeftmostExists(t, s);
      var i, q :| Leftmost(t, s, i, q);
      ScanLeftmost(t, s, i, q);
      var rest := ScanAll(t, s[i + |q.text|..]);
      ScanConserves(t, s[i + |q.text|..]);
      SourceSplits(s[..i], q, rest.output);
      PutBack(s, i, q, rest);
    } else {
      var from := HoldFrom(t, s, 0);
      ScanHeld(t, s);
      ShowReads(s[..from], 0, Query("", ""));
      assert s == s[..from] + s[from..];
    }
  }

  /** The answers are exactly the occurrences: every query of the table that
      occurs anywhere in the input is answered at its place, and nothing else is. */
  lemma {:induction false} AnswersAreOccurrences(t: Table, s: string, i: int, q: Query)
    requires Unambiguous(t)
    ensures AnsweredAt(ScanAll(t, s).output, i, q) <==> Matches(t, s, i, q)
    decreases |s|
  {
    hide ScanAll, HoldFrom;
    if Contains(t, s) {
      LeftmostExists(t, s);
      var i0, q0 :| Leftmost(t, s, i0, q0);
      ScanLeftmost(t, s, i0, q0);
      var end := i0 + |q0.text|;
      AnswersAreOccurrences(t, s[end..], i - end, q);
      AnsweredSplits(s[..i0], q0, ScanAll(t, s[end..]).output, i, q);
      assert end <= i ==> (Matches(t, s, i, q) <==> Matches(t, s[end..], i - end, q)) by {
        if end <= i {
          MatchShifts(t, s, end, "", i, q);
          assert s + "" == s && s[end..] + "" == s[end..];
        }
      }
      if i < end && Matches(t, s, i, q) {
        MatchesApart(t, s, i0, q0, i, q);
      }
    } else {
      ScanHeld(t, s);
      ShowReads(s[..HoldFrom(t, s, 0)], i, q);
    }
  }

  lemma SourceSplits(shown: string, q: Query, rest: seq<Output>)
    ensures Source(Show(shown) + [Answered(q)] + rest) == shown + q.text + Source(rest)
  {
    var head := [Answered(q)];
    ShowReads(shown, 0, q);
    SourceAppend(Show(shown), head);
    assert head[1..] == [] && Source(head) == q.text + Source([]) == q.text;
    SourceAppend(Show(shown) + head, rest);
  }

  lemma AnsweredSplits(shown: string, q0: Query, rest: seq<Output>, i: int, q: Query)
    ensures AnsweredAt(Show(shown) + [Answered(q0)] + rest, i, q)
            <==> (i == |shown| && q == q0) || AnsweredAt(rest, i - |shown| - |q0.text|, q)
  {
    var head := [Answered(q0)];
    ShowReads(shown, i, q);
    SourceAppend(Show(shown), head);
    assert head[1..] == [] && Source(head) == q0.text + Source([]) == q0.text;
    AnsweredAppend(Show(shown), head, i, q);
    AnsweredAppend(Show(shown) + head, rest, i, q);
  }
  /** What is held back is the longest tail of the text that is the beginning of a query, and nothing more. */
  lemma {:induction false} HeldExactly(t: Table, s: string)
    requires Unambiguous(t)
    ensures var n := |ScanAll(t, s).pending|;
            && n <= |s| && ScanAll(t, s).pending == s[|s| - n..]
            && (n > 0 ==> HeldFrom(t, s, |s| - n))
            && (forall i :: HeldFrom(t, s, i) ==> |s| - n <= i)
    decreases |s|
  {
    hide Unambiguous, Contains, HeldFrom;
    if !Contains(t, s) {
      ScanHeld(t, s);
      HoldsToTheEnd(t, s);
    } else {
      LeftmostExists(t, s);
      var i, q :| Leftmost(t, s, i, q);
      ScanLeftmost(t, s, i, q);
      var rest := s[i + |q.text|..];
      HeldExactly(t, rest);
      forall j | HeldFrom(t, s, j) ensures i + |q.text| <= j {
        NotHeldInside(t, s, i, q, j);
      }
      SuffixOfSuffix(t, s, i + |q.text|, |ScanAll(t, rest).pending|);
    }
  }

  lemma HoldsToTheEnd(t: Table, s: string)
    ensures forall i :: HeldFrom(t, s, i) ==> HoldFrom(t, s, 0) <= i
    ensures HoldFrom(t, s, 0) < |s| ==> HeldFrom(t, s, HoldFrom(t, s, 0))
  {
  }

  /** No beginning of a query starts before or inside an answered one and reaches to the end of the text. */
  lemma NotHeldInside(t: Table, s: string, i: int, q: Query, j: int)
    requires Unambiguous(t) && Leftmost(t, s, i, q) && HeldFrom(t, s, j)
    ensures i + |q.text| <= j
  {
    hide Unambiguous, Clash;
    var k :| 0 <= k < |t| && |s[j..]| < |t[k].text| && t[k].text[..|s[j..]|] == s[j..];
    var r := t[k];
    assert forall m | 0 <= m < |s| - j :: r.text[m] == r.text[..|s[j..]|][m] == s[j + m];
    assert forall m | 0 <= m < |q.text| :: q.text[m] == s[i..i + |q.text|][m] == s[i + m];
    if j <= i {
      OverlapsClash(s, r, j, |s| - j, q, i, |q.text|);
      ClashesAreSame(t, r, q, i - j);
    } else if j < i + |q.text| {
      OverlapsClash(s, q, i, |q.text|, r, j, |s| - j);
      ClashesAreSame(t, q, r, j - i);
    }
  }

  /** Queries read at two places of one text, as far as `n` and `m` characters, clash where both are read. */
  lemma OverlapsClash(s: string, p: Query, i: int, n: nat, q: Query, j: int, m: nat)
    requires 0 <= i <= j && j - i < |p.text| && n <= |p.text| && m <= |q.text| && i + n <= |s| && j + m <= |s|
    requires forall k | 0 <= k < n :: p.text[k] == s[i + k]
    requires forall k | 0 <= k < m :: q.text[k] == s[j + k]
    requires (n == |p.text| && (m == |q.text| || j + m >= i + n)) || (m == |q.text| && i + n >= j + m)
    ensures Clash(p, q, j - i)
  {
    forall k | 0 <= k < |q.text| && j - i + k < |p.text| ensures p.text[j - i + k] == q.text[k] {
      assert p.text[j - i + k] == s[i + (j - i + k)] && q.text[k] == s[j + k];
    }
  }

  lemma ClashesAreSame(t: Table, p: Query, q: Query, k: nat)
    requires Unambiguous(t) && p in t && q in t && k < |p.text| && Clash(p, q, k)
    ensures k == 0 && p == q
  {
  }

  lemma SuffixOfSuffix(t: Table, s: string, from: nat, n: nat)
    requires from <= |s| && n <= |s| - from
    ensures s[from..][|s[from..]| - n..] == s[|s| - n..]
    ensures n > 0 ==> (HeldFrom(t, s[from..], |s| - from - n) <==> HeldFrom(t, s, |s| - n))
    ensures forall i | from <= i :: HeldFrom(t, s, i) <==> HeldFrom(t, s[from..], i - from)
  {
    forall i | from <= i ensures HeldFrom(t, s, i) <==> HeldFrom(t, s[from..], i - from) {
      if i < |s| {
        assert s[i..] == s[from..][i - from..];
      }
    }
  }
}
