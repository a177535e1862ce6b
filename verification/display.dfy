/** The terminal display that the benchmark runs against: it forwards program
    output to a screen and answers the terminal queries found in it. */
module Display {
  import opened QueryScan

  const QUERIES: Table := [
    Query("\U{1B}[6n", "\U{1B}[1;1R"),
    Query("\U{1B}[?6n", "\U{1B}[?1;1R"),
    Query("\U{1B}[c", "\U{1B}[?1;2c"),
    Query("\U{1B}[0c", "\U{1B}[?1;2c"),
    Query("\U{1B}[>c", "\U{1B}[>0;276;0c"),
    Query("\U{1B}[>0c", "\U{1B}[>0;276;0c"),
    Query("\U{1B}[?u", "\U{1B}[?0u"),
    Query("\U{1B}[?2026$p", "\U{1B}[?2026;2$y"),
    Query("\U{1B}[14t", "\U{1B}[4;640;960t"),
    Query("\U{1B}[16t", "\U{1B}[6;16;8t"),
    Query("\U{1B}[18t", "\U{1B}[8;40;120t"),
    Query("\U{1B}]11;?\U{07}", "\U{1B}]11;rgb:0000/0000/0000\U{1B}\\"),
    Query("\U{1B}]10;?\U{07}", "\U{1B}]10;rgb:eeee/eeee/eeee\U{1B}\\"),
    Query("\U{1B}]11;?\U{1B}\\", "\U{1B}]11;rgb:0000/0000/0000\U{1B}\\"),
    Query("\U{1B}]10;?\U{1B}\\", "\U{1B}]10;rgb:eeee/eeee/eeee\U{1B}\\")
  ]

  const ESC := '\U{1B}'

  predicate Final(c: char) {
    c in ['n', 'c', 'u', 'p', 't', '\U{07}', '\\']
  }

  /** The shape all queries of the table share: an introducer, a body without
      introducers, and a final character that only ends a query. */
  predicate Shaped(q: Query) {
    && 3 <= |q.text|
    && q.text[0] == ESC
    && (q.text[1] == '[' || q.text[1] == ']')
    && (forall k | 2 <= k < |q.text| :: q.text[k] == ESC ==> k + 1 < |q.text| && q.text[k + 1] == '\\')
    && (forall k | 2 <= k < |q.text| :: Final(q.text[k]) <==> k == |q.text| - 1)
  }

  lemma ShapedApart(p: Query, q: Query, k: nat)
    requires Shaped(p) && Shaped(q)
    requires k < |p.text| && Clash(p, q, k)
    ensures k == 0 && p.text == q.text
  {
    assert p.text[k + 0] == q.text[0];
    if k + 1 < |p.text| {
      assert p.text[k + 1] == q.text[1];
    }
    assert k == 0;
    var last := if |p.text| < |q.text| then |p.text| - 1 else |q.text| - 1;
    assert p.text[0 + last] == q.text[last];
    assert |p.text| == |q.text|;
    forall j | 0 <= j < |q.text| ensures p.text[j] == q.text[j] {
      assert p.text[0 + j] == q.text[j];
    }
  }

  lemma CursorQueriesShaped()
    ensures forall k | 0 <= k < 3 :: Shaped(QUERIES[k])
  {
  }

  lemma DeviceQueriesShaped()
    ensures forall k | 3 <= k < 6 :: Shaped(QUERIES[k])
  {
  }

  lemma KeyboardQueryShaped()
    ensures Shaped(QUERIES[6])
  {
  }

  lemma ModeQueriesShaped()
    ensures forall k | 7 <= k < 9 :: Shaped(QUERIES[k])
  {
  }

  lemma SizeQueriesShaped()
    ensures forall k | 9 <= k < 11 :: Shaped(QUERIES[k])
  {
  }

  lemma ForegroundQueriesShaped()
    ensures forall k | 11 <= k < 13 :: Shaped(QUERIES[k])
  {
  }

  lemma ColorQueriesShaped()
    ensures forall k | 13 <= k < |QUERIES| :: Shaped(QUERIES[k])
  {
  }

  lemma QueryTextsDiffer()
    ensures forall j, k | 0 <= j < |QUERIES| && 0 <= k < |QUERIES| ::
              QUERIES[j].text == QUERIES[k].text ==> QUERIES[j] == QUERIES[k]
  {
  }

  lemma AllShaped()
    ensures forall k | 0 <= k < |QUERIES| :: Shaped(QUERIES[k])
  {
    hide Shaped;
    CursorQueriesShaped();
    DeviceQueriesShaped();
    KeyboardQueryShaped();
    ModeQueriesShaped();
    SizeQueriesShaped();
    ForegroundQueriesShaped();
    ColorQueriesShaped();
  }

  /** The table meets the condition the recogniser rests on. */
  lemma QueriesUnambiguous()
    ensures Unambiguous(QUERIES)
  {
    hide QUERIES, Clash;
    AllShaped();
    assert forall q <- QUERIES :: Shaped(q) && 0 < |q.text|;
    hide Shaped;
    forall p <- QUERIES, q <- QUERIES, k | 0 <= k < |p.text| && Clash(p, q, k)
      ensures k == 0 && p == q
    {
      ShapedApart(p, q, k);
      SameText(p, q);
    }
  }

  lemma SameText(p: Query, q: Query)
    requires p in QUERIES && q in QUERIES && p.text == q.text
    ensures p == q
  {
    hide QUERIES;
    QueryTextsDiffer();
  }

  /** What a display that has come to `d` makes of a chunk. */
  ghost function Fed(d: Scan, chunk: string): (r: Scan) {
    QueriesUnambiguous();
    FeedOne(QUERIES, d, chunk)
  }

  class Display {
    var pending: string
    /** Everything sent to the screen and back to the program, in order. */
    var output: seq<Output>

    constructor ()
      ensures pending == "" && output == []
    {
      pending := "";
      output := [];
    }

    ghost function State(): (r: Scan)
      reads this
    {
      Scan(output, pending)
    }

    method Feed(chunk: string)
      modifies this
      ensures State() == Fed(old(State()), chunk)
    {
      hide ScanAll, HoldFrom, Unambiguous, QUERIES;
      QueriesUnambiguous();
      pending := pending + chunk;
      ghost var whole := Fed(old(State()), chunk);
      while true
        invariant After(output, ScanAll(QUERIES, pending)) == whole
        decreases |pending|
      {
        var position, query := FirstQuery(pending);
        if position < 0 {
          break;
        }
        ScanLeftmost(QUERIES, pending, position, query);
        AfterAfter(output, Show(pending[..position]) + [Answered(query)],
                   ScanAll(QUERIES, pending[position + |query.text|..]));
        SendText(pending[..position]);
        output := output + [Answered(query)];
        pending := pending[position + |query.text|..];
      }
      Hold();
    }

    /** With no query left in it, shows all of the pending text but what could still become one. */
    method Hold()
      requires Unambiguous(QUERIES) && !Contains(QUERIES, pending)
      modifies this
      ensures State() == After(old(output), ScanAll(QUERIES, old(pending)))
    {
      hide ScanAll, HoldFrom, Show, Contains, Unambiguous, QUERIES;
      ScanHeld(QUERIES, pending);
      var keep := LongestHeld(pending);
      if keep > 0 {
        SendText(pending[..|pending| - keep]);
        pending := pending[|pending| - keep..];
      } else {
        SendText(pending);
        pending := "";
      }
    }

    method SendText(text: string)
      modifies this`output
      ensures output == old(output) + Show(text)
    {
      output := output + Show(text);
    }
  }

  /** Position of the first occurrence of `query` in `s`, or -1. */
  method Find(s: string, query: Query) returns (position: int)
    ensures position < 0 ==> forall i :: !MatchAt(s, i, query)
    ensures 0 <= position ==> MatchAt(s, position, query)
    ensures 0 <= position ==> forall i | 0 <= i < position :: !MatchAt(s, i, query)
  {
    position := 0;
    while position + |query.text| <= |s|
      invariant 0 <= position
      invariant forall i | 0 <= i < position :: !MatchAt(s, i, query)
    {
      if s[position..position + |query.text|] == query.text {
        return;
      }
      position := position + 1;
    }
    position := -1;
  }

  /** The leftmost query of the table in `s`; a tie on the position is impossible. */
  method FirstQuery(s: string) returns (position: int, query: Query)
    ensures position < 0 ==> !Contains(QUERIES, s)
    ensures 0 <= position ==> Leftmost(QUERIES, s, position, query)
  {
    position, query := -1, QUERIES[0];
    hide QUERIES, Unambiguous;
    for k := 0 to |QUERIES|
      invariant position < 0 ==> forall j, i | 0 <= j < k :: !MatchAt(s, i, QUERIES[j])
      invariant 0 <= position ==> Matches(QUERIES, s, position, query)
      invariant 0 <= position ==> forall j, i | 0 <= j < k && MatchAt(s, i, QUERIES[j]) :: position <= i
    {
      var found := Find(s, QUERIES[k]);
      if 0 <= found && (position < 0 || found < position) {
        position, query := found, QUERIES[k];
      }
    }
  }

  /** The longest proper prefix of a query that `s` ends with. */
  method LongestHeld(s: string) returns (keep: nat)
    ensures keep == |s| - HoldFrom(QUERIES, s, 0)
  {
    keep := 0;
    for k := 0 to |QUERIES|
      invariant keep <= |s|
      invariant 0 < keep ==> HeldFrom(QUERIES, s, |s| - keep)
      invariant forall j, n | 0 <= j < k && 0 < n < |QUERIES[j].text| && n <= |s| ::
                  s[|s| - n..] == QUERIES[j].text[..n] ==> n <= keep
    {
      keep := LongestOf(s, k, keep);
    }
  }

  /** The longest of `atLeast` and the proper prefixes of one query that `s` ends with. */
  method LongestOf(s: string, k: nat, atLeast: nat) returns (keep: nat)
    requires k < |QUERIES| && atLeast <= |s| && (0 < atLeast ==> HeldFrom(QUERIES, s, |s| - atLeast))
    ensures atLeast <= keep <= |s| && (0 < keep ==> HeldFrom(QUERIES, s, |s| - keep))
    ensures forall n | 0 < n < |QUERIES[k].text| && n <= |s| :: s[|s| - n..] == QUERIES[k].text[..n] ==> n <= keep
  {
    keep := atLeast;
    var text := QUERIES[k].text;
    hide QUERIES;
    for length := 1 to |text|
      invariant atLeast <= keep <= |s|
      invariant 0 < keep ==> HeldFrom(QUERIES, s, |s| - keep)
      invariant forall n | 0 < n < length && n <= |s| :: s[|s| - n..] == text[..n] ==> n <= keep
    {
      if length <= |s| && s[|s| - length..] == text[..length] && keep < length {
        keep := length;
      }
    }
  }
}
