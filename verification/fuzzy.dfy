/** Fuzzy matching: query characters in order, and a ranking of what matches. */
module Fuzzy {
  import opened Messages

  datatype FuzzyMatch = FuzzyMatch(matches: bool, score: real)

  /** Lower case, white space and the characters that end a word. */
  datatype Alphabet = Alphabet(lower: string -> string, space: char -> bool, boundary: char -> bool)

  // ----- Embeddings of a query in a text

  ghost predicate Embeds(ps: seq<nat>, query: string, text: string) {
    && |ps| == |query|
    && (forall k | 0 <= k < |ps| :: ps[k] < |text| && text[ps[k]] == query[k])
    && (forall j, k | 0 <= j < k < |ps| :: ps[j] < ps[k])
  }

  ghost predicate Subsequence(query: string, text: string) {
    exists ps :: Embeds(ps, query, text)
  }

  /** Where the characters of `query` are found from `i` on, each as soon as possible. */
  function Greedy(query: string, text: string, i: nat): (ps: seq<nat>)
    requires i <= |text|
    ensures |ps| <= |query|
    ensures forall k | 0 <= k < |ps| :: i <= ps[k] < |text| && text[ps[k]] == query[k]
    ensures forall j, k | 0 <= j < k < |ps| :: ps[j] < ps[k]
    decreases |text| - i
  {
    if query == "" || i == |text| then []
    else if text[i] == query[0] then [i] + Greedy(query[1..], text, i + 1)
    else Greedy(query, text, i + 1)
  }

  lemma GreedyStep(query: string, text: string, i: nat)
    requires i <= |text|
    ensures Greedy(query, text, i) ==
            if query == "" || i == |text| then []
            else if text[i] == query[0] then [i] + Greedy(query[1..], text, i + 1)
            else Greedy(query, text, i + 1)
  {
  }

  /** No embedding is ahead of the greedy one at any character. */
  lemma {:induction false} GreedyLeads(query: string, text: string, i: nat, ps: seq<nat>)
    requires i <= |text| && Embeds(ps, query, text) && (ps != [] ==> i <= ps[0])
    ensures var gs := Greedy(query, text, i); |gs| == |query| && forall k | 0 <= k < |gs| :: gs[k] <= ps[k]
    decreases |text| - i
  {
    hide Greedy;
    GreedyStep(query, text, i);
    if query != "" {
      if text[i] == query[0] {
        var rest, gs := ps[1..], Greedy(query[1..], text, i + 1);
        assert Embeds(rest, query[1..], text);
        GreedyLeads(query[1..], text, i + 1, rest);
        assert forall k | 1 <= k < |ps| :: ps[k] == rest[k - 1] && ([i] + gs)[k] == gs[k - 1];
      } else {
        GreedyLeads(query, text, i + 1, ps);
      }
    }
  }

  /** The greedy match succeeds just when there is any way to find the query,
      and is then the leftmost of all of them. */
  lemma GreedyIsComplete(query: string, text: string)
    ensures |Greedy(query, text, 0)| == |query| <==> Subsequence(query, text)
    ensures |Greedy(query, text, 0)| == |query| ==> Embeds(Greedy(query, text, 0), query, text)
    ensures forall ps, k | Embeds(ps, query, text) && 0 <= k < |ps| :: k < |Greedy(query, text, 0)| && Greedy(query, text, 0)[k] <= ps[k]
  {
    if |Greedy(query, text, 0)| == |query| {
      assert Embeds(Greedy(query, text, 0), query, text);
    }
    forall ps | Embeds(ps, query, text)
      ensures |Greedy(query, text, 0)| == |query| && forall k | 0 <= k < |ps| :: Greedy(query, text, 0)[k] <= ps[k]
    {
      GreedyLeads(query, text, 0, ps);
    }
  }

  lemma {:induction false} EmbeddingFits(ps: seq<nat>, query: string, text: string)
    requires Embeds(ps, query, text)
    ensures forall k | 0 <= k < |ps| :: k <= ps[k]
    ensures |query| <= |text|
    decreases |ps|
  {
    if ps != [] {
      var n := |ps| - 1;
      EmbeddingFits(ps[..n], query[..n], text);
      assert n > 0 ==> ps[..n][n - 1] == ps[n - 1] && ps[n - 1] < ps[n];
      assert n <= ps[n] < |text|;
    }
  }

  /** A query found in a longer query is found wherever that is. */
  lemma Narrows(short: string, long: string, text: string)
    requires Subsequence(short, long) && Subsequence(long, text)
    ensures Subsequence(short, text)
  {
    var ps :| Embeds(ps, short, long);
    var qs :| Embeds(qs, long, text);
    var rs := seq(|ps|, k requires 0 <= k < |ps| => qs[ps[k]]);
    assert Embeds(rs, short, text);
  }

  // ----- Scores

  /** How many matches in a row end at match `k`; one at the very start of the text counts as such. */
  function Streak(ps: seq<nat>, k: nat): (r: nat)
    requires k < |ps|
  {
    if k == 0 then (if ps[0] == 0 then 1 else 0)
    else if ps[k] == ps[k - 1] + 1 then Streak(ps, k - 1) + 1
    else 0
  }

  function Cost(a: Alphabet, text: string, ps: seq<nat>, k: nat): (r: real)
    requires k < |ps| && ps[k] < |text|
  {
    var i: int, streak := ps[k], Streak(ps, k);
    (if streak > 0 then -5.0 * (streak as real)
     else if k > 0 then 2.0 * ((i - ps[k - 1] - 1) as real)
     else 0.0)
    - (if i == 0 || a.boundary(text[i - 1]) then 10.0 else 0.0)
    + (i as real) * 0.1
  }

  function Total(a: Alphabet, text: string, ps: seq<nat>, n: nat): (r: real)
    requires n <= |ps| && forall k | 0 <= k < |ps| :: ps[k] < |text|
  {
    if n == 0 then 0.0 else Total(a, text, ps, n - 1) + Cost(a, text, ps, n - 1)
  }

  /** What matching one query, as it stands, must yield. */
  function Matched(a: Alphabet, query: string, text: string): (r: FuzzyMatch) {
    var ps := Greedy(query, text, 0);
    if |ps| < |query| then FuzzyMatch(false, 0.0)
    else FuzzyMatch(true, Total(a, text, ps, |ps|) - if query != "" && query == text then 100.0 else 0.0)
  }

  method MatchQuery(a: Alphabet, query: string, text: string) returns (r: FuzzyMatch)
    ensures r == Matched(a, query, text)
  {
    hide Total;
    NoPoints(a, text, Greedy(query, text, 0));
    if |query| == 0 {
      return FuzzyMatch(true, 0.0);
    }
    if |query| > |text| {
      TooLong(query, text);
      return FuzzyMatch(false, 0.0);
    }
    var queryIndex, score := Walk(a, query, text);
    if queryIndex < |query| {
      return FuzzyMatch(false, 0.0);
    }
    if query == text {
      score := score - 100.0;
    }
    r := FuzzyMatch(true, score);
  }

  /** The walk along the text: how many characters of the query were met, and at what score. */
  method Walk(a: Alphabet, query: string, text: string) returns (queryIndex: nat, score: real)
    ensures var ps := Greedy(query, text, 0); queryIndex == |ps| && score == Total(a, text, ps, |ps|)
  {
    hide Total, Streak, Cost, Greedy;
    ghost var ps := Greedy(query, text, 0);
    NoPoints(a, text, ps);
    queryIndex, score := 0, 0.0;
    var lastMatchIndex, consecutiveMatches, i := -1, 0, 0;
    while i < |text| && queryIndex < |query|
      invariant i <= |text| && queryIndex <= |query|
      invariant queryIndex <= |ps| && ps[queryIndex..] == Greedy(query[queryIndex..], text, i)
      invariant score == Total(a, text, ps, queryIndex)
      invariant lastMatchIndex < i
      invariant if queryIndex == 0 then lastMatchIndex == -1 && consecutiveMatches == 0
                else lastMatchIndex == ps[queryIndex - 1] && consecutiveMatches == Streak(ps, queryIndex - 1)
    {
      assert query[queryIndex..][1..] == query[queryIndex + 1..];
      GreedyStep(query[queryIndex..], text, i);
      if text[i] == query[queryIndex] {
        assert ps[queryIndex] == ps[queryIndex..][0] == i;
        assert ps[queryIndex + 1..] == ps[queryIndex..][1..];
        score, consecutiveMatches := Weigh(a, text, ps, queryIndex, i, lastMatchIndex, consecutiveMatches, score);
        lastMatchIndex := i;
        queryIndex := queryIndex + 1;
      }
      i := i + 1;
    }
    GreedyStep(query[queryIndex..], text, i);
  }

  lemma NoPoints(a: Alphabet, text: string, ps: seq<nat>)
    requires forall k | 0 <= k < |ps| :: ps[k] < |text|
    ensures Total(a, text, ps, 0) == 0.0
  {
  }

  /** What the match at `i`, number `k` of the positions `ps`, does to the score. */
  method Weigh(a: Alphabet, text: string, ghost ps: seq<nat>, ghost k: nat, i: nat, lastMatchIndex: int, consecutive: nat, before: real)
    returns (score: real, consecutiveMatches: nat)
    requires k < |ps| && forall j | 0 <= j < |ps| :: ps[j] < |text|
    requires i == ps[k] && before == Total(a, text, ps, k) && lastMatchIndex < i
    requires if k == 0 then lastMatchIndex == -1 && consecutive == 0
             else lastMatchIndex == ps[k - 1] && consecutive == Streak(ps, k - 1)
    ensures score == Total(a, text, ps, k + 1) && consecutiveMatches == Streak(ps, k)
  {
    score, consecutiveMatches := before, consecutive;
    var isWordBoundary := i == 0 || a.boundary(text[i - 1]);
    if lastMatchIndex == i - 1 {
      consecutiveMatches := consecutiveMatches + 1;
      score := score - (consecutiveMatches as real) * 5.0;
    } else {
      consecutiveMatches := 0;
      if lastMatchIndex >= 0 {
        score := score + ((i - lastMatchIndex - 1) as real) * 2.0;
      }
    }
    if isWordBoundary {
      score := score - 10.0;
    }
    score := score + (i as real) * 0.1;
  }

  lemma TooLong(query: string, text: string)
    requires |query| > |text|
    ensures |Greedy(query, text, 0)| < |query|
  {
    var ps := Greedy(query, text, 0);
    if |ps| == |query| {
      assert Embeds(ps, query, text);
      EmbeddingFits(ps, query, text);
    }
  }

  // ----- Letters and digits the other way round

  predicate Letters(s: string) {
    s != "" && forall k | 0 <= k < |s| :: 'a' <= s[k] <= 'z'
  }

  predicate Digits(s: string) {
    s != "" && forall k | 0 <= k < |s| :: '0' <= s[k] <= '9'
  }

  /** How many letters, or digits, `s` starts with. */
  function Head(letters: bool, s: string): (n: nat)
    ensures n <= |s|
    ensures forall k | 0 <= k < n :: if letters then 'a' <= s[k] <= 'z' else '0' <= s[k] <= '9'
    ensures n < |s| ==> !(if letters then 'a' <= s[n] <= 'z' else '0' <= s[n] <= '9')
  {
    if s == "" || !(if letters then 'a' <= s[0] <= 'z' else '0' <= s[0] <= '9') then 0 else 1 + Head(letters, s[1..])
  }

  function Swapped(query: string): (r: Option<string>) {
    var l, d := Head(true, query), Head(false, query);
    if Letters(query[..l]) && Digits(query[l..]) then Some(query[l..] + query[..l])
    else if Digits(query[..d]) && Letters(query[d..]) then Some(query[d..] + query[..d])
    else None
  }

  /** The swap applies just to letters followed by digits or digits followed by letters, and swaps those. */
  lemma SwappedExactly(query: string, other: string)
    ensures Swapped(query) == Some(other) <==>
            exists k | 0 <= k <= |query| :: other == query[k..] + query[..k] && Halves(query[..k], query[k..])
  {
    hide Head;
    forall k | 0 <= k <= |query| && Halves(query[..k], query[k..])
      ensures Swapped(query) == Some(query[k..] + query[..k])
    {
      HeadOf(query, k);
    }
  }

  lemma HeadOf(query: string, k: nat)
    requires k <= |query| && Halves(query[..k], query[k..])
    ensures if Letters(query[..k]) then Head(true, query) == k else Head(false, query) == k && Head(true, query) == 0
  {
    assert query[k..][0] == query[k] && query[..k][0] == query[0];
    assert forall j | 0 <= j < k :: query[..k][j] == query[j];
    assert forall j | 0 <= j < k :: if Letters(query[..k]) then 'a' <= query[j] <= 'z' else '0' <= query[j] <= '9';
  }

  predicate Halves(a: string, b: string) {
    (Letters(a) && Digits(b)) || (Digits(a) && Letters(b))
  }

  function Found(a: Alphabet, query: string, text: string): (r: FuzzyMatch) {
    var q, t := a.lower(query), a.lower(text);
    var primary, other := Matched(a, q, t), Swapped(q);
    if primary.matches || other.None? || !Matched(a, other.value, t).matches then primary
    else FuzzyMatch(true, Matched(a, other.value, t).score + 5.0)
  }

  method FuzzyMatches(a: Alphabet, query: string, text: string) returns (r: FuzzyMatch)
    ensures r == Found(a, query, text)
  {
    hide Matched, Swapped;
    var queryLower, textLower := a.lower(query), a.lower(text);
    r := MatchQuery(a, queryLower, textLower);
    if r.matches {
      return;
    }
    var swappedQuery := Swapped(queryLower);
    if swappedQuery.None? {
      return;
    }
    var swappedMatch := MatchQuery(a, swappedQuery.value, textLower);
    if swappedMatch.matches {
      r := FuzzyMatch(true, swappedMatch.score + 5.0);
    }
  }

  /** A match is found just when the query, or the query with its letters and
      digits the other way round, is a subsequence of the text. */
  lemma FoundExactly(a: Alphabet, query: string, text: string)
    ensures var q, t := a.lower(query), a.lower(text);
            Found(a, query, text).matches <==>
              Subsequence(q, t) ||
              exists k | 0 <= k <= |q| :: Halves(q[..k], q[k..]) && Subsequence(q[k..] + q[..k], t)
  {
    hide Swapped, Halves, Subsequence, Total;
    var q, t := a.lower(query), a.lower(text);
    GreedyIsComplete(q, t);
    var other := Swapped(q);
    if other.Some? {
      SwappedExactly(q, other.value);
      GreedyIsComplete(other.value, t);
    }
    forall k | 0 <= k <= |q| && Halves(q[..k], q[k..]) ensures other == Some(q[k..] + q[..k]) {
      SwappedExactly(q, q[k..] + q[..k]);
    }
  }

  // ----- Filtering and ranking

  datatype Scored<T> = Scored(item: T, score: real)

  /** The words of a query. */
  function Words(space: char -> bool, s: string): (ws: seq<string>)
    ensures forall w <- ws :: w != "" && forall k | 0 <= k < |w| :: !space(w[k])
  {
    if s == "" then []
    else if space(s[0]) then Words(space, s[1..])
    else
      var rest := Words(space, s[1..]);
      if |s| == 1 || space(s[1]) || rest == [] then [[s[0]]] + rest else [[s[0]] + rest[0]] + rest[1..]
  }

  predicate Word(space: char -> bool, w: string) {
    w != "" && forall k | 0 <= k < |w| :: !space(w[k])
  }

  lemma SpaceFirst(space: char -> bool, gap: char, s: string)
    requires space(gap)
    ensures Words(space, [gap] + s) == Words(space, s)
  {
    assert ([gap] + s)[1..] == s;
  }

  lemma {:induction false} WordAlone(space: char -> bool, w: string)
    requires Word(space, w)
    ensures Words(space, w) == [w]
    decreases |w|
  {
    hide Words;
    WordsStep(space, w);
    assert w == [w[0]] + w[1..];
    if |w| == 1 {
      assert w[1..] == "" && w == [w[0]];
      WordsStep(space, w[1..]);
    } else {
      WordAlone(space, w[1..]);
    }
  }

  lemma {:induction false} WordThen(space: char -> bool, w: string, rest: string)
    requires Word(space, w) && rest != "" && space(rest[0])
    ensures Words(space, w + rest) == [w] + Words(space, rest)
    decreases |w|
  {
    hide Words;
    var text := w + rest;
    WordsStep(space, text);
    assert w == [w[0]] + w[1..] && text[1..] == w[1..] + rest;
    if |w| == 1 {
      assert text[1..] == rest && text[1] == rest[0] && w == [w[0]];
    } else {
      WordThen(space, w[1..], rest);
    }
  }

  /** White space in front of a query goes unnoticed; a word in front of white
      space is the first of the words; a word alone is all of them. */
  lemma WordFirst(space: char -> bool, w: string, gap: char, s: string)
    requires Word(space, w) && space(gap)
    ensures Words(space, [gap] + s) == Words(space, s)
    ensures Words(space, w + [gap] + s) == [w] + Words(space, s)
    ensures Words(space, w) == [w]
  {
    hide Words;
    SpaceFirst(space, gap, s);
    WordAlone(space, w);
    WordThen(space, w, [gap] + s);
    assert w + [gap] + s == w + ([gap] + s);
  }

  lemma WordsStep(space: char -> bool, s: string)
    ensures Words(space, s) ==
            if s == "" then []
            else
              var rest := Words(space, s[1..]);
              if space(s[0]) then rest
              else if |s| == 1 || space(s[1]) || rest == [] then [[s[0]]] + rest
              else [[s[0]] + rest[0]] + rest[1..]
  {
  }

  predicate AllFound(a: Alphabet, tokens: seq<string>, text: string) {
    forall k | 0 <= k < |tokens| :: Found(a, tokens[k], text).matches
  }

  function Sum(a: Alphabet, tokens: seq<string>, text: string): (r: real) {
    if tokens == [] then 0.0
    else Sum(a, tokens[..|tokens| - 1], text) + Found(a, tokens[|tokens| - 1], text).score
  }

  /** The items that all tokens match, in the order given, each with the sum of its scores. */
  function Kept<T>(a: Alphabet, tokens: seq<string>, items: seq<T>, getText: T -> string): (r: seq<Scored<T>>) {
    if items == [] then []
    else
      var n := |items| - 1;
      Kept(a, tokens, items[..n], getText)
      + if AllFound(a, tokens, getText(items[n])) then [Scored(items[n], Sum(a, tokens, getText(items[n])))] else []
  }

  /** A result is an item that all tokens match, with the sum of its scores, and every such item is a result. */
  lemma {:induction false} KeptExactly<T>(a: Alphabet, tokens: seq<string>, items: seq<T>, getText: T -> string, x: Scored<T>)
    ensures x in Kept(a, tokens, items, getText) <==>
            exists k | 0 <= k < |items| ::
              items[k] == x.item && AllFound(a, tokens, getText(x.item)) && x.score == Sum(a, tokens, getText(x.item))
    decreases |items|
  {
    hide AllFound, Sum;
    if items != [] {
      var n := |items| - 1;
      KeptExactly(a, tokens, items[..n], getText, x);
      assert forall k | 0 <= k < n :: items[..n][k] == items[k];
    }
  }

  predicate Ranked<T>(xs: seq<Scored<T>>) {
    forall i, j | 0 <= i < j < |xs| :: xs[i].score <= xs[j].score
  }

  /** The results with one score, in order. */
  function Scoring<T>(xs: seq<Scored<T>>, score: real): (r: seq<Scored<T>>) {
    if xs == [] then []
    else (if xs[0].score == score then [xs[0]] else []) + Scoring(xs[1..], score)
  }

  /** Put in front of all that score no better. */
  function Inserted<T>(x: Scored<T>, xs: seq<Scored<T>>): (r: seq<Scored<T>>) {
    if xs == [] || x.score <= xs[0].score then [x] + xs else [xs[0]] + Inserted(x, xs[1..])
  }

  function StableSort<T>(xs: seq<Scored<T>>): (r: seq<Scored<T>>) {
    if xs == [] then [] else Inserted(xs[0], StableSort(xs[1..]))
  }

  lemma RankedCons<T>(x: Scored<T>, xs: seq<Scored<T>>)
    requires Ranked(xs) && (xs != [] ==> x.score <= xs[0].score)
    ensures Ranked([x] + xs)
  {
  }

  lemma {:induction false} InsertedRanked<T>(x: Scored<T>, xs: seq<Scored<T>>)
    requires Ranked(xs)
    ensures var r := Inserted(x, xs);
            && r != [] && Ranked(r) && (r[0] == x || (xs != [] && r[0] == xs[0]))
            && multiset(r) == multiset{x} + multiset(xs)
    decreases |xs|
  {
    hide Ranked;
    if xs == [] || x.score <= xs[0].score {
      RankedCons(x, xs);
    } else {
      var rest := xs[1..];
      assert xs == [xs[0]] + rest;
      RankedTail(xs);
      InsertedRanked(x, rest);
      RankedCons(xs[0], Inserted(x, rest));
    }
  }

  lemma RankedTail<T>(xs: seq<Scored<T>>)
    requires Ranked(xs) && xs != []
    ensures Ranked(xs[1..]) && (|xs| > 1 ==> xs[0].score <= xs[1].score)
  {
  }

  /** The sort ranks the results and loses none. */
  lemma {:induction false} SortRanks<T>(xs: seq<Scored<T>>)
    ensures Ranked(StableSort(xs)) && multiset(StableSort(xs)) == multiset(xs)
    decreases |xs|
  {
    hide Ranked, Inserted;
    if xs == [] {
      Alone(xs);
    } else {
      SortRanks(xs[1..]);
      InsertedRanked(xs[0], StableSort(xs[1..]));
      assert xs == [xs[0]] + xs[1..];
    }
  }

  lemma Alone<T>(xs: seq<Scored<T>>)
    requires |xs| <= 1
    ensures Ranked(xs)
  {
  }

  lemma {:induction false} InsertedScoring<T>(x: Scored<T>, xs: seq<Scored<T>>, score: real)
    ensures Scoring(Inserted(x, xs), score) == (if x.score == score then [x] else []) + Scoring(xs, score)
    decreases |xs|
  {
    hide Scoring;
    if xs == [] || x.score <= xs[0].score {
      ScoringCons(x, xs, score);
    } else {
      InsertedScoring(x, xs[1..], score);
      ScoringCons(xs[0], Inserted(x, xs[1..]), score);
      ScoringCons(xs[0], xs[1..], score);
      assert xs == [xs[0]] + xs[1..];
    }
  }

  lemma ScoringCons<T>(x: Scored<T>, xs: seq<Scored<T>>, score: real)
    ensures Scoring([x] + xs, score) == (if x.score == score then [x] else []) + Scoring(xs, score)
  {
    assert ([x] + xs)[1..] == xs;
  }

  lemma {:induction false} SortIsStable<T>(xs: seq<Scored<T>>, score: real)
    ensures Scoring(StableSort(xs), score) == Scoring(xs, score)
    decreases |xs|
  {
    if xs != [] {
      SortIsStable(xs[1..], score);
      InsertedScoring(xs[0], StableSort(xs[1..]), score);
    }
  }

  lemma {:induction false} ScoringNone<T>(xs: seq<Scored<T>>, score: real)
    ensures Scoring(xs, score) == [] <==> forall k | 0 <= k < |xs| :: xs[k].score != score
    decreases |xs|
  {
    if xs != [] {
      ScoringNone(xs[1..], score);
      assert forall k | 1 <= k < |xs| :: xs[k] == xs[1..][k - 1];
      assert forall k | 0 <= k < |xs| - 1 :: xs[k + 1] == xs[1..][k];
    }
  }

  /** There is only one ranking that keeps equally good results in their order. */
  lemma {:induction false} OneStableRanking<T>(xs: seq<Scored<T>>, ys: seq<Scored<T>>)
    requires Ranked(xs) && Ranked(ys) && forall score :: Scoring(xs, score) == Scoring(ys, score)
    ensures xs == ys
    decreases |xs|
  {
    if xs == [] || ys == [] {
      ScoringNone(xs, if ys == [] then 0.0 else ys[0].score);
      ScoringNone(ys, if ys == [] then 0.0 else ys[0].score);
      ScoringNone(ys, if xs == [] then 0.0 else xs[0].score);
      ScoringNone(xs, if xs == [] then 0.0 else xs[0].score);
    } else {
      ScoringNone(xs, ys[0].score);
      ScoringNone(ys, xs[0].score);
      ScoringNone(xs, xs[0].score);
      ScoringNone(ys, ys[0].score);
      assert xs[0].score == ys[0].score;
      assert Scoring(xs, xs[0].score)[0] == xs[0] && Scoring(ys, ys[0].score)[0] == ys[0];
      forall score ensures Scoring(xs[1..], score) == Scoring(ys[1..], score) {
        var head := if xs[0].score == score then [xs[0]] else [];
        assert Scoring(xs[1..], score) == Scoring(xs, score)[|head|..];
        assert Scoring(ys[1..], score) == Scoring(ys, score)[|head|..];
      }
      OneStableRanking(xs[1..], ys[1..]);
      assert xs == [xs[0]] + xs[1..] && ys == [ys[0]] + ys[1..];
    }
  }

  method ScoreItem(a: Alphabet, tokens: seq<string>, text: string) returns (allMatch: bool, totalScore: real)
    ensures allMatch <==> AllFound(a, tokens, text)
    ensures allMatch ==> totalScore == Sum(a, tokens, text)
  {
    hide Found;
    totalScore, allMatch := 0.0, true;
    for i := 0 to |tokens|
      invariant allMatch && totalScore == Sum(a, tokens[..i], text)
      invariant forall k | 0 <= k < i :: Found(a, tokens[k], text).matches
    {
      assert tokens[..i + 1][..i] == tokens[..i];
      var m := FuzzyMatches(a, tokens[i], text);
      if !m.matches {
        allMatch := false;
        return;
      }
      totalScore := totalScore + m.score;
    }
    assert tokens[..|tokens|] == tokens;
  }

  method FuzzyFilterScored<T>(a: Alphabet, items: seq<T>, query: string, getText: T -> string) returns (results: seq<Scored<T>>)
    ensures var tokens := Words(a.space, query);
            if tokens == []
            then |results| == |items| && forall k | 0 <= k < |items| :: results[k] == Scored(items[k], 0.0)
            else results == StableSort(Kept(a, tokens, items, getText))
  {
    hide AllFound, Sum, StableSort;
    var tokens := Words(a.space, query);
    if tokens == [] {
      return seq(|items|, k requires 0 <= k < |items| => Scored(items[k], 0.0));
    }
    results := [];
    for i := 0 to |items|
      invariant results == Kept(a, tokens, items[..i], getText)
    {
      assert items[..i + 1][..i] == items[..i];
      var allMatch, totalScore := ScoreItem(a, tokens, getText(items[i]));
      if allMatch {
        results := results + [Scored(items[i], totalScore)];
      }
    }
    assert items[..|items|] == items;
    results := StableSort(results);
  }
}
