/** What the scores of the fuzzy matcher add up to. */
module FuzzyScores {
  import opened Fuzzy

  function Positions(ps: seq<nat>, n: nat): (r: nat)
    requires n <= |ps|
  {
    if n == 0 then 0 else Positions(ps, n - 1) + ps[n - 1]
  }

  predicate StartsWord(a: Alphabet, text: string, i: nat)
    requires i < |text|
  {
    i == 0 || a.boundary(text[i - 1])
  }

  /** The matches that stand at the start of a word. */
  function WordStarts(a: Alphabet, text: string, ps: seq<nat>, n: nat): (r: set<nat>)
    requires n <= |ps| && forall k | 0 <= k < |ps| :: ps[k] < |text|
  {
    set k: nat | k < n && StartsWord(a, text, ps[k])
  }

  /** For each match, how many in a row end there. */
  function Streaks(ps: seq<nat>, n: nat): (r: nat)
    requires n <= |ps|
  {
    if n == 0 then 0 else Streaks(ps, n - 1) + Streak(ps, n - 1)
  }

  predicate Ascending(ps: seq<nat>) {
    forall j, k | 0 <= j < k < |ps| :: ps[j] < ps[k]
  }

  /** Matches `k - m` to `k` stand in a row. */
  predicate InARow(ps: seq<nat>, k: nat, m: nat)
    requires m <= k < |ps|
  {
    ps[k] == ps[k - m] + m
  }

  /** A streak counts the matches in a row before this one, and this one too when the row starts the text. */
  lemma {:induction false} StreakCounts(ps: seq<nat>, k: nat, m: nat)
    requires Ascending(ps) && m <= k < |ps| && InARow(ps, k, m) && (m < k ==> !InARow(ps, k, m + 1))
    ensures Streak(ps, k) == if m == k && ps[0] == 0 then m + 1 else m
    decreases k
  {
    if k > 0 {
      if m == 0 {
        assert ps[k] != ps[k - 1] + 1;
      } else {
        Stepwise(ps, k - m, k - 1);
        assert ps[k - 1] < ps[k];
        StreakCounts(ps, k - 1, m - 1);
      }
    }
  }

  /** Positions that ascend are at least as far apart as their numbers. */
  lemma {:induction false} Stepwise(ps: seq<nat>, j: nat, k: nat)
    requires Ascending(ps) && j <= k < |ps|
    ensures ps[k] >= ps[j] + (k - j)
    decreases k
  {
    if j < k {
      Stepwise(ps, j, k - 1);
      assert ps[k - 1] < ps[k];
    }
  }

  lemma WordStartsMore(a: Alphabet, text: string, ps: seq<nat>, n: nat)
    requires n < |ps| && forall k | 0 <= k < |ps| :: ps[k] < |text|
    ensures |WordStarts(a, text, ps, n + 1)|
            == |WordStarts(a, text, ps, n)| + (if StartsWord(a, text, ps[n]) then 1 else 0)
  {
    hide StartsWord;
    var before, after := WordStarts(a, text, ps, n), WordStarts(a, text, ps, n + 1);
    if StartsWord(a, text, ps[n]) {
      assert after == before + {n};
    } else {
      assert after == before;
    }
  }

  /** The walk's score: a tenth for every position, two for every character skipped
      between the first and the last match, ten off for every match at the start
      of a word, and five off for every match in a row, counted over again as the row goes on. */
  lemma {:induction false} WalkScores(a: Alphabet, text: string, ps: seq<nat>, n: nat)
    requires Ascending(ps) && n <= |ps| && forall k | 0 <= k < |ps| :: ps[k] < |text|
    ensures n > 0 ==> ps[n - 1] >= ps[0] + n - 1
    ensures Total(a, text, ps, n)
            == 0.1 * (Positions(ps, n) as real)
               + 2.0 * (if n == 0 then 0.0 else (ps[n - 1] - ps[0] - (n - 1)) as real)
               - 10.0 * (|WordStarts(a, text, ps, n)| as real)
               - 5.0 * (Streaks(ps, n) as real)
    decreases n
  {
    hide Ascending, Total, WordStarts, StartsWord, Streak;
    if n > 0 {
      WalkScores(a, text, ps, n - 1);
      WordStartsMore(a, text, ps, n - 1);
      Stepwise(ps, 0, n - 1);
      StreakOrGap(ps, n - 1);
      OneMatchScores(a, text, ps, n - 1);
    } else {
      NoWalk(a, text, ps);
    }
  }

  lemma NoWalk(a: Alphabet, text: string, ps: seq<nat>)
    requires forall k | 0 <= k < |ps| :: ps[k] < |text|
    ensures WordStarts(a, text, ps, 0) == {} && Total(a, text, ps, 0) == 0.0
  {
  }

  lemma StreakOrGap(ps: seq<nat>, k: nat)
    requires Ascending(ps) && k < |ps|
    ensures k > 0 ==> ps[k] > ps[k - 1] && (Streak(ps, k) > 0 <==> ps[k] == ps[k - 1] + 1)
  {
  }

  /** What one match adds to the score. */
  lemma OneMatchScores(a: Alphabet, text: string, ps: seq<nat>, k: nat)
    requires k < |ps| && (forall j | 0 <= j < |ps| :: ps[j] < |text|)
    requires k > 0 ==> ps[k] > ps[k - 1] && (Streak(ps, k) > 0 <==> ps[k] == ps[k - 1] + 1)
    ensures Total(a, text, ps, k + 1)
            == Total(a, text, ps, k) + 0.1 * (ps[k] as real)
               + (if k == 0 then 0.0 else 2.0 * ((ps[k] - ps[k - 1] - 1) as real))
               - (if StartsWord(a, text, ps[k]) then 10.0 else 0.0)
               - 5.0 * (Streak(ps, k) as real)
  {
    hide Streak;
  }

  /** A query that is found scores what its leftmost match scores, and a hundred
      less when it is the whole text; one that is not found scores nothing. */
  lemma MatchScores(a: Alphabet, query: string, text: string)
    ensures var r, ps, n := Matched(a, query, text), Greedy(query, text, 0), |query|;
            && (r.matches <==> Subsequence(query, text))
            && (!r.matches ==> r.score == 0.0)
            && (query == "" ==> r.score == 0.0)
            && (r.matches && n > 0 ==>
                  && Embeds(ps, query, text)
                  && r.score == 0.1 * (Positions(ps, n) as real) + 2.0 * ((ps[n - 1] - ps[0] - (n - 1)) as real)
                                - 10.0 * (|WordStarts(a, text, ps, n)| as real) - 5.0 * (Streaks(ps, n) as real)
                                - (if query == text then 100.0 else 0.0))
  {
    hide Total;
    GreedyIsComplete(query, text);
    var ps := Greedy(query, text, 0);
    if |ps| == |query| {
      WalkScores(a, text, ps, |ps|);
      NoPoints(a, text, ps);
    }
  }

  /** The whole text, or the start of it, is one row from the first character on. */
  lemma StartScores(a: Alphabet, query: string, text: string)
    requires query != "" && query <= text
    ensures var r, n := Matched(a, query, text), |query|;
            var starts := set k: nat | k < n && StartsWord(a, text, k);
            && r.matches
            && r.score == 0.05 * ((n * (n - 1)) as real) - 2.5 * ((n * (n + 1)) as real) - 10.0 * (|starts| as real)
                          - (if query == text then 100.0 else 0.0)
  {
    hide Matched, Greedy, Subsequence, StartsWord;
    var n, ps := |query|, Greedy(query, text, 0);
    RowIsGreedy(query, text);
    MatchScores(a, query, text);
    RowSums(ps, n);
    assert WordStarts(a, text, ps, n) == set k: nat | k < n && StartsWord(a, text, k);
    HalfSums(Positions(ps, n), Streaks(ps, n), n);
  }

  lemma HalfSums(p: nat, s: nat, n: nat)
    requires 2 * p == n * (n - 1) && 2 * s == n * (n + 1)
    ensures 0.1 * (p as real) == 0.05 * ((n * (n - 1)) as real)
    ensures 5.0 * (s as real) == 2.5 * ((n * (n + 1)) as real)
  {
    assert (2 * p) as real == 2.0 * (p as real) && (2 * s) as real == 2.0 * (s as real);
  }

  lemma RowIsGreedy(query: string, text: string)
    requires query <= text
    ensures var ps := Greedy(query, text, 0); |ps| == |query| && (forall k | 0 <= k < |ps| :: ps[k] == k)
    ensures Subsequence(query, text)
  {
    hide Greedy;
    var row := seq(|query|, k requires 0 <= k < |query| => k);
    assert Embeds(row, query, text);
    GreedyIsComplete(query, text);
    var ps := Greedy(query, text, 0);
    forall k | 0 <= k < |ps| ensures ps[k] == k {
      assert ps[k] <= row[k];
      Stepwise(ps, 0, k);
    }
  }

  lemma RowStreak(ps: seq<nat>, k: nat)
    requires k < |ps| && forall j | 0 <= j < |ps| :: ps[j] == j
    ensures Streak(ps, k) == k + 1
  {
    StreakCounts(ps, k, k);
  }

  lemma NextProducts(n: nat)
    requires n > 0
    ensures n * (n - 1) == (n - 1) * (n - 2) + 2 * (n - 1)
    ensures n * (n + 1) == (n - 1) * n + 2 * n
  {
  }

  lemma {:induction false} RowSums(ps: seq<nat>, n: nat)
    requires n <= |ps| && forall k | 0 <= k < |ps| :: ps[k] == k
    ensures 2 * Positions(ps, n) == if n == 0 then 0 else n * (n - 1)
    ensures 2 * Streaks(ps, n) == n * (n + 1)
  {
    if n > 0 {
      hide Streak, Ascending, InARow;
      RowSums(ps, n - 1);
      RowStreak(ps, n - 1);
      NextProducts(n);
    }
  }

  /** The swapped query, when it is the one that is found, costs five more. */
  lemma SwapCosts(a: Alphabet, query: string, text: string, k: nat)
    requires k <= |a.lower(query)|
    ensures var q, t := a.lower(query), a.lower(text);
            Halves(q[..k], q[k..]) && !Matched(a, q, t).matches && Matched(a, q[k..] + q[..k], t).matches ==>
              Found(a, query, text) == FuzzyMatch(true, Matched(a, q[k..] + q[..k], t).score + 5.0)
  {
    hide Matched;
    var q := a.lower(query);
    if Halves(q[..k], q[k..]) {
      SwappedExactly(q, q[k..] + q[..k]);
    }
  }
}
