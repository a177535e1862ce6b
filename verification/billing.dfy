/** Billing a transcript through a prefix cache, turn by turn, and the replay
    that drives it. */
module Billing {
  import opened Messages
  import opened StableJson
  import opened StableJsonLaws

  datatype TurnBilling = TurnBilling(
    turnIndex: nat, totalTokens: nat, prefixTokens: nat, newTokens: int,
    cacheRead: nat, cacheWrite: int, billedTokens: int, prefixBreak: bool, prefixHash: string)

  datatype Totals = Totals(cacheRead: int, cacheWrite: int, billedTokens: int, finalContextTokens: nat, prefixBreaks: nat)

  /** The parts of the harness that lie elsewhere: the token estimate of a message and the hash of a prefix. */
  datatype Meter = Meter(estimate: Json -> nat, hash: seq<Text> -> string)

  function Sum(ns: seq<nat>): (r: nat) {
    if ns == [] then 0 else ns[0] + Sum(ns[1..])
  }

  function Serialized(messages: seq<Json>): (ts: seq<Text>)
    ensures |ts| == |messages|
    ensures forall i | 0 <= i < |ts| :: ts[i] == StableStringify(messages[i])
  {
    seq(|messages|, i requires 0 <= i < |messages| => StableStringify(messages[i]))
  }

  function Counts(meter: Meter, messages: seq<Json>): (ns: seq<nat>)
    ensures |ns| == |messages|
    ensures forall i | 0 <= i < |ns| :: ns[i] == meter.estimate(messages[i])
  {
    seq(|messages|, i requires 0 <= i < |messages| => meter.estimate(messages[i]))
  }

  function Tokens(meter: Meter, messages: seq<Json>): (r: nat) {
    Sum(Counts(meter, messages))
  }

  /** Length of the longest common prefix. */
  function Shared<T(==)>(a: seq<T>, b: seq<T>): (n: nat)
    ensures n <= |a| && n <= |b| && a[..n] == b[..n]
    ensures n < |a| && n < |b| ==> a[n] != b[n]
  {
    if a == [] || b == [] || a[0] != b[0] then 0
    else
      var n := Shared(a[1..], b[1..]);
      PrefixPeels(a, n);
      PrefixPeels(b, n);
      n + 1
  }

  lemma PrefixPeels<T>(a: seq<T>, n: nat)
    requires n < |a|
    ensures a[..n + 1] == [a[0]] + a[1..][..n]
  {
  }

  /** What a turn costs after `previous`: an intact prefix is read from the
      cache; a first or broken turn is written in full. */
  function Charge(meter: Meter, previous: Option<seq<Json>>, messages: seq<Json>, turnIndex: nat): (r: TurnBilling) {
    var serialized := Serialized(messages);
    var shared := if previous.Some? then Shared(Serialized(previous.value), serialized) else 0;
    var total, prefix := Tokens(meter, messages), Tokens(meter, messages[..shared]);
    var broken := previous.Some? && shared < |previous.value|;
    var read := if previous.None? then 0 else prefix;
    var write := if previous.None? || broken then total else total - prefix;
    TurnBilling(turnIndex, total, prefix, total - prefix, read, write, read + write, broken, meter.hash(serialized[..shared]))
  }

  class PrefixBillingCache {
    var previousSerialized: Option<seq<Text>>
    var previousTokens: Option<seq<nat>>
    const meter: Meter
    /** The transcript of the turn billed last. */
    ghost var previous: Option<seq<Json>>

    ghost predicate Valid()
      reads this
    {
      match previous
      case None => previousSerialized == None && previousTokens == None
      case Some(messages) => previousSerialized == Some(Serialized(messages)) && previousTokens == Some(Counts(meter, messages))
    }

    constructor (meter: Meter)
      ensures Valid() && previous == None && this.meter == meter
    {
      this.meter := meter;
      previousSerialized, previousTokens, previous := None, None, None;
    }

    method Bill(messages: seq<Json>, turnIndex: nat) returns (t: TurnBilling)
      requires Valid()
      modifies this
      ensures Valid() && previous == Some(messages)
      ensures t == Charge(meter, old(previous), messages, turnIndex)
    {
      var serialized, tokenCounts := Serialized(messages), Counts(meter, messages);
      var totalTokens := Sum(tokenCounts);
      var shared := SharedWith(serialized);
      assert tokenCounts[..shared] == Counts(meter, messages[..shared]);
      var prefixTokens := Sum(tokenCounts[..shared]);
      var newTokens: int := totalTokens - prefixTokens;
      var firstTurn := previousSerialized.None?;
      var prefixBreak := !firstTurn && shared < |previousSerialized.value|;
      var cacheRead := if firstTurn then 0 else prefixTokens;
      var cacheWrite: int := if firstTurn || prefixBreak then totalTokens else newTokens;
      previousSerialized, previousTokens := Some(serialized), Some(tokenCounts);
      previous := Some(messages);
      t := TurnBilling(turnIndex, totalTokens, prefixTokens, newTokens, cacheRead, cacheWrite, cacheRead + cacheWrite,
                       prefixBreak, meter.hash(serialized[..shared]));
    }

    /** How many leading messages are printed as in the turn before. */
    method SharedWith(serialized: seq<Text>) returns (shared: nat)
      ensures shared == if previousSerialized.Some? then Shared(previousSerialized.value, serialized) else 0
      ensures shared <= |serialized|
    {
      shared := 0;
      if previousSerialized.Some? {
        var before := previousSerialized.value;
        var limit := if |before| < |serialized| then |before| else |serialized|;
        while shared < limit && before[shared] == serialized[shared]
          invariant shared <= limit && before[..shared] == serialized[..shared]
        {
          shared := shared + 1;
        }
        SharedIs(before, serialized, shared);
      }
    }

    /** Tokens in the transcript after the last billed turn. */
    method ResidentTokens() returns (n: nat)
      requires Valid()
      ensures n == if previous.Some? then Tokens(meter, previous.value) else 0
    {
      n := if previousTokens.Some? then Sum(previousTokens.value) else 0;
    }
  }

  lemma {:induction false} SharedIs<T>(a: seq<T>, b: seq<T>, n: nat)
    requires n <= |a| && n <= |b| && a[..n] == b[..n]
    requires n < |a| && n < |b| ==> a[n] != b[n]
    ensures Shared(a, b) == n
  {
    if n > 0 {
      assert a[..n][0] == b[..n][0];
      assert a[1..][..n - 1] == a[..n][1..] && b[1..][..n - 1] == b[..n][1..];
      SharedIs(a[1..], b[1..], n - 1);
    }
  }

  // ----- Whole runs

  /** Billing the transcripts of a run, one after the other. */
  function BillFrom(meter: Meter, previous: Option<seq<Json>>, views: seq<seq<Json>>, turnIndex: nat): (ts: seq<TurnBilling>)
    ensures |ts| == |views|
    decreases |views|
  {
    if views == [] then []
    else [Charge(meter, previous, views[0], turnIndex)] + BillFrom(meter, Some(views[0]), views[1..], turnIndex + 1)
  }

  function Summarize(turns: seq<TurnBilling>): (r: Totals) {
    if turns == [] then Totals(0, 0, 0, 0, 0)
    else
      var t, rest := turns[0], Summarize(turns[1..]);
      Totals(t.cacheRead + rest.cacheRead, t.cacheWrite + rest.cacheWrite, t.billedTokens + rest.billedTokens,
             if |turns| == 1 then t.totalTokens else rest.finalContextTokens,
             (if t.prefixBreak then 1 else 0) + rest.prefixBreaks)
  }

  function TotalTokens(turns: seq<TurnBilling>): (r: nat) {
    if turns == [] then 0 else turns[0].totalTokens + TotalTokens(turns[1..])
  }

  /** The prefix tokens of just those turns that broke the prefix. */
  function BrokenPrefixes(turns: seq<TurnBilling>): (r: nat) {
    if turns == [] then 0 else (if turns[0].prefixBreak then turns[0].prefixTokens else 0) + BrokenPrefixes(turns[1..])
  }

  /** A run pays for every turn's transcript once, and once more for the prefix of each turn that broke it. */
  lemma {:induction false} BilledTokensIdentity(meter: Meter, previous: Option<seq<Json>>, views: seq<seq<Json>>, turnIndex: nat)
    ensures var turns := BillFrom(meter, previous, views, turnIndex);
            Summarize(turns).billedTokens == TotalTokens(turns) + BrokenPrefixes(turns)
    decreases |views|
  {
    if views != [] {
      BilledTokensIdentity(meter, Some(views[0]), views[1..], turnIndex + 1);
      var turns := BillFrom(meter, previous, views, turnIndex);
      assert turns[1..] == BillFrom(meter, Some(views[0]), views[1..], turnIndex + 1);
    }
  }

  /** A turn breaks the prefix just when some earlier message was changed in a way that JSON can express, or dropped. */
  lemma BreakMeansRewrite(meter: Meter, before: seq<Json>, now: seq<Json>, turnIndex: nat)
    requires (forall i | 0 <= i < |before| :: WellFormed(before[i])) && (forall i | 0 <= i < |now| :: WellFormed(now[i]))
    ensures Charge(meter, Some(before), now, turnIndex).prefixBreak <==> !(Meanings(before) <= Meanings(now))
  {
    hide StableStringify, Meaning, WellFormed;
    var a, b := Serialized(before), Serialized(now);
    var n := Shared(a, b);
    forall i | 0 <= i < |before| && i < |now| ensures a[i] == b[i] <==> Meanings(before)[i] == Meanings(now)[i] {
      StableStringifyCanonical(before[i], now[i]);
    }
    assert forall i | 0 <= i < n :: a[i] == a[..n][i] && b[i] == b[..n][i];
    if n == |before| {
      assert forall i | 0 <= i < n :: Meanings(before)[i] == Meanings(now)[i];
    } else if n < |now| {
      assert Meanings(before)[n] != Meanings(now)[n];
    }
  }

  /** The first `k` messages mean the same in both transcripts, and the next ones do not. */
  predicate AgreeUpTo(before: seq<Json>, now: seq<Json>, k: nat) {
    && k <= |before| && k <= |now|
    && (forall i | 0 <= i < k :: Meaning(before[i]) == Meaning(now[i]))
    && (k < |before| && k < |now| ==> Meaning(before[k]) != Meaning(now[k]))
  }

  /** What a turn costs after another one: the leading messages that still mean
      the same are read from the cache. When they are all that there was before,
      only what follows them is written; when not, the whole transcript is. */
  lemma TurnCosts(meter: Meter, before: seq<Json>, now: seq<Json>, turnIndex: nat, k: nat)
    requires (forall i | 0 <= i < |before| :: WellFormed(before[i])) && (forall i | 0 <= i < |now| :: WellFormed(now[i]))
    requires AgreeUpTo(before, now, k)
    ensures var t := Charge(meter, Some(before), now, turnIndex);
            && t.turnIndex == turnIndex && t.totalTokens == Tokens(meter, now)
            && t.prefixTokens == Tokens(meter, now[..k]) && t.newTokens == Tokens(meter, now[k..])
            && t.cacheRead == Tokens(meter, now[..k])
            && (t.prefixBreak <==> k < |before|)
            && t.cacheWrite == (if k < |before| then Tokens(meter, now) else Tokens(meter, now[k..]))
            && t.billedTokens == t.cacheRead + t.cacheWrite
            && t.prefixHash == meter.hash(seq(k, i requires 0 <= i < k => StableStringify(now[i])))
  {
    hide StableStringify, Meaning, WellFormed, Tokens;
    var a, b := Serialized(before), Serialized(now);
    forall i | 0 <= i < |before| && i < |now| ensures a[i] == b[i] <==> Meaning(before[i]) == Meaning(now[i]) {
      StableStringifyCanonical(before[i], now[i]);
    }
    assert a[..k] == b[..k];
    SharedIs(a, b, k);
    assert b[..k] == seq(k, i requires 0 <= i < k => StableStringify(now[i]));
    TokensAppend(meter, now[..k], now[k..]);
    assert now == now[..k] + now[k..];
  }

  /** The first turn reads nothing and writes everything. */
  lemma FirstTurnCosts(meter: Meter, now: seq<Json>, turnIndex: nat)
    ensures Charge(meter, None, now, turnIndex)
            == TurnBilling(turnIndex, Tokens(meter, now), 0, Tokens(meter, now), 0, Tokens(meter, now), Tokens(meter, now), false, meter.hash([]))
  {
    NothingYet(meter);
  }

  lemma {:induction false} SumAppend(a: seq<nat>, b: seq<nat>)
    ensures Sum(a + b) == Sum(a) + Sum(b)
    decreases |a|
  {
    if a == [] {
      assert a + b == b;
    } else {
      assert (a + b)[1..] == a[1..] + b;
      SumAppend(a[1..], b);
    }
  }

  /** A transcript that only grew reads all of the old one from the cache. */
  lemma GrowthCharge(meter: Meter, before: seq<Json>, now: seq<Json>, turnIndex: nat)
    requires before <= now
    ensures var t := Charge(meter, Some(before), now, turnIndex);
            && !t.prefixBreak && t.cacheRead == Tokens(meter, before)
            && t.cacheWrite == Tokens(meter, now) - Tokens(meter, before) && t.totalTokens == Tokens(meter, now)
            && t.billedTokens == Tokens(meter, now)
  {
    assert now[..|before|] == before;
    assert Serialized(now)[..|before|] == Serialized(before);
    SharedIs(Serialized(before), Serialized(now), |before|);
  }

  predicate Growing(views: seq<seq<Json>>) {
    forall i | 0 <= i < |views| - 1 :: views[i] <= views[i + 1]
  }

  /** A run that only appends never breaks the prefix, writes each token once,
      and reads at every turn what the turn before left. */
  lemma {:induction false} AppendOnlyRun(meter: Meter, views: seq<seq<Json>>, turnIndex: nat)
    requires Growing(views) && views != []
    ensures var t := Summarize(BillFrom(meter, None, views, turnIndex));
            && t.prefixBreaks == 0
            && t.cacheWrite == t.finalContextTokens == Tokens(meter, views[|views| - 1])
            && t.cacheRead == Reads(meter, views)
            && t.billedTokens == t.cacheRead + t.cacheWrite
  {
    AppendOnlyFrom(meter, views[0], views[1..], turnIndex + 1);
    var turns := BillFrom(meter, None, views, turnIndex);
    assert turns[1..] == BillFrom(meter, Some(views[0]), views[1..], turnIndex + 1);
    assert views == [views[0]] + views[1..];
  }

  /** The tokens of all transcripts but the last. */
  function Reads(meter: Meter, views: seq<seq<Json>>): (r: nat) {
    if |views| <= 1 then 0 else Tokens(meter, views[0]) + Reads(meter, views[1..])
  }

  lemma {:induction false} AppendOnlyFrom(meter: Meter, before: seq<Json>, views: seq<seq<Json>>, turnIndex: nat)
    requires Growing([before] + views)
    ensures var t := Summarize(BillFrom(meter, Some(before), views, turnIndex));
            && t.prefixBreaks == 0
            && t.cacheRead == Reads(meter, [before] + views)
            && t.billedTokens == t.cacheRead + t.cacheWrite
            && (views == [] ==> t.cacheWrite == 0)
            && (views != [] ==>
                  && t.finalContextTokens == Tokens(meter, views[|views| - 1])
                  && t.cacheWrite == t.finalContextTokens - Tokens(meter, before))
    decreases |views|
  {
    var all := [before] + views;
    assert all[1..] == views;
    if views != [] {
      hide Charge, Tokens, Growing, Summarize;
      assert views == [views[0]] + views[1..];
      GrowthHead(before, views);
      GrowthCharge(meter, before, views[0], turnIndex);
      AppendOnlyFrom(meter, views[0], views[1..], turnIndex + 1);
      SummarizeFrom(meter, Some(before), views, turnIndex);
      ChargeAdds(meter, Some(before), views[0], turnIndex);
    } else {
      hide Charge;
    }
  }

  lemma GrowthHead(before: seq<Json>, views: seq<seq<Json>>)
    requires Growing([before] + views) && views != []
    ensures before <= views[0] && Growing(views)
  {
    var all := [before] + views;
    assert all[0] <= all[1];
    GrowingFrom(before, views);
  }

  lemma SummarizeFrom(meter: Meter, previous: Option<seq<Json>>, views: seq<seq<Json>>, turnIndex: nat)
    requires views != []
    ensures var t, rest := Charge(meter, previous, views[0], turnIndex), Summarize(BillFrom(meter, Some(views[0]), views[1..], turnIndex + 1));
            Summarize(BillFrom(meter, previous, views, turnIndex)) ==
            Totals(t.cacheRead + rest.cacheRead, t.cacheWrite + rest.cacheWrite, t.billedTokens + rest.billedTokens,
                   if |views| == 1 then t.totalTokens else rest.finalContextTokens,
                   (if t.prefixBreak then 1 else 0) + rest.prefixBreaks)
  {
    hide Charge;
    var turns := BillFrom(meter, previous, views, turnIndex);
    assert turns[1..] == BillFrom(meter, Some(views[0]), views[1..], turnIndex + 1);
  }

  lemma ChargeAdds(meter: Meter, previous: Option<seq<Json>>, messages: seq<Json>, turnIndex: nat)
    ensures var t := Charge(meter, previous, messages, turnIndex); t.billedTokens == t.cacheRead + t.cacheWrite
  {
  }

  // ----- Replays

  /** A message as it is stored, and the number of scratch files written so far. */
  datatype Stored = Stored(message: Json, scratch: nat)

  /** The output cap: given the scratch files so far and a message, what is stored. */
  type Cap = (nat, Json) -> Stored

  datatype Added = Added(messages: seq<Json>, scratch: nat)

  /** Every message of a turn passed through the cap as it is added. */
  function Capped(cap: Cap, scratch: nat, messages: seq<Json>): (r: Added)
    ensures |r.messages| == |messages|
  {
    if messages == [] then Added([], scratch)
    else
      var before := Capped(cap, scratch, messages[..|messages| - 1]);
      var stored := cap(before.scratch, messages[|messages| - 1]);
      Added(before.messages + [stored.message], stored.scratch)
  }

  /** The transcript after each turn. */
  function Transcripts(cap: Cap, done: Added, turns: seq<seq<Json>>): (views: seq<seq<Json>>)
    ensures |views| == |turns|
    decreases |turns|
  {
    if turns == [] then []
    else
      var now := Extended(cap, done, turns[0]);
      [now.messages] + Transcripts(cap, now, turns[1..])
  }

  function Extended(cap: Cap, done: Added, turn: seq<Json>): (r: Added)
    ensures done.messages <= r.messages
  {
    var added := Capped(cap, done.scratch, turn);
    Added(done.messages + added.messages, added.scratch)
  }

  /** What the provider is shown of a transcript; with the image time-to-live off, all of it. */
  function View(evict: Option<seq<Json> -> seq<Json>>, transcript: seq<Json>): (r: seq<Json>) {
    match evict
    case None => transcript
    case Some(plan) => plan(transcript)
  }

  function Views(evict: Option<seq<Json> -> seq<Json>>, transcripts: seq<seq<Json>>): (vs: seq<seq<Json>>)
    ensures |vs| == |transcripts|
    ensures forall i | 0 <= i < |vs| :: vs[i] == View(evict, transcripts[i])
  {
    seq(|transcripts|, i requires 0 <= i < |transcripts| => View(evict, transcripts[i]))
  }

  /** The bills of a replay that goes on from `done` with `turns`. */
  function Bills(meter: Meter, previous: Option<seq<Json>>, evict: Option<seq<Json> -> seq<Json>>, cap: Cap, done: Added,
                 turns: seq<seq<Json>>, turnIndex: nat): (r: seq<TurnBilling>) {
    BillFrom(meter, previous, Views(evict, Transcripts(cap, done, turns)), turnIndex)
  }

  method RunReplay(meter: Meter, turns: seq<seq<Json>>, cap: Cap, evict: Option<seq<Json> -> seq<Json>>)
    returns (perTurn: seq<TurnBilling>, totals: Totals)
    ensures perTurn == Bills(meter, None, evict, cap, Added([], 0), turns, 0)
    ensures totals == Summarize(perTurn)
  {
    hide Charge, View, Extended, Bills;
    var cache := new PrefixBillingCache(meter);
    var transcript, scratchIndex := [], 0;
    perTurn := [];
    assert turns[0..] == turns;
    for turnIndex := 0 to |turns|
      invariant cache.Valid() && cache.meter == meter && fresh(cache)
      invariant perTurn + Bills(meter, cache.previous, evict, cap, Added(transcript, scratchIndex), turns[turnIndex..], turnIndex)
                == Bills(meter, None, evict, cap, Added([], 0), turns, 0)
    {
      ReplayStep(meter, cache.previous, evict, cap, Added(transcript, scratchIndex), turns[turnIndex..], turnIndex);
      assert turns[turnIndex..][1..] == turns[turnIndex + 1..];
      transcript, scratchIndex := AddTurn(cap, transcript, scratchIndex, turns[turnIndex]);
      var view := View(evict, transcript);
      var billing := cache.Bill(view, turnIndex);
      Regroup(perTurn, billing, Bills(meter, cache.previous, evict, cap, Added(transcript, scratchIndex), turns[turnIndex + 1..], turnIndex + 1));
      perTurn := perTurn + [billing];
    }
    NoMoreBills(meter, cache.previous, evict, cap, Added(transcript, scratchIndex), |turns|);
    totals := Summarize(perTurn);
  }

  lemma NoMoreBills(meter: Meter, previous: Option<seq<Json>>, evict: Option<seq<Json> -> seq<Json>>, cap: Cap, done: Added, turnIndex: nat)
    ensures Bills(meter, previous, evict, cap, done, [], turnIndex) == []
  {
  }

  lemma Regroup<T>(a: seq<T>, x: T, b: seq<T>)
    ensures a + ([x] + b) == (a + [x]) + b
  {
  }

  /** Pushes a turn's messages onto the transcript, each through the cap. */
  method AddTurn(cap: Cap, transcript: seq<Json>, scratchIndex: nat, turn: seq<Json>) returns (grown: seq<Json>, scratch: nat)
    ensures Added(grown, scratch) == Extended(cap, Added(transcript, scratchIndex), turn)
  {
    grown, scratch := transcript, scratchIndex;
    for i := 0 to |turn|
      invariant Added(grown, scratch) == Extended(cap, Added(transcript, scratchIndex), turn[..i])
    {
      assert turn[..i + 1][..i] == turn[..i];
      var next := cap(scratch, turn[i]);
      grown, scratch := grown + [next.message], next.scratch;
    }
    assert turn[..|turn|] == turn;
  }

  lemma ReplayStep(meter: Meter, previous: Option<seq<Json>>, evict: Option<seq<Json> -> seq<Json>>, cap: Cap,
                   done: Added, turns: seq<seq<Json>>, turnIndex: nat)
    requires turns != []
    ensures var now := Extended(cap, done, turns[0]);
            Bills(meter, previous, evict, cap, done, turns, turnIndex)
            == [Charge(meter, previous, View(evict, now.messages), turnIndex)]
               + Bills(meter, Some(View(evict, now.messages)), evict, cap, now, turns[1..], turnIndex + 1)
  {
    hide Charge, Extended;
    var now := Extended(cap, done, turns[0]);
    var views := Views(evict, Transcripts(cap, done, turns));
    assert views[0] == View(evict, now.messages);
    assert views[1..] == Views(evict, Transcripts(cap, now, turns[1..]));
  }

  lemma {:induction false} TranscriptsGrow(cap: Cap, done: Added, turns: seq<seq<Json>>)
    ensures Growing([done.messages] + Transcripts(cap, done, turns))
    decreases |turns|
  {
    hide Extended;
    if turns != [] {
      var now := Extended(cap, done, turns[0]);
      TranscriptsGrow(cap, now, turns[1..]);
      var all := [done.messages] + Transcripts(cap, done, turns);
      var rest := [now.messages] + Transcripts(cap, now, turns[1..]);
      assert all == [done.messages] + rest;
      forall i | 0 <= i < |all| - 1 ensures all[i] <= all[i + 1] {
        if i > 0 {
          assert all[i] == rest[i - 1] && all[i + 1] == rest[i];
        }
      }
    }
  }

  lemma {:induction false} GrowingFrom(first: seq<Json>, views: seq<seq<Json>>)
    requires Growing([first] + views)
    ensures Growing(views)
  {
    var all := [first] + views;
    forall i | 0 <= i < |views| - 1 ensures views[i] <= views[i + 1] {
      assert all[i + 1] <= all[i + 2];
    }
  }

  /** Every replay with the image time-to-live off keeps its prefix intact,
      writes to the cache exactly what is in the final context, and reads at
      each turn the whole transcript of the one before. */
  lemma ReplayWithoutEviction(meter: Meter, turns: seq<seq<Json>>, cap: Cap)
    ensures var views := Transcripts(cap, Added([], 0), turns);
            var t := Summarize(Bills(meter, None, None, cap, Added([], 0), turns, 0));
            && t.prefixBreaks == 0
            && t.cacheWrite == t.finalContextTokens == (if turns == [] then 0 else Tokens(meter, views[|turns| - 1]))
            && t.cacheRead == Reads(meter, views)
            && t.billedTokens == t.cacheRead + t.cacheWrite
  {
    hide Charge, Extended, Tokens;
    var views := Transcripts(cap, Added([], 0), turns);
    assert Views(None, views) == views;
    if turns != [] {
      TranscriptsGrow(cap, Added([], 0), turns);
      GrowingFrom([], views);
      AppendOnlyRun(meter, views, 0);
    }
  }

  // ----- Comparing a capped replay with the raw one

  /** No message costs more tokens after the transform than before, whatever scratch files there are. */
  ghost predicate Shrinks(meter: Meter, cap: Cap) {
    forall k, m :: meter.estimate(cap(k, m).message) <= meter.estimate(m)
  }

  /** A replay with the output cap off. */
  function Raw(scratch: nat, message: Json): (r: Stored) {
    Stored(message, scratch)
  }

  lemma {:induction false} CappedShrinks(meter: Meter, cap: Cap, a: nat, b: nat, messages: seq<Json>)
    requires Shrinks(meter, cap)
    ensures Tokens(meter, Capped(cap, a, messages).messages) <= Tokens(meter, Capped(Raw, b, messages).messages)
    decreases |messages|
  {
    hide Tokens;
    if messages == [] {
      assert Tokens(meter, []) <= Tokens(meter, []);
    } else {
      var n := |messages| - 1;
      CappedShrinks(meter, cap, a, b, messages[..n]);
      var s, t := Capped(cap, a, messages[..n]), Capped(Raw, b, messages[..n]);
      var x, y := cap(s.scratch, messages[n]).message, messages[n];
      TokensAppend(meter, s.messages, [x]);
      TokensAppend(meter, t.messages, [y]);
      OneMessage(meter, x);
      OneMessage(meter, y);
    }
  }

  lemma OneMessage(meter: Meter, m: Json)
    ensures Tokens(meter, [m]) == meter.estimate(m)
  {
    var counts := Counts(meter, [m]);
    assert counts == [meter.estimate(m)] && counts[1..] == [] && Sum(counts) == counts[0] + Sum(counts[1..]);
  }

  lemma ExtendedShrinks(meter: Meter, cap: Cap, a: Added, b: Added, turn: seq<Json>)
    requires Shrinks(meter, cap) && Tokens(meter, a.messages) <= Tokens(meter, b.messages)
    ensures Tokens(meter, Extended(cap, a, turn).messages) <= Tokens(meter, Extended(Raw, b, turn).messages)
  {
    hide Tokens, Capped;
    CappedShrinks(meter, cap, a.scratch, b.scratch, turn);
    TokensAppend(meter, a.messages, Capped(cap, a.scratch, turn).messages);
    TokensAppend(meter, b.messages, Capped(Raw, b.scratch, turn).messages);
  }

  lemma {:induction false} TranscriptsShrink(meter: Meter, cap: Cap, a: Added, b: Added, turns: seq<seq<Json>>)
    requires Shrinks(meter, cap) && Tokens(meter, a.messages) <= Tokens(meter, b.messages)
    ensures var capped, raw := Transcripts(cap, a, turns), Transcripts(Raw, b, turns);
            && Reads(meter, [a.messages] + capped) <= Reads(meter, [b.messages] + raw)
            && (turns != [] ==> Tokens(meter, capped[|turns| - 1]) <= Tokens(meter, raw[|turns| - 1]))
    decreases |turns|
  {
    hide Tokens, Extended, Shrinks;
    if turns != [] {
      var nowA, nowB := Extended(cap, a, turns[0]), Extended(Raw, b, turns[0]);
      ExtendedShrinks(meter, cap, a, b, turns[0]);
      TranscriptsShrink(meter, cap, nowA, nowB, turns[1..]);
      assert ([a.messages] + Transcripts(cap, a, turns))[1..] == [nowA.messages] + Transcripts(cap, nowA, turns[1..]);
      assert ([b.messages] + Transcripts(Raw, b, turns))[1..] == [nowB.messages] + Transcripts(Raw, nowB, turns[1..]);
    }
  }

  lemma TokensAppend(meter: Meter, a: seq<Json>, b: seq<Json>)
    ensures Tokens(meter, a + b) == Tokens(meter, a) + Tokens(meter, b)
  {
    assert Counts(meter, a + b) == Counts(meter, a) + Counts(meter, b);
    SumAppend(Counts(meter, a), Counts(meter, b));
  }

  datatype Gates = Gates(cacheWritePassed: bool, cacheReadPassed: bool, billedImproved: bool, prefixBreaksBounded: bool)

  function Compare(baseline: Totals, variant: Totals, evictionEvents: nat): (r: Gates) {
    Gates(variant.cacheWrite <= baseline.cacheWrite, variant.cacheRead <= baseline.cacheRead,
          variant.billedTokens <= baseline.billedTokens, variant.prefixBreaks <= evictionEvents)
  }

  /** A cap that never makes a message cost more passes every token gate of the
      comparison with the raw replay, whatever the workload. */
  lemma CapPassesTheGates(meter: Meter, turns: seq<seq<Json>>, cap: Cap)
    requires Shrinks(meter, cap)
    ensures var baseline := Summarize(Bills(meter, None, None, Raw, Added([], 0), turns, 0));
            var variant := Summarize(Bills(meter, None, None, cap, Added([], 0), turns, 0));
            Compare(baseline, variant, 0) == Gates(true, true, true, true)
  {
    hide Bills, Tokens, Summarize, Shrinks;
    ReplayWithoutEviction(meter, turns, cap);
    ReplayWithoutEviction(meter, turns, Raw);
    TranscriptsShrink(meter, cap, Added([], 0), Added([], 0), turns);
    if turns != [] {
      var capped, raw := Transcripts(cap, Added([], 0), turns), Transcripts(Raw, Added([], 0), turns);
      assert ([[]] + capped)[1..] == capped && ([[]] + raw)[1..] == raw;
      NothingYet(meter);
    }
  }

  lemma NothingYet(meter: Meter)
    ensures Tokens(meter, []) == 0
  {
  }
}
