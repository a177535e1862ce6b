/** The queues that hold steering and follow-up batches until the loop polls them. */
module PendingQueue {
  import opened Messages

  datatype QueueMode = All | OneAtATime

  type Batch = seq<Message>

  /** A batch together with its place in the order in which batches were queued. */
  datatype Ticket = Ticket(number: nat, batch: Batch)

  function Concat(tickets: seq<Ticket>): (ms: seq<Message>) {
    if tickets == [] then [] else tickets[0].batch + Concat(tickets[1..])
  }

  function Flat(batches: seq<Batch>): (r: seq<Message>) {
    if batches == [] then [] else batches[0] + Flat(batches[1..])
  }

  /** What a drain hands out. */
  function Head(mode: QueueMode, batches: seq<Batch>): (r: seq<Message>) {
    if mode == All then Flat(batches) else if batches == [] then [] else batches[0]
  }

  ghost predicate Ascending(tickets: seq<Ticket>) {
    forall i, j | 0 <= i < j < |tickets| :: tickets[i].number < tickets[j].number
  }

  ghost predicate Holds(tickets: seq<Ticket>, n: nat) {
    exists k :: 0 <= k < |tickets| && tickets[k].number == n
  }

  /** Every ticket carries the batch that was queued under its number. */
  ghost predicate Genuine(tickets: seq<Ticket>, issued: seq<Batch>) {
    forall k | 0 <= k < |tickets| :: tickets[k].number < |issued| && tickets[k].batch == issued[tickets[k].number]
  }

  /** The books: `drained` and `queued` are disjoint, in the order of issue, and
      with `removed` they account for every batch ever queued. */
  ghost predicate Balanced(issued: seq<Batch>, drained: seq<Ticket>, queued: seq<Ticket>, removed: set<nat>) {
    && Ascending(drained + queued)
    && Genuine(drained, issued) && Genuine(queued, issued)
    && (forall n | 0 <= n < |issued| :: Holds(drained, n) || Holds(queued, n) || n in removed)
    && (forall n :: n in removed ==> n < |issued| && !Holds(drained, n) && !Holds(queued, n))
  }

  lemma FlatCons(batch: Batch, batches: seq<Batch>)
    ensures Flat([batch] + batches) == batch + Flat(batches)
  {
    assert ([batch] + batches)[1..] == batches;
  }

  lemma {:induction false} FlatIsConcat(batches: seq<Batch>, tickets: seq<Ticket>)
    requires |batches| == |tickets|
    requires forall k | 0 <= k < |batches| :: tickets[k].batch == batches[k]
    ensures Flat(batches) == Concat(tickets)
    ensures batches != [] && batches[0] != [] ==> Concat(tickets) != []
    decreases |batches|
  {
    if batches != [] {
      FlatIsConcat(batches[1..], tickets[1..]);
    }
  }

  lemma HoldsSplit(tickets: seq<Ticket>, k: nat, n: nat)
    requires k <= |tickets|
    ensures Holds(tickets, n) <==> Holds(tickets[..k], n) || Holds(tickets[k..], n)
  {
    if i :| 0 <= i < |tickets| && tickets[i].number == n {
      if i < k {
        assert tickets[..k][i].number == n;
      } else {
        assert tickets[k..][i - k].number == n;
      }
    }
  }

  lemma HoldsAppend(a: seq<Ticket>, b: seq<Ticket>, n: nat)
    ensures Holds(a + b, n) <==> Holds(a, n) || Holds(b, n)
  {
    HoldsSplit(a + b, |a|, n);
    assert (a + b)[..|a|] == a && (a + b)[|a|..] == b;
  }

  lemma BalancedIssue(issued: seq<Batch>, drained: seq<Ticket>, queued: seq<Ticket>, removed: set<nat>, batch: Batch)
    requires Balanced(issued, drained, queued, removed)
    ensures Balanced(issued + [batch], drained, queued + [Ticket(|issued|, batch)], removed)
  {
    var t := [Ticket(|issued|, batch)];
    assert drained + (queued + t) == (drained + queued) + t;
    forall n | 0 <= n < |issued + [batch]| ensures Holds(drained, n) || Holds(queued + t, n) || n in removed {
      HoldsAppend(queued, t, n);
      assert t[0].number == |issued|;
    }
    forall n | n in removed ensures !Holds(queued + t, n) {
      HoldsAppend(queued, t, n);
    }
  }

  lemma BalancedDrain(issued: seq<Batch>, drained: seq<Ticket>, queued: seq<Ticket>, removed: set<nat>, k: nat)
    requires Balanced(issued, drained, queued, removed) && k <= |queued|
    ensures Balanced(issued, drained + queued[..k], queued[k..], removed)
  {
    assert drained + queued[..k] + queued[k..] == drained + queued;
    forall n: nat ensures Holds(drained + queued[..k], n) <==> Holds(drained, n) || Holds(queued[..k], n) {
      HoldsAppend(drained, queued[..k], n);
    }
    forall n: nat ensures Holds(queued, n) <==> Holds(queued[..k], n) || Holds(queued[k..], n) {
      HoldsSplit(queued, k, n);
    }
  }

  /** Dropping one queued ticket moves it to the removed ones. */
  lemma BalancedRemove(issued: seq<Batch>, drained: seq<Ticket>, queued: seq<Ticket>, removed: set<nat>, k: nat)
    requires Balanced(issued, drained, queued, removed) && k < |queued|
    ensures Balanced(issued, drained, queued[..k] + queued[k + 1..], removed + {queued[k].number})
  {
    var left := queued[..k] + queued[k + 1..];
    var gone := queued[k].number;
    assert forall j | 0 <= j < |left| :: left[j] == queued[if j < k then j else j + 1];
    assert forall j | 0 <= j < |drained + left| ::
        (drained + left)[j] == (drained + queued)[if j < |drained| + k then j else j + 1];
    assert (drained + queued)[|drained| + k] == queued[k];
    forall n: nat ensures Holds(left, n) <==> Holds(queued, n) && n != gone {
      if i :| 0 <= i < |queued| && queued[i].number == n && n != gone {
        assert left[if i < k then i else i - 1].number == n;
      }
      if i :| 0 <= i < |left| && left[i].number == n {
        var j := if i < k then i else i + 1;
        assert (drained + queued)[|drained| + j] == queued[j];
      }
    }
    forall j | 0 <= j < |drained| ensures drained[j].number < gone {
      assert (drained + queued)[j] == drained[j];
    }
  }

  /** So does dropping all of them. */
  lemma {:induction false} BalancedClear(issued: seq<Batch>, drained: seq<Ticket>, queued: seq<Ticket>, removed: set<nat>)
    requires Balanced(issued, drained, queued, removed)
    ensures Balanced(issued, drained, [], removed + Numbers(queued))
    decreases |queued|
  {
    hide Balanced, Numbers;
    NumbersSplit(queued, removed);
    if queued != [] {
      BalancedRemove(issued, drained, queued, removed, 0);
      assert queued[..0] + queued[1..] == queued[1..];
      BalancedClear(issued, drained, queued[1..], removed + {queued[0].number});
    }
  }

  function Numbers(tickets: seq<Ticket>): (r: set<nat>) {
    set t <- tickets :: t.number
  }

  lemma NumbersSplit(tickets: seq<Ticket>, others: set<nat>)
    ensures others + Numbers(tickets) ==
            if tickets == [] then others else others + {tickets[0].number} + Numbers(tickets[1..])
  {
    if tickets != [] {
      assert tickets == [tickets[0]] + tickets[1..];
    }
  }

  class PendingMessageQueue {
    var mode: QueueMode
    var batches: seq<Batch>
    ghost var issued: seq<Batch>
    ghost var drained: seq<Ticket>
    ghost var queued: seq<Ticket>
    ghost var removed: set<nat>

    ghost predicate Valid()
      reads this
    {
      && Balanced(issued, drained, queued, removed)
      && |queued| == |batches|
      && (forall k | 0 <= k < |batches| :: queued[k].batch == batches[k] && batches[k] != [])
    }

    constructor (mode: QueueMode)
      ensures Valid() && this.mode == mode && batches == [] && issued == [] && drained == [] && removed == {}
    {
      this.mode := mode;
      batches := [];
      issued, drained, queued, removed := [], [], [], {};
    }

    method Enqueue(batch: Batch)
      requires Valid()
      modifies this
      ensures Valid() && mode == old(mode) && drained == old(drained) && removed == old(removed)
      ensures batches == if batch == [] then old(batches) else old(batches) + [batch]
      ensures issued == if batch == [] then old(issued) else old(issued) + [batch]
    {
      if batch != [] {
        BalancedIssue(issued, drained, queued, removed, batch);
        batches := batches + [batch];
        queued := queued + [Ticket(|issued|, batch)];
        issued := issued + [batch];
      }
    }

    predicate HasItems()
      reads this
    {
      batches != []
    }

    /** Hands out the oldest batch, or all of them, and forgets them. */
    method Drain() returns (messages: seq<Message>, ghost tickets: seq<Ticket>)
      requires Valid()
      modifies this
      ensures Valid() && mode == old(mode) && issued == old(issued) && removed == old(removed)
      ensures messages == Concat(tickets) && messages == Head(mode, old(batches))
      ensures old(queued) == tickets + queued && drained == old(drained) + tickets
      ensures mode == All ==> tickets == old(queued)
      ensures mode == OneAtATime ==> |tickets| == if old(queued) == [] then 0 else 1
      ensures old(queued) != [] ==> messages != []
    {
      if mode == All {
        messages := Flat(batches);
        tickets := queued;
        FlatIsConcat(batches, queued);
        BalancedDrain(issued, drained, queued, removed, |queued|);
        assert queued[..|queued|] == queued && queued[|queued|..] == [];
        drained, queued := drained + queued, [];
        batches := [];
        return;
      }
      if batches == [] {
        messages, tickets := [], [];
        assert drained + [] == drained;
        return;
      }
      messages := batches[0];
      tickets := queued[..1];
      assert Concat(tickets) == queued[0].batch + Concat([]) == messages;
      BalancedDrain(issued, drained, queued, removed, 1);
      drained, queued := drained + queued[..1], queued[1..];
      batches := batches[1..];
    }

    method Clear()
      requires Valid()
      modifies this
      ensures Valid() && mode == old(mode) && issued == old(issued) && drained == old(drained)
      ensures batches == []
      ensures removed == old(removed) + Numbers(old(queued))
    {
      hide Balanced;
      BalancedClear(issued, drained, queued, removed);
      batches := [];
      removed := removed + Numbers(queued);
      queued := [];
    }

    /** Drops every batch that holds a message for which `doomed` is true. */
    method RemoveWhere(doomed: Message -> bool) returns (gone: seq<Message>)
      requires Valid()
      modifies this
      ensures Valid() && mode == old(mode) && issued == old(issued) && drained == old(drained)
      ensures batches == Spared(old(batches), doomed)
      ensures gone == Flat(Condemned(old(batches), doomed))
      ensures forall t <- old(queued) :: if Hit(t.batch, doomed) then t.number in removed else t in queued
    {
      hide Spared, Condemned, Flat, Balanced, Kept, GoneNumbers;
      gone := [];
      var retained := [];
      assert batches[0..] == batches;
      for i := 0 to |batches|
        invariant unchanged(this)
        invariant retained + Spared(batches[i..], doomed) == Spared(batches, doomed)
        invariant gone + Flat(Condemned(batches[i..], doomed)) == Flat(Condemned(batches, doomed))
      {
        var batch := batches[i];
        SweepStep(batches, i, doomed);
        if Hit(batch, doomed) {
          gone := gone + batch;
        } else {
          retained := retained + [batch];
        }
      }
      SweepEnd(batches, doomed);
      BalancedSweepAll(issued, drained, queued, removed, doomed);
      KeptMatches(batches, queued, doomed);
      removed, queued := removed + GoneNumbers(queued, doomed), Kept(queued, doomed);
      batches := retained;
    }
  }

  /** The tickets whose batches survive a sweep, and the numbers of the others. */
  ghost function Kept(queued: seq<Ticket>, doomed: Message -> bool): (r: seq<Ticket>) {
    if queued == [] then []
    else (if Hit(queued[0].batch, doomed) then [] else [queued[0]]) + Kept(queued[1..], doomed)
  }

  ghost function GoneNumbers(queued: seq<Ticket>, doomed: Message -> bool): (r: set<nat>) {
    if queued == [] then {}
    else (if Hit(queued[0].batch, doomed) then {queued[0].number} else {}) + GoneNumbers(queued[1..], doomed)
  }

  lemma {:induction false} KeptMatches(batches: seq<Batch>, queued: seq<Ticket>, doomed: Message -> bool)
    requires |queued| == |batches|
    requires forall k | 0 <= k < |batches| :: queued[k].batch == batches[k] && batches[k] != []
    ensures var kept, spared := Kept(queued, doomed), Spared(batches, doomed);
            && |kept| == |spared|
            && (forall k | 0 <= k < |kept| :: kept[k].batch == spared[k] && spared[k] != [])
    ensures forall t <- queued :: if Hit(t.batch, doomed) then t.number in GoneNumbers(queued, doomed) else t in Kept(queued, doomed)
    decreases |batches|
  {
    if batches != [] {
      KeptMatches(batches[1..], queued[1..], doomed);
    }
  }

  lemma {:induction false} BalancedSweep(issued: seq<Batch>, drained: seq<Ticket>, front: seq<Ticket>, rest: seq<Ticket>,
                                         removed: set<nat>, doomed: Message -> bool)
    requires Balanced(issued, drained, front + rest, removed)
    ensures Balanced(issued, drained, front + Kept(rest, doomed), removed + GoneNumbers(rest, doomed))
    decreases |rest|
  {
    hide Balanced, Kept, GoneNumbers, Hit;
    KeptOne(front, rest, doomed);
    GoneOne(rest, removed, doomed);
    if rest != [] {
      if Hit(rest[0].batch, doomed) {
        BalancedRemove(issued, drained, front + rest, removed, |front|);
        assert (front + rest)[..|front|] + (front + rest)[|front| + 1..] == front + rest[1..];
        BalancedSweep(issued, drained, front, rest[1..], removed + {rest[0].number}, doomed);
      } else {
        assert front + rest == front + [rest[0]] + rest[1..];
        BalancedSweep(issued, drained, front + [rest[0]], rest[1..], removed, doomed);
      }
    }
  }

  lemma KeptOne(front: seq<Ticket>, rest: seq<Ticket>, doomed: Message -> bool)
    ensures front + Kept(rest, doomed) ==
            if rest == [] then front + rest
            else if Hit(rest[0].batch, doomed) then front + Kept(rest[1..], doomed)
            else front + [rest[0]] + Kept(rest[1..], doomed)
  {
    hide Hit, Kept;
    KeptHead(rest, doomed);
    if rest != [] && !Hit(rest[0].batch, doomed) {
      FrontFirst(front, [rest[0]], Kept(rest[1..], doomed));
    }
  }

  lemma KeptHead(rest: seq<Ticket>, doomed: Message -> bool)
    ensures Kept(rest, doomed) ==
            if rest == [] then [] else if Hit(rest[0].batch, doomed) then Kept(rest[1..], doomed) else [rest[0]] + Kept(rest[1..], doomed)
  {
    hide Hit;
  }

  lemma FrontFirst(a: seq<Ticket>, b: seq<Ticket>, c: seq<Ticket>)
    ensures a + (b + c) == a + b + c
  {
  }

  lemma GoneOne(rest: seq<Ticket>, removed: set<nat>, doomed: Message -> bool)
    ensures removed + GoneNumbers(rest, doomed) ==
            if rest == [] then removed
            else if Hit(rest[0].batch, doomed) then removed + {rest[0].number} + GoneNumbers(rest[1..], doomed)
            else removed + GoneNumbers(rest[1..], doomed)
  {
    hide Hit, GoneNumbers;
    GoneHead(rest, doomed);
    if rest != [] {
      assert removed + ({rest[0].number} + GoneNumbers(rest[1..], doomed)) == removed + {rest[0].number} + GoneNumbers(rest[1..], doomed);
    }
  }

  lemma GoneHead(rest: seq<Ticket>, doomed: Message -> bool)
    ensures GoneNumbers(rest, doomed) ==
            if rest == [] then {}
            else if Hit(rest[0].batch, doomed) then {rest[0].number} + GoneNumbers(rest[1..], doomed)
            else GoneNumbers(rest[1..], doomed)
  {
    hide Hit;
  }

  lemma BalancedSweepAll(issued: seq<Batch>, drained: seq<Ticket>, queued: seq<Ticket>, removed: set<nat>, doomed: Message -> bool)
    requires Balanced(issued, drained, queued, removed)
    ensures Balanced(issued, drained, Kept(queued, doomed), removed + GoneNumbers(queued, doomed))
  {
    assert [] + queued == queued && [] + Kept(queued, doomed) == Kept(queued, doomed);
    BalancedSweep(issued, drained, [], queued, removed, doomed);
  }

  lemma SweepStep(batches: seq<Batch>, i: nat, doomed: Message -> bool)
    requires i < |batches|
    ensures Spared(batches[i..], doomed) == (if Hit(batches[i], doomed) then [] else [batches[i]]) + Spared(batches[i + 1..], doomed)
    ensures Flat(Condemned(batches[i..], doomed))
            == (if Hit(batches[i], doomed) then batches[i] else []) + Flat(Condemned(batches[i + 1..], doomed))
  {
    assert batches[i..][0] == batches[i] && batches[i..][1..] == batches[i + 1..];
    if Hit(batches[i], doomed) {
      FlatCons(batches[i], Condemned(batches[i + 1..], doomed));
    } else {
      assert Condemned(batches[i..], doomed) == Condemned(batches[i + 1..], doomed);
    }
  }

  lemma SweepEnd(batches: seq<Batch>, doomed: Message -> bool)
    ensures Spared(batches[|batches|..], doomed) == [] && Flat(Condemned(batches[|batches|..], doomed)) == []
  {
  }

  predicate Hit(batch: Batch, doomed: Message -> bool) {
    exists m <- batch :: doomed(m)
  }

  function Spared(batches: seq<Batch>, doomed: Message -> bool): (r: seq<Batch>) {
    if batches == [] then []
    else (if Hit(batches[0], doomed) then [] else [batches[0]]) + Spared(batches[1..], doomed)
  }

  function Condemned(batches: seq<Batch>, doomed: Message -> bool): (r: seq<Batch>) {
    if batches == [] then []
    else (if Hit(batches[0], doomed) then [batches[0]] else []) + Condemned(batches[1..], doomed)
  }
}
