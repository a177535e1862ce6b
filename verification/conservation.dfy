/** Where the batches that the host queues end up. */
module Conservation {
  import opened Messages
  import opened PendingQueue
  import opened Protocol
  import opened ProtocolLaws
  import opened AgentState

  /** `batch` stands in `transcript` from place `k` on, whole and in order. */
  predicate Stands(transcript: seq<Message>, k: nat, batch: Batch) {
    k + |batch| <= |transcript| && transcript[k..k + |batch|] == batch
  }

  /** How many messages the tickets before number `p` hold. */
  function Offset(tickets: seq<Ticket>, p: nat): (k: nat)
    requires p <= |tickets|
  {
    |Concat(tickets[..p])|
  }

  /** One of the two queues of an agent, as a run sees it: all that it had
      handed out when the run began, and how much of that before the run was asked for. */
  datatype Supply = Supply(source: Source, base: seq<Ticket>, before: nat)

  ghost predicate Supplies(agent: Agent, queue: PendingMessageQueue, supply: Supply)
    reads agent
  {
    || (queue == agent.steeringQueue && supply == Supply(Steering, agent.steeringBase, agent.steeringBefore))
    || (queue == agent.followUpQueue && supply == Supply(FollowUp, agent.followUpBase, agent.followUpBefore))
  }

  /** Where a run took a batch in: with its prompts, or by a poll. */
  datatype Intake = Prompts(p: nat) | Poll(j: nat, p: nat)

  ghost predicate TookIn(log: seq<Entry>, supply: Supply, at: Intake) {
    match at
    case Prompts(p) => supply.before <= |supply.base| && supply.before + p < |supply.base|
    case Poll(j, p) => j < |log| && log[j].Polled? && log[j].source == supply.source && p < |log[j].tickets|
  }

  ghost function TicketAt(log: seq<Entry>, supply: Supply, at: Intake): (t: Ticket)
    requires TookIn(log, supply, at)
  {
    match at
    case Prompts(p) => supply.base[supply.before + p]
    case Poll(j, p) => log[j].tickets[p]
  }

  /** The place in the transcript that belongs to an intake: prompts come right
      behind the transcript before the run, the inputs of a poll right behind
      what had been said at the poll, each batch behind the ones before it. */
  ghost function Place(s: Setup, log: seq<Entry>, supply: Supply, at: Intake): (k: nat)
    requires Unbroken(s, log) && TookIn(log, supply, at)
  {
    match at
    case Prompts(p) => |s.initial| + Offset(supply.base[supply.before..], p)
    case Poll(j, p) =>
      PrefixUnbroken(s, log, j);
      |s.initial| + |At(s, log, j).ended| + Offset(log[j].tickets, p)
  }

  // ----- Every batch is somewhere

  lemma {:induction false} TakenByAPoll(log: seq<Entry>, source: Source, n: nat) returns (j: nat, p: nat)
    requires Holds(Taken(log, source), n)
    ensures j < |log| && log[j].Polled? && log[j].source == source
    ensures p < |log[j].tickets| && log[j].tickets[p].number == n && log[j].tickets[p] in Taken(log, source)
    decreases |log|
  {
    var last := log[|log| - 1];
    var earlier := Taken(log[..|log| - 1], source);
    if last.Polled? && last.source == source {
      HoldsAppend(earlier, last.tickets, n);
      if Holds(last.tickets, n) {
        j := |log| - 1;
        p :| 0 <= p < |last.tickets| && last.tickets[p].number == n;
        assert (earlier + last.tickets)[|earlier| + p] == last.tickets[p];
        return;
      }
    } else {
      assert Taken(log, source) == earlier;
    }
    j, p := TakenByAPoll(log[..|log| - 1], source, n);
  }

  lemma {:induction false} ConcatAppend(a: seq<Ticket>, b: seq<Ticket>)
    ensures Concat(a + b) == Concat(a) + Concat(b)
    decreases |a|
  {
    if a == [] {
      assert a + b == b;
    } else {
      assert (a + b)[1..] == a[1..] + b;
      ConcatAppend(a[1..], b);
    }
  }

  /** Each ticket's batch stands in the joined ones behind those before it. */
  lemma BatchInConcat(tickets: seq<Ticket>, p: nat)
    requires p < |tickets|
    ensures Stands(Concat(tickets), Offset(tickets, p), tickets[p].batch)
    ensures Offset(tickets, p + 1) == Offset(tickets, p) + |tickets[p].batch|
  {
    hide Concat;
    var one := [tickets[p]];
    ConcatOne(tickets[p]);
    assert tickets[..p + 1] == tickets[..p] + one && tickets == tickets[..p + 1] + tickets[p + 1..];
    ConcatAppend(tickets[..p], one);
    ConcatAppend(tickets[..p + 1], tickets[p + 1..]);
    Middle(Concat(tickets[..p]), tickets[p].batch, Concat(tickets[p + 1..]));
  }

  lemma ConcatOne(t: Ticket)
    ensures Concat([t]) == t.batch
  {
    var one := [t];
    assert one[1..] == [];
  }

  lemma Middle(a: seq<Message>, b: Batch, c: seq<Message>)
    ensures Stands((a + b) + c, |a|, b)
  {
    assert ((a + b) + c)[|a|..|a| + |b|] == b;
  }

  lemma OffsetsGrow(tickets: seq<Ticket>, p: nat, q: nat)
    requires p <= q <= |tickets|
    ensures Offset(tickets, p) <= Offset(tickets, q) <= |Concat(tickets)|
  {
    assert tickets[..q] == tickets[..p] + tickets[p..q] && tickets == tickets[..q] + tickets[q..];
    ConcatAppend(tickets[..p], tickets[p..q]);
    ConcatAppend(tickets[..q], tickets[q..]);
  }

  /** After a run that the loop ended without an abort, every batch ever queued
      is still queued, was taken back by the host, had been handed out before
      the run was asked for, or was taken in by the run, as one of its prompts
      or by a poll, and stands in the transcript at the place of that intake,
      whole and in order. */
  lemma EveryBatchIsAccountedFor(agent: Agent, queue: PendingMessageQueue, supply: Supply, n: nat)
    requires agent.Valid() && agent.watch.Watch? && agent.watch.stage.Over?
    requires agent.log != [] && !agent.log[|agent.log| - 1].aborted
    requires Supplies(agent, queue, supply) && n < |queue.issued|
    ensures n in queue.removed || Holds(queue.queued, n) || Holds(supply.base[..supply.before], n)
            || exists at: Intake ::
                 && TookIn(agent.log, supply, at) && TicketAt(agent.log, supply, at) == Ticket(n, queue.issued[n])
                 && Stands(agent.messages, Place(agent.setup, agent.log, supply, at), queue.issued[n])
  {
    hide Observe, Next, Place, Stands, Concat, Taken, Mirrors, Ends;
    if n !in queue.removed && !Holds(queue.queued, n) && !Holds(supply.base[..supply.before], n) {
      assert Holds(queue.drained, n);
      var at := TakenInSomewhere(queue, agent.log, supply, n);
      if at.Prompts? {
        PromptStands(agent, queue, supply, at.p);
      } else {
        PolledStands(agent, supply, at.j, at.p);
      }
    }
  }

  lemma TakenInSomewhere(queue: PendingMessageQueue, log: seq<Entry>, supply: Supply, n: nat) returns (at: Intake)
    requires queue.Valid() && queue.drained == supply.base + Taken(log, supply.source) && supply.before <= |supply.base|
    requires n < |queue.issued| && Holds(queue.drained, n) && !Holds(supply.base[..supply.before], n)
    ensures TookIn(log, supply, at) && TicketAt(log, supply, at) == Ticket(n, queue.issued[n])
  {
    hide Taken;
    var taken, base := Taken(log, supply.source), supply.base;
    HoldsAppend(base, taken, n);
    if Holds(base, n) {
      at := AmongPrompts(base, supply.before, n);
      var t := base[supply.before + at.p];
      assert queue.drained[supply.before + at.p] == t;
    } else {
      var j, p := TakenByAPoll(log, supply.source, n);
      TicketIsGenuine(queue, base, taken, log[j].tickets[p]);
      at := Poll(j, p);
    }
  }

  lemma AmongPrompts(base: seq<Ticket>, before: nat, n: nat) returns (at: Intake)
    requires before <= |base| && Holds(base, n) && !Holds(base[..before], n)
    ensures at.Prompts? && before + at.p < |base| && base[before + at.p].number == n
  {
    HoldsSplit(base, before, n);
    var p :| 0 <= p < |base[before..]| && base[before..][p].number == n;
    at := Prompts(p);
  }

  lemma TicketIsGenuine(queue: PendingMessageQueue, base: seq<Ticket>, taken: seq<Ticket>, t: Ticket)
    requires queue.Valid() && queue.drained == base + taken && t in taken
    ensures t.number < |queue.issued| && t.batch == queue.issued[t.number]
  {
    var i :| 0 <= i < |taken| && taken[i] == t;
    assert queue.drained[|base| + i] == t;
  }

  lemma PromptStands(agent: Agent, queue: PendingMessageQueue, supply: Supply, p: nat)
    requires agent.Valid() && agent.watch.Watch? && agent.watch.stage.Over?
    requires agent.log != [] && !agent.log[|agent.log| - 1].aborted
    requires Supplies(agent, queue, supply) && TookIn(agent.log, supply, Prompts(p))
    ensures Stands(agent.messages, Place(agent.setup, agent.log, supply, Prompts(p)), supply.base[supply.before + p].batch)
  {
    hide Observe, Next, Concat, Offset, Taken, Ends, Told, Balanced, CurrentCalls, DistinctIds;
    var s, log := agent.setup, agent.log;
    var tickets := supply.base[supply.before..];
    RunHasItsShape(s, log);
    var last := |log| - 1;
    NothingWaits(s, log, last);
    PromptsDelivered(s, log, last);
    EndedGrows(s, log, last, |log|);
    assert log[..|log|] == log;
    BatchInConcat(tickets, p);
    WithinTranscript(s.initial, [], Concat(tickets), At(s, log, last).ended, agent.watch.ended, Offset(tickets, p), tickets[p].batch);
  }

  /** A run that ends without an abort has nothing waiting. */
  lemma NothingWaits(s: Setup, log: seq<Entry>, k: nat)
    requires Unbroken(s, log) && k < |log| && log[k].Emitted? && log[k].event.AgentEnd? && !log[k].aborted
    ensures At(s, log, k).Watch? && At(s, log, k).waiting == []
  {
    PrefixUnbroken(s, log, k);
    PrefixUnbroken(s, log, k + 1);
    AtNext(s, log, k);
  }

  lemma PolledStands(agent: Agent, supply: Supply, j: nat, p: nat)
    requires agent.Valid() && agent.watch.Watch? && agent.watch.stage.Over?
    requires agent.log != [] && !agent.log[|agent.log| - 1].aborted
    requires TookIn(agent.log, supply, Poll(j, p))
    ensures Stands(agent.messages, Place(agent.setup, agent.log, supply, Poll(j, p)), agent.log[j].tickets[p].batch)
  {
    hide Observe, Next, Concat, Offset;
    var s, log := agent.setup, agent.log;
    RunHasItsShape(s, log);
    var last := |log| - 1;
    NothingLeftBehind(s, log, j, last);
    TranscriptsAgree(s, log, last);
    EndedGrows(s, log, last, |log|);
    assert log[..|log|] == log;
    BatchInConcat(log[j].tickets, p);
    WithinTranscript(s.initial, At(s, log, j).ended, Concat(log[j].tickets), At(s, log, last).ended, agent.watch.ended,
                     Offset(log[j].tickets, p), log[j].tickets[p].batch);
  }

  lemma WithinTranscript(initial: seq<Message>, said: seq<Message>, batch: seq<Message>, later: seq<Message>, end: seq<Message>,
                         offset: nat, part: Batch)
    requires said + batch <= later <= end && Stands(batch, offset, part)
    ensures Stands(initial + end, |initial| + |said| + offset, part)
  {
    var k := |initial| + |said| + offset;
    forall i | 0 <= i < |part| ensures (initial + end)[k + i] == part[i] {
      assert (initial + end)[k + i] == end[|said| + offset + i] == (said + batch)[|said| + offset + i] == batch[offset + i];
      assert batch[offset..offset + |part|][i] == batch[offset + i];
    }
  }

  // ----- Once each, first in first out

  /** One intake comes before another: prompts before polls, polls in the order
      in which they were made, and batches in the order in which they were handed out. */
  predicate Earlier(a: Intake, b: Intake) {
    match (a, b)
    case (Prompts(p), Prompts(q)) => p < q
    case (Prompts(_), Poll(_, _)) => true
    case (Poll(_, _), Prompts(_)) => false
    case (Poll(i, p), Poll(j, q)) => i < j || (i == j && p < q)
  }

  /** Earlier intakes, of one queue or of both, have earlier places, and the places do not overlap. */
  lemma PlacesInOrder(agent: Agent, queue: PendingMessageQueue, one: Supply, two: Supply, a: Intake, b: Intake)
    requires agent.Valid() && agent.watch.Watch?
    requires Supplies(agent, queue, one) && TookIn(agent.log, one, a) && TookIn(agent.log, two, b)
    requires Earlier(a, b) && (b.Prompts? ==> one == two)
    ensures var s, log := agent.setup, agent.log;
            Place(s, log, one, a) + |TicketAt(log, one, a).batch| <= Place(s, log, two, b)
  {
    hide Observe, Next, Concat, Offset, Mirrors, Taken, Balanced;
    var s, log := agent.setup, agent.log;
    match (a, b) {
      case (Prompts(p), Prompts(q)) =>
        BatchInConcat(one.base[one.before..], p);
        OffsetsGrow(one.base[one.before..], p + 1, q);
      case (Prompts(p), Poll(j, q)) =>
        BatchInConcat(one.base[one.before..], p);
        OffsetsGrow(one.base[one.before..], p + 1, |one.base| - one.before);
        PromptsBeforePolls(s, log, j);
      case (Poll(i, p), Poll(j, q)) =>
        BatchInConcat(log[i].tickets, p);
        if i == j {
          OffsetsGrow(log[i].tickets, p + 1, q);
        } else {
          OffsetsGrow(log[i].tickets, p + 1, |log[i].tickets|);
          PollsInOrder(s, log, i, j);
        }
    }
  }

  lemma PromptsBeforePolls(s: Setup, log: seq<Entry>, j: nat)
    requires Unbroken(s, log) && j < |log| && log[j].Polled?
    ensures At(s, log, j).Watch? && |s.prompts| <= |At(s, log, j).ended|
  {
    PromptsDelivered(s, log, j);
    PrefixUnbroken(s, log, j + 1);
    AtNext(s, log, j);
    PollTakes(s, At(s, log, j), log[j]);
  }

  /** Where a poll's tickets stand among all that the polls of a source took. */
  lemma {:induction false} TakenPlace(log: seq<Entry>, source: Source, k: nat)
    requires k < |log| && log[k].Polled? && log[k].source == source
    ensures Taken(log[..k], source) + log[k].tickets <= Taken(log, source)
    decreases |log|
  {
    var n := |log| - 1;
    var earlier := log[..n];
    if k < n {
      TakenPlace(earlier, source, k);
      assert earlier[..k] == log[..k];
    }
  }

  /** The number of an intake's ticket among all that its queue has handed out. */
  ghost function Rank(log: seq<Entry>, supply: Supply, at: Intake): (r: nat)
    requires TookIn(log, supply, at)
  {
    match at
    case Prompts(p) => supply.before + p
    case Poll(j, p) => |supply.base| + |Taken(log[..j], supply.source)| + p
  }

  lemma RankIs(log: seq<Entry>, supply: Supply, at: Intake)
    requires TookIn(log, supply, at)
    ensures var all := supply.base + Taken(log, supply.source);
            Rank(log, supply, at) < |all| && all[Rank(log, supply, at)] == TicketAt(log, supply, at)
  {
    hide Taken;
    if at.Poll? {
      TakenPlace(log, supply.source, at.j);
      Within(Taken(log[..at.j], supply.source), log[at.j].tickets, Taken(log, supply.source), at.p);
    }
  }

  lemma Within(before: seq<Ticket>, now: seq<Ticket>, all: seq<Ticket>, p: nat)
    requires before + now <= all && p < |now|
    ensures |before| + p < |all| && all[|before| + p] == now[p]
  {
    assert (before + now)[|before| + p] == now[p];
  }

  lemma RanksFollow(log: seq<Entry>, supply: Supply, a: Intake, b: Intake)
    requires TookIn(log, supply, a) && TookIn(log, supply, b) && Earlier(a, b)
    ensures Rank(log, supply, a) < Rank(log, supply, b)
  {
    if a.Poll? && a.j < b.j {
      assert log[..b.j][a.j] == log[a.j] && log[..b.j][..a.j] == log[..a.j];
      TakenPlace(log[..b.j], supply.source, a.j);
    }
  }

  /** A batch is taken in at most once, and batches of one queue are taken in,
      and stand in the transcript, in the order in which they were queued. */
  lemma FirstInFirstOut(agent: Agent, queue: PendingMessageQueue, supply: Supply, a: Intake, b: Intake)
    requires agent.Valid() && agent.watch.Watch? && Supplies(agent, queue, supply)
    requires TookIn(agent.log, supply, a) && TookIn(agent.log, supply, b)
    ensures var s, log := agent.setup, agent.log;
            var t, u := TicketAt(log, supply, a), TicketAt(log, supply, b);
            && (t.number == u.number <==> a == b)
            && (t.number < u.number <==> Earlier(a, b))
            && (t.number < u.number ==> Place(s, log, supply, a) + |t.batch| <= Place(s, log, supply, b))
  {
    hide Observe, Next, Place, Mirrors, Taken, Rank;
    var log := agent.log;
    RankIs(log, supply, a);
    RankIs(log, supply, b);
    assert queue.drained == supply.base + Taken(log, supply.source);
    var i, j := Rank(log, supply, a), Rank(log, supply, b);
    assert queue.drained[i] == (queue.drained + queue.queued)[i] && queue.drained[j] == (queue.drained + queue.queued)[j];
    if Earlier(a, b) {
      RanksFollow(log, supply, a, b);
      PlacesInOrder(agent, queue, supply, supply, a, b);
    } else if Earlier(b, a) {
      RanksFollow(log, supply, b, a);
    }
  }
}
