/** What an unbroken log says about a whole run. Each law holds of every log,
    and so of every run, that the monitor has read without breaking. */
module ProtocolLaws {
  import opened Messages
  import opened PendingQueue
  import opened Protocol

  ghost predicate Unbroken(s: Setup, log: seq<Entry>) {
    Observe(s, log).Watch?
  }

  /** The monitor after the first `k` entries. */
  ghost function At(s: Setup, log: seq<Entry>, k: nat): (r: Watch)
    requires k <= |log|
  {
    Observe(s, log[..k])
  }

  lemma AtNext(s: Setup, log: seq<Entry>, k: nat)
    requires k < |log|
    ensures At(s, log, k + 1) == Next(s, At(s, log, k), log[k])
  {
    assert log[..k + 1] == log[..k] + [log[k]];
    ObserveAppend(s, log[..k], log[k]);
  }

  lemma {:induction false} PrefixUnbroken(s: Setup, log: seq<Entry>, k: nat)
    requires Unbroken(s, log) && k <= |log|
    ensures At(s, log, k).Watch?
    decreases |log| - k
  {
    if k == |log| {
      assert log[..k] == log;
    } else {
      PrefixUnbroken(s, log, k + 1);
      AtNext(s, log, k);
    }
  }

  /** Messages once ended stay where they are; what was settled stays settled. */
  lemma {:induction false} EndedGrows(s: Setup, log: seq<Entry>, j: nat, k: nat)
    requires Unbroken(s, log) && j <= k <= |log|
    ensures At(s, log, j).Watch? && At(s, log, k).Watch?
    ensures At(s, log, j).ended <= At(s, log, k).ended
    decreases k
  {
    hide Next;
    PrefixUnbroken(s, log, j);
    PrefixUnbroken(s, log, k);
    if j < k {
      EndedGrows(s, log, j, k - 1);
      AtNext(s, log, k - 1);
      NextMoves(s, At(s, log, k - 1), log[k - 1]);
    }
  }

  /** What one entry can do to the books of a run. */
  ghost predicate Moves(s: Setup, w: Watch, e: Entry, w': Watch)
    requires w.Watch? && w'.Watch?
  {
    && w.ended <= w'.ended
    && (w.unanswered ==> w'.unanswered)
    && (!e.Called? ==> (w.steered ==> w'.steered))
    && (!e.Called? ==> w'.reflexes == w.reflexes + (if e.Emitted? && e.event.Reflex? then 1 else 0))
    && (e.Emitted? && e.event.Reflex? ==> w'.reflexes <= s.maxReflexes)
    && (w.waiting != [] ==> w'.ended + w'.waiting == w.ended + w.waiting)
  }

  lemma MessageMoves(s: Setup, w: Watch, e: Event, context: seq<Message>, aborted: bool)
    requires w.Watch? && OnMessage(w, e).Watch?
    ensures Moves(s, w, Emitted(e, context, aborted), OnMessage(w, e))
  {
  }

  lemma ToolMoves(s: Setup, w: Watch, e: Event, context: seq<Message>, aborted: bool)
    requires w.Watch? && OnTool(w, e).Watch?
    ensures Moves(s, w, Emitted(e, context, aborted), OnTool(w, e))
  {
    hide CurrentCalls;
  }

  lemma TurnMoves(s: Setup, w: Watch, e: Event, context: seq<Message>, aborted: bool)
    requires w.Watch? && e.TurnEnd?
    requires OnTurnEnd(s, w, e.message, e.toolResults, context, aborted).Watch?
    ensures Moves(s, w, Emitted(e, context, aborted), OnTurnEnd(s, w, e.message, e.toolResults, context, aborted))
  {
    hide Answers, CallsOf;
  }

  lemma EventMoves(s: Setup, w: Watch, e: Event, context: seq<Message>, aborted: bool)
    requires w.Watch? && OnEvent(s, w, e, context, aborted).Watch?
    ensures Moves(s, w, Emitted(e, context, aborted), OnEvent(s, w, e, context, aborted))
  {
    hide OnMessage, OnTool, OnTurnEnd, MayEnd, Moves;
    match e
    case MessageStart(_) => MessageMoves(s, w, e, context, aborted);
    case MessageUpdate(_) => MessageMoves(s, w, e, context, aborted);
    case MessageEnd(_) => MessageMoves(s, w, e, context, aborted);
    case ToolStart(_) => ToolMoves(s, w, e, context, aborted);
    case ToolUpdate(_, _) => ToolMoves(s, w, e, context, aborted);
    case ToolEnd(_) => ToolMoves(s, w, e, context, aborted);
    case TurnEnd(_, _) => TurnMoves(s, w, e, context, aborted);
    case _ => RestMoves(s, w, e, context, aborted);
  }

  lemma RestMoves(s: Setup, w: Watch, e: Event, context: seq<Message>, aborted: bool)
    requires w.Watch? && OnEvent(s, w, e, context, aborted).Watch?
    requires e.AgentStart? || e.AgentEnd? || e.TurnStart? || e.Reflex?
    ensures Moves(s, w, Emitted(e, context, aborted), OnEvent(s, w, e, context, aborted))
  {
    hide OnMessage, OnTool, OnTurnEnd, MayEnd;
  }

  lemma NextMoves(s: Setup, w: Watch, e: Entry)
    requires w.Watch? && Next(s, w, e).Watch?
    ensures Moves(s, w, e, Next(s, w, e))
  {
    hide OnEvent, OnCalled, OnPolled, OnAsked, OnAwaited, OnRouted, Moves;
    match e
    case Emitted(event, context, aborted) => EventMoves(s, w, event, context, aborted);
    case Called(_) => CalledMoves(s, w, e);
    case Polled(_, _, _) => PolledMoves(s, w, e);
    case _ => QuietKeeps(s, w, e); KeptMoves(s, w, e, Next(s, w, e));
  }

  lemma CalledMoves(s: Setup, w: Watch, e: Entry)
    requires w.Watch? && e.Called? && OnCalled(s, w, e.context).Watch?
    ensures Moves(s, w, e, OnCalled(s, w, e.context))
  {
    hide ToRoute;
  }

  lemma PolledMoves(s: Setup, w: Watch, e: Entry)
    requires w.Watch? && e.Polled? && OnPolled(w, e.source, e.mode, e.tickets).Watch?
    ensures Moves(s, w, e, OnPolled(w, e.source, e.mode, e.tickets))
  {
    hide Concat, Due, AfterPoll;
  }

  /** Entries about what the run is waiting for and is told: only what it owes and what becomes of it changes. */
  predicate Quiet(e: Entry) {
    e.Asked? || e.Awaited? || e.Routed? || e.Yielded?
  }

  ghost predicate Kept(w: Watch, w': Watch) {
    && w.Watch? && w'.Watch?
    && w'.stage == w.stage && w'.open == w.open && w'.running == w.running && w'.waiting == w.waiting && w'.ended == w.ended
    && w'.settled == w.settled && w'.turns == w.turns && w'.reflexes == w.reflexes && w'.live == w.live
    && w'.unanswered == w.unanswered && w'.steered == w.steered && w'.spoke == w.spoke && w'.consulted == w.consulted
    && w'.fed == w.fed && w'.some == w.some && w'.reluctant == w.reluctant
  }

  lemma KeptMoves(s: Setup, w: Watch, e: Entry, w': Watch)
    requires Quiet(e) && Kept(w, w')
    ensures Moves(s, w, e, w')
  {
  }

  lemma QuietKeeps(s: Setup, w: Watch, e: Entry)
    requires w.Watch? && Quiet(e) && Next(s, w, e).Watch?
    ensures Kept(w, Next(s, w, e))
  {
    hide OnAsked, OnAwaited, OnRouted, Kept, Fated;
    match e
    case Asked(hook, stop, aborted) => AskedKeeps(w, hook, stop, aborted);
    case Awaited(what, how, aborted) => AwaitedKeeps(w, what, how, aborted);
    case Routed(choice) => RoutedKeeps(s, w, choice);
    case Yielded => FatedKeeps(w, Halted);
  }

  lemma AskedKeeps(w: Watch, hook: Hook, stop: bool, aborted: bool)
    requires w.Watch? && OnAsked(w, hook, stop, aborted).Watch?
    ensures Kept(w, OnAsked(w, hook, stop, aborted))
  {
    hide DueHook, AfterAsking;
  }

  lemma AwaitedKeeps(w: Watch, what: Await, how: Settling, aborted: bool)
    requires w.Watch?
    ensures Kept(w, OnAwaited(w, what, how, aborted))
  {
    hide Uncaught, Fated, Owing, Sliced, Kept;
    FatedKeeps(w, Halted);
    FatedKeeps(w, Failing);
    OwingKeeps(w, CutShort);
    SlicedKeeps(w);
    KeptSelf(w);
  }

  lemma KeptSelf(w: Watch)
    requires w.Watch?
    ensures Kept(w, w)
  {
  }

  lemma RoutedKeeps(s: Setup, w: Watch, choice: Option<ToolCall>)
    requires w.Watch? && OnRouted(s, w, choice).Watch?
    ensures Kept(w, OnRouted(s, w, choice))
  {
    hide ToRoute, MayBegin;
  }

  lemma FatedKeeps(w: Watch, fate: Fate)
    requires w.Watch?
    ensures Kept(w, Fated(w, fate))
  {
  }

  lemma SlicedKeeps(w: Watch)
    requires w.Watch?
    ensures Kept(w, Sliced(w))
  {
  }

  lemma OwingKeeps(w: Watch, duty: Duty)
    requires w.Watch?
    ensures Kept(w, Owing(w, duty))
  {
  }

  // ----- The shape of a run

  function TurnStarts(log: seq<Entry>): (r: nat) {
    if log == [] then 0
    else
      var e := log[|log| - 1];
      TurnStarts(log[..|log| - 1]) + (if e.Emitted? && e.event.TurnStart? then 1 else 0)
  }

  function TurnEnds(log: seq<Entry>): (r: nat) {
    if log == [] then 0
    else
      var e := log[|log| - 1];
      TurnEnds(log[..|log| - 1]) + (if e.Emitted? && e.event.TurnEnd? then 1 else 0)
  }

  lemma NextStage(s: Setup, w: Watch, e: Entry)
    requires w.Watch? && Next(s, w, e).Watch?
    ensures var w' := Next(s, w, e);
            && (w.stage.Fresh? <==> e.Emitted? && e.event.AgentStart?)
            && (w'.stage.Over? <==> e.Emitted? && e.event.AgentEnd?)
            && !w.stage.Over? && !w'.stage.Fresh?
            && (e.Emitted? && e.event.TurnStart? ==> w.stage.Idle? && w'.stage.InTurn?)
            && (e.Emitted? && e.event.TurnEnd? ==> w.stage.InTurn? && w'.stage.Idle?)
            && (e.Emitted? && (e.event.AgentStart? || e.event.AgentEnd?) ==> !w.stage.InTurn? && !w'.stage.InTurn?)
            && (!(e.Emitted? && (e.event.TurnStart? || e.event.TurnEnd? || e.event.AgentStart? || e.event.AgentEnd?)) ==> w'.stage == w.stage)
  {
    hide OnMessage, OnTool, OnTurnEnd, OnTurnStart, OnReflex, MayEnd, OnCalled, OnPolled, OnAsked, OnAwaited, OnRouted, Fated;
    if e.Emitted? {
      match e.event
      case TurnEnd(m, results) => TurnEndStage(s, w, m, results, e.context, e.aborted);
      case AgentStart =>
      case AgentEnd(_) =>
      case TurnStart => TurnStartStage(s, w, e.aborted);
      case Reflex(name, index, consecutive) => ReflexStage(s, w, name, index, consecutive);
      case _ => InnerStage(w, e.event);
    } else if e.Called? {
      CalledStage(s, w, e.context);
    } else if e.Polled? {
      PolledStage(w, e.source, e.mode, e.tickets);
    } else {
      QuietKeeps(s, w, e);
      QuietStage(s, w, e);
    }
  }

  lemma TurnStartStage(s: Setup, w: Watch, aborted: bool)
    requires w.Watch? && OnTurnStart(s, w, aborted).Watch?
    ensures w.stage.Idle? && OnTurnStart(s, w, aborted).stage.InTurn?
  {
    hide MayBegin;
  }

  lemma ReflexStage(s: Setup, w: Watch, name: string, index: nat, consecutive: nat)
    requires w.Watch? && OnReflex(s, w, name, index, consecutive).Watch?
    ensures (w.stage.Idle? || w.stage.InTurn?) && OnReflex(s, w, name, index, consecutive).stage == w.stage
  {
    hide MayBegin;
  }

  lemma CalledStage(s: Setup, w: Watch, context: seq<Message>)
    requires w.Watch? && OnCalled(s, w, context).Watch?
    ensures w.stage.InTurn? && OnCalled(s, w, context).stage.InTurn?
  {
    hide ToRoute;
  }

  lemma PolledStage(w: Watch, source: Source, mode: QueueMode, tickets: seq<Ticket>)
    requires w.Watch? && OnPolled(w, source, mode, tickets).Watch?
    ensures (w.stage.Idle? || w.stage.InTurn?) && OnPolled(w, source, mode, tickets).stage == w.stage
  {
    hide Concat, Due, AfterPoll;
  }

  lemma QuietStage(s: Setup, w: Watch, e: Entry)
    requires w.Watch? && Quiet(e) && Next(s, w, e).Watch?
    ensures w.stage.Idle? || w.stage.InTurn?
  {
    hide DueHook, AfterAsking, Fated, OnAwaited, ToRoute, MayBegin;
  }

  lemma TurnEndStage(s: Setup, w: Watch, m: Message, results: seq<Message>, context: seq<Message>, aborted: bool)
    requires w.Watch? && OnTurnEnd(s, w, m, results, context, aborted).Watch?
    ensures w.stage.InTurn? && OnTurnEnd(s, w, m, results, context, aborted).stage.Idle?
  {
    hide Answers, CallsOf;
  }

  /** Messages and tool calls have their events inside turns. */
  lemma InnerStage(w: Watch, e: Event)
    requires w.Watch?
    ensures OnMessage(w, e).Watch? ==> w.stage.InTurn? && OnMessage(w, e).stage.InTurn?
    ensures OnTool(w, e).Watch? ==> w.stage.InTurn? && OnTool(w, e).stage.InTurn?
  {
    hide OnMessage, OnTool;
    MessageStage(w, e);
    ToolStage(w, e);
  }

  lemma MessageStage(w: Watch, e: Event)
    requires w.Watch?
    ensures OnMessage(w, e).Watch? ==> w.stage.InTurn? && OnMessage(w, e).stage.InTurn?
  {
    hide MaySpeak, OnMessageEnd;
    if e.MessageEnd? {
      MessageEndStage(w, e.message);
    }
  }

  lemma MessageEndStage(w: Watch, m: Message)
    requires w.Watch?
    ensures OnMessageEnd(w, m).Watch? ==> w.stage.InTurn? && OnMessageEnd(w, m).stage.InTurn?
  {
    hide MaySpeak, Said, TookIn;
    SaidStage(w, m);
    if w.waiting != [] {
      TookInStage(w, m);
    }
  }

  lemma SaidStage(w: Watch, m: Message)
    requires w.Watch?
    ensures Said(w, m).Watch? && Said(w, m).stage == w.stage
  {
  }

  lemma TookInStage(w: Watch, m: Message)
    requires w.Watch? && w.waiting != []
    ensures TookIn(w, m).stage == w.stage
  {
  }

  lemma ToolStage(w: Watch, e: Event)
    requires w.Watch?
    ensures OnTool(w, e).Watch? ==> w.stage.InTurn? && OnTool(w, e).stage.InTurn?
  {
    hide CurrentCalls, DistinctIds, Busy;
    if e.ToolStart? {
      BusyStage(w, w.running + multiset{e.call.id}, w.some, w.reluctant);
    } else if e.ToolEnd? {
      BusyStage(w, w.running - multiset{e.finalized.call.id}, true, w.reluctant || e.finalized.result.terminate != Some(true));
    }
  }

  lemma BusyStage(w: Watch, running: multiset<string>, some: bool, reluctant: bool)
    requires w.Watch?
    ensures Busy(w, running, some, reluctant).Watch? && Busy(w, running, some, reluctant).stage == w.stage
  {
  }

  /** A run starts with its start event and has no other; its end, if announced,
      is the last entry; and turns are opened and closed in strict alternation,
      with the run's end outside of them. */
  lemma {:induction false} RunHasItsShape(s: Setup, log: seq<Entry>)
    requires Unbroken(s, log)
    ensures var w := Observe(s, log);
            && TurnStarts(log) == TurnEnds(log) + (if w.stage.InTurn? then 1 else 0)
            && (w.stage.Fresh? <==> log == [])
            && (w.stage.Over? <==> log != [] && log[|log| - 1].Emitted? && log[|log| - 1].event.AgentEnd?)
            && (forall k | 0 <= k < |log| :: log[k].Emitted? && log[k].event.AgentStart? <==> k == 0)
            && (forall k | 0 <= k < |log| - 1 :: !(log[k].Emitted? && log[k].event.AgentEnd?))
    decreases |log|
  {
    hide Next, Opening;
    if log == [] {
      OpeningFresh(s);
    } else {
      var n := |log| - 1;
      PrefixUnbroken(s, log, n);
      RunHasItsShape(s, log[..n]);
      NextStage(s, Observe(s, log[..n]), log[n]);
      assert forall k | 0 <= k < n :: log[k] == log[..n][k];
    }
  }

  lemma OpeningFresh(s: Setup)
    ensures Opening(s).stage.Fresh? && Opening(s).ended == [] && Opening(s).reflexes == 0
  {
  }

  /** Messages and tools speak only inside turns. */
  lemma SpeechInTurns(s: Setup, log: seq<Entry>, k: nat)
    requires Unbroken(s, log) && k < |log| && log[k].Emitted?
    requires var e := log[k].event;
             e.MessageStart? || e.MessageUpdate? || e.MessageEnd? || e.ToolStart? || e.ToolUpdate? || e.ToolEnd?
    ensures At(s, log, k).Watch? && At(s, log, k).stage.InTurn?
    ensures TurnStarts(log[..k]) == TurnEnds(log[..k]) + 1
  {
    hide Observe, Next;
    PrefixUnbroken(s, log, k);
    PrefixUnbroken(s, log, k + 1);
    AtNext(s, log, k);
    EntrySpeaks(s, At(s, log, k), log[k]);
    RunHasItsShape(s, log[..k]);
  }

  lemma EntrySpeaks(s: Setup, w: Watch, e: Entry)
    requires w.Watch? && Next(s, w, e).Watch? && e.Emitted?
    requires !e.event.AgentStart? && !e.event.AgentEnd? && !e.event.TurnStart? && !e.event.TurnEnd? && !e.event.Reflex?
    ensures w.stage.InTurn?
  {
    hide OnMessage, OnTool;
    InnerStage(w, e.event);
  }

  // ----- What the provider sees

  /** Whenever the provider is called, every turn that ended before stands in the
      context it sees: its message, immediately followed by results that answer
      all the message's tool calls, one by one and in order. */
  lemma ProviderSeesAnswers(s: Setup, log: seq<Entry>, j: nat, i: nat)
    requires Unbroken(s, log) && j < i < |log|
    requires log[i].Called? && log[j].Emitted? && log[j].event.TurnEnd?
    ensures At(s, log, j).Watch?
    ensures var TurnEnd(m, results) := log[j].event;
            var k := |s.initial| + At(s, log, j).settled;
            && Answers(results, CallsOf(m))
            && k + 1 + |results| <= |log[i].context|
            && log[i].context[k..k + 1 + |results|] == [m] + results
  {
    hide Observe, Next, Answers, CallsOf;
    PrefixUnbroken(s, log, j);
    PrefixUnbroken(s, log, i);
    PrefixUnbroken(s, log, j + 1);
    PrefixUnbroken(s, log, i + 1);
    AtNext(s, log, j);
    AtNext(s, log, i);
    EndedGrows(s, log, j, i);
    var TurnEnd(m, results) := log[j].event;
    EntryEndsTurn(s, At(s, log, j), log[j]);
    EntryCalls(s, At(s, log, i), log[i]);
    if !Answers(results, CallsOf(m)) {
      UnansweredStays(s, log, j + 1, i);
    }
    SliceOf(s.initial, At(s, log, j).ended, At(s, log, i).ended, At(s, log, j).settled);
  }

  lemma SliceOf(initial: seq<Message>, early: seq<Message>, late: seq<Message>, from: nat)
    requires early <= late && from <= |early|
    ensures (initial + late)[|initial| + from..|initial| + |early|] == early[from..]
  {
    assert late[..|early|] == early;
    assert (initial + late)[|initial| + from..|initial| + |early|] == late[from..|early|];
  }

  /** What an accepted turn end says. */
  lemma EntryEndsTurn(s: Setup, w: Watch, e: Entry)
    requires w.Watch? && Next(s, w, e).Watch? && e.Emitted? && e.event.TurnEnd?
    ensures var TurnEnd(m, results) := e.event;
            && w.settled < |w.ended| && w.ended[w.settled..] == [m] + results && |w.ended| == w.settled + 1 + |results|
            && (!Answers(results, CallsOf(m)) ==> Next(s, w, e).unanswered)
            && Next(s, w, e).ended == w.ended && Next(s, w, e).settled == |w.ended|
  {
    hide Answers, CallsOf;
    TurnStands(s, w, e.event.message, e.event.toolResults, e.context, e.aborted);
  }

  /** What an accepted provider call says. */
  lemma EntryCalls(s: Setup, w: Watch, e: Entry)
    requires w.Watch? && Next(s, w, e).Watch? && e.Called?
    ensures Clear(w) && e.context == s.initial + w.ended && !w.unanswered
  {
  }

  // ----- Every message has its place

  /** Place `k` of what a run says belongs to its prompts, or to the inputs of one of its first `i` entries. */
  ghost predicate InputPlace(s: Setup, log: seq<Entry>, i: nat, k: nat)
    requires i <= |log|
  {
    k < |s.prompts| ||
    exists j | 0 <= j < i :: log[j].Polled? && At(s, log, j).Watch? && InBatch(|At(s, log, j).ended|, Concat(log[j].tickets), k)
  }

  predicate InBatch(from: nat, batch: seq<Message>, k: nat) {
    from <= k < from + |batch|
  }

  /** Place `k` belongs to a turn that ended within the first `i` entries: to its message or to one of its results. */
  ghost predicate TurnPlace(s: Setup, log: seq<Entry>, i: nat, k: nat)
    requires i <= |log|
  {
    exists j | 0 <= j < i ::
      && log[j].Emitted? && log[j].event.TurnEnd? && At(s, log, j).Watch?
      && At(s, log, j).settled <= k <= At(s, log, j).settled + |log[j].event.toolResults|
  }

  /** The inputs that wait end where those of the prompts or of one poll end. */
  ghost predicate WaitingFits(s: Setup, log: seq<Entry>, i: nat)
    requires i <= |log| && At(s, log, i).Watch?
  {
    var w := At(s, log, i);
    w.waiting == [] || |w.ended| + |w.waiting| == |s.prompts| ||
    exists j | 0 <= j < i ::
      && log[j].Polled? && At(s, log, j).Watch? && |At(s, log, j).ended| <= |w.ended|
      && |w.ended| + |w.waiting| == |At(s, log, j).ended| + |Concat(log[j].tickets)|
  }

  /** What one entry can do to the inputs that wait and to what is settled. */
  lemma BooksMove(s: Setup, w: Watch, e: Entry)
    requires w.Watch? && Next(s, w, e).Watch?
    ensures var w' := Next(s, w, e);
            && (e.Polled? ==> w'.waiting == Concat(e.tickets) && w'.ended == w.ended && w'.settled == w.settled)
            && (!e.Polled? && w.waiting == [] ==> w'.waiting == [])
            && (w.waiting != [] ==> |w'.ended| + |w'.waiting| == |w.ended| + |w.waiting|)
            && |w.ended| <= |w'.ended|
            && (w'.settled == w.settled
                || (w.waiting != [] && w'.settled == w.settled + 1 && w.settled == |w.ended|)
                || (e.Emitted? && e.event.TurnEnd? && w'.settled == w.settled + 1 + |e.event.toolResults|))
  {
    hide OnMessage, OnTool, OnTurnEnd, OnTurnStart, OnReflex, Concat, MayEnd, OnCalled, OnPolled, OnAsked, OnAwaited, OnRouted, Fated;
    NextMoves(s, w, e);
    if e.Emitted? {
      match e.event
      case TurnEnd(_, _) => EntryEndsTurn(s, w, e); TurnKeepsWaiting(s, w, e);
      case MessageStart(_) => MessageBooks(w, e.event);
      case MessageUpdate(_) => MessageBooks(w, e.event);
      case MessageEnd(_) => MessageBooks(w, e.event);
      case ToolStart(_) => ToolBooks(w, e.event);
      case ToolUpdate(_, _) => ToolBooks(w, e.event);
      case ToolEnd(_) => ToolBooks(w, e.event);
      case TurnStart => StartBooks(s, w, e.aborted);
      case Reflex(name, index, consecutive) => ReflexBooks(s, w, name, index, consecutive);
      case _ =>
    } else if e.Polled? {
      PollTakes(s, w, e);
    } else if e.Called? {
      CalledBooks(s, w, e.context);
    } else {
      QuietKeeps(s, w, e);
    }
  }

  lemma StartBooks(s: Setup, w: Watch, aborted: bool)
    requires w.Watch? && OnTurnStart(s, w, aborted).Watch?
    ensures OnTurnStart(s, w, aborted).waiting == w.waiting && OnTurnStart(s, w, aborted).settled == w.settled
  {
    hide MayBegin;
  }

  lemma ReflexBooks(s: Setup, w: Watch, name: string, index: nat, consecutive: nat)
    requires w.Watch? && OnReflex(s, w, name, index, consecutive).Watch?
    ensures var w' := OnReflex(s, w, name, index, consecutive); w'.waiting == w.waiting && w'.settled == w.settled
  {
    hide MayBegin;
  }

  lemma CalledBooks(s: Setup, w: Watch, context: seq<Message>)
    requires w.Watch? && OnCalled(s, w, context).Watch?
    ensures OnCalled(s, w, context).waiting == w.waiting && OnCalled(s, w, context).settled == w.settled
  {
    hide ToRoute;
  }

  lemma TurnKeepsWaiting(s: Setup, w: Watch, e: Entry)
    requires w.Watch? && Next(s, w, e).Watch? && e.Emitted? && e.event.TurnEnd?
    ensures Next(s, w, e).waiting == w.waiting == []
  {
    hide Answers, CallsOf;
  }

  lemma MessageBooks(w: Watch, e: Event)
    requires w.Watch? && OnMessage(w, e).Watch?
    ensures var w' := OnMessage(w, e);
            && (w.waiting == [] ==> w'.waiting == [] && w'.settled == w.settled)
            && (w'.settled == w.settled || (w.waiting != [] && w'.settled == w.settled + 1 && w.settled == |w.ended|))
  {
  }

  lemma ToolBooks(w: Watch, e: Event)
    requires w.Watch? && OnTool(w, e).Watch?
    ensures OnTool(w, e).waiting == w.waiting == [] && OnTool(w, e).settled == w.settled
  {
    hide CurrentCalls, DistinctIds;
  }

  lemma {:induction false} WaitingAlwaysFits(s: Setup, log: seq<Entry>, i: nat)
    requires Unbroken(s, log) && i <= |log|
    ensures At(s, log, i).Watch? && WaitingFits(s, log, i)
    decreases i
  {
    hide Observe, Next, Concat;
    PrefixUnbroken(s, log, i);
    if i == 0 {
      FirstWaiting(s, log);
    } else {
      WaitingAlwaysFits(s, log, i - 1);
      AtNext(s, log, i - 1);
      BooksMove(s, At(s, log, i - 1), log[i - 1]);
    }
  }

  lemma FirstWaiting(s: Setup, log: seq<Entry>)
    ensures At(s, log, 0) == Opening(s)
  {
  }

  /** Each message that is settled is an input, or lies in the message and results of some ended turn. */
  lemma {:induction false} EveryMessageHasItsPlace(s: Setup, log: seq<Entry>, i: nat, k: nat)
    requires Unbroken(s, log) && i <= |log|
    ensures At(s, log, i).Watch?
    ensures k < At(s, log, i).settled ==> InputPlace(s, log, i, k) || TurnPlace(s, log, i, k)
    decreases i
  {
    hide Observe, Next, Concat;
    PrefixUnbroken(s, log, i);
    if i == 0 {
      FirstWaiting(s, log);
    } else {
      EveryMessageHasItsPlace(s, log, i - 1, k);
      WaitingAlwaysFits(s, log, i - 1);
      AtNext(s, log, i - 1);
      BooksMove(s, At(s, log, i - 1), log[i - 1]);
      StillPlaced(s, log, i - 1, k);
      var w, w' := At(s, log, i - 1), At(s, log, i);
      if w.settled <= k < w'.settled && w.waiting != [] && !TurnPlace(s, log, i, k) {
        NewInput(s, log, i - 1, k);
      }
    }
  }

  lemma StillPlaced(s: Setup, log: seq<Entry>, i: nat, k: nat)
    requires i < |log|
    ensures InputPlace(s, log, i, k) ==> InputPlace(s, log, i + 1, k)
    ensures TurnPlace(s, log, i, k) ==> TurnPlace(s, log, i + 1, k)
  {
    hide Observe, Concat;
  }

  /** The next input that waits is at a place of the prompts or of the poll that took it. */
  lemma NewInput(s: Setup, log: seq<Entry>, i: nat, k: nat)
    requires i < |log| && At(s, log, i).Watch? && WaitingFits(s, log, i)
    requires At(s, log, i).waiting != [] && k == |At(s, log, i).ended|
    ensures InputPlace(s, log, i + 1, k)
  {
    hide Observe, Concat;
    var w := At(s, log, i);
    if |w.ended| + |w.waiting| != |s.prompts| {
      var j :| 0 <= j < i && log[j].Polled? && At(s, log, j).Watch? && |At(s, log, j).ended| <= |w.ended|
               && |w.ended| + |w.waiting| == |At(s, log, j).ended| + |Concat(log[j].tickets)|;
      assert InBatch(|At(s, log, j).ended|, Concat(log[j].tickets), k);
    }
  }

  /** At every provider call each message that the run has put into the context
      is an input, or lies in a turn whose message is followed by results that
      answer all its calls in order. */
  lemma NothingUnanswered(s: Setup, log: seq<Entry>, i: nat, k: nat)
    requires Unbroken(s, log) && i < |log| && log[i].Called? && |s.initial| <= k < |log[i].context|
    ensures InputPlace(s, log, i, k - |s.initial|) ||
            exists j | 0 <= j < i :: log[j].Emitted? && log[j].event.TurnEnd? && AnsweredTurn(s, log, j, log[i].context, k)
  {
    hide Observe, Next, InputPlace, Answers, CallsOf;
    PrefixUnbroken(s, log, i);
    PrefixUnbroken(s, log, i + 1);
    AtNext(s, log, i);
    EntryCalls(s, At(s, log, i), log[i]);
    EveryMessageHasItsPlace(s, log, i, k - |s.initial|);
    if !InputPlace(s, log, i, k - |s.initial|) {
      var j :| 0 <= j < i && log[j].Emitted? && log[j].event.TurnEnd? && At(s, log, j).Watch?
               && At(s, log, j).settled <= k - |s.initial| <= At(s, log, j).settled + |log[j].event.toolResults|;
      ProviderSeesAnswers(s, log, j, i);
      assert AnsweredTurn(s, log, j, log[i].context, k);
    }
  }

  /** Place `k` of the context is in the turn that ended at `j`, which stands there answered. */
  ghost predicate AnsweredTurn(s: Setup, log: seq<Entry>, j: nat, context: seq<Message>, k: nat)
    requires j < |log| && log[j].Emitted? && log[j].event.TurnEnd?
  {
    At(s, log, j).Watch? &&
    var TurnEnd(m, results) := log[j].event;
    var from := |s.initial| + At(s, log, j).settled;
    && from <= k < from + 1 + |results| <= |context|
    && context[from..from + 1 + |results|] == [m] + results && Answers(results, CallsOf(m))
  }

  lemma TurnStands(s: Setup, w: Watch, m: Message, results: seq<Message>, context: seq<Message>, aborted: bool)
    requires w.Watch? && OnTurnEnd(s, w, m, results, context, aborted).Watch?
    ensures w.settled < |w.ended| && w.ended[w.settled..] == [m] + results
    ensures |w.ended| == w.settled + 1 + |results| && context == s.initial + w.ended
    ensures !Answers(results, CallsOf(m)) ==> OnTurnEnd(s, w, m, results, context, aborted).unanswered
    ensures OnTurnEnd(s, w, m, results, context, aborted).ended == w.ended
  {
    assert |w.ended[w.settled..]| == 1 + |results|;
  }

  lemma {:induction false} UnansweredStays(s: Setup, log: seq<Entry>, j: nat, k: nat)
    requires Unbroken(s, log) && j <= k <= |log|
    requires At(s, log, j).Watch? && At(s, log, j).unanswered
    ensures At(s, log, k).Watch? && At(s, log, k).unanswered
    decreases k
  {
    hide Next;
    if j < k {
      UnansweredStays(s, log, j, k - 1);
      PrefixUnbroken(s, log, k);
      AtNext(s, log, k - 1);
      NextMoves(s, At(s, log, k - 1), log[k - 1]);
    }
  }

  /** At every provider call, every turn end and the run's end, the loop's own
      context is the initial transcript plus the messages the events have ended. */
  lemma TranscriptsAgree(s: Setup, log: seq<Entry>, k: nat)
    requires Unbroken(s, log) && k < |log|
    requires log[k].Called? || (log[k].Emitted? && (log[k].event.TurnEnd? || log[k].event.AgentEnd?))
    ensures At(s, log, k).Watch? && log[k].context == s.initial + At(s, log, k).ended
    ensures log[k].Emitted? && log[k].event.AgentEnd? ==> log[k].event.messages == At(s, log, k).ended
  {
    PrefixUnbroken(s, log, k);
    PrefixUnbroken(s, log, k + 1);
    AtNext(s, log, k);
    if log[k].Emitted? && log[k].event.TurnEnd? {
      TurnStands(s, At(s, log, k), log[k].event.message, log[k].event.toolResults, log[k].context, log[k].aborted);
    }
  }

  // ----- Reflexes and steering between provider calls

  predicate NoCall(log: seq<Entry>, j: nat, k: nat)
    requires j <= k <= |log|
  {
    forall i | j <= i < k :: !log[i].Called?
  }

  function ReflexCount(log: seq<Entry>, j: nat, k: nat): (r: nat)
    requires j <= k <= |log|
  {
    if j == k then 0
    else ReflexCount(log, j, k - 1) + (if log[k - 1].Emitted? && log[k - 1].event.Reflex? then 1 else 0)
  }

  /** Between two provider calls there are at most `maxReflexes` reflex turns. */
  lemma {:induction false} ReflexesBounded(s: Setup, log: seq<Entry>, j: nat, k: nat)
    requires Unbroken(s, log) && j <= k <= |log| && NoCall(log, j, k)
    ensures At(s, log, k).Watch? && ReflexCount(log, j, k) <= At(s, log, k).reflexes
    ensures ReflexCount(log, j, k) <= s.maxReflexes
    decreases k
  {
    hide Next;
    PrefixUnbroken(s, log, k);
    if j < k {
      ReflexesBounded(s, log, j, k - 1);
      AtNext(s, log, k - 1);
      NextMoves(s, At(s, log, k - 1), log[k - 1]);
    }
  }

  /** A poll that brought steering in. */
  predicate Steered(e: Entry) {
    e.Polled? && e.source.Steering? && Concat(e.tickets) != []
  }

  lemma {:induction false} SteeredStays(s: Setup, log: seq<Entry>, j: nat, k: nat)
    requires Unbroken(s, log) && j <= k <= |log| && NoCall(log, j, k)
    requires At(s, log, j).Watch? && At(s, log, j).steered
    ensures At(s, log, k).Watch? && At(s, log, k).steered
    decreases k
  {
    hide Next;
    if j < k {
      SteeredStays(s, log, j, k - 1);
      PrefixUnbroken(s, log, k);
      AtNext(s, log, k - 1);
      NextMoves(s, At(s, log, k - 1), log[k - 1]);
    }
  }

  /** Between two polls that bring steering in there is a provider call, so that
      in one-at-a-time mode at most one batch enters between provider calls. */
  lemma SteeringOncePerCall(s: Setup, log: seq<Entry>, j: nat, k: nat)
    requires Unbroken(s, log) && j < k < |log| && Steered(log[j]) && Steered(log[k])
    ensures !NoCall(log, j, k)
    ensures log[k].mode.OneAtATime? ==> |log[k].tickets| == 1
  {
    PrefixUnbroken(s, log, j);
    PrefixUnbroken(s, log, j + 1);
    PrefixUnbroken(s, log, k + 1);
    AtNext(s, log, j);
    AtNext(s, log, k);
    PrefixUnbroken(s, log, k);
    if NoCall(log, j, k) {
      SteeredStays(s, log, j + 1, k);
    }
  }

  /** When the prompts came from the steering queue, a provider call comes before any more steering. */
  lemma SteeredPromptCounts(s: Setup, log: seq<Entry>, k: nat)
    requires Unbroken(s, log) && s.steered && k < |log| && Steered(log[k])
    ensures !NoCall(log, 0, k)
    ensures log[k].mode.OneAtATime? ==> |log[k].tickets| == 1
  {
    PrefixUnbroken(s, log, k);
    PrefixUnbroken(s, log, k + 1);
    AtNext(s, log, k);
    if NoCall(log, 0, k) {
      SteeredStays(s, log, 0, k);
    }
  }

  // ----- Where polled inputs end up

  /** Inputs that a poll brought in go to the transcript next, whole, contiguous
      and in order: as soon as nothing is waiting any more they stand right
      behind what had been said before the poll. */
  lemma {:induction false} InputsDelivered(s: Setup, log: seq<Entry>, j: nat, k: nat)
    requires Unbroken(s, log) && j < k <= |log| && log[j].Polled?
    ensures At(s, log, j).Watch? && At(s, log, k).Watch?
    ensures var goal := At(s, log, j).ended + Concat(log[j].tickets);
            var w := At(s, log, k);
            && (goal == w.ended + w.waiting || goal <= w.ended)
            && (w.waiting == [] ==> goal <= w.ended)
    decreases k
  {
    hide Next, Concat;
    PrefixUnbroken(s, log, j);
    PrefixUnbroken(s, log, k);
    var goal := At(s, log, j).ended + Concat(log[j].tickets);
    AtNext(s, log, k - 1);
    if j + 1 < k {
      InputsDelivered(s, log, j, k - 1);
      Delivery(s, At(s, log, k - 1), log[k - 1], goal);
    } else {
      PollTakes(s, At(s, log, j), log[j]);
      if At(s, log, k).waiting == [] {
        assert At(s, log, k).ended + At(s, log, k).waiting == At(s, log, k).ended;
      }
    }
  }

  /** What a run starts with goes to the transcript first, whole and in order. */
  lemma {:induction false} PromptsDelivered(s: Setup, log: seq<Entry>, k: nat)
    requires Unbroken(s, log) && k <= |log|
    ensures At(s, log, k).Watch?
    ensures var w := At(s, log, k);
            && (s.prompts == w.ended + w.waiting || s.prompts <= w.ended)
            && (w.waiting == [] || |s.prompts| <= |w.ended| ==> s.prompts <= w.ended)
    decreases k
  {
    hide Next;
    PrefixUnbroken(s, log, k);
    if k == 0 {
      assert [] + s.prompts == s.prompts;
    } else {
      PromptsDelivered(s, log, k - 1);
      AtNext(s, log, k - 1);
      Delivery(s, At(s, log, k - 1), log[k - 1], s.prompts);
    }
    var w := At(s, log, k);
    if |s.prompts| <= |w.ended| && s.prompts == w.ended + w.waiting {
      assert w.waiting == [] && w.ended + w.waiting == w.ended;
    }
  }

  /** So every provider call has them right behind the transcript before the run. */
  lemma PromptsBeforeAnyCall(s: Setup, log: seq<Entry>, i: nat)
    requires Unbroken(s, log) && i < |log| && log[i].Called?
    ensures s.initial + s.prompts <= log[i].context
  {
    PromptsDelivered(s, log, i);
    PrefixUnbroken(s, log, i + 1);
    AtNext(s, log, i);
  }

  lemma PollTakes(s: Setup, w: Watch, e: Entry)
    requires w.Watch? && Next(s, w, e).Watch? && e.Polled?
    ensures Next(s, w, e).ended == w.ended && Next(s, w, e).waiting == Concat(e.tickets) && w.waiting == []
    ensures Next(s, w, e).settled == w.settled
  {
    hide Concat, Due, AfterPoll;
  }

  lemma Delivery(s: Setup, w: Watch, e: Entry, goal: seq<Message>)
    requires w.Watch? && Next(s, w, e).Watch?
    requires goal == w.ended + w.waiting || goal <= w.ended
    ensures var w' := Next(s, w, e);
            && (goal == w'.ended + w'.waiting || goal <= w'.ended)
            && (w'.waiting == [] ==> goal <= w'.ended)
  {
    var w' := Next(s, w, e);
    hide Next;
    NextMoves(s, w, e);
    if w.waiting == [] {
      assert w.ended + w.waiting == w.ended;
    }
    assert w'.waiting == [] ==> w'.ended + w'.waiting == w'.ended;
  }

  /** Every batch that a poll took is in the context of the next provider call,
      contiguous and in the order of the tickets, at a place that no other poll uses. */
  lemma PolledBeforeNextCall(s: Setup, log: seq<Entry>, j: nat, i: nat)
    requires Unbroken(s, log) && j < i < |log| && log[j].Polled? && log[i].Called?
    ensures At(s, log, j).Watch?
    ensures var k := |s.initial| + |At(s, log, j).ended|;
            var batch := Concat(log[j].tickets);
            k + |batch| <= |log[i].context| && log[i].context[k..k + |batch|] == batch
  {
    hide Observe, Next, Concat;
    InputsDelivered(s, log, j, i);
    PrefixUnbroken(s, log, i + 1);
    AtNext(s, log, i);
    EntryCalls(s, At(s, log, i), log[i]);
    var said, batch := At(s, log, j).ended, Concat(log[j].tickets);
    var w := At(s, log, i);
    assert w.ended[..|said + batch|] == said + batch;
    assert log[i].context == s.initial + w.ended;
    assert (s.initial + w.ended)[|s.initial| + |said|..|s.initial| + |said| + |batch|] == w.ended[|said|..|said| + |batch|];
    assert w.ended[|said|..|said| + |batch|] == (said + batch)[|said|..];
  }

  /** Polls deliver in the order in which they were made, without overlapping. */
  lemma PollsInOrder(s: Setup, log: seq<Entry>, j: nat, k: nat)
    requires Unbroken(s, log) && j < k < |log| && log[j].Polled? && log[k].Polled?
    ensures At(s, log, j).Watch? && At(s, log, k).Watch?
    ensures |At(s, log, j).ended| + |Concat(log[j].tickets)| <= |At(s, log, k).ended|
  {
    InputsDelivered(s, log, j, k);
    PrefixUnbroken(s, log, k + 1);
    AtNext(s, log, k);
  }

  /** A run that ends without an abort leaves no polled input behind. */
  lemma NothingLeftBehind(s: Setup, log: seq<Entry>, j: nat, k: nat)
    requires Unbroken(s, log) && j < k < |log| && log[j].Polled?
    requires log[k].Emitted? && log[k].event.AgentEnd? && !log[k].aborted
    ensures At(s, log, j).Watch?
    ensures At(s, log, j).ended + Concat(log[j].tickets) <= log[k].event.messages
  {
    InputsDelivered(s, log, j, k);
    PrefixUnbroken(s, log, k + 1);
    AtNext(s, log, k);
  }
}
