/** The stateful agent: its queues, and the second copy of the transcript that
    it rebuilds from events alone. */
module AgentState {
  import opened Messages
  import opened PendingQueue
  import opened Protocol

  /** The part of the state that events may change. */
  datatype View = View(
    messages: seq<Message>, streaming: Option<Message>, pending: set<string>, error: Option<string>)

  function Reduce(v: View, e: Event): (r: View) {
    match e
    case MessageStart(m) => v.(streaming := Some(m))
    case MessageUpdate(m) => v.(streaming := Some(m))
    case MessageEnd(m) => v.(streaming := None, messages := v.messages + [m])
    case ToolStart(call) => v.(pending := v.pending + {call.id})
    case ToolEnd(f) => v.(pending := v.pending - {f.call.id})
    case TurnEnd(m, _) =>
      if m.Assistant? && m.errorMessage.Some? && m.errorMessage.value != "" then v.(error := m.errorMessage) else v
    case AgentEnd(_) => v.(streaming := None)
    case _ => v
  }

  /** The state rebuilt from events matches the monitor's reading of them. */
  ghost predicate Mirrors(s: Setup, v: View, w: Watch) {
    w.Watch? ==>
      && v.messages == s.initial + w.ended
      && (forall id <- v.pending :: id in w.running)
      && (DistinctIds(CurrentCalls(w)) ==> forall id :: id in w.running ==> id in v.pending && w.running[id] == 1)
      && ((w.stage.InTurn? && !w.open) || w.running == multiset{})
      && (v.streaming.Some? <==> w.open) && (w.open ==> w.stage.InTurn?)
  }

  lemma ReduceMirrors(s: Setup, v: View, w: Watch, e: Event, context: seq<Message>, aborted: bool)
    requires Mirrors(s, v, w)
    ensures Mirrors(s, Reduce(v, e), Next(s, w, Emitted(e, context, aborted)))
  {
    hide OnTool, OnTurnEnd, MayEnd, OnMessage, Mirrors;
    if w.Watch? && w.fate.Going? {
      match e
      case MessageStart(_) => MessageMirrors(s, v, w, e);
      case MessageUpdate(_) => MessageMirrors(s, v, w, e);
      case MessageEnd(_) => MessageMirrors(s, v, w, e);
      case ToolStart(_) => ToolMirrors(s, v, w, e);
      case ToolUpdate(_, _) => ToolMirrors(s, v, w, e);
      case ToolEnd(_) => ToolMirrors(s, v, w, e);
      case _ => RestMirrors(s, v, w, e, context, aborted);
    } else {
      BrokenMirrors(s, Reduce(v, e));
    }
  }

  lemma BrokenMirrors(s: Setup, v: View)
    ensures Mirrors(s, v, Broken)
  {
  }

  lemma MessageMirrors(s: Setup, v: View, w: Watch, e: Event)
    requires w.Watch? && Mirrors(s, v, w) && (e.MessageStart? || e.MessageUpdate? || e.MessageEnd?)
    ensures Mirrors(s, Reduce(v, e), OnMessage(w, e))
  {
    hide Opened, Said, TookIn, Mirrors, MaySpeak, Calm;
    BrokenMirrors(s, Reduce(v, e));
    match e
    case MessageStart(m) =>
      if OnMessage(w, e).Watch? {
        OpenMirrors(s, v, w, m);
      }
    case MessageUpdate(m) =>
      if OnMessage(w, e).Watch? {
        UpdateMirrors(s, v, w, m);
      }
    case MessageEnd(m) =>
      if OnMessage(w, e).Watch? {
        SaidMirrors(s, v, w, m);
      }
  }

  lemma OpenMirrors(s: Setup, v: View, w: Watch, m: Message)
    requires w.Watch? && Mirrors(s, v, w) && w.stage.InTurn? && Calm(w)
    ensures Mirrors(s, Reduce(v, MessageStart(m)), Opened(w, true))
  {
    hide CallsOf, DistinctIds;
  }

  lemma UpdateMirrors(s: Setup, v: View, w: Watch, m: Message)
    requires w.Watch? && Mirrors(s, v, w) && w.open
    ensures Mirrors(s, Reduce(v, MessageUpdate(m)), w)
  {
    hide CurrentCalls, DistinctIds;
  }

  /** A message that ends takes no call that runs from the agent, for none runs while a message is open. */
  lemma SaidMirrors(s: Setup, v: View, w: Watch, m: Message)
    requires w.Watch? && Mirrors(s, v, w) && w.open
    ensures Mirrors(s, Reduce(v, MessageEnd(m)), Said(w, m))
    ensures w.waiting != [] ==> Mirrors(s, Reduce(v, MessageEnd(m)), TookIn(w, m))
  {
    hide CurrentCalls, DistinctIds;
    assert s.initial + (w.ended + [m]) == s.initial + w.ended + [m];
  }

  lemma ToolMirrors(s: Setup, v: View, w: Watch, e: Event)
    requires w.Watch? && Mirrors(s, v, w) && (e.ToolStart? || e.ToolUpdate? || e.ToolEnd?)
    ensures Mirrors(s, Reduce(v, e), OnTool(w, e))
  {
    hide CallsOf, DistinctIds;
    assert OnTool(w, e).Watch? ==> CurrentCalls(OnTool(w, e)) == CurrentCalls(w);
  }

  lemma RestMirrors(s: Setup, v: View, w: Watch, e: Event, context: seq<Message>, aborted: bool)
    requires w.Watch? && Mirrors(s, v, w)
    requires e.AgentStart? || e.AgentEnd? || e.TurnStart? || e.TurnEnd? || e.Reflex?
    ensures Mirrors(s, Reduce(v, e), OnEvent(s, w, e, context, aborted))
  {
    hide Answers, CallsOf, MayEnd;
  }

  /** When the run is over there is nothing left to forget. */
  lemma OverMirrors(s: Setup, v: View, w: Watch)
    requires Mirrors(s, v, w) && (w.Watch? ==> w.stage.Over?)
    ensures Mirrors(s, View(v.messages, None, {}, v.error), w)
  {
  }

  lemma NoteMirrors(s: Setup, v: View, w: Watch, e: Entry)
    requires Mirrors(s, v, w) && !e.Emitted?
    ensures Mirrors(s, v, Next(s, w, e))
  {
    hide Next, CurrentCalls, DistinctIds;
    if Next(s, w, e).Watch? {
      NoteKeeps(s, w, e);
    }
  }

  /** What the state mirrors is the same. */
  ghost predicate Alike(w: Watch, w': Watch) {
    w.Watch? && w'.Watch? && w'.ended == w.ended && w'.running == w.running && w'.stage == w.stage && w'.open == w.open
    && w'.settled == w.settled && CurrentCalls(w') == CurrentCalls(w)
  }

  /** Entries that are not events leave alone what the state mirrors. */
  lemma NoteKeeps(s: Setup, w: Watch, e: Entry)
    requires !e.Emitted? && Next(s, w, e).Watch?
    ensures Alike(w, Next(s, w, e))
  {
    hide OnCalled, OnPolled, OnAsked, OnAwaited, OnRouted, Alike;
    match e
    case Called(context) => CalledKeeps(s, w, context);
    case Polled(source, mode, tickets) => PolledKeeps(w, source, mode, tickets);
    case Asked(hook, stop, aborted) => AskedKeeps(w, hook, stop, aborted);
    case Awaited(what, how, aborted) => AwaitedKeeps(w, what, how, aborted);
    case Routed(choice) => RoutedKeeps(s, w, choice);
    case Yielded => FatedKeeps(w, Halted);
  }

  lemma CalledKeeps(s: Setup, w: Watch, context: seq<Message>)
    requires w.Watch? && OnCalled(s, w, context).Watch?
    ensures Alike(w, OnCalled(s, w, context))
  {
    hide CallsOf, ToRoute;
  }

  lemma PolledKeeps(w: Watch, source: Source, mode: QueueMode, tickets: seq<Ticket>)
    requires w.Watch? && OnPolled(w, source, mode, tickets).Watch?
    ensures Alike(w, OnPolled(w, source, mode, tickets))
  {
    hide CallsOf, Concat, Due, AfterPoll;
  }

  lemma AskedKeeps(w: Watch, hook: Hook, stop: bool, aborted: bool)
    requires w.Watch? && OnAsked(w, hook, stop, aborted).Watch?
    ensures Alike(w, OnAsked(w, hook, stop, aborted))
  {
    hide CallsOf, DueHook, AfterAsking;
  }

  lemma AwaitedKeeps(w: Watch, what: Await, how: Settling, aborted: bool)
    requires w.Watch?
    ensures Alike(w, OnAwaited(w, what, how, aborted))
  {
    hide CallsOf, Uncaught, Fated, Owing, Sliced, Alike;
    FatedKeeps(w, Halted);
    FatedKeeps(w, Failing);
    OwingKeeps(w, CutShort);
    SlicedKeeps(w);
    AlikeSelf(w);
  }

  lemma AlikeSelf(w: Watch)
    requires w.Watch?
    ensures Alike(w, w)
  {
    hide CurrentCalls;
  }

  lemma RoutedKeeps(s: Setup, w: Watch, choice: Option<ToolCall>)
    requires w.Watch? && OnRouted(s, w, choice).Watch?
    ensures Alike(w, OnRouted(s, w, choice))
  {
    hide CallsOf, ToRoute, MayBegin;
  }

  lemma FatedKeeps(w: Watch, fate: Fate)
    requires w.Watch?
    ensures Alike(w, Fated(w, fate))
  {
    hide CallsOf;
  }

  lemma SlicedKeeps(w: Watch)
    requires w.Watch?
    ensures Alike(w, Sliced(w))
  {
    hide CallsOf;
  }

  lemma OwingKeeps(w: Watch, duty: Duty)
    requires w.Watch?
    ensures Alike(w, Owing(w, duty))
  {
    hide CallsOf;
  }

  /** Tickets that the polls of a run took from a source, in order. */
  ghost function Taken(log: seq<Entry>, source: Source): (r: seq<Ticket>) {
    if log == [] then []
    else
      var e := log[|log| - 1];
      Taken(log[..|log| - 1], source) + (if e.Polled? && e.source == source then e.tickets else [])
  }

  lemma TakenAppend(log: seq<Entry>, e: Entry, source: Source)
    ensures Taken(log + [e], source) == Taken(log, source) + (if e.Polled? && e.source == source then e.tickets else [])
  {
    assert (log + [e])[..|log|] == log;
  }

  /** Of the tickets `base`, those after the first `before` are what the run starts with, if there are any. */
  ghost predicate Prompted(run: Setup, base: seq<Ticket>, before: nat) {
    before <= |base| && (before < |base| ==> run.prompts == Concat(base[before..]))
  }

  predicate EndsRun(e: Entry) {
    e.Emitted? && e.event.AgentEnd?
  }

  /** The events of a log. */
  ghost function Told(log: seq<Entry>): (r: seq<Event>) {
    if log == [] then []
    else
      var e := log[|log| - 1];
      Told(log[..|log| - 1]) + (if e.Emitted? then [e.event] else [])
  }

  /** How many times a log announces the end of the run. */
  ghost function Ends(log: seq<Entry>): (r: nat) {
    if log == [] then 0 else Ends(log[..|log| - 1]) + (if EndsRun(log[|log| - 1]) then 1 else 0)
  }

  lemma EndIsOver(s: Setup, w: Watch, e: Entry)
    requires EndsRun(e) && Next(s, w, e).Watch?
    ensures Next(s, w, e).stage.Over?
  {
    hide MayEnd;
  }

  lemma CountsAppend(log: seq<Entry>, e: Entry)
    ensures Ends(log + [e]) == Ends(log) + (if EndsRun(e) then 1 else 0)
    ensures Told(log + [e]) == Told(log) + (if e.Emitted? then [e.event] else [])
  {
    assert (log + [e])[..|log|] == log;
  }

  lemma NothingYet(run: Setup, messages: seq<Message>)
    requires run.initial == messages
    ensures Observe(run, []) == Opening(run) && Ends([]) == 0 && Told([]) == []
    ensures Taken([], Steering) == [] && Taken([], FollowUp) == []
    ensures Mirrors(run, View(messages, None, {}, None), Opening(run))
  {
    assert run.initial + [] == run.initial;
  }

  lemma NothingTaken(drained: seq<Ticket>)
    ensures forall source: Source :: drained + Taken([], source) == drained
  {
  }

  class Agent {
    var messages: seq<Message>
    var streamingMessage: Option<Message>
    var pendingToolCalls: set<string>
    var errorMessage: Option<string>
    var isStreaming: bool
    /** A run is active; the abort signal belongs to it. */
    var active: bool
    var aborted: bool
    const steeringQueue: PendingMessageQueue
    const followUpQueue: PendingMessageQueue

    ghost var setup: Setup
    ghost var log: seq<Entry>
    ghost var watch: Watch
    ghost var ends: nat
    /** The events of the log. */
    ghost var told: seq<Event>
    ghost var steeringBase: seq<Ticket>
    ghost var followUpBase: seq<Ticket>
    /** How many of these had been handed out before the run was asked for; the others are its prompts. */
    ghost var steeringBefore: nat
    ghost var followUpBefore: nat

    function State(): (r: View)
      reads this
    {
      View(messages, streamingMessage, pendingToolCalls, errorMessage)
    }

    /** The queues are in order, and a run has taken from them exactly what its polls say. */
    ghost predicate QueuesValid()
      reads this`log, this`setup, this`steeringBase, this`followUpBase, this`steeringBefore, this`followUpBefore
      reads steeringQueue, followUpQueue
    {
      && steeringQueue != followUpQueue && steeringQueue.Valid() && followUpQueue.Valid()
      && steeringQueue.drained == steeringBase + Taken(log, Steering)
      && followUpQueue.drained == followUpBase + Taken(log, FollowUp)
      && Prompted(setup, steeringBase, steeringBefore) && Prompted(setup, followUpBase, followUpBefore)
    }

    ghost predicate Valid()
      reads this, steeringQueue, followUpQueue
    {
      && QueuesValid()
      && watch == Observe(setup, log) && ends == Ends(log) && told == Told(log)
      && Mirrors(setup, State(), watch)
    }

    constructor (messages: seq<Message>, steeringMode: QueueMode, followUpMode: QueueMode)
      ensures Valid() && !active && this.messages == messages
      ensures fresh(steeringQueue) && fresh(followUpQueue)
    {
      this.messages := messages;
      streamingMessage, pendingToolCalls, errorMessage := None, {}, None;
      isStreaming, active, aborted := false, false, false;
      steeringQueue := new PendingMessageQueue(steeringMode);
      followUpQueue := new PendingMessageQueue(followUpMode);
      setup, log, told := Setup(messages, [], 0, false, false), [], [];
      watch, ends := Opening(Setup(messages, [], 0, false, false)), 0;
      steeringBase, followUpBase, steeringBefore, followUpBefore := [], [], 0, 0;
    }

    // ----- What the host may do at any time

    method Abort()
      modifies this`aborted
      ensures aborted == (old(aborted) || active)
    {
      if active {
        aborted := true;
      }
    }

    /** Anything the host does while the run waits: queue batches, take them
        back, clear queues, change their modes, and abort. */
    method HostActs()
      requires Valid()
      modifies this`aborted, steeringQueue, followUpQueue
      ensures Valid() && (old(aborted) ==> aborted)
      ensures old(steeringQueue.issued) <= steeringQueue.issued && old(followUpQueue.issued) <= followUpQueue.issued
    {
      var steps: nat := *;
      while steps > 0
        invariant Valid() && (old(aborted) ==> aborted)
        invariant old(steeringQueue.issued) <= steeringQueue.issued && old(followUpQueue.issued) <= followUpQueue.issued
      {
        var which: bool := *;
        var queue := if which then steeringQueue else followUpQueue;
        if {
          case true => Abort();
          case true => var batch: Batch := *; queue.Enqueue(batch);
          case true => queue.Clear();
          case true => var mode: QueueMode := *; queue.mode := mode;
          case true => var victims: set<Message> := *; var _ := queue.RemoveWhere(m => m in victims);
        }
        steps := steps - 1;
      }
    }

    // ----- What a run does to the agent

    ghost method Record(e: Entry)
      requires watch == Observe(setup, log) && ends == Ends(log) && told == Told(log)
      modifies this`log, this`watch, this`ends, this`told
      ensures log == old(log) + [e] && watch == Next(setup, old(watch), e) && watch == Observe(setup, log)
      ensures ends == old(ends) + (if EndsRun(e) then 1 else 0) && ends == Ends(log)
      ensures told == old(told) + (if e.Emitted? then [e.event] else []) && told == Told(log)
    {
      hide Observe, Next, Ends, Told;
      ObserveAppend(setup, log, e);
      CountsAppend(log, e);
      ends := ends + (if EndsRun(e) then 1 else 0);
      told := told + (if e.Emitted? then [e.event] else []);
      log := log + [e];
      watch := Next(setup, watch, e);
    }

    /** Updates the state for an event, then lets the listeners run. */
    method ProcessEvents(event: Event, ghost context: seq<Message>)
      requires Valid() && active
      modifies this, steeringQueue, followUpQueue
      ensures Valid() && active && setup == old(setup) && (old(aborted) ==> aborted)
      ensures State() == Reduce(old(State()), event) && isStreaming == old(isStreaming)
      ensures log == old(log) + [Emitted(event, context, old(aborted))]
      ensures watch == Next(setup, old(watch), Emitted(event, context, old(aborted)))
      ensures ends == old(ends) + (if event.AgentEnd? then 1 else 0) && told == old(told) + [event]
      ensures steeringBase == old(steeringBase) && followUpBase == old(followUpBase)
      ensures steeringBefore == old(steeringBefore) && followUpBefore == old(followUpBefore)
    {
      hide Observe, Next, Mirrors, Taken, Ends, Told, Balanced, Agent.QueuesValid;
      ReduceMirrors(setup, State(), watch, event, context, aborted);
      RecordEvent(event, context);
      Apply(event);
      HostActs();
    }

    ghost method RecordEvent(event: Event, context: seq<Message>)
      requires QueuesValid() && watch == Observe(setup, log) && ends == Ends(log) && told == Told(log)
      modifies this`log, this`watch, this`ends, this`told
      ensures QueuesValid() && watch == Observe(setup, log) && ends == Ends(log) && told == Told(log)
      ensures log == old(log) + [Emitted(event, context, aborted)]
      ensures watch == Next(setup, old(watch), Emitted(event, context, aborted))
      ensures ends == old(ends) + (if event.AgentEnd? then 1 else 0) && told == old(told) + [event]
    {
      hide Observe, Next, Mirrors, Taken, Ends, Told, Balanced;
      TakenAppend(log, Emitted(event, context, aborted), Steering);
      TakenAppend(log, Emitted(event, context, aborted), FollowUp);
      Record(Emitted(event, context, aborted));
    }

    method Apply(event: Event)
      modifies this`messages, this`streamingMessage, this`pendingToolCalls, this`errorMessage
      ensures State() == Reduce(old(State()), event)
    {
      match event {
        case MessageStart(m) => streamingMessage := Some(m);
        case MessageUpdate(m) => streamingMessage := Some(m);
        case MessageEnd(m) =>
          streamingMessage := None;
          messages := messages + [m];
        case ToolStart(call) => pendingToolCalls := pendingToolCalls + {call.id};
        case ToolEnd(f) => pendingToolCalls := pendingToolCalls - {f.call.id};
        case TurnEnd(m, _) =>
          if m.Assistant? && m.errorMessage.Some? && m.errorMessage.value != "" {
            errorMessage := m.errorMessage;
          }
        case AgentEnd(_) => streamingMessage := None;
        case _ =>
      }
    }

    /** The run notes something that is not an event. */
    ghost method Note(e: Entry)
      requires Valid() && !e.Emitted? && (e.Polled? ==> e.source == Continuation)
      modifies this`log, this`watch, this`ends, this`told
      ensures Valid() && ends == old(ends) && told == old(told) && log == old(log) + [e] && watch == Next(setup, old(watch), e)
    {
      hide Observe, Next, Mirrors, Taken, Ends, Told, Balanced;
      NoteMirrors(setup, State(), watch, e);
      TakenAppend(log, e, Steering);
      TakenAppend(log, e, FollowUp);
      Record(e);
    }

    method PollSteering() returns (taken: seq<Message>, ghost tickets: seq<Ticket>)
      requires Valid()
      modifies this`log, this`watch, this`ends, this`told, steeringQueue
      ensures Valid() && ends == old(ends) && told == old(told) && taken == Concat(tickets)
      ensures steeringQueue.mode == OneAtATime ==> |tickets| <= 1
      ensures log == old(log) + [Polled(Steering, steeringQueue.mode, tickets)]
      ensures watch == Next(setup, old(watch), Polled(Steering, steeringQueue.mode, tickets))
    {
      hide Observe, Next, Mirrors, Taken, Ends, Told, Balanced, Concat;
      ghost var before := Taken(log, Steering);
      taken, tickets := steeringQueue.Drain();
      NoteMirrors(setup, State(), watch, Polled(Steering, steeringQueue.mode, tickets));
      assert steeringBase + before + tickets == steeringBase + (before + tickets);
      TakenAppend(log, Polled(Steering, steeringQueue.mode, tickets), Steering);
      TakenAppend(log, Polled(Steering, steeringQueue.mode, tickets), FollowUp);
      Record(Polled(Steering, steeringQueue.mode, tickets));
    }

    method PollFollowUps() returns (taken: seq<Message>, ghost tickets: seq<Ticket>)
      requires Valid()
      modifies this`log, this`watch, this`ends, this`told, followUpQueue
      ensures Valid() && ends == old(ends) && told == old(told) && taken == Concat(tickets)
      ensures log == old(log) + [Polled(FollowUp, followUpQueue.mode, tickets)]
      ensures watch == Next(setup, old(watch), Polled(FollowUp, followUpQueue.mode, tickets))
    {
      hide Observe, Next, Mirrors, Taken, Ends, Told, Balanced, Concat;
      ghost var before := Taken(log, FollowUp);
      taken, tickets := followUpQueue.Drain();
      NoteMirrors(setup, State(), watch, Polled(FollowUp, followUpQueue.mode, tickets));
      assert followUpBase + before + tickets == followUpBase + (before + tickets);
      TakenAppend(log, Polled(FollowUp, followUpQueue.mode, tickets), Steering);
      TakenAppend(log, Polled(FollowUp, followUpQueue.mode, tickets), FollowUp);
      Record(Polled(FollowUp, followUpQueue.mode, tickets));
    }

    // ----- The life of a run

    /** Starts a run; what either queue handed out since it had handed out so many batches are its prompts. */
    method BeginRun(ghost run: Setup, ghost steered: nat, ghost followed: nat)
      requires QueuesFit() && !active && run.initial == messages
      requires Prompted(run, steeringQueue.drained, steered) && Prompted(run, followUpQueue.drained, followed)
      modifies this
      ensures Valid() && active && !aborted && isStreaming
      ensures setup == run && log == [] && watch == Opening(run) && ends == 0 && told == []
      ensures messages == old(messages) && errorMessage == None
      ensures steeringBase == old(steeringQueue.drained) && steeringBefore == steered
      ensures followUpBase == old(followUpQueue.drained) && followUpBefore == followed
    {
      hide Prompted, Balanced, Observe, Taken, Ends, Told, Next, Mirrors;
      active, aborted, isStreaming := true, false, true;
      streamingMessage, errorMessage := None, None;
      pendingToolCalls := {};
      OpenBooks(run, steered, followed);
    }

    ghost method OpenBooks(run: Setup, steered: nat, followed: nat)
      requires QueuesFit() && run.initial == messages && State() == View(messages, None, {}, None)
      requires Prompted(run, steeringQueue.drained, steered) && Prompted(run, followUpQueue.drained, followed)
      modifies this`setup, this`log, this`watch, this`ends, this`told
      modifies this`steeringBase, this`followUpBase, this`steeringBefore, this`followUpBefore
      ensures Valid()
      ensures setup == run && log == [] && watch == Opening(run) && ends == 0 && told == []
      ensures steeringBase == steeringQueue.drained && steeringBefore == steered
      ensures followUpBase == followUpQueue.drained && followUpBefore == followed
    {
      hide Prompted, Balanced, Observe, Taken, Ends, Told, Next, Mirrors, Agent.QueuesValid;
      NothingYet(run, messages);
      OpenLedger(run, steered, followed);
      watch, ends, told := Opening(run), 0, [];
    }

    ghost method OpenLedger(run: Setup, steered: nat, followed: nat)
      requires QueuesFit()
      requires Prompted(run, steeringQueue.drained, steered) && Prompted(run, followUpQueue.drained, followed)
      modifies this`setup, this`log, this`steeringBase, this`followUpBase, this`steeringBefore, this`followUpBefore
      ensures QueuesValid() && setup == run && log == []
      ensures steeringBase == steeringQueue.drained && steeringBefore == steered
      ensures followUpBase == followUpQueue.drained && followUpBefore == followed
    {
      hide Prompted, Balanced, Taken;
      NothingTaken(steeringQueue.drained);
      NothingTaken(followUpQueue.drained);
      setup, log := run, [];
      steeringBase, followUpBase := steeringQueue.drained, followUpQueue.drained;
      steeringBefore, followUpBefore := steered, followed;
    }

    /** The queues on their own, whatever was drained outside a run. */
    ghost predicate QueuesFit()
      reads this, steeringQueue, followUpQueue
    {
      steeringQueue != followUpQueue && steeringQueue.Valid() && followUpQueue.Valid()
    }

    /** A run that threw leaves a message saying so, and its end is announced all the same. */
    method HandleRunFailure(error: string) returns (failure: Message)
      requires Valid() && active
      modifies this, steeringQueue, followUpQueue
      ensures Valid() && active && setup == old(setup) && (old(aborted) ==> aborted)
      ensures steeringBase == old(steeringBase) && followUpBase == old(followUpBase)
      ensures steeringBefore == old(steeringBefore) && followUpBefore == old(followUpBefore)
      ensures failure == Assistant([Text("")], if old(aborted) then StopReason.Aborted else StopReason.Failed, Some(error))
      ensures messages == old(messages) + [failure]
      ensures errorMessage == Some(error)
      ensures ends == old(ends) + 1 && |log| == |old(log)| + 3 && old(log) <= log && EndsRun(log[|log| - 1])
      ensures watch.Watch? ==> watch.stage.Over?
    {
      hide Observe, Next, Mirrors, Taken, Ends, Told, Balanced;
      failure := Assistant([Text("")], if aborted then StopReason.Aborted else StopReason.Failed, Some(error));
      RecordError(error);
      ProcessEvents(MessageStart(failure), []);
      ProcessEvents(MessageEnd(failure), []);
      ghost var w, end := watch, Emitted(AgentEnd([failure]), [], aborted);
      ProcessEvents(AgentEnd([failure]), []);
      if watch.Watch? {
        EndIsOver(setup, w, end);
      }
    }

    method RecordError(error: string)
      requires Valid()
      modifies this`errorMessage
      ensures Valid() && errorMessage == Some(error)
    {
      errorMessage := Some(error);
    }

    method FinishRun()
      requires Valid() && active && (watch.Watch? ==> watch.stage.Over?)
      modifies this`isStreaming, this`streamingMessage, this`pendingToolCalls, this`active
      ensures Valid() && !active && !isStreaming && streamingMessage == None && pendingToolCalls == {}
    {
      hide Observe, Next, Mirrors, Taken, Ends, Told, Agent.QueuesValid;
      OverMirrors(setup, State(), watch);
      isStreaming, active, streamingMessage := false, false, None;
      pendingToolCalls := {};
    }
  }
}
