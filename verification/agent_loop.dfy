/** The agent loop: one run, from the prompts to its end. The environment
    (provider, tools, hooks, host) answers arbitrarily at every await; `steps`
    bounds how much of a run is looked at, so that a result `Suspended` stands
    for a run that is still going on. */
module AgentLoop {
  import opened Messages
  import opened PendingQueue
  import opened Protocol
  import opened AgentState
  import opened ToolBatch
  import opened Waypoints
  import ProtocolLaws
  import RacingAbort

  datatype Outcome<+T> = Done(value: T) | Threw | Suspended

  datatype ProviderEvent = StreamStart(partial: AssistantMessage) | Delta(partial: AssistantMessage) | Terminal(message: AssistantMessage)

  type AssistantMessage = m: Message | m.Assistant? witness Assistant([], Stop, None)

  datatype Config = Config(
    sequential: bool, sequentialTools: set<string>, hooks: Hooks,
    maxReflexes: nat, hasRouter: bool, transforms: bool, resolvesKey: bool)

  datatype Executed = Executed(messages: seq<Message>, terminate: bool)

  /** What a turn leaves: whether the tools want another, the inputs for it, the
      reflexes in a row, and whether the provider was asked. */
  datatype Turned = Turned(hasMore: bool, pending: seq<Message>, reflexes: nat, asked: bool)

  // ----- What the listeners hear of a response

  /** The message that an aborted response leaves: what had been streamed, or the empty text. */
  function AbortedMessage(partial: Option<AssistantMessage>): (m: AssistantMessage) {
    Assistant(if partial.Some? then partial.value.content else [Text("")], Aborted, Some(ABORT_ERROR_MESSAGE))
  }

  lemma AbortedHasFailed(partial: Option<AssistantMessage>)
    ensures HasFailed(AbortedMessage(partial))
  {
  }

  /** The last partial message of a stream, once it has announced its start. */
  function Partial(stream: seq<ProviderEvent>): (r: Option<AssistantMessage>) {
    if stream == [] then None
    else
      var before := Partial(stream[..|stream| - 1]);
      match stream[|stream| - 1]
      case StreamStart(p) => Some(p)
      case Delta(p) => if before.Some? then Some(p) else None
      case Terminal(_) => before
  }

  /** What one event of a stream is told as, after its partial message so far. */
  function Telling(event: ProviderEvent, partial: Option<AssistantMessage>): (es: seq<Event>) {
    match event
    case StreamStart(p) => [MessageStart(p)]
    case Delta(p) => if partial.Some? then [MessageUpdate(p)] else []
    case Terminal(_) => []
  }

  function Narration(stream: seq<ProviderEvent>): (es: seq<Event>) {
    if stream == [] then []
    else Narration(stream[..|stream| - 1]) + Telling(stream[|stream| - 1], Partial(stream[..|stream| - 1]))
  }

  lemma StreamNothing(told: seq<Event>, w: Watch)
    ensures told + Narration([]) == told && Starts([]) == 0 && Partial([]).None?
    ensures w.Watch? && Awaiting(w, false) ==> Opened(w, false) == w
  {
  }

  /** How often a stream announces its start. */
  function Starts(stream: seq<ProviderEvent>): (r: nat) {
    if stream == [] then 0 else Starts(stream[..|stream| - 1]) + (if stream[|stream| - 1].StreamStart? then 1 else 0)
  }

  /** How often it announces its start again. */
  function Repeats(stream: seq<ProviderEvent>): (r: nat) {
    if Starts(stream) > 1 then Starts(stream) - 1 else 0
  }

  lemma RepeatsAre(stream: seq<ProviderEvent>)
    ensures Starts(stream) == Repeats(stream) + (if Partial(stream).Some? then 1 else 0)
  {
    StartedHasPartial(stream);
  }

  /** The final message ends the streamed one, or is told as a whole. */
  function FinalEvents(m: Message, added: bool): (es: seq<Event>) {
    (if added then [] else [MessageStart(m)]) + [MessageEnd(m)]
  }

  lemma StreamAppend(stream: seq<ProviderEvent>, e: ProviderEvent)
    ensures Narration(stream + [e]) == Narration(stream) + Telling(e, Partial(stream))
    ensures Starts(stream + [e]) == Starts(stream) + (if e.StreamStart? then 1 else 0)
    ensures e.StreamStart? ==> Partial(stream + [e]) == Some(e.partial)
    ensures e.Delta? ==> Partial(stream + [e]) == if Partial(stream).Some? then Some(e.partial) else None
    ensures e.Terminal? ==> Partial(stream + [e]) == Partial(stream)
  {
    assert (stream + [e])[..|stream|] == stream;
  }

  /** The stream announces its start somewhere before `n`. */
  predicate StartsBefore(stream: seq<ProviderEvent>, n: nat)
    requires n <= |stream|
  {
    exists j | 0 <= j < n :: stream[j].StreamStart?
  }

  /** Event `i` brings a partial message: a start does, and a delta after some start. */
  predicate Brings(stream: seq<ProviderEvent>, i: nat)
    requires i < |stream|
  {
    stream[i].StreamStart? || (stream[i].Delta? && StartsBefore(stream, i))
  }

  lemma {:induction false} PartialIsTheLast(stream: seq<ProviderEvent>)
    ensures Partial(stream).Some? <==> StartsBefore(stream, |stream|)
    ensures forall n | 0 <= n < |stream| && Brings(stream, n) && (forall i | n < i < |stream| :: !Brings(stream, i)) ::
              Partial(stream) == Some(stream[n].partial)
    ensures (forall n | 0 <= n < |stream| :: !Brings(stream, n)) ==> Partial(stream) == None
    decreases |stream|
  {
    if stream != [] {
      var front, last := stream[..|stream| - 1], |stream| - 1;
      PartialIsTheLast(front);
      assert forall j | 0 <= j < last :: front[j] == stream[j];
      forall i | 0 <= i < last ensures Brings(front, i) <==> Brings(stream, i) {
        assert StartsBefore(front, i) <==> StartsBefore(stream, i);
      }
      assert StartsBefore(front, last) <==> StartsBefore(stream, last);
      assert StartsBefore(stream, |stream|) <==> StartsBefore(stream, last) || stream[last].StreamStart?;
      forall n | 0 <= n < |stream| && Brings(stream, n) && (forall i | n < i < |stream| :: !Brings(stream, i))
        ensures Partial(stream) == Some(stream[n].partial)
      {
        if n < last {
          assert !Brings(stream, last);
          assert forall i | n < i < last :: !Brings(front, i);
        }
      }
      if forall n | 0 <= n < |stream| :: !Brings(stream, n) {
        assert !Brings(stream, last);
        assert forall n | 0 <= n < last :: !Brings(front, n);
      }
    }
  }

  /** An aborted response says so and keeps what the stream had brought last, or
      the empty text when it had brought nothing. */
  lemma AbortKeepsTheLast(stream: seq<ProviderEvent>)
    ensures var m := AbortedMessage(Partial(stream));
            && m.stopReason.Aborted? && m.errorMessage == Some("Request was aborted")
            && (forall n | 0 <= n < |stream| && Brings(stream, n) && (forall i | n < i < |stream| :: !Brings(stream, i)) ::
                  m.content == stream[n].partial.content)
            && ((forall n | 0 <= n < |stream| :: !Brings(stream, n)) ==> m.content == [Text("")])
  {
    hide Brings, Partial;
    PartialIsTheLast(stream);
  }

  /** A stream that starts and then brings deltas is told as a start and its updates. */
  lemma {:induction false} StreamIsTold(first: AssistantMessage, deltas: seq<AssistantMessage>)
    ensures var stream := [StreamStart(first)] + seq(|deltas|, k requires 0 <= k < |deltas| => Delta(deltas[k]));
            && Narration(stream) == [MessageStart(first)] + seq(|deltas|, k requires 0 <= k < |deltas| => MessageUpdate(deltas[k]))
            && Partial(stream) == Some(if deltas == [] then first else deltas[|deltas| - 1])
    decreases |deltas|
  {
    hide Narration, Partial, Starts;
    var stream := [StreamStart(first)] + seq(|deltas|, k requires 0 <= k < |deltas| => Delta(deltas[k]));
    if deltas == [] {
      assert stream == [] + [StreamStart(first)];
      NothingNarrated();
      StreamAppend([], StreamStart(first));
    } else {
      var n := |deltas| - 1;
      StreamIsTold(first, deltas[..n]);
      var front := [StreamStart(first)] + seq(n, k requires 0 <= k < n => Delta(deltas[..n][k]));
      assert stream == front + [Delta(deltas[n])];
      StreamAppend(front, Delta(deltas[n]));
    }
  }

  lemma NothingNarrated()
    ensures Narration([]) == [] && Partial([]) == None
  {
  }

  lemma {:induction false} StartedHasPartial(stream: seq<ProviderEvent>)
    ensures Partial(stream).Some? <==> Starts(stream) > 0
  {
    if stream != [] {
      StartedHasPartial(stream[..|stream| - 1]);
    }
  }

  // ----- What the listeners hear of a batch

  /** The events of a batch's trace. */
  function TraceEvents(calls: seq<ToolCall>, trace: seq<ToolEvent>): (es: seq<Event>) {
    if trace == [] then []
    else
      var e := trace[|trace| - 1];
      TraceEvents(calls, trace[..|trace| - 1]) + (if e.index < |calls| then [SignalEvent(calls[e.index], e.signal)] else [])
  }

  lemma TraceNothing(calls: seq<ToolCall>, trace: seq<ToolEvent>, i: nat)
    ensures TraceEvents(calls, trace + Tag(i, [])) == TraceEvents(calls, trace)
  {
    assert trace + Tag(i, []) == trace;
  }

  lemma TraceAppend(calls: seq<ToolCall>, trace: seq<ToolEvent>, i: nat, signals: seq<Signal>)
    requires i < |calls| && |signals| == 1
    ensures TraceEvents(calls, trace + Tag(i, signals)) == TraceEvents(calls, trace) + [SignalEvent(calls[i], signals[0])]
  {
    assert trace + Tag(i, signals) == trace + [ToolEvent(i, signals[0])];
    assert (trace + [ToolEvent(i, signals[0])])[..|trace|] == trace;
  }

  lemma TraceEmpty(story: seq<Event>, calls: seq<ToolCall>)
    ensures story + TraceEvents(calls, []) == story
  {
  }

  lemma StoryGrows(story: seq<Event>, first: seq<Event>, second: seq<Event>)
    ensures story + first + second == story + (first + second)
  {
  }

  lemma StoryJoins(story: seq<Event>, first: seq<Event>, second: seq<Event>, third: seq<Event>)
    ensures story + first + second + third == story + (first + second + third)
  {
  }

  lemma AnnouncedNone(story: seq<Event>, fs: seq<Finalized>)
    ensures story + Announcements(fs[..0]) == story && ResultMessages(fs[..0]) == []
  {
  }

  lemma BatchBegins(w: Watch, story: seq<Event>, hooks: Hooks, calls: seq<ToolCall>)
    ensures Batched(w, []) == w && ResultMessages([]) == []
    ensures story + SequentialStory(hooks, calls, [], []) == story && OneByOne(hooks, calls, [], [])
  {
    BatchedNone(w);
  }

  lemma ResultMessagesMore(fs: seq<Finalized>, f: Finalized)
    ensures ResultMessages(fs + [f]) == ResultMessages(fs) + [ResultMessage(f)]
  {
  }

  lemma NothingTold(story: seq<Event>)
    ensures story + [] == story
  {
  }

  /** One result is announced as a message. */
  function Announcement(f: Finalized): (es: seq<Event>) {
    [MessageStart(ResultMessage(f)), MessageEnd(ResultMessage(f))]
  }

  function Announcements(fs: seq<Finalized>): (es: seq<Event>) {
    if fs == [] then [] else Announcements(fs[..|fs| - 1]) + Announcement(fs[|fs| - 1])
  }

  lemma AnnouncementsMore(fs: seq<Finalized>, i: nat)
    requires i < |fs|
    ensures Announcements(fs[..i + 1]) == Announcements(fs[..i]) + Announcement(fs[i])
  {
    assert fs[..i + 1][..i] == fs[..i];
  }

  /** One call runs on its own. */
  function Solo(hooks: Hooks, call: ToolCall, run: seq<Choice>): (b: Progress)
    ensures |b.slots| == 1
  {
    Run(Job(hooks, [call]), run)
  }

  /** One call after the other, each announced before the next begins. */
  function SequentialStory(hooks: Hooks, calls: seq<ToolCall>, runs: seq<seq<Choice>>, fs: seq<Finalized>): (es: seq<Event>)
    requires |runs| == |fs| <= |calls|
    decreases |runs|
  {
    if runs == [] then []
    else
      var n := |runs| - 1;
      SequentialStory(hooks, calls, runs[..n], fs[..n])
      + TraceEvents([calls[n]], Solo(hooks, calls[n], runs[n]).trace) + Announcement(fs[n])
  }

  lemma SequentialStoryMore(hooks: Hooks, calls: seq<ToolCall>, runs: seq<seq<Choice>>, fs: seq<Finalized>, run: seq<Choice>, f: Finalized)
    requires |runs| == |fs| < |calls|
    ensures SequentialStory(hooks, calls, runs + [run], fs + [f])
            == SequentialStory(hooks, calls, runs, fs) + TraceEvents([calls[|fs|]], Solo(hooks, calls[|fs|], run).trace) + Announcement(f)
  {
    assert (runs + [run])[..|runs|] == runs && (fs + [f])[..|fs|] == fs;
  }

  predicate InSequence(config: Config, calls: seq<ToolCall>) {
    config.sequential || exists c <- calls :: c.name in config.sequentialTools
  }

  /** `fs` are the first results of calls that run one after the other, each under its own schedule. */
  ghost predicate OneByOne(hooks: Hooks, calls: seq<ToolCall>, runs: seq<seq<Choice>>, fs: seq<Finalized>) {
    && |runs| == |fs| <= |calls|
    && forall k | 0 <= k < |fs| :: Complete(Solo(hooks, calls[k], runs[k])) && fs[k] == Results(Solo(hooks, calls[k], runs[k]))[0]
  }

  /** `fs` are the results of calls that run all at once, under one schedule. */
  ghost predicate AllAtOnce(hooks: Hooks, calls: seq<ToolCall>, runs: seq<seq<Choice>>, fs: seq<Finalized>) {
    |runs| == 1 && Complete(Run(Job(hooks, calls), runs[0])) && fs == Results(Run(Job(hooks, calls), runs[0]))
  }

  /** What a turn's calls give, and under which schedules. */
  ghost predicate Executes(config: Config, calls: seq<ToolCall>, runs: seq<seq<Choice>>, fs: seq<Finalized>) {
    if InSequence(config, calls) then OneByOne(config.hooks, calls, runs, fs) else AllAtOnce(config.hooks, calls, runs, fs)
  }

  ghost function BatchStory(config: Config, calls: seq<ToolCall>, runs: seq<seq<Choice>>, fs: seq<Finalized>): (es: seq<Event>)
    requires Executes(config, calls, runs, fs)
  {
    if InSequence(config, calls) then SequentialStory(config.hooks, calls, runs, fs)
    else TraceEvents(calls, Run(Job(config.hooks, calls), runs[0]).trace) + Announcements(fs)
  }

  /** A stream that announces its start again while its message is open: no transcript that events tell of has the first one. */
  lemma SecondStartBreaks(setup: Setup, w: Watch, first: AssistantMessage, again: AssistantMessage, context: seq<Message>, aborted: bool)
    requires w.Watch? && w.stage.InTurn? && Clear(w) && MaySpeak(w, first)
    ensures var once := Next(setup, w, Emitted(MessageStart(first), context, aborted));
            once.Watch? && Next(setup, once, Emitted(MessageStart(again), context, aborted)) == Broken
  {
    hide OnTool, OnTurnEnd, OnTurnStart, OnReflex, MayEnd, MaySpeak;
  }

  class Loop {
    const agent: Agent
    const config: Config
    var context: seq<Message>
    var newMessages: seq<Message>
    var skipInitialSteeringPoll: bool
    /** How often a provider stream announced its start again. */
    ghost var strays: nat

    /** The agent and the configuration belong to the same run. */
    ghost predicate Fits()
      reads this, agent
    {
      agent.active && agent.setup.maxReflexes == config.maxReflexes && agent.setup.routes == config.hasRouter
    }

    /** The monitor has broken only if a provider stream started more than once. */
    ghost predicate Good()
      reads this, agent, agent.steeringQueue, agent.followUpQueue
    {
      agent.Valid() && Fits() && (agent.watch.Broken? <==> strays > 0)
    }

    /** The loop's own transcripts agree with the events. */
    ghost predicate InStep()
      reads this, agent
    {
      agent.watch.Watch? ==>
        && context == agent.setup.initial + agent.watch.ended
        && newMessages == agent.watch.ended
    }

    twostate predicate Forward()
      reads this, agent, agent.steeringQueue, agent.followUpQueue
    {
      && Good()
      && agent.setup == old(agent.setup)
      && agent.steeringBase == old(agent.steeringBase) && agent.followUpBase == old(agent.followUpBase)
      && agent.steeringBefore == old(agent.steeringBefore) && agent.followUpBefore == old(agent.followUpBefore)
      && Grown(old(agent.watch), agent.watch)
      && (old(agent.aborted) ==> agent.aborted)
      && old(strays) <= strays
    }

    /** The run has gone on, and its end has not been announced meanwhile. */
    twostate predicate Onward()
      reads this, agent, agent.steeringQueue, agent.followUpQueue
    {
      Forward() && agent.ends == old(agent.ends)
    }

    /** The run has gone on, and its end has been announced, once and last. */
    twostate predicate Ended()
      reads this, agent, agent.steeringQueue, agent.followUpQueue
    {
      && Forward() && agent.ends == old(agent.ends) + 1
      && agent.log != [] && EndsRun(agent.log[|agent.log| - 1])
      && (agent.watch.Watch? ==> agent.watch.stage.Over?)
    }

    /** The run has gone on to where it fails or waits: an await that it does not
        catch was refused, or one is pending, or the part looked at ends. */
    twostate predicate Stopped(threw: bool)
      reads this, agent, agent.steeringQueue, agent.followUpQueue
    {
      Onward() && (agent.watch.Watch? ==> !agent.watch.stage.Over? && agent.watch.fate == (if threw then Failing else Halted))
    }

    constructor (agent: Agent, config: Config, context: seq<Message>, newMessages: seq<Message>, skipInitialSteeringPoll: bool)
      ensures this.agent == agent && this.config == config && this.context == context
      ensures this.newMessages == newMessages && this.skipInitialSteeringPoll == skipInitialSteeringPoll && strays == 0
    {
      this.agent, this.config, this.context, this.newMessages := agent, config, context, newMessages;
      this.skipInitialSteeringPoll := skipInitialSteeringPoll;
      strays := 0;
    }

    method Emit(e: Event)
      requires !e.AgentEnd?
      requires agent.Valid() && Fits()
      requires Next(agent.setup, agent.watch, Emitted(e, context, agent.aborted)).Broken? <==> strays > 0
      modifies agent, agent.steeringQueue, agent.followUpQueue
      ensures Onward()
      ensures agent.watch == Next(agent.setup, old(agent.watch), Emitted(e, context, old(agent.aborted)))
      ensures agent.log == old(agent.log) + [Emitted(e, context, old(agent.aborted))]
      ensures agent.told == old(agent.told) + [e]
      ensures agent.State() == Reduce(old(agent.State()), e)
    {
      hide Next, Reduce, Grown, Agent.Valid;
      NextGrows(agent.setup, agent.watch, Emitted(e, context, agent.aborted));
      agent.ProcessEvents(e, context);
    }

    /** The run notes something that is not an event. */
    ghost method Note(e: Entry)
      requires Good() && !e.Emitted? && (e.Polled? ==> e.source == Continuation)
      requires agent.watch.Watch? ==> Next(agent.setup, agent.watch, e).Watch?
      modifies agent`log, agent`watch, agent`ends, agent`told
      ensures Onward() && agent.told == old(agent.told) && agent.log == old(agent.log) + [e]
      ensures agent.watch.Watch? ==> agent.watch == Next(agent.setup, old(agent.watch), e)
    {
      hide Next, Grown, Agent.Valid;
      BrokenStays(agent.setup, e);
      NextGrows(agent.setup, agent.watch, e);
      agent.Note(e);
    }

    /** The part of the run looked at ends here. */
    ghost method Yield(left: nat)
      requires Good() && left == 0
      requires agent.watch.Watch? ==> agent.watch.fate.Going? && (agent.watch.stage.Idle? || agent.watch.stage.InTurn?)
      modifies agent`log, agent`watch, agent`ends, agent`told
      ensures Stopped(false) && agent.told == old(agent.told) && agent.log == old(agent.log) + [Yielded]
      ensures agent.watch.Watch? ==> agent.watch == Fated(old(agent.watch), Halted)
    {
      hide Agent.Valid;
      Note(Yielded);
    }

    /** Waits for an operation, unless the abort signal fires first; nothing has settled in the part looked at when `Pending`. */
    method Race(what: Await) returns (s: Settling)
      requires Good()
      requires agent.watch.Watch? ==>
                 agent.watch.fate.Going? && (agent.watch.stage.Idle? || (agent.watch.stage.InTurn? && !what.PostTurn?))
      modifies agent`aborted, agent`log, agent`watch, agent`ends, agent`told, agent.steeringQueue, agent.followUpQueue
      ensures Onward() && agent.told == old(agent.told)
      ensures agent.log == old(agent.log) + [Awaited(what, s, agent.aborted)]
      ensures old(agent.aborted) ==> s == Refused(true)
      ensures agent.watch.Watch? ==> agent.watch == OnAwaited(old(agent.watch), what, s, agent.aborted)
    {
      hide Agent.Valid, OnAwaited;
      s := Settle();
      if agent.watch.Watch? {
        AwaitGoesOn(agent.setup, agent.watch, what, s, agent.aborted);
      }
      Note(Awaited(what, s, agent.aborted));
    }

    method Settle() returns (s: Settling)
      requires Good()
      modifies agent`aborted, agent.steeringQueue, agent.followUpQueue
      ensures Onward()
      ensures old(agent.aborted) ==> s == Refused(true)
    {
      hide Agent.Valid, Grown;
      GrownSelf(agent.watch);
      var race := new RacingAbort.Race<()>(agent.aborted);
      if race.outcome == None {
        Compete(race);
      }
      match race.outcome {
        case None => s := Pending;
        case Some(AbortFired) => s := Refused(true);
        case Some(Fulfilled(_)) => s := Resolved;
        case Some(Broke(_)) => var isAbort: bool := *; s := Refused(isAbort);
      }
    }

    /** The host acts, and the operation may settle, fail or be overtaken by the signal. */
    method Compete(race: RacingAbort.Race<()>)
      requires Good() && race.Valid()
      modifies race, agent`aborted, agent.steeringQueue, agent.followUpQueue
      ensures Onward() && race.Valid()
    {
      hide Agent.Valid, Grown;
      GrownSelf(agent.watch);
      agent.HostActs();
      if {
        case true => race.Fulfil(());
        case true => race.Fail("failed");
        case true =>
      }
      if agent.aborted {
        race.Abort();
      }
      agent.HostActs();
    }

    // ----- One provider turn's message

    /** A turn is open and everything said so far is in the transcript, except
        that the message being streamed, if `added`, is the context's last. */
    ghost predicate Midway(added: bool)
      reads this, agent, agent.steeringQueue, agent.followUpQueue
    {
      && Good()
      && (added ==> context != [])
      && (agent.watch.Watch? ==>
            && Awaiting(agent.watch, added)
            && (if added then context[..|context| - 1] else context) == agent.setup.initial + agent.watch.ended)
    }

    /** The response is in the transcript, as the listeners were told. */
    twostate predicate Finished(before: Watch, message: Message, added: bool)
      reads this, agent
    {
      && |context| == |old(context)| + (if added then 0 else 1)
      && old(agent.log) <= agent.log && agent.told == old(agent.told) + FinalEvents(message, added)
      && (agent.watch.Watch? ==> agent.watch == Said(before, message) && context == agent.setup.initial + agent.watch.ended)
    }

    /** Puts the final message in the transcript: replaces the streamed one, or announces a new one. */
    method FinishMessage(message: AssistantMessage, added: bool)
      requires Midway(added)
      requires agent.watch.Watch? && agent.watch.cut ==> message.stopReason.Aborted?
      modifies this`context, agent, agent.steeringQueue, agent.followUpQueue
      ensures Onward() && Finished(old(agent.watch), message, added)
    {
      hide Next, Reduce, Agent.Valid, Said, Opened, MayOpen, Awaiting;
      ghost var w := agent.watch;
      if w.Watch? {
        StreamOpens(w, added, message);
      }
      if added {
        context := context[..|context| - 1] + [message];
      } else {
        context := context + [message];
        MessageOpens(agent.setup, w, message, context, agent.aborted);
        BrokenNotOpened(w);
        Emit(MessageStart(message));
      }
      MessageCloses(agent.setup, w, message, context, agent.aborted);
      BrokenNotOpened(w);
      SaidAppends(agent.setup.initial, w, message);
      Emit(MessageEnd(message));
    }

    method FinishAborted(partial: Option<AssistantMessage>, added: bool) returns (message: AssistantMessage)
      requires Midway(added)
      modifies this`context, agent, agent.steeringQueue, agent.followUpQueue
      ensures Onward() && Finished(old(agent.watch), message, added) && message == AbortedMessage(partial)
    {
      hide Next, Reduce, Agent.Valid, Said, Awaiting;
      var content := if partial.Some? then partial.value.content else [Text("")];
      message := Assistant(content, Aborted, Some(ABORT_ERROR_MESSAGE));
      FinishMessage(message, added);
    }

    /** One raced await of the stream: None to go on, or how the response ends
        here. It throws just when the await is refused otherwise than by an abort. */
    method AwaitStream(partial: Option<AssistantMessage>, added: bool)
      returns (end: Option<Outcome<AssistantMessage>>, ghost how: Settling, ghost aborted: bool)
      requires Midway(added)
      modifies this`context, agent, agent.steeringQueue, agent.followUpQueue
      ensures Onward()
      ensures old(agent.log) + [Awaited(Reading, how, aborted)] <= agent.log
      ensures (old(agent.aborted) ==> how == Refused(true) && aborted) && (aborted ==> agent.aborted)
      ensures end == match how {
                case Resolved => None
                case Pending => Some(Suspended)
                case Refused(isAbort) => Some(if isAbort && aborted then Done(AbortedMessage(partial)) else Threw)
              }
      ensures end.None? ==> Midway(added) && context == old(context) && agent.told == old(agent.told)
      ensures end.None? && agent.watch.Watch? ==> agent.watch == old(agent.watch)
      ensures end.Some? && end.value.Done? ==> aborted && Finished(Cutting(old(agent.watch), true), end.value.value, added)
      ensures end.Some? && !end.value.Done? ==> Stopped(end.value.Threw?) && agent.told == old(agent.told)
    {
      hide Next, Reduce, Agent.Valid, Said, Awaiting, Fated, Sliced, Owing, OnAwaited;
      if agent.watch.Watch? {
        AwaitingGoes(agent.watch, added);
        AwaitReads(agent.watch, added);
      }
      var s := Race(Reading);
      how, aborted := s, agent.aborted;
      match s {
        case Resolved => end := None;
        case Pending => end := Some(Suspended);
        case Refused(isAbort) =>
          if agent.aborted && isAbort {
            var message := FinishAborted(partial, added);
            end := Some(Done(message));
          } else {
            end := Some(Threw);
          }
      }
    }

    /** Takes one event of the stream; the response ends with the terminal one.
        Its message stands when waiting for the result is cut short by an abort. */
    method TakeEvent(event: ProviderEvent, partial0: Option<AssistantMessage>)
      returns (end: Option<Outcome<AssistantMessage>>, partial: Option<AssistantMessage>, ghost how: Settling, ghost aborted: bool)
      requires Midway(partial0.Some?) && (agent.watch.Watch? ==> !agent.watch.cut)
      modifies this`context, this`strays, agent, agent.steeringQueue, agent.followUpQueue
      ensures Onward()
      ensures strays == old(strays) + (if event.StreamStart? && partial0.Some? then 1 else 0)
      ensures end.None? <==> !event.Terminal?
      ensures partial == match event {
                case StreamStart(p) => Some(p)
                case Delta(p) => if partial0.Some? then Some(p) else None
                case Terminal(_) => partial0
              }
      ensures !event.Terminal? ==>
                && Midway(partial.Some?)
                && |context| == |old(context)| + (if event.StreamStart? then 1 else 0)
                && agent.told == old(agent.told) + Telling(event, partial0)
                && (agent.watch.Watch? ==> agent.watch == Opened(old(agent.watch), partial.Some?))
      ensures event.Terminal? ==>
                && |agent.log| > |old(agent.log)| && agent.log[|old(agent.log)|] == Awaited(Closing, how, aborted)
                && (old(agent.aborted) ==> how == Refused(true) && aborted)
                && (end == Some(Suspended) <==> how.Pending?)
                && (end == Some(Threw) <==> Uncaught(Closing, how, aborted))
                && (how.Refused? && end.value.Done? ==> end.value.value == event.message)
      ensures end.Some? && end.value.Done? ==> Finished(old(agent.watch), end.value.value, partial0.Some?)
      ensures end.Some? && !end.value.Done? ==> Stopped(end.value.Threw?) && agent.told == old(agent.told)
    {
      hide Next, Reduce, Agent.Valid, Said, Awaiting, Fated, OnAwaited;
      end, partial, how, aborted := None, partial0, Pending, agent.aborted;
      match event {
        case StreamStart(p) => partial := Some(p); StartStream(p, partial0.Some?);
        case Delta(p) =>
          if partial.Some? {
            partial := Some(p);
            context := context[..|context| - 1] + [p];
            MessageGoesOn(agent.setup, agent.watch, p, context, agent.aborted);
            StaysOpened(agent.watch, true);
            Emit(MessageUpdate(p));
          } else {
            StaysOpened(agent.watch, false);
          }
        case Terminal(m) =>
          end, how, aborted := CloseStream(m, partial.Some?);
      }
    }

    /** The stream announces its start, and perhaps not for the first time. */
    method StartStream(p: AssistantMessage, added: bool)
      requires Midway(added) && (agent.watch.Watch? ==> !agent.watch.cut)
      modifies this`context, this`strays, agent, agent.steeringQueue, agent.followUpQueue
      ensures Onward() && Midway(true)
      ensures strays == old(strays) + (if added then 1 else 0)
      ensures context == old(context) + [p] && agent.told == old(agent.told) + [MessageStart(p)]
      ensures agent.watch.Watch? ==> agent.watch == Opened(old(agent.watch), true)
    {
      hide Next, Reduce, Agent.Valid, Awaiting, Opened, MayOpen;
      ghost var w := agent.watch;
      if added {
        strays := strays + 1;
        StreamReopens(agent.setup, w, p, context + [p], agent.aborted);
        BrokenStays(agent.setup, Emitted(MessageStart(p), context + [p], agent.aborted));
      } else {
        if w.Watch? {
          StreamOpens(w, false, p);
          OpenedAwaits(w);
        }
        MessageOpens(agent.setup, w, p, context + [p], agent.aborted);
        BrokenNotOpened(w);
      }
      context := context + [p];
      Emit(MessageStart(p));
    }

    /** The stream has announced its last message, and its result is awaited. */
    method CloseStream(m: AssistantMessage, added: bool)
      returns (end: Option<Outcome<AssistantMessage>>, ghost how: Settling, ghost aborted: bool)
      requires Midway(added) && (agent.watch.Watch? ==> !agent.watch.cut)
      modifies this`context, agent, agent.steeringQueue, agent.followUpQueue
      ensures Onward() && end.Some?
      ensures |agent.log| > |old(agent.log)| && agent.log[|old(agent.log)|] == Awaited(Closing, how, aborted)
      ensures old(agent.aborted) ==> how == Refused(true) && aborted
      ensures end == Some(Suspended) <==> how.Pending?
      ensures end == Some(Threw) <==> Uncaught(Closing, how, aborted)
      ensures how.Refused? && end.value.Done? ==> end.value.value == m
      ensures end.value.Done? ==> Finished(old(agent.watch), end.value.value, added)
      ensures !end.value.Done? ==> Stopped(end.value.Threw?) && agent.told == old(agent.told)
    {
      hide Next, Reduce, Agent.Valid, Said, Awaiting, Fated, OnAwaited;
      if agent.watch.Watch? {
        AwaitingGoes(agent.watch, added);
        AwaitCloses(agent.watch, added);
      }
      var last := m;
      var s := Race(Closing);
      how, aborted := s, agent.aborted;
      if s.Pending? {
        return Some(Suspended), how, aborted;
      } else if s.Resolved? {
        last := *;
      } else if !agent.aborted || !s.isAbort {
        return Some(Threw), how, aborted;
      }
      FinishMessage(last, added);
      end := Some(Done(last));
    }

    /** `stream` has been read since the monitor stood at `before`, the listeners had
        heard `story`, and there were `strays` and a context of `size` messages. */
    ghost predicate Streaming(before: Watch, story: seq<Event>, strays: nat, size: nat, stream: seq<ProviderEvent>)
      reads this, agent, agent.steeringQueue, agent.followUpQueue
    {
      var added := Partial(stream).Some?;
      && Midway(added) && (before.Watch? ==> !before.cut)
      && this.strays == strays + Repeats(stream) && |context| == size + Starts(stream)
      && agent.told == story + Narration(stream)
      && (agent.watch.Watch? ==> agent.watch == Opened(before, added))
    }

    /** So has it, and the response is over. */
    ghost predicate StreamEnded(before: Watch, story: seq<Event>, strays: nat, size: nat, stream: seq<ProviderEvent>,
                                r: Outcome<AssistantMessage>, cut: bool)
      reads this, agent, agent.steeringQueue, agent.followUpQueue
    {
      && this.strays == strays + Repeats(stream)
      && agent.told == story + Narration(stream) + (if r.Done? then FinalEvents(r.value, Partial(stream).Some?) else [])
      && (r.Done? ==> |context| == size + 1 + Repeats(stream))
      && (r.Done? && agent.watch.Watch? ==>
            agent.watch == Said(Cutting(before, cut), r.value) && context == agent.setup.initial + agent.watch.ended)
      && (cut ==> r == Done(AbortedMessage(Partial(stream))) && agent.aborted)
    }

    /** Reads the stream to its end, or to the first event or await that ends the response. */
    method ReadStream(steps: nat) returns (r: Outcome<AssistantMessage>, ghost stream: seq<ProviderEvent>, ghost cut: bool)
      requires Midway(false) && (agent.watch.Watch? ==> !agent.watch.cut)
      modifies this`context, this`strays, agent, agent.steeringQueue, agent.followUpQueue
      ensures Onward()
      ensures StreamEnded(old(agent.watch), old(agent.told), old(strays), |old(context)|, stream, r, cut)
      ensures !r.Done? ==> Stopped(r.Threw?)
    {
      hide Next, Reduce, Agent.Valid, Awaiting, OnAwaited, Narration, Starts, Partial, Repeats, Telling, Loop.Streaming, Loop.StreamEnded;
      ghost var before, story, stray, size := agent.watch, agent.told, strays, |context|;
      stream, cut := [], false;
      StreamBegins();
      var partial: Option<AssistantMessage> := None;
      var exhausted := false;
      var left := steps;
      while !exhausted
        invariant Onward() && Streaming(before, story, stray, size, stream) && partial == Partial(stream) && !cut
        decreases left, !exhausted
      {
        if left == 0 {
          YieldReading(before, story, stray, size, stream);
          return Suspended, stream, cut;
        }
        left := left - 1;
        var end;
        end, cut := AwaitMore(partial, before, story, stray, size, stream);
        if end.Some? {
          return end.value, stream, cut;
        }
        var event: Option<ProviderEvent> := *;
        match event {
          case None => exhausted := true;
          case Some(e) =>
            end, partial, stream := TakeOneEvent(e, partial, before, story, stray, size, stream);
            if end.Some? {
              return end.value, stream, cut;
            }
        }
      }
      var end;
      end, cut := AwaitMore(partial, before, story, stray, size, stream);
      if end.Some? {
        return end.value, stream, cut;
      }
      var message := FinishStream(partial, before, story, stray, size, stream);
      r := Done(message);
    }

    lemma StreamBegins()
      requires Midway(false) && (agent.watch.Watch? ==> !agent.watch.cut)
      ensures Streaming(agent.watch, agent.told, strays, |context|, []) && Partial([]) == None
    {
      hide Agent.Valid;
      StreamNothing(agent.told, agent.watch);
    }

    ghost method YieldReading(before: Watch, story: seq<Event>, stray: nat, size: nat, stream: seq<ProviderEvent>)
      requires Streaming(before, story, stray, size, stream)
      modifies agent`log, agent`watch, agent`ends, agent`told
      ensures Stopped(false) && StreamEnded(before, story, stray, size, stream, Suspended, false)
    {
      hide Next, Agent.Valid, Awaiting, Narration, Starts, Partial, Repeats;
      if agent.watch.Watch? {
        AwaitingGoes(agent.watch, Partial(stream).Some?);
      }
      Yield(0);
    }

    /** Waits for the stream. */
    method AwaitMore(partial: Option<AssistantMessage>, ghost before: Watch, ghost story: seq<Event>, ghost stray: nat, ghost size: nat,
                     ghost stream: seq<ProviderEvent>)
      returns (end: Option<Outcome<AssistantMessage>>, ghost cut: bool)
      requires Streaming(before, story, stray, size, stream) && partial == Partial(stream)
      modifies this`context, agent, agent.steeringQueue, agent.followUpQueue
      ensures Onward()
      ensures end.None? ==> Streaming(before, story, stray, size, stream) && !cut
      ensures end.Some? ==> StreamEnded(before, story, stray, size, stream, end.value, cut)
      ensures end.Some? && !end.value.Done? ==> Stopped(end.value.Threw?)
    {
      hide Next, Reduce, Agent.Valid, Said, Awaiting, Fated, OnAwaited, Cutting, Opened, Narration, Starts, Partial, Repeats, FinalEvents;
      RepeatsAre(stream);
      SaidOpened(before, partial.Some?, true);
      ghost var how, aborted;
      end, how, aborted := AwaitStream(partial, partial.Some?);
      cut := end.Some? && end.value.Done?;
    }

    /** Takes the next event of the stream. */
    method TakeOneEvent(e: ProviderEvent, partial0: Option<AssistantMessage>, ghost before: Watch, ghost story: seq<Event>, ghost stray: nat,
                        ghost size: nat, ghost stream0: seq<ProviderEvent>)
      returns (end: Option<Outcome<AssistantMessage>>, partial: Option<AssistantMessage>, ghost stream: seq<ProviderEvent>)
      requires Streaming(before, story, stray, size, stream0) && partial0 == Partial(stream0)
      modifies this`context, this`strays, agent, agent.steeringQueue, agent.followUpQueue
      ensures Onward()
      ensures end.None? ==> Streaming(before, story, stray, size, stream) && partial == Partial(stream)
      ensures end.None? ==> stream == stream0 + [e]
      ensures end.Some? ==> stream == stream0 && StreamEnded(before, story, stray, size, stream, end.value, false)
      ensures end.Some? && !end.value.Done? ==> Stopped(end.value.Threw?)
    {
      hide Next, Reduce, Agent.Valid, Said, Awaiting, Fated, OnAwaited, Cutting, Opened, Narration, Starts, Partial, Repeats, FinalEvents, Telling;
      StreamAppend(stream0, e);
      RepeatsAre(stream0);
      RepeatsAre(stream0 + [e]);
      SaidOpened(before, partial0.Some?, false);
      OpenedAgain(before, Partial(stream0 + [e]).Some?);
      assert story + Narration(stream0) + Telling(e, partial0) == story + (Narration(stream0) + Telling(e, partial0));
      ghost var how, aborted;
      end, partial, how, aborted := TakeEvent(e, partial0);
      if end.Some? && end.value.Done? {
        OpenedSaid(before, partial0.Some?, end.value.value);
      }
      stream := if end.None? then stream0 + [e] else stream0;
    }

    /** The stream has ended without a terminal event; its result is the message. */
    method FinishStream(partial: Option<AssistantMessage>, ghost before: Watch, ghost story: seq<Event>, ghost stray: nat,
                        ghost size: nat, ghost stream: seq<ProviderEvent>)
      returns (message: AssistantMessage)
      requires Streaming(before, story, stray, size, stream) && partial == Partial(stream)
      modifies this`context, agent, agent.steeringQueue, agent.followUpQueue
      ensures Onward() && StreamEnded(before, story, stray, size, stream, Done(message), false)
    {
      hide Next, Reduce, Agent.Valid, Said, Awaiting, Cutting, Opened, Narration, Starts, Partial, Repeats, FinalEvents;
      RepeatsAre(stream);
      SaidOpened(before, partial.Some?, false);
      message := *;
      OpenedSaid(before, partial.Some?, message);
      FinishMessage(message, partial.Some?);
    }

    /** Asks the provider for the next message. Whatever happens at whichever
        await, a message that comes back was added to the transcript once, with
        one start and one end, unless the stream announced its start repeatedly:
        then each extra start leaves one more message in the context. A response
        that an abort cuts short keeps what had been streamed. */
    method StreamAssistantResponse(steps: nat)
      returns (r: Outcome<AssistantMessage>, ghost called: bool, ghost stream: seq<ProviderEvent>, ghost cut: bool)
      requires Good() && InStep() && (agent.watch.Watch? ==> MayCall(agent.setup, agent.watch))
      modifies this`context, this`strays, agent, agent.steeringQueue, agent.followUpQueue
      ensures Onward()
      ensures StreamEnded(Consulted(old(agent.watch), called), old(agent.told), old(strays), |old(context)|, stream, r, cut)
      ensures !called ==> stream == [] && (r.Done? ==> r.value == AbortedMessage(None))
      ensures old(agent.aborted) ==> r.Done? && !called
      ensures !r.Done? ==> Stopped(r.Threw?)
    {
      hide Next, Reduce, Agent.Valid, Awaiting, OnAwaited, MayCall, Said, Loop.StreamEnded;
      ghost var before := agent.watch;
      called, stream, cut := false, [], false;
      if before.Watch? {
        CallAwaits(agent.setup, before);
      }
      if agent.aborted {
        var message := FinishAborted(None, false);
        EndsEarly(before, old(agent.told), old(strays), |old(context)|, Done(message), false);
        return Done(message), called, stream, cut;
      }
      var end;
      end, cut := PrepareCall();
      if end.Some? {
        EndsEarly(before, old(agent.told), old(strays), |old(context)|, end.value, cut);
        return end.value, called, stream, cut;
      }
      CallProvider();
      called := true;
      end, cut := OpenStream();
      if end.Some? {
        EndsEarly(Consulted(before, true), old(agent.told), old(strays), |old(context)|, end.value, cut);
        return end.value, called, stream, cut;
      }
      r, stream, cut := ReadStream(steps);
    }

    /** What is awaited before the provider is called. */
    method PrepareCall() returns (end: Option<Outcome<AssistantMessage>>, ghost cut: bool)
      requires Midway(false) && (agent.watch.Watch? ==> !agent.watch.cut)
      modifies this`context, agent, agent.steeringQueue, agent.followUpQueue
      ensures Onward()
      ensures old(agent.log) <= agent.log
      ensures end.None? ==> Midway(false) && context == old(context) && agent.told == old(agent.told) && !cut
      ensures end.None? && agent.watch.Watch? ==> agent.watch == old(agent.watch)
      ensures end.Some? && end.value.Done? ==> cut && agent.aborted && end.value.value == AbortedMessage(None)
                                               && Finished(Cutting(old(agent.watch), true), end.value.value, false)
      ensures end.Some? && !end.value.Done? ==> !cut && Stopped(end.value.Threw?) && agent.told == old(agent.told)
    {
      hide Next, Reduce, Agent.Valid, Awaiting, OnAwaited, Said, Cutting;
      end, cut := None, false;
      var awaits := (if config.transforms then 1 else 0) + 1 + (if config.resolvesKey then 1 else 0);
      while awaits > 0
        invariant Onward() && Midway(false) && context == old(context) && agent.told == old(agent.told)
        invariant end.None? && !cut && old(agent.log) <= agent.log
        invariant agent.watch.Watch? ==> agent.watch == old(agent.watch)
      {
        end, cut := OpenStream();
        if end.Some? {
          return;
        }
        awaits := awaits - 1;
      }
    }

    /** One await before anything is streamed. */
    method OpenStream() returns (end: Option<Outcome<AssistantMessage>>, ghost cut: bool)
      requires Midway(false) && (agent.watch.Watch? ==> !agent.watch.cut)
      modifies this`context, agent, agent.steeringQueue, agent.followUpQueue
      ensures Onward()
      ensures old(agent.log) <= agent.log
      ensures end.None? ==> Midway(false) && context == old(context) && agent.told == old(agent.told) && !cut
      ensures end.None? && agent.watch.Watch? ==> agent.watch == old(agent.watch)
      ensures end.Some? && end.value.Done? ==> cut && agent.aborted && end.value.value == AbortedMessage(None)
                                               && Finished(Cutting(old(agent.watch), true), end.value.value, false)
      ensures end.Some? && !end.value.Done? ==> !cut && Stopped(end.value.Threw?) && agent.told == old(agent.told)
    {
      hide Next, Reduce, Agent.Valid, Awaiting, OnAwaited, Said, Cutting;
      ghost var how, aborted;
      end, how, aborted := AwaitStream(None, false);
      cut := end.Some? && end.value.Done?;
    }

    /** The provider is called with the transcript as it is. */
    ghost method CallProvider()
      requires Midway(false) && (agent.watch.Watch? ==> MayCall(agent.setup, agent.watch))
      modifies agent`log, agent`watch, agent`ends, agent`told
      ensures Onward() && Midway(false) && agent.told == old(agent.told)
      ensures agent.log == old(agent.log) + [Called(context)]
      ensures agent.watch.Watch? ==> agent.watch == Consulted(old(agent.watch), true) && !agent.watch.cut
    {
      hide Next, Agent.Valid, Awaiting, MayCall, Consulted;
      if agent.watch.Watch? {
        CallConsults(agent.setup, agent.watch, context);
      }
      Note(Called(context));
    }

    lemma EndsEarly(before: Watch, story: seq<Event>, stray: nat, size: nat, r: Outcome<AssistantMessage>, cut: bool)
      requires strays == stray
      requires agent.told == story + (if r.Done? then FinalEvents(r.value, false) else [])
      requires r.Done? ==> |context| == size + 1
      requires r.Done? && agent.watch.Watch? ==> agent.watch == Said(Cutting(before, cut), r.value) && context == agent.setup.initial + agent.watch.ended
      requires cut ==> r == Done(AbortedMessage(None)) && agent.aborted
      ensures StreamEnded(before, story, stray, size, [], r, cut)
    {
      hide Said, Cutting, FinalEvents;
      assert story + [] == story;
    }

    // ----- Tool calls

    /** Runs calls under whatever schedule the environment produces; the listeners hear its trace. */
    method DriveBatch(calls: seq<ToolCall>, steps: nat) returns (r: Outcome<seq<Finalized>>, ghost schedule: seq<Choice>)
      requires Good() && (agent.watch.Watch? ==> Working(agent.watch, calls))
      modifies agent, agent.steeringQueue, agent.followUpQueue
      ensures Onward() && !r.Threw?
      ensures r.Done? ==>
                && Complete(Run(Job(config.hooks, calls), schedule))
                && r.value == Results(Run(Job(config.hooks, calls), schedule))
                && (agent.watch.Watch? ==> agent.watch == Worked(old(agent.watch), r.value))
      ensures agent.told == old(agent.told) + TraceEvents(calls, Run(Job(config.hooks, calls), schedule).trace)
      ensures old(agent.aborted) && schedule != [] ==> schedule[0].Abort?
      ensures Run(Job(config.hooks, calls), schedule).aborted ==> agent.aborted
      ensures !r.Done? ==> Stopped(false)
    {
      hide Reduce, StepSlot, MayMove, Bag, Next, Worked, Results, Working, AtWork, Agent.Valid, TraceEvents;
      var job := Job(config.hooks, calls);
      var b := Init(job);
      schedule := [];
      if agent.watch.Watch? {
        WorkingStarts(agent.watch, job);
      }
      TraceEmpty(old(agent.told), calls);
      var left := steps;
      while !Complete(b)
        invariant Onward() && b == Run(job, schedule) && |b.slots| == |calls|
        invariant agent.watch.Watch? ==> agent.watch == AtWork(old(agent.watch), calls, b.slots)
        invariant agent.told == old(agent.told) + TraceEvents(calls, b.trace)
        invariant old(agent.aborted) && schedule != [] ==> schedule[0].Abort?
        invariant (b.aborted ==> agent.aborted) && (schedule == [] ==> !b.aborted)
        decreases left
      {
        if left == 0 {
          YieldWorking(old(agent.watch), calls, b.slots);
          return Suspended, schedule;
        }
        left := left - 1;
        b, schedule := AwaitBatch(old(agent.watch), job, b, old(agent.told), schedule);
      }
      r := Done(Results(b));
      if old(agent.watch).Watch? {
        WorkingCalm(old(agent.watch), calls);
      }
      FinishWorking(old(agent.watch), calls, b);
    }

    ghost method YieldWorking(before: Watch, calls: seq<ToolCall>, slots: seq<Slot>)
      requires Good() && |slots| <= |calls| && (before.Watch? ==> Working(before, calls))
      requires agent.watch.Watch? ==> before.Watch? && agent.watch == AtWork(before, calls, slots)
      modifies agent`log, agent`watch, agent`ends, agent`told
      ensures Stopped(false) && agent.told == old(agent.told)
    {
      hide Next, Agent.Valid, Working, Bag;
      if before.Watch? {
        WorkingCalm(before, calls);
      }
      Yield(0);
    }

    /** One await of a batch, of whichever call; the host may act and abort before it. */
    method AwaitBatch(ghost before: Watch, job: Job, b0: Progress, ghost story: seq<Event>, ghost schedule0: seq<Choice>)
      returns (b: Progress, ghost schedule: seq<Choice>)
      requires Good() && |b0.slots| == |job.calls| && b0 == Run(job, schedule0) && (b0.aborted ==> agent.aborted)
      requires before.Watch? ==> Working(before, job.calls)
      requires agent.watch.Watch? ==> agent.watch == AtWork(before, job.calls, b0.slots)
      requires agent.told == story + TraceEvents(job.calls, b0.trace)
      modifies agent, agent.steeringQueue, agent.followUpQueue
      ensures Onward() && |b.slots| == |job.calls| && b == Run(job, schedule)
      ensures schedule0 < schedule && (old(agent.aborted) && !b0.aborted ==> schedule[|schedule0|].Abort?)
      ensures b.aborted ==> agent.aborted
      ensures agent.told == story + TraceEvents(job.calls, b.trace)
      ensures agent.watch.Watch? ==> agent.watch == AtWork(before, job.calls, b.slots)
    {
      hide Reduce, StepSlot, MayMove, Bag, Next, Agent.Valid, Working, Busy, Run, TraceEvents;
      agent.HostActs();
      b, schedule := b0, schedule0;
      if agent.aborted && !b.aborted {
        b := b.(aborted := true);
        RunAppend(job, schedule, Choice.Abort);
        schedule := schedule + [Choice.Abort];
      }
      var i: nat, move: Move := *, *;
      var s := Attempt(job, b, i, move);
      RunAppend(job, schedule, Advance(i, move));
      schedule := schedule + [Advance(i, move)];
      if s.Some? {
        StepAtWork(before, agent.setup, agent.watch, job, b, i, move, context, agent.aborted);
        if s.value.signals != [] {
          TraceAppend(job.calls, b.trace, i, s.value.signals);
          Emit(SignalEvent(job.calls[i], s.value.signals[0]));
        } else {
          TraceNothing(job.calls, b.trace, i);
        }
      }
      b := Step(job, b, Advance(i, move));
    }

    /** Announces one tool result. */
    method EmitToolResult(f: Finalized)
      requires Good()
      requires agent.watch.Watch? ==> MayOpen(agent.watch, ResultMessage(f))
      modifies agent, agent.steeringQueue, agent.followUpQueue
      ensures Onward() && agent.told == old(agent.told) + Announcement(f)
      ensures agent.watch.Watch? ==> agent.watch == Said(old(agent.watch), ResultMessage(f))
    {
      hide Reduce, Next, Agent.Valid, Said, Opened;
      ghost var w, m := agent.watch, ResultMessage(f);
      MessageOpens(agent.setup, w, m, context, agent.aborted);
      BrokenNotOpened(w);
      Emit(MessageStart(ResultMessage(f)));
      MessageCloses(agent.setup, w, m, context, agent.aborted);
      SaidAppends(agent.setup.initial, w, m);
      Emit(MessageEnd(ResultMessage(f)));
    }

    /** One call after the other; an abort cuts the batch short. */
    method ExecuteToolCallsSequential(calls: seq<ToolCall>, steps: nat)
      returns (r: Outcome<Executed>, ghost fs: seq<Finalized>, ghost runs: seq<seq<Choice>>)
      requires Good() && (agent.watch.Watch? ==> Working(agent.watch, calls) && agent.watch.settled < |agent.watch.ended|)
      modifies agent, agent.steeringQueue, agent.followUpQueue
      ensures Onward() && !r.Threw?
      ensures r.Done? ==>
                && r.value == Executed(ResultMessages(fs), Terminates(fs))
                && OneByOne(config.hooks, calls, runs, fs)
                && agent.told == old(agent.told) + SequentialStory(config.hooks, calls, runs, fs)
                && (forall k | 0 <= k < |fs| :: fs[k].call == calls[k])
                && (|fs| < |calls| ==> agent.aborted)
                && (old(agent.aborted) ==> fs == [])
                && (agent.watch.Watch? ==> agent.watch == Batched(old(agent.watch), fs))
      ensures !r.Done? ==> Stopped(false)
    {
      hide Reduce, Next, Run, Agent.Valid, Results, Complete, Batched, Working, SequentialStory, TraceEvents, ResultMessages, Terminates;
      var finalized: seq<Finalized> := [];
      fs, runs := finalized, [];
      var messages: seq<Message> := [];
      ghost var before := agent.watch;
      BatchBegins(before, old(agent.told), config.hooks, calls);
      for i := 0 to |calls|
        invariant Onward() && |finalized| == i && messages == ResultMessages(finalized)
        invariant OneByOne(config.hooks, calls, runs, finalized)
        invariant agent.told == old(agent.told) + SequentialStory(config.hooks, calls, runs, finalized)
        invariant forall k | 0 <= k < i :: finalized[k].call == calls[k]
        invariant agent.watch.Watch? ==> before.Watch? && agent.watch == Batched(before, finalized)
        invariant i > 0 ==> !old(agent.aborted)
      {
        if agent.aborted {
          break;
        }
        var one, run := ExecuteOne(before, calls, i, old(agent.told), finalized, runs, steps);
        if one.None? {
          return Suspended, fs, runs;
        }
        ResultMessagesMore(finalized, one.value);
        finalized, runs := finalized + [one.value], runs + [run];
        messages := messages + [ResultMessage(one.value)];
        if agent.aborted {
          break;
        }
      }
      fs := finalized;
      r := Done(Executed(messages, Terminates(finalized)));
    }

    /** Executes and announces one call of a sequential batch; None when it waits. */
    method ExecuteOne(ghost before: Watch, calls: seq<ToolCall>, i: nat, ghost story: seq<Event>, ghost fs: seq<Finalized>,
                      ghost runs: seq<seq<Choice>>, steps: nat)
      returns (f: Option<Finalized>, ghost run: seq<Choice>)
      requires Good() && i < |calls| && |fs| == i && OneByOne(config.hooks, calls, runs, fs)
      requires agent.watch.Watch? ==>
                 before.Watch? && Working(before, calls) && before.settled < |before.ended| && agent.watch == Batched(before, fs)
      requires agent.told == story + SequentialStory(config.hooks, calls, runs, fs)
      modifies agent, agent.steeringQueue, agent.followUpQueue
      ensures Onward()
      ensures f.None? ==> Stopped(false)
      ensures f.Some? ==>
                && f.value.call == calls[i] && OneByOne(config.hooks, calls, runs + [run], fs + [f.value])
                && agent.told == story + SequentialStory(config.hooks, calls, runs + [run], fs + [f.value])
                && (agent.watch.Watch? ==> agent.watch == Batched(before, fs + [f.value]))
    {
      hide Reduce, Next, Run, Agent.Valid, Results, Complete, Batched, Working, SequentialStory, TraceEvents, Worked, Said, Announcement;
      if agent.watch.Watch? {
        BatchedWorks(before, fs, calls, i);
      }
      var one, schedule := DriveBatch([calls[i]], steps);
      run := schedule;
      if !one.Done? {
        return None, run;
      }
      ResultsOf(Job(config.hooks, [calls[i]]), schedule);
      var g := one.value[0];
      assert one.value == [g];
      if agent.watch.Watch? {
        WorkedOpens(Batched(before, fs), [calls[i]], [g]);
        WorkingCalm(before, calls);
        BatchedMore(before, fs, g);
      }
      SequentialStoryMore(config.hooks, calls, runs, fs, run, g);
      EmitToolResult(g);
      StoryJoins(story, SequentialStory(config.hooks, calls, runs, fs), TraceEvents([calls[i]], Solo(config.hooks, calls[i], run).trace), Announcement(g));
      f := Some(g);
    }

    /** All calls at once; the results are announced in the order of the calls. */
    method ExecuteToolCallsParallel(calls: seq<ToolCall>, steps: nat)
      returns (r: Outcome<Executed>, ghost fs: seq<Finalized>, ghost runs: seq<seq<Choice>>)
      requires Good() && (agent.watch.Watch? ==> Working(agent.watch, calls) && agent.watch.settled < |agent.watch.ended|)
      modifies agent, agent.steeringQueue, agent.followUpQueue
      ensures Onward() && !r.Threw?
      ensures r.Done? ==>
                && r.value == Executed(ResultMessages(fs), Terminates(fs))
                && AllAtOnce(config.hooks, calls, runs, fs)
                && agent.told == old(agent.told) + TraceEvents(calls, Run(Job(config.hooks, calls), runs[0]).trace) + Announcements(fs)
                && |fs| == |calls| && (forall k | 0 <= k < |fs| :: fs[k].call == calls[k])
                && (agent.watch.Watch? ==> agent.watch == Batched(old(agent.watch), fs))
      ensures !r.Done? ==> Stopped(false)
    {
      hide Reduce, Next, Run, Agent.Valid, Results, Complete, Working, TraceEvents, Worked, Said, Announcement, Announcements, Terminates, ResultMessages;
      fs, runs := [], [];
      var all, schedule := DriveBatch(calls, steps);
      if !all.Done? {
        return Suspended, fs, runs;
      }
      ResultsOf(Job(config.hooks, calls), schedule);
      fs, runs := all.value, [schedule];
      var messages := AnnounceAll(calls, old(agent.watch), all.value);
      r := Done(Executed(messages, Terminates(all.value)));
    }

    method AnnounceAll(ghost calls: seq<ToolCall>, ghost before: Watch, fs: seq<Finalized>) returns (messages: seq<Message>)
      requires Good()
      requires agent.watch.Watch? ==>
                 before.Watch? && Working(before, calls) && before.settled < |before.ended| && agent.watch == Worked(before, fs)
      modifies agent, agent.steeringQueue, agent.followUpQueue
      ensures Onward() && messages == ResultMessages(fs) && agent.told == old(agent.told) + Announcements(fs)
      ensures agent.watch.Watch? ==> agent.watch == Batched(before, fs)
    {
      hide Reduce, Next, Agent.Valid, Working, Worked, Said, SaidAll, Announcement, Announcements, ResultMessages;
      messages := [];
      ghost var worked, story := agent.watch, agent.told;
      SaidNone(worked, fs);
      AnnouncedNone(story, fs);
      for i := 0 to |fs|
        invariant Onward() && messages == ResultMessages(fs[..i]) && agent.told == story + Announcements(fs[..i])
        invariant agent.watch.Watch? ==> worked.Watch? && agent.watch == SaidAll(worked, ResultMessages(fs[..i]))
      {
        if agent.watch.Watch? {
          AnnouncingOpens(before, calls, fs, i);
        }
        SaidMore(worked, fs, i);
        AnnouncementsMore(fs, i);
        EmitToolResult(fs[i]);
        StoryGrows(story, Announcements(fs[..i]), Announcement(fs[i]));
        messages := messages + [ResultMessage(fs[i])];
      }
      assert fs[..|fs|] == fs;
    }

    /** Answers the calls of the turn's message: one by one when the configuration or one of the tools wants it so. */
    method ExecuteToolCalls(message: AssistantMessage, steps: nat)
      returns (r: Outcome<Executed>, ghost fs: seq<Finalized>, ghost runs: seq<seq<Choice>>)
      requires Good()
      requires agent.watch.Watch? ==>
                 && agent.watch.stage.InTurn? && Calm(agent.watch) && agent.watch.waiting == []
                 && |agent.watch.ended| == agent.watch.settled + 1 && agent.watch.ended[agent.watch.settled] == message
      modifies agent, agent.steeringQueue, agent.followUpQueue
      ensures Onward() && !r.Threw?
      ensures r.Done? ==>
                && r.value == Executed(ResultMessages(fs), Terminates(fs))
                && Executes(config, CallsOf(message), runs, fs)
                && agent.told == old(agent.told) + BatchStory(config, CallsOf(message), runs, fs)
                && (!agent.aborted ==> Answers(r.value.messages, CallsOf(message)))
                && (agent.watch.Watch? ==> agent.watch == Batched(old(agent.watch), fs))
      ensures !r.Done? ==> Stopped(false)
    {
      hide Reduce, Next, Run, Agent.Valid, Batched, TraceEvents, SequentialStory, Announcements, Terminates, Results, Complete;
      var calls := CallsIn(message.content);
      if config.sequential || (exists c <- calls :: c.name in config.sequentialTools) {
        r, fs, runs := ExecuteToolCallsSequential(calls, steps);
      } else {
        r, fs, runs := ExecuteToolCallsParallel(calls, steps);
        if r.Done? {
          StoryGrows(old(agent.told), TraceEvents(calls, Run(Job(config.hooks, calls), runs[0]).trace), Announcements(fs));
        }
      }
    }

    // ----- Turns

    /** Between turns, or before the first turn's message: `waiting` are the inputs taken
        but not yet in the transcript, `more` says that the tools want another turn. */
    ghost predicate Between(first: bool, turnIndex: nat, reflexes: nat, more: bool, waiting: seq<Message>, routed: Option<Option<ToolCall>>)
      reads this, agent, agent.steeringQueue, agent.followUpQueue
    {
      && Good() && InStep()
      && (agent.watch.Watch? ==>
            Rests(agent.watch, first, turnIndex, reflexes, more, waiting, routed) && (agent.watch.unanswered ==> agent.aborted))
    }

    /** A turn may begin, as far as what is owed goes. */
    ghost predicate MayTurn()
      reads agent
    {
      agent.watch.Watch? ==> MayBegin(agent.watch) && !agent.watch.mayStop
    }

    /** A turn is open and the model has said nothing in it; `waiting` are the inputs still to come. */
    ghost predicate TurnOpen(turnIndex: nat, reflexes: nat, waiting: seq<Message>, routed: Option<Option<ToolCall>>)
      reads this, agent, agent.steeringQueue, agent.followUpQueue
    {
      && Good() && InStep() && Answered()
      && (agent.watch.Watch? ==>
            && TurnOpens(agent.watch, turnIndex, reflexes, waiting, routed)
            && (ToRoute(agent.setup, agent.watch) ==> routed.Some?))
    }

    /** A turn is open, and `message` is all that the model has said in it. */
    ghost predicate Speaking(message: AssistantMessage, turnIndex: nat, reflexes: nat, asked: bool)
      reads this, agent, agent.steeringQueue, agent.followUpQueue
    {
      && Good() && InStep() && Answered()
      && (agent.watch.Watch? ==> Speaks(agent.watch, message, turnIndex, reflexes, asked))
    }

    /** No turn has ended without answering its calls. */
    ghost predicate Answered()
      reads agent
    {
      agent.watch.Watch? ==> !agent.watch.unanswered
    }

    /** Whether the provider was called in the run, and whether steering came in since, is as before. */
    twostate predicate Alike()
      reads agent
    {
      agent.watch.Watch? ==> old(agent.watch).Watch? && agent.watch.spoke == old(agent.watch).spoke && agent.watch.steered == old(agent.watch).steered
    }

    method EmitEnd()
      requires Good() && InStep()
      requires agent.watch.Watch? ==> CanEnd(agent.watch, agent.aborted)
      modifies agent, agent.steeringQueue, agent.followUpQueue
      ensures Ended() && agent.told == old(agent.told) + [AgentEnd(newMessages)]
    {
      hide Next, Reduce, Agent.Valid, CanEnd;
      if agent.watch.Watch? {
        EndOver(agent.setup, agent.watch, newMessages, context, agent.aborted);
      } else {
        BrokenStays(agent.setup, Emitted(AgentEnd(newMessages), context, agent.aborted));
      }
      NextGrows(agent.setup, agent.watch, Emitted(AgentEnd(newMessages), context, agent.aborted));
      agent.ProcessEvents(AgentEnd(newMessages), context);
    }

    /** How a turn leaves the run: ended, or going on. */
    method CloseTurn(message: AssistantMessage, results: seq<Message>)
      requires Good() && InStep()
      requires agent.watch.Watch? ==> MayClose(agent.setup, agent.watch, message, results, context)
      modifies agent, agent.steeringQueue, agent.followUpQueue
      ensures Onward() && InStep() && agent.told == old(agent.told) + [TurnEnd(message, results)]
      ensures agent.watch.Watch? ==>
                && old(agent.watch).Watch?
                && agent.watch == OnTurnEnd(agent.setup, old(agent.watch), message, results, context, old(agent.aborted))
    {
      hide Next, Reduce, Agent.Valid, MayClose, OnTurnEnd;
      if agent.watch.Watch? {
        TurnCloses(agent.setup, agent.watch, message, results, context, agent.aborted);
      } else {
        BrokenStays(agent.setup, Emitted(TurnEnd(message, results), context, agent.aborted));
      }
      Emit(TurnEnd(message, results));
    }

    /** Answers the calls of a turn's message, if any, and ends the turn; true
        when the tools want another turn. */
    method FinishTurn(message: AssistantMessage, ghost turnIndex: nat, ghost reflexes: nat, ghost asked: bool, steps: nat)
      returns (r: Outcome<bool>, ghost fs: seq<Finalized>, ghost runs: seq<seq<Choice>>)
      requires Speaking(message, turnIndex, reflexes, asked) && !HasFailed(message)
      modifies this`context, this`newMessages, agent, agent.steeringQueue, agent.followUpQueue
      ensures Onward() && !r.Threw?
      ensures r.Done? ==>
                && Between(false, turnIndex + 1, reflexes, r.value, [], None) && Alike()
                && (agent.watch.Watch? ==>
                      && !agent.watch.mayStop
                      && (agent.watch.duty == (if asked then AskAfter else AfterReflex) || (agent.aborted && agent.watch.duty.CutShort?)))
                && (r.value <==> CallsOf(message) != [] && !Terminates(fs))
                && (if CallsOf(message) == [] then fs == [] else Executes(config, CallsOf(message), runs, fs))
                && agent.told == old(agent.told)
                                 + (if CallsOf(message) == [] then [] else BatchStory(config, CallsOf(message), runs, fs))
                                 + [TurnEnd(message, ResultMessages(fs))]
      ensures !r.Done? ==> Stopped(false)
    {
      hide Next, Reduce, Agent.Valid, Answers, CallsIn, OnTurnEnd, Rests, MayClose, Batched, BatchStory, Executes, Terminates, ResultMessages;
      var results: seq<Message> := [];
      var hasMore := false;
      fs, runs := [], [];
      ghost var spoken := agent.watch;
      if CallsIn(message.content) != [] {
        var batch;
        batch, fs, runs := ExecuteToolCalls(message, steps);
        if !batch.Done? {
          return Suspended, fs, runs;
        }
        results := batch.value.messages;
        hasMore := !batch.value.terminate;
        context := context + results;
        newMessages := newMessages + results;
      } else {
        BatchedNone(spoken);
        NoCallsNoAnswers(CallsOf(message));
        NothingTold(agent.told);
      }
      ghost var closing, aborted := agent.watch, agent.aborted;
      if closing.Watch? {
        SpokenCloses(agent.setup, spoken, message, turnIndex, reflexes, asked, fs, context);
        ClosedRests(agent.setup, closing, spoken, message, fs, context, turnIndex, reflexes, asked, agent.aborted);
      }
      CloseTurn(message, results);
      r := Done(hasMore);
    }

    method StartTurn(first: bool, ghost turnIndex: nat, ghost reflexes: nat, ghost more: bool, ghost waiting: seq<Message>,
                     ghost routed: Option<Option<ToolCall>>)
      requires Between(first, turnIndex, reflexes, more, waiting, routed) && (more || waiting != []) && Answered() && MayTurn()
      requires agent.aborted ==> first || routed.Some?
      requires agent.watch.Watch? && ToRoute(agent.setup, agent.watch) ==> routed.Some?
      modifies agent, agent.steeringQueue, agent.followUpQueue
      ensures Onward() && TurnOpen(turnIndex, reflexes, waiting, routed) && Alike()
      ensures agent.told == old(agent.told) + (if first then [] else [TurnStart])
    {
      hide Next, Reduce, Agent.Valid, Rests, TurnOpens, MayBegin;
      if first {
        if agent.watch.Watch? {
          FirstIsFirst(agent.watch, turnIndex, reflexes, more, waiting, routed);
          RestsOpens(agent.watch, reflexes, waiting, routed);
        }
        NothingTold(agent.told);
      } else {
        if agent.watch.Watch? {
          StartOpens(agent.setup, agent.watch, turnIndex, reflexes, more, waiting, routed, context, agent.aborted);
          RoutesStay(agent.setup, agent.watch, turnIndex, reflexes, more, waiting, routed, context, agent.aborted);
        } else {
          BrokenStays(agent.setup, Emitted(TurnStart, context, agent.aborted));
        }
        Emit(TurnStart);
      }
    }

    method AnnounceReflex(first: bool, turnIndex: nat, reflexes: nat, ghost call: ToolCall, toolName: string)
      requires Between(first, turnIndex, reflexes, true, [], Some(Some(call))) && MayTurn() && Answered()
      requires reflexes < config.maxReflexes && toolName == call.name
      modifies agent, agent.steeringQueue, agent.followUpQueue
      ensures Onward() && Between(first, turnIndex, reflexes + 1, true, [], Some(Some(call))) && MayTurn() && Answered() && Alike()
      ensures agent.told == old(agent.told) + [Reflex(toolName, turnIndex, reflexes + 1)]
    {
      hide Next, Reduce, Agent.Valid, Rests, MayBegin;
      if agent.watch.Watch? {
        ReflexRests(agent.setup, agent.watch, first, turnIndex, reflexes, call, context, agent.aborted);
      } else {
        BrokenStays(agent.setup, Emitted(Reflex(toolName, turnIndex, reflexes + 1), context, agent.aborted));
      }
      Emit(Reflex(toolName, turnIndex, reflexes + 1));
    }

    /** Says the message of a reflex at once and appends it to the transcripts. */
    method Say(message: AssistantMessage, ghost turnIndex: nat, ghost reflexes: nat, ghost call: ToolCall)
      requires TurnOpen(turnIndex, reflexes, [], Some(Some(call))) && message == ReflexMessage(call)
      modifies this`context, this`newMessages, agent, agent.steeringQueue, agent.followUpQueue
      ensures Onward() && Speaking(message, turnIndex, reflexes, false) && Alike()
      ensures agent.told == old(agent.told) + FinalEvents(message, false)
    {
      hide Next, Reduce, Agent.Valid, TurnOpens, Said, Opened, MayOpen, Speaks;
      ghost var w := agent.watch;
      if w.Watch? {
        ReflexOpens(w, turnIndex, reflexes, call);
        ReflexSpeaks(w, turnIndex, reflexes, call);
      }
      SaidAppends(agent.setup.initial, w, message);
      BrokenNotOpened(w);
      MessageOpens(agent.setup, w, message, context, agent.aborted);
      Emit(MessageStart(message));
      MessageCloses(agent.setup, w, message, context, agent.aborted);
      Emit(MessageEnd(message));
      context := context + [message];
      newMessages := newMessages + [message];
    }

    /** A turn that the router answers without the provider; None when the run ended with it. */
    method ReflexTurn(first: bool, turnIndex: nat, reflexes: nat, call: ToolCall, steps: nat) returns (r: Outcome<Option<bool>>)
      requires Between(first, turnIndex, reflexes, true, [], Some(Some(call))) && MayTurn() && Answered()
      requires reflexes < config.maxReflexes
      modifies this`context, this`newMessages, agent, agent.steeringQueue, agent.followUpQueue
      ensures !r.Threw?
      ensures r == Done(None) ==> Ended() && agent.aborted
      ensures r.Done? && r.value.Some? ==>
                && Onward() && Between(false, turnIndex + 1, reflexes + 1, r.value.value, [], None) && Alike()
                && (agent.watch.Watch? ==> agent.watch.duty.AfterReflex? && !agent.watch.mayStop)
      ensures !r.Done? ==> Stopped(false)
    {
      hide Next, Reduce, Agent.Valid, Rests, MayBegin, TurnOpens, Speaks, CanEnd;
      AnnounceReflex(first, turnIndex, reflexes, call, call.name);
      StartTurn(first, turnIndex, reflexes + 1, true, [], Some(Some(call)));
      var message := Assistant([Call(call)], ToolUse, None);
      Say(message, turnIndex, reflexes + 1, call);
      var hasMore, fs, runs := FinishTurn(message, turnIndex, reflexes + 1, false, steps);
      if !hasMore.Done? {
        return Suspended;
      }
      if agent.aborted {
        if agent.watch.Watch? {
          TurnCanEnd(agent.watch, turnIndex + 1, reflexes + 1, hasMore.value);
        }
        EmitEnd();
        return Done(None);
      }
      return Done(Some(hasMore.value));
    }

    // ----- A provider turn

    /** Announces the inputs taken for this turn and appends them, in order. */
    method TakeIn(pending: seq<Message>, ghost turnIndex: nat, ghost reflexes: nat, ghost routed: Option<Option<ToolCall>>)
      requires TurnOpen(turnIndex, reflexes, pending, routed)
      modifies this`context, this`newMessages, agent, agent.steeringQueue, agent.followUpQueue
      ensures Onward() && TurnOpen(turnIndex, reflexes, [], routed) && Alike()
    {
      hide Next, Reduce, Agent.Valid, TurnOpens;
      assert pending[0..] == pending;
      for i := 0 to |pending|
        invariant Onward() && TurnOpen(turnIndex, reflexes, pending[i..], routed) && Alike()
      {
        assert pending[i..] == [pending[i]] + pending[i + 1..];
        TakeOne(pending[i], pending[i + 1..], turnIndex, reflexes, routed);
      }
    }

    method TakeOne(message: Message, ghost rest: seq<Message>, ghost turnIndex: nat, ghost reflexes: nat, ghost routed: Option<Option<ToolCall>>)
      requires TurnOpen(turnIndex, reflexes, [message] + rest, routed)
      modifies this`context, this`newMessages, agent, agent.steeringQueue, agent.followUpQueue
      ensures Onward() && TurnOpen(turnIndex, reflexes, rest, routed) && Alike()
      ensures agent.told == old(agent.told) + [MessageStart(message), MessageEnd(message)]
    {
      hide Next, Reduce, Agent.Valid, TurnOpens, Opened;
      ghost var w := agent.watch;
      BrokenNotOpened(w);
      if w.Watch? {
        InputTaken(agent.setup, w, turnIndex, reflexes, message, rest, routed, context, agent.aborted);
      } else {
        BrokenStays(agent.setup, Emitted(MessageStart(message), context, agent.aborted));
      }
      Emit(MessageStart(message));
      if w.Watch? {
        InputEnds(agent.setup, w, turnIndex, reflexes, message, rest, routed, context, agent.aborted);
      } else {
        BrokenStays(agent.setup, Emitted(MessageEnd(message), context, agent.aborted));
      }
      Emit(MessageEnd(message));
      context := context + [message];
      newMessages := newMessages + [message];
    }

    /** Ends the run with a turn whose message failed. */
    method FailTurn(message: AssistantMessage)
      requires Good() && InStep() && HasFailed(message)
      requires agent.watch.Watch? ==> MayClose(agent.setup, agent.watch, message, [], context)
      modifies agent, agent.steeringQueue, agent.followUpQueue
      ensures Ended() && agent.told == old(agent.told) + [TurnEnd(message, []), AgentEnd(newMessages)]
    {
      hide Next, Reduce, Agent.Valid, OnTurnEnd, MayClose, CanEnd;
      if agent.watch.Watch? {
        FailedCanEnd(agent.setup, agent.watch, message, context, agent.aborted);
      }
      CloseTurn(message, []);
      EmitEnd();
    }

    /** From the inputs of a turn to its message; None when the message failed and the run ended with it. */
    method Converse(pending: seq<Message>, ghost turnIndex: nat, ghost reflexes: nat, ghost routed: Option<Option<ToolCall>>, steps: nat)
      returns (r: Outcome<Option<AssistantMessage>>)
      requires TurnOpen(turnIndex, reflexes, pending, routed) && (routed.Some? ==> routed.value.None?)
      modifies this`context, this`newMessages, this`strays, agent, agent.steeringQueue, agent.followUpQueue
      ensures r == Done(None) ==> Ended()
      ensures r.Done? && r.value.Some? ==>
                && Onward() && Speaking(r.value.value, turnIndex, 0, true) && !HasFailed(r.value.value)
                && (agent.watch.Watch? ==> !agent.watch.steered && agent.watch.spoke)
      ensures !r.Done? ==> Stopped(r.Threw?)
    {
      hide Next, Reduce, Agent.Valid, TurnOpens, Speaks, MayCall, Said, Consulted, Cutting, MayClose, HasFailed;
      TakeIn(pending, turnIndex, reflexes, routed);
      ghost var w := agent.watch;
      if w.Watch? {
        OpenMayCall(agent.setup, w, turnIndex, reflexes, routed);
      }
      var spoken, called, stream, cut := StreamAssistantResponse(steps);
      if !spoken.Done? {
        return if spoken.Threw? then Threw else Suspended;
      }
      var message := spoken.value;
      newMessages := newMessages + [message];
      if agent.watch.Watch? {
        SpokenAppends(agent.setup, w, turnIndex, reflexes, routed, message, called, cut, context);
      }
      if HasFailed(message) {
        FailTurn(message);
        return Done(None);
      }
      AbortedHasFailed(None);
      AbortedHasFailed(Partial(stream));
      return Done(Some(message));
    }

    // ----- Polls and stop hooks

    /** An await between turns. Refused by an abort, it ends the run; refused otherwise, it fails it. */
    method SettlePostTurn(what: Await, ghost first: bool, ghost turnIndex: nat, ghost reflexes: nat, ghost more: bool,
                          ghost waiting: seq<Message>) returns (s: Settling)
      requires Between(first, turnIndex, reflexes, more, waiting, None) && what == (if first then FirstPoll else PostTurn)
      modifies agent`aborted, agent`log, agent`watch, agent`ends, agent`told, agent.steeringQueue, agent.followUpQueue
      ensures Onward() && InStep() && agent.told == old(agent.told)
      ensures agent.log == old(agent.log) + [Awaited(what, s, agent.aborted)]
      ensures old(agent.aborted) ==> s == Refused(true)
      ensures s.Resolved? ==>
                && Between(first, turnIndex, reflexes, more, waiting, None)
                && (agent.watch.Watch? ==> agent.watch == old(agent.watch))
      ensures s.Pending? ==> Stopped(false)
      ensures s.Refused? && Uncaught(what, s, agent.aborted) ==> Stopped(true)
      ensures s.Refused? && !Uncaught(what, s, agent.aborted) ==> (agent.watch.Watch? ==> CanEnd(agent.watch, agent.aborted))
    {
      hide Next, Agent.Valid, Rests, OnAwaited, CanEnd, Fated, Owing, Uncaught;
      ghost var w := agent.watch;
      if w.Watch? {
        RestsAwaits(w, first, turnIndex, reflexes, more, waiting);
      }
      s := Race(what);
    }

    /** Takes what the host has queued, unless the run is aborted; a batch taken
        when the abort wins the race is lost. */
    method Poll(source: Source, first: bool, ghost turnIndex: nat, ghost reflexes: nat, ghost more: bool)
      returns (s: Settling, taken: seq<Message>, ghost polls: seq<Entry>)
      requires (source.Steering? || source.FollowUp?) && (first ==> source.Steering?)
      requires Between(first, turnIndex, reflexes, more, [], None)
      requires agent.watch.Watch? && !agent.aborted && !(source.Steering? && skipInitialSteeringPoll) ==>
                 !agent.watch.mayStop && Due(agent.watch.duty) == Some(source) && (source.Steering? ==> !agent.watch.steered)
      modifies this`skipInitialSteeringPoll, agent`aborted, agent`log, agent`watch, agent`ends, agent`told
      modifies agent.steeringQueue, agent.followUpQueue
      ensures Onward() && InStep() && agent.told == old(agent.told)
      ensures skipInitialSteeringPoll == (old(skipInitialSteeringPoll) && (old(agent.aborted) || !source.Steering?))
      ensures old(agent.aborted) ==> s == Resolved && taken == [] && agent.log == old(agent.log) && agent.watch == old(agent.watch)
      ensures !old(agent.aborted) ==>
                && agent.log == old(agent.log) + polls + [Awaited(if first then FirstPoll else PostTurn, s, agent.aborted)]
                && (if source.Steering? && old(skipInitialSteeringPoll) then polls == [] && taken == []
                    else |polls| == 1 && polls[0].Polled? && polls[0].source == source && taken == Concat(polls[0].tickets))
      ensures s.Resolved? ==> Between(first, turnIndex, reflexes, more, taken, None)
      ensures s.Resolved? && agent.watch.Watch? ==>
                && old(agent.watch).Watch? && agent.watch.mayStop == old(agent.watch).mayStop && agent.watch.spoke == old(agent.watch).spoke
                && agent.watch.duty == (if old(agent.aborted) || (source.Steering? && old(skipInitialSteeringPoll)) then old(agent.watch).duty
                                        else AfterPoll(old(agent.watch).duty, taken != []))
      ensures s.Pending? ==> Stopped(false)
      ensures s.Refused? && Uncaught(if first then FirstPoll else PostTurn, s, agent.aborted) ==> Stopped(true)
      ensures s.Refused? && !Uncaught(if first then FirstPoll else PostTurn, s, agent.aborted) ==>
                (agent.watch.Watch? ==> CanEnd(agent.watch, agent.aborted))
    {
      hide Next, Agent.Valid, Rests, OnAwaited, CanEnd, Concat, AfterPoll, Due, Uncaught;
      polls := [];
      if agent.aborted {
        return Resolved, [], polls;
      }
      if source.Steering? && skipInitialSteeringPoll {
        skipInitialSteeringPoll := false;
        taken := [];
      } else {
        taken, polls := Drain(source, first, turnIndex, reflexes, more);
      }
      s := SettlePostTurn(if first then FirstPoll else PostTurn, first, turnIndex, reflexes, more, taken);
    }

    /** Takes the head of a queue, as its mode says. */
    method Drain(source: Source, ghost first: bool, ghost turnIndex: nat, ghost reflexes: nat, ghost more: bool)
      returns (taken: seq<Message>, ghost polls: seq<Entry>)
      requires (source.Steering? || source.FollowUp?) && Between(first, turnIndex, reflexes, more, [], None)
      requires agent.watch.Watch? ==>
                 !agent.watch.mayStop && Due(agent.watch.duty) == Some(source) && (source.Steering? ==> !agent.watch.steered)
      modifies agent`log, agent`watch, agent`ends, agent`told, agent.steeringQueue, agent.followUpQueue
      ensures Onward() && agent.told == old(agent.told) && agent.log == old(agent.log) + polls
      ensures |polls| == 1 && polls[0].Polled? && polls[0].source == source && taken == Concat(polls[0].tickets)
      ensures Between(first, turnIndex, reflexes, more, taken, None)
      ensures agent.watch.Watch? ==>
                && old(agent.watch).Watch? && !agent.watch.mayStop && agent.watch.spoke == old(agent.watch).spoke
                && agent.watch.duty == AfterPoll(old(agent.watch).duty, taken != [])
    {
      hide Next, Agent.Valid, Rests, Concat, AfterPoll, Due;
      ghost var w, tickets, mode := agent.watch, [], All;
      if source.Steering? {
        taken, tickets := agent.PollSteering();
        mode := agent.steeringQueue.mode;
      } else {
        taken, tickets := agent.PollFollowUps();
        mode := agent.followUpQueue.mode;
      }
      polls := [Polled(source, mode, tickets)];
      if w.Watch? {
        PolledRests(agent.setup, w, first, turnIndex, reflexes, more, source, mode, tickets);
      } else {
        BrokenStays(agent.setup, Polled(source, mode, tickets));
      }
      NextGrows(agent.setup, w, Polled(source, mode, tickets));
    }

    /** What a stop hook answers. */
    method StopHook(hook: Hook, ghost turnIndex: nat, ghost reflexes: nat, ghost more: bool) returns (stop: bool)
      requires Between(false, turnIndex, reflexes, more, [], None)
      requires agent.watch.Watch? ==>
                 && !agent.watch.mayStop
                 && ((agent.aborted && !agent.watch.duty.CutShort? && !agent.watch.duty.Free?) || DueHook(agent.watch) == Some(hook))
      modifies agent`log, agent`watch, agent`ends, agent`told
      ensures Onward() && Between(false, turnIndex, reflexes, more, [], None) && agent.told == old(agent.told)
      ensures agent.log == old(agent.log) + [Asked(hook, stop, agent.aborted)]
      ensures agent.watch.Watch? ==>
                && old(agent.watch).Watch? && agent.watch == OnAsked(old(agent.watch), hook, stop, agent.aborted)
                && agent.watch.spoke == old(agent.watch).spoke && agent.watch.steered == old(agent.watch).steered
                && agent.watch.live == old(agent.watch).live && agent.watch.mayStop == stop
                && (if stop then CanEnd(agent.watch, agent.aborted)
                    else agent.watch.duty == if agent.aborted then Aborting else AfterAsking(old(agent.watch)))
    {
      hide Next, Agent.Valid, Rests, DueHook, AfterAsking, CanEnd;
      stop := *;
      if agent.watch.Watch? {
        AskedRests(agent.setup, agent.watch, turnIndex, reflexes, more, hook, stop, agent.aborted);
        StoppedCanEnd(Next(agent.setup, agent.watch, Asked(hook, stop, agent.aborted)), turnIndex, reflexes, more, agent.aborted);
      }
      Note(Asked(hook, stop, agent.aborted));
    }

    /** After a provider turn: the stop hooks, then the steering poll. None when
        the run ended, otherwise the inputs for the next turn. */
    method AfterTurn(ghost turnIndex: nat, ghost reflexes: nat, ghost more: bool) returns (r: Outcome<Option<seq<Message>>>)
      requires Between(false, turnIndex, reflexes, more, [], None) && !skipInitialSteeringPoll && !agent.aborted
      requires agent.watch.Watch? ==> agent.watch.duty.AskAfter? && !agent.watch.mayStop && !agent.watch.steered
      modifies this`skipInitialSteeringPoll, agent, agent.steeringQueue, agent.followUpQueue
      ensures !skipInitialSteeringPoll
      ensures r == Done(None) ==> Ended() && agent.told == old(agent.told) + [AgentEnd(newMessages)]
      ensures r.Done? && r.value.Some? ==>
                && Onward() && Between(false, turnIndex, reflexes, more, r.value.value, None) && agent.told == old(agent.told)
                && (agent.watch.Watch? ==>
                      && old(agent.watch).Watch? && agent.watch.spoke == old(agent.watch).spoke && AtHead(agent.watch, agent.aborted))
      ensures !r.Done? ==> Stopped(r.Threw?)
    {
      hide Next, Reduce, Agent.Valid, Rests, CanEnd, OnAsked, AtHead, Concat;
      var asked := SettlePostTurn(PostTurn, false, turnIndex, reflexes, more, []);
      match asked {
        case Pending => return Suspended;
        case Refused(isAbort) =>
          if !agent.aborted || !isAbort {
            return Threw;
          }
          EmitEnd();
          return Done(None);
        case Resolved =>
      }
      var stop := StopHook(Hook.AfterTurn, turnIndex, reflexes, more);
      if !stop {
        stop := StopHook(BeforeTurn, turnIndex, reflexes, more);
      }
      if stop {
        EmitEnd();
        return Done(None);
      }
      r := SteeringAfterTurn(turnIndex, reflexes, more);
    }

    /** Steering that comes in owns the turn boundary; only without any may a hook still stop the run. */
    method SteeringAfterTurn(ghost turnIndex: nat, ghost reflexes: nat, ghost more: bool) returns (r: Outcome<Option<seq<Message>>>)
      requires Between(false, turnIndex, reflexes, more, [], None) && !skipInitialSteeringPoll
      requires agent.watch.Watch? ==> Owes(agent.watch, Duty.PollSteering, agent.aborted) && !agent.watch.steered
      modifies this`skipInitialSteeringPoll, agent, agent.steeringQueue, agent.followUpQueue
      ensures !skipInitialSteeringPoll
      ensures r == Done(None) ==> Ended() && agent.told == old(agent.told) + [AgentEnd(newMessages)]
      ensures r.Done? && r.value.Some? ==>
                && Onward() && Between(false, turnIndex, reflexes, more, r.value.value, None) && agent.told == old(agent.told)
                && (agent.watch.Watch? ==>
                      && old(agent.watch).Watch? && agent.watch.spoke == old(agent.watch).spoke && AtHead(agent.watch, agent.aborted))
      ensures !r.Done? ==> Stopped(r.Threw?)
    {
      hide Next, Reduce, Agent.Valid, Rests, CanEnd, OnAsked, AtHead, Concat;
      var polled, pending, polls := Poll(Steering, false, turnIndex, reflexes, more);
      match polled {
        case Pending => return Suspended;
        case Refused(isAbort) =>
          if !agent.aborted || !isAbort {
            return Threw;
          }
          EmitEnd();
          return Done(None);
        case Resolved =>
      }
      if pending == [] {
        var stop := StopHook(BeforeTurn, turnIndex, reflexes, more);
        if stop {
          EmitEnd();
          return Done(None);
        }
      }
      if agent.watch.Watch? {
        HeadAgain(agent.watch, turnIndex, reflexes, more, pending, agent.aborted);
      }
      return Done(Some(pending));
    }

    /** When the tools want nothing more and no steering came: follow-ups, then
        continuations, may carry the run on. None when the run ended. */
    method WindDown(ghost turnIndex: nat, ghost reflexes: nat, lastTurn: bool) returns (r: Outcome<Option<seq<Message>>>)
      requires Between(false, turnIndex, reflexes, false, [], None)
      requires agent.watch.Watch? ==> AtHead(agent.watch, agent.aborted) && (agent.watch.spoke <==> lastTurn)
      modifies this`skipInitialSteeringPoll, agent, agent.steeringQueue, agent.followUpQueue
      ensures skipInitialSteeringPoll == old(skipInitialSteeringPoll)
      ensures r == Done(None) ==> Ended() && agent.told == old(agent.told) + [AgentEnd(newMessages)]
      ensures r.Done? && r.value.Some? ==>
                && r.value.value != []
                && Onward() && Between(false, turnIndex, reflexes, false, r.value.value, None) && agent.told == old(agent.told)
                && (agent.watch.Watch? ==>
                      && old(agent.watch).Watch? && agent.watch.spoke == old(agent.watch).spoke && AtHead(agent.watch, agent.aborted))
      ensures !r.Done? ==> Stopped(r.Threw?)
    {
      hide Next, Reduce, Agent.Valid, Rests, CanEnd, OnAsked, AtHead, Concat;
      if agent.watch.Watch? {
        HeadWinds(agent.watch, turnIndex, reflexes, agent.aborted);
      }
      var stop := StopHook(BeforeTurn, turnIndex, reflexes, false);
      if stop {
        EmitEnd();
        return Done(None);
      }
      var polled, followUps, polls := Poll(FollowUp, false, turnIndex, reflexes, false);
      match polled {
        case Pending => return Suspended;
        case Refused(isAbort) =>
          if !agent.aborted || !isAbort {
            return Threw;
          }
          EmitEnd();
          return Done(None);
        case Resolved =>
      }
      if followUps != [] {
        if agent.watch.Watch? {
          HeadAgain(agent.watch, turnIndex, reflexes, false, followUps, agent.aborted);
        }
        return Done(Some(followUps));
      }
      r := NoFollowUps(turnIndex, reflexes, lastTurn);
    }

    /** With no follow-ups: unless a hook stops the run, continuations are the last resort. */
    method NoFollowUps(ghost turnIndex: nat, ghost reflexes: nat, lastTurn: bool) returns (r: Outcome<Option<seq<Message>>>)
      requires Between(false, turnIndex, reflexes, false, [], None)
      requires agent.watch.Watch? ==> OwesLoosely(agent.watch, Duty.AskLast, agent.aborted) && (agent.watch.spoke <==> lastTurn)
      modifies agent, agent.steeringQueue, agent.followUpQueue
      ensures r == Done(None) ==> Ended() && agent.told == old(agent.told) + [AgentEnd(newMessages)]
      ensures r.Done? && r.value.Some? ==>
                && r.value.value != []
                && Onward() && Between(false, turnIndex, reflexes, false, r.value.value, None) && agent.told == old(agent.told)
                && (agent.watch.Watch? ==>
                      && old(agent.watch).Watch? && agent.watch.spoke == old(agent.watch).spoke && AtHead(agent.watch, agent.aborted))
      ensures !r.Done? ==> Stopped(r.Threw?)
    {
      hide Next, Reduce, Agent.Valid, Rests, CanEnd, OnAsked, AtHead, Concat;
      var stop := StopHook(BeforeTurn, turnIndex, reflexes, false);
      if stop {
        EmitEnd();
        return Done(None);
      }
      r := LastResort(turnIndex, reflexes, lastTurn);
    }

    /** With no follow-ups either: continuations carry the run on, or it ends. */
    method LastResort(ghost turnIndex: nat, ghost reflexes: nat, lastTurn: bool) returns (r: Outcome<Option<seq<Message>>>)
      requires Between(false, turnIndex, reflexes, false, [], None)
      requires agent.watch.Watch? ==>
                 && (agent.watch.spoke <==> lastTurn)
                 && Owes(agent.watch, if lastTurn then PollContinuations else NothingLeft, agent.aborted)
      modifies agent, agent.steeringQueue, agent.followUpQueue
      ensures r == Done(None) ==> Ended() && agent.told == old(agent.told) + [AgentEnd(newMessages)]
      ensures r.Done? && r.value.Some? ==>
                && r.value.value != []
                && Onward() && Between(false, turnIndex, reflexes, false, r.value.value, None) && agent.told == old(agent.told)
                && (agent.watch.Watch? ==>
                      && old(agent.watch).Watch? && agent.watch.spoke == old(agent.watch).spoke && AtHead(agent.watch, agent.aborted))
      ensures !r.Done? ==> Stopped(r.Threw?)
    {
      hide Next, Reduce, Agent.Valid, Rests, CanEnd, AtHead, Concat;
      if lastTurn {
        var asked := SettlePostTurn(PostTurn, false, turnIndex, reflexes, false, []);
        match asked {
          case Pending => return Suspended;
          case Refused(isAbort) =>
            if !agent.aborted || !isAbort {
              return Threw;
            }
            EmitEnd();
            return Done(None);
          case Resolved =>
        }
        var continuations := Continuations(turnIndex, reflexes);
        if continuations != [] {
          if agent.watch.Watch? {
            HeadAgain(agent.watch, turnIndex, reflexes, false, continuations, agent.aborted);
          }
          return Done(Some(continuations));
        }
      }
      if agent.watch.Watch? {
        NothingLeftEnds(agent.watch, turnIndex, reflexes, agent.aborted);
      }
      EmitEnd();
      return Done(None);
    }

    /** The host's own idea of what to go on with. */
    method Continuations(ghost turnIndex: nat, ghost reflexes: nat) returns (messages: seq<Message>)
      requires Between(false, turnIndex, reflexes, false, [], None)
      requires agent.watch.Watch? ==> agent.watch.duty.PollContinuations? && !agent.watch.mayStop
      modifies agent`log, agent`watch, agent`ends, agent`told
      ensures Onward() && Between(false, turnIndex, reflexes, false, messages, None) && agent.told == old(agent.told)
      ensures agent.log == old(agent.log) + [Polled(Continuation, All, [Ticket(0, messages)])]
      ensures agent.watch.Watch? ==>
                && old(agent.watch).Watch? && agent.watch.spoke == old(agent.watch).spoke
                && !agent.watch.mayStop && agent.watch.duty == (if messages != [] then Free else NothingLeft)
    {
      hide Next, Agent.Valid, Rests, Concat;
      messages := *;
      ConcatOne(messages);
      if agent.watch.Watch? {
        PolledRests(agent.setup, agent.watch, false, turnIndex, reflexes, false, Continuation, All, [Ticket(0, messages)]);
      }
      Note(Polled(Continuation, All, [Ticket(0, messages)]));
    }

    // ----- The run

    /** Asks the router for a reflex; a router that fails or is aborted gives none. */
    method ResolvePreTurnReflex(first: bool, ghost turnIndex: nat, ghost reflexes: nat)
      returns (r: Outcome<Option<ToolCall>>, ghost routed: Option<Option<ToolCall>>)
      requires Between(first, turnIndex, reflexes, true, [], None) && MayTurn() && reflexes < config.maxReflexes
      modifies agent`aborted, agent`log, agent`watch, agent`ends, agent`told, agent.steeringQueue, agent.followUpQueue
      ensures Onward() && !r.Threw? && agent.told == old(agent.told)
      ensures r.Done? ==> Between(first, turnIndex, reflexes, true, [], routed) && MayTurn() && Alike()
      ensures r.Done? && agent.watch.Watch? ==> agent.watch.unanswered == old(agent.watch).unanswered
      ensures r.Done? ==> routed == (if config.hasRouter then Some(r.value) else None) && (!config.hasRouter ==> r.value == None)
      ensures !config.hasRouter ==> agent.log == old(agent.log) && agent.aborted == old(agent.aborted) && r.Done?
      ensures config.hasRouter && r.Done? ==>
                exists s: Settling :: !s.Pending? && (s.Refused? ==> r.value == None)
                                      && agent.log == old(agent.log) + [Awaited(Routing, s, agent.aborted), Routed(r.value)]
      ensures !r.Done? ==> Stopped(false)
    {
      hide Next, Agent.Valid, Rests, MayBegin, OnAwaited, Fated, Uncaught;
      routed := None;
      if !config.hasRouter {
        return Done(None), routed;
      }
      if agent.watch.Watch? {
        RestsRoutes(agent.setup, agent.watch, first, turnIndex, reflexes);
      }
      var s := Race(Routing);
      if s.Pending? {
        return Suspended, routed;
      }
      var reflex: Option<ToolCall> := *;
      reflex := if s.Resolved? then reflex else None;
      if agent.watch.Watch? {
        RoutedRests(agent.setup, agent.watch, first, turnIndex, reflexes, reflex);
      }
      Note(Routed(reflex));
      routed := Some(reflex);
      r := Done(reflex);
    }

    /** One provider turn; None when the run ended with it, otherwise whether the
        tools want another turn, and the inputs for it. */
    method ProviderTurn(first: bool, ghost turnIndex: nat, ghost reflexes: nat, ghost more: bool, pending: seq<Message>,
                        ghost routed: Option<Option<ToolCall>>, steps: nat)
      returns (r: Outcome<Option<(bool, seq<Message>)>>)
      requires Between(first, turnIndex, reflexes, more, pending, routed) && (more || pending != []) && Answered() && MayTurn()
      requires (agent.aborted ==> first || routed.Some?) && (routed.Some? ==> routed.value.None?)
      requires agent.watch.Watch? && ToRoute(agent.setup, agent.watch) ==> routed.Some?
      requires !skipInitialSteeringPoll
      modifies this`context, this`newMessages, this`strays, this`skipInitialSteeringPoll, agent, agent.steeringQueue, agent.followUpQueue
      ensures !skipInitialSteeringPoll
      ensures r == Done(None) ==> Ended()
      ensures r.Done? && r.value.Some? ==>
                && Onward() && Between(false, turnIndex + 1, 0, r.value.value.0, r.value.value.1, None)
                && (agent.watch.Watch? ==> agent.watch.spoke && AtHead(agent.watch, agent.aborted))
      ensures !r.Done? ==> Stopped(r.Threw?)
    {
      hide Next, Reduce, Agent.Valid, Rests, CanEnd, AtHead, TurnOpens, Speaks, HasFailed, ToRoute, MayBegin, Executes, BatchStory;
      StartTurn(first, turnIndex, reflexes, more, pending, routed);
      var spoken := Converse(pending, turnIndex, reflexes, routed, steps);
      if !spoken.Done? {
        return if spoken.Threw? then Threw else Suspended;
      }
      if spoken.value.None? {
        return Done(None);
      }
      var hasMore, fs, runs := FinishTurn(spoken.value.value, turnIndex, 0, true, steps);
      if !hasMore.Done? {
        return Suspended;
      }
      if agent.aborted {
        if agent.watch.Watch? {
          TurnCanEnd(agent.watch, turnIndex + 1, 0, hasMore.value);
        }
        EmitEnd();
        return Done(None);
      }
      var next := AfterTurn(turnIndex + 1, 0, hasMore.value);
      if !next.Done? {
        return if next.Threw? then Threw else Suspended;
      }
      return Done(if next.value.None? then None else Some((hasMore.value, next.value.value)));
    }

    /** The run has gone on to where it throws: at an await that it does not
        catch, or at the head of a round because it was aborted. */
    twostate predicate Quits()
      reads this, agent, agent.steeringQueue, agent.followUpQueue
    {
      && Onward()
      && (agent.watch.Watch? ==>
            !agent.watch.stage.Over? && (agent.watch.fate.Failing? || (agent.watch.fate.Going? && agent.aborted)))
    }

    /** One turn, a reflex or the provider's; None when the run ended with it. */
    method Turn(first: bool, turnIndex: nat, reflexes: nat, ghost more: bool, pending: seq<Message>, steps: nat)
      returns (r: Outcome<Option<Turned>>)
      requires Between(first, turnIndex, reflexes, more, pending, None) && (more || pending != [])
      requires !agent.aborted && !skipInitialSteeringPoll && (agent.watch.Watch? ==> AtHead(agent.watch, false))
      modifies this`context, this`newMessages, this`strays, this`skipInitialSteeringPoll, agent, agent.steeringQueue, agent.followUpQueue
      ensures !skipInitialSteeringPoll
      ensures r == Done(None) ==> Ended()
      ensures r.Done? && r.value.Some? ==>
                var t := r.value.value;
                && Onward() && Between(false, turnIndex + 1, t.reflexes, t.hasMore, t.pending, None)
                && t.reflexes == (if t.asked then 0 else reflexes + 1) && (!t.asked ==> pending == t.pending == [])
                && (agent.watch.Watch? ==>
                      && old(agent.watch).Watch? && AtHead(agent.watch, agent.aborted)
                      && agent.watch.spoke == (old(agent.watch).spoke || t.asked))
      ensures !r.Done? ==> Stopped(r.Threw?)
    {
      hide Next, Reduce, Agent.Valid, Rests, CanEnd, AtHead, ToRoute, MayBegin;
      if agent.watch.Watch? {
        HeadBegins(agent.setup, agent.watch, first, turnIndex, reflexes, more, pending);
      }
      var reflex: Option<ToolCall> := None;
      ghost var routed: Option<Option<ToolCall>> := None;
      if pending == [] && reflexes < config.maxReflexes {
        var resolved;
        resolved, routed := ResolvePreTurnReflex(first, turnIndex, reflexes);
        if !resolved.Done? {
          return Suspended;
        }
        reflex := resolved.value;
      }
      if reflex.Some? {
        var turned := ReflexTurn(first, turnIndex, reflexes, reflex.value, steps);
        if !turned.Done? {
          return Suspended;
        }
        if turned.value.None? {
          return Done(None);
        }
        if agent.watch.Watch? {
          ReflexHeads(agent.watch, turnIndex + 1, reflexes + 1, turned.value.value, agent.aborted);
        }
        return Done(Some(Turned(turned.value.value, [], reflexes + 1, false)));
      }
      if agent.watch.Watch? {
        EnoughRouted(agent.setup, agent.watch, first, turnIndex, reflexes, more, pending, routed);
      }
      var turned := ProviderTurn(first, turnIndex, reflexes, more, pending, routed, steps);
      if !turned.Done? {
        return if turned.Threw? then Threw else Suspended;
      }
      return Done(if turned.value.None? then None else Some(Turned(turned.value.value.0, turned.value.value.1, 0, true)));
    }

    /** The nested loop of a run: as long as the tools want more or inputs are
        waiting there is another turn, then follow-ups and continuations may
        bring new inputs. */
    method RunLoop(steps: nat) returns (r: Outcome<()>)
      requires Between(true, 0, 0, true, [], None) && Answered() && (skipInitialSteeringPoll <==> agent.setup.steered)
      requires agent.watch.Watch? ==>
                 && !agent.watch.spoke && !agent.watch.mayStop
                 && (agent.watch.steered ==> agent.setup.steered) && agent.watch.duty == (if agent.setup.steered then Free else PollFirst)
      modifies this, agent, agent.steeringQueue, agent.followUpQueue
      ensures r.Done? ==> Ended()
      ensures r.Threw? ==> Quits()
      ensures r.Suspended? ==> Stopped(false)
      ensures old(agent.aborted) ==> r.Threw? && agent.log == old(agent.log)
    {
      hide Next, Reduce, Agent.Valid, Rests, CanEnd, AtHead, ToRoute, MayBegin, Concat, Answers;
      var polled, pending, polls := Poll(Steering, true, 0, 0, true);
      if !polled.Resolved? {
        return if polled.Pending? then Suspended else Threw;
      }
      if agent.watch.Watch? {
        FirstHeads(agent.watch, pending, agent.aborted);
      }
      r := Rounds(pending, steps);
    }

    /** Rounds of turns, each followed by a winding down that may bring new inputs for another. */
    method Rounds(inputs: seq<Message>, steps: nat) returns (r: Outcome<()>)
      requires Between(true, 0, 0, true, inputs, None) && (skipInitialSteeringPoll ==> agent.aborted)
      requires agent.watch.Watch? ==> AtHead(agent.watch, agent.aborted) && !agent.watch.spoke
      modifies this, agent, agent.steeringQueue, agent.followUpQueue
      ensures r.Done? ==> Ended()
      ensures r.Threw? ==> Quits()
      ensures r.Suspended? ==> Stopped(false)
      ensures old(agent.aborted) ==> r.Threw? && agent.log == old(agent.log)
    {
      hide Next, Reduce, Agent.Valid, Rests, CanEnd, AtHead, ToRoute, MayBegin, Fated, Loop.Fits;
      var pending := inputs;
      var firstTurn, lastTurn, turnIndex, consecutiveReflexes, hasMoreToolCalls := true, false, 0, 0, true;
      ghost var more := true;
      var left := steps;
      while true
        invariant Onward() && Between(firstTurn, turnIndex, consecutiveReflexes, more, pending, None)
        invariant agent.watch.Watch? ==> AtHead(agent.watch, agent.aborted) && (agent.watch.spoke <==> lastTurn)
        invariant more || pending != []
        invariant skipInitialSteeringPoll ==> agent.aborted
        invariant old(agent.aborted) ==> agent.log == old(agent.log)
        decreases left
      {
        if agent.aborted {
          GoesOn(firstTurn, turnIndex, consecutiveReflexes, more, pending);
          return Threw;
        }
        hasMoreToolCalls := true;
        ghost var round := left;
        while hasMoreToolCalls || pending != []
          invariant Onward() && Between(firstTurn, turnIndex, consecutiveReflexes, more, pending, None)
          invariant agent.watch.Watch? ==> AtHead(agent.watch, agent.aborted) && (agent.watch.spoke <==> lastTurn)
          invariant more ==> hasMoreToolCalls
          invariant hasMoreToolCalls ==> more || pending != []
          invariant left <= round && (left == round ==> hasMoreToolCalls) && (firstTurn ==> left == round)
          invariant !skipInitialSteeringPoll && !old(agent.aborted)
          decreases left
        {
          GoesOn(firstTurn, turnIndex, consecutiveReflexes, more, pending);
          if left == 0 {
            Yield(left);
            return Suspended;
          }
          left := left - 1;
          if agent.aborted {
            return Threw;
          }
          var turned := Turn(firstTurn, turnIndex, consecutiveReflexes, more, pending, steps);
          if !turned.Done? {
            return if turned.Threw? then Threw else Suspended;
          }
          if turned.value.None? {
            return Done(());
          }
          hasMoreToolCalls, pending := turned.value.value.hasMore, turned.value.value.pending;
          consecutiveReflexes, lastTurn := turned.value.value.reflexes, lastTurn || turned.value.value.asked;
          firstTurn, turnIndex, more := false, turnIndex + 1, hasMoreToolCalls;
        }
        var next := WindDown(turnIndex, consecutiveReflexes, lastTurn);
        if !next.Done? {
          return if next.Threw? then Threw else Suspended;
        }
        if next.value.None? {
          return Done(());
        }
        pending := next.value.value;
      }
    }

    lemma GoesOn(first: bool, turnIndex: nat, reflexes: nat, more: bool, waiting: seq<Message>)
      requires Between(first, turnIndex, reflexes, more, waiting, None)
      ensures agent.watch.Watch? ==> agent.watch.fate.Going? && (agent.watch.stage.Idle? || agent.watch.stage.InTurn?)
    {
      hide Agent.Valid;
    }

    /** A run that starts with prompts. */
    method RunAgentLoop(prompts: seq<Message>, steps: nat) returns (r: Outcome<()>)
      requires Good() && agent.watch == Opening(agent.setup) && agent.setup.prompts == prompts
      requires context == agent.setup.initial && newMessages == [] && strays == 0
      requires skipInitialSteeringPoll <==> agent.setup.steered
      modifies this, agent, agent.steeringQueue, agent.followUpQueue
      ensures r.Done? ==> Ended()
      ensures r.Threw? ==> Quits()
      ensures r.Suspended? ==> Stopped(false)
      ensures agent.watch.Watch? ==> prompts <= agent.watch.ended
    {
      hide Next, Reduce, Agent.Valid, Rests, Prompting, Begun;
      newMessages := prompts;
      context := context + prompts;
      PromptingStarts(agent.setup, context, agent.aborted);
      Emit(AgentStart);
      PromptingOpens(agent.setup, context, agent.aborted);
      Emit(TurnStart);
      TakePrompts(prompts);
      PromptingDone(agent.setup);
      r := RunLoop(steps);
      PromptsEntered();
    }

    method TakePrompts(prompts: seq<Message>)
      requires Good() && agent.setup.prompts == prompts && agent.watch == Prompting(agent.setup, 0)
      requires context == agent.setup.initial + prompts && newMessages == prompts
      modifies agent, agent.steeringQueue, agent.followUpQueue
      ensures Onward() && agent.watch == Prompting(agent.setup, |prompts|)
    {
      hide Next, Reduce, Prompting, Opened, Agent.Valid;
      for i := 0 to |prompts|
        invariant Onward() && agent.watch == Prompting(agent.setup, i)
      {
        PromptingSteps(agent.setup, i, context, agent.aborted);
        BrokenNotOpened(agent.watch);
        Emit(MessageStart(prompts[i]));
        PromptingEnds(agent.setup, i, context, agent.aborted);
        Emit(MessageEnd(prompts[i]));
      }
    }

    /** Prompts that have all been said stand first in what the run has said. */
    lemma PromptsEntered()
      requires agent.Valid()
      requires agent.watch.Watch? ==> |agent.setup.prompts| <= |agent.watch.ended|
      ensures agent.watch.Watch? ==> agent.setup.prompts <= agent.watch.ended
    {
      if agent.watch.Watch? {
        ProtocolLaws.PromptsDelivered(agent.setup, agent.log, |agent.log|);
        assert agent.log[..|agent.log|] == agent.log;
      }
    }

    /** A run that picks up the transcript as it is. */
    method RunAgentLoopContinue(steps: nat) returns (r: Outcome<()>)
      requires Good() && agent.watch == Opening(agent.setup) && agent.setup.prompts == []
      requires context == agent.setup.initial && newMessages == [] && strays == 0
      requires skipInitialSteeringPoll <==> agent.setup.steered
      modifies this, agent, agent.steeringQueue, agent.followUpQueue
      ensures r.Done? ==> Ended()
      ensures if old(context) == [] || old(context)[|old(context)| - 1].Assistant? then r.Threw? && Onward() && agent.log == old(agent.log) && agent.watch == old(agent.watch)
              else r.Threw? ==> Quits()
      ensures r.Suspended? ==> Stopped(false)
    {
      hide Next, Reduce, Agent.Valid, Rests, Prompting, Begun;
      if context == [] || context[|context| - 1].Assistant? {
        return Threw;
      }
      PromptingStarts(agent.setup, context, agent.aborted);
      Emit(AgentStart);
      PromptingOpens(agent.setup, context, agent.aborted);
      Emit(TurnStart);
      PromptingDone(agent.setup);
      r := RunLoop(steps);
    }
  }
}
