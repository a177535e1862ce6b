/** Starting runs: prompts, continuations, and what surrounds every run. */
module AgentRuns {
  import opened Messages
  import opened PendingQueue
  import opened Protocol
  import opened AgentState
  import opened AgentLoop

  /** How a request to run ends: refused, still running, or over; `clean` when
      the loop itself brought it to its end. */
  datatype Answer = Busy | NothingToContinue | Running | Over(clean: bool)

  const FAILURE := "agent run failed"

  /** The monitor when the loop was done: a run that threw has three entries after that, for its failure. */
  ghost function LoopWatch(agent: Agent, clean: bool): (r: Watch)
    reads agent
    requires clean || 3 <= |agent.log|
  {
    Observe(agent.setup, if clean then agent.log else agent.log[..|agent.log| - 3])
  }

  /** Why a loop throws: an await that it does not catch was refused, it was
      aborted, or it could not go on from the transcript at all. */
  ghost predicate Thrown(agent: Agent, w: Watch)
    reads agent
    requires w.Watch?
  {
    || w.fate.Failing?
    || (w.fate.Going? && agent.aborted)
    || (w == Opening(agent.setup) && agent.setup.prompts == [] && Unfit(agent.setup.initial))
  }

  /** A transcript that a run cannot pick up as it is. */
  predicate Unfit(messages: seq<Message>) {
    messages == [] || messages[|messages| - 1].Assistant?
  }

  /** What holds of the agent when a run is over: its end was announced exactly
      once and last, and nothing is left pending. If no stream announced its
      start twice, the transcript rebuilt from the events is the old one plus
      what the run said, its prompts first, plus the failure if it threw. */
  ghost predicate AtRest(agent: Agent, before: seq<Message>, clean: bool, strays: nat)
    reads agent, agent.steeringQueue, agent.followUpQueue
  {
    && agent.Valid() && !agent.active && !agent.isStreaming
    && agent.pendingToolCalls == {} && agent.streamingMessage == None
    && Ends(agent.log) == 1 && agent.log != [] && EndsRun(agent.log[|agent.log| - 1])
    && (!clean ==> 3 <= |agent.log|)
    && (strays == 0 ==>
          var w := LoopWatch(agent, clean);
          && w.Watch? && agent.setup.prompts <= w.ended
          && (if clean then w.stage.Over? else !w.stage.Over? && Thrown(agent, w))
          && if clean then agent.messages == before + w.ended
             else exists failure :: HasFailed(failure) && agent.messages == before + w.ended + [failure])
  }

  /** What holds of the agent while a run goes on. */
  ghost predicate Going(agent: Agent, before: seq<Message>)
    reads agent, agent.steeringQueue, agent.followUpQueue
  {
    && agent.Valid() && agent.active && Ends(agent.log) == 0
    && (agent.watch.Watch? ==>
          agent.setup.prompts <= agent.watch.ended && agent.messages == before + agent.watch.ended
          && !agent.watch.stage.Over? && agent.watch.fate.Halted?)
  }

  /** What a run was started with, and that the queues had handed out nothing else since `steered` and `followed`. */
  ghost predicate StartedWith(agent: Agent, run: Setup, steered: seq<Ticket>, followed: seq<Ticket>)
    reads agent
  {
    && agent.setup == run
    && agent.steeringBefore <= |agent.steeringBase| && agent.steeringBase[..agent.steeringBefore] == steered
    && agent.followUpBefore <= |agent.followUpBase| && agent.followUpBase[..agent.followUpBefore] == followed
  }

  /** Runs the loop from prompts, or from the transcript as it is. */
  method RunWithLifecycle(agent: Agent, config: Config, prompts: Option<seq<Message>>, skipPoll: bool, steps: nat,
                          ghost steered: nat, ghost followed: nat)
    returns (a: Answer, ghost strays: nat)
    requires agent.QueuesFit() && !agent.active
    requires var run := Setup(agent.messages, if prompts.Some? then prompts.value else [], config.maxReflexes, skipPoll, config.hasRouter);
             Prompted(run, agent.steeringQueue.drained, steered) && Prompted(run, agent.followUpQueue.drained, followed)
    modifies agent, agent.steeringQueue, agent.followUpQueue
    ensures a.Running? || a.Over?
    ensures var run := Setup(old(agent.messages), if prompts.Some? then prompts.value else [], config.maxReflexes, skipPoll, config.hasRouter);
            StartedWith(agent, run, old(agent.steeringQueue.drained)[..steered], old(agent.followUpQueue.drained)[..followed])
    ensures a.Over? ==> AtRest(agent, old(agent.messages), a.clean, strays)
    ensures a.Over? && !a.clean ==>
              agent.messages != [] && HasFailed(agent.messages[|agent.messages| - 1]) && agent.errorMessage == Some(FAILURE)
    ensures a.Running? ==> Going(agent, old(agent.messages))
  {
    hide Observe, Next, Taken, Balanced, Concat, Prompted, AtRest;
    ghost var run := Setup(agent.messages, if prompts.Some? then prompts.value else [], config.maxReflexes, skipPoll, config.hasRouter);
    PromptedFits(run, agent.steeringQueue.drained, steered);
    PromptedFits(run, agent.followUpQueue.drained, followed);
    agent.BeginRun(run, steered, followed);
    var r;
    r, strays := RunLoopOf(agent, config, prompts, skipPoll, steps);
    if r.Suspended? {
      return Running, strays;
    }
    CloseRun(agent, old(agent.messages), r.Threw?, strays);
    return Answer.Over(r.Done?), strays;
  }

  /** The loop of a run that has begun. */
  method RunLoopOf(agent: Agent, config: Config, prompts: Option<seq<Message>>, skipPoll: bool, steps: nat)
    returns (r: Outcome<()>, ghost strays: nat)
    requires agent.Valid() && agent.active && agent.watch == Opening(agent.setup) && agent.ends == 0
    requires agent.setup == Setup(agent.messages, if prompts.Some? then prompts.value else [], config.maxReflexes, skipPoll, config.hasRouter)
    modifies agent, agent.steeringQueue, agent.followUpQueue
    ensures agent.Valid() && agent.active && agent.setup == old(agent.setup)
    ensures agent.steeringBase == old(agent.steeringBase) && agent.followUpBase == old(agent.followUpBase)
    ensures agent.steeringBefore == old(agent.steeringBefore) && agent.followUpBefore == old(agent.followUpBefore)
    ensures agent.watch.Broken? ==> strays > 0
    ensures agent.watch.Watch? ==> agent.setup.prompts <= agent.watch.ended
    ensures if r.Done? then agent.ends == 1 && agent.log != [] && EndsRun(agent.log[|agent.log| - 1]) && (agent.watch.Watch? ==> agent.watch.stage.Over?)
            else agent.ends == 0
    ensures !r.Done? && agent.watch.Watch? ==>
              !agent.watch.stage.Over? && (if r.Threw? then Thrown(agent, agent.watch) else agent.watch.fate.Halted?)
  {
    hide Observe, Next, Taken, Balanced, Concat, Prompted, Ends, Mirrors, Agent.Valid;
    var loop := new Loop(agent, config, agent.messages, [], skipPoll);
    if prompts.Some? {
      r := loop.RunAgentLoop(prompts.value, steps);
    } else {
      r := loop.RunAgentLoopContinue(steps);
    }
    strays := loop.strays;
  }

  /** What surrounds a run on its way out. */
  method CloseRun(agent: Agent, ghost before: seq<Message>, threw: bool, ghost strays: nat)
    requires agent.Valid() && agent.active && before == agent.setup.initial
    requires agent.watch.Broken? ==> strays > 0
    requires agent.watch.Watch? ==> agent.setup.prompts <= agent.watch.ended
    requires threw && agent.watch.Watch? ==> !agent.watch.stage.Over? && Thrown(agent, agent.watch)
    requires if threw then agent.ends == 0
             else agent.ends == 1 && agent.log != [] && EndsRun(agent.log[|agent.log| - 1]) && (agent.watch.Watch? ==> agent.watch.stage.Over?)
    modifies agent, agent.steeringQueue, agent.followUpQueue
    ensures AtRest(agent, before, !threw, strays)
    ensures threw ==>
              agent.messages != [] && HasFailed(agent.messages[|agent.messages| - 1]) && agent.errorMessage == Some(FAILURE)
    ensures agent.setup == old(agent.setup)
    ensures agent.steeringBase == old(agent.steeringBase) && agent.followUpBase == old(agent.followUpBase)
    ensures agent.steeringBefore == old(agent.steeringBefore) && agent.followUpBefore == old(agent.followUpBefore)
  {
    hide Observe, Next, Taken, Balanced, Concat, Prompted;
    ghost var log := agent.log;
    if threw {
      var failure := agent.HandleRunFailure(FAILURE);
      assert agent.log[..|agent.log| - 3] == log;
    }
    agent.FinishRun();
  }

  lemma PromptedFits(run: Setup, base: seq<Ticket>, before: nat)
    requires Prompted(run, base, before)
    ensures before <= |base|
  {
  }

  lemma NothingPrompted(run: Setup, base: seq<Ticket>)
    ensures Prompted(run, base, |base|)
  {
  }

  lemma HeadPrompted(run: Setup, base: seq<Ticket>, tickets: seq<Ticket>)
    requires tickets != [] ==> run.prompts == Concat(tickets)
    ensures Prompted(run, base + tickets, |base|)
  {
    assert (base + tickets)[|base|..] == tickets;
  }

  method Prompt(agent: Agent, config: Config, messages: seq<Message>, steps: nat) returns (a: Answer, ghost strays: nat)
    requires agent.Valid()
    modifies agent, agent.steeringQueue, agent.followUpQueue
    ensures a.Busy? <==> old(agent.active)
    ensures agent.Valid()
    ensures a.Busy? ==> agent.State() == old(agent.State())
    ensures a.Busy? ==> unchanged(agent.steeringQueue) && unchanged(agent.followUpQueue)
    ensures !a.Busy? ==>
              StartedWith(agent, Setup(old(agent.messages), messages, config.maxReflexes, false, config.hasRouter),
                          old(agent.steeringQueue.drained), old(agent.followUpQueue.drained))
    ensures !a.Busy? ==> a.Running? || a.Over?
    ensures a.Over? ==> AtRest(agent, old(agent.messages), a.clean, strays)
    ensures a.Running? ==> Going(agent, old(agent.messages))
  {
    hide Observe, Next, Taken, Balanced, Concat, Prompted;
    strays := 0;
    if agent.active {
      return Busy, strays;
    }
    ghost var steered, followed := agent.steeringQueue.drained, agent.followUpQueue.drained;
    ghost var run := Setup(agent.messages, messages, config.maxReflexes, false, config.hasRouter);
    NothingPrompted(run, steered);
    NothingPrompted(run, followed);
    a, strays := RunWithLifecycle(agent, config, Some(messages), false, steps, |steered|, |followed|);
  }

  /** Whether what is queued goes before the transcript as it is. */
  predicate QueuesFirst(messages: seq<Message>) {
    messages == [] ||
    var last := messages[|messages| - 1];
    last.Assistant? || (last.Other? && last.role == "custom")
  }

  /** What is queued, as prompts: steering first. */
  ghost function QueuedPrompts(agent: Agent): (prompts: seq<Message>)
    reads agent, agent.steeringQueue, agent.followUpQueue
  {
    var steering := Head(agent.steeringQueue.mode, agent.steeringQueue.batches);
    if steering != [] then steering else Head(agent.followUpQueue.mode, agent.followUpQueue.batches)
  }

  /** Whatever the mode, what is queued first leads: all of the steering batches
      or the oldest one, or with none of them the same of the follow-ups. */
  lemma SteeringLeads(agent: Agent)
    ensures var s, f := agent.steeringQueue, agent.followUpQueue;
            && (s.batches != [] && s.mode == OneAtATime && s.batches[0] != [] ==> QueuedPrompts(agent) == s.batches[0] && SteeringQueued(agent))
            && (s.batches != [] && s.mode == All && s.batches[0] != [] ==> QueuedPrompts(agent) == Flat(s.batches) && SteeringQueued(agent))
            && (s.batches == [] ==> !SteeringQueued(agent) && QueuedPrompts(agent) == Head(f.mode, f.batches))
            && (s.batches == [] && f.batches != [] && f.mode == OneAtATime ==> QueuedPrompts(agent) == f.batches[0])
  {
  }

  ghost predicate SteeringQueued(agent: Agent)
    reads agent, agent.steeringQueue
  {
    Head(agent.steeringQueue.mode, agent.steeringQueue.batches) != []
  }

  /** Runs from what is queued, if anything is. Steering queued before the run
      becomes its prompt, and then the run's own first poll is skipped. */
  method RunQueuedMessages(agent: Agent, config: Config, steps: nat) returns (a: Option<Answer>, ghost strays: nat)
    requires agent.Valid() && !agent.active
    modifies agent, agent.steeringQueue, agent.followUpQueue
    ensures a.None? <==> old(agent.steeringQueue.batches) == [] && old(agent.followUpQueue.batches) == []
    ensures a.None? ==> agent.Valid() && Untouched(agent)
    ensures a.Some? ==>
              && (a.value.Running? || a.value.Over?)
              && StartedWith(agent, Setup(old(agent.messages), old(QueuedPrompts(agent)), config.maxReflexes, old(SteeringQueued(agent)), config.hasRouter),
                             old(agent.steeringQueue.drained), old(agent.followUpQueue.drained))
              && (a.value.Over? ==> AtRest(agent, old(agent.messages), a.value.clean, strays))
              && (a.value.Running? ==> Going(agent, old(agent.messages)))
  {
    hide Observe, Next, Taken, Ends, Mirrors, Balanced, Prompted, AtRest, Going;
    strays := 0;
    ghost var steered, followed := agent.steeringQueue.drained, agent.followUpQueue.drained;
    var initial, answer := agent.messages, Busy;
    var steering, s := agent.steeringQueue.Drain();
    if steering != [] {
      HeadPrompted(Setup(initial, steering, config.maxReflexes, true, config.hasRouter), steered, s);
      NothingPrompted(Setup(initial, steering, config.maxReflexes, true, config.hasRouter), followed);
      answer, strays := RunWithLifecycle(agent, config, Some(steering), true, steps, |steered|, |followed|);
      return Some(answer), strays;
    }
    var followUps, f := agent.followUpQueue.Drain();
    assert agent.steeringQueue.drained == steered;
    if followUps != [] {
      HeadPrompted(Setup(initial, followUps, config.maxReflexes, false, config.hasRouter), followed, f);
      NothingPrompted(Setup(initial, followUps, config.maxReflexes, false, config.hasRouter), steered);
      answer, strays := RunWithLifecycle(agent, config, Some(followUps), false, steps, |steered|, |followed|);
      return Some(answer), strays;
    }
    assert agent.followUpQueue.drained == followed;
    return None, strays;
  }

  /** Nothing that a refused request could have changed has changed. */
  twostate predicate Untouched(agent: Agent)
    reads agent, agent.steeringQueue, agent.followUpQueue
  {
    && agent.State() == old(agent.State()) && agent.active == old(agent.active)
    && agent.steeringQueue.drained == old(agent.steeringQueue.drained)
    && agent.steeringQueue.batches == old(agent.steeringQueue.batches)
    && agent.followUpQueue.drained == old(agent.followUpQueue.drained)
    && agent.followUpQueue.batches == old(agent.followUpQueue.batches)
  }

  /** Goes on from the transcript, or from what is queued. */
  method Continue(agent: Agent, config: Config, steps: nat) returns (a: Answer, ghost strays: nat)
    requires agent.Valid()
    modifies agent, agent.steeringQueue, agent.followUpQueue
    ensures a.Busy? <==> old(agent.active)
    ensures a.NothingToContinue? <==>
              && !old(agent.active)
              && (old(agent.messages) == [] || old(agent.messages)[|old(agent.messages)| - 1].Assistant?)
              && old(agent.steeringQueue.batches) == [] && old(agent.followUpQueue.batches) == []
    ensures agent.Valid()
    ensures a.Busy? || a.NothingToContinue? ==> Untouched(agent)
    ensures a.Running? || a.Over? ==>
              var last := if old(agent.messages) == [] then None else Some(old(agent.messages)[|old(agent.messages)| - 1]);
              var queued := last.None? || last.value.Assistant? || (last.value.Other? && last.value.role == "custom");
              StartedWith(agent, Setup(old(agent.messages), if queued then old(QueuedPrompts(agent)) else [],
                                       config.maxReflexes, queued && old(SteeringQueued(agent)), config.hasRouter),
                          old(agent.steeringQueue.drained), old(agent.followUpQueue.drained))
    ensures a.Over? ==> AtRest(agent, old(agent.messages), a.clean, strays)
    ensures a.Running? ==> Going(agent, old(agent.messages))
  {
    hide Observe, Next, Taken, Ends, Mirrors, Balanced, Prompted;
    strays := 0;
    if agent.active {
      return Busy, strays;
    }
    ghost var steered, followed := agent.steeringQueue.drained, agent.followUpQueue.drained;
    var initial := agent.messages;
    if QueuesFirst(initial) {
      var queued: Option<Answer>;
      queued, strays := RunQueuedMessages(agent, config, steps);
      if queued.Some? {
        return queued.value, strays;
      }
      NoneQueued(old(agent.steeringQueue.mode));
      NoneQueued(old(agent.followUpQueue.mode));
      if initial == [] || initial[|initial| - 1].Assistant? {
        return NothingToContinue, strays;
      }
    }
    NothingPrompted(Setup(initial, [], config.maxReflexes, false, config.hasRouter), steered);
    NothingPrompted(Setup(initial, [], config.maxReflexes, false, config.hasRouter), followed);
    a, strays := RunWithLifecycle(agent, config, None, false, steps, |steered|, |followed|);
  }

  lemma NoneQueued(mode: QueueMode)
    ensures Head(mode, []) == []
  {
  }
}
