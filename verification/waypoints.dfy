/** How the monitor stands at the points that the loop passes, and how each
    entry takes it from one of them to the next. */
module Waypoints {
  import opened Messages
  import opened PendingQueue
  import opened Protocol
  import opened ToolBatch
  import ProtocolLaws

  /** The monitor after the provider was asked. */
  ghost function Consulted(w: Watch, called: bool): (r: Watch) {
    if w.Broken? || !called then w else w.(reflexes := 0, steered := false, spoke := true, consulted := true)
  }

  /** The monitor after an abort has cut a response short, or not. */
  ghost function Cutting(w: Watch, cut: bool): (r: Watch) {
    if w.Broken? || !cut then w else Sliced(w)
  }

  /** A turn is open whose calls are `calls`, or of which `calls` is one. */
  ghost predicate Working(w: Watch, calls: seq<ToolCall>)
    requires w.Watch?
  {
    && w.stage.InTurn? && Calm(w) && w.waiting == []
    && (forall c <- calls :: c in CurrentCalls(w))
    && (|calls| <= 1 || calls == CurrentCalls(w))
  }

  /** The monitor while calls are at work. */
  ghost function AtWork(w: Watch, calls: seq<ToolCall>, slots: seq<Slot>): (r: Watch)
    requires |slots| <= |calls|
  {
    if w.Broken? then w
    else Busy(w, Bag(calls, slots), w.some || AnyEnded(slots), w.reluctant || AnyReluctant(slots))
  }

  /** The monitor accepts the event of a call's step and keeps the books of it. */
  lemma BusyStep(w: Watch, setup: Setup, running: multiset<string>, some: bool, reluctant: bool, call: ToolCall, signal: Signal,
                 context: seq<Message>, aborted: bool)
    requires w.Watch? && w.stage.InTurn? && Calm(w) && w.waiting == [] && call in CurrentCalls(w)
    requires signal.Finished? ==> signal.finalized.call == call
    requires !signal.Started? ==> call.id in running
    requires signal.Started? && DistinctIds(CurrentCalls(w)) ==> call.id !in running
    ensures Next(setup, Busy(w, running, some, reluctant), Emitted(SignalEvent(call, signal), context, aborted))
            == match signal {
              case Started => Busy(w, running + multiset{call.id}, some, reluctant)
              case Updated(_) => Busy(w, running, some, reluctant)
              case Finished(f) =>
                Busy(w, running - multiset{call.id}, true, reluctant || f.result.terminate != Some(true))
            }
  {
    hide OnMessage, OnTurnEnd, CallsOf, DistinctIds;
    assert CurrentCalls(Busy(w, running, some, reluctant)) == CurrentCalls(w);
  }

  predicate Reluctant(fs: seq<Finalized>) {
    exists k :: 0 <= k < |fs| && fs[k].result.terminate != Some(true)
  }

  /** The monitor after calls have ended. */
  ghost function Worked(w: Watch, fs: seq<Finalized>): (r: Watch) {
    if w.Broken? then w else w.(some := w.some || fs != [], reluctant := w.reluctant || Reluctant(fs))
  }

  ghost function SaidAll(w: Watch, ms: seq<Message>): (r: Watch) {
    if w.Broken? then w else w.(ended := w.ended + ms)
  }

  /** The monitor after calls have ended and their results have been announced. */
  ghost function Batched(w: Watch, fs: seq<Finalized>): (r: Watch) {
    SaidAll(Worked(w, fs), ResultMessages(fs))
  }

  lemma BatchedNone(w: Watch)
    ensures Batched(w, []) == w
  {
    if w.Watch? {
      assert w.ended + ResultMessages([]) == w.ended;
    }
  }

  lemma BatchedMore(w: Watch, fs: seq<Finalized>, f: Finalized)
    requires w.Watch? ==> Calm(w)
    ensures Said(Worked(Batched(w, fs), [f]), ResultMessage(f)) == Batched(w, fs + [f])
  {
    assert ResultMessages(fs + [f]) == ResultMessages(fs) + [ResultMessage(f)];
    if w.Watch? {
      assert w.ended + ResultMessages(fs) + [ResultMessage(f)] == w.ended + ResultMessages(fs + [f]);
    }
    assert Reluctant(fs + [f]) <==> Reluctant(fs) || Reluctant([f]) by {
      assert (fs + [f])[|fs|] == f && [f][0] == f;
      if k :| 0 <= k < |fs| && fs[k].result.terminate != Some(true) {
        assert (fs + [f])[k] == fs[k];
      }
    }
  }

  /** Announcing results does not change which calls the turn makes. */
  lemma BatchedWorks(w: Watch, fs: seq<Finalized>, calls: seq<ToolCall>, i: nat)
    requires w.Watch? && Working(w, calls) && w.settled < |w.ended| && i < |calls|
    ensures Working(Batched(w, fs), [calls[i]])
    ensures Batched(w, fs).Watch? && Batched(w, fs).settled < |Batched(w, fs).ended|
  {
    assert Batched(w, fs).ended[w.settled] == w.ended[w.settled];
    assert calls[i] in calls;
  }

  lemma SaidNone(w: Watch, fs: seq<Finalized>)
    ensures SaidAll(w, ResultMessages(fs[..0])) == w
  {
    if w.Watch? {
      assert w.ended + ResultMessages(fs[..0]) == w.ended;
    }
  }

  lemma SaidMore(w: Watch, fs: seq<Finalized>, i: nat)
    requires i < |fs| && (w.Watch? ==> Calm(w))
    ensures ResultMessages(fs[..i + 1]) == ResultMessages(fs[..i]) + [ResultMessage(fs[i])]
    ensures Said(SaidAll(w, ResultMessages(fs[..i])), ResultMessage(fs[i])) == SaidAll(w, ResultMessages(fs[..i + 1]))
  {
    hide ResultMessage;
    var before, one := ResultMessages(fs[..i]), [ResultMessage(fs[i])];
    assert ResultMessages(fs[..i + 1]) == before + one;
    if w.Watch? {
      assert w.ended + before + one == w.ended + (before + one);
    }
  }

  lemma ResultsOf(job: Job, schedule: seq<Choice>)
    requires Complete(Run(job, schedule))
    ensures var fs := Results(Run(job, schedule));
            |fs| == |job.calls| && forall i | 0 <= i < |fs| :: fs[i].call == job.calls[i]
  {
    forall i | 0 <= i < |job.calls|
      ensures Results(Run(job, schedule))[i].call == job.calls[i]
    {
      EveryCallHasOneLife(job, schedule, i);
    }
  }

  lemma NoCallsNoAnswers(calls: seq<ToolCall>)
    requires calls == []
    ensures Answers([], calls) && ResultMessages([]) == []
  {
  }

  /** The monitor once the first `i` prompts are in the transcript. */
  ghost function Prompting(s: Setup, i: nat): (p: Watch)
    requires i <= |s.prompts|
    ensures p.Watch?
  {
    var w := Opening(s);
    w.(stage := InTurn, waiting := s.prompts[i..], ended := s.prompts[..i], settled := i, duty := if s.steered then Free else PollFirst)
  }

  ghost function Begun(s: Setup): (r: Watch) {
    var w := Opening(s);
    w.(stage := Idle)
  }

  lemma PromptingStarts(s: Setup, context: seq<Message>, aborted: bool)
    ensures Next(s, Opening(s), Emitted(AgentStart, context, aborted)) == Begun(s) && Begun(s).Watch?
  {
  }

  lemma PromptingOpens(s: Setup, context: seq<Message>, aborted: bool)
    ensures Next(s, Begun(s), Emitted(TurnStart, context, aborted)) == Prompting(s, 0)
  {
    assert s.prompts[0..] == s.prompts;
  }

  lemma PromptingSteps(s: Setup, i: nat, context: seq<Message>, aborted: bool)
    requires i < |s.prompts|
    ensures Next(s, Prompting(s, i), Emitted(MessageStart(s.prompts[i]), context, aborted)) == Opened(Prompting(s, i), true)
  {
  }

  lemma PromptingEnds(s: Setup, i: nat, context: seq<Message>, aborted: bool)
    requires i < |s.prompts|
    ensures Next(s, Opened(Prompting(s, i), true), Emitted(MessageEnd(s.prompts[i]), context, aborted)) == Prompting(s, i + 1)
  {
    assert s.prompts[i..][0] == s.prompts[i] && s.prompts[i..][1..] == s.prompts[i + 1..];
    assert s.prompts[..i + 1] == s.prompts[..i] + [s.prompts[i]];
  }

  lemma PromptingDone(s: Setup)
    ensures var w := Prompting(s, |s.prompts|);
            && Rests(w, true, 0, 0, true, [], None) && w.ended == s.prompts && !w.mayStop && !w.spoke && !w.unanswered
            && w.duty == (if s.steered then Free else PollFirst) && w.steered == s.steered
  {
    assert s.prompts[..|s.prompts|] == s.prompts;
  }

  // ----- Between turns and inside them

  /** Between turns, or before the first turn's first message: `waiting` are the inputs
      taken but not yet in the transcript, `more` says that the tools want another turn,
      `routed` is what the router has chosen. */
  ghost predicate Rests(w: Watch, first: bool, turnIndex: nat, reflexes: nat, more: bool, waiting: seq<Message>,
                        routed: Option<Option<ToolCall>>) {
    && w.Watch? && Calm(w) && |w.ended| == w.settled && w.waiting == waiting
    && (if first then w.stage.InTurn? && !w.some && !w.reluctant && (w.duty.Free? || w.duty.PollFirst?) else w.stage.Idle?)
    && (first <==> turnIndex == 0) && w.turns == turnIndex && w.reflexes == reflexes
    && (w.live <==> more) && (first ==> more)
    && (w.fed <==> waiting != []) && !w.consulted && !w.cut && w.routed == routed
  }

  /** A turn is open and the model has said nothing in it; `waiting` are the inputs still to come. */
  ghost predicate TurnOpens(w: Watch, turnIndex: nat, reflexes: nat, waiting: seq<Message>, routed: Option<Option<ToolCall>>) {
    && w.Watch? && w.stage.InTurn? && Calm(w) && |w.ended| == w.settled && w.waiting == waiting
    && !w.some && !w.reluctant && w.turns == turnIndex && w.reflexes == reflexes
    && w.duty.Free? && !w.consulted && !w.cut && w.routed == routed
  }

  /** A turn is open, and `message` is all that the model has said in it; `asked` says that it was called for it. */
  ghost predicate Speaks(w: Watch, message: Message, turnIndex: nat, reflexes: nat, asked: bool) {
    && w.Watch? && w.stage.InTurn? && Calm(w) && w.waiting == []
    && |w.ended| == w.settled + 1 && w.ended[w.settled] == message
    && !w.some && !w.reluctant && w.turns == turnIndex && w.reflexes == reflexes
    && w.consulted == asked && (asked || (w.routed.Some? && w.routed.value.Some?))
  }

  /** What no entry between turns changes, except polls and calls. */
  ghost predicate Same(w: Watch, w': Watch) {
    w.Watch? && w'.Watch? && w'.spoke == w.spoke && w'.unanswered == w.unanswered && w'.steered == w.steered
  }

  /** The run owes `d`, or was aborted and told so. */
  ghost predicate Owes(w: Watch, d: Duty, aborted: bool)
    requires w.Watch?
  {
    !w.mayStop && (w.duty == d || (aborted && w.duty.Aborting?))
  }

  /** The run owes `d`, or was aborted between turns. */
  ghost predicate OwesLoosely(w: Watch, d: Duty, aborted: bool)
    requires w.Watch?
  {
    !w.mayStop && (w.duty == d || (aborted && !w.duty.CutShort? && !w.duty.Free?))
  }

  /** A round of turns begins, or is over and the run winds down. */
  ghost predicate AtHead(w: Watch, aborted: bool)
    requires w.Watch?
  {
    && !w.mayStop
    && if w.live || w.waiting != [] then MayBegin(w) || aborted
       else w.duty.AskWinding? || w.duty.AfterReflex? || (aborted && w.duty.Aborting?)
  }

  /** The run may end here. */
  ghost predicate CanEnd(w: Watch, aborted: bool)
    requires w.Watch?
  {
    w.stage.Idle? && Calm(w) && w.settled == |w.ended| && MayEnd(w, aborted)
  }

  /** The monitor accepts that the run ends. */
  lemma EndOver(s: Setup, w: Watch, newMessages: seq<Message>, context: seq<Message>, aborted: bool)
    requires w.Watch? && CanEnd(w, aborted) && newMessages == w.ended && context == s.initial + w.ended
    ensures var w' := Next(s, w, Emitted(AgentEnd(newMessages), context, aborted)); w'.Watch? && w'.stage.Over?
  {
    hide MayEnd, OnMessage, OnTool, OnTurnEnd, OnTurnStart, OnReflex;
  }

  /** The monitor accepts that the turn ends. */
  ghost predicate MayClose(s: Setup, w: Watch, m: Message, results: seq<Message>, context: seq<Message>) {
    && w.Watch? && w.stage.InTurn? && Calm(w) && w.waiting == [] && w.settled < |w.ended|
    && w.ended[w.settled..] == [m] + results && context == s.initial + w.ended
    && (w.consulted || HasFailed(m) || (w.routed.Some? && w.routed.value.Some?))
  }

  lemma TurnCloses(s: Setup, w: Watch, m: Message, results: seq<Message>, context: seq<Message>, aborted: bool)
    requires MayClose(s, w, m, results, context)
    ensures var w' := OnTurnEnd(s, w, m, results, context, aborted);
            Next(s, w, Emitted(TurnEnd(m, results), context, aborted)) == w' && w'.Watch? && w'.ended == w.ended
  {
    hide OnMessage, OnTool, OnTurnStart, OnReflex, MayEnd, DutyAfter, HasFailed, CallsOf, Answers;
  }

  /** A turn that has said its message may end with the results of its calls. */
  lemma SpokenCloses(s: Setup, w: Watch, m: Message, turnIndex: nat, reflexes: nat, asked: bool, fs: seq<Finalized>, context: seq<Message>)
    requires Speaks(w, m, turnIndex, reflexes, asked) && context == s.initial + w.ended + ResultMessages(fs)
    ensures MayClose(s, Batched(w, fs), m, ResultMessages(fs), context)
    ensures Batched(w, fs).ended == w.ended + ResultMessages(fs)
  {
    hide Reluctant, ResultMessages;
  }

  /** And then the run is between turns. */
  lemma ClosedRests(s: Setup, w: Watch, before: Watch, m: Message, fs: seq<Finalized>, context: seq<Message>, turnIndex: nat, reflexes: nat,
                    asked: bool, aborted: bool)
    requires Speaks(before, m, turnIndex, reflexes, asked) && w == Batched(before, fs) && !HasFailed(m)
    requires MayClose(s, w, m, ResultMessages(fs), context)
    ensures var w' := OnTurnEnd(s, w, m, ResultMessages(fs), context, aborted);
            && Rests(w', false, turnIndex + 1, reflexes, CallsOf(m) != [] && !Terminates(fs), [], None)
            && w'.ended == w.ended && w'.spoke == before.spoke && w'.steered == before.steered && !w'.mayStop
            && w'.unanswered == (before.unanswered || !Answers(ResultMessages(fs), CallsOf(m)))
            && w'.duty == (if aborted then CutShort else if asked then AskAfter else AfterReflex)
  {
    hide ResultMessages, CallsOf, Answers;
  }

  /** A run that was aborted while its last turn ended may end there. */
  lemma TurnCanEnd(w: Watch, turnIndex: nat, reflexes: nat, more: bool)
    requires w.Watch? && Rests(w, false, turnIndex, reflexes, more, [], None)
    requires w.duty.AskAfter? || w.duty.AfterReflex? || w.duty.CutShort?
    ensures CanEnd(w, true)
  {
  }

  /** A run whose message failed may end with its turn. */
  lemma FailedCanEnd(s: Setup, w: Watch, m: Message, context: seq<Message>, aborted: bool)
    requires MayClose(s, w, m, [], context) && HasFailed(m)
    ensures var w' := OnTurnEnd(s, w, m, [], context, aborted); w'.Watch? && forall now :: CanEnd(w', now)
  {
    hide CallsOf, Answers;
  }

  lemma FirstIsFirst(w: Watch, turnIndex: nat, reflexes: nat, more: bool, waiting: seq<Message>, routed: Option<Option<ToolCall>>)
    requires Rests(w, true, turnIndex, reflexes, more, waiting, routed)
    ensures turnIndex == 0 && more
  {
  }

  /** Whether the router is to be asked is not changed by a turn's start. */
  lemma RoutesStay(s: Setup, w: Watch, turnIndex: nat, reflexes: nat, more: bool, waiting: seq<Message>,
                   routed: Option<Option<ToolCall>>, context: seq<Message>, aborted: bool)
    requires Rests(w, false, turnIndex, reflexes, more, waiting, routed)
    requires var w' := Next(s, w, Emitted(TurnStart, context, aborted)); TurnOpens(w', turnIndex, reflexes, waiting, routed) && w'.fed == w.fed
    ensures ToRoute(s, Next(s, w, Emitted(TurnStart, context, aborted))) == ToRoute(s, w)
  {
    hide Next;
  }

  /** The router's own message may be said. */
  lemma ReflexOpens(w: Watch, turnIndex: nat, reflexes: nat, call: ToolCall)
    requires TurnOpens(w, turnIndex, reflexes, [], Some(Some(call)))
    ensures MayOpen(w, ReflexMessage(call)) && w.(open := false) == w
  {
  }

  lemma ReflexSpeaks(w: Watch, turnIndex: nat, reflexes: nat, call: ToolCall)
    requires TurnOpens(w, turnIndex, reflexes, [], Some(Some(call)))
    ensures Speaks(Said(w, ReflexMessage(call)), ReflexMessage(call), turnIndex, reflexes, false) && Same(w, Said(w, ReflexMessage(call)))
    ensures Said(w, ReflexMessage(call)).ended == w.ended + [ReflexMessage(call)]
  {
  }

  /** A turn whose inputs are in the transcript may call the provider. */
  lemma OpenMayCall(s: Setup, w: Watch, turnIndex: nat, reflexes: nat, routed: Option<Option<ToolCall>>)
    requires TurnOpens(w, turnIndex, reflexes, [], routed) && !w.unanswered && (routed.Some? ==> routed.value.None?)
    requires ToRoute(s, w) ==> routed.Some?
    ensures MayCall(s, w)
  {
    hide ToRoute;
  }

  /** What a response makes of an open turn. */
  lemma SpokenAppends(s: Setup, w: Watch, turnIndex: nat, reflexes: nat, routed: Option<Option<ToolCall>>, m: Message, called: bool, cut: bool,
                      context: seq<Message>)
    requires TurnOpens(w, turnIndex, reflexes, [], routed) && !w.unanswered
    requires context == s.initial + Said(Cutting(Consulted(w, called), cut), m).ended
    ensures var w' := Said(Cutting(Consulted(w, called), cut), m);
            && w'.Watch? && w'.ended == w.ended + [m]
            && (called ==> Speaks(w', m, turnIndex, 0, true) && !w'.steered && w'.spoke && !w'.unanswered)
            && (called || HasFailed(m) ==> MayClose(s, w', m, [], context))
  {
    hide HasFailed;
  }

  /** What an await between turns makes of the monitor. */
  lemma RestsAwaits(w: Watch, first: bool, turnIndex: nat, reflexes: nat, more: bool, waiting: seq<Message>)
    requires Rests(w, first, turnIndex, reflexes, more, waiting, None)
    ensures w.fate.Going? && (w.stage.Idle? || (first && w.stage.InTurn?))
    ensures var what := if first then FirstPoll else PostTurn;
            && (forall how: Settling, aborted :: OnAwaited(w, what, how, aborted)
                  == if how.Resolved? then w else if how.Pending? then Fated(w, Halted)
                     else if Uncaught(what, how, aborted) then Fated(w, Failing) else Owing(w, CutShort))
            && (forall how: Settling, aborted :: how.Refused? && !Uncaught(what, how, aborted) ==> aborted && !first)
    ensures forall fate :: Fated(w, fate).Watch? && Fated(w, fate).stage == w.stage && Fated(w, fate).fate == fate && Fated(w, fate).ended == w.ended
    ensures Owing(w, CutShort).ended == w.ended && (!first ==> CanEnd(Owing(w, CutShort), true))
  {
  }

  lemma StoppedCanEnd(w: Watch, turnIndex: nat, reflexes: nat, more: bool, aborted: bool)
    requires Rests(w, false, turnIndex, reflexes, more, [], None)
    ensures w.mayStop ==> CanEnd(w, aborted)
  {
  }

  /** After the last hook, or with new inputs, another round may begin. */
  lemma HeadAgain(w: Watch, turnIndex: nat, reflexes: nat, more: bool, waiting: seq<Message>, aborted: bool)
    requires Rests(w, false, turnIndex, reflexes, more, waiting, None)
    requires waiting == [] ==> Owes(w, if w.live then Free else AskWinding, aborted)
    requires waiting != [] ==> !w.mayStop && w.duty.Free?
    ensures AtHead(w, aborted)
  {
  }

  /** A round that is not aborted may begin its turn. */
  lemma HeadBegins(s: Setup, w: Watch, first: bool, turnIndex: nat, reflexes: nat, more: bool, waiting: seq<Message>)
    requires Rests(w, first, turnIndex, reflexes, more, waiting, None) && (more || waiting != []) && AtHead(w, false)
    ensures MayBegin(w) && !w.mayStop && (w.fed <==> waiting != []) && (waiting == [] ==> more)
    ensures waiting != [] || s.maxReflexes <= reflexes ==> !ToRoute(s, w)
  {
  }

  /** The router has been asked if it had to be. */
  lemma EnoughRouted(s: Setup, w: Watch, first: bool, turnIndex: nat, reflexes: nat, more: bool, waiting: seq<Message>,
                     routed: Option<Option<ToolCall>>)
    requires Rests(w, first, turnIndex, reflexes, more, waiting, routed)
    requires routed.None? ==> waiting != [] || s.maxReflexes <= reflexes || !s.routes
    ensures ToRoute(s, w) ==> routed.Some?
  {
  }

  /** After a reflex turn, another round begins or the winding down does. */
  lemma ReflexHeads(w: Watch, turnIndex: nat, reflexes: nat, more: bool, aborted: bool)
    requires Rests(w, false, turnIndex, reflexes, more, [], None) && w.duty.AfterReflex? && !w.mayStop
    ensures AtHead(w, aborted)
  {
  }

  /** The first round begins after the first poll, unless the run is aborted. */
  lemma FirstHeads(w: Watch, waiting: seq<Message>, aborted: bool)
    requires Rests(w, true, 0, 0, true, waiting, None) && !w.mayStop && (w.duty.Free? || aborted)
    ensures AtHead(w, aborted)
  {
  }

  /** When nothing more is wanted, the winding down begins. */
  lemma HeadWinds(w: Watch, turnIndex: nat, reflexes: nat, aborted: bool)
    requires Rests(w, false, turnIndex, reflexes, false, [], None) && AtHead(w, aborted)
    ensures !w.mayStop && ((aborted && w.duty.Aborting?) || DueHook(w) == Some(BeforeTurn)) && AfterAsking(w) == PollFollowUps
  {
  }

  lemma NothingLeftEnds(w: Watch, turnIndex: nat, reflexes: nat, aborted: bool)
    requires Rests(w, false, turnIndex, reflexes, false, [], None) && (w.duty.NothingLeft? || (aborted && w.duty.Aborting?))
    ensures CanEnd(w, aborted)
  {
  }

  lemma ConcatOne(messages: seq<Message>)
    ensures Concat([Ticket(0, messages)]) == messages
  {
    assert Concat([Ticket(0, messages)]) == messages + Concat([]) == messages;
  }

  /** What an await of the router makes of the monitor, and that its answer is wanted. */
  lemma RestsRoutes(s: Setup, w: Watch, first: bool, turnIndex: nat, reflexes: nat)
    requires Rests(w, first, turnIndex, reflexes, true, [], None) && s.routes && reflexes < s.maxReflexes
    ensures w.fate.Going? && (w.stage.Idle? || w.stage.InTurn?) && ToRoute(s, w)
    ensures forall how, aborted :: OnAwaited(w, Routing, how, aborted) == if how.Pending? then Fated(w, Halted) else w
    ensures Fated(w, Halted).Watch? && Fated(w, Halted).stage == w.stage && Fated(w, Halted).fate == Halted
  {
  }

  lemma RestsOpens(w: Watch, reflexes: nat, waiting: seq<Message>, routed: Option<Option<ToolCall>>)
    requires Rests(w, true, 0, reflexes, true, waiting, routed) && MayBegin(w)
    ensures TurnOpens(w, 0, reflexes, waiting, routed)
  {
  }

  lemma StartOpens(s: Setup, w: Watch, turnIndex: nat, reflexes: nat, more: bool, waiting: seq<Message>,
                   routed: Option<Option<ToolCall>>, context: seq<Message>, aborted: bool)
    requires Rests(w, false, turnIndex, reflexes, more, waiting, routed) && MayBegin(w) && !w.mayStop && (more || waiting != [])
    requires aborted ==> routed.Some?
    ensures var w' := Next(s, w, Emitted(TurnStart, context, aborted));
            TurnOpens(w', turnIndex, reflexes, waiting, routed) && Same(w, w') && w'.ended == w.ended && w'.fed == w.fed
  {
    hide OnMessage, OnTool, OnTurnEnd, OnReflex, MayEnd, MayBegin;
  }

  lemma ReflexRests(s: Setup, w: Watch, first: bool, turnIndex: nat, reflexes: nat, call: ToolCall, context: seq<Message>, aborted: bool)
    requires Rests(w, first, turnIndex, reflexes, true, [], Some(Some(call))) && MayBegin(w) && !w.mayStop && reflexes < s.maxReflexes
    ensures var w' := Next(s, w, Emitted(Reflex(call.name, turnIndex, reflexes + 1), context, aborted));
            && Rests(w', first, turnIndex, reflexes + 1, true, [], Some(Some(call))) && MayBegin(w') && !w'.mayStop
            && Same(w, w') && w'.ended == w.ended
  {
    hide OnMessage, OnTool, OnTurnEnd, OnTurnStart, MayEnd;
  }

  lemma RoutedRests(s: Setup, w: Watch, first: bool, turnIndex: nat, reflexes: nat, choice: Option<ToolCall>)
    requires Rests(w, first, turnIndex, reflexes, true, [], None) && MayBegin(w) && !w.mayStop && ToRoute(s, w)
    ensures var w' := Next(s, w, Routed(choice));
            && Rests(w', first, turnIndex, reflexes, true, [], Some(choice)) && MayBegin(w') && !w'.mayStop
            && Same(w, w') && w'.ended == w.ended
  {
  }

  lemma AskedRests(s: Setup, w: Watch, turnIndex: nat, reflexes: nat, more: bool, hook: Hook, stop: bool, aborted: bool)
    requires Rests(w, false, turnIndex, reflexes, more, [], None) && !w.mayStop
    requires (aborted && !w.duty.CutShort? && !w.duty.Free?) || DueHook(w) == Some(hook)
    ensures var w' := Next(s, w, Asked(hook, stop, aborted));
            && w' == OnAsked(w, hook, stop, aborted)
            && Rests(w', false, turnIndex, reflexes, more, [], None) && Same(w, w') && w'.ended == w.ended
            && w'.mayStop == stop && w'.live == w.live && (!stop ==> w'.duty == if aborted then Aborting else AfterAsking(w))
  {
    hide AfterAsking;
  }

  lemma PolledRests(s: Setup, w: Watch, first: bool, turnIndex: nat, reflexes: nat, more: bool,
                    source: Source, mode: QueueMode, tickets: seq<Ticket>)
    requires Rests(w, first, turnIndex, reflexes, more, [], None) && !w.mayStop && Due(w.duty) == Some(source)
    requires source.Steering? ==> !w.steered && (mode.OneAtATime? ==> |tickets| <= 1)
    ensures var w' := Next(s, w, Polled(source, mode, tickets));
            && w'.Watch? && Rests(w', first, turnIndex, reflexes, more, Concat(tickets), None) && !w'.mayStop && w'.ended == w.ended
            && w'.spoke == w.spoke && w'.unanswered == w.unanswered
            && w'.duty == AfterPoll(w.duty, Concat(tickets) != [])
  {
    hide Concat;
  }

  lemma AwaitGoesOn(s: Setup, w: Watch, what: Await, how: Settling, aborted: bool)
    requires w.Watch? && w.fate.Going? && (w.stage.Idle? || (w.stage.InTurn? && !what.PostTurn?))
    ensures Next(s, w, Awaited(what, how, aborted)) == OnAwaited(w, what, how, aborted)
    ensures OnAwaited(w, what, how, aborted).Watch?
  {
    hide Uncaught, Fated, Owing, Sliced;
    StillWatch(w);
  }

  lemma StillWatch(w: Watch)
    requires w.Watch?
    ensures Fated(w, Halted).Watch? && Fated(w, Failing).Watch? && Owing(w, CutShort).Watch? && Sliced(w).Watch?
  {
  }

  lemma InputTaken(s: Setup, w: Watch, turnIndex: nat, reflexes: nat, m: Message, rest: seq<Message>,
                   routed: Option<Option<ToolCall>>, context: seq<Message>, aborted: bool)
    requires TurnOpens(w, turnIndex, reflexes, [m] + rest, routed)
    ensures Next(s, w, Emitted(MessageStart(m), context, aborted)) == Opened(w, true)
  {
    hide OnTool, OnTurnEnd, OnTurnStart, OnReflex, MayEnd, MaySpeak;
    assert ([m] + rest)[0] == m;
  }

  lemma InputEnds(s: Setup, w: Watch, turnIndex: nat, reflexes: nat, m: Message, rest: seq<Message>,
                  routed: Option<Option<ToolCall>>, context: seq<Message>, aborted: bool)
    requires TurnOpens(w, turnIndex, reflexes, [m] + rest, routed)
    ensures var w' := Next(s, Opened(w, true), Emitted(MessageEnd(m), context, aborted));
            TurnOpens(w', turnIndex, reflexes, rest, routed) && Same(w, w') && w'.ended == w.ended + [m] && ToRoute(s, w') == ToRoute(s, w)
  {
    hide OnTool, OnTurnEnd, OnTurnStart, OnReflex, MayEnd, MaySpeak;
    assert ([m] + rest)[0] == m && ([m] + rest)[1..] == rest;
  }

  /** The response of the provider is awaited; its message is being streamed, or not yet. */
  ghost predicate Awaiting(w: Watch, open: bool) {
    && w.Watch? && w.stage.InTurn? && w.open == open && w.running == multiset{} && w.fate.Going?
    && w.waiting == [] && w.settled == |w.ended| && w.duty.Free? && (w.routed.Some? ==> w.routed.value.None?)
  }

  /** A message may be said: nothing else is, no input is waiting, and the turn lets it. */
  ghost predicate MayOpen(w: Watch, m: Message) {
    w.Watch? && w.stage.InTurn? && Calm(w) && w.waiting == [] && MaySpeak(w, m)
  }

  lemma MessageOpens(s: Setup, w: Watch, m: Message, context: seq<Message>, aborted: bool)
    requires w.Watch? ==> MayOpen(w, m)
    ensures Next(s, w, Emitted(MessageStart(m), context, aborted)) == Opened(w, true)
    ensures w.Watch? ==> Opened(w, true).Watch?
  {
    hide OnTool, OnTurnEnd, OnTurnStart, OnReflex, MayEnd, MaySpeak;
  }

  lemma MessageGoesOn(s: Setup, w: Watch, m: Message, context: seq<Message>, aborted: bool)
    requires w.Watch? ==> Awaiting(w, true)
    ensures Next(s, w, Emitted(MessageUpdate(m), context, aborted)) == w
  {
    hide OnTool, OnTurnEnd, OnTurnStart, OnReflex, MayEnd, MaySpeak;
  }

  lemma MessageCloses(s: Setup, w: Watch, m: Message, context: seq<Message>, aborted: bool)
    requires w.Watch? ==> MayOpen(w.(open := false), m)
    ensures Next(s, Opened(w, true), Emitted(MessageEnd(m), context, aborted)) == Said(w, m)
    ensures w.Watch? ==> Said(w, m).Watch?
  {
    hide OnTool, OnTurnEnd, OnTurnStart, OnReflex, MayEnd;
  }

  /** A message may be said at once, from its start to its end. */
  lemma StreamOpens(w: Watch, open: bool, m: Message)
    requires Awaiting(w, open) && (w.cut ==> m.Assistant? && m.stopReason.Aborted?)
    ensures MayOpen(w.(open := false), m) && Opened(w, open) == w
    ensures !open ==> w.(open := false) == w
  {
  }

  lemma StreamReopens(s: Setup, w: Watch, m: Message, context: seq<Message>, aborted: bool)
    requires w.Watch? ==> Awaiting(w, true)
    ensures Next(s, w, Emitted(MessageStart(m), context, aborted)) == Broken
  {
    hide OnTool, OnTurnEnd, OnTurnStart, OnReflex, MayEnd, MaySpeak;
  }

  lemma BrokenNotOpened(w: Watch)
    ensures Opened(w, true).Broken? <==> w.Broken?
  {
  }

  lemma SaidAppends(initial: seq<Message>, w: Watch, m: Message)
    ensures Said(w, m).Broken? <==> w.Broken?
    ensures w.Watch? ==> initial + Said(w, m).ended == initial + w.ended + [m]
  {
  }

  lemma AwaitingGoes(w: Watch, open: bool)
    requires Awaiting(w, open)
    ensures w.fate.Going? && w.stage.InTurn?
  {
  }

  lemma OpenedAwaits(w: Watch)
    requires Awaiting(w, false)
    ensures Awaiting(Opened(w, true), true) && Opened(w, true).ended == w.ended && Opened(w, true).cut == w.cut
  {
  }

  lemma StaysOpened(w: Watch, open: bool)
    ensures w.Watch? && Awaiting(w, open) ==> Opened(w, open) == w
  {
  }

  /** What was streamed before does not show in what was said. */
  lemma SaidOpened(w: Watch, open: bool, cut: bool)
    ensures forall m :: Said(Cutting(Opened(w, open), cut), m) == Said(Cutting(w, cut), m)
    ensures Cutting(w, false) == w
    ensures Opened(w, open).Watch? <==> w.Watch?
    ensures w.Watch? ==> Opened(w, open).cut == w.cut
  {
  }

  lemma OpenedSaid(w: Watch, open: bool, m: Message)
    ensures Said(Opened(w, open), m) == Said(w, m)
  {
  }

  lemma OpenedAgain(w: Watch, open: bool)
    ensures forall before :: Opened(Opened(w, before), open) == Opened(w, open)
  {
  }

  lemma AwaitCloses(w: Watch, open: bool)
    requires Awaiting(w, open)
    ensures forall aborted :: OnAwaited(w, Closing, Resolved, aborted) == w
    ensures forall aborted :: OnAwaited(w, Closing, Pending, aborted) == Fated(w, Halted)
    ensures forall aborted, isAbort :: OnAwaited(w, Closing, Refused(isAbort), aborted) == if isAbort && aborted then w else Fated(w, Failing)
    ensures forall fate :: Fated(w, fate).Watch? && Fated(w, fate).stage.InTurn? && Fated(w, fate).fate == fate
  {
  }

  /** What an await of the response makes of the monitor. */
  lemma AwaitReads(w: Watch, open: bool)
    requires Awaiting(w, open)
    ensures forall aborted :: OnAwaited(w, Reading, Resolved, aborted) == w
    ensures forall aborted :: OnAwaited(w, Reading, Pending, aborted) == Fated(w, Halted)
    ensures forall aborted, isAbort :: OnAwaited(w, Reading, Refused(isAbort), aborted) == if isAbort && aborted then Sliced(w) else Fated(w, Failing)
    ensures forall fate :: Fated(w, fate).Watch? && Fated(w, fate).stage.InTurn? && Fated(w, fate).fate == fate
    ensures Awaiting(Sliced(w), open) && Sliced(w).cut && Sliced(w).ended == w.ended
  {
  }

  /** The provider may be called in this turn. */
  ghost predicate MayCall(s: Setup, w: Watch) {
    && w.Watch? && w.stage.InTurn? && Clear(w) && !w.unanswered && w.duty.Free? && !w.consulted && !w.cut
    && (w.routed.Some? ==> w.routed.value.None?) && (ToRoute(s, w) ==> w.routed.Some?)
  }

  lemma CallConsults(s: Setup, w: Watch, context: seq<Message>)
    requires MayCall(s, w) && context == s.initial + w.ended
    ensures Next(s, w, Called(context)) == Consulted(w, true)
    ensures Consulted(w, true).Watch? && Awaiting(Consulted(w, true), false) && !Consulted(w, true).cut
    ensures Consulted(w, true).ended == w.ended
  {
    hide ToRoute;
  }

  lemma CallAwaits(s: Setup, w: Watch)
    requires MayCall(s, w)
    ensures Awaiting(w, false) && !w.cut
  {
    hide ToRoute;
  }

  function SignalEvent(call: ToolCall, signal: Signal): (r: Event) {
    match signal
    case Started => ToolStart(call)
    case Updated(partial) => ToolUpdate(call, partial)
    case Finished(f) => ToolEnd(f)
  }

  lemma WorkingCalm(w: Watch, calls: seq<ToolCall>)
    requires w.Watch? && Working(w, calls)
    ensures Calm(w) && w.stage.InTurn?
  {
  }

  lemma WorkingStarts(w: Watch, job: Job)
    requires w.Watch? && Working(w, job.calls)
    ensures AtWork(w, job.calls, Init(job).slots) == w
  {
    StartWorking(w, job);
  }

  /** A result may be announced once its call has ended. */
  lemma WorkedOpens(w: Watch, calls: seq<ToolCall>, fs: seq<Finalized>)
    requires w.Watch? && Working(w, calls) && w.settled < |w.ended|
    ensures forall m :: MayOpen(Worked(w, fs), m)
  {
  }

  lemma AnnouncingOpens(w: Watch, calls: seq<ToolCall>, fs: seq<Finalized>, i: nat)
    requires w.Watch? && Working(w, calls) && w.settled < |w.ended| && i < |fs|
    ensures Calm(Worked(w, fs))
    ensures MayOpen(SaidAll(Worked(w, fs), ResultMessages(fs[..i])), ResultMessage(fs[i]))
  {
  }

  lemma StartWorking(w: Watch, job: Job)
    requires w.Watch? ==> Calm(w)
    ensures AtWork(w, job.calls, Init(job).slots) == w
  {
    BagEmpty(job.calls, Init(job).slots);
  }

  lemma FinishWorking(w: Watch, calls: seq<ToolCall>, b: Progress)
    requires |b.slots| == |calls| && Complete(b)
    requires w.Watch? ==> Calm(w)
    ensures AtWork(w, calls, b.slots) == Worked(w, Results(b))
  {
    BagEmpty(calls, b.slots);
    var fs := Results(b);
    if fs != [] {
      assert b.slots[0].Ended?;
    }
    if Reluctant(fs) {
      var k :| 0 <= k < |fs| && fs[k].result.terminate != Some(true);
      assert b.slots[k].Ended? && b.slots[k].finalized == fs[k];
    }
    if AnyReluctant(b.slots) {
      var k :| 0 <= k < |b.slots| && b.slots[k].Ended? && b.slots[k].finalized.result.terminate != Some(true);
      assert fs[k] == b.slots[k].finalized;
    }
  }

  lemma RunAppend(job: Job, schedule: seq<Choice>, choice: Choice)
    ensures Run(job, schedule + [choice]) == Step(job, Run(job, schedule), choice)
  {
    assert (schedule + [choice])[..|schedule|] == schedule;
  }

  /** Each step of a batch emits at most one event, and the monitor follows it. */
  lemma StepAtWork(w: Watch, setup: Setup, now: Watch, job: Job, b: Progress, i: nat, move: Move, context: seq<Message>, aborted: bool)
    requires |b.slots| == |job.calls|
    requires w.Watch? ==> Working(w, job.calls)
    requires now.Watch? ==> now == AtWork(w, job.calls, b.slots)
    requires Attempt(job, b, i, move).Some?
    ensures var s := Attempt(job, b, i, move).value;
            && |s.signals| <= 1
            && (s.signals == [] && w.Watch? ==> AtWork(w, job.calls, b.slots[i := s.slot]) == AtWork(w, job.calls, b.slots))
            && (s.signals != [] ==>
                  var next := Next(setup, now, Emitted(SignalEvent(job.calls[i], s.signals[0]), context, aborted));
                  && (next.Broken? <==> now.Broken?)
                  && (now.Watch? ==> next == AtWork(w, job.calls, b.slots[i := s.slot])))
  {
    hide StepSlot, MayMove, Bag, Next, InFlight, AnyEnded, AnyReluctant, CurrentCalls;
    var s := Attempt(job, b, i, move).value;
    var call, slots := job.calls[i], b.slots[i := s.slot];
    StepSignals(job.hooks, call, b.aborted, b.slots[i], move);
    StepEnds(job.hooks, call, b.aborted, b.slots[i], move);
    BagStep(job.calls, b.slots, i, s.slot);
    EndedUpdate(b.slots, i, s.slot);
    assert call in job.calls;
    if s.signals != [] && now.Watch? {
      if s.signals[0].Started? && DistinctIds(CurrentCalls(w)) {
        BagMisses(job.calls, b.slots, i);
      }
      BusyStep(w, setup, now.running, now.some, now.reluctant, call, s.signals[0], context, aborted);
    } else if s.signals != [] {
      BrokenStays(setup, Emitted(SignalEvent(call, s.signals[0]), context, aborted));
    }
  }

  /** No message has gone from the transcript. */
  ghost predicate Grown(w: Watch, w': Watch) {
    w.Watch? && w'.Watch? ==> |w.ended| <= |w'.ended|
  }

  lemma GrownSelf(w: Watch)
    ensures Grown(w, w)
  {
  }

  lemma NextGrows(setup: Setup, w: Watch, e: Entry)
    ensures Grown(w, Next(setup, w, e))
  {
    hide Next;
    if w.Watch? && Next(setup, w, e).Watch? {
      ProtocolLaws.NextMoves(setup, w, e);
    }
  }

  lemma BrokenStays(setup: Setup, e: Entry)
    ensures Next(setup, Broken, e) == Broken
  {
  }
}
