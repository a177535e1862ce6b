/** What lies between turns: which hooks are asked, which sources are polled,
    and what makes a run go on or end. */
module TurnLaws {
  import opened Messages
  import opened PendingQueue
  import opened Protocol
  import opened ProtocolLaws

  /** One step of a boundary between turns: a hook has answered, or a source was polled. */
  datatype Step = Hooked(hook: Hook, stop: bool) | Found(source: Source, some: bool)

  const ON_AFTER := Hooked(AfterTurn, false)
  const ON_BEFORE := Hooked(BeforeTurn, false)

  /** The steps that the entries from `j` on, before `k`, take. */
  function Trail(log: seq<Entry>, j: nat, k: nat): (t: seq<Step>)
    requires j <= k <= |log|
  {
    if j == k then [] else Trail(log, j, k - 1) + Steps(log[k - 1])
  }

  function Steps(e: Entry): (t: seq<Step>) {
    match e
    case Asked(hook, stop, _) => [Hooked(hook, stop)]
    case Polled(source, _, tickets) => [Found(source, Concat(tickets) != [])]
    case _ => []
  }

  /** What comes before the winding down: after a turn of the provider both hooks
      let the run go on, steering was found empty, and the second hook agreed again. */
  function Quietly(asked: bool): (t: seq<Step>) {
    if asked then [ON_AFTER, ON_BEFORE, Found(Steering, false), ON_BEFORE] else []
  }

  /** The longest way to the end: nothing was found anywhere, and no hook stopped the run. */
  function WholeWay(asked: bool, spoke: bool): (t: seq<Step>) {
    Quietly(asked) + [ON_BEFORE, Found(FollowUp, false), ON_BEFORE] + (if spoke then [Found(Continuation, false)] else [])
  }

  /** The ways to another turn. */
  predicate ToNextTurn(t: seq<Step>, asked: bool, live: bool, spoke: bool) {
    || (asked && t == [ON_AFTER, ON_BEFORE, Found(Steering, true)])
    || (live && t == Quietly(asked))
    || (!live && t == Quietly(asked) + [ON_BEFORE, Found(FollowUp, true)])
    || (!live && spoke && t == Quietly(asked) + [ON_BEFORE, Found(FollowUp, false), ON_BEFORE, Found(Continuation, true)])
  }

  /** The ways to the end: a hook stops the run on its way, or there is nothing left. */
  predicate ToTheEnd(t: seq<Step>, asked: bool, live: bool, spoke: bool) {
    || (!live && t == WholeWay(asked, spoke))
    || StoppedOn(t, asked, live, spoke)
  }

  predicate StoppedOn(t: seq<Step>, asked: bool, live: bool, spoke: bool) {
    && t != [] && t[|t| - 1].Hooked? && t[|t| - 1].stop
    && t[..|t| - 1] + [Hooked(t[|t| - 1].hook, false)] <= (if live then Quietly(asked) else WholeWay(asked, spoke))
  }

  /** Nothing in the entries from `j` on, before `k`, tells of an abort or of an event other than a reflex. */
  predicate Undisturbed(log: seq<Entry>, j: nat, k: nat)
    requires j <= k <= |log|
  {
    forall i | j <= i < k :: Calmly(log[i])
  }

  predicate Calmly(e: Entry) {
    match e
    case Emitted(event, _, _) => event.Reflex?
    case Called(_) => false
    case Asked(_, _, aborted) => !aborted
    case Awaited(what, how, _) => !(what.PostTurn? && how.Refused?)
    case _ => true
  }

  /** Where the steps have led, by what the run owes. */
  predicate LedTo(d: Duty, t: seq<Step>, asked: bool, live: bool, spoke: bool) {
    match d
    case Free => ToNextTurn(t, asked, live, spoke)
    case AskAfter => asked && t == []
    case AskBefore => asked && t == [ON_AFTER]
    case PollSteering => asked && t == [ON_AFTER, ON_BEFORE]
    case AskAgain => asked && t == [ON_AFTER, ON_BEFORE, Found(Steering, false)]
    case AfterReflex => !asked && t == []
    case AskWinding => asked && !live && t == Quietly(asked)
    case PollFollowUps => !live && t == Quietly(asked) + [ON_BEFORE]
    case AskLast => !live && t == Quietly(asked) + [ON_BEFORE, Found(FollowUp, false)]
    case PollContinuations => !live && spoke && t == Quietly(asked) + [ON_BEFORE, Found(FollowUp, false), ON_BEFORE]
    case NothingLeft => !live && t == WholeWay(asked, spoke)
    case _ => false
  }

  ghost predicate OnTheWay(w: Watch, t: seq<Step>, asked: bool, live: bool, spoke: bool) {
    && w.Watch? && w.stage.Idle? && w.live == live && w.spoke == spoke
    && if w.mayStop then StoppedOn(t, asked, live, spoke) else LedTo(w.duty, t, asked, live, spoke)
  }

  lemma AskedLeads(w: Watch, hook: Hook, stop: bool, t: seq<Step>, asked: bool, live: bool, spoke: bool)
    requires OnTheWay(w, t, asked, live, spoke) && OnAsked(w, hook, stop, false).Watch?
    ensures OnTheWay(OnAsked(w, hook, stop, false), t + [Hooked(hook, stop)], asked, live, spoke)
  {
    hide OnTheWay, OnAsked;
    AskedChanges(w, hook, stop, t, asked, live, spoke);
    WayOn(w.duty, hook, t, asked, live, spoke);
    if stop {
      StopsHere(t, hook, asked, live, spoke);
    }
    OnTheWayAgain(OnAsked(w, hook, stop, false), t + [Hooked(hook, stop)], asked, live, spoke);
  }

  lemma AskedChanges(w: Watch, hook: Hook, stop: bool, t: seq<Step>, asked: bool, live: bool, spoke: bool)
    requires OnTheWay(w, t, asked, live, spoke) && OnAsked(w, hook, stop, false).Watch?
    ensures var w' := OnAsked(w, hook, stop, false);
            && w.Watch? && !w.mayStop && LedTo(w.duty, t, asked, live, spoke) && NextHook(w.duty, live) == Some(hook)
            && w'.stage.Idle? && w'.live == live && w'.spoke == spoke && w'.mayStop == stop
            && (!stop ==> w'.duty == Onward(w.duty, live, spoke))
  {
    hide LedTo, StoppedOn;
  }

  function NextHook(d: Duty, live: bool): (r: Option<Hook>) {
    match d
    case AskAfter => Some(AfterTurn)
    case AskBefore => Some(BeforeTurn)
    case AskAgain => Some(BeforeTurn)
    case AskWinding => Some(BeforeTurn)
    case AfterReflex => if live then None else Some(BeforeTurn)
    case AskLast => Some(BeforeTurn)
    case _ => None
  }

  function Onward(d: Duty, live: bool, spoke: bool): (r: Duty) {
    match d
    case AskAfter => AskBefore
    case AskBefore => PollSteering
    case AskAgain => if live then Free else AskWinding
    case AskLast => if spoke then PollContinuations else NothingLeft
    case _ => PollFollowUps
  }

  lemma WayOn(d: Duty, hook: Hook, t: seq<Step>, asked: bool, live: bool, spoke: bool)
    requires LedTo(d, t, asked, live, spoke) && NextHook(d, live) == Some(hook)
    ensures LedTo(Onward(d, live, spoke), t + [Hooked(hook, false)], asked, live, spoke)
    ensures t + [Hooked(hook, false)] <= if live then Quietly(asked) else WholeWay(asked, spoke)
  {
  }

  lemma StopsHere(t: seq<Step>, hook: Hook, asked: bool, live: bool, spoke: bool)
    requires t + [Hooked(hook, false)] <= if live then Quietly(asked) else WholeWay(asked, spoke)
    ensures StoppedOn(t + [Hooked(hook, true)], asked, live, spoke)
  {
    var t' := t + [Hooked(hook, true)];
    assert t'[..|t'| - 1] == t;
  }

  lemma OnTheWayAgain(w: Watch, t: seq<Step>, asked: bool, live: bool, spoke: bool)
    requires w.Watch? && w.stage.Idle? && w.live == live && w.spoke == spoke
    requires if w.mayStop then StoppedOn(t, asked, live, spoke) else LedTo(w.duty, t, asked, live, spoke)
    ensures OnTheWay(w, t, asked, live, spoke)
  {
  }

  lemma PolledLeads(w: Watch, source: Source, mode: QueueMode, tickets: seq<Ticket>, t: seq<Step>, asked: bool, live: bool, spoke: bool)
    requires OnTheWay(w, t, asked, live, spoke) && OnPolled(w, source, mode, tickets).Watch?
    ensures OnTheWay(OnPolled(w, source, mode, tickets), t + [Found(source, Concat(tickets) != [])], asked, live, spoke)
  {
    hide OnTheWay, OnPolled, Concat;
    PolledChanges(w, source, mode, tickets, t, asked, live, spoke);
    PollsOn(w.duty, source, Concat(tickets) != [], t, asked, live, spoke);
    OnTheWayAgain(OnPolled(w, source, mode, tickets), t + [Found(source, Concat(tickets) != [])], asked, live, spoke);
  }

  lemma PolledChanges(w: Watch, source: Source, mode: QueueMode, tickets: seq<Ticket>, t: seq<Step>, asked: bool, live: bool, spoke: bool)
    requires OnTheWay(w, t, asked, live, spoke) && OnPolled(w, source, mode, tickets).Watch?
    ensures var w' := OnPolled(w, source, mode, tickets);
            && w.Watch? && !w.mayStop && LedTo(w.duty, t, asked, live, spoke) && Due(w.duty) == Some(source)
            && w'.stage.Idle? && w'.live == live && w'.spoke == spoke && !w'.mayStop
            && w'.duty == AfterPoll(w.duty, Concat(tickets) != [])
  {
    hide LedTo, StoppedOn, Concat, AfterPoll, Due;
  }

  lemma PollsOn(d: Duty, source: Source, some: bool, t: seq<Step>, asked: bool, live: bool, spoke: bool)
    requires LedTo(d, t, asked, live, spoke) && Due(d) == Some(source)
    ensures LedTo(AfterPoll(d, some), t + [Found(source, some)], asked, live, spoke)
  {
  }

  /** The monitor stands between turns as it did. */
  ghost predicate Alike(w: Watch, w': Watch) {
    && w.Watch? && w'.Watch? && w'.stage == w.stage && w'.live == w.live && w'.spoke == w.spoke
    && w'.mayStop == w.mayStop && w'.duty == w.duty
  }

  lemma AlikeLeads(w: Watch, w': Watch, t: seq<Step>, asked: bool, live: bool, spoke: bool)
    requires OnTheWay(w, t, asked, live, spoke) && Alike(w, w')
    ensures OnTheWay(w', t + [], asked, live, spoke)
  {
    hide LedTo, StoppedOn;
    assert t + [] == t;
  }

  lemma ReflexAlike(s: Setup, w: Watch, toolName: string, index: nat, consecutive: nat)
    requires w.Watch? && OnReflex(s, w, toolName, index, consecutive).Watch?
    ensures Alike(w, OnReflex(s, w, toolName, index, consecutive))
  {
    hide MayBegin;
  }

  lemma AwaitedAlike(w: Watch, what: Await, how: Settling, aborted: bool)
    requires w.Watch? && !(what.PostTurn? && how.Refused?)
    ensures Alike(w, OnAwaited(w, what, how, aborted))
  {
    hide Uncaught, Fated, Sliced, Alike;
    FatedAlike(w, Halted);
    FatedAlike(w, Failing);
    SlicedAlike(w);
  }

  lemma FatedAlike(w: Watch, fate: Fate)
    requires w.Watch?
    ensures Alike(w, Fated(w, fate))
  {
  }

  lemma SlicedAlike(w: Watch)
    requires w.Watch?
    ensures Alike(w, Sliced(w)) && Alike(w, w)
  {
  }

  lemma RoutedAlike(s: Setup, w: Watch, choice: Option<ToolCall>)
    requires w.Watch? && OnRouted(s, w, choice).Watch?
    ensures Alike(w, OnRouted(s, w, choice))
  {
    hide MayBegin, ToRoute;
  }

  lemma StepLeads(s: Setup, w: Watch, e: Entry, t: seq<Step>, asked: bool, live: bool, spoke: bool)
    requires OnTheWay(w, t, asked, live, spoke) && Next(s, w, e).Watch? && Calmly(e)
    ensures OnTheWay(Next(s, w, e), t + Steps(e), asked, live, spoke)
  {
    hide OnTheWay, OnReflex, OnPolled, OnAsked, OnAwaited, OnRouted, Concat, Alike;
    match e
    case Emitted(event, _, _) =>
      ReflexAlike(s, w, event.toolName, event.turnIndex, event.consecutiveReflexes);
      AlikeLeads(w, Next(s, w, e), t, asked, live, spoke);
    case Asked(hook, stop, aborted) => AskedLeads(w, hook, stop, t, asked, live, spoke);
    case Polled(source, mode, tickets) => PolledLeads(w, source, mode, tickets, t, asked, live, spoke);
    case Awaited(what, how, aborted) =>
      AwaitedAlike(w, what, how, aborted);
      AlikeLeads(w, Next(s, w, e), t, asked, live, spoke);
    case Routed(choice) =>
      RoutedAlike(s, w, choice);
      AlikeLeads(w, Next(s, w, e), t, asked, live, spoke);
    case Yielded =>
      FatedAlike(w, Halted);
      AlikeLeads(w, Next(s, w, e), t, asked, live, spoke);
  }

  /** A turn that ended, neither failed nor aborted. */
  predicate GoodEnd(e: Entry) {
    e.Emitted? && e.event.TurnEnd? && !e.aborted && !HasFailed(e.event.message)
  }

  lemma TurnLeads(s: Setup, w: Watch, e: Entry)
    requires w.Watch? && Next(s, w, e).Watch? && GoodEnd(e)
    ensures var w' := Next(s, w, e); OnTheWay(w', [], w.consulted, w'.live, w'.spoke)
  {
    hide Answers, CallsOf, ToNextTurn, StoppedOn;
  }

  lemma {:induction false} WayFromTurn(s: Setup, log: seq<Entry>, j: nat, k: nat)
    requires Unbroken(s, log) && j < k <= |log| && GoodEnd(log[j]) && Undisturbed(log, j + 1, k)
    ensures At(s, log, j).Watch? && At(s, log, j + 1).Watch?
    ensures OnTheWay(At(s, log, k), Trail(log, j + 1, k), At(s, log, j).consulted, At(s, log, j + 1).live, At(s, log, j + 1).spoke)
    decreases k
  {
    hide Observe, Next, OnTheWay, GoodEnd, Calmly, Steps;
    PrefixUnbroken(s, log, j);
    PrefixUnbroken(s, log, j + 1);
    if k == j + 1 {
      AtNext(s, log, j);
      TurnLeads(s, At(s, log, j), log[j]);
    } else {
      WayFromTurn(s, log, j, k - 1);
      PrefixUnbroken(s, log, k);
      AtNext(s, log, k - 1);
      StepLeads(s, At(s, log, k - 1), log[k - 1], Trail(log, j + 1, k - 1), At(s, log, j).consulted,
                At(s, log, j + 1).live, At(s, log, j + 1).spoke);
    }
  }

  /** Between a turn that neither failed nor was aborted and the next turn, or
      the end of the run, the hooks are asked and the sources polled in just this
      order, as far as no abort interferes: after a turn of the provider both
      hooks, then steering; without any, the second hook again; and when the
      tools want nothing more, the hook, follow-ups, the hook, continuations.
      Any hook that says stop ends the run there. */
  lemma BetweenTurns(s: Setup, log: seq<Entry>, j: nat, k: nat)
    requires Unbroken(s, log) && j < k < |log| && GoodEnd(log[j]) && Undisturbed(log, j + 1, k) && log[k].Emitted?
    ensures At(s, log, j).Watch? && At(s, log, j + 1).Watch?
    ensures var t, asked := Trail(log, j + 1, k), At(s, log, j).consulted;
            var live, spoke := At(s, log, j + 1).live, At(s, log, j + 1).spoke;
            && (log[k].event.TurnStart? ==> ToNextTurn(t, asked, live, spoke))
            && (log[k].event.AgentEnd? && !log[k].aborted ==> ToTheEnd(t, asked, live, spoke))
  {
    hide Observe, Next, OnTheWay, GoodEnd, Calmly, ToNextTurn, ToTheEnd;
    WayFromTurn(s, log, j, k);
    PrefixUnbroken(s, log, k + 1);
    AtNext(s, log, k);
    WayEnds(s, At(s, log, k), log[k], Trail(log, j + 1, k), At(s, log, j).consulted, At(s, log, j + 1).live, At(s, log, j + 1).spoke);
  }

  lemma WayEnds(s: Setup, w: Watch, e: Entry, t: seq<Step>, asked: bool, live: bool, spoke: bool)
    requires OnTheWay(w, t, asked, live, spoke) && Next(s, w, e).Watch? && e.Emitted?
    ensures e.event.TurnStart? ==> ToNextTurn(t, asked, live, spoke)
    ensures e.event.AgentEnd? && !e.aborted ==> ToTheEnd(t, asked, live, spoke)
  {
    hide OnMessage, OnTool, OnTurnEnd, OnReflex, ToNextTurn, StoppedOn, WholeWay;
    LiveReflex(t, asked, live, spoke);
  }

  lemma LiveReflex(t: seq<Step>, asked: bool, live: bool, spoke: bool)
    ensures live && !asked && t == [] ==> ToNextTurn(t, asked, live, spoke)
  {
  }
  // ----- How a run stops

  /** A hook that stops the run, a turn that ends with a failed message or
      aborted, or an abort that cuts short what follows a turn. */
  predicate Stops(e: Entry) {
    || (e.Asked? && e.stop)
    || (e.Emitted? && e.event.TurnEnd? && (e.aborted || HasFailed(e.event.message)))
    || (e.Awaited? && e.what.PostTurn? && e.how.Refused? && e.how.isAbort && e.aborted)
  }

  ghost predicate Stopping(w: Watch) {
    w.Watch? && (w.mayStop || w.duty.CutShort?) && w.stage.Idle?
  }

  predicate LastWords(e: Entry) {
    e.Awaited? || e.Yielded? || (e.Emitted? && e.event.AgentEnd?)
  }

  /** After a stop nothing is said, called, polled or asked any more: the run can only end. */
  lemma {:induction false} StopIsFinal(s: Setup, log: seq<Entry>, i: nat, k: nat)
    requires Unbroken(s, log) && i < k < |log| && Stops(log[i])
    ensures LastWords(log[k])
    ensures log[k].Emitted? || Stopping(At(s, log, k + 1))
    decreases k
  {
    hide Observe, Next, Stops, Stopping, LastWords;
    PrefixUnbroken(s, log, i);
    PrefixUnbroken(s, log, k);
    PrefixUnbroken(s, log, k + 1);
    AtNext(s, log, k);
    if i + 1 == k {
      PrefixUnbroken(s, log, i + 1);
      AtNext(s, log, i);
      StopStops(s, At(s, log, i), log[i]);
    } else {
      StopIsFinal(s, log, i, k - 1);
      if log[k - 1].Emitted? {
        EndIsLast(s, log, k - 1);
      }
    }
    StoppedOnlyEnds(s, At(s, log, k), log[k]);
  }

  lemma EndIsLast(s: Setup, log: seq<Entry>, k: nat)
    requires Unbroken(s, log) && k < |log| && log[k].Emitted? && LastWords(log[k])
    ensures k == |log| - 1
  {
    RunHasItsShape(s, log);
  }

  lemma StopStops(s: Setup, w: Watch, e: Entry)
    requires w.Watch? && Next(s, w, e).Watch? && Stops(e)
    ensures Stopping(Next(s, w, e))
  {
    hide OnAsked, OnTurnEnd, OnAwaited, HasFailed, Stopping;
    if e.Asked? {
      HookStops(w, e.hook, e.stop, e.aborted);
    } else if e.Awaited? {
      AbortStops(w, e.what, e.how, e.aborted);
    } else {
      FailureStops(s, w, e.event.message, e.event.toolResults, e.context, e.aborted);
    }
  }

  lemma HookStops(w: Watch, hook: Hook, stop: bool, aborted: bool)
    requires w.Watch? && OnAsked(w, hook, stop, aborted).Watch? && stop
    ensures Stopping(OnAsked(w, hook, stop, aborted))
  {
    hide DueHook, AfterAsking;
  }

  lemma AbortStops(w: Watch, what: Await, how: Settling, aborted: bool)
    requires w.Watch? && w.stage.Idle? && what.PostTurn? && how.Refused? && how.isAbort && aborted
    ensures Stopping(OnAwaited(w, what, how, aborted))
  {
  }

  lemma FailureStops(s: Setup, w: Watch, m: Message, results: seq<Message>, context: seq<Message>, aborted: bool)
    requires w.Watch? && OnTurnEnd(s, w, m, results, context, aborted).Watch? && (aborted || HasFailed(m))
    ensures Stopping(OnTurnEnd(s, w, m, results, context, aborted))
  {
    hide Answers, CallsOf, HasFailed;
  }

  lemma StoppedOnlyEnds(s: Setup, w: Watch, e: Entry)
    requires Stopping(w) && Next(s, w, e).Watch?
    ensures LastWords(e) && (e.Emitted? || Stopping(Next(s, w, e)))
  {
    hide OnEvent, ToRoute, OnAwaited;
    if e.Emitted? {
      StoppedInIdle(s, w, e);
    } else if e.Awaited? {
      AwaitedStops(w, e.what, e.how, e.aborted);
    }
  }

  lemma StoppedInIdle(s: Setup, w: Watch, e: Entry)
    requires Stopping(w) && Next(s, w, e).Watch? && e.Emitted?
    ensures e.event.AgentEnd?
  {
    NextStage(s, w, e);
    hide OnMessage, OnTool, OnTurnEnd, MayEnd;
    match e.event
    case AgentStart =>
    case AgentEnd(_) =>
    case TurnStart =>
    case TurnEnd(_, _) =>
    case Reflex(_, _, _) =>
    case _ => EntrySpeaks(s, w, e);
  }

  lemma AwaitedStops(w: Watch, what: Await, how: Settling, aborted: bool)
    requires Stopping(w)
    ensures Stopping(OnAwaited(w, what, how, aborted))
  {
    hide Uncaught, Fated, Owing, Sliced, Stopping;
    StillStopping(w, Halted);
    StillStopping(w, Failing);
  }

  lemma StillStopping(w: Watch, fate: Fate)
    requires Stopping(w)
    ensures Stopping(Fated(w, fate)) && Stopping(Owing(w, CutShort)) && Stopping(Sliced(w))
  {
  }

  /** A run has failed just when its last entry is an await that was refused and
      that it does not catch, and it waits just when its last entry says so. */
  lemma FailsExactly(s: Setup, log: seq<Entry>)
    requires Unbroken(s, log)
    ensures var w := Observe(s, log);
            var n := |log| - 1;
            && (w.fate.Failing? <==> log != [] && log[n].Awaited? && Uncaught(log[n].what, log[n].how, log[n].aborted))
            && (w.fate.Halted? <==> log != [] && (log[n].Yielded? || (log[n].Awaited? && log[n].how.Pending?)))
  {
    hide Observe, Next, Uncaught;
    if log == [] {
      OpeningGoes(s);
    } else {
      var n := |log| - 1;
      PrefixUnbroken(s, log, n);
      AtNext(s, log, n);
      assert log[..|log|] == log;
      EntryShifts(s, At(s, log, n), log[n]);
    }
  }

  lemma OpeningGoes(s: Setup)
    ensures Observe(s, []) == Opening(s) && Opening(s).fate.Going?
  {
  }

  /** What an entry makes of the run, of the router's choice and of the inputs that came in. */
  ghost predicate Stays(w: Watch, w': Watch) {
    w.Watch? && w'.Watch? && w'.fate == w.fate && w'.routed == w.routed && w'.fed == w.fed
  }

  ghost predicate Shifts(w: Watch, e: Entry, w': Watch) {
    && w.Watch? && w'.Watch? && w.fate.Going?
    && (w'.fate.Failing? <==> e.Awaited? && Uncaught(e.what, e.how, e.aborted))
    && (w'.fate.Halted? <==> e.Yielded? || (e.Awaited? && e.how.Pending?))
    && w'.routed == (if e.Routed? then Some(e.choice) else if e.Emitted? && e.event.TurnEnd? then None else w.routed)
    && w'.fed == (if e.Polled? then Concat(e.tickets) != [] else if e.Emitted? && e.event.TurnEnd? then false else w.fed)
  }

  lemma EntryShifts(s: Setup, w: Watch, e: Entry)
    requires w.Watch? && Next(s, w, e).Watch?
    ensures Shifts(w, e, Next(s, w, e))
  {
    hide OnEvent, OnCalled, OnPolled, OnAsked, OnAwaited, OnRouted, Uncaught, Concat;
    match e
    case Emitted(event, context, aborted) => EventShifts(s, w, event, context, aborted);
    case Called(context) => CalledStays(s, w, context);
    case Polled(source, mode, tickets) => PolledShifts(w, source, mode, tickets);
    case Asked(hook, stop, aborted) => AskedStays(w, hook, stop, aborted);
    case Awaited(what, how, aborted) => AwaitedShifts(w, what, how, aborted);
    case Routed(choice) => RoutedShifts(s, w, choice);
    case Yielded =>
  }

  lemma EventShifts(s: Setup, w: Watch, e: Event, context: seq<Message>, aborted: bool)
    requires w.Watch? && w.fate.Going? && OnEvent(s, w, e, context, aborted).Watch?
    ensures Shifts(w, Emitted(e, context, aborted), OnEvent(s, w, e, context, aborted))
  {
    hide OnMessage, OnTool, OnTurnEnd, OnTurnStart, OnReflex, MayEnd;
    MessageStays(w, e);
    ToolStays(w, e);
    if e.TurnEnd? {
      TurnEndShifts(s, w, e.message, e.toolResults, context, aborted);
    } else if e.TurnStart? {
      TurnStartStays(s, w, aborted);
    } else if e.Reflex? {
      ReflexStays(s, w, e.toolName, e.turnIndex, e.consecutiveReflexes);
    }
  }

  lemma MessageStays(w: Watch, e: Event)
    requires w.Watch?
    ensures OnMessage(w, e).Watch? ==> Stays(w, OnMessage(w, e))
  {
    hide MaySpeak, Opened, Said, TookIn;
    if e.MessageStart? || e.MessageUpdate? || e.MessageEnd? {
      SpeechStays(w, e.message);
    }
  }

  lemma SpeechStays(w: Watch, m: Message)
    requires w.Watch?
    ensures Stays(w, Opened(w, true)) && Stays(w, Said(w, m))
    ensures w.waiting != [] ==> Stays(w, TookIn(w, m))
  {
  }

  lemma ToolStays(w: Watch, e: Event)
    requires w.Watch?
    ensures OnTool(w, e).Watch? ==> Stays(w, OnTool(w, e))
  {
    hide CurrentCalls, DistinctIds, Busy, Stays, Calm;
    StaysSelf(w);
    if e.ToolStart? {
      BusyStays(w, w.running + multiset{e.call.id}, w.some, w.reluctant);
    } else if e.ToolEnd? {
      BusyStays(w, w.running - multiset{e.finalized.call.id}, true, w.reluctant || e.finalized.result.terminate != Some(true));
    }
  }

  lemma StaysSelf(w: Watch)
    requires w.Watch?
    ensures Stays(w, w)
  {
  }

  lemma BusyStays(w: Watch, running: multiset<string>, some: bool, reluctant: bool)
    requires w.Watch?
    ensures Stays(w, Busy(w, running, some, reluctant))
  {
  }

  lemma TurnEndShifts(s: Setup, w: Watch, m: Message, results: seq<Message>, context: seq<Message>, aborted: bool)
    requires w.Watch? && OnTurnEnd(s, w, m, results, context, aborted).Watch?
    ensures var w' := OnTurnEnd(s, w, m, results, context, aborted); w'.fate == w.fate && w'.routed == None && !w'.fed
  {
    hide Answers, CallsOf, HasFailed;
  }

  lemma TurnStartStays(s: Setup, w: Watch, aborted: bool)
    requires w.Watch? && OnTurnStart(s, w, aborted).Watch?
    ensures Stays(w, OnTurnStart(s, w, aborted))
  {
    hide MayBegin;
  }

  lemma ReflexStays(s: Setup, w: Watch, toolName: string, index: nat, consecutive: nat)
    requires w.Watch? && OnReflex(s, w, toolName, index, consecutive).Watch?
    ensures Stays(w, OnReflex(s, w, toolName, index, consecutive))
  {
    hide MayBegin;
  }

  lemma CalledStays(s: Setup, w: Watch, context: seq<Message>)
    requires w.Watch? && OnCalled(s, w, context).Watch?
    ensures Stays(w, OnCalled(s, w, context))
  {
    hide ToRoute;
  }

  lemma PolledShifts(w: Watch, source: Source, mode: QueueMode, tickets: seq<Ticket>)
    requires w.Watch? && OnPolled(w, source, mode, tickets).Watch?
    ensures var w' := OnPolled(w, source, mode, tickets); w'.fate == w.fate && w'.routed == w.routed && w'.fed == (Concat(tickets) != [])
  {
    hide Concat, Due, AfterPoll;
  }

  lemma AskedStays(w: Watch, hook: Hook, stop: bool, aborted: bool)
    requires w.Watch? && OnAsked(w, hook, stop, aborted).Watch?
    ensures Stays(w, OnAsked(w, hook, stop, aborted))
  {
    hide DueHook, AfterAsking;
  }

  lemma AwaitedShifts(w: Watch, what: Await, how: Settling, aborted: bool)
    requires w.Watch? && w.fate.Going?
    ensures Shifts(w, Awaited(what, how, aborted), OnAwaited(w, what, how, aborted))
  {
    hide Fated, Owing, Sliced;
    AwaitsShift(w);
  }

  lemma AwaitsShift(w: Watch)
    requires w.Watch?
    ensures forall fate :: var w' := Fated(w, fate); w'.Watch? && w'.fate == fate && w'.routed == w.routed && w'.fed == w.fed
    ensures Stays(w, Owing(w, CutShort)) && Stays(w, Sliced(w))
  {
  }

  lemma RoutedShifts(s: Setup, w: Watch, choice: Option<ToolCall>)
    requires w.Watch? && OnRouted(s, w, choice).Watch?
    ensures var w' := OnRouted(s, w, choice); w'.fate == w.fate && w'.routed == Some(choice) && w'.fed == w.fed
  {
    hide MayBegin, ToRoute;
  }

  // ----- The router

  predicate EndsTurn(e: Entry) {
    e.Emitted? && e.event.TurnEnd?
  }

  /** No turn has ended since entry `i`. */
  predicate Since(log: seq<Entry>, i: nat, k: nat)
    requires k <= |log|
  {
    i < k && forall n | i <= n < k :: !EndsTurn(log[n])
  }

  /** The router's choice for the turn at hand. */
  predicate RouterChose(log: seq<Entry>, k: nat, choice: Option<ToolCall>)
    requires k <= |log|
  {
    exists i :: 0 <= i < k && log[i] == Routed(choice) && Since(log, i, k)
  }

  /** A poll has brought something in for the turn at hand. */
  predicate InputsCame(log: seq<Entry>, k: nat)
    requires k <= |log|
  {
    exists i :: 0 <= i < k && log[i].Polled? && Concat(log[i].tickets) != [] && Since(log, i, k)
  }

  lemma {:induction false} ChoiceStands(s: Setup, log: seq<Entry>, k: nat)
    requires Unbroken(s, log) && k <= |log|
    ensures At(s, log, k).Watch?
    ensures At(s, log, k).routed.Some? ==> RouterChose(log, k, At(s, log, k).routed.value)
    ensures At(s, log, k).fed ==> InputsCame(log, k)
    decreases k
  {
    hide Observe, Next, Concat, RouterChose, InputsCame, Shifts;
    PrefixUnbroken(s, log, k);
    if k == 0 {
      NothingChosen(s, log);
    } else {
      ChoiceStands(s, log, k - 1);
      AtNext(s, log, k - 1);
      EntryShifts(s, At(s, log, k - 1), log[k - 1]);
      ChoiceGoesOn(At(s, log, k - 1), log, k - 1, At(s, log, k));
    }
  }

  lemma NothingChosen(s: Setup, log: seq<Entry>)
    ensures At(s, log, 0) == Opening(s) && Opening(s).routed == None && !Opening(s).fed
  {
  }

  lemma ChoiceGoesOn(w: Watch, log: seq<Entry>, k: nat, w': Watch)
    requires k < |log| && Shifts(w, log[k], w')
    requires w.routed.Some? ==> RouterChose(log, k, w.routed.value)
    requires w.fed ==> InputsCame(log, k)
    ensures w'.routed.Some? ==> RouterChose(log, k + 1, w'.routed.value)
    ensures w'.fed ==> InputsCame(log, k + 1)
  {
    hide Concat, Uncaught;
    if w'.routed.Some? {
      if log[k].Routed? {
        assert Since(log, k, k + 1);
      } else {
        var i :| 0 <= i < k && log[i] == Routed(w.routed.value) && Since(log, i, k);
        assert Since(log, i, k + 1);
      }
    }
    if w'.fed {
      if log[k].Polled? {
        assert Since(log, k, k + 1);
      } else {
        var i :| 0 <= i < k && log[i].Polled? && Concat(log[i].tickets) != [] && Since(log, i, k);
        assert Since(log, i, k + 1);
      }
    }
  }

  /** A run with a router calls the provider only when the router had nothing for
      this turn, unless inputs came in for it, or the reflexes in a row are at their ceiling. */
  lemma RouterComesFirst(s: Setup, log: seq<Entry>, k: nat)
    requires Unbroken(s, log) && k < |log| && log[k].Called? && s.routes
    ensures At(s, log, k).Watch?
    ensures RouterChose(log, k, None) || InputsCame(log, k) || At(s, log, k).reflexes >= s.maxReflexes
    ensures forall call :: At(s, log, k).routed != Some(Some(call))
  {
    hide Observe, Next, RouterChose, InputsCame, Concat;
    ChoiceStands(s, log, k);
    PrefixUnbroken(s, log, k + 1);
    AtNext(s, log, k);
    CalledUnrouted(s, At(s, log, k), log[k]);
  }

  lemma CalledUnrouted(s: Setup, w: Watch, e: Entry)
    requires w.Watch? && e.Called? && Next(s, w, e).Watch?
    ensures w.routed.Some? ==> w.routed.value.None?
    ensures s.routes && !w.fed && w.reflexes < s.maxReflexes ==> w.routed.Some?
  {
  }

  /** A reflex is what the router chose for this turn, and the turn says just that. */
  lemma ReflexesAreRouted(s: Setup, log: seq<Entry>, k: nat)
    requires Unbroken(s, log) && k < |log| && log[k].Emitted? && log[k].event.Reflex?
    ensures exists call :: RouterChose(log, k, Some(call)) && call.name == log[k].event.toolName
  {
    hide Observe, Next, RouterChose, InputsCame;
    ChoiceStands(s, log, k);
    PrefixUnbroken(s, log, k + 1);
    AtNext(s, log, k);
    ReflexChosen(s, At(s, log, k), log[k]);
  }

  lemma ReflexChosen(s: Setup, w: Watch, e: Entry)
    requires w.Watch? && e.Emitted? && e.event.Reflex? && Next(s, w, e).Watch?
    ensures w.routed.Some? && w.routed.value.Some? && w.routed.value.value.name == e.event.toolName
  {
    hide MayBegin;
  }

  // ----- The first poll

  /** Steering has not been polled yet: nothing but inputs has been said. */
  ghost predicate Unpolled(w: Watch) {
    && w.Watch? && w.turns == 0 && |w.ended| == w.settled
    && match w.stage
       case Fresh => w.duty.Free?
       case Idle => w.duty.Free? || w.duty.CutShort?
       case InTurn => w.duty.PollFirst? || w.duty.CutShort?
       case Over => true
  }

  /** Unless its prompts came from the steering queue, a run polls steering before it calls the provider. */
  lemma {:induction false} SteeringPolledFirst(s: Setup, log: seq<Entry>, k: nat)
    requires Unbroken(s, log) && !s.steered && k < |log| && log[k].Called?
    ensures exists i | 0 <= i < k :: log[i].Polled? && log[i].source.Steering?
  {
    hide Observe, Next;
    if forall i | 0 <= i < k :: !(log[i].Polled? && log[i].source.Steering?) {
      StillUnpolled(s, log, k);
      PrefixUnbroken(s, log, k + 1);
      AtNext(s, log, k);
      UnpolledNotCalled(s, At(s, log, k), log[k]);
    }
  }

  lemma {:induction false} StillUnpolled(s: Setup, log: seq<Entry>, k: nat)
    requires Unbroken(s, log) && !s.steered && k <= |log|
    requires forall i | 0 <= i < k :: !(log[i].Polled? && log[i].source.Steering?)
    ensures Unpolled(At(s, log, k))
    decreases k
  {
    hide Observe, Next, Unpolled;
    PrefixUnbroken(s, log, k);
    if k == 0 {
      OpeningUnpolled(s, log);
    } else {
      StillUnpolled(s, log, k - 1);
      AtNext(s, log, k - 1);
      UnpolledMoves(s, At(s, log, k - 1), log[k - 1]);
    }
  }

  lemma OpeningUnpolled(s: Setup, log: seq<Entry>)
    ensures Unpolled(At(s, log, 0))
  {
  }

  lemma UnpolledNotCalled(s: Setup, w: Watch, e: Entry)
    requires Unpolled(w) && e.Called?
    ensures Next(s, w, e).Broken?
  {
    hide ToRoute;
  }

  lemma UnpolledMoves(s: Setup, w: Watch, e: Entry)
    requires Unpolled(w) && Next(s, w, e).Watch? && !s.steered && !(e.Polled? && e.source.Steering?)
    ensures Unpolled(Next(s, w, e))
  {
    hide OnEvent, OnAwaited, ToRoute, MayBegin, Concat;
    match e
    case Emitted(event, context, aborted) => UnpolledEvents(s, w, event, context, aborted);
    case Awaited(what, how, aborted) => UnpolledAwaits(w, what, how, aborted);
    case _ =>
  }

  lemma UnpolledAwaits(w: Watch, what: Await, how: Settling, aborted: bool)
    requires Unpolled(w)
    ensures w.stage.Idle? || (w.stage.InTurn? && !what.PostTurn?) ==> Unpolled(OnAwaited(w, what, how, aborted))
  {
    hide Uncaught, Fated, Owing, Sliced, Unpolled;
    StillUnmoved(w, Halted);
    StillUnmoved(w, Failing);
  }

  lemma StillUnmoved(w: Watch, fate: Fate)
    requires Unpolled(w)
    ensures Unpolled(Fated(w, fate)) && Unpolled(Sliced(w))
    ensures w.stage.Idle? || w.stage.InTurn? ==> Unpolled(Owing(w, CutShort))
  {
  }

  lemma UnpolledEvents(s: Setup, w: Watch, e: Event, context: seq<Message>, aborted: bool)
    requires Unpolled(w) && OnEvent(s, w, e, context, aborted).Watch? && !s.steered
    ensures Unpolled(OnEvent(s, w, e, context, aborted))
  {
    hide OnMessage, OnTool, MayEnd, MayBegin, Answers, CallsOf;
    UnpolledMessages(w, e);
    UnpolledTools(w, e);
  }

  lemma UnpolledMessages(w: Watch, e: Event)
    requires Unpolled(w)
    ensures OnMessage(w, e).Watch? ==> Unpolled(OnMessage(w, e))
  {
  }

  lemma UnpolledTools(w: Watch, e: Event)
    requires Unpolled(w)
    ensures OnTool(w, e).Watch? ==> Unpolled(OnTool(w, e))
  {
    hide CallsOf, DistinctIds;
  }
  // ----- What a turn came to

  /** What an entry does to what is known of the turn at hand. */
  ghost predicate Marks(w: Watch, e: Entry, w': Watch) {
    && w.Watch? && w'.Watch?
    && w'.spoke == (w.spoke || e.Called?)
    && w'.consulted == (if e.Called? then true else if StartsTurn(e) || EndsTurn(e) then false else w.consulted)
    && w'.some == (if EndsCall(e) then true else if StartsTurn(e) then false else w.some)
    && w'.reluctant == (if EndsCall(e) then w.reluctant || Wants(e) else if StartsTurn(e) then false else w.reluctant)
    && w'.live == (if EndsTurn(e) then CallsOf(e.event.message) != [] && (w.some ==> w.reluctant) else w.live)
  }

  predicate StartsTurn(e: Entry) {
    e.Emitted? && e.event.TurnStart?
  }

  predicate EndsCall(e: Entry) {
    e.Emitted? && e.event.ToolEnd?
  }

  /** A tool call has ended that does not ask to terminate. */
  predicate Wants(e: Entry) {
    EndsCall(e) && e.event.finalized.result.terminate != Some(true)
  }

  lemma EntryMarks(s: Setup, w: Watch, e: Entry)
    requires w.Watch? && Next(s, w, e).Watch?
    ensures Marks(w, e, Next(s, w, e))
  {
    hide OnEvent, OnCalled, OnPolled, OnAsked, OnAwaited, OnRouted, Fated, Marks, Concat;
    match e
    case Emitted(event, context, aborted) => EventMarks(s, w, event, context, aborted);
    case Called(context) => CalledMarks(s, w, context);
    case Polled(source, mode, tickets) => PolledMarks(w, source, mode, tickets);
    case _ =>
      QuietKeeps(s, w, e);
      KeptMarks(w, e, Next(s, w, e));
  }

  lemma KeptMarks(w: Watch, e: Entry, w': Watch)
    requires Quiet(e) && ProtocolLaws.Kept(w, w')
    ensures Marks(w, e, w')
  {
  }

  lemma CalledMarks(s: Setup, w: Watch, context: seq<Message>)
    requires w.Watch? && OnCalled(s, w, context).Watch?
    ensures Marks(w, Called(context), OnCalled(s, w, context))
  {
    hide ToRoute;
  }

  lemma PolledMarks(w: Watch, source: Source, mode: QueueMode, tickets: seq<Ticket>)
    requires w.Watch? && OnPolled(w, source, mode, tickets).Watch?
    ensures Marks(w, Polled(source, mode, tickets), OnPolled(w, source, mode, tickets))
  {
    hide Concat, Due, AfterPoll;
  }

  lemma EventMarks(s: Setup, w: Watch, e: Event, context: seq<Message>, aborted: bool)
    requires w.Watch? && OnEvent(s, w, e, context, aborted).Watch?
    ensures Marks(w, Emitted(e, context, aborted), OnEvent(s, w, e, context, aborted))
  {
    hide OnMessage, OnTool, OnTurnEnd, OnTurnStart, OnReflex, MayEnd;
    MessageMarks(w, e, context, aborted);
    ToolMarks(w, e, context, aborted);
    if e.TurnEnd? {
      TurnEndMarks(s, w, e.message, e.toolResults, context, aborted);
    } else if e.TurnStart? {
      TurnStartMarks(s, w, context, aborted);
    } else if e.Reflex? {
      ReflexMarks(s, w, e, context, aborted);
    }
  }

  lemma MessageMarks(w: Watch, e: Event, context: seq<Message>, aborted: bool)
    requires w.Watch?
    ensures OnMessage(w, e).Watch? ==> Marks(w, Emitted(e, context, aborted), OnMessage(w, e))
  {
    hide MaySpeak, Opened, Said, TookIn;
    if e.MessageStart? || e.MessageUpdate? || e.MessageEnd? {
      SpeechMarks(w, e.message, e, context, aborted);
    }
  }

  lemma SpeechMarks(w: Watch, m: Message, e: Event, context: seq<Message>, aborted: bool)
    requires w.Watch? && (e.MessageStart? || e.MessageUpdate? || e.MessageEnd?)
    ensures Marks(w, Emitted(e, context, aborted), w) && Marks(w, Emitted(e, context, aborted), Opened(w, true))
    ensures Marks(w, Emitted(e, context, aborted), Said(w, m))
    ensures w.waiting != [] ==> Marks(w, Emitted(e, context, aborted), TookIn(w, m))
  {
  }

  lemma ToolMarks(w: Watch, e: Event, context: seq<Message>, aborted: bool)
    requires w.Watch?
    ensures OnTool(w, e).Watch? ==> Marks(w, Emitted(e, context, aborted), OnTool(w, e))
  {
    hide CurrentCalls, DistinctIds, Busy, Marks, Calm;
    if e.ToolStart? {
      StartMarks(w, e.call, w.running + multiset{e.call.id}, context, aborted);
    } else if e.ToolEnd? {
      EndMarks(w, e.finalized, w.running - multiset{e.finalized.call.id}, context, aborted);
    } else if e.ToolUpdate? {
      UpdateMarks(w, e, context, aborted);
    }
  }

  lemma UpdateMarks(w: Watch, e: Event, context: seq<Message>, aborted: bool)
    requires w.Watch? && e.ToolUpdate?
    ensures Marks(w, Emitted(e, context, aborted), w)
  {
  }

  lemma StartMarks(w: Watch, call: ToolCall, running: multiset<string>, context: seq<Message>, aborted: bool)
    requires w.Watch?
    ensures Marks(w, Emitted(ToolStart(call), context, aborted), Busy(w, running, w.some, w.reluctant))
  {
  }

  lemma EndMarks(w: Watch, f: Finalized, running: multiset<string>, context: seq<Message>, aborted: bool)
    requires w.Watch?
    ensures Marks(w, Emitted(ToolEnd(f), context, aborted), Busy(w, running, true, w.reluctant || f.result.terminate != Some(true)))
  {
  }

  lemma TurnEndMarks(s: Setup, w: Watch, m: Message, results: seq<Message>, context: seq<Message>, aborted: bool)
    requires w.Watch? && OnTurnEnd(s, w, m, results, context, aborted).Watch?
    ensures Marks(w, Emitted(TurnEnd(m, results), context, aborted), OnTurnEnd(s, w, m, results, context, aborted))
  {
    hide Answers, CallsOf, HasFailed;
  }

  lemma TurnStartMarks(s: Setup, w: Watch, context: seq<Message>, aborted: bool)
    requires w.Watch? && OnTurnStart(s, w, aborted).Watch?
    ensures Marks(w, Emitted(TurnStart, context, aborted), OnTurnStart(s, w, aborted))
  {
    hide MayBegin;
  }

  lemma ReflexMarks(s: Setup, w: Watch, e: Event, context: seq<Message>, aborted: bool)
    requires w.Watch? && e.Reflex? && OnReflex(s, w, e.toolName, e.turnIndex, e.consecutiveReflexes).Watch?
    ensures Marks(w, Emitted(e, context, aborted), OnReflex(s, w, e.toolName, e.turnIndex, e.consecutiveReflexes))
  {
    hide MayBegin;
  }

  /** No turn has started or ended since entry `i`. */
  predicate Within(log: seq<Entry>, i: nat, k: nat)
    requires k <= |log|
  {
    i < k && forall n | i <= n < k :: !StartsTurn(log[n]) && !EndsTurn(log[n])
  }

  /** No turn has started since entry `i`. */
  predicate SinceStart(log: seq<Entry>, i: nat, k: nat)
    requires k <= |log|
  {
    i < k && forall n | i <= n < k :: !StartsTurn(log[n])
  }

  /** The provider was called in this turn, as far as it has come. */
  predicate CalledIn(log: seq<Entry>, k: nat)
    requires k <= |log|
  {
    exists i :: 0 <= i < k && log[i].Called? && Within(log, i, k)
  }

  predicate EndedIn(log: seq<Entry>, k: nat)
    requires k <= |log|
  {
    exists i :: 0 <= i < k && EndsCall(log[i]) && SinceStart(log, i, k)
  }

  predicate WantedIn(log: seq<Entry>, k: nat)
    requires k <= |log|
  {
    exists i :: 0 <= i < k && Wants(log[i]) && SinceStart(log, i, k)
  }

  predicate CalledBefore(log: seq<Entry>, k: nat)
    requires k <= |log|
  {
    exists i :: 0 <= i < k && log[i].Called?
  }

  lemma {:induction false} MarksMean(s: Setup, log: seq<Entry>, k: nat)
    requires Unbroken(s, log) && k <= |log|
    ensures At(s, log, k).Watch?
    ensures var w := At(s, log, k);
            && (w.consulted <==> CalledIn(log, k)) && (w.spoke <==> CalledBefore(log, k))
            && (w.some <==> EndedIn(log, k)) && (w.reluctant <==> WantedIn(log, k))
    decreases k
  {
    hide Observe, Next, Marks, CalledIn, EndedIn, WantedIn, CalledBefore;
    PrefixUnbroken(s, log, k);
    if k == 0 {
      NothingMarked(s, log);
    } else {
      MarksMean(s, log, k - 1);
      AtNext(s, log, k - 1);
      EntryMarks(s, At(s, log, k - 1), log[k - 1]);
      CallsGoOn(log, k - 1);
      EndsGoOn(log, k - 1);
      MarksFollow(At(s, log, k - 1), log, k - 1, At(s, log, k));
    }
  }

  lemma NothingMarked(s: Setup, log: seq<Entry>)
    ensures At(s, log, 0) == Opening(s)
    ensures !Opening(s).consulted && !Opening(s).spoke && !Opening(s).some && !Opening(s).reluctant
    ensures !CalledIn(log, 0) && !CalledBefore(log, 0) && !EndedIn(log, 0) && !WantedIn(log, 0)
  {
  }

  lemma CallsGoOn(log: seq<Entry>, k: nat)
    requires k < |log|
    ensures CalledIn(log, k + 1) <==> log[k].Called? || (CalledIn(log, k) && !StartsTurn(log[k]) && !EndsTurn(log[k]))
    ensures CalledBefore(log, k + 1) <==> log[k].Called? || CalledBefore(log, k)
  {
    if log[k].Called? {
      assert Within(log, k, k + 1);
    }
    if i :| 0 <= i < k && log[i].Called? && Within(log, i, k) {
      assert !StartsTurn(log[k]) && !EndsTurn(log[k]) ==> Within(log, i, k + 1);
    }
    if i :| 0 <= i < k && log[i].Called? && Within(log, i, k + 1) {
      assert Within(log, i, k);
    }
  }

  lemma EndsGoOn(log: seq<Entry>, k: nat)
    requires k < |log|
    ensures EndedIn(log, k + 1) <==> EndsCall(log[k]) || (EndedIn(log, k) && !StartsTurn(log[k]))
    ensures WantedIn(log, k + 1) <==> Wants(log[k]) || (WantedIn(log, k) && !StartsTurn(log[k]))
  {
    if EndsCall(log[k]) {
      assert SinceStart(log, k, k + 1);
    }
    if i :| 0 <= i < k && EndsCall(log[i]) && SinceStart(log, i, k) {
      assert !StartsTurn(log[k]) ==> SinceStart(log, i, k + 1);
    }
    if i :| 0 <= i < k && EndsCall(log[i]) && SinceStart(log, i, k + 1) {
      assert SinceStart(log, i, k);
    }
    if i :| 0 <= i < k && Wants(log[i]) && SinceStart(log, i, k) {
      assert !StartsTurn(log[k]) ==> SinceStart(log, i, k + 1);
    }
    if i :| 0 <= i < k && Wants(log[i]) && SinceStart(log, i, k + 1) {
      assert SinceStart(log, i, k);
    }
  }

  lemma MarksFollow(w: Watch, log: seq<Entry>, k: nat, w': Watch)
    requires k < |log| && Marks(w, log[k], w')
    requires (w.consulted <==> CalledIn(log, k)) && (w.spoke <==> CalledBefore(log, k))
    requires (w.some <==> EndedIn(log, k)) && (w.reluctant <==> WantedIn(log, k))
    requires CalledIn(log, k + 1) <==> log[k].Called? || (CalledIn(log, k) && !StartsTurn(log[k]) && !EndsTurn(log[k]))
    requires CalledBefore(log, k + 1) <==> log[k].Called? || CalledBefore(log, k)
    requires EndedIn(log, k + 1) <==> EndsCall(log[k]) || (EndedIn(log, k) && !StartsTurn(log[k]))
    requires WantedIn(log, k + 1) <==> Wants(log[k]) || (WantedIn(log, k) && !StartsTurn(log[k]))
    ensures (w'.consulted <==> CalledIn(log, k + 1)) && (w'.spoke <==> CalledBefore(log, k + 1))
    ensures (w'.some <==> EndedIn(log, k + 1)) && (w'.reluctant <==> WantedIn(log, k + 1))
  {
    hide CalledIn, CalledBefore, EndedIn, WantedIn;
  }

  /** What the boundary after a turn goes by: whether the provider was called in
      it, whether it was ever called, and whether the tools want another turn,
      which they do when the turn's message made calls and, of those that ended
      in it, if any did, one did not ask to terminate. */
  lemma TurnMeans(s: Setup, log: seq<Entry>, j: nat)
    requires Unbroken(s, log) && j < |log| && EndsTurn(log[j])
    ensures At(s, log, j).Watch? && At(s, log, j + 1).Watch?
    ensures At(s, log, j).consulted <==> CalledIn(log, j)
    ensures At(s, log, j + 1).spoke <==> CalledBefore(log, j)
    ensures At(s, log, j + 1).live <==> CallsOf(log[j].event.message) != [] && (EndedIn(log, j) ==> WantedIn(log, j))
  {
    hide Observe, Next, CalledIn, EndedIn, WantedIn, CalledBefore;
    MarksMean(s, log, j);
    PrefixUnbroken(s, log, j + 1);
    AtNext(s, log, j);
    EntryMarks(s, At(s, log, j), log[j]);
  }
}
