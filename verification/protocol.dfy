/** What an observer of one run may see. The monitor reads the log of a run
    entry by entry (emitted events, provider calls, polls, answers of stop
    hooks) and breaks as soon as an entry is out of place. */
module Protocol {
  import opened Messages
  import opened PendingQueue

  datatype Source = Steering | FollowUp | Continuation

  /** The hook after a provider turn, and the one before any further turn. */
  datatype Hook = AfterTurn | BeforeTurn

  /** What a run waits for: the provider's stream, its final message, the router,
      what follows a turn, and the poll before the first turn. */
  datatype Await = Reading | Closing | Routing | PostTurn | FirstPoll

  /** How a raced await settles; `Pending` when it does not within the part looked at. */
  datatype Settling = Resolved | Refused(isAbort: bool) | Pending

  datatype Entry =
    | Emitted(event: Event, context: seq<Message>, aborted: bool)
    | Called(context: seq<Message>)
    | Polled(source: Source, mode: QueueMode, tickets: seq<Ticket>)
    | Asked(hook: Hook, stop: bool, aborted: bool)
    | Awaited(what: Await, how: Settling, aborted: bool)
    | Routed(choice: Option<ToolCall>)
    | Yielded    // the part of the run looked at ends here

  /** The transcript before the run, what the run starts with, the ceiling on
      consecutive reflexes, whether the prompts came from the steering queue,
      and whether a router is asked before turns. */
  datatype Setup = Setup(initial: seq<Message>, prompts: seq<Message>, maxReflexes: nat, steered: bool, routes: bool)

  datatype Stage = Fresh | Idle | InTurn | Over

  /** What the run owes next, between turns and before the first message. */
  datatype Duty =
    | Free               // nothing: a turn may begin, or speak
    | PollFirst          // the steering poll before the first turn
    | AskAfter           // the hook after a provider turn
    | AskBefore          // the hook before further turns
    | PollSteering
    | AskAgain           // the hook again, for no steering came
    | AfterReflex        // a reflex turn has ended; what the tools want decides
    | AskWinding         // the hook before follow-ups
    | PollFollowUps
    | AskLast            // the hook before continuations
    | PollContinuations
    | NothingLeft
    | CutShort           // an abort ends the run here
    | Aborting           // aborted between turns: polls are skipped, no turn may follow

  /** Whether the run goes on, has met an error it does not catch, or waits. */
  datatype Fate = Going | Failing | Halted

  datatype Watch =
    | Broken
    | Watch(
        stage: Stage,
        open: bool,                       // a message was started and not ended
        running: multiset<string>,        // ids of the tool calls started and not ended
        waiting: seq<Message>,            // inputs taken for this run and not yet in the transcript
        ended: seq<Message>,              // messages ended so far, in order
        settled: nat,                     // of these, the inputs and the completed turns
        turns: nat,                       // completed turns
        reflexes: nat,                    // reflex turns since the last provider call
        some: bool,                       // a tool call has ended in this turn
        reluctant: bool,                  // one of them did not ask to terminate
        live: bool,                       // the last turn's tool use wants another turn
        unanswered: bool,                 // some turn ended without answering all its calls
        steered: bool,                    // steering came in since the last provider call
        mayStop: bool,                    // a hook asked to stop, or the last message failed
        spoke: bool,                      // the provider has been called
        duty: Duty,
        consulted: bool,                  // the provider has been called in this turn
        fed: bool,                        // inputs came in since the last turn ended
        routed: Option<Option<ToolCall>>, // what the router chose since the last turn ended
        cut: bool,                        // an abort has cut this turn's response short
        fate: Fate)

  function Opening(s: Setup): (w: Watch)
    ensures w.Watch?
  {
    Watch(Fresh, false, multiset{}, s.prompts, [], 0, 0, 0, false, false, true, false, s.steered, false, false,
          Free, false, false, None, false, Going)
  }

  /** No message is open, no tool call is running, and the run goes on. */
  predicate Calm(w: Watch) {
    w.Watch? && !w.open && w.running == multiset{} && w.fate.Going?
  }

  /** All inputs are in the transcript and no turn is half done. */
  predicate Clear(w: Watch) {
    Calm(w) && w.waiting == [] && |w.ended| == w.settled
  }

  /** The calls that the message of the current turn makes. */
  function CurrentCalls(w: Watch): (r: seq<ToolCall>)
    requires w.Watch?
  {
    if w.settled < |w.ended| then CallsOf(w.ended[w.settled]) else []
  }

  /** The message that records a reflex, as if the model had made the call. */
  function ReflexMessage(call: ToolCall): (r: Message) {
    Assistant([Call(call)], ToolUse, None)
  }

  /** The turn may speak: nothing is owed, and a reflex says just its own message. */
  predicate MaySpeak(w: Watch, m: Message)
    requires w.Watch?
  {
    |w.ended| == w.settled ==>
      w.duty.Free? && (w.cut ==> m.Assistant? && m.stopReason.Aborted?) && (w.routed.Some? && w.routed.value.Some? ==> m == ReflexMessage(w.routed.value.value))
  }

  /** The monitor while a message is being streamed, or not. */
  function Opened(w: Watch, open: bool): (r: Watch) {
    if w.Broken? then w else w.(open := open)
  }

  /** The monitor after one more message. */
  function Said(w: Watch, m: Message): (r: Watch) {
    if w.Broken? then w else w.(open := false, ended := w.ended + [m])
  }

  /** The monitor after the next input. */
  function TookIn(w: Watch, m: Message): (r: Watch)
    requires w.Watch? && w.waiting != []
  {
    w.(open := false, ended := w.ended + [m], waiting := w.waiting[1..], settled := w.settled + 1)
  }

  function OnMessage(w: Watch, e: Event): (r: Watch)
    requires w.Watch?
  {
    match e
    case MessageStart(m) =>
      if w.stage.InTurn? && Calm(w) && (if w.waiting == [] then MaySpeak(w, m) else w.waiting[0] == m) then Opened(w, true) else Broken
    case MessageUpdate(m) =>
      if w.stage.InTurn? && w.open && w.waiting == [] then w else Broken
    case MessageEnd(m) => OnMessageEnd(w, m)
    case _ => Broken
  }

  function OnMessageEnd(w: Watch, m: Message): (r: Watch)
    requires w.Watch?
  {
    if !(w.stage.InTurn? && w.open) then Broken
    else if w.waiting == [] then if MaySpeak(w, m) then Said(w, m) else Broken
    else if w.waiting[0] == m && w.settled == |w.ended| then TookIn(w, m)
    else Broken
  }

  /** The monitor while tool calls run and end. */
  function Busy(w: Watch, running: multiset<string>, some: bool, reluctant: bool): (r: Watch)
    requires w.Watch?
  {
    w.(running := running, some := some, reluctant := reluctant)
  }

  function OnTool(w: Watch, e: Event): (r: Watch)
    requires w.Watch?
  {
    if !w.stage.InTurn? || w.open || w.waiting != [] then Broken else
    match e
    case ToolStart(call) =>
      if call in CurrentCalls(w) && (DistinctIds(CurrentCalls(w)) ==> call.id !in w.running)
      then Busy(w, w.running + multiset{call.id}, w.some, w.reluctant) else Broken
    case ToolUpdate(call, _) =>
      if call.id in w.running then w else Broken
    case ToolEnd(f) =>
      if f.call in CurrentCalls(w) && f.call.id in w.running
      then Busy(w, w.running - multiset{f.call.id}, true, w.reluctant || f.result.terminate != Some(true))
      else Broken
    case _ => Broken
  }

  /** The message failed: a run ends with the turn that said it. */
  predicate HasFailed(m: Message) {
    m.Assistant? && (m.stopReason.Failed? || m.stopReason.Aborted?)
  }

  /** What the run owes when a turn has ended. */
  function DutyAfter(w: Watch, m: Message, aborted: bool): (r: Duty)
    requires w.Watch?
  {
    if HasFailed(m) then Free else if aborted then CutShort else if w.consulted then AskAfter else AfterReflex
  }

  /** A turn ends with its message and the results just ended, in that order,
      and with the loop's context in step with the events. */
  function OnTurnEnd(s: Setup, w: Watch, m: Message, results: seq<Message>, context: seq<Message>, aborted: bool): (r: Watch)
    requires w.Watch?
  {
    if w.stage.InTurn? && Calm(w) && w.waiting == [] && w.settled < |w.ended|
       && w.ended[w.settled..] == [m] + results && context == s.initial + w.ended
       && (w.consulted || HasFailed(m) || (w.routed.Some? && w.routed.value.Some?))
    then
      w.(stage := Idle, settled := |w.ended|, turns := w.turns + 1,
         live := CallsOf(m) != [] && !(w.some && !w.reluctant),
         unanswered := w.unanswered || !Answers(results, CallsOf(m)),
         mayStop := HasFailed(m), duty := DutyAfter(w, m, aborted),
         consulted := false, fed := false, routed := None, cut := false)
    else Broken
  }

  /** A turn may begin, as far as what is owed goes. */
  predicate MayBegin(w: Watch)
    requires w.Watch?
  {
    w.duty.Free? || (w.duty.AfterReflex? && w.live)
  }

  /** A run may end when told to, when its last message failed, when nothing is
      left to do, or when it was aborted at one of the points that notice. */
  predicate MayEnd(w: Watch, aborted: bool)
    requires w.Watch?
  {
    || (w.waiting == [] && (w.mayStop || w.duty.NothingLeft?))
    || (aborted && (w.duty.CutShort? || w.duty.Aborting? || w.duty.AskAfter? || w.duty.AfterReflex?))
  }

  /** The router is to be asked before the provider. */
  predicate ToRoute(s: Setup, w: Watch)
    requires w.Watch?
  {
    s.routes && !w.fed && w.reflexes < s.maxReflexes
  }

  function OnTurnStart(s: Setup, w: Watch, aborted: bool): (r: Watch)
    requires w.Watch?
  {
    if w.stage.Idle? && Calm(w) && !w.mayStop && MayBegin(w) && (w.live || w.waiting != [])
       && (aborted ==> w.turns == 0 || w.routed.Some?)
    then
      w.(stage := InTurn, some := false, reluctant := false, consulted := false,
         duty := if w.turns == 0 && !s.steered then PollFirst else Free)
    else Broken
  }

  function OnReflex(s: Setup, w: Watch, toolName: string, index: nat, consecutive: nat): (r: Watch)
    requires w.Watch?
  {
    if (w.stage.Idle? || w.stage.InTurn?) && Clear(w) && w.live && !w.mayStop && MayBegin(w)
       && w.routed.Some? && w.routed.value.Some? && w.routed.value.value.name == toolName
       && index == w.turns && consecutive == w.reflexes + 1 && consecutive <= s.maxReflexes
    then w.(reflexes := consecutive) else Broken
  }

  function OnEvent(s: Setup, w: Watch, e: Event, context: seq<Message>, aborted: bool): (r: Watch)
    requires w.Watch?
  {
    match e
    case AgentStart => if w.stage.Fresh? then w.(stage := Idle) else Broken
    case TurnStart => OnTurnStart(s, w, aborted)
    case TurnEnd(m, results) => OnTurnEnd(s, w, m, results, context, aborted)
    case AgentEnd(ms) =>
      if w.stage.Idle? && Calm(w) && w.settled == |w.ended| && ms == w.ended && context == s.initial + w.ended && MayEnd(w, aborted)
      then w.(stage := Over) else Broken
    case Reflex(toolName, index, consecutive) => OnReflex(s, w, toolName, index, consecutive)
    case MessageStart(_) => OnMessage(w, e)
    case MessageUpdate(_) => OnMessage(w, e)
    case MessageEnd(_) => OnMessage(w, e)
    case _ => OnTool(w, e)
  }

  function OnCalled(s: Setup, w: Watch, context: seq<Message>): (r: Watch)
    requires w.Watch?
  {
    if w.stage.InTurn? && Clear(w) && context == s.initial + w.ended && !w.unanswered && w.duty.Free? && !w.consulted
       && (w.routed.Some? ==> w.routed.value.None?) && (ToRoute(s, w) ==> w.routed.Some?)
    then w.(reflexes := 0, steered := false, spoke := true, consulted := true) else Broken
  }

  /** The source that is to be polled, if one is. */
  function Due(d: Duty): (r: Option<Source>) {
    match d
    case PollFirst => Some(Steering)
    case PollSteering => Some(Steering)
    case PollFollowUps => Some(FollowUp)
    case PollContinuations => Some(Continuation)
    case _ => None
  }

  /** What is owed after a poll that brought something in, or nothing. */
  function AfterPoll(d: Duty, some: bool): (r: Duty) {
    if some || d.PollFirst? then Free
    else if d.PollSteering? then AskAgain
    else if d.PollFollowUps? then AskLast
    else NothingLeft
  }

  function OnPolled(w: Watch, source: Source, mode: QueueMode, tickets: seq<Ticket>): (r: Watch)
    requires w.Watch?
  {
    if (w.stage.Idle? || w.stage.InTurn?) && Clear(w) && !w.mayStop && Due(w.duty) == Some(source)
       && (source.Steering? && Concat(tickets) != [] ==> !w.steered && (mode.OneAtATime? ==> |tickets| <= 1))
    then
      w.(waiting := Concat(tickets), fed := Concat(tickets) != [],
         steered := w.steered || (source.Steering? && Concat(tickets) != []),
         duty := AfterPoll(w.duty, Concat(tickets) != []))
    else Broken
  }

  /** The hook that is to be asked, if one is. */
  function DueHook(w: Watch): (r: Option<Hook>)
    requires w.Watch?
  {
    match w.duty
    case AskAfter => Some(AfterTurn)
    case AskBefore => Some(BeforeTurn)
    case AskAgain => Some(BeforeTurn)
    case AskWinding => Some(BeforeTurn)
    case AfterReflex => if w.live then None else Some(BeforeTurn)
    case AskLast => Some(BeforeTurn)
    case _ => None
  }

  /** What is owed after a hook that did not ask to stop. */
  function AfterAsking(w: Watch): (r: Duty)
    requires w.Watch?
  {
    match w.duty
    case AskAfter => AskBefore
    case AskBefore => PollSteering
    case AskAgain => if w.live then Free else AskWinding
    case AskLast => if w.spoke then PollContinuations else NothingLeft
    case _ => PollFollowUps
  }

  function OnAsked(w: Watch, hook: Hook, stop: bool, aborted: bool): (r: Watch)
    requires w.Watch?
  {
    if !(w.stage.Idle? && Clear(w) && !w.mayStop) then Broken
    else if aborted && !w.duty.CutShort? && !w.duty.Free? then w.(mayStop := stop, duty := Aborting)
    else if DueHook(w) == Some(hook) then w.(mayStop := stop, duty := if stop then w.duty else AfterAsking(w))
    else Broken
  }

  /** An error that the run does not catch. */
  predicate Uncaught(what: Await, how: Settling, aborted: bool) {
    how.Refused? && !what.Routing? && (what.FirstPoll? || !how.isAbort || !aborted)
  }

  function Fated(w: Watch, fate: Fate): (r: Watch)
    requires w.Watch?
  {
    w.(fate := fate)
  }

  function Owing(w: Watch, duty: Duty): (r: Watch)
    requires w.Watch?
  {
    w.(duty := duty)
  }

  function Sliced(w: Watch): (r: Watch)
    requires w.Watch?
  {
    w.(cut := true)
  }

  function OnAwaited(w: Watch, what: Await, how: Settling, aborted: bool): (r: Watch)
    requires w.Watch?
  {
    if how.Pending? then Fated(w, Halted)
    else if Uncaught(what, how, aborted) then Fated(w, Failing)
    else if what.PostTurn? && how.Refused? then Owing(w, CutShort)
    else if what.Reading? && how.Refused? then Sliced(w)
    else w
  }

  function OnRouted(s: Setup, w: Watch, choice: Option<ToolCall>): (r: Watch)
    requires w.Watch?
  {
    if (w.stage.Idle? || w.stage.InTurn?) && Clear(w) && w.live && !w.mayStop && MayBegin(w) && !w.consulted
       && ToRoute(s, w) && w.routed.None?
    then w.(routed := Some(choice)) else Broken
  }

  function Next(s: Setup, w: Watch, e: Entry): (r: Watch) {
    if w.Broken? || !w.fate.Going? then Broken else
    match e
    case Emitted(event, context, aborted) => OnEvent(s, w, event, context, aborted)
    case Called(context) => OnCalled(s, w, context)
    case Polled(source, mode, tickets) => OnPolled(w, source, mode, tickets)
    case Asked(hook, stop, aborted) => OnAsked(w, hook, stop, aborted)
    case Awaited(what, how, aborted) =>
      if w.stage.Idle? || (w.stage.InTurn? && !what.PostTurn?) then OnAwaited(w, what, how, aborted) else Broken
    case Routed(choice) => OnRouted(s, w, choice)
    case Yielded => if w.stage.Idle? || w.stage.InTurn? then Fated(w, Halted) else Broken
  }

  function Observe(s: Setup, log: seq<Entry>): (r: Watch) {
    if log == [] then Opening(s) else Next(s, Observe(s, log[..|log| - 1]), log[|log| - 1])
  }

  lemma ObserveAppend(s: Setup, log: seq<Entry>, e: Entry)
    ensures Observe(s, log + [e]) == Next(s, Observe(s, log), e)
  {
    assert (log + [e])[..|log|] == log;
  }
}
