/** A batch of tool calls under an arbitrary scheduler. Every await of the
    original is a step point: a schedule is any sequence of choices, and a
    choice that is not possible in the current state changes nothing. */
module ToolBatch {
  import opened Messages

  /** Which of the optional hooks the configuration provides. */
  datatype Hooks = Hooks(before: bool, after: bool)

  /** How a tool call fares before it is run. */
  datatype Prep = NotFound | Invalid(message: string) | Allowed | Blocked(reason: string) | BeforeFailed(message: string)

  /** How the tool's own promise settles. */
  datatype Settlement = Returned(value: ToolValue) | Rejected(message: string)

  /** What the hook after the call answers. */
  datatype AfterCall =
    | NoChange
    | Override(content: Option<string>, details: Option<string>, terminate: Option<bool>, isError: Option<bool>)
    | AfterFailed(message: string)

  /** One call's progress through its awaits. */
  datatype Slot =
    | Queued                                          // not reached yet
    | Preparing                                       // start emitted, hook before the call in flight
    | Ready                                           // cleared to run
    | Executing                                       // the tool runs and may report progress
    | Settled(outcome: Settlement)                    // the raced operation has settled, nobody has noticed
    | Flushing(outcome: Settlement)                   // progress is refused from here on
    | Finalizing(result: ToolValue, isError: bool)    // hook after the call in flight
    | Ended(finalized: Finalized)                     // end emitted

  /** What happens to one call. */
  datatype Move =
    | Begin
    | Prepare(prep: Prep)
    | Launch
    | Report(partial: string)
    | Settle(outcome: Settlement)
    | Resume
    | Delivered
    | After(answer: AfterCall)

  datatype Choice = Abort | Advance(index: nat, move: Move)

  datatype Signal = Started | Updated(partial: string) | Finished(finalized: Finalized)

  datatype ToolEvent = ToolEvent(index: nat, signal: Signal)

  datatype Job = Job(hooks: Hooks, calls: seq<ToolCall>)

  datatype Progress = Progress(aborted: bool, slots: seq<Slot>, trace: seq<ToolEvent>)

  datatype SlotStep = SlotStep(slot: Slot, signals: seq<Signal>)

  // ----- One call

  /** The error result of a call that is not run, or None when it may run. */
  function Refusal(hooks: Hooks, call: ToolCall, aborted: bool, prep: Prep): (r: Option<ToolValue>) {
    match prep
    case NotFound => Some(ErrorValue("Tool " + call.name + " not found"))
    case Invalid(message) => Some(ErrorValue(message))
    case _ =>
      if !hooks.before then None
      else if aborted then Some(ErrorValue(ABORT_ERROR_MESSAGE))
      else match prep {
        case Blocked(reason) => Some(ErrorValue(if reason == "" then "Tool execution was blocked" else reason))
        case BeforeFailed(message) => Some(ErrorValue(message))
        case _ => None
      }
  }

  function Executed(aborted: bool, outcome: Settlement): (r: Slot) {
    match outcome
    case Returned(value) => Finalizing(value, false)
    case Rejected(message) => Finalizing(ErrorValue(if aborted then "Tool execution aborted" else message), true)
  }

  function Or<T>(o: Option<T>, default: T): (r: T) {
    if o.Some? then o.value else default
  }

  function Finalize(hooks: Hooks, call: ToolCall, aborted: bool, result: ToolValue, isError: bool, answer: AfterCall): (f: Finalized)
    ensures f.call == call
  {
    if !hooks.after then Finalized(call, result, isError)
    else if aborted then Finalized(call, ErrorValue(ABORT_ERROR_MESSAGE), true)
    else match answer {
      case NoChange => Finalized(call, result, isError)
      case Override(content, details, terminate, error) =>
        Finalized(call,
                  ToolValue(Or(content, result.content), Or(details, result.details),
                            if terminate.Some? then terminate else result.terminate),
                  Or(error, isError))
      case AfterFailed(message) => Finalized(call, ErrorValue(message), true)
    }
  }

  /** One await of one call; None when the move is not possible in this state. */
  function StepSlot(hooks: Hooks, call: ToolCall, aborted: bool, slot: Slot, move: Move): (r: Option<SlotStep>) {
    match (slot, move)
    case (Queued, Begin) => Some(SlotStep(Preparing, [Started]))
    case (Preparing, Prepare(prep)) =>
      var refusal := Refusal(hooks, call, aborted, prep);
      if refusal.None? then Some(SlotStep(Ready, []))
      else var f := Finalized(call, refusal.value, true); Some(SlotStep(Ended(f), [Finished(f)]))
    case (Ready, Launch) =>
      Some(SlotStep(if aborted then Flushing(Rejected(ABORT_ERROR_MESSAGE)) else Executing, []))
    case (_, Report(partial)) =>
      if (slot.Executing? || slot.Settled?) && !aborted then Some(SlotStep(slot, [Updated(partial)])) else None
    case (Executing, Settle(outcome)) =>
      Some(SlotStep(Settled(if aborted then Rejected(ABORT_ERROR_MESSAGE) else outcome), []))
    case (Settled(outcome), Resume) => Some(SlotStep(Flushing(outcome), []))
    case (Flushing(outcome), Delivered) => Some(SlotStep(Executed(aborted, outcome), []))
    case (Finalizing(result, isError), After(answer)) =>
      var f := Finalize(hooks, call, aborted, result, isError, answer);
      Some(SlotStep(Ended(f), [Finished(f)]))
    case _ => None
  }

  // ----- The batch

  function Init(job: Job): (r: Progress) {
    Progress(false, seq(|job.calls|, _ => Queued), [])
  }

  predicate Prepared(slot: Slot) {
    !slot.Queued? && !slot.Preparing?
  }

  /** Calls are prepared one after the other, and none is launched before all are prepared. */
  predicate MayMove(slots: seq<Slot>, i: nat, move: Move) {
    && (move.Begin? ==> forall j | 0 <= j < |slots| && j < i :: Prepared(slots[j]))
    && (move.Launch? ==> forall j | 0 <= j < |slots| :: Prepared(slots[j]))
  }

  function Attempt(job: Job, b: Progress, i: nat, move: Move): (r: Option<SlotStep>)
    requires |b.slots| == |job.calls|
  {
    if i < |b.slots| && MayMove(b.slots, i, move)
    then StepSlot(job.hooks, job.calls[i], b.aborted, b.slots[i], move)
    else None
  }

  function Tag(i: nat, signals: seq<Signal>): (es: seq<ToolEvent>)
    ensures |es| == |signals|
    ensures forall k | 0 <= k < |es| :: es[k] == ToolEvent(i, signals[k])
  {
    seq(|signals|, k requires 0 <= k < |signals| => ToolEvent(i, signals[k]))
  }

  function Step(job: Job, b: Progress, choice: Choice): (b': Progress)
    requires |b.slots| == |job.calls|
    ensures |b'.slots| == |job.calls|
  {
    match choice
    case Abort => b.(aborted := true)
    case Advance(i, move) =>
      var s := Attempt(job, b, i, move);
      if s.None? then b
      else b.(slots := b.slots[i := s.value.slot], trace := b.trace + Tag(i, s.value.signals))
  }

  function Run(job: Job, schedule: seq<Choice>): (b: Progress)
    ensures |b.slots| == |job.calls|
  {
    if schedule == [] then Init(job)
    else Step(job, Run(job, schedule[..|schedule| - 1]), schedule[|schedule| - 1])
  }

  predicate Complete(b: Progress) {
    forall i | 0 <= i < |b.slots| :: b.slots[i].Ended?
  }

  function Results(b: Progress): (fs: seq<Finalized>)
    requires Complete(b)
    ensures |fs| == |b.slots|
    ensures forall i | 0 <= i < |fs| :: fs[i] == b.slots[i].finalized
  {
    seq(|b.slots|, i requires 0 <= i < |b.slots| => b.slots[i].finalized)
  }

  // ----- What one call's share of the trace looks like

  /** The signals of call `i` in a trace. */
  function Share(trace: seq<ToolEvent>, i: nat): (r: seq<Signal>) {
    if trace == [] then []
    else
      var e := trace[|trace| - 1];
      Share(trace[..|trace| - 1], i) + (if e.index == i then [e.signal] else [])
  }

  predicate OnlyUpdates(signals: seq<Signal>, from: nat, to: int) {
    forall k | from <= k < |signals| && k < to :: signals[k].Updated?
  }

  /** One start, then updates only, then one end carrying the final result, as far as the call has come. */
  predicate Lifecycle(call: ToolCall, slot: Slot, signals: seq<Signal>) {
    match slot
    case Queued => signals == []
    case Preparing => signals == [Started]
    case Ready => signals == [Started]
    case Ended(f) =>
      && f.call == call
      && 2 <= |signals| && signals[0] == Started && signals[|signals| - 1] == Finished(f)
      && OnlyUpdates(signals, 1, |signals| - 1)
    case _ => 1 <= |signals| && signals[0] == Started && OnlyUpdates(signals, 1, |signals|)
  }

  lemma {:induction false} ShareAppend(trace: seq<ToolEvent>, i: nat, j: nat, signals: seq<Signal>)
    ensures Share(trace + Tag(i, signals), j) == Share(trace, j) + (if i == j then signals else [])
    decreases |signals|
  {
    if signals == [] {
      assert trace + Tag(i, signals) == trace;
      assert Share(trace, j) + [] == Share(trace, j);
    } else {
      var n := |signals| - 1;
      ShareAppend(trace, i, j, signals[..n]);
      var whole := trace + Tag(i, signals);
      assert whole[..|whole| - 1] == trace + Tag(i, signals[..n]);
      assert whole[|whole| - 1] == ToolEvent(i, signals[n]);
      assert signals[..n] + [signals[n]] == signals;
    }
  }

  lemma StepKeepsLifecycle(hooks: Hooks, call: ToolCall, aborted: bool, slot: Slot, move: Move, signals: seq<Signal>)
    requires Lifecycle(call, slot, signals)
    requires StepSlot(hooks, call, aborted, slot, move).Some?
    ensures var s := StepSlot(hooks, call, aborted, slot, move).value;
            Lifecycle(call, s.slot, signals + s.signals)
  {
    hide Refusal, Finalize;
    var s := StepSlot(hooks, call, aborted, slot, move).value;
    if s.signals == [] {
      assert signals + s.signals == signals;
    }
  }

  /** For every schedule and every abort instant: one start, no update after the
      end, one end, and the end carries what the call is later answered with. */
  lemma {:induction false} EveryCallHasOneLife(job: Job, schedule: seq<Choice>, i: nat)
    requires i < |job.calls|
    ensures var b := Run(job, schedule); Lifecycle(job.calls[i], b.slots[i], Share(b.trace, i))
    decreases |schedule|
  {
    if schedule != [] {
      var before := Run(job, schedule[..|schedule| - 1]);
      EveryCallHasOneLife(job, schedule[..|schedule| - 1], i);
      match schedule[|schedule| - 1]
      case Abort =>
      case Advance(j, move) =>
        var s := Attempt(job, before, j, move);
        if s.Some? {
          ShareAppend(before.trace, j, i, s.value.signals);
          if i == j {
            StepKeepsLifecycle(job.hooks, job.calls[i], before.aborted, before.slots[i], move, Share(before.trace, i));
          } else {
            assert Share(before.trace, i) + [] == Share(before.trace, i);
          }
        }
    }
  }

  /** A finished batch answers every call once, in source order. */
  lemma ResultsAnswerInOrder(job: Job, schedule: seq<Choice>)
    requires Complete(Run(job, schedule))
    ensures Answers(ResultMessages(Results(Run(job, schedule))), job.calls)
  {
    var b := Run(job, schedule);
    forall i | 0 <= i < |job.calls| ensures b.slots[i].finalized.call == job.calls[i] {
      EveryCallHasOneLife(job, schedule, i);
    }
  }

  // ----- The set of pending calls

  /** The ids that the agent shows as pending after a trace: a start adds, an end removes. */
  function PendingIds(job: Job, trace: seq<ToolEvent>): (r: set<string>) {
    if trace == [] then {}
    else
      var rest := PendingIds(job, trace[..|trace| - 1]);
      var e := trace[|trace| - 1];
      if e.index >= |job.calls| then rest
      else match e.signal {
        case Started => rest + {job.calls[e.index].id}
        case Updated(_) => rest
        case Finished(_) => rest - {job.calls[e.index].id}
      }
  }

  predicate InFlight(slot: Slot) {
    !slot.Queued? && !slot.Ended?
  }

  function InFlightIds(job: Job, b: Progress): (r: set<string>)
    requires |b.slots| == |job.calls|
  {
    set i | 0 <= i < |b.slots| && InFlight(b.slots[i]) :: job.calls[i].id
  }

  lemma StepSignals(hooks: Hooks, call: ToolCall, aborted: bool, slot: Slot, move: Move)
    requires StepSlot(hooks, call, aborted, slot, move).Some?
    ensures var s := StepSlot(hooks, call, aborted, slot, move).value;
            && (s.signals == [] ==> InFlight(slot) && InFlight(s.slot))
            && (s.signals != [] ==> |s.signals| == 1)
            && (s.signals != [] && s.signals[0].Started? ==> !InFlight(slot) && InFlight(s.slot))
            && (s.signals != [] && s.signals[0].Updated? ==> InFlight(slot) && InFlight(s.slot))
            && (s.signals != [] && s.signals[0].Finished? ==> InFlight(slot) && !InFlight(s.slot))
  {
  }

  /** With distinct call ids the pending set is, at every instant, exactly the
      calls that were started and have not ended. */
  lemma {:induction false} PendingIsInFlight(job: Job, schedule: seq<Choice>)
    requires DistinctIds(job.calls)
    ensures PendingIds(job, Run(job, schedule).trace) == InFlightIds(job, Run(job, schedule))
    decreases |schedule|
  {
    if schedule != [] {
      var before := Run(job, schedule[..|schedule| - 1]);
      PendingIsInFlight(job, schedule[..|schedule| - 1]);
      match schedule[|schedule| - 1]
      case Abort =>
      case Advance(i, move) =>
        var s := Attempt(job, before, i, move);
        if s.Some? {
          StepSignals(job.hooks, job.calls[i], before.aborted, before.slots[i], move);
          PendingStep(job, before, i, s.value);
        }
    }
  }

  lemma PendingStep(job: Job, b: Progress, i: nat, s: SlotStep)
    requires |b.slots| == |job.calls| && i < |b.slots| && DistinctIds(job.calls)
    requires PendingIds(job, b.trace) == InFlightIds(job, b)
    requires s.signals == [] ==> InFlight(b.slots[i]) && InFlight(s.slot)
    requires s.signals != [] ==> |s.signals| == 1 && (InFlight(s.slot) <==> !s.signals[0].Finished?)
    requires s.signals != [] ==> (InFlight(b.slots[i]) <==> !s.signals[0].Started?)
    ensures var b' := b.(slots := b.slots[i := s.slot], trace := b.trace + Tag(i, s.signals));
            PendingIds(job, b'.trace) == InFlightIds(job, b')
  {
    var b' := b.(slots := b.slots[i := s.slot], trace := b.trace + Tag(i, s.signals));
    var id := job.calls[i].id;
    if s.signals == [] {
      assert b'.trace == b.trace;
    } else {
      assert b'.trace[..|b'.trace| - 1] == b.trace;
    }
    forall x ensures x in InFlightIds(job, b') <==>
                     if x == id then InFlight(s.slot) else x in InFlightIds(job, b)
    {
      if x in InFlightIds(job, b') {
        var j :| 0 <= j < |b'.slots| && InFlight(b'.slots[j]) && job.calls[j].id == x;
        assert j != i ==> b.slots[j] == b'.slots[j];
      }
      if x in InFlightIds(job, b) {
        var j :| 0 <= j < |b.slots| && InFlight(b.slots[j]) && job.calls[j].id == x;
        assert j != i ==> b'.slots[j] == b.slots[j];
      }
      if x == id && InFlight(s.slot) {
        assert b'.slots[i] == s.slot;
      }
    }
  }

  lemma NothingPendingAtTheEnd(job: Job, schedule: seq<Choice>)
    requires DistinctIds(job.calls) && Complete(Run(job, schedule))
    ensures PendingIds(job, Run(job, schedule).trace) == {}
  {
    PendingIsInFlight(job, schedule);
  }

  // ----- Independence of the interleaving

  /** What one call experiences: its own moves, and whether the run was aborted at each. */
  datatype Experience = Experience(aborted: bool, move: Move)

  /** The move of call `i`, if this choice is one and takes effect. */
  function LivedNow(job: Job, b: Progress, choice: Choice, i: nat): (r: seq<Experience>)
    requires |b.slots| == |job.calls|
  {
    match choice
    case Abort => []
    case Advance(j, move) => if j == i && Attempt(job, b, j, move).Some? then [Experience(b.aborted, move)] else []
  }

  /** The moves of call `i` that took effect in a schedule. */
  function Lived(job: Job, schedule: seq<Choice>, i: nat): (r: seq<Experience>) {
    if schedule == [] then []
    else
      var earlier := schedule[..|schedule| - 1];
      Lived(job, earlier, i) + LivedNow(job, Run(job, earlier), schedule[|schedule| - 1], i)
  }

  datatype Life = Life(slot: Slot, signals: seq<Signal>)

  /** A call run on its own, with nothing but its own experience. */
  function Alone(hooks: Hooks, call: ToolCall, lived: seq<Experience>): (r: Life) {
    if lived == [] then Life(Queued, [])
    else
      var life := Alone(hooks, call, lived[..|lived| - 1]);
      var e := lived[|lived| - 1];
      match StepSlot(hooks, call, e.aborted, life.slot, e.move) {
        case None => life
        case Some(s) => Life(s.slot, life.signals + s.signals)
      }
  }

  lemma AloneExtends(hooks: Hooks, call: ToolCall, lived: seq<Experience>, e: Experience)
    ensures var life := Alone(hooks, call, lived);
            Alone(hooks, call, lived + [e]) ==
            match StepSlot(hooks, call, e.aborted, life.slot, e.move) {
              case None => life
              case Some(s) => Life(s.slot, life.signals + s.signals)
            }
  {
    hide StepSlot;
    assert (lived + [e])[..|lived + [e]| - 1] == lived;
  }

  /** One choice: it is a step of call `i`, or leaves that call as it was. */
  lemma OneChoice(job: Job, b: Progress, choice: Choice, i: nat)
    requires i < |job.calls| == |b.slots|
    ensures var b', now := Step(job, b, choice), LivedNow(job, b, choice, i);
            if now == [] then b'.slots[i] == b.slots[i] && Share(b'.trace, i) == Share(b.trace, i)
            else
              var s := StepSlot(job.hooks, job.calls[i], now[0].aborted, b.slots[i], now[0].move);
              now == [now[0]] && s.Some? && b'.slots[i] == s.value.slot && Share(b'.trace, i) == Share(b.trace, i) + s.value.signals
  {
    hide StepSlot, MayMove, Share;
    if choice.Advance? {
      var s := Attempt(job, b, choice.index, choice.move);
      if s.Some? {
        ShareAppend(b.trace, choice.index, i, s.value.signals);
        assert Share(b.trace, i) + [] == Share(b.trace, i);
      }
    }
  }

  /** In any batch, a call fares exactly as it would alone with the same experience. */
  lemma {:induction false} CallsDoNotInterfere(job: Job, schedule: seq<Choice>, i: nat)
    requires i < |job.calls|
    ensures var b := Run(job, schedule);
            Alone(job.hooks, job.calls[i], Lived(job, schedule, i)) == Life(b.slots[i], Share(b.trace, i))
    decreases |schedule|
  {
    hide StepSlot, Step, Attempt, LivedNow, Share, Alone;
    if schedule == [] {
      NothingLived(job, i);
    } else {
      var earlier, choice := schedule[..|schedule| - 1], schedule[|schedule| - 1];
      var before := Run(job, earlier);
      CallsDoNotInterfere(job, earlier, i);
      OneChoice(job, before, choice, i);
      var lived, now := Lived(job, earlier, i), LivedNow(job, before, choice, i);
      if now == [] {
        assert lived + now == lived;
      } else {
        AloneExtends(job.hooks, job.calls[i], lived, now[0]);
      }
    }
  }

  lemma NothingLived(job: Job, i: nat)
    requires i < |job.calls|
    ensures Alone(job.hooks, job.calls[i], []) == Life(Init(job).slots[i], Share(Init(job).trace, i))
  {
  }

  /** Two schedules that differ only in how the calls interleave give the same
      results, the same verdict on terminating, and the same signals per call. */
  lemma InterleavingDoesNotMatter(job: Job, left: seq<Choice>, right: seq<Choice>)
    requires forall i | 0 <= i < |job.calls| :: Lived(job, left, i) == Lived(job, right, i)
    ensures var l, r := Run(job, left), Run(job, right);
            && l.slots == r.slots
            && (forall i | 0 <= i < |job.calls| :: Share(l.trace, i) == Share(r.trace, i))
            && (Complete(l) <==> Complete(r))
            && (Complete(l) ==> Results(l) == Results(r) && (Terminates(Results(l)) <==> Terminates(Results(r))))
  {
    var l, r := Run(job, left), Run(job, right);
    forall i | 0 <= i < |job.calls|
      ensures l.slots[i] == r.slots[i] && Share(l.trace, i) == Share(r.trace, i)
    {
      CallsDoNotInterfere(job, left, i);
      CallsDoNotInterfere(job, right, i);
    }
    assert l.slots == r.slots;
  }

  // ----- Progress

  /** Awaits left before a call has ended. */
  function Remaining(slot: Slot): (r: nat) {
    match slot
    case Queued => 7
    case Preparing => 6
    case Ready => 5
    case Executing => 4
    case Settled(_) => 3
    case Flushing(_) => 2
    case Finalizing(_, _) => 1
    case Ended(_) => 0
  }

  /** No schedule can get stuck: while a call is unfinished, some move brings a call closer to its end. */
  lemma NeverStuck(job: Job, b: Progress) returns (i: nat, move: Move)
    requires |b.slots| == |job.calls| && !Complete(b)
    ensures i < |b.slots| && Attempt(job, b, i, move).Some?
    ensures Remaining(Attempt(job, b, i, move).value.slot) < Remaining(b.slots[i])
  {
    if k :| 0 <= k < |b.slots| && !Prepared(b.slots[k]) {
      i := k;
      while exists j :: 0 <= j < i && !Prepared(b.slots[j])
        invariant i < |b.slots| && !Prepared(b.slots[i])
        decreases i
      {
        var j :| 0 <= j < i && !Prepared(b.slots[j]);
        i := j;
      }
      move := if b.slots[i].Queued? then Begin else Prepare(Allowed);
    } else {
      i :| 0 <= i < |b.slots| && !b.slots[i].Ended?;
      move := match b.slots[i]
        case Ready => Launch
        case Executing => Settle(Rejected(""))
        case Settled(_) => Resume
        case Flushing(_) => Delivered
        case _ => After(NoChange);
    }
  }

  // ----- A batch as the run's monitor sees it

  /** The ids in flight, with multiplicity: ids need not be distinct here. */
  function Bag(calls: seq<ToolCall>, slots: seq<Slot>): (r: multiset<string>)
    requires |slots| <= |calls|
  {
    if slots == [] then multiset{}
    else
      var n := |slots| - 1;
      Bag(calls, slots[..n]) + One(InFlight(slots[n]), calls[n].id)
  }

  function One(flying: bool, id: string): (r: multiset<string>) {
    if flying then multiset{id} else multiset{}
  }

  lemma {:induction false} BagUpdate(calls: seq<ToolCall>, slots: seq<Slot>, i: nat, slot: Slot)
    requires i < |slots| <= |calls|
    ensures Bag(calls, slots[i := slot]) + One(InFlight(slots[i]), calls[i].id)
            == Bag(calls, slots) + One(InFlight(slot), calls[i].id)
    decreases |slots|
  {
    hide InFlight, Bag, One;
    var n, after := |slots| - 1, slots[i := slot];
    BagLast(calls, slots);
    BagLast(calls, after);
    if i == n {
      assert after[..n] == slots[..n];
    } else {
      BagUpdate(calls, slots[..n], i, slot);
      assert after[..n] == slots[..n][i := slot] && after[n] == slots[n];
      Rearrange(Bag(calls, slots[..n]), Bag(calls, after[..n]), One(InFlight(slots[n]), calls[n].id),
                One(InFlight(slots[i]), calls[i].id), One(InFlight(slot), calls[i].id));
    }
  }

  lemma BagLast(calls: seq<ToolCall>, slots: seq<Slot>)
    requires slots != [] && |slots| <= |calls|
    ensures var n := |slots| - 1; Bag(calls, slots) == Bag(calls, slots[..n]) + One(InFlight(slots[n]), calls[n].id)
  {
    hide InFlight, One;
  }

  lemma Rearrange(a: multiset<string>, b: multiset<string>, last: multiset<string>, x: multiset<string>, y: multiset<string>)
    requires b + x == a + y
    ensures (b + last) + x == (a + last) + y
  {
    assert (b + last) + x == (b + x) + last;
  }

  lemma BagStep(calls: seq<ToolCall>, slots: seq<Slot>, i: nat, slot: Slot)
    requires i < |slots| <= |calls|
    ensures var id := calls[i].id;
            var bag, bag' := Bag(calls, slots), Bag(calls, slots[i := slot]);
            && (InFlight(slots[i]) ==> id in bag && bag' == if InFlight(slot) then bag else bag - multiset{id})
            && (!InFlight(slots[i]) && InFlight(slot) ==> bag' == bag + multiset{id})
  {
    hide InFlight, Bag;
    BagUpdate(calls, slots, i, slot);
    if InFlight(slots[i]) {
      BagCounts(calls, slots, i);
    }
    Exchange(Bag(calls, slots), Bag(calls, slots[i := slot]), InFlight(slots[i]), InFlight(slot), calls[i].id);
  }

  lemma Exchange(a: multiset<string>, b: multiset<string>, before: bool, after: bool, id: string)
    requires b + One(before, id) == a + One(after, id)
    ensures before && after ==> b == a
    ensures before && !after ==> b == a - multiset{id}
    ensures !before && after ==> b == a + multiset{id}
  {
    assert b + multiset{} == b && a + multiset{} == a;
    assert b + multiset{id} - multiset{id} == b && a + multiset{id} - multiset{id} == a;
  }

  lemma {:induction false} BagCounts(calls: seq<ToolCall>, slots: seq<Slot>, i: nat)
    requires i < |slots| <= |calls| && InFlight(slots[i])
    ensures calls[i].id in Bag(calls, slots)
    decreases |slots|
  {
    if i < |slots| - 1 {
      BagCounts(calls, slots[..|slots| - 1], i);
    }
  }

  /** An id in the bag is that of a call in flight. */
  lemma {:induction false} BagHolds(calls: seq<ToolCall>, slots: seq<Slot>, id: string) returns (i: nat)
    requires |slots| <= |calls| && id in Bag(calls, slots)
    ensures i < |slots| && InFlight(slots[i]) && calls[i].id == id
    decreases |slots|
  {
    hide InFlight;
    var n := |slots| - 1;
    if InFlight(slots[n]) && calls[n].id == id {
      i := n;
    } else {
      i := BagHolds(calls, slots[..n], id);
    }
  }

  /** With distinct ids a call that is not in flight has no id in the bag. */
  lemma BagMisses(calls: seq<ToolCall>, slots: seq<Slot>, i: nat)
    requires i < |slots| <= |calls| && DistinctIds(calls) && !InFlight(slots[i])
    ensures calls[i].id !in Bag(calls, slots)
  {
    hide InFlight, Bag;
    if calls[i].id in Bag(calls, slots) {
      var j := BagHolds(calls, slots, calls[i].id);
    }
  }

  predicate AnyEnded(slots: seq<Slot>) {
    exists i :: 0 <= i < |slots| && slots[i].Ended?
  }

  predicate AnyReluctant(slots: seq<Slot>) {
    exists i :: 0 <= i < |slots| && slots[i].Ended? && slots[i].finalized.result.terminate != Some(true)
  }

  lemma {:induction false} BagEmpty(calls: seq<ToolCall>, slots: seq<Slot>)
    requires |slots| <= |calls|
    requires forall i | 0 <= i < |slots| :: !InFlight(slots[i])
    ensures Bag(calls, slots) == multiset{}
    decreases |slots|
  {
    if slots != [] {
      BagEmpty(calls, slots[..|slots| - 1]);
    }
  }

  /** A call that has ended takes no further step, and a call ends just when it says so. */
  lemma StepEnds(hooks: Hooks, call: ToolCall, aborted: bool, slot: Slot, move: Move)
    requires StepSlot(hooks, call, aborted, slot, move).Some?
    ensures var s := StepSlot(hooks, call, aborted, slot, move).value;
            && !slot.Ended?
            && (s.slot.Ended? <==> s.signals != [] && s.signals[0].Finished?)
            && (s.slot.Ended? ==> s.signals[0].finalized == s.slot.finalized && s.slot.finalized.call == call)
  {
  }

  lemma EndedUpdate(slots: seq<Slot>, i: nat, slot: Slot)
    requires i < |slots| && !slots[i].Ended?
    ensures AnyEnded(slots[i := slot]) <==> AnyEnded(slots) || slot.Ended?
    ensures AnyReluctant(slots[i := slot])
            <==> AnyReluctant(slots) || (slot.Ended? && slot.finalized.result.terminate != Some(true))
  {
    var after := slots[i := slot];
    assert after[i] == slot;
    if k :| 0 <= k < |slots| && slots[k].Ended? {
      assert after[k] == slots[k];
    }
    if k :| 0 <= k < |slots| && slots[k].Ended? && slots[k].finalized.result.terminate != Some(true) {
      assert after[k] == slots[k];
    }
  }
}
