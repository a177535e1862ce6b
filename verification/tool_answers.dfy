/** When a call of a batch may run, and what it is answered with, told from what
    happened to it and not from how the batch steps. */
module ToolAnswers {
  import opened Messages
  import opened ToolBatch

  function Front<T>(s: seq<T>): (r: seq<T>)
    requires s != []
  {
    s[..|s| - 1]
  }

  /** What happened to a call, without the progress it reported. */
  function Bare(lived: seq<Experience>): (r: seq<Experience>) {
    if lived == [] then []
    else Bare(lived[..|lived| - 1]) + (if lived[|lived| - 1].move.Report? then [] else [lived[|lived| - 1]])
  }

  lemma BareAppend(lived: seq<Experience>, e: Experience)
    ensures Bare(lived + [e]) == Bare(lived) + (if e.move.Report? then [] else [e])
  {
    assert (lived + [e])[..|lived|] == lived;
  }

  lemma {:induction false} BareHas(lived: seq<Experience>, n: nat)
    requires n < |lived| && !lived[n].move.Report?
    ensures lived[n] in Bare(lived)
  {
    if n < |lived| - 1 {
      BareHas(lived[..|lived| - 1], n);
    }
  }

  // ----- What the source promises

  /** The call is not to run: its tool is unknown, its arguments are invalid, or
      the hook before calls was cut short by an abort, blocked it, or failed. */
  predicate Bars(hooks: Hooks, e: Experience) {
    && e.move.Prepare?
    && (e.move.prep.NotFound? || e.move.prep.Invalid?
        || (hooks.before && (e.aborted || e.move.prep.Blocked? || e.move.prep.BeforeFailed?)))
  }

  function BarText(call: ToolCall, e: Experience): (text: string)
    requires e.move.Prepare?
  {
    if e.move.prep.NotFound? then "Tool " + call.name + " not found"
    else if e.move.prep.Invalid? then e.move.prep.message
    else if e.aborted then "Request was aborted"
    else if e.move.prep.BeforeFailed? then e.move.prep.message
    else if e.move.prep.Blocked? && e.move.prep.reason != "" then e.move.prep.reason
    else "Tool execution was blocked"
  }

  /** The answer says that the call failed, and why. */
  predicate Complains(f: Finalized, text: string) {
    f.isError && f.result == ToolValue(text, "{}", None)
  }

  /** The call was begun, cleared and launched; `cut` says that the run was aborted by then. */
  predicate Launched(hooks: Hooks, bare: seq<Experience>, cut: bool) {
    && 3 <= |bare| && bare[0].move.Begin? && bare[1].move.Prepare? && !Bars(hooks, bare[1])
    && bare[2] == Experience(cut, Launch)
  }

  /** How the tool's own promise came out: as it settled, unless an abort came first. */
  predicate CameOut(hooks: Hooks, bare: seq<Experience>, outcome: Settlement) {
    || (|bare| == 3 && Launched(hooks, bare, true) && outcome == Rejected("Request was aborted"))
    || (|bare| == 5 && Launched(hooks, bare, false) && bare[3].move.Settle? && bare[4].move.Resume?
        && outcome == if bare[3].aborted then Rejected("Request was aborted") else bare[3].move.outcome)
  }

  /** The tool's answer: the value it returned, or the error it failed with. */
  ghost predicate ToolSays(hooks: Hooks, bare: seq<Experience>, result: ToolValue, isError: bool) {
    bare != [] && bare[|bare| - 1].move.Delivered? &&
    exists outcome ::
      && CameOut(hooks, Front(bare), outcome)
      && match outcome
         case Returned(value) => result == value && !isError
         case Rejected(message) =>
           isError && result == ToolValue(if bare[|bare| - 1].aborted then "Tool execution aborted" else message, "{}", None)
  }

  /** What the hook after calls makes of the tool's answer. */
  predicate HookSays(hooks: Hooks, e: Experience, result: ToolValue, isError: bool, f: Finalized) {
    && e.move.After?
    && if !hooks.after then f.result == result && f.isError == isError
       else if e.aborted then Complains(f, "Request was aborted")
       else match e.move.answer
         case NoChange => f.result == result && f.isError == isError
         case AfterFailed(message) => Complains(f, message)
         case Override(content, details, terminate, error) =>
           && f.result.content == (if content.Some? then content.value else result.content)
           && f.result.details == (if details.Some? then details.value else result.details)
           && f.result.terminate == (if terminate.Some? then terminate else result.terminate)
           && f.isError == (if error.Some? then error.value else isError)
  }

  /** A call's answer, from all that happened to it. */
  ghost predicate Answered(hooks: Hooks, call: ToolCall, bare: seq<Experience>, f: Finalized) {
    && f.call == call
    && (|| (|bare| == 2 && bare[0].move.Begin? && Bars(hooks, bare[1]) && Complains(f, BarText(call, bare[1])))
        || (bare != [] && exists result, isError ::
              ToolSays(hooks, Front(bare), result, isError) && HookSays(hooks, bare[|bare| - 1], result, isError, f)))
  }

  /** A tool's own outcome, after its progress was delivered and the hook was heard. */
  predicate Says(hooks: Hooks, outcome: Settlement, flushed: Experience, hooked: Experience, f: Finalized) {
    && flushed.move.Delivered?
    && match outcome
       case Returned(value) => HookSays(hooks, hooked, value, false, f)
       case Rejected(message) =>
         HookSays(hooks, hooked, ToolValue(if flushed.aborted then "Tool execution aborted" else message, "{}", None), true, f)
  }

  // ----- That it keeps it

  /** How far a call has come, from all that happened to it. */
  ghost predicate Reached(hooks: Hooks, call: ToolCall, bare: seq<Experience>, slot: Slot) {
    match slot
    case Queued => bare == []
    case Preparing => |bare| == 1 && bare[0].move.Begin?
    case Ready => |bare| == 2 && bare[0].move.Begin? && bare[1].move.Prepare? && !Bars(hooks, bare[1])
    case Executing => |bare| == 3 && Launched(hooks, bare, false)
    case Settled(outcome) =>
      && |bare| == 4 && Launched(hooks, bare, false) && bare[3].move.Settle?
      && outcome == if bare[3].aborted then Rejected("Request was aborted") else bare[3].move.outcome
    case Flushing(outcome) => CameOut(hooks, bare, outcome)
    case Finalizing(result, isError) => ToolSays(hooks, bare, result, isError)
    case Ended(f) => Answered(hooks, call, bare, f)
  }

  lemma StepReaches(hooks: Hooks, call: ToolCall, aborted: bool, slot: Slot, move: Move, bare: seq<Experience>)
    requires Reached(hooks, call, bare, slot) && StepSlot(hooks, call, aborted, slot, move).Some?
    ensures var slot' := StepSlot(hooks, call, aborted, slot, move).value.slot;
            if move.Report? then slot' == slot else Reached(hooks, call, bare + [Experience(aborted, move)], slot')
  {
    var bare' := bare + [Experience(aborted, move)];
    assert Front(bare') == bare;
    match move {
      case Delivered =>
        assert CameOut(hooks, Front(bare'), slot.outcome);
      case After(_) =>
        assert ToolSays(hooks, Front(bare'), slot.result, slot.isError);
      case _ =>
    }
  }

  lemma {:induction false} HasReached(job: Job, schedule: seq<Choice>, i: nat)
    requires i < |job.calls|
    ensures Reached(job.hooks, job.calls[i], Bare(Lived(job, schedule, i)), Run(job, schedule).slots[i])
    decreases |schedule|
  {
    hide StepSlot, Reached, Step, LivedNow, Share, Bare;
    if schedule == [] {
      NothingReached(job, i);
    } else {
      var earlier, choice := schedule[..|schedule| - 1], schedule[|schedule| - 1];
      var b := Run(job, earlier);
      HasReached(job, earlier, i);
      OneChoice(job, b, choice, i);
      var lived, now := Lived(job, earlier, i), LivedNow(job, b, choice, i);
      if now == [] {
        assert lived + now == lived;
      } else {
        BareAppend(lived, now[0]);
        StepReaches(job.hooks, job.calls[i], now[0].aborted, b.slots[i], now[0].move, Bare(lived));
        assert Bare(lived) + [] == Bare(lived);
      }
    }
  }

  lemma NothingReached(job: Job, i: nat)
    requires i < |job.calls|
    ensures Reached(job.hooks, job.calls[i], Bare(Lived(job, [], i)), Run(job, []).slots[i])
  {
  }

  /** Under every schedule, a call that has ended is answered as its own story
      says: with why it was barred, or with what its tool returned or failed
      with, as the hook after calls left it. */
  lemma AnsweredAsItFared(job: Job, schedule: seq<Choice>, i: nat)
    requires i < |job.calls| && Run(job, schedule).slots[i].Ended?
    ensures Answered(job.hooks, job.calls[i], Bare(Lived(job, schedule, i)), Run(job, schedule).slots[i].finalized)
  {
    hide Answered, Run, Lived, Bare;
    HasReached(job, schedule, i);
  }

  /** A call that is barred ends there, failed, saying why; whatever the
      schedule, before or after, it is never ready to run or running. */
  lemma BarredCallsNeverRun(job: Job, schedule: seq<Choice>, i: nat, n: nat, k: nat)
    requires i < |job.calls| && n < |Lived(job, schedule, i)| && Bars(job.hooks, Lived(job, schedule, i)[n])
    requires k <= |schedule|
    ensures var slot := Run(job, schedule).slots[i];
            slot.Ended? && Complains(slot.finalized, BarText(job.calls[i], Lived(job, schedule, i)[n]))
    ensures var slot := Run(job, schedule[..k]).slots[i]; slot.Queued? || slot.Preparing? || slot.Ended?
  {
    hide Run, Lived, Bare;
    var e := Lived(job, schedule, i)[n];
    HasReached(job, schedule, i);
    BareHas(Lived(job, schedule, i), n);
    BarredIsLast(job.hooks, job.calls[i], Bare(Lived(job, schedule, i)), Run(job, schedule).slots[i], e);
    HasReached(job, schedule[..k], i);
    LivedGrows(job, schedule, i, k);
    BareGrows(Lived(job, schedule[..k], i), Lived(job, schedule, i));
    TooShortToRun(job.hooks, job.calls[i], Bare(Lived(job, schedule[..k], i)), Bare(Lived(job, schedule, i)),
                  Run(job, schedule[..k]).slots[i]);
  }

  lemma BarredIsLast(hooks: Hooks, call: ToolCall, bare: seq<Experience>, slot: Slot, e: Experience)
    requires Reached(hooks, call, bare, slot) && e in bare && Bars(hooks, e)
    ensures slot.Ended? && |bare| == 2 && bare[1] == e && Complains(slot.finalized, BarText(call, e))
  {
    if slot.Finalizing? {
      ToldUnbarred(hooks, bare, slot.result, slot.isError);
    }
    if slot.Ended? {
      AnsweredUnbarred(hooks, call, bare, slot.finalized);
    }
  }

  /** A call whose tool was run was not barred. */
  lemma ToldUnbarred(hooks: Hooks, bare: seq<Experience>, result: ToolValue, isError: bool)
    requires ToolSays(hooks, bare, result, isError)
    ensures |bare| > 2 && forall e <- bare :: !Bars(hooks, e)
  {
    var outcome :| CameOut(hooks, Front(bare), outcome);
    assert forall m | 0 <= m < |bare| - 1 :: bare[m] == Front(bare)[m];
  }

  lemma AnsweredUnbarred(hooks: Hooks, call: ToolCall, bare: seq<Experience>, f: Finalized)
    requires Answered(hooks, call, bare, f)
    ensures |bare| == 2 || forall e <- bare :: !Bars(hooks, e)
  {
    if !(|bare| == 2 && bare[0].move.Begin? && Bars(hooks, bare[1]) && Complains(f, BarText(call, bare[1]))) {
      var result, isError :| ToolSays(hooks, Front(bare), result, isError) && HookSays(hooks, bare[|bare| - 1], result, isError, f);
      ToldUnbarred(hooks, Front(bare), result, isError);
      assert forall m | 0 <= m < |bare| - 1 :: bare[m] == Front(bare)[m];
    }
  }

  lemma TooShortToRun(hooks: Hooks, call: ToolCall, early: seq<Experience>, late: seq<Experience>, slot: Slot)
    requires early <= late && |late| == 2 && Bars(hooks, late[1]) && Reached(hooks, call, early, slot)
    ensures slot.Queued? || slot.Preparing? || slot.Ended?
  {
  }

  lemma {:induction false} LivedGrows(job: Job, schedule: seq<Choice>, i: nat, k: nat)
    requires k <= |schedule|
    ensures Lived(job, schedule[..k], i) <= Lived(job, schedule, i)
    decreases |schedule|
  {
    hide LivedNow;
    if k == |schedule| {
      assert schedule[..k] == schedule;
    } else {
      LivedGrows(job, schedule[..|schedule| - 1], i, k);
      assert schedule[..|schedule| - 1][..k] == schedule[..k];
    }
  }

  lemma {:induction false} BareGrows(early: seq<Experience>, late: seq<Experience>)
    requires early <= late
    ensures Bare(early) <= Bare(late)
    decreases |late|
  {
    if |early| == |late| {
      assert early == late;
    } else {
      BareGrows(early, late[..|late| - 1]);
    }
  }

  /** A call runs only when its tool is known, its arguments are valid and the hook, if any, let it pass. */
  lemma OnlyClearedCallsRun(job: Job, schedule: seq<Choice>, i: nat)
    requires i < |job.calls|
    requires var slot := Run(job, schedule).slots[i];
             slot.Ready? || slot.Executing? || slot.Settled? || slot.Flushing? || slot.Finalizing?
    ensures exists e <- Lived(job, schedule, i) ::
              e.move.Prepare? && (e.move.prep.Allowed? || (!job.hooks.before && !e.move.prep.NotFound? && !e.move.prep.Invalid?))
  {
    hide Run, Lived;
    HasReached(job, schedule, i);
    var bare, slot := Bare(Lived(job, schedule, i)), Run(job, schedule).slots[i];
    if slot.Finalizing? {
      var outcome :| CameOut(job.hooks, Front(bare), outcome);
    }
    assert bare[1] in bare;
    BareOnly(Lived(job, schedule, i), bare[1]);
  }

  lemma {:induction false} BareOnly(lived: seq<Experience>, e: Experience)
    requires e in Bare(lived)
    ensures e in lived
  {
    if e in Bare(lived[..|lived| - 1]) {
      BareOnly(lived[..|lived| - 1], e);
    }
  }

  /** A call whose tool has settled before any abort is answered with just that
      as the hook after calls, if there is one, leaves it: with the returned
      value, or with the failure's message unless an abort came while its
      progress was being delivered. */
  lemma SettlementIsTheAnswer(job: Job, schedule: seq<Choice>, i: nat, n: nat)
    requires i < |job.calls| && Run(job, schedule).slots[i].Ended?
    requires n < |Lived(job, schedule, i)| && Lived(job, schedule, i)[n].move.Settle? && !Lived(job, schedule, i)[n].aborted
    ensures var lived, f := Lived(job, schedule, i), Run(job, schedule).slots[i].finalized;
            exists flushed <- lived, hooked <- lived :: Says(job.hooks, lived[n].move.outcome, flushed, hooked, f)
  {
    hide Run, Lived, Bare, HookSays, Says;
    var lived, f := Lived(job, schedule, i), Run(job, schedule).slots[i].finalized;
    var bare := Bare(lived);
    AnsweredAsItFared(job, schedule, i);
    BareHas(lived, n);
    SettledAnswer(job.hooks, job.calls[i], bare, f, lived[n]);
    assert bare[5] in bare && bare[6] in bare;
    BareOnly(lived, bare[5]);
    BareOnly(lived, bare[6]);
  }

  lemma SettledAnswer(hooks: Hooks, call: ToolCall, bare: seq<Experience>, f: Finalized, e: Experience)
    requires Answered(hooks, call, bare, f) && e in bare && e.move.Settle? && !e.aborted
    ensures |bare| == 7 && Says(hooks, e.move.outcome, bare[5], bare[6], f)
  {
    var m :| 0 <= m < |bare| && bare[m] == e;
    var result, isError :| ToolSays(hooks, Front(bare), result, isError) && HookSays(hooks, bare[|bare| - 1], result, isError, f);
    SettledSays(hooks, Front(bare), result, isError, m);
  }

  lemma SettledSays(hooks: Hooks, bare: seq<Experience>, result: ToolValue, isError: bool, m: nat)
    requires ToolSays(hooks, bare, result, isError) && (m < |bare| ==> bare[m].move.Settle? && !bare[m].aborted) && m <= |bare|
    ensures m < |bare| ==> |bare| == 6 && bare[5].move.Delivered? && bare[m].move.outcome.Returned? == !isError
    ensures m < |bare| && bare[m].move.outcome.Returned? ==> result == bare[m].move.outcome.value
    ensures m < |bare| && bare[m].move.outcome.Rejected? ==>
              result == ErrorValue(if bare[5].aborted then "Tool execution aborted" else bare[m].move.outcome.message)
    ensures m == |bare| ==> bare[m - 1].move.Delivered?
  {
    var outcome :| CameOut(hooks, Front(bare), outcome)
                   && match outcome
                      case Returned(value) => result == value && !isError
                      case Rejected(message) =>
                        isError && result == ToolValue(if bare[|bare| - 1].aborted then "Tool execution aborted" else message, "{}", None);
    assert m < |bare| - 1 ==> Front(bare)[m] == bare[m];
  }
  /** A move is told of an abort just when the abort came before it in the schedule. */
  lemma {:induction false} AbortIsHeard(job: Job, schedule: seq<Choice>)
    ensures Run(job, schedule).aborted <==> Choice.Abort in schedule
  {
    if schedule != [] {
      var front, last := Front(schedule), schedule[|schedule| - 1];
      AbortIsHeard(job, front);
      assert schedule == front + [last];
    }
  }
  predicate AtWork(slot: Slot) {
    slot.Executing? || slot.Settled? || slot.Flushing? || slot.Finalizing?
  }

  predicate Orderly(slots: seq<Slot>) {
    && (forall i, j | 0 <= i < j < |slots| :: !slots[j].Queued? ==> !slots[i].Queued? && !slots[i].Preparing?)
    && ((exists j | 0 <= j < |slots| :: AtWork(slots[j])) ==> forall i | 0 <= i < |slots| :: !slots[i].Queued? && !slots[i].Preparing?)
  }

  /** Under every schedule the calls of a batch are begun in their order, each
      when the one before has been prepared, and none runs before all are. */
  lemma {:induction false} PreparedInOrder(job: Job, schedule: seq<Choice>)
    ensures Orderly(Run(job, schedule).slots)
    decreases |schedule|
  {
    hide StepSlot, Orderly, Tag;
    if schedule == [] {
      StartOrderly(job);
    } else {
      var b := Run(job, Front(schedule));
      PreparedInOrder(job, Front(schedule));
      match schedule[|schedule| - 1] {
        case Abort =>
        case Advance(i, move) =>
          if Attempt(job, b, i, move).Some? {
            StepOrderly(job.hooks, job.calls[i], b.aborted, b.slots, i, move);
          }
      }
    }
  }

  lemma StartOrderly(job: Job)
    ensures Orderly(Init(job).slots)
  {
  }

  lemma StepOrderly(hooks: Hooks, call: ToolCall, aborted: bool, slots: seq<Slot>, i: nat, move: Move)
    requires Orderly(slots) && i < |slots| && MayMove(slots, i, move) && StepSlot(hooks, call, aborted, slots[i], move).Some?
    ensures Orderly(slots[i := StepSlot(hooks, call, aborted, slots[i], move).value.slot])
  {
    hide Refusal, ToolBatch.Executed, Finalize;
    var slot := StepSlot(hooks, call, aborted, slots[i], move).value.slot;
    var after := slots[i := slot];
    SlotMoves(hooks, call, aborted, slots[i], move);
    if move.Launch? || AtWork(slots[i]) {
      assert forall k | 0 <= k < |slots| :: Prepared(slots[k]);
    }
  }

  /** A step only ever goes forward, and only a launch puts a call to work. */
  lemma SlotMoves(hooks: Hooks, call: ToolCall, aborted: bool, slot: Slot, move: Move)
    requires StepSlot(hooks, call, aborted, slot, move).Some?
    ensures var slot' := StepSlot(hooks, call, aborted, slot, move).value.slot;
            && !slot'.Queued? && (Prepared(slot) ==> Prepared(slot'))
            && (slot.Queued? ==> move.Begin?)
            && (AtWork(slot') ==> move.Launch? || AtWork(slot))
  {
  }
}
