/** The pending calls that the agent shows, rebuilt from the events of a run. */
module PendingCalls {
  import opened Messages
  import opened Protocol
  import opened ProtocolLaws
  import opened AgentState

  /** The state after the events of a log. */
  ghost function Rebuilt(v: View, log: seq<Entry>): (r: View) {
    if log == [] then v
    else
      var before, e := Rebuilt(v, log[..|log| - 1]), log[|log| - 1];
      if e.Emitted? then Reduce(before, e.event) else before
  }

  lemma {:induction false} RebuiltMirrors(s: Setup, error: Option<string>, log: seq<Entry>)
    ensures Mirrors(s, Rebuilt(View(s.initial, None, {}, error), log), Observe(s, log))
    decreases |log|
  {
    hide Next, Mirrors, Reduce;
    var v := View(s.initial, None, {}, error);
    if log == [] {
      StartMirrors(s, error);
    } else {
      var front, e := log[..|log| - 1], log[|log| - 1];
      RebuiltMirrors(s, error, front);
      if e.Emitted? {
        ReduceMirrors(s, Rebuilt(v, front), Observe(s, front), e.event, e.context, e.aborted);
      } else {
        NoteMirrors(s, Rebuilt(v, front), Observe(s, front), e);
      }
    }
  }

  lemma StartMirrors(s: Setup, error: Option<string>)
    ensures Mirrors(s, View(s.initial, None, {}, error), Opening(s))
  {
    assert s.initial + [] == s.initial;
  }

  /** At every point of every run, when the calls of the turn have distinct ids,
      the pending ids are exactly those of the calls started and not ended. */
  lemma PendingIsRunning(s: Setup, error: Option<string>, log: seq<Entry>, k: nat)
    requires Unbroken(s, log) && k <= |log|
    ensures var v, w := Rebuilt(View(s.initial, None, {}, error), log[..k]), At(s, log, k);
            && w.Watch?
            && v.messages == s.initial + w.ended
            && (forall id <- v.pending :: id in w.running)
            && (DistinctIds(CurrentCalls(w)) ==> forall id :: id in v.pending <==> id in w.running)
  {
    hide Observe, Rebuilt, CurrentCalls, DistinctIds;
    PrefixUnbroken(s, log, k);
    RebuiltMirrors(s, error, log[..k]);
  }

  /** Nothing is pending when a turn or a run ends, whatever the ids. */
  lemma NothingPendingAtTurnEnds(s: Setup, error: Option<string>, log: seq<Entry>, k: nat)
    requires Unbroken(s, log) && k < |log|
    requires log[k].Emitted? && (log[k].event.TurnEnd? || log[k].event.AgentEnd?)
    ensures Rebuilt(View(s.initial, None, {}, error), log[..k]).pending == {}
  {
    hide Observe, Rebuilt, Next, Mirrors, CurrentCalls, DistinctIds;
    PendingIsRunning(s, error, log, k);
    PrefixUnbroken(s, log, k + 1);
    AtNext(s, log, k);
    EndsCalm(s, At(s, log, k), log[k]);
  }

  lemma EndsCalm(s: Setup, w: Watch, e: Entry)
    requires w.Watch? && Next(s, w, e).Watch? && e.Emitted? && (e.event.TurnEnd? || e.event.AgentEnd?)
    ensures w.running == multiset{}
  {
    hide Answers, CallsOf, MayEnd;
  }
  /** The message that a log is in the midst of: the last one started or updated, unless one has ended since. */
  predicate Speaks(e: Entry) {
    e.Emitted? && (e.event.MessageStart? || e.event.MessageUpdate? || e.event.MessageEnd?)
  }

  /** While a message is open, what the agent shows is the last that was told of it; otherwise it shows none. */
  lemma StreamingIsTheLast(s: Setup, error: Option<string>, log: seq<Entry>, k: nat)
    requires Unbroken(s, log) && k <= |log|
    ensures var v, w := Rebuilt(View(s.initial, None, {}, error), log[..k]), At(s, log, k);
            && w.Watch? && (v.streaming.Some? <==> w.open)
            && (v.streaming.Some? ==>
                  exists i :: 0 <= i < k && Speaks(log[i]) && v.streaming == Some(log[i].event.message) && QuietSince(log, i, k))
  {
    hide Observe, Rebuilt, CurrentCalls, DistinctIds;
    PrefixUnbroken(s, log, k);
    RebuiltMirrors(s, error, log[..k]);
    LastTold(View(s.initial, None, {}, error), log[..k]);
    if Rebuilt(View(s.initial, None, {}, error), log[..k]).streaming.Some? {
      var i :| 0 <= i < k && Speaks(log[..k][i])
               && Rebuilt(View(s.initial, None, {}, error), log[..k]).streaming == Some(log[..k][i].event.message) && QuietSince(log[..k], i, k);
      assert QuietSince(log, i, k);
    }
  }

  predicate QuietSince(log: seq<Entry>, i: nat, k: nat)
    requires k <= |log|
  {
    forall n | i < n < k :: !Speaks(log[n])
  }

  lemma {:induction false} LastTold(v: View, log: seq<Entry>)
    requires v.streaming == None
    ensures Rebuilt(v, log).streaming.Some? ==>
              exists i :: 0 <= i < |log| && Speaks(log[i]) && Rebuilt(v, log).streaming == Some(log[i].event.message) && QuietSince(log, i, |log|)
  {
    if log != [] {
      var n, front := |log| - 1, log[..|log| - 1];
      LastTold(v, front);
      if Speaks(log[n]) {
        assert QuietSince(log, n, |log|);
      } else if Rebuilt(v, front).streaming.Some? {
        var i :| 0 <= i < n && Speaks(front[i]) && Rebuilt(v, front).streaming == Some(front[i].event.message) && QuietSince(front, i, n);
        assert log[i] == front[i] && QuietSince(log, i, |log|);
      }
    }
  }

  /** A turn that ended with an error to report. */
  predicate Reports(e: Entry) {
    e.Emitted? && e.event.TurnEnd? && e.event.message.Assistant? && e.event.message.errorMessage.Some? && e.event.message.errorMessage.value != ""
  }

  /** The error that the agent shows is that of the last turn that reported one. */
  lemma {:induction false} ErrorIsTheLast(v: View, log: seq<Entry>, i: nat)
    requires i < |log| && Reports(log[i]) && forall n | i < n < |log| :: !Reports(log[n])
    ensures Rebuilt(v, log).error == log[i].event.message.errorMessage
    decreases |log|
  {
    if i < |log| - 1 {
      ErrorIsTheLast(v, log[..|log| - 1], i);
    }
  }

  lemma {:induction false} NoErrorYet(v: View, log: seq<Entry>)
    requires forall n | 0 <= n < |log| :: !Reports(log[n])
    ensures Rebuilt(v, log).error == v.error
  {
    if log != [] {
      NoErrorYet(v, log[..|log| - 1]);
    }
  }
}
