/** What the proxy's events do and say, one by one and over whole scripts. */
module ProxyLaws {
  import opened Messages
  import opened ProxyEvents
  import opened ProxyStream

  /** Blank text around a payload. */
  predicate Blank(space: char -> bool, s: string) {
    forall k | 0 <= k < |s| :: space(s[k])
  }

  /** Text that is not empty and neither begins nor ends with a blank. */
  predicate Trimmed(space: char -> bool, s: string) {
    s != "" && !space(s[0]) && !space(s[|s| - 1])
  }

  lemma {:induction false} StartTrims(space: char -> bool, s: string) returns (a: string)
    ensures s == a + TrimStart(space, s) && Blank(space, a)
    ensures TrimStart(space, s) != "" ==> !space(TrimStart(space, s)[0])
  {
    if s != "" && space(s[0]) {
      var rest := StartTrims(space, s[1..]);
      a := [s[0]] + rest;
    } else {
      a := "";
    }
  }

  lemma {:induction false} EndTrims(space: char -> bool, s: string) returns (b: string)
    ensures s == TrimEnd(space, s) + b && Blank(space, b)
    ensures TrimEnd(space, s) != "" ==> !space(TrimEnd(space, s)[|TrimEnd(space, s)| - 1]) && TrimEnd(space, s)[0] == s[0]
    decreases |s|
  {
    if s != "" && space(s[|s| - 1]) {
      var rest := EndTrims(space, s[..|s| - 1]);
      b := rest + [s[|s| - 1]];
    } else {
      b := "";
    }
  }

  lemma {:induction false} BlankTrims(space: char -> bool, a: string, s: string)
    requires Blank(space, a) && (s != "" ==> !space(s[0]))
    ensures TrimStart(space, a + s) == s
    decreases |a|
  {
    if a == "" {
      assert a + s == s;
    } else {
      assert (a + s)[0] == a[0] && (a + s)[1..] == a[1..] + s;
      BlankTrims(space, a[1..], s);
    }
  }

  lemma {:induction false} TrimsBlank(space: char -> bool, s: string, b: string)
    requires Blank(space, b) && (s != "" ==> !space(s[|s| - 1]))
    ensures TrimEnd(space, s + b) == s
    decreases |b|
  {
    if b == "" {
      assert s + b == s;
    } else {
      var n := |b| - 1;
      assert (s + b)[|s + b| - 1] == b[n] && (s + b)[..|s + b| - 1] == s + b[..n];
      TrimsBlank(space, s, b[..n]);
    }
  }

  /** A line carries a payload just when it is the prefix and, between blanks, that payload. */
  lemma PayloadExactly(w: Wire, line: string, data: string)
    ensures Payload(w, line) == Some(data) <==>
            Trimmed(w.space, data) && exists a, b :: Blank(w.space, a) && Blank(w.space, b) && line == "data: " + (a + (data + b))
  {
    hide TrimStart, TrimEnd, Blank;
    if "data: " <= line {
      var rest := line[6..];
      assert line == "data: " + rest;
      var a := StartTrims(w.space, rest);
      var b := EndTrims(w.space, TrimStart(w.space, rest));
      if Payload(w, line) == Some(data) {
        assert line == "data: " + (a + (data + b));
      }
    }
    forall a, b | Trimmed(w.space, data) && Blank(w.space, a) && Blank(w.space, b) && line == "data: " + (a + (data + b))
      ensures Payload(w, line) == Some(data)
    {
      assert line[6..] == a + (data + b) && (data + b)[0] == data[0];
      BlankTrims(w.space, a, data + b);
      TrimsBlank(w.space, data, b);
    }
  }

  // ----- One event

  /** Only the block at an event's own index changes, and only `done` and `error` change how the message stands. */
  lemma EventsKeepApart(parse: Lenient, p: Partial, e: ProxyEvent, i: nat)
    requires Process(parse, p, e).Next?
    ensures var q := Process(parse, p, e).partial;
            && (!(Indexed(e) && e.index == i) ==> At(q.content, i) == At(p.content, i))
            && (!e.Done? && !e.Error? ==> q.stopReason == p.stopReason && q.usage == p.usage)
            && (!e.Error? ==> q.errorMessage == p.errorMessage)
            && (e.Done? ==> q.stopReason == e.reason && q.usage == e.usage)
            && (e.Error? ==> q.stopReason == e.reason && q.usage == e.usage && q.errorMessage == e.errorMessage)
  {
    hide BlockStep, Fits;
  }

  /** What is announced, and what it says of the block: a start is announced with
      its kind over an empty block, a delta with its text as the block's new end,
      an end with the whole block. Only a tool call's end that finds none, and what
      nobody handles, are announced to nobody. */
  lemma EventsAreAnnounced(parse: Lenient, p: Partial, e: ProxyEvent)
    requires Process(parse, p, e).Next?
    ensures var q, said := Process(parse, p, e).partial, Process(parse, p, e).event;
            && (said.None? <==> e.Unhandled? || (e.ToolcallEnd? && KindOf(At(p.content, e.index)) != Some(ToolKind)))
            && (e.Begin? ==> said == Some(Started))
            && (e.Done? ==> said == Some(Finished(e.reason)))
            && (e.Error? ==> said == Some(Broke(e.reason, e.errorMessage)))
            && (e.TextStart? ==> said == Some(Opened(TextKind, e.index)) && At(q.content, e.index) == Some(TextBlock("", None)))
            && (e.ThinkingStart? ==> said == Some(Opened(ThinkingKind, e.index)) && At(q.content, e.index) == Some(ThinkingBlock("", None)))
            && (e.ToolcallStart? ==>
                  said == Some(Opened(ToolKind, e.index)) && At(q.content, e.index) == Some(ToolBlock(e.id, e.name, Empty, Some(""))))
            && (e.TextDelta? ==> said == Some(Grew(TextKind, e.index, e.delta)) && TextAt(q, e.index) == TextAt(p, e.index) + e.delta)
            && (e.ThinkingDelta? ==> said == Some(Grew(ThinkingKind, e.index, e.delta)) && TextAt(q, e.index) == TextAt(p, e.index) + e.delta)
            && (e.ToolcallDelta? ==> said == Some(Grew(ToolKind, e.index, e.delta)))
            && (e.TextEnd? ==> said == Some(Closed(TextKind, e.index, TextAt(p, e.index))) && q.content[e.index].signature == e.signature)
            && (e.ThinkingEnd? ==> said == Some(Closed(ThinkingKind, e.index, TextAt(p, e.index))) && q.content[e.index].signature == e.signature)
            && (e.ToolcallEnd? && said.Some? ==>
                  said == Some(ToolClosed(e.index, q.content[e.index])) && q.content[e.index].partialJson == None
                  && p.content[e.index].arguments == q.content[e.index].arguments)
  {
  }

  /** The text of a text or thinking block. */
  function TextAt(p: Partial, i: nat): (r: string) {
    if i in p.content && !p.content[i].ToolBlock? then p.content[i].text else ""
  }

  // ----- Whole scripts

  /** What a script announces, in its order. */
  function Announced(parse: Lenient, p: Partial, es: seq<ProxyEvent>): (r: seq<Pushed>)
    decreases |es|
  {
    if es == [] then []
    else match Process(parse, p, es[0])
      case Thrown(_) => []
      case Next(q, None) => Announced(parse, q, es[1..])
      case Next(q, Some(event)) => [event] + Announced(parse, q, es[1..])
  }

  /** A reading that lives has pushed what the script on its lines announces, in that order and nothing else. */
  lemma {:induction false} LinesAnnounce(w: Wire, r: Reading, lines: seq<string>)
    requires r.Live? && TakeLines(w, r, lines).Live?
    ensures EventsOn(w, lines).Some?
    ensures TakeLines(w, r, lines).pushed == r.pushed + Announced(w.lenient, r.partial, EventsOn(w, lines).value)
    decreases |lines|
  {
    hide Payload, Process;
    LinesRebuild(w, r, lines);
    if lines == [] {
      assert r.pushed + [] == r.pushed;
    } else {
      var next := TakeLine(w, r, lines[0]);
      if next.Dead? {
        DeadStays(w, next, lines[1..]);
      }
      LinesAnnounce(w, next, lines[1..]);
      AnnouncedFirst(w, r, lines[0], EventsOn(w, lines[1..]).value);
    }
  }

  lemma AnnouncedFirst(w: Wire, r: Reading, line: string, rest: seq<ProxyEvent>)
    requires r.Live? && TakeLine(w, r, line).Live?
    ensures var next, data := TakeLine(w, r, line), Payload(w, line);
            var es := if data.None? then rest else [w.decode(data.value).event] + rest;
            next.pushed + Announced(w.lenient, next.partial, rest) == r.pushed + Announced(w.lenient, r.partial, es)
  {
    hide Payload, Process;
    var data := Payload(w, line);
    if data.Some? {
      var es := [w.decode(data.value).event] + rest;
      assert es[1..] == rest;
    }
  }

  /** The last `done` or `error` of a script has the last word on how the message stands. */
  lemma {:induction false} LastWord(parse: Lenient, p: Partial, es: seq<ProxyEvent>, k: nat)
    requires k < |es| && (es[k].Done? || es[k].Error?) && (forall j | k < j < |es| :: !es[j].Done? && !es[j].Error?)
    requires Rebuilt(parse, p, es).Some?
    ensures var q := Rebuilt(parse, p, es).value;
            q.stopReason == es[k].reason && q.usage == es[k].usage && (es[k].Error? ==> q.errorMessage == es[k].errorMessage)
    decreases |es|
  {
    hide Process;
    EventsKeepApart(parse, p, es[0], 0);
    if k > 0 {
      assert forall j | 0 <= j < |es| - 1 :: es[1..][j] == es[j + 1];
      LastWord(parse, Process(parse, p, es[0]).partial, es[1..], k - 1);
    } else {
      assert forall e <- es[1..] :: !e.Done? && !e.Error?;
      NoLastWord(parse, Process(parse, p, es[0]).partial, es[1..]);
    }
  }

  lemma {:induction false} NoLastWord(parse: Lenient, p: Partial, es: seq<ProxyEvent>)
    requires (forall e <- es :: !e.Done? && !e.Error?) && Rebuilt(parse, p, es).Some?
    ensures var q := Rebuilt(parse, p, es).value; q.stopReason == p.stopReason && q.usage == p.usage && q.errorMessage == p.errorMessage
    decreases |es|
  {
    hide Process;
    if es != [] {
      EventsKeepApart(parse, p, es[0], 0);
      NoLastWord(parse, Process(parse, p, es[0]).partial, es[1..]);
    }
  }

  /** A stream that fails says so last: aborted or failed, with the message; one that does not is left as it was read. */
  lemma FailureIsSaid(r: Reading, failure: Option<string>, aborted: bool)
    ensures var (p, pushed) := Closing(r, failure, aborted);
            && p.content == r.partial.content && p.usage == r.partial.usage
            && (failure.None? ==> p == r.partial && pushed == r.pushed)
            && (failure.Some? ==>
                  && p.stopReason == (if aborted then Aborted else Failed) && p.errorMessage == failure
                  && pushed == r.pushed + [Broke(p.stopReason, failure)])
  {
  }
}
