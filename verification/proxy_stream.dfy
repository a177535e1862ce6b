/** Reading the proxy's response: text cut into chunks, lines, and the events on them. */
module ProxyStream {
  import opened Messages
  import opened ProxyEvents

  datatype Decoded = Good(event: ProxyEvent) | Bad(message: string)

  /** What lies elsewhere: which characters are white space, the strict parser of a payload, the lenient one of arguments. */
  datatype Wire = Wire(space: char -> bool, decode: string -> Decoded, lenient: Lenient)

  datatype Reading =
    | Live(buffer: string, partial: Partial, pushed: seq<Pushed>)
    | Dead(message: string, partial: Partial, pushed: seq<Pushed>)

  const NEWLINE := '\n'
  const PREFIX := "data: "

  // ----- Lines

  function Join(pieces: seq<string>): (r: string)
    requires pieces != []
  {
    if |pieces| == 1 then pieces[0] else pieces[0] + [NEWLINE] + Join(pieces[1..])
  }

  /** The pieces of a text between its newlines; there is always a last one. */
  function Split(text: string): (pieces: seq<string>)
    ensures pieces != []
    ensures forall p <- pieces :: NEWLINE !in p
    ensures Join(pieces) == text
  {
    if text == "" then [""]
    else
      var rest := Split(text[1..]);
      if text[0] == NEWLINE then
        assert ([""] + rest)[1..] == rest;
        assert text == "" + [NEWLINE] + text[1..];
        [""] + rest
      else
        var first := [text[0]] + rest[0];
        assert ([first] + rest[1..])[1..] == rest[1..];
        assert |rest| > 1 ==> first + [NEWLINE] + Join(rest[1..]) == [text[0]] + (rest[0] + [NEWLINE] + Join(rest[1..]));
        assert text == [text[0]] + text[1..];
        [first] + rest[1..]
  }

  function Front<T>(s: seq<T>): (r: seq<T>)
    requires s != []
  {
    s[..|s| - 1]
  }

  function Last<T>(s: seq<T>): (r: T)
    requires s != []
  {
    s[|s| - 1]
  }

  /** A character put in front of split text. */
  function Prepended(c: char, rest: seq<string>): (pieces: seq<string>)
    requires rest != []
    ensures |pieces| > 0
  {
    if c == NEWLINE then [""] + rest else [[c] + rest[0]] + rest[1..]
  }

  lemma SplitFirst(t: string)
    requires t != ""
    ensures Split(t) == Prepended(t[0], Split(t[1..]))
  {
  }

  lemma PushedAppend(c: char, a: seq<string>, b: seq<string>)
    requires a != []
    ensures a + b != [] && Prepended(c, a + b) == Prepended(c, a) + b
  {
  }

  /** Text that comes later only ever continues the last piece. */
  lemma {:induction false} SplitAppend(t: string, u: string)
    ensures Split(t + u) == Front(Split(t)) + Split(Last(Split(t)) + u)
    decreases |t|
  {
    hide Split, Join;
    if t == "" {
      assert t + u == u;
      SplitAlone(t);
      assert Last(Split(t)) + u == u;
    } else {
      var rest := Split(t[1..]);
      SplitAppend(t[1..], u);
      SplitFirst(t);
      SplitFirst(t + u);
      assert (t + u)[1..] == t[1..] + u && (t + u)[0] == t[0];
      if |rest| == 1 && t[0] != NEWLINE {
        var s := t[0..1] + rest[0] + u;
        SplitFirst(s);
        assert s[1..] == rest[0] + u && s[0] == t[0] && Front(rest) == [];
        assert rest[1..] == [] && t[0..1] == [t[0]] && Split(t) == [[t[0]] + rest[0]];
      } else if |rest| == 1 {
        assert Front(rest) == [] && Split(t) == ["", rest[0]];
      } else {
        PushedAppend(t[0], Front(rest), [Last(rest)]);
        PushedAppend(t[0], Front(rest), Split(Last(rest) + u));
        assert Front(rest) + [Last(rest)] == rest;
        assert Split(t) == Prepended(t[0], Front(rest)) + [Last(rest)];
      }
    }
  }

  lemma {:induction false} SplitAlone(t: string)
    requires NEWLINE !in t
    ensures Split(t) == [t]
    decreases |t|
  {
    if t != "" {
      assert forall c <- t[1..] :: c in t;
      assert t[0] in t;
      SplitAlone(t[1..]);
      assert [t[0]] + t[1..] == t;
    }
  }

  // ----- Payloads

  function TrimStart(space: char -> bool, s: string): (r: string) {
    if s != "" && space(s[0]) then TrimStart(space, s[1..]) else s
  }

  function TrimEnd(space: char -> bool, s: string): (r: string) {
    if s != "" && space(s[|s| - 1]) then TrimEnd(space, s[..|s| - 1]) else s
  }

  /** The payload of a line, if it carries one. */
  function Payload(w: Wire, line: string): (r: Option<string>) {
    if !(PREFIX <= line) then None
    else
      var data := TrimEnd(w.space, TrimStart(w.space, line[|PREFIX|..]));
      if data == "" then None else Some(data)
  }

  function TakeLine(w: Wire, r: Reading, line: string): (result: Reading) {
    var data := Payload(w, line);
    if r.Dead? || data.None? then r
    else match w.decode(data.value)
      case Bad(message) => Dead(message, r.partial, r.pushed)
      case Good(e) =>
        match Process(w.lenient, r.partial, e)
        case Thrown(message) => Dead(message, r.partial, r.pushed)
        case Next(p, None) => Live(r.buffer, p, r.pushed)
        case Next(p, Some(event)) => Live(r.buffer, p, r.pushed + [event])
  }

  function TakeLines(w: Wire, r: Reading, lines: seq<string>): (result: Reading)
    decreases |lines|
  {
    if lines == [] then r else TakeLines(w, TakeLine(w, r, lines[0]), lines[1..])
  }

  /** Reading one chunk. Once something has thrown, nothing more is read. */
  function Feed(w: Wire, r: Reading, chunk: string): (result: Reading) {
    if r.Dead? then r
    else
      var lines := Split(r.buffer + chunk);
      TakeLines(w, Live(Last(lines), r.partial, r.pushed), Front(lines))
  }

  function FeedAll(w: Wire, r: Reading, chunks: seq<string>): (result: Reading)
    decreases |chunks|
  {
    if chunks == [] then r else FeedAll(w, Feed(w, r, chunks[0]), chunks[1..])
  }

  function Flat(chunks: seq<string>): (r: string) {
    if chunks == [] then "" else chunks[0] + Flat(chunks[1..])
  }

  // ----- Where the text is cut does not matter

  lemma {:induction false} LinesAppend(w: Wire, r: Reading, a: seq<string>, b: seq<string>)
    ensures TakeLines(w, r, a + b) == TakeLines(w, TakeLines(w, r, a), b)
    decreases |a|
  {
    if a == [] {
      assert a + b == b;
    } else {
      assert (a + b)[1..] == a[1..] + b;
      LinesAppend(w, TakeLine(w, r, a[0]), a[1..], b);
    }
  }

  function Holding(r: Reading, buffer: string): (result: Reading) {
    match r
    case Live(_, p, es) => Live(buffer, p, es)
    case Dead(_, _, _) => r
  }

  lemma {:induction false} BufferIsKept(w: Wire, r: Reading, buffer: string, lines: seq<string>)
    ensures TakeLines(w, Holding(r, buffer), lines) == Holding(TakeLines(w, r, lines), buffer)
    ensures TakeLines(w, r, lines).Live? ==> r.Live? && TakeLines(w, r, lines).buffer == r.buffer
    decreases |lines|
  {
    if lines != [] {
      hide Payload, Process;
      BufferIsKept(w, TakeLine(w, r, lines[0]), buffer, lines[1..]);
      assert TakeLine(w, Holding(r, buffer), lines[0]) == Holding(TakeLine(w, r, lines[0]), buffer);
    }
  }

  lemma FeedTwice(w: Wire, r: Reading, t: string, u: string)
    ensures Feed(w, Feed(w, r, t), u) == Feed(w, r, t + u)
  {
    hide TakeLine, Split;
    if r.Live? {
      var head := Split(r.buffer + t);
      SplitAppend(r.buffer + t, u);
      var tail := Split(Last(head) + u);
      assert (r.buffer + t) + u == r.buffer + (t + u);
      assert Last(Front(head) + tail) == Last(tail) && Front(Front(head) + tail) == Front(head) + Front(tail);
      var start := Live("", r.partial, r.pushed);
      LinesAppend(w, Holding(start, Last(tail)), Front(head), Front(tail));
      BufferIsKept(w, start, Last(tail), Front(head));
      BufferIsKept(w, start, Last(head), Front(head));
      var mid := Feed(w, r, t);
      if mid.Live? {
        BufferIsKept(w, Holding(start, Last(head)), "", Front(head));
        assert Holding(mid, Last(tail)) == TakeLines(w, Holding(start, Last(tail)), Front(head));
      } else {
        DeadStays(w, mid, Front(tail));
      }
    }
  }

  lemma {:induction false} DeadStays(w: Wire, r: Reading, lines: seq<string>)
    requires r.Dead?
    ensures TakeLines(w, r, lines) == r
    decreases |lines|
  {
    if lines != [] {
      DeadStays(w, r, lines[1..]);
    }
  }

  /** However the text is cut, reading the chunks is reading the text: the same
      pushed events, partial message and held-back line, or the same failure. */
  lemma {:induction false} CutsDoNotMatter(w: Wire, r: Reading, chunks: seq<string>)
    requires r.Live? ==> NEWLINE !in r.buffer
    ensures FeedAll(w, r, chunks) == Feed(w, r, Flat(chunks))
    decreases |chunks|
  {
    hide TakeLine, Split;
    if chunks == [] {
      if r.Live? {
        assert r.buffer + "" == r.buffer;
        SplitAlone(r.buffer);
      }
    } else {
      BufferHasNoNewline(w, r, chunks[0]);
      CutsDoNotMatter(w, Feed(w, r, chunks[0]), chunks[1..]);
      FeedTwice(w, r, chunks[0], Flat(chunks[1..]));
    }
  }

  lemma BufferHasNoNewline(w: Wire, r: Reading, chunk: string)
    ensures Feed(w, r, chunk).Live? ==> NEWLINE !in Feed(w, r, chunk).buffer
  {
    hide TakeLine;
    if r.Live? {
      var lines := Split(r.buffer + chunk);
      BufferIsKept(w, Live(Last(lines), r.partial, r.pushed), "", Front(lines));
      assert Last(lines) in lines;
    }
  }

  lemma AnyTwoCutsAgree(w: Wire, r: Reading, a: seq<string>, b: seq<string>)
    requires r.Live? ==> NEWLINE !in r.buffer
    requires Flat(a) == Flat(b)
    ensures FeedAll(w, r, a) == FeedAll(w, r, b)
  {
    CutsDoNotMatter(w, r, a);
    CutsDoNotMatter(w, r, b);
  }

  // ----- What the lines say

  /** The events on the lines, or nothing when some payload does not decode. */
  function EventsOn(w: Wire, lines: seq<string>): (r: Option<seq<ProxyEvent>>)
    decreases |lines|
  {
    if lines == [] then Some([])
    else
      var data, rest := Payload(w, lines[0]), EventsOn(w, lines[1..]);
      if data.None? || rest.None? then rest
      else match w.decode(data.value)
        case Bad(_) => None
        case Good(e) => Some([e] + rest.value)
  }

  /** Reading fails just when a payload does not decode or the script of events
      throws; otherwise the partial message is what the script rebuilds. */
  lemma {:induction false} LinesRebuild(w: Wire, r: Reading, lines: seq<string>)
    requires r.Live?
    ensures var es := EventsOn(w, lines);
            var script := if es.Some? then Rebuilt(w.lenient, r.partial, es.value) else None;
            && (TakeLines(w, r, lines).Live? <==> script.Some?)
            && (script.Some? ==> TakeLines(w, r, lines).partial == script.value)
    decreases |lines|
  {
    if lines != [] {
      hide Payload, Process;
      var next := TakeLine(w, r, lines[0]);
      if next.Live? {
        LinesRebuild(w, next, lines[1..]);
      } else {
        DeadStays(w, next, lines[1..]);
      }
      var es := EventsOn(w, lines);
      if Payload(w, lines[0]).Some? && es.Some? {
        assert es.value[1..] == EventsOn(w, lines[1..]).value;
      }
    }
  }

  // ----- The reading loop

  const START := Partial(map[], Stop, None, "")

  /** The reading left with `failure`, if it did fail. */
  function Closing(r: Reading, failure: Option<string>, aborted: bool): (result: (Partial, seq<Pushed>)) {
    match failure
    case None => (r.partial, r.pushed)
    case Some(message) =>
      var reason := if aborted then Aborted else Failed;
      (Partial(r.partial.content, reason, failure, r.partial.usage), r.pushed + [Broke(reason, failure)])
  }

  /** The chunks arrive one by one; then the body ends, or reading it fails with
      `ending`. The signal may fire before any read. */
  method StreamProxy(w: Wire, chunks: seq<string>, ending: Option<string>)
    returns (message: ProxyMessage, pushed: seq<Pushed>, read: nat, aborted: bool)
    ensures fresh(message) && read <= |chunks|
    ensures var reading := Feed(w, Live("", START, []), Flat(if aborted then chunks[..read] else chunks));
            exists failure: Option<string> ::
              && (aborted ==> failure.Some?)
              && (!aborted ==> failure == if reading.Dead? then Some(reading.message) else ending)
              && (message.State(), pushed) == Closing(reading, failure, aborted)
  {
    hide Feed, TakeLines;
    message := new ProxyMessage();
    pushed, read, aborted := [], 0, false;
    var buffer, failure := "", None;
    ghost var start := Live("", START, []);
    assert chunks[..0] == [];
    while true
      invariant read <= |chunks| && failure == None && !aborted
      invariant FeedAll(w, start, chunks[..read]) == Live(buffer, message.State(), pushed)
      decreases |chunks| - read
    {
      aborted := *;
      if aborted {
        var rejected: Option<string> := *;
        failure := Some(match rejected case None => "Request aborted by user" case Some(text) => text);
        break;
      }
      if read == |chunks| {
        failure := ending;
        break;
      }
      FedOneMore(w, start, chunks, read);
      buffer, pushed, failure := TakeChunk(w, message, buffer, pushed, chunks[read]);
      read := read + 1;
      if failure.Some? {
        FeedRest(w, FeedAll(w, start, chunks[..read]), chunks[read..]);
        FeedAppend(w, start, chunks[..read], chunks[read..]);
        assert chunks[..read] + chunks[read..] == chunks;
        break;
      }
    }
    assert chunks[..|chunks|] == chunks;
    CutsDoNotMatter(w, start, if aborted then chunks[..read] else chunks);
    if failure.Some? {
      message.stopReason, message.errorMessage := if aborted then Aborted else Failed, failure;
      pushed := pushed + [Broke(message.stopReason, failure)];
    }
  }

  lemma {:induction false} FeedAppend(w: Wire, r: Reading, a: seq<string>, b: seq<string>)
    ensures FeedAll(w, r, a + b) == FeedAll(w, FeedAll(w, r, a), b)
    decreases |a|
  {
    if a == [] {
      assert a + b == b;
    } else {
      assert (a + b)[1..] == a[1..] + b;
      FeedAppend(w, Feed(w, r, a[0]), a[1..], b);
    }
  }

  lemma FedOneMore(w: Wire, r: Reading, chunks: seq<string>, k: nat)
    requires k < |chunks|
    ensures FeedAll(w, r, chunks[..k + 1]) == Feed(w, FeedAll(w, r, chunks[..k]), chunks[k])
  {
    hide Feed;
    FeedAppend(w, r, chunks[..k], [chunks[k]]);
    assert chunks[..k] + [chunks[k]] == chunks[..k + 1];
    var last := [chunks[k]];
    assert last[1..] == [];
  }

  lemma {:induction false} FeedRest(w: Wire, r: Reading, chunks: seq<string>)
    requires r.Dead?
    ensures FeedAll(w, r, chunks) == r
    decreases |chunks|
  {
    if chunks != [] {
      FeedRest(w, r, chunks[1..]);
    }
  }

  /** One pass of the loop over a chunk that has arrived. */
  method TakeChunk(w: Wire, message: ProxyMessage, held: string, before: seq<Pushed>, chunk: string)
    returns (buffer: string, pushed: seq<Pushed>, failure: Option<string>)
    modifies message
    ensures Feed(w, Live(held, old(message.State()), before), chunk)
            == if failure.Some? then Dead(failure.value, message.State(), pushed) else Live(buffer, message.State(), pushed)
  {
    hide Process;
    var lines := Split(held + chunk);
    buffer, pushed, failure := Last(lines), before, None;
    lines := Front(lines);
    ghost var goal := TakeLines(w, Live(buffer, message.State(), before), lines);
    for i := 0 to |lines|
      invariant failure == None
      invariant TakeLines(w, Live(buffer, message.State(), pushed), lines[i..]) == goal
    {
      var data := Payload(w, lines[i]);
      assert lines[i..][1..] == lines[i + 1..];
      if data.Some? {
        var event: Option<Pushed>;
        match w.decode(data.value) {
          case Bad(text) =>
            failure := Some(text);
          case Good(e) =>
            event, failure := message.ProcessProxyEvent(w.lenient, e);
        }
        if failure.Some? {
          DeadStays(w, Dead(failure.value, message.State(), pushed), lines[i + 1..]);
          return;
        }
        if event.Some? {
          pushed := pushed + [event.value];
        }
      }
    }
  }
}
