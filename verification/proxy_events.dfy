/** Rebuilding an assistant message from the events of the proxy. */
module ProxyEvents {
  import opened Messages

  datatype Kind = TextKind | ThinkingKind | ToolKind

  /** What the server sends; `Unhandled` is any other well-formed value. */
  datatype ProxyEvent =
    | Begin
    | TextStart(index: nat)
    | TextDelta(index: nat, delta: string)
    | TextEnd(index: nat, signature: Option<string>)
    | ThinkingStart(index: nat)
    | ThinkingDelta(index: nat, delta: string)
    | ThinkingEnd(index: nat, signature: Option<string>)
    | ToolcallStart(index: nat, id: string, name: string)
    | ToolcallDelta(index: nat, delta: string)
    | ToolcallEnd(index: nat)
    | Done(reason: StopReason, usage: string)
    | Error(reason: StopReason, errorMessage: Option<string>, usage: string)
    | Unhandled

  datatype Arguments = Empty | Json(value: string)

  /** `partialJson` is there from the start of a tool call to its end. */
  datatype Block =
    | TextBlock(text: string, signature: Option<string>)
    | ThinkingBlock(text: string, signature: Option<string>)
    | ToolBlock(id: string, name: string, arguments: Arguments, partialJson: Option<string>)

  /** What the stream pushes; every event also carries the one shared partial message. */
  datatype Pushed =
    | Started
    | Opened(kind: Kind, index: nat)
    | Grew(kind: Kind, index: nat, delta: string)
    | Closed(kind: Kind, index: nat, content: string)
    | ToolClosed(index: nat, call: Block)
    | Finished(reason: StopReason)
    | Broke(reason: StopReason, errorMessage: Option<string>)

  datatype Partial = Partial(content: map<nat, Block>, stopReason: StopReason, errorMessage: Option<string>, usage: string)

  datatype Outcome = Thrown(message: string) | Next(partial: Partial, event: Option<Pushed>)

  /** The lenient parser of unfinished JSON; `Empty` where it gives nothing. */
  type Lenient = string -> Arguments

  function At(content: map<nat, Block>, i: nat): (r: Option<Block>) {
    if i in content then Some(content[i]) else None
  }

  function KindOf(block: Option<Block>): (r: Option<Kind>) {
    match block
    case None => None
    case Some(TextBlock(_, _)) => Some(TextKind)
    case Some(ThinkingBlock(_, _)) => Some(ThinkingKind)
    case Some(ToolBlock(_, _, _, _)) => Some(ToolKind)
  }

  predicate Indexed(e: ProxyEvent) {
    !e.Begin? && !e.Done? && !e.Error? && !e.Unhandled?
  }

  /** The kind of block that an event needs to find at its index, if it needs one. */
  function Needs(e: ProxyEvent): (r: Option<Kind>) {
    match e
    case TextDelta(_, _) => Some(TextKind)
    case TextEnd(_, _) => Some(TextKind)
    case ThinkingDelta(_, _) => Some(ThinkingKind)
    case ThinkingEnd(_, _) => Some(ThinkingKind)
    case ToolcallDelta(_, _) => Some(ToolKind)
    case _ => None
  }

  function Starts(e: ProxyEvent): (r: Option<Kind>) {
    match e
    case TextStart(_) => Some(TextKind)
    case ThinkingStart(_) => Some(ThinkingKind)
    case ToolcallStart(_, _, _) => Some(ToolKind)
    case _ => None
  }

  function Fits(e: ProxyEvent, kind: Option<Kind>): (r: bool) {
    Needs(e).Some? ==> Needs(e) == kind
  }

  /** Appending to an absent string, as the language does it. */
  function Appended(s: Option<string>, delta: string): (r: string) {
    (if s.Some? then s.value else "undefined") + delta
  }

  /** What an event makes of the block at its own index. */
  function BlockStep(parse: Lenient, block: Option<Block>, e: ProxyEvent): (r: Option<Block>)
    requires Indexed(e) && Fits(e, KindOf(block))
    ensures KindOf(r) == if Starts(e).Some? then Starts(e) else KindOf(block)
  {
    match e
    case TextStart(_) => Some(TextBlock("", None))
    case TextDelta(_, delta) => Some(TextBlock(block.value.text + delta, block.value.signature))
    case TextEnd(_, signature) => Some(TextBlock(block.value.text, signature))
    case ThinkingStart(_) => Some(ThinkingBlock("", None))
    case ThinkingDelta(_, delta) => Some(ThinkingBlock(block.value.text + delta, block.value.signature))
    case ThinkingEnd(_, signature) => Some(ThinkingBlock(block.value.text, signature))
    case ToolcallStart(_, id, name) => Some(ToolBlock(id, name, Empty, Some("")))
    case ToolcallDelta(_, delta) =>
      var text := Appended(block.value.partialJson, delta);
      Some(ToolBlock(block.value.id, block.value.name, parse(text), Some(text)))
    case ToolcallEnd(_) =>
      if KindOf(block) == Some(ToolKind)
      then Some(ToolBlock(block.value.id, block.value.name, block.value.arguments, None))
      else block
  }

  function Complaint(e: ProxyEvent): (r: string) {
    match e
    case TextDelta(_, _) => "Received text_delta for non-text content"
    case TextEnd(_, _) => "Received text_end for non-text content"
    case ThinkingDelta(_, _) => "Received thinking_delta for non-thinking content"
    case ThinkingEnd(_, _) => "Received thinking_end for non-thinking content"
    case _ => "Received toolcall_delta for non-toolCall content"
  }

  /** What is pushed for an event that left `block` at its index. */
  function Announcement(block: Option<Block>, e: ProxyEvent): (r: Option<Pushed>) {
    match e
    case Begin => Some(Started)
    case TextStart(i) => Some(Opened(TextKind, i))
    case ThinkingStart(i) => Some(Opened(ThinkingKind, i))
    case ToolcallStart(i, _, _) => Some(Opened(ToolKind, i))
    case TextDelta(i, delta) => Some(Grew(TextKind, i, delta))
    case ThinkingDelta(i, delta) => Some(Grew(ThinkingKind, i, delta))
    case ToolcallDelta(i, delta) => Some(Grew(ToolKind, i, delta))
    case TextEnd(i, _) => if block.Some? && block.value.TextBlock? then Some(Closed(TextKind, i, block.value.text)) else None
    case ThinkingEnd(i, _) => if block.Some? && block.value.ThinkingBlock? then Some(Closed(ThinkingKind, i, block.value.text)) else None
    case ToolcallEnd(i) => if block.Some? && block.value.ToolBlock? then Some(ToolClosed(i, block.value)) else None
    case Done(reason, _) => Some(Finished(reason))
    case Error(reason, message, _) => Some(Broke(reason, message))
    case Unhandled => None
  }

  function Process(parse: Lenient, p: Partial, e: ProxyEvent): (r: Outcome) {
    if Indexed(e) then
      var block := At(p.content, e.index);
      if !Fits(e, KindOf(block)) then Thrown(Complaint(e))
      else
        var after := BlockStep(parse, block, e);
        Next(Partial(if after.Some? then p.content[e.index := after.value] else p.content, p.stopReason, p.errorMessage, p.usage),
             Announcement(after, e))
    else
      Next(match e
           case Done(reason, usage) => Partial(p.content, reason, p.errorMessage, usage)
           case Error(reason, message, usage) => Partial(p.content, reason, message, usage)
           case _ => p,
           Announcement(None, e))
  }

  /** The partial message that the stream fills in. */
  class ProxyMessage {
    var content: map<nat, Block>
    var stopReason: StopReason
    var errorMessage: Option<string>
    var usage: string

    function State(): (r: Partial)
      reads this
    {
      Partial(content, stopReason, errorMessage, usage)
    }

    constructor ()
      ensures State() == Partial(map[], Stop, None, "")
    {
      content, stopReason, errorMessage, usage := map[], Stop, None, "";
    }

    method ProcessProxyEvent(parse: Lenient, e: ProxyEvent) returns (event: Option<Pushed>, thrown: Option<string>)
      modifies this
      ensures Process(parse, old(State()), e) == if thrown.Some? then Thrown(thrown.value) else Next(State(), event)
      ensures thrown.Some? ==> State() == old(State())
    {
      event, thrown := None, None;
      if e.TextStart? || e.TextDelta? || e.TextEnd? {
        event, thrown := ProcessText(parse, e);
      } else if e.ThinkingStart? || e.ThinkingDelta? || e.ThinkingEnd? {
        event, thrown := ProcessThinking(parse, e);
      } else if Indexed(e) {
        event, thrown := ProcessToolcall(parse, e);
      } else {
        match e {
          case Begin =>
            event := Some(Started);
          case Done(reason, newUsage) =>
            stopReason, usage := reason, newUsage;
            event := Some(Finished(reason));
          case Error(reason, message, newUsage) =>
            stopReason, errorMessage, usage := reason, message, newUsage;
            event := Some(Broke(reason, message));
          case Unhandled =>
        }
      }
    }

    method ProcessText(parse: Lenient, e: ProxyEvent) returns (event: Option<Pushed>, thrown: Option<string>)
      requires e.TextStart? || e.TextDelta? || e.TextEnd?
      modifies this
      ensures Process(parse, old(State()), e) == if thrown.Some? then Thrown(thrown.value) else Next(State(), event)
      ensures thrown.Some? ==> State() == old(State())
    {
      event, thrown := None, None;
      match e {
        case TextStart(i) =>
          content := content[i := TextBlock("", None)];
          event := Some(Opened(TextKind, i));
        case TextDelta(i, delta) =>
          if i in content && content[i].TextBlock? {
            content := content[i := TextBlock(content[i].text + delta, content[i].signature)];
            event := Some(Grew(TextKind, i, delta));
          } else {
            thrown := Some("Received text_delta for non-text content");
          }
        case TextEnd(i, signature) =>
          if i in content && content[i].TextBlock? {
            content := content[i := TextBlock(content[i].text, signature)];
            event := Some(Closed(TextKind, i, content[i].text));
          } else {
            thrown := Some("Received text_end for non-text content");
          }
      }
    }

    method ProcessThinking(parse: Lenient, e: ProxyEvent) returns (event: Option<Pushed>, thrown: Option<string>)
      requires e.ThinkingStart? || e.ThinkingDelta? || e.ThinkingEnd?
      modifies this
      ensures Process(parse, old(State()), e) == if thrown.Some? then Thrown(thrown.value) else Next(State(), event)
      ensures thrown.Some? ==> State() == old(State())
    {
      event, thrown := None, None;
      match e {
        case ThinkingStart(i) =>
          content := content[i := ThinkingBlock("", None)];
          event := Some(Opened(ThinkingKind, i));
        case ThinkingDelta(i, delta) =>
          if i in content && content[i].ThinkingBlock? {
            content := content[i := ThinkingBlock(content[i].text + delta, content[i].signature)];
            event := Some(Grew(ThinkingKind, i, delta));
          } else {
            thrown := Some("Received thinking_delta for non-thinking content");
          }
        case ThinkingEnd(i, signature) =>
          if i in content && content[i].ThinkingBlock? {
            content := content[i := ThinkingBlock(content[i].text, signature)];
            event := Some(Closed(ThinkingKind, i, content[i].text));
          } else {
            thrown := Some("Received thinking_end for non-thinking content");
          }
      }
    }

    method ProcessToolcall(parse: Lenient, e: ProxyEvent) returns (event: Option<Pushed>, thrown: Option<string>)
      requires e.ToolcallStart? || e.ToolcallDelta? || e.ToolcallEnd?
      modifies this
      ensures Process(parse, old(State()), e) == if thrown.Some? then Thrown(thrown.value) else Next(State(), event)
      ensures thrown.Some? ==> State() == old(State())
    {
      event, thrown := None, None;
      match e {
        case ToolcallStart(i, id, name) =>
          content := content[i := ToolBlock(id, name, Empty, Some(""))];
          event := Some(Opened(ToolKind, i));
        case ToolcallDelta(i, delta) =>
          if i in content && content[i].ToolBlock? {
            var block := content[i];
            var text := Appended(block.partialJson, delta);
            content := content[i := ToolBlock(block.id, block.name, parse(text), Some(text))];
            event := Some(Grew(ToolKind, i, delta));
          } else {
            thrown := Some("Received toolcall_delta for non-toolCall content");
          }
        case ToolcallEnd(i) =>
          if i in content && content[i].ToolBlock? {
            var block := content[i];
            content := content[i := ToolBlock(block.id, block.name, block.arguments, None)];
            event := Some(ToolClosed(i, content[i]));
          }
      }
    }
  }

  // ----- Whole scripts, index by index

  /** The partial message after a script, or nothing when some event of it throws. */
  function Rebuilt(parse: Lenient, p: Partial, es: seq<ProxyEvent>): (r: Option<Partial>)
    decreases |es|
  {
    if es == [] then Some(p)
    else match Process(parse, p, es[0])
      case Thrown(_) => None
      case Next(q, _) => Rebuilt(parse, q, es[1..])
  }

  /** The events of a script that are about index `i`. */
  function Own(es: seq<ProxyEvent>, i: nat): (own: seq<ProxyEvent>)
    ensures forall e <- own :: Indexed(e) && e.index == i
  {
    if es == [] then []
    else (if Indexed(es[0]) && es[0].index == i then [es[0]] else []) + Own(es[1..], i)
  }

  /** The kind of block that a script leaves at its index, judged by its last start. */
  function LastStart(kind: Option<Kind>, es: seq<ProxyEvent>): (r: Option<Kind>)
    decreases |es|
  {
    if es == [] then kind
    else LastStart(if Starts(es[0]).Some? then Starts(es[0]) else kind, es[1..])
  }

  /** Every delta and every end of text or thinking follows a start of its kind with no other start between. */
  ghost predicate Orderly(kind: Option<Kind>, es: seq<ProxyEvent>) {
    forall k | 0 <= k < |es| :: Fits(es[k], LastStart(kind, es[..k]))
  }

  function BlockFold(parse: Lenient, block: Option<Block>, es: seq<ProxyEvent>): (r: Option<Option<Block>>)
    requires forall e <- es :: Indexed(e)
    decreases |es|
  {
    if es == [] then Some(block)
    else if !Fits(es[0], KindOf(block)) then None
    else BlockFold(parse, BlockStep(parse, block, es[0]), es[1..])
  }

  lemma {:induction false} OrderlyFold(parse: Lenient, block: Option<Block>, es: seq<ProxyEvent>)
    requires forall e <- es :: Indexed(e)
    ensures BlockFold(parse, block, es).Some? <==> Orderly(KindOf(block), es)
    decreases |es|
  {
    if es != [] {
      assert es[..0] == [];
      if Fits(es[0], KindOf(block)) {
        var after := BlockStep(parse, block, es[0]);
        OrderlyFold(parse, after, es[1..]);
        assert forall k | 0 <= k < |es| - 1 :: es[..k + 1] == [es[0]] + es[1..][..k];
        assert forall k | 0 <= k < |es| - 1 :: es[..k + 1][1..] == es[1..][..k] && es[1..][k] == es[k + 1];
        OrderlyTail(KindOf(block), es);
      } else {
        assert LastStart(KindOf(block), es[..0]) == KindOf(block);
      }
    }
  }

  lemma {:induction false} OrderlyTail(kind: Option<Kind>, es: seq<ProxyEvent>)
    requires es != []
    ensures Orderly(kind, es) <==>
            Fits(es[0], kind) && Orderly(if Starts(es[0]).Some? then Starts(es[0]) else kind, es[1..])
  {
    var next := if Starts(es[0]).Some? then Starts(es[0]) else kind;
    assert es[..0] == [] && LastStart(kind, []) == kind;
    forall k | 0 <= k < |es| - 1
      ensures LastStart(kind, es[..k + 1]) == LastStart(next, es[1..][..k]) && es[1..][k] == es[k + 1]
    {
      assert es[..k + 1][1..] == es[1..][..k];
    }
    if Orderly(kind, es) {
      forall k | 0 <= k < |es[1..]| ensures Fits(es[1..][k], LastStart(next, es[1..][..k])) {
        assert Fits(es[k + 1], LastStart(kind, es[..k + 1]));
      }
    }
    if Fits(es[0], kind) && Orderly(next, es[1..]) {
      forall k | 0 <= k < |es| ensures Fits(es[k], LastStart(kind, es[..k])) {
        if k > 0 {
          assert Fits(es[1..][k - 1], LastStart(next, es[1..][..k - 1]));
        }
      }
    }
  }

  /** No index sees another's events: a script goes through just when its
      events at every index do, and leaves at each index what those make of it. */
  lemma {:induction false} IndicesAreApart(parse: Lenient, p: Partial, es: seq<ProxyEvent>)
    ensures Rebuilt(parse, p, es).Some? <==> forall i :: BlockFold(parse, At(p.content, i), Own(es, i)).Some?
    ensures Rebuilt(parse, p, es).Some? ==>
              forall i :: BlockFold(parse, At(p.content, i), Own(es, i)) == Some(At(Rebuilt(parse, p, es).value.content, i))
    decreases |es|
  {
    if es == [] {
      assert forall i :: Own(es, i) == [];
    } else {
      forall i ensures Own(es, i) == (if Indexed(es[0]) && es[0].index == i then [es[0]] else []) + Own(es[1..], i) {
      }
      match Process(parse, p, es[0]) {
        case Thrown(_) =>
          var j := es[0].index;
          assert Own(es, j)[0] == es[0];
          assert BlockFold(parse, At(p.content, j), Own(es, j)) == None;
        case Next(q, _) =>
          IndicesAreApart(parse, q, es[1..]);
          forall i
            ensures BlockFold(parse, At(p.content, i), Own(es, i)) == BlockFold(parse, At(q.content, i), Own(es[1..], i))
          {
            OneEvent(parse, p, es[0], i, Own(es[1..], i));
            var own := if Indexed(es[0]) && es[0].index == i then [es[0]] else [];
            assert Own(es, i) == own + Own(es[1..], i);
          }
      }
    }
  }

  lemma OneEvent(parse: Lenient, p: Partial, e: ProxyEvent, i: nat, rest: seq<ProxyEvent>)
    requires Process(parse, p, e).Next?
    requires forall f <- rest :: Indexed(f)
    ensures var own := if Indexed(e) && e.index == i then [e] else [];
            BlockFold(parse, At(p.content, i), own + rest) == BlockFold(parse, At(Process(parse, p, e).partial.content, i), rest)
  {
    var own := if Indexed(e) && e.index == i then [e] else [];
    if own == [] {
      assert own + rest == rest;
      assert At(p.content, i) == At(Process(parse, p, e).partial.content, i);
    } else {
      assert (own + rest)[1..] == rest;
      assert At(Process(parse, p, e).partial.content, i) == BlockStep(parse, At(p.content, i), e);
    }
  }

  /** A script never throws just when it is orderly at every index. */
  lemma ThrowsUnlessOrderly(parse: Lenient, p: Partial, es: seq<ProxyEvent>)
    ensures Rebuilt(parse, p, es).Some? <==> forall i :: Orderly(KindOf(At(p.content, i)), Own(es, i))
  {
    hide Orderly, BlockFold, Rebuilt, KindOf;
    IndicesAreApart(parse, p, es);
    forall i
      ensures BlockFold(parse, At(p.content, i), Own(es, i)).Some? <==> Orderly(KindOf(At(p.content, i)), Own(es, i))
    {
      OrderlyFold(parse, At(p.content, i), Own(es, i));
    }
  }

  // ----- What a block holds

  predicate NoStart(es: seq<ProxyEvent>) {
    forall e <- es :: Indexed(e) && Starts(e) == None
  }

  function DeltaOf(e: ProxyEvent): (r: string) {
    match e
    case TextDelta(_, d) => d
    case ThinkingDelta(_, d) => d
    case ToolcallDelta(_, d) => d
    case _ => ""
  }

  /** The deltas of a script, joined. */
  function Deltas(es: seq<ProxyEvent>): (r: string) {
    if es == [] then "" else DeltaOf(es[0]) + Deltas(es[1..])
  }

  /** The signature of the last end. */
  function LastSignature(before: Option<string>, es: seq<ProxyEvent>): (r: Option<string>)
    decreases |es|
  {
    if es == [] then before
    else LastSignature(if es[0].TextEnd? || es[0].ThinkingEnd? then es[0].signature else before, es[1..])
  }

  lemma {:induction false} FoldAppend(parse: Lenient, block: Option<Block>, a: seq<ProxyEvent>, b: seq<ProxyEvent>)
    requires forall e <- a + b :: Indexed(e)
    requires forall e <- a :: Indexed(e)
    requires forall e <- b :: Indexed(e)
    ensures BlockFold(parse, block, a + b) ==
            match BlockFold(parse, block, a) { case None => None case Some(mid) => BlockFold(parse, mid, b) }
    decreases |a|
  {
    if a == [] {
      assert a + b == b;
    } else {
      assert (a + b)[1..] == a[1..] + b;
      if Fits(a[0], KindOf(block)) {
        FoldAppend(parse, BlockStep(parse, block, a[0]), a[1..], b);
      }
    }
  }

  /** A text or thinking block with other contents. */
  function Refilled(block: Block, text: string, signature: Option<string>): (r: Block) {
    if block.TextBlock? then TextBlock(text, signature) else ThinkingBlock(text, signature)
  }

  lemma TextStep(parse: Lenient, block: Block, e: ProxyEvent)
    requires Indexed(e) && Starts(e) == None && (block.TextBlock? || block.ThinkingBlock?) && Fits(e, KindOf(Some(block)))
    ensures var signature := if e.TextEnd? || e.ThinkingEnd? then e.signature else block.signature;
            BlockStep(parse, Some(block), e) == Some(Refilled(block, block.text + DeltaOf(e), signature))
  {
    assert block.text + "" == block.text;
  }

  lemma {:induction false} TextGrows(parse: Lenient, block: Block, es: seq<ProxyEvent>)
    requires NoStart(es) && (block.TextBlock? || block.ThinkingBlock?)
    requires BlockFold(parse, Some(block), es).Some?
    ensures BlockFold(parse, Some(block), es).value ==
            Some(Refilled(block, block.text + Deltas(es), LastSignature(block.signature, es)))
    decreases |es|
  {
    hide BlockStep, DeltaOf, Starts, Fits;
    if es == [] {
      assert block.text + "" == block.text;
    } else {
      var e, rest := es[0], es[1..];
      assert e in es && forall f <- rest :: f in es;
      TextStep(parse, block, e);
      TextGrows(parse, BlockStep(parse, Some(block), e).value, rest);
      assert block.text + (DeltaOf(e) + Deltas(rest)) == (block.text + DeltaOf(e)) + Deltas(rest);
    }
  }

  /** A text or thinking block holds its own deltas since its last start, joined, whatever else the script does. */
  lemma BlocksHoldTheirDeltas(parse: Lenient, p: Partial, es: seq<ProxyEvent>, i: nat,
                              before: seq<ProxyEvent>, start: ProxyEvent, rest: seq<ProxyEvent>)
    requires Own(es, i) == before + [start] + rest && NoStart(rest)
    requires start.TextStart? || start.ThinkingStart?
    requires Rebuilt(parse, p, es).Some?
    ensures var text, signature := Deltas(rest), LastSignature(None, rest);
            At(Rebuilt(parse, p, es).value.content, i) ==
            Some(if start.TextStart? then TextBlock(text, signature) else ThinkingBlock(text, signature))
  {
    SinceTheLastStart(parse, p, es, i, before, start, rest);
    var block := if start.TextStart? then TextBlock("", None) else ThinkingBlock("", None);
    TextGrows(parse, block, rest);
    assert "" + Deltas(rest) == Deltas(rest);
  }

  /** The end of a text or thinking block is announced with all its deltas, joined. */
  lemma EndsAnnounceTheText(parse: Lenient, p: Partial, es: seq<ProxyEvent>, i: nat,
                            before: seq<ProxyEvent>, start: ProxyEvent, rest: seq<ProxyEvent>, signature: Option<string>)
    requires Own(es, i) == before + [start] + rest && NoStart(rest)
    requires start.TextStart? || start.ThinkingStart?
    requires Rebuilt(parse, p, es).Some?
    ensures var q := Rebuilt(parse, p, es).value;
            var kind := if start.TextStart? then TextKind else ThinkingKind;
            var end := if start.TextStart? then TextEnd(i, signature) else ThinkingEnd(i, signature);
            Process(parse, q, end).Next? && Process(parse, q, end).event == Some(Closed(kind, i, Deltas(rest)))
  {
    hide Rebuilt, Own, Deltas;
    BlocksHoldTheirDeltas(parse, p, es, i, before, start, rest);
  }

  lemma SinceTheLastStart(parse: Lenient, p: Partial, es: seq<ProxyEvent>, i: nat,
                          before: seq<ProxyEvent>, start: ProxyEvent, rest: seq<ProxyEvent>)
    requires Own(es, i) == before + [start] + rest && NoStart(rest) && Starts(start).Some?
    requires Rebuilt(parse, p, es).Some?
    ensures Some(At(Rebuilt(parse, p, es).value.content, i)) == BlockFold(parse, BlockStep(parse, None, start), rest)
  {
    hide Rebuilt, Own, BlockFold, BlockStep, Starts;
    var own, tail := Own(es, i), [start] + rest;
    assert own == before + tail;
    assert forall e <- before :: e in own;
    assert forall e <- tail :: e in own;
    IndicesAreApart(parse, p, es);
    FoldAppend(parse, At(p.content, i), before, tail);
    StartForgets(parse, BlockFold(parse, At(p.content, i), before).value, start, rest);
  }

  lemma StartForgets(parse: Lenient, block: Option<Block>, start: ProxyEvent, rest: seq<ProxyEvent>)
    requires Indexed(start) && Starts(start).Some? && forall e <- rest :: Indexed(e)
    requires forall e <- [start] + rest :: Indexed(e)
    ensures BlockFold(parse, block, [start] + rest) == BlockFold(parse, BlockStep(parse, None, start), rest)
  {
    assert ([start] + rest)[1..] == rest;
  }

  /** What a tool call has gathered, and the text its arguments were last parsed from. */
  function ParsedFrom(gathered: Option<string>, parsed: Option<string>, es: seq<ProxyEvent>): (r: (Option<string>, Option<string>))
    decreases |es|
  {
    if es == [] then (gathered, parsed)
    else match es[0]
      case ToolcallDelta(_, delta) =>
        var text := Appended(gathered, delta);
        ParsedFrom(Some(text), Some(text), es[1..])
      case ToolcallEnd(_) => ParsedFrom(None, parsed, es[1..])
      case _ => ParsedFrom(gathered, parsed, es[1..])
  }

  lemma {:induction false} ToolGrows(parse: Lenient, block: Block, parsed: Option<string>, es: seq<ProxyEvent>)
    requires NoStart(es) && block.ToolBlock? && BlockFold(parse, Some(block), es).Some?
    requires block.arguments == if parsed.Some? then parse(parsed.value) else Empty
    ensures var (gathered, last) := ParsedFrom(block.partialJson, parsed, es);
            BlockFold(parse, Some(block), es).value ==
            Some(ToolBlock(block.id, block.name, if last.Some? then parse(last.value) else Empty, gathered))
    ensures ToolOnly(es)
    decreases |es|
  {
    if es != [] {
      var next := BlockStep(parse, Some(block), es[0]).value;
      ToolGrows(parse, next, if es[0].ToolcallDelta? then next.partialJson else parsed, es[1..]);
      assert es[0] in es;
      assert forall e <- es :: e == es[0] || e in es[1..];
    }
  }

  predicate ToolOnly(es: seq<ProxyEvent>) {
    forall e <- es :: e.ToolcallDelta? || e.ToolcallEnd?
  }

  predicate HasDelta(es: seq<ProxyEvent>) {
    exists k | 0 <= k < |es| :: es[k].ToolcallDelta?
  }

  /** No delta comes after an end. */
  predicate EndsLast(es: seq<ProxyEvent>) {
    forall j, k | 0 <= j < k < |es| :: es[j].ToolcallEnd? ==> !es[k].ToolcallDelta?
  }

  /** The deltas up to the last end that a delta follows, joined. */
  function Forgotten(es: seq<ProxyEvent>): (r: Option<string>)
    requires ToolOnly(es)
  {
    if es == [] then None
    else match Forgotten(es[1..])
      case Some(x) => Some(DeltaOf(es[0]) + x)
      case None => if es[0].ToolcallEnd? && HasDelta(es[1..]) then Some("") else None
  }

  lemma {:induction false} ForgottenUnlessEndsLast(es: seq<ProxyEvent>)
    requires ToolOnly(es)
    ensures Forgotten(es) == None <==> EndsLast(es)
    decreases |es|
  {
    if es != [] {
      var rest := es[1..];
      ForgottenUnlessEndsLast(rest);
      if EndsLast(es) {
        forall j, k | 0 <= j < k < |rest| ensures rest[j].ToolcallEnd? ==> !rest[k].ToolcallDelta? {
          assert rest[j] == es[j + 1] && rest[k] == es[k + 1];
        }
        if es[0].ToolcallEnd? {
          forall k | 0 <= k < |rest| ensures !rest[k].ToolcallDelta? {
            assert rest[k] == es[k + 1];
          }
        }
      }
      if EndsLast(rest) && !(es[0].ToolcallEnd? && HasDelta(rest)) {
        forall j, k | 0 <= j < k < |es| ensures es[j].ToolcallEnd? ==> !es[k].ToolcallDelta? {
          assert es[k] == rest[k - 1];
          assert j > 0 ==> es[j] == rest[j - 1];
        }
      }
    }
  }

  /** What the arguments should have been parsed from last, going by what was forgotten. */
  predicate ParsedAsTold(gathered: Option<string>, parsed: Option<string>, es: seq<ProxyEvent>, last: Option<string>)
    requires ToolOnly(es)
  {
    match Forgotten(es)
    case Some(b) => HasDelta(es) && b <= Deltas(es) && last == Some("undefined" + Deltas(es)[|b|..])
    case None => last == if HasDelta(es) then Some(Appended(gathered, Deltas(es))) else parsed
  }

  /** What the arguments are parsed from, for every script of deltas and ends. */
  lemma {:induction false} ParsedExactly(gathered: Option<string>, parsed: Option<string>, es: seq<ProxyEvent>)
    requires ToolOnly(es)
    ensures ParsedAsTold(gathered, parsed, es, ParsedFrom(gathered, parsed, es).1)
    ensures !HasDelta(es) ==> Deltas(es) == ""
    decreases |es|
  {
    hide HasDelta, ParsedAsTold, Deltas, Forgotten;
    if es == [] {
      NoEvents(gathered, parsed);
    } else {
      assert es[0] in es;
      SomeDelta(es);
      if es[0].ToolcallDelta? {
        var text := Some(Appended(gathered, es[0].delta));
        ParsedExactly(text, text, es[1..]);
        DeltaTold(gathered, parsed, es, ParsedFrom(text, text, es[1..]).1);
      } else {
        ParsedExactly(None, parsed, es[1..]);
        EndTold(gathered, parsed, es, ParsedFrom(None, parsed, es[1..]).1);
      }
    }
  }

  lemma NoEvents(gathered: Option<string>, parsed: Option<string>)
    ensures ParsedAsTold(gathered, parsed, [], parsed) && Deltas([]) == ""
  {
  }

  lemma DeltaTold(gathered: Option<string>, parsed: Option<string>, es: seq<ProxyEvent>, last: Option<string>)
    requires es != [] && es[0].ToolcallDelta? && ToolOnly(es) && ToolOnly(es[1..])
    requires var text := Some(Appended(gathered, es[0].delta)); ParsedAsTold(text, text, es[1..], last)
    requires !HasDelta(es[1..]) ==> Deltas(es[1..]) == ""
    ensures ParsedAsTold(gathered, parsed, es, last)
  {
    hide HasDelta;
    SomeDelta(es);
    var d, all, x := es[0].delta, Deltas(es[1..]), Forgotten(es[1..]);
    var text := Appended(gathered, d);
    assert text + all == Appended(gathered, d + all) && text + "" == text;
    if x.Some? {
      Behind(d, x.value, all);
    }
  }

  lemma EndTold(gathered: Option<string>, parsed: Option<string>, es: seq<ProxyEvent>, last: Option<string>)
    requires es != [] && es[0].ToolcallEnd? && ToolOnly(es) && ToolOnly(es[1..])
    requires ParsedAsTold(None, parsed, es[1..], last)
    requires !HasDelta(es[1..]) ==> Deltas(es[1..]) == ""
    ensures ParsedAsTold(gathered, parsed, es, last)
    ensures !HasDelta(es) ==> Deltas(es) == ""
  {
    hide HasDelta;
    SomeDelta(es);
    var all, x := Deltas(es[1..]), Forgotten(es[1..]);
    assert "" + all == all;
    if x.Some? {
      Behind("", x.value, all);
      assert "" + x.value == x.value;
    }
  }

  lemma SomeDelta(es: seq<ProxyEvent>)
    requires es != []
    ensures HasDelta(es) <==> es[0].ToolcallDelta? || HasDelta(es[1..])
  {
    assert forall k | 0 <= k < |es| - 1 :: es[1..][k] == es[k + 1];
    assert forall k | 1 <= k < |es| :: es[k] == es[1..][k - 1];
  }

  lemma Behind(d: string, x: string, all: string)
    ensures |x| <= |all| ==> (d + all)[|d + x|..] == all[|x|..]
    ensures x <= all ==> d + x <= d + all
  {
  }

  /** The arguments of a tool call are parsed from all its deltas joined, just
      when no delta follows an end; else the text before the last end that a
      delta follows has turned into the word `undefined`. */
  lemma ToolArgumentsAreItsDeltas(parse: Lenient, p: Partial, es: seq<ProxyEvent>, i: nat,
                                  before: seq<ProxyEvent>, start: ProxyEvent, rest: seq<ProxyEvent>)
    requires Own(es, i) == before + [start] + rest && NoStart(rest) && start.ToolcallStart?
    requires Rebuilt(parse, p, es).Some?
    ensures var block := At(Rebuilt(parse, p, es).value.content, i);
            var from := ParsedFrom(Some(""), None, rest).1;
            && ToolOnly(rest)
            && block.Some? && block.value.ToolBlock? && block.value.id == start.id && block.value.name == start.name
            && block.value.arguments == (if from.Some? then parse(from.value) else Empty)
            && (from.Some? <==> HasDelta(rest))
            && (Forgotten(rest) == None <==> EndsLast(rest))
            && match Forgotten(rest)
               case None => HasDelta(rest) ==> from.value == Deltas(rest)
               case Some(lost) =>
                 && lost <= Deltas(rest) && from == Some("undefined" + Deltas(rest)[|lost|..])
                 && (from.value == Deltas(rest) <==> lost == "undefined")
  {
    hide Rebuilt, BlockFold, Deltas, Own, ParsedFrom, EndsLast, HasDelta;
    SinceTheLastStart(parse, p, es, i, before, start, rest);
    ToolGrows(parse, ToolBlock(start.id, start.name, Empty, Some("")), None, rest);
    ForgottenUnlessEndsLast(rest);
    ParsedExactly(Some(""), None, rest);
    if Forgotten(rest).Some? {
      SameTail(Forgotten(rest).value, Deltas(rest));
    }
  }

  lemma SameTail(lost: string, all: string)
    requires lost <= all
    ensures "undefined" + all[|lost|..] == all <==> lost == "undefined"
  {
    var tail := all[|lost|..];
    assert lost + tail == all;
    assert |"undefined" + tail| == |"undefined"| + |tail|;
    if "undefined" + tail == all {
      assert all[..|lost|] == lost && ("undefined" + tail)[..9] == "undefined";
    }
  }

  /** Such a script: the call loses what it had, and the new text starts with `undefined`. */
  lemma DeltaAfterEnd(parse: Lenient, p: Partial)
    ensures var es := [ToolcallStart(0, "a", "b"), ToolcallDelta(0, "{}"), ToolcallEnd(0), ToolcallDelta(0, " ")];
            var r := Rebuilt(parse, p, es);
            r.Some? && At(r.value.content, 0) == Some(ToolBlock("a", "b", parse("undefined" + " "), Some("undefined" + " ")))
  {
    hide Process;
    var e1, e2, e3, e4 := ToolcallStart(0, "a", "b"), ToolcallDelta(0, "{}"), ToolcallEnd(0), ToolcallDelta(0, " ");
    var p1 := AfterOne(parse, p, e1, Some(ToolBlock("a", "b", Empty, Some(""))));
    var p2 := AfterOne(parse, p1, e2, Some(ToolBlock("a", "b", parse("" + "{}"), Some("" + "{}"))));
    var p3 := AfterOne(parse, p2, e3, Some(ToolBlock("a", "b", parse("" + "{}"), None)));
    var p4 := AfterOne(parse, p3, e4, Some(ToolBlock("a", "b", parse("undefined" + " "), Some("undefined" + " "))));
    assert Rebuilt(parse, p4, []) == Some(p4);
    Onwards(parse, p3, e4, []);
    assert [e3] + [e4] == [e3, e4] && [e2] + [e3, e4] == [e2, e3, e4] && [e1] + [e2, e3, e4] == [e1, e2, e3, e4];
    Onwards(parse, p2, e3, [e4]);
    Onwards(parse, p1, e2, [e3, e4]);
    Onwards(parse, p, e1, [e2, e3, e4]);
  }

  lemma AfterOne(parse: Lenient, p: Partial, e: ProxyEvent, block: Option<Block>) returns (q: Partial)
    requires Indexed(e) && Fits(e, KindOf(At(p.content, e.index))) && block.Some? && BlockStep(parse, At(p.content, e.index), e) == block
    ensures Process(parse, p, e).Next? && q == Process(parse, p, e).partial && At(q.content, e.index) == block
  {
    q := Process(parse, p, e).partial;
  }

  lemma Onwards(parse: Lenient, p: Partial, e: ProxyEvent, es: seq<ProxyEvent>)
    requires Process(parse, p, e).Next?
    ensures Rebuilt(parse, p, [e] + es) == Rebuilt(parse, Process(parse, p, e).partial, es)
  {
    assert ([e] + es)[1..] == es;
  }
}
