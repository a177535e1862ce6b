/** How far the LaTeX parser reads: it stops at the first brace that closes
    nothing and is not itself taken as an argument or a delimiter, and so does
    every parser that it starts on the inside of an optional bracket. */
module LatexReading {
  import opened Messages
  import opened Latex

  const CLOSE: char := '}'

  // ----- Reading without rendering

  /** What is still to be read, the next first. */
  datatype Want =
    | Items(textMode: bool)
    | Closing
    | AnArgument(textMode: bool)
    | AnAtom(textMode: bool)
    | ADelimiter(textMode: bool)
    | ABracket

  /** A token has been read up to `pos`, and wants this much behind it. */
  datatype Token = Token(pos: nat, wants: seq<Want>)

  function Wants(command: Command, textMode: bool): (ws: seq<Want>) {
    match command
    case Fixed(_) => []
    case Delimited => [ADelimiter(textMode)]
    case TextMode => [AnArgument(true)]
    case Frac => [AnArgument(textMode), AnArgument(textMode)]
    case Binom => [AnArgument(textMode), AnArgument(textMode)]
    case Overset => [AnArgument(textMode), AnArgument(textMode)]
    case Underset => [AnArgument(textMode), AnArgument(textMode)]
    case Sqrt => [ABracket, AnArgument(textMode)]
    case Not => [AnAtom(textMode)]
    case _ => [AnArgument(textMode)]
  }

  /** An opening brace, a command with its name, or any single character. */
  function TokenAt(t: Tables, src: string, p: nat, textMode: bool): (n: Token)
    requires p < |src|
    ensures p < n.pos <= |src|
  {
    if src[p] == '{' then Token(p + 1, [Items(textMode), Closing])
    else if src[p] != '\\' || p + 1 == |src| then Token(p + 1, [])
    else if !Letter(src[p + 1]) then Token(p + 2, [])
    else
      var e := NameEnd(src, p + 1);
      Token(if At(src, e, '*') then e + 1 else e, Wants(Lookup(t, src[p + 1..e]), textMode))
  }

  /** Where a pass over tokens stops, and the insides of the optional brackets on its way. */
  datatype Reach = Reach(end: nat, nested: seq<string>)

  function Joined(nested: seq<string>, r: Reach): (j: Reach) {
    Reach(r.end, nested + r.nested)
  }

  /** One pass from left to right over tokens, with a stack of what is wanted. */
  function Scan(t: Tables, src: string, p: nat, wants: seq<Want>): (r: Reach)
    requires p <= |src|
    ensures p <= r.end <= |src|
    ensures forall s <- r.nested :: |s| < |src|
    decreases |src| - p, |wants|
  {
    if wants == [] then Reach(p, [])
    else
      var rest := wants[1..];
      match wants[0]
      case Items(m) =>
        if p == |src| || src[p] == '}' then Scan(t, src, p, rest)
        else if (src[p] == '^' || src[p] == '_') && !m then Scan(t, src, p + 1, [AnArgument(m)] + wants)
        else if src[p] == '&' then Scan(t, src, p + 1, wants)
        else Scan(t, src, TokenAt(t, src, p, m).pos, TokenAt(t, src, p, m).wants + wants)
      case Closing => Scan(t, src, if At(src, p, '}') then p + 1 else p, rest)
      case AnArgument(m) =>
        var q := SkipSpace(t, src, p);
        if q == |src| then Scan(t, src, q, rest)
        else Scan(t, src, TokenAt(t, src, q, m).pos, TokenAt(t, src, q, m).wants + rest)
      case AnAtom(m) =>
        if p == |src| then Scan(t, src, p, rest)
        else Scan(t, src, TokenAt(t, src, p, m).pos, TokenAt(t, src, p, m).wants + rest)
      case ADelimiter(m) =>
        var q := SkipSpace(t, src, p);
        if q == |src| then Scan(t, src, q, rest)
        else if src[q] != '\\' then Scan(t, src, q + 1, rest)
        else Scan(t, src, TokenAt(t, src, q, m).pos, TokenAt(t, src, q, m).wants + rest)
      case ABracket =>
        match (if At(src, p, '[') then IndexOf(src, p + 1) else None)
        case None => Scan(t, src, p, rest)
        case Some(end) => Joined([src[p + 1..end]], Scan(t, src, end + 1, rest))
  }

  /** Nothing of a source is left unread: the pass over its tokens meets no
      closing brace when nothing is wanted but further items, and neither does
      the pass over the inside of any optional bracket on its way. */
  predicate ReadWhole(t: Tables, src: string)
    decreases |src|
  {
    var r := Scan(t, src, 0, [Items(false)]);
    r.end == |src| && forall s <- r.nested :: ReadWhole(t, s)
  }

  // ----- The parser reads just so far

  /** What the parser does to read one wanted thing. */
  function EndOf(t: Tables, src: string, p: nat, want: Want): (r: Reach)
    requires p <= |src|
    ensures p <= r.end <= |src|
  {
    match want
    case Items(m) => Of(Sequence(t, src, p, m, "", []))
    case Closing => Reach(if At(src, p, '}') then p + 1 else p, [])
    case AnArgument(m) => Of(Argument(t, src, p, m))
    case AnAtom(m) => Of(Atom(t, src, p, m))
    case ADelimiter(m) => Of(Delimiter(t, src, p, m))
    case ABracket =>
      match OptionalBracket(t, src, p)
      case None => Reach(p, [])
      case Some(out) => Of(out)
  }

  function Of(out: Out): (r: Reach) {
    Reach(out.pos, out.nested)
  }

  function EndsOf(t: Tables, src: string, p: nat, wants: seq<Want>): (r: Reach)
    requires p <= |src|
    ensures p <= r.end <= |src|
    decreases |wants|
  {
    if wants == [] then Reach(p, [])
    else
      var first := EndOf(t, src, p, wants[0]);
      Joined(first.nested, EndsOf(t, src, first.end, wants[1..]))
  }

  lemma JoinedTwice(a: seq<string>, b: seq<string>, r: Reach)
    ensures Joined(a, Joined(b, r)) == Joined(a + b, r) && Joined([], r) == r
  {
    assert a + (b + r.nested) == (a + b) + r.nested;
  }

  lemma {:induction false} EndsAppend(t: Tables, src: string, p: nat, a: seq<Want>, b: seq<Want>)
    requires p <= |src|
    ensures var first := EndsOf(t, src, p, a);
            EndsOf(t, src, p, a + b) == Joined(first.nested, EndsOf(t, src, first.end, b))
    decreases |a|
  {
    hide EndOf, Joined;
    if a == [] {
      assert a + b == b;
      NoEnds(t, src, p);
      JoinedTwice([], [], EndsOf(t, src, p, b));
    } else {
      assert (a + b)[1..] == a[1..] + b && (a + b)[0] == a[0];
      var one := EndOf(t, src, p, a[0]);
      EndsAppend(t, src, one.end, a[1..], b);
      var more := EndsOf(t, src, one.end, a[1..]);
      FirstEnd(t, src, p, a + b);
      FirstEnd(t, src, p, a);
      JoinedTwice(one.nested, more.nested, EndsOf(t, src, more.end, b));
      JoinedIs(one.nested, more);
    }
  }

  lemma JoinedIs(a: seq<string>, r: Reach)
    ensures Joined(a, r).end == r.end && Joined(a, r).nested == a + r.nested
  {
  }

  lemma EndsOne(t: Tables, src: string, p: nat, want: Want)
    requires p <= |src|
    ensures EndsOf(t, src, p, [want]) == EndOf(t, src, p, want)
  {
    hide EndOf;
    var wants, r := [want], EndOf(t, src, p, want);
    assert wants[1..] == [] && r.nested + [] == r.nested;
  }

  lemma EndsTwo(t: Tables, src: string, p: nat, one: Want, two: Want)
    requires p <= |src|
    ensures var first := EndOf(t, src, p, one);
            EndsOf(t, src, p, [one, two]) == Joined(first.nested, EndOf(t, src, first.end, two))
  {
    hide EndOf;
    var wants := [one, two];
    assert wants[1..] == [two];
    EndsOne(t, src, EndOf(t, src, p, one).end, two);
  }

  /** What a sequence reads does not depend on what was rendered before. */
  lemma {:induction false} SequenceEnd(t: Tables, src: string, p: nat, textMode: bool, a: string, b: string, m: seq<string>, n: seq<string>)
    requires p <= |src|
    ensures Of(Sequence(t, src, p, textMode, a, m + n)) == Joined(m, Of(Sequence(t, src, p, textMode, b, n)))
    decreases |src| - p
  {
    hide Script, Atom, EndsInSpace;
    if p < |src| && src[p] != '}' {
      if (src[p] == '^' || src[p] == '_') && !textMode {
        var s := Script(t, src, p + 1, textMode, src[p]);
        SequenceEnd(t, src, s.pos, textMode, a + s.text, b + s.text, m, n + s.nested);
        assert (m + n) + s.nested == m + (n + s.nested);
      } else if src[p] == '&' {
        SequenceEnd(t, src, p + 1, textMode, if EndsInSpace(t, a) then a else a + " ", if EndsInSpace(t, b) then b else b + " ", m, n);
      } else {
        var s := Atom(t, src, p, textMode);
        SequenceEnd(t, src, s.pos, textMode, a + s.text, b + s.text, m, n + s.nested);
        assert (m + n) + s.nested == m + (n + s.nested);
      }
    }
  }

  lemma CommandEnds(t: Tables, src: string, p: nat, textMode: bool, command: Command)
    requires p <= |src|
    ensures Of(Rendered(t, src, p, textMode, command)) == EndsOf(t, src, p, Wants(command, textMode))
  {
    hide Argument, Atom, Delimiter, OptionalBracket, EndsOf, Accented, Fraction, Root, Stacked;
    var ws := Wants(command, textMode);
    if |ws| == 1 {
      EndsOne(t, src, p, ws[0]);
      assert ws == [ws[0]];
    } else if |ws| == 2 {
      EndsTwo(t, src, p, ws[0], ws[1]);
      assert ws == [ws[0], ws[1]];
    } else {
      assert ws == [];
      NoEnds(t, src, p);
    }
  }

  lemma NoEnds(t: Tables, src: string, p: nat)
    requires p <= |src|
    ensures EndsOf(t, src, p, []) == Reach(p, [])
  {
  }

  /** An atom is a token and all that the token wants. */
  lemma AtomEnds(t: Tables, src: string, p: nat, textMode: bool)
    requires p < |src|
    ensures var n := TokenAt(t, src, p, textMode); Of(Atom(t, src, p, textMode)) == EndsOf(t, src, n.pos, n.wants)
  {
    hide Sequence, Rendered, Lookup, Wants, EndsOf;
    var n := TokenAt(t, src, p, textMode);
    NoEnds(t, src, n.pos);
    if src[p] == '{' {
      EndsTwo(t, src, p + 1, Items(textMode), Closing);
    } else if src[p] == '\\' && p + 1 < |src| && Letter(src[p + 1]) {
      CommandEnds(t, src, n.pos, textMode, Lookup(t, src[p + 1..NameEnd(src, p + 1)]));
    }
  }

  /** The pass over tokens stops just where the parser does, and meets the
      same insides of brackets, whatever the source. */
  lemma {:induction false} ScanIsTheParser(t: Tables, src: string, p: nat, wants: seq<Want>)
    requires p <= |src|
    ensures Scan(t, src, p, wants) == EndsOf(t, src, p, wants)
    decreases |src| - p, |wants|, 1
  {
    hide Scan, EndsOf;
    if wants == [] {
      NothingWanted(t, src, p);
    } else if wants[0].Items? {
      ScanItems(t, src, p, wants);
    } else if wants[0].Closing? || wants[0].ABracket? {
      ScanPast(t, src, p, wants);
    } else {
      ScanOne(t, src, p, wants);
    }
  }

  lemma NothingWanted(t: Tables, src: string, p: nat)
    requires p <= |src|
    ensures Scan(t, src, p, []) == EndsOf(t, src, p, []) == Reach(p, [])
  {
  }

  lemma {:induction false} ScanItems(t: Tables, src: string, p: nat, wants: seq<Want>)
    requires p <= |src| && wants != [] && wants[0].Items?
    ensures Scan(t, src, p, wants) == EndsOf(t, src, p, wants)
    decreases |src| - p, |wants|, 0
  {
    hide Sequence, Argument, Atom, Delimiter, OptionalBracket, TokenAt, SkipSpace, EndsOf, EndOf, Joined;
    var m, rest := wants[0].textMode, wants[1..];
    assert wants == [Items(m)] + rest;
    FirstEnd(t, src, p, wants);
    if p == |src| || src[p] == '}' {
      ItemsEnd(t, src, p, m);
      ScanIsTheParser(t, src, p, rest);
      JoinedTwice([], [], EndsOf(t, src, p, rest));
    } else if (src[p] == '^' || src[p] == '_') && !m {
      ScanIsTheParser(t, src, p + 1, [AnArgument(m)] + wants);
      ItemsAfter(t, src, p, p + 1, [AnArgument(m)], wants);
    } else if src[p] == '&' {
      ScanIsTheParser(t, src, p + 1, wants);
      ItemsAfter(t, src, p, p + 1, [], wants);
      assert [] + wants == wants;
    } else {
      var n := TokenAt(t, src, p, m);
      ScanIsTheParser(t, src, n.pos, n.wants + wants);
      ItemsAfter(t, src, p, n.pos, n.wants, wants);
    }
  }

  lemma {:induction false} ScanPast(t: Tables, src: string, p: nat, wants: seq<Want>)
    requires p <= |src| && wants != [] && (wants[0].Closing? || wants[0].ABracket?)
    ensures Scan(t, src, p, wants) == EndsOf(t, src, p, wants)
    decreases |src| - p, |wants|, 0
  {
    hide Sequence, Argument, Atom, Delimiter, OptionalBracket, TokenAt, SkipSpace, EndsOf, EndOf, Joined;
    var rest := wants[1..];
    FirstEnd(t, src, p, wants);
    if wants[0].Closing? {
      ClosingEnd(t, src, p);
    } else {
      BracketIs(t, src, p);
    }
    var first := EndOf(t, src, p, wants[0]);
    ScanIsTheParser(t, src, first.end, rest);
    JoinedTwice([], [], EndsOf(t, src, first.end, rest));
  }

  lemma {:induction false} ScanOne(t: Tables, src: string, p: nat, wants: seq<Want>)
    requires p <= |src| && wants != [] && (wants[0].AnArgument? || wants[0].AnAtom? || wants[0].ADelimiter?)
    ensures Scan(t, src, p, wants) == EndsOf(t, src, p, wants)
    decreases |src| - p, |wants|, 0
  {
    hide Sequence, Argument, Atom, Delimiter, OptionalBracket, TokenAt, SkipSpace, EndsOf, EndOf, Joined;
    var m, rest := wants[0].textMode, wants[1..];
    FirstEnd(t, src, p, wants);
    var q := if wants[0].AnAtom? then p else SkipSpace(t, src, p);
    match wants[0] {
      case AnArgument(_) => ArgumentIs(t, src, p, m);
      case AnAtom(_) => AtomIs(t, src, p, m);
      case ADelimiter(_) => DelimiterIs(t, src, p, m);
    }
    if q < |src| && !(wants[0].ADelimiter? && src[q] != '\\') {
      ScanToken(t, src, q, m, rest);
    } else {
      var end := if q < |src| then q + 1 else q;
      ScanIsTheParser(t, src, end, rest);
      JoinedTwice([], [], EndsOf(t, src, end, rest));
    }
  }

  lemma {:induction false} ScanToken(t: Tables, src: string, q: nat, m: bool, rest: seq<Want>)
    requires q < |src|
    ensures var n, atom := TokenAt(t, src, q, m), Of(Atom(t, src, q, m));
            Scan(t, src, n.pos, n.wants + rest) == Joined(atom.nested, EndsOf(t, src, atom.end, rest))
    decreases |src| - q, 0, 0
  {
    hide Atom, TokenAt, Scan, EndsOf;
    var n := TokenAt(t, src, q, m);
    ScanIsTheParser(t, src, n.pos, n.wants + rest);
    EndsAppend(t, src, n.pos, n.wants, rest);
    AtomEnds(t, src, q, m);
  }

  lemma ItemsEnd(t: Tables, src: string, p: nat, m: bool)
    requires p <= |src|
    ensures p == |src| || src[p] == '}' ==> EndOf(t, src, p, Items(m)) == Reach(p, [])
  {
  }

  lemma ClosingEnd(t: Tables, src: string, p: nat)
    requires p <= |src|
    ensures EndOf(t, src, p, Closing) == Reach(if At(src, p, '}') then p + 1 else p, [])
  {
  }

  lemma AtomIs(t: Tables, src: string, p: nat, m: bool)
    requires p <= |src|
    ensures EndOf(t, src, p, AnAtom(m)) == if p == |src| then Reach(p, []) else Of(Atom(t, src, p, m))
  {
    hide Group, CommandAt;
  }

  lemma ArgumentIs(t: Tables, src: string, p: nat, m: bool)
    requires p <= |src|
    ensures var q := SkipSpace(t, src, p);
            EndOf(t, src, p, AnArgument(m)) == if q == |src| then Reach(q, []) else Of(Atom(t, src, q, m))
  {
    hide Group, CommandAt, SkipSpace;
    var q := SkipSpace(t, src, p);
    assert Atom(t, src, q, m) == if q == |src| then Out("", q, []) else Argument(t, src, p, m);
  }

  lemma DelimiterIs(t: Tables, src: string, p: nat, m: bool)
    requires p <= |src|
    ensures var q := SkipSpace(t, src, p);
            EndOf(t, src, p, ADelimiter(m)) ==
            if q == |src| then Reach(q, []) else if src[q] == '\\' then Of(Atom(t, src, q, m)) else Reach(q + 1, [])
  {
    hide Group, CommandAt, SkipSpace;
  }

  lemma BracketIs(t: Tables, src: string, p: nat)
    requires p <= |src|
    ensures EndOf(t, src, p, ABracket) ==
            match (if At(src, p, '[') then IndexOf(src, p + 1) else None)
            case None => Reach(p, [])
            case Some(end) => Reach(end + 1, [src[p + 1..end]])
  {
    hide Sequence;
  }

  /** An item is read, and then the rest of the sequence. */
  lemma ItemsAfter(t: Tables, src: string, p: nat, q: nat, first: seq<Want>, wants: seq<Want>)
    requires p < |src| && src[p] != '}' && wants != [] && wants[0].Items? && p < q <= |src|
    requires var m := wants[0].textMode;
             if (src[p] == '^' || src[p] == '_') && !m then q == p + 1 && first == [AnArgument(m)]
             else if src[p] == '&' then q == p + 1 && first == []
             else Token(q, first) == TokenAt(t, src, p, m)
    ensures EndsOf(t, src, q, first + wants) == EndsOf(t, src, p, wants)
  {
    hide Atom, Argument, TokenAt, EndsOf, EndOf, Joined;
    var m := wants[0].textMode;
    EndsAppend(t, src, q, first, wants);
    if (src[p] == '^' || src[p] == '_') && !m {
      EndsOne(t, src, q, AnArgument(m));
    } else if src[p] == '&' {
      NoEnds(t, src, q);
    } else {
      AtomEnds(t, src, p, m);
    }
    var next := EndsOf(t, src, q, first);
    SequenceStep(t, src, p, m, next);
    FirstEnd(t, src, next.end, wants);
    FirstEnd(t, src, p, wants);
    var items := EndOf(t, src, next.end, Items(m));
    JoinedIs(next.nested, items);
    JoinedTwice(next.nested, items.nested, EndsOf(t, src, items.end, wants[1..]));
  }

  lemma FirstEnd(t: Tables, src: string, p: nat, wants: seq<Want>)
    requires p <= |src| && wants != []
    ensures var first := EndOf(t, src, p, wants[0]);
            EndsOf(t, src, p, wants) == Joined(first.nested, EndsOf(t, src, first.end, wants[1..]))
  {
    hide EndOf;
  }

  lemma SequenceStep(t: Tables, src: string, p: nat, m: bool, next: Reach)
    requires p < |src| && src[p] != '}'
    requires next == if (src[p] == '^' || src[p] == '_') && !m then EndOf(t, src, p + 1, AnArgument(m))
                     else if src[p] == '&' then Reach(p + 1, [])
                     else Of(Atom(t, src, p, m))
    ensures EndOf(t, src, p, Items(m)) == Joined(next.nested, EndOf(t, src, next.end, Items(m)))
  {
    hide Argument, Atom, Scripted;
    assert [] + next.nested == next.nested == next.nested + [];
    if (src[p] == '^' || src[p] == '_') && !m {
      var s := Script(t, src, p + 1, m, src[p]);
      SequenceEnd(t, src, s.pos, m, "" + s.text, "", next.nested, []);
    } else if src[p] == '&' {
      SequenceEnd(t, src, p + 1, m, if EndsInSpace(t, "") then "" else "" + " ", "", [], []);
    } else {
      var a := Atom(t, src, p, m);
      SequenceEnd(t, src, a.pos, m, "" + a.text, "", next.nested, []);
    }
  }

  /** For every source the parser stops just where the pass over its tokens
      does, at the end or at a closing brace, and starts parsers of its own on
      just the insides of brackets that the pass meets. */
  lemma ReadsUpToTheStrayBrace(t: Tables, src: string)
    ensures Of(Parse(t, src)) == Scan(t, src, 0, [Items(false)])
    ensures Parse(t, src).pos < |src| ==> src[Parse(t, src).pos] == '}'
  {
    ScanIsTheParser(t, src, 0, [Items(false)]);
    EndsOne(t, src, 0, Items(false));
  }

  /** The parser reaches the end of its source, and so does every parser that it
      starts, and every one that those start. */
  predicate AllRead(t: Tables, src: string)
    decreases |src|
  {
    ReadsUpToTheStrayBrace(t, src);
    var out := Parse(t, src);
    out.pos == |src| && forall s <- out.nested :: AllRead(t, s)
  }

  /** Nothing of a source is left out of the result just when the passes over
      tokens, of the source and of the insides of its brackets, meet no stray brace. */
  lemma {:induction false} AllReadExactly(t: Tables, src: string)
    ensures AllRead(t, src) <==> ReadWhole(t, src)
    decreases |src|
  {
    hide Scan, Parse;
    ReadsUpToTheStrayBrace(t, src);
    forall s <- Parse(t, src).nested ensures AllRead(t, s) <==> ReadWhole(t, s) {
      AllReadExactly(t, s);
    }
  }

  /** Such a source: the pass over it reaches the end, the parser on the inside
      of its bracket does not, and what it leaves is nowhere in the result. */
  lemma BracketDropsText(t: Tables)
    requires Lookup(t, "sqrt") == Sqrt && !t.space('x')
    ensures Parse(t, "\\sqrt[a}b]x") == Out(Root(t, Some("a"), "x"), 11, ["a}b"])
    ensures Parse(t, "\\sqrt[a}b]x").text == Parse(t, "\\sqrt[a]x").text
    ensures !AllRead(t, "\\sqrt[a}b]x")
  {
    SqrtOf(t, "a}b");
    SqrtOf(t, "a");
    assert "" + "a" == "a";
    assert Parse(t, "a}b") == Out("a", 1, []);
    assert Parse(t, "a") == Out("a", 1, []);
    assert "\\sqrt[" + "a}b" + "]x" == "\\sqrt[a}b]x" && "\\sqrt[" + "a" + "]x" == "\\sqrt[a]x";
    var out := Parse(t, "\\sqrt[a}b]x");
    assert "a}b" in out.nested && !AllRead(t, "a}b");
  }

  /** A root whose index is any text without a closing bracket. */
  lemma SqrtOf(t: Tables, index: string)
    requires Lookup(t, "sqrt") == Sqrt && !t.space('x') && ']' !in index
    ensures Parse(t, "\\sqrt[" + index + "]x") == Out(Root(t, Some(Parse(t, index).text), "x"), |index| + 8, [index])
  {
    hide Root;
    var src := "\\sqrt[" + index + "]x";
    var n := |index|;
    assert src[0] == '\\' && src[1] == 's' && src[2] == 'q' && src[3] == 'r' && src[4] == 't' && src[5] == '[';
    NameEndsAt(src, 1, 5);
    assert src[1..5] == "sqrt";
    FirstBracket(src, 6, n + 6);
    assert src[6..n + 6] == index;
    assert SkipSpace(t, src, n + 7) == n + 7;
    assert Argument(t, src, n + 7, false) == Out("x", n + 8, []);
    var root := Root(t, Some(Parse(t, index).text), "x");
    assert OptionalBracket(t, src, 5) == Some(Out(Parse(t, index).text, n + 7, [index]));
    assert [index] + [] == [index];
    assert Rendered(t, src, 5, false, Sqrt) == Out(root, n + 8, [index]);
    assert CommandAt(t, src, 0, false) == Out(root, n + 8, [index]);
    OneCommand(t, src, Out(root, n + 8, [index]));
  }

  /** A source that is one command, to its end. */
  lemma OneCommand(t: Tables, src: string, out: Out)
    requires At(src, 0, '\\') && CommandAt(t, src, 0, false) == out && out.pos == |src|
    ensures Parse(t, src) == out
  {
    hide CommandAt, Group;
    assert Atom(t, src, 0, false) == out;
    assert "" + out.text == out.text && [] + out.nested == out.nested;
    assert Sequence(t, src, |src|, false, out.text, out.nested) == out;
  }

  lemma {:induction false} NameEndsAt(src: string, p: nat, e: nat)
    requires p <= e < |src| && !Letter(src[e]) && forall k | p <= k < e :: Letter(src[k])
    ensures NameEnd(src, p) == e
    decreases e - p
  {
    if p < e {
      NameEndsAt(src, p + 1, e);
    }
  }

  lemma {:induction false} FirstBracket(src: string, p: nat, e: nat)
    requires p <= e < |src| && src[e] == ']' && forall k | p <= k < e :: src[k] != ']'
    ensures IndexOf(src, p) == Some(e)
    decreases e - p
  {
    if p < e {
      FirstBracket(src, p + 1, e);
    }
  }

  // ----- Sources without commands: counting braces

  /** A script operator waits for its argument at `i`: only white space since. */
  predicate Armed(t: Tables, src: string, i: nat)
    requires i <= |src|
  {
    i > 0 && var c := src[i - 1]; if Armed(t, src, i - 1) then t.space(c) else c == '^' || c == '_'
  }

  /** Opening braces minus closing ones before `i`, not counting those that a
      script operator takes as its argument. */
  function Depth(t: Tables, src: string, i: nat): (d: int)
    requires i <= |src|
  {
    if i == 0 then 0
    else
      var c, before := src[i - 1], Depth(t, src, i - 1);
      if Armed(t, src, i - 1) && t.space(c) then before
      else if c == '{' then before + 1
      else if c == '}' && !Armed(t, src, i - 1) then before - 1
      else before
  }

  /** Groups open `d` deep, in math mode. */
  function Nest(d: nat): (ws: seq<Want>)
    ensures ws != [] && ws[0] == Items(false)
  {
    if d == 0 then [Items(false)] else [Items(false), Closing] + Nest(d - 1)
  }

  function Open(t: Tables, src: string, p: nat, d: nat): (ws: seq<Want>)
    requires p <= |src|
  {
    if Armed(t, src, p) then [AnArgument(false)] + Nest(d) else Nest(d)
  }

  lemma {:induction false} ScanAtEnd(t: Tables, src: string, wants: seq<Want>)
    ensures Scan(t, src, |src|, wants) == Reach(|src|, [])
    decreases |wants|
  {
    if wants != [] {
      ScanAtEnd(t, src, wants[1..]);
    }
  }

  /** One character of a source without commands. */
  lemma NestStep(t: Tables, src: string, p: nat, d: nat)
    requires p < |src| && src[p] != '\\' && d == Depth(t, src, p)
    ensures var d' := Depth(t, src, p + 1);
            Scan(t, src, p, Open(t, src, p, d)) == if d' < 0 then Reach(p, []) else Scan(t, src, p + 1, Open(t, src, p + 1, d'))
  {
    hide SkipSpace, Scan, Nest, TokenAt;
    if Armed(t, src, p) {
      if t.space(src[p]) {
        ArgumentLater(t, src, p, Nest(d));
      } else {
        ArgumentNow(t, src, p, d);
      }
    } else if src[p] == '}' {
      CloseNest(t, src, p, d);
    } else {
      ItemNow(t, src, p, d);
    }
  }

  lemma ArgumentNow(t: Tables, src: string, p: nat, d: nat)
    requires p < |src| && src[p] != '\\' && !t.space(src[p])
    ensures Scan(t, src, p, [AnArgument(false)] + Nest(d)) == Scan(t, src, p + 1, if src[p] == '{' then Nest(d + 1) else Nest(d))
  {
    hide SkipSpace;
    SpaceStep(t, src, p);
    var here := [AnArgument(false)] + Nest(d);
    assert here[1..] == Nest(d) && [] + Nest(d) == Nest(d);
  }

  lemma ItemNow(t: Tables, src: string, p: nat, d: nat)
    requires p < |src| && src[p] != '\\' && src[p] != '}'
    ensures Scan(t, src, p, Nest(d)) ==
            Scan(t, src, p + 1, if src[p] == '^' || src[p] == '_' then [AnArgument(false)] + Nest(d)
                                else if src[p] == '{' then Nest(d + 1) else Nest(d))
  {
    assert [] + Nest(d) == Nest(d);
  }

  lemma SpaceStep(t: Tables, src: string, p: nat)
    requires p < |src|
    ensures SkipSpace(t, src, p) == if t.space(src[p]) then SkipSpace(t, src, p + 1) else p
  {
  }

  lemma ArgumentLater(t: Tables, src: string, p: nat, rest: seq<Want>)
    requires p < |src| && t.space(src[p])
    ensures Scan(t, src, p, [AnArgument(false)] + rest) == Scan(t, src, p + 1, [AnArgument(false)] + rest)
  {
    hide SkipSpace, TokenAt;
    SpaceStep(t, src, p);
    assert ([AnArgument(false)] + rest)[1..] == rest;
  }

  lemma CloseNest(t: Tables, src: string, p: nat, d: nat)
    requires At(src, p, '}')
    ensures Scan(t, src, p, Nest(d)) == if d == 0 then Reach(p, []) else Scan(t, src, p + 1, Nest(d - 1))
  {
    if d == 0 {
      assert Nest(0)[1..] == [];
    } else {
      assert Nest(d)[1..] == [Closing] + Nest(d - 1) && ([Closing] + Nest(d - 1))[1..] == Nest(d - 1);
    }
  }

  /** Without commands, rendering stops just in front of the first prefix that closes more than it opened. */
  lemma {:induction false} ScanCounts(t: Tables, src: string, p: nat, d: nat)
    requires p <= |src| && d == Depth(t, src, p) && forall k | p <= k < |src| :: src[k] != '\\'
    ensures Scan(t, src, p, Open(t, src, p, d)).nested == []
    ensures var end := Scan(t, src, p, Open(t, src, p, d)).end;
            && (forall i | p <= i <= end :: Depth(t, src, i) >= 0)
            && (end < |src| ==> Depth(t, src, end + 1) < 0)
    decreases |src| - p
  {
    hide Scan, Open, Depth;
    if p == |src| {
      ScanAtEnd(t, src, Open(t, src, p, d));
    } else {
      NestStep(t, src, p, d);
      if Depth(t, src, p + 1) >= 0 {
        ScanCounts(t, src, p + 1, Depth(t, src, p + 1));
      }
    }
  }

  /** Nothing of a source without commands is left out just when no prefix of it
      closes more than it opens, braces taken by script operators aside. */
  lemma BracesDecide(t: Tables, src: string)
    requires '\\' !in src
    ensures AllRead(t, src) <==> forall i | 0 <= i <= |src| :: Depth(t, src, i) >= 0
    ensures var end := Parse(t, src).pos; end < |src| ==> Depth(t, src, end) == 0 && !Armed(t, src, end) && src[end] == '}'
  {
    hide Scan, Sequence;
    ReadsUpToTheStrayBrace(t, src);
    ScanCounts(t, src, 0, 0);
    assert Open(t, src, 0, 0) == [Items(false)];
  }

  function Count(c: char, s: string): (n: nat) {
    if s == "" then 0 else Count(c, s[..|s| - 1]) + if s[|s| - 1] == c then 1 else 0
  }

  /** Without scripts either, that is plain counting. */
  lemma {:induction false} DepthCounts(t: Tables, src: string, i: nat)
    requires i <= |src| && '^' !in src && '_' !in src
    ensures !Armed(t, src, i) && Depth(t, src, i) == Count('{', src[..i]) - Count('}', src[..i])
    decreases i
  {
    if i > 0 {
      DepthCounts(t, src, i - 1);
      assert src[..i][..i - 1] == src[..i - 1];
      assert src[i - 1] in src;
    }
  }

  /** A script operator takes a closing brace as its argument, so that nothing of this source is left out. */
  lemma CaretTakesTheBrace(t: Tables)
    requires !t.space(CLOSE)
    ensures Parse(t, "x^}y") == Out("x" + Scripted(t, "}", t.superscripts, '^') + "y", 4, [])
  {
    hide Scripted;
    var src := "x^}y";
    assert SkipSpace(t, src, 2) == 2;
    assert Argument(t, src, 2, false) == Out("}", 3, []);
    assert "" + "x" == "x";
  }

  /** So does a command for a delimiter. */
  lemma LeftTakesTheBrace(t: Tables)
    requires !t.space(CLOSE) && Lookup(t, "left") == Delimited
    ensures Parse(t, "\\left}y") == Out("}y", 7, [])
  {
    hide Argument, Script, OptionalBracket, Accented, Fraction, Root, Stacked;
    var src := "\\left}y";
    assert NameEnd(src, 1) == 5 && src[1..5] == "left";
    assert SkipSpace(t, src, 5) == 5;
    assert Atom(t, src, 0, false) == Out("}", 6, []);
    assert "" + "}" == "}";
  }
}
