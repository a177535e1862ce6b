/** Rendering LaTeX source as plain text: the parser, over symbol tables kept abstract. */
module Latex {
  import opened Messages

  /** The tables and character classes. A look-up that finds nothing gives `None`. */
  datatype Tables = Tables(
    symbols: string -> Option<string>, operators: string -> bool, spacing: string -> Option<string>, ignored: string -> bool,
    textCommands: string -> bool, fonts: string -> bool, alphabets: string -> Option<string -> string>,
    accents: string -> Option<string>, escapes: char -> Option<string>, fractions: string -> Option<string>,
    superscripts: string -> Option<string>, subscripts: string -> Option<string>,
    space: char -> bool, points: string -> seq<string>, wordLike: string -> bool)

  /** What was rendered, where reading goes on, and the sources that parsers of their own were started on. */
  datatype Out = Out(text: string, pos: nat, nested: seq<string>)

  predicate Letter(c: char) {
    'a' <= c <= 'z' || 'A' <= c <= 'Z'
  }

  // ----- Scripts and operands

  /** Every code point through the table, or nothing when one of them is missing there. */
  function Mapped(points: seq<string>, table: string -> Option<string>): (r: Option<string>) {
    if points == [] then Some("")
    else
      var n := |points| - 1;
      var before, last := Mapped(points[..n], table), table(points[n]);
      if before.None? || last.None? then None else Some(before.value + last.value)
  }

  method MapScript(t: Tables, text: string, table: string -> Option<string>) returns (result: Option<string>)
    ensures result == Mapped(t.points(text), table)
  {
    var points, done := t.points(text), "";
    for i := 0 to |points|
      invariant Mapped(points[..i], table) == Some(done)
    {
      assert points[..i + 1][..i] == points[..i];
      var mapped := table(points[i]);
      if mapped.None? {
        MissingStays(points, table, i + 1);
        return None;
      }
      done := done + mapped.value;
    }
    assert points[..|points|] == points;
    result := Some(done);
  }

  lemma {:induction false} MissingStays(points: seq<string>, table: string -> Option<string>, n: nat)
    requires n <= |points| && Mapped(points[..n], table) == None
    ensures Mapped(points, table) == None
    decreases |points| - n
  {
    if n < |points| {
      assert points[..n + 1][..n] == points[..n];
      MissingStays(points, table, n + 1);
    } else {
      assert points[..n] == points;
    }
  }

  /** A script has a form of its own just when every code point has one. */
  lemma {:induction false} MappedExactly(points: seq<string>, table: string -> Option<string>)
    ensures Mapped(points, table).Some? <==> forall k | 0 <= k < |points| :: table(points[k]).Some?
    decreases |points|
  {
    if points != [] {
      MappedExactly(points[..|points| - 1], table);
    }
  }

  function Scripted(t: Tables, content: string, table: string -> Option<string>, operator: char): (r: string) {
    var mapped := Mapped(t.points(content), table);
    if mapped.Some? then mapped.value
    else if |t.points(content)| == 1 then [operator] + content
    else [operator] + "{" + content + "}"
  }

  function Table(t: Tables, operator: char): (r: string -> Option<string>) {
    if operator == '^' then t.superscripts else t.subscripts
  }

  predicate SimpleOperand(t: Tables, text: string) {
    |t.points(text)| == 1 || t.wordLike(text)
  }

  function Parenthesized(t: Tables, text: string): (r: string) {
    if SimpleOperand(t, text) then text else "(" + text + ")"
  }

  function Accented(t: Tables, points: seq<string>, accent: string): (r: string) {
    if points == [] then ""
    else (if exists k | 0 <= k < |points[0]| :: t.space(points[0][k]) then points[0] else points[0] + accent) + Accented(t, points[1..], accent)
  }

  function Fraction(t: Tables, numerator: string, denominator: string): (r: string) {
    var common := t.fractions(numerator + "/" + denominator);
    if common.Some? then common.value else Parenthesized(t, numerator) + "/" + Parenthesized(t, denominator)
  }

  function Root(t: Tables, index: Option<string>, radicand: string): (r: string) {
    var operand := Parenthesized(t, radicand);
    match index
    case None => "\U{221A}" + operand
    case Some(i) =>
      if i == "3" then "\U{221B}" + operand
      else if i == "4" then "\U{221C}" + operand
      else
        var mapped := Mapped(t.points(i), t.superscripts);
        (if mapped.Some? then mapped.value else "^" + i) + "\U{221A}" + operand
  }

  function Stacked(t: Tables, script: string, base: string, table: string -> Option<string>, operator: char): (r: string) {
    var mapped := Mapped(t.points(script), table);
    if mapped.Some? then base + mapped.value else base + [operator] + "{" + script + "}"
  }

  // ----- Commands by name

  datatype Command =
    | Fixed(text: string)
    | Delimited
    | TextMode
    | Font
    | Alphabet(style: string -> string)
    | Accent(mark: string)
    | Frac | Binom | Sqrt | Not | Environment | Overset | Underset

  function Lookup(t: Tables, name: string): (r: Command) {
    if t.symbols(name).Some? then Fixed(t.symbols(name).value)
    else if t.operators(name) then Fixed(name)
    else if t.spacing(name).Some? then Fixed(t.spacing(name).value)
    else if t.ignored(name) then (if name == "left" || name == "right" then Delimited else Fixed(""))
    else if t.textCommands(name) then TextMode
    else if t.fonts(name) then Font
    else if t.alphabets(name).Some? then Alphabet(t.alphabets(name).value)
    else if t.accents(name).Some? then Accent(t.accents(name).value)
    else match name
      case "frac" => Frac
      case "dfrac" => Frac
      case "tfrac" => Frac
      case "cfrac" => Frac
      case "binom" => Binom
      case "sqrt" => Sqrt
      case "not" => Not
      case "begin" => Environment
      case "end" => Environment
      case "stackrel" => Overset
      case "overset" => Overset
      case "underset" => Underset
      case _ => Fixed(name)
  }

  // ----- What every part of the parser yields, from position `p`

  /** The first position from `p` on that holds no white space. */
  function SkipSpace(t: Tables, src: string, p: nat): (e: nat)
    requires p <= |src|
    ensures p <= e <= |src| && (e < |src| ==> !t.space(src[e]))
    ensures forall k | p <= k < e :: t.space(src[k])
    decreases |src| - p
  {
    if p < |src| && t.space(src[p]) then SkipSpace(t, src, p + 1) else p
  }

  function NameEnd(src: string, p: nat): (e: nat)
    requires p <= |src|
    ensures p <= e <= |src| && (e < |src| ==> !Letter(src[e]))
    ensures forall k | p <= k < e :: Letter(src[k])
    decreases |src| - p
  {
    if p < |src| && Letter(src[p]) then NameEnd(src, p + 1) else p
  }

  /** The first `]` from `p` on, if there is one. */
  function IndexOf(src: string, p: nat): (r: Option<nat>)
    ensures match r
            case None => forall k | p <= k < |src| :: src[k] != ']'
            case Some(e) => p <= e < |src| && src[e] == ']' && forall k | p <= k < e :: src[k] != ']'
    decreases |src| - p
  {
    if p >= |src| then None else if src[p] == ']' then Some(p) else IndexOf(src, p + 1)
  }

  predicate At(src: string, p: nat, c: char) {
    p < |src| && src[p] == c
  }

  predicate EndsInSpace(t: Tables, s: string) {
    s != "" && t.space(s[|s| - 1])
  }

  /** Atoms with their scripts, until the end or a closing brace. */
  function Sequence(t: Tables, src: string, p: nat, textMode: bool, result: string, nested: seq<string>): (r: Out)
    requires p <= |src|
    ensures p <= r.pos <= |src| && (r.pos == |src| || src[r.pos] == '}')
    decreases |src| - p, 5
  {
    if p == |src| || src[p] == '}' then Out(result, p, nested)
    else if (src[p] == '^' || src[p] == '_') && !textMode then
      var s := Script(t, src, p + 1, textMode, src[p]);
      Sequence(t, src, s.pos, textMode, result + s.text, nested + s.nested)
    else if src[p] == '&' then
      Sequence(t, src, p + 1, textMode, if EndsInSpace(t, result) then result else result + " ", nested)
    else
      var a := Atom(t, src, p, textMode);
      Sequence(t, src, a.pos, textMode, result + a.text, nested + a.nested)
  }

  function Atom(t: Tables, src: string, p: nat, textMode: bool): (r: Out)
    requires p <= |src|
    ensures p <= r.pos <= |src| && (p < |src| ==> p < r.pos)
    decreases |src| - p, 2
  {
    if p == |src| then Out("", p, [])
    else if src[p] == '{' then Group(t, src, p, textMode)
    else if src[p] == '\\' then CommandAt(t, src, p, textMode)
    else Out([src[p]], p + 1, [])
  }

  function Group(t: Tables, src: string, p: nat, textMode: bool): (r: Out)
    requires p < |src|
    ensures p < r.pos <= |src|
    decreases |src| - p, 1
  {
    var content := Sequence(t, src, p + 1, textMode, "", []);
    Out(content.text, if At(src, content.pos, '}') then content.pos + 1 else content.pos, content.nested)
  }

  function OptionalBracket(t: Tables, src: string, p: nat): (r: Option<Out>)
    requires p <= |src|
    ensures r.Some? ==> p < r.value.pos <= |src|
    decreases |src| - p, 4
  {
    if !At(src, p, '[') then None
    else match IndexOf(src, p + 1)
      case None => None
      case Some(end) => Some(Out(Sequence(t, src[p + 1..end], 0, false, "", []).text, end + 1, [src[p + 1..end]]))
  }

  function Argument(t: Tables, src: string, p: nat, textMode: bool): (r: Out)
    requires p <= |src|
    ensures p <= r.pos <= |src| && (p < |src| ==> p < r.pos)
    decreases |src| - p, 3
  {
    var q := SkipSpace(t, src, p);
    if At(src, q, '{') then Group(t, src, q, textMode) else Atom(t, src, q, textMode)
  }

  function Script(t: Tables, src: string, p: nat, textMode: bool, operator: char): (r: Out)
    requires p <= |src|
    ensures p <= r.pos <= |src|
    decreases |src| - p, 4
  {
    var content := Argument(t, src, p, textMode);
    Out(Scripted(t, content.text, Table(t, operator), operator), content.pos, content.nested)
  }

  function CommandAt(t: Tables, src: string, p: nat, textMode: bool): (r: Out)
    requires p < |src|
    ensures p < r.pos <= |src|
    decreases |src| - p, 1
  {
    if p + 1 == |src| then Out("", p + 1, [])
    else if !Letter(src[p + 1]) then
      Out(match t.escapes(src[p + 1]) case Some(s) => s case None => [src[p + 1]], p + 2, [])
    else
      var e := NameEnd(src, p + 1);
      Rendered(t, src, if At(src, e, '*') then e + 1 else e, textMode, Lookup(t, src[p + 1..e]))
  }

  /** A command, once its name has been read. */
  function Rendered(t: Tables, src: string, p: nat, textMode: bool, command: Command): (r: Out)
    requires p <= |src|
    ensures p <= r.pos <= |src|
    decreases |src| - p, 5
  {
    match command
    case Fixed(text) => Out(text, p, [])
    case Delimited => Delimiter(t, src, p, textMode)
    case TextMode => Argument(t, src, p, true)
    case Font => Argument(t, src, p, textMode)
    case Alphabet(style) =>
      var a := Argument(t, src, p, textMode);
      Out(style(a.text), a.pos, a.nested)
    case Accent(mark) =>
      var a := Argument(t, src, p, textMode);
      Out(Accented(t, t.points(a.text), mark), a.pos, a.nested)
    case Frac =>
      var a := Argument(t, src, p, textMode);
      var b := Argument(t, src, a.pos, textMode);
      Out(Fraction(t, a.text, b.text), b.pos, a.nested + b.nested)
    case Binom =>
      var a := Argument(t, src, p, textMode);
      var b := Argument(t, src, a.pos, textMode);
      Out("C(" + a.text + "," + b.text + ")", b.pos, a.nested + b.nested)
    case Sqrt =>
      var index := OptionalBracket(t, src, p);
      var b := Argument(t, src, if index.Some? then index.value.pos else p, textMode);
      Out(Root(t, if index.Some? then Some(index.value.text) else None, b.text), b.pos,
          (if index.Some? then index.value.nested else []) + b.nested)
    case Not =>
      var a := Atom(t, src, p, textMode);
      Out(a.text + "\U{0338}", a.pos, a.nested)
    case Environment =>
      var a := Argument(t, src, p, textMode);
      Out("", a.pos, a.nested)
    case Overset =>
      var a := Argument(t, src, p, textMode);
      var b := Argument(t, src, a.pos, textMode);
      Out(Stacked(t, a.text, b.text, t.superscripts, '^'), b.pos, a.nested + b.nested)
    case Underset =>
      var a := Argument(t, src, p, textMode);
      var b := Argument(t, src, a.pos, textMode);
      Out(Stacked(t, a.text, b.text, t.subscripts, '_'), b.pos, a.nested + b.nested)
  }

  function Delimiter(t: Tables, src: string, p: nat, textMode: bool): (r: Out)
    requires p <= |src|
    ensures p <= r.pos <= |src|
    decreases |src| - p, 4
  {
    var q := SkipSpace(t, src, p);
    if q == |src| then Out("", q, [])
    else if src[q] == '.' then Out("", q + 1, [])
    else if src[q] == '\\' then CommandAt(t, src, q, textMode)
    else Out([src[q]], q + 1, [])
  }

  function Parse(t: Tables, src: string): (r: Out) {
    Sequence(t, src, 0, false, "", [])
  }

  // ----- Plain text

  predicate Plain(c: char, textMode: bool) {
    c != '{' && c != '}' && c != '\\' && c != '&' && (textMode || (c != '^' && c != '_'))
  }

  /** A stretch without special characters renders as itself, wherever it stands. */
  lemma {:induction false} PlainStretch(t: Tables, src: string, p: nat, e: nat, textMode: bool, result: string, nested: seq<string>)
    requires p <= e <= |src| && forall k | p <= k < e :: Plain(src[k], textMode)
    ensures Sequence(t, src, p, textMode, result, nested) == Sequence(t, src, e, textMode, result + src[p..e], nested)
    decreases e - p
  {
    if p == e {
      assert result + src[p..e] == result;
    } else {
      PlainStretch(t, src, p + 1, e, textMode, result + [src[p]], nested);
      assert nested + [] == nested;
      assert result + [src[p]] + src[p + 1..e] == result + src[p..e];
    }
  }

  /** Text without special characters parses to itself. */
  lemma PlainParses(t: Tables, src: string)
    requires forall k | 0 <= k < |src| :: Plain(src[k], false)
    ensures Parse(t, src) == Out(src, |src|, [])
  {
    PlainStretch(t, src, 0, |src|, false, "", []);
    assert "" + src[0..|src|] == src;
  }

  /** So does the inside of a group, and the group is read to its brace. */
  lemma PlainGroup(t: Tables, src: string, p: nat, e: nat, textMode: bool)
    requires At(src, p, '{') && p < e && At(src, e, '}') && forall k | p < k < e :: Plain(src[k], textMode)
    ensures Group(t, src, p, textMode) == Out(src[p + 1..e], e + 1, [])
  {
    PlainStretch(t, src, p + 1, e, textMode, "", []);
    assert "" + src[p + 1..e] == src[p + 1..e];
  }

  /** A fraction of plain groups is the form that the table has for it, or else
      the first, a slash and the second, each in parentheses unless it is one
      code point or word-like. */
  lemma PlainFraction(t: Tables, src: string, p: nat, e: nat, f: nat, textMode: bool)
    requires At(src, p, '{') && p < e && At(src, e, '}') && At(src, e + 1, '{') && e + 1 < f && At(src, f, '}')
    requires !t.space('{') && forall k | p < k < f && k != e && k != e + 1 :: Plain(src[k], textMode)
    ensures var a, b := src[p + 1..e], src[e + 2..f];
            Rendered(t, src, p, textMode, Frac)
            == Out(match t.fractions(a + "/" + b)
                   case Some(form) => form
                   case None => (if |t.points(a)| == 1 || t.wordLike(a) then a else "(" + a + ")") + "/"
                                + (if |t.points(b)| == 1 || t.wordLike(b) then b else "(" + b + ")"), f + 1, [])
  {
    hide Group;
    PlainGroup(t, src, p, e, textMode);
    PlainGroup(t, src, e + 1, f, textMode);
  }

  /** Everything after a brace that closes nothing is left out of the result. */
  lemma UnmatchedBraceCuts(t: Tables, a: string, u: string)
    requires forall k | 0 <= k < |a| :: Plain(a[k], false)
    ensures Parse(t, a + "}" + u) == Out(a, |a|, [])
  {
    var src := a + "}" + u;
    PlainStretch(t, src, 0, |a|, false, "", []);
    assert "" + src[0..|a|] == a;
  }

  // ----- What lies beyond the point where reading stopped

  lemma {:induction false} SkipSpaceCut(t: Tables, src: string, m: nat, p: nat)
    requires p <= |src| && SkipSpace(t, src, p) <= m <= |src|
    ensures SkipSpace(t, src[..m], p) == SkipSpace(t, src, p)
    decreases |src| - p
  {
    if p < |src| && t.space(src[p]) {
      SkipSpaceCut(t, src, m, p + 1);
    }
  }

  lemma {:induction false} NameEndCut(src: string, m: nat, p: nat)
    requires p <= |src| && NameEnd(src, p) <= m <= |src|
    ensures NameEnd(src[..m], p) == NameEnd(src, p)
    decreases |src| - p
  {
    if p < |src| && Letter(src[p]) {
      NameEndCut(src, m, p + 1);
    }
  }

  lemma {:induction false} IndexOfCut(src: string, m: nat, p: nat)
    requires p <= m <= |src| && (IndexOf(src, p).Some? ==> IndexOf(src, p).value < m)
    ensures IndexOf(src[..m], p) == IndexOf(src, p)
    decreases |src| - p
  {
    if p < m && src[p] != ']' {
      IndexOfCut(src, m, p + 1);
    }
  }

  /** Text beyond the point where reading stops, cut off anywhere, makes no difference to what was read. */
  lemma {:induction false} SequenceCut(t: Tables, src: string, m: nat, p: nat, textMode: bool, result: string, nested: seq<string>)
    requires p <= |src| && Sequence(t, src, p, textMode, result, nested).pos <= m <= |src|
    ensures p <= m && Sequence(t, src[..m], p, textMode, result, nested) == Sequence(t, src, p, textMode, result, nested)
    decreases |src| - p, 5
  {
    hide Script, Atom;
    var w := src[..m];
    if m == |src| {
      assert w == src;
    } else if p < m && src[p] != '}' {
      if (src[p] == '^' || src[p] == '_') && !textMode {
        var s := Script(t, src, p + 1, textMode, src[p]);
        SequenceCut(t, src, m, s.pos, textMode, result + s.text, nested + s.nested);
        ScriptCut(t, src, m, p + 1, textMode, src[p]);
      } else if src[p] == '&' {
        SequenceCut(t, src, m, p + 1, textMode, if EndsInSpace(t, result) then result else result + " ", nested);
      } else {
        var a := Atom(t, src, p, textMode);
        SequenceCut(t, src, m, a.pos, textMode, result + a.text, nested + a.nested);
        AtomCut(t, src, m, p, textMode);
      }
    }
  }

  lemma {:induction false} AtomCut(t: Tables, src: string, m: nat, p: nat, textMode: bool)
    requires p <= |src| && Atom(t, src, p, textMode).pos <= m <= |src|
    ensures p <= m && Atom(t, src[..m], p, textMode) == Atom(t, src, p, textMode)
    decreases |src| - p, 2
  {
    hide Group, CommandAt;
    if m == |src| {
      assert src[..m] == src;
    } else if src[p] == '{' {
      GroupCut(t, src, m, p, textMode);
    } else if src[p] == '\\' {
      CommandCut(t, src, m, p, textMode);
    }
  }

  lemma {:induction false} GroupCut(t: Tables, src: string, m: nat, p: nat, textMode: bool)
    requires p < |src| && Group(t, src, p, textMode).pos <= m <= |src|
    ensures p < m && Group(t, src[..m], p, textMode) == Group(t, src, p, textMode)
    decreases |src| - p, 1
  {
    hide Sequence;
    if m == |src| {
      assert src[..m] == src;
    } else {
      SequenceCut(t, src, m, p + 1, textMode, "", []);
    }
  }

  lemma BracketCut(t: Tables, src: string, m: nat, p: nat)
    requires p <= m <= |src|
    requires OptionalBracket(t, src, p).Some? ==> OptionalBracket(t, src, p).value.pos <= m
    ensures OptionalBracket(t, src[..m], p) == OptionalBracket(t, src, p)
  {
    hide Sequence;
    if At(src, p, '[') && p < m {
      IndexOfCut(src, m, p + 1);
      var end := IndexOf(src, p + 1);
      if end.Some? {
        assert src[..m][p + 1..end.value] == src[p + 1..end.value];
      }
    }
  }

  lemma {:induction false} ArgumentCut(t: Tables, src: string, m: nat, p: nat, textMode: bool)
    requires p <= |src| && Argument(t, src, p, textMode).pos <= m <= |src|
    ensures p <= m && Argument(t, src[..m], p, textMode) == Argument(t, src, p, textMode)
    decreases |src| - p, 3
  {
    hide Group, Atom, SkipSpace;
    var q := SkipSpace(t, src, p);
    SkipSpaceCut(t, src, m, p);
    if At(src, q, '{') {
      GroupCut(t, src, m, q, textMode);
    } else {
      AtomCut(t, src, m, q, textMode);
    }
  }

  lemma {:induction false} ScriptCut(t: Tables, src: string, m: nat, p: nat, textMode: bool, operator: char)
    requires p <= |src| && Script(t, src, p, textMode, operator).pos <= m <= |src|
    ensures p <= m && Script(t, src[..m], p, textMode, operator) == Script(t, src, p, textMode, operator)
    decreases |src| - p, 4
  {
    ArgumentCut(t, src, m, p, textMode);
  }

  lemma {:induction false} CommandCut(t: Tables, src: string, m: nat, p: nat, textMode: bool)
    requires p < |src| && CommandAt(t, src, p, textMode).pos <= m <= |src|
    ensures p < m && CommandAt(t, src[..m], p, textMode) == CommandAt(t, src, p, textMode)
    decreases |src| - p, 1
  {
    hide Rendered, Lookup, NameEnd;
    var w := src[..m];
    if m == |src| {
      assert w == src;
    } else if Letter(src[p + 1]) {
      var e := NameEnd(src, p + 1);
      NameEndCut(src, m, p + 1);
      assert w[p + 1..e] == src[p + 1..e];
      RenderedCut(t, src, m, if At(src, e, '*') then e + 1 else e, textMode, Lookup(t, src[p + 1..e]));
    }
  }

  lemma {:induction false} RenderedCut(t: Tables, src: string, m: nat, p: nat, textMode: bool, command: Command)
    requires p <= |src| && Rendered(t, src, p, textMode, command).pos <= m <= |src|
    ensures p <= m && Rendered(t, src[..m], p, textMode, command) == Rendered(t, src, p, textMode, command)
    decreases |src| - p, 5
  {
    hide Argument, Atom, Delimiter, OptionalBracket, Accented, Fraction, Root, Stacked;
    match command {
      case Fixed(_) =>
      case Delimited => DelimiterCut(t, src, m, p, textMode);
      case TextMode => ArgumentCut(t, src, m, p, true);
      case Not => AtomCut(t, src, m, p, textMode);
      case Sqrt =>
        var index := OptionalBracket(t, src, p);
        BracketCut(t, src, m, p);
        ArgumentCut(t, src, m, if index.Some? then index.value.pos else p, textMode);
      case Font => ArgumentCut(t, src, m, p, textMode);
      case Alphabet(_) => ArgumentCut(t, src, m, p, textMode);
      case Accent(_) => ArgumentCut(t, src, m, p, textMode);
      case Environment => ArgumentCut(t, src, m, p, textMode);
      case Frac => TwoArgumentsCut(t, src, m, p, textMode);
      case Binom => TwoArgumentsCut(t, src, m, p, textMode);
      case Overset => TwoArgumentsCut(t, src, m, p, textMode);
      case Underset => TwoArgumentsCut(t, src, m, p, textMode);
    }
  }

  lemma {:induction false} TwoArgumentsCut(t: Tables, src: string, m: nat, p: nat, textMode: bool)
    requires p <= |src|
    requires Argument(t, src, Argument(t, src, p, textMode).pos, textMode).pos <= m <= |src|
    ensures var a := Argument(t, src, p, textMode);
            p <= m && a.pos <= m && Argument(t, src[..m], p, textMode) == a
            && Argument(t, src[..m], a.pos, textMode) == Argument(t, src, a.pos, textMode)
    decreases |src| - p, 4
  {
    hide Argument;
    ArgumentCut(t, src, m, p, textMode);
    ArgumentCut(t, src, m, Argument(t, src, p, textMode).pos, textMode);
  }

  lemma {:induction false} DelimiterCut(t: Tables, src: string, m: nat, p: nat, textMode: bool)
    requires p <= |src| && Delimiter(t, src, p, textMode).pos <= m <= |src|
    ensures p <= m && Delimiter(t, src[..m], p, textMode) == Delimiter(t, src, p, textMode)
    decreases |src| - p, 4
  {
    hide CommandAt, SkipSpace;
    var q := SkipSpace(t, src, p);
    SkipSpaceCut(t, src, m, p);
    if m == |src| {
      assert src[..m] == src;
    } else if src[q] == '\\' {
      CommandCut(t, src, m, q, textMode);
    }
  }

  /** Dropping all that stands from the stopping brace on leaves the result as it was, and then everything is read. */
  lemma StopsForGood(t: Tables, src: string)
    ensures var r := Parse(t, src); Parse(t, src[..r.pos]) == r
  {
    SequenceCut(t, src, Parse(t, src).pos, 0, false, "", []);
  }

  /** Putting text behind the stopping brace can change the result: an optional bracket looks beyond it. */
  lemma BracketLooksBeyond(t: Tables)
    requires Lookup(t, "sqrt") == Sqrt && t.points("") == [] && t.points("a") == ["a"] && t.points("[") == ["["] && !t.space('[') && !t.space('a')
    ensures Parse(t, "\\sqrt[}]a").pos == 9 && Parse(t, "\\sqrt[}").pos == 6
  {
    var src, short := "\\sqrt[}]a", "\\sqrt[}";
    assert NameEnd(src, 1) == 5 && NameEnd(short, 1) == 5;
    assert src[1..5] == "sqrt" == short[1..5];
    assert IndexOf(src, 6) == Some(7) && IndexOf(short, 6) == None;
  }

  // ----- The parser

  lemma Regroup(a: seq<string>, b: seq<string>, c: seq<string>)
    ensures (a + b) + c == a + (b + c)
  {
  }

  class LatexParser {
    const t: Tables
    const src: string
    var pos: nat
    var textMode: bool
    /** The sources that parsers of their own were started on, so far. */
    ghost var started: seq<string>

    ghost predicate Valid()
      reads this
    {
      pos <= |src|
    }

    constructor (t: Tables, src: string)
      ensures Valid() && this.t == t && this.src == src && pos == 0 && !textMode && started == []
    {
      this.t, this.src, pos, textMode, started := t, src, 0, false, [];
    }

    method ParseSequence() returns (result: string)
      requires Valid()
      modifies this
      ensures Valid() && textMode == old(textMode)
      ensures var out := Sequence(t, src, old(pos), textMode, "", []);
              result == out.text && pos == out.pos && started == old(started) + out.nested
      decreases |src| - pos, 5
    {
      hide Script, Atom;
      result := "";
      ghost var whole := Sequence(t, src, pos, textMode, "", []);
      ghost var nested: seq<string> := [];
      while pos < |src|
        invariant old(pos) <= pos <= |src| && textMode == old(textMode)
        invariant Sequence(t, src, pos, textMode, result, nested) == whole && started == old(started) + nested
        decreases |src| - pos
      {
        var ch := src[pos];
        if ch == '}' {
          break;
        }
        if (ch == '^' || ch == '_') && !textMode {
          pos := pos + 1;
          ghost var more := Script(t, src, pos, textMode, ch).nested;
          var script := ParseScript(ch);
          result := result + script;
          Regroup(old(started), nested, more);
          nested := nested + more;
        } else if ch == '&' {
          pos := pos + 1;
          if !EndsInSpace(t, result) {
            result := result + " ";
          }
        } else {
          ghost var more := Atom(t, src, pos, textMode).nested;
          var atom := ParseAtom();
          result := result + if atom.Some? then atom.value else "";
          Regroup(old(started), nested, more);
          nested := nested + more;
        }
      }
    }

    method ParseAtom() returns (atom: Option<string>)
      requires Valid()
      modifies this
      ensures Valid() && textMode == old(textMode)
      ensures atom.None? <==> old(pos) == |src|
      ensures var out := Atom(t, src, old(pos), textMode);
              (if atom.Some? then atom.value else "") == out.text && pos == out.pos && started == old(started) + out.nested
      decreases |src| - pos, 2
    {
      hide Group, CommandAt;
      if pos >= |src| {
        return None;
      }
      var ch := src[pos];
      var text;
      if ch == '{' {
        text := ParseGroup();
      } else if ch == '\\' {
        text := ParseCommand();
      } else {
        pos := pos + 1;
        text := [ch];
      }
      atom := Some(text);
    }

    method ParseGroup() returns (content: string)
      requires Valid() && pos < |src|
      modifies this
      ensures Valid() && textMode == old(textMode)
      ensures var out := Group(t, src, old(pos), textMode);
              content == out.text && pos == out.pos && started == old(started) + out.nested
      decreases |src| - pos, 1
    {
      hide Sequence;
      pos := pos + 1;
      content := ParseSequence();
      if At(src, pos, '}') {
        pos := pos + 1;
      }
    }

    method ParseOptionalBracket() returns (content: Option<string>)
      requires Valid()
      modifies this
      ensures Valid() && textMode == old(textMode)
      ensures match OptionalBracket(t, src, old(pos))
              case None => content == None && pos == old(pos) && started == old(started)
              case Some(out) => content == Some(out.text) && pos == out.pos && started == old(started) + out.nested
      decreases |src| - pos, 4
    {
      hide Sequence;
      if !At(src, pos, '[') {
        return None;
      }
      var end := IndexOf(src, pos + 1);
      if end.None? {
        return None;
      }
      var inner := new LatexParser(t, src[pos + 1..end.value]);
      started := started + [inner.src];
      var text := inner.ParseSequence();
      pos := end.value + 1;
      content := Some(text);
    }

    method SkipWhiteSpace()
      requires Valid()
      modifies this`pos
      ensures Valid() && pos == SkipSpace(t, src, old(pos))
    {
      while pos < |src| && t.space(src[pos])
        invariant pos <= |src| && SkipSpace(t, src, pos) == SkipSpace(t, src, old(pos))
      {
        pos := pos + 1;
      }
    }

    method ParseArgument() returns (argument: string)
      requires Valid()
      modifies this
      ensures Valid() && textMode == old(textMode)
      ensures var out := Argument(t, src, old(pos), textMode);
              argument == out.text && pos == out.pos && started == old(started) + out.nested
      decreases |src| - pos, 3
    {
      hide Group, Atom, SkipSpace;
      SkipWhiteSpace();
      if At(src, pos, '{') {
        argument := ParseGroup();
      } else {
        var atom := ParseAtom();
        argument := if atom.Some? then atom.value else "";
      }
    }

    method ParseScript(operator: char) returns (script: string)
      requires Valid()
      modifies this
      ensures Valid() && textMode == old(textMode)
      ensures var out := Script(t, src, old(pos), textMode, operator);
              script == out.text && pos == out.pos && started == old(started) + out.nested
      decreases |src| - pos, 4
    {
      hide Argument;
      var content := ParseArgument();
      var mapped := MapScript(t, content, Table(t, operator));
      if mapped.Some? {
        script := mapped.value;
      } else if |t.points(content)| == 1 {
        script := [operator] + content;
      } else {
        script := [operator] + "{" + content + "}";
      }
    }

    method ParseCommand() returns (text: string)
      requires Valid() && pos < |src|
      modifies this
      ensures Valid() && textMode == old(textMode)
      ensures var out := CommandAt(t, src, old(pos), textMode);
              text == out.text && pos == out.pos && started == old(started) + out.nested
      decreases |src| - pos, 1
    {
      hide Rendered, Lookup;
      pos := pos + 1;
      assert old(started) + [] == old(started);
      if pos >= |src| {
        return "";
      }
      var ch := src[pos];
      if !Letter(ch) {
        pos := pos + 1;
        return match t.escapes(ch) case Some(s) => s case None => [ch];
      }
      ghost var start := pos;
      var name := "";
      while pos < |src| && Letter(src[pos])
        invariant start <= pos <= |src| && textMode == old(textMode) && started == old(started)
        invariant name == src[start..pos] && NameEnd(src, pos) == NameEnd(src, start)
      {
        name := name + [src[pos]];
        pos := pos + 1;
      }
      if At(src, pos, '*') {
        pos := pos + 1;
      }
      text := RenderCommand(Lookup(t, name));
    }

    method RenderCommand(command: Command) returns (text: string)
      requires Valid()
      modifies this
      ensures Valid() && textMode == old(textMode)
      ensures var out := Rendered(t, src, old(pos), textMode, command);
              text == out.text && pos == out.pos && started == old(started) + out.nested
      decreases |src| - pos, 6
    {
      hide Argument, Atom, Delimiter, OptionalBracket, Accented, Fraction, Root, Stacked;
      match command {
        case Fixed(fixed) =>
          text := fixed;
          assert old(started) + [] == old(started);
        case Delimited =>
          text := ParseDelimiter();
        case TextMode =>
          var wasTextMode := textMode;
          textMode := true;
          text := ParseArgument();
          textMode := wasTextMode;
        case Font =>
          text := ParseArgument();
        case Alphabet(style) =>
          var content := ParseArgument();
          text := style(content);
        case Accent(mark) =>
          var content := ParseArgument();
          text := Accented(t, t.points(content), mark);
        case Frac =>
          var numerator, denominator := ParseTwoArguments();
          text := Fraction(t, numerator, denominator);
        case Binom =>
          var top, bottom := ParseTwoArguments();
          text := "C(" + top + "," + bottom + ")";
        case Sqrt =>
          text := ParseRoot();
        case Not =>
          var negated := ParseAtom();
          text := (if negated.Some? then negated.value else "") + "\U{0338}";
        case Environment =>
          var name := ParseArgument();
          text := "";
        case Overset =>
          var above, base := ParseTwoArguments();
          text := Stacked(t, above, base, t.superscripts, '^');
        case Underset =>
          var below, base := ParseTwoArguments();
          text := Stacked(t, below, base, t.subscripts, '_');
      }
    }

    method ParseTwoArguments() returns (first: string, second: string)
      requires Valid()
      modifies this
      ensures Valid() && textMode == old(textMode)
      ensures var a := Argument(t, src, old(pos), textMode);
              var b := Argument(t, src, a.pos, textMode);
              first == a.text && second == b.text && pos == b.pos && started == old(started) + (a.nested + b.nested)
      decreases |src| - pos, 4
    {
      hide Argument;
      ghost var a := Argument(t, src, pos, textMode);
      first := ParseArgument();
      ghost var b := Argument(t, src, pos, textMode);
      second := ParseArgument();
      Regroup(old(started), a.nested, b.nested);
    }

    method ParseRoot() returns (text: string)
      requires Valid()
      modifies this
      ensures Valid() && textMode == old(textMode)
      ensures var out := Rendered(t, src, old(pos), textMode, Sqrt);
              text == out.text && pos == out.pos && started == old(started) + out.nested
      decreases |src| - pos, 5
    {
      hide Argument, OptionalBracket, Root;
      ghost var a := OptionalBracket(t, src, pos);
      var index := ParseOptionalBracket();
      ghost var b := Argument(t, src, pos, textMode);
      var radicand := ParseArgument();
      text := Root(t, index, radicand);
      Regroup(old(started), if a.Some? then a.value.nested else [], b.nested);
      assert a.None? ==> old(started) + [] == old(started);
    }

    method ParseDelimiter() returns (text: string)
      requires Valid()
      modifies this
      ensures Valid() && textMode == old(textMode)
      ensures var out := Delimiter(t, src, old(pos), textMode);
              text == out.text && pos == out.pos && started == old(started) + out.nested
      decreases |src| - pos, 4
    {
      hide CommandAt, SkipSpace;
      SkipWhiteSpace();
      if pos == |src| {
        return "";
      }
      var ch := src[pos];
      if ch == '.' {
        pos := pos + 1;
        return "";
      }
      if ch == '\\' {
        text := ParseCommand();
        return;
      }
      pos := pos + 1;
      text := [ch];
    }
  }
}
