/** The text that commands render as, on sources written out in full. */
module LatexText {
  import opened Messages
  import opened Latex

  /** Text without special characters and without the end of an optional bracket. */
  predicate Unmarked(text: string) {
    forall k | 0 <= k < |text| :: Plain(text[k], false) && text[k] != ']'
  }

  /** An operand reads as itself when it is one code point or word-like, and is put in parentheses otherwise. */
  function Operand(t: Tables, text: string): (r: string) {
    if |t.points(text)| == 1 || t.wordLike(text) then text else "(" + text + ")"
  }

  /** The source of a command: its name, with a backslash, and what follows it. */
  function Source(name: string, rest: string): (src: string) {
    "\\" + name + rest
  }

  function Braced(text: string): (src: string) {
    "{" + text + "}"
  }

  // ----- Scripts and accents, code point by code point

  /** Mapping through a table goes piece by piece, and succeeds when both pieces do. */
  lemma {:induction false} MappedJoins(a: seq<string>, b: seq<string>, table: string -> Option<string>)
    ensures Mapped(a + b, table)
            == if Mapped(a, table).Some? && Mapped(b, table).Some? then Some(Mapped(a, table).value + Mapped(b, table).value) else None
    decreases |b|
  {
    if b == [] {
      assert a + b == a;
      EmptyJoins(Mapped(a, table));
    } else {
      var n := |b| - 1;
      MappedJoins(a, b[..n], table);
      assert (a + b)[..|a + b| - 1] == a + b[..n];
      if Mapped(a, table).Some? && Mapped(b[..n], table).Some? && table(b[n]).Some? {
        assert Mapped(a, table).value + Mapped(b[..n], table).value + table(b[n]).value
            == Mapped(a, table).value + (Mapped(b[..n], table).value + table(b[n]).value);
      }
    }
  }

  lemma EmptyJoins(o: Option<string>)
    ensures o.Some? ==> o.value + "" == o.value
  {
  }

  /** And one code point is mapped to its own form. */
  lemma MappedOne(point: string, table: string -> Option<string>)
    ensures Mapped([point], table) == table(point)
  {
    assert [point][..0] == [];
    if table(point).Some? {
      assert "" + table(point).value == table(point).value;
    }
  }

  /** An accent goes behind every code point that is no white space. */
  lemma {:induction false} AccentedJoins(t: Tables, a: seq<string>, b: seq<string>, mark: string)
    ensures Accented(t, a + b, mark) == Accented(t, a, mark) + Accented(t, b, mark)
  {
    if a == [] {
      assert a + b == b;
    } else {
      hide Accented;
      AccentedJoins(t, a[1..], b, mark);
      assert (a + b)[1..] == a[1..] + b;
      AccentedStep(t, a, mark);
      AccentedStep(t, a + b, mark);
      TextsRegroup(Accented(t, [a[0]], mark), Accented(t, a[1..], mark), Accented(t, b, mark));
    }
  }

  lemma TextsRegroup(a: string, b: string, c: string)
    ensures a + (b + c) == a + b + c
  {
  }

  lemma AccentedStep(t: Tables, points: seq<string>, mark: string)
    requires points != []
    ensures Accented(t, points, mark) == Accented(t, [points[0]], mark) + Accented(t, points[1..], mark)
  {
    AccentedOne(t, points[0], mark);
  }

  lemma AccentedOne(t: Tables, point: string, mark: string)
    ensures Accented(t, [point], mark) == if exists k | 0 <= k < |point| :: t.space(point[k]) then point else point + mark
  {
    assert [point][1..] == [];
    assert Accented(t, [], mark) == "";
    assert point + "" == point && (point + mark) + "" == point + mark;
  }

  // ----- Reading a command

  lemma {:induction false} NameReads(src: string, p: nat, e: nat)
    requires p <= e <= |src| && (forall k | p <= k < e :: Letter(src[k])) && (e < |src| ==> !Letter(src[e]))
    ensures NameEnd(src, p) == e
    decreases e - p
  {
    if p < e {
      NameReads(src, p + 1, e);
    }
  }

  /** A source that is one command and what it takes renders as the command does. */
  lemma WholeCommand(t: Tables, name: string, rest: string, r: Out)
    requires name != "" && (forall k | 0 <= k < |name| :: Letter(name[k]))
    requires rest != "" ==> !Letter(rest[0]) && rest[0] != '*'
    requires r == Rendered(t, Source(name, rest), |name| + 1, false, Lookup(t, name)) && r.pos == |Source(name, rest)|
    ensures Parse(t, Source(name, rest)) == r
  {
    hide Rendered, Lookup;
    var src, e := Source(name, rest), |name| + 1;
    assert forall k | 1 <= k < e :: src[k] == name[k - 1];
    assert rest != "" ==> src[e] == rest[0];
    NameReads(src, 1, e);
    assert src[1..e] == name;
    assert CommandAt(t, src, 0, false) == r;
    assert Atom(t, src, 0, false) == r && src[0] == '\\';
    NothingBefore(r);
    assert Sequence(t, src, |src|, false, r.text, r.nested) == r;
  }

  lemma NothingBefore(r: Out)
    ensures "" + r.text == r.text && [] + r.nested == r.nested
  {
  }

  lemma SliceOfSlice(s: string, i: nat, j: nat, k: nat, l: nat)
    requires i <= j <= |s| && k <= l <= j - i
    ensures s[i..j][k..l] == s[i + k..i + l]
  {
    var inner := s[i..j];
    forall m | 0 <= m < l - k ensures inner[k..l][m] == s[i + k..i + l][m] {
      assert inner[k + m] == s[i + k + m];
    }
  }

  /** A plain group as an argument. */
  lemma GroupReads(t: Tables, src: string, p: nat, text: string)
    requires Unmarked(text) && !t.space('{') && p + |text| + 2 <= |src| && src[p..p + |text| + 2] == Braced(text)
    ensures Argument(t, src, p, false) == Out(text, p + |text| + 2, [])
  {
    hide Group;
    var e := p + |text| + 1;
    assert src[p] == Braced(text)[0] && src[e] == Braced(text)[|text| + 1];
    forall k | p < k < e ensures Plain(src[k], false) {
      assert src[k] == Braced(text)[k - p] == text[k - p - 1];
    }
    PlainGroup(t, src, p, e, false);
    SliceOfSlice(src, p, p + |text| + 2, 1, |text| + 1);
    assert Braced(text)[1..|text| + 1] == text;
  }

  /** Two plain groups, one behind the other, at the end of a source. */
  lemma TwoGroupsRead(t: Tables, front: string, a: string, b: string)
    requires Unmarked(a) && Unmarked(b) && !t.space('{')
    ensures var src, p := front + (Braced(a) + Braced(b)), |front|;
            && Argument(t, src, p, false) == Out(a, p + |a| + 2, [])
            && Argument(t, src, p + |a| + 2, false) == Out(b, |src|, [])
  {
    hide Argument;
    var src, p := front + (Braced(a) + Braced(b)), |front|;
    assert src[p..p + |a| + 2] == Braced(a);
    assert src[p + |a| + 2..p + |a| + 2 + |b| + 2] == Braced(b);
    GroupReads(t, src, p, a);
    GroupReads(t, src, p + |a| + 2, b);
  }

  lemma OneGroupReads(t: Tables, front: string, a: string)
    requires Unmarked(a) && !t.space('{')
    ensures Argument(t, front + Braced(a), |front|, false) == Out(a, |front + Braced(a)|, [])
  {
    hide Argument;
    assert (front + Braced(a))[|front|..|front| + |a| + 2] == Braced(a);
    GroupReads(t, front + Braced(a), |front|, a);
  }

  lemma NoneNested()
    ensures var none: seq<string> := []; none + none == none
  {
  }

  // ----- What the commands say

  /** `\frac{a}{b}` has a over b: the form that the table has for a/b, or else
      a, a slash and b, each in parentheses unless it is one code point or word-like. */
  lemma FractionSays(t: Tables, name: string, a: string, b: string)
    requires name != "" && (forall k | 0 <= k < |name| :: Letter(name[k])) && Lookup(t, name) == Frac
    requires Unmarked(a) && Unmarked(b) && !t.space('{')
    ensures var src := Source(name, Braced(a) + Braced(b));
            Parse(t, src) == Out(match t.fractions(a + "/" + b)
                                 case Some(form) => form
                                 case None => Operand(t, a) + "/" + Operand(t, b), |src|, [])
  {
    hide Argument, Lookup;
    var front, rest := "\\" + name, Braced(a) + Braced(b);
    TwoGroupsRead(t, front, a, b);
    assert Source(name, rest) == front + rest;
    WholeCommand(t, name, rest, Rendered(t, Source(name, rest), |name| + 1, false, Frac));
  }

  /** `\binom{a}{b}` is C(a,b). */
  lemma BinomialSays(t: Tables, a: string, b: string)
    requires Lookup(t, "binom") == Binom && Unmarked(a) && Unmarked(b) && !t.space('{')
    ensures var src := Source("binom", Braced(a) + Braced(b));
            Parse(t, src) == Out("C(" + a + "," + b + ")", |src|, [])
  {
    hide Argument, Lookup;
    var front, rest := "\\binom", Braced(a) + Braced(b);
    TwoGroupsRead(t, front, a, b);
    assert Source("binom", rest) == front + rest;
    WholeCommand(t, "binom", rest, Rendered(t, Source("binom", rest), 6, false, Binom));
  }

  /** `\overset{a}{b}` is b with a above it: a's superscripts, or `^{a}` when one is missing. */
  lemma OversetSays(t: Tables, name: string, a: string, b: string)
    requires name != "" && (forall k | 0 <= k < |name| :: Letter(name[k])) && Lookup(t, name) == Overset
    requires Unmarked(a) && Unmarked(b) && !t.space('{')
    ensures var src := Source(name, Braced(a) + Braced(b));
            Parse(t, src) == Out(match Mapped(t.points(a), t.superscripts)
                                 case Some(above) => b + above
                                 case None => b + "^{" + a + "}", |src|, [])
  {
    hide Argument, Lookup, Mapped;
    var front, rest := "\\" + name, Braced(a) + Braced(b);
    TwoGroupsRead(t, front, a, b);
    assert Source(name, rest) == front + rest;
    assert b + "^{" + a + "}" == b + ['^'] + "{" + a + "}";
    WholeCommand(t, name, rest, Rendered(t, Source(name, rest), |name| + 1, false, Overset));
  }

  /** `\underset{a}{b}` is b with a below it: a's subscripts, or `_{a}` when one is missing. */
  lemma UndersetSays(t: Tables, a: string, b: string)
    requires Lookup(t, "underset") == Underset && Unmarked(a) && Unmarked(b) && !t.space('{')
    ensures var src := Source("underset", Braced(a) + Braced(b));
            Parse(t, src) == Out(match Mapped(t.points(a), t.subscripts)
                                 case Some(below) => b + below
                                 case None => b + "_{" + a + "}", |src|, [])
  {
    hide Argument, Lookup, Mapped;
    var front, rest := "\\underset", Braced(a) + Braced(b);
    TwoGroupsRead(t, front, a, b);
    assert Source("underset", rest) == front + rest;
    assert b + "_{" + a + "}" == b + ['_'] + "{" + a + "}";
    WholeCommand(t, "underset", rest, Rendered(t, Source("underset", rest), 9, false, Underset));
  }

  /** `\sqrt{a}` is the root sign before a. */
  lemma RootSays(t: Tables, a: string)
    requires Lookup(t, "sqrt") == Sqrt && Unmarked(a) && !t.space('{')
    ensures var src := Source("sqrt", Braced(a));
            Parse(t, src) == Out("\U{221A}" + Operand(t, a), |src|, [])
  {
    hide Argument, Lookup;
    var front, rest := "\\sqrt", Braced(a);
    OneGroupReads(t, front, a);
    assert Source("sqrt", rest) == front + rest;
    assert (front + rest)[5] == '{';
    NoneNested();
    WholeCommand(t, "sqrt", rest, Rendered(t, Source("sqrt", rest), 5, false, Sqrt));
  }

  /** The sign of an indexed root: the cube and fourth root have their own, any
      other has the index above it, or behind a caret when it has no such form. */
  function RootSign(t: Tables, index: string): (r: string) {
    if index == "3" then "\U{221B}"
    else if index == "4" then "\U{221C}"
    else match Mapped(t.points(index), t.superscripts)
      case Some(above) => above + "\U{221A}"
      case None => "^" + index + "\U{221A}"
  }

  lemma {:induction false} BracketReads(src: string, p: nat, e: nat)
    requires p <= e < |src| && src[e] == ']' && forall k | p <= k < e :: src[k] != ']'
    ensures IndexOf(src, p) == Some(e)
    decreases e - p
  {
    if p < e {
      BracketReads(src, p + 1, e);
    }
  }

  /** `\sqrt[i]{a}` is the sign of that root before a; its index is parsed by a parser of its own. */
  lemma IndexedRootSays(t: Tables, i: string, a: string)
    requires Lookup(t, "sqrt") == Sqrt && Unmarked(i) && Unmarked(a) && !t.space('{')
    ensures var src := Source("sqrt", "[" + i + "]" + Braced(a));
            Parse(t, src) == Out(RootSign(t, i) + Operand(t, a), |src|, [i])
  {
    hide Argument, Lookup, Mapped, OptionalBracket, Root, RootSign, Operand;
    var rest := "[" + i + "]" + Braced(a);
    var src, front := Source("sqrt", rest), "\\sqrt[" + i + "]";
    assert src == front + Braced(a);
    IndexReads(t, src, i, a);
    OneGroupReads(t, front, a);
    assert [i] + [] == [i];
    RootReads(t, i, a);
    WholeCommand(t, "sqrt", rest, Rendered(t, src, 5, false, Sqrt));
  }

  lemma IndexReads(t: Tables, src: string, i: string, a: string)
    requires Unmarked(i) && src == "\\sqrt[" + i + "]" + Braced(a)
    ensures OptionalBracket(t, src, 5) == Some(Out(i, |i| + 7, [i]))
  {
    hide Sequence;
    var end := |i| + 6;
    assert src[5] == '[' && src[end] == ']';
    assert forall k | 6 <= k < end :: src[k] == i[k - 6];
    BracketReads(src, 6, end);
    assert src[6..end] == i;
    PlainParses(t, i);
  }

  lemma RootReads(t: Tables, i: string, a: string)
    ensures Root(t, Some(i), a) == RootSign(t, i) + Operand(t, a)
  {
  }

  /** An accent's argument carries the mark behind each code point that is no white space. */
  lemma AccentSays(t: Tables, name: string, a: string, mark: string)
    requires name != "" && (forall k | 0 <= k < |name| :: Letter(name[k])) && Lookup(t, name) == Accent(mark)
    requires Unmarked(a) && !t.space('{')
    ensures Parse(t, Source(name, Braced(a))) == Out(Accented(t, t.points(a), mark), |Source(name, Braced(a))|, [])
  {
    hide Argument, Lookup, Accented;
    var front, rest := "\\" + name, Braced(a);
    OneGroupReads(t, front, a);
    assert Source(name, rest) == front + rest;
    WholeCommand(t, name, rest, Rendered(t, Source(name, rest), |name| + 1, false, Accent(mark)));
  }

  /** `\not{a}` strikes a through. */
  lemma NotSays(t: Tables, a: string)
    requires Lookup(t, "not") == Not && Unmarked(a)
    ensures Parse(t, Source("not", Braced(a))) == Out(a + "\U{0338}", |Source("not", Braced(a))|, [])
  {
    hide Lookup, Sequence;
    var src, e := Source("not", Braced(a)), |a| + 5;
    assert src[4] == '{' && src[e] == '}';
    assert forall k | 4 < k < e :: src[k] == a[k - 5];
    PlainGroup(t, src, 4, e, false);
    assert src[5..e] == a;
    assert Atom(t, src, 4, false) == Out(a, |src|, []);
    WholeCommand(t, "not", Braced(a), Rendered(t, src, 4, false, Not));
  }

  /** A font command shows its argument as it renders, an alphabet restyles it, and an environment's name disappears. */
  lemma FontsSay(t: Tables, name: string, a: string)
    requires name != "" && (forall k | 0 <= k < |name| :: Letter(name[k]))
    requires Unmarked(a) && !t.space('{')
    ensures var r := Parse(t, Source(name, Braced(a)));
            match Lookup(t, name)
            case Font => r == Out(a, |Source(name, Braced(a))|, [])
            case Alphabet(style) => r == Out(style(a), |Source(name, Braced(a))|, [])
            case Environment => r == Out("", |Source(name, Braced(a))|, [])
            case _ => true
  {
    hide Argument, Lookup;
    var front, rest, command := "\\" + name, Braced(a), Lookup(t, name);
    if command.Font? || command.Alphabet? || command.Environment? {
      OneGroupReads(t, front, a);
      assert Source(name, rest) == front + rest;
      WholeCommand(t, name, rest, Rendered(t, Source(name, rest), |name| + 1, false, command));
    }
  }

  /** A script behind a base: the forms of its code points from the operator's
      own table, or else the operator and the script as written, in braces unless it is one code point. */
  function ScriptText(t: Tables, a: string, operator: char): (r: string)
    requires operator == '^' || operator == '_'
  {
    match Mapped(t.points(a), if operator == '^' then t.superscripts else t.subscripts)
    case Some(forms) => forms
    case None => [operator] + (if |t.points(a)| == 1 then a else "{" + a + "}")
  }

  lemma ScriptSays(t: Tables, base: string, a: string, operator: char)
    requires (operator == '^' || operator == '_') && Unmarked(base) && Unmarked(a) && !t.space('{')
    ensures var src := base + [operator] + Braced(a); Parse(t, src) == Out(base + ScriptText(t, a, operator), |src|, [])
  {
    hide Argument, Mapped, Atom;
    var front := base + [operator];
    var src := front + Braced(a);
    PlainStretch(t, src, 0, |base|, false, "", []);
    assert "" + src[0..|base|] == base;
    OneGroupReads(t, front, a);
    assert src[|base|] == operator;
    assert [operator] + "{" + a + "}" == [operator] + ("{" + a + "}");
    assert Script(t, src, |base| + 1, false, operator) == Out(ScriptText(t, a, operator), |src|, []);
    NoneNested();
  }

  /** A text command shows its argument as it is written, carets and underscores included. */
  lemma TextSays(t: Tables, name: string, a: string)
    requires name != "" && (forall k | 0 <= k < |name| :: Letter(name[k])) && Lookup(t, name) == TextMode
    requires (forall k | 0 <= k < |a| :: Plain(a[k], true)) && !t.space('{')
    ensures Parse(t, Source(name, Braced(a))) == Out(a, |Source(name, Braced(a))|, [])
  {
    hide Lookup, Group;
    var src, p := Source(name, Braced(a)), |name| + 1;
    var e := p + |a| + 1;
    assert src[p] == '{' && src[e] == '}';
    assert forall k | p < k < e :: src[k] == a[k - p - 1];
    PlainGroup(t, src, p, e, true);
    assert src[p + 1..e] == a;
    WholeCommand(t, name, Braced(a), Rendered(t, src, p, false, TextMode));
  }

  /** A command that stands for a text is that text; one that nobody knows keeps its name. */
  lemma SymbolSays(t: Tables, name: string, text: string)
    requires name != "" && (forall k | 0 <= k < |name| :: Letter(name[k])) && Lookup(t, name) == Fixed(text)
    ensures Parse(t, Source(name, "")) == Out(text, |name| + 1, [])
  {
    hide Lookup;
    WholeCommand(t, name, "", Rendered(t, Source(name, ""), |name| + 1, false, Fixed(text)));
  }

  /** A backslash before anything but a letter gives what the table of escapes has for it, or the character itself. */
  lemma EscapeSays(t: Tables, c: char)
    requires !Letter(c)
    ensures Parse(t, ['\\', c]) == Out(if t.escapes(c).Some? then t.escapes(c).value else [c], 2, [])
  {
    var src, r := ['\\', c], CommandAt(t, ['\\', c], 0, false);
    assert Atom(t, src, 0, false) == r && r.pos == 2;
    NothingBefore(r);
    assert Sequence(t, src, 2, false, r.text, r.nested) == r;
  }

  /** An alignment mark is a space, unless one stands before it. */
  lemma AlignmentSays(t: Tables, a: string, b: string)
    requires Unmarked(a) && Unmarked(b)
    ensures Parse(t, a + "&" + b) == Out(if a != "" && t.space(a[|a| - 1]) then a + b else a + " " + b, |a| + 1 + |b|, [])
  {
    var src := a + "&" + b;
    PlainStretch(t, src, 0, |a|, false, "", []);
    assert "" + src[0..|a|] == a && src[|a|] == '&';
    forall k | |a| + 1 <= k < |src| ensures Plain(src[k], false) {
      assert src[k] == b[k - |a| - 1];
    }
    PlainStretch(t, src, |a| + 1, |src|, false, if EndsInSpace(t, a) then a else a + " ", []);
    assert src[|a| + 1..|src|] == b;
  }

  /** A delimiter shows as it is, but a dot is invisible. */
  lemma DelimiterSays(t: Tables, name: string, c: char)
    requires name == "left" || name == "right"
    requires Lookup(t, name) == Delimited && !Letter(c) && c != '*' && c != '\\' && !t.space(c)
    ensures Parse(t, Source(name, [c])) == Out(if c == '.' then "" else [c], |name| + 2, [])
  {
    hide Lookup;
    WholeCommand(t, name, [c], Rendered(t, Source(name, [c]), |name| + 1, false, Delimited));
  }

  /** The names that the commands above answer to, unless a table claims them. */
  lemma NamesMean(t: Tables, name: string)
    requires t.symbols(name).None? && !t.operators(name) && t.spacing(name).None? && !t.ignored(name)
    requires !t.textCommands(name) && !t.fonts(name) && t.alphabets(name).None? && t.accents(name).None?
    ensures name in {"frac", "dfrac", "tfrac", "cfrac"} <==> Lookup(t, name) == Frac
    ensures name == "binom" <==> Lookup(t, name) == Binom
    ensures name == "sqrt" <==> Lookup(t, name) == Sqrt
    ensures name == "not" <==> Lookup(t, name) == Not
    ensures name in {"begin", "end"} <==> Lookup(t, name) == Environment
    ensures name in {"stackrel", "overset"} <==> Lookup(t, name) == Overset
    ensures name == "underset" <==> Lookup(t, name) == Underset
    ensures Lookup(t, name) in {Frac, Binom, Sqrt, Not, Environment, Overset, Underset} || Lookup(t, name) == Fixed(name)
  {
  }
}
