/** The canonical text determines the value, and the value determines the text. */
module StableJsonLaws {
  import opened StableJson

  // ----- Escaping is a prefix code

  lemma HexDigitInjective(d: int, e: int)
    requires 0 <= d < 16 && 0 <= e < 16 && HexDigit(d) == HexDigit(e)
    ensures d == e
  {
  }

  lemma UnicodeInjective(c: CodeUnit, d: CodeUnit)
    requires Unicode(c) == Unicode(d)
    ensures c == d
  {
    var u, v := Unicode(c), Unicode(d);
    assert u[2] == v[2] && u[3] == v[3] && u[4] == v[4] && u[5] == v[5];
    HexDigitInjective(c / 0x1000, d / 0x1000);
    HexDigitInjective(c / 0x100 % 0x10, d / 0x100 % 0x10);
    HexDigitInjective(c / 0x10 % 0x10, d / 0x10 % 0x10);
    HexDigitInjective(c % 0x10, d % 0x10);
    FromNibbles(c);
    FromNibbles(d);
  }

  lemma FromNibbles(c: CodeUnit)
    ensures c == c / 0x1000 * 0x1000 + c / 0x100 % 0x10 * 0x100 + c / 0x10 % 0x10 * 0x10 + c % 0x10
  {
    var (a, b, d) := (c / 0x10, c / 0x100, c / 0x1000);
    assert c == a * 0x10 + c % 0x10;
    assert a == b * 0x10 + a % 0x10;
    assert b == d * 0x10 + b % 0x10;
  }

  /** How the text of a character starts: with itself, or with a backslash and a letter. */
  lemma EscapeShape(s: Text)
    requires s != []
    ensures Escape(s)[0] != QUOTE
    ensures Escape(s)[0] == BACKSLASH <==> Taken(s) == 1 && Escape(s) != [s[0]]
    ensures Escape(s)[0] != BACKSLASH ==> Escape(s) == s[..Taken(s)]
    ensures Escape(s)[0] == BACKSLASH ==> |Escape(s)| == (if Escape(s)[1] == 0x75 then 6 else 2)
    ensures Escape(s)[0] == BACKSLASH && Escape(s)[1] == 0x75 ==> Escape(s) == Unicode(s[0])
  {
  }

  lemma EscapeFirst(s: Text, t: Text, u: Text, v: Text)
    requires s != [] && t != []
    requires Escape(s) + u == Escape(t) + v
    ensures s[..Taken(s)] == t[..Taken(t)] && Escape(s) == Escape(t) && u == v
  {
    EscapeShape(s);
    EscapeShape(t);
    var a, b := Escape(s), Escape(t);
    assert a[0] == (a + u)[0] == b[0];
    assert |a| > 1 && |b| > 1 ==> a[1] == (a + u)[1] == (b + v)[1] == b[1];
    if a[0] == BACKSLASH {
      assert |a| == |b|;
      assert a == (a + u)[..|a|] == b;
      if a[1] == 0x75 {
        UnicodeInjective(s[0], t[0]);
      }
    } else {
      assert |a| == |b|;
      assert a == (a + u)[..|a|] == b;
    }
    assert u == (a + u)[|a|..] == v;
  }

  lemma EscapeHead(s: Text, x: Text)
    ensures (EscapeAll(s) + [QUOTE] + x)[0] == (if s == [] then QUOTE else Escape(s)[0])
    ensures (EscapeAll(s) + [QUOTE] + x)[0] == QUOTE <==> s == []
  {
    if s != [] {
      EscapeShape(s);
    }
  }

  lemma {:induction false} EscapeUnique(s: Text, t: Text, x: Text, y: Text)
    requires EscapeAll(s) + [QUOTE] + x == EscapeAll(t) + [QUOTE] + y
    ensures s == t && x == y
    decreases |s|
  {
    hide EscapeAll, Escape, Taken;
    EscapeHead(s, x);
    EscapeHead(t, y);
    EscapeStep(s, x);
    EscapeStep(t, y);
    if s != [] {
      var restS, restT := s[Taken(s)..], t[Taken(t)..];
      EscapeFirst(s, t, EscapeAll(restS) + [QUOTE] + x, EscapeAll(restT) + [QUOTE] + y);
      EscapeUnique(restS, restT, x, y);
      assert s == s[..Taken(s)] + restS && t == t[..Taken(t)] + restT;
    } else {
      assert ([QUOTE] + x)[1..] == x && ([QUOTE] + y)[1..] == y;
    }
  }

  lemma EscapeStep(s: Text, x: Text)
    ensures s == [] ==> EscapeAll(s) + [QUOTE] + x == [QUOTE] + x
    ensures s != [] ==> EscapeAll(s) + [QUOTE] + x == Escape(s) + (EscapeAll(s[Taken(s)..]) + [QUOTE] + x)
  {
    if s == [] {
      assert [] + [QUOTE] == [QUOTE];
    }
  }

  lemma QuotedUnique(s: Text, t: Text, x: Text, y: Text)
    requires Quoted(s) + x == Quoted(t) + y
    ensures s == t && x == y
  {
    assert (Quoted(s) + x)[1..] == EscapeAll(s) + [QUOTE] + x;
    assert (Quoted(t) + y)[1..] == EscapeAll(t) + [QUOTE] + y;
    EscapeUnique(s, t, x, y);
  }

  // ----- Numbers end where their units end

  predicate EndsNumber(x: Text) {
    x == [] || !NumberUnit(x[0])
  }

  predicate NumberText(n: Text) {
    forall k | 0 <= k < |n| :: NumberUnit(n[k])
  }

  function NumberLength(t: Text): (r: nat) {
    if t == [] || !NumberUnit(t[0]) then 0 else 1 + NumberLength(t[1..])
  }

  lemma {:induction false} NumberStops(n: Text, x: Text)
    requires NumberText(n) && EndsNumber(x)
    ensures NumberLength(n + x) == |n|
    decreases |n|
  {
    if n == [] {
      assert n + x == x;
    } else {
      assert (n + x)[1..] == n[1..] + x;
      NumberStops(n[1..], x);
    }
  }

  lemma NumberUnique(m: Text, n: Text, x: Text, y: Text)
    requires NumberText(m) && NumberText(n) && EndsNumber(x) && EndsNumber(y)
    requires m + x == n + y
    ensures m == n && x == y
  {
    NumberStops(m, x);
    NumberStops(n, y);
    assert m == (m + x)[..|m|] == n;
    assert x == (m + x)[|m|..] == y;
  }

  // ----- The order of keys

  lemma {:induction false} LessTrans(a: Text, b: Text, c: Text)
    requires Less(a, b) && Less(b, c)
    ensures Less(a, c)
    decreases |a|
  {
    if a != [] && a[0] == b[0] && b[0] == c[0] {
      LessTrans(a[1..], b[1..], c[1..]);
    }
  }

  lemma {:induction false} LessIrreflexive(a: Text)
    ensures !Less(a, a)
    decreases |a|
  {
    if a != [] {
      LessIrreflexive(a[1..]);
    }
  }

  lemma {:induction false} LessTotal(a: Text, b: Text)
    ensures a == b || Less(a, b) || Less(b, a)
    decreases |a|
  {
    if a != [] && b != [] && a[0] == b[0] {
      LessTotal(a[1..], b[1..]);
      assert a == [a[0]] + a[1..] && b == [b[0]] + b[1..];
    }
  }

  lemma {:induction false} InsertSorted(f: Field, sorted: seq<Field>)
    requires Sorted(sorted) && forall g <- sorted :: g.key != f.key
    ensures Sorted(Insert(f, sorted))
    ensures forall g <- Insert(f, sorted) :: g == f || g in sorted
    decreases |sorted|
  {
    if sorted != [] {
      var head, tail := sorted[0], sorted[1..];
      if Less(f.key, head.key) {
        forall j | 1 <= j < |sorted| ensures Less(f.key, sorted[j].key) {
          LessTrans(f.key, head.key, sorted[j].key);
        }
      } else {
        LessTotal(f.key, head.key);
        InsertSorted(f, tail);
        var r := Insert(f, tail);
        forall j | 0 <= j < |r| ensures Less(head.key, r[j].key) {
          assert r[j] == f || r[j] in tail;
        }
      }
    }
  }

  lemma {:induction false} SortSorted(fields: seq<Field>)
    requires DistinctKeys(fields)
    ensures Sorted(Sort(fields))
    decreases |fields|
  {
    if fields != [] {
      SortSorted(fields[1..]);
      forall g <- Sort(fields[1..]) ensures g.key != fields[0].key {
        assert g in multiset(Sort(fields[1..]));
        assert g in fields[1..];
      }
      InsertSorted(fields[0], Sort(fields[1..]));
    }
  }

  lemma {:induction false} DefinedDistinct(fields: seq<Field>)
    requires DistinctKeys(fields)
    ensures DistinctKeys(Defined(fields))
    decreases |fields|
  {
    if fields != [] {
      DefinedDistinct(fields[1..]);
      assert forall f <- Defined(fields[1..]) :: f in fields[1..];
    }
  }

  lemma EntriesSorted(fields: seq<Field>)
    requires DistinctKeys(fields)
    ensures Sorted(Entries(fields))
  {
    DefinedDistinct(fields);
    SortSorted(Defined(fields));
  }

  ghost predicate HasKey(fields: seq<Field>, k: Text) {
    exists i :: 0 <= i < |fields| && fields[i].key == k
  }

  ghost predicate SameKeys(a: seq<Field>, b: seq<Field>) {
    forall k :: HasKey(a, k) <==> HasKey(b, k)
  }

  /** In sorted entries the first key is the smallest, and occurs only there. */
  lemma FirstIsSmallest(a: seq<Field>, k: Text)
    requires Sorted(a) && a != []
    ensures HasKey(a, k) <==> k == a[0].key || HasKey(a[1..], k)
    ensures HasKey(a[1..], k) ==> Less(a[0].key, k) && k != a[0].key
    ensures HasKey(a, a[0].key)
  {
    LessIrreflexive(k);
    if i :| 0 <= i < |a| && a[i].key == k && i > 0 {
      assert a[1..][i - 1].key == k;
    }
    if i :| 0 <= i < |a[1..]| && a[1..][i].key == k {
      assert a[i + 1].key == k && Less(a[0].key, a[i + 1].key);
    }
  }

  lemma SmallestAgree(a: seq<Field>, b: seq<Field>)
    requires Sorted(a) && Sorted(b) && SameKeys(a, b) && a != [] && b != []
    ensures a[0].key == b[0].key
  {
    FirstIsSmallest(a, a[0].key);
    FirstIsSmallest(a, b[0].key);
    FirstIsSmallest(b, a[0].key);
    FirstIsSmallest(b, b[0].key);
    if a[0].key != b[0].key {
      LessTrans(a[0].key, b[0].key, a[0].key);
      LessIrreflexive(a[0].key);
    }
  }

  /** Sorted entries with the same keys have them at the same places. */
  lemma {:induction false} SortedAgree(a: seq<Field>, b: seq<Field>)
    requires Sorted(a) && Sorted(b) && SameKeys(a, b)
    ensures |a| == |b| && forall i | 0 <= i < |a| :: a[i].key == b[i].key
    decreases |a|
  {
    if a != [] && b != [] {
      SmallestAgree(a, b);
      forall k ensures HasKey(a[1..], k) <==> HasKey(b[1..], k) {
        FirstIsSmallest(a, k);
        FirstIsSmallest(b, k);
      }
      SortedAgree(a[1..], b[1..]);
      assert forall i | 0 < i < |a| :: a[i] == a[1..][i - 1] && b[i] == b[1..][i - 1];
    } else if a != [] {
      assert HasKey(a, a[0].key);
    } else if b != [] {
      assert HasKey(b, b[0].key);
    }
  }

  // ----- The text determines the value

  datatype Kind = KNull | KBool | KNumber | KStr | KArr | KObj

  function KindOf(j: Json): (r: Kind) {
    match j
    case Bool(_) => KBool
    case Number(_) => KNumber
    case Str(_) => KStr
    case Arr(_) => KArr
    case Obj(_) => KObj
    case _ => KNull
  }

  function HeadKind(c: CodeUnit): (r: Kind) {
    if c == QUOTE then KStr
    else if c == OPEN_ARRAY then KArr
    else if c == OPEN_OBJECT then KObj
    else if c == 0x6E then KNull
    else if c == 0x74 || c == 0x66 then KBool
    else KNumber
  }

  /** The first unit of a text tells the kind of the value. */
  lemma PrintHead(j: Json, x: Text)
    requires WellFormed(j)
    ensures StableStringify(j) != []
    ensures (StableStringify(j) + x)[0] == StableStringify(j)[0]
    ensures HeadKind(StableStringify(j)[0]) == KindOf(j)
    ensures StableStringify(j)[0] !in [COMMA, CLOSE_ARRAY, CLOSE_OBJECT]
  {
  }

  /** Splitting the text of a list of items after its first item. */
  lemma ItemsStep(items: seq<Json>, first: bool, x: Text)
    ensures PrintItems(items, first) + [CLOSE_ARRAY] + x
            == if items == [] then [CLOSE_ARRAY] + x
               else Separator(first) + (StableStringify(items[0]) + (PrintItems(items[1..], false) + [CLOSE_ARRAY] + x))
  {
    hide StableStringify;
    if items == [] {
      assert [] + [CLOSE_ARRAY] == [CLOSE_ARRAY];
    } else {
      Regroup(Separator(first), StableStringify(items[0]), PrintItems(items[1..], false), [CLOSE_ARRAY], x);
    }
  }

  lemma Regroup(a: Text, b: Text, c: Text, d: Text, x: Text)
    ensures a + b + c + d + x == a + (b + (c + d + x))
  {
  }

  lemma ItemsHead(items: seq<Json>, first: bool, x: Text)
    requires forall i | 0 <= i < |items| :: WellFormed(items[i])
    ensures var t := PrintItems(items, first) + [CLOSE_ARRAY] + x;
            && t != [] && (t[0] == CLOSE_ARRAY <==> items == [])
            && (!first ==> EndsNumber(t))
  {
    ItemsStep(items, first, x);
    if items != [] {
      PrintHead(items[0], PrintItems(items[1..], false) + [CLOSE_ARRAY] + x);
    }
  }

  lemma FieldsStep(owner: Json, entries: seq<Field>, first: bool, x: Text)
    requires owner.Obj? && forall f <- entries :: f in owner.fields
    ensures PrintFields(owner, entries, first) + [CLOSE_OBJECT] + x
            == if entries == [] then [CLOSE_OBJECT] + x
               else Separator(first) + (Quoted(entries[0].key) + ([COLON] + (StableStringify(entries[0].value)
                      + (PrintFields(owner, entries[1..], false) + [CLOSE_OBJECT] + x))))
  {
    hide StableStringify, Quoted, PrintFields;
    FieldsUnfold(owner, entries, first);
    if entries == [] {
      assert [] + [CLOSE_OBJECT] == [CLOSE_OBJECT];
    } else {
      Reassociate(Separator(first), Quoted(entries[0].key), StableStringify(entries[0].value),
                  PrintFields(owner, entries[1..], false), [CLOSE_OBJECT], x);
    }
  }

  lemma FieldsUnfold(owner: Json, entries: seq<Field>, first: bool)
    requires owner.Obj? && forall f <- entries :: f in owner.fields
    ensures PrintFields(owner, entries, first)
            == if entries == [] then []
               else Separator(first) + Quoted(entries[0].key) + [COLON] + StableStringify(entries[0].value)
                    + PrintFields(owner, entries[1..], false)
  {
    hide StableStringify, Quoted;
  }

  lemma Reassociate(head: Text, key: Text, value: Text, rest: Text, end: Text, x: Text)
    ensures head + key + [COLON] + value + rest + end + x == head + (key + ([COLON] + (value + (rest + end + x))))
  {
  }

  lemma FieldsHead(owner: Json, entries: seq<Field>, first: bool, x: Text)
    requires owner.Obj? && forall f <- entries :: f in owner.fields
    ensures var t := PrintFields(owner, entries, first) + [CLOSE_OBJECT] + x;
            && t != [] && (t[0] == CLOSE_OBJECT <==> entries == [])
            && (!first ==> EndsNumber(t))
  {
    FieldsStep(owner, entries, first, x);
  }

  lemma Strip(prefix: Text, u: Text, v: Text)
    requires prefix + u == prefix + v
    ensures u == v
  {
    assert u == (prefix + u)[|prefix|..] == v;
  }

  lemma {:induction false} TextUnique(a: Json, b: Json, x: Text, y: Text)
    requires WellFormed(a) && WellFormed(b) && EndsNumber(x) && EndsNumber(y)
    requires StableStringify(a) + x == StableStringify(b) + y
    ensures Meaning(a) == Meaning(b) && x == y
    decreases a, 2
  {
    hide PrintItems, PrintFields, Quoted, Entries;
    PrintHead(a, x);
    PrintHead(b, y);
    assert KindOf(a) == KindOf(b);
    match a
    case Bool(p) =>
      assert (StableStringify(a) + x)[0] == if p then 0x74 else 0x66;
      Strip(StableStringify(a), x, y);
    case Number(m) => NumberUnique(m, b.lexeme, x, y);
    case Str(s) => QuotedUnique(s, b.s, x, y);
    case Arr(items) =>
      assert StableStringify(a) + x == [OPEN_ARRAY] + (PrintItems(items, true) + [CLOSE_ARRAY] + x);
      assert StableStringify(b) + y == [OPEN_ARRAY] + (PrintItems(b.items, true) + [CLOSE_ARRAY] + y);
      Strip([OPEN_ARRAY], PrintItems(items, true) + [CLOSE_ARRAY] + x, PrintItems(b.items, true) + [CLOSE_ARRAY] + y);
      ItemsUnique(items, b.items, true, x, y);
    case Obj(_) => ObjectUnique(a, b, x, y);
    case _ => Strip(NULL_TEXT, x, y);
  }

  lemma {:induction false} ItemsUnique(r: seq<Json>, s: seq<Json>, first: bool, x: Text, y: Text)
    requires forall i | 0 <= i < |r| :: WellFormed(r[i])
    requires forall i | 0 <= i < |s| :: WellFormed(s[i])
    requires PrintItems(r, first) + [CLOSE_ARRAY] + x == PrintItems(s, first) + [CLOSE_ARRAY] + y
    ensures Meanings(r) == Meanings(s) && x == y
    decreases r, 0
  {
    hide PrintItems, StableStringify, Meaning, WellFormed;
    ItemsHead(r, first, x);
    ItemsHead(s, first, y);
    ItemsStep(r, first, x);
    ItemsStep(s, first, y);
    if r == [] {
      Strip([CLOSE_ARRAY], x, y);
    } else {
      var u, v := PrintItems(r[1..], false) + [CLOSE_ARRAY] + x, PrintItems(s[1..], false) + [CLOSE_ARRAY] + y;
      Strip(Separator(first), StableStringify(r[0]) + u, StableStringify(s[0]) + v);
      ItemsHead(r[1..], false, x);
      ItemsHead(s[1..], false, y);
      TextUnique(r[0], s[0], u, v);
      ItemsUnique(r[1..], s[1..], false, x, y);
    }
  }

  /** Entries agree in keys and in what their values mean. */
  ghost predicate Agree(d: seq<Field>, e: seq<Field>) {
    |d| == |e| && forall i | 0 <= i < |d| :: d[i].key == e[i].key && Meaning(d[i].value) == Meaning(e[i].value)
  }

  lemma AgreeCons(d: seq<Field>, e: seq<Field>)
    requires d != [] && e != [] && Agree(d[1..], e[1..])
    requires d[0].key == e[0].key && Meaning(d[0].value) == Meaning(e[0].value)
    ensures Agree(d, e)
  {
    forall i | 0 < i < |d| ensures d[i].key == e[i].key && Meaning(d[i].value) == Meaning(e[i].value) {
      assert d[i] == d[1..][i - 1] && e[i] == e[1..][i - 1];
    }
  }

  lemma {:induction false} FieldsUnique(a: Json, d: seq<Field>, b: Json, e: seq<Field>, first: bool, x: Text, y: Text)
    requires a.Obj? && b.Obj? && WellFormed(a) && WellFormed(b)
    requires (forall f <- d :: f in a.fields) && (forall f <- e :: f in b.fields)
    requires PrintFields(a, d, first) + [CLOSE_OBJECT] + x == PrintFields(b, e, first) + [CLOSE_OBJECT] + y
    ensures Agree(d, e) && x == y
    decreases a, 0, |d|
  {
    hide PrintFields, StableStringify, Meaning, Quoted;
    FieldsHead(a, d, first, x);
    FieldsHead(b, e, first, y);
    FieldsStep(a, d, first, x);
    FieldsStep(b, e, first, y);
    if d == [] {
      Strip([CLOSE_OBJECT], x, y);
    } else {
      var u, v := PrintFields(a, d[1..], false) + [CLOSE_OBJECT] + x, PrintFields(b, e[1..], false) + [CLOSE_OBJECT] + y;
      var f, g := d[0], e[0];
      assert f in a.fields && g in b.fields;
      var p, q := StableStringify(f.value) + u, StableStringify(g.value) + v;
      Strip(Separator(first), Quoted(f.key) + ([COLON] + p), Quoted(g.key) + ([COLON] + q));
      QuotedUnique(f.key, g.key, [COLON] + p, [COLON] + q);
      Strip([COLON], p, q);
      FieldsHead(a, d[1..], false, x);
      FieldsHead(b, e[1..], false, y);
      TextUnique(f.value, g.value, u, v);
      FieldsUnique(a, d[1..], b, e[1..], false, x, y);
      AgreeCons(d, e);
    }
  }

  lemma {:induction false} ObjectUnique(a: Json, b: Json, x: Text, y: Text)
    requires a.Obj? && b.Obj? && WellFormed(a) && WellFormed(b)
    requires StableStringify(a) + x == StableStringify(b) + y
    ensures Meaning(a) == Meaning(b) && x == y
    decreases a, 1
  {
    hide PrintFields, Entries;
    var d, e := Entries(a.fields), Entries(b.fields);
    assert StableStringify(a) + x == [OPEN_OBJECT] + (PrintFields(a, d, true) + [CLOSE_OBJECT] + x);
    assert StableStringify(b) + y == [OPEN_OBJECT] + (PrintFields(b, e, true) + [CLOSE_OBJECT] + y);
    Strip([OPEN_OBJECT], PrintFields(a, d, true) + [CLOSE_OBJECT] + x, PrintFields(b, e, true) + [CLOSE_OBJECT] + y);
    FieldsUnique(a, d, b, e, true, x, y);
    AgreeingMeanings(a.fields, b.fields);
  }

  /** Objects whose entries agree mean the same map. */
  lemma AgreeingMeanings(fs: seq<Field>, gs: seq<Field>)
    requires DistinctKeys(fs) && DistinctKeys(gs) && Agree(Entries(fs), Entries(gs))
    ensures FieldMeanings(fs) == FieldMeanings(gs)
  {
    hide Meaning, FieldMeanings, Entries;
    MeaningsWithin(fs, gs);
    MeaningsWithin(gs, fs);
  }

  lemma MeaningsWithin(fs: seq<Field>, gs: seq<Field>)
    requires DistinctKeys(fs) && DistinctKeys(gs) && Agree(Entries(fs), Entries(gs))
    ensures forall k <- FieldMeanings(fs) :: k in FieldMeanings(gs) && FieldMeanings(gs)[k] == FieldMeanings(fs)[k]
    ensures Agree(Entries(gs), Entries(fs))
  {
    hide Meaning, FieldMeanings, Entries;
    var d, e := Entries(fs), Entries(gs);
    forall k <- FieldMeanings(fs) ensures k in FieldMeanings(gs) && FieldMeanings(gs)[k] == FieldMeanings(fs)[k] {
      var f :| f in fs && f.key == k && !f.value.Undefined?;
      assert f in d;
      var i :| 0 <= i < |d| && d[i] == f;
      assert e[i] in e;
    }
  }

  // ----- The value determines the text

  lemma {:induction false} TextCanonical(a: Json, b: Json)
    requires WellFormed(a) && WellFormed(b) && Meaning(a) == Meaning(b)
    ensures StableStringify(a) == StableStringify(b)
    decreases a, 2
  {
    hide PrintItems, PrintFields, Quoted, Entries;
    match a
    case Arr(items) => ItemsCanonical(items, b.items, true);
    case Obj(_) =>
      EntriesAgree(a.fields, b.fields);
      FieldsCanonical(a, Entries(a.fields), b, Entries(b.fields), true);
    case _ =>
  }

  lemma {:induction false} ItemsCanonical(r: seq<Json>, s: seq<Json>, first: bool)
    requires forall i | 0 <= i < |r| :: WellFormed(r[i])
    requires forall i | 0 <= i < |s| :: WellFormed(s[i])
    requires Meanings(r) == Meanings(s)
    ensures PrintItems(r, first) == PrintItems(s, first)
    decreases r, 0
  {
    hide StableStringify, Meaning, WellFormed;
    assert |r| == |Meanings(r)| == |s|;
    if r != [] {
      assert Meaning(r[0]) == Meanings(r)[0] == Meaning(s[0]);
      TextCanonical(r[0], s[0]);
      assert Meanings(r)[1..] == Meanings(r[1..]) && Meanings(s)[1..] == Meanings(s[1..]);
      ItemsCanonical(r[1..], s[1..], false);
    }
  }

  lemma {:induction false} FieldsCanonical(a: Json, d: seq<Field>, b: Json, e: seq<Field>, first: bool)
    requires a.Obj? && b.Obj? && WellFormed(a) && WellFormed(b)
    requires (forall f <- d :: f in a.fields) && (forall f <- e :: f in b.fields)
    requires Agree(d, e)
    ensures PrintFields(a, d, first) == PrintFields(b, e, first)
    decreases a, 0, |d|
  {
    hide StableStringify, Meaning, Quoted;
    if d != [] {
      assert d[0] in a.fields && e[0] in b.fields;
      TextCanonical(d[0].value, e[0].value);
      assert forall i | 0 <= i < |d[1..]| :: d[1..][i] == d[i + 1] && e[1..][i] == e[i + 1];
      FieldsCanonical(a, d[1..], b, e[1..], false);
    }
  }

  lemma EntryKeys(fs: seq<Field>, k: Text)
    requires DistinctKeys(fs)
    ensures HasKey(Entries(fs), k) <==> k in FieldMeanings(fs)
  {
    hide FieldMeanings, Meaning, Entries;
    var d := Entries(fs);
    if i :| 0 <= i < |d| && d[i].key == k {
      assert d[i] in d;
    }
    if k in FieldMeanings(fs) {
      var f :| f in fs && f.key == k && !f.value.Undefined?;
      assert f in d;
      var i :| 0 <= i < |d| && d[i] == f;
    }
  }

  /** Objects that mean the same map have agreeing entries. */
  lemma EntriesAgree(fs: seq<Field>, gs: seq<Field>)
    requires DistinctKeys(fs) && DistinctKeys(gs) && FieldMeanings(fs) == FieldMeanings(gs)
    ensures Agree(Entries(fs), Entries(gs))
  {
    hide FieldMeanings, Meaning, Entries;
    var d, e := Entries(fs), Entries(gs);
    EntriesSorted(fs);
    EntriesSorted(gs);
    forall k ensures HasKey(d, k) <==> HasKey(e, k) {
      EntryKeys(fs, k);
      EntryKeys(gs, k);
    }
    SortedAgree(d, e);
    forall i | 0 <= i < |d| ensures Meaning(d[i].value) == Meaning(e[i].value) {
      assert d[i] in d && e[i] in e;
      assert d[i] in fs && e[i] in gs;
    }
  }

  /** The printer is canonical and injective: two values print the same text if
      and only if they are equal up to what JSON can express, undefined fields
      and the order of keys aside. */
  lemma StableStringifyCanonical(a: Json, b: Json)
    requires WellFormed(a) && WellFormed(b)
    ensures StableStringify(a) == StableStringify(b) <==> Meaning(a) == Meaning(b)
  {
    hide StableStringify, Meaning, WellFormed;
    if Meaning(a) == Meaning(b) {
      TextCanonical(a, b);
    }
    if StableStringify(a) == StableStringify(b) {
      assert StableStringify(a) + [] == StableStringify(a) && StableStringify(b) + [] == StableStringify(b);
      TextUnique(a, b, [], []);
    }
  }
}
