/** The canonical text, read back: what the printer writes is what RFC 8259 says
    it means, with the keys in lexicographic order. */
module StableJsonText {
  import opened StableJson
  import opened StableJsonLaws

  // ----- Strings, as section 7 of RFC 8259 reads them

  /** The value of a hexadecimal digit. */
  function HexValue(c: CodeUnit): (r: int)
    ensures -1 <= r < 16
  {
    if 0x30 <= c <= 0x39 then c - 0x30
    else if 0x41 <= c <= 0x46 then c - 0x41 + 10
    else if 0x61 <= c <= 0x66 then c - 0x61 + 10
    else -1
  }

  /** What a two-unit escape stands for, or -1. */
  function Short(c: CodeUnit): (r: int)
    ensures -1 <= r < 0x1_0000
  {
    if c == 0x22 || c == 0x5C || c == 0x2F then c
    else if c == 0x62 then 8
    else if c == 0x66 then 12
    else if c == 0x6E then 10
    else if c == 0x72 then 13
    else if c == 0x74 then 9
    else -1
  }

  /** The units that the inside of a string stands for; -1 ends it where it is malformed. */
  function Read(t: seq<CodeUnit>): (units: seq<int>)
    decreases |t|
  {
    if t == [] then []
    else if t[0] != 0x5C then (if t[0] == 0x22 || t[0] < 0x20 then [-1] else [t[0]] + Read(t[1..]))
    else if |t| >= 6 && t[1] == 0x75 then
      var (a, b, c, d) := (HexValue(t[2]), HexValue(t[3]), HexValue(t[4]), HexValue(t[5]));
      if a < 0 || b < 0 || c < 0 || d < 0 then [-1]
      else [a * 0x1000 + b * 0x100 + c * 0x10 + d] + Read(t[6..])
    else if |t| >= 2 && Short(t[1]) >= 0 then [Short(t[1])] + Read(t[2..])
    else [-1]
  }

  lemma HexReads(d: int)
    requires 0 <= d < 16
    ensures HexValue(HexDigit(d)) == d
  {
  }

  /** The text of a character reads as that character, whatever follows it. */
  lemma EscapeReads(s: Text, rest: Text)
    requires s != []
    ensures Read(Escape(s) + rest) == s[..Taken(s)] + Read(rest)
  {
    hide Read;
    var c, e := s[0], Escape(s);
    if Taken(s) == 2 {
      assert s[..2] == [s[0], s[1]] && e == [s[0], s[1]];
      ReadPlain(s[0], [s[1]] + rest);
      ReadPlain(s[1], rest);
      assert e + rest == [s[0]] + ([s[1]] + rest);
      assert [s[0]] + ([s[1]] + Read(rest)) == s[..2] + Read(rest);
    } else {
      assert s[..1] == [c];
      if e == Unicode(c) {
        ReadUnicode(c, rest);
      } else if e == [c] {
        ReadPlain(c, rest);
      } else {
        ReadShort(e[1], rest);
      }
    }
  }

  lemma ReadPlain(c: CodeUnit, rest: Text)
    requires c != 0x5C && c != 0x22 && c >= 0x20
    ensures Read([c] + rest) == [c] + Read(rest)
  {
    assert ([c] + rest)[1..] == rest;
  }

  lemma ReadShort(c: CodeUnit, rest: Text)
    requires Short(c) >= 0
    ensures Read([BACKSLASH, c] + rest) == [Short(c)] + Read(rest)
  {
    var t := [BACKSLASH, c] + rest;
    assert t[1] == c && t[2..] == rest;
  }

  lemma ReadUnicode(c: CodeUnit, rest: Text)
    ensures Read(Unicode(c) + rest) == [c] + Read(rest)
  {
    var t := Unicode(c) + rest;
    HexReads(c / 0x1000);
    HexReads(c / 0x100 % 0x10);
    HexReads(c / 0x10 % 0x10);
    HexReads(c % 0x10);
    FromNibbles(c);
    assert t[0] == BACKSLASH && t[1] == 0x75 && t[2] == Unicode(c)[2] && t[3] == Unicode(c)[3] && t[4] == Unicode(c)[4] && t[5] == Unicode(c)[5];
    assert t[6..] == rest;
  }

  /** A printed string is its quotation marks and an inside that reads as the string. */
  lemma {:induction false} StringReads(s: Text)
    ensures Quoted(s) == [0x22] + EscapeAll(s) + [0x22]
    ensures Read(EscapeAll(s)) == s
    decreases |s|
  {
    hide Read;
    if s == [] {
      ReadNothing();
    } else {
      StringReads(s[Taken(s)..]);
      EscapeReads(s, EscapeAll(s[Taken(s)..]));
      assert s[..Taken(s)] + s[Taken(s)..] == s;
    }
  }

  lemma ReadNothing()
    ensures Read([]) == [] && EscapeAll([]) == []
  {
  }

  /** How a unit that needs no escape is printed: as it is; the five that have a
      short escape have it, and the others are four lower-case hexadecimal digits. */
  lemma EscapesAreShortest(c: CodeUnit)
    ensures |Escape([c])| == if c in {0x22, 0x5C, 0x08, 0x09, 0x0A, 0x0C, 0x0D} then 2
                             else if c < 0x20 || 0xD800 <= c <= 0xDFFF then 6 else 1
    ensures forall k | 2 <= k < |Escape([c])| :: 0x30 <= Escape([c])[k] <= 0x39 || 0x61 <= Escape([c])[k] <= 0x66
  {
  }

  // ----- Key order

  /** The first unit at which two keys differ decides, and a key comes before its continuations. */
  predicate Before(a: Text, b: Text) {
    exists k | 0 <= k <= |a| :: k < |b| && a[..k] == b[..k] && (k == |a| || a[k] < b[k])
  }

  lemma OneMoreShared(a: Text, b: Text, k: nat)
    requires a != [] && b != [] && a[0] == b[0] && k < |a| && k < |b| && a[1..][..k] == b[1..][..k]
    ensures a[..k + 1] == b[..k + 1]
  {
    assert a[..k + 1] == [a[0]] + a[1..][..k];
    assert b[..k + 1] == [b[0]] + b[1..][..k];
  }

  lemma {:induction false} LessIsLexicographic(a: Text, b: Text)
    ensures Less(a, b) <==> Before(a, b)
    decreases |a|
  {
    if a == [] {
      if b != [] {
        assert a[..0] == b[..0];
      }
    } else if b != [] {
      LessIsLexicographic(a[1..], b[1..]);
      if Before(a[1..], b[1..]) && a[0] == b[0] {
        var k :| 0 <= k <= |a[1..]| && k < |b[1..]| && a[1..][..k] == b[1..][..k] && (k == |a[1..]| || a[1..][k] < b[1..][k]);
        OneMoreShared(a, b, k);
      }
      if Before(a, b) {
        var k :| 0 <= k <= |a| && k < |b| && a[..k] == b[..k] && (k == |a| || a[k] < b[k]);
        if k > 0 {
          assert a[0] == a[..k][0] == b[..k][0] == b[0];
          assert a[1..][..k - 1] == a[..k][1..] && b[1..][..k - 1] == b[..k][1..];
        }
      }
      if a[0] < b[0] {
        assert a[..0] == b[..0];
      }
    }
  }

  // ----- Arrays and objects

  /** Texts with commas between them. */
  function Joined(parts: seq<Text>): (r: Text) {
    if parts == [] then [] else if |parts| == 1 then parts[0] else parts[0] + [0x2C] + Joined(parts[1..])
  }

  function Texts(items: seq<Json>): (ts: seq<Text>)
    ensures |ts| == |items| && forall i | 0 <= i < |ts| :: ts[i] == StableStringify(items[i])
  {
    seq(|items|, i requires 0 <= i < |items| => StableStringify(items[i]))
  }

  function EntryText(f: Field): (t: Text) {
    Quoted(f.key) + [0x3A] + StableStringify(f.value)
  }

  function EntryTexts(fields: seq<Field>): (ts: seq<Text>)
    ensures |ts| == |fields| && forall i | 0 <= i < |ts| :: ts[i] == EntryText(fields[i])
  {
    seq(|fields|, i requires 0 <= i < |fields| => EntryText(fields[i]))
  }

  /** An array is its items' texts, with commas between them, in brackets. */
  lemma ArraySays(items: seq<Json>)
    ensures StableStringify(Arr(items)) == [0x5B] + Joined(Texts(items)) + [0x5D]
  {
    hide PrintItems, Joined, Texts;
    ItemsJoin(items, true);
    NoItemsJoin();
  }

  lemma NoItemsJoin()
    ensures Joined(Texts([])) == []
  {
  }

  lemma {:induction false} ItemsJoin(items: seq<Json>, first: bool)
    ensures PrintItems(items, first) == if items == [] then [] else (if first then [] else [0x2C]) + Joined(Texts(items))
    decreases |items|
  {
    if items != [] {
      hide StableStringify, PrintItems, Joined;
      ItemsJoin(items[1..], false);
      ItemsUnfold(items, first);
      ItemsUnjoin(items);
      ItemRegroups(if first then [] else [0x2C], StableStringify(items[0]), Joined(Texts(items[1..])));
    }
  }

  lemma ItemsUnfold(items: seq<Json>, first: bool)
    requires items != []
    ensures PrintItems(items, first) == (if first then [] else [0x2C]) + StableStringify(items[0]) + PrintItems(items[1..], false)
  {
    hide StableStringify;
  }

  lemma ItemsUnjoin(items: seq<Json>)
    requires items != []
    ensures Joined(Texts(items))
            == if |items| == 1 then StableStringify(items[0]) else StableStringify(items[0]) + [0x2C] + Joined(Texts(items[1..]))
  {
    hide StableStringify;
    assert Texts(items)[1..] == Texts(items[1..]);
  }

  lemma ItemRegroups(head: Text, item: Text, rest: Text)
    ensures head + item + [] == head + item
    ensures head + item + ([0x2C] + rest) == head + (item + [0x2C] + rest)
  {
  }

  /** An object is the texts of its entries with a defined value, a key, a colon
      and the value's text each, with commas between them, in braces; the keys ascend. */
  lemma ObjectSays(fields: seq<Field>)
    requires DistinctKeys(fields)
    ensures var entries := Entries(fields);
            && StableStringify(Obj(fields)) == [0x7B] + Joined(EntryTexts(entries)) + [0x7D]
            && (forall f :: f in entries <==> f in fields && !f.value.Undefined?)
            && (forall i, j | 0 <= i < j < |entries| :: Before(entries[i].key, entries[j].key))
  {
    hide Less, Entries, PrintFields, Joined, EntryTexts;
    var entries := Entries(fields);
    ObjectPrints(fields, entries);
    EntriesAscend(fields, entries);
  }

  lemma ObjectPrints(fields: seq<Field>, entries: seq<Field>)
    requires entries == Entries(fields)
    ensures StableStringify(Obj(fields)) == [0x7B] + Joined(EntryTexts(entries)) + [0x7D]
  {
    hide Entries, PrintFields, Joined, EntryTexts;
    FieldsJoin(Obj(fields), entries, true);
    NoEntriesJoin();
  }

  lemma NoEntriesJoin()
    ensures Joined(EntryTexts([])) == []
  {
  }

  lemma EntriesAscend(fields: seq<Field>, entries: seq<Field>)
    requires DistinctKeys(fields) && entries == Entries(fields)
    ensures forall i, j | 0 <= i < j < |entries| :: Before(entries[i].key, entries[j].key)
  {
    hide Less, Entries, Before;
    EntriesSorted(fields);
    forall i, j | 0 <= i < j < |entries| ensures Before(entries[i].key, entries[j].key) {
      LessIsLexicographic(entries[i].key, entries[j].key);
    }
  }

  lemma {:induction false} FieldsJoin(owner: Json, entries: seq<Field>, first: bool)
    requires owner.Obj? && forall f <- entries :: f in owner.fields
    ensures PrintFields(owner, entries, first) == if entries == [] then [] else (if first then [] else [0x2C]) + Joined(EntryTexts(entries))
    decreases |entries|
  {
    if entries != [] {
      hide StableStringify, Quoted, PrintFields;
      FieldsJoin(owner, entries[1..], false);
      FieldsUnfold(owner, entries, first);
      EntriesUnjoin(entries);
      EntryRegroups(Separator(first), Quoted(entries[0].key), StableStringify(entries[0].value), Joined(EntryTexts(entries[1..])));
    }
  }

  lemma EntriesUnjoin(entries: seq<Field>)
    requires entries != []
    ensures Joined(EntryTexts(entries))
            == if |entries| == 1 then EntryText(entries[0]) else EntryText(entries[0]) + [0x2C] + Joined(EntryTexts(entries[1..]))
  {
    hide EntryText;
    assert EntryTexts(entries)[1..] == EntryTexts(entries[1..]);
  }

  lemma EntryRegroups(head: Text, key: Text, value: Text, rest: Text)
    ensures head + key + [COLON] + value + [] == head + (key + [0x3A] + value)
    ensures head + key + [COLON] + value + ([0x2C] + rest) == head + ((key + [0x3A] + value) + [0x2C] + rest)
  {
  }

  /** The literals; a number is its own text, and whatever JSON cannot express is null. */
  lemma LiteralsSay(j: Json)
    ensures j == Bool(true) ==> StableStringify(j) == [0x74, 0x72, 0x75, 0x65]
    ensures j == Bool(false) ==> StableStringify(j) == [0x66, 0x61, 0x6C, 0x73, 0x65]
    ensures j.Number? ==> StableStringify(j) == j.lexeme
    ensures j.Null? || j.Undefined? || j.NotFinite? || j.Opaque? ==> StableStringify(j) == [0x6E, 0x75, 0x6C, 0x6C]
  {
  }
}
