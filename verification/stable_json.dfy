/** The canonical JSON text of a value: strings of UTF-16 code units, escaped as
    in section 7 of RFC 8259, object keys in code-unit order. */
module StableJson {
  type CodeUnit = c: int | 0 <= c < 0x1_0000

  type Text = seq<CodeUnit>

  datatype Field = Field(key: Text, value: Json)

  /** A value handed to the printer. A finite number is the text JavaScript gives
      it; `NotFinite` and `Opaque` (functions, symbols) have no JSON form. */
  datatype Json =
    | Undefined
    | Null
    | NotFinite
    | Opaque
    | Bool(b: bool)
    | Number(lexeme: Text)
    | Str(s: Text)
    | Arr(items: seq<Json>)
    | Obj(fields: seq<Field>)

  const QUOTE: CodeUnit := 0x22
  const COMMA: CodeUnit := 0x2C
  const COLON: CodeUnit := 0x3A
  const OPEN_ARRAY: CodeUnit := 0x5B
  const BACKSLASH: CodeUnit := 0x5C
  const CLOSE_ARRAY: CodeUnit := 0x5D
  const OPEN_OBJECT: CodeUnit := 0x7B
  const CLOSE_OBJECT: CodeUnit := 0x7D
  const NULL_TEXT: Text := [0x6E, 0x75, 0x6C, 0x6C]
  const TRUE_TEXT: Text := [0x74, 0x72, 0x75, 0x65]
  const FALSE_TEXT: Text := [0x66, 0x61, 0x6C, 0x73, 0x65]

  /** Digits, signs, the decimal point and the exponent mark. */
  predicate NumberUnit(c: CodeUnit) {
    0x30 <= c <= 0x39 || c == 0x2B || c == 0x2D || c == 0x2E || c == 0x45 || c == 0x65
  }

  /** What every JavaScript value is: numbers print as number text, keys are distinct. */
  predicate WellFormed(j: Json) {
    match j
    case Number(lexeme) => lexeme != [] && forall k | 0 <= k < |lexeme| :: NumberUnit(lexeme[k])
    case Arr(items) => forall i | 0 <= i < |items| :: WellFormed(items[i])
    case Obj(fields) => DistinctKeys(fields) && forall i | 0 <= i < |fields| :: WellFormed(fields[i].value)
    case _ => true
  }

  predicate DistinctKeys(fields: seq<Field>) {
    forall i, j | 0 <= i < j < |fields| :: fields[i].key != fields[j].key
  }

  // ----- Strings

  function HexDigit(d: int): (r: CodeUnit)
    requires 0 <= d < 16
  {
    if d < 10 then 0x30 + d else 0x61 + d - 10
  }

  function Unicode(c: CodeUnit): (r: Text) {
    [BACKSLASH, 0x75, HexDigit(c / 0x1000), HexDigit(c / 0x100 % 0x10), HexDigit(c / 0x10 % 0x10), HexDigit(c % 0x10)]
  }

  predicate HighSurrogate(c: CodeUnit) {
    0xD800 <= c <= 0xDBFF
  }

  predicate LowSurrogate(c: CodeUnit) {
    0xDC00 <= c <= 0xDFFF
  }

  /** How many units of `s` are printed together: surrogate pairs stay whole. */
  function Taken(s: Text): (n: nat)
    requires s != []
    ensures 1 <= n <= |s| && n <= 2
  {
    if HighSurrogate(s[0]) && 1 < |s| && LowSurrogate(s[1]) then 2 else 1
  }

  /** The text of the first character of `s`. */
  function Escape(s: Text): (out: Text)
    requires s != []
    ensures out != []
  {
    var c := s[0];
    if Taken(s) == 2 then s[..2]
    else if c == QUOTE then [BACKSLASH, QUOTE]
    else if c == BACKSLASH then [BACKSLASH, BACKSLASH]
    else if c == 0x08 then [BACKSLASH, 0x62]
    else if c == 0x09 then [BACKSLASH, 0x74]
    else if c == 0x0A then [BACKSLASH, 0x6E]
    else if c == 0x0C then [BACKSLASH, 0x66]
    else if c == 0x0D then [BACKSLASH, 0x72]
    else if c < 0x20 || HighSurrogate(c) || LowSurrogate(c) then Unicode(c)
    else [c]
  }

  function EscapeAll(s: Text): (r: Text)
    decreases |s|
  {
    if s == [] then [] else Escape(s) + EscapeAll(s[Taken(s)..])
  }

  function Quoted(s: Text): (r: Text) {
    [QUOTE] + EscapeAll(s) + [QUOTE]
  }

  // ----- Key order

  function Less(a: Text, b: Text): (r: bool) {
    b != [] && (a == [] || a[0] < b[0] || (a[0] == b[0] && Less(a[1..], b[1..])))
  }

  predicate Sorted(fields: seq<Field>) {
    forall i, j | 0 <= i < j < |fields| :: Less(fields[i].key, fields[j].key)
  }

  function Insert(f: Field, sorted: seq<Field>): (r: seq<Field>)
    ensures multiset(r) == multiset(sorted) + multiset{f}
  {
    if sorted == [] then [f]
    else if Less(f.key, sorted[0].key) then [f] + sorted
    else
      assert sorted == [sorted[0]] + sorted[1..];
      [sorted[0]] + Insert(f, sorted[1..])
  }

  function Sort(fields: seq<Field>): (r: seq<Field>)
    ensures multiset(r) == multiset(fields)
  {
    if fields == [] then []
    else
      assert fields == [fields[0]] + fields[1..];
      Insert(fields[0], Sort(fields[1..]))
  }

  /** The entries whose value is not undefined, in their order. */
  function Defined(fields: seq<Field>): (r: seq<Field>)
    ensures forall f :: f in r <==> f in fields && !f.value.Undefined?
  {
    if fields == [] then []
    else (if fields[0].value.Undefined? then [] else [fields[0]]) + Defined(fields[1..])
  }

  function Entries(fields: seq<Field>): (r: seq<Field>)
    ensures forall f :: f in r <==> f in fields && !f.value.Undefined?
  {
    var r := Sort(Defined(fields));
    assert forall f :: f in r <==> f in multiset(r);
    r
  }

  // ----- Printing

  function StableStringify(j: Json): (t: Text)
    decreases j
  {
    match j
    case Bool(b) => if b then TRUE_TEXT else FALSE_TEXT
    case Number(lexeme) => lexeme
    case Str(s) => Quoted(s)
    case Arr(items) => [OPEN_ARRAY] + PrintItems(items, true) + [CLOSE_ARRAY]
    case Obj(fields) => [OPEN_OBJECT] + PrintFields(j, Entries(fields), true) + [CLOSE_OBJECT]
    case _ => NULL_TEXT
  }

  function Separator(first: bool): (r: Text) {
    if first then [] else [COMMA]
  }

  function PrintItems(items: seq<Json>, first: bool): (r: Text)
    decreases items
  {
    if items == [] then [] else Separator(first) + StableStringify(items[0]) + PrintItems(items[1..], false)
  }

  function PrintFields(owner: Json, entries: seq<Field>, first: bool): (r: Text)
    requires owner.Obj? && forall f <- entries :: f in owner.fields
    decreases owner, |entries|
  {
    if entries == [] then []
    else
      var f := entries[0];
      assert f in owner.fields;
      Separator(first) + Quoted(f.key) + [COLON] + StableStringify(f.value) + PrintFields(owner, entries[1..], false)
  }

  // ----- What a value means

  /** A value up to what JSON can express: undefined and the like are null, and
      an object is a map from its keys with defined values. */
  datatype Canon =
    | CNull
    | CBool(b: bool)
    | CNumber(lexeme: Text)
    | CStr(s: Text)
    | CArr(items: seq<Canon>)
    | CObj(fields: map<Text, Canon>)

  function Meaning(j: Json): (r: Canon)
    decreases j
  {
    match j
    case Bool(b) => CBool(b)
    case Number(lexeme) => CNumber(lexeme)
    case Str(s) => CStr(s)
    case Arr(items) => CArr(Meanings(items))
    case Obj(fields) => CObj(FieldMeanings(fields))
    case _ => CNull
  }

  function Meanings(items: seq<Json>): (ms: seq<Canon>)
    ensures |ms| == |items|
    ensures forall i | 0 <= i < |items| :: ms[i] == Meaning(items[i])
    decreases items
  {
    if items == [] then [] else [Meaning(items[0])] + Meanings(items[1..])
  }

  function FieldMeanings(fields: seq<Field>): (m: map<Text, Canon>)
    ensures forall k :: k in m <==> exists f :: f in fields && f.key == k && !f.value.Undefined?
    ensures DistinctKeys(fields) ==> forall f <- fields :: !f.value.Undefined? ==> f.key in m && m[f.key] == Meaning(f.value)
    decreases fields
  {
    if fields == [] then map[]
    else
      var rest := FieldMeanings(fields[1..]);
      assert DistinctKeys(fields) ==> DistinctKeys(fields[1..]);
      assert forall f <- fields :: f == fields[0] || f in fields[1..];
      assert fields[0] in fields && forall f <- fields[1..] :: f in fields;
      if fields[0].value.Undefined? then rest else rest[fields[0].key := Meaning(fields[0].value)]
  }
}
