/** Click targets on the rows of a frame: the first one that covers a cell wins. */
module ClickTargets {
  import opened Messages

  datatype Region = Region(col: int, width: int, id: nat)

  datatype Target = Target(row: int, col: int, width: int, anchor: int, region: Region)

  datatype Entry = Entry(anchor: int, from: int, count: int, region: Region)

  /** What a click learns: the region and the row its positions are relative to. */
  datatype Hit = Hit(region: Region, anchor: int)

  predicate Covers(t: Target, row: int, col: int) {
    t.row == row && t.col <= col < t.col + t.width
  }

  function FirstHit(ts: seq<Target>, row: int, col: int): (r: Option<Hit>) {
    if ts == [] then None
    else if Covers(ts[0], row, col) then Some(Hit(ts[0].region, ts[0].anchor))
    else FirstHit(ts[1..], row, col)
  }

  /** What is left of a target when columns [startCol, endCol) of a line are painted over. */
  function Remnants(t: Target, line: int, startCol: int, endCol: int): (r: seq<Target>) {
    if t.row != line || endCol <= t.col || startCol >= t.col + t.width then [t]
    else
      (if t.col < startCol then [t.(width := startCol - t.col)] else []) +
      (if endCol < t.col + t.width then [t.(col := endCol, width := t.col + t.width - endCol)] else [])
  }

  function SubtractAll(ts: seq<Target>, line: int, startCol: int, endCol: int): (r: seq<Target>) {
    if ts == [] then [] else Remnants(ts[0], line, startCol, endCol) + SubtractAll(ts[1..], line, startCol, endCol)
  }

  predicate Painted(line: int, startCol: int, endCol: int, row: int, col: int) {
    row == line && startCol <= col < endCol
  }

  lemma {:induction false} FirstHitAppend(a: seq<Target>, b: seq<Target>, row: int, col: int)
    ensures FirstHit(a + b, row, col) == if FirstHit(a, row, col).Some? then FirstHit(a, row, col) else FirstHit(b, row, col)
  {
    if a == [] {
      assert a + b == b;
    } else {
      assert (a + b)[0] == a[0] && (a + b)[1..] == a[1..] + b;
      FirstHitAppend(a[1..], b, row, col);
    }
  }

  lemma RemnantsExact(t: Target, line: int, startCol: int, endCol: int, row: int, col: int)
    ensures FirstHit(Remnants(t, line, startCol, endCol), row, col)
            == if Painted(line, startCol, endCol, row, col) then None else FirstHit([t], row, col)
  {
    var left := t.(width := startCol - t.col);
    var right := t.(col := endCol, width := t.col + t.width - endCol);
    FirstHitAppend([left], [right], row, col);
  }

  /** Subtraction is exact for all integers, empty and inverted spans and
      degenerate widths included: painted cells hit nothing, every other cell
      hits what it hit before. */
  lemma {:induction false} SubtractExact(ts: seq<Target>, line: int, startCol: int, endCol: int, row: int, col: int)
    ensures FirstHit(SubtractAll(ts, line, startCol, endCol), row, col)
            == if Painted(line, startCol, endCol, row, col) then None else FirstHit(ts, row, col)
    decreases |ts|
  {
    if ts != [] {
      hide Remnants;
      RemnantsExact(ts[0], line, startCol, endCol, row, col);
      SubtractExact(ts[1..], line, startCol, endCol, row, col);
      FirstHitAppend(Remnants(ts[0], line, startCol, endCol), SubtractAll(ts[1..], line, startCol, endCol), row, col);
      FirstHitAppend([ts[0]], ts[1..], row, col);
      assert [ts[0]] + ts[1..] == ts;
    }
  }

  // ----- Sequences of painting

  datatype Op = Add(entry: Entry) | Subtract(line: int, startCol: int, endCol: int)

  function RowTargets(e: Entry, row: int): (r: seq<Target>)
    decreases e.from + e.count - row
  {
    if row >= e.from + e.count then []
    else [Target(row, e.region.col, e.region.width, e.anchor, e.region)] + RowTargets(e, row + 1)
  }

  function TargetsOf(e: Entry): (r: seq<Target>) {
    RowTargets(e, e.from)
  }

  function ApplyOp(ts: seq<Target>, op: Op): (r: seq<Target>) {
    match op
    case Add(e) => ts + TargetsOf(e)
    case Subtract(line, startCol, endCol) => SubtractAll(ts, line, startCol, endCol)
  }

  function ApplyAll(ts: seq<Target>, ops: seq<Op>): (r: seq<Target>)
    decreases |ops|
  {
    if ops == [] then ts else ApplyAll(ApplyOp(ts, ops[0]), ops[1..])
  }

  predicate EntryCovers(e: Entry, row: int, col: int) {
    e.from <= row < e.from + e.count && e.region.col <= col < e.region.col + e.region.width
  }

  /** Some operation paints over the cell. */
  predicate Erased(ops: seq<Op>, row: int, col: int) {
    exists k :: 0 <= k < |ops| && ops[k].Subtract? && Painted(ops[k].line, ops[k].startCol, ops[k].endCol, row, col)
  }

  /** The region a cell belongs to after a history of painting: the first one
      added over it that was not painted over later. */
  function Owner(ops: seq<Op>, row: int, col: int): (r: Option<Hit>) {
    if ops == [] then None
    else if ops[0].Add? && EntryCovers(ops[0].entry, row, col) && !Erased(ops[1..], row, col)
    then Some(Hit(ops[0].entry.region, ops[0].entry.anchor))
    else Owner(ops[1..], row, col)
  }

  lemma {:induction false} EntryHit(e: Entry, from: int, row: int, col: int)
    requires e.from <= from
    ensures FirstHit(RowTargets(e, from), row, col)
            == if from <= row && EntryCovers(e, row, col) then Some(Hit(e.region, e.anchor)) else None
    decreases e.from + e.count - from
  {
    if from < e.from + e.count {
      EntryHit(e, from + 1, row, col);
      assert RowTargets(e, from)[1..] == RowTargets(e, from + 1);
    }
  }

  lemma ErasedSplit(ops: seq<Op>, row: int, col: int)
    requires ops != []
    ensures Erased(ops, row, col)
            <==> (ops[0].Subtract? && Painted(ops[0].line, ops[0].startCol, ops[0].endCol, row, col)) || Erased(ops[1..], row, col)
  {
    if k :| 0 < k < |ops| && ops[k].Subtract? && Painted(ops[k].line, ops[k].startCol, ops[k].endCol, row, col) {
      assert ops[1..][k - 1] == ops[k];
    }
    if k :| 0 <= k < |ops[1..]| && ops[1..][k].Subtract? && Painted(ops[1..][k].line, ops[1..][k].startCol, ops[1..][k].endCol, row, col) {
      assert ops[k + 1] == ops[1..][k];
    }
  }

  /** Over any sequence of additions and subtractions a click finds the owner of its cell. */
  lemma {:induction false} HistoryExact(ts: seq<Target>, ops: seq<Op>, row: int, col: int)
    ensures FirstHit(ApplyAll(ts, ops), row, col)
            == if FirstHit(ts, row, col).Some? && !Erased(ops, row, col) then FirstHit(ts, row, col) else Owner(ops, row, col)
    decreases |ops|
  {
    if ops != [] {
      hide SubtractAll, TargetsOf, Erased;
      ErasedSplit(ops, row, col);
      HistoryExact(ApplyOp(ts, ops[0]), ops[1..], row, col);
      match ops[0]
      case Add(e) =>
        FirstHitAppend(ts, TargetsOf(e), row, col);
        AddedHit(e, row, col);
      case Subtract(line, startCol, endCol) =>
        SubtractExact(ts, line, startCol, endCol, row, col);
    } else {
      assert !Erased(ops, row, col);
    }
  }

  lemma AddedHit(e: Entry, row: int, col: int)
    ensures FirstHit(TargetsOf(e), row, col) == if EntryCovers(e, row, col) then Some(Hit(e.region, e.anchor)) else None
  {
    EntryHit(e, e.from, row, col);
  }
}
