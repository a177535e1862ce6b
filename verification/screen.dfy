/** A terminal screen and the controls that the painter uses on it (ECMA-48:
    CUP 8.3.21, ED 8.3.39, EL 8.3.41), with autowrap and scrolling. */
module Screen {
  type Cell = string

  const BLANK: Cell := " "

  datatype Control =
    | BeginSync
    | EndSync
    | EraseDisplay                    // ED 2
    | CursorHome                      // CUP without parameters
    | MoveTo(row: int, col: int)      // CUP, counted from 1
    | EraseLine                       // EL 2
    | Write(text: string)

  /** How text occupies cells, and how a line is clipped to a number of columns. */
  datatype Metrics = Metrics(cells: string -> seq<Cell>, clip: (string, nat) -> string)

  /** Clipping a line to `w` columns leaves at most `w`. */
  ghost predicate Sound(m: Metrics) {
    forall line: string, w: nat :: |m.cells(m.clip(line, w))| <= w
  }

  function Blanks(n: nat): (row: seq<Cell>)
    ensures |row| == n && forall k | 0 <= k < n :: row[k] == BLANK
  {
    seq(n, _ => BLANK)
  }

  function BlankGrid(width: nat, height: nat): (grid: seq<seq<Cell>>)
    ensures |grid| == height && forall r | 0 <= r < height :: grid[r] == Blanks(width)
  {
    seq(height, _ => Blanks(width))
  }

  /** The cursor column may equal the width: the next character then wraps first. */
  datatype Terminal = Terminal(width: nat, height: nat, grid: seq<seq<Cell>>, row: nat, col: nat) {
    predicate Valid() {
      && |grid| == height && (forall r | 0 <= r < height :: |grid[r]| == width)
      && col <= width && (0 < height ==> row < height)
    }

    /** The next line, scrolling at the bottom. */
    function NextLine(): (r: Terminal)
      requires Valid() && 0 < height
    {
      if row + 1 < height then this.(row := row + 1, col := 0)
      else this.(grid := grid[1..] + [Blanks(width)], col := 0)
    }

    function Put(c: Cell): (t: Terminal)
      requires Valid()
      ensures t.Valid() && t.width == width && t.height == height
    {
      if width == 0 || height == 0 then this
      else
        var t := if col >= width then NextLine() else this;
        t.(grid := t.grid[t.row := t.grid[t.row][t.col := c]], col := t.col + 1)
    }

    function PutAll(cs: seq<Cell>): (t: Terminal)
      requires Valid()
      ensures t.Valid() && t.width == width && t.height == height
      decreases |cs|
    {
      if cs == [] then this else Put(cs[0]).PutAll(cs[1..])
    }

    function Move(r: int, c: int): (t: Terminal)
      requires Valid()
      ensures t.Valid() && t.width == width && t.height == height && t.grid == grid
    {
      this.(row := Clamp(r - 1, height), col := Clamp(c - 1, width))
    }

    function Execute(m: Metrics, control: Control): (t: Terminal)
      requires Valid()
      ensures t.Valid() && t.width == width && t.height == height
    {
      match control
      case BeginSync => this
      case EndSync => this
      case EraseDisplay => this.(grid := BlankGrid(width, height))
      case CursorHome => Move(1, 1)
      case MoveTo(r, c) => Move(r, c)
      case EraseLine => if height == 0 then this else this.(grid := grid[row := Blanks(width)])
      case Write(text) => PutAll(m.cells(text))
    }

    function ExecuteAll(m: Metrics, controls: seq<Control>): (t: Terminal)
      requires Valid()
      ensures t.Valid() && t.width == width && t.height == height
      decreases |controls|
    {
      if controls == [] then this
      else ExecuteAll(m, controls[..|controls| - 1]).Execute(m, controls[|controls| - 1])
    }
  }

  function Clamp(x: int, size: nat): (c: nat)
    ensures c <= size && (0 < size ==> c < size)
  {
    if x <= 0 || size == 0 then 0 else if x < size then x else size - 1
  }

  lemma {:induction false} ExecuteAppend(t: Terminal, m: Metrics, a: seq<Control>, b: seq<Control>)
    requires t.Valid()
    ensures t.ExecuteAll(m, a + b) == t.ExecuteAll(m, a).ExecuteAll(m, b)
    decreases |b|
  {
    if b == [] {
      assert a + b == a;
    } else {
      ExecuteAppend(t, m, a, b[..|b| - 1]);
      assert (a + b)[..|a + b| - 1] == a + b[..|b| - 1];
    }
  }

  // ----- Pictures

  /** A line as the painter writes it: an overwide one is clipped. */
  function Fit(m: Metrics, line: string, width: nat): (r: string) {
    if |m.cells(line)| > width then m.clip(line, width) else line
  }

  function Pad(cs: seq<Cell>, width: nat): (row: seq<Cell>)
    requires |cs| <= width
    ensures |row| == width
  {
    cs + Blanks(width - |cs|)
  }

  /** The row of the screen that shows a line. */
  ghost function RowOf(m: Metrics, line: string, width: nat): (row: seq<Cell>)
    requires Sound(m)
    ensures |row| == width
  {
    Pad(m.cells(Fit(m, line, width)), width)
  }

  function LineAt(frame: seq<string>, r: nat): (result: string) {
    if r < |frame| then frame[r] else ""
  }

  /** The screen that shows a frame: line by line, padded with blanks on the
      right and blank rows below. */
  ghost function Picture(m: Metrics, frame: seq<string>, width: nat, height: nat): (grid: seq<seq<Cell>>)
    requires Sound(m)
    ensures |grid| == height
    ensures forall r | 0 <= r < height :: grid[r] == RowOf(m, LineAt(frame, r), width)
  {
    seq(height, r requires 0 <= r < height => RowOf(m, LineAt(frame, r), width))
  }

  /** Text that fits behind the cursor changes only the cells it covers. */
  lemma {:induction false} PutAllFits(t: Terminal, cs: seq<Cell>)
    requires t.Valid() && 0 < t.height && t.col + |cs| <= t.width
    ensures t.PutAll(cs) == t.(grid := t.grid[t.row := t.grid[t.row][..t.col] + cs + t.grid[t.row][t.col + |cs|..]], col := t.col + |cs|)
    decreases |cs|
  {
    var line := t.grid[t.row];
    if cs == [] {
      assert line[..t.col] + cs + line[t.col..] == line;
    } else {
      var u := t.Put(cs[0]);
      PutAllFits(u, cs[1..]);
      assert u.grid[u.row][..u.col] + cs[1..] + u.grid[u.row][u.col + |cs[1..]|..] == line[..t.col] + cs + line[t.col + |cs|..];
    }
  }

  /** Addressing a row, erasing it and writing a fitting line shows exactly that line there. */
  lemma RowPainted(t: Terminal, m: Metrics, r: nat, line: string)
    requires t.Valid() && Sound(m) && r < t.height
    ensures t.Execute(m, MoveTo(r + 1, 1)).Execute(m, EraseLine).Execute(m, Write(Fit(m, line, t.width))).grid
            == t.grid[r := RowOf(m, line, t.width)]
  {
    var u := t.Execute(m, MoveTo(r + 1, 1)).Execute(m, EraseLine);
    var cs := m.cells(Fit(m, line, t.width));
    assert u.row == r && u.col == 0;
    PutAllFits(u, cs);
    assert Blanks(t.width)[..0] + cs + Blanks(t.width)[|cs|..] == Pad(cs, t.width);
  }
}
