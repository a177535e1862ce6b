/** The fullscreen viewport: a scrolled window over the transcript between a
    pinned header and a dock, click targets on the frame, and a painter that
    only rewrites the rows that changed. */
module Fullscreen {
  import opened Messages
  import opened ClickTargets
  import opened Screen

  const MIN_TRANSCRIPT_ROWS := 3

  const IMAGE_PLACEHOLDER := "\U{1B}[2m[image — view in inline mode]\U{1B}[0m"

  function Max(a: int, b: int): (r: int) {
    if a < b then b else a
  }

  function Min(a: int, b: int): (r: int) {
    if a < b then a else b
  }

  function ClippedDockHeight(dockLength: nat, height: nat): (r: nat) {
    Min(dockLength, Max(0, height - MIN_TRANSCRIPT_ROWS))
  }

  /** How the rows of a frame are shared out. */
  datatype Layout = Layout(header: nat, window: nat, dock: nat)

  function LayoutFor(headerLength: nat, dockLength: nat, height: nat): (l: Layout)
    ensures l.header + l.window + l.dock == height
    ensures l.header <= headerLength && l.dock <= dockLength
    ensures Min(MIN_TRANSCRIPT_ROWS, height) <= l.window
    ensures l.dock < dockLength ==> l.header == 0
    ensures l.header < headerLength || l.dock < dockLength ==> l.window == Min(MIN_TRANSCRIPT_ROWS, height)
  {
    var dock := ClippedDockHeight(dockLength, height);
    var header := Min(headerLength, Max(0, height - dock - MIN_TRANSCRIPT_ROWS));
    Layout(header, height - dock - header, dock)
  }

  function Bottom<T>(lines: seq<T>, n: nat): (s: seq<T>)
    ensures |lines| <= n ==> s == lines
    ensures n < |lines| ==> |s| == n && lines[|lines| - n..] == s
  {
    if n < |lines| then lines[|lines| - n..] else lines
  }

  function MaxScroll(length: nat, window: nat): (r: nat) {
    Max(0, length - window)
  }

  function NextTop(following: bool, top: int, length: nat, window: nat): (r: nat) {
    if following then MaxScroll(length, window) else Max(0, Min(top, MaxScroll(length, window)))
  }

  /** One line as shown in the window. */
  function ShownLine(isImage: string -> bool, line: string): (r: string) {
    if isImage(line) then IMAGE_PLACEHOLDER else line
  }

  /** The rows of the window: the lines from `top` on, and blank rows below the last one. */
  function Window(isImage: string -> bool, transcript: seq<string>, top: nat, height: nat): (rows: seq<string>)
    ensures |rows| == height
    ensures forall i | 0 <= i < height ::
              rows[i] == if top + i < |transcript| then ShownLine(isImage, transcript[top + i]) else ""
  {
    seq(height, i requires 0 <= i < height =>
      if top + i < |transcript| then ShownLine(isImage, transcript[top + i]) else "")
  }

  /** While not following, lines appended at unchanged sizes leave the window
      where it is and every transcript row it shows as it was. */
  lemma AppendsDoNotMove(isImage: string -> bool, transcript: seq<string>, more: seq<string>, top: nat, height: nat, i: nat)
    requires top <= MaxScroll(|transcript|, height) && i < height && top + i < |transcript|
    ensures NextTop(false, top, |transcript + more|, height) == top
    ensures Window(isImage, transcript + more, top, height)[i] == Window(isImage, transcript, top, height)[i]
  {
  }

  /** While not following, the window stays as near to where it was as the transcript allows. */
  lemma StaysNear(top: int, length: nat, window: nat, other: int)
    requires 0 <= other <= MaxScroll(length, window)
    ensures var next := NextTop(false, top, length, window);
            && next <= MaxScroll(length, window)
            && Max(next - top, top - next) <= Max(other - top, top - other)
  {
  }

  /** While following, the window shows the end of the transcript. */
  lemma FollowingShowsTheEnd(isImage: string -> bool, transcript: seq<string>, top: int, height: nat)
    requires transcript != [] && height > 0
    ensures var from := NextTop(true, top, |transcript|, height);
            && from < |transcript| <= from + height
            && Window(isImage, transcript, from, height)[|transcript| - 1 - from] == ShownLine(isImage, transcript[|transcript| - 1])
  {
  }

  /** Visible frame rows of a projected region, and the row of its top line. */
  datatype Rows = Rows(anchor: int, from: int, count: nat)

  predicate OnRow(r: Option<Rows>, row: int) {
    r.Some? && r.value.from <= row < r.value.from + r.value.count
  }

  /** A region of `height` lines whose top line falls on row `anchor`, cut to the
      rows [first, first + available). */
  function ProjectRows(anchor: int, height: int, first: int, available: int): (r: Option<Rows>)
    ensures forall row :: OnRow(r, row) <==> first <= row < first + available && anchor <= row < anchor + Max(1, height)
    ensures r.Some? ==> r.value.anchor == anchor && 0 < r.value.count
  {
    var from := Max(anchor, first);
    var end := Min(anchor + Max(1, height), first + available);
    if end > from then Some(Rows(anchor, from, end - from)) else None
  }

  datatype Bounds = Bounds(visibleStart: int, visibleHeight: int, transcriptStart: int, transcriptEnd: int)

  class FullscreenViewport {
    var scrollTop: int
    var following: bool
    var prevFrame: seq<string>
    var prevWidth: nat
    var prevHeight: nat
    var lastMaxScroll: int
    var lastWindowHeight: int
    var lastHeaderHeight: int
    var lastHeaderLines: int
    var lastDockLines: int
    var lastDockHeight: int
    var frameClickTargets: seq<Target>
    var lastFrameVisibleStart: int
    var lastFrameVisibleHeight: int
    const metrics: Metrics
    const isImage: string -> bool
    /** The terminal that the painter's output goes to. */
    ghost var terminal: Terminal

    constructor (metrics: Metrics, isImage: string -> bool, ghost terminal: Terminal)
      requires terminal.Valid()
      ensures Settled() && Synced() && this.metrics == metrics && this.isImage == isImage && this.terminal == terminal
      ensures following && frameClickTargets == [] && prevFrame == []
    {
      this.metrics, this.isImage, this.terminal := metrics, isImage, terminal;
      scrollTop, following, lastMaxScroll := 0, true, 0;
      prevFrame, prevWidth, prevHeight := [], 0, 0;
      lastWindowHeight, lastHeaderHeight, lastHeaderLines, lastDockLines, lastDockHeight := 0, 0, 0, 0, 0;
      frameClickTargets := [];
      lastFrameVisibleStart, lastFrameVisibleHeight := 0, 0;
    }

    // ----- Scrolling

    /** What every compose and scroll call keeps. */
    ghost predicate Settled()
      reads this
    {
      && 0 <= scrollTop <= lastMaxScroll
      && (following ==> scrollTop == lastMaxScroll)
      && 0 <= lastHeaderHeight && 0 <= lastWindowHeight && 0 <= lastDockHeight
      && lastHeaderHeight <= lastHeaderLines && lastDockHeight <= lastDockLines
    }

    method ComposeFrame(transcript: seq<string>, dock: seq<string>, height: nat, header: seq<string>) returns (frame: seq<string>)
      requires Settled()
      modifies this`scrollTop, this`lastMaxScroll, this`lastWindowHeight, this`lastHeaderHeight,
               this`lastHeaderLines, this`lastDockLines, this`lastDockHeight
      ensures Settled()
      ensures |frame| == height
      ensures Layout(lastHeaderHeight, lastWindowHeight, lastDockHeight) == LayoutFor(|header|, |dock|, height)
      ensures lastHeaderLines == |header| && lastDockLines == |dock|
      ensures lastMaxScroll == MaxScroll(|transcript|, lastWindowHeight)
      ensures scrollTop == NextTop(following, old(scrollTop), |transcript|, lastWindowHeight)
      ensures Composed(frame, header, transcript, dock)
    {
      var dockHeight := ClippedDockHeight(|dock|, height);
      var dockLines := Bottom(dock, dockHeight);
      var headerHeight := Min(|header|, Max(0, height - |dockLines| - MIN_TRANSCRIPT_ROWS));
      var headerLines := Bottom(header, headerHeight);
      var windowHeight := height - |dockLines| - |headerLines|;
      var maxScroll := Max(0, |transcript| - windowHeight);
      if following {
        scrollTop := maxScroll;
      } else {
        scrollTop := Max(0, Min(scrollTop, maxScroll));
      }
      lastMaxScroll, lastWindowHeight := maxScroll, windowHeight;
      lastHeaderHeight, lastHeaderLines := |headerLines|, |header|;
      lastDockLines, lastDockHeight := |dock|, |dockLines|;
      var window := transcript[Min(scrollTop, |transcript|)..Min(scrollTop + windowHeight, |transcript|)];
      var shown := ShowWindow(window, windowHeight, transcript, scrollTop);
      frame := headerLines + shown + dockLines;
    }

    method ShowWindow(window: seq<string>, windowHeight: nat, ghost transcript: seq<string>, ghost top: nat)
      returns (shown: seq<string>)
      requires top <= |transcript| && window == transcript[top..Min(top + windowHeight, |transcript|)]
      ensures shown == Window(isImage, transcript, top, windowHeight)
    {
      shown := [];
      for i := 0 to |window|
        invariant shown == Window(isImage, transcript, top, i)
      {
        shown := shown + [ShownLine(isImage, window[i])];
      }
      while |shown| < windowHeight
        invariant |window| <= |shown| <= windowHeight && shown == Window(isImage, transcript, top, |shown|)
      {
        shown := shown + [""];
      }
    }

    method ScrollBy(delta: int)
      requires Settled()
      modifies this`scrollTop, this`following
      ensures Settled()
      ensures scrollTop == Max(0, Min(old(scrollTop) + delta, lastMaxScroll))
      ensures following <==> scrollTop == lastMaxScroll
    {
      var base := if following then lastMaxScroll else scrollTop;
      scrollTop := Max(0, Min(base + delta, lastMaxScroll));
      following := scrollTop >= lastMaxScroll;
    }

    method ScrollToTop()
      requires Settled()
      modifies this`scrollTop, this`following
      ensures Settled() && scrollTop == 0 && (following <==> scrollTop == lastMaxScroll)
    {
      scrollTop := 0;
      following := lastMaxScroll == 0;
    }

    method ScrollToBottom()
      requires Settled()
      modifies this`scrollTop, this`following
      ensures Settled() && scrollTop == lastMaxScroll && following
    {
      scrollTop := lastMaxScroll;
      following := true;
    }

    // ----- Frame rows and transcript lines

    /** Registers the final frame, of which the bottom rows are visible. */
    method ApplyFrameSelection(frameLength: nat, height: int)
      modifies this`lastFrameVisibleStart, this`lastFrameVisibleHeight
      ensures 0 <= lastFrameVisibleHeight && 0 <= lastFrameVisibleStart
      ensures lastFrameVisibleStart + lastFrameVisibleHeight == frameLength
      ensures lastFrameVisibleHeight == Min(Max(0, height), frameLength)
    {
      lastFrameVisibleHeight := Min(Max(0, height), frameLength);
      lastFrameVisibleStart := Max(0, frameLength - lastFrameVisibleHeight);
    }

    function ProjectHeaderRegion(line: int, height: int): (r: Option<Rows>)
      reads this
    {
      var start := Max(0, lastHeaderLines - lastHeaderHeight);
      ProjectRows(line - start, height, 0, lastHeaderHeight)
    }

    function ProjectTranscriptRegion(line: int, height: int): (r: Option<Rows>)
      reads this
    {
      ProjectRows(lastHeaderHeight - scrollTop + line, height, lastHeaderHeight, lastWindowHeight)
    }

    function ProjectDockRegion(line: int, height: int): (r: Option<Rows>)
      reads this
    {
      var start := Max(0, lastDockLines - lastDockHeight);
      var base := lastHeaderHeight + lastWindowHeight;
      ProjectRows(base + line - start, height, base, lastDockHeight)
    }

    function TranscriptScreenBounds(): (r: Option<Bounds>)
      reads this
    {
      if lastWindowHeight <= 0 then None
      else
        var visibleHeight := if lastFrameVisibleHeight > 0 then lastFrameVisibleHeight else lastWindowHeight;
        var visibleStart := if lastFrameVisibleHeight > 0 then lastFrameVisibleStart else 0;
        var from := Max(lastHeaderHeight, visibleStart);
        var to := Min(lastHeaderHeight + lastWindowHeight - 1, visibleStart + visibleHeight - 1);
        if from > to then None else Some(Bounds(visibleStart, visibleHeight, from, to))
    }

    function TranscriptLineForScreenRow(screenRow: int, clamp: bool): (r: Option<int>)
      reads this
    {
      var bounds := TranscriptScreenBounds();
      if bounds.None? then None
      else
        var b := bounds.value;
        if !clamp && (screenRow < 0 || screenRow >= b.visibleHeight) then None
        else
          var row := if clamp then Max(0, Min(screenRow, b.visibleHeight - 1)) else screenRow;
          var frameLine := b.visibleStart + row;
          if !clamp && (frameLine < b.transcriptStart || frameLine > b.transcriptEnd) then None
          else Some(scrollTop + Max(b.transcriptStart, Min(frameLine, b.transcriptEnd)) - lastHeaderHeight)
    }

    /** Once the frame is registered, asking for the line of a screen row and
        projecting a line onto frame rows are each other's inverse. */
    lemma RowsAndLinesInverse(screenRow: int, line: int)
      requires Settled() && 0 < lastFrameVisibleHeight && 0 <= lastFrameVisibleStart
      ensures TranscriptLineForScreenRow(screenRow, false) == Some(line)
              <==> 0 <= screenRow < lastFrameVisibleHeight
                   && ProjectTranscriptRegion(line, 1)
                      == Some(Rows(lastFrameVisibleStart + screenRow, lastFrameVisibleStart + screenRow, 1))
    {
    }

    /** A clamped lookup answers with the nearest row that shows the transcript. */
    lemma ClampedIsNearest(screenRow: int, other: int)
      requires Settled() && 0 < lastFrameVisibleHeight && 0 <= lastFrameVisibleStart
      requires TranscriptLineForScreenRow(other, false).Some?
      ensures TranscriptLineForScreenRow(screenRow, true).Some?
      ensures var line := TranscriptLineForScreenRow(screenRow, true).value;
              var nearest := line - scrollTop + lastHeaderHeight - lastFrameVisibleStart;
              && TranscriptLineForScreenRow(nearest, false) == Some(line)
              && Max(nearest - screenRow, screenRow - nearest) <= Max(other - screenRow, screenRow - other)
    {
    }

    /** The three bands of a frame share no row. */
    lemma BandsDisjoint(row: int, a: int, m: int, b: int, n: int)
      requires Settled()
      ensures var h, t := ProjectHeaderRegion(a, m), ProjectTranscriptRegion(b, n);
              !(OnRow(h, row) && OnRow(t, row))
      ensures var t, d := ProjectTranscriptRegion(a, m), ProjectDockRegion(b, n);
              !(OnRow(t, row) && OnRow(d, row))
    {
    }

    /** The frame that was composed of these parts. */
    ghost predicate Composed(frame: seq<string>, header: seq<string>, transcript: seq<string>, dock: seq<string>)
      reads this
    {
      && Settled() && lastHeaderLines == |header| && lastDockLines == |dock|
      && frame == Bottom(header, lastHeaderHeight)
                  + Window(isImage, transcript, scrollTop, lastWindowHeight)
                  + Bottom(dock, lastDockHeight)
    }

    /** The rows that a header region is projected on are just those that show its lines. */
    lemma HeaderRowsShow(frame: seq<string>, header: seq<string>, transcript: seq<string>, dock: seq<string>, line: int, height: int, row: int)
      requires Composed(frame, header, transcript, dock)
      ensures var r, shown := ProjectHeaderRegion(line, height), row + |header| - lastHeaderHeight;
              && (OnRow(r, row) <==> 0 <= row < lastHeaderHeight && line <= shown < line + Max(1, height))
              && (OnRow(r, row) ==> row < |frame| && frame[row] == header[shown] && row - r.value.anchor == shown - line)
    {
    }

    /** So are those of a transcript region, */
    lemma TranscriptRowsShow(frame: seq<string>, header: seq<string>, transcript: seq<string>, dock: seq<string>, line: int, height: int, row: int)
      requires Composed(frame, header, transcript, dock)
      ensures var r, shown := ProjectTranscriptRegion(line, height), row - lastHeaderHeight + scrollTop;
              && (OnRow(r, row) <==> 0 <= row - lastHeaderHeight < lastWindowHeight && line <= shown < line + Max(1, height))
              && (OnRow(r, row) ==>
                    && row < |frame| && row - r.value.anchor == shown - line
                    && frame[row] == if shown < |transcript| then ShownLine(isImage, transcript[shown]) else "")
    {
    }

    /** and those of a dock region. */
    lemma DockRowsShow(frame: seq<string>, header: seq<string>, transcript: seq<string>, dock: seq<string>, line: int, height: int, row: int)
      requires Composed(frame, header, transcript, dock)
      ensures var r, above := ProjectDockRegion(line, height), lastHeaderHeight + lastWindowHeight;
              var shown := row - above + |dock| - lastDockHeight;
              && (OnRow(r, row) <==> 0 <= row - above < lastDockHeight && line <= shown < line + Max(1, height))
              && (OnRow(r, row) ==> row < |frame| && frame[row] == dock[shown] && row - r.value.anchor == shown - line)
    {
    }

    // ----- Clicks

    method SetFrameClickRegions(entries: seq<Entry>)
      modifies this`frameClickTargets
      ensures forall row, col :: FirstHit(frameClickTargets, row, col) == Owner(Additions(entries), row, col)
    {
      hide FirstHit, Owner;
      var targets: seq<Target> := [];
      for i := 0 to |entries|
        invariant targets == ApplyAll([], Additions(entries[..i]))
      {
        var e := entries[i];
        assert Additions(entries[..i + 1]) == Additions(entries[..i]) + [Add(e)];
        ApplyOneMore([], Additions(entries[..i]), Add(e));
        targets := WithEntry(targets, e);
      }
      assert entries[..|entries|] == entries;
      forall row, col ensures FirstHit(targets, row, col) == Owner(Additions(entries), row, col) {
        FreshExact(Additions(entries), row, col);
      }
      frameClickTargets := targets;
    }

    /** One target per row of an entry, behind those there are. */
    method WithEntry(before: seq<Target>, e: Entry) returns (targets: seq<Target>)
      ensures targets == ApplyOp(before, Add(e))
    {
      targets := before;
      var row := e.from;
      while row < e.from + e.count
        invariant targets + RowTargets(e, row) == before + TargetsOf(e)
        invariant row <= e.from + e.count || row == e.from
      {
        targets := targets + [Target(row, e.region.col, e.region.width, e.anchor, e.region)];
        row := row + 1;
      }
      assert RowTargets(e, row) == [];
    }

    method AddFrameClickEntry(e: Entry)
      modifies this`frameClickTargets
      ensures frameClickTargets == ApplyOp(old(frameClickTargets), Add(e))
    {
      var row := e.from;
      while row < e.from + e.count
        invariant frameClickTargets + RowTargets(e, row) == old(frameClickTargets) + TargetsOf(e)
        invariant row <= e.from + e.count || row == e.from
      {
        frameClickTargets := frameClickTargets + [Target(row, e.region.col, e.region.width, e.anchor, e.region)];
        row := row + 1;
      }
      assert RowTargets(e, row) == [];
    }

    method SubtractFrameClickCoverage(line: int, startCol: int, endCol: int)
      modifies this`frameClickTargets
      ensures frameClickTargets == ApplyOp(old(frameClickTargets), Subtract(line, startCol, endCol))
      ensures forall row, col :: FirstHit(frameClickTargets, row, col)
                                 == if Painted(line, startCol, endCol, row, col) then None else FirstHit(old(frameClickTargets), row, col)
    {
      hide SubtractAll, FirstHit;
      ghost var before := frameClickTargets;
      var i := |frameClickTargets| - 1;
      SubtractNone(before, line, startCol, endCol);
      while i >= 0
        invariant -1 <= i < |before|
        invariant frameClickTargets == before[..i + 1] + SubtractAll(before[i + 1..], line, startCol, endCol)
      {
        SubtractStep(before, frameClickTargets, i, line, startCol, endCol);
        var target := frameClickTargets[i];
        var targetEnd := target.col + target.width;
        if target.row == line && !(endCol <= target.col || startCol >= targetEnd) {
          var fragments: seq<Target> := [];
          if target.col < startCol {
            fragments := fragments + [target.(width := startCol - target.col)];
          }
          if endCol < targetEnd {
            fragments := fragments + [target.(col := endCol, width := targetEnd - endCol)];
          }
          assert fragments == Remnants(target, line, startCol, endCol);
          frameClickTargets := frameClickTargets[..i] + fragments + frameClickTargets[i + 1..];
        }
        i := i - 1;
      }
      assert before[..0] + SubtractAll(before, line, startCol, endCol) == SubtractAll(before, line, startCol, endCol);
      assert before[0..] == before;
      forall row, col ensures FirstHit(frameClickTargets, row, col)
                              == if Painted(line, startCol, endCol, row, col) then None else FirstHit(before, row, col)
      {
        SubtractExact(before, line, startCol, endCol, row, col);
      }
    }

    method ClickTargetAt(screenRow: int, screenCol: int) returns (t: Option<Target>)
      ensures screenRow < 0 || screenCol < 0 ==> t == None
      ensures 0 <= screenRow && 0 <= screenCol ==>
                FirstHit(frameClickTargets, screenRow, screenCol) == if t.Some? then Some(Hit(t.value.region, t.value.anchor)) else None
      ensures t.Some? ==> t.value in frameClickTargets && Covers(t.value, screenRow, screenCol)
    {
      if screenRow < 0 || screenCol < 0 {
        return None;
      }
      assert frameClickTargets[0..] == frameClickTargets;
      for i := 0 to |frameClickTargets|
        invariant FirstHit(frameClickTargets[i..], screenRow, screenCol) == FirstHit(frameClickTargets, screenRow, screenCol)
      {
        assert frameClickTargets[i..][1..] == frameClickTargets[i + 1..];
        if Covers(frameClickTargets[i], screenRow, screenCol) {
          return Some(frameClickTargets[i]);
        }
      }
      return None;
    }

    // ----- Painting

    /** Unless the next paint clears first, the terminal shows the last frame. */
    ghost predicate Synced()
      reads this
    {
      && terminal.Valid()
      && (Sound(metrics) && prevFrame != [] && prevWidth == terminal.width && prevHeight == terminal.height ==>
            terminal.grid == Picture(metrics, prevFrame, prevWidth, prevHeight))
    }

    method Paint(frame: seq<string>, width: nat, height: nat, cursor: Option<(int, int)>) returns (buffer: seq<Control>)
      requires Sound(metrics) && Synced()
      requires terminal.width == width && terminal.height == height
      modifies this`prevFrame, this`prevWidth, this`prevHeight, this`terminal
      ensures Synced() && terminal == old(terminal).ExecuteAll(metrics, buffer)
      ensures terminal.grid == Picture(metrics, Bottom(frame, height), width, height)
      ensures prevFrame == Bottom(frame, height) && prevWidth == width && prevHeight == height
      ensures cursor.Some? ==> terminal.row == Clamp(Min(cursor.value.0, height - 1), height) && terminal.col == Clamp(cursor.value.1, width)
      ensures 2 <= |buffer| && buffer[0] == BeginSync && buffer[|buffer| - 1] == EndSync
      ensures var sameSize := old(prevWidth) == width && old(prevHeight) == height;
              Sparing(buffer, Bottom(frame, height), if sameSize then old(prevFrame) else [])
    {
      hide Terminal.Execute, Terminal.ExecuteAll, Picture, RowOf, Sparing;
      var shown := Bottom(frame, height);
      buffer := [BeginSync];
      if width != prevWidth || height != prevHeight || prevFrame == [] {
        buffer := buffer + [EraseDisplay, CursorHome];
        prevFrame := [];
      }
      PaintBegins(terminal, metrics, shown, prevFrame);
      SparingBegins(shown, prevFrame);
      buffer := PaintRows(shown, width, height, buffer);
      PaintEnds(terminal, metrics, buffer, shown, prevFrame, width, height, cursor);
      if cursor.Some? {
        var place := MoveTo(Min(cursor.value.0, height - 1) + 1, cursor.value.1 + 1);
        SparingAppend(buffer, shown, prevFrame, place);
        buffer := buffer + [place];
      }
      SparingAppend(buffer, shown, prevFrame, EndSync);
      buffer := buffer + [EndSync];
      terminal := terminal.ExecuteAll(metrics, buffer);
      prevFrame, prevWidth, prevHeight := shown, width, height;
    }

    /** Rewrites the rows that differ from the last frame. */
    method PaintRows(shown: seq<string>, width: nat, height: nat, begun: seq<Control>) returns (buffer: seq<Control>)
      requires Sound(metrics) && terminal.Valid() && terminal.width == width && terminal.height == height
      requires 1 <= |begun| && begun[0] == BeginSync && Sparing(begun, shown, prevFrame)
      requires HalfPainted(terminal.ExecuteAll(metrics, begun), metrics, shown, prevFrame, width, height, 0)
      ensures HalfPainted(terminal.ExecuteAll(metrics, buffer), metrics, shown, prevFrame, width, height, height)
      ensures 1 <= |buffer| && buffer[0] == BeginSync && Sparing(buffer, shown, prevFrame)
    {
      hide Terminal.Execute, Terminal.ExecuteAll, Picture, RowOf, Sparing;
      buffer := begun;
      var row := 0;
      while row < height
        invariant row <= height
        invariant HalfPainted(terminal.ExecuteAll(metrics, buffer), metrics, shown, prevFrame, width, height, row)
        invariant 1 <= |buffer| && buffer[0] == BeginSync && Sparing(buffer, shown, prevFrame)
      {
        var line := LineAt(shown, row);
        if !(row < |prevFrame| && prevFrame[row] == line) {
          PaintRow(terminal, metrics, buffer, shown, prevFrame, width, height, row);
          SparingMore(buffer, shown, prevFrame, row, Write(Fit(metrics, line, width)));
          buffer := buffer + [MoveTo(row + 1, 1), EraseLine, Write(Fit(metrics, line, width))];
        }
        row := row + 1;
      }
    }

    /** Forces the next paint to clear and repaint. */
    method Reset()
      requires Synced()
      modifies this`prevFrame
      ensures Synced() && prevFrame == []
    {
      prevFrame := [];
    }

    /** The terminal takes another size, showing whatever it likes. */
    ghost method Resized(t: Terminal)
      requires Synced() && t.Valid()
      requires prevFrame == [] || t.width != prevWidth || t.height != prevHeight
      modifies this`terminal
      ensures Synced() && terminal == t
    {
      terminal := t;
    }
  }

  lemma SubtractNone(before: seq<Target>, line: int, startCol: int, endCol: int)
    ensures before == before[..|before|] + SubtractAll(before[|before|..], line, startCol, endCol)
  {
  }

  lemma SubtractStep(before: seq<Target>, now: seq<Target>, i: nat, line: int, startCol: int, endCol: int)
    requires i < |before| && now == before[..i + 1] + SubtractAll(before[i + 1..], line, startCol, endCol)
    ensures i < |now| && now[i] == before[i]
    ensures now[..i] + Remnants(before[i], line, startCol, endCol) + now[i + 1..]
            == before[..i] + SubtractAll(before[i..], line, startCol, endCol)
    ensures now[..i] + [now[i]] + now[i + 1..] == now
  {
    hide Remnants;
    assert before[i..][0] == before[i] && before[i..][1..] == before[i + 1..];
    assert now[..i] == before[..i] && now[i + 1..] == SubtractAll(before[i + 1..], line, startCol, endCol);
  }

  /** With no targets to begin with, a click finds the owner of its cell. */
  lemma FreshExact(ops: seq<Op>, row: int, col: int)
    ensures FirstHit(ApplyAll([], ops), row, col) == Owner(ops, row, col)
  {
    hide ApplyAll, Owner;
    HistoryExact([], ops, row, col);
  }

  function Additions(entries: seq<Entry>): (ops: seq<Op>)
    ensures |ops| == |entries| && forall i | 0 <= i < |ops| :: ops[i] == Add(entries[i])
  {
    seq(|entries|, i requires 0 <= i < |entries| => Add(entries[i]))
  }

  lemma {:induction false} ApplyOneMore(ts: seq<Target>, ops: seq<Op>, op: Op)
    ensures ApplyAll(ts, ops + [op]) == ApplyOp(ApplyAll(ts, ops), op)
    decreases |ops|
  {
    if ops == [] {
      assert ops + [op] == [op] && [op][1..] == [];
    } else {
      assert (ops + [op])[0] == ops[0] && (ops + [op])[1..] == ops[1..] + [op];
      ApplyOneMore(ApplyOp(ts, ops[0]), ops[1..], op);
    }
  }

  lemma Written(t: Terminal, m: Metrics, buffer: seq<Control>, control: Control)
    requires t.Valid()
    ensures t.ExecuteAll(m, buffer + [control]) == t.ExecuteAll(m, buffer).Execute(m, control)
  {
    assert (buffer + [control])[..|buffer|] == buffer;
  }

  /** The rows before `row` show the new frame; the others, unless the screen was
      cleared and will be painted in full, still show the old one. */
  ghost predicate HalfPainted(t: Terminal, m: Metrics, shown: seq<string>, prev: seq<string>, width: nat, height: nat, row: nat)
    requires Sound(m)
  {
    && t.Valid() && t.width == width && t.height == height
    && (forall r | 0 <= r < height && r < row :: t.grid[r] == RowOf(m, LineAt(shown, r), width))
    && (prev != [] ==> forall r | row <= r < height :: t.grid[r] == RowOf(m, LineAt(prev, r), width))
  }

  /** Only rows that differ from the last frame are erased and written. */
  predicate Sparing(buffer: seq<Control>, shown: seq<string>, prev: seq<string>) {
    forall k | 0 <= k < |buffer| :: Warranted(buffer, k, shown, prev)
  }

  predicate Warranted(buffer: seq<Control>, k: nat, shown: seq<string>, prev: seq<string>)
    requires k < |buffer|
  {
    buffer[k].EraseLine? || buffer[k].Write? ==>
      var at := if buffer[k].EraseLine? then k - 1 else k - 2;
      && 0 <= at && buffer[at].MoveTo? && 1 <= buffer[at].row
      && !(buffer[at].row - 1 < |prev| && prev[buffer[at].row - 1] == LineAt(shown, buffer[at].row - 1))
  }

  lemma SparingAppend(buffer: seq<Control>, shown: seq<string>, prev: seq<string>, control: Control)
    requires Sparing(buffer, shown, prev) && !control.EraseLine? && !control.Write?
    ensures Sparing(buffer + [control], shown, prev)
  {
    forall k | 0 <= k < |buffer + [control]| ensures Warranted(buffer + [control], k, shown, prev) {
      assert k < |buffer| ==> Warranted(buffer, k, shown, prev);
    }
  }

  lemma SparingBegins(shown: seq<string>, prev: seq<string>)
    ensures Sparing([BeginSync], shown, prev) && Sparing([BeginSync] + [EraseDisplay, CursorHome], shown, prev)
  {
  }

  lemma SparingMore(buffer: seq<Control>, shown: seq<string>, prev: seq<string>, row: nat, write: Control)
    requires Sparing(buffer, shown, prev) && write.Write? && !(row < |prev| && prev[row] == LineAt(shown, row))
    ensures Sparing(buffer + [MoveTo(row + 1, 1), EraseLine, write], shown, prev)
  {
    var all := buffer + [MoveTo(row + 1, 1), EraseLine, write];
    assert all[|buffer|] == MoveTo(row + 1, 1) && all[|buffer| + 1] == EraseLine && all[|buffer| + 2] == write;
    forall k | 0 <= k < |all| ensures Warranted(all, k, shown, prev) {
      assert k < |buffer| ==> Warranted(buffer, k, shown, prev) && all[k] == buffer[k];
    }
  }

  lemma PaintBegins(t: Terminal, m: Metrics, shown: seq<string>, prev: seq<string>)
    requires Sound(m) && t.Valid()
    ensures prev == [] ==> HalfPainted(t.ExecuteAll(m, [BeginSync] + [EraseDisplay, CursorHome]), m, shown, prev, t.width, t.height, 0)
    ensures prev != [] && t.grid == Picture(m, prev, t.width, t.height) ==>
              HalfPainted(t.ExecuteAll(m, [BeginSync]), m, shown, prev, t.width, t.height, 0)
  {
    Written(t, m, [], BeginSync);
    assert [] + [BeginSync] == [BeginSync];
    var all := [BeginSync] + [EraseDisplay, CursorHome];
    assert t.ExecuteAll(m, all).Valid() && t.ExecuteAll(m, all).width == t.width && t.ExecuteAll(m, all).height == t.height;
  }

  lemma PaintEnds(t: Terminal, m: Metrics, buffer: seq<Control>, shown: seq<string>, prev: seq<string>,
                  width: nat, height: nat, cursor: Option<(int, int)>)
    requires Sound(m) && t.Valid()
    requires HalfPainted(t.ExecuteAll(m, buffer), m, shown, prev, width, height, height)
    ensures var placed := if cursor.None? then buffer
                          else buffer + [MoveTo(Min(cursor.value.0, height - 1) + 1, cursor.value.1 + 1)];
            t.ExecuteAll(m, placed + [EndSync]).grid == Picture(m, shown, width, height)
    ensures cursor.Some? ==>
              var at := MoveTo(Min(cursor.value.0, height - 1) + 1, cursor.value.1 + 1);
              var end := t.ExecuteAll(m, buffer + [at] + [EndSync]);
              end.row == Clamp(Min(cursor.value.0, height - 1), height) && end.col == Clamp(cursor.value.1, width)
  {
    var placed := buffer;
    if cursor.Some? {
      var move := MoveTo(Min(cursor.value.0, height - 1) + 1, cursor.value.1 + 1);
      Written(t, m, buffer, move);
      placed := buffer + [move];
    }
    Written(t, m, placed, EndSync);
  }

  lemma PaintRow(start: Terminal, m: Metrics, buffer: seq<Control>, shown: seq<string>, prev: seq<string>,
                 width: nat, height: nat, row: nat)
    requires Sound(m) && start.Valid() && row < height
    requires HalfPainted(start.ExecuteAll(m, buffer), m, shown, prev, width, height, row)
    ensures HalfPainted(start.ExecuteAll(m, buffer + [MoveTo(row + 1, 1), EraseLine, Write(Fit(m, LineAt(shown, row), width))]),
                        m, shown, prev, width, height, row + 1)
  {
    var line := LineAt(shown, row);
    var t := start.ExecuteAll(m, buffer);
    Written(start, m, buffer, MoveTo(row + 1, 1));
    Written(start, m, buffer + [MoveTo(row + 1, 1)], EraseLine);
    Written(start, m, buffer + [MoveTo(row + 1, 1)] + [EraseLine], Write(Fit(m, line, width)));
    assert buffer + [MoveTo(row + 1, 1)] + [EraseLine] + [Write(Fit(m, line, width))]
        == buffer + [MoveTo(row + 1, 1), EraseLine, Write(Fit(m, line, width))];
    RowPainted(t, m, row, line);
  }
}
