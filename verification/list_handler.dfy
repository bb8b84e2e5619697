/**
  The Markdown list watcher: a listener that the host editor calls three
  times around every edit of the buffer (before, on, after). It deletes the
  line of an empty list item when the user presses enter on it, and asks the
  ordered-list renumberer to run when an edit adds or removes a line break.

  The watcher's fields become an immutable record and each callback a pure
  step function. The buffer is a `string`; the editor's deletion span is one
  optional pending range; the two list-marker patterns are parameters; the
  renumberer is a requested position in the outcome.
*/
module ListHandler {
  import opened Options
  import opened TextLines

  /** The half-open character range [lo, hi). */
  datatype Range = Range(lo: int, hi: int)

  /** The watcher's state. `reorderEnabled` is fixed at construction;
      `reorderPosition` and `triggerReorder` belong to the current edit
      batch; `pending` is the range marked for deletion by the on-phase and
      consumed by the after-phase. */
  datatype Watcher = Watcher(
    reorderEnabled: bool,
    reorderPosition: int,
    triggerReorder: bool,
    pending: Option<Range>)

  /** The two list-marker matchers. `unordered(line)` is the text of the
      first match of the bullet pattern in `line`; `ordered(line)` is the
      first capture group (the number) of the first match of the numbered
      pattern. `None` when the pattern does not occur. */
  datatype ListPatterns = ListPatterns(
    unordered: string -> Option<string>,
    ordered: string -> Option<string>)

  /** What the on-phase decides for one edit. */
  datatype Decision = NoAction | MarkLine(range: Range) | ReorderAt(pos: int)

  /** The watcher and buffer after the after-phase, and the position the
      renumberer is asked to start from, if it is asked at all. */
  datatype Outcome = Outcome(watcher: Watcher, buffer: string, renumberAt: Option<int>)

  /** No deletion mark is outstanding: the state between two batches. */
  predicate Idle(w: Watcher) {
    w.pending.None?
  }

  /** The range [start, start + count) the host reports lies in `s`. With
      no characters to read, any `start` will do. */
  predicate ScanFits(s: string, start: int, count: int) {
    count <= 0 || (0 <= start && start + count <= |s|)
  }

  /** A pending mark, if any, lies within a buffer of length `n`. */
  predicate MarkFits(m: Option<Range>, n: int) {
    m.None? || 0 <= m.value.lo <= m.value.hi <= n
  }

  /** A fresh watcher: no mark, no trigger, position 0. */
  function NewWatcher(reorderEnabled: bool): (w: Watcher)
    ensures Idle(w) && !w.triggerReorder && w.reorderPosition == 0
    ensures w.reorderEnabled == reorderEnabled
  {
    Watcher(reorderEnabled, 0, false, None)
  }

  /** The newline test of the source: a loop over [start, start + count)
      that returns as soon as it reads a newline. */
  method ContainsNewline(s: string, start: int, count: int) returns (found: bool)
    requires ScanFits(s, start, count)
    ensures found <==> exists i :: start <= i < start + count && s[i] == '\n'
  {
    var end := start + count;
    var i := start;
    while i < end
      invariant count > 0 ==> 0 <= start <= i <= end <= |s|
      invariant count <= 0 ==> i == start
      invariant forall j :: start <= j < i ==> s[j] != '\n'
    {
      if s[i] == '\n' {
        return true;
      }
      i := i + 1;
    }
    return false;
  }

  /** Before-phase: [start, start + count) of `s` is about to be replaced.
      Starts a new batch: the trigger becomes the newline test of the
      doomed range and the reorder position becomes `start`, whatever they
      were before. */
  function Before(w: Watcher, s: string, start: int, count: int): (r: Watcher)
    requires ScanFits(s, start, count)
    ensures r.triggerReorder <==> exists i :: start <= i < start + count && s[i] == '\n'
    ensures r.reorderPosition == start
    ensures r.reorderEnabled == w.reorderEnabled && r.pending == w.pending
  {
    w.(triggerReorder := NewlineIn(s, start, start + count), reorderPosition := start)
  }

  /** The on-phase looks at lines only when the edit put a newline at
      `start`: the user pressed enter there. */
  predicate EnterAt(s: string, start: int, count: int) {
    count > 0 && start > -1 && start < |s| && s[start] == '\n'
  }

  /** The text of the line ending at the newline `start`, without its
      indentation. */
  function PreviousLine(s: string, start: int): (line: string)
    requires 0 <= start < |s| && s[start] == '\n'
    ensures |line| <= start && line == s[start - |line|..start]
    ensures forall j :: 0 <= j < |line| ==> line[j] != '\n'
    ensures |line| > 0 ==> !IsBlank(line[0])
    ensures forall j :: LineStart(s, start) <= j < start - |line| ==> IsBlank(s[j])
  {
    var ls := LineStart(s, start);
    IndentEndsBeforeNewline(s, ls, start);
    s[NextNonBlank(s, ls)..start]
  }

  /** A bullet with nothing after it: the line is the marker and one space. */
  predicate EmptyUnorderedItem(p: ListPatterns, line: string) {
    match p.unordered(line)
    case Some(marker) => line == marker + " "
    case None => false
  }

  /** A number with nothing after it: the line is the number, a dot and one
      space. */
  predicate EmptyOrderedItem(p: ListPatterns, line: string) {
    match p.ordered(line)
    case Some(number) => line == number + ". "
    case None => false
  }

  /** A list item with no text, of either kind. */
  predicate EmptyItem(p: ListPatterns, line: string) {
    EmptyUnorderedItem(p, line) || EmptyOrderedItem(p, line)
  }

  /** A numbered item that is not empty (and not an empty bullet). */
  predicate PopulatedOrderedItem(p: ListPatterns, line: string) {
    p.ordered(line).Some? && !EmptyItem(p, line)
  }

  /** The on-phase's decision. Enter after an empty item marks that item's
      whole line, indentation and typed newline included; enter after a
      populated numbered item asks for renumbering from `start`; anything
      else does nothing. A bullet line that is not empty is still tried
      against the numbered pattern. */
  function Classify(p: ListPatterns, s: string, start: int, count: int): (d: Decision)
    ensures !EnterAt(s, start, count) ==> d == NoAction
    ensures EnterAt(s, start, count) ==>
      && (d.MarkLine? <==> EmptyItem(p, PreviousLine(s, start)))
      && (d.ReorderAt? <==> PopulatedOrderedItem(p, PreviousLine(s, start)))
    ensures d.MarkLine? ==>
      && d.range == Range(LineStart(s, start), start + 1)
      && d.range.hi <= |s| && s[start] == '\n'
    ensures d.ReorderAt? ==> d.pos == start
  {
    if !EnterAt(s, start, count) then NoAction
    else
      var lineStart := LineStart(s, start);
      var line := PreviousLine(s, start);
      if EmptyUnorderedItem(p, line) then MarkLine(Range(lineStart, start + 1))
      else
        match p.ordered(line)
        case Some(number) =>
          if line == number + ". " then MarkLine(Range(lineStart, start + 1))
          else ReorderAt(start)
        case None => NoAction
  }

  /** Enter was pressed right after an empty list item: the on-phase marks
      that item's line. */
  predicate EntersAfterEmptyItem(p: ListPatterns, s: string, start: int, count: int) {
    EnterAt(s, start, count) && EmptyItem(p, PreviousLine(s, start))
  }

  /** Enter was pressed right after a populated numbered item: the
      on-phase records the enter position for renumbering. */
  predicate EntersAfterPopulatedOrderedItem(p: ListPatterns, s: string, start: int, count: int) {
    EnterAt(s, start, count) && PopulatedOrderedItem(p, PreviousLine(s, start))
  }

  /** On-phase: the edit has put `count` characters at `start` of `s`. The
      trigger also notices a newline among them and is never cleared; a mark
      replaces any earlier one; a reorder decision moves the position. */
  function On(w: Watcher, p: ListPatterns, s: string, start: int, count: int): (r: Watcher)
    requires ScanFits(s, start, count)
    ensures r.triggerReorder <==>
      w.triggerReorder || exists i :: start <= i < start + count && s[i] == '\n'
    ensures r.reorderEnabled == w.reorderEnabled
    ensures r.pending ==
      if EntersAfterEmptyItem(p, s, start, count)
      then Some(Range(LineStart(s, start), start + 1))
      else w.pending
    ensures r.reorderPosition ==
      if EntersAfterPopulatedOrderedItem(p, s, start, count) then start else w.reorderPosition
    ensures EntersAfterEmptyItem(p, s, start, count) ==>
      IsLineStartOf(s, start, LineStart(s, start)) && start + 1 <= |s| && s[start] == '\n'
    ensures MarkFits(w.pending, |s|) ==> MarkFits(r.pending, |s|)
  {
    var trigger := w.triggerReorder || NewlineIn(s, start, start + count);
    match Classify(p, s, start, count)
    case NoAction => w.(triggerReorder := trigger)
    case MarkLine(range) => w.(triggerReorder := trigger, pending := Some(range))
    case ReorderAt(pos) => w.(triggerReorder := trigger, reorderPosition := pos)
  }

  /** Removes [lo, hi) from `e`: the prefix before `lo` is kept and the
      suffix from `hi` moves down by the range's length. */
  function DeleteRange(e: string, lo: int, hi: int): (r: string)
    requires 0 <= lo <= hi <= |e|
    ensures |r| == |e| - (hi - lo)
    ensures forall i :: 0 <= i < lo ==> r[i] == e[i]
    ensures forall i :: lo <= i < |r| ==> r[i] == e[i + (hi - lo)]
  {
    e[..lo] + e[hi..]
  }

  /** The renumbering guard, read from the watcher's fields against a
      buffer of length `n`. */
  function RenumberRequest(w: Watcher, n: int): (r: Option<int>)
    ensures r.Some? <==> w.reorderEnabled && w.triggerReorder && 0 < w.reorderPosition < n
    ensures r.Some? ==> r.value == w.reorderPosition
  {
    if w.reorderEnabled && w.triggerReorder && w.reorderPosition > 0 && w.reorderPosition < n
    then Some(w.reorderPosition)
    else None
  }

  /** After-phase. Without a mark it only applies the renumbering guard.
      With a mark it deletes the marked range; the editor reports that
      deletion to this same watcher as a nested batch (before-phase on the
      range, on-phase with nothing inserted, after-phase with no mark left),
      so the guard then reads the fields that nested batch wrote: the trigger
      is the newline test of the deleted range and the position is its
      start. Deleting an empty range changes nothing and is not reported, so
      an empty mark is only dropped. */
  function After(w: Watcher, p: ListPatterns, e: string): (r: Outcome)
    requires MarkFits(w.pending, |e|)
    ensures Idle(r.watcher) && r.watcher.reorderEnabled == w.reorderEnabled
    ensures w.pending.Some? ==> r.buffer == e[..w.pending.value.lo] + e[w.pending.value.hi..]
    ensures w.pending.None? || w.pending.value.lo == w.pending.value.hi ==>
      r.buffer == e && r.watcher == w.(pending := None)
    ensures w.pending.Some? && w.pending.value.lo < w.pending.value.hi ==>
      && r.watcher.reorderPosition == w.pending.value.lo
      && (r.watcher.triggerReorder <==>
            exists i :: w.pending.value.lo <= i < w.pending.value.hi && e[i] == '\n')
    ensures r.renumberAt.Some? <==>
      && r.watcher.reorderEnabled && r.watcher.triggerReorder
      && 0 < r.watcher.reorderPosition < |r.buffer|
    ensures r.renumberAt.Some? ==> r.renumberAt.value == r.watcher.reorderPosition
  {
    match w.pending
    case None => Outcome(w, e, RenumberRequest(w, |e|))
    case Some(m) =>
      if m.lo == m.hi then
        Outcome(w.(pending := None), e, RenumberRequest(w, |e|))
      else
        var nested := Before(w.(pending := None), e, m.lo, m.hi - m.lo);
        var buffer := DeleteRange(e, m.lo, m.hi);
        var nested' := On(nested, p, buffer, m.lo, 0);
        Outcome(nested', buffer, RenumberRequest(nested', |buffer|))
  }

  /** The host's edit: `removed` characters at `start` of `s` are replaced
      by `inserted`. */
  function Splice(s: string, start: int, removed: int, inserted: string): (t: string)
    requires 0 <= start && 0 <= removed && start + removed <= |s|
    ensures |t| == |s| - removed + |inserted|
    ensures t[..start] == s[..start]
    ensures t[start..start + |inserted|] == inserted
    ensures t[start + |inserted|..] == s[start + removed..]
  {
    s[..start] + inserted + s[start + removed..]
  }

  /** One change batch, as the host delivers it: before-phase on the old
      buffer, the splice, on-phase on the new buffer, after-phase. The
      position left behind is the edit start, or the start of the deleted
      line when an empty item was removed. */
  function Batch(w: Watcher, p: ListPatterns, s: string, start: int, removed: int,
                 inserted: string): (r: Outcome)
    requires Idle(w)
    requires 0 <= start && 0 <= removed && start + removed <= |s|
    ensures Idle(r.watcher) && r.watcher.reorderEnabled == w.reorderEnabled
    ensures 0 <= r.watcher.reorderPosition <= start
  {
    var w1 := Before(w, s, start, removed);
    var t := Splice(s, start, removed, inserted);
    var w2 := On(w1, p, t, start, |inserted|);
    After(w2, p, t)
  }
}
