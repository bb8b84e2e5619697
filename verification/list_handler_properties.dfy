/**
  Properties of the list watcher that relate several calls: one edit batch
  as a whole, the precedence between the two list patterns, the deletion's
  frame, and the worked scenarios of enter on an empty bullet and on a
  populated numbered item.
*/
module ListHandlerProperties {
  import opened Options
  import opened TextLines
  import opened ListHandler

  /** The before-phase replaces the batch state; nothing of the previous
      batch's trigger or position survives it. */
  lemma BeforeOverwrites(w1: Watcher, w2: Watcher, s: string, start: int, count: int)
    requires ScanFits(s, start, count)
    requires w1.reorderEnabled == w2.reorderEnabled && w1.pending == w2.pending
    ensures Before(w1, s, start, count) == Before(w2, s, start, count)
  {
  }

  /** The line start of a position depends only on the text before it. */
  lemma {:induction false} LineStartDependsOnPrefix(s: string, t: string, i: int)
    requires 0 <= i <= |s| && i <= |t| && s[..i] == t[..i]
    ensures LineStart(s, i) == LineStart(t, i)
    decreases i
  {
    if i > 0 {
      assert s[i - 1] == s[..i][i - 1] == t[..i][i - 1] == t[i - 1];
      if s[i - 1] != '\n' {
        assert s[..i - 1] == s[..i][..i - 1];
        assert t[..i - 1] == t[..i][..i - 1];
        LineStartDependsOnPrefix(s, t, i - 1);
      }
    }
  }

  /** The deletion keeps everything outside [lo, hi): any buffer that agrees
      with `e` before `lo` and with `e` shifted down after it, and has the
      shortened length, is the result of the deletion. */
  lemma DeleteRangeCharacterized(e: string, lo: int, hi: int, r: string)
    requires 0 <= lo <= hi <= |e|
    ensures r == DeleteRange(e, lo, hi) <==>
      && |r| == |e| - (hi - lo)
      && (forall i :: 0 <= i < lo ==> r[i] == e[i])
      && (forall i :: lo <= i < |r| ==> r[i] == e[i + (hi - lo)])
  {
    var d := DeleteRange(e, lo, hi);
    if |r| == |e| - (hi - lo)
       && (forall i :: 0 <= i < lo ==> r[i] == e[i])
       && (forall i :: lo <= i < |r| ==> r[i] == e[i + (hi - lo)])
    {
      assert forall i :: 0 <= i < |r| ==> r[i] == d[i];
    }
  }

  /** A bullet line that is not an empty bullet is tried against the
      numbered pattern: if that matches, the line is an empty numbered item
      (marked) or a populated one (renumbering). */
  lemma PopulatedBulletFallsThrough(p: ListPatterns, s: string, start: int, count: int,
                                    marker: string, number: string)
    requires EnterAt(s, start, count)
    requires p.unordered(PreviousLine(s, start)) == Some(marker)
    requires PreviousLine(s, start) != marker + " "
    requires p.ordered(PreviousLine(s, start)) == Some(number)
    ensures PreviousLine(s, start) == number + ". " ==>
      Classify(p, s, start, count) == MarkLine(Range(LineStart(s, start), start + 1))
    ensures PreviousLine(s, start) != number + ". " ==>
      Classify(p, s, start, count) == ReorderAt(start)
  {
    var d := Classify(p, s, start, count);
    if d.MarkLine? {
      LineStartUnique(s, start, d.range.lo, LineStart(s, start));
    }
  }

  /** An empty bullet is marked whatever the numbered pattern says. */
  lemma EmptyBulletTakesPrecedence(p: ListPatterns, s: string, start: int, count: int)
    requires EnterAt(s, start, count)
    requires EmptyUnorderedItem(p, PreviousLine(s, start))
    ensures Classify(p, s, start, count) == MarkLine(Range(LineStart(s, start), start + 1))
  {
    EmptyItemMarked(p, s, start, count);
  }

  /** The spliced range holds a newline exactly when the inserted text does. */
  lemma InsertedNewline(s: string, start: int, removed: int, inserted: string)
    requires 0 <= start && 0 <= removed && start + removed <= |s|
    ensures NewlineIn(Splice(s, start, removed, inserted), start, start + |inserted|)
            <==> '\n' in inserted
  {
    var t := Splice(s, start, removed, inserted);
    assert forall k :: 0 <= k < |inserted| ==> t[start + k] == inserted[k] by {
      forall k | 0 <= k < |inserted|
        ensures t[start + k] == inserted[k]
      {
        assert t[start + k] == t[start..start + |inserted|][k];
      }
    }
    if '\n' in inserted {
      var k :| 0 <= k < |inserted| && inserted[k] == '\n';
      assert t[start + k] == '\n';
    }
  }

  /** A batch that neither removes nor inserts a newline leaves the trigger
      off, changes nothing beyond the host's own splice, and requests no
      renumbering. */
  lemma BatchWithoutNewline(w: Watcher, p: ListPatterns, s: string, start: int, removed: int,
                            inserted: string)
    requires Idle(w)
    requires 0 <= start && 0 <= removed && start + removed <= |s|
    requires !NewlineIn(s, start, start + removed) && '\n' !in inserted
    ensures var r := Batch(w, p, s, start, removed, inserted);
      && !r.watcher.triggerReorder
      && r.buffer == Splice(s, start, removed, inserted)
      && r.renumberAt.None?
  {
    InsertedNewline(s, start, removed, inserted);
  }

  /** A pure deletion (nothing inserted) never marks a line: the buffer is
      the host's splice. */
  lemma BatchDeletionMarksNothing(w: Watcher, p: ListPatterns, s: string, start: int,
                                  removed: int)
    requires Idle(w)
    requires 0 <= start && 0 <= removed && start + removed <= |s|
    ensures Batch(w, p, s, start, removed, []).buffer == s[..start] + s[start + removed..]
  {
  }

  /** Enter after an empty item, of either kind, marks exactly that item's
      line together with the typed newline. */
  lemma EmptyItemMarked(p: ListPatterns, s: string, start: int, count: int)
    requires EnterAt(s, start, count)
    requires EmptyItem(p, PreviousLine(s, start))
    ensures Classify(p, s, start, count) == MarkLine(Range(LineStart(s, start), start + 1))
  {
  }

  /** Unless enter follows an empty item, the watcher adds no edit of its
      own: the buffer is the host's splice, and renumbering is requested,
      from the edit start, exactly when it is enabled, the removed or the
      inserted text holds a newline, and the start is interior. */
  lemma BatchKeepsSpliceUnlessEmptyItem(w: Watcher, p: ListPatterns, s: string, start: int,
                                        removed: int, inserted: string)
    requires Idle(w)
    requires 0 <= start && 0 <= removed && start + removed <= |s|
    requires !EntersAfterEmptyItem(p, Splice(s, start, removed, inserted), start, |inserted|)
    ensures var r := Batch(w, p, s, start, removed, inserted);
      && r.buffer == Splice(s, start, removed, inserted)
      && r.renumberAt ==
           if && w.reorderEnabled
              && (NewlineIn(s, start, start + removed) || '\n' in inserted)
              && 0 < start < |r.buffer|
           then Some(start) else None
  {
    InsertedNewline(s, start, removed, inserted);
  }

  /** On a buffer where enter follows an empty item, the on- and
      after-phases together remove that line and the newline; the deletion,
      reported back to the watcher, moves the renumbering position to the
      line start. */
  lemma OnAfterDeletesEmptyItem(w: Watcher, p: ListPatterns, t: string, start: int,
                                count: int)
    requires Idle(w) && ScanFits(t, start, count)
    requires EntersAfterEmptyItem(p, t, start, count)
    ensures var ls := LineStart(t, start);
      var r := After(On(w, p, t, start, count), p, t);
      && r.buffer == t[..ls] + t[start + 1..]
      && r.renumberAt == if w.reorderEnabled && 0 < ls < |r.buffer| then Some(ls) else None
  {
    var ls := LineStart(t, start);
    assert NewlineIn(t, ls, start + 1) by {
      assert ls <= start < start + 1 && t[start] == '\n';
    }
  }

  /** A mark whose range is empty is dropped without touching the buffer:
      the deletion it asks for changes nothing and is not reported back, so
      the guard reads the fields this batch left. */
  lemma AfterDropsEmptyMark(p: ListPatterns)
    ensures var r := After(Watcher(true, 5, true, Some(Range(3, 3))), p, "0123456789");
      && r.buffer == "0123456789"
      && r.watcher == Watcher(true, 5, true, None)
      && r.renumberAt == Some(5)
  {
  }

  /** Typing text that starts with a newline at `start` leaves the text
      before it as it was and puts the newline at `start`. */
  lemma SpliceLeadingNewline(s: string, start: int, removed: int, inserted: string)
    requires 0 <= start && 0 <= removed && start + removed <= |s|
    requires |inserted| > 0 && inserted[0] == '\n'
    ensures var t := Splice(s, start, removed, inserted);
      && start < |t| && t[start] == '\n'
      && t[..start] == s[..start]
      && t[start + 1..] == inserted[1..] + s[start + removed..]
  {
    var t := Splice(s, start, removed, inserted);
    assert t[start] == t[start..start + |inserted|][0];
    assert t[start + 1..] == t[start..start + |inserted|][1..] + t[start + |inserted|..];
  }

  /** The line start and the text before it are the same in the spliced and
      the old buffer. */
  lemma LineBeforeSplice(s: string, t: string, start: int)
    requires 0 <= start <= |s| && start <= |t| && t[..start] == s[..start]
    ensures LineStart(t, start) == LineStart(s, start)
    ensures t[..LineStart(s, start)] == s[..LineStart(s, start)]
  {
    var ls := LineStart(s, start);
    LineStartDependsOnPrefix(s, t, start);
    assert t[..ls] == t[..start][..ls];
    assert s[..ls] == s[..start][..ls];
  }

  /** A batch is the before-phase on the old buffer followed by the on- and
      after-phases on the spliced one. */
  lemma BatchIsPhases(w: Watcher, p: ListPatterns, s: string, start: int, removed: int,
                      inserted: string)
    requires Idle(w)
    requires 0 <= start && 0 <= removed && start + removed <= |s|
    ensures var t := Splice(s, start, removed, inserted);
      Batch(w, p, s, start, removed, inserted)
      == After(On(Before(w, s, start, removed), p, t, start, |inserted|), p, t)
  {
  }

  /** The same, read on the spliced buffer: the batch cuts out the line
      ending at the typed newline, and renumbering moves to that line's
      start. */
  lemma BatchCutsEmptyItemLine(w: Watcher, p: ListPatterns, s: string, start: int,
                               removed: int, inserted: string)
    requires Idle(w)
    requires 0 <= start && 0 <= removed && start + removed <= |s|
    requires EntersAfterEmptyItem(p, Splice(s, start, removed, inserted), start, |inserted|)
    ensures var t := Splice(s, start, removed, inserted);
      var ls := LineStart(t, start);
      var r := Batch(w, p, s, start, removed, inserted);
      && r.buffer == t[..ls] + t[start + 1..]
      && r.renumberAt == if w.reorderEnabled && 0 < ls < |r.buffer| then Some(ls) else None
  {
    var t := Splice(s, start, removed, inserted);
    BatchIsPhases(w, p, s, start, removed, inserted);
    OnAfterDeletesEmptyItem(Before(w, s, start, removed), p, t, start, |inserted|);
  }

  /** Enter (alone or at the head of a paste) at the end of an empty list
      item removes that item's whole line, indentation included, together
      with the typed newline; the text before the line and the rest of the
      edit are untouched. Renumbering is then requested from the start of
      the removed line, and never when that line was the first. */
  lemma BatchDeletesEmptyItem(w: Watcher, p: ListPatterns, s: string, start: int,
                              removed: int, inserted: string)
    requires Idle(w)
    requires 0 <= start && 0 <= removed && start + removed <= |s|
    requires |inserted| > 0 && inserted[0] == '\n'
    requires EmptyItem(p, PreviousLine(Splice(s, start, removed, inserted), start))
    ensures var ls := LineStart(s, start);
      var r := Batch(w, p, s, start, removed, inserted);
      && r.buffer == s[..ls] + inserted[1..] + s[start + removed..]
      && r.renumberAt == if w.reorderEnabled && 0 < ls < |r.buffer| then Some(ls) else None
  {
    var t := Splice(s, start, removed, inserted);
    SpliceLeadingNewline(s, start, removed, inserted);
    LineBeforeSplice(s, t, start);
    BatchCutsEmptyItemLine(w, p, s, start, removed, inserted);
    CutLineInOldTerms(s, t, LineStart(s, start), start, removed, inserted,
                      Batch(w, p, s, start, removed, inserted).buffer);
  }

  /** Cutting [ls, start + 1) from the spliced buffer is the old text before
      `ls`, the inserted text after its newline, and the old text after the
      replaced range. */
  lemma CutLineInOldTerms(s: string, t: string, ls: int, start: int, removed: int,
                          inserted: string, buffer: string)
    requires 0 <= ls <= start && start + removed <= |s| && start < |t| && 0 <= removed
    requires |inserted| > 0
    requires t[..ls] == s[..ls] && t[start + 1..] == inserted[1..] + s[start + removed..]
    requires buffer == t[..ls] + t[start + 1..]
    ensures buffer == s[..ls] + inserted[1..] + s[start + removed..]
  {
  }

  /** Renumbering after any batch: requested exactly when it is enabled,
      the removed or the inserted text holds a newline, and the position is
      strictly inside the final buffer; the position is the edit start,
      unless an empty item's line was deleted, in which case it is that
      line's start. */
  lemma BatchRenumber(w: Watcher, p: ListPatterns, s: string, start: int, removed: int,
                      inserted: string)
    requires Idle(w)
    requires 0 <= start && 0 <= removed && start + removed <= |s|
    ensures var t := Splice(s, start, removed, inserted);
      var from := if EntersAfterEmptyItem(p, t, start, |inserted|) then LineStart(t, start) else start;
      var r := Batch(w, p, s, start, removed, inserted);
      && (r.renumberAt.Some? <==>
            && w.reorderEnabled
            && (NewlineIn(s, start, start + removed) || '\n' in inserted)
            && 0 < from < |r.buffer|)
      && (r.renumberAt.Some? ==> r.renumberAt.value == from)
  {
    var t := Splice(s, start, removed, inserted);
    if EntersAfterEmptyItem(p, t, start, |inserted|) {
      assert t[start] == t[start..start + |inserted|][0] == inserted[0];
      assert '\n' in inserted;
      BatchDeletesEmptyItem(w, p, s, start, removed, inserted);
      LineBeforeSplice(s, t, start);
    } else {
      BatchKeepsSpliceUnlessEmptyItem(w, p, s, start, removed, inserted);
    }
  }

  /** Enter after a populated numbered item deletes nothing and, when
      renumbering is enabled and the position is interior, requests it from
      the enter position. */
  lemma BatchEnterOnPopulatedOrderedItem(w: Watcher, p: ListPatterns, s: string, start: int,
                                         removed: int)
    requires Idle(w)
    requires 0 <= start && 0 <= removed && start + removed <= |s|
    requires PopulatedOrderedItem(p, PreviousLine(Splice(s, start, removed, "\n"), start))
    ensures var r := Batch(w, p, s, start, removed, "\n");
      && r.buffer == Splice(s, start, removed, "\n")
      && (r.renumberAt == if w.reorderEnabled && 0 < start then Some(start) else None)
  {
    SpliceLeadingNewline(s, start, removed, "\n");
    BatchKeepsSpliceUnlessEmptyItem(w, p, s, start, removed, "\n");
  }

  /** Apart from the mode flag, no state carries from one batch to the next:
      two idle watchers with the same mode behave identically. */
  lemma BatchForgetsPreviousBatch(w1: Watcher, w2: Watcher, p: ListPatterns, s: string,
                                  start: int, removed: int, inserted: string)
    requires Idle(w1) && Idle(w2) && w1.reorderEnabled == w2.reorderEnabled
    requires 0 <= start && 0 <= removed && start + removed <= |s|
    ensures Batch(w1, p, s, start, removed, inserted) == Batch(w2, p, s, start, removed, inserted)
  {
    BeforeOverwrites(w1, w2, s, start, removed);
  }

  /** The user types enter after "- " (cursor at 2): the bullet line and
      the newline are deleted, leaving an empty buffer, and nothing is
      renumbered. */
  lemma EnterOnEmptyBullet(p: ListPatterns, enabled: bool)
    requires p.unordered("- ") == Some("-")
    ensures Batch(NewWatcher(enabled), p, "- ", 2, 0, "\n").buffer == ""
    ensures Batch(NewWatcher(enabled), p, "- ", 2, 0, "\n").renumberAt == None
  {
    var t := Splice("- ", 2, 0, "\n");
    assert t == "- \n";
    assert LineStart(t, 2) == 0;
    assert PreviousLine(t, 2) == "- ";
    BatchDeletesEmptyItem(NewWatcher(enabled), p, "- ", 2, 0, "\n");
    LineBeforeSplice("- ", t, 2);
  }

  /** Enter after "- " with text below: the bullet line goes, the text
      below stays, and since the removed line was the first nothing is
      renumbered. */
  lemma EnterOnEmptyBulletAboveText(p: ListPatterns, enabled: bool)
    requires p.unordered("- ") == Some("-")
    ensures Batch(NewWatcher(enabled), p, "- \nfoo", 2, 0, "\n").buffer == "\nfoo"
    ensures Batch(NewWatcher(enabled), p, "- \nfoo", 2, 0, "\n").renumberAt == None
  {
    var t := Splice("- \nfoo", 2, 0, "\n");
    assert t == "- \n\nfoo";
    assert LineStart(t, 2) == 0;
    assert PreviousLine(t, 2) == "- ";
    BatchDeletesEmptyItem(NewWatcher(enabled), p, "- \nfoo", 2, 0, "\n");
    LineBeforeSplice("- \nfoo", t, 2);
    assert ("- \nfoo")[..0] + "" + ("- \nfoo")[2..] == "\nfoo";
  }

  /** Enter after the empty second item of "1. a\n2. \n3. b" (cursor at 8):
      the "2. " line and the newline go, and renumbering is requested from
      5, where the deleted line started. */
  lemma EnterOnEmptyNumberedItem(p: ListPatterns)
    requires p.unordered("2. ") == None && p.ordered("2. ") == Some("2")
    ensures Batch(NewWatcher(true), p, "1. a\n2. \n3. b", 8, 0, "\n").buffer == "1. a\n\n3. b"
    ensures Batch(NewWatcher(true), p, "1. a\n2. \n3. b", 8, 0, "\n").renumberAt == Some(5)
  {
    var s := "1. a\n2. \n3. b";
    var t := Splice(s, 8, 0, "\n");
    assert t == "1. a\n2. \n\n3. b";
    assert t[4] == '\n';
    assert LineStart(t, 8) == 5;
    assert PreviousLine(t, 8) == "2. ";
    BatchDeletesEmptyItem(NewWatcher(true), p, s, 8, 0, "\n");
    LineBeforeSplice(s, t, 8);
    assert s[..5] + "" + s[8..] == "1. a\n\n3. b";
  }

  /** The user types enter after "1. foo" (cursor at 6): nothing is
      deleted, and with renumbering enabled the renumberer is asked to start
      at 6. */
  lemma EnterOnPopulatedOrderedItem(p: ListPatterns)
    requires p.unordered("1. foo") == None && p.ordered("1. foo") == Some("1")
    ensures Batch(NewWatcher(true), p, "1. foo", 6, 0, "\n").buffer == "1. foo\n"
    ensures Batch(NewWatcher(true), p, "1. foo", 6, 0, "\n").renumberAt == Some(6)
  {
    var t := Splice("1. foo", 6, 0, "\n");
    assert t == "1. foo\n";
    assert LineStart(t, 6) == 0;
    assert PreviousLine(t, 6) == "1. foo";
    BatchEnterOnPopulatedOrderedItem(NewWatcher(true), p, "1. foo", 6, 0);
  }

  /** The user types enter after "- item": the bullet is not empty and the
      numbered pattern does not match, so nothing is deleted. */
  lemma EnterOnPopulatedBullet(p: ListPatterns, enabled: bool)
    requires p.unordered("- item") == Some("-") && p.ordered("- item") == None
    ensures Batch(NewWatcher(enabled), p, "- item", 6, 0, "\n").buffer == "- item\n"
  {
    var t := Splice("- item", 6, 0, "\n");
    assert t == "- item\n";
    assert LineStart(t, 6) == 0;
    assert PreviousLine(t, 6) == "- item";
  }
}
