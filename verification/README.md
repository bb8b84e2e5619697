# Markdown list watcher (Markor `ListHandler`)

Markor's Markdown editor attaches a `ListHandler` to its text buffer. The host editor calls it three
times around every edit:

- **before-change**: the range about to be replaced is known;
- **on-change**: the new text has been spliced in;
- **after-change**: the edit is committed.

The watcher does two things:

- When the user presses enter on an empty list item ("- ", "1. "), it deletes that item's line
  together with the typed newline.
- When an edit adds or removes a line break, it asks the ordered-list renumberer to run from the
  edit position, if renumbering is enabled.

The model is functional:

- `Watcher` is the immutable record of the class's fields (`reorderEnabled`, `reorderPosition`,
  `triggerReorder`) plus `pending`, the one deletion range the editor's span would carry.
- `Before`, `On` and `After` are pure step functions over a `string` buffer.
- `Classify` is the on-phase's decision.
- `Batch` runs one whole before, splice, on, after sequence.
- `ContainsNewline` is the source's scanning loop, with its invariant.
- The two list-marker regexes are parameters (`ListPatterns`). `unordered` returns the text of the
  first bullet match, and `ordered` returns the first capture group of the first numbered match.
- The renumberer is not run. The outcome records the position it would be asked to start from.

Files:

- `options.dfy`: the `Option` type.
- `text_lines.dfy`: newline and line-start arithmetic.
- `list_handler.dfy`: the watcher.
- `list_handler_properties.dfy`: properties spanning several calls, and worked scenarios.

Facts about the class that shape the model:

- The class uses one span object, the watcher itself, so at most one deletion mark exists. A
  second `setSpan` in the same batch moves the first mark. The model has one optional pending range.
- The deletion at line 67 is itself an edit that the editor reports to the same watcher. Inside the
  after-phase, a nested before-phase (line 77-78) runs on the deleted range, followed by an on-phase
  that inserts nothing, and then a nested after-phase whose guard at line 70 reads the fields those
  two phases wrote. The renumbering request therefore comes from the nested batch's values. The
  trigger is the deleted range's newline test, which is true because the range ends in the typed
  newline. The position is the start of the deleted line. `After` models this nested batch.
- The before-phase already sets `reorderPosition` to `start`, so the on-phase assignment at line 55
  writes the value the field already holds.
- When no empty item is deleted, renumbering is requested, from the edit start, for any batch that
  removes or inserts a newline at an interior position, not only after a populated numbered item.
  When an empty item's line is deleted, renumbering is requested from that line's start, and not at
  all when the line was the first in the buffer (`BatchRenumber`).

## Model

| member | source | states |
|---|---|---|
| ListHandler.ContainsNewline | app/src/main/java/net/gsantner/markor/format/markdown/ListHandler.java:81-89 | the loop answers true exactly when some index in [start, start+count) holds a newline; false when count is 0 |
| ListHandler.NewWatcher | app/src/main/java/net/gsantner/markor/format/markdown/ListHandler.java:22-30 | a new watcher keeps the mode flag, has no trigger, no pending mark and position 0 (the field default at line 23) |
| ListHandler.Before | app/src/main/java/net/gsantner/markor/format/markdown/ListHandler.java:76-79 | the trigger becomes "the range to be replaced holds a newline", the position becomes start; mode and mark are untouched |
| ListHandlerProperties.BeforeOverwrites | app/src/main/java/net/gsantner/markor/format/markdown/ListHandler.java:76-79 | the before-phase's result does not depend on the previous trigger or position: it overwrites rather than accumulates |
| TextLines.LineStart | app/src/main/java/net/gsantner/markor/format/markdown/ListHandler.java:40 | the line start lies at or before the position, is 0 or just after a newline, and no newline lies between it and the position |
| TextLines.LineStartCharacterized | app/src/main/java/net/gsantner/markor/format/markdown/ListHandler.java:40 | the scanned line start is the one and only position with those three properties |
| TextLines.NextNonBlank | app/src/main/java/net/gsantner/markor/format/markdown/ListHandler.java:41 | the indentation scan passes only blanks and stops at a non-blank or at the end of the buffer |
| TextLines.IndentEndsBeforeNewline | app/src/main/java/net/gsantner/markor/format/markdown/ListHandler.java:41-43 | when the position holds a newline, the first non-blank of its line is at or before it, so the previous-line substring is well formed |
| ListHandlerProperties.LineStartDependsOnPrefix | app/src/main/java/net/gsantner/markor/format/markdown/ListHandler.java:40 | the line start of a position is decided by the text before it alone |
| ListHandler.PreviousLine | app/src/main/java/net/gsantner/markor/format/markdown/ListHandler.java:40-43 | the previous line is the text just before the newline, holds no newline, does not start with a blank, and only blanks lie between the line start and it |
| ListHandler.Classify | app/src/main/java/net/gsantner/markor/format/markdown/ListHandler.java:38-58 | no action unless count > 0, start is in the buffer and holds a newline; otherwise a mark exactly when the previous line is an empty bullet or an empty numbered item, a reorder at start exactly when it is a populated numbered item; a mark is [line start, start+1) inside the buffer |
| ListHandler.On | app/src/main/java/net/gsantner/markor/format/markdown/ListHandler.java:33-60 | the trigger becomes old trigger OR newline in the inserted range (never cleared); the mark becomes [line start, start+1) exactly when enter follows an empty item, else stays; the position becomes start exactly when enter follows a populated numbered item, else stays |
| ListHandlerProperties.PopulatedBulletFallsThrough | app/src/main/java/net/gsantner/markor/format/markdown/ListHandler.java:46-57 | a bullet line that is not an empty bullet is tested against the numbered pattern: an empty numbered item is marked, a populated one asks for renumbering |
| ListHandlerProperties.EmptyItemMarked | app/src/main/java/net/gsantner/markor/format/markdown/ListHandler.java:47-53 | enter after an empty bullet or an empty numbered item marks exactly [line start, start+1) |
| ListHandlerProperties.OnAfterDeletesEmptyItem | app/src/main/java/net/gsantner/markor/format/markdown/ListHandler.java:47-79 | on- and after-phase together cut the empty item's line and the typed newline out of the buffer, and renumbering moves to the line start |
| ListHandlerProperties.EmptyBulletTakesPrecedence | app/src/main/java/net/gsantner/markor/format/markdown/ListHandler.java:46-48 | an empty bullet line is marked whatever the numbered pattern says |
| ListHandler.DeleteRange | app/src/main/java/net/gsantner/markor/format/markdown/ListHandler.java:67 | deleting [lo, hi) shortens the buffer by hi-lo, keeps the prefix and shifts the suffix down |
| ListHandlerProperties.DeleteRangeCharacterized | app/src/main/java/net/gsantner/markor/format/markdown/ListHandler.java:65-69 | a buffer is the deletion's result if and only if it has that length, that prefix and that shifted suffix: nothing else changes |
| ListHandler.After | app/src/main/java/net/gsantner/markor/format/markdown/ListHandler.java:63-79 | without a mark, or with an empty one, the buffer and fields stay and only the mark is dropped; with a non-empty one, exactly the marked range is removed and, through the nested batch the deletion fires, the position becomes the range start and the trigger its newline test; renumbering is requested, at the position, if and only if enabled, triggered and 0 < position < new length |
| ListHandler.RenumberRequest | app/src/main/java/net/gsantner/markor/format/markdown/ListHandler.java:70-72 | the renumberer is called, at the position, exactly when reordering is enabled, the trigger is set and the position lies strictly inside the buffer |
| ListHandlerProperties.AfterDropsEmptyMark | app/src/main/java/net/gsantner/markor/format/markdown/ListHandler.java:65-72 | an empty mark leaves the buffer as it is and the guard reads this batch's own fields, so a set trigger at position 5 of a ten-character buffer still asks for renumbering at 5 |
| ListHandler.Batch | app/src/main/java/net/gsantner/markor/format/markdown/ListHandler.java:33-79 | a whole batch leaves no mark outstanding, keeps the mode flag, and leaves a position between 0 and the edit start |
| ListHandlerProperties.BatchRenumber | app/src/main/java/net/gsantner/markor/format/markdown/ListHandler.java:63-79 | for every batch, renumbering is requested if and only if enabled, the removed or inserted text holds a newline, and the position is strictly inside the final buffer; the position is the edit start, or the deleted line's start when an empty item was removed |
| ListHandlerProperties.BatchWithoutNewline | app/src/main/java/net/gsantner/markor/format/markdown/ListHandler.java:35-38 | a batch with no newline removed or inserted leaves the trigger off, adds no change to the host's splice and requests no renumbering |
| ListHandlerProperties.BatchDeletionMarksNothing | app/src/main/java/net/gsantner/markor/format/markdown/ListHandler.java:38 | an edit that inserts nothing never deletes anything beyond the host's own removal |
| ListHandlerProperties.BatchKeepsSpliceUnlessEmptyItem | app/src/main/java/net/gsantner/markor/format/markdown/ListHandler.java:38-72 | unless enter follows an empty item, the buffer is exactly the host's splice, and renumbering from the edit start is requested exactly when enabled, a newline was removed or inserted, and the start is interior |
| ListHandlerProperties.BatchDeletesEmptyItem | app/src/main/java/net/gsantner/markor/format/markdown/ListHandler.java:38-79 | enter (or a paste starting with a newline) after an empty list item leaves the text before that line, the rest of the insertion and the text after the edit; renumbering from the line start exactly when enabled and that start is interior |
| ListHandlerProperties.BatchEnterOnPopulatedOrderedItem | app/src/main/java/net/gsantner/markor/format/markdown/ListHandler.java:50-56 | enter after a populated numbered item deletes nothing, and renumbering from the enter position is requested exactly when enabled and the position is not 0 |
| ListHandlerProperties.BatchForgetsPreviousBatch | app/src/main/java/net/gsantner/markor/format/markdown/ListHandler.java:76-79 | two idle watchers with the same mode give identical batches: only the mode flag carries across batches |
| ListHandlerProperties.EnterOnEmptyBullet | app/src/main/java/net/gsantner/markor/format/markdown/ListHandler.java:46-48 | enter typed after "- " yields the empty buffer and no renumbering |
| ListHandlerProperties.EnterOnEmptyBulletAboveText | app/src/main/java/net/gsantner/markor/format/markdown/ListHandler.java:46-72 | enter typed after "- " above "foo" leaves "\nfoo" and requests no renumbering, because the deleted line started at 0 |
| ListHandlerProperties.EnterOnEmptyNumberedItem | app/src/main/java/net/gsantner/markor/format/markdown/ListHandler.java:50-72 | enter typed after the empty "2. " of a three-line numbered list removes that line and requests renumbering from 5, the line's start |
| ListHandlerProperties.EnterOnPopulatedOrderedItem | app/src/main/java/net/gsantner/markor/format/markdown/ListHandler.java:50-56 | enter typed after "1. foo" keeps "1. foo\n" and, with renumbering enabled, requests it at 6 |
| ListHandlerProperties.EnterOnPopulatedBullet | app/src/main/java/net/gsantner/markor/format/markdown/ListHandler.java:46-51 | enter typed after "- item" deletes nothing |

## Left out

- The Android `TextWatcher`, `Editable`, `Spannable` and `SPAN_COMPOSING` plumbing is host-side
  bookkeeping. The span is modelled as the single optional `pending` range.
- After: the request recorded is the one made by the nested after-phase that the deletion fires.
  Back in the outer after-phase, line 70 reads the fields again. By then the renumberer's own
  edits, each reported to the watcher, may have rewritten them. A second request from there is not
  modelled, because the renumberer's edits are not.
- After: after the deletion the editor keeps the span as an empty range (its flags do not make it
  exclusive). Deleting an empty range later is a no-op that fires no callbacks, so the model drops
  the mark instead. `After` treats any empty mark that way: it drops it, leaves the buffer as it is,
  and runs no nested batch.
- Span shifting is not modelled. A mark left from an earlier batch would be moved by the host's
  span tracking. The model has no such tracking, so `Batch` requires an idle watcher, and it
  proves that a batch leaves the watcher idle again.
- The two list-marker regular expressions are not part of this model. They are the parameters
  `ListPatterns.unordered` and `ListPatterns.ordered`, and no pattern syntax is assumed.
- The string utility class holding the line-start and next-non-whitespace helpers is not part of
  this model. They are the scans `TextLines.LineStart` and `TextLines.NextNonBlank`, with a blank
  being a space or a tab.
- The ordered-list renumberer is not part of this model. Its call is the `renumberAt` position of
  the outcome, and its algorithm is not modelled.
- ContainsNewline: requires the host's guarantee that [start, start+count) lies in the buffer.
  The Java loop would also return true for an over-long count when it meets a newline before
  running past the end, and it would throw otherwise. That out-of-contract case is not modelled.
- The `before`/`after` counts that the host passes are not used by the source, so the model drops
  them.
- Positions are counted in model characters, one per Unicode scalar value. The editor counts
  `start`, `count`, the span range and the renumbering position in UTF-16 code units. In a buffer
  with characters outside the Basic Multilingual Plane (an emoji, say), the model's offsets are
  therefore smaller than the editor's. The decisions compare only against newline, space and tab,
  so they are unaffected.
