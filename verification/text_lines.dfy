/**
  Line arithmetic on a text buffer: where a newline occurs, where the line
  holding a position starts, and where its indentation ends.

  These are the two string helpers the list watcher calls (line start and
  next non-whitespace). Their own source is not part of this model; they are
  given here as the scans their names describe, with a blank being a space or
  a tab.
*/
module TextLines {

  /** Indentation characters skipped before a list marker. */
  predicate IsBlank(c: char) {
    c == ' ' || c == '\t'
  }

  /** Some index in [lo, hi) holds a newline. */
  predicate NewlineIn(s: string, lo: int, hi: int) {
    exists i :: lo <= i < hi && 0 <= i < |s| && s[i] == '\n'
  }

  /** `ls` is the start of the line that holds position `i`: nothing in
      [ls, i) is a newline, and `ls` is the buffer start or just after one. */
  predicate IsLineStartOf(s: string, i: int, ls: int) {
    && 0 <= ls <= i <= |s|
    && (ls == 0 || s[ls - 1] == '\n')
    && forall j :: ls <= j < i ==> s[j] != '\n'
  }

  /** Scans back from `i` to just after the previous newline, or to 0. */
  function LineStart(s: string, i: int): (ls: int)
    requires 0 <= i <= |s|
    ensures IsLineStartOf(s, i, ls)
    decreases i
  {
    if i == 0 || s[i - 1] == '\n' then i else LineStart(s, i - 1)
  }

  /** Scans forward from `i` over blanks; stops at the first non-blank or at
      the end of the buffer. */
  function NextNonBlank(s: string, i: int): (k: int)
    requires 0 <= i <= |s|
    ensures i <= k <= |s|
    ensures forall j :: i <= j < k ==> IsBlank(s[j])
    ensures k < |s| ==> !IsBlank(s[k])
    decreases |s| - i
  {
    if i < |s| && IsBlank(s[i]) then NextNonBlank(s, i + 1) else i
  }

  /** A position has exactly one line start. */
  lemma LineStartUnique(s: string, i: int, a: int, b: int)
    requires IsLineStartOf(s, i, a) && IsLineStartOf(s, i, b)
    ensures a == b
  {
  }

  /** The scan and the declarative description pick the same line start. */
  lemma LineStartCharacterized(s: string, i: int, ls: int)
    requires 0 <= i <= |s|
    ensures LineStart(s, i) == ls <==> IsLineStartOf(s, i, ls)
  {
    if IsLineStartOf(s, i, ls) {
      LineStartUnique(s, i, ls, LineStart(s, i));
    }
  }

  /** A newline at `i` stops the indentation scan of its own line at or
      before `i`, so the text between the indentation and the newline is a
      well-formed range. */
  lemma IndentEndsBeforeNewline(s: string, ls: int, i: int)
    requires 0 <= ls <= i < |s| && s[i] == '\n'
    ensures NextNonBlank(s, ls) <= i
  {
  }
}
