/** The scroll window of `main_ui`: the offset of the first visible line is
    clamped against the number of lines and the height of the content
    region, written back into the session, and the visible text is the list
    of lines from that offset on. The height comes from the screen layout and
    is a parameter here.

    As written, the clamp allows `lines - height + 2` when the file does not
    fit. That can exceed the length of the line list when `height` is 0 or
    1, and then the slice of the line list is out of bounds. `ClampAsWritten`
    is the code as written; `ScrollOffset` also caps the offset at the length
    of the line list, so it gives the same offset as the code on every input
    where the code's slice is in bounds, and is what the session uses. */
module Scroll {
  import opened TextLines

  function Min(x: nat, y: nat): nat
  {
    if x <= y then x else y
  }

  /** The offset limit as written: none needed when the file fits, else
      `lines - height + 2` (the 2 are the border rows of the content frame). */
  function MaxScrollAsWritten(lines: nat, height: nat): nat
  {
    if lines <= height then 0
    else
      // `lines - height` does not underflow: this branch has `lines > height`.
      var d: nat := lines - height;
      d + 2
  }

  /** The clamp of `main_ui` as written. The result never moves the view
      forward, never passes the limit, and is one of the two. */
  function ClampAsWritten(cur: nat, lines: nat, height: nat): (pos: nat)
    ensures pos <= cur && pos <= MaxScrollAsWritten(lines, height)
    ensures pos == cur || pos == MaxScrollAsWritten(lines, height)
    ensures lines <= height ==> pos == 0
  {
    if lines <= height then 0
    else
      var d: nat := lines - height;
      Min(d + 2, cur)
  }

  /** With a content region at least two rows high, the as-written clamp
      keeps the slice in bounds. */
  lemma ClampAsWrittenInBounds(cur: nat, content: string, height: nat)
    requires height >= 2
    ensures ClampAsWritten(cur, CountNewlines(content), height) <= |Lines(content)|
  {
  }

  /** With a region of at most one row, text ending in a newline and longer
      than the region, and an offset past the last line, the as-written
      clamp gives an offset beyond the end of the line list: `v[max_pos..]`
      panics. */
  lemma ClampAsWrittenOutOfBounds(cur: nat, content: string, height: nat)
    requires height < 2 && CountNewlines(content) > height
    requires content[|content| - 1] == '\n' && cur > CountNewlines(content)
    ensures ClampAsWritten(cur, CountNewlines(content), height) > |Lines(content)|
  {
  }

  /** A concrete instance: a one-row region, the two-line text "a\nb\n" and
      three `Down` presses from the top give offset 3 into a list of 2 lines. */
  lemma ClampAsWrittenExample()
    ensures ClampAsWritten(3, CountNewlines("a\nb\n"), 1) == 3
    ensures |Lines("a\nb\n")| == 2
  {
  }

  /** The clamped offset: the code's offset, but never past the end of the
      line list (`count` lines). It is never forward of the requested offset,
      never past the code's limit, and it is exactly the code's offset
      whenever that one is within the line list. */
  function ScrollOffset(cur: nat, lines: nat, height: nat, count: nat): (pos: nat)
    ensures pos <= cur && pos <= MaxScrollAsWritten(lines, height) && pos <= count
    ensures ClampAsWritten(cur, lines, height) <= count ==> pos == ClampAsWritten(cur, lines, height)
    ensures ClampAsWritten(cur, lines, height) > count ==> pos == count
    ensures lines <= height ==> pos == 0
  {
    Min(ClampAsWritten(cur, lines, height), count)
  }

  /** With a region at least two rows high and `lines` the newline count of
      the content, the clamped offset is the code's offset. */
  lemma ScrollOffsetMatchesCode(cur: nat, content: string, height: nat)
    requires height >= 2
    ensures ScrollOffset(cur, CountNewlines(content), height, |Lines(content)|)
            == ClampAsWritten(cur, CountNewlines(content), height)
  {
    ClampAsWrittenInBounds(cur, content, height);
  }

  /** Where the code's slice is in bounds, even in a one-row region, the
      clamped offset is the code's: "a\nb\nc" has 2 newlines and 3 lines, and
      offset 3 stays 3 (an empty view). */
  lemma ScrollOffsetExample()
    ensures ClampAsWritten(3, CountNewlines("a\nb\nc"), 1) == 3
    ensures ScrollOffset(3, CountNewlines("a\nb\nc"), 1, |Lines("a\nb\nc")|) == 3
  {
  }

  /** Clamping an offset that is already clamped changes nothing. */
  lemma ScrollOffsetIdempotent(cur: nat, lines: nat, height: nat, count: nat)
    ensures ScrollOffset(ScrollOffset(cur, lines, height, count), lines, height, count)
            == ScrollOffset(cur, lines, height, count)
  {
  }

  /** The clamped offset is at most `max(0, lines - height + 2)`, and 0 when
      the whole file fits. */
  lemma ScrollOffsetBound(cur: nat, lines: nat, height: nat, count: nat)
    ensures ScrollOffset(cur, lines, height, count) <= if lines <= height then 0 else lines - height + 2
  {
  }

  /** The content frame of `main_ui`: the clamped offset to write back into
      the session, and the lines shown from it on. */
  method MainUi(curPos: nat, lines: nat, content: string, height: nat) returns (pos: nat, text: seq<string>)
    ensures pos == ScrollOffset(curPos, lines, height, |Lines(content)|)
    ensures pos <= |Lines(content)|
    ensures text == Lines(content)[pos..]
    ensures lines <= height ==> text == Lines(content)
  {
    var v := Lines(content);
    var maxPos: nat;
    if lines <= height {
      // The whole file is within the frame.
      maxPos := 0;
    } else {
      // Scroll until the last line is at the bottom of the frame, but never
      // past the end of the line list.
      var d: nat := lines - height;
      maxPos := Min(Min(d + 2, curPos), |v|);
    }
    pos := maxPos;
    text := v[maxPos..];
  }
}
