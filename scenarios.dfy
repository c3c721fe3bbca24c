/** Key presses followed by a render: what the content frame shows after
    scrolling. */
module Scenarios {
  import opened TextLines
  import opened Ui
  import opened Scroll
  import opened Session

  /** However many times `Down` is pressed, the rendered offset stays within
      `max(0, lines - height + 2)`. */
  lemma DownPressesThenRenderBounded(a: AppState, n: nat, height: nat, fs: FileSystem)
    requires a.state == Main
    ensures var o := Run(a, Repeat(Down, n), fs);
      o.app.lines == a.lines && o.app.content == a.content &&
      ScrollOffset(o.app.cur, a.lines, height, |Lines(a.content)|) <= if a.lines <= height then 0 else a.lines - height + 2
  {
    DownPresses(a, n, fs);
    var o := Run(a, Repeat(Down, n), fs);
    ScrollOffsetBound(o.app.cur, a.lines, height, |Lines(a.content)|);
  }

  /** A file that fits in the region is always shown from its first line,
      whatever `Up` and `Down` presses came before, in any order. */
  lemma ShortFileNeverScrolls(a: AppState, keys: seq<KeyCode>, height: nat, fs: FileSystem)
    requires a.state == Main && a.lines <= height
    requires forall i :: 0 <= i < |keys| ==> keys[i] == Up || keys[i] == Down
    ensures var o := Run(a, keys, fs);
      && !o.quit
      && o.app.content == a.content
      && o.app.lines == a.lines
      && ScrollOffset(o.app.cur, o.app.lines, height, |Lines(o.app.content)|) == 0
  {
    ScrollOnlyRun(a, keys, fs);
  }

  /** A 5-line file in a 10-row region: three `Down` presses still show the
      file from its first line. */
  lemma FiveLinesTenRows(a: AppState, fs: FileSystem)
    requires a.state == Main && a.lines == 5
    ensures ScrollOffset(Run(a, Repeat(Down, 3), fs).app.cur, 5, 10, |Lines(a.content)|) == 0
  {
    DownPresses(a, 3, fs);
  }

  /** A 100-line file in a 20-row region: 200 `Down` presses stop at offset
      100 - 20 + 2 = 82. */
  lemma HundredLinesTwentyRows(a: AppState, fs: FileSystem)
    requires a.Valid() && a.state == Main && a.lines == 100
    ensures ScrollOffset(Run(a, Repeat(Down, 200), fs).app.cur, 100, 20, |Lines(a.content)|) == 82
  {
    DownPresses(a, 200, fs);
  }

  /** Because the clamped offset is written back, one `Up` after a render
      moves the view one line back at once instead of first working off
      presses that had no visible effect. */
  lemma UpAfterRenderTakesEffect(a: AppState, height: nat, fs: FileSystem)
    requires a.state == Main && ScrollOffset(a.cur, a.lines, height, |Lines(a.content)|) > 0
    ensures var rendered := a.(cur := ScrollOffset(a.cur, a.lines, height, |Lines(a.content)|));
      var o := HandleKey(rendered, Up, fs);
      ScrollOffset(o.app.cur, o.app.lines, height, |Lines(o.app.content)|) == rendered.cur - 1
  {
    var rendered := a.(cur := ScrollOffset(a.cur, a.lines, height, |Lines(a.content)|));
    ScrollKeys(rendered, fs);
  }

  /** The same 100-line scenario on the object: 200 `Down` presses pending
      in one poll, then a render of a 20-row region. */
  method ScrollHundredLines(app: App, fs: FileSystem) returns (text: seq<string>)
    requires app.Valid() && app.state == Main && app.lines == 100
    modifies app
    ensures app.cur == 82 && app.content == old(app.content)
    ensures text == Lines(app.content)[82..]
  {
    DownPresses(app.Model(), 200, fs);
    var quit := app.HandleEvents(Repeat(Down, 200), fs);
    assert !quit;
    text := app.RenderUi(20);
  }
}
