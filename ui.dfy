/** The interaction state machine of the pager, as values: the state of an
    `App` (without its terminal), one key press as a step from one state to
    the next, and a run of key presses as a fold that stops at the first key
    that asks to quit. The class `Session.App` performs the same steps in
    place. */
module Ui {
  import opened TextLines

  /** `UiState`: exactly one mode is active at a time. */
  datatype UiState = Main | FilePrompt | SearchPrompt

  /** The key codes the handlers tell apart; `Other` stands for every other
      crossterm key code (arrows left/right, function keys, ...). */
  datatype KeyCode = Char(c: char) | Esc | Enter | Backspace | Up | Down | Other

  /** What reading a whole file gives: its text, or an error whose debug
      rendering is `diagnostic`. */
  datatype ReadResult = Loaded(text: string) | Failed(diagnostic: string)

  /** The file system as the handlers see it: one read per file name. */
  type FileSystem = string -> ReadResult

  /** `prompt_string`: the label shown in the log while a prompt is open. */
  function PromptString(s: UiState): (p: string)
    ensures p == "" <==> s == Main
  {
    match s
    case Main => ""
    case FilePrompt => "ENTER FILENAME: "
    case SearchPrompt => "SEARCH STRING: "
  }

  /** Different modes show different labels, so the log tells which prompt is open. */
  lemma PromptStringInjective(s: UiState, t: UiState)
    ensures PromptString(s) == PromptString(t) <==> s == t
  {
  }

  /** The debug rendering of a key code, as the log shows unrecognised keys. */
  function KeyDebug(k: KeyCode): string
  {
    match k
    case Char(c) => "Char('" + [c] + "')"
    case Esc => "Esc"
    case Enter => "Enter"
    case Backspace => "Backspace"
    case Up => "Up"
    case Down => "Down"
    case Other => "Other"
  }

  /** The fields of `App` apart from its terminal. */
  datatype AppState = AppState(
    filename: string,
    tmpbuf: string,
    content: string,
    search: string,
    lines: nat,
    log: string,
    cur: nat,
    state: UiState)
  {
    /** What every step keeps: `lines` tracks `content`, and the prompt
        buffer is empty whenever no prompt is open. */
    predicate Valid()
    {
      lines == CountNewlines(content) && (state == Main ==> tmpbuf == "")
    }
  }

  const InitialLog: string := "<log text goes here>"

  /** The state `App::new` builds once the first read of `filename` gave `content`. */
  function Initial(filename: string, content: string): (a: AppState)
    ensures a.Valid() && a.state == Main && a.cur == 0 && a.tmpbuf == ""
    ensures a.filename == filename && a.content == content
  {
    AppState(filename, "", content, "", CountNewlines(content), InitialLog, 0, Main)
  }

  /** The content shown after committing the file prompt: the text read, or
      a diagnostic that starts with "ERROR: ". */
  function LoadContent(r: ReadResult): (content: string)
    ensures r.Loaded? ==> content == r.text
    ensures r.Failed? ==> |content| >= 7 && content[..7] == "ERROR: "
  {
    match r
    case Loaded(text) => text
    case Failed(diagnostic) => "ERROR: " + diagnostic
  }

  /** The result of one key press: the next state and whether to terminate. */
  datatype Outcome = Outcome(app: AppState, quit: bool)

  /** `handle_main_key_event`: `q` and `Esc` terminate and change nothing;
      no viewer key touches the file, its content, the prompt buffer or the
      search string; only `o` and `s` leave the viewer, and only `Up` and
      `Down` move the offset. */
  function MainKey(a: AppState, key: KeyCode): (o: Outcome)
    ensures o.quit <==> key == Char('q') || key == Esc
    ensures o.quit ==> o.app == a
    ensures o.app.filename == a.filename && o.app.content == a.content && o.app.lines == a.lines
    ensures o.app.tmpbuf == a.tmpbuf && o.app.search == a.search
    ensures o.app.state == (if key == Char('o') then FilePrompt else if key == Char('s') then SearchPrompt else a.state)
    ensures key != Up && key != Down ==> o.app.cur == a.cur
  {
    match key
    case Char('q') | Esc => Outcome(a, true)
    case Char('o') => Outcome(a.(state := FilePrompt, log := PromptString(FilePrompt)), false)
    case Char('s') => Outcome(a.(state := SearchPrompt, log := PromptString(SearchPrompt)), false)
    case Down => Outcome(a.(cur := a.cur + 1, log := "Got KeyCode Down"), false)
    case Up => Outcome(a.(cur := if a.cur > 0 then a.cur - 1 else a.cur, log := "Got KeyCode Up"), false)
    case _ => Outcome(a.(log := "Got KeyCode " + KeyDebug(key)), false)
  }

  /** `handle_input_key_event`: the prompt editor shared by both prompts.
      Only `Esc` terminates, changing nothing; only `Enter` leaves a prompt,
      emptying the buffer; every other key keeps the mode, the file, its
      content, the offset and the search string. */
  function InputKey(a: AppState, key: KeyCode, fs: FileSystem): (o: Outcome)
    ensures o.quit <==> key == Esc
    ensures o.quit ==> o.app == a
    ensures a.state != Main && key == Enter ==> o.app.state == Main && o.app.tmpbuf == ""
    ensures key != Enter ==> o.app == a.(tmpbuf := o.app.tmpbuf, log := o.app.log)
  {
    match key
    case Esc => Outcome(a, true)
    case Enter =>
      (match a.state
      case FilePrompt =>
        var content := LoadContent(fs(a.tmpbuf));
        Outcome(a.(filename := a.tmpbuf, log := "Got: " + a.tmpbuf, tmpbuf := "", cur := 0,
                   lines := CountNewlines(content), content := content, state := Main), false)
      case SearchPrompt =>
        Outcome(a.(search := a.tmpbuf, log := "Got: " + a.tmpbuf, tmpbuf := "", state := Main), false)
      case Main =>
        // Neither guarded arm applies; the catch-all arm leaves everything.
        Outcome(a, false))
    case Backspace =>
      var buf := if a.tmpbuf == "" then a.tmpbuf else a.tmpbuf[..|a.tmpbuf| - 1];
      Outcome(a.(tmpbuf := buf, log := PromptString(a.state) + ": " + buf), false)
    case Char(c) =>
      var buf := a.tmpbuf + [c];
      Outcome(a.(tmpbuf := buf, log := PromptString(a.state) + " " + buf), false)
    case _ => Outcome(a, false)
  }

  /** `handle_key_event`: dispatch on the mode. */
  function HandleKey(a: AppState, key: KeyCode, fs: FileSystem): (o: Outcome)
    ensures o.quit <==> key == Esc || (a.state == Main && key == Char('q'))
    ensures o.quit ==> o.app == a
  {
    match a.state
    case FilePrompt => InputKey(a, key, fs)
    case SearchPrompt => InputKey(a, key, fs)
    case Main => MainKey(a, key)
  }

  /** Every key press keeps the invariant. */
  lemma HandleKeyPreservesValid(a: AppState, key: KeyCode, fs: FileSystem)
    requires a.Valid()
    ensures HandleKey(a, key, fs).app.Valid()
  {
  }

  /** In the viewer, `Down` scrolls one line further with no upper bound,
      `Up` scrolls one line back but never past the first line, and neither
      touches anything but the offset and the log. */
  lemma ScrollKeys(a: AppState, fs: FileSystem)
    requires a.state == Main
    ensures var o := HandleKey(a, Down, fs);
      !o.quit && o.app == a.(cur := a.cur + 1, log := o.app.log)
    ensures var o := HandleKey(a, Up, fs);
      !o.quit && o.app == a.(cur := if a.cur > 0 then a.cur - 1 else 0, log := o.app.log)
  {
  }

  /** In the viewer, `o` and `s` open the file and the search prompt and show
      its label; nothing else changes. */
  lemma PromptKeys(a: AppState, fs: FileSystem)
    requires a.state == Main
    ensures var o := HandleKey(a, Char('o'), fs);
      !o.quit && o.app == a.(state := FilePrompt, log := PromptString(FilePrompt))
    ensures var o := HandleKey(a, Char('s'), fs);
      !o.quit && o.app == a.(state := SearchPrompt, log := PromptString(SearchPrompt))
  {
  }

  /** In a prompt, a character (`q` included) is appended to the buffer and
      `Backspace` removes the last one if there is one; the mode stays. */
  lemma PromptEditing(a: AppState, c: char, fs: FileSystem)
    requires a.state != Main
    ensures var o := HandleKey(a, Char(c), fs);
      !o.quit && o.app == a.(tmpbuf := a.tmpbuf + [c], log := o.app.log)
    ensures var o := HandleKey(a, Backspace, fs);
      !o.quit && o.app == a.(tmpbuf := if a.tmpbuf == "" then "" else a.tmpbuf[..|a.tmpbuf| - 1], log := o.app.log)
  {
  }

  /** Committing the file prompt opens the typed name, whether or not the
      read succeeds, and goes back to the top of the viewer. */
  lemma CommitFilePrompt(a: AppState, fs: FileSystem)
    requires a.state == FilePrompt
    ensures var o := HandleKey(a, Enter, fs);
      && !o.quit
      && o.app.filename == a.tmpbuf
      && o.app.tmpbuf == ""
      && o.app.cur == 0
      && o.app.state == Main
      && o.app.content == LoadContent(fs(a.tmpbuf))
      && o.app.lines == CountNewlines(o.app.content)
      && o.app.search == a.search
  {
  }

  /** Committing the search prompt keeps the typed string and goes back to
      the viewer where it was. */
  lemma CommitSearchPrompt(a: AppState, fs: FileSystem)
    requires a.state == SearchPrompt
    ensures var o := HandleKey(a, Enter, fs);
      !o.quit && o.app == a.(search := a.tmpbuf, tmpbuf := "", state := Main, log := o.app.log)
  {
  }

  /** The key-event loop over a sequence of pending keys: handle them in
      order and stop at the first one that asks to terminate. A run with an
      `Esc` in it terminates (in every mode), and a run that terminates met
      an `Esc` or a `q`. */
  function Run(a: AppState, keys: seq<KeyCode>, fs: FileSystem): (o: Outcome)
    ensures Esc in keys ==> o.quit
    ensures o.quit ==> Esc in keys || Char('q') in keys
    decreases |keys|
  {
    if keys == [] then Outcome(a, false)
    else
      var o := HandleKey(a, keys[0], fs);
      if o.quit then o else Run(o.app, keys[1..], fs)
  }

  /** Running two sequences of keys is running the first, then (unless it
      quit) the second from where the first left off. */
  lemma {:induction false} RunAppend(a: AppState, k1: seq<KeyCode>, k2: seq<KeyCode>, fs: FileSystem)
    ensures Run(a, k1 + k2, fs) ==
      var o := Run(a, k1, fs); if o.quit then o else Run(o.app, k2, fs)
    decreases |k1|
  {
    if k1 == [] {
      assert k1 + k2 == k2;
    } else {
      assert (k1 + k2)[0] == k1[0];
      assert (k1 + k2)[1..] == k1[1..] + k2;
      var o := HandleKey(a, k1[0], fs);
      if !o.quit {
        RunAppend(o.app, k1[1..], k2, fs);
      }
    }
  }

  /** The invariant holds after any run of keys. */
  lemma {:induction false} RunPreservesValid(a: AppState, keys: seq<KeyCode>, fs: FileSystem)
    requires a.Valid()
    ensures Run(a, keys, fs).app.Valid()
    decreases |keys|
  {
    if keys != [] {
      HandleKeyPreservesValid(a, keys[0], fs);
      var o := HandleKey(a, keys[0], fs);
      if !o.quit {
        RunPreservesValid(o.app, keys[1..], fs);
      }
    }
  }

  /** A `q` or `Esc` pressed in the viewer ends the run at once, with the
      state unchanged, whatever keys follow it. */
  lemma {:induction false} RunQuitsAtQuitKey(a: AppState, k: KeyCode, rest: seq<KeyCode>, fs: FileSystem)
    requires a.state == Main && (k == Esc || k == Char('q'))
    ensures Run(a, [k] + rest, fs) == Outcome(a, true)
  {
    assert ([k] + rest)[0] == k;
  }

  /** `n` presses of the same key. */
  function Repeat(k: KeyCode, n: nat): (ks: seq<KeyCode>)
    ensures |ks| == n && forall i :: 0 <= i < n ==> ks[i] == k
  {
    if n == 0 then [] else [k] + Repeat(k, n - 1)
  }

  /** The key presses that type `s`. */
  function Typed(s: string): (ks: seq<KeyCode>)
    ensures |ks| == |s| && forall i :: 0 <= i < |s| ==> ks[i] == Char(s[i])
  {
    if s == [] then [] else [Char(s[0])] + Typed(s[1..])
  }

  /** `n` presses of `Down` in the viewer scroll `n` lines further. */
  lemma {:induction false} DownPresses(a: AppState, n: nat, fs: FileSystem)
    requires a.state == Main
    ensures var o := Run(a, Repeat(Down, n), fs);
      !o.quit && o.app == a.(cur := a.cur + n, log := o.app.log)
    decreases n
  {
    if n > 0 {
      var b := HandleKey(a, Down, fs).app;
      DownPresses(b, n - 1, fs);
    }
  }

  /** Any sequence of `Up` and `Down` presses in the viewer changes only the
      offset and the log, and never terminates. */
  lemma {:induction false} ScrollOnlyRun(a: AppState, keys: seq<KeyCode>, fs: FileSystem)
    requires a.state == Main
    requires forall i :: 0 <= i < |keys| ==> keys[i] == Up || keys[i] == Down
    ensures var o := Run(a, keys, fs);
      !o.quit && o.app == a.(cur := o.app.cur, log := o.app.log)
    decreases |keys|
  {
    if keys != [] {
      var b := HandleKey(a, keys[0], fs).app;
      ScrollOnlyRun(b, keys[1..], fs);
    }
  }

  /** `n` presses of `Up` in the viewer scroll `n` lines back, stopping at
      the first line. */
  lemma {:induction false} UpPresses(a: AppState, n: nat, fs: FileSystem)
    requires a.state == Main
    ensures var o := Run(a, Repeat(Up, n), fs);
      !o.quit && o.app == a.(cur := if a.cur >= n then a.cur - n else 0, log := o.app.log)
    decreases n
  {
    if n > 0 {
      var b := HandleKey(a, Up, fs).app;
      UpPresses(b, n - 1, fs);
    }
  }

  /** Typing a string in a prompt appends it to the buffer. */
  lemma {:induction false} TypeIntoPrompt(a: AppState, s: string, fs: FileSystem)
    requires a.state != Main
    ensures var o := Run(a, Typed(s), fs);
      !o.quit && o.app == a.(tmpbuf := a.tmpbuf + s, log := o.app.log)
    decreases |s|
  {
    if s != [] {
      var b := HandleKey(a, Char(s[0]), fs).app;
      TypeIntoPrompt(b, s[1..], fs);
      assert b.tmpbuf + s[1..] == a.tmpbuf + s;
    }
  }

  /** `n` presses of `Backspace` in a prompt drop the last `n` characters of
      the buffer, or all of them when there are fewer. */
  lemma {:induction false} EraseFromPrompt(a: AppState, n: nat, fs: FileSystem)
    requires a.state != Main
    ensures var o := Run(a, Repeat(Backspace, n), fs);
      var keep := if n <= |a.tmpbuf| then |a.tmpbuf| - n else 0;
      !o.quit && o.app == a.(tmpbuf := a.tmpbuf[..keep], log := o.app.log)
    decreases n
  {
    if n == 0 {
      assert a.tmpbuf[..|a.tmpbuf|] == a.tmpbuf;
    } else {
      var b := HandleKey(a, Backspace, fs).app;
      EraseFromPrompt(b, n - 1, fs);
    }
  }

  /** Typing `s` and then pressing `Backspace` `|s|` times gives back the
      buffer as it was, in the same prompt. */
  lemma TypeThenEraseRestoresBuffer(a: AppState, s: string, fs: FileSystem)
    requires a.state != Main
    ensures var o := Run(a, Typed(s) + Repeat(Backspace, |s|), fs);
      !o.quit && o.app == a.(log := o.app.log)
  {
    RunAppend(a, Typed(s), Repeat(Backspace, |s|), fs);
    TypeIntoPrompt(a, s, fs);
    var b := Run(a, Typed(s), fs).app;
    EraseFromPrompt(b, |s|, fs);
    assert b.tmpbuf[..|b.tmpbuf| - |s|] == a.tmpbuf;
  }

  /** Opening a file from the viewer: `o`, the name, `Enter`. The viewer
      shows the file (or the read's diagnostic) from its first line, and the
      run does not terminate even when the read fails. */
  lemma OpenFile(a: AppState, name: string, fs: FileSystem)
    requires a.Valid() && a.state == Main
    ensures var o := Run(a, [Char('o')] + Typed(name) + [Enter], fs);
      && !o.quit
      && o.app.Valid()
      && o.app.state == Main
      && o.app.filename == name
      && o.app.content == LoadContent(fs(name))
      && o.app.lines == CountNewlines(LoadContent(fs(name)))
      && o.app.cur == 0
      && o.app.search == a.search
  {
    var b := HandleKey(a, Char('o'), fs).app;
    assert ([Char('o')] + Typed(name))[1..] == Typed(name);
    RunAppend(a, [Char('o')] + Typed(name), [Enter], fs);
    TypeIntoPrompt(b, name, fs);
    var c := Run(b, Typed(name), fs).app;
    assert c.tmpbuf == name;
    RunPreservesValid(a, [Char('o')] + Typed(name) + [Enter], fs);
  }

  /** Searching from the viewer: `s`, the string, `Enter`. The string is kept
      and nothing about the file or the scroll position changes. */
  lemma Search(a: AppState, term: string, fs: FileSystem)
    requires a.Valid() && a.state == Main
    ensures var o := Run(a, [Char('s')] + Typed(term) + [Enter], fs);
      !o.quit && o.app == a.(search := term, log := o.app.log)
  {
    var b := HandleKey(a, Char('s'), fs).app;
    assert ([Char('s')] + Typed(term))[1..] == Typed(term);
    RunAppend(a, [Char('s')] + Typed(term), [Enter], fs);
    TypeIntoPrompt(b, term, fs);
  }
}
