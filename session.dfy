/** The `App` object: its fields are updated in place by the key handlers
    and by rendering, which writes the clamped scroll offset back. Every
    method is specified by the step of `Ui` (or the clamp of `Scroll`) it
    performs, so the properties proved there hold of the object. The
    terminal itself is not part of this model. */
module Session {
  import opened TextLines
  import opened Ui
  import opened Scroll

  datatype Option<T> = None | Some(value: T)

  class App {
    var filename: string
    var tmpbuf: string
    var content: string
    var search: string
    var lines: nat
    var log: string
    var cur: nat
    var state: UiState

    /** The object's fields as a value. */
    function Model(): AppState
      reads this
    {
      AppState(filename, tmpbuf, content, search, lines, log, cur, state)
    }

    predicate Valid()
      reads this
    {
      Model().Valid()
    }

    /** The session right after the first read of `filename` gave `text`. */
    constructor (filename: string, text: string)
      ensures Model() == Initial(filename, text) && Valid()
    {
      this.filename := filename;
      tmpbuf := "";
      content := text;
      search := "";
      lines := CountNewlines(text);
      log := InitialLog;
      cur := 0;
      state := Main;
    }

    /** `App::new`: read the file first; a failed read is fatal and yields no
        session. */
    static method New(filename: string, fs: FileSystem) returns (r: Option<App>)
      ensures r.None? <==> fs(filename).Failed?
      ensures r.Some? ==> fresh(r.value) && r.value.Valid()
      ensures r.Some? ==> r.value.Model() == Initial(filename, fs(filename).text)
    {
      match fs(filename)
      case Failed(_) =>
        r := None;
      case Loaded(text) =>
        var app := new App(filename, text);
        r := Some(app);
    }

    /** `handle_key_event`. */
    method HandleKeyEvent(key: KeyCode, fs: FileSystem) returns (quit: bool)
      modifies this
      ensures Model() == HandleKey(old(Model()), key, fs).app
      ensures quit == HandleKey(old(Model()), key, fs).quit
      ensures old(Valid()) ==> Valid()
    {
      if Valid() {
        HandleKeyPreservesValid(Model(), key, fs);
      }
      match state
      case FilePrompt => quit := HandleInputKeyEvent(key, fs);
      case SearchPrompt => quit := HandleInputKeyEvent(key, fs);
      case Main => quit := HandleMainKeyEvent(key);
    }

    /** `handle_main_key_event`. */
    method HandleMainKeyEvent(key: KeyCode) returns (quit: bool)
      modifies this
      ensures Model() == MainKey(old(Model()), key).app
      ensures quit == MainKey(old(Model()), key).quit
    {
      quit := false;
      match key
      case Char('q') | Esc =>
        quit := true;
      case Char('o') =>
        state := FilePrompt;
        log := PromptString(state);
      case Char('s') =>
        state := SearchPrompt;
        log := PromptString(state);
      case Down =>
        cur := cur + 1;
        log := "Got KeyCode Down";
      case Up =>
        if cur > 0 {
          cur := cur - 1;
        }
        log := "Got KeyCode Up";
      case _ =>
        log := "Got KeyCode " + KeyDebug(key);
    }

    /** `handle_input_key_event`. */
    method HandleInputKeyEvent(key: KeyCode, fs: FileSystem) returns (quit: bool)
      modifies this
      ensures Model() == InputKey(old(Model()), key, fs).app
      ensures quit == InputKey(old(Model()), key, fs).quit
    {
      quit := false;
      match key
      case Esc =>
        quit := true;
      case Enter =>
        if state == FilePrompt {
          filename := tmpbuf;
          log := "Got: " + tmpbuf;
          tmpbuf := "";
          cur := 0;
          var text := LoadContent(fs(filename));
          lines := CountNewlines(text);
          content := text;
          state := Main;
        } else if state == SearchPrompt {
          search := tmpbuf;
          log := "Got: " + tmpbuf;
          tmpbuf := "";
          state := Main;
        }
      case Backspace =>
        if tmpbuf != "" {
          tmpbuf := tmpbuf[..|tmpbuf| - 1];
        }
        log := PromptString(state) + ": " + tmpbuf;
      case Char(c) =>
        tmpbuf := tmpbuf + [c];
        log := PromptString(state) + " " + tmpbuf;
      case _ =>
    }

    /** `handle_event` over the keys pending in one poll: handle them in
        order, and report termination at the first key that asks for it
        (the rest are not read). */
    method HandleEvents(keys: seq<KeyCode>, fs: FileSystem) returns (quit: bool)
      modifies this
      ensures Model() == Run(old(Model()), keys, fs).app
      ensures quit == Run(old(Model()), keys, fs).quit
      ensures old(Valid()) ==> Valid()
    {
      ghost var start := Model();
      ghost var wasValid := Valid();
      var i := 0;
      quit := false;
      while i < |keys| && !quit
        invariant 0 <= i <= |keys|
        invariant !quit ==> Run(start, keys, fs) == Run(Model(), keys[i..], fs)
        invariant quit ==> Run(start, keys, fs) == Outcome(Model(), true)
        invariant wasValid ==> Valid()
      {
        ghost var before := Model();
        assert keys[i..][0] == keys[i] && keys[i..][1..] == keys[i + 1..];
        quit := HandleKeyEvent(keys[i], fs);
        assert quit ==> Run(before, keys[i..], fs) == Outcome(Model(), true);
        i := i + 1;
      }
      if !quit {
        assert keys[i..] == [];
      }
    }

    /** `render_ui`, as far as the session is concerned: the clamped offset
        is written back, and the lines from it on are what the content frame
        shows. */
    method RenderUi(height: nat) returns (text: seq<string>)
      modifies this`cur
      ensures cur == ScrollOffset(old(cur), lines, height, |Lines(content)|)
      ensures text == Lines(content)[cur..]
    {
      var pos;
      pos, text := MainUi(cur, lines, content, height);
      cur := pos;
    }
  }
}
