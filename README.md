# myless: the pager's interaction engine in Dafny

`myless` is a terminal pager. It shows one text file, scrolls with `Up` and
`Down`, opens another file from a prompt (`o`), keeps a search string typed
into a second prompt (`s`), and quits on `q` or `Esc`. This project models
the part of `src/ui.rs` that has real invariants:

- the key-event state machine of `App`: `handle_key_event` and its two
  handlers;
- the scroll clamp of `main_ui`, which writes the clamped offset back into
  the session and slices the line list of the content;
- the helpers `count_newlines` and `prompt_string`.

Layout:

- `text_lines.dfy` (module `TextLines`): `count_newlines`, and `str::lines` as
  far as `main_ui` relies on it.
- `ui.dfy` (module `Ui`): the state of an `App` as a value, one key press as a
  step (`HandleKey`), a run of pending keys as a fold that stops at the first
  quitting key (`Run`), and the lemmas about them.
- `scroll.dfy` (module `Scroll`): the clamp as written, the corrected clamp,
  and `MainUi`, the content part of `main_ui`.
- `session.dfy` (module `Session`): the class `App`. Its fields are updated in
  place by methods that mirror the Rust handlers. Each method is specified by
  the `Ui` or `Scroll` function it performs, so the lemmas proved about those
  functions hold of the object.
- `scenarios.dfy` (module `Scenarios`): key presses followed by a render.

The file system is a parameter, `FileSystem = string -> ReadResult`. A read
gives either the text (`Loaded`) or an error (`Failed`) whose debug rendering
is the `diagnostic` string. After a failed read the content becomes
`"ERROR: " + diagnostic`. The height of the content region comes from the
screen layout, so it is a plain parameter.

Three behaviours of the code that a reader might not expect:

- `o` and `s` do not clear the prompt buffer. The buffer is empty anyway
  whenever no prompt is open (`AppState.Valid`).
- `Esc` in a prompt terminates the program instead of cancelling the prompt.
- A content region less than two rows high can make the slice go out of
  bounds (see Findings). The model caps the offset at the end of the line
  list. On every input where the code's slice is in bounds, the offset is
  the code's.

## Model

| member | source | states |
|---|---|---|
| TextLines.CountNewlines | src/ui.rs:294-296 | the count is at most the length, and it is 0 exactly when the text has no newline |
| TextLines.CountNewlinesAppend | src/ui.rs:294-296 | counting newlines is additive over concatenation |
| TextLines.CountNewlinesIsMultiplicity | src/ui.rs:294-296 | the count equals the multiplicity of '\n' in the text |
| TextLines.Lines | src/ui.rs:248 | `content.lines()` has as many lines as newlines, plus one for an unterminated last line; no line holds a newline |
| TextLines.LinesRejoin | src/ui.rs:248 | for text without carriage returns, the lines with a newline after each give the text back, with one extra newline when the last line was unterminated |
| Ui.PromptString | src/ui.rs:22-28 | the label is empty exactly in the viewer |
| Ui.PromptStringInjective | src/ui.rs:22-28 | the three modes have three different labels |
| Ui.Initial | src/ui.rs:49-59 | a new session is in the viewer at offset 0, with an empty buffer, the given file and content, and the invariant |
| Ui.LoadContent | src/ui.rs:142-145 | a successful read gives its text; a failed one gives a diagnostic starting with "ERROR: " |
| Ui.MainKey | src/ui.rs:101-131 | in the viewer, `q`/`Esc` terminate and change nothing; no key touches the file, content, line count, buffer or search string; only `o`/`s` change the mode; only `Up`/`Down` move the offset |
| Ui.InputKey | src/ui.rs:133-170 | in a prompt, only `Esc` terminates and it changes nothing; `Enter` returns to the viewer with an empty buffer; every other key changes only the buffer and the log |
| Ui.HandleKey | src/ui.rs:93-170 | a key terminates exactly when it is `Esc`, or `q` in the viewer, and then nothing changes |
| Ui.HandleKeyPreservesValid | src/ui.rs:101-170 | every key keeps `lines == count_newlines(content)` and keeps the buffer empty outside a prompt |
| Ui.ScrollKeys | src/ui.rs:114-125 | in the viewer `Down` adds one to the offset with no bound; `Up` subtracts one but stops at 0; nothing else but the log changes |
| Ui.PromptKeys | src/ui.rs:104-113 | in the viewer `o`/`s` open the file/search prompt, show its label, and change nothing else |
| Ui.PromptEditing | src/ui.rs:158-167 | in a prompt a character (`q` too) is appended; `Backspace` drops the last one or does nothing on an empty buffer; the mode stays; no termination |
| Ui.CommitFilePrompt | src/ui.rs:136-150 | `Enter` in the file prompt opens the typed name: the buffer is emptied, the offset is 0, the mode is the viewer, the content is the read text or the diagnostic, and `lines` is recomputed; no termination even when the read fails |
| Ui.CommitSearchPrompt | src/ui.rs:151-157 | `Enter` in the search prompt keeps the typed string, empties the buffer, returns to the viewer, and leaves file, content, lines and offset alone |
| Ui.Run | src/ui.rs:76-82 | handling pending keys in order, stopping at the first that terminates: a run containing `Esc` terminates, and a run that terminates contains `Esc` or `q` |
| Ui.RunAppend | src/ui.rs:75-90 | handling two batches of keys is handling the first, then (unless it quit) the second |
| Ui.RunPreservesValid | src/ui.rs:75-90 | the invariant holds after any sequence of keys |
| Ui.RunQuitsAtQuitKey | src/ui.rs:76-82 | in the viewer `q` or `Esc` ends the run at once; the keys after it have no effect |
| Ui.ScrollOnlyRun | src/ui.rs:114-125 | any sequence of `Up`/`Down` presses in the viewer changes only the offset and the log, and does not terminate |
| Ui.DownPresses | src/ui.rs:114-118 | `n` presses of `Down` add `n` to the offset and change nothing else but the log |
| Ui.UpPresses | src/ui.rs:119-125 | `n` presses of `Up` subtract `n` from the offset, never going below 0 |
| Ui.TypeIntoPrompt | src/ui.rs:163-167 | typing a string in a prompt appends it to the buffer |
| Ui.EraseFromPrompt | src/ui.rs:158-162 | `n` presses of `Backspace` drop the last `n` characters of the buffer, or all of them |
| Ui.TypeThenEraseRestoresBuffer | src/ui.rs:158-167 | typing `s` and then pressing `Backspace` `|s|` times restores the buffer and the mode |
| Ui.OpenFile | src/ui.rs:136-150 | `o`, a name, `Enter` from the viewer opens that name (its text or the diagnostic) at offset 0 in the viewer, keeps the invariant, and does not terminate |
| Ui.Search | src/ui.rs:151-157 | `s`, a string, `Enter` from the viewer stores the string and changes nothing else but the log |
| Scroll.ClampAsWritten | src/ui.rs:253-263 | the clamp as written: never forward of the requested offset, never past `lines - height + 2`, one of the two, and 0 when the file fits; `lines - height` is taken only when `lines > height` |
| Scroll.ClampAsWrittenInBounds | src/ui.rs:253-265 | with a region at least 2 rows high the as-written offset is within the line list |
| Scroll.ClampAsWrittenOutOfBounds | src/ui.rs:260-265 | with a region under 2 rows, newline-terminated text longer than the region, and an offset past the last line, the as-written offset is past the end of the line list |
| Scroll.ClampAsWrittenExample | src/ui.rs:260-265 | height 1, text "a\nb\n", requested offset 3: the as-written offset is 3 into a list of 2 lines |
| Scroll.ScrollOffset | src/ui.rs:253-265 | the clamped offset is never forward of the requested one, never past `lines - height + 2`, never past the end of the line list; it is the code's offset whenever that one is within the line list, and the end of the list otherwise |
| Scroll.ScrollOffsetMatchesCode | src/ui.rs:253-263 | with a region at least 2 rows high, the clamped offset is the code's offset |
| Scroll.ScrollOffsetExample | src/ui.rs:260-265 | height 1, "a\nb\nc" (2 newlines, 3 lines), offset 3: the code's offset 3 is in bounds, and the clamped offset is also 3 |
| Scroll.ScrollOffsetIdempotent | src/ui.rs:253-263 | clamping twice is clamping once |
| Scroll.ScrollOffsetBound | src/ui.rs:254-261 | the clamped offset is at most `max(0, lines - height + 2)` |
| Scroll.MainUi | src/ui.rs:248-268 | the offset written back is the clamped one (the code's wherever its slice is in bounds), the slice is in bounds, and the visible text is the line list from that offset; the whole file when it fits |
| Session.App.constructor | src/ui.rs:49-59 | the fields of a new `App` are the initial state and keep the invariant |
| Session.App.New | src/ui.rs:44-60 | a session exists exactly when the first read succeeds, and starts from the initial state |
| Session.App.HandleKeyEvent | src/ui.rs:93-99 | the fields change as one step of the state machine; the result is its terminate flag; the invariant is kept |
| Session.App.HandleMainKeyEvent | src/ui.rs:101-131 | the fields change as the viewer step does |
| Session.App.HandleInputKeyEvent | src/ui.rs:133-170 | the fields change as the prompt step does |
| Session.App.HandleEvents | src/ui.rs:75-90 | handling the pending keys in order leaves the fields as the fold does, stops at the first quitting key, and keeps the invariant |
| Session.App.RenderUi | src/ui.rs:173-184 | rendering writes the clamped offset back and shows the lines from it on |
| Scenarios.DownPressesThenRenderBounded | src/ui.rs:253-263 | after any number of `Down` presses the rendered offset is at most `max(0, lines - height + 2)` |
| Scenarios.ShortFileNeverScrolls | src/ui.rs:254-256 | a file that fits is shown from line 0 after any sequence of `Up` and `Down` presses, in any order |
| Scenarios.FiveLinesTenRows | src/ui.rs:254-256 | 5 lines, 10 rows, 3 `Down`: offset 0 |
| Scenarios.HundredLinesTwentyRows | src/ui.rs:258-261 | 100 lines, 20 rows, 200 `Down`: offset 82 |
| Scenarios.UpAfterRenderTakesEffect | src/ui.rs:262-263 | after the write-back, one `Up` moves the view one line back at once |
| Scenarios.ScrollHundredLines | src/ui.rs:173-184 | on the object: 200 pending `Down` keys then a 20-row render leave the offset at 82 and show the lines from 82 on |

## Left out

- Terminal setup and teardown, and the `Drop` of `App` (src/ui.rs:186-203, 288-292): raw mode and the alternate screen are effects on the terminal.
- The render-and-poll loop `run` and the polling in `handle_event` (src/ui.rs:64-90): the keys pending in one poll are a sequence (`Session.App.HandleEvents`); `run` alternates that with `render_ui`, which is not modelled as one member; re-rendering on a resize event is not modelled.
- Layout and widget drawing in `main_ui` (src/ui.rs:221-245, 269-285): these are calls into the `tui` library. The height of the content region is a parameter.
- `fs::read_to_string` (src/ui.rs:45, 142): the file system is the `FileSystem` parameter. Reading the first file and failing on it is `Session.App.New`; failing to set up the terminal is not modelled.
- Log messages: texts built with debug formatting of a key code or an I/O error are approximated (`KeyDebug`, the `diagnostic` string); `Other` stands for every key code the handlers do not tell apart.
- Integer width: `cur` and `lines` are unbounded. The `usize` overflow of `cur += 1` and of `lines - height + 2` is not modelled; it would take about 2^64 key presses or lines.
- `str::lines` is modelled as splitting at "\n" and "\r\n".
- TextLines.LinesRejoin: stated only for text without carriage returns; for "\r\n" line endings the lemma does not say that the '\r' is the one dropped.
- src/main.rs: argument parsing and the panic on a missing argument are command-line glue.

## Findings

| source | as written | input that shows it | evidently intended | confidence | as-written member | corrected member |
|---|---|---|---|---|---|---|
| src/ui.rs:260-265 | the limit `lines - height + 2` is used to slice `v[max_pos..]`; with a content region of 0 or 1 rows it can exceed the number of lines, and the slice panics | height 1, content "a\nb\n" (2 lines), three `Down` presses: `max_pos` = min(3, 3) = 3 > 2 | the offset never passes the end of the line list | medium; not executed | Scroll.ClampAsWrittenOutOfBounds | Scroll.ScrollOffset |
