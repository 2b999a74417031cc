# hawk, modelled in Dafny

hawk is a terminal multiplexer for Procfiles. It does four things:

- It reads a Procfile.
- It starts one child process per entry, each on its own pseudo-terminal.
- It shows the children's screens side by side.
- It forwards keystrokes to the focused child.

This project models the core of that program and proves properties of the model:

- **`FocusList` (list.dfy).** The append-only list with a wrap-around focus cursor (`List<T>`).
  - `NextIndex` and `PrevIndex`, the pure cursor arithmetic behind `next` and `prev`.
  - Lemmas about that arithmetic: inverses, full cycles, and splitting of repeated moves.
- **`Procfile` (procfile.dfy).** `parse` and the `Display` printer.
  - The line pattern `^([A-Za-z0-9_]+):\s*(.+)$` is written out by hand.
  - `str::split` and `str::trim` are modelled as written, with lemmas relating them to `Join`.
  - The round trip from printing to parsing is proved.
  - The module's unit tests are proved as lemmas.
- **`Screen` (screen.dfy).** One pane (`ProcessScreen`).
  - The vt100 emulator is modelled as a `Parser` object that records its size and what it processed.
  - Each spawned task is a `TaskHandle` that records whether it was aborted.
  - The bounded keystroke channel is a `Channel` that records the payloads it accepted and whether its receiver, owned by the writer task, is gone.
  - `new`, `recalculate_size`, `handle_input`, the derived `clone` and `Drop` are methods changing those objects.
  - The `output_reader` and `output_writer` loops are methods over abstract sequences of I/O outcomes. Each is proved against a specification function, with lemmas on ordering and on stopping at the first error.
- **`Widget` (widget.dfy).** The lazy-resize handshake between `ProcessWidget` and `ProcessScreen::sized`, in two forms.
  - On the objects: the widget's constructor, `Render` and `DrawScreen`.
  - As a pure machine over frames and invalidations, for which these are proved:
    - at most one resize per invalidation;
    - invalidation is idempotent;
    - exactly one resize after an invalidation.
- **`Group` (group.dfy).** `ProcessGroup`, stated against an abstract value `GroupState`.
  - That value holds the group's dimensions and `sized` flag.
  - For each pane it holds its name, its `sized` flag, the inputs its channel accepted, and whether that channel is still open.
  - It also holds the focus.
- **`MainLoop` (main.dfy).** `handle_event`, split in two.
  - A pure decision table, `Dispatch`, maps one crossterm event to an action.
  - The method `HandleEvent` applies that action to a group and is proved against `Step`.
  - Character keys are forwarded as UTF-8, and the encoder is proved against a decoder.
  - `shell_cmd` builds the child's command line.

Where the code's behaviour is surprising, the model follows the code:

- **Resize arguments swapped.** `Event::Resize(cols, rows)` is passed to `resize(rows, cols)`, so the group's `rows` receive the column count (`MainLoop.ResizeSwapsDimensions`). The group's dimensions only reach screens added later, and none are added after start-up, so the swap does not show on screen.
- **The Display round trip is not exact.** A process without options prints with a trailing space (see Findings). The round trip through `parse` still holds, because `parse` trims the details (`Procfile.PrintThenParse`).
- **Zero declarations are not an error.** `parse` never fails, and an input gives no entries exactly when none of its lines is a process line (`Procfile.Parse`, `Procfile.ParseEmptyIff`, `Procfile.ParseNothing`).
- **Render shows only two screens.** It draws screens 0 and 1 and needs at least two (`get_mut(..).unwrap()`), so `Group.ProcessGroup.Render` requires two screens.
- **Input is not backpressured per key.** `handle_input` spawns one task per keystroke to send it. The caller therefore never waits, even though the channel's capacity is 32.

## Model

| member | source | states |
|---|---|---|
| FocusList.NextIndex | src/list.rs:41-43 | the next cursor is below the length; it wraps to 0 only from the last item |
| FocusList.PrevIndex | src/list.rs:45-51 | the previous cursor is below the length; from 0 it moves to the last item, otherwise one down |
| FocusList.PrevUndoesNext | src/list.rs:41-51 | `prev` after `next` restores the cursor |
| FocusList.NextUndoesPrev | src/list.rs:41-51 | `next` after `prev` restores the cursor |
| FocusList.NextNSplit | src/list.rs:41-43 | `a + b` moves forward are `a` moves then `b` moves |
| FocusList.PrevNSplit | src/list.rs:45-51 | `a + b` moves back are `a` moves then `b` moves |
| FocusList.NextNCountsUp | src/list.rs:41-43 | short of the last item, `n` moves forward count up to `i + n` |
| FocusList.PrevNCountsDown | src/list.rs:45-51 | short of item 0, `n` moves back count down to `i - n` |
| FocusList.NextFullCycle | src/list.rs:41-43 | `len` moves forward return to the start |
| FocusList.PrevFullCycle | src/list.rs:45-51 | `len` moves back return to the start |
| FocusList.List.constructor | src/list.rs:12-27 | a new list is empty, with the cursor at 0 |
| FocusList.List.Get | src/list.rs:29-35 | `Some` exactly for an index below the length, holding that item |
| FocusList.List.Add | src/list.rs:37-39 | the item is appended and the cursor is unchanged |
| FocusList.List.Next | src/list.rs:41-43 | the cursor becomes `NextIndex` of the old cursor and the items are unchanged |
| FocusList.List.Prev | src/list.rs:45-51 | the cursor becomes `PrevIndex` of the old cursor and the items are unchanged |
| FocusList.List.Focused | src/list.rs:53-55 | the result is the item at the cursor |
| Procfile.NameLengthSpec | src/procfile.rs:43-45 | the scanned name is the maximal run of `[A-Za-z0-9_]` from column 0 |
| Procfile.NameLengthIs | src/procfile.rs:43-45 | a run of name characters that is then broken is exactly the scanned name |
| Procfile.SpaceLengthSpec | src/procfile.rs:43-45 | `\s*` consumes the maximal run of leading whitespace |
| Procfile.EndSpaceLengthSpec | src/procfile.rs:58 | the maximal run of trailing whitespace is found |
| Procfile.TrimSpec | src/procfile.rs:58 | the trimmed text neither starts nor ends with whitespace |
| Procfile.TrimSkipsLeadingSpace | src/procfile.rs:58 | leading whitespace does not change the trim |
| Procfile.TrimAllSpace | src/procfile.rs:58 | whitespace alone trims to the empty string |
| Procfile.TrimTrimmed | src/procfile.rs:58 | text without outer whitespace is its own trim |
| Procfile.EndSpaceLengthAfter | src/procfile.rs:58 | whitespace appended after a non-space is exactly the trailing run |
| Procfile.TrimDropsTrailingSpace | src/procfile.rs:58 | trailing whitespace after untrimmable text is removed by trim |
| Procfile.Trim | src/procfile.rs:58 | `str::trim` on the captured details; no contract of its own, its meaning is stated by `TrimSpec` (and `TrimSkipsLeadingSpace`, `TrimDropsTrailingSpace`, `TrimAllSpace`, `TrimTrimmed`) |
| Procfile.Join | src/procfile.rs:91 | `[&str]::join`; no contract of its own, its meaning is stated by `JoinSplit` and `SplitJoin` |
| Procfile.Split | src/procfile.rs:51-59 | a split has at least one piece, so `details[0]` always exists |
| Procfile.SplitPiecesFree | src/procfile.rs:51-59 | no piece of a split contains the separator |
| Procfile.SplitConcat | src/procfile.rs:51 | splitting `a + sep + b` gives the pieces of `a` then those of `b` |
| Procfile.JoinSplit | src/procfile.rs:59-91 | joining the pieces of a split with the separator gives back the text |
| Procfile.SplitJoin | src/procfile.rs:59-91 | splitting joined pieces that have no separator gives back the pieces |
| Procfile.DetailsShape | src/procfile.rs:43-45 | the second capture is non-empty and is the remainder after whitespace; it starts with a non-space unless it is one character |
| Procfile.MatchLine | src/procfile.rs:43-52 | `REGEX.captures` on one line, with its helper `Details` for `\s*(.+)$`; no contract of its own, its meaning is stated by `MatchLineIff`, `MatchLineShape` and `DetailsShape` |
| Procfile.MatchLineShape | src/procfile.rs:43-64 | a match has a name of name characters, then ':', then at least one more character; the second capture is its remainder |
| Procfile.MatchLineAt | src/procfile.rs:43-45 | a name at column 0 followed by ':' and more text matches there |
| Procfile.DetailsAfterOneSpace | src/procfile.rs:43-45 | after exactly one space, the second capture is the rest of the line |
| Procfile.MatchLineIff | src/procfile.rs:43-52 | a line matches exactly when it has a name, a colon and at least one more character (both directions) |
| Procfile.TrimDetails | src/procfile.rs:43-58 | what the greedy `\s*` leaves has the same trim as the whole remainder |
| Procfile.Parse | src/procfile.rs:47-76 | `parse` always returns `Ok`, with one entry per matching line in line order (`Entries`) |
| Procfile.EntriesConcat | src/procfile.rs:50-73 | entries come in input order: those of the first lines, then those of the rest |
| Procfile.EntriesOfOneLine | src/procfile.rs:50-52 | a text without a newline is one line |
| Procfile.EntryOf | src/procfile.rs:54-70 | the body run for each match: trim the details, split on spaces, take the command and the options; no contract of its own, its meaning is stated by `ParsedLine` |
| Procfile.ParsedLine | src/procfile.rs:53-70 | a process line gives its name, the first token of the trimmed remainder and the remaining tokens |
| Procfile.SkippedLine | src/procfile.rs:72 | a line that is not a process line contributes nothing |
| Procfile.NoColonSkipped | src/procfile.rs:72 | a line without a colon contributes nothing |
| Procfile.NoEntriesIff | src/procfile.rs:50-73 | a sequence of lines gives no entries exactly when none of them is a process line (both directions) |
| Procfile.ParseEmptyIff | src/procfile.rs:47-76 | `parse` gives no entries exactly when no line of the input is a process line (both directions) |
| Procfile.NoColonNoEntries | src/procfile.rs:50-72 | a one-line text without a colon gives no entries |
| Procfile.ParseNothing | src/procfile.rs:129-134 | the empty input gives no entries |
| Procfile.Display | src/procfile.rs:89-93 | `Display for Process` as written; no contract of its own, its meaning is stated by `DisplayOfEntry`, `DisplayOfRenderable` and `PrintThenParse` |
| Procfile.DisplayIntended | src/procfile.rs:89-93 | the corrected printer, command and options joined by single spaces; no contract of its own, its meaning is stated by `DisplayIntendedOfEntry` and `PrintIntendedThenParse` |
| Procfile.DisplayOfEntry | src/procfile.rs:89-93 | as written, a parsed entry prints as its trimmed details, plus a space when it has no options |
| Procfile.DisplayTrailingSpace | src/procfile.rs:89-93 | as written, `cargo` without options prints as `"cargo "`; the intended printer gives `"cargo"` |
| Procfile.DisplayIntendedOfEntry | src/procfile.rs:89-93 | the intended printer reproduces the trimmed details of every parsed entry |
| Procfile.MatchPrinted | src/procfile.rs:43-45 | `name: text` matches with captures `name` and `text` |
| Procfile.DisplayOfRenderable | src/procfile.rs:89-93 | the printed form of an expressible process is its tokens joined by spaces, plus a space when there are no options |
| Procfile.PrintedEntry | src/procfile.rs:47-93 | the printed line of an expressible process matches, and its entry is the process |
| Procfile.PrintedOneLine | src/procfile.rs:89-93 | the printed line holds no newline |
| Procfile.PrintThenParse | src/procfile.rs:47-93 | parsing `name: <Display>` gives back exactly the process |
| Procfile.IntendedEntry | src/procfile.rs:47-93 | the line printed by the intended printer matches, and its entry is the process |
| Procfile.PrintIntendedThenParse | src/procfile.rs:47-93 | with the intended printer, parsing `name: <printed>` gives back exactly the process |
| Procfile.ParseOneProcess | src/procfile.rs:100-108 | `one_process`: one entry, `node` with three options |
| Procfile.ParseTwoProcesses | src/procfile.rs:111-126 | `multiple_process`: `web` then `worker`, and the line of spaces is skipped |
| Procfile.ParseInvalid | src/procfile.rs:137-142 | `invalid_process`: a line without a colon gives no entries |
| Procfile.DisplayOneProcess | src/procfile.rs:145-151 | `test_display`: the parsed process prints as `node index.mjs --verbose` |
| Procfile.OneProcessDisplay | src/procfile.rs:100-108 | the `one_process` entry prints as its command line |
| Procfile.TwoProcessesDisplay | src/procfile.rs:111-126 | the two `multiple_process` entries print as their command lines |
| Procfile.OneProcessLine | src/procfile.rs:101 | the `one_process` line is its name, `: ` and its details |
| Procfile.TwoProcessesLines | src/procfile.rs:112-115 | the `multiple_process` text is its three lines joined by newlines |
| Procfile.DisplayLine | src/procfile.rs:145-151 | the `test_display` line is its name, `: ` and its details |
| Procfile.WebEntries | src/procfile.rs:113 | the `web` line gives `py` with two options |
| Procfile.WorkerEntries | src/procfile.rs:114 | the `worker` line gives `gcc` with one option |
| Procfile.BlankEntries | src/procfile.rs:115 | a line of spaces gives no entries |
| Procfile.DisplayOfParsed | src/procfile.rs:145-151 | the `test_display` entry prints as `node index.mjs --verbose` |
| Screen.Parser.constructor | src/process/screen.rs:32 | the emulator starts at the given size with nothing processed |
| Screen.Parser.Process | src/process/screen.rs:108 | the chunk is appended to what was processed and the size is unchanged |
| Screen.Parser.SetSize | src/process/widget.rs:52-54 | the emulator takes the new size and keeps what it processed |
| Screen.TaskHandle.constructor | src/process/screen.rs:41-53 | a spawned task is running |
| Screen.TaskHandle.Abort | src/process/screen.rs:120 | the task is marked aborted |
| Screen.Channel.constructor | src/process/screen.rs:49 | a new channel has the given capacity, nothing accepted, and an open receiver |
| Screen.Channel.Send | src/process/screen.rs:70 | while the receiver lives the payload is appended to what was accepted; once it is gone nothing changes |
| Screen.Channel.Close | src/process/screen.rs:79-84 | the receiver is gone and what was accepted stays |
| Screen.ProcessScreen.Assemble | src/process/screen.rs:14-61 | the struct holds exactly the given fields |
| Screen.ProcessScreen.New | src/process/screen.rs:24-62 | `Err` exactly when `openpty` or `try_clone_reader` fails, and the `take_writer().unwrap()` panic exactly when `take_writer` fails, and `Ok` exactly when the PTY is ready; then a fresh, unsized screen with a parser of the given size, an empty open channel of capacity 32, and three fresh running tasks: child, writer, output |
| Screen.ProcessScreen.RecalculateSize | src/process/screen.rs:64-66 | the `sized` flag is cleared and nothing else changes |
| Screen.ProcessScreen.HandleInput | src/process/screen.rs:68-71 | with a sender, the input is accepted by its channel when the channel is open and lost when it is closed; nothing else changes |
| Screen.ProcessScreen.Clone | src/process/screen.rs:14 | a fresh struct sharing the channel, the task handles and the parser |
| Screen.ProcessScreen.Drop | src/process/screen.rs:116-125 | every handle held is aborted, then both the handles and the sender are taken; the channel keeps what it accepted and is closed exactly when it was already closed or the writer's handle was among those aborted |
| Screen.ReadsBeforeEnd | src/process/screen.rs:102-106 | the number of reads before the first one that ends the loop; none before it ends it, and the one at that position does |
| Screen.RunOutputReader | src/process/screen.rs:97-113 | the parser receives `FedChunks`, the size is unchanged, and the reader ends at end of file, at a panic, or still reading |
| Screen.FedChunksInOrder | src/process/screen.rs:100-111 | one non-empty chunk of at most 8192 bytes per read, in read order, up to the first read that ends the loop |
| Screen.ReaderIgnoresLaterReads | src/process/screen.rs:103-106 | nothing read after the end reaches the parser |
| Screen.Attempted | src/process/screen.rs:84-93 | the writer attempts every delivery up to and including the first failed write or flush |
| Screen.RunOutputWriter | src/process/screen.rs:79-95 | the PTY calls are `WriterTrace` and the stop reason is `WriterStopOf` |
| Screen.WriterIsFifo | src/process/screen.rs:84-93 | the payloads written are those received, in order, up to and including the first failure |
| Screen.WriterFlushesEachWrite | src/process/screen.rs:85-92 | every write except a failed last one is followed at once by a flush |
| Screen.WriterIgnoresLaterPayloads | src/process/screen.rs:86-91 | payloads received after the first failure are never written |
| Widget.BelowHeader | src/process/widget.rs:38-41 | the terminal area has the pane's column and width and one row fewer than the pane, for the header (none when the pane has no rows), and ends where the pane ends |
| Widget.ProcessWidget.constructor | src/process/widget.rs:20-30 | the widget snapshots the screen's `sized` flag and then sets the flag |
| Widget.ProcessWidget.Render | src/process/widget.rs:34-61 | the emulator is resized to the area below the header, once, exactly when the snapshot was unset; otherwise it keeps its size; the screen read is what was processed |
| Widget.DrawScreen | src/process/widget.rs:20-61 | one frame of a screen matches one `Frame` step of the handshake machine, and a resize takes the area below the header |
| Widget.AtMostOncePerInvalidation | src/process/widget.rs:20-54 | the emulator is resized at most once per `recalculate_size`, plus once if it starts unsized |
| Widget.FramesResizeOnce | src/process/widget.rs:20-54 | frames without invalidation resize once if the flag starts unset, and otherwise never |
| Widget.RecalculateThenFrame | src/process/screen.rs:64-66 | after an invalidation the next frame resizes exactly once |
| Widget.RecalculateIdempotent | src/process/screen.rs:64-66 | invalidating twice is the same as invalidating once |
| Group.ResizeIdempotent | src/process/group.rs:55-63 | resizing twice to the same size is resizing once |
| Group.ResizeLastWins | src/process/group.rs:55-63 | of two resizes, the last one decides the dimensions |
| Group.ResizeKeepsPanes | src/process/group.rs:55-63 | a resize keeps every pane's name, inputs and channel state and the focus, and clears every `sized` flag |
| Group.SentOnlyFocused | src/process/group.rs:49-53 | sending changes only the focused pane: an open channel appends the input, a closed one keeps the pane as it was |
| Group.LaterInputsLost | src/process/group.rs:49-53 | after `handle_input` as written, every later input to that pane is lost: sending and closing again change nothing |
| Group.ProcessGroup.New | src/process/group.rs:32-40 | a new group has no screens, the given dimensions and is unsized |
| Group.ProcessGroup.Next | src/process/group.rs:22-25 | only the focus changes, to `NextIndex` |
| Group.ProcessGroup.Prev | src/process/group.rs:27-30 | only the focus changes, to `PrevIndex` |
| Group.ProcessGroup.Add | src/process/group.rs:42-47 | `Err` exactly when spawning fails, with the error `new` gives, leaving the list unchanged (`Err(WriterPanic)` stands for the `take_writer().unwrap()` panic, which in the source unwinds out of `add`); otherwise a fresh screen at the group's dimensions is appended (`Added`) |
| Group.ProcessGroup.HandleInput | src/process/group.rs:49-53 | as written: the input reaches the focused channel if it is open (`Sent`), then every task handle of the focused screen is aborted and its channel is closed (`Closed`) |
| Group.ProcessGroup.HandleInputBorrowed | src/process/group.rs:49-53 | as intended: the input reaches the focused channel if it is open (`Sent`), and no task handle changes |
| Group.ProcessGroup.Resize | src/process/group.rs:55-63 | the group takes the new dimensions and every screen's `sized` flag is cleared (`Resized`); channels and tasks are untouched |
| Group.ProcessGroup.RecalculateAll | src/process/group.rs:58-60 | every screen in the list is marked unsized, and nothing else about it changes |
| Group.ProcessGroup.Render | src/process/group.rs:66-90 | screens 0 and 1 are drawn for one frame each, in the left and the right half; each is resized only if it was unsized, to its half below the header, and every screen keeps its channel and tasks |
| Group.ProcessGroup.ResizeThenAdd | src/process/group.rs:42-63 | a screen added after `resize(rows, cols)` is built with those dimensions |
| Group.TwoKeys | src/process/group.rs:49-53 | on one fresh pane, `a` then `b` as written leave only `a` accepted and the channel closed; as intended both are accepted in order on an open channel |
| Group.FirstInputAbortsWriter | src/process/group.rs:49-53 | as written: after two keystrokes to a freshly added screen, its writer task is aborted, its channel is closed, and only the first keystroke was accepted |
| Group.FirstInputKeepsWriter | src/process/group.rs:49-53 | as intended: both keystrokes are accepted in order, and the writer task still runs on an open channel |
| MainLoop.Utf8 | src/main.rs:193-195 | a character is encoded in 1 to 4 bytes |
| MainLoop.DecodeEncoded | src/main.rs:193-195 | decoding the UTF-8 bytes of a character gives back the character |
| MainLoop.EncodeDecoded | src/main.rs:193-195 | a well-formed UTF-8 sequence is the encoding of what it decodes to |
| MainLoop.KeyAction | src/main.rs:186-224 | a forwarded character key decodes back to the character |
| MainLoop.Dispatch | src/main.rs:184-236 | quit exactly on a pressed `q`, or on a pressed `c` whose modifiers are exactly CONTROL; forwarded bytes are non-empty and come from a pressed key; focus moves only on a press |
| MainLoop.OnlyPressActs | src/main.rs:185 | repeats and releases do nothing |
| MainLoop.PlainCSwallowed | src/main.rs:187-191 | `c` without exactly CONTROL neither quits nor is forwarded |
| MainLoop.QQuits | src/main.rs:192 | `q` quits whatever the modifiers |
| MainLoop.OtherCharsForwarded | src/main.rs:193-195 | every other character is forwarded as its UTF-8 bytes |
| MainLoop.FixedPayloads | src/main.rs:196-203 | Backspace sends 8, Enter sends `\n`, Up sends `ESC [ A` and Down sends `ESC [ B` |
| MainLoop.FocusKeys | src/main.rs:200-201 | a pressed Left moves the focus back and a pressed Right moves it forward, whatever the modifiers |
| MainLoop.UnimplementedKeys | src/main.rs:186-224 | a pressed key reaches a `todo!()` arm exactly when it is not a character, Backspace, Enter or an arrow |
| MainLoop.ResizeSwapsDimensions | src/main.rs:231-232 | a resize event passes its column count as the group's row count |
| MainLoop.HandleEvent | src/main.rs:180-239 | the outcome is `OutcomeOf` (stop, keep running, I/O error through `?`, panic) and the group's new value is `Step` of the old one |
| MainLoop.PanicsExactly | src/main.rs:180-239 | the loop panics exactly on a ready event that reaches a `todo!()` arm, or that forwards or moves the focus in a group without screens |
| MainLoop.PastePanics | src/main.rs:230 | a paste panics |
| MainLoop.IgnoredEvents | src/main.rs:227-229 | focus and mouse events leave the group unchanged |
| MainLoop.LeftThenRight | src/main.rs:200-201 | Left then Right restores the group |
| MainLoop.KeyReachesFocusedPane | src/main.rs:193-203 | a forwarded key reaches the focused pane only: as its last input when its channel is open, not at all when it is closed |
| MainLoop.ShellCmd | src/main.rs:104-113 | the command line is the program, then the options in order, then the working directory |

## Left out

- PTY and process I/O. Opening the pseudo-terminal, spawning and waiting for the child, and the bytes the PTY returns are parameters: `PtyOutcome`, `ReadOutcome` and `Delivery`.
- tokio scheduling. The three tasks are modelled by their sequential effect; interleavings and the `RwLock`s are not modelled.
- Aborting a task takes effect only at an await point. `output_reader` never awaits, so an abort does not stop it; `output_writer` stops at its next `recv`. A `TaskHandle` only records that the abort was requested.
- The channel's bounded capacity and blocking `send` are not modelled.
- Screen.ProcessScreen.HandleInput: each keystroke is sent by its own spawned task, so two sends may reach the channel in either order; the model performs the send at the call, in call order.
- Group.ProcessGroup.HandleInput: the spawned send may run after the teardown, so even the first keystroke can be lost, and payloads already buffered are dropped once the cancellation takes effect at the writer's next yield; the model accepts the first keystroke and closes the channel at the abort, not at the writer's next poll.
- The writer also drops its receiver when a write or flush fails (`RunOutputWriter`); that path is not linked to `Channel.closed`, which only `Drop` sets.
- The writer's `println!` of a write or flush error (src/process/screen.rs:86, 90) prints onto the terminal UI; the model keeps only the stop reason.
- Screen.ProcessScreen.New: the `take_writer().unwrap()` panic is returned as `Err(WriterPanic)`, and `Group.ProcessGroup.Add` passes it on as a value; unwinding is not modelled, and the child and output tasks spawned before it are left running.
- `command_runner` (src/process/screen.rs:73-77) runs on the PTY and the child; only its task handle is modelled.
- On a failing `try_clone_reader`, `new` returns after spawning the child runner task, and that task is left running. The model creates that handle and then drops it.
- Layout arithmetic, ratatui widgets, the header and footer paragraphs, and `PseudoTerminal` drawing. The two halves of the group's layout are parameters of `Group.ProcessGroup.Render`; only the header row each widget takes off its half is modelled (`Widget.BelowHeader`).
- Widget.BelowHeader: states where the terminal area lies only for rectangles inside the `u16` plane, the only ones ratatui builds; outside it `y` is kept a `u16` by a guard that has no counterpart in ratatui.
- vt100 internals. The emulator is reduced to its size, the chunks it processed and a resize count.
- Whitespace for `\s` and `trim` is the ASCII set; Unicode whitespace is not modelled.
- `List::iter` and `iter_mut` are modelled as direct loops over `items`, and `get_mut` as `Get`.
- `List::prev` on an empty list underflows (`len() - 1`). A debug build panics there and a release build wraps; the model requires a non-empty list, and `HandleEvent` treats the empty case as a panic.
- The crate doc test looks an entry up by name (`parsed.get("web")`), which the returned `Vec` does not offer; it is not modelled.
- `main`, `async_main` (reading the config, setting up the terminal, the add loop) and `run` (the draw-then-handle loop). They are I/O around the modelled calls.
- src/terminal.rs (terminal setup and cleanup) and src/process.rs (an older, unused copy of the process module) are not part of this model.
- `KeyEvent`'s `state` field is omitted. The payloads of `Mouse`, `Paste`, `Media` and `Modifier` are abstract.
- Screen.ProcessScreen.HandleInput: with no sender, the `unwrap` panics inside the spawned task, where tokio contains it. The model sends nothing, and the panic is not modelled.
- MainLoop.HandleEvent: uses `HandleInputBorrowed`, the corrected `handle_input`, so the group stays usable after a keystroke. The as-written teardown is stated separately by `Group.ProcessGroup.HandleInput`.

## Findings

| source | as written | input that shows it | evidently intended | confidence | as-written member | corrected member |
|---|---|---|---|---|---|---|
| src/process/group.rs:49-53 | `focused()` (src/list.rs:53-55) returns a clone of the focused screen. The clone shares the `Arc` of task handles. The temporary is dropped at the end of the statement, and its `Drop` (src/process/screen.rs:116-125) aborts every shared handle, including the writer task that moves the channel into the PTY. | one screen, then two forwarded keys, e.g. `a` and `b`: after the first call every task handle of the focused screen is aborted and its channel is closed, so `b` is lost | send on the focused screen while it stays in the list, and leave its tasks running | not executed | Group.FirstInputAbortsWriter | Group.FirstInputKeepsWriter |
| src/procfile.rs:89-93 | `"{} {}"` always writes a space after the command | `web: cargo` parses to `cargo` with no options, which prints as `"cargo "` | print the command and options joined by single spaces, `"cargo"` | not executed | Procfile.DisplayTrailingSpace | Procfile.PrintIntendedThenParse |
