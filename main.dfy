/**
 * The event dispatch of src/main.rs (`handle_event`) and the command
 * builder used at start-up (`shell_cmd`).
 *
 * `handle_event` is split into a pure decision table, `Dispatch`, from one
 * terminal event to an `Action`, and a method that applies the action to a
 * `ProcessGroup`; `Step` states the whole effect on the group's abstract
 * value. A character key is forwarded as its UTF-8 encoding, `Utf8`, whose
 * partner is the decoder `DecodeUtf8`.
 */
module MainLoop {
  import opened Types
  import opened FocusList
  import opened Screen
  import opened Group

  // -----------------------------------------------------------------------
  // Terminal events (crossterm)

  /** crossterm's `KeyCode`; the payloads of `Media` and `Modifier` are abstract. */
  datatype KeyCode =
    | Backspace | Enter | Left | Right | Up | Down | Home | End | PageUp | PageDown
    | Tab | BackTab | Delete | Insert | F(n: byte) | Char(ch: char) | Null | Esc
    | CapsLock | ScrollLock | NumLock | PrintScreen | Pause | Menu | KeypadBegin
    | Media(media: nat) | Modifier(modifier: nat)

  /** crossterm's `KeyEventKind`. */
  datatype KeyEventKind = Press | Repeat | Release

  /** crossterm's `KeyEvent`; `modifiers` is the `KeyModifiers` bit set. */
  datatype KeyEvent = KeyEvent(code: KeyCode, modifiers: byte, kind: KeyEventKind)

  /** The `KeyModifiers::CONTROL` bit. */
  const Control: byte := 0x02

  /** crossterm's `Event`; mouse events and pasted text are abstract. */
  datatype Event =
    | FocusGained | FocusLost | Key(key: KeyEvent) | Mouse | Paste(text: string)
    | Resize(columns: u16, lines: u16)

  // -----------------------------------------------------------------------
  // UTF-8

  /** A continuation byte, `10xxxxxx`. */
  predicate IsContinuation(b: byte) {
    0x80 <= b < 0xC0
  }

  /** The continuation byte carrying the low six bits of `x`. */
  function Cont(x: nat): (b: byte)
    ensures IsContinuation(b)
  {
    0x80 + x % 0x40
  }

  /** `ch.to_string().into_bytes()`: the UTF-8 encoding of a Unicode scalar value. */
  function Utf8(ch: char): (b: Bytes)
    ensures 1 <= |b| <= 4
  {
    var n := ch as int;
    if n < 0x80 then [n]
    else if n < 0x800 then [0xC0 + n / 0x40, Cont(n)]
    else if n < 0x1_0000 then [0xE0 + n / 0x1000, Cont(n / 0x40), Cont(n)]
    else [0xF0 + n / 0x4_0000, Cont(n / 0x1000), Cont(n / 0x40), Cont(n)]
  }

  /** The payload bits of a continuation byte. */
  function Low6(b: byte): int {
    b as int - 0x80
  }

  /**
   * The scalar value `b` encodes when it is exactly one well-formed UTF-8
   * sequence: no overlong form, no surrogate, nothing above U+10FFFF.
   */
  function DecodeUtf8(b: Bytes): Option<int>
  {
    if |b| == 1 && b[0] < 0x80 then Some(b[0] as int)
    else if |b| == 2 && 0xC0 <= b[0] < 0xE0 && IsContinuation(b[1]) then
      var n := (b[0] as int - 0xC0) * 0x40 + Low6(b[1]);
      if 0x80 <= n then Some(n) else None
    else if |b| == 3 && 0xE0 <= b[0] < 0xF0 && IsContinuation(b[1]) && IsContinuation(b[2]) then
      var n := (b[0] as int - 0xE0) * 0x1000 + Low6(b[1]) * 0x40 + Low6(b[2]);
      if 0x800 <= n && !(0xD800 <= n < 0xE000) then Some(n) else None
    else if |b| == 4 && 0xF0 <= b[0] < 0xF8 && IsContinuation(b[1]) && IsContinuation(b[2]) &&
            IsContinuation(b[3]) then
      var n := (b[0] as int - 0xF0) * 0x4_0000 + Low6(b[1]) * 0x1000 + Low6(b[2]) * 0x40 + Low6(b[3]);
      if 0x1_0000 <= n < 0x11_0000 then Some(n) else None
    else None
  }

  /** `x` is its six low bits below the rest. */
  lemma SplitSix(x: nat)
    ensures x == (x / 0x40) * 0x40 + x % 0x40
    ensures x / 0x1000 == x / 0x40 / 0x40
    ensures x / 0x4_0000 == x / 0x1000 / 0x40
  {
  }

  /** `q * 0x40 + r` with `r < 0x40` splits back into `q` and `r`. */
  lemma JoinSix(q: nat, r: nat)
    requires r < 0x40
    ensures (q * 0x40 + r) / 0x40 == q && (q * 0x40 + r) % 0x40 == r
  {
  }

  /** Decoding the encoding of a character gives the character back. */
  lemma DecodeEncoded(ch: char)
    ensures DecodeUtf8(Utf8(ch)) == Some(ch as int)
  {
    var n := ch as int;
    if n < 0x80 {
    } else if n < 0x800 {
      DecodeTwoEncoded(n);
    } else if n < 0x1_0000 {
      DecodeThreeEncoded(n);
    } else {
      DecodeFourEncoded(n);
    }
  }

  /** The two-byte case of `DecodeEncoded`. */
  lemma DecodeTwoEncoded(n: nat)
    requires 0x80 <= n < 0x800
    ensures DecodeUtf8([0xC0 + n / 0x40, Cont(n)]) == Some(n)
  {
    SplitSix(n);
  }

  /** The three-byte case of `DecodeEncoded`. */
  lemma DecodeThreeEncoded(n: nat)
    requires 0x800 <= n < 0x1_0000 && !(0xD800 <= n < 0xE000)
    ensures DecodeUtf8([0xE0 + n / 0x1000, Cont(n / 0x40), Cont(n)]) == Some(n)
  {
    SplitSix(n);
    SplitSix(n / 0x40);
  }

  /** The four-byte case of `DecodeEncoded`. */
  lemma DecodeFourEncoded(n: nat)
    requires 0x1_0000 <= n < 0x11_0000
    ensures DecodeUtf8([0xF0 + n / 0x4_0000, Cont(n / 0x1000), Cont(n / 0x40), Cont(n)]) == Some(n)
  {
    SplitSix(n);
    SplitSix(n / 0x40);
    SplitSix(n / 0x1000);
  }

  /** Every well-formed sequence is the encoding of the character it decodes to. */
  lemma EncodeDecoded(b: Bytes)
    requires DecodeUtf8(b).Some?
    ensures var n := DecodeUtf8(b).value;
      (0 <= n < 0xD800 || 0xE000 <= n < 0x11_0000) && Utf8(n as char) == b
  {
    if |b| == 2 {
      EncodeDecodedTwo(b);
    } else if |b| == 3 {
      EncodeDecodedThree(b);
    } else if |b| == 4 {
      EncodeDecodedFour(b);
    }
  }

  /** The two-byte case of `EncodeDecoded`. */
  lemma EncodeDecodedTwo(b: Bytes)
    requires |b| == 2 && DecodeUtf8(b).Some?
    ensures var n := DecodeUtf8(b).value; 0x80 <= n < 0x800 && Utf8(n as char) == b
  {
    var n := DecodeUtf8(b).value;
    JoinSix(b[0] as int - 0xC0, Low6(b[1]));
    assert Utf8(n as char) == [0xC0 + n / 0x40, Cont(n)];
  }

  /** The three-byte case of `EncodeDecoded`. */
  lemma EncodeDecodedThree(b: Bytes)
    requires |b| == 3 && DecodeUtf8(b).Some?
    ensures var n := DecodeUtf8(b).value;
      0x800 <= n < 0x1_0000 && !(0xD800 <= n < 0xE000) && Utf8(n as char) == b
  {
    var n := DecodeUtf8(b).value;
    var hi := (b[0] as int - 0xE0) * 0x40 + Low6(b[1]);
    assert n == hi * 0x40 + Low6(b[2]);
    JoinSix(hi, Low6(b[2]));
    JoinSix(b[0] as int - 0xE0, Low6(b[1]));
    SplitSix(n);
    assert Utf8(n as char) == [0xE0 + n / 0x1000, Cont(n / 0x40), Cont(n)];
  }

  /** The four-byte case of `EncodeDecoded`. */
  lemma EncodeDecodedFour(b: Bytes)
    requires |b| == 4 && DecodeUtf8(b).Some?
    ensures var n := DecodeUtf8(b).value; 0x1_0000 <= n < 0x11_0000 && Utf8(n as char) == b
  {
    var n := DecodeUtf8(b).value;
    var mid := (b[0] as int - 0xF0) * 0x40 + Low6(b[1]);
    var hi := mid * 0x40 + Low6(b[2]);
    assert n == hi * 0x40 + Low6(b[3]);
    JoinSix(hi, Low6(b[3]));
    JoinSix(mid, Low6(b[2]));
    JoinSix(b[0] as int - 0xF0, Low6(b[1]));
    SplitSix(n);
    SplitSix(n / 0x40);
    assert Utf8(n as char) == [0xF0 + n / 0x4_0000, Cont(n / 0x1000), Cont(n / 0x40), Cont(n)];
  }

  // -----------------------------------------------------------------------
  // The decision table

  /** What `handle_event` does with the group for one event. */
  datatype Action =
    | Proceed                          // nothing; keep running
    | Quit                             // return `Ok(None)`
    | Forward(bytes: Bytes)            // `group.handle_input(bytes)`
    | FocusPrev                        // `group.prev()`
    | FocusNext                        // `group.next()`
    | ResizeGroup(rows: u16, cols: u16) // `group.resize(rows, cols)`
    | Unimplemented                    // `todo!()`, which panics

  /** The arm of `handle_event`'s key match for a pressed key. */
  function KeyAction(key: KeyEvent): (a: Action)
    ensures a.Forward? && key.code.Char? ==> DecodeUtf8(a.bytes) == Some(key.code.ch as int)
  {
    match key.code
    case Char(ch) =>
      DecodeEncoded(ch);
      if ch == 'c' then (if key.modifiers == Control then Quit else Proceed)
      else if ch == 'q' then Quit
      else Forward(Utf8(ch))
    case Backspace => Forward([8])
    case Enter => Forward([10])
    case Left => FocusPrev
    case Right => FocusNext
    case Up => Forward([27, 91, 65])
    case Down => Forward([27, 91, 66])
    case _ => Unimplemented
  }

  /** Where `handle_event` sends an event that the poll delivered. */
  function Dispatch(ev: Event): (a: Action)
    ensures a == Quit <==>
      ev.Key? && ev.key.kind == Press &&
      (ev.key.code == Char('q') || (ev.key.code == Char('c') && ev.key.modifiers == Control))
    ensures a.Forward? && ev.Key? && ev.key.code.Char? ==> DecodeUtf8(a.bytes) == Some(ev.key.code.ch as int)
    ensures a.Forward? ==> ev.Key? && ev.key.kind == Press && a.bytes != []
    ensures (a.FocusPrev? || a.FocusNext?) ==> ev.Key? && ev.key.kind == Press
  {
    match ev
    case Key(key) =>
      if key.kind == Press then KeyAction(key) else Proceed
    case FocusGained => Proceed
    case FocusLost => Proceed
    case Mouse => Proceed
    case Paste(_) => Unimplemented
    case Resize(columns, lines) => ResizeGroup(columns, lines)
  }

  /** Repeats and releases do nothing, whatever the key. */
  lemma OnlyPressActs(key: KeyEvent)
    requires key.kind != Press
    ensures Dispatch(Key(key)) == Proceed
  {
  }

  /** A `c` with modifiers other than exactly CONTROL is swallowed: no quit, no input. */
  lemma PlainCSwallowed(modifiers: byte)
    requires modifiers != Control
    ensures Dispatch(Key(KeyEvent(Char('c'), modifiers, Press))) == Proceed
  {
  }

  /** `q` quits whatever the modifiers. */
  lemma QQuits(modifiers: byte)
    ensures Dispatch(Key(KeyEvent(Char('q'), modifiers, Press))) == Quit
  {
  }

  /** Any other character is forwarded as its UTF-8 bytes, whatever the modifiers. */
  lemma OtherCharsForwarded(ch: char, modifiers: byte)
    requires ch != 'c' && ch != 'q'
    ensures Dispatch(Key(KeyEvent(Char(ch), modifiers, Press))) == Forward(Utf8(ch))
  {
  }

  /** The fixed payloads of Backspace, Enter, Up and Down. */
  lemma FixedPayloads(modifiers: byte)
    ensures Dispatch(Key(KeyEvent(Backspace, modifiers, Press))) == Forward([8])
    ensures Dispatch(Key(KeyEvent(Enter, modifiers, Press))) == Forward([10])
    ensures Dispatch(Key(KeyEvent(Up, modifiers, Press))) == Forward([27, 91, 65])
    ensures Dispatch(Key(KeyEvent(Down, modifiers, Press))) == Forward([27, 91, 66])
  {
  }

  /** Left moves the focus back and Right moves it forward, whatever the modifiers. */
  lemma FocusKeys(modifiers: byte)
    ensures Dispatch(Key(KeyEvent(Left, modifiers, Press))) == FocusPrev
    ensures Dispatch(Key(KeyEvent(Right, modifiers, Press))) == FocusNext
  {
  }

  /**
   * A pressed key reaches a `todo!()` arm exactly when it is none of the
   * handled ones: a character, Backspace, Enter or an arrow.
   */
  lemma UnimplementedKeys(code: KeyCode, modifiers: byte)
    ensures Dispatch(Key(KeyEvent(code, modifiers, Press))) == Unimplemented <==>
      !(code.Char? || code.Backspace? || code.Enter? || code.Left? || code.Right? || code.Up? || code.Down?)
  {
  }

  /**
   * `Resize(cols, rows)` calls `group.resize(cols, rows)`, whose parameters
   * are `(rows, cols)`: the group's row count receives the column count.
   */
  lemma ResizeSwapsDimensions(columns: u16, lines: u16)
    ensures Dispatch(Resize(columns, lines)) == ResizeGroup(columns, lines)
    ensures Dispatch(Resize(columns, lines)).rows == columns
  {
  }

  // -----------------------------------------------------------------------
  // One turn of `handle_event`

  /** What `event::poll` and `event::read` produce within one 10 ms poll. */
  datatype Polled = NoEvent | Ready(ev: Event) | PollFailed | ReadFailed

  /** How `handle_event` ends: `Ok(Some(group))`, `Ok(None)`, `Err(e)` through `?`, or a panic. */
  datatype Outcome = KeepRunning | Stop | IoError | Panicked

  /** The outcome of one turn for a group of `screens` screens. */
  function OutcomeOf(polled: Polled, screens: nat): Outcome
  {
    match polled
    case NoEvent => KeepRunning
    case PollFailed => IoError
    case ReadFailed => IoError
    case Ready(ev) =>
      match Dispatch(ev)
      case Quit => Stop
      case Unimplemented => Panicked
      case Forward(_) => if screens == 0 then Panicked else KeepRunning
      case FocusPrev => if screens == 0 then Panicked else KeepRunning
      case FocusNext => if screens == 0 then Panicked else KeepRunning
      case _ => KeepRunning
  }

  /** The group's abstract value after one turn; a panic or an error leaves it as it was. */
  function Step(g: GroupState, polled: Polled): GroupState
    requires g.focus < |g.panes| || (g.panes == [] && g.focus == 0)
  {
    if !polled.Ready? then g
    else match Dispatch(polled.ev)
      case Forward(bytes) => if g.panes == [] then g else Sent(g, bytes)
      case FocusPrev => if g.panes == [] then g else g.(focus := PrevIndex(g.focus, |g.panes|))
      case FocusNext => if g.panes == [] then g else g.(focus := NextIndex(g.focus, |g.panes|))
      case ResizeGroup(rows, cols) => Resized(g, rows, cols)
      case _ => g
  }

  /**
   * `handle_event`, with the input sent as `ProcessGroup::handle_input` is
   * evidently meant to send it (`HandleInputBorrowed`).
   */
  method HandleEvent(group: ProcessGroup, polled: Polled) returns (r: Outcome)
    requires group.Valid()
    modifies group, group.blocks, group.blocks.items, group.Channels()
    ensures group.Valid()
    ensures r == OutcomeOf(polled, |old(group.blocks.items)|)
    ensures group.State() == Step(old(group.State()), polled)
  {
    if !polled.Ready? {
      return if polled.NoEvent? then KeepRunning else IoError;
    }
    var a := Dispatch(polled.ev);
    match a {
      case Quit =>
        r := Stop;
      case Unimplemented =>
        r := Panicked;
      case Forward(bytes) =>
        if group.blocks.items == [] {
          return Panicked;
        }
        var _ := group.HandleInputBorrowed(bytes);
        r := KeepRunning;
      case FocusPrev =>
        if group.blocks.items == [] {
          return Panicked;
        }
        group.Prev();
        r := KeepRunning;
      case FocusNext =>
        if group.blocks.items == [] {
          return Panicked;
        }
        group.Next();
        r := KeepRunning;
      case ResizeGroup(rows, cols) =>
        group.Resize(rows, cols);
        r := KeepRunning;
      case Proceed =>
        r := KeepRunning;
    }
  }

  /** Focus and mouse events leave the group as it was. */
  lemma IgnoredEvents(g: GroupState)
    requires g.focus < |g.panes| || (g.panes == [] && g.focus == 0)
    ensures Step(g, Ready(FocusGained)) == g
    ensures Step(g, Ready(FocusLost)) == g
    ensures Step(g, Ready(Mouse)) == g
  {
  }

  /**
   * One turn panics exactly on a `todo!()` arm (an unhandled pressed key, or
   * any paste), or on a forwarded key or a focus move in a group without
   * screens.
   */
  lemma PanicsExactly(polled: Polled, screens: nat)
    ensures OutcomeOf(polled, screens) == Panicked <==>
      polled.Ready? &&
      (Dispatch(polled.ev) == Unimplemented ||
       (screens == 0 && (Dispatch(polled.ev).Forward? || Dispatch(polled.ev).FocusPrev? || Dispatch(polled.ev).FocusNext?)))
  {
  }

  /** A paste panics, whatever the group. */
  lemma PastePanics(text: string, screens: nat)
    ensures OutcomeOf(Ready(Paste(text)), screens) == Panicked
  {
  }

  /** Left then Right puts the focus back where it was. */
  lemma LeftThenRight(g: GroupState, modifiers: byte)
    requires g.focus < |g.panes|
    ensures var left := Step(g, Ready(Key(KeyEvent(Left, modifiers, Press))));
      left.focus < |left.panes| &&
      Step(left, Ready(Key(KeyEvent(Right, modifiers, Press)))) == g
  {
    assert PrevIndex(g.focus, |g.panes|) < |g.panes|;
  }

  /** A forwarded key reaches the focused pane only, and only while its channel is open. */
  lemma KeyReachesFocusedPane(g: GroupState, ev: Event, i: nat)
    requires g.focus < |g.panes| && i < |g.panes| && Dispatch(ev).Forward?
    ensures var h := Step(g, Ready(ev));
      |h.panes| == |g.panes| && h.focus == g.focus &&
      (i != g.focus ==> h.panes[i] == g.panes[i]) &&
      (i == g.focus && g.panes[i].open ==> h.panes[i].inputs == g.panes[i].inputs + [Dispatch(ev).bytes]) &&
      (i == g.focus && !g.panes[i].open ==> h.panes[i] == g.panes[i])
  {
    SentOnlyFocused(g, Dispatch(ev).bytes, i);
  }

  // -----------------------------------------------------------------------
  // Start-up

  /** `shell_cmd`: the program in `argv[0]`, one argument per option in order, then the working directory. */
  method ShellCmd(cmd: string, options: seq<string>, cwd: string) returns (b: CommandBuilder)
    ensures b.argv == [cmd] + options
    ensures b.cwd == Some(cwd)
  {
    b := CommandBuilder([cmd], None);
    for i := 0 to |options|
      invariant b.argv == [cmd] + options[..i] && b.cwd == None
    {
      b := b.(argv := b.argv + [options[i]]);
    }
    b := b.(cwd := Some(cwd));
    assert options[..|options|] == options;
  }
}
