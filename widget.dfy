/**
 * The pane widget (`ProcessWidget` of src/process/widget.rs) and the
 * lazy-resize handshake it runs with `ProcessScreen::sized`.
 *
 * Building a widget snapshots the screen's `sized` flag and sets it; drawing
 * the widget resizes the emulator only when the snapshot was unset;
 * `recalculate_size` clears the flag again. The handshake is stated twice:
 * on the objects (the widget's constructor and `Render`), and as a pure
 * machine over a sequence of frames and invalidations, about which the
 * at-most-once properties are proved.
 */
module Widget {
  import opened Types
  import opened Screen

  /** A ratatui `Rect`. */
  datatype Rect = Rect(x: u16, y: u16, width: u16, height: u16)

  /**
   * The vertical layout `[Length(1), Fill(1)]` of a pane: a header row on
   * top (none when the area has no rows) and the terminal area below it.
   * ratatui keeps every `Rect` inside the `u16` plane (`y + height` at most
   * 65535); the guard on `y` only keeps the value a `u16` for rectangles
   * outside that plane, which no layout produces.
   */
  function BelowHeader(area: Rect): (main: Rect)
    ensures main.x == area.x && main.width == area.width
    ensures main.height + (if area.height == 0 then 0 else 1) == area.height
    ensures area.y + area.height <= 0xFFFF ==>
      main.y == area.y + (area.height - main.height) && main.y + main.height == area.y + area.height
  {
    var header := if area.height == 0 then 0 else 1;
    var y := if area.y + header < 0x1_0000 then area.y + header else area.y;
    Rect(area.x, y, area.width, area.height - header)
  }

  /** `ProcessWidget`: the screen's name, the snapshot of its flag, and its shared parser. */
  class ProcessWidget {
    const name: string
    const sized: bool
    const parser: Parser

    /** `ProcessWidget::new`: snapshot `sized`, then mark the screen as sized. */
    constructor (process: ProcessScreen)
      modifies process`sized
      ensures name == process.name && parser == process.parser
      ensures sized == old(process.sized)
      ensures process.sized
    {
      name := process.name;
      sized := process.sized;
      parser := process.parser;
      new;
      process.sized := true;
    }

    /**
     * `render`: split off the header row, resize the emulator to the area
     * below it when the snapshot was unset, then read its screen. No
     * `ProcessScreen` field is written.
     */
    method Render(area: Rect) returns (screen: seq<Bytes>)
      modifies parser
      ensures !sized ==> parser.rows == BelowHeader(area).height && parser.cols == area.width &&
                         parser.resizes == old(parser.resizes) + 1
      ensures sized ==> parser.rows == old(parser.rows) && parser.cols == old(parser.cols) &&
                        parser.resizes == old(parser.resizes)
      ensures parser.processed == old(parser.processed)
      ensures screen == parser.processed
    {
      var main := BelowHeader(area);
      if !sized {
        parser.SetSize(main.height, main.width);
      }
      screen := parser.processed;
    }
  }

  /** One frame of a screen in `area`: `ProcessWidget::new(screen).render(area)`. */
  method DrawScreen(process: ProcessScreen, area: Rect) returns (screen: seq<Bytes>)
    modifies process`sized, process.parser
    ensures process.sized == SizedAfter(old(process.sized), [Frame])
    ensures process.parser.resizes == old(process.parser.resizes) + Resizes(old(process.sized), [Frame])
    ensures !old(process.sized) ==>
      process.parser.rows == BelowHeader(area).height && process.parser.cols == area.width
    ensures old(process.sized) ==> process.parser.rows == old(process.parser.rows) &&
                                   process.parser.cols == old(process.parser.cols)
    ensures process.parser.processed == old(process.parser.processed)
    ensures screen == process.parser.processed
  {
    var widget := new ProcessWidget(process);
    screen := widget.Render(area);
  }

  // -----------------------------------------------------------------------
  // The handshake as a machine

  /** What happens to a screen: a frame draws it; an invalidation is `recalculate_size`. */
  datatype Step = Frame | Recalculate

  /** The screen's `sized` flag after the steps. */
  function SizedAfter(sized: bool, steps: seq<Step>): bool
    decreases |steps|
  {
    if steps == [] then sized
    else match steps[0]
      case Frame => SizedAfter(true, steps[1..])
      case Recalculate => SizedAfter(false, steps[1..])
  }

  /** How many times the steps resize the emulator: once per frame that finds the flag unset. */
  function Resizes(sized: bool, steps: seq<Step>): nat
    decreases |steps|
  {
    if steps == [] then 0
    else match steps[0]
      case Frame => (if sized then 0 else 1) + Resizes(true, steps[1..])
      case Recalculate => Resizes(false, steps[1..])
  }

  /** The number of invalidations among the steps. */
  function Invalidations(steps: seq<Step>): nat
  {
    if steps == [] then 0
    else (if steps[0] == Recalculate then 1 else 0) + Invalidations(steps[1..])
  }

  /** The emulator is resized at most once per invalidation, plus once if it starts unsized. */
  lemma {:induction false} AtMostOncePerInvalidation(sized: bool, steps: seq<Step>)
    ensures Resizes(sized, steps) <= Invalidations(steps) + (if sized then 0 else 1)
    decreases |steps|
  {
    if steps != [] {
      match steps[0]
      case Frame =>
        AtMostOncePerInvalidation(true, steps[1..]);
      case Recalculate =>
        AtMostOncePerInvalidation(false, steps[1..]);
    }
  }

  /** Frames with no invalidation between them resize once at most, and only if the flag starts unset. */
  lemma {:induction false} FramesResizeOnce(sized: bool, steps: seq<Step>)
    requires forall i :: 0 <= i < |steps| ==> steps[i] == Frame
    ensures Resizes(sized, steps) == if sized || steps == [] then 0 else 1
    ensures SizedAfter(sized, steps) == (sized || steps != [])
    decreases |steps|
  {
    if steps != [] {
      assert forall i :: 0 <= i < |steps[1..]| ==> steps[1..][i] == steps[i + 1];
      FramesResizeOnce(true, steps[1..]);
    }
  }

  /** After an invalidation the next frame resizes exactly once, whatever the flag was. */
  lemma RecalculateThenFrame(sized: bool, rest: seq<Step>)
    ensures Resizes(sized, [Recalculate, Frame] + rest) == 1 + Resizes(true, rest)
    ensures SizedAfter(sized, [Recalculate, Frame] + rest) == SizedAfter(true, rest)
  {
    var steps := [Recalculate, Frame] + rest;
    assert steps[1..] == [Frame] + rest;
    assert steps[1..][1..] == rest;
  }

  /** Invalidating twice is the same as invalidating once. */
  lemma RecalculateIdempotent(sized: bool, rest: seq<Step>)
    ensures Resizes(sized, [Recalculate, Recalculate] + rest) == Resizes(sized, [Recalculate] + rest)
    ensures SizedAfter(sized, [Recalculate, Recalculate] + rest) == SizedAfter(sized, [Recalculate] + rest)
  {
    var steps := [Recalculate, Recalculate] + rest;
    assert steps[1..] == [Recalculate] + rest;
    assert ([Recalculate] + rest)[1..] == rest;
  }
}
