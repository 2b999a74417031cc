/**
 * The process group (`ProcessGroup` of src/process/group.rs): the focus list
 * of screens, the dimensions new screens are built with, and a `sized`
 * flag. Its abstract value, `GroupState`, records each screen as a
 * `PaneState` (its name, its `sized` flag, the inputs its channel accepted
 * and whether the channel is still open); the group's methods are stated
 * against it.
 */
module Group {
  import opened Types
  import opened FocusList
  import opened Screen
  import opened Widget

  /**
   * A screen as the group sees it. `inputs` are the payloads its channel
   * accepted; `open` is false once the writer task, and with it the
   * channel's receiver, is gone.
   */
  datatype PaneState = PaneState(name: string, sized: bool, inputs: seq<Bytes>, open: bool)

  /** The group as a value: dimensions, flag, screens in order, focus cursor. */
  datatype GroupState = GroupState(rows: u16, cols: u16, sized: bool, panes: seq<PaneState>, focus: nat)

  /** Every pane with its `sized` flag cleared. */
  function Unsized(panes: seq<PaneState>): seq<PaneState>
  {
    seq(|panes|, i requires 0 <= i < |panes| => panes[i].(sized := false))
  }

  /** The state after `resize(rows, cols)`. */
  function Resized(g: GroupState, rows: u16, cols: u16): GroupState
  {
    GroupState(rows, cols, false, Unsized(g.panes), g.focus)
  }

  /** The state after a successful `add(name, _)`: a fresh, unsized pane at the end. */
  function Added(g: GroupState, name: string): GroupState
  {
    g.(panes := g.panes + [PaneState(name, false, [], true)])
  }

  /** The state after `input` was sent to the focused pane: accepted only while its channel is open. */
  function Sent(g: GroupState, input: Bytes): GroupState
    requires g.focus < |g.panes|
  {
    var p := g.panes[g.focus];
    g.(panes := g.panes[g.focus := p.(inputs := p.inputs + (if p.open then [input] else []))])
  }

  /** The state after the focused pane's writer task was aborted: its channel is closed. */
  function Closed(g: GroupState): GroupState
    requires g.focus < |g.panes|
  {
    g.(panes := g.panes[g.focus := g.panes[g.focus].(open := false)])
  }

  /** Resizing twice to the same dimensions is resizing once. */
  lemma ResizeIdempotent(g: GroupState, rows: u16, cols: u16)
    ensures Resized(Resized(g, rows, cols), rows, cols) == Resized(g, rows, cols)
  {
    assert Unsized(Unsized(g.panes)) == Unsized(g.panes);
  }

  /** Of two resizes, only the last one's dimensions remain. */
  lemma ResizeLastWins(g: GroupState, r1: u16, c1: u16, r2: u16, c2: u16)
    ensures Resized(Resized(g, r1, c1), r2, c2) == Resized(g, r2, c2)
  {
    assert Unsized(Unsized(g.panes)) == Unsized(g.panes);
  }

  /** A resize keeps names, inputs, channels, order and focus, and clears every flag. */
  lemma ResizeKeepsPanes(g: GroupState, rows: u16, cols: u16)
    ensures var h := Resized(g, rows, cols);
      h.rows == rows && h.cols == cols && !h.sized && h.focus == g.focus &&
      |h.panes| == |g.panes| &&
      forall i :: 0 <= i < |g.panes| ==>
        h.panes[i].name == g.panes[i].name && h.panes[i].inputs == g.panes[i].inputs &&
        h.panes[i].open == g.panes[i].open && !h.panes[i].sized
  {
  }

  /**
   * Input reaches the focused pane only, and only while its channel is
   * open; every other pane is as it was.
   */
  lemma SentOnlyFocused(g: GroupState, input: Bytes, i: nat)
    requires g.focus < |g.panes| && i < |g.panes|
    ensures i != g.focus ==> Sent(g, input).panes[i] == g.panes[i]
    ensures i == g.focus && g.panes[i].open ==> Sent(g, input).panes[i].inputs == g.panes[i].inputs + [input]
    ensures i == g.focus && !g.panes[i].open ==> Sent(g, input).panes[i] == g.panes[i]
    ensures |Sent(g, input).panes| == |g.panes| && Sent(g, input).focus == g.focus
  {
  }

  /**
   * After `handle_input` as written, which sends and then closes the focused
   * channel, every later input to that pane is lost: sending again, and
   * closing again, change nothing.
   */
  lemma LaterInputsLost(g: GroupState, first: Bytes, later: Bytes)
    requires g.focus < |g.panes|
    ensures var h := Closed(Sent(g, first));
      h.focus < |h.panes| && Sent(h, later) == h && Closed(Sent(h, later)) == h
  {
    var h := Closed(Sent(g, first));
    var p := h.panes[h.focus];
    assert !p.open && p.(inputs := p.inputs + []) == p;
    assert h.panes[h.focus := p] == h.panes;
  }

  /** `handle_input`'s error type, `SendError<Bytes>`. */
  datatype SendError = SendError(payload: Bytes)

  /** Two screens of a group share no object the group's methods change. */
  ghost predicate Separate(a: ProcessScreen, b: ProcessScreen)
    reads a, b
  {
    a != b && a.parser != b.parser && a.Senders() !! b.Senders() && a.Handles() !! b.Handles()
  }

  /** The channels the screens hold. */
  ghost function SendersOf(ss: seq<ProcessScreen>): set<Channel>
    reads ss
  {
    set i | 0 <= i < |ss| && ss[i].sender.Some? :: ss[i].sender.value
  }

  /** The screen at `i` as the group sees it. */
  ghost function PaneAt(ss: seq<ProcessScreen>, i: nat): PaneState
    requires i < |ss|
    reads ss, SendersOf(ss)
  {
    var s := ss[i];
    PaneState(s.name, s.sized, if s.sender.Some? then s.sender.value.sent else [],
              s.sender.Some? && !s.sender.value.closed)
  }

  /** `ProcessGroup`. The list is shared by clones of the group, so it is a `const` reference. */
  class ProcessGroup {
    const blocks: List<ProcessScreen>
    var rows: u16
    var cols: u16
    var sized: bool

    /**
     * The list's cursor invariant; every screen still holds its channel and
     * its tasks, among them its writer (screens in the list are never
     * dropped); and no two screens share an object.
     */
    ghost predicate Valid()
      reads this, blocks, blocks.items
    {
      blocks.Valid() &&
      (forall i :: 0 <= i < |blocks.items| ==>
         blocks.items[i].sender.Some? && blocks.items[i].tasks.Some? && HasWriter(blocks.items[i].tasks)) &&
      (forall i, j :: 0 <= i < j < |blocks.items| ==> Separate(blocks.items[i], blocks.items[j]))
    }

    /** The channels of the group's screens. */
    ghost function Channels(): set<Channel>
      reads this, blocks, blocks.items
    {
      SendersOf(blocks.items)
    }

    /** The group's abstract value. */
    ghost function State(): GroupState
      reads this, blocks, blocks.items, Channels()
    {
      var ss := blocks.items;
      GroupState(rows, cols, sized,
                 seq(|ss|, i requires 0 <= i < |ss| reads ss, SendersOf(ss) => PaneAt(ss, i)),
                 blocks.index)
    }

    /** `ProcessGroup::new`: no screens, the given dimensions, not sized. */
    constructor New(rows: u16, cols: u16)
      ensures Valid() && fresh(blocks)
      ensures State() == GroupState(rows, cols, false, [], 0)
    {
      blocks := new List<ProcessScreen>();
      this.rows := rows;
      this.cols := cols;
      sized := false;
    }

    /** `next`: move the focus forward. Panics (modulo by zero) with no screens. */
    method Next()
      requires Valid() && blocks.items != []
      modifies blocks
      ensures Valid()
      ensures blocks.items == old(blocks.items)
      ensures State() == old(State()).(focus := NextIndex(old(blocks.index), |blocks.items|))
    {
      blocks.Next();
    }

    /** `prev`: move the focus back. Panics (`len - 1` underflows) with no screens. */
    method Prev()
      requires Valid() && blocks.items != []
      modifies blocks
      ensures Valid()
      ensures blocks.items == old(blocks.items)
      ensures State() == old(State()).(focus := PrevIndex(old(blocks.index), |blocks.items|))
    {
      blocks.Prev();
    }

    /**
     * `add`: build a screen at the group's current dimensions and append it.
     * A failing `ProcessScreen::new` returns before the list is touched.
     */
    method Add(name: string, cmd: CommandBuilder, pty: PtyOutcome) returns (r: Result<(), SpawnError>)
      requires Valid()
      modifies blocks
      ensures Valid()
      ensures pty == OpenFails <==> r == Err(OpenPtyFailed)
      ensures pty == CloneReaderFails <==> r == Err(CloneReaderFailed)
      ensures pty == TakeWriterFails <==> r == Err(WriterPanic)
      ensures r.Ok? <==> pty == PtyReady
      ensures r.Err? ==> blocks.items == old(blocks.items)
      ensures r.Ok? ==>
        |blocks.items| == |old(blocks.items)| + 1 && blocks.items[..|old(blocks.items)|] == old(blocks.items) &&
        var s := blocks.items[|old(blocks.items)|];
        fresh(s) && fresh(s.sender.value) && fresh(s.Handles()) && fresh(s.parser) &&
        s.FreshlySpawned(cmd) && s.parser.rows == rows && s.parser.cols == cols &&
        s.parser.processed == [] && s.parser.resizes == 0
      ensures blocks.index == old(blocks.index)
      ensures State() == if r.Ok? then Added(old(State()), name) else old(State())
    {
      var block := ProcessScreen.New(name, cmd, rows, cols, pty);
      if block.Err? {
        return Err(block.error);
      }
      blocks.Add(block.value);
      r := Ok(());
      assert blocks.items[..|old(blocks.items)|] == old(blocks.items);
    }

    /**
     * `handle_input` as written: `List::focused` returns a clone of the
     * focused screen; the input goes out on the shared channel, then the
     * temporary clone is dropped, and its `Drop` aborts the task handles it
     * shares with the screen in the list. Aborting the writer closes the
     * channel, so the pane accepts no later input. Always `Ok(())`.
     */
    method HandleInput(input: Bytes) returns (r: Result<(), SendError>)
      requires Valid() && blocks.items != []
      modifies blocks.Focused().Senders(), blocks.Focused().Handles()
      ensures Valid() && r == Ok(())
      ensures State() == Closed(Sent(old(State()), input))
      ensures forall t :: t in blocks.Focused().Handles() ==> t.aborted
    {
      var focused := blocks.Focused();
      var temporary := focused.Clone();
      temporary.HandleInput(input);
      temporary.Drop();
      r := Ok(());
      SentState(input);
    }

    /**
     * `handle_input` as evidently intended: the input goes out on the
     * focused screen's channel, borrowed from the list, and no task is
     * touched. Always `Ok(())`.
     */
    method HandleInputBorrowed(input: Bytes) returns (r: Result<(), SendError>)
      requires Valid() && blocks.items != []
      modifies blocks.Focused().Senders()
      ensures Valid() && r == Ok(())
      ensures State() == Sent(old(State()), input)
      ensures forall t :: t in blocks.Focused().Handles() ==> t.aborted == old(t.aborted)
    {
      blocks.Focused().HandleInput(input);
      r := Ok(());
      SentState(input);
    }

    /** A step that changes no screen field keeps the group valid. */
    twostate lemma ScreensKept()
      requires old(Valid())
      requires unchanged(this, blocks) && forall s :: s in old(blocks.items) ==> unchanged(s)
      ensures Valid()
      ensures forall i :: 0 <= i < |blocks.items| ==>
        blocks.items[i].sender == old(blocks.items[i].sender) && blocks.items[i].tasks == old(blocks.items[i].tasks) &&
        blocks.items[i].sized == old(blocks.items[i].sized)
    {
      var ss := blocks.items;
      forall i | 0 <= i < |ss|
        ensures ss[i].sender == old(ss[i].sender) && ss[i].tasks == old(ss[i].tasks) && ss[i].sized == old(ss[i].sized)
      {
        assert ss[i] in old(blocks.items);
      }
    }

    /**
     * After only the focused screen's channel changed, by accepting `input`
     * while open and perhaps closing, the state is `Sent`, then `Closed` if
     * the channel is now closed.
     */
    twostate lemma SentState(input: Bytes)
      requires old(Valid()) && old(blocks.items) != []
      requires unchanged(this, blocks) && forall s :: s in old(blocks.items) ==> unchanged(s)
      requires !old(blocks.Focused().sender.value.closed) ==>
               old(blocks.Focused().sender.value).sent == old(blocks.Focused().sender.value.sent) + [input]
      requires old(blocks.Focused().sender.value.closed) ==>
               old(blocks.Focused().sender.value).sent == old(blocks.Focused().sender.value.sent)
      requires old(blocks.Focused().sender.value.closed) ==> old(blocks.Focused().sender.value).closed
      requires forall c :: c in old(Channels()) && c != old(blocks.Focused().sender.value) ==>
                 c.sent == old(c.sent) && c.closed == old(c.closed)
      ensures Valid()
      ensures blocks.Focused().sender.value.closed ==> State() == Closed(Sent(old(State()), input))
      ensures !blocks.Focused().sender.value.closed ==> State() == Sent(old(State()), input)
    {
      ScreensKept();
      var ss := blocks.items;
      var f := ss[blocks.index];
      var expected := if f.sender.value.closed then Closed(Sent(old(State()), input)) else Sent(old(State()), input);
      forall i | 0 <= i < |ss|
        ensures State().panes[i] == expected.panes[i]
      {
        assert old(ss[i].sender.value) in old(Channels());
        if i != blocks.index {
          assert Separate(ss[i], f) || Separate(f, ss[i]);
        }
      }
    }

    /**
     * `resize`: store the new dimensions, re-arm every screen's resize and
     * clear the group's flag.
     */
    method Resize(rows: u16, cols: u16)
      requires Valid()
      modifies this, blocks.items
      ensures Valid()
      ensures blocks.items == old(blocks.items) && blocks.index == old(blocks.index)
      ensures forall i :: 0 <= i < |blocks.items| ==>
        blocks.items[i].sender == old(blocks.items[i].sender) && blocks.items[i].tasks == old(blocks.items[i].tasks)
      ensures State() == Resized(old(State()), rows, cols)
    {
      this.rows := rows;
      this.cols := cols;
      RecalculateAll(blocks.items);
      sized := false;
      FlagsOnlyChanged();
      assert State().panes == Resized(old(State()), rows, cols).panes;
    }

    /** The loop over `iter_mut`: clear every screen's `sized` flag, and nothing else. */
    static method RecalculateAll(ss: seq<ProcessScreen>)
      requires forall i, j :: 0 <= i < j < |ss| ==> ss[i] != ss[j]
      modifies ss
      ensures forall i :: 0 <= i < |ss| ==> !ss[i].sized
      ensures forall i :: 0 <= i < |ss| ==> ss[i].sender == old(ss[i].sender) && ss[i].tasks == old(ss[i].tasks)
      ensures forall i :: 0 <= i < |ss| ==> PaneAt(ss, i) == old(PaneAt(ss, i)).(sized := false)
    {
      for i := 0 to |ss|
        invariant forall j :: 0 <= j < i ==> !ss[j].sized
        invariant forall j :: 0 <= j < |ss| ==> ss[j].sender == old(ss[j].sender) && ss[j].tasks == old(ss[j].tasks)
      {
        ss[i].RecalculateSize();
      }
    }

    /**
     * The screen-selection part of `render`: draw screen 0 in the left half
     * and screen 1 in the right half, whatever the focus. Each half is the
     * widget's whole area: the widget keeps its top row for the header and
     * sizes the emulator to the rest (`BelowHeader`). `get_mut(0)` and
     * `get_mut(1)` unwrap, so there must be two screens.
     */
    method Render(left: Rect, right: Rect) returns (leftScreen: seq<Bytes>, rightScreen: seq<Bytes>)
      requires Valid() && |blocks.items| >= 2
      modifies blocks.items[0], blocks.items[1], blocks.items[0].parser, blocks.items[1].parser
      ensures Valid()
      ensures blocks.items[0].sized && blocks.items[1].sized
      ensures forall i :: 0 <= i < |blocks.items| ==>
        blocks.items[i].sender == old(blocks.items[i].sender) && blocks.items[i].tasks == old(blocks.items[i].tasks)
      ensures var p := blocks.items[0].parser;
        p.resizes == old(p.resizes) + (if old(blocks.items[0].sized) then 0 else 1) &&
        (!old(blocks.items[0].sized) ==> p.rows == BelowHeader(left).height && p.cols == left.width) &&
        leftScreen == p.processed && p.processed == old(p.processed)
      ensures var p := blocks.items[1].parser;
        p.resizes == old(p.resizes) + (if old(blocks.items[1].sized) then 0 else 1) &&
        (!old(blocks.items[1].sized) ==> p.rows == BelowHeader(right).height && p.cols == right.width) &&
        rightScreen == p.processed && p.processed == old(p.processed)
    {
      var first := blocks.Get(0).value;
      var second := blocks.Get(1).value;
      assert Separate(first, second);
      leftScreen := DrawScreen(first, left);
      rightScreen := DrawScreen(second, right);
      FlagsOnlyChanged();
    }

    /** A step that changes no screen's sender or handles keeps the group valid. */
    twostate lemma FlagsOnlyChanged()
      requires old(Valid())
      requires unchanged(blocks)
      requires forall i :: 0 <= i < |blocks.items| ==>
        blocks.items[i].sender == old(blocks.items[i].sender) && blocks.items[i].tasks == old(blocks.items[i].tasks)
      ensures Valid()
    {
    }

    /** A screen added after `resize(rows, cols)` is built with those dimensions. */
    method ResizeThenAdd(rows: u16, cols: u16, name: string, cmd: CommandBuilder, pty: PtyOutcome)
      returns (r: Result<(), SpawnError>)
      requires Valid()
      modifies this, blocks, blocks.items
      ensures Valid()
      ensures r.Ok? ==>
        |blocks.items| == |old(blocks.items)| + 1 &&
        blocks.items[|old(blocks.items)|].parser.rows == rows &&
        blocks.items[|old(blocks.items)|].parser.cols == cols
    {
      Resize(rows, cols);
      r := Add(name, cmd, pty);
    }
  }

  // -----------------------------------------------------------------------
  // Two keystrokes, both ways

  /** The pane of a one-screen group after the keys `a` and `b`, both ways. */
  lemma TwoKeys(g: GroupState)
    requires g == Added(GroupState(24, 80, false, [], 0), "web")
    ensures var h := Closed(Sent(Closed(Sent(g, [0x61])), [0x62]));
      h.panes == [PaneState("web", false, [[0x61]], false)]
    ensures var h := Sent(Sent(g, [0x61]), [0x62]);
      h.panes == [PaneState("web", false, [[0x61], [0x62]], true)]
  {
    var a: Bytes, b: Bytes := [0x61], [0x62];
    assert [] + [a] == [a] && [a] + [] == [a] && [a] + [b] == [a, b];
  }

  /**
   * `handle_input` as written, on a group holding one freshly added screen,
   * for the keys `a` then `b`: the first is accepted by the channel, the
   * screen's writer task (the one that moves the channel into the PTY) is
   * then aborted, its channel closed, and the second key is lost.
   */
  method FirstInputAbortsWriter() returns (writerAborted: bool, open: bool, sent: seq<Bytes>)
    ensures writerAborted && !open && sent == [[0x61]]
  {
    var group := new ProcessGroup.New(24, 80);
    var added := group.Add("web", CommandBuilder(["cargo"], None), PtyReady);
    TwoKeys(group.State());
    var _ := group.HandleInput([0x61]);
    var _ := group.HandleInput([0x62]);
    var s := group.blocks.Focused();
    assert group.State().panes[0] == PaneAt(group.blocks.items, 0);
    writerAborted := s.tasks.value[1].aborted;
    open := !s.sender.value.closed;
    sent := s.sender.value.sent;
  }

  /** The same keys through the borrowed screen: both accepted in order, and the writer still runs. */
  method FirstInputKeepsWriter() returns (writerAborted: bool, open: bool, sent: seq<Bytes>)
    ensures !writerAborted && open && sent == [[0x61], [0x62]]
  {
    var group := new ProcessGroup.New(24, 80);
    var added := group.Add("web", CommandBuilder(["cargo"], None), PtyReady);
    TwoKeys(group.State());
    var _ := group.HandleInputBorrowed([0x61]);
    var _ := group.HandleInputBorrowed([0x62]);
    var s := group.blocks.Focused();
    assert group.State().panes[0] == PaneAt(group.blocks.items, 0);
    writerAborted := s.tasks.value[1].aborted;
    open := !s.sender.value.closed;
    sent := s.sender.value.sent;
  }
}
