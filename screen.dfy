/**
 * One process pane (`ProcessScreen` of src/process/screen.rs): a terminal
 * emulator fed by the child's output, a channel of keystrokes to the child,
 * the three background tasks that connect them, and the `sized` flag of the
 * lazy-resize handshake.
 *
 * The PTY, the tasks and the channel are modelled by their sequential effect:
 * the emulator keeps the chunks it processed and its size; a task handle
 * records whether it was aborted; a channel records what was sent into it.
 * The reader and writer loops run over abstract sequences of I/O outcomes.
 */
module Screen {
  import opened Types

  /** Size of the reader's stack buffer (`[0u8; 8192]`). */
  const ChunkSize: nat := 8192

  /** Capacity of the keystroke channel (`channel::<Bytes>(32)`). */
  const ChannelCapacity: nat := 32

  /** `portable_pty::CommandBuilder`: the argument vector (program first) and the working directory. */
  datatype CommandBuilder = CommandBuilder(argv: seq<string>, cwd: Option<string>)

  /** The vt100 parser as opaque state: its size, the chunks it processed, and how often it was resized. */
  class Parser {
    var rows: u16
    var cols: u16
    var processed: seq<Bytes>
    var resizes: nat

    /** `vt100::Parser::new(rows, cols, 0)`. */
    constructor (rows: u16, cols: u16)
      ensures this.rows == rows && this.cols == cols
      ensures processed == [] && resizes == 0
    {
      this.rows := rows;
      this.cols := cols;
      processed := [];
      resizes := 0;
    }

    /** `process`: feed one chunk of output to the emulator. */
    method Process(bytes: Bytes)
      modifies this
      ensures processed == old(processed) + [bytes]
      ensures rows == old(rows) && cols == old(cols) && resizes == old(resizes)
    {
      processed := processed + [bytes];
    }

    /** `set_size`: the screen takes the new dimensions; what was processed stays. */
    method SetSize(rows: u16, cols: u16)
      modifies this
      ensures this.rows == rows && this.cols == cols
      ensures processed == old(processed) && resizes == old(resizes) + 1
    {
      this.rows := rows;
      this.cols := cols;
      resizes := resizes + 1;
    }
  }

  /** What each of the three spawned tasks runs. */
  datatype TaskKind = CommandRunner(cmd: CommandBuilder) | OutputWriter | OutputReader

  /** A `tokio::task::JoinHandle<()>`: which task it controls and whether it was aborted. */
  class TaskHandle {
    const kind: TaskKind
    var aborted: bool

    /** `task::spawn`: a handle to a task that is running. */
    constructor (kind: TaskKind)
      ensures this.kind == kind && !aborted
    {
      this.kind := kind;
      aborted := false;
    }

    /** `abort`: request cancellation of the task. */
    method Abort()
      modifies this
      ensures aborted
    {
      aborted := true;
    }
  }

  /**
   * The bounded channel of keystrokes: the payloads it accepted, in order,
   * and whether its receiving side (owned by the writer task) is gone.
   */
  class Channel {
    const capacity: nat
    var sent: seq<Bytes>
    var closed: bool

    /** `channel(capacity)`. */
    constructor (capacity: nat)
      ensures this.capacity == capacity && sent == [] && !closed
    {
      this.capacity := capacity;
      sent := [];
      closed := false;
    }

    /** `send(bytes)`: accepted while the receiver lives; an `Err` that nobody reads after. */
    method Send(bytes: Bytes)
      modifies this
      ensures closed == old(closed)
      ensures sent == old(sent) + (if closed then [] else [bytes])
    {
      if !closed {
        sent := sent + [bytes];
      }
    }

    /** The receiver is dropped: what was accepted stays, nothing more is. */
    method Close()
      modifies this
      ensures closed && sent == old(sent)
    {
      closed := true;
    }
  }

  /** How the host PTY answers `openpty`, `try_clone_reader` and `take_writer`. */
  datatype PtyOutcome = PtyReady | OpenFails | CloneReaderFails | TakeWriterFails

  /**
   * How `ProcessScreen::new` fails: the two errors it returns through `?`,
   * and `WriterPanic`, the panic of `take_writer().unwrap()`, which the
   * model returns as a value (see `New`).
   */
  datatype SpawnError = OpenPtyFailed | CloneReaderFailed | WriterPanic

  /** Whether the handles include the writer task's. */
  predicate HasWriter(tasks: Option<seq<TaskHandle>>)
  {
    tasks.Some? && exists i :: 0 <= i < |tasks.value| && tasks.value[i].kind == OutputWriter
  }

  /** `ProcessScreen`. Clones share `sender`'s channel, the task handles and the parser. */
  class ProcessScreen {
    const name: string
    var sender: Option<Channel>
    var tasks: Option<seq<TaskHandle>>
    var sized: bool
    const parser: Parser

    /** The struct literal (and the derived `clone`, field by field). */
    constructor Assemble(name: string, sender: Option<Channel>, tasks: Option<seq<TaskHandle>>,
                         sized: bool, parser: Parser)
      ensures this.name == name && this.sender == sender && this.tasks == tasks
      ensures this.sized == sized && this.parser == parser
    {
      this.name := name;
      this.sender := sender;
      this.tasks := tasks;
      this.sized := sized;
      this.parser := parser;
    }

    /** The task handles this screen still holds. */
    ghost function Handles(): set<TaskHandle>
      reads this
    {
      if tasks.Some? then set t | t in tasks.value else {}
    }

    /** The channel this screen can still send on. */
    ghost function Senders(): set<Channel>
      reads this
    {
      if sender.Some? then {sender.value} else {}
    }

    /** What `new` builds: one fresh handle per task, in the order child, writer, output. */
    ghost predicate FreshlySpawned(cmd: CommandBuilder)
      reads this, Handles()
    {
      tasks.Some? && |tasks.value| == 3 &&
      tasks.value[0].kind == CommandRunner(cmd) &&
      tasks.value[1].kind == OutputWriter &&
      tasks.value[2].kind == OutputReader &&
      (forall i :: 0 <= i < 3 ==> !tasks.value[i].aborted) &&
      tasks.value[0] != tasks.value[1] && tasks.value[1] != tasks.value[2] && tasks.value[0] != tasks.value[2]
    }

    /**
     * `ProcessScreen::new`: a parser of the given size, the PTY, then the
     * three tasks and the channel. A failing `openpty` or
     * `try_clone_reader` returns its error through `?`. A failing
     * `take_writer` panics in its `unwrap`; the model returns that panic as
     * `Err(WriterPanic)`, after the child and output tasks were spawned.
     */
    static method New(name: string, cmd: CommandBuilder, rows: u16, cols: u16, pty: PtyOutcome)
      returns (r: Result<ProcessScreen, SpawnError>)
      ensures pty == OpenFails <==> r == Err(OpenPtyFailed)
      ensures pty == CloneReaderFails <==> r == Err(CloneReaderFailed)
      ensures pty == TakeWriterFails <==> r == Err(WriterPanic)
      ensures r.Ok? <==> pty == PtyReady
      ensures r.Ok? ==>
        var s := r.value;
        fresh(s) && fresh(s.parser) && s.sender.Some? && fresh(s.sender.value) && fresh(s.Handles()) &&
        s.name == name && !s.sized && s.FreshlySpawned(cmd) &&
        s.sender.value.capacity == ChannelCapacity && s.sender.value.sent == [] && !s.sender.value.closed &&
        s.parser.rows == rows && s.parser.cols == cols &&
        s.parser.processed == [] && s.parser.resizes == 0
    {
      var parser := new Parser(rows, cols);
      if pty == OpenFails {
        return Err(OpenPtyFailed);
      }
      var childTask := new TaskHandle(CommandRunner(cmd));
      if pty == CloneReaderFails {
        return Err(CloneReaderFailed);
      }
      var outputTask := new TaskHandle(OutputReader);
      var tx := new Channel(ChannelCapacity);
      if pty == TakeWriterFails {
        return Err(WriterPanic);
      }
      var writerTask := new TaskHandle(OutputWriter);
      var s := new ProcessScreen.Assemble(name, Some(tx), Some([childTask, writerTask, outputTask]), false, parser);
      return Ok(s);
    }

    /** `recalculate_size`: re-arm the resize on the next frame. */
    method RecalculateSize()
      modifies this`sized
      ensures !sized
    {
      sized := false;
    }

    /**
     * `handle_input`: spawn a task that sends `input` on a clone of the
     * sender. With no sender the `unwrap` panics inside that task, where
     * tokio contains it, so nothing is sent.
     */
    method HandleInput(input: Bytes)
      modifies Senders()
      ensures sender.Some? ==> sender.value.closed == old(sender.value.closed)
      ensures sender.Some? ==>
        sender.value.sent == old(sender.value.sent) + (if sender.value.closed then [] else [input])
    {
      if sender.Some? {
        sender.value.Send(input);
      }
    }

    /** The derived `clone`: a new struct sharing the channel, the handles and the parser. */
    method Clone() returns (c: ProcessScreen)
      ensures fresh(c)
      ensures c.name == name && c.sender == sender && c.tasks == tasks
      ensures c.sized == sized && c.parser == parser
    {
      c := new ProcessScreen.Assemble(name, sender, tasks, sized, parser);
    }

    /**
     * `Drop`: take the handles and abort every one of them, then take the
     * sender. Aborting the writer task drops the receiver it owns, which
     * closes the channel this screen sends on. A second drop finds both
     * fields empty and does nothing.
     */
    method Drop()
      modifies this, Handles(), Senders()
      ensures tasks == None && sender == None && sized == old(sized)
      ensures forall t :: t in old(Handles()) ==> t.aborted
      ensures old(sender).Some? ==> old(sender).value.sent == old(sender.value.sent)
      ensures old(sender).Some? ==>
        old(sender).value.closed == (old(sender.value.closed) || HasWriter(old(tasks)))
    {
      var writerAborted := false;
      if tasks.Some? {
        var handles := tasks.value;
        tasks := None;
        for i := 0 to |handles|
          invariant tasks == None && sized == old(sized) && sender == old(sender)
          invariant forall j :: 0 <= j < i ==> handles[j].aborted
          invariant writerAborted <==> exists j :: 0 <= j < i && handles[j].kind == OutputWriter
          invariant sender.Some? ==> unchanged(sender.value)
        {
          handles[i].Abort();
          writerAborted := writerAborted || handles[i].kind == OutputWriter;
        }
      }
      if writerAborted && sender.Some? {
        sender.value.Close();
      }
      sender := None;
    }
  }

  // -----------------------------------------------------------------------
  // The output reader: PTY output to the parser

  /** What one `reader.read(&mut buf)` returns: some bytes (none at end of file) or an error. */
  datatype ReadOutcome = Read(bytes: Bytes) | ReadFails

  /** An outcome that ends the loop: an error (the `unwrap` panics) or a read of size 0. */
  predicate EndsReading(r: ReadOutcome) {
    r.ReadFails? || |r.bytes| == 0
  }

  /** How the reader task ends. */
  datatype ReaderStop = EndOfFile | ReaderPanicked | StillReading

  /** The chunks the reader passes to the parser: one per read, up to the first read that ends it. */
  function FedChunks(outcomes: seq<ReadOutcome>): seq<Bytes>
  {
    if outcomes == [] || EndsReading(outcomes[0]) then [] else [outcomes[0].bytes] + FedChunks(outcomes[1..])
  }

  /** The number of outcomes before the first one that ends the loop. */
  function ReadsBeforeEnd(outcomes: seq<ReadOutcome>): (n: nat)
    ensures n <= |outcomes|
    ensures forall j :: 0 <= j < n ==> !EndsReading(outcomes[j])
    ensures n < |outcomes| ==> EndsReading(outcomes[n])
  {
    if outcomes == [] || EndsReading(outcomes[0]) then 0 else 1 + ReadsBeforeEnd(outcomes[1..])
  }

  /** How the reader ends on these outcomes; `StillReading` when none of them ends it. */
  function ReaderStopOf(outcomes: seq<ReadOutcome>): ReaderStop
  {
    var n := ReadsBeforeEnd(outcomes);
    if n == |outcomes| then StillReading
    else if outcomes[n].ReadFails? then ReaderPanicked
    else EndOfFile
  }

  /** `read` fills at most the buffer. */
  predicate FitsBuffer(outcomes: seq<ReadOutcome>) {
    forall j :: 0 <= j < |outcomes| ==> outcomes[j].Read? ==> |outcomes[j].bytes| <= ChunkSize
  }

  /**
   * `output_reader`: read into the buffer, stop at a read of size 0, else
   * stage the bytes, process them and clear the staging buffer.
   */
  method RunOutputReader(outcomes: seq<ReadOutcome>, parser: Parser) returns (stop: ReaderStop)
    requires FitsBuffer(outcomes)
    modifies parser
    ensures parser.processed == old(parser.processed) + FedChunks(outcomes)
    ensures parser.rows == old(parser.rows) && parser.cols == old(parser.cols)
    ensures parser.resizes == old(parser.resizes)
    ensures stop == ReaderStopOf(outcomes)
  {
    var staged: Bytes := [];
    var i := 0;
    while i < |outcomes|
      invariant 0 <= i <= |outcomes|
      invariant staged == []
      invariant forall j :: 0 <= j < i ==> !EndsReading(outcomes[j])
      invariant parser.processed + FedChunks(outcomes[i..]) == old(parser.processed) + FedChunks(outcomes)
      invariant parser.rows == old(parser.rows) && parser.cols == old(parser.cols)
      invariant parser.resizes == old(parser.resizes)
      invariant ReadsBeforeEnd(outcomes) == i + ReadsBeforeEnd(outcomes[i..])
    {
      match outcomes[i]
      case ReadFails =>
        // the `unwrap` on the read result panics and ends the task
        return ReaderPanicked;
      case Read(bytes) =>
        if |bytes| == 0 {
          return EndOfFile;
        }
        assert outcomes[i..][1..] == outcomes[i + 1..];
        assert FedChunks(outcomes[i..]) == [bytes] + FedChunks(outcomes[i + 1..]);
        ghost var before := parser.processed;
        staged := staged + bytes;
        assert staged == bytes;
        parser.Process(staged);
        assert parser.processed + FedChunks(outcomes[i + 1..]) == before + FedChunks(outcomes[i..]);
        staged := [];
      i := i + 1;
    }
    return StillReading;
  }

  /**
   * The parser receives exactly the bytes of the outcomes before the first
   * one that ends the loop, one chunk per read, in read order; each chunk is
   * non-empty and fits the buffer.
   */
  lemma {:induction false} FedChunksInOrder(outcomes: seq<ReadOutcome>)
    requires FitsBuffer(outcomes)
    ensures var fed := FedChunks(outcomes);
      |fed| == ReadsBeforeEnd(outcomes) &&
      forall j :: 0 <= j < |fed| ==> fed[j] == outcomes[j].bytes && 0 < |fed[j]| <= ChunkSize
  {
    if outcomes != [] && !EndsReading(outcomes[0]) {
      assert FitsBuffer(outcomes[1..]) by {
        forall j | 0 <= j < |outcomes[1..]| ensures outcomes[1..][j].Read? ==> |outcomes[1..][j].bytes| <= ChunkSize {
          assert outcomes[1..][j] == outcomes[j + 1];
        }
      }
      FedChunksInOrder(outcomes[1..]);
      var fed := FedChunks(outcomes);
      forall j | 0 <= j < |fed| ensures fed[j] == outcomes[j].bytes && 0 < |fed[j]| <= ChunkSize {
        if j > 0 {
          assert fed[j] == FedChunks(outcomes[1..])[j - 1];
          assert outcomes[1..][j - 1] == outcomes[j];
        }
      }
    }
  }

  /** Reads after the one that ends the loop never reach the parser. */
  lemma {:induction false} ReaderIgnoresLaterReads(outcomes: seq<ReadOutcome>, later: seq<ReadOutcome>)
    requires ReadsBeforeEnd(outcomes) < |outcomes|
    ensures FedChunks(outcomes + later) == FedChunks(outcomes)
    ensures ReaderStopOf(outcomes + later) == ReaderStopOf(outcomes)
  {
    if !EndsReading(outcomes[0]) {
      assert (outcomes + later)[1..] == outcomes[1..] + later;
      ReaderIgnoresLaterReads(outcomes[1..], later);
    }
  }

  // -----------------------------------------------------------------------
  // The output writer: keystrokes to the PTY

  /** How the PTY answers the `write_all` and `flush` for one payload. */
  datatype WriteOutcome = Delivered | WriteFails | FlushFails

  /** One payload received from the channel, with the PTY's answer to writing it. */
  datatype Delivery = Delivery(payload: Bytes, outcome: WriteOutcome)

  /** A call the writer makes on the PTY. */
  datatype PtyCall = WriteAll(bytes: Bytes) | Flush

  /** How the writer task ends: the channel closed, or the first failed write or flush. */
  datatype WriterStop = ChannelClosed | WriteError | FlushError

  /** The calls the writer makes for the deliveries it receives, up to the first failure. */
  function WriterTrace(ds: seq<Delivery>): seq<PtyCall>
  {
    if ds == [] then []
    else match ds[0].outcome
      case Delivered => [WriteAll(ds[0].payload), Flush] + WriterTrace(ds[1..])
      case WriteFails => [WriteAll(ds[0].payload)]
      case FlushFails => [WriteAll(ds[0].payload), Flush]
  }

  /** How the writer ends on these deliveries. */
  function WriterStopOf(ds: seq<Delivery>): WriterStop
  {
    if ds == [] then ChannelClosed
    else match ds[0].outcome
      case Delivered => WriterStopOf(ds[1..])
      case WriteFails => WriteError
      case FlushFails => FlushError
  }

  /** The number of deliveries the writer attempts: all of them, or up to and including the first failure. */
  function Attempted(ds: seq<Delivery>): (n: nat)
    ensures n <= |ds|
    ensures forall j :: 0 <= j < n - 1 ==> ds[j].outcome == Delivered
    ensures n < |ds| ==> n > 0 && ds[n - 1].outcome != Delivered
  {
    if ds == [] then 0
    else if ds[0].outcome == Delivered then 1 + Attempted(ds[1..])
    else 1
  }

  /** The payloads of the writes in a trace, in order. */
  function Written(calls: seq<PtyCall>): seq<Bytes>
  {
    if calls == [] then []
    else if calls[0].WriteAll? then [calls[0].bytes] + Written(calls[1..])
    else Written(calls[1..])
  }

  /** The payloads of a sequence of deliveries. */
  function Payloads(ds: seq<Delivery>): seq<Bytes>
  {
    if ds == [] then [] else [ds[0].payload] + Payloads(ds[1..])
  }

  /**
   * `output_writer`: receive each payload in turn, write it, flush, and
   * stop at the first failing write or flush; the loop also ends when the
   * channel closes.
   */
  method RunOutputWriter(ds: seq<Delivery>) returns (calls: seq<PtyCall>, stop: WriterStop)
    ensures calls == WriterTrace(ds)
    ensures stop == WriterStopOf(ds)
  {
    calls := [];
    var i := 0;
    while i < |ds|
      invariant 0 <= i <= |ds|
      invariant calls + WriterTrace(ds[i..]) == WriterTrace(ds)
      invariant WriterStopOf(ds[i..]) == WriterStopOf(ds)
    {
      var d := ds[i];
      assert ds[i..][1..] == ds[i + 1..];
      calls := calls + [WriteAll(d.payload)];
      if d.outcome == WriteFails {
        return calls, WriteError;
      }
      calls := calls + [Flush];
      if d.outcome == FlushFails {
        return calls, FlushError;
      }
      i := i + 1;
    }
    return calls, ChannelClosed;
  }

  /**
   * The writer is FIFO and stops at the first error: the payloads it writes
   * are those received, in order, up to and including the first failure.
   */
  lemma {:induction false} WriterIsFifo(ds: seq<Delivery>)
    ensures Written(WriterTrace(ds)) == Payloads(ds[..Attempted(ds)])
  {
    if ds != [] {
      var d := ds[0];
      var rest := WriterTrace(ds[1..]);
      if d.outcome == Delivered {
        WriterIsFifo(ds[1..]);
        assert ([WriteAll(d.payload), Flush] + rest)[1..] == [Flush] + rest;
        assert ([Flush] + rest)[1..] == rest;
        assert ds[..Attempted(ds)][1..] == ds[1..][..Attempted(ds[1..])];
      } else {
        assert ds[..Attempted(ds)] == [d];
        assert [d][1..] == [];
        assert Payloads([d]) == [d.payload];
        var calls := WriterTrace(ds);
        if d.outcome == WriteFails {
          assert calls == [WriteAll(d.payload)] && calls[1..] == [];
        } else {
          assert calls == [WriteAll(d.payload), Flush];
          assert calls[1..] == [Flush] && calls[1..][1..] == [];
          assert Written([Flush]) == [];
        }
      }
    }
  }

  /** Every write except a failed last one is followed at once by a flush. */
  lemma {:induction false} WriterFlushesEachWrite(ds: seq<Delivery>)
    ensures forall i :: 0 <= i < |WriterTrace(ds)| - 1 && WriterTrace(ds)[i].WriteAll? ==>
      WriterTrace(ds)[i + 1] == Flush
  {
    if ds != [] && ds[0].outcome == Delivered {
      WriterFlushesEachWrite(ds[1..]);
      var calls := WriterTrace(ds);
      var rest := WriterTrace(ds[1..]);
      assert calls == [WriteAll(ds[0].payload), Flush] + rest;
      forall i | 0 <= i < |calls| - 1 && calls[i].WriteAll? ensures calls[i + 1] == Flush {
        if i >= 2 {
          assert calls[i] == rest[i - 2] && calls[i + 1] == rest[i - 1];
        }
      }
    }
  }

  /** Payloads received after the first failure are never written. */
  lemma {:induction false} WriterIgnoresLaterPayloads(ds: seq<Delivery>, later: seq<Delivery>)
    requires Attempted(ds) < |ds|
    ensures WriterTrace(ds + later) == WriterTrace(ds)
    ensures WriterStopOf(ds + later) == WriterStopOf(ds)
  {
    assert (ds + later)[0] == ds[0];
    if ds[0].outcome == Delivered {
      assert (ds + later)[1..] == ds[1..] + later;
      WriterIgnoresLaterPayloads(ds[1..], later);
    }
  }
}
