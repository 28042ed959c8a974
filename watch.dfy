/**
 * The tail reader of package `watch`: a file handle positioned by a start
 * policy, a byte offset, and a readiness channel that filesystem events feed
 * and `Read` drains.
 *
 * The channel is an unbuffered Go channel of empty structs.  Here it is a count
 * of signals sent but not yet received plus a `closed` flag; a send does not
 * block.  Sending on, or closing, a closed channel is a Go runtime panic and is
 * reported as an error value.
 */
module Watch {
  import opened Wrappers

  newtype Byte = b: int | 0 <= b < 256

  function Min(a: int, b: int): int { if a <= b then a else b }

  /** fsnotify operation flags; an event may carry several. */
  datatype Op = Create | Write | Remove | Rename | Chmod

  datatype Event = Event(name: string, ops: set<Op>)

  /** What `os.Stat` on the event's path reported when the event was handled. */
  datatype Stat = NotExist | StatFailed | Exists(size: nat)

  /** One receive of the watching goroutine's select statement. */
  datatype Notification =
    | FsEvent(event: Event, stat: Stat)  // from watcher.Events
    | WatcherError                       // a non-nil error from watcher.Errors
    | WatcherNil                         // a nil value from watcher.Errors

  datatype Error =
    | FileDeleted
    | FileOverwritten
    | FileRenamed
    | StatError(notExist: bool)  // the os.Stat error of a Write event, returned as is
    | AbsError                   // filepath.Abs failed
    | OpenError                  // os.Open failed
    | NotifierError              // the watcher reported an error
    | SendOnClosedChannel        // runtime panic: send on a closed channel
    | CloseOfClosedChannel       // runtime panic: close of a closed channel

  datatype ReaderOption = StartOffset(offset: int) | SeekEnd

  /** The part of the reader that events and reads change. */
  datatype TailState = TailState(offset: int, pos: nat, pending: nat, closed: bool)

  datatype Step = Step(tail: TailState, err: Option<Error>)

  datatype ReadResult =
    | Data(bytes: seq<Byte>)  // (n, nil) with n == |bytes| > 0
    | EOF                     // (0, io.EOF)
    | Blocked                 // the call is still waiting for a signal
    | Failed                  // (0, err): file.Read on a handle that is nil or closed

  datatype ReadOutcome = ReadOutcome(tail: TailState, result: ReadResult)

  /** The offset the options leave: the last StartOffset, or zero. */
  function ConfiguredOffset(options: seq<ReaderOption>): int
  {
    if options == [] then 0
    else if options[|options| - 1].StartOffset? then options[|options| - 1].offset
    else ConfiguredOffset(options[..|options| - 1])
  }

  /** The handle position `openFile` seeks to, for a file of `size` bytes. */
  function OpenPosition(offset: int, seekEnd: bool, size: nat): (p: nat)
    ensures offset > 0 ==> p == offset
    ensures offset <= 0 && seekEnd ==> p == size
    ensures offset <= 0 && !seekEnd ==> p == 0
    ensures offset <= p
  {
    if offset > 0 then offset else if seekEnd then size else 0
  }

  /**
   * The bytes one `file.Read` on a regular file copies into a buffer of
   * `bufLen` bytes: the bytes that follow the position, as many as both the
   * buffer and the file allow.
   */
  function Chunk(data: seq<Byte>, pos: nat, bufLen: nat): (c: seq<Byte>)
    ensures pos <= |data| ==> c <= data[pos..]
    ensures pos >= |data| ==> c == []
    ensures |c| <= bufLen
    ensures |c| == bufLen || pos + |c| >= |data|
  {
    if pos >= |data| then [] else data[pos..pos + Min(bufLen, |data| - pos)]
  }

  /** What reads that each start where the previous one ended return, up to the first empty one. */
  function ReadToEnd(data: seq<Byte>, pos: nat, bufLen: nat): seq<Byte>
    decreases |data| - pos
  {
    var c := Chunk(data, pos, bufLen);
    if c == [] then [] else c + ReadToEnd(data, pos + |c|, bufLen)
  }

  /** Successive reads with a non-empty buffer return the rest of the file, in order. */
  lemma {:induction false} SuccessiveReadsReturnRest(data: seq<Byte>, pos: nat, bufLen: nat)
    requires pos <= |data| && 0 < bufLen
    ensures ReadToEnd(data, pos, bufLen) == data[pos..]
    decreases |data| - pos
  {
    var c := Chunk(data, pos, bufLen);
    if c == [] {
      assert pos == |data|;
    } else {
      var n := pos + |c|;
      assert c == data[pos..n];
      SuccessiveReadsReturnRest(data, n, bufLen);
      calc {
        ReadToEnd(data, pos, bufLen);
        c + ReadToEnd(data, n, bufLen);
        data[pos..n] + data[n..];
        data[pos..];
      }
    }
  }

  /** One send on the readiness channel. */
  function Signal(t: TailState): Step
  {
    if t.closed then Step(t, Some(SendOnClosedChannel))
    else Step(t.(pending := t.pending + 1), None)
  }

  predicate IsWrite(e: Event)
  {
    Remove !in e.ops && Rename !in e.ops && Write in e.ops
  }

  /** `handleEvent`: what one event on the watched path does. */
  function EventStep(t: TailState, e: Event, stat: Stat): (r: Step)
    ensures r.tail.closed == t.closed
    ensures Remove in e.ops ==>
              r == Step(t, Some(if stat.NotExist? then FileDeleted else FileOverwritten))
    ensures Remove !in e.ops && Rename in e.ops ==> r == Step(t, Some(FileRenamed))
    ensures Remove !in e.ops && Rename !in e.ops && Write !in e.ops ==> r == Step(t, None)
    ensures IsWrite(e) && !stat.Exists? ==> r == Step(t, Some(StatError(stat.NotExist?)))
    ensures IsWrite(e) && stat.Exists? && stat.size <= t.offset ==>
              r.tail.offset == 0 && r.tail.pos == 0
    ensures IsWrite(e) && stat == Exists(0) && 0 <= t.offset ==>
              r == Step(t.(offset := 0, pos := 0), None)
    ensures IsWrite(e) && stat.Exists? && stat.size > t.offset ==>
              r.tail.offset == t.offset && r.tail.pos == t.pos
    ensures (r.tail.offset == t.offset && r.tail.pos == t.pos) ||
            (r.tail.offset == 0 && r.tail.pos == 0)
    // at most one readiness signal, and only for a Write that leaves bytes to read
    ensures t.pending <= r.tail.pending <= t.pending + 1
    ensures r.tail.pending == t.pending + 1 <==>
              IsWrite(e) && stat.Exists? && (stat.size > 0 || t.offset < 0) && !t.closed
    ensures r.err == Some(SendOnClosedChannel) <==>
              IsWrite(e) && stat.Exists? && (stat.size > 0 || t.offset < 0) && t.closed
    ensures IsWrite(e) && stat.Exists? && !t.closed ==> r.err == None
  {
    if Remove in e.ops then
      Step(t, Some(if stat.NotExist? then FileDeleted else FileOverwritten))
    else if Rename in e.ops then
      Step(t, Some(FileRenamed))
    else if Write in e.ops then
      match stat
      case Exists(size) =>
        if size <= t.offset then
          var reset := t.(offset := 0, pos := 0);
          if size == 0 then Step(reset, None) else Signal(reset)
        else
          Signal(t)
      case _ => Step(t, Some(StatError(stat.NotExist?)))
    else
      Step(t, None)
  }

  /**
   * The watching loop of `Watch`: notifications are taken in order; events on
   * other paths and nil errors are skipped; the first error ends the loop; the
   * end of the sequence is the cancelled context, a clean stop.
   */
  function EventsStep(t: TailState, name: string, notes: seq<Notification>): (r: Step)
    ensures r.tail.closed == t.closed
    ensures (r.tail.offset == t.offset && r.tail.pos == t.pos) ||
            (r.tail.offset == 0 && r.tail.pos == 0)
    ensures t.pending <= r.tail.pending <= t.pending + |notes|
    ensures !t.closed ==> r.err != Some(SendOnClosedChannel)
    decreases |notes|
  {
    if notes == [] then Step(t, None)
    else
      match notes[0]
      case WatcherNil => EventsStep(t, name, notes[1..])
      case WatcherError => Step(t, Some(NotifierError))
      case FsEvent(e, stat) =>
        if e.name != name then EventsStep(t, name, notes[1..])
        else
          var s := EventStep(t, e, stat);
          if s.err.Some? then s else EventsStep(s.tail, name, notes[1..])
  }

  /**
   * One call of `Watch`: `absName` is what `filepath.Abs` gives (None when it
   * fails), `contents` the file as `os.Open` finds it (None when it fails), and
   * `notes` what the watcher delivers until the context is cancelled.
   */
  function WatchCall(t: TailState, seekEnd: bool, absName: Option<string>,
                     contents: Option<seq<Byte>>, notes: seq<Notification>): (r: Step)
    ensures absName.None? ==> r == Step(t, Some(AbsError))
    ensures absName.Some? && contents.None? ==> r == Step(t, Some(OpenError))
    ensures r.tail.closed == t.closed
    ensures r.err.None? ==> absName.Some? && contents.Some?
  {
    if absName.None? then Step(t, Some(AbsError))
    else if contents.None? then Step(t, Some(OpenError))
    else EventsStep(t.(pos := OpenPosition(t.offset, seekEnd, |contents.value|)), absName.value, notes)
  }

  /**
   * `Read`: take a signal, read from the handle, and on an empty read wait for
   * the next signal; a closed channel with no signal left ends the stream.
   */
  function ReadStep(t: TailState, data: seq<Byte>, isOpen: bool, bufLen: nat): (r: ReadOutcome)
    ensures r.tail.closed == t.closed
    ensures r.result.Data? ==>
              && 0 < t.pending
              && 0 < |r.result.bytes| <= bufLen
              && t.pos + |r.result.bytes| <= |data|
              && r.result.bytes == data[t.pos..t.pos + |r.result.bytes|]
              && r.tail == TailState(t.offset + |r.result.bytes|, t.pos + |r.result.bytes|,
                                     t.pending - 1, t.closed)
    ensures r.result.Data? <==> 0 < t.pending && isOpen && t.pos < |data| && 0 < bufLen
    ensures r.result.Failed? <==> 0 < t.pending && !isOpen
    ensures r.result.EOF? <==> t.closed && !r.result.Data? && !r.result.Failed?
    ensures r.result.Blocked? <==> !t.closed && !r.result.Data? && !r.result.Failed?
    ensures !r.result.Data? ==> r.tail.offset == t.offset && r.tail.pos == t.pos
    ensures r.result.EOF? || r.result.Blocked? ==> r.tail.pending == 0
    ensures t.offset <= t.pos ==> r.tail.offset <= r.tail.pos
  {
    if t.pending == 0 then
      ReadOutcome(t, if t.closed then EOF else Blocked)
    else if !isOpen then
      ReadOutcome(t.(pending := t.pending - 1), Failed)
    else
      var c := Chunk(data, t.pos, bufLen);
      if c != [] then
        ReadOutcome(t.(offset := t.offset + |c|, pos := t.pos + |c|, pending := t.pending - 1), Data(c))
      else
        ReadOutcome(t.(pending := 0), if t.closed then EOF else Blocked)
  }

  class Reader {
    var offset: int
    var seekEnd: bool
    var data: seq<Byte>  // the bytes of the file the handle refers to
    var pos: nat         // the handle's position
    var isOpen: bool     // the handle is set and not yet closed
    var pending: nat     // signals sent on the readiness channel and not yet received
    var closed: bool     // the readiness channel has been closed

    function State(): TailState
      reads this
    {
      TailState(offset, pos, pending, closed)
    }

    /** The offset never runs ahead of the handle's position. */
    ghost predicate Valid()
      reads this
    {
      isOpen ==> offset <= pos
    }

    /** `NewReader`: options apply in order over a zero offset. */
    constructor (options: seq<ReaderOption>)
      ensures offset == ConfiguredOffset(options)
      ensures seekEnd <==> SeekEnd in options
      ensures data == [] && pos == 0 && !isOpen && pending == 0 && !closed
      ensures Valid()
    {
      offset, seekEnd := 0, false;
      data, pos, isOpen, pending, closed := [], 0, false, 0, false;
      new;
      for i := 0 to |options|
        invariant offset == ConfiguredOffset(options[..i])
        invariant seekEnd <==> SeekEnd in options[..i]
        invariant data == [] && pos == 0 && !isOpen && pending == 0 && !closed
      {
        assert options[..i + 1][..i] == options[..i];
        match options[i]
        case StartOffset(o) => offset := o;
        case SeekEnd => seekEnd := true;
      }
      assert options[..|options|] == options;
    }

    function GetOffset(): (o: int)
      reads this
      ensures Valid() && isOpen ==> o <= pos
    {
      offset
    }

    method Close() returns (err: Option<Error>)
      modifies this`closed
      ensures closed
      ensures err == if old(closed) then Some(CloseOfClosedChannel) else None
    {
      if closed {
        return Some(CloseOfClosedChannel);
      }
      closed := true;
      err := None;
    }

    /** `openFile`: `contents` is None when `os.Open` fails. */
    method OpenFile(contents: Option<seq<Byte>>) returns (err: Option<Error>)
      modifies this`data, this`pos, this`isOpen
      ensures contents.None? ==>
                err == Some(OpenError) && !isOpen && data == old(data) && pos == old(pos)
      ensures contents.Some? ==>
                && err == None && isOpen && data == contents.value
                && pos == OpenPosition(offset, seekEnd, |contents.value|)
      ensures Valid()
    {
      if contents.None? {
        isOpen := false;
        return Some(OpenError);
      }
      data, isOpen, pos := contents.value, true, 0;
      if offset > 0 {
        pos := offset;
      } else if seekEnd {
        pos := |data|;
      }
      err := None;
    }

    /** `handleEvent`, with the result of `os.Stat` on the event's path as input. */
    method HandleEvent(e: Event, stat: Stat) returns (err: Option<Error>)
      modifies this`offset, this`pos, this`pending
      ensures Step(State(), err) == EventStep(old(State()), e, stat)
      ensures old(Valid()) ==> Valid()
    {
      if Remove in e.ops {
        return Some(if stat.NotExist? then FileDeleted else FileOverwritten);
      }
      if Rename in e.ops {
        return Some(FileRenamed);
      }
      err := None;
      if Write in e.ops {
        if !stat.Exists? {
          return Some(StatError(stat.NotExist?));
        }
        var size := stat.size;
        if size <= offset {
          pos := 0;
          offset := 0;
          if size == 0 {
            return None;
          }
        }
        if closed {
          return Some(SendOnClosedChannel);
        }
        pending := pending + 1;
      }
    }

    /**
     * `Watch` on a name that `filepath.Abs` turns into `absName` (None when it
     * fails): open the file, handle the notifications, close the handle.
     */
    method Watch(absName: Option<string>, contents: Option<seq<Byte>>, notes: seq<Notification>)
      returns (err: Option<Error>)
      modifies this
      ensures seekEnd == old(seekEnd) && closed == old(closed)
      ensures Step(State(), err) == WatchCall(old(State()), seekEnd, absName, contents, notes)
      ensures absName.None? ==> data == old(data) && isOpen == old(isOpen)
      ensures absName.Some? && contents.None? ==> data == old(data) && !isOpen
      ensures absName.Some? && contents.Some? ==> data == contents.value && !isOpen
      ensures old(Valid()) ==> Valid()
    {
      if absName.None? {
        return Some(AbsError);
      }
      var name := absName.value;
      err := OpenFile(contents);
      if err.Some? {
        return;
      }
      ghost var start := State();
      var i := 0;
      while i < |notes|
        invariant 0 <= i <= |notes|
        invariant isOpen && data == contents.value
        invariant seekEnd == old(seekEnd) && closed == old(closed)
        invariant EventsStep(start, name, notes) == EventsStep(State(), name, notes[i..])
      {
        assert notes[i..][1..] == notes[i + 1..];
        match notes[i] {
          case WatcherNil =>
          case WatcherError =>
            isOpen := false;
            return Some(NotifierError);
          case FsEvent(e, stat) =>
            if e.name == name {
              err := HandleEvent(e, stat);
              if err.Some? {
                isOpen := false;
                return;
              }
            }
        }
        i := i + 1;
      }
      isOpen := false;
      err := None;
    }

    /**
     * `Read` into a buffer of `bufLen` bytes.  Where the Go method would block
     * on the channel, the result is `Blocked`; the signal it consumed on the
     * way stays consumed.
     */
    method Read(bufLen: nat) returns (res: ReadResult)
      modifies this`offset, this`pos, this`pending
      ensures ReadOutcome(State(), res) == ReadStep(old(State()), data, isOpen, bufLen)
      ensures old(Valid()) ==> Valid()
    {
      if pending == 0 {
        return if closed then EOF else Blocked;
      }
      pending := pending - 1;
      while true
        invariant offset == old(offset) && pos == old(pos)
        invariant pending < old(pending)
        invariant pending != old(pending) - 1 ==> isOpen && Chunk(data, pos, bufLen) == []
        decreases pending
      {
        if !isOpen {
          return Failed;
        }
        var c := Chunk(data, pos, bufLen);
        if c != [] {
          offset := offset + |c|;
          pos := pos + |c|;
          return Data(c);
        }
        if pending == 0 {
          return if closed then EOF else Blocked;
        }
        pending := pending - 1;
      }
    }

    /** Another process appends to the file the handle refers to. */
    method Append(bytes: seq<Byte>)
      modifies this`data
      ensures data == old(data) + bytes
    {
      data := data + bytes;
    }

    /** Another process truncates the file the handle refers to. */
    method Truncate(size: nat)
      modifies this`data
      ensures data == if size < |old(data)| then old(data)[..size] else old(data)
    {
      if size < |data| {
        data := data[..size];
      }
    }
  }

  /**
   * A reader that follows the end of a file delivers what is appended to it,
   * once a Write event reports the new size.
   */
  method AppendedBytesAreRead(initial: seq<Byte>, bytes: seq<Byte>, bufLen: nat)
    returns (err: Option<Error>, res: ReadResult)
    requires bytes != [] && 0 < bufLen
    ensures err == None
    ensures res == Data(bytes[..Min(bufLen, |bytes|)])
  {
    var r := new Reader([SeekEnd]);
    var _ := r.OpenFile(Some(initial));
    r.Append(bytes);
    assert r.data[|initial|..] == bytes;
    err := r.HandleEvent(Event("f", {Write}), Exists(|r.data|));
    res := r.Read(bufLen);
  }

  /**
   * A reader that has consumed a whole file reads it again from byte 0 once
   * the file is truncated and a Write event reports the smaller size.
   */
  method TruncatedFileIsReadFromStart(contents: seq<Byte>, size: nat, bufLen: nat)
    returns (first: ReadResult, err: Option<Error>, res: ReadResult)
    requires 0 < size < |contents| <= bufLen
    ensures first == Data(contents)
    ensures err == None
    ensures res == Data(contents[..size])
  {
    var r := new Reader([]);
    var _ := r.OpenFile(Some(contents));
    var _ := r.HandleEvent(Event("f", {Write}), Exists(|contents|));
    first := r.Read(bufLen);
    r.Truncate(size);
    err := r.HandleEvent(Event("f", {Write}), Exists(|r.data|));
    res := r.Read(bufLen);
  }

  /** The last StartOffset option decides the offset; without one it is zero. */
  lemma {:induction false} LaterStartOffsetWins(before: seq<ReaderOption>, o: int, after: seq<ReaderOption>)
    requires forall i | 0 <= i < |after| :: !after[i].StartOffset?
    ensures ConfiguredOffset(before + [StartOffset(o)] + after) == o
    decreases |after|
  {
    if after != [] {
      var init := before + [StartOffset(o)] + after;
      assert init[..|init| - 1] == before + [StartOffset(o)] + after[..|after| - 1];
      LaterStartOffsetWins(before, o, after[..|after| - 1]);
    } else {
      assert before + [StartOffset(o)] + after == before + [StartOffset(o)];
    }
  }

  /** A run of events on other paths, and nil watcher errors, changes nothing. */
  lemma {:induction false} ForeignEventsIgnored(t: TailState, name: string, notes: seq<Notification>)
    requires forall i | 0 <= i < |notes| ::
               notes[i].WatcherNil? || (notes[i].FsEvent? && notes[i].event.name != name)
    ensures EventsStep(t, name, notes) == Step(t, None)
    decreases |notes|
  {
    if notes != [] {
      ForeignEventsIgnored(t, name, notes[1..]);
    }
  }

  /**
   * After a Write event reports the file truncated to a non-empty size, the
   * next read starts again at byte 0 and counts the offset from there.
   */
  lemma TruncationRereadsFromStart(t: TailState, e: Event, data: seq<Byte>, bufLen: nat)
    requires IsWrite(e) && !t.closed && 0 < |data| <= t.offset && 0 < bufLen
    ensures var s := EventStep(t, e, Exists(|data|));
            && s.err == None
            && ReadStep(s.tail, data, true, bufLen).result == Data(data[..Min(bufLen, |data|)])
            && ReadStep(s.tail, data, true, bufLen).tail.offset == Min(bufLen, |data|)
  {
  }

  /**
   * Reopening after the file was overwritten keeps the offset consumed from
   * the old file: the first bytes of the new file, up to that offset, are
   * never read.
   */
  lemma ReopenSkipsConsumedPrefix(t: TailState, seekEnd: bool, newFile: seq<Byte>, bufLen: nat)
    requires 0 < t.offset < |newFile| && 0 < t.pending && 0 < bufLen
    ensures var reopened := t.(pos := OpenPosition(t.offset, seekEnd, |newFile|));
            ReadStep(reopened, newFile, true, bufLen).result ==
              Data(newFile[t.offset..t.offset + Min(bufLen, |newFile| - t.offset)])
  {
  }
}
