/**
 * LogTailer (packages/core/src/log-tailer.ts): follows a growing log file
 * and emits each newly appended byte range once. The file system is
 * modelled by the bytes of the file at the moment of each call (`None`
 * when it does not exist or cannot be read); `fs.watch` succeeding or
 * throwing is a boolean; the emitted 'newLine' and 'error' events are
 * recorded in order.
 */
module LogTailer {
  import opened Wrappers

  newtype byte = x: int | 0 <= x < 256

  datatype TailerError = FileNotFound(path: string) | WatchFailed | ReadFailed

  datatype TailerEvent = NewLine(chunk: seq<byte>) | Error(error: TailerError)

  /** The outcome of one readNewContent on a file of the given bytes. */
  datatype Delta = Delta(cursor: nat, chunk: Option<seq<byte>>)

  /**
   * readNewContent's cursor logic: a file shorter than the cursor resets
   * the cursor to 0; then the bytes from the cursor to the end, when there
   * are any, form one chunk and the cursor moves to the end.
   */
  function Step(cursor: nat, file: seq<byte>): (r: Delta)
    ensures cursor <= |file| ==> r.chunk == (if cursor < |file| then Some(file[cursor..]) else None)
    ensures |file| < cursor ==> r.chunk == (if |file| > 0 then Some(file) else None)
    ensures r.chunk.Some? ==> r.cursor == |file| && r.chunk.value != []
    ensures r.chunk.None? ==> r.cursor == (if |file| < cursor then 0 else cursor)
    ensures r.cursor <= |file| || r.cursor == cursor
  {
    var from := if |file| < cursor then 0 else cursor;
    if |file| - from <= 0 then Delta(from, None) else Delta(|file|, Some(file[from..]))
  }

  /** The 'newLine' event a delta emits, if any. */
  function Emitted(d: Delta): seq<TailerEvent> {
    if d.chunk.Some? then [NewLine(d.chunk.value)] else []
  }

  /** Successive observations of the file, each a prefix of the next: nothing truncated. */
  ghost predicate Grows(files: seq<seq<byte>>) {
    forall i, j :: 0 <= i <= j < |files| ==> files[i] <= files[j]
  }

  /** The cursor and the concatenated chunks after reading each observation in turn. */
  function Run(cursor: nat, files: seq<seq<byte>>): (nat, seq<byte>)
    decreases |files|
  {
    if files == [] then (cursor, [])
    else
      var d := Step(cursor, files[0]);
      var rest := Run(d.cursor, files[1..]);
      (rest.0, (if d.chunk.Some? then d.chunk.value else []) + rest.1)
  }

  /**
   * With no truncation, the emitted chunks concatenate to exactly the
   * bytes from the start cursor to the end of the last observation: no
   * byte is emitted twice and none is skipped.
   */
  lemma {:induction false} ChunksConcatenate(cursor: nat, files: seq<seq<byte>>)
    requires files != [] && Grows(files) && cursor <= |files[0]|
    ensures Run(cursor, files).0 == |files[|files| - 1]|
    ensures Run(cursor, files).1 == files[|files| - 1][cursor..]
    decreases |files|
  {
    var d := Step(cursor, files[0]);
    var last := files[|files| - 1];
    assert files[0] <= last;
    if |files| == 1 {
      assert Run(d.cursor, files[1..]) == (d.cursor, []);
      if d.chunk.None? {
        assert last[cursor..] == [];
      }
    } else {
      var tail := files[1..];
      assert Grows(tail) by {
        forall i, j | 0 <= i <= j < |tail| ensures tail[i] <= tail[j] {
          assert tail[i] == files[i + 1] && tail[j] == files[j + 1];
        }
      }
      assert files[0] <= files[1] && tail[0] == files[1];
      ChunksConcatenate(d.cursor, tail);
      assert tail[|tail| - 1] == last;
      if d.chunk.Some? {
        assert d.chunk.value == last[cursor..d.cursor];
        assert last[cursor..d.cursor] + last[d.cursor..] == last[cursor..];
      } else {
        assert d.cursor == cursor;
      }
    }
  }

  /**
   * After start saw `initial`, reads of a growing file emit exactly what
   * was appended after `initial`: existing content is never emitted.
   */
  lemma ExistingContentNeverEmitted(initial: seq<byte>, files: seq<seq<byte>>)
    requires files != [] && Grows(files) && initial <= files[0]
    ensures Run(|initial|, files).1 == files[|files| - 1][|initial|..]
    ensures initial <= files[|files| - 1]
  {
    ChunksConcatenate(|initial|, files);
  }

  /** A file that has not changed size since the last read yields nothing. */
  lemma NothingNewNothingEmitted(cursor: nat, file: seq<byte>)
    requires |file| == cursor
    ensures Step(cursor, file) == Delta(cursor, None)
  {
  }

  class Tailer {
    const filePath: string
    var currentSize: nat
    /** `watcher !== null` */
    var watching: bool
    var isTailing: bool
    /** Every 'newLine' and 'error' event emitted so far, in order. */
    var events: seq<TailerEvent>

    /** The watcher exists exactly while tailing. */
    ghost predicate Valid()
      reads this
    {
      watching == isTailing
    }

    constructor(path: string)
      ensures Valid() && filePath == path
      ensures currentSize == 0 && !watching && !isTailing && events == []
    {
      filePath := path;
      currentSize := 0;
      watching := false;
      isTailing := false;
      events := [];
    }

    /**
     * start: a no-op while tailing; a missing file emits an error and
     * changes nothing else; otherwise the cursor moves to the current size
     * (existing content is never emitted) and, if the watch is installed,
     * tailing begins.
     */
    method Start(file: Option<seq<byte>>, watchOk: bool)
      requires Valid()
      modifies this
      ensures Valid()
      ensures old(isTailing) ==> unchanged(this)
      ensures !old(isTailing) && file.None? ==>
                currentSize == old(currentSize) && !isTailing && events == old(events) + [Error(FileNotFound(filePath))]
      ensures !old(isTailing) && file.Some? ==> currentSize == |file.value|
      ensures !old(isTailing) && file.Some? && watchOk ==> isTailing && events == old(events)
      ensures !old(isTailing) && file.Some? && !watchOk ==> !isTailing && events == old(events) + [Error(WatchFailed)]
    {
      if isTailing {
        return;
      }
      if file.None? {
        events := events + [Error(FileNotFound(filePath))];
        return;
      }
      currentSize := |file.value|;
      if !watchOk {
        events := events + [Error(WatchFailed)];
        return;
      }
      watching := true;
      isTailing := true;
    }

    /** stop: closes the watcher if any and clears isTailing; a second stop changes nothing. */
    method Stop()
      requires Valid()
      modifies this
      ensures Valid() && !watching && !isTailing
      ensures currentSize == old(currentSize) && events == old(events)
    {
      if watching {
        watching := false;
      }
      isTailing := false;
    }

    /** The watch callback: only a 'change' event reads new content. */
    method OnWatchEvent(eventType: string, file: Option<seq<byte>>, readOk: bool)
      requires Valid() && watching
      modifies this
      ensures Valid() && watching == old(watching) && isTailing == old(isTailing)
      ensures eventType != "change" ==> unchanged(this)
      ensures eventType == "change" && file.Some? && readOk ==>
                currentSize == Step(old(currentSize), file.value).cursor &&
                events == old(events) + Emitted(Step(old(currentSize), file.value))
    {
      if eventType == "change" {
        ReadNewContent(file, readOk);
      }
    }

    /**
     * readNewContent on the file's current bytes (`None` when stat fails);
     * `readOk` is false when opening or reading throws. Every failure emits
     * one error; a read failure after a truncation keeps the reset cursor.
     */
    method ReadNewContent(file: Option<seq<byte>>, readOk: bool)
      requires Valid()
      modifies this
      ensures Valid() && watching == old(watching) && isTailing == old(isTailing)
      ensures file.None? ==> currentSize == old(currentSize) && events == old(events) + [Error(ReadFailed)]
      ensures file.Some? && readOk ==>
                currentSize == Step(old(currentSize), file.value).cursor &&
                events == old(events) + Emitted(Step(old(currentSize), file.value))
      ensures file.Some? && !readOk ==>
                var d := Step(old(currentSize), file.value);
                (d.chunk.None? ==> currentSize == d.cursor && events == old(events)) &&
                (d.chunk.Some? ==> currentSize == (if |file.value| < old(currentSize) then 0 else old(currentSize)) &&
                                   events == old(events) + [Error(ReadFailed)])
    {
      if file.None? {
        events := events + [Error(ReadFailed)];
        return;
      }
      var size := |file.value|;
      if size < currentSize {
        currentSize := 0;
      }
      var bytesToRead := size - currentSize;
      if bytesToRead <= 0 {
        return;
      }
      if !readOk {
        events := events + [Error(ReadFailed)];
        return;
      }
      var buffer := file.value[currentSize..size];
      assert buffer == file.value[currentSize..];
      currentSize := size;
      events := events + [NewLine(buffer)];
    }
  }
}
