/**
 The file fetcher: it reads a file in chunks by asynchronous reads, one at a time, from an offset and
 up to a length, and may be paused in between. What the stream delivers appears as parameters.
 */
module FileFetcher {
  import opened Common

  const READ_BUFFER_SIZE: nat := 16 * 1024

  datatype FileNote =
    | FileBegun
    | ReadStarted(n: nat)
    | ReadEnded                      // done, failed or cancelled
    | FileReceived(chunk: seq<Byte>)
    | PausedNow
    | UnpausedNow
    | FileComplete(success: bool)
    | FileTerminated

  /** What the delegate does about a chunk: it may pause or terminate, and accepts or refuses it. */
  datatype Answer = Answer(pauses: bool, terminates: bool, accepts: bool)

  datatype Reader = Reader(
    inProgress: bool,
    paused: bool,
    ongoingRead: bool,
    bytesCopied: nat,
    offset: nat,
    dataLength: int,                 // -1 when not known
    wanted: nat,                     // the size of the ongoing read
    log: seq<FileNote>)

  function Tell(s: Reader, note: FileNote): Reader {
    s.(log := s.log + [note])
  }

  function CloseFile(s: Reader): Reader {
    var t := if s.ongoingRead then Tell(s, ReadEnded) else s;
    t.(ongoingRead := false, inProgress := false, paused := false)
  }

  function Finish(s: Reader, success: bool): Reader {
    Tell(CloseFile(s), FileComplete(success))
  }

  function TerminateFile(s: Reader): Reader {
    Tell(CloseFile(s), FileTerminated)
  }

  /** The length less the bytes copied, in unsigned words. */
  function BytesToRead(s: Reader): nat {
    if s.dataLength < 0 then READ_BUFFER_SIZE
    else
      var left := (s.dataLength - s.bytesCopied) % WORD;
      if left < READ_BUFFER_SIZE then left else READ_BUFFER_SIZE
  }

  /** `async` answers the request to read asynchronously, if it is made. */
  function NextRead(s: Reader, async: bool): Reader {
    if s.paused || s.ongoingRead || !s.inProgress then s
    else
      var n := BytesToRead(s);
      if n == 0 then Finish(s, true)
      else if async then Tell(s, ReadStarted(n)).(ongoingRead := true, wanted := n)
      else Finish(s, false)
  }

  function BeginFile(s: Reader, opens: bool, async: bool): Reader {
    var t := Tell(s, FileBegun);
    if !opens then Finish(t, false) else NextRead(t.(bytesCopied := 0, inProgress := true), async)
  }

  function PauseFile(s: Reader): Reader {
    if s.paused then s else Tell(s, PausedNow).(paused := true)
  }

  function UnpauseFile(s: Reader, async: bool): Reader {
    if !s.paused then s else NextRead(Tell(s, UnpausedNow).(paused := false), async)
  }

  function Answered(s: Reader, answer: Answer): Reader {
    var t := if answer.pauses then PauseFile(s) else s;
    if answer.terminates then TerminateFile(t) else t
  }

  function TakeChunk(s: Reader, chunk: seq<Byte>): Reader {
    Tell(s, FileReceived(chunk)).(bytesCopied := s.bytesCopied + |chunk|)
  }

  function ReadDone(s: Reader, chunk: seq<Byte>, answer: Answer, async: bool): Reader {
    var t := Tell(s, ReadEnded).(ongoingRead := false);
    if chunk == [] then Finish(t, true)
    else
      var u := Answered(TakeChunk(t, chunk), answer);
      if answer.accepts then NextRead(u, async) else u
  }

  function ReadFailed(s: Reader): Reader {
    Finish(s, false)
  }

  // ---------------------------------------------------------------------------
  // The fetcher object

  class FileReader {
    var transferInProgress: bool
    var transferPaused: bool
    var ongoingRead: bool
    var bytesCopied: nat
    var offset: nat
    var dataLength: int
    var wanted: nat
    ghost var log: seq<FileNote>

    ghost function View(): Reader
      reads this
    {
      Reader(transferInProgress, transferPaused, ongoingRead, bytesCopied, offset, dataLength, wanted, log)
    }

    constructor ()
      ensures View() == Reader(false, false, false, 0, 0, -1, 0, [])
    {
      transferInProgress, transferPaused, ongoingRead := false, false, false;
      bytesCopied, offset, dataLength, wanted := 0, 0, -1, 0;
      log := [];
    }

    method SetLength(length: nat)
      modifies `dataLength
      ensures dataLength == length
    {
      dataLength := length;
    }

    method UnsetLength()
      modifies `dataLength
      ensures dataLength == 0
    {
      SetLength(0);
    }

    method CleanUp()
      modifies `transferInProgress, `transferPaused, `ongoingRead, `log
      ensures View() == CloseFile(old(View()))
    {
      if ongoingRead {
        log := log + [ReadEnded];
      }
      ongoingRead := false;
      transferInProgress := false;
      transferPaused := false;
    }

    method CompleteTransfer(success: bool)
      modifies `transferInProgress, `transferPaused, `ongoingRead, `log
      ensures View() == Finish(old(View()), success)
    {
      CleanUp();
      log := log + [FileComplete(success)];
    }

    method TerminateTransfer()
      modifies `transferInProgress, `transferPaused, `ongoingRead, `log
      ensures View() == TerminateFile(old(View()))
    {
      CleanUp();
      log := log + [FileTerminated];
    }

    method BeginTransfer(opens: bool, async: bool)
      requires !transferInProgress
      modifies `transferInProgress, `transferPaused, `ongoingRead, `bytesCopied, `wanted, `log
      ensures View() == BeginFile(old(View()), opens, async)
    {
      log := log + [FileBegun];
      if !opens {
        CompleteTransfer(false);
        return;
      }
      bytesCopied := 0;
      transferInProgress := true;
      ScheduleRead(async);
    }

    method ScheduleRead(async: bool)
      modifies `transferInProgress, `transferPaused, `ongoingRead, `wanted, `log
      ensures View() == NextRead(old(View()), async)
    {
      if transferPaused || ongoingRead || !transferInProgress {
        return;
      }
      var bytesToRead := READ_BUFFER_SIZE;
      if dataLength >= 0 {
        var left := (dataLength - bytesCopied) % WORD;
        if left < bytesToRead {
          bytesToRead := left;
        }
      }
      if bytesToRead == 0 {
        CompleteTransfer(true);
        return;
      }
      if !async {
        CompleteTransfer(false);
        return;
      }
      ongoingRead, wanted := true, bytesToRead;
      log := log + [ReadStarted(bytesToRead)];
    }

    method OnReadDoneCallback(chunk: seq<Byte>, answer: Answer, async: bool)
      modifies `transferInProgress, `transferPaused, `ongoingRead, `bytesCopied, `wanted, `log
      ensures View() == ReadDone(old(View()), chunk, answer, async)
    {
      ongoingRead := false;
      log := log + [ReadEnded];
      if chunk == [] {
        CompleteTransfer(true);
        return;
      }
      bytesCopied := bytesCopied + |chunk|;
      log := log + [FileReceived(chunk)];
      AskDelegate(answer);
      if !answer.accepts {
        return;
      }
      ScheduleRead(async);
    }

    method AskDelegate(answer: Answer)
      modifies `transferInProgress, `transferPaused, `ongoingRead, `log
      ensures View() == Answered(old(View()), answer)
    {
      if answer.pauses {
        Pause();
      }
      if answer.terminates {
        TerminateTransfer();
      }
    }

    method OnReadErrorCallback()
      modifies `transferInProgress, `transferPaused, `ongoingRead, `log
      ensures View() == ReadFailed(old(View()))
    {
      CompleteTransfer(false);
    }

    method Pause()
      modifies `transferPaused, `log
      ensures View() == PauseFile(old(View()))
    {
      if transferPaused {
        return;
      }
      transferPaused := true;
      log := log + [PausedNow];
    }

    method Unpause(async: bool)
      modifies `transferInProgress, `transferPaused, `ongoingRead, `wanted, `log
      ensures View() == UnpauseFile(old(View()), async)
    {
      if !transferPaused {
        return;
      }
      transferPaused := false;
      log := log + [UnpausedNow];
      ScheduleRead(async);
    }
  }
}
