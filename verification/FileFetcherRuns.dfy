/**
 Every run of the file fetcher, for every pattern of short reads and pauses.
 */
module FileFetcherRuns {
  import opened Common
  import opened FileFetcher

  // ---------------------------------------------------------------------------
  // Events

  datatype Event =
    | Begins(opens: bool, async: bool)
    | ReadEnds(chunk: seq<Byte>, answer: Answer, async: bool)
    | ReadFails
    | Pauses
    | Unpauses(async: bool)
    | Terminates

  /** A read delivers no more than it was asked for. */
  predicate Enabled(s: Reader, e: Event) {
    match e
    case Begins(_, _) => !s.inProgress
    case ReadEnds(chunk, _, _) => s.ongoingRead && |chunk| <= s.wanted
    case ReadFails => s.ongoingRead
    case _ => true
  }

  function Step(s: Reader, e: Event): Reader
    requires Enabled(s, e)
  {
    match e
    case Begins(opens, async) => BeginFile(s, opens, async)
    case ReadEnds(chunk, answer, async) => ReadDone(s, chunk, answer, async)
    case ReadFails => ReadFailed(s)
    case Pauses => PauseFile(s)
    case Unpauses(async) => UnpauseFile(s, async)
    case Terminates => TerminateFile(s)
  }

  /** What a stream over the file can deliver: the bytes from where the last read ended, and nothing only at
      the end of the file. */
  predicate FromFile(file: seq<Byte>, s: Reader, e: Event) {
    e.ReadEnds? ==>
      var at := s.offset + s.bytesCopied;
      if e.chunk == [] then at >= |file| else at + |e.chunk| <= |file| && e.chunk == file[at..at + |e.chunk|]
  }

  function Run(file: seq<Byte>, s: Reader, events: seq<Event>): Option<Reader> {
    if events == [] then Some(s)
    else
      var before, e := Run(file, s, events[..|events| - 1]), events[|events| - 1];
      if before.Some? && Enabled(before.value, e) && FromFile(file, before.value, e)
      then Some(Step(before.value, e)) else None
  }

  // ---------------------------------------------------------------------------
  // Reading a log

  /** Reads started and not ended. */
  function OutstandingIn(log: seq<FileNote>): int {
    if log == [] then 0
    else
      match log[|log| - 1]
      case ReadStarted(_) => OutstandingIn(log[..|log| - 1]) + 1
      case ReadEnded => OutstandingIn(log[..|log| - 1]) - 1
      case _ => OutstandingIn(log[..|log| - 1])
  }

  /** Chunks handed over since the fetcher was paused; none if it is not. */
  function ChunksInPause(log: seq<FileNote>): nat {
    if log == [] then 0
    else
      match log[|log| - 1]
      case FileReceived(_) => if PausedIn(log) then ChunksInPause(log[..|log| - 1]) + 1 else 0
      case PausedNow => 0
      case _ => if PausedIn(log) then ChunksInPause(log[..|log| - 1]) else 0
  }

  predicate PausedIn(log: seq<FileNote>) {
    log != [] &&
    match log[|log| - 1]
    case PausedNow => true
    case UnpausedNow => false
    case FileComplete(_) => false
    case FileTerminated => false
    case _ => PausedIn(log[..|log| - 1])
  }

  /** The bytes handed over since the transfer began. */
  function DeliveredIn(log: seq<FileNote>): seq<Byte> {
    if log == [] then []
    else
      match log[|log| - 1]
      case FileBegun => []
      case FileReceived(chunk) => DeliveredIn(log[..|log| - 1]) + chunk
      case _ => DeliveredIn(log[..|log| - 1])
  }

  // ---------------------------------------------------------------------------
  // What was asked for

  /** The file from the offset to the smaller of offset plus length and the end. */
  function Asked(file: seq<Byte>, offset: nat, length: int): seq<Byte> {
    var end := if length < 0 || offset + length > |file| then |file| else offset + length;
    if offset <= end then file[offset..end] else []
  }

  function Copied(file: seq<Byte>, offset: nat, n: nat): seq<Byte>
    requires n > 0 ==> offset + n <= |file|
  {
    if n == 0 then [] else file[offset..offset + n]
  }

  lemma CopiedAll(file: seq<Byte>, offset: nat, length: int, n: nat)
    requires n > 0 ==> offset + n <= |file|
    requires length >= 0 ==> n <= length
    requires n == length || offset + n >= |file|
    ensures Copied(file, offset, n) == Asked(file, offset, length)
  {
  }

  /** "Unsetting" the length sets it to 0, which asks for nothing: it asks for the rest of the file if and
      only if there is no rest. */
  lemma UnsetAsksForRest(file: seq<Byte>, offset: nat)
    ensures Asked(file, offset, 0) == []
    ensures Asked(file, offset, 0) == Asked(file, offset, -1) <==> offset >= |file|
  {
  }

  // ---------------------------------------------------------------------------
  // The invariant

  /** Reads and pauses. */
  predicate OneRead(s: Reader) {
    && OutstandingIn(s.log) == (if s.ongoingRead then 1 else 0)
    && s.paused == PausedIn(s.log)
    && ChunksInPause(s.log) + (if s.ongoingRead && s.paused then 1 else 0) <= 1
    && (s.ongoingRead ==> s.inProgress)
  }

  /** Bytes. */
  predicate InFile(file: seq<Byte>, s: Reader) {
    && (s.dataLength >= 0 ==> s.bytesCopied <= s.dataLength)
    && (s.bytesCopied > 0 ==> s.offset + s.bytesCopied <= |file|)
    && DeliveredIn(s.log) == Copied(file, s.offset, s.bytesCopied)
    && (s.ongoingRead && s.dataLength >= 0 ==> s.bytesCopied + s.wanted <= s.dataLength)
  }

  predicate Right(file: seq<Byte>, s: Reader) {
    s.log != [] && s.log[|s.log| - 1] == FileComplete(true) ==>
      DeliveredIn(s.log) == Asked(file, s.offset, s.dataLength)
  }

  predicate NotPast(file: seq<Byte>, s: Reader) {
    DeliveredIn(s.log) <= Asked(file, s.offset, s.dataLength)
  }

  ghost predicate Inv(file: seq<Byte>, s: Reader) {
    && OneRead(s)
    && -1 <= s.dataLength < WORD
    && (s.inProgress ==> InFile(file, s))
    && NotPast(file, s)
    && Right(file, s)
  }

  lemma CloseKeeps(s: Reader, note: FileNote)
    requires OneRead(s) && (note.FileComplete? || note.FileTerminated?)
    ensures OneRead(Tell(CloseFile(s), note)) && DeliveredIn(Tell(CloseFile(s), note).log) == DeliveredIn(s.log)
  {
    Extend(s.log, ReadEnded);
    Extend(CloseFile(s).log, note);
  }

  lemma FinishKeeps(file: seq<Byte>, s: Reader, success: bool)
    requires OneRead(s) && NotPast(file, s) && -1 <= s.dataLength < WORD
    requires success ==> InFile(file, s) && (s.bytesCopied == s.dataLength || s.offset + s.bytesCopied >= |file|)
    ensures Inv(file, Finish(s, success)) && !Finish(s, success).inProgress
  {
    CloseKeeps(s, FileComplete(success));
    if success {
      CopiedAll(file, s.offset, s.dataLength, s.bytesCopied);
    }
  }

  lemma TerminateKeeps(file: seq<Byte>, s: Reader)
    requires OneRead(s) && NotPast(file, s) && -1 <= s.dataLength < WORD
    ensures Inv(file, TerminateFile(s))
  {
    CloseKeeps(s, FileTerminated);
  }

  /** Ready for the next read. */
  ghost predicate Quiet(file: seq<Byte>, s: Reader) {
    Inv(file, s) && !s.ongoingRead
  }

  lemma ReadStartKeeps(file: seq<Byte>, s: Reader, n: nat)
    requires Quiet(file, s) && s.inProgress && !s.paused
    requires s.dataLength >= 0 ==> s.bytesCopied + n <= s.dataLength
    ensures Inv(file, Tell(s, ReadStarted(n)).(ongoingRead := true, wanted := n))
  {
    Extend(s.log, ReadStarted(n));
  }

  lemma NextReadKeeps(file: seq<Byte>, s: Reader, async: bool)
    requires Quiet(file, s)
    ensures Inv(file, NextRead(s, async))
  {
    if !s.paused && s.inProgress {
      var n := BytesToRead(s);
      if n == 0 {
        FinishKeeps(file, s, true);
      } else if async {
        ReadStartKeeps(file, s, n);
      } else {
        FinishKeeps(file, s, false);
      }
    }
  }

  lemma BeginKeeps(file: seq<Byte>, s: Reader, opens: bool, async: bool)
    requires Inv(file, s) && !s.inProgress
    ensures Inv(file, BeginFile(s, opens, async))
  {
    Extend(s.log, FileBegun);
    var t := Tell(s, FileBegun);
    if opens {
      NextReadKeeps(file, t.(bytesCopied := 0, inProgress := true), async);
    } else {
      FinishKeeps(file, t, false);
    }
  }

  lemma PauseKeeps(file: seq<Byte>, s: Reader)
    requires Inv(file, s)
    ensures Inv(file, PauseFile(s)) && PauseFile(s).ongoingRead == s.ongoingRead
  {
    Extend(s.log, PausedNow);
  }

  lemma UnpauseKeeps(file: seq<Byte>, s: Reader, async: bool)
    requires Inv(file, s)
    ensures Inv(file, UnpauseFile(s, async))
  {
    if s.paused {
      Extend(s.log, UnpausedNow);
      var t := Tell(s, UnpausedNow).(paused := false);
      if t.ongoingRead {
        assert NextRead(t, async) == t;
      } else {
        NextReadKeeps(file, t, async);
      }
    }
  }

  lemma CopyMore(file: seq<Byte>, offset: nat, n: nat, chunk: seq<Byte>)
    requires n > 0 ==> offset + n <= |file|
    requires chunk != [] && offset + n + |chunk| <= |file| && chunk == file[offset + n..offset + n + |chunk|]
    ensures Copied(file, offset, n) + chunk == Copied(file, offset, n + |chunk|)
  {
  }

  /** The read has ended and its chunk is not yet handed over. */
  lemma ReadEndedKeeps(file: seq<Byte>, s: Reader)
    requires Inv(file, s) && s.ongoingRead
    ensures var t := Tell(s, ReadEnded).(ongoingRead := false);
            && Quiet(file, t) && t.inProgress && PausedIn(t.log) == PausedIn(s.log)
            && (t.paused ==> ChunksInPause(t.log) == 0)
  {
    Extend(s.log, ReadEnded);
  }

  lemma ChunkKeeps(file: seq<Byte>, s: Reader, chunk: seq<Byte>)
    requires Quiet(file, s) && s.inProgress && chunk != []
    requires s.paused ==> ChunksInPause(s.log) == 0
    requires s.dataLength >= 0 ==> s.bytesCopied + |chunk| <= s.dataLength
    requires var at := s.offset + s.bytesCopied; at + |chunk| <= |file| && chunk == file[at..at + |chunk|]
    ensures Quiet(file, TakeChunk(s, chunk))
  {
    Extend(s.log, FileReceived(chunk));
    CopyMore(file, s.offset, s.bytesCopied, chunk);
  }

  lemma AnswerKeeps(file: seq<Byte>, s: Reader, answer: Answer)
    requires Quiet(file, s)
    ensures Quiet(file, Answered(s, answer))
  {
    PauseKeeps(file, s);
    var t := if answer.pauses then PauseFile(s) else s;
    TerminateKeeps(file, t);
  }

  lemma ReadDoneKeeps(file: seq<Byte>, s: Reader, e: Event)
    requires Inv(file, s) && e.ReadEnds? && Enabled(s, e) && FromFile(file, s, e)
    ensures Inv(file, Step(s, e))
  {
    ReadEndedKeeps(file, s);
    var t := Tell(s, ReadEnded).(ongoingRead := false);
    if e.chunk == [] {
      FinishKeeps(file, t, true);
    } else {
      ChunkKeeps(file, t, e.chunk);
      AnswerKeeps(file, TakeChunk(t, e.chunk), e.answer);
      NextReadKeeps(file, Answered(TakeChunk(t, e.chunk), e.answer), e.async);
    }
  }

  lemma StepKeeps(file: seq<Byte>, s: Reader, e: Event)
    requires Inv(file, s) && Enabled(s, e) && FromFile(file, s, e)
    ensures Inv(file, Step(s, e))
  {
    match e
    case Begins(opens, async) => BeginKeeps(file, s, opens, async);
    case ReadEnds(_, _, _) => ReadDoneKeeps(file, s, e);
    case ReadFails => FinishKeeps(file, s, false);
    case Pauses => PauseKeeps(file, s);
    case Unpauses(async) => UnpauseKeeps(file, s, async);
    case Terminates => TerminateKeeps(file, s);
  }

  /** A fetcher that has not started anything. */
  function New(offset: nat, length: int): Reader {
    Reader(false, false, false, 0, offset, length, 0, [])
  }

  lemma StepKeepsRequest(s: Reader, e: Event)
    requires Enabled(s, e)
    ensures Step(s, e).offset == s.offset && Step(s, e).dataLength == s.dataLength
  {
    match e
    case Begins(_, _) =>
    case ReadEnds(_, _, _) =>
    case ReadFails =>
    case Pauses =>
    case Unpauses(_) =>
    case Terminates =>
  }

  lemma {:induction false} EveryRunKeeps(file: seq<Byte>, offset: nat, length: int, events: seq<Event>)
    requires -1 <= length < WORD && Run(file, New(offset, length), events).Some?
    ensures var s := Run(file, New(offset, length), events).value;
            Inv(file, s) && s.offset == offset && s.dataLength == length
    decreases |events|
  {
    if events != [] {
      var init, e := events[..|events| - 1], events[|events| - 1];
      EveryRunKeeps(file, offset, length, init);
      StepKeeps(file, Run(file, New(offset, length), init).value, e);
      StepKeepsRequest(Run(file, New(offset, length), init).value, e);
    }
  }

  /** In every run at most one read is outstanding, and at most one chunk is handed over during a pause. */
  lemma OneReadAtATime(file: seq<Byte>, offset: nat, length: int, events: seq<Event>)
    requires -1 <= length < WORD && Run(file, New(offset, length), events).Some?
    ensures var s := Run(file, New(offset, length), events).value;
            && 0 <= OutstandingIn(s.log) <= 1 && (OutstandingIn(s.log) == 1 <==> s.ongoingRead)
            && ChunksInPause(s.log) <= 1
  {
    EveryRunKeeps(file, offset, length, events);
  }

  /** In every run, what a transfer has handed over is the file from the offset on, never past the length,
      however the transfer ends; and one that succeeds has handed over exactly what was asked for. */
  lemma FileIsHandedOver(file: seq<Byte>, offset: nat, length: int, events: seq<Event>)
    requires -1 <= length < WORD && Run(file, New(offset, length), events).Some?
    ensures var s := Run(file, New(offset, length), events).value;
            && DeliveredIn(s.log) <= Asked(file, offset, length)
            && (s.log != [] && s.log[|s.log| - 1] == FileComplete(true) ==>
                  DeliveredIn(s.log) == Asked(file, offset, length))
  {
    EveryRunKeeps(file, offset, length, events);
  }
}
