/**
 The fetcher of several byte ranges on top of the network fetcher: it starts one transfer for each range,
 cuts what comes at the end of the range and goes on with the next.
 */
module MultiRange {
  import opened Common
  import opened HttpFetcher
  import opened Download

  /** How the whole transfer ended. */
  datatype Ending = Completed(success: bool) | Halted

  /** What the delegate does about a chunk: takes it, declines it, or terminates the whole transfer. */
  datatype Answer = Takes | Declines | Halts

  datatype Multi = Multi(
    ranges: seq<ByteRange>,
    active: bool,                    // the base fetcher is at work
    pending: bool,                   // the base fetcher was told to terminate
    terminating: bool,
    index: nat,
    received: nat,                   // of the current range
    before: seq<Byte>,               // given to the delegate of earlier ranges
    given: seq<Byte>,                // and of the current one
    ending: Option<Ending>)

  datatype Pair = Pair(m: Multi, base: Fetcher)

  /** All that was given to the delegate. */
  function AllGiven(m: Multi): seq<Byte> {
    m.before + m.given
  }

  /** 0 for a range to the end. */
  function Length(r: ByteRange): nat {
    if r.length.Some? then r.length.value else 0
  }

  function Reset(m: Multi): Multi {
    m.(active := false, pending := false, terminating := false, index := 0, received := 0)
  }

  function Aimed(base: Fetcher, r: ByteRange): Fetcher {
    base.(data := base.data.(bytesDownloaded := r.offset, downloadLength := Length(r)))
  }

  function StartRange(w: Pair): Pair {
    if w.m.index >= |w.m.ranges| then w
    else Pair(w.m.(received := 0, active := true, before := AllGiven(w.m), given := []),
              Begin(Aimed(w.base, w.m.ranges[w.m.index])))
  }

  function BeginAll(w: Pair): Pair {
    if w.m.ranges == [] then w.(m := w.m.(ending := Some(Completed(true))))
    else StartRange(w.(m := w.m.(index := 0, received := 0)))
  }

  /** How much of a chunk still belongs to the range. */
  function NextSize(m: Multi, n: nat): nat
    requires m.index < |m.ranges|
  {
    var length := Length(m.ranges[m.index]);
    if length == 0 then n
    else
      var left := Unsigned(length - m.received);
      if left < n then left else n
  }

  function Counted(m: Multi, chunk: seq<Byte>): Multi
    requires m.index < |m.ranges|
  {
    m.(received := m.received + |chunk|, given := m.given + chunk[..NextSize(m, |chunk|)])
  }

  function Receive(m: Multi, chunk: seq<Byte>, answer: Answer): (Multi, Reaction)
    requires m.index < |m.ranges|
  {
    var t, length := Counted(m, chunk), Length(m.ranges[m.index]);
    match answer
    case Halts => (t.(terminating := true, pending := true), Reaction(true, false))
    case Declines => (t, Reaction(false, false))
    case Takes =>
      if length > 0 && t.received >= length then (t.(pending := true), Reaction(true, false))
      else (t, Reaction(false, true))
  }

  function Ended(w: Pair, successful: bool): Pair
    requires w.m.index < |w.m.ranges|
  {
    var m, length := w.m.(pending := false), Length(w.m.ranges[w.m.index]);
    if m.terminating then w.(m := Reset(m).(ending := Some(Halted)))
    else if length > 0 && m.received < length then w.(m := Reset(m).(ending := Some(Completed(false))))
    else if m.index + 1 < |m.ranges| then StartRange(w.(m := m.(index := m.index + 1)))
    else w.(m := Reset(m).(ending := Some(Completed(length > 0 || successful))))
  }

  /** Terminating from outside a callback. */
  function Halt(w: Pair): Pair
    requires w.m.active ==> w.m.index < |w.m.ranges|
  {
    if !w.m.active then w.(m := w.m.(ending := Some(Halted)))
    else if w.m.pending then w.(m := w.m.(terminating := true))
    else Ended(Pair(w.m.(terminating := true, pending := true), ForceTermination(w.base)), false)
  }

  // ---------------------------------------------------------------------------
  // The fetcher object

  class MultiRangeHttpFetcher {
    const base: LibcurlHttpFetcher
    var ranges: seq<ByteRange>
    var baseFetcherActive: bool
    var pendingTransferEnded: bool
    var terminating: bool
    var currentIndex: nat
    var bytesReceivedThisRange: nat
    ghost var before: seq<Byte>
    ghost var given: seq<Byte>
    ghost var ending: Option<Ending>

    ghost function Own(): Multi
      reads this
    {
      Multi(ranges, baseFetcherActive, pendingTransferEnded, terminating, currentIndex, bytesReceivedThisRange,
            before, given, ending)
    }

    ghost function View(): Pair
      reads this, base
    {
      Pair(Own(), base.View())
    }

    constructor (base: LibcurlHttpFetcher)
      ensures this.base == base && Own() == Multi([], false, false, false, 0, 0, [], [], None)
    {
      this.base := base;
      ranges, baseFetcherActive, pendingTransferEnded, terminating := [], false, false, false;
      currentIndex, bytesReceivedThisRange := 0, 0;
      before, given, ending := [], [], None;
    }

    method AddRange(offset: nat, length: Option<nat>)
      requires length.Some? ==> length.value > 0
      modifies `ranges
      ensures ranges == old(ranges) + [ByteRange(offset, length)]
    {
      ranges := ranges + [ByteRange(offset, length)];
    }

    method BeginTransfer()
      requires !baseFetcherActive && !pendingTransferEnded && !terminating && !base.link.inProgress
      modifies this, base
      ensures View() == BeginAll(old(View())) && base.inWriteCallback == old(base.inWriteCallback)
    {
      if ranges == [] {
        ending := Some(Completed(true));
        return;
      }
      currentIndex := 0;
      bytesReceivedThisRange := 0;
      StartTransfer();
    }

    method StartTransfer()
      requires !base.link.inProgress
      modifies `bytesReceivedThisRange, `baseFetcherActive, `before, `given, base
      ensures View() == StartRange(old(View())) && base.inWriteCallback == old(base.inWriteCallback)
    {
      if currentIndex >= |ranges| {
        return;
      }
      var range := ranges[currentIndex];
      bytesReceivedThisRange := 0;
      before, given := before + given, [];
      AimBase(range);
      baseFetcherActive := true;
      base.BeginTransfer();
    }

    method AimBase(range: ByteRange)
      modifies base`data
      ensures base.View() == Aimed(old(base.View()), range)
    {
      base.SetOffset(range.offset);
      if range.length.Some? {
        base.SetLength(range.length.value);
      } else {
        base.UnsetLength();
      }
    }

    method ReceivedBytes(chunk: seq<Byte>, answer: Answer) returns (reaction: Reaction)
      requires currentIndex < |ranges| && baseFetcherActive && !pendingTransferEnded
      modifies this
      ensures (Own(), reaction) == Receive(old(Own()), chunk, answer)
    {
      var range, nextSize := ranges[currentIndex], |chunk|;
      var hasLength := range.length.Some? && range.length.value > 0;
      if hasLength {
        var left := Unsigned(range.length.value - bytesReceivedThisRange);
        if left < nextSize {
          nextSize := left;
        }
      }
      bytesReceivedThisRange := bytesReceivedThisRange + |chunk|;
      given := given + chunk[..nextSize];
      if answer == Halts {
        terminating := true;
        pendingTransferEnded := true;
        return Reaction(true, false);
      }
      if answer == Declines {
        return Reaction(false, false);
      }
      if hasLength && bytesReceivedThisRange >= range.length.value {
        pendingTransferEnded := true;
        return Reaction(true, false);
      }
      return Reaction(false, true);
    }

    method TransferEnded(successful: bool)
      requires currentIndex < |ranges| && baseFetcherActive && !base.link.inProgress
      modifies this, base
      ensures View() == Ended(old(View()), successful) && base.inWriteCallback == old(base.inWriteCallback)
    {
      pendingTransferEnded := false;
      if terminating {
        ResetState();
        ending := Some(Halted);
        return;
      }
      var range, success := ranges[currentIndex], successful;
      if range.length.Some? && range.length.value > 0 {
        if bytesReceivedThisRange < range.length.value {
          ResetState();
          ending := Some(Completed(false));
          return;
        }
        success := true;
      }
      if currentIndex + 1 < |ranges| {
        currentIndex := currentIndex + 1;
        StartTransfer();
        return;
      }
      ResetState();
      ending := Some(Completed(success));
    }

    method ResetState()
      modifies `baseFetcherActive, `pendingTransferEnded, `terminating, `currentIndex, `bytesReceivedThisRange
      ensures Own() == Reset(old(Own()))
    {
      baseFetcherActive, pendingTransferEnded, terminating := false, false, false;
      currentIndex, bytesReceivedThisRange := 0, 0;
    }

    method TerminateTransfer()
      requires !base.inWriteCallback && (baseFetcherActive ==> currentIndex < |ranges|)
      modifies this, base
      ensures View() == Halt(old(View())) && !base.inWriteCallback
    {
      if !baseFetcherActive {
        ending := Some(Halted);
        return;
      }
      terminating := true;
      if !pendingTransferEnded {
        pendingTransferEnded := true;
        base.TerminateTransfer();
        TransferEnded(false);
      }
    }
  }
}
