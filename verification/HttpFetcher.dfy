/**
 The libcurl fetcher's retry machine: attempts, retries by proxy, by interrupted transfer and by
 missing network, the unresolved-host machine, pausing, and the byte range each attempt asks for.
 What libcurl does appears as parameters: chunks that arrive and attempts that end.
 */
module HttpFetcher {
  import opened Common

  datatype HostState = Init | Retry | RetriedSuccess | NotRetry

  /** First and, if bounded, last byte asked for, both inclusive. */
  datatype Range = Range(first: nat, last: Option<nat>)

  /** What the delegate and the server get to see. */
  datatype Note =
    | Begun
    | Requested(range: Option<Range>)
    | Received(chunk: seq<Byte>)
    | Complete(success: bool)
    | Terminated

  /** What the delegate does about a chunk: it may ask to terminate, and accepts or refuses it. */
  datatype Reaction = Reaction(terminates: bool, accepts: bool)

  /** What the fetcher is waiting for. */
  datatype Link = Link(
    resolving: bool,                 // a proxy resolution is pending
    inProgress: bool,
    retryPending: bool,              // a retry task is posted
    restartOnUnpause: bool,
    paused: bool,
    ignoreFailure: bool,
    terminateRequested: bool)

  /** What is left to try. */
  datatype Budget = Budget(
    proxies: seq<string>,
    retryCount: nat,
    maxRetryCount: nat,
    noNetworkRetryCount: nat,
    noNetworkMaxRetries: nat,
    host: HostState)

  /** What was transferred. */
  datatype Data = Data(
    transferSize: int,               // -1 when not known
    bytesDownloaded: nat,
    downloadLength: nat,             // 0 when not set
    resumeOffset: nat,
    sentByte: bool,
    responseCode: nat)

  datatype Fetcher = Fetcher(link: Link, budget: Budget, data: Data, log: seq<Note>)

  predicate IsSuccess(code: nat) {
    200 <= code < 300
  }

  predicate IsError(code: nat) {
    400 <= code < 600
  }

  function NextHost(host: HostState, failedToResolve: bool): HostState {
    match host
    case Init => if failedToResolve then Retry else Init
    case Retry => if failedToResolve then NotRetry else RetriedSuccess
    case _ => host
  }

  function Say(s: Fetcher, note: Note): Fetcher {
    s.(log := s.log + [note])
  }

  function CleanUp(l: Link): Link {
    l.(retryPending := false, inProgress := false, paused := false, restartOnUnpause := false)
  }

  function Begin(s: Fetcher): Fetcher {
    Say(s, Begun).(link := s.link.(resolving := true))
  }

  /** The range an attempt asks for; an end offset of 0 is taken for none. */
  function RangeOf(bytes: nat, length: nat): Option<Range> {
    if bytes == 0 && length == 0 then None
    else
      var end := if length == 0 then 0 else bytes + length - 1;
      Some(Range(bytes, if end == 0 then None else Some(end)))
  }

  function StartAttempt(s: Fetcher): Fetcher {
    var range := RangeOf(s.data.bytesDownloaded, s.data.downloadLength);
    Fetcher(s.link.(ignoreFailure := false, inProgress := true),
            s.budget,
            if range.Some? then s.data.(resumeOffset := s.data.bytesDownloaded) else s.data,
            s.log + [Requested(range)])
  }

  function StartOrWait(s: Fetcher): Fetcher {
    if s.link.paused then s.(link := s.link.(restartOnUnpause := true)) else StartAttempt(s)
  }

  function Resolve(s: Fetcher, proxies: seq<string>): Fetcher {
    StartOrWait(Fetcher(
      s.link.(resolving := false, terminateRequested := false),
      s.budget.(proxies := proxies, retryCount := 0, noNetworkRetryCount := 0),
      s.data.(transferSize := -1, resumeOffset := 0, responseCode := 0, sentByte := false),
      s.log))
  }

  function RetryNow(s: Fetcher): Fetcher {
    StartOrWait(s.(link := s.link.(retryPending := false)))
  }

  function Taken(d: Data, code: nat, contentLength: int, n: nat): Data {
    d.(responseCode := code,
       sentByte := true,
       transferSize := if contentLength > 0 then d.resumeOffset + contentLength else d.transferSize,
       bytesDownloaded := d.bytesDownloaded + n)
  }

  function Write(s: Fetcher, chunk: seq<Byte>, code: nat, contentLength: int, reaction: Reaction): Fetcher {
    if chunk == [] || !IsSuccess(code) then s.(data := s.data.(responseCode := code))
    else
      Fetcher(if reaction.terminates then s.link.(terminateRequested := true) else s.link,
              s.budget,
              Taken(s.data, code, contentLength, |chunk|),
              s.log + [Received(chunk)])
  }

  function ForceTermination(s: Fetcher): Fetcher {
    Say(s, Terminated).(link := CleanUp(s.link).(resolving := false))
  }

  /** What the end of an attempt tells about the network; a host that is looked up again gets one more
      retry. */
  function Heard(b: Budget, code: nat, unresolved: bool): Budget {
    var host :=
      if code != 0 then NextHost(b.host, false) else if unresolved then NextHost(b.host, true) else b.host;
    b.(noNetworkRetryCount := if code != 0 then 0 else b.noNetworkRetryCount,
       noNetworkMaxRetries := if host == Retry then b.noNetworkMaxRetries + 1 else b.noNetworkMaxRetries,
       host := host)
  }

  datatype Verdict = TryAgain | Over(success: bool)

  /** What follows an attempt that is over. */
  function Judge(b: Budget, d: Data, ignoreFailure: bool): (Budget, Verdict) {
    if !d.sentByte && d.responseCode == 0 && b.noNetworkRetryCount < b.noNetworkMaxRetries then
      (b.(noNetworkRetryCount := b.noNetworkRetryCount + 1), TryAgain)
    else if (!d.sentByte && !IsSuccess(d.responseCode)) || IsError(d.responseCode) then
      var left := if b.proxies == [] then [] else b.proxies[1..];
      (b.(proxies := left), if left != [] then TryAgain else Over(false))
    else if d.transferSize >= 0 && d.bytesDownloaded < d.transferSize then
      var count := if ignoreFailure then b.retryCount else b.retryCount + 1;
      (b.(retryCount := count), if count > b.maxRetryCount then Over(false) else TryAgain)
    else
      (b, Over(IsSuccess(d.responseCode)))
  }

  function AfterAttempt(s: Fetcher): Fetcher {
    var (budget, verdict) := Judge(s.budget, s.data, s.link.ignoreFailure);
    match verdict
    case TryAgain => s.(budget := budget, link := s.link.(retryPending := true, ignoreFailure := false))
    case Over(success) => Say(s, Complete(success)).(budget := budget)
  }

  function Closed(s: Fetcher, code: nat, unresolved: bool): Fetcher {
    Fetcher(CleanUp(s.link), Heard(s.budget, code, unresolved), s.data.(responseCode := code), s.log)
  }

  function EndAttempt(s: Fetcher, code: nat, unresolved: bool): Fetcher {
    AfterAttempt(Closed(s, code, unresolved))
  }

  /** `running` says whether libcurl has more to do; otherwise the attempt ended with the given response
      code, 0 for none, and perhaps because the host could not be resolved. */
  function Perform(s: Fetcher, running: bool, code: nat, unresolved: bool): Fetcher {
    if s.link.terminateRequested then ForceTermination(s)
    else if s.link.paused then
      if running then s else s.(link := s.link.(ignoreFailure := true))
    else if running then s
    else EndAttempt(s, code, unresolved)
  }

  function Pause(s: Fetcher): Fetcher {
    s.(link := s.link.(paused := true))
  }

  function Unpause(s: Fetcher): Fetcher {
    if !s.link.paused then s
    else if s.link.restartOnUnpause then StartAttempt(s.(link := s.link.(paused := false, restartOnUnpause := false)))
    else s.(link := s.link.(paused := false))
  }

  // ---------------------------------------------------------------------------
  // The fetcher object

  class LibcurlHttpFetcher {
    var link: Link
    var budget: Budget
    var data: Data
    var inWriteCallback: bool
    ghost var log: seq<Note>

    ghost function View(): Fetcher
      reads this
    {
      Fetcher(link, budget, data, log)
    }

    constructor (offset: nat, length: nat, maxRetries: nat, noNetworkRetries: nat)
      ensures !inWriteCallback
      ensures View() == Fetcher(Link(false, false, false, false, false, false, false),
                                Budget([], 0, maxRetries, 0, noNetworkRetries, Init),
                                Data(0, offset, length, 0, false, 0),
                                [])
    {
      link := Link(false, false, false, false, false, false, false);
      budget := Budget([], 0, maxRetries, 0, noNetworkRetries, Init);
      data := Data(0, offset, length, 0, false, 0);
      inWriteCallback := false;
      log := [];
    }

    method SetOffset(offset: nat)
      modifies `data
      ensures data == old(data).(bytesDownloaded := offset)
    {
      data := data.(bytesDownloaded := offset);
    }

    method SetLength(length: nat)
      modifies `data
      ensures data == old(data).(downloadLength := length)
    {
      data := data.(downloadLength := length);
    }

    method UnsetLength()
      modifies `data
      ensures data == old(data).(downloadLength := 0)
    {
      SetLength(0);
    }

    method BeginTransfer()
      requires !link.inProgress
      modifies `link, `log
      ensures View() == Begin(old(View()))
    {
      link := link.(resolving := true);
      log := log + [Begun];
    }

    method ProxiesResolved(proxies: seq<string>)
      requires link.resolving && !link.inProgress && proxies != []
      modifies `link, `budget, `data, `log
      ensures View() == Resolve(old(View()), proxies)
    {
      link := link.(resolving := false, terminateRequested := false);
      budget := budget.(proxies := proxies, retryCount := 0, noNetworkRetryCount := 0);
      data := data.(transferSize := -1, resumeOffset := 0, responseCode := 0, sentByte := false);
      if link.paused {
        link := link.(restartOnUnpause := true);
        return;
      }
      ResumeTransfer();
    }

    method ResumeTransfer()
      requires !link.inProgress && budget.proxies != []
      modifies `link, `data, `log
      ensures View() == StartAttempt(old(View()))
    {
      link := link.(ignoreFailure := false);
      var range := ChooseRange();
      log := log + [Requested(range)];
      link := link.(inProgress := true);
    }

    /** Resumes from where the transfer stands; the end offset is inclusive. */
    method ChooseRange() returns (range: Option<Range>)
      modifies `data
      ensures range == RangeOf(old(data.bytesDownloaded), old(data.downloadLength))
      ensures data == if range.Some? then old(data).(resumeOffset := old(data.bytesDownloaded)) else old(data)
    {
      if data.bytesDownloaded == 0 && data.downloadLength == 0 {
        return None;
      }
      data := data.(resumeOffset := data.bytesDownloaded);
      var endOffset := 0;
      if data.downloadLength > 0 {
        endOffset := data.resumeOffset + data.downloadLength - 1;
      }
      return Some(Range(data.resumeOffset, if endOffset != 0 then Some(endOffset) else None));
    }

    /** Returns how many bytes of the chunk were taken; fewer than arrived make libcurl abort. */
    method LibcurlWrite(chunk: seq<Byte>, code: nat, contentLength: int, reaction: Reaction) returns (taken: nat)
      requires link.inProgress && !inWriteCallback
      modifies this
      ensures View() == Write(old(View()), chunk, code, contentLength, reaction) && !inWriteCallback
      ensures taken == if IsSuccess(code) && reaction.accepts then |chunk| else 0
    {
      data := data.(responseCode := code);
      if chunk == [] || !IsSuccess(data.responseCode) {
        return 0;
      }
      data := data.(sentByte := true);
      if contentLength > 0 {
        data := data.(transferSize := data.resumeOffset + contentLength);
      }
      data := data.(bytesDownloaded := data.bytesDownloaded + |chunk|);
      log := log + [Received(chunk)];
      inWriteCallback := true;
      if reaction.terminates {
        TerminateTransfer();
      }
      inWriteCallback := false;
      return if reaction.accepts then |chunk| else 0;
    }

    method TerminateTransfer()
      modifies `link, `log
      ensures View() == if inWriteCallback then old(View()).(link := old(link).(terminateRequested := true))
                        else ForceTermination(old(View()))
    {
      if inWriteCallback {
        link := link.(terminateRequested := true);
      } else {
        ForceTransferTermination();
      }
    }

    method ForceTransferTermination()
      modifies `link, `log
      ensures View() == ForceTermination(old(View()))
    {
      link := link.(resolving := false);
      CleanUpTransfer();
      log := log + [Terminated];
    }

    method CleanUpTransfer()
      modifies `link
      ensures link == CleanUp(old(link))
    {
      link := link.(retryPending := false);
      link := link.(inProgress := false, paused := false, restartOnUnpause := false);
    }

    method CurlPerformOnce(running: bool, code: nat, unresolved: bool)
      requires link.inProgress
      modifies `link, `budget, `data, `log
      ensures View() == Perform(old(View()), running, code, unresolved)
    {
      if link.terminateRequested {
        ForceTransferTermination();
        return;
      }
      if !running && link.paused && !link.ignoreFailure {
        link := link.(ignoreFailure := true);
      }
      if running || link.paused {
        return;
      }
      data := data.(responseCode := code);
      HearNetwork(unresolved);
      CleanUpTransfer();
      RetryOrComplete();
    }

    method HearNetwork(unresolved: bool)
      modifies `budget
      ensures budget == Heard(old(budget), data.responseCode, unresolved)
    {
      if data.responseCode != 0 {
        budget := budget.(noNetworkRetryCount := 0);
        UpdateHostState(false);
      } else if unresolved {
        UpdateHostState(true);
      }
      if budget.host == Retry {
        budget := budget.(noNetworkMaxRetries := budget.noNetworkMaxRetries + 1);
      }
    }

    method UpdateHostState(failedToResolve: bool)
      modifies `budget
      ensures budget == old(budget).(host := NextHost(old(budget.host), failedToResolve))
    {
      match budget.host
      case Init =>
        if failedToResolve {
          budget := budget.(host := Retry);
        }
      case Retry =>
        if failedToResolve {
          budget := budget.(host := NotRetry);
        } else {
          budget := budget.(host := RetriedSuccess);
        }
      case NotRetry =>
      case RetriedSuccess =>
    }

    method RetryOrComplete()
      modifies `link, `budget, `log
      ensures View() == AfterAttempt(old(View()))
    {
      var verdict := ChargeBudget();
      match verdict
      case TryAgain =>
        link := link.(retryPending := true, ignoreFailure := false);
      case Over(success) =>
        log := log + [Complete(success)];
    }

    /** Chooses between a retry and the end, and charges a retry to what it uses up. */
    method ChargeBudget() returns (verdict: Verdict)
      modifies `budget
      ensures (budget, verdict) == Judge(old(budget), data, link.ignoreFailure)
    {
      if !data.sentByte && data.responseCode == 0 && budget.noNetworkRetryCount < budget.noNetworkMaxRetries {
        budget := budget.(noNetworkRetryCount := budget.noNetworkRetryCount + 1);
        return TryAgain;
      }
      if (!data.sentByte && !IsSuccess(data.responseCode)) || IsError(data.responseCode) {
        if budget.proxies != [] {
          budget := budget.(proxies := budget.proxies[1..]);
        }
        return if budget.proxies != [] then TryAgain else Over(false);
      }
      if data.transferSize >= 0 && data.bytesDownloaded < data.transferSize {
        if !link.ignoreFailure {
          budget := budget.(retryCount := budget.retryCount + 1);
        }
        return if budget.retryCount > budget.maxRetryCount then Over(false) else TryAgain;
      }
      return Over(IsSuccess(data.responseCode));
    }

    method RetryTimeoutCallback()
      requires link.retryPending && !link.inProgress && budget.proxies != []
      modifies `link, `data, `log
      ensures View() == RetryNow(old(View()))
    {
      link := link.(retryPending := false);
      if link.paused {
        link := link.(restartOnUnpause := true);
        return;
      }
      ResumeTransfer();
    }

    method PauseTransfer()
      modifies `link
      ensures View() == Pause(old(View()))
    {
      link := link.(paused := true);
    }

    /** When a connection is in progress, another call of CurlPerformOnce follows. */
    method UnpauseTransfer()
      requires link.restartOnUnpause ==> !link.inProgress && budget.proxies != []
      modifies `link, `data, `log
      ensures View() == Unpause(old(View()))
    {
      if !link.paused {
        return;
      }
      link := link.(paused := false);
      if link.restartOnUnpause {
        link := link.(restartOnUnpause := false);
        ResumeTransfer();
      }
    }
  }
}
