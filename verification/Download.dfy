/**
 How the download action starts or resumes a download: which byte ranges it asks for, and what the
 payload performer gets to see of the payload.
 */
module Download {
  import opened Common
  import FileFetcherRuns

  /** A range to fetch; to the end of the resource when it has no length. */
  datatype ByteRange = ByteRange(offset: nat, length: Option<nat>)

  /** What an earlier attempt recorded, and what is cached of it. `parses` says whether the performer takes
      the cached bytes for a valid manifest. */
  datatype Record = Record(metadataSize: int, signatureSize: int, nextDataOffset: int,
                           cached: Option<seq<Byte>>, parses: bool)

  /** The payload lies at `baseOffset` of what is downloaded; a size of 0 is not known. */
  datatype Request = Request(baseOffset: nat, size: nat, resume: Option<Record>)

  function ManifestSize(r: Record): int {
    r.metadataSize + r.signatureSize
  }

  /** Sizes and offsets are recorded with a sign and used without. */
  function Unsigned(n: int): nat {
    n % WORD
  }

  /** The cached bytes are there, have the recorded size and are a valid manifest. */
  predicate CacheLoads(r: Record) {
    r.cached.Some? && r.cached.value != [] && |r.cached.value| == ManifestSize(r) && r.parses
  }

  function ResumeOffset(r: Record): nat {
    Unsigned(ManifestSize(r) + r.nextDataOffset)
  }

  function TailRanges(q: Request, from: nat): seq<ByteRange> {
    if q.size == 0 then [ByteRange(q.baseOffset + from, None)]
    else if from < q.size then [ByteRange(q.baseOffset + from, Some(q.size - from))]
    else []
  }

  /** The ranges that are asked for, in order. */
  function Ranges(q: Request): seq<ByteRange> {
    match q.resume
    case None => TailRanges(q, 0)
    case Some(r) =>
      (if CacheLoads(r) then [] else [ByteRange(q.baseOffset, Some(Unsigned(ManifestSize(r))))]) +
      TailRanges(q, ResumeOffset(r))
  }

  /** What the performer has been given before anything is fetched. */
  function FedFromCache(q: Request): seq<Byte> {
    if q.resume.Some? && CacheLoads(q.resume.value) then q.resume.value.cached.value else []
  }

  // ---------------------------------------------------------------------------
  // The action object

  class DownloadAction {
    var downloadActive: bool
    var ranges: seq<ByteRange>
    var performerInput: seq<Byte>  // the bytes written to the current performer

    constructor ()
      ensures ranges == [] && performerInput == [] && !downloadActive
    {
      downloadActive, ranges, performerInput := false, [], [];
    }

    method LoadCachedManifest(r: Record, manifestSize: int) returns (ok: bool)
      modifies `performerInput
      ensures ok <==> r.cached.Some? && r.cached.value != [] && |r.cached.value| == manifestSize && r.parses
      ensures ok ==> performerInput == old(performerInput) + r.cached.value
    {
      if r.cached.None? || r.cached.value == [] {
        return false;
      }
      if |r.cached.value| != manifestSize {
        return false;
      }
      performerInput := performerInput + r.cached.value;
      return r.parses;
    }

    /** The multi-range fetcher aborts on an empty range. */
    method AddRange(offset: nat, length: Option<nat>)
      requires length.Some? ==> length.value > 0
      modifies `ranges
      ensures ranges == old(ranges) + [ByteRange(offset, length)]
    {
      ranges := ranges + [ByteRange(offset, length)];
    }

    method AddTail(q: Request, from: nat)
      modifies `ranges
      ensures ranges == old(ranges) + TailRanges(q, from)
    {
      if q.size == 0 {
        AddRange(q.baseOffset + from, None);
      } else if from < q.size {
        AddRange(q.baseOffset + from, Some(q.size - from));
      }
    }

    method StartDownloading(q: Request)
      requires q.resume.Some? && !CacheLoads(q.resume.value) ==> Unsigned(ManifestSize(q.resume.value)) > 0
      modifies this
      ensures downloadActive && ranges == Ranges(q) && performerInput == FedFromCache(q)
    {
      downloadActive := true;
      ranges := [];
      performerInput := [];
      match q.resume
      case None =>
        AddTail(q, 0);
      case Some(r) =>
        var loaded := LoadCachedManifest(r, r.metadataSize + r.signatureSize);
        if !loaded {
          performerInput := [];
          AddRange(q.baseOffset, Some(Unsigned(r.metadataSize + r.signatureSize)));
        }
        AddTail(q, Unsigned(r.metadataSize + r.signatureSize + r.nextDataOffset));
    }
  }

  // ---------------------------------------------------------------------------
  // What is fetched: the performer gets the ranges as they come, after what the cache gave it

  /** The bytes of a range that the resource has. */
  function Slice(resource: seq<Byte>, r: ByteRange): seq<Byte> {
    var end :=
      if r.length.Some? && r.offset + r.length.value <= |resource| then r.offset + r.length.value else |resource|;
    if r.offset <= end then resource[r.offset..end] else []
  }

  function Fetched(resource: seq<Byte>, ranges: seq<ByteRange>): seq<Byte> {
    if ranges == [] then []
    else Fetched(resource, ranges[..|ranges| - 1]) + Slice(resource, ranges[|ranges| - 1])
  }

  /** The payload is the window of the resource that starts at the base offset. */
  predicate Window(resource: seq<Byte>, base: nat, payload: seq<Byte>) {
    base + |payload| <= |resource| && resource[base..base + |payload|] == payload
  }

  predicate InWindow(r: ByteRange, base: nat, size: nat) {
    base <= r.offset && r.length.Some? && r.offset + r.length.value <= base + size
  }

  lemma {:induction false} FetchedOne(resource: seq<Byte>, r: ByteRange)
    ensures Fetched(resource, [r]) == Slice(resource, r)
  {
    assert [r][..0] == [];
  }

  lemma SubSlice<T>(s: seq<T>, a: nat, b: nat, c: nat, d: nat)
    requires a <= b <= |s| && c <= d <= b - a
    ensures s[a..b][c..d] == s[a + c..a + d]
  {
    var x, y := s[a..b][c..d], s[a + c..a + d];
    assert |x| == |y| && forall i :: 0 <= i < |x| ==> x[i] == y[i];
  }

  lemma SliceOfWindow(resource: seq<Byte>, base: nat, payload: seq<Byte>, from: nat, to: nat)
    requires Window(resource, base, payload) && from <= to <= |payload|
    ensures Slice(resource, ByteRange(base + from, Some(to - from))) == payload[from..to]
  {
    SubSlice(resource, base, base + |payload|, from, to);
  }

  lemma OneTail(resource: seq<Byte>, q: Request, payload: seq<Byte>, from: nat)
    requires Window(resource, q.baseOffset, payload) && q.size == |payload| && from < q.size
    ensures Slice(resource, ByteRange(q.baseOffset + from, Some(q.size - from))) == payload[from..]
  {
    SliceOfWindow(resource, q.baseOffset, payload, from, q.size);
    assert payload[from..q.size] == payload[from..];
  }

  lemma TailFetched(resource: seq<Byte>, q: Request, payload: seq<Byte>, from: nat)
    requires Window(resource, q.baseOffset, payload) && q.size == |payload| > 0
    ensures Fetched(resource, TailRanges(q, from)) == if from < q.size then payload[from..] else []
  {
    if from < q.size {
      FetchedOne(resource, ByteRange(q.baseOffset + from, Some(q.size - from)));
      OneTail(resource, q, payload, from);
    }
  }

  /** A new download of known size hands over the payload, and nothing else is asked for. */
  lemma FreshDownload(resource: seq<Byte>, q: Request, payload: seq<Byte>)
    requires q.resume.None? && Window(resource, q.baseOffset, payload) && q.size == |payload| > 0
    ensures FedFromCache(q) + Fetched(resource, Ranges(q)) == payload
    ensures forall r <- Ranges(q) :: InWindow(r, q.baseOffset, q.size)
  {
    TailFetched(resource, q, payload, 0);
    assert [] + payload[0..] == payload;
  }

  /** The cache, when it loads, is the beginning of the payload it was saved from. */
  predicate FaithfulCache(r: Record, payload: seq<Byte>) {
    CacheLoads(r) && 0 <= ManifestSize(r) <= |payload| ==> r.cached.value == payload[..ManifestSize(r)]
  }

  /** The recorded sizes fit the payload, and the offsets a 64-bit word. */
  predicate FitRecord(r: Record, size: nat) {
    0 < ManifestSize(r) <= size && 0 <= r.nextDataOffset && ManifestSize(r) + r.nextDataOffset < WORD
  }

  /** The rest of the payload from the recorded offset on. */
  function Tail(r: Record, payload: seq<Byte>): seq<Byte>
    requires FitRecord(r, |payload|)
  {
    var from := ManifestSize(r) + r.nextDataOffset;
    if from < |payload| then payload[from..] else []
  }

  lemma RecordFits(r: Record, size: nat)
    requires FitRecord(r, size)
    ensures ResumeOffset(r) == ManifestSize(r) + r.nextDataOffset
    ensures Unsigned(ManifestSize(r)) == ManifestSize(r)
  {
  }

  lemma ResumedTail(resource: seq<Byte>, q: Request, payload: seq<Byte>)
    requires q.resume.Some? && Window(resource, q.baseOffset, payload) && q.size == |payload|
    requires FitRecord(q.resume.value, q.size)
    ensures Fetched(resource, TailRanges(q, ResumeOffset(q.resume.value))) == Tail(q.resume.value, payload)
  {
    RecordFits(q.resume.value, q.size);
    TailFetched(resource, q, payload, ResumeOffset(q.resume.value));
  }

  lemma {:induction false} FetchedHead(resource: seq<Byte>, r: ByteRange, rest: seq<ByteRange>)
    requires |rest| <= 1
    ensures Fetched(resource, [r] + rest) == Slice(resource, r) + Fetched(resource, rest)
  {
    FetchedOne(resource, r);
    if rest == [] {
      assert [r] + rest == [r];
    } else {
      assert ([r] + rest)[..1] == [r] && rest == [rest[0]];
      FetchedOne(resource, rest[0]);
    }
  }

  /** Metadata that is fetched again comes before the rest. */
  lemma MetadataFetched(resource: seq<Byte>, q: Request, payload: seq<Byte>, n: nat, rest: seq<ByteRange>)
    requires Window(resource, q.baseOffset, payload) && n <= |payload| && |rest| <= 1
    ensures Fetched(resource, [ByteRange(q.baseOffset, Some(n))] + rest) == payload[..n] + Fetched(resource, rest)
  {
    FetchedHead(resource, ByteRange(q.baseOffset, Some(n)), rest);
    SliceOfWindow(resource, q.baseOffset, payload, 0, n);
    assert payload[0..n] == payload[..n];
  }

  lemma NothingBefore<T>(s: seq<T>)
    ensures [] + s == s
  {
  }

  /** A resumed download of known size hands the performer exactly the metadata and then the payload from the
      recorded offset on, whether the metadata comes from the cache or is fetched again. */
  lemma ResumedDownload(resource: seq<Byte>, q: Request, payload: seq<Byte>)
    requires q.resume.Some? && Window(resource, q.baseOffset, payload) && q.size == |payload|
    requires FitRecord(q.resume.value, q.size) && FaithfulCache(q.resume.value, payload)
    ensures FedFromCache(q) + Fetched(resource, Ranges(q)) ==
            payload[..ManifestSize(q.resume.value)] + Tail(q.resume.value, payload)
  {
    var r := q.resume.value;
    var rest := TailRanges(q, ResumeOffset(r));
    RecordFits(r, q.size);
    ResumedTail(resource, q, payload);
    if CacheLoads(r) {
      NothingBefore(rest);
    } else {
      MetadataFetched(resource, q, payload, ManifestSize(r), rest);
      NothingBefore(Fetched(resource, Ranges(q)));
    }
  }

  /** A resumed download of known size asks only for bytes of the payload's window if and only if the metadata
      comes from the cache or its recorded size, taken without its sign, is within the payload. */
  lemma ResumeStaysInWindow(q: Request)
    requires q.resume.Some? && q.size > 0
    ensures (forall r <- Ranges(q) :: InWindow(r, q.baseOffset, q.size)) <==>
              CacheLoads(q.resume.value) || Unsigned(ManifestSize(q.resume.value)) <= q.size
  {
    var r := q.resume.value;
    var head := ByteRange(q.baseOffset, Some(Unsigned(ManifestSize(r))));
    if !CacheLoads(r) {
      assert Ranges(q)[0] == head && head in Ranges(q);
    }
  }

  // ---------------------------------------------------------------------------
  // Ranges of a file

  /** A range with a length, from a file: a transfer that succeeds hands over the range. */
  lemma RangeFromFile(file: seq<Byte>, r: ByteRange, events: seq<FileFetcherRuns.Event>)
    requires r.length.Some? && r.length.value < WORD
    requires FileFetcherRuns.Run(file, FileFetcherRuns.New(r.offset, r.length.value), events).Some?
    ensures var log := FileFetcherRuns.Run(file, FileFetcherRuns.New(r.offset, r.length.value), events).value.log;
            log != [] && log[|log| - 1].FileComplete? && log[|log| - 1].success ==>
              FileFetcherRuns.DeliveredIn(log) == Slice(file, r)
  {
    FileFetcherRuns.FileIsHandedOver(file, r.offset, r.length.value, events);
  }
}
