/**
 Every run of the multi-range fetcher over the network fetcher: a success hands over exactly the ranges, one
 after the other, whatever was dropped, retried or overrun in between.
 */
module MultiRangeRuns {
  import opened Common
  import opened HttpFetcher
  import opened Download
  import opened MultiRange
  import H = HttpFetcherRuns

  // ---------------------------------------------------------------------------
  // Events

  /** Something happens to the base fetcher, with what the delegate answers if a chunk is handed over; or the
      whole transfer is terminated from outside. */
  datatype Event = Base(e: H.Event, answer: Answer) | HaltsNow

  /** A chunk that reaches the delegate. */
  predicate HandsOver(e: H.Event) {
    e.Writes? && IsSuccess(e.code) && e.chunk != []
  }

  predicate Enabled(w: Pair, ev: Event) {
    && (w.m.active ==> w.m.index < |w.m.ranges|)
    && match ev
       case HaltsNow => true
       case Base(e, _) =>
         w.m.active && H.Enabled(w.base, e) && !e.Begins? && !e.Terminates? && (HandsOver(e) ==> !w.m.pending)
  }

  function Written(base: Fetcher, e: H.Event, reaction: Reaction): Fetcher
    requires e.Writes?
  {
    Write(base, e.chunk, e.code, e.contentLength, reaction)
  }

  /** The base fetcher told its delegate that the transfer is complete, with success. */
  predicate SaysSuccess(base: Fetcher) {
    base.log != [] && base.log[|base.log| - 1] == Complete(true)
  }

  function BaseMoves(w: Pair, e: H.Event, answer: Answer): Pair
    requires Enabled(w, Base(e, answer))
  {
    if HandsOver(e) then
      var (m, reaction) := Receive(w.m, e.chunk, answer);
      Pair(m, Written(w.base, e, reaction))
    else
      var base := H.Step(w.base, e);
      if H.Live(base.link) then Pair(w.m, base) else Ended(Pair(w.m, base), SaysSuccess(base))
  }

  function Step(w: Pair, ev: Event): Pair
    requires Enabled(w, ev)
  {
    match ev
    case HaltsNow => Halt(w)
    case Base(e, answer) => BaseMoves(w, e, answer)
  }

  function Run(w: Pair, events: seq<Event>): Option<Pair> {
    if events == [] then Some(w)
    else
      var before, ev := Run(w, events[..|events| - 1]), events[|events| - 1];
      if before.Some? && Enabled(before.value, ev) then Some(Step(before.value, ev)) else None
  }

  /** The server honours byte ranges, and a delegate that does not take a chunk terminates. */
  predicate Honest(resource: seq<Byte>, w: Pair, ev: Event) {
    ev.Base? ==> H.Honest(resource, w.base, ev.e) && ev.answer != Declines
  }

  ghost predicate HonestRun(resource: seq<Byte>, w: Pair, events: seq<Event>) {
    events != [] ==>
      && var init := events[..|events| - 1];
      && HonestRun(resource, w, init)
      && Run(w, init).Some?
      && Honest(resource, Run(w, init).value, events[|events| - 1])
  }

  // ---------------------------------------------------------------------------
  // The invariant

  /** Lengths are positive words, and only the last range may go to the end. */
  predicate Proper(ranges: seq<ByteRange>) {
    && (forall r <- ranges :: r.length.Some? ==> 0 < r.length.value < WORD)
    && (forall i :: 0 <= i < |ranges| - 1 ==> ranges[i].length.Some?)
  }

  /** The part of what came that belongs to a range of the given length; all if it has none. */
  function Cut(s: seq<Byte>, length: nat): seq<Byte> {
    if length == 0 || |s| <= length then s else s[..length]
  }

  /** The base fetcher is in step with the server, at the current range. */
  ghost predicate AtRange(resource: seq<Byte>, r: ByteRange, base: Fetcher) {
    && H.Tidy(base)
    && H.InStep(resource, r.offset, base) && H.Succeeded(resource, r.offset, base)
    && base.data.downloadLength == Length(r)
  }

  /** What the base fetcher handed over is the resource from the start of the range on. */
  predicate Handed(resource: seq<Byte>, r: ByteRange, base: Fetcher) {
    && H.HandedOver(resource, r.offset, base.data.bytesDownloaded, base.log)
    && H.Succeeded(resource, r.offset, base)
    && base.data.downloadLength == Length(r)
  }

  lemma AtRangeIsHanded(resource: seq<Byte>, r: ByteRange, base: Fetcher)
    requires AtRange(resource, r, base)
    ensures Handed(resource, r, base)
  {
  }

  /** What was received of the range, and what was given of it. */
  ghost predicate Tallied(resource: seq<Byte>, m: Multi, base: Fetcher)
    requires m.index < |m.ranges|
  {
    var r := m.ranges[m.index];
    && r.offset + m.received == base.data.bytesDownloaded
    && m.before == Fetched(resource, m.ranges[..m.index])
    && m.given == Cut(H.DeliveredIn(base.log), Length(r))
    && (Length(r) > 0 && !m.pending ==> m.received < Length(r))
  }

  ghost predicate Working(resource: seq<Byte>, w: Pair) {
    && w.m.index < |w.m.ranges| && w.m.ending.None?
    && AtRange(resource, w.m.ranges[w.m.index], w.base) && H.Live(w.base.link)
    && Tallied(resource, w.m, w.base)
  }

  /** The last range has a length, or the server told the size. */
  predicate SizeKnown(ranges: seq<ByteRange>, base: Fetcher) {
    ranges == [] || ranges[|ranges| - 1].length.Some? || base.data.transferSize >= 0
  }

  ghost predicate Right(resource: seq<Byte>, w: Pair) {
    w.m.ending == Some(Completed(true)) && SizeKnown(w.m.ranges, w.base) ==>
      AllGiven(w.m) == Fetched(resource, w.m.ranges)
  }

  ghost predicate Inv(resource: seq<Byte>, w: Pair) {
    Proper(w.m.ranges) && if w.m.active then Working(resource, w) else Right(resource, w)
  }

  // ---------------------------------------------------------------------------
  // A chunk arrives

  lemma DeliveredLength(resource: seq<Byte>, r: ByteRange, base: Fetcher)
    requires Handed(resource, r, base)
    ensures r.offset <= base.data.bytesDownloaded
    ensures |H.DeliveredIn(base.log)| == base.data.bytesDownloaded - r.offset
  {
  }

  lemma CutMore(s: seq<Byte>, chunk: seq<Byte>, length: nat, n: nat)
    requires length > 0 ==> |s| < length
    requires n == if length == 0 || |s| + |chunk| <= length then |chunk| else length - |s|
    ensures Cut(s, length) + chunk[..n] == Cut(s + chunk, length)
  {
  }

  lemma NextSizeFits(m: Multi, n: nat)
    requires m.index < |m.ranges| && Length(m.ranges[m.index]) < WORD
    requires Length(m.ranges[m.index]) > 0 ==> m.received < Length(m.ranges[m.index])
    ensures var length := Length(m.ranges[m.index]);
            NextSize(m, n) == if length == 0 || m.received + n <= length then n else length - m.received
  {
  }

  lemma WriteAtRange(resource: seq<Byte>, r: ByteRange, base: Fetcher, e: H.Event, reaction: Reaction)
    requires AtRange(resource, r, base) && H.Live(base.link)
    requires HandsOver(e) && H.Enabled(base, e) && H.Honest(resource, base, e)
    ensures var t := Written(base, e, reaction);
            && AtRange(resource, r, t) && H.Live(t.link)
            && t.data.bytesDownloaded == base.data.bytesDownloaded + |e.chunk|
            && H.DeliveredIn(t.log) == H.DeliveredIn(base.log) + e.chunk
  {
    var f := H.Event.Writes(e.chunk, e.code, e.contentLength, reaction);
    H.StepIsTidy(base, f);
    H.StepInStep(resource, r.offset, base, f);
    H.SeeMore(base.log, Received(e.chunk));
  }

  lemma {:induction false} CountedTallies(resource: seq<Byte>, m: Multi, base: Fetcher, t: Fetcher, chunk: seq<Byte>)
    requires m.index < |m.ranges| && Proper(m.ranges) && Tallied(resource, m, base) && !m.pending
    requires AtRange(resource, m.ranges[m.index], base)
    requires t.data.bytesDownloaded == base.data.bytesDownloaded + |chunk|
    requires H.DeliveredIn(t.log) == H.DeliveredIn(base.log) + chunk
    ensures var r, c := m.ranges[m.index], Counted(m, chunk);
            && r.offset + c.received == t.data.bytesDownloaded
            && c.given == Cut(H.DeliveredIn(t.log), Length(r))
  {
    var r, s := m.ranges[m.index], H.DeliveredIn(base.log);
    assert r in m.ranges;
    AtRangeIsHanded(resource, r, base);
    DeliveredLength(resource, r, base);
    NextSizeFits(m, |chunk|);
    CutMore(s, chunk, Length(r), NextSize(m, |chunk|));
  }

  /** What receiving a chunk does besides counting it. */
  lemma ReceiveShape(m: Multi, chunk: seq<Byte>, answer: Answer)
    requires m.index < |m.ranges| && answer != Declines && !m.pending
    ensures var t, c := Receive(m, chunk, answer).0, Counted(m, chunk);
            && t == c.(pending := t.pending, terminating := t.terminating)
            && (Length(m.ranges[m.index]) > 0 && !t.pending ==> c.received < Length(m.ranges[m.index]))
  {
  }

  lemma {:induction false} TalliedAfter(resource: seq<Byte>, m: Multi, t: Multi, base: Fetcher, after: Fetcher,
                                        chunk: seq<Byte>)
    requires m.index < |m.ranges| && Proper(m.ranges) && Tallied(resource, m, base) && !m.pending
    requires AtRange(resource, m.ranges[m.index], base)
    requires after.data.bytesDownloaded == base.data.bytesDownloaded + |chunk|
    requires H.DeliveredIn(after.log) == H.DeliveredIn(base.log) + chunk
    requires t == Counted(m, chunk).(pending := t.pending, terminating := t.terminating)
    requires Length(m.ranges[m.index]) > 0 && !t.pending ==> t.received < Length(m.ranges[m.index])
    ensures Tallied(resource, t, after)
  {
    CountedTallies(resource, m, base, after, chunk);
  }

  lemma ReceiveKeeps(resource: seq<Byte>, w: Pair, e: H.Event, answer: Answer)
    requires Inv(resource, w) && Enabled(w, Base(e, answer)) && HandsOver(e)
    requires H.Honest(resource, w.base, e) && answer != Declines
    ensures Inv(resource, BaseMoves(w, e, answer))
  {
    var (m, reaction) := Receive(w.m, e.chunk, answer);
    ReceiveShape(w.m, e.chunk, answer);
    WriteAtRange(resource, w.m.ranges[w.m.index], w.base, e, reaction);
    TalliedAfter(resource, w.m, m, w.base, Written(w.base, e, reaction), e.chunk);
  }

  // ---------------------------------------------------------------------------
  // A range ends

  lemma {:induction false} FetchedMore(resource: seq<Byte>, ranges: seq<ByteRange>, i: nat)
    requires i < |ranges|
    ensures Fetched(resource, ranges[..i + 1]) == Fetched(resource, ranges[..i]) + Slice(resource, ranges[i])
  {
    assert ranges[..i + 1][..i] == ranges[..i];
  }

  lemma CutIsSlice(resource: seq<Byte>, r: ByteRange, base: Fetcher)
    requires Handed(resource, r, base) && r.length.Some? && r.length.value > 0
    requires base.data.bytesDownloaded >= r.offset + r.length.value
    ensures Cut(H.DeliveredIn(base.log), Length(r)) == Slice(resource, r)
  {
    DeliveredLength(resource, r, base);
    SubSlice(resource, r.offset, base.data.bytesDownloaded, 0, r.length.value);
  }

  lemma RestIsSlice(resource: seq<Byte>, r: ByteRange, base: Fetcher)
    requires Handed(resource, r, base) && r.length.None? && SaysSuccess(base) && base.data.transferSize >= 0
    ensures H.DeliveredIn(base.log) == Slice(resource, r)
  {
  }

  /** A range counts as received: enough came, or all of it by the word of the base fetcher. */
  predicate CountsAsReceived(r: ByteRange, base: Fetcher, received: nat) {
    if r.length.Some? then 0 < r.length.value <= received
    else SaysSuccess(base) && base.data.transferSize >= 0
  }

  /** What came of a range that counts as received is the range. */
  lemma {:induction false} RangeIsWhole(resource: seq<Byte>, r: ByteRange, base: Fetcher, received: nat)
    requires Handed(resource, r, base) && r.offset + received == base.data.bytesDownloaded
    requires CountsAsReceived(r, base, received)
    ensures Cut(H.DeliveredIn(base.log), Length(r)) == Slice(resource, r)
  {
    if r.length.Some? {
      CutIsSlice(resource, r, base);
    } else {
      RestIsSlice(resource, r, base);
    }
  }

  lemma {:induction false} StartKeeps(resource: seq<Byte>, w: Pair)
    requires Proper(w.m.ranges) && w.m.index < |w.m.ranges| && H.AtRest(w.base) && !w.m.pending && w.m.ending.None?
    requires AllGiven(w.m) == Fetched(resource, w.m.ranges[..w.m.index])
    ensures Inv(resource, StartRange(w))
  {
    var r := w.m.ranges[w.m.index];
    H.BeginInStep(resource, Aimed(w.base, r));
    H.SeeMore(w.base.log, Begun);
  }

  /** The current range was given in full, and all before it. */
  ghost predicate InFull(resource: seq<Byte>, m: Multi)
    requires m.index < |m.ranges|
  {
    m.before == Fetched(resource, m.ranges[..m.index]) && m.given == Slice(resource, m.ranges[m.index])
  }

  lemma {:induction false} OneMoreInFull(resource: seq<Byte>, m: Multi)
    requires m.index < |m.ranges| && InFull(resource, m)
    ensures AllGiven(m) == Fetched(resource, m.ranges[..m.index + 1])
  {
    FetchedMore(resource, m.ranges, m.index);
  }

  lemma {:induction false} NextStarts(resource: seq<Byte>, w: Pair, successful: bool)
    requires Proper(w.m.ranges) && w.m.index + 1 < |w.m.ranges| && H.AtRest(w.base) && w.m.ending.None?
    requires InFull(resource, w.m) && !w.m.terminating && w.m.received >= Length(w.m.ranges[w.m.index])
    ensures Inv(resource, Ended(w, successful))
  {
    OneMoreInFull(resource, w.m);
    StartKeeps(resource, w.(m := w.m.(pending := false, index := w.m.index + 1)));
  }

  lemma {:induction false} LastEnds(resource: seq<Byte>, w: Pair, successful: bool)
    requires Proper(w.m.ranges) && w.m.index + 1 == |w.m.ranges| && !w.m.terminating
    requires w.m.received >= Length(w.m.ranges[w.m.index])
    requires w.m.ranges[w.m.index].length.Some? || (successful && w.base.data.transferSize >= 0) ==>
               InFull(resource, w.m)
    ensures Inv(resource, Ended(w, successful))
  {
    assert w.m.ranges[w.m.index] in w.m.ranges && w.m.ranges[..w.m.index + 1] == w.m.ranges;
    if InFull(resource, w.m) {
      OneMoreInFull(resource, w.m);
    }
  }

  /** The base fetcher has stopped, and what it did is accounted for. */
  ghost predicate Stopped(resource: seq<Byte>, w: Pair) {
    && Proper(w.m.ranges) && w.m.index < |w.m.ranges| && w.m.ending.None?
    && AtRange(resource, w.m.ranges[w.m.index], w.base) && !H.Live(w.base.link)
    && Tallied(resource, w.m, w.base)
  }

  lemma {:induction false} TallyInFull(resource: seq<Byte>, m: Multi, base: Fetcher)
    requires m.index < |m.ranges| && Tallied(resource, m, base) && Handed(resource, m.ranges[m.index], base)
    requires CountsAsReceived(m.ranges[m.index], base, m.received)
    ensures InFull(resource, m)
  {
    RangeIsWhole(resource, m.ranges[m.index], base, m.received);
  }

  lemma {:induction false} EndedKeeps(resource: seq<Byte>, w: Pair, successful: bool)
    requires Stopped(resource, w) && (successful ==> SaysSuccess(w.base))
    ensures Inv(resource, Ended(w, successful))
  {
    var r := w.m.ranges[w.m.index];
    assert r in w.m.ranges;
    AtRangeIsHanded(resource, r, w.base);
    if !w.m.terminating && w.m.received >= Length(r) {
      if r.length.Some? || (successful && w.base.data.transferSize >= 0) {
        TallyInFull(resource, w.m, w.base);
      }
      if w.m.index + 1 < |w.m.ranges| {
        NextStarts(resource, w, successful);
      } else {
        LastEnds(resource, w, successful);
      }
    }
  }

  // ---------------------------------------------------------------------------
  // Any other step

  lemma QuietStep(base: Fetcher, e: H.Event)
    requires H.Enabled(base, e) && !HandsOver(e) && !e.Begins?
    ensures var t := H.Step(base, e);
            t.data.bytesDownloaded == base.data.bytesDownloaded && t.data.downloadLength == base.data.downloadLength
  {
  }

  lemma QuietAtRange(resource: seq<Byte>, r: ByteRange, base: Fetcher, e: H.Event)
    requires AtRange(resource, r, base) && H.Enabled(base, e) && !HandsOver(e) && !e.Begins?
    requires H.Honest(resource, base, e)
    ensures var t := H.Step(base, e);
            && AtRange(resource, r, t)
            && t.data.bytesDownloaded == base.data.bytesDownloaded
            && H.DeliveredIn(t.log) == H.DeliveredIn(base.log)
  {
    QuietStep(base, e);
    H.StepIsTidy(base, e);
    H.StepInStep(resource, r.offset, base, e);
  }

  lemma QuietKeeps(resource: seq<Byte>, w: Pair, e: H.Event, answer: Answer)
    requires Inv(resource, w) && Enabled(w, Base(e, answer)) && !HandsOver(e) && H.Honest(resource, w.base, e)
    ensures Inv(resource, BaseMoves(w, e, answer))
  {
    QuietAtRange(resource, w.m.ranges[w.m.index], w.base, e);
    var t := H.Step(w.base, e);
    if !H.Live(t.link) {
      EndedKeeps(resource, Pair(w.m, t), SaysSuccess(t));
    }
  }

  lemma HaltKeeps(resource: seq<Byte>, w: Pair)
    requires Inv(resource, w)
    ensures Inv(resource, Halt(w))
  {
    if w.m.active && !w.m.pending {
      QuietAtRange(resource, w.m.ranges[w.m.index], w.base, H.Event.Terminates);
      EndedKeeps(resource, Pair(w.m.(terminating := true, pending := true), ForceTermination(w.base)), false);
    }
  }

  lemma {:induction false} EveryRunKeeps(resource: seq<Byte>, w: Pair, events: seq<Event>)
    requires Inv(resource, w) && Run(w, events).Some? && HonestRun(resource, w, events)
    ensures Inv(resource, Run(w, events).value)
  {
    if events != [] {
      var init, ev := events[..|events| - 1], events[|events| - 1];
      EveryRunKeeps(resource, w, init);
      StepKeeps(resource, Run(w, init).value, ev);
    }
  }

  lemma StepKeeps(resource: seq<Byte>, w: Pair, ev: Event)
    requires Inv(resource, w) && Enabled(w, ev) && Honest(resource, w, ev)
    ensures Inv(resource, Step(w, ev))
  {
    match ev
    case HaltsNow => HaltKeeps(resource, w);
    case Base(e, answer) =>
      if HandsOver(e) {
        ReceiveKeeps(resource, w, e, answer);
      } else {
        QuietKeeps(resource, w, e, answer);
      }
  }

  // ---------------------------------------------------------------------------
  // What it means

  /** A fetcher of these ranges that has not begun. */
  function Fresh(ranges: seq<ByteRange>, base: Fetcher): Pair {
    Pair(Multi(ranges, false, false, false, 0, 0, [], [], None), base)
  }

  lemma BeginKeeps(resource: seq<Byte>, ranges: seq<ByteRange>, base: Fetcher)
    requires Proper(ranges) && H.AtRest(base)
    ensures Inv(resource, BeginAll(Fresh(ranges, base)))
  {
    if ranges != [] {
      assert ranges[..0] == [];
      StartKeeps(resource, Fresh(ranges, base));
    }
  }

  lemma {:induction false} RunKeepsRanges(w: Pair, events: seq<Event>)
    requires Run(w, events).Some?
    ensures Run(w, events).value.m.ranges == w.m.ranges
  {
    if events != [] {
      RunKeepsRanges(w, events[..|events| - 1]);
    }
  }

  lemma InvMeansRight(resource: seq<Byte>, w: Pair)
    requires Inv(resource, w)
    ensures Right(resource, w)
  {
  }

  /** However often connections drop and are resumed, and although resumed requests reach past the end of their
      range, a success has handed over exactly the ranges, one after the other. The size of a last range
      without a length has to have been told. */
  lemma {:induction false} SuccessHandsOverRanges(resource: seq<Byte>, ranges: seq<ByteRange>, base: Fetcher,
                                                  events: seq<Event>)
    requires Proper(ranges) && H.AtRest(base)
    requires var w := BeginAll(Fresh(ranges, base)); Run(w, events).Some? && HonestRun(resource, w, events)
    ensures var w := Run(BeginAll(Fresh(ranges, base)), events).value;
            w.m.ending == Some(Completed(true)) && SizeKnown(ranges, w.base) ==>
              AllGiven(w.m) == Fetched(resource, ranges)
  {
    var w := BeginAll(Fresh(ranges, base));
    BeginKeeps(resource, ranges, base);
    EveryRunKeeps(resource, w, events);
    RunKeepsRanges(w, events);
    InvMeansRight(resource, Run(w, events).value);
  }

  // ---------------------------------------------------------------------------
  // A range to the end has to come last

  lemma RunMore(w: Pair, events: seq<Event>, ev: Event)
    requires Run(w, events).Some? && Enabled(Run(w, events).value, ev)
    ensures Run(w, events + [ev]) == Some(Step(Run(w, events).value, ev))
  {
    Extend(events, ev);
  }

  lemma HonestMore(resource: seq<Byte>, w: Pair, events: seq<Event>, ev: Event)
    requires Run(w, events).Some? && HonestRun(resource, w, events) && Honest(resource, Run(w, events).value, ev)
    ensures HonestRun(resource, w, events + [ev])
  {
    Extend(events, ev);
  }

  /** One event further in an honest run. */
  lemma Onward(resource: seq<Byte>, w: Pair, events: seq<Event>, ev: Event)
    requires Run(w, events).Some? && HonestRun(resource, w, events)
    requires Enabled(Run(w, events).value, ev) && Honest(resource, Run(w, events).value, ev)
    ensures Run(w, events + [ev]) == Some(Step(Run(w, events).value, ev)) && HonestRun(resource, w, events + [ev])
  {
    RunMore(w, events, ev);
    HonestMore(resource, w, events, ev);
  }

  /** An honest run that has come to a state. */
  ghost predicate Reaches(resource: seq<Byte>, w: Pair, events: seq<Event>) {
    Run(w, events).Some? && HonestRun(resource, w, events)
  }

  const RESOLVES := Base(H.Event.ResolvesProxies([""]), Takes)
  const NOT_FOUND := Base(H.Event.Performs(false, 404, false), Takes)
  const GOES_ON := Base(H.Event.Performs(true, 0, false), Takes)
  const ENDS_WELL := Base(H.Event.Performs(false, 200, false), Takes)

  function Brings(chunk: seq<Byte>): Event {
    Base(H.Event.Writes(chunk, 200, |chunk|, Reaction(false, true)), Takes)
  }

  /** Ranges that the resource has bytes for, all of them when there is a length. */
  predicate Servable(resource: seq<Byte>, ranges: seq<ByteRange>) {
    forall r <- ranges ::
      && r.offset < |resource|
      && (r.length.Some? ==> 0 < r.length.value < WORD && r.offset + r.length.value <= |resource|)
  }

  /** Working on a range, `total` bytes of earlier ranges given and none of this one. */
  predicate OnRange(m: Multi, ranges: seq<ByteRange>, i: nat, total: nat) {
    && m.ranges == ranges && m.active && !m.pending && !m.terminating
    && m.index == i && m.received == 0 && |m.before| == total && m.given == [] && m.ending.None?
  }

  predicate AimedAt(d: Data, r: ByteRange) {
    d.bytesDownloaded == r.offset && d.downloadLength == Length(r)
  }

  /** About to resolve proxies for a range. */
  predicate AtStart(w: Pair, ranges: seq<ByteRange>, i: nat, total: nat) {
    && i < |ranges| && OnRange(w.m, ranges, i, total) && AimedAt(w.base.data, ranges[i])
    && w.base.link == Link(true, false, false, false, false, w.base.link.ignoreFailure, w.base.link.terminateRequested)
  }

  /** The first attempt of a range is in progress. */
  predicate Under(w: Pair, ranges: seq<ByteRange>, i: nat, total: nat) {
    && i < |ranges| && OnRange(w.m, ranges, i, total) && AimedAt(w.base.data, ranges[i])
    && w.base.link == Link(false, true, false, false, false, false, false)
    && !w.base.data.sentByte && w.base.data.resumeOffset == ranges[i].offset
    && |w.base.budget.proxies| == 1
    && H.OffsetIn(w.base.log) == ranges[i].offset && H.ServedIn(w.base.log) == 0
  }

  lemma ResolvedIsUnder(w: Pair, ranges: seq<ByteRange>, i: nat, total: nat)
    requires AtStart(w, ranges, i, total)
    ensures Enabled(w, RESOLVES) && Under(Step(w, RESOLVES), ranges, i, total)
  {
    H.SeeMore(w.base.log, Requested(RangeOf(ranges[i].offset, Length(ranges[i]))));
  }

  lemma NotFoundIsSkipped(w: Pair, ranges: seq<ByteRange>, i: nat, total: nat)
    requires Under(w, ranges, i, total) && ranges[i].length.None? && i + 1 < |ranges|
    ensures Enabled(w, NOT_FOUND) && AtStart(Step(w, NOT_FOUND), ranges, i + 1, total)
  {
    assert w.base.budget.proxies[1..] == [];
  }

  /** All of a range with a length has come and its transfer is being terminated. */
  predicate Cutting(w: Pair, ranges: seq<ByteRange>, i: nat, total: nat) {
    && i < |ranges| && ranges[i].length.Some?
    && OnRange(w.m.(pending := false, received := 0, given := []), ranges, i, total)
    && w.m.pending && w.m.received == |w.m.given| == ranges[i].length.value > 0
    && w.base.link == Link(false, true, false, false, false, false, true)
  }

  lemma RangeBrought(w: Pair, ranges: seq<ByteRange>, i: nat, total: nat, chunk: seq<Byte>)
    requires Under(w, ranges, i, total) && ranges[i].length.Some? && |chunk| == ranges[i].length.value
    requires 0 < |chunk| < WORD
    ensures Enabled(w, Brings(chunk)) && Cutting(Step(w, Brings(chunk)), ranges, i, total)
  {
    assert NextSize(w.m, |chunk|) == |chunk| && [] + chunk == chunk;
  }

  lemma CutIsOver(w: Pair, ranges: seq<ByteRange>, i: nat, total: nat)
    requires Cutting(w, ranges, i, total)
    ensures Enabled(w, GOES_ON)
    ensures var t := Step(w, GOES_ON);
            if i + 1 < |ranges| then AtStart(t, ranges, i + 1, total + ranges[i].length.value)
            else t.m.ending == Some(Completed(true)) && |AllGiven(t.m)| == total + ranges[i].length.value
  {
  }

  lemma RestBrought(w: Pair, ranges: seq<ByteRange>, i: nat, total: nat, chunk: seq<Byte>)
    requires Under(w, ranges, i, total) && ranges[i].length.None? && i + 1 == |ranges| && chunk != []
    ensures Enabled(w, Brings(chunk))
    ensures var t := Step(w, Brings(chunk));
            && Enabled(t, ENDS_WELL) && Step(t, ENDS_WELL).m.ending == Some(Completed(true))
            && |AllGiven(Step(t, ENDS_WELL).m)| == total + |chunk| && Step(t, ENDS_WELL).base.data.transferSize >= 0
  {
    assert [] + chunk == chunk;
  }

  lemma HonestSlice(resource: seq<Byte>, w: Pair, ranges: seq<ByteRange>, i: nat, total: nat, chunk: seq<Byte>)
    requires Under(w, ranges, i, total) && Servable(resource, ranges) && chunk == Slice(resource, ranges[i])
    ensures Honest(resource, w, Brings(chunk)) && chunk != []
    ensures ranges[i].length.Some? ==> |chunk| == ranges[i].length.value
  {
    assert ranges[i] in ranges;
  }

  /** The bytes of the first ranges, those to the end passed over. */
  function PassedOver(ranges: seq<ByteRange>): nat {
    if ranges == [] then 0
    else
      var r := ranges[|ranges| - 1];
      PassedOver(ranges[..|ranges| - 1]) + if r.length.Some? then r.length.value else 0
  }

  lemma {:induction false} PassedOverIsLess(resource: seq<Byte>, ranges: seq<ByteRange>)
    requires Servable(resource, ranges)
    ensures PassedOver(ranges) <= |Fetched(resource, ranges)|
    ensures (exists r <- ranges :: r.length.None?) ==> PassedOver(ranges) < |Fetched(resource, ranges)|
    decreases |ranges|
  {
    if ranges != [] {
      var init, r := ranges[..|ranges| - 1], ranges[|ranges| - 1];
      assert r in ranges && forall x :: x in ranges <==> x in init || x == r;
      PassedOverIsLess(resource, init);
    }
  }

  /** From one range to the next, passing over one without a length. */
  lemma {:induction false} PassOne(resource: seq<Byte>, w: Pair, events: seq<Event>, ranges: seq<ByteRange>, i: nat,
                                   total: nat)
    returns (longer: seq<Event>)
    requires Reaches(resource, w, events) && Servable(resource, ranges) && i + 1 < |ranges|
    requires Under(Run(w, events).value, ranges, i, total)
    ensures Reaches(resource, w, longer)
    ensures AtStart(Run(w, longer).value, ranges, i + 1, total + Length(ranges[i]))
  {
    if ranges[i].length.None? {
      NotFoundIsSkipped(Run(w, events).value, ranges, i, total);
      Onward(resource, w, events, NOT_FOUND);
      longer := events + [NOT_FOUND];
    } else {
      longer := BringRange(resource, w, events, ranges, i, total);
      CutIsOver(Run(w, longer).value, ranges, i, total);
      Onward(resource, w, longer, GOES_ON);
      longer := longer + [GOES_ON];
    }
  }

  lemma {:induction false} BringRange(resource: seq<Byte>, w: Pair, events: seq<Event>, ranges: seq<ByteRange>, i: nat,
                                      total: nat)
    returns (longer: seq<Event>)
    requires Reaches(resource, w, events) && Servable(resource, ranges) && i < |ranges| && ranges[i].length.Some?
    requires Under(Run(w, events).value, ranges, i, total)
    ensures Reaches(resource, w, longer) && Cutting(Run(w, longer).value, ranges, i, total)
  {
    var chunk := Slice(resource, ranges[i]);
    assert ranges[i] in ranges;
    HonestSlice(resource, Run(w, events).value, ranges, i, total, chunk);
    RangeBrought(Run(w, events).value, ranges, i, total, chunk);
    Onward(resource, w, events, Brings(chunk));
    longer := events + [Brings(chunk)];
  }

  lemma {:induction false} RangeResolved(resource: seq<Byte>, w: Pair, events: seq<Event>, ranges: seq<ByteRange>,
                                         i: nat, total: nat)
    requires Reaches(resource, w, events) && AtStart(Run(w, events).value, ranges, i, total)
    ensures Reaches(resource, w, events + [RESOLVES]) && Under(Run(w, events + [RESOLVES]).value, ranges, i, total)
  {
    ResolvedIsUnder(Run(w, events).value, ranges, i, total);
    Onward(resource, w, events, RESOLVES);
  }

  lemma {:induction false} ReachRange(resource: seq<Byte>, ranges: seq<ByteRange>, base: Fetcher, i: nat)
    returns (events: seq<Event>)
    requires Servable(resource, ranges) && i < |ranges| && H.AtRest(base) && !base.link.paused
    ensures Reaches(resource, BeginAll(Fresh(ranges, base)), events)
    ensures Under(Run(BeginAll(Fresh(ranges, base)), events).value, ranges, i, PassedOver(ranges[..i]))
    decreases i
  {
    var w := BeginAll(Fresh(ranges, base));
    if i == 0 {
      events := [];
      assert ranges[..0] == [];
    } else {
      var k := i - 1;
      events := ReachRange(resource, ranges, base, k);
      events := PassOne(resource, w, events, ranges, k, PassedOver(ranges[..k]));
      assert ranges[..i][..k] == ranges[..k];
    }
    RangeResolved(resource, w, events, ranges, i, PassedOver(ranges[..i]));
    events := events + [RESOLVES];
  }

  lemma {:induction false} EndLast(resource: seq<Byte>, w: Pair, events: seq<Event>, ranges: seq<ByteRange>, i: nat,
                                   total: nat)
    returns (all: seq<Event>)
    requires Reaches(resource, w, events) && Servable(resource, ranges) && i + 1 == |ranges|
    requires Under(Run(w, events).value, ranges, i, total)
    ensures Reaches(resource, w, all) && Run(w, all).value.m.ending == Some(Completed(true))
    ensures SizeKnown(ranges, Run(w, all).value.base)
    ensures |AllGiven(Run(w, all).value.m)| == total + |Slice(resource, ranges[i])|
  {
    var chunk := Slice(resource, ranges[i]);
    HonestSlice(resource, Run(w, events).value, ranges, i, total, chunk);
    if ranges[i].length.Some? {
      all := BringRange(resource, w, events, ranges, i, total);
      CutIsOver(Run(w, all).value, ranges, i, total);
      Onward(resource, w, all, GOES_ON);
      all := all + [GOES_ON];
    } else {
      RestBrought(Run(w, events).value, ranges, i, total, chunk);
      Onward(resource, w, events, Brings(chunk));
      Onward(resource, w, events + [Brings(chunk)], ENDS_WELL);
      all := events + [Brings(chunk)] + [ENDS_WELL];
    }
  }

  /** A run that succeeds although a range to the end, not the last, was passed over. */
  lemma {:induction false} OpenRangeIsPassedOver(resource: seq<Byte>, ranges: seq<ByteRange>, base: Fetcher, k: nat)
    returns (events: seq<Event>)
    requires Servable(resource, ranges) && H.AtRest(base) && !base.link.paused
    requires k + 1 < |ranges| && ranges[k].length.None?
    ensures Reaches(resource, BeginAll(Fresh(ranges, base)), events)
    ensures var t := Run(BeginAll(Fresh(ranges, base)), events).value;
            && t.m.ending == Some(Completed(true)) && SizeKnown(ranges, t.base)
            && AllGiven(t.m) != Fetched(resource, ranges)
  {
    var n := |ranges| - 1;
    events := ReachRange(resource, ranges, base, n);
    events := EndLast(resource, BeginAll(Fresh(ranges, base)), events, ranges, n, PassedOver(ranges[..n]));
    assert ranges[..n][k] == ranges[k] && ranges[k] in ranges[..n];
    PassedOverIsLess(resource, ranges[..n]);
  }

  /** Every success hands over exactly the ranges. */
  ghost predicate AlwaysRight(resource: seq<Byte>, ranges: seq<ByteRange>, base: Fetcher) {
    forall events :: Reaches(resource, BeginAll(Fresh(ranges, base)), events) ==>
                       Right(resource, Run(BeginAll(Fresh(ranges, base)), events).value)
  }

  /** For ranges that the resource can serve, every success hands over exactly the ranges if and only if no range
      but the last goes to the end without a length. */
  lemma ExactlyWhenOpenIsLast(resource: seq<Byte>, ranges: seq<ByteRange>, base: Fetcher)
    requires Servable(resource, ranges) && H.AtRest(base) && !base.link.paused
    ensures AlwaysRight(resource, ranges, base) <==> forall i :: 0 <= i < |ranges| - 1 ==> ranges[i].length.Some?
  {
    if i :| 0 <= i < |ranges| - 1 && ranges[i].length.None? {
      var events := OpenRangeIsPassedOver(resource, ranges, base, i);
      RunKeepsRanges(BeginAll(Fresh(ranges, base)), events);
      assert !Right(resource, Run(BeginAll(Fresh(ranges, base)), events).value);
    } else {
      forall events | Reaches(resource, BeginAll(Fresh(ranges, base)), events)
        ensures Right(resource, Run(BeginAll(Fresh(ranges, base)), events).value)
      {
        SuccessHandsOverRanges(resource, ranges, base, events);
        RunKeepsRanges(BeginAll(Fresh(ranges, base)), events);
      }
    }
  }

  // ---------------------------------------------------------------------------
  // A download over the network

  /** What the performer has to get of a payload. */
  function Wanted(q: Request, payload: seq<Byte>): seq<Byte>
    requires q.resume.Some? ==> FitRecord(q.resume.value, |payload|)
  {
    if q.resume.None? then payload
    else payload[..ManifestSize(q.resume.value)] + Tail(q.resume.value, payload)
  }

  lemma DownloadRanges(q: Request)
    requires 0 < q.size < WORD && (q.resume.Some? ==> FitRecord(q.resume.value, q.size))
    ensures Proper(Ranges(q)) && forall r <- Ranges(q) :: r.length.Some?
  {
    if q.resume.Some? {
      RecordFits(q.resume.value, q.size);
    }
  }

  /** End to end: a download of known size, new or resumed, that succeeds over the network has handed the
      performer exactly what it wants of the payload, however often connections dropped. */
  lemma DownloadOverNetwork(resource: seq<Byte>, q: Request, payload: seq<Byte>, base: Fetcher, events: seq<Event>)
    requires Window(resource, q.baseOffset, payload) && 0 < q.size == |payload| < WORD && H.AtRest(base)
    requires q.resume.Some? ==> FitRecord(q.resume.value, q.size) && FaithfulCache(q.resume.value, payload)
    requires var w := BeginAll(Fresh(Ranges(q), base)); Run(w, events).Some? && HonestRun(resource, w, events)
    requires Run(BeginAll(Fresh(Ranges(q), base)), events).value.m.ending == Some(Completed(true))
    ensures FedFromCache(q) + AllGiven(Run(BeginAll(Fresh(Ranges(q), base)), events).value.m) == Wanted(q, payload)
  {
    DownloadRanges(q);
    SuccessHandsOverRanges(resource, Ranges(q), base, events);
    if q.resume.None? {
      FreshDownload(resource, q, payload);
    } else {
      ResumedDownload(resource, q, payload);
    }
    if Ranges(q) != [] {
      assert Ranges(q)[|Ranges(q)| - 1] in Ranges(q);
    }
  }
}
