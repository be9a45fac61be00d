/**
 The first part of the generator of the merge sequence: it cuts self-overlapping copies into pieces and
 sorts the pieces by destination.
 */
module MergeSequence {
  import opened Common
  import opened Extents
  import opened CowConvert

  // ---------------------------------------------------------------------------
  // Overlap of extents

  predicate ExtentsOverlap(a: Extent, b: Extent) {
    if a.start == b.start then true
    else if a.start == SPARSE_HOLE || b.start == SPARSE_HOLE then false
    else if a.start < b.start then a.start + a.num > b.start
    else b.start + b.num > a.start
  }

  /** An extent that covers blocks of the device. */
  predicate Real(e: Extent) {
    e.num > 0 && e.start + e.num <= SPARSE_HOLE
  }

  /** An extent that is neither empty nor a sparse hole. */
  predicate Proper(e: Extent) {
    e.num > 0 && e.start != SPARSE_HOLE
  }

  /** On proper extents the overlap test tells exactly whether they share a block; on others it says yes
      exactly for an empty extent within another or for equal starts. */
  lemma OverlapIsSharing(a: Extent, b: Extent)
    ensures Proper(a) && Proper(b) ==> (ExtentsOverlap(a, b) <==> Blocks(a) * Blocks(b) != {})
    ensures ExtentsOverlap(a, b) && Blocks(a) * Blocks(b) == {} ==> a.num == 0 || b.num == 0
    ensures !ExtentsOverlap(a, b) && Blocks(a) * Blocks(b) != {} ==> a.start == SPARSE_HOLE || b.start == SPARSE_HOLE
  {
    var x := if a.start < b.start then b.start else a.start;
    if ExtentsOverlap(a, b) && a.num > 0 && b.num > 0 {
      assert x in Blocks(a) * Blocks(b);
    }
  }

  // ---------------------------------------------------------------------------
  // Merge operations as lists of transfers

  function Copy(src: nat, dst: nat, num: nat): MergeOperation {
    MergeOperation(MergeCopy, Extent(src, num), Extent(dst, num))
  }

  /** A copy of real extents whose source and destination are apart or the same. */
  predicate Settled(m: MergeOperation) {
    && m.kind == MergeCopy && m.src.num == m.dst.num && Real(m.src) && Real(m.dst)
    && (m.src.start == m.dst.start || !ExtentsOverlap(m.src, m.dst))
  }

  /** The transfers of a contiguous copy, first block first. */
  function Run(src: nat, dst: nat, num: nat): seq<Transfer> {
    seq(num, (i: nat) => Transfer(src + i, dst + i))
  }

  /** The transfers of a list of merge operations, first block first. */
  function Ascending(ms: seq<MergeOperation>): seq<Transfer> {
    if ms == [] then []
    else
      var m := ms[|ms| - 1];
      Ascending(ms[..|ms| - 1]) + Run(m.src.start, m.dst.start, m.src.num)
  }

  lemma AscendingSnoc(ms: seq<MergeOperation>, m: MergeOperation)
    ensures Ascending(ms + [m]) == Ascending(ms) + Run(m.src.start, m.dst.start, m.src.num)
  {
    assert (ms + [m])[..|ms|] == ms;
  }

  lemma RunConcat(src: nat, dst: nat, a: nat, b: nat)
    ensures Run(src, dst, a) + Run(src + a, dst + a, b) == Run(src, dst, a + b)
  {
  }

  // ---------------------------------------------------------------------------
  // Cutting self-overlapping copies

  lemma PieceIsSettled(src: Extent, dst: Extent, i: nat, num: nat, diff: nat)
    requires src.num == dst.num && Real(src) && Real(dst) && i < src.num && 0 < num <= diff && i + num <= src.num
    requires src.start == dst.start + diff || dst.start == src.start + diff
    ensures Settled(Copy(i + src.start, i + dst.start, num))
  {
  }

  /** Appends the pieces of a self-overlapping copy: together they perform the same transfers in the
      same order, and when the extents are real no piece overlaps itself any more. */
  method SplitSelfOverlapping(src: Extent, dst: Extent, pieces: seq<MergeOperation>)
    returns (r: seq<MergeOperation>)
    requires src.num == dst.num
    ensures Ascending(r) == Ascending(pieces) + Run(src.start, dst.start, src.num)
    ensures pieces <= r
    ensures Real(src) && Real(dst) ==> forall k :: |pieces| <= k < |r| ==> Settled(r[k])
  {
    if src.start == dst.start {
      AscendingSnoc(pieces, Copy(src.start, dst.start, src.num));
      return pieces + [Copy(src.start, dst.start, src.num)];
    }
    var diff := if src.start > dst.start then src.start - dst.start else dst.start - src.start;
    r := pieces;
    var i := 0;
    assert Run(src.start, dst.start, 0) == [];
    while i < src.num
      invariant 0 <= i
      invariant Ascending(r) == Ascending(pieces) + Run(src.start, dst.start, if i < src.num then i else src.num)
      invariant pieces <= r
      invariant Real(src) && Real(dst) ==> forall k :: |pieces| <= k < |r| ==> Settled(r[k])
    {
      var num := if diff <= src.num - i then diff else src.num - i;
      var piece := Copy(i + src.start, i + dst.start, num);
      if Real(src) && Real(dst) {
        PieceIsSettled(src, dst, i, num, diff);
      }
      AscendingSnoc(r, piece);
      RunConcat(src.start, dst.start, i, num);
      Regroup(Ascending(pieces), Run(src.start, dst.start, i), Run(i + src.start, i + dst.start, num));
      r := r + [piece];
      i := i + diff;
    }
  }

  // ---------------------------------------------------------------------------
  // From install operations to merge operations

  predicate RealExtents(op: InstallOperation) {
    (forall e <- op.src :: Real(e)) && (forall e <- op.dst :: Real(e))
  }

  /** What delta generation hands over: SOURCE_COPY operations with real extents. */
  predicate RealCopies(ops: seq<InstallOperation>) {
    forall op <- ops :: op.kind == SourceCopy ==> RealExtents(op)
  }

  function Total(es: seq<Extent>): nat {
    if es == [] then 0 else Total(es[..|es| - 1]) + es[|es| - 1].num
  }

  /** A SOURCE_COPY the generator accepts: one destination extent as long as the sources together. */
  predicate Accepted(op: InstallOperation) {
    op.kind == SourceCopy ==> |op.dst| == 1 && Total(op.src) == op.dst[0].num
  }

  /** The transfers of source extents, one after the other, into a contiguous destination. */
  function RunsOf(es: seq<Extent>, dst: nat): seq<Transfer> {
    if es == [] then []
    else
      var init, e := es[..|es| - 1], es[|es| - 1];
      RunsOf(init, dst) + Run(e.start, dst + Total(init), e.num)
  }

  function AllRuns(ops: seq<InstallOperation>): seq<Transfer> {
    if ops == [] then []
    else
      var before, op := AllRuns(ops[..|ops| - 1]), ops[|ops| - 1];
      if op.kind == SourceCopy && |op.dst| == 1 then before + RunsOf(op.src, op.dst[0].start) else before
  }

  lemma {:induction false} IteratedSnoc(es: seq<Extent>, e: Extent)
    ensures Iterated(es + [e]) == Iterated(es) + Visits(e)
  {
    if es == [] {
      assert es + [e] == [e] && [e][1..] == [];
    } else {
      assert (es + [e])[1..] == es[1..] + [e];
      IteratedSnoc(es[1..], e);
    }
  }

  /** The blocks that the iterator visits, paired with consecutive ones. */
  function Partial(es: seq<Extent>, dst: nat): seq<Transfer> {
    var blocks := Iterated(es);
    seq(|blocks|, i requires 0 <= i < |blocks| => Transfer(blocks[i], dst + i))
  }

  lemma PartialSnoc(es: seq<Extent>, e: Extent, dst: nat)
    requires e.num > 0
    ensures |Iterated(es + [e])| == |Iterated(es)| + e.num
    ensures Partial(es + [e], dst) == Partial(es, dst) + Run(e.start, dst + |Iterated(es)|, e.num)
  {
    IteratedSnoc(es, e);
  }

  lemma {:induction false} RunsArePartial(es: seq<Extent>, dst: nat)
    requires forall e <- es :: e.num > 0
    ensures RunsOf(es, dst) == Partial(es, dst) && Total(es) == |Iterated(es)|
    decreases |es|
  {
    if es != [] {
      var init, e := es[..|es| - 1], es[|es| - 1];
      assert es == init + [e] && e in es;
      RunsArePartial(init, dst);
      PartialSnoc(init, e, dst);
    }
  }

  lemma RunsAreTransfers(op: InstallOperation)
    requires op.kind == SourceCopy && RealExtents(op) && Accepted(op)
    ensures RunsOf(op.src, op.dst[0].start) == TransfersOf(op)
  {
    RunsArePartial(op.src, op.dst[0].start);
    assert op.dst == [op.dst[0]];
    assert Iterated(op.dst) == Visits(op.dst[0]) + Iterated([]);
  }

  lemma {:induction false} AllRunsAreTransfers(ops: seq<InstallOperation>)
    requires RealCopies(ops) && forall op <- ops :: Accepted(op)
    ensures AllRuns(ops) == Transfers(ops)
    decreases |ops|
  {
    if ops != [] {
      var init, op := ops[..|ops| - 1], ops[|ops| - 1];
      assert ops == init + [op] && op in ops;
      AllRunsAreTransfers(init);
      if op.kind == SourceCopy {
        RunsAreTransfers(op);
      }
    }
  }

  /** The pieces of one source extent. */
  method CreatePiece(src: Extent, dst: Extent, pieces: seq<MergeOperation>) returns (r: seq<MergeOperation>)
    requires src.num == dst.num
    ensures Ascending(r) == Ascending(pieces) + Run(src.start, dst.start, src.num)
    ensures pieces <= r
    ensures Real(src) && Real(dst) ==> forall k :: |pieces| <= k < |r| ==> Settled(r[k])
  {
    if ExtentsOverlap(src, dst) {
      r := SplitSelfOverlapping(src, dst, pieces);
    } else {
      AscendingSnoc(pieces, Copy(src.start, dst.start, src.num));
      r := pieces + [Copy(src.start, dst.start, src.num)];
    }
  }

  lemma {:induction false} TotalPrefix(es: seq<Extent>, n: nat)
    requires n <= |es|
    ensures Total(es[..n]) <= Total(es)
    decreases |es|
  {
    if n < |es| {
      TotalPrefix(es[..|es| - 1], n);
      assert es[..|es| - 1][..n] == es[..n];
    } else {
      assert es[..n] == es;
    }
  }

  /** Real extents whose pieces stay below the sparse-hole marker. */
  predicate Fits(op: InstallOperation) {
    RealExtents(op) && |op.dst| == 1 && op.dst[0].start + Total(op.src) <= SPARSE_HOLE
  }

  lemma PieceFits(op: InstallOperation, n: nat)
    requires Fits(op) && n < |op.src|
    ensures Real(op.src[n]) && Real(Extent(op.dst[0].start + Total(op.src[..n]), op.src[n].num))
    ensures Total(op.src[..n + 1]) == Total(op.src[..n]) + op.src[n].num
  {
    assert op.src[..n + 1][..n] == op.src[..n] && op.src[n] in op.src;
    TotalPrefix(op.src, n + 1);
  }

  /** The pieces of one SOURCE_COPY operation, or a refusal of its shape. */
  method CreateOne(op: InstallOperation, pieces: seq<MergeOperation>)
    returns (ok: bool, r: seq<MergeOperation>)
    requires op.kind == SourceCopy
    ensures ok <==> Accepted(op)
    ensures ok ==> pieces <= r && Ascending(r) == Ascending(pieces) + RunsOf(op.src, op.dst[0].start)
    ensures ok && RealExtents(op) ==> forall k :: |pieces| <= k < |r| ==> Settled(r[k])
  {
    r := pieces;
    if |op.dst| != 1 {
      return false, r;
    }
    var base := op.dst[0].start;
    var usedBlocks := 0;
    for n := 0 to |op.src|
      invariant usedBlocks == Total(op.src[..n]) && pieces <= r
      invariant Ascending(r) == Ascending(pieces) + RunsOf(op.src[..n], base)
      invariant Fits(op) ==> forall k :: |pieces| <= k < |r| ==> Settled(r[k])
    {
      var src := op.src[n];
      assert op.src[..n + 1][..n] == op.src[..n];
      if Fits(op) {
        PieceFits(op, n);
      }
      Regroup(Ascending(pieces), RunsOf(op.src[..n], base), Run(src.start, base + usedBlocks, src.num));
      r := CreatePiece(src, Extent(base + usedBlocks, src.num), r);
      usedBlocks := usedBlocks + src.num;
    }
    assert op.src[..|op.src|] == op.src;
    ok := usedBlocks == op.dst[0].num;
    assert RealExtents(op) ==> Real(op.dst[0]);
  }

  /** The unsorted pieces of all SOURCE_COPY operations; the others are skipped. */
  method CreatePieces(ops: seq<InstallOperation>) returns (ok: bool, r: seq<MergeOperation>)
    ensures ok <==> forall op <- ops :: Accepted(op)
    ensures ok ==> Ascending(r) == AllRuns(ops)
    ensures ok && RealCopies(ops) ==> Ascending(r) == Transfers(ops) && forall m <- r :: Settled(m)
  {
    r := [];
    for n := 0 to |ops|
      invariant forall op <- ops[..n] :: Accepted(op)
      invariant Ascending(r) == AllRuns(ops[..n])
      invariant RealCopies(ops) ==> forall m <- r :: Settled(m)
    {
      assert ops[..n + 1] == ops[..n] + [ops[n]] && ops[n] in ops;
      if ops[n].kind == SourceCopy {
        ghost var before := r;
        ok, r := CreateOne(ops[n], r);
        if !ok {
          return false, r;
        }
        if RealCopies(ops) {
          StillSettled(before, r);
        }
      }
    }
    assert ops[..|ops|] == ops;
    ok := true;
    if RealCopies(ops) {
      AllRunsAreTransfers(ops);
    }
  }

  lemma StillSettled(before: seq<MergeOperation>, r: seq<MergeOperation>)
    requires before <= r && (forall m <- before :: Settled(m)) && forall k :: |before| <= k < |r| ==> Settled(r[k])
    ensures forall m <- r :: Settled(m)
  {
    forall m | m in r
      ensures Settled(m)
    {
      var k :| 0 <= k < |r| && r[k] == m;
      if k < |before| {
        assert before[k] == m;
      }
    }
  }

  // ---------------------------------------------------------------------------
  // Sorting by destination

  predicate DestinationsApart(a: MergeOperation, b: MergeOperation) {
    Blocks(a.dst) !! Blocks(b.dst)
  }

  ghost predicate PairwiseApart(ms: seq<MergeOperation>) {
    forall i, j :: 0 <= i < j < |ms| ==> DestinationsApart(ms[i], ms[j])
  }

  /** Sorted by destination, every destination ending before the next one begins. */
  ghost predicate Sorted(ms: seq<MergeOperation>) {
    forall i, j :: 0 <= i < j < |ms| ==> ms[i].dst.start + ms[i].dst.num <= ms[j].dst.start
  }

  lemma ApartIsOrdered(a: MergeOperation, b: MergeOperation)
    requires Settled(a) && Settled(b) && DestinationsApart(a, b)
    ensures a.dst.start < b.dst.start ==> a.dst.start + a.dst.num <= b.dst.start
    ensures a.dst.start >= b.dst.start ==> b.dst.start + b.dst.num <= a.dst.start
  {
    assert a.dst.start in Blocks(a.dst) && b.dst.start in Blocks(b.dst);
  }

  lemma {:induction false} AscendingIndex(ms: seq<MergeOperation>, k: nat, o: nat) returns (p: nat)
    requires k < |ms| && o < ms[k].src.num
    ensures p < |Ascending(ms)|
    ensures Ascending(ms)[p] == Transfer(ms[k].src.start + o, ms[k].dst.start + o)
  {
    var init, m := ms[..|ms| - 1], ms[|ms| - 1];
    if k < |init| {
      p := AscendingIndex(init, k, o);
    } else {
      p := |Ascending(init)| + o;
      assert Ascending(ms)[p] == Run(m.src.start, m.dst.start, m.src.num)[o];
    }
  }

  lemma {:induction false} BlocksDiffer(ms: seq<MergeOperation>, i: nat, b: nat, c: nat)
    requires i < |ms| - 1 && Settled(ms[i]) && Settled(ms[|ms| - 1])
    requires DistinctDestinations(Ascending(ms))
    requires b in Blocks(ms[i].dst) && c in Blocks(ms[|ms| - 1].dst)
    ensures b != c
  {
    var init, m := ms[..|ms| - 1], ms[|ms| - 1];
    var before, all, o := Ascending(init), Ascending(ms), c - m.dst.start;
    var p := AscendingIndex(init, i, b - ms[i].dst.start);
    assert all[p] == before[p];
    assert all[|before| + o] == Run(m.src.start, m.dst.start, m.src.num)[o];
    assert all[p].dst != all[|before| + o].dst;
  }

  lemma {:induction false} LastIsApart(ms: seq<MergeOperation>, i: nat)
    requires i < |ms| - 1 && Settled(ms[i]) && Settled(ms[|ms| - 1])
    requires DistinctDestinations(Ascending(ms))
    ensures DestinationsApart(ms[i], ms[|ms| - 1])
  {
    var x, y := Blocks(ms[i].dst), Blocks(ms[|ms| - 1].dst);
    forall b, c | b in x && c in y
      ensures b != c
    {
      BlocksDiffer(ms, i, b, c);
    }
  }

  lemma {:induction false} DistinctIsApart(ms: seq<MergeOperation>)
    requires forall m <- ms :: Settled(m)
    requires DistinctDestinations(Ascending(ms))
    ensures PairwiseApart(ms)
  {
    if ms != [] {
      var init := ms[..|ms| - 1];
      assert Ascending(ms)[..|Ascending(init)|] == Ascending(init);
      DistinctIsApart(init);
      forall i, j | 0 <= i < j < |ms|
        ensures DestinationsApart(ms[i], ms[j])
      {
        if j == |ms| - 1 {
          LastIsApart(ms, i);
        } else {
          assert ms[i] == init[i] && ms[j] == init[j];
        }
      }
    }
  }

  /** Sorted by first destination block. */
  ghost predicate ByStart(ms: seq<MergeOperation>) {
    forall i, j :: 0 <= i < j < |ms| ==> ms[i].dst.start <= ms[j].dst.start
  }

  /** Insertion sort by first destination block. */
  method SortByDestination(ms: seq<MergeOperation>) returns (r: seq<MergeOperation>)
    ensures ByStart(r) && multiset(r) == multiset(ms)
  {
    r := [];
    for n := 0 to |ms|
      invariant ByStart(r) && multiset(r) == multiset(ms[..n])
    {
      assert ms[..n + 1] == ms[..n] + [ms[n]];
      r := Insert(r, ms[n]);
    }
    assert ms[..|ms|] == ms;
  }

  method Insert(ms: seq<MergeOperation>, m: MergeOperation) returns (r: seq<MergeOperation>)
    requires ByStart(ms)
    ensures ByStart(r) && multiset(r) == multiset(ms) + multiset{m}
  {
    var k := 0;
    while k < |ms| && ms[k].dst.start < m.dst.start
      invariant 0 <= k <= |ms|
      invariant forall i :: 0 <= i < k ==> ms[i].dst.start < m.dst.start
    {
      k := k + 1;
    }
    r := ms[..k] + [m] + ms[k..];
    SpliceSorted(ms, k, m, r);
    SpliceCounts(ms, k, m);
  }

  lemma SpliceSorted(ms: seq<MergeOperation>, k: nat, m: MergeOperation, r: seq<MergeOperation>)
    requires ByStart(ms) && k <= |ms| && r == ms[..k] + [m] + ms[k..]
    requires forall i :: 0 <= i < k ==> ms[i].dst.start <= m.dst.start
    requires k < |ms| ==> m.dst.start <= ms[k].dst.start
    ensures ByStart(r)
  {
    forall i, j | 0 <= i < j < |r|
      ensures r[i].dst.start <= r[j].dst.start
    {
      if j > k {
        assert r[j] == ms[j - 1];
        assert m.dst.start <= ms[j - 1].dst.start;
      }
      if i > k {
        assert r[i] == ms[i - 1];
      }
    }
  }

  lemma SpliceCounts<T>(s: seq<T>, k: nat, x: T)
    requires k <= |s|
    ensures multiset(s[..k] + [x] + s[k..]) == multiset(s) + multiset{x}
  {
    assert s == s[..k] + s[k..];
  }

  lemma ApartDiffer(ms: seq<MergeOperation>, i: nat, j: nat)
    requires PairwiseApart(ms) && i < j < |ms| && Settled(ms[i])
    ensures ms[i] != ms[j]
  {
    assert ms[i].dst.start in Blocks(ms[i].dst);
  }

  lemma {:induction false} CountedOnce(ms: seq<MergeOperation>, m: MergeOperation)
    requires PairwiseApart(ms) && forall x <- ms :: Settled(x)
    ensures multiset(ms)[m] <= 1
    decreases |ms|
  {
    if ms != [] {
      var init, last := ms[..|ms| - 1], ms[|ms| - 1];
      assert ms == init + [last];
      CountedOnce(init, m);
      if m == last {
        forall i | 0 <= i < |init|
          ensures init[i] != last
        {
          assert ms[i] in ms;
          ApartDiffer(ms, i, |ms| - 1);
        }
      }
    }
  }

  lemma CountedTwice(r: seq<MergeOperation>, i: nat, j: nat)
    requires i < j < |r| && r[i] == r[j]
    ensures multiset(r)[r[i]] >= 2
  {
    assert r == r[..j] + [r[j]] + r[j + 1..];
    assert r[i] in r[..j];
  }

  lemma ElementsApart(ms: seq<MergeOperation>, x: MergeOperation, y: MergeOperation)
    requires PairwiseApart(ms) && x in ms && y in ms && x != y
    ensures DestinationsApart(x, y)
  {
    var i :| 0 <= i < |ms| && ms[i] == x;
    var j :| 0 <= j < |ms| && ms[j] == y;
    if j < i {
      assert DestinationsApart(ms[j], ms[i]);
    }
  }

  /** When destinations are apart, sorting by start puts every destination before the next. */
  lemma SortedWhenApart(ms: seq<MergeOperation>, r: seq<MergeOperation>)
    requires PairwiseApart(ms) && (forall m <- ms :: Settled(m))
    requires ByStart(r) && multiset(r) == multiset(ms)
    ensures Sorted(r) && forall m :: m in r <==> m in ms
  {
    forall m
      ensures m in r <==> m in ms
    {
      assert (m in r <==> m in multiset(r)) && (m in ms <==> m in multiset(ms));
    }
    forall i, j | 0 <= i < j < |r|
      ensures r[i].dst.start + r[i].dst.num <= r[j].dst.start
    {
      assert r[i] in r && r[j] in r;
      CountedOnce(ms, r[i]);
      if r[i] == r[j] {
        CountedTwice(r, i, j);
      } else {
        ElementsApart(ms, r[i], r[j]);
        ApartIsOrdered(r[i], r[j]);
      }
    }
  }
}
