/**
 Conversion of SOURCE_COPY operations into per-block COW operations, and what running the
 converted list in place on the device does to it.
 */
module CowConvert {
  import opened Common
  import opened Extents

  datatype InstallKind = SourceCopy | OtherInstall
  datatype InstallOperation = InstallOperation(kind: InstallKind, src: seq<Extent>, dst: seq<Extent>)

  datatype MergeKind = MergeCopy | MergeXor | MergeReplace
  datatype MergeOperation = MergeOperation(kind: MergeKind, src: Extent, dst: Extent)

  /** A copy reads the device as it is when the operation runs; a replace carries the content the
      block had before anything ran. */
  datatype CowOperation = CowCopy(src: nat, dst: nat) | CowReplace(src: nat, dst: nat)

  /** Block `dst` of the target is to hold what block `src` of the source held. */
  datatype Transfer = Transfer(src: nat, dst: nat)

  // ---------------------------------------------------------------------------
  // What the inputs ask for

  function Zip(a: seq<nat>, b: seq<nat>): seq<Transfer> {
    var n := if |a| <= |b| then |a| else |b|;
    seq(n, i requires 0 <= i < n => Transfer(a[i], b[i]))
  }

  function TransfersOf(op: InstallOperation): seq<Transfer> {
    Zip(Iterated(op.src), Iterated(op.dst))
  }

  /** The block transfers of all SOURCE_COPY operations, in order. */
  function Transfers(ops: seq<InstallOperation>): seq<Transfer> {
    if ops == [] then []
    else
      var before, last := Transfers(ops[..|ops| - 1]), ops[|ops| - 1];
      if last.kind == SourceCopy then before + TransfersOf(last) else before
  }

  /** The copies of one merge operation, last block first. */
  function CopiesOf(m: MergeOperation): seq<CowOperation> {
    seq(m.src.num, k requires 0 <= k < m.src.num =>
      CowCopy(m.src.start + (m.src.num - 1 - k), m.dst.start + (m.src.num - 1 - k)))
  }

  function Copies(ms: seq<MergeOperation>): seq<CowOperation> {
    if ms == [] then []
    else
      var before, last := Copies(ms[..|ms| - 1]), ms[|ms| - 1];
      if last.kind == MergeCopy then before + CopiesOf(last) else before
  }

  /** The blocks of the destination extents of all COW_COPY merge operations. */
  function Cover(ms: seq<MergeOperation>): set<nat> {
    if ms == [] then {}
    else
      var before, last := Cover(ms[..|ms| - 1]), ms[|ms| - 1];
      if last.kind == MergeCopy then AddExtent(before, last.dst) else before
  }

  /** The transfers whose destination is not covered, as replacements. */
  function Replaces(ts: seq<Transfer>, cover: set<nat>): seq<CowOperation> {
    if ts == [] then []
    else
      var before, last := Replaces(ts[..|ts| - 1], cover), ts[|ts| - 1];
      if last.dst in cover then before else before + [CowReplace(last.src, last.dst)]
  }

  function Converted(ops: seq<InstallOperation>, ms: seq<MergeOperation>): seq<CowOperation> {
    Copies(ms) + Replaces(Transfers(ops), Cover(ms))
  }

  // ---------------------------------------------------------------------------
  // The conversion itself

  lemma {:induction false} ReplacesConcat(a: seq<Transfer>, b: seq<Transfer>, cover: set<nat>)
    ensures Replaces(a + b, cover) == Replaces(a, cover) + Replaces(b, cover)
  {
    if b == [] {
      assert a + b == a;
    } else {
      var n := |b| - 1;
      assert (a + b)[..|a + b| - 1] == a + b[..n];
      ReplacesConcat(a, b[..n], cover);
    }
  }

  lemma ReplacesStep(ts: seq<Transfer>, k: nat, cover: set<nat>)
    requires k < |ts|
    ensures Replaces(ts[..k + 1], cover) ==
            if ts[k].dst in cover then Replaces(ts[..k], cover)
            else Replaces(ts[..k], cover) + [CowReplace(ts[k].src, ts[k].dst)]
  {
    assert ts[..k + 1][..k] == ts[..k];
  }

  lemma LockStep(a: seq<nat>, b: seq<nat>, k: nat)
    requires k < |a| && k < |b|
    ensures k < |Zip(a, b)| && Zip(a, b)[k] == Transfer(a[k], b[k])
    ensures a[k..][0] == a[k] && a[k..][1..] == a[k + 1..]
    ensures b[k..][0] == b[k] && b[k..][1..] == b[k + 1..]
  {
  }

  lemma ZipDone(a: seq<nat>, b: seq<nat>, k: nat)
    requires k <= |a| && k <= |b| && (k == |a| || k == |b|)
    ensures k == |Zip(a, b)| && Zip(a, b)[..k] == Zip(a, b)
  {
  }

  lemma OperationStep(copies: seq<CowOperation>, ops: seq<InstallOperation>, n: nat, cover: set<nat>)
    requires n < |ops| && ops[n].kind == SourceCopy
    ensures copies + Replaces(Transfers(ops[..n + 1]), cover) ==
            (copies + Replaces(Transfers(ops[..n]), cover)) + Replaces(TransfersOf(ops[n]), cover)
  {
    assert ops[..n + 1][..n] == ops[..n];
    ReplacesConcat(Transfers(ops[..n]), TransfersOf(ops[n]), cover);
    Regroup(copies, Replaces(Transfers(ops[..n]), cover), Replaces(TransfersOf(ops[n]), cover));
  }

  /** The inner loop over the blocks of one merge operation. */
  method EmitCopies(m: MergeOperation) returns (emitted: seq<CowOperation>)
    ensures emitted == CopiesOf(m)
  {
    emitted := [];
    var i := m.src.num;
    while i > 0
      invariant 0 <= i <= m.src.num
      invariant emitted == CopiesOf(m)[..m.src.num - i]
    {
      emitted := emitted + [CowCopy(m.src.start + (i - 1), m.dst.start + (i - 1))];
      i := i - 1;
    }
  }

  /** Reads the pair of blocks the two iterators stand at and advances both. */
  method NextTransfer(it1: BlockIterator, it2: BlockIterator) returns (t: Transfer)
    requires it1 != it2 && it1.Valid() && it2.Valid()
    requires it1.rest != [] && it2.rest != []
    modifies it1, it2
    ensures it1.Valid() && it2.Valid()
    ensures t == Transfer(old(it1.rest)[0], old(it2.rest)[0])
    ensures it1.rest == old(it1.rest)[1..] && it2.rest == old(it2.rest)[1..]
  {
    assert !it1.IsEnd() && !it2.IsEnd();
    t := Transfer(it1.Current(), it2.Current());
    it1.Advance();
    it2.Advance();
  }

  /** The inner loop over the blocks of one SOURCE_COPY operation. */
  method EmitReplaces(op: InstallOperation, cover: set<nat>) returns (emitted: seq<CowOperation>)
    ensures emitted == Replaces(TransfersOf(op), cover)
  {
    emitted := [];
    var it1 := new BlockIterator(op.src);
    var it2 := new BlockIterator(op.dst);
    ghost var a, b, k := it1.rest, it2.rest, 0;
    ghost var ts := Zip(a, b);
    while !it1.IsEnd() && !it2.IsEnd()
      invariant it1.Valid() && it2.Valid()
      invariant 0 <= k <= |a| && k <= |b| && it1.rest == a[k..] && it2.rest == b[k..]
      invariant k <= |ts|
      invariant emitted == Replaces(ts[..k], cover)
      decreases |a| - k
    {
      LockStep(a, b, k);
      ReplacesStep(ts, k, cover);
      var t := NextTransfer(it1, it2);
      if t.dst !in cover {
        emitted := emitted + [CowReplace(t.src, t.dst)];
      }
      k := k + 1;
    }
    ZipDone(a, b, k);
  }

  method ConvertToCowOperations(ops: seq<InstallOperation>, ms: seq<MergeOperation>)
    returns (converted: seq<CowOperation>)
    ensures converted == Converted(ops, ms)
  {
    var cover := {};
    converted := [];
    for n := 0 to |ms|
      invariant converted == Copies(ms[..n])
      invariant cover == Cover(ms[..n])
    {
      assert ms[..n + 1][..n] == ms[..n];
      if ms[n].kind == MergeCopy {
        cover := AddExtent(cover, ms[n].dst);
        var emitted := EmitCopies(ms[n]);
        converted := converted + emitted;
      }
    }
    assert ms[..|ms|] == ms;
    for n := 0 to |ops|
      invariant converted == Copies(ms) + Replaces(Transfers(ops[..n]), cover)
    {
      assert ops[..n + 1][..n] == ops[..n];
      if ops[n].kind == SourceCopy {
        OperationStep(Copies(ms), ops, n, cover);
        var emitted := EmitReplaces(ops[n], cover);
        converted := converted + emitted;
      }
    }
    assert ops[..|ops|] == ops;
  }

  // ---------------------------------------------------------------------------
  // Running a list of operations

  ghost function Write<C>(live: nat -> C, b: nat, c: C): nat -> C {
    (x: nat) => if x == b then c else live(x)
  }

  /** The device after running the operations in place, starting from `source`. */
  ghost function After<C>(ops: seq<CowOperation>, source: nat -> C): nat -> C {
    if ops == [] then source
    else
      var live := After(ops[..|ops| - 1], source);
      match ops[|ops| - 1]
      case CowCopy(s, d) => Write(live, d, live(s))
      case CowReplace(s, d) => Write(live, d, source(s))
  }

  /** The target image: every transfer reads the untouched source. */
  ghost function Target<C>(ts: seq<Transfer>, source: nat -> C): nat -> C {
    if ts == [] then source
    else
      var t := ts[|ts| - 1];
      Write(Target(ts[..|ts| - 1], source), t.dst, source(t.src))
  }

  /** Which source block a block of the target comes from. */
  ghost function Origin(ts: seq<Transfer>, b: nat): nat {
    if ts == [] then b
    else if ts[|ts| - 1].dst == b then ts[|ts| - 1].src
    else Origin(ts[..|ts| - 1], b)
  }

  lemma {:induction false} TargetFollowsOrigin<C>(ts: seq<Transfer>, source: nat -> C, b: nat)
    ensures Target(ts, source)(b) == source(Origin(ts, b))
  {
    if ts != [] {
      TargetFollowsOrigin(ts[..|ts| - 1], source, b);
    }
  }

  function WriteOf(op: CowOperation): Transfer {
    Transfer(op.src, op.dst)
  }

  function Writes(ops: seq<CowOperation>): (r: seq<Transfer>)
    ensures |r| == |ops| && forall i :: 0 <= i < |r| ==> r[i] == WriteOf(ops[i])
  {
    seq(|ops|, i requires 0 <= i < |ops| => WriteOf(ops[i]))
  }

  /** The writes to one block all take it from the same source block. */
  ghost predicate Functional(ts: seq<Transfer>) {
    forall t, u :: t in ts && u in ts && t.dst == u.dst ==> t == u
  }

  ghost predicate DistinctDestinations(ts: seq<Transfer>) {
    forall i, j :: 0 <= i < j < |ts| ==> ts[i].dst != ts[j].dst
  }

  lemma {:induction false} OriginOf(ts: seq<Transfer>, t: Transfer)
    requires Functional(ts) && t in ts
    ensures Origin(ts, t.dst) == t.src
  {
    var last, init := ts[|ts| - 1], ts[..|ts| - 1];
    assert ts == init + [last];
    if last.dst == t.dst {
      assert last == t;
    } else {
      OriginOf(init, t);
    }
  }

  lemma {:induction false} OriginElsewhere(ts: seq<Transfer>, b: nat)
    requires forall t <- ts :: t.dst != b
    ensures Origin(ts, b) == b
  {
    if ts != [] {
      assert ts[|ts| - 1] in ts;
      OriginElsewhere(ts[..|ts| - 1], b);
    }
  }

  lemma OriginsAgree(ts: seq<Transfer>, us: seq<Transfer>, b: nat)
    requires Functional(ts) && Functional(us)
    requires forall t :: t in ts <==> t in us
    ensures Origin(ts, b) == Origin(us, b)
  {
    if t :| t in ts && t.dst == b {
      OriginOf(ts, t);
      OriginOf(us, t);
    } else {
      OriginElsewhere(ts, b);
      OriginElsewhere(us, b);
    }
  }

  // ---------------------------------------------------------------------------
  // Read-after-write conflicts

  /** No copy reads a block whose content an earlier copy changed. */
  ghost predicate ConflictFree(ops: seq<CowOperation>) {
    forall i, j :: 0 <= i < j < |ops| && ops[j].CowCopy? && ops[i].dst == ops[j].src ==>
      ops[i].src == ops[i].dst
  }

  lemma CleanRead(ops: seq<CowOperation>, n: nat)
    requires |ops| == n + 1 && ConflictFree(ops) && Functional(Writes(ops)) && ops[n].CowCopy?
    ensures Functional(Writes(ops[..n])) && Origin(Writes(ops[..n]), ops[n].src) == ops[n].src
  {
    var ws := Writes(ops[..n]);
    assert forall t <- ws :: t in Writes(ops);
    if t :| t in ws && t.dst == ops[n].src {
      OriginOf(ws, t);
    } else {
      OriginElsewhere(ws, ops[n].src);
    }
  }

  lemma WithoutLast(ops: seq<CowOperation>, n: nat)
    requires |ops| == n + 1 && ConflictFree(ops) && Functional(Writes(ops))
    ensures ConflictFree(ops[..n]) && Functional(Writes(ops[..n])) && Writes(ops)[..n] == Writes(ops[..n])
  {
    assert Writes(ops)[..n] == Writes(ops[..n]);
    assert forall t <- Writes(ops[..n]) :: t in Writes(ops);
  }

  lemma {:induction false} ConflictFreeBlock<C>(ops: seq<CowOperation>, source: nat -> C, b: nat)
    requires ConflictFree(ops) && Functional(Writes(ops))
    ensures After(ops, source)(b) == source(Origin(Writes(ops), b))
  {
    if ops != [] {
      var n := |ops| - 1;
      WithoutLast(ops, n);
      ConflictFreeBlock(ops[..n], source, b);
      if ops[n].CowCopy? {
        ConflictFreeBlock(ops[..n], source, ops[n].src);
        CleanRead(ops, n);
      }
    }
  }

  lemma ConflictFreeRun<C>(ops: seq<CowOperation>, source: nat -> C)
    requires ConflictFree(ops) && Functional(Writes(ops))
    ensures forall b :: After(ops, source)(b) == source(Origin(Writes(ops), b))
  {
    forall b
      ensures After(ops, source)(b) == source(Origin(Writes(ops), b))
    {
      ConflictFreeBlock(ops, source, b);
    }
  }

  /** Running a list that writes every block at most once leaves each written block as the
      operation that wrote it left it. */
  lemma {:induction false} WrittenOnceStays<C>(ops: seq<CowOperation>, k: nat, source: nat -> C)
    requires k < |ops| && DistinctDestinations(Writes(ops))
    ensures After(ops, source)(ops[k].dst) == After(ops[..k + 1], source)(ops[k].dst)
  {
    var n := |ops| - 1;
    if k < n {
      var init := ops[..n];
      assert Writes(ops)[..n] == Writes(init);
      WrittenOnceStays(init, k, source);
      assert init[..k + 1] == ops[..k + 1];
      assert Writes(ops)[k].dst != Writes(ops)[n].dst;
    } else {
      assert ops[..k + 1] == ops;
    }
  }

  lemma DistinctIsFunctional(ts: seq<Transfer>)
    requires DistinctDestinations(ts)
    ensures Functional(ts)
  {
  }

  ghost predicate ConflictAt(ops: seq<CowOperation>, i: nat, j: nat) {
    i < j < |ops| && ops[j].CowCopy? && ops[i].dst == ops[j].src && ops[i].src != ops[i].dst
  }

  /** The first conflict makes the run diverge from the target already on the image in which every
      block holds its own number. */
  lemma {:induction false} FirstConflictShows(ops: seq<CowOperation>, i: nat, j: nat)
    requires DistinctDestinations(Writes(ops))
    requires ConflictAt(ops, i, j)
    requires ConflictFree(ops[..j])
    ensures After(ops, (x: nat) => x)(ops[j].dst) != Origin(Writes(ops), ops[j].dst)
  {
    var id := (x: nat) => x;
    var before := ops[..j];
    assert Writes(ops)[..j] == Writes(before);
    DistinctIsFunctional(Writes(ops));
    DistinctIsFunctional(Writes(before));
    ConflictFreeRun(before, id);
    assert Writes(before)[i] in Writes(before);
    OriginOf(Writes(before), Writes(before)[i]);
    assert After(before, id)(ops[j].src) == ops[i].src;
    assert ops[..j + 1][..j] == before;
    assert After(ops[..j + 1], id)(ops[j].dst) == ops[i].src;
    WrittenOnceStays(ops, j, id);
    assert Writes(ops)[j] in Writes(ops);
    OriginOf(Writes(ops), Writes(ops)[j]);
  }

  lemma ConflictFreeExtend(ops: seq<CowOperation>, n: nat)
    requires |ops| == n + 1
    ensures ConflictFree(ops) <==> ConflictFree(ops[..n]) && forall i: nat :: !ConflictAt(ops, i, n)
  {
    if ConflictFree(ops[..n]) && forall i: nat :: !ConflictAt(ops, i, n) {
      forall i, j | 0 <= i < j < |ops| && ops[j].CowCopy? && ops[i].dst == ops[j].src
        ensures ops[i].src == ops[i].dst
      {
        if j == n {
          assert !ConflictAt(ops, i, n);
        } else {
          assert ops[..n][i] == ops[i] && ops[..n][j] == ops[j];
        }
      }
    }
    if ConflictFree(ops) {
      assert forall i :: 0 <= i < n ==> ops[..n][i] == ops[i];
    }
  }

  lemma {:induction false} FindFirstConflict(ops: seq<CowOperation>) returns (i: nat, j: nat)
    requires !ConflictFree(ops)
    ensures ConflictAt(ops, i, j) && ConflictFree(ops[..j])
  {
    var n := |ops| - 1;
    ConflictFreeExtend(ops, n);
    if ConflictFree(ops[..n]) {
      j := n;
      i :| ConflictAt(ops, i, n);
    } else {
      i, j := FindFirstConflict(ops[..n]);
      assert ops[..n][..j] == ops[..j];
    }
  }

  // ---------------------------------------------------------------------------
  // Which merge sequences are safe

  /** The destination of a merge operation begins below its source and reaches into it. */
  predicate ReachesIntoSource(m: MergeOperation) {
    m.dst.start < m.src.start < m.dst.start + m.src.num
  }

  /** A later merge operation reads nothing that an earlier one really moved. */
  predicate NotReadAfter(earlier: MergeOperation, later: MergeOperation) {
    Blocks(Extent(earlier.dst.start, earlier.src.num)) * Blocks(later.src) == {}
    || earlier.src.start == earlier.dst.start
  }

  ghost predicate MergeOrderSafe(ms: seq<MergeOperation>) {
    && (forall m <- ms :: m.kind == MergeCopy ==> !ReachesIntoSource(m))
    && (forall i, j :: 0 <= i < j < |ms| && ms[i].kind == MergeCopy && ms[j].kind == MergeCopy ==>
          NotReadAfter(ms[i], ms[j]))
  }

  lemma CopyAt(m: MergeOperation, o: nat)
    requires m.kind == MergeCopy && o < m.src.num
    ensures CopiesOf(m)[m.src.num - 1 - o] == CowCopy(m.src.start + o, m.dst.start + o)
    ensures CowCopy(m.src.start + o, m.dst.start + o) in CopiesOf(m)
  {
  }

  /** Emitting the blocks of one merge operation in reverse order is free of read-after-write
      conflicts if and only if the destination does not begin below the source and reach into it. */
  lemma ReverseEmission(m: MergeOperation)
    requires m.kind == MergeCopy
    ensures ConflictFree(CopiesOf(m)) <==> !ReachesIntoSource(m)
  {
    var c := CopiesOf(m);
    if ReachesIntoSource(m) {
      var gap := m.src.start - m.dst.start;
      CopyAt(m, gap);
      CopyAt(m, 0);
      assert ConflictAt(c, m.src.num - 1 - gap, m.src.num - 1);
    } else {
      assert forall i, j :: 0 <= i < j < |c| ==>
          c[i].dst == m.dst.start + (m.src.num - 1 - i) && c[j].src == m.src.start + (m.src.num - 1 - j);
    }
  }

  /** No copy of `b` reads a block that a copy of `a` moved. */
  ghost predicate CrossFree(a: seq<CowOperation>, b: seq<CowOperation>) {
    forall x, y :: x in a && y in b && y.CowCopy? && x.dst == y.src ==> x.src == x.dst
  }

  lemma ConflictFreeConcat(a: seq<CowOperation>, b: seq<CowOperation>)
    ensures ConflictFree(a + b) <==> ConflictFree(a) && ConflictFree(b) && CrossFree(a, b)
  {
    var c := a + b;
    if ConflictFree(c) {
      forall i, j | 0 <= i < j < |a| && a[j].CowCopy? && a[i].dst == a[j].src
        ensures a[i].src == a[i].dst
      {
        assert c[i] == a[i] && c[j] == a[j];
      }
      forall i, j | 0 <= i < j < |b| && b[j].CowCopy? && b[i].dst == b[j].src
        ensures b[i].src == b[i].dst
      {
        assert c[|a| + i] == b[i] && c[|a| + j] == b[j];
      }
      forall x, y | x in a && y in b && y.CowCopy? && x.dst == y.src
        ensures x.src == x.dst
      {
        var i :| 0 <= i < |a| && a[i] == x;
        var j :| 0 <= j < |b| && b[j] == y;
        assert c[i] == x && c[|a| + j] == y;
      }
    }
  }

  lemma SharedBlockCrosses(m: MergeOperation, l: MergeOperation, b: nat)
    requires m.kind == MergeCopy && l.kind == MergeCopy && m.src.start != m.dst.start
    requires m.dst.start <= b < m.dst.start + m.src.num
    requires l.src.start <= b < l.src.start + l.src.num
    ensures !CrossFree(CopiesOf(m), CopiesOf(l))
  {
    CopyAt(m, b - m.dst.start);
    CopyAt(l, b - l.src.start);
    var x, y := CowCopy(m.src.start + (b - m.dst.start), b), CowCopy(b, l.dst.start + (b - l.src.start));
    assert x in CopiesOf(m) && y in CopiesOf(l) && x.src != x.dst;
  }

  lemma CrossOfTwo(m: MergeOperation, l: MergeOperation)
    requires m.kind == MergeCopy && l.kind == MergeCopy
    ensures CrossFree(CopiesOf(m), CopiesOf(l)) <==> NotReadAfter(m, l)
  {
    if NotReadAfter(m, l) {
      CrossIsFree(m, l);
    } else {
      var b :| b in Blocks(Extent(m.dst.start, m.src.num)) * Blocks(l.src);
      SharedBlockCrosses(m, l, b);
    }
  }

  lemma CopyOf(m: MergeOperation, x: CowOperation)
    requires m.kind == MergeCopy && x in CopiesOf(m)
    ensures x.CowCopy? && x.dst in Blocks(Extent(m.dst.start, m.src.num)) && x.src in Blocks(m.src)
    ensures x.src - m.src.start == x.dst - m.dst.start
  {
  }

  lemma CrossIsFree(m: MergeOperation, l: MergeOperation)
    requires m.kind == MergeCopy && l.kind == MergeCopy && NotReadAfter(m, l)
    ensures CrossFree(CopiesOf(m), CopiesOf(l))
  {
    if m.src.start == m.dst.start {
      forall x | x in CopiesOf(m)
        ensures x.src == x.dst
      {
        CopyOf(m, x);
      }
    } else {
      forall x, y | x in CopiesOf(m) && y in CopiesOf(l)
        ensures x.dst != y.src
      {
        CopyOf(m, x);
        CopyOf(l, y);
      }
    }
  }

  lemma {:induction false} CrossOfEarlier(ms: seq<MergeOperation>, l: MergeOperation)
    requires l.kind == MergeCopy
    ensures CrossFree(Copies(ms), CopiesOf(l)) <==>
            forall m <- ms :: m.kind == MergeCopy ==> NotReadAfter(m, l)
  {
    if ms != [] {
      var init, m := ms[..|ms| - 1], ms[|ms| - 1];
      assert ms == init + [m];
      CrossOfEarlier(init, l);
      if m.kind == MergeCopy {
        CrossOfTwo(m, l);
        assert forall x :: x in Copies(ms) <==> x in Copies(init) || x in CopiesOf(m);
      }
    }
  }

  /** The copies of a whole merge sequence are free of conflicts exactly when no operation reaches
      into its own source and none reads what an earlier one moved. */
  lemma {:induction false} SafeOrderIsConflictFree(ms: seq<MergeOperation>)
    ensures ConflictFree(Copies(ms)) <==> MergeOrderSafe(ms)
  {
    if ms != [] {
      var init, l := ms[..|ms| - 1], ms[|ms| - 1];
      assert ms == init + [l];
      SafeOrderIsConflictFree(init);
      SafeOrderExtend(init, l);
      if l.kind == MergeCopy {
        ConflictFreeConcat(Copies(init), CopiesOf(l));
        ReverseEmission(l);
        CrossOfEarlier(init, l);
      }
    }
  }

  lemma SafeOrderExtend(init: seq<MergeOperation>, l: MergeOperation)
    ensures MergeOrderSafe(init + [l]) <==>
            && MergeOrderSafe(init)
            && (l.kind == MergeCopy ==>
                  && !ReachesIntoSource(l)
                  && forall m <- init :: m.kind == MergeCopy ==> NotReadAfter(m, l))
  {
    var ms, n := init + [l], |init|;
    assert ms[n] == l && forall i :: 0 <= i < n ==> ms[i] == init[i];
    assert forall m :: m in ms <==> m in init || m == l;
  }

  // ---------------------------------------------------------------------------
  // The conversion as a whole

  /** What delta generation guarantees about the merge sequence: source and destination extents
      match, every copied block is one that a SOURCE_COPY asks for, and every block is written once. */
  ghost predicate WellFormed(ops: seq<InstallOperation>, ms: seq<MergeOperation>) {
    && DistinctDestinations(Transfers(ops))
    && (forall m <- ms :: m.kind == MergeCopy ==> m.src.num == m.dst.num && m.dst.start != SPARSE_HOLE)
    && (forall t <- Writes(Copies(ms)) :: t in Transfers(ops))
  }

  ghost predicate MergedOnce(ms: seq<MergeOperation>) {
    DistinctDestinations(Writes(Copies(ms)))
  }

  lemma WritesConcat(a: seq<CowOperation>, b: seq<CowOperation>)
    ensures Writes(a + b) == Writes(a) + Writes(b)
  {
  }

  ghost predicate Hits(ops: seq<CowOperation>, b: nat) {
    exists op <- ops :: op.dst == b
  }

  lemma HitsConcat(a: seq<CowOperation>, c: seq<CowOperation>, b: nat)
    ensures Hits(a + c, b) <==> Hits(a, b) || Hits(c, b)
  {
    assert forall op :: op in a + c <==> op in a || op in c;
  }

  lemma HitsOfOne(m: MergeOperation, b: nat)
    requires m.kind == MergeCopy && m.src.num == m.dst.num
    ensures Hits(CopiesOf(m), b) <==> b in Blocks(m.dst)
  {
    if b in Blocks(m.dst) {
      CopyAt(m, b - m.dst.start);
      assert CowCopy(m.src.start + (b - m.dst.start), b) in CopiesOf(m);
    }
  }

  lemma {:induction false} CoverIsWritten(ms: seq<MergeOperation>, b: nat)
    requires forall m <- ms :: m.kind == MergeCopy ==> m.src.num == m.dst.num && m.dst.start != SPARSE_HOLE
    ensures b in Cover(ms) <==> Hits(Copies(ms), b)
  {
    if ms != [] {
      var init, last := ms[..|ms| - 1], ms[|ms| - 1];
      assert ms == init + [last];
      CoverIsWritten(init, b);
      if last.kind == MergeCopy {
        HitsConcat(Copies(init), CopiesOf(last), b);
        HitsOfOne(last, b);
      }
    }
  }

  lemma {:induction false} ReplacesAre(ts: seq<Transfer>, cover: set<nat>, t: Transfer)
    ensures t in Writes(Replaces(ts, cover)) <==> t in ts && t.dst !in cover
  {
    if ts != [] {
      var init, last := ts[..|ts| - 1], ts[|ts| - 1];
      assert ts == init + [last];
      ReplacesAre(init, cover, t);
      if last.dst !in cover {
        assert Writes(Replaces(ts, cover)) == Writes(Replaces(init, cover)) + [last];
      }
    }
  }

  lemma {:induction false} ReplacesAreReplaces(ts: seq<Transfer>, cover: set<nat>)
    ensures forall op <- Replaces(ts, cover) :: op.CowReplace?
  {
    if ts != [] {
      ReplacesAreReplaces(ts[..|ts| - 1], cover);
    }
  }

  lemma {:induction false} CopiesAreCopies(ms: seq<MergeOperation>)
    ensures forall op <- Copies(ms) :: op.CowCopy?
  {
    if ms != [] {
      CopiesAreCopies(ms[..|ms| - 1]);
    }
  }

  /** All copies come before all replacements. */
  lemma CopiesComeFirst(ops: seq<InstallOperation>, ms: seq<MergeOperation>)
    ensures forall i, j :: 0 <= i < j < |Converted(ops, ms)| && Converted(ops, ms)[j].CowCopy? ==>
              Converted(ops, ms)[i].CowCopy?
  {
    CopiesAreCopies(ms);
    ReplacesAreReplaces(Transfers(ops), Cover(ms));
    var a, b := Copies(ms), Replaces(Transfers(ops), Cover(ms));
    assert forall j :: 0 <= j < |a| ==> a[j] in a;
    assert forall j :: 0 <= j < |b| ==> b[j] in b;
  }

  /** The converted list performs exactly the transfers that were asked for. */
  lemma ConvertedTransfers(ops: seq<InstallOperation>, ms: seq<MergeOperation>)
    requires WellFormed(ops, ms)
    ensures forall t :: t in Writes(Converted(ops, ms)) <==> t in Transfers(ops)
  {
    var ts, cover := Transfers(ops), Cover(ms);
    WritesConcat(Copies(ms), Replaces(ts, cover));
    forall t
      ensures t in Writes(Converted(ops, ms)) <==> t in ts
    {
      ReplacesAre(ts, cover, t);
      CoverIsWritten(ms, t.dst);
      if t in ts && t.dst in cover {
        var op :| op in Copies(ms) && op.dst == t.dst;
        assert WriteOf(op) in Writes(Copies(ms)) by {
          var k :| 0 <= k < |Copies(ms)| && Copies(ms)[k] == op;
          assert Writes(Copies(ms))[k] == WriteOf(op);
        }
        DistinctIsFunctional(ts);
        assert WriteOf(op) == t;
      }
    }
  }

  lemma ConvertedConflicts(ops: seq<InstallOperation>, ms: seq<MergeOperation>)
    ensures ConflictFree(Converted(ops, ms)) <==> ConflictFree(Copies(ms))
  {
    var reps := Replaces(Transfers(ops), Cover(ms));
    ReplacesAreReplaces(Transfers(ops), Cover(ms));
    ConflictFreeConcat(Copies(ms), reps);
    assert forall j :: 0 <= j < |reps| ==> reps[j] in reps;
  }

  /** In-place equivalence, for any kind of block content: with a safe merge order, running the
      converted list in place produces the image in which every SOURCE_COPY read the untouched
      source. */
  lemma InPlaceEquivalence<C>(ops: seq<InstallOperation>, ms: seq<MergeOperation>, source: nat -> C)
    requires WellFormed(ops, ms) && MergeOrderSafe(ms)
    ensures forall b :: After(Converted(ops, ms), source)(b) == Target(Transfers(ops), source)(b)
  {
    var conv, ts := Converted(ops, ms), Transfers(ops);
    ConvertedTransfers(ops, ms);
    DistinctIsFunctional(ts);
    SafeOrderIsConflictFree(ms);
    ConvertedConflicts(ops, ms);
    ConflictFreeRun(conv, source);
    forall b
      ensures After(conv, source)(b) == Target(ts, source)(b)
    {
      OriginsAgree(Writes(conv), ts, b);
      TargetFollowsOrigin(ts, source, b);
    }
  }

  ghost predicate SameImage(ops: seq<InstallOperation>, ms: seq<MergeOperation>, source: nat -> nat) {
    forall b :: After(Converted(ops, ms), source)(b) == Target(Transfers(ops), source)(b)
  }

  lemma UnsafeOrderShows(ops: seq<InstallOperation>, ms: seq<MergeOperation>)
    requires WellFormed(ops, ms) && MergedOnce(ms) && !MergeOrderSafe(ms)
    ensures !SameImage(ops, ms, (x: nat) => x)
  {
    var conv, ts := Converted(ops, ms), Transfers(ops);
    SafeOrderIsConflictFree(ms);
    ConvertedConflicts(ops, ms);
    WritesAreDistinct(ops, ms);
    var i, j := FindFirstConflict(conv);
    FirstConflictShows(conv, i, j);
    ConvertedTransfers(ops, ms);
    DistinctIsFunctional(ts);
    DistinctIsFunctional(Writes(conv));
    OriginsAgree(Writes(conv), ts, conv[j].dst);
    TargetFollowsOrigin(ts, (x: nat) => x, conv[j].dst);
  }

  /** With every block merged at most once, a safe merge order is also necessary: the run agrees with
      the target on every image if and only if the order is safe. */
  lemma InPlaceExactlyWhenSafe(ops: seq<InstallOperation>, ms: seq<MergeOperation>)
    requires WellFormed(ops, ms) && MergedOnce(ms)
    ensures (forall source: nat -> nat :: SameImage(ops, ms, source)) <==> MergeOrderSafe(ms)
  {
    if MergeOrderSafe(ms) {
      forall source: nat -> nat
        ensures SameImage(ops, ms, source)
      {
        InPlaceEquivalence(ops, ms, source);
      }
    } else {
      UnsafeOrderShows(ops, ms);
    }
  }

  // ---------------------------------------------------------------------------
  // Every block is written once

  lemma {:induction false} ReplacesDistinct(ts: seq<Transfer>, cover: set<nat>)
    requires DistinctDestinations(ts)
    ensures DistinctDestinations(Writes(Replaces(ts, cover)))
  {
    if ts != [] {
      var init, last := ts[..|ts| - 1], ts[|ts| - 1];
      ReplacesDistinct(init, cover);
      var before := Replaces(init, cover);
      forall j | 0 <= j < |before|
        ensures Writes(before)[j].dst != last.dst
      {
        ReplacesAre(init, cover, Writes(before)[j]);
        assert Writes(before)[j] in Writes(before);
        var k :| 0 <= k < |init| && init[k] == Writes(before)[j];
        assert ts[k].dst != last.dst;
      }
    }
  }

  lemma WritesAreDistinct(ops: seq<InstallOperation>, ms: seq<MergeOperation>)
    requires WellFormed(ops, ms) && MergedOnce(ms)
    ensures DistinctDestinations(Writes(Converted(ops, ms)))
  {
    var ts, cover := Transfers(ops), Cover(ms);
    var a, b := Copies(ms), Replaces(ts, cover);
    ReplacesDistinct(ts, cover);
    WritesConcat(a, b);
    forall i, j | 0 <= i < |a| && 0 <= j < |b|
      ensures a[i].dst != b[j].dst
    {
      assert Writes(b)[j] in Writes(b);
      ReplacesAre(ts, cover, Writes(b)[j]);
      CoverIsWritten(ms, a[i].dst);
      assert a[i] in a;
    }
  }

  ghost predicate Distinct<T>(s: seq<T>) {
    forall i, j :: 0 <= i < j < |s| ==> s[i] != s[j]
  }

  lemma {:induction false} CountOfDistinct<T>(s: seq<T>, x: T)
    requires Distinct(s)
    ensures multiset(s)[x] == if x in s then 1 else 0
  {
    if s != [] {
      assert s == [s[0]] + s[1..];
      CountOfDistinct(s[1..], x);
    }
  }

  lemma DistinctSameElements<T>(s: seq<T>, r: seq<T>)
    requires Distinct(s) && Distinct(r)
    requires forall x :: x in s <==> x in r
    ensures multiset(s) == multiset(r)
  {
    forall x: T
      ensures multiset(s)[x] == multiset(r)[x]
    {
      CountOfDistinct(s, x);
      CountOfDistinct(r, x);
    }
  }

  /** The converted list is a rearrangement of the transfers asked for: every one is performed
      exactly once and nothing else is written. */
  lemma EveryBlockWrittenOnce(ops: seq<InstallOperation>, ms: seq<MergeOperation>)
    requires WellFormed(ops, ms) && MergedOnce(ms)
    ensures multiset(Writes(Converted(ops, ms))) == multiset(Transfers(ops))
  {
    WritesAreDistinct(ops, ms);
    ConvertedTransfers(ops, ms);
    DistinctSameElements(Writes(Converted(ops, ms)), Transfers(ops));
  }

  // ---------------------------------------------------------------------------
  // Differently chunked extents

  function Destinations(ts: seq<Transfer>): seq<nat> {
    seq(|ts|, i requires 0 <= i < |ts| => ts[i].dst)
  }

  /** All destination blocks of the SOURCE_COPY operations, however their extents are cut. */
  function DestinationBlocks(ops: seq<InstallOperation>): seq<nat> {
    if ops == [] then []
    else
      var last := ops[|ops| - 1];
      var before := DestinationBlocks(ops[..|ops| - 1]);
      if last.kind == SourceCopy then before + Expanded(last.dst) else before
  }

  ghost predicate MatchedLengths(ops: seq<InstallOperation>) {
    forall op <- ops :: op.kind == SourceCopy ==>
      |Expanded(op.src)| == |Expanded(op.dst)| && forall e <- op.src + op.dst :: Plain(e)
  }

  lemma ZipDestinations(a: seq<nat>, b: seq<nat>)
    requires |a| == |b|
    ensures Destinations(Zip(a, b)) == b
  {
  }

  lemma DestinationsConcat(ts: seq<Transfer>, us: seq<Transfer>)
    ensures Destinations(ts + us) == Destinations(ts) + Destinations(us)
  {
  }

  lemma {:induction false} TransfersReachEveryDestination(ops: seq<InstallOperation>)
    requires MatchedLengths(ops)
    ensures Destinations(Transfers(ops)) == DestinationBlocks(ops)
  {
    if ops != [] {
      var init, op := ops[..|ops| - 1], ops[|ops| - 1];
      assert ops == init + [op];
      TransfersReachEveryDestination(init);
      if op.kind == SourceCopy {
        assert forall e <- op.src :: e in op.src + op.dst;
        assert forall e <- op.dst :: e in op.src + op.dst;
        IteratedIsExpanded(op.src);
        IteratedIsExpanded(op.dst);
        ZipDestinations(Iterated(op.src), Iterated(op.dst));
        DestinationsConcat(Transfers(init), TransfersOf(op));
      }
    }
  }

  lemma SameDestinations(ts: seq<Transfer>, us: seq<Transfer>)
    requires DistinctDestinations(ts) && DistinctDestinations(us)
    requires forall t :: t in ts <==> t in us
    ensures multiset(Destinations(ts)) == multiset(Destinations(us))
  {
    DestinationsInclude(ts, us);
    DestinationsInclude(us, ts);
    DistinctSameElements(Destinations(ts), Destinations(us));
  }

  lemma DestinationsInclude(ts: seq<Transfer>, us: seq<Transfer>)
    requires forall t <- ts :: t in us
    ensures forall d <- Destinations(ts) :: d in Destinations(us)
  {
    forall i | 0 <= i < |ts|
      ensures ts[i].dst in Destinations(us)
    {
      assert ts[i] in us;
      var k :| 0 <= k < |us| && us[k] == ts[i];
      assert Destinations(us)[k] == ts[i].dst;
    }
  }

  /** With source and destination of equal length, the converted list writes every destination block
      of the SOURCE_COPY operations exactly once and no other block, even when the source and the
      destination are cut into extents differently. */
  lemma DestinationsWrittenOnce(ops: seq<InstallOperation>, ms: seq<MergeOperation>)
    requires WellFormed(ops, ms) && MergedOnce(ms) && MatchedLengths(ops)
    ensures multiset(Destinations(Writes(Converted(ops, ms)))) == multiset(DestinationBlocks(ops))
  {
    WritesAreDistinct(ops, ms);
    ConvertedTransfers(ops, ms);
    SameDestinations(Writes(Converted(ops, ms)), Transfers(ops));
    TransfersReachEveryDestination(ops);
  }
}
