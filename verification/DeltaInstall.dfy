/**
 Generator and conversion together: for every list of SOURCE_COPY operations that delta generation
 can hand over, the generated merge sequence meets what the conversion relies on, so the converted
 operations install the target image in place.
 */
module DeltaInstall {
  import opened Extents
  import opened CowConvert
  import opened MergeSequence
  import opened MergeOrder

  // ---------------------------------------------------------------------------
  // The generated sequence

  function Pick(ops: seq<MergeOperation>, order: seq<nat>): (r: seq<MergeOperation>)
    requires forall x <- order :: x < |ops|
    ensures |r| == |order|
    ensures forall i :: 0 <= i < |r| ==> order[i] in order && r[i] == ops[order[i]]
  {
    assert forall i :: 0 <= i < |order| ==> order[i] in order;
    seq(|order|, i requires 0 <= i < |order| => ops[order[i]])
  }

  /** No operation overwrites what a later one reads. */
  ghost predicate ValidSequence(ms: seq<MergeOperation>) {
    forall i, j :: 0 <= i < j < |ms| ==> !Overwrites(ms[i], ms[j])
  }

  function Visited(ms: seq<MergeOperation>): (r: set<nat>)
    ensures forall b :: b in r <==> exists m <- ms :: b in Blocks(m.dst)
  {
    if ms == [] then {}
    else
      assert ms == ms[..|ms| - 1] + [ms[|ms| - 1]];
      Visited(ms[..|ms| - 1]) + Blocks(ms[|ms| - 1].dst)
  }

  lemma ReadsVisited(ms: seq<MergeOperation>, m: MergeOperation)
    ensures Visited(ms) * Blocks(m.src) == {} <==> forall i :: 0 <= i < |ms| ==> !Overwrites(ms[i], m)
  {
    if forall i :: 0 <= i < |ms| ==> !Overwrites(ms[i], m) {
      forall b | b in Visited(ms)
        ensures b !in Blocks(m.src)
      {
        var x :| x in ms && b in Blocks(x.dst);
        var i :| 0 <= i < |ms| && ms[i] == x;
        assert !Overwrites(ms[i], m);
        assert b !in Blocks(ms[i].dst) * Blocks(m.src);
      }
    } else {
      var i :| 0 <= i < |ms| && Overwrites(ms[i], m);
      var b :| b in Blocks(ms[i].dst) * Blocks(m.src);
      assert ms[i] in ms && b in Visited(ms);
    }
  }

  /** Accepts exactly the sequences in which nothing is read after it was overwritten. */
  method ValidateSequence(ms: seq<MergeOperation>) returns (ok: bool)
    requires PairwiseApart(ms)
    ensures ok <==> ValidSequence(ms)
  {
    var visited := {};
    for n := 0 to |ms|
      invariant visited == Visited(ms[..n])
      invariant ValidSequence(ms[..n])
    {
      ValidStep(ms, n);
      VisitedStep(ms, n);
      if visited * Blocks(ms[n].src) != {} {
        return false;
      }
      visited := visited + Blocks(ms[n].dst);
    }
    assert ms[..|ms|] == ms;
    ok := true;
  }

  lemma VisitedStep(ms: seq<MergeOperation>, n: nat)
    requires n < |ms|
    ensures Visited(ms[..n + 1]) == Visited(ms[..n]) + Blocks(ms[n].dst)
  {
    assert ms[..n + 1][..n] == ms[..n];
  }

  lemma ValidStep(ms: seq<MergeOperation>, n: nat)
    requires n < |ms| && ValidSequence(ms[..n])
    ensures if Visited(ms[..n]) * Blocks(ms[n].src) == {} then ValidSequence(ms[..n + 1])
            else !ValidSequence(ms)
  {
    var init, next := ms[..n], ms[..n + 1];
    ReadsVisited(init, ms[n]);
    assert forall i :: 0 <= i < n ==> init[i] == ms[i] && next[i] == ms[i];
    if Visited(init) * Blocks(ms[n].src) == {} {
      forall i, j | 0 <= i < j < |next|
        ensures !Overwrites(next[i], next[j])
      {
        assert !Overwrites(init[i], if j == n then ms[n] else init[j]);
      }
    }
  }

  lemma SafeOrderIsValid(ops: seq<MergeOperation>, after: Successors, order: seq<nat>)
    requires Dependencies(ops, after) && TopologicallySafe(after, order) && Distinct(order)
    requires forall x <- order :: x < |ops|
    ensures ValidSequence(Pick(ops, order))
  {
    var ms := Pick(ops, order);
    forall i, j | 0 <= i < j < |ms|
      ensures !Overwrites(ms[i], ms[j])
    {
      assert !Edge(after, order[j], order[i]);
      assert SuccessorsOf(ops, order[j], after[order[j]]);
    }
  }

  lemma PickedApart(ops: seq<MergeOperation>, order: seq<nat>)
    requires Prepared(ops) && Distinct(order) && forall x <- order :: x < |ops|
    ensures PairwiseApart(Pick(ops, order))
    ensures forall m <- Pick(ops, order) :: m in ops && Settled(m)
  {
    var ms := Pick(ops, order);
    forall i, j | 0 <= i < j < |ms|
      ensures DestinationsApart(ms[i], ms[j])
    {
      var x, y := order[i], order[j];
      assert x < y || y < x;
    }
  }

  lemma ValidIsSafe(ms: seq<MergeOperation>)
    requires ValidSequence(ms) && forall m <- ms :: Settled(m)
    ensures MergeOrderSafe(ms)
  {
    forall m | m in ms
      ensures !ReachesIntoSource(m)
    {
      assert Settled(m);
    }
    forall i, j | 0 <= i < j < |ms|
      ensures NotReadAfter(ms[i], ms[j])
    {
      assert !Overwrites(ms[i], ms[j]) && Settled(ms[i]);
    }
  }

  lemma DependenciesAreGraph(ops: seq<MergeOperation>, after: Successors)
    requires Dependencies(ops, after)
    ensures Graph(after)
  {
    forall i, j | 0 <= i < |after| && j in after[i]
      ensures 0 <= j < |after| && j != i
    {
      assert SuccessorsOf(ops, i, after[i]);
    }
  }

  /** A sequence of all operations that passes the validation. */
  ghost predicate Orders(ms: seq<MergeOperation>, order: seq<MergeOperation>) {
    (forall m <- ms :: m in order) && ValidSequence(order)
  }

  /** The operations can be ordered at all. */
  ghost predicate Orderable(ms: seq<MergeOperation>) {
    exists order :: Orders(ms, order)
  }

  ghost function IndexOf(ops: seq<MergeOperation>, m: MergeOperation): nat {
    if m in ops then var i :| 0 <= i < |ops| && ops[i] == m; i else 0
  }

  lemma OperationsDiffer(ops: seq<MergeOperation>, i: nat, k: nat)
    requires Prepared(ops) && i < k < |ops|
    ensures ops[i] != ops[k]
  {
    assert ops[i] in ops && Settled(ops[i]);
  }

  lemma IndexIsUnique(ops: seq<MergeOperation>, i: nat)
    requires Prepared(ops) && i < |ops|
    ensures IndexOf(ops, ops[i]) == i
  {
    var k := IndexOf(ops, ops[i]);
    if k < i {
      OperationsDiffer(ops, k, i);
    } else if i < k {
      OperationsDiffer(ops, i, k);
    }
  }

  lemma EdgeIsOverwrite(ops: seq<MergeOperation>, after: Successors, z: nat, b: nat)
    requires Prepared(ops) && Dependencies(ops, after) && z < |ops| && b < |ops|
    ensures Edge(after, z, b) <==> ops[z] != ops[b] && Overwrites(ops[b], ops[z])
  {
    assert SuccessorsOf(ops, z, after[z]);
    IndexIsUnique(ops, z);
    IndexIsUnique(ops, b);
  }

  lemma OrderIsRank(ops: seq<MergeOperation>, order: seq<MergeOperation>, after: Successors, z: nat, b: nat)
    requires Prepared(ops) && Dependencies(ops, after) && Orders(ops, order)
    requires z < |ops| && b < |ops| && Edge(after, z, b)
    ensures IndexOf(order, ops[z]) < IndexOf(order, ops[b])
  {
    EdgeIsOverwrite(ops, after, z, b);
    assert ops[z] in ops && ops[b] in ops;
  }

  lemma OrderIsAcyclic(ops: seq<MergeOperation>, order: seq<MergeOperation>, after: Successors)
    requires Prepared(ops) && Dependencies(ops, after) && Orders(ops, order)
    ensures Acyclic(after)
  {
    DependenciesAreGraph(ops, after);
    var rank: nat -> nat := (i: nat) => if i < |ops| then IndexOf(order, ops[i]) else 0;
    forall z, b | Edge(after, z, b)
      ensures rank(z) < rank(b)
    {
      OrderIsRank(ops, order, after, z, b);
    }
    assert Ranked(after, rank);
  }

  /** A list of positions picks every operation exactly when it leaves out no position. */
  lemma PicksAll(ops: seq<MergeOperation>, order: seq<nat>, raw: set<nat>)
    requires Prepared(ops) && Partition(order, raw, UpTo(|ops|)) && forall x <- order :: x < |ops|
    ensures (forall m <- ops :: m in Pick(ops, order)) <==> raw == {}
  {
    var picked := Pick(ops, order);
    if raw == {} {
      forall m | m in ops
        ensures m in picked
      {
        var i :| 0 <= i < |ops| && ops[i] == m;
        assert i in UpTo(|ops|) && i in order;
        var k :| 0 <= k < |order| && order[k] == i;
        assert picked[k] == m;
      }
    } else if forall m <- ops :: m in picked {
      var x :| x in raw;
      assert x in UpTo(|ops|) && ops[x] in ops && ops[x] in picked;
      var k :| 0 <= k < |picked| && picked[k] == ops[x];
      IndexIsUnique(ops, x);
      IndexIsUnique(ops, order[k]);
      assert order[k] in order;
    }
  }

  /** Generating the merge sequence never fails: the validation of its own result always passes. The
      sequence holds every operation if and only if they can be ordered at all. */
  method Generate(ops: seq<MergeOperation>) returns (ok: bool, sequence: seq<MergeOperation>)
    requires Prepared(ops)
    ensures ok
    ensures MergeOrderSafe(sequence) && PairwiseApart(sequence)
    ensures forall m <- sequence :: m in ops && Settled(m)
    ensures (forall m <- ops :: m in sequence) <==> Orderable(ops)
  {
    var after := FindDependency(ops);
    DependenciesAreGraph(ops, after);
    var order, raw := SortOperations(after);
    assert forall x <- order :: x in UpTo(|ops|);
    NothingIsLost(order, raw, |ops|);
    sequence := Pick(ops, order);
    PickedApart(ops, order);
    SafeOrderIsValid(ops, after, order);
    ok := ValidateSequence(sequence);
    ValidIsSafe(sequence);
    PicksAll(ops, order, raw);
    if order' :| Orders(ops, order') {
      OrderIsAcyclic(ops, order', after);
    }
    assert raw == {} ==> Orders(ops, sequence);
  }

  // ---------------------------------------------------------------------------
  // What the conversion relies on

  lemma {:induction false} CopiesAreAscending(ms: seq<MergeOperation>, t: Transfer)
    requires forall m <- ms :: m.kind == MergeCopy
    ensures t in Writes(Copies(ms)) <==> t in Ascending(ms)
  {
    if ms != [] {
      var init, m := ms[..|ms| - 1], ms[|ms| - 1];
      assert m in ms;
      CopiesAreAscending(init, t);
      WritesConcat(Copies(init), CopiesOf(m));
      ReversedRun(m, t);
    }
  }

  lemma ReversedRun(m: MergeOperation, t: Transfer)
    ensures t in Writes(CopiesOf(m)) <==> t in Run(m.src.start, m.dst.start, m.src.num)
  {
    var n, ws, run := m.src.num, Writes(CopiesOf(m)), Run(m.src.start, m.dst.start, m.src.num);
    assert forall k :: 0 <= k < n ==> ws[k] == run[n - 1 - k];
    assert forall k :: 0 <= k < n ==> run[k] == ws[n - 1 - k];
  }

  lemma {:induction false} AscendingOf(ms: seq<MergeOperation>, t: Transfer)
    ensures t in Ascending(ms) <==> exists m <- ms :: t in Run(m.src.start, m.dst.start, m.src.num)
  {
    if ms != [] {
      var init, m := ms[..|ms| - 1], ms[|ms| - 1];
      assert ms == init + [m];
      AscendingOf(init, t);
    }
  }

  lemma SublistTransfers(sequence: seq<MergeOperation>, pieces: seq<MergeOperation>)
    requires forall m <- sequence :: m in pieces && m.kind == MergeCopy
    ensures forall t <- Writes(Copies(sequence)) :: t in Ascending(pieces)
  {
    forall t | t in Writes(Copies(sequence))
      ensures t in Ascending(pieces)
    {
      CopiesAreAscending(sequence, t);
      AscendingOf(sequence, t);
      AscendingOf(pieces, t);
    }
  }

  lemma CopiesReachDestination(m: MergeOperation)
    requires Settled(m)
    ensures DistinctDestinations(Writes(CopiesOf(m)))
    ensures forall t <- Writes(CopiesOf(m)) :: t.dst in Blocks(m.dst)
  {
  }

  lemma {:induction false} DestinationsOfCopies(ms: seq<MergeOperation>)
    requires forall m <- ms :: Settled(m)
    ensures forall t <- Writes(Copies(ms)) :: exists m <- ms :: t.dst in Blocks(m.dst)
  {
    if ms != [] {
      var init, m := ms[..|ms| - 1], ms[|ms| - 1];
      assert ms == init + [m];
      DestinationsOfCopies(init);
      WritesConcat(Copies(init), CopiesOf(m));
      CopiesReachDestination(m);
    }
  }

  lemma {:induction false} ApartIsMergedOnce(ms: seq<MergeOperation>)
    requires PairwiseApart(ms) && forall m <- ms :: Settled(m)
    ensures MergedOnce(ms)
  {
    if ms != [] {
      var init, m := ms[..|ms| - 1], ms[|ms| - 1];
      assert ms == init + [m];
      ApartIsMergedOnce(init);
      DestinationsOfCopies(init);
      CopiesReachDestination(m);
      WritesConcat(Copies(init), CopiesOf(m));
      forall t | t in Writes(Copies(init))
        ensures t.dst !in Blocks(m.dst)
      {
        var x :| x in init && t.dst in Blocks(x.dst);
        var i :| 0 <= i < |init| && init[i] == x;
        assert DestinationsApart(ms[i], m);
      }
      DistinctConcat(Writes(Copies(init)), Writes(CopiesOf(m)), Blocks(m.dst));
    }
  }

  lemma DistinctConcat(a: seq<Transfer>, b: seq<Transfer>, own: set<nat>)
    requires DistinctDestinations(a) && DistinctDestinations(b)
    requires (forall t <- a :: t.dst !in own) && (forall t <- b :: t.dst in own)
    ensures DistinctDestinations(a + b)
  {
    assert forall i :: 0 <= i < |a| ==> a[i] in a;
    assert forall i :: 0 <= i < |b| ==> b[i] in b;
  }

  /** What delta generation hands over: SOURCE_COPY operations with real extents that write every block at
      most once. */
  ghost predicate Delta(ops: seq<InstallOperation>) {
    RealCopies(ops) && DistinctDestinations(Transfers(ops))
  }

  lemma OrderableByElements(ms: seq<MergeOperation>, ns: seq<MergeOperation>)
    requires Orderable(ms) && forall m <- ns :: m in ms
    ensures Orderable(ns)
  {
    var order :| Orders(ms, order);
    assert Orders(ns, order);
  }

  /** The whole generator. It accepts exactly the deltas whose SOURCE_COPY operations have one
      destination extent matching their sources, and then meets everything the conversion needs. The
      pieces make up the transfers asked for, and all of them are merged if and only if they can be
      ordered. */
  method GenerateMergeSequence(ops: seq<InstallOperation>)
    returns (ok: bool, sequence: seq<MergeOperation>, ghost pieces: seq<MergeOperation>)
    requires Delta(ops)
    ensures ok <==> forall op <- ops :: Accepted(op)
    ensures ok ==> WellFormed(ops, sequence) && MergedOnce(sequence) && MergeOrderSafe(sequence)
    ensures ok ==> Ascending(pieces) == Transfers(ops) && forall m <- sequence :: m in pieces
    ensures ok ==> ((forall m <- pieces :: m in sequence) <==> Orderable(pieces))
  {
    var created;
    ok, created := CreatePieces(ops);
    sequence, pieces := [], created;
    if ok {
      DistinctIsApart(created);
      var sorted := SortByDestination(created);
      SortedWhenApart(created, sorted);
      ok, sequence := Generate(sorted);
      SublistTransfers(sequence, created);
      ApartIsMergedOnce(sequence);
      if Orderable(sorted) {
        OrderableByElements(sorted, pieces);
      }
      if Orderable(pieces) {
        OrderableByElements(pieces, sorted);
      }
    }
  }

  /** End to end, for every accepted delta and every source image: running the converted operations
      in place installs the image in which every SOURCE_COPY read the untouched source, writing
      every block exactly once. */
  method InstallOperations(ops: seq<InstallOperation>) returns (ok: bool, cow: seq<CowOperation>)
    requires Delta(ops)
    ensures ok <==> forall op <- ops :: Accepted(op)
    ensures ok ==> forall source: nat -> nat, b ::
              After(cow, source)(b) == Target(Transfers(ops), source)(b)
    ensures ok ==> multiset(Writes(cow)) == multiset(Transfers(ops))
  {
    var sequence;
    ghost var pieces;
    ok, sequence, pieces := GenerateMergeSequence(ops);
    cow := ConvertToCowOperations(ops, sequence);
    if ok {
      forall source: nat -> nat, b: nat
        ensures After(cow, source)(b) == Target(Transfers(ops), source)(b)
      {
        InPlaceEquivalence(ops, sequence, source);
      }
      EveryBlockWrittenOnce(ops, sequence);
    }
  }
}
