/**
 Ordering the merge operations: a topological sort of the "must merge after" relation that leaves
 out operations to break cycles.
 */
module MergeOrder {
  import opened Extents
  import opened CowConvert
  import opened MergeSequence

  /** For each operation, by position, the operations that have to merge after it. */
  type Successors = seq<set<nat>>

  // ---------------------------------------------------------------------------
  // Dependencies

  predicate Overwrites(later: MergeOperation, earlier: MergeOperation) {
    Blocks(later.dst) * Blocks(earlier.src) != {}
  }

  ghost predicate SuccessorsOf(ops: seq<MergeOperation>, i: nat, succ: set<nat>)
    requires i < |ops|
  {
    forall j :: j in succ <==> 0 <= j < |ops| && j != i && Overwrites(ops[j], ops[i])
  }

  /** Operation `j` has to merge after operation `i` exactly when it overwrites what `i` reads. */
  ghost predicate Dependencies(ops: seq<MergeOperation>, after: Successors) {
    && |after| == |ops|
    && forall i :: 0 <= i < |ops| ==> SuccessorsOf(ops, i, after[i])
  }

  ghost predicate Prepared(ops: seq<MergeOperation>) {
    Sorted(ops) && forall m <- ops :: Settled(m)
  }

  lemma OverwritesByEnds(a: MergeOperation, b: MergeOperation)
    requires Settled(a) && Settled(b)
    ensures Overwrites(a, b) <==>
            && a.dst.start + a.dst.num - 1 >= b.src.start
            && a.dst.start <= b.src.start + b.src.num - 1
  {
    if a.dst.start + a.dst.num - 1 >= b.src.start && a.dst.start <= b.src.start + b.src.num - 1 {
      var x := if a.dst.start < b.src.start then b.src.start else a.dst.start;
      assert x in Blocks(a.dst) * Blocks(b.src);
    }
  }

  /** The successors of one operation: the sorted destinations that reach its source lie between a
      lower and an upper bound. */
  method FindSuccessors(ops: seq<MergeOperation>, i: nat) returns (r: set<nat>)
    requires Prepared(ops) && i < |ops|
    ensures SuccessorsOf(ops, i, r)
  {
    var src := ops[i].src;
    var lower := 0;
    while lower < |ops| && ops[lower].dst.start + ops[lower].dst.num - 1 < src.start
      invariant 0 <= lower <= |ops|
      invariant forall j :: 0 <= j < lower ==> ops[j].dst.start + ops[j].dst.num - 1 < src.start
    {
      lower := lower + 1;
    }
    var upper := lower;
    r := {};
    while upper < |ops| && ops[upper].dst.start <= src.start + src.num - 1
      invariant lower <= upper <= |ops|
      invariant forall j :: j in r <==> lower <= j < upper
      invariant forall j :: lower <= j < upper ==> ops[j].dst.start <= src.start + src.num - 1
    {
      r := r + {upper};
      upper := upper + 1;
    }
    BoundsAreExact(ops, i, lower, upper);
    r := r - {i};
  }

  lemma BoundsAreExact(ops: seq<MergeOperation>, i: nat, lower: nat, upper: nat)
    requires Prepared(ops) && i < |ops| && lower <= upper <= |ops|
    requires forall j :: 0 <= j < lower ==> ops[j].dst.start + ops[j].dst.num - 1 < ops[i].src.start
    requires lower < |ops| ==> ops[lower].dst.start + ops[lower].dst.num - 1 >= ops[i].src.start
    requires forall j :: lower <= j < upper ==> ops[j].dst.start <= ops[i].src.start + ops[i].src.num - 1
    requires upper < |ops| ==> ops[upper].dst.start > ops[i].src.start + ops[i].src.num - 1
    ensures forall j :: 0 <= j < |ops| ==> (Overwrites(ops[j], ops[i]) <==> lower <= j < upper)
  {
    forall j | 0 <= j < |ops|
      ensures Overwrites(ops[j], ops[i]) <==> lower <= j < upper
    {
      assert ops[i] in ops && ops[j] in ops;
      OverwritesByEnds(ops[j], ops[i]);
      if j > upper {
        assert ops[upper] in ops;
      }
    }
  }

  method FindDependency(ops: seq<MergeOperation>) returns (after: Successors)
    requires Prepared(ops)
    ensures Dependencies(ops, after)
  {
    after := [];
    for n := 0 to |ops|
      invariant |after| == n
      invariant forall i :: 0 <= i < n ==> SuccessorsOf(ops, i, after[i])
    {
      var succ := FindSuccessors(ops, n);
      after := after + [succ];
    }
  }

  // ---------------------------------------------------------------------------
  // The graph

  ghost predicate Graph(after: Successors) {
    forall i, j :: 0 <= i < |after| && j in after[i] ==> 0 <= j < |after| && j != i
  }

  ghost predicate Edge(after: Successors, z: nat, b: nat) {
    z < |after| && b in after[z]
  }

  /** The operations that `b` has to merge after. */
  ghost function Predecessors(after: Successors, b: nat): (r: set<nat>)
    ensures forall z :: z in r <==> Edge(after, z, b)
  {
    set z | 0 <= z < |after| && Edge(after, z, b)
  }

  /** Those of them that are not dealt with yet. */
  ghost function Open(after: Successors, done: set<nat>, b: nat): set<nat> {
    Predecessors(after, b) - done
  }

  /** The operations that may merge now. */
  ghost predicate Ready(after: Successors, done: set<nat>, b: nat) {
    b < |after| && b !in done && Open(after, done, b) == {}
  }

  /** The counters: one entry for each operation that is left and blocks on something, holding the
      number of open predecessors. */
  ghost predicate Counted(after: Successors, done: set<nat>, incoming: map<nat, nat>) {
    && (forall b: nat :: b in incoming <==> b < |after| && b !in done && Predecessors(after, b) != {})
    && (forall b <- incoming :: incoming[b] == |Open(after, done, b)|)
  }

  lemma OpenShrinks(after: Successors, done: set<nat>, x: nat, b: nat)
    requires x < |after| && x !in done
    ensures Edge(after, x, b) ==>
              |Open(after, done, b)| == |Open(after, done + {x}, b)| + 1
    ensures !Edge(after, x, b) ==> Open(after, done + {x}, b) == Open(after, done, b)
  {
    if Edge(after, x, b) {
      assert Open(after, done, b) == Open(after, done + {x}, b) + {x};
    }
  }

  // ---------------------------------------------------------------------------
  // Sets in order

  method InOrder(s: set<nat>) returns (r: seq<nat>)
    ensures forall x :: x in r <==> x in s
    ensures forall i, j :: 0 <= i < j < |r| ==> r[i] < r[j]
  {
    r := [];
    var todo := s;
    while todo != {}
      invariant todo <= s
      invariant forall x :: x in r <==> x in s && x !in todo
      invariant forall i, j :: 0 <= i < j < |r| ==> r[i] < r[j]
      invariant forall x, y :: x in r && y in todo ==> x < y
    {
      var x := Smallest(todo);
      assert forall i :: 0 <= i < |r| ==> r[i] in r;
      todo := todo - {x};
      r := r + [x];
    }
  }

  method Smallest(s: set<nat>) returns (m: nat)
    requires s != {}
    ensures m in s && forall x <- s :: m <= x
  {
    m :| m in s;
    var rest := s - {m};
    while rest != {}
      invariant m in s && rest <= s
      invariant forall x <- s :: m <= x || x in rest
    {
      var x :| x in rest;
      if x < m {
        m := x;
      }
      rest := rest - {x};
    }
  }

  // ---------------------------------------------------------------------------
  // Taking one operation off the graph

  /** One successor of `x` has one open predecessor less. */
  method ReleaseOne(counts: map<nat, nat>, freed: set<nat>, b: nat)
    returns (counts': map<nat, nat>, freed': set<nat>)
    requires b in counts ==> counts[b] > 0
    ensures counts' == if b in counts then counts[b := counts[b] - 1] else counts
    ensures freed' == if b in counts && counts[b] == 1 then freed + {b} else freed
  {
    counts', freed' := counts, freed;
    if b in counts {
      counts' := counts[b := counts[b] - 1];
      if counts'[b] == 0 {
        freed' := freed + {b};
      }
    }
  }

  ghost function OpenWhile(after: Successors, done: set<nat>, x: nat, seen: set<nat>, b: nat): nat {
    if b in seen then |Open(after, done + {x}, b)| else |Open(after, done, b)|
  }

  ghost predicate CountsWhile(after: Successors, done: set<nat>, x: nat, seen: set<nat>, counts: map<nat, nat>) {
    forall b <- counts :: counts[b] == OpenWhile(after, done, x, seen, b)
  }

  ghost predicate FreedWhile(after: Successors, done: set<nat>, x: nat, seen: set<nat>, freed: set<nat>) {
    forall b :: b in freed <==> b in seen && Ready(after, done + {x}, b)
  }

  /** The counters while the successors of `x` are gone through; `seen` are the ones already done. */
  ghost predicate Releasing(after: Successors, done: set<nat>, x: nat, seen: set<nat>,
                            counts: map<nat, nat>, freed: set<nat>)
  {
    && (forall b: nat :: b in counts <==> b < |after| && b !in done && b != x && Predecessors(after, b) != {})
    && CountsWhile(after, done, x, seen, counts)
    && FreedWhile(after, done, x, seen, freed)
  }

  lemma CountsStep(after: Successors, done: set<nat>, x: nat, seen: set<nat>, counts: map<nat, nat>, b: nat)
    requires CountsWhile(after, done, x, seen, counts) && b !in seen
    requires b in counts ==> counts[b] == |Open(after, done + {x}, b)| + 1
    ensures CountsWhile(after, done, x, seen + {b},
                        if b in counts then counts[b := counts[b] - 1] else counts)
  {
    forall c | c in counts && c != b
      ensures OpenWhile(after, done, x, seen + {b}, c) == OpenWhile(after, done, x, seen, c)
    {
    }
  }

  lemma FreedStep(after: Successors, done: set<nat>, x: nat, seen: set<nat>, freed: set<nat>, b: nat)
    requires FreedWhile(after, done, x, seen, freed) && b !in seen
    ensures FreedWhile(after, done, x, seen + {b},
                       if Ready(after, done + {x}, b) then freed + {b} else freed)
  {
  }

  lemma ReleasingStep(after: Successors, done: set<nat>, x: nat, seen: set<nat>,
                      counts: map<nat, nat>, freed: set<nat>, b: nat)
    requires x < |after| && x !in done && Edge(after, x, b) && b < |after| && b != x && b !in seen
    requires Releasing(after, done, x, seen, counts, freed)
    ensures b in counts ==> counts[b] > 0
    ensures Releasing(after, done, x, seen + {b},
                      if b in counts then counts[b := counts[b] - 1] else counts,
                      if b in counts && counts[b] == 1 then freed + {b} else freed)
  {
    OpenShrinks(after, done, x, b);
    assert x in Predecessors(after, b);
    assert b in counts <==> b !in done;
    assert b in counts ==> counts[b] == OpenWhile(after, done, x, seen, b);
    assert Ready(after, done + {x}, b) <==> b in counts && counts[b] == 1;
    CountsStep(after, done, x, seen, counts, b);
    FreedStep(after, done, x, seen, freed, b);
  }

  /** Marks `x` as dealt with: its successors have one open predecessor less, and those left with
      none become free. */
  method Release(after: Successors, ghost done: set<nat>, x: nat, incoming: map<nat, nat>)
    returns (counts: map<nat, nat>, freed: set<nat>)
    requires Graph(after) && x < |after| && x !in done
    requires Counted(after, done, incoming)
    ensures Counted(after, done + {x}, counts)
    ensures forall b :: b in freed <==> Edge(after, x, b) && Ready(after, done + {x}, b)
  {
    counts := incoming - {x};
    freed := {};
    var blocked := InOrder(after[x]);
    ghost var seen := {};
    for n := 0 to |blocked|
      invariant forall b :: b in seen <==> b in blocked[..n]
      invariant Releasing(after, done, x, seen, counts, freed)
    {
      var b := blocked[n];
      assert b in blocked && b in after[x] && Edge(after, x, b);
      ReleasingStep(after, done, x, seen, counts, freed, b);
      counts, freed := ReleaseOne(counts, freed, b);
      seen := seen + {b};
    }
    assert blocked[..|blocked|] == blocked;
    forall b | b in counts
      ensures counts[b] == |Open(after, done + {x}, b)|
    {
      OpenShrinks(after, done, x, b);
    }
  }

  // ---------------------------------------------------------------------------
  // The sort

  /** No operation of the list overwrites what a later one reads. */
  ghost predicate TopologicallySafe(after: Successors, order: seq<nat>) {
    forall p, q :: 0 <= p < q < |order| ==> !Edge(after, order[q], order[p])
  }

  /** The list and the operations left out are together exactly the ones dealt with. */
  ghost predicate Partition(order: seq<nat>, raw: set<nat>, done: set<nat>) {
    && Distinct(order)
    && (forall x :: x in order ==> x !in raw)
    && (forall x :: x in done <==> x in order || x in raw)
  }

  /** Everything an operation of the list had to wait for is dealt with. */
  ghost predicate Closed(after: Successors, order: seq<nat>, done: set<nat>) {
    forall w, z :: w in order && Edge(after, z, w) ==> z in done
  }

  lemma ClosedBatch(after: Successors, order: seq<nat>, done: set<nat>, batch: seq<nat>)
    requires Closed(after, order, done)
    requires forall x <- batch :: Ready(after, done, x)
    ensures Closed(after, order + batch, done)
  {
    forall w, z | w in order + batch && Edge(after, z, w)
      ensures z in done
    {
      if w in batch {
        assert Ready(after, done, w);
        assert z in Predecessors(after, w) && z !in Open(after, done, w);
      }
    }
  }

  lemma AppendBatch(after: Successors, order: seq<nat>, raw: set<nat>, done: set<nat>, batch: seq<nat>)
    requires TopologicallySafe(after, order) && Partition(order, raw, done) && Closed(after, order, done)
    requires Distinct(batch) && forall x <- batch :: Ready(after, done, x)
    ensures TopologicallySafe(after, order + batch)
    ensures Distinct(order + batch) && forall x <- order + batch :: x !in raw
    ensures Closed(after, order + batch, done)
  {
    var all, n := order + batch, |order|;
    ClosedBatch(after, order, done, batch);
    assert forall x <- batch :: x !in done;
    assert forall x <- order :: x in done;
    assert forall q :: n <= q < |all| ==> all[q] in batch && all[q] == batch[q - n];
    assert forall p :: 0 <= p < |all| ==> all[p] in all && (p < n ==> all[p] in order && all[p] == order[p]);
    forall p, q | 0 <= p < q < |all|
      ensures !Edge(after, all[q], all[p])
    {
      if q < n {
        assert !Edge(after, order[q], order[p]);
      } else {
        assert all[q] !in done;
      }
    }
  }

  ghost predicate IsFree(after: Successors, done: set<nat>, free: set<nat>) {
    forall b :: b in free <==> Ready(after, done, b)
  }

  /** What is free while a batch is being taken off: everything ready except the rest of the batch. */
  ghost predicate FreeWhile(after: Successors, done: set<nat>, pending: seq<nat>, next: set<nat>) {
    forall b :: b in next <==> Ready(after, done, b) && b !in pending
  }

  lemma FreeStep(after: Successors, done: set<nat>, x: nat, rest: seq<nat>, next: set<nat>, freed: set<nat>)
    requires x < |after| && x !in done && x !in rest
    requires FreeWhile(after, done, [x] + rest, next)
    requires forall b :: b in freed <==> Edge(after, x, b) && Ready(after, done + {x}, b)
    requires forall b <- rest :: !Edge(after, x, b)
    ensures FreeWhile(after, done + {x}, rest, next + freed)
  {
    forall b
      ensures b in next + freed <==> Ready(after, done + {x}, b) && b !in rest
    {
      FreeStepAt(after, done, x, b);
    }
  }

  lemma FreeStepAt(after: Successors, done: set<nat>, x: nat, b: nat)
    requires x < |after| && x !in done
    ensures Edge(after, x, b) ==> !Ready(after, done, b)
    ensures !Edge(after, x, b) ==> (Ready(after, done + {x}, b) <==> Ready(after, done, b) && b != x)
  {
    OpenShrinks(after, done, x, b);
  }

  ghost function Elements(s: seq<nat>): set<nat> {
    set x | x in s
  }

  /** A list of operations that do not wait for each other and include everything that is ready. */
  ghost predicate Batch(after: Successors, done: set<nat>, batch: seq<nat>) {
    && Distinct(batch)
    && (forall x <- batch :: x < |after| && x !in done)
    && (forall x, y :: x in batch && y in batch ==> !Edge(after, x, y))
    && (forall b :: Ready(after, done, b) ==> b in batch)
  }

  /** Takes a batch of mutually independent operations off the graph; what it returns is free next. */
  method ReleaseBatch(after: Successors, ghost done: set<nat>, batch: seq<nat>, incoming: map<nat, nat>)
    returns (counts: map<nat, nat>, next: set<nat>)
    requires Graph(after) && Counted(after, done, incoming) && Batch(after, done, batch)
    ensures Counted(after, done + Elements(batch), counts)
    ensures IsFree(after, done + Elements(batch), next)
  {
    counts, next := incoming, {};
    ghost var now := done;
    for n := 0 to |batch|
      invariant now == done + Elements(batch[..n])
      invariant Counted(after, now, counts)
      invariant FreeWhile(after, now, batch[n..], next)
    {
      var x := batch[n];
      ghost var rest := batch[n + 1..];
      BatchSplit(batch, n, rest);
      var freed;
      counts, freed := Release(after, now, x, counts);
      FreeStep(after, now, x, rest, next, freed);
      next := next + freed;
      now := now + {x};
    }
    assert batch[..|batch|] == batch;
  }

  lemma BatchSplit(batch: seq<nat>, n: nat, rest: seq<nat>)
    requires Distinct(batch) && n < |batch| && rest == batch[n + 1..]
    ensures batch[n] in batch && batch[n] !in batch[..n] && batch[n] !in rest
    ensures batch[n..] == [batch[n]] + rest
    ensures forall y <- rest :: y in batch
    ensures Elements(batch[..n + 1]) == Elements(batch[..n]) + {batch[n]}
  {
    assert batch[..n + 1] == batch[..n] + [batch[n]];
  }

  // ---------------------------------------------------------------------------
  // Counting the predecessors

  ghost function PredecessorsBelow(after: Successors, n: nat, b: nat): (r: set<nat>)
    ensures forall z :: z in r <==> 0 <= z < n && Edge(after, z, b)
  {
    set z | 0 <= z < n && Edge(after, z, b)
  }

  ghost predicate CountedBelow(after: Successors, n: nat, incoming: map<nat, nat>) {
    && (forall b: nat :: b in incoming <==> PredecessorsBelow(after, n, b) != {})
    && (forall b <- incoming :: incoming[b] == |PredecessorsBelow(after, n, b)|)
  }

  /** Every operation of a row is blocked by one operation more. */
  method CountRow(incoming: map<nat, nat>, row: set<nat>) returns (counts: map<nat, nat>)
    ensures counts.Keys == incoming.Keys + row
    ensures forall b <- counts :: counts[b] == (if b in incoming then incoming[b] else 0) + if b in row then 1 else 0
  {
    counts := incoming;
    var todo := row;
    while todo != {}
      invariant todo <= row
      invariant counts.Keys == incoming.Keys + (row - todo)
      invariant forall b <- counts ::
                  counts[b] == (if b in incoming then incoming[b] else 0) + if b in row - todo then 1 else 0
    {
      var b :| b in todo;
      counts := counts[b := (if b in counts then counts[b] else 0) + 1];
      todo := todo - {b};
    }
  }

  lemma BelowStep(after: Successors, n: nat, b: nat)
    requires n < |after|
    ensures PredecessorsBelow(after, n + 1, b) ==
            if b in after[n] then PredecessorsBelow(after, n, b) + {n} else PredecessorsBelow(after, n, b)
  {
  }

  lemma CountedStep(after: Successors, n: nat, incoming: map<nat, nat>, counts: map<nat, nat>)
    requires n < |after| && CountedBelow(after, n, incoming)
    requires counts.Keys == incoming.Keys + after[n]
    requires forall b <- counts ::
               counts[b] == (if b in incoming then incoming[b] else 0) + if b in after[n] then 1 else 0
    ensures CountedBelow(after, n + 1, counts)
  {
    forall b: nat
      ensures b in counts <==> PredecessorsBelow(after, n + 1, b) != {}
      ensures b in counts ==> counts[b] == |PredecessorsBelow(after, n + 1, b)|
    {
      BelowStep(after, n, b);
      assert b !in incoming ==> PredecessorsBelow(after, n, b) == {};
    }
  }

  method CountPredecessors(after: Successors) returns (incoming: map<nat, nat>)
    requires Graph(after)
    ensures Counted(after, {}, incoming)
  {
    incoming := map[];
    for n := 0 to |after|
      invariant CountedBelow(after, n, incoming)
    {
      var counts := CountRow(incoming, after[n]);
      CountedStep(after, n, incoming, counts);
      incoming := counts;
    }
    forall b: nat
      ensures PredecessorsBelow(after, |after|, b) == Predecessors(after, b) == Open(after, {}, b)
      ensures Predecessors(after, b) != {} ==> b < |after|
    {
      assert forall z <- Predecessors(after, b) :: Edge(after, z, b);
    }
  }

  // ---------------------------------------------------------------------------
  // The sort itself

  /** Where the sort stands between two rounds. */
  ghost predicate Sorting(after: Successors, order: seq<nat>, raw: set<nat>, done: set<nat>,
                          incoming: map<nat, nat>, free: set<nat>)
  {
    && TopologicallySafe(after, order) && Partition(order, raw, done) && Closed(after, order, done)
    && Counted(after, done, incoming) && IsFree(after, done, free)
    && (forall x <- done :: x < |after|)
  }

  lemma FreeBatch(after: Successors, done: set<nat>, batch: seq<nat>)
    requires Distinct(batch) && forall x :: x in batch <==> Ready(after, done, x)
    ensures Batch(after, done, batch)
  {
    forall x, y | x in batch && y in batch
      ensures !Edge(after, x, y)
    {
      assert Ready(after, done, x) && Ready(after, done, y);
      assert x !in Open(after, done, y);
    }
  }

  lemma PartitionGrows(order: seq<nat>, raw: set<nat>, done: set<nat>, batch: seq<nat>)
    requires Partition(order, raw, done)
    requires Distinct(order + batch) && forall x <- order + batch :: x !in raw
    ensures Partition(order + batch, raw, done + Elements(batch))
  {
  }

  lemma ClosedGrows(after: Successors, order: seq<nat>, done: set<nat>, more: set<nat>)
    requires Closed(after, order, done)
    ensures Closed(after, order, done + more)
  {
  }

  function UpTo(n: nat): (r: set<nat>)
    ensures forall x :: x in r <==> 0 <= x < n
  {
    if n == 0 then {} else UpTo(n - 1) + {n - 1}
  }

  lemma JoinBatch(after: Successors, order: seq<nat>, raw: set<nat>, done: set<nat>, batch: seq<nat>)
    requires TopologicallySafe(after, order) && Partition(order, raw, done) && Closed(after, order, done)
    requires Distinct(batch) && forall x <- batch :: Ready(after, done, x)
    ensures TopologicallySafe(after, order + batch)
    ensures Partition(order + batch, raw, done + Elements(batch))
    ensures Closed(after, order + batch, done + Elements(batch))
  {
    AppendBatch(after, order, raw, done, batch);
    PartitionGrows(order, raw, done, batch);
    ClosedGrows(after, order + batch, done, Elements(batch));
  }

  lemma LeaveOut(after: Successors, order: seq<nat>, raw: set<nat>, done: set<nat>, x: nat, batch: seq<nat>)
    requires Partition(order, raw, done) && Closed(after, order, done) && x !in done
    requires batch == [x] && x < |after| && forall y <- done :: y < |after|
    ensures Partition(order, raw + {x}, done + Elements(batch))
    ensures Closed(after, order, done + Elements(batch))
    ensures done < done + Elements(batch) && forall y <- done + Elements(batch) :: y < |after|
  {
    assert Elements(batch) == {x};
    ClosedGrows(after, order, done, Elements(batch));
  }

  lemma BlockedBatch(after: Successors, done: set<nat>, incoming: map<nat, nat>, x: nat, batch: seq<nat>)
    requires Graph(after) && Counted(after, done, incoming) && IsFree(after, done, {})
    requires x in incoming && batch == [x]
    ensures Batch(after, done, batch)
  {
    assert forall y <- batch :: y == x;
  }

  /** A round in which operations are free: all of them join the order. */
  method JoinRound(after: Successors, order: seq<nat>, raw: set<nat>, ghost done: set<nat>,
                   incoming: map<nat, nat>, free: set<nat>)
    returns (order': seq<nat>, ghost done': set<nat>, incoming': map<nat, nat>, free': set<nat>)
    requires Graph(after) && free != {}
    requires Sorting(after, order, raw, done, incoming, free)
    ensures Sorting(after, order', raw, done', incoming', free')
    ensures done < done'
  {
    var batch := InOrder(free);
    assert batch != [] && batch[0] in Elements(batch);
    assert forall x <- batch :: Ready(after, done, x);
    JoinBatch(after, order, raw, done, batch);
    FreeBatch(after, done, batch);
    incoming', free' := ReleaseBatch(after, done, batch, incoming);
    order', done' := order + batch, done + Elements(batch);
  }

  /** A round in which every operation is blocked: the first is left out to break a cycle. */
  method BreakRound(after: Successors, order: seq<nat>, raw: set<nat>, ghost done: set<nat>,
                    incoming: map<nat, nat>)
    returns (raw': set<nat>, ghost done': set<nat>, incoming': map<nat, nat>, free': set<nat>)
    requires Graph(after) && incoming != map[]
    requires Sorting(after, order, raw, done, incoming, {})
    ensures Sorting(after, order, raw', done', incoming', free')
    ensures done < done'
  {
    var x := Smallest(incoming.Keys);
    var batch := [x];
    assert x in incoming;
    BlockedBatch(after, done, incoming, x, batch);
    LeaveOut(after, order, raw, done, x, batch);
    incoming', free' := ReleaseBatch(after, done, batch, incoming);
    raw', done' := raw + {x}, done + Elements(batch);
  }

  // ---------------------------------------------------------------------------
  // When operations are left out

  /** A rank that grows along every edge. */
  ghost predicate Ranked(after: Successors, rank: nat -> nat) {
    forall z, b :: Edge(after, z, b) ==> rank(z) < rank(b)
  }

  ghost predicate Acyclic(after: Successors) {
    exists rank: nat -> nat :: Ranked(after, rank)
  }

  lemma {:induction false} LowestRank(s: set<nat>, rank: nat -> nat) returns (x: nat)
    requires s != {}
    ensures x in s && forall y <- s :: rank(x) <= rank(y)
  {
    x :| x in s;
    var rest := s - {x};
    if rest != {} {
      var y := LowestRank(rest, rank);
      if rank(y) < rank(x) {
        x := y;
      }
    }
  }

  lemma BlockedBy(after: Successors, done: set<nat>, x: nat) returns (z: nat)
    requires x < |after| && x !in done && !Ready(after, done, x)
    ensures Edge(after, z, x) && z < |after| && z !in done
  {
    z :| z in Open(after, done, x);
  }

  lemma AllBlockedIsCyclic(after: Successors, done: set<nat>, incoming: map<nat, nat>)
    requires Counted(after, done, incoming) && IsFree(after, done, {}) && incoming != map[]
    ensures !Acyclic(after)
  {
    var k :| k in incoming;
    var left := UpTo(|after|) - done;
    assert k in left;
    forall rank: nat -> nat
      ensures !Ranked(after, rank)
    {
      var x := LowestRank(left, rank);
      var z := BlockedBy(after, done, x);
      assert z in left;
    }
  }

  function Position(order: seq<nat>, x: nat): (p: nat)
    requires x in order
    ensures p < |order| && order[p] == x
  {
    if order[0] == x then 0 else Position(order[1..], x) + 1
  }

  lemma CompleteOrderIsRank(after: Successors, order: seq<nat>)
    requires Graph(after) && TopologicallySafe(after, order)
    requires forall x: nat :: x < |after| ==> x in order
    ensures Acyclic(after)
  {
    var rank := (x: nat) => if x in order then Position(order, x) else 0;
    forall z, b | Edge(after, z, b)
      ensures rank(z) < rank(b)
    {
      var p, q := Position(order, b), Position(order, z);
      assert order[p] == b && order[q] == z;
    }
    assert Ranked(after, rank);
  }

  /** A topological sort that leaves out operations to break cycles: the order is safe, every
      operation is either in it, once, or left out, and something is left out exactly when the
      dependencies have a cycle. */
  method SortOperations(after: Successors) returns (order: seq<nat>, raw: set<nat>)
    requires Graph(after)
    ensures TopologicallySafe(after, order)
    ensures Partition(order, raw, UpTo(|after|))
    ensures raw == {} <==> Acyclic(after)
  {
    var incoming := CountPredecessors(after);
    order, raw := [], {};
    var free := UpTo(|after|) - incoming.Keys;
    ghost var done := {};
    assert IsFree(after, done, free);
    while incoming != map[]
      invariant Sorting(after, order, raw, done, incoming, free)
      invariant raw != {} ==> !Acyclic(after)
      decreases UpTo(|after|) - done
    {
      ghost var before := done;
      if free != {} {
        order, done, incoming, free := JoinRound(after, order, raw, done, incoming, free);
      } else {
        AllBlockedIsCyclic(after, done, incoming);
        raw, done, incoming, free := BreakRound(after, order, raw, done, incoming);
      }
      LessLeft(after, before, done);
    }
    var batch := InOrder(free);
    AllDone(after, order, raw, done, incoming, free, batch);
    order := order + batch;
    if raw == {} {
      CompleteOrderIsRank(after, order);
    }
  }

  lemma LessLeft(after: Successors, before: set<nat>, done: set<nat>)
    requires before < done && forall x <- done :: x < |after|
    ensures UpTo(|after|) - done < UpTo(|after|) - before
  {
    var x :| x in done && x !in before;
    assert x in UpTo(|after|) - before;
  }

  lemma AllDone(after: Successors, order: seq<nat>, raw: set<nat>, done: set<nat>,
                incoming: map<nat, nat>, free: set<nat>, batch: seq<nat>)
    requires Sorting(after, order, raw, done, incoming, free) && incoming == map[]
    requires Distinct(batch) && forall x :: x in batch <==> x in free
    ensures TopologicallySafe(after, order + batch)
    ensures Partition(order + batch, raw, UpTo(|after|))
  {
    JoinBatch(after, order, raw, done, batch);
    forall x: nat | x < |after| && x !in done
      ensures x in batch
    {
      assert x !in incoming && Predecessors(after, x) == {};
      assert Ready(after, done, x);
    }
    assert done + Elements(batch) == UpTo(|after|);
  }

  lemma {:induction false} DistinctCount(order: seq<nat>)
    requires Distinct(order)
    ensures |Elements(order)| == |order|
  {
    if order != [] {
      var n := |order| - 1;
      assert order == order[..n] + [order[n]];
      DistinctCount(order[..n]);
      assert Elements(order) == Elements(order[..n]) + {order[n]};
    }
  }

  lemma {:induction false} UpToCount(n: nat)
    ensures |UpTo(n)| == n
  {
    if n > 0 {
      UpToCount(n - 1);
    }
  }

  /** The operations in the order and the ones left out add up to all of them. */
  lemma NothingIsLost(order: seq<nat>, raw: set<nat>, n: nat)
    requires Partition(order, raw, UpTo(n))
    ensures |order| + |raw| == n
  {
    DistinctCount(order);
    UpToCount(n);
    assert UpTo(n) == Elements(order) + raw;
    assert Elements(order) !! raw;
  }
}
