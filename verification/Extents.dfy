/**
 Extents of blocks, the iterator that walks a list of extents block by block,
 and the block sets that stand for `ExtentRanges`.
 */
module Extents {

  /** The start block of an extent that has no place on the device. */
  const SPARSE_HOLE: nat := 0xFFFF_FFFF_FFFF_FFFF

  datatype Extent = Extent(start: nat, num: nat)

  /** The blocks an extent covers. */
  function Blocks(e: Extent): (r: set<nat>)
    ensures forall b :: b in r <==> e.start <= b < e.start + e.num
    decreases e.num
  {
    if e.num == 0 then {}
    else Blocks(Extent(e.start, e.num - 1)) + {e.start + e.num - 1}
  }

  /** Adding an extent to a set of ranges: empty extents and holes are ignored. */
  function AddExtent(ranges: set<nat>, e: Extent): set<nat> {
    if e.start == SPARSE_HOLE || e.num == 0 then ranges else ranges + Blocks(e)
  }

  /** The blocks the iterator stops at inside one extent: even an empty extent is visited once. */
  function Visits(e: Extent): (r: seq<nat>)
    ensures |r| >= 1
  {
    seq(if e.num == 0 then 1 else e.num, (i: nat) => e.start + i)
  }

  /** All blocks the iterator stops at, in order. */
  function Iterated(es: seq<Extent>): seq<nat> {
    if es == [] then [] else Visits(es[0]) + Iterated(es[1..])
  }

  /** The blocks of one extent as `ExpandExtents` lists them. */
  function ExpandedOne(e: Extent): seq<nat> {
    if e.start == SPARSE_HOLE then seq(e.num, (_: nat) => SPARSE_HOLE)
    else seq(e.num, (i: nat) => e.start + i)
  }

  /** The reference list of blocks that a list of extents stands for. */
  function Expanded(es: seq<Extent>): seq<nat> {
    if es == [] then [] else ExpandedOne(es[0]) + Expanded(es[1..])
  }

  /** An extent on which the iterator and `ExpandExtents` agree. */
  predicate Plain(e: Extent) {
    e.num >= 1 && (e.start == SPARSE_HOLE ==> e.num == 1)
  }

  lemma VisitsVersusExpanded(e: Extent)
    ensures |Visits(e)| >= |ExpandedOne(e)|
    ensures |Visits(e)| == |ExpandedOne(e)| <==> e.num >= 1
    ensures Visits(e) == ExpandedOne(e) <==> Plain(e)
  {
    if e.start == SPARSE_HOLE && e.num >= 2 {
      assert Visits(e)[1] != ExpandedOne(e)[1];
    }
  }

  lemma {:induction false} IteratedIsLonger(es: seq<Extent>)
    ensures |Iterated(es)| >= |Expanded(es)|
  {
    if es != [] {
      VisitsVersusExpanded(es[0]);
      IteratedIsLonger(es[1..]);
    }
  }

  /** The iterator walks exactly the blocks an extent list stands for if and only if no extent is
      empty and no sparse hole spans more than one block. */
  lemma {:induction false} IteratedIsExpanded(es: seq<Extent>)
    ensures Iterated(es) == Expanded(es) <==> forall e <- es :: Plain(e)
  {
    if es != [] {
      var head, tail := es[0], es[1..];
      assert forall e :: e in es <==> e == head || e in tail;
      VisitsVersusExpanded(head);
      IteratedIsLonger(tail);
      IteratedIsExpanded(tail);
      if Iterated(es) == Expanded(es) {
        var n := |Visits(head)|;
        assert |ExpandedOne(head)| == n;
        assert Iterated(es)[..n] == Visits(head) && Expanded(es)[..n] == ExpandedOne(head);
        assert Iterated(es)[n..] == Iterated(tail) && Expanded(es)[n..] == Expanded(tail);
      }
    }
  }

  /** The blocks from a position inside a list of extents onwards. */
  function From(es: seq<Extent>, cur: nat, offset: nat): seq<nat>
    requires cur < |es| ==> offset < |Visits(es[cur])|
  {
    if cur >= |es| then [] else Visits(es[cur])[offset..] + Iterated(es[cur + 1..])
  }

  /** The cursor over the blocks of a list of extents. */
  class BlockIterator {
    const extents: seq<Extent>
    var curExtent: nat
    var blockOffset: nat
    ghost var rest: seq<nat>  // the blocks still to come

    ghost predicate Valid()
      reads this
    {
      && (curExtent < |extents| ==> blockOffset < |Visits(extents[curExtent])|)
      && rest == From(extents, curExtent, blockOffset)
    }

    constructor (extents: seq<Extent>)
      ensures Valid() && rest == Iterated(extents)
      ensures this.extents == extents
    {
      this.extents := extents;
      curExtent, blockOffset := 0, 0;
      rest := Iterated(extents);
    }

    predicate IsEnd()
      requires Valid()
      reads this
      ensures IsEnd() <==> rest == []
    {
      curExtent >= |extents|
    }

    function Current(): (b: nat)
      requires Valid() && !IsEnd()
      reads this
      ensures b == rest[0]
    {
      extents[curExtent].start + blockOffset
    }

    method Advance()
      requires Valid() && !IsEnd()
      modifies this
      ensures Valid() && rest == old(rest)[1..]
    {
      rest := rest[1..];
      blockOffset := blockOffset + 1;
      if blockOffset >= extents[curExtent].num {
        assert extents[curExtent + 1..] == [] || extents[curExtent + 1..][1..] == extents[curExtent + 2..];
        curExtent := curExtent + 1;
        blockOffset := 0;
      }
    }
  }
}
