/**
 Room for both slots: how alternating updates on a device with dynamic partitions and without Virtual
 A/B keep the group maxima of each slot within half of the allocatable space.
 */
module SlotSpace {
  import opened Common
  import opened Partitions
  import opened PartitionLayout

  /** The maxima of all groups of a slot together. */
  function SlotMaxima(groups: seq<Group>, suffix: string): nat {
    if groups == [] then 0
    else
      var g := groups[|groups| - 1];
      SlotMaxima(groups[..|groups| - 1], suffix) + if EndsWith(g.name, suffix) then g.maximum else 0
  }

  // ---------------------------------------------------------------------------
  // The check and 64-bit words

  lemma WrapStep(x: nat, y: nat)
    ensures (x % WORD + y) % WORD == (x + y) % WORD
  {
    assert x == x / WORD * WORD + x % WORD;
  }

  lemma {:induction false} WrappedIsRemainder(groups: seq<GroupSpec>)
    ensures WrappedSum(groups) == SumOf(groups) % WORD
    decreases |groups|
  {
    if groups != [] {
      WrappedIsRemainder(groups[..|groups| - 1]);
      WrapStep(SumOf(groups[..|groups| - 1]), groups[|groups| - 1].size);
    }
  }

  /** A manifest that passes the check keeps its groups within half of the space if and only if the sum of
      their sizes fits a 64-bit word. */
  lemma CheckBoundsSum(groups: seq<GroupSpec>, space: nat)
    requires space < WORD && SpaceSuffices(ErrorIfExceededHalf, groups, space)
    ensures SumOf(groups) <= space / 2 <==> SumOf(groups) < WORD
  {
    WrappedIsRemainder(groups);
  }

  lemma SumOfTwo(x: GroupSpec, y: GroupSpec)
    ensures SumOf([x, y]) == x.size + y.size
  {
    var groups := [x, y];
    assert groups[..1] == [x] && [x][..0] == [];
    assert SumOf([x]) == x.size;
  }

  /** Two groups of half a word each pass the check on any device. */
  lemma CheckMissesOverflow(space: nat, x: GroupSpec, y: GroupSpec)
    requires space < WORD && x.size == WORD / 2 && y.size == WORD / 2
    ensures SpaceSuffices(ErrorIfExceededHalf, [x, y], space) && SumOf([x, y]) > space / 2
  {
    SumOfTwo(x, y);
    WrappedIsRemainder([x, y]);
  }

  // ---------------------------------------------------------------------------
  // One update

  lemma {:induction false} OutsideHasNone(groups: seq<Group>, suffix: string)
    ensures SlotMaxima(GroupsOutside(groups, suffix), suffix) == 0
    decreases |groups|
  {
    if groups != [] {
      var init, g := groups[..|groups| - 1], groups[|groups| - 1];
      OutsideHasNone(init, suffix);
      var kept := GroupsOutside(init, suffix);
      assert (kept + [g])[..|kept + [g]| - 1] == kept;
    }
  }

  /** Names of the one slot are outside the other. */
  ghost predicate Apart(one: string, other: string) {
    !EndsWith(COW_GROUP, one) && forall name: string :: EndsWith(name, one) ==> !EndsWith(name, other)
  }

  lemma SlotsAreApart(slot: nat)
    requires slot < 2
    ensures Apart(SlotSuffix(1 - slot), SlotSuffix(slot))
  {
    forall name: string
      ensures !(EndsWith(name, "_a") && EndsWith(name, "_b"))
    {
      SuffixesAreApart(name);
    }
    assert COW_GROUP[1..][1] == 'w' && "_a"[1] == 'a' && "_b"[1] == 'b';
  }

  lemma {:induction false} OutsideKeepsOther(groups: seq<Group>, suffix: string, other: string)
    requires Apart(other, suffix)
    ensures SlotMaxima(GroupsOutside(groups, suffix), other) == SlotMaxima(groups, other)
    decreases |groups|
  {
    if groups != [] {
      var init, g := groups[..|groups| - 1], groups[|groups| - 1];
      OutsideKeepsOther(init, suffix, other);
      var kept := GroupsOutside(init, suffix);
      assert (kept + [g])[..|kept + [g]| - 1] == kept;
    }
  }

  lemma {:induction false} TargetMaxima(groups: seq<Group>, specs: seq<GroupSpec>, suffix: string, other: string)
    requires Apart(other, suffix)
    ensures SlotMaxima(groups + TargetGroups(specs, suffix), suffix) == SlotMaxima(groups, suffix) + SumOf(specs)
    ensures SlotMaxima(groups + TargetGroups(specs, suffix), other) == SlotMaxima(groups, other)
    decreases |specs|
  {
    if specs == [] {
      assert groups + TargetGroups(specs, suffix) == groups;
    } else {
      var n := |specs| - 1;
      TargetMaxima(groups, specs[..n], suffix, other);
      GroupsExtend(specs, suffix);
      SuffixEnds(specs[n].name, suffix);
      var before, g := groups + TargetGroups(specs[..n], suffix), Group(specs[n].name + suffix, specs[n].size);
      assert groups + TargetGroups(specs, suffix) == before + [g];
      assert (before + [g])[..|before + [g]| - 1] == before;
    }
  }

  /** An accepted update gives the target slot the maxima of the manifest and leaves the other as it was. */
  lemma UpdateMaxima(b: Metadata, d: Device, slot: nat, manifest: Manifest)
    requires slot < 2 && Coherent(b) && Updated(b, d, slot, manifest).Some?
    ensures var t := Updated(b, d, slot, manifest).value;
            && SlotMaxima(t.groups, SlotSuffix(slot)) == SumOf(manifest.groups)
            && SlotMaxima(t.groups, SlotSuffix(1 - slot)) == SlotMaxima(b.groups, SlotSuffix(1 - slot))
  {
    var suffix, other := SlotSuffix(slot), SlotSuffix(1 - slot);
    MetadataIsRebuilt(b, d, slot, manifest);
    SlotsAreApart(slot);
    OutsideHasNone(b.groups, suffix);
    OutsideKeepsOther(b.groups, suffix, other);
    TargetMaxima(GroupsOutside(b.groups, suffix), manifest.groups, suffix, other);
  }

  // ---------------------------------------------------------------------------
  // Any number of updates

  /** Updates go to the slot that is not running; one that is accepted makes its target the running slot,
      one that is rejected changes nothing. */
  function AfterUpdates(b: Metadata, d: Device, running: nat, manifests: seq<Manifest>): (Metadata, nat)
    requires running < 2
    ensures AfterUpdates(b, d, running, manifests).1 < 2
  {
    if manifests == [] then (b, running)
    else
      var (before, slot) := AfterUpdates(b, d, running, manifests[..|manifests| - 1]);
      var t := Updated(before, d, 1 - slot, manifests[|manifests| - 1]);
      if t.Some? then (t.value, 1 - slot) else (before, slot)
  }

  predicate HalfEach(b: Metadata) {
    SlotMaxima(b.groups, "_a") <= b.space / 2 && SlotMaxima(b.groups, "_b") <= b.space / 2
  }

  /** Launched with dynamic partitions, without Virtual A/B. */
  predicate PlainLaunch(d: Device) {
    !d.retrofitDynamicPartitions && d.virtualAb == NoVirtualAb
  }

  /** The half limit is enforced exactly on such a device, and only warned about exactly on one that was
      retrofitted with Virtual A/B and updates neither by snapshots nor in recovery. */
  lemma HalfLimitApplies(d: Device, useSnapshot: bool)
    ensures GetSpaceLimit(d, useSnapshot) == ErrorIfExceededHalf <==> PlainLaunch(d)
    ensures GetSpaceLimit(d, useSnapshot) == WarnIfExceededHalf <==>
              !d.retrofitDynamicPartitions && d.virtualAb == RetrofitVirtualAb && !useSnapshot && !d.recovery
  {
  }

  lemma UpdateKeepsHalf(b: Metadata, d: Device, slot: nat, manifest: Manifest)
    requires slot < 2 && PlainLaunch(d) && Within(b) && HalfEach(b) && b.space < WORD
    requires Updated(b, d, slot, manifest).Some? && SumOf(manifest.groups) < WORD
    ensures var t := Updated(b, d, slot, manifest).value; Within(t) && HalfEach(t) && t.space == b.space
  {
    UpdateIsWithin(b, d, slot, manifest);
    MetadataIsRebuilt(b, d, slot, manifest);
    UpdateMaxima(b, d, slot, manifest);
    SuffixesAreApart("");
    ClearedIsOutside(b, SlotSuffix(slot));
    CheckBoundsSum(manifest.groups, b.space);
  }

  /** The space the partitions of a slot take. */
  function SlotUsed(partitions: seq<Partition>, suffix: string): nat {
    if partitions == [] then 0
    else
      var p := partitions[|partitions| - 1];
      SlotUsed(partitions[..|partitions| - 1], suffix) + if EndsWith(p.group, suffix) then p.size else 0
  }

  /** The same, group by group. */
  function UsedByGroups(groups: seq<Group>, partitions: seq<Partition>, suffix: string): nat {
    if groups == [] then 0
    else
      var g := groups[|groups| - 1];
      UsedByGroups(groups[..|groups| - 1], partitions, suffix) +
      if EndsWith(g.name, suffix) then UsedBy(partitions, g.name) else 0
  }

  lemma {:induction false} OneMorePartition(groups: seq<Group>, partitions: seq<Partition>, p: Partition,
                                            suffix: string)
    requires Distinct(groups)
    ensures UsedByGroups(groups, partitions + [p], suffix) ==
            UsedByGroups(groups, partitions, suffix) +
            if FindGroup(groups, p.group).Some? && EndsWith(p.group, suffix) then p.size else 0
    decreases |groups|
  {
    if groups != [] {
      var init, g := groups[..|groups| - 1], groups[|groups| - 1];
      OneMorePartition(init, partitions, p, suffix);
      UseMore(partitions, p, g.name);
    }
  }

  lemma {:induction false} NothingUsed(groups: seq<Group>, suffix: string)
    ensures UsedByGroups(groups, [], suffix) == 0
    decreases |groups|
  {
    if groups != [] {
      NothingUsed(groups[..|groups| - 1], suffix);
    }
  }

  lemma {:induction false} UsedGroupByGroup(groups: seq<Group>, partitions: seq<Partition>, suffix: string)
    requires Distinct(groups) && forall p <- partitions :: exists g <- groups :: g.name == p.group
    ensures SlotUsed(partitions, suffix) == UsedByGroups(groups, partitions, suffix)
    decreases |partitions|
  {
    if partitions == [] {
      NothingUsed(groups, suffix);
    } else {
      var init, p := partitions[..|partitions| - 1], partitions[|partitions| - 1];
      assert partitions == init + [p] && p in partitions;
      UsedGroupByGroup(groups, init, suffix);
      OneMorePartition(groups, init, p, suffix);
      FoundGroup(groups, p.group);
    }
  }

  /** Every group of the slot has a maximum. */
  predicate Limited(groups: seq<Group>, suffix: string) {
    forall g <- groups :: EndsWith(g.name, suffix) ==> g.maximum > 0
  }

  lemma {:induction false} UsedWithinMaxima(groups: seq<Group>, partitions: seq<Partition>, suffix: string)
    requires Limited(groups, suffix)
    requires forall g <- groups :: g.maximum > 0 ==> UsedBy(partitions, g.name) <= g.maximum
    ensures UsedByGroups(groups, partitions, suffix) <= SlotMaxima(groups, suffix)
    decreases |groups|
  {
    if groups != [] {
      assert groups[|groups| - 1] in groups;
      UsedWithinMaxima(groups[..|groups| - 1], partitions, suffix);
    }
  }

  /** The partitions of a slot all of whose groups have a maximum take no more than half the space. */
  lemma SlotTakesHalf(b: Metadata, suffix: string)
    requires Within(b) && Limited(b.groups, suffix) && SlotMaxima(b.groups, suffix) <= b.space / 2
    ensures SlotUsed(b.partitions, suffix) <= b.space / 2
  {
    UsedGroupByGroup(b.groups, b.partitions, suffix);
    UsedWithinMaxima(b.groups, b.partitions, suffix);
  }

  lemma {:induction false} UpdatesKeepHalf(b: Metadata, d: Device, running: nat, manifests: seq<Manifest>)
    requires running < 2 && PlainLaunch(d) && Within(b) && HalfEach(b) && b.space < WORD
    requires forall m <- manifests :: SumOf(m.groups) < WORD
    ensures var t := AfterUpdates(b, d, running, manifests).0; Within(t) && HalfEach(t) && t.space == b.space
    decreases |manifests|
  {
    if manifests != [] {
      var init, m := manifests[..|manifests| - 1], manifests[|manifests| - 1];
      assert m in manifests;
      UpdatesKeepHalf(b, d, running, init);
      var (before, slot) := AfterUpdates(b, d, running, init);
      if Updated(before, d, 1 - slot, m).Some? {
        UpdateKeepsHalf(before, d, 1 - slot, m);
      }
    }
  }

  /** After any number of alternating updates, accepted or not, whose group sizes add up within a 64-bit
      word, the maxima of both slots together fit the allocatable space; no group exceeds its maximum; and
      a slot all of whose groups have a maximum takes no more than its half. */
  lemma BothSlotsFit(b: Metadata, d: Device, running: nat, manifests: seq<Manifest>)
    requires running < 2 && PlainLaunch(d) && Within(b) && HalfEach(b) && b.space < WORD
    requires forall m <- manifests :: SumOf(m.groups) < WORD
    ensures var t := AfterUpdates(b, d, running, manifests).0;
            && Within(t) && HalfEach(t) && t.space == b.space
            && SlotMaxima(t.groups, "_a") + SlotMaxima(t.groups, "_b") <= t.space
            && (Limited(t.groups, "_a") ==> SlotUsed(t.partitions, "_a") <= t.space / 2)
            && (Limited(t.groups, "_b") ==> SlotUsed(t.partitions, "_b") <= t.space / 2)
  {
    UpdatesKeepHalf(b, d, running, manifests);
    var t := AfterUpdates(b, d, running, manifests).0;
    if Limited(t.groups, "_a") {
      SlotTakesHalf(t, "_a");
    }
    if Limited(t.groups, "_b") {
      SlotTakesHalf(t, "_b");
    }
  }

  lemma OneMember(b: Metadata, name: string, group: string, suffix: string, size: nat)
    requires b.partitions == [] && b.align == 1 && FindGroup(b.groups, group) == Some(Group(group, 0))
    requires 0 < size <= b.space && suffix != ""
    ensures AddMembers(b, [name], group, suffix, map[name := size]) ==
            Some(b.(partitions := [Partition(name + suffix, group, size)]))
  {
    var added := Partition(name + suffix, group, 0);
    assert [name][..0] == [];
    assert |name + suffix| > 0;
    UseMore([], added, group);
    assert [] + [added] == [added];
    assert Used([added]) == 0;
    assert [added][0 := added.(size := size)] == [added.(size := size)];
  }

  lemma OneGroup(b: Metadata, g: string, p: string, suffix: string)
    requires b.partitions == [] && b.align == 1 && FindGroup(b.groups, g + suffix).None?
    requires 0 < b.space && suffix != ""
    ensures AddGroups(b, [GroupSpec(g, 0, [p])], suffix, map[p := b.space]) ==
            Some(b.(groups := b.groups + [Group(g + suffix, 0)],
                    partitions := [Partition(p + suffix, g + suffix, b.space)]))
  {
    var specs := [GroupSpec(g, 0, [p])];
    assert specs[..0] == [];
    var groups := b.groups + [Group(g + suffix, 0)];
    assert groups[..|groups| - 1] == b.groups;
    OneMember(b.(groups := groups), p, g + suffix, suffix, b.space);
  }

  lemma EmptyIsCleared(space: nat)
    ensures Cleared(Metadata([], [], space, 1), "_b") == Metadata([], [], space, 1)
  {
    SuffixesAreApart("");
    ClearedIsOutside(Metadata([], [], space, 1), "_b");
  }

  lemma OneSize(p: string, size: nat)
    ensures Sizes([PartitionSpec(p, size)]) == map[p := size]
  {
    assert [PartitionSpec(p, size)][..0] == [];
  }

  lemma OneIsUsed(p: Partition, suffix: string)
    requires EndsWith(p.group, suffix)
    ensures SlotUsed([p], suffix) == p.size
  {
    assert [p][..0] == [];
  }

  lemma NothingWrapped(g: GroupSpec)
    requires g.size == 0
    ensures WrappedSum([g]) == 0
  {
    assert [g][..0] == [];
  }

  /** A group of size 0 passes the check and has no maximum: whatever the names, a slot with such a group can
      take more than half, indeed all. */
  lemma UnlimitedGroupTakesAll(d: Device, space: nat, g: string, p: string)
    requires PlainLaunch(d) && space > 0
    ensures var manifest := Manifest([GroupSpec(g, 0, [p])], [PartitionSpec(p, space)]);
            var t := Updated(Metadata([], [], space, 1), d, 1, manifest);
            t.Some? && SlotUsed(t.value.partitions, "_b") == space
  {
    EmptyIsCleared(space);
    OneSize(p, space);
    NothingWrapped(GroupSpec(g, 0, [p]));
    OneGroup(Metadata([], [], space, 1), g, p, "_b");
    SuffixEnds(g, "_b");
    OneIsUsed(Partition(p + "_b", g + "_b", space), "_b");
  }

  lemma OnePartitionIsWithin(groups: seq<Group>, g: Group, space: nat, align: nat)
    requires Distinct(groups) && g in groups && g.maximum == 0
    ensures Within(Metadata(groups, [Partition("", g.name, space)], space, align))
  {
    var p := Partition("", g.name, space);
    assert [] + [p] == [p];
    UseMore([], p, g.name);
    forall h | h in groups && h.maximum > 0
      ensures UsedBy([p], h.name) <= h.maximum
    {
      FindsIt(groups, g);
      FindsIt(groups, h);
      UseMore([], p, h.name);
    }
  }

  /** Whether the maxima of a slot bound what its partitions can take: for groups whose maxima are within half
      of the space, every layout within the limits keeps the slot within its half if and only if every
      group of the slot has a maximum. */
  lemma HalfExactlyWhenLimited(groups: seq<Group>, suffix: string, space: nat, align: nat)
    requires Distinct(groups) && space > 0 && SlotMaxima(groups, suffix) <= space / 2
    ensures (forall partitions :: Within(Metadata(groups, partitions, space, align)) ==>
                                    SlotUsed(partitions, suffix) <= space / 2)
            <==> Limited(groups, suffix)
  {
    if Limited(groups, suffix) {
      forall partitions | Within(Metadata(groups, partitions, space, align))
        ensures SlotUsed(partitions, suffix) <= space / 2
      {
        SlotTakesHalf(Metadata(groups, partitions, space, align), suffix);
      }
    } else {
      var g :| g in groups && EndsWith(g.name, suffix) && g.maximum == 0;
      var p := Partition("", g.name, space);
      OnePartitionIsWithin(groups, g, space, align);
      OneIsUsed(p, suffix);
      assert SlotUsed([p], suffix) == space;
    }
  }
}
