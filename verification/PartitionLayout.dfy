/**
 What updating the metadata amounts to: the target slot is exactly the manifest's, everything else is
 as before, and limits are kept.
 */
module PartitionLayout {
  import opened Common
  import opened Partitions

  // ---------------------------------------------------------------------------
  // The target slot is the manifest's

  predicate Outside(name: string, suffix: string) {
    !EndsWith(name, suffix) && name != COW_GROUP
  }

  function GroupsOutside(groups: seq<Group>, suffix: string): seq<Group> {
    if groups == [] then []
    else
      var before, g := GroupsOutside(groups[..|groups| - 1], suffix), groups[|groups| - 1];
      if Outside(g.name, suffix) then before + [g] else before
  }

  function PartitionsOutside(partitions: seq<Partition>, suffix: string): seq<Partition> {
    if partitions == [] then []
    else
      var before, p := PartitionsOutside(partitions[..|partitions| - 1], suffix), partitions[|partitions| - 1];
      if Outside(p.group, suffix) then before + [p] else before
  }

  function TargetGroups(groups: seq<GroupSpec>, suffix: string): seq<Group> {
    seq(|groups|, (i: nat) requires i < |groups| => Group(groups[i].name + suffix, groups[i].size))
  }

  /** All listed partitions have a size. */
  predicate Known(names: seq<string>, sizes: map<string, nat>) {
    forall n <- names :: n in sizes
  }

  function TargetMembers(names: seq<string>, group: string, suffix: string, sizes: map<string, nat>,
                         align: nat): seq<Partition>
    requires Known(names, sizes)
  {
    seq(|names|, (i: nat) requires i < |names| =>
      assert names[i] in names; Partition(names[i] + suffix, group, Aligned(sizes[names[i]], align)))
  }

  predicate AllKnown(groups: seq<GroupSpec>, sizes: map<string, nat>) {
    forall g <- groups :: Known(g.partitionNames, sizes)
  }

  function TargetPartitions(groups: seq<GroupSpec>, suffix: string, sizes: map<string, nat>, align: nat): seq<Partition>
    requires AllKnown(groups, sizes)
  {
    if groups == [] then []
    else
      var g := groups[|groups| - 1];
      assert g in groups;
      TargetPartitions(groups[..|groups| - 1], suffix, sizes, align) +
      TargetMembers(g.partitionNames, g.name + suffix, suffix, sizes, align)
  }

  /** Every partition belongs to a group that exists. */
  predicate Coherent(b: Metadata) {
    forall p <- b.partitions :: exists g <- b.groups :: g.name == p.group
  }

  /** Neither kind of name meets the group that cannot be removed. */
  lemma SuffixesAreApart(name: string)
    ensures !(EndsWith(name, "_a") && EndsWith(name, "_b"))
    ensures !EndsWith(DEFAULT_GROUP, "_a") && !EndsWith(DEFAULT_GROUP, "_b")
  {
    if EndsWith(name, "_a") {
      assert name[|name| - 2..][1] == "_a"[1];
    }
    assert DEFAULT_GROUP[5..][1] == 't';
    assert "_a"[1] == 'a' && "_b"[1] == 'b';
  }

  // Removing a list of groups keeps what none of the names removes.

  predicate Removes(names: seq<string>, suffix: string, group: string) {
    group in names && EndsWith(group, suffix)
  }

  function GroupsLeft(groups: seq<Group>, names: seq<string>, suffix: string): seq<Group> {
    if groups == [] then []
    else
      var before, g := GroupsLeft(groups[..|groups| - 1], names, suffix), groups[|groups| - 1];
      if Removes(names, suffix, g.name) then before else before + [g]
  }

  function PartitionsLeft(partitions: seq<Partition>, names: seq<string>, suffix: string): seq<Partition> {
    if partitions == [] then []
    else
      var before, p := PartitionsLeft(partitions[..|partitions| - 1], names, suffix), partitions[|partitions| - 1];
      if Removes(names, suffix, p.group) then before else before + [p]
  }

  lemma {:induction false} GroupsLeftStep(groups: seq<Group>, names: seq<string>, suffix: string)
    requires names != []
    ensures var n := |names| - 1;
            GroupsLeft(groups, names, suffix) ==
            if EndsWith(names[n], suffix) then GroupsBut(GroupsLeft(groups, names[..n], suffix), names[n])
            else GroupsLeft(groups, names[..n], suffix)
    decreases |groups|
  {
    var n := |names| - 1;
    if groups != [] {
      var init, g := groups[..|groups| - 1], groups[|groups| - 1];
      GroupsLeftStep(init, names, suffix);
      assert g.name in names <==> g.name in names[..n] || g.name == names[n];
      var kept := GroupsLeft(init, names[..n], suffix);
      assert (kept + [g])[..|kept + [g]| - 1] == kept;
    }
  }

  lemma {:induction false} PartitionsLeftStep(partitions: seq<Partition>, names: seq<string>, suffix: string)
    requires names != []
    ensures var n := |names| - 1;
            PartitionsLeft(partitions, names, suffix) ==
            if EndsWith(names[n], suffix) then PartitionsBut(PartitionsLeft(partitions, names[..n], suffix), names[n])
            else PartitionsLeft(partitions, names[..n], suffix)
    decreases |partitions|
  {
    var n := |names| - 1;
    if partitions != [] {
      var init, p := partitions[..|partitions| - 1], partitions[|partitions| - 1];
      PartitionsLeftStep(init, names, suffix);
      assert p.group in names <==> p.group in names[..n] || p.group == names[n];
      var kept := PartitionsLeft(init, names[..n], suffix);
      assert (kept + [p])[..|kept + [p]| - 1] == kept;
    }
  }

  lemma {:induction false} NoneLeftOut(groups: seq<Group>, partitions: seq<Partition>, suffix: string)
    ensures GroupsLeft(groups, [], suffix) == groups && PartitionsLeft(partitions, [], suffix) == partitions
    decreases |groups| + |partitions|
  {
    if groups != [] {
      NoneLeftOut(groups[..|groups| - 1], partitions, suffix);
    } else if partitions != [] {
      NoneLeftOut(groups, partitions[..|partitions| - 1], suffix);
    }
  }

  lemma {:induction false} RemovalIsFilter(b: Metadata, names: seq<string>, suffix: string)
    requires !EndsWith(DEFAULT_GROUP, suffix)
    ensures RemoveEnding(b, names, suffix) ==
            b.(groups := GroupsLeft(b.groups, names, suffix), partitions := PartitionsLeft(b.partitions, names, suffix))
    decreases |names|
  {
    if names == [] {
      NoneLeftOut(b.groups, b.partitions, suffix);
    } else {
      RemovalIsFilter(b, names[..|names| - 1], suffix);
      GroupsLeftStep(b.groups, names, suffix);
      PartitionsLeftStep(b.partitions, names, suffix);
    }
  }

  lemma {:induction false} GroupsLeftOutside(groups: seq<Group>, names: seq<string>, suffix: string)
    requires forall g <- groups :: g.name in names || g.name == COW_GROUP
    ensures GroupsLeft(GroupsBut(groups, COW_GROUP), names, suffix) == GroupsOutside(groups, suffix)
    decreases |groups|
  {
    if groups != [] {
      var init, g := groups[..|groups| - 1], groups[|groups| - 1];
      GroupsLeftOutside(init, names, suffix);
      var kept := GroupsBut(init, COW_GROUP);
      assert (kept + [g])[..|kept + [g]| - 1] == kept;
      assert g in groups;
    }
  }

  lemma {:induction false} PartitionsLeftOutside(partitions: seq<Partition>, names: seq<string>, suffix: string)
    requires forall p <- partitions :: p.group in names || p.group == COW_GROUP
    ensures PartitionsLeft(PartitionsBut(partitions, COW_GROUP), names, suffix) == PartitionsOutside(partitions, suffix)
    decreases |partitions|
  {
    if partitions != [] {
      var init, p := partitions[..|partitions| - 1], partitions[|partitions| - 1];
      PartitionsLeftOutside(init, names, suffix);
      var kept := PartitionsBut(init, COW_GROUP);
      assert (kept + [p])[..|kept + [p]| - 1] == kept;
      assert p in partitions;
    }
  }

  lemma {:induction false} InBut(groups: seq<Group>, name: string, g: Group)
    ensures g in GroupsBut(groups, name) <==> g in groups && g.name != name
    decreases |groups|
  {
    if groups != [] {
      var init, last := groups[..|groups| - 1], groups[|groups| - 1];
      InBut(init, name, g);
      assert g in groups <==> g in init || g == last;
    }
  }

  lemma InNames(groups: seq<Group>, g: Group)
    requires g in groups
    ensures g.name in Names(groups)
  {
    var i :| 0 <= i < |groups| && groups[i] == g;
    assert Names(groups)[i] == g.name;
  }

  /** Before the manifest's groups are added, exactly those of the target slot and the COW group are gone. */
  lemma ClearedIsOutside(b: Metadata, suffix: string)
    requires Coherent(b) && !EndsWith(DEFAULT_GROUP, suffix)
    ensures Cleared(b, suffix) ==
            b.(groups := GroupsOutside(b.groups, suffix), partitions := PartitionsOutside(b.partitions, suffix))
  {
    var t := RemoveGroup(b, COW_GROUP);
    var names := Names(t.groups);
    forall g | g in b.groups
      ensures g.name in names || g.name == COW_GROUP
    {
      InBut(b.groups, COW_GROUP, g);
      if g.name != COW_GROUP {
        InNames(t.groups, g);
      }
    }
    RemovalIsFilter(t, names, suffix);
    GroupsLeftOutside(b.groups, names, suffix);
    PartitionsLeftOutside(b.partitions, names, suffix);
  }

  lemma MembersExtend(names: seq<string>, group: string, suffix: string, sizes: map<string, nat>, align: nat)
    requires names != [] && Known(names, sizes)
    ensures Known(names[..|names| - 1], sizes) && names[|names| - 1] in sizes
    ensures var n := |names| - 1;
            TargetMembers(names, group, suffix, sizes, align) ==
            TargetMembers(names[..n], group, suffix, sizes, align) +
            [Partition(names[n] + suffix, group, Aligned(sizes[names[n]], align))]
  {
    assert names[|names| - 1] in names;
  }

  lemma {:induction false} MembersAdded(b: Metadata, names: seq<string>, group: string, suffix: string,
                                        sizes: map<string, nat>)
    requires AddMembers(b, names, group, suffix, sizes).Some?
    ensures Known(names, sizes)
    ensures AddMembers(b, names, group, suffix, sizes).value ==
            b.(partitions := b.partitions + TargetMembers(names, group, suffix, sizes, b.align))
    decreases |names|
  {
    if names == [] {
      assert b.partitions + [] == b.partitions;
    } else {
      var n := |names| - 1;
      var init := names[..n];
      MembersAdded(b, init, group, suffix, sizes);
      assert forall x :: x in names <==> x in init || x == names[n];
      MembersExtend(names, group, suffix, sizes, b.align);
      var before := TargetMembers(init, group, suffix, sizes, b.align);
      var p := Partition(names[n] + suffix, group, Aligned(sizes[names[n]], b.align));
      assert (b.partitions + before) + [p] == b.partitions + (before + [p]);
    }
  }

  lemma GroupsExtend(groups: seq<GroupSpec>, suffix: string)
    requires groups != []
    ensures var n := |groups| - 1;
            TargetGroups(groups, suffix) ==
            TargetGroups(groups[..n], suffix) + [Group(groups[n].name + suffix, groups[n].size)]
  {
  }

  lemma {:induction false} GroupsAdded(b: Metadata, groups: seq<GroupSpec>, suffix: string, sizes: map<string, nat>)
    requires AddGroups(b, groups, suffix, sizes).Some?
    ensures AllKnown(groups, sizes)
    ensures AddGroups(b, groups, suffix, sizes).value ==
            b.(groups := b.groups + TargetGroups(groups, suffix),
               partitions := b.partitions + TargetPartitions(groups, suffix, sizes, b.align))
    decreases |groups|
  {
    if groups == [] {
      assert b.groups + [] == b.groups && b.partitions + [] == b.partitions;
    } else {
      var n := |groups| - 1;
      var init, g := groups[..n], groups[n];
      GroupsAdded(b, init, suffix, sizes);
      var before := AddGroups(b, init, suffix, sizes).value;
      var added := GroupAdded(before, g.name + suffix, g.size).value;
      MembersAdded(added, g.partitionNames, g.name + suffix, suffix, sizes);
      assert forall x :: x in groups <==> x in init || x == g;
      GroupsExtend(groups, suffix);
      Regroup(b.groups, TargetGroups(init, suffix), [Group(g.name + suffix, g.size)]);
      Regroup(b.partitions, TargetPartitions(init, suffix, sizes, b.align),
              TargetMembers(g.partitionNames, g.name + suffix, suffix, sizes, b.align));
    }
  }

  lemma AlignedIsEnough(size: nat, align: nat)
    ensures size <= Aligned(size, align) && (align > 0 ==> Aligned(size, align) < size + align)
  {
    if align > 0 {
      var n := size + align - 1;
      assert n == n / align * align + n % align;
    }
  }

  /** On success the groups and partitions are those outside the target slot and the COW group, untouched
      and in order, followed by exactly the manifest's groups with their sizes and their partitions with
      the manifest's sizes rounded up. */
  lemma MetadataIsRebuilt(b: Metadata, d: Device, slot: nat, manifest: Manifest)
    requires slot < 2 && Coherent(b) && Updated(b, d, slot, manifest).Some?
    ensures var suffix, sizes := SlotSuffix(slot), Sizes(manifest.partitions);
            && AllKnown(manifest.groups, sizes)
            && Updated(b, d, slot, manifest).value == b.(
                 groups := GroupsOutside(b.groups, suffix) + TargetGroups(manifest.groups, suffix),
                 partitions := PartitionsOutside(b.partitions, suffix) +
                               TargetPartitions(manifest.groups, suffix, sizes, b.align))
  {
    var suffix := SlotSuffix(slot);
    SuffixesAreApart("");
    ClearedIsOutside(b, suffix);
    GroupsAdded(Cleared(b, suffix), manifest.groups, suffix, Sizes(manifest.partitions));
  }

  lemma {:induction false} InOutside(groups: seq<Group>, suffix: string, g: Group)
    ensures g in GroupsOutside(groups, suffix) <==> g in groups && Outside(g.name, suffix)
    decreases |groups|
  {
    if groups != [] {
      InOutside(groups[..|groups| - 1], suffix, g);
      assert g in groups <==> g in groups[..|groups| - 1] || g == groups[|groups| - 1];
    }
  }

  lemma {:induction false} PartitionInOutside(partitions: seq<Partition>, suffix: string, p: Partition)
    ensures p in PartitionsOutside(partitions, suffix) <==> p in partitions && Outside(p.group, suffix)
    decreases |partitions|
  {
    if partitions != [] {
      PartitionInOutside(partitions[..|partitions| - 1], suffix, p);
      assert p in partitions <==> p in partitions[..|partitions| - 1] || p == partitions[|partitions| - 1];
    }
  }

  lemma SuffixEnds(name: string, suffix: string)
    ensures EndsWith(name + suffix, suffix)
  {
  }

  lemma TargetGroupEnds(groups: seq<GroupSpec>, suffix: string, g: Group)
    requires g in TargetGroups(groups, suffix)
    ensures EndsWith(g.name, suffix)
  {
    var i :| 0 <= i < |groups| && TargetGroups(groups, suffix)[i] == g;
    SuffixEnds(groups[i].name, suffix);
  }

  lemma {:induction false} TargetPartitionEnds(groups: seq<GroupSpec>, suffix: string, sizes: map<string, nat>,
                                               align: nat, p: Partition)
    requires AllKnown(groups, sizes) && p in TargetPartitions(groups, suffix, sizes, align)
    ensures EndsWith(p.group, suffix) && EndsWith(p.name, suffix)
    decreases |groups|
  {
    if groups != [] {
      var g := groups[|groups| - 1];
      assert g in groups;
      var members := TargetMembers(g.partitionNames, g.name + suffix, suffix, sizes, align);
      if p in members {
        SuffixEnds(g.name, suffix);
        var i :| 0 <= i < |members| && members[i] == p;
        SuffixEnds(g.partitionNames[i], suffix);
      } else {
        TargetPartitionEnds(groups[..|groups| - 1], suffix, sizes, align, p);
      }
    }
  }

  /** The same in terms of membership: what ends with the target suffix is the manifest's and nothing else,
      and what is outside the target slot and the COW group is there after exactly if it was before. */
  lemma TargetIsManifest(b: Metadata, d: Device, slot: nat, manifest: Manifest, g: Group, p: Partition)
    requires slot < 2 && Coherent(b) && Updated(b, d, slot, manifest).Some?
    ensures var suffix, sizes := SlotSuffix(slot), Sizes(manifest.partitions);
            var t := Updated(b, d, slot, manifest).value;
            && (EndsWith(g.name, suffix) ==> (g in t.groups <==> g in TargetGroups(manifest.groups, suffix)))
            && (Outside(g.name, suffix) ==> (g in t.groups <==> g in b.groups))
            && AllKnown(manifest.groups, sizes)
            && (EndsWith(p.group, suffix) ==>
                  (p in t.partitions <==> p in TargetPartitions(manifest.groups, suffix, sizes, b.align)))
            && (Outside(p.group, suffix) ==> (p in t.partitions <==> p in b.partitions))
  {
    var suffix, sizes := SlotSuffix(slot), Sizes(manifest.partitions);
    MetadataIsRebuilt(b, d, slot, manifest);
    InOutside(b.groups, suffix, g);
    PartitionInOutside(b.partitions, suffix, p);
    if g in TargetGroups(manifest.groups, suffix) {
      TargetGroupEnds(manifest.groups, suffix, g);
    }
    if p in TargetPartitions(manifest.groups, suffix, sizes, b.align) {
      TargetPartitionEnds(manifest.groups, suffix, sizes, b.align, p);
    }
  }

  // ---------------------------------------------------------------------------
  // Limits are kept

  predicate Distinct(groups: seq<Group>) {
    groups == [] ||
    (Distinct(groups[..|groups| - 1]) && FindGroup(groups[..|groups| - 1], groups[|groups| - 1].name).None?)
  }

  /** No group and not the device holds more than it may. */
  predicate Within(b: Metadata) {
    && Distinct(b.groups) && Coherent(b)
    && Used(b.partitions) <= b.space
    && forall g <- b.groups :: g.maximum > 0 ==> UsedBy(b.partitions, g.name) <= g.maximum
  }

  lemma {:induction false} FoundGroup(groups: seq<Group>, name: string)
    ensures var f := FindGroup(groups, name);
            if f.Some? then f.value in groups && f.value.name == name else forall g <- groups :: g.name != name
    decreases |groups|
  {
    if groups != [] {
      var init, last := groups[..|groups| - 1], groups[|groups| - 1];
      FoundGroup(init, name);
      assert forall g :: g in groups <==> g in init || g == last;
    }
  }

  lemma {:induction false} FindsIt(groups: seq<Group>, g: Group)
    requires Distinct(groups) && g in groups
    ensures FindGroup(groups, g.name) == Some(g)
    decreases |groups|
  {
    var init, last := groups[..|groups| - 1], groups[|groups| - 1];
    FoundGroup(init, last.name);
    if g != last {
      assert g in init;
      FindsIt(init, g);
    }
  }

  lemma {:induction false} ButUsesLess(partitions: seq<Partition>, name: string, group: string)
    ensures UsedBy(PartitionsBut(partitions, name), group) <= UsedBy(partitions, group)
    ensures Used(PartitionsBut(partitions, name)) <= Used(partitions)
    decreases |partitions|
  {
    if partitions != [] {
      var init, p := partitions[..|partitions| - 1], partitions[|partitions| - 1];
      ButUsesLess(init, name, group);
      Extend(PartitionsBut(init, name), p);
    }
  }

  lemma {:induction false} InPartitionsBut(partitions: seq<Partition>, name: string, p: Partition)
    ensures p in PartitionsBut(partitions, name) <==> p in partitions && p.group != name
    decreases |partitions|
  {
    if partitions != [] {
      var init, last := partitions[..|partitions| - 1], partitions[|partitions| - 1];
      InPartitionsBut(init, name, p);
      assert p in partitions <==> p in init || p == last;
    }
  }

  lemma {:induction false} ButFindsNone(groups: seq<Group>, name: string, other: string)
    requires FindGroup(groups, other).None?
    ensures FindGroup(GroupsBut(groups, name), other).None?
    decreases |groups|
  {
    if groups != [] {
      var init, g := groups[..|groups| - 1], groups[|groups| - 1];
      ButFindsNone(init, name, other);
      Extend(GroupsBut(init, name), g);
    }
  }

  lemma {:induction false} ButDistinct(groups: seq<Group>, name: string)
    requires Distinct(groups)
    ensures Distinct(GroupsBut(groups, name))
    decreases |groups|
  {
    if groups != [] {
      var init, g := groups[..|groups| - 1], groups[|groups| - 1];
      ButDistinct(init, name);
      ButFindsNone(init, name, g.name);
      Extend(GroupsBut(init, name), g);
    }
  }

  lemma RemovalIsWithin(b: Metadata, name: string)
    requires Within(b)
    ensures Within(RemoveGroup(b, name))
  {
    var groups, partitions := GroupsBut(b.groups, name), PartitionsBut(b.partitions, name);
    ButDistinct(b.groups, name);
    ButUsesLess(b.partitions, name, "");
    forall p | p in partitions
      ensures exists g <- groups :: g.name == p.group
    {
      InPartitionsBut(b.partitions, name, p);
      var g :| g in b.groups && g.name == p.group;
      InBut(b.groups, name, g);
    }
    forall g | g in groups && g.maximum > 0
      ensures UsedBy(partitions, g.name) <= g.maximum
    {
      InBut(b.groups, name, g);
      ButUsesLess(b.partitions, name, g.name);
    }
  }

  lemma {:induction false} RemovalsAreWithin(b: Metadata, names: seq<string>, suffix: string)
    requires Within(b)
    ensures Within(RemoveEnding(b, names, suffix))
    decreases |names|
  {
    if names != [] {
      RemovalsAreWithin(b, names[..|names| - 1], suffix);
      RemovalIsWithin(RemoveEnding(b, names[..|names| - 1], suffix), names[|names| - 1]);
    }
  }

  /** Deleting the groups of a slot keeps every limit. */
  lemma DeletionIsWithin(b: Metadata, suffix: string)
    requires Within(b)
    ensures Within(DeleteGroups(b, suffix))
  {
    RemovalsAreWithin(b, Names(b.groups), suffix);
  }

  lemma ClearedIsWithin(b: Metadata, suffix: string)
    requires Within(b)
    ensures Within(Cleared(b, suffix))
  {
    RemovalIsWithin(b, COW_GROUP);
    DeletionIsWithin(RemoveGroup(b, COW_GROUP), suffix);
  }

  lemma {:induction false} UnusedGroup(partitions: seq<Partition>, name: string)
    requires forall p <- partitions :: p.group != name
    ensures UsedBy(partitions, name) == 0
    decreases |partitions|
  {
    if partitions != [] {
      assert partitions[|partitions| - 1] in partitions;
      UnusedGroup(partitions[..|partitions| - 1], name);
    }
  }

  lemma NewGroupIsWithin(b: Metadata, name: string, maximum: nat)
    requires Within(b) && GroupAdded(b, name, maximum).Some?
    ensures Within(GroupAdded(b, name, maximum).value)
  {
    var groups := b.groups + [Group(name, maximum)];
    assert groups[..|groups| - 1] == b.groups;
    FoundGroup(b.groups, name);
    forall p | p in b.partitions
      ensures p.group != name && exists g <- groups :: g.name == p.group
    {
      var g :| g in b.groups && g.name == p.group;
      assert g in groups;
    }
    UnusedGroup(b.partitions, name);
  }

  lemma UseMore(partitions: seq<Partition>, p: Partition, group: string)
    ensures Used(partitions + [p]) == Used(partitions) + p.size
    ensures UsedBy(partitions + [p], group) == UsedBy(partitions, group) + if p.group == group then p.size else 0
  {
    assert (partitions + [p])[..|partitions + [p]| - 1] == partitions;
  }

  /** What a member that was added looks like, and that there was room for it. */
  lemma MemberHadRoom(b: Metadata, name: string, group: string, suffix: string, sizes: map<string, nat>)
    requires AddMember(b, name, group, suffix, sizes).Some?
    ensures name in sizes
    ensures var p := Partition(name + suffix, group, Aligned(sizes[name], b.align));
            var f := FindGroup(b.groups, group);
            && AddMember(b, name, group, suffix, sizes).value == b.(partitions := b.partitions + [p])
            && f.Some?
            && (p.size > 0 ==>
                  && Used(b.partitions) + p.size <= b.space
                  && (f.value.maximum > 0 ==> UsedBy(b.partitions, group) + p.size <= f.value.maximum))
  {
    var added := Partition(name + suffix, group, 0);
    var p := added.(size := Aligned(sizes[name], b.align));
    UseMore(b.partitions, added, group);
    assert (b.partitions + [added])[|b.partitions| := p] == b.partitions + [p];
  }

  lemma MemberIsWithin(b: Metadata, name: string, group: string, suffix: string, sizes: map<string, nat>)
    requires Within(b) && AddMember(b, name, group, suffix, sizes).Some?
    ensures Within(AddMember(b, name, group, suffix, sizes).value)
  {
    MemberHadRoom(b, name, group, suffix, sizes);
    var p := Partition(name + suffix, group, Aligned(sizes[name], b.align));
    FoundGroup(b.groups, group);
    forall g | g in b.groups && g.maximum > 0
      ensures UsedBy(b.partitions + [p], g.name) <= g.maximum
    {
      FindsIt(b.groups, g);
      UseMore(b.partitions, p, g.name);
    }
    UseMore(b.partitions, p, group);
  }

  lemma {:induction false} MembersAreWithin(b: Metadata, names: seq<string>, group: string, suffix: string,
                                            sizes: map<string, nat>)
    requires Within(b) && AddMembers(b, names, group, suffix, sizes).Some?
    ensures Within(AddMembers(b, names, group, suffix, sizes).value)
    decreases |names|
  {
    if names != [] {
      var init := names[..|names| - 1];
      MembersAreWithin(b, init, group, suffix, sizes);
      MemberIsWithin(AddMembers(b, init, group, suffix, sizes).value, names[|names| - 1], group, suffix, sizes);
    }
  }

  lemma {:induction false} GroupsAreWithin(b: Metadata, groups: seq<GroupSpec>, suffix: string, sizes: map<string, nat>)
    requires Within(b) && AddGroups(b, groups, suffix, sizes).Some?
    ensures Within(AddGroups(b, groups, suffix, sizes).value)
    decreases |groups|
  {
    if groups != [] {
      var init, g := groups[..|groups| - 1], groups[|groups| - 1];
      GroupsAreWithin(b, init, suffix, sizes);
      var before := AddGroups(b, init, suffix, sizes).value;
      NewGroupIsWithin(before, g.name + suffix, g.size);
      var added := GroupAdded(before, g.name + suffix, g.size).value;
      MembersAreWithin(added, g.partitionNames, g.name + suffix, suffix, sizes);
    }
  }

  /** Updated metadata keeps every group within its maximum and the whole within the device. */
  lemma UpdateIsWithin(b: Metadata, d: Device, slot: nat, manifest: Manifest)
    requires slot < 2 && Within(b) && Updated(b, d, slot, manifest).Some?
    ensures Within(Updated(b, d, slot, manifest).value)
  {
    ClearedIsWithin(b, SlotSuffix(slot));
    GroupsAreWithin(Cleared(b, SlotSuffix(slot)), manifest.groups, SlotSuffix(slot), Sizes(manifest.partitions));
  }
}
