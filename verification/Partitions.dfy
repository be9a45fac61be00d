/**
 Dynamic partition metadata: the groups and partitions of one super partition, and how an update
 rebuilds those of the target slot within the space limit.
 */
module Partitions {
  import opened Common

  const COW_GROUP: string := "cow"
  const DEFAULT_GROUP: string := "default"

  /** A maximum of 0 is no limit. */
  datatype Group = Group(name: string, maximum: nat)

  datatype Partition = Partition(name: string, group: string, size: nat)

  /** `space` is the allocatable space; sizes are multiples of `align`. */
  datatype Metadata = Metadata(groups: seq<Group>, partitions: seq<Partition>, space: nat, align: nat)

  datatype GroupSpec = GroupSpec(name: string, size: nat, partitionNames: seq<string>)

  datatype PartitionSpec = PartitionSpec(name: string, size: nat)

  datatype Manifest = Manifest(groups: seq<GroupSpec>, partitions: seq<PartitionSpec>)

  predicate EndsWith(s: string, suffix: string) {
    |s| >= |suffix| && s[|s| - |suffix|..] == suffix
  }

  function SlotSuffix(slot: nat): string
    requires slot < 2
  {
    if slot == 0 then "_a" else "_b"
  }

  // ---------------------------------------------------------------------------
  // The metadata builder

  function FindGroup(groups: seq<Group>, name: string): Option<Group> {
    if groups == [] then None
    else if groups[|groups| - 1].name == name then Some(groups[|groups| - 1])
    else FindGroup(groups[..|groups| - 1], name)
  }

  predicate HasPartition(partitions: seq<Partition>, name: string) {
    exists p <- partitions :: p.name == name
  }

  function GroupsBut(groups: seq<Group>, name: string): seq<Group> {
    if groups == [] then []
    else
      var before, g := GroupsBut(groups[..|groups| - 1], name), groups[|groups| - 1];
      if g.name == name then before else before + [g]
  }

  function PartitionsBut(partitions: seq<Partition>, group: string): seq<Partition> {
    if partitions == [] then []
    else
      var before, p := PartitionsBut(partitions[..|partitions| - 1], group), partitions[|partitions| - 1];
      if p.group == group then before else before + [p]
  }

  /** The space the partitions of a group take. */
  function UsedBy(partitions: seq<Partition>, group: string): nat {
    if partitions == [] then 0
    else
      var p := partitions[|partitions| - 1];
      UsedBy(partitions[..|partitions| - 1], group) + if p.group == group then p.size else 0
  }

  function Used(partitions: seq<Partition>): nat {
    if partitions == [] then 0 else Used(partitions[..|partitions| - 1]) + partitions[|partitions| - 1].size
  }

  function Aligned(size: nat, align: nat): nat {
    if align == 0 then size else (size + align - 1) / align * align
  }

  function RemoveGroup(b: Metadata, name: string): Metadata {
    if name == DEFAULT_GROUP then b
    else b.(groups := GroupsBut(b.groups, name), partitions := PartitionsBut(b.partitions, name))
  }

  function GroupAdded(b: Metadata, name: string, maximum: nat): Option<Metadata> {
    if FindGroup(b.groups, name).Some? then None
    else Some(b.(groups := b.groups + [Group(name, maximum)]))
  }

  function PartitionAdded(b: Metadata, name: string, group: string): Option<Metadata> {
    if name == "" || HasPartition(b.partitions, name) || FindGroup(b.groups, group).None? then None
    else Some(b.(partitions := b.partitions + [Partition(name, group, 0)]))
  }

  /** The i-th partition may get the size: its group and the device have room for it. */
  predicate HasRoom(b: Metadata, i: nat, size: nat)
    requires i < |b.partitions|
  {
    var p := b.partitions[i];
    var g := FindGroup(b.groups, p.group);
    && (g.Some? && g.value.maximum > 0 ==> UsedBy(b.partitions, p.group) - p.size + size <= g.value.maximum)
    && Used(b.partitions) - p.size + size <= b.space
  }

  function Resized(b: Metadata, i: nat, size: nat): Option<Metadata>
    requires i < |b.partitions|
  {
    var p, aligned := b.partitions[i], Aligned(size, b.align);
    if aligned > p.size && !HasRoom(b, i, aligned) then None
    else Some(b.(partitions := b.partitions[i := p.(size := aligned)]))
  }

  // ---------------------------------------------------------------------------
  // Updating the metadata

  datatype VirtualAb = NoVirtualAb | LaunchVirtualAb | RetrofitVirtualAb

  datatype Device = Device(retrofitDynamicPartitions: bool, virtualAb: VirtualAb, recovery: bool)

  datatype SpaceLimit = ErrorIfExceededSuper | WarnIfExceededHalf | ErrorIfExceededHalf

  function GetSpaceLimit(d: Device, useSnapshot: bool): SpaceLimit {
    if d.retrofitDynamicPartitions then ErrorIfExceededSuper
    else if d.virtualAb == NoVirtualAb then ErrorIfExceededHalf
    else if useSnapshot then ErrorIfExceededSuper
    else if d.recovery then ErrorIfExceededSuper
    else if d.virtualAb != RetrofitVirtualAb then ErrorIfExceededSuper
    else WarnIfExceededHalf
  }

  function SumOf(groups: seq<GroupSpec>): nat {
    if groups == [] then 0 else SumOf(groups[..|groups| - 1]) + groups[|groups| - 1].size
  }

  /** The sum as a 64-bit word holds it. */
  function WrappedSum(groups: seq<GroupSpec>): nat {
    if groups == [] then 0
    else (WrappedSum(groups[..|groups| - 1]) + groups[|groups| - 1].size) % WORD
  }

  predicate SpaceSuffices(limit: SpaceLimit, groups: seq<GroupSpec>, space: nat) {
    match limit
    case ErrorIfExceededHalf => WrappedSum(groups) <= space / 2
    case _ => WrappedSum(groups) <= space
  }

  /** The size of each partition; of entries with the same name the first counts. */
  function Sizes(partitions: seq<PartitionSpec>): map<string, nat> {
    if partitions == [] then map[]
    else
      var before, p := Sizes(partitions[..|partitions| - 1]), partitions[|partitions| - 1];
      if p.name in before then before else before[p.name := p.size]
  }

  function RemoveEnding(b: Metadata, names: seq<string>, suffix: string): Metadata {
    if names == [] then b
    else
      var before, name := RemoveEnding(b, names[..|names| - 1], suffix), names[|names| - 1];
      if EndsWith(name, suffix) then RemoveGroup(before, name) else before
  }

  function Names(groups: seq<Group>): seq<string> {
    seq(|groups|, (i: nat) requires i < |groups| => groups[i].name)
  }

  function DeleteGroups(b: Metadata, suffix: string): Metadata {
    RemoveEnding(b, Names(b.groups), suffix)
  }

  function AddMember(b: Metadata, name: string, group: string, suffix: string,
                     sizes: map<string, nat>): Option<Metadata> {
    if name !in sizes then None
    else
      var added := PartitionAdded(b, name + suffix, group);
      if added.None? then None
      else
        var resized := Resized(added.value, |b.partitions|, sizes[name]);
        if resized.None? || resized.value.partitions[|b.partitions|].size < sizes[name] then None
        else resized
  }

  function AddMembers(b: Metadata, names: seq<string>, group: string, suffix: string,
                      sizes: map<string, nat>): Option<Metadata> {
    if names == [] then Some(b)
    else
      var before := AddMembers(b, names[..|names| - 1], group, suffix, sizes);
      if before.None? then None else AddMember(before.value, names[|names| - 1], group, suffix, sizes)
  }

  function AddGroupSpec(b: Metadata, g: GroupSpec, suffix: string, sizes: map<string, nat>): Option<Metadata> {
    var added := GroupAdded(b, g.name + suffix, g.size);
    if added.None? then None else AddMembers(added.value, g.partitionNames, g.name + suffix, suffix, sizes)
  }

  function AddGroups(b: Metadata, groups: seq<GroupSpec>, suffix: string, sizes: map<string, nat>): Option<Metadata> {
    if groups == [] then Some(b)
    else
      var before := AddGroups(b, groups[..|groups| - 1], suffix, sizes);
      if before.None? then None else AddGroupSpec(before.value, groups[|groups| - 1], suffix, sizes)
  }

  function Cleared(b: Metadata, suffix: string): Metadata {
    DeleteGroups(RemoveGroup(b, COW_GROUP), suffix)
  }

  /** The metadata with the target slot rebuilt after the manifest, or nothing if it does not fit. */
  function Updated(b: Metadata, d: Device, slot: nat, manifest: Manifest): Option<Metadata>
    requires slot < 2
  {
    var cleared := Cleared(b, SlotSuffix(slot));
    if !SpaceSuffices(GetSpaceLimit(d, false), manifest.groups, cleared.space) then None
    else AddGroups(cleared, manifest.groups, SlotSuffix(slot), Sizes(manifest.partitions))
  }

  // ---------------------------------------------------------------------------
  // In place

  /** The builder that is changed in place. */
  class MetadataBuilder {
    var groups: seq<Group>
    var partitions: seq<Partition>
    const space: nat
    const align: nat

    ghost function View(): Metadata
      reads this
    {
      Metadata(groups, partitions, space, align)
    }

    constructor (groups: seq<Group>, partitions: seq<Partition>, space: nat, align: nat)
      ensures View() == Metadata(groups, partitions, space, align)
    {
      this.groups, this.partitions, this.space, this.align := groups, partitions, space, align;
    }

    method RemoveGroupAndPartitions(name: string)
      modifies this
      ensures View() == RemoveGroup(old(View()), name)
    {
      if name == DEFAULT_GROUP {
        return;
      }
      partitions := PartitionsBut(partitions, name);
      groups := GroupsBut(groups, name);
    }

    method AddGroup(name: string, maximum: nat) returns (ok: bool)
      modifies this
      ensures var r := GroupAdded(old(View()), name, maximum);
              ok == r.Some? && View() == if ok then r.value else old(View())
    {
      if FindGroup(groups, name).Some? {
        return false;
      }
      groups := groups + [Group(name, maximum)];
      return true;
    }

    /** Returns the position of the new partition. */
    method AddPartition(name: string, group: string) returns (p: Option<nat>)
      modifies this
      ensures var r := PartitionAdded(old(View()), name, group);
              p.Some? == r.Some? && View() == if p.Some? then r.value else old(View())
      ensures p.Some? ==> p.value == old(|partitions|)
    {
      if name == "" || FindGroup(groups, group).None? {
        return None;
      }
      var i := 0;
      while i < |partitions|
        invariant i <= |partitions|
        invariant forall k :: 0 <= k < i ==> partitions[k].name != name
      {
        if partitions[i].name == name {
          return None;
        }
        i := i + 1;
      }
      partitions := partitions + [Partition(name, group, 0)];
      return Some(i);
    }

    method ResizePartition(p: nat, size: nat) returns (ok: bool)
      requires p < |partitions|
      modifies this
      ensures var r := Resized(old(View()), p, size);
              ok == r.Some? && View() == if ok then r.value else old(View())
    {
      var aligned := Aligned(size, align);
      if aligned > partitions[p].size {
        var group := FindGroup(groups, partitions[p].group);
        if group.Some? && group.value.maximum > 0 &&
           UsedBy(partitions, partitions[p].group) - partitions[p].size + aligned > group.value.maximum {
          return false;
        }
        if Used(partitions) - partitions[p].size + aligned > space {
          return false;
        }
      }
      partitions := partitions[p := partitions[p].(size := aligned)];
      return true;
    }
  }

  method DeleteGroupsWithSuffix(builder: MetadataBuilder, suffix: string)
    modifies builder
    ensures builder.View() == DeleteGroups(old(builder.View()), suffix)
  {
    var names := Names(builder.groups);
    var i := 0;
    while i < |names|
      invariant i <= |names|
      invariant builder.View() == RemoveEnding(old(builder.View()), names[..i], suffix)
    {
      assert names[..i + 1][..i] == names[..i];
      if EndsWith(names[i], suffix) {
        builder.RemoveGroupAndPartitions(names[i]);
      }
      i := i + 1;
    }
    assert names[..i] == names;
  }

  method CheckSuperPartitionAllocatableSpace(builder: MetadataBuilder, d: Device, groups: seq<GroupSpec>,
                                             useSnapshot: bool) returns (ok: bool)
    ensures ok == SpaceSuffices(GetSpaceLimit(d, useSnapshot), groups, builder.space)
  {
    var sum, i := 0, 0;
    while i < |groups|
      invariant i <= |groups| && sum == WrappedSum(groups[..i])
    {
      assert groups[..i + 1][..i] == groups[..i];
      sum := (sum + groups[i].size) % WORD;
      i := i + 1;
    }
    assert groups[..i] == groups;
    match GetSpaceLimit(d, useSnapshot)
    case ErrorIfExceededHalf => return sum <= builder.space / 2;
    case WarnIfExceededHalf => return sum <= builder.space;
    case ErrorIfExceededSuper => return sum <= builder.space;
  }

  method CollectSizes(partitions: seq<PartitionSpec>) returns (sizes: map<string, nat>)
    ensures sizes == Sizes(partitions)
  {
    sizes := map[];
    var i := 0;
    while i < |partitions|
      invariant i <= |partitions| && sizes == Sizes(partitions[..i])
    {
      assert partitions[..i + 1][..i] == partitions[..i];
      if partitions[i].name !in sizes {
        sizes := sizes[partitions[i].name := partitions[i].size];
      }
      i := i + 1;
    }
    assert partitions[..i] == partitions;
  }

  lemma {:induction false} MembersFail(b: Metadata, names: seq<string>, i: nat, group: string, suffix: string,
                                       sizes: map<string, nat>)
    requires i <= |names| && AddMembers(b, names[..i], group, suffix, sizes).None?
    ensures AddMembers(b, names, group, suffix, sizes).None?
    decreases |names|
  {
    if i == |names| {
      assert names[..i] == names;
    } else {
      var init := names[..|names| - 1];
      assert init[..i] == names[..i];
      MembersFail(b, init, i, group, suffix, sizes);
    }
  }

  lemma {:induction false} GroupsFail(b: Metadata, groups: seq<GroupSpec>, i: nat, suffix: string,
                                      sizes: map<string, nat>)
    requires i <= |groups| && AddGroups(b, groups[..i], suffix, sizes).None?
    ensures AddGroups(b, groups, suffix, sizes).None?
    decreases |groups|
  {
    if i == |groups| {
      assert groups[..i] == groups;
    } else {
      var init := groups[..|groups| - 1];
      assert init[..i] == groups[..i];
      GroupsFail(b, init, i, suffix, sizes);
    }
  }

  method AddOnePartition(builder: MetadataBuilder, name: string, group: string, suffix: string,
                         sizes: map<string, nat>) returns (ok: bool)
    modifies builder
    ensures var r := AddMember(old(builder.View()), name, group, suffix, sizes);
            ok == r.Some? && (ok ==> builder.View() == r.value)
  {
    if name !in sizes {
      return false;
    }
    var p := builder.AddPartition(name + suffix, group);
    if p.None? {
      return false;
    }
    ok := builder.ResizePartition(p.value, sizes[name]);
    if !ok {
      return false;
    }
    if builder.partitions[p.value].size < sizes[name] {
      return false;
    }
    return true;
  }

  method AddGroupPartitions(builder: MetadataBuilder, names: seq<string>, group: string, suffix: string,
                            sizes: map<string, nat>) returns (ok: bool)
    modifies builder
    ensures var r := AddMembers(old(builder.View()), names, group, suffix, sizes);
            ok == r.Some? && (ok ==> builder.View() == r.value)
  {
    ghost var b := builder.View();
    var i := 0;
    while i < |names|
      invariant i <= |names| && AddMembers(b, names[..i], group, suffix, sizes) == Some(builder.View())
    {
      var k := i + 1;
      assert names[..k][..i] == names[..i];
      ok := AddOnePartition(builder, names[i], group, suffix, sizes);
      if !ok {
        MembersFail(b, names, k, group, suffix, sizes);
        return false;
      }
      i := k;
    }
    assert names[..i] == names;
    return true;
  }

  method AddOneGroup(builder: MetadataBuilder, g: GroupSpec, suffix: string, sizes: map<string, nat>) returns (ok: bool)
    modifies builder
    ensures var r := AddGroupSpec(old(builder.View()), g, suffix, sizes);
            ok == r.Some? && (ok ==> builder.View() == r.value)
  {
    ok := builder.AddGroup(g.name + suffix, g.size);
    if !ok {
      return false;
    }
    ok := AddGroupPartitions(builder, g.partitionNames, g.name + suffix, suffix, sizes);
  }

  method AddManifestGroups(builder: MetadataBuilder, groups: seq<GroupSpec>, suffix: string,
                           sizes: map<string, nat>) returns (ok: bool)
    modifies builder
    ensures var r := AddGroups(old(builder.View()), groups, suffix, sizes);
            ok == r.Some? && (ok ==> builder.View() == r.value)
  {
    ghost var b := builder.View();
    var i := 0;
    while i < |groups|
      invariant i <= |groups| && AddGroups(b, groups[..i], suffix, sizes) == Some(builder.View())
    {
      var k := i + 1;
      assert groups[..k][..i] == groups[..i];
      ok := AddOneGroup(builder, groups[i], suffix, sizes);
      if !ok {
        GroupsFail(b, groups, k, suffix, sizes);
        return false;
      }
      i := k;
    }
    assert groups[..i] == groups;
    return true;
  }

  /** Aborts on a Virtual A/B device that must use snapshots. */
  method UpdatePartitionMetadata(builder: MetadataBuilder, d: Device, targetSupportsSnapshot: bool, slot: nat,
                                 manifest: Manifest) returns (ok: bool)
    requires slot < 2 && (d.virtualAb != NoVirtualAb ==> !targetSupportsSnapshot || d.recovery)
    modifies builder
    ensures var r := Updated(old(builder.View()), d, slot, manifest);
            ok == r.Some? && (ok ==> builder.View() == r.value)
  {
    builder.RemoveGroupAndPartitions(COW_GROUP);
    var suffix := SlotSuffix(slot);
    DeleteGroupsWithSuffix(builder, suffix);
    ok := CheckSuperPartitionAllocatableSpace(builder, d, manifest.groups, false);
    if !ok {
      return false;
    }
    var sizes := CollectSizes(manifest.partitions);
    ok := AddManifestGroups(builder, manifest.groups, suffix, sizes);
  }

  /** Before a sideload in recovery the source slot gives way, unless the update needs it. */
  method DeleteSourcePartitions(builder: MetadataBuilder, d: Device, slot: nat, incremental: bool) returns (ok: bool)
    requires slot < 2
    modifies builder
    ensures ok <==> d.recovery && !incremental
    ensures builder.View() == if ok then DeleteGroups(old(builder.View()), SlotSuffix(slot)) else old(builder.View())
  {
    if !d.recovery {
      return false;
    }
    if incremental {
      return false;
    }
    DeleteGroupsWithSuffix(builder, SlotSuffix(slot));
    return true;
  }
}
