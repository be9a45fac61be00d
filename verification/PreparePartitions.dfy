/**
 Preparing the dynamic partitions for an update without snapshots: the target partitions are unmapped,
 the metadata of the source slot is loaded, updated and stored for the target slot.
 */
module PreparePartitions {
  import opened Common
  import opened Partitions
  import opened PartitionLayout
  import opened DeviceMapping

  /** The names of the target partitions a manifest lists, in order. */
  function TargetNames(groups: seq<GroupSpec>, suffix: string): seq<string> {
    if groups == [] then []
    else TargetNames(groups[..|groups| - 1], suffix) + Suffixed(groups[|groups| - 1].partitionNames, suffix)
  }

  function Suffixed(names: seq<string>, suffix: string): seq<string> {
    seq(|names|, (i: nat) requires i < |names| => names[i] + suffix)
  }

  /** Answers for all names, each of which can be unmapped. */
  predicate AllUnmap(names: seq<string>, answers: map<string, UnmapAnswers>) {
    forall name <- names :: name in answers && CanUnmap(answers[name])
  }

  /** Unmapping stops at the first failure; until then every name is forgotten. */
  method UnmapNames(mapper: PartitionMapper, names: seq<string>, answers: map<string, UnmapAnswers>) returns (ok: bool)
    requires forall name <- names :: name in answers
    modifies mapper
    ensures ok <==> AllUnmap(names, answers)
    ensures mapper.mappedDevices <= old(mapper.mappedDevices)
    ensures forall name <- old(mapper.mappedDevices) - mapper.mappedDevices :: name in names
    ensures ok ==> forall name <- names :: name !in mapper.mappedDevices
  {
    var i := 0;
    while i < |names|
      invariant i <= |names| && AllUnmap(names[..i], answers)
      invariant mapper.mappedDevices <= old(mapper.mappedDevices)
      invariant forall name <- old(mapper.mappedDevices) - mapper.mappedDevices :: name in names
      invariant forall name <- names[..i] :: name !in mapper.mappedDevices
    {
      var name := names[i];
      assert name in names && names[..i + 1] == names[..i] + [name];
      ok := mapper.UnmapPartitionOnDeviceMapper(name, answers[name]);
      if !ok {
        return false;
      }
      i := i + 1;
    }
    assert names[..i] == names;
    return true;
  }

  /** The metadata the update starts from. */
  function StartingPoint(b: Metadata, sourceSlot: nat, deleteSource: bool): Metadata
    requires sourceSlot < 2
  {
    if deleteSource then DeleteGroups(b, SlotSuffix(sourceSlot)) else b
  }

  lemma {:induction false} NamesAreListed(groups: seq<GroupSpec>, suffix: string, sizes: map<string, nat>, align: nat,
                                          p: Partition)
    requires AllKnown(groups, sizes) && p in TargetPartitions(groups, suffix, sizes, align)
    ensures p.name in TargetNames(groups, suffix)
    decreases |groups|
  {
    if groups != [] {
      var g := groups[|groups| - 1];
      assert g in groups;
      var members := TargetMembers(g.partitionNames, g.name + suffix, suffix, sizes, align);
      if p in members {
        var i :| 0 <= i < |members| && members[i] == p;
        assert Suffixed(g.partitionNames, suffix)[i] == p.name;
      } else {
        NamesAreListed(groups[..|groups| - 1], suffix, sizes, align, p);
      }
    }
  }

  /** The target slot is the manifest's and everything outside it and the COW group is as before. */
  predicate Rebuilt(b: Metadata, slot: nat, manifest: Manifest, t: Metadata)
    requires slot < 2
  {
    var suffix, sizes := SlotSuffix(slot), Sizes(manifest.partitions);
    && AllKnown(manifest.groups, sizes)
    && t == b.(groups := GroupsOutside(b.groups, suffix) + TargetGroups(manifest.groups, suffix),
               partitions := PartitionsOutside(b.partitions, suffix) +
                             TargetPartitions(manifest.groups, suffix, sizes, b.align))
  }

  /** No partition of the slot is still mapped. */
  predicate NoneMapped(t: Metadata, suffix: string, mapped: set<string>) {
    forall p <- t.partitions :: EndsWith(p.group, suffix) ==> p.name !in mapped
  }

  lemma NothingMappedOverOld(b: Metadata, d: Device, slot: nat, manifest: Manifest, mapped: set<string>)
    requires slot < 2 && Coherent(b) && Updated(b, d, slot, manifest).Some?
    requires forall name <- TargetNames(manifest.groups, SlotSuffix(slot)) :: name !in mapped
    ensures NoneMapped(Updated(b, d, slot, manifest).value, SlotSuffix(slot), mapped)
  {
    forall p | p in Updated(b, d, slot, manifest).value.partitions && EndsWith(p.group, SlotSuffix(slot))
      ensures p.name !in mapped
    {
      TargetIsManifest(b, d, slot, manifest, Group("", 0), p);
      NamesAreListed(manifest.groups, SlotSuffix(slot), Sizes(manifest.partitions), b.align, p);
    }
  }

  /** Metadata within its limits stays so whether or not the source slot is deleted first; the result is the
      rebuilt metadata, and none of its target partitions is mapped over the old one. */
  lemma StoredIsRight(b: Metadata, d: Device, sourceSlot: nat, slot: nat, manifest: Manifest, deleteSource: bool,
                      mapped: set<string>)
    requires sourceSlot < 2 && slot < 2 && Within(b)
    requires Updated(StartingPoint(b, sourceSlot, deleteSource), d, slot, manifest).Some?
    requires forall name <- TargetNames(manifest.groups, SlotSuffix(slot)) :: name !in mapped
    ensures var start := StartingPoint(b, sourceSlot, deleteSource);
            var t := Updated(start, d, slot, manifest).value;
            Within(t) && Rebuilt(start, slot, manifest, t) && NoneMapped(t, SlotSuffix(slot), mapped)
  {
    var start := StartingPoint(b, sourceSlot, deleteSource);
    DeletionIsWithin(b, SlotSuffix(sourceSlot));
    UpdateIsWithin(start, d, slot, manifest);
    MetadataIsRebuilt(start, d, slot, manifest);
    NothingMappedOverOld(start, d, slot, manifest, mapped);
  }

  /** `loaded` is the builder that could be loaded, and `stores` answers the request to store the result. */
  method PrepareDynamicPartitionsForUpdate(
      mapper: PartitionMapper, answers: map<string, UnmapAnswers>, loaded: Option<MetadataBuilder>, d: Device,
      targetSupportsSnapshot: bool, sourceSlot: nat, targetSlot: nat, manifest: Manifest, deleteSource: bool,
      incremental: bool, stores: bool)
    returns (ok: bool, stored: Option<Metadata>)
    requires sourceSlot < 2 && targetSlot < 2
    requires d.virtualAb != NoVirtualAb ==> !targetSupportsSnapshot || d.recovery
    requires forall name <- TargetNames(manifest.groups, SlotSuffix(targetSlot)) :: name in answers
    modifies mapper
    modifies if loaded.Some? then {loaded.value} else {}
    ensures ok <==>
      && AllUnmap(TargetNames(manifest.groups, SlotSuffix(targetSlot)), answers)
      && loaded.Some?
      && (deleteSource ==> d.recovery && !incremental)
      && Updated(StartingPoint(old(loaded.value.View()), sourceSlot, deleteSource), d, targetSlot, manifest).Some?
      && stores
    ensures if ok then
        stored == Updated(StartingPoint(old(loaded.value.View()), sourceSlot, deleteSource), d, targetSlot, manifest)
      else stored == None
    ensures ok ==>
      forall name <- TargetNames(manifest.groups, SlotSuffix(targetSlot)) :: name !in mapper.mappedDevices
    ensures mapper.mappedDevices <= old(mapper.mappedDevices)
    ensures ok && Within(old(loaded.value.View())) ==>
      && Within(stored.value)
      && Rebuilt(StartingPoint(old(loaded.value.View()), sourceSlot, deleteSource), targetSlot, manifest, stored.value)
      && NoneMapped(stored.value, SlotSuffix(targetSlot), mapper.mappedDevices)
  {
    stored := None;
    ok := UnmapNames(mapper, TargetNames(manifest.groups, SlotSuffix(targetSlot)), answers);
    if !ok {
      return;
    }
    if loaded.None? {
      return false, None;
    }
    var builder := loaded.value;
    if deleteSource {
      ok := DeleteSourcePartitions(builder, d, sourceSlot, incremental);
      if !ok {
        return;
      }
    }
    ok := UpdatePartitionMetadata(builder, d, targetSupportsSnapshot, targetSlot, manifest);
    if !ok {
      return;
    }
    if !stores {
      return false, None;
    }
    stored := Some(Metadata(builder.groups, builder.partitions, builder.space, builder.align));
    if Within(old(builder.View())) {
      StoredIsRight(old(builder.View()), d, sourceSlot, targetSlot, manifest, deleteSource, mapper.mappedDevices);
    }
  }
}
