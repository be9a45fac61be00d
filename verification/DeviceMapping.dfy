/**
 Which partitions the partition control has mapped on the device mapper. The device mapper and the
 snapshot manager answer through parameters.
 */
module DeviceMapping {
  import opened Common

  datatype DmState = Invalid | Suspended | Active

  /** Answers while unmapping: the state found, and whether each of the two steps succeeded. */
  datatype UnmapAnswers = UnmapAnswers(state: DmState, destroyed: bool, metadataMounted: bool, snapshotUnmapped: bool)

  /** What decides how a device is created, and the answers to both ways. */
  datatype CreateAnswers = CreateAnswers(
    virtualAb: bool, targetSupportsSnapshot: bool, forceWritable: bool, metadataMounted: bool,
    snapshotMapped: bool, logicalCreated: bool)

  /** Target partitions of a snapshot update are mapped with their snapshot, all others as they are. */
  predicate IsCreated(a: CreateAnswers) {
    if a.virtualAb && a.targetSupportsSnapshot && a.forceWritable && a.metadataMounted
    then a.snapshotMapped else a.logicalCreated
  }

  /** Answers while mapping: the state found, and what is needed when the device is active already. */
  datatype MapAnswers = MapAnswers(
    state: DmState, pathKnown: bool, unmap: UnmapAnswers, stateAfter: DmState, create: CreateAnswers)

  predicate CanUnmap(a: UnmapAnswers) {
    a.state != Invalid ==> a.destroyed && (a.metadataMounted ==> a.snapshotUnmapped)
  }

  /** The names recorded as mapped after a call. */
  function Unmap(mapped: set<string>, name: string, a: UnmapAnswers): set<string> {
    if CanUnmap(a) then mapped - {name} else mapped
  }

  function Create(mapped: set<string>, name: string, a: CreateAnswers): set<string> {
    if IsCreated(a) then mapped + {name} else mapped
  }

  function Map(mapped: set<string>, name: string, a: MapAnswers): set<string> {
    match a.state
    case Suspended => mapped
    case Invalid => Create(mapped, name, a.create)
    case Active =>
      if name in mapped || !CanUnmap(a.unmap) || a.stateAfter != Invalid then mapped
      else Create(mapped, name, a.create)
  }

  /** Unmapping one name after the other, whether or not some fail. */
  function UnmapEach(mapped: set<string>, order: seq<string>, answers: map<string, UnmapAnswers>): set<string>
    requires forall name <- order :: name in answers
  {
    if order == [] then mapped
    else
      var last := order[|order| - 1];
      assert last in order;
      Unmap(UnmapEach(mapped, order[..|order| - 1], answers), last, answers[last])
  }

  class PartitionMapper {
    var mappedDevices: set<string>

    constructor ()
      ensures mappedDevices == {}
    {
      mappedDevices := {};
    }

    method MapPartitionInternal(name: string, a: CreateAnswers) returns (ok: bool)
      modifies this
      ensures mappedDevices == Create(old(mappedDevices), name, a) && ok == IsCreated(a)
    {
      if a.virtualAb && a.targetSupportsSnapshot && a.forceWritable && a.metadataMounted {
        ok := a.snapshotMapped;
      } else {
        ok := a.logicalCreated;
      }
      if !ok {
        return false;
      }
      mappedDevices := mappedDevices + {name};
      return true;
    }

    method MapPartitionOnDeviceMapper(name: string, a: MapAnswers) returns (ok: bool)
      modifies this
      ensures mappedDevices == Map(old(mappedDevices), name, a)
      ensures ok ==> name in mappedDevices
    {
      var state := a.state;
      if state == Active {
        if name in mappedDevices {
          return a.pathKnown;
        }
        ok := UnmapPartitionOnDeviceMapper(name, a.unmap);
        if !ok {
          return false;
        }
        state := a.stateAfter;
        if state != Invalid {
          return false;
        }
      }
      if state == Invalid {
        ok := MapPartitionInternal(name, a.create);
        return ok;
      }
      return false;
    }

    method UnmapPartitionOnDeviceMapper(name: string, a: UnmapAnswers) returns (ok: bool)
      modifies this
      ensures mappedDevices == Unmap(old(mappedDevices), name, a) && ok == CanUnmap(a)
    {
      if a.state != Invalid {
        var success := a.destroyed;
        if a.metadataMounted {
          success := success && a.snapshotUnmapped;
        }
        if !success {
          return false;
        }
      }
      mappedDevices := mappedDevices - {name};
      return true;
    }

    /** Tries each mapped device once, on a copy of the set; `answers` is what unmapping each of them meets. */
    method UnmapAllPartitions(answers: map<string, UnmapAnswers>) returns (any: bool, ghost order: seq<string>)
      requires forall name <- mappedDevices :: name in answers
      modifies this
      ensures any <==> old(mappedDevices) != {}
      ensures multiset(order) == multiset(old(mappedDevices))
      ensures forall name <- order :: name in answers
      ensures mappedDevices == UnmapEach(old(mappedDevices), order, answers)
    {
      order := [];
      if mappedDevices == {} {
        return false, order;
      }
      var mapped := mappedDevices;
      while mapped != {}
        invariant mapped <= old(mappedDevices)
        invariant multiset(order) + multiset(mapped) == multiset(old(mappedDevices))
        invariant forall name <- order :: name in answers
        invariant mappedDevices == UnmapEach(old(mappedDevices), order, answers)
        decreases mapped
      {
        var name :| name in mapped;
        assert multiset(mapped) == multiset(mapped - {name}) + multiset{name};
        assert (order + [name])[..|order|] == order;
        var _ := UnmapPartitionOnDeviceMapper(name, answers[name]);
        mapped, order := mapped - {name}, order + [name];
      }
      return true, order;
    }
  }

  // ---------------------------------------------------------------------------
  // Every run

  datatype Event =
    | Maps(name: string, mapAnswers: MapAnswers)
    | Unmaps(name: string, unmapAnswers: UnmapAnswers)
    | UnmapsAll(order: seq<string>, answers: map<string, UnmapAnswers>)

  /** Unmapping all goes through the mapped devices, each once. */
  predicate Enabled(mapped: set<string>, e: Event) {
    e.UnmapsAll? ==> multiset(e.order) == multiset(mapped) && forall name <- e.order :: name in e.answers
  }

  function Step(mapped: set<string>, e: Event): set<string>
    requires Enabled(mapped, e)
  {
    match e
    case Maps(name, a) => Map(mapped, name, a)
    case Unmaps(name, a) => Unmap(mapped, name, a)
    case UnmapsAll(order, answers) => UnmapEach(mapped, order, answers)
  }

  function Run(events: seq<Event>): Option<set<string>> {
    if events == [] then Some({})
    else
      var before, e := Run(events[..|events| - 1]), events[|events| - 1];
      if before.Some? && Enabled(before.value, e) then Some(Step(before.value, e)) else None
  }

  /** By its answers, a call leaves the name mapped by this object: the device is created where there was
      none, or after one of unknown origin was unmapped. */
  predicate LeavesMapped(e: Event, name: string) {
    && e.Maps? && e.name == name && IsCreated(e.mapAnswers.create)
    && match e.mapAnswers.state
       case Invalid => true
       case Active => CanUnmap(e.mapAnswers.unmap) && e.mapAnswers.stateAfter == Invalid
       case Suspended => false
  }

  /** By its answers, a call unmaps the name with success. */
  predicate UnmapsIt(e: Event, name: string) {
    match e
    case Maps(_, _) => false
    case Unmaps(n, a) => n == name && CanUnmap(a)
    case UnmapsAll(order, answers) => name in order && name in answers && CanUnmap(answers[name])
  }

  /** Some call left the name mapped and no later one unmapped it. */
  ghost predicate HeldAfter(events: seq<Event>, name: string) {
    exists i :: 0 <= i < |events| && LeavesMapped(events[i], name) && NotUnmapped(events[i + 1..], name)
  }

  ghost predicate NotUnmapped(events: seq<Event>, name: string) {
    forall e <- events :: !UnmapsIt(e, name)
  }

  /** One more call: it leaves the name mapped, or it was held and is not unmapped. */
  lemma HeldStep(events: seq<Event>, e: Event, name: string)
    ensures HeldAfter(events + [e], name) <==>
              LeavesMapped(e, name) || (HeldAfter(events, name) && !UnmapsIt(e, name))
  {
    var more := events + [e];
    if LeavesMapped(e, name) {
      assert more[|events|] == e && more[|events| + 1..] == [];
    }
    if HeldAfter(events, name) && !UnmapsIt(e, name) {
      var i :| 0 <= i < |events| && LeavesMapped(events[i], name) && NotUnmapped(events[i + 1..], name);
      assert more[i] == events[i] && more[i + 1..] == events[i + 1..] + [e];
    }
    if HeldAfter(more, name) && !LeavesMapped(e, name) {
      var i :| 0 <= i < |more| && LeavesMapped(more[i], name) && NotUnmapped(more[i + 1..], name);
      HeldEarlier(events, e, name, i);
    }
  }

  lemma HeldEarlier(events: seq<Event>, e: Event, name: string, i: nat)
    requires i < |events| && LeavesMapped(events[i], name) && NotUnmapped((events + [e])[i + 1..], name)
    ensures HeldAfter(events, name) && !UnmapsIt(e, name)
  {
    assert (events + [e])[i + 1..] == events[i + 1..] + [e];
  }

  lemma {:induction false} UnmapEachLeaves(mapped: set<string>, order: seq<string>, answers: map<string, UnmapAnswers>,
                                           name: string)
    requires forall n <- order :: n in answers
    ensures name in UnmapEach(mapped, order, answers) <==>
              name in mapped && (name in order ==> !CanUnmap(answers[name]))
    decreases |order|
  {
    if order != [] {
      var init, last := order[..|order| - 1], order[|order| - 1];
      assert last in order;
      UnmapEachLeaves(mapped, init, answers, name);
      assert name in order <==> name in init || name == last;
    }
  }

  lemma StepTracks(mapped: set<string>, e: Event, name: string)
    requires Enabled(mapped, e)
    ensures name in Step(mapped, e) <==> LeavesMapped(e, name) || (name in mapped && !UnmapsIt(e, name))
  {
    if e.UnmapsAll? {
      UnmapEachLeaves(mapped, e.order, e.answers, name);
    }
  }

  /** In every run of map and unmap calls, the names recorded are exactly those that, by the answers of the
      device mapper, some call left mapped and no later call unmapped. */
  lemma {:induction false} MappedDevicesTrack(events: seq<Event>, name: string)
    requires Run(events).Some?
    ensures name in Run(events).value <==> HeldAfter(events, name)
  {
    if events != [] {
      var init, e := events[..|events| - 1], events[|events| - 1];
      assert events == init + [e];
      MappedDevicesTrack(init, name);
      StepTracks(Run(init).value, e, name);
      HeldStep(init, e, name);
    }
  }

  /** After any run, unmapping all leaves exactly the names whose unmapping failed, in whatever order the
      set is gone through. */
  lemma UnmapAllLeavesFailures(events: seq<Event>, order: seq<string>, answers: map<string, UnmapAnswers>, name: string)
    requires Run(events).Some? && Enabled(Run(events).value, UnmapsAll(order, answers))
    ensures name in UnmapEach(Run(events).value, order, answers) <==>
              HeldAfter(events, name) && name in answers && !CanUnmap(answers[name])
  {
    var mapped := Run(events).value;
    MappedDevicesTrack(events, name);
    UnmapEachLeaves(mapped, order, answers, name);
    assert name in mapped <==> name in multiset(mapped);
    assert name in order <==> name in multiset(order);
  }
}
