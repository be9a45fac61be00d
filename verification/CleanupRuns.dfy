/**
 Every run of the cleanup action: what precedes a merge, how many tasks are pending, and what a
 suspended action does not do.
 */
module CleanupRuns {
  import opened Common
  import opened Cleanup

  // ---------------------------------------------------------------------------
  // Events

  datatype Event =
    | Performs
    | Resumes
    | Suspends
    | Terminates
    | TaskRuns(task: nat)
    | ChecksBoot(bootCompleted: bool, id: Option<nat>)
    | ChecksSlot(marked: bool, mounts: bool, devices: CreateResult, id: Option<nat>)
    | ChecksMerge(state: UpdateState, resetFails: bool, cancels: bool, id: Option<nat>)
    | Initiates(dsu: bool, initiates: bool, state: UpdateState)

  /** The message loop gives out an id that no pending task has; ids of past tasks may come again. */
  predicate NewId(s: State, id: Option<nat>) {
    id.Some? ==> id.value !in s.pending
  }

  predicate Enabled(s: State, e: Event) {
    match e
    case Performs => s.now.None? && s.phase == Created
    case Resumes => s.now.None? && s.phase == Suspended
    case Suspends => s.now.None? && s.phase == Active
    case Terminates => s.now.None? && (s.phase == Active || s.phase == Suspended)
    case TaskRuns(task) => s.now.None? && task in s.pending
    case ChecksBoot(_, id) => s.now == Some(WaitBoot) && NewId(s, id)
    case ChecksSlot(_, _, _, id) => s.now == Some(CheckSlot) && NewId(s, id)
    case ChecksMerge(_, _, _, id) => s.now == Some(WaitMerge) && NewId(s, id)
    case Initiates(_, _, _) => s.now == Some(InitiateMerge)
  }

  function Step(s: State, e: Event): State
    requires Enabled(s, e)
  {
    match e
    case Performs => Start(s)
    case Resumes => Start(s)
    case Suspends => Suspend(s)
    case Terminates => Terminate(s)
    case TaskRuns(task) => s.(pending := s.pending - {task}, now := Some(s.pending[task]))
    case ChecksBoot(bootCompleted, id) => BootStage(s, bootCompleted, id)
    case ChecksSlot(marked, mounts, devices, id) => SlotStage(s, marked, mounts, devices, id)
    case ChecksMerge(state, resetFails, cancels, id) => MergeStage(s, state, resetFails, cancels, id)
    case Initiates(dsu, initiates, state) => InitiateStage(s, dsu, initiates, state)
  }

  function Run(config: Config, events: seq<Event>): Option<State> {
    if events == [] then Some(Fresh(config))
    else
      var before, e := Run(config, events[..|events| - 1]), events[|events| - 1];
      if before.Some? && Enabled(before.value, e) then Some(Step(before.value, e)) else None
  }

  // ---------------------------------------------------------------------------
  // Reading a log

  /** The action was started or resumed and has since not been suspended, completed or terminated. */
  predicate ActiveIn(log: seq<Note>) {
    log != [] &&
    match log[|log| - 1]
    case Started => true
    case Stopped => false
    case Completed(_) => false
    case Terminated => false
    case _ => ActiveIn(log[..|log| - 1])
  }

  predicate OverIn(log: seq<Note>) {
    log != [] && (log[|log| - 1].Completed? || log[|log| - 1].Terminated? || OverIn(log[..|log| - 1]))
  }

  /** Seen since the action was last started or resumed. */
  predicate SeenIn(log: seq<Note>, note: Note) {
    log != [] && !log[|log| - 1].Started? && (log[|log| - 1] == note || SeenIn(log[..|log| - 1], note))
  }

  /** The metadata was mounted and has not been given up. */
  predicate MetadataIn(log: seq<Note>) {
    log != [] &&
    match log[|log| - 1]
    case MetadataMounted => true
    case Completed(_) => false
    case _ => MetadataIn(log[..|log| - 1])
  }

  /** In the current episode the device has booted. */
  predicate Booted(config: Config, log: seq<Note>) {
    !config.recovery ==> SeenIn(log, BootSeen)
  }

  /** And the slot is marked successful, and the metadata is there. */
  predicate Ready(config: Config, log: seq<Note>) {
    && (!config.recovery ==> SeenIn(log, BootSeen) && SeenIn(log, SlotSeen))
    && MetadataIn(log)
  }

  predicate Allowed(config: Config, log: seq<Note>, note: Note) {
    match note
    case Started => !ActiveIn(log) && !OverIn(log)
    case MergeInitiated => ActiveIn(log) && Ready(config, log)
    case Terminated => !OverIn(log)
    case _ => ActiveIn(log) && !OverIn(log)
  }

  ghost predicate Lawful(config: Config, log: seq<Note>) {
    forall i :: 0 <= i < |log| ==> Allowed(config, log[..i], log[i])
  }

  lemma LawfulExtends(config: Config, log: seq<Note>, note: Note)
    requires Lawful(config, log) && Allowed(config, log, note)
    ensures Lawful(config, log + [note])
  {
    var more := log + [note];
    forall i | 0 <= i < |more|
      ensures Allowed(config, more[..i], more[i])
    {
      assert more[..i] == log[..i];
      if i == |log| {
        assert log[..i] == log;
      }
    }
  }

  // ---------------------------------------------------------------------------
  // The invariant

  /** What has to be so for a stage to come next. */
  predicate Due(config: Config, log: seq<Note>, stage: Stage) {
    match stage
    case WaitBoot => true
    case CheckSlot => Booted(config, log)
    case WaitMerge => Ready(config, log)
    case InitiateMerge => Ready(config, log)
  }

  /** State and log agree. */
  ghost predicate Agrees(s: State) {
    && Lawful(s.config, s.log)
    && (s.phase == Active <==> ActiveIn(s.log))
    && (s.phase == Over <==> OverIn(s.log))
    && (s.metadata ==> MetadataIn(s.log))
    && (s.running <==> s.phase == Active)
  }

  /** Nothing is pending or about to run. */
  predicate Still(s: State) {
    s.now.None? && s.scheduled.None? && s.pending == map[]
  }

  /** One task is pending, the one that was scheduled. */
  predicate Waits(s: State) {
    && s.now.None? && s.scheduled.Some?
    && s.pending.Keys == {s.scheduled.value}
    && s.pending[s.scheduled.value] != InitiateMerge
    && Due(s.config, s.log, s.pending[s.scheduled.value])
  }

  /** A stage is about to run and no task is pending. */
  predicate Moves(s: State) {
    s.now.Some? && s.pending == map[] && Due(s.config, s.log, s.now.value)
    && (s.now == Some(InitiateMerge) ==> s.scheduled.None?)
  }

  ghost predicate Inv(s: State) {
    Agrees(s) && if s.phase == Active then Waits(s) || Moves(s) else Still(s)
  }

  /** In the middle of a stage: the task has been acknowledged. */
  ghost predicate InStage(s: State) {
    Agrees(s) && s.phase == Active && s.pending == map[] && s.scheduled.None?
  }

  lemma SayKeeps(s: State, note: Note)
    requires InStage(s) && Allowed(s.config, s.log, note)
    requires note.BootSeen? || note.SlotSeen? || note.MetadataMounted? || note.MergeInitiated?
    ensures InStage(Say(s, note))
    ensures SeenIn(s.log + [note], BootSeen) <==> SeenIn(s.log, BootSeen) || note.BootSeen?
    ensures SeenIn(s.log + [note], SlotSeen) <==> SeenIn(s.log, SlotSeen) || note.SlotSeen?
    ensures MetadataIn(s.log + [note]) <==> MetadataIn(s.log) || note.MetadataMounted?
  {
    Extend(s.log, note);
    LawfulExtends(s.config, s.log, note);
  }

  lemma CompleteKeeps(s: State, code: ErrorCode)
    requires InStage(s)
    ensures Inv(Complete(s, code))
  {
    Extend(s.log, Completed(code));
    LawfulExtends(s.config, s.log, Completed(code));
  }

  lemma ScheduleKeeps(s: State, stage: Stage, id: Option<nat>)
    requires InStage(s) && stage != InitiateMerge && Due(s.config, s.log, stage)
    ensures Inv(Schedule(s, stage, id))
  {
    if id.None? {
      CompleteKeeps(s, ERROR);
    } else {
      assert Schedule(s, stage, id).pending == map[id.value := stage];
    }
  }

  lemma MovesOn(s: State, stage: Stage)
    requires InStage(s) && Due(s.config, s.log, stage)
    ensures Inv(s.(now := Some(stage)))
  {
  }

  lemma StartKeeps(s: State)
    requires Inv(s) && (s.phase == Created || s.phase == Suspended)
    ensures Inv(Start(s))
  {
    Extend(s.log, Started);
    LawfulExtends(s.config, s.log, Started);
    var t := Say(s, Started).(running := true, phase := Active);
    if !s.config.virtualAb {
      CompleteKeeps(t, Success);
    } else {
      MovesOn(t, WaitBoot);
    }
  }

  lemma StopKeeps(s: State, note: Note)
    requires Inv(s) && s.now.None? && (note.Stopped? || note.Terminated?)
    requires s.phase == Active || (s.phase == Suspended && note.Terminated?)
    ensures Stop(s).pending == map[]
    ensures Inv(Say(Stop(s), note).(phase := if note.Stopped? then Suspended else Over))
  {
    Extend(s.log, note);
    LawfulExtends(s.config, s.log, note);
  }

  lemma BootKeeps(s: State, bootCompleted: bool, id: Option<nat>)
    requires Inv(s) && s.now == Some(WaitBoot)
    ensures Inv(BootStage(s, bootCompleted, id))
  {
    var t := s.(scheduled := None);
    assert InStage(t);
    if !t.config.recovery && !bootCompleted {
      ScheduleKeeps(t, WaitBoot, id);
    } else if t.config.recovery {
      MovesOn(t, CheckSlot);
    } else {
      SayKeeps(t, BootSeen);
      MovesOn(Say(t, BootSeen), CheckSlot);
    }
  }

  /** Outside recovery, boot and slot were seen. */
  predicate SlotKnown(s: State) {
    !s.config.recovery ==> SeenIn(s.log, BootSeen) && SeenIn(s.log, SlotSeen)
  }

  lemma WithMetadataKeeps(s: State, devices: CreateResult)
    requires InStage(s) && SlotKnown(s)
    ensures Inv(WithMetadata(s, devices))
  {
    if !s.metadata {
      CompleteKeeps(s, if s.config.recovery then Success else ERROR);
    } else if s.config.recovery && devices == CreateError {
      CompleteKeeps(s, ERROR);
    } else {
      MovesOn(s, WaitMerge);
    }
  }

  lemma MountKeeps(s: State, mounts: bool, devices: CreateResult)
    requires InStage(s) && SlotKnown(s)
    ensures Inv(Mount(s, mounts, devices))
  {
    if s.metadata || !mounts {
      WithMetadataKeeps(s, devices);
    } else {
      SayKeeps(s, MetadataMounted);
      WithMetadataKeeps(Say(s, MetadataMounted).(metadata := true), devices);
    }
  }

  lemma SlotKeeps(s: State, marked: bool, mounts: bool, devices: CreateResult, id: Option<nat>)
    requires Inv(s) && s.now == Some(CheckSlot)
    ensures Inv(SlotStage(s, marked, mounts, devices, id))
  {
    var t := s.(scheduled := None);
    assert InStage(t);
    if !t.config.recovery && !marked {
      ScheduleKeeps(t, CheckSlot, id);
    } else if t.config.recovery {
      MountKeeps(t, mounts, devices);
    } else {
      SayKeeps(t, SlotSeen);
      MountKeeps(Say(t, SlotSeen), mounts, devices);
    }
  }

  lemma MergeKeeps(s: State, state: UpdateState, resetFails: bool, cancels: bool, id: Option<nat>)
    requires Inv(s) && s.now == Some(WaitMerge)
    ensures Inv(MergeStage(s, state, resetFails, cancels, id))
  {
    var t := s.(scheduled := None, cancelFailed := s.cancelFailed || resetFails);
    assert InStage(t);
    match state
    case Unverified => MovesOn(t, InitiateMerge);
    case Merging => ScheduleKeeps(t, WaitMerge, id);
    case NoUpdate => CompleteKeeps(t, if cancels then Success else ERROR);
    case Cancelled => CompleteKeeps(t, if t.cancelFailed then ERROR else Success);
    case MergeFailed => CompleteKeeps(t, DEVICE_CORRUPTED);
    case MergeNeedsReboot => CompleteKeeps(t, ERROR);
    case _ => CompleteKeeps(t, Success);
  }

  lemma InitiateKeeps(s: State, dsu: bool, initiates: bool, state: UpdateState)
    requires Inv(s) && s.now == Some(InitiateMerge)
    ensures Inv(InitiateStage(s, dsu, initiates, state))
  {
    assert InStage(s);
    if dsu {
      CompleteKeeps(s, ERROR);
    } else {
      SayKeeps(s, MergeInitiated);
      var t := Say(s, MergeInitiated);
      if !initiates && state == Unverified {
        CompleteKeeps(t, Success);
      } else {
        MovesOn(t, WaitMerge);
      }
    }
  }

  lemma StepKeeps(s: State, e: Event)
    requires Inv(s) && Enabled(s, e)
    ensures Inv(Step(s, e))
  {
    match e
    case Performs => StartKeeps(s);
    case Resumes => StartKeeps(s);
    case Suspends => StopKeeps(s, Stopped);
    case Terminates => StopKeeps(s, Terminated);
    case TaskRuns(task) => assert s.pending - {task} == map[];
    case ChecksBoot(bootCompleted, id) => BootKeeps(s, bootCompleted, id);
    case ChecksSlot(marked, mounts, devices, id) => SlotKeeps(s, marked, mounts, devices, id);
    case ChecksMerge(state, resetFails, cancels, id) => MergeKeeps(s, state, resetFails, cancels, id);
    case Initiates(dsu, initiates, state) => InitiateKeeps(s, dsu, initiates, state);
  }

  lemma MountKeepsConfig(s: State, mounts: bool, devices: CreateResult)
    ensures Mount(s, mounts, devices).config == s.config
  {
  }

  lemma SlotKeepsConfig(s: State, marked: bool, mounts: bool, devices: CreateResult, id: Option<nat>)
    ensures SlotStage(s, marked, mounts, devices, id).config == s.config
  {
    MountKeepsConfig(s.(scheduled := None), mounts, devices);
    MountKeepsConfig(Say(s.(scheduled := None), SlotSeen), mounts, devices);
  }

  lemma MergeKeepsConfig(s: State, state: UpdateState, resetFails: bool, cancels: bool, id: Option<nat>)
    ensures MergeStage(s, state, resetFails, cancels, id).config == s.config
  {
  }

  lemma ConfigStays(s: State, e: Event)
    requires Enabled(s, e)
    ensures Step(s, e).config == s.config
  {
    match e
    case ChecksSlot(marked, mounts, devices, id) => SlotKeepsConfig(s, marked, mounts, devices, id);
    case ChecksMerge(state, resetFails, cancels, id) => MergeKeepsConfig(s, state, resetFails, cancels, id);
    case _ =>
  }

  lemma {:induction false} EveryRunKeeps(config: Config, events: seq<Event>)
    requires Run(config, events).Some?
    ensures Inv(Run(config, events).value) && Run(config, events).value.config == config
  {
    if events != [] {
      var init, e := events[..|events| - 1], events[|events| - 1];
      EveryRunKeeps(config, init);
      StepKeeps(Run(config, init).value, e);
      ConfigStays(Run(config, init).value, e);
    }
  }

  // ---------------------------------------------------------------------------
  // What it means

  /** Whenever a merge is initiated, the action is active, the metadata is mounted and, outside recovery, the
      device was seen booted and the slot marked successful in the same episode. */
  lemma MergeComesLast(config: Config, events: seq<Event>, i: nat)
    requires Run(config, events).Some?
    requires i < |Run(config, events).value.log| && Run(config, events).value.log[i] == MergeInitiated
    ensures var before := Run(config, events).value.log[..i];
            && ActiveIn(before) && MetadataIn(before)
            && (!config.recovery ==> SeenIn(before, BootSeen) && SeenIn(before, SlotSeen))
  {
    var log := Run(config, events).value.log;
    EveryRunKeeps(config, events);
    assert Allowed(config, log[..i], log[i]);
  }

  /** Between two steps an active action has exactly one pending task, the one it scheduled, and any other
      has none; inside a step there is none. */
  lemma OneTaskPending(config: Config, events: seq<Event>)
    requires Run(config, events).Some?
    ensures var s := Run(config, events).value;
            if s.phase == Active && s.now.None? then s.scheduled.Some? && s.pending.Keys == {s.scheduled.value}
            else s.pending == map[]
  {
    EveryRunKeeps(config, events);
  }

  /** A suspended action neither initiates a merge nor completes, nor does anything but be resumed or
      terminated; and one that is over does nothing at all. */
  lemma SuspendedDoesNothing(config: Config, events: seq<Event>, i: nat)
    requires Run(config, events).Some? && i < |Run(config, events).value.log|
    ensures var log := Run(config, events).value.log;
            !ActiveIn(log[..i]) ==> !OverIn(log[..i]) && (log[i].Started? || log[i].Terminated?)
  {
    var log := Run(config, events).value.log;
    EveryRunKeeps(config, events);
    assert Allowed(config, log[..i], log[i]);
  }
}
