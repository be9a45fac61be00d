/**
 The action that cleans up after the previous update: it polls until the device has booted and the slot
 is marked successful, then has the snapshots merged and polls until the merge is over. Tasks live on a
 message loop; suspending cancels the pending one and resuming starts over. A function that ends by
 calling the next one leaves it in `now`, to run before anything else happens.
 */
module Cleanup {
  import opened Common

  const ERROR: ErrorCode := Failure(1)
  const DEVICE_CORRUPTED: ErrorCode := Failure(61)

  datatype Stage = WaitBoot | CheckSlot | WaitMerge | InitiateMerge

  datatype Phase = Created | Active | Suspended | Over

  datatype UpdateState =
    | NoUpdate | Initiated | Unverified | Merging | MergeNeedsReboot | MergeCompleted | MergeFailed | Cancelled

  datatype CreateResult = DevicesCreated | DevicesNotCreated | CreateError

  /** What happened, as the boot control, the snapshot manager and the processor see it. */
  datatype Note =
    | Started                        // performed or resumed: a new episode
    | BootSeen                       // the device has booted
    | SlotSeen                       // the current slot is marked successful
    | MetadataMounted
    | MergeInitiated                 // the snapshot manager was asked to merge
    | Stopped                        // suspended
    | Completed(code: ErrorCode)
    | Terminated

  datatype Config = Config(recovery: bool, virtualAb: bool)

  datatype State = State(
    config: Config,
    phase: Phase,
    running: bool,
    scheduled: Option<nat>,          // the task this action waits for
    pending: map<nat, Stage>,        // the tasks of this action on the message loop
    metadata: bool,                  // holds the metadata mount
    cancelFailed: bool,
    now: Option<Stage>,
    log: seq<Note>)

  function Fresh(config: Config): State {
    State(config, Created, false, None, map[], false, false, None, [])
  }

  function Say(s: State, note: Note): State {
    s.(log := s.log + [note])
  }

  // ---------------------------------------------------------------------------
  // Start and stop

  function Stop(s: State): State {
    s.(running := false, scheduled := None, now := None,
       pending := if s.scheduled.Some? then s.pending - {s.scheduled.value} else s.pending)
  }

  function Complete(s: State, code: ErrorCode): State {
    Say(Stop(s), Completed(code)).(metadata := false, phase := Over)
  }

  function Start(s: State): State {
    var t := Say(s, Started).(running := true, phase := Active);
    if !s.config.virtualAb then Complete(t, Success) else t.(now := Some(WaitBoot))
  }

  function Suspend(s: State): State {
    Say(Stop(s), Stopped).(phase := Suspended)
  }

  function Terminate(s: State): State {
    Say(Stop(s), Terminated).(phase := Over)
  }

  /** `id` is what the message loop answers to the request to run a stage later; nothing if it fails. */
  function Schedule(s: State, stage: Stage, id: Option<nat>): State {
    if !s.running then s.(now := None)
    else if id.None? then Complete(s, ERROR)
    else s.(scheduled := id, pending := s.pending[id.value := stage], now := None)
  }

  // ---------------------------------------------------------------------------
  // The stages

  function BootStage(s: State, bootCompleted: bool, id: Option<nat>): State {
    var t := s.(scheduled := None);
    if !t.running then t.(now := None)
    else if !t.config.recovery && !bootCompleted then Schedule(t, WaitBoot, id)
    else (if t.config.recovery then t else Say(t, BootSeen)).(now := Some(CheckSlot))
  }

  function WithMetadata(s: State, devices: CreateResult): State {
    if !s.metadata then Complete(s, if s.config.recovery then Success else ERROR)
    else if s.config.recovery && devices == CreateError then Complete(s, ERROR)
    else s.(now := Some(WaitMerge))
  }

  /** `mounts` answers the request to mount the metadata, if it is made. */
  function Mount(s: State, mounts: bool, devices: CreateResult): State {
    if s.metadata || !mounts then WithMetadata(s, devices)
    else WithMetadata(Say(s, MetadataMounted).(metadata := true), devices)
  }

  function SlotStage(s: State, marked: bool, mounts: bool, devices: CreateResult, id: Option<nat>): State {
    var t := s.(scheduled := None);
    if !t.running then t.(now := None)
    else if !t.config.recovery && !marked then Schedule(t, CheckSlot, id)
    else if t.config.recovery then Mount(t, mounts, devices)
    else Mount(Say(t, SlotSeen), mounts, devices)
  }

  /** `cancels` answers the request to cancel an update that is not there. */
  function ActOn(s: State, state: UpdateState, cancels: bool, id: Option<nat>): State {
    match state
    case NoUpdate => Complete(s, if cancels then Success else ERROR)
    case Initiated => Complete(s, Success)
    case Unverified => s.(now := Some(InitiateMerge))
    case Merging => Schedule(s, WaitMerge, id)
    case MergeNeedsReboot => Complete(s, ERROR)
    case MergeCompleted => Complete(s, Success)
    case MergeFailed => Complete(s, DEVICE_CORRUPTED)
    case Cancelled => Complete(s, if s.cancelFailed then ERROR else Success)
  }

  function Polled(s: State, resetFails: bool): State {
    s.(scheduled := None, cancelFailed := s.cancelFailed || resetFails)
  }

  /** `resetFails` says that the snapshot manager found the update cancelled but progress could not be
      reset. */
  function MergeStage(s: State, state: UpdateState, resetFails: bool, cancels: bool, id: Option<nat>): State {
    if !s.running then s.(scheduled := None, now := None) else ActOn(Polled(s, resetFails), state, cancels, id)
  }

  /** `dsu` says that a dynamic system update is running; `state` is the state after a failed request. */
  function InitiateStage(s: State, dsu: bool, initiates: bool, state: UpdateState): State {
    if !s.running then s.(now := None)
    else if dsu then Complete(s, ERROR)
    else
      var t := Say(s, MergeInitiated);
      if !initiates && state == Unverified then Complete(t, Success) else t.(now := Some(WaitMerge))
  }

  // ---------------------------------------------------------------------------
  // The action object

  class CleanupPreviousUpdateAction {
    const config: Config
    var phase: Phase
    var running: bool
    var scheduledTask: Option<nat>
    var pendingTasks: map<nat, Stage>
    var metadataDevice: bool
    var cancelFailed: bool
    var now: Option<Stage>
    ghost var log: seq<Note>

    ghost function View(): State
      reads this
    {
      State(config, phase, running, scheduledTask, pendingTasks, metadataDevice, cancelFailed, now, log)
    }

    constructor (config: Config)
      ensures View() == Fresh(config)
    {
      this.config, phase, running, scheduledTask := config, Created, false, None;
      pendingTasks, metadataDevice, cancelFailed, now := map[], false, false, None;
      log := [];
    }

    method StopActionInternal()
      modifies `running, `scheduledTask, `pendingTasks, `now
      ensures View() == Stop(old(View()))
    {
      running := false;
      now := None;
      if scheduledTask.Some? {
        pendingTasks := pendingTasks - {scheduledTask.value};
      }
      scheduledTask := None;
    }

    /** The processor is told that the action is complete, and tells the action. */
    method CompleteAction(code: ErrorCode)
      modifies `running, `scheduledTask, `pendingTasks, `now, `metadataDevice, `phase, `log
      ensures View() == Complete(old(View()), code)
    {
      StopActionInternal();
      metadataDevice := false;
      phase := Over;
      log := log + [Completed(code)];
    }

    /** Called to perform and to resume the action. */
    method StartActionInternal()
      modifies `running, `scheduledTask, `pendingTasks, `now, `metadataDevice, `phase, `log
      ensures View() == Start(old(View()))
    {
      running := true;
      phase := Active;
      log := log + [Started];
      if !config.virtualAb {
        CompleteAction(Success);
        return;
      }
      now := Some(WaitBoot);
    }

    method SuspendAction()
      modifies `running, `scheduledTask, `pendingTasks, `now, `phase, `log
      ensures View() == Suspend(old(View()))
    {
      StopActionInternal();
      phase := Suspended;
      log := log + [Stopped];
    }

    method TerminateProcessing()
      modifies `running, `scheduledTask, `pendingTasks, `now, `phase, `log
      ensures View() == Terminate(old(View()))
    {
      StopActionInternal();
      phase := Over;
      log := log + [Terminated];
    }

    method ScheduleTask(stage: Stage, id: Option<nat>)
      modifies `running, `scheduledTask, `pendingTasks, `now, `metadataDevice, `phase, `log
      ensures View() == Schedule(old(View()), stage, id)
    {
      if !running {
        now := None;
        return;
      }
      if id.None? {
        CompleteAction(ERROR);
        return;
      }
      scheduledTask := id;
      pendingTasks := pendingTasks[id.value := stage];
      now := None;
    }

    method WaitBootCompletedOrSchedule(bootCompleted: bool, id: Option<nat>)
      modifies `running, `scheduledTask, `pendingTasks, `now, `metadataDevice, `phase, `log
      ensures View() == BootStage(old(View()), bootCompleted, id)
    {
      scheduledTask := None;
      if !running {
        now := None;
        return;
      }
      if !config.recovery {
        if !bootCompleted {
          ScheduleTask(WaitBoot, id);
          return;
        }
        log := log + [BootSeen];
      }
      now := Some(CheckSlot);
    }

    method CheckSlotMarkedSuccessfulOrSchedule(marked: bool, mounts: bool, devices: CreateResult, id: Option<nat>)
      modifies `running, `scheduledTask, `pendingTasks, `now, `metadataDevice, `phase, `log
      ensures View() == SlotStage(old(View()), marked, mounts, devices, id)
    {
      scheduledTask := None;
      if !running {
        now := None;
        return;
      }
      if !config.recovery {
        if !marked {
          ScheduleTask(CheckSlot, id);
          return;
        }
        log := log + [SlotSeen];
      }
      MountMetadata(mounts, devices);
    }

    method MountMetadata(mounts: bool, devices: CreateResult)
      modifies `running, `scheduledTask, `pendingTasks, `now, `metadataDevice, `phase, `log
      ensures View() == Mount(old(View()), mounts, devices)
    {
      if !metadataDevice && mounts {
        metadataDevice := true;
        log := log + [MetadataMounted];
      }
      if !metadataDevice {
        CompleteAction(if config.recovery then Success else ERROR);
        return;
      }
      if config.recovery && devices == CreateError {
        CompleteAction(ERROR);
        return;
      }
      now := Some(WaitMerge);
    }

    method WaitForMergeOrSchedule(state: UpdateState, resetFails: bool, cancels: bool, id: Option<nat>)
      modifies `running, `scheduledTask, `pendingTasks, `now, `metadataDevice, `phase, `log, `cancelFailed
      ensures View() == MergeStage(old(View()), state, resetFails, cancels, id)
    {
      if !running {
        scheduledTask, now := None, None;
        return;
      }
      ProcessUpdateState(resetFails);
      ActOnState(state, cancels, id);
    }

    method ProcessUpdateState(resetFails: bool)
      modifies `scheduledTask, `cancelFailed
      ensures View() == Polled(old(View()), resetFails)
    {
      scheduledTask := None;
      if resetFails {
        cancelFailed := true;
      }
    }

    method ActOnState(state: UpdateState, cancels: bool, id: Option<nat>)
      modifies `running, `scheduledTask, `pendingTasks, `now, `metadataDevice, `phase, `log
      ensures View() == ActOn(old(View()), state, cancels, id)
    {
      match state
      case NoUpdate => CompleteAction(if cancels then Success else ERROR);
      case Initiated => CompleteAction(Success);
      case Unverified => now := Some(InitiateMerge);
      case Merging => ScheduleTask(WaitMerge, id);
      case MergeNeedsReboot => CompleteAction(ERROR);
      case MergeCompleted => CompleteAction(Success);
      case MergeFailed => CompleteAction(DEVICE_CORRUPTED);
      case Cancelled => CompleteAction(if cancelFailed then ERROR else Success);
    }

    method InitiateMergeAndWait(dsu: bool, initiates: bool, state: UpdateState)
      modifies `running, `scheduledTask, `pendingTasks, `now, `metadataDevice, `phase, `log
      ensures View() == InitiateStage(old(View()), dsu, initiates, state)
    {
      if !running {
        now := None;
        return;
      }
      if dsu {
        CompleteAction(ERROR);
        return;
      }
      log := log + [MergeInitiated];
      if initiates {
        now := Some(WaitMerge);
        return;
      }
      if state == Unverified {
        CompleteAction(Success);
        return;
      }
      now := Some(WaitMerge);
    }
  }
}
