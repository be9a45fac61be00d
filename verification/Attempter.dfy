/**
 The update attempter: it drives the action processor with an update pipeline or a cleanup-only run,
 keeps the status, the cleanup code and the persisted byte counters, and answers the service calls.
 */
module Attempter {
  import opened Common
  import opened Processor

  datatype Status =
    | Idle | UpdateAvailable | Downloading | Verifying | Finalizing | UpdatedNeedReboot | CleaningPreviousUpdate

  const USER_CANCELED: ErrorCode := Failure(48)

  /** What the outside gets to see of the attempter. */
  datatype Seen =
    | Restarted(cleared: bool)                                  // the process started, and cleared the metrics or not
    | Bytes(n: nat)                                             // bytes reported by the download
    | Finished(code: ErrorCode, size: nat, overhead: nat)       // an update ended; overhead in per cent, on success
    | CleanupOver(code: ErrorCode)                              // a cleanup ended
    | ResetTried(ok: bool)                                      // a reset while a reboot was due

  /** The attempter's fields; the two counters and the marker survive the process. */
  datatype Memory = Memory(
    status: Status,
    cleanupCode: Option<ErrorCode>,
    payloadSize: nat,
    currentBytes: nat,
    totalBytes: nat,
    completedMarker: bool,
    pendingStarts: nat,
    seen: seq<Seen>)

  /** The results of the four steps of a reset that have to succeed. */
  datatype ResetSteps = ResetSteps(setActiveSlot: bool, markSuccessful: bool, resetUpdate: bool, deleteMarker: bool) {
    predicate AllSucceed() {
      setActiveSlot && markSuccessful && resetUpdate && deleteMarker
    }
  }

  // ---------------------------------------------------------------------------
  // Notifications from the processor

  function OnActionCompleted(m: Memory, kind: Kind, code: ErrorCode): Memory {
    var t :=
      if kind == CleanupPreviousUpdate || (kind == NoOp && m.status == CleaningPreviousUpdate)
      then m.(cleanupCode := Some(code)) else m;
    if code != Success then t
    else
      match kind
      case UpdateBootFlags => t.(status := CleaningPreviousUpdate)
      case Download => t.(status := Verifying)
      case FilesystemVerifier => t.(status := Finalizing)
      case _ => t
  }

  /** The download overhead in per cent that a successful update reports. */
  function Overhead(total: nat, size: nat): nat
    requires total >= size ==> size > 0
  {
    if total >= size then (total - size) * 100 / size else 0
  }

  /** Reporting a success aborts when the payload size is unknown. */
  predicate Reportable(m: Memory, code: ErrorCode) {
    m.status != Idle && m.status != CleaningPreviousUpdate && code == Success && m.totalBytes >= m.payloadSize ==>
      m.payloadSize > 0
  }

  function Terminate(m: Memory, code: ErrorCode): Memory
    requires Reportable(m, code)
  {
    if m.status == Idle then m
    else if m.status == CleaningPreviousUpdate then
      m.(status := Idle, seen := m.seen + [CleanupOver(code)])
    else if code == Success then
      m.(status := UpdatedNeedReboot, currentBytes := 0, totalBytes := 0,
         seen := m.seen + [Finished(code, m.payloadSize, Overhead(m.totalBytes, m.payloadSize))])
    else
      m.(status := Idle, currentBytes := 0, seen := m.seen + [Finished(code, m.payloadSize, 0)])
  }

  function OnProcessingDone(m: Memory, code: ErrorCode): Memory
    requires Reportable(m, code)
  {
    if m.status != CleaningPreviousUpdate && code == Success
    then Terminate(m.(completedMarker := true), code)
    else Terminate(m, code)
  }

  function OnProcessingStopped(m: Memory): Memory {
    Terminate(m, USER_CANCELED)
  }

  function OnBytesReceived(m: Memory, n: nat): Memory {
    m.(status := Downloading, currentBytes := m.currentBytes + n, totalBytes := m.totalBytes + n,
       seen := m.seen + [Bytes(n)])
  }

  // ---------------------------------------------------------------------------
  // Attempter and processor together

  /** `virtualAb` decides which action cleans up: without Virtual A/B it is one that does nothing. */
  datatype World = World(virtualAb: bool, p: State, m: Memory)

  function CleanupKind(virtualAb: bool): Kind {
    if virtualAb then CleanupPreviousUpdate else NoOp
  }

  /** The six stages of an update. */
  function Pipeline(virtualAb: bool): seq<Kind> {
    [UpdateBootFlags, CleanupKind(virtualAb), InstallPlan, Download, FilesystemVerifier, PostinstallRunner]
  }

  /** An action that goes on after having been started. One that completes at once is the same action
      completed by the very next event. */
  function NewAction(kind: Kind): Action {
    Action(0, kind, Returns)
  }

  function EnqueueKinds(p: State, kinds: seq<Kind>): State
    decreases |kinds|
  {
    if kinds == [] then p else EnqueueKinds(Enqueue(p, NewAction(kinds[0])), kinds[1..])
  }

  function ScheduleCleanup(w: World): World {
    if Running(w.p) then w
    else
      w.(p := Start(Enqueue(w.p, NewAction(CleanupKind(w.virtualAb)))),
         m := w.m.(status := CleaningPreviousUpdate))
  }

  /** A new process on top of what an earlier one left behind. `rebooted` makes a marker of an earlier
      boot void; `clears` says whether the reboot bookkeeping clears the metrics. */
  function Restart(w: World, rebooted: bool, clears: bool): World {
    var marker := w.m.completedMarker && !rebooted;
    var cleared := clears && !marker;
    var current := if cleared then 0 else w.m.currentBytes;
    var m := Memory(Idle, None, 0, current, w.m.totalBytes, marker, 0, w.m.seen + [Restarted(cleared)]);
    if marker then World(w.virtualAb, INITIAL, m.(status := UpdatedNeedReboot))
    else ScheduleCleanup(World(w.virtualAb, INITIAL, m))
  }

  /** A device on which no update was ever attempted, before its first process starts. */
  function Factory(virtualAb: bool): World {
    World(virtualAb, INITIAL, Memory(Idle, None, 0, 0, 0, false, 0, []))
  }

  function PayloadApplied(w: World, accepted: bool, size: nat): World {
    if w.m.status == UpdatedNeedReboot || Running(w.p) || !accepted then w
    else
      w.(p := EnqueueKinds(w.p, Pipeline(w.virtualAb)),
         m := w.m.(status := UpdateAvailable, payloadSize := size, pendingStarts := w.m.pendingStarts + 1))
  }

  function StartTask(w: World): World
    requires w.m.pendingStarts > 0
  {
    w.(p := Start(w.p), m := w.m.(pendingStarts := w.m.pendingStarts - 1))
  }

  function UpdateSuspended(w: World): World {
    if !Running(w.p) then w else w.(p := Suspend(w.p, Returns))
  }

  /** Resuming ends the run when nothing is left to do. */
  predicate ResumeEndsRun(p: State) {
    p.suspended && p.current.None? && p.queue == []
  }

  function UpdateResumed(w: World): World
    requires ResumeEndsRun(w.p) ==> Reportable(w.m, w.p.held)
  {
    if !Running(w.p) then w
    else if ResumeEndsRun(w.p) then w.(p := Resume(w.p, Returns), m := OnProcessingDone(w.m, w.p.held))
    else w.(p := Resume(w.p, Returns))
  }

  function UpdateCancelled(w: World): World {
    if !Running(w.p) then w else w.(p := Stop(w.p), m := OnProcessingStopped(w.m))
  }

  function StatusReset(m: Memory, steps: ResetSteps): Memory {
    if m.status != UpdatedNeedReboot then m
    else
      var t := m.(completedMarker := m.completedMarker && !steps.deleteMarker, currentBytes := 0,
                  seen := m.seen + [ResetTried(steps.AllSucceed())]);
      if steps.AllSucceed() then t.(status := Idle) else t
  }

  function CleanupRequested(w: World): World {
    if w.m.cleanupCode.Some? then w else ScheduleCleanup(w)
  }

  /** The completion of the current action ends the run. */
  predicate CompletionEndsRun(p: State, code: ErrorCode) {
    !p.suspended && (p.queue == [] || code != Success)
  }

  function CurrentActionEnds(w: World, code: ErrorCode): World
    requires w.p.current.Some?
    requires CompletionEndsRun(w.p, code) ==>
               Reportable(OnActionCompleted(w.m, w.p.current.value.kind, code), code)
  {
    var m := OnActionCompleted(w.m, w.p.current.value.kind, code);
    w.(p := Complete(w.p, code), m := if CompletionEndsRun(w.p, code) then OnProcessingDone(m, code) else m)
  }

  // ---------------------------------------------------------------------------
  // The attempter object

  class UpdateAttempter {
    const virtualAb: bool
    const processor: ActionProcessor
    var status: Status
    var cleanupPreviousUpdateCode: Option<ErrorCode>
    var payloadSize: nat
    var prefsCurrentBytesDownloaded: nat
    var prefsTotalBytesDownloaded: nat
    var prefsUpdateCompletedOnThisBoot: bool
    var pendingStarts: nat  // starts posted to the message loop
    ghost var seen: seq<Seen>

    ghost function Own(): Memory
      reads this
    {
      Memory(status, cleanupPreviousUpdateCode, payloadSize, prefsCurrentBytesDownloaded,
             prefsTotalBytesDownloaded, prefsUpdateCompletedOnThisBoot, pendingStarts, seen)
    }

    ghost function View(): World
      reads this, processor
    {
      World(virtualAb, processor.View(), Own())
    }

    /** A new process over the persisted values; `earlier` is what was seen before it. */
    constructor (virtualAb: bool, current: nat, total: nat, marker: bool, clears: bool, ghost earlier: World)
      requires earlier.virtualAb == virtualAb
      requires current == earlier.m.currentBytes && total == earlier.m.totalBytes
      requires marker ==> earlier.m.completedMarker
      ensures fresh(processor)
      ensures View() == Restart(earlier, !marker, clears)
    {
      this.virtualAb := virtualAb;
      processor := new ActionProcessor();
      status, cleanupPreviousUpdateCode, payloadSize := Idle, None, 0;
      prefsCurrentBytesDownloaded := if clears && !marker then 0 else current;
      prefsTotalBytesDownloaded := total;
      prefsUpdateCompletedOnThisBoot, pendingStarts := marker, 0;
      seen := earlier.m.seen + [Restarted(clears && !marker)];
      new;
      if marker {
        status := UpdatedNeedReboot;
      } else {
        ScheduleCleanupPreviousUpdate();
      }
    }

    method ScheduleCleanupPreviousUpdate()
      modifies this, processor
      ensures View() == ScheduleCleanup(old(View()))
    {
      if processor.IsRunning() {
        return;
      }
      processor.EnqueueAction(NewAction(CleanupKind(virtualAb)));
      status := CleaningPreviousUpdate;
      processor.StartProcessing();
    }

    /** `accepted` stands for the checks of headers and network that come after the guards. */
    method ApplyPayload(accepted: bool, size: nat) returns (ok: bool)
      modifies this, processor
      ensures View() == PayloadApplied(old(View()), accepted, size)
      ensures ok <==> old(status) != UpdatedNeedReboot && !old(processor.IsRunning()) && accepted
    {
      if status == UpdatedNeedReboot {
        return false;
      }
      if processor.IsRunning() {
        return false;
      }
      if !accepted {
        return false;
      }
      payloadSize := size;
      BuildUpdateActions();
      status := UpdateAvailable;
      pendingStarts := pendingStarts + 1;
      return true;
    }

    method BuildUpdateActions()
      requires !processor.IsRunning()
      modifies processor
      ensures processor.View() == EnqueueKinds(old(processor.View()), Pipeline(virtualAb))
    {
      var kinds, i := Pipeline(virtualAb), 0;
      while i < |kinds|
        invariant i <= |kinds|
        invariant EnqueueKinds(processor.View(), kinds[i..]) == EnqueueKinds(old(processor.View()), kinds)
      {
        assert kinds[i..][1..] == kinds[i + 1..];
        processor.EnqueueAction(NewAction(kinds[i]));
        i := i + 1;
      }
    }

    /** The task that ScheduleProcessingStart posted. */
    method RunPostedStart()
      requires pendingStarts > 0 && !processor.IsRunning()
      modifies this, processor
      ensures View() == StartTask(old(View()))
    {
      pendingStarts := pendingStarts - 1;
      processor.StartProcessing();
    }

    method SuspendUpdate() returns (ok: bool)
      modifies processor
      ensures View() == UpdateSuspended(old(View()))
      ensures ok <==> old(processor.IsRunning())
    {
      if !processor.IsRunning() {
        return false;
      }
      processor.SuspendProcessing(Returns);
      return true;
    }

    method ResumeUpdate() returns (ok: bool)
      requires ResumeEndsRun(processor.View()) ==> Reportable(Own(), processor.suspendedErrorCode)
      requires AllReturn(processor.actions)
      modifies this, processor
      ensures View() == UpdateResumed(old(View()))
      ensures ok <==> old(processor.IsRunning())
    {
      if !processor.IsRunning() {
        return false;
      }
      NextReturns(Say(processor.View(), ResumedNow).(suspended := false), processor.suspendedErrorCode);
      processor.ResumeProcessing(Returns);
      if !processor.IsRunning() {
        ProcessingDone(processor.suspendedErrorCode);
      }
      return true;
    }

    method CancelUpdate() returns (ok: bool)
      modifies this, processor
      ensures View() == UpdateCancelled(old(View()))
      ensures ok <==> old(processor.IsRunning())
    {
      if !processor.IsRunning() {
        return false;
      }
      processor.StopProcessing();
      ProcessingStopped();
      return true;
    }

    method ResetStatus(steps: ResetSteps) returns (ok: bool)
      modifies this
      ensures Own() == StatusReset(old(Own()), steps)
      ensures ok <==> old(status) == Idle || (old(status) == UpdatedNeedReboot && steps.AllSucceed())
    {
      match status
      case Idle =>
        return true;
      case UpdatedNeedReboot =>
        var result := true;
        if !steps.setActiveSlot {
          result := false;
        }
        if !steps.markSuccessful {
          result := false;
        }
        if !steps.resetUpdate {
          result := false;
        }
        if steps.deleteMarker {
          prefsUpdateCompletedOnThisBoot := false;
        } else {
          result := false;
        }
        ClearMetricsPrefs();
        seen := seen + [ResetTried(result)];
        if !result {
          return false;
        }
        status := Idle;
        return true;
      case _ =>
        return false;
    }

    method ClearMetricsPrefs()
      modifies `prefsCurrentBytesDownloaded
      ensures prefsCurrentBytesDownloaded == 0
    {
      prefsCurrentBytesDownloaded := 0;
    }

    method CleanupSuccessfulUpdate() returns (known: Option<ErrorCode>)
      modifies this, processor
      ensures View() == CleanupRequested(old(View()))
      ensures known == old(cleanupPreviousUpdateCode)
    {
      known := cleanupPreviousUpdateCode;
      if known.None? {
        ScheduleCleanupPreviousUpdate();
      }
    }

    /** The current action completes: the processor tells the attempter, moves on, and reports the end of
        the run, if it is one. */
    method CompleteCurrentAction(code: ErrorCode)
      requires processor.currentAction.Some? && AllReturn(processor.actions)
      requires CompletionEndsRun(processor.View(), code) ==>
                 Reportable(OnActionCompleted(Own(), processor.currentAction.value.kind, code), code)
      modifies this, processor
      ensures View() == CurrentActionEnds(old(View()), code)
    {
      var action := processor.currentAction.value;
      CompletionReturns(processor.View(), code);
      ActionCompleted(action.kind, code);
      processor.ActionComplete(action, code);
      if !processor.IsRunning() {
        ProcessingDone(code);
      }
    }

    method ActionCompleted(kind: Kind, code: ErrorCode)
      modifies this
      ensures Own() == OnActionCompleted(old(Own()), kind, code)
    {
      if kind == CleanupPreviousUpdate || (kind == NoOp && status == CleaningPreviousUpdate) {
        cleanupPreviousUpdateCode := Some(code);
      }
      if code != Success {
        return;
      }
      if kind == UpdateBootFlags {
        status := CleaningPreviousUpdate;
      }
      if kind == Download {
        status := Verifying;
      } else if kind == FilesystemVerifier {
        status := Finalizing;
      }
    }

    method BytesReceived(n: nat)
      modifies this
      ensures Own() == OnBytesReceived(old(Own()), n)
    {
      status := Downloading;
      prefsCurrentBytesDownloaded := prefsCurrentBytesDownloaded + n;
      prefsTotalBytesDownloaded := prefsTotalBytesDownloaded + n;
      seen := seen + [Bytes(n)];
    }

    method ProcessingDone(code: ErrorCode)
      requires Reportable(Own(), code)
      modifies this
      ensures Own() == OnProcessingDone(old(Own()), code)
    {
      if status == CleaningPreviousUpdate {
        TerminateUpdateAndNotify(code);
        return;
      }
      if code == Success {
        prefsUpdateCompletedOnThisBoot := true;
      }
      TerminateUpdateAndNotify(code);
    }

    method ProcessingStopped()
      modifies this
      ensures Own() == OnProcessingStopped(old(Own()))
    {
      TerminateUpdateAndNotify(USER_CANCELED);
    }

    method TerminateUpdateAndNotify(code: ErrorCode)
      requires Reportable(Own(), code)
      modifies this
      ensures Own() == Terminate(old(Own()), code)
    {
      if status == Idle {
        return;
      }
      if status == CleaningPreviousUpdate {
        status := Idle;
        seen := seen + [CleanupOver(code)];
        return;
      }
      status := if code == Success then UpdatedNeedReboot else Idle;
      var overhead := 0;
      if code == Success && prefsTotalBytesDownloaded >= payloadSize {
        overhead := (prefsTotalBytesDownloaded - payloadSize) * 100 / payloadSize;
      }
      seen := seen + [Finished(code, payloadSize, overhead)];
      ClearMetricsPrefs();
      if code == Success {
        prefsTotalBytesDownloaded := 0;
      }
    }
  }
}
