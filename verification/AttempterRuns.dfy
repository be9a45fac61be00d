/**
 Every run of the update attempter, over service calls, posted tasks, action completions and
 restarts of the process: when a reboot becomes due, what takes that back, how runs end, and what the
 byte counters count.
 */
module AttempterRuns {
  import opened Common
  import opened Processor
  import opened Attempter

  // ---------------------------------------------------------------------------
  // Events

  datatype Event =
    | Restarts(rebooted: bool, clears: bool)
    | AppliesPayload(accepted: bool, size: nat)
    | PostedStartRuns
    | Suspends
    | Resumes
    | Cancels
    | Resets(steps: ResetSteps)
    | RequestsCleanup
    | ActionEnds(code: ErrorCode)
    | ReceivesBytes(n: nat)

  /** The events on which nothing aborts, and that can happen at all. */
  predicate Enabled(w: World, e: Event) {
    match e
    case AppliesPayload(_, _) => w.m.status != UpdatedNeedReboot && !Running(w.p) ==> w.m.status == Idle
    case PostedStartRuns => w.m.pendingStarts > 0 && !Running(w.p)
    case Resumes => ResumeEndsRun(w.p) ==> Reportable(w.m, w.p.held)
    case ActionEnds(code) =>
      && w.p.current.Some?
      && (CompletionEndsRun(w.p, code) ==> Reportable(OnActionCompleted(w.m, w.p.current.value.kind, code), code))
    case ReceivesBytes(_) => w.p.current.Some? && w.p.current.value.kind == Download
    case _ => true
  }

  function Step(w: World, e: Event): World
    requires Enabled(w, e)
  {
    match e
    case Restarts(rebooted, clears) => Restart(w, rebooted, clears)
    case AppliesPayload(accepted, size) => PayloadApplied(w, accepted, size)
    case PostedStartRuns => StartTask(w)
    case Suspends => UpdateSuspended(w)
    case Resumes => UpdateResumed(w)
    case Cancels => UpdateCancelled(w)
    case Resets(steps) => w.(m := StatusReset(w.m, steps))
    case RequestsCleanup => CleanupRequested(w)
    case ActionEnds(code) => CurrentActionEnds(w, code)
    case ReceivesBytes(n) => w.(m := OnBytesReceived(w.m, n))
  }

  /** The first process on a new device, after the given events. */
  function Run(virtualAb: bool, events: seq<Event>): Option<World> {
    if events == [] then Some(Restart(Factory(virtualAb), true, true))
    else
      var before, e := Run(virtualAb, events[..|events| - 1]), events[|events| - 1];
      if before.Some? && Enabled(before.value, e) then Some(Step(before.value, e)) else None
  }

  // ---------------------------------------------------------------------------
  // Stages of a run

  /** The stages that completed since processing last began. */
  function Stages(log: seq<Note>): seq<Kind> {
    if log == [] then []
    else
      match log[|log| - 1]
      case Begun => []
      case Completed(a, _, _) => Stages(log[..|log| - 1]) + [a.kind]
      case _ => Stages(log[..|log| - 1])
  }

  /** All of them with success. */
  predicate AllWell(log: seq<Note>) {
    log == [] ||
    match log[|log| - 1]
    case Begun => true
    case Completed(_, code, _) => code == Success && AllWell(log[..|log| - 1])
    case _ => AllWell(log[..|log| - 1])
  }

  function Kinds(queue: seq<Action>): seq<Kind> {
    seq(|queue|, (i: nat) requires i < |queue| => queue[i].kind)
  }

  function Remaining(p: State): seq<Kind> {
    (if p.current.Some? then [p.current.value.kind] else []) + Kinds(p.queue)
  }

  /** A run in progress that has completed the first `k` stages of a plan, all with success. */
  predicate OnPlan(p: State, plan: seq<Kind>, k: nat) {
    && k <= |plan|
    && Running(p) && AllReturn(p.queue) && (p.current.None? ==> p.held == Success)
    && AllWell(p.log)
    && Stages(p.log) == plan[..k]
    && Remaining(p) == plan[k..]
  }

  /** A run that failed while it was suspended. */
  predicate FailedSuspended(p: State) {
    p.suspended && p.current.None? && p.queue == [] && p.held != Success && !AllWell(p.log)
  }

  /** A run that came to its end by itself. */
  predicate JustDone(p: State, code: ErrorCode) {
    !Running(p) && p.queue == [] && p.log != [] && p.log[|p.log| - 1] == Done(code)
  }

  lemma SayMore(log: seq<Note>, note: Note)
    ensures !note.Begun? && !note.Completed? ==>
              Stages(log + [note]) == Stages(log) && AllWell(log + [note]) == AllWell(log)
    ensures note.Begun? ==> Stages(log + [note]) == [] && AllWell(log + [note])
    ensures note.Completed? ==>
              && Stages(log + [note]) == Stages(log) + [note.action.kind]
              && AllWell(log + [note]) == (note.code == Success && AllWell(log))
  {
    Extend(log, note);
  }

  lemma Advance(plan: seq<Kind>, k: nat)
    requires k < |plan|
    ensures plan[..k + 1] == plan[..k] + [plan[k]]
    ensures plan[k..] == [plan[k]] + plan[k + 1..]
    ensures plan[k..][1..] == plan[k + 1..]
  {
  }

  lemma TailKinds(queue: seq<Action>)
    requires queue != []
    ensures Kinds(queue) == [queue[0].kind] + Kinds(queue[1..])
  {
  }

  lemma SameHead<T>(x: T, xs: seq<T>, y: T, ys: seq<T>)
    requires [x] + xs == [y] + ys
    ensures x == y && xs == ys
  {
    assert ([x] + xs)[0] == x && ([y] + ys)[0] == y;
    assert ([x] + xs)[1..] == xs && ([y] + ys)[1..] == ys;
  }

  /** What a plan says about its next stage. */
  lemma CurrentStage(p: State, plan: seq<Kind>, k: nat)
    requires OnPlan(p, plan, k) && p.current.Some?
    ensures k < |plan| && p.current.value.kind == plan[k] && Kinds(p.queue) == plan[k + 1..]
  {
    assert |Remaining(p)| == 1 + |p.queue|;
    Advance(plan, k);
    SameHead(p.current.value.kind, Kinds(p.queue), plan[k], plan[k + 1..]);
  }

  lemma TakeNextStage(p: State, plan: seq<Kind>, k: nat)
    requires k < |plan| && p.queue != [] && AllReturn(p.queue)
    requires AllWell(p.log) && Stages(p.log) == plan[..k] && Kinds(p.queue) == plan[k..]
    ensures OnPlan(TakeNext(p), plan, k)
  {
    SayMore(p.log, Performed(p.queue[0]));
    TailKinds(p.queue);
  }

  lemma StageSucceeds(p: State, plan: seq<Kind>, k: nat)
    requires OnPlan(p, plan, k) && p.current.Some?
    ensures var t := EndCurrent(p, Success);
            k < |plan| && AllWell(t.log) && Stages(t.log) == plan[..k + 1] && Kinds(t.queue) == plan[k + 1..]
  {
    CurrentStage(p, plan, k);
    Advance(plan, k);
    SayMore(p.log, Completed(p.current.value, Success, []));
  }

  lemma CompletesStage(p: State, plan: seq<Kind>, k: nat)
    requires OnPlan(p, plan, k) && p.current.Some?
    ensures k < |plan| && p.current.value.kind == plan[k]
    ensures var t := Complete(p, Success);
            if p.suspended || k + 1 < |plan| then OnPlan(t, plan, k + 1)
            else JustDone(t, Success) && AllWell(t.log) && Stages(t.log) == plan
    ensures k + 1 == |plan| <==> p.queue == []
  {
    CurrentStage(p, plan, k);
    StageSucceeds(p, plan, k);
    CompletionReturns(p, Success);
    var t := EndCurrent(p, Success);
    assert |Kinds(t.queue)| == |t.queue|;
    if p.suspended {
      assert Remaining(t) == Kinds(t.queue);
    } else if t.queue != [] {
      TakeNextStage(t, plan, k + 1);
    } else {
      SayMore(t.log, Done(Success));
    }
  }

  lemma StageFails(p: State, code: ErrorCode)
    requires p.current.Some? && AllReturn(p.queue) && code != Success
    ensures var t := Complete(p, code);
            if p.suspended then FailedSuspended(t) else JustDone(t, code) && !AllWell(t.log)
  {
    CompletionReturns(p, code);
    SayMore(p.log, Completed(p.current.value, code, p.queue));
    SayMore(EndCurrent(p, code).log, Done(code));
  }

  lemma ResumesPlan(p: State, plan: seq<Kind>, k: nat)
    requires OnPlan(p, plan, k) && p.suspended
    ensures var t := Resume(p, Returns);
            if ResumeEndsRun(p) then JustDone(t, Success) && AllWell(t.log) && Stages(t.log) == plan
            else OnPlan(t, plan, k)
    ensures ResumeEndsRun(p) <==> k == |plan|
  {
    var t := Say(p, ResumedNow).(suspended := false);
    SayMore(p.log, ResumedNow);
    assert |Remaining(p)| == |plan| - k;
    if p.current.None? {
      NextReturns(t, p.held);
      assert Remaining(p) == Kinds(p.queue);
      if p.queue == [] {
        SayMore(t.log, Done(Success));
      } else {
        TakeNextStage(t, plan, k);
      }
    }
  }

  lemma ResumesFailed(p: State)
    requires FailedSuspended(p)
    ensures JustDone(Resume(p, Returns), p.held) && !AllWell(Resume(p, Returns).log)
  {
    SayMore(p.log, ResumedNow);
    SayMore(p.log + [ResumedNow], Done(p.held));
  }

  lemma SuspendsPlan(p: State, plan: seq<Kind>, k: nat)
    requires OnPlan(p, plan, k)
    ensures OnPlan(Suspend(p, Returns), plan, k)
  {
    SayMore(p.log, SuspendedNow);
  }

  lemma StartsPlan(p: State, plan: seq<Kind>)
    requires plan != [] && Kinds(p.queue) == plan && AllReturn(p.queue) && !Running(p)
    ensures OnPlan(Start(p), plan, 0)
  {
    SayMore(p.log, Begun);
    assert |Kinds(p.queue)| == |p.queue| && p.queue[0] in p.queue;
    TakeNextStage(Say(p, Begun), plan, 0);
  }

  lemma EnqueueOne(p: State, kind: Kind)
    requires AllReturn(p.queue)
    ensures AllReturn(Enqueue(p, NewAction(kind)).queue)
    ensures Kinds(Enqueue(p, NewAction(kind)).queue) == Kinds(p.queue) + [kind]
  {
  }

  lemma {:induction false} EnqueueMore(p: State, kinds: seq<Kind>)
    requires AllReturn(p.queue)
    ensures AllReturn(EnqueueKinds(p, kinds).queue)
    ensures Kinds(EnqueueKinds(p, kinds).queue) == Kinds(p.queue) + kinds
    ensures EnqueueKinds(p, kinds).current == p.current && EnqueueKinds(p, kinds).suspended == p.suspended
    decreases |kinds|
  {
    if kinds != [] {
      var t := Enqueue(p, NewAction(kinds[0]));
      EnqueueOne(p, kinds[0]);
      EnqueueMore(t, kinds[1..]);
      assert (Kinds(p.queue) + [kinds[0]]) + kinds[1..] == Kinds(p.queue) + kinds;
    }
  }

  // ---------------------------------------------------------------------------
  // Plans and the status that goes with each stage

  /** A cleanup may be requested while the start of an update is still posted; then one run does both. */
  datatype Plan = CleanupOnly | Update | UpdateThenCleanup

  function PlanKinds(virtualAb: bool, plan: Plan): seq<Kind> {
    match plan
    case CleanupOnly => [CleanupKind(virtualAb)]
    case Update => Pipeline(virtualAb)
    case UpdateThenCleanup => Pipeline(virtualAb) + [CleanupKind(virtualAb)]
  }

  /** The status after `k` stages. */
  predicate StatusAt(plan: Plan, k: nat, status: Status) {
    if plan == CleanupOnly || k == 1 || k == 2 then status == CleaningPreviousUpdate
    else if k == 0 then status == if plan == Update then UpdateAvailable else CleaningPreviousUpdate
    else if k == 3 then status == CleaningPreviousUpdate || status == Downloading
    else if k == 4 then status == Verifying
    else status == Finalizing
  }

  /** What the attempter remembers after `k` stages. */
  predicate MemoryAt(m: Memory, plan: Plan, k: nat) {
    StatusAt(plan, k, m.status) && (k >= 2 ==> m.cleanupCode.Some?)
  }

  predicate AtStage(w: World, plan: Plan, k: nat) {
    OnPlan(w.p, PlanKinds(w.virtualAb, plan), k) && MemoryAt(w.m, plan, k)
  }

  predicate Working(w: World) {
    var k := |Stages(w.p.log)|;
    AtStage(w, CleanupOnly, k) || AtStage(w, Update, k) || AtStage(w, UpdateThenCleanup, k)
  }

  predicate Failing(w: World) {
    FailedSuspended(w.p) && w.m.status != Idle && w.m.status != UpdatedNeedReboot
  }

  /** Nothing runs: nothing is queued, or an update whose start is posted. */
  predicate Resting(w: World) {
    && !Running(w.p) && AllReturn(w.p.queue)
    && if w.p.queue == [] then w.m.status == Idle || w.m.status == UpdatedNeedReboot
       else w.m.status == UpdateAvailable && Kinds(w.p.queue) == Pipeline(w.virtualAb)
  }

  predicate Phased(w: World) {
    Resting(w) || Working(w) || Failing(w)
  }

  /** The one plan and stage of a working world. */
  lemma TheStage(w: World) returns (plan: Plan, k: nat)
    requires Working(w)
    ensures k == |Stages(w.p.log)| && AtStage(w, plan, k)
  {
    k := |Stages(w.p.log)|;
    plan := if AtStage(w, CleanupOnly, k) then CleanupOnly
            else if AtStage(w, Update, k) then Update else UpdateThenCleanup;
  }

  lemma StageIsWorking(w: World, plan: Plan, k: nat)
    requires AtStage(w, plan, k)
    ensures Working(w)
  {
    assert |Stages(w.p.log)| == k;
  }

  // ---------------------------------------------------------------------------
  // What each event does to a run

  /** A run that did all six stages of an update with success, and ended by itself. */
  predicate FullyUpdated(w: World) {
    JustDone(w.p, Success) && AllWell(w.p.log) && Pipeline(w.virtualAb) <= Stages(w.p.log)
  }

  /** The cleanup code is known once an update has finished in this process. */
  predicate Recorded(m: Memory) {
    FinishedHere(m.seen) ==> m.cleanupCode.Some?
  }

  /** An update finished with success since the process started. */
  predicate FinishedHere(seen: seq<Seen>) {
    seen != [] &&
    match seen[|seen| - 1]
    case Restarted(_) => false
    case Finished(code, _, _) => code == Success || FinishedHere(seen[..|seen| - 1])
    case _ => FinishedHere(seen[..|seen| - 1])
  }

  ghost predicate Follows(w: World, v: World) {
    && Phased(v) && Recorded(v.m)
    && v.virtualAb == w.virtualAb
    && (Running(w.p) && !Running(v.p) ==> v.m.status == if FullyUpdated(v) then UpdatedNeedReboot else Idle)
    && (!Running(w.p) && v.m.status == UpdatedNeedReboot ==> w.m.status == UpdatedNeedReboot)
  }

  lemma SeeMore(seen: seq<Seen>, note: Seen)
    ensures (seen + [note])[..|seen + [note]| - 1] == seen
    ensures !note.Restarted? && !(note.Finished? && note.code == Success) ==>
              FinishedHere(seen + [note]) == FinishedHere(seen)
    ensures note.Restarted? ==> !FinishedHere(seen + [note])
  {
  }

  lemma NextStatus(virtualAb: bool, plan: Plan, k: nat, m: Memory)
    requires k < |PlanKinds(virtualAb, plan)| && MemoryAt(m, plan, k)
    ensures MemoryAt(OnActionCompleted(m, PlanKinds(virtualAb, plan)[k], Success), plan, k + 1)
  {
  }

  /** The plan that was completed decides where a successful end leads. */
  lemma SuccessfulEnd(w: World, v: World, plan: Plan, k: nat)
    requires k == |PlanKinds(w.virtualAb, plan)| && k > 0 && v.virtualAb == w.virtualAb
    requires MemoryAt(w.m, plan, k) && Recorded(w.m)
    requires Reportable(w.m, Success) && v.m == OnProcessingDone(w.m, Success)
    requires JustDone(v.p, Success) && AllWell(v.p.log) && Stages(v.p.log) == PlanKinds(w.virtualAb, plan)
    ensures Resting(v) && Recorded(v.m)
    ensures v.m.status == if FullyUpdated(v) then UpdatedNeedReboot else Idle
  {
    SeeMore(w.m.seen, CleanupOver(Success));
    var kinds := Pipeline(w.virtualAb);
    if plan == CleanupOnly {
      assert |Stages(v.p.log)| < |kinds|;
    } else {
      assert kinds <= PlanKinds(w.virtualAb, plan);
    }
  }

  lemma FailedEnd(w: World, v: World, code: ErrorCode)
    requires code != Success && v.virtualAb == w.virtualAb
    requires v.m == Terminate(w.m, code) && w.m.status != UpdatedNeedReboot && Recorded(w.m)
    requires !Running(v.p) && v.p.queue == [] && !FullyUpdated(v)
    ensures Resting(v) && Recorded(v.m) && v.m.status == Idle
  {
    SeeMore(w.m.seen, CleanupOver(code));
    SeeMore(w.m.seen, Finished(code, w.m.payloadSize, 0));
  }

  lemma NothingFollows(w: World)
    requires Phased(w) && Recorded(w.m)
    ensures Follows(w, w)
  {
  }

  lemma WorkingStatus(w: World)
    requires Working(w)
    ensures w.m.status != Idle && w.m.status != UpdatedNeedReboot && Running(w.p) && AllReturn(w.p.queue)
  {
  }

  lemma StageFollows(w: World, v: World, plan: Plan, k: nat)
    requires AtStage(v, plan, k) && Recorded(v.m) && v.virtualAb == w.virtualAb
    ensures Follows(w, v)
  {
    StageIsWorking(v, plan, k);
    WorkingStatus(v);
  }

  lemma CompletionIsRecorded(m: Memory, kind: Kind, code: ErrorCode)
    requires Recorded(m)
    ensures Recorded(OnActionCompleted(m, kind, code))
  {
  }

  lemma NextStage(w: World, v: World, plan: Plan, k: nat)
    requires AtStage(w, plan, k) && Recorded(w.m) && v.virtualAb == w.virtualAb
    requires k < |PlanKinds(w.virtualAb, plan)|
    requires OnPlan(v.p, PlanKinds(w.virtualAb, plan), k + 1)
    requires v.m == OnActionCompleted(w.m, PlanKinds(w.virtualAb, plan)[k], Success)
    ensures Follows(w, v)
  {
    NextStatus(w.virtualAb, plan, k, w.m);
    CompletionIsRecorded(w.m, PlanKinds(w.virtualAb, plan)[k], Success);
    StageFollows(w, v, plan, k + 1);
  }

  lemma StageGoesOn(w: World, plan: Plan, k: nat)
    requires AtStage(w, plan, k) && Recorded(w.m) && w.p.current.Some? && !CompletionEndsRun(w.p, Success)
    ensures Follows(w, CurrentActionEnds(w, Success))
  {
    CompletesStage(w.p, PlanKinds(w.virtualAb, plan), k);
    NextStage(w, CurrentActionEnds(w, Success), plan, k);
  }

  lemma LastStage(w: World, plan: Plan, k: nat)
    requires AtStage(w, plan, k) && Recorded(w.m) && Enabled(w, ActionEnds(Success))
    requires CompletionEndsRun(w.p, Success)
    ensures Follows(w, CurrentActionEnds(w, Success))
  {
    var kinds := PlanKinds(w.virtualAb, plan);
    CompletesStage(w.p, kinds, k);
    NextStatus(w.virtualAb, plan, k, w.m);
    SuccessfulEnd(w.(m := OnActionCompleted(w.m, kinds[k], Success)), CurrentActionEnds(w, Success), plan, k + 1);
  }

  lemma ActionSucceeds(w: World)
    requires Working(w) && Recorded(w.m) && Enabled(w, ActionEnds(Success))
    ensures Follows(w, Step(w, ActionEnds(Success)))
  {
    var plan, k := TheStage(w);
    if CompletionEndsRun(w.p, Success) {
      LastStage(w, plan, k);
    } else {
      StageGoesOn(w, plan, k);
    }
  }

  lemma ActionFails(w: World, code: ErrorCode)
    requires Working(w) && Recorded(w.m) && Enabled(w, ActionEnds(code)) && code != Success
    ensures Follows(w, Step(w, ActionEnds(code)))
  {
    WorkingStatus(w);
    StageFails(w.p, code);
    var t := w.(m := OnActionCompleted(w.m, w.p.current.value.kind, code));
    if !w.p.suspended {
      FailedEnd(t, Step(w, ActionEnds(code)), code);
    }
  }

  lemma ResumeFollows(w: World)
    requires Phased(w) && Recorded(w.m) && Enabled(w, Resumes)
    ensures Follows(w, Step(w, Resumes))
  {
    var v := Step(w, Resumes);
    if Working(w) && w.p.suspended {
      var plan, k := TheStage(w);
      ResumesPlan(w.p, PlanKinds(w.virtualAb, plan), k);
      if ResumeEndsRun(w.p) {
        SuccessfulEnd(w, v, plan, k);
      } else {
        StageIsWorking(v, plan, k);
      }
    } else if Failing(w) {
      ResumesFailed(w.p);
      FailedEnd(w, v, w.p.held);
    }
  }

  lemma SuspendFollows(w: World)
    requires Phased(w) && Recorded(w.m)
    ensures Follows(w, Step(w, Suspends))
  {
    if Working(w) {
      var plan, k := TheStage(w);
      SuspendsPlan(w.p, PlanKinds(w.virtualAb, plan), k);
      StageIsWorking(Step(w, Suspends), plan, k);
    }
  }

  lemma CancelFollows(w: World)
    requires Phased(w) && Recorded(w.m)
    ensures Follows(w, Step(w, Cancels))
  {
    if Running(w.p) {
      if Working(w) {
        WorkingStatus(w);
      }
      FailedEnd(w, Step(w, Cancels), USER_CANCELED);
    } else {
      NothingFollows(w);
    }
  }

  lemma DownloadIsThird(virtualAb: bool, plan: Plan, k: nat)
    requires k < |PlanKinds(virtualAb, plan)| && PlanKinds(virtualAb, plan)[k] == Download
    ensures plan != CleanupOnly && k == 3
  {
  }

  lemma BytesRemembered(m: Memory, plan: Plan, n: nat)
    requires plan != CleanupOnly && MemoryAt(m, plan, 3) && Recorded(m)
    ensures MemoryAt(OnBytesReceived(m, n), plan, 3) && Recorded(OnBytesReceived(m, n))
  {
    SeeMore(m.seen, Bytes(n));
  }

  lemma BytesFollow(w: World, n: nat)
    requires Phased(w) && Recorded(w.m) && Enabled(w, ReceivesBytes(n))
    ensures Follows(w, Step(w, ReceivesBytes(n)))
  {
    var plan, k := TheStage(w);
    CurrentStage(w.p, PlanKinds(w.virtualAb, plan), k);
    DownloadIsThird(w.virtualAb, plan, k);
    BytesRemembered(w.m, plan, n);
    StageFollows(w, w.(m := OnBytesReceived(w.m, n)), plan, k);
  }

  lemma CleanupStarts(w: World)
    requires Resting(w) && Recorded(w.m)
    ensures Working(ScheduleCleanup(w)) && Recorded(ScheduleCleanup(w).m)
  {
    var kind := CleanupKind(w.virtualAb);
    var p := Enqueue(w.p, NewAction(kind));
    EnqueueOne(w.p, kind);
    var plan := if w.p.queue == [] then CleanupOnly else UpdateThenCleanup;
    assert Kinds(p.queue) == PlanKinds(w.virtualAb, plan);
    StartsPlan(p, PlanKinds(w.virtualAb, plan));
    StageIsWorking(ScheduleCleanup(w), plan, 0);
  }

  lemma CleanupFollows(w: World)
    requires Phased(w) && Recorded(w.m)
    ensures Follows(w, Step(w, RequestsCleanup))
  {
    if Running(w.p) || w.m.cleanupCode.Some? {
      NothingFollows(w);
    } else {
      CleanupStarts(w);
      WorkingStatus(ScheduleCleanup(w));
    }
  }

  lemma PayloadQueues(w: World, size: nat)
    requires Resting(w) && w.m.status == Idle
    ensures Resting(PayloadApplied(w, true, size))
  {
    var v := PayloadApplied(w, true, size);
    EnqueueMore(w.p, Pipeline(w.virtualAb));
    assert Kinds(w.p.queue) == [];
    assert |Kinds(v.p.queue)| == |v.p.queue|;
  }

  lemma PayloadFollows(w: World, accepted: bool, size: nat)
    requires Phased(w) && Recorded(w.m) && Enabled(w, AppliesPayload(accepted, size))
    ensures Follows(w, Step(w, AppliesPayload(accepted, size)))
  {
    if Running(w.p) || w.m.status == UpdatedNeedReboot || !accepted {
      NothingFollows(w);
    } else {
      PayloadQueues(w, size);
    }
  }

  lemma StartFollows(w: World)
    requires Phased(w) && Recorded(w.m) && Enabled(w, PostedStartRuns)
    ensures Follows(w, Step(w, PostedStartRuns))
  {
    if w.p.queue != [] {
      StartsPlan(w.p, Pipeline(w.virtualAb));
      StageIsWorking(Step(w, PostedStartRuns), Update, 0);
    }
  }

  lemma RebootIsResting(w: World)
    requires Phased(w) && w.m.status == UpdatedNeedReboot
    ensures !Running(w.p) && w.p.queue == []
  {
    if Working(w) {
      WorkingStatus(w);
    }
  }

  lemma ResetIsRecorded(m: Memory, steps: ResetSteps)
    requires Recorded(m) && m.status == UpdatedNeedReboot
    ensures var t := StatusReset(m, steps);
            Recorded(t) && t.status == if steps.AllSucceed() then Idle else UpdatedNeedReboot
  {
    SeeMore(m.seen, ResetTried(steps.AllSucceed()));
  }

  lemma RestFollows(w: World, v: World)
    requires v.virtualAb == w.virtualAb && !Running(w.p) && v.p == w.p && w.p.queue == [] && Recorded(v.m)
    requires w.m.status == UpdatedNeedReboot && (v.m.status == Idle || v.m.status == UpdatedNeedReboot)
    ensures Follows(w, v)
  {
  }

  lemma ResetFollows(w: World, steps: ResetSteps)
    requires Phased(w) && Recorded(w.m)
    ensures Follows(w, Step(w, Resets(steps)))
  {
    if w.m.status != UpdatedNeedReboot {
      NothingFollows(w);
    } else {
      RebootIsResting(w);
      ResetIsRecorded(w.m, steps);
      RestFollows(w, w.(m := StatusReset(w.m, steps)));
    }
  }

  lemma RestartKeeps(w: World, rebooted: bool, clears: bool)
    ensures var v := Restart(w, rebooted, clears);
            Phased(v) && Recorded(v.m) && v.virtualAb == w.virtualAb && v.m.cleanupCode.None?
    ensures var v := Restart(w, rebooted, clears);
            v.m.status == UpdatedNeedReboot <==> w.m.completedMarker && !rebooted
  {
    var marker := w.m.completedMarker && !rebooted;
    var cleared := clears && !marker;
    SeeMore(w.m.seen, Restarted(cleared));
    if !marker {
      var current := if cleared then 0 else w.m.currentBytes;
      CleanupStarts(World(w.virtualAb, INITIAL,
        Memory(Idle, None, 0, current, w.m.totalBytes, marker, 0, w.m.seen + [Restarted(cleared)])));
    }
  }

  lemma StepFollows(w: World, e: Event)
    requires Phased(w) && Recorded(w.m) && Enabled(w, e) && !e.Restarts?
    ensures Follows(w, Step(w, e))
  {
    match e
    case AppliesPayload(accepted, size) => PayloadFollows(w, accepted, size);
    case PostedStartRuns => StartFollows(w);
    case Suspends => SuspendFollows(w);
    case Resumes => ResumeFollows(w);
    case Cancels => CancelFollows(w);
    case Resets(steps) => ResetFollows(w, steps);
    case RequestsCleanup => CleanupFollows(w);
    case ActionEnds(code) => if code == Success { ActionSucceeds(w); } else { ActionFails(w, code); }
    case ReceivesBytes(n) => BytesFollow(w, n);
  }

  lemma {:induction false} EveryRunIsPhased(virtualAb: bool, events: seq<Event>)
    requires Run(virtualAb, events).Some?
    ensures var w := Run(virtualAb, events).value; Phased(w) && Recorded(w.m) && w.virtualAb == virtualAb
  {
    if events == [] {
      RestartKeeps(Factory(virtualAb), true, true);
    } else {
      var init, e := events[..|events| - 1], events[|events| - 1];
      EveryRunIsPhased(virtualAb, init);
      if e.Restarts? {
        RestartKeeps(Run(virtualAb, init).value, e.rebooted, e.clears);
      } else {
        StepFollows(Run(virtualAb, init).value, e);
      }
    }
  }

  // ---------------------------------------------------------------------------
  // When a reboot becomes due, and what takes it back

  /** After any run, an event other than a restart makes a reboot due if and only if it ends a run whose
      completed stages, all with success, start with the six stages of an update. Any other end of a
      run, be it of a cleanup, by a failed stage or by a cancel, leads to Idle. */
  lemma RebootDueAfterFullUpdate(virtualAb: bool, events: seq<Event>, e: Event)
    requires Run(virtualAb, events).Some? && Enabled(Run(virtualAb, events).value, e) && !e.Restarts?
    ensures var w := Run(virtualAb, events).value; var v := Step(w, e);
            && (w.m.status != UpdatedNeedReboot && v.m.status == UpdatedNeedReboot
                <==> Running(w.p) && FullyUpdated(v))
            && (Running(w.p) && !Running(v.p) && !FullyUpdated(v) ==> v.m.status == Idle)
  {
    var w := Run(virtualAb, events).value;
    EveryRunIsPhased(virtualAb, events);
    StepFollows(w, e);
    if Working(w) {
      WorkingStatus(w);
    }
    if Working(Step(w, e)) {
      WorkingStatus(Step(w, e));
    }
  }

  /** After any run, exactly these events take a due reboot back: a reset all of whose steps succeed, a
      restart that finds no marker of this boot, and a cleanup request while no cleanup code is known. */
  lemma DueRebootTakenBack(virtualAb: bool, events: seq<Event>, e: Event)
    requires Run(virtualAb, events).Some? && Enabled(Run(virtualAb, events).value, e)
    requires Run(virtualAb, events).value.m.status == UpdatedNeedReboot
    ensures var w := Run(virtualAb, events).value;
            Step(w, e).m.status != UpdatedNeedReboot <==>
              || (e.Resets? && e.steps.AllSucceed())
              || (e.Restarts? && (e.rebooted || !w.m.completedMarker))
              || (e.RequestsCleanup? && w.m.cleanupCode.None?)
  {
    var w := Run(virtualAb, events).value;
    EveryRunIsPhased(virtualAb, events);
    if Working(w) {
      WorkingStatus(w);
    }
    if e.Restarts? {
      RestartKeeps(w, e.rebooted, e.clears);
    }
  }

  predicate TakesBack(e: Event) {
    e.Restarts? || (e.Resets? && e.steps.AllSucceed())
  }

  predicate NoneTakesBack(events: seq<Event>) {
    forall e <- events :: !TakesBack(e)
  }

  lemma LastOff(events: seq<Event>, more: seq<Event>)
    requires more != [] && NoneTakesBack(more)
    ensures var n := |more| - 1;
            && events + more == (events + more[..n]) + [more[n]]
            && NoneTakesBack(more[..n]) && !TakesBack(more[n])
  {
    assert more == more[..|more| - 1] + [more[|more| - 1]];
  }

  predicate DueHere(o: Option<World>) {
    o.Some? && o.value.m.status == UpdatedNeedReboot && FinishedHere(o.value.m.seen)
  }

  /** An update finished in this process: whatever happens, short of a restart or a reset all of whose
      steps succeed, the reboot stays due. */
  lemma {:induction false} DueRebootStays(virtualAb: bool, events: seq<Event>, more: seq<Event>)
    requires DueHere(Run(virtualAb, events)) && Run(virtualAb, events + more).Some? && NoneTakesBack(more)
    ensures DueHere(Run(virtualAb, events + more))
    decreases |more|
  {
    if more == [] {
      assert events + more == events;
    } else {
      var init, e := more[..|more| - 1], more[|more| - 1];
      LastOff(events, more);
      RunBefore(virtualAb, events + init, e);
      DueRebootStays(virtualAb, events, init);
      StaysOneMore(virtualAb, events + init, e);
    }
  }

  lemma RunBefore(virtualAb: bool, events: seq<Event>, e: Event)
    requires Run(virtualAb, events + [e]).Some?
    ensures Run(virtualAb, events).Some? && Enabled(Run(virtualAb, events).value, e)
    ensures Run(virtualAb, events + [e]).value == Step(Run(virtualAb, events).value, e)
  {
    Extend(events, e);
  }

  lemma {:induction false} StaysOneMore(virtualAb: bool, events: seq<Event>, e: Event)
    requires DueHere(Run(virtualAb, events)) && Run(virtualAb, events + [e]).Some? && !TakesBack(e)
    ensures DueHere(Run(virtualAb, events + [e]))
  {
    RunBefore(virtualAb, events, e);
    EveryRunIsPhased(virtualAb, events);
    StaysOneStep(Run(virtualAb, events).value, e);
  }

  lemma StaysOneStep(w: World, e: Event)
    requires Phased(w) && Recorded(w.m) && Enabled(w, e)
    requires w.m.status == UpdatedNeedReboot && FinishedHere(w.m.seen)
    requires !TakesBack(e)
    ensures var m := Step(w, e).m; m.status == UpdatedNeedReboot && FinishedHere(m.seen)
  {
    if Working(w) {
      WorkingStatus(w);
    }
    SeeMore(w.m.seen, ResetTried(false));
  }

  // ---------------------------------------------------------------------------
  // A restored reboot can be lost

  lemma RunMore(virtualAb: bool, events: seq<Event>, e: Event)
    requires Run(virtualAb, events).Some? && Enabled(Run(virtualAb, events).value, e)
    ensures Run(virtualAb, events + [e]) == Some(Step(Run(virtualAb, events).value, e))
  {
    assert (events + [e])[..|events + [e]| - 1] == events;
  }

  /** A running update that is not suspended. */
  predicate UnderWay(w: World, k: nat) {
    AtStage(w, Update, k) && k < 6 && !w.p.suspended && w.m.payloadSize > 0
  }

  lemma StageUnderWay(w: World, v: World, k: nat)
    requires UnderWay(w, k) && k < 5 && v.virtualAb == w.virtualAb
    requires OnPlan(v.p, Pipeline(w.virtualAb), k + 1) && !v.p.suspended
    requires v.m == OnActionCompleted(w.m, Pipeline(w.virtualAb)[k], Success)
    ensures UnderWay(v, k + 1)
  {
    NextStatus(w.virtualAb, Update, k, w.m);
  }

  lemma StagesToGo(w: World, k: nat)
    requires UnderWay(w, k) && k < 5
    ensures Enabled(w, ActionEnds(Success)) && UnderWay(Step(w, ActionEnds(Success)), k + 1)
  {
    CompletesStage(w.p, Pipeline(w.virtualAb), k);
    CompletionReturns(w.p, Success);
    StageUnderWay(w, Step(w, ActionEnds(Success)), k);
  }

  lemma LastStageToGo(w: World)
    requires UnderWay(w, 5)
    ensures Enabled(w, ActionEnds(Success))
    ensures var m := Step(w, ActionEnds(Success)).m; m.status == UpdatedNeedReboot && m.completedMarker
  {
    CurrentStage(w.p, Pipeline(w.virtualAb), 5);
    assert |Kinds(w.p.queue)| == |w.p.queue|;
  }

  predicate RebootDue(o: Option<World>) {
    o.Some? && o.value.m.status == UpdatedNeedReboot && o.value.m.completedMarker
  }

  predicate UnderWayAfter(virtualAb: bool, events: seq<Event>, k: nat) {
    Run(virtualAb, events).Some? && UnderWay(Run(virtualAb, events).value, k)
  }

  lemma {:induction false} OneMoreSuccess(virtualAb: bool, events: seq<Event>, k: nat)
    requires UnderWayAfter(virtualAb, events, k) && k < 5
    ensures UnderWayAfter(virtualAb, events + [ActionEnds(Success)], k + 1)
  {
    StagesToGo(Run(virtualAb, events).value, k);
    RunMore(virtualAb, events, ActionEnds(Success));
  }

  lemma {:induction false} LastSuccess(virtualAb: bool, events: seq<Event>)
    requires UnderWayAfter(virtualAb, events, 5)
    ensures RebootDue(Run(virtualAb, events + [ActionEnds(Success)]))
  {
    LastStageToGo(Run(virtualAb, events).value);
    RunMore(virtualAb, events, ActionEnds(Success));
  }

  function Successes(n: nat): seq<Event> {
    seq(n, (_: nat) => ActionEnds(Success))
  }

  lemma OneFirst(events: seq<Event>, n: nat)
    requires n > 0
    ensures events + Successes(n) == (events + [ActionEnds(Success)]) + Successes(n - 1)
  {
  }

  lemma {:induction false} SixSuccesses(virtualAb: bool, events: seq<Event>, k: nat)
    requires UnderWayAfter(virtualAb, events, k) && k < 6
    ensures RebootDue(Run(virtualAb, events + Successes(6 - k)))
    decreases 6 - k
  {
    OneFirst(events, 6 - k);
    if k == 5 {
      LastSuccess(virtualAb, events);
      assert (events + [ActionEnds(Success)]) + Successes(0) == events + [ActionEnds(Success)];
    } else {
      OneMoreSuccess(virtualAb, events, k);
      SixSuccesses(virtualAb, events + [ActionEnds(Success)], k + 1);
    }
  }

  lemma CleanupEnds(w: World)
    requires AtStage(w, CleanupOnly, 0) && !w.p.suspended
    ensures Enabled(w, ActionEnds(Success))
    ensures var v := Step(w, ActionEnds(Success)); Resting(v) && v.m.status == Idle
  {
    CompletesStage(w.p, [CleanupKind(w.virtualAb)], 0);
  }

  lemma BootCleansUp(virtualAb: bool)
    ensures var w := Restart(Factory(virtualAb), true, true); AtStage(w, CleanupOnly, 0) && !w.p.suspended
  {
    var kind := CleanupKind(virtualAb);
    EnqueueOne(INITIAL, kind);
    StartsPlan(Enqueue(INITIAL, NewAction(kind)), [kind]);
  }

  lemma {:induction false} FirstCleanupEnds(virtualAb: bool)
    ensures Run(virtualAb, [] + [ActionEnds(Success)]).Some?
    ensures var w := Run(virtualAb, [] + [ActionEnds(Success)]).value; Resting(w) && w.m.status == Idle
  {
    BootCleansUp(virtualAb);
    CleanupEnds(Restart(Factory(virtualAb), true, true));
    RunMore(virtualAb, [], ActionEnds(Success));
  }

  lemma QueuedStarts(v: World)
    requires Resting(v) && v.m.status == UpdateAvailable && v.m.payloadSize > 0 && v.m.pendingStarts > 0
    ensures Enabled(v, PostedStartRuns) && UnderWay(StartTask(v), 0)
  {
    StartsPlan(v.p, Pipeline(v.virtualAb));
    assert !StartTask(v).p.suspended by {
      NextReturns(Say(v.p, Begun), Success);
    }
  }

  lemma PayloadStarts(w: World, size: nat)
    requires Resting(w) && w.m.status == Idle && size > 0
    ensures Enabled(w, AppliesPayload(true, size))
    ensures var v := PayloadApplied(w, true, size); Enabled(v, PostedStartRuns) && UnderWay(StartTask(v), 0)
  {
    PayloadQueues(w, size);
    QueuedStarts(PayloadApplied(w, true, size));
  }

  lemma {:induction false} PayloadUnderWay(virtualAb: bool, events: seq<Event>, size: nat)
    requires Run(virtualAb, events).Some? && size > 0
    requires Resting(Run(virtualAb, events).value) && Run(virtualAb, events).value.m.status == Idle
    ensures UnderWayAfter(virtualAb, events + [AppliesPayload(true, size)] + [PostedStartRuns], 0)
  {
    PayloadStarts(Run(virtualAb, events).value, size);
    RunMore(virtualAb, events, AppliesPayload(true, size));
    RunMore(virtualAb, events + [AppliesPayload(true, size)], PostedStartRuns);
  }

  /** A payload that is accepted, whose start runs and whose six stages succeed makes a reboot due. */
  lemma {:induction false} UpdateCanFinish(virtualAb: bool, events: seq<Event>, size: nat)
    requires Run(virtualAb, events).Some? && size > 0
    requires Resting(Run(virtualAb, events).value) && Run(virtualAb, events).value.m.status == Idle
    ensures RebootDue(Run(virtualAb, events + [AppliesPayload(true, size)] + [PostedStartRuns] + Successes(6)))
  {
    PayloadUnderWay(virtualAb, events, size);
    SixSuccesses(virtualAb, events + [AppliesPayload(true, size)] + [PostedStartRuns], 0);
  }

  lemma {:induction false} RestoredWithoutCode(virtualAb: bool, events: seq<Event>)
    requires RebootDue(Run(virtualAb, events))
    ensures var o := Run(virtualAb, events + [Restarts(false, false)]);
            RebootDue(o) && o.value.m.cleanupCode.None? && !Running(o.value.p)
  {
    RunMore(virtualAb, events, Restarts(false, false));
    RestartKeeps(Run(virtualAb, events).value, false, false);
    RebootIsResting(Restart(Run(virtualAb, events).value, false, false));
  }

  lemma {:induction false} CleanupTakesBack(virtualAb: bool, events: seq<Event>)
    requires RebootDue(Run(virtualAb, events))
    requires Run(virtualAb, events).value.m.cleanupCode.None? && !Running(Run(virtualAb, events).value.p)
    ensures Run(virtualAb, events + [RequestsCleanup]).Some?
    ensures Run(virtualAb, events + [RequestsCleanup]).value.m.status == CleaningPreviousUpdate
  {
    RunMore(virtualAb, events, RequestsCleanup);
  }

  /** The third way of DueRebootTakenBack does happen: a process that restarts without a reboot restores
      the due reboot but no cleanup code, and a cleanup request then takes the reboot back. */
  lemma {:induction false} RestoredRebootCanBeLost(virtualAb: bool) returns (events: seq<Event>)
    ensures RebootDue(Run(virtualAb, events))
    ensures Run(virtualAb, events + [RequestsCleanup]).Some?
    ensures Run(virtualAb, events + [RequestsCleanup]).value.m.status == CleaningPreviousUpdate
  {
    FirstCleanupEnds(virtualAb);
    events := [] + [ActionEnds(Success)];
    UpdateCanFinish(virtualAb, events, 1);
    events := events + [AppliesPayload(true, 1)] + [PostedStartRuns] + Successes(6);
    RestoredWithoutCode(virtualAb, events);
    events := events + [Restarts(false, false)];
    CleanupTakesBack(virtualAb, events);
  }

  // ---------------------------------------------------------------------------
  // Byte accounting

  /** Bytes reported since the metrics were last cleared. */
  function BytesSinceCleared(seen: seq<Seen>): nat {
    if seen == [] then 0
    else
      match seen[|seen| - 1]
      case Restarted(cleared) => if cleared then 0 else BytesSinceCleared(seen[..|seen| - 1])
      case Bytes(n) => BytesSinceCleared(seen[..|seen| - 1]) + n
      case Finished(_, _, _) => 0
      case ResetTried(_) => 0
      case CleanupOver(_) => BytesSinceCleared(seen[..|seen| - 1])
  }

  /** Bytes reported since the last successful update. */
  function BytesSinceSuccess(seen: seq<Seen>): nat {
    if seen == [] then 0
    else
      match seen[|seen| - 1]
      case Bytes(n) => BytesSinceSuccess(seen[..|seen| - 1]) + n
      case Finished(code, _, _) => if code == Success then 0 else BytesSinceSuccess(seen[..|seen| - 1])
      case _ => BytesSinceSuccess(seen[..|seen| - 1])
  }

  /** `overhead` is the floor of 100 * (total - size) / size, or 0 when less than the size was loaded. */
  predicate OverheadRight(total: nat, size: nat, overhead: nat) {
    if total >= size
    then overhead * size <= 100 * (total - size) < (overhead + 1) * size
    else overhead == 0
  }

  ghost predicate OverheadsRight(seen: seq<Seen>) {
    forall i :: 0 <= i < |seen| && seen[i].Finished? && seen[i].code == Success ==>
      OverheadRight(BytesSinceSuccess(seen[..i]), seen[i].size, seen[i].overhead)
  }

  ghost predicate Accounted(m: Memory) {
    && m.currentBytes == BytesSinceCleared(m.seen)
    && m.totalBytes == BytesSinceSuccess(m.seen)
    && OverheadsRight(m.seen)
  }

  lemma OverheadIsFloor(total: nat, size: nat)
    requires total >= size ==> size > 0
    ensures OverheadRight(total, size, Overhead(total, size))
  {
    if total >= size {
      var n := (total - size) * 100;
      var q := n / size;
      assert n == q * size + n % size;
      assert (q + 1) * size == q * size + size;
    }
  }

  lemma OverheadsExtend(seen: seq<Seen>, note: Seen)
    requires OverheadsRight(seen)
    requires note.Finished? && note.code == Success ==>
               OverheadRight(BytesSinceSuccess(seen), note.size, note.overhead)
    ensures OverheadsRight(seen + [note])
  {
    var more := seen + [note];
    forall i | 0 <= i < |more| && more[i].Finished? && more[i].code == Success
      ensures OverheadRight(BytesSinceSuccess(more[..i]), more[i].size, more[i].overhead)
    {
      assert more[..i] == seen[..i];
      if i == |seen| {
        assert seen[..i] == seen;
      }
    }
  }

  lemma FinishAccounts(m: Memory, t: Memory, note: Seen)
    requires Accounted(m) && note.Finished? && t.seen == m.seen + [note] && t.currentBytes == 0
    requires t.totalBytes == if note.code == Success then 0 else m.totalBytes
    requires note.code == Success ==> OverheadRight(m.totalBytes, note.size, note.overhead)
    ensures Accounted(t)
  {
    SeeMore(m.seen, note);
    OverheadsExtend(m.seen, note);
  }

  lemma TerminateAccounts(m: Memory, code: ErrorCode)
    requires Accounted(m) && Reportable(m, code)
    ensures Accounted(Terminate(m, code))
  {
    var t := Terminate(m, code);
    if m.status == CleaningPreviousUpdate {
      NoteAccounts(m, t, CleanupOver(code));
    } else if m.status != Idle && code == Success {
      OverheadIsFloor(m.totalBytes, m.payloadSize);
      FinishAccounts(m, t, Finished(code, m.payloadSize, Overhead(m.totalBytes, m.payloadSize)));
    } else if m.status != Idle {
      FinishAccounts(m, t, Finished(code, m.payloadSize, 0));
    }
  }

  lemma NoteAccounts(m: Memory, t: Memory, note: Seen)
    requires Accounted(m) && t.seen == m.seen + [note] && !note.Finished?
    requires t.totalBytes == m.totalBytes + if note.Bytes? then note.n else 0
    requires t.currentBytes == match note
                               case Bytes(n) => m.currentBytes + n
                               case ResetTried(_) => 0
                               case Restarted(cleared) => if cleared then 0 else m.currentBytes
                               case _ => m.currentBytes
    ensures Accounted(t)
  {
    SeeMore(m.seen, note);
    OverheadsExtend(m.seen, note);
  }

  lemma DoneAccounts(m: Memory, code: ErrorCode)
    requires Accounted(m) && Reportable(m, code)
    ensures Accounted(OnProcessingDone(m, code))
  {
    TerminateAccounts(m, code);
    TerminateAccounts(m.(completedMarker := true), code);
  }

  lemma RestartAccounts(w: World, rebooted: bool, clears: bool)
    requires Accounted(w.m)
    ensures Accounted(Restart(w, rebooted, clears).m)
  {
    var cleared := clears && !(w.m.completedMarker && !rebooted);
    NoteAccounts(w.m, Restart(w, rebooted, clears).m, Restarted(cleared));
  }

  lemma StepAccounts(w: World, e: Event)
    requires Accounted(w.m) && Enabled(w, e)
    ensures Accounted(Step(w, e).m)
  {
    match e
    case Restarts(rebooted, clears) => RestartAccounts(w, rebooted, clears);
    case Resets(steps) =>
      if w.m.status == UpdatedNeedReboot {
        NoteAccounts(w.m, StatusReset(w.m, steps), ResetTried(steps.AllSucceed()));
      }
    case ReceivesBytes(n) => NoteAccounts(w.m, OnBytesReceived(w.m, n), Bytes(n));
    case Cancels => TerminateAccounts(w.m, USER_CANCELED);
    case Resumes => if ResumeEndsRun(w.p) { DoneAccounts(w.m, w.p.held); }
    case ActionEnds(code) =>
      if CompletionEndsRun(w.p, code) { DoneAccounts(OnActionCompleted(w.m, w.p.current.value.kind, code), code); }
    case _ =>
  }

  lemma {:induction false} CurrentWithinTotal(seen: seq<Seen>)
    ensures BytesSinceCleared(seen) <= BytesSinceSuccess(seen)
  {
    if seen != [] {
      CurrentWithinTotal(seen[..|seen| - 1]);
    }
  }

  /** In every run, across restarts: the two persisted counters count the bytes reported since the
      metrics were cleared and since the last successful update, the first never exceeds the second, and
      every success reports the floor of its overhead. */
  lemma {:induction false} CountersCount(virtualAb: bool, events: seq<Event>)
    requires Run(virtualAb, events).Some?
    ensures var m := Run(virtualAb, events).value.m; Accounted(m) && m.currentBytes <= m.totalBytes
  {
    if events == [] {
      NoteAccounts(Factory(virtualAb).m, Run(virtualAb, []).value.m, Restarted(true));
    } else {
      var init, e := events[..|events| - 1], events[|events| - 1];
      CountersCount(virtualAb, init);
      StepAccounts(Run(virtualAb, init).value, e);
    }
    CurrentWithinTotal(Run(virtualAb, events).value.m.seen);
  }
}
