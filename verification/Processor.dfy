/**
 The action processor: a queue of actions run one after the other, with suspend, resume, stop,
 failure, and actions that complete while they are being started.
 */
module Processor {
  import opened Common

  datatype Kind =
    | UpdateBootFlags | CleanupPreviousUpdate | NoOp | InstallPlan | Download | FilesystemVerifier | PostinstallRunner

  /** What an action does when it is told to do something: return and go on later, or complete at once. */
  datatype Reaction = Returns | Completes(code: ErrorCode)

  datatype Action = Action(id: nat, kind: Kind, onPerform: Reaction)

  /** What happened, as the delegate and the actions get to see it. */
  datatype Note =
    | Enqueued(action: Action)
    | Begun
    | Performed(action: Action)
    | SuspendedNow
    | ResumedNow
    | Completed(action: Action, code: ErrorCode, dropped: seq<Action>)
    | Done(code: ErrorCode)
    | Stopped(aborted: Option<Action>, dropped: seq<Action>)

  datatype State = State(queue: seq<Action>, current: Option<Action>, suspended: bool,
                         held: ErrorCode, log: seq<Note>)

  const INITIAL := State([], None, false, Success, [])

  // ---------------------------------------------------------------------------
  // Single steps

  predicate Running(s: State) {
    s.current.Some? || s.suspended
  }

  function Say(s: State, note: Note): State {
    s.(log := s.log + [note])
  }

  function Enqueue(s: State, a: Action): State {
    Say(s, Enqueued(a)).(queue := s.queue + [a])
  }

  /** The next action becomes the current one; nothing is said yet about how it reacts. */
  function TakeNext(s: State): State
    requires s.queue != []
  {
    Say(s, Performed(s.queue[0])).(queue := s.queue[1..], current := Some(s.queue[0]))
  }

  function PerformNext(s: State): State
    requires s.queue != []
    decreases |s.queue|, 0
  {
    match s.queue[0].onPerform
    case Returns => TakeNext(s)
    case Completes(code) => Complete(TakeNext(s), code)
  }

  /** The current action is over; after a failure nothing that is still queued will run. */
  function EndCurrent(s: State, code: ErrorCode): State
    requires s.current.Some?
  {
    var dropped := if code == Success then [] else s.queue;
    var left := if code == Success then s.queue else [];
    Say(s, Completed(s.current.value, code, dropped)).(current := None, queue := left)
  }

  function Complete(s: State, code: ErrorCode): State
    requires s.current.Some?
    decreases |s.queue|, 2
  {
    var t := EndCurrent(s, code);
    if s.suspended then t.(held := code) else NextOrFinish(t, code)
  }

  function NextOrFinish(s: State, code: ErrorCode): State
    decreases |s.queue|, 1
  {
    if s.queue == [] then Say(s, Done(code)) else PerformNext(s)
  }

  function Start(s: State): State {
    if s.queue == [] then s else PerformNext(Say(s, Begun))
  }

  function Stop(s: State): State {
    Say(s, Stopped(s.current, s.queue)).(current := None, suspended := false, queue := [])
  }

  function Suspend(s: State, r: Reaction): State {
    if s.suspended || s.current.None? then s
    else
      var t := Say(s, SuspendedNow).(suspended := true);
      match r
      case Returns => t
      case Completes(code) => Complete(t, code)
  }

  function Resume(s: State, r: Reaction): State {
    if !s.suspended then s
    else
      var t := Say(s, ResumedNow).(suspended := false);
      if t.current.None? then NextOrFinish(t, t.held)
      else
        match r
        case Returns => t
        case Completes(code) => Complete(t, code)
  }

  // ---------------------------------------------------------------------------
  // Queues of actions that go on after having been started

  predicate AllReturn(queue: seq<Action>) {
    forall a <- queue :: a.onPerform == Returns
  }

  /** The next action, if any, is taken and returns from being started. */
  function TakeNextOrFinish(s: State, code: ErrorCode): State {
    if s.queue == [] then Say(s, Done(code)) else TakeNext(s)
  }

  function CompleteOne(s: State, code: ErrorCode): State
    requires s.current.Some?
  {
    var t := EndCurrent(s, code);
    if s.suspended then t.(held := code) else TakeNextOrFinish(t, code)
  }

  lemma NextReturns(s: State, code: ErrorCode)
    requires AllReturn(s.queue)
    ensures NextOrFinish(s, code) == TakeNextOrFinish(s, code)
  {
    if s.queue != [] {
      assert s.queue[0] in s.queue;
    }
  }

  lemma CompletionReturns(s: State, code: ErrorCode)
    requires s.current.Some? && AllReturn(s.queue)
    ensures Complete(s, code) == CompleteOne(s, code)
  {
    NextReturns(EndCurrent(s, code), code);
  }

  // ---------------------------------------------------------------------------
  // The processor object

  class ActionProcessor {
    var actions: seq<Action>
    var currentAction: Option<Action>
    var suspended: bool
    var suspendedErrorCode: ErrorCode
    ghost var log: seq<Note>

    ghost function View(): State
      reads this
    {
      State(actions, currentAction, suspended, suspendedErrorCode, log)
    }

    constructor ()
      ensures View() == INITIAL
    {
      actions, currentAction, suspended, suspendedErrorCode := [], None, false, Success;
      log := [];
    }

    predicate IsRunning()
      reads this
      ensures IsRunning() <==> Running(View())
    {
      currentAction.Some? || suspended
    }

    method EnqueueAction(a: Action)
      modifies this
      ensures View() == Enqueue(old(View()), a)
    {
      log := log + [Enqueued(a)];
      actions := actions + [a];
    }

    method StartProcessing()
      requires !IsRunning()
      modifies this
      ensures View() == Start(old(View()))
    {
      if actions != [] {
        log := log + [Begun];
        StartFirst();
      }
    }

    /** Takes the first action off the queue and performs it. */
    method StartFirst()
      requires actions != []
      modifies this
      ensures View() == PerformNext(old(View()))
      decreases |actions|, 0
    {
      var a := actions[0];
      currentAction := Some(a);
      actions := actions[1..];
      log := log + [Performed(a)];
      match a.onPerform
      case Returns =>
      case Completes(code) => ActionComplete(a, code);
    }

    method ActionComplete(a: Action, code: ErrorCode)
      requires currentAction == Some(a)
      modifies this
      ensures View() == Complete(old(View()), code)
      decreases |actions|, 2
    {
      log := log + [Completed(a, code, if code == Success then [] else actions)];
      currentAction := None;
      if actions != [] && code != Success {
        actions := [];
      }
      if suspended {
        suspendedErrorCode := code;
        return;
      }
      StartNextActionOrFinish(code);
    }

    method StartNextActionOrFinish(code: ErrorCode)
      modifies this
      ensures View() == NextOrFinish(old(View()), code)
      decreases |actions|, 1
    {
      if actions == [] {
        log := log + [Done(code)];
        return;
      }
      StartFirst();
    }

    method StopProcessing()
      requires IsRunning()
      modifies this
      ensures View() == Stop(old(View()))
    {
      log := log + [Stopped(currentAction, actions)];
      currentAction := None;
      suspended := false;
      actions := [];
    }

    /** `r` is what the current action does when it is told to suspend. */
    method SuspendProcessing(r: Reaction)
      modifies this
      ensures View() == Suspend(old(View()), r)
    {
      if suspended || currentAction.None? {
        return;
      }
      suspended := true;
      log := log + [SuspendedNow];
      match r
      case Returns =>
      case Completes(code) => ActionComplete(currentAction.value, code);
    }

    /** `r` is what the current action does when it is told to resume. */
    method ResumeProcessing(r: Reaction)
      modifies this
      ensures View() == Resume(old(View()), r)
    {
      if !suspended {
        return;
      }
      suspended := false;
      log := log + [ResumedNow];
      if currentAction.Some? {
        match r
        case Returns =>
        case Completes(code) => ActionComplete(currentAction.value, code);
      } else {
        StartNextActionOrFinish(suspendedErrorCode);
      }
    }
  }
}
