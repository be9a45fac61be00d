/**
 Every run of the action processor, seen through its log: in which order actions leave the queue,
 what can start when, and how a run ends.
 */
module ProcessorRuns {
  import opened Common
  import opened Processor

  // ---------------------------------------------------------------------------
  // Reading a log

  function EnqueuedIn(log: seq<Note>): seq<Action> {
    if log == [] then []
    else
      var before := EnqueuedIn(log[..|log| - 1]);
      match log[|log| - 1]
      case Enqueued(a) => before + [a]
      case _ => before
  }

  /** The actions that left the queue, performed or dropped, in the order in which they left it. */
  function LeftIn(log: seq<Note>): seq<Action> {
    if log == [] then []
    else
      var before := LeftIn(log[..|log| - 1]);
      match log[|log| - 1]
      case Performed(a) => before + [a]
      case Completed(_, _, dropped) => before + dropped
      case Stopped(_, dropped) => before + dropped
      case _ => before
  }

  function CurrentIn(log: seq<Note>): Option<Action> {
    if log == [] then None
    else
      match log[|log| - 1]
      case Performed(a) => Some(a)
      case Completed(_, _, _) => None
      case Stopped(_, _) => None
      case _ => CurrentIn(log[..|log| - 1])
  }

  predicate SuspendedIn(log: seq<Note>) {
    log != [] &&
    match log[|log| - 1]
    case SuspendedNow => true
    case ResumedNow => false
    case Stopped(_, _) => false
    case _ => SuspendedIn(log[..|log| - 1])
  }

  /** A run was begun and has not ended. */
  predicate BusyIn(log: seq<Note>) {
    log != [] &&
    match log[|log| - 1]
    case Begun => true
    case Done(_) => false
    case Stopped(_, _) => false
    case _ => BusyIn(log[..|log| - 1])
  }

  /** The code of the last action that completed. */
  function LastCodeIn(log: seq<Note>): Option<ErrorCode> {
    if log == [] then None
    else if log[|log| - 1].Completed? then Some(log[|log| - 1].code)
    else LastCodeIn(log[..|log| - 1])
  }

  /** What was enqueued and has not left the queue. */
  function WaitingIn(log: seq<Note>): seq<Action> {
    if |LeftIn(log)| <= |EnqueuedIn(log)| then EnqueuedIn(log)[|LeftIn(log)|..] else []
  }

  lemma MoveHead<T>(l: seq<T>, q: seq<T>)
    requires q != []
    ensures (l + [q[0]]) + q[1..] == l + q
  {
  }

  lemma AddNothing<T>(l: seq<T>)
    ensures l + [] == l
  {
  }

  lemma Remainder<T>(l: seq<T>, q: seq<T>)
    ensures (l + q)[|l|..] == q
  {
  }

  // ---------------------------------------------------------------------------
  // Lawful logs

  /** What may happen after a log. */
  predicate Allowed(log: seq<Note>, note: Note) {
    match note
    case Enqueued(_) => true
    case Begun => !BusyIn(log) && WaitingIn(log) != []
    case Performed(a) =>
      && BusyIn(log) && !SuspendedIn(log) && CurrentIn(log) == None
      && WaitingIn(log) != [] && a == WaitingIn(log)[0]
    case SuspendedNow => CurrentIn(log).Some? && !SuspendedIn(log)
    case ResumedNow => SuspendedIn(log)
    case Completed(a, code, dropped) =>
      && CurrentIn(log) == Some(a)
      && dropped == if code == Success then [] else WaitingIn(log)
    case Done(code) =>
      && BusyIn(log) && !SuspendedIn(log) && CurrentIn(log) == None
      && WaitingIn(log) == [] && LastCodeIn(log) == Some(code)
    case Stopped(aborted, dropped) =>
      BusyIn(log) && aborted == CurrentIn(log) && dropped == WaitingIn(log)
  }

  ghost predicate Lawful(log: seq<Note>) {
    forall i :: 0 <= i < |log| ==> Allowed(log[..i], log[i])
  }

  lemma LawfulExtends(log: seq<Note>, note: Note)
    requires Lawful(log) && Allowed(log, note)
    ensures Lawful(log + [note])
  {
    var more := log + [note];
    forall i | 0 <= i < |more|
      ensures Allowed(more[..i], more[i])
    {
      assert more[..i] == log[..i];
      if i == |log| {
        assert log[..i] == log;
      } else {
        assert Allowed(log[..i], log[i]);
      }
    }
  }

  // ---------------------------------------------------------------------------
  // The invariant

  /** The state tells what the log tells. */
  ghost predicate Agrees(s: State) {
    && Lawful(s.log)
    && EnqueuedIn(s.log) == LeftIn(s.log) + s.queue
    && s.current == CurrentIn(s.log)
    && s.suspended == SuspendedIn(s.log)
  }

  ghost predicate Inv(s: State) {
    && Agrees(s)
    && (Running(s) <==> BusyIn(s.log))
    && (s.suspended && s.current.None? ==> LastCodeIn(s.log) == Some(s.held))
  }

  /** Inside a run, between two actions. */
  ghost predicate Between(s: State) {
    Agrees(s) && s.current.None? && !s.suspended && BusyIn(s.log)
  }

  lemma WaitingIsQueue(s: State)
    requires Agrees(s)
    ensures WaitingIn(s.log) == s.queue
  {
    Remainder(LeftIn(s.log), s.queue);
  }

  lemma TakeNextKeeps(s: State)
    requires Between(s) && s.queue != []
    ensures Inv(TakeNext(s)) && TakeNext(s).current.Some?
  {
    WaitingIsQueue(s);
    MoveHead(LeftIn(s.log), s.queue);
    Extend(s.log, Performed(s.queue[0]));
    LawfulExtends(s.log, Performed(s.queue[0]));
  }

  lemma EndCurrentKeeps(s: State, code: ErrorCode)
    requires Inv(s) && s.current.Some?
    ensures Agrees(EndCurrent(s, code)) && BusyIn(EndCurrent(s, code).log)
    ensures LastCodeIn(EndCurrent(s, code).log) == Some(code)
  {
    var note := Completed(s.current.value, code, if code == Success then [] else s.queue);
    WaitingIsQueue(s);
    Extend(s.log, note);
    LawfulExtends(s.log, note);
    AddNothing(LeftIn(s.log));
    AddNothing(LeftIn(s.log) + s.queue);
  }

  lemma {:induction false} PerformKeeps(s: State)
    requires Between(s) && s.queue != []
    ensures Inv(PerformNext(s))
    decreases |s.queue|, 0
  {
    TakeNextKeeps(s);
    match s.queue[0].onPerform
    case Returns =>
    case Completes(code) => CompleteKeeps(TakeNext(s), code);
  }

  lemma {:induction false} CompleteKeeps(s: State, code: ErrorCode)
    requires Inv(s) && s.current.Some?
    ensures Inv(Complete(s, code))
    decreases |s.queue|, 2
  {
    EndCurrentKeeps(s, code);
    if !s.suspended {
      NextKeeps(EndCurrent(s, code), code);
    }
  }

  lemma {:induction false} NextKeeps(s: State, code: ErrorCode)
    requires Between(s) && LastCodeIn(s.log) == Some(code)
    ensures Inv(NextOrFinish(s, code))
    decreases |s.queue|, 1
  {
    if s.queue == [] {
      WaitingIsQueue(s);
      Extend(s.log, Done(code));
      LawfulExtends(s.log, Done(code));
    } else {
      PerformKeeps(s);
    }
  }

  // ---------------------------------------------------------------------------
  // Runs

  datatype Event =
    | Enqueues(action: Action)
    | Starts
    | Stops
    | Suspends(reaction: Reaction)
    | Resumes(reaction: Reaction)
    | ActionEnds(code: ErrorCode)

  /** The calls the processor does not abort on. */
  predicate Enabled(s: State, e: Event) {
    match e
    case Starts => !Running(s)
    case Stops => Running(s)
    case ActionEnds(_) => s.current.Some?
    case _ => true
  }

  function Step(s: State, e: Event): State
    requires Enabled(s, e)
  {
    match e
    case Enqueues(a) => Enqueue(s, a)
    case Starts => Start(s)
    case Stops => Stop(s)
    case Suspends(r) => Suspend(s, r)
    case Resumes(r) => Resume(s, r)
    case ActionEnds(code) => Complete(s, code)
  }

  /** The state after a series of calls on a new processor, if none of them aborts. */
  function Run(events: seq<Event>): Option<State> {
    if events == [] then Some(INITIAL)
    else
      var before, e := Run(events[..|events| - 1]), events[|events| - 1];
      if before.Some? && Enabled(before.value, e) then Some(Step(before.value, e)) else None
  }

  lemma SayKeeps(s: State, note: Note)
    requires Agrees(s) && Allowed(s.log, note)
    ensures Lawful(s.log + [note])
  {
    Extend(s.log, note);
    LawfulExtends(s.log, note);
  }

  lemma EnqueueKeeps(s: State, a: Action)
    requires Inv(s)
    ensures Inv(Enqueue(s, a))
  {
    SayKeeps(s, Enqueued(a));
    Extend(s.log, Enqueued(a));
    Regroup(LeftIn(s.log), s.queue, [a]);
  }

  lemma StartKeeps(s: State)
    requires Inv(s) && !Running(s)
    ensures Inv(Start(s))
  {
    if s.queue != [] {
      WaitingIsQueue(s);
      SayKeeps(s, Begun);
      Extend(s.log, Begun);
      PerformKeeps(Say(s, Begun));
    }
  }

  lemma StopKeeps(s: State)
    requires Inv(s) && Running(s)
    ensures Inv(Stop(s))
  {
    var note := Stopped(s.current, s.queue);
    WaitingIsQueue(s);
    AddNothing(LeftIn(s.log) + s.queue);
    SayKeeps(s, note);
    Extend(s.log, note);
  }

  lemma StepKeeps(s: State, e: Event)
    requires Inv(s) && Enabled(s, e)
    ensures Inv(Step(s, e))
  {
    match e
    case Enqueues(a) => EnqueueKeeps(s, a);
    case Starts => StartKeeps(s);
    case Stops => StopKeeps(s);
    case Suspends(r) =>
      if !s.suspended && s.current.Some? {
        SuspendKeeps(s);
        if r.Completes? {
          CompleteKeeps(Say(s, SuspendedNow).(suspended := true), r.code);
        }
      }
    case Resumes(r) =>
      if s.suspended {
        ResumeKeeps(s);
        var t := Say(s, ResumedNow).(suspended := false);
        if t.current.None? {
          NextKeeps(t, t.held);
        } else if r.Completes? {
          CompleteKeeps(t, r.code);
        }
      }
    case ActionEnds(code) => CompleteKeeps(s, code);
  }

  lemma SuspendKeeps(s: State)
    requires Inv(s) && !s.suspended && s.current.Some?
    ensures Inv(Say(s, SuspendedNow).(suspended := true))
  {
    SayKeeps(s, SuspendedNow);
    Extend(s.log, SuspendedNow);
  }

  lemma ResumeKeeps(s: State)
    requires Inv(s) && s.suspended
    ensures var t := Say(s, ResumedNow).(suspended := false);
            if s.current.None? then Between(t) && LastCodeIn(t.log) == Some(t.held) else Inv(t)
  {
    SayKeeps(s, ResumedNow);
    Extend(s.log, ResumedNow);
  }

  /** Every reachable processor has a lawful log and the state that log tells of. */
  lemma {:induction false} EveryRunIsLawful(events: seq<Event>)
    requires Run(events).Some?
    ensures Inv(Run(events).value)
  {
    if events != [] {
      var init, e := events[..|events| - 1], events[|events| - 1];
      EveryRunIsLawful(init);
      StepKeeps(Run(init).value, e);
    }
  }

  // ---------------------------------------------------------------------------
  // What lawful logs mean

  lemma {:induction false} LeftWithinEnqueued(log: seq<Note>)
    requires Lawful(log)
    ensures EnqueuedIn(log) == LeftIn(log) + WaitingIn(log)
  {
    if log != [] {
      var n := |log| - 1;
      var init, note := log[..n], log[n];
      assert log == init + [note] && Allowed(init, note);
      LawfulPrefix(log, n);
      LeftWithinEnqueued(init);
      NoteKeepsOrder(init, note);
    }
  }

  /** Before or after a note, what has left the queue and what waits in it make up what was enqueued. */
  lemma NoteKeepsOrder(log: seq<Note>, note: Note)
    requires EnqueuedIn(log) == LeftIn(log) + WaitingIn(log) && Allowed(log, note)
    ensures EnqueuedIn(log + [note]) == LeftIn(log + [note]) + WaitingIn(log + [note])
  {
    Extend(log, note);
    var l, w := LeftIn(log), WaitingIn(log);
    var w' := match note
      case Enqueued(a) => w + [a]
      case Performed(_) => w[1..]
      case Completed(_, code, _) => if code == Success then w else []
      case Stopped(_, _) => []
      case _ => w;
    if note.Enqueued? {
      Regroup(l, w, [note.action]);
    } else if note.Performed? {
      MoveHead(l, w);
    }
    AddNothing(l);
    AddNothing(l + w);
    assert EnqueuedIn(log + [note]) == LeftIn(log + [note]) + w';
    Remainder(LeftIn(log + [note]), w');
  }

  lemma {:induction false} LogsGrow(log: seq<Note>, i: nat)
    requires i <= |log|
    ensures EnqueuedIn(log[..i]) <= EnqueuedIn(log)
    ensures LeftIn(log[..i]) <= LeftIn(log)
  {
    if i < |log| {
      var n := |log| - 1;
      LogsGrow(log[..n], i);
      assert log[..n][..i] == log[..i];
    } else {
      assert log[..i] == log;
    }
  }

  lemma LawfulPrefix(log: seq<Note>, n: nat)
    requires Lawful(log) && n <= |log|
    ensures Lawful(log[..n])
  {
    forall i | 0 <= i < n
      ensures Allowed(log[..n][..i], log[..n][i])
    {
      assert log[..n][..i] == log[..i];
    }
  }

  /** Actions start in the order in which they were enqueued: the one performed is the first that had
      not left the queue. */
  lemma PerformedInOrder(log: seq<Note>, j: nat)
    requires Lawful(log) && j < |log| && log[j].Performed?
    ensures |LeftIn(log[..j])| < |EnqueuedIn(log[..j])|
    ensures EnqueuedIn(log[..j])[|LeftIn(log[..j])|] == log[j].action
    ensures !SuspendedIn(log[..j]) && BusyIn(log[..j])
  {
    assert Allowed(log[..j], log[j]);
    LawfulPrefix(log, j);
    LeftWithinEnqueued(log[..j]);
  }

  /** After a failure, or a stop, everything enqueued before it has left the queue. */
  lemma QueueEmptied(log: seq<Note>, i: nat, k: nat)
    requires Lawful(log) && i < |log| && k == i + 1
    requires (log[i].Completed? && log[i].code != Success) || log[i].Stopped?
    ensures LeftIn(log[..k]) == EnqueuedIn(log[..i])
  {
    assert Allowed(log[..i], log[i]);
    LawfulPrefix(log, i);
    LeftWithinEnqueued(log[..i]);
    assert log[..k][..i] == log[..i];
  }

  /** The n-th action to leave the queue is the n-th that was enqueued. */
  lemma PerformedIsNth(log: seq<Note>, j: nat)
    requires Lawful(log) && j < |log| && log[j].Performed?
    ensures |LeftIn(log[..j])| < |EnqueuedIn(log)|
    ensures EnqueuedIn(log)[|LeftIn(log[..j])|] == log[j].action
  {
    PerformedInOrder(log, j);
    LogsGrow(log, j);
  }

  /** No action still queued when an earlier one failed, or when processing was stopped, is ever
      performed: whatever starts later was enqueued later. */
  lemma NothingSurvivesFailure(log: seq<Note>, i: nat, j: nat)
    requires Lawful(log) && i < j < |log|
    requires (log[i].Completed? && log[i].code != Success) || log[i].Stopped?
    requires log[j].Performed?
    ensures |EnqueuedIn(log[..i])| <= |LeftIn(log[..j])| < |EnqueuedIn(log)|
    ensures EnqueuedIn(log)[|LeftIn(log[..j])|] == log[j].action
  {
    PerformedIsNth(log, j);
    var k := i + 1;
    QueueEmptied(log, i, k);
    LeftGrows(log, k, j);
  }

  lemma LeftGrows(log: seq<Note>, k: nat, j: nat)
    requires k <= j <= |log|
    ensures |LeftIn(log[..k])| <= |LeftIn(log[..j])|
  {
    var init := log[..j];
    assert init[..k] == log[..k];
    LogsGrow(init, k);
  }

  function Begins(log: seq<Note>): nat {
    if log == [] then 0 else Begins(log[..|log| - 1]) + if log[|log| - 1].Begun? then 1 else 0
  }

  function Ends(log: seq<Note>): nat {
    if log == [] then 0
    else Ends(log[..|log| - 1]) + if log[|log| - 1].Done? || log[|log| - 1].Stopped? then 1 else 0
  }

  /** Begins and ends alternate: a run that was begun ends once, with Done or with Stopped, before the
      next begins. */
  lemma {:induction false} BeginsAndEndsAlternate(log: seq<Note>)
    requires Lawful(log)
    ensures Begins(log) == Ends(log) + if BusyIn(log) then 1 else 0
  {
    if log != [] {
      var n := |log| - 1;
      LawfulPrefix(log, n);
      BeginsAndEndsAlternate(log[..n]);
      assert Allowed(log[..n], log[n]);
    }
  }

  /** In every run: enqueued actions are exactly those that left the queue, in order, followed by those
      still queued; as many runs have ended as were begun, less the one that is running; and the
      processor is running exactly when a run has not ended. */
  lemma RunsAreOrderly(events: seq<Event>)
    requires Run(events).Some?
    ensures var s := Run(events).value;
            && EnqueuedIn(s.log) == LeftIn(s.log) + s.queue
            && s.current == CurrentIn(s.log)
            && Begins(s.log) == Ends(s.log) + if Running(s) then 1 else 0
  {
    EveryRunIsLawful(events);
    BeginsAndEndsAlternate(Run(events).value.log);
  }

  /** Done carries the code of the last action that completed, even when it was held over a
      suspension, and comes only when nothing is left to do. */
  lemma DoneCarriesLastCode(events: seq<Event>, i: nat)
    requires Run(events).Some?
    requires var log := Run(events).value.log; i < |log| && log[i].Done?
    ensures var log := Run(events).value.log;
            && LastCodeIn(log[..i]) == Some(log[i].code)
            && EnqueuedIn(log[..i]) == LeftIn(log[..i])
  {
    var log := Run(events).value.log;
    EveryRunIsLawful(events);
    assert Allowed(log[..i], log[i]);
    LawfulPrefix(log, i);
    LeftWithinEnqueued(log[..i]);
    assert LeftIn(log[..i]) + [] == LeftIn(log[..i]);
  }

  // ---------------------------------------------------------------------------
  // Every run ends

  ghost predicate Ended(s: State) {
    !Running(s) && s.log != [] && s.log[|s.log| - 1].Done?
  }

  lemma {:induction false} PerformShrinks(s: State)
    requires s.queue != [] && s.current.None? && !s.suspended
    ensures Ended(PerformNext(s)) || (PerformNext(s).current.Some? && |PerformNext(s).queue| < |s.queue|)
    ensures !PerformNext(s).suspended
    decreases |s.queue|, 0
  {
    if s.queue[0].onPerform.Completes? {
      CompletionShrinks(TakeNext(s), s.queue[0].onPerform.code);
    }
  }

  /** Outside a suspension, every completion ends the run or leaves fewer actions to do. */
  lemma {:induction false} CompletionShrinks(s: State, code: ErrorCode)
    requires s.current.Some? && !s.suspended
    ensures Ended(Complete(s, code)) || (Complete(s, code).current.Some? && |Complete(s, code).queue| < |s.queue|)
    ensures !Complete(s, code).suspended
    decreases |s.queue|, 2
  {
    var t := EndCurrent(s, code);
    if t.queue != [] {
      PerformShrinks(t);
    }
  }

  /** The completions it takes, with the given codes, until the run ends. */
  ghost function Drained(s: State, codes: nat -> ErrorCode, n: nat): State
    decreases n
  {
    if n == 0 || s.current.None? then s else Drained(Complete(s, codes(n)), codes, n - 1)
  }

  /** Whatever codes the actions complete with, a running processor that is not suspended is done after
      at most one completion for each action it holds. */
  lemma {:induction false} EveryRunEnds(s: State, codes: nat -> ErrorCode, n: nat)
    requires s.current.Some? && !s.suspended && n > |s.queue|
    ensures Ended(Drained(s, codes, n))
    decreases n
  {
    CompletionShrinks(s, codes(n));
    var t := Complete(s, codes(n));
    if t.current.Some? {
      EveryRunEnds(t, codes, n - 1);
    }
  }

  // ---------------------------------------------------------------------------
  // Actions that complete while they are being started

  function CompleteAll(s: State, codes: seq<ErrorCode>): State
    decreases |codes|
  {
    if codes == [] || s.current.None? then s else CompleteAll(CompleteOne(s, codes[0]), codes[1..])
  }

  /** However many actions complete while being started, the outcome is the one of starting the first
      and then completing one action after the other. */
  lemma {:induction false} StartIsSequenced(s: State) returns (codes: seq<ErrorCode>)
    requires s.queue != []
    ensures PerformNext(s) == CompleteAll(TakeNext(s), codes)
    decreases |s.queue|, 0
  {
    codes := [];
    if s.queue[0].onPerform.Completes? {
      codes := CompletionIsSequenced(TakeNext(s), s.queue[0].onPerform.code);
    }
  }

  lemma {:induction false} CompletionIsSequenced(s: State, code: ErrorCode) returns (codes: seq<ErrorCode>)
    requires s.current.Some?
    ensures codes != [] && codes[0] == code
    ensures Complete(s, code) == CompleteAll(s, codes)
    decreases |s.queue|, 2
  {
    var t := EndCurrent(s, code);
    codes := [code];
    if !s.suspended && t.queue != [] {
      var more := StartIsSequenced(t);
      codes := [code] + more;
      assert codes[1..] == more;
    } else {
      assert CompleteAll(s, codes) == CompleteOne(s, code);
    }
  }

  /** An action that completes while being suspended is one that is suspended and then completes. */
  lemma SuspensionIsSequenced(s: State, code: ErrorCode)
    ensures Suspend(s, Completes(code)) ==
            if s.suspended || s.current.None? then s else Complete(Suspend(s, Returns), code)
  {
  }

  /** An action that completes while being resumed is one that is resumed and then completes. */
  lemma ResumptionIsSequenced(s: State, code: ErrorCode)
    ensures Resume(s, Completes(code)) ==
            if !s.suspended || s.current.None? then Resume(s, Returns) else Complete(Resume(s, Returns), code)
  {
  }
}
