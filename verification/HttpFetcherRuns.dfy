/**
 Every run of the fetcher's retry machine: one ending for each transfer, a bound on the attempts of a
 transfer that is never paused, and the bytes handed over across retries.
 */
module HttpFetcherRuns {
  import opened Common
  import opened HttpFetcher

  // ---------------------------------------------------------------------------
  // Events

  datatype Event =
    | Begins
    | ResolvesProxies(proxies: seq<string>)
    | Writes(chunk: seq<Byte>, code: nat, contentLength: int, reaction: Reaction)
    | Performs(running: bool, code: nat, unresolved: bool)
    | RetryTimesOut
    | Pauses
    | Unpauses
    | Terminates

  /** Something is pending that can carry the transfer on. */
  predicate Live(l: Link) {
    l.resolving || l.inProgress || l.retryPending || l.restartOnUnpause
  }

  /** Events that can happen: a transfer begins when none is under way and is terminated while it is;
      bytes arrive and attempts end on an open connection. */
  predicate Enabled(s: Fetcher, e: Event) {
    match e
    case Begins => !Live(s.link)
    case ResolvesProxies(proxies) => s.link.resolving && proxies != []
    case Writes(_, _, _, _) => s.link.inProgress && !s.link.paused
    case Performs(_, _, _) => s.link.inProgress
    case RetryTimesOut => s.link.retryPending
    case Terminates => Live(s.link)
    case _ => true
  }

  function Step(s: Fetcher, e: Event): Fetcher
    requires Enabled(s, e)
  {
    match e
    case Begins => Begin(s)
    case ResolvesProxies(proxies) => Resolve(s, proxies)
    case Writes(chunk, code, contentLength, reaction) => Write(s, chunk, code, contentLength, reaction)
    case Performs(running, code, unresolved) => Perform(s, running, code, unresolved)
    case RetryTimesOut => RetryNow(s)
    case Pauses => Pause(s)
    case Unpauses => Unpause(s)
    case Terminates => ForceTermination(s)
  }

  function Run(s: Fetcher, events: seq<Event>): Option<Fetcher> {
    if events == [] then Some(s)
    else
      var before, e := Run(s, events[..|events| - 1]), events[|events| - 1];
      if before.Some? && Enabled(before.value, e) then Some(Step(before.value, e)) else None
  }

  // ---------------------------------------------------------------------------
  // One ending for each transfer

  /** A transfer was begun and has not ended. */
  predicate LiveIn(log: seq<Note>) {
    log != [] &&
    match log[|log| - 1]
    case Begun => true
    case Complete(_) => false
    case Terminated => false
    case _ => LiveIn(log[..|log| - 1])
  }

  /** A transfer begins when none is under way; everything else happens within one. */
  ghost predicate Lawful(log: seq<Note>) {
    forall i :: 0 <= i < |log| ==> (log[i].Begun? <==> !LiveIn(log[..i]))
  }

  /** At most one thing is pending. */
  predicate OnePending(l: Link) {
    && (l.resolving ==> !l.inProgress && !l.retryPending && !l.restartOnUnpause)
    && (l.inProgress ==> !l.retryPending && !l.restartOnUnpause)
    && (l.retryPending ==> !l.restartOnUnpause)
    && (l.restartOnUnpause ==> l.paused)
  }

  ghost predicate Tidy(s: Fetcher) {
    && Lawful(s.log)
    && OnePending(s.link)
    && (Live(s.link) <==> LiveIn(s.log))
    && (Live(s.link) && !s.link.resolving ==> s.budget.proxies != [])
  }

  lemma LawfulExtends(log: seq<Note>, note: Note)
    requires Lawful(log) && (note.Begun? <==> !LiveIn(log))
    ensures Lawful(log + [note])
    ensures LiveIn(log + [note]) <==> !note.Complete? && !note.Terminated?
  {
    var more := log + [note];
    Extend(log, note);
    forall i | 0 <= i < |more|
      ensures more[i].Begun? <==> !LiveIn(more[..i])
    {
      assert more[..i] == log[..i];
      if i == |log| {
        assert log[..i] == log;
      }
    }
  }

  lemma AttemptIsTidy(s: Fetcher)
    requires Lawful(s.log) && LiveIn(s.log) && s.budget.proxies != []
    requires !Live(s.link) && !s.link.paused
    ensures Tidy(StartAttempt(s))
  {
    LawfulExtends(s.log, Requested(RangeOf(s.data.bytesDownloaded, s.data.downloadLength)));
  }

  lemma EndIsTidy(s: Fetcher, code: nat, unresolved: bool)
    requires Tidy(s) && s.link.inProgress
    ensures Tidy(EndAttempt(s, code, unresolved))
  {
    var t := Closed(s, code, unresolved);
    var (budget, verdict) := Judge(t.budget, t.data, t.link.ignoreFailure);
    if verdict.Over? {
      LawfulExtends(s.log, Complete(verdict.success));
    }
  }

  lemma TerminationIsTidy(s: Fetcher)
    requires Tidy(s) && Live(s.link)
    ensures Tidy(ForceTermination(s))
  {
    LawfulExtends(s.log, Terminated);
  }

  lemma StepIsTidy(s: Fetcher, e: Event)
    requires Tidy(s) && Enabled(s, e)
    ensures Tidy(Step(s, e))
  {
    match e
    case Begins => LawfulExtends(s.log, Begun);
    case ResolvesProxies(proxies) => ResolveIsTidy(s, proxies);
    case Writes(chunk, _, _, _) => LawfulExtends(s.log, Received(chunk));
    case Performs(running, code, unresolved) => PerformIsTidy(s, running, code, unresolved);
    case RetryTimesOut => RetryIsTidy(s);
    case Pauses =>
    case Unpauses => UnpauseIsTidy(s);
    case Terminates => TerminationIsTidy(s);
  }

  lemma ResolveIsTidy(s: Fetcher, proxies: seq<string>)
    requires Tidy(s) && s.link.resolving && proxies != []
    ensures Tidy(Resolve(s, proxies))
  {
    if !s.link.paused {
      AttemptIsTidy(Fetcher(
        s.link.(resolving := false, terminateRequested := false),
        s.budget.(proxies := proxies, retryCount := 0, noNetworkRetryCount := 0),
        s.data.(transferSize := -1, resumeOffset := 0, responseCode := 0, sentByte := false),
        s.log));
    }
  }

  lemma PerformIsTidy(s: Fetcher, running: bool, code: nat, unresolved: bool)
    requires Tidy(s) && s.link.inProgress
    ensures Tidy(Perform(s, running, code, unresolved))
  {
    if s.link.terminateRequested {
      TerminationIsTidy(s);
    } else if !s.link.paused && !running {
      EndIsTidy(s, code, unresolved);
    }
  }

  lemma RetryIsTidy(s: Fetcher)
    requires Tidy(s) && s.link.retryPending
    ensures Tidy(RetryNow(s))
  {
    if !s.link.paused {
      AttemptIsTidy(s.(link := s.link.(retryPending := false)));
    }
  }

  lemma UnpauseIsTidy(s: Fetcher)
    requires Tidy(s)
    ensures Tidy(Unpause(s))
  {
    if s.link.paused && s.link.restartOnUnpause {
      AttemptIsTidy(s.(link := s.link.(paused := false, restartOnUnpause := false)));
    }
  }

  /** A fetcher that has not begun anything. */
  predicate Fresh(s: Fetcher) {
    !Live(s.link) && s.log == []
  }

  /** A fetcher between two transfers. */
  ghost predicate AtRest(s: Fetcher) {
    Tidy(s) && !Live(s.link)
  }

  function Count(log: seq<Note>, begins: bool): nat {
    if log == [] then 0
    else
      var note := log[|log| - 1];
      Count(log[..|log| - 1], begins) +
      if (if begins then note.Begun? else note.Complete? || note.Terminated?) then 1 else 0
  }

  lemma {:induction false} LawfulCounts(log: seq<Note>)
    requires Lawful(log)
    ensures Count(log, true) == Count(log, false) + if LiveIn(log) then 1 else 0
  {
    if log != [] {
      var n := |log| - 1;
      assert forall i :: 0 <= i < n ==> log[..n][..i] == log[..i];
      LawfulCounts(log[..n]);
    }
  }

  lemma {:induction false} EveryRunIsTidy(s: Fetcher, events: seq<Event>)
    requires Fresh(s) && Run(s, events).Some?
    ensures Tidy(Run(s, events).value)
  {
    if events != [] {
      var init, e := events[..|events| - 1], events[|events| - 1];
      EveryRunIsTidy(s, init);
      StepIsTidy(Run(s, init).value, e);
    }
  }

  /** In every run, with pauses wherever they come: exactly one thing is pending while a transfer is under
      way and nothing otherwise; each transfer that is over has had one ending, complete or terminated;
      and nothing is requested or handed over outside a transfer. */
  lemma OneEnding(s: Fetcher, events: seq<Event>)
    requires Fresh(s) && Run(s, events).Some?
    ensures var t := Run(s, events).value;
            && OnePending(t.link)
            && Lawful(t.log)
            && Count(t.log, true) == Count(t.log, false) + if Live(t.link) then 1 else 0
  {
    EveryRunIsTidy(s, events);
    LawfulCounts(Run(s, events).value.log);
  }

  // ---------------------------------------------------------------------------
  // Transfers that are never paused make finitely many attempts

  /** The limit on retries without a network, with the one raise that is still to come. */
  function Spare(b: Budget): nat {
    b.noNetworkMaxRetries + if b.host == Init then 1 else 0
  }

  predicate Funded(b: Budget) {
    b.retryCount <= b.maxRetryCount && b.noNetworkRetryCount <= b.noNetworkMaxRetries
  }

  /** Proxies and interruptions left, then retries without a network left. */
  function Measure(b: Budget): nat
    requires Funded(b)
  {
    (|b.proxies| + (b.maxRetryCount - b.retryCount)) * (Spare(b) + 1) + (Spare(b) - b.noNetworkRetryCount)
  }

  /** After a failed lookup the next attempt gets a response or fails the lookup again. */
  predicate LookedUpAgain(b: Budget, code: nat, unresolved: bool) {
    b.host == Retry && code == 0 ==> unresolved
  }

  lemma Lexicographic(x: nat, y: nat, s: nat, m: nat, n: nat)
    requires y < x && n <= s
    ensures y * (s + 1) + n < x * (s + 1) + m
  {
    var d := x - y - 1;
    assert x * (s + 1) == y * (s + 1) + (s + 1) + d * (s + 1);
  }

  lemma HeardKeepsSpare(b: Budget, code: nat, unresolved: bool)
    requires LookedUpAgain(b, code, unresolved)
    ensures Spare(Heard(b, code, unresolved)) == Spare(b)
    ensures Funded(b) ==> Funded(Heard(b, code, unresolved))
  {
  }

  /** Every retry costs a proxy, an interruption or a try without a network. */
  lemma RetryLowersMeasure(b: Budget, d: Data, code: nat, unresolved: bool)
    requires Funded(b) && b.proxies != [] && LookedUpAgain(b, code, unresolved) && d.responseCode == code
    ensures var (after, verdict) := Judge(Heard(b, code, unresolved), d, false);
            && Spare(after) == Spare(b)
            && (verdict.TryAgain? ==> Funded(after) && after.proxies != [] && Measure(after) < Measure(b))
  {
    HeardKeepsSpare(b, code, unresolved);
    var h := Heard(b, code, unresolved);
    var (after, verdict) := Judge(h, d, false);
    var x := |b.proxies| + (b.maxRetryCount - b.retryCount);
    var y := |after.proxies| + (after.maxRetryCount - after.retryCount);
    if verdict.TryAgain? && y < x {
      Lexicographic(x, y, Spare(b), Spare(b) - b.noNetworkRetryCount, Spare(after) - after.noNetworkRetryCount);
    }
  }

  /** The attempts made since the transfer began. */
  function Attempts(log: seq<Note>): nat {
    if log == [] || log[|log| - 1].Begun? then 0
    else Attempts(log[..|log| - 1]) + if log[|log| - 1].Requested? then 1 else 0
  }

  /** No pause, no second transfer, and no attempt that breaks the rule on lookups. */
  predicate Steady(s: Fetcher, e: Event) {
    && !e.Pauses? && !e.Begins? && !e.ResolvesProxies?
    && (e.Performs? && !e.running ==> LookedUpAgain(s.budget, e.code, e.unresolved))
  }

  ghost predicate SteadyRun(s: Fetcher, events: seq<Event>) {
    events != [] ==>
      && var init := events[..|events| - 1];
      && SteadyRun(s, init)
      && Run(s, init).Some?
      && Steady(Run(s, init).value, events[|events| - 1])
  }

  /** Attempts made and attempts that can still follow stay within the limit. */
  predicate Bounded(s: Fetcher, limit: nat, spare: nat) {
    && OnePending(s.link) && !s.link.paused && !s.link.ignoreFailure && !s.link.resolving
    && Spare(s.budget) == spare
    && if !Live(s.link) then Attempts(s.log) <= limit
       else
         && Funded(s.budget) && s.budget.proxies != []
         && Attempts(s.log) + Measure(s.budget) + (if s.link.inProgress then 0 else 1) <= limit
  }

  lemma CountMore(log: seq<Note>, note: Note)
    ensures Attempts(log + [note]) ==
            if note.Begun? then 0 else Attempts(log) + if note.Requested? then 1 else 0
  {
    Extend(log, note);
  }

  lemma EndIsBounded(s: Fetcher, limit: nat, spare: nat, code: nat, unresolved: bool)
    requires Bounded(s, limit, spare) && s.link.inProgress && LookedUpAgain(s.budget, code, unresolved)
    ensures Bounded(EndAttempt(s, code, unresolved), limit, spare)
  {
    var t := Closed(s, code, unresolved);
    RetryLowersMeasure(s.budget, t.data, code, unresolved);
    var (budget, verdict) := Judge(t.budget, t.data, false);
    if verdict.Over? {
      CountMore(s.log, Complete(verdict.success));
    }
  }

  lemma StepIsBounded(s: Fetcher, e: Event, limit: nat, spare: nat)
    requires Bounded(s, limit, spare) && Enabled(s, e) && Steady(s, e)
    ensures Bounded(Step(s, e), limit, spare)
  {
    match e
    case Writes(chunk, _, _, _) => CountMore(s.log, Received(chunk));
    case Performs(running, code, unresolved) =>
      CountMore(s.log, Terminated);
      if !s.link.terminateRequested && !running {
        EndIsBounded(s, limit, spare, code, unresolved);
      }
    case RetryTimesOut => CountMore(s.log, Requested(RangeOf(s.data.bytesDownloaded, s.data.downloadLength)));
    case Terminates => CountMore(s.log, Terminated);
    case Unpauses =>
  }

  /** The state in which a transfer that is not paused starts its first attempt. */
  function Started(s: Fetcher, proxies: seq<string>): Fetcher {
    Resolve(Begin(s), proxies)
  }

  lemma StartedMeasure(s: Fetcher, proxies: seq<string>)
    requires !s.link.paused
    ensures var b := Started(s, proxies).budget;
            && Funded(b) && Spare(b) == Spare(s.budget)
            && Measure(b) == (|proxies| + s.budget.maxRetryCount) * (Spare(s.budget) + 1) + Spare(s.budget)
  {
  }

  lemma StartIsBounded(s: Fetcher, proxies: seq<string>)
    requires AtRest(s) && !s.link.paused && proxies != []
    ensures var t := Started(s, proxies);
            Funded(t.budget) && Bounded(t, Measure(t.budget) + 1, Spare(t.budget))
  {
    var range := RangeOf(s.data.bytesDownloaded, s.data.downloadLength);
    CountMore(s.log, Begun);
    CountMore(s.log + [Begun], Requested(range));
    assert Started(s, proxies).log == s.log + [Begun] + [Requested(range)];
  }

  lemma {:induction false} SteadyRunIsBounded(s: Fetcher, proxies: seq<string>, events: seq<Event>)
    requires AtRest(s) && !s.link.paused && proxies != []
    requires var t := Started(s, proxies); Run(t, events).Some? && SteadyRun(t, events)
    ensures var t := Started(s, proxies);
            Funded(t.budget) && Bounded(Run(t, events).value, Measure(t.budget) + 1, Spare(t.budget))
    decreases |events|
  {
    StartIsBounded(s, proxies);
    if events != [] {
      var t := Started(s, proxies);
      var init, e := events[..|events| - 1], events[|events| - 1];
      SteadyRunIsBounded(s, proxies, init);
      StepIsBounded(Run(t, init).value, e, Measure(t.budget) + 1, Spare(t.budget));
    }
  }

  /** A transfer that is never paused makes no more attempts than proxies, interruptions and tries without
      a network allow, in whatever order they are used up, and raises the limit on tries without a network
      at most once. */
  lemma AttemptsAreBounded(s: Fetcher, proxies: seq<string>, events: seq<Event>)
    requires AtRest(s) && !s.link.paused && proxies != []
    requires var t := Started(s, proxies); Run(t, events).Some? && SteadyRun(t, events)
    ensures var t := Run(Started(s, proxies), events).value;
            var spare := Spare(s.budget);
            && Attempts(t.log) <= (|proxies| + s.budget.maxRetryCount) * (spare + 1) + spare + 1
            && t.budget.noNetworkMaxRetries <= s.budget.noNetworkMaxRetries + 1
  {
    SteadyRunIsBounded(s, proxies, events);
    StartedMeasure(s, proxies);
    RaisedOnce(s.budget, Run(Started(s, proxies), events).value.budget);
    BoundMeans(Run(Started(s, proxies), events).value, Measure(Started(s, proxies).budget) + 1, Spare(s.budget));
  }

  lemma RaisedOnce(b: Budget, c: Budget)
    requires Spare(b) == Spare(c)
    ensures c.noNetworkMaxRetries <= b.noNetworkMaxRetries + 1
  {
  }

  lemma BoundMeans(s: Fetcher, limit: nat, spare: nat)
    requires Bounded(s, limit, spare)
    ensures Attempts(s.log) <= limit
  {
  }

  /** Such a transfer never gets stuck: it is over, or a retry is posted whose task starts an attempt, or an
      attempt is in progress whose end leads to another attempt within a smaller budget or to the end. */
  lemma AttemptsLeadOn(s: Fetcher, proxies: seq<string>, events: seq<Event>, code: nat, unresolved: bool)
    requires AtRest(s) && !s.link.paused && proxies != []
    requires var t := Started(s, proxies); Run(t, events).Some? && SteadyRun(t, events)
    requires LookedUpAgain(Run(Started(s, proxies), events).value.budget, code, unresolved)
    ensures var t := Run(Started(s, proxies), events).value;
            if t.link.inProgress then
              var u := Perform(t, false, code, unresolved);
              if u.link.retryPending then Funded(t.budget) && Funded(u.budget) && Measure(u.budget) < Measure(t.budget)
              else !Live(u.link)
            else if t.link.retryPending then RetryNow(t).link.inProgress
            else !Live(t.link)
  {
    SteadyRunIsBounded(s, proxies, events);
    var t := Run(Started(s, proxies), events).value;
    if t.link.inProgress {
      RetryLowersMeasure(t.budget, t.data.(responseCode := code), code, unresolved);
    }
  }

  // ---------------------------------------------------------------------------
  // Transfers that are never paused end

  datatype Arrival = Arrival(chunk: seq<Byte>, code: nat, contentLength: int, reaction: Reaction)

  /** What one attempt brings: chunks that arrive, and how it ends. */
  datatype Attempt = Attempt(arrivals: seq<Arrival>, code: nat, unresolved: bool)

  function Arrived(s: Fetcher, arrivals: seq<Arrival>): Fetcher {
    if arrivals == [] then s
    else
      var a := arrivals[|arrivals| - 1];
      Write(Arrived(s, arrivals[..|arrivals| - 1]), a.chunk, a.code, a.contentLength, a.reaction)
  }

  /** An open connection of a transfer that is not paused. */
  predicate Open(s: Fetcher) {
    && s.link.inProgress && !s.link.resolving && !s.link.retryPending && !s.link.restartOnUnpause
    && !s.link.paused && !s.link.ignoreFailure
    && Funded(s.budget) && s.budget.proxies != []
  }

  /** One attempt to its end, and the task that starts the next. */
  function AfterOne(s: Fetcher, a: Attempt): Fetcher {
    var t := Perform(Arrived(s, a.arrivals), false, a.code, a.unresolved);
    if t.link.retryPending then RetryNow(t) else t
  }

  function AfterAttempts(s: Fetcher, attempts: seq<Attempt>): Fetcher
    decreases |attempts|
  {
    if attempts == [] || !s.link.inProgress then s else AfterAttempts(AfterOne(s, attempts[0]), attempts[1..])
  }

  /** Every failed lookup is followed by a response or another failed lookup. */
  predicate ObeyLookups(s: Fetcher, attempts: seq<Attempt>)
    decreases |attempts|
  {
    attempts == [] || !s.link.inProgress ||
    (LookedUpAgain(s.budget, attempts[0].code, attempts[0].unresolved) &&
     ObeyLookups(AfterOne(s, attempts[0]), attempts[1..]))
  }

  lemma {:induction false} ArrivalsKeepOpen(s: Fetcher, arrivals: seq<Arrival>)
    requires Open(s)
    ensures Open(Arrived(s, arrivals)) && Arrived(s, arrivals).budget == s.budget
    decreases |arrivals|
  {
    if arrivals != [] {
      ArrivalsKeepOpen(s, arrivals[..|arrivals| - 1]);
    }
  }

  lemma EndLowersOrCloses(s: Fetcher, code: nat, unresolved: bool)
    requires Open(s) && LookedUpAgain(s.budget, code, unresolved)
    ensures var t := Perform(s, false, code, unresolved);
            if t.link.retryPending
            then Open(RetryNow(t)) && Measure(RetryNow(t).budget) < Measure(s.budget)
            else Finished(t)
  {
    RetryLowersMeasure(s.budget, s.data.(responseCode := code), code, unresolved);
  }

  /** The transfer is over and the delegate has been told. */
  predicate Finished(s: Fetcher) {
    !Live(s.link) && s.log != [] && (s.log[|s.log| - 1].Complete? || s.log[|s.log| - 1].Terminated?)
  }

  lemma OneAttemptLowers(s: Fetcher, a: Attempt)
    requires Open(s) && LookedUpAgain(s.budget, a.code, a.unresolved)
    ensures var t := AfterOne(s, a);
            if t.link.inProgress then Open(t) && Measure(t.budget) < Measure(s.budget) else Finished(t)
  {
    ArrivalsKeepOpen(s, a.arrivals);
    EndLowersOrCloses(Arrived(s, a.arrivals), a.code, a.unresolved);
  }

  /** Whatever arrives and however attempts end, an open connection that is never paused is over, with the
      delegate told, after no more attempts than its measure and one. */
  lemma {:induction false} AttemptsRunOut(s: Fetcher, attempts: seq<Attempt>)
    requires Open(s) && ObeyLookups(s, attempts) && |attempts| > Measure(s.budget)
    ensures Finished(AfterAttempts(s, attempts))
    decreases |attempts|
  {
    OneAttemptLowers(s, attempts[0]);
    var t := AfterOne(s, attempts[0]);
    if t.link.inProgress {
      AttemptsRunOut(t, attempts[1..]);
    }
  }

  lemma StartIsOpen(s: Fetcher, proxies: seq<string>)
    requires AtRest(s) && !s.link.paused && proxies != []
    ensures Open(Started(s, proxies))
  {
  }

  /** Every transfer that is never paused ends: after more attempts than proxies, interruptions and tries
      without a network allow, it is over and the delegate has been told. */
  lemma EveryTransferEnds(s: Fetcher, proxies: seq<string>, attempts: seq<Attempt>)
    requires AtRest(s) && !s.link.paused && proxies != [] && ObeyLookups(Started(s, proxies), attempts)
    requires |attempts| > (|proxies| + s.budget.maxRetryCount) * (Spare(s.budget) + 1) + Spare(s.budget)
    ensures Finished(AfterAttempts(Started(s, proxies), attempts))
  {
    StartedMeasure(s, proxies);
    StartIsOpen(s, proxies);
    AttemptsRunOut(Started(s, proxies), attempts);
  }

  // ---------------------------------------------------------------------------
  // Neither hypothesis can be dropped

  lemma RunMore(s: Fetcher, events: seq<Event>, e: Event)
    requires Run(s, events).Some? && Enabled(Run(s, events).value, e)
    ensures Run(s, events + [e]) == Some(Step(Run(s, events).value, e))
  {
    assert (events + [e])[..|events + [e]| - 1] == events;
  }

  /** An open connection that has delivered some, but not all. */
  predicate HalfWay(s: Fetcher) {
    && s.link == Link(false, true, false, false, false, false, false)
    && s.data.sentByte && s.data.bytesDownloaded < s.data.transferSize
    && s.budget.retryCount <= s.budget.maxRetryCount && s.budget.proxies != []
  }

  lemma PauseIsNotCharged(s: Fetcher, events: seq<Event>) returns (longer: seq<Event>)
    requires Run(s, events).Some? && HalfWay(Run(s, events).value)
    ensures Run(s, longer).Some? && HalfWay(Run(s, longer).value)
    ensures Attempts(Run(s, longer).value.log) == Attempts(Run(s, events).value.log) + 1
  {
    var t := Run(s, events).value;
    longer := events + [Pauses];
    RunMore(s, events, Pauses);
    RunMore(s, longer, Performs(false, 200, false));
    longer := longer + [Performs(false, 200, false)];
    RunMore(s, longer, Unpauses);
    longer := longer + [Unpauses];
    RunMore(s, longer, Performs(false, 200, false));
    longer := longer + [Performs(false, 200, false)];
    RunMore(s, longer, RetryTimesOut);
    longer := longer + [RetryTimesOut];
    CountMore(t.log, Requested(RangeOf(t.data.bytesDownloaded, t.data.downloadLength)));
  }

  /** A connection that closes during a pause costs nothing, so with pauses there is no bound on the
      attempts of any transfer. */
  lemma {:induction false} PausesUnbounded(s: Fetcher, proxies: seq<string>, n: nat) returns (events: seq<Event>)
    requires AtRest(s) && !s.link.paused && proxies != []
    ensures var t := Run(Started(s, proxies), events);
            t.Some? && HalfWay(t.value) && Attempts(t.value.log) >= n
    decreases n
  {
    if n == 0 {
      var e := Writes([0], 200, 2, Reaction(false, true));
      RunMore(Started(s, proxies), [], e);
      events := [] + [e];
    } else {
      events := PausesUnbounded(s, proxies, n - 1);
      events := PauseIsNotCharged(Started(s, proxies), events);
    }
  }

  /** An open connection after a failed lookup, with nothing delivered. */
  predicate LookupFailed(s: Fetcher) {
    && s.link == Link(false, true, false, false, false, false, false)
    && !s.data.sentByte && s.budget.proxies != []
    && s.budget.host == Retry && s.budget.noNetworkRetryCount <= s.budget.noNetworkMaxRetries
  }

  lemma SilenceRaisesLimit(s: Fetcher, events: seq<Event>) returns (longer: seq<Event>)
    requires Run(s, events).Some? && LookupFailed(Run(s, events).value)
    ensures Run(s, longer).Some? && LookupFailed(Run(s, longer).value)
    ensures Attempts(Run(s, longer).value.log) == Attempts(Run(s, events).value.log) + 1
  {
    var t := Run(s, events).value;
    RunMore(s, events, Performs(false, 0, false));
    longer := events + [Performs(false, 0, false)];
    RunMore(s, longer, RetryTimesOut);
    longer := longer + [RetryTimesOut];
    CountMore(t.log, Requested(RangeOf(t.data.bytesDownloaded, t.data.downloadLength)));
  }

  /** After a failed lookup, attempts that end without a response and without another failed lookup raise
      the limit every time, so there is no bound on them either. */
  lemma {:induction false} SilenceUnbounded(s: Fetcher, proxies: seq<string>, n: nat) returns (events: seq<Event>)
    requires AtRest(s) && !s.link.paused && proxies != [] && s.budget.host == Init
    ensures var t := Run(Started(s, proxies), events);
            t.Some? && LookupFailed(t.value) && Attempts(t.value.log) >= n
    decreases n
  {
    if n == 0 {
      var e := Performs(false, 0, true);
      RunMore(Started(s, proxies), [], e);
      RunMore(Started(s, proxies), [] + [e], RetryTimesOut);
      events := [] + [e] + [RetryTimesOut];
    } else {
      events := SilenceUnbounded(s, proxies, n - 1);
      events := SilenceRaisesLimit(Started(s, proxies), events);
    }
  }

  // ---------------------------------------------------------------------------
  // Bytes handed over across retries

  /** The first byte the current attempt asked the server for. */
  function OffsetIn(log: seq<Note>): nat {
    if log == [] then 0
    else
      match log[|log| - 1]
      case Requested(range) => if range.Some? then range.value.first else 0
      case _ => OffsetIn(log[..|log| - 1])
  }

  /** The bytes received in the current attempt. */
  function ServedIn(log: seq<Note>): nat {
    if log == [] then 0
    else
      match log[|log| - 1]
      case Requested(_) => 0
      case Received(chunk) => ServedIn(log[..|log| - 1]) + |chunk|
      case _ => ServedIn(log[..|log| - 1])
  }

  /** All bytes handed to the delegate since the transfer began. */
  function DeliveredIn(log: seq<Note>): seq<Byte> {
    if log == [] then []
    else
      match log[|log| - 1]
      case Begun => []
      case Received(chunk) => DeliveredIn(log[..|log| - 1]) + chunk
      case _ => DeliveredIn(log[..|log| - 1])
  }

  /** A server that honours byte ranges: what it sends with a success code goes on where the request said
      and the attempt has come to, and its content length, if any, reaches to the end of the resource when
      the request did. */
  predicate Honest(resource: seq<Byte>, s: Fetcher, e: Event) {
    e.Writes? && IsSuccess(e.code) && e.chunk != [] ==>
      var at := OffsetIn(s.log) + ServedIn(s.log);
      && at + |e.chunk| <= |resource|
      && e.chunk == resource[at..at + |e.chunk|]
      && (e.contentLength > 0 && s.data.downloadLength == 0 ==> e.contentLength == |resource| - OffsetIn(s.log))
  }

  ghost predicate HonestRun(resource: seq<Byte>, s: Fetcher, events: seq<Event>) {
    events != [] ==>
      && var init := events[..|events| - 1];
      && HonestRun(resource, s, init)
      && Run(s, init).Some?
      && !events[|events| - 1].Begins?
      && Honest(resource, Run(s, init).value, events[|events| - 1])
  }

  /** The part of the resource from `start` to `end`; nothing if nothing was handed over. */
  function Part(resource: seq<Byte>, start: nat, end: nat): seq<Byte>
    requires start <= end && (start == end || end <= |resource|)
  {
    if start == end then [] else resource[start..end]
  }

  /** What was handed over is the resource from `start` to where the fetcher says it is. */
  predicate HandedOver(resource: seq<Byte>, start: nat, bytes: nat, log: seq<Note>) {
    && start <= bytes && (start == bytes || bytes <= |resource|)
    && DeliveredIn(log) == Part(resource, start, bytes)
  }

  /** The server is where the fetcher is. */
  predicate Aligned(s: Fetcher) {
    s.link.inProgress ==>
      OffsetIn(s.log) + ServedIn(s.log) == s.data.bytesDownloaded && s.data.resumeOffset == OffsetIn(s.log)
  }

  /** With no length set, a known size is the size of the resource. */
  predicate Sized(resource: seq<Byte>, start: nat, d: Data) {
    && (d.downloadLength == 0 ==>
          d.transferSize == -1 || (d.transferSize == |resource| && start < d.bytesDownloaded))
    && (d.bytesDownloaded == 0 ==> d.resumeOffset == 0)
  }

  predicate TerminatedIn(log: seq<Note>) {
    log != [] && log[|log| - 1].Terminated?
  }

  predicate InStep(resource: seq<Byte>, start: nat, s: Fetcher) {
    && HandedOver(resource, start, s.data.bytesDownloaded, s.log)
    && Aligned(s)
    && (!s.link.resolving && !TerminatedIn(s.log) ==> Sized(resource, start, s.data))
  }

  lemma SeeMore(log: seq<Note>, note: Note)
    ensures note.Requested? ==>
              && OffsetIn(log + [note]) == (if note.range.Some? then note.range.value.first else 0)
              && ServedIn(log + [note]) == 0
    ensures note.Received? ==>
              && OffsetIn(log + [note]) == OffsetIn(log)
              && ServedIn(log + [note]) == ServedIn(log) + |note.chunk|
              && DeliveredIn(log + [note]) == DeliveredIn(log) + note.chunk
    ensures note.Begun? ==> DeliveredIn(log + [note]) == []
    ensures !note.Received? && !note.Begun? ==> DeliveredIn(log + [note]) == DeliveredIn(log)
  {
    Extend(log, note);
  }

  lemma AttemptInStep(resource: seq<Byte>, start: nat, s: Fetcher)
    requires InStep(resource, start, s) && Sized(resource, start, s.data)
    ensures InStep(resource, start, StartAttempt(s))
  {
    SeeMore(s.log, Requested(RangeOf(s.data.bytesDownloaded, s.data.downloadLength)));
  }

  lemma PartsJoin(resource: seq<Byte>, start: nat, middle: nat, end: nat)
    requires start <= middle <= end <= |resource|
    ensures Part(resource, start, middle) + resource[middle..end] == Part(resource, start, end)
  {
  }

  lemma ChunkHandedOver(resource: seq<Byte>, start: nat, bytes: nat, log: seq<Note>, chunk: seq<Byte>)
    requires HandedOver(resource, start, bytes, log) && chunk != [] && bytes + |chunk| <= |resource|
    requires chunk == resource[bytes..bytes + |chunk|]
    ensures HandedOver(resource, start, bytes + |chunk|, log + [Received(chunk)])
  {
    SeeMore(log, Received(chunk));
    PartsJoin(resource, start, bytes, bytes + |chunk|);
  }

  lemma WriteInStep(resource: seq<Byte>, start: nat, s: Fetcher, e: Event)
    requires InStep(resource, start, s) && !TerminatedIn(s.log) && OnePending(s.link)
    requires e.Writes? && Enabled(s, e) && Honest(resource, s, e)
    ensures InStep(resource, start, Step(s, e))
  {
    if IsSuccess(e.code) && e.chunk != [] {
      SeeMore(s.log, Received(e.chunk));
      ChunkHandedOver(resource, start, s.data.bytesDownloaded, s.log, e.chunk);
    }
  }

  /** A success is never reported for a transfer that is known to be incomplete. */
  lemma SuccessIsComplete(b: Budget, d: Data, ignoreFailure: bool)
    requires Judge(b, d, ignoreFailure).1 == Over(true)
    ensures !(d.transferSize >= 0 && d.bytesDownloaded < d.transferSize)
  {
  }

  lemma CompleteInStep(resource: seq<Byte>, start: nat, s: Fetcher, success: bool)
    requires InStep(resource, start, s) && Sized(resource, start, s.data) && !s.link.inProgress
    requires success ==> !(s.data.transferSize >= 0 && s.data.bytesDownloaded < s.data.transferSize)
    ensures InStep(resource, start, Say(s, Complete(success))) && Succeeded(resource, start, Say(s, Complete(success)))
  {
    SeeMore(s.log, Complete(success));
    assert |resource| == s.data.bytesDownloaded ==> resource[start..s.data.bytesDownloaded] == resource[start..];
  }

  lemma EndInStep(resource: seq<Byte>, start: nat, s: Fetcher, code: nat, unresolved: bool)
    requires InStep(resource, start, s) && Succeeded(resource, start, s)
    requires s.link.inProgress && OnePending(s.link) && !TerminatedIn(s.log)
    ensures InStep(resource, start, EndAttempt(s, code, unresolved))
    ensures Succeeded(resource, start, EndAttempt(s, code, unresolved))
  {
    var t := Closed(s, code, unresolved);
    assert InStep(resource, start, t) && Sized(resource, start, t.data);
    var (budget, verdict) := Judge(t.budget, t.data, t.link.ignoreFailure);
    if verdict.Over? {
      if verdict.success {
        SuccessIsComplete(t.budget, t.data, t.link.ignoreFailure);
      }
      CompleteInStep(resource, start, t.(budget := budget), verdict.success);
    }
  }

  lemma ResolveInStep(resource: seq<Byte>, start: nat, s: Fetcher, proxies: seq<string>)
    requires InStep(resource, start, s) && s.link.resolving && OnePending(s.link)
    ensures InStep(resource, start, Resolve(s, proxies))
  {
    if !s.link.paused {
      AttemptInStep(resource, start, Fetcher(
        s.link.(resolving := false, terminateRequested := false),
        s.budget.(proxies := proxies, retryCount := 0, noNetworkRetryCount := 0),
        s.data.(transferSize := -1, resumeOffset := 0, responseCode := 0, sentByte := false),
        s.log));
    }
  }

  lemma TerminationInStep(resource: seq<Byte>, start: nat, s: Fetcher)
    requires InStep(resource, start, s)
    ensures InStep(resource, start, ForceTermination(s))
  {
    SeeMore(s.log, Terminated);
  }

  /** With no length set, a success with a known size comes only after all of the resource was handed over. */
  predicate Succeeded(resource: seq<Byte>, start: nat, s: Fetcher) {
    s.log != [] && s.log[|s.log| - 1] == Complete(true) && s.data.transferSize >= 0 && s.data.downloadLength == 0 ==>
      start <= |resource| && DeliveredIn(s.log) == resource[start..]
  }

  lemma BeginInStep(resource: seq<Byte>, s: Fetcher)
    requires AtRest(s)
    ensures Tidy(Begin(s)) && InStep(resource, s.data.bytesDownloaded, Begin(s))
    ensures Succeeded(resource, s.data.bytesDownloaded, Begin(s))
  {
    StepIsTidy(s, Begins);
    SeeMore(s.log, Begun);
  }

  lemma PerformInStep(resource: seq<Byte>, start: nat, s: Fetcher, running: bool, code: nat, unresolved: bool)
    requires InStep(resource, start, s) && Succeeded(resource, start, s) && Tidy(s) && s.link.inProgress
    ensures var t := Perform(s, running, code, unresolved);
            InStep(resource, start, t) && Succeeded(resource, start, t)
  {
    if s.link.terminateRequested {
      TerminationInStep(resource, start, s);
    } else if !running && !s.link.paused {
      EndInStep(resource, start, s, code, unresolved);
    }
  }

  lemma RetryInStep(resource: seq<Byte>, start: nat, s: Fetcher)
    requires InStep(resource, start, s) && Succeeded(resource, start, s) && Tidy(s) && s.link.retryPending
    ensures InStep(resource, start, RetryNow(s)) && Succeeded(resource, start, RetryNow(s))
  {
    if !s.link.paused {
      AttemptInStep(resource, start, s.(link := s.link.(retryPending := false)));
    }
  }

  lemma UnpauseInStep(resource: seq<Byte>, start: nat, s: Fetcher)
    requires InStep(resource, start, s) && Succeeded(resource, start, s) && Tidy(s)
    ensures InStep(resource, start, Unpause(s)) && Succeeded(resource, start, Unpause(s))
  {
    if s.link.paused && s.link.restartOnUnpause {
      AttemptInStep(resource, start, s.(link := s.link.(paused := false, restartOnUnpause := false)));
    }
  }

  lemma StepInStep(resource: seq<Byte>, start: nat, s: Fetcher, e: Event)
    requires InStep(resource, start, s) && Succeeded(resource, start, s) && Tidy(s)
    requires Enabled(s, e) && !e.Begins? && Honest(resource, s, e)
    ensures InStep(resource, start, Step(s, e)) && Succeeded(resource, start, Step(s, e))
  {
    match e
    case ResolvesProxies(proxies) => ResolveInStep(resource, start, s, proxies);
    case Writes(_, _, _, _) => WriteInStep(resource, start, s, e);
    case Performs(running, code, unresolved) => PerformInStep(resource, start, s, running, code, unresolved);
    case RetryTimesOut => RetryInStep(resource, start, s);
    case Pauses =>
    case Unpauses => UnpauseInStep(resource, start, s);
    case Terminates => TerminationInStep(resource, start, s);
  }

  lemma {:induction false} HonestRunInStep(resource: seq<Byte>, s: Fetcher, events: seq<Event>)
    requires AtRest(s)
    requires Run(Begin(s), events).Some? && HonestRun(resource, Begin(s), events)
    ensures var t := Run(Begin(s), events).value;
            Tidy(t) && InStep(resource, s.data.bytesDownloaded, t) && Succeeded(resource, s.data.bytesDownloaded, t)
  {
    if events == [] {
      BeginInStep(resource, s);
    } else {
      var init, e := events[..|events| - 1], events[|events| - 1];
      HonestRunInStep(resource, s, init);
      StepIsTidy(Run(Begin(s), init).value, e);
      StepInStep(resource, s.data.bytesDownloaded, Run(Begin(s), init).value, e);
    }
  }

  /** Over any number of dropped connections, retries and pauses, against a server that honours byte
      ranges, the bytes handed over are the resource from the start offset to the number of bytes
      downloaded, with no gap and no repeat, whether or not a length is set; and with none set, a success
      with a known size means all of the resource from the start offset. */
  lemma BytesAreContiguous(resource: seq<Byte>, s: Fetcher, events: seq<Event>)
    requires AtRest(s)
    requires Run(Begin(s), events).Some? && HonestRun(resource, Begin(s), events)
    ensures var start, t := s.data.bytesDownloaded, Run(Begin(s), events).value;
            && HandedOver(resource, start, t.data.bytesDownloaded, t.log)
            && Succeeded(resource, start, t)
  {
    HonestRunInStep(resource, s, events);
  }

  /** With a length set, an attempt asks for exactly the bytes still wanted if and only if none was handed
      over yet, save for the single byte at the very start, for which the end of the range is lost. */
  lemma RangeWithLength(start: nat, length: nat, handedOver: nat)
    requires 0 < length && handedOver < length
    ensures RangeOf(start + handedOver, length) == Some(Range(start + handedOver, Some(start + length - 1)))
            <==> handedOver == 0 && !(start == 0 && length == 1)
  {
  }
}
