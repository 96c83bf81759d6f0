/**
 Conservation of messages through the pipeline, and the theorem about whole runs: a run after
 the scheduler returned is bounded, cannot get stuck before shutdown is complete, never
 panics, and leaves every submitted job at exactly the end its fate calls for.
*/
module PipelineFlow {
  import opened Pipeline
  import opened PipelineShutdown

  function N(ch: Chan, j: Job): nat { multiset(ch.q)[j] }

  function Routed(r: Router, j: Job): nat { if r == Routing(j) then 1 else 0 }

  /** Occurrences of `j` on the way to its check's result ... */
  function Upstream(s: State, j: Job): nat {
    s.exec.waiting[j] + s.exec.holding[j] + s.exec.counted[j] + s.http.checking[j] + s.http.sending[j]
    + N(s.results, j) + Routed(s.router, j)
  }

  /** ... with a handler, and at an end. */
  function WithHandlers(s: State, j: Job): nat {
    N(s.successes, j) + s.success.busy[j] + N(s.failures, j) + s.failure.busy[j]
    + s.alerting.sending[j] + s.alerting.deferred[j]
  }

  function Ended(d: Done, j: Job): nat {
    d.dropped[j] + d.requeued[j] + d.up[j] + d.downQuiet[j] + d.downAlerted[j]
  }

  /** Every occurrence of `j` that was submitted is in exactly one place. */
  predicate Conserved(s: State, j: Job) {
    s.submitted[j] == N(s.jobs, j) + s.exec.loading[j] + Upstream(s, j) + WithHandlers(s, j) + Ended(s.done, j)
  }

  /** Every alert that was sent is in exactly one place, and was sent by a handler of `j`. */
  predicate AlertsConserved(s: State, j: Job) {
    N(s.alerts, j) + s.alert.busy[j] + s.done.alerts[j] == s.alerting.deferred[j] + s.done.downAlerted[j]
  }

  /** `j` is only where its fate leads. */
  predicate Sorted(s: State, j: Job) {
    && (Upstream(s, j) > 0 ==> j.fate.Up? || j.fate.Down?)
    && (N(s.successes, j) + s.success.busy[j] + s.done.up[j] > 0 ==> j.fate.Up?)
    && (N(s.failures, j) + s.failure.busy[j] > 0 ==> j.fate.Down?)
    && (s.alerting.sending[j] + s.alerting.deferred[j] + s.done.downAlerted[j] > 0 ==> j.fate == Down(true))
    && (s.done.downQuiet[j] > 0 ==> j.fate == Down(false))
    && (s.done.dropped[j] > 0 ==> j.fate.Gone?)
    && (s.done.requeued[j] > 0 ==> j.fate.LoadError?)
  }

  predicate Flow(s: State, j: Job) { Conserved(s, j) && AlertsConserved(s, j) && Sorted(s, j) }

  lemma PopCounts(ch: Chan, j: Job)
    requires ch.q != []
    ensures N(ch, j) == N(Pop(ch), j) + One(ch.q[0])[j]
  {
    assert ch.q == [ch.q[0]] + ch.q[1..];
  }

  lemma PushCounts(ch: Chan, i: Job, j: Job)
    requires !ch.closed
    ensures N(Push(ch, i), j) == N(ch, j) + One(i)[j]
  {
  }

  lemma FlowLoadedEnds(c: Config, s: State, i: Job, j: Job)
    requires Can(c, s, Loaded(i)) && Flow(s, j) && (i.fate.Gone? || i.fate.LoadError?)
    ensures Flow(DoExecutor(s, Loaded(i)), j)
  {
  }

  lemma FlowLoadedGoesOn(c: Config, s: State, i: Job, j: Job)
    requires Can(c, s, Loaded(i)) && Flow(s, j) && !i.fate.Gone? && !i.fate.LoadError?
    ensures Flow(DoExecutor(s, Loaded(i)), j)
  {
  }

  lemma FlowExecutor(c: Config, s: State, st: Step, j: Job)
    requires Can(c, s, st) && OfExecutor(st) && Flow(s, j)
    ensures Flow(DoExecutor(s, st), j)
  {
    match st
    case Receive => PopCounts(s.jobs, j);
    case Loaded(i) =>
      if i.fate.Gone? || i.fate.LoadError? { FlowLoadedEnds(c, s, i, j); } else { FlowLoadedGoesOn(c, s, i, j); }
    case Acquire(_) =>
    case Count(_) =>
    case Spawn(_) =>
    case _ =>
  }

  lemma FlowSendResult(c: Config, s: State, i: Job, j: Job)
    requires Can(c, s, SendResult(i)) && Flow(s, j) && !s.results.closed
    ensures Flow(DoHttp(s, SendResult(i)), j)
  {
    PushCounts(s.results, i, j);
  }

  lemma FlowHttp(c: Config, s: State, st: Step, j: Job)
    requires Can(c, s, st) && OfHttp(st) && Flow(s, j) && (st.SendResult? ==> !s.results.closed)
    ensures Flow(DoHttp(s, st), j)
  {
    match st
    case SendResult(i) => FlowSendResult(c, s, i, j);
    case Checked(_) =>
    case _ =>
  }

  lemma FlowRouteUp(s: State, j: Job)
    requires s.router.Routing? && s.router.job.fate.Up? && Flow(s, j) && !s.successes.closed
    ensures Flow(DoRouter(s, Route), j)
  {
    PushCounts(s.successes, s.router.job, j);
    assert Routed(s.router, j) == One(s.router.job)[j];
  }

  lemma FlowRouteDown(s: State, j: Job)
    requires s.router.Routing? && !s.router.job.fate.Up? && Flow(s, j) && !s.failures.closed
    ensures Flow(DoRouter(s, Route), j)
  {
    PushCounts(s.failures, s.router.job, j);
    assert Routed(s.router, j) == One(s.router.job)[j];
  }

  lemma FlowRouter(c: Config, s: State, st: Step, j: Job)
    requires Can(c, s, st) && OfRouter(st) && Flow(s, j)
    requires st.Route? ==> !s.successes.closed && !s.failures.closed
    ensures Flow(DoRouter(s, st), j)
  {
    match st
    case RouterReceives => PopCounts(s.results, j);
    case Route => if s.router.job.fate.Up? { FlowRouteUp(s, j); } else { FlowRouteDown(s, j); }
    case _ =>
  }

  lemma FlowSuccessReceives(c: Config, s: State, j: Job)
    requires Can(c, s, SuccessReceives) && Flow(s, j)
    ensures Flow(DoSuccess(s, SuccessReceives), j)
  {
    PopCounts(s.successes, j);
  }

  lemma FlowSuccessHandled(c: Config, s: State, i: Job, j: Job)
    requires Can(c, s, SuccessHandled(i)) && Flow(s, j)
    ensures Flow(DoSuccess(s, SuccessHandled(i)), j)
  {
  }

  lemma FlowSuccess(c: Config, s: State, st: Step, j: Job)
    requires Can(c, s, st) && OfSuccess(st) && Flow(s, j)
    ensures Flow(DoSuccess(s, st), j)
  {
    match st
    case SuccessReceives => FlowSuccessReceives(c, s, j);
    case SuccessHandled(i) => FlowSuccessHandled(c, s, i, j);
    case _ =>
  }

  lemma FlowDecidedAlert(c: Config, s: State, i: Job, j: Job)
    requires Can(c, s, FailureDecided(i)) && Flow(s, j) && i.fate == Down(true)
    ensures Flow(DoFailure(s, FailureDecided(i)), j)
  {
  }

  lemma FlowDecidedQuiet(c: Config, s: State, i: Job, j: Job)
    requires Can(c, s, FailureDecided(i)) && Flow(s, j) && i.fate != Down(true)
    ensures Flow(DoFailure(s, FailureDecided(i)), j)
  {
    QuietConserved(s, i, j);
    QuietSorted(s, i, j);
  }

  lemma QuietConserved(s: State, i: Job, j: Job)
    requires i in s.failure.busy && Conserved(s, j) && AlertsConserved(s, j) && i.fate != Down(true)
    ensures Conserved(DoFailure(s, FailureDecided(i)), j) && AlertsConserved(DoFailure(s, FailureDecided(i)), j)
  {
  }

  lemma QuietSorted(s: State, i: Job, j: Job)
    requires i in s.failure.busy && Sorted(s, j) && i.fate != Down(true)
    ensures Sorted(DoFailure(s, FailureDecided(i)), j)
  {
  }

  lemma FlowSendAlert(c: Config, s: State, i: Job, j: Job)
    requires Can(c, s, SendAlert(i)) && Flow(s, j) && !s.alerts.closed
    ensures Flow(DoFailure(s, SendAlert(i)), j)
  {
    PushCounts(s.alerts, i, j);
  }

  lemma FlowFailure(c: Config, s: State, st: Step, j: Job)
    requires Can(c, s, st) && OfFailure(st) && Flow(s, j) && (st.SendAlert? ==> !s.alerts.closed)
    ensures Flow(DoFailure(s, st), j)
  {
    match st
    case FailureReceives => PopCounts(s.failures, j);
    case FailureDecided(i) =>
      if i.fate == Down(true) { FlowDecidedAlert(c, s, i, j); } else { FlowDecidedQuiet(c, s, i, j); }
    case SendAlert(i) => FlowSendAlert(c, s, i, j);
    case FailureHandled(_) =>
    case _ =>
  }

  lemma FlowAlert(c: Config, s: State, st: Step, j: Job)
    requires Can(c, s, st) && OfAlert(st) && Flow(s, j)
    ensures Flow(DoAlert(s, st), j)
  {
    if st.AlertReceives? { PopCounts(s.alerts, j); }
  }

  lemma FlowStep(c: Config, s: State, st: Step, j: Job)
    requires Inv(c, s) && Can(c, s, st) && Flow(s, j)
    ensures Flow(Do(c, s, st), j)
  {
    if OfExecutor(st) {
      FlowExecutor(c, s, st, j);
    } else if OfHttp(st) {
      FlowHttp(c, s, st, j);
    } else if OfRouter(st) {
      FlowRouter(c, s, st, j);
    } else if OfSuccess(st) {
      FlowSuccess(c, s, st, j);
    } else if OfFailure(st) {
      FlowFailure(c, s, st, j);
    } else if OfAlert(st) {
      FlowAlert(c, s, st, j);
    } else if st.Submit? {
      assert !s.jobs.closed;
      PushCounts(s.jobs, st.j, j);
    }
  }

  // ---- Runs --------------------------------------------------------------------------------------

  ghost predicate IsRun(c: Config, ss: seq<State>, sts: seq<Step>) {
    && |ss| == |sts| + 1
    && forall i | 0 <= i < |sts| :: Can(c, ss[i], sts[i]) && ss[i + 1] == Do(c, ss[i], sts[i])
  }

  /** In every reachable state the accounts balance, nothing panicked and no message is lost or
      doubled. */
  lemma {:induction false} AlwaysSound(c: Config, ss: seq<State>, sts: seq<Step>, k: nat, j: Job)
    requires c.Valid() && IsRun(c, ss, sts) && ss[0] == Init(c) && k < |ss|
    ensures Inv(c, ss[k]) && Flow(ss[k], j) && !ss[k].panicked
  {
    if k == 0 {
      InvInit(c);
    } else {
      AlwaysSound(c, ss, sts, k - 1, j);
      InvStep(c, ss[k - 1], sts[k - 1]);
      FlowStep(c, ss[k - 1], sts[k - 1], j);
    }
  }

  /** In every interleaving the semaphore holds exactly one slot for every worker that acquired
      but has not spawned and every HTTP goroutine that has not released, within its capacity. */
  lemma SemaphoreAccounting(c: Config, ss: seq<State>, sts: seq<Step>, k: nat)
    requires c.Valid() && IsRun(c, ss, sts) && ss[0] == Init(c) && k < |ss|
    ensures var s := ss[k];
            s.sem == |s.exec.holding| + |s.exec.counted| + |s.http.checking| + |s.http.sending| + s.http.sent
                  <= c.semCap
  {
    AlwaysSound(c, ss, sts, k, Job(0, Gone));
  }

  /** Once Executor.Stop has returned, no worker and no HTTP goroutine is left, so the channel
      that is closed next has no sender. */
  lemma StopLeavesNoSender(c: Config, s: State)
    requires Inv(c, s) && s.pc >= STOPPED
    ensures s.exec.exited == c.executors && s.sem == 0
    ensures |s.http.checking| == |s.http.sending| == s.http.sent == s.http.released == 0
  {
  }

  /** Once the scheduler has returned, the step keeps that and the invariant and lowers the measure. */
  predicate Drains(c: Config, s: State, s': State) {
    Inv(c, s) && s.schedulerDone ==> Inv(c, s') && s'.schedulerDone && Measure(s') < Measure(s)
  }

  lemma DrainStep(c: Config, s: State, st: Step)
    requires c.Valid() && Can(c, s, st)
    ensures Drains(c, s, Do(c, s, st))
  {
    if Inv(c, s) && s.schedulerDone {
      StaysReturned(c, s, st);
      InvStep(c, s, st);
      MeasureFalls(c, s, st);
    }
  }

  lemma {:induction false} DrainsWithin(c: Config, ss: seq<State>, k: nat)
    requires k < |ss| && Inv(c, ss[0]) && ss[0].schedulerDone
    requires forall i | 0 <= i < |ss| - 1 :: Drains(c, ss[i], ss[i + 1])
    ensures Inv(c, ss[k]) && ss[k].schedulerDone && k + Measure(ss[k]) <= Measure(ss[0])
  {
    if k > 0 {
      DrainsWithin(c, ss, k - 1);
      assert Drains(c, ss[k - 1], ss[k - 1 + 1]);
    }
  }

  /** After the scheduler returned, a run is no longer than the measure it starts from. */
  lemma RunsAreBounded(c: Config, ss: seq<State>, sts: seq<Step>, k: nat)
    requires c.Valid() && IsRun(c, ss, sts) && Inv(c, ss[0]) && ss[0].schedulerDone && k < |ss|
    ensures Inv(c, ss[k]) && ss[k].schedulerDone
    ensures k + Measure(ss[k]) <= Measure(ss[0])
  {
    forall i | 0 <= i < |sts| ensures Drains(c, ss[i], ss[i + 1]) {
      DrainStep(c, ss[i], sts[i]);
    }
    DrainsWithin(c, ss, k);
  }

  lemma StaysReturned(c: Config, s: State, st: Step)
    requires Can(c, s, st) && s.schedulerDone
    ensures Do(c, s, st).schedulerDone && !st.Submit?
  {
  }

  /** The end that the fate of a job calls for. */
  function EndOf(d: Done, j: Job): nat {
    match j.fate
    case Gone => d.dropped[j]
    case LoadError => d.requeued[j]
    case Up => d.up[j]
    case Down(alert) => if alert then d.downAlerted[j] else d.downQuiet[j]
  }

  /** Every channel is empty, nobody holds a job, and every worker has exited. */
  predicate ShutDown(c: Config, s: State) {
    && s.pc == DOWN && !s.panicked && Quiescent(s) && s.router.Closed?
    && s.exec.exited == c.executors && s.success.exited == c.successWorkers
    && s.failure.exited == c.failureWorkers && s.alert.exited == c.alertWorkers
  }

  lemma DownIsShutDown(c: Config, s: State)
    requires c.Valid() && Inv(c, s) && s.pc == DOWN
    ensures ShutDown(c, s)
  {
  }

  /** When shutdown is complete each submitted job has ended once, where its fate leads, and each
      alerting failure has had its alert handled. */
  lemma ShutdownDrains(c: Config, s: State, j: Job)
    requires Inv(c, s) && Flow(s, j) && s.pc == DOWN && c.Valid()
    ensures s.submitted[j] == EndOf(s.done, j) == Ended(s.done, j)
    ensures s.done.alerts[j] == if j.fate == Down(true) then s.submitted[j] else 0
  {
  }

  /** Shutdown drains and terminates: whatever the fates and the interleaving, a run that goes
      on for as long as some step is enabled ends with every channel empty, every worker exited,
      nothing panicked, every job at its end and every alert handled. */
  lemma MaximalRunsShutDown(c: Config, ss: seq<State>, sts: seq<Step>, j: Job)
    requires c.Valid() && IsRun(c, ss, sts) && ss[0] == Init(c)
    requires var last := ss[|sts|]; last.schedulerDone && !Enabled(c, last)
    ensures var last := ss[|sts|];
            && ShutDown(c, last)
            && last.submitted[j] == EndOf(last.done, j) == Ended(last.done, j)
            && last.done.alerts[j] == if j.fate == Down(true) then last.submitted[j] else 0
  {
    var last := ss[|sts|];
    AlwaysSound(c, ss, sts, |sts|, j);
    if last.pc < DOWN { Progress(c, last); }
    DownIsShutDown(c, last);
    ShutdownDrains(c, last, j);
  }

  // ---- Runs exist --------------------------------------------------------------------------------

  lemma Prepend(c: Config, s: State, st: Step, ss: seq<State>, sts: seq<Step>)
    requires IsRun(c, ss, sts) && Can(c, s, st) && ss[0] == Do(c, s, st)
    ensures IsRun(c, [s] + ss, [st] + sts)
  {
    var all, steps := [s] + ss, [st] + sts;
    forall i | 0 <= i < |steps| ensures Can(c, all[i], steps[i]) && all[i + 1] == Do(c, all[i], steps[i]) {
      if i > 0 { assert all[i] == ss[i - 1] && steps[i] == sts[i - 1] && all[i + 1] == ss[i - 1 + 1]; }
    }
  }

  lemma SubmittedStays(c: Config, s: State, st: Step)
    requires Can(c, s, st) && !st.Submit?
    ensures Do(c, s, st).submitted == s.submitted
  {
    if OfExecutor(st) {
    } else if OfHttp(st) {
    } else if OfRouter(st) {
    } else if OfSuccess(st) {
    } else if OfFailure(st) {
    } else if OfAlert(st) {
    } else {
    }
  }

  lemma SomeStep(c: Config, s: State) returns (st: Step)
    requires c.Valid() && Inv(c, s) && s.schedulerDone && s.pc < DOWN
    ensures Can(c, s, st) && Drains(c, s, Do(c, s, st)) && Do(c, s, st).submitted == s.submitted
  {
    Progress(c, s);
    st :| Can(c, s, st) && !st.Submit?;
    DrainStep(c, s, st);
    SubmittedStays(c, s, st);
  }

  /** Once the scheduler has returned, some run completes the shutdown. */
  lemma {:induction false} ShutdownReachable(c: Config, s: State) returns (ss: seq<State>, sts: seq<Step>)
    requires c.Valid() && Inv(c, s) && s.schedulerDone
    ensures IsRun(c, ss, sts) && ss[0] == s
    ensures ss[|sts|].pc == DOWN && ss[|sts|].submitted == s.submitted
    decreases Measure(s)
  {
    if s.pc == DOWN {
      ss, sts := [s], [];
    } else {
      var st := SomeStep(c, s);
      var rest, more := ShutdownReachable(c, Do(c, s, st));
      Prepend(c, s, st, rest, more);
      ss, sts := [s] + rest, [st] + more;
    }
  }

  lemma SubmitStep(c: Config, s: State, j: Job)
    requires c.Valid() && Inv(c, s) && !s.schedulerDone && |s.jobs.q| < c.jobCap
    ensures Can(c, s, Submit(j)) && Inv(c, Do(c, s, Submit(j)))
    ensures var s' := Do(c, s, Submit(j));
            !s'.schedulerDone && |s'.jobs.q| == |s.jobs.q| + 1 && s'.submitted == s.submitted + One(j)
  {
    InvStep(c, s, Submit(j));
  }

  lemma ReturnStep(c: Config, s: State)
    requires c.Valid() && Inv(c, s) && !s.schedulerDone
    ensures Can(c, s, SchedulerReturns) && Inv(c, Do(c, s, SchedulerReturns))
    ensures Do(c, s, SchedulerReturns) == s.(schedulerDone := true)
  {
    InvStep(c, s, SchedulerReturns);
  }

  lemma ReturnAndDrain(c: Config, s: State) returns (ss: seq<State>, sts: seq<Step>)
    requires c.Valid() && Inv(c, s) && !s.schedulerDone
    ensures IsRun(c, ss, sts) && ss[0] == s
    ensures ss[|sts|].pc == DOWN && ss[|sts|].submitted == s.submitted
  {
    var s' := Do(c, s, SchedulerReturns);
    ReturnStep(c, s);
    var rest, more := ShutdownReachable(c, s');
    Prepend(c, s, SchedulerReturns, rest, more);
    ss, sts := [s] + rest, [SchedulerReturns] + more;
  }

  lemma {:induction false} SubmitAll(c: Config, s: State, js: seq<Job>) returns (ss: seq<State>, sts: seq<Step>)
    requires c.Valid() && Inv(c, s) && !s.schedulerDone && |s.jobs.q| + |js| <= c.jobCap
    ensures IsRun(c, ss, sts) && ss[0] == s
    ensures ss[|sts|].pc == DOWN && ss[|sts|].submitted == s.submitted + multiset(js)
    decreases |js|
  {
    if js == [] {
      ss, sts := ReturnAndDrain(c, s);
    } else {
      SubmitStep(c, s, js[0]);
      var rest, more := SubmitAll(c, Do(c, s, Submit(js[0])), js[1..]);
      Prepend(c, s, Submit(js[0]), rest, more);
      assert js == [js[0]] + js[1..];
      ss, sts := [s] + rest, [Submit(js[0])] + more;
    }
  }

  /** Every workload that fits the job channel, whatever the fates, has a run that takes exactly
      its jobs, shuts down, and brings each of them to the end that its fate calls for. */
  lemma EveryWorkloadRuns(c: Config, js: seq<Job>) returns (ss: seq<State>, sts: seq<Step>)
    requires c.Valid() && |js| <= c.jobCap
    ensures IsRun(c, ss, sts) && ss[0] == Init(c) && ShutDown(c, ss[|sts|])
    ensures forall j :: EndOf(ss[|sts|].done, j) == multiset(js)[j]
  {
    InvInit(c);
    ss, sts := SubmitAll(c, Init(c), js);
    forall j ensures EndOf(ss[|sts|].done, j) == multiset(js)[j] {
      AlwaysSound(c, ss, sts, |sts|, j);
      ShutdownDrains(c, ss[|sts|], j);
    }
    AlwaysSound(c, ss, sts, |sts|, Job(0, Gone));
    DownIsShutDown(c, ss[|sts|]);
  }
}
