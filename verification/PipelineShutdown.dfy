/**
 The pipeline drains and terminates. In every reachable state the pools, the semaphore and the
 WaitGroups add up and nothing has panicked; once the scheduler has returned, some step is
 enabled until shutdown is complete, every step lowers a measure, and at the end every
 submitted job has met exactly the end its fate calls for.
*/
module PipelineShutdown {
  import opened Pipeline

  // ---- Invariants ----------------------------------------------------------------------------

  /** Workers, slots and WaitGroups add up, and the channels keep their capacities. */
  predicate Accounts(c: Config, s: State) {
    var x, h := s.exec, s.http;
    && x.idle + |x.loading| + |x.waiting| + |x.holding| + |x.counted| + x.exited == c.executors
    && s.workerWg + x.exited == c.executors
    && s.sem == |x.holding| + |x.counted| + |h.checking| + |h.sending| + h.sent
    && s.sem <= c.semCap
    && s.httpWg == |x.counted| + |h.checking| + |h.sending| + h.sent + h.released
    && s.success.idle + |s.success.busy| + s.success.exited == c.successWorkers
    && s.failure.idle + |s.failure.busy| + |s.alerting.sending| + |s.alerting.deferred| + s.failure.exited
       == c.failureWorkers
    && s.resultWg + s.success.exited + s.failure.exited == c.successWorkers + c.failureWorkers
    && s.alert.idle + |s.alert.busy| + s.alert.exited == c.alertWorkers
    && s.alertWg + s.alert.exited == c.alertWorkers
    && |s.jobs.q| <= c.jobCap && |s.results.q| <= c.resultCap && |s.successes.q| <= c.successCap
    && |s.failures.q| <= c.failureCap && |s.alerts.q| <= c.alertCap
  }

  /** What is closed, and who has exited, at each point of the shutdown; nothing panicked. */
  predicate Ordered(c: Config, s: State) {
    && !s.panicked && s.pc <= DOWN
    && (s.jobs.closed <==> s.pc >= JOBS_CLOSED) && (s.jobs.closed ==> s.schedulerDone)
    && (s.exec.exited > 0 ==> Drained(s.jobs))
    && (s.pc >= WORKERS_DONE ==> s.workerWg == 0)
    && (s.pc >= STOPPED ==> s.httpWg == 0)
    && (s.results.closed <==> s.pc >= RESULTS_CLOSED)
    && (s.failures.closed <==> s.router.Closing? || s.router.Closed?)
    && (s.successes.closed <==> s.router.Closed?)
    && (s.failures.closed ==> Drained(s.results))
    && (s.success.exited > 0 ==> Drained(s.successes))
    && (s.failure.exited > 0 ==> Drained(s.failures))
    && (s.pc >= RESULTS_DONE ==> s.resultWg == 0)
    && (s.alerts.closed <==> s.pc >= ALERTS_CLOSED)
    && (s.alert.exited > 0 ==> Drained(s.alerts))
    && (s.pc >= DOWN ==> s.alertWg == 0)
  }

  predicate Inv(c: Config, s: State) { Accounts(c, s) && Ordered(c, s) }

  lemma InvInit(c: Config)
    requires c.Valid()
    ensures Inv(c, Init(c))
  {
  }

  lemma OneLess(m: Jobs, j: Job)
    requires j in m
    ensures |m - One(j)| == |m| - 1
  {
  }

  lemma OneMore(m: Jobs, j: Job)
    ensures |m + One(j)| == |m| + 1
  {
  }

  lemma ExecutorAccounts(c: Config, s: State, st: Step)
    requires Inv(c, s) && Can(c, s, st) && OfExecutor(st) && !st.Loaded?
    ensures Accounts(c, DoExecutor(s, st))
  {
  }

  lemma ExecutorOrdered(c: Config, s: State, st: Step)
    requires Inv(c, s) && Can(c, s, st) && OfExecutor(st) && !st.Loaded?
    ensures Ordered(c, DoExecutor(s, st))
  {
  }

  lemma InvExecutor(c: Config, s: State, st: Step)
    requires Inv(c, s) && Can(c, s, st) && OfExecutor(st) && !st.Loaded?
    ensures Inv(c, DoExecutor(s, st))
  {
    ExecutorAccounts(c, s, st);
    ExecutorOrdered(c, s, st);
  }

  lemma InvLoaded(c: Config, s: State, j: Job)
    requires Inv(c, s) && Can(c, s, Loaded(j))
    ensures Inv(c, DoExecutor(s, Loaded(j)))
  {
    OneLess(s.exec.loading, j);
    if j.fate.Gone? {
    } else if j.fate.LoadError? {
    } else {
      OneMore(s.exec.waiting, j);
    }
  }

  lemma HttpAccounts(c: Config, s: State, st: Step)
    requires Inv(c, s) && Can(c, s, st) && OfHttp(st)
    ensures Accounts(c, DoHttp(s, st))
  {
  }

  lemma HttpOrdered(c: Config, s: State, st: Step)
    requires Inv(c, s) && Can(c, s, st) && OfHttp(st)
    ensures Ordered(c, DoHttp(s, st))
  {
  }

  lemma InvHttp(c: Config, s: State, st: Step)
    requires Inv(c, s) && Can(c, s, st) && OfHttp(st)
    ensures Inv(c, DoHttp(s, st))
  {
    HttpAccounts(c, s, st);
    HttpOrdered(c, s, st);
  }

  lemma RouterAccounts(c: Config, s: State, st: Step)
    requires Inv(c, s) && Can(c, s, st) && OfRouter(st)
    ensures Accounts(c, DoRouter(s, st))
  {
    match st
    case RouterReceives => assert |s.results.q[1..]| == |s.results.q| - 1;
    case Route =>
    case _ =>
  }

  lemma RouterOrdered(c: Config, s: State, st: Step)
    requires Inv(c, s) && Can(c, s, st) && OfRouter(st)
    ensures Ordered(c, DoRouter(s, st))
  {
  }

  lemma InvRouter(c: Config, s: State, st: Step)
    requires Inv(c, s) && Can(c, s, st) && OfRouter(st)
    ensures Inv(c, DoRouter(s, st))
  {
    RouterAccounts(c, s, st);
    RouterOrdered(c, s, st);
  }

  lemma SuccessAccounts(c: Config, s: State, st: Step)
    requires Inv(c, s) && Can(c, s, st) && OfSuccess(st)
    ensures Accounts(c, DoSuccess(s, st))
  {
  }

  lemma SuccessOrdered(c: Config, s: State, st: Step)
    requires Inv(c, s) && Can(c, s, st) && OfSuccess(st)
    ensures Ordered(c, DoSuccess(s, st))
  {
  }

  lemma InvSuccess(c: Config, s: State, st: Step)
    requires Inv(c, s) && Can(c, s, st) && OfSuccess(st)
    ensures Inv(c, DoSuccess(s, st))
  {
    SuccessAccounts(c, s, st);
    SuccessOrdered(c, s, st);
  }

  lemma FailureAccounts(c: Config, s: State, st: Step)
    requires Inv(c, s) && Can(c, s, st) && OfFailure(st) && !st.FailureDecided?
    ensures Accounts(c, DoFailure(s, st))
  {
  }

  lemma FailureOrdered(c: Config, s: State, st: Step)
    requires Inv(c, s) && Can(c, s, st) && OfFailure(st) && !st.FailureDecided?
    ensures Ordered(c, DoFailure(s, st))
  {
  }

  lemma InvFailure(c: Config, s: State, st: Step)
    requires Inv(c, s) && Can(c, s, st) && OfFailure(st) && !st.FailureDecided?
    ensures Inv(c, DoFailure(s, st))
  {
    FailureAccounts(c, s, st);
    FailureOrdered(c, s, st);
  }

  lemma InvDecided(c: Config, s: State, j: Job)
    requires Inv(c, s) && Can(c, s, FailureDecided(j))
    ensures Inv(c, DoFailure(s, FailureDecided(j)))
  {
    OneLess(s.failure.busy, j);
    if j.fate.Down? && j.fate.alert {
      OneMore(s.alerting.sending, j);
    } else {
    }
  }

  lemma AlertAccounts(c: Config, s: State, st: Step)
    requires Inv(c, s) && Can(c, s, st) && OfAlert(st)
    ensures Accounts(c, DoAlert(s, st))
  {
  }

  lemma AlertOrdered(c: Config, s: State, st: Step)
    requires Inv(c, s) && Can(c, s, st) && OfAlert(st)
    ensures Ordered(c, DoAlert(s, st))
  {
  }

  lemma InvAlert(c: Config, s: State, st: Step)
    requires Inv(c, s) && Can(c, s, st) && OfAlert(st)
    ensures Inv(c, DoAlert(s, st))
  {
    AlertAccounts(c, s, st);
    AlertOrdered(c, s, st);
  }

  lemma InvShutdown(c: Config, s: State, st: Step)
    requires c.Valid() && Inv(c, s) && Can(c, s, st)
    ensures Inv(c, DoShutdown(s, st))
  {
  }

  lemma InvStep(c: Config, s: State, st: Step)
    requires c.Valid() && Inv(c, s) && Can(c, s, st)
    ensures Inv(c, Do(c, s, st))
  {
    if OfExecutor(st) {
      if st.Loaded? { InvLoaded(c, s, st.j); } else { InvExecutor(c, s, st); }
    } else if OfHttp(st) {
      InvHttp(c, s, st);
    } else if OfRouter(st) {
      InvRouter(c, s, st);
    } else if OfSuccess(st) {
      InvSuccess(c, s, st);
    } else if OfFailure(st) {
      if st.FailureDecided? { InvDecided(c, s, st.j); } else { InvFailure(c, s, st); }
    } else if OfAlert(st) {
      InvAlert(c, s, st);
    } else {
      InvShutdown(c, s, st);
    }
  }

  // ---- What panics -------------------------------------------------------------------------

  /** A send on a closed channel, a close of a closed channel, a Done below zero. */
  predicate Panics(s: State, st: Step) {
    match st
    case Submit(_) => s.jobs.closed
    case SendResult(_) => s.results.closed
    case Route => s.router.Routing? && if s.router.job.fate.Up? then s.successes.closed else s.failures.closed
    case SendAlert(_) => s.alerts.closed
    case CloseJobs => s.jobs.closed
    case CloseResults => s.results.closed
    case CloseAlerts => s.alerts.closed
    case RouterClosesFailures => s.failures.closed
    case RouterClosesSuccesses => s.successes.closed
    case WorkerExits => s.workerWg == 0
    case HttpDone => s.httpWg == 0
    case SuccessExits => s.resultWg == 0
    case FailureExits => s.resultWg == 0
    case AlertExits => s.alertWg == 0
    case _ => false
  }

  /** From any state, exactly those steps panic ... */
  lemma PanicsExactly(c: Config, s: State, st: Step)
    requires Can(c, s, st) && !s.panicked
    ensures Do(c, s, st).panicked <==> Panics(s, st)
  {
  }

  /** ... and a send on a closed channel does not block: it comes, and panics. */
  lemma ClosedSendsPanic(c: Config, s: State, j: Job)
    ensures s.jobs.closed && !s.schedulerDone ==> Can(c, s, Submit(j)) && Panics(s, Submit(j))
    ensures s.results.closed && j in s.http.sending ==> Can(c, s, SendResult(j)) && Panics(s, SendResult(j))
    ensures s.successes.closed && s.failures.closed && s.router.Routing? ==> Can(c, s, Route) && Panics(s, Route)
    ensures s.alerts.closed && j in s.alerting.sending ==> Can(c, s, SendAlert(j)) && Panics(s, SendAlert(j))
  {
  }

  // ---- Progress ----------------------------------------------------------------------------

  ghost predicate Enabled(c: Config, s: State) { exists st :: Can(c, s, st) && !st.Submit? }

  lemma SomeJob(m: Jobs) returns (j: Job)
    requires |m| > 0
    ensures j in m
  {
    j :| j in m;
  }

  lemma AlertStageRuns(c: Config, s: State)
    requires c.Valid() && Inv(c, s) && (|s.alert.busy| > 0 || s.alerts.q != [])
    ensures Enabled(c, s)
  {
    if |s.alert.busy| > 0 {
      var j := SomeJob(s.alert.busy);
      assert Can(c, s, AlertHandled(j));
    } else {
      assert Can(c, s, AlertReceives);
    }
  }

  lemma FailureStageRuns(c: Config, s: State)
    requires c.Valid() && Inv(c, s) && s.alerts.q == []
    requires |s.failure.busy| > 0 || |s.alerting.sending| > 0 || |s.alerting.deferred| > 0 || s.failures.q != []
    ensures Enabled(c, s)
  {
    if |s.failure.busy| > 0 {
      var j := SomeJob(s.failure.busy);
      assert Can(c, s, FailureDecided(j));
    } else if |s.alerting.sending| > 0 {
      var j := SomeJob(s.alerting.sending);
      assert Can(c, s, SendAlert(j));
    } else if |s.alerting.deferred| > 0 {
      var j := SomeJob(s.alerting.deferred);
      assert Can(c, s, FailureHandled(j));
    } else {
      assert Can(c, s, FailureReceives);
    }
  }

  lemma SuccessStageRuns(c: Config, s: State)
    requires c.Valid() && Inv(c, s) && (|s.success.busy| > 0 || s.successes.q != [])
    ensures Enabled(c, s)
  {
    if |s.success.busy| > 0 {
      var j := SomeJob(s.success.busy);
      assert Can(c, s, SuccessHandled(j));
    } else {
      assert Can(c, s, SuccessReceives);
    }
  }

  lemma RouterRuns(c: Config, s: State)
    requires c.Valid() && Inv(c, s) && s.successes.q == [] && s.failures.q == []
    requires s.router.Routing? || s.router.Closing? || s.results.q != []
    ensures Enabled(c, s)
  {
    if s.router.Routing? {
      assert Can(c, s, Route);
    } else if s.router.Closing? {
      assert Can(c, s, RouterClosesSuccesses);
    } else {
      assert Can(c, s, RouterReceives);
    }
  }

  lemma HttpStageRuns(c: Config, s: State)
    requires c.Valid() && Inv(c, s) && s.results.q == []
    requires |s.http.checking| > 0 || |s.http.sending| > 0 || s.http.sent > 0 || s.http.released > 0
    ensures Enabled(c, s)
  {
    if |s.http.checking| > 0 {
      var j := SomeJob(s.http.checking);
      assert Can(c, s, Checked(j));
    } else if |s.http.sending| > 0 {
      var j := SomeJob(s.http.sending);
      assert Can(c, s, SendResult(j));
    } else if s.http.sent > 0 {
      assert Can(c, s, Release);
    } else {
      assert Can(c, s, HttpDone);
    }
  }

  predicate ExecutorBusy(s: State) {
    |s.exec.loading| > 0 || |s.exec.waiting| > 0 || |s.exec.holding| > 0 || |s.exec.counted| > 0 || s.jobs.q != []
  }

  lemma ExecutorRuns(c: Config, s: State)
    requires c.Valid() && Inv(c, s) && ExecutorBusy(s)
    requires |s.http.checking| == |s.http.sending| == s.http.sent == 0
    ensures Enabled(c, s)
  {
    if |s.exec.loading| > 0 {
      var j := SomeJob(s.exec.loading);
      assert Can(c, s, Loaded(j));
    } else if |s.exec.holding| > 0 {
      var j := SomeJob(s.exec.holding);
      assert Can(c, s, Count(j));
    } else if |s.exec.counted| > 0 {
      var j := SomeJob(s.exec.counted);
      assert Can(c, s, Spawn(j));
    } else if |s.exec.waiting| > 0 {
      var j := SomeJob(s.exec.waiting);
      assert Can(c, s, Acquire(j));
    } else {
      assert Can(c, s, Receive);
    }
  }

  /** No channel holds a message and no goroutine holds a job. */
  predicate Quiescent(s: State) {
    && s.jobs.q == [] && s.results.q == [] && s.successes.q == [] && s.failures.q == [] && s.alerts.q == []
    && !ExecutorBusy(s) && |s.http.checking| == |s.http.sending| == s.http.sent == s.http.released == 0
    && (s.router.Receiving? || s.router.Closed?)
    && |s.success.busy| == |s.failure.busy| == |s.alerting.sending| == |s.alerting.deferred| == |s.alert.busy| == 0
  }

  lemma ResultWorkersRun(c: Config, s: State)
    requires c.Valid() && Inv(c, s) && s.pc == RESULTS_CLOSED && Quiescent(s)
    ensures Enabled(c, s)
  {
    if s.router.Receiving? {
      assert Can(c, s, RouterClosesFailures);
    } else if s.success.idle > 0 {
      assert Can(c, s, SuccessExits);
    } else if s.failure.idle > 0 {
      assert Can(c, s, FailureExits);
    } else {
      assert Can(c, s, ResultsWaited);
    }
  }

  /** With all messages gone, an idle worker can exit or the shutdown sequence can go on. */
  lemma ShutdownRuns(c: Config, s: State)
    requires c.Valid() && Inv(c, s) && s.schedulerDone && s.pc < DOWN && Quiescent(s)
    ensures Enabled(c, s)
  {
    if s.pc == RUNNING {
      assert Can(c, s, CloseJobs);
    } else if s.pc == JOBS_CLOSED {
      if s.exec.idle > 0 {
        assert Can(c, s, WorkerExits);
      } else {
        assert Can(c, s, WorkersWaited);
      }
    } else if s.pc == WORKERS_DONE {
      assert Can(c, s, HttpWaited);
    } else if s.pc == STOPPED {
      assert Can(c, s, CloseResults);
    } else if s.pc == RESULTS_CLOSED {
      ResultWorkersRun(c, s);
    } else if s.pc == RESULTS_DONE {
      assert Can(c, s, CloseAlerts);
    } else {
      if s.alert.idle > 0 {
        assert Can(c, s, AlertExits);
      } else {
        assert Can(c, s, AlertsWaited);
      }
    }
  }

  /** Once the scheduler has returned, the pipeline never gets stuck before it is down. */
  lemma Progress(c: Config, s: State)
    requires c.Valid() && Inv(c, s) && s.schedulerDone && s.pc < DOWN
    ensures Enabled(c, s)
  {
    if |s.alert.busy| > 0 || s.alerts.q != [] {
      AlertStageRuns(c, s);
    } else if |s.failure.busy| > 0 || |s.alerting.sending| > 0 || |s.alerting.deferred| > 0 || s.failures.q != [] {
      FailureStageRuns(c, s);
    } else if |s.success.busy| > 0 || s.successes.q != [] {
      SuccessStageRuns(c, s);
    } else if s.router.Routing? || s.router.Closing? || s.results.q != [] {
      RouterRuns(c, s);
    } else if |s.http.checking| > 0 || |s.http.sending| > 0 || s.http.sent > 0 || s.http.released > 0 {
      HttpStageRuns(c, s);
    } else if ExecutorBusy(s) {
      ExecutorRuns(c, s);
    } else {
      ShutdownRuns(c, s);
    }
  }

  // ---- Termination ---------------------------------------------------------------------------

  function RouterRank(r: Router): nat {
    match r
    case Receiving => 2
    case Routing(_) => 9
    case Closing => 1
    case Closed => 0
  }

  function ExecLoad(x: Exec): nat {
    16 * |x.loading| + 15 * |x.waiting| + 14 * |x.holding| + 13 * |x.counted|
  }

  function HttpLoad(h: Http): nat {
    12 * |h.checking| + 11 * |h.sending| + 2 * h.sent + h.released
  }

  function FailureLoad(p: Pool, a: Alerting): nat {
    5 * |p.busy| + 4 * |a.sending| + |a.deferred|
  }

  function QueueLoad(s: State): nat {
    17 * |s.jobs.q| + 8 * |s.results.q| + 2 * |s.successes.q| + 6 * |s.failures.q| + 2 * |s.alerts.q|
  }

  function Remaining(s: State): nat {
    s.workerWg + s.resultWg + s.alertWg + (if s.pc < DOWN then DOWN - s.pc else 0) + (if s.schedulerDone then 0 else 1)
  }

  /** Every job weighs what is still to be done for it, the alert it may cause included. */
  function Measure(s: State): nat {
    QueueLoad(s) + ExecLoad(s.exec) + HttpLoad(s.http) + RouterRank(s.router)
    + |s.success.busy| + FailureLoad(s.failure, s.alerting) + |s.alert.busy| + Remaining(s)
  }

  lemma ExecutorFalls(c: Config, s: State, st: Step)
    requires Can(c, s, st) && OfExecutor(st) && (st.WorkerExits? ==> s.workerWg > 0)
    ensures Measure(DoExecutor(s, st)) < Measure(s)
  {
    match st
    case Loaded(j) => LoadedFalls(c, s, j);
    case Acquire(j) => ExecLoadFalls(s.exec, j);
    case Count(j) => ExecLoadFalls(s.exec, j);
    case Spawn(j) => OneLess(s.exec.counted, j); OneMore(s.http.checking, j);
    case Receive => OneMore(s.exec.loading, s.jobs.q[0]);
    case _ =>
  }

  lemma ExecLoadFalls(x: Exec, j: Job)
    ensures j in x.waiting ==>
              ExecLoad(x.(waiting := x.waiting - One(j), holding := x.holding + One(j))) == ExecLoad(x) - 1
    ensures j in x.holding ==>
              ExecLoad(x.(holding := x.holding - One(j), counted := x.counted + One(j))) == ExecLoad(x) - 1
  {
  }

  lemma LoadedFalls(c: Config, s: State, j: Job)
    requires Can(c, s, Loaded(j))
    ensures Measure(DoExecutor(s, Loaded(j))) < Measure(s)
  {
    OneLess(s.exec.loading, j);
    if !j.fate.Gone? && !j.fate.LoadError? { OneMore(s.exec.waiting, j); }
  }

  lemma HttpFalls(c: Config, s: State, st: Step)
    requires Can(c, s, st) && OfHttp(st)
    ensures Measure(DoHttp(s, st)) < Measure(s)
  {
    match st
    case Checked(j) => HttpLoadFalls(s.http, j);
    case SendResult(j) => HttpLoadFalls(s.http, j);
    case _ =>
  }

  lemma HttpLoadFalls(h: Http, j: Job)
    ensures j in h.checking ==>
              HttpLoad(h.(checking := h.checking - One(j), sending := h.sending + One(j))) == HttpLoad(h) - 1
    ensures j in h.sending ==> HttpLoad(h.(sending := h.sending - One(j), sent := h.sent + 1)) == HttpLoad(h) - 9
  {
  }

  lemma RouterFalls(c: Config, s: State, st: Step)
    requires Can(c, s, st) && OfRouter(st)
    ensures Measure(DoRouter(s, st)) < Measure(s)
  {
  }

  lemma SuccessFalls(c: Config, s: State, st: Step)
    requires Can(c, s, st) && OfSuccess(st) && (st.SuccessExits? ==> s.resultWg > 0)
    ensures Measure(DoSuccess(s, st)) < Measure(s)
  {
    match st
    case SuccessReceives => OneMore(s.success.busy, s.successes.q[0]);
    case SuccessHandled(j) => OneLess(s.success.busy, j);
    case _ =>
  }

  lemma FailureFalls(c: Config, s: State, st: Step)
    requires Can(c, s, st) && OfFailure(st) && (st.FailureExits? ==> s.resultWg > 0)
    ensures Measure(DoFailure(s, st)) < Measure(s)
  {
    match st
    case FailureReceives => OneMore(s.failure.busy, s.failures.q[0]);
    case FailureDecided(j) => DecidedFalls(c, s, j);
    case SendAlert(j) => SendAlertFalls(c, s, j);
    case FailureHandled(j) => OneLess(s.alerting.deferred, j);
    case _ =>
  }

  lemma SendAlertFalls(c: Config, s: State, j: Job)
    requires Can(c, s, SendAlert(j))
    ensures Measure(DoFailure(s, SendAlert(j))) < Measure(s)
  {
    OneLess(s.alerting.sending, j);
    OneMore(s.alerting.deferred, j);
  }

  lemma DecidedFalls(c: Config, s: State, j: Job)
    requires Can(c, s, FailureDecided(j))
    ensures Measure(DoFailure(s, FailureDecided(j))) < Measure(s)
  {
    if j.fate.Down? && j.fate.alert { DecidedAlertFalls(c, s, j); } else { DecidedQuietFalls(c, s, j); }
  }

  lemma DecidedAlertFalls(c: Config, s: State, j: Job)
    requires Can(c, s, FailureDecided(j)) && j.fate == Down(true)
    ensures Measure(DoFailure(s, FailureDecided(j))) < Measure(s)
  {
    OneLess(s.failure.busy, j);
    OneMore(s.alerting.sending, j);
    var s' := DoFailure(s, FailureDecided(j));
    assert FailureLoad(s'.failure, s'.alerting) < FailureLoad(s.failure, s.alerting);
  }

  lemma DecidedQuietFalls(c: Config, s: State, j: Job)
    requires Can(c, s, FailureDecided(j)) && j.fate != Down(true)
    ensures Measure(DoFailure(s, FailureDecided(j))) < Measure(s)
  {
    OneLess(s.failure.busy, j);
  }

  lemma AlertFalls(c: Config, s: State, st: Step)
    requires Can(c, s, st) && OfAlert(st) && (st.AlertExits? ==> s.alertWg > 0)
    ensures Measure(DoAlert(s, st)) < Measure(s)
  {
    match st
    case AlertReceives => OneMore(s.alert.busy, s.alerts.q[0]);
    case AlertHandled(j) => OneLess(s.alert.busy, j);
    case _ =>
  }

  /** Every step but a new submission lowers the measure. */
  lemma MeasureFalls(c: Config, s: State, st: Step)
    requires Inv(c, s) && Can(c, s, st) && !st.Submit?
    ensures Measure(Do(c, s, st)) < Measure(s)
  {
    if OfExecutor(st) {
      ExecutorFalls(c, s, st);
    } else if OfHttp(st) {
      HttpFalls(c, s, st);
    } else if OfRouter(st) {
      RouterFalls(c, s, st);
    } else if OfSuccess(st) {
      SuccessFalls(c, s, st);
    } else if OfFailure(st) {
      FailureFalls(c, s, st);
    } else if OfAlert(st) {
      AlertFalls(c, s, st);
    } else {
      assert Remaining(DoShutdown(s, st)) < Remaining(s);
    }
  }
}
