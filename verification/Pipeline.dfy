/**
 The goroutine pipeline: scheduler, executor workers, HTTP goroutines under a semaphore, the
 result router, success and failure workers, alert workers, and the shutdown sequence that
 closes the channels in order and waits on the WaitGroups.

 Goroutines of one pool run the same code, so a pool is counted: how many are idle, which jobs
 the busy ones hold, how many have exited. A job carries its fate, the outcome of its load,
 its check and its handling; nothing is assumed about fates, so every outcome is covered.
 Sends on a closed channel, double closes and negative WaitGroups set `panicked`.
*/
module Pipeline {

  datatype Fate =
    | Gone                    // not found, or disabled: dropped
    | LoadError               // rescheduled by the executor
    | Up                      // the check succeeds
    | Down(alert: bool)       // the check fails, and its handler may alert

  datatype Job = Job(id: nat, fate: Fate)
  type Jobs = multiset<Job>

  datatype Config = Config(
    jobCap: nat, resultCap: nat, successCap: nat, failureCap: nat, alertCap: nat, semCap: nat,
    executors: nat, successWorkers: nat, failureWorkers: nat, alertWorkers: nat)
  {
    predicate Valid() {
      && jobCap > 0 && resultCap > 0 && successCap > 0 && failureCap > 0 && alertCap > 0 && semCap > 0
      && executors > 0 && successWorkers > 0 && failureWorkers > 0 && alertWorkers > 0
    }
  }

  datatype Chan = Chan(q: seq<Job>, closed: bool)

  /** Executor workers: idle at the channel, loading the monitor, waiting for the semaphore,
      holding a slot, counted into httpWg but not yet spawned, exited. */
  datatype Exec = Exec(idle: nat, loading: Jobs, waiting: Jobs, holding: Jobs, counted: Jobs, exited: nat)

  /** HTTP goroutines: checking, sending the result, sent but holding the slot, slot released. */
  datatype Http = Http(checking: Jobs, sending: Jobs, sent: nat, released: nat)

  datatype Router = Receiving | Routing(job: Job) | Closing | Closed

  /** A pool that handles one job at a time. */
  datatype Pool = Pool(idle: nat, busy: Jobs, exited: nat)

  /** Failure workers past the decision: about to send an alert, and in the deferred block after it. */
  datatype Alerting = Alerting(sending: Jobs, deferred: Jobs)

  datatype Done = Done(dropped: Jobs, requeued: Jobs, up: Jobs, downQuiet: Jobs, downAlerted: Jobs, alerts: Jobs)

  datatype State = State(
    schedulerDone: bool, submitted: Jobs,
    jobs: Chan, exec: Exec, workerWg: nat, sem: nat, http: Http, httpWg: nat,
    results: Chan, router: Router,
    successes: Chan, success: Pool, failures: Chan, failure: Pool, alerting: Alerting, resultWg: nat,
    alerts: Chan, alert: Pool, alertWg: nat,
    pc: nat,
    done: Done, panicked: bool)

  // Where Container.Shutdown stands.
  const RUNNING := 0
  const JOBS_CLOSED := 1       // waits for the executor workers
  const WORKERS_DONE := 2      // waits for the HTTP goroutines
  const STOPPED := 3           // Executor.Stop has returned
  const RESULTS_CLOSED := 4    // waits for the result workers
  const RESULTS_DONE := 5
  const ALERTS_CLOSED := 6     // waits for the alert workers
  const DOWN := 7

  const NOBODY: Jobs := multiset{}
  const OPEN := Chan([], false)

  function Init(c: Config): State {
    State(false, NOBODY,
          OPEN, Exec(c.executors, NOBODY, NOBODY, NOBODY, NOBODY, 0), c.executors, 0, Http(NOBODY, NOBODY, 0, 0), 0,
          OPEN, Receiving,
          OPEN, Pool(c.successWorkers, NOBODY, 0), OPEN, Pool(c.failureWorkers, NOBODY, 0), Alerting(NOBODY, NOBODY),
          c.successWorkers + c.failureWorkers,
          OPEN, Pool(c.alertWorkers, NOBODY, 0), c.alertWorkers,
          RUNNING,
          Done(NOBODY, NOBODY, NOBODY, NOBODY, NOBODY, NOBODY), false)
  }

  datatype Step =
    | Submit(j: Job) | SchedulerReturns
    | Receive | Loaded(j: Job) | Acquire(j: Job) | Count(j: Job) | Spawn(j: Job) | WorkerExits
    | Checked(j: Job) | SendResult(j: Job) | Release | HttpDone
    | RouterReceives | Route | RouterClosesFailures | RouterClosesSuccesses
    | SuccessReceives | SuccessHandled(j: Job) | SuccessExits
    | FailureReceives | FailureDecided(j: Job) | SendAlert(j: Job) | FailureHandled(j: Job) | FailureExits
    | AlertReceives | AlertHandled(j: Job) | AlertExits
    | CloseJobs | WorkersWaited | HttpWaited | CloseResults | ResultsWaited | CloseAlerts | AlertsWaited

  // ---- Helpers ----------------------------------------------------------------------------

  predicate Room(ch: Chan, cap: nat) { ch.closed || |ch.q| < cap }
  predicate Drained(ch: Chan) { ch.closed && ch.q == [] }
  function One(j: Job): Jobs { multiset{j} }

  function Push(ch: Chan, j: Job): Chan {
    if ch.closed then ch else ch.(q := ch.q + [j])
  }

  function Pop(ch: Chan): Chan
    requires ch.q != []
  {
    ch.(q := ch.q[1..])
  }

  function Take(p: Pool, j: Job): Pool
    requires p.idle > 0
  {
    p.(idle := p.idle - 1, busy := p.busy + One(j))
  }

  function Finish(p: Pool, j: Job): Pool {
    p.(idle := p.idle + 1, busy := p.busy - One(j))
  }

  function Quit(p: Pool): Pool
    requires p.idle > 0
  {
    p.(idle := p.idle - 1, exited := p.exited + 1)
  }

  /** A WaitGroup's counter after Done; below zero it panics, which the steps record. */
  function Decrement(n: nat): nat { if n == 0 then 0 else n - 1 }

  // ---- Steps ------------------------------------------------------------------------------

  predicate Can(c: Config, s: State, st: Step) {
    match st
    case Submit(j) => !s.schedulerDone && Room(s.jobs, c.jobCap)
    case SchedulerReturns => !s.schedulerDone
    case Receive => s.exec.idle > 0 && s.jobs.q != []
    case Loaded(j) => j in s.exec.loading
    case Acquire(j) => j in s.exec.waiting && s.sem < c.semCap
    case Count(j) => j in s.exec.holding
    case Spawn(j) => j in s.exec.counted
    case WorkerExits => s.exec.idle > 0 && Drained(s.jobs)
    case Checked(j) => j in s.http.checking
    case SendResult(j) => j in s.http.sending && Room(s.results, c.resultCap)
    case Release => s.http.sent > 0 && s.sem > 0
    case HttpDone => s.http.released > 0
    case RouterReceives => s.router.Receiving? && s.results.q != []
    case Route => s.router.Routing? &&
      if s.router.job.fate.Up? then Room(s.successes, c.successCap) else Room(s.failures, c.failureCap)
    case RouterClosesFailures => s.router.Receiving? && Drained(s.results)
    case RouterClosesSuccesses => s.router.Closing?
    case SuccessReceives => s.success.idle > 0 && s.successes.q != []
    case SuccessHandled(j) => j in s.success.busy
    case SuccessExits => s.success.idle > 0 && Drained(s.successes)
    case FailureReceives => s.failure.idle > 0 && s.failures.q != []
    case FailureDecided(j) => j in s.failure.busy
    case SendAlert(j) => j in s.alerting.sending && Room(s.alerts, c.alertCap)
    case FailureHandled(j) => j in s.alerting.deferred
    case FailureExits => s.failure.idle > 0 && Drained(s.failures)
    case AlertReceives => s.alert.idle > 0 && s.alerts.q != []
    case AlertHandled(j) => j in s.alert.busy
    case AlertExits => s.alert.idle > 0 && Drained(s.alerts)
    case CloseJobs => s.pc == RUNNING && s.schedulerDone   // Shutdown is called after the scheduler returned
    case WorkersWaited => s.pc == JOBS_CLOSED && s.workerWg == 0
    case HttpWaited => s.pc == WORKERS_DONE && s.httpWg == 0
    case CloseResults => s.pc == STOPPED
    case ResultsWaited => s.pc == RESULTS_CLOSED && s.resultWg == 0
    case CloseAlerts => s.pc == RESULTS_DONE
    case AlertsWaited => s.pc == ALERTS_CLOSED && s.alertWg == 0
  }

  function DoExecutor(s: State, st: Step): State
    requires st.Receive? ==> s.exec.idle > 0 && s.jobs.q != []
    requires st.WorkerExits? ==> s.exec.idle > 0
  {
    var x := s.exec;
    match st
    case Receive => s.(jobs := Pop(s.jobs), exec := x.(idle := x.idle - 1, loading := x.loading + One(s.jobs.q[0])))
    case Loaded(j) =>
      var y := x.(loading := x.loading - One(j));
      if j.fate.Gone? then s.(exec := y.(idle := x.idle + 1), done := s.done.(dropped := s.done.dropped + One(j)))
      else if j.fate.LoadError? then
        s.(exec := y.(idle := x.idle + 1), done := s.done.(requeued := s.done.requeued + One(j)))
      else s.(exec := y.(waiting := x.waiting + One(j)))
    case Acquire(j) => s.(exec := x.(waiting := x.waiting - One(j), holding := x.holding + One(j)), sem := s.sem + 1)
    case Count(j) =>
      s.(exec := x.(holding := x.holding - One(j), counted := x.counted + One(j)), httpWg := s.httpWg + 1)
    case Spawn(j) =>
      s.(exec := x.(counted := x.counted - One(j), idle := x.idle + 1),
         http := s.http.(checking := s.http.checking + One(j)))
    case WorkerExits =>
      s.(exec := x.(idle := x.idle - 1, exited := x.exited + 1), workerWg := Decrement(s.workerWg),
         panicked := s.panicked || s.workerWg == 0)
    case _ => s
  }

  function DoHttp(s: State, st: Step): State
    requires st.Release? ==> s.http.sent > 0 && s.sem > 0
    requires st.HttpDone? ==> s.http.released > 0
  {
    var h := s.http;
    match st
    case Checked(j) => s.(http := h.(checking := h.checking - One(j), sending := h.sending + One(j)))
    case SendResult(j) =>
      s.(http := h.(sending := h.sending - One(j), sent := h.sent + 1), results := Push(s.results, j),
         panicked := s.panicked || s.results.closed)
    case Release => s.(http := h.(sent := h.sent - 1, released := h.released + 1), sem := s.sem - 1)
    case HttpDone =>
      s.(http := h.(released := h.released - 1), httpWg := Decrement(s.httpWg), panicked := s.panicked || s.httpWg == 0)
    case _ => s
  }

  function DoRouter(s: State, st: Step): State
    requires st.RouterReceives? ==> s.results.q != []
    requires st.Route? ==> s.router.Routing?
  {
    match st
    case RouterReceives => s.(router := Routing(s.results.q[0]), results := Pop(s.results))
    case Route =>
      var j := s.router.job;
      if j.fate.Up? then
        s.(router := Receiving, successes := Push(s.successes, j), panicked := s.panicked || s.successes.closed)
      else
        s.(router := Receiving, failures := Push(s.failures, j), panicked := s.panicked || s.failures.closed)
    case RouterClosesFailures =>
      s.(router := Closing, failures := s.failures.(closed := true), panicked := s.panicked || s.failures.closed)
    case RouterClosesSuccesses =>
      s.(router := Closed, successes := s.successes.(closed := true), panicked := s.panicked || s.successes.closed)
    case _ => s
  }

  function DoSuccess(s: State, st: Step): State
    requires st.SuccessReceives? ==> s.success.idle > 0 && s.successes.q != []
    requires st.SuccessExits? ==> s.success.idle > 0
  {
    match st
    case SuccessReceives => s.(success := Take(s.success, s.successes.q[0]), successes := Pop(s.successes))
    case SuccessHandled(j) => s.(success := Finish(s.success, j), done := s.done.(up := s.done.up + One(j)))
    case SuccessExits =>
      s.(success := Quit(s.success), resultWg := Decrement(s.resultWg), panicked := s.panicked || s.resultWg == 0)
    case _ => s
  }

  function DoFailure(s: State, st: Step): State
    requires st.FailureReceives? ==> s.failure.idle > 0 && s.failures.q != []
    requires st.FailureExits? ==> s.failure.idle > 0
  {
    var a := s.alerting;
    match st
    case FailureReceives => s.(failure := Take(s.failure, s.failures.q[0]), failures := Pop(s.failures))
    case FailureDecided(j) =>
      if j.fate.Down? && j.fate.alert then
        s.(failure := s.failure.(busy := s.failure.busy - One(j)), alerting := a.(sending := a.sending + One(j)))
      else
        s.(failure := Finish(s.failure, j), done := s.done.(downQuiet := s.done.downQuiet + One(j)))
    case SendAlert(j) =>
      s.(alerting := Alerting(a.sending - One(j), a.deferred + One(j)), alerts := Push(s.alerts, j),
         panicked := s.panicked || s.alerts.closed)
    case FailureHandled(j) =>
      s.(failure := s.failure.(idle := s.failure.idle + 1), alerting := a.(deferred := a.deferred - One(j)),
         done := s.done.(downAlerted := s.done.downAlerted + One(j)))
    case FailureExits =>
      s.(failure := Quit(s.failure), resultWg := Decrement(s.resultWg), panicked := s.panicked || s.resultWg == 0)
    case _ => s
  }

  function DoAlert(s: State, st: Step): State
    requires st.AlertReceives? ==> s.alert.idle > 0 && s.alerts.q != []
    requires st.AlertExits? ==> s.alert.idle > 0
  {
    match st
    case AlertReceives => s.(alert := Take(s.alert, s.alerts.q[0]), alerts := Pop(s.alerts))
    case AlertHandled(j) => s.(alert := Finish(s.alert, j), done := s.done.(alerts := s.done.alerts + One(j)))
    case AlertExits =>
      s.(alert := Quit(s.alert), alertWg := Decrement(s.alertWg), panicked := s.panicked || s.alertWg == 0)
    case _ => s
  }

  function DoShutdown(s: State, st: Step): State {
    match st
    case CloseJobs => s.(jobs := s.jobs.(closed := true), pc := JOBS_CLOSED, panicked := s.panicked || s.jobs.closed)
    case WorkersWaited => s.(pc := WORKERS_DONE)
    case HttpWaited => s.(pc := STOPPED)
    case CloseResults =>
      s.(results := s.results.(closed := true), pc := RESULTS_CLOSED, panicked := s.panicked || s.results.closed)
    case ResultsWaited => s.(pc := RESULTS_DONE)
    case CloseAlerts =>
      s.(alerts := s.alerts.(closed := true), pc := ALERTS_CLOSED, panicked := s.panicked || s.alerts.closed)
    case AlertsWaited => s.(pc := DOWN)
    case Submit(j) =>
      s.(jobs := Push(s.jobs, j), submitted := s.submitted + One(j), panicked := s.panicked || s.jobs.closed)
    case SchedulerReturns => s.(schedulerDone := true)
    case _ => s
  }

  // Each step belongs to one stage; the other stages leave it alone.

  predicate OfExecutor(st: Step) {
    st.Receive? || st.Loaded? || st.Acquire? || st.Count? || st.Spawn? || st.WorkerExits?
  }

  predicate OfHttp(st: Step) { st.Checked? || st.SendResult? || st.Release? || st.HttpDone? }

  predicate OfRouter(st: Step) {
    st.RouterReceives? || st.Route? || st.RouterClosesFailures? || st.RouterClosesSuccesses?
  }

  predicate OfSuccess(st: Step) { st.SuccessReceives? || st.SuccessHandled? || st.SuccessExits? }

  predicate OfFailure(st: Step) {
    st.FailureReceives? || st.FailureDecided? || st.SendAlert? || st.FailureHandled? || st.FailureExits?
  }

  predicate OfAlert(st: Step) { st.AlertReceives? || st.AlertHandled? || st.AlertExits? }

  function Do(c: Config, s: State, st: Step): State
    requires Can(c, s, st)
  {
    if OfExecutor(st) then DoExecutor(s, st)
    else if OfHttp(st) then DoHttp(s, st)
    else if OfRouter(st) then DoRouter(s, st)
    else if OfSuccess(st) then DoSuccess(s, st)
    else if OfFailure(st) then DoFailure(s, st)
    else if OfAlert(st) then DoAlert(s, st)
    else DoShutdown(s, st)
  }
}
