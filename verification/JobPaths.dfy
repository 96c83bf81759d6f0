/**
 The other processes of the dispatch protocol: what the scheduler's select, the executor's load and
 the API calls send, run as protocol steps, is an enabled path from every state with the effect
 that the code has on both sets; and which steps release a monitor.
*/
module JobPaths {
  import opened SortedSet
  import opened RedisStore
  import opened Dispatch
  import opened MonitorService
  import Scheduler

  /** Backpressure in the scheduler and a load error in the executor: a holder schedules its job
      again, leaves the inflight entry and is done with it. */
  lemma HeldReschedules(c: Config, s: Sys, p: nat, delay: nat, ok: bool) returns (t: Sys)
    requires p in s.procs && s.procs[p].phase.Held?
    ensures IsRun(c, [s, t], [Sched(p, delay, ok)])
    ensures t.schedule == if ok then s.schedule[s.procs[p].mon := s.now + delay] else s.schedule
    ensures t.inflight == s.inflight && t.procs == s.procs - {p} && t.enabled == s.enabled
  {
    t := Do(c, s, Sched(p, delay, ok));
  }

  datatype Loaded = Forget | ScheduleAgain(delay: nat) | StartCheck

  /** What an executor worker does with the answer of LoadMonitor. */
  function AfterLoad(r: Result<Monitor>): Loaded {
    match r
    case Err(error) => if error.NotFound? then Forget else ScheduleAgain(5000)
    case Ok(row) => if row.enabled then StartCheck else Forget
  }

  /** The worker's step: none if the check starts, which it does exactly for an enabled monitor;
      a reschedule five seconds ahead if the load failed; a drop for a missing or disabled one. */
  lemma LoadIsAStep(c: Config, s: Sys, p: nat, r: Result<Monitor>, ok: bool) returns (t: Sys)
    requires p in s.procs && s.procs[p].phase.Held?
    ensures AfterLoad(r).StartCheck? <==> r.Ok? && r.value.enabled
    ensures AfterLoad(r).StartCheck? ==> t == s
    ensures AfterLoad(r).ScheduleAgain? <==> r.Err? && r.error != NotFound
    ensures AfterLoad(r).ScheduleAgain? ==>
              && IsRun(c, [s, t], [Sched(p, AfterLoad(r).delay, ok)]) && p !in t.procs && t.inflight == s.inflight
              && t.schedule == if ok then s.schedule[s.procs[p].mon := s.now + 5000] else s.schedule
    ensures AfterLoad(r).Forget? ==> IsRun(c, [s, t], [Drop(p)]) && t == s.(procs := s.procs - {p})
  {
    match AfterLoad(r)
    case StartCheck => t := s;
    case ScheduleAgain(delay) => t := HeldReschedules(c, s, p, delay, ok);
    case Forget => t := HeldDrops(c, s, p);
  }

  /** A missing or disabled monitor, or a done context: the holder forgets the job, without an ack. */
  lemma HeldDrops(c: Config, s: Sys, p: nat) returns (t: Sys)
    requires p in s.procs && s.procs[p].phase.Held?
    ensures IsRun(c, [s, t], [Drop(p)])
    ensures t == s.(procs := s.procs - {p})
  {
    t := Do(c, s, Drop(p));
  }

  /** What the scheduler's select does to the schedule is what the protocol's step does: nothing
      if the job is sent, a reschedule two to 2.2 seconds ahead if the channel is full. */
  lemma SelectIsAStep(c: Config, s: Sys, p: nat, schedule: ZSet, chan: seq<Id>, chan': seq<Id>, taken: seq<Id>,
                      f: Scheduler.Fate, t: Scheduler.Turn, cap: nat) returns (s': Sys)
    requires p in s.procs && s.procs[p].phase.Held? && t.now == s.now
    requires Scheduler.Selects(s.schedule, schedule, chan, chan', taken, s.procs[p].mon, f, t, cap)
    ensures s'.schedule == schedule && s'.inflight == s.inflight
    ensures f.Sent? ==> s' == s
    ensures f.Requeued? ==>
              2000 <= f.at - s.now < 2200 && IsRun(c, [s, s'], [Sched(p, f.at - s.now, true)]) && p !in s'.procs
    ensures f.GaveUp? ==> forall d :: IsRun(c, [s, s'], [Sched(p, d, false)]) && p !in s'.procs
    ensures f.Dropped? ==> IsRun(c, [s, s'], [Drop(p)]) && p !in s'.procs
  {
    match f
    case Sent => s' := s;
    case Requeued(at) => s' := HeldReschedules(c, s, p, at - s.now, true);
    case GaveUp => s' := HeldReschedules(c, s, p, 0, false);
    case Dropped => s' := HeldDrops(c, s, p);
  }

  /** CreateMonitor after its insert: the first Schedule. */
  lemma CreatePath(c: Config, s: Sys, m: Id, delay: nat, ok: bool) returns (t: Sys)
    requires m !in s.enabled && s.next !in s.procs
    ensures exists s1 :: IsRun(c, [s, s1, t], [Create(m), Sched(s.next, delay, ok)])
    ensures t.schedule == (if ok then s.schedule[m := s.now + delay] else s.schedule) && t.inflight == s.inflight
    ensures t.enabled == s.enabled[m := true] && t.procs == s.procs
  {
    var s1 := Do(c, s, Create(m));
    t := Do(c, s1, Sched(s.next, delay, ok));
    assert IsRun(c, [s, s1, t], [Create(m), Sched(s.next, delay, ok)]);
  }

  /** An enable that takes effect: read, write, Schedule. */
  lemma EnablePath(c: Config, s: Sys, m: Id, delay: nat, ok: bool) returns (t: Sys)
    requires m in s.enabled && !s.enabled[m] && s.next !in s.procs
    ensures exists s1, s2 :: IsRun(c, [s, s1, s2, t], [EnableRead(m), EnableWrite(s.next), Sched(s.next, delay, ok)])
    ensures t.schedule == (if ok then s.schedule[m := s.now + delay] else s.schedule) && t.inflight == s.inflight
    ensures t.enabled == s.enabled[m := true] && t.procs == s.procs
  {
    var s1 := Do(c, s, EnableRead(m));
    var s2 := Do(c, s1, EnableWrite(s.next));
    t := Do(c, s2, Sched(s.next, delay, ok));
    assert IsRun(c, [s, s1, s2, t], [EnableRead(m), EnableWrite(s.next), Sched(s.next, delay, ok)]);
  }

  /** A disable that takes effect: read, write, ZREM from the schedule; inflight is left alone. */
  lemma DisablePath(c: Config, s: Sys, m: Id, ok: bool) returns (t: Sys)
    requires m in s.enabled && s.enabled[m] && s.next !in s.procs
    ensures exists s1, s2 :: IsRun(c, [s, s1, s2, t], [DisableRead(m), DisableWrite(s.next), Unschedule(s.next, ok)])
    ensures t.schedule == (if ok then s.schedule - {m} else s.schedule) && t.inflight == s.inflight
    ensures t.enabled == s.enabled[m := false] && t.procs == s.procs
  {
    var s1 := Do(c, s, DisableRead(m));
    var s2 := Do(c, s1, DisableWrite(s.next));
    t := Do(c, s2, Unschedule(s.next, ok));
    assert IsRun(c, [s, s1, s2, t], [DisableRead(m), DisableWrite(s.next), Unschedule(s.next, ok)]);
  }

  /** A call whose row already says so takes no step. */
  lemma NothingToWrite(s: Sys, m: Id)
    requires m in s.enabled
    ensures s.enabled[m] ==> !Can(s, EnableRead(m))
    ensures !s.enabled[m] ==> !Can(s, DisableRead(m))
  {
  }

  /** The clock can move on by any amount at any time, and moves nothing else. */
  lemma TickPath(c: Config, s: Sys, t: nat) returns (s': Sys)
    ensures IsRun(c, [s, s'], [Tick(t)]) && s' == s.(now := s.now + t)
  {
    s' := Do(c, s, Tick(t));
  }

  /** Any processes can crash at any time; the two sets, the clock and the rows stay. */
  lemma CrashPath(c: Config, s: Sys, ps: set<nat>) returns (t: Sys)
    ensures IsRun(c, [s, t], [Crash(ps)])
    ensures t.schedule == s.schedule && t.inflight == s.inflight && t.now == s.now && t.enabled == s.enabled
    ensures t.procs == s.procs - ps
  {
    t := Do(c, s, Crash(ps));
  }

  /** A step newly releases `m` if and only if `m` is not scheduled and the step acks its terminal
      result, fails a Schedule of it outside the scheduler and the executor, or crashes in its window. */
  ghost predicate Releases(s: Sys, st: Step, m: Id) {
    m !in s.schedule &&
    match st
    case Ack(p, ok) => ok && p in s.procs && s.procs[p].mon == m && s.procs[p].phase.AckStop?
    case Sched(p, _, ok) => !ok && p in s.procs && s.procs[p].mon == m && !s.procs[p].phase.Held?
    case Crash(ps) => exists p :: p in ps && p in s.procs && s.procs[p].mon == m && s.procs[p].phase.Resched?
    case _ => false
  }

  lemma ReleasedExactly(c: Config, s: Sys, st: Step, m: Id)
    requires Can(s, st) && m !in s.released
    ensures m in Do(c, s, st).released <==> Releases(s, st, m)
  {
  }
}
