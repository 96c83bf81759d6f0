/**
 The bridge between code and protocol: the scripts are the protocol's fetch and reclaim, and the
 commands a handler issues, run as protocol steps of the process that holds the job, are an
 enabled path, have the effect the handler states on both sorted sets, and end the process.
*/
module HandlerPaths {
  import opened SortedSet
  import opened RedisStore
  import opened Executor
  import Incidents
  import Dispatch

  predicate Shape(cmds: seq<Incidents.Cmd>) {
    || cmds == [Incidents.Ack]
    || (|cmds| == 2 && cmds[0].Ack? && cmds[1].Schedule?)
    || (|cmds| == 2 && cmds[0].Schedule? && cmds[1].Ack?)
  }

  /** Every path of both handlers acks once and calls Schedule at most once. It skips the
      Schedule exactly on a terminal failure, and schedules before its ack exactly when a retry
      is left or the retry counter could not be read. */
  lemma HandlerShapes(s: Incidents.Mon, r: HTTPResult, e: Incidents.Env, now: int)
    requires Incidents.ValidEnv(e)
    ensures var cmds := Incidents.OnFailure(s, r, e, now).cmds;
            && Shape(cmds)
            && (|cmds| == 1 <==> IsTerminal(r))
            && (cmds[0].Schedule? <==>
                  !IsTerminal(r) && r.retryable &&
                  var (_, reply) := Incidents.IncrementRetry(s.retry, e.retryCalls, 2);
                  reply.None? || reply.value <= 2)
    ensures var cmds := Incidents.OnSuccess(s, r, e, now).cmds;
            Shape(cmds) && |cmds| == 2 && cmds[0].Ack? && cmds[1].delay == 1000 * r.intervalSec
  {
  }

  /** Checks never carry their monitor's interval, so a handler schedules five seconds ahead
      exactly when a retry is left, and at once in every other case. */
  lemma RescheduleDelays(t: Target, reply: Reply, s: Incidents.Mon, e: Incidents.Env, now: int)
    requires Incidents.ValidEnv(e)
    ensures forall d: nat | Incidents.Schedule(d) in Incidents.OnFailure(s, Check(t, reply), e, now).cmds ::
              d == if Incidents.RetryLeft(s, Check(t, reply), e) then 5000 else 0
    ensures forall d: nat | Incidents.Schedule(d) in Incidents.OnSuccess(s, Check(t, reply), e, now).cmds :: d == 0
  {
    ResultShapes(t, reply);
  }

  /** So the monitor is due at once after a success, and after a failure that is not terminal
      unless a retry is left; then it is due from five seconds later on, and not before. */
  lemma RescheduledIsDue(t: Target, reply: Reply, s: Incidents.Mon, e: Incidents.Env, z: ZSet, now: int, at: int)
    requires Incidents.ValidEnv(e) && Incidents.Added(e)
    ensures var r := Check(t, reply);
            !IsTerminal(r) ==>
              (r.id in Due(Incidents.Scheduled(z, r.id, Incidents.OnFailure(s, r, e, now).cmds, now, true), at)
               <==> at >= now + if Incidents.RetryLeft(s, r, e) then 5000 else 0)
    ensures var r := Check(t, reply);
            r.id in Due(Incidents.Scheduled(z, r.id, Incidents.OnSuccess(s, r, e, now).cmds, now, true), at)
            <==> at >= now
  {
    var r := Check(t, reply);
    ResultShapes(t, reply);
    Incidents.FailureScheduledAt(z, s, r, e, now, true);
    Incidents.PairScheduledAt(z, r.id, Incidents.OnSuccess(s, r, e, now).cmds, now, true);
  }

  function PathOf(cmds: seq<Incidents.Cmd>): Dispatch.Phase
    requires Shape(cmds)
  {
    if |cmds| == 1 then Dispatch.AckStop else if cmds[0].Ack? then Dispatch.AckFirst else Dispatch.SchedFirst
  }

  ghost function StepOf(p: nat, cmd: Incidents.Cmd, e: Incidents.Env): Dispatch.Step {
    match cmd
    case Ack => Dispatch.Ack(p, e.ack)
    case Schedule(delay) => Dispatch.Sched(p, delay, Incidents.Added(e))
  }

  /** The effect of one command of the process `p` on the two sets and on itself. */
  ghost predicate Effect(s: Dispatch.Sys, s': Dispatch.Sys, p: nat, cmd: Incidents.Cmd, e: Incidents.Env)
    requires p in s.procs
  {
    var m := s.procs[p].mon;
    && s'.now == s.now
    && s'.schedule == Incidents.Scheduled(s.schedule, m, [cmd], s.now, Incidents.Added(e))
    && s'.inflight == (if cmd.Ack? && e.ack then s.inflight - {m} else s.inflight)
    && s'.procs.Keys - {p} == s.procs.Keys - {p}
    && (p in s'.procs ==> s'.procs[p].mon == m)
    && (p in s'.procs <==> s.procs[p].phase.AckFirst? || s.procs[p].phase.SchedFirst?)
    && (s.procs[p].phase.AckFirst? ==> s'.procs[p].phase.Resched?)
    && (s.procs[p].phase.SchedFirst? ==> s'.procs[p].phase.LateAck?)
  }

  lemma AckEffect(s: Dispatch.Sys, p: nat, e: Incidents.Env)
    requires Dispatch.Can(s, Dispatch.Ack(p, e.ack))
    ensures Effect(s, Dispatch.DoAck(s, p, e.ack), p, Incidents.Ack, e)
  {
    Incidents.ScheduledOne(s.schedule, s.procs[p].mon, Incidents.Ack, s.now, Incidents.Added(e));
  }

  lemma SchedEffect(s: Dispatch.Sys, p: nat, delay: nat, e: Incidents.Env)
    requires Dispatch.Can(s, Dispatch.Sched(p, delay, Incidents.Added(e)))
    ensures Effect(s, Dispatch.DoSched(s, p, delay, Incidents.Added(e)), p, Incidents.Schedule(delay), e)
  {
    Incidents.ScheduledOne(s.schedule, s.procs[p].mon, Incidents.Schedule(delay), s.now, Incidents.Added(e));
  }

  lemma CommandEffect(c: Dispatch.Config, s: Dispatch.Sys, p: nat, cmd: Incidents.Cmd, e: Incidents.Env)
    requires p in s.procs && Dispatch.Can(s, StepOf(p, cmd, e))
    ensures Effect(s, Dispatch.Do(c, s, StepOf(p, cmd, e)), p, cmd, e)
  {
    match cmd
    case Ack => AckEffect(s, p, e);
    case Schedule(delay) => SchedEffect(s, p, delay, e);
  }

  /** A handler that stops the monitor: decide, ack. */
  lemma StopPath(c: Dispatch.Config, s: Dispatch.Sys, p: nat, e: Incidents.Env)
    returns (s1: Dispatch.Sys, s2: Dispatch.Sys)
    requires p in s.procs && s.procs[p].phase.Held?
    ensures Dispatch.IsRun(c, [s, s1, s2], [Dispatch.Decide(p, Dispatch.AckStop), StepOf(p, Incidents.Ack, e)])
    ensures var m := s.procs[p].mon;
            && s2.schedule == s.schedule && s2.inflight == (if e.ack then s.inflight - {m} else s.inflight)
            && s2.procs.Keys == s.procs.Keys - {p}
  {
    s1 := Dispatch.Do(c, s, Dispatch.Decide(p, Dispatch.AckStop));
    s2 := Dispatch.Do(c, s1, StepOf(p, Incidents.Ack, e));
  }

  /** A handler that reschedules, in either order, once it has decided its path. */
  lemma ReschedulePath(c: Dispatch.Config, s: Dispatch.Sys, p: nat, cmds: seq<Incidents.Cmd>, e: Incidents.Env)
    returns (s1: Dispatch.Sys, s2: Dispatch.Sys)
    requires Shape(cmds) && |cmds| == 2 && p in s.procs && s.procs[p].phase == PathOf(cmds)
    ensures Dispatch.Can(s, StepOf(p, cmds[0], e)) && s1 == Dispatch.Do(c, s, StepOf(p, cmds[0], e))
    ensures Dispatch.Can(s1, StepOf(p, cmds[1], e)) && s2 == Dispatch.Do(c, s1, StepOf(p, cmds[1], e))
    ensures s2.schedule == Incidents.Scheduled(s.schedule, s.procs[p].mon, cmds, s.now, Incidents.Added(e))
    ensures s2.inflight == if e.ack then s.inflight - {s.procs[p].mon} else s.inflight
    ensures s2.procs.Keys == s.procs.Keys - {p}
  {
    var m := s.procs[p].mon;
    CommandEffect(c, s, p, cmds[0], e);
    s1 := Dispatch.Do(c, s, StepOf(p, cmds[0], e));
    assert Dispatch.Can(s1, StepOf(p, cmds[1], e));
    CommandEffect(c, s1, p, cmds[1], e);
    s2 := Dispatch.Do(c, s1, StepOf(p, cmds[1], e));
    ScheduledTwice(s.schedule, m, cmds, s.now, Incidents.Added(e));
  }

  /** The same from the held job on: decide, and both commands. */
  lemma HandlerPath(c: Dispatch.Config, s: Dispatch.Sys, p: nat, cmds: seq<Incidents.Cmd>, e: Incidents.Env)
    returns (s1: Dispatch.Sys, s2: Dispatch.Sys, s3: Dispatch.Sys)
    requires Shape(cmds) && |cmds| == 2 && p in s.procs && s.procs[p].phase.Held?
    ensures Dispatch.IsRun(c, [s, s1, s2, s3],
              [Dispatch.Decide(p, PathOf(cmds)), StepOf(p, cmds[0], e), StepOf(p, cmds[1], e)])
    ensures s3.schedule == if !Incidents.Added(e) then s.schedule
              else s.schedule[s.procs[p].mon := s.now + if cmds[0].Ack? then cmds[1].delay else cmds[0].delay]
    ensures s3.inflight == if e.ack then s.inflight - {s.procs[p].mon} else s.inflight
    ensures s3.procs.Keys == s.procs.Keys - {p}
  {
    s1 := Dispatch.Move(s, p, PathOf(cmds));
    assert Dispatch.Can(s, Dispatch.Decide(p, PathOf(cmds)));
    assert s1 == Dispatch.Do(c, s, Dispatch.Decide(p, PathOf(cmds)));
    s2, s3 := ReschedulePath(c, s1, p, cmds, e);
    Incidents.PairScheduledAt(s.schedule, s.procs[p].mon, cmds, s.now, Incidents.Added(e));
  }

  lemma ScheduledTwice(z: ZSet, m: Id, cmds: seq<Incidents.Cmd>, now: int, ok: bool)
    requires |cmds| == 2
    ensures Incidents.Scheduled(z, m, cmds, now, ok)
         == Incidents.Scheduled(Incidents.Scheduled(z, m, [cmds[0]], now, ok), m, [cmds[1]], now, ok)
  {
    assert cmds == [cmds[0]] + [cmds[1]];
    Incidents.ScheduledAppend(z, m, [cmds[0]], [cmds[1]], now, ok);
  }

  /** Both scripts can run at any time. */
  lemma ScriptsAreSteps(c: Dispatch.Config, s: Dispatch.Sys)
    ensures Dispatch.Leads(c, s, [Dispatch.Fetch], Dispatch.DoFetch(c, s))
    ensures Dispatch.Leads(c, s, [Dispatch.Reclaim], Dispatch.DoReclaim(c, s))
  {
    Dispatch.LeadsOne(c, s, Dispatch.Fetch);
    Dispatch.LeadsOne(c, s, Dispatch.Reclaim);
  }

  /** The contract of the fetch-and-move script is the protocol's fetch step ... */
  lemma FetchScriptRefines(c: Dispatch.Config, s: Dispatch.Sys, schedule: ZSet, inflight: ZSet)
    ensures var items := Members(Range(s.schedule, s.now, c.batch));
            schedule == s.schedule - items && IsPut(s.inflight, inflight, items, s.now + c.visibility) <==>
            schedule == Dispatch.DoFetch(c, s).schedule && inflight == Dispatch.DoFetch(c, s).inflight
  {
    IsPutMeansPut(s.inflight, inflight, Members(Range(s.schedule, s.now, c.batch)), s.now + c.visibility);
  }

  /** ... and that of the reclaim script its reclaim step. */
  lemma ReclaimScriptRefines(c: Dispatch.Config, s: Dispatch.Sys, schedule: ZSet, inflight: ZSet)
    ensures var items := Members(Range(s.inflight, s.now, c.limit));
            inflight == Taken(s.inflight, s.now, c.limit) && IsPut(s.schedule, schedule, items, s.now) <==>
            inflight == Dispatch.DoReclaim(c, s).inflight && schedule == Dispatch.DoReclaim(c, s).schedule
  {
    IsPutMeansPut(s.schedule, schedule, Members(Range(s.inflight, s.now, c.limit)), s.now);
  }
}
