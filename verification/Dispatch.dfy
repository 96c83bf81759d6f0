/**
 The dispatch protocol: two sorted sets shared by any number of scheduler, reclaimer,
 executor, result-handler and API processes, one Redis command (or one database write) per
 step. A process owns at most one monitor. A process is `Live` while it is a token: a
 fetched job, or an API call, that has not yet rescheduled, dropped or finished.
*/
module Dispatch {
  import opened SortedSet
  import opened RedisStore

  /** Scheduler batch size, reclaimer limit and visibility timeout in milliseconds. */
  datatype Config = Config(batch: nat, limit: nat, visibility: nat) {
    predicate Valid() { batch > 0 && limit > 0 && visibility > 0 }
  }

  datatype Phase =
    | Held                  // fetched: in jobChan, the executor, the HTTP check or a result channel
    | AckFirst              // success and ordinary failure: next the ack, then the Schedule
    | Resched               // acked, or an API create/enable after its row write: next the Schedule
    | SchedFirst            // retry path: next the Schedule, then the ack
    | LateAck(clean: bool)  // retry path after its Schedule call; clean: not fetched since
    | AckStop               // terminal failure: next the ack, no Schedule
    | Enabling              // read the row as disabled: next the write
    | Disabling             // read the row as enabled: next the write
    | Unscheduling          // wrote enabled = false: next the ZREM

  datatype Origin = Fetched(deadline: int) | Api

  datatype Proc = Proc(mon: Id, phase: Phase, origin: Origin) {
    predicate Live() {
      phase.Held? || phase.AckFirst? || phase.Resched? || phase.SchedFirst? || phase.AckStop?
    }
  }

  /** Why an enabled monitor may be in neither set: since it was last in the schedule ... */
  datatype Reason =
    | Terminal         // ... a terminal result of it was acked
    | Abandoned        // ... a Schedule of it failed all its attempts, in a handler or an API call
    | CrashedInWindow  // ... a process crashed between its ack (or row write) and its Schedule

  /** The two sets, the clock, the processes, the rows and the release marks. */
  datatype Sys = Sys(
    schedule: ZSet, inflight: ZSet, now: int,
    procs: map<nat, Proc>, next: nat,
    enabled: map<Id, bool>,
    released: map<Id, Reason>)

  const INIT := Sys(map[], map[], 0, map[], 0, map[], map[])

  datatype Step =
    | Tick(t: nat)
    | Create(m: Id)
    | Fetch
    | Reclaim
    | Decide(p: nat, path: Phase)
    | Drop(p: nat)
    | Sched(p: nat, delay: nat, ok: bool)
    | Ack(p: nat, ok: bool)
    | EnableRead(m: Id)
    | EnableWrite(p: nat)
    | DisableRead(m: Id)
    | DisableWrite(p: nat)
    | Unschedule(p: nat, ok: bool)
    | Crash(ps: set<nat>)

  // ---- Helpers ----------------------------------------------------------------------

  ghost function Batch(c: Config, s: Sys): seq<Id> {
    Range(s.schedule, s.now, c.batch)
  }

  ghost function Expired(c: Config, s: Sys): seq<Id> {
    Range(s.inflight, s.now, c.limit)
  }

  /** A fetch that takes the monitor of a late ack spoils it. */
  function Spoil(p: Proc, batch: seq<Id>): Proc {
    if p.phase.LateAck? && p.mon in batch then p.(phase := LateAck(false)) else p
  }

  /** `p` names one of the `n` processes spawned from `next` on. */
  predicate Fresh(next: nat, n: nat, p: nat) {
    next <= p < next + n
  }

  /** One new holder for every fetched job, after the spoiled old processes. */
  ghost function AfterFetch(c: Config, s: Sys): map<nat, Proc> {
    var batch := Batch(c, s);
    (map p | p in s.procs :: Spoil(s.procs[p], batch)) + NewHolders(batch, s.next, s.now + c.visibility)
  }

  function NewHolders(batch: seq<Id>, next: nat, deadline: int): map<nat, Proc> {
    map p: nat | next <= p < next + |batch| && Fresh(next, |batch|, p) ::
      Proc(batch[p - next], Held, Fetched(deadline))
  }

  ghost function LiveSet(s: Sys, m: Id): set<nat> {
    set p | p in s.procs && s.procs[p].mon == m && s.procs[p].Live()
  }

  ghost predicate Window(s: Sys, m: Id) {
    exists p :: p in s.procs && s.procs[p].mon == m && s.procs[p].phase.Resched?
  }

  function Without(s: Sys, p: nat): Sys {
    s.(procs := s.procs - {p})
  }

  function Move(s: Sys, p: nat, phase: Phase): Sys
    requires p in s.procs
  {
    s.(procs := s.procs[p := s.procs[p].(phase := phase)])
  }

  function Spawn(s: Sys, p: Proc): Sys {
    s.(procs := s.procs[s.next := p], next := s.next + 1)
  }

  // ---- Steps ------------------------------------------------------------------------

  predicate Can(s: Sys, st: Step) {
    match st
    case Tick(_) => true
    case Create(m) => m !in s.enabled
    case Fetch => true
    case Reclaim => true
    case Decide(p, path) =>
      p in s.procs && s.procs[p].phase.Held? && (path.AckFirst? || path.SchedFirst? || path.AckStop?)
    case Drop(p) => p in s.procs && s.procs[p].phase.Held?
    case Sched(p, _, _) =>
      p in s.procs && (s.procs[p].phase.Held? || s.procs[p].phase.Resched? || s.procs[p].phase.SchedFirst?)
    case Ack(p, _) =>
      p in s.procs && (s.procs[p].phase.AckFirst? || s.procs[p].phase.AckStop? || s.procs[p].phase.LateAck?)
    case EnableRead(m) => m in s.enabled && !s.enabled[m]
    case EnableWrite(p) => p in s.procs && s.procs[p].phase.Enabling?
    case DisableRead(m) => m in s.enabled && s.enabled[m]
    case DisableWrite(p) => p in s.procs && s.procs[p].phase.Disabling?
    case Unschedule(p, _) => p in s.procs && s.procs[p].phase.Unscheduling?
    case Crash(ps) => true
  }

  ghost function DoFetch(c: Config, s: Sys): Sys {
    var batch := Batch(c, s);
    s.(schedule := Taken(s.schedule, s.now, c.batch),
       inflight := Put(s.inflight, Members(batch), s.now + c.visibility),
       procs := AfterFetch(c, s), next := s.next + |batch|)
  }

  ghost function DoReclaim(c: Config, s: Sys): Sys {
    var ids := Members(Expired(c, s));
    s.(inflight := Taken(s.inflight, s.now, c.limit),
       schedule := Put(s.schedule, ids, s.now),
       released := s.released - ids)
  }

  function DoSched(s: Sys, p: nat, delay: nat, ok: bool): Sys
    requires p in s.procs
  {
    var m := s.procs[p].mon;
    var s' := if s.procs[p].phase.SchedFirst? then Move(s, p, LateAck(true)) else Without(s, p);
    if ok then
      s'.(schedule := s.schedule[m := s.now + delay], released := s.released - {m})
    else if s.procs[p].phase.Held? || m in s.schedule then s'   // Held: the inflight entry remains
    else s'.(released := s.released[m := Abandoned])
  }

  function DoAck(s: Sys, p: nat, ok: bool): Sys
    requires p in s.procs
  {
    var m := s.procs[p].mon;
    var s' := s.(inflight := if ok then s.inflight - {m} else s.inflight);
    match s.procs[p].phase
    case AckFirst => Move(s', p, Resched)
    case AckStop =>
      Without(s', p).(released := if ok && m !in s.schedule then s.released[m := Terminal] else s.released)
    case _ => Without(s', p)
  }

  function DoUnschedule(s: Sys, p: nat, ok: bool): Sys
    requires p in s.procs
  {
    var m := s.procs[p].mon;
    Without(s, p).(schedule := if ok then s.schedule - {m} else s.schedule)
  }

  /** The unscheduled monitors that a crash of `ps` catches in a window. */
  ghost function Caught(s: Sys, ps: set<nat>): set<Id> {
    (set p | p in ps && p in s.procs && s.procs[p].phase.Resched? :: s.procs[p].mon) - s.schedule.Keys
  }

  ghost function DoCrash(s: Sys, ps: set<nat>): Sys {
    s.(procs := s.procs - ps, released := s.released + map m | m in Caught(s, ps) :: CrashedInWindow)
  }

  ghost function Do(c: Config, s: Sys, st: Step): Sys
    requires Can(s, st)
  {
    match st
    case Tick(t) => s.(now := s.now + t)
    case Create(m) => Spawn(s.(enabled := s.enabled[m := true]), Proc(m, Resched, Api))
    case Fetch => DoFetch(c, s)
    case Reclaim => DoReclaim(c, s)
    case Decide(p, path) => Move(s, p, path)
    case Drop(p) => Without(s, p)
    case Sched(p, delay, ok) => DoSched(s, p, delay, ok)
    case Ack(p, ok) => DoAck(s, p, ok)
    case EnableRead(m) => Spawn(s, Proc(m, Enabling, Api))
    case EnableWrite(p) =>
      Move(s, p, Resched).(enabled := s.enabled[s.procs[p].mon := true])
    case DisableRead(m) => Spawn(s, Proc(m, Disabling, Api))
    case DisableWrite(p) => Move(s, p, Unscheduling).(enabled := s.enabled[s.procs[p].mon := false])
    case Unschedule(p, ok) => DoUnschedule(s, p, ok)
    case Crash(ps) => DoCrash(s, ps)
  }

  /** A run: every state follows from the one before by one enabled step. */
  ghost predicate IsRun(c: Config, ss: seq<Sys>, sts: seq<Step>) {
    && |ss| == |sts| + 1
    && forall i | 0 <= i < |sts| :: Can(ss[i], sts[i]) && ss[i + 1] == Do(c, ss[i], sts[i])
  }

  /** The steps `sts` lead from `s` to `t`. */
  ghost predicate Leads(c: Config, s: Sys, sts: seq<Step>, t: Sys) {
    exists ss :: IsRun(c, ss, sts) && ss[0] == s && ss[|sts|] == t
  }

  lemma LeadsOn(c: Config, s: Sys, sts: seq<Step>, t: Sys, more: seq<Step>, u: Sys)
    requires Leads(c, s, sts, t) && Leads(c, t, more, u)
    ensures Leads(c, s, sts + more, u)
  {
    var a :| IsRun(c, a, sts) && a[0] == s && a[|sts|] == t;
    var b :| IsRun(c, b, more) && b[0] == t && b[|more|] == u;
    var all, steps := a + b[1..], sts + more;
    forall i | 0 <= i < |steps| ensures Can(all[i], steps[i]) && all[i + 1] == Do(c, all[i], steps[i]) {
      if i >= |sts| { assert all[i] == b[i - |sts|] && steps[i] == more[i - |sts|]; }
    }
    assert IsRun(c, all, steps);
  }

  lemma LeadsOne(c: Config, s: Sys, st: Step)
    requires Can(s, st)
    ensures Leads(c, s, [st], Do(c, s, st))
  {
    assert IsRun(c, [s, Do(c, s, st)], [st]);
  }

  lemma FetchedInSchedule(c: Config, s: Sys)
    ensures forall m | m in Batch(c, s) :: m in s.schedule && s.schedule[m] <= s.now
  {
    RangeOfMeetsSpec(s.schedule, Due(s.schedule, s.now), c.batch);
  }

  lemma ExpiredInInflight(c: Config, s: Sys)
    ensures forall m | m in Expired(c, s) :: m in s.inflight && s.inflight[m] <= s.now
  {
    RangeOfMeetsSpec(s.inflight, Due(s.inflight, s.now), c.limit);
  }

  lemma OneHolder(m: Id, next: nat, deadline: int)
    ensures NewHolders([m], next, deadline) == map[next := Proc(m, Held, Fetched(deadline))]
  {
  }

  /** A fetch from a schedule with one due entry. */
  lemma FetchOne(c: Config, s: Sys, m: Id)
    requires c.Valid() && s.schedule.Keys == {m} && s.schedule[m] <= s.now
    requires forall p | p in s.procs :: p < s.next
    ensures var s' := DoFetch(c, s);
            && s'.schedule.Keys == {} && s'.inflight.Keys == s.inflight.Keys + {m}
            && s'.inflight[m] == s.now + c.visibility
            && s'.next == s.next + 1 && s'.procs.Keys == s.procs.Keys + {s.next}
            && s'.procs[s.next] == Proc(m, Held, Fetched(s.now + c.visibility))
            && forall p | p in s.procs :: s'.procs[p] == Spoil(s.procs[p], [m])
  {
    assert s.schedule == map[m := s.schedule[m]];
    SingletonRange(m, s.schedule[m], s.now, c.batch);
    assert Members([m]) == {m};
    PutKeys(s.inflight, {m}, s.now + c.visibility);
    RemovedKeys(s.schedule, {m});
    OneHolder(m, s.next, s.now + c.visibility);
  }

  // ---- Well-formedness ----------------------------------------------------------------

  ghost predicate WF(s: Sys) {
    && (forall p | p in s.procs :: p < s.next && s.procs[p].mon in s.enabled)
    && (forall p | p in s.procs && s.procs[p].phase.Enabling? :: s.procs[p].origin.Api?)
    && s.schedule.Keys <= s.enabled.Keys
    && s.inflight.Keys <= s.enabled.Keys
  }

  lemma WFFetch(c: Config, s: Sys)
    requires WF(s)
    ensures WF(DoFetch(c, s))
  {
    FetchedInSchedule(c, s);
    var s', batch := DoFetch(c, s), Batch(c, s);
    forall p | p in s'.procs ensures p < s'.next && s'.procs[p].mon in s'.enabled {
      if Fresh(s.next, |batch|, p) { assert batch[p - s.next] in batch; }
    }
    RemovedKeys(s.schedule, Members(batch));
    PutKeys(s.inflight, Members(batch), s.now + c.visibility);
  }

  lemma WFReclaim(c: Config, s: Sys)
    requires WF(s)
    ensures WF(DoReclaim(c, s))
  {
    ExpiredInInflight(c, s);
    RemovedKeys(s.inflight, Members(Expired(c, s)));
    PutKeys(s.schedule, Members(Expired(c, s)), s.now);
  }

  lemma WFSched(s: Sys, p: nat, delay: nat, ok: bool)
    requires WF(s) && p in s.procs
    ensures WF(DoSched(s, p, delay, ok))
  {
  }

  lemma WFAck(s: Sys, p: nat, ok: bool)
    requires WF(s) && p in s.procs
    ensures WF(DoAck(s, p, ok))
  {
  }

  lemma WFUnschedule(s: Sys, p: nat, ok: bool)
    requires WF(s) && p in s.procs
    ensures WF(DoUnschedule(s, p, ok))
  {
  }

  lemma WFCrash(s: Sys, ps: set<nat>)
    requires WF(s)
    ensures WF(DoCrash(s, ps))
  {
  }

  lemma WFStep(c: Config, s: Sys, st: Step)
    requires WF(s) && Can(s, st)
    ensures WF(Do(c, s, st))
  {
    match st
    case Fetch => WFFetch(c, s);
    case Reclaim => WFReclaim(c, s);
    case Sched(p, delay, ok) => WFSched(s, p, delay, ok);
    case Ack(p, ok) => WFAck(s, p, ok);
    case Unschedule(p, ok) => WFUnschedule(s, p, ok);
    case Crash(ps) => WFCrash(s, ps);
    case _ =>
  }

  lemma {:induction false} RunWF(c: Config, ss: seq<Sys>, sts: seq<Step>, k: nat)
    requires IsRun(c, ss, sts) && WF(ss[0]) && k < |ss|
    ensures WF(ss[k])
  {
    if k > 0 {
      RunWF(c, ss, sts, k - 1);
      WFStep(c, ss[k - 1], sts[k - 1]);
    }
  }
}
