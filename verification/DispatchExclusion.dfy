/**
 Mutual exclusion under timely handling, and monitors that stay stopped.
*/
module DispatchExclusion {
  import opened SortedSet
  import opened RedisStore
  import opened Dispatch
  import opened DispatchTokens
  import opened DispatchLoss

  /** At most one live token; while it lives the monitor is not scheduled and its inflight
      score, if there is one, is that token's deadline. */
  ghost predicate Exclusive(s: Sys, m: Id) {
    forall p | p in LiveSet(s, m) ::
      && LiveSet(s, m) == {p} && m !in s.schedule
      && match s.procs[p].origin
         case Fetched(deadline) => m in s.inflight ==> s.inflight[m] == deadline
         case Api => m !in s.inflight
  }

  /** No token, no entry in either set. */
  ghost predicate Idle(s: Sys, m: Id) {
    LiveSet(s, m) == {} && m !in s.schedule && m !in s.inflight
  }

  /** The only steps that can break exclusion: a reclaim of a monitor somebody still holds,
      and a re-enable of a monitor that is not idle. */
  ghost predicate Breaks(c: Config, s: Sys, st: Step, m: Id) {
    || (st.Reclaim? && m in Expired(c, s) && LiveSet(s, m) != {})
    || (st.EnableWrite? && st.p in s.procs && s.procs[st.p].mon == m && !Idle(s, m))
  }

  lemma ExclusiveFetch(c: Config, s: Sys, m: Id)
    requires WF(s) && Exclusive(s, m)
    ensures Exclusive(DoFetch(c, s), m)
  {
    FetchedInSchedule(c, s);
    if m in Batch(c, s) {
      var p := LiveFetch(c, s, m);
      assert LiveSet(s, m) == {};
    } else {
      LiveFetchOther(c, s, m);
      var s' := DoFetch(c, s);
      forall p | p in LiveSet(s, m) ensures s'.procs[p] == s.procs[p] {
        assert !Fresh(s.next, |Batch(c, s)|, p);
      }
    }
  }

  lemma ExclusiveReclaim(c: Config, s: Sys, m: Id)
    requires Exclusive(s, m)
    ensures Exclusive(DoReclaim(c, s), m) <==> !Breaks(c, s, Reclaim, m)
  {
  }

  /** Every live token of `m` was live before, with the same origin. */
  ghost predicate NoNewToken(s: Sys, s': Sys, m: Id) {
    forall p | p in s'.procs && s'.procs[p].mon == m && s'.procs[p].Live() ::
      p in s.procs && s.procs[p].mon == m && s.procs[p].Live() && s'.procs[p].origin == s.procs[p].origin
  }

  /** Neither set gains `m`, and an inflight score of `m` stays. */
  ghost predicate NoNewEntry(s: Sys, s': Sys, m: Id) {
    && (m in s'.schedule ==> m in s.schedule)
    && (m in s'.inflight ==> m in s.inflight && s'.inflight[m] == s.inflight[m])
  }

  predicate Quiet(st: Step) {
    st.Ack? || st.Unschedule? || st.Crash? || st.Tick? || st.Decide? || st.Drop? || st.DisableWrite?
  }

  lemma QuietAck(s: Sys, p: nat, ok: bool, m: Id)
    requires Can(s, Ack(p, ok))
    ensures NoNewToken(s, DoAck(s, p, ok), m) && NoNewEntry(s, DoAck(s, p, ok), m)
  {
  }

  lemma QuietUnscheduleCrash(s: Sys, p: nat, ok: bool, ps: set<nat>, m: Id)
    ensures p in s.procs ==> NoNewToken(s, DoUnschedule(s, p, ok), m) && NoNewEntry(s, DoUnschedule(s, p, ok), m)
    ensures NoNewToken(s, DoCrash(s, ps), m) && NoNewEntry(s, DoCrash(s, ps), m)
  {
  }

  /** The quiet steps add no token and no entry of any monitor. */
  lemma QuietStep(c: Config, s: Sys, st: Step, m: Id)
    requires Can(s, st) && Quiet(st)
    ensures NoNewToken(s, Do(c, s, st), m) && NoNewEntry(s, Do(c, s, st), m)
  {
    match st
    case Ack(p, ok) => QuietAck(s, p, ok, m);
    case Unschedule(p, ok) => QuietUnscheduleCrash(s, p, ok, {}, m);
    case Crash(ps) => QuietUnscheduleCrash(s, 0, true, ps, m);
    case _ =>
  }

  lemma ExclusiveFrame(s: Sys, s': Sys, m: Id)
    requires Exclusive(s, m) && NoNewToken(s, s', m)
    requires LiveSet(s', m) != {} ==> NoNewEntry(s, s', m)
    ensures Exclusive(s', m)
  {
  }

  lemma ExclusiveQuiet(c: Config, s: Sys, st: Step, m: Id)
    requires Exclusive(s, m) && Can(s, st) && Quiet(st)
    ensures Exclusive(Do(c, s, st), m)
  {
    QuietStep(c, s, st, m);
    ExclusiveFrame(s, Do(c, s, st), m);
  }

  /** The token that schedules is no longer live, and was the only one. */
  lemma ExclusiveSched(s: Sys, p: nat, delay: nat, ok: bool, m: Id)
    requires Exclusive(s, m) && Can(s, Sched(p, delay, ok))
    ensures Exclusive(DoSched(s, p, delay, ok), m)
  {
  }

  lemma ExclusiveSpawn(c: Config, s: Sys, st: Step, m: Id)
    requires WF(s) && Exclusive(s, m) && Can(s, st)
    requires st.Create? || st.EnableRead? || st.DisableRead?
    ensures Exclusive(Do(c, s, st), m)
  {
  }

  lemma ExclusiveEnable(c: Config, s: Sys, p: nat, m: Id)
    requires Exclusive(s, m) && Can(s, EnableWrite(p)) && (s.procs[p].mon == m ==> s.procs[p].origin.Api?)
    ensures Exclusive(Do(c, s, EnableWrite(p)), m) <==> !Breaks(c, s, EnableWrite(p), m)
  {
    var s' := Do(c, s, EnableWrite(p));
    if s.procs[p].mon == m {
      assert LiveSet(s', m) == LiveSet(s, m) + {p};
      assert p !in LiveSet(s, m);
      if LiveSet(s, m) != {} {
        var q :| q in LiveSet(s, m);
        assert q in LiveSet(s', m) && p in LiveSet(s', m) && p != q;
        assert LiveSet(s', m) != {p};
      }
    } else {
      assert LiveSet(s', m) == LiveSet(s, m);
    }
  }

  /** One step keeps exclusion exactly when it is not one of the two breaking steps. */
  lemma ExclusiveStep(c: Config, s: Sys, st: Step, m: Id)
    requires WF(s) && Exclusive(s, m) && Can(s, st)
    ensures Exclusive(Do(c, s, st), m) <==> !Breaks(c, s, st, m)
  {
    match st
    case Fetch => ExclusiveFetch(c, s, m);
    case Reclaim => ExclusiveReclaim(c, s, m);
    case Sched(p, delay, ok) => ExclusiveSched(s, p, delay, ok, m);
    case Create(_) => ExclusiveSpawn(c, s, st, m);
    case EnableRead(_) => ExclusiveSpawn(c, s, st, m);
    case DisableRead(_) => ExclusiveSpawn(c, s, st, m);
    case EnableWrite(p) => ExclusiveEnable(c, s, p, m);
    case _ => ExclusiveQuiet(c, s, st, m);
  }

  /** Over every run: exclusion holds at all times if and only if neither step occurs. */
  lemma {:induction false} ExclusiveExactly(c: Config, ss: seq<Sys>, sts: seq<Step>, m: Id, k: nat)
    requires IsRun(c, ss, sts) && ss[0] == INIT && k < |ss|
    ensures WF(ss[k])
    ensures (forall i | 0 <= i <= k :: Exclusive(ss[i], m)) <==> (forall i | 0 <= i < k :: !Breaks(c, ss[i], sts[i], m))
  {
    if k == 0 {
      assert LiveSet(INIT, m) == {};
    } else {
      ExclusiveExactly(c, ss, sts, m, k - 1);
      WFStep(c, ss[k - 1], sts[k - 1]);
      if Exclusive(ss[k - 1], m) { ExclusiveStep(c, ss[k - 1], sts[k - 1], m); }
    }
  }

  /** Every fetched token of `m` is still before its visibility deadline. */
  ghost predicate Timely(s: Sys, m: Id) {
    forall p | p in LiveSet(s, m) && s.procs[p].origin.Fetched? :: s.now < s.procs[p].origin.deadline
  }

  lemma TimelyNotReclaimed(c: Config, s: Sys, m: Id)
    requires Exclusive(s, m) && Timely(s, m) && LiveSet(s, m) != {}
    ensures m !in Expired(c, s)
  {
    ExpiredInInflight(c, s);
    var p :| p in LiveSet(s, m);
  }

  /** In a run where every token is spent before its deadline and a monitor is re-enabled only
      when it is idle, at most one token of it is ever live. */
  lemma {:induction false} MutualExclusion(c: Config, ss: seq<Sys>, sts: seq<Step>, m: Id, k: nat)
    requires IsRun(c, ss, sts) && ss[0] == INIT && k < |ss|
    requires forall i | 0 <= i < k :: Timely(ss[i], m)
    requires forall i | 0 <= i < k && sts[i].EnableWrite? && ss[i].procs[sts[i].p].mon == m :: Idle(ss[i], m)
    ensures WF(ss[k]) && Exclusive(ss[k], m)
    ensures |LiveSet(ss[k], m)| <= 1
  {
    if k == 0 {
      assert LiveSet(INIT, m) == {};
    } else {
      var s, st := ss[k - 1], sts[k - 1];
      MutualExclusion(c, ss, sts, m, k - 1);
      if LiveSet(s, m) != {} { TimelyNotReclaimed(c, s, m); }
      ExclusiveStep(c, s, st, m);
      WFStep(c, s, st);
      AtMostOne(ss[k], m);
    }
  }

  lemma AtMostOne(s: Sys, m: Id)
    requires Exclusive(s, m)
    ensures |LiveSet(s, m)| <= 1
  {
  }

  lemma ReclaimOne(c: Config, s: Sys, m: Id)
    requires c.Valid() && s.schedule.Keys == {} && s.inflight.Keys == {m} && s.inflight[m] <= s.now
    ensures var s' := DoReclaim(c, s);
            && s'.schedule.Keys == {m} && s'.schedule[m] == s.now && s'.inflight.Keys == {}
            && s'.procs == s.procs && s'.next == s.next && s'.now == s.now
  {
    assert s.inflight == map[m := s.inflight[m]];
    SingletonRange(m, s.inflight[m], s.now, c.limit);
    assert Members([m]) == {m};
    PutKeys(s.schedule, {m}, s.now);
    RemovedKeys(s.inflight, {m});
  }

  /** Timeliness is needed: a holder that outlives its deadline is doubled by one reclaim and
      one fetch, though a fetch is atomic. */
  lemma SlowHolderIsDoubled(c: Config, s: Sys)
    requires c.Valid() && Solo(s, Held, {}) && s.inflight[ONE] <= s.now
    ensures LiveSet(DoFetch(c, DoReclaim(c, s)), ONE) == {1, 2}
  {
    ReclaimOne(c, s, ONE);
    FetchOne(c, DoReclaim(c, s), ONE);
  }

  /** A run from the initial state in which that happens. */
  lemma DoubledReachable(c: Config) returns (s: Sys)
    requires c.Valid()
    ensures Leads(c, INIT, FIRST_STEPS + [Tick(c.visibility)] + [Reclaim] + [Fetch], s)
    ensures LiveSet(s, ONE) == {1, 2}
  {
    var held := FirstJob(c);
    var slow := Do(c, held, Tick(c.visibility));
    var back := DoReclaim(c, slow);
    s := DoFetch(c, back);
    SlowHolderIsDoubled(c, slow);
    LeadsOne(c, held, Tick(c.visibility));
    LeadsOn(c, INIT, FIRST_STEPS, held, [Tick(c.visibility)], slow);
    LeadsOne(c, slow, Reclaim);
    LeadsOn(c, INIT, FIRST_STEPS + [Tick(c.visibility)], slow, [Reclaim], back);
    LeadsOne(c, back, Fetch);
    LeadsOn(c, INIT, FIRST_STEPS + [Tick(c.visibility)] + [Reclaim], back, [Fetch], s);
  }

  // ---- Stopped monitors ------------------------------------------------------------------

  /** The ack of a terminal result leaves an exclusively held monitor idle, with its row
      still enabled. */
  lemma TerminalStops(s: Sys, p: nat, m: Id)
    requires Exclusive(s, m) && Can(s, Ack(p, true))
    requires s.procs[p].mon == m && s.procs[p].phase.AckStop?
    ensures Idle(DoAck(s, p, true), m) && DoAck(s, p, true).enabled == s.enabled
  {
  }

  lemma IdleFetchReclaim(c: Config, s: Sys, m: Id)
    requires WF(s) && Idle(s, m)
    ensures Idle(DoFetch(c, s), m) && Idle(DoReclaim(c, s), m)
  {
    FetchedInSchedule(c, s);
    ExpiredInInflight(c, s);
    LiveFetchOther(c, s, m);
    LiveSame(s, DoReclaim(c, s), m);
  }

  lemma IdleFrame(s: Sys, s': Sys, m: Id)
    requires Idle(s, m) && NoNewToken(s, s', m) && NoNewEntry(s, s', m)
    ensures Idle(s', m)
  {
  }

  lemma IdleSched(s: Sys, p: nat, delay: nat, ok: bool, m: Id)
    requires Idle(s, m) && Can(s, Sched(p, delay, ok))
    ensures Idle(DoSched(s, p, delay, ok), m)
  {
    assert p !in LiveSet(s, m);
    IdleFrame(s, DoSched(s, p, delay, ok), m);
  }

  /** An idle monitor stays idle under every step but the write of an enable. */
  lemma IdleStep(c: Config, s: Sys, st: Step, m: Id)
    requires WF(s) && Idle(s, m) && m in s.enabled && Can(s, st)
    requires st.EnableWrite? ==> s.procs[st.p].mon != m
    ensures Idle(Do(c, s, st), m)
  {
    match st
    case Fetch => IdleFetchReclaim(c, s, m);
    case Reclaim => IdleFetchReclaim(c, s, m);
    case Sched(p, delay, ok) => IdleSched(s, p, delay, ok, m);
    case Create(_) => IdleFrame(s, Do(c, s, st), m);
    case EnableRead(_) => IdleFrame(s, Do(c, s, st), m);
    case DisableRead(_) => IdleFrame(s, Do(c, s, st), m);
    case EnableWrite(_) => IdleFrame(s, Do(c, s, st), m);
    case _ => QuietStep(c, s, st, m); IdleFrame(s, Do(c, s, st), m);
  }

  /** No API call on `m` under way that could write its row, which says enabled. */
  ghost predicate RowFixed(s: Sys, m: Id) {
    && m in s.enabled && s.enabled[m]
    && forall p | p in s.procs && s.procs[p].mon == m :: !s.procs[p].phase.Enabling? && !s.procs[p].phase.Disabling?
  }

  ghost predicate Settled(s: Sys, m: Id) {
    Idle(s, m) && RowFixed(s, m)
  }

  lemma RowFixedFetch(c: Config, s: Sys, m: Id)
    requires RowFixed(s, m)
    ensures RowFixed(DoFetch(c, s), m)
  {
  }

  lemma RowFixedSched(s: Sys, p: nat, delay: nat, ok: bool, m: Id)
    requires RowFixed(s, m) && p in s.procs
    ensures RowFixed(DoSched(s, p, delay, ok), m)
  {
  }

  lemma RowFixedAck(s: Sys, p: nat, ok: bool, m: Id)
    requires RowFixed(s, m) && p in s.procs
    ensures RowFixed(DoAck(s, p, ok), m)
  {
  }

  lemma RowFixedStep(c: Config, s: Sys, st: Step, m: Id)
    requires RowFixed(s, m) && Can(s, st) && st != DisableRead(m)
    ensures RowFixed(Do(c, s, st), m) && st != EnableRead(m)
  {
    match st
    case Fetch => RowFixedFetch(c, s, m);
    case Sched(p, delay, ok) => RowFixedSched(s, p, delay, ok, m);
    case Ack(p, ok) => RowFixedAck(s, p, ok, m);
    case _ =>
  }

  lemma SettledStep(c: Config, s: Sys, st: Step, m: Id)
    requires WF(s) && Settled(s, m) && Can(s, st) && st != DisableRead(m)
    ensures Settled(Do(c, s, st), m) && st != EnableRead(m)
  {
    assert st.EnableWrite? ==> s.procs[st.p].mon != m;
    IdleStep(c, s, st, m);
    RowFixedStep(c, s, st, m);
  }

  /** Stopped stays stopped: until a disable of `m` comes, no enable takes effect (its read
      finds the row enabled) and `m` stays in neither set with no token. */
  lemma {:induction false} StoppedStaysStopped(c: Config, ss: seq<Sys>, sts: seq<Step>, m: Id, k: nat)
    requires IsRun(c, ss, sts) && k < |ss| && WF(ss[0]) && Settled(ss[0], m)
    requires DisableRead(m) !in sts[..k]
    ensures Settled(ss[k], m) && WF(ss[k])
    ensures EnableRead(m) !in sts[..k]
  {
    if k > 0 {
      assert sts[..k] == sts[..k - 1] + [sts[k - 1]];
      StoppedStaysStopped(c, ss, sts, m, k - 1);
      SettledStep(c, ss[k - 1], sts[k - 1], m);
      WFStep(c, ss[k - 1], sts[k - 1]);
    }
  }

  /** A lost monitor that no process knows is stopped for good, although its row says enabled:
      no run brings it back before a disable. */
  lemma LossIsPermanent(c: Config, ss: seq<Sys>, sts: seq<Step>, m: Id, k: nat)
    requires IsRun(c, ss, sts) && k < |ss| && WF(ss[0])
    requires !Kept(ss[0], m) && forall p | p in ss[0].procs :: ss[0].procs[p].mon != m
    requires DisableRead(m) !in sts[..k]
    ensures Idle(ss[k], m) && m in ss[k].enabled && ss[k].enabled[m]
  {
    assert Settled(ss[0], m);
    StoppedStaysStopped(c, ss, sts, m, k);
  }
}
