/**
 No durable loss. An enabled monitor is in one of the two sets, or a process stands between
 its ack (or its row write) and its Schedule, unless it was released for a stated reason.
 Exactly two steps can break this: the retry path's late ack, which carries no fencing token,
 and the ZREM of a disable that an enable has overtaken.
*/
module DispatchLoss {
  import opened SortedSet
  import opened RedisStore
  import opened Dispatch

  ghost predicate Safe(s: Sys, m: Id) {
    m in s.schedule || m in s.inflight || Window(s, m)
  }

  /** The system owes `m` its checks: its row says enabled and nothing released it. */
  predicate Counts(s: Sys, m: Id) {
    m in s.enabled && s.enabled[m] && m !in s.released
  }

  ghost predicate Kept(s: Sys, m: Id) {
    Counts(s, m) ==> Safe(s, m)
  }

  /** The late ack of `m` removes the only trace of it. */
  ghost predicate Unfenced(s: Sys, st: Step, m: Id) {
    && st.Ack? && st.ok && st.p in s.procs
    && s.procs[st.p].mon == m && s.procs[st.p].phase.LateAck?
    && Counts(s, m) && m in s.inflight && m !in s.schedule && !Window(s, m)
  }

  /** A disable deletes the schedule entry of `m` after an enable has set the row again. */
  ghost predicate Overtaken(s: Sys, st: Step, m: Id) {
    && st.Unschedule? && st.ok && st.p in s.procs && s.procs[st.p].mon == m
    && m in s.enabled && s.enabled[m] && m in s.schedule && !Window(s, m)
  }

  /** ... and the entry was its only trace. */
  ghost predicate OvertakenLoss(s: Sys, st: Step, m: Id) {
    Overtaken(s, st, m) && m !in s.released && m !in s.inflight
  }

  lemma WindowFetch(c: Config, s: Sys, m: Id)
    requires WF(s) && Window(s, m)
    ensures Window(DoFetch(c, s), m)
  {
    var p :| p in s.procs && s.procs[p].mon == m && s.procs[p].phase.Resched?;
    assert DoFetch(c, s).procs[p] == s.procs[p];
  }

  /** A crash in a window of an unscheduled monitor is recorded. */
  lemma WindowCrash(s: Sys, ps: set<nat>, m: Id)
    requires Window(s, m) && m !in s.schedule
    ensures Window(DoCrash(s, ps), m) || m in DoCrash(s, ps).released
  {
    var p :| p in s.procs && s.procs[p].mon == m && s.procs[p].phase.Resched?;
    assert p !in ps ==> p in DoCrash(s, ps).procs;
  }

  lemma KeptFetch(c: Config, s: Sys, m: Id)
    requires WF(s) && Kept(s, m)
    ensures Kept(DoFetch(c, s), m)
  {
    FetchedInSchedule(c, s);
    PutKeys(s.inflight, Members(Batch(c, s)), s.now + c.visibility);
    if Window(s, m) { WindowFetch(c, s, m); }
  }

  lemma KeptReclaim(c: Config, s: Sys, m: Id)
    requires Kept(s, m)
    ensures Kept(DoReclaim(c, s), m)
  {
  }

  lemma WindowUnless(s: Sys, s': Sys, m: Id, p: nat)
    requires forall q | q in s.procs && q != p :: q in s'.procs && s'.procs[q] == s.procs[q]
    requires p in s.procs ==> s.procs[p].mon != m || !s.procs[p].phase.Resched?
    ensures Window(s, m) ==> Window(s', m)
  {
  }

  lemma KeptSched(s: Sys, p: nat, delay: nat, ok: bool, m: Id)
    requires Kept(s, m) && Can(s, Sched(p, delay, ok))
    ensures Kept(DoSched(s, p, delay, ok), m)
  {
    if s.procs[p].mon != m || s.procs[p].phase.Held? { WindowUnless(s, DoSched(s, p, delay, ok), m, p); }
  }

  /** An ack keeps `m` exactly when it is not an unfenced late ack of `m`: it removes the
      inflight entry whoever put it there. */
  lemma KeptAck(s: Sys, p: nat, ok: bool, m: Id)
    requires Kept(s, m) && Can(s, Ack(p, ok))
    ensures Kept(DoAck(s, p, ok), m) <==> !Unfenced(s, Ack(p, ok), m)
  {
    var s' := DoAck(s, p, ok);
    WindowUnless(s, s', m, p);
    if s.procs[p].phase.AckFirst? && s.procs[p].mon == m {
      assert s'.procs[p].phase.Resched?;
    } else {
      WindowUnless(s', s, m, p);
    }
  }

  lemma KeptUnschedule(s: Sys, p: nat, ok: bool, m: Id)
    requires Kept(s, m) && Can(s, Unschedule(p, ok))
    ensures Kept(DoUnschedule(s, p, ok), m) <==> !OvertakenLoss(s, Unschedule(p, ok), m)
  {
    WindowUnless(s, DoUnschedule(s, p, ok), m, p);
    WindowUnless(DoUnschedule(s, p, ok), s, m, p);
  }

  lemma KeptCrash(s: Sys, ps: set<nat>, m: Id)
    requires Kept(s, m)
    ensures Kept(DoCrash(s, ps), m)
  {
    if Window(s, m) && m !in s.schedule { WindowCrash(s, ps, m); }
  }

  predicate Bookkeeping(st: Step) {
    || st.Tick? || st.Create? || st.Decide? || st.Drop?
    || st.EnableRead? || st.EnableWrite? || st.DisableRead? || st.DisableWrite?
  }

  /** The API and bookkeeping steps only ever add a window. */
  lemma KeptRest(c: Config, s: Sys, st: Step, m: Id)
    requires WF(s) && Kept(s, m) && Can(s, st) && Bookkeeping(st)
    ensures Kept(Do(c, s, st), m)
  {
    var s' := Do(c, s, st);
    var p := if st.Decide? || st.Drop? || st.EnableWrite? || st.DisableWrite? then st.p else s.next;
    WindowUnless(s, s', m, p);
    if st.Create? && st.m == m { assert s'.procs[s.next].phase.Resched?; }
    if st.EnableWrite? { assert s'.procs[p].phase.Resched?; }
  }

  /** Exactly the unfenced late ack and the overtaken disable break the property, in any state. */
  lemma KeptStep(c: Config, s: Sys, st: Step, m: Id)
    requires WF(s) && Kept(s, m) && Can(s, st)
    ensures Kept(Do(c, s, st), m) <==> !Unfenced(s, st, m) && !OvertakenLoss(s, st, m)
  {
    match st
    case Fetch => KeptFetch(c, s, m);
    case Reclaim => KeptReclaim(c, s, m);
    case Sched(p, delay, ok) => KeptSched(s, p, delay, ok, m);
    case Ack(p, ok) => KeptAck(s, p, ok, m);
    case Unschedule(p, ok) => KeptUnschedule(s, p, ok, m);
    case Crash(ps) => KeptCrash(s, ps, m);
    case _ => KeptRest(c, s, st, m);
  }

  /** Over every run: the property holds at all times if and only if neither step occurs. */
  lemma {:induction false} KeptExactly(c: Config, ss: seq<Sys>, sts: seq<Step>, m: Id, k: nat)
    requires IsRun(c, ss, sts) && ss[0] == INIT && k < |ss|
    ensures WF(ss[k])
    ensures (forall i | 0 <= i <= k :: Kept(ss[i], m)) <==>
            (forall i | 0 <= i < k :: !Unfenced(ss[i], sts[i], m) && !OvertakenLoss(ss[i], sts[i], m))
  {
    if k > 0 {
      KeptExactly(c, ss, sts, m, k - 1);
      WFStep(c, ss[k - 1], sts[k - 1]);
      if Kept(ss[k - 1], m) { KeptStep(c, ss[k - 1], sts[k - 1], m); }
    }
  }

  // ---- What the flag of a late ack means -----------------------------------------------

  predicate SchedAt(sts: seq<Step>, i: nat, p: nat) {
    i < |sts| && sts[i].Sched? && sts[i].p == p
  }

  ghost predicate FetchAt(c: Config, ss: seq<Sys>, sts: seq<Step>, i: nat, m: Id) {
    i < |sts| && i < |ss| && sts[i].Fetch? && m in Batch(c, ss[i])
  }

  /** No fetch of `m` strictly between the steps `a` and `k`. */
  ghost predicate Unfetched(c: Config, ss: seq<Sys>, sts: seq<Step>, m: Id, a: nat, k: nat) {
    forall b: nat | a < b < k :: !FetchAt(c, ss, sts, b, m)
  }

  lemma UnfetchedNext(c: Config, ss: seq<Sys>, sts: seq<Step>, m: Id, a: nat, k: nat)
    requires a < k
    ensures Unfetched(c, ss, sts, m, a, k + 1) <==> Unfetched(c, ss, sts, m, a, k) && !FetchAt(c, ss, sts, k, m)
  {
  }

  /** A late ack after the step was one before, spoilt by now if the step fetched its monitor, or
      comes from the step's Schedule on the retry path. */
  ghost predicate LateAckFrom(c: Config, s: Sys, st: Step, s': Sys, p: nat) {
    p in s'.procs && s'.procs[p].phase.LateAck? ==>
      && p in s.procs && s'.procs[p].mon == s.procs[p].mon
      && if s.procs[p].phase.LateAck?
         then s'.procs[p].phase.clean
         <==> s.procs[p].phase.clean && !(st.Fetch? && s.procs[p].mon in Batch(c, s))
         else st.Sched? && st.p == p && s'.procs[p].phase.clean
  }

  lemma LateAckFetch(c: Config, s: Sys, p: nat)
    ensures LateAckFrom(c, s, Fetch, DoFetch(c, s), p)
  {
    var s' := DoFetch(c, s);
    if p in s'.procs && s'.procs[p].phase.LateAck? { assert s'.procs[p] == Spoil(s.procs[p], Batch(c, s)); }
  }

  lemma LateAckCommand(c: Config, s: Sys, st: Step, p: nat)
    requires Can(s, st) && (st.Sched? || st.Ack?)
    ensures LateAckFrom(c, s, st, if st.Sched? then DoSched(s, st.p, st.delay, st.ok) else DoAck(s, st.p, st.ok), p)
  {
  }

  lemma LateAckStep(c: Config, s: Sys, st: Step, p: nat)
    requires Can(s, st)
    ensures LateAckFrom(c, s, st, Do(c, s, st), p)
  {
    match st
    case Fetch => LateAckFetch(c, s, p);
    case Sched(_, _, _) => LateAckCommand(c, s, st, p);
    case Ack(_, _) => LateAckCommand(c, s, st, p);
    case _ =>
  }

  lemma {:induction false} SpoiltSince(c: Config, ss: seq<Sys>, sts: seq<Step>, p: nat, k: nat) returns (a: nat)
    requires |ss| == |sts| + 1 && p !in ss[0].procs && k < |ss|
    requires forall i | 0 <= i < |sts| :: LateAckFrom(c, ss[i], sts[i], ss[i + 1], p)
    requires p in ss[k].procs && ss[k].procs[p].phase.LateAck?
    ensures a < k && SchedAt(sts, a, p)
    ensures ss[k].procs[p].phase.clean <==> Unfetched(c, ss, sts, ss[k].procs[p].mon, a, k)
  {
    var s := ss[k - 1];
    assert LateAckFrom(c, s, sts[k - 1], ss[k - 1 + 1], p);
    if s.procs[p].phase.LateAck? {
      a := SpoiltSince(c, ss, sts, p, k - 1);
      UnfetchedNext(c, ss, sts, s.procs[p].mon, a, k - 1);
    } else {
      a := k - 1;
    }
  }

  /** In every run, a late ack is marked spoilt exactly when its monitor was fetched after the
      Schedule of its own process. */
  lemma SpoiltMeansRefetched(c: Config, ss: seq<Sys>, sts: seq<Step>, p: nat, k: nat) returns (a: nat)
    requires IsRun(c, ss, sts) && ss[0] == INIT && k < |ss|
    requires p in ss[k].procs && ss[k].procs[p].phase.LateAck?
    ensures a < k && SchedAt(sts, a, p)
    ensures ss[k].procs[p].phase.clean <==> Unfetched(c, ss, sts, ss[k].procs[p].mon, a, k)
  {
    forall i | 0 <= i < |sts| ensures LateAckFrom(c, ss[i], sts[i], ss[i + 1], p) {
      LateAckStep(c, ss[i], sts[i], p);
    }
    a := SpoiltSince(c, ss, sts, p, k);
  }

  // ---- The late ack of a monitor nobody fetched in between ----------------------------

  /** What stands behind a late ack that is not spoilt: removing the inflight entry is safe. */
  ghost predicate Backed(s: Sys, m: Id) {
    m in s.schedule || m in s.released || (m in s.enabled && !s.enabled[m]) || Window(s, m)
  }

  ghost predicate CleanOk(s: Sys, m: Id) {
    forall p | p in s.procs && s.procs[p].mon == m && s.procs[p].phase == LateAck(true) :: Backed(s, m)
  }

  lemma BackedFetch(c: Config, s: Sys, m: Id)
    requires WF(s) && Backed(s, m) && m !in Batch(c, s)
    ensures Backed(DoFetch(c, s), m)
  {
    if Window(s, m) { WindowFetch(c, s, m); }
  }

  lemma BackedReclaim(c: Config, s: Sys, m: Id)
    requires Backed(s, m)
    ensures Backed(DoReclaim(c, s), m)
  {
  }

  lemma BackedSched(s: Sys, p: nat, delay: nat, ok: bool, m: Id)
    requires Can(s, Sched(p, delay, ok))
    requires Backed(s, m) || (s.procs[p].mon == m && s.procs[p].phase.SchedFirst?)
    ensures Backed(DoSched(s, p, delay, ok), m)
  {
    if s.procs[p].mon != m || s.procs[p].phase.Held? { WindowUnless(s, DoSched(s, p, delay, ok), m, p); }
  }

  lemma BackedAckUnschedule(c: Config, s: Sys, st: Step, m: Id)
    requires Backed(s, m) && Can(s, st) && (st.Ack? || st.Unschedule?) && !Overtaken(s, st, m)
    requires m in s.enabled
    ensures Backed(Do(c, s, st), m)
  {
    WindowUnless(s, Do(c, s, st), m, st.p);
  }

  lemma BackedCrash(s: Sys, ps: set<nat>, m: Id)
    requires Backed(s, m)
    ensures Backed(DoCrash(s, ps), m)
  {
    if Window(s, m) && m !in s.schedule { WindowCrash(s, ps, m); }
  }

  lemma BackedRest(c: Config, s: Sys, st: Step, m: Id)
    requires WF(s) && Backed(s, m) && Can(s, st) && Bookkeeping(st)
    ensures Backed(Do(c, s, st), m)
  {
    var s' := Do(c, s, st);
    var p := if st.Decide? || st.Drop? || st.EnableWrite? || st.DisableWrite? then st.p else s.next;
    WindowUnless(s, s', m, p);
    if st.EnableWrite? { assert s'.procs[p].phase.Resched?; }
  }

  lemma BackedStep(c: Config, s: Sys, st: Step, m: Id)
    requires WF(s) && Can(s, st) && !Overtaken(s, st, m) && m in s.enabled
    requires Backed(s, m) || (st.Sched? && s.procs[st.p].phase.SchedFirst? && s.procs[st.p].mon == m)
    requires st.Fetch? ==> m !in Batch(c, s)
    ensures Backed(Do(c, s, st), m)
  {
    match st
    case Fetch => BackedFetch(c, s, m);
    case Reclaim => BackedReclaim(c, s, m);
    case Sched(p, delay, ok) => BackedSched(s, p, delay, ok, m);
    case Ack(_, _) => BackedAckUnschedule(c, s, st, m);
    case Unschedule(_, _) => BackedAckUnschedule(c, s, st, m);
    case Crash(ps) => BackedCrash(s, ps, m);
    case _ => BackedRest(c, s, st, m);
  }

  lemma CleanStep(c: Config, s: Sys, st: Step, m: Id)
    requires WF(s) && CleanOk(s, m) && Can(s, st) && !Overtaken(s, st, m)
    ensures CleanOk(Do(c, s, st), m)
  {
    var s' := Do(c, s, st);
    forall p | p in s'.procs && s'.procs[p].mon == m && s'.procs[p].phase == LateAck(true) ensures Backed(s', m) {
      LateAckStep(c, s, st, p);
      BackedStep(c, s, st, m);
    }
  }

  lemma {:induction false} CleanRun(c: Config, ss: seq<Sys>, sts: seq<Step>, m: Id, k: nat)
    requires IsRun(c, ss, sts) && ss[0] == INIT && k < |ss|
    requires forall i | 0 <= i < k :: !Overtaken(ss[i], sts[i], m)
    ensures WF(ss[k]) && CleanOk(ss[k], m)
  {
    if k > 0 {
      CleanRun(c, ss, sts, m, k - 1);
      WFStep(c, ss[k - 1], sts[k - 1]);
      CleanStep(c, ss[k - 1], sts[k - 1], m);
    }
  }

  /** The ack at step `k` comes from process `p` and ends its retry path. */
  ghost predicate LateAckAt(ss: seq<Sys>, sts: seq<Step>, k: nat, m: Id) {
    && k < |sts| && k < |ss| && sts[k].Ack? && sts[k].ok && sts[k].p in ss[k].procs
    && ss[k].procs[sts[k].p].mon == m && ss[k].procs[sts[k].p].phase.LateAck?
  }

  /** An unfenced late ack implies a fetch of the monitor since that process's own Schedule,
      in every run without an overtaken disable. */
  lemma UnfencedWasFetched(c: Config, ss: seq<Sys>, sts: seq<Step>, m: Id, k: nat) returns (a: nat, b: nat)
    requires IsRun(c, ss, sts) && ss[0] == INIT && k < |sts| && Unfenced(ss[k], sts[k], m)
    requires forall i | 0 <= i < k :: !Overtaken(ss[i], sts[i], m)
    ensures a < b < k && SchedAt(sts, a, sts[k].p) && FetchAt(c, ss, sts, b, m)
  {
    CleanRun(c, ss, sts, m, k);
    a := SpoiltMeansRefetched(c, ss, sts, sts[k].p, k);
    b :| a < b < k && FetchAt(c, ss, sts, b, m);
  }

  /** No late ack of `m` comes after a fetch of `m` that follows its process's Schedule. */
  ghost predicate LateAcksFenced(c: Config, ss: seq<Sys>, sts: seq<Step>, m: Id) {
    forall a: nat, b: nat, k: nat | a < b < k && LateAckAt(ss, sts, k, m) ::
      !(SchedAt(sts, a, sts[k].p) && FetchAt(c, ss, sts, b, m))
  }

  /** Over every run, every interleaving and every crash: if no late ack comes after a fetch of
      its monitor and no disable is overtaken by an enable, every enabled monitor that was not
      released is in a set or in a window. */
  lemma {:induction false} NoDurableLoss(c: Config, ss: seq<Sys>, sts: seq<Step>, m: Id, k: nat)
    requires IsRun(c, ss, sts) && ss[0] == INIT && k < |ss|
    requires LateAcksFenced(c, ss, sts, m)
    requires forall i | 0 <= i < k :: !Overtaken(ss[i], sts[i], m)
    ensures Kept(ss[k], m) && WF(ss[k])
  {
    if k > 0 {
      var s, st := ss[k - 1], sts[k - 1];
      NoDurableLoss(c, ss, sts, m, k - 1);
      WFStep(c, s, st);
      KeptStep(c, s, st, m);
      if Unfenced(s, st, m) {
        var a, b := UnfencedWasFetched(c, ss, sts, m, k - 1);
        assert LateAckAt(ss, sts, k - 1, m);
        assert false;
      }
    }
  }

  /** A crash of any set of processes loses only monitors in a window of one of them: every
      other monitor that counts stays in a set or keeps its surviving window. */
  lemma CrashLosesOnlyTheWindow(s: Sys, ps: set<nat>, m: Id)
    requires Kept(s, m) && Counts(s, m)
    requires forall p | p in ps && p in s.procs && s.procs[p].mon == m :: !s.procs[p].phase.Resched?
    ensures Safe(DoCrash(s, ps), m)
    ensures s.procs.Keys <= ps ==> m in DoCrash(s, ps).schedule || m in DoCrash(s, ps).inflight
  {
    KeptCrash(s, ps, m);
    var s' := DoCrash(s, ps);
    assert m !in s'.released;
    assert s.procs.Keys <= ps ==> s'.procs == map[];
  }

  // ---- Each assumption is needed ---------------------------------------------------------

  const ONE: Id := 1

  /** A retried check is fetched again before its late ack, and the new holder crashes. */
  const FIRST_STEPS: seq<Step> := Creation(0) + [Fetch]
  const RETRY_STEPS: seq<Step> := [Decide(1, SchedFirst), Sched(1, 5000, true), Tick(5000)]
  const LOSS_STEPS: seq<Step> := [Fetch] + [Ack(1, true)]

  ghost predicate Solo(s: Sys, phase: Phase, scheduled: set<Id>) {
    && s.schedule.Keys == scheduled && s.inflight.Keys == {ONE}
    && s.procs.Keys == {1} && s.procs[1].mon == ONE && s.procs[1].phase == phase && s.next == 2
    && s.enabled == map[ONE := true] && ONE !in s.released
  }

  function Creation(delay: nat): seq<Step> { [Create(ONE), Sched(0, delay, true)] }

  lemma CreateAndSchedule(c: Config, delay: nat) returns (s: Sys)
    ensures Leads(c, INIT, Creation(delay), s)
    ensures s == Sys(map[ONE := delay], map[], 0, map[], 1, map[ONE := true], map[])
  {
    var s1 := Do(c, INIT, Create(ONE));
    s := Do(c, s1, Sched(0, delay, true));
    assert s.procs == map[];
    assert IsRun(c, [INIT, s1, s], Creation(delay));
  }

  lemma FirstJob(c: Config) returns (s: Sys)
    requires c.Valid()
    ensures Leads(c, INIT, FIRST_STEPS, s) && Solo(s, Held, {})
    ensures s.inflight[ONE] == s.now + c.visibility
  {
    var s1 := CreateAndSchedule(c, 0);
    FetchOne(c, s1, ONE);
    s := DoFetch(c, s1);
    LeadsOne(c, s1, Fetch);
    LeadsOn(c, INIT, Creation(0), s1, [Fetch], s);
  }

  lemma RetryScheduled(c: Config, s: Sys) returns (t: Sys)
    requires Solo(s, Held, {})
    ensures Leads(c, s, RETRY_STEPS, t)
    ensures Solo(t, LateAck(true), {ONE}) && t.schedule[ONE] == t.now
  {
    var s1 := Do(c, s, Decide(1, SchedFirst));
    var s2 := Do(c, s1, Sched(1, 5000, true));
    t := Do(c, s2, Tick(5000));
    assert IsRun(c, [s, s1, s2, t], RETRY_STEPS);
  }

  /** From there a second fetch and the first holder's ack leave the monitor enabled, never
      released, in neither set, and known only to the new holder's memory ... */
  lemma LateAckErasesTheTrace(c: Config, s: Sys) returns (t: Sys)
    requires c.Valid() && Solo(s, LateAck(true), {ONE}) && s.schedule[ONE] == s.now
    ensures Leads(c, s, LOSS_STEPS, t) && Unfenced(DoFetch(c, s), Ack(1, true), ONE)
    ensures Traceless(t) && t.procs.Keys == {2} && t.procs[2].phase.Held?
  {
    var s1 := SecondFetch(c, s);
    AckErases(s1);
    t := DoAck(s1, 1, true);
    LeadsOne(c, s1, Ack(1, true));
    LeadsOn(c, s, [Fetch], s1, [Ack(1, true)], t);
  }

  /** Two processes know `ONE`: one before its late ack, one that holds it. */
  ghost predicate Doubled(s: Sys) {
    && s.procs.Keys == {1, 2} && s.procs[1].mon == ONE && s.procs[1].phase.LateAck? && s.procs[2].phase.Held?
    && s.enabled == map[ONE := true] && ONE !in s.released && ONE !in s.schedule && ONE in s.inflight
  }

  lemma SecondFetch(c: Config, s: Sys) returns (t: Sys)
    requires c.Valid() && Solo(s, LateAck(true), {ONE}) && s.schedule[ONE] == s.now
    ensures t == DoFetch(c, s) && Leads(c, s, [Fetch], t) && Doubled(t)
  {
    t := DoFetch(c, s);
    FetchOne(c, s, ONE);
    LeadsOne(c, s, Fetch);
  }

  lemma AckErases(s: Sys)
    requires Doubled(s)
    ensures Unfenced(s, Ack(1, true), ONE)
    ensures var s' := DoAck(s, 1, true);
            Traceless(s') && s'.procs.Keys == {2} && s'.procs[2].phase.Held?
  {
  }

  ghost predicate Traceless(s: Sys) {
    s.enabled == map[ONE := true] && ONE !in s.released && ONE !in s.schedule && ONE !in s.inflight
  }

  /** ... so that its crash loses the monitor for good: the zero-loss claim fails. */
  lemma CrashThenLosesIt(s: Sys)
    requires Traceless(s) && s.procs.Keys == {2} && s.procs[2].phase.Held?
    ensures DoCrash(s, {2}).procs.Keys == {} && !Kept(DoCrash(s, {2}), ONE)
  {
  }

  /** The pieces make one run from the initial state. */
  lemma RetryRunLosesIt(c: Config) returns (s: Sys)
    requires c.Valid()
    ensures Leads(c, INIT, FIRST_STEPS + RETRY_STEPS + LOSS_STEPS + [Crash({2})], s)
    ensures s.procs.Keys == {} && !Kept(s, ONE)
  {
    var held := FirstJob(c);
    var late := RetryScheduled(c, held);
    LeadsOn(c, INIT, FIRST_STEPS, held, RETRY_STEPS, late);
    var bare := LateAckErasesTheTrace(c, late);
    LeadsOn(c, INIT, FIRST_STEPS + RETRY_STEPS, late, LOSS_STEPS, bare);
    CrashThenLosesIt(bare);
    s := DoCrash(bare, {2});
    LeadsOne(c, bare, Crash({2}));
    LeadsOn(c, INIT, FIRST_STEPS + RETRY_STEPS + LOSS_STEPS, bare, [Crash({2})], s);
  }

  /** A disable whose ZREM comes after a complete enable. */
  const DISABLING_STEPS: seq<Step> := Creation(60000) + [DisableRead(ONE), DisableWrite(1)]
  const OVERTAKING_STEPS: seq<Step> := [EnableRead(ONE), EnableWrite(2), Sched(2, 60000, true)]

  ghost predicate HalfDisabled(s: Sys, enabled: bool) {
    && s.procs == map[1 := Proc(ONE, Unscheduling, Api)] && s.next >= 2
    && s.enabled == map[ONE := enabled] && s.released == map[] && s.inflight == map[] && ONE in s.schedule
  }

  lemma HalfDisable(c: Config) returns (s: Sys)
    ensures Leads(c, INIT, DISABLING_STEPS, s) && HalfDisabled(s, false) && s.next == 2
  {
    var s2 := CreateAndSchedule(c, 60000);
    var s3 := Do(c, s2, DisableRead(ONE));
    s := Do(c, s3, DisableWrite(1));
    assert IsRun(c, [s2, s3, s], [DisableRead(ONE), DisableWrite(1)]);
    LeadsOn(c, INIT, Creation(60000), s2, [DisableRead(ONE), DisableWrite(1)], s);
  }

  lemma Overtake(c: Config, s: Sys) returns (t: Sys)
    requires HalfDisabled(s, false) && s.next == 2
    ensures Leads(c, s, OVERTAKING_STEPS, t) && HalfDisabled(t, true)
  {
    var s1 := Do(c, s, EnableRead(ONE));
    var s2 := Do(c, s1, EnableWrite(2));
    t := Do(c, s2, Sched(2, 60000, true));
    assert t.procs == s.procs;
    assert IsRun(c, [s, s1, s2, t], OVERTAKING_STEPS);
  }

  lemma LateUnschedule(s: Sys)
    requires HalfDisabled(s, true)
    ensures OvertakenLoss(s, Unschedule(1, true), ONE)
    ensures var s' := DoUnschedule(s, 1, true); s'.procs.Keys == {} && !Kept(s', ONE)
  {
  }

  /** No crash, no failed command and no late ack, and yet the enabled monitor is in neither set
      and no process knows it. */
  lemma OvertakenDisableLosesIt(c: Config) returns (s: Sys)
    ensures Leads(c, INIT, DISABLING_STEPS + OVERTAKING_STEPS + [Unschedule(1, true)], s)
    ensures s.procs.Keys == {} && !Kept(s, ONE)
  {
    var half := HalfDisable(c);
    var over := Overtake(c, half);
    LeadsOn(c, INIT, DISABLING_STEPS, half, OVERTAKING_STEPS, over);
    LateUnschedule(over);
    s := DoUnschedule(over, 1, true);
    LeadsOne(c, over, Unschedule(1, true));
    LeadsOn(c, INIT, DISABLING_STEPS + OVERTAKING_STEPS, over, [Unschedule(1, true)], s);
  }
}
