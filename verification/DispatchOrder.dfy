/**
 Bounded dispatch without overtaking. Once a job is overdue, nothing gets ahead of it, and
 every fetch takes it or lowers its rank by exactly the batch size. The same holds of the
 inflight set and the reclaimer, so a job abandoned by a crash is recovered within a bound.
*/
module DispatchOrder {
  import opened SortedSet
  import opened RedisStore
  import opened Dispatch

  /** The step re-adds the waiting job or deletes it. */
  ghost predicate TouchesScheduled(c: Config, s: Sys, st: Step, m: Id) {
    || (st.Sched? && st.ok && st.p in s.procs && s.procs[st.p].mon == m)
    || (st.Reclaim? && m in Expired(c, s))
    || (st.Unschedule? && st.ok && st.p in s.procs && s.procs[st.p].mon == m)
  }

  ghost predicate Dispatches(c: Config, s: Sys, st: Step, m: Id) {
    st.Fetch? && m in Batch(c, s)
  }

  predicate Overdue(z: ZSet, m: Id, now: int) {
    m in z && z[m] < now
  }

  lemma PutLater(z: ZSet, batch: set<Id>, score: int, m: Id)
    requires m in z && m !in batch && z[m] < score
    ensures NoOvertaking(z, Put(z, batch, score), m)
  {
  }

  lemma TakenKeeps(z: ZSet, now: int, limit: nat, m: Id)
    requires m in z && m !in Range(z, now, limit)
    ensures m in Taken(z, now, limit) && Taken(z, now, limit)[m] == z[m]
  {
  }

  /** No step puts another job ahead of an overdue one, and a fetch that leaves it lowers its
      rank by exactly the batch size. */
  lemma ScheduledStep(c: Config, s: Sys, st: Step, m: Id)
    requires Can(s, st) && Overdue(s.schedule, m, s.now)
    requires !TouchesScheduled(c, s, st, m) && !Dispatches(c, s, st, m)
    ensures var s' := Do(c, s, st);
            && NoOvertaking(s.schedule, s'.schedule, m) && Overdue(s'.schedule, m, s'.now)
            && Rank(s'.schedule, m) <= Rank(s.schedule, m)
            && (st.Fetch? ==> Rank(s'.schedule, m) == Rank(s.schedule, m) - c.batch)
  {
    var s' := Do(c, s, st);
    if st.Fetch? {
      BatchByRank(s.schedule, s.now, c.batch, m);
      TakenKeeps(s.schedule, s.now, c.batch, m);
    } else if st.Reclaim? {
      PutLater(s.schedule, Members(Expired(c, s)), s.now, m);
      RankFalls(s.schedule, s'.schedule, m);
    } else {
      assert NoOvertaking(s.schedule, s'.schedule, m);
      RankFalls(s.schedule, s'.schedule, m);
    }
  }

  function Fetches(sts: seq<Step>, k: nat): nat
    requires k <= |sts|
  {
    if k == 0 then 0 else Fetches(sts, k - 1) + if sts[k - 1].Fetch? then 1 else 0
  }

  /** The places in the queue that the fetches so far have served. */
  function Served(c: Config, sts: seq<Step>, k: nat): nat
    requires k <= |sts|
    ensures Served(c, sts, k) == Fetches(sts, k) * c.batch
  {
    if k == 0 then 0 else Served(c, sts, k - 1) + if sts[k - 1].Fetch? then c.batch else 0
  }

  /** While an overdue job waits, from `j` to `k`, the fetches it survives use up its rank. */
  lemma {:induction false} RankBudget(c: Config, ss: seq<Sys>, sts: seq<Step>, m: Id, j: nat, k: nat)
    requires IsRun(c, ss, sts) && j <= k < |ss| && Overdue(ss[j].schedule, m, ss[j].now)
    requires forall i | j <= i < k :: !TouchesScheduled(c, ss[i], sts[i], m) && !Dispatches(c, ss[i], sts[i], m)
    ensures Overdue(ss[k].schedule, m, ss[k].now)
    ensures Served(c, sts, k) + Rank(ss[k].schedule, m) <= Served(c, sts, j) + Rank(ss[j].schedule, m)
  {
    if k > j {
      RankBudget(c, ss, sts, m, j, k - 1);
      ScheduledStep(c, ss[k - 1], sts[k - 1], m);
    }
  }

  /** From any point `j` of a run, more than rank/batch fetches suffice: one of them dispatches the
      job that is overdue there, unless the job itself is re-added or deleted first. */
  lemma BoundedDispatch(c: Config, ss: seq<Sys>, sts: seq<Step>, m: Id, j: nat)
    requires IsRun(c, ss, sts) && j <= |sts| && Overdue(ss[j].schedule, m, ss[j].now)
    requires Fetches(sts, |sts|) * c.batch > Fetches(sts, j) * c.batch + Rank(ss[j].schedule, m)
    ensures exists i :: j <= i < |sts| && (TouchesScheduled(c, ss[i], sts[i], m) || Dispatches(c, ss[i], sts[i], m))
  {
    if forall i | j <= i < |sts| :: !TouchesScheduled(c, ss[i], sts[i], m) && !Dispatches(c, ss[i], sts[i], m) {
      RankBudget(c, ss, sts, m, j, |sts|);
      assert false;
    }
  }

  // ---- The same for the inflight set and the reclaimer -----------------------------------

  ghost predicate TouchesInflight(c: Config, s: Sys, st: Step, m: Id) {
    || (st.Fetch? && m in Batch(c, s))
    || (st.Ack? && st.ok && st.p in s.procs && s.procs[st.p].mon == m)
  }

  ghost predicate Recovers(c: Config, s: Sys, st: Step, m: Id) {
    st.Reclaim? && m in Expired(c, s)
  }

  /** The same of an expired inflight job and the reclaimer's limit. */
  lemma InflightStep(c: Config, s: Sys, st: Step, m: Id)
    requires Can(s, st) && Overdue(s.inflight, m, s.now)
    requires !TouchesInflight(c, s, st, m) && !Recovers(c, s, st, m)
    ensures var s' := Do(c, s, st);
            && NoOvertaking(s.inflight, s'.inflight, m) && Overdue(s'.inflight, m, s'.now)
            && Rank(s'.inflight, m) <= Rank(s.inflight, m)
            && (st.Reclaim? ==> Rank(s'.inflight, m) == Rank(s.inflight, m) - c.limit)
  {
    var s' := Do(c, s, st);
    if st.Reclaim? {
      BatchByRank(s.inflight, s.now, c.limit, m);
      TakenKeeps(s.inflight, s.now, c.limit, m);
    } else if st.Fetch? {
      PutLater(s.inflight, Members(Batch(c, s)), s.now + c.visibility, m);
      RankFalls(s.inflight, s'.inflight, m);
    } else {
      assert NoOvertaking(s.inflight, s'.inflight, m);
      RankFalls(s.inflight, s'.inflight, m);
    }
  }

  function ReclaimTicks(sts: seq<Step>, k: nat): nat
    requires k <= |sts|
  {
    if k == 0 then 0 else ReclaimTicks(sts, k - 1) + if sts[k - 1].Reclaim? then 1 else 0
  }

  function Swept(c: Config, sts: seq<Step>, k: nat): nat
    requires k <= |sts|
    ensures Swept(c, sts, k) == ReclaimTicks(sts, k) * c.limit
  {
    if k == 0 then 0 else Swept(c, sts, k - 1) + if sts[k - 1].Reclaim? then c.limit else 0
  }

  lemma {:induction false} InflightBudget(c: Config, ss: seq<Sys>, sts: seq<Step>, m: Id, k: nat)
    requires IsRun(c, ss, sts) && k < |ss| && Overdue(ss[0].inflight, m, ss[0].now)
    requires forall i | 0 <= i < k :: !TouchesInflight(c, ss[i], sts[i], m) && !Recovers(c, ss[i], sts[i], m)
    ensures Overdue(ss[k].inflight, m, ss[k].now)
    ensures Swept(c, sts, k) + Rank(ss[k].inflight, m) <= Rank(ss[0].inflight, m)
  {
    if k > 0 {
      InflightBudget(c, ss, sts, m, k - 1);
      InflightStep(c, ss[k - 1], sts[k - 1], m);
    }
  }

  /** A recovered job leaves the inflight set and is due now in the schedule. */
  lemma RecoveredIntoSchedule(c: Config, s: Sys, m: Id)
    requires m in Expired(c, s)
    ensures m !in DoReclaim(c, s).inflight && m in Due(DoReclaim(c, s).schedule, s.now)
  {
  }

  /** A job past its visibility deadline is back in the schedule within rank/limit + 1
      reclaims, unless it is acked or fetched again first. */
  lemma BoundedRecovery(c: Config, ss: seq<Sys>, sts: seq<Step>, m: Id)
    requires IsRun(c, ss, sts) && Overdue(ss[0].inflight, m, ss[0].now)
    requires ReclaimTicks(sts, |sts|) * c.limit > Rank(ss[0].inflight, m)
    ensures exists i :: 0 <= i < |sts| && (TouchesInflight(c, ss[i], sts[i], m) || Recovers(c, ss[i], sts[i], m))
  {
    if forall i | 0 <= i < |sts| :: !TouchesInflight(c, ss[i], sts[i], m) && !Recovers(c, ss[i], sts[i], m) {
      InflightBudget(c, ss, sts, m, |sts|);
      assert false;
    }
  }

  // ---- Recovery and then dispatch ----------------------------------------------------------

  /** Somebody acks, re-adds or deletes `m`. */
  ghost predicate Interferes(s: Sys, st: Step, m: Id) {
    (st.Ack? || st.Sched? || st.Unschedule?) && st.ok && st.p in s.procs && s.procs[st.p].mon == m
  }

  /** A job that is only scheduled stays so, with its score, over the step. */
  ghost predicate KeepsWaiting(c: Config, s: Sys, st: Step, s': Sys, m: Id) {
    m in s.schedule && m !in s.inflight ==>
      && m in s'.schedule && s'.schedule[m] == s.schedule[m] && m !in s'.inflight
      && s.now <= s'.now && !TouchesScheduled(c, s, st, m)
  }

  lemma WaitsStep(c: Config, s: Sys, st: Step, m: Id)
    requires Can(s, st) && !Interferes(s, st, m) && !Dispatches(c, s, st, m)
    ensures KeepsWaiting(c, s, st, Do(c, s, st), m)
  {
    ExpiredInInflight(c, s);
    if st.Fetch? && m in s.schedule { TakenKeeps(s.schedule, s.now, c.batch, m); }
  }

  lemma {:induction false} WaitsFrom(c: Config, ss: seq<Sys>, sts: seq<Step>, m: Id, i: nat, k: nat)
    requires |ss| == |sts| + 1 && i <= k < |ss| && m in ss[i].schedule && m !in ss[i].inflight
    requires forall j | i <= j < k :: KeepsWaiting(c, ss[j], sts[j], ss[j + 1], m)
    ensures m in ss[k].schedule && ss[k].schedule[m] == ss[i].schedule[m] && m !in ss[k].inflight
    ensures ss[i].now <= ss[k].now
    ensures forall j | i <= j < k :: !TouchesScheduled(c, ss[j], sts[j], m)
  {
    if k > i {
      WaitsFrom(c, ss, sts, m, i, k - 1);
      assert KeepsWaiting(c, ss[k - 1], sts[k - 1], ss[k - 1 + 1], m);
    }
  }

  /** A scheduled job waits in place until somebody interferes or a fetch dispatches it. */
  lemma Waits(c: Config, ss: seq<Sys>, sts: seq<Step>, m: Id, i: nat, k: nat)
    requires IsRun(c, ss, sts) && i <= k < |ss| && m in ss[i].schedule && m !in ss[i].inflight
    requires forall j | i <= j < k :: !Interferes(ss[j], sts[j], m) && !Dispatches(c, ss[j], sts[j], m)
    ensures m in ss[k].schedule && ss[k].schedule[m] == ss[i].schedule[m] && m !in ss[k].inflight
    ensures ss[i].now <= ss[k].now
    ensures forall j | i <= j < k :: !TouchesScheduled(c, ss[j], sts[j], m)
  {
    forall j | i <= j < k ensures KeepsWaiting(c, ss[j], sts[j], ss[j + 1], m) {
      WaitsStep(c, ss[j], sts[j], m);
    }
    WaitsFrom(c, ss, sts, m, i, k);
  }

  /** A job left inflight by a crash, with nobody to ack, re-add or delete it, is dispatched
      again: enough reclaims up to `j`, a later clock at `k`, and enough fetches from there. */
  lemma CrashedJobIsDispatchedAgain(c: Config, ss: seq<Sys>, sts: seq<Step>, m: Id, j: nat, k: nat)
    requires IsRun(c, ss, sts) && j <= k <= |sts| && Overdue(ss[0].inflight, m, ss[0].now)
    requires forall i | 0 <= i < |sts| :: !Interferes(ss[i], sts[i], m)
    requires ReclaimTicks(sts, j) * c.limit > Rank(ss[0].inflight, m)
    requires ss[j].now < ss[k].now
    requires m in ss[k].schedule ==>
               Fetches(sts, |sts|) * c.batch > Fetches(sts, k) * c.batch + Rank(ss[k].schedule, m)
    ensures exists i :: 0 <= i < |sts| && Dispatches(c, ss[i], sts[i], m)
  {
    if forall i | 0 <= i < |sts| :: !Dispatches(c, ss[i], sts[i], m) {
      WaitsOverdue(c, ss, sts, m, j, k);
      BoundedDispatch(c, ss, sts, m, k);
      assert false;
    }
  }

  /** Unless it is dispatched, the recovered job is overdue at `k`, and untouched from there on. */
  lemma WaitsOverdue(c: Config, ss: seq<Sys>, sts: seq<Step>, m: Id, j: nat, k: nat)
    requires IsRun(c, ss, sts) && j <= k <= |sts| && Overdue(ss[0].inflight, m, ss[0].now)
    requires forall i | 0 <= i < |sts| :: !Interferes(ss[i], sts[i], m) && !Dispatches(c, ss[i], sts[i], m)
    requires ReclaimTicks(sts, j) * c.limit > Rank(ss[0].inflight, m) && ss[j].now < ss[k].now
    ensures Overdue(ss[k].schedule, m, ss[k].now)
    ensures forall i | k <= i < |sts| :: !TouchesScheduled(c, ss[i], sts[i], m)
  {
    var r := RecoveredBy(c, ss, sts, m, j);
    Waits(c, ss, sts, m, r + 1, j);
    Waits(c, ss, sts, m, r + 1, k);
    Waits(c, ss, sts, m, k, |sts|);
  }

  lemma RecoveredBy(c: Config, ss: seq<Sys>, sts: seq<Step>, m: Id, j: nat) returns (r: nat)
    requires IsRun(c, ss, sts) && j <= |sts| && Overdue(ss[0].inflight, m, ss[0].now)
    requires forall i | 0 <= i < j :: !Interferes(ss[i], sts[i], m) && !Dispatches(c, ss[i], sts[i], m)
    requires ReclaimTicks(sts, j) * c.limit > Rank(ss[0].inflight, m)
    ensures r < j && Recovers(c, ss[r], sts[r], m)
    ensures m in ss[r + 1].schedule && ss[r + 1].schedule[m] == ss[r + 1].now && m !in ss[r + 1].inflight
  {
    if forall i | 0 <= i < j :: !Recovers(c, ss[i], sts[i], m) {
      InflightBudget(c, ss, sts, m, j);
      assert false;
    }
    r :| 0 <= r < j && Recovers(c, ss[r], sts[r], m);
    RecoveredIntoSchedule(c, ss[r], m);
    assert ss[r + 1] == DoReclaim(c, ss[r]);
  }
}
