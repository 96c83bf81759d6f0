/**
 How many processes can hold one monitor. A conservation law counts every live token and
 the schedule entry against creates, reclaims and re-enables; with timely handling it
 sharpens to mutual exclusion, and the exact step that would break it is named.
*/
module DispatchTokens {
  import opened SortedSet
  import opened RedisStore
  import opened Dispatch
  import Cardinality

  function Slot(s: Sys, m: Id): nat {
    if m in s.schedule then 1 else 0
  }

  function Created(s: Sys, m: Id): nat {
    if m in s.enabled then 1 else 0
  }

  ghost function Reclaimed(c: Config, s: Sys, st: Step, m: Id): nat {
    if st.Reclaim? && m in Expired(c, s) then 1 else 0
  }

  ghost function Enabled(s: Sys, st: Step, m: Id): nat {
    if st.EnableWrite? && st.p in s.procs && s.procs[st.p].mon == m then 1 else 0
  }

  /** Tokens and schedule entries of `m` that a step retires: dropped, finished, failed to
      schedule, merged into an entry that was already there, deleted, or lost by a crash. */
  ghost function Retired(c: Config, s: Sys, st: Step, m: Id): nat
    requires Can(s, st)
  {
    match st
    case Drop(p) => if s.procs[p].mon == m then 1 else 0
    case Sched(p, _, ok) => if s.procs[p].mon != m then 0 else if ok then Slot(s, m) else 1
    case Ack(p, _) => if s.procs[p].mon == m && s.procs[p].phase.AckStop? then 1 else 0
    case Unschedule(p, ok) => if s.procs[p].mon == m && ok then Slot(s, m) else 0
    case Reclaim => if m in Expired(c, s) then Slot(s, m) else 0
    case Crash(ps) => |LiveSet(s, m) * ps|
    case _ => 0
  }

  ghost function Tokens(s: Sys, m: Id): nat {
    Slot(s, m) + |LiveSet(s, m)|
  }

  // ---- How each step changes the set of live tokens -------------------------------------

  lemma LiveFetchOther(c: Config, s: Sys, m: Id)
    requires WF(s) && m !in Batch(c, s)
    ensures LiveSet(DoFetch(c, s), m) == LiveSet(s, m)
  {
  }

  lemma LiveFetchAt(c: Config, s: Sys, m: Id, k: nat, q: nat)
    requires WF(s) && k < |Batch(c, s)| && Batch(c, s)[k] == m
    ensures q in LiveSet(DoFetch(c, s), m) <==> q in LiveSet(s, m) || q == s.next + k
    ensures q == s.next + k ==> DoFetch(c, s).procs[q] == Proc(m, Held, Fetched(s.now + c.visibility))
  {
    RangeDistinct(s.schedule, s.now, c.batch);
    assert q in s.procs ==> !Fresh(s.next, |Batch(c, s)|, q);
  }

  lemma LiveFetch(c: Config, s: Sys, m: Id) returns (p: nat)
    requires WF(s) && m in Batch(c, s)
    ensures s.next <= p && LiveSet(DoFetch(c, s), m) == LiveSet(s, m) + {p}
    ensures DoFetch(c, s).procs[p] == Proc(m, Held, Fetched(s.now + c.visibility))
  {
    var k :| 0 <= k < |Batch(c, s)| && Batch(c, s)[k] == m;
    p := s.next + k;
    forall q: nat ensures q in LiveSet(DoFetch(c, s), m) <==> q in LiveSet(s, m) + {p} {
      LiveFetchAt(c, s, m, k, q);
    }
    LiveFetchAt(c, s, m, k, p);
  }

  /** Ending or moving one process changes the live set by that process only. */
  lemma LiveWithout(s: Sys, p: nat, m: Id)
    requires p in s.procs
    ensures |LiveSet(Without(s, p), m)| == |LiveSet(s, m)| - Cardinality.In(p, LiveSet(s, m))
  {
    Cardinality.But(LiveSet(s, m), LiveSet(Without(s, p), m), p);
  }

  lemma LiveMove(s: Sys, p: nat, phase: Phase, m: Id)
    requires p in s.procs
    ensures |LiveSet(Move(s, p, phase), m)|
         == |LiveSet(s, m)| - Cardinality.In(p, LiveSet(s, m)) + Cardinality.In(p, LiveSet(Move(s, p, phase), m))
  {
    Cardinality.But(LiveSet(s, m), LiveSet(Move(s, p, phase), m), p);
  }

  /** The live set depends on the processes alone. */
  lemma LiveSame(s: Sys, s': Sys, m: Id)
    requires s'.procs == s.procs
    ensures LiveSet(s', m) == LiveSet(s, m)
  {
  }

  lemma LiveSpawn(s: Sys, p: Proc, m: Id)
    requires WF(s)
    ensures LiveSet(Spawn(s, p), m) == LiveSet(s, m) + if p.mon == m && p.Live() then {s.next} else {}
  {
  }

  // ---- Conservation ---------------------------------------------------------------------

  lemma TokensFetch(c: Config, s: Sys, m: Id)
    requires WF(s)
    ensures Tokens(DoFetch(c, s), m) == Tokens(s, m)
  {
    FetchedInSchedule(c, s);
    if m in Batch(c, s) {
      var p := LiveFetch(c, s, m);
    } else {
      LiveFetchOther(c, s, m);
    }
  }

  lemma TokensReclaim(c: Config, s: Sys, m: Id)
    ensures Tokens(DoReclaim(c, s), m) + Retired(c, s, Reclaim, m) == Tokens(s, m) + Reclaimed(c, s, Reclaim, m)
  {
  }

  lemma TokensSched(c: Config, s: Sys, p: nat, delay: nat, ok: bool, m: Id)
    requires Can(s, Sched(p, delay, ok))
    ensures Tokens(DoSched(s, p, delay, ok), m) + Retired(c, s, Sched(p, delay, ok), m) == Tokens(s, m)
  {
    LiveWithout(s, p, m);
    LiveMove(s, p, LateAck(true), m);
    LiveSame(if s.procs[p].phase.SchedFirst? then Move(s, p, LateAck(true)) else Without(s, p),
             DoSched(s, p, delay, ok), m);
  }

  lemma TokensAck(c: Config, s: Sys, p: nat, ok: bool, m: Id)
    requires Can(s, Ack(p, ok))
    ensures Tokens(DoAck(s, p, ok), m) + Retired(c, s, Ack(p, ok), m) == Tokens(s, m)
  {
    LiveWithout(s, p, m);
    LiveMove(s, p, Resched, m);
    LiveSame(if s.procs[p].phase.AckFirst? then Move(s, p, Resched) else Without(s, p), DoAck(s, p, ok), m);
  }

  lemma TokensUnschedule(c: Config, s: Sys, p: nat, ok: bool, m: Id)
    requires Can(s, Unschedule(p, ok))
    ensures Tokens(DoUnschedule(s, p, ok), m) + Retired(c, s, Unschedule(p, ok), m) == Tokens(s, m)
  {
    LiveWithout(s, p, m);
    LiveSame(Without(s, p), DoUnschedule(s, p, ok), m);
  }

  lemma LiveCrash(s: Sys, ps: set<nat>, m: Id)
    ensures LiveSet(DoCrash(s, ps), m) == LiveSet(s, m) - ps
    ensures |LiveSet(DoCrash(s, ps), m)| + |LiveSet(s, m) * ps| == |LiveSet(s, m)|
  {
    assert LiveSet(DoCrash(s, ps), m) == LiveSet(s, m) - ps;
    Cardinality.Split(LiveSet(s, m), ps);
  }

  lemma TokensCrash(c: Config, s: Sys, ps: set<nat>, m: Id)
    ensures Tokens(DoCrash(s, ps), m) + Retired(c, s, Crash(ps), m) == Tokens(s, m)
  {
    LiveCrash(s, ps, m);
  }

  lemma TokensSpawn(c: Config, s: Sys, st: Step, m: Id)
    requires WF(s) && Can(s, st) && (st.Create? || st.EnableRead? || st.DisableRead?)
    ensures Tokens(Do(c, s, st), m) + Created(s, m) == Tokens(s, m) + Created(Do(c, s, st), m)
  {
    match st
    case Create(x) =>
      LiveSpawn(s, Proc(x, Resched, Api), m);
      LiveSame(Spawn(s, Proc(x, Resched, Api)), Do(c, s, st), m);
    case EnableRead(x) => LiveSpawn(s, Proc(x, Enabling, Api), m);
    case DisableRead(x) => LiveSpawn(s, Proc(x, Disabling, Api), m);
  }

  lemma TokensWrite(c: Config, s: Sys, st: Step, m: Id)
    requires WF(s) && Can(s, st) && (st.EnableWrite? || st.DisableWrite?)
    ensures Tokens(Do(c, s, st), m) + Created(s, m) == Tokens(s, m) + Enabled(s, st, m) + Created(Do(c, s, st), m)
  {
    var phase := if st.EnableWrite? then Resched else Unscheduling;
    LiveMove(s, st.p, phase, m);
    LiveSame(Move(s, st.p, phase), Do(c, s, st), m);
  }

  /** The commands of the processes and the scripts. */
  predicate Command(st: Step) {
    st.Fetch? || st.Reclaim? || st.Sched? || st.Ack? || st.Unschedule?
  }

  lemma TokensCommand(c: Config, s: Sys, st: Step, m: Id)
    requires WF(s) && Can(s, st) && Command(st)
    ensures Tokens(Do(c, s, st), m) + Retired(c, s, st, m) == Tokens(s, m) + Reclaimed(c, s, st, m)
    ensures Created(Do(c, s, st), m) == Created(s, m)
  {
    match st
    case Fetch => TokensFetch(c, s, m);
    case Reclaim => TokensReclaim(c, s, m);
    case Sched(p, delay, ok) => TokensSched(c, s, p, delay, ok, m);
    case Ack(p, ok) => TokensAck(c, s, p, ok, m);
    case Unschedule(p, ok) => TokensUnschedule(c, s, p, ok, m);
  }

  /** One step conserves the tokens of every monitor. */
  lemma TokensStep(c: Config, s: Sys, st: Step, m: Id)
    requires WF(s) && Can(s, st)
    ensures Tokens(Do(c, s, st), m) + Retired(c, s, st, m) + Created(s, m)
         == Tokens(s, m) + Reclaimed(c, s, st, m) + Enabled(s, st, m) + Created(Do(c, s, st), m)
  {
    if Command(st) {
      TokensCommand(c, s, st, m);
      return;
    }
    match st
    case Crash(ps) => TokensCrash(c, s, ps, m);
    case Tick(_) => LiveSame(s, Do(c, s, st), m);
    case Decide(p, path) => LiveMove(s, p, path, m);
    case Drop(p) => LiveWithout(s, p, m);
    case EnableWrite(_) => TokensWrite(c, s, st, m);
    case DisableWrite(_) => TokensWrite(c, s, st, m);
    case _ => TokensSpawn(c, s, st, m);
  }

  ghost function Reclaims(c: Config, ss: seq<Sys>, sts: seq<Step>, m: Id, k: nat): nat
    requires k <= |sts| && k <= |ss|
  {
    if k == 0 then 0 else Reclaims(c, ss, sts, m, k - 1) + Reclaimed(c, ss[k - 1], sts[k - 1], m)
  }

  ghost function Enables(c: Config, ss: seq<Sys>, sts: seq<Step>, m: Id, k: nat): nat
    requires k <= |sts| && k <= |ss|
  {
    if k == 0 then 0 else Enables(c, ss, sts, m, k - 1) + Enabled(ss[k - 1], sts[k - 1], m)
  }

  ghost function Retirements(c: Config, ss: seq<Sys>, sts: seq<Step>, m: Id, k: nat): nat
    requires IsRun(c, ss, sts) && k <= |sts|
  {
    if k == 0 then 0 else Retirements(c, ss, sts, m, k - 1) + Retired(c, ss[k - 1], sts[k - 1], m)
  }

  /** In every run: schedule entry + live tokens + retirements = create + reclaims + re-enables,
      so the entry and the live tokens never exceed one plus the reclaims and re-enables. */
  lemma {:induction false} TokenConservation(c: Config, ss: seq<Sys>, sts: seq<Step>, m: Id, k: nat)
    requires IsRun(c, ss, sts) && ss[0] == INIT && k < |ss|
    ensures WF(ss[k])
    ensures Tokens(ss[k], m) + Retirements(c, ss, sts, m, k)
         == Created(ss[k], m) + Reclaims(c, ss, sts, m, k) + Enables(c, ss, sts, m, k)
    ensures Tokens(ss[k], m) <= 1 + Reclaims(c, ss, sts, m, k) + Enables(c, ss, sts, m, k)
  {
    if k == 0 {
      assert LiveSet(INIT, m) == {};
    } else {
      TokenConservation(c, ss, sts, m, k - 1);
      TokensStep(c, ss[k - 1], sts[k - 1], m);
      WFStep(c, ss[k - 1], sts[k - 1]);
    }
  }
}
