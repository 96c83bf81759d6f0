/**
 The monitor cache at the grain of single commands: loads, gets, enables, disables and expiry
 from any number of calls, interleaved. Agreement on every field but Enabled survives; the
 one-sided safety of Enabled does not, and enabling may stay invisible behind a stale entry.
*/
module CacheRace {
  import opened SortedSet
  import opened MonitorService

  datatype Call =
    | Missed(m: Id)            // a get or a load found no usable entry: next the database
    | Loaded(row: Monitor)     // read the row: next the SET
    | Evicting(m: Id)          // wrote enabled = false: next the DEL

  datatype State = State(rows: map<Id, Monitor>, cache: map<Id, Monitor>, calls: map<nat, Call>)

  datatype Step =
    | Insert(row: Monitor)
    | Miss(p: nat, m: Id)
    | Read(p: nat)
    | Fill(p: nat, ok: bool)
    | Enable(m: Id)
    | Disable(p: nat, m: Id)
    | Evict(p: nat, ok: bool)
    | Expire(m: Id)
    | Crash(p: nat)

  predicate Can(s: State, st: Step) {
    match st
    case Insert(row) => row.id !in s.rows
    case Miss(p, _) => p !in s.calls
    case Read(p) => p in s.calls && s.calls[p].Missed?
    case Fill(p, _) => p in s.calls && s.calls[p].Loaded?
    case Enable(m) => m in s.rows && !s.rows[m].enabled
    case Disable(p, m) => p !in s.calls && m in s.rows && s.rows[m].enabled
    case Evict(p, _) => p in s.calls && s.calls[p].Evicting?
    case Expire(_) => true
    case Crash(p) => true
  }

  function Do(s: State, st: Step): State
    requires Can(s, st)
  {
    match st
    case Insert(row) => s.(rows := s.rows[row.id := row])
    case Miss(p, m) => s.(calls := s.calls[p := Missed(m)])
    case Read(p) =>
      var m := s.calls[p].m;
      if m in s.rows then s.(calls := s.calls[p := Loaded(s.rows[m])]) else s.(calls := s.calls - {p})
    case Fill(p, ok) =>
      var row := s.calls[p].row;
      s.(cache := if ok then s.cache[row.id := row] else s.cache, calls := s.calls - {p})
    case Enable(m) => s.(rows := s.rows[m := s.rows[m].(enabled := true)])
    case Disable(p, m) => s.(rows := s.rows[m := s.rows[m].(enabled := false)], calls := s.calls[p := Evicting(m)])
    case Evict(p, ok) => s.(cache := if ok then s.cache - {s.calls[p].m} else s.cache, calls := s.calls - {p})
    case Expire(m) => s.(cache := s.cache - {m})
    case Crash(p) => s.(calls := s.calls - {p})
  }

  ghost predicate IsRun(ss: seq<State>, sts: seq<Step>) {
    && |ss| == |sts| + 1
    && forall i | 0 <= i < |sts| :: Can(ss[i], sts[i]) && ss[i + 1] == Do(ss[i], sts[i])
  }

  /** The cache, and every row on its way into it, agree with the table but for Enabled. */
  predicate Agrees(s: State) {
    && Consistent(s.rows, s.cache)
    && forall p | p in s.calls && s.calls[p].Loaded? ::
         s.calls[p].row.id in s.rows && SameButEnabled(s.calls[p].row, s.rows[s.calls[p].row.id])
  }

  lemma AgreesStep(s: State, st: Step)
    requires Agrees(s) && Can(s, st)
    ensures Agrees(Do(s, st))
  {
  }

  /** What GetMonitor answers in a state: the entry if it is the caller's, else the query. */
  function Get(s: State, user: UserId, m: Id): Result<Monitor> {
    if m in s.cache && s.cache[m].owner == user then Ok(s.cache[m]) else Query(s.rows, user, m)
  }

  /** What LoadMonitor answers in a state. */
  function Load(s: State, m: Id): Result<Monitor> {
    if m in s.cache then Ok(s.cache[m]) else if m in s.rows then Ok(s.rows[m]) else Err(NotFound)
  }

  /** In every interleaving GetMonitor succeeds exactly for the row's owner and LoadMonitor for
      every row, and what they answer differs from the row at most in Enabled. */
  lemma {:induction false} CacheAgreesWithDatabase(ss: seq<State>, sts: seq<Step>, k: nat, user: UserId, m: Id)
    requires IsRun(ss, sts) && ss[0] == State(map[], map[], map[]) && k < |ss|
    ensures Agrees(ss[k])
    ensures Get(ss[k], user, m).Ok? <==> m in ss[k].rows && ss[k].rows[m].owner == user
    ensures Get(ss[k], user, m).Ok? ==>
              Get(ss[k], user, m).value == ss[k].rows[m].(enabled := Get(ss[k], user, m).value.enabled)
    ensures Load(ss[k], m).Ok? <==> m in ss[k].rows
    ensures Load(ss[k], m).Ok? ==> Load(ss[k], m).value == ss[k].rows[m].(enabled := Load(ss[k], m).value.enabled)
  {
    if k > 0 {
      CacheAgreesWithDatabase(ss, sts, k - 1, user, m);
      AgreesStep(ss[k - 1], sts[k - 1]);
    }
  }

  // ---- Enabled ----------------------------------------------------------------------------------

  /** A step breaks one-sidedness exactly when it is a fill with a row read before a disable, or
      a disable of a monitor cached as enabled (until its DEL). */
  predicate Stales(s: State, st: Step)
    requires Can(s, st) && Agrees(s)
  {
    match st
    case Fill(p, ok) => ok && s.calls[p].row.enabled && !s.rows[s.calls[p].row.id].enabled
    case Disable(_, m) => m in s.cache && s.cache[m].enabled
    case _ => false
  }

  lemma OneSidedStep(s: State, st: Step)
    requires Agrees(s) && Can(s, st) && OneSided(s.rows, s.cache)
    ensures OneSided(Do(s, st).rows, Do(s, st).cache) <==> !Stales(s, st)
  {
  }

  // ---- Enabled over whole runs ----------------------------------------------------------------

  /** A disable of `m` is between its write and its DEL. */
  predicate Evicted(s: State, m: Id) {
    exists p :: p in s.calls && s.calls[p] == Evicting(m)
  }

  /** A monitor cached as enabled is enabled, or its entry is about to be deleted. */
  predicate Guarded(s: State) {
    forall m | m in s.cache && s.cache[m].enabled :: (m in s.rows && s.rows[m].enabled) || Evicted(s, m)
  }

  predicate Stale(s: State, m: Id) {
    m in s.cache && s.cache[m].enabled && m in s.rows && !s.rows[m].enabled
  }

  /** No other call than `p` is about to delete the entry of `m`. */
  predicate LastEvictor(s: State, p: nat, m: Id) {
    forall q | q in s.calls && s.calls[q] == Evicting(m) :: q == p
  }

  /** A fill with a row read before a disable that has already deleted the entry, or the last
      deletion of a stale entry that fails or dies with its process. */
  predicate LeavesStale(s: State, st: Step)
    requires Can(s, st)
  {
    match st
    case Fill(p, ok) =>
      var row := s.calls[p].row;
      ok && row.enabled && row.id in s.rows && !s.rows[row.id].enabled && !Evicted(s, row.id)
    case Evict(p, ok) => var m := s.calls[p].m; !ok && Stale(s, m) && LastEvictor(s, p, m)
    case Crash(p) =>
      p in s.calls && s.calls[p].Evicting? && Stale(s, s.calls[p].m) && LastEvictor(s, p, s.calls[p].m)
    case _ => false
  }

  lemma EvictedUnless(s: State, s': State, m: Id, p: nat)
    requires forall q | q in s.calls && q != p :: q in s'.calls && s'.calls[q] == s.calls[q]
    requires p in s.calls && s.calls[p] == Evicting(m) ==> !LastEvictor(s, p, m)
    ensures Evicted(s, m) ==> Evicted(s', m)
  {
    if Evicted(s, m) {
      var q :| q in s.calls && s.calls[q] == Evicting(m);
      if q == p {
        var r :| r in s.calls && s.calls[r] == Evicting(m) && r != p;
        assert s'.calls[r] == Evicting(m);
      } else {
        assert s'.calls[q] == Evicting(m);
      }
    }
  }

  /** A call ends without deleting its entry. */
  lemma GuardedEnd(s: State, s': State, p: nat)
    requires Guarded(s) && Agrees(s) && p in s.calls && s' == s.(calls := s.calls - {p})
    ensures Guarded(s') <==> !(s.calls[p].Evicting? && Stale(s, s.calls[p].m) && LastEvictor(s, p, s.calls[p].m))
  {
    if s.calls[p].Evicting? && Stale(s, s.calls[p].m) && LastEvictor(s, p, s.calls[p].m) {
      assert !Evicted(s', s.calls[p].m);
    } else {
      forall m | m in s'.cache && s'.cache[m].enabled ensures (m in s'.rows && s'.rows[m].enabled) || Evicted(s', m) {
        if !s.rows[m].enabled { EvictedUnless(s, s', m, p); }
      }
    }
  }

  lemma GuardedFill(s: State, p: nat)
    requires Guarded(s) && Agrees(s) && Can(s, Fill(p, true))
    ensures Guarded(Do(s, Fill(p, true))) <==> !LeavesStale(s, Fill(p, true))
  {
    var s', row := Do(s, Fill(p, true)), s.calls[p].row;
    assert row.id in s'.cache && s'.cache[row.id] == row;
    forall m ensures Evicted(s', m) <==> Evicted(s, m) {
      EvictedUnless(s, s', m, p);
      EvictedUnless(s', s, m, p);
    }
  }

  lemma GuardedEvict(s: State, p: nat)
    requires Guarded(s) && Agrees(s) && Can(s, Evict(p, true))
    ensures Guarded(Do(s, Evict(p, true)))
  {
    var s' := Do(s, Evict(p, true));
    forall m | m in s'.cache && s'.cache[m].enabled ensures (m in s'.rows && s'.rows[m].enabled) || Evicted(s', m) {
      assert m in s.cache && m != s.calls[p].m;
      EvictedUnless(s, s', m, p);
    }
  }

  lemma GuardedRest(s: State, st: Step)
    requires Guarded(s) && Agrees(s) && Can(s, st) && !st.Fill? && !st.Evict? && !st.Crash?
    ensures Guarded(Do(s, st))
  {
    var s' := Do(s, st);
    forall m | m in s'.cache && s'.cache[m].enabled ensures (m in s'.rows && s'.rows[m].enabled) || Evicted(s', m) {
      match st
      case Miss(p, _) => EvictedUnless(s, s', m, p);
      case Read(p) => EvictedUnless(s, s', m, p);
      case Disable(p, _) =>
        EvictedUnless(s, s', m, p);
        assert s'.calls[p] == Evicting(st.m);
      case Insert(_) => assert s'.calls == s.calls;
      case Enable(_) => assert s'.calls == s.calls;
      case Expire(_) => assert s'.calls == s.calls;
      case _ =>
    }
  }

  /** A step keeps every stale entry under a pending deletion exactly when it is neither. */
  lemma GuardedStep(s: State, st: Step)
    requires Guarded(s) && Agrees(s) && Can(s, st)
    ensures Guarded(Do(s, st)) <==> !LeavesStale(s, st)
  {
    match st
    case Fill(p, ok) => if ok { GuardedFill(s, p); } else { GuardedEnd(s, Do(s, st), p); }
    case Evict(p, ok) => if ok { GuardedEvict(s, p); } else { GuardedEnd(s, Do(s, st), p); }
    case Crash(p) => if p in s.calls { GuardedEnd(s, Do(s, st), p); } else { assert Do(s, st) == s; }
    case _ => GuardedRest(s, st);
  }

  /** In every interleaving without such a step, a load never reports a disabled monitor as
      enabled unless the disable has not yet come to its DEL. */
  lemma {:induction false} NoCheckOnDisabled(ss: seq<State>, sts: seq<Step>, k: nat, m: Id)
    requires IsRun(ss, sts) && ss[0] == State(map[], map[], map[]) && k < |ss|
    requires forall i | 0 <= i < k :: !LeavesStale(ss[i], sts[i])
    ensures Agrees(ss[k]) && Guarded(ss[k])
    ensures Load(ss[k], m).Ok? && Load(ss[k], m).value.enabled ==> ss[k].rows[m].enabled || Evicted(ss[k], m)
  {
    if k > 0 {
      NoCheckOnDisabled(ss, sts, k - 1, m);
      AgreesStep(ss[k - 1], sts[k - 1]);
      GuardedStep(ss[k - 1], sts[k - 1]);
    }
  }

  /** A load that read the row before a disable and fills the cache after its DEL leaves the
      monitor cached as enabled though it is disabled: the next load lets a check start. */
  lemma StaleFillReachable(row: Monitor) returns (ss: seq<State>)
    requires row.enabled
    ensures IsRun(ss, [Insert(row), Miss(0, row.id), Read(0), Disable(1, row.id), Evict(1, true), Fill(0, true)])
    ensures ss[0] == State(map[], map[], map[])
    ensures row.id in ss[6].rows && !ss[6].rows[row.id].enabled
    ensures Load(ss[6], row.id).Ok? && Load(ss[6], row.id).value.enabled
  {
    var s0 := State(map[], map[], map[]);
    var s1 := Do(s0, Insert(row));
    var s2 := Do(s1, Miss(0, row.id));
    var s3 := Do(s2, Read(0));
    var s4 := Do(s3, Disable(1, row.id));
    var s5 := Do(s4, Evict(1, true));
    var s6 := Do(s5, Fill(0, true));
    ss := [s0, s1, s2, s3, s4, s5, s6];
  }

  /** Enabling does not touch the cache, so an enable is visible to the executor exactly when the
      monitor is not cached as disabled; otherwise its jobs keep being dropped until the entry expires. */
  lemma EnableVisibleUnlessCached(s: State, m: Id)
    requires Can(s, Enable(m))
    ensures var r := Load(Do(s, Enable(m)), m);
            r.Ok? && (r.value.enabled <==> m !in s.cache || s.cache[m].enabled)
    ensures Load(Do(Do(s, Enable(m)), Expire(m)), m).value.enabled
  {
  }

  /** A load after a disable caches the monitor as disabled; the enable that follows stays
      invisible to the executor. */
  lemma InvisibleEnableReachable(row: Monitor) returns (ss: seq<State>)
    requires row.enabled
    ensures IsRun(ss, [Insert(row), Disable(0, row.id), Evict(0, true), Miss(1, row.id), Read(1), Fill(1, true),
                       Enable(row.id)])
    ensures ss[0] == State(map[], map[], map[])
    ensures row.id in ss[7].rows && ss[7].rows[row.id].enabled
    ensures Load(ss[7], row.id).Ok? && !Load(ss[7], row.id).value.enabled
  {
    var s0 := State(map[], map[], map[]);
    var s1 := Do(s0, Insert(row));
    var s2 := Do(s1, Disable(0, row.id));
    var s3 := Do(s2, Evict(0, true));
    var s4 := Do(s3, Miss(1, row.id));
    var s5 := Do(s4, Read(1));
    var s6 := Do(s5, Fill(1, true));
    ss := [s0, s1, s2, s3, s4, s5, s6, Do(s6, Enable(row.id))];
  }
}
