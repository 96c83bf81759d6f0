/**
 The bridge between the two grains of the incident machine: a handler as one step is the run of
 its commands alone, and every history of handlers is a run of commands.
*/
module IncidentPaths {
  import opened Executor
  import opened Incidents
  import opened IncidentHistory
  import AlertRace

  function OpenCount(rows: seq<Row>): nat {
    if rows == [] then 0 else OpenCount(rows[..|rows| - 1]) + if IsOpen(rows[|rows| - 1]) then 1 else 0
  }

  lemma OpenCountInsert(rows: seq<Row>, now: int)
    ensures OpenCount(rows + [Row(now, None)]) == OpenCount(rows) + 1
  {
    assert (rows + [Row(now, None)])[..|rows|] == rows;
  }

  lemma {:induction false} OpenCountClosed(rows: seq<Row>)
    requires forall i | 0 <= i < |rows| :: !IsOpen(rows[i])
    ensures OpenCount(rows) == 0
  {
    if rows != [] { OpenCountClosed(rows[..|rows| - 1]); }
  }

  /** The command grain and the handler grain see the same hash and as many open rows. */
  predicate Matches(s: AlertRace.Race, m: Mon) {
    && s.count == m.hash.count && s.alerted == m.hash.alerted && s.db == m.hash.db
    && s.open == OpenCount(m.rows)
  }

  // ---- The commands of each handler ----------------------------------------------------------

  /** What a failure worker sends once it is past its retries. */
  function EscalationSteps(h: Hash, r: HTTPResult, e: Env, p: nat): seq<AlertRace.Step> {
    [AlertRace.Begin(p), AlertRace.Increment(p, e.increment)]
    + if !e.increment || h.count + 1 < ALERT_THRESHOLD then [] else DecisionSteps(h, r, e, p)
  }

  function DecisionSteps(h: Hash, r: HTTPResult, e: Env, p: nat): seq<AlertRace.Step> {
    [AlertRace.SetIfUnset(p, e.setnx)]
    + if !e.setnx || h.alerted then []
      else RaiseSteps(r, e, p)
  }

  function RaiseSteps(r: HTTPResult, e: Env, p: nat): seq<AlertRace.Step> {
    [AlertRace.NoteRow(p, e.mark), AlertRace.InsertRow(p, e.insert && Storable(r))] + [AlertRace.Send(p)]
  }

  function FailureSteps(m: Mon, r: HTTPResult, e: Env, p: nat): seq<AlertRace.Step>
    requires ValidEnv(e)
  {
    if IsTerminal(r) || !PastRetries(m, r, e) then [] else EscalationSteps(m.hash, r, e, p)
  }

  function SuccessSteps(m: Mon, e: Env, now: int, p: nat): seq<AlertRace.Step> {
    [AlertRace.Recover(p), AlertRace.Get(p, e.get)]
    + if e.get then RecoverySteps(m, e, now, p) else []
  }

  function RecoverySteps(m: Mon, e: Env, now: int, p: nat): seq<AlertRace.Step> {
    if m.hash.db then [AlertRace.Close(p, e.close && Closable(m.rows, now)), AlertRace.Clear(p, e.clearIncident)]
    else [AlertRace.Clear(p, e.clearIncident)]
  }

  function StepsOf(m: Mon, v: Event, p: nat): seq<AlertRace.Step>
    requires ValidEvent(v)
  {
    match v
    case Failure(r, e, _) => FailureSteps(m, r, e, p)
    case Success(_, e, now) => SuccessSteps(m, e, now, p)
    case RetryExpires => []
    case Disable => [AlertRace.Disable]
  }

  // ---- One handler ---------------------------------------------------------------------------

  ghost predicate Leads(s: AlertRace.Race, sts: seq<AlertRace.Step>, t: AlertRace.Race) {
    exists ss :: AlertRace.IsRun(ss, sts) && ss[0] == s && ss[|sts|] == t
  }

  lemma LeadsOn(s: AlertRace.Race, sts: seq<AlertRace.Step>, t: AlertRace.Race,
                more: seq<AlertRace.Step>, u: AlertRace.Race)
    requires Leads(s, sts, t) && Leads(t, more, u)
    ensures Leads(s, sts + more, u)
  {
    var a :| AlertRace.IsRun(a, sts) && a[0] == s && a[|sts|] == t;
    var b :| AlertRace.IsRun(b, more) && b[0] == t && b[|more|] == u;
    var all, steps := a + b[1..], sts + more;
    forall i | 0 <= i < |steps|
      ensures AlertRace.Can(all[i], steps[i]) && all[i + 1] == AlertRace.Do(all[i], steps[i])
    {
      if i >= |sts| { assert all[i] == b[i - |sts|] && steps[i] == more[i - |sts|]; }
    }
    assert AlertRace.IsRun(all, steps);
  }

  lemma LeadsNowhere(s: AlertRace.Race)
    ensures Leads(s, [], s)
  {
    assert AlertRace.IsRun([s], []);
  }

  lemma LeadsOne(s: AlertRace.Race, a: AlertRace.Step)
    requires AlertRace.Can(s, a)
    ensures Leads(s, [a], AlertRace.Do(s, a))
  {
    assert AlertRace.IsRun([s, AlertRace.Do(s, a)], [a]);
  }

  lemma LeadsTwo(s: AlertRace.Race, a: AlertRace.Step, b: AlertRace.Step)
    requires AlertRace.Can(s, a) && AlertRace.Can(AlertRace.Do(s, a), b)
    ensures Leads(s, [a, b], AlertRace.Do(AlertRace.Do(s, a), b))
  {
    var t := AlertRace.Do(s, a);
    assert AlertRace.IsRun([s, t, AlertRace.Do(t, b)], [a, b]);
  }

  /** Whether the commands have raised an alert. */
  predicate Alerted(s: AlertRace.Race, t: AlertRace.Race, alert: bool) {
    |t.sent| == |s.sent| + if alert then 1 else 0
  }

  /** From the increment's reply on. */
  lemma DecisionPath(s: AlertRace.Race, p: nat, m: Mon, r: HTTPResult, e: Env, now: int) returns (t: AlertRace.Race)
    requires p in s.workers && s.workers[p].Counted? && Matches(s, m)
    ensures Leads(s, DecisionSteps(m.hash, r, e, p), t) && t.workers == s.workers - {p}
    ensures var alert := e.setnx && !m.hash.alerted;
            Matches(t, if alert then Raised(m, r, e, now) else m) && Alerted(s, t, alert)
  {
    LeadsOne(s, AlertRace.SetIfUnset(p, e.setnx));
    t := AlertRace.Do(s, AlertRace.SetIfUnset(p, e.setnx));
    if e.setnx && !m.hash.alerted {
      var s1 := t;
      t := RaisePath(s1, p, m.(hash := m.hash.(alerted := true)), r, e, now);
      LeadsOn(s, [AlertRace.SetIfUnset(p, e.setnx)], s1, RaiseSteps(r, e, p), t);
    }
  }

  /** From a won flag on. */
  lemma RaisePath(s: AlertRace.Race, p: nat, m: Mon, r: HTTPResult, e: Env, now: int) returns (t: AlertRace.Race)
    requires p in s.workers && s.workers[p].Won? && Matches(s, m) && m.hash.alerted
    ensures Leads(s, RaiseSteps(r, e, p), t) && t.workers == s.workers - {p}
    ensures Matches(t, Raised(m, r, e, now)) && Alerted(s, t, true)
  {
    var note, insert := AlertRace.NoteRow(p, e.mark), AlertRace.InsertRow(p, e.insert && Storable(r));
    OpenCountInsert(m.rows, now);
    LeadsTwo(s, note, insert);
    var s2 := AlertRace.Do(AlertRace.Do(s, note), insert);
    LeadsOne(s2, AlertRace.Send(p));
    t := AlertRace.Do(s2, AlertRace.Send(p));
    LeadsOn(s, [note, insert], s2, [AlertRace.Send(p)], t);
  }

  lemma EscalationPath(s: AlertRace.Race, p: nat, m: Mon, r: HTTPResult, e: Env, now: int) returns (t: AlertRace.Race)
    requires p !in s.workers && Matches(s, m)
    ensures Leads(s, EscalationSteps(m.hash, r, e, p), t) && t.workers == s.workers
    ensures Matches(t, Escalate(m, r, e, now).mon) && Alerted(s, t, Escalate(m, r, e, now).alert)
  {
    var s2 := CountPath(s, p, m, e);
    if !e.increment || m.hash.count + 1 < ALERT_THRESHOLD {
      t := s2;
    } else {
      t := DecisionPath(s2, p, m.(hash := m.hash.(count := m.hash.count + 1)), r, e, now);
      LeadsOn(s, [AlertRace.Begin(p), AlertRace.Increment(p, e.increment)], s2, DecisionSteps(m.hash, r, e, p), t);
    }
  }

  /** Up to the increment's reply. */
  lemma CountPath(s: AlertRace.Race, p: nat, m: Mon, e: Env) returns (t: AlertRace.Race)
    requires p !in s.workers && Matches(s, m)
    ensures Leads(s, [AlertRace.Begin(p), AlertRace.Increment(p, e.increment)], t)
    ensures Matches(t, if e.increment then m.(hash := m.hash.(count := m.hash.count + 1)) else m)
    ensures t.workers - {p} == s.workers && t.sent == s.sent
    ensures if e.increment && m.hash.count + 1 >= ALERT_THRESHOLD
            then p in t.workers && t.workers[p].Counted? else t.workers == s.workers
  {
    LeadsTwo(s, AlertRace.Begin(p), AlertRace.Increment(p, e.increment));
    t := AlertRace.Do(AlertRace.Do(s, AlertRace.Begin(p)), AlertRace.Increment(p, e.increment));
  }

  /** A failure handler's commands, run alone, end in the hash, the open rows and the alert of
      the handler as one step. */
  lemma FailurePath(s: AlertRace.Race, p: nat, m: Mon, r: HTTPResult, e: Env, now: int) returns (t: AlertRace.Race)
    requires ValidEnv(e) && p !in s.workers && Matches(s, m)
    ensures Leads(s, FailureSteps(m, r, e, p), t) && t.workers == s.workers
    ensures Matches(t, OnFailure(m, r, e, now).mon) && Alerted(s, t, OnFailure(m, r, e, now).alert)
  {
    if IsTerminal(r) || !PastRetries(m, r, e) {
      t := s;
      LeadsNowhere(s);
    } else {
      t := EscalationPath(s, p, m, r, e, now);
    }
  }

  /** The same of a success handler. */
  lemma SuccessPath(s: AlertRace.Race, p: nat, m: Mon, r: HTTPResult, e: Env, now: int) returns (t: AlertRace.Race)
    requires p !in s.workers && Matches(s, m)
    ensures Leads(s, SuccessSteps(m, e, now, p), t) && t.workers == s.workers
    ensures Matches(t, OnSuccess(m, r, e, now).mon) && Alerted(s, t, false)
  {
    LeadsTwo(s, AlertRace.Recover(p), AlertRace.Get(p, e.get));
    t := AlertRace.Do(AlertRace.Do(s, AlertRace.Recover(p)), AlertRace.Get(p, e.get));
    if e.get {
      var s2 := t;
      t := RecoveryPath(s2, p, m, r, e, now);
      LeadsOn(s, [AlertRace.Recover(p), AlertRace.Get(p, e.get)], s2, RecoverySteps(m, e, now, p), t);
    }
  }

  /** From the hash's reply on. */
  lemma RecoveryPath(s: AlertRace.Race, p: nat, m: Mon, r: HTTPResult, e: Env, now: int) returns (t: AlertRace.Race)
    requires e.get && Matches(s, m)
    requires p in s.workers && s.workers[p] == if m.hash.db then AlertRace.Closing else AlertRace.Clearing
    ensures Leads(s, RecoverySteps(m, e, now, p), t) && t.workers == s.workers - {p}
    ensures Matches(t, OnSuccess(m, r, e, now).mon) && t.sent == s.sent
  {
    var clear := AlertRace.Clear(p, e.clearIncident);
    if m.hash.db {
      ClosesEveryOpenRow(m.rows, now, now);
      OpenCountClosed(CloseAll(m.rows, now));
      var close := AlertRace.Close(p, e.close && Closable(m.rows, now));
      LeadsTwo(s, close, clear);
      t := AlertRace.Do(AlertRace.Do(s, close), clear);
    } else {
      t := AlertRace.Do(s, clear);
      assert AlertRace.IsRun([s, t], [clear]);
    }
  }

  // ---- Whole histories -----------------------------------------------------------------------

  lemma EventPath(s: AlertRace.Race, p: nat, m: Mon, v: Event) returns (t: AlertRace.Race)
    requires ValidEvent(v) && p !in s.workers && Matches(s, m)
    ensures Leads(s, StepsOf(m, v, p), t) && t.workers == s.workers
    ensures Matches(t, Step(m, v).mon) && Alerted(s, t, Step(m, v).alert)
  {
    match v
    case Failure(r, e, now) => t := FailurePath(s, p, m, r, e, now);
    case Success(r, e, now) => t := SuccessPath(s, p, m, r, e, now);
    case RetryExpires => t := s; LeadsNowhere(s);
    case Disable =>
      t := AlertRace.Do(s, AlertRace.Disable);
      assert AlertRace.IsRun([s, t], [AlertRace.Disable]);
  }

  /** The commands of a whole history, one handler after the other. */
  function HistorySteps(h: seq<Event>): seq<AlertRace.Step>
    requires Valid(h)
  {
    if h == [] then []
    else HistorySteps(h[..|h| - 1]) + StepsOf(After(h[..|h| - 1]), h[|h| - 1], 0)
  }

  /** Every history of handlers, whatever fails in it, is a run of their commands with the same
      hash, as many open rows and as many alerts: what holds of every run of commands holds of
      every history of handlers. */
  lemma {:induction false} HistoryIsARun(h: seq<Event>) returns (t: AlertRace.Race)
    requires Valid(h)
    ensures Leads(AlertRace.INIT, HistorySteps(h), t) && t.workers == map[]
    ensures Matches(t, After(h)) && |t.sent| == Alerts(h)
  {
    if h == [] {
      t := AlertRace.INIT;
      LeadsNowhere(t);
    } else {
      var init := h[..|h| - 1];
      var s := HistoryIsARun(init);
      t := EventPath(s, 0, After(init), h[|h| - 1]);
      LeadsOn(AlertRace.INIT, HistorySteps(init), s, StepsOf(After(init), h[|h| - 1], 0), t);
    }
  }
}
