/**
 What the two counters, the alert flag and the incident rows amount to over whole histories
 of one monitor, with each handler as one step.
*/
module IncidentHistory {
  import opened SortedSet
  import opened Executor
  import opened Incidents
  import opened RedisStore

  datatype Event =
    | Failure(r: HTTPResult, e: Env, now: int)
    | Success(r: HTTPResult, e: Env, now: int)
    | RetryExpires                              // the TTL of the retry counter
    | Disable                                   // the ClearIncident of disableMonitor

  predicate ValidEvent(v: Event) { v.Failure? ==> ValidEnv(v.e) }

  function Step(s: Mon, v: Event): Outcome
    requires ValidEvent(v)
  {
    match v
    case Failure(r, e, now) => OnFailure(s, r, e, now)
    case Success(r, e, now) => OnSuccess(s, r, e, now)
    case RetryExpires => Outcome(s.(retry := 0), false, [])
    case Disable => Outcome(s.(hash := NO_HASH), false, [])
  }

  predicate Valid(h: seq<Event>) { forall v | v in h :: ValidEvent(v) }

  function After(h: seq<Event>): Mon
    requires Valid(h)
  {
    if h == [] then CLEAN else Step(After(h[..|h| - 1]), h[|h| - 1]).mon
  }

  function Alerts(h: seq<Event>): nat
    requires Valid(h)
  {
    if h == [] then 0
    else Alerts(h[..|h| - 1]) + if Step(After(h[..|h| - 1]), h[|h| - 1]).alert then 1 else 0
  }

  /** Every Redis command of the handler succeeds; the row insert may fail. */
  predicate Reliable(e: Env) {
    && ValidEnv(e) && e.retryCalls[0].Counted? && e.clearRetry && e.increment && e.setnx && e.mark
    && e.get && e.clearIncident
  }

  // ---- The two-counter machine -------------------------------------------------------------

  /** Three retryable failures weigh as much as one that is not retryable; terminal ones nothing. */
  function Weight(r: HTTPResult): nat {
    if IsTerminal(r) then 0 else if r.retryable then 1 else 3
  }

  function TotalWeight(h: seq<Event>): nat {
    if h == [] then 0
    else TotalWeight(h[..|h| - 1]) + if h[|h| - 1].Failure? then Weight(h[|h| - 1].r) else 0
  }

  const ALERT_WEIGHT := 9

  /** The counters encode the weight `w` in base three, and the flag says it has reached nine. */
  predicate Encodes(s: Mon, w: nat) {
    3 * s.hash.count + s.retry == w && s.retry <= 2 && (s.hash.alerted <==> w >= ALERT_WEIGHT)
  }

  /** One reliable failure adds its weight, and alerts exactly when it carries the total past nine. */
  lemma FailureAddsWeight(s: Mon, r: HTTPResult, e: Env, now: int, w: nat)
    requires Reliable(e) && Encodes(s, w)
    ensures Encodes(OnFailure(s, r, e, now).mon, w + Weight(r))
    ensures OnFailure(s, r, e, now).alert <==> w < ALERT_WEIGHT <= w + Weight(r)
  {
  }

  predicate FailuresOnly(h: seq<Event>) {
    forall v | v in h :: v.Failure? && Reliable(v.e)
  }

  /** Closed form: over reliable failures alone, 3 * failure_count + retry is the total weight,
      and there is exactly one alert if it has reached nine, else none. */
  lemma {:induction false} ClosedForm(h: seq<Event>)
    requires FailuresOnly(h)
    ensures Valid(h)
    ensures Encodes(After(h), TotalWeight(h))
    ensures Alerts(h) == if TotalWeight(h) >= 9 then 1 else 0
  {
    if h != [] {
      var init, v := h[..|h| - 1], h[|h| - 1];
      ClosedForm(init);
      FailureAddsWeight(After(init), v.r, v.e, v.now, TotalWeight(init));
    }
  }

  /** With the retry counter expiring at any time, the counters never run ahead of the weight:
      no alert comes before weight nine, and there is at most one. */
  lemma {:induction false} ExpiryOnlyDelays(h: seq<Event>)
    requires forall v | v in h :: v.RetryExpires? || (v.Failure? && Reliable(v.e))
    ensures Valid(h)
    ensures var s := After(h);
            && 3 * s.hash.count + s.retry <= TotalWeight(h) && s.retry <= 2
            && (s.hash.alerted <==> s.hash.count >= ALERT_THRESHOLD)
            && Alerts(h) == (if s.hash.alerted then 1 else 0)
            && (Alerts(h) == 1 ==> TotalWeight(h) >= 9)
  {
    if h != [] { ExpiryOnlyDelays(h[..|h| - 1]); }
  }

  /** IncrementRetry runs INCR again after an EXPIRE error, so one failure can count twice. */
  lemma ExpireErrorCountsTwice(count: nat)
    ensures var (n, reply) := IncrementRetry(count, [ExpireFailed(false), Counted], 2);
            n == count + 2 && reply.Some? && reply.value == n
  {
  }

  /** It does delay: after weight eight another retryable failure alerts, unless the counter has
      expired before it. */
  lemma ExpiryDelaysAnAlert(h: seq<Event>, r: HTTPResult, e: Env, now: int)
    requires FailuresOnly(h) && TotalWeight(h) == 8 && Reliable(e) && r.retryable && !IsTerminal(r)
    ensures Valid(h + [RetryExpires, Failure(r, e, now)]) && Valid(h + [Failure(r, e, now)])
    ensures Alerts(h + [Failure(r, e, now)]) == 1
    ensures Alerts(h + [RetryExpires, Failure(r, e, now)]) == 0
  {
    var v := Failure(r, e, now);
    ClosedForm(h);
    FailureAddsWeight(After(h), r, e, now, 8);
    assert (h + [v])[..|h|] == h && (h + [v])[|h|] == v;
    var late := h + [RetryExpires];
    assert late[..|h|] == h && (late + [v])[..|late|] == late && h + [RetryExpires, v] == late + [v];
    assert After(late) == After(h).(retry := 0);
  }

  /** One failure moves the counter twice exactly when the first EXPIRE fails, the context is not
      cancelled, and the second INCR succeeds; it moves it not at all exactly when no INCR did. */
  lemma CountsOnceUnless(count: nat, calls: seq<RetryCall>)
    requires |calls| >= 2
    ensures var n := IncrementRetry(count, calls, 2).0;
            && (n == count + 2 <==> calls[0] == ExpireFailed(false) && !calls[1].IncrFailed?)
            && (n == count <==> calls[0].IncrFailed? && (calls[0].cancelled || calls[1].IncrFailed?))
            && count <= n <= count + 2
  {
    if !calls[0].Counted? && !calls[0].cancelled {
      var moved := if calls[0].ExpireFailed? then count + 1 else count;
      assert IncrementRetry(count, calls, 2) == IncrementRetry(moved, calls[1..], 1);
    }
  }

  /** Whatever fails, IncrementRetry moves the counter by at most its attempts, replies with the
      counter it left, and counts at most once unless an EXPIRE failed. */
  lemma {:induction false} IncrementRetryBound(count: nat, calls: seq<RetryCall>, attempts: nat)
    requires |calls| >= attempts
    ensures var (n, reply) := IncrementRetry(count, calls, attempts);
            && count <= n <= count + attempts
            && (reply.Some? ==> reply.value == n > count)
            && ((forall i | 0 <= i < attempts :: !calls[i].ExpireFailed?) ==>
                  n == if reply.Some? then count + 1 else count)
    decreases attempts
  {
    if attempts > 0 && !calls[0].Counted? {
      IncrementRetryBound(if calls[0].ExpireFailed? then count + 1 else count, calls[1..], attempts - 1);
    }
  }

  // ---- Whole histories -----------------------------------------------------------------------

  /** The history cut at its successes. */
  function Segments(h: seq<Event>): (segs: seq<seq<Event>>)
    ensures |segs| > 0
  {
    if h == [] then [[]] else Extended(Segments(h[..|h| - 1]), h[|h| - 1])
  }

  /** A success starts a new segment; any other event extends the last. */
  function Extended(segs: seq<seq<Event>>, v: Event): (more: seq<seq<Event>>)
    requires |segs| > 0
    ensures |more| > 0
  {
    if v.Success? then segs + [[]] else segs[..|segs| - 1] + [segs[|segs| - 1] + [v]]
  }

  /** How many segments reach the alert weight. */
  function HeavySegments(segs: seq<seq<Event>>): nat {
    if segs == [] then 0
    else HeavySegments(segs[..|segs| - 1]) + if TotalWeight(segs[|segs| - 1]) >= ALERT_WEIGHT then 1 else 0
  }

  predicate ReliableHistory(h: seq<Event>) {
    forall v | v in h :: (v.Failure? || v.Success?) && Reliable(v.e)
  }

  /** The machine agrees with the segments so far: it encodes the weight of the last, and has
      alerted once for each heavy one. */
  predicate Tallies(s: Mon, alerts: nat, segs: seq<seq<Event>>) {
    |segs| > 0 && Encodes(s, TotalWeight(segs[|segs| - 1])) && alerts == HeavySegments(segs)
  }

  lemma TalliesFailure(s: Mon, alerts: nat, segs: seq<seq<Event>>, v: Event)
    requires Tallies(s, alerts, segs) && v.Failure? && Reliable(v.e)
    ensures var o, n := OnFailure(s, v.r, v.e, v.now), |segs| - 1;
            Tallies(o.mon, alerts + (if o.alert then 1 else 0), segs[..n] + [segs[n] + [v]])
  {
    var n := |segs| - 1;
    var last := segs[n];
    FailureAddsWeight(s, v.r, v.e, v.now, TotalWeight(last));
    assert (last + [v])[..|last|] == last;
    assert (segs[..n] + [last + [v]])[..n] == segs[..n];
  }

  lemma TalliesSuccess(s: Mon, alerts: nat, segs: seq<seq<Event>>, v: Event)
    requires Tallies(s, alerts, segs) && v.Success? && Reliable(v.e)
    ensures var o := OnSuccess(s, v.r, v.e, v.now); !o.alert && Tallies(o.mon, alerts, segs + [[]])
  {
    assert (segs + [[]])[..|segs|] == segs;
  }

  lemma TalliesNext(s: Mon, alerts: nat, segs: seq<seq<Event>>, v: Event)
    requires Tallies(s, alerts, segs) && (v.Failure? || v.Success?) && Reliable(v.e)
    ensures var o := Step(s, v); Tallies(o.mon, alerts + (if o.alert then 1 else 0), Extended(segs, v))
  {
    if v.Success? { TalliesSuccess(s, alerts, segs, v); } else { TalliesFailure(s, alerts, segs, v); }
  }

  lemma {:induction false} TalliesHistory(h: seq<Event>)
    requires Valid(h) && forall i | 0 <= i < |h| :: (h[i].Failure? || h[i].Success?) && Reliable(h[i].e)
    ensures Tallies(After(h), Alerts(h), Segments(h))
  {
    if h == [] {
      assert Segments(h)[..0] == [];
    } else {
      var init := h[..|h| - 1];
      TalliesHistory(init);
      TalliesNext(After(init), Alerts(init), Segments(init), h[|h| - 1]);
    }
  }

  /** Over a whole history the alerts of a monitor are the success-free segments whose weight
      reaches nine, because every success clears both counters and the flag. */
  lemma AlertsAreHeavySegments(h: seq<Event>)
    requires ReliableHistory(h)
    ensures Valid(h)
    ensures Encodes(After(h), TotalWeight(Segments(h)[|Segments(h)| - 1]))
    ensures Alerts(h) == HeavySegments(Segments(h))
  {
    TalliesHistory(h);
  }

  // ---- Incident rows ---------------------------------------------------------------------------

  predicate HasOpen(rows: seq<Row>) { exists i :: 0 <= i < |rows| && IsOpen(rows[i]) }

  /** At most one open row; an open row implies both flags; every row started by `t`, and a
      closed one ended no earlier than it started. */
  predicate RowsAgree(s: Mon, t: int) {
    && (forall i, j | 0 <= i < j < |s.rows| :: !(IsOpen(s.rows[i]) && IsOpen(s.rows[j])))
    && (HasOpen(s.rows) ==> s.hash.alerted && s.hash.db)
    && (forall i | 0 <= i < |s.rows| :: s.rows[i].start <= t)
    && (forall i | 0 <= i < |s.rows| && !IsOpen(s.rows[i]) :: s.rows[i].start <= s.rows[i].end.value)
  }

  /** The failure goes past its retry budget, if it has one. */
  predicate PastRetries(s: Mon, r: HTTPResult, e: Env)
    requires ValidEnv(e)
  {
    r.retryable ==>
      var (_, reply) := IncrementRetry(s.retry, e.retryCalls, 2);
      reply.Some? && reply.value > 2
  }

  /** The guards on the way to an alert. */
  predicate WinsAlert(s: Mon, r: HTTPResult, e: Env)
    requires ValidEnv(e)
  {
    && !IsTerminal(r) && PastRetries(s, r, e)
    && e.increment && s.hash.count + 1 >= 3 && e.setnx && !s.hash.alerted
  }

  /** A step orphans a row: it leaves one open without the flags that would get it closed. */
  predicate Orphans(s: Mon, v: Event)
    requires ValidEvent(v)
  {
    match v
    case Failure(r, e, now) => WinsAlert(s, r, e) && e.insert && Storable(r) && !e.mark && !s.hash.db
    case Success(_, e, _) => HasOpen(s.rows) && e.get && e.clearIncident && !e.close
    case Disable => HasOpen(s.rows)
    case RetryExpires => false
  }

  predicate NotBefore(v: Event, t: int) {
    v.Failure? || v.Success? ==> t <= v.now
  }

  function TimeOf(v: Event, t: int): int {
    if v.Failure? || v.Success? then v.now else t
  }

  lemma RowsAfterInsert(s: Mon, now: int)
    requires !HasOpen(s.rows)
    ensures HasOpen(s.rows + [Row(now, None)])
    ensures forall i, j | 0 <= i < j < |s.rows| + 1 ::
              !(IsOpen((s.rows + [Row(now, None)])[i]) && IsOpen((s.rows + [Row(now, None)])[j]))
  {
    assert IsOpen((s.rows + [Row(now, None)])[|s.rows|]);
  }

  /** A failure either raises an alert, under exactly those guards, or leaves rows and flags. */
  lemma FailureCases(s: Mon, r: HTTPResult, e: Env, now: int)
    requires ValidEnv(e)
    ensures var o := OnFailure(s, r, e, now);
            && (o.alert <==> WinsAlert(s, r, e))
            && (!o.alert ==> o.mon.rows == s.rows && o.mon.hash == s.hash.(count := o.mon.hash.count))
            && (o.alert ==>
                  && o.mon.rows == s.rows + (if e.insert && 100 <= r.status <= 599 && r.latency >= 0
                                             then [Row(now, None)] else [])
                  && o.mon.hash == Hash(s.hash.count + 1, true, s.hash.db || e.mark))
  {
  }

  lemma RaisedRows(s: Mon, r: HTTPResult, e: Env, now: int, t: int)
    requires RowsAgree(s, t) && t <= now && !s.hash.alerted
    ensures RowsAgree(Raised(s, r, e, now), now) <==> !(e.insert && Storable(r) && !e.mark && !s.hash.db)
  {
    if e.insert && Storable(r) { RowsAfterInsert(s, now); }
  }

  /** Agreement depends on the rows and the two flags alone, and lasts. */
  lemma RowsSame(s: Mon, s': Mon, t: int)
    requires s'.rows == s.rows && s'.hash.alerted == s.hash.alerted && s'.hash.db == s.hash.db
    ensures RowsAgree(s', t) <==> RowsAgree(s, t)
  {
  }

  lemma FailureRows(s: Mon, r: HTTPResult, e: Env, now: int, t: int)
    requires ValidEnv(e) && RowsAgree(s, t) && t <= now
    ensures RowsAgree(OnFailure(s, r, e, now).mon, now) <==> !Orphans(s, Failure(r, e, now))
  {
    var o := OnFailure(s, r, e, now);
    FailureCases(s, r, e, now);
    if o.alert {
      RaisedRows(s, r, e, now, t);
      RowsSame(Raised(s, r, e, now), o.mon, now);
    } else {
      assert RowsAgree(s, now);
      RowsSame(s, o.mon, now);
    }
  }

  lemma SuccessRows(s: Mon, r: HTTPResult, e: Env, now: int, t: int)
    requires RowsAgree(s, t) && t <= now
    ensures RowsAgree(OnSuccess(s, r, e, now).mon, now) <==> !Orphans(s, Success(r, e, now))
    ensures e.get && e.close ==> !HasOpen(OnSuccess(s, r, e, now).mon.rows)
  {
    assert Closable(s.rows, now);
    if HasOpen(s.rows) {
      var i :| 0 <= i < |s.rows| && IsOpen(s.rows[i]);
      assert !e.close ==> IsOpen(OnSuccess(s, r, e, now).mon.rows[i]);
    }
  }

  /** The rows agree with Redis after a step exactly when the step orphans no row. */
  lemma RowsStep(s: Mon, v: Event, t: int)
    requires ValidEvent(v) && RowsAgree(s, t) && NotBefore(v, t)
    ensures RowsAgree(Step(s, v).mon, TimeOf(v, t)) <==> !Orphans(s, v)
  {
    match v
    case Failure(r, e, now) => FailureRows(s, r, e, now, t);
    case Success(r, e, now) => SuccessRows(s, r, e, now, t);
    case _ =>
  }

  /** The latest reading of the clock in a history that starts at `t0`. */
  function Clock(h: seq<Event>, t0: int): int {
    if h == [] then t0 else TimeOf(h[|h| - 1], Clock(h[..|h| - 1], t0))
  }

  predicate ClockOk(h: seq<Event>, t0: int) {
    forall i | 0 <= i < |h| :: NotBefore(h[i], Clock(h[..i], t0))
  }

  /** Over every history without a disable in which Redis commands and closes succeed and
      inserts may fail, the rows agree with Redis, and a success leaves none open. */
  lemma {:induction false} RowsAlwaysAgree(h: seq<Event>, t0: int)
    requires ClockOk(h, t0)
    requires forall v | v in h :: v.RetryExpires? || ((v.Failure? || v.Success?) && Reliable(v.e) && v.e.close)
    ensures Valid(h) && RowsAgree(After(h), Clock(h, t0))
    ensures h != [] && h[|h| - 1].Success? ==> !HasOpen(After(h).rows)
  {
    if h != [] {
      var init, v := h[..|h| - 1], h[|h| - 1];
      forall i | 0 <= i < |init| ensures NotBefore(init[i], Clock(init[..i], t0)) {
        assert init[..i] == h[..i];
      }
      RowsAlwaysAgree(init, t0);
      RowsStep(After(init), v, Clock(init, t0));
      if v.Success? { SuccessRows(After(init), v.r, v.e, v.now, Clock(init, t0)); }
    }
  }

  /** A check that got no response can alert but never leaves a row: its status is outside the
      table's range, so the flag db_incident is set with nothing to close. */
  lemma NoRowWithoutAResponse(s: Mon, target: Target, reply: Reply, e: Env, now: int)
    requires ValidEnv(e) && !reply.Response?
    ensures OnFailure(s, Check(target, reply), e, now).mon.rows == s.rows
  {
    ResultShapes(target, reply);
  }

  /** Three failures that are neither terminal nor retryable, at any times. */
  function PlainFailures(r: HTTPResult, e: Env, first: int, second: int, third: int): seq<Event> {
    [Failure(r, e, first), Failure(r, e, second), Failure(r, e, third)]
  }

  lemma ThreePlainFailures(r: HTTPResult, e: Env, first: int, second: int, third: int)
    requires !IsTerminal(r) && !r.retryable && Storable(r) && Reliable(e) && e.insert
    ensures var h := PlainFailures(r, e, first, second, third);
            && FailuresOnly(h) && Valid(h) && TotalWeight(h) == 9 && Alerts(h) == 1
            && After(h) == Mon(0, Hash(3, true, true), [Row(third, None)])
  {
    var h1, h2 := [Failure(r, e, first)], [Failure(r, e, first), Failure(r, e, second)];
    var h3 := PlainFailures(r, e, first, second, third);
    assert h1[..0] == [] && h2[..1] == h1 && h3[..2] == h2;
    assert After(h1) == CLEAN.(hash := Hash(1, false, false)) && TotalWeight(h1) == 3;
    assert After(h2) == CLEAN.(hash := Hash(2, false, false)) && TotalWeight(h2) == 6;
    assert TotalWeight(h3) == 9;
    ClosedForm(h3);
  }

  /** A disable is one way to lose the agreement: after three plain failures it deletes the
      flags over the open row. */
  lemma DisableOrphansARow(r: HTTPResult, e: Env)
    requires !IsTerminal(r) && !r.retryable && Storable(r) && Reliable(e) && e.insert
    ensures var h := PlainFailures(r, e, 0, 0, 0);
            && Valid(h + [Disable]) && RowsAgree(After(h), 0) && Orphans(After(h), Disable)
            && !RowsAgree(After(h + [Disable]), 0)
  {
    var h := PlainFailures(r, e, 0, 0, 0);
    ThreePlainFailures(r, e, 0, 0, 0);
    assert (h + [Disable])[..3] == h;
    assert IsOpen(After(h).rows[0]);
  }

  // ---- When each row starts and ends ------------------------------------------------------------

  /** A step appends one open row that starts now, with an alert; or it is a success that closes
      every open row now, each at or after its start; or it leaves the rows alone. */
  lemma RowsChange(s: Mon, v: Event)
    requires ValidEvent(v)
    ensures var o, n := Step(s, v), |s.rows|;
            || o.mon.rows == s.rows
            || (v.Failure? && o.alert && o.mon.rows == s.rows + [Row(v.now, None)])
            || (v.Success? && |o.mon.rows| == n &&
                forall i | 0 <= i < n ::
                  o.mon.rows[i] == s.rows[i] ||
                  (IsOpen(s.rows[i]) && o.mon.rows[i] == Row(s.rows[i].start, Some(v.now))
                   && s.rows[i].start <= v.now))
  {
    match v
    case Failure(r, e, now) => FailureCases(s, r, e, now);
    case Success(r, e, now) => ClosesEveryOpenRow(s.rows, now, now);
    case _ =>
  }

  /** The step at `a` alerted and added row `i`, which starts then. */
  predicate AddedAt(h: seq<Event>, a: nat, i: nat, start: int)
    requires Valid(h)
  {
    && a < |h| && h[a].Failure? && h[a].now == start
    && Step(After(h[..a]), h[a]).alert && |After(h[..a]).rows| == i
  }

  /** The step at `b` is a success that found row `i` open and ended it then. */
  predicate ClosedAt(h: seq<Event>, b: nat, i: nat, end: int)
    requires Valid(h)
  {
    && b < |h| && h[b].Success? && h[b].now == end
    && i < |After(h[..b]).rows| && IsOpen(After(h[..b]).rows[i])
  }

  lemma StaysRecorded(h: seq<Event>, v: Event, k: nat, i: nat, t: int)
    requires Valid(h) && ValidEvent(v) && k < |h|
    ensures Valid(h + [v])
    ensures AddedAt(h, k, i, t) ==> AddedAt(h + [v], k, i, t)
    ensures ClosedAt(h, k, i, t) ==> ClosedAt(h + [v], k, i, t)
  {
    assert (h + [v])[..k] == h[..k];
  }

  /** Over every history, whatever fails in it and whatever the clock does: each row starts at the
      time of the failure that alerted and added it; each closed row ends at the time of a later
      success that found it open, and never before its start. */
  lemma {:induction false} RowTimes(h: seq<Event>, i: nat) returns (a: nat, b: nat)
    requires Valid(h) && i < |After(h).rows|
    ensures AddedAt(h, a, i, After(h).rows[i].start)
    ensures var row := After(h).rows[i];
            row.end.Some? ==> a < b && ClosedAt(h, b, i, row.end.value) && row.start <= row.end.value
  {
    var n := |h| - 1;
    var init, v := h[..n], h[n];
    assert h == init + [v];
    RowsChange(After(init), v);
    if i < |After(init).rows| {
      a, b := RowTimes(init, i);
      StaysRecorded(init, v, a, i, After(h).rows[i].start);
      if After(h).rows[i] != After(init).rows[i] {
        b := n;
      } else if After(h).rows[i].end.Some? {
        StaysRecorded(init, v, b, i, After(h).rows[i].end.value);
      }
    } else {
      a, b := n, n;
    }
  }

  // ---- An outage from end to end -----------------------------------------------------------------

  const ALL_WELL := Env([Counted, Counted], true, true, true, true, true, true, true, true, true, [Done, Done, Done])

  /** Three answers with the wrong status and then a good one, with every command succeeding: one
      alert, and one row from the third answer to the good one. */
  lemma Outage(t: Target, code: int, elapsed: nat, first: int, second: int, third: int, last: int)
    requires 100 <= code <= 599 && code != t.expectedStatus && third <= last
    ensures var r, good := Check(t, Response(code, elapsed)), Check(t, Response(t.expectedStatus, 0));
            var down := PlainFailures(r, ALL_WELL, first, second, third);
            var h := down + [Success(good, ALL_WELL, last)];
            && FailuresOnly(down) && ReliableHistory(h) && Valid(h) && Alerts(down) == Alerts(h) == 1
            && After(h) == Mon(0, NO_HASH, [Row(third, Some(last))])
  {
    var r, good := Check(t, Response(code, elapsed)), Check(t, Response(t.expectedStatus, 0));
    ResultShapes(t, Response(code, elapsed));
    var down := PlainFailures(r, ALL_WELL, first, second, third);
    ThreePlainFailures(r, ALL_WELL, first, second, third);
    assert (down + [Success(good, ALL_WELL, last)])[..3] == down;
    ClosesEveryOpenRow(After(down).rows, last, last);
    assert CloseAll(After(down).rows, last) == [Row(third, Some(last))];
  }

  /** An expiry touches the retry counter alone; a disable deletes the hash and leaves the retry
      counter and the rows; neither alerts. */
  lemma OtherEvents(h: seq<Event>)
    requires Valid(h)
    ensures Valid(h + [RetryExpires]) && Valid(h + [Disable])
    ensures After(h + [RetryExpires]) == Mon(0, After(h).hash, After(h).rows)
    ensures After(h + [Disable]) == Mon(After(h).retry, Hash(0, false, false), After(h).rows)
    ensures Alerts(h + [RetryExpires]) == Alerts(h + [Disable]) == Alerts(h)
  {
    assert (h + [RetryExpires])[..|h|] == h && (h + [Disable])[..|h|] == h;
  }
}
