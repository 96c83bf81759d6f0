/**
 The result handlers: the retry counter, the incident hash, the incident rows and the alert
 channel, with each handler as one step. `OnFailure` and `OnSuccess` say what a handler does
 to one monitor; `ResultProcessor` is the code that does it.
*/
module Incidents {
  import opened SortedSet
  import opened Executor
  import opened RedisStore

  datatype Option<T> = None | Some(value: T)

  /** monitor:incident:<id>. A missing key reads as the hash with no field set. */
  datatype Hash = Hash(count: nat, alerted: bool, db: bool)
  const NO_HASH := Hash(0, false, false)

  datatype Row = Row(start: int, end: Option<int>)

  /** Everything the handlers keep about one monitor. */
  datatype Mon = Mon(retry: nat, hash: Hash, rows: seq<Row>)
  const CLEAN := Mon(0, NO_HASH, [])

  /** One attempt of IncrementRetry: INCR then EXPIRE. If only the EXPIRE fails, the counter
      has moved and the next attempt moves it again. */
  datatype RetryCall = Counted | IncrFailed(cancelled: bool) | ExpireFailed(cancelled: bool)

  /** Which commands of a handler succeed. The clears have no effect unless some attempt of
      theirs succeeds, so one flag says whether one did; `attempts` are those of Schedule. */
  datatype Env = Env(
    retryCalls: seq<RetryCall>, clearRetry: bool, increment: bool, setnx: bool, mark: bool, insert: bool,
    get: bool, close: bool, clearIncident: bool, ack: bool, attempts: seq<Attempt>)

  predicate ValidEnv(e: Env) { |e.retryCalls| >= 2 && |e.attempts| >= 3 }

  /** The Schedule call of the handler succeeds. */
  ghost predicate Added(e: Env) { Succeeds(e.attempts, 3) }

  /** The commands a handler sends to the two sorted sets, in order. */
  datatype Cmd = Ack | Schedule(delay: nat)

  datatype Outcome = Outcome(mon: Mon, alert: bool, cmds: seq<Cmd>)

  const RETRY_BUDGET := 2
  const ALERT_THRESHOLD := 3
  const RETRY_DELAY := 5000

  // ---- Specification -----------------------------------------------------------------------

  /** The counter and the reply of IncrementRetry with `attempts` attempts left. */
  function IncrementRetry(count: nat, calls: seq<RetryCall>, attempts: nat): (nat, Option<nat>)
    requires |calls| >= attempts
    decreases attempts
  {
    if attempts == 0 then (count, None)
    else match calls[0]
      case Counted => (count + 1, Some(count + 1))
      case IncrFailed(cancelled) =>
        if cancelled then (count, None) else IncrementRetry(count, calls[1..], attempts - 1)
      case ExpireFailed(cancelled) =>
        if cancelled then (count + 1, None) else IncrementRetry(count + 1, calls[1..], attempts - 1)
  }

  function Delay(r: HTTPResult): nat { 1000 * r.intervalSec }

  /** The monitor after a won HSETNX: flagged, marked and with its row, as far as each succeeds. */
  function Raised(s: Mon, r: HTTPResult, e: Env, now: int): Mon {
    s.(hash := s.hash.(alerted := true, db := s.hash.db || e.mark),
       rows := if e.insert && Storable(r) then s.rows + [Row(now, None)] else s.rows)
  }

  function Escalate(s: Mon, r: HTTPResult, e: Env, now: int): Outcome {
    var cmds := [Ack, Schedule(Delay(r))];
    if !e.increment then Outcome(s, false, cmds)
    else
      var h := s.hash.(count := s.hash.count + 1);
      if h.count < ALERT_THRESHOLD || !e.setnx || h.alerted then Outcome(s.(hash := h), false, cmds)
      else Outcome(Raised(s.(hash := h), r, e, now), true, cmds)
  }

  function OnFailure(s: Mon, r: HTTPResult, e: Env, now: int): Outcome
    requires ValidEnv(e)
  {
    if IsTerminal(r) then Outcome(s, false, [Ack])
    else if !r.retryable then Escalate(s, r, e, now)
    else
      var (count, reply) := IncrementRetry(s.retry, e.retryCalls, 2);
      match reply
      case None => Outcome(s.(retry := count), false, [Schedule(Delay(r)), Ack])
      case Some(n) =>
        if n <= RETRY_BUDGET then Outcome(s.(retry := count), false, [Schedule(RETRY_DELAY), Ack])
        else Escalate(s.(retry := if e.clearRetry then 0 else count), r, e, now)
  }

  predicate IsOpen(r: Row) { r.end.None? }

  /** UPDATE ... SET end_time = now WHERE end_time IS NULL, under CHECK (end_time >= start_time). */
  function CloseAll(rows: seq<Row>, now: int): seq<Row> {
    seq(|rows|, i requires 0 <= i < |rows| => if IsOpen(rows[i]) then rows[i].(end := Some(now)) else rows[i])
  }

  /** No row is open afterwards, every row that was closed is untouched and every other only
      gains the time of the close as its end, so that a second close changes nothing. */
  lemma ClosesEveryOpenRow(rows: seq<Row>, now: int, later: int)
    ensures var closed := CloseAll(rows, now);
            && |closed| == |rows|
            && (forall i | 0 <= i < |rows| :: !IsOpen(closed[i]) && closed[i].start == rows[i].start)
            && (forall i | 0 <= i < |rows| && IsOpen(rows[i]) :: closed[i].end == Some(now))
            && (forall i | 0 <= i < |rows| && !IsOpen(rows[i]) :: closed[i] == rows[i])
            && CloseAll(closed, later) == closed
  {
    var closed := CloseAll(rows, now);
    assert forall i | 0 <= i < |rows| :: !IsOpen(closed[i]);
    assert forall i | 0 <= i < |rows| :: CloseAll(closed, later)[i] == closed[i];
  }

  predicate Closable(rows: seq<Row>, now: int) {
    forall i | 0 <= i < |rows| && IsOpen(rows[i]) :: rows[i].start <= now
  }

  function OnSuccess(s: Mon, r: HTTPResult, e: Env, now: int): Outcome {
    var cmds := [Ack, Schedule(Delay(r))];
    if !e.get then Outcome(s, false, cmds)
    else
      var rows := if s.hash.db && e.close && Closable(s.rows, now) then CloseAll(s.rows, now) else s.rows;
      Outcome(Mon(if e.clearRetry then 0 else s.retry, if e.clearIncident then NO_HASH else s.hash, rows), false, cmds)
  }

  /** The schedule after a handler's commands for `m`, if its Schedule call succeeds (`ok`). */
  function Scheduled(z: ZSet, m: Id, cmds: seq<Cmd>, now: int, ok: bool): ZSet
    decreases |cmds|
  {
    if cmds == [] then z
    else Scheduled(if cmds[0].Schedule? && ok then z[m := now + cmds[0].delay] else z, m, cmds[1..], now, ok)
  }

  lemma ScheduledOne(z: ZSet, m: Id, cmd: Cmd, now: int, ok: bool)
    ensures Scheduled(z, m, [cmd], now, ok) == if cmd.Schedule? && ok then z[m := now + cmd.delay] else z
  {
    assert [cmd][1..] == [];
    var z' := if cmd.Schedule? && ok then z[m := now + cmd.delay] else z;
    assert Scheduled(z', m, [], now, ok) == z';
  }

  lemma {:induction false} ScheduledAppend(z: ZSet, m: Id, a: seq<Cmd>, b: seq<Cmd>, now: int, ok: bool)
    ensures Scheduled(z, m, a + b, now, ok) == Scheduled(Scheduled(z, m, a, now, ok), m, b, now, ok)
    decreases |a|
  {
    if a == [] {
      assert a + b == b;
    } else {
      assert (a + b)[1..] == a[1..] + b;
      ScheduledAppend(if a[0].Schedule? && ok then z[m := now + a[0].delay] else z, m, a[1..], b, now, ok);
    }
  }

  /** The deferred block: the ack, and the Schedule if the flag says so. */
  function Deferred(r: HTTPResult, reschedule: bool): seq<Cmd> {
    if reschedule then [Ack, Schedule(Delay(r))] else [Ack]
  }

  lemma DeferredSchedules(z: ZSet, m: Id, r: HTTPResult, reschedule: bool, now: int, ok: bool)
    ensures Scheduled(z, m, Deferred(r, reschedule), now, ok)
         == if reschedule && ok then z[m := now + Delay(r)] else z
  {
    ScheduledOne(z, m, Ack, now, ok);
    ScheduledOne(z, m, Schedule(Delay(r)), now, ok);
    if reschedule {
      assert Deferred(r, true) == [Ack] + [Schedule(Delay(r))];
      ScheduledAppend(z, m, [Ack], [Schedule(Delay(r))], now, ok);
    }
  }

  /** A retry is left: the failure is retryable and the counter's reply is within the budget. */
  predicate RetryLeft(s: Mon, r: HTTPResult, e: Env)
    requires ValidEnv(e)
  {
    r.retryable && var (_, reply) := IncrementRetry(s.retry, e.retryCalls, 2); reply.Some? && reply.value <= 2
  }

  /** Where a failure leaves the monitor's entry: untouched if it is terminal, five seconds ahead
      if a retry is left, one interval of the result ahead in every other case. */
  lemma FailureScheduledAt(z: ZSet, s: Mon, r: HTTPResult, e: Env, now: int, ok: bool)
    requires ValidEnv(e)
    ensures Scheduled(z, r.id, OnFailure(s, r, e, now).cmds, now, ok)
         == if IsTerminal(r) || !ok then z
            else z[r.id := now + if RetryLeft(s, r, e) then 5000 else 1000 * r.intervalSec]
  {
    var cmds := OnFailure(s, r, e, now).cmds;
    if IsTerminal(r) {
      ScheduledOne(z, r.id, Ack, now, ok);
    } else {
      PairScheduledAt(z, r.id, cmds, now, ok);
    }
  }

  /** An ack and a Schedule in either order. */
  lemma PairScheduledAt(z: ZSet, m: Id, cmds: seq<Cmd>, now: int, ok: bool)
    requires |cmds| == 2 && cmds[0].Ack? != cmds[1].Ack?
    ensures Scheduled(z, m, cmds, now, ok)
         == if ok then z[m := now + if cmds[0].Ack? then cmds[1].delay else cmds[0].delay] else z
  {
    assert cmds == [cmds[0]] + [cmds[1]];
    ScheduledAppend(z, m, [cmds[0]], [cmds[1]], now, ok);
    ScheduledOne(z, m, cmds[0], now, ok);
    ScheduledOne(Scheduled(z, m, [cmds[0]], now, ok), m, cmds[1], now, ok);
  }

  // ---- The handlers ------------------------------------------------------------------------

  class ResultProcessor {
    const store: Store
    var retry: map<Id, nat>        // monitor:retry:<id>
    var hashes: map<Id, Hash>      // monitor:incident:<id>
    var rows: map<Id, seq<Row>>    // monitor_incidents, by monitor
    var alertChan: seq<Id>

    constructor (store: Store)
      ensures this.store == store && alertChan == [] && forall m: Id :: View(m) == CLEAN
    {
      this.store := store;
      retry, hashes, rows, alertChan := map[], map[], map[], [];
    }

    /** What the store and the table hold about `m`. */
    function View(m: Id): Mon
      reads `retry, `hashes, `rows
    {
      Mon(if m in retry then retry[m] else 0,
          if m in hashes then hashes[m] else NO_HASH,
          if m in rows then rows[m] else [])
    }

    twostate predicate OthersSame(m: Id)
      reads `retry, `hashes, `rows
    {
      forall x: Id | x != m :: View(x) == old(View(x))
    }

    /** `IncrementRetry`: the attempts loop over INCR and EXPIRE. */
    method CountRetry(m: Id, calls: seq<RetryCall>) returns (reply: Option<nat>)
      requires |calls| >= 2
      modifies `retry
      ensures (View(m).retry, reply) == IncrementRetry(old(View(m)).retry, calls, 2)
      ensures View(m) == old(View(m)).(retry := View(m).retry) && OthersSame(m)
    {
      var i := 0;
      while i < 2
        invariant 0 <= i <= 2
        invariant IncrementRetry(View(m).retry, calls[i..], 2 - i) == IncrementRetry(old(View(m)).retry, calls, 2)
        invariant View(m) == old(View(m)).(retry := View(m).retry) && OthersSame(m)
      {
        assert calls[i..][1..] == calls[i + 1..];
        var call := calls[i];
        i := i + 1;
        if call.IncrFailed? {
          if call.cancelled { return None; }
        } else {
          retry := retry[m := (if m in retry then retry[m] else 0) + 1];
          if call.Counted? { return Some(retry[m]); }
          if call.cancelled { return None; }
        }
      }
      return None;
    }

    /** ScheduleMonitor: the Schedule call, under its attempts. */
    method Reschedule(m: Id, delay: nat, now: int, attempts: seq<Attempt>) returns (log: seq<Cmd>)
      requires |attempts| >= 3
      modifies store`schedule
      ensures log == [Schedule(delay)]
      ensures store.schedule == Scheduled(old(store.schedule), m, log, now, Succeeds(attempts, 3))
    {
      log := [Schedule(delay)];
      ScheduledOne(store.schedule, m, log[0], now, Succeeds(attempts, 3));
      var ok := store.Schedule(m, now + delay, attempts);
    }

    /** What follows a won HSETNX: the mark, the row and the alert. */
    method RaiseAlert(r: HTTPResult, e: Env, now: int)
      modifies `hashes, `rows, `alertChan
      ensures View(r.id) == Raised(old(View(r.id)), r, e, now) && OthersSame(r.id)
      ensures alertChan == old(alertChan) + [r.id]
    {
      var h := if r.id in hashes then hashes[r.id] else NO_HASH;
      h := h.(alerted := true);
      hashes := hashes[r.id := h];
      if e.mark { hashes := hashes[r.id := h.(db := true)]; }    // HSET db_incident true
      if e.insert && Storable(r) {
        rows := rows[r.id := (if r.id in rows then rows[r.id] else []) + [Row(now, None)]];
      }
      alertChan := alertChan + [r.id];
    }

    /** IncrementIncident and the alert decision. */
    method EscalateIncident(r: HTTPResult, e: Env, now: int)
      modifies `hashes, `rows, `alertChan
      ensures View(r.id) == Escalate(old(View(r.id)), r, e, now).mon && OthersSame(r.id)
      ensures alertChan == old(alertChan) + if Escalate(old(View(r.id)), r, e, now).alert then [r.id] else []
    {
      if !e.increment { return; }
      var h := if r.id in hashes then hashes[r.id] else NO_HASH;
      h := h.(count := h.count + 1);                             // HINCRBY failure_count 1
      hashes := hashes[r.id := h];
      if h.count < ALERT_THRESHOLD { return; }
      if !e.setnx || h.alerted { return; }                       // HSETNX alerted true
      RaiseAlert(r, e, now);
    }

    /** The retry case of handleFailure: it ends there, or clears the counter and goes on. */
    method RetryCase(r: HTTPResult, e: Env, now: int) returns (ended: bool, log: seq<Cmd>)
      requires ValidEnv(e) && !IsTerminal(r) && r.retryable
      modifies `retry, store`schedule
      ensures OthersSame(r.id)
      ensures store.schedule == Scheduled(old(store.schedule), r.id, log, now, Added(e))
      ensures var o := OnFailure(old(View(r.id)), r, e, now);
              if ended then o == Outcome(View(r.id), false, log + [Ack])
              else o == Escalate(View(r.id), r, e, now) && log == []
    {
      var reply := CountRetry(r.id, e.retryCalls);
      ended, log := true, [];
      if reply.None? {
        log := Reschedule(r.id, Delay(r), now, e.attempts);
      } else if reply.value <= RETRY_BUDGET {
        log := Reschedule(r.id, RETRY_DELAY, now, e.attempts);
      } else {
        ended := false;
        if e.clearRetry { retry := retry - {r.id}; }
      }
    }

    /** The body of handleFailure; it leaves the ack, and the reschedule if its flag is still
        set, to the deferred block. */
    method FailureBody(r: HTTPResult, e: Env, now: int) returns (reschedule: bool, log: seq<Cmd>)
      requires ValidEnv(e)
      modifies `retry, `hashes, `rows, `alertChan, store`schedule
      ensures View(r.id) == OnFailure(old(View(r.id)), r, e, now).mon && OthersSame(r.id)
      ensures alertChan == old(alertChan) + if OnFailure(old(View(r.id)), r, e, now).alert then [r.id] else []
      ensures log + Deferred(r, reschedule) == OnFailure(old(View(r.id)), r, e, now).cmds
      ensures store.schedule == Scheduled(old(store.schedule), r.id, log, now, Added(e))
    {
      reschedule, log := true, [];
      if IsTerminal(r) { return false, []; }
      if r.retryable {
        var ended;
        ended, log := RetryCase(r, e, now);
        if ended { return false, log; }
      }
      EscalateIncident(r, e, now);
    }

    /** The deferred block of both handlers. */
    method Finish(r: HTTPResult, reschedule: bool, e: Env, now: int) returns (log: seq<Cmd>)
      requires ValidEnv(e)
      modifies store
      ensures log == Deferred(r, reschedule)
      ensures store.schedule == Scheduled(old(store.schedule), r.id, log, now, Added(e))
      ensures store.inflight == if e.ack then old(store.inflight) - {r.id} else old(store.inflight)
    {
      var acked := store.AckJob(r.id, e.ack);
      log := [Ack];
      if reschedule {
        var more := Reschedule(r.id, Delay(r), now, e.attempts);
        log := log + more;
        ScheduledOne(old(store.schedule), r.id, Schedule(Delay(r)), now, Added(e));
      }
      DeferredSchedules(old(store.schedule), r.id, r, reschedule, now, Added(e));
    }

    /** handleFailure: the body, then the deferred ack and reschedule. */
    method HandleFailure(r: HTTPResult, e: Env, now: int) returns (log: seq<Cmd>)
      requires ValidEnv(e)
      modifies this, store
      ensures View(r.id) == OnFailure(old(View(r.id)), r, e, now).mon && OthersSame(r.id)
      ensures alertChan == old(alertChan) + if OnFailure(old(View(r.id)), r, e, now).alert then [r.id] else []
      ensures log == OnFailure(old(View(r.id)), r, e, now).cmds
      ensures store.schedule == Scheduled(old(store.schedule), r.id, log, now, Added(e))
      ensures store.schedule == if IsTerminal(r) || !Added(e) then old(store.schedule)
                else old(store.schedule)[r.id := now + if RetryLeft(old(View(r.id)), r, e) then 5000
                                                       else 1000 * r.intervalSec]
      ensures store.inflight == if e.ack then old(store.inflight) - {r.id} else old(store.inflight)
    {
      FailureScheduledAt(store.schedule, View(r.id), r, e, now, Added(e));
      var reschedule, sent := FailureBody(r, e, now);
      var rest := Finish(r, reschedule, e, now);
      ScheduledAppend(old(store.schedule), r.id, sent, rest, now, Added(e));
      log := sent + rest;
    }

    /** handleSuccess. */
    method HandleSuccess(r: HTTPResult, e: Env, now: int) returns (log: seq<Cmd>)
      requires ValidEnv(e)
      modifies this, store
      ensures View(r.id) == OnSuccess(old(View(r.id)), r, e, now).mon && OthersSame(r.id)
      ensures alertChan == old(alertChan)
      ensures log == OnSuccess(old(View(r.id)), r, e, now).cmds
      ensures store.schedule == Scheduled(old(store.schedule), r.id, log, now, Added(e))
      ensures store.schedule == if Added(e) then old(store.schedule)[r.id := now + 1000 * r.intervalSec]
                                else old(store.schedule)
      ensures store.inflight == if e.ack then old(store.inflight) - {r.id} else old(store.inflight)
      ensures e.get && old(View(r.id)).hash.db && e.close && Closable(old(View(r.id)).rows, now) ==>
                forall i | 0 <= i < |old(View(r.id)).rows| && IsOpen(old(View(r.id)).rows[i]) ::
                  i < |View(r.id).rows| && View(r.id).rows[i].end == Some(now)
    {
      PairScheduledAt(store.schedule, r.id, OnSuccess(View(r.id), r, e, now).cmds, now, Added(e));
      SuccessBody(r, e, now);
      log := Finish(r, true, e, now);
    }

    method SuccessBody(r: HTTPResult, e: Env, now: int)
      modifies `retry, `hashes, `rows
      ensures View(r.id) == OnSuccess(old(View(r.id)), r, e, now).mon && OthersSame(r.id)
    {
      if !e.get { return; }
      if r.id in hashes && hashes[r.id].db && e.close && r.id in rows && Closable(rows[r.id], now) {
        rows := rows[r.id := CloseAll(rows[r.id], now)];
      }
      if e.clearIncident { hashes := hashes - {r.id}; }
      if e.clearRetry { retry := retry - {r.id}; }
    }
  }
}
