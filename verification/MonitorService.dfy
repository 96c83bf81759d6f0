/**
 The monitor service: rows in Postgres, a cache in Redis, the enable and disable operations,
 and the quota of ten monitors a user. Here each service call is one step; `CacheRace` and
 `Quota` interleave the commands of many calls.
*/
module MonitorService {
  import opened SortedSet
  import opened RedisStore
  import Incidents

  type UserId = nat

  datatype Settings = Settings(
    url: string, alertEmail: string, intervalSec: nat, timeoutSec: int, latencyThresholdMs: int, expectedStatus: int)

  datatype Monitor = Monitor(id: Id, owner: UserId, settings: Settings, enabled: bool)

  datatype Error = NotFound | Forbidden | Internal
  datatype Result<T> = Ok(value: T) | Err(error: Error)

  const QUOTA := 10

  /** Which commands of a call succeed. */
  datatype Env = Env(
    cacheRead: bool, cacheWrite: bool, cacheDelete: bool, attempts: seq<Attempt>, scheduleDelete: bool,
    clearIncident: bool, dbRead: bool, dbWrite: bool, dbInsert: bool)

  function Interval(row: Monitor): nat { 1000 * row.settings.intervalSec }

  /** The schedule after a Schedule call under the attempts of `e`. */
  ghost function Added(z: ZSet, m: Id, at: int, e: Env): ZSet {
    if Succeeds(e.attempts, 3) then z[m := at] else z
  }

  predicate SameButEnabled(a: Monitor, b: Monitor) {
    a.(enabled := b.enabled) == b
  }

  /** SELECT ... WHERE id = m AND user_id = user. */
  function Query(rows: map<Id, Monitor>, user: UserId, m: Id): Result<Monitor> {
    if m in rows && rows[m].owner == user then Ok(rows[m]) else Err(NotFound)
  }

  /** Every row is stored under its id, and every cached monitor is its row but for Enabled. */
  predicate Consistent(rows: map<Id, Monitor>, cache: map<Id, Monitor>) {
    && (forall m | m in rows :: rows[m].id == m)
    && (forall m | m in cache :: m in rows && SameButEnabled(cache[m], rows[m]))
  }

  /** A monitor cached as enabled is enabled. */
  predicate OneSided(rows: map<Id, Monitor>, cache: map<Id, Monitor>) {
    forall m | m in cache && cache[m].enabled :: m in rows && rows[m].enabled
  }

  class Service {
    var rows: map<Id, Monitor>
    var cache: map<Id, Monitor>
    var incidents: map<Id, Incidents.Hash>   // monitor:incident:<id>
    var counts: map<UserId, nat>             // users.monitors_count
    const store: Store

    constructor (users: set<UserId>, store: Store)
      ensures rows == map[] && cache == map[] && incidents == map[] && this.store == store
      ensures counts == map u | u in users :: 0
      ensures Consistent(rows, cache) && OneSided(rows, cache)
    {
      this.store := store;
      rows, cache, incidents := map[], map[], map[];
      counts := map u | u in users :: 0;
    }

    /** GetMonitor answers the owner alone: from the cache if the entry is the caller's, else with
        the caller's row, which it caches. Whenever the database answers, it succeeds exactly for
        the owner, whoever's entry is cached, and agrees with the row on every field but Enabled. */
    method GetMonitor(user: UserId, m: Id, e: Env) returns (r: Result<Monitor>)
      requires Consistent(rows, cache)
      modifies `cache
      ensures Consistent(rows, cache) && (OneSided(rows, old(cache)) ==> OneSided(rows, cache))
      ensures r.Ok? ==> m in rows && r.value.owner == user == rows[m].owner
      ensures r.Ok? ==> r.value.id == m && r.value.settings == rows[m].settings
      ensures e.dbRead ==> (r.Ok? <==> m in rows && rows[m].owner == user)
      ensures r.Err? ==> r.error == if e.dbRead then NotFound else Internal
      ensures var hit := e.cacheRead && m in old(cache) && old(cache)[m].owner == user;
              if hit then r == Ok(old(cache)[m]) && cache == old(cache)
              else && (r.Ok? ==> e.dbRead && r.value == rows[m])
                   && cache == if r.Ok? && e.cacheWrite then old(cache)[m := rows[m]] else old(cache)
    {
      if e.cacheRead && m in cache && cache[m].owner == user {
        return Ok(cache[m]);
      }
      if !e.dbRead { return Err(Internal); }
      r := Query(rows, user, m);
      if r.Ok? && e.cacheWrite { cache := cache[m := r.value]; }
    }

    /** LoadMonitor answers for every row, whoever's it is, from the cache if it can. With one-sided
        caching it never reports a disabled monitor as enabled: no check starts on one. */
    method LoadMonitor(m: Id, e: Env) returns (r: Result<Monitor>)
      requires Consistent(rows, cache)
      modifies `cache
      ensures Consistent(rows, cache) && (OneSided(rows, old(cache)) ==> OneSided(rows, cache))
      ensures r.Ok? ==> m in rows && r.value.id == m && r.value.owner == rows[m].owner
      ensures r.Ok? ==> r.value.settings == rows[m].settings
      ensures e.dbRead ==> (r.Ok? <==> m in rows)
      ensures r.Err? ==> r.error == if e.dbRead then NotFound else Internal
      ensures OneSided(rows, old(cache)) && r.Ok? && r.value.enabled ==> rows[m].enabled
      ensures if e.cacheRead && m in old(cache) then r == Ok(old(cache)[m]) && cache == old(cache)
              else && (r.Ok? ==> e.dbRead && r.value == rows[m])
                   && cache == if r.Ok? && e.cacheWrite then old(cache)[m := rows[m]] else old(cache)
    {
      if e.cacheRead && m in cache { return Ok(cache[m]); }
      if !e.dbRead { return Err(Internal); }
      if m !in rows { return Err(NotFound); }
      r := Ok(rows[m]);
      if e.cacheWrite { cache := cache[m := rows[m]]; }
    }

    /** UpdateMonitorStatus. Nothing happens for a stranger or when the row already says so.
        Enabling schedules the monitor and leaves the cache alone; disabling drops the cache
        entry, the schedule entry and the incident hash. One-sidedness survives exactly unless a
        disable fails to drop an entry cached as enabled. */
    method UpdateMonitorStatus(user: UserId, m: Id, enable: bool, e: Env, now: int) returns (r: Result<bool>)
      requires Consistent(rows, cache) && |e.attempts| >= 3
      modifies `rows, `cache, `incidents, store`schedule
      ensures Consistent(rows, cache)
      ensures r.Ok? <==> && e.dbRead && m in old(rows) && old(rows)[m].owner == user
                         && (e.dbWrite || old(rows)[m].enabled == enable)
      ensures r.Err? ==> (r.error == NotFound <==> e.dbRead && !(m in rows && rows[m].owner == user))
      ensures !(r.Ok? && old(rows)[m].enabled != enable) ==>
                rows == old(rows) && cache == old(cache) && incidents == old(incidents)
                && store.schedule == old(store.schedule)
      ensures r.Ok? && old(rows)[m].enabled != enable ==>
                && rows == old(rows)[m := old(rows)[m].(enabled := enable)]
                && cache == (if !enable && e.cacheDelete then old(cache) - {m} else old(cache))
                && incidents == (if !enable && e.clearIncident then old(incidents) - {m} else old(incidents))
                && store.schedule ==
                     (if enable then Added(old(store.schedule), m, now + 1000 * old(rows)[m].settings.intervalSec, e)
                      else if e.scheduleDelete then old(store.schedule) - {m}
                      else old(store.schedule))
      ensures OneSided(old(rows), old(cache)) ==>
                (OneSided(rows, cache) <==>
                   !(r.Ok? && old(rows)[m].enabled && !enable && !e.cacheDelete
                     && m in old(cache) && old(cache)[m].enabled))
    {
      if !e.dbRead { return Err(Internal); }
      var q := Query(rows, user, m);
      if q.Err? { return Err(q.error); }
      if q.value.enabled == enable { return Ok(true); }
      if !e.dbWrite { return Err(Internal); }
      rows := rows[m := q.value.(enabled := enable)];
      if enable {
        var ok := store.Schedule(m, now + Interval(q.value), e.attempts);
      } else {
        DisableMonitor(m, e);
      }
      return Ok(true);
    }

    /** disableMonitor: every deletion is best effort. */
    method DisableMonitor(m: Id, e: Env)
      modifies `cache, `incidents, store`schedule
      ensures cache == if e.cacheDelete then old(cache) - {m} else old(cache)
      ensures incidents == if e.clearIncident then old(incidents) - {m} else old(incidents)
      ensures store.schedule == if e.scheduleDelete then old(store.schedule) - {m} else old(store.schedule)
    {
      if e.cacheDelete { cache := cache - {m}; }
      store.DelSchedule(m, e.scheduleDelete);
      if e.clearIncident { incidents := incidents - {m}; }
    }

    /** CreateMonitor: reserve a place in the quota, insert the row, schedule the first run. A
        failed insert keeps the reservation. */
    method CreateMonitor(user: UserId, id: Id, settings: Settings, e: Env, now: int) returns (r: Result<Id>)
      requires Consistent(rows, cache) && id !in rows && |e.attempts| >= 3
      modifies `rows, `counts, store`schedule
      ensures Consistent(rows, cache) && (OneSided(old(rows), cache) ==> OneSided(rows, cache))
      ensures var admitted := e.dbWrite && user in old(counts) && old(counts)[user] < 10;
              && counts == (if admitted then old(counts)[user := old(counts)[user] + 1] else old(counts))
              && (r.Ok? <==> admitted && e.dbInsert)
              && rows == (if r.Ok? then old(rows)[id := Monitor(id, user, settings, true)] else old(rows))
              && store.schedule == (if r.Ok? then Added(old(store.schedule), id, now + 1000 * settings.intervalSec, e)
                                    else old(store.schedule))
              && (r.Ok? ==> r.value == id)
              && (r.Err? ==> (r.error == Forbidden <==> e.dbWrite && !admitted))
    {
      if !e.dbWrite { return Err(Internal); }
      if user !in counts || counts[user] >= QUOTA { return Err(Forbidden); }
      counts := counts[user := counts[user] + 1];
      if !e.dbInsert { return Err(Internal); }
      rows := rows[id := Monitor(id, user, settings, true)];
      var ok := store.Schedule(id, now + 1000 * settings.intervalSec, e.attempts);
      return Ok(id);
    }
  }
}
