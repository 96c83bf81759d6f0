/**
 The retry loop, the three Lua scripts and the sorted-set commands of the Redis store.
 Each script is a loop of ZREM and ZADD over the reply of one range query; each is proved
 against the ordered specification in `SortedSet`.
*/
module RedisStore {
  import opened SortedSet

  /** What one call of a retried command does: it succeeds, or it reports an error (and then
      had no effect), after which the context may be cancelled before the backoff elapses. */
  datatype Attempt = Done | Failed(cancelled: bool)

  /** The attempt that `retry` returns from with success, if there is one: the first that is
      done, unless the context was cancelled after an earlier one. */
  ghost predicate SucceedsAt(env: seq<Attempt>, attempts: nat, k: nat) {
    && k < attempts && k < |env| && env[k].Done?
    && forall j | 0 <= j < k :: env[j] == Failed(false)
  }

  ghost predicate Succeeds(env: seq<Attempt>, attempts: nat) {
    exists k :: SucceedsAt(env, attempts, k)
  }

  /** `retry`: counts calls and the milliseconds spent in the growing backoff, 50 + 100 + ...,
      which runs in full after every failed call but a cancelled one. */
  method Retry(attempts: nat, env: seq<Attempt>) returns (ok: bool, calls: nat, waited: nat)
    requires |env| >= attempts
    ensures ok <==> Succeeds(env, attempts)
    ensures calls <= attempts
    ensures ok ==> calls > 0 && SucceedsAt(env, attempts, calls - 1) && waited == 25 * (calls - 1) * calls
    ensures !ok && calls > 0 && env[calls - 1] == Failed(true) ==> waited == 25 * (calls - 1) * calls
    ensures !ok && (calls == 0 || env[calls - 1] != Failed(true)) ==>
              calls == attempts && waited == 25 * attempts * (attempts + 1)
    ensures !ok ==> forall j | 0 <= j < calls - 1 :: env[j] == Failed(false)
  {
    calls, waited, ok := 0, 0, false;
    while calls < attempts
      invariant calls <= attempts && !ok
      invariant waited == 25 * calls * (calls + 1)
      invariant forall j | 0 <= j < calls :: env[j] == Failed(false)
    {
      var outcome := env[calls];
      calls := calls + 1;
      if outcome.Done? {
        assert SucceedsAt(env, attempts, calls - 1);
        return true, calls, waited;
      }
      if outcome.cancelled { return; }
      waited := waited + 50 * calls;
    }
  }

  /** ZADD of every member of a batch with one score. */
  ghost function Put(z: ZSet, batch: set<Id>, score: int): ZSet {
    z + map m | m in batch :: score
  }

  /** `z'` is `z` after that ZADD. */
  ghost predicate IsPut(z: ZSet, z': ZSet, batch: set<Id>, score: int) {
    && z'.Keys == z.Keys + batch
    && forall m | m in z' :: z'[m] == if m in batch then score else z[m]
  }

  lemma IsPutMeansPut(z: ZSet, z': ZSet, batch: set<Id>, score: int)
    ensures IsPut(z, z', batch, score) <==> z' == Put(z, batch, score)
  {
  }

  lemma PutKeys(z: ZSet, batch: set<Id>, score: int)
    ensures Put(z, batch, score).Keys == z.Keys + batch
  {
  }

  lemma RemovedKeys(z: ZSet, batch: set<Id>)
    ensures (z - batch).Keys == z.Keys - batch
  {
  }

  /** One ZADD and one ZREM of a script's loop. */
  lemma PutOneMore(z: ZSet, z': ZSet, items: seq<Id>, i: nat, score: int)
    requires i < |items| && IsPut(z, z', Members(items[..i]), score)
    ensures IsPut(z, z'[items[i] := score], Members(items[..i + 1]), score)
  {
  }

  lemma RemoveOneMore(z: ZSet, items: seq<Id>, i: nat)
    requires i < |items|
    ensures z - Members(items[..i + 1]) == (z - Members(items[..i])) - {items[i]}
  {
  }

  method LeastMember(z: ZSet, s: set<Id>) returns (m: Id)
    requires s <= z.Keys && s != {}
    ensures IsLeast(z, s, m)
  {
    m :| m in s;
    var rest := s - {m};
    while rest != {}
      invariant rest <= s && m in s
      invariant forall x | x in s && x !in rest :: x == m || Before(z, m, x)
      decreases |rest|
    {
      var x :| x in rest;
      rest := rest - {x};
      if Before(z, x, m) { m := x; }
    }
  }

  /** ZRANGEBYSCORE z -inf now LIMIT 0 limit. */
  method RangeByScore(z: ZSet, now: int, limit: nat) returns (items: seq<Id>)
    ensures items == Range(z, now, limit)
  {
    items := [];
    var rest := Due(z, now);
    while |items| < limit && rest != {}
      invariant |items| <= limit && rest <= z.Keys
      invariant items + RangeOf(z, rest, limit - |items|) == Range(z, now, limit)
      decreases limit - |items|
    {
      var m := LeastMember(z, rest);
      assert m == Least(z, rest) by {
        assert IsLeast(z, rest, m) && IsLeast(z, rest, Least(z, rest));
      }
      assert items + RangeOf(z, rest, limit - |items|)
          == (items + [m]) + RangeOf(z, rest - {m}, limit - |items| - 1);
      items := items + [m];
      rest := rest - {m};
    }
  }

  class Store {
    var schedule: ZSet  // monitor:schedule
    var inflight: ZSet  // monitor:inflight

    constructor ()
      ensures schedule == map[] && inflight == map[]
    {
      schedule, inflight := map[], map[];
    }

    /** The fetch-due script. */
    method FetchDue(now: int, limit: nat) returns (items: seq<Id>)
      modifies `schedule
      ensures items == Range(old(schedule), now, limit)
      ensures schedule == Taken(old(schedule), now, limit)
    {
      items := RangeByScore(schedule, now, limit);
      for i := 0 to |items|
        invariant schedule == old(schedule) - Members(items[..i])
      {
        RemoveOneMore(old(schedule), items, i);
        schedule := schedule - {items[i]};
      }
      assert items[..|items|] == items;
    }

    /** The fetch-and-move script: every fetched member becomes inflight with the visibility
        deadline as its score. */
    method FetchAndMoveToInflight(now: int, limit: nat, visibility: nat) returns (items: seq<Id>)
      modifies this
      ensures items == Range(old(schedule), now, limit)
      ensures schedule == old(schedule) - Members(items)
      ensures IsPut(old(inflight), inflight, Members(items), now + visibility)
    {
      items := RangeByScore(schedule, now, limit);
      var deadline := now + visibility;
      for i := 0 to |items|
        invariant schedule == old(schedule) - Members(items[..i])
        invariant IsPut(old(inflight), inflight, Members(items[..i]), deadline)
      {
        RemoveOneMore(old(schedule), items, i);
        PutOneMore(old(inflight), inflight, items, i, deadline);
        schedule := schedule - {items[i]};
        inflight := inflight[items[i] := deadline];
      }
      assert items[..|items|] == items;
    }

    /** The reclaim script: every expired inflight member becomes due now. */
    method ReclaimMonitors(now: int, limit: nat) returns (count: nat)
      modifies this
      ensures inflight == Taken(old(inflight), now, limit)
      ensures IsPut(old(schedule), schedule, Members(Range(old(inflight), now, limit)), now)
      ensures count == |old(inflight)| - |inflight|
    {
      var items := RangeByScore(inflight, now, limit);
      for i := 0 to |items|
        invariant inflight == old(inflight) - Members(items[..i])
        invariant IsPut(old(schedule), schedule, Members(items[..i]), now)
      {
        RemoveOneMore(old(inflight), items, i);
        PutOneMore(old(schedule), schedule, items, i, now);
        inflight := inflight - {items[i]};
        schedule := schedule[items[i] := now];
      }
      assert items[..|items|] == items;
      count := |items|;
      TakenCardinality(old(inflight), now, limit);
    }

    /** `Schedule`: ZADD under three attempts. */
    method Schedule(m: Id, nextRun: int, env: seq<Attempt>) returns (ok: bool)
      requires |env| >= 3
      modifies `schedule
      ensures ok <==> Succeeds(env, 3)
      ensures schedule == if ok then old(schedule)[m := nextRun] else old(schedule)
    {
      var calls, waited;
      ok, calls, waited := Retry(3, env);
      if ok { schedule := schedule[m := nextRun]; }
    }

    /** `AckJob`: one ZREM, without a fencing token: it removes the entry whoever put it there. */
    method AckJob(m: Id, reached: bool) returns (ok: bool)
      modifies `inflight
      ensures ok == reached
      ensures inflight == if ok then old(inflight) - {m} else old(inflight)
    {
      ok := reached;
      if reached { inflight := inflight - {m}; }
    }

    method DelSchedule(m: Id, reached: bool)
      modifies `schedule
      ensures schedule == if reached then old(schedule) - {m} else old(schedule)
    {
      if reached { schedule := schedule - {m}; }
    }
  }

  lemma TakenCardinality(z: ZSet, now: int, limit: nat)
    ensures Members(Range(z, now, limit)) <= z.Keys
    ensures |Taken(z, now, limit)| == |z| - |Range(z, now, limit)|
  {
    var items := Range(z, now, limit);
    RangeOfMeetsSpec(z, Due(z, now), limit);
    SortedCardinality(z, items);
    assert Taken(z, now, limit).Keys == z.Keys - Members(items);
    SubsetCardinality(Members(items), z.Keys);
  }

  lemma BatchMoveConserves(src: ZSet, dst: ZSet, batch: set<Id>, score: int)
    requires batch <= src.Keys
    ensures (src - batch).Keys !! batch
    ensures (src - batch).Keys + Put(dst, batch, score).Keys == src.Keys + dst.Keys
  {
  }

  /** Moving a batch from one set to the other conserves the members of their union. */
  lemma MoveConserves(src: ZSet, dst: ZSet, now: int, limit: nat, score: int)
    ensures var batch := Members(Range(src, now, limit));
            && Taken(src, now, limit).Keys !! batch
            && Taken(src, now, limit).Keys + Put(dst, batch, score).Keys == src.Keys + dst.Keys
  {
    TakenCardinality(src, now, limit);
    BatchMoveConserves(src, dst, Members(Range(src, now, limit)), score);
  }

  /** A script leaves behind no due entry that orders before one it returned. */
  lemma NothingOvertaken(z: ZSet, now: int, limit: nat, a: Id, b: Id)
    requires a in Range(z, now, limit) && b in Taken(z, now, limit) && z[b] <= now
    ensures a in z && z[a] <= now && (z[a] < z[b] || (z[a] == z[b] && a < b))
  {
    var items := Range(z, now, limit);
    RangeOfMeetsSpec(z, Due(z, now), limit);
    var k :| 0 <= k < |items| && items[k] == a;
    assert b in Due(z, now) && b !in items;
  }
}
