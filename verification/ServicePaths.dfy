/**
 The bridge between service calls as single steps and their commands: the commands of each call,
 run alone, are enabled and leave rows, cache and count as the call's contract says.
*/
module ServicePaths {
  import opened SortedSet
  import opened MonitorService
  import CacheRace
  import Quota

  /** What a get or a load answers: the cached entry if it may use it, else the row, if it may. */
  lemma Answers(s: CacheRace.State, user: UserId, m: Id)
    requires m in s.rows
    ensures CacheRace.Load(s, m) == Ok(if m in s.cache then s.cache[m] else s.rows[m])
    ensures m in s.cache && s.cache[m].owner == user ==> CacheRace.Get(s, user, m) == Ok(s.cache[m])
    ensures !(m in s.cache && s.cache[m].owner == user) ==>
              CacheRace.Get(s, user, m) == if s.rows[m].owner == user then Ok(s.rows[m]) else Err(NotFound)
  {
  }

  /** A get or a load that finds no usable entry: it reads the row and caches it. */
  lemma FillPath(s: CacheRace.State, p: nat, m: Id, ok: bool) returns (t: CacheRace.State)
    requires p !in s.calls && m in s.rows && s.rows[m].id == m
    ensures exists s1, s2 ::
              CacheRace.IsRun([s, s1, s2, t], [CacheRace.Miss(p, m), CacheRace.Read(p), CacheRace.Fill(p, ok)])
    ensures t.rows == s.rows && t.calls == s.calls
    ensures t.cache == if ok then s.cache[m := s.rows[m]] else s.cache
  {
    var s1 := CacheRace.Do(s, CacheRace.Miss(p, m));
    var s2 := CacheRace.Do(s1, CacheRace.Read(p));
    t := CacheRace.Do(s2, CacheRace.Fill(p, ok));
    assert CacheRace.IsRun([s, s1, s2, t], [CacheRace.Miss(p, m), CacheRace.Read(p), CacheRace.Fill(p, ok)]);
  }

  /** For a row that does not exist the call ends with the read. */
  lemma MissingPath(s: CacheRace.State, p: nat, m: Id) returns (t: CacheRace.State)
    requires p !in s.calls && m !in s.rows
    ensures exists s1 :: CacheRace.IsRun([s, s1, t], [CacheRace.Miss(p, m), CacheRace.Read(p)])
    ensures t == s
  {
    var s1 := CacheRace.Do(s, CacheRace.Miss(p, m));
    t := CacheRace.Do(s1, CacheRace.Read(p));
    assert CacheRace.IsRun([s, s1, t], [CacheRace.Miss(p, m), CacheRace.Read(p)]);
    assert t.calls == s.calls;
  }

  /** An enable writes the row and leaves the cache alone. */
  lemma EnablePath(s: CacheRace.State, m: Id) returns (t: CacheRace.State)
    requires m in s.rows && !s.rows[m].enabled
    ensures CacheRace.IsRun([s, t], [CacheRace.Enable(m)])
    ensures t.rows == s.rows[m := s.rows[m].(enabled := true)] && t.cache == s.cache && t.calls == s.calls
  {
    t := CacheRace.Do(s, CacheRace.Enable(m));
  }

  /** A disable writes the row and then drops the entry, if its DEL succeeds. */
  lemma DisablePath(s: CacheRace.State, p: nat, m: Id, ok: bool) returns (t: CacheRace.State)
    requires p !in s.calls && m in s.rows && s.rows[m].enabled
    ensures exists s1 :: CacheRace.IsRun([s, s1, t], [CacheRace.Disable(p, m), CacheRace.Evict(p, ok)])
    ensures t.rows == s.rows[m := s.rows[m].(enabled := false)] && t.calls == s.calls
    ensures t.cache == if ok then s.cache - {m} else s.cache
  {
    var s1 := CacheRace.Do(s, CacheRace.Disable(p, m));
    t := CacheRace.Do(s1, CacheRace.Evict(p, ok));
    assert CacheRace.IsRun([s, s1, t], [CacheRace.Disable(p, m), CacheRace.Evict(p, ok)]);
  }

  /** A call whose row already says so writes nothing. */
  lemma NothingToWrite(s: CacheRace.State, p: nat, m: Id)
    requires m in s.rows
    ensures s.rows[m].enabled ==> !CacheRace.Can(s, CacheRace.Enable(m))
    ensures !s.rows[m].enabled ==> !CacheRace.Can(s, CacheRace.Disable(p, m))
  {
  }

  /** Expiry and crashes can come at any time and touch nothing else. */
  lemma LossPath(s: CacheRace.State, p: nat, m: Id) returns (t: CacheRace.State)
    ensures exists s1 :: CacheRace.IsRun([s, s1, t], [CacheRace.Expire(m), CacheRace.Crash(p)])
    ensures t == CacheRace.State(s.rows, s.cache - {m}, s.calls - {p})
  {
    var s1 := CacheRace.Do(s, CacheRace.Expire(m));
    t := CacheRace.Do(s1, CacheRace.Crash(p));
    assert CacheRace.IsRun([s, s1, t], [CacheRace.Expire(m), CacheRace.Crash(p)]);
  }

  /** A new user starts with no monitors. */
  lemma RegisterPath(s: Quota.State, u: UserId) returns (t: Quota.State)
    requires u !in s.counts
    ensures Quota.IsRun([s, t], [Quota.Register(u)]) && t == s.(counts := s.counts[u := 0])
  {
    t := Quota.Do(s, Quota.Register(u));
  }

  /** An admitted create, whose insert succeeds or fails; a failure keeps the reservation. */
  lemma CreatePath(s: Quota.State, p: nat, u: UserId, m: Id, ok: bool) returns (t: Quota.State)
    requires p !in s.pending && p !in s.failed && u in s.counts && s.counts[u] < 10 && m !in s.owners
    ensures exists s1 ::
              Quota.IsRun([s, s1, t], [Quota.Reserve(p, u), if ok then Quota.Insert(p, m) else Quota.Fail(p)])
    ensures t.counts == s.counts[u := s.counts[u] + 1] && t.pending == s.pending
    ensures t.owners == if ok then s.owners[m := u] else s.owners
    ensures t.failed == if ok then s.failed else s.failed[p := u]
  {
    var s1 := Quota.Do(s, Quota.Reserve(p, u));
    var last := if ok then Quota.Insert(p, m) else Quota.Fail(p);
    t := Quota.Do(s1, last);
    assert Quota.IsRun([s, s1, t], [Quota.Reserve(p, u), last]);
  }
}
