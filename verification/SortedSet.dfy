/**
 Redis sorted sets as the dispatch scripts use them: a map from member to score, read in
 (score, member) order. `Range` is ZRANGEBYSCORE key -inf now LIMIT 0 limit. The lemmas
 characterise it completely and turn membership of a batch into a bound on the rank,
 which is what makes dispatch and reclaim bounded and free of overtaking.
*/
module SortedSet {

  /** Monitor ids: opaque members with a total order, which breaks ties between scores. */
  type Id = nat

  /** Scores are milliseconds. */
  type ZSet = map<Id, int>

  predicate Before(z: ZSet, a: Id, b: Id)
    requires a in z && b in z
  {
    z[a] < z[b] || (z[a] == z[b] && a < b)
  }

  function Due(z: ZSet, now: int): set<Id> {
    set m | m in z && z[m] <= now
  }

  /** The members of a reply. */
  function Members(items: seq<Id>): set<Id> {
    set m | m in items
  }

  ghost predicate IsLeast(z: ZSet, s: set<Id>, m: Id)
    requires s <= z.Keys
  {
    m in s && forall x | x in s :: x == m || Before(z, m, x)
  }

  lemma LeastExists(z: ZSet, s: set<Id>)
    requires s <= z.Keys && s != {}
    ensures exists m :: IsLeast(z, s, m)
    decreases |s|
  {
    var x :| x in s;
    var rest := s - {x};
    if rest == {} {
      assert forall y | y in s :: y == x || y in rest;
      assert IsLeast(z, s, x);
    } else {
      LeastExists(z, rest);
      var n :| IsLeast(z, rest, n);
      assert forall y | y in s :: y == x || y in rest;
      assert IsLeast(z, s, if Before(z, n, x) then n else x);
    }
  }

  ghost function Least(z: ZSet, s: set<Id>): (m: Id)
    requires s <= z.Keys && s != {}
    ensures IsLeast(z, s, m)
  {
    LeastExists(z, s);
    var m :| IsLeast(z, s, m); m
  }

  /** The first `limit` members of `s` in (score, member) order. */
  ghost function RangeOf(z: ZSet, s: set<Id>, limit: nat): seq<Id>
    requires s <= z.Keys
    decreases limit
  {
    if limit == 0 || s == {} then []
    else var m := Least(z, s); [m] + RangeOf(z, s - {m}, limit - 1)
  }

  ghost function Range(z: ZSet, now: int, limit: nat): seq<Id> {
    RangeOf(z, Due(z, now), limit)
  }

  /** What a reply to a range query over `s` must be. */
  ghost predicate IsRangeOf(z: ZSet, s: set<Id>, limit: nat, items: seq<Id>)
    requires s <= z.Keys
  {
    && (forall m | m in items :: m in s)
    && (forall i, j | 0 <= i < j < |items| :: Before(z, items[i], items[j]))
    && |items| == (if |s| < limit then |s| else limit)
    && (forall i, m | 0 <= i < |items| && m in s && m !in items :: Before(z, items[i], m))
  }

  lemma {:induction false} RangeOfMeetsSpec(z: ZSet, s: set<Id>, limit: nat)
    requires s <= z.Keys
    ensures IsRangeOf(z, s, limit, RangeOf(z, s, limit))
    ensures var items := RangeOf(z, s, limit);
            forall i, j | 0 <= i < j < |items| ::
              z[items[i]] < z[items[j]] || (z[items[i]] == z[items[j]] && items[i] < items[j])
    decreases limit
  {
    if limit != 0 && s != {} {
      var m := Least(z, s);
      var rest := RangeOf(z, s - {m}, limit - 1);
      RangeOfMeetsSpec(z, s - {m}, limit - 1);
      var items := [m] + rest;
      forall i, j | 0 <= i < j < |items| ensures Before(z, items[i], items[j]) {
        assert items[j] in rest;
      }
      forall i, x | 0 <= i < |items| && x in s && x !in items ensures Before(z, items[i], x) {
        assert items[0] == m;
        assert x in s - {m} && x !in rest;
        if i > 0 { assert items[i] == rest[i - 1]; }
      }
    }
  }

  /** The specification leaves no freedom: it determines the reply. */
  lemma {:induction false} RangeOfUnique(z: ZSet, s: set<Id>, limit: nat, items: seq<Id>)
    requires s <= z.Keys && IsRangeOf(z, s, limit, items)
    ensures items == RangeOf(z, s, limit)
    decreases limit
  {
    if limit != 0 && s != {} {
      FirstIsLeast(z, s, limit, items);
      RestIsRange(z, s, limit, items);
      RangeOfUnique(z, s - {items[0]}, limit - 1, items[1..]);
    }
  }

  lemma RestIsRange(z: ZSet, s: set<Id>, limit: nat, items: seq<Id>)
    requires s <= z.Keys && items != [] && IsRangeOf(z, s, limit, items)
    ensures IsRangeOf(z, s - {items[0]}, limit - 1, items[1..])
  {
  }

  lemma FirstIsLeast(z: ZSet, s: set<Id>, limit: nat, items: seq<Id>)
    requires s <= z.Keys && s != {} && limit > 0 && IsRangeOf(z, s, limit, items)
    ensures items != [] && items[0] == Least(z, s)
  {
  }

  lemma SingletonRange(m: Id, score: int, now: int, limit: nat)
    requires score <= now && limit > 0
    ensures Range(map[m := score], now, limit) == [m]
  {
    var z: ZSet := map[m := score];
    assert Due(z, now) == {m};
    RangeOfUnique(z, {m}, limit, [m]);
  }

  lemma SortedCardinality(z: ZSet, items: seq<Id>)
    requires forall m | m in items :: m in z
    requires forall i, j | 0 <= i < j < |items| :: Before(z, items[i], items[j])
    ensures |Members(items)| == |items|
  {
    if items != [] {
      var last := items[|items| - 1];
      var init := items[..|items| - 1];
      assert forall k | 0 <= k < |init| :: Before(z, init[k], last);
      SortedCardinality(z, init);
      assert Members(items) == Members(init) + {last};
    }
  }

  lemma RangeDistinct(z: ZSet, now: int, limit: nat)
    ensures var items := Range(z, now, limit);
            forall i, j | 0 <= i < j < |items| :: items[i] != items[j]
  {
    var items := Range(z, now, limit);
    RangeOfMeetsSpec(z, Due(z, now), limit);
    assert forall i, j | 0 <= i < j < |items| :: Before(z, items[i], items[j]);
  }

  // ---- Rank -------------------------------------------------------------------------

  ghost function Ahead(z: ZSet, m: Id): set<Id>
    requires m in z
  {
    set x | x in z && Before(z, x, m)
  }

  ghost function Rank(z: ZSet, m: Id): nat
    requires m in z
  {
    |Ahead(z, m)|
  }

  ghost function Taken(z: ZSet, now: int, limit: nat): ZSet {
    z - Members(Range(z, now, limit))
  }

  lemma SubsetCardinality(a: set<Id>, b: set<Id>)
    requires a <= b
    ensures |a| <= |b|
    ensures |b - a| == |b| - |a|
  {
  }

  lemma BatchIsAhead(z: ZSet, now: int, limit: nat, m: Id)
    requires m in Due(z, now) && m !in Range(z, now, limit)
    ensures Members(Range(z, now, limit)) <= Ahead(z, m)
    ensures |Members(Range(z, now, limit))| == limit
  {
    var items, due := Range(z, now, limit), Due(z, now);
    RangeOfMeetsSpec(z, due, limit);
    SortedCardinality(z, items);
    forall x | x in Members(items) ensures x in Ahead(z, m) {
      var k :| 0 <= k < |items| && items[k] == x;
    }
    SubsetCardinality(Members(items) + {m}, due);
  }

  lemma AheadIsInBatch(z: ZSet, now: int, limit: nat, m: Id)
    requires m in Due(z, now) && m in Range(z, now, limit)
    ensures Rank(z, m) < limit
  {
    var items, due := Range(z, now, limit), Due(z, now);
    RangeOfMeetsSpec(z, due, limit);
    SortedCardinality(z, items);
    var k :| 0 <= k < |items| && items[k] == m;
    forall x | x in Ahead(z, m) ensures x in Members(items) - {m} {
      assert x in due;
      assert x !in items ==> Before(z, items[k], x);
    }
    SubsetCardinality(Ahead(z, m), Members(items) - {m});
  }

  /** A due member is in the batch exactly when its rank is below the limit; otherwise the
      batch lowers its rank by exactly the limit. */
  lemma BatchByRank(z: ZSet, now: int, limit: nat, m: Id)
    requires m in z && z[m] <= now
    ensures m in Range(z, now, limit) <==> Rank(z, m) < limit
    ensures m !in Range(z, now, limit) ==>
              m in Taken(z, now, limit) && Rank(Taken(z, now, limit), m) == Rank(z, m) - limit
  {
    if m in Range(z, now, limit) {
      AheadIsInBatch(z, now, limit, m);
    } else {
      var batch := Members(Range(z, now, limit));
      BatchIsAhead(z, now, limit, m);
      SubsetCardinality(batch, Ahead(z, m));
      assert Ahead(Taken(z, now, limit), m) == Ahead(z, m) - batch;
    }
  }

  /** No member gets in front of `m` when `z` becomes `z'`, and `m` keeps its score. */
  ghost predicate NoOvertaking(z: ZSet, z': ZSet, m: Id) {
    && m in z && m in z' && z'[m] == z[m]
    && forall x | x in z' && Before(z', x, m) :: x in z && z'[x] == z[x]
  }

  lemma RankFalls(z: ZSet, z': ZSet, m: Id)
    requires NoOvertaking(z, z', m)
    ensures Rank(z', m) <= Rank(z, m)
  {
    SubsetCardinality(Ahead(z', m), Ahead(z, m));
  }
}
