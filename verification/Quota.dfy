/** The quota of ten monitors a user, over interleaved CreateMonitor calls that may fail or crash
    between the reservation and the insert. */
module Quota {
  import opened SortedSet
  import opened MonitorService
  import opened Cardinality

  datatype State = State(
    counts: map<UserId, nat>,       // users.monitors_count
    owners: map<Id, UserId>,        // the monitors table
    pending: map<nat, UserId>,      // calls between the reservation and the insert
    failed: map<nat, UserId>)       // calls whose insert failed or that crashed there

  datatype Step =
    | Register(u: UserId)
    | Reserve(p: nat, u: UserId)
    | Insert(p: nat, m: Id)
    | Fail(p: nat)

  predicate Can(s: State, st: Step) {
    match st
    case Register(u) => u !in s.counts
    case Reserve(p, u) => p !in s.pending && p !in s.failed
    case Insert(p, m) => p in s.pending && m !in s.owners
    case Fail(p) => p in s.pending
  }

  /** The conditional update admits a call only below the quota; otherwise the call is refused. */
  function Do(s: State, st: Step): State
    requires Can(s, st)
  {
    match st
    case Register(u) => s.(counts := s.counts[u := 0])
    case Reserve(p, u) =>
      if u in s.counts && s.counts[u] < QUOTA
      then s.(counts := s.counts[u := s.counts[u] + 1], pending := s.pending[p := u])
      else s
    case Insert(p, m) => s.(owners := s.owners[m := s.pending[p]], pending := s.pending - {p})
    case Fail(p) => s.(failed := s.failed[p := s.pending[p]], pending := s.pending - {p})
  }

  function Of(f: map<nat, UserId>, u: UserId): set<nat> {
    set x | x in f && f[x] == u
  }

  /** Rows, pending and failed creates of `u` make up its count, which never passes the quota. */
  predicate Balanced(s: State, u: UserId) {
    && s.pending.Keys !! s.failed.Keys
    && |Of(s.owners, u)| + |Of(s.pending, u)| + |Of(s.failed, u)| == (if u in s.counts then s.counts[u] else 0)
    && (u in s.counts ==> s.counts[u] <= QUOTA)
  }

  lemma OfAdd(f: map<nat, UserId>, x: nat, v: UserId, u: UserId)
    requires x !in f
    ensures |Of(f[x := v], u)| == |Of(f, u)| + if v == u then 1 else 0
  {
    assert Of(f[x := v], u) - {x} == Of(f, u) - {x};
    But(Of(f[x := v], u), Of(f, u), x);
  }

  lemma OfRemove(f: map<nat, UserId>, x: nat, u: UserId)
    requires x in f
    ensures |Of(f - {x}, u)| == |Of(f, u)| - if f[x] == u then 1 else 0
  {
    assert Of(f - {x}, u) - {x} == Of(f, u) - {x};
    But(Of(f - {x}, u), Of(f, u), x);
  }

  lemma BalancedStep(s: State, st: Step, u: UserId)
    requires Balanced(s, u) && Can(s, st)
    ensures Balanced(Do(s, st), u)
  {
    match st
    case Register(_) =>
    case Reserve(p, v) => OfAdd(s.pending, p, v, u);
    case Insert(p, m) => OfAdd(s.owners, m, s.pending[p], u); OfRemove(s.pending, p, u);
    case Fail(p) => OfAdd(s.failed, p, s.pending[p], u); OfRemove(s.pending, p, u);
  }

  ghost predicate IsRun(ss: seq<State>, sts: seq<Step>) {
    && |ss| == |sts| + 1
    && forall i | 0 <= i < |sts| :: Can(ss[i], sts[i]) && ss[i + 1] == Do(ss[i], sts[i])
  }

  /** In every interleaving no user ever owns more than ten monitors; a failed create uses up its
      place for good. */
  lemma {:induction false} QuotaHolds(ss: seq<State>, sts: seq<Step>, k: nat, u: UserId)
    requires IsRun(ss, sts) && ss[0] == State(map[], map[], map[], map[]) && k < |ss|
    ensures Balanced(ss[k], u)
    ensures |Of(ss[k].owners, u)| + |Of(ss[k].pending, u)| + |Of(ss[k].failed, u)| <= 10
  {
    if k == 0 {
      assert Of(map[], u) == {};
    } else {
      QuotaHolds(ss, sts, k - 1, u);
      BalancedStep(ss[k - 1], sts[k - 1], u);
    }
  }

  /** In every run a registered user's next create is admitted exactly while its rows, pending and
      failed creates are fewer than ten; a refused one changes nothing. */
  lemma AdmittedBelowTen(ss: seq<State>, sts: seq<Step>, k: nat, p: nat, u: UserId)
    requires IsRun(ss, sts) && ss[0] == State(map[], map[], map[], map[]) && k < |ss|
    requires u in ss[k].counts && p !in ss[k].pending && p !in ss[k].failed
    ensures Can(ss[k], Reserve(p, u))
    ensures var s, s' := ss[k], Do(ss[k], Reserve(p, u));
            && (p in s'.pending <==> |Of(s.owners, u)| + |Of(s.pending, u)| + |Of(s.failed, u)| < 10)
            && (p !in s'.pending ==> s' == s)
  {
    QuotaHolds(ss, sts, k, u);
  }
}
