/**
 One tick of the scheduler: fetch a batch, then offer every job to the bounded job channel,
 re-adding it with a jittered delay when the channel is full.
*/
module Scheduler {
  import opened SortedSet
  import opened RedisStore

  /** What the loop meets at one job: how many jobs the executors have received meanwhile,
      whether the context is done, which case a select with both ready picks, the clock, the
      jitter draw and the outcome of the Schedule attempts. */
  datatype Turn = Turn(drained: nat, done: bool, picksSend: bool, now: int, draw: nat, attempts: seq<Attempt>)

  predicate ValidTurn(t: Turn) {
    t.draw < 200 && |t.attempts| >= 3
  }

  datatype Fate = Sent | Requeued(at: int) | GaveUp | Dropped

  /** A duration plus a random tenth of it. */
  function AddJitter(d: nat, draw: nat): (r: nat)
    requires draw < d / 10
    ensures d <= r < d + d / 10
  {
    d + draw
  }

  /** The jitter spreads over the whole tenth: every delay in it comes from exactly one draw. */
  lemma JitterCovers(d: nat, delay: nat, draw: nat)
    requires d <= delay < d + d / 10 && draw < d / 10
    ensures AddJitter(d, draw) == delay <==> draw == delay - d
  {
  }

  function Monus(a: nat, b: nat): nat { if a < b then 0 else a - b }

  /** Length of the channel when the select for job `i` runs. */
  function Level(start: nat, fates: seq<Fate>, turns: seq<Turn>, i: nat): nat
    requires i <= |fates| && i < |turns|
  {
    if i == 0 then Monus(start, turns[0].drained)
    else Monus(Level(start, fates, turns, i - 1) + (if fates[i - 1].Sent? then 1 else 0), turns[i].drained)
  }

  /** The jobs that went into the channel, in order. */
  function SentJobs(items: seq<Id>, fates: seq<Fate>): seq<Id>
    requires |fates| <= |items|
  {
    if fates == [] then []
    else
      var last := |fates| - 1;
      SentJobs(items, fates[..last]) + if fates[last].Sent? then [items[last]] else []
  }

  /** The select statement of the loop, over the level it meets. */
  ghost predicate Selected(f: Fate, level: nat, cap: nat, t: Turn) {
    match f
    case Sent => level < cap && (t.done ==> t.picksSend)
    case Dropped => t.done && (level < cap ==> !t.picksSend)
    case Requeued(at) => level >= cap && !t.done && Succeeds(t.attempts, 3) && t.now + 2000 <= at < t.now + 2200
    case GaveUp => level >= cap && !t.done && !Succeeds(t.attempts, 3)
  }

  /** What the select meets leaves it no choice but the jitter: a job is sent if and only if there
      is room and the context does not win, and dropped if and only if the context is done and wins. */
  lemma FateDetermined(f: Fate, g: Fate, level: nat, cap: nat, t: Turn)
    requires Selected(f, level, cap, t) && Selected(g, level, cap, t)
    ensures f == g || (f.Requeued? && g.Requeued? && -200 < f.at - g.at < 200)
    ensures f.Sent? <==> level < cap && !(t.done && !t.picksSend)
    ensures f.Dropped? <==> t.done && !(level < cap && t.picksSend)
  {
  }

  /** The schedule after the loop has dealt with `fates` of the fetched `items`. */
  ghost predicate Readded(before: ZSet, after: ZSet, items: seq<Id>, fates: seq<Fate>)
    requires |fates| <= |items|
  {
    && (forall m | m !in items[..|fates|] :: (m in after <==> m in before) && (m in after ==> after[m] == before[m]))
    && (forall i | 0 <= i < |fates| :: match fates[i]
          case Requeued(at) => items[i] in after && after[items[i]] == at
          case _ => items[i] !in after)
  }

  predicate Distinct(items: seq<Id>) {
    forall i, j | 0 <= i < j < |items| :: items[i] != items[j]
  }

  lemma Associative(a: seq<Id>, b: seq<Id>, c: seq<Id>)
    ensures (a + b) + c == a + (b + c)
  {
  }

  /** The fates so far were selected at the levels they met. */
  ghost predicate AllSelected(start: nat, fates: seq<Fate>, turns: seq<Turn>, cap: nat) {
    |fates| <= |turns| &&
    forall i | 0 <= i < |fates| :: Selected(fates[i], Level(start, fates, turns, i), cap, turns[i])
  }

  lemma {:induction false} LevelAgrees(start: nat, fates: seq<Fate>, f: Fate, turns: seq<Turn>, i: nat)
    requires i <= |fates| && i < |turns|
    ensures Level(start, fates + [f], turns, i) == Level(start, fates, turns, i)
  {
    if i > 0 { LevelAgrees(start, fates, f, turns, i - 1); }
  }

  lemma SelectedOneMore(start: nat, fates: seq<Fate>, f: Fate, turns: seq<Turn>, cap: nat)
    requires AllSelected(start, fates, turns, cap) && |fates| < |turns|
    requires Selected(f, Level(start, fates, turns, |fates|), cap, turns[|fates|])
    ensures AllSelected(start, fates + [f], turns, cap)
  {
    forall i | 0 <= i <= |fates| ensures Level(start, fates + [f], turns, i) == Level(start, fates, turns, i) {
      LevelAgrees(start, fates, f, turns, i);
    }
  }

  lemma ReaddedOneMore(before: ZSet, after: ZSet, after': ZSet, items: seq<Id>, fates: seq<Fate>, f: Fate)
    requires |fates| < |items| && Readded(before, after, items, fates)
    requires Distinct(items) && Members(items) !! before.Keys
    requires after' == if f.Requeued? then after[items[|fates|] := f.at] else after
    ensures Readded(before, after', items, fates + [f])
  {
  }

  /** Where the loop stands after `fates`: every job so far met the fate its level of the
      channel selects; the schedule gained exactly the requeued ones; the channel holds, in
      order and within its capacity, what it held and what was sent, less what was received. */
  ghost predicate Offered(z0: ZSet, z: ZSet, chan0: seq<Id>, chan: seq<Id>, received: seq<Id>,
                          items: seq<Id>, fates: seq<Fate>, turns: seq<Turn>, cap: nat) {
    && |fates| <= |items| <= |turns|
    && AllSelected(|chan0|, fates, turns, cap)
    && Readded(z0, z, items, fates)
    && received + chan == chan0 + SentJobs(items, fates)
    && |chan| <= cap
  }

  /** The level the next job will meet is the length of the channel, less what is received. */
  ghost predicate Tracks(chan0: seq<Id>, chan: seq<Id>, fates: seq<Fate>, turns: seq<Turn>) {
    |fates| < |turns| ==>
      Level(|chan0|, fates, turns, |fates|) == Monus(|chan|, turns[|fates|].drained)
  }

  /** What one select does. */
  ghost predicate Selects(z: ZSet, z': ZSet, chan: seq<Id>, chan': seq<Id>, taken: seq<Id>,
                          m: Id, f: Fate, t: Turn, cap: nat) {
    && Selected(f, Monus(|chan|, t.drained), cap, t)
    && taken + chan' == chan + (if f.Sent? then [m] else [])
    && |chan'| == Monus(|chan|, t.drained) + (if f.Sent? then 1 else 0) <= cap
    && z' == if f.Requeued? then z[m := f.at] else z
  }

  lemma TracksOneMore(chan0: seq<Id>, chan: seq<Id>, chan': seq<Id>, fates: seq<Fate>, f: Fate, turns: seq<Turn>)
    requires |fates| < |turns| && Tracks(chan0, chan, fates, turns)
    requires |chan'| == Monus(|chan|, turns[|fates|].drained) + if f.Sent? then 1 else 0
    ensures Tracks(chan0, chan', fates + [f], turns)
  {
    LevelAgrees(|chan0|, fates, f, turns, |fates|);
  }

  lemma SentOneMore(items: seq<Id>, fates: seq<Fate>, f: Fate, received: seq<Id>, taken: seq<Id>,
                    chan0: seq<Id>, chan: seq<Id>, chan': seq<Id>)
    requires |fates| < |items| && received + chan == chan0 + SentJobs(items, fates)
    requires taken + chan' == chan + if f.Sent? then [items[|fates|]] else []
    ensures (received + taken) + chan' == chan0 + SentJobs(items, fates + [f])
  {
    var add := if f.Sent? then [items[|fates|]] else [];
    assert (fates + [f])[..|fates|] == fates;
    Associative(received, taken, chan');
    Associative(received, chan, add);
    Associative(chan0, SentJobs(items, fates), add);
  }

  lemma OfferedOneMore(z0: ZSet, z: ZSet, z': ZSet, chan0: seq<Id>, chan: seq<Id>, chan': seq<Id>,
                       received: seq<Id>, taken: seq<Id>, items: seq<Id>, fates: seq<Fate>, f: Fate,
                       turns: seq<Turn>, cap: nat)
    requires Offered(z0, z, chan0, chan, received, items, fates, turns, cap) && Tracks(chan0, chan, fates, turns)
    requires |fates| < |items| && Distinct(items) && Members(items) !! z0.Keys
    requires Selects(z, z', chan, chan', taken, items[|fates|], f, turns[|fates|], cap)
    ensures Offered(z0, z', chan0, chan', received + taken, items, fates + [f], turns, cap)
    ensures Tracks(chan0, chan', fates + [f], turns)
  {
    TracksOneMore(chan0, chan, chan', fates, f, turns);
    SelectedOneMore(|chan0|, fates, f, turns, cap);
    ReaddedOneMore(z0, z, z', items, fates, f);
    SentOneMore(items, fates, f, received, taken, chan0, chan, chan');
  }

  lemma BatchFits(z: ZSet, now: int, limit: nat)
    ensures var items := Range(z, now, limit);
            |items| <= limit && Distinct(items) && Members(items) !! (z - Members(items)).Keys
  {
    RangeOfMeetsSpec(z, Due(z, now), limit);
    RangeDistinct(z, now, limit);
  }

  lemma OfferedNone(z: ZSet, chan: seq<Id>, items: seq<Id>, turns: seq<Turn>, cap: nat)
    requires |chan| <= cap && |items| <= |turns|
    ensures Offered(z, z, chan, chan, [], items, [], turns, cap) && Tracks(chan, chan, [], turns)
  {
  }

  class Dispatcher {
    const store: Store
    const cap: nat
    const batchSize: nat
    const visibility: nat
    var jobChan: seq<Id>

    constructor (store: Store, cap: nat, batchSize: nat, visibility: nat)
      ensures this.store == store && this.cap == cap && this.batchSize == batchSize
      ensures this.visibility == visibility && jobChan == []
    {
      this.store, this.cap, this.batchSize, this.visibility := store, cap, batchSize, visibility;
      jobChan := [];
    }

    /** The select statement for one job, after the executors took `taken` from the channel. */
    method Offer(m: Id, t: Turn) returns (f: Fate, taken: seq<Id>)
      requires |jobChan| <= cap && ValidTurn(t)
      modifies `jobChan, store`schedule
      ensures Selects(old(store.schedule), store.schedule, old(jobChan), jobChan, taken, m, f, t, cap)
    {
      var n := if t.drained < |jobChan| then t.drained else |jobChan|;
      taken, jobChan := jobChan[..n], jobChan[n..];
      if |jobChan| < cap && (!t.done || t.picksSend) {
        jobChan := jobChan + [m];
        f := Sent;
      } else if t.done {
        f := Dropped;
      } else {
        var at := t.now + AddJitter(2000, t.draw);
        var ok := store.Schedule(m, at, t.attempts);
        f := if ok then Requeued(at) else GaveUp;
      }
    }

    /** The loop over the fetched jobs; it returns early only when the context is done. */
    method OfferAll(items: seq<Id>, turns: seq<Turn>) returns (fates: seq<Fate>, received: seq<Id>)
      requires |jobChan| <= cap && |items| <= |turns|
      requires forall t | t in turns :: ValidTurn(t)
      requires Distinct(items) && Members(items) !! store.schedule.Keys
      modifies `jobChan, store`schedule
      ensures Offered(old(store.schedule), store.schedule, old(jobChan), jobChan, received, items, fates, turns, cap)
      ensures |fates| == |items| || (fates != [] && fates[|fates| - 1].Dropped?)
    {
      fates, received := [], [];
      OfferedNone(store.schedule, jobChan, items, turns, cap);
      while |fates| < |items|
        invariant Offered(old(store.schedule), store.schedule, old(jobChan), jobChan, received,
                          items, fates, turns, cap)
        invariant Tracks(old(jobChan), jobChan, fates, turns)
        decreases |items| - |fates|
      {
        ghost var scheduled, chan := store.schedule, jobChan;
        var f, taken := Offer(items[|fates|], turns[|fates|]);
        OfferedOneMore(old(store.schedule), scheduled, store.schedule, old(jobChan), chan, jobChan,
                       received, taken, items, fates, f, turns, cap);
        fates, received := fates + [f], received + taken;
        if f.Dropped? { return; }
      }
    }

    /** doWorkWithReliability: every fetched job is inflight with the visibility deadline,
        whatever became of it in the loop; if the script is not reached nothing happens. */
    method DoWork(now: int, reached: bool, turns: seq<Turn>)
      returns (items: seq<Id>, fates: seq<Fate>, received: seq<Id>)
      requires |jobChan| <= cap && |turns| >= batchSize
      requires forall t | t in turns :: ValidTurn(t)
      modifies this, store
      ensures items == if reached then Range(old(store.schedule), now, batchSize) else []
      ensures IsPut(old(store.inflight), store.inflight, Members(items), now + visibility)
      ensures Offered(old(store.schedule) - Members(items), store.schedule, old(jobChan), jobChan, received,
                      items, fates, turns, cap)
      ensures |fates| == |items| || (fates != [] && fates[|fates| - 1].Dropped?)
    {
      items, fates, received := [], [], [];
      if !reached {
        OfferedNone(store.schedule, jobChan, [], turns, cap);
        return;
      }
      items := store.FetchAndMoveToInflight(now, batchSize, visibility);
      BatchFits(old(store.schedule), now, batchSize);
      fates, received := OfferAll(items, turns);
    }
  }
}
