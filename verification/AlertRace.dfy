/**
 The incident hash and the open incident rows of one monitor at the grain of single commands,
 with any number of failure and success workers, disables and crashes, interleaved in any order.
*/
module AlertRace {
  import opened Cardinality

  /** What happened to the key monitor:incident:<id>. */
  datatype Mark = Incr | Del

  /** A failure worker past its retry decision, or a success worker. `n` is the reply of the
      failure worker's HINCRBY and `at` the length of the key's history just after it. */
  datatype Phase =
    | Escalating                   // next HINCRBY
    | Counted(n: nat, at: nat)     // reply at or over the threshold: next HSETNX
    | Won(n: nat, at: nat)         // HSETNX set the flag: next HSET db_incident
    | Noted(n: nat, at: nat)       // next the row insert
    | Stored(n: nat, at: nat)      // next the send on alertChan
    | Recovering                   // a success: next HGETALL
    | Closing                      // read db_incident as true: next the close of the open rows
    | Clearing                     // next DEL

  datatype Race = Race(
    count: nat, alerted: bool, db: bool,      // the hash; a missing key has no field set
    open: nat,                                // incident rows without an end
    workers: map<nat, Phase>,
    log: seq<Mark>,
    wins: nat,                                // HSETNX that set the flag
    clears: nat,                              // deletions of the key while the flag was set
    sent: seq<nat>,                           // alerts sent, each with its worker's `at`
    lost: nat)                                // winners that crashed before sending

  const INIT := Race(0, false, false, 0, map[], [], 0, 0, [], 0)
  const THRESHOLD := 3

  datatype Step =
    | Begin(p: nat)
    | Increment(p: nat, ok: bool)
    | SetIfUnset(p: nat, ok: bool)
    | NoteRow(p: nat, ok: bool)
    | InsertRow(p: nat, ok: bool)
    | Send(p: nat)
    | Recover(p: nat)
    | Get(p: nat, ok: bool)
    | Close(p: nat, ok: bool)
    | Clear(p: nat, ok: bool)
    | Disable
    | Crash(ps: set<nat>)

  predicate Can(s: Race, st: Step) {
    match st
    case Begin(p) => p !in s.workers
    case Increment(p, _) => p in s.workers && s.workers[p].Escalating?
    case SetIfUnset(p, _) => p in s.workers && s.workers[p].Counted?
    case NoteRow(p, _) => p in s.workers && s.workers[p].Won?
    case InsertRow(p, _) => p in s.workers && s.workers[p].Noted?
    case Send(p) => p in s.workers && s.workers[p].Stored?
    case Recover(p) => p !in s.workers
    case Get(p, _) => p in s.workers && s.workers[p].Recovering?
    case Close(p, _) => p in s.workers && s.workers[p].Closing?
    case Clear(p, _) => p in s.workers && s.workers[p].Clearing?
    case Disable => true
    case Crash(_) => true
  }

  function End(s: Race, p: nat): Race { s.(workers := s.workers - {p}) }

  function DoIncrement(s: Race, p: nat, ok: bool): Race {
    if !ok then End(s, p)
    else
      var s' := s.(count := s.count + 1, log := s.log + [Incr]);
      if s'.count < THRESHOLD then End(s', p)
      else s'.(workers := s.workers[p := Counted(s'.count, |s'.log|)])
  }

  function DoSetIfUnset(s: Race, p: nat, ok: bool): Race
    requires p in s.workers && s.workers[p].Counted?
  {
    if !ok || s.alerted then End(s, p)
    else s.(alerted := true, wins := s.wins + 1, workers := s.workers[p := Won(s.workers[p].n, s.workers[p].at)])
  }

  function DoDelete(s: Race): Race {
    s.(count := 0, alerted := false, db := false, log := s.log + [Del],
       clears := s.clears + if s.alerted then 1 else 0)
  }

  predicate Winner(f: Phase) { f.Won? || f.Noted? || f.Stored? }

  /** Workers that set the flag and have not sent their alert yet. */
  function Pending(s: Race): set<nat> {
    set p | p in s.workers && Winner(s.workers[p])
  }

  function Do(s: Race, st: Step): Race
    requires Can(s, st)
  {
    match st
    case Begin(p) => s.(workers := s.workers[p := Escalating])
    case Increment(p, ok) => DoIncrement(s, p, ok)
    case SetIfUnset(p, ok) => DoSetIfUnset(s, p, ok)
    case NoteRow(p, ok) =>
      s.(db := s.db || ok, workers := s.workers[p := Noted(s.workers[p].n, s.workers[p].at)])
    case InsertRow(p, ok) =>
      s.(open := s.open + if ok then 1 else 0, workers := s.workers[p := Stored(s.workers[p].n, s.workers[p].at)])
    case Send(p) => End(s, p).(sent := s.sent + [s.workers[p].at])
    case Recover(p) => s.(workers := s.workers[p := Recovering])
    case Get(p, ok) =>
      if ok then s.(workers := s.workers[p := if s.db then Closing else Clearing]) else End(s, p)
    case Close(p, ok) => s.(open := if ok then 0 else s.open, workers := s.workers[p := Clearing])
    case Clear(p, ok) => End(if ok then DoDelete(s) else s, p)
    case Disable => DoDelete(s)
    case Crash(ps) => s.(workers := s.workers - ps, lost := s.lost + |Pending(s) * ps|)
  }

  ghost predicate IsRun(ss: seq<Race>, sts: seq<Step>) {
    && |ss| == |sts| + 1
    && forall i | 0 <= i < |sts| :: Can(ss[i], sts[i]) && ss[i + 1] == Do(ss[i], sts[i])
  }

  // ---- Deduplication as conservation ------------------------------------------------------

  /** Every time the flag was set it has since been deleted or is set now; every winner has
      sent its alert, is about to, or was lost in a crash. */
  predicate Conserved(s: Race) {
    && s.wins == s.clears + (if s.alerted then 1 else 0)
    && |s.sent| + |Pending(s)| + s.lost == s.wins
  }

  lemma PendingBut(s: Race, s': Race, p: nat)
    requires s'.workers - {p} == s.workers - {p}
    ensures |Pending(s')| - In(p, Pending(s')) == |Pending(s)| - In(p, Pending(s))
  {
    forall q | q != p ensures q in Pending(s') <==> q in Pending(s) {
      assert q in s.workers <==> q in s.workers - {p};
      assert q in s'.workers <==> q in s'.workers - {p};
      assert q in s.workers ==> s.workers[q] == (s.workers - {p})[q];
    }
    But(Pending(s'), Pending(s), p);
  }

  lemma PendingCrash(s: Race, s': Race, ps: set<nat>)
    requires s'.workers == s.workers - ps
    ensures |Pending(s')| + |Pending(s) * ps| == |Pending(s)|
  {
    assert Pending(s') == Pending(s) - ps;
    Split(Pending(s), ps);
  }

  /** A step of one worker that leaves the hash's flag and the sent alerts alone. */
  lemma ConservedOne(s: Race, s': Race, p: nat)
    requires Conserved(s) && s'.workers - {p} == s.workers - {p} && s'.lost == s.lost
    requires s'.clears == s.clears && s'.alerted == s.alerted && s'.wins == s.wins
    requires |s'.sent| + In(p, Pending(s')) == |s.sent| + In(p, Pending(s))
    ensures Conserved(s')
  {
    PendingBut(s, s', p);
  }

  lemma ConservedWin(s: Race, p: nat, ok: bool)
    requires Conserved(s) && Can(s, SetIfUnset(p, ok))
    ensures Conserved(DoSetIfUnset(s, p, ok))
  {
    var s' := DoSetIfUnset(s, p, ok);
    assert s'.workers - {p} == s.workers - {p};
    PendingBut(s, s', p);
  }

  lemma ConservedClear(s: Race, p: nat, ok: bool)
    requires Conserved(s) && Can(s, Clear(p, ok))
    ensures Conserved(Do(s, Clear(p, ok)))
  {
    var s' := Do(s, Clear(p, ok));
    assert s'.workers - {p} == s.workers - {p};
    PendingBut(s, s', p);
  }

  lemma ConservedRaise(s: Race, st: Step)
    requires Conserved(s) && Can(s, st) && (st.NoteRow? || st.InsertRow? || st.Send?)
    ensures Conserved(Do(s, st))
  {
    var s' := Do(s, st);
    assert s'.workers - {st.p} == s.workers - {st.p};
    ConservedOne(s, s', st.p);
  }

  lemma ConservedStep(s: Race, st: Step)
    requires Conserved(s) && Can(s, st)
    ensures Conserved(Do(s, st))
  {
    var s' := Do(s, st);
    match st
    case Disable => assert Pending(s') == Pending(s);
    case Crash(ps) => PendingCrash(s, s', ps);
    case SetIfUnset(p, ok) => ConservedWin(s, p, ok);
    case Clear(p, ok) => ConservedClear(s, p, ok);
    case NoteRow(_, _) => ConservedRaise(s, st);
    case InsertRow(_, _) => ConservedRaise(s, st);
    case Send(_) => ConservedRaise(s, st);
    case _ =>
      assert s'.workers - {st.p} == s.workers - {st.p};
      ConservedOne(s, s', st.p);
  }

  /** In every run the alerts sent, pending or lost are exactly the deletions of an alerted
      hash plus the one that stands: one alert for each alerted lifetime of the hash. */
  lemma {:induction false} AlertsConserved(ss: seq<Race>, sts: seq<Step>, k: nat)
    requires IsRun(ss, sts) && ss[0] == INIT && k < |ss|
    ensures Conserved(ss[k])
    ensures |ss[k].sent| <= ss[k].clears + 1
  {
    if k == 0 {
      assert Pending(INIT) == {};
    } else {
      AlertsConserved(ss, sts, k - 1);
      ConservedStep(ss[k - 1], sts[k - 1]);
    }
  }

  /** Any workers can crash at any time: the hash, the rows and the alerts sent stay, and exactly the
      winners among them are lost. */
  lemma CrashLosesWinners(s: Race, ps: set<nat>) returns (t: Race)
    ensures IsRun([s, t], [Crash(ps)])
    ensures t.workers == s.workers - ps && t.sent == s.sent && t.log == s.log && t.wins == s.wins
    ensures t.count == s.count && t.alerted == s.alerted && t.db == s.db && t.open == s.open
    ensures t.lost + |Pending(t)| == s.lost + |Pending(s)|
  {
    t := Do(s, Crash(ps));
    PendingCrash(s, t, ps);
  }

  // ---- Every alert is justified --------------------------------------------------------------

  /** Increments since the key was last deleted. */
  function SinceDel(log: seq<Mark>): nat {
    if log == [] || log[|log| - 1].Del? then 0 else 1 + SinceDel(log[..|log| - 1])
  }

  /** The last SinceDel marks are increments, with no deletion among them. */
  lemma {:induction false} EscalationsInARow(log: seq<Mark>)
    ensures SinceDel(log) <= |log|
    ensures forall i | |log| - SinceDel(log) <= i < |log| :: log[i] == Incr
  {
    if log != [] && log[|log| - 1].Incr? { EscalationsInARow(log[..|log| - 1]); }
  }

  predicate Counting(f: Phase) { f.Counted? || Winner(f) }

  predicate JustifiedAt(log: seq<Mark>, n: nat, at: nat) {
    at <= |log| && n >= THRESHOLD && SinceDel(log[..at]) == n
  }

  ghost predicate Justified(s: Race) {
    && s.count == SinceDel(s.log)
    && (forall p | p in s.workers && Counting(s.workers[p]) :: JustifiedAt(s.log, s.workers[p].n, s.workers[p].at))
    && (forall at | at in s.sent :: exists n: nat :: JustifiedAt(s.log, n, at))
  }

  lemma JustifiedLater(log: seq<Mark>, mark: Mark, n: nat, at: nat)
    requires JustifiedAt(log, n, at)
    ensures JustifiedAt(log + [mark], n, at)
  {
    assert (log + [mark])[..at] == log[..at];
  }

  /** A mark on the key's history justifies what was justified before. */
  lemma JustifiedAppend(s: Race, s': Race, mark: Mark)
    requires Justified(s) && s'.log == s.log + [mark] && s'.sent == s.sent
    requires s'.count == SinceDel(s'.log)
    requires forall p | p in s'.workers && Counting(s'.workers[p]) ::
               || (p in s.workers && s'.workers[p] == s.workers[p])
               || JustifiedAt(s'.log, s'.workers[p].n, s'.workers[p].at)
    ensures Justified(s')
  {
    forall p | p in s'.workers && Counting(s'.workers[p])
      ensures JustifiedAt(s'.log, s'.workers[p].n, s'.workers[p].at)
    {
      if p in s.workers && s'.workers[p] == s.workers[p] {
        JustifiedLater(s.log, mark, s.workers[p].n, s.workers[p].at);
      }
    }
    forall at | at in s'.sent ensures exists n: nat :: JustifiedAt(s'.log, n, at) {
      var n: nat :| JustifiedAt(s.log, n, at);
      JustifiedLater(s.log, mark, n, at);
    }
  }

  lemma SinceDelNext(log: seq<Mark>)
    ensures SinceDel(log + [Incr]) == SinceDel(log) + 1
  {
    assert (log + [Incr])[..|log|] == log;
  }

  lemma JustifiedIncrement(s: Race, p: nat)
    requires Justified(s) && Can(s, Increment(p, true))
    ensures Justified(DoIncrement(s, p, true))
  {
    var s' := DoIncrement(s, p, true);
    SinceDelNext(s.log);
    assert p in s'.workers ==> JustifiedAt(s'.log, s'.workers[p].n, s'.workers[p].at) by {
      assert s'.log[..|s'.log|] == s'.log;
    }
    JustifiedAppend(s, s', Incr);
  }

  /** A step that leaves the key's history alone justifies what it sends and keeps. */
  lemma JustifiedKept(s: Race, s': Race)
    requires Justified(s) && s'.log == s.log && s'.count == s.count
    requires forall p | p in s'.workers && Counting(s'.workers[p]) ::
               && p in s.workers && Counting(s.workers[p])
               && s'.workers[p].n == s.workers[p].n && s'.workers[p].at == s.workers[p].at
    requires forall at | at in s'.sent ::
               || at in s.sent
               || exists p :: p in s.workers && Counting(s.workers[p]) && s.workers[p].at == at
    ensures Justified(s')
  {
    forall at | at in s'.sent ensures exists n: nat :: JustifiedAt(s'.log, n, at) {
      if at !in s.sent {
        var p :| p in s.workers && Counting(s.workers[p]) && s.workers[p].at == at;
        assert JustifiedAt(s.log, s.workers[p].n, at);
      }
    }
  }

  lemma JustifiedStep(s: Race, st: Step)
    requires Justified(s) && Can(s, st)
    ensures Justified(Do(s, st))
  {
    var s' := Do(s, st);
    if s'.log == s.log {
      if st.Send? { assert Counting(s.workers[st.p]); }
      JustifiedKept(s, s');
    } else if st.Increment? {
      JustifiedIncrement(s, st.p);
    } else {
      JustifiedAppend(s, s', Del);
    }
  }

  /** In every interleaving, each alert sent belongs to a worker whose increment was the last of
      at least three in a row on the key, with no deletion among them. */
  lemma {:induction false} EveryAlertJustified(ss: seq<Race>, sts: seq<Step>, k: nat)
    requires IsRun(ss, sts) && ss[0] == INIT && k < |ss|
    ensures Justified(ss[k])
    ensures forall at | at in ss[k].sent ::
              3 <= at <= |ss[k].log| && forall i | at - 3 <= i < at :: ss[k].log[i] == Incr
  {
    if k > 0 {
      EveryAlertJustified(ss, sts, k - 1);
      JustifiedStep(ss[k - 1], sts[k - 1]);
    }
    var s := ss[k];
    forall at | at in s.sent
      ensures 3 <= at <= |s.log| && forall i | at - 3 <= i < at :: s.log[i] == Incr
    {
      EscalationsInARow(s.log[..at]);
    }
  }
}
