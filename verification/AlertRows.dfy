/**
 Incident rows against the incident hash, one command a step: exactly which commands leave an
 open row that a success will not find, and that handlers of one monitor that do not overlap
 keep the rows and both flags in agreement.
*/
module AlertRows {
  import opened AlertRace

  // ---- Will a success find the open rows? --------------------------------------------------

  /** A success looks for open rows exactly when db_incident is set, and then closes them all. */
  predicate Found(s: Race) { s.open > 0 ==> s.db }

  /** The commands of a success that nothing interrupts. */
  function SuccessSteps(s: Race, q: nat): seq<Step> {
    [Recover(q), Get(q, true)] + (if s.db then [Close(q, true)] else []) + [Clear(q, true)]
  }

  /** Such a success leaves no open row if and only if the rows are found. */
  lemma SuccessClosesExactly(s: Race, q: nat) returns (ss: seq<Race>)
    requires q !in s.workers
    ensures IsRun(ss, SuccessSteps(s, q)) && ss[0] == s
    ensures var t := ss[|ss| - 1];
            && (t.open == 0 <==> Found(s))
            && !t.db && !t.alerted && t.count == 0 && t.workers == s.workers
  {
    var s1 := Do(s, Recover(q));
    var s2 := Do(s1, Get(q, true));
    if s.db {
      var s3 := Do(s2, Close(q, true));
      ss := [s, s1, s2, s3, Do(s3, Clear(q, true))];
    } else {
      ss := [s, s1, s2, Do(s2, Clear(q, true))];
    }
    assert ss[|ss| - 1].workers == s.workers;
  }

  /** The commands that leave an open row a success will not find: an insert while db_incident is
      not set, and a deletion of the key over an open row. */
  predicate Hides(s: Race, st: Step) {
    match st
    case InsertRow(_, ok) => ok && !s.db
    case Clear(_, ok) => ok && s.open > 0
    case Disable => s.open > 0
    case _ => false
  }

  /** From any state, exactly those commands. */
  lemma FoundStep(s: Race, st: Step)
    requires Found(s) && Can(s, st)
    ensures Found(Do(s, st)) <==> !Hides(s, st)
  {
  }

  lemma {:induction false} FoundUpTo(ss: seq<Race>, sts: seq<Step>, k: nat)
    requires IsRun(ss, sts) && ss[0] == INIT && k < |ss|
    ensures (forall i | 0 <= i <= k :: Found(ss[i])) <==> (forall i | 0 <= i < k :: !Hides(ss[i], sts[i]))
  {
    if k > 0 {
      FoundUpTo(ss, sts, k - 1);
      assert ss[k] == Do(ss[k - 1], sts[k - 1]);
      if Found(ss[k - 1]) { FoundStep(ss[k - 1], sts[k - 1]); }
    }
  }

  /** Over every run, in any interleaving: a success would find every open row at all times if and
      only if none of those commands occurs. */
  lemma RowsFoundExactly(ss: seq<Race>, sts: seq<Step>)
    requires IsRun(ss, sts) && ss[0] == INIT
    ensures (forall s | s in ss :: Found(s)) <==> (forall i | 0 <= i < |sts| :: !Hides(ss[i], sts[i]))
  {
    FoundUpTo(ss, sts, |sts|);
  }

  // ---- At most one row, with both flags ----------------------------------------------------

  /** At most one open row, and both flags set while there is one. */
  predicate OneFlaggedRow(s: Race) {
    s.open <= 1 && (s.open > 0 ==> s.alerted && s.db)
  }

  /** An insert beside another open row or without both flags, or a deletion of the key over an
      open row. */
  predicate Unflags(s: Race, st: Step) {
    match st
    case InsertRow(_, ok) => ok && (s.open > 0 || !s.alerted || !s.db)
    case Clear(_, ok) => ok && s.open > 0
    case Disable => s.open > 0
    case _ => false
  }

  lemma OneFlaggedRowStep(s: Race, st: Step)
    requires OneFlaggedRow(s) && Can(s, st)
    ensures OneFlaggedRow(Do(s, st)) <==> !Unflags(s, st)
  {
  }

  lemma {:induction false} OneFlaggedRowUpTo(ss: seq<Race>, sts: seq<Step>, k: nat)
    requires IsRun(ss, sts) && ss[0] == INIT && k < |ss|
    ensures (forall i | 0 <= i <= k :: OneFlaggedRow(ss[i])) <==> (forall i | 0 <= i < k :: !Unflags(ss[i], sts[i]))
  {
    if k > 0 {
      OneFlaggedRowUpTo(ss, sts, k - 1);
      assert ss[k] == Do(ss[k - 1], sts[k - 1]);
      if OneFlaggedRow(ss[k - 1]) { OneFlaggedRowStep(ss[k - 1], sts[k - 1]); }
    }
  }

  // ---- Which commands to keep apart ----------------------------------------------------------

  /** Between the HSETNX that won and the insert of its row. */
  predicate Unplaced(f: Phase) { f.Won? || f.Noted? }

  predicate AnyUnplaced(s: Race) { exists p :: p in s.workers && Unplaced(s.workers[p]) }

  /** One flagged row at most, also counting a row on its way: one winner at most is about to
      insert, there is no open row yet, and the key holds what that winner has written. */
  predicate Placed(s: Race) {
    && OneFlaggedRow(s)
    && (s.db ==> s.alerted)
    && (forall p | p in s.workers && Unplaced(s.workers[p]) ::
          s.alerted && s.open == 0 && (s.workers[p].Noted? <==> s.db))
    && (forall p, q | p in s.workers && q in s.workers && Unplaced(s.workers[p]) && Unplaced(s.workers[q]) :: p == q)
  }

  /** The key is deleted over an open row or a row on its way, or a mark is lost. */
  predicate Orphans(s: Race, st: Step) {
    match st
    case NoteRow(_, ok) => !ok
    case Clear(_, ok) => ok && (s.open > 0 || AnyUnplaced(s))
    case Disable => s.open > 0 || AnyUnplaced(s)
    case _ => false
  }

  lemma PlacedDelete(s: Race, s': Race)
    requires Placed(s) && s'.open == s.open && !s'.alerted && !s'.db
    requires forall p :: (p in s'.workers && Unplaced(s'.workers[p])) <==> (p in s.workers && Unplaced(s.workers[p]))
    ensures Placed(s') <==> s.open == 0 && !AnyUnplaced(s)
  {
    if AnyUnplaced(s) {
      var p :| p in s.workers && Unplaced(s.workers[p]);
      assert p in s'.workers && Unplaced(s'.workers[p]);
    }
  }

  lemma PlacedStep(s: Race, st: Step)
    requires Placed(s) && Can(s, st)
    ensures Placed(Do(s, st)) <==> !Orphans(s, st)
  {
    var s' := Do(s, st);
    match st
    case Clear(p, ok) => if ok { PlacedDelete(s, s'); }
    case Disable => PlacedDelete(s, s');
    case NoteRow(p, ok) =>
      assert Unplaced(s.workers[p]) && s'.workers[p].Noted?;
    case _ =>
  }

  /** In every interleaving of any number of workers in which no command orphans a row, there is
      at most one open row and both flags are set while there is. */
  lemma {:induction false} RowsStayFlagged(ss: seq<Race>, sts: seq<Step>, k: nat)
    requires IsRun(ss, sts) && ss[0] == INIT && k < |ss|
    requires forall i | 0 <= i < k :: !Orphans(ss[i], sts[i])
    ensures Placed(ss[k])
  {
    if k > 0 {
      RowsStayFlagged(ss, sts, k - 1);
      PlacedStep(ss[k - 1], sts[k - 1]);
    }
  }

  // ---- Handlers that do not overlap ---------------------------------------------------------

  /** A handler of the monitor starts when no other is at work, marks and closes succeed, and a
      disable deletes no key that a row needs. Any other command may fail, inserts included, and
      any handler may crash at any point. */
  predicate Alone(s: Race, st: Step) {
    match st
    case Begin(_) => s.workers == map[]
    case Recover(_) => s.workers == map[]
    case NoteRow(_, ok) => ok
    case Close(_, ok) => ok
    case Disable => !Orphans(s, st)
    case _ => true
  }

  predicate Single(s: Race) {
    && (forall p, q | p in s.workers && q in s.workers :: p == q)
    && (forall p | p in s.workers && s.workers[p].Clearing? :: s.open == 0)
  }

  lemma SingleStep(s: Race, st: Step)
    requires Placed(s) && Single(s) && Can(s, st) && Alone(s, st)
    ensures !Orphans(s, st) && Single(Do(s, st))
  {
  }

  /** While handlers of the monitor do not overlap (as when every token is spent before its
      deadline), rows and hash agree after every single command, across crashes, and a success
      that comes to clear the key leaves no open row. */
  lemma {:induction false} LoneHandlersKeepRows(ss: seq<Race>, sts: seq<Step>, k: nat)
    requires IsRun(ss, sts) && ss[0] == INIT && k < |ss|
    requires forall i | 0 <= i < k :: Alone(ss[i], sts[i])
    ensures Placed(ss[k]) && Single(ss[k])
    ensures k > 0 && sts[k - 1].Clear? ==> ss[k].open == 0
  {
    if k > 0 {
      LoneHandlersKeepRows(ss, sts, k - 1);
      SingleStep(ss[k - 1], sts[k - 1]);
      PlacedStep(ss[k - 1], sts[k - 1]);
    }
  }

  // ---- Overlap orphans a row ----------------------------------------------------------------

  /** The open row stays behind: the next success finds no mark and does not close it. */
  lemma OrphanOutlivesSuccess(s: Race, q: nat) returns (ss: seq<Race>)
    requires q !in s.workers && !s.db
    ensures IsRun(ss, [Recover(q), Get(q, true), Clear(q, true)])
    ensures ss[0] == s && ss[3].open == s.open && !ss[3].db && ss[3].workers == s.workers
  {
    var s1 := Do(s, Recover(q));
    var s2 := Do(s1, Get(q, true));
    ss := [s, s1, s2, Do(s2, Clear(q, true))];
  }

  /** From any state, a success whose commands all succeed between a winner's mark and its insert
      orphans the row: it is open and the key is gone. */
  lemma SuccessPastMarkOrphans(s: Race, p: nat, q: nat) returns (ss: seq<Race>)
    requires p in s.workers && s.workers[p].Noted? && s.db && q !in s.workers
    ensures IsRun(ss, [Recover(q), Get(q, true), Close(q, true), Clear(q, true), InsertRow(p, true)])
    ensures ss[0] == s && ss[5].open == 1 && !ss[5].alerted && !ss[5].db && q !in ss[5].workers
  {
    var s1 := Do(s, Recover(q));
    var s2 := Do(s1, Get(q, true));
    var s3 := Do(s2, Close(q, true));
    var s4 := Do(s3, Clear(q, true));
    ss := [s, s1, s2, s3, s4, Do(s4, InsertRow(p, true))];
  }

  /** Three failures bring a worker there. */
  lemma MarkedReachable() returns (ss: seq<Race>)
    ensures IsRun(ss, [Begin(0), Increment(0, true), Begin(0), Increment(0, true),
                       Begin(0), Increment(0, true), SetIfUnset(0, true), NoteRow(0, true)])
    ensures ss[0] == INIT && ss[8].db && ss[8].workers == map[0 := Noted(3, 3)]
  {
    var s1 := Do(INIT, Begin(0));
    var s2 := Do(s1, Increment(0, true));
    var s3 := Do(s2, Begin(0));
    var s4 := Do(s3, Increment(0, true));
    var s5 := Do(s4, Begin(0));
    var s6 := Do(s5, Increment(0, true));
    var s7 := Do(s6, SetIfUnset(0, true));
    ss := [INIT, s1, s2, s3, s4, s5, s6, s7, Do(s7, NoteRow(0, true))];
  }
}
