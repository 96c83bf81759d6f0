/**
 Order in the pipeline: each of its five channels hands jobs over in the order in which they were
 sent, over every run.
*/
module PipelineOrder {
  import opened Pipeline
  import opened PipelineShutdown
  import opened PipelineFlow

  datatype Link = ToExecutor | ToRouter | ToSuccess | ToFailure | ToAlert

  function Queue(s: State, l: Link): seq<Job> {
    match l
    case ToExecutor => s.jobs.q
    case ToRouter => s.results.q
    case ToSuccess => s.successes.q
    case ToFailure => s.failures.q
    case ToAlert => s.alerts.q
  }

  /** What the receivers of a channel hold right after a receive. */
  function Holding(s: State, l: Link): Jobs {
    match l
    case ToExecutor => s.exec.loading
    case ToRouter => if s.router.Routing? then One(s.router.job) else NOBODY
    case ToSuccess => s.success.busy
    case ToFailure => s.failure.busy
    case ToAlert => s.alert.busy
  }

  /** What a step sends into a channel. */
  function Sent(s: State, st: Step, l: Link): seq<Job> {
    match st
    case Submit(j) => if l.ToExecutor? then [j] else []
    case SendResult(j) => if l.ToRouter? then [j] else []
    case Route =>
      if s.router.Routing? && l == (if s.router.job.fate.Up? then ToSuccess else ToFailure) then [s.router.job] else []
    case SendAlert(j) => if l.ToAlert? then [j] else []
    case _ => []
  }

  predicate Receives(st: Step, l: Link) {
    match l
    case ToExecutor => st.Receive?
    case ToRouter => st.RouterReceives?
    case ToSuccess => st.SuccessReceives?
    case ToFailure => st.FailureReceives?
    case ToAlert => st.AlertReceives?
  }

  /** The job that a receiver has after the step and did not have before. */
  ghost predicate Gains(s: State, s': State, l: Link, j: Job) {
    Holding(s', l) == Holding(s, l) + One(j)
  }

  ghost function Received(s: State, st: Step, s': State, l: Link): seq<Job> {
    if Receives(st, l) && exists j :: Gains(s, s', l, j) then
      var j :| Gains(s, s', l, j); [j]
    else []
  }

  lemma GainsOne(s: State, s': State, l: Link, j: Job, k: Job)
    requires Gains(s, s', l, j) && Gains(s, s', l, k)
    ensures j == k
  {
    assert Holding(s', l)[j] == Holding(s, l)[j] + 1;
  }

  /** A receive takes the head of the queue. */
  lemma GainsHead(c: Config, s: State, st: Step, l: Link)
    requires Can(c, s, st) && Receives(st, l)
    ensures Queue(s, l) != [] && Gains(s, Do(c, s, st), l, Queue(s, l)[0])
    ensures Queue(Do(c, s, st), l) == Queue(s, l)[1..]
  {
    match l
    case ToExecutor =>
    case ToRouter =>
    case ToSuccess =>
    case ToFailure =>
    case ToAlert =>
  }

  lemma TakesHead(s: State, st: Step, s': State, l: Link)
    requires Receives(st, l) && Queue(s, l) != []
    requires Gains(s, s', l, Queue(s, l)[0]) && Queue(s', l) == Queue(s, l)[1..]
    ensures Queue(s, l) == Received(s, st, s', l) + Queue(s', l)
  {
    var head := Queue(s, l)[0];
    var j :| Gains(s, s', l, j) && Received(s, st, s', l) == [j];
    GainsOne(s, s', l, j, head);
  }

  /** Nothing is sent on a closed channel. */
  predicate SendsOpen(s: State, st: Step) {
    && (st.Submit? ==> !s.jobs.closed)
    && (st.SendResult? ==> !s.results.closed)
    && (st.Route? ==> !s.successes.closed && !s.failures.closed)
    && (st.SendAlert? ==> !s.alerts.closed)
  }

  lemma AlwaysSendsOpen(c: Config, s: State, st: Step)
    requires Inv(c, s) && Can(c, s, st)
    ensures SendsOpen(s, st)
  {
  }

  // Stage by stage, any other step appends what it sends.

  predicate OfShutdown(st: Step) {
    !OfExecutor(st) && !OfHttp(st) && !OfRouter(st) && !OfSuccess(st) && !OfFailure(st) && !OfAlert(st)
  }

  lemma ExecutorAppends(c: Config, s: State, st: Step, l: Link)
    requires Can(c, s, st) && OfExecutor(st) && SendsOpen(s, st) && !Receives(st, l)
    ensures Queue(DoExecutor(s, st), l) == Queue(s, l) + Sent(s, st, l)
  {
  }

  lemma HttpAppends(c: Config, s: State, st: Step, l: Link)
    requires Can(c, s, st) && OfHttp(st) && SendsOpen(s, st) && !Receives(st, l)
    ensures Queue(DoHttp(s, st), l) == Queue(s, l) + Sent(s, st, l)
  {
  }

  lemma RouterAppends(c: Config, s: State, st: Step, l: Link)
    requires Can(c, s, st) && OfRouter(st) && SendsOpen(s, st) && !Receives(st, l)
    ensures Queue(DoRouter(s, st), l) == Queue(s, l) + Sent(s, st, l)
  {
  }

  lemma SuccessAppends(c: Config, s: State, st: Step, l: Link)
    requires Can(c, s, st) && OfSuccess(st) && SendsOpen(s, st) && !Receives(st, l)
    ensures Queue(DoSuccess(s, st), l) == Queue(s, l) + Sent(s, st, l)
  {
  }

  lemma FailureAppends(c: Config, s: State, st: Step, l: Link)
    requires Can(c, s, st) && OfFailure(st) && SendsOpen(s, st) && !Receives(st, l)
    ensures Queue(DoFailure(s, st), l) == Queue(s, l) + Sent(s, st, l)
  {
  }

  lemma AlertAppends(c: Config, s: State, st: Step, l: Link)
    requires Can(c, s, st) && OfAlert(st) && SendsOpen(s, st) && !Receives(st, l)
    ensures Queue(DoAlert(s, st), l) == Queue(s, l) + Sent(s, st, l)
  {
  }

  lemma ShutdownAppends(c: Config, s: State, st: Step, l: Link)
    requires Can(c, s, st) && OfShutdown(st) && SendsOpen(s, st) && !Receives(st, l)
    ensures Queue(DoShutdown(s, st), l) == Queue(s, l) + Sent(s, st, l)
  {
  }

  lemma Appends(c: Config, s: State, st: Step, l: Link)
    requires Can(c, s, st) && SendsOpen(s, st) && !Receives(st, l)
    ensures Queue(Do(c, s, st), l) == Queue(s, l) + Sent(s, st, l)
  {
    if OfExecutor(st) {
      ExecutorAppends(c, s, st, l);
    } else if OfHttp(st) {
      HttpAppends(c, s, st, l);
    } else if OfRouter(st) {
      RouterAppends(c, s, st, l);
    } else if OfSuccess(st) {
      SuccessAppends(c, s, st, l);
    } else if OfFailure(st) {
      FailureAppends(c, s, st, l);
    } else if OfAlert(st) {
      AlertAppends(c, s, st, l);
    } else {
      ShutdownAppends(c, s, st, l);
    }
  }

  lemma FifoStep(c: Config, s: State, st: Step, l: Link)
    requires Inv(c, s) && Can(c, s, st)
    ensures Queue(s, l) + Sent(s, st, l) == Received(s, st, Do(c, s, st), l) + Queue(Do(c, s, st), l)
  {
    if Receives(st, l) {
      GainsHead(c, s, st, l);
      TakesHead(s, st, Do(c, s, st), l);
    } else {
      AlwaysSendsOpen(c, s, st);
      Appends(c, s, st, l);
    }
  }

  function Concat(parts: seq<seq<Job>>): seq<Job> {
    if parts == [] then [] else Concat(parts[..|parts| - 1]) + parts[|parts| - 1]
  }

  /** What each step of a run sent into the channel, and what it received from it. */
  function SentParts(ss: seq<State>, sts: seq<Step>, l: Link): seq<seq<Job>>
    requires |ss| == |sts| + 1
  {
    seq(|sts|, i requires 0 <= i < |sts| => Sent(ss[i], sts[i], l))
  }

  ghost function ReceivedParts(ss: seq<State>, sts: seq<Step>, l: Link): seq<seq<Job>>
    requires |ss| == |sts| + 1
  {
    seq(|sts|, i requires 0 <= i < |sts| => Received(ss[i], sts[i], ss[i + 1], l))
  }

  ghost function Queues(ss: seq<State>, l: Link): seq<seq<Job>> {
    seq(|ss|, i requires 0 <= i < |ss| => Queue(ss[i], l))
  }

  lemma {:induction false} PartsInOrder(qs: seq<seq<Job>>, sent: seq<seq<Job>>, received: seq<seq<Job>>, k: nat)
    requires |sent| == |received| == |qs| - 1 && k < |qs| && qs[0] == []
    requires forall i | 0 <= i < |sent| :: qs[i] + sent[i] == received[i] + qs[i + 1]
    ensures Concat(received[..k]) + qs[k] == Concat(sent[..k])
  {
    if k > 0 {
      PartsInOrder(qs, sent, received, k - 1);
      assert received[..k][..k - 1] == received[..k - 1] && sent[..k][..k - 1] == sent[..k - 1];
      var before := Concat(received[..k - 1]);
      assert (before + received[k - 1]) + qs[k] == before + (received[k - 1] + qs[k]);
      assert before + (qs[k - 1] + sent[k - 1]) == (before + qs[k - 1]) + sent[k - 1];
    }
  }

  /** In every run the jobs received from a channel in the first `k` steps, followed by its queue,
      are the jobs sent into it in those steps, all in order. */
  lemma ChannelsAreFifo(c: Config, ss: seq<State>, sts: seq<Step>, l: Link, k: nat)
    requires c.Valid() && IsRun(c, ss, sts) && ss[0] == Init(c) && k < |ss|
    ensures Concat(ReceivedParts(ss, sts, l)[..k]) + Queue(ss[k], l) == Concat(SentParts(ss, sts, l)[..k])
  {
    var qs, sent, received := Queues(ss, l), SentParts(ss, sts, l), ReceivedParts(ss, sts, l);
    forall i | 0 <= i < |sts| ensures qs[i] + sent[i] == received[i] + qs[i + 1] {
      AlwaysSound(c, ss, sts, i, Job(0, Gone));
      FifoStep(c, ss[i], sts[i], l);
    }
    PartsInOrder(qs, sent, received, k);
  }

  lemma WholeLogs(ss: seq<State>, sts: seq<Step>, l: Link)
    requires |ss| == |sts| + 1
    ensures ReceivedParts(ss, sts, l)[..|sts|] == ReceivedParts(ss, sts, l)
    ensures SentParts(ss, sts, l)[..|sts|] == SentParts(ss, sts, l)
  {
  }

  lemma DownQueueEmpty(c: Config, s: State, l: Link)
    requires ShutDown(c, s)
    ensures Queue(s, l) == []
  {
  }

  /** At the end of every run that goes on while it can, each channel has handed over exactly what
      was sent into it, in order. */
  lemma AllHandedOver(c: Config, ss: seq<State>, sts: seq<Step>, l: Link)
    requires c.Valid() && IsRun(c, ss, sts) && ss[0] == Init(c)
    requires ss[|sts|].schedulerDone && !Enabled(c, ss[|sts|])
    ensures Concat(ReceivedParts(ss, sts, l)) == Concat(SentParts(ss, sts, l))
  {
    ChannelsAreFifo(c, ss, sts, l, |sts|);
    MaximalRunsShutDown(c, ss, sts, Job(0, Gone));
    DownQueueEmpty(c, ss[|sts|], l);
    WholeLogs(ss, sts, l);
  }
}
