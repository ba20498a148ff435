/**
 Batching preserves meaning: with a handler that treats the messages of a batch one by one, a batched
 receiver answers exactly as an unbatched one, whatever the interleaving.
 */
module Meaning {
  import opened Machine
  import opened Formation
  import opened Ledger
  import opened Invariant
  import opened Conservation
  import opened Progress

  // ---------------------------------------------------------------- a pointwise handler

  function Each(h: Msg -> Reply, msgs: seq<Msg>): seq<Reply> {
    seq(|msgs|, k requires 0 <= k < |msgs| => h(msgs[k]))
  }

  /** The handler succeeds and treats each message on its own. */
  predicate Pointwise(h: Msg -> Reply, s: State, a: Act) {
    a.Do? && a.work.Handle? && a.work.task < |s.work.tasks| ==>
      a.work.out == Done(Each(h, s.work.tasks[a.work.task].msgs))
  }

  ghost predicate PointwiseRun(c: Config, h: Msg -> Reply, s: State, acts: seq<Act>)
    requires Valid(c, s, acts)
    decreases |acts|
  {
    acts == [] || (Pointwise(h, s, acts[0]) && PointwiseRun(c, h, Apply(c, s, acts[0]), acts[1..]))
  }

  // ---------------------------------------------------------------- each id keeps its own message

  predicate Own(jobs: seq<Job>, m: Mid, x: Msg) {
    m.id < |jobs| && m == MidOf(jobs[m.id], m.id) && x == jobs[m.id].msg
  }

  predicate OwnAll(jobs: seq<Job>, mids: seq<Mid>, msgs: seq<Msg>) {
    |mids| == |msgs| && forall k :: 0 <= k < |mids| ==> Own(jobs, mids[k], msgs[k])
  }

  predicate OwnQueue(jobs: seq<Job>, items: seq<Item>) {
    forall k :: 0 <= k < |items| && items[k].Request? ==> Own(jobs, items[k].mid, items[k].msg)
  }

  predicate OwnWork(jobs: seq<Job>, w: Work) {
    && OwnAll(jobs, w.bufferMid, w.buffer)
    && OwnAll(jobs, HeldMids(w.poller), HeldMsgs(w.poller))
    && forall t :: 0 <= t < |w.tasks| ==> OwnAll(jobs, w.tasks[t].mids, w.tasks[t].msgs)
  }

  /** The response says what the handler makes of the message its id was accepted with. */
  predicate Right(h: Msg -> Reply, jobs: seq<Job>, m: Mid, a: Answer) {
    m.id < |jobs| && m == MidOf(jobs[m.id], m.id) && a == Answered(h(jobs[m.id].msg))
  }

  predicate RightAll(h: Msg -> Reply, jobs: seq<Job>, es: seq<Event>) {
    forall k :: 0 <= k < |es| && es[k].Response? ==> Right(h, jobs, es[k].mid, es[k].answer)
  }

  predicate RightTasks(h: Msg -> Reply, jobs: seq<Job>, tasks: seq<Task>) {
    forall t :: 0 <= t < |tasks| && tasks[t].phase.Emitting? ==> RightAll(h, jobs, tasks[t].phase.events)
  }

  predicate RightSink(h: Msg -> Reply, jobs: seq<Job>, k: Sink) {
    && RightAll(h, jobs, k.events)
    && RightAll(h, jobs, k.answered)
    && (k.loop.OweNotify? || k.loop.OweDeliver? ==> Right(h, jobs, k.loop.mid, k.loop.answer))
    && forall i :: 0 <= i < |k.answered| ==> k.answered[i].Response?
  }

  ghost predicate Means(h: Msg -> Reply, s: State) {
    && OwnQueue(s.chan.jobs, s.chan.queue)
    && OwnWork(s.chan.jobs, s.work)
    && RightTasks(h, s.chan.jobs, s.work.tasks)
    && RightSink(h, s.chan.jobs, s.sink)
  }

  lemma OwnRecv(c: Config, jobs: seq<Job>, w: Work, item: Item)
    requires OwnWork(jobs, w) && w.poller.AtRecv? && OwnQueue(jobs, [item])
    ensures OwnWork(jobs, RecvStep(c, w, item))
  {
    assert item.Request? ==> Own(jobs, [item][0].mid, [item][0].msg);
  }

  lemma OwnDo(c: Config, jobs: seq<Job>, w: Work, a: WorkAct)
    requires OwnWork(jobs, w) && EnabledWork(c, w, a)
    ensures OwnWork(jobs, WorkStep(c, w, a))
  {
  }

  lemma RightResponses(h: Msg -> Reply, jobs: seq<Job>, t: Task, c: Config)
    requires OwnAll(jobs, t.mids, t.msgs)
    ensures RightAll(h, jobs, TaskEvents(c, t.mids, Done(Each(h, t.msgs))))
  {
    var out := Done(Each(h, t.msgs));
    var es := TaskEvents(c, t.mids, out);
    forall k | 0 <= k < |es|
      ensures Right(h, jobs, es[k].mid, es[k].answer)
    {
      assert es[k] == Responses(t.mids, out)[k];
      assert Own(jobs, t.mids[k], t.msgs[k]);
    }
  }

  lemma RightDo(c: Config, h: Msg -> Reply, jobs: seq<Job>, w: Work, a: WorkAct)
    requires OwnWork(jobs, w) && RightTasks(h, jobs, w.tasks) && EnabledWork(c, w, a)
    requires a.Handle? ==> a.out == Done(Each(h, w.tasks[a.task].msgs))
    ensures RightTasks(h, jobs, WorkStep(c, w, a).tasks) && RightAll(h, jobs, WorkEvents(c, w, a))
  {
    if a.Handle? {
      RightResponses(h, jobs, w.tasks[a.task], c);
    }
  }

  lemma MoreJobs(h: Msg -> Reply, s: State, j: Job, s': State)
    requires Means(h, s) && s'.chan.jobs == s.chan.jobs + [j] && s'.work == s.work && s'.sink == s.sink
    requires s'.chan.queue == s.chan.queue + [Request(MidOf(j, |s.chan.jobs|), j.msg)]
    ensures Means(h, s')
  {
    var jobs, jobs' := s.chan.jobs, s'.chan.jobs;
    assert forall m, x :: Own(jobs, m, x) ==> Own(jobs', m, x);
    assert forall m, a :: Right(h, jobs, m, a) ==> Right(h, jobs', m, a);
    assert OwnWork(jobs', s.work);
    assert RightTasks(h, jobs', s.work.tasks) && RightSink(h, jobs', s.sink);
    forall k | 0 <= k < |s'.chan.queue| && s'.chan.queue[k].Request?
      ensures Own(jobs', s'.chan.queue[k].mid, s'.chan.queue[k].msg)
    {
      if k < |s.chan.queue| {
        assert Own(jobs, s.chan.queue[k].mid, s.chan.queue[k].msg);
      }
    }
  }

  lemma MeansStep(c: Config, h: Msg -> Reply, s: State, a: Act)
    requires Means(h, s) && Enabled(c, s, a) && Pointwise(h, s, a)
    ensures Means(h, Apply(c, s, a))
  {
    match a {
      case Client(i, x) =>
        if x.Send? && s.chan.open {
          MoreJobs(h, s, s.gate.senders[i].job, Apply(c, s, a));
        }
      case Recv =>
        assert [s.chan.queue[0]][0] == s.chan.queue[0];
        OwnRecv(c, s.chan.jobs, s.work, s.chan.queue[0]);
      case Do(w) =>
        OwnDo(c, s.chan.jobs, s.work, w);
        RightDo(c, h, s.chan.jobs, s.work, w);
      case _ =>
    }
  }

  lemma {:induction false} MeansRun(c: Config, h: Msg -> Reply, s: State, acts: seq<Act>)
    requires Means(h, s) && Valid(c, s, acts) && PointwiseRun(c, h, s, acts)
    ensures Means(h, Exec(c, s, acts))
    decreases |acts|
  {
    if acts != [] {
      MeansStep(c, h, s, acts[0]);
      MeansRun(c, h, Apply(c, s, acts[0]), acts[1..]);
    }
  }

  // ---------------------------------------------------------------- what the answers amount to

  /** A response as the requester sees it. */
  function Seen(h: Msg -> Reply, jobs: seq<Job>, m: Mid): (nat, Answer) {
    (m.mid, if m.id < |jobs| then Answered(h(jobs[m.id].msg)) else NoResponse)
  }

  function SeenAll(h: Msg -> Reply, jobs: seq<Job>, ms: seq<Mid>): seq<(nat, Answer)> {
    seq(|ms|, k requires 0 <= k < |ms| => Seen(h, jobs, ms[k]))
  }

  /** The ids and answers that came out, in order. */
  function Log(es: seq<Event>): seq<(nat, Answer)> {
    if es == [] then []
    else if es[0].Response? then [(es[0].mid.mid, es[0].answer)] + Log(es[1..])
    else Log(es[1..])
  }

  /** What the requests call for: their ids, each with the handler's reply to its message. */
  function Wanted(h: Msg -> Reply, jobs: seq<Job>): seq<(nat, Answer)> {
    seq(|jobs|, i requires 0 <= i < |jobs| => (WireMid(jobs[i]), Answered(h(jobs[i].msg))))
  }

  lemma {:induction false} LogIsSeen(h: Msg -> Reply, jobs: seq<Job>, es: seq<Event>)
    requires RightAll(h, jobs, es)
    ensures Log(es) == SeenAll(h, jobs, EventMids(es))
  {
    if es != [] {
      assert RightAll(h, jobs, es[1..]);
      LogIsSeen(h, jobs, es[1..]);
      if es[0].Response? {
        assert Right(h, jobs, es[0].mid, es[0].answer);
        assert SeenAll(h, jobs, EventMids(es)) == [Seen(h, jobs, es[0].mid)] + SeenAll(h, jobs, EventMids(es[1..]));
      }
    }
  }

  lemma WantedIsSeen(h: Msg -> Reply, jobs: seq<Job>)
    ensures Wanted(h, jobs) == SeenAll(h, jobs, JobMids(jobs))
  {
  }

  function Without<T>(xs: seq<T>, i: nat): seq<T>
    requires i < |xs|
  {
    xs[..i] + xs[i + 1..]
  }

  lemma WithoutBag<T>(xs: seq<T>, i: nat)
    requires i < |xs|
    ensures multiset(xs) == multiset(Without(xs, i)) + multiset{xs[i]}
  {
    assert xs == xs[..i] + [xs[i]] + xs[i + 1..];
  }

  /** Equal bags stay equal under a function. */
  lemma {:induction false} SeenBags(h: Msg -> Reply, jobs: seq<Job>, xs: seq<Mid>, ys: seq<Mid>)
    requires multiset(xs) == multiset(ys)
    ensures multiset(SeenAll(h, jobs, xs)) == multiset(SeenAll(h, jobs, ys))
    decreases |xs|
  {
    if xs == [] {
      assert |multiset(ys)| == 0;
    } else {
      assert xs[0] in multiset(ys);
      var i :| 0 <= i < |ys| && ys[i] == xs[0];
      WithoutBag(xs, 0);
      WithoutBag(ys, i);
      Cancel(multiset(Without(xs, 0)), multiset(Without(ys, i)), multiset{xs[0]});
      SeenBags(h, jobs, Without(xs, 0), Without(ys, i));
      assert SeenAll(h, jobs, Without(xs, 0)) == Without(SeenAll(h, jobs, xs), 0);
      assert SeenAll(h, jobs, Without(ys, i)) == Without(SeenAll(h, jobs, ys), i);
      WithoutBag(SeenAll(h, jobs, xs), 0);
      WithoutBag(SeenAll(h, jobs, ys), i);
    }
  }

  // ---------------------------------------------------------------- the meaning of a run

  /** Nothing is on its way and no partial batch waits or was dropped. */
  ghost predicate Settled(s: State) {
    AtRest(s) && s.work.bufferMid == [] && s.work.dropped == []
  }

  lemma SettledAnswers(c: Config, n: nat, s: State)
    requires Reachable(c, n, s) && Settled(s)
    ensures multiset(EventMids(s.sink.answered)) == multiset(JobMids(s.chan.jobs))
  {
    RequestsConserved(c, n, s);
    DonePending(s.work.tasks);
  }

  /** A settled receiver of any kind has answered each request with the handler's reply to it. */
  lemma AnswersMean(c: Config, n: nat, h: Msg -> Reply, acts: seq<Act>)
    requires Valid(c, Start(c, n), acts) && PointwiseRun(c, h, Start(c, n), acts)
    requires Settled(Exec(c, Start(c, n), acts))
    ensures var s := Exec(c, Start(c, n), acts);
      multiset(Log(s.sink.answered)) == multiset(Wanted(h, s.chan.jobs))
    ensures var s := Exec(c, Start(c, n), acts);
      && |s.sink.answered| == |s.chan.jobs|
      && forall i :: 0 <= i < |s.chan.jobs| ==>
           Response(MidOf(s.chan.jobs[i], i), Answered(h(s.chan.jobs[i].msg))) in s.sink.answered
  {
    var s := Exec(c, Start(c, n), acts);
    MeansRun(c, h, Start(c, n), acts);
    SettledAnswers(c, n, s);
    LogIsSeen(h, s.chan.jobs, s.sink.answered);
    WantedIsSeen(h, s.chan.jobs);
    SeenBags(h, s.chan.jobs, EventMids(s.sink.answered), JobMids(s.chan.jobs));
    EachAnswered(h, s.chan.jobs, s.sink.answered);
  }

  /** Responses that are right and carry the ids of all requests are the replies to all requests. */
  lemma EachAnswered(h: Msg -> Reply, jobs: seq<Job>, answered: seq<Event>)
    requires multiset(EventMids(answered)) == multiset(JobMids(jobs)) && RightAll(h, jobs, answered)
    requires forall i :: 0 <= i < |answered| ==> answered[i].Response?
    ensures |answered| == |jobs|
    ensures forall i :: 0 <= i < |jobs| ==> Response(MidOf(jobs[i], i), Answered(h(jobs[i].msg))) in answered
  {
    MidsEach(answered);
    assert |multiset(EventMids(answered))| == |multiset(JobMids(jobs))|;
    forall i | 0 <= i < |jobs|
      ensures Response(MidOf(jobs[i], i), Answered(h(jobs[i].msg))) in answered
    {
      assert JobMids(jobs)[i] in multiset(JobMids(jobs));
      assert MidOf(jobs[i], i) in EventMids(answered);
      var k :| 0 <= k < |answered| && EventMids(answered)[k] == MidOf(jobs[i], i);
      assert answered[k].mid == MidOf(jobs[i], i) && Right(h, jobs, answered[k].mid, answered[k].answer);
    }
  }

  lemma {:induction false} MidsEach(es: seq<Event>)
    requires forall i :: 0 <= i < |es| ==> es[i].Response?
    ensures |EventMids(es)| == |es| && forall i :: 0 <= i < |es| ==> EventMids(es)[i] == es[i].mid
  {
    if es != [] {
      MidsEach(es[1..]);
      TakeMids(es);
    }
  }

  /** What a caller sends: an id and a message. */
  function Asks(jobs: seq<Job>): seq<(nat, Msg)> {
    seq(|jobs|, i requires 0 <= i < |jobs| => (WireMid(jobs[i]), jobs[i].msg))
  }

  lemma WithoutJob(h: Msg -> Reply, jobs: seq<Job>, i: nat)
    requires i < |jobs|
    ensures Asks(Without(jobs, i)) == Without(Asks(jobs), i)
    ensures Wanted(h, Without(jobs, i)) == Without(Wanted(h, jobs), i)
  {
  }

  lemma {:induction false} SameAsks(h: Msg -> Reply, js: seq<Job>, ks: seq<Job>)
    requires multiset(Asks(js)) == multiset(Asks(ks))
    ensures multiset(Wanted(h, js)) == multiset(Wanted(h, ks))
    decreases |js|
  {
    assert |multiset(Asks(js))| == |js| && |multiset(Asks(ks))| == |ks|;
    if js == [] {
    } else {
      assert Asks(js)[0] in multiset(Asks(ks));
      var i :| 0 <= i < |Asks(ks)| && Asks(ks)[i] == Asks(js)[0];
      WithoutBag(Asks(js), 0);
      WithoutBag(Asks(ks), i);
      Cancel(multiset(Without(Asks(js), 0)), multiset(Without(Asks(ks), i)), multiset{Asks(js)[0]});
      WithoutJob(h, js, 0);
      WithoutJob(h, ks, i);
      SameAsks(h, Without(js, 0), Without(ks, i));
      WithoutBag(Wanted(h, js), 0);
      WithoutBag(Wanted(h, ks), i);
    }
  }

  /** A run that ends with a Flush, or needs none, and then comes to a halt is settled. */
  lemma FlushSettles(c: Config, n: nat, s: State, out: Outcome)
    requires Reachable(c, n, s) && Stuck(c, s) && s.chan.open && ValidOutcome(c, out)
              && (c.Gated() ==> c.maxParallel >= 1)
    requires c.Batched() ==> LastIsFlush(s.chan.enqueued)
    ensures Settled(s)
  {
    StuckAtRest(c, n, s, out);
    ReachableFormed(c, n, s);
    ReachableShape(c, n, s);
    assert Received(s.chan) == s.chan.enqueued;
  }

  /**
   Two receivers of any kinds, limits and batch sizes that accepted the same requests in any order, with
   Flushes anywhere and one at the end, have produced the same responses once they halt.
   */
  lemma BatchingPreservesMeaning(h: Msg -> Reply,
                                 c1: Config, n1: nat, acts1: seq<Act>, out1: Outcome,
                                 c2: Config, n2: nat, acts2: seq<Act>, out2: Outcome)
    requires Valid(c1, Start(c1, n1), acts1) && PointwiseRun(c1, h, Start(c1, n1), acts1)
    requires Valid(c2, Start(c2, n2), acts2) && PointwiseRun(c2, h, Start(c2, n2), acts2)
    requires ValidOutcome(c1, out1) && (c1.Gated() ==> c1.maxParallel >= 1)
    requires ValidOutcome(c2, out2) && (c2.Gated() ==> c2.maxParallel >= 1)
    requires var s1 := Exec(c1, Start(c1, n1), acts1);
      Stuck(c1, s1) && s1.chan.open && (c1.Batched() ==> LastIsFlush(s1.chan.enqueued))
    requires var s2 := Exec(c2, Start(c2, n2), acts2);
      Stuck(c2, s2) && s2.chan.open && (c2.Batched() ==> LastIsFlush(s2.chan.enqueued))
    requires multiset(Asks(Exec(c1, Start(c1, n1), acts1).chan.jobs))
              == multiset(Asks(Exec(c2, Start(c2, n2), acts2).chan.jobs))
    ensures multiset(Log(Exec(c1, Start(c1, n1), acts1).sink.answered))
              == multiset(Log(Exec(c2, Start(c2, n2), acts2).sink.answered))
  {
    var s1, s2 := Exec(c1, Start(c1, n1), acts1), Exec(c2, Start(c2, n2), acts2);
    FlushSettles(c1, n1, s1, out1);
    FlushSettles(c2, n2, s2, out2);
    AnswersMean(c1, n1, h, acts1);
    AnswersMean(c2, n2, h, acts2);
    SameAsks(h, s1.chan.jobs, s2.chan.jobs);
  }
}
