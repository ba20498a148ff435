/**
 What the ledger means for callers: requests are conserved, the counter is exact, and a closed receiver
 has answered everything it accepted except at most the final partial batch.
 */
module Conservation {
  import opened Machine
  import opened Formation
  import opened Ledger
  import opened Invariant

  /** All accepted requests, wherever they are now. */
  function Places(s: State): multiset<Mid> {
    multiset(Mids(s.chan.queue)) + multiset(HeldMids(s.work.poller)) + multiset(s.work.bufferMid)
    + Pending(s.work.tasks) + multiset(EventMids(s.sink.events)) + multiset(InHand(s.sink.loop))
    + multiset(EventMids(s.sink.answered)) + multiset(s.work.dropped)
  }

  /** Accepted requests keep their identity: no two are equal. */
  lemma JobsDistinct(jobs: seq<Job>, m: Mid)
    ensures multiset(JobMids(jobs))[m] <= 1
    ensures m in JobMids(jobs) <==> m.id < |jobs| && m == MidOf(jobs[m.id], m.id)
  {
    Once(JobMids(jobs), m);
  }

  lemma {:induction false} Once(ms: seq<Mid>, m: Mid)
    requires forall i :: 0 <= i < |ms| ==> ms[i].id == i
    ensures multiset(ms)[m] == if m.id < |ms| && ms[m.id] == m then 1 else 0
  {
    if ms != [] {
      var n := |ms| - 1;
      Once(ms[..n], m);
      assert ms == ms[..n] + [ms[n]];
    }
  }

  lemma ReceivedAndQueued(ch: Channel)
    requires Stream(ch)
    ensures Mids(Received(ch)) + Mids(ch.queue) == JobMids(ch.jobs)
    ensures Msgs(Received(ch)) + Msgs(ch.queue) == JobMsgs(ch.jobs)
  {
    StreamAppend(Received(ch), ch.queue);
    assert Received(ch) + ch.queue == ch.enqueued;
  }

  /** Every accepted request is in exactly one place. */
  lemma RequestsConserved(c: Config, n: nat, s: State)
    requires Reachable(c, n, s)
    ensures Places(s) == multiset(JobMids(s.chan.jobs))
    ensures forall m :: Places(s)[m] <= 1
  {
    ReachableFormed(c, n, s);
    ReachableLedger(c, n, s);
    var w, k := s.work, s.sink;
    ReceivedAndQueued(s.chan);
    var flat := FlatMids(w.tasks);
    var line := flat + HeldMids(w.poller) + w.bufferMid + w.dropped;
    assert line == Mids(Received(s.chan));
    assert multiset(line)
        == multiset(flat) + multiset(HeldMids(w.poller)) + multiset(w.bufferMid) + multiset(w.dropped);
    assert multiset(JobMids(s.chan.jobs)) == multiset(line) + multiset(Mids(s.chan.queue));
    Regroup(multiset(Mids(s.chan.queue)), multiset(HeldMids(w.poller)), multiset(w.bufferMid), Pending(w.tasks),
            multiset(EventMids(k.events)), multiset(InHand(k.loop)), multiset(EventMids(k.answered)),
            multiset(w.dropped), multiset(flat));
    forall m ensures Places(s)[m] <= 1 {
      JobsDistinct(s.chan.jobs, m);
    }
  }

  lemma Regroup<T>(q: multiset<T>, h: multiset<T>, b: multiset<T>, p: multiset<T>, e: multiset<T>, l: multiset<T>,
                   a: multiset<T>, d: multiset<T>, flat: multiset<T>)
    requires p + e + l + a == flat
    ensures q + h + b + p + e + l + a + d == (flat + h + b + d) + q
  {
    assert forall x :: (p + e + l + a)[x] == flat[x];
  }

  /**
   The counter is the sum of unused permits, requests queued, in hand, buffered, inside tasks and in
   unprocessed responses, refused sends, and requests dropped with the final partial batch.
   */
  lemma CounterExact(c: Config, n: nat, s: State)
    requires Reachable(c, n, s)
    ensures s.gate.processing
         == Permits(s.gate.senders) + |Mids(s.chan.queue)| + |HeldMids(s.work.poller)| + |s.work.bufferMid|
            + |Pending(s.work.tasks)| + |EventMids(s.sink.events)| + s.chan.refused + |s.work.dropped|
    ensures s.gate.processing >= 0
  {
    ReachableLedger(c, n, s);
  }

  // ---------------------------------------------------------------- the limit

  /** No `force_send` in the run. */
  predicate Unforced(acts: seq<Act>) {
    forall k :: 0 <= k < |acts| ==> !(acts[k].Client? && acts[k].client.Force?)
  }

  /** The limit as the counter sees it; a limit of 2^63 or more admits nothing. */
  function Ceiling(c: Config): int {
    if c.Cap() < 0 then 0 else c.Cap()
  }

  ghost predicate WithinLimit(c: Config, g: Gate) {
    && g.processing <= Ceiling(c)
    && forall i :: 0 <= i < |g.senders| ==>
        !g.senders[i].Forcing? && (g.senders[i].Loaded? ==> g.senders[i].count < c.Cap())
  }

  lemma WithinLimitStep(c: Config, s: State, a: Act)
    requires WithinLimit(c, s.gate) && Enabled(c, s, a) && !(a.Client? && a.client.Force?)
    ensures WithinLimit(c, Apply(c, s, a).gate)
  {
  }

  lemma {:induction false} WithinLimitRun(c: Config, s: State, acts: seq<Act>)
    requires WithinLimit(c, s.gate) && Valid(c, s, acts) && Unforced(acts)
    ensures WithinLimit(c, Exec(c, s, acts).gate)
    decreases |acts|
  {
    if acts != [] {
      WithinLimitStep(c, s, acts[0]);
      assert forall k :: 0 <= k < |acts[1..]| ==> acts[1..][k] == acts[k + 1];
      WithinLimitRun(c, Apply(c, s, acts[0]), acts[1..]);
    }
  }

  lemma CeilingMeans(c: Config)
    requires c.limit < 0x8000_0000_0000_0000
    ensures Ceiling(c) == c.limit
  {
    CastsMean(c);
  }

  /** Backpressure: without `force_send` the counter never exceeds the limit. */
  lemma NeverOverLimit(c: Config, n: nat, acts: seq<Act>)
    requires Valid(c, Start(c, n), acts) && Unforced(acts)
    ensures 0 <= Exec(c, Start(c, n), acts).gate.processing <= Ceiling(c)
    ensures c.limit < 0x8000_0000_0000_0000 ==> Exec(c, Start(c, n), acts).gate.processing <= c.limit
  {
    WithinLimitRun(c, Start(c, n), acts);
    CounterExact(c, n, Exec(c, Start(c, n), acts));
    if c.limit < 0x8000_0000_0000_0000 {
      CeilingMeans(c);
    }
  }

  // ---------------------------------------------------------------- closing

  /**
   When the event loop announces `closed`, every accepted request has had exactly one response processed,
   except those of the final partial batch, which are the last ones accepted.  Unbatched kinds drop none.
   */
  lemma GracefulClose(c: Config, n: nat, s: State)
    requires Reachable(c, n, s) && s.sink.loop.LoopExited?
    ensures |s.work.dropped| < c.Quantum() && |s.work.dropped| <= |s.chan.jobs|
    ensures !c.Batched() ==> s.work.dropped == []
    ensures s.work.dropped == JobMids(s.chan.jobs)[|s.chan.jobs| - |s.work.dropped|..]
    ensures multiset(EventMids(s.sink.answered)) == multiset(JobMids(s.chan.jobs)[..|s.chan.jobs| - |s.work.dropped|])
    ensures forall i :: 0 <= i < |s.chan.jobs| - |s.work.dropped| ==>
              multiset(EventMids(s.sink.answered))[MidOf(s.chan.jobs[i], i)] == 1
  {
    ReachableFormed(c, n, s);
    ReachableShape(c, n, s);
    ReachableLedger(c, n, s);
    var w := s.work;
    ReceivedAndQueued(s.chan);
    assert Mids(s.chan.queue) == [];
    var all, flat := JobMids(s.chan.jobs), FlatMids(w.tasks);
    assert all == flat + w.dropped;
    assert all[..|flat|] == flat && all[|flat|..] == w.dropped;
    DonePending(w.tasks);
    assert multiset(EventMids(s.sink.answered)) == multiset(flat);
    forall i | 0 <= i < |flat|
      ensures multiset(flat)[MidOf(s.chan.jobs[i], i)] == 1
    {
      assert flat[i] == all[i];
      Once(flat, MidOf(s.chan.jobs[i], i));
    }
  }

  lemma {:induction false} DonePending(tasks: seq<Task>)
    requires AllDone(tasks)
    ensures Pending(tasks) == multiset{}
  {
    if tasks != [] {
      DonePending(tasks[..|tasks| - 1]);
    }
  }
}
